/** The shard master seen from outside: what one more command of the agreed log does to the
    history of configurations, which commands count as new, and what queries are told. */
module ShardMasterLog {
  import opened Wrappers
  import opened ShardMaster

  /** Neither this command nor a later one of its clerk is in the log. */
  ghost predicate IsNew(log: seq<Command>, c: Command)
  {
    forall k :: 0 <= k < |log| && log[k].clerk == c.clerk ==> log[k].number < c.number
  }

  /** A master of n shards goes through the whole log without a panic. */
  ghost predicate Survives(n: nat, log: seq<Command>)
  {
    n > 0 && ApplyAll(Init(n), log).Some?
  }

  ghost function Configs(n: nat, log: seq<Command>): (configs: seq<Config>)
    requires Survives(n, log)
    ensures configs != []
  {
    NewestIsCurrent(n, log);
    ApplyAll(Init(n), log).value.configs
  }

  ghost function Newest(n: nat, log: seq<Command>): (c: Config)
    requires Survives(n, log)
  {
    Configs(n, log)[|Configs(n, log)| - 1]
  }

  // ---------- Which commands are new ----------

  /** The mark of a clerk is the largest number it has in the log. */
  ghost predicate Marks(counts: map<nat, int>, log: seq<Command>, clerk: nat)
  {
    && (forall k :: 0 <= k < |log| && log[k].clerk == clerk ==> clerk in counts && log[k].number <= counts[clerk])
    && (clerk in counts ==> exists k :: 0 <= k < |log| && log[k].clerk == clerk && log[k].number == counts[clerk])
  }

  lemma MarkMore(counts: map<nat, int>, log: seq<Command>, c: Command, clerk: nat)
    requires Marks(counts, log, clerk)
    ensures Marks(if c.clerk in counts && counts[c.clerk] >= c.number then counts else counts[c.clerk := c.number],
                  log + [c], clerk)
  {
    if c.clerk == clerk && !(clerk in counts && counts[clerk] >= c.number) {
      assert (log + [c])[|log|] == c;
    } else if clerk in counts {
      var k :| 0 <= k < |log| && log[k].clerk == clerk && log[k].number == counts[clerk];
      assert (log + [c])[k] == log[k];
    }
  }

  lemma {:induction false} MarkIsLargest(n: nat, log: seq<Command>, clerk: nat)
    requires Survives(n, log)
    ensures Marks(ApplyAll(Init(n), log).value.counts, log, clerk)
    decreases |log|
  {
    if log != [] {
      var front, c := log[..|log| - 1], log[|log| - 1];
      MarkIsLargest(n, front, clerk);
      MarkMore(ApplyAll(Init(n), front).value.counts, front, c, clerk);
      CountsAfter(ApplyAll(Init(n), front).value, c);
      assert front + [c] == log;
    }
  }

  lemma CountsAfter(st: State, c: Command)
    requires Apply(st, c).Some?
    ensures Apply(st, c).value.counts
         == if c.clerk in st.counts && st.counts[c.clerk] >= c.number then st.counts
            else st.counts[c.clerk := c.number]
  {
  }

  lemma SkippedIff(n: nat, log: seq<Command>, c: Command)
    requires Survives(n, log)
    ensures var counts := ApplyAll(Init(n), log).value.counts;
      c.clerk in counts && counts[c.clerk] >= c.number <==> !IsNew(log, c)
  {
    MarkIsLargest(n, log, c.clerk);
  }

  /** The first configuration has no groups and no owners, whatever comes later. */
  lemma FirstConfig(n: nat, log: seq<Command>)
    requires Survives(n, log)
    ensures var first := Configs(n, log)[0];
      first.num == 0 && first.groups == map[] && |first.shards| == n && forall k :: 0 <= k < n ==> first.shards[k] == 0
  {
    assert log[..0] == [];
    HistoryGrows(Init(n), log, 0);
  }

  // ---------- One more command ----------

  lemma OneMore(n: nat, log: seq<Command>, c: Command)
    requires Survives(n, log)
    ensures ApplyAll(Init(n), log + [c]) == Apply(ApplyAll(Init(n), log).value, c)
  {
    assert (log + [c])[..|log|] == log;
  }

  /** What is in force when the log has been gone through. */
  lemma InForce(n: nat, log: seq<Command>)
    requires Survives(n, log)
    ensures var st := ApplyAll(Init(n), log).value;
      Ready(st) && |st.shards| == n && Newest(n, log) == Config(|Configs(n, log)| - 1, st.shards, st.groupMap)
  {
    NewestIsCurrent(n, log);
    ShardsKept(n, log);
  }

  lemma {:induction false} ShardsKept(n: nat, log: seq<Command>)
    requires Survives(n, log)
    ensures |ApplyAll(Init(n), log).value.shards| == n
    decreases |log|
  {
    if log != [] {
      var front := log[..|log| - 1];
      ShardsKept(n, front);
      NewestIsCurrent(n, front);
      ApplyKeepsReady(ApplyAll(Init(n), front).value, log[|log| - 1]);
    }
  }

  /** One configuration has been added, and the older ones are in place. */
  ghost predicate Added(before: seq<Config>, after: seq<Config>)
  {
    |after| == |before| + 1 && after[..|before|] == before
  }

  /** A command that the log already holds changes nothing at all, whatever it says. */
  lemma OldChangesNothing(n: nat, log: seq<Command>, c: Command)
    requires Survives(n, log) && !IsNew(log, c)
    ensures ApplyAll(Init(n), log + [c]) == ApplyAll(Init(n), log)
  {
    OneMore(n, log, c);
    SkippedIff(n, log, c);
  }

  /** A new Move gives that one shard to that group and changes nothing else; it panics exactly
      when the group or the shard is not there. */
  lemma NewMove(n: nat, log: seq<Command>, c: Command)
    requires Survives(n, log) && IsNew(log, c) && c.args.Move?
    ensures Survives(n, log + [c]) <==> c.args.gid in Newest(n, log).groups && 0 <= c.args.shard < n
    ensures Survives(n, log + [c]) ==>
      var before, after := Newest(n, log), Newest(n, log + [c]);
      && Added(Configs(n, log), Configs(n, log + [c]))
      && after.groups == before.groups && |after.shards| == |before.shards| == n
      && forall k :: 0 <= k < n ==> after.shards[k] == if k == c.args.shard then c.args.gid else before.shards[k]
  {
    OneMore(n, log, c);
    SkippedIff(n, log, c);
    InForce(n, log);
    if Survives(n, log + [c]) {
      InForce(n, log + [c]);
    }
  }

  /** A Query changes no configuration. */
  lemma NewQuery(n: nat, log: seq<Command>, c: Command)
    requires Survives(n, log) && IsNew(log, c) && c.args.Query?
    ensures Survives(n, log + [c]) && Configs(n, log + [c]) == Configs(n, log)
  {
    OneMore(n, log, c);
    SkippedIff(n, log, c);
    InForce(n, log);
  }

  /** After a new Join the groups are those before and the newcomers, with their servers; it panics
      exactly when one of the newcomers is already there. */
  lemma NewJoin(n: nat, log: seq<Command>, c: Command)
    requires Survives(n, log) && IsNew(log, c) && c.args.Join?
    ensures Survives(n, log + [c]) <==> forall g :: g in c.args.servers ==> g !in Newest(n, log).groups
    ensures Survives(n, log + [c]) ==>
      var before, after := Newest(n, log).groups, Newest(n, log + [c]).groups;
      && Added(Configs(n, log), Configs(n, log + [c]))
      && (forall g :: g in after <==> g in before || g in c.args.servers)
      && (forall g :: g in before ==> after[g] == before[g])
      && (forall g :: g in c.args.servers ==> after[g] == c.args.servers[g])
  {
    OneMore(n, log, c);
    SkippedIff(n, log, c);
    InForce(n, log);
    NoneShared(c.args.servers.Keys, Newest(n, log).groups.Keys);
    if Survives(n, log + [c]) {
      InForce(n, log + [c]);
    }
  }

  lemma NoneShared(a: set<int>, b: set<int>)
    ensures a * b == {} <==> forall g :: g in a ==> g !in b
  {
    assert (forall g :: g !in a * b) ==> a * b == {};
    forall g | g in a && g in b ensures a * b != {} {
      assert g in a * b;
    }
  }

  /** After a new Leave the groups are those before without the ones that leave. */
  lemma NewLeave(n: nat, log: seq<Command>, c: Command)
    requires Survives(n, log) && IsNew(log, c) && c.args.Leave?
    ensures Survives(n, log + [c]) && Added(Configs(n, log), Configs(n, log + [c]))
    ensures var before, after := Newest(n, log).groups, Newest(n, log + [c]).groups;
      && (forall g :: g in after <==> g in before && g !in c.args.gids)
      && (forall g :: g in after ==> after[g] == before[g])
  {
    OneMore(n, log, c);
    SkippedIff(n, log, c);
    InForce(n, log);
    InForce(n, log + [c]);
  }

  // ---------- Who owns which shard ----------

  lemma ProductIsNat(a: nat, b: nat)
    ensures a * b >= 0
  {
  }

  /** Shard j of the run of the g-th group. */
  lemma {:induction false} RunsAt(keys: seq<int>, perGroup: nat, g: nat, j: nat, at: int)
    requires g < |keys| && j < perGroup && at == g * perGroup + j
    ensures 0 <= at < |Runs(keys, perGroup)| && Runs(keys, perGroup)[at] == keys[g]
  {
    var front := keys[..|keys| - 1];
    ProductIsNat(g, perGroup);
    if g < |front| {
      RunsAt(front, perGroup, g, j, at);
    } else {
      RunsLength(front, perGroup);
    }
  }

  /** The g-th group owns shard `at`, the j-th of its run; the last group owns the last shard;
      the shards from `rest` on that no run reached keep their owners. */
  ghost predicate OwnedInRuns(before: seq<int>, after: seq<int>, keys: seq<int>, g: nat, at: int, rest: int)
    requires g < |keys|
  {
    && |after| == |before| && 0 <= at < |after| && 0 <= rest
    && (at < |after| - 1 ==> after[at] == keys[g])
    && after[|after| - 1] == keys[|keys| - 1]
    && forall s :: rest <= s < |after| - 1 ==> after[s] == before[s]
  }

  lemma DealtRunsAt(shards: seq<int>, keys: seq<int>, perGroup: nat, g: nat, at: int, rest: int)
    requires shards != [] && g < |keys| && |Runs(keys, perGroup)| <= |shards|
    requires 0 <= at < |Runs(keys, perGroup)| == rest && Runs(keys, perGroup)[at] == keys[g]
    ensures OwnedInRuns(shards, DealtRuns(shards, keys, perGroup), keys, g, at, rest)
  {
  }

  lemma DealtInRuns(shards: seq<int>, keys: seq<int>)
    requires shards != [] && keys != []
    ensures var perGroup := |shards| / |keys|;
      |Runs(keys, perGroup)| <= |shards| && Dealt(shards, keys) == DealtRuns(shards, keys, perGroup)
  {
    RunsFit(keys, |shards|);
  }

  lemma RedealtBy(st: State, c: Command)
    requires Ready(st) && (c.args.Join? || c.args.Leave?) && Apply(st, c).Some?
    requires !(c.clerk in st.counts && st.counts[c.clerk] >= c.number)
    ensures var r := Apply(st, c).value; r.shards == Dealt(st.shards, KeysSorted(r.groupMap.Keys))
  {
  }

  /** After a new Join or Leave the shards are dealt out to the groups in ascending order, in runs
      of n / |groups|. */
  lemma NewOwners(n: nat, log: seq<Command>, c: Command, keys: seq<int>, perGroup: nat, g: nat, j: nat,
                  at: int, rest: int)
    requires Survives(n, log) && IsNew(log, c) && (c.args.Join? || c.args.Leave?) && Survives(n, log + [c])
    requires SortedKeys(keys, Newest(n, log + [c]).groups.Keys) && g < |keys|
    requires perGroup == n / |keys| && j < perGroup && at == g * perGroup + j && rest == |keys| * perGroup
    ensures OwnedInRuns(Newest(n, log).shards, Newest(n, log + [c]).shards, keys, g, at, rest)
  {
    OneMore(n, log, c);
    SkippedIff(n, log, c);
    InForce(n, log);
    InForce(n, log + [c]);
    var groups := Newest(n, log + [c]).groups.Keys;
    KeysAreSorted(groups);
    SortedUnique(keys, KeysSorted(groups), groups);
    RedealtBy(ApplyAll(Init(n), log).value, c);
    RunsAt(keys, perGroup, g, j, at);
    RunsLength(keys, perGroup);
    DealtInRuns(Newest(n, log).shards, keys);
    DealtRunsAt(Newest(n, log).shards, keys, perGroup, g, at, rest);
  }

  /** Without groups nobody owns a shard. */
  lemma NoGroupsNoOwners(n: nat, log: seq<Command>, c: Command, s: nat)
    requires Survives(n, log) && IsNew(log, c) && (c.args.Join? || c.args.Leave?) && Survives(n, log + [c])
    requires Newest(n, log + [c]).groups == map[] && s < n
    ensures var after := Newest(n, log + [c]).shards; |after| == n && after[s] == 0
  {
    OneMore(n, log, c);
    SkippedIff(n, log, c);
    InForce(n, log);
    InForce(n, log + [c]);
  }

  // ---------- How many configurations there are ----------

  /** How many commands of the log are new when their turn comes, and not just queries. */
  ghost function Changes(log: seq<Command>): (k: nat)
  {
    if log == [] then 0
    else
      var front, c := log[..|log| - 1], log[|log| - 1];
      Changes(front) + if IsNew(front, c) && !c.args.Query? then 1 else 0
  }

  /** There is one configuration for each change, after the first one. */
  lemma {:induction false} OneConfigPerChange(n: nat, log: seq<Command>)
    requires Survives(n, log)
    ensures |Configs(n, log)| == 1 + Changes(log)
    decreases |log|
  {
    if log != [] {
      var front, c := log[..|log| - 1], log[|log| - 1];
      assert front + [c] == log;
      OneConfigPerChange(n, front);
      if !IsNew(front, c) {
        OldChangesNothing(n, front, c);
      } else {
        match c.args {
          case Join(servers) => NewJoin(n, front, c);
          case Leave(gids) => NewLeave(n, front, c);
          case Query(num) => NewQuery(n, front, c);
          case Move(shard, gid) => NewMove(n, front, c);
        }
      }
    }
  }

  // ---------- Queries ----------

  /** A query is answered with the configuration of its number if there is one, and with the
      assignment in force otherwise. */
  lemma QueryAnswer(n: nat, log: seq<Command>, num: int)
    requires Survives(n, log)
    ensures var answer, st := QueryResult(Configs(n, log), num), ApplyAll(Init(n), log).value;
      if 0 <= num < 1 + Changes(log) then answer in Configs(n, log) && answer.num == num
      else answer == Config(Changes(log), st.shards, st.groupMap)
  {
    OneConfigPerChange(n, log);
    InForce(n, log);
  }
}
