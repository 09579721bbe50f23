/** The shard master: a numbered history of configurations built from an agreed log, with
    shards dealt out evenly to the groups. */
module ShardMaster {
  import opened Wrappers
  import opened Collections

  datatype Config = Config(num: nat, shards: seq<int>, groups: map<int, seq<string>>)

  datatype Args =
    | Join(servers: map<int, seq<string>>)
    | Leave(gids: seq<int>)
    | Query(num: int)
    | Move(shard: int, gid: int)

  datatype Command = Command(clerk: nat, number: int, args: Args)

  datatype State = State(groupMap: map<int, seq<string>>, shards: seq<int>, configs: seq<Config>, counts: map<nat, int>)

  function Init(nShards: nat): (s: State)
  {
    State(map[], seq(nShards, _ => 0), [Config(0, seq(nShards, _ => 0), map[])], map[])
  }

  // ---------- Sorted keys ----------

  ghost predicate Ascending(keys: seq<int>)
  {
    forall i, j :: 0 <= i < j < |keys| ==> keys[i] < keys[j]
  }

  /** The keys, in ascending order. */
  ghost predicate SortedKeys(keys: seq<int>, all: set<int>)
  {
    Ascending(keys) && forall k :: k in keys <==> k in all
  }

  /** There is only one way to list a set in ascending order. */
  lemma {:induction false} SortedUnique(a: seq<int>, b: seq<int>, all: set<int>)
    requires SortedKeys(a, all) && SortedKeys(b, all)
    ensures a == b
    decreases |a|
  {
    assert forall k :: k in a <==> k in b;
    EmptyIff(a);
    EmptyIff(b);
    if a != [] {
      assert a[0] in b && b[0] in a;
      TailKeys(a, all);
      TailKeys(b, all);
      SortedUnique(a[1..], b[1..], all - {a[0]});
    }
  }

  lemma EmptyIff(a: seq<int>)
    ensures a != [] ==> a[0] in a
  {
    if a != [] {
      assert a[0] in a;
    }
  }

  lemma TailKeys(a: seq<int>, all: set<int>)
    requires SortedKeys(a, all) && a != []
    ensures SortedKeys(a[1..], all - {a[0]})
  {
    forall k ensures k in a[1..] <==> k in all - {a[0]} {
      if k in all && k != a[0] {
        assert k in a;
      }
      if k in a[1..] {
        assert k in a;
      }
    }
  }

  predicate IntLe(a: int, b: int)
  {
    a <= b
  }

  // ---------- Dealing out shards ----------

  /** Equal runs of shards, one for each group. */
  function Runs(keys: seq<int>, perGroup: nat): (r: seq<int>)
  {
    if keys == [] then [] else Runs(keys[..|keys| - 1], perGroup) + Repeat(keys[|keys| - 1], perGroup)
  }

  lemma {:induction false} RunsLength(keys: seq<int>, perGroup: nat)
    ensures |Runs(keys, perGroup)| == |keys| * perGroup
  {
    if keys != [] {
      RunsLength(keys[..|keys| - 1], perGroup);
      assert |keys| * perGroup == (|keys| - 1) * perGroup + perGroup;
    }
  }

  lemma RunsFit(keys: seq<int>, nShards: nat)
    requires keys != []
    ensures |Runs(keys, nShards / |keys|)| == nShards - nShards % |keys|
  {
    RunsLength(keys, nShards / |keys|);
  }

  lemma {:induction false} RunsPrefix(keys: seq<int>, n: nat, perGroup: nat)
    requires n <= |keys|
    ensures Runs(keys[..n], perGroup) <= Runs(keys, perGroup)
    decreases |keys| - n
  {
    if n == |keys| {
      assert keys[..n] == keys;
    } else {
      RunsPrefix(keys, n + 1, perGroup);
      assert keys[..n + 1][..n] == keys[..n];
    }
  }

  /** The run of one more group. */
  lemma RunsStep(keys: seq<int>, n: nat, perGroup: nat)
    requires n < |keys|
    ensures Runs(keys[..n + 1], perGroup) == Runs(keys[..n], perGroup) + Repeat(keys[n], perGroup)
    ensures |Runs(keys[..n], perGroup)| + perGroup == |Runs(keys[..n + 1], perGroup)| <= |Runs(keys, perGroup)|
  {
    assert keys[..n + 1][..n] == keys[..n];
    RunsPrefix(keys, n + 1, perGroup);
  }

  /** The owners after runs of this length are dealt out: the last shard goes to the last
      group, and what the runs do not reach stays as it was. */
  function DealtRuns(shards: seq<int>, keys: seq<int>, perGroup: nat): (r: seq<int>)
    requires shards != [] && keys != [] && |Runs(keys, perGroup)| <= |shards|
    ensures |r| == |shards|
  {
    var runs := Runs(keys, perGroup);
    (runs + shards[|runs|..])[|shards| - 1 := keys[|keys| - 1]]
  }

  /** The owners after the shards are dealt out evenly to the sorted groups. */
  function Dealt(shards: seq<int>, keys: seq<int>): (r: seq<int>)
    requires shards != []
    ensures |r| == |shards|
  {
    if keys == [] then Repeat(0, |shards|)
    else
      RunsFit(keys, |shards|);
      DealtRuns(shards, keys, |shards| / |keys|)
  }

  lemma FillStep(done: seq<int>, gid: int, j: nat, before: seq<int>)
    requires |done| + j < |before|
    ensures var i := |done| + j;
      (done + Repeat(gid, j) + before[i..])[i := gid] == done + Repeat(gid, j + 1) + before[i + 1..]
  {
  }

  // ---------- What the commands do ----------

  ghost predicate IsMax(k: int, all: set<int>)
  {
    k in all && forall x :: x in all ==> x <= k
  }

  lemma MaxOfMore(y: int, z: int, all: set<int>)
    requires y in all && IsMax(z, all - {y})
    ensures IsMax(if y > z then y else z, all)
  {
    forall x | x in all ensures x <= if y > z then y else z {
      assert x == y || x in all - {y};
    }
  }

  lemma {:induction false} HasMax(all: set<int>)
    requires all != {}
    ensures exists k :: IsMax(k, all)
    decreases |all|
  {
    assert (forall g :: g !in all) ==> all == {};
    var y :| y in all;
    if all == {y} {
      assert IsMax(y, all);
    } else {
      assert all - {y} != {};
      HasMax(all - {y});
      var z :| IsMax(z, all - {y});
      MaxOfMore(y, z, all);
    }
  }

  ghost function Max(all: set<int>): (k: int)
    requires all != {}
    ensures k in all
  {
    HasMax(all);
    var k :| IsMax(k, all); k
  }

  /** Lists a set in ascending order. */
  ghost function KeysSorted(all: set<int>): (keys: seq<int>)
  {
    if all == {} then []
    else
      var m := Max(all);
      KeysSorted(all - {m}) + [m]
  }

  lemma {:induction false} KeysAreSorted(all: set<int>)
    ensures SortedKeys(KeysSorted(all), all)
    decreases |all|
  {
    if all != {} {
      HasMax(all);
      var m := Max(all);
      KeysAreSorted(all - {m});
      AppendMax(KeysSorted(all - {m}), m, all);
    }
  }

  lemma AppendMax(keys: seq<int>, m: int, all: set<int>)
    requires IsMax(m, all) && SortedKeys(keys, all - {m})
    ensures SortedKeys(keys + [m], all)
  {
    forall i | 0 <= i < |keys| ensures keys[i] < m {
      assert keys[i] in keys;
    }
    assert (keys + [m])[|keys|] == m;
    forall k ensures k in keys + [m] <==> k in all {
      assert k in keys <==> k in all - {m};
    }
  }

  ghost predicate Ready(st: State)
  {
    st.shards != [] && st.configs != [] && ConfigsNumbered(st.configs)
  }

  /** Every configuration sits at its own number. */
  ghost predicate ConfigsNumbered(configs: seq<Config>)
  {
    forall k :: 0 <= k < |configs| ==> configs[k].num == k
  }

  /** The configuration a query asks for; the latest one for a number out of range. */
  function QueryResult(configs: seq<Config>, num: int): (c: Config)
    requires configs != []
  {
    if num < 0 || num >= |configs| then configs[|configs| - 1] else configs[num]
  }

  /** The current assignment, recorded under the next number. */
  function Recorded(st: State): (r: State)
    requires st.configs != []
  {
    st.(configs := st.configs + [Config(st.configs[|st.configs| - 1].num + 1, st.shards, st.groupMap)])
  }

  ghost function Redistributed(st: State): (r: State)
    requires st.shards != [] && st.configs != []
  {
    Recorded(st.(shards := Dealt(st.shards, KeysSorted(st.groupMap.Keys))))
  }

  /** What a new command does; None where the program panics. */
  ghost function Effect(st: State, args: Args): (r: Option<State>)
    requires st.shards != [] && st.configs != []
  {
    match args
    case Join(servers) =>
      if servers.Keys * st.groupMap.Keys != {} then None
      else Some(Redistributed(st.(groupMap := st.groupMap + servers)))
    case Leave(gids) => Some(Redistributed(st.(groupMap := st.groupMap - (set g | g in gids))))
    case Query(num) => Some(st)
    case Move(shard, gid) =>
      if gid !in st.groupMap || !(0 <= shard < |st.shards|) then None
      else Some(Recorded(st.(shards := st.shards[shard := gid])))
  }

  /** One command of the agreed log: a command at or below the clerk's mark is skipped.  A
      master without shards or without configurations does not occur. */
  ghost function Apply(st: State, c: Command): (r: Option<State>)
  {
    if c.clerk in st.counts && st.counts[c.clerk] >= c.number then Some(st)
    else if st.shards == [] || st.configs == [] then None
    else
      match Effect(st, c.args)
      case None => None
      case Some(r) => Some(r.(counts := r.counts[c.clerk := c.number]))
  }

  lemma ApplyKeepsReady(st: State, c: Command)
    requires Ready(st) && Apply(st, c).Some?
    ensures Ready(Apply(st, c).value) && |Apply(st, c).value.shards| == |st.shards|
    ensures st.configs <= Apply(st, c).value.configs
  {
  }

  /** The newest configuration is the assignment in force. */
  ghost predicate Current(st: State)
  {
    st.configs != [] &&
    var last := st.configs[|st.configs| - 1];
    last.shards == st.shards && last.groups == st.groupMap
  }

  lemma ApplyKeepsCurrent(st: State, c: Command)
    requires Ready(st) && Current(st) && Apply(st, c).Some?
    ensures Current(Apply(st, c).value)
  {
  }

  /** A whole log from a state; None when some command makes the program panic. */
  ghost function ApplyAll(st: State, log: seq<Command>): (r: Option<State>)
    decreases |log|
  {
    if log == [] then Some(st)
    else
      match ApplyAll(st, log[..|log| - 1])
      case None => None
      case Some(before) => Apply(before, log[|log| - 1])
  }

  /** The groups so far, when `rest` of the newcomers have not been taken yet. */
  ghost predicate Joined(servers: map<int, seq<string>>, before: map<int, seq<string>>, rest: set<int>,
                         now: map<int, seq<string>>)
  {
    && rest <= servers.Keys && (servers.Keys - rest) !! before.Keys
    && now.Keys == before.Keys + (servers.Keys - rest)
    && (forall g :: g in before ==> now[g] == before[g])
    && (forall g :: g in servers && g !in rest ==> now[g] == servers[g])
  }

  lemma JoinStep(servers: map<int, seq<string>>, before: map<int, seq<string>>, rest: set<int>,
                 now: map<int, seq<string>>, gid: int)
    requires Joined(servers, before, rest, now) && gid in rest && gid !in now
    ensures Joined(servers, before, rest - {gid}, now[gid := servers[gid]])
  {
    assert servers.Keys - (rest - {gid}) == (servers.Keys - rest) + {gid};
  }

  lemma JoinRefused(servers: map<int, seq<string>>, before: map<int, seq<string>>, rest: set<int>,
                    now: map<int, seq<string>>, gid: int)
    requires Joined(servers, before, rest, now) && gid in rest && gid in now
    ensures servers.Keys * before.Keys != {}
  {
    assert gid in servers.Keys * before.Keys;
  }

  lemma JoinDone(servers: map<int, seq<string>>, before: map<int, seq<string>>, now: map<int, seq<string>>)
    requires Joined(servers, before, {}, now)
    ensures servers.Keys * before.Keys == {} && now == before + servers
  {
    assert servers.Keys - {} == servers.Keys;
    assert now.Keys == (before + servers).Keys;
    assert forall g :: g in now ==> now[g] == (before + servers)[g];
  }

  // ---------- The server object ----------

  class Master {
    var groupMap: map<int, seq<string>>
    var shards: array<int>
    var configs: seq<Config>
    var counts: map<nat, int>

    ghost function Value(): (s: State)
      reads this, shards
    {
      State(groupMap, shards[..], configs, counts)
    }

    constructor (nShards: nat)
      ensures Value() == Init(nShards) && fresh(shards)
    {
      groupMap := map[];
      shards := new int[nShards](_ => 0);
      configs := [Config(0, seq(nShards, _ => 0), map[])];
      counts := map[];
    }

    /** Deals the shards out; the order in which the map yields its keys does not matter. */
    method RedistributeShard()
      requires shards.Length > 0
      modifies shards
      ensures forall keys :: SortedKeys(keys, groupMap.Keys) ==> shards[..] == Dealt(old(shards[..]), keys)
    {
      ghost var before := shards[..];
      var keys := SortSet(groupMap.Keys, IntLe);
      if |keys| == 0 {
        for j := 0 to shards.Length
          invariant shards[..j] == Repeat(0, j)
        {
          shards[j] := 0;
        }
        assert shards[..] == shards[..shards.Length];
      } else {
        DealOut(keys);
      }
      forall ks | SortedKeys(ks, groupMap.Keys) ensures ks == keys {
        SortedUnique(ks, keys, groupMap.Keys);
      }
    }

    method DealOut(keys: seq<int>)
      requires shards.Length > 0 && keys != []
      modifies shards
      ensures shards[..] == Dealt(old(shards[..]), keys)
    {
      RunsFit(keys, shards.Length);
      var lastGid := DealRuns(keys, shards.Length / |keys|);
      shards[shards.Length - 1] := lastGid;
    }

    /** Gives every group its run of shards. */
    method DealRuns(keys: seq<int>, shardPerGroup: nat) returns (lastGid: int)
      requires keys != [] && |Runs(keys, shardPerGroup)| <= shards.Length
      modifies shards
      ensures lastGid == keys[|keys| - 1]
      ensures var runs := Runs(keys, shardPerGroup); shards[..] == runs + old(shards[..])[|runs|..]
    {
      ghost var before := shards[..];
      var i := 0;
      lastGid := 0;
      for n := 0 to |keys|
        invariant n > 0 ==> lastGid == keys[n - 1]
        invariant i == |Runs(keys[..n], shardPerGroup)| <= shards.Length
        invariant shards[..] == Runs(keys[..n], shardPerGroup) + before[i..]
      {
        lastGid := keys[n];
        RunsStep(keys, n, shardPerGroup);
        i := FillRun(keys[n], i, shardPerGroup, Runs(keys[..n], shardPerGroup), before);
      }
      assert keys[..|keys|] == keys;
    }

    /** Gives the next shards to one group. */
    method FillRun(gid: int, start: nat, count: nat, ghost done: seq<int>, ghost before: seq<int>) returns (i: nat)
      requires |before| == shards.Length && start == |done| && start + count <= shards.Length
      requires shards[..] == done + before[start..]
      modifies shards
      ensures i == start + count && shards[..] == done + Repeat(gid, count) + before[i..]
    {
      i := start;
      for j := 0 to count
        invariant i == start + j
        invariant shards[..] == done + Repeat(gid, j) + before[i..]
      {
        FillStep(done, gid, j, before);
        shards[i] := gid;
        i := i + 1;
      }
    }

    method GenerateConfig() returns (c: Config)
      requires configs != []
      ensures c == Config(configs[|configs| - 1].num + 1, shards[..], groupMap)
    {
      c := Config(configs[|configs| - 1].num + 1, shards[..], groupMap);
    }

    /** New groups come in; the order in which they are taken from the message does not matter.
        `ok` is false where the program panics, because a group is already there. */
    method HandleJoin(servers: map<int, seq<string>>) returns (ok: bool)
      requires shards.Length > 0 && configs != []
      modifies this, shards
      ensures shards == old(shards) && ok == Effect(old(Value()), Join(servers)).Some?
      ensures ok ==> Value() == Effect(old(Value()), Join(servers)).value
    {
      ok := AddGroups(servers);
      if ok {
        Rebalance();
      }
    }

    method AddGroups(servers: map<int, seq<string>>) returns (ok: bool)
      modifies this`groupMap
      ensures ok == (servers.Keys * old(groupMap).Keys == {})
      ensures ok ==> groupMap == old(groupMap) + servers
    {
      var rest := servers.Keys;
      ghost var before := groupMap;
      while rest != {}
        invariant Joined(servers, before, rest, groupMap)
        decreases |rest|
      {
        assert (forall g :: g !in rest) ==> rest == {};
        var gid :| gid in rest;
        if gid in groupMap {
          JoinRefused(servers, before, rest, groupMap, gid);
          return false;
        }
        JoinStep(servers, before, rest, groupMap, gid);
        groupMap := groupMap[gid := servers[gid]];
        rest := rest - {gid};
      }
      JoinDone(servers, before, groupMap);
      return true;
    }

    /** Deals the shards out and adds the configuration. */
    method Rebalance()
      requires shards.Length > 0 && configs != []
      modifies this`configs, shards
      ensures Value() == Redistributed(old(Value()))
    {
      ghost var st := Value();
      RedistributeShard();
      KeysAreSorted(groupMap.Keys);
      var c := GenerateConfig();
      configs := configs + [c];
    }

    method HandleLeave(gids: seq<int>)
      requires shards.Length > 0 && configs != []
      modifies this, shards
      ensures shards == old(shards) && Value() == Effect(old(Value()), Leave(gids)).value
    {
      ghost var before := groupMap;
      for i := 0 to |gids|
        invariant groupMap == before - (set g | g in gids[..i])
        invariant shards == old(shards) && shards[..] == old(shards[..])
        invariant configs == old(configs) && counts == old(counts)
      {
        groupMap := groupMap - {gids[i]};
        assert gids[..i + 1] == gids[..i] + [gids[i]];
      }
      assert gids[..|gids|] == gids;
      Rebalance();
    }

    /** `ok` is false where the program panics: no such group, or no such shard. */
    method HandleMove(shard: int, gid: int) returns (ok: bool)
      requires shards.Length > 0 && configs != []
      modifies this`configs, shards
      ensures ok == Effect(old(Value()), Move(shard, gid)).Some?
      ensures ok ==> Value() == Effect(old(Value()), Move(shard, gid)).value
    {
      if gid !in groupMap || !(0 <= shard < shards.Length) {
        return false;
      }
      shards[shard] := gid;
      var c := GenerateConfig();
      configs := configs + [c];
      return true;
    }

    method HandleQuery(num: int) returns (c: Config)
      requires configs != [] && ConfigsNumbered(configs)
      ensures c == QueryResult(configs, num)
    {
      var last := configs[|configs| - 1].num;
      if num < 0 || num > last {
        return configs[last];
      }
      return configs[num];
    }

    /** One message of the apply channel. */
    method ApplyCommand(c: Command) returns (ok: bool)
      requires Ready(Value())
      modifies this, shards
      ensures shards == old(shards) && ok == Apply(old(Value()), c).Some?
      ensures ok ==> Value() == Apply(old(Value()), c).value
    {
      if c.clerk in counts && counts[c.clerk] >= c.number {
        return true;
      }
      match c.args {
        case Join(servers) =>
          ok := HandleJoin(servers);
        case Leave(gids) =>
          HandleLeave(gids);
          ok := true;
        case Query(num) =>
          ok := true;
        case Move(shard, gid) =>
          ok := HandleMove(shard, gid);
      }
      if ok {
        ghost var done := Value();
        counts := counts[c.clerk := c.number];
        assert Value() == done.(counts := done.counts[c.clerk := c.number]);
      }
    }

    /** A replica that is fed a whole log; `ok` is false where a command makes it panic. */
    method ApplyLog(log: seq<Command>) returns (ok: bool)
      requires Ready(Value())
      modifies this, shards
      ensures ok == ApplyAll(old(Value()), log).Some?
      ensures ok ==> Value() == ApplyAll(old(Value()), log).value
    {
      for i := 0 to |log|
        invariant shards == old(shards) && Ready(Value())
        invariant ApplyAll(old(Value()), log[..i]) == Some(Value())
      {
        ghost var st := Value();
        assert log[..i + 1][..i] == log[..i];
        ok := ApplyCommand(log[i]);
        if ok {
          ApplyKeepsReady(st, log[i]);
        }
        if !ok {
          PanicIsFinal(old(Value()), log, i + 1);
          return;
        }
      }
      assert log[..|log|] == log;
      return true;
    }
  }

  // ---------- The history ----------

  /** The state `after` has the configurations of `before`, in place, and is as sound. */
  ghost predicate Continues(before: State, after: State)
  {
    && before.configs <= after.configs && (Ready(before) ==> Ready(after))
    && (Ready(before) && Current(before) ==> Current(after))
  }

  lemma ApplyContinues(st: State, c: Command)
    requires Apply(st, c).Some?
    ensures Continues(st, Apply(st, c).value)
  {
    if Ready(st) {
      ApplyKeepsReady(st, c);
      if Current(st) {
        ApplyKeepsCurrent(st, c);
      }
    }
  }

  lemma ContinuesOn(a: State, b: State, c: State)
    requires Continues(a, b) && Continues(b, c)
    ensures Continues(a, c)
  {
  }

  /** The configurations after a prefix of the log are still there, in place, after the whole log. */
  lemma {:induction false} HistoryGrows(st: State, log: seq<Command>, k: nat)
    requires k <= |log| && ApplyAll(st, log).Some?
    ensures ApplyAll(st, log[..k]).Some?
    ensures Continues(ApplyAll(st, log[..k]).value, ApplyAll(st, log).value)
    decreases |log|
  {
    if k == |log| {
      assert log[..k] == log;
    } else {
      var front := log[..|log| - 1];
      HistoryGrows(st, front, k);
      assert front[..k] == log[..k];
      ApplyContinues(ApplyAll(st, front).value, log[|log| - 1]);
      ContinuesOn(ApplyAll(st, log[..k]).value, ApplyAll(st, front).value, ApplyAll(st, log).value);
    }
  }

  lemma PanicIsFinal(st: State, log: seq<Command>, k: nat)
    requires k <= |log| && ApplyAll(st, log[..k]).None?
    ensures ApplyAll(st, log).None?
  {
    if ApplyAll(st, log).Some? {
      HistoryGrows(st, log, k);
    }
  }

  /** The newest configuration is always the assignment in force. */
  lemma NewestIsCurrent(nShards: nat, log: seq<Command>)
    requires nShards > 0 && ApplyAll(Init(nShards), log).Some?
    ensures Ready(ApplyAll(Init(nShards), log).value) && Current(ApplyAll(Init(nShards), log).value)
    ensures var st := ApplyAll(Init(nShards), log).value;
      st.configs != [] && st.configs[|st.configs| - 1] == Config(|st.configs| - 1, st.shards, st.groupMap)
  {
    HistoryGrows(Init(nShards), log, 0);
    assert log[..0] == [];
  }

  /** A query for a number that exists gets the configuration of that number, and the same one
      however many commands come later. */
  lemma HistoricalQueryIsStable(nShards: nat, log: seq<Command>, k: nat, num: nat)
    requires nShards > 0 && k <= |log| && ApplyAll(Init(nShards), log).Some?
    ensures ApplyAll(Init(nShards), log[..k]).Some?
    ensures var early, late := ApplyAll(Init(nShards), log[..k]).value.configs,
                               ApplyAll(Init(nShards), log).value.configs;
      num < |early| ==>
        early != [] && late != [] && QueryResult(early, num) == QueryResult(late, num)
        && QueryResult(late, num).num == num
  {
    HistoryGrows(Init(nShards), log, k);
    NewestIsCurrent(nShards, log);
  }

  // ---------- Balance ----------

  /** Every shard has a live owner, and the groups' loads differ by at most one. */
  ghost predicate Balanced(owners: seq<int>, groups: set<int>)
  {
    && (forall s :: 0 <= s < |owners| ==> owners[s] in groups)
    && forall a, b :: a in groups && b in groups ==> multiset(owners)[a] <= multiset(owners)[b] + 1
  }

  lemma {:induction false} RepeatCount(gid: int, n: nat, g: int)
    ensures multiset(Repeat(gid, n))[g] == if g == gid then n else 0
  {
    if n > 0 {
      RepeatCount(gid, n - 1, g);
    }
  }

  lemma {:induction false} RunsCount(keys: seq<int>, perGroup: nat, g: int)
    requires Ascending(keys)
    ensures multiset(Runs(keys, perGroup))[g] == if g in keys then perGroup else 0
  {
    if keys != [] {
      var front, last := keys[..|keys| - 1], keys[|keys| - 1];
      assert keys == front + [last];
      RunsCount(front, perGroup, g);
      RepeatCount(last, perGroup, g);
    }
  }

  lemma {:induction false} SortedCount(keys: seq<int>, all: set<int>)
    requires SortedKeys(keys, all)
    ensures |keys| == |all|
    decreases |keys|
  {
    if keys == [] {
      assert (forall g :: g !in all) ==> all == {};
    } else {
      assert keys[0] in keys;
      TailKeys(keys, all);
      SortedCount(keys[1..], all - {keys[0]});
    }
  }

  /** What the loop leaves: whole runs, and one more shard for the last group when one is over. */
  lemma DealtEvenly(shards: seq<int>, keys: seq<int>, perGroup: nat)
    requires shards != [] && keys != [] && |shards| - 1 <= |Runs(keys, perGroup)| <= |shards|
    ensures var runs := Runs(keys, perGroup);
      DealtRuns(shards, keys, perGroup) == if |runs| == |shards| then runs else runs + [keys[|keys| - 1]]
  {
    if |Runs(keys, perGroup)| == |shards| {
      RunsEnd(keys, perGroup);
    }
  }

  lemma RunsEnd(keys: seq<int>, perGroup: nat)
    requires Runs(keys, perGroup) != []
    ensures var r := Runs(keys, perGroup); keys != [] && r[|r| - 1] == keys[|keys| - 1]
  {
    if perGroup == 0 {
      RunsLength(keys, 0);
    }
  }

  lemma EvenIsBalanced(shards: seq<int>, keys: seq<int>, all: set<int>)
    requires SortedKeys(keys, all) && shards != [] && keys != [] && |shards| % |keys| <= 1
    ensures Balanced(Dealt(shards, keys), all)
  {
    RunsFit(keys, |shards|);
    RunsAreBalanced(shards, keys, all, |shards| / |keys|);
  }

  lemma RunsAreBalanced(shards: seq<int>, keys: seq<int>, all: set<int>, perGroup: nat)
    requires SortedKeys(keys, all) && shards != [] && keys != [] && |shards| - 1 <= |Runs(keys, perGroup)| <= |shards|
    ensures Balanced(DealtRuns(shards, keys, perGroup), all)
  {
    var last := keys[|keys| - 1];
    var more := |Runs(keys, perGroup)| < |shards|;
    var owners := DealtRuns(shards, keys, perGroup);
    DealtEvenly(shards, keys, perGroup);
    forall g ensures multiset(owners)[g] == (if g in keys then perGroup else 0) + if more && g == last then 1 else 0 {
      RunsCount(keys, perGroup, g);
    }
    CountsBalance(owners, keys, all, perGroup, more, last);
  }

  lemma CountsBalance(owners: seq<int>, keys: seq<int>, all: set<int>, q: nat, more: bool, last: int)
    requires SortedKeys(keys, all) && last in keys
    requires forall g :: multiset(owners)[g] == (if g in keys then q else 0) + if more && g == last then 1 else 0
    ensures Balanced(owners, all)
  {
    forall s | 0 <= s < |owners| ensures owners[s] in all {
      assert owners[s] in multiset(owners);
      assert multiset(owners)[owners[s]] > 0;
      assert owners[s] in keys;
    }
  }

  lemma RestKeepsOwner(shards: seq<int>, keys: seq<int>, perGroup: nat, s: nat)
    requires keys != [] && |Runs(keys, perGroup)| <= s < |shards| - 1
    ensures DealtRuns(shards, keys, perGroup)[s] == shards[s]
  {
  }

  /** With two or more shards over, the last but one keeps its old owner, live or not. */
  lemma LeftoverKeepsOwner(shards: seq<int>, keys: seq<int>)
    requires keys != [] && |shards| % |keys| >= 2
    ensures Dealt(shards, keys)[|shards| - 2] == shards[|shards| - 2]
  {
    RunsFit(keys, |shards|);
    RestKeepsOwner(shards, keys, |shards| / |keys|, |shards| - 2);
  }

  lemma DeadOwnerStays(shards: seq<int>, keys: seq<int>, groups: set<int>)
    requires keys != [] && |shards| % |keys| >= 2 && shards[|shards| - 2] !in groups
    ensures !Balanced(Dealt(shards, keys), groups)
  {
    LeftoverKeepsOwner(shards, keys);
  }

  /** Dealing out balances the load whatever the shards' owners were before, if and only if at
      most one shard is over. */
  lemma BalancedIff(nShards: nat, groups: set<int>)
    requires nShards > 0 && groups != {}
    ensures nShards % |groups| <= 1
        <==> forall shards: seq<int> :: |shards| == nShards ==> Balanced(Dealt(shards, KeysSorted(groups)), groups)
  {
    var keys := KeysSorted(groups);
    KeysAreSorted(groups);
    SortedCount(keys, groups);
    if nShards % |groups| <= 1 {
      forall shards: seq<int> | |shards| == nShards ensures Balanced(Dealt(shards, keys), groups) {
        EvenIsBalanced(shards, keys, groups);
      }
    } else {
      HasMax(groups);
      var m :| IsMax(m, groups);
      var dead := Repeat(m + 1, nShards);
      DeadOwnerStays(dead, keys, groups);
    }
  }

  lemma UnownedBalancedIff(shards: seq<int>, groups: set<int>)
    requires shards != [] && groups != {} && 0 !in groups && forall s :: 0 <= s < |shards| ==> shards[s] == 0
    ensures Balanced(Dealt(shards, KeysSorted(groups)), groups) <==> |shards| % |groups| <= 1
  {
    var keys := KeysSorted(groups);
    KeysAreSorted(groups);
    SortedCount(keys, groups);
    if |shards| % |keys| <= 1 {
      EvenIsBalanced(shards, keys, groups);
    } else {
      DeadOwnerStays(shards, keys, groups);
    }
  }

  /** The same from the start: the first groups to join get a balanced load exactly then. */
  lemma FirstJoinBalancedIff(nShards: nat, servers: map<int, seq<string>>)
    requires nShards > 0 && servers.Keys != {} && 0 !in servers
    ensures Effect(Init(nShards), Join(servers)).Some?
    ensures Balanced(Effect(Init(nShards), Join(servers)).value.shards, servers.Keys) <==> nShards % |servers.Keys| <= 1
  {
    var st := Init(nShards);
    assert st.groupMap + servers == servers;
    UnownedBalancedIff(st.shards, servers.Keys);
  }

  /** Any Join or Leave: balanced over the groups it leaves, or all shards unowned. */
  lemma JoinAndLeaveBalance(st: State, args: Args)
    requires Ready(st) && (args.Join? || args.Leave?) && Effect(st, args).Some?
    ensures var r := Effect(st, args).value;
      if r.groupMap.Keys == {} then forall s :: 0 <= s < |r.shards| ==> r.shards[s] == 0
      else |r.shards| % |r.groupMap.Keys| <= 1 ==> Balanced(r.shards, r.groupMap.Keys)
  {
    var groups := Effect(st, args).value.groupMap.Keys;
    var keys := KeysSorted(groups);
    KeysAreSorted(groups);
    SortedCount(keys, groups);
    if keys != [] && |st.shards| % |keys| <= 1 {
      EvenIsBalanced(st.shards, keys, groups);
    }
  }
}
