/** The key-value service over an agreed log, for clerks that issue one command at a time.
    Servers apply the log at their own pace, may be restored from snapshots, and answer from
    whatever they have applied.  Every history of the service is linearizable.

    `asOf`, `upTo` and `ticks` only observe: asOf and upTo say what prefix of the log a state
    reflects, and ticks[t] says how long the log was at time t and which operation was called
    or returned then. */
module KvService {
  import opened Wrappers
  import opened KvServer

  datatype Tick = Tick(len: nat, id: CommandId, returned: bool)

  /** A command that was issued, and when. */
  datatype Issued = Issued(cmd: Command, call: nat)

  datatype Clerk = Clerk(next: nat, pending: Option<Issued>)

  /** `fed` is the position of the next command the server will be fed. */
  datatype Replica = Replica(st: KvState, fed: nat, upTo: nat)

  /** A reply on its way to the clerk. */
  datatype Answer = Answer(cmd: Command, reply: Reply, asOf: nat)

  datatype Done = Done(cmd: Command, call: nat, ret: nat, value: string, asOf: nat)

  datatype World = World(
    clerks: seq<Clerk>, issued: set<Command>, log: seq<Command>,
    replicas: seq<Replica>, saved: set<Replica>, answers: set<Answer>,
    history: seq<Done>, ticks: seq<Tick>)

  datatype Event =
    | Invoke(clerk: nat, ctype: CommandType, key: string, value: string)
    | Agree(cmd: Command)
    | Feed(s: nat)
    | Save(s: nat)
    | Restore(s: nat, from: Replica, fed: nat)
    | Respond(s: nat, cmd: Command)
    | Complete(answer: Answer)

  const START: Replica := Replica(EMPTY, 0, 0)

  function Init(clerks: nat, servers: nat): (w: World)
  {
    World(seq(clerks, _ => Clerk(0, None)), {}, [], seq(servers, _ => START), {START}, {}, [], [])
  }

  predicate CanStep(w: World, e: Event)
  {
    match e
    case Invoke(c, ctype, key, value) => c < |w.clerks| && w.clerks[c].pending == None
    case Agree(cmd) => cmd in w.issued
    case Feed(s) => s < |w.replicas| && w.replicas[s].fed < |w.log|
    case Save(s) => s < |w.replicas|
    case Restore(s, from, fed) => s < |w.replicas| && from in w.saved && fed <= from.fed
    case Respond(s, cmd) =>
      s < |w.replicas| && cmd in w.issued && LastCount(w.replicas[s].st, cmd.id.clerk) >= cmd.id.command
    case Complete(a) =>
      && a in w.answers && a.cmd.id.clerk < |w.clerks|
      && w.clerks[a.cmd.id.clerk].pending.Some? && w.clerks[a.cmd.id.clerk].pending.value.cmd.id == a.cmd.id
  }

  function Max(a: nat, b: nat): (r: nat) { if a <= b then b else a }

  function Fed(r: Replica, cmd: Command): (r': Replica)
  {
    Replica(Deliver(r.st, CommandMsg(cmd)), r.fed + 1, Max(r.upTo, r.fed + 1))
  }

  function Step(w: World, e: Event): (r: World)
    requires CanStep(w, e)
  {
    match e
    case Invoke(c, ctype, key, value) =>
      var cmd := Command(CommandId(c, w.clerks[c].next), ctype, key, value);
      w.(clerks := w.clerks[c := Clerk(w.clerks[c].next + 1, Some(Issued(cmd, |w.ticks|)))],
         issued := w.issued + {cmd}, ticks := w.ticks + [Tick(|w.log|, cmd.id, false)])
    case Agree(cmd) => w.(log := w.log + [cmd])
    case Feed(s) =>
      var r := w.replicas[s];
      w.(replicas := w.replicas[s := Fed(r, w.log[r.fed])])
    case Save(s) => w.(saved := w.saved + {w.replicas[s]})
    case Restore(s, from, fed) =>
      w.(replicas := w.replicas[s := Replica(Deliver(w.replicas[s].st, SnapshotMsg(from.st)), fed, from.upTo)])
    case Respond(s, cmd) =>
      var r := w.replicas[s];
      w.(answers := w.answers + {Answer(cmd, ReplyTo(r.st, cmd), r.upTo)})
    case Complete(a) =>
      var c := a.cmd.id.clerk;
      w.(clerks := w.clerks[c := w.clerks[c].(pending := None)],
         history := w.history + [Done(a.cmd, w.clerks[c].pending.value.call, |w.ticks|, ValueOf(a.reply), a.asOf)],
         ticks := w.ticks + [Tick(|w.log|, a.cmd.id, true)])
  }

  ghost predicate Goes(w: World, es: seq<Event>, w': World)
    decreases |es|
  {
    if es == [] then w' == w else CanStep(w, es[0]) && Goes(Step(w, es[0]), es[1..], w')
  }

  // ---------- The invariant ----------

  ghost function StateAfter(log: seq<Command>, k: nat): (r: KvState)
    requires k <= |log|
  {
    ApplyAll(EMPTY, log[..k])
  }

  /** The replica's state is what the first upTo commands lead to. */
  ghost predicate ReplicaOk(log: seq<Command>, r: Replica)
  {
    r.fed <= r.upTo <= |log| && r.st == StateAfter(log, r.upTo)
  }

  /** Before a command of a clerk, all its earlier ones are in the log. */
  ghost predicate Closed(log: seq<Command>)
  {
    forall i, m: nat :: 0 <= i < |log| && m < log[i].id.command ==> Occurs(log[..i], CommandId(log[i].id.clerk, m))
  }

  ghost predicate IsTick(w: World, t: nat, id: CommandId, returned: bool)
  {
    t < |w.ticks| && w.ticks[t].id == id && w.ticks[t].returned == returned
  }

  ghost predicate IssuedOk(w: World, cmd: Command)
  {
    cmd.id.clerk < |w.clerks| && cmd.id.command < w.clerks[cmd.id.clerk].next
  }

  ghost predicate ClerkOk(w: World, c: nat)
    requires c < |w.clerks|
  {
    var k := w.clerks[c];
    && (k.pending.Some? ==>
          && k.next > 0 && k.pending.value.cmd.id == CommandId(c, k.next - 1) && k.pending.value.cmd in w.issued
          && k.pending.value.call < |w.ticks| && w.ticks[k.pending.value.call].len <= |w.log|
          && IsTick(w, k.pending.value.call, k.pending.value.cmd.id, false)
          && !Occurs(w.log[..w.ticks[k.pending.value.call].len], k.pending.value.cmd.id))
    && (forall m: nat :: m < k.next && !(k.pending.Some? && m == k.next - 1) ==> Occurs(w.log, CommandId(c, m)))
  }

  /** The reply was right for the state that the first asOf commands lead to. */
  ghost predicate AnswerOk(issued: set<Command>, log: seq<Command>, a: Answer)
  {
    && a.cmd in issued && a.asOf <= |log|
    && LastCount(StateAfter(log, a.asOf), a.cmd.id.clerk) >= a.cmd.id.command
    && a.reply == ReplyTo(StateAfter(log, a.asOf), a.cmd)
  }

  ghost predicate DoneOk(w: World, d: Done)
  {
    && d.cmd in w.issued && d.call < d.ret < |w.ticks|
    && IsTick(w, d.call, d.cmd.id, false) && IsTick(w, d.ret, d.cmd.id, true)
    && d.asOf <= w.ticks[d.ret].len <= |w.log| && w.ticks[d.call].len <= |w.log|
    && !Occurs(w.log[..w.ticks[d.call].len], d.cmd.id)
    && Occurs(w.log[..d.asOf], d.cmd.id)
    && d.value == ValueOf(ReplyTo(StateAfter(w.log, d.asOf), d.cmd))
  }

  ghost predicate UniqueIds(issued: set<Command>)
  {
    forall a, b :: a in issued && b in issued && a.id == b.id ==> a == b
  }

  /** Every issued command is pending or done, and done only once. */
  ghost predicate Accounted(w: World)
  {
    && (forall cmd :: cmd in w.issued ==>
          IssuedOk(w, cmd) && (IsPending(w, cmd.id) || exists i :: 0 <= i < |w.history| && w.history[i].cmd == cmd))
    && (forall i, j :: 0 <= i < j < |w.history| ==> w.history[i].cmd.id != w.history[j].cmd.id)
    && (forall i :: 0 <= i < |w.history| ==> !IsPending(w, w.history[i].cmd.id))
  }

  ghost predicate IsPending(w: World, id: CommandId)
  {
    id.clerk < |w.clerks| && w.clerks[id.clerk].pending.Some? && w.clerks[id.clerk].pending.value.cmd.id == id
  }

  ghost predicate TicksOk(w: World)
  {
    && (forall t :: 0 <= t < |w.ticks| ==> w.ticks[t].len <= |w.log|)
    && (forall t, u :: 0 <= t < u < |w.ticks| ==> w.ticks[t].len <= w.ticks[u].len)
  }

  ghost predicate LogOk(w: World)
  {
    Closed(w.log) && forall i :: 0 <= i < |w.log| ==> w.log[i] in w.issued
  }

  ghost predicate ClerksOk(w: World)
  {
    forall c {:trigger ClerkOk(w, c)} :: 0 <= c < |w.clerks| ==> ClerkOk(w, c)
  }

  ghost predicate HistoryOk(w: World)
  {
    forall i {:trigger DoneOk(w, w.history[i])} :: 0 <= i < |w.history| ==> DoneOk(w, w.history[i])
  }

  ghost predicate ReplicasOk(log: seq<Command>, replicas: seq<Replica>, saved: set<Replica>)
  {
    && (forall s :: 0 <= s < |replicas| ==> ReplicaOk(log, replicas[s]))
    && (forall r :: r in saved ==> ReplicaOk(log, r))
  }

  ghost predicate AnswersOk(issued: set<Command>, log: seq<Command>, answers: set<Answer>)
  {
    forall a :: a in answers ==> AnswerOk(issued, log, a)
  }

  ghost predicate Inv(w: World)
  {
    && UniqueIds(w.issued) && TicksOk(w) && LogOk(w) && Accounted(w)
    && ClerksOk(w) && HistoryOk(w)
    && ReplicasOk(w.log, w.replicas, w.saved) && AnswersOk(w.issued, w.log, w.answers)
  }

  // ---------- Facts about the log ----------

  lemma OccursIn(log: seq<Command>, k: nat, id: CommandId)
    requires k <= |log|
    ensures Occurs(log[..k], id) ==> Occurs(log, id)
  {
    if Occurs(log[..k], id) {
      var i :| 0 <= i < k && log[..k][i].id == id;
      assert log[i].id == id;
    }
  }

  /** In a closed log the high-water mark says exactly which commands are there. */
  lemma CountSaysOccurs(log: seq<Command>, k: nat, clerk: nat, m: nat)
    requires Closed(log) && k <= |log|
    ensures Occurs(log[..k], CommandId(clerk, m)) <==> m <= LastCount(StateAfter(log, k), clerk)
  {
    LastCountIsMax(log[..k], clerk);
    var count := LastCount(StateAfter(log, k), clerk);
    if m < count {
      var i :| 0 <= i < k && log[..k][i].id == CommandId(clerk, count);
      assert log[i].id == CommandId(clerk, count);
      assert Occurs(log[..i], CommandId(clerk, m));
      assert log[..k][..i] == log[..i];
      OccursIn(log[..k], i, CommandId(clerk, m));
    }
  }

  lemma StateAfterExtends(log: seq<Command>, cmd: Command, k: nat)
    requires k <= |log|
    ensures StateAfter(log + [cmd], k) == StateAfter(log, k) && (log + [cmd])[..k] == log[..k]
  {
    assert (log + [cmd])[..k] == log[..k];
  }

  lemma StateAfterStep(log: seq<Command>, k: nat)
    requires k < |log|
    ensures StateAfter(log, k + 1) == Apply(StateAfter(log, k), log[k])
  {
    assert log[..k + 1][..k] == log[..k];
  }

  // ---------- Every step keeps the invariant ----------

  lemma InvokeClerks(w: World, c: nat, ctype: CommandType, key: string, value: string, k: nat)
    requires Inv(w) && CanStep(w, Invoke(c, ctype, key, value)) && k < |w.clerks|
    ensures ClerkOk(Step(w, Invoke(c, ctype, key, value)), k)
  {
    assert ClerkOk(w, k);
    if k == c {
      var id := CommandId(c, w.clerks[c].next);
      forall i | 0 <= i < |w.log| ensures w.log[i].id != id {
        assert IssuedOk(w, w.log[i]);
      }
      assert w.log[..|w.log|] == w.log;
    }
  }

  lemma InvokeAccounted(w: World, c: nat, ctype: CommandType, key: string, value: string)
    requires Inv(w) && CanStep(w, Invoke(c, ctype, key, value))
    ensures Accounted(Step(w, Invoke(c, ctype, key, value))) && UniqueIds(Step(w, Invoke(c, ctype, key, value)).issued)
  {
    var w' := Step(w, Invoke(c, ctype, key, value));
    forall cmd | cmd in w.issued ensures cmd.id != CommandId(c, w.clerks[c].next) && IssuedOk(w', cmd) {
      assert IssuedOk(w, cmd);
    }
    forall i | 0 <= i < |w.history| ensures !IsPending(w', w.history[i].cmd.id) {
      assert DoneOk(w, w.history[i]);
    }
  }

  lemma InvokeKeeps(w: World, c: nat, ctype: CommandType, key: string, value: string)
    requires Inv(w) && CanStep(w, Invoke(c, ctype, key, value))
    ensures Inv(Step(w, Invoke(c, ctype, key, value)))
  {
    var w' := Step(w, Invoke(c, ctype, key, value));
    InvokeAccounted(w, c, ctype, key, value);
    forall k | 0 <= k < |w'.clerks| ensures ClerkOk(w', k) {
      InvokeClerks(w, c, ctype, key, value, k);
    }
    forall i | 0 <= i < |w'.history| ensures DoneOk(w', w'.history[i]) {
      assert DoneOk(w, w.history[i]);
    }
  }

  lemma AgreeClosed(w: World, cmd: Command)
    requires Inv(w) && cmd in w.issued
    ensures Closed(w.log + [cmd])
  {
    var log' := w.log + [cmd];
    forall i, m: nat | 0 <= i < |log'| && m < log'[i].id.command
      ensures Occurs(log'[..i], CommandId(log'[i].id.clerk, m))
    {
      assert log'[..i] == w.log[..i];
      if i == |w.log| {
        assert IssuedOk(w, cmd);
        assert ClerkOk(w, cmd.id.clerk);
        assert w.log[..i] == w.log;
      }
    }
  }

  lemma OccursStays(log: seq<Command>, cmd: Command, id: CommandId)
    requires Occurs(log, id)
    ensures Occurs(log + [cmd], id)
  {
    var i :| 0 <= i < |log| && log[i].id == id;
    assert (log + [cmd])[i].id == id;
  }

  lemma AgreeClerks(w: World, cmd: Command, c: nat)
    requires Inv(w) && cmd in w.issued && c < |w.clerks|
    ensures ClerkOk(Step(w, Agree(cmd)), c)
  {
    var w' := Step(w, Agree(cmd));
    assert ClerkOk(w, c);
    var k := w.clerks[c];
    forall m: nat | m < k.next && !(k.pending.Some? && m == k.next - 1) ensures Occurs(w'.log, CommandId(c, m)) {
      OccursStays(w.log, cmd, CommandId(c, m));
    }
    if k.pending.Some? {
      StateAfterExtends(w.log, cmd, w.ticks[k.pending.value.call].len);
    }
  }

  lemma AgreeDone(w: World, cmd: Command, d: Done)
    requires DoneOk(w, d) && cmd in w.issued
    ensures DoneOk(Step(w, Agree(cmd)), d)
  {
    StateAfterExtends(w.log, cmd, w.ticks[d.call].len);
    StateAfterExtends(w.log, cmd, d.asOf);
  }

  lemma AgreeKeeps(w: World, cmd: Command)
    requires Inv(w) && CanStep(w, Agree(cmd))
    ensures Inv(Step(w, Agree(cmd)))
  {
    var w' := Step(w, Agree(cmd));
    AgreeClosed(w, cmd);
    forall c | 0 <= c < |w'.clerks| ensures ClerkOk(w', c) {
      AgreeClerks(w, cmd, c);
    }
    forall r | ReplicaOk(w.log, r) ensures ReplicaOk(w'.log, r) {
      StateAfterExtends(w.log, cmd, r.upTo);
    }
    forall a | a in w'.answers ensures AnswerOk(w'.issued, w'.log, a) {
      assert AnswerOk(w.issued, w.log, a);
      StateAfterExtends(w.log, cmd, a.asOf);
    }
    forall i | 0 <= i < |w'.history| ensures DoneOk(w', w'.history[i]) {
      AgreeDone(w, cmd, w.history[i]);
    }
    AgreeAccounted(w, cmd);
  }

  lemma AgreeAccounted(w: World, cmd: Command)
    requires Accounted(w) && cmd in w.issued
    ensures Accounted(Step(w, Agree(cmd)))
  {
    var w' := Step(w, Agree(cmd));
    forall x | x in w'.issued ensures IssuedOk(w', x) {
      assert IssuedOk(w, x);
    }
  }

  /** Feeding a command again leaves the state alone; feeding a new one moves it on. */
  lemma FeedReplica(log: seq<Command>, r: Replica)
    requires ReplicaOk(log, r) && r.fed < |log|
    ensures ReplicaOk(log, Fed(r, log[r.fed]))
  {
    if r.fed == r.upTo {
      StateAfterStep(log, r.upTo);
    } else {
      LastCountIsMax(log[..r.upTo], log[r.fed].id.clerk);
      assert log[..r.upTo][r.fed] == log[r.fed];
    }
  }

  /** Steps that only change replicas, snapshots and answers. */
  lemma LocalKeeps(w: World, w': World)
    requires Inv(w)
    requires w' == w.(replicas := w'.replicas, saved := w'.saved, answers := w'.answers)
    requires ReplicasOk(w.log, w'.replicas, w'.saved) && AnswersOk(w.issued, w.log, w'.answers)
    ensures Inv(w')
  {
    forall c | 0 <= c < |w'.clerks| ensures ClerkOk(w', c) {
      assert ClerkOk(w, c);
    }
    forall i | 0 <= i < |w'.history| ensures DoneOk(w', w'.history[i]) {
      assert DoneOk(w, w.history[i]);
    }
    forall cmd | cmd in w'.issued ensures IssuedOk(w', cmd) {
      assert IssuedOk(w, cmd);
    }
  }

  lemma CompleteDone(w: World, a: Answer)
    requires Inv(w) && CanStep(w, Complete(a))
    ensures var w' := Step(w, Complete(a)); DoneOk(w', w'.history[|w.history|])
    ensures a.cmd == w.clerks[a.cmd.id.clerk].pending.value.cmd && Occurs(w.log, a.cmd.id)
  {
    var c := a.cmd.id.clerk;
    assert ClerkOk(w, c);
    assert AnswerOk(w.issued, w.log, a);
    CountSaysOccurs(w.log, a.asOf, c, a.cmd.id.command);
    OccursIn(w.log, a.asOf, a.cmd.id);
  }

  lemma CompleteIssued(w: World, a: Answer, cmd: Command)
    requires Inv(w) && CanStep(w, Complete(a)) && cmd in w.issued
    ensures var w' := Step(w, Complete(a));
      IssuedOk(w', cmd) && (IsPending(w', cmd.id) || exists i :: 0 <= i < |w'.history| && w'.history[i].cmd == cmd)
  {
    var w' := Step(w, Complete(a));
    CompleteDone(w, a);
    assert IssuedOk(w, cmd);
    if cmd == a.cmd {
      assert w'.history[|w.history|].cmd == cmd;
    } else if IsPending(w, cmd.id) {
      assert ClerkOk(w, cmd.id.clerk);
    } else {
      var i :| 0 <= i < |w.history| && w.history[i].cmd == cmd;
      assert w'.history[i].cmd == cmd;
    }
  }

  /** What is done is no longer pending, and was done only once. */
  lemma CompleteOnce(w: World, a: Answer)
    requires Inv(w) && CanStep(w, Complete(a))
    ensures var w' := Step(w, Complete(a));
      && (forall i, j :: 0 <= i < j < |w'.history| ==> w'.history[i].cmd.id != w'.history[j].cmd.id)
      && (forall i :: 0 <= i < |w'.history| ==> !IsPending(w', w'.history[i].cmd.id))
  {
    var w' := Step(w, Complete(a));
    assert IsPending(w, a.cmd.id) && !IsPending(w', a.cmd.id);
    forall i | 0 <= i < |w.history|
      ensures w'.history[i].cmd.id != a.cmd.id && !IsPending(w', w'.history[i].cmd.id)
    {
      assert w'.history[i] == w.history[i] && !IsPending(w, w.history[i].cmd.id);
    }
  }

  lemma CompleteAccounted(w: World, a: Answer)
    requires Inv(w) && CanStep(w, Complete(a))
    ensures Accounted(Step(w, Complete(a)))
  {
    var w' := Step(w, Complete(a));
    forall cmd | cmd in w'.issued
      ensures IssuedOk(w', cmd)
      ensures (IsPending(w', cmd.id) || exists i :: 0 <= i < |w'.history| && w'.history[i].cmd == cmd)
    {
      CompleteIssued(w, a, cmd);
    }
    CompleteOnce(w, a);
  }

  lemma CompleteClerk(w: World, a: Answer, c: nat)
    requires Inv(w) && CanStep(w, Complete(a)) && c < |w.clerks|
    ensures ClerkOk(Step(w, Complete(a)), c)
  {
    CompleteDone(w, a);
    assert ClerkOk(w, c);
  }

  lemma CompleteHistory(w: World, a: Answer)
    requires Inv(w) && CanStep(w, Complete(a))
    ensures HistoryOk(Step(w, Complete(a)))
  {
    var w' := Step(w, Complete(a));
    CompleteDone(w, a);
    forall i | 0 <= i < |w.history| ensures DoneOk(w', w'.history[i]) {
      assert DoneOk(w, w.history[i]);
      assert w'.history[i] == w.history[i];
    }
  }

  lemma CompleteClerks(w: World, a: Answer)
    requires Inv(w) && CanStep(w, Complete(a))
    ensures ClerksOk(Step(w, Complete(a))) && TicksOk(Step(w, Complete(a)))
  {
    var w' := Step(w, Complete(a));
    forall c | 0 <= c < |w'.clerks| ensures ClerkOk(w', c) {
      CompleteClerk(w, a, c);
    }
  }

  lemma CompleteKeeps(w: World, a: Answer)
    requires Inv(w) && CanStep(w, Complete(a))
    ensures Inv(Step(w, Complete(a)))
  {
    CompleteAccounted(w, a);
    CompleteClerks(w, a);
    CompleteHistory(w, a);
  }

  lemma PutReplica(log: seq<Command>, replicas: seq<Replica>, saved: set<Replica>, s: nat, r: Replica)
    requires ReplicasOk(log, replicas, saved) && s < |replicas| && ReplicaOk(log, r)
    ensures ReplicasOk(log, replicas[s := r], saved)
  {
  }

  lemma FeedStores(w: World, s: nat)
    requires Inv(w) && CanStep(w, Feed(s))
    ensures ReplicasOk(w.log, Step(w, Feed(s)).replicas, w.saved)
  {
    var r := w.replicas[s];
    FeedReplica(w.log, r);
    PutReplica(w.log, w.replicas, w.saved, s, Fed(r, w.log[r.fed]));
  }

  lemma RestoreStores(w: World, s: nat, from: Replica, fed: nat)
    requires Inv(w) && CanStep(w, Restore(s, from, fed))
    ensures ReplicasOk(w.log, Step(w, Restore(s, from, fed)).replicas, w.saved)
  {
    PutReplica(w.log, w.replicas, w.saved, s, from.(fed := fed));
  }

  lemma RespondStores(w: World, s: nat, cmd: Command)
    requires Inv(w) && CanStep(w, Respond(s, cmd))
    ensures AnswersOk(w.issued, w.log, Step(w, Respond(s, cmd)).answers)
  {
    assert ReplicaOk(w.log, w.replicas[s]);
  }

  lemma LocalStepStores(w: World, e: Event)
    requires Inv(w) && CanStep(w, e) && (e.Feed? || e.Save? || e.Restore? || e.Respond?)
    ensures var w' := Step(w, e);
      ReplicasOk(w.log, w'.replicas, w'.saved) && AnswersOk(w.issued, w.log, w'.answers)
  {
    match e
    case Feed(s) => FeedStores(w, s);
    case Save(s) =>
    case Restore(s, from, fed) => RestoreStores(w, s, from, fed);
    case Respond(s, cmd) => RespondStores(w, s, cmd);
  }

  lemma LocalStepKeeps(w: World, e: Event)
    requires Inv(w) && CanStep(w, e) && (e.Feed? || e.Save? || e.Restore? || e.Respond?)
    ensures Inv(Step(w, e))
  {
    LocalStepStores(w, e);
    LocalKeeps(w, Step(w, e));
  }

  lemma StepKeepsInv(w: World, e: Event)
    requires Inv(w) && CanStep(w, e)
    ensures Inv(Step(w, e))
  {
    match e
    case Invoke(c, ctype, key, value) => InvokeKeeps(w, c, ctype, key, value);
    case Agree(cmd) => AgreeKeeps(w, cmd);
    case Feed(_) => LocalStepKeeps(w, e);
    case Save(_) => LocalStepKeeps(w, e);
    case Restore(_, _, _) => LocalStepKeeps(w, e);
    case Respond(_, _) => LocalStepKeeps(w, e);
    case Complete(a) => CompleteKeeps(w, a);
  }

  lemma InitInv(clerks: nat, servers: nat)
    ensures Inv(Init(clerks, servers))
  {
    var w := Init(clerks, servers);
    forall c | 0 <= c < clerks ensures ClerkOk(w, c) {
    }
  }

  lemma {:induction false} RunKeepsInv(w: World, es: seq<Event>, w': World)
    requires Inv(w) && Goes(w, es, w')
    ensures Inv(w')
    decreases |es|
  {
    if es != [] {
      StepKeepsInv(w, es[0]);
      RunKeepsInv(Step(w, es[0]), es[1..], w');
    }
  }
}
