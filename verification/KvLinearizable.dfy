/** Every history of the key-value service is linearizable. */
module KvLinearizable {
  import opened Wrappers
  import opened Linearizability
  import opened KvServer
  import opened KvService
  import LP = LinearizationPoints
  import KvModel
  import KvReads

  // ---------- The operations of a history ----------

  function OpCode(t: CommandType): (r: nat)
  {
    match t case GetCommand => 0 case PutCommand => 1 case AppendCommand => 2
  }

  function OperationOf(d: Done): (op: Operation<KvModel.KvValue>)
  {
    Operation(d.cmd.id.clerk, KvModel.KvInput(OpCode(d.cmd.ctype), d.cmd.key, d.cmd.value), d.call,
              KvModel.KvOutput(d.value), d.ret)
  }

  /** The writes of the first n clerks that are still pending but already in the log; they
      return after everything else. */
  ghost function PendingWrites(w: World, n: nat): (r: seq<Done>)
    requires n <= |w.clerks|
  {
    if n == 0 then []
    else
      var rest, p := PendingWrites(w, n - 1), w.clerks[n - 1].pending;
      if p.Some? && p.value.cmd.ctype != GetCommand && Occurs(w.log, p.value.cmd.id)
      then rest + [Done(p.value.cmd, p.value.call, |w.ticks|, "", 0)] else rest
  }

  /** The completed operations and the pending writes that took effect. */
  ghost function Effective(w: World): (r: seq<Done>)
  {
    w.history + PendingWrites(w, |w.clerks|)
  }

  ghost function Operations(w: World): (r: seq<Operation<KvModel.KvValue>>)
    ensures |r| == |Effective(w)| && forall i :: 0 <= i < |r| ==> r[i] == OperationOf(Effective(w)[i])
  {
    seq(|Effective(w)|, i requires 0 <= i < |Effective(w)| => OperationOf(Effective(w)[i]))
  }

  // ---------- What is known of them ----------

  ghost predicate OpOk(w: World, d: Done)
  {
    && d.cmd in w.issued && d.call < |w.ticks| && d.ret <= |w.ticks| && TicksOk(w)
    && !Occurs(w.log[..w.ticks[d.call].len], d.cmd.id) && Occurs(w.log, d.cmd.id)
    && (d.ret < |w.ticks| ==> Occurs(w.log[..w.ticks[d.ret].len], d.cmd.id))
    && (d.cmd.ctype == GetCommand ==>
          && d.asOf <= |w.log| && Occurs(w.log[..d.asOf], d.cmd.id)
          && (d.ret < |w.ticks| ==> d.asOf <= w.ticks[d.ret].len)
          && d.value == ValueOf(ReplyTo(StateAfter(w.log, d.asOf), d.cmd)))
  }

  lemma DoneIsOk(w: World, d: Done)
    requires TicksOk(w) && DoneOk(w, d)
    ensures OpOk(w, d)
  {
    assert w.log[..w.ticks[d.ret].len][..d.asOf] == w.log[..d.asOf];
    OccursIn(w.log[..w.ticks[d.ret].len], d.asOf, d.cmd.id);
    OccursIn(w.log, d.asOf, d.cmd.id);
  }

  lemma {:induction false} PendingWritesOk(w: World, n: nat)
    requires Inv(w) && n <= |w.clerks|
    ensures forall d :: d in PendingWrites(w, n) ==> OpOk(w, d) && d.cmd.id.clerk < n && IsPending(w, d.cmd.id)
    ensures forall i, j :: 0 <= i < j < |PendingWrites(w, n)| ==>
      PendingWrites(w, n)[i].cmd.id != PendingWrites(w, n)[j].cmd.id
  {
    if n > 0 {
      PendingWritesOk(w, n - 1);
      assert ClerkOk(w, n - 1);
      var rest := PendingWrites(w, n - 1);
      assert forall i :: 0 <= i < |rest| ==> rest[i] in rest;
    }
  }

  lemma {:induction false} PendingWritesAll(w: World, n: nat, c: nat)
    requires n <= |w.clerks| && c < n && w.clerks[c].pending.Some?
    requires w.clerks[c].pending.value.cmd.ctype != GetCommand && Occurs(w.log, w.clerks[c].pending.value.cmd.id)
    ensures exists i :: 0 <= i < |PendingWrites(w, n)| && PendingWrites(w, n)[i].cmd == w.clerks[c].pending.value.cmd
  {
    if c < n - 1 {
      PendingWritesAll(w, n - 1, c);
      var i :| 0 <= i < |PendingWrites(w, n - 1)| && PendingWrites(w, n - 1)[i].cmd == w.clerks[c].pending.value.cmd;
      assert PendingWrites(w, n)[i] == PendingWrites(w, n - 1)[i];
    } else {
      assert PendingWrites(w, n)[|PendingWrites(w, n - 1)|].cmd == w.clerks[c].pending.value.cmd;
    }
  }

  ghost predicate Distinct(ds: seq<Done>)
  {
    forall i, j :: 0 <= i < j < |ds| ==> ds[i].cmd.id != ds[j].cmd.id
  }

  lemma EffectiveOk(w: World)
    requires Inv(w)
    ensures forall i :: 0 <= i < |Effective(w)| ==> OpOk(w, Effective(w)[i])
    ensures Distinct(Effective(w))
  {
    PendingWritesOk(w, |w.clerks|);
    var ds, h, p := Effective(w), w.history, PendingWrites(w, |w.clerks|);
    forall i | 0 <= i < |ds| ensures OpOk(w, ds[i]) && (i >= |h| ==> IsPending(w, ds[i].cmd.id)) {
      if i < |h| {
        assert DoneOk(w, h[i]);
        DoneIsOk(w, h[i]);
      } else {
        assert p[i - |h|] in p;
      }
    }
    forall i, j | 0 <= i < j < |ds| ensures ds[i].cmd.id != ds[j].cmd.id {
      if i < |h| <= j {
        assert !IsPending(w, h[i].cmd.id);
      } else if i >= |h| {
        assert p[i - |h|].cmd.id != p[j - |h|].cmd.id;
      }
    }
  }

  /** Some effective operation is the command at position k. */
  ghost predicate IsEffective(w: World, k: nat)
    requires k < |w.log|
  {
    exists i :: 0 <= i < |Effective(w)| && Effective(w)[i].cmd == w.log[k]
  }

  /** Every write in the log is one of the effective operations. */
  lemma WritesAreEffective(w: World, k: nat)
    requires Inv(w) && k < |w.log| && w.log[k].ctype != GetCommand
    ensures IsEffective(w, k)
  {
    var cmd := w.log[k];
    assert cmd in w.issued;
    assert Occurs(w.log, cmd.id);
    if IsPending(w, cmd.id) {
      var c := cmd.id.clerk;
      assert ClerkOk(w, c);
      assert w.clerks[c].pending.value.cmd == cmd;
      PendingWritesAll(w, |w.clerks|, c);
      var j :| 0 <= j < |PendingWrites(w, |w.clerks|)| && PendingWrites(w, |w.clerks|)[j].cmd == cmd;
      assert Effective(w)[|w.history| + j].cmd == cmd;
    } else {
      var i :| 0 <= i < |w.history| && w.history[i].cmd == cmd;
      assert Effective(w)[i].cmd == cmd;
    }
  }

  /** All that the linearization points rest on. */
  ghost predicate Ready(w: World)
  {
    && LogOk(w) && UniqueIds(w.issued) && TicksOk(w) && Distinct(Effective(w))
    && (forall i {:trigger OpOk(w, Effective(w)[i])} :: 0 <= i < |Effective(w)| ==> OpOk(w, Effective(w)[i]))
    && (forall k {:trigger IsEffective(w, k)} :: 0 <= k < |w.log| && w.log[k].ctype != GetCommand ==> IsEffective(w, k))
  }

  lemma InvIsReady(w: World)
    requires Inv(w)
    ensures Ready(w)
  {
    EffectiveOk(w);
    forall k | 0 <= k < |w.log| && w.log[k].ctype != GetCommand ensures IsEffective(w, k) {
      WritesAreEffective(w, k);
    }
  }

  // ---------- Their points ----------

  lemma OccursSplit(log: seq<Command>, id: CommandId)
    requires log != []
    ensures Occurs(log, id) <==> Occurs(log[..|log| - 1], id) || log[|log| - 1].id == id
  {
    var k := |log| - 1;
    if Occurs(log, id) {
      var i :| 0 <= i < |log| && log[i].id == id;
      if i < k {
        assert log[..k][i].id == id;
      }
    }
    OccursIn(log, k, id);
  }

  /** Where the id first occurs. */
  ghost function FirstPos(log: seq<Command>, id: CommandId): (r: nat)
    requires Occurs(log, id)
    ensures r < |log| && log[r].id == id && !Occurs(log[..r], id)
    decreases |log|
  {
    var k := |log| - 1;
    OccursSplit(log, id);
    if Occurs(log[..k], id) then
      var r := FirstPos(log[..k], id);
      assert log[..k][..r] == log[..r];
      r
    else k
  }

  /** A write counts between the commands before it and those from it on; a read counts at
      the prefix it was answered from. */
  ghost function PointOf(w: World, d: Done): (r: nat)
    requires OpOk(w, d)
  {
    if d.cmd.ctype == GetCommand then 2 * d.asOf else 2 * FirstPos(w.log, d.cmd.id) + 1
  }

  lemma OccursBefore(log: seq<Command>, k: nat, id: CommandId)
    requires k <= |log| && Occurs(log, id)
    ensures Occurs(log[..k], id) <==> FirstPos(log, id) < k
  {
    var f := FirstPos(log, id);
    forall i | 0 <= i < f ensures log[i].id != id {
      assert log[..f][i] == log[i];
    }
    if f < k {
      assert log[..k][f].id == id;
    }
  }

  /** The point lies after the log as it was at the call, and not after the log as it was at
      the return. */
  lemma PointBounds(w: World, d: Done)
    requires OpOk(w, d)
    ensures 2 * w.ticks[d.call].len < PointOf(w, d) <= 2 * |w.log|
    ensures d.ret < |w.ticks| ==> PointOf(w, d) <= 2 * w.ticks[d.ret].len
  {
    OccursBefore(w.log, w.ticks[d.call].len, d.cmd.id);
    if d.ret < |w.ticks| {
      OccursBefore(w.log, w.ticks[d.ret].len, d.cmd.id);
    }
    if d.cmd.ctype == GetCommand {
      OccursBefore(w.log, d.asOf, d.cmd.id);
    }
  }

  ghost function Points(w: World): (r: seq<nat>)
    requires Ready(w)
    ensures |r| == |Effective(w)|
    ensures forall i :: 0 <= i < |r| ==> OpOk(w, Effective(w)[i]) && r[i] == PointOf(w, Effective(w)[i])
  {
    seq(|Effective(w)|, i requires 0 <= i < |Effective(w)| =>
      assert OpOk(w, Effective(w)[i]); PointOf(w, Effective(w)[i]))
  }

  /** The map before the operations at point p: that of the first p / 2 commands. */
  ghost function MapAt(w: World, p: nat): (r: map<string, string>)
    requires p / 2 <= |w.log|
  {
    StateAfter(w.log, p / 2).kvMap
  }

  ghost function Maps(w: World): (r: seq<map<string, string>>)
    ensures |r| == 2 * |w.log| + 2 && forall p :: 0 <= p < |r| ==> r[p] == MapAt(w, p)
  {
    seq(2 * |w.log| + 2, p requires 0 <= p < 2 * |w.log| + 2 => MapAt(w, p))
  }

  lemma RealTime(w: World, a: nat, b: nat)
    requires Ready(w) && Precedes(Operations(w), a, b)
    ensures Points(w)[a] < Points(w)[b]
  {
    var da, db := Effective(w)[a], Effective(w)[b];
    assert Points(w)[a] == PointOf(w, da) && Points(w)[b] == PointOf(w, db);
    PointBounds(w, da);
    PointBounds(w, db);
    assert w.ticks[da.ret].len <= w.ticks[db.call].len;
  }

  // ---------- The operations explain the states ----------

  lemma ReadsExplain(w: World, k: nat, i: nat)
    requires Ready(w) && k <= |w.log| && LP.AtPoint(Points(w), 2 * k, i)
    ensures StepOk(KvModel.Store(), Operations(w), MapAt(w, 2 * k), i)
    ensures StepState(KvModel.Store(), Operations(w), MapAt(w, 2 * k), i) == MapAt(w, 2 * k)
  {
    var d := Effective(w)[i];
    assert Points(w)[i] == PointOf(w, d);
    assert d.cmd.ctype == GetCommand && d.asOf == k;
    assert Operations(w)[i] == OperationOf(d);
  }

  lemma OddIsWrite(w: World, p: nat, i: nat)
    requires Ready(w) && p % 2 == 1 && LP.AtPoint(Points(w), p, i)
    ensures p / 2 < |w.log| && Effective(w)[i].cmd.id == w.log[p / 2].id
  {
    var d := Effective(w)[i];
    assert Points(w)[i] == PointOf(w, d);
    assert p == 2 * FirstPos(w.log, d.cmd.id) + 1;
  }

  lemma OneWritePerPoint(w: World, p: nat, i: nat, j: nat)
    requires Ready(w) && p % 2 == 1 && LP.AtPoint(Points(w), p, i) && LP.AtPoint(Points(w), p, j)
    ensures i == j
  {
    OddIsWrite(w, p, i);
    OddIsWrite(w, p, j);
  }

  lemma WriteSteps(w: World, k: nat, i: nat)
    requires Ready(w) && k < |w.log| && i < |Effective(w)| && Effective(w)[i].cmd == w.log[k]
    requires w.log[k].ctype != GetCommand && IsFirst(w.log, k)
    ensures StepOk(KvModel.Store(), Operations(w), StateAfter(w.log, k).kvMap, i)
    ensures StepState(KvModel.Store(), Operations(w), StateAfter(w.log, k).kvMap, i) == StateAfter(w.log, k + 1).kvMap
  {
    var cmd := w.log[k];
    StateAfterStep(w.log, k);
    CountSaysOccurs(w.log, k, cmd.id.clerk, cmd.id.command);
    EffectIsStep(StateAfter(w.log, k).kvMap, Effective(w)[i]);
    assert Operations(w)[i] == OperationOf(Effective(w)[i]);
  }

  /** A write does to the server's map what its operation does to the store. */
  lemma EffectIsStep(kvMap: map<string, string>, d: Done)
    requires d.cmd.ctype != GetCommand
    ensures var op := OperationOf(d); KvModel.StoreStep(kvMap, op.input, op.output) == (true, Effect(kvMap, d.cmd))
  {
    assert "" + d.cmd.value == d.cmd.value;
  }

  lemma WriteAtPoint(w: World, k: nat, i: nat)
    requires Ready(w) && k < |w.log| && i < |Effective(w)| && Effective(w)[i].cmd == w.log[k]
    requires w.log[k].ctype != GetCommand && IsFirst(w.log, k)
    ensures LP.AtPoint(Points(w), 2 * k + 1, i)
  {
    FirstIsFirstPos(w.log, k);
    assert Points(w)[i] == PointOf(w, Effective(w)[i]);
  }

  lemma OnlyWriteAt(w: World, p: nat, i: nat)
    requires Ready(w) && p % 2 == 1 && LP.AtPoint(Points(w), p, i)
    ensures forall x: nat :: LP.AtPoint(Points(w), p, x) ==> x == i
  {
    forall x: nat | LP.AtPoint(Points(w), p, x) ensures x == i {
      OneWritePerPoint(w, p, x, i);
    }
  }

  /** The one write that takes effect at log position k. */
  lemma WriteExplains(w: World, k: nat, i: nat, p: nat)
    requires Ready(w) && k < |w.log| && i < |Effective(w)| && Effective(w)[i].cmd == w.log[k] && p == 2 * k + 1
    requires w.log[k].ctype != GetCommand && IsFirst(w.log, k)
    ensures LP.OneStep(KvModel.Store(), Operations(w), Points(w), p, MapAt(w, p), MapAt(w, p + 1), i)
  {
    WriteAtPoint(w, k, i);
    OnlyWriteAt(w, p, i);
    assert p / 2 == k && (p + 1) / 2 == k + 1;
    WriteSteps(w, k, i);
  }

  lemma FirstIsFirstPos(log: seq<Command>, k: nat)
    requires k < |log| && IsFirst(log, k)
    ensures Occurs(log, log[k].id) && FirstPos(log, log[k].id) == k
  {
    assert Occurs(log, log[k].id);
    OccursBefore(log, k, log[k].id);
    OccursBefore(log, k + 1, log[k].id);
    assert log[..k + 1][k].id == log[k].id;
  }

  lemma FirstPosIsFirst(w: World, x: nat, k: nat)
    requires Ready(w) && LP.AtPoint(Points(w), 2 * k + 1, x)
    ensures k < |w.log| && IsFirst(w.log, k) && w.log[k] == Effective(w)[x].cmd && w.log[k].ctype != GetCommand
  {
    var e := Effective(w)[x];
    assert Points(w)[x] == PointOf(w, e);
    assert OpOk(w, e);
    assert w.log[k] in w.issued && w.log[k].id == e.cmd.id;
  }

  /** Position k changes nothing if its command reads or has been applied before. */
  lemma NoChange(w: World, k: nat)
    requires Ready(w) && k < |w.log| && (w.log[k].ctype == GetCommand || !IsFirst(w.log, k))
    ensures MapAt(w, 2 * k + 2) == MapAt(w, 2 * k + 1)
  {
    StateAfterStep(w.log, k);
    CountSaysOccurs(w.log, k, w.log[k].id.clerk, w.log[k].id.command);
  }

  lemma ExplainedEven(w: World, k: nat, p: nat)
    requires Ready(w) && k <= |w.log| && p == 2 * k
    ensures LP.ExplainedAt(KvModel.Store(), Operations(w), Points(w), Maps(w), p)
  {
    forall i | LP.AtPoint(Points(w), p, i)
      ensures StepOk(KvModel.Store(), Operations(w), MapAt(w, p), i)
              && StepState(KvModel.Store(), Operations(w), MapAt(w, p), i) == MapAt(w, p)
    {
      ReadsExplain(w, k, i);
    }
    assert p / 2 == k && (p + 1) / 2 == k;
    assert LP.OnlyReads(KvModel.Store(), Operations(w), Points(w), p, MapAt(w, p));
  }

  lemma ExplainedOdd(w: World, k: nat, p: nat)
    requires Ready(w) && k < |w.log| && p == 2 * k + 1
    ensures LP.ExplainedAt(KvModel.Store(), Operations(w), Points(w), Maps(w), p)
  {
    if w.log[k].ctype != GetCommand && IsFirst(w.log, k) {
      assert IsEffective(w, k);
      var i :| 0 <= i < |Effective(w)| && Effective(w)[i].cmd == w.log[k];
      WriteExplains(w, k, i, p);
    } else {
      NoChange(w, k);
      forall x: nat ensures !LP.AtPoint(Points(w), p, x) {
        if LP.AtPoint(Points(w), p, x) {
          FirstPosIsFirst(w, x, k);
        }
      }
      assert LP.OnlyReads(KvModel.Store(), Operations(w), Points(w), p, MapAt(w, p));
    }
  }

  lemma Explained(w: World, p: nat)
    requires Ready(w) && p < |Maps(w)| - 1
    ensures LP.ExplainedAt(KvModel.Store(), Operations(w), Points(w), Maps(w), p)
  {
    if p % 2 == 0 {
      ExplainedEven(w, p / 2, p);
    } else {
      ExplainedOdd(w, p / 2, p);
    }
  }

  lemma PointInRange(w: World, i: nat)
    requires Ready(w) && i < |Operations(w)|
    ensures Points(w)[i] < |Maps(w)| - 1
  {
    assert Points(w)[i] == PointOf(w, Effective(w)[i]);
    PointBounds(w, Effective(w)[i]);
  }

  lemma PointsAreGood(w: World)
    requires Ready(w)
    ensures LP.GoodPoints(KvModel.Store(), Operations(w), Points(w), Maps(w))
  {
    var ops, points, maps := Operations(w), Points(w), Maps(w);
    assert maps[0] == MapAt(w, 0) == map[];
    forall i: nat | i < |ops| ensures points[i] < |maps| - 1 {
      PointInRange(w, i);
    }
    forall a: nat, b: nat | Precedes(ops, a, b) ensures points[a] < points[b] {
      RealTime(w, a, b);
    }
    forall p: nat | p < |maps| - 1 ensures LP.ExplainedAt(KvModel.Store(), ops, points, maps, p) {
      Explained(w, p);
    }
  }

  /** Linearizability of the service: in every reachable state, the completed operations
      together with the pending writes that have reached the log form a history that is
      linearizable for the store, whatever servers answered, lagged or were restored. */
  lemma ServiceIsLinearizable(clerks: nat, servers: nat, es: seq<Event>, w: World)
    requires Goes(Init(clerks, servers), es, w)
    ensures Linearizable(KvModel.Store(), Operations(w))
  {
    InitInv(clerks, servers);
    RunKeepsInv(Init(clerks, servers), es, w);
    InvIsReady(w);
    PointsAreGood(w);
    LP.PointsLinearize(KvModel.Store(), Operations(w), Points(w), Maps(w));
  }

  // ---------- When no operation is pending ----------

  /** In particular, those who use the service can order its operations so that real time is
      respected and every get returns the value last put on its key, with what has been appended
      since. */
  lemma ServiceReadsRight(clerks: nat, servers: nat, es: seq<Event>, w: World)
    requires Goes(Init(clerks, servers), es, w)
    ensures KvModel.Typed(Operations(w))
    ensures exists order :: KvReads.OrderReadsRight(Operations(w), order)
  {
    ServiceIsLinearizable(clerks, servers, es, w);
    KvReads.LinearizableIffReadsRight(Operations(w));
  }

  ghost predicate Idle(w: World)
  {
    forall c :: 0 <= c < |w.clerks| ==> w.clerks[c].pending == None
  }

  lemma {:induction false} IdleHasNoPendingWrites(w: World, n: nat)
    requires Idle(w) && n <= |w.clerks|
    ensures PendingWrites(w, n) == []
  {
    if n > 0 {
      IdleHasNoPendingWrites(w, n - 1);
    }
  }

  /** The completed operations, as the service records them. */
  function Completed(w: World): (r: seq<Operation<KvModel.KvValue>>)
    ensures |r| == |w.history| && forall i :: 0 <= i < |r| ==> r[i] == OperationOf(w.history[i])
  {
    seq(|w.history|, i requires 0 <= i < |w.history| => OperationOf(w.history[i]))
  }

  lemma CompletedIsLinearizable(clerks: nat, servers: nat, es: seq<Event>, w: World)
    requires Goes(Init(clerks, servers), es, w) && Idle(w)
    ensures Linearizable(KvModel.Store(), Completed(w))
  {
    ServiceIsLinearizable(clerks, servers, es, w);
    IdleHasNoPendingWrites(w, |w.clerks|);
    assert Effective(w) == w.history;
    assert Completed(w) == Operations(w);
  }
}
