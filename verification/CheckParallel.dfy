/** The checker for several partitions: one worker per partition, a collector that combines
    their results, a kill flag and an optional timeout.  Every interleaving is a sequence of
    the atomic steps below. */
module CheckParallel {
  import opened Collections

  /** truth[i] says whether partition i is linearizable. */
  datatype Setup = Setup(truth: seq<bool>, computeInfo: bool, hasTimeout: bool)

  /** A worker is still searching, or its result is in the channel, or was received. */
  datatype Worker = Running | Sent(result: bool) | Received

  /** The collector is in its main loop, waiting for the rest of the workers, or done. */
  datatype Phase = Collecting | Draining | Finished

  datatype State = State(workers: seq<Worker>, count: nat, ok: bool, timedOut: bool, kill: bool, phase: Phase)

  datatype Event = Finish(i: nat, result: bool) | Receive(i: nat) | TimeOut | Drain(i: nat)

  datatype CheckResult = Unknown | Ok | Illegal

  function Init(c: Setup): (s: State)
  {
    State(seq(|c.truth|, _ => Running), 0, true, false, false, Collecting)
  }

  /** What a worker may answer: it never accepts wrongly, and rejects wrongly only if it may
      have seen the kill flag raised. */
  predicate WorkerMay(truth: bool, kill: bool, result: bool)
  {
    (result ==> truth) && (!result ==> !truth || kill)
  }

  /** The collector leaves its main loop. */
  function Leave(c: Setup, s: State): (r: State)
  {
    s.(phase := if c.computeInfo && s.count < |c.truth| then Draining else Finished)
  }

  predicate CanStep(c: Setup, s: State, e: Event)
  {
    match e
    case Finish(i, result) =>
      i < |s.workers| && i < |c.truth| && s.workers[i].Running? && WorkerMay(c.truth[i], s.kill, result)
    case Receive(i) => s.phase.Collecting? && i < |s.workers| && s.workers[i].Sent?
    case TimeOut => s.phase.Collecting? && c.hasTimeout
    case Drain(i) => s.phase.Draining? && i < |s.workers| && s.workers[i].Sent?
  }

  function Step(c: Setup, s: State, e: Event): (r: State)
    requires CanStep(c, s, e)
  {
    match e
    case Finish(i, result) => s.(workers := s.workers[i := Sent(result)])
    case Receive(i) =>
      var s' := s.(workers := s.workers[i := Received], count := s.count + 1, ok := s.ok && s.workers[i].result);
      if !s'.ok && !c.computeInfo then Leave(c, s'.(kill := true))
      else if s'.count >= |c.truth| then Leave(c, s')
      else s'
    case TimeOut => Leave(c, s.(timedOut := true, kill := true))
    case Drain(i) =>
      var s' := s.(workers := s.workers[i := Received], count := s.count + 1);
      if s'.count < |c.truth| then s' else s'.(phase := Finished)
  }

  function Result(s: State): (r: CheckResult)
  {
    if !s.ok then Illegal else if s.timedOut then Unknown else Ok
  }

  /** The events es lead from the initial state to s. */
  ghost predicate Reaches(c: Setup, es: seq<Event>, s: State)
    decreases |es|
  {
    if es == [] then s == Init(c)
    else
      var k := |es| - 1;
      exists s0 :: Reaches(c, es[..k], s0) && CanStep(c, s0, es[k]) && s == Step(c, s0, es[k])
  }

  // ---------- What every step keeps ----------

  ghost function ReceivedSet(s: State): (r: set<nat>)
  {
    set i | 0 <= i < |s.workers| && s.workers[i].Received?
  }

  ghost predicate Inv(c: Setup, s: State)
  {
    && |s.workers| == |c.truth|
    && s.count == |ReceivedSet(s)|
    && (s.phase.Collecting? ==>
          && !s.kill && !s.timedOut
          && (|c.truth| > 0 ==> s.count < |c.truth|)
          && (s.ok ==> forall i :: 0 <= i < |c.truth| && s.workers[i].Received? ==> c.truth[i])
          && (forall i :: 0 <= i < |c.truth| && s.workers[i].Sent? ==> s.workers[i].result == c.truth[i]))
    && (!s.ok ==> exists i :: 0 <= i < |c.truth| && !c.truth[i])
    && (!s.phase.Collecting? && s.ok && !s.timedOut ==> forall i :: 0 <= i < |c.truth| ==> c.truth[i])
    && (s.phase.Draining? ==> s.count < |c.truth|)
  }

  /** The count says whether all results are in. */
  lemma AllReceived(s: State)
    ensures |ReceivedSet(s)| <= |s.workers|
    ensures |ReceivedSet(s)| == |s.workers| <==> forall i :: 0 <= i < |s.workers| ==> s.workers[i].Received?
  {
    var b := Below(|s.workers|);
    assert ReceivedSet(s) <= b;
    SubsetCardinality(ReceivedSet(s), b);
    if |ReceivedSet(s)| == |s.workers| {
      forall i | 0 <= i < |s.workers| ensures s.workers[i].Received? {
        assert i in b;
      }
    }
    if forall i :: 0 <= i < |s.workers| ==> s.workers[i].Received? {
      assert b == ReceivedSet(s);
    }
  }

  lemma ReceiveCounts(s: State, i: nat, s': State)
    requires i < |s.workers| && !s.workers[i].Received? && s'.workers == s.workers[i := Received]
    ensures |ReceivedSet(s')| == |ReceivedSet(s)| + 1
  {
    assert ReceivedSet(s') == ReceivedSet(s) + {i};
  }

  lemma InvInit(c: Setup)
    ensures Inv(c, Init(c))
  {
    assert ReceivedSet(Init(c)) == {};
  }

  lemma InvStep(c: Setup, s: State, e: Event)
    requires Inv(c, s) && CanStep(c, s, e)
    ensures Inv(c, Step(c, s, e))
  {
    var s' := Step(c, s, e);
    match e
    case Finish(i, result) =>
      assert ReceivedSet(s') == ReceivedSet(s);
    case Receive(i) =>
      ReceiveCounts(s, i, s');
      AllReceived(s');
      if s'.ok && s'.phase != Collecting {
        forall j | 0 <= j < |c.truth| ensures c.truth[j] {
          assert s'.workers[j].Received? && (j != i ==> s.workers[j].Received?);
        }
      }
    case TimeOut =>
      assert ReceivedSet(s') == ReceivedSet(s);
    case Drain(i) =>
      ReceiveCounts(s, i, s');
  }

  lemma {:induction false} InvHolds(c: Setup, es: seq<Event>, s: State)
    requires Reaches(c, es, s)
    ensures Inv(c, s)
    decreases |es|
  {
    if es == [] {
      InvInit(c);
    } else {
      var k := |es| - 1;
      var s0 :| Reaches(c, es[..k], s0) && CanStep(c, s0, es[k]) && s == Step(c, s0, es[k]);
      InvHolds(c, es[..k], s0);
      InvStep(c, s0, es[k]);
    }
  }

  // ---------- The verdict ----------

  ghost predicate AllTrue(c: Setup)
  {
    forall i :: 0 <= i < |c.truth| ==> c.truth[i]
  }

  /** In every run, Ok means that every partition is linearizable and Illegal that some
      partition is not; without a timeout the answer is one of the two. */
  lemma VerdictIsTruthful(c: Setup, es: seq<Event>, s: State)
    requires Reaches(c, es, s) && s.phase.Finished?
    ensures Result(s) == Ok ==> AllTrue(c)
    ensures Result(s) == Illegal ==> !AllTrue(c)
    ensures !c.hasTimeout ==> (Result(s) == Ok <==> AllTrue(c)) && Result(s) != Unknown
  {
    InvHolds(c, es, s);
    NoTimeOut(c, es, s);
  }

  lemma {:induction false} NoTimeOut(c: Setup, es: seq<Event>, s: State)
    requires Reaches(c, es, s)
    ensures s.timedOut ==> c.hasTimeout
    decreases |es|
  {
    if es != [] {
      var k := |es| - 1;
      var s0 :| Reaches(c, es[..k], s0) && CanStep(c, s0, es[k]) && s == Step(c, s0, es[k]);
      NoTimeOut(c, es[..k], s0);
    }
  }

  // ---------- The verdict, from what happened ----------

  /** The collector has received a rejection in its main loop. */
  ghost predicate TookFalse(es: seq<Event>)
  {
    exists k, i :: 0 <= k < |es| && es[k] == Receive(i) && Finish(i, false) in es[..k]
  }

  /** The state tells what happened: who has finished and how, whether a rejection was received, and
      whether the time was up. */
  ghost predicate Remembers(c: Setup, es: seq<Event>, s: State)
  {
    && |s.workers| == |c.truth|
    && (forall i: nat, r {:trigger Finish(i, r)} :: Finish(i, r) in es ==>
          i < |s.workers| && (s.workers[i] == Sent(r) || s.workers[i] == Received))
    && (forall i :: 0 <= i < |s.workers| && s.workers[i].Sent? ==> Finish(i, s.workers[i].result) in es)
    && (s.ok <==> !TookFalse(es)) && (s.timedOut <==> TimeOut in es)
  }

  lemma TookMore(es: seq<Event>, e: Event)
    ensures TookFalse(es + [e]) <==> TookFalse(es) || (e.Receive? && Finish(e.i, false) in es)
  {
    var es' := es + [e];
    assert es'[..|es|] == es;
    if TookFalse(es) {
      var k, i :| 0 <= k < |es| && es[k] == Receive(i) && Finish(i, false) in es[..k];
      assert es'[..k] == es[..k] && es'[k] == Receive(i);
    }
    if e.Receive? && Finish(e.i, false) in es {
      assert es'[|es|] == Receive(e.i);
    }
    if TookFalse(es') {
      var k, i :| 0 <= k < |es'| && es'[k] == Receive(i) && Finish(i, false) in es'[..k];
      assert k < |es| ==> es'[..k] == es[..k] && es[k] == Receive(i);
    }
  }

  lemma RemembersStep(c: Setup, es: seq<Event>, s: State, e: Event)
    requires Remembers(c, es, s) && CanStep(c, s, e)
    ensures Remembers(c, es + [e], Step(c, s, e))
  {
    TookMore(es, e);
    var s' := Step(c, s, e);
    forall i: nat, r {:trigger Finish(i, r)} | Finish(i, r) in es + [e]
      ensures i < |s'.workers| && (s'.workers[i] == Sent(r) || s'.workers[i] == Received)
    {
      assert e == Finish(i, r) || Finish(i, r) in es;
    }
    if e.Receive? {
      assert Finish(e.i, s.workers[e.i].result) in es;
    }
  }

  lemma {:induction false} RunIsRemembered(c: Setup, es: seq<Event>, s: State)
    requires Reaches(c, es, s)
    ensures Remembers(c, es, s)
    decreases |es|
  {
    if es != [] {
      var k := |es| - 1;
      var s0 :| Reaches(c, es[..k], s0) && CanStep(c, s0, es[k]) && s == Step(c, s0, es[k]);
      RunIsRemembered(c, es[..k], s0);
      RemembersStep(c, es[..k], s0, es[k]);
      assert es == es[..k] + [es[k]];
    }
  }

  /** The verdict says what happened: Illegal if a rejection was received before the collector left
      its main loop, otherwise Unknown if the time was up, and otherwise Ok. */
  lemma VerdictSaysWhatHappened(c: Setup, es: seq<Event>, s: State)
    requires Reaches(c, es, s) && s.phase.Finished?
    ensures Result(s) == Illegal <==> TookFalse(es)
    ensures Result(s) == Unknown <==> !TookFalse(es) && TimeOut in es
    ensures Result(s) == Ok <==> !TookFalse(es) && TimeOut !in es
  {
    RunIsRemembered(c, es, s);
  }

  /** The workers are told to stop when the time is up, or when a rejection is received and no
      information is asked for, and then alone.  Unless they are, all results are in when the
      collector leaves its main loop; and if information is asked for, they are when it is done. */
  ghost predicate Settled(c: Setup, s: State)
  {
    && (s.kill <==> s.timedOut || (!c.computeInfo && !s.ok))
    && (!c.computeInfo && !s.ok ==> s.phase.Finished?)
    && (!s.phase.Collecting? && !s.kill ==> forall i :: 0 <= i < |s.workers| ==> s.workers[i].Received?)
    && (s.phase.Finished? && c.computeInfo ==> forall i :: 0 <= i < |s.workers| ==> s.workers[i].Received?)
  }

  lemma SettledStep(c: Setup, s: State, e: Event)
    requires Inv(c, s) && Settled(c, s) && CanStep(c, s, e)
    ensures Settled(c, Step(c, s, e))
  {
    var s' := Step(c, s, e);
    InvStep(c, s, e);
    AllReceived(s');
  }

  lemma {:induction false} RunSettles(c: Setup, es: seq<Event>, s: State)
    requires Reaches(c, es, s)
    ensures Settled(c, s)
    decreases |es|
  {
    if es != [] {
      var k := |es| - 1;
      var s0 :| Reaches(c, es[..k], s0) && CanStep(c, s0, es[k]) && s == Step(c, s0, es[k]);
      RunSettles(c, es[..k], s0);
      InvHolds(c, es[..k], s0);
      SettledStep(c, s0, es[k]);
    }
  }

  // ---------- Progress ----------

  /** A run never gets stuck before the collector is done, except that without partitions
      and without a timeout the collector waits for a result that never comes. */
  lemma Progress(c: Setup, es: seq<Event>, s: State)
    requires Reaches(c, es, s) && !s.phase.Finished?
    ensures (exists e :: CanStep(c, s, e)) <==> |c.truth| > 0 || c.hasTimeout
  {
    InvHolds(c, es, s);
    AllReceived(s);
    if |c.truth| > 0 {
      var i :| 0 <= i < |s.workers| && !s.workers[i].Received?;
      if s.workers[i].Running? {
        assert CanStep(c, s, Finish(i, c.truth[i]));
      } else if s.phase.Collecting? {
        assert CanStep(c, s, Receive(i));
      } else {
        assert CanStep(c, s, Drain(i));
      }
    } else if c.hasTimeout {
      assert CanStep(c, s, TimeOut);
    }
  }

  ghost function WorkLeft(workers: seq<Worker>): (r: nat)
  {
    if workers == [] then 0
    else (match workers[|workers| - 1] case Running => 2 case Sent(_) => 1 case Received => 0)
         + WorkLeft(workers[..|workers| - 1])
  }

  lemma {:induction false} WorkDecreases(workers: seq<Worker>, i: nat, w: Worker)
    requires i < |workers|
    requires (workers[i].Running? && w.Sent?) || (workers[i].Sent? && w.Received?)
    ensures WorkLeft(workers[i := w]) < WorkLeft(workers)
    decreases |workers|
  {
    var k := |workers| - 1;
    if i == k {
      assert workers[i := w][..k] == workers[..k];
    } else {
      assert workers[i := w][..k] == workers[..k][i := w];
      WorkDecreases(workers[..k], i, w);
    }
  }

  ghost function Measure(s: State): (r: nat)
  {
    WorkLeft(s.workers) + if s.phase.Collecting? then 1 else 0
  }

  /** Every step brings the end of the run closer. */
  lemma StepsEnd(c: Setup, s: State, e: Event)
    requires CanStep(c, s, e)
    ensures Measure(Step(c, s, e)) < Measure(s)
  {
    match e
    case Finish(i, result) => WorkDecreases(s.workers, i, Sent(result));
    case Receive(i) => WorkDecreases(s.workers, i, Received);
    case TimeOut =>
    case Drain(i) => WorkDecreases(s.workers, i, Received);
  }
}
