/** Checking a key-value history from end to end: partition by key, one worker per key, and
    the combined verdict. */
module KvCheck {
  import opened Linearizability
  import opened History
  import opened Search
  import Checker
  import CheckParallel
  import KvModel
  import KvService
  import KvLinearizable

  lemma EqualityIsSound(ops: seq<Operation<KvModel.KvValue>>)
    ensures EqualIsSound(KvModel.Single(), ops)
  {
  }

  lemma UntiedSub(history: seq<Operation<KvModel.KvValue>>, key: string)
    requires KvModel.Typed(history) && Untied(history)
    ensures Untied(KvModel.Sub(history, key))
  {
    KvModel.IndicesFacts(history, key, |history|);
  }

  lemma UntiedIsWellTimed(history: seq<Operation<KvModel.KvValue>>)
    requires Untied(history)
    ensures WellTimed(history)
  {
  }

  /** The work of one worker: what it answers is what the collector may rely on, given whether
      one of its `polls` readings of the kill flag found it raised. */
  method Worker(sub: seq<Operation<KvModel.KvValue>>, computePartial: bool, kill: nat -> bool)
    returns (ok: bool, ghost polls: nat)
    requires Untied(sub)
    ensures ok ==> Linearizable(KvModel.Single(), sub)
    ensures CheckParallel.WorkerMay(Linearizable(KvModel.Single(), sub), Checker.SeenRaised(kill, polls), ok)
    ensures forall i :: 0 <= i < polls && kill(i) ==> !ok && i == polls - 1
  {
    var entries := MakeEntries(sub);
    var longest;
    ok, longest, polls := Checker.CheckSingle(KvModel.Single(), entries, computePartial, kill);
    EqualityIsSound(OpsOf(entries));
    LinearizableSame(KvModel.Single(), sub, OpsOf(entries));
  }

  /** The truth about each part. */
  ghost function TruthOf(parts: seq<seq<Operation<KvModel.KvValue>>>): (r: seq<bool>)
    ensures |r| == |parts| && forall i :: 0 <= i < |parts| ==> (r[i] <==> Linearizable(KvModel.Single(), parts[i]))
  {
    seq(|parts|, i requires 0 <= i < |parts| => Linearizable(KvModel.Single(), parts[i]))
  }

  lemma UntiedPart(history: seq<Operation<KvModel.KvValue>>, parts: seq<seq<Operation<KvModel.KvValue>>>, i: nat)
    requires KvModel.Typed(history) && Untied(history) && KvModel.IsPartition(history, parts) && i < |parts|
    ensures Untied(parts[i])
  {
    var keys :| KvModel.SubsOf(history, keys, parts);
    UntiedSub(history, keys[i]);
  }

  /** Answer i is one that the collector's state machine lets its worker give, once the flag is
      raised if the worker has seen it raised. */
  ghost predicate AnswerOk(parts: seq<seq<Operation<KvModel.KvValue>>>, kill: nat -> bool, polls: seq<nat>,
                           oks: seq<bool>, i: nat)
    requires i < |parts| && i < |polls| && i < |oks|
  {
    CheckParallel.WorkerMay(TruthOf(parts)[i], Checker.SeenRaised(kill, polls[i]), oks[i])
  }

  ghost predicate AnswersOk(parts: seq<seq<Operation<KvModel.KvValue>>>, kill: nat -> nat -> bool, polls: seq<nat>,
                            oks: seq<bool>, n: nat)
  {
    && n == |oks| == |polls| <= |parts|
    && forall i {:trigger AnswerOk(parts, kill(i), polls, oks, i)} :: 0 <= i < n ==>
         AnswerOk(parts, kill(i), polls, oks, i)
  }

  lemma NextAnswer(parts: seq<seq<Operation<KvModel.KvValue>>>, kill: nat -> nat -> bool, polls: seq<nat>,
                   oks: seq<bool>, n: nat, poll: nat, ok: bool)
    requires AnswersOk(parts, kill, polls, oks, n) && n < |parts|
    requires CheckParallel.WorkerMay(TruthOf(parts)[n], Checker.SeenRaised(kill(n), poll), ok)
    ensures AnswersOk(parts, kill, polls + [poll], oks + [ok], n + 1)
  {
    forall i | 0 <= i < n + 1 ensures AnswerOk(parts, kill(i), polls + [poll], oks + [ok], i) {
      if i < n {
        SameAnswer(parts, kill(i), polls, oks, polls + [poll], oks + [ok], i);
      }
    }
  }

  lemma SameAnswer(parts: seq<seq<Operation<KvModel.KvValue>>>, kill: nat -> bool, polls: seq<nat>, oks: seq<bool>,
                   polls': seq<nat>, oks': seq<bool>, i: nat)
    requires i < |parts| && i < |polls| && i < |oks| && i < |polls'| && i < |oks'|
    requires AnswerOk(parts, kill, polls, oks, i) && polls'[i] == polls[i] && oks'[i] == oks[i]
    ensures AnswerOk(parts, kill, polls', oks', i)
  {
  }

  /** Partitions a history and lets one worker check each part; worker i reads kill(i) from the
      kill flag. */
  method CheckParts(history: seq<Operation<KvModel.KvValue>>, computePartial: bool, kill: nat -> nat -> bool)
    returns (parts: seq<seq<Operation<KvModel.KvValue>>>, oks: seq<bool>, ghost polls: seq<nat>)
    requires KvModel.Typed(history) && Untied(history)
    ensures KvModel.IsPartition(history, parts) && AnswersOk(parts, kill, polls, oks, |parts|)
  {
    parts := KvModel.Partition(history);
    oks, polls := [], [];
    for i := 0 to |parts|
      invariant AnswersOk(parts, kill, polls, oks, i)
    {
      UntiedPart(history, parts, i);
      ghost var n;
      var ok;
      ok, n := Worker(parts[i], computePartial, kill(i));
      NextAnswer(parts, kill, polls, oks, i, n, ok);
      oks, polls := oks + [ok], polls + [n];
    }
  }

  /** In every run of the collector over the parts of a key-value history, Ok means that the
      history is linearizable for the store with all its keys, Illegal that it is not, and
      without a timeout the verdict is one of the two. */
  lemma VerdictForStore(history: seq<Operation<KvModel.KvValue>>, parts: seq<seq<Operation<KvModel.KvValue>>>,
                        computeInfo: bool, hasTimeout: bool, es: seq<CheckParallel.Event>, s: CheckParallel.State)
    requires KvModel.Typed(history) && Untied(history) && KvModel.IsPartition(history, parts)
    requires CheckParallel.Reaches(CheckParallel.Setup(TruthOf(parts), computeInfo, hasTimeout), es, s)
    requires s.phase.Finished?
    ensures CheckParallel.Result(s) == CheckParallel.Ok ==> Linearizable(KvModel.Store(), history)
    ensures CheckParallel.Result(s) == CheckParallel.Illegal ==> !Linearizable(KvModel.Store(), history)
    ensures !hasTimeout ==> (CheckParallel.Result(s) == CheckParallel.Ok <==> Linearizable(KvModel.Store(), history))
    ensures CheckParallel.Result(s) == CheckParallel.Illegal <==> CheckParallel.TookFalse(es)
    ensures CheckParallel.Result(s) == CheckParallel.Unknown
       <==> !CheckParallel.TookFalse(es) && CheckParallel.TimeOut in es
  {
    var c := CheckParallel.Setup(TruthOf(parts), computeInfo, hasTimeout);
    CheckParallel.VerdictIsTruthful(c, es, s);
    CheckParallel.VerdictSaysWhatHappened(c, es, s);
    UntiedIsWellTimed(history);
    KvModel.PartitionContract(history, parts);
    assert CheckParallel.AllTrue(c) <==> forall i :: 0 <= i < |parts| ==> Linearizable(KvModel.Single(), parts[i]);
  }

  lemma ServiceTimes(w: KvService.World)
    requires KvService.Inv(w)
    ensures KvModel.Typed(KvLinearizable.Completed(w)) && Untied(KvLinearizable.Completed(w))
  {
    var h := KvLinearizable.Completed(w);
    forall i, j | 0 <= i < |h| && 0 <= j < |h| ensures h[i].call < h[i].ret && h[i].call != h[j].ret {
      assert KvService.DoneOk(w, w.history[i]) && KvService.DoneOk(w, w.history[j]);
    }
  }

  /** The checker accepts what the service does: for the history of any run of the service
      that has no operation pending, no run of the checker answers Illegal, and one without a
      timeout that finishes answers Ok. */
  lemma CheckerAcceptsService(clerks: nat, servers: nat, run: seq<KvService.Event>, w: KvService.World,
                              parts: seq<seq<Operation<KvModel.KvValue>>>, computeInfo: bool, hasTimeout: bool,
                              es: seq<CheckParallel.Event>, s: CheckParallel.State)
    requires KvService.Goes(KvService.Init(clerks, servers), run, w) && KvLinearizable.Idle(w)
    requires KvModel.Typed(KvLinearizable.Completed(w)) && KvModel.IsPartition(KvLinearizable.Completed(w), parts)
    requires CheckParallel.Reaches(CheckParallel.Setup(TruthOf(parts), computeInfo, hasTimeout), es, s)
    requires s.phase.Finished?
    ensures CheckParallel.Result(s) != CheckParallel.Illegal
    ensures !hasTimeout ==> CheckParallel.Result(s) == CheckParallel.Ok
  {
    KvService.InitInv(clerks, servers);
    KvService.RunKeepsInv(KvService.Init(clerks, servers), run, w);
    ServiceTimes(w);
    KvLinearizable.CompletedIsLinearizable(clerks, servers, run, w);
    VerdictForStore(KvLinearizable.Completed(w), parts, computeInfo, hasTimeout, es, s);
  }
}
