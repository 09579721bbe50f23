/** What a linearization for the store means for those who use it: every get returns the value of
    the last put on its key, followed by what has been appended since, and that is all there is
    to it.  Nothing here mentions how the model steps, except where it is compared with this. */
module KvReads {
  import opened Collections
  import opened Linearizability
  import opened KvModel

  const GET := 0
  const PUT := 1

  /** The place in the order, below n, after the last put on the key; 0 if there is none. */
  ghost function AfterLastPut(history: seq<Operation<KvValue>>, order: seq<nat>, key: string, n: nat): (p: nat)
    requires Typed(history) && InRange(history, order) && n <= |order|
    ensures p <= n
  {
    if n == 0 then 0
    else
      var inp := history[order[n - 1]].input;
      if inp.key == key && inp.op == PUT then n else AfterLastPut(history, order, key, n - 1)
  }

  /** There is a put on the key just before that place, and none after it. */
  lemma {:induction false} LastPutIsLast(history: seq<Operation<KvValue>>, order: seq<nat>, key: string, n: nat, i: nat)
    requires Typed(history) && InRange(history, order) && n <= |order|
    ensures var p := AfterLastPut(history, order, key, n);
      && (p > 0 ==> history[order[p - 1]].input.key == key && history[order[p - 1]].input.op == PUT)
      && (p <= i < n ==> history[order[i]].input.key != key || history[order[i]].input.op != PUT)
    decreases n
  {
    if n > 0 {
      LastPutIsLast(history, order, key, n - 1, i);
    }
  }

  /** What the operations in these places append to the key, one after the other. */
  ghost function Appended(history: seq<Operation<KvValue>>, order: seq<nat>, key: string, from: nat, n: nat)
    : (v: string)
    requires Typed(history) && InRange(history, order) && from <= n <= |order|
    decreases n
  {
    if n == from then ""
    else
      var inp := history[order[n - 1]].input;
      Appended(history, order, key, from, n - 1)
      + if inp.key == key && inp.op != GET && inp.op != PUT then inp.value else ""
  }

  /** The value of the key before the operation in place n. */
  ghost function Written(history: seq<Operation<KvValue>>, order: seq<nat>, key: string, n: nat): (v: string)
    requires Typed(history) && InRange(history, order) && n <= |order|
  {
    var p := AfterLastPut(history, order, key, n);
    (if p > 0 then history[order[p - 1]].input.value else "") + Appended(history, order, key, p, n)
  }

  /** The get in place n returns what was written before it. */
  ghost predicate ReadRight(history: seq<Operation<KvValue>>, order: seq<nat>, n: nat)
    requires Typed(history) && InRange(history, order) && n < |order|
  {
    var op := history[order[n]];
    op.input.op == GET ==> op.output.value == Written(history, order, op.input.key, n)
  }

  ghost predicate ReadsRight(history: seq<Operation<KvValue>>, order: seq<nat>)
    requires Typed(history) && InRange(history, order)
  {
    forall n {:trigger ReadRight(history, order, n)} :: 0 <= n < |order| ==> ReadRight(history, order, n)
  }

  /** The order is one of all operations, respects real time, and explains what gets return. */
  ghost predicate OrderReadsRight(history: seq<Operation<KvValue>>, order: seq<nat>)
    requires Typed(history)
  {
    && IsPermutation(order, |history|) && RespectsRealTime(history, order)
    && InRange(history, order) && ReadsRight(history, order)
  }

  // ---------- The store holds what was written ----------

  ghost function StateAt(history: seq<Operation<KvValue>>, order: seq<nat>, n: nat): (st: map<string, string>)
    requires InRange(history, order) && n <= |order|
  {
    Run(Store(), history, map[], order[..n])
  }

  lemma StateNext(history: seq<Operation<KvValue>>, order: seq<nat>, n: nat)
    requires InRange(history, order) && n < |order|
    ensures StateAt(history, order, n + 1) == StepState(Store(), history, StateAt(history, order, n), order[n])
  {
    assert order[..n + 1] == order[..n] + [order[n]] && [order[n]][1..] == [];
    LegalAppend(Store(), history, map[], order[..n], [order[n]]);
  }

  lemma WrittenByPut(history: seq<Operation<KvValue>>, order: seq<nat>, key: string, n: nat)
    requires Typed(history) && InRange(history, order) && n < |order|
    requires history[order[n]].input.key == key && history[order[n]].input.op == PUT
    ensures Written(history, order, key, n + 1) == history[order[n]].input.value
  {
    assert Appended(history, order, key, n + 1, n + 1) == "";
  }

  lemma PutStays(history: seq<Operation<KvValue>>, order: seq<nat>, key: string, n: nat)
    requires Typed(history) && InRange(history, order) && n < |order|
    requires history[order[n]].input.key != key || history[order[n]].input.op != PUT
    ensures AfterLastPut(history, order, key, n + 1) == AfterLastPut(history, order, key, n)
  {
  }

  lemma AppendedNext(history: seq<Operation<KvValue>>, order: seq<nat>, key: string, from: nat, n: nat)
    requires Typed(history) && InRange(history, order) && from <= n < |order|
    requires history[order[n]].input.key != key || history[order[n]].input.op != PUT
    ensures var inp, before := history[order[n]].input, Appended(history, order, key, from, n);
      Appended(history, order, key, from, n + 1)
      == if inp.key == key && inp.op != GET then before + inp.value else before
  {
    assert forall v: string :: v + "" == v;
  }

  lemma WrittenNext(history: seq<Operation<KvValue>>, order: seq<nat>, key: string, n: nat)
    requires Typed(history) && InRange(history, order) && n < |order|
    ensures var inp := history[order[n]].input;
      Written(history, order, key, n + 1) ==
        if inp.key != key || inp.op == GET then Written(history, order, key, n)
        else if inp.op == PUT then inp.value
        else Written(history, order, key, n) + inp.value
  {
    var inp := history[order[n]].input;
    if inp.key == key && inp.op == PUT {
      WrittenByPut(history, order, key, n);
    } else {
      var p := AfterLastPut(history, order, key, n);
      PutStays(history, order, key, n);
      AppendedNext(history, order, key, p, n);
      var before := if p > 0 then history[order[p - 1]].input.value else "";
      Regroup(before, Appended(history, order, key, p, n), inp.value);
    }
  }

  /** What one operation makes of the value of a key. */
  lemma ValueNext(history: seq<Operation<KvValue>>, st: map<string, string>, id: nat, key: string)
    requires Typed(history) && id < |history|
    ensures var inp := history[id].input;
      Lookup(StepState(Store(), history, st, id), key) ==
        if inp.key != key || inp.op == GET then Lookup(st, key)
        else if inp.op == PUT then inp.value
        else Lookup(st, key) + inp.value
  {
    StoreStepFacts(history, st, id, key);
  }

  lemma {:induction false} StoreHolds(history: seq<Operation<KvValue>>, order: seq<nat>, key: string, n: nat)
    requires Typed(history) && InRange(history, order) && n <= |order|
    ensures Lookup(StateAt(history, order, n), key) == Written(history, order, key, n)
  {
    if n > 0 {
      StoreHolds(history, order, key, n - 1);
      StateNext(history, order, n - 1);
      WrittenNext(history, order, key, n - 1);
      ValueNext(history, StateAt(history, order, n - 1), order[n - 1], key);
    }
  }

  // ---------- An order is legal exactly if its reads are right ----------

  lemma AllowedIffRight(history: seq<Operation<KvValue>>, order: seq<nat>, n: nat)
    requires Typed(history) && InRange(history, order) && n < |order|
    ensures StepOk(Store(), history, StateAt(history, order, n), order[n]) <==> ReadRight(history, order, n)
  {
    StoreHolds(history, order, history[order[n]].input.key, n);
  }

  lemma LegalNext(history: seq<Operation<KvValue>>, order: seq<nat>, k: nat)
    requires Typed(history) && InRange(history, order) && k < |order|
    ensures Legal(Store(), history, map[], order[..k + 1]) <==>
      Legal(Store(), history, map[], order[..k]) && StepOk(Store(), history, StateAt(history, order, k), order[k])
  {
    assert order[..k + 1] == order[..k] + [order[k]] && [order[k]][1..] == [];
    LegalAppend(Store(), history, map[], order[..k], [order[k]]);
  }

  lemma {:induction false} LegalIffRight(history: seq<Operation<KvValue>>, order: seq<nat>, n: nat)
    requires Typed(history) && InRange(history, order) && n <= |order|
    ensures Legal(Store(), history, map[], order[..n]) <==>
      forall k {:trigger ReadRight(history, order, k)} :: 0 <= k < n ==> ReadRight(history, order, k)
  {
    if n > 0 {
      var k := n - 1;
      LegalIffRight(history, order, k);
      AllowedIffRight(history, order, k);
      LegalNext(history, order, k);
    }
  }

  /** An order of all operations is a linearization for the store if and only if it respects real
      time and every get in it returns what was written before it. */
  lemma LinearizationIffReadsRight(history: seq<Operation<KvValue>>, order: seq<nat>)
    requires Typed(history)
    ensures IsLinearization(Store(), history, order) <==> OrderReadsRight(history, order)
  {
    if InRange(history, order) {
      LegalIffRight(history, order, |order|);
      assert order[..|order|] == order;
    }
  }

  /** And a history is linearizable if and only if there is such an order. */
  lemma LinearizableIffReadsRight(history: seq<Operation<KvValue>>)
    requires Typed(history)
    ensures Linearizable(Store(), history) <==>
      exists order :: OrderReadsRight(history, order)
  {
    forall order ensures IsLinearization(Store(), history, order) <==> OrderReadsRight(history, order) {
      LinearizationIffReadsRight(history, order);
    }
  }
}
