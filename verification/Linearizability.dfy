/** What it means for a concurrent history to be linearizable, and the incremental
    view of the same notion that a search works with.

    A history is a sequence of completed operations; an operation's id is its index.
    `IsLinearization` is the declarative definition.  `Extends` describes how a search
    adds one enabled operation after the other; `PartialIsExtension` and
    `FullPartialIsLinearization` connect the two. */
module Linearizability {
  import opened Collections

  datatype Operation<V> = Operation(clientId: int, input: V, call: int, output: V, ret: int)

  /** A sequential specification.  `step` says whether the state allows an operation with
      this input and output, and what the next state is; `equal` compares states. */
  datatype Model<!S, !V> = Model(init: S, step: (S, V, V) -> (bool, S), equal: (S, S) -> bool)

  // ---------- Sequences of ids ----------

  ghost function Ids(order: seq<nat>): (r: set<nat>)
  {
    set x | x in order
  }

  ghost predicate NoDup(order: seq<nat>)
  {
    forall i, j :: 0 <= i < j < |order| ==> order[i] != order[j]
  }

  lemma IdsAppend(a: seq<nat>, b: seq<nat>)
    ensures Ids(a + b) == Ids(a) + Ids(b)
  {
  }

  lemma {:induction false} IdsCardinality(order: seq<nat>)
    requires NoDup(order)
    ensures |Ids(order)| == |order|
  {
    if order != [] {
      var k := |order| - 1;
      IdsCardinality(order[..k]);
      assert order == order[..k] + [order[k]];
      IdsAppend(order[..k], [order[k]]);
      assert Ids([order[k]]) == {order[k]};
    }
  }

  /** A duplicate-free list of ids below n has at most n elements, and n elements only if
      every id occurs. */
  lemma Pigeonhole(order: seq<nat>, n: nat)
    requires NoDup(order) && Ids(order) <= Below(n)
    ensures |order| <= n
    ensures |order| == n <==> Ids(order) == Below(n)
  {
    IdsCardinality(order);
    SubsetCardinality(Ids(order), Below(n));
  }

  // ---------- Running the sequential specification ----------

  predicate StepOk<S, V>(m: Model<S, V>, ops: seq<Operation<V>>, s: S, id: nat)
    requires id < |ops|
  {
    m.step(s, ops[id].input, ops[id].output).0
  }

  function StepState<S, V>(m: Model<S, V>, ops: seq<Operation<V>>, s: S, id: nat): (r: S)
    requires id < |ops|
  {
    m.step(s, ops[id].input, ops[id].output).1
  }

  predicate InRange<V>(ops: seq<Operation<V>>, order: seq<nat>)
  {
    forall i :: 0 <= i < |order| ==> order[i] < |ops|
  }

  predicate Legal<S, V>(m: Model<S, V>, ops: seq<Operation<V>>, s: S, order: seq<nat>)
    requires InRange(ops, order)
    decreases |order|
  {
    order == [] ||
    (StepOk(m, ops, s, order[0]) && Legal(m, ops, StepState(m, ops, s, order[0]), order[1..]))
  }

  function Run<S, V>(m: Model<S, V>, ops: seq<Operation<V>>, s: S, order: seq<nat>): (r: S)
    requires InRange(ops, order)
    decreases |order|
  {
    if order == [] then s else Run(m, ops, StepState(m, ops, s, order[0]), order[1..])
  }

  lemma {:induction false} LegalAppend<S, V>(m: Model<S, V>, ops: seq<Operation<V>>, s: S, a: seq<nat>, b: seq<nat>)
    requires InRange(ops, a) && InRange(ops, b)
    ensures InRange(ops, a + b)
    ensures Run(m, ops, s, a + b) == Run(m, ops, Run(m, ops, s, a), b)
    ensures Legal(m, ops, s, a + b) <==> Legal(m, ops, s, a) && Legal(m, ops, Run(m, ops, s, a), b)
    decreases |a|
  {
    if a == [] {
      assert a + b == b;
    } else {
      assert (a + b)[1..] == a[1..] + b;
      LegalAppend(m, ops, StepState(m, ops, s, a[0]), a[1..], b);
    }
  }

  // ---------- Linearizability ----------

  /** Real-time order: a returned before b was called. */
  ghost predicate Precedes<V>(ops: seq<Operation<V>>, a: nat, b: nat)
  {
    a < |ops| && b < |ops| && ops[a].ret < ops[b].call
  }

  ghost predicate RespectsRealTime<V>(ops: seq<Operation<V>>, order: seq<nat>)
  {
    forall i, j :: 0 <= i < j < |order| ==> !Precedes(ops, order[j], order[i])
  }

  ghost predicate IsPermutation(order: seq<nat>, n: nat)
  {
    NoDup(order) && Ids(order) == Below(n)
  }

  ghost predicate IsLinearization<S, V>(m: Model<S, V>, ops: seq<Operation<V>>, order: seq<nat>)
  {
    && IsPermutation(order, |ops|)
    && RespectsRealTime(ops, order)
    && InRange(ops, order)
    && Legal(m, ops, m.init, order)
  }

  ghost predicate Linearizable<S, V>(m: Model<S, V>, ops: seq<Operation<V>>)
  {
    exists order :: IsLinearization(m, ops, order)
  }

  /** Every operation returns no earlier than it was called. */
  ghost predicate WellTimed<V>(ops: seq<Operation<V>>)
  {
    forall i :: 0 <= i < |ops| ==> ops[i].call <= ops[i].ret
  }

  // ---------- Partial linearizations ----------

  /** A legal ordering of some of the operations that is closed under real-time
      predecessors: whatever returned before a listed operation was called is listed
      earlier. */
  ghost predicate IsPartial<S, V>(m: Model<S, V>, ops: seq<Operation<V>>, order: seq<nat>)
  {
    && NoDup(order)
    && InRange(ops, order)
    && Legal(m, ops, m.init, order)
    && forall i, b :: 0 <= i < |order| && Precedes(ops, b, order[i]) ==> b in order[..i]
  }

  lemma FullPartialRespectsRealTime<S, V>(m: Model<S, V>, ops: seq<Operation<V>>, order: seq<nat>)
    requires IsPartial(m, ops, order)
    ensures RespectsRealTime(ops, order)
  {
    forall i, j | 0 <= i < j < |order| ensures !Precedes(ops, order[j], order[i]) {
      assert order[j] !in order[..i];
    }
  }

  lemma LinearizationIsClosed<V>(ops: seq<Operation<V>>, order: seq<nat>, i: nat, b: nat)
    requires WellTimed(ops) && Ids(order) == Below(|ops|) && RespectsRealTime(ops, order)
    requires i < |order| && Precedes(ops, b, order[i])
    ensures b in order[..i]
  {
    assert b in Ids(order);
    var j :| 0 <= j < |order| && order[j] == b;
    assert j != i;
    assert j < i;
  }

  /** The partial linearizations of full length are exactly the linearizations. */
  lemma FullPartialIsLinearization<S, V>(m: Model<S, V>, ops: seq<Operation<V>>, order: seq<nat>)
    requires WellTimed(ops)
    ensures IsLinearization(m, ops, order) <==> IsPartial(m, ops, order) && |order| == |ops|
  {
    if IsPartial(m, ops, order) && |order| == |ops| {
      Pigeonhole(order, |ops|);
      FullPartialRespectsRealTime(m, ops, order);
    }
    if IsLinearization(m, ops, order) {
      Pigeonhole(order, |ops|);
      forall i, b | 0 <= i < |order| && Precedes(ops, b, order[i]) ensures b in order[..i] {
        LinearizationIsClosed(ops, order, i, b);
      }
    }
  }

  /** Operation c may be taken next when the operations in `done` have been taken. */
  ghost predicate Enabled<V>(ops: seq<Operation<V>>, done: set<nat>, c: nat)
  {
    c < |ops| && c !in done && forall b :: Precedes(ops, b, c) ==> b in done
  }

  /** `ext` continues a search that has taken the operations in `done` and reached s. */
  ghost predicate Extends<S, V>(m: Model<S, V>, ops: seq<Operation<V>>, done: set<nat>, s: S, ext: seq<nat>)
    decreases |ext|
  {
    ext == [] ||
    (&& Enabled(ops, done, ext[0])
     && StepOk(m, ops, s, ext[0])
     && Extends(m, ops, done + {ext[0]}, StepState(m, ops, s, ext[0]), ext[1..]))
  }

  /** `Extends` in closed form. */
  ghost predicate ExtendsClosed<S, V>(m: Model<S, V>, ops: seq<Operation<V>>, done: set<nat>, s: S, ext: seq<nat>)
  {
    && NoDup(ext)
    && InRange(ops, ext)
    && Legal(m, ops, s, ext)
    && (forall i :: 0 <= i < |ext| ==> ext[i] !in done)
    && (forall i, b :: 0 <= i < |ext| && Precedes(ops, b, ext[i]) ==> b in done || b in ext[..i])
  }

  lemma {:induction false} ExtendsIffClosed<S, V>(m: Model<S, V>, ops: seq<Operation<V>>, done: set<nat>, s: S,
                                                  ext: seq<nat>)
    ensures Extends(m, ops, done, s, ext) <==> ExtendsClosed(m, ops, done, s, ext)
    decreases |ext|
  {
    if ext != [] {
      var c, tail := ext[0], ext[1..];
      if c < |ops| {
        var s' := StepState(m, ops, s, c);
        ExtendsIffClosed(m, ops, done + {c}, s', tail);
        if Extends(m, ops, done, s, ext) {
          ClosedCons(m, ops, done, s, ext);
        }
        if ExtendsClosed(m, ops, done, s, ext) {
          ClosedUncons(m, ops, done, s, ext);
        }
      }
    }
  }

  lemma ClosedCons<S, V>(m: Model<S, V>, ops: seq<Operation<V>>, done: set<nat>, s: S, ext: seq<nat>)
    requires ext != [] && Enabled(ops, done, ext[0]) && StepOk(m, ops, s, ext[0])
    requires ExtendsClosed(m, ops, done + {ext[0]}, StepState(m, ops, s, ext[0]), ext[1..])
    ensures ExtendsClosed(m, ops, done, s, ext)
  {
    var tail := ext[1..];
    assert forall i :: 1 <= i < |ext| ==> ext[i] == tail[i - 1];
    forall i, b | 0 <= i < |ext| && Precedes(ops, b, ext[i]) ensures b in done || b in ext[..i] {
      if i > 0 {
        assert ext[..i] == [ext[0]] + tail[..i - 1];
        assert Precedes(ops, b, tail[i - 1]);
      }
    }
  }

  lemma ClosedUncons<S, V>(m: Model<S, V>, ops: seq<Operation<V>>, done: set<nat>, s: S, ext: seq<nat>)
    requires ext != [] && ExtendsClosed(m, ops, done, s, ext)
    ensures Enabled(ops, done, ext[0]) && StepOk(m, ops, s, ext[0])
    ensures ExtendsClosed(m, ops, done + {ext[0]}, StepState(m, ops, s, ext[0]), ext[1..])
  {
    var tail := ext[1..];
    assert ext[..0] == [];
    forall i, b | 0 <= i < |tail| && Precedes(ops, b, tail[i]) ensures b in done + {ext[0]} || b in tail[..i] {
      assert Precedes(ops, b, ext[i + 1]);
      assert ext[..i + 1] == [ext[0]] + tail[..i];
    }
  }

  /** A partial linearization is what a search can reach from the initial state. */
  lemma PartialIsExtension<S, V>(m: Model<S, V>, ops: seq<Operation<V>>, order: seq<nat>)
    ensures IsPartial(m, ops, order) <==> Extends(m, ops, {}, m.init, order)
  {
    ExtendsIffClosed(m, ops, {}, m.init, order);
    PartialIffClosed(m, ops, order, {});
  }

  lemma PartialIffClosed<S, V>(m: Model<S, V>, ops: seq<Operation<V>>, order: seq<nat>, done: set<nat>)
    requires done == {}
    ensures IsPartial(m, ops, order) <==> ExtendsClosed(m, ops, done, m.init, order)
  {
    if ExtendsClosed(m, ops, done, m.init, order) {
      forall i, b | 0 <= i < |order| && Precedes(ops, b, order[i]) ensures b in order[..i] {
        assert b in done || b in order[..i];
      }
    }
  }

  lemma {:induction false} ExtendsAppend<S, V>(m: Model<S, V>, ops: seq<Operation<V>>, done: set<nat>, s: S,
                                               a: seq<nat>, b: seq<nat>)
    requires InRange(ops, a)
    ensures Extends(m, ops, done, s, a + b) <==>
            Extends(m, ops, done, s, a) && Extends(m, ops, done + Ids(a), Run(m, ops, s, a), b)
    decreases |a|
  {
    if a == [] {
      assert a + b == b;
      assert done + Ids(a) == done;
    } else {
      assert (a + b)[1..] == a[1..] + b;
      ExtendsAppend(m, ops, done + {a[0]}, StepState(m, ops, s, a[0]), a[1..], b);
      assert a == [a[0]] + a[1..];
      assert done + {a[0]} + Ids(a[1..]) == done + Ids(a);
    }
  }

  // ---------- Independence of representation ----------

  /** Linearizability depends on inputs, outputs and the real-time order alone. */
  lemma {:induction false} LegalSame<S, V>(m: Model<S, V>, ops: seq<Operation<V>>, ops': seq<Operation<V>>, s: S,
                                           order: seq<nat>)
    requires |ops| == |ops'| && InRange(ops, order)
    requires forall i :: 0 <= i < |ops| ==> ops[i].input == ops'[i].input && ops[i].output == ops'[i].output
    ensures Legal(m, ops, s, order) <==> Legal(m, ops', s, order)
    decreases |order|
  {
    if order != [] {
      LegalSame(m, ops, ops', StepState(m, ops, s, order[0]), order[1..]);
    }
  }

  ghost predicate SameOrderAndValues<V>(ops: seq<Operation<V>>, ops': seq<Operation<V>>)
  {
    && |ops| == |ops'|
    && (forall i :: 0 <= i < |ops| ==> ops[i].input == ops'[i].input && ops[i].output == ops'[i].output)
    && (forall a, b :: 0 <= a < |ops| && 0 <= b < |ops| ==> (Precedes(ops, a, b) <==> Precedes(ops', a, b)))
  }

  lemma LinearizableSame<S, V>(m: Model<S, V>, ops: seq<Operation<V>>, ops': seq<Operation<V>>)
    requires SameOrderAndValues(ops, ops')
    ensures Linearizable(m, ops) <==> Linearizable(m, ops')
  {
    forall order | InRange(ops, order)
      ensures IsLinearization(m, ops, order) <==> IsLinearization(m, ops', order)
    {
      LegalSame(m, ops, ops', m.init, order);
    }
  }
}
