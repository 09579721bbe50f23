/** Linearizability from linearization points: if every operation can be given a point so
    that real time is respected and the operations at each point explain how the state
    changes there, the history is linearizable. */
module LinearizationPoints {
  import opened Collections
  import opened Linearizability

  ghost predicate AtPoint(points: seq<nat>, p: nat, id: nat)
  {
    id < |points| && points[id] == p
  }

  /** The operations at p only read: each is allowed in s and leaves it. */
  ghost predicate OnlyReads<S(!new), V>(m: Model<S, V>, ops: seq<Operation<V>>, points: seq<nat>, p: nat, s: S)
    requires |points| == |ops|
  {
    forall id :: AtPoint(points, p, id) ==> StepOk(m, ops, s, id) && StepState(m, ops, s, id) == s
  }

  /** One operation at p leads from s to t. */
  ghost predicate OneStep<S(!new), V>(m: Model<S, V>, ops: seq<Operation<V>>, points: seq<nat>, p: nat, s: S, t: S,
                                      id: nat)
    requires |points| == |ops|
  {
    && AtPoint(points, p, id) && (forall x :: AtPoint(points, p, x) ==> x == id)
    && StepOk(m, ops, s, id) && StepState(m, ops, s, id) == t
  }

  ghost predicate Explains<S(!new), V>(m: Model<S, V>, ops: seq<Operation<V>>, points: seq<nat>, p: nat, s: S, t: S)
    requires |points| == |ops|
  {
    (OnlyReads(m, ops, points, p, s) && s == t) || exists id :: OneStep(m, ops, points, p, s, t, id)
  }

  ghost predicate ExplainedAt<S(!new), V>(m: Model<S, V>, ops: seq<Operation<V>>, points: seq<nat>, states: seq<S>,
                                          p: nat)
    requires |points| == |ops| && p < |states| - 1
  {
    Explains(m, ops, points, p, states[p], states[p + 1])
  }

  /** states[p] is the state before the operations at point p. */
  ghost predicate GoodPoints<S(!new), V>(m: Model<S, V>, ops: seq<Operation<V>>, points: seq<nat>, states: seq<S>)
  {
    && |points| == |ops| && states != [] && states[0] == m.init
    && (forall id :: 0 <= id < |ops| ==> points[id] < |states| - 1)
    && (forall a: nat, b: nat :: Precedes(ops, a, b) ==> points[a] < points[b])
    && (forall p :: 0 <= p < |states| - 1 ==> ExplainedAt(m, ops, points, states, p))
  }

  /** The operations with points below p, in the order of their points. */
  ghost predicate Listed(points: seq<nat>, p: nat, order: seq<nat>)
  {
    && NoDup(order)
    && (forall id: nat :: id in order <==> id < |points| && points[id] < p)
    && (forall i, j :: 0 <= i < j < |order| && order[i] < |points| && order[j] < |points| ==>
          points[order[i]] <= points[order[j]])
  }

  /** A list of the operations with points below p that leads to state s. */
  ghost predicate OrderedTo<S(!new), V>(m: Model<S, V>, ops: seq<Operation<V>>, points: seq<nat>, p: nat, s: S,
                                        order: seq<nat>)
    requires |points| == |ops|
  {
    && Listed(points, p, order) && InRange(ops, order)
    && Legal(m, ops, m.init, order) && Run(m, ops, m.init, order) == s
  }

  /** The operations at one point that only read, as a list. */
  lemma {:induction false} ReadersAt<S(!new), V>(m: Model<S, V>, ops: seq<Operation<V>>, points: seq<nat>, p: nat,
                                                 s: S, n: nat)
    returns (block: seq<nat>)
    requires |points| == |ops| && OnlyReads(m, ops, points, p, s) && n <= |ops|
    ensures NoDup(block) && InRange(ops, block) && forall id: nat :: id in block <==> id < n && points[id] == p
    ensures Legal(m, ops, s, block) && Run(m, ops, s, block) == s
  {
    if n == 0 {
      block := [];
    } else {
      block := ReadersAt(m, ops, points, p, s, n - 1);
      if points[n - 1] == p {
        assert AtPoint(points, p, n - 1);
        LegalAppend(m, ops, s, block, [n - 1]);
        assert [n - 1][1..] == [];
        block := block + [n - 1];
      }
    }
  }

  lemma BlockAt<S(!new), V>(m: Model<S, V>, ops: seq<Operation<V>>, points: seq<nat>, p: nat, s: S, t: S)
    returns (block: seq<nat>)
    requires |points| == |ops| && Explains(m, ops, points, p, s, t)
    ensures NoDup(block) && InRange(ops, block) && forall id: nat :: id in block <==> id < |ops| && points[id] == p
    ensures Legal(m, ops, s, block) && Run(m, ops, s, block) == t
  {
    if OnlyReads(m, ops, points, p, s) && s == t {
      block := ReadersAt(m, ops, points, p, s, |ops|);
    } else {
      var id :| OneStep(m, ops, points, p, s, t, id);
      block := [id];
      assert block[1..] == [];
      assert forall x: nat :: x < |ops| && points[x] == p ==> AtPoint(points, p, x);
    }
  }

  /** The operations at point p come after those below p. */
  lemma ListMore(points: seq<nat>, p: nat, order: seq<nat>, block: seq<nat>)
    requires Listed(points, p, order) && NoDup(block)
    requires forall id: nat :: id in block <==> id < |points| && points[id] == p
    ensures Listed(points, p + 1, order + block)
  {
    var all := order + block;
    forall i, j | 0 <= i < j < |all| ensures all[i] != all[j] {
      assert i < |order| <= j ==> all[i] in order && all[j] in block;
    }
    forall i, j | 0 <= i < j < |all| && all[i] < |points| && all[j] < |points|
      ensures points[all[i]] <= points[all[j]]
    {
      assert i < |order| ==> all[i] in order;
      assert j >= |order| ==> all[j] in block;
      assert i >= |order| ==> all[i] in block;
    }
  }

  lemma ExtendOrder<S(!new), V>(m: Model<S, V>, ops: seq<Operation<V>>, points: seq<nat>, p: nat, s: S, t: S,
                                order: seq<nat>, block: seq<nat>)
    requires |points| == |ops| && OrderedTo(m, ops, points, p, s, order)
    requires NoDup(block) && InRange(ops, block) && forall id: nat :: id in block <==> id < |ops| && points[id] == p
    requires Legal(m, ops, s, block) && Run(m, ops, s, block) == t
    ensures OrderedTo(m, ops, points, p + 1, t, order + block)
  {
    ListMore(points, p, order, block);
    LegalAppend(m, ops, m.init, order, block);
  }

  lemma OrderNext<S(!new), V>(m: Model<S, V>, ops: seq<Operation<V>>, points: seq<nat>, p: nat, s: S, t: S,
                              order: seq<nat>)
    returns (order': seq<nat>)
    requires |points| == |ops| && OrderedTo(m, ops, points, p, s, order) && Explains(m, ops, points, p, s, t)
    ensures OrderedTo(m, ops, points, p + 1, t, order')
  {
    var block := BlockAt(m, ops, points, p, s, t);
    ExtendOrder(m, ops, points, p, s, t, order, block);
    order' := order + block;
  }

  lemma {:induction false} OrderTo<S(!new), V>(m: Model<S, V>, ops: seq<Operation<V>>, points: seq<nat>,
                                               states: seq<S>, p: nat)
    returns (order: seq<nat>)
    requires GoodPoints(m, ops, points, states) && p < |states|
    ensures OrderedTo(m, ops, points, p, states[p], order)
  {
    if p == 0 {
      order := [];
    } else {
      order := OrderTo(m, ops, points, states, p - 1);
      assert ExplainedAt(m, ops, points, states, p - 1);
      order := OrderNext(m, ops, points, p - 1, states[p - 1], states[p], order);
    }
  }

  lemma PointsLinearize<S(!new), V>(m: Model<S, V>, ops: seq<Operation<V>>, points: seq<nat>, states: seq<S>)
    requires GoodPoints(m, ops, points, states)
    ensures Linearizable(m, ops)
  {
    var order := OrderTo(m, ops, points, states, |states| - 1);
    forall x ensures x in Ids(order) <==> x in Below(|ops|) {
      if x in order {
        var i :| 0 <= i < |order| && order[i] == x;
      }
    }
    forall i, j | 0 <= i < j < |order| ensures !Precedes(ops, order[j], order[i]) {
      assert points[order[i]] <= points[order[j]];
    }
    assert IsLinearization(m, ops, order);
  }
}
