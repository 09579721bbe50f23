/** The key-value model, its partition by key, and why checking key by key is enough. */
module KvModel {
  import opened Collections
  import opened Linearizability

  datatype KvValue =
    | KvInput(op: nat, key: string, value: string)   // op: 0 get, 1 put, otherwise append
    | KvOutput(value: string)

  /** One key's value. */
  function Step(st: string, inp: KvValue, out: KvValue): (r: (bool, string))
  {
    if !inp.KvInput? || !out.KvOutput? then (false, st)
    else if inp.op == 0 then (out.value == st, st)
    else if inp.op == 1 then (true, inp.value)
    else (true, st + inp.value)
  }

  function Single(): (m: Model<string, KvValue>)
  {
    Model("", Step, (s, t) => s == t)
  }

  /** Inputs are inputs and outputs are outputs. */
  ghost predicate Typed(ops: seq<Operation<KvValue>>)
  {
    forall i :: 0 <= i < |ops| ==> ops[i].input.KvInput? && ops[i].output.KvOutput?
  }

  // ---------- The store with all its keys ----------

  function Lookup(st: map<string, string>, key: string): (r: string)
  {
    if key in st then st[key] else ""
  }

  function StoreStep(st: map<string, string>, inp: KvValue, out: KvValue): (r: (bool, map<string, string>))
  {
    if !inp.KvInput? then (false, st)
    else
      var (ok, v) := Step(Lookup(st, inp.key), inp, out);
      (ok, if inp.op == 0 then st else st[inp.key := v])
  }

  function Store(): (m: Model<map<string, string>, KvValue>)
  {
    Model(map[], StoreStep, (s, t) => s == t)
  }

  // ---------- Partition ----------

  /** The indices below n of the operations on this key. */
  function Indices(history: seq<Operation<KvValue>>, key: string, n: nat): (r: seq<nat>)
    requires n <= |history| && Typed(history)
    ensures forall i :: 0 <= i < |r| ==> r[i] < n
  {
    if n == 0 then []
    else if history[n - 1].input.key == key then Indices(history, key, n - 1) + [n - 1]
    else Indices(history, key, n - 1)
  }

  lemma {:induction false} IndicesFacts(history: seq<Operation<KvValue>>, key: string, n: nat)
    requires n <= |history| && Typed(history)
    ensures forall x :: x in Indices(history, key, n) <==> 0 <= x < n && history[x].input.key == key
    ensures NoDup(Indices(history, key, n))
  {
    if n > 0 {
      IndicesFacts(history, key, n - 1);
      var q, r := Indices(history, key, n - 1), Indices(history, key, n);
      if history[n - 1].input.key == key {
        assert r == q + [n - 1];
        assert r[|q|] == n - 1;
      }
    }
  }

  /** The first n operations, as far as they are on this key, in the order of the history. */
  function SubTo(history: seq<Operation<KvValue>>, key: string, n: nat): (r: seq<Operation<KvValue>>)
    requires n <= |history| && Typed(history)
    ensures var idx := Indices(history, key, n);
            |r| == |idx| && forall i :: 0 <= i < |r| ==> r[i] == history[idx[i]]
  {
    var idx := Indices(history, key, n);
    seq(|idx|, i requires 0 <= i < |idx| => history[idx[i]])
  }

  /** The operations on this key, in the order of the history. */
  function Sub(history: seq<Operation<KvValue>>, key: string): (r: seq<Operation<KvValue>>)
    requires Typed(history)
  {
    SubTo(history, key, |history|)
  }

  /** Byte-wise order of strings. */
  predicate LexLe(a: string, b: string)
  {
    a == [] || (b != [] && (a[0] < b[0] || (a[0] == b[0] && LexLe(a[1..], b[1..]))))
  }

  /** The strings are the same up to place i, where the first one ends or has the smaller byte. */
  ghost predicate FirstAt(a: string, b: string, i: nat)
  {
    i <= |a| && i <= |b| && a[..i] == b[..i] && (i == |a| || (i < |b| && a[i] < b[i]))
  }

  lemma {:induction false} LexLeIff(a: string, b: string)
    ensures LexLe(a, b) <==> exists i: nat :: FirstAt(a, b, i)
  {
    if a == [] {
      assert FirstAt(a, b, 0);
    } else if b != [] && a[0] < b[0] {
      assert FirstAt(a, b, 0);
    } else if b != [] && a[0] == b[0] {
      LexLeIff(a[1..], b[1..]);
      if i: nat :| FirstAt(a[1..], b[1..], i) {
        assert a[..i + 1] == [a[0]] + a[1..][..i] && b[..i + 1] == [b[0]] + b[1..][..i];
        assert FirstAt(a, b, i + 1);
      }
      if i: nat :| FirstAt(a, b, i) {
        assert a[1..][..i - 1] == a[..i][1..] && b[1..][..i - 1] == b[..i][1..];
        assert FirstAt(a[1..], b[1..], i - 1);
      }
    } else {
      forall i: nat | i > 0 && i <= |a| && i <= |b| ensures a[..i] != b[..i] {
        assert a[..i][0] == a[0] && b[..i][0] == b[0];
      }
    }
  }

  lemma {:induction false} LexTotal(a: string, b: string)
    ensures LexLe(a, b) || LexLe(b, a)
  {
    if a != [] && b != [] && a[0] == b[0] {
      LexTotal(a[1..], b[1..]);
    }
  }

  lemma {:induction false} LexTransitive(a: string, b: string, c: string)
    requires LexLe(a, b) && LexLe(b, c)
    ensures LexLe(a, c)
  {
    if a != [] && b != [] && c != [] && a[0] == b[0] && b[0] == c[0] {
      LexTransitive(a[1..], b[1..], c[1..]);
    }
  }

  lemma LexIsTotalOrder()
    ensures TotalOrder(LexLe)
  {
    forall a, b ensures LexLe(a, b) || LexLe(b, a) {
      LexTotal(a, b);
    }
    forall a, b, c | LexLe(a, b) && LexLe(b, c) ensures LexLe(a, c) {
      LexTransitive(a, b, c);
    }
  }

  /** The keys are those that occur, once each. */
  ghost predicate KeysOf(history: seq<Operation<KvValue>>, keys: seq<string>)
    requires Typed(history)
  {
    && (forall i, j :: 0 <= i < j < |keys| ==> keys[i] != keys[j])
    && (forall x :: 0 <= x < |history| ==> history[x].input.key in keys)
  }

  ghost predicate Occurs(history: seq<Operation<KvValue>>, key: string, n: nat)
    requires n <= |history| && Typed(history)
  {
    exists x :: 0 <= x < n && history[x].input.key == key
  }

  /** The first n operations, grouped by key. */
  ghost predicate Grouped(history: seq<Operation<KvValue>>, n: nat, m: map<string, seq<Operation<KvValue>>>)
    requires n <= |history| && Typed(history)
  {
    && (forall key :: key in m <==> Occurs(history, key, n))
    && (forall key :: key in m ==> m[key] == SubTo(history, key, n))
  }

  lemma SubToStep(history: seq<Operation<KvValue>>, n: nat, key: string)
    requires Typed(history) && n < |history|
    ensures SubTo(history, key, n + 1) ==
      (if history[n].input.key == key then SubTo(history, key, n) + [history[n]] else SubTo(history, key, n))
    ensures !Occurs(history, key, n) ==> SubTo(history, key, n) == []
    ensures Occurs(history, key, n + 1) <==> Occurs(history, key, n) || history[n].input.key == key
  {
    var idx := Indices(history, key, n);
    IndicesFacts(history, key, n);
    if idx != [] {
      assert idx[0] in idx;
    }
  }

  lemma GroupStep(history: seq<Operation<KvValue>>, n: nat, m: map<string, seq<Operation<KvValue>>>)
    requires Typed(history) && n < |history| && Grouped(history, n, m)
    ensures var key := history[n].input.key;
      Grouped(history, n + 1, m[key := (if key in m then m[key] else []) + [history[n]]])
  {
    var key := history[n].input.key;
    var m' := m[key := (if key in m then m[key] else []) + [history[n]]];
    forall k ensures k in m' <==> Occurs(history, k, n + 1) {
      SubToStep(history, n, k);
    }
    forall k | k in m' ensures m'[k] == SubTo(history, k, n + 1) {
      SubToStep(history, n, k);
    }
  }

  /** ret[i] is the sub-history of keys[i]; the keys are those that occur, in order. */
  ghost predicate SubsOf(history: seq<Operation<KvValue>>, keys: seq<string>, ret: seq<seq<Operation<KvValue>>>)
    requires Typed(history)
  {
    && KeysOf(history, keys) && Ordered(LexLe, keys) && (forall key :: key in keys ==> Occurs(history, key, |history|))
    && |ret| == |keys| && forall i :: 0 <= i < |ret| ==> ret[i] == Sub(history, keys[i])
  }

  ghost predicate IsPartition(history: seq<Operation<KvValue>>, ret: seq<seq<Operation<KvValue>>>)
    requires Typed(history)
  {
    exists keys :: SubsOf(history, keys, ret)
  }

  lemma GroupsArePartition(history: seq<Operation<KvValue>>, m: map<string, seq<Operation<KvValue>>>,
                           keys: seq<string>, ret: seq<seq<Operation<KvValue>>>)
    requires Typed(history) && Grouped(history, |history|, m)
    requires Ordered(LexLe, keys) && Lists(keys, m.Keys)
    requires |ret| == |keys| && forall i :: 0 <= i < |ret| ==> keys[i] in m && ret[i] == m[keys[i]]
    ensures IsPartition(history, ret)
  {
    forall x | 0 <= x < |history| ensures history[x].input.key in keys {
      assert Occurs(history, history[x].input.key, |history|);
    }
    assert SubsOf(history, keys, ret);
  }

  /** One sub-history per key that occurs, the keys in order. */
  method Partition(history: seq<Operation<KvValue>>) returns (ret: seq<seq<Operation<KvValue>>>)
    requires Typed(history)
    ensures IsPartition(history, ret)
    ensures WellTimed(history) ==>
      (Linearizable(Store(), history) <==> forall i :: 0 <= i < |ret| ==> Linearizable(Single(), ret[i]))
  {
    var m: map<string, seq<Operation<KvValue>>> := map[];
    for n := 0 to |history|
      invariant Grouped(history, n, m)
    {
      var key := history[n].input.key;
      GroupStep(history, n, m);
      m := m[key := (if key in m then m[key] else []) + [history[n]]];
    }
    LexIsTotalOrder();
    var keys := SortSet(m.Keys, LexLe);
    ret := [];
    for i := 0 to |keys|
      invariant |ret| == i
      invariant forall j :: 0 <= j < i ==> keys[j] in m && ret[j] == m[keys[j]]
    {
      assert keys[i] in m;
      ret := ret + [m[keys[i]]];
    }
    GroupsArePartition(history, m, keys, ret);
    if WellTimed(history) {
      PartitionContract(history, ret);
    }
  }

  // ---------- Two orders of the same operations ----------

  ghost predicate SameOps<V>(ops: seq<Operation<V>>, order: seq<nat>, ops': seq<Operation<V>>, order': seq<nat>)
  {
    && InRange(ops, order) && InRange(ops', order') && |order| == |order'|
    && forall i :: 0 <= i < |order| ==> ops[order[i]] == ops'[order'[i]]
  }

  lemma {:induction false} SameLegal<S, V>(m: Model<S, V>, ops: seq<Operation<V>>, order: seq<nat>,
                                           ops': seq<Operation<V>>, order': seq<nat>, s: S)
    requires SameOps(ops, order, ops', order')
    ensures Legal(m, ops, s, order) <==> Legal(m, ops', s, order')
    decreases |order|
  {
    if order != [] {
      SameLegal(m, ops, order[1..], ops', order'[1..], StepState(m, ops, s, order[0]));
    }
  }

  lemma SameRealTime<V>(ops: seq<Operation<V>>, order: seq<nat>, ops': seq<Operation<V>>, order': seq<nat>)
    requires SameOps(ops, order, ops', order')
    ensures RespectsRealTime(ops, order) <==> RespectsRealTime(ops', order')
  {
    forall i, j | 0 <= i < j < |order|
      ensures Precedes(ops, order[j], order[i]) <==> Precedes(ops', order'[j], order'[i])
    {
    }
  }

  // ---------- From the whole history to one key ----------

  /** The operations of the order that are on this key. */
  ghost function Project(history: seq<Operation<KvValue>>, order: seq<nat>, key: string): (r: seq<nat>)
    requires Typed(history) && InRange(history, order)
    ensures InRange(history, r)
  {
    if order == [] then []
    else (if history[order[0]].input.key == key then [order[0]] else []) + Project(history, order[1..], key)
  }

  lemma {:induction false} ProjectIn(history: seq<Operation<KvValue>>, order: seq<nat>, key: string)
    requires Typed(history) && InRange(history, order)
    ensures forall x :: x in Project(history, order, key) <==> x in order && history[x].input.key == key
    decreases |order|
  {
    if order != [] {
      ProjectIn(history, order[1..], key);
    }
  }

  lemma {:induction false} ProjectLegal(history: seq<Operation<KvValue>>, st: map<string, string>, order: seq<nat>,
                                        key: string)
    requires Typed(history) && InRange(history, order) && Legal(Store(), history, st, order)
    ensures Legal(Single(), history, Lookup(st, key), Project(history, order, key))
    decreases |order|
  {
    if order != [] {
      var st' := StepState(Store(), history, st, order[0]);
      StoreStepFacts(history, st, order[0], key);
      ProjectLegal(history, st', order[1..], key);
      var p, q := Project(history, order, key), Project(history, order[1..], key);
      if history[order[0]].input.key == key {
        assert p == [order[0]] + q && p[1..] == q;
      } else {
        assert p == q;
      }
    }
  }

  /** A step of the store is a step of the one key it is about. */
  lemma StoreStepFacts(history: seq<Operation<KvValue>>, st: map<string, string>, a: nat, key: string)
    requires Typed(history) && a < |history|
    ensures var st' := StepState(Store(), history, st, a);
      if history[a].input.key == key then
        && (StepOk(Store(), history, st, a) <==> StepOk(Single(), history, Lookup(st, key), a))
        && Lookup(st', key) == StepState(Single(), history, Lookup(st, key), a)
      else Lookup(st', key) == Lookup(st, key)
  {
  }

  lemma {:induction false} ProjectOrdered(history: seq<Operation<KvValue>>, order: seq<nat>, key: string)
    requires Typed(history) && InRange(history, order) && NoDup(order) && RespectsRealTime(history, order)
    ensures NoDup(Project(history, order, key)) && RespectsRealTime(history, Project(history, order, key))
    decreases |order|
  {
    if order != [] {
      var tail := order[1..];
      ProjectOrdered(history, tail, key);
      ProjectIn(history, tail, key);
      var p, q := Project(history, order, key), Project(history, tail, key);
      if history[order[0]].input.key == key {
        assert p == [order[0]] + q;
        forall j | 0 <= j < |q| ensures q[j] != order[0] && !Precedes(history, q[j], order[0]) {
          assert q[j] in tail;
          var k :| 0 <= k < |tail| && tail[k] == q[j];
          assert order[k + 1] == q[j];
        }
        forall i, j | 0 <= i < j < |p| ensures p[i] != p[j] && !Precedes(history, p[j], p[i]) {
          assert p[j] == q[j - 1];
          if i > 0 {
            assert p[i] == q[i - 1];
          }
        }
      } else {
        assert p == q;
      }
    }
  }

  /** The position of x in a list that contains it. */
  ghost function IndexOf(xs: seq<nat>, x: nat): (r: nat)
    requires x in xs
    ensures r < |xs| && xs[r] == x
  {
    var i :| 0 <= i < |xs| && xs[i] == x; i
  }

  /** The positions in idx of the members of p. */
  ghost function Localize(idx: seq<nat>, p: seq<nat>): (r: seq<nat>)
    requires forall i :: 0 <= i < |p| ==> p[i] in idx
    ensures |r| == |p| && forall i :: 0 <= i < |p| ==> r[i] < |idx| && idx[r[i]] == p[i]
  {
    seq(|p|, i requires 0 <= i < |p| => IndexOf(idx, p[i]))
  }

  lemma LocalizePermutes(idx: seq<nat>, p: seq<nat>)
    requires forall i :: 0 <= i < |p| ==> p[i] in idx
    requires NoDup(idx) && NoDup(p) && Ids(idx) <= Ids(p)
    ensures IsPermutation(Localize(idx, p), |idx|)
  {
    var local := Localize(idx, p);
    forall i, j | 0 <= i < j < |local| ensures local[i] != local[j] {
      assert p[i] != p[j];
    }
    forall x: nat ensures x in Ids(local) <==> x in Below(|idx|) {
      if x < |idx| {
        assert idx[x] in Ids(idx) && idx[x] in Ids(p);
        var i :| 0 <= i < |p| && p[i] == idx[x];
        assert idx[local[i]] == idx[x];
        assert local[i] == x;
      }
    }
  }

  lemma ProjectMembers(history: seq<Operation<KvValue>>, order: seq<nat>, key: string)
    requires Typed(history) && IsPermutation(order, |history|) && InRange(history, order)
    ensures var idx, p := Indices(history, key, |history|), Project(history, order, key);
      NoDup(idx) && Ids(idx) <= Ids(p) && (forall i :: 0 <= i < |p| ==> p[i] in idx)
  {
    var idx, p := Indices(history, key, |history|), Project(history, order, key);
    IndicesFacts(history, key, |history|);
    ProjectIn(history, order, key);
    forall x | x in Ids(idx) ensures x in Ids(p) {
      assert x in Below(|history|) && x in Ids(order);
      assert x in p;
    }
    forall i | 0 <= i < |p| ensures p[i] in idx {
      assert p[i] in p;
    }
  }

  /** A linearization of the whole history, restricted to one key, is one of that key. */
  lemma KeyLinearizable(history: seq<Operation<KvValue>>, order: seq<nat>, key: string)
    requires Typed(history) && IsLinearization(Store(), history, order)
    ensures Linearizable(Single(), Sub(history, key))
  {
    var idx, sub, p := Indices(history, key, |history|), Sub(history, key), Project(history, order, key);
    ProjectLegal(history, map[], order, key);
    ProjectOrdered(history, order, key);
    ProjectMembers(history, order, key);
    var local := Localize(idx, p);
    LocalizePermutes(idx, p);
    assert SameOps(history, p, sub, local);
    SameLegal(Single(), history, p, sub, local, "");
    SameRealTime(history, p, sub, local);
    assert IsLinearization(Single(), sub, local);
  }

  // ---------- From the keys to the whole history ----------

  ghost function All(rem: seq<seq<nat>>): (r: set<nat>)
    ensures forall x :: x in r <==> exists i :: 0 <= i < |rem| && x in rem[i]
  {
    set i, x | 0 <= i < |rem| && x in rem[i] :: x
  }

  ghost predicate KeyOrder(history: seq<Operation<KvValue>>, st: map<string, string>, key: string, order: seq<nat>)
    requires Typed(history)
  {
    && InRange(history, order) && NoDup(order) && RespectsRealTime(history, order)
    && Legal(Single(), history, Lookup(st, key), order)
    && forall i :: 0 <= i < |order| ==> history[order[i]].input.key == key
  }

  ghost predicate Mergeable(history: seq<Operation<KvValue>>, st: map<string, string>, keys: seq<string>,
                            rem: seq<seq<nat>>)
    requires Typed(history)
  {
    && |keys| == |rem|
    && (forall i, j :: 0 <= i < j < |keys| ==> keys[i] != keys[j])
    && (forall i :: 0 <= i < |keys| ==> KeyOrder(history, st, keys[i], rem[i]))
  }

  lemma {:induction false} EarliestReturn(history: seq<Operation<KvValue>>, s: set<nat>) returns (b: nat)
    requires s != {} && forall x :: x in s ==> x < |history|
    ensures b in s && forall x :: x in s ==> history[b].ret <= history[x].ret
    decreases |s|
  {
    b :| b in s;
    if s != {b} {
      var rest := s - {b};
      var c := EarliestReturn(history, rest);
      if history[c].ret < history[b].ret {
        b := c;
      }
    }
  }

  /** The operation to go next: the first of the list that holds the earliest return. */
  lemma NextToMerge(history: seq<Operation<KvValue>>, st: map<string, string>, keys: seq<string>, rem: seq<seq<nat>>)
    returns (i: nat)
    requires Typed(history) && WellTimed(history) && Mergeable(history, st, keys, rem) && All(rem) != {}
    ensures i < |rem| && rem[i] != []
    ensures forall x :: x in All(rem) ==> !Precedes(history, x, rem[i][0])
  {
    assert forall x :: x in All(rem) ==> x < |history|;
    var b := EarliestReturn(history, All(rem));
    i :| 0 <= i < |rem| && b in rem[i];
    var k :| 0 <= k < |rem[i]| && rem[i][k] == b;
    assert KeyOrder(history, st, keys[i], rem[i]);
    assert !Precedes(history, b, rem[i][0]);
  }

  lemma KeyOrderTail(history: seq<Operation<KvValue>>, st: map<string, string>, key: string, order: seq<nat>)
    requires Typed(history) && KeyOrder(history, st, key, order) && order != []
    ensures order[0] < |history| && StepOk(Store(), history, st, order[0]) && order[0] !in order[1..]
    ensures KeyOrder(history, StepState(Store(), history, st, order[0]), key, order[1..])
  {
    StoreStepFacts(history, st, order[0], key);
  }

  lemma KeyOrderOther(history: seq<Operation<KvValue>>, st: map<string, string>, key: string, order: seq<nat>, a: nat)
    requires Typed(history) && KeyOrder(history, st, key, order) && a < |history| && history[a].input.key != key
    ensures a !in order
    ensures KeyOrder(history, StepState(Store(), history, st, a), key, order)
  {
    StoreStepFacts(history, st, a, key);
  }

  lemma MergeStep(history: seq<Operation<KvValue>>, st: map<string, string>, keys: seq<string>, rem: seq<seq<nat>>,
                  i: nat)
    requires Typed(history) && Mergeable(history, st, keys, rem) && i < |rem| && rem[i] != []
    ensures rem[i][0] < |history| && StepOk(Store(), history, st, rem[i][0])
    ensures Mergeable(history, StepState(Store(), history, st, rem[i][0]), keys, rem[i := rem[i][1..]])
    ensures All(rem[i := rem[i][1..]]) == All(rem) - {rem[i][0]}
  {
    var a, rem' := rem[i][0], rem[i := rem[i][1..]];
    KeyOrderTail(history, st, keys[i], rem[i]);
    var st' := StepState(Store(), history, st, a);
    forall j | 0 <= j < |keys| ensures KeyOrder(history, st', keys[j], rem'[j]) && (j != i ==> a !in rem[j]) {
      if j != i {
        assert KeyOrder(history, st, keys[j], rem[j]) && keys[j] != keys[i];
        KeyOrderOther(history, st, keys[j], rem[j], a);
      }
    }
    AllWithout(rem, i);
  }

  lemma AllWithout(rem: seq<seq<nat>>, i: nat)
    requires i < |rem| && rem[i] != [] && rem[i][0] !in rem[i][1..]
    requires forall j :: 0 <= j < |rem| && j != i ==> rem[i][0] !in rem[j]
    ensures All(rem[i := rem[i][1..]]) == All(rem) - {rem[i][0]}
  {
    var a, rem' := rem[i][0], rem[i := rem[i][1..]];
    forall x ensures x in All(rem') <==> x in All(rem) && x != a {
      if x in All(rem) && x != a {
        var j :| 0 <= j < |rem| && x in rem[j];
        assert x in rem'[j];
      }
      if x in All(rem') {
        var j :| 0 <= j < |rem'| && x in rem'[j];
        assert x in rem[j];
      }
    }
  }

  ghost predicate Merged(history: seq<Operation<KvValue>>, st: map<string, string>, members: set<nat>, order: seq<nat>)
  {
    && NoDup(order) && Ids(order) == members && InRange(history, order)
    && RespectsRealTime(history, order) && Legal(Store(), history, st, order)
  }

  lemma MergedCons(history: seq<Operation<KvValue>>, st: map<string, string>, members: set<nat>, a: nat, rest: seq<nat>)
    requires a < |history| && a in members && StepOk(Store(), history, st, a)
    requires forall x :: x in members ==> !Precedes(history, x, a)
    requires Merged(history, StepState(Store(), history, st, a), members - {a}, rest)
    ensures Merged(history, st, members, [a] + rest)
  {
    IdsAppend([a], rest);
    assert Ids([a]) == {a};
    MergeOrdered(history, a, rest);
    assert ([a] + rest)[1..] == rest;
  }

  /** Orders for the separate keys can be merged into an order for the store. */
  lemma {:induction false} Merge(history: seq<Operation<KvValue>>, st: map<string, string>, keys: seq<string>,
                                 rem: seq<seq<nat>>)
    returns (order: seq<nat>)
    requires Typed(history) && WellTimed(history) && Mergeable(history, st, keys, rem)
    ensures Merged(history, st, All(rem), order)
    decreases |All(rem)|
  {
    if All(rem) == {} {
      order := [];
    } else {
      var i := NextToMerge(history, st, keys, rem);
      var a := rem[i][0];
      MergeStep(history, st, keys, rem, i);
      assert a in rem[i];
      order := Merge(history, StepState(Store(), history, st, a), keys, rem[i := rem[i][1..]]);
      MergedCons(history, st, All(rem), a, order);
      order := [a] + order;
    }
  }

  lemma MergeOrdered(history: seq<Operation<KvValue>>, a: nat, rest: seq<nat>)
    requires NoDup(rest) && RespectsRealTime(history, rest) && InRange(history, rest) && a < |history|
    requires a !in Ids(rest) && forall x :: x in Ids(rest) ==> !Precedes(history, x, a)
    ensures var order := [a] + rest; NoDup(order) && RespectsRealTime(history, order) && InRange(history, order)
  {
    var order := [a] + rest;
    forall i, j | 0 <= i < j < |order| ensures order[i] != order[j] && !Precedes(history, order[j], order[i]) {
      assert order[j] == rest[j - 1] && order[j] in Ids(rest);
      if i > 0 {
        assert order[i] == rest[i - 1];
      }
    }
  }

  /** An order of one key's operations, as an order of operations of the whole history. */
  ghost function Globalize(history: seq<Operation<KvValue>>, key: string, local: seq<nat>): (r: seq<nat>)
    requires Typed(history) && InRange(Sub(history, key), local)
    ensures |r| == |local| && forall i :: 0 <= i < |r| ==> r[i] == Indices(history, key, |history|)[local[i]]
  {
    seq(|local|, i requires 0 <= i < |local| => Indices(history, key, |history|)[local[i]])
  }

  lemma GlobalizeCovers(history: seq<Operation<KvValue>>, key: string, local: seq<nat>, x: nat)
    requires Typed(history) && IsPermutation(local, |Sub(history, key)|) && InRange(Sub(history, key), local)
    requires x < |history| && history[x].input.key == key
    ensures x in Globalize(history, key, local)
  {
    IndicesFacts(history, key, |history|);
    var k := IndexOf(Indices(history, key, |history|), x);
    assert k in Below(|Sub(history, key)|) && k in Ids(local);
    assert Globalize(history, key, local)[IndexOf(local, k)] == x;
  }

  lemma GlobalizeNoDup(history: seq<Operation<KvValue>>, key: string, local: seq<nat>)
    requires Typed(history) && NoDup(local) && InRange(Sub(history, key), local)
    ensures NoDup(Globalize(history, key, local))
  {
    var idx := Indices(history, key, |history|);
    IndicesFacts(history, key, |history|);
    forall i, j | 0 <= i < j < |local| ensures idx[local[i]] != idx[local[j]] {
      assert local[i] != local[j];
    }
  }

  lemma GlobalizeKeyOrder(history: seq<Operation<KvValue>>, key: string, local: seq<nat>)
    requires Typed(history) && IsLinearization(Single(), Sub(history, key), local)
    ensures KeyOrder(history, map[], key, Globalize(history, key, local))
  {
    var sub, g := Sub(history, key), Globalize(history, key, local);
    IndicesFacts(history, key, |history|);
    assert SameOps(history, g, sub, local);
    SameLegal(Single(), history, g, sub, local, "");
    SameRealTime(history, g, sub, local);
    GlobalizeNoDup(history, key, local);
  }

  /** g is a linearization of one key's operations, in terms of the whole history. */
  ghost predicate CollectedAt(history: seq<Operation<KvValue>>, key: string, g: seq<nat>)
    requires Typed(history)
  {
    && KeyOrder(history, map[], key, g)
    && (forall x: nat :: x < |history| && history[x].input.key == key ==> x in g)
  }

  /** The operations on this key are linearizable for the model of one key. */
  ghost predicate KeyIsLinearizable(history: seq<Operation<KvValue>>, key: string)
    requires Typed(history)
  {
    Linearizable(Single(), Sub(history, key))
  }

  lemma HasKeyOrder(history: seq<Operation<KvValue>>, key: string)
    requires Typed(history) && KeyIsLinearizable(history, key)
    ensures exists g :: CollectedAt(history, key, g)
  {
    var local :| IsLinearization(Single(), Sub(history, key), local);
    GlobalizeKeyOrder(history, key, local);
    var g := Globalize(history, key, local);
    forall x: nat | x < |history| && history[x].input.key == key ensures x in g {
      GlobalizeCovers(history, key, local, x);
    }
    assert CollectedAt(history, key, g);
  }

  ghost function OrderFor(history: seq<Operation<KvValue>>, key: string): (g: seq<nat>)
    requires Typed(history) && KeyIsLinearizable(history, key)
    ensures CollectedAt(history, key, g)
  {
    HasKeyOrder(history, key);
    var g :| CollectedAt(history, key, g); g
  }

  lemma AllIsRange(history: seq<Operation<KvValue>>, keys: seq<string>, rem: seq<seq<nat>>)
    requires Typed(history) && KeysOf(history, keys) && |rem| == |keys|
    requires forall i :: 0 <= i < |keys| ==> CollectedAt(history, keys[i], rem[i])
    ensures All(rem) == Below(|history|)
  {
    forall x: nat | x < |history| ensures x in All(rem) {
      assert history[x].input.key in keys;
      var i :| 0 <= i < |keys| && keys[i] == history[x].input.key;
      assert CollectedAt(history, keys[i], rem[i]);
      assert x in rem[i];
    }
    forall x | x in All(rem) ensures x < |history| {
      var i :| 0 <= i < |rem| && x in rem[i];
      assert CollectedAt(history, keys[i], rem[i]);
    }
  }

  lemma StoreLinearizable(history: seq<Operation<KvValue>>, keys: seq<string>)
    requires Typed(history) && WellTimed(history) && KeysOf(history, keys)
    requires forall i :: 0 <= i < |keys| ==> KeyIsLinearizable(history, keys[i])
    ensures Linearizable(Store(), history)
  {
    var rem := seq(|keys|, i requires 0 <= i < |keys| => OrderFor(history, keys[i]));
    AllIsRange(history, keys, rem);
    forall i | 0 <= i < |keys| ensures KeyOrder(history, map[], keys[i], rem[i]) {
      assert CollectedAt(history, keys[i], rem[i]);
    }
    var order := Merge(history, map[], keys, rem);
    assert IsLinearization(Store(), history, order);
  }

  /** Locality: a history is linearizable for the store if and only if its operations on
      each key are linearizable for the model of one key. */
  lemma Locality(history: seq<Operation<KvValue>>, keys: seq<string>)
    requires Typed(history) && WellTimed(history) && KeysOf(history, keys)
    ensures Linearizable(Store(), history) <==>
            forall i :: 0 <= i < |keys| ==> KeyIsLinearizable(history, keys[i])
  {
    if Linearizable(Store(), history) {
      var order :| IsLinearization(Store(), history, order);
      forall i | 0 <= i < |keys| ensures KeyIsLinearizable(history, keys[i]) {
        KeyLinearizable(history, order, keys[i]);
      }
    }
    if forall i :: 0 <= i < |keys| ==> KeyIsLinearizable(history, keys[i]) {
      StoreLinearizable(history, keys);
    }
  }

  /** The contract of the partition function: the history is linearizable if and only if every
      one of its parts is. */
  lemma PartitionContract(history: seq<Operation<KvValue>>, ret: seq<seq<Operation<KvValue>>>)
    requires Typed(history) && WellTimed(history) && IsPartition(history, ret)
    ensures Linearizable(Store(), history) <==> forall i :: 0 <= i < |ret| ==> Linearizable(Single(), ret[i])
  {
    var keys :| SubsOf(history, keys, ret);
    Locality(history, keys);
    assert forall i :: 0 <= i < |keys| ==> (KeyIsLinearizable(history, keys[i]) <==> Linearizable(Single(), ret[i]));
  }
}
