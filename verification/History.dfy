/** The checker's input: a time-ordered list of call and return entries, and the ways to
    build it from operations or events. */
module History {
  import opened Collections
  import opened Linearizability

  datatype EntryKind = CallEntry | ReturnEntry

  datatype Entry<V> = Entry(kind: EntryKind, value: V, id: nat, time: int, clientId: int)

  // ---------- Well-formed histories ----------

  ghost predicate IsAt<V>(h: seq<Entry<V>>, kind: EntryKind, id: nat, i: int)
  {
    0 <= i < |h| && h[i].kind == kind && h[i].id == id
  }

  /** Where the entry of this kind and id is (-1 if there is none). */
  ghost function Pos<V>(h: seq<Entry<V>>, kind: EntryKind, id: nat): (r: int)
    ensures r == -1 || IsAt(h, kind, id, r)
    ensures r == -1 ==> forall i :: !IsAt(h, kind, id, i)
  {
    if exists i :: IsAt(h, kind, id, i) then var i :| IsAt(h, kind, id, i); i else -1
  }

  ghost predicate Paired<V>(h: seq<Entry<V>>, id: nat)
  {
    0 <= Pos(h, CallEntry, id) < Pos(h, ReturnEntry, id)
  }

  /** Entry i belongs to one of the operations and is the only one of its kind for it. */
  ghost predicate EntryOk<V>(h: seq<Entry<V>>, i: nat)
    requires i < |h|
  {
    h[i].id < |h| / 2 && Pos(h, h[i].kind, h[i].id) == i
  }

  /** The ids are 0..n-1; each has exactly one call, and after it exactly one return. */
  ghost predicate WellFormed<V>(h: seq<Entry<V>>)
  {
    && |h| % 2 == 0
    && (forall i {:trigger EntryOk(h, i)} :: 0 <= i < |h| ==> EntryOk(h, i))
    && (forall id: nat {:trigger Paired(h, id)} :: id < |h| / 2 ==> Paired(h, id))
  }

  ghost function OpAt<V>(h: seq<Entry<V>>, id: nat): (r: Operation<V>)
    requires Paired(h, id)
  {
    var c, r := Pos(h, CallEntry, id), Pos(h, ReturnEntry, id);
    Operation(h[c].clientId, h[c].value, c, h[r].value, r)
  }

  /** The operations of a well-formed history; positions serve as times. */
  ghost function OpsOf<V>(h: seq<Entry<V>>): (r: seq<Operation<V>>)
    requires WellFormed(h)
    ensures |r| == |h| / 2
    ensures forall id :: 0 <= id < |r| ==> Paired(h, id) && r[id] == OpAt(h, id)
  {
    seq(|h| / 2, id requires 0 <= id < |h| / 2 => assert Paired(h, id); OpAt(h, id))
  }

  // ---------- From operations ----------

  ghost predicate Permutes(perm: seq<nat>, k: nat)
  {
    |perm| == k && NoDup(perm) && forall i :: 0 <= i < k ==> perm[i] < k
  }

  ghost predicate Follows<V>(entries: seq<Entry<V>>, r: seq<Entry<V>>, perm: seq<nat>)
  {
    |r| == |perm| && forall i :: 0 <= i < |perm| ==> perm[i] < |entries| && r[i] == entries[perm[i]]
  }

  ghost predicate InOrder<V>(r: seq<Entry<V>>)
  {
    forall i, j :: 0 <= i < j < |r| ==> r[i].time <= r[j].time
  }

  /** r is a time-ordered arrangement, described by perm, of the first k entries. */
  ghost predicate Arranged<V>(entries: seq<Entry<V>>, k: nat, r: seq<Entry<V>>, perm: seq<nat>)
  {
    k <= |entries| && Permutes(perm, k) && Follows(entries, r, perm) && InOrder(r)
  }

  lemma PermutesInsert(perm: seq<nat>, k: nat, p: nat)
    requires Permutes(perm, k) && p <= k
    ensures Permutes(perm[..p] + [k] + perm[p..], k + 1)
  {
    var perm' := perm[..p] + [k] + perm[p..];
    assert forall i :: 0 <= i <= k ==> perm'[i] == if i < p then perm[i] else if i == p then k else perm[i - 1];
  }

  lemma FollowsInsert<V>(entries: seq<Entry<V>>, r: seq<Entry<V>>, perm: seq<nat>, k: nat, p: nat)
    requires Follows(entries, r, perm) && k < |entries| && p <= |perm|
    ensures Follows(entries, r[..p] + [entries[k]] + r[p..], perm[..p] + [k] + perm[p..])
  {
  }

  /** The entries before p are no later than e, those from p on no earlier. */
  ghost predicate FitsAt<V>(r: seq<Entry<V>>, e: Entry<V>, p: nat)
  {
    && p <= |r|
    && (forall i :: 0 <= i < p ==> r[i].time <= e.time)
    && (forall i :: p <= i < |r| ==> e.time <= r[i].time)
  }

  lemma InOrderInsert<V>(r: seq<Entry<V>>, e: Entry<V>, p: nat)
    requires InOrder(r) && FitsAt(r, e, p)
    ensures InOrder(r[..p] + [e] + r[p..])
  {
  }

  /** The place for e behind all that is no later. */
  method PlaceFor<V>(r: seq<Entry<V>>, e: Entry<V>) returns (p: nat)
    requires InOrder(r)
    ensures FitsAt(r, e, p)
  {
    p := |r|;
    while p > 0 && r[p - 1].time > e.time
      invariant 0 <= p <= |r|
      invariant forall i :: p <= i < |r| ==> r[i].time > e.time
    {
      p := p - 1;
    }
  }

  /** Sorting by time.  The order of entries with equal times is not promised. */
  method SortByTime<V>(entries: seq<Entry<V>>) returns (r: seq<Entry<V>>, ghost perm: seq<nat>)
    ensures Arranged(entries, |entries|, r, perm)
  {
    r, perm := [], [];
    for k := 0 to |entries|
      invariant Arranged(entries, k, r, perm)
    {
      var p := PlaceFor(r, entries[k]);
      PermutesInsert(perm, k, p);
      FollowsInsert(entries, r, perm, k, p);
      InOrderInsert(r, entries[k], p);
      r := r[..p] + [entries[k]] + r[p..];
      perm := perm[..p] + [k] + perm[p..];
    }
  }

  /** The i-th entry in the order the entries are generated: operation by operation, the
      call and then the return. */
  function RawAt<V>(history: seq<Operation<V>>, i: nat): (r: Entry<V>)
    requires i < 2 * |history|
  {
    var op := history[i / 2];
    if i % 2 == 0 then Entry(CallEntry, op.input, i / 2, op.call, op.clientId)
    else Entry(ReturnEntry, op.output, i / 2, op.ret, op.clientId)
  }

  function RawEntries<V>(history: seq<Operation<V>>): (r: seq<Entry<V>>)
    ensures |r| == 2 * |history|
    ensures forall i :: 0 <= i < |r| ==> r[i] == RawAt(history, i)
  {
    seq(2 * |history|, i requires 0 <= i < 2 * |history| => RawAt(history, i))
  }

  /** Every call is before its return, and no call happens at the time of another return.
      (Two calls or two returns may share a time: their order does not matter.) */
  ghost predicate Untied<V>(history: seq<Operation<V>>)
  {
    && (forall i :: 0 <= i < |history| ==> history[i].call < history[i].ret)
    && (forall i, j :: 0 <= i < |history| && 0 <= j < |history| ==> history[i].call != history[j].ret)
  }

  /** The entries are well formed and stand for the operations. */
  ghost predicate StandsFor<V>(h: seq<Entry<V>>, history: seq<Operation<V>>)
  {
    WellFormed(h) && SameOrderAndValues(history, OpsOf(h))
  }

  method MakeEntries<V>(history: seq<Operation<V>>) returns (entries: seq<Entry<V>>)
    ensures Untied(history) ==> StandsFor(entries, history)
  {
    var raw: seq<Entry<V>> := [];
    var id := 0;
    for k := 0 to |history|
      invariant id == k
      invariant raw == RawEntries(history)[..2 * k]
    {
      var elem := history[k];
      raw := raw + [Entry(CallEntry, elem.input, id, elem.call, elem.clientId)];
      raw := raw + [Entry(ReturnEntry, elem.output, id, elem.ret, elem.clientId)];
      id := id + 1;
    }
    ghost var perm;
    entries, perm := SortByTime(raw);
    if Untied(history) {
      assert raw == RawEntries(history);
      SortedIsWellFormed(history, entries, perm);
    }
  }

  /** Where the sort put the raw entry k. */
  lemma Located<V>(history: seq<Operation<V>>, h: seq<Entry<V>>, perm: seq<nat>, k: nat) returns (i: nat)
    requires Arranged(RawEntries(history), 2 * |history|, h, perm) && k < 2 * |history|
    ensures i < |h| && perm[i] == k && h[i] == RawAt(history, k)
    ensures Pos(h, h[i].kind, h[i].id) == i
  {
    assert Ids(perm) <= Below(|perm|) by {
      forall x | x in Ids(perm) ensures x in Below(|perm|) { }
    }
    Pigeonhole(perm, |perm|);
    assert k in Ids(perm);
    i :| 0 <= i < |perm| && perm[i] == k;
    assert IsAt(h, h[i].kind, h[i].id, i);
    LocatedOnce(history, h, perm, i, Pos(h, h[i].kind, h[i].id));
  }

  lemma LocatedOnce<V>(history: seq<Operation<V>>, h: seq<Entry<V>>, perm: seq<nat>, i: nat, p: nat)
    requires Arranged(RawEntries(history), 2 * |history|, h, perm) && i < |h| && p < |h|
    requires h[i].kind == h[p].kind && h[i].id == h[p].id
    ensures i == p
  {
    assert h[i] == RawAt(history, perm[i]) && h[p] == RawAt(history, perm[p]);
    assert perm[p] / 2 == perm[i] / 2 && perm[p] % 2 == perm[i] % 2;
    assert perm[p] == perm[i];
  }

  ghost predicate SameOp<V>(history: seq<Operation<V>>, h: seq<Entry<V>>, id: nat)
    requires id < |history|
  {
    && Paired(h, id)
    && var op, op' := history[id], OpAt(h, id);
       && op.input == op'.input && op.output == op'.output
       && op.call == h[op'.call].time && op.ret == h[op'.ret].time
  }

  lemma SortedPair<V>(history: seq<Operation<V>>, h: seq<Entry<V>>, perm: seq<nat>, id: nat)
    requires Arranged(RawEntries(history), 2 * |history|, h, perm) && id < |history|
    requires history[id].call < history[id].ret
    ensures SameOp(history, h, id)
  {
    var c := Located(history, h, perm, 2 * id);
    var r := Located(history, h, perm, 2 * id + 1);
    assert (2 * id) / 2 == id && (2 * id + 1) / 2 == id;
    assert c < r;
  }

  /** A return and a call are in the order of their times. */
  lemma SortedTimes<V>(history: seq<Operation<V>>, h: seq<Entry<V>>, a: nat, b: nat)
    requires Untied(history) && InOrder(h) && a < |history| && b < |history|
    requires SameOp(history, h, a) && SameOp(history, h, b)
    ensures Precedes(history, a, b) <==> OpAt(h, a).ret < OpAt(h, b).call
  {
    var i, j := OpAt(h, a).ret, OpAt(h, b).call;
    assert h[i].time == history[a].ret && h[j].time == history[b].call;
  }

  lemma SortedIsWellFormed<V>(history: seq<Operation<V>>, h: seq<Entry<V>>, perm: seq<nat>)
    requires Untied(history) && Arranged(RawEntries(history), 2 * |history|, h, perm)
    ensures WellFormed(h) && SameOrderAndValues(history, OpsOf(h))
  {
    forall i | 0 <= i < |h| ensures EntryOk(h, i) {
      var i' := Located(history, h, perm, perm[i]);
      assert h[i] == RawAt(history, perm[i]);
    }
    forall id: nat | id < |history| ensures SameOp(history, h, id) {
      SortedPair(history, h, perm, id);
    }
    forall id: nat | id < |h| / 2 ensures Paired(h, id) {
      assert SameOp(history, h, id);
    }
    assert WellFormed(h);
    SortedSameOrder(history, h, perm);
  }

  lemma SortedSameOrder<V>(history: seq<Operation<V>>, h: seq<Entry<V>>, perm: seq<nat>)
    requires Untied(history) && Arranged(RawEntries(history), 2 * |history|, h, perm)
    requires WellFormed(h) && forall id :: 0 <= id < |history| ==> SameOp(history, h, id)
    ensures SameOrderAndValues(history, OpsOf(h))
  {
    var ops := OpsOf(h);
    forall a, b | 0 <= a < |history| && 0 <= b < |history|
      ensures Precedes(history, a, b) <==> Precedes(ops, a, b)
    {
      assert SameOp(history, h, a) && SameOp(history, h, b);
      SortedTimes(history, h, a, b);
    }
    forall id: nat | id < |history|
      ensures history[id].input == ops[id].input && history[id].output == ops[id].output
    {
      assert SameOp(history, h, id);
    }
  }

  // ---------- When the result of the sort is right ----------

  lemma {:induction false} SortExists<V>(entries: seq<Entry<V>>, k: nat) returns (r: seq<Entry<V>>, perm: seq<nat>)
    requires k <= |entries|
    ensures Arranged(entries, k, r, perm)
    decreases k
  {
    if k == 0 {
      r, perm := [], [];
    } else {
      var r0, perm0 := SortExists(entries, k - 1);
      var p := PlaceExists(r0, entries[k - 1], k - 1);
      PermutesInsert(perm0, k - 1, p);
      FollowsInsert(entries, r0, perm0, k - 1, p);
      InOrderInsert(r0, entries[k - 1], p);
      r := r0[..p] + [entries[k - 1]] + r0[p..];
      perm := perm0[..p] + [k - 1] + perm0[p..];
    }
  }

  lemma {:induction false} PlaceExists<V>(r: seq<Entry<V>>, e: Entry<V>, from: nat) returns (p: nat)
    requires InOrder(r) && from <= |r| && forall i :: from <= i < |r| ==> e.time <= r[i].time
    ensures FitsAt(r, e, p)
    decreases from
  {
    if from > 0 && r[from - 1].time > e.time {
      p := PlaceExists(r, e, from - 1);
    } else {
      p := from;
    }
  }

  lemma SwapTied<V>(entries: seq<Entry<V>>, r: seq<Entry<V>>, perm: seq<nat>, i: nat, j: nat)
    requires Arranged(entries, |entries|, r, perm) && i < j < |r| && r[i].time == r[j].time
    ensures Arranged(entries, |entries|, r[i := r[j]][j := r[i]], perm[i := perm[j]][j := perm[i]])
  {
    var r', perm' := r[i := r[j]][j := r[i]], perm[i := perm[j]][j := perm[i]];
    assert forall k :: 0 <= k < |r| ==> r'[k].time == r[k].time;
    assert Permutes(perm', |entries|);
  }

  /** The sort may put raw entry y before raw entry x if it is no later. */
  lemma MayComeFirst<V>(history: seq<Operation<V>>, y: nat, x: nat)
    returns (h: seq<Entry<V>>, perm: seq<nat>, i: nat, j: nat)
    requires x < 2 * |history| && y < 2 * |history| && x != y && RawAt(history, y).time <= RawAt(history, x).time
    ensures Arranged(RawEntries(history), 2 * |history|, h, perm)
    ensures i < j < |h| && perm[i] == y && perm[j] == x
  {
    var raw := RawEntries(history);
    h, perm := SortExists(raw, |raw|);
    i := Located(history, h, perm, y);
    j := Located(history, h, perm, x);
    if j < i {
      SwapTied(raw, h, perm, j, i);
      h, perm := h[j := h[i]][i := h[j]], perm[j := perm[i]][i := perm[j]];
      i, j := j, i;
    }
  }

  /** A return of b that is no later than the call of a lets the sort go wrong. */
  lemma TieMisleads<V>(history: seq<Operation<V>>, a: nat, b: nat) returns (h: seq<Entry<V>>, perm: seq<nat>)
    requires a < |history| && b < |history| && history[b].ret <= history[a].call
    requires a == b || history[b].ret == history[a].call
    ensures Arranged(RawEntries(history), 2 * |history|, h, perm) && !StandsFor(h, history)
  {
    var i, j;
    assert RawAt(history, 2 * b + 1) == Entry(ReturnEntry, history[b].output, b, history[b].ret, history[b].clientId);
    assert RawAt(history, 2 * a) == Entry(CallEntry, history[a].input, a, history[a].call, history[a].clientId);
    h, perm, i, j := MayComeFirst(history, 2 * b + 1, 2 * a);
    assert h[i] == RawAt(history, 2 * b + 1) && h[j] == RawAt(history, 2 * a);
    if WellFormed(h) {
      assert EntryOk(h, i) && EntryOk(h, j);
      assert Paired(h, a);
      assert a != b && Precedes(OpsOf(h), b, a) && !Precedes(history, b, a);
    }
  }

  /** Whatever the sort does with equal times, its result stands for the operations, if and
      only if every call is before its return and no call ties with another return. */
  lemma UntiedIff<V>(history: seq<Operation<V>>)
    ensures Untied(history) <==>
      forall h, perm :: Arranged(RawEntries(history), 2 * |history|, h, perm) ==> StandsFor(h, history)
  {
    if Untied(history) {
      forall h, perm | Arranged(RawEntries(history), 2 * |history|, h, perm) ensures StandsFor(h, history) {
        SortedIsWellFormed(history, h, perm);
      }
    } else {
      var a, b :| 0 <= a < |history| && 0 <= b < |history| && history[b].ret <= history[a].call
                  && (a == b || history[b].ret == history[a].call);
      var h, perm := TieMisleads(history, a, b);
    }
  }
}
