/** Histories given as events: ids of any kind are renumbered 0, 1, 2, ... in the order in
    which they first appear, and the index of an event becomes its time. */
module Events {
  import opened Collections
  import opened History

  datatype EventKind = CallEvent | ReturnEvent

  datatype Event<V> = Event(clientId: int, kind: EventKind, value: V, id: int)

  // ---------- Numbering ----------

  /** The first place from j on of an event with this id; the length if there is none. */
  ghost function FirstFrom<V>(events: seq<Event<V>>, id: int, j: nat): (f: nat)
    requires j <= |events|
    ensures j <= f <= |events| && (f < |events| ==> events[f].id == id)
    decreases |events| - j
  {
    if j == |events| || events[j].id == id then j else FirstFrom(events, id, j + 1)
  }

  ghost function First<V>(events: seq<Event<V>>, id: int): (f: nat)
  {
    FirstFrom(events, id, 0)
  }

  lemma {:induction false} FirstIsLeast<V>(events: seq<Event<V>>, j: nat, i: nat)
    requires j <= i < |events|
    ensures FirstFrom(events, events[i].id, j) <= i
    decreases i - j
  {
    if j < i && events[j].id != events[i].id {
      FirstIsLeast(events, j + 1, i);
    }
  }

  /** How many different ids the first k events have. */
  ghost function Distinct<V>(events: seq<Event<V>>, k: nat): (n: nat)
    requires k <= |events|
  {
    if k == 0 then 0 else Distinct(events, k - 1) + if First(events, events[k - 1].id) == k - 1 then 1 else 0
  }

  /** The number that an id gets: how many other ids come before it. */
  ghost function Number<V>(events: seq<Event<V>>, id: int): (n: nat)
  {
    Distinct(events, First(events, id))
  }

  lemma {:induction false} DistinctGrows<V>(events: seq<Event<V>>, j: nat, k: nat)
    requires j <= k <= |events|
    ensures Distinct(events, j) <= Distinct(events, k)
    ensures j < k && First(events, events[j].id) == j ==> Distinct(events, j) < Distinct(events, k)
  {
    if j < k {
      DistinctGrows(events, j, k - 1);
    }
  }

  /** Renumbering keeps apart what was apart. */
  lemma NumberIsInjective<V>(events: seq<Event<V>>, i: nat, j: nat)
    requires i < |events| && j < |events|
    ensures Number(events, events[i].id) == Number(events, events[j].id) <==> events[i].id == events[j].id
    ensures Number(events, events[i].id) < Distinct(events, |events|)
  {
    FirstIsLeast(events, 0, i);
    FirstIsLeast(events, 0, j);
    var f, g := First(events, events[i].id), First(events, events[j].id);
    DistinctGrows(events, f, |events|);
    if f < g {
      DistinctGrows(events, f, g);
    } else if g < f {
      DistinctGrows(events, g, f);
    }
  }

  /** An id that appears for the first time gets a larger number than those before it. */
  lemma NumberInOrder<V>(events: seq<Event<V>>, j: nat, k: nat)
    requires j < k < |events| && forall i :: 0 <= i < k ==> events[i].id != events[k].id
    ensures Number(events, events[j].id) < Number(events, events[k].id)
  {
    FirstIsLeast(events, 0, j);
    FirstIsLeast(events, 0, k);
    DistinctGrows(events, First(events, events[j].id), k);
  }

  /** The numbers in use are all those below the count of different ids. */
  lemma {:induction false} NumberInUse<V>(events: seq<Event<V>>, k: nat, n: nat) returns (i: nat)
    requires k <= |events| && n < Distinct(events, k)
    ensures i < k && First(events, events[i].id) == i && Number(events, events[i].id) == n
  {
    if n < Distinct(events, k - 1) {
      i := NumberInUse(events, k - 1, n);
    } else {
      i := k - 1;
    }
  }

  ghost predicate NumberedAt<V>(events: seq<Event<V>>, k: nat, m: map<int, int>, x: int)
  {
    (x in m <==> First(events, x) < k) && (x in m ==> m[x] == Number(events, x))
  }

  /** m holds the numbers of the ids that come up before place k. */
  ghost predicate Numbered<V>(events: seq<Event<V>>, k: nat, m: map<int, int>)
  {
    forall x {:trigger NumberedAt(events, k, m, x)} :: NumberedAt(events, k, m, x)
  }

  lemma NumberedStep<V>(events: seq<Event<V>>, k: nat, m: map<int, int>)
    requires k < |events| && Numbered(events, k, m)
    ensures var x := events[k].id;
      if x in m then m[x] == Number(events, x) && First(events, x) < k && Numbered(events, k + 1, m)
      else First(events, x) == k && Numbered(events, k + 1, m[x := Distinct(events, k)])
  {
    FirstIsLeast(events, 0, k);
    var id := events[k].id;
    assert NumberedAt(events, k, m, id);
    var m', k' := if id in m then m else m[id := Distinct(events, k)], k + 1;
    forall x ensures NumberedAt(events, k', m', x) {
      assert NumberedAt(events, k, m, x);
    }
  }

  ghost predicate Renumbered<V>(events: seq<Event<V>>, k: nat, e: seq<Event<V>>)
    requires k <= |events|
  {
    |e| == k && forall i {:trigger e[i]} :: 0 <= i < k ==> e[i] == events[i].(id := Number(events, events[i].id))
  }

  /** Every event gets the number of its id. */
  method Renumber<V>(events: seq<Event<V>>) returns (e: seq<Event<V>>)
    ensures Renumbered(events, |events|, e)
  {
    e := [];
    var m: map<int, int> := map[];
    var id := 0;
    for k := 0 to |events|
      invariant id == Distinct(events, k)
      invariant Numbered(events, k, m)
      invariant Renumbered(events, k, e)
    {
      var v := events[k];
      NumberedStep(events, k, m);
      if v.id in m {
        e := e + [Event(v.clientId, v.kind, v.value, m[v.id])];
      } else {
        e := e + [Event(v.clientId, v.kind, v.value, id)];
        m := m[v.id := id];
        id := id + 1;
      }
    }
  }

  // ---------- Conversion ----------

  ghost predicate ConvertedAt<V>(e: Event<V>, i: int, r: Entry<V>)
  {
    && r.kind == (if e.kind == ReturnEvent then ReturnEntry else CallEntry)
    && r.value == e.value && r.id == e.id && r.clientId == e.clientId && r.time == i
  }

  method ConvertEntries<V>(events: seq<Event<V>>) returns (entries: seq<Entry<V>>)
    requires forall i :: 0 <= i < |events| ==> events[i].id >= 0
    ensures |entries| == |events|
    ensures forall i :: 0 <= i < |events| ==> ConvertedAt(events[i], i, entries[i])
  {
    entries := [];
    for i := 0 to |events|
      invariant |entries| == i
      invariant forall j :: 0 <= j < i ==> ConvertedAt(events[j], j, entries[j])
    {
      var elem := events[i];
      var kind := CallEntry;
      if elem.kind == ReturnEvent {
        kind := ReturnEntry;
      }
      entries := entries + [Entry(kind, elem.value, elem.id, i, elem.clientId)];
    }
  }

  /** What the search gets for the events. */
  ghost predicate IsConverted<V>(events: seq<Event<V>>, h: seq<Entry<V>>)
  {
    && |h| == |events|
    && forall i {:trigger h[i]} :: 0 <= i < |h| ==>
         ConvertedAt(events[i].(id := Number(events, events[i].id)), i, h[i])
  }

  method EntriesOfEvents<V>(events: seq<Event<V>>) returns (h: seq<Entry<V>>)
    ensures IsConverted(events, h)
    ensures WellFormed(h) <==> PairedEvents(events)
  {
    var e := Renumber(events);
    assert forall i :: 0 <= i < |e| ==> e[i].id >= 0;
    h := ConvertEntries(e);
    WellFormedIffPaired(events, h);
  }

  // ---------- When the result is well formed ----------

  ghost predicate HasMate<V>(events: seq<Event<V>>, i: nat)
    requires i < |events|
  {
    exists j :: 0 <= j < |events| && j != i && events[j].id == events[i].id
  }

  ghost predicate CallThenReturn<V>(events: seq<Event<V>>, i: nat, j: nat)
    requires i < |events| && j < |events|
  {
    events[i].kind == CallEvent && events[j].kind == ReturnEvent
  }

  /** Each id has a call and, later, a return, and no other event. */
  ghost predicate PairedEvents<V>(events: seq<Event<V>>)
  {
    && (forall i: nat, j: nat {:trigger CallThenReturn(events, i, j)} ::
          i < j < |events| && events[i].id == events[j].id ==> CallThenReturn(events, i, j))
    && (forall i: nat {:trigger HasMate(events, i)} :: i < |events| ==> HasMate(events, i))
  }

  lemma Mates<V>(events: seq<Event<V>>, i: nat, j: nat)
    requires PairedEvents(events) && i < j < |events| && events[i].id == events[j].id
    ensures events[i].kind == CallEvent && events[j].kind == ReturnEvent
  {
    assert CallThenReturn(events, i, j);
  }

  /** The ids called and not yet returned after k events. */
  ghost function Open<V>(events: seq<Event<V>>, k: nat): (s: set<int>)
    requires k <= |events|
  {
    if k == 0 then {}
    else
      var e := events[k - 1];
      if e.kind == CallEvent then Open(events, k - 1) + {e.id} else Open(events, k - 1) - {e.id}
  }

  lemma {:induction false} OpenWasCalled<V>(events: seq<Event<V>>, k: nat, id: int)
    requires k <= |events| && id in Open(events, k)
    ensures First(events, id) < k
  {
    if events[k - 1].id == id {
      FirstIsLeast(events, 0, k - 1);
    } else {
      OpenWasCalled(events, k - 1, id);
    }
  }

  /** A call is the first event of its id, and a return is not. */
  lemma CallIffFirst<V>(events: seq<Event<V>>, i: nat)
    requires PairedEvents(events) && i < |events|
    ensures events[i].kind == CallEvent <==> First(events, events[i].id) == i
  {
    FirstIsLeast(events, 0, i);
    var f := First(events, events[i].id);
    if f < i {
      Mates(events, f, i);
    } else {
      assert HasMate(events, i);
      var j: nat :| j < |events| && j != i && events[j].id == events[i].id;
      FirstIsLeast(events, 0, j);
      Mates(events, i, j);
    }
  }

  /** Between its call and its return an id stays open. */
  lemma {:induction false} StaysOpen<V>(events: seq<Event<V>>, i: nat, k: nat, r: nat)
    requires PairedEvents(events) && i < k <= r < |events| && events[i].id == events[r].id
    ensures events[i].id in Open(events, k)
    decreases k
  {
    Mates(events, i, r);
    if i < k - 1 {
      StaysOpen(events, i, k - 1, r);
      if events[k - 1].id == events[i].id {
        Mates(events, k - 1, r);
      }
    }
  }

  /** After its return an id is not open. */
  lemma {:induction false} StaysClosed<V>(events: seq<Event<V>>, r: nat, k: nat)
    requires PairedEvents(events) && r < k <= |events| && events[r].kind == ReturnEvent
    ensures events[r].id !in Open(events, k)
    decreases k
  {
    if r < k - 1 {
      StaysClosed(events, r, k - 1);
      if events[k - 1].id == events[r].id {
        Mates(events, r, k - 1);
      }
    }
  }

  /** The next event opens an id that is not open, or closes one that is. */
  lemma OpenStep<V>(events: seq<Event<V>>, k: nat)
    requires PairedEvents(events) && k < |events|
    ensures events[k].kind == CallEvent <==> events[k].id !in Open(events, k)
  {
    CallIffFirst(events, k);
    var id := events[k].id;
    if events[k].kind == CallEvent {
      if id in Open(events, k) {
        OpenWasCalled(events, k, id);
      }
    } else {
      FirstIsLeast(events, 0, k);
      StaysOpen(events, First(events, id), k, k);
    }
  }

  lemma {:induction false} OpenSize<V>(events: seq<Event<V>>, k: nat)
    requires k < |events|
    requires events[k].kind == CallEvent <==> events[k].id !in Open(events, k)
    ensures |Open(events, k + 1)| == |Open(events, k)| + if events[k].kind == CallEvent then 1 else -1
  {
    var id := events[k].id;
    if events[k].kind == CallEvent {
      assert Open(events, k + 1) == Open(events, k) + {id};
      AddOne(Open(events, k), id);
    } else {
      assert Open(events, k + 1) == Open(events, k) - {id};
      RemoveOne(Open(events, k), id);
    }
  }

  lemma {:induction false} OpenCount<V>(events: seq<Event<V>>, k: nat)
    requires PairedEvents(events) && k <= |events|
    ensures k + |Open(events, k)| == 2 * Distinct(events, k)
  {
    if k > 0 {
      OpenCount(events, k - 1);
      CallIffFirst(events, k - 1);
      OpenStep(events, k - 1);
      OpenSize(events, k - 1);
    }
  }

  lemma PairedCount<V>(events: seq<Event<V>>)
    requires PairedEvents(events)
    ensures |events| == 2 * Distinct(events, |events|)
  {
    OpenCount(events, |events|);
    forall id ensures id !in Open(events, |events|) {
      if id in Open(events, |events|) {
        OpenWasCalled(events, |events|, id);
        var i := First(events, id);
        assert HasMate(events, i);
        var j: nat :| j < |events| && j != i && events[j].id == id;
        FirstIsLeast(events, 0, j);
        Mates(events, i, j);
        StaysClosed(events, j, |events|);
      }
    }
    assert Open(events, |events|) == {};
  }

  /** The entry with the number and kind of entry i is entry i itself. */
  lemma OnlyOne<V>(events: seq<Event<V>>, h: seq<Entry<V>>, i: nat)
    requires IsConverted(events, h) && PairedEvents(events) && i < |h|
    ensures Pos(h, h[i].kind, h[i].id) == i
  {
    assert IsAt(h, h[i].kind, h[i].id, i);
    var p := Pos(h, h[i].kind, h[i].id);
    assert h[p].id == h[i].id && h[p].kind == h[i].kind;
    NumberIsInjective(events, p, i);
    CallIffFirst(events, p);
    CallIffFirst(events, i);
    if p < i {
      Mates(events, p, i);
    } else if i < p {
      Mates(events, i, p);
    }
  }

  lemma {:induction false} PairedNumber<V>(events: seq<Event<V>>, h: seq<Entry<V>>, n: nat)
    requires IsConverted(events, h) && PairedEvents(events) && n < Distinct(events, |events|)
    ensures Paired(h, n)
  {
    var i := NumberInUse(events, |events|, n);
    assert HasMate(events, i);
    var j: nat :| j < |events| && j != i && events[j].id == events[i].id;
    FirstIsLeast(events, 0, j);
    Mates(events, i, j);
    assert h[i].id == n && h[j].id == n;
    OnlyOne(events, h, i);
    OnlyOne(events, h, j);
  }

  lemma {:induction false} PairedIsWellFormed<V>(events: seq<Event<V>>, h: seq<Entry<V>>)
    requires IsConverted(events, h) && PairedEvents(events)
    ensures WellFormed(h)
  {
    PairedCount(events);
    forall i | 0 <= i < |h| ensures EntryOk(h, i) {
      OnlyOne(events, h, i);
      NumberIsInjective(events, i, i);
      assert h[i].id == Number(events, events[i].id);
    }
    forall n: nat | n < |h| / 2 ensures Paired(h, n) {
      PairedNumber(events, h, n);
    }
  }

  lemma {:induction false} WellFormedIsPaired<V>(events: seq<Event<V>>, h: seq<Entry<V>>)
    requires IsConverted(events, h) && WellFormed(h)
    ensures PairedEvents(events)
  {
    forall i: nat, j: nat | i < j < |events| && events[i].id == events[j].id ensures CallThenReturn(events, i, j) {
      assert h[i].id == h[j].id;
      assert EntryOk(h, i) && EntryOk(h, j);
      assert Paired(h, h[i].id);
    }
    forall i: nat | i < |events| ensures HasMate(events, i) {
      assert EntryOk(h, i) && Paired(h, h[i].id);
      var c, r := Pos(h, CallEntry, h[i].id), Pos(h, ReturnEntry, h[i].id);
      assert h[c].id == h[i].id && h[r].id == h[i].id;
      NumberIsInjective(events, c, i);
      NumberIsInjective(events, r, i);
    }
  }

  /** The search gets a well-formed history exactly when the events are paired. */
  lemma WellFormedIffPaired<V>(events: seq<Event<V>>, h: seq<Entry<V>>)
    requires IsConverted(events, h)
    ensures WellFormed(h) <==> PairedEvents(events)
  {
    if PairedEvents(events) {
      PairedIsWellFormed(events, h);
    }
    if WellFormed(h) {
      WellFormedIsPaired(events, h);
    }
  }
}
