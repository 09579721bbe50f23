/** The doubly linked list of entries that the search rewires in place.

    Every node carries, as a ghost, its place in the original order: the head has place -1
    and entry p of the history has place p.  `nodes` maps places to nodes, and
    `Linked(nodes, live)` says that the nodes at the live places, and no others, form a
    doubly linked list in their original order. */
module EntryList {
  import opened Wrappers
  import opened History

  class Node<V> {
    const value: Option<V>
    const matching: Node?<V>   // the return node of a call; null for a return
    const id: int
    ghost const place: int
    var next: Node?<V>
    var prev: Node?<V>

    constructor (value: Option<V>, matching: Node?<V>, id: int, ghost place: int)
      ensures this.value == value && this.matching == matching && this.id == id && this.place == place
      ensures next == null && prev == null
    {
      this.value, this.matching, this.id, this.place := value, matching, id, place;
      next, prev := null, null;
    }
  }

  ghost predicate Placed<V>(nodes: map<int, Node<V>>)
  {
    forall p :: p in nodes ==> nodes[p].place == p
  }

  /** n is the node at the first live place after p, or null if there is none. */
  ghost predicate IsNext<V>(nodes: map<int, Node<V>>, live: set<int>, p: int, n: Node?<V>)
  {
    && (n != null ==> n.place in live && n.place in nodes && n == nodes[n.place] && p < n.place)
    && (forall q :: q in live && p < q ==> n != null && n.place <= q)
  }

  /** n is the node at the last live place before p, or null if there is none. */
  ghost predicate IsPrev<V>(nodes: map<int, Node<V>>, live: set<int>, p: int, n: Node?<V>)
  {
    && (n != null ==> n.place in live && n.place in nodes && n == nodes[n.place] && n.place < p)
    && (forall q :: q in live && q < p ==> n != null && q <= n.place)
  }

  /** The links held by the node at p are those it needs among the live places. */
  ghost predicate LinksAt<V>(nodes: map<int, Node<V>>, live: set<int>, p: int)
    requires p in nodes
    reads nodes[p]
  {
    IsNext(nodes, live, p, nodes[p].next) && IsPrev(nodes, live, p, nodes[p].prev)
  }

  ghost predicate Linked<V>(nodes: map<int, Node<V>>, live: set<int>)
    reads nodes.Values
  {
    && Placed(nodes)
    && live <= nodes.Keys
    && forall p {:trigger LinksAt(nodes, live, p)} :: p in live ==> LinksAt(nodes, live, p)
  }

  // ---------- Adding and removing a live place ----------

  lemma NextWithout<V>(nodes: map<int, Node<V>>, live: set<int>, x: int, p: int)
    requires Linked(nodes, live) && p in live && x in live && x != p
    ensures IsNext(nodes, live - {p}, x, if nodes[p].prev == nodes[x] then nodes[p].next else nodes[x].next)
  {
    assert LinksAt(nodes, live, p) && LinksAt(nodes, live, x);
    assert forall q :: q in live - {p} ==> q in live;
    if x < p && nodes[p].prev != nodes[x] {
      assert x < nodes[p].prev.place;
    }
  }

  lemma PrevWithout<V>(nodes: map<int, Node<V>>, live: set<int>, x: int, p: int)
    requires Linked(nodes, live) && p in live && x in live && x != p
    ensures IsPrev(nodes, live - {p}, x, if nodes[p].next == nodes[x] then nodes[p].prev else nodes[x].prev)
  {
    assert LinksAt(nodes, live, p) && LinksAt(nodes, live, x);
    assert forall q :: q in live - {p} ==> q in live;
    if p < x && nodes[p].next != nodes[x] {
      assert nodes[p].next.place < x;
    }
  }

  lemma NextWith<V>(nodes: map<int, Node<V>>, live: set<int>, x: int, n: Node?<V>, p: int, pp: Node?<V>)
    requires p in nodes && nodes[p].place == p && x in live && x in nodes && nodes[x].place == x && x != p
    requires IsNext(nodes, live - {p}, x, n) && IsPrev(nodes, live, p, pp)
    ensures IsNext(nodes, live + {p}, x, if pp == nodes[x] then nodes[p] else n)
  {
    assert forall q :: q in live + {p} && q != p ==> q in live - {p};
    if x < p && pp != nodes[x] {
      assert x < pp.place && pp.place in live - {p};
    }
  }

  lemma PrevWith<V>(nodes: map<int, Node<V>>, live: set<int>, x: int, n: Node?<V>, p: int, np: Node?<V>)
    requires p in nodes && nodes[p].place == p && x in live && x in nodes && nodes[x].place == x && x != p
    requires IsPrev(nodes, live - {p}, x, n) && IsNext(nodes, live, p, np)
    ensures IsPrev(nodes, live + {p}, x, if np == nodes[x] then nodes[p] else n)
  {
    assert forall q :: q in live + {p} && q != p ==> q in live - {p};
    if p < x && np != nodes[x] {
      assert np.place < x && np.place in live - {p};
    }
  }

  method Unlink<V>(node: Node<V>, ghost nodes: map<int, Node<V>>, ghost live: set<int>)
    requires Linked(nodes, live) && node.place in live && nodes[node.place] == node && node.prev != null
    modifies node.prev, node.next
    ensures Linked(nodes, live - {node.place})
  {
    ghost var p := node.place;
    assert LinksAt(nodes, live, p);
    forall x | x in live - {p}
      ensures IsNext(nodes, live - {p}, x, if node.prev == nodes[x] then node.next else nodes[x].next)
      ensures IsPrev(nodes, live - {p}, x, if node.next == nodes[x] then node.prev else nodes[x].prev)
    {
      NextWithout(nodes, live, x, p);
      PrevWithout(nodes, live, x, p);
    }
    node.prev.next := node.next;
    if node.next != null {
      node.next.prev := node.prev;
    }
    forall x | x in live - {p} ensures LinksAt(nodes, live - {p}, x) {
    }
  }

  method Relink<V>(node: Node<V>, ghost nodes: map<int, Node<V>>, ghost live: set<int>)
    requires live <= nodes.Keys && node.place in live && nodes[node.place] == node && node.prev != null
    requires Linked(nodes, live - {node.place}) && LinksAt(nodes, live, node.place)
    modifies node.prev, node.next
    ensures Linked(nodes, live)
  {
    ghost var p := node.place;
    node.prev.next := node;
    if node.next != null {
      node.next.prev := node;
    }
    assert live + {p} == live;
    forall x | x in live - {p} ensures LinksAt(nodes, live, x) {
      assert old(LinksAt(nodes, live - {p}, x));
      NextWith(nodes, live, x, old(nodes[x].next), p, node.prev);
      PrevWith(nodes, live, x, old(nodes[x].prev), p, node.next);
    }
  }

  // ---------- Construction ----------

  /** The links that inserting n before mark calls for. */
  lemma InsertLinks<V>(n: Node<V>, mark: Node<V>, nodes: map<int, Node<V>>, live: set<int>)
    requires Linked(nodes, live) && n.place !in nodes && IsNext(nodes, live, n.place, mark)
    ensures IsPrev(nodes[n.place := n], live, n.place, mark.prev)
    ensures forall x :: x in live ==>
      && IsNext(nodes[n.place := n], live + {n.place}, x, if mark.prev == nodes[x] then n else nodes[x].next)
      && IsPrev(nodes[n.place := n], live + {n.place}, x, if mark == nodes[x] then n else nodes[x].prev)
  {
    var p := n.place;
    var nodes' := nodes[p := n];
    assert LinksAt(nodes, live, mark.place);
    forall x | x in live
      ensures IsNext(nodes', live + {p}, x, if mark.prev == nodes[x] then n else nodes[x].next)
      ensures IsPrev(nodes', live + {p}, x, if mark == nodes[x] then n else nodes[x].prev)
    {
      assert LinksAt(nodes, live, x) && live - {p} == live;
      NextWith(nodes', live, x, nodes[x].next, p, mark.prev);
      PrevWith(nodes', live, x, nodes[x].prev, p, mark);
    }
  }

  method InsertBefore<V>(n: Node<V>, mark: Node?<V>, ghost nodes: map<int, Node<V>>, ghost live: set<int>)
    returns (r: Node<V>)
    requires Linked(nodes, live) && IsNext(nodes, live, n.place, mark)
    requires n.place !in nodes && n !in nodes.Values && n.next == null && n.prev == null
    requires mark == null ==> live == {}
    modifies n, nodes.Values
    ensures r == n && Linked(nodes[n.place := n], live + {n.place})
  {
    if mark != null {
      InsertLinks(n, mark, nodes, live);
      var beforeMark := mark.prev;
      mark.prev := n;
      n.next := mark;
      if beforeMark != null {
        n.prev := beforeMark;
        beforeMark.next := n;
      }
      forall x | x in live ensures LinksAt(nodes[n.place := n], live + {n.place}, x) {
      }
    }
    return n;
  }

  /** The first return with this id at or after position `from` (|h| if there is none). */
  ghost function FirstReturn<V>(h: seq<Entry<V>>, from: nat, id: nat): (r: nat)
    requires from <= |h|
    ensures from <= r <= |h|
    ensures r < |h| ==> IsAt(h, ReturnEntry, id, r)
    decreases |h| - from
  {
    if from == |h| then from
    else if h[from].kind == ReturnEntry && h[from].id == id then from
    else FirstReturn(h, from + 1, id)
  }

  /** node represents entry p; a call is matched with the first return of its id after it. */
  ghost predicate Represents<V>(h: seq<Entry<V>>, nodes: map<int, Node<V>>, p: nat)
    requires p < |h|
  {
    && p in nodes
    && nodes[p].id == h[p].id
    && nodes[p].value == Some(h[p].value)
    && var r := FirstReturn(h, p + 1, h[p].id);
       if h[p].kind == ReturnEntry || r == |h| then nodes[p].matching == null
       else r in nodes && nodes[p].matching == nodes[r]
  }

  /** The positions from `from` up to the end of the history. */
  ghost function Places<V>(h: seq<Entry<V>>, from: int): (r: set<int>)
    ensures forall p :: p in r <==> from <= p < |h|
    decreases |h| - from
  {
    if from >= |h| then {} else Places(h, from + 1) + {from}
  }

  /** `matching` maps each id that returns at or after i to the node of its first such return. */
  ghost predicate MatchingFrom<V>(h: seq<Entry<V>>, i: nat, nodes: map<int, Node<V>>, matching: map<nat, Node<V>>)
    requires i <= |h|
  {
    forall id: nat ::
      var r := FirstReturn(h, i, id);
      (id in matching <==> r < |h|) && (id in matching ==> r in nodes && matching[id] == nodes[r])
  }

  ghost predicate RepresentsFrom<V>(h: seq<Entry<V>>, i: nat, nodes: map<int, Node<V>>)
  {
    forall p :: i <= p < |h| ==> Represents(h, nodes, p)
  }

  lemma RepresentsExtend<V>(h: seq<Entry<V>>, i: nat, nodes: map<int, Node<V>>, n: Node<V>)
    requires i < |h| && RepresentsFrom(h, i + 1, nodes) && Represents(h, nodes[i := n], i)
    ensures RepresentsFrom(h, i, nodes[i := n])
  {
    var nodes' := nodes[i := n];
    forall p | i < p < |h| ensures Represents(h, nodes', p) {
      assert Represents(h, nodes, p);
    }
  }

  lemma MatchingExtend<V>(h: seq<Entry<V>>, i: nat, nodes: map<int, Node<V>>, matching: map<nat, Node<V>>, n: Node<V>)
    requires i < |h| && MatchingFrom(h, i + 1, nodes, matching)
    ensures MatchingFrom(h, i, nodes[i := n], if h[i].kind == ReturnEntry then matching[h[i].id := n] else matching)
  {
    forall id: nat ensures FirstReturn(h, i, id) ==
      if h[i].kind == ReturnEntry && h[i].id == id then i else FirstReturn(h, i + 1, id)
    {
    }
  }

  /** The node for entry i, given where the returns after it are. */
  method NewNode<V>(h: seq<Entry<V>>, i: nat, matching: map<nat, Node<V>>, ghost nodes: map<int, Node<V>>)
    returns (entry: Node<V>)
    requires i < |h| && MatchingFrom(h, i + 1, nodes, matching) && i !in nodes
    ensures fresh(entry) && entry.place == i && entry.next == null && entry.prev == null
    ensures Represents(h, nodes[i := entry], i)
  {
    var elem := h[i];
    if elem.kind == ReturnEntry {
      entry := new Node(Some(elem.value), null, elem.id, i);
    } else {
      var ret := if elem.id in matching then matching[elem.id] else null;
      entry := new Node(Some(elem.value), ret, elem.id, i);
    }
  }

  /** The nodes of the entries from i on have been built. */
  ghost predicate Built<V>(h: seq<Entry<V>>, i: nat, nodes: map<int, Node<V>>, matching: map<nat, Node<V>>)
  {
    && i <= |h| && nodes.Keys == Places(h, i)
    && RepresentsFrom(h, i, nodes) && MatchingFrom(h, i, nodes, matching)
  }

  lemma BuiltNothing<V>(h: seq<Entry<V>>, nodes: map<int, Node<V>>)
    requires nodes == map[]
    ensures Built(h, |h|, nodes, map[])
  {
  }

  lemma BuiltExtend<V>(h: seq<Entry<V>>, i: nat, nodes: map<int, Node<V>>, matching: map<nat, Node<V>>, n: Node<V>)
    requires i < |h| && Built(h, i + 1, nodes, matching) && Represents(h, nodes[i := n], i)
    ensures Built(h, i, nodes[i := n], if h[i].kind == ReturnEntry then matching[h[i].id := n] else matching)
  {
    RepresentsExtend(h, i, nodes, n);
    MatchingExtend(h, i, nodes, matching, n);
  }

  method MakeLinkedEntries<V>(entries: seq<Entry<V>>) returns (root: Node?<V>, ghost nodes: map<int, Node<V>>)
    ensures nodes.Keys == Places(entries, 0) && Linked(nodes, nodes.Keys) && RepresentsFrom(entries, 0, nodes)
    ensures IsNext(nodes, nodes.Keys, -1, root)
    ensures fresh(nodes.Values)
  {
    root, nodes := null, map[];
    ghost var repr: set<Node<V>> := {};
    var matching: map<nat, Node<V>> := map[];
    var i := |entries|;
    BuiltNothing(entries, nodes);
    while i > 0
      invariant 0 <= i <= |entries| && Built(entries, i, nodes, matching)
      invariant Linked(nodes, nodes.Keys) && IsNext(nodes, nodes.Keys, i - 1, root)
      invariant nodes.Values <= repr && fresh(repr)
    {
      i := i - 1;
      var entry := NewNode(entries, i, matching, nodes);
      BuiltExtend(entries, i, nodes, matching, entry);
      if entries[i].kind == ReturnEntry {
        matching := matching[entries[i].id := entry];
      }
      root := InsertBefore(entry, root, nodes, nodes.Keys);
      nodes, repr := nodes[i := entry], repr + {entry};
    }
  }

  method Length<V>(n: Node?<V>, ghost nodes: map<int, Node<V>>, ghost h: seq<Entry<V>>) returns (l: nat)
    requires Linked(nodes, nodes.Keys) && nodes.Keys == Places(h, 0)
    requires IsNext(nodes, nodes.Keys, -1, n)
    ensures l == |h|
  {
    l := 0;
    var cur := n;
    while cur != null
      invariant l <= |h| && IsNext(nodes, nodes.Keys, l - 1, cur)
      decreases |h| - l
    {
      assert l in nodes.Keys && LinksAt(nodes, nodes.Keys, cur.place);
      cur := cur.next;
      l := l + 1;
    }
    assert l < |h| ==> l in nodes.Keys;
  }

  // ---------- Lifting an operation out of the list and putting it back ----------

  /** After the call at p and its return at r were lifted out of the live places, each still
      holds the links it had when it was unlinked: the call first, then the return. */
  ghost predicate Saved<V>(nodes: map<int, Node<V>>, live: set<int>, p: int, r: int)
    requires p in nodes && r in nodes
    reads nodes[p], nodes[r]
  {
    LinksAt(nodes, live, p) && LinksAt(nodes, live - {p}, r)
  }

  method Lift<V>(entry: Node<V>, ghost nodes: map<int, Node<V>>, ghost live: set<int>)
    requires Linked(nodes, live)
    requires entry.place in live && nodes[entry.place] == entry
    requires -1 in live && 0 <= entry.place
    requires entry.matching != null && entry.place < entry.matching.place
    requires entry.matching.place in live && nodes[entry.matching.place] == entry.matching
    modifies set p | p in live :: nodes[p]
    ensures Linked(nodes, live - {entry.place} - {entry.matching.place})
    ensures Saved(nodes, live, entry.place, entry.matching.place)
  {
    ghost var p, r := entry.place, entry.matching.place;
    assert LinksAt(nodes, live, p);
    Unlink(entry, nodes, live);
    assert LinksAt(nodes, live - {p}, r) && -1 in live - {p};
    Unlink(entry.matching, nodes, live - {p});
  }

  method Unlift<V>(entry: Node<V>, ghost nodes: map<int, Node<V>>, ghost live: set<int>)
    requires live <= nodes.Keys && entry.place in live && nodes[entry.place] == entry
    requires -1 in live && 0 <= entry.place
    requires entry.matching != null && entry.place < entry.matching.place
    requires entry.matching.place in live && nodes[entry.matching.place] == entry.matching
    requires Linked(nodes, live - {entry.place} - {entry.matching.place})
    requires Saved(nodes, live, entry.place, entry.matching.place)
    modifies set p | p in live :: nodes[p]
    ensures Linked(nodes, live)
  {
    ghost var p := entry.place;
    assert -1 in live - {p};
    Relink(entry.matching, nodes, live - {p});
    Relink(entry, nodes, live);
  }
}
