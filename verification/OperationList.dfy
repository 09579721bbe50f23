/** The entry list with operations taken out of it, last in first out. */
module OperationList {
  import opened Linearizability
  import opened History
  import opened EntryList

  /** The head and the entries of the operations that have not been taken. */
  ghost function Live<V>(h: seq<Entry<V>>, done: set<nat>): (r: set<int>)
    ensures forall p :: p in r <==> p == -1 || (0 <= p < |h| && h[p].id !in done)
  {
    {-1} + set p | p in Places(h, 0) && h[p].id !in done
  }

  /** The list holds the head and exactly the entries of the operations outside `done`, in
      their original order and with consistent links. */
  ghost predicate ListOk<V>(h: seq<Entry<V>>, nodes: map<int, Node<V>>, done: set<nat>)
    reads nodes.Values
  {
    && nodes.Keys == {-1} + Places(h, 0)
    && RepresentsFrom(h, 0, nodes)
    && Linked(nodes, Live(h, done))
  }

  ghost function CallPlace<V>(h: seq<Entry<V>>, id: nat): (r: int) { Pos(h, CallEntry, id) }

  ghost function ReturnPlace<V>(h: seq<Entry<V>>, id: nat): (r: int) { Pos(h, ReturnEntry, id) }

  ghost predicate IdsBelow(path: seq<nat>, n: nat)
  {
    forall j :: 0 <= j < |path| ==> path[j] < n
  }

  /** The j-th operation taken still holds the links it needs to be put back. */
  ghost predicate SavedAt<V>(h: seq<Entry<V>>, nodes: map<int, Node<V>>, path: seq<nat>, j: nat)
    requires j < |path|
    reads nodes.Values
  {
    var c, r := CallPlace(h, path[j]), ReturnPlace(h, path[j]);
    c in nodes && r in nodes && Saved(nodes, Live(h, Ids(path[..j])), c, r)
  }

  ghost predicate StackOk<V>(h: seq<Entry<V>>, nodes: map<int, Node<V>>, path: seq<nat>)
    reads nodes.Values
  {
    forall j {:trigger SavedAt(h, nodes, path, j)} :: 0 <= j < |path| ==> SavedAt(h, nodes, path, j)
  }

  lemma {:induction false} FirstReturnIsPos<V>(h: seq<Entry<V>>, from: nat, id: nat)
    requires WellFormed(h) && id < |h| / 2 && from <= ReturnPlace(h, id)
    ensures FirstReturn(h, from, id) == ReturnPlace(h, id)
    decreases |h| - from
  {
    assert Paired(h, id);
    assert EntryOk(h, from);
    if from < ReturnPlace(h, id) {
      FirstReturnIsPos(h, from + 1, id);
    }
  }

  /** The node of a call knows the node of its return. */
  lemma CallMatches<V>(h: seq<Entry<V>>, nodes: map<int, Node<V>>, id: nat)
    requires WellFormed(h) && id < |h| / 2 && RepresentsFrom(h, 0, nodes)
    ensures var c, r := CallPlace(h, id), ReturnPlace(h, id);
            0 <= c < r < |h| && c in nodes && r in nodes && nodes[c].matching == nodes[r]
  {
    assert Paired(h, id);
    var c := CallPlace(h, id);
    assert Represents(h, nodes, c);
    FirstReturnIsPos(h, c + 1, id);
  }

  lemma LiveWithout<V>(h: seq<Entry<V>>, done: set<nat>, c: nat)
    requires WellFormed(h) && c < |h| / 2 && c !in done
    ensures Live(h, done + {c}) == Live(h, done) - {CallPlace(h, c)} - {ReturnPlace(h, c)}
  {
    assert Paired(h, c);
    forall p | 0 <= p < |h| && h[p].id == c ensures p == CallPlace(h, c) || p == ReturnPlace(h, c) {
      assert EntryOk(h, p);
    }
  }

  /** Takes operation c out of the list. */
  method TakeOut<V>(entry: Node<V>, ghost h: seq<Entry<V>>, ghost nodes: map<int, Node<V>>, ghost path: seq<nat>,
                    ghost c: nat)
    requires WellFormed(h) && c < |h| / 2 && c !in path && IdsBelow(path, |h| / 2)
    requires ListOk(h, nodes, Ids(path)) && StackOk(h, nodes, path)
    requires entry == nodes[CallPlace(h, c)]
    modifies nodes.Values
    ensures ListOk(h, nodes, Ids(path + [c])) && StackOk(h, nodes, path + [c])
  {
    ghost var live := Live(h, Ids(path));
    CallMatches(h, nodes, c);
    LiveWithout(h, Ids(path), c);
    assert Ids(path + [c]) == Ids(path) + {c};
    Lift(entry, nodes, live);
    forall j | 0 <= j < |path + [c]| ensures SavedAt(h, nodes, path + [c], j) {
      assert (path + [c])[..j] == path[..j];
      if j < |path| {
        assert old(SavedAt(h, nodes, path, j));
        TakenNotLive(h, nodes, path, j);
      } else {
        assert path[..j] == path;
      }
    }
  }

  lemma TakenNotLive<V>(h: seq<Entry<V>>, nodes: map<int, Node<V>>, path: seq<nat>, j: nat)
    requires WellFormed(h) && IdsBelow(path, |h| / 2) && j < |path| && Placed(nodes)
    requires Live(h, Ids(path)) <= nodes.Keys
    requires CallPlace(h, path[j]) in nodes && ReturnPlace(h, path[j]) in nodes
    ensures forall p :: p in Live(h, Ids(path)) ==>
      nodes[p] != nodes[CallPlace(h, path[j])] && nodes[p] != nodes[ReturnPlace(h, path[j])]
  {
    assert Paired(h, path[j]);
  }

  /** What is live without the operation taken last. */
  lemma LastTaken<V>(h: seq<Entry<V>>, path: seq<nat>)
    requires WellFormed(h) && path != [] && IdsBelow(path, |h| / 2) && NoDup(path)
    ensures var k := |path| - 1; var c := path[k];
      && c !in Ids(path[..k]) && Ids(path) == Ids(path[..k]) + {c}
      && Live(h, Ids(path)) == Live(h, Ids(path[..k])) - {CallPlace(h, c)} - {ReturnPlace(h, c)}
  {
    var k := |path| - 1;
    assert path == path[..k] + [path[k]];
    LiveWithout(h, Ids(path[..k]), path[k]);
  }

  /** Puts the operation taken last back. */
  method PutBack<V>(entry: Node<V>, ghost h: seq<Entry<V>>, ghost nodes: map<int, Node<V>>, ghost path: seq<nat>)
    requires WellFormed(h) && path != [] && IdsBelow(path, |h| / 2) && NoDup(path)
    requires ListOk(h, nodes, Ids(path)) && StackOk(h, nodes, path)
    requires CallPlace(h, path[|path| - 1]) in nodes && entry == nodes[CallPlace(h, path[|path| - 1])]
    modifies nodes.Values
    ensures ListOk(h, nodes, Ids(path[..|path| - 1])) && StackOk(h, nodes, path[..|path| - 1])
  {
    ghost var k := |path| - 1;
    ghost var path' := path[..k];
    ghost var live := Live(h, Ids(path'));
    CallMatches(h, nodes, path[k]);
    LastTaken(h, path);
    assert SavedAt(h, nodes, path, k);
    Unlift(entry, nodes, live);
    forall j | 0 <= j < k ensures SavedAt(h, nodes, path', j) {
      assert path'[..j] == path[..j];
      assert old(SavedAt(h, nodes, path, j));
      TakenNotLive(h, nodes, path', j);
    }
  }
}
