/** Small facts about finite collections that several parts share. */
module Collections {

  /** The numbers below n. */
  ghost function Below(n: nat): (r: set<nat>)
    ensures forall x :: x in r <==> 0 <= x < n
    ensures |r| == n
  {
    if n == 0 then {} else Below(n - 1) + {n - 1}
  }

  lemma SubsetCardinality<T>(a: set<T>, b: set<T>)
    requires a <= b
    ensures |a| <= |b|
    ensures |a| == |b| ==> a == b
  {
    assert b == a + (b - a);
    assert |b| == |a| + |b - a|;
  }

  lemma AddOne<T>(a: set<T>, x: T)
    requires x !in a
    ensures |a + {x}| == |a| + 1
  {
  }

  lemma RemoveOne<T>(a: set<T>, x: T)
    requires x in a
    ensures |a - {x}| == |a| - 1
  {
  }

  lemma Regroup<T>(a: seq<T>, b: seq<T>, c: seq<T>)
    ensures a + (b + c) == (a + b) + c
  {
  }

  function Repeat<T>(x: T, n: nat): (r: seq<T>)
    ensures |r| == n && forall i :: 0 <= i < n ==> r[i] == x
  {
    if n == 0 then [] else Repeat(x, n - 1) + [x]
  }

  // ---------- Sorting the members of a set ----------

  ghost predicate TotalOrder<T(!new)>(le: (T, T) -> bool)
  {
    && (forall a, b :: le(a, b) || le(b, a))
    && (forall a, b, c :: le(a, b) && le(b, c) ==> le(a, c))
  }

  /** In order, and no member twice. */
  ghost predicate Ordered<T(!new)>(le: (T, T) -> bool, keys: seq<T>)
  {
    forall i, j :: 0 <= i < j < |keys| ==> le(keys[i], keys[j]) && keys[i] != keys[j]
  }

  ghost predicate Lists<T(!new)>(keys: seq<T>, all: set<T>)
  {
    |keys| == |all| && forall k :: k in keys <==> k in all
  }

  lemma InsertOrdered<T(!new)>(le: (T, T) -> bool, keys: seq<T>, p: nat, k: T)
    requires TotalOrder(le) && Ordered(le, keys) && p <= |keys| && k !in keys
    requires (p > 0 ==> le(keys[p - 1], k)) && (p < |keys| ==> le(k, keys[p]))
    ensures Ordered(le, keys[..p] + [k] + keys[p..])
  {
    var r := keys[..p] + [k] + keys[p..];
    forall i, j | 0 <= i < j < |r| ensures le(r[i], r[j]) && r[i] != r[j] {
      var i', j' := if i < p then i else i - 1, if j < p then j else j - 1;
      if i != p && j != p {
        assert r[i] == keys[i'] && r[j] == keys[j'];
      } else if j == p {
        assert r[i] == keys[i] && (i == p - 1 || le(keys[i], keys[p - 1]));
      } else {
        assert r[j] == keys[j - 1] && (j - 1 == p || le(keys[p], keys[j - 1]));
      }
    }
  }

  lemma InsertLists<T(!new)>(keys: seq<T>, p: nat, k: T, all: set<T>)
    requires Lists(keys, all) && p <= |keys| && k !in keys
    ensures Lists(keys[..p] + [k] + keys[p..], all + {k})
  {
    assert keys == keys[..p] + keys[p..];
  }

  /** One member more is dealt with. */
  lemma Moved<T(!new)>(all: set<T>, done: set<T>, rest: set<T>, k: T)
    requires done + rest == all && done !! rest && k in rest
    ensures (done + {k}) + (rest - {k}) == all && (done + {k}) !! (rest - {k})
  {
  }

  method PlaceFor<T(!new)>(keys: seq<T>, k: T, le: (T, T) -> bool) returns (p: nat)
    requires TotalOrder(le)
    ensures p <= |keys| && (p > 0 ==> le(keys[p - 1], k)) && (p < |keys| ==> le(k, keys[p]))
  {
    p := |keys|;
    while p > 0 && !le(keys[p - 1], k)
      invariant p <= |keys|
      invariant p < |keys| ==> le(k, keys[p])
    {
      p := p - 1;
    }
  }

  /** The members of a set, which are taken in any order, as an ordered list. */
  method SortSet<T(==, !new)>(all: set<T>, le: (T, T) -> bool) returns (keys: seq<T>)
    requires TotalOrder(le)
    ensures Ordered(le, keys) && Lists(keys, all)
  {
    keys := [];
    var rest := all;
    ghost var done: set<T> := {};
    while rest != {}
      invariant done + rest == all && done !! rest
      invariant Ordered(le, keys) && Lists(keys, done)
      decreases rest
    {
      var k :| k in rest;
      var p := PlaceFor(keys, k, le);
      InsertOrdered(le, keys, p, k);
      InsertLists(keys, p, k, done);
      keys := keys[..p] + [k] + keys[p..];
      Moved(all, done, rest, k);
      rest, done := rest - {k}, done + {k};
    }
    assert done == all;
  }
}
