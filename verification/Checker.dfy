/** The linearizability checker for one partition: a backtracking search over the linked
    list of entries, pruned by a cache of configurations. */
module Checker {
  import opened Collections
  import opened Wrappers
  import opened Linearizability
  import opened History
  import opened EntryList
  import opened OperationList
  import opened Bitset
  import opened Search
  import opened Odometer

  // ---------- The cache ----------

  datatype CacheEntry<S> = CacheEntry(linearized: seq<Word>, state: S)

  type Cache<S> = map<Word, seq<CacheEntry<S>>>

  ghost predicate CacheConsistent<S>(cache: Cache<S>, words: nat)
  {
    forall k, i :: k in cache && 0 <= i < |cache[k]| ==>
      |cache[k][i].linearized| == words && HashOf(cache[k][i].linearized) == k
  }

  /** The configurations in the cache, whatever bucket they are in. */
  ghost function Contents<S>(cache: Cache<S>): (r: set<(set<nat>, S)>)
  {
    set k, i | k in cache && 0 <= i < |cache[k]| :: (Members(cache[k][i].linearized), cache[k][i].state)
  }

  /** Looking into one bucket is as good as looking at every entry. */
  method CacheContains<S, V>(model: Model<S, V>, cache: Cache<S>, linearized: array<Word>, state: S)
    returns (found: bool)
    requires CacheConsistent(cache, linearized.Length)
    ensures found <==> exists t :: (Members(linearized[..]), t) in Contents(cache) && model.equal(state, t)
  {
    var hash := Hash(linearized);
    var bucket := if hash in cache then cache[hash] else [];
    for i := 0 to |bucket|
      invariant forall j :: 0 <= j < i ==>
        !(bucket[j].linearized == linearized[..] && model.equal(state, bucket[j].state))
    {
      var same := Equals(linearized, bucket[i].linearized);
      if same && model.equal(state, bucket[i].state) {
        assert (Members(linearized[..]), bucket[i].state) in Contents(cache);
        return true;
      }
    }
    NotInOtherBuckets(model, cache, linearized[..], state, bucket);
    return false;
  }

  lemma NotInOtherBuckets<S, V>(model: Model<S, V>, cache: Cache<S>, b: seq<Word>, state: S, bucket: seq<CacheEntry<S>>)
    requires CacheConsistent(cache, |b|)
    requires bucket == if HashOf(b) in cache then cache[HashOf(b)] else []
    requires forall j :: 0 <= j < |bucket| ==> !(bucket[j].linearized == b && model.equal(state, bucket[j].state))
    ensures !exists t :: (Members(b), t) in Contents(cache) && model.equal(state, t)
  {
    forall t | (Members(b), t) in Contents(cache) ensures !model.equal(state, t) {
      var k, i :| k in cache && 0 <= i < |cache[k]|
        && (Members(b), t) == (Members(cache[k][i].linearized), cache[k][i].state);
      SameMembers(b, cache[k][i].linearized);
      assert cache[k][i] == bucket[i];
    }
  }

  function Insert<S>(cache: Cache<S>, hash: Word, entry: CacheEntry<S>): (r: Cache<S>)
  {
    cache[hash := (if hash in cache then cache[hash] else []) + [entry]]
  }

  lemma InsertContents<S>(cache: Cache<S>, entry: CacheEntry<S>, words: nat)
    requires CacheConsistent(cache, words) && |entry.linearized| == words
    ensures CacheConsistent(Insert(cache, HashOf(entry.linearized), entry), words)
    ensures Contents(Insert(cache, HashOf(entry.linearized), entry)) ==
            Contents(cache) + {(Members(entry.linearized), entry.state)}
  {
    var hash := HashOf(entry.linearized);
    var cache' := Insert(cache, hash, entry);
    var config := (Members(entry.linearized), entry.state);
    forall d | d in Contents(cache) ensures d in Contents(cache') {
      var k, i :| k in cache && 0 <= i < |cache[k]| && d == (Members(cache[k][i].linearized), cache[k][i].state);
      assert cache'[k][i] == cache[k][i];
    }
    assert config in Contents(cache') by {
      var i := |cache'[hash]| - 1;
      assert cache'[hash][i] == entry;
    }
    forall d | d in Contents(cache') ensures d in Contents(cache) + {config} {
      var k, i :| k in cache' && 0 <= i < |cache'[k]| && d == (Members(cache'[k][i].linearized), cache'[k][i].state);
      if k in cache && i < |cache[k]| {
        assert cache'[k][i] == cache[k][i];
      } else {
        assert cache'[k][i] == entry;
      }
    }
  }

  // ---------- The state of the search ----------

  datatype CallsEntry<S, V> = CallsEntry(entry: Node<V>, state: S)

  ghost predicate CallsOk<S, V>(m: Model<S, V>, h: seq<Entry<V>>, ops: seq<Operation<V>>, nodes: map<int, Node<V>>,
                                path: seq<nat>, calls: seq<CallsEntry<S, V>>)
  {
    && |calls| == |path|
    && InRange(ops, path)
    && forall j :: 0 <= j < |path| ==>
         && CallPlace(h, path[j]) in nodes
         && calls[j].entry == nodes[CallPlace(h, path[j])]
         && calls[j].entry.id == path[j]
         && calls[j].state == Run(m, ops, m.init, path[..j])
  }

  /** The variables of the search describe the path. */
  ghost predicate Consistent<S, V>(m: Model<S, V>, h: seq<Entry<V>>, nodes: map<int, Node<V>>, path: seq<nat>,
                                   calls: seq<CallsEntry<S, V>>, state: S, linearized: array<Word>, cache: Cache<S>)
    requires WellFormed(h)
    reads nodes.Values, linearized
  {
    var ops := OpsOf(h);
    && GoodPath(m, ops, path)
    && HeapOk(h, nodes, path)
    && CallsOk(m, h, ops, nodes, path, calls)
    && state == Run(m, ops, m.init, path)
    && linearized.Length == (|ops| + 63) / 64 && Members(linearized[..]) == Ids(path)
    && CacheConsistent(cache, linearized.Length)
  }

  /** `entry` is a node of the list with only calls before it (null if the list is empty). */
  ghost predicate AtEntry<V>(h: seq<Entry<V>>, nodes: map<int, Node<V>>, path: seq<nat>, entry: Node?<V>)
  {
    && (|path| == |h| / 2 ==> entry == null)
    && (|path| < |h| / 2 ==>
          && entry != null
          && 0 <= entry.place && entry.place in Live(h, Ids(path))
          && entry.place in nodes && entry == nodes[entry.place]
          && forall q :: 0 <= q < entry.place && q in Live(h, Ids(path)) ==> h[q].kind == CallEntry)
  }

  ghost function PlaceOf<V>(h: seq<Entry<V>>, entry: Node?<V>): (r: int)
  {
    if entry == null then |h| else entry.place
  }

  /** What the search has found out so far; it relies on `equal` being sound. */
  ghost predicate Progress<S(!new), V>(m: Model<S, V>, ops: seq<Operation<V>>, path: seq<nat>, best: seq<nat>,
                                       cache: Cache<S>, place: int)
  {
    EqualIsSound(m, ops) ==> Inv(m, ops, path, best, Contents(cache)) && ScannedTo(m, ops, path, place, best)
  }

  // ---------- Where the search looks next ----------

  lemma OpsFacts<V>(h: seq<Entry<V>>)
    requires WellFormed(h)
    ensures var ops := OpsOf(h);
      && WellTimed(ops) && DistinctCalls(ops)
      && forall id :: 0 <= id < |ops| ==>
           0 <= ops[id].call == CallPlace(h, id) < ops[id].ret == ReturnPlace(h, id) < |h|
  {
    forall id: nat | id < |h| / 2 ensures Paired(h, id) {
    }
  }

  lemma SomeOpen<V>(h: seq<Entry<V>>, path: seq<nat>) returns (id: nat)
    requires WellFormed(h) && NoDup(path) && IdsBelow(path, |h| / 2) && |path| < |h| / 2
    ensures id < |h| / 2 && id !in path && Paired(h, id)
  {
    assert Ids(path) <= Below(|h| / 2);
    Pigeonhole(path, |h| / 2);
    id :| id in Below(|h| / 2) && id !in Ids(path);
    assert Paired(h, id);
  }

  /** The path is as long as the history exactly when the list is empty. */
  lemma LiveEmpty<V>(h: seq<Entry<V>>, path: seq<nat>)
    requires WellFormed(h) && NoDup(path) && IdsBelow(path, |h| / 2)
    ensures |path| <= |h| / 2
    ensures |path| == |h| / 2 <==> Live(h, Ids(path)) == {-1}
  {
    assert Ids(path) <= Below(|h| / 2);
    Pigeonhole(path, |h| / 2);
    if |path| < |h| / 2 {
      var id := SomeOpen(h, path);
      assert CallPlace(h, id) in Live(h, Ids(path));
    } else {
      forall p | 0 <= p < |h| ensures p !in Live(h, Ids(path)) {
        assert EntryOk(h, p) && h[p].id in Below(|h| / 2);
      }
    }
  }

  /** A node found by following `next` from p is a place to look at next. */
  lemma NextIsAtEntry<V>(h: seq<Entry<V>>, nodes: map<int, Node<V>>, path: seq<nat>, p: int, next: Node?<V>)
    requires WellFormed(h) && NoDup(path) && IdsBelow(path, |h| / 2)
    requires IsNext(nodes, Live(h, Ids(path)), p, next) && -1 <= p
    requires forall q :: 0 <= q <= p && q in Live(h, Ids(path)) ==> h[q].kind == CallEntry
    ensures AtEntry(h, nodes, path, next)
    ensures NothingBetween(OpsOf(h), Ids(path), p, PlaceOf(h, next))
  {
    OpsFacts(h);
    LiveEmpty(h, path);
    var live, ops := Live(h, Ids(path)), OpsOf(h);
    if |path| < |h| / 2 {
      var id := SomeOpen(h, path);
      assert ReturnPlace(h, id) in live;
    }
    forall id: nat | id < |ops| && id !in Ids(path) && ops[id].call < PlaceOf(h, next) ensures ops[id].call <= p {
      assert Paired(h, id) && CallPlace(h, id) in live;
    }
  }

  /** A call with only calls before it is enabled. */
  lemma CallEnabled<V>(h: seq<Entry<V>>, path: seq<nat>, p: int)
    requires WellFormed(h) && 0 <= p && p in Live(h, Ids(path)) && h[p].kind == CallEntry
    requires forall q :: 0 <= q < p && q in Live(h, Ids(path)) ==> h[q].kind == CallEntry
    ensures Enabled(OpsOf(h), Ids(path), h[p].id) && OpsOf(h)[h[p].id].call == p
  {
    OpsFacts(h);
    var ops := OpsOf(h);
    assert EntryOk(h, p);
    forall b: nat | Precedes(ops, b, h[p].id) ensures b in Ids(path) {
      assert ops[b].ret == ReturnPlace(h, b) && Paired(h, b);
    }
  }

  /** And the other way round. */
  lemma EnabledCallsBefore<V>(h: seq<Entry<V>>, done: set<nat>, c: nat)
    requires WellFormed(h) && Enabled(OpsOf(h), done, c)
    ensures forall q :: 0 <= q <= CallPlace(h, c) && q in Live(h, done) ==> h[q].kind == CallEntry
  {
    OpsFacts(h);
    var ops := OpsOf(h);
    assert Paired(h, c);
    forall q | 0 <= q <= CallPlace(h, c) && q in Live(h, done) ensures h[q].kind == CallEntry {
      var b := h[q].id;
      assert EntryOk(h, q);
      assert !Precedes(ops, b, c);
    }
  }

  // ---------- The search ----------

  lemma CallsPush<S, V>(m: Model<S, V>, h: seq<Entry<V>>, ops: seq<Operation<V>>, nodes: map<int, Node<V>>,
                        path: seq<nat>, calls: seq<CallsEntry<S, V>>, call: CallsEntry<S, V>, c: nat)
    requires CallsOk(m, h, ops, nodes, path, calls) && c < |ops|
    requires CallPlace(h, c) in nodes && call.entry == nodes[CallPlace(h, c)] && call.entry.id == c
    requires call.state == Run(m, ops, m.init, path)
    ensures CallsOk(m, h, ops, nodes, path + [c], calls + [call])
  {
    var path' := path + [c];
    forall j | 0 <= j < |path'| ensures (calls + [call])[j].state == Run(m, ops, m.init, path'[..j]) {
      assert path'[..j] == path[..j];
      assert path[..|path|] == path;
    }
  }

  lemma SkipProgress<S(!new), V>(m: Model<S, V>, ops: seq<Operation<V>>, path: seq<nat>, best: seq<nat>,
                                 cache: Cache<S>, c: nat, t: S)
    requires DistinctCalls(ops) && GoodPath(m, ops, path) && c < |ops| && c !in path
    requires Progress(m, ops, path, best, cache, ops[c].call)
    requires (Ids(path) + {c}, t) in Contents(cache) && m.equal(StepState(m, ops, Run(m, ops, m.init, path), c), t)
    ensures forall limit :: NothingBetween(ops, Ids(path), ops[c].call, limit) ==>
      Progress(m, ops, path, best, cache, limit)
  {
    if EqualIsSound(m, ops) {
      forall limit | NothingBetween(ops, Ids(path), ops[c].call, limit) ensures ScannedTo(m, ops, path, limit, best) {
        InvSkipCached(m, ops, path, best, Contents(cache), c, t, limit);
      }
    }
  }

  lemma IllegalProgress<S(!new), V>(m: Model<S, V>, ops: seq<Operation<V>>, path: seq<nat>, best: seq<nat>,
                                    cache: Cache<S>, c: nat)
    requires DistinctCalls(ops) && GoodPath(m, ops, path) && c < |ops| && !StepOk(m, ops, Run(m, ops, m.init, path), c)
    requires Progress(m, ops, path, best, cache, ops[c].call)
    ensures forall limit :: NothingBetween(ops, Ids(path), ops[c].call, limit) ==>
      Progress(m, ops, path, best, cache, limit)
  {
    if EqualIsSound(m, ops) {
      forall limit | NothingBetween(ops, Ids(path), ops[c].call, limit) ensures ScannedTo(m, ops, path, limit, best) {
        InvSkipIllegal(m, ops, path, best, c, limit);
      }
    }
  }

  lemma TakeProgress<S(!new), V>(m: Model<S, V>, ops: seq<Operation<V>>, path: seq<nat>, best: seq<nat>,
                                 cache: Cache<S>, c: nat, entry: CacheEntry<S>, words: nat)
    requires GoodPath(m, ops, path) && Enabled(ops, Ids(path), c) && StepOk(m, ops, Run(m, ops, m.init, path), c)
    requires Progress(m, ops, path, best, cache, ops[c].call)
    requires CacheConsistent(cache, words) && |entry.linearized| == words
    requires Members(entry.linearized) == Ids(path) + {c}
    requires entry.state == StepState(m, ops, Run(m, ops, m.init, path), c)
    ensures var cache' := Insert(cache, HashOf(entry.linearized), entry);
      && CacheConsistent(cache', words)
      && GoodPath(m, ops, path + [c])
      && (EqualIsSound(m, ops) ==> Inv(m, ops, path + [c], best, Contents(cache')))
  {
    GoodPathPush(m, ops, path, c);
    InsertContents(cache, entry, words);
    if EqualIsSound(m, ops) {
      InvPush(m, ops, path, best, Contents(cache), c);
    }
  }

  /** Is the configuration reached by taking operation id in the cache? */
  method LookUp<S, V>(model: Model<S, V>, linearized: array<Word>, id: nat, newState: S, cache: Cache<S>)
    returns (seen: bool, newLinearized: array<Word>)
    requires CacheConsistent(cache, linearized.Length) && id < 64 * linearized.Length
    ensures fresh(newLinearized) && newLinearized.Length == linearized.Length
    ensures Members(newLinearized[..]) == Members(linearized[..]) + {id}
    ensures seen <==> exists t :: (Members(linearized[..]) + {id}, t) in Contents(cache) && model.equal(newState, t)
  {
    newLinearized := Clone(linearized);
    Set(newLinearized, id);
    seen := CacheContains(model, cache, newLinearized, newState);
  }

  ghost predicate HeapOk<V>(h: seq<Entry<V>>, nodes: map<int, Node<V>>, path: seq<nat>)
    reads nodes.Values
  {
    ListOk(h, nodes, Ids(path)) && StackOk(h, nodes, path)
  }

  /** The search is at a call c that the state allows: should c be taken?  If so, the
      configuration it leads to is put into the cache. */
  method Remember<S(!new), V>(model: Model<S, V>, id: nat, state: S, newState: S, linearized: array<Word>,
                              cache: Cache<S>, ghost ops: seq<Operation<V>>, ghost path: seq<nat>, ghost best: seq<nat>)
    returns (taken: bool, cache': Cache<S>)
    requires GoodPath(model, ops, path) && Enabled(ops, Ids(path), id) && DistinctCalls(ops)
    requires linearized.Length == (|ops| + 63) / 64 && Members(linearized[..]) == Ids(path)
    requires CacheConsistent(cache, linearized.Length)
    requires state == Run(model, ops, model.init, path)
    requires StepOk(model, ops, state, id) && newState == StepState(model, ops, state, id)
    requires Progress(model, ops, path, best, cache, ops[id].call)
    ensures CacheConsistent(cache', linearized.Length)
    ensures taken ==> GoodPath(model, ops, path + [id])
    ensures taken && EqualIsSound(model, ops) ==> Inv(model, ops, path + [id], best, Contents(cache'))
    ensures !taken ==> forall limit :: NothingBetween(ops, Ids(path), ops[id].call, limit) ==>
                                         Progress(model, ops, path, best, cache', limit)
  {
    var seen, newLinearized := LookUp(model, linearized, id, newState, cache);
    if seen {
      ghost var t :| (Ids(path) + {id}, t) in Contents(cache) && model.equal(newState, t);
      SkipProgress(model, ops, path, best, cache, id, t);
      return false, cache;
    }
    var hash := Hash(newLinearized);
    var newCacheEntry := CacheEntry(newLinearized[..], newState);
    TakeProgress(model, ops, path, best, cache, id, newCacheEntry, linearized.Length);
    return true, Insert(cache, hash, newCacheEntry);
  }

  // ---------- Longest partial linearizations ----------

  /** longest[id] is a partial linearization through id of the recorded length. */
  ghost predicate LongestOk<S, V>(m: Model<S, V>, ops: seq<Operation<V>>, longest: seq<Option<seq<nat>>>,
                                  best: seq<nat>)
  {
    && |longest| == |best| == |ops|
    && forall id :: 0 <= id < |ops| ==>
         && (longest[id] == None <==> best[id] == 0)
         && (longest[id].Some? ==> |longest[id].value| == best[id] && id in longest[id].value
                                   && IsPartial(m, ops, longest[id].value))
  }

  method PathOf<S, V>(calls: seq<CallsEntry<S, V>>, ghost path: seq<nat>) returns (ids: seq<nat>)
    requires |calls| == |path| && forall j :: 0 <= j < |path| ==> calls[j].entry.id == path[j]
    ensures ids == path
  {
    ids := [];
    for j := 0 to |calls|
      invariant ids == path[..j]
    {
      ids := ids + [calls[j].entry.id];
    }
  }

  method UpdateLongest<S, V>(calls: seq<CallsEntry<S, V>>, longest: seq<Option<seq<nat>>>, ghost model: Model<S, V>,
                             ghost ops: seq<Operation<V>>, ghost path: seq<nat>, ghost best: seq<nat>)
    returns (longest': seq<Option<seq<nat>>>)
    requires |calls| == |path| && forall j :: 0 <= j < |path| ==> calls[j].entry.id == path[j]
    requires GoodPath(model, ops, path) && LongestOk(model, ops, longest, best)
    ensures LongestOk(model, ops, longest', Recorded(best, path))
  {
    PartialIsExtension(model, ops, path);
    var callsLen := |calls|;
    var ids: Option<seq<nat>> := None;
    longest' := longest;
    for j := 0 to |calls|
      invariant ids == None || ids == Some(path)
      invariant LongestOk(model, ops, longest', RecordedUpTo(best, path, j))
    {
      var id := calls[j].entry.id;
      if longest'[id] == None || callsLen > |longest'[id].value| {
        if ids == None {
          var s := PathOf(calls, path);
          ids := Some(s);
        }
        longest' := longest'[id := ids];
      }
      assert path[..j + 1] == path[..j] + [path[j]];
    }
    assert path[..|path|] == path;
    assert RecordedUpTo(best, path, |path|) == Recorded(best, path);
  }

  /** The lengths after recording the path for its first j operations. */
  ghost function RecordedUpTo(best: seq<nat>, path: seq<nat>, j: nat): (r: seq<nat>)
    requires j <= |path|
    ensures |r| == |best|
    ensures forall id :: 0 <= id < |best| ==> r[id] == if id in path[..j] && best[id] < |path| then |path| else best[id]
  {
    seq(|best|, id requires 0 <= id < |best| => if id in path[..j] && best[id] < |path| then |path| else best[id])
  }

  // ---------- Going back ----------

  lemma BackProgress<S(!new), V>(m: Model<S, V>, ops: seq<Operation<V>>, path: seq<nat>, best: seq<nat>,
                                 cache: Cache<S>, b: nat)
    requires DistinctCalls(ops) && GoodPath(m, ops, path) && path != [] && b < |ops| && b !in path
    requires ShortOnly(best, |ops|) && Progress(m, ops, path, best, cache, ops[b].ret)
    requires forall id :: 0 <= id < |ops| ==> ops[id].call != ops[b].ret
    ensures var k := |path| - 1;
      && GoodPath(m, ops, path[..k])
      && ShortOnly(Recorded(best, path), |ops|)
      && forall limit :: NothingBetween(ops, Ids(path[..k]), ops[path[k]].call, limit) ==>
           Progress(m, ops, path[..k], Recorded(best, path), cache, limit)
  {
    GoodPathPop(m, ops, path);
    ShortPath(ops, path, b);
    if EqualIsSound(m, ops) {
      var k := |path| - 1;
      forall limit | NothingBetween(ops, Ids(path[..k]), ops[path[k]].call, limit)
        ensures Progress(m, ops, path[..k], Recorded(best, path), cache, limit)
      {
        InvPop(m, ops, path, best, Contents(cache), b, limit);
      }
    }
  }

  // ---------- Termination ----------

  ghost function Digits<V>(ops: seq<Operation<V>>, path: seq<nat>): (r: seq<nat>)
    requires InRange(ops, path) && forall id :: 0 <= id < |ops| ==> 0 <= ops[id].call
    ensures |r| == |path|
    ensures forall j :: 0 <= j < |path| ==> r[j] == ops[path[j]].call + 1
  {
    seq(|path|, j requires 0 <= j < |path| => ops[path[j]].call + 1)
  }

  /** How far the odometer is from its end: its digits are the places of the path and the
      place looked at. */
  ghost function Remaining<V>(h: seq<Entry<V>>, path: seq<nat>, place: nat): (r: int)
    requires WellFormed(h) && InRange(OpsOf(h), path) && |path| <= |h| / 2
  {
    OpsFacts(h);
    var n, base := |h| / 2 + 1, |h| + 2;
    Pow(base, n) - Reading(Digits(OpsOf(h), path) + [place + 1], n, base)
  }

  lemma RemainingBound<V>(h: seq<Entry<V>>, path: seq<nat>, place: nat)
    requires WellFormed(h) && InRange(OpsOf(h), path) && |path| <= |h| / 2 && place <= |h|
    ensures Remaining(h, path, place) > 0
  {
    OpsFacts(h);
    ReadingBound(Digits(OpsOf(h), path) + [place + 1], |h| / 2 + 1, |h| + 2);
  }

  lemma RemainingSkip<V>(h: seq<Entry<V>>, path: seq<nat>, place: nat, place': nat)
    requires WellFormed(h) && InRange(OpsOf(h), path) && |path| <= |h| / 2 && place < place'
    ensures Remaining(h, path, place') < Remaining(h, path, place)
  {
    OpsFacts(h);
    var d := Digits(OpsOf(h), path);
    assert d + [place + 1] + [] == d + [place + 1];
    ReadingIncreases(d, place + 1, [], place' + 1, |h| / 2 + 1, |h| + 2);
  }

  lemma RemainingTake<V>(h: seq<Entry<V>>, path: seq<nat>, c: nat, place': nat)
    requires WellFormed(h) && InRange(OpsOf(h), path) && c < |h| / 2 && |path| < |h| / 2
    ensures Remaining(h, path + [c], place') < Remaining(h, path, OpsOf(h)[c].call)
  {
    OpsFacts(h);
    var ops := OpsOf(h);
    var d := Digits(ops, path) + [ops[c].call + 1];
    assert Digits(ops, path + [c]) == d;
    ReadingExtends(d, place' + 1, |h| / 2 + 1, |h| + 2);
  }

  lemma RemainingBack<V>(h: seq<Entry<V>>, path: seq<nat>, place: nat, place': nat)
    requires WellFormed(h) && InRange(OpsOf(h), path) && path != [] && |path| <= |h| / 2 && place <= |h|
    requires OpsOf(h)[path[|path| - 1]].call < place'
    ensures Remaining(h, path[..|path| - 1], place') < Remaining(h, path, place)
  {
    OpsFacts(h);
    var ops, k := OpsOf(h), |path| - 1;
    var d, a := Digits(ops, path[..k]), ops[path[k]].call + 1;
    assert Digits(ops, path) == d + [a];
    ReadingIncreases(d, a, [place + 1], place' + 1, |h| / 2 + 1, |h| + 2);
  }

  // ---------- One step of the search ----------

  lemma NodeKind<V>(h: seq<Entry<V>>, nodes: map<int, Node<V>>, p: nat)
    requires WellFormed(h) && RepresentsFrom(h, 0, nodes) && p < |h|
    ensures EntryOk(h, p) && p in nodes && nodes[p].id == h[p].id && nodes[p].value == Some(h[p].value)
    ensures nodes[p].matching != null <==> h[p].kind == CallEntry
    ensures h[p].kind == CallEntry ==>
              var op := OpsOf(h)[h[p].id]; nodes[p].matching.value == Some(op.output) && h[p].value == op.input
  {
    OpsFacts(h);
    assert Represents(h, nodes, p);
    assert EntryOk(h, p);
    if h[p].kind == CallEntry {
      CallMatches(h, nodes, h[p].id);
      assert Represents(h, nodes, ReturnPlace(h, h[p].id));
    }
  }

  lemma FreshProgress<S(!new), V>(m: Model<S, V>, ops: seq<Operation<V>>, path: seq<nat>, best: seq<nat>,
                                  cache: Cache<S>, place: int)
    requires EqualIsSound(m, ops) ==> Inv(m, ops, path, best, Contents(cache))
    requires InRange(ops, path) && NothingBetween(ops, Ids(path), -1, place)
    requires forall id :: 0 <= id < |ops| ==> 0 <= ops[id].call
    ensures Progress(m, ops, path, best, cache, place)
  {
    ScannedNothing(m, ops, Ids(path), Run(m, ops, m.init, path), place, best);
  }

  /** Where the search looks next after the path has changed. */
  lemma RestartAt<S(!new), V>(m: Model<S, V>, h: seq<Entry<V>>, nodes: map<int, Node<V>>, path: seq<nat>,
                              best: seq<nat>, cache: Cache<S>)
    requires WellFormed(h) && GoodPath(m, OpsOf(h), path) && HeapOk(h, nodes, path)
    requires EqualIsSound(m, OpsOf(h)) ==> Inv(m, OpsOf(h), path, best, Contents(cache))
    ensures -1 in nodes && |path| <= |h| / 2
    ensures var next := nodes[-1].next;
      AtEntry(h, nodes, path, next) && Progress(m, OpsOf(h), path, best, cache, PlaceOf(h, next))
      && 0 <= PlaceOf(h, next) <= |h|
  {
    OpsFacts(h);
    LiveEmpty(h, path);
    assert LinksAt(nodes, Live(h, Ids(path)), -1);
    NextIsAtEntry(h, nodes, path, -1, nodes[-1].next);
    FreshProgress(m, OpsOf(h), path, best, cache, PlaceOf(h, nodes[-1].next));
  }

  lemma NextAt<V>(h: seq<Entry<V>>, nodes: map<int, Node<V>>, path: seq<nat>, p: int)
    requires WellFormed(h) && InRange(OpsOf(h), path) && NoDup(path) && HeapOk(h, nodes, path)
    requires 0 <= p && p in Live(h, Ids(path))
    requires forall q :: 0 <= q <= p && q in Live(h, Ids(path)) ==> h[q].kind == CallEntry
    ensures p in nodes && |path| <= |h| / 2
    ensures var next := nodes[p].next;
      && AtEntry(h, nodes, path, next)
      && NothingBetween(OpsOf(h), Ids(path), p, PlaceOf(h, next))
      && p < PlaceOf(h, next) <= |h|
  {
    LiveEmpty(h, path);
    assert LinksAt(nodes, Live(h, Ids(path)), p);
    NextIsAtEntry(h, nodes, path, p, nodes[p].next);
  }

  /** Takes operation c: it goes into the bitset and out of the list. */
  method Take<V>(entry: Node<V>, linearized: array<Word>,
                 ghost h: seq<Entry<V>>, ghost nodes: map<int, Node<V>>, ghost path: seq<nat>, ghost c: nat)
    requires WellFormed(h) && c < |h| / 2 && c !in path && IdsBelow(path, |h| / 2) && HeapOk(h, nodes, path)
    requires CallPlace(h, c) in nodes && entry == nodes[CallPlace(h, c)] && entry.id == c
    requires linearized.Length == (|h| / 2 + 63) / 64 && Members(linearized[..]) == Ids(path)
    modifies nodes.Values, linearized
    ensures HeapOk(h, nodes, path + [c]) && Members(linearized[..]) == Ids(path + [c])
  {
    assert Ids(path + [c]) == Ids(path) + {c};
    Set(linearized, entry.id);
    TakeOut(entry, h, nodes, path, c);
  }

  /** Undoes the last operation of the path. */
  method Undo<V>(entry: Node<V>, linearized: array<Word>,
                 ghost h: seq<Entry<V>>, ghost nodes: map<int, Node<V>>, ghost path: seq<nat>)
    requires WellFormed(h) && path != [] && IdsBelow(path, |h| / 2) && NoDup(path) && HeapOk(h, nodes, path)
    requires CallPlace(h, path[|path| - 1]) in nodes && entry == nodes[CallPlace(h, path[|path| - 1])]
    requires entry.id == path[|path| - 1]
    requires linearized.Length == (|h| / 2 + 63) / 64 && Members(linearized[..]) == Ids(path)
    modifies nodes.Values, linearized
    ensures HeapOk(h, nodes, path[..|path| - 1]) && Members(linearized[..]) == Ids(path[..|path| - 1])
  {
    ghost var k := |path| - 1;
    assert path == path[..k] + [path[k]];
    assert Ids(path[..k]) == Ids(path) - {path[k]};
    Clear(linearized, entry.id);
    PutBack(entry, h, nodes, path);
  }

  /** The search is at a call node: what it stands for and what comes next. */
  lemma AtCall<V>(h: seq<Entry<V>>, nodes: map<int, Node<V>>, path: seq<nat>, entry: Node<V>) returns (c: nat)
    requires WellFormed(h) && NoDup(path) && InRange(OpsOf(h), path) && HeapOk(h, nodes, path)
    requires |path| < |h| / 2 && AtEntry(h, nodes, path, entry) && entry.matching != null
    ensures var ops := OpsOf(h);
      && DistinctCalls(ops) && Enabled(ops, Ids(path), c) && c !in path
      && ops[c].call == entry.place && entry.id == c
      && CallPlace(h, c) in nodes && entry == nodes[CallPlace(h, c)]
      && entry.value == Some(ops[c].input) && entry.matching.value == Some(ops[c].output)
      && AtEntry(h, nodes, path, entry.next)
      && NothingBetween(ops, Ids(path), ops[c].call, PlaceOf(h, entry.next))
      && 0 <= entry.place < PlaceOf(h, entry.next) <= |h|
  {
    OpsFacts(h);
    NodeKind(h, nodes, entry.place);
    c := h[entry.place].id;
    CallEnabled(h, path, entry.place);
    NextAt(h, nodes, path, entry.place);
  }

  /** The loop invariant. */
  ghost predicate SearchInv<S(!new), V>(m: Model<S, V>, h: seq<Entry<V>>, nodes: map<int, Node<V>>, path: seq<nat>,
                                        best: seq<nat>, calls: seq<CallsEntry<S, V>>, state: S, linearized: array<Word>,
                                        cache: Cache<S>, entry: Node?<V>)
    requires WellFormed(h)
    reads nodes.Values, linearized
  {
    && Consistent(m, h, nodes, path, calls, state, linearized, cache)
    && AtEntry(h, nodes, path, entry)
    && |path| <= |h| / 2
    && 0 <= PlaceOf(h, entry) <= |h|
    && ShortOnly(best, |h| / 2)
    && Progress(m, OpsOf(h), path, best, cache, PlaceOf(h, entry))
  }

  /** Operation c has been taken: the search starts over at the head of the list. */
  lemma AfterTake<S(!new), V>(m: Model<S, V>, h: seq<Entry<V>>, nodes: map<int, Node<V>>, path: seq<nat>,
                              best: seq<nat>,
                              calls: seq<CallsEntry<S, V>>, state: S, linearized: array<Word>, cache: Cache<S>, c: nat)
    requires WellFormed(h) && InRange(OpsOf(h), path) && c < |h| / 2 && |path| < |h| / 2 && ShortOnly(best, |h| / 2)
    requires Consistent(m, h, nodes, path + [c], calls, state, linearized, cache)
    requires EqualIsSound(m, OpsOf(h)) ==> Inv(m, OpsOf(h), path + [c], best, Contents(cache))
    ensures -1 in nodes
    ensures SearchInv(m, h, nodes, path + [c], best, calls, state, linearized, cache, nodes[-1].next)
    ensures Remaining(h, path + [c], PlaceOf(h, nodes[-1].next)) < Remaining(h, path, OpsOf(h)[c].call)
  {
    RestartAt(m, h, nodes, path + [c], best, cache);
    RemainingTake(h, path, c, PlaceOf(h, nodes[-1].next));
  }

  /** The call at `entry` has been passed over: the search goes on at the next node. */
  lemma AfterSkip<S(!new), V>(m: Model<S, V>, h: seq<Entry<V>>, nodes: map<int, Node<V>>, path: seq<nat>,
                              best: seq<nat>,
                              calls: seq<CallsEntry<S, V>>, state: S, linearized: array<Word>, cache: Cache<S>,
                              cache': Cache<S>, entry: Node<V>, next: Node?<V>)
    requires WellFormed(h) && SearchInv(m, h, nodes, path, best, calls, state, linearized, cache, entry)
    requires AtEntry(h, nodes, path, next) && 0 <= entry.place < PlaceOf(h, next) <= |h| && |path| < |h| / 2
    requires CacheConsistent(cache', linearized.Length)
    requires Progress(m, OpsOf(h), path, best, cache', PlaceOf(h, next))
    ensures SearchInv(m, h, nodes, path, best, calls, state, linearized, cache', next)
    ensures Remaining(h, path, PlaceOf(h, next)) < Remaining(h, path, entry.place)
  {
    RemainingSkip(h, path, entry.place, PlaceOf(h, next));
  }

  /** Takes operation c, which has just been put into the cache and on the stack of calls. */
  method TakeCall<S(!new), V>(ghost model: Model<S, V>, entry: Node<V>, headEntry: Node<V>,
                              ghost calls: seq<CallsEntry<S, V>>, ghost state: S, linearized: array<Word>,
                              ghost cache: Cache<S>, ghost h: seq<Entry<V>>, ghost nodes: map<int, Node<V>>,
                              ghost path: seq<nat>, ghost best: seq<nat>, ghost c: nat)
    returns (entry': Node?<V>)
    requires WellFormed(h) && -1 in nodes && headEntry == nodes[-1] && |path| < |h| / 2 && ShortOnly(best, |h| / 2)
    requires Consistent(model, h, nodes, path, calls, state, linearized, cache)
    requires c < |h| / 2 && c !in path && entry.id == c && CallPlace(h, c) in nodes && entry == nodes[CallPlace(h, c)]
    requires GoodPath(model, OpsOf(h), path + [c])
    requires EqualIsSound(model, OpsOf(h)) ==> Inv(model, OpsOf(h), path + [c], best, Contents(cache))
    modifies nodes.Values, linearized
    ensures SearchInv(model, h, nodes, path + [c], best, calls + [CallsEntry(entry, state)],
                      StepState(model, OpsOf(h), state, c), linearized, cache, entry')
    ensures Remaining(h, path + [c], PlaceOf(h, entry')) < Remaining(h, path, OpsOf(h)[c].call)
  {
    ghost var calls', state' := calls + [CallsEntry(entry, state)], StepState(model, OpsOf(h), state, c);
    CallsPush(model, h, OpsOf(h), nodes, path, calls, CallsEntry(entry, state), c);
    PathFacts(model, OpsOf(h), path, c);
    Take(entry, linearized, h, nodes, path, c);
    entry' := headEntry.next;
    AfterTake(model, h, nodes, path, best, calls', state', linearized, cache, c);
  }

  /** The loop iteration at a call node. */
  method TryCall<S(!new), V>(model: Model<S, V>, entry: Node<V>, headEntry: Node<V>, calls: seq<CallsEntry<S, V>>,
                             state: S, linearized: array<Word>, cache: Cache<S>,
                             ghost h: seq<Entry<V>>, ghost nodes: map<int, Node<V>>, ghost path: seq<nat>,
                             ghost best: seq<nat>)
    returns (entry': Node?<V>, calls': seq<CallsEntry<S, V>>, state': S, cache': Cache<S>, ghost path': seq<nat>)
    requires WellFormed(h) && SearchInv(model, h, nodes, path, best, calls, state, linearized, cache, entry)
    requires |path| < |h| / 2 && entry.matching != null && -1 in nodes && headEntry == nodes[-1]
    modifies nodes.Values, linearized
    ensures SearchInv(model, h, nodes, path', best, calls', state', linearized, cache', entry')
    ensures Remaining(h, path', PlaceOf(h, entry')) < Remaining(h, path, entry.place)
  {
    ghost var ops := OpsOf(h);
    ghost var c := AtCall(h, nodes, path, entry);
    var (ok, newState) := model.step(state, entry.value.value, entry.matching.value.value);
    entry', calls', state', cache', path' := entry.next, calls, state, cache, path;
    if ok {
      var taken;
      taken, cache' := Remember(model, entry.id, state, newState, linearized, cache, ops, path, best);
      if taken {
        path' := path + [c];
        calls', state' := calls + [CallsEntry(entry, state)], newState;
        entry' := TakeCall(model, entry, headEntry, calls, state, linearized, cache', h, nodes, path, best, c);
        return;
      }
    } else {
      IllegalProgress(model, ops, path, best, cache, c);
    }
    AfterSkip(model, h, nodes, path, best, calls, state, linearized, cache, cache', entry, entry');
  }

  lemma CallsPop<S, V>(m: Model<S, V>, h: seq<Entry<V>>, ops: seq<Operation<V>>, nodes: map<int, Node<V>>,
                       path: seq<nat>, calls: seq<CallsEntry<S, V>>)
    requires CallsOk(m, h, ops, nodes, path, calls) && path != []
    ensures var k := |path| - 1;
      && CallsOk(m, h, ops, nodes, path[..k], calls[..k])
      && CallPlace(h, path[k]) in nodes && calls[k].entry == nodes[CallPlace(h, path[k])]
      && calls[k].entry.id == path[k] && calls[k].state == Run(m, ops, m.init, path[..k])
  {
    var k := |path| - 1;
    forall j | 0 <= j < k ensures path[..k][..j] == path[..j] {
    }
  }

  /** The search is at a return node: what is known once the path has been recorded and its
      last operation undone. */
  lemma AtReturn<S(!new), V>(m: Model<S, V>, h: seq<Entry<V>>, nodes: map<int, Node<V>>, path: seq<nat>, best: seq<nat>,
                             cache: Cache<S>, entry: Node<V>)
    requires WellFormed(h) && GoodPath(m, OpsOf(h), path) && HeapOk(h, nodes, path) && path != []
    requires |path| < |h| / 2 && AtEntry(h, nodes, path, entry) && entry.matching == null
    requires Progress(m, OpsOf(h), path, best, cache, entry.place) && ShortOnly(best, |h| / 2)
    ensures var k := |path| - 1; var ops := OpsOf(h);
      && GoodPath(m, ops, path[..k]) && path[k] < |h| / 2
      && 0 <= CallPlace(h, path[k]) < |h| && CallPlace(h, path[k]) in Live(h, Ids(path[..k]))
      && CallPlace(h, path[k]) == ops[path[k]].call
      && ShortOnly(Recorded(best, path), |ops|)
      && (forall q :: 0 <= q <= CallPlace(h, path[k]) && q in Live(h, Ids(path[..k])) ==> h[q].kind == CallEntry)
      && (forall limit :: NothingBetween(ops, Ids(path[..k]), ops[path[k]].call, limit) ==>
           Progress(m, ops, path[..k], Recorded(best, path), cache, limit))
  {
    var ops, p, k := OpsOf(h), entry.place, |path| - 1;
    OpsFacts(h);
    NodeKind(h, nodes, p);
    BackProgress(m, ops, path, best, cache, h[p].id);
    BackFacts(m, ops, path);
    EnabledCallsBefore(h, Ids(path[..k]), path[k]);
    assert Paired(h, path[k]);
  }

  /** The loop iteration at a return node when some operation has been taken. */
  method Backtrack<S(!new), V>(model: Model<S, V>, calls: seq<CallsEntry<S, V>>, linearized: array<Word>,
                               ghost cache: Cache<S>, ghost entry: Node<V>, ghost state: S,
                               ghost h: seq<Entry<V>>, ghost nodes: map<int, Node<V>>, ghost path: seq<nat>,
                               ghost best: seq<nat>)
    returns (entry': Node?<V>, calls': seq<CallsEntry<S, V>>, state': S)
    requires WellFormed(h) && SearchInv(model, h, nodes, path, best, calls, state, linearized, cache, entry)
    requires |path| < |h| / 2 && entry.matching == null && calls != []
    modifies nodes.Values, linearized
    ensures path != []
    ensures SearchInv(model, h, nodes, path[..|path| - 1], Recorded(best, path), calls', state', linearized, cache,
                      entry')
    ensures Remaining(h, path[..|path| - 1], PlaceOf(h, entry')) < Remaining(h, path, entry.place)
  {
    ghost var ops, k := OpsOf(h), |path| - 1;
    AtReturn(model, h, nodes, path, best, cache, entry);
    CallsPop(model, h, ops, nodes, path, calls);
    var callsTop := calls[|calls| - 1];
    calls', state' := calls[..|calls| - 1], callsTop.state;
    Undo(callsTop.entry, linearized, h, nodes, path);
    NextAt(h, nodes, path[..k], CallPlace(h, path[k]));
    entry' := callsTop.entry.next;
    RemainingBack(h, path, entry.place, PlaceOf(h, entry'));
  }

  lemma BackFacts<S, V>(m: Model<S, V>, ops: seq<Operation<V>>, path: seq<nat>)
    requires GoodPath(m, ops, path) && path != []
    ensures var k := |path| - 1;
      && path == path[..k] + [path[k]]
      && Ids(path[..k]) == Ids(path) - {path[k]}
      && Enabled(ops, Ids(path[..k]), path[k])
  {
    var k := |path| - 1;
    var path', c := path[..k], path[k];
    assert path == path' + [c];
    ExtendsAppend(m, ops, {}, m.init, path', [c]);
    assert {} + Ids(path') == Ids(path');
    assert Ids(path) == Ids(path') + {c};
  }

  // ---------- The checker ----------

  /** Builds the list with its head. */
  method Setup<V>(history: seq<Entry<V>>)
    returns (entry: Node?<V>, headEntry: Node<V>, n: nat, ghost nodes: map<int, Node<V>>)
    requires WellFormed(history)
    ensures n == |history| / 2 && fresh(nodes.Values)
    ensures HeapOk(history, nodes, []) && headEntry == nodes[-1] && entry == headEntry.next
  {
    ghost var nodes0;
    entry, nodes0 := MakeLinkedEntries(history);
    var l := Length(entry, nodes0, history);
    n := l / 2;
    headEntry := new Node(None, null, -1, -1);
    var _ := InsertBefore(headEntry, entry, nodes0, nodes0.Keys);
    nodes := nodes0[-1 := headEntry];
    assert nodes.Values <= nodes0.Values + {headEntry};
    HeadListOk(history, nodes0, headEntry, entry);
  }

  /** The nodes of the entries with the head before them are the list of a search that has not
      taken anything. */
  lemma HeadListOk<V>(h: seq<Entry<V>>, nodes0: map<int, Node<V>>, head: Node<V>, entry: Node?<V>)
    requires WellFormed(h) && nodes0.Keys == Places(h, 0) && RepresentsFrom(h, 0, nodes0)
    requires Linked(nodes0[-1 := head], nodes0.Keys + {-1}) && IsNext(nodes0, nodes0.Keys, -1, entry)
    ensures HeapOk(h, nodes0[-1 := head], []) && entry == head.next
  {
    var nodes := nodes0[-1 := head];
    assert Live(h, Ids([])) == nodes0.Keys + {-1};
    forall p | 0 <= p < |h| ensures Represents(h, nodes, p) {
      assert Represents(h, nodes0, p);
    }
    assert LinksAt(nodes, Live(h, Ids([])), -1);
    NextUnique(nodes, Live(h, Ids([])), -1, head.next, entry);
  }

  lemma NextUnique<V>(nodes: map<int, Node<V>>, live: set<int>, p: int, n: Node?<V>, n': Node?<V>)
    requires IsNext(nodes, live, p, n) && IsNext(nodes, live, p, n')
    ensures n == n'
  {
  }

  /** What is recorded for an operation is a partial linearization through it, so that replaying it
      step by step on the model, as the visualizer does, never meets a step that is not allowed. */
  ghost predicate Replayable<S, V>(m: Model<S, V>, ops: seq<Operation<V>>, longest: seq<Option<seq<nat>>>)
  {
    |longest| == |ops|
    && forall id :: 0 <= id < |longest| && longest[id].Some? ==>
         IsPartial(m, ops, longest[id].value) && id in longest[id].value
  }

  ghost predicate LongestInv<S, V>(m: Model<S, V>, ops: seq<Operation<V>>, longest: seq<Option<seq<nat>>>,
                                   best: seq<nat>, computePartial: bool)
  {
    if computePartial then LongestOk(m, ops, longest, best)
    else |longest| == |ops| && forall id :: 0 <= id < |longest| ==> longest[id] == None
  }

  /** Every record is one and the same complete linearization. */
  ghost predicate Complete<S, V>(m: Model<S, V>, ops: seq<Operation<V>>, longest: seq<Option<seq<nat>>>)
  {
    |longest| == |ops|
    && exists order :: IsLinearization(m, ops, order) && forall id :: 0 <= id < |longest| ==> longest[id] == Some(order)
  }

  /** longest[id] is a partial linearization through id, as long as there is any. */
  ghost predicate LongestPossible<S, V>(m: Model<S, V>, ops: seq<Operation<V>>, longest: seq<Option<seq<nat>>>)
  {
    && |longest| == |ops|
    && (forall id :: 0 <= id < |ops| && longest[id].Some? ==>
          IsPartial(m, ops, longest[id].value) && id in longest[id].value)
    && (forall order, id :: IsPartial(m, ops, order) && id in order ==>
          id < |ops| && longest[id].Some? && |order| <= |longest[id].value|)
  }

  lemma LongestIsPossible<S, V>(m: Model<S, V>, ops: seq<Operation<V>>, longest: seq<Option<seq<nat>>>, best: seq<nat>)
    requires LongestOk(m, ops, longest, best) && Maximal(m, ops, best)
    ensures LongestPossible(m, ops, longest)
  {
    forall order, id | IsPartial(m, ops, order) && id in order
      ensures id < |ops| && longest[id].Some? && |order| <= |longest[id].value|
    {
      assert |order| <= best[id];
    }
  }

  lemma Rejected<S(!new), V>(m: Model<S, V>, h: seq<Entry<V>>, nodes: map<int, Node<V>>, best: seq<nat>,
                             calls: seq<CallsEntry<S, V>>,
                             state: S, linearized: array<Word>, cache: Cache<S>, entry: Node<V>,
                             longest: seq<Option<seq<nat>>>, computePartial: bool)
    requires WellFormed(h) && SearchInv(m, h, nodes, [], best, calls, state, linearized, cache, entry)
    requires h != [] && entry.matching == null && LongestInv(m, OpsOf(h), longest, best, computePartial)
    ensures Verdict(m, OpsOf(h), computePartial, false, false, longest)
  {
    OpsFacts(h);
    var p := entry.place;
    NodeKind(h, nodes, p);
    if EqualIsSound(m, OpsOf(h)) {
      InvReject(m, OpsOf(h), best, Contents(cache), h[p].id);
      if computePartial {
        LongestIsPossible(m, OpsOf(h), longest, best);
      }
    }
  }

  lemma Accepted<S(!new), V>(m: Model<S, V>, h: seq<Entry<V>>, nodes: map<int, Node<V>>, path: seq<nat>, best: seq<nat>,
                       calls: seq<CallsEntry<S, V>>, state: S, linearized: array<Word>, cache: Cache<S>,
                       entry: Node?<V>, computePartial: bool)
    requires WellFormed(h) && SearchInv(m, h, nodes, path, best, calls, state, linearized, cache, entry)
    requires -1 in nodes && nodes[-1].next == null
    ensures Verdict(m, OpsOf(h), computePartial, false, true, Repeat(Some(path), |h| / 2))
  {
    OpsFacts(h);
    HeadFacts(h, nodes, path);
    PathAccept(m, OpsOf(h), path);
    VerdictAccepted(m, OpsOf(h), computePartial, path);
  }

  /** One of the first `polls` readings of the kill flag found it raised. */
  ghost predicate SeenRaised(kill: nat -> bool, polls: nat)
  {
    exists i :: 0 <= i < polls && kill(i)
  }

  lemma ReadAgain(kill: nat -> bool, tick: nat)
    requires !SeenRaised(kill, tick)
    ensures SeenRaised(kill, tick + 1) <==> kill(tick)
  {
  }

  /** What the caller may conclude from the verdict.  `raised` says whether the kill flag was
      seen raised. */
  ghost predicate Verdict<S(!new), V>(m: Model<S, V>, ops: seq<Operation<V>>, computePartial: bool, raised: bool,
                                      ok: bool, longest: seq<Option<seq<nat>>>)
  {
    && Replayable(m, ops, longest)
    && (ok ==> Linearizable(m, ops) && Complete(m, ops, longest))
    && (!ok && !computePartial ==> forall id :: 0 <= id < |ops| ==> longest[id] == None)
    && (!ok && !raised && EqualIsSound(m, ops) ==>
         && !Linearizable(m, ops)
         && (computePartial ==> LongestPossible(m, ops, longest)))
  }

  lemma VerdictAccepted<S(!new), V>(m: Model<S, V>, ops: seq<Operation<V>>, computePartial: bool, path: seq<nat>)
    requires IsLinearization(m, ops, path) && IsPartial(m, ops, path)
    ensures Verdict(m, ops, computePartial, false, true, Repeat(Some(path), |ops|))
  {
    forall id | 0 <= id < |ops| ensures id in path {
      assert id in Below(|ops|);
      assert id in Ids(path);
    }
  }

  /** The search has seen the kill flag raised: it keeps what it has recorded. */
  lemma Killed<S(!new), V>(m: Model<S, V>, ops: seq<Operation<V>>, longest: seq<Option<seq<nat>>>, best: seq<nat>,
                           computePartial: bool)
    requires LongestInv(m, ops, longest, best, computePartial)
    ensures Verdict(m, ops, computePartial, true, false, longest)
  {
  }

  /** The loop iteration at a return node: the search gives up if nothing has been taken, and
      otherwise goes back. */
  method GiveUpOrBacktrack<S(!new), V>(model: Model<S, V>, calls: seq<CallsEntry<S, V>>, linearized: array<Word>,
                                       ghost cache: Cache<S>,
                                       ghost entry: Node<V>, ghost state: S, longest: seq<Option<seq<nat>>>,
                                       computePartial: bool,
                                       ghost h: seq<Entry<V>>, ghost nodes: map<int, Node<V>>, ghost path: seq<nat>,
                                       ghost best: seq<nat>)
    returns (rejected: bool, entry': Node?<V>, calls': seq<CallsEntry<S, V>>, state': S,
             longest': seq<Option<seq<nat>>>)
    requires WellFormed(h) && SearchInv(model, h, nodes, path, best, calls, state, linearized, cache, entry)
    requires LongestInv(model, OpsOf(h), longest, best, computePartial)
    requires |path| < |h| / 2 && entry.matching == null
    modifies nodes.Values, linearized
    ensures rejected ==> Verdict(model, OpsOf(h), computePartial, false, false, longest')
    ensures !rejected ==>
      && path != []
      && SearchInv(model, h, nodes, path[..|path| - 1], Recorded(best, path), calls', state', linearized, cache, entry')
      && LongestInv(model, OpsOf(h), longest', Recorded(best, path), computePartial)
      && Remaining(h, path[..|path| - 1], PlaceOf(h, entry')) < Remaining(h, path, entry.place)
  {
    if |calls| == 0 {
      Rejected(model, h, nodes, best, calls, state, linearized, cache, entry, longest, computePartial);
      return true, null, calls, model.init, longest;
    }
    longest' := longest;
    if computePartial {
      longest' := UpdateLongest(calls, longest, model, OpsOf(h), path, best);
    }
    entry', calls', state' := Backtrack(model, calls, linearized, cache, entry, state, h, nodes, path, best);
    rejected := false;
  }

  lemma InitialInv<S(!new), V>(m: Model<S, V>, h: seq<Entry<V>>, nodes: map<int, Node<V>>, best: seq<nat>,
                               calls: seq<CallsEntry<S, V>>, linearized: array<Word>, cache: Cache<S>)
    requires WellFormed(h) && HeapOk(h, nodes, []) && best == seq(|h| / 2, _ => 0) && cache == map[] && calls == []
    requires linearized.Length == (|h| / 2 + 63) / 64 && Members(linearized[..]) == {}
    ensures -1 in nodes
    ensures SearchInv(m, h, nodes, [], best, calls, m.init, linearized, cache, nodes[-1].next)
  {
    assert Contents(cache) == {};
    assert Ids([]) == {};
    InvInit(m, OpsOf(h), best);
    RestartAt(m, h, nodes, [], best, cache);
  }

  lemma InitialLongest<S, V>(m: Model<S, V>, ops: seq<Operation<V>>, longest: seq<Option<seq<nat>>>, best: seq<nat>,
                             computePartial: bool)
    requires best == seq(|ops|, _ => 0) && longest == seq(|ops|, _ => None)
    ensures LongestInv(m, ops, longest, best, computePartial)
  {
  }

  /** One iteration of the search loop. */
  method Iterate<S(!new), V>(model: Model<S, V>, entry: Node<V>, headEntry: Node<V>, calls: seq<CallsEntry<S, V>>,
                             state: S, linearized: array<Word>, cache: Cache<S>, longest: seq<Option<seq<nat>>>,
                             computePartial: bool, ghost h: seq<Entry<V>>, ghost nodes: map<int, Node<V>>,
                             ghost path: seq<nat>, ghost best: seq<nat>)
    returns (rejected: bool, entry': Node?<V>, calls': seq<CallsEntry<S, V>>, state': S, cache': Cache<S>,
             longest': seq<Option<seq<nat>>>, ghost path': seq<nat>, ghost best': seq<nat>)
    requires WellFormed(h) && SearchInv(model, h, nodes, path, best, calls, state, linearized, cache, entry)
    requires LongestInv(model, OpsOf(h), longest, best, computePartial)
    requires |path| < |h| / 2 && -1 in nodes && headEntry == nodes[-1]
    modifies nodes.Values, linearized
    ensures rejected ==> Verdict(model, OpsOf(h), computePartial, false, false, longest')
    ensures !rejected ==>
      && SearchInv(model, h, nodes, path', best', calls', state', linearized, cache', entry')
      && LongestInv(model, OpsOf(h), longest', best', computePartial)
      && Remaining(h, path', PlaceOf(h, entry')) < Remaining(h, path, entry.place)
  {
    if entry.matching != null {
      rejected, longest', best' := false, longest, best;
      entry', calls', state', cache', path' :=
        TryCall(model, entry, headEntry, calls, state, linearized, cache, h, nodes, path, best);
    } else {
      cache', path', best' := cache, path, best;
      rejected, entry', calls', state', longest' :=
        GiveUpOrBacktrack(model, calls, linearized, cache, entry, state, longest, computePartial,
                          h, nodes, path, best);
      if !rejected {
        best', path' := Recorded(best, path), path[..|path| - 1];
      }
    }
  }

  /** The list is empty: every operation gets the complete linearization as its record. */
  method Accept<S(!new), V>(ghost model: Model<S, V>, headEntry: Node<V>, calls: seq<CallsEntry<S, V>>, ghost state: S,
                            ghost linearized: array<Word>, ghost cache: Cache<S>, n: nat, ghost computePartial: bool,
                            ghost entry: Node?<V>, ghost h: seq<Entry<V>>, ghost nodes: map<int, Node<V>>,
                            ghost path: seq<nat>, ghost best: seq<nat>)
    returns (longest: seq<Option<seq<nat>>>)
    requires WellFormed(h) && SearchInv(model, h, nodes, path, best, calls, state, linearized, cache, entry)
    requires -1 in nodes && headEntry == nodes[-1] && headEntry.next == null && n == |h| / 2
    ensures Verdict(model, OpsOf(h), computePartial, false, true, longest)
  {
    Accepted(model, h, nodes, path, best, calls, state, linearized, cache, entry, computePartial);
    var order := PathOf(calls, path);
    return Repeat(Some(order), n);
  }

  /** The search loop. */
  method RunSearch<S(!new), V>(model: Model<S, V>, entry0: Node?<V>, headEntry: Node<V>, n: nat, computePartial: bool,
                               kill: nat -> bool, ghost h: seq<Entry<V>>, ghost nodes: map<int, Node<V>>)
    returns (ok: bool, longest: seq<Option<seq<nat>>>, ghost polls: nat, ghost raised: bool)
    requires WellFormed(h) && HeapOk(h, nodes, []) && -1 in nodes && headEntry == nodes[-1] && entry0 == headEntry.next
    requires n == |h| / 2
    modifies nodes.Values
    ensures Verdict(model, OpsOf(h), computePartial, raised, ok, longest)
    ensures raised ==> !ok && polls > 0 && kill(polls - 1)
    ensures !SeenRaised(kill, if raised then polls - 1 else polls)
  {
    ghost var path: seq<nat>, best: seq<nat> := [], seq(|h| / 2, _ => 0);
    var entry := entry0;
    var linearized := NewBitset(n);
    var cache: Cache<S> := map[];
    var calls: seq<CallsEntry<S, V>> := [];
    longest := seq(n, _ => None);
    var state := model.init;
    var tick: nat := 0;
    InitialInv(model, h, nodes, best, calls, linearized, cache);
    InitialLongest(model, OpsOf(h), longest, best, computePartial);
    while headEntry.next != null
      invariant SearchInv(model, h, nodes, path, best, calls, state, linearized, cache, entry)
      invariant LongestInv(model, OpsOf(h), longest, best, computePartial)
      invariant fresh(linearized) && !SeenRaised(kill, tick)
      decreases Remaining(h, path, PlaceOf(h, entry))
    {
      ReadAgain(kill, tick);
      if kill(tick) {
        Killed(model, OpsOf(h), longest, best, computePartial);
        return false, longest, tick + 1, true;
      }
      tick := tick + 1;
      HeadFacts(h, nodes, path);
      RemainingBound(h, path, PlaceOf(h, entry));
      var rejected;
      rejected, entry, calls, state, cache, longest, path, best :=
        Iterate(model, entry, headEntry, calls, state, linearized, cache, longest, computePartial,
                h, nodes, path, best);
      if rejected {
        return false, longest, tick, false;
      }
    }
    longest := Accept(model, headEntry, calls, state, linearized, cache, n, computePartial,
                      entry, h, nodes, path, best);
    return true, longest, tick, false;
  }

  /** The verdict is exact unless the kill flag, whose value at the i-th of its `polls`
      readings is kill(i), was seen raised, as long as `equal` is sound.  Acceptance needs
      neither.  The search stops at the first reading that finds the flag raised. */
  method CheckSingle<S(!new), V>(model: Model<S, V>, history: seq<Entry<V>>, computePartial: bool, kill: nat -> bool)
    returns (ok: bool, longest: seq<Option<seq<nat>>>, ghost polls: nat)
    requires WellFormed(history)
    ensures Replayable(model, OpsOf(history), longest)
    ensures ok ==> Linearizable(model, OpsOf(history)) && Complete(model, OpsOf(history), longest)
    ensures !ok && !computePartial ==> forall id :: 0 <= id < |longest| ==> longest[id] == None
    ensures !ok && (forall i :: 0 <= i < polls ==> !kill(i)) && EqualIsSound(model, OpsOf(history)) ==>
              && !Linearizable(model, OpsOf(history))
              && (computePartial ==> LongestPossible(model, OpsOf(history), longest))
    ensures forall i :: 0 <= i < polls && kill(i) ==> !ok && i == polls - 1
  {
    var entry, headEntry, n;
    ghost var nodes;
    entry, headEntry, n, nodes := Setup(history);
    ghost var raised;
    ok, longest, polls, raised := RunSearch(model, entry, headEntry, n, computePartial, kill, history, nodes);
  }

  /** The list is empty exactly when all operations have been taken. */
  lemma HeadFacts<V>(h: seq<Entry<V>>, nodes: map<int, Node<V>>, path: seq<nat>)
    requires WellFormed(h) && NoDup(path) && IdsBelow(path, |h| / 2) && HeapOk(h, nodes, path)
    ensures -1 in nodes && (nodes[-1].next == null <==> |path| == |h| / 2)
    ensures |path| <= |h| / 2
  {
    LiveEmpty(h, path);
    assert LinksAt(nodes, Live(h, Ids(path)), -1);
    if Live(h, Ids(path)) != {-1} {
      var p :| p in Live(h, Ids(path)) && p != -1;
      assert -1 < p;
    }
  }
}
