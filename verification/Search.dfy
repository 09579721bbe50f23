/** Why the backtracking search is right, in terms of the path it is on, the place it has
    scanned up to, the configurations it has cached, and for each operation the length
    `best` of the longest path through it that was recorded so far. */
module Search {
  import opened Collections
  import opened Linearizability

  /** Every operation in ids has a recorded path of at least this length. */
  ghost predicate Reaches(best: seq<nat>, ids: set<nat>, length: nat)
  {
    forall id :: id in ids ==> id < |best| && best[id] >= length
  }

  /** Whatever way the search can be continued from (done, s), a path at least as long has
      been recorded for every operation on it. */
  ghost predicate Closed<S, V>(m: Model<S, V>, ops: seq<Operation<V>>, done: set<nat>, s: S, best: seq<nat>)
  {
    forall ext :: Extends(m, ops, done, s, ext) ==> Reaches(best, done + Ids(ext), |done| + |ext|)
  }

  /** The same, for the continuations that start with an operation called before `limit`. */
  ghost predicate Scanned<S, V>(m: Model<S, V>, ops: seq<Operation<V>>, done: set<nat>, s: S, limit: int,
                                best: seq<nat>)
  {
    forall ext :: ext != [] && Extends(m, ops, done, s, ext) && ops[ext[0]].call < limit ==>
      Reaches(best, done + Ids(ext), |done| + |ext|)
  }

  /** Calls happen at different times. */
  ghost predicate DistinctCalls<V>(ops: seq<Operation<V>>)
  {
    forall a, b :: 0 <= a < |ops| && 0 <= b < |ops| && ops[a].call == ops[b].call ==> a == b
  }

  /** `equal` never identifies states that some ordering of the operations tells apart. */
  ghost predicate EqualIsSound<S(!new), V>(m: Model<S, V>, ops: seq<Operation<V>>)
  {
    forall s, t, order :: m.equal(s, t) && InRange(ops, order) ==>
      (Legal(m, ops, s, order) <==> Legal(m, ops, t, order))
  }

  /** A configuration that lies on the current path. */
  ghost predicate OnPath<S, V>(m: Model<S, V>, ops: seq<Operation<V>>, path: seq<nat>, done: set<nat>, s: S)
  {
    InRange(ops, path) &&
    exists j :: 0 < j <= |path| && done == Ids(path[..j]) && s == Run(m, ops, m.init, path[..j])
  }

  ghost predicate ScannedBelow<S, V>(m: Model<S, V>, ops: seq<Operation<V>>, path: seq<nat>, j: nat, best: seq<nat>)
    requires j < |path| && InRange(ops, path)
  {
    Scanned(m, ops, Ids(path[..j]), Run(m, ops, m.init, path[..j]), ops[path[j]].call, best)
  }

  /** The path is a partial linearization. */
  ghost predicate GoodPath<S, V>(m: Model<S, V>, ops: seq<Operation<V>>, path: seq<nat>)
  {
    Extends(m, ops, {}, m.init, path) && NoDup(path) && InRange(ops, path)
  }

  /** At every step of the path, all earlier choices have been scanned. */
  ghost predicate AllScanned<S, V>(m: Model<S, V>, ops: seq<Operation<V>>, path: seq<nat>, best: seq<nat>)
  {
    InRange(ops, path) && forall j :: 0 <= j < |path| ==> ScannedBelow(m, ops, path, j, best)
  }

  /** A cached configuration that is not on the current path has nothing new to offer. */
  ghost predicate CacheOk<S, V>(m: Model<S, V>, ops: seq<Operation<V>>, path: seq<nat>, best: seq<nat>,
                                cached: set<(set<nat>, S)>)
  {
    forall c :: c in cached ==> OnPath(m, ops, path, c.0, c.1) || Closed(m, ops, c.0, c.1, best)
  }

  ghost predicate ShortOnly(best: seq<nat>, n: nat)
  {
    |best| == n && forall id :: 0 <= id < n ==> best[id] < n
  }

  /** The invariant of the search. */
  ghost predicate Inv<S, V>(m: Model<S, V>, ops: seq<Operation<V>>, path: seq<nat>, best: seq<nat>,
                            cached: set<(set<nat>, S)>)
  {
    && GoodPath(m, ops, path)
    && ShortOnly(best, |ops|)
    && AllScanned(m, ops, path, best)
    && CacheOk(m, ops, path, best, cached)
  }

  ghost predicate ScannedTo<S, V>(m: Model<S, V>, ops: seq<Operation<V>>, path: seq<nat>, limit: int, best: seq<nat>)
    requires InRange(ops, path)
  {
    Scanned(m, ops, Ids(path), Run(m, ops, m.init, path), limit, best)
  }

  /** No remaining operation is called in the open interval between p and limit. */
  ghost predicate NothingBetween<V>(ops: seq<Operation<V>>, done: set<nat>, p: int, limit: int)
  {
    forall id :: 0 <= id < |ops| && id !in done && ops[id].call < limit ==> ops[id].call <= p
  }

  // ---------- Monotonicity ----------

  ghost predicate Improves(best: seq<nat>, best': seq<nat>)
  {
    |best| == |best'| && forall id :: 0 <= id < |best| ==> best[id] <= best'[id]
  }

  lemma ReachesImproves(best: seq<nat>, best': seq<nat>, ids: set<nat>, length: nat)
    requires Improves(best, best') && Reaches(best, ids, length)
    ensures Reaches(best', ids, length)
  {
  }

  lemma ClosedImproves<S, V>(m: Model<S, V>, ops: seq<Operation<V>>, done: set<nat>, s: S, best: seq<nat>,
                             best': seq<nat>)
    requires Improves(best, best') && Closed(m, ops, done, s, best)
    ensures Closed(m, ops, done, s, best')
  {
    forall ext | Extends(m, ops, done, s, ext) ensures Reaches(best', done + Ids(ext), |done| + |ext|) {
      ReachesImproves(best, best', done + Ids(ext), |done| + |ext|);
    }
  }

  lemma ScannedImproves<S, V>(m: Model<S, V>, ops: seq<Operation<V>>, done: set<nat>, s: S, limit: int,
                              best: seq<nat>, best': seq<nat>)
    requires Improves(best, best') && Scanned(m, ops, done, s, limit, best)
    ensures Scanned(m, ops, done, s, limit, best')
  {
    forall ext | ext != [] && Extends(m, ops, done, s, ext) && ops[ext[0]].call < limit
      ensures Reaches(best', done + Ids(ext), |done| + |ext|)
    {
      ReachesImproves(best, best', done + Ids(ext), |done| + |ext|);
    }
  }

  // ---------- The ways a configuration is scanned further ----------

  /** Nothing is called before the limit: nothing to scan. */
  lemma ScannedNothing<S, V>(m: Model<S, V>, ops: seq<Operation<V>>, done: set<nat>, s: S, limit: int, best: seq<nat>)
    requires NothingBetween(ops, done, limit, limit)
    requires forall id :: 0 <= id < |ops| && id !in done ==> limit <= ops[id].call
    ensures Scanned(m, ops, done, s, limit, best)
  {
  }

  /** Operation c, called at p, is not allowed in state s. */
  lemma ScannedIllegal<S, V>(m: Model<S, V>, ops: seq<Operation<V>>, done: set<nat>, s: S, c: nat, limit: int,
                             best: seq<nat>)
    requires DistinctCalls(ops) && c < |ops| && !StepOk(m, ops, s, c)
    requires Scanned(m, ops, done, s, ops[c].call, best) && NothingBetween(ops, done, ops[c].call, limit)
    ensures Scanned(m, ops, done, s, limit, best)
  {
    forall ext | ext != [] && Extends(m, ops, done, s, ext) && ops[ext[0]].call < limit
      ensures Reaches(best, done + Ids(ext), |done| + |ext|)
    {
      assert ext[0] != c;
    }
  }

  /** A continuation goes on after its first operation. */
  lemma ExtendsTail<S, V>(m: Model<S, V>, ops: seq<Operation<V>>, done: set<nat>, s: S, ext: seq<nat>)
    requires ext != [] && Extends(m, ops, done, s, ext)
    ensures Extends(m, ops, done + {ext[0]}, StepState(m, ops, s, ext[0]), ext[1..])
    ensures ext[0] !in done
  {
  }

  lemma IdsOfTail(done: set<nat>, ext: seq<nat>)
    requires ext != []
    ensures done + {ext[0]} + Ids(ext[1..]) == done + Ids(ext)
  {
    assert ext == [ext[0]] + ext[1..];
  }

  lemma ClosedCovers<S, V>(m: Model<S, V>, ops: seq<Operation<V>>, done: set<nat>, s: S, ext: seq<nat>, best: seq<nat>)
    requires ext != [] && Extends(m, ops, done, s, ext)
    requires Closed(m, ops, done + {ext[0]}, StepState(m, ops, s, ext[0]), best)
    ensures Reaches(best, done + Ids(ext), |done| + |ext|)
  {
    ExtendsTail(m, ops, done, s, ext);
    IdsOfTail(done, ext);
    AddOne(done, ext[0]);
  }

  /** The configuration after c is closed. */
  lemma ScannedClosed<S, V>(m: Model<S, V>, ops: seq<Operation<V>>, done: set<nat>, s: S, c: nat, limit: int,
                            best: seq<nat>)
    requires DistinctCalls(ops) && c < |ops| && c !in done
    requires Scanned(m, ops, done, s, ops[c].call, best) && NothingBetween(ops, done, ops[c].call, limit)
    requires Closed(m, ops, done + {c}, StepState(m, ops, s, c), best)
    ensures Scanned(m, ops, done, s, limit, best)
  {
    forall ext | ext != [] && Extends(m, ops, done, s, ext) && ops[ext[0]].call < limit
      ensures Reaches(best, done + Ids(ext), |done| + |ext|)
    {
      var a := ext[0];
      assert Enabled(ops, done, a);
      if a == c {
        ClosedCovers(m, ops, done, s, ext, best);
      } else {
        assert ops[a].call < ops[c].call;
      }
    }
  }

  lemma ClosedTransfers<S(!new), V>(m: Model<S, V>, ops: seq<Operation<V>>, done: set<nat>, s: S, t: S, best: seq<nat>)
    requires EqualIsSound(m, ops) && m.equal(s, t) && Closed(m, ops, done, t, best)
    ensures Closed(m, ops, done, s, best)
  {
    forall ext | Extends(m, ops, done, s, ext) ensures Reaches(best, done + Ids(ext), |done| + |ext|) {
      ExtendsIffClosed(m, ops, done, s, ext);
      ExtendsIffClosed(m, ops, done, t, ext);
      assert Legal(m, ops, s, ext) <==> Legal(m, ops, t, ext);
    }
  }

  /** When a return that has not been taken is reached, every continuation has been scanned. */
  lemma ScannedAll<S, V>(m: Model<S, V>, ops: seq<Operation<V>>, done: set<nat>, s: S, b: nat, best: seq<nat>)
    requires b < |ops| && b !in done
    requires Scanned(m, ops, done, s, ops[b].ret, best) && Reaches(best, done, |done|)
    requires forall id :: 0 <= id < |ops| ==> ops[id].call != ops[b].ret
    ensures Closed(m, ops, done, s, best)
  {
    forall ext | Extends(m, ops, done, s, ext) ensures Reaches(best, done + Ids(ext), |done| + |ext|) {
      if ext == [] {
        assert done + Ids(ext) == done;
      } else {
        assert !Precedes(ops, b, ext[0]);
      }
    }
  }

  // ---------- The steps of the search ----------

  lemma PathFacts<S, V>(m: Model<S, V>, ops: seq<Operation<V>>, path: seq<nat>, c: nat)
    requires InRange(ops, path) && NoDup(path) && c < |ops| && c !in path
    ensures Ids(path + [c]) == Ids(path) + {c} && |Ids(path)| == |path| && NoDup(path + [c])
    ensures Run(m, ops, m.init, path + [c]) == StepState(m, ops, Run(m, ops, m.init, path), c)
  {
    IdsAppend(path, [c]);
    assert Ids([c]) == {c};
    IdsCardinality(path);
    LegalAppend(m, ops, m.init, path, [c]);
    assert [c][1..] == [];
  }

  lemma InvInit<S, V>(m: Model<S, V>, ops: seq<Operation<V>>, best: seq<nat>)
    requires |best| == |ops| && forall id :: 0 <= id < |ops| ==> best[id] == 0
    ensures Inv(m, ops, [], best, {})
  {
  }

  /** An illegal operation is passed over. */
  lemma InvSkipIllegal<S, V>(m: Model<S, V>, ops: seq<Operation<V>>, path: seq<nat>, best: seq<nat>,
                             c: nat, limit: int)
    requires DistinctCalls(ops) && InRange(ops, path) && c < |ops| && !StepOk(m, ops, Run(m, ops, m.init, path), c)
    requires ScannedTo(m, ops, path, ops[c].call, best) && NothingBetween(ops, Ids(path), ops[c].call, limit)
    ensures ScannedTo(m, ops, path, limit, best)
  {
    ScannedIllegal(m, ops, Ids(path), Run(m, ops, m.init, path), c, limit, best);
  }

  lemma NotOnPath<S, V>(m: Model<S, V>, ops: seq<Operation<V>>, path: seq<nat>, c: nat, t: S)
    requires InRange(ops, path) && NoDup(path) && c !in path
    ensures !OnPath(m, ops, path, Ids(path) + {c}, t)
  {
    forall j | 0 < j <= |path| ensures Ids(path) + {c} != Ids(path[..j]) {
      assert c !in Ids(path[..j]);
    }
  }

  /** An operation whose configuration is in the cache is passed over. */
  lemma InvSkipCached<S(!new), V>(m: Model<S, V>, ops: seq<Operation<V>>, path: seq<nat>, best: seq<nat>,
                                  cached: set<(set<nat>, S)>, c: nat, t: S, limit: int)
    requires Inv(m, ops, path, best, cached) && EqualIsSound(m, ops) && DistinctCalls(ops)
    requires c < |ops| && c !in path
    requires (Ids(path) + {c}, t) in cached && m.equal(StepState(m, ops, Run(m, ops, m.init, path), c), t)
    requires ScannedTo(m, ops, path, ops[c].call, best) && NothingBetween(ops, Ids(path), ops[c].call, limit)
    ensures ScannedTo(m, ops, path, limit, best)
  {
    var done, s := Ids(path), Run(m, ops, m.init, path);
    PathFacts(m, ops, path, c);
    NotOnPath(m, ops, path, c, t);
    ClosedTransfers(m, ops, done + {c}, StepState(m, ops, s, c), t, best);
    ScannedClosed(m, ops, done, s, c, limit, best);
  }

  lemma OnPathGrows<S, V>(m: Model<S, V>, ops: seq<Operation<V>>, path: seq<nat>, c: nat, done: set<nat>, s: S)
    requires OnPath(m, ops, path, done, s) && c < |ops|
    ensures OnPath(m, ops, path + [c], done, s)
  {
    var j :| 0 < j <= |path| && done == Ids(path[..j]) && s == Run(m, ops, m.init, path[..j]);
    assert (path + [c])[..j] == path[..j];
  }

  lemma GoodPathPush<S, V>(m: Model<S, V>, ops: seq<Operation<V>>, path: seq<nat>, c: nat)
    requires GoodPath(m, ops, path)
    requires Enabled(ops, Ids(path), c) && StepOk(m, ops, Run(m, ops, m.init, path), c)
    ensures GoodPath(m, ops, path + [c])
  {
    PathFacts(m, ops, path, c);
    ExtendsAppend(m, ops, {}, m.init, path, [c]);
    assert {} + Ids(path) == Ids(path);
  }

  lemma AllScannedPush<S, V>(m: Model<S, V>, ops: seq<Operation<V>>, path: seq<nat>, best: seq<nat>, c: nat)
    requires AllScanned(m, ops, path, best) && c < |ops| && ScannedTo(m, ops, path, ops[c].call, best)
    ensures AllScanned(m, ops, path + [c], best)
  {
    var path' := path + [c];
    forall j | 0 <= j < |path'| ensures ScannedBelow(m, ops, path', j, best) {
      assert path'[..j] == path[..j];
      if j == |path| {
        assert path[..j] == path;
      } else {
        assert ScannedBelow(m, ops, path, j, best);
      }
    }
  }

  lemma CacheOkPush<S, V>(m: Model<S, V>, ops: seq<Operation<V>>, path: seq<nat>, best: seq<nat>,
                          cached: set<(set<nat>, S)>, c: nat)
    requires InRange(ops, path) && CacheOk(m, ops, path, best, cached) && c < |ops|
    ensures CacheOk(m, ops, path + [c], best, cached + {(Ids(path + [c]), Run(m, ops, m.init, path + [c]))})
  {
    var path' := path + [c];
    var config := (Ids(path'), Run(m, ops, m.init, path'));
    forall d | d in cached + {config}
      ensures OnPath(m, ops, path', d.0, d.1) || Closed(m, ops, d.0, d.1, best)
    {
      if d == config {
        assert path'[..|path'|] == path';
      } else if OnPath(m, ops, path, d.0, d.1) {
        OnPathGrows(m, ops, path, c, d.0, d.1);
      }
    }
  }

  /** A legal operation with a new configuration is taken. */
  lemma InvPush<S, V>(m: Model<S, V>, ops: seq<Operation<V>>, path: seq<nat>, best: seq<nat>,
                      cached: set<(set<nat>, S)>, c: nat)
    requires Inv(m, ops, path, best, cached)
    requires Enabled(ops, Ids(path), c) && StepOk(m, ops, Run(m, ops, m.init, path), c)
    requires ScannedTo(m, ops, path, ops[c].call, best)
    ensures Inv(m, ops, path + [c], best,
                cached + {(Ids(path) + {c}, StepState(m, ops, Run(m, ops, m.init, path), c))})
  {
    PathFacts(m, ops, path, c);
    GoodPathPush(m, ops, path, c);
    AllScannedPush(m, ops, path, best, c);
    CacheOkPush(m, ops, path, best, cached, c);
  }

  /** The lengths after recording the current path for each operation on it. */
  ghost function Recorded(best: seq<nat>, path: seq<nat>): (r: seq<nat>)
    ensures |r| == |best|
    ensures forall id :: 0 <= id < |best| ==> r[id] == if id in path && best[id] < |path| then |path| else best[id]
  {
    seq(|best|, id requires 0 <= id < |best| => if id in path && best[id] < |path| then |path| else best[id])
  }

  /** A return that has not been taken is reached: the path is recorded and its last
      operation undone. */
  lemma InvPop<S, V>(m: Model<S, V>, ops: seq<Operation<V>>, path: seq<nat>, best: seq<nat>,
                     cached: set<(set<nat>, S)>, b: nat, limit: int)
    requires Inv(m, ops, path, best, cached) && DistinctCalls(ops) && path != []
    requires b < |ops| && b !in path && ScannedTo(m, ops, path, ops[b].ret, best)
    requires forall id :: 0 <= id < |ops| ==> ops[id].call != ops[b].ret
    requires var k := |path| - 1; NothingBetween(ops, Ids(path[..k]), ops[path[k]].call, limit)
    ensures var path' := path[..|path| - 1];
            && Inv(m, ops, path', Recorded(best, path), cached)
            && ScannedTo(m, ops, path', limit, Recorded(best, path))
  {
    var k := |path| - 1;
    var path', c, best' := path[..k], path[k], Recorded(best, path);
    ShortPath(ops, path, b);
    PathClosed(m, ops, path, best, b);
    GoodPathPop(m, ops, path);
    AllScannedPop(m, ops, path, best, best');
    CacheOkPop(m, ops, path, best, best', cached);
    ScannedToPop(m, ops, path, best, best', limit);
  }

  lemma GoodPathPop<S, V>(m: Model<S, V>, ops: seq<Operation<V>>, path: seq<nat>)
    requires path != [] && GoodPath(m, ops, path)
    ensures GoodPath(m, ops, path[..|path| - 1])
  {
    var k := |path| - 1;
    assert path == path[..k] + [path[k]];
    ExtendsAppend(m, ops, {}, m.init, path[..k], [path[k]]);
  }

  lemma ScannedToPop<S, V>(m: Model<S, V>, ops: seq<Operation<V>>, path: seq<nat>, best: seq<nat>, best': seq<nat>,
                           limit: int)
    requires path != [] && GoodPath(m, ops, path) && DistinctCalls(ops) && Improves(best, best')
    requires AllScanned(m, ops, path, best) && Closed(m, ops, Ids(path), Run(m, ops, m.init, path), best')
    requires var k := |path| - 1; NothingBetween(ops, Ids(path[..k]), ops[path[k]].call, limit)
    ensures ScannedTo(m, ops, path[..|path| - 1], limit, best')
  {
    var k := |path| - 1;
    var path', c := path[..k], path[k];
    assert path == path' + [c];
    PathFacts(m, ops, path', c);
    assert ScannedBelow(m, ops, path, k, best);
    ScannedImproves(m, ops, Ids(path'), Run(m, ops, m.init, path'), ops[c].call, best, best');
    ScannedClosed(m, ops, Ids(path'), Run(m, ops, m.init, path'), c, limit, best');
  }

  lemma PathClosed<S, V>(m: Model<S, V>, ops: seq<Operation<V>>, path: seq<nat>, best: seq<nat>, b: nat)
    requires InRange(ops, path) && NoDup(path) && |best| == |ops|
    requires b < |ops| && b !in path && ScannedTo(m, ops, path, ops[b].ret, best)
    requires forall id :: 0 <= id < |ops| ==> ops[id].call != ops[b].ret
    ensures Closed(m, ops, Ids(path), Run(m, ops, m.init, path), Recorded(best, path))
  {
    var done, s, best' := Ids(path), Run(m, ops, m.init, path), Recorded(best, path);
    IdsCardinality(path);
    ScannedImproves(m, ops, done, s, ops[b].ret, best, best');
    ScannedAll(m, ops, done, s, b, best');
  }

  lemma ShortPath<V>(ops: seq<Operation<V>>, path: seq<nat>, b: nat)
    requires InRange(ops, path) && NoDup(path) && b < |ops| && b !in path
    ensures |path| < |ops|
  {
    assert Ids(path) <= Below(|ops|);
    Pigeonhole(path, |ops|);
    assert b in Below(|ops|) && b !in Ids(path);
  }

  lemma AllScannedPop<S, V>(m: Model<S, V>, ops: seq<Operation<V>>, path: seq<nat>, best: seq<nat>, best': seq<nat>)
    requires path != [] && Improves(best, best') && AllScanned(m, ops, path, best)
    ensures AllScanned(m, ops, path[..|path| - 1], best')
  {
    var path' := path[..|path| - 1];
    forall j | 0 <= j < |path'| ensures ScannedBelow(m, ops, path', j, best') {
      assert path'[..j] == path[..j];
      assert ScannedBelow(m, ops, path, j, best);
      ScannedImproves(m, ops, Ids(path[..j]), Run(m, ops, m.init, path[..j]), ops[path[j]].call, best, best');
    }
  }

  lemma CacheOkPop<S, V>(m: Model<S, V>, ops: seq<Operation<V>>, path: seq<nat>, best: seq<nat>, best': seq<nat>,
                         cached: set<(set<nat>, S)>)
    requires path != [] && InRange(ops, path) && Improves(best, best')
    requires CacheOk(m, ops, path, best, cached)
    requires Closed(m, ops, Ids(path), Run(m, ops, m.init, path), best')
    ensures CacheOk(m, ops, path[..|path| - 1], best', cached)
  {
    var path' := path[..|path| - 1];
    forall c | c in cached ensures OnPath(m, ops, path', c.0, c.1) || Closed(m, ops, c.0, c.1, best') {
      if Closed(m, ops, c.0, c.1, best) {
        ClosedImproves(m, ops, c.0, c.1, best, best');
      } else {
        OnPathShrinks(m, ops, path, c.0, c.1);
      }
    }
  }

  lemma OnPathShrinks<S, V>(m: Model<S, V>, ops: seq<Operation<V>>, path: seq<nat>, done: set<nat>, s: S)
    requires path != [] && OnPath(m, ops, path, done, s)
    ensures OnPath(m, ops, path[..|path| - 1], done, s) || (done == Ids(path) && s == Run(m, ops, m.init, path))
  {
    var path' := path[..|path| - 1];
    var j :| 0 < j <= |path| && done == Ids(path[..j]) && s == Run(m, ops, m.init, path[..j]);
    if j == |path| {
      assert path[..j] == path;
    } else {
      assert path'[..j] == path[..j];
    }
  }

  // ---------- The verdict ----------

  /** best[id] is the length of the longest partial linearization that contains id (0 if
      there is none). */
  ghost predicate Maximal<S, V>(m: Model<S, V>, ops: seq<Operation<V>>, best: seq<nat>)
  {
    forall order, id :: IsPartial(m, ops, order) && id in order ==> id < |best| && |order| <= best[id]
  }

  /** The search gives up: nothing was missed, and there is no linearization. */
  lemma InvReject<S, V>(m: Model<S, V>, ops: seq<Operation<V>>, best: seq<nat>, cached: set<(set<nat>, S)>, b: nat)
    requires Inv(m, ops, [], best, cached) && WellTimed(ops) && b < |ops|
    requires ScannedTo(m, ops, [], ops[b].ret, best)
    requires forall id :: 0 <= id < |ops| ==> ops[id].call != ops[b].ret
    ensures Maximal(m, ops, best) && !Linearizable(m, ops)
  {
    assert Ids([]) == {};
    ScannedAll(m, ops, {}, m.init, b, best);
    forall order, id | IsPartial(m, ops, order) && id in order ensures id < |best| && |order| <= best[id] {
      PartialIsExtension(m, ops, order);
      assert id in {} + Ids(order);
    }
    forall order ensures !IsLinearization(m, ops, order) {
      FullPartialIsLinearization(m, ops, order);
      if IsPartial(m, ops, order) && order != [] {
        PartialIsShort(m, ops, order, best);
      }
    }
  }

  lemma PartialIsShort<S, V>(m: Model<S, V>, ops: seq<Operation<V>>, order: seq<nat>, best: seq<nat>)
    requires Maximal(m, ops, best) && IsPartial(m, ops, order) && order != []
    requires ShortOnly(best, |ops|)
    ensures |order| < |ops|
  {
    assert order[0] in order;
  }

  /** All operations are on the path: it is a linearization. */
  lemma PathAccept<S, V>(m: Model<S, V>, ops: seq<Operation<V>>, path: seq<nat>)
    requires GoodPath(m, ops, path) && WellTimed(ops) && |path| == |ops|
    ensures IsLinearization(m, ops, path) && IsPartial(m, ops, path)
  {
    PartialIsExtension(m, ops, path);
    FullPartialIsLinearization(m, ops, path);
  }
}
