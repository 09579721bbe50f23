/** What the log with an offset stands for, and what the majority index means. */
module RaftLogFacts {
  import opened Collections
  import opened RaftServer

  // ---------- The log as a map from index to item ----------

  /** The items by index; the first one is the dummy that stands for all that was compacted. */
  ghost function Items(log: seq<LogItem>): (r: map<int, LogItem>)
    requires Contiguous(log)
    ensures forall i :: i in r <==> HasIndex(log, i)
    ensures forall i :: i in r ==> r[i] == ItemAt(log, i)
  {
    map i | DummyIndex(log) <= i <= LastIndex(log) :: ItemAt(log, i)
  }

  /** Start adds one item after the last one. */
  lemma StartItems(s: Server, command: string)
    requires Contiguous(s.log) && s.state == Leader && s.me < |s.matchIndex|
    ensures var (s', index, term, _) := Start(s, command);
      && Contiguous(s'.log)
      && !HasIndex(s.log, index) && DummyIndex(s'.log) == DummyIndex(s.log)
      && Items(s'.log) == Items(s.log)[index := LogItem(command, term, index)]
  {
    var (s', index, term, _) := Start(s, command);
    assert forall k :: 0 <= k < |s.log| ==> s'.log[k] == s.log[k];
    forall i | i in Items(s'.log) ensures Items(s'.log)[i] == Items(s.log)[index := LogItem(command, term, index)][i] {
    }
  }

  /** Compaction forgets the items before the included index and changes no other. */
  lemma SaveSnapshotItems(s: Server, included: Snapshot)
    requires Contiguous(s.log) && HasIndex(s.log, included.lastIncludedIndex)
    ensures var s' := SaveSnapshot(s, included);
      && Contiguous(s'.log)
      && DummyIndex(s'.log) == included.lastIncludedIndex && LastIndex(s'.log) == LastIndex(s.log)
      && forall i :: included.lastIncludedIndex <= i <= LastIndex(s.log) ==> ItemAt(s'.log, i) == ItemAt(s.log, i)
  {
  }

  /** The dummy item itself conflicts with what the leader has at its index. */
  ghost predicate ConflictAtDummy(s: Server, args: AppendArgs)
    requires s.log != []
  {
    args.term >= s.currentTerm && args.prevLogIndex == DummyIndex(s.log) && s.log[0].term != args.prevLogTerm
  }

  /** The log stays a proper log exactly if there is no conflict at the dummy item; with one,
      nothing is left of it. */
  lemma AppendKeepsLog(s: Server, args: AppendArgs)
    requires Contiguous(s.log) && EntriesFit(args)
    ensures Contiguous(AppendEntries(s, args).0.log) <==> !ConflictAtDummy(s, args)
    ensures ConflictAtDummy(s, args) ==> AppendEntries(s, args).0.log == []
  {
    if args.term >= s.currentTerm && HasIndex(s.log, args.prevLogIndex) {
      AppendedContiguous(s.log, args);
    }
  }

  // ---------- Commitment ----------

  /** What is sent on the apply channel: the items from `from` to `upTo`, each once and in the
      order of their indices, the dummy left out. */
  lemma {:induction false} CommitMessagesAre(log: seq<LogItem>, from: int, upTo: int, k: nat)
    requires Contiguous(log) && (from <= upTo ==> upTo <= LastIndex(log))
    ensures var first := Max(from, DummyIndex(log) + 1);
      && |CommitMessages(log, from, upTo)| == Max(0, upTo - first + 1)
      && (k < |CommitMessages(log, from, upTo)| ==>
            HasIndex(log, first + k) &&
            var item := ItemAt(log, first + k);
            CommitMessages(log, from, upTo)[k] == ApplyMsg(true, item.command, first + k, item.term))
    decreases upTo - from
  {
    var first := Max(from, DummyIndex(log) + 1);
    if first <= upTo {
      CommitMessagesAre(log, first + 1, upTo, if k > 0 then k - 1 else 0);
    }
  }

  /** A follower's commit index goes down exactly when it accepts entries that end before it
      while the leader has committed more. */
  lemma CommitIndexGoesDownIff(s: Server, args: AppendArgs)
    requires Contiguous(s.log) && EntriesFit(args)
    ensures AppendEntries(s, args).0.commitIndex < s.commitIndex <==>
      && args.term >= s.currentTerm && HasIndex(s.log, args.prevLogIndex)
      && ItemAt(s.log, args.prevLogIndex).term == args.prevLogTerm
      && args.prevLogIndex + |args.entries| < s.commitIndex < args.leaderCommit
  {
    if HasIndex(s.log, args.prevLogIndex) {
      AppendedContiguous(s.log, args);
    }
  }

  // ---------- The majority index ----------

  ghost function CountGe(xs: seq<int>, v: int): (r: nat)
  {
    if xs == [] then 0 else (if xs[0] >= v then 1 else 0) + CountGe(xs[1..], v)
  }

  ghost predicate Ascending(xs: seq<int>)
  {
    forall i, j :: 0 <= i < j < |xs| ==> xs[i] <= xs[j]
  }

  lemma {:induction false} InsertFacts(x: int, sorted: seq<int>, v: int)
    requires Ascending(sorted)
    ensures Ascending(Insert(x, sorted))
    ensures forall y :: y in Insert(x, sorted) <==> y == x || y in sorted
    ensures CountGe(Insert(x, sorted), v) == CountGe([x] + sorted, v)
  {
    if sorted != [] && x > sorted[0] {
      var tail := Insert(x, sorted[1..]);
      InsertFacts(x, sorted[1..], v);
      assert Insert(x, sorted) == [sorted[0]] + tail;
      forall j | 0 <= j < |tail| ensures sorted[0] <= tail[j] {
        assert tail[j] in tail;
      }
      assert ([x] + sorted)[1..] == sorted;
      assert ([x] + sorted[1..])[1..] == sorted[1..];
      assert ([sorted[0]] + tail)[1..] == tail;
    }
  }

  lemma {:induction false} SortedFacts(xs: seq<int>, v: int)
    ensures Ascending(Sorted(xs)) && CountGe(Sorted(xs), v) == CountGe(xs, v)
  {
    if xs != [] {
      SortedFacts(xs[1..], v);
      InsertFacts(xs[0], Sorted(xs[1..]), v);
      assert ([xs[0]] + Sorted(xs[1..]))[1..] == Sorted(xs[1..]);
    }
  }

  /** In an ascending list the entries from k on are at least v if entry k is. */
  lemma {:induction false} CountFrom(xs: seq<int>, k: nat, v: int)
    requires Ascending(xs) && k < |xs|
    ensures xs[k] >= v ==> CountGe(xs, v) >= |xs| - k
    ensures xs[k] < v ==> CountGe(xs, v) <= |xs| - k - 1
  {
    if k > 0 {
      CountFrom(xs[1..], k - 1, v);
    } else if |xs| > 1 {
      CountAtMost(xs[1..], v);
      if xs[0] >= v {
        CountFrom(xs[1..], 0, v);
      }
    }
  }

  lemma {:induction false} CountAtMost(xs: seq<int>, v: int)
    ensures CountGe(xs, v) <= |xs|
  {
    if xs != [] {
      CountAtMost(xs[1..], v);
    }
  }

  /** FindMatch is the largest value that at least half of the servers, rounded up, have
      reached. */
  lemma FindMatchIsLargest(matchIndex: seq<int>, v: int)
    requires matchIndex != []
    ensures CountGe(matchIndex, FindMatch(matchIndex)) >= (|matchIndex| + 1) / 2
    ensures v > FindMatch(matchIndex) ==> CountGe(matchIndex, v) < (|matchIndex| + 1) / 2
  {
    var sorted, k := Sorted(matchIndex), |matchIndex| / 2;
    SortedLength(matchIndex);
    SortedFacts(matchIndex, sorted[k]);
    SortedFacts(matchIndex, v);
    CountFrom(sorted, k, sorted[k]);
    CountFrom(sorted, k, v);
  }

  /** The majority index is never beyond a bound on all indexes. */
  lemma FindMatchBound(matchIndex: seq<int>, bound: int)
    requires matchIndex != [] && forall j :: 0 <= j < |matchIndex| ==> matchIndex[j] <= bound
    ensures FindMatch(matchIndex) <= bound
  {
    FindMatchIsLargest(matchIndex, FindMatch(matchIndex));
    if FindMatch(matchIndex) > bound {
      NoneAbove(matchIndex, FindMatch(matchIndex));
    }
  }

  lemma {:induction false} NoneAbove(xs: seq<int>, v: int)
    requires forall j :: 0 <= j < |xs| ==> xs[j] < v
    ensures CountGe(xs, v) == 0
  {
    if xs != [] {
      NoneAbove(xs[1..], v);
    }
  }

  lemma {:induction false} CountSplit(a: seq<int>, b: seq<int>, v: int)
    ensures CountGe(a + b, v) == CountGe(a, v) + CountGe(b, v)
  {
    if a == [] {
      assert a + b == b;
    } else {
      CountSplit(a[1..], b, v);
      assert (a + b)[1..] == a[1..] + b;
    }
  }

  lemma {:induction false} CountRepeat(x: int, n: nat, v: int)
    ensures CountGe(Repeat(x, n), v) == if x >= v then n else 0
  {
    if n > 0 {
      CountRepeat(x, n - 1, v);
      CountSplit(Repeat(x, n - 1), [x], v);
    }
  }

  lemma {:induction false} CountAntitone(xs: seq<int>, v: int, w: int)
    requires v <= w
    ensures CountGe(xs, w) <= CountGe(xs, v)
  {
    if xs != [] {
      CountAntitone(xs[1..], v, w);
    }
  }

  ghost predicate ReachedByMajority(matchIndex: seq<int>)
    requires matchIndex != []
  {
    CountGe(matchIndex, FindMatch(matchIndex)) >= Majority(|matchIndex|)
  }

  /** What FindMatch returns has always been reached by a majority exactly if the number of
      servers is odd.  With an even number it may be half of them, which does no harm: half of the
      servers and the voters of a leader always have one in common. */
  lemma MajorityIffOdd(n: nat)
    requires n > 0
    ensures (forall matchIndex :: |matchIndex| == n ==> ReachedByMajority(matchIndex)) <==> n % 2 == 1
  {
    if n % 2 == 1 {
      forall matchIndex | |matchIndex| == n ensures ReachedByMajority(matchIndex) {
        FindMatchIsLargest(matchIndex, 0);
      }
    } else {
      var half := Repeat(0, n / 2) + Repeat(1, n / 2);
      CountRepeat(0, n / 2, 1);
      CountRepeat(1, n / 2, 1);
      CountSplit(Repeat(0, n / 2), Repeat(1, n / 2), 1);
      FindMatchIsLargest(half, 1);
      CountAntitone(half, 1, FindMatch(half));
      assert |half| == n && !ReachedByMajority(half);
    }
  }
}
