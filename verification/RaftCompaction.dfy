/** A compacted log stands for the whole log.  Two servers do the same things, except that only
    one of them ever compacts; as long as no message reaches back to what was compacted, they
    give the same answers and hold the same items from the dummy on. */
module RaftCompaction {
  import opened Wrappers
  import opened RaftServer
  import opened RaftLogFacts

  /** What happens to the log of a server. */
  datatype Op = Append(args: AppendArgs) | Begin(command: string) | Compact(included: Snapshot)

  datatype Answer = Replied(reply: AppendReply) | Started(index: int, term: int, isLeader: bool) | Silent

  predicate Ready(s: Server, op: Op)
  {
    && Contiguous(s.log) && (s.state == Leader ==> s.me < |s.matchIndex|)
    && (op.Append? ==> EntriesFit(op.args))
  }

  function Do(s: Server, op: Op, compacting: bool): (r: (Server, Answer))
    requires Ready(s, op)
  {
    match op
    case Append(args) => var (s', reply) := AppendEntries(s, args); (s', Replied(reply))
    case Begin(command) => var (s', index, term, isLeader) := Start(s, command); (s', Started(index, term, isLeader))
    case Compact(included) => (if compacting then SaveSnapshot(s, included) else s, Silent)
  }

  /** The log `part` holds the items of the log `full` from its own dummy on. */
  ghost predicate IsTail(part: seq<LogItem>, full: seq<LogItem>)
  {
    && Contiguous(full) && Contiguous(part)
    && HasIndex(full, DummyIndex(part)) && part == full[DummyIndex(part) - DummyIndex(full)..]
  }

  /** Server c holds the items of server s from its dummy on, and agrees with it otherwise. */
  ghost predicate SameFrom(s: Server, c: Server)
  {
    && IsTail(c.log, s.log)
    && s.me == c.me && s.currentTerm == c.currentTerm && s.state == c.state
    && s.matchIndex == c.matchIndex && (s.state == Leader ==> s.me < |s.matchIndex|)
  }

  /** The operation does not reach back behind the compacted server's dummy, nor conflict with
      it. */
  ghost predicate Harmless(s: Server, c: Server, op: Op)
    requires s.log != [] && c.log != []
  {
    op.Append? ==>
      || op.args.term < c.currentTerm || op.args.prevLogIndex < DummyIndex(s.log)
      || (DummyIndex(c.log) <= op.args.prevLogIndex && !ConflictAtDummy(c, op.args))
  }

  // ---------- One operation ----------

  lemma SameItems(full: seq<LogItem>, part: seq<LogItem>, i: int)
    requires IsTail(part, full) && DummyIndex(part) <= i
    ensures HasIndex(full, i) <==> HasIndex(part, i)
    ensures HasIndex(part, i) ==> ItemAt(full, i) == ItemAt(part, i)
    ensures LastIndex(full) == LastIndex(part)
  {
  }

  /** Both take the entries after an item that both hold. */
  lemma TakeBoth(full: seq<LogItem>, part: seq<LogItem>, args: AppendArgs)
    requires IsTail(part, full) && EntriesFit(args) && HasIndex(part, args.prevLogIndex)
    ensures HasIndex(full, args.prevLogIndex)
    ensures IsTail(Slice(part, DummyIndex(part), args.prevLogIndex) + args.entries,
                   Slice(full, DummyIndex(full), args.prevLogIndex) + args.entries)
  {
    AppendedContiguous(full, args);
    AppendedContiguous(part, args);
    var d, k := DummyIndex(part) - DummyIndex(full), args.prevLogIndex + 1 - DummyIndex(part);
    assert full[..d + k][d..] == part[..k];
    assert (full[..d + k] + args.entries)[d..] == part[..k] + args.entries;
  }

  /** Both cut back to an item that both keep. */
  lemma CutBoth(full: seq<LogItem>, part: seq<LogItem>, i: int)
    requires IsTail(part, full) && HasIndex(part, i) && DummyIndex(part) < i
    ensures HasIndex(full, i)
    ensures IsTail(Slice(part, DummyIndex(part), i - 1), Slice(full, DummyIndex(full), i - 1))
  {
    var d, k := DummyIndex(part) - DummyIndex(full), i - DummyIndex(part);
    assert full[..d + k][d..] == part[..k];
  }

  lemma LogsStaySame(full: seq<LogItem>, part: seq<LogItem>, args: AppendArgs)
    requires IsTail(part, full) && EntriesFit(args) && DummyIndex(part) <= args.prevLogIndex
    requires args.prevLogIndex == DummyIndex(part) ==> part[0].term == args.prevLogTerm
    ensures IsTail(LogAfter(part, args).0, LogAfter(full, args).0) && LogAfter(part, args).1 == LogAfter(full, args).1
  {
    SameItems(full, part, args.prevLogIndex);
    if HasIndex(part, args.prevLogIndex) {
      if ItemAt(part, args.prevLogIndex).term == args.prevLogTerm {
        TakeBoth(full, part, args);
      } else {
        CutBoth(full, part, args.prevLogIndex);
      }
    }
  }

  lemma AppendSame(s: Server, c: Server, args: AppendArgs)
    requires SameFrom(s, c) && EntriesFit(args) && Harmless(s, c, Append(args))
    ensures SameFrom(AppendEntries(s, args).0, AppendEntries(c, args).0)
    ensures AppendEntries(s, args).1 == AppendEntries(c, args).1
  {
    if s.currentTerm <= args.term {
      AppendParts(s, args);
      AppendParts(c, args);
      if DummyIndex(c.log) <= args.prevLogIndex {
        LogsStaySame(s.log, c.log, args);
      }
    }
  }

  lemma AppendDiffers(s: Server, c: Server, args: AppendArgs)
    requires SameFrom(s, c) && EntriesFit(args) && !Harmless(s, c, Append(args))
    ensures !SameFrom(AppendEntries(s, args).0, AppendEntries(c, args).0)
      || AppendEntries(s, args).1 != AppendEntries(c, args).1
  {
    AppendParts(s, args);
    AppendParts(c, args);
    if args.prevLogIndex < DummyIndex(c.log) {
      assert !HasIndex(c.log, args.prevLogIndex) && HasIndex(s.log, args.prevLogIndex);
    }
  }

  lemma StartSame(s: Server, c: Server, command: string)
    requires SameFrom(s, c)
    ensures SameFrom(Start(s, command).0, Start(c, command).0)
    ensures Start(s, command).1 == Start(c, command).1 && Start(s, command).2 == Start(c, command).2
    ensures Start(s, command).3 == Start(c, command).3
  {
    SameItems(s.log, c.log, DummyIndex(c.log));
    if s.state == Leader {
      StartItems(s, command);
      StartItems(c, command);
    }
  }

  lemma CompactSame(s: Server, c: Server, included: Snapshot)
    requires SameFrom(s, c)
    ensures SameFrom(s, SaveSnapshot(c, included))
  {
    if HasIndex(c.log, included.lastIncludedIndex) {
      SameItems(s.log, c.log, included.lastIncludedIndex);
      SaveSnapshotItems(c, included);
    }
  }

  /** The servers stay the same from the dummy on, and answer the same, if and only if the
      operation is harmless. */
  lemma SameIffHarmless(s: Server, c: Server, op: Op)
    requires SameFrom(s, c) && (op.Append? ==> EntriesFit(op.args))
    ensures Ready(s, op) && Ready(c, op)
    ensures SameFrom(Do(s, op, false).0, Do(c, op, true).0) && Do(s, op, false).1 == Do(c, op, true).1
        <==> Harmless(s, c, op)
  {
    match op
    case Append(args) =>
      if Harmless(s, c, op) {
        AppendSame(s, c, args);
      } else {
        AppendDiffers(s, c, args);
      }
    case Begin(command) => StartSame(s, c, command);
    case Compact(included) => CompactSame(s, c, included);
  }

  // ---------- Many operations ----------

  /** What a server is and has answered after the operations; None when one of them finds its log
      broken. */
  function DoAll(s: Server, ops: seq<Op>, compacting: bool): (r: Option<(Server, seq<Answer>)>)
    decreases |ops|
  {
    if ops == [] then Some((s, []))
    else if !Ready(s, ops[0]) then None
    else
      var (s', a) := Do(s, ops[0], compacting);
      match DoAll(s', ops[1..], compacting)
      case None => None
      case Some((t, answers)) => Some((t, [a] + answers))
  }

  /** All the operations are harmless when their turn comes. */
  ghost predicate AllHarmless(s: Server, c: Server, ops: seq<Op>)
    decreases |ops|
  {
    ops == [] ||
    (Ready(s, ops[0]) && Ready(c, ops[0]) && Harmless(s, c, ops[0])
     && AllHarmless(Do(s, ops[0], false).0, Do(c, ops[0], true).0, ops[1..]))
  }

  /** Compaction is transparent: the server that compacts goes through all the operations, gives
      the answers of the one that never does, and ends with the items of the other from its
      dummy on. */
  lemma {:induction false} CompactionIsTransparent(s: Server, c: Server, ops: seq<Op>)
    requires SameFrom(s, c) && AllHarmless(s, c, ops)
    ensures DoAll(s, ops, false).Some? && DoAll(c, ops, true).Some?
    ensures var (s', a), (c', b) := DoAll(s, ops, false).value, DoAll(c, ops, true).value; a == b && SameFrom(s', c')
    decreases |ops|
  {
    if ops != [] {
      SameIffHarmless(s, c, ops[0]);
      CompactionIsTransparent(Do(s, ops[0], false).0, Do(c, ops[0], true).0, ops[1..]);
    }
  }
}
