/** One Raft server as a value: the fields of a server, and functions that say what each
    critical section does to them. */
module RaftServer {
  import opened Wrappers

  datatype LogItem = LogItem(command: string, term: int, index: int)

  datatype NodeState = Follower | Candidate | Leader

  /** What is written to stable storage. */
  datatype PersistState = PersistState(term: int, voteFor: int, log: seq<LogItem>)

  /** The state of the service after the included item, as the persister keeps it. */
  datatype Snapshot = Snapshot(state: seq<bv8>, lastIncludedIndex: int, lastIncludedTerm: int)

  datatype ApplyMsg = ApplyMsg(commandValid: bool, command: string, commandIndex: int, term: int)

  datatype Server = Server(
    n: nat, me: nat,
    currentTerm: int, voteFor: int, log: seq<LogItem>,
    state: NodeState, voteCount: int,
    commitIndex: int, lastApplied: int,
    nextIndex: seq<int>, matchIndex: seq<int>,
    disk: PersistState, snapshot: Option<Snapshot>,
    applied: seq<ApplyMsg>)

  datatype VoteArgs = VoteArgs(term: int, candidateId: nat, lastLogIndex: int, lastLogTerm: int)

  datatype VoteReply = VoteReply(term: int, voteGranted: bool)

  datatype AppendArgs = AppendArgs(term: int, leaderId: nat, prevLogIndex: int, prevLogTerm: int,
                                   entries: seq<LogItem>, leaderCommit: int)

  datatype AppendReply = AppendReply(term: int, success: bool)

  function Min(a: int, b: int): (r: int) { if a <= b then a else b }

  function Max(a: int, b: int): (r: int) { if a <= b then b else a }

  // ---------- The log, whose first item may have any index ----------

  predicate Contiguous(log: seq<LogItem>)
  {
    log != [] && forall k :: 0 <= k < |log| ==> log[k].index == log[0].index + k
  }

  function DummyIndex(log: seq<LogItem>): (r: int)
    requires log != []
  {
    log[0].index
  }

  function LastIndex(log: seq<LogItem>): (r: int)
    requires log != []
  {
    log[|log| - 1].index
  }

  predicate HasIndex(log: seq<LogItem>, i: int)
    requires log != []
  {
    DummyIndex(log) <= i <= LastIndex(log)
  }

  function ItemAt(log: seq<LogItem>, i: int): (r: LogItem)
    requires Contiguous(log) && HasIndex(log, i)
    ensures r.index == i
  {
    log[i - DummyIndex(log)]
  }

  /** The items from index i up to index j. */
  function Slice(log: seq<LogItem>, i: int, j: int): (r: seq<LogItem>)
    requires Contiguous(log) && DummyIndex(log) <= i <= j + 1 <= LastIndex(log) + 1
  {
    log[i - DummyIndex(log) .. j - DummyIndex(log) + 1]
  }

  function LastTerm(log: seq<LogItem>): (r: int)
    requires log != []
  {
    log[|log| - 1].term
  }

  predicate IsMoreUpdated(term1: int, index1: int, term2: int, index2: int)
  {
    term1 > term2 || (term1 == term2 && index1 >= index2)
  }

  function Majority(n: nat): (r: nat) { n / 2 + 1 }

  // ---------- State changes ----------

  function Persisted(s: Server): (r: Server)
  {
    s.(disk := PersistState(s.currentTerm, s.voteFor, s.log))
  }

  function BecomeFollower(s: Server, term: int): (r: Server)
  {
    s.(state := Follower, currentTerm := term, voteCount := 0, voteFor := -1)
  }

  function BecomeCandidate(s: Server): (r: Server)
  {
    s.(state := Candidate, voteFor := s.me, voteCount := 1, currentTerm := s.currentTerm + 1)
  }

  function BecomeLeader(s: Server): (r: Server)
    requires s.log != []
  {
    s.(state := Leader, voteCount := 0,
       matchIndex := seq(s.n, _ => 0), nextIndex := seq(s.n, _ => LastIndex(s.log) + 1))
  }

  // ---------- Elections ----------

  function StartElection(s: Server): (r: Server)
  {
    Persisted(BecomeCandidate(s))
  }

  function VoteArgsOf(s: Server): (r: VoteArgs)
    requires s.log != []
  {
    VoteArgs(s.currentTerm, s.me, LastIndex(s.log), LastTerm(s.log))
  }

  function RequestVote(s: Server, args: VoteArgs): (r: (Server, VoteReply))
    requires s.log != []
  {
    if args.term < s.currentTerm then (s, VoteReply(s.currentTerm, false))
    else
      var s1 := if args.term > s.currentTerm then BecomeFollower(s, args.term) else s;
      if (s1.voteFor == -1 || s1.voteFor == args.candidateId)
         && IsMoreUpdated(args.lastLogTerm, args.lastLogIndex, LastTerm(s.log), LastIndex(s.log))
      then (Persisted(s1.(voteFor := args.candidateId)), VoteReply(s1.currentTerm, true))
      else (Persisted(s1), VoteReply(s1.currentTerm, false))
  }

  function OnVoteReply(s: Server, reply: VoteReply): (r: Server)
    requires s.log != []
  {
    if reply.term < s.currentTerm then s
    else if reply.term > s.currentTerm then Persisted(BecomeFollower(s, reply.term))
    else
      var s1 := if reply.voteGranted then s.(voteCount := s.voteCount + 1) else s;
      if s1.state != Leader && s1.voteCount >= Majority(s.n) then Persisted(BecomeLeader(s1)) else s1
  }

  // ---------- Replication ----------

  /** The messages for the items from index `from` to index `upTo`. */
  function CommitMessages(log: seq<LogItem>, from: int, upTo: int): (r: seq<ApplyMsg>)
    requires Contiguous(log) && (from <= upTo ==> upTo <= LastIndex(log))
    decreases upTo - from
  {
    var first := Max(from, DummyIndex(log) + 1);
    if first > upTo then []
    else [ApplyMsg(true, ItemAt(log, first).command, ItemAt(log, first).index, ItemAt(log, first).term)]
         + CommitMessages(log, first + 1, upTo)
  }

  lemma NextMessage(log: seq<LogItem>, i: int, upTo: int)
    requires Contiguous(log) && DummyIndex(log) < i <= upTo <= LastIndex(log)
    ensures var item := ItemAt(log, i);
      CommitMessages(log, i, upTo)
      == [ApplyMsg(true, item.command, item.index, item.term)] + CommitMessages(log, i + 1, upTo)
  {
  }

  /** The new items continue the log right after prevLogIndex. */
  predicate EntriesFit(args: AppendArgs)
  {
    forall k :: 0 <= k < |args.entries| ==> args.entries[k].index == args.prevLogIndex + 1 + k
  }

  function AppendEntries(s: Server, args: AppendArgs): (r: (Server, AppendReply))
    requires Contiguous(s.log) && EntriesFit(args)
  {
    if args.term < s.currentTerm then (s, AppendReply(s.currentTerm, false))
    else
      var s1 := if args.term > s.currentTerm then BecomeFollower(s, args.term) else s;
      if !HasIndex(s.log, args.prevLogIndex) then (Persisted(s1), AppendReply(s1.currentTerm, false))
      else if ItemAt(s.log, args.prevLogIndex).term != args.prevLogTerm then
        (Persisted(s1.(log := Slice(s.log, DummyIndex(s.log), args.prevLogIndex - 1))),
         AppendReply(s1.currentTerm, false))
      else
        var log := Slice(s.log, DummyIndex(s.log), args.prevLogIndex) + args.entries;
        AppendedContiguous(s.log, args);
        var s2 := s1.(log := log);
        (Persisted(if args.leaderCommit > s.commitIndex then Commit(s2, args.leaderCommit) else s2),
         AppendReply(s1.currentTerm, true))
  }

  lemma AppendedContiguous(log: seq<LogItem>, args: AppendArgs)
    requires Contiguous(log) && EntriesFit(args) && HasIndex(log, args.prevLogIndex)
    ensures Contiguous(Slice(log, DummyIndex(log), args.prevLogIndex) + args.entries)
    ensures LastIndex(Slice(log, DummyIndex(log), args.prevLogIndex) + args.entries)
         == args.prevLogIndex + |args.entries|
  {
  }

  /** A follower learns of the leader's commit index. */
  function Commit(s: Server, leaderCommit: int): (r: Server)
    requires Contiguous(s.log)
  {
    var commitIndex := Min(LastIndex(s.log), leaderCommit);
    s.(commitIndex := commitIndex,
       applied := s.applied + CommitMessages(s.log, s.commitIndex + 1, commitIndex),
       lastApplied := Max(commitIndex, s.lastApplied))
  }

  /** What an append request that is not stale does to a log, and whether it succeeds. */
  function LogAfter(log: seq<LogItem>, args: AppendArgs): (r: (seq<LogItem>, bool))
    requires Contiguous(log)
  {
    if !HasIndex(log, args.prevLogIndex) then (log, false)
    else if ItemAt(log, args.prevLogIndex).term != args.prevLogTerm then
      (Slice(log, DummyIndex(log), args.prevLogIndex - 1), false)
    else (Slice(log, DummyIndex(log), args.prevLogIndex) + args.entries, true)
  }

  lemma AppendParts(s: Server, args: AppendArgs)
    requires Contiguous(s.log) && EntriesFit(args) && s.currentTerm <= args.term
    ensures var (s', reply) := AppendEntries(s, args);
      && (s'.log, reply.success) == LogAfter(s.log, args) && reply.term == s'.currentTerm == args.term
      && s'.me == s.me && s'.matchIndex == s.matchIndex
      && s'.state == if s.currentTerm < args.term then Follower else s.state
  {
  }

  predicate CanSendAppend(s: Server, j: nat)
  {
    && s.state == Leader && Contiguous(s.log) && j < |s.nextIndex| && j != s.me
    && HasIndex(s.log, s.nextIndex[j] - 1)
  }

  function AppendArgsFor(s: Server, j: nat): (r: AppendArgs)
    requires CanSendAppend(s, j)
  {
    var prev := s.nextIndex[j] - 1;
    AppendArgs(s.currentTerm, s.me, prev, ItemAt(s.log, prev).term, Slice(s.log, prev + 1, LastIndex(s.log)),
               s.commitIndex)
  }

  // ---------- The index that a majority has reached ----------

  function Insert(x: int, sorted: seq<int>): (r: seq<int>)
  {
    if sorted == [] || x <= sorted[0] then [x] + sorted else [sorted[0]] + Insert(x, sorted[1..])
  }

  function Sorted(xs: seq<int>): (r: seq<int>)
  {
    if xs == [] then [] else Insert(xs[0], Sorted(xs[1..]))
  }

  lemma {:induction false} InsertLength(x: int, sorted: seq<int>)
    ensures |Insert(x, sorted)| == |sorted| + 1
  {
    if sorted != [] && x > sorted[0] {
      InsertLength(x, sorted[1..]);
    }
  }

  lemma {:induction false} SortedLength(xs: seq<int>)
    ensures |Sorted(xs)| == |xs|
  {
    if xs != [] {
      SortedLength(xs[1..]);
      InsertLength(xs[0], Sorted(xs[1..]));
    }
  }

  function FindMatch(matchIndex: seq<int>): (r: int)
    requires matchIndex != []
  {
    SortedLength(matchIndex);
    Sorted(matchIndex)[|matchIndex| / 2]
  }

  /** Why the program would panic on this reply: an index out of range. */
  predicate AppendReplyPanics(s: Server, j: nat, args: AppendArgs, reply: AppendReply)
    requires Contiguous(s.log)
  {
    && reply.term == s.currentTerm
    && (|| j >= |s.nextIndex| || j >= |s.matchIndex|
        || (reply.success && LastTerm(s.log) == s.currentTerm
            && FindMatch(s.matchIndex[j := args.prevLogIndex + |args.entries|]) > Max(s.commitIndex, LastIndex(s.log))))
  }

  function OnAppendReply(s: Server, j: nat, args: AppendArgs, reply: AppendReply): (r: Server)
    requires Contiguous(s.log) && !AppendReplyPanics(s, j, args, reply)
  {
    if reply.term > s.currentTerm then Persisted(BecomeFollower(s, reply.term))
    else if reply.term < s.currentTerm then s
    else if reply.success then
      var last := args.prevLogIndex + |args.entries|;
      var s1 := s.(nextIndex := s.nextIndex[j := last + 1], matchIndex := s.matchIndex[j := last]);
      if LastTerm(s.log) == s.currentTerm then
        var commitIndex := Max(s.commitIndex, FindMatch(s1.matchIndex));
        s1.(commitIndex := commitIndex,
            applied := s.applied + CommitMessages(s.log, s.commitIndex + 1, commitIndex),
            lastApplied := commitIndex)
      else s1
    else if args.prevLogIndex == DummyIndex(s.log) then s.(nextIndex := s.nextIndex[j := DummyIndex(s.log)])
    else s.(nextIndex := s.nextIndex[j := Max(args.prevLogIndex - |args.entries|, DummyIndex(s.log) + 1)])
  }

  /** Accepting a client's command. */
  function Start(s: Server, command: string): (r: (Server, int, int, bool))
    requires s.log != [] && (s.state == Leader ==> s.me < |s.matchIndex|)
  {
    if s.state != Leader then (s, -1, -1, false)
    else
      var index := LastIndex(s.log) + 1;
      (Persisted(s.(log := s.log + [LogItem(command, s.currentTerm, index)],
                    matchIndex := s.matchIndex[s.me := index])),
       index, s.currentTerm, true)
  }

  // ---------- Starting and restarting ----------

  const DUMMY: LogItem := LogItem("dummy node", 0, 0)

  const BLANK: PersistState := PersistState(0, -1, [DUMMY])

  /** A server made from what the persister holds. */
  function Make(n: nat, me: nat, disk: PersistState, snapshot: Option<Snapshot>): (s: Server)
    requires disk.log != []
  {
    var start := DummyIndex(disk.log);
    Server(n, me, disk.term, disk.voteFor, disk.log, Follower, 0, start, start, [], [], disk, snapshot, [])
  }

  // ---------- Compaction ----------

  function SaveSnapshot(s: Server, included: Snapshot): (r: Server)
    requires Contiguous(s.log)
  {
    if !HasIndex(s.log, included.lastIncludedIndex) then s
    else
      Persisted(s.(log := Slice(s.log, included.lastIncludedIndex, LastIndex(s.log)), snapshot := Some(included)))
  }
}
