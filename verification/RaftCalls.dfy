/** What single calls promise whoever makes them: when a stale server learns that it is stale, what
    a client is told, when an election is won and an item committed, and what survives a crash. */
module RaftCalls {
  import opened Wrappers
  import opened RaftServer
  import opened RaftLogFacts

  /** The disk holds what the server works with. */
  ghost predicate OnDisk(s: Server)
  {
    s.disk == PersistState(s.currentTerm, s.voteFor, s.log)
  }

  // ---------- Terms ----------

  /** A server asked for its vote ends in the larger of the two terms, on disk, and says so; its log
      and what it has applied stay as they are, and it leads no more if the term is new to it. */
  lemma VoterTerm(s: Server, args: VoteArgs)
    requires s.log != [] && OnDisk(s)
    ensures var (s', reply) := RequestVote(s, args);
      && s'.currentTerm == reply.term == Max(s.currentTerm, args.term) && OnDisk(s')
      && s'.log == s.log && s'.commitIndex == s.commitIndex && s'.applied == s.applied
      && s'.state == if args.term > s.currentTerm then Follower else s.state
  {
  }

  /** The same of a server that is sent entries; it keeps its vote unless the term is new. */
  lemma FollowerTerm(s: Server, args: AppendArgs)
    requires Contiguous(s.log) && EntriesFit(args) && OnDisk(s)
    ensures var (s', reply) := AppendEntries(s, args);
      && s'.currentTerm == reply.term == Max(s.currentTerm, args.term) && OnDisk(s')
      && s'.voteFor == (if args.term > s.currentTerm then -1 else s.voteFor)
      && s'.state == (if args.term > s.currentTerm then Follower else s.state)
      && (args.term < s.currentTerm ==> s' == s && !reply.success)
  {
    if HasIndex(s.log, args.prevLogIndex) {
      AppendedContiguous(s.log, args);
    }
  }

  /** A server that has stepped down to the term t, which is on disk. */
  ghost predicate SteppedDown(s: Server, s': Server, t: int)
  {
    && s'.state == Follower && s'.currentTerm == t && s'.voteFor == -1 && OnDisk(s')
    && s'.log == s.log && s'.commitIndex == s.commitIndex && s'.applied == s.applied
  }

  /** A candidate asks a server of a newer term: it gets no vote, and whatever has become of it
      meanwhile, if it is still behind when it hears the reply it steps down to that term. */
  lemma StaleCandidateStepsDown(c: Server, voter: Server, now: Server)
    requires c.log != [] && voter.log != [] && now.log != []
    requires StartElection(c).currentTerm < voter.currentTerm && now.currentTerm < voter.currentTerm
    ensures var (voter', reply) := RequestVote(voter, VoteArgsOf(StartElection(c)));
      && voter' == voter && !reply.voteGranted
      && SteppedDown(now, OnVoteReply(now, reply), voter.currentTerm)
  {
  }

  /** A leader sends to a server of a newer term: nothing is taken, and the leader, if it is still
      behind when it hears the reply, steps down. */
  lemma StaleLeaderStepsDown(s: Server, j: nat, f: Server, now: Server)
    requires CanSendAppend(s, j) && Contiguous(f.log) && Contiguous(now.log)
    requires s.currentTerm < f.currentTerm && now.currentTerm < f.currentTerm
    ensures EntriesFit(AppendArgsFor(s, j))
    ensures var args := AppendArgsFor(s, j); var (f', reply) := AppendEntries(f, args);
      && f' == f && !reply.success && !AppendReplyPanics(now, j, args, reply)
      && SteppedDown(now, OnAppendReply(now, j, args, reply), f.currentTerm)
  {
  }

  /** Replies from older terms change nothing. */
  lemma OldRepliesAreIgnored(s: Server, j: nat, args: AppendArgs, vote: VoteReply, reply: AppendReply)
    requires Contiguous(s.log) && vote.term < s.currentTerm && reply.term < s.currentTerm
    ensures OnVoteReply(s, vote) == s
    ensures !AppendReplyPanics(s, j, args, reply) && OnAppendReply(s, j, args, reply) == s
  {
  }

  // ---------- Elections ----------

  /** A new candidate is in a term newer than its old one, has its own vote on disk and counted,
      and is leader no more. */
  lemma Campaigns(s: Server)
    requires s.log != []
    ensures var c := StartElection(s);
      && c.currentTerm == s.currentTerm + 1 && c.state == Candidate && c.voteCount == 1
      && OnDisk(c) && c.disk.voteFor == s.me && c.log == s.log
      && IsMoreUpdated(VoteArgsOf(c).lastLogTerm, VoteArgsOf(c).lastLogIndex, LastTerm(s.log), LastIndex(s.log))
      && VoteArgsOf(c).term == c.currentTerm && VoteArgsOf(c).candidateId == s.me
  {
  }

  /** A server that is not leader becomes leader exactly with the vote of its own term that makes
      more than half of the servers. */
  lemma WinsIff(s: Server, reply: VoteReply)
    requires s.log != [] && s.state != Leader
    ensures OnVoteReply(s, reply).state == Leader <==>
      reply.term == s.currentTerm && 2 * (s.voteCount + if reply.voteGranted then 1 else 0) > s.n
  {
  }

  /** To a leader the votes that are still on their way make no difference. */
  lemma LeaderIgnoresVotes(s: Server, reply: VoteReply)
    requires s.log != [] && s.state == Leader && reply.term <= s.currentTerm
    ensures OnVoteReply(s, reply) == s.(voteCount := OnVoteReply(s, reply).voteCount)
  {
  }

  // ---------- Clients ----------

  /** Start says whether the server is leader, and only a leader takes the command: it is then the
      last item of its log, under the index and term that the client is told, on disk, and counted as
      held by the leader itself. */
  lemma StartAnswers(s: Server, command: string)
    requires Contiguous(s.log) && (s.state == Leader ==> s.me < |s.matchIndex|)
    ensures var (s', index, term, isLeader) := Start(s, command);
      && (isLeader <==> s.state == Leader)
      && (!isLeader ==> s' == s && index == -1 && term == -1)
      && (isLeader ==>
            && Contiguous(s'.log) && s.log < s'.log && |s'.log| == |s.log| + 1
            && LastIndex(s'.log) == index && ItemAt(s'.log, index) == LogItem(command, term, index)
            && term == s.currentTerm && s'.disk.log == s'.log
            && s'.matchIndex[s.me] == index && s'.state == Leader && s'.commitIndex == s.commitIndex)
  {
  }

  // ---------- Commitment ----------

  /** After a success reply a leader whose log ends in its own term has committed whatever at least
      half of the servers hold, and no more unless it had before; it has applied the new items, each
      once. */
  lemma LeaderCommits(s: Server, j: nat, args: AppendArgs, v: int)
    requires Contiguous(s.log) && LastTerm(s.log) == s.currentTerm
    requires !AppendReplyPanics(s, j, args, AppendReply(s.currentTerm, true))
    ensures var s' := OnAppendReply(s, j, args, AppendReply(s.currentTerm, true));
      && s'.matchIndex == s.matchIndex[j := args.prevLogIndex + |args.entries|]
      && (v <= s'.commitIndex <==> v <= s.commitIndex || 2 * CountGe(s'.matchIndex, v) >= |s'.matchIndex|)
      && s.commitIndex <= s'.commitIndex
      && (s.commitIndex < s'.commitIndex ==> s'.commitIndex <= LastIndex(s.log))
      && s'.applied == s.applied + CommitMessages(s.log, s.commitIndex + 1, s'.commitIndex)
  {
    FindMatchIffHalf(s.matchIndex[j := args.prevLogIndex + |args.entries|], v);
  }

  /** What at least half of the servers have reached is what is not beyond FindMatch. */
  lemma FindMatchIffHalf(matchIndex: seq<int>, v: int)
    requires matchIndex != []
    ensures v <= FindMatch(matchIndex) <==> 2 * CountGe(matchIndex, v) >= |matchIndex|
  {
    FindMatchIsLargest(matchIndex, v);
    if v <= FindMatch(matchIndex) {
      CountAntitone(matchIndex, v, FindMatch(matchIndex));
    }
  }

  /** A leader whose log ends in an older term commits nothing. */
  lemma OldTermCommitsNothing(s: Server, j: nat, args: AppendArgs, reply: AppendReply)
    requires Contiguous(s.log) && LastTerm(s.log) != s.currentTerm && !AppendReplyPanics(s, j, args, reply)
    ensures OnAppendReply(s, j, args, reply).commitIndex == s.commitIndex
    ensures OnAppendReply(s, j, args, reply).applied == s.applied
  {
  }

  /** A follower that takes entries commits as much as the leader has, as far as its log goes, and
      applies the new items, each once; what it has applied it does not unsay. */
  lemma FollowerCommits(s: Server, args: AppendArgs)
    requires Contiguous(s.log) && EntriesFit(args) && AppendEntries(s, args).1.success
    ensures var s' := AppendEntries(s, args).0;
      && Contiguous(s'.log)
      && (args.leaderCommit <= s.commitIndex ==> s'.commitIndex == s.commitIndex && s'.applied == s.applied)
      && (args.leaderCommit > s.commitIndex ==>
            && s'.commitIndex <= args.leaderCommit && s'.commitIndex <= LastIndex(s'.log)
            && (s'.commitIndex == args.leaderCommit || s'.commitIndex == LastIndex(s'.log))
            && s'.applied == s.applied + CommitMessages(s'.log, s.commitIndex + 1, s'.commitIndex)
            && s'.lastApplied >= s.lastApplied && s'.lastApplied >= s'.commitIndex
            && s'.lastApplied in {s.lastApplied, s'.commitIndex})
  {
    AppendedContiguous(s.log, args);
  }

  // ---------- Crashes ----------

  /** A restarted server has the term, the vote and the log of its disk; it leads nothing, and takes
      everything up to the dummy, and nothing else, for applied. */
  lemma Restarts(s: Server)
    requires s.log != [] && OnDisk(s)
    ensures var r := Make(s.n, s.me, s.disk, s.snapshot);
      && r.currentTerm == s.currentTerm && r.voteFor == s.voteFor && r.log == s.log && OnDisk(r)
      && r.snapshot == s.snapshot && r.state == Follower && r.voteCount == 0
      && r.commitIndex == r.lastApplied == DummyIndex(s.log)
      && r.n == s.n && r.me == s.me
  {
  }

  /** After a compaction and a crash the server has the snapshot, and a log that starts at the index
      the snapshot includes and has the items that the log had from there on; what it takes for applied
      is what the snapshot includes. */
  lemma SnapshotSurvives(s: Server, included: Snapshot, i: int)
    requires Contiguous(s.log) && HasIndex(s.log, included.lastIncludedIndex)
    ensures SaveSnapshot(s, included).disk.log != []
    ensures var s' := SaveSnapshot(s, included); var r := Make(s'.n, s'.me, s'.disk, s'.snapshot);
      && r.snapshot == Some(included) && Contiguous(r.log)
      && DummyIndex(r.log) == r.commitIndex == included.lastIncludedIndex
      && (HasIndex(r.log, i) <==> HasIndex(s.log, i) && included.lastIncludedIndex <= i)
      && (HasIndex(r.log, i) ==> ItemAt(r.log, i) == ItemAt(s.log, i))
      && r.currentTerm == s.currentTerm && r.voteFor == s.voteFor
  {
    SaveSnapshotItems(s, included);
  }

  /** A snapshot of an index that the log does not hold is not taken. */
  lemma ForeignSnapshotIsIgnored(s: Server, included: Snapshot)
    requires Contiguous(s.log) && !HasIndex(s.log, included.lastIncludedIndex)
    ensures SaveSnapshot(s, included) == s
  {
  }
}
