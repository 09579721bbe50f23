/** The server as an object: its fields, and the critical sections as methods. */
module RaftNode {
  import opened Collections
  import opened Wrappers
  import opened RaftServer

  class Raft {
    const n: nat
    const me: nat
    var currentTerm: int
    var voteFor: int
    var log: seq<LogItem>
    var state: NodeState
    var voteCount: int
    var commitIndex: int
    var lastApplied: int
    var nextIndex: seq<int>
    var matchIndex: seq<int>
    var disk: PersistState          // what the persister holds
    var snapshot: Option<Snapshot>  // and the snapshot it holds
    var applied: seq<ApplyMsg>      // what was sent on the apply channel

    ghost function Value(): (s: Server)
      reads this
    {
      Server(n, me, currentTerm, voteFor, log, state, voteCount, commitIndex, lastApplied, nextIndex, matchIndex,
             disk, snapshot, applied)
    }

    /** A new server; a blank disk is initialised. */
    constructor Make(n: nat, me: nat, saved: Option<PersistState>, snapshot: Option<Snapshot>)
      requires saved.Some? ==> saved.value.log != []
      ensures Value() == RaftServer.Make(n, me, if saved.Some? then saved.value else BLANK, snapshot)
    {
      this.n, this.me, this.snapshot := n, me, snapshot;
      state, voteCount := Follower, 0;
      nextIndex, matchIndex, applied := [], [], [];
      if saved.Some? {
        currentTerm, voteFor, log := saved.value.term, saved.value.voteFor, saved.value.log;
        disk := saved.value;
        commitIndex, lastApplied := saved.value.log[0].index, saved.value.log[0].index;
      } else {
        currentTerm, voteFor, log := 0, -1, [DUMMY];
        disk := PersistState(0, -1, [DUMMY]);
        commitIndex, lastApplied := 0, 0;
      }
    }

    method Persist()
      modifies this`disk
      ensures Value() == Persisted(old(Value()))
    {
      disk := PersistState(currentTerm, voteFor, log);
    }

    method BecomeFollower(term: int)
      modifies this
      ensures Value() == RaftServer.BecomeFollower(old(Value()), term)
    {
      state := Follower;
      currentTerm := term;
      voteCount := 0;
      voteFor := -1;
    }

    method BecomeCandidate()
      modifies this
      ensures Value() == RaftServer.BecomeCandidate(old(Value()))
    {
      state := Candidate;
      voteFor := me;
      voteCount := 1;
      currentTerm := currentTerm + 1;
    }

    method BecomeLeader()
      requires log != []
      modifies this
      ensures Value() == RaftServer.BecomeLeader(old(Value()))
    {
      state := Leader;
      voteCount := 0;
      matchIndex := [];
      nextIndex := [];
      ghost var next := LastIndex(log) + 1;
      for i := 0 to n
        invariant nextIndex == seq(i, _ => next) && matchIndex == seq(i, _ => 0)
        invariant Value() == old(Value()).(state := Leader, voteCount := 0,
                                           nextIndex := nextIndex, matchIndex := matchIndex)
      {
        nextIndex := nextIndex + [LastIndex(log) + 1];
        matchIndex := matchIndex + [0];
      }
    }

    /** The election timeout has passed; returns what is sent to every other server. */
    method StartElection() returns (args: VoteArgs)
      requires log != []
      modifies this
      ensures Value() == RaftServer.StartElection(old(Value())) && args == VoteArgsOf(Value())
    {
      BecomeCandidate();
      Persist();
      args := VoteArgs(currentTerm, me, LastIndex(log), LastTerm(log));
    }

    method RequestVote(args: VoteArgs) returns (reply: VoteReply)
      requires log != []
      modifies this
      ensures (Value(), reply) == RaftServer.RequestVote(old(Value()), args)
    {
      if args.term < currentTerm {
        return VoteReply(currentTerm, false);
      }
      if args.term > currentTerm {
        BecomeFollower(args.term);
      }
      if voteFor == -1 || voteFor == args.candidateId {
        var lastTerm := LastTerm(log);
        var lastIndex := LastIndex(log);
        if IsMoreUpdated(args.lastLogTerm, args.lastLogIndex, lastTerm, lastIndex) {
          voteFor := args.candidateId;
          reply := VoteReply(currentTerm, true);
          Persist();
          return;
        }
      }
      reply := VoteReply(currentTerm, false);
      Persist();
    }

    /** The reply to a vote request has come in. */
    method VoteReplied(reply: VoteReply)
      requires log != []
      modifies this
      ensures Value() == OnVoteReply(old(Value()), reply)
    {
      if reply.term < currentTerm {
        return;
      }
      if reply.term > currentTerm {
        BecomeFollower(reply.term);
        Persist();
        return;
      }
      if reply.voteGranted {
        voteCount := voteCount + 1;
      }
      if state != Leader && voteCount >= Majority(n) {
        BecomeLeader();
        Persist();
      }
    }

    method DeleteLogFromIndexInclusive(i: int)
      requires Contiguous(log) && DummyIndex(log) <= i <= LastIndex(log) + 1
      modifies this`log
      ensures log == Slice(old(log), DummyIndex(old(log)), i - 1)
    {
      var length := i - DummyIndex(log);
      var newLog: seq<LogItem> := [];
      for k := 0 to length
        invariant newLog == log[..k]
      {
        newLog := newLog + [log[k]];
      }
      log := newLog;
    }

    method SendCommitMessage(from: int, upTo: int)
      requires Contiguous(log) && (from <= upTo ==> upTo <= LastIndex(log))
      modifies this`applied
      ensures applied == old(applied) + CommitMessages(log, from, upTo)
    {
      var i := Max(from, DummyIndex(log) + 1);
      assert CommitMessages(log, i, upTo) == CommitMessages(log, from, upTo);
      while i <= upTo
        invariant DummyIndex(log) < i
        invariant applied + CommitMessages(log, i, upTo) == old(applied) + CommitMessages(log, from, upTo)
        decreases upTo - i
      {
        var item := ItemAt(log, i);
        var msg := ApplyMsg(true, item.command, item.index, item.term);
        NextMessage(log, i, upTo);
        Regroup(applied, [msg], CommitMessages(log, i + 1, upTo));
        applied := applied + [msg];
        i := i + 1;
      }
    }

    method AppendEntries(args: AppendArgs) returns (reply: AppendReply)
      requires Contiguous(log) && EntriesFit(args)
      modifies this
      ensures (Value(), reply) == RaftServer.AppendEntries(old(Value()), args)
    {
      if args.term > currentTerm {
        BecomeFollower(args.term);
      } else if args.term < currentTerm {
        return AppendReply(currentTerm, false);
      }
      if args.prevLogIndex > LastIndex(log) || args.prevLogIndex < DummyIndex(log) {
        Persist();
        return AppendReply(currentTerm, false);
      }
      var previousItem := ItemAt(log, args.prevLogIndex);
      if previousItem.term != args.prevLogTerm {
        DeleteLogFromIndexInclusive(args.prevLogIndex);
        Persist();
        return AppendReply(currentTerm, false);
      }
      Extend(args);
      reply := AppendReply(currentTerm, true);
      if args.leaderCommit > commitIndex {
        LearnCommit(args.leaderCommit);
      }
      Persist();
    }

    /** Replaces everything after prevLogIndex by the new entries. */
    method Extend(args: AppendArgs)
      requires Contiguous(log) && EntriesFit(args) && HasIndex(log, args.prevLogIndex)
      modifies this`log
      ensures log == Slice(old(log), DummyIndex(old(log)), args.prevLogIndex) + args.entries && Contiguous(log)
    {
      AppendedContiguous(log, args);
      ghost var kept := Slice(log, DummyIndex(log), args.prevLogIndex);
      DeleteLogFromIndexInclusive(args.prevLogIndex + 1);
      for k := 0 to |args.entries|
        invariant log == kept + args.entries[..k]
      {
        log := log + [args.entries[k]];
      }
      assert args.entries[..|args.entries|] == args.entries;
    }

    method LearnCommit(leaderCommit: int)
      requires Contiguous(log)
      modifies this`commitIndex, this`applied, this`lastApplied
      ensures Value() == Commit(old(Value()), leaderCommit)
    {
      var lastCommit := commitIndex;
      commitIndex := Min(LastIndex(log), leaderCommit);
      SendCommitMessage(lastCommit + 1, commitIndex);
      lastApplied := Max(commitIndex, lastApplied);
    }

    /** What the leader sends to server j. */
    method AppendArgsOf(j: nat) returns (args: AppendArgs)
      requires CanSendAppend(Value(), j)
      ensures args == AppendArgsFor(Value(), j)
    {
      var prev := nextIndex[j] - 1;
      var newLog: seq<LogItem> := [];
      var i := nextIndex[j];
      while i <= LastIndex(log)
        invariant prev + 1 <= i <= LastIndex(log) + 1
        invariant newLog == Slice(log, prev + 1, i - 1)
      {
        newLog := newLog + [ItemAt(log, i)];
        i := i + 1;
      }
      args := AppendArgs(currentTerm, me, prev, ItemAt(log, prev).term, newLog, commitIndex);
    }

    method FindMatch() returns (middle: int)
      requires matchIndex != []
      ensures middle == RaftServer.FindMatch(matchIndex)
    {
      var sorted: seq<int> := [];
      var i := |matchIndex|;
      while i > 0
        invariant 0 <= i <= |matchIndex|
        invariant sorted == Sorted(matchIndex[i..])
      {
        i := i - 1;
        assert matchIndex[i..][0] == matchIndex[i] && matchIndex[i..][1..] == matchIndex[i + 1..];
        sorted := Insert(matchIndex[i], sorted);
      }
      assert matchIndex[0..] == matchIndex;
      SortedLength(matchIndex);
      middle := sorted[|sorted| / 2];
    }

    /** The reply of server j to an append request has come in. */
    method AppendReplied(j: nat, args: AppendArgs, reply: AppendReply)
      requires Contiguous(log) && !AppendReplyPanics(Value(), j, args, reply)
      modifies this
      ensures Value() == OnAppendReply(old(Value()), j, args, reply)
    {
      if reply.term > currentTerm {
        BecomeFollower(reply.term);
        Persist();
        return;
      }
      if reply.term < currentTerm {
        return;
      }
      if reply.success {
        nextIndex := nextIndex[j := args.prevLogIndex + |args.entries| + 1];
        matchIndex := matchIndex[j := args.prevLogIndex + |args.entries|];
        var newCommit := FindMatch();
        if LastTerm(log) == currentTerm {
          var lastCommit := commitIndex;
          commitIndex := Max(commitIndex, newCommit);
          SendCommitMessage(lastCommit + 1, commitIndex);
          lastApplied := commitIndex;
        }
      } else if args.prevLogIndex == DummyIndex(log) {
        nextIndex := nextIndex[j := DummyIndex(log)];
      } else {
        nextIndex := nextIndex[j := Max(args.prevLogIndex - |args.entries|, DummyIndex(log) + 1)];
      }
    }

    method Start(command: string) returns (index: int, term: int, isLeader: bool)
      requires log != [] && (state == Leader ==> me < |matchIndex|)
      modifies this
      ensures (Value(), index, term, isLeader) == RaftServer.Start(old(Value()), command)
    {
      if state != Leader {
        return -1, -1, false;
      }
      var newItem := LogItem(command, currentTerm, LastIndex(log) + 1);
      log := log + [newItem];
      matchIndex := matchIndex[me := LastIndex(log)];
      index, term, isLeader := LastIndex(log), currentTerm, true;
      Persist();
    }

    method SaveSnapshot(lastIncludedIndex: int, lastIncludedTerm: int, data: seq<bv8>)
      requires Contiguous(log)
      modifies this
      ensures Value() == RaftServer.SaveSnapshot(old(Value()), Snapshot(data, lastIncludedIndex, lastIncludedTerm))
    {
      if !HasIndex(log, lastIncludedIndex) {
        return;
      }
      log := Slice(log, lastIncludedIndex, LastIndex(log));
      snapshot := Some(Snapshot(data, lastIncludedIndex, lastIncludedTerm));
      Persist();
    }
  }
}
