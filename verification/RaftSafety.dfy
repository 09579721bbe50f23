/** Raft's safety: servers that are careful about what they cut off and what they commit never
    apply different commands at the same index, and no leader lacks what has been applied. */
module RaftSafety {
  import opened Collections
  import opened RaftServer
  import opened RaftProtocol
  import opened RaftCareful
  import E = RaftElection
  import L = RaftLogs
  import R = RaftReplies
  import F = RaftLogFacts
  import A = RaftAcks

  // ---------- The invariant ----------

  /** The index is chosen in term t or before. */
  ghost predicate Backed(h: History, g: A.Acks, n: nat, t: int, k: int)
  {
    k <= 0 || exists t', m :: t' <= t && A.Chosen(h, g, n, t', m) && k <= m
  }

  function MsgOf(item: LogItem): (r: ApplyMsg) { ApplyMsg(true, item.command, item.index, item.term) }

  /** The message is about an item that is chosen with those before it. */
  ghost predicate MsgFrom(h: History, g: A.Acks, n: nat, t: int, m: nat, msg: ApplyMsg)
  {
    A.Chosen(h, g, n, t, m) && 1 <= msg.commandIndex <= m && msg == MsgOf(h.logs[t][msg.commandIndex])
  }

  ghost predicate MsgOk(h: History, g: A.Acks, n: nat, t: int, msg: ApplyMsg)
  {
    exists t', m :: t' <= t && MsgFrom(h, g, n, t', m, msg)
  }

  ghost predicate MatchOk(g: A.Acks, s: Server)
  {
    s.state == Leader ==> forall j: nat :: j < |s.matchIndex| ==> s.matchIndex[j] <= A.Taken(g, j, s.currentTerm)
  }

  ghost predicate ServerOk(h: History, g: A.Acks, n: nat, s: Server)
  {
    && MatchOk(g, s) && Backed(h, g, n, s.currentTerm, s.commitIndex)
    && forall msg :: msg in s.applied ==> MsgOk(h, g, n, s.currentTerm, msg)
  }

  ghost predicate CallOk(h: History, g: A.Acks, n: nat, c: Call)
    requires c.AppendCall?
  {
    && Backed(h, g, n, c.aargs.term, c.aargs.leaderCommit)
    && (c.areply.Some? && c.areply.value.success ==>
          c.aargs.prevLogIndex + |c.aargs.entries| <= A.Taken(g, c.dest, c.aargs.term))
  }

  ghost predicate SafeInv(w: World, h: History, g: A.Acks)
  {
    && (forall i :: 0 <= i < |w.servers| ==> ServerOk(h, g, |w.servers|, w.servers[i]))
    && (forall id {:trigger w.calls[id]} :: id in w.calls && w.calls[id].AppendCall? ==>
          CallOk(h, g, |w.servers|, w.calls[id]))
  }

  ghost predicate AllInv(w: World, h: History, g: A.Acks)
  {
    A.AllInv(w, h, g) && R.Inv(w) && SafeInv(w, h, g)
  }

  lemma ServerIs(w: World, h: History, g: A.Acks, i: nat)
    requires AllInv(w, h, g) && i < |w.servers|
    ensures ServerOk(h, g, |w.servers|, w.servers[i])
  {
  }

  // ---------- What is chosen stays chosen ----------

  ghost predicate Grows(h: History, g: A.Acks, h': History, g': A.Acks)
  {
    L.LogsGrow(h, h') && forall v: nat, t: int :: A.Taken(g, v, t) <= A.Taken(g', v, t)
  }

  lemma ChosenStays(h: History, g: A.Acks, h': History, g': A.Acks, n: nat, t: int, m: nat)
    requires Grows(h, g, h', g') && A.Chosen(h, g, n, t, m)
    ensures A.Chosen(h', g', n, t, m)
  {
    SubsetCardinality(A.Takers(g, n, t, m), A.Takers(g', n, t, m));
    assert h.logs[t] <= h'.logs[t];
  }

  lemma BackedStays(h: History, g: A.Acks, h': History, g': A.Acks, n: nat, t: int, t': int, k: int)
    requires Grows(h, g, h', g') && Backed(h, g, n, t, k) && t <= t'
    ensures Backed(h', g', n, t', k)
  {
    if k > 0 {
      var t0, m :| t0 <= t && A.Chosen(h, g, n, t0, m) && k <= m;
      ChosenStays(h, g, h', g', n, t0, m);
    }
  }

  lemma MsgStays(h: History, g: A.Acks, h': History, g': A.Acks, n: nat, t: int, t': int, msg: ApplyMsg)
    requires Grows(h, g, h', g') && MsgOk(h, g, n, t, msg) && t <= t'
    ensures MsgOk(h', g', n, t', msg)
  {
    var t0, m :| t0 <= t && MsgFrom(h, g, n, t0, m, msg);
    ChosenStays(h, g, h', g', n, t0, m);
    assert h.logs[t0] <= h'.logs[t0];
    assert MsgFrom(h', g', n, t0, m, msg);
  }

  lemma ServerStays(h: History, g: A.Acks, h': History, g': A.Acks, n: nat, s: Server, s': Server)
    requires Grows(h, g, h', g') && ServerOk(h, g, n, s) && s.currentTerm <= s'.currentTerm
    requires s'.commitIndex == s.commitIndex && s'.applied == s.applied && MatchOk(g', s')
    ensures ServerOk(h', g', n, s')
  {
    BackedStays(h, g, h', g', n, s.currentTerm, s'.currentTerm, s.commitIndex);
    forall msg | msg in s'.applied ensures MsgOk(h', g', n, s'.currentTerm, msg) {
      MsgStays(h, g, h', g', n, s.currentTerm, s'.currentTerm, msg);
    }
  }

  lemma CallStays(h: History, g: A.Acks, h': History, g': A.Acks, n: nat, c: Call)
    requires Grows(h, g, h', g') && c.AppendCall? && CallOk(h, g, n, c)
    ensures CallOk(h', g', n, c)
  {
    BackedStays(h, g, h', g', n, c.aargs.term, c.aargs.term, c.aargs.leaderCommit);
  }

  // ---------- What is committed is chosen ----------

  lemma {:induction false} MessageFrom(log: seq<LogItem>, from: int, upTo: int, msg: ApplyMsg) returns (k: int)
    requires Contiguous(log) && (from <= upTo ==> upTo <= LastIndex(log)) && msg in CommitMessages(log, from, upTo)
    ensures HasIndex(log, k) && DummyIndex(log) < k && from <= k <= upTo && msg == MsgOf(ItemAt(log, k))
    decreases upTo - from
  {
    var first := Max(from, DummyIndex(log) + 1);
    if msg == MsgOf(ItemAt(log, first)) {
      k := first;
    } else {
      k := MessageFrom(log, first + 1, upTo, msg);
    }
  }

  /** The items of a leader's log up to a chosen index are chosen. */
  lemma ItemIsChosen(w: World, h: History, g: A.Acks, u: int, k: nat, c: int)
    requires A.AllInv(w, h, g) && u in h.logs && 1 <= k <= c && k < |h.logs[u]| && Backed(h, g, |w.servers|, u, c)
    ensures MsgOk(h, g, |w.servers|, u, MsgOf(h.logs[u][k]))
  {
    var t, m :| t <= u && A.Chosen(h, g, |w.servers|, t, m) && c <= m;
    A.LeaderCompleteness(w, h, g, t, m, u);
    assert L.LogOk(h, h.logs[u]);
    assert h.logs[u][k] == A.Upto(h, t, m)[k] == h.logs[t][k];
    assert MsgFrom(h, g, |w.servers|, t, m, MsgOf(h.logs[u][k]));
  }

  lemma MessagesAreChosen(w: World, h: History, g: A.Acks, u: int, log: seq<LogItem>, from: int, upTo: int, c: int)
    requires A.AllInv(w, h, g) && u in h.logs && L.LogOk(h, log) && log <= h.logs[u]
    requires (from <= upTo ==> upTo <= LastIndex(log)) && upTo <= c && Backed(h, g, |w.servers|, u, c)
    ensures forall msg :: msg in CommitMessages(log, from, upTo) ==> MsgOk(h, g, |w.servers|, u, msg)
  {
    forall msg | msg in CommitMessages(log, from, upTo) ensures MsgOk(h, g, |w.servers|, u, msg) {
      var k := MessageFrom(log, from, upTo, msg);
      assert ItemAt(log, k) == h.logs[u][k];
      ItemIsChosen(w, h, g, u, k, c);
    }
  }

  // ---------- A leader commits ----------

  /** As many match indexes as have reached k, so many servers have taken the log that far. */
  lemma {:induction false} CountIsTakers(g: A.Acks, xs: seq<int>, t: int, k: nat)
    requires forall j: nat :: j < |xs| ==> xs[j] <= A.Taken(g, j, t)
    ensures F.CountGe(xs, k) <= |A.Takers(g, |xs|, t, k)|
    decreases |xs|
  {
    if xs != [] {
      var n := |xs| - 1;
      var front, last := xs[..n], [xs[n]];
      CountIsTakers(g, front, t, k);
      F.CountSplit(front, last, k);
      assert xs == front + last;
      assert F.CountGe(last, k) == if xs[n] >= k then 1 else 0;
      if xs[n] >= k {
        AddOne(A.Takers(g, n, t, k), n);
        SubsetCardinality(A.Takers(g, n, t, k) + {n}, A.Takers(g, n + 1, t, k));
      } else {
        SubsetCardinality(A.Takers(g, n, t, k), A.Takers(g, n + 1, t, k));
      }
    }
  }

  // ---------- Steps ----------

  ghost predicate Stepped(w: World, h: History, g: A.Acks, w': World, h': History, g': A.Acks, e: Event)
  {
    && AllInv(w, h, g) && CanStep(w, e) && Minds(FullCare, w, e)
    && w' == Step(w, e) && h' == HistStep(w, h, e) && g' == A.AckStep(w, h, g, e)
  }

  lemma StepGrows(w: World, h: History, g: A.Acks, w': World, h': History, g': A.Acks, e: Event)
    requires Stepped(w, h, g, w', h', g', e)
    ensures A.AllInv(w', h', g') && R.Inv(w') && Grows(h, g, h', g')
  {
    A.StepKeepsInv(w, h, g, e);
    R.StepKeepsInv(w, h, e);
    L.StepKeepsLogInv(w, h, e);
    AcksGrow(w, h, g, e);
  }

  lemma AcksGrow(w: World, h: History, g: A.Acks, e: Event)
    requires CanStep(w, e) && |h.counted| == |w.servers|
    ensures forall v: nat, t: int :: A.Taken(g, v, t) <= A.Taken(A.AckStep(w, h, g, e), v, t)
  {
  }

  /** The server commits nothing, and if it leads a term it has just won it or led it before. */
  ghost predicate Mild(s: Server, s': Server)
  {
    && s'.commitIndex == s.commitIndex && s'.applied == s.applied && s.currentTerm <= s'.currentTerm
    && (s'.state == Leader ==>
          || (s.state == Leader && s'.currentTerm == s.currentTerm && s'.matchIndex == s.matchIndex)
          || (forall j :: 0 <= j < |s'.matchIndex| ==> s'.matchIndex[j] == 0))
  }

  lemma MildStays(h: History, g: A.Acks, h': History, g': A.Acks, n: nat, s: Server, s': Server)
    requires Grows(h, g, h', g') && ServerOk(h, g, n, s) && Mild(s, s')
    ensures ServerOk(h', g', n, s')
  {
    if s'.state == Leader {
      forall j: nat | j < |s'.matchIndex| ensures s'.matchIndex[j] <= A.Taken(g', j, s'.currentTerm) {
        assert A.Taken(g, j, s'.currentTerm) <= A.Taken(g', j, s'.currentTerm);
      }
    }
    ServerStays(h, g, h', g', n, s, s');
  }

  lemma VotingIsMild(s: Server, args: VoteArgs, reply: VoteReply)
    requires s.log != []
    ensures Mild(s, StartElection(s)) && Mild(s, RequestVote(s, args).0) && Mild(s, OnVoteReply(s, reply))
  {
  }

  /** What a follower commits when it handles a request. */
  lemma AppendCommits(s: Server, args: AppendArgs)
    requires Contiguous(s.log) && EntriesFit(args) && s.currentTerm <= args.term
    ensures LogAfter(s.log, args).1 ==> Contiguous(AppendEntries(s, args).0.log)
    ensures var s' := AppendEntries(s, args).0;
      if LogAfter(s.log, args).1 && args.leaderCommit > s.commitIndex
      then s'.commitIndex == Min(LastIndex(s'.log), args.leaderCommit)
           && s'.applied == s.applied + CommitMessages(s'.log, s.commitIndex + 1, s'.commitIndex)
      else s'.commitIndex == s.commitIndex && s'.applied == s.applied
  {
    if HasIndex(s.log, args.prevLogIndex) {
      AppendedContiguous(s.log, args);
    }
  }

  lemma BackedBelow(h: History, g: A.Acks, n: nat, t: int, k: int, c: int)
    requires Backed(h, g, n, t, c) && k <= c
    ensures Backed(h, g, n, t, k)
  {
  }

  /** What a follower commits is chosen. */
  lemma FollowerCommits(w': World, h': History, g': A.Acks, u: int, log: seq<LogItem>, from: int, leaderCommit: int)
    requires A.AllInv(w', h', g') && u in h'.logs && L.LogOk(h', log) && log <= h'.logs[u]
    requires Backed(h', g', |w'.servers|, u, leaderCommit)
    ensures var c := Min(LastIndex(log), leaderCommit);
      && Backed(h', g', |w'.servers|, u, c)
      && forall msg :: msg in CommitMessages(log, from, c) ==> MsgOk(h', g', |w'.servers|, u, msg)
  {
    var c := Min(LastIndex(log), leaderCommit);
    BackedBelow(h', g', |w'.servers|, u, c, leaderCommit);
    MessagesAreChosen(w', h', g', u, log, from, c, leaderCommit);
  }

  lemma FollowerHas(w: World, h: History, call: nat)
    requires E.Inv(w, h) && L.LogInv(w, h) && CanStep(w, HandleAppend(call))
    requires var c := w.calls[call];
      w.servers[c.dest].currentTerm <= c.aargs.term && LogAfter(w.servers[c.dest].log, c.aargs).1
    ensures var c := w.calls[call]; var u := c.aargs.term;
      && u in h.logs && AppendEntries(w.servers[c.dest], c.aargs).0.log <= h.logs[u]
      && AppendEntries(w.servers[c.dest], c.aargs).0.currentTerm == u
  {
    var c := w.calls[call];
    A.RequestIsPiece(w, h, call);
    AppendParts(w.servers[c.dest], c.aargs);
    A.TakenIsThere(h, w.servers[c.dest].log, h.logs[c.aargs.term], c.aargs);
  }

  lemma FollowerLog(w: World, h: History, g: A.Acks, w': World, h': History, g': A.Acks, call: nat)
    requires Stepped(w, h, g, w', h', g', HandleAppend(call))
    requires var c := w.calls[call];
      w.servers[c.dest].currentTerm <= c.aargs.term && LogAfter(w.servers[c.dest].log, c.aargs).1
    ensures var c := w.calls[call]; var u := c.aargs.term;
      && |w'.servers| == |w.servers| && u in h'.logs && L.LogOk(h', w'.servers[c.dest].log)
      && w'.servers[c.dest].log <= h'.logs[u] && w'.servers[c.dest].currentTerm == u
  {
    var c := w.calls[call];
    FollowerHas(w, h, call);
    L.StepKeepsLogInv(w, h, HandleAppend(call));
    assert L.ServerLogOk(w', h', c.dest);
    assert h.logs[c.aargs.term] <= h'.logs[c.aargs.term];
  }

  lemma HandleAppendServer(w: World, h: History, g: A.Acks, w': World, h': History, g': A.Acks, call: nat)
    requires Stepped(w, h, g, w', h', g', HandleAppend(call))
    ensures var i := w.calls[call].dest; |w'.servers| == |w.servers| && ServerOk(h', g', |w.servers|, w'.servers[i])
  {
    var c, n := w.calls[call], |w.servers|;
    var s, s' := w.servers[c.dest], w'.servers[c.dest];
    StepGrows(w, h, g, w', h', g', HandleAppend(call));
    L.LeaderUntouched(w, h, w', h', call);
    if c.aargs.term < s.currentTerm || s'.state == Leader {
      MildStays(h, g, h', g', n, s, s');
    } else {
      AppendCommits(s, c.aargs);
      AppendParts(s, c.aargs);
      if LogAfter(s.log, c.aargs).1 && c.aargs.leaderCommit > s.commitIndex {
        FollowerLog(w, h, g, w', h', g', call);
        BackedStays(h, g, h', g', n, c.aargs.term, c.aargs.term, c.aargs.leaderCommit);
        FollowerCommits(w', h', g', c.aargs.term, s'.log, s.commitIndex + 1, c.aargs.leaderCommit);
        OldMessages(h, g, h', g', n, s, s'.currentTerm);
      } else {
        MildStays(h, g, h', g', n, s, s');
      }
    }
  }

  lemma OldMessages(h: History, g: A.Acks, h': History, g': A.Acks, n: nat, s: Server, t: int)
    requires Grows(h, g, h', g') && ServerOk(h, g, n, s) && s.currentTerm <= t
    ensures forall msg :: msg in s.applied ==> MsgOk(h', g', n, t, msg)
  {
    forall msg | msg in s.applied ensures MsgOk(h', g', n, t, msg) {
      MsgStays(h, g, h', g', n, s.currentTerm, t, msg);
    }
  }

  /** A reply that counts is the reply to a request of the term that the server still leads. */
  lemma CountedReply(w: World, h: History, g: A.Acks, call: nat)
    requires AllInv(w, h, g) && CanStep(w, AppendReplied(call))
    requires var c := w.calls[call]; c.areply.value.success && c.areply.value.term == w.servers[c.from].currentTerm
    ensures var c := w.calls[call]; var s := w.servers[c.from]; var u := s.currentTerm;
      && s.state == Leader && |s.matchIndex| == |w.servers| && u == c.aargs.term && 1 <= u
      && u in h.logs && h.logs[u] == s.log && L.LogOk(h, s.log)
      && c.dest < |s.matchIndex|
      && forall j: nat :: j < |s.matchIndex| ==>
           s.matchIndex[c.dest := c.aargs.prevLogIndex + |c.aargs.entries|][j] <= A.Taken(g, j, u)
  {
    var c := w.calls[call];
    assert R.CallerOk(w, c) && R.ReplyOk(c) && R.IndexesOk(w, c.from);
    assert L.ServerLogOk(w, h, c.from) && E.ServerOk(w, h, c.from) && E.LeaderOk(w, h, c.aargs.term);
    assert ServerOk(h, g, |w.servers|, w.servers[c.from]) && CallOk(h, g, |w.servers|, c);
  }

  /** An index of a leader's own term that at least half of the servers have reached is chosen. */
  lemma HalfChooses(h: History, g: A.Acks, n: nat, s: Server, k: int)
    requires s.currentTerm in h.logs && h.logs[s.currentTerm] == s.log && L.LogOk(h, s.log) && 1 <= s.currentTerm
    requires HasIndex(s.log, k) && ItemAt(s.log, k).term == s.currentTerm
    ensures 0 <= k
    ensures 2 * |A.Takers(g, n, s.currentTerm, k)| >= n ==> A.Chosen(h, g, n, s.currentTerm, k)
  {
  }

  /** What a leader newly commits is chosen. */
  lemma LeaderChooses(w: World, h: History, g: A.Acks, call: nat)
    requires AllInv(w, h, g) && CanStep(w, AppendReplied(call)) && Minds(FullCare, w, AppendReplied(call))
    requires var c := w.calls[call]; c.areply.value.success && c.areply.value.term == w.servers[c.from].currentTerm
    requires var c := w.calls[call]; var s := w.servers[c.from];
      LastTerm(s.log) == s.currentTerm && FindMatch(NextMatch(s, c.dest, c.aargs)) > s.commitIndex
    ensures var c := w.calls[call]; var s := w.servers[c.from];
      var k := FindMatch(NextMatch(s, c.dest, c.aargs));
      0 <= k <= LastIndex(s.log) && A.Chosen(h, g, |w.servers|, s.currentTerm, k)
  {
    var c := w.calls[call];
    var s := w.servers[c.from];
    CountedReply(w, h, g, call);
    assert CommitsOwnTerm(s, c.dest, c.aargs, c.areply.value);
    var match' := NextMatch(s, c.dest, c.aargs);
    HalfChooses(h, g, |w.servers|, s, FindMatch(match'));
    F.FindMatchIsLargest(match', 0);
    CountIsTakers(g, match', s.currentTerm, FindMatch(match'));
  }

  /** What a reply does to the commit index and the apply channel. */
  lemma ReplyCommits(s: Server, j: nat, args: AppendArgs, reply: AppendReply)
    requires Contiguous(s.log) && !AppendReplyPanics(s, j, args, reply)
    requires reply.success && reply.term == s.currentTerm
    ensures j < |s.matchIndex|
    ensures var s' := OnAppendReply(s, j, args, reply); var k := FindMatch(NextMatch(s, j, args));
      && s'.currentTerm == s.currentTerm && s'.state == s.state && s'.matchIndex == NextMatch(s, j, args)
      && if LastTerm(s.log) == s.currentTerm && k > s.commitIndex
         then k <= LastIndex(s.log) && s'.commitIndex == k
              && s'.applied == s.applied + CommitMessages(s.log, s.commitIndex + 1, k)
         else s'.commitIndex == s.commitIndex && s'.applied == s.applied
  {
  }

  lemma OtherReplyIsMild(s: Server, j: nat, args: AppendArgs, reply: AppendReply)
    requires Contiguous(s.log) && !AppendReplyPanics(s, j, args, reply)
    requires !reply.success || reply.term != s.currentTerm
    ensures Mild(s, OnAppendReply(s, j, args, reply))
  {
  }

  lemma CountedServer(w: World, h: History, g: A.Acks, call: nat, s': Server)
    requires AllInv(w, h, g) && CanStep(w, AppendReplied(call)) && Minds(FullCare, w, AppendReplied(call))
    requires var c := w.calls[call];
      && c.areply.value.success && c.areply.value.term == w.servers[c.from].currentTerm
      && s' == OnAppendReply(w.servers[c.from], c.dest, c.aargs, c.areply.value)
    ensures ServerOk(h, g, |w.servers|, s')
  {
    var c := w.calls[call];
    var s := w.servers[c.from];
    ReplyCommits(s, c.dest, c.aargs, c.areply.value);
    CountedReply(w, h, g, call);
    ServerIs(w, h, g, c.from);
    var k := FindMatch(NextMatch(s, c.dest, c.aargs));
    if LastTerm(s.log) == s.currentTerm && k > s.commitIndex {
      LeaderChooses(w, h, g, call);
      LeaderCommits(w, h, g, s, k, s');
    }
  }

  /** A leader that commits up to a chosen index applies what is chosen. */
  lemma LeaderCommits(w: World, h: History, g: A.Acks, s: Server, k: nat, s': Server)
    requires A.AllInv(w, h, g) && ServerOk(h, g, |w.servers|, s) && L.LogOk(h, s.log)
    requires s.currentTerm in h.logs && h.logs[s.currentTerm] == s.log
    requires A.Chosen(h, g, |w.servers|, s.currentTerm, k) && k <= LastIndex(s.log) && MatchOk(g, s')
    requires s'.currentTerm == s.currentTerm && s'.commitIndex == k
    requires s'.applied == s.applied + CommitMessages(s.log, s.commitIndex + 1, k)
    ensures ServerOk(h, g, |w.servers|, s')
  {
    MessagesAreChosen(w, h, g, s.currentTerm, s.log, s.commitIndex + 1, k, k);
  }

  lemma AppendRepliedServer(w: World, h: History, g: A.Acks, w': World, h': History, g': A.Acks, call: nat)
    requires Stepped(w, h, g, w', h', g', AppendReplied(call))
    ensures var i := w.calls[call].from; |w'.servers| == |w.servers| && ServerOk(h', g', |w.servers|, w'.servers[i])
  {
    var c, n := w.calls[call], |w.servers|;
    var s, s' := w.servers[c.from], w'.servers[c.from];
    StepGrows(w, h, g, w', h', g', AppendReplied(call));
    if c.areply.value.success && c.areply.value.term == s.currentTerm {
      CountedServer(w, h, g, call, s');
      MildStays(h, g, h', g', n, s', s');
    } else {
      OtherReplyIsMild(s, c.dest, c.aargs, c.areply.value);
      MildStays(h, g, h', g', n, s, s');
    }
  }

  lemma StartTakes(w: World, h: History, g: A.Acks, w': World, h': History, g': A.Acks, i: nat, command: string)
    requires Stepped(w, h, g, w', h', g', ClientStart(i, command)) && w.servers[i].state == Leader
    ensures A.Taken(g', i, w.servers[i].currentTerm) >= |w.servers[i].log|
    ensures w.servers[i].me == i && LastIndex(w.servers[i].log) + 1 == |w.servers[i].log|
  {
    assert E.ServerOk(w, h, i) && L.ServerLogOk(w, h, i);
  }

  /** The leader has its own new item. */
  lemma StartMatches(g: A.Acks, g': A.Acks, s: Server, command: string)
    requires MatchOk(g, s) && s.state == Leader && s.log != [] && s.me < |s.matchIndex|
    requires forall v: nat, t: int :: A.Taken(g, v, t) <= A.Taken(g', v, t)
    requires LastIndex(s.log) + 1 <= A.Taken(g', s.me, s.currentTerm)
    ensures MatchOk(g', RaftServer.Start(s, command).0)
  {
    var s' := RaftServer.Start(s, command).0;
    forall j: nat | j < |s'.matchIndex| ensures s'.matchIndex[j] <= A.Taken(g', j, s'.currentTerm) {
      assert A.Taken(g, j, s.currentTerm) <= A.Taken(g', j, s.currentTerm);
    }
  }

  lemma StartServer(w: World, h: History, g: A.Acks, w': World, h': History, g': A.Acks, i: nat, command: string)
    requires Stepped(w, h, g, w', h', g', ClientStart(i, command))
    ensures |w'.servers| == |w.servers| && ServerOk(h', g', |w.servers|, w'.servers[i])
  {
    StepGrows(w, h, g, w', h', g', ClientStart(i, command));
    ServerIs(w, h, g, i);
    if w.servers[i].state == Leader {
      StartTakes(w, h, g, w', h', g', i, command);
      StartMatches(g, g', w.servers[i], command);
      ServerStays(h, g, h', g', |w.servers|, w.servers[i], w'.servers[i]);
    } else {
      MildStays(h, g, h', g', |w.servers|, w.servers[i], w'.servers[i]);
    }
  }

  /** A restarted server has committed nothing yet. */
  lemma CrashServer(w: World, h: History, g: A.Acks, w': World, h': History, g': A.Acks, i: nat)
    requires Stepped(w, h, g, w', h', g', Crash(i))
    ensures |w'.servers| == |w.servers| && ServerOk(h', g', |w.servers|, w'.servers[i])
  {
    assert E.ServerOk(w, h, i) && L.ServerLogOk(w, h, i);
  }

  lemma VotingStepIsMild(w: World, e: Event)
    requires CanStep(w, e) && (e.Timeout? || e.HandleVote? || e.VoteReplied?)
    ensures R.Actor(w, e) < |w.servers| == |Step(w, e).servers|
    ensures Mild(w.servers[R.Actor(w, e)], Step(w, e).servers[R.Actor(w, e)])
  {
    match e
    case Timeout(i) => VotingIsMild(w.servers[i], VoteArgsOf(w.servers[i]), VoteReply(0, false));
    case HandleVote(call) =>
      var c := w.calls[call];
      VotingIsMild(w.servers[c.dest], c.vargs, VoteReply(0, false));
    case VoteReplied(call) =>
      var c := w.calls[call];
      VotingIsMild(w.servers[c.from], c.vargs, c.vreply.value);
  }

  lemma VotingServer(w: World, h: History, g: A.Acks, w': World, h': History, g': A.Acks, e: Event)
    requires Stepped(w, h, g, w', h', g', e) && (e.Timeout? || e.HandleVote? || e.VoteReplied?)
    ensures |w'.servers| == |w.servers| && R.Actor(w, e) < |w.servers|
    ensures ServerOk(h', g', |w.servers|, w'.servers[R.Actor(w, e)])
  {
    StepGrows(w, h, g, w', h', g', e);
    VotingStepIsMild(w, e);
    ServerIs(w, h, g, R.Actor(w, e));
    MildStays(h, g, h', g', |w.servers|, w.servers[R.Actor(w, e)], w'.servers[R.Actor(w, e)]);
  }

  lemma ActorServer(w: World, h: History, g: A.Acks, w': World, h': History, g': A.Acks, e: Event)
    requires Stepped(w, h, g, w', h', g', e) && !e.Lose? && !e.SendAppend?
    ensures |w'.servers| == |w.servers| && R.Actor(w, e) < |w.servers|
    ensures ServerOk(h', g', |w.servers|, w'.servers[R.Actor(w, e)])
  {
    match e
    case HandleAppend(call) => HandleAppendServer(w, h, g, w', h', g', call);
    case AppendReplied(call) => AppendRepliedServer(w, h, g, w', h', g', call);
    case ClientStart(i, command) => StartServer(w, h, g, w', h', g', i, command);
    case Crash(i) => CrashServer(w, h, g, w', h', g', i);
    case _ => VotingServer(w, h, g, w', h', g', e);
  }

  lemma StepServers(w: World, h: History, g: A.Acks, w': World, h': History, g': A.Acks, e: Event, i: nat)
    requires Stepped(w, h, g, w', h', g', e) && i < |w.servers|
    ensures |w'.servers| == |w.servers| && ServerOk(h', g', |w.servers|, w'.servers[i])
  {
    if !e.Lose? && !e.SendAppend? && i == R.Actor(w, e) {
      ActorServer(w, h, g, w', h', g', e);
    } else {
      StepGrows(w, h, g, w', h', g', e);
      MildStays(h, g, h', g', |w.servers|, w.servers[i], w'.servers[i]);
    }
  }

  // ---------- Calls ----------

  lemma SentCall(w: World, h: History, g: A.Acks, w': World, h': History, g': A.Acks, i: nat, j: nat)
    requires Stepped(w, h, g, w', h', g', SendAppend(i, j))
    ensures w.nextCall in w'.calls && w'.calls[w.nextCall].AppendCall?
    ensures CallOk(h', g', |w.servers|, w'.calls[w.nextCall])
  {
    ServerIs(w, h, g, i);
  }

  lemma AnsweredCall(w: World, h: History, g: A.Acks, w': World, h': History, g': A.Acks, call: nat)
    requires Stepped(w, h, g, w', h', g', HandleAppend(call))
    ensures CallOk(h', g', |w.servers|, w'.calls[call])
  {
    StepGrows(w, h, g, w', h', g', HandleAppend(call));
    CallStays(h, g, h', g', |w.servers|, w.calls[call]);
  }

  lemma StepCalls(w: World, h: History, g: A.Acks, w': World, h': History, g': A.Acks, e: Event, id: nat)
    requires Stepped(w, h, g, w', h', g', e) && id in w'.calls && w'.calls[id].AppendCall?
    ensures CallOk(h', g', |w.servers|, w'.calls[id])
  {
    R.CallSource(w, h, w', e, id);
    if !(id in w.calls && w.calls[id].AppendCall?) {
      SentCall(w, h, g, w', h', g', e.i, e.j);
    } else if e == HandleAppend(id) {
      AnsweredCall(w, h, g, w', h', g', id);
    } else {
      StepGrows(w, h, g, w', h', g', e);
      CallUntouched(w, e, id);
      CallStays(h, g, h', g', |w.servers|, w.calls[id]);
    }
  }

  lemma CallUntouched(w: World, e: Event, id: nat)
    requires CanStep(w, e) && e != HandleAppend(id) && id in Step(w, e).calls
    requires id in w.calls && w.calls[id].AppendCall?
    requires forall k :: k in w.calls ==> k < w.nextCall
    ensures Step(w, e).calls[id] == w.calls[id]
  {
  }

  /** Every careful step keeps what servers have applied chosen. */
  lemma StepKeepsInv(w: World, h: History, g: A.Acks, e: Event)
    requires AllInv(w, h, g) && CanStep(w, e) && Minds(FullCare, w, e)
    ensures AllInv(Step(w, e), HistStep(w, h, e), A.AckStep(w, h, g, e))
    ensures Grows(h, g, HistStep(w, h, e), A.AckStep(w, h, g, e)) && |Step(w, e).servers| == |w.servers|
  {
    var w', h', g' := Step(w, e), HistStep(w, h, e), A.AckStep(w, h, g, e);
    StepGrows(w, h, g, w', h', g', e);
    forall i | 0 <= i < |w.servers|
      ensures |w'.servers| == |w.servers| && ServerOk(h', g', |w.servers|, w'.servers[i])
    {
      StepServers(w, h, g, w', h', g', e, i);
    }
    forall id | id in w'.calls && w'.calls[id].AppendCall? ensures CallOk(h', g', |w.servers|, w'.calls[id]) {
      StepCalls(w, h, g, w', h', g', e, id);
    }
  }

  // ---------- Whole runs ----------

  lemma InitInv(n: nat)
    ensures AllInv(Init(n), HistInit(n), A.NO_ACKS)
  {
    A.InitInv(n);
  }

  lemma {:induction false} RunKeepsInv(w: World, h: History, g: A.Acks, es: seq<Event>, w': World)
    returns (h': History, g': A.Acks)
    requires AllInv(w, h, g) && GoesWith(FullCare, w, es, w')
    ensures AllInv(w', h', g') && Grows(h, g, h', g') && |w'.servers| == |w.servers|
    decreases |es|
  {
    if es == [] {
      h', g' := h, g;
    } else {
      var h1, g1 := HistStep(w, h, es[0]), A.AckStep(w, h, g, es[0]);
      StepKeepsInv(w, h, g, es[0]);
      h', g' := RunKeepsInv(Step(w, es[0]), h1, g1, es[1..], w');
      GrowsOn(h, g, h1, g1, h', g');
    }
  }

  lemma GrowsOn(h: History, g: A.Acks, h1: History, g1: A.Acks, h2: History, g2: A.Acks)
    requires Grows(h, g, h1, g1) && Grows(h1, g1, h2, g2)
    ensures Grows(h, g, h2, g2)
  {
    forall t | t in h.logs ensures h.logs[t] <= h2.logs[t] {
      assert h.logs[t] <= h1.logs[t] <= h2.logs[t];
    }
    forall v: nat, t: int ensures A.Taken(g, v, t) <= A.Taken(g2, v, t) {
      assert A.Taken(g, v, t) <= A.Taken(g1, v, t) <= A.Taken(g2, v, t);
    }
  }

  /** Two points of a careful run, with their histories. */
  lemma TwoStates(n: nat, es: seq<Event>, w: World, later: seq<Event>, w': World)
    returns (h: History, g: A.Acks, h': History, g': A.Acks)
    requires GoesWith(FullCare, Init(n), es, w) && GoesWith(FullCare, w, later, w')
    ensures AllInv(w, h, g) && AllInv(w', h', g') && Grows(h, g, h', g') && |w'.servers| == |w.servers|
  {
    InitInv(n);
    h, g := RunKeepsInv(Init(n), HistInit(n), A.NO_ACKS, es, w);
    h', g' := RunKeepsInv(w, h, g, later, w');
  }

  lemma SameItem(w: World, h: History, g: A.Acks, t: int, m: nat, u: int, k: int)
    requires A.AllInv(w, h, g) && A.Chosen(h, g, |w.servers|, t, m) && t <= u && u in h.logs && 0 <= k <= m
    ensures k < |h.logs[t]| && k < |h.logs[u]| && h.logs[t][k] == h.logs[u][k]
  {
    A.LeaderCompleteness(w, h, g, t, m, u);
    assert h.logs[u][k] == A.Upto(h, t, m)[k] == h.logs[t][k];
  }

  /** Where a message that has been applied comes from, seen at a later point. */
  lemma Applied(h: History, g: A.Acks, h': History, g': A.Acks, n: nat, s: Server, a: ApplyMsg)
    returns (t: int, m: nat)
    requires Grows(h, g, h', g') && ServerOk(h, g, n, s) && a in s.applied
    ensures t <= s.currentTerm && MsgFrom(h', g', n, t, m, a)
  {
    MsgStays(h, g, h', g', n, s.currentTerm, s.currentTerm, a);
    t, m :| t <= s.currentTerm && MsgFrom(h', g', n, t, m, a);
  }

  lemma SameMessage(w: World, h: History, g: A.Acks, t: int, m: nat, a: ApplyMsg, u: int, k: nat, b: ApplyMsg)
    requires A.AllInv(w, h, g) && a.commandIndex == b.commandIndex
    requires MsgFrom(h, g, |w.servers|, t, m, a) && MsgFrom(h, g, |w.servers|, u, k, b)
    ensures a == b
  {
    if t <= u {
      SameItem(w, h, g, t, m, u, a.commandIndex);
    } else {
      SameItem(w, h, g, u, k, t, a.commandIndex);
    }
  }

  lemma GrowsFromItself(h: History, g: A.Acks)
    ensures Grows(h, g, h, g)
  {
  }

  /** State Machine Safety: whatever two servers apply at the same index, at any two points of a
      run of careful steps, is the same command. */
  lemma StateMachineSafety(n: nat, es: seq<Event>, w: World, later: seq<Event>, w': World,
                           i: nat, j: nat, a: ApplyMsg, b: ApplyMsg)
    requires GoesWith(FullCare, Init(n), es, w) && GoesWith(FullCare, w, later, w')
    requires i < |w.servers| && a in w.servers[i].applied
    requires j < |w'.servers| && b in w'.servers[j].applied
    requires a.commandIndex == b.commandIndex
    ensures a == b
  {
    var h, g, h', g' := TwoStates(n, es, w, later, w');
    ServerIs(w, h, g, i);
    ServerIs(w', h', g', j);
    GrowsFromItself(h', g');
    var t, m := Applied(h, g, h', g', |w.servers|, w.servers[i], a);
    var u, k := Applied(h', g', h', g', |w'.servers|, w'.servers[j], b);
    SameMessage(w', h', g', t, m, a, u, k, b);
  }

  lemma LeaderHasIt(w: World, h: History, g: A.Acks, j: nat, t: int, m: nat, a: ApplyMsg)
    requires A.AllInv(w, h, g) && j < |w.servers| && w.servers[j].state == Leader
    requires MsgFrom(h, g, |w.servers|, t, m, a) && t <= w.servers[j].currentTerm
    ensures var log := w.servers[j].log;
      Contiguous(log) && HasIndex(log, a.commandIndex) && a == MsgOf(ItemAt(log, a.commandIndex))
  {
    assert L.ServerLogOk(w, h, j);
    SameItem(w, h, g, t, m, w.servers[j].currentTerm, a.commandIndex);
  }

  /** Leader Completeness: what a server has applied is in the log of every leader that has, at
      that or any later point of the run, at least the term that the server had then. */
  lemma LeaderCompleteness(n: nat, es: seq<Event>, w: World, later: seq<Event>, w': World, i: nat, j: nat, a: ApplyMsg)
    requires GoesWith(FullCare, Init(n), es, w) && GoesWith(FullCare, w, later, w')
    requires i < |w.servers| && a in w.servers[i].applied
    requires j < |w'.servers| && w'.servers[j].state == Leader
    requires w.servers[i].currentTerm <= w'.servers[j].currentTerm
    ensures var log := w'.servers[j].log;
      Contiguous(log) && HasIndex(log, a.commandIndex) && a == MsgOf(ItemAt(log, a.commandIndex))
  {
    var h, g, h', g' := TwoStates(n, es, w, later, w');
    ServerIs(w, h, g, i);
    var t, m := Applied(h, g, h', g', |w.servers|, w.servers[i], a);
    LeaderHasIt(w', h', g', j, t, m, a);
  }
}
