/** What careful servers apply: each of them the items of its own log, from the first to the last
    one committed, each once and in order, and all of them items of one log that only grows. */
module RaftApplied {
  import opened RaftServer
  import opened RaftProtocol
  import opened RaftCareful
  import E = RaftElection
  import L = RaftLogs
  import R = RaftReplies
  import F = RaftLogFacts
  import A = RaftAcks
  import S = RaftSafety

  // ---------- What a server has applied is in its own log ----------

  ghost predicate InOwnLog(s: Server)
  {
    && Contiguous(s.log) && DummyIndex(s.log) == 0 && 0 <= s.commitIndex <= LastIndex(s.log)
    && s.applied == CommitMessages(s.log, 1, s.commitIndex)
  }

  ghost predicate AllInv(w: World, h: History, g: A.Acks)
  {
    S.AllInv(w, h, g) && forall i :: 0 <= i < |w.servers| ==> InOwnLog(w.servers[i])
  }

  lemma {:induction false} SameMessages(a: seq<LogItem>, b: seq<LogItem>, from: int, k: int)
    requires Contiguous(a) && Contiguous(b) && DummyIndex(a) == DummyIndex(b) == 0 && 1 <= from
    requires 0 <= k <= LastIndex(a) && k <= LastIndex(b) && a[..k + 1] == b[..k + 1]
    ensures CommitMessages(a, from, k) == CommitMessages(b, from, k)
    decreases k - from
  {
    if from <= k {
      assert a[from] == a[..k + 1][from] == b[from];
      SameMessages(a, b, from + 1, k);
    }
  }

  lemma {:induction false} MoreMessages(log: seq<LogItem>, from: int, k: int, upTo: int)
    requires Contiguous(log) && DummyIndex(log) == 0 && 1 <= from <= k + 1 && k <= upTo <= LastIndex(log)
    ensures CommitMessages(log, from, k) + CommitMessages(log, k + 1, upTo) == CommitMessages(log, from, upTo)
    decreases k - from
  {
    if from <= k {
      MoreMessages(log, from + 1, k, upTo);
    }
  }

  /** The list as such: one message for each index from 1 on, in order. */
  lemma AppliedList(s: Server, k: nat)
    requires InOwnLog(s)
    ensures |s.applied| == s.commitIndex
    ensures k < |s.applied| ==> HasIndex(s.log, k + 1) && s.applied[k] == S.MsgOf(ItemAt(s.log, k + 1))
  {
    F.CommitMessagesAre(s.log, 1, s.commitIndex, k);
  }

  // ---------- Steps ----------

  /** The items that a server has committed are in the log of every leader that it may hear of. */
  lemma CommittedIsInLeader(w: World, h: History, g: A.Acks, v: nat, u: int)
    requires AllInv(w, h, g) && v < |w.servers| && w.servers[v].currentTerm <= u && u in h.logs
    ensures w.servers[v].log[..w.servers[v].commitIndex + 1] <= h.logs[u]
  {
    var s := w.servers[v];
    S.ServerIs(w, h, g, v);
    assert L.ServerLogOk(w, h, v) && L.LogOk(h, h.logs[u]);
    if s.commitIndex > 0 {
      CommittedItem(w, h, g, s, u, s.commitIndex);
    }
    forall k | 0 <= k <= s.commitIndex ensures k < |h.logs[u]| && s.log[k] == h.logs[u][k] {
      if k > 0 {
        CommittedItem(w, h, g, s, u, k);
      }
    }
    var p := s.log[..s.commitIndex + 1];
    assert s.commitIndex < |h.logs[u]| && |p| == s.commitIndex + 1;
    assert p == h.logs[u][..|p|];
  }

  lemma CommittedItem(w: World, h: History, g: A.Acks, s: Server, u: int, k: nat)
    requires A.AllInv(w, h, g) && S.ServerOk(h, g, |w.servers|, s) && InOwnLog(s) && 1 <= k <= s.commitIndex
    requires s.currentTerm <= u && u in h.logs
    ensures k < |h.logs[u]| && s.log[k] == h.logs[u][k]
  {
    AppliedList(s, k - 1);
    var msg := s.applied[k - 1];
    assert msg in s.applied && msg.commandIndex == k;
    var t, m :| t <= s.currentTerm && S.MsgFrom(h, g, |w.servers|, t, m, msg);
    S.SameItem(w, h, g, t, m, u, k);
  }

  /** The server applies what it did, and perhaps more. */
  ghost predicate Goes(s: Server, s': Server)
  {
    InOwnLog(s') && s.commitIndex <= s'.commitIndex && s.applied <= s'.applied
  }

  /** A log that keeps the committed items, and commits that follow them. */
  lemma CommitsOn(s: Server, s': Server)
    requires InOwnLog(s) && Contiguous(s'.log) && DummyIndex(s'.log) == 0
    requires s.log[..s.commitIndex + 1] <= s'.log && s.commitIndex <= s'.commitIndex <= LastIndex(s'.log)
    requires s'.applied == s.applied + CommitMessages(s'.log, s.commitIndex + 1, s'.commitIndex)
    ensures Goes(s, s')
  {
    SameMessages(s.log, s'.log, 1, s.commitIndex);
    MoreMessages(s'.log, 1, s.commitIndex, s'.commitIndex);
  }

  lemma CommitsNothing(s: Server, s': Server)
    requires InOwnLog(s) && Contiguous(s'.log) && DummyIndex(s'.log) == 0
    requires s.log[..s.commitIndex + 1] <= s'.log && s'.commitIndex == s.commitIndex && s'.applied == s.applied
    ensures Goes(s, s')
  {
    SameMessages(s.log, s'.log, 1, s.commitIndex);
  }

  lemma VotingKeepsLog(s: Server, args: VoteArgs, reply: VoteReply)
    requires s.log != []
    ensures StartElection(s).log == RequestVote(s, args).0.log == OnVoteReply(s, reply).log == s.log
  {
  }

  lemma VotingStepKeepsLog(w: World, e: Event)
    requires CanStep(w, e) && (e.Timeout? || e.HandleVote? || e.VoteReplied?)
    ensures R.Actor(w, e) < |w.servers| == |Step(w, e).servers|
    ensures Step(w, e).servers[R.Actor(w, e)].log == w.servers[R.Actor(w, e)].log
  {
    var s := w.servers[R.Actor(w, e)];
    match e
    case Timeout(_) => VotingKeepsLog(s, VoteArgsOf(s), VoteReply(0, false));
    case HandleVote(call) => VotingKeepsLog(s, w.calls[call].vargs, VoteReply(0, false));
    case VoteReplied(call) => VotingKeepsLog(s, w.calls[call].vargs, w.calls[call].vreply.value);
  }

  lemma VotingGoes(w: World, e: Event)
    requires CanStep(w, e) && (e.Timeout? || e.HandleVote? || e.VoteReplied?)
    requires R.Actor(w, e) < |w.servers| && InOwnLog(w.servers[R.Actor(w, e)])
    ensures |Step(w, e).servers| == |w.servers|
    ensures Goes(w.servers[R.Actor(w, e)], Step(w, e).servers[R.Actor(w, e)])
  {
    S.VotingStepIsMild(w, e);
    VotingStepKeepsLog(w, e);
    CommitsNothing(w.servers[R.Actor(w, e)], Step(w, e).servers[R.Actor(w, e)]);
  }

  /** A careful follower keeps what it has committed. */
  lemma FollowerKeeps(w: World, h: History, g: A.Acks, call: nat)
    requires AllInv(w, h, g) && CanStep(w, HandleAppend(call)) && Minds(FullCare, w, HandleAppend(call))
    requires w.servers[w.calls[call].dest].currentTerm <= w.calls[call].aargs.term
    ensures var c := w.calls[call]; var s, s' := w.servers[c.dest], AppendEntries(w.servers[c.dest], c.aargs).0;
      && s.log[..s.commitIndex + 1] <= s'.log && s'.log == LogAfter(s.log, c.aargs).0
      && Contiguous(s'.log) && DummyIndex(s'.log) == 0
  {
    var c := w.calls[call];
    var s := w.servers[c.dest];
    A.RequestIsPiece(w, h, call);
    AppendParts(s, c.aargs);
    CommittedIsInLeader(w, h, g, c.dest, c.aargs.term);
    A.NotCut(h, s.log, h.logs[c.aargs.term], c.aargs, s.log[..s.commitIndex + 1]);
    FollowerLogOk(w, h, call);
  }

  lemma FollowerLogOk(w: World, h: History, call: nat)
    requires E.Inv(w, h) && L.LogInv(w, h) && CanStep(w, HandleAppend(call))
    ensures L.LogOk(h, AppendEntries(w.servers[w.calls[call].dest], w.calls[call].aargs).0.log)
  {
    var c := w.calls[call];
    A.RequestIsPiece(w, h, call);
    assert L.LogOk(h, h.logs[c.aargs.term]);
    L.AppendEntriesLog(h, w.servers[c.dest], c.aargs, h.logs[c.aargs.term]);
  }

  lemma HandleAppendGoes(w: World, h: History, g: A.Acks, call: nat)
    requires AllInv(w, h, g) && CanStep(w, HandleAppend(call)) && Minds(FullCare, w, HandleAppend(call))
    ensures var c := w.calls[call]; Goes(w.servers[c.dest], AppendEntries(w.servers[c.dest], c.aargs).0)
  {
    var c := w.calls[call];
    var s, s' := w.servers[c.dest], AppendEntries(w.servers[c.dest], c.aargs).0;
    if s.currentTerm <= c.aargs.term {
      FollowerKeeps(w, h, g, call);
      S.AppendCommits(s, c.aargs);
      if LogAfter(s.log, c.aargs).1 && c.aargs.leaderCommit > s.commitIndex {
        CommitsOn(s, s');
      } else {
        CommitsNothing(s, s');
      }
    }
  }

  lemma AppendRepliedGoes(w: World, h: History, g: A.Acks, call: nat)
    requires AllInv(w, h, g) && CanStep(w, AppendReplied(call))
    ensures var c := w.calls[call];
      Goes(w.servers[c.from], OnAppendReply(w.servers[c.from], c.dest, c.aargs, c.areply.value))
  {
    var c := w.calls[call];
    var s, s' := w.servers[c.from], OnAppendReply(w.servers[c.from], c.dest, c.aargs, c.areply.value);
    assert E.ServerOk(w, h, c.from);
    E.AppendReplyFields(s, c.dest, c.aargs, c.areply.value);
    if c.areply.value.success && c.areply.value.term == s.currentTerm {
      S.ReplyCommits(s, c.dest, c.aargs, c.areply.value);
      if s'.commitIndex > s.commitIndex {
        CommitsOn(s, s');
      }
    } else {
      S.OtherReplyIsMild(s, c.dest, c.aargs, c.areply.value);
      CommitsNothing(s, s');
    }
  }

  lemma StartGoes(s: Server, command: string)
    requires InOwnLog(s) && (s.state == Leader ==> s.me < |s.matchIndex|)
    ensures Goes(s, RaftServer.Start(s, command).0)
  {
    if s.state == Leader {
      CommitsNothing(s, RaftServer.Start(s, command).0);
    }
  }

  lemma CrashForgets(w: World, h: History, g: A.Acks, i: nat)
    requires AllInv(w, h, g) && CanStep(w, Crash(i))
    ensures InOwnLog(Step(w, Crash(i)).servers[i]) && Step(w, Crash(i)).servers[i].applied == []
  {
    assert E.ServerOk(w, h, i) && L.ServerLogOk(w, h, i);
  }

  /** Every careful step, except the crash of the server, leaves what the server has applied and may
      add to it. */
  lemma StepGoes(w: World, h: History, g: A.Acks, e: Event, i: nat)
    requires AllInv(w, h, g) && CanStep(w, e) && Minds(FullCare, w, e) && i < |w.servers|
    ensures |Step(w, e).servers| == |w.servers| && InOwnLog(Step(w, e).servers[i])
    ensures e != Crash(i) ==> Goes(w.servers[i], Step(w, e).servers[i])
  {
    if !e.Lose? && !e.SendAppend? && i == R.Actor(w, e) {
      match e
      case HandleAppend(call) => HandleAppendGoes(w, h, g, call);
      case AppendReplied(call) => AppendRepliedGoes(w, h, g, call);
      case ClientStart(_, command) => StartGoes(w.servers[i], command);
      case Crash(_) => CrashForgets(w, h, g, i);
      case _ => VotingGoes(w, e);
    }
  }

  lemma StepKeepsInv(w: World, h: History, g: A.Acks, e: Event)
    requires AllInv(w, h, g) && CanStep(w, e) && Minds(FullCare, w, e)
    ensures AllInv(Step(w, e), HistStep(w, h, e), A.AckStep(w, h, g, e))
    ensures S.Grows(h, g, HistStep(w, h, e), A.AckStep(w, h, g, e)) && |Step(w, e).servers| == |w.servers|
  {
    S.StepKeepsInv(w, h, g, e);
    forall i | 0 <= i < |w.servers| ensures InOwnLog(Step(w, e).servers[i]) {
      StepGoes(w, h, g, e, i);
    }
  }

  // ---------- One log ----------

  /** Message k is the one about index k + 1. */
  ghost predicate InOrder(msgs: seq<ApplyMsg>)
  {
    forall k :: 0 <= k < |msgs| ==> msgs[k].commandIndex == k + 1
  }

  ghost predicate Known(h: History, g: A.Acks, n: nat, msg: ApplyMsg)
  {
    exists t, m :: S.MsgFrom(h, g, n, t, m, msg)
  }

  /** The messages are about chosen items, one for each index from 1 on. */
  ghost predicate Agreed(h: History, g: A.Acks, n: nat, msgs: seq<ApplyMsg>)
  {
    InOrder(msgs) && forall k :: 0 <= k < |msgs| ==> Known(h, g, n, msgs[k])
  }

  lemma KnownStays(h: History, g: A.Acks, h': History, g': A.Acks, n: nat, msg: ApplyMsg)
    requires S.Grows(h, g, h', g') && Known(h, g, n, msg)
    ensures Known(h', g', n, msg)
  {
    var t, m :| S.MsgFrom(h, g, n, t, m, msg);
    assert S.MsgOk(h, g, n, t, msg);
    S.MsgStays(h, g, h', g', n, t, t, msg);
  }

  lemma AgreedStays(h: History, g: A.Acks, h': History, g': A.Acks, n: nat, msgs: seq<ApplyMsg>)
    requires S.Grows(h, g, h', g') && Agreed(h, g, n, msgs)
    ensures Agreed(h', g', n, msgs)
  {
    forall k | 0 <= k < |msgs| ensures Known(h', g', n, msgs[k]) {
      KnownStays(h, g, h', g', n, msgs[k]);
    }
  }

  lemma AppliedIsAgreed(w: World, h: History, g: A.Acks, i: nat)
    requires AllInv(w, h, g) && i < |w.servers|
    ensures Agreed(h, g, |w.servers|, w.servers[i].applied)
  {
    var s := w.servers[i];
    S.ServerIs(w, h, g, i);
    forall k | 0 <= k < |s.applied|
      ensures s.applied[k].commandIndex == k + 1 && Known(h, g, |w.servers|, s.applied[k])
    {
      AppliedList(s, k);
      assert S.MsgOk(h, g, |w.servers|, s.currentTerm, s.applied[k]);
    }
  }

  /** Of two such lists one goes on where the other ends. */
  lemma OneGoesOn(w: World, h: History, g: A.Acks, a: seq<ApplyMsg>, b: seq<ApplyMsg>)
    requires A.AllInv(w, h, g) && Agreed(h, g, |w.servers|, a) && Agreed(h, g, |w.servers|, b) && |a| <= |b|
    ensures a <= b
  {
    forall k | 0 <= k < |a| ensures a[k] == b[k] {
      assert Known(h, g, |w.servers|, a[k]) && Known(h, g, |w.servers|, b[k]);
      var t, m :| S.MsgFrom(h, g, |w.servers|, t, m, a[k]);
      var u, x :| S.MsgFrom(h, g, |w.servers|, u, x, b[k]);
      S.SameMessage(w, h, g, t, m, a[k], u, x, b[k]);
    }
  }

  function Longer(a: seq<ApplyMsg>, b: seq<ApplyMsg>): (r: seq<ApplyMsg>)
  {
    if |a| < |b| then b else a
  }

  /** The longest of the list and of what the servers have applied. */
  function Longest(a: seq<ApplyMsg>, servers: seq<Server>): (r: seq<ApplyMsg>)
  {
    if servers == [] then a else Longer(Longest(a, servers[..|servers| - 1]), servers[|servers| - 1].applied)
  }

  /** The servers have applied no more than the list, and nothing else. */
  ghost predicate FollowedBy(a: seq<ApplyMsg>, servers: seq<Server>)
  {
    forall i :: 0 <= i < |servers| ==> servers[i].applied <= a
  }

  lemma LongerIsAgreed(w: World, h: History, g: A.Acks, a: seq<ApplyMsg>, b: seq<ApplyMsg>)
    requires A.AllInv(w, h, g) && Agreed(h, g, |w.servers|, a) && Agreed(h, g, |w.servers|, b)
    ensures Agreed(h, g, |w.servers|, Longer(a, b)) && a <= Longer(a, b) && b <= Longer(a, b)
  {
    if |a| < |b| {
      OneGoesOn(w, h, g, a, b);
    } else {
      OneGoesOn(w, h, g, b, a);
    }
  }

  lemma {:induction false} LongestIsAgreed(w: World, h: History, g: A.Acks, a: seq<ApplyMsg>, servers: seq<Server>)
    requires A.AllInv(w, h, g) && Agreed(h, g, |w.servers|, a)
    requires forall i :: 0 <= i < |servers| ==> Agreed(h, g, |w.servers|, servers[i].applied)
    ensures var b := Longest(a, servers); Agreed(h, g, |w.servers|, b) && a <= b && FollowedBy(b, servers)
  {
    if servers != [] {
      var front, last := servers[..|servers| - 1], servers[|servers| - 1];
      LongestIsAgreed(w, h, g, a, front);
      LongerIsAgreed(w, h, g, Longest(a, front), last.applied);
      Follows(a, Longest(a, front), Longest(a, servers), front);
      assert servers == front + [last];
    }
  }

  lemma Follows(a: seq<ApplyMsg>, b: seq<ApplyMsg>, c: seq<ApplyMsg>, servers: seq<Server>)
    requires a <= b <= c && FollowedBy(b, servers)
    ensures a <= c && FollowedBy(c, servers)
  {
  }

  // ---------- Whole runs ----------

  lemma InitInv(n: nat)
    ensures AllInv(Init(n), HistInit(n), A.NO_ACKS)
  {
    S.InitInv(n);
    forall i | 0 <= i < n ensures InOwnLog(Init(n).servers[i]) {
      assert CommitMessages([DUMMY], 1, 0) == [];
    }
  }

  /** The longest list that any server has applied in the course of the run, in any of its lives. */
  ghost function AppliedInRun(w: World, es: seq<Event>, a: seq<ApplyMsg>): (r: seq<ApplyMsg>)
    decreases |es|
  {
    if es == [] || !CanStep(w, es[0]) then a
    else AppliedInRun(Step(w, es[0]), es[1..], Longest(a, Step(w, es[0]).servers))
  }

  lemma StepAgreed(w: World, h: History, g: A.Acks, e: Event, a: seq<ApplyMsg>)
    requires AllInv(w, h, g) && Agreed(h, g, |w.servers|, a) && CanStep(w, e) && Minds(FullCare, w, e)
    ensures var w', h', g' := Step(w, e), HistStep(w, h, e), A.AckStep(w, h, g, e);
      var b := Longest(a, w'.servers);
      && AllInv(w', h', g') && S.Grows(h, g, h', g') && |w'.servers| == |w.servers|
      && Agreed(h', g', |w.servers|, b) && a <= b && FollowedBy(b, w'.servers)
  {
    var w', h', g' := Step(w, e), HistStep(w, h, e), A.AckStep(w, h, g, e);
    StepKeepsInv(w, h, g, e);
    AgreedStays(h, g, h', g', |w.servers|, a);
    forall i | 0 <= i < |w'.servers| ensures Agreed(h', g', |w.servers|, w'.servers[i].applied) {
      AppliedIsAgreed(w', h', g', i);
    }
    LongestIsAgreed(w', h', g', a, w'.servers);
  }

  lemma {:induction false} RunAgreed(w: World, h: History, g: A.Acks, es: seq<Event>, w': World, a: seq<ApplyMsg>)
    returns (h': History, g': A.Acks)
    requires AllInv(w, h, g) && Agreed(h, g, |w.servers|, a) && FollowedBy(a, w.servers)
    requires GoesWith(FullCare, w, es, w')
    ensures AllInv(w', h', g') && S.Grows(h, g, h', g') && |w'.servers| == |w.servers|
    ensures var b := AppliedInRun(w, es, a);
      Agreed(h', g', |w'.servers|, b) && a <= b && FollowedBy(b, w'.servers)
    decreases |es|
  {
    if es == [] {
      h', g' := h, g;
    } else {
      var h1, g1 := HistStep(w, h, es[0]), A.AckStep(w, h, g, es[0]);
      StepAgreed(w, h, g, es[0], a);
      h', g' := RunAgreed(Step(w, es[0]), h1, g1, es[1..], w', Longest(a, Step(w, es[0]).servers));
      S.GrowsOn(h, g, h1, g1, h', g');
    }
  }

  /** There is one log: at every point of a careful run what each server has applied is a prefix of
      a list of messages that only grows, one for each index from 1 on.  And what it has applied are
      the items of its own log up to its commit index, each once and in order. */
  lemma AppliedFromOneLog(n: nat, es: seq<Event>, w: World, later: seq<Event>, w': World, i: nat)
    requires GoesWith(FullCare, Init(n), es, w) && GoesWith(FullCare, w, later, w') && i < |w.servers|
    ensures var a := AppliedInRun(Init(n), es, []); var b := AppliedInRun(w, later, a);
      InOrder(a) && InOrder(b) && a <= b && FollowedBy(a, w.servers) && FollowedBy(b, w'.servers)
    ensures InOwnLog(w.servers[i]) && |w.servers[i].applied| == w.servers[i].commitIndex
  {
    InitInv(n);
    assert FollowedBy([], Init(n).servers);
    var h, g := RunAgreed(Init(n), HistInit(n), A.NO_ACKS, es, w, []);
    var h', g' := RunAgreed(w, h, g, later, w', AppliedInRun(Init(n), es, []));
    AppliedList(w.servers[i], 0);
  }

  // ---------- Between crashes ----------

  lemma LivesStep(w: World, e: Event, i: nat)
    requires CanStep(w, e) && i < |w.lives|
    ensures |Step(w, e).lives| == |w.lives|
    ensures Step(w, e).lives[i] == if e == Crash(i) then w.lives[i] + 1 else w.lives[i]
  {
  }

  lemma {:induction false} LivesGrow(w: World, es: seq<Event>, w': World, i: nat)
    requires GoesWith(FullCare, w, es, w') && i < |w.lives|
    ensures |w'.lives| == |w.lives| && w.lives[i] <= w'.lives[i]
    decreases |es|
  {
    if es != [] {
      LivesStep(w, es[0], i);
      LivesGrow(Step(w, es[0]), es[1..], w', i);
    }
  }

  lemma GoesTwice(s: Server, s1: Server, s2: Server)
    requires Goes(s, s1) && Goes(s1, s2)
    ensures Goes(s, s2)
  {
  }

  lemma {:induction false} RunGoes(w: World, h: History, g: A.Acks, es: seq<Event>, w': World, i: nat)
    requires AllInv(w, h, g) && GoesWith(FullCare, w, es, w') && i < |w.servers| == |w.lives|
    requires i < |w'.lives| && w'.lives[i] == w.lives[i]
    ensures i < |w'.servers| && Goes(w.servers[i], w'.servers[i])
    decreases |es|
  {
    if es != [] {
      var w1 := Step(w, es[0]);
      LivesStep(w, es[0], i);
      LivesGrow(w1, es[1..], w', i);
      StepKeepsInv(w, h, g, es[0]);
      StepGoes(w, h, g, es[0], i);
      RunGoes(w1, HistStep(w, h, es[0]), A.AckStep(w, h, g, es[0]), es[1..], w', i);
      GoesTwice(w.servers[i], w1.servers[i], w'.servers[i]);
    }
  }

  /** As long as a server does not crash, its commit index does not go down, and what it has applied
      stays and may be added to. */
  lemma AppliedOnlyGrows(n: nat, es: seq<Event>, w: World, later: seq<Event>, w': World, i: nat)
    requires GoesWith(FullCare, Init(n), es, w) && GoesWith(FullCare, w, later, w') && i < |w.servers|
    requires i < |w.lives| && i < |w'.lives| && w'.lives[i] == w.lives[i]
    ensures i < |w'.servers| && w.servers[i].commitIndex <= w'.servers[i].commitIndex
    ensures w.servers[i].applied <= w'.servers[i].applied
  {
    InitInv(n);
    assert FollowedBy([], Init(n).servers);
    var h, g := RunAgreed(Init(n), HistInit(n), A.NO_ACKS, es, w, []);
    RunGoes(w, h, g, later, w', i);
  }
}
