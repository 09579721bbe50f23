/** Which steps can make a server panic: without compaction, only a leader's sending of
    entries, and that one can. */
module RaftReplies {
  import opened Wrappers
  import opened RaftServer
  import opened RaftProtocol
  import E = RaftElection
  import L = RaftLogs
  import F = RaftLogFacts

  // ---------- The invariant ----------

  /** A leader knows an index for every server, and none is beyond its own log. */
  ghost predicate IndexesOk(w: World, i: nat)
    requires i < |w.servers|
  {
    var s := w.servers[i];
    && |s.nextIndex| == |s.matchIndex|
    && (s.state == Leader ==>
          && |s.matchIndex| == |w.servers| && s.log != []
          && forall j :: 0 <= j < |s.matchIndex| ==> s.matchIndex[j] <= LastIndex(s.log))
  }

  /** The server that made the call, if it has not restarted, knows an index for every server,
      and it is still leader if its term is still that of the call. */
  ghost predicate CallerOk(w: World, c: Call)
    requires Shape(w) && c.AppendCall?
  {
    && c.from < |w.servers| && c.dest < |w.servers| && c.life <= w.lives[c.from]
    && c.aargs.term <= w.servers[c.from].currentTerm
    && (c.life == w.lives[c.from] ==> |w.servers[c.from].nextIndex| == |w.servers|)
    && (c.life == w.lives[c.from] && c.aargs.term == w.servers[c.from].currentTerm ==>
          w.servers[c.from].state == Leader)
  }

  ghost predicate ReplyOk(c: Call)
    requires c.AppendCall?
  {
    c.areply.Some? && c.areply.value.success ==> c.areply.value.term == c.aargs.term
  }

  ghost predicate Inv(w: World)
  {
    && Shape(w)
    && (forall i {:trigger IndexesOk(w, i)} :: 0 <= i < |w.servers| ==> IndexesOk(w, i))
    && (forall id {:trigger CallerOk(w, w.calls[id])} :: id in w.calls && w.calls[id].AppendCall? ==>
          CallerOk(w, w.calls[id]) && ReplyOk(w.calls[id]))
  }

  ghost predicate AllInv(w: World, h: History)
  {
    E.Inv(w, h) && L.LogInv(w, h) && Inv(w)
  }

  // ---------- What a step may do to a server ----------

  /** The server keeps its term, state and indexes; or it moves to a newer term; or it wins
      its term; or it restarts. */
  ghost predicate Moves(w: World, w': World, i: nat)
    requires Shape(w) && Shape(w') && |w.servers| == |w'.servers| && i < |w.servers|
  {
    var s, s' := w.servers[i], w'.servers[i];
    || (w'.lives[i] == w.lives[i] && s'.currentTerm == s.currentTerm && |s'.nextIndex| == |s.nextIndex|
        && s'.state == s.state)
    || (w'.lives[i] == w.lives[i] && s'.currentTerm > s.currentTerm && |s'.nextIndex| == |s.nextIndex|)
    || (w'.lives[i] == w.lives[i] && s'.currentTerm == s.currentTerm && |s'.nextIndex| == |w.servers|
        && s'.state == Leader)
    || w'.lives[i] == w.lives[i] + 1
  }

  lemma CallerKept(w: World, w': World, c: Call, c': Call)
    requires Shape(w) && Shape(w') && |w.servers| == |w'.servers| && c.AppendCall? && c'.AppendCall? && CallerOk(w, c)
    requires c' == c.(areply := c'.areply) && Moves(w, w', c.from)
    requires w'.servers[c.from].currentTerm >= w.servers[c.from].currentTerm
    ensures CallerOk(w', c')
  {
  }

  ghost predicate Stepped(w: World, h: History, w': World, e: Event)
  {
    AllInv(w, h) && CanStep(w, e) && w' == Step(w, e)
  }

  /** The server that a step changes. */
  function Actor(w: World, e: Event): (i: nat)
    requires CanStep(w, e)
  {
    match e
    case Timeout(i) => i
    case HandleVote(call) => w.calls[call].dest
    case VoteReplied(call) => w.calls[call].from
    case SendAppend(i, j) => i
    case HandleAppend(call) => w.calls[call].dest
    case AppendReplied(call) => w.calls[call].from
    case ClientStart(i, command) => i
    case Crash(i) => i
    case Lose(call) => 0
  }

  ghost predicate Fine(w: World, w': World, i: nat)
    requires Shape(w) && Shape(w') && |w.servers| == |w'.servers| && i < |w.servers|
  {
    Moves(w, w', i) && IndexesOk(w', i) && w'.servers[i].currentTerm >= w.servers[i].currentTerm
  }

  lemma HandleVoteFine(w: World, h: History, w': World, call: nat)
    requires Stepped(w, h, w', HandleVote(call))
    ensures Fine(w, w', w.calls[call].dest)
  {
    var i := w.calls[call].dest;
    assert L.ServerLogOk(w, h, i) && IndexesOk(w, i);
  }

  /** A server that hears of a vote keeps its indexes and state, or steps down to a newer term, or
      wins and starts with fresh indexes. */
  lemma OnVoteReplyFacts(s: Server, reply: VoteReply)
    requires s.log != []
    ensures var s' := OnVoteReply(s, reply);
      && s'.log == s.log
      && ((s'.currentTerm == s.currentTerm && s'.state == s.state && s'.nextIndex == s.nextIndex
           && s'.matchIndex == s.matchIndex)
          || (s'.currentTerm > s.currentTerm && s'.state == Follower && s'.nextIndex == s.nextIndex)
          || (s'.currentTerm == s.currentTerm && s'.state == Leader && s.state != Leader && |s'.nextIndex| == s.n
              && |s'.matchIndex| == s.n && forall j :: 0 <= j < s.n ==> s'.matchIndex[j] == 0))
  {
  }

  lemma VoteRepliedFine(w: World, h: History, w': World, call: nat)
    requires Stepped(w, h, w', VoteReplied(call))
    ensures Fine(w, w', w.calls[call].from)
  {
    var i := w.calls[call].from;
    assert E.ServerOk(w, h, i) && L.ServerLogOk(w, h, i) && IndexesOk(w, i);
    OnVoteReplyFacts(w.servers[i], w.calls[call].vreply.value);
    assert w'.servers == w.servers[i := OnVoteReply(w.servers[i], w.calls[call].vreply.value)];
  }

  /** A follower that takes entries keeps its indexes, and its term and state unless the term is
      new; a leader is left alone. */
  lemma FollowerFine(w: World, w': World, i: nat, s: Server)
    requires Shape(w) && i < |w.servers| && IndexesOk(w, i) && w'.servers == w.servers[i := s] && w'.lives == w.lives
    requires s.nextIndex == w.servers[i].nextIndex && s.matchIndex == w.servers[i].matchIndex
    requires s.currentTerm > w.servers[i].currentTerm
      || (s.currentTerm == w.servers[i].currentTerm && s.state == w.servers[i].state)
    requires s.state == Leader ==> s == w.servers[i]
    ensures Fine(w, w', i)
  {
  }

  lemma AppendEntriesKeepsIndexes(s: Server, args: AppendArgs)
    requires Contiguous(s.log) && EntriesFit(args)
    ensures AppendEntries(s, args).0.nextIndex == s.nextIndex && AppendEntries(s, args).0.matchIndex == s.matchIndex
  {
  }

  /** A success reply of this term is about entries of the leader's own log. */
  lemma AckedIsInLog(w: World, h: History, call: nat)
    requires AllInv(w, h) && call in w.calls && w.calls[call].AppendCall? && w.calls[call].areply.Some?
    requires var c := w.calls[call]; c.from < |w.servers| && c.life == w.lives[c.from] && c.areply.value.success
                                     && c.areply.value.term == w.servers[c.from].currentTerm
    ensures var c := w.calls[call]; var s := w.servers[c.from];
      && s.state == Leader && s.log != []
      && c.aargs.prevLogIndex + |c.aargs.entries| <= LastIndex(s.log)
  {
    var c := w.calls[call];
    assert CallerOk(w, c) && ReplyOk(c);
    assert L.AppendCallOk(w, h, call) && L.ServerLogOk(w, h, c.from);
  }

  /** No reply to an append call makes the server that made it panic. */
  lemma ReplyIsHandled(w: World, h: History, call: nat)
    requires AllInv(w, h) && call in w.calls && w.calls[call].AppendCall? && w.calls[call].areply.Some?
    requires w.calls[call].from < |w.servers| && w.calls[call].life == w.lives[w.calls[call].from]
    ensures CanStep(w, AppendReplied(call))
  {
    var c := w.calls[call];
    var s := w.servers[c.from];
    assert CallerOk(w, c) && L.ServerLogOk(w, h, c.from) && IndexesOk(w, c.from);
    if c.areply.value.success && c.areply.value.term == s.currentTerm {
      AckedIsInLog(w, h, call);
      F.FindMatchBound(s.matchIndex[c.dest := c.aargs.prevLogIndex + |c.aargs.entries|], LastIndex(s.log));
    }
  }

  lemma AppendRepliedFine(w: World, h: History, w': World, call: nat)
    requires Stepped(w, h, w', AppendReplied(call))
    ensures Fine(w, w', w.calls[call].from)
  {
    var c := w.calls[call];
    assert CallerOk(w, c) && L.ServerLogOk(w, h, c.from) && IndexesOk(w, c.from);
    if c.areply.value.success && c.areply.value.term == w.servers[c.from].currentTerm {
      AckedIsInLog(w, h, call);
    }
  }

  lemma OtherStepsFine(w: World, h: History, w': World, e: Event)
    requires Stepped(w, h, w', e) && (e.Timeout? || e.SendAppend? || e.ClientStart? || e.Crash?)
    ensures Fine(w, w', Actor(w, e))
  {
    var i := Actor(w, e);
    assert E.ServerOk(w, h, i) && L.ServerLogOk(w, h, i) && IndexesOk(w, i);
  }

  lemma ActorFine(w: World, h: History, w': World, e: Event)
    requires Stepped(w, h, w', e) && !e.Lose?
    ensures Actor(w, e) < |w.servers| && Fine(w, w', Actor(w, e))
  {
    match e
    case HandleAppend(call) =>
      var c := w.calls[call];
      assert E.ServerOk(w, h, c.dest) && IndexesOk(w, c.dest);
      E.AppendEntriesFields(w.servers[c.dest], c.aargs);
      AppendEntriesKeepsIndexes(w.servers[c.dest], c.aargs);
      L.LeaderUntouched(w, h, w', HistStep(w, h, e), call);
      FollowerFine(w, w', c.dest, w'.servers[c.dest]);
    case AppendReplied(call) => AppendRepliedFine(w, h, w', call);
    case HandleVote(call) => HandleVoteFine(w, h, w', call);
    case VoteReplied(call) => VoteRepliedFine(w, h, w', call);
    case _ => OtherStepsFine(w, h, w', e);
  }

  lemma ServersFine(w: World, h: History, w': World, e: Event, i: nat)
    requires Stepped(w, h, w', e) && i < |w.servers|
    ensures Shape(w') && |w'.servers| == |w.servers| && Fine(w, w', i)
  {
    assert IndexesOk(w, i);
    if !e.Lose? && i == Actor(w, e) {
      ActorFine(w, h, w', e);
    }
  }

  lemma OldCallKept(w: World, h: History, w': World, e: Event, id: nat)
    requires Stepped(w, h, w', e) && id in w.calls && id in w'.calls && w'.calls[id].AppendCall?
    requires w.calls[id].AppendCall?
    ensures w'.calls[id] == w.calls[id].(areply := w'.calls[id].areply) && ReplyOk(w'.calls[id])
  {
    assert CallerOk(w, w.calls[id]) && ReplyOk(w.calls[id]);
  }

  /** Where an append call of the new state comes from. */
  lemma CallSource(w: World, h: History, w': World, e: Event, id: nat)
    requires Stepped(w, h, w', e) && id in w'.calls && w'.calls[id].AppendCall?
    ensures (id in w.calls && w.calls[id].AppendCall?) || (e.SendAppend? && id == w.nextCall)
  {
  }

  lemma CallsKept(w: World, h: History, w': World, e: Event, id: nat)
    requires Stepped(w, h, w', e) && id in w'.calls && w'.calls[id].AppendCall?
    requires Shape(w') && |w'.servers| == |w.servers|
    ensures CallerOk(w', w'.calls[id]) && ReplyOk(w'.calls[id])
  {
    CallSource(w, h, w', e, id);
    if id in w.calls && w.calls[id].AppendCall? {
      OldCallKept(w, h, w', e, id);
      assert CallerOk(w, w.calls[id]);
      ServersFine(w, h, w', e, w.calls[id].from);
      CallerKept(w, w', w.calls[id], w'.calls[id]);
    } else {
      assert IndexesOk(w, e.i);
    }
  }

  lemma StepKeepsInv(w: World, h: History, e: Event)
    requires AllInv(w, h) && CanStep(w, e)
    ensures AllInv(Step(w, e), HistStep(w, h, e))
  {
    var w' := Step(w, e);
    E.StepKeepsInv(w, h, e);
    L.StepKeepsLogInv(w, h, e);
    forall i | 0 <= i < |w.servers| ensures Shape(w') && |w'.servers| == |w.servers| && IndexesOk(w', i) {
      ServersFine(w, h, w', e, i);
    }
    forall id | id in w'.calls && w'.calls[id].AppendCall? ensures CallerOk(w', w'.calls[id]) && ReplyOk(w'.calls[id]) {
      CallsKept(w, h, w', e, id);
    }
  }

  // ---------- Whole runs ----------

  lemma {:induction false} RunKeepsInv(w: World, h: History, es: seq<Event>, w': World) returns (h': History)
    requires AllInv(w, h) && Goes(w, es, w')
    ensures AllInv(w', h')
    decreases |es|
  {
    if es == [] {
      h' := h;
    } else {
      StepKeepsInv(w, h, es[0]);
      h' := RunKeepsInv(Step(w, es[0]), HistStep(w, h, es[0]), es[1..], w');
    }
  }

  lemma ReachesInv(n: nat, es: seq<Event>, w: World) returns (h: History)
    requires Goes(Init(n), es, w)
    ensures AllInv(w, h)
  {
    E.InitInv(n);
    L.InitLogInv(n);
    h := RunKeepsInv(Init(n), HistInit(n), es, w);
  }

  /** The caller of a call is still running. */
  ghost predicate Alive(w: World, c: Call)
  {
    c.from < |w.servers| && c.from < |w.lives| && c.life == w.lives[c.from]
  }

  /** The server or the message that the event is about is there. */
  ghost predicate Due(w: World, e: Event)
  {
    match e
    case Timeout(i) => i < |w.servers|
    case ClientStart(i, command) => i < |w.servers|
    case Crash(i) => i < |w.servers|
    case HandleVote(call) => call in w.calls && w.calls[call].VoteCall? && w.calls[call].vreply == None
    case HandleAppend(call) => call in w.calls && w.calls[call].AppendCall? && w.calls[call].areply == None
    case VoteReplied(call) =>
      call in w.calls && w.calls[call].VoteCall? && w.calls[call].vreply.Some? && Alive(w, w.calls[call])
    case AppendReplied(call) =>
      call in w.calls && w.calls[call].AppendCall? && w.calls[call].areply.Some? && Alive(w, w.calls[call])
    case SendAppend(i, j) => i < |w.servers| && j < |w.servers| && i != j && w.servers[i].state == Leader
    case Lose(call) => call in w.calls
  }

  /** In every reachable state, whatever is due other than the sending of entries can happen:
      no index is out of bounds. */
  lemma OnlySendingCanPanic(n: nat, es: seq<Event>, w: World, e: Event)
    requires Goes(Init(n), es, w) && Due(w, e) && !e.SendAppend?
    ensures CanStep(w, e)
  {
    var h := ReachesInv(n, es, w);
    if e.Timeout? || e.ClientStart? || e.Crash? {
      assert E.ServerOk(w, h, e.i) && L.ServerLogOk(w, h, e.i) && IndexesOk(w, e.i);
    } else if e.HandleVote? {
      assert E.VoteCallOk(w, h, e.call) && L.ServerLogOk(w, h, w.calls[e.call].dest);
    } else if e.HandleAppend? {
      L.CallHandled(w, h, e.call);
    } else if e.VoteReplied? {
      assert L.ServerLogOk(w, h, w.calls[e.call].from);
    } else if e.AppendReplied? {
      ReplyIsHandled(w, h, e.call);
    }
  }

  /** And a leader can send to server j, or passes it over, exactly if the next index it keeps
      for j is not beyond the end of its log by more than one. */
  lemma SendingPanicsIff(n: nat, es: seq<Event>, w: World, i: nat, j: nat)
    requires Goes(Init(n), es, w) && Due(w, SendAppend(i, j))
    ensures |w.servers[i].nextIndex| == |w.servers| && w.servers[i].log != []
    ensures var s := w.servers[i];
      CanStep(w, SendAppend(i, j)) || s.nextIndex[j] - 1 < DummyIndex(s.log) <==> s.nextIndex[j] <= LastIndex(s.log) + 1
  {
    var h := ReachesInv(n, es, w);
    assert E.ServerOk(w, h, i) && L.ServerLogOk(w, h, i) && IndexesOk(w, i);
  }
}
