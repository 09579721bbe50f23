/** While a server leads a term its commit index only goes up, over whole runs. */
module RaftCommit {
  import opened RaftServer
  import opened RaftProtocol
  import E = RaftElection
  import L = RaftLogs
  import R = RaftReplies

  /** Server i has won term t; as long as it leads that term its commit index is at least c. */
  ghost predicate Reign(w: World, h: History, i: nat, t: int, c: int)
  {
    && i < |w.servers| && t in h.leaders && h.leaders[t] == i && t <= w.servers[i].currentTerm
    && (w.servers[i].currentTerm == t && w.servers[i].state == Leader ==> c <= w.servers[i].commitIndex)
  }

  lemma VoteRepliedReign(w: World, h: History, call: nat, t: int)
    requires R.AllInv(w, h) && CanStep(w, VoteReplied(call)) && t in h.leaders && h.leaders[t] == w.calls[call].from
    requires var i := w.calls[call].from;
      w.servers[i].currentTerm == t && Step(w, VoteReplied(call)).servers[i].state == Leader
      && Step(w, VoteReplied(call)).servers[i].currentTerm == t
    ensures var i := w.calls[call].from;
      w.servers[i].state == Leader && Step(w, VoteReplied(call)).servers[i].commitIndex == w.servers[i].commitIndex
  {
    var i := w.calls[call].from;
    if w.servers[i].state != Leader {
      E.WinnerIsFirst(w, h, Step(w, VoteReplied(call)), HistStep(w, h, VoteReplied(call)), call);
    }
  }

  /** Replies to append calls raise a leader's commit index or leave it. */
  lemma ReplyRaises(s: Server, j: nat, args: AppendArgs, reply: AppendReply)
    requires Contiguous(s.log) && !AppendReplyPanics(s, j, args, reply)
    ensures OnAppendReply(s, j, args, reply).currentTerm == s.currentTerm ==>
      && s.commitIndex <= OnAppendReply(s, j, args, reply).commitIndex
      && OnAppendReply(s, j, args, reply).state == s.state
  {
  }

  lemma ActorReign(w: World, h: History, e: Event, i: nat, t: int)
    requires R.AllInv(w, h) && CanStep(w, e) && !e.Lose? && i == R.Actor(w, e) < |w.servers|
    requires |Step(w, e).servers| == |w.servers|
    requires t in h.leaders && h.leaders[t] == i && w.servers[i].currentTerm == t
    requires Step(w, e).servers[i].currentTerm == t && Step(w, e).servers[i].state == Leader
    ensures w.servers[i].state == Leader && w.servers[i].commitIndex <= Step(w, e).servers[i].commitIndex
  {
    match e
    case VoteReplied(call) => VoteRepliedReign(w, h, call, t);
    case HandleAppend(call) => L.LeaderUntouched(w, h, Step(w, e), HistStep(w, h, e), call);
    case AppendReplied(call) =>
      ReplyRaises(w.servers[i], w.calls[call].dest, w.calls[call].aargs, w.calls[call].areply.value);
    case _ =>
  }

  lemma ReignKept(w: World, h: History, e: Event, i: nat, t: int, c: int)
    requires R.AllInv(w, h) && CanStep(w, e) && Reign(w, h, i, t, c)
    ensures Reign(Step(w, e), HistStep(w, h, e), i, t, c)
  {
    R.ServersFine(w, h, Step(w, e), e, i);
    L.StepKeepsLogInv(w, h, e);
    var s, s' := w.servers[i], Step(w, e).servers[i];
    if s'.currentTerm == t && s'.state == Leader && !e.Lose? && i == R.Actor(w, e) {
      ActorReign(w, h, e, i, t);
    }
  }

  lemma {:induction false} RunReign(w: World, h: History, es: seq<Event>, w': World, i: nat, t: int, c: int)
    returns (h': History)
    requires R.AllInv(w, h) && Goes(w, es, w') && Reign(w, h, i, t, c)
    ensures Reign(w', h', i, t, c)
    decreases |es|
  {
    if es == [] {
      h' := h;
    } else {
      R.StepKeepsInv(w, h, es[0]);
      ReignKept(w, h, es[0], i, t, c);
      h' := RunReign(Step(w, es[0]), HistStep(w, h, es[0]), es[1..], w', i, t, c);
    }
  }

  /** A server that leads a term, and leads the same term at a later point of the run, has not
      lowered its commit index. */
  lemma LeaderCommitGrows(n: nat, es: seq<Event>, w: World, later: seq<Event>, w': World, i: nat)
    requires Goes(Init(n), es, w) && Goes(w, later, w') && i < |w.servers| && i < |w'.servers|
    requires w.servers[i].state == Leader && w'.servers[i].state == Leader
    requires w.servers[i].currentTerm == w'.servers[i].currentTerm
    ensures w.servers[i].commitIndex <= w'.servers[i].commitIndex
  {
    var h := R.ReachesInv(n, es, w);
    assert E.ServerOk(w, h, i);
    var h' := RunReign(w, h, later, w', i, w.servers[i].currentTerm, w.servers[i].commitIndex);
  }
}
