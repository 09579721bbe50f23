/** The servers and the network between them.  Every critical section of a server is one
    atomic step.  A call is handled at most once and its reply is consumed at most once, by
    the incarnation of the server that made it; calls may be delayed, reordered and lost.  A
    crash keeps what is on the disk.  Where the program would panic, no step is possible. */
module RaftProtocol {
  import opened Wrappers
  import opened RaftServer

  /** A remote call in flight, with its reply once it has been handled. */
  datatype Call =
    | VoteCall(from: nat, dest: nat, life: nat, vargs: VoteArgs, vreply: Option<VoteReply>)
    | AppendCall(from: nat, dest: nat, life: nat, aargs: AppendArgs, areply: Option<AppendReply>)

  /** `lives` counts the restarts of each server. */
  datatype World = World(servers: seq<Server>, lives: seq<nat>, calls: map<nat, Call>, nextCall: nat)

  datatype Event =
    | Timeout(i: nat)
    | HandleVote(call: nat)
    | VoteReplied(call: nat)
    | SendAppend(i: nat, j: nat)
    | HandleAppend(call: nat)
    | AppendReplied(call: nat)
    | ClientStart(i: nat, command: string)
    | Crash(i: nat)
    | Lose(call: nat)

  function Init(n: nat): (w: World)
  {
    World(seq(n, i requires 0 <= i < n => Make(n, i, BLANK, None)), seq(n, _ => 0), map[], 0)
  }

  ghost predicate Shape(w: World)
  {
    |w.lives| == |w.servers|
  }

  ghost predicate CanStep(w: World, e: Event)
  {
    && Shape(w)
    && match e
       case Timeout(i) => i < |w.servers| && w.servers[i].log != []
       case HandleVote(call) =>
         && call in w.calls && w.calls[call].VoteCall? && w.calls[call].vreply == None
         && w.calls[call].dest < |w.servers| && w.servers[w.calls[call].dest].log != []
       case VoteReplied(call) =>
         && call in w.calls && w.calls[call].VoteCall? && w.calls[call].vreply.Some?
         && w.calls[call].from < |w.servers| && w.servers[w.calls[call].from].log != []
         && w.calls[call].life == w.lives[w.calls[call].from]
       case SendAppend(i, j) => i < |w.servers| && j < |w.servers| && CanSendAppend(w.servers[i], j)
       case HandleAppend(call) =>
         && call in w.calls && w.calls[call].AppendCall? && w.calls[call].areply == None
         && w.calls[call].dest < |w.servers| && Contiguous(w.servers[w.calls[call].dest].log)
         && EntriesFit(w.calls[call].aargs)
       case AppendReplied(call) =>
         && call in w.calls && w.calls[call].AppendCall? && w.calls[call].areply.Some?
         && w.calls[call].from < |w.servers| && Contiguous(w.servers[w.calls[call].from].log)
         && w.calls[call].life == w.lives[w.calls[call].from]
         && !AppendReplyPanics(w.servers[w.calls[call].from], w.calls[call].dest, w.calls[call].aargs,
                               w.calls[call].areply.value)
       case ClientStart(i, command) =>
         && i < |w.servers| && w.servers[i].log != []
         && (w.servers[i].state == Leader ==> w.servers[i].me < |w.servers[i].matchIndex|)
       case Crash(i) => i < |w.servers| && w.servers[i].disk.log != []
       case Lose(call) => call in w.calls
  }

  /** The calls of a new candidate to the first k servers, itself left out. */
  function VoteCalls(w: World, i: nat, s: Server, k: nat): (r: map<nat, Call>)
    requires Shape(w) && i < |w.servers| && s.log != []
    ensures forall id :: id in r <==> w.nextCall <= id < w.nextCall + k && id - w.nextCall != i
    ensures forall id :: id in r ==> r[id] == VoteCall(i, id - w.nextCall, w.lives[i], VoteArgsOf(s), None)
  {
    if k == 0 then map[]
    else if k - 1 == i then VoteCalls(w, i, s, k - 1)
    else VoteCalls(w, i, s, k - 1)[w.nextCall + k - 1 := VoteCall(i, k - 1, w.lives[i], VoteArgsOf(s), None)]
  }

  function Step(w: World, e: Event): (r: World)
    requires CanStep(w, e)
  {
    match e
    case Timeout(i) =>
      var s := StartElection(w.servers[i]);
      w.(servers := w.servers[i := s], calls := w.calls + VoteCalls(w, i, s, |w.servers|),
         nextCall := w.nextCall + |w.servers|)
    case HandleVote(call) =>
      var c := w.calls[call];
      var (s, reply) := RequestVote(w.servers[c.dest], c.vargs);
      w.(servers := w.servers[c.dest := s], calls := w.calls[call := c.(vreply := Some(reply))])
    case VoteReplied(call) =>
      var c := w.calls[call];
      w.(servers := w.servers[c.from := OnVoteReply(w.servers[c.from], c.vreply.value)], calls := w.calls - {call})
    case SendAppend(i, j) =>
      var c := AppendCall(i, j, w.lives[i], AppendArgsFor(w.servers[i], j), None);
      w.(calls := w.calls[w.nextCall := c], nextCall := w.nextCall + 1)
    case HandleAppend(call) =>
      var c := w.calls[call];
      var (s, reply) := AppendEntries(w.servers[c.dest], c.aargs);
      w.(servers := w.servers[c.dest := s], calls := w.calls[call := c.(areply := Some(reply))])
    case AppendReplied(call) =>
      var c := w.calls[call];
      w.(servers := w.servers[c.from := OnAppendReply(w.servers[c.from], c.dest, c.aargs, c.areply.value)],
         calls := w.calls - {call})
    case ClientStart(i, command) =>
      w.(servers := w.servers[i := RaftServer.Start(w.servers[i], command).0])
    case Crash(i) =>
      w.(servers := w.servers[i := Make(w.servers[i].n, i, w.servers[i].disk, w.servers[i].snapshot)],
         lives := w.lives[i := w.lives[i] + 1])
    case Lose(call) =>
      w.(calls := w.calls - {call})
  }

  /** The events es are possible one after the other and lead from w to w'. */
  ghost predicate Goes(w: World, es: seq<Event>, w': World)
    decreases |es|
  {
    if es == [] then w' == w else CanStep(w, es[0]) && Goes(Step(w, es[0]), es[1..], w')
  }

  // ---------- History variables ----------

  /** votes: who got the vote of a server in a term.  counted: the servers whose votes a
      server has counted in its term.  leaders: who won a term.  logs: the log of the leader
      of a term, as far as it grew. */
  datatype History = History(
    votes: map<(nat, int), nat>, counted: seq<set<nat>>, leaders: map<int, nat>, logs: map<int, seq<LogItem>>)

  function HistInit(n: nat): (h: History)
  {
    History(map[], seq(n, _ => {}), map[], map[])
  }

  /** A server whose term changes has counted no votes. */
  function NewTerm(h: History, i: nat, before: Server, after: Server): (r: History)
  {
    if i < |h.counted| && after.currentTerm != before.currentTerm then h.(counted := h.counted[i := {}]) else h
  }

  function HistStep(w: World, h: History, e: Event): (r: History)
    requires CanStep(w, e) && |h.counted| == |w.servers|
  {
    var w' := Step(w, e);
    match e
    case Timeout(i) =>
      h.(votes := h.votes[(i, w'.servers[i].currentTerm) := i], counted := h.counted[i := {i}])
    case HandleVote(call) =>
      var c := w.calls[call];
      var reply := w'.calls[call].vreply.value;
      var h1 := NewTerm(h, c.dest, w.servers[c.dest], w'.servers[c.dest]);
      if reply.voteGranted then h1.(votes := h1.votes[(c.dest, reply.term) := c.vargs.candidateId]) else h1
    case VoteReplied(call) =>
      var c := w.calls[call];
      var s, s' := w.servers[c.from], w'.servers[c.from];
      var h1 := NewTerm(h, c.from, s, s');
      var h2 := if c.vreply.value.term == s.currentTerm && c.vreply.value.voteGranted
                then h1.(counted := h1.counted[c.from := h1.counted[c.from] + {c.dest}]) else h1;
      if s.state != Leader && s'.state == Leader
      then h2.(leaders := h2.leaders[s.currentTerm := c.from], logs := h2.logs[s.currentTerm := s'.log]) else h2
    case HandleAppend(call) =>
      var c := w.calls[call];
      NewTerm(h, c.dest, w.servers[c.dest], w'.servers[c.dest])
    case AppendReplied(call) =>
      var c := w.calls[call];
      NewTerm(h, c.from, w.servers[c.from], w'.servers[c.from])
    case ClientStart(i, command) =>
      if w.servers[i].state == Leader then h.(logs := h.logs[w.servers[i].currentTerm := w'.servers[i].log]) else h
    case Crash(i) => h.(counted := h.counted[i := {}])
    case _ => h
  }
}
