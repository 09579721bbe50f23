/** Building concrete runs of three servers step by step.  A run is followed in terms of the
    servers and of the calls that are still of interest; r stands for the states that can be
    reached with some care. */
module RaftRuns {
  import opened Wrappers
  import opened RaftServer
  import opened RaftProtocol
  import opened RaftCareful

  datatype Space = Space(states: iset<World>, care: Care)

  /** The set holds whatever can be reached from its states with that care. */
  ghost predicate ClosedUnderSteps(r: Space)
  {
    forall w, e {:trigger Step(w, e)} :: w in r.states && CanStep(w, e) && Minds(r.care, w, e) ==>
      Step(w, e) in r.states
  }

  ghost predicate FromStart(r: Space)
  {
    ClosedUnderSteps(r) && Init(3) in r.states
  }

  ghost predicate Three(w: World)
  {
    |w.servers| == 3 && w.lives == [0, 0, 0] && forall id :: id in w.calls ==> id < w.nextCall
  }

  /** These calls are on their way. */
  ghost predicate Holds(w: World, pending: map<nat, Call>)
  {
    forall id :: id in pending ==> id in w.calls && w.calls[id] == pending[id]
  }

  ghost predicate At(r: Space, w: World, pending: map<nat, Call>)
  {
    ClosedUnderSteps(r) && w in r.states && Three(w) && Holds(w, pending)
  }

  // ---------- Elections ----------

  lemma CampaignCalls(w: World, i: nat, u: nat)
    requires Three(w) && i < 3 && u < 3 && u != i && CanStep(w, Timeout(i))
    ensures var w' := Step(w, Timeout(i));
      && w.nextCall + u in w'.calls
      && w'.calls[w.nextCall + u] == VoteCall(i, u, 0, VoteArgsOf(StartElection(w.servers[i])), None)
  {
  }

  lemma CampaignKeeps(w: World, i: nat, pending: map<nat, Call>)
    requires Three(w) && i < 3 && CanStep(w, Timeout(i)) && Holds(w, pending)
    ensures Three(Step(w, Timeout(i))) && Holds(Step(w, Timeout(i)), pending)
  {
  }

  /** Server i becomes a candidate and asks servers v and u. */
  lemma Campaigns(r: Space, w: World, pending: map<nat, Call>, i: nat, v: nat, u: nat) returns (w': World)
    requires At(r, w, pending) && i < 3 && v < 3 && u < 3 && v != i && u != i && w.servers[i].log != []
    ensures w'.servers == w.servers[i := StartElection(w.servers[i])]
    ensures var args := VoteArgsOf(StartElection(w.servers[i])); var b := w.nextCall;
      At(r, w', pending[b + v := VoteCall(i, v, 0, args, None)][b + u := VoteCall(i, u, 0, args, None)])
  {
    w' := Step(w, Timeout(i));
    CampaignCalls(w, i, v);
    CampaignCalls(w, i, u);
    CampaignKeeps(w, i, pending);
  }

  /** Server v handles the request for its vote. */
  lemma Votes(r: Space, w: World, pending: map<nat, Call>, call: nat, i: nat, v: nat, args: VoteArgs)
    returns (w': World)
    requires At(r, w, pending) && v < 3 && w.servers[v].log != []
    requires call in pending && pending[call] == VoteCall(i, v, 0, args, None)
    ensures var (s, reply) := RequestVote(w.servers[v], args);
      w'.servers == w.servers[v := s] && At(r, w', pending[call := VoteCall(i, v, 0, args, Some(reply))])
  {
    w' := Step(w, HandleVote(call));
  }

  /** Server i consumes the reply. */
  lemma Counts(r: Space, w: World, pending: map<nat, Call>, call: nat, i: nat, v: nat, args: VoteArgs,
               reply: VoteReply)
    returns (w': World)
    requires At(r, w, pending) && i < 3 && w.servers[i].log != []
    requires call in pending && pending[call] == VoteCall(i, v, 0, args, Some(reply))
    ensures w'.servers == w.servers[i := OnVoteReply(w.servers[i], reply)] && At(r, w', pending - {call})
  {
    w' := Step(w, VoteReplied(call));
  }

  /** Server v votes and server i counts. */
  lemma VotesCounted(r: Space, w: World, pending: map<nat, Call>, call: nat, i: nat, v: nat, args: VoteArgs)
    returns (w': World)
    requires At(r, w, pending) && i < 3 && v < 3 && i != v && w.servers[i].log != [] && w.servers[v].log != []
    requires call in pending && pending[call] == VoteCall(i, v, 0, args, None)
    ensures var (s, reply) := RequestVote(w.servers[v], args);
      w'.servers == w.servers[v := s][i := OnVoteReply(w.servers[i], reply)] && At(r, w', pending - {call})
  {
    var reply := RequestVote(w.servers[v], args).1;
    var w1 := Votes(r, w, pending, call, i, v, args);
    w' := Counts(r, w1, pending[call := VoteCall(i, v, 0, args, Some(reply))], call, i, v, args, reply);
    assert pending[call := VoteCall(i, v, 0, args, Some(reply))] - {call} == pending - {call};
  }

  lemma Consumed(pending: map<nat, Call>, a: nat, c: Call, b: nat, d: Call)
    requires a !in pending && a != b
    ensures pending[a := c][b := d] - {a} == pending[b := d]
  {
  }

  /** The candidate after the reply of one voter. */
  function Elected(s: Server, voter: Server): (t: Server)
    requires s.log != [] && voter.log != []
  {
    OnVoteReply(StartElection(s), RequestVote(voter, VoteArgsOf(StartElection(s))).1)
  }

  function Voted(voter: Server, s: Server): (t: Server)
    requires s.log != [] && voter.log != []
  {
    RequestVote(voter, VoteArgsOf(StartElection(s))).0
  }

  /** Server i campaigns and server v votes; the request to server u is still on its way. */
  lemma Elect(r: Space, w: World, pending: map<nat, Call>, i: nat, v: nat, u: nat)
    returns (w': World, ask: nat)
    requires At(r, w, pending) && i < 3 && v < 3 && u < 3 && v != i && u != i && u != v
    requires w.servers[i].log != [] && w.servers[v].log != []
    ensures w'.servers == w.servers[i := Elected(w.servers[i], w.servers[v])][v := Voted(w.servers[v], w.servers[i])]
    ensures ask !in pending
    ensures At(r, w', pending[ask := VoteCall(i, u, 0, VoteArgsOf(StartElection(w.servers[i])), None)])
  {
    var args := VoteArgsOf(StartElection(w.servers[i]));
    var vote := w.nextCall + v;
    ask := w.nextCall + u;
    var w1 := Campaigns(r, w, pending, i, v, u);
    var p1 := pending[vote := VoteCall(i, v, 0, args, None)][ask := VoteCall(i, u, 0, args, None)];
    w' := VotesCounted(r, w1, p1, vote, i, v, args);
    Consumed(pending, vote, VoteCall(i, v, 0, args, None), ask, VoteCall(i, u, 0, args, None));
  }

  // ---------- Replication ----------

  lemma Accepts(r: Space, w: World, pending: map<nat, Call>, i: nat, command: string) returns (w': World)
    requires At(r, w, pending) && i < 3 && w.servers[i].log != [] && w.servers[i].me < |w.servers[i].matchIndex|
    ensures w'.servers == w.servers[i := RaftServer.Start(w.servers[i], command).0] && At(r, w', pending)
  {
    w' := Step(w, ClientStart(i, command));
  }

  /** Server i sends entries, or a heartbeat, to server j. */
  lemma Sends(r: Space, w: World, pending: map<nat, Call>, i: nat, j: nat) returns (w': World, call: nat)
    requires At(r, w, pending) && i < 3 && j < 3 && CanSendAppend(w.servers[i], j)
    ensures w'.servers == w.servers && call !in pending
    ensures At(r, w', pending[call := AppendCall(i, j, 0, AppendArgsFor(w.servers[i], j), None)])
  {
    call := w.nextCall;
    w' := Step(w, SendAppend(i, j));
  }

  /** The request is handled, and the reply consumed, with this care. */
  ghost predicate MindsCut(care: Care, s: Server, args: AppendArgs)
    requires Contiguous(s.log)
  {
    care.CareInCuts? || care.FullCare? ==> HandlesWithCare(s, args)
  }

  ghost predicate MindsCommit(care: Care, s: Server, j: nat, args: AppendArgs, reply: AppendReply)
    requires Contiguous(s.log) && !AppendReplyPanics(s, j, args, reply)
  {
    care.CareInCommits? || care.FullCare? ==> CommitsOwnTerm(s, j, args, reply)
  }

  lemma Handles(r: Space, w: World, pending: map<nat, Call>, call: nat, i: nat, j: nat, args: AppendArgs)
    returns (w': World)
    requires At(r, w, pending) && j < 3 && Contiguous(w.servers[j].log) && EntriesFit(args)
    requires call in pending && pending[call] == AppendCall(i, j, 0, args, None)
    requires MindsCut(r.care, w.servers[j], args)
    ensures var (s, reply) := AppendEntries(w.servers[j], args);
      w'.servers == w.servers[j := s] && At(r, w', pending[call := AppendCall(i, j, 0, args, Some(reply))])
  {
    w' := Step(w, HandleAppend(call));
  }

  lemma Learns(r: Space, w: World, pending: map<nat, Call>, call: nat, i: nat, j: nat, args: AppendArgs,
               reply: AppendReply)
    returns (w': World)
    requires At(r, w, pending) && i < 3 && Contiguous(w.servers[i].log)
    requires call in pending && pending[call] == AppendCall(i, j, 0, args, Some(reply))
    requires !AppendReplyPanics(w.servers[i], j, args, reply)
    requires MindsCommit(r.care, w.servers[i], j, args, reply)
    ensures w'.servers == w.servers[i := OnAppendReply(w.servers[i], j, args, reply)] && At(r, w', pending - {call})
  {
    w' := Step(w, AppendReplied(call));
  }

  /** Server i sends to server j, which handles it at once. */
  lemma Delivers(r: Space, w: World, pending: map<nat, Call>, i: nat, j: nat) returns (w': World, call: nat)
    requires At(r, w, pending) && i < 3 && j < 3 && CanSendAppend(w.servers[i], j) && Contiguous(w.servers[j].log)
    requires EntriesFit(AppendArgsFor(w.servers[i], j))
    requires MindsCut(r.care, w.servers[j], AppendArgsFor(w.servers[i], j))
    ensures call !in pending
    ensures var args := AppendArgsFor(w.servers[i], j);
      && w'.servers == w.servers[j := AppendEntries(w.servers[j], args).0]
      && At(r, w', pending[call := AppendCall(i, j, 0, args, Some(AppendEntries(w.servers[j], args).1))])
  {
    var args := AppendArgsFor(w.servers[i], j);
    var w1;
    w1, call := Sends(r, w, pending, i, j);
    w' := Handles(r, w1, pending[call := AppendCall(i, j, 0, args, None)], call, i, j, args);
  }

  /** And the reply comes back. */
  lemma Replicates(r: Space, w: World, pending: map<nat, Call>, i: nat, j: nat) returns (w': World)
    requires At(r, w, pending) && i < 3 && j < 3 && i != j && CanSendAppend(w.servers[i], j)
    requires Contiguous(w.servers[j].log)
    requires var args := AppendArgsFor(w.servers[i], j);
      && EntriesFit(args) && MindsCut(r.care, w.servers[j], args)
      && !AppendReplyPanics(w.servers[i], j, args, AppendEntries(w.servers[j], args).1)
      && MindsCommit(r.care, w.servers[i], j, args, AppendEntries(w.servers[j], args).1)
    ensures At(r, w', pending)
    ensures var args := AppendArgsFor(w.servers[i], j); var (s, reply) := AppendEntries(w.servers[j], args);
      w'.servers == w.servers[j := s][i := OnAppendReply(w.servers[i], j, args, reply)]
  {
    var args := AppendArgsFor(w.servers[i], j);
    var reply := AppendEntries(w.servers[j], args).1;
    var w1, call := Delivers(r, w, pending, i, j);
    var p1 := pending[call := AppendCall(i, j, 0, args, Some(reply))];
    w' := Learns(r, w1, p1, call, i, j, args, reply);
    assert p1 - {call} == pending;
  }

  lemma AtLess(r: Space, w: World, pending: map<nat, Call>, call: nat, c: Call)
    requires At(r, w, pending[call := c]) && call !in pending
    ensures At(r, w, pending)
  {
    forall id | id in pending ensures id in w.calls && w.calls[id] == pending[id] {
      assert id in pending[call := c] && pending[call := c][id] == pending[id];
    }
  }

  lemma AtNothing(r: Space, w: World, pending: map<nat, Call>)
    requires At(r, w, pending)
    ensures At(r, w, map[])
  {
  }

  lemma AtWithout(r: Space, w: World, pending: map<nat, Call>, call: nat, c: Call)
    requires At(r, w, pending[call := c])
    ensures At(r, w, pending - {call})
  {
    forall id | id in pending - {call} ensures id in w.calls && w.calls[id] == pending[id] {
      assert id in pending[call := c] && pending[call := c][id] == pending[id];
    }
  }

  // ---------- From sets of states to runs ----------

  lemma {:induction false} GoesAppend(care: Care, w: World, es: seq<Event>, w1: World, e: Event)
    requires GoesWith(care, w, es, w1) && CanStep(w1, e) && Minds(care, w1, e)
    ensures GoesWith(care, w, es + [e], Step(w1, e))
    decreases |es|
  {
    if es == [] {
      assert [e][1..] == [];
    } else {
      GoesAppend(care, Step(w, es[0]), es[1..], w1, e);
      assert (es + [e])[1..] == es[1..] + [e];
    }
  }

  ghost predicate Reachable(care: Care, n: nat, w: World)
  {
    exists es :: GoesWith(care, Init(n), es, w)
  }

  ghost function Reach(care: Care): (r: Space)
  {
    Space((iset w | Reachable(care, 3, w)), care)
  }

  lemma ReachIsClosed(care: Care)
    ensures FromStart(Reach(care))
  {
    forall w, e | Reachable(care, 3, w) && CanStep(w, e) && Minds(care, w, e) ensures Reachable(care, 3, Step(w, e)) {
      var es :| GoesWith(care, Init(3), es, w);
      GoesAppend(care, Init(3), es, w, e);
    }
    assert GoesWith(care, Init(3), [], Init(3));
  }

  lemma RunTo(care: Care, w: World) returns (es: seq<Event>)
    requires w in Reach(care).states
    ensures GoesWith(care, Init(3), es, w) && Goes(Init(3), es, w)
  {
    es :| GoesWith(care, Init(3), es, w);
    GoesWithGoes(care, Init(3), es, w);
  }

  // ---------- Servers as they come up in runs ----------

  function Peer(me: nat, term: int, voteFor: int, log: seq<LogItem>, commit: int, applied: seq<ApplyMsg>): (s: Server)
  {
    Server(3, me, term, voteFor, log, Follower, 0, commit, commit, [], [], PersistState(term, voteFor, log), None,
           applied)
  }

  function Chief(me: nat, term: int, log: seq<LogItem>, commit: int, next: seq<int>, matching: seq<int>,
                 applied: seq<ApplyMsg>): (s: Server)
  {
    Server(3, me, term, me, log, Leader, 0, commit, commit, next, matching, PersistState(term, me, log), None, applied)
  }

  // ---------- What the critical sections do to them ----------

  ghost predicate Sound(log: seq<LogItem>)
  {
    Contiguous(log) && log[0] == DUMMY
  }

  /** A vote is granted exactly when the request is not from an older term, no other candidate
      has the vote of that term, and the voter's log is not the more up to date one; the vote
      is then on disk. */
  lemma VoteGrantedIff(s: Server, args: VoteArgs)
    requires s.log != []
    ensures var (s', reply) := RequestVote(s, args);
      && (reply.voteGranted <==>
            && s.currentTerm <= args.term
            && !(s.currentTerm == args.term && s.voteFor != -1 && s.voteFor != args.candidateId)
            && !(LastTerm(s.log) > args.lastLogTerm)
            && !(LastTerm(s.log) == args.lastLogTerm && LastIndex(s.log) > args.lastLogIndex))
      && (reply.voteGranted ==> s'.disk == PersistState(args.term, args.candidateId, s.log))
      && (!reply.voteGranted && s.currentTerm == args.term ==> s'.voteFor == s.voteFor)
  {
  }

  /** A server wins the next term with the vote of a server whose log is no more up to date. */
  lemma WinsOver(s: Server, v: Server)
    requires s.n == 3 && s.lastApplied == s.commitIndex && s.snapshot == None && Sound(s.log)
    requires Sound(v.log) && v.currentTerm <= s.currentTerm
    requires IsMoreUpdated(LastTerm(s.log), LastIndex(s.log), LastTerm(v.log), LastIndex(v.log))
    ensures var next := LastIndex(s.log) + 1;
      Elected(s, v) == Chief(s.me, s.currentTerm + 1, s.log, s.commitIndex, [next, next, next], [0, 0, 0], s.applied)
  {
    VoteGrantedIff(v, VoteArgsOf(StartElection(s)));
  }

  lemma ElectionOf(s: Server, me: nat, term: int, voteFor: int, log: seq<LogItem>, commit: int, applied: seq<ApplyMsg>)
    requires s.n == 3 && s.lastApplied == s.commitIndex && s.snapshot == None && Sound(s.log)
    requires Sound(log) && term <= s.currentTerm
    requires IsMoreUpdated(LastTerm(s.log), LastIndex(s.log), LastTerm(log), LastIndex(log))
    ensures var v, next := Peer(me, term, voteFor, log, commit, applied), LastIndex(s.log) + 1;
      && Elected(s, v) ==
           Chief(s.me, s.currentTerm + 1, s.log, s.commitIndex, [next, next, next], [0, 0, 0], s.applied)
      && Voted(v, s) == Peer(me, s.currentTerm + 1, s.me, log, commit, applied)
  {
  }

  /** The entries fit behind the item they name. */
  ghost predicate Fits(log: seq<LogItem>, args: AppendArgs)
  {
    Sound(log) && EntriesFit(args) && 0 <= args.prevLogIndex < |log| && log[args.prevLogIndex].term == args.prevLogTerm
  }

  function Taken(log: seq<LogItem>, args: AppendArgs): (r: seq<LogItem>)
    requires 0 <= args.prevLogIndex < |log|
  {
    log[..args.prevLogIndex + 1] + args.entries
  }

  function VoteAt(term: int, voteFor: int, args: AppendArgs): (r: int)
  {
    if term < args.term then -1 else voteFor
  }

  lemma TakenIsSlice(log: seq<LogItem>, args: AppendArgs)
    requires Fits(log, args)
    ensures HasIndex(log, args.prevLogIndex) && ItemAt(log, args.prevLogIndex) == log[args.prevLogIndex]
    ensures Slice(log, DummyIndex(log), args.prevLogIndex) + args.entries == Taken(log, args)
    ensures Sound(Taken(log, args)) && LastIndex(Taken(log, args)) == |Taken(log, args)| - 1
  {
    AppendedContiguous(log, args);
  }

  /** Entries that fit are taken; the commit index is not moved. */
  lemma Appended(me: nat, term: int, voteFor: int, log: seq<LogItem>, commit: int, applied: seq<ApplyMsg>,
                 args: AppendArgs, log': seq<LogItem>)
    requires Fits(log, args) && term <= args.term && args.leaderCommit <= commit && log' == Taken(log, args)
    ensures AppendEntries(Peer(me, term, voteFor, log, commit, applied), args) ==
      (Peer(me, args.term, VoteAt(term, voteFor, args), log', commit, applied), AppendReply(args.term, true))
  {
    TakenIsSlice(log, args);
  }

  ghost predicate MessageOf(log: seq<LogItem>, k: nat, m: ApplyMsg)
  {
    k < |log| && m == ApplyMsg(true, log[k].command, k, log[k].term)
  }

  /** Entries that fit are taken, and the item after the last one committed is committed. */
  lemma Committed(me: nat, term: int, voteFor: int, log: seq<LogItem>, commit: nat, applied: seq<ApplyMsg>,
                  args: AppendArgs, log': seq<LogItem>, m: ApplyMsg)
    requires Fits(log, args) && term <= args.term && args.leaderCommit == commit + 1 && log' == Taken(log, args)
    requires MessageOf(log', commit + 1, m)
    ensures AppendEntries(Peer(me, term, voteFor, log, commit, applied), args) ==
      (Peer(me, args.term, VoteAt(term, voteFor, args), log', commit + 1, applied + [m]), AppendReply(args.term, true))
  {
    TakenIsSlice(log, args);
    OneMessage(log', commit + 1);
  }

  /** A reply that lets the leader commit its next item. */
  lemma Acknowledged(me: nat, term: int, log: seq<LogItem>, commit: nat, next: seq<int>, matching: seq<int>,
                     applied: seq<ApplyMsg>, j: nat, args: AppendArgs, next': seq<int>, matching': seq<int>,
                     m: ApplyMsg)
    requires Sound(log) && LastTerm(log) == term && |next| == |matching| == 3 && j < 3
    requires var last := args.prevLogIndex + |args.entries|;
      next' == next[j := last + 1] && matching' == matching[j := last]
    requires FindMatch(matching') == commit + 1 && MessageOf(log, commit + 1, m)
    ensures var s := Chief(me, term, log, commit, next, matching, applied);
      && !AppendReplyPanics(s, j, args, AppendReply(term, true))
      && OnAppendReply(s, j, args, AppendReply(term, true)) ==
           Chief(me, term, log, commit + 1, next', matching', applied + [m])
  {
    OneMessage(log, commit + 1);
  }

  lemma OneMessage(log: seq<LogItem>, k: int)
    requires Contiguous(log) && log[0].index == 0 && 0 < k < |log|
    ensures CommitMessages(log, k, k) == [ApplyMsg(true, log[k].command, k, log[k].term)]
  {
    assert CommitMessages(log, k + 1, k) == [];
  }

  /** The larger two of three indexes are equal: that is what a majority has reached. */
  lemma Middle(matching: seq<int>, low: int, high: int)
    requires low <= high && matching in {[high, high, low], [low, high, high]}
    ensures FindMatch(matching) == high
  {
    var x, y, z := matching[0], matching[1], matching[2];
    assert matching[1..] == [y, z] && [y, z][1..] == [z] && [z][1..] == [];
    assert Sorted([z]) == [z];
    assert [z][1..] == [] && Insert(y, []) == [y];
    assert Sorted([y, z]) == if y <= z then [y, z] else [z, y];
    assert [low, high][1..] == [high] && Insert(high, [high]) == [high, high];
    assert Sorted(matching) == Insert(x, Sorted([y, z]));
    assert Sorted(matching) == [low, high, high];
  }

  /** Leader c sends these entries to server s of index j, which becomes s'; the reply makes the
      leader c'. */
  ghost predicate Exchange(care: Care, c: Server, j: nat, args: AppendArgs, s: Server, s': Server, c': Server)
  {
    && CanSendAppend(c, j) && AppendArgsFor(c, j) == args && Contiguous(s.log) && EntriesFit(args)
    && MindsCut(care, s, args) && AppendEntries(s, args) == (s', AppendReply(args.term, true))
    && !AppendReplyPanics(c, j, args, AppendReply(args.term, true))
    && MindsCommit(care, c, j, args, AppendReply(args.term, true))
    && OnAppendReply(c, j, args, AppendReply(args.term, true)) == c'
  }

  lemma CanSend(c: Server, j: nat, args: AppendArgs)
    requires c.state == Leader && Sound(c.log) && j < |c.nextIndex| && j != c.me && 1 <= c.nextIndex[j] <= |c.log|
    requires var p := c.nextIndex[j] - 1;
      args == AppendArgs(c.currentTerm, c.me, p, c.log[p].term, c.log[p + 1..], c.commitIndex)
    ensures CanSendAppend(c, j) && AppendArgsFor(c, j) == args && EntriesFit(args)
  {
  }

  /** The leader sends all it has from its next index for j on; with the reply it can commit its
      next item. */
  lemma Replicated(care: Care, me: nat, term: int, log: seq<LogItem>, commit: nat, next: seq<int>, matching: seq<int>,
                   applied: seq<ApplyMsg>, j: nat, args: AppendArgs, s: Server, s': Server,
                   next': seq<int>, matching': seq<int>, m: ApplyMsg)
    requires Sound(log) && LastTerm(log) == term && |next| == |matching| == 3 && j < 3 && j != me
    requires 1 <= next[j] <= |log|
    requires args == AppendArgs(term, me, next[j] - 1, log[next[j] - 1].term, log[next[j]..], commit)
    requires next' == next[j := |log|] && matching' == matching[j := |log| - 1]
    requires FindMatch(matching') == commit + 1 && MessageOf(log, commit + 1, m)
    requires log[commit + 1].term == term
    requires Contiguous(s.log) && MindsCut(care, s, args) && AppendEntries(s, args) == (s', AppendReply(term, true))
    ensures Exchange(care, Chief(me, term, log, commit, next, matching, applied), j, args, s, s',
                     Chief(me, term, log, commit + 1, next', matching', applied + [m]))
  {
    CanSend(Chief(me, term, log, commit, next, matching, applied), j, args);
    Acknowledged(me, term, log, commit, next, matching, applied, j, args, next', matching', m);
  }

  lemma Exchanges(r: Space, w: World, pending: map<nat, Call>, i: nat, j: nat, args: AppendArgs, s': Server,
                  c': Server)
    returns (w': World)
    requires At(r, w, pending) && i < 3 && j < 3 && i != j
    requires Exchange(r.care, w.servers[i], j, args, w.servers[j], s', c')
    ensures At(r, w', pending) && w'.servers == w.servers[j := s'][i := c']
  {
    w' := Replicates(r, w, pending, i, j);
  }

  // ---------- The first leader ----------

  lemma FirstLeader(r: Space) returns (w: World)
    requires FromStart(r)
    ensures At(r, w, map[])
    ensures w.servers == [Chief(0, 1, [DUMMY], 0, [1, 1, 1], [0, 0, 0], []), Peer(1, 1, 0, [DUMMY], 0, []),
                          Peer(2, 0, -1, [DUMMY], 0, [])]
  {
    var w0 := Init(3);
    assert w0.servers
        == [Peer(0, 0, -1, [DUMMY], 0, []), Peer(1, 0, -1, [DUMMY], 0, []), Peer(2, 0, -1, [DUMMY], 0, [])];
    ElectionOf(w0.servers[0], 1, 0, -1, [DUMMY], 0, []);
    var ask;
    w, ask := Elect(r, w0, map[], 0, 1, 2);
    AtLess(r, w, map[], ask, VoteCall(0, 2, 0, VoteArgsOf(StartElection(w0.servers[0])), None));
  }
}
