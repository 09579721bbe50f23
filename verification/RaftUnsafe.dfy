/** Runs of three servers in which the protocol does not keep what one would expect of it:
    servers apply different commands at one index, a commit index goes down, and, once a log
    has been compacted, a message leaves it empty.  All of them rest on a delayed heartbeat
    cutting a log back to its previous index. */
module RaftUnsafe {
  import opened Wrappers
  import opened RaftServer
  import opened RaftProtocol
  import opened RaftCareful
  import opened RaftRuns
  import RaftLogFacts

  const ITEM_A: LogItem := LogItem("a", 1, 1)
  const ITEM_B: LogItem := LogItem("b", 1, 2)
  const ITEM_X: LogItem := LogItem("x", 2, 1)

  const MSG_A: ApplyMsg := ApplyMsg(true, "a", 1, 1)
  const MSG_B: ApplyMsg := ApplyMsg(true, "b", 2, 1)
  const MSG_X: ApplyMsg := ApplyMsg(true, "x", 1, 2)

  /** Entries may be cut off without a conflict. */
  ghost predicate CutsFreely(care: Care)
  {
    care.NoCare? || care.CareInCommits?
  }

  // ---------- The beginning of all runs ----------

  const HEARTBEAT: AppendArgs := AppendArgs(1, 0, 0, 0, [], 0)

  /** The two heartbeats that will be late. */
  function Late(m1: nat, m2: nat): (p: map<nat, Call>)
  {
    map[m1 := AppendCall(0, 1, 0, HEARTBEAT, None)][m2 := AppendCall(0, 2, 0, HEARTBEAT, None)]
  }

  /** Server 0 sends heartbeats, which are delayed, and accepts the command a. */
  lemma SendsEarly(r: Space) returns (w: World, m1: nat, m2: nat)
    requires FromStart(r)
    ensures m1 != m2 && At(r, w, Late(m1, m2))
    ensures w.servers == [Chief(0, 1, [DUMMY, ITEM_A], 0, [1, 1, 1], [1, 0, 0], []), Peer(1, 1, 0, [DUMMY], 0, []),
                          Peer(2, 0, -1, [DUMMY], 0, [])]
  {
    var w1 := FirstLeader(r);
    var w2, w3;
    assert AppendArgsFor(w1.servers[0], 1) == HEARTBEAT == AppendArgsFor(w1.servers[0], 2);
    w2, m1 := Sends(r, w1, map[], 0, 1);
    w3, m2 := Sends(r, w2, map[m1 := AppendCall(0, 1, 0, HEARTBEAT, None)], 0, 2);
    w := Accepts(r, w3, Late(m1, m2), 0, "a");
    assert [DUMMY] + [ITEM_A] == [DUMMY, ITEM_A] && [0, 0, 0][0 := 1] == [1, 0, 0];
    assert w.servers[0] == Chief(0, 1, [DUMMY, ITEM_A], 0, [1, 1, 1], [1, 0, 0], []);
  }

  lemma TakesA()
    ensures AppendEntries(Peer(1, 1, 0, [DUMMY], 0, []), AppendArgs(1, 0, 0, 0, [ITEM_A], 0)) ==
      (Peer(1, 1, 0, [DUMMY, ITEM_A], 0, []), AppendReply(1, true))
  {
    var args := AppendArgs(1, 0, 0, 0, [ITEM_A], 0);
    assert Taken([DUMMY], args) == [DUMMY, ITEM_A];
    Appended(1, 1, 0, [DUMMY], 0, [], args, [DUMMY, ITEM_A]);
  }

  lemma SpreadsA(care: Care)
    requires AppendEntries(Peer(1, 1, 0, [DUMMY], 0, []), AppendArgs(1, 0, 0, 0, [ITEM_A], 0)) ==
      (Peer(1, 1, 0, [DUMMY, ITEM_A], 0, []), AppendReply(1, true))
    requires FindMatch([1, 1, 0]) == 1
    ensures Exchange(care, Chief(0, 1, [DUMMY, ITEM_A], 0, [1, 1, 1], [1, 0, 0], []), 1,
                     AppendArgs(1, 0, 0, 0, [ITEM_A], 0), Peer(1, 1, 0, [DUMMY], 0, []),
                     Peer(1, 1, 0, [DUMMY, ITEM_A], 0, []),
                     Chief(0, 1, [DUMMY, ITEM_A], 1, [1, 2, 1], [1, 1, 0], [MSG_A]))
  {
    Replicated(care, 0, 1, [DUMMY, ITEM_A], 0, [1, 1, 1], [1, 0, 0], [], 1, AppendArgs(1, 0, 0, 0, [ITEM_A], 0),
               Peer(1, 1, 0, [DUMMY], 0, []), Peer(1, 1, 0, [DUMMY, ITEM_A], 0, []), [1, 2, 1], [1, 1, 0], MSG_A);
    assert [] + [MSG_A] == [MSG_A];
  }

  /** Server 0 leads term 1 and has sent heartbeats; it has committed the command a, with
      server 1, but the heartbeats have not arrived. */
  lemma Beginning(r: Space) returns (w: World, m1: nat, m2: nat)
    requires FromStart(r)
    ensures m1 != m2 && At(r, w, Late(m1, m2))
    ensures w.servers == [Chief(0, 1, [DUMMY, ITEM_A], 1, [1, 2, 1], [1, 1, 0], [MSG_A]),
                          Peer(1, 1, 0, [DUMMY, ITEM_A], 0, []), Peer(2, 0, -1, [DUMMY], 0, [])]
  {
    var w1;
    w1, m1, m2 := SendsEarly(r);
    TakesA();
    Middle([1, 1, 0], 0, 1);
    SpreadsA(r.care);
    w := Exchanges(r, w1, Late(m1, m2), 0, 1, AppendArgs(1, 0, 0, 0, [ITEM_A], 0),
                   Peer(1, 1, 0, [DUMMY, ITEM_A], 0, []),
                   Chief(0, 1, [DUMMY, ITEM_A], 1, [1, 2, 1], [1, 1, 0], [MSG_A]));
  }

  /** Runs with any care can commit: server 0 applies a. */
  lemma RunCommits(care: Care) returns (es: seq<Event>, w: World)
    ensures GoesWith(care, Init(3), es, w) && |w.servers| == 3
    ensures w.servers[0].state == Leader && w.servers[0].commitIndex == 1 && w.servers[0].applied == [MSG_A]
  {
    ReachIsClosed(care);
    var m1, m2;
    w, m1, m2 := Beginning(Reach(care));
    es := RunTo(care, w);
  }

  /** The late heartbeat cuts the log of server 1 or 2 back to nothing. */
  lemma CutBack(r: Space, w: World, pending: map<nat, Call>, call: nat, j: nat, voteFor: int, log: seq<LogItem>,
                commit: nat, applied: seq<ApplyMsg>) returns (w': World)
    requires At(r, w, pending) && j < 3 && call in pending && pending[call] == AppendCall(0, j, 0, HEARTBEAT, None)
    requires CutsFreely(r.care)
    requires w.servers[j] == Peer(j, 1, voteFor, log, commit, applied) && Sound(log)
    ensures w'.servers == w.servers[j := Peer(j, 1, voteFor, [DUMMY], commit, applied)] && At(r, w', pending - {call})
  {
    assert Taken(log, HEARTBEAT) == [DUMMY];
    Appended(j, 1, voteFor, log, commit, applied, HEARTBEAT, [DUMMY]);
    w' := Handles(r, w, pending, call, 0, j, HEARTBEAT);
    AtWithout(r, w', pending, call, AppendCall(0, j, 0, HEARTBEAT, Some(AppendReply(1, true))));
  }

  // ---------- Two commands at one index ----------

  /** Server 1, whose log the late heartbeat has cut back, is elected by server 2. */
  lemma Overtakes(r: Space) returns (w: World)
    requires FromStart(r) && CutsFreely(r.care)
    ensures At(r, w, map[])
    ensures w.servers == [Chief(0, 1, [DUMMY, ITEM_A], 1, [1, 2, 1], [1, 1, 0], [MSG_A]),
                          Chief(1, 2, [DUMMY], 0, [1, 1, 1], [0, 0, 0], []), Peer(2, 2, 1, [DUMMY], 0, [])]
  {
    var w1, m1, m2 := Beginning(r);
    var w2 := CutBack(r, w1, Late(m1, m2), m1, 1, 0, [DUMMY, ITEM_A], 0, []);
    ElectionOf(w2.servers[1], 2, 0, -1, [DUMMY], 0, []);
    var ask;
    AtNothing(r, w2, Late(m1, m2) - {m1});
    w, ask := Elect(r, w2, map[], 1, 2, 0);
    AtNothing(r, w, map[ask := VoteCall(1, 0, 0, VoteArgsOf(StartElection(w2.servers[1])), None)]);
  }

  lemma TakesX()
    ensures AppendEntries(Peer(2, 2, 1, [DUMMY], 0, []), AppendArgs(2, 1, 0, 0, [ITEM_X], 0)) ==
      (Peer(2, 2, 1, [DUMMY, ITEM_X], 0, []), AppendReply(2, true))
  {
    var args := AppendArgs(2, 1, 0, 0, [ITEM_X], 0);
    assert Taken([DUMMY], args) == [DUMMY, ITEM_X];
    Appended(2, 2, 1, [DUMMY], 0, [], args, [DUMMY, ITEM_X]);
  }

  lemma SpreadsX(care: Care)
    requires CutsFreely(care)
    requires AppendEntries(Peer(2, 2, 1, [DUMMY], 0, []), AppendArgs(2, 1, 0, 0, [ITEM_X], 0)) ==
      (Peer(2, 2, 1, [DUMMY, ITEM_X], 0, []), AppendReply(2, true))
    requires FindMatch([0, 1, 1]) == 1
    ensures Exchange(care, Chief(1, 2, [DUMMY, ITEM_X], 0, [1, 1, 1], [0, 1, 0], []), 2,
                     AppendArgs(2, 1, 0, 0, [ITEM_X], 0), Peer(2, 2, 1, [DUMMY], 0, []),
                     Peer(2, 2, 1, [DUMMY, ITEM_X], 0, []),
                     Chief(1, 2, [DUMMY, ITEM_X], 1, [1, 1, 2], [0, 1, 1], [MSG_X]))
  {
    Replicated(care, 1, 2, [DUMMY, ITEM_X], 0, [1, 1, 1], [0, 1, 0], [], 2, AppendArgs(2, 1, 0, 0, [ITEM_X], 0),
               Peer(2, 2, 1, [DUMMY], 0, []), Peer(2, 2, 1, [DUMMY, ITEM_X], 0, []), [1, 1, 2], [0, 1, 1], MSG_X);
    assert [] + [MSG_X] == [MSG_X];
  }

  /** The new leader commits the command x at the index at which server 0 has applied a. */
  lemma Diverged(r: Space) returns (w: World)
    requires FromStart(r) && CutsFreely(r.care)
    ensures At(r, w, map[])
    ensures w.servers == [Chief(0, 1, [DUMMY, ITEM_A], 1, [1, 2, 1], [1, 1, 0], [MSG_A]),
                          Chief(1, 2, [DUMMY, ITEM_X], 1, [1, 1, 2], [0, 1, 1], [MSG_X]),
                          Peer(2, 2, 1, [DUMMY, ITEM_X], 0, [])]
  {
    var w1 := Overtakes(r);
    var w2 := Accepts(r, w1, map[], 1, "x");
    assert [DUMMY] + [ITEM_X] == [DUMMY, ITEM_X] && [0, 0, 0][1 := 1] == [0, 1, 0];
    assert w2.servers[1] == Chief(1, 2, [DUMMY, ITEM_X], 0, [1, 1, 1], [0, 1, 0], []);
    TakesX();
    Middle([0, 1, 1], 0, 1);
    SpreadsX(r.care);
    w := Exchanges(r, w2, map[], 1, 2, AppendArgs(2, 1, 0, 0, [ITEM_X], 0), Peer(2, 2, 1, [DUMMY, ITEM_X], 0, []),
                   Chief(1, 2, [DUMMY, ITEM_X], 1, [1, 1, 2], [0, 1, 1], [MSG_X]));
  }

  /** State Machine Safety can fail: two servers apply different commands at the same index. So
      can Leader Completeness: what server 0 has committed is missing from the log of a leader
      of a later term. */
  lemma StateMachineSafetyCanFail(care: Care) returns (es: seq<Event>, w: World)
    requires CutsFreely(care)
    ensures GoesWith(care, Init(3), es, w) && Goes(Init(3), es, w) && |w.servers| == 3
    ensures MSG_A in w.servers[0].applied && MSG_X in w.servers[1].applied
    ensures MSG_A.commandIndex == MSG_X.commandIndex && MSG_A.command != MSG_X.command
    ensures w.servers[1].state == Leader && w.servers[0].currentTerm < w.servers[1].currentTerm
    ensures 1 <= w.servers[0].commitIndex && ITEM_A in w.servers[0].log
    ensures w.servers[1].log == [DUMMY, ITEM_X]
  {
    ReachIsClosed(care);
    w := Diverged(Reach(care));
    es := RunTo(care, w);
  }

  // ---------- An empty log ----------

  /** Server 1 is elected again and sends server 0 a heartbeat. */
  lemma LeadsAgain(r: Space) returns (w: World, call: nat)
    requires FromStart(r) && CutsFreely(r.care)
    ensures At(r, w, map[call := AppendCall(1, 0, 0, AppendArgs(3, 1, 1, 2, [], 1), None)])
    ensures |w.servers| == 3 && w.servers[0] == Chief(0, 1, [DUMMY, ITEM_A], 1, [1, 2, 1], [1, 1, 0], [MSG_A])
  {
    var w1 := Diverged(r);
    ElectionOf(w1.servers[1], 2, 2, 1, [DUMMY, ITEM_X], 0, []);
    var w2, ask := Elect(r, w1, map[], 1, 2, 0);
    AtNothing(r, w2, map[ask := VoteCall(1, 0, 0, VoteArgsOf(StartElection(w1.servers[1])), None)]);
    assert w2.servers[1] == Chief(1, 3, [DUMMY, ITEM_X], 1, [2, 2, 2], [0, 0, 0], [MSG_X]);
    assert AppendArgsFor(w2.servers[1], 0) == AppendArgs(3, 1, 1, 2, [], 1);
    w, call := Sends(r, w2, map[], 1, 0);
  }

  /** A log can become empty: in a reachable state, a server that compacts its log at an index
      that it has applied, and then handles a call that is waiting for it, is left with no log
      item at all.  It can take no further step that looks at its log. */
  lemma CompactionCanEmptyLog(data: seq<bv8>) returns (es: seq<Event>, w: World, call: nat)
    ensures Goes(Init(3), es, w) && |w.servers| == 3 && Contiguous(w.servers[0].log)
    ensures MSG_A in w.servers[0].applied && HasIndex(w.servers[0].log, MSG_A.commandIndex)
    ensures call in w.calls && w.calls[call].AppendCall? && w.calls[call].dest == 0 && w.calls[call].areply == None
    ensures var s := SaveSnapshot(w.servers[0], Snapshot(data, MSG_A.commandIndex, MSG_A.term));
      && Contiguous(s.log) && EntriesFit(w.calls[call].aargs)
      && AppendEntries(s, w.calls[call].aargs).0.log == []
  {
    ReachIsClosed(NoCare);
    w, call := LeadsAgain(Reach(NoCare));
    es := RunTo(NoCare, w);
    Emptied(w.servers[0], Snapshot(data, 1, 1));
  }

  lemma Emptied(s: Server, included: Snapshot)
    requires s == Chief(0, 1, [DUMMY, ITEM_A], 1, [1, 2, 1], [1, 1, 0], [MSG_A]) && included.lastIncludedIndex == 1
    ensures Contiguous(s.log) && HasIndex(s.log, 1) && EntriesFit(AppendArgs(3, 1, 1, 2, [], 1))
    ensures SaveSnapshot(s, included).log == [ITEM_A]
    ensures AppendEntries(SaveSnapshot(s, included), AppendArgs(3, 1, 1, 2, [], 1)).0.log == []
  {
    assert SaveSnapshot(s, included).log == [ITEM_A];
    RaftLogFacts.AppendKeepsLog(SaveSnapshot(s, included), AppendArgs(3, 1, 1, 2, [], 1));
  }

  // ---------- A commit index that goes down ----------

  /** Server 2 learns that a is committed. */
  lemma HearsOfA(r: Space) returns (w: World, m1: nat, m2: nat)
    requires FromStart(r) && CutsFreely(r.care)
    ensures m1 != m2 && At(r, w, Late(m1, m2))
    ensures w.servers == [Chief(0, 1, [DUMMY, ITEM_A], 1, [1, 2, 1], [1, 1, 0], [MSG_A]),
                          Peer(1, 1, 0, [DUMMY, ITEM_A], 0, []), Peer(2, 1, -1, [DUMMY, ITEM_A], 1, [MSG_A])]
  {
    var w1;
    w1, m1, m2 := Beginning(r);
    var args := AppendArgs(1, 0, 0, 0, [ITEM_A], 1);
    CanSend(w1.servers[0], 2, args);
    assert Taken([DUMMY], args) == [DUMMY, ITEM_A];
    Committed(2, 0, -1, [DUMMY], 0, [], args, [DUMMY, ITEM_A], MSG_A);
    assert [] + [MSG_A] == [MSG_A];
    var call;
    w, call := Delivers(r, w1, Late(m1, m2), 0, 2);
    AtLess(r, w, Late(m1, m2), call, AppendCall(0, 2, 0, args, Some(AppendReply(1, true))));
  }

  /** Server 0 accepts the command b. */
  lemma SecondCommand(r: Space) returns (w: World, m1: nat, m2: nat)
    requires FromStart(r) && CutsFreely(r.care)
    ensures m1 != m2 && At(r, w, Late(m1, m2))
    ensures w.servers == [Chief(0, 1, [DUMMY, ITEM_A, ITEM_B], 1, [1, 2, 1], [2, 1, 0], [MSG_A]),
                          Peer(1, 1, 0, [DUMMY, ITEM_A], 0, []), Peer(2, 1, -1, [DUMMY, ITEM_A], 1, [MSG_A])]
  {
    var w1;
    w1, m1, m2 := HearsOfA(r);
    assert [DUMMY, ITEM_A] + [ITEM_B] == [DUMMY, ITEM_A, ITEM_B] && [1, 1, 0][0 := 2] == [2, 1, 0];
    assert RaftServer.Start(w1.servers[0], "b").0 ==
      Chief(0, 1, [DUMMY, ITEM_A, ITEM_B], 1, [1, 2, 1], [2, 1, 0], [MSG_A]);
    w := Accepts(r, w1, Late(m1, m2), 0, "b");
  }

  lemma TakesB()
    ensures AppendEntries(Peer(1, 1, 0, [DUMMY, ITEM_A], 0, []), AppendArgs(1, 0, 1, 1, [ITEM_B], 1)) ==
      (Peer(1, 1, 0, [DUMMY, ITEM_A, ITEM_B], 1, [MSG_A]), AppendReply(1, true))
  {
    var args := AppendArgs(1, 0, 1, 1, [ITEM_B], 1);
    assert Taken([DUMMY, ITEM_A], args) == [DUMMY, ITEM_A, ITEM_B];
    Committed(1, 1, 0, [DUMMY, ITEM_A], 0, [], args, [DUMMY, ITEM_A, ITEM_B], MSG_A);
    assert [] + [MSG_A] == [MSG_A];
  }

  lemma SpreadsB(care: Care)
    requires CutsFreely(care)
    requires AppendEntries(Peer(1, 1, 0, [DUMMY, ITEM_A], 0, []), AppendArgs(1, 0, 1, 1, [ITEM_B], 1)) ==
      (Peer(1, 1, 0, [DUMMY, ITEM_A, ITEM_B], 1, [MSG_A]), AppendReply(1, true))
    requires FindMatch([2, 2, 0]) == 2
    ensures Exchange(care, Chief(0, 1, [DUMMY, ITEM_A, ITEM_B], 1, [1, 2, 1], [2, 1, 0], [MSG_A]), 1,
                     AppendArgs(1, 0, 1, 1, [ITEM_B], 1), Peer(1, 1, 0, [DUMMY, ITEM_A], 0, []),
                     Peer(1, 1, 0, [DUMMY, ITEM_A, ITEM_B], 1, [MSG_A]),
                     Chief(0, 1, [DUMMY, ITEM_A, ITEM_B], 2, [1, 3, 1], [2, 2, 0], [MSG_A, MSG_B]))
  {
    Replicated(care, 0, 1, [DUMMY, ITEM_A, ITEM_B], 1, [1, 2, 1], [2, 1, 0], [MSG_A], 1,
               AppendArgs(1, 0, 1, 1, [ITEM_B], 1),
               Peer(1, 1, 0, [DUMMY, ITEM_A], 0, []), Peer(1, 1, 0, [DUMMY, ITEM_A, ITEM_B], 1, [MSG_A]),
               [1, 3, 1], [2, 2, 0], MSG_B);
    assert [MSG_A] + [MSG_B] == [MSG_A, MSG_B];
  }

  /** Server 0 commits b with server 1, which learns of it. */
  lemma SecondCommit(r: Space) returns (w: World, m1: nat, m2: nat)
    requires FromStart(r) && CutsFreely(r.care)
    ensures m1 != m2 && At(r, w, Late(m1, m2))
    ensures w.servers == [Chief(0, 1, [DUMMY, ITEM_A, ITEM_B], 2, [1, 3, 1], [2, 2, 0], [MSG_A, MSG_B]),
                          Peer(1, 1, 0, [DUMMY, ITEM_A, ITEM_B], 2, [MSG_A, MSG_B]),
                          Peer(2, 1, -1, [DUMMY, ITEM_A], 1, [MSG_A])]
  {
    var w1;
    w1, m1, m2 := SecondCommand(r);
    TakesB();
    Middle([2, 2, 0], 0, 2);
    SpreadsB(r.care);
    var w2 := Exchanges(r, w1, Late(m1, m2), 0, 1, AppendArgs(1, 0, 1, 1, [ITEM_B], 1),
                        Peer(1, 1, 0, [DUMMY, ITEM_A, ITEM_B], 1, [MSG_A]),
                        Chief(0, 1, [DUMMY, ITEM_A, ITEM_B], 2, [1, 3, 1], [2, 2, 0], [MSG_A, MSG_B]));
    w := Tells(r, w2, Late(m1, m2));
  }

  lemma TakesCommit()
    ensures EntriesFit(AppendArgs(1, 0, 2, 1, [], 2))
    ensures AppendEntries(Peer(1, 1, 0, [DUMMY, ITEM_A, ITEM_B], 1, [MSG_A]), AppendArgs(1, 0, 2, 1, [], 2)) ==
      (Peer(1, 1, 0, [DUMMY, ITEM_A, ITEM_B], 2, [MSG_A, MSG_B]), AppendReply(1, true))
  {
    var args := AppendArgs(1, 0, 2, 1, [], 2);
    assert Taken([DUMMY, ITEM_A, ITEM_B], args) == [DUMMY, ITEM_A, ITEM_B];
    Committed(1, 1, 0, [DUMMY, ITEM_A, ITEM_B], 1, [MSG_A], args, [DUMMY, ITEM_A, ITEM_B], MSG_B);
    assert [MSG_A] + [MSG_B] == [MSG_A, MSG_B];
  }

  /** Server 1 learns that b is committed. */
  lemma Tells(r: Space, w: World, pending: map<nat, Call>) returns (w': World)
    requires At(r, w, pending)
    requires w.servers[0] == Chief(0, 1, [DUMMY, ITEM_A, ITEM_B], 2, [1, 3, 1], [2, 2, 0], [MSG_A, MSG_B])
    requires w.servers[1] == Peer(1, 1, 0, [DUMMY, ITEM_A, ITEM_B], 1, [MSG_A])
    ensures At(r, w', pending)
    ensures w'.servers == w.servers[1 := Peer(1, 1, 0, [DUMMY, ITEM_A, ITEM_B], 2, [MSG_A, MSG_B])]
  {
    CanSend(w.servers[0], 1, AppendArgs(1, 0, 2, 1, [], 2));
    TakesCommit();
    var call;
    w', call := Delivers(r, w, pending, 0, 1);
    AtLess(r, w', pending, call, AppendCall(0, 1, 0, AppendArgs(1, 0, 2, 1, [], 2), Some(AppendReply(1, true))));
  }

  /** The late heartbeats cut both logs back; server 1, which has the higher commit index, is
      elected by server 2. */
  lemma ShortLeader(r: Space) returns (w: World)
    requires FromStart(r) && CutsFreely(r.care)
    ensures At(r, w, map[]) && |w.servers| == 3
    ensures w.servers[1] == Chief(1, 2, [DUMMY], 2, [1, 1, 1], [0, 0, 0], [MSG_A, MSG_B])
    ensures w.servers[2] == Peer(2, 2, 1, [DUMMY], 1, [MSG_A])
  {
    var w1, m1, m2 := SecondCommit(r);
    var w2 := CutBack(r, w1, Late(m1, m2), m1, 1, 0, [DUMMY, ITEM_A, ITEM_B], 2, [MSG_A, MSG_B]);
    var w3 := CutBack(r, w2, Late(m1, m2) - {m1}, m2, 2, -1, [DUMMY, ITEM_A], 1, [MSG_A]);
    AtNothing(r, w3, Late(m1, m2) - {m1} - {m2});
    ElectionOf(w3.servers[1], 2, 1, -1, [DUMMY], 1, [MSG_A]);
    var ask;
    w, ask := Elect(r, w3, map[], 1, 2, 0);
    AtNothing(r, w, map[ask := VoteCall(1, 0, 0, VoteArgsOf(StartElection(w3.servers[1])), None)]);
  }

  lemma Lowers(r: Space) returns (w: World, call: nat)
    requires FromStart(r) && CutsFreely(r.care)
    ensures At(r, w, map[call := AppendCall(1, 2, 0, AppendArgs(2, 1, 0, 0, [], 2), None)])
    ensures w.servers[2] == Peer(2, 2, 1, [DUMMY], 1, [MSG_A])
  {
    var w1 := ShortLeader(r);
    assert AppendArgsFor(w1.servers[1], 2) == AppendArgs(2, 1, 0, 0, [], 2);
    w, call := Sends(r, w1, map[], 1, 2);
  }

  lemma HandledBy(w: World, call: nat, j: nat, args: AppendArgs)
    requires Three(w) && j < 3 && call in w.calls && w.calls[call].AppendCall? && w.calls[call].areply == None
    requires w.calls[call].dest == j && w.calls[call].aargs == args && Contiguous(w.servers[j].log) && EntriesFit(args)
    ensures CanStep(w, HandleAppend(call)) && |Step(w, HandleAppend(call)).servers| == 3
    ensures Step(w, HandleAppend(call)).servers[j] == AppendEntries(w.servers[j], args).0
  {
  }

  lemma LowersIn(r: Space) returns (w: World, call: nat)
    requires FromStart(r) && CutsFreely(r.care)
    ensures w in r.states && CanStep(w, HandleAppend(call)) && |w.servers| == 3 && w.calls[call].dest == 2
    ensures |Step(w, HandleAppend(call)).servers| == 3
    ensures Step(w, HandleAppend(call)).servers[2].commitIndex < w.servers[2].commitIndex
  {
    w, call := Lowers(r);
    HandledBy(w, call, 2, AppendArgs(2, 1, 0, 0, [], 2));
    RaftLogFacts.CommitIndexGoesDownIff(Peer(2, 2, 1, [DUMMY], 1, [MSG_A]), AppendArgs(2, 1, 0, 0, [], 2));
  }

  /** A commit index can go down: after this run a follower handles a call and has a lower commit
      index than before. */
  lemma CommitIndexCanGoDown() returns (es: seq<Event>, w: World, call: nat)
    ensures Goes(Init(3), es, w) && CanStep(w, HandleAppend(call)) && |w.servers| == 3 && w.calls[call].dest == 2
    ensures |Step(w, HandleAppend(call)).servers| == 3
    ensures Step(w, HandleAppend(call)).servers[2].commitIndex < w.servers[2].commitIndex
  {
    ReachIsClosed(NoCare);
    w, call := LowersIn(Reach(NoCare));
    es := RunTo(NoCare, w);
  }
}
