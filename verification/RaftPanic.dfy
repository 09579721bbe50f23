/** A run of three servers after which a leader panics when it sends entries: the refusal of
    a heartbeat from an older term makes it expect more of a follower than it has itself. */
module RaftPanic {
  import opened Wrappers
  import opened RaftServer
  import opened RaftProtocol
  import opened RaftCareful
  import opened RaftRuns

  const ONE: LogItem := LogItem("one", 1, 1)
  const TWO: LogItem := LogItem("two", 1, 2)

  const STALE: AppendArgs := AppendArgs(2, 0, 2, 1, [], 0)
  const RESET: AppendArgs := AppendArgs(3, 1, 0, 0, [], 0)

  /** Server 0 leads term 1 and accepts two commands that no one else hears of. */
  lemma TakesCommands(r: Space) returns (w: World)
    requires FromStart(r) && r.care.NoCare?
    ensures At(r, w, map[])
    ensures w.servers == [Chief(0, 1, [DUMMY, ONE, TWO], 0, [1, 1, 1], [2, 0, 0], []), Peer(1, 1, 0, [DUMMY], 0, []),
                          Peer(2, 0, -1, [DUMMY], 0, [])]
  {
    var w1 := FirstLeader(r);
    assert [DUMMY] + [ONE] == [DUMMY, ONE] && [0, 0, 0][0 := 1] == [1, 0, 0];
    assert RaftServer.Start(w1.servers[0], "one").0 == Chief(0, 1, [DUMMY, ONE], 0, [1, 1, 1], [1, 0, 0], []);
    var w2 := Accepts(r, w1, map[], 0, "one");
    assert [DUMMY, ONE] + [TWO] == [DUMMY, ONE, TWO] && [1, 0, 0][0 := 2] == [2, 0, 0];
    assert RaftServer.Start(w2.servers[0], "two").0 == Chief(0, 1, [DUMMY, ONE, TWO], 0, [1, 1, 1], [2, 0, 0], []);
    w := Accepts(r, w2, map[], 0, "two");
  }

  /** It is elected again and sends server 2 a heartbeat, which is delayed. */
  lemma SendsStale(r: Space) returns (w: World, stale: nat)
    requires FromStart(r) && r.care.NoCare?
    ensures At(r, w, map[stale := AppendCall(0, 2, 0, STALE, None)])
    ensures w.servers == [Chief(0, 2, [DUMMY, ONE, TWO], 0, [3, 3, 3], [0, 0, 0], []), Peer(1, 2, 0, [DUMMY], 0, []),
                          Peer(2, 0, -1, [DUMMY], 0, [])]
  {
    var w1 := TakesCommands(r);
    ElectionOf(w1.servers[0], 1, 1, 0, [DUMMY], 0, []);
    var w2, ask := Elect(r, w1, map[], 0, 1, 2);
    AtNothing(r, w2, map[ask := VoteCall(0, 2, 0, VoteArgsOf(StartElection(w1.servers[0])), None)]);
    CanSend(w2.servers[0], 2, STALE);
    w, stale := Sends(r, w2, map[], 0, 2);
  }

  /** Server 1 is elected by server 2. */
  lemma Overtakes(r: Space) returns (w: World, stale: nat)
    requires FromStart(r) && r.care.NoCare?
    ensures At(r, w, map[stale := AppendCall(0, 2, 0, STALE, None)])
    ensures w.servers == [Chief(0, 2, [DUMMY, ONE, TWO], 0, [3, 3, 3], [0, 0, 0], []),
                          Chief(1, 3, [DUMMY], 0, [1, 1, 1], [0, 0, 0], []), Peer(2, 3, 1, [DUMMY], 0, [])]
  {
    var w1;
    w1, stale := SendsStale(r);
    ElectionOf(w1.servers[1], 2, 0, -1, [DUMMY], 0, []);
    var pending := map[stale := AppendCall(0, 2, 0, STALE, None)];
    var ask;
    w, ask := Elect(r, w1, pending, 1, 2, 0);
    AtLess(r, w, pending, ask, VoteCall(1, 0, 0, VoteArgsOf(StartElection(w1.servers[1])), None));
  }

  /** Server 0 after the new leader's empty log has replaced its own. */
  const RETIRED: Server :=
    Chief(0, 2, [DUMMY, ONE, TWO], 0, [3, 3, 3], [0, 0, 0], []).(
      state := Follower, currentTerm := 3, voteFor := -1, log := [DUMMY], disk := PersistState(3, -1, [DUMMY]))

  lemma Retires()
    ensures EntriesFit(RESET)
    ensures AppendEntries(Chief(0, 2, [DUMMY, ONE, TWO], 0, [3, 3, 3], [0, 0, 0], []), RESET).0 == RETIRED
  {
    assert Slice([DUMMY, ONE, TWO], 0, 0) + [] == [DUMMY];
  }

  lemma Truncated(r: Space) returns (w: World, stale: nat)
    requires FromStart(r) && r.care.NoCare?
    ensures At(r, w, map[stale := AppendCall(0, 2, 0, STALE, None)])
    ensures w.servers == [RETIRED, Chief(1, 3, [DUMMY], 0, [1, 1, 1], [0, 0, 0], []), Peer(2, 3, 1, [DUMMY], 0, [])]
  {
    var w1;
    w1, stale := Overtakes(r);
    CanSend(w1.servers[1], 0, RESET);
    Retires();
    var pending := map[stale := AppendCall(0, 2, 0, STALE, None)];
    var call;
    w, call := Delivers(r, w1, pending, 1, 0);
    AtLess(r, w, pending, call, AppendCall(1, 0, 0, RESET, Some(AppendEntries(w1.servers[0], RESET).1)));
  }

  /** Server 0 is elected once more, by server 1, while its request to server 2 is on its way. */
  lemma Returns(r: Space) returns (w: World, stale: nat, ask: nat)
    requires FromStart(r) && r.care.NoCare?
    ensures stale != ask
    ensures At(r, w, map[stale := AppendCall(0, 2, 0, STALE, None)]
                        [ask := VoteCall(0, 2, 0, VoteArgs(4, 0, 0, 0), None)])
    ensures |w.servers| == 3 && w.servers[0] == Chief(0, 4, [DUMMY], 0, [1, 1, 1], [0, 0, 0], [])
    ensures w.servers[2] == Peer(2, 3, 1, [DUMMY], 0, [])
  {
    var w1;
    w1, stale := Truncated(r);
    WinsOver(RETIRED, w1.servers[1]);
    assert VoteArgsOf(StartElection(RETIRED)) == VoteArgs(4, 0, 0, 0);
    w, ask := Elect(r, w1, map[stale := AppendCall(0, 2, 0, STALE, None)], 0, 1, 2);
  }

  /** Server 2 hears of the new term and then refuses the stale heartbeat, in that term. */
  lemma Refuses(r: Space) returns (w: World, stale: nat)
    requires FromStart(r) && r.care.NoCare?
    ensures At(r, w, map[stale := AppendCall(0, 2, 0, STALE, Some(AppendReply(4, false)))])
    ensures |w.servers| == 3 && w.servers[0] == Chief(0, 4, [DUMMY], 0, [1, 1, 1], [0, 0, 0], [])
  {
    var w1, ask;
    w1, stale, ask := Returns(r);
    var heartbeat, args := AppendCall(0, 2, 0, STALE, None), VoteArgs(4, 0, 0, 0);
    var w2 := Votes(r, w1, map[stale := heartbeat][ask := VoteCall(0, 2, 0, args, None)], ask, 0, 2, args);
    var answered := VoteCall(0, 2, 0, args, Some(RequestVote(w1.servers[2], args).1));
    assert map[stale := heartbeat][ask := VoteCall(0, 2, 0, args, None)][ask := answered]
        == map[stale := heartbeat][ask := answered];
    AtLess(r, w2, map[stale := heartbeat], ask, answered);
    w := Handles(r, w2, map[stale := heartbeat], stale, 0, 2, STALE);
  }

  /** The refusal reaches server 0. */
  lemma Misled(r: Space) returns (w: World)
    requires FromStart(r) && r.care.NoCare?
    ensures w in r.states && |w.servers| == 3 && w.servers[0] == Chief(0, 4, [DUMMY], 0, [1, 1, 2], [0, 0, 0], [])
  {
    var w1, stale := Refuses(r);
    w := Learns(r, w1, map[stale := AppendCall(0, 2, 0, STALE, Some(AppendReply(4, false)))], stale, 0, 2, STALE,
                AppendReply(4, false));
    assert [1, 1, 1][2 := 2] == [1, 1, 2];
  }

  lemma PanicsIn(r: Space) returns (w: World)
    requires FromStart(r) && r.care.NoCare?
    ensures w in r.states && |w.servers| == 3
    ensures var s := w.servers[0];
      && s.state == Leader && Contiguous(s.log) && |s.nextIndex| == 3
      && s.nextIndex[2] - 1 > LastIndex(s.log) && !CanStep(w, SendAppend(0, 2))
  {
    w := Misled(r);
  }

  /** A leader can come to expect more of a follower than it has in its own log, and then it
      can neither send to that follower nor pass it over. */
  lemma SendingCanPanic() returns (es: seq<Event>, w: World)
    ensures Goes(Init(3), es, w) && |w.servers| == 3
    ensures var s := w.servers[0];
      && s.state == Leader && Contiguous(s.log) && |s.nextIndex| == 3
      && s.nextIndex[2] - 1 > LastIndex(s.log) && !CanStep(w, SendAppend(0, 2))
  {
    ReachIsClosed(NoCare);
    w := PanicsIn(Reach(NoCare));
    es := RunTo(NoCare, w);
  }
}
