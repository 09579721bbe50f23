/** A run in which a follower that misses three items refuses a request with entries, takes the
    next one, and lets the leader commit. */
module RaftBackoffRun {
  import opened Wrappers
  import opened RaftServer
  import opened RaftProtocol
  import opened RaftCareful
  import opened RaftRuns
  import opened RaftBackoff
  import opened RaftExchanges

  const A: LogItem := LogItem("a", 1, 1)
  const B: LogItem := LogItem("b", 1, 2)
  const C: LogItem := LogItem("c", 2, 3)

  const FULL: seq<LogItem> := [DUMMY, A, B, C]

  const APPLIED: seq<ApplyMsg> := [ApplyMsg(true, "a", 1, 1), ApplyMsg(true, "b", 2, 1), ApplyMsg(true, "c", 3, 2)]

  /** The leader, by what it has committed, applied and knows of the others. */
  function LeaderAt(commit: int, next: seq<int>, matching: seq<int>, applied: seq<ApplyMsg>): (s: Server)
  {
    Chief(0, 2, FULL, commit, next, matching, applied)
  }

  // ---------- Up to the first request ----------

  lemma AcceptsTwo(s: Server)
    requires s == Chief(0, 1, [DUMMY], 0, [1, 1, 1], [0, 0, 0], [])
    ensures Start(Start(s, "a").0, "b").0 == Chief(0, 1, [DUMMY, A, B], 0, [1, 1, 1], [2, 0, 0], [])
  {
    assert [DUMMY] + [A] == [DUMMY, A] && [DUMMY, A] + [B] == [DUMMY, A, B];
    assert [0, 0, 0][0 := 1][0 := 2] == [2, 0, 0];
  }

  lemma AcceptsThird(s: Server)
    requires s == Chief(0, 2, [DUMMY, A, B], 0, [3, 3, 3], [0, 0, 0], [])
    ensures Start(s, "c").0 == LeaderAt(0, [3, 3, 3], [3, 0, 0], [])
  {
    assert [DUMMY, A, B] + [C] == FULL;
    assert [0, 0, 0][0 := 3] == [3, 0, 0];
  }

  /** Server 0 accepts a and b, is elected again before anyone has them, and accepts c. */
  lemma Prepares(r: Space) returns (w: World)
    requires FromStart(r)
    ensures At(r, w, map[])
    ensures w.servers == [LeaderAt(0, [3, 3, 3], [3, 0, 0], []), Peer(1, 2, 0, [DUMMY], 0, []),
                          Peer(2, 0, -1, [DUMMY], 0, [])]
  {
    var w0 := FirstLeader(r);
    AcceptsTwo(w0.servers[0]);
    var w1 := Accepts(r, w0, map[], 0, "a");
    var w2 := Accepts(r, w1, map[], 0, "b");
    ElectionOf(w2.servers[0], 1, 1, 0, [DUMMY], 0, []);
    var w3, ask := Elect(r, w2, map[], 0, 1, 2);
    AtLess(r, w3, map[], ask, VoteCall(0, 2, 0, VoteArgsOf(StartElection(w2.servers[0])), None));
    AcceptsThird(w3.servers[0]);
    w := Accepts(r, w3, map[], 0, "c");
  }

  // ---------- Two exchanges ----------

  lemma CanLead(s: Server, f: Server)
    requires s in {LeaderAt(0, [3, 3, 3], [3, 0, 0], []), LeaderAt(0, [3, 3, 1], [3, 0, 0], [])}
    requires f.log == [DUMMY] && f.currentTerm <= 2
    ensures Leads(s, f, 2)
  {
    assert f.log[..1] == s.log[..1];
  }

  /** The leader sends c behind index 2, which the follower does not have. */
  lemma FirstExchange()
    ensures var s, f := LeaderAt(0, [3, 3, 3], [3, 0, 0], []), Peer(2, 0, -1, [DUMMY], 0, []);
      && Leads(s, f, 2) && AppendArgsFor(s, 2).entries == [C] && !Handled(s, f, 2).1.success
      && Exchanged(s, f, 2) == (LeaderAt(0, [3, 3, 1], [3, 0, 0], []), Peer(2, 2, -1, [DUMMY], 0, []))
  {
    var s, f := LeaderAt(0, [3, 3, 3], [3, 0, 0], []), Peer(2, 0, -1, [DUMMY], 0, []);
    CanLead(s, f);
    assert [3, 3, 3][2 := 1] == [3, 3, 1];
  }

  lemma CommitsAll()
    ensures FindMatch([3, 0, 3]) == 3 && CommitMessages(FULL, 1, 3) == APPLIED
  {
    assert [3, 0, 3][1..] == [0, 3] && [0, 3][1..] == [3] && [3][1..] == [];
    assert Sorted([3]) == [3] && Sorted([0, 3]) == Insert(0, [3]) == [0, 3];
    assert Sorted([3, 0, 3]) == Insert(3, [0, 3]) == [0, 3, 3];
    assert CommitMessages(FULL, 4, 3) == [];
    NextMessage(FULL, 3, 3);
    NextMessage(FULL, 2, 3);
    NextMessage(FULL, 1, 3);
  }

  lemma TakesAll()
    ensures AppendEntries(Peer(2, 2, -1, [DUMMY], 0, []), AppendArgs(2, 0, 0, 0, [A, B, C], 0))
         == (Peer(2, 2, -1, FULL, 0, []), AppendReply(2, true))
  {
    var args := AppendArgs(2, 0, 0, 0, [A, B, C], 0);
    assert Taken([DUMMY], args) == FULL;
    Appended(2, 2, -1, [DUMMY], 0, [], args, FULL);
  }

  lemma LearnsAll()
    ensures var s, args := LeaderAt(0, [3, 3, 1], [3, 0, 0], []), AppendArgs(2, 0, 0, 0, [A, B, C], 0);
      && !AppendReplyPanics(s, 2, args, AppendReply(2, true))
      && OnAppendReply(s, 2, args, AppendReply(2, true)) == LeaderAt(3, [3, 3, 4], [3, 0, 3], APPLIED)
  {
    CommitsAll();
    assert [3, 3, 1][2 := 4] == [3, 3, 4] && [3, 0, 0][2 := 3] == [3, 0, 3];
    assert [] + APPLIED == APPLIED;
  }

  /** Now it sends all three items, and with the reply it commits them. */
  lemma SecondExchange()
    ensures var s, f := LeaderAt(0, [3, 3, 1], [3, 0, 0], []), Peer(2, 2, -1, [DUMMY], 0, []);
      && Leads(s, f, 2) && AppendArgsFor(s, 2).entries == [A, B, C] && Handled(s, f, 2).1.success
      && Exchanged(s, f, 2) == (LeaderAt(3, [3, 3, 4], [3, 0, 3], APPLIED), Peer(2, 2, -1, FULL, 0, []))
  {
    var s, f := LeaderAt(0, [3, 3, 1], [3, 0, 0], []), Peer(2, 2, -1, [DUMMY], 0, []);
    CanLead(s, f);
    CanSend(s, 2, AppendArgs(2, 0, 0, 0, [A, B, C], 0));
    TakesAll();
    LearnsAll();
  }

  /** The whole run. */
  lemma MissedItemsAreMadeUp() returns (es: seq<Event>, w1: World, w2: World, w3: World)
    ensures Goes(Init(3), es, w1)
    ensures Goes(w1, ExchangeEvents(w1, 0, 2), w2) && Goes(w2, ExchangeEvents(w2, 0, 2), w3)
    ensures |w1.servers| == |w2.servers| == |w3.servers| == 3
    ensures w1.servers[0].log == FULL && w1.servers[0].nextIndex == [3, 3, 3] && w1.servers[2].log == [DUMMY]
    ensures w2.servers[0].log == FULL && w2.servers[0].nextIndex == [3, 3, 1] && w2.servers[2].log == [DUMMY]
    ensures w3.servers[0].nextIndex == [3, 3, 4] && w3.servers[0].applied == APPLIED && w3.servers[2].log == FULL
  {
    ReachIsClosed(FullCare);
    w1 := Prepares(Reach(FullCare));
    es := RunTo(FullCare, w1);
    FirstExchange();
    w2 := ExchangeRuns(w1, 0, 2);
    SecondExchange();
    w3 := ExchangeRuns(w2, 0, 2);
  }
}
