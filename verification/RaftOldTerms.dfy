/** A run of three servers that cuts off entries only where they conflict, and yet applies
    different commands at one index: two leaders each commit an item of an older term. */
module RaftOldTerms {
  import opened Wrappers
  import opened RaftServer
  import opened RaftProtocol
  import opened RaftCareful
  import opened RaftRuns

  /** Items of an older term may be committed. */
  ghost predicate CommitsFreely(care: Care)
  {
    care.NoCare? || care.CareInCuts?
  }

  const OLD_A: LogItem := LogItem("a", 1, 1)
  const OLD_B: LogItem := LogItem("b", 2, 1)

  const APPLY_A: ApplyMsg := ApplyMsg(true, "a", 1, 1)
  const APPLY_B: ApplyMsg := ApplyMsg(true, "b", 1, 2)

  // ---------- A leader commits what it has from an older term ----------

  /** Server 2 does not have the leader's item p: nothing at its index, or an item of another
      term. */
  ghost predicate Lacks(log: seq<LogItem>, p: LogItem)
  {
    log == [DUMMY] || (|log| == 2 && log[0] == DUMMY && log[1].index == 1 && log[1].term != p.term)
  }

  /** It refuses the leader's heartbeat, and the leader goes back. */
  lemma Refuses(i: nat, t: int, p: LogItem, log: seq<LogItem>)
    requires i < 2 && p.index == 1 && Lacks(log, p)
    ensures var s, args := Peer(2, t, i, log, 0, []), AppendArgs(t, i, 1, p.term, [], 0);
      && Contiguous(log) && EntriesFit(args) && CutsOnlyConflicts(log, args)
      && AppendEntries(s, args) == (Peer(2, t, i, [DUMMY], 0, []), AppendReply(t, false))
  {
    assert log != [DUMMY] ==> Slice(log, 0, 0) == [DUMMY];
  }

  lemma GoesBack(i: nat, t: int, p: LogItem)
    requires i < 2 && p.index == 1
    ensures var s, args := Chief(i, t, [DUMMY, p], 0, [2, 2, 2], [0, 0, 0], []), AppendArgs(t, i, 1, p.term, [], 0);
      && CanSendAppend(s, 2) && AppendArgsFor(s, 2) == args
      && !AppendReplyPanics(s, 2, args, AppendReply(t, false))
      && OnAppendReply(s, 2, args, AppendReply(t, false)) == Chief(i, t, [DUMMY, p], 0, [2, 2, 1], [0, 0, 0], [])
  {
    CanSend(Chief(i, t, [DUMMY, p], 0, [2, 2, 2], [0, 0, 0], []), 2, AppendArgs(t, i, 1, p.term, [], 0));
    assert [2, 2, 2][2 := 1] == [2, 2, 1];
  }

  lemma Refused(r: Space, w: World, i: nat, t: int, p: LogItem, log: seq<LogItem>) returns (w': World)
    requires At(r, w, map[]) && i < 2 && p.index == 1 && Lacks(log, p)
    requires w.servers[i] == Chief(i, t, [DUMMY, p], 0, [2, 2, 2], [0, 0, 0], [])
    requires w.servers[2] == Peer(2, t, i, log, 0, [])
    ensures At(r, w', map[])
    ensures w'.servers == w.servers[2 := Peer(2, t, i, [DUMMY], 0, [])]
                                   [i := Chief(i, t, [DUMMY, p], 0, [2, 2, 1], [0, 0, 0], [])]
  {
    Refuses(i, t, p, log);
    GoesBack(i, t, p);
    w' := Replicates(r, w, map[], i, 2);
  }

  lemma TakesOne(i: nat, t: int, p: LogItem)
    requires i < 2 && p.index == 1
    ensures var s, args := Peer(2, t, i, [DUMMY], 0, []), AppendArgs(t, i, 0, 0, [p], 0);
      && EntriesFit(args) && CutsOnlyConflicts([DUMMY], args)
      && AppendEntries(s, args) == (Peer(2, t, i, [DUMMY, p], 0, []), AppendReply(t, true))
  {
    var args := AppendArgs(t, i, 0, 0, [p], 0);
    assert Taken([DUMMY], args) == [DUMMY, p];
    Appended(2, t, i, [DUMMY], 0, [], args, [DUMMY, p]);
  }

  /** It takes the item the second time. */
  lemma Sent(r: Space, w: World, i: nat, t: int, p: LogItem) returns (w': World, call: nat)
    requires At(r, w, map[]) && i < 2 && p.index == 1
    requires w.servers[i] == Chief(i, t, [DUMMY, p], 0, [2, 2, 1], [0, 0, 0], [])
    requires w.servers[2] == Peer(2, t, i, [DUMMY], 0, [])
    ensures At(r, w', map[call := AppendCall(i, 2, 0, AppendArgs(t, i, 0, 0, [p], 0), Some(AppendReply(t, true)))])
    ensures w'.servers == w.servers[2 := Peer(2, t, i, [DUMMY, p], 0, [])]
  {
    var args := AppendArgs(t, i, 0, 0, [p], 0);
    CanSend(w.servers[i], 2, args);
    TakesOne(i, t, p);
    w', call := Delivers(r, w, map[], i, 2);
  }

  /** The match indexes when the leader has an item more than server 2. */
  function Matching(i: nat): (r: seq<int>)
    requires i < 2
  {
    if i == 0 then [2, 0, 1] else [0, 2, 1]
  }

  lemma MatchingFacts(i: nat)
    requires i < 2
    ensures FindMatch(Matching(i)) == 1
    ensures [0, 0, 0][i := 2][2 := 1] == Matching(i) && [2, 2, 1][2 := 2] == [2, 2, 2]
  {
    assert [2, 0, 1][1..] == [0, 1] && [0, 2, 1][1..] == [2, 1] && [0, 1][1..] == [1] && [2, 1][1..] == [1];
    assert [1][1..] == [];
    assert Sorted([1]) == [1] && Sorted([0, 1]) == [0, 1];
    assert Sorted([2, 1]) == Insert(2, [1]) == [1, 2];
    assert Sorted([2, 0, 1]) == Insert(2, [0, 1]) == [0, 1, 2];
    assert Sorted([0, 2, 1]) == Insert(0, [1, 2]) == [0, 1, 2];
  }

  /** The leader accepts a command before it hears of the success: now its log ends in its own
      term, and it commits the old item. */
  lemma CommitsOld(r: Space, w: World, call: nat, i: nat, t: int, p: LogItem, command: string) returns (w': World)
    requires CommitsFreely(r.care) && i < 2 && p.index == 1 && |w.servers| == 3
    requires At(r, w, map[call := AppendCall(i, 2, 0, AppendArgs(t, i, 0, 0, [p], 0), Some(AppendReply(t, true)))])
    requires w.servers[i] == Chief(i, t, [DUMMY, p], 0, [2, 2, 1], [0, 0, 0], [])
    ensures At(r, w', map[])
    ensures w'.servers == w.servers[i := Chief(i, t, [DUMMY, p, LogItem(command, t, 2)], 1, [2, 2, 2], Matching(i),
                                               [ApplyMsg(true, p.command, 1, p.term)])]
  {
    var args, reply := AppendArgs(t, i, 0, 0, [p], 0), AppendReply(t, true);
    var pending := map[call := AppendCall(i, 2, 0, args, Some(reply))];
    var w1 := Accepts(r, w, pending, i, command);
    var log := [DUMMY, p, LogItem(command, t, 2)];
    assert [DUMMY, p] + [LogItem(command, t, 2)] == log;
    assert w1.servers[i] == Chief(i, t, log, 0, [2, 2, 1], [0, 0, 0][i := 2], []);
    MatchingFacts(i);
    Acknowledged(i, t, log, 0, [2, 2, 1], [0, 0, 0][i := 2], [], 2, args, [2, 2, 2], Matching(i),
                 ApplyMsg(true, p.command, 1, p.term));
    assert [] + [ApplyMsg(true, p.command, 1, p.term)] == [ApplyMsg(true, p.command, 1, p.term)];
    w' := Learns(r, w1, pending, call, i, 2, args, reply);
    AtNothing(r, w', pending - {call});
  }

  /** All of it: a new leader brings server 2 up to its old item and commits it. */
  lemma Recovers(r: Space, w: World, i: nat, t: int, p: LogItem, log: seq<LogItem>, command: string)
    returns (w': World)
    requires At(r, w, map[]) && CommitsFreely(r.care) && i < 2 && p.index == 1 && Lacks(log, p)
    requires w.servers[i] == Chief(i, t, [DUMMY, p], 0, [2, 2, 2], [0, 0, 0], [])
    requires w.servers[2] == Peer(2, t, i, log, 0, [])
    ensures At(r, w', map[])
    ensures |w'.servers| == 3 && w'.servers[1 - i] == w.servers[1 - i]
    ensures w'.servers[2] == Peer(2, t, i, [DUMMY, p], 0, [])
    ensures w'.servers[i] == Chief(i, t, [DUMMY, p, LogItem(command, t, 2)], 1, [2, 2, 2], Matching(i),
                                   [ApplyMsg(true, p.command, 1, p.term)])
  {
    var w1 := Refused(r, w, i, t, p, log);
    var w2, call := Sent(r, w1, i, t, p);
    w' := CommitsOld(r, w2, call, i, t, p, command);
  }

  // ---------- The run ----------

  /** Server i times out twice and is elected by server 2. */
  lemma ComesBack(r: Space, w: World, i: nat, t: int, log: seq<LogItem>, matching: seq<int>,
                  voteFor: int, log2: seq<LogItem>, term2: int) returns (w': World)
    requires At(r, w, map[]) && i < 2
    requires w.servers[i] == Chief(i, t, log, 0, [1, 1, 1], matching, []) && Sound(log) && |log| == 2
    requires w.servers[2] == Peer(2, term2, voteFor, log2, 0, []) && Sound(log2) && term2 <= t + 1
    requires IsMoreUpdated(LastTerm(log), LastIndex(log), LastTerm(log2), LastIndex(log2))
    ensures At(r, w', map[])
    ensures w'.servers == w.servers[i := Chief(i, t + 2, log, 0, [2, 2, 2], [0, 0, 0], [])]
                                   [2 := Peer(2, t + 2, i, log2, 0, [])]
  {
    var w1 := Campaigns(r, w, map[], i, 2, 1 - i);
    var p1, ask;
    p1 := map[w.nextCall + 2 := VoteCall(i, 2, 0, VoteArgsOf(StartElection(w.servers[i])), None)]
             [w.nextCall + (1 - i) := VoteCall(i, 1 - i, 0, VoteArgsOf(StartElection(w.servers[i])), None)];
    AtNothing(r, w1, p1);
    ElectionOf(w1.servers[i], 2, term2, voteFor, log2, 0, []);
    w', ask := Elect(r, w1, map[], i, 2, 1 - i);
    AtNothing(r, w', map[ask := VoteCall(i, 1 - i, 0, VoteArgsOf(StartElection(w1.servers[i])), None)]);
    assert w1.servers[i := w'.servers[i]] == w.servers[i := w'.servers[i]];
  }

  /** Server 0 and then server 1 lead and accept a command that they do not send. */
  lemma TwoLeaders(r: Space) returns (w: World)
    requires FromStart(r)
    ensures At(r, w, map[])
    ensures w.servers == [Chief(0, 1, [DUMMY, OLD_A], 0, [1, 1, 1], [1, 0, 0], []),
                          Chief(1, 2, [DUMMY, OLD_B], 0, [1, 1, 1], [0, 1, 0], []), Peer(2, 2, 1, [DUMMY], 0, [])]
  {
    var w1 := FirstLeader(r);
    var w2 := Accepts(r, w1, map[], 0, "a");
    assert [DUMMY] + [OLD_A] == [DUMMY, OLD_A] && [0, 0, 0][0 := 1] == [1, 0, 0];
    assert w2.servers[0] == Chief(0, 1, [DUMMY, OLD_A], 0, [1, 1, 1], [1, 0, 0], []);
    ElectionOf(w2.servers[1], 2, 0, -1, [DUMMY], 0, []);
    var w3, ask := Elect(r, w2, map[], 1, 2, 0);
    AtNothing(r, w3, map[ask := VoteCall(1, 0, 0, VoteArgsOf(StartElection(w2.servers[1])), None)]);
    w := Accepts(r, w3, map[], 1, "b");
    assert [DUMMY] + [OLD_B] == [DUMMY, OLD_B] && [0, 0, 0][1 := 1] == [0, 1, 0];
    assert w.servers[1] == Chief(1, 2, [DUMMY, OLD_B], 0, [1, 1, 1], [0, 1, 0], []);
  }

  /** Server 0 comes back and commits a; then server 1 does, and commits b. */
  lemma BothCommit(r: Space) returns (w: World)
    requires FromStart(r) && CommitsFreely(r.care)
    ensures w in r.states && |w.servers| == 3
    ensures w.servers[0].applied == [APPLY_A] && w.servers[1].applied == [APPLY_B]
    ensures w.servers[1].state == Leader && w.servers[0].currentTerm < w.servers[1].currentTerm
    ensures w.servers[1].log == [DUMMY, OLD_B, LogItem("d", 4, 2)]
  {
    var w1 := TwoLeaders(r);
    var w2 := ComesBack(r, w1, 0, 1, [DUMMY, OLD_A], [1, 0, 0], 1, [DUMMY], 2);
    var w3 := Recovers(r, w2, 0, 3, OLD_A, [DUMMY], "c");
    var w4 := ComesBack(r, w3, 1, 2, [DUMMY, OLD_B], [0, 1, 0], 0, [DUMMY, OLD_A], 3);
    w := Recovers(r, w4, 1, 4, OLD_B, [DUMMY, OLD_A], "d");
  }

  /** State Machine Safety can fail although nothing is cut off without a conflict, if items of an
      older term may be committed.  So can Leader Completeness: what server 0 has applied is missing
      from the log of a leader of a later term. */
  lemma StateMachineSafetyCanFail(care: Care) returns (es: seq<Event>, w: World)
    requires CommitsFreely(care)
    ensures GoesWith(care, Init(3), es, w) && Goes(Init(3), es, w) && |w.servers| == 3
    ensures APPLY_A in w.servers[0].applied && APPLY_B in w.servers[1].applied
    ensures APPLY_A.commandIndex == APPLY_B.commandIndex && APPLY_A.command != APPLY_B.command
    ensures w.servers[1].state == Leader && w.servers[0].currentTerm < w.servers[1].currentTerm
    ensures w.servers[1].log == [DUMMY, OLD_B, LogItem("d", 4, 2)]
  {
    ReachIsClosed(care);
    w := BothCommit(Reach(care));
    es := RunTo(care, w);
  }
}
