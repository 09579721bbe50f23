/** Log Matching and Leader Append-Only, over whole runs. */
module RaftLogs {
  import opened RaftServer
  import opened RaftProtocol
  import E = RaftElection

  // ---------- The invariant ----------

  /** Up to entry k, the log is the log of the leader that made entry k. */
  ghost predicate FromLeader(h: History, log: seq<LogItem>, k: nat)
    requires k < |log|
  {
    var t := log[k].term;
    t in h.logs && k < |h.logs[t]| && h.logs[t][..k + 1] == log[..k + 1]
  }

  ghost predicate LogOk(h: History, log: seq<LogItem>)
  {
    && Contiguous(log) && log[0] == DUMMY
    && forall k {:trigger FromLeader(h, log, k)} :: 1 <= k < |log| ==> FromLeader(h, log, k)
  }

  ghost predicate ServerLogOk(w: World, h: History, i: nat)
    requires i < |w.servers|
  {
    var s := w.servers[i];
    && LogOk(h, s.log)
    && (s.state == Leader ==> s.currentTerm in h.logs && h.logs[s.currentTerm] == s.log)
  }

  /** The call carries a piece of the log of the leader of its term. */
  ghost predicate AppendCallOk(w: World, h: History, id: nat)
    requires id in w.calls && w.calls[id].AppendCall?
  {
    var c := w.calls[id];
    var a := c.aargs;
    && c.from != c.dest && c.dest < |w.servers|
    && a.term in h.leaders && h.leaders[a.term] == c.from && a.term in h.logs
    && var log, last := h.logs[a.term], a.prevLogIndex + 1 + |a.entries|;
       && 0 <= a.prevLogIndex && last <= |log|
       && log[a.prevLogIndex].term == a.prevLogTerm
       && a.entries == log[a.prevLogIndex + 1 .. last]
  }

  ghost predicate LogInv(w: World, h: History)
  {
    && h.logs.Keys == h.leaders.Keys
    && (forall i {:trigger ServerLogOk(w, h, i)} :: 0 <= i < |w.servers| ==> ServerLogOk(w, h, i))
    && (forall t :: t in h.logs ==> LogOk(h, h.logs[t]))
    && (forall id {:trigger AppendCallOk(w, h, id)} :: id in w.calls && w.calls[id].AppendCall? ==>
          AppendCallOk(w, h, id))
  }

  // ---------- Facts about logs ----------

  /** Logs of leaders only grow, and so do the terms with a leader. */
  ghost predicate LogsGrow(h: History, h': History)
  {
    && (forall t :: t in h.logs ==> t in h'.logs && h.logs[t] <= h'.logs[t])
    && (forall t :: t in h.leaders ==> t in h'.leaders && h'.leaders[t] == h.leaders[t])
  }

  lemma GrowKeepsLogOk(h: History, h': History, log: seq<LogItem>)
    requires LogsGrow(h, h') && LogOk(h, log)
    ensures LogOk(h', log)
  {
    forall k | 1 <= k < |log| ensures FromLeader(h', log, k) {
      assert FromLeader(h, log, k);
      var t := log[k].term;
      assert h'.logs[t][..k + 1] == h.logs[t][..k + 1];
    }
  }

  lemma GrowKeepsCall(w: World, h: History, w': World, h': History, id: nat)
    requires LogsGrow(h, h') && |w'.servers| == |w.servers| && id in w.calls && w.calls[id].AppendCall?
    requires AppendCallOk(w, h, id)
    requires id in w'.calls && w'.calls[id].AppendCall? && w'.calls[id] == w.calls[id].(areply := w'.calls[id].areply)
    ensures AppendCallOk(w', h', id)
  {
    var a := w.calls[id].aargs;
    assert h.logs[a.term] <= h'.logs[a.term];
  }

  lemma PrefixLogOk(h: History, log: seq<LogItem>, k: nat)
    requires LogOk(h, log) && 1 <= k <= |log|
    ensures LogOk(h, log[..k])
  {
    forall i | 1 <= i < k ensures FromLeader(h, log[..k], i) {
      assert FromLeader(h, log, i);
      assert log[..k][..i + 1] == log[..i + 1];
    }
  }

  /** Two such logs with entries of the same term at a position agree up to there. */
  lemma SameUpTo(h: History, a: seq<LogItem>, b: seq<LogItem>, k: nat)
    requires LogOk(h, a) && LogOk(h, b) && k < |a| && k < |b| && a[k].term == b[k].term
    ensures a[..k + 1] == b[..k + 1]
  {
    if k > 0 {
      assert FromLeader(h, a, k) && FromLeader(h, b, k);
    } else {
      assert a[..1] == [a[0]] && b[..1] == [b[0]];
    }
  }

  /** What a follower's log becomes is a prefix of the leader's log. */
  lemma AppendedIsPrefix(h: History, log: seq<LogItem>, leader: seq<LogItem>, args: AppendArgs)
    requires LogOk(h, log) && LogOk(h, leader)
    requires 0 <= args.prevLogIndex < |log|
    requires var last := args.prevLogIndex + 1 + |args.entries|;
      last <= |leader| && args.entries == leader[args.prevLogIndex + 1 .. last]
    requires log[args.prevLogIndex].term == leader[args.prevLogIndex].term
    ensures log[..args.prevLogIndex + 1] + args.entries == leader[..args.prevLogIndex + 1 + |args.entries|]
  {
    SameUpTo(h, log, leader, args.prevLogIndex);
  }

  // ---------- Steps ----------

  /** Logs, leaders and append calls stay as they are; calls may be dropped or answered. */
  ghost predicate LogsQuiet(w: World, h: History, w': World, h': History)
  {
    && |w'.servers| == |w.servers|
    && (forall i :: 0 <= i < |w.servers| ==>
          && w'.servers[i].log == w.servers[i].log
          && (w'.servers[i].state == Leader ==>
                w.servers[i].state == Leader && w'.servers[i].currentTerm == w.servers[i].currentTerm))
    && h'.logs == h.logs && h'.leaders == h.leaders
    && AppendCallsKept(w, w')
  }

  ghost predicate AppendCallsKept(w: World, w': World)
  {
    forall id :: id in w'.calls && w'.calls[id].AppendCall? ==>
      id in w.calls && w.calls[id].AppendCall? && w'.calls[id] == w.calls[id].(areply := w'.calls[id].areply)
  }

  lemma QuietKeepsLogInv(w: World, h: History, w': World, h': History)
    requires LogInv(w, h) && LogsQuiet(w, h, w', h')
    ensures LogInv(w', h')
  {
    forall i | 0 <= i < |w'.servers| ensures ServerLogOk(w', h', i) {
      assert ServerLogOk(w, h, i);
      GrowKeepsLogOk(h, h', w.servers[i].log);
    }
    forall t | t in h'.logs ensures LogOk(h', h'.logs[t]) {
      GrowKeepsLogOk(h, h', h.logs[t]);
    }
    forall id | id in w'.calls && w'.calls[id].AppendCall? ensures AppendCallOk(w', h', id) {
      assert AppendCallOk(w, h, id);
      GrowKeepsCall(w, h, w', h', id);
    }
  }

  ghost predicate Stepped(w: World, h: History, w': World, h': History, e: Event)
  {
    E.Stepped(w, h, w', h', e) && LogInv(w, h)
  }

  lemma SendAppendKeeps(w: World, h: History, w': World, h': History, i: nat, j: nat)
    requires Stepped(w, h, w', h', SendAppend(i, j))
    ensures LogInv(w', h') && LogsGrow(h, h')
  {
    assert E.ServerOk(w, h, i);
    assert ServerLogOk(w, h, i);
    forall k | 0 <= k < |w'.servers| ensures ServerLogOk(w', h', k) {
      assert ServerLogOk(w, h, k);
    }
    forall id | id in w'.calls && w'.calls[id].AppendCall? ensures AppendCallOk(w', h', id) {
      if id == w.nextCall {
        NewCallOk(w, h, w', h', i, j);
      } else {
        assert AppendCallOk(w, h, id);
      }
    }
  }

  lemma NewCallOk(w: World, h: History, w': World, h': History, i: nat, j: nat)
    requires Stepped(w, h, w', h', SendAppend(i, j))
    ensures AppendCallOk(w', h', w.nextCall)
  {
    assert E.ServerOk(w, h, i);
    assert ServerLogOk(w, h, i);
    var s := w.servers[i];
    assert LastIndex(s.log) == |s.log| - 1;
  }

  lemma LogAfterOk(h: History, log: seq<LogItem>, a: AppendArgs, leader: seq<LogItem>)
    requires LogOk(h, log) && LogOk(h, leader) && HasIndex(log, a.prevLogIndex)
    requires var last := a.prevLogIndex + 1 + |a.entries|;
      && last <= |leader|
      && leader[a.prevLogIndex].term == a.prevLogTerm && a.entries == leader[a.prevLogIndex + 1 .. last]
    ensures LogOk(h, LogAfter(log, a).0)
  {
    if ItemAt(log, a.prevLogIndex).term != a.prevLogTerm {
      assert a.prevLogIndex != 0;
      PrefixLogOk(h, log, a.prevLogIndex);
      assert LogAfter(log, a).0 == log[..a.prevLogIndex];
    } else {
      AppendedIsPrefix(h, log, leader, a);
      PrefixLogOk(h, leader, a.prevLogIndex + 1 + |a.entries|);
      assert LogAfter(log, a).0 == log[..a.prevLogIndex + 1] + a.entries;
    }
  }

  /** Whatever branch AppendEntries takes, the log it leaves agrees with the leaders' logs. */
  lemma AppendEntriesLog(h: History, s: Server, a: AppendArgs, leader: seq<LogItem>)
    requires LogOk(h, s.log) && LogOk(h, leader) && EntriesFit(a)
    requires var last := a.prevLogIndex + 1 + |a.entries|;
      && 0 <= a.prevLogIndex && last <= |leader|
      && leader[a.prevLogIndex].term == a.prevLogTerm && a.entries == leader[a.prevLogIndex + 1 .. last]
    ensures LogOk(h, AppendEntries(s, a).0.log)
  {
    if s.currentTerm <= a.term {
      AppendParts(s, a);
      if HasIndex(s.log, a.prevLogIndex) {
        LogAfterOk(h, s.log, a, leader);
      }
    }
  }

  /** A leader is never sent entries for its own term. */
  lemma LeaderUntouched(w: World, h: History, w': World, h': History, call: nat)
    requires Stepped(w, h, w', h', HandleAppend(call))
    ensures var d := w.calls[call].dest; w'.servers[d].state == Leader ==> w'.servers[d] == w.servers[d]
  {
    var c := w.calls[call];
    assert AppendCallOk(w, h, call);
    assert E.ServerOk(w, h, c.dest);
    E.AppendEntriesFields(w.servers[c.dest], c.aargs);
  }

  lemma HandleAppendServer(w: World, h: History, w': World, h': History, call: nat, i: nat)
    requires Stepped(w, h, w', h', HandleAppend(call)) && i < |w.servers|
    ensures |w'.servers| == |w.servers| && h'.logs == h.logs && h'.leaders == h.leaders && ServerLogOk(w', h', i)
  {
    assert ServerLogOk(w, h, i);
    var c := w.calls[call];
    if i == c.dest {
      assert AppendCallOk(w, h, call);
      AppendEntriesLog(h, w.servers[i], c.aargs, h.logs[c.aargs.term]);
      LeaderUntouched(w, h, w', h', call);
      GrowKeepsLogOk(h, h', w'.servers[i].log);
    } else {
      GrowKeepsLogOk(h, h', w.servers[i].log);
    }
  }

  lemma HandleAppendKeeps(w: World, h: History, w': World, h': History, call: nat)
    requires Stepped(w, h, w', h', HandleAppend(call))
    ensures LogInv(w', h') && LogsGrow(h, h')
  {
    forall i | 0 <= i < |w'.servers| ensures ServerLogOk(w', h', i) {
      HandleAppendServer(w, h, w', h', call, i);
    }
    forall t | t in h'.logs ensures LogOk(h', h'.logs[t]) {
      GrowKeepsLogOk(h, h', h.logs[t]);
    }
    forall id | id in w'.calls && w'.calls[id].AppendCall? ensures AppendCallOk(w', h', id) {
      assert AppendCallOk(w, h, id);
      GrowKeepsCall(w, h, w', h', id);
    }
  }

  lemma ClientStartKeeps(w: World, h: History, w': World, h': History, i: nat, command: string)
    requires Stepped(w, h, w', h', ClientStart(i, command))
    ensures LogInv(w', h') && LogsGrow(h, h')
  {
    assert E.ServerOk(w, h, i);
    assert ServerLogOk(w, h, i);
    if w.servers[i].state == Leader {
      StartGrows(w, h, w', h', i, command);
      forall k | 0 <= k < |w'.servers| ensures ServerLogOk(w', h', k) {
        assert ServerLogOk(w, h, k);
        assert E.ServerOk(w, h, k);
        if k != i {
          GrowKeepsLogOk(h, h', w.servers[k].log);
        }
      }
      forall t | t in h'.logs ensures LogOk(h', h'.logs[t]) {
        if t != w.servers[i].currentTerm {
          GrowKeepsLogOk(h, h', h.logs[t]);
        }
      }
      forall id | id in w'.calls && w'.calls[id].AppendCall? ensures AppendCallOk(w', h', id) {
        assert AppendCallOk(w, h, id);
        GrowKeepsCall(w, h, w', h', id);
      }
    } else {
      QuietKeepsLogInv(w, h, w', h');
    }
  }

  /** The leader's new entry goes to the end of its log. */
  lemma StartGrows(w: World, h: History, w': World, h': History, i: nat, command: string)
    requires Stepped(w, h, w', h', ClientStart(i, command)) && w.servers[i].state == Leader
    ensures LogsGrow(h, h') && LogOk(h', w'.servers[i].log)
    ensures h'.logs == h.logs[w.servers[i].currentTerm := w'.servers[i].log]
  {
    assert E.ServerOk(w, h, i);
    assert ServerLogOk(w, h, i);
    var log, log' := w.servers[i].log, w'.servers[i].log;
    assert LastIndex(log) == |log| - 1;
    GrowKeepsLogOk(h, h', log);
    forall k | 1 <= k < |log'| ensures FromLeader(h', log', k) {
      if k < |log| {
        assert FromLeader(h', log, k);
        assert log'[..k + 1] == log[..k + 1];
      }
    }
  }

  lemma WinFacts(w: World, h: History, w': World, h': History, call: nat)
    requires E.Count(w, h, w', h', call) && h.logs.Keys == h.leaders.Keys && E.Wins(w, w', w.calls[call].from)
    ensures var i := w.calls[call].from; var t := w.servers[i].currentTerm;
      && LogsGrow(h, h') && t !in h.logs && h'.logs == h.logs[t := w.servers[i].log]
      && h'.leaders.Keys == h.leaders.Keys + {t}
      && w'.servers[i].log == w.servers[i].log && w'.servers[i].currentTerm == t
      && (forall k :: 0 <= k < |w.servers| && k != i ==> w'.servers[k] == w.servers[k])
      && w'.calls == w.calls - {call} && |w'.servers| == |w.servers|
  {
    E.WinnerIsFirst(w, h, w', h', call);
    E.CountFacts(w, h, w', h', call);
    E.CountHistory(w, h, w', h', call);
  }

  lemma WinKeeps(w: World, h: History, w': World, h': History, call: nat)
    requires LogInv(w, h) && E.Count(w, h, w', h', call) && E.Wins(w, w', w.calls[call].from)
    ensures LogInv(w', h') && LogsGrow(h, h')
  {
    var i := w.calls[call].from;
    var t := w.servers[i].currentTerm;
    WinFacts(w, h, w', h', call);
    assert ServerLogOk(w, h, i);
    forall k | 0 <= k < |w'.servers| ensures ServerLogOk(w', h', k) {
      assert ServerLogOk(w, h, k);
      GrowKeepsLogOk(h, h', w.servers[k].log);
    }
    forall u | u in h'.logs ensures LogOk(h', h'.logs[u]) {
      GrowKeepsLogOk(h, h', if u == t then w.servers[i].log else h.logs[u]);
    }
    forall id | id in w'.calls && w'.calls[id].AppendCall? ensures AppendCallOk(w', h', id) {
      assert AppendCallOk(w, h, id);
      GrowKeepsCall(w, h, w', h', id);
    }
  }

  lemma VoteRepliedKeeps(w: World, h: History, w': World, h': History, call: nat)
    requires Stepped(w, h, w', h', VoteReplied(call))
    ensures LogInv(w', h') && LogsGrow(h, h')
  {
    assert E.ServerOk(w, h, w.calls[call].from);
    if E.Wins(w, w', w.calls[call].from) {
      WinKeeps(w, h, w', h', call);
    } else {
      QuietKeepsLogInv(w, h, w', h');
    }
  }

  lemma AppendRepliedKeeps(w: World, h: History, w': World, h': History, call: nat)
    requires Stepped(w, h, w', h', AppendReplied(call))
    ensures LogInv(w', h') && LogsGrow(h, h')
  {
    var c := w.calls[call];
    assert E.ServerOk(w, h, c.from);
    E.AppendReplyFields(w.servers[c.from], c.dest, c.aargs, c.areply.value);
    QuietKeepsLogInv(w, h, w', h');
  }

  lemma TimeoutKeeps(w: World, h: History, w': World, h': History, i: nat)
    requires Stepped(w, h, w', h', Timeout(i))
    ensures LogInv(w', h') && LogsGrow(h, h')
  {
    QuietKeepsLogInv(w, h, w', h');
  }

  lemma HandleVoteKeeps(w: World, h: History, w': World, h': History, call: nat)
    requires Stepped(w, h, w', h', HandleVote(call))
    ensures LogInv(w', h') && LogsGrow(h, h')
  {
    QuietKeepsLogInv(w, h, w', h');
  }

  lemma LoseKeeps(w: World, h: History, w': World, h': History, call: nat)
    requires Stepped(w, h, w', h', Lose(call))
    ensures LogInv(w', h') && LogsGrow(h, h')
  {
    QuietKeepsLogInv(w, h, w', h');
  }

  lemma CrashKeeps(w: World, h: History, w': World, h': History, i: nat)
    requires Stepped(w, h, w', h', Crash(i))
    ensures LogInv(w', h') && LogsGrow(h, h')
  {
    assert E.ServerOk(w, h, i);
    QuietKeepsLogInv(w, h, w', h');
  }

  lemma StepKeepsLogInv(w: World, h: History, e: Event)
    requires E.Inv(w, h) && LogInv(w, h) && CanStep(w, e)
    ensures LogInv(Step(w, e), HistStep(w, h, e)) && LogsGrow(h, HistStep(w, h, e))
  {
    var w', h' := Step(w, e), HistStep(w, h, e);
    match e
    case SendAppend(i, j) => SendAppendKeeps(w, h, w', h', i, j);
    case HandleAppend(call) => HandleAppendKeeps(w, h, w', h', call);
    case ClientStart(i, command) => ClientStartKeeps(w, h, w', h', i, command);
    case VoteReplied(call) => VoteRepliedKeeps(w, h, w', h', call);
    case AppendReplied(call) => AppendRepliedKeeps(w, h, w', h', call);
    case Crash(i) => CrashKeeps(w, h, w', h', i);
    case Timeout(i) => TimeoutKeeps(w, h, w', h', i);
    case HandleVote(call) => HandleVoteKeeps(w, h, w', h', call);
    case Lose(call) => LoseKeeps(w, h, w', h', call);
  }

  lemma InitLogInv(n: nat)
    ensures LogInv(Init(n), HistInit(n))
  {
    var w, h := Init(n), HistInit(n);
    forall i | 0 <= i < n ensures ServerLogOk(w, h, i) {
    }
  }

  lemma {:induction false} RunKeepsLogInv(w: World, h: History, es: seq<Event>, w': World, h': History)
    requires E.Inv(w, h) && LogInv(w, h) && E.Continues(w, h, es, w', h')
    ensures E.Inv(w', h') && LogInv(w', h') && LogsGrow(h, h') && |w'.servers| == |w.servers|
    decreases |es|
  {
    if es != [] {
      var w1, h1 := Step(w, es[0]), HistStep(w, h, es[0]);
      E.StepKeepsInv(w, h, es[0]);
      StepKeepsLogInv(w, h, es[0]);
      RunKeepsLogInv(w1, h1, es[1..], w', h');
      forall t | t in h.logs ensures h.logs[t] <= h'.logs[t] {
        assert h.logs[t] <= h1.logs[t] <= h'.logs[t];
      }
    }
  }

  // ---------- Whole runs ----------

  /** The histories of two states of one run. */
  lemma TwoStates(n: nat, es: seq<Event>, w: World, later: seq<Event>, w': World) returns (h: History, h': History)
    requires Goes(Init(n), es, w) && Goes(w, later, w')
    ensures LogInv(w, h) && LogInv(w', h') && LogsGrow(h, h')
  {
    E.InitInv(n);
    InitLogInv(n);
    h := E.HasHistory(Init(n), HistInit(n), es, w);
    RunKeepsLogInv(Init(n), HistInit(n), es, w, h);
    h' := E.HasHistory(w, h, later, w');
    RunKeepsLogInv(w, h, later, w', h');
  }

  lemma MatchAt(h: History, la: seq<LogItem>, lb: seq<LogItem>, index: int)
    requires LogOk(h, la) && LogOk(h, lb)
    ensures DummyIndex(la) == DummyIndex(lb) == 0
    ensures HasIndex(la, index) && HasIndex(lb, index) && ItemAt(la, index).term == ItemAt(lb, index).term ==>
              la[..index + 1] == lb[..index + 1]
  {
    if HasIndex(la, index) && HasIndex(lb, index) && ItemAt(la, index).term == ItemAt(lb, index).term {
      SameUpTo(h, la, lb, index);
    }
  }

  /** Log Matching: take the log of server a at some point of a run and the log of server b
      at that or any later point.  If they hold entries with the same index and term, they
      agree on every entry up to that index. */
  lemma LogMatching(n: nat, es: seq<Event>, w: World, later: seq<Event>, w': World, a: nat, b: nat, index: int)
    requires Goes(Init(n), es, w) && Goes(w, later, w') && a < |w.servers| && b < |w'.servers|
    ensures Contiguous(w.servers[a].log) && Contiguous(w'.servers[b].log)
    ensures var la, lb := w.servers[a].log, w'.servers[b].log;
      && DummyIndex(la) == DummyIndex(lb) == 0
      && (HasIndex(la, index) && HasIndex(lb, index) && ItemAt(la, index).term == ItemAt(lb, index).term ==>
            la[..index + 1] == lb[..index + 1])
  {
    var h, h' := TwoStates(n, es, w, later, w');
    assert ServerLogOk(w, h, a);
    assert ServerLogOk(w', h', b);
    GrowKeepsLogOk(h, h', w.servers[a].log);
    MatchAt(h', w.servers[a].log, w'.servers[b].log, index);
  }

  /** Leader Append-Only: a leader that is leader of the same term at a later point has only
      appended to its log. */
  lemma LeaderAppendOnly(n: nat, es: seq<Event>, w: World, later: seq<Event>, w': World, i: nat)
    requires Goes(Init(n), es, w) && Goes(w, later, w') && i < |w.servers| && i < |w'.servers|
    requires w.servers[i].state == Leader && w'.servers[i].state == Leader
    requires w.servers[i].currentTerm == w'.servers[i].currentTerm
    ensures w.servers[i].log <= w'.servers[i].log
  {
    var h, h' := TwoStates(n, es, w, later, w');
    assert ServerLogOk(w, h, i);
    assert ServerLogOk(w', h', i);
  }

  /** The server that an append call is for can handle it without indexing outside its log. */
  lemma CallHandled(w: World, h: History, call: nat)
    requires E.Inv(w, h) && LogInv(w, h) && call in w.calls && w.calls[call].AppendCall?
    ensures w.calls[call].dest < |w.servers|
    ensures Contiguous(w.servers[w.calls[call].dest].log) && EntriesFit(w.calls[call].aargs)
  {
    assert AppendCallOk(w, h, call);
    assert ServerLogOk(w, h, w.calls[call].dest);
    var a := w.calls[call].aargs;
    assert LogOk(h, h.logs[a.term]);
  }
}
