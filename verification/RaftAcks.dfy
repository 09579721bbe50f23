/** What servers have taken over from the leaders of their terms, and why later leaders have it
    too, as long as no server cuts off entries that agree with what it is sent. */
module RaftAcks {
  import opened Collections
  import opened RaftServer
  import opened RaftProtocol
  import opened RaftCareful
  import E = RaftElection
  import L = RaftLogs

  // ---------- What a careful cut leaves ----------

  /** The request carries a piece of this log. */
  ghost predicate PieceOf(leader: seq<LogItem>, a: AppendArgs)
  {
    var last := a.prevLogIndex + 1 + |a.entries|;
    && 0 <= a.prevLogIndex && last <= |leader|
    && leader[a.prevLogIndex].term == a.prevLogTerm && a.entries == leader[a.prevLogIndex + 1 .. last]
  }

  lemma Agreed(log: seq<LogItem>, leader: seq<LogItem>, a: AppendArgs, p: seq<LogItem>)
    requires PieceOf(leader, a) && p <= log && p <= leader
    ensures a.prevLogIndex < |p| ==> log[a.prevLogIndex].term == a.prevLogTerm
    ensures forall k :: 0 <= k < |a.entries| && a.prevLogIndex + 1 + k < |p| ==>
      log[a.prevLogIndex + 1 + k] == a.entries[k]
  {
    assert forall k :: 0 <= k < |p| ==> log[k] == p[k] == leader[k];
  }

  /** What a follower has after a success is a piece of the leader's log. */
  lemma TakenIsThere(h: History, log: seq<LogItem>, leader: seq<LogItem>, a: AppendArgs)
    requires L.LogOk(h, log) && L.LogOk(h, leader) && PieceOf(leader, a) && LogAfter(log, a).1
    ensures LogAfter(log, a).0 == leader[..a.prevLogIndex + 1 + |a.entries|]
  {
    L.AppendedIsPrefix(h, log, leader, a);
  }

  lemma ReachesBeyond(h: History, log: seq<LogItem>, leader: seq<LogItem>, a: AppendArgs, p: seq<LogItem>)
    requires L.LogOk(h, log) && PieceOf(leader, a) && CutsOnlyConflicts(log, a) && LogAfter(log, a).1
    requires p <= log && p <= leader
    ensures |p| <= a.prevLogIndex + 1 + |a.entries|
  {
    Agreed(log, leader, a, p);
  }

  /** What a follower and the leader agree on stays in the follower's log. */
  lemma NotCut(h: History, log: seq<LogItem>, leader: seq<LogItem>, a: AppendArgs, p: seq<LogItem>)
    requires L.LogOk(h, log) && L.LogOk(h, leader) && PieceOf(leader, a) && CutsOnlyConflicts(log, a)
    requires p <= log && p <= leader
    ensures p <= LogAfter(log, a).0
  {
    if LogAfter(log, a).1 {
      TakenIsThere(h, log, leader, a);
      ReachesBeyond(h, log, leader, a, p);
    } else {
      Agreed(log, leader, a, p);
    }
  }

  // ---------- More history ----------

  /** taken: up to which index a server has taken over the log of the leader of a term.  starts:
      the log with which the leader of a term won.  cands: the log with which a server stood in a
      term.  electors: the servers whose votes the leader of a term had counted when it won. */
  datatype Acks = Acks(taken: map<(nat, int), nat>, starts: map<int, seq<LogItem>>,
                       cands: map<(nat, int), seq<LogItem>>, electors: map<int, set<nat>>)

  const NO_ACKS: Acks := Acks(map[], map[], map[], map[])

  function Taken(g: Acks, v: nat, t: int): (r: nat)
  {
    if (v, t) in g.taken then g.taken[(v, t)] else 0
  }

  function Take(g: Acks, v: nat, t: int, k: int): (r: Acks)
  {
    g.(taken := g.taken[(v, t) := Max(Taken(g, v, t), k)])
  }

  function AckStep(w: World, h: History, g: Acks, e: Event): (r: Acks)
    requires CanStep(w, e) && |h.counted| == |w.servers|
  {
    var w' := Step(w, e);
    match e
    case Timeout(i) => g.(cands := g.cands[(i, w'.servers[i].currentTerm) := w.servers[i].log])
    case VoteReplied(call) =>
      var i := w.calls[call].from;
      var s, s' := w.servers[i], w'.servers[i];
      if s.state != Leader && s'.state == Leader
      then g.(starts := g.starts[s.currentTerm := s'.log],
              electors := g.electors[s.currentTerm := HistStep(w, h, e).counted[i]]) else g
    case HandleAppend(call) =>
      var c := w.calls[call];
      if w'.calls[call].areply.value.success
      then Take(g, c.dest, c.aargs.term, c.aargs.prevLogIndex + |c.aargs.entries|) else g
    case ClientStart(i, command) =>
      if w.servers[i].state == Leader
      then Take(g, i, w.servers[i].currentTerm, |w.servers[i].log|) else g
    case _ => g
  }

  // ---------- The invariant ----------

  /** Server v has taken over the log of the leader of term t up to index m, whose item is of
      that term. */
  ghost predicate Reached(h: History, g: Acks, v: nat, t: int, m: nat)
  {
    1 <= t && t in h.logs && m < |h.logs[t]| && h.logs[t][m].term == t && m <= Taken(g, v, t)
  }

  ghost function Upto(h: History, t: int, m: nat): (r: seq<LogItem>)
    requires t in h.logs && m < |h.logs[t]|
  {
    h.logs[t][..m + 1]
  }

  /** The leaders of the terms after t and before u all started with p. */
  ghost predicate Between(g: Acks, t: int, u: int, p: seq<LogItem>)
  {
    forall x :: t < x < u && x in g.starts ==> p <= g.starts[x]
  }

  ghost predicate TakenOk(w: World, h: History, g: Acks, v: nat, t: int)
  {
    && v < |w.servers| && 1 <= t <= w.servers[v].currentTerm
    && t in h.logs && Taken(g, v, t) < |h.logs[t]|
  }

  ghost predicate StartOk(w: World, h: History, g: Acks, u: int)
    requires u in g.starts
  {
    && 1 <= u && u in h.logs && g.starts[u] != [] && g.starts[u] <= h.logs[u]
    && (forall k :: 0 <= k < |g.starts[u]| ==> g.starts[u][k].term < u)
    && (forall k :: |g.starts[u]| <= k < |h.logs[u]| ==> h.logs[u][k].term == u)
    && u in g.electors && |g.electors[u]| >= Majority(|w.servers|)
    && (forall v :: v in g.electors[u] ==> v < |w.servers| && u <= w.servers[v].currentTerm)
  }

  ghost predicate CandOk(w: World, h: History, g: Acks, i: nat, u: int)
    requires (i, u) in g.cands
  {
    var log := g.cands[(i, u)];
    && i < |w.servers| && u <= w.servers[i].currentTerm
    && L.LogOk(h, log) && (forall k :: 0 <= k < |log| ==> log[k].term < u)
    && (u == w.servers[i].currentTerm && u !in h.leaders ==> w.servers[i].log == log)
  }

  /** The vote request is about the log with which its sender stands. */
  ghost predicate BallotOk(g: Acks, c: Call)
    requires c.VoteCall?
  {
    && (c.from, c.vargs.term) in g.cands
    && var log := g.cands[(c.from, c.vargs.term)];
       log != [] && c.vargs.lastLogIndex == LastIndex(log) && c.vargs.lastLogTerm == LastTerm(log)
  }

  /** What a server has taken stays in its log unless a later leader lacks it. */
  ghost predicate Kept(w: World, h: History, g: Acks, v: nat, t: int, m: nat)
    requires v < |w.servers|
  {
    Reached(h, g, v, t, m) && Between(g, t, w.servers[v].currentTerm + 1, Upto(h, t, m)) ==>
      Upto(h, t, m) <= w.servers[v].log
  }

  /** A vote in a term without a leader went to a server whose log has what the voter has taken,
      unless a leader in between lacks it. */
  ghost predicate VoteOk(h: History, g: Acks, v: nat, u: int, t: int, m: nat)
  {
    (v, u) in h.votes ==>
      && (h.votes[(v, u)], u) in g.cands
      && (u !in h.leaders && t < u && Reached(h, g, v, t, m) && Between(g, t, u, Upto(h, t, m)) ==>
            Upto(h, t, m) <= g.cands[(h.votes[(v, u)], u)])
  }

  /** The same for the votes that made a leader. */
  ghost predicate ElectorOk(h: History, g: Acks, v: nat, u: int, t: int, m: nat)
  {
    u in g.starts && u in g.electors && v in g.electors[u]
    && t < u && Reached(h, g, v, t, m) && Between(g, t, u, Upto(h, t, m)) ==>
      Upto(h, t, m) <= g.starts[u]
  }

  /** A server's log holds no item of a later term than its own. */
  ghost predicate NoNewer(s: Server)
  {
    forall k :: 0 <= k < |s.log| ==> s.log[k].term <= s.currentTerm
  }

  ghost predicate RecordsOk(w: World, h: History, g: Acks)
  {
    && g.starts.Keys == g.electors.Keys == h.leaders.Keys
    && (forall i :: 0 <= i < |w.servers| ==> NoNewer(w.servers[i]))
    && (forall v: nat, t: int {:trigger (v, t) in g.taken} :: (v, t) in g.taken ==> TakenOk(w, h, g, v, t))
    && (forall u {:trigger StartOk(w, h, g, u)} :: u in g.starts ==> StartOk(w, h, g, u))
    && (forall i: nat, u: int {:trigger (i, u) in g.cands} :: (i, u) in g.cands ==> CandOk(w, h, g, i, u))
    && (forall id {:trigger w.calls[id]} :: id in w.calls && w.calls[id].VoteCall? ==> BallotOk(g, w.calls[id]))
  }

  ghost predicate KeepsAll(w: World, h: History, g: Acks)
  {
    forall v: nat, t: int, m: nat {:trigger Kept(w, h, g, v, t, m)} :: v < |w.servers| ==> Kept(w, h, g, v, t, m)
  }

  ghost predicate VotesOk(n: nat, h: History, g: Acks)
  {
    forall v: nat, u: int, t: int, m: nat {:trigger VoteOk(h, g, v, u, t, m)} :: v < n ==> VoteOk(h, g, v, u, t, m)
  }

  ghost predicate ElectorsOk(h: History, g: Acks)
  {
    forall v: nat, u: int, t: int, m: nat {:trigger ElectorOk(h, g, v, u, t, m)} :: ElectorOk(h, g, v, u, t, m)
  }

  ghost predicate Inv(w: World, h: History, g: Acks)
  {
    RecordsOk(w, h, g) && KeepsAll(w, h, g) && VotesOk(|w.servers|, h, g) && ElectorsOk(h, g)
  }

  ghost predicate AllInv(w: World, h: History, g: Acks)
  {
    E.Inv(w, h) && L.LogInv(w, h) && Inv(w, h, g)
  }

  // ---------- An up-to-date candidate has what the voter has ----------

  /** No item of a leader's log is of a later term than its own. */
  lemma TermsUpTo(w: World, h: History, g: Acks, u: int, k: nat)
    requires RecordsOk(w, h, g) && u in g.starts
    ensures u in h.logs && (k < |h.logs[u]| ==> h.logs[u][k].term <= u)
  {
    assert StartOk(w, h, g, u);
    if k < |g.starts[u]| && k < |h.logs[u]| {
      assert h.logs[u][k] == g.starts[u][k];
    }
  }

  /** The last item of a log that holds an item of term t is of term t or later. */
  lemma LastTermAtLeast(w: World, h: History, g: Acks, log: seq<LogItem>, t: int, m: nat)
    requires RecordsOk(w, h, g) && L.LogInv(w, h) && L.LogOk(h, log) && 1 <= m < |log| && log[m].term == t
    ensures t <= LastTerm(log) && LastTerm(log) in h.logs && log <= h.logs[LastTerm(log)]
  {
    var k := |log| - 1;
    assert L.FromLeader(h, log, k);
    assert log[..k + 1] == log;
    assert h.logs[LastTerm(log)][m] == log[m];
    TermsUpTo(w, h, g, LastTerm(log), m);
  }

  /** A log that ends in an item of term u starts as the leader of term u started. */
  lemma EndsInTerm(w: World, h: History, g: Acks, log: seq<LogItem>)
    requires RecordsOk(w, h, g) && L.LogInv(w, h) && L.LogOk(h, log) && LastTerm(log) >= 1
    ensures var u := LastTerm(log); u in g.starts && u in h.logs && g.starts[u] <= log <= h.logs[u]
  {
    var u, k := LastTerm(log), |log| - 1;
    assert k > 0;
    assert L.FromLeader(h, log, k);
    assert log[..k + 1] == log;
    assert StartOk(w, h, g, u);
    assert forall j :: 0 <= j < |g.starts[u]| ==> g.starts[u][j] == h.logs[u][j];
    assert h.logs[u][k] == log[k];
  }

  lemma UpToDateHasIt(w: World, h: History, g: Acks, mine: seq<LogItem>, cand: seq<LogItem>, u: int, t: int, m: nat)
    requires RecordsOk(w, h, g) && L.LogInv(w, h) && L.LogOk(h, mine) && L.LogOk(h, cand)
    requires 1 <= t && t in h.logs && m < |h.logs[t]| && h.logs[t][m].term == t
    requires Upto(h, t, m) <= mine && Between(g, t, u, Upto(h, t, m))
    requires forall k :: 0 <= k < |cand| ==> cand[k].term < u
    requires IsMoreUpdated(LastTerm(cand), LastIndex(cand), LastTerm(mine), LastIndex(mine))
    ensures Upto(h, t, m) <= cand
  {
    var p := Upto(h, t, m);
    assert mine[m] == p[m] == h.logs[t][m];
    assert L.LogOk(h, h.logs[t]);
    LastTermAtLeast(w, h, g, mine, t, m);
    EndsInTerm(w, h, g, cand);
    var x := LastTerm(cand);
    if x == LastTerm(mine) {
      assert |mine| <= |cand|;
      assert mine <= cand;
    } else {
      assert t < x < u;
    }
  }

  // ---------- What all steps have in common ----------

  /** Nothing is newly reached, except by server a in term u. */
  ghost predicate OnlyNew(h: History, g: Acks, h': History, g': Acks, a: nat, u: int)
  {
    forall v: nat, t: int, m: nat {:trigger Reached(h', g', v, t, m)} :: Reached(h', g', v, t, m) ==>
      (Reached(h, g, v, t, m) && Upto(h', t, m) == Upto(h, t, m)) || (v == a && t == u)
  }

  ghost predicate RecordsStay(g: Acks, g': Acks)
  {
    && (forall x :: x in g.starts ==> x in g'.starts && g'.starts[x] == g.starts[x])
    && (forall x :: x in g.electors ==> x in g'.electors && g'.electors[x] == g.electors[x])
    && (forall k :: k in g.cands ==> k in g'.cands && g'.cands[k] == g.cands[k])
  }

  /** Terms do not go down, and what is on record stays; server a, in term u, may take more. */
  ghost predicate Moves(w: World, h: History, g: Acks, w': World, h': History, g': Acks, a: nat, u: int)
  {
    && |w'.servers| == |w.servers|
    && (forall v :: 0 <= v < |w.servers| ==> w.servers[v].currentTerm <= w'.servers[v].currentTerm)
    && L.LogsGrow(h, h') && RecordsStay(g, g') && OnlyNew(h, g, h', g', a, u)
    && (a < |w.servers| ==> w.servers[a].currentTerm <= u)
  }

  lemma BetweenStays(g: Acks, g': Acks, t: int, u: int, u': int, p: seq<LogItem>)
    requires RecordsStay(g, g') && u <= u' && Between(g', t, u', p)
    ensures Between(g, t, u, p)
  {
  }

  lemma ElectorStays(w: World, h: History, g: Acks, w': World, h': History, g': Acks, a: nat, u: int,
                     v: nat, x: int, t: int, m: nat)
    requires RecordsOk(w, h, g) && ElectorOk(h, g, v, x, t, m) && Moves(w, h, g, w', h', g', a, u) && x in g.starts
    ensures ElectorOk(h', g', v, x, t, m)
  {
    assert StartOk(w, h, g, x);
    if v in g.electors[x] && t < x && Reached(h', g', v, t, m) && Between(g', t, x, Upto(h', t, m)) {
      BetweenStays(g, g', t, x, x, Upto(h', t, m));
    }
  }

  lemma VoteStays(w: World, h: History, g: Acks, w': World, h': History, g': Acks, a: nat, u: int,
                  v: nat, x: int, t: int, m: nat)
    requires E.Inv(w, h) && VoteOk(h, g, v, x, t, m) && Moves(w, h, g, w', h', g', a, u) && v < |w.servers|
    requires (v, x) in h'.votes ==> (v, x) in h.votes && h'.votes[(v, x)] == h.votes[(v, x)]
    ensures VoteOk(h', g', v, x, t, m)
  {
    assert E.ServerOk(w, h, v);
    if (v, x) in h'.votes && x !in h'.leaders && t < x && Reached(h', g', v, t, m)
       && Between(g', t, x, Upto(h', t, m)) {
      BetweenStays(g, g', t, x, x, Upto(h', t, m));
    }
  }

  lemma KeptStays(w: World, h: History, g: Acks, w': World, h': History, g': Acks, a: nat, u: int,
                  v: nat, t: int, m: nat)
    requires v < |w.servers| && Kept(w, h, g, v, t, m) && Moves(w, h, g, w', h', g', a, u)
    requires !(v == a && t == u) && w.servers[v].log <= w'.servers[v].log
    ensures Kept(w', h', g', v, t, m)
  {
    if Reached(h', g', v, t, m) && Between(g', t, w'.servers[v].currentTerm + 1, Upto(h', t, m)) {
      BetweenStays(g, g', t, w.servers[v].currentTerm + 1, w'.servers[v].currentTerm + 1, Upto(h', t, m));
    }
  }

  lemma TakenStays(w: World, h: History, g: Acks, w': World, h': History, g': Acks, v: nat, t: int)
    requires TakenOk(w, h, g, v, t) && L.LogsGrow(h, h') && |w'.servers| == |w.servers|
    requires w.servers[v].currentTerm <= w'.servers[v].currentTerm && Taken(g', v, t) == Taken(g, v, t)
    ensures TakenOk(w', h', g', v, t)
  {
  }

  /** The logs with which servers stood are still right if no log changes but in a term that has a
      leader. */
  lemma CandsStay(w: World, h: History, g: Acks, w': World, h': History, g': Acks)
    requires RecordsOk(w, h, g) && |w'.servers| == |w.servers| && g'.cands == g.cands
    requires L.LogsGrow(h, h')
    requires forall i :: 0 <= i < |w.servers| ==>
      && w.servers[i].currentTerm <= w'.servers[i].currentTerm
      && (w'.servers[i].log == w.servers[i].log || w'.servers[i].currentTerm in h'.leaders)
    ensures forall i: nat, u: int :: (i, u) in g'.cands ==> CandOk(w', h', g', i, u)
  {
    forall i: nat, u: int | (i, u) in g'.cands ensures CandOk(w', h', g', i, u) {
      assert CandOk(w, h, g, i, u);
      L.GrowKeepsLogOk(h, h', g.cands[(i, u)]);
    }
  }

  // ---------- Steps that change nothing here ----------

  /** Logs, leaders and the servers' terms are as before, or the terms newer; vote requests may
      disappear or be answered. */
  ghost predicate Quiet(w: World, h: History, w': World, h': History)
  {
    && |w'.servers| == |w.servers|
    && (forall v :: 0 <= v < |w.servers| ==>
          w.servers[v].currentTerm <= w'.servers[v].currentTerm && w'.servers[v].log == w.servers[v].log)
    && h'.logs == h.logs && h'.leaders == h.leaders
    && (forall id :: id in w'.calls && w'.calls[id].VoteCall? ==>
          id in w.calls && w.calls[id].VoteCall? && w'.calls[id] == w.calls[id].(vreply := w'.calls[id].vreply))
  }

  lemma QuietRecords(w: World, h: History, g: Acks, w': World, h': History)
    requires RecordsOk(w, h, g) && Quiet(w, h, w', h')
    ensures RecordsOk(w', h', g)
  {
    forall i | 0 <= i < |w'.servers| ensures NoNewer(w'.servers[i]) {
      assert NoNewer(w.servers[i]);
    }
    forall v: nat, t: int | (v, t) in g.taken ensures TakenOk(w', h', g, v, t) {
      assert TakenOk(w, h, g, v, t);
    }
    forall u | u in g.starts ensures StartOk(w', h', g, u) {
      assert StartOk(w, h, g, u);
    }
    CandsStay(w, h, g, w', h', g);
  }

  lemma QuietMoves(w: World, h: History, g: Acks, w': World, h': History)
    requires Quiet(w, h, w', h')
    ensures Moves(w, h, g, w', h', g, |w.servers|, 0)
  {
  }

  /** Everything but the votes. */
  lemma QuietKept(w: World, h: History, g: Acks, w': World, h': History)
    requires RecordsOk(w, h, g) && KeepsAll(w, h, g) && ElectorsOk(h, g) && Quiet(w, h, w', h')
    ensures RecordsOk(w', h', g) && KeepsAll(w', h', g) && ElectorsOk(h', g)
  {
    QuietRecords(w, h, g, w', h');
    QuietMoves(w, h, g, w', h');
    forall v: nat, t: int, m: nat | v < |w'.servers| ensures Kept(w', h', g, v, t, m) {
      assert Kept(w, h, g, v, t, m);
      KeptStays(w, h, g, w', h', g, |w.servers|, 0, v, t, m);
    }
    forall v: nat, x: int, t: int, m: nat ensures ElectorOk(h', g, v, x, t, m) {
      assert ElectorOk(h, g, v, x, t, m);
      if x in g.starts {
        ElectorStays(w, h, g, w', h', g, |w.servers|, 0, v, x, t, m);
      }
    }
  }

  lemma QuietKeeps(w: World, h: History, g: Acks, w': World, h': History)
    requires E.Inv(w, h) && Inv(w, h, g) && Quiet(w, h, w', h') && h'.votes == h.votes
    ensures Inv(w', h', g)
  {
    QuietKept(w, h, g, w', h');
    QuietMoves(w, h, g, w', h');
    forall v: nat, x: int, t: int, m: nat | v < |w'.servers| ensures VoteOk(h', g, v, x, t, m) {
      assert VoteOk(h, g, v, x, t, m);
      VoteStays(w, h, g, w', h', g, |w.servers|, 0, v, x, t, m);
    }
  }

  ghost predicate Stepped(w: World, h: History, g: Acks, w': World, h': History, g': Acks, e: Event)
  {
    E.Stepped(w, h, w', h', e) && L.LogInv(w, h) && Inv(w, h, g) && g' == AckStep(w, h, g, e)
  }

  // ---------- A server stands ----------

  /** Server i has gone to a new term and asks for votes with the log that it has. */
  ghost predicate Stands(w: World, h: History, g: Acks, w': World, h': History, g': Acks, i: nat)
  {
    && Shape(w) && i < |w.servers| && w.servers[i].log != [] && E.Inv(w, h) && L.LogInv(w, h) && Inv(w, h, g)
    && var s := w.servers[i]; var u := s.currentTerm + 1;
       && g' == g.(cands := g.cands[(i, u) := s.log]) && (i, u) !in g.cands && h'.votes == h.votes[(i, u) := i]
       && h'.logs == h.logs && h'.leaders == h.leaders
       && w'.servers == w.servers[i := StartElection(s)]
       && w'.calls == w.calls + VoteCalls(w, i, StartElection(s), |w.servers|)
  }

  lemma TimeoutStands(w: World, h: History, g: Acks, w': World, h': History, g': Acks, i: nat)
    requires Stepped(w, h, g, w', h', g', Timeout(i))
    ensures Stands(w, h, g, w', h', g', i)
  {
    E.CampaignFacts(w, h, w', h', i);
    forall u: int | (i, u) in g.cands ensures u <= w.servers[i].currentTerm {
      assert CandOk(w, h, g, i, u);
    }
  }

  lemma StandsMoves(w: World, h: History, g: Acks, w': World, h': History, g': Acks, i: nat)
    requires Stands(w, h, g, w', h', g', i)
    ensures Moves(w, h, g, w', h', g', |w.servers|, 0)
  {
  }

  lemma StandsCandidate(w: World, h: History, g: Acks, w': World, h': History, g': Acks, i: nat, j: nat, x: int)
    requires Stands(w, h, g, w', h', g', i) && (j, x) in g'.cands
    ensures CandOk(w', h', g', j, x)
  {
    if j == i && x == w.servers[i].currentTerm + 1 {
      assert L.ServerLogOk(w, h, i) && NoNewer(w.servers[i]);
      L.GrowKeepsLogOk(h, h', w.servers[i].log);
    } else {
      assert CandOk(w, h, g, j, x);
      L.GrowKeepsLogOk(h, h', g.cands[(j, x)]);
    }
  }

  lemma StandsBallot(w: World, h: History, g: Acks, w': World, h': History, g': Acks, i: nat, id: nat)
    requires Stands(w, h, g, w', h', g', i) && id in w'.calls && w'.calls[id].VoteCall?
    ensures BallotOk(g', w'.calls[id])
  {
    if id in VoteCalls(w, i, StartElection(w.servers[i]), |w.servers|) {
      assert w'.calls[id].vargs == VoteArgsOf(StartElection(w.servers[i]));
    } else {
      assert BallotOk(g, w.calls[id]);
    }
  }

  lemma StandsRecords(w: World, h: History, g: Acks, w': World, h': History, g': Acks, i: nat)
    requires Stands(w, h, g, w', h', g', i)
    ensures RecordsOk(w', h', g')
  {
    forall j | 0 <= j < |w'.servers| ensures NoNewer(w'.servers[j]) {
      assert NoNewer(w.servers[j]);
    }
    forall v: nat, t: int | (v, t) in g'.taken ensures TakenOk(w', h', g', v, t) {
      TakenStays(w, h, g, w', h', g', v, t);
    }
    forall u | u in g'.starts ensures StartOk(w', h', g', u) {
      assert StartOk(w, h, g, u);
    }
    forall j: nat, x: int | (j, x) in g'.cands ensures CandOk(w', h', g', j, x) {
      StandsCandidate(w, h, g, w', h', g', i, j, x);
    }
    forall id | id in w'.calls && w'.calls[id].VoteCall? ensures BallotOk(g', w'.calls[id]) {
      StandsBallot(w, h, g, w', h', g', i, id);
    }
  }

  lemma StandsVote(w: World, h: History, g: Acks, w': World, h': History, g': Acks, i: nat,
                   v: nat, x: int, t: int, m: nat)
    requires Stands(w, h, g, w', h', g', i) && v < |w.servers|
    ensures VoteOk(h', g', v, x, t, m)
  {
    assert VoteOk(h, g, v, x, t, m);
    if v == i && x == w.servers[i].currentTerm + 1 {
      assert Kept(w, h, g, v, t, m);
    } else {
      StandsMoves(w, h, g, w', h', g', i);
      VoteStays(w, h, g, w', h', g', |w.servers|, 0, v, x, t, m);
    }
  }

  lemma StandsKeeps(w: World, h: History, g: Acks, w': World, h': History, g': Acks, i: nat)
    requires Stands(w, h, g, w', h', g', i)
    ensures Inv(w', h', g')
  {
    StandsMoves(w, h, g, w', h', g', i);
    StandsRecords(w, h, g, w', h', g', i);
    forall v: nat, t: int, m: nat | v < |w'.servers| ensures Kept(w', h', g', v, t, m) {
      assert Kept(w, h, g, v, t, m);
      KeptStays(w, h, g, w', h', g', |w.servers|, 0, v, t, m);
    }
    forall v: nat, x: int, t: int, m: nat ensures ElectorOk(h', g', v, x, t, m) {
      assert ElectorOk(h, g, v, x, t, m);
      if x in g.starts {
        ElectorStays(w, h, g, w', h', g', |w.servers|, 0, v, x, t, m);
      }
    }
    forall v: nat, x: int, t: int, m: nat | v < |w'.servers| ensures VoteOk(h', g', v, x, t, m) {
      StandsVote(w, h, g, w', h', g', i, v, x, t, m);
    }
  }

  // ---------- A vote is cast ----------

  lemma RequestVoteFacts(s: Server, args: VoteArgs)
    requires s.log != []
    ensures var (s', reply) := RequestVote(s, args);
      && s'.log == s.log && s.currentTerm <= s'.currentTerm
      && (reply.voteGranted ==>
            && reply.term == args.term && s.currentTerm <= args.term
            && IsMoreUpdated(args.lastLogTerm, args.lastLogIndex, LastTerm(s.log), LastIndex(s.log)))
  {
  }

  lemma HandleVoteQuiet(w: World, h: History, w': World, h': History, call: nat)
    requires E.Stepped(w, h, w', h', HandleVote(call))
    ensures Quiet(w, h, w', h')
    ensures var c := w.calls[call];
      h'.votes == if w'.calls[call].vreply.value.voteGranted then h.votes[(c.dest, c.vargs.term) := c.from] else h.votes
  {
    assert E.VoteCallOk(w, h, call);
    RequestVoteFacts(w.servers[w.calls[call].dest], w.calls[call].vargs);
  }

  /** The voter's log has what the voter has taken, and the candidate's is up to date with it. */
  lemma CandidateHasIt(w: World, h: History, g: Acks, v: nat, c: nat, x: int, t: int, m: nat)
    requires L.LogInv(w, h) && Inv(w, h, g) && v < |w.servers| && (c, x) in g.cands
    requires w.servers[v].currentTerm <= x && x !in h.leaders && w.servers[v].log != [] && g.cands[(c, x)] != []
    requires var mine, cand := w.servers[v].log, g.cands[(c, x)];
      IsMoreUpdated(LastTerm(cand), LastIndex(cand), LastTerm(mine), LastIndex(mine))
    requires Reached(h, g, v, t, m) && Between(g, t, x, Upto(h, t, m))
    ensures Upto(h, t, m) <= g.cands[(c, x)]
  {
    assert CandOk(w, h, g, c, x) && L.ServerLogOk(w, h, v) && Kept(w, h, g, v, t, m);
    UpToDateHasIt(w, h, g, w.servers[v].log, g.cands[(c, x)], x, t, m);
  }

  lemma VoteCast(w: World, h: History, g: Acks, w': World, h': History, call: nat, t: int, m: nat)
    requires Stepped(w, h, g, w', h', g, HandleVote(call)) && w'.calls[call].vreply.value.voteGranted
    ensures var c := w.calls[call]; VoteOk(h', g, c.dest, c.vargs.term, t, m)
  {
    var c := w.calls[call];
    var v, x := c.dest, c.vargs.term;
    HandleVoteQuiet(w, h, w', h', call);
    assert BallotOk(g, c);
    if x !in h'.leaders && t < x && Reached(h', g, v, t, m) && Between(g, t, x, Upto(h', t, m)) {
      RequestVoteFacts(w.servers[v], c.vargs);
      assert Reached(h, g, v, t, m);
      CandidateHasIt(w, h, g, v, c.from, x, t, m);
    }
  }

  lemma HandleVoteKeeps(w: World, h: History, g: Acks, w': World, h': History, call: nat)
    requires Stepped(w, h, g, w', h', g, HandleVote(call))
    ensures Inv(w', h', g)
  {
    var c := w.calls[call];
    HandleVoteQuiet(w, h, w', h', call);
    QuietKept(w, h, g, w', h');
    QuietMoves(w, h, g, w', h');
    forall v: nat, x: int, t: int, m: nat | v < |w'.servers| ensures VoteOk(h', g, v, x, t, m) {
      assert VoteOk(h, g, v, x, t, m);
      if v == c.dest && x == c.vargs.term && w'.calls[call].vreply.value.voteGranted {
        VoteCast(w, h, g, w', h', call, t, m);
      } else {
        VoteStays(w, h, g, w', h', g, |w.servers|, 0, v, x, t, m);
      }
    }
  }

  // ---------- A server wins ----------

  ghost predicate Won(w: World, h: History, g: Acks, w': World, h': History, g': Acks, call: nat)
  {
    && L.LogInv(w, h) && Inv(w, h, g) && E.Count(w, h, w', h', call) && E.Wins(w, w', w.calls[call].from)
    && g' == AckStep(w, h, g, VoteReplied(call))
  }

  /** The votes that a winner has counted are a majority. */
  lemma WinnerCounted(w: World, h: History, w': World, h': History, call: nat)
    requires E.Count(w, h, w', h', call) && E.Wins(w, w', w.calls[call].from)
    ensures var i := w.calls[call].from; |h'.counted[i]| >= Majority(|w.servers|)
    ensures var i := w.calls[call].from;
      forall v :: v in h'.counted[i] ==> v < |w.servers| && E.VotedFor(h, v, w.servers[i].currentTerm, i)
  {
    E.CountFacts(w, h, w', h', call);
    var c := w.calls[call];
    if c.vreply.value.voteGranted {
      AddOne(h.counted[c.from], c.dest);
    }
  }

  /** Server i has become the first leader of term u, with the log that it stood with. */
  ghost predicate NewLeader(w: World, h: History, g: Acks, w': World, h': History, g': Acks, i: nat, u: int,
                            electors: set<nat>)
  {
    && E.Inv(w, h) && L.LogInv(w, h) && Inv(w, h, g)
    && i < |w.servers| == |w'.servers| && u == w.servers[i].currentTerm && 1 <= u
    && (forall v :: 0 <= v < |w.servers| ==>
          w'.servers[v].currentTerm == w.servers[v].currentTerm && w'.servers[v].log == w.servers[v].log)
    && (forall id :: id in w'.calls && w'.calls[id].VoteCall? ==> id in w.calls && w'.calls[id] == w.calls[id])
    && h'.logs == h.logs[u := w.servers[i].log] && h'.leaders.Keys == h.leaders.Keys + {u} && h'.votes == h.votes
    && g' == g.(starts := g.starts[u := w.servers[i].log], electors := g.electors[u := electors])
    && u !in h.leaders && L.LogsGrow(h, h')
    && |electors| >= Majority(|w.servers|)
    && (forall v :: v in electors ==> v < |w.servers| && E.VotedFor(h, v, u, i))
  }

  lemma WinIsNewLeader(w: World, h: History, g: Acks, w': World, h': History, g': Acks, call: nat)
    requires Won(w, h, g, w', h', g', call)
    ensures var i := w.calls[call].from;
      i < |h'.counted| && NewLeader(w, h, g, w', h', g', i, w.servers[i].currentTerm, h'.counted[i])
  {
    WinHistory(w, h, w', h', call);
    WinnerCounted(w, h, w', h', call);
  }

  lemma WinHistory(w: World, h: History, w': World, h': History, call: nat)
    requires E.Count(w, h, w', h', call) && h.logs.Keys == h.leaders.Keys && E.Wins(w, w', w.calls[call].from)
    ensures var i := w.calls[call].from; var u := w.servers[i].currentTerm;
      && 1 <= u && |w'.servers| == |w.servers| == |h'.counted|
      && (forall v :: 0 <= v < |w.servers| ==>
            w'.servers[v].currentTerm == w.servers[v].currentTerm && w'.servers[v].log == w.servers[v].log)
      && w'.calls == w.calls - {call} && h'.votes == h.votes
      && h'.logs == h.logs[u := w.servers[i].log] && h'.leaders.Keys == h.leaders.Keys + {u} && u !in h.leaders
      && L.LogsGrow(h, h')
  {
    L.WinFacts(w, h, w', h', call);
    E.WinnerIsFirst(w, h, w', h', call);
    E.CountHistory(w, h, w', h', call);
  }

  /** A winner stood with the log that it has. */
  lemma WinnerStood(w: World, h: History, g: Acks, w': World, h': History, g': Acks, i: nat, u: int, electors: set<nat>)
    requires NewLeader(w, h, g, w', h', g', i, u, electors)
    ensures (i, u) in g.cands && g.cands[(i, u)] == w.servers[i].log
  {
    assert electors != {};
    var v :| v in electors;
    assert VoteOk(h, g, v, u, 0, 0);
    assert CandOk(w, h, g, i, u);
  }

  lemma NothingTaken(w: World, h: History, g: Acks, v: nat, u: int)
    requires L.LogInv(w, h) && RecordsOk(w, h, g) && u !in h.leaders
    ensures Taken(g, v, u) == 0
  {
  }

  lemma NewLeaderMoves(w: World, h: History, g: Acks, w': World, h': History, g': Acks, i: nat, u: int,
                       electors: set<nat>)
    requires NewLeader(w, h, g, w', h', g', i, u, electors)
    ensures Moves(w, h, g, w', h', g', |w.servers|, 0)
  {
    assert L.ServerLogOk(w, h, i);
    forall v: nat, t: int, m: nat | Reached(h', g', v, t, m)
      ensures Reached(h, g, v, t, m) && Upto(h', t, m) == Upto(h, t, m)
    {
      NothingTaken(w, h, g, v, u);
    }
  }

  lemma NewLeaderStart(w: World, h: History, g: Acks, w': World, h': History, g': Acks, i: nat, u: int,
                       electors: set<nat>, x: int)
    requires NewLeader(w, h, g, w', h', g', i, u, electors) && x in g'.starts
    ensures StartOk(w', h', g', x)
  {
    if x == u {
      WinnerStood(w, h, g, w', h', g', i, u, electors);
      assert CandOk(w, h, g, i, u) && L.ServerLogOk(w, h, i);
      forall v | v in electors ensures u <= w'.servers[v].currentTerm {
        assert E.ServerOk(w, h, v);
      }
    } else {
      assert StartOk(w, h, g, x);
    }
  }

  lemma NewLeaderRecords(w: World, h: History, g: Acks, w': World, h': History, g': Acks, i: nat, u: int,
                         electors: set<nat>)
    requires NewLeader(w, h, g, w', h', g', i, u, electors)
    ensures RecordsOk(w', h', g')
  {
    forall j | 0 <= j < |w'.servers| ensures NoNewer(w'.servers[j]) {
      assert NoNewer(w.servers[j]);
    }
    forall v: nat, t: int | (v, t) in g'.taken ensures TakenOk(w', h', g', v, t) {
      assert TakenOk(w, h, g, v, t);
      TakenStays(w, h, g, w', h', g', v, t);
    }
    forall x | x in g'.starts ensures StartOk(w', h', g', x) {
      NewLeaderStart(w, h, g, w', h', g', i, u, electors, x);
    }
    CandsStay(w, h, g, w', h', g');
    forall id | id in w'.calls && w'.calls[id].VoteCall? ensures BallotOk(g', w'.calls[id]) {
      assert BallotOk(g, w.calls[id]);
    }
  }

  /** What an elector of the new leader has taken, the new leader has. */
  lemma NewElector(w: World, h: History, g: Acks, w': World, h': History, g': Acks, i: nat, u: int,
                   electors: set<nat>, v: nat, t: int, m: nat)
    requires NewLeader(w, h, g, w', h', g', i, u, electors) && v in electors
    ensures ElectorOk(h', g', v, u, t, m)
  {
    NewLeaderMoves(w, h, g, w', h', g', i, u, electors);
    WinnerStood(w, h, g, w', h', g', i, u, electors);
    assert VoteOk(h, g, v, u, t, m);
    if t < u && Reached(h', g', v, t, m) && Between(g', t, u, Upto(h', t, m)) {
      BetweenStays(g, g', t, u, u, Upto(h', t, m));
    }
  }

  lemma NewLeaderKeeps(w: World, h: History, g: Acks, w': World, h': History, g': Acks, i: nat, u: int,
                       electors: set<nat>)
    requires NewLeader(w, h, g, w', h', g', i, u, electors)
    ensures Inv(w', h', g')
  {
    NewLeaderMoves(w, h, g, w', h', g', i, u, electors);
    NewLeaderRecords(w, h, g, w', h', g', i, u, electors);
    forall v: nat, t: int, m: nat | v < |w'.servers| ensures Kept(w', h', g', v, t, m) {
      assert Kept(w, h, g, v, t, m);
      KeptStays(w, h, g, w', h', g', |w.servers|, 0, v, t, m);
    }
    forall v: nat, x: int, t: int, m: nat ensures ElectorOk(h', g', v, x, t, m) {
      assert ElectorOk(h, g, v, x, t, m);
      if x in g.starts {
        ElectorStays(w, h, g, w', h', g', |w.servers|, 0, v, x, t, m);
      } else if x == u && v in electors {
        NewElector(w, h, g, w', h', g', i, u, electors, v, t, m);
      }
    }
    forall v: nat, x: int, t: int, m: nat | v < |w'.servers| ensures VoteOk(h', g', v, x, t, m) {
      assert VoteOk(h, g, v, x, t, m);
      VoteStays(w, h, g, w', h', g', |w.servers|, 0, v, x, t, m);
    }
  }

  // ---------- A follower takes entries ----------

  /** Server v handles a request of the leader of term a.term, and cuts off nothing that agrees
      with it. */
  ghost predicate Takes(w: World, h: History, g: Acks, w': World, h': History, g': Acks, v: nat, a: AppendArgs)
  {
    && E.Inv(w, h) && L.LogInv(w, h) && Inv(w, h, g)
    && v < |w.servers| && a.term in h.logs && 1 <= a.term && PieceOf(h.logs[a.term], a)
    && w.servers[v].currentTerm <= a.term && L.LogOk(h, w.servers[v].log) && CutsOnlyConflicts(w.servers[v].log, a)
    && |w'.servers| == |w.servers|
    && (forall j :: 0 <= j < |w.servers| && j != v ==> w'.servers[j] == w.servers[j])
    && w'.servers[v].currentTerm == a.term && w'.servers[v].log == LogAfter(w.servers[v].log, a).0
    && g' == (if LogAfter(w.servers[v].log, a).1 then Take(g, v, a.term, a.prevLogIndex + |a.entries|) else g)
    && h'.logs == h.logs && h'.leaders == h.leaders && h'.votes == h.votes
    && (forall id :: id in w'.calls && w'.calls[id].VoteCall? ==> id in w.calls && w'.calls[id] == w.calls[id])
  }

  lemma TakesOnlyNew(w: World, h: History, g: Acks, w': World, h': History, g': Acks, v: nat, a: AppendArgs)
    requires Takes(w, h, g, w', h', g', v, a)
    ensures OnlyNew(h, g, h', g', v, a.term)
  {
    forall j: nat, t: int, m: nat | Reached(h', g', j, t, m) && !(j == v && t == a.term)
      ensures Reached(h, g, j, t, m) && Upto(h', t, m) == Upto(h, t, m)
    {
      assert Taken(g', j, t) == Taken(g, j, t);
    }
  }

  lemma TakesMoves(w: World, h: History, g: Acks, w': World, h': History, g': Acks, v: nat, a: AppendArgs)
    requires Takes(w, h, g, w', h', g', v, a)
    ensures Moves(w, h, g, w', h', g', v, a.term)
  {
    TakesOnlyNew(w, h, g, w', h', g', v, a);
  }

  /** What was taken before is in the follower's log and in that of the leader. */
  lemma TakenBefore(w: World, h: History, g: Acks, v: nat, u: int, t: int, m: nat)
    requires L.LogInv(w, h) && Inv(w, h, g) && v < |w.servers| && w.servers[v].currentTerm <= u && u in h.logs
    requires Reached(h, g, v, t, m) && Between(g, t, u + 1, Upto(h, t, m))
    ensures Upto(h, t, m) <= w.servers[v].log && Upto(h, t, m) <= h.logs[u]
  {
    assert Kept(w, h, g, v, t, m) && StartOk(w, h, g, u);
    BetweenStays(g, g, t, w.servers[v].currentTerm + 1, u + 1, Upto(h, t, m));
    assert L.LogOk(h, h.logs[t]);
    if t > u {
      NotTakenAhead(w, h, g, v, t);
    }
  }

  lemma NotTakenAhead(w: World, h: History, g: Acks, v: nat, t: int)
    requires RecordsOk(w, h, g) && v < |w.servers| && w.servers[v].currentTerm < t
    ensures Taken(g, v, t) == 0
  {
  }

  lemma TakesKeepsIt(w: World, h: History, g: Acks, w': World, h': History, g': Acks, v: nat, a: AppendArgs,
                     t: int, m: nat)
    requires Takes(w, h, g, w', h', g', v, a)
    ensures |w'.servers| == |w.servers| && Kept(w', h', g', v, t, m)
  {
    TakesMoves(w, h, g, w', h', g', v, a);
    var log, leader := w.servers[v].log, h.logs[a.term];
    assert L.LogOk(h, leader);
    if Reached(h', g', v, t, m) && Between(g', t, a.term + 1, Upto(h', t, m)) {
      if Reached(h, g, v, t, m) {
        TakenBefore(w, h, g, v, a.term, t, m);
        NotCut(h, log, leader, a, Upto(h, t, m));
      } else {
        TakenIsThere(h, log, leader, a);
      }
    }
  }

  lemma TakesNoNewer(w: World, h: History, g: Acks, w': World, h': History, g': Acks, v: nat, a: AppendArgs)
    requires Takes(w, h, g, w', h', g', v, a)
    ensures |w'.servers| == |w.servers| && NoNewer(w'.servers[v])
  {
    TakesMoves(w, h, g, w', h', g', v, a);
    var log := w.servers[v].log;
    assert NoNewer(w.servers[v]);
    if LogAfter(log, a).1 {
      TakenIsThere(h, log, h.logs[a.term], a);
      forall k: nat | k < |h.logs[a.term]| ensures h.logs[a.term][k].term <= a.term {
        TermsUpTo(w, h, g, a.term, k);
      }
    }
  }

  lemma TakesTaken(w: World, h: History, g: Acks, w': World, h': History, g': Acks, v: nat, a: AppendArgs,
                   j: nat, t: int)
    requires Takes(w, h, g, w', h', g', v, a) && (j, t) in g'.taken
    ensures TakenOk(w', h', g', j, t)
  {
    if (j, t) in g.taken {
      assert TakenOk(w, h, g, j, t);
    }
  }

  lemma TakesRecords(w: World, h: History, g: Acks, w': World, h': History, g': Acks, v: nat, a: AppendArgs)
    requires Takes(w, h, g, w', h', g', v, a)
    ensures RecordsOk(w', h', g')
  {
    TakesNoNewer(w, h, g, w', h', g', v, a);
    forall j | 0 <= j < |w'.servers| ensures NoNewer(w'.servers[j]) {
      assert j != v ==> NoNewer(w.servers[j]);
    }
    forall j: nat, t: int | (j, t) in g'.taken ensures TakenOk(w', h', g', j, t) {
      TakesTaken(w, h, g, w', h', g', v, a, j, t);
    }
    forall x | x in g'.starts ensures StartOk(w', h', g', x) {
      assert StartOk(w, h, g, x);
    }
    CandsStay(w, h, g, w', h', g');
    forall id | id in w'.calls && w'.calls[id].VoteCall? ensures BallotOk(g', w'.calls[id]) {
      assert BallotOk(g, w.calls[id]);
    }
  }

  // ---------- A leader takes a command ----------

  /** Server i, the leader of term u, puts an item at the end of its log. */
  ghost predicate Grows(w: World, h: History, g: Acks, w': World, h': History, g': Acks, i: nat, u: int, item: LogItem)
  {
    && E.Inv(w, h) && L.LogInv(w, h) && Inv(w, h, g)
    && i < |w.servers| && w.servers[i].currentTerm == u == item.term && u in h.logs && 1 <= u
    && h.logs[u] == w.servers[i].log
    && |w'.servers| == |w.servers|
    && (forall j :: 0 <= j < |w.servers| && j != i ==> w'.servers[j] == w.servers[j])
    && w'.servers[i].currentTerm == u && w'.servers[i].log == w.servers[i].log + [item]
    && h'.logs == h.logs[u := w.servers[i].log + [item]] && h'.leaders == h.leaders && h'.votes == h.votes
    && L.LogsGrow(h, h') && w'.calls == w.calls
    && g' == Take(g, i, u, |w.servers[i].log|)
  }

  lemma GrowsMoves(w: World, h: History, g: Acks, w': World, h': History, g': Acks, i: nat, u: int, item: LogItem)
    requires Grows(w, h, g, w', h', g', i, u, item)
    ensures Moves(w, h, g, w', h', g', i, u)
  {
    assert L.LogOk(h, h.logs[u]);
    forall v: nat, t: int, m: nat | Reached(h', g', v, t, m) && !(v == i && t == u)
      ensures Reached(h, g, v, t, m) && Upto(h', t, m) == Upto(h, t, m)
    {
      assert (v, t) in g.taken ==> TakenOk(w, h, g, v, t);
    }
  }

  lemma GrowsTaken(w: World, h: History, g: Acks, w': World, h': History, g': Acks, i: nat, u: int, item: LogItem,
                   j: nat, t: int)
    requires Grows(w, h, g, w', h', g', i, u, item) && (j, t) in g'.taken
    ensures TakenOk(w', h', g', j, t)
  {
    if (j, t) in g.taken {
      assert TakenOk(w, h, g, j, t);
    }
  }

  lemma GrowsRecords(w: World, h: History, g: Acks, w': World, h': History, g': Acks, i: nat, u: int, item: LogItem)
    requires Grows(w, h, g, w', h', g', i, u, item)
    ensures RecordsOk(w', h', g')
  {
    forall j | 0 <= j < |w'.servers| ensures NoNewer(w'.servers[j]) {
      assert NoNewer(w.servers[j]);
    }
    forall j: nat, t: int | (j, t) in g'.taken ensures TakenOk(w', h', g', j, t) {
      GrowsTaken(w, h, g, w', h', g', i, u, item, j, t);
    }
    forall x | x in g'.starts ensures StartOk(w', h', g', x) {
      assert StartOk(w, h, g, x);
    }
    CandsStay(w, h, g, w', h', g');
    forall id | id in w'.calls && w'.calls[id].VoteCall? ensures BallotOk(g', w'.calls[id]) {
      assert BallotOk(g, w.calls[id]);
    }
  }

  // ---------- Votes and electors when a server takes more ----------

  lemma RestKeeps(w: World, h: History, g: Acks, w': World, h': History, g': Acks, a: nat, u: int)
    requires E.Inv(w, h) && Inv(w, h, g) && Moves(w, h, g, w', h', g', a, u)
    requires g'.starts == g.starts && h'.votes == h.votes
    ensures VotesOk(|w'.servers|, h', g') && ElectorsOk(h', g')
  {
    forall v: nat, x: int, t: int, m: nat ensures ElectorOk(h', g', v, x, t, m) {
      assert ElectorOk(h, g, v, x, t, m);
      if x in g.starts {
        ElectorStays(w, h, g, w', h', g', a, u, v, x, t, m);
      }
    }
    forall v: nat, x: int, t: int, m: nat | v < |w'.servers| ensures VoteOk(h', g', v, x, t, m) {
      assert VoteOk(h, g, v, x, t, m);
      VoteStays(w, h, g, w', h', g', a, u, v, x, t, m);
    }
  }

  lemma TakesKeeps(w: World, h: History, g: Acks, w': World, h': History, g': Acks, v: nat, a: AppendArgs)
    requires Takes(w, h, g, w', h', g', v, a)
    ensures Inv(w', h', g')
  {
    TakesMoves(w, h, g, w', h', g', v, a);
    TakesRecords(w, h, g, w', h', g', v, a);
    RestKeeps(w, h, g, w', h', g', v, a.term);
    forall j: nat, t: int, m: nat | j < |w'.servers| ensures Kept(w', h', g', j, t, m) {
      assert Kept(w, h, g, j, t, m);
      if j == v {
        TakesKeepsIt(w, h, g, w', h', g', v, a, t, m);
      } else {
        KeptStays(w, h, g, w', h', g', v, a.term, j, t, m);
      }
    }
  }

  lemma GrowsKeeps(w: World, h: History, g: Acks, w': World, h': History, g': Acks, i: nat, u: int, item: LogItem)
    requires Grows(w, h, g, w', h', g', i, u, item)
    ensures Inv(w', h', g')
  {
    GrowsMoves(w, h, g, w', h', g', i, u, item);
    GrowsRecords(w, h, g, w', h', g', i, u, item);
    RestKeeps(w, h, g, w', h', g', i, u);
    forall j: nat, t: int, m: nat | j < |w'.servers| ensures Kept(w', h', g', j, t, m) {
      assert Kept(w, h, g, j, t, m);
      if !(j == i && t == u) {
        KeptStays(w, h, g, w', h', g', i, u, j, t, m);
      }
    }
  }

  // ---------- All steps ----------

  lemma HandleAppendTakes(w: World, h: History, g: Acks, w': World, h': History, g': Acks, call: nat)
    requires Stepped(w, h, g, w', h', g', HandleAppend(call)) && CarefulCut(w, HandleAppend(call))
    requires w.servers[w.calls[call].dest].currentTerm <= w.calls[call].aargs.term
    ensures Takes(w, h, g, w', h', g', w.calls[call].dest, w.calls[call].aargs)
  {
    var c := w.calls[call];
    RequestIsPiece(w, h, call);
    AppendParts(w.servers[c.dest], c.aargs);
    HandleAppendHistory(w, h, g, w', h', g', call);
  }

  lemma RequestIsPiece(w: World, h: History, call: nat)
    requires E.Inv(w, h) && L.LogInv(w, h) && call in w.calls && w.calls[call].AppendCall?
    ensures var c := w.calls[call];
      && c.dest < |w.servers| && c.aargs.term in h.logs && 1 <= c.aargs.term && PieceOf(h.logs[c.aargs.term], c.aargs)
      && L.LogOk(h, w.servers[c.dest].log)
  {
    var c := w.calls[call];
    assert L.AppendCallOk(w, h, call) && L.ServerLogOk(w, h, c.dest) && E.LeaderOk(w, h, c.aargs.term);
  }

  lemma HandleAppendHistory(w: World, h: History, g: Acks, w': World, h': History, g': Acks, call: nat)
    requires E.Stepped(w, h, w', h', HandleAppend(call)) && g' == AckStep(w, h, g, HandleAppend(call))
    requires w.servers[w.calls[call].dest].currentTerm <= w.calls[call].aargs.term
    ensures var c := w.calls[call];
      && h'.logs == h.logs && h'.leaders == h.leaders && h'.votes == h.votes
      && (forall id :: id in w'.calls && w'.calls[id].VoteCall? ==> id in w.calls && w'.calls[id] == w.calls[id])
      && g' == (if LogAfter(w.servers[c.dest].log, c.aargs).1
                then Take(g, c.dest, c.aargs.term, c.aargs.prevLogIndex + |c.aargs.entries|) else g)
  {
    AppendParts(w.servers[w.calls[call].dest], w.calls[call].aargs);
  }

  lemma HandleAppendKeeps(w: World, h: History, g: Acks, w': World, h': History, g': Acks, call: nat)
    requires Stepped(w, h, g, w', h', g', HandleAppend(call)) && CarefulCut(w, HandleAppend(call))
    ensures Inv(w', h', g')
  {
    var c := w.calls[call];
    if w.servers[c.dest].currentTerm <= c.aargs.term {
      HandleAppendTakes(w, h, g, w', h', g', call);
      TakesKeeps(w, h, g, w', h', g', c.dest, c.aargs);
    } else {
      QuietKeeps(w, h, g, w', h');
    }
  }

  lemma ClientStartGrows(w: World, h: History, g: Acks, w': World, h': History, g': Acks, i: nat, command: string)
    requires Stepped(w, h, g, w', h', g', ClientStart(i, command)) && w.servers[i].state == Leader
    ensures var s := w.servers[i];
      s.log != [] && Grows(w, h, g, w', h', g', i, s.currentTerm, LogItem(command, s.currentTerm, LastIndex(s.log) + 1))
  {
    assert E.ServerOk(w, h, i) && L.ServerLogOk(w, h, i) && E.LeaderOk(w, h, w.servers[i].currentTerm);
    L.StartGrows(w, h, w', h', i, command);
  }

  lemma ClientStartKeeps(w: World, h: History, g: Acks, w': World, h': History, g': Acks, i: nat, command: string)
    requires Stepped(w, h, g, w', h', g', ClientStart(i, command))
    ensures Inv(w', h', g')
  {
    var s := w.servers[i];
    if s.state == Leader {
      ClientStartGrows(w, h, g, w', h', g', i, command);
      GrowsKeeps(w, h, g, w', h', g', i, s.currentTerm, LogItem(command, s.currentTerm, LastIndex(s.log) + 1));
    } else {
      QuietKeeps(w, h, g, w', h');
    }
  }

  lemma VoteRepliedKeeps(w: World, h: History, g: Acks, w': World, h': History, g': Acks, call: nat)
    requires Stepped(w, h, g, w', h', g', VoteReplied(call))
    ensures Inv(w', h', g')
  {
    var i := w.calls[call].from;
    if E.Wins(w, w', i) {
      WinIsNewLeader(w, h, g, w', h', g', call);
      NewLeaderKeeps(w, h, g, w', h', g', i, w.servers[i].currentTerm, h'.counted[i]);
    } else {
      NotWon(w, h, w', h', call);
      QuietKeeps(w, h, g, w', h');
    }
  }

  lemma NotWon(w: World, h: History, w': World, h': History, call: nat)
    requires E.Stepped(w, h, w', h', VoteReplied(call)) && !E.Wins(w, w', w.calls[call].from)
    ensures Quiet(w, h, w', h') && h'.votes == h.votes
  {
  }

  lemma AppendRepliedKeeps(w: World, h: History, g: Acks, w': World, h': History, call: nat)
    requires Stepped(w, h, g, w', h', g, AppendReplied(call))
    ensures Inv(w', h', g)
  {
    var c := w.calls[call];
    assert E.ServerOk(w, h, c.from);
    E.AppendReplyFields(w.servers[c.from], c.dest, c.aargs, c.areply.value);
    QuietKeeps(w, h, g, w', h');
  }

  lemma OtherKeeps(w: World, h: History, g: Acks, w': World, h': History, e: Event)
    requires Stepped(w, h, g, w', h', g, e) && (e.SendAppend? || e.Crash? || e.Lose?)
    ensures Inv(w', h', g)
  {
    assert e.Crash? ==> E.ServerOk(w, h, e.i);
    QuietKeeps(w, h, g, w', h');
  }

  /** Every careful step keeps what servers have taken safe. */
  lemma StepKeepsInv(w: World, h: History, g: Acks, e: Event)
    requires AllInv(w, h, g) && CanStep(w, e) && CarefulCut(w, e)
    ensures AllInv(Step(w, e), HistStep(w, h, e), AckStep(w, h, g, e))
  {
    var w', h', g' := Step(w, e), HistStep(w, h, e), AckStep(w, h, g, e);
    E.StepKeepsInv(w, h, e);
    L.StepKeepsLogInv(w, h, e);
    match e
    case Timeout(i) =>
      TimeoutStands(w, h, g, w', h', g', i);
      StandsKeeps(w, h, g, w', h', g', i);
    case HandleVote(call) => HandleVoteKeeps(w, h, g, w', h', call);
    case VoteReplied(call) => VoteRepliedKeeps(w, h, g, w', h', g', call);
    case HandleAppend(call) => HandleAppendKeeps(w, h, g, w', h', g', call);
    case AppendReplied(call) => AppendRepliedKeeps(w, h, g, w', h', call);
    case ClientStart(i, command) => ClientStartKeeps(w, h, g, w', h', g', i, command);
    case _ => OtherKeeps(w, h, g, w', h', e);
  }

  lemma InitInv(n: nat)
    ensures AllInv(Init(n), HistInit(n), NO_ACKS)
  {
    E.InitInv(n);
    L.InitLogInv(n);
  }

  // ---------- What half of the servers have taken, every later leader has ----------

  ghost function Takers(g: Acks, n: nat, t: int, m: nat): (r: set<nat>)
  {
    set v | v in Below(n) && m <= Taken(g, v, t)
  }

  /** At least half of the servers have taken the log of the leader of term t up to index m, an item
      of that term. */
  ghost predicate Chosen(h: History, g: Acks, n: nat, t: int, m: nat)
  {
    && 1 <= t && t in h.logs && m < |h.logs[t]| && h.logs[t][m].term == t
    && 2 * |Takers(g, n, t, m)| >= n
  }

  /** Half of the servers and the electors of a leader have a server in common. */
  lemma HalfMeetsMajority(a: set<nat>, b: set<nat>, n: nat) returns (v: nat)
    requires a <= Below(n) && b <= Below(n) && 2 * |a| >= n && |b| >= Majority(n)
    ensures v in a && v in b
  {
    SubsetCardinality(a + b, Below(n));
    assert |a + b| == |a| + |b| - |a * b|;
    assert a * b != {};
    v :| v in a * b;
  }

  /** Leader Completeness: what is chosen in a term is in the log of every later leader. */
  lemma {:induction false} LeaderCompleteness(w: World, h: History, g: Acks, t: int, m: nat, u: int)
    requires AllInv(w, h, g) && Chosen(h, g, |w.servers|, t, m) && t <= u && u in h.logs
    ensures Upto(h, t, m) <= h.logs[u]
    decreases u - t
  {
    if t < u {
      assert StartOk(w, h, g, u);
      forall x | t < x < u && x in g.starts ensures Upto(h, t, m) <= g.starts[x] {
        LeaderCompleteness(w, h, g, t, m, x);
        StartsWithIt(w, h, g, t, m, x);
      }
      var v := HalfMeetsMajority(Takers(g, |w.servers|, t, m), g.electors[u], |w.servers|);
      assert ElectorOk(h, g, v, u, t, m);
      assert Reached(h, g, v, t, m);
    }
  }

  /** The leader of a later term has it from the start. */
  lemma StartsWithIt(w: World, h: History, g: Acks, t: int, m: nat, u: int)
    requires RecordsOk(w, h, g) && u in g.starts && t < u && 1 <= t && t in h.logs && m < |h.logs[t]|
    requires h.logs[t][m].term == t && u in h.logs && Upto(h, t, m) <= h.logs[u]
    ensures Upto(h, t, m) <= g.starts[u]
  {
    assert StartOk(w, h, g, u);
    assert h.logs[u][m] == Upto(h, t, m)[m] == h.logs[t][m];
  }
}
