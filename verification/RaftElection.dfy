/** Election Safety: at most one server ever becomes leader in a term, over whole runs. */
module RaftElection {
  import opened Collections
  import opened Wrappers
  import opened RaftServer
  import opened RaftProtocol

  ghost predicate VotedFor(h: History, voter: nat, term: int, candidate: nat)
  {
    (voter, term) in h.votes && h.votes[(voter, term)] == candidate
  }

  ghost function Voters(h: History, n: nat, term: int, candidate: nat): (r: set<nat>)
    ensures forall j :: j in r <==> 0 <= j < n && VotedFor(h, j, term, candidate)
  {
    set j | j in Below(n) && VotedFor(h, j, term, candidate)
  }

  // ---------- The invariant ----------

  ghost predicate ServerOk(w: World, h: History, i: nat)
    requires Shape(w) && i < |w.servers| && |h.counted| == |w.servers|
  {
    var s := w.servers[i];
    && s.n == |w.servers| && s.me == i
    && s.disk == PersistState(s.currentTerm, s.voteFor, s.log)
    && 0 <= s.currentTerm && -1 <= s.voteFor
    && (s.voteFor >= 0 ==> VotedFor(h, i, s.currentTerm, s.voteFor))
    && (s.voteFor == -1 ==> (i, s.currentTerm) !in h.votes)
    && (forall t :: t > s.currentTerm ==> (i, t) !in h.votes)
    && 0 <= s.voteCount <= |h.counted[i]|
    && (forall j :: j in h.counted[i] ==> j < |w.servers| && VotedFor(h, j, s.currentTerm, i))
    && (s.state == Leader ==> s.currentTerm in h.leaders && h.leaders[s.currentTerm] == i)
  }

  ghost predicate VoteCallOk(w: World, h: History, id: nat)
    requires Shape(w) && |h.counted| == |w.servers| && id in w.calls && w.calls[id].VoteCall?
  {
    var c := w.calls[id];
    && c.from < |w.servers| && c.dest < |w.servers| && c.from != c.dest
    && c.life <= w.lives[c.from]
    && c.vargs.candidateId == c.from && 1 <= c.vargs.term <= w.servers[c.from].currentTerm
    && (c.vreply.Some? && c.vreply.value.voteGranted ==>
          c.vreply.value.term == c.vargs.term && VotedFor(h, c.dest, c.vargs.term, c.from))
    && (c.vargs.term == w.servers[c.from].currentTerm && c.life == w.lives[c.from] ==> c.dest !in h.counted[c.from])
  }

  ghost predicate SameBallot(c: Call, d: Call)
  {
    c.VoteCall? && d.VoteCall? && c.from == d.from && c.dest == d.dest && c.vargs.term == d.vargs.term
  }

  /** No vote of the current life of server i in this term is on its way. */
  ghost predicate NoBallots(w: World, i: nat, term: int)
    requires Shape(w) && i < |w.servers|
  {
    forall id :: id in w.calls && w.calls[id].VoteCall? && w.calls[id].from == i && w.calls[id].vargs.term == term ==>
      w.calls[id].life != w.lives[i]
  }

  ghost predicate LeaderOk(w: World, h: History, t: int)
    requires Shape(w) && t in h.leaders
  {
    var i := h.leaders[t];
    && i < |w.servers| && 1 <= t <= w.servers[i].currentTerm
    && |Voters(h, |w.servers|, t, i)| >= Majority(|w.servers|)
    && (t == w.servers[i].currentTerm && w.servers[i].state != Leader ==>
          w.servers[i].voteCount == 0 && NoBallots(w, i, t))
  }

  ghost predicate Inv(w: World, h: History)
  {
    && Shape(w) && |h.counted| == |w.servers|
    && (forall i {:trigger ServerOk(w, h, i)} :: 0 <= i < |w.servers| ==> ServerOk(w, h, i))
    && (forall id :: id in w.calls ==> id < w.nextCall)
    && (forall id {:trigger VoteCallOk(w, h, id)} :: id in w.calls && w.calls[id].VoteCall? ==> VoteCallOk(w, h, id))
    && (forall a, b :: a in w.calls && b in w.calls && SameBallot(w.calls[a], w.calls[b]) ==> a == b)
    && (forall t {:trigger LeaderOk(w, h, t)} :: t in h.leaders ==> LeaderOk(w, h, t))
  }

  // ---------- Steps that cast and count no votes ----------

  datatype Change = Same | StepDown | Restart

  /** What a quiet step may do to server i. */
  ghost predicate QuietServer(w: World, h: History, w': World, h': History, i: nat, change: Change)
    requires Shape(w) && Shape(w') && |w'.servers| == |w.servers| == |h.counted| == |h'.counted| && i < |w.servers|
  {
    var s, s' := w.servers[i], w'.servers[i];
    && s'.n == s.n && s'.me == s.me
    && s'.disk == PersistState(s'.currentTerm, s'.voteFor, s'.log)
    && match change
       case Same =>
         && s'.currentTerm == s.currentTerm && s'.voteFor == s.voteFor
         && s'.state == s.state && s'.voteCount == s.voteCount
         && h'.counted[i] == h.counted[i] && w'.lives[i] == w.lives[i]
       case StepDown =>
         && s'.currentTerm > s.currentTerm && s'.voteFor == -1 && s'.state == Follower && s'.voteCount == 0
         && h'.counted[i] == {} && w'.lives[i] == w.lives[i]
       case Restart =>
         && s'.currentTerm == s.currentTerm && s'.voteFor == s.voteFor && s'.state == Follower && s'.voteCount == 0
         && h'.counted[i] == {} && w'.lives[i] == w.lives[i] + 1
  }

  /** Vote calls may disappear or be answered with a refusal. */
  ghost predicate QuietCalls(w: World, w': World)
  {
    && (forall id :: id in w'.calls ==> id < w'.nextCall)
    && (forall id :: id in w'.calls && w'.calls[id].VoteCall? ==>
         && id in w.calls && w.calls[id].VoteCall?
         && w'.calls[id] == w.calls[id].(vreply := w'.calls[id].vreply)
         && (w'.calls[id].vreply == w.calls[id].vreply
             || (w'.calls[id].vreply.Some? && !w'.calls[id].vreply.value.voteGranted)))
  }

  ghost predicate Quiet(w: World, h: History, w': World, h': History, changes: seq<Change>)
  {
    && Shape(w) && Shape(w') && |w'.servers| == |w.servers| == |h.counted| == |h'.counted| == |changes|
    && h'.votes == h.votes && h'.leaders == h.leaders
    && QuietCalls(w, w')
    && forall i {:trigger changes[i]} :: 0 <= i < |w.servers| ==> QuietServer(w, h, w', h', i, changes[i])
  }

  lemma QuietKeepsServer(w: World, h: History, w': World, h': History, i: nat, change: Change)
    requires Shape(w) && Shape(w') && |w'.servers| == |w.servers| == |h.counted| == |h'.counted| && i < |w.servers|
    requires h'.votes == h.votes && h'.leaders == h.leaders
    requires ServerOk(w, h, i) && QuietServer(w, h, w', h', i, change)
    ensures ServerOk(w', h', i)
  {
  }

  lemma QuietKeepsCall(w: World, h: History, w': World, h': History, id: nat, change: Change)
    requires Shape(w) && Shape(w') && |w'.servers| == |w.servers| == |h.counted| == |h'.counted|
    requires h'.votes == h.votes && QuietCalls(w, w') && id in w'.calls && w'.calls[id].VoteCall?
    requires VoteCallOk(w, h, id) && QuietServer(w, h, w', h', w.calls[id].from, change)
    ensures VoteCallOk(w', h', id)
  {
  }

  lemma QuietKeepsLeader(w: World, h: History, w': World, h': History, t: int, change: Change)
    requires Shape(w) && Shape(w') && |w'.servers| == |w.servers| == |h.counted| == |h'.counted|
    requires h'.votes == h.votes && h'.leaders == h.leaders && QuietCalls(w, w') && t in h.leaders
    requires LeaderOk(w, h, t) && QuietServer(w, h, w', h', h.leaders[t], change)
    requires forall id :: id in w.calls && w.calls[id].VoteCall? ==> VoteCallOk(w, h, id)
    ensures LeaderOk(w', h', t)
  {
    var i := h.leaders[t];
    assert Voters(h', |w'.servers|, t, i) == Voters(h, |w.servers|, t, i);
  }

  lemma QuietKeepsInv(w: World, h: History, w': World, h': History, changes: seq<Change>)
    requires Inv(w, h) && Quiet(w, h, w', h', changes)
    ensures Inv(w', h')
  {
    forall i | 0 <= i < |w'.servers| ensures ServerOk(w', h', i) {
      assert ServerOk(w, h, i);
      QuietKeepsServer(w, h, w', h', i, changes[i]);
    }
    forall id | id in w'.calls && w'.calls[id].VoteCall? ensures VoteCallOk(w', h', id) {
      assert VoteCallOk(w, h, id);
      QuietKeepsCall(w, h, w', h', id, changes[w.calls[id].from]);
    }
    forall t | t in h'.leaders ensures LeaderOk(w', h', t) {
      assert LeaderOk(w, h, t);
      forall id | id in w.calls && w.calls[id].VoteCall? ensures VoteCallOk(w, h, id) {
      }
      QuietKeepsLeader(w, h, w', h', t, changes[h.leaders[t]]);
    }
    forall a, b | a in w'.calls && b in w'.calls && SameBallot(w'.calls[a], w'.calls[b]) ensures a == b {
      assert SameBallot(w.calls[a], w.calls[b]);
    }
  }

  // ---------- A vote is cast ----------

  /** Only server v and the reply to its call change: v has voted for the caller. */
  ghost predicate Grant(w: World, h: History, w': World, h': History, call: nat)
  {
    && Inv(w, h) && Shape(w') && |w'.servers| == |w.servers| == |h'.counted|
    && call in w.calls && w.calls[call].VoteCall? && w.calls[call].vreply == None
    && var c := w.calls[call]; var v, t := c.dest, c.vargs.term;
       && v < |w.servers|
       && var s, s' := w.servers[v], w'.servers[v];
       && s.currentTerm == t && (s.voteFor == -1 || s.voteFor == c.from)
       && s' == Persisted(s.(voteFor := c.from))
       && w' == w.(servers := w.servers[v := s'], calls := w.calls[call := c.(vreply := Some(VoteReply(t, true)))])
       && h' == h.(votes := h.votes[(v, t) := c.from])
  }

  lemma GrantVotes(w: World, h: History, w': World, h': History, call: nat)
    requires Grant(w, h, w', h', call)
    ensures forall j, t, i :: VotedFor(h, j, t, i) ==> VotedFor(h', j, t, i)
    ensures VotedFor(h', w.calls[call].dest, w.calls[call].vargs.term, w.calls[call].from)
    ensures w.calls[call].dest < |w.servers| && w.calls[call].from < |w.servers|
  {
    assert VoteCallOk(w, h, call);
    assert ServerOk(w, h, w.calls[call].dest);
  }

  lemma VotersGrow(h: History, h': History, n: nat, t: int, i: nat)
    requires forall j, t, i :: VotedFor(h, j, t, i) ==> VotedFor(h', j, t, i)
    ensures |Voters(h, n, t, i)| <= |Voters(h', n, t, i)|
  {
    assert Voters(h, n, t, i) <= Voters(h', n, t, i);
    var a, b := Voters(h, n, t, i), Voters(h', n, t, i);
    assert b == a + (b - a);
    assert |b| == |a| + |b - a|;
  }

  lemma GrantKeepsServer(w: World, h: History, w': World, h': History, call: nat, i: nat)
    requires Grant(w, h, w', h', call) && i < |w.servers|
    ensures ServerOk(w', h', i)
  {
    GrantVotes(w, h, w', h', call);
    assert ServerOk(w, h, i);
  }

  lemma GrantKeepsCall(w: World, h: History, w': World, h': History, call: nat, id: nat)
    requires Grant(w, h, w', h', call) && id in w'.calls && w'.calls[id].VoteCall?
    ensures VoteCallOk(w', h', id)
  {
    GrantVotes(w, h, w', h', call);
    assert VoteCallOk(w, h, id);
  }

  lemma GrantKeepsLeader(w: World, h: History, w': World, h': History, call: nat, t: int)
    requires Grant(w, h, w', h', call) && t in h'.leaders
    ensures LeaderOk(w', h', t)
  {
    GrantVotes(w, h, w', h', call);
    assert LeaderOk(w, h, t);
    VotersGrow(h, h', |w.servers|, t, h.leaders[t]);
  }

  lemma GrantKeepsInv(w: World, h: History, w': World, h': History, call: nat)
    requires Grant(w, h, w', h', call)
    ensures Inv(w', h')
  {
    forall i | 0 <= i < |w'.servers| ensures ServerOk(w', h', i) {
      GrantKeepsServer(w, h, w', h', call, i);
    }
    forall id | id in w'.calls && w'.calls[id].VoteCall? ensures VoteCallOk(w', h', id) {
      GrantKeepsCall(w, h, w', h', call, id);
    }
    forall t | t in h'.leaders ensures LeaderOk(w', h', t) {
      GrantKeepsLeader(w, h, w', h', call, t);
    }
    forall a, b | a in w'.calls && b in w'.calls && SameBallot(w'.calls[a], w'.calls[b]) ensures a == b {
      assert SameBallot(w.calls[a], w.calls[b]);
    }
  }

  // ---------- A vote is counted ----------

  /** Only server i changes: it has consumed a reply of its own term. */
  ghost predicate Count(w: World, h: History, w': World, h': History, call: nat)
  {
    && Inv(w, h) && CanStep(w, VoteReplied(call))
    && w.calls[call].vreply.value.term == w.servers[w.calls[call].from].currentTerm
    && w' == Step(w, VoteReplied(call)) && h' == HistStep(w, h, VoteReplied(call))
  }

  /** A reply of the server's own term changes its term, its vote and its log in no case, and adds
      at most one vote. */
  lemma CountedServer(s: Server, reply: VoteReply)
    requires s.log != [] && s.voteCount >= 0 && reply.term == s.currentTerm
    ensures var s' := OnVoteReply(s, reply);
      && s'.currentTerm == s.currentTerm && s'.voteFor == s.voteFor && s'.log == s.log
      && 0 <= s'.voteCount <= s.voteCount + if reply.voteGranted then 1 else 0
  {
  }

  lemma CountFacts(w: World, h: History, w': World, h': History, call: nat)
    requires Count(w, h, w', h', call)
    ensures var c := w.calls[call]; var i := c.from; var s, s' := w.servers[i], w'.servers[i];
      && VoteCallOk(w, h, call) && ServerOk(w, h, i)
      && s'.currentTerm == s.currentTerm && s'.voteFor == s.voteFor && s'.log == s.log
      && (c.vreply.value.voteGranted ==> c.dest !in h.counted[i] && VotedFor(h, c.dest, s.currentTerm, i))
      && h'.counted[i] == (if c.vreply.value.voteGranted then h.counted[i] + {c.dest} else h.counted[i])
      && 0 <= s'.voteCount <= |h'.counted[i]|
      && (forall j :: j in h'.counted[i] ==> j < |w.servers| && VotedFor(h, j, s.currentTerm, i))
  {
    var c := w.calls[call];
    assert VoteCallOk(w, h, call);
    assert ServerOk(w, h, c.from);
    CountedServer(w.servers[c.from], c.vreply.value);
    assert w'.servers[c.from] == OnVoteReply(w.servers[c.from], c.vreply.value);
    if c.vreply.value.voteGranted {
      AddOne(h.counted[c.from], c.dest);
    }
  }

  lemma VotesReach(h: History, n: nat, t: int, i: nat, counted: set<nat>)
    requires forall j :: j in counted ==> j < n && VotedFor(h, j, t, i)
    ensures |counted| <= |Voters(h, n, t, i)|
  {
    SubsetCardinality(counted, Voters(h, n, t, i));
  }

  lemma WinnerHasQuorum(w: World, h: History, w': World, h': History, call: nat)
    requires Count(w, h, w', h', call)
    requires var i := w.calls[call].from; w.servers[i].state != Leader && w'.servers[i].state == Leader
    ensures var i := w.calls[call].from; var t := w.servers[i].currentTerm;
      && t >= 1 && |Voters(h, |w.servers|, t, i)| >= Majority(|w.servers|)
      && (w.servers[i].voteCount > 0 || !NoBallots(w, i, t))
  {
    CountFacts(w, h, w', h', call);
    var i := w.calls[call].from;
    VotesReach(h, |w.servers|, w.servers[i].currentTerm, i, h'.counted[i]);
  }

  /** Winning takes votes of this life, so the term has no leader yet. */
  lemma WinnerIsFirst(w: World, h: History, w': World, h': History, call: nat)
    requires Count(w, h, w', h', call)
    requires var i := w.calls[call].from; w.servers[i].state != Leader && w'.servers[i].state == Leader
    ensures var i := w.calls[call].from; var t := w.servers[i].currentTerm;
      && t >= 1
      && |Voters(h, |w.servers|, t, i)| >= Majority(|w.servers|)
      && t !in h.leaders
  {
    WinnerHasQuorum(w, h, w', h', call);
    var i := w.calls[call].from;
    var t := w.servers[i].currentTerm;
    if t in h.leaders {
      assert LeaderOk(w, h, t);
      if h.leaders[t] != i {
        QuorumsMeet(h, |w.servers|, t, i, h.leaders[t]);
      }
    }
  }

  lemma QuorumsMeet(h: History, n: nat, t: int, i: nat, k: nat)
    requires i != k
    ensures |Voters(h, n, t, i)| < Majority(n) || |Voters(h, n, t, k)| < Majority(n)
  {
    var a, b := Voters(h, n, t, i), Voters(h, n, t, k);
    assert a !! b;
    assert a + b <= Below(n);
    assert |a + b| == |a| + |b|;
    assert Below(n) == (a + b) + (Below(n) - (a + b));
    assert |Below(n)| == |a + b| + |Below(n) - (a + b)|;
  }

  ghost predicate Wins(w: World, w': World, i: nat)
    requires i < |w.servers| && i < |w'.servers|
  {
    w.servers[i].state != Leader && w'.servers[i].state == Leader
  }

  lemma CountHistory(w: World, h: History, w': World, h': History, call: nat)
    requires Count(w, h, w', h', call)
    ensures var i := w.calls[call].from; var t := w.servers[i].currentTerm;
      && h'.votes == h.votes && |h'.counted| == |h.counted|
      && h'.leaders == (if Wins(w, w', i) then h.leaders[t := i] else h.leaders)
      && (forall k :: 0 <= k < |w.servers| && k != i ==> w'.servers[k] == w.servers[k] && h'.counted[k] == h.counted[k])
      && w'.calls == w.calls - {call} && w'.lives == w.lives && w'.nextCall == w.nextCall
  {
    assert VoteCallOk(w, h, call);
  }

  /** No term changes its leader. */
  lemma LeadersGrow(w: World, h: History, w': World, h': History, call: nat)
    requires Count(w, h, w', h', call)
    ensures forall t :: t in h.leaders ==> t in h'.leaders && h'.leaders[t] == h.leaders[t]
  {
    CountHistory(w, h, w', h', call);
    if Wins(w, w', w.calls[call].from) {
      WinnerIsFirst(w, h, w', h', call);
    }
  }

  lemma CountKeepsCaller(w: World, h: History, w': World, h': History, call: nat)
    requires Count(w, h, w', h', call)
    ensures ServerOk(w', h', w.calls[call].from)
  {
    CountFacts(w, h, w', h', call);
    CountHistory(w, h, w', h', call);
    LeadersGrow(w, h, w', h', call);
  }

  lemma CountKeepsServer(w: World, h: History, w': World, h': History, call: nat, i: nat)
    requires Count(w, h, w', h', call) && i < |w.servers|
    ensures ServerOk(w', h', i)
  {
    if i == w.calls[call].from {
      CountKeepsCaller(w, h, w', h', call);
    } else {
      CountHistory(w, h, w', h', call);
      LeadersGrow(w, h, w', h', call);
      assert ServerOk(w, h, i);
    }
  }

  lemma CountKeepsCall(w: World, h: History, w': World, h': History, call: nat, id: nat)
    requires Count(w, h, w', h', call) && id in w'.calls && w'.calls[id].VoteCall?
    ensures VoteCallOk(w', h', id)
  {
    CountFacts(w, h, w', h', call);
    CountHistory(w, h, w', h', call);
    assert VoteCallOk(w, h, id);
    assert VoteCallOk(w, h, call);
    assert !SameBallot(w.calls[id], w.calls[call]);
  }

  lemma CountKeepsLeader(w: World, h: History, w': World, h': History, call: nat, t: int)
    requires Count(w, h, w', h', call) && t in h'.leaders
    ensures LeaderOk(w', h', t)
  {
    CountFacts(w, h, w', h', call);
    CountHistory(w, h, w', h', call);
    var k := w.calls[call].from;
    var term := w.servers[k].currentTerm;
    var i := h'.leaders[t];
    assert Voters(h', |w'.servers|, t, i) == Voters(h, |w.servers|, t, i);
    if Wins(w, w', k) {
      WinnerIsFirst(w, h, w', h', call);
    }
    if !(Wins(w, w', k) && t == term) {
      assert LeaderOk(w, h, t);
    }
  }

  lemma CountKeepsInv(w: World, h: History, w': World, h': History, call: nat)
    requires Count(w, h, w', h', call)
    ensures Inv(w', h')
  {
    CountHistory(w, h, w', h', call);
    forall i | 0 <= i < |w'.servers| ensures ServerOk(w', h', i) {
      CountKeepsServer(w, h, w', h', call, i);
    }
    forall id | id in w'.calls && w'.calls[id].VoteCall? ensures VoteCallOk(w', h', id) {
      CountKeepsCall(w, h, w', h', call, id);
    }
    forall t | t in h'.leaders ensures LeaderOk(w', h', t) {
      CountKeepsLeader(w, h, w', h', call, t);
    }
    forall a, b | a in w'.calls && b in w'.calls && SameBallot(w'.calls[a], w'.calls[b]) ensures a == b {
      assert SameBallot(w.calls[a], w.calls[b]);
    }
  }

  // ---------- An election starts ----------

  ghost predicate Campaign(w: World, h: History, w': World, h': History, i: nat)
  {
    && Inv(w, h) && CanStep(w, Timeout(i))
    && w' == Step(w, Timeout(i)) && h' == HistStep(w, h, Timeout(i))
  }

  lemma CampaignFacts(w: World, h: History, w': World, h': History, i: nat)
    requires Campaign(w, h, w', h', i)
    ensures var t := w.servers[i].currentTerm + 1;
      && ServerOk(w, h, i)
      && w'.servers[i] == StartElection(w.servers[i]) && w'.lives == w.lives
      && (forall k :: 0 <= k < |w.servers| && k != i ==> w'.servers[k] == w.servers[k] && h'.counted[k] == h.counted[k])
      && h'.votes == h.votes[(i, t) := i] && (i, t) !in h.votes && h'.counted[i] == {i} && h'.leaders == h.leaders
      && |h'.counted| == |h.counted| == |w'.servers| == |w.servers|
      && (forall j, t, k :: VotedFor(h, j, t, k) ==> VotedFor(h', j, t, k)) && VotedFor(h', i, t, i)
  {
    assert ServerOk(w, h, i);
  }

  lemma CampaignCalls(w: World, h: History, w': World, h': History, i: nat, id: nat)
    requires Campaign(w, h, w', h', i) && id in w'.calls && w'.calls[id].VoteCall?
    ensures id < w'.nextCall
    ensures if id < w.nextCall then id in w.calls && w'.calls[id] == w.calls[id]
            else
              var c := w'.calls[id];
              && c.from == i && c.dest == id - w.nextCall < |w.servers| && c.dest != i && c.life == w.lives[i]
              && c.vargs.term == w.servers[i].currentTerm + 1 && c.vargs.candidateId == i && c.vreply == None
  {
    CampaignFacts(w, h, w', h', i);
  }

  lemma CampaignKeepsServer(w: World, h: History, w': World, h': History, i: nat, k: nat)
    requires Campaign(w, h, w', h', i) && k < |w.servers|
    ensures ServerOk(w', h', k)
  {
    CampaignFacts(w, h, w', h', i);
    assert ServerOk(w, h, k);
  }

  lemma CampaignKeepsCall(w: World, h: History, w': World, h': History, i: nat, id: nat)
    requires Campaign(w, h, w', h', i) && id in w'.calls && w'.calls[id].VoteCall?
    ensures VoteCallOk(w', h', id)
  {
    CampaignFacts(w, h, w', h', i);
    CampaignCalls(w, h, w', h', i, id);
    if id < w.nextCall {
      assert VoteCallOk(w, h, id);
    }
  }

  lemma CampaignKeepsLeader(w: World, h: History, w': World, h': History, i: nat, t: int)
    requires Campaign(w, h, w', h', i) && t in h'.leaders
    ensures LeaderOk(w', h', t)
  {
    CampaignFacts(w, h, w', h', i);
    assert LeaderOk(w, h, t);
    var k := h.leaders[t];
    VotersGrow(h, h', |w.servers|, t, k);
    forall id | id in w'.calls && w'.calls[id].VoteCall? && w'.calls[id].from == k
                && w'.calls[id].vargs.term == t && k != i
      ensures id in w.calls && w'.calls[id] == w.calls[id]
    {
      CampaignCalls(w, h, w', h', i, id);
    }
  }

  lemma CampaignKeepsUnique(w: World, h: History, w': World, h': History, i: nat, a: nat, b: nat)
    requires Campaign(w, h, w', h', i) && a in w'.calls && b in w'.calls && SameBallot(w'.calls[a], w'.calls[b])
    ensures a == b
  {
    CampaignCalls(w, h, w', h', i, a);
    CampaignCalls(w, h, w', h', i, b);
    if a < w.nextCall {
      assert VoteCallOk(w, h, a);
    }
    if b < w.nextCall {
      assert VoteCallOk(w, h, b);
    }
    if a < w.nextCall && b < w.nextCall {
      assert SameBallot(w.calls[a], w.calls[b]);
    }
  }

  lemma CampaignKeepsInv(w: World, h: History, w': World, h': History, i: nat)
    requires Campaign(w, h, w', h', i)
    ensures Inv(w', h')
  {
    CampaignFacts(w, h, w', h', i);
    forall k | 0 <= k < |w'.servers| ensures ServerOk(w', h', k) {
      CampaignKeepsServer(w, h, w', h', i, k);
    }
    forall id | id in w'.calls && w'.calls[id].VoteCall? ensures VoteCallOk(w', h', id) {
      CampaignKeepsCall(w, h, w', h', i, id);
    }
    forall t | t in h'.leaders ensures LeaderOk(w', h', t) {
      CampaignKeepsLeader(w, h, w', h', i, t);
    }
    forall a, b | a in w'.calls && b in w'.calls && SameBallot(w'.calls[a], w'.calls[b]) ensures a == b {
      CampaignKeepsUnique(w, h, w', h', i, a, b);
    }
  }

  // ---------- Every step keeps the invariant ----------

  /** The change of one server, all others staying the same. */
  ghost function OneChange(n: nat, i: nat, change: Change): (r: seq<Change>)
    ensures |r| == n && forall k :: 0 <= k < n ==> r[k] == if k == i then change else Same
  {
    seq(n, k => if k == i then change else Same)
  }

  /** Only server i and calls that are not vote calls change. */
  lemma QuietOne(w: World, h: History, w': World, h': History, i: nat, change: Change)
    requires Inv(w, h) && i < |w.servers| && |w'.servers| == |w.servers| && Shape(w') && |h'.counted| == |h.counted|
    requires forall k :: 0 <= k < |w.servers| && k != i ==>
      w'.servers[k] == w.servers[k] && h'.counted[k] == h.counted[k] && w'.lives[k] == w.lives[k]
    requires h'.votes == h.votes && h'.leaders == h.leaders && QuietCalls(w, w')
    requires QuietServer(w, h, w', h', i, change)
    ensures Inv(w', h')
  {
    var changes := OneChange(|w.servers|, i, change);
    forall k | 0 <= k < |w.servers| ensures QuietServer(w, h, w', h', k, changes[k]) {
      assert ServerOk(w, h, k);
    }
    QuietKeepsInv(w, h, w', h', changes);
  }

  ghost predicate Stepped(w: World, h: History, w': World, h': History, e: Event)
  {
    Inv(w, h) && CanStep(w, e) && w' == Step(w, e) && h' == HistStep(w, h, e)
  }

  lemma SendAppendKeepsInv(w: World, h: History, w': World, h': History, i: nat, j: nat)
    requires Stepped(w, h, w', h', SendAppend(i, j))
    ensures Inv(w', h')
  {
    assert ServerOk(w, h, i);
    QuietOne(w, h, w', h', i, Same);
  }

  lemma HandleAppendKeepsInv(w: World, h: History, w': World, h': History, call: nat)
    requires Stepped(w, h, w', h', HandleAppend(call))
    ensures Inv(w', h')
  {
    var c := w.calls[call];
    assert ServerOk(w, h, c.dest);
    AppendEntriesFields(w.servers[c.dest], c.aargs);
    QuietOne(w, h, w', h', c.dest, if c.aargs.term > w.servers[c.dest].currentTerm then StepDown else Same);
  }

  /** AppendEntries leaves the election fields alone unless the term is new. */
  lemma AppendEntriesFields(s: Server, args: AppendArgs)
    requires Contiguous(s.log) && EntriesFit(args) && s.disk == PersistState(s.currentTerm, s.voteFor, s.log)
    ensures var s' := AppendEntries(s, args).0;
      && s'.n == s.n && s'.me == s.me && s'.disk == PersistState(s'.currentTerm, s'.voteFor, s'.log)
      && if args.term > s.currentTerm
         then s'.currentTerm == args.term && s'.voteFor == -1 && s'.state == Follower && s'.voteCount == 0
         else s'.currentTerm == s.currentTerm && s'.voteFor == s.voteFor
              && s'.state == s.state && s'.voteCount == s.voteCount
  {
  }

  lemma AppendReplyFields(s: Server, j: nat, args: AppendArgs, reply: AppendReply)
    requires Contiguous(s.log) && !AppendReplyPanics(s, j, args, reply)
    requires s.disk == PersistState(s.currentTerm, s.voteFor, s.log)
    ensures var s' := OnAppendReply(s, j, args, reply);
      && s'.n == s.n && s'.me == s.me && s'.disk == PersistState(s'.currentTerm, s'.voteFor, s'.log) && s'.log == s.log
      && if reply.term > s.currentTerm
         then s'.currentTerm == reply.term && s'.voteFor == -1 && s'.state == Follower && s'.voteCount == 0
         else s'.currentTerm == s.currentTerm && s'.voteFor == s.voteFor
              && s'.state == s.state && s'.voteCount == s.voteCount
  {
  }

  lemma AppendRepliedKeepsInv(w: World, h: History, w': World, h': History, call: nat)
    requires Stepped(w, h, w', h', AppendReplied(call))
    ensures Inv(w', h')
  {
    var c := w.calls[call];
    assert ServerOk(w, h, c.from);
    AppendReplyFields(w.servers[c.from], c.dest, c.aargs, c.areply.value);
    QuietOne(w, h, w', h', c.from, if c.areply.value.term > w.servers[c.from].currentTerm then StepDown else Same);
  }

  lemma ClientStartKeepsInv(w: World, h: History, w': World, h': History, i: nat, command: string)
    requires Stepped(w, h, w', h', ClientStart(i, command))
    ensures Inv(w', h')
  {
    assert ServerOk(w, h, i);
    QuietOne(w, h, w', h', i, Same);
  }

  lemma CrashKeepsInv(w: World, h: History, w': World, h': History, i: nat)
    requires Stepped(w, h, w', h', Crash(i))
    ensures Inv(w', h')
  {
    assert ServerOk(w, h, i);
    QuietOne(w, h, w', h', i, Restart);
  }

  lemma LoseKeepsInv(w: World, h: History, w': World, h': History, call: nat)
    requires Stepped(w, h, w', h', Lose(call))
    ensures Inv(w', h')
  {
    var changes := OneChange(|w.servers|, 0, Same);
    forall k | 0 <= k < |w.servers| ensures QuietServer(w, h, w', h', k, changes[k]) {
      assert ServerOk(w, h, k);
    }
    QuietKeepsInv(w, h, w', h', changes);
  }

  lemma VoteRepliedKeepsInv(w: World, h: History, w': World, h': History, call: nat)
    requires Stepped(w, h, w', h', VoteReplied(call))
    ensures Inv(w', h')
  {
    var c := w.calls[call];
    assert ServerOk(w, h, c.from);
    if c.vreply.value.term == w.servers[c.from].currentTerm {
      CountKeepsInv(w, h, w', h', call);
    } else {
      QuietOne(w, h, w', h', c.from, if c.vreply.value.term > w.servers[c.from].currentTerm then StepDown else Same);
    }
  }

  /** The server as it is when it decides on the vote: it has stepped down if the term is new. */
  ghost function Advanced(s: Server, term: int): (r: Server)
  {
    if term > s.currentTerm then Persisted(BecomeFollower(s, term)) else s
  }

  lemma AdvanceKeepsInv(w: World, h: History, v: nat, term: int)
    requires Inv(w, h) && v < |w.servers|
    ensures var s1 := Advanced(w.servers[v], term);
      Inv(w.(servers := w.servers[v := s1]), NewTerm(h, v, w.servers[v], s1))
  {
    var s := w.servers[v];
    var s1 := Advanced(s, term);
    assert ServerOk(w, h, v);
    QuietOne(w, h, w.(servers := w.servers[v := s1]), NewTerm(h, v, s, s1), v,
             if term > s.currentTerm then StepDown else Same);
  }

  lemma VoteGranted(w: World, h: History, w': World, h': History, call: nat)
    requires Stepped(w, h, w', h', HandleVote(call)) && w'.calls[call].vreply.value.voteGranted
    ensures var v := w.calls[call].dest; var s1 := Advanced(w.servers[v], w.calls[call].vargs.term);
      Inv(w.(servers := w.servers[v := s1]), NewTerm(h, v, w.servers[v], s1)) ==>
        Grant(w.(servers := w.servers[v := s1]), NewTerm(h, v, w.servers[v], s1), w', h', call)
  {
    var c := w.calls[call];
    assert ServerOk(w, h, c.dest);
    assert VoteCallOk(w, h, call);
    var s1 := Advanced(w.servers[c.dest], c.vargs.term);
    assert w.servers[c.dest := s1][c.dest := w'.servers[c.dest]] == w'.servers;
  }

  lemma VoteRefused(w: World, h: History, w': World, h': History, call: nat)
    requires Stepped(w, h, w', h', HandleVote(call)) && !w'.calls[call].vreply.value.voteGranted
    ensures Inv(w', h')
  {
    var c := w.calls[call];
    assert ServerOk(w, h, c.dest);
    QuietOne(w, h, w', h', c.dest, if c.vargs.term > w.servers[c.dest].currentTerm then StepDown else Same);
  }

  lemma HandleVoteKeepsInv(w: World, h: History, w': World, h': History, call: nat)
    requires Stepped(w, h, w', h', HandleVote(call))
    ensures Inv(w', h')
  {
    var c := w.calls[call];
    var s := w.servers[c.dest];
    if w'.calls[call].vreply.value.voteGranted {
      var s1 := Advanced(s, c.vargs.term);
      AdvanceKeepsInv(w, h, c.dest, c.vargs.term);
      VoteGranted(w, h, w', h', call);
      GrantKeepsInv(w.(servers := w.servers[c.dest := s1]), NewTerm(h, c.dest, s, s1), w', h', call);
    } else {
      VoteRefused(w, h, w', h', call);
    }
  }

  lemma StepKeepsInv(w: World, h: History, e: Event)
    requires Inv(w, h) && CanStep(w, e)
    ensures Inv(Step(w, e), HistStep(w, h, e))
  {
    var w', h' := Step(w, e), HistStep(w, h, e);
    match e
    case Timeout(i) => CampaignKeepsInv(w, h, w', h', i);
    case HandleVote(call) => HandleVoteKeepsInv(w, h, w', h', call);
    case VoteReplied(call) => VoteRepliedKeepsInv(w, h, w', h', call);
    case SendAppend(i, j) => SendAppendKeepsInv(w, h, w', h', i, j);
    case HandleAppend(call) => HandleAppendKeepsInv(w, h, w', h', call);
    case AppendReplied(call) => AppendRepliedKeepsInv(w, h, w', h', call);
    case ClientStart(i, command) => ClientStartKeepsInv(w, h, w', h', i, command);
    case Crash(i) => CrashKeepsInv(w, h, w', h', i);
    case Lose(call) => LoseKeepsInv(w, h, w', h', call);
  }

  // ---------- Whole runs ----------

  lemma InitInv(n: nat)
    ensures Inv(Init(n), HistInit(n))
  {
    var w, h := Init(n), HistInit(n);
    forall i | 0 <= i < n ensures ServerOk(w, h, i) {
    }
  }

  /** A later state of the same run remembers every leader. */
  lemma LeadersRemembered(w: World, h: History, e: Event)
    requires Inv(w, h) && CanStep(w, e)
    ensures forall t :: t in h.leaders ==>
      t in HistStep(w, h, e).leaders && HistStep(w, h, e).leaders[t] == h.leaders[t]
  {
    if e.VoteReplied? && w.calls[e.call].vreply.value.term == w.servers[w.calls[e.call].from].currentTerm {
      LeadersGrow(w, h, Step(w, e), HistStep(w, h, e), e.call);
    }
  }

  /** es continues from (w, h) to (w', h'). */
  ghost predicate Continues(w: World, h: History, es: seq<Event>, w': World, h': History)
    decreases |es|
  {
    if es == [] then w' == w && h' == h
    else CanStep(w, es[0]) && |h.counted| == |w.servers|
         && Continues(Step(w, es[0]), HistStep(w, h, es[0]), es[1..], w', h')
  }

  lemma {:induction false} LeadersStay(w: World, h: History, es: seq<Event>, w': World, h': History)
    requires Inv(w, h) && Continues(w, h, es, w', h')
    ensures Inv(w', h') && |w'.servers| == |w.servers|
    ensures forall t :: t in h.leaders ==> t in h'.leaders && h'.leaders[t] == h.leaders[t]
    decreases |es|
  {
    if es != [] {
      StepKeepsInv(w, h, es[0]);
      LeadersRemembered(w, h, es[0]);
      LeadersStay(Step(w, es[0]), HistStep(w, h, es[0]), es[1..], w', h');
    }
  }

  /** Every run has a history. */
  lemma {:induction false} HasHistory(w: World, h: History, es: seq<Event>, w': World) returns (h': History)
    requires Inv(w, h) && Goes(w, es, w')
    ensures Continues(w, h, es, w', h')
    decreases |es|
  {
    if es == [] {
      h' := h;
    } else {
      StepKeepsInv(w, h, es[0]);
      h' := HasHistory(Step(w, es[0]), HistStep(w, h, es[0]), es[1..], w');
    }
  }

  /** Election Safety: if server i is leader of a term at some point of a run, and server j
      is leader of the same term at that or any later point, then i is j.  Servers may have
      crashed and restarted, and messages may have been delayed or lost, in between. */
  lemma ElectionSafety(n: nat, es: seq<Event>, w: World, later: seq<Event>, w': World, i: nat, j: nat)
    requires Goes(Init(n), es, w) && Goes(w, later, w')
    requires i < |w.servers| && w.servers[i].state == Leader
    requires j < |w'.servers| && w'.servers[j].state == Leader
    requires w.servers[i].currentTerm == w'.servers[j].currentTerm
    ensures i == j
  {
    InitInv(n);
    var h := HasHistory(Init(n), HistInit(n), es, w);
    LeadersStay(Init(n), HistInit(n), es, w, h);
    var h' := HasHistory(w, h, later, w');
    LeadersStay(w, h, later, w', h');
    assert ServerOk(w, h, i);
    assert ServerOk(w', h', j);
  }

  /** Elections can be won: three events make server 0 of three the leader of term 1. */
  lemma ElectionCanBeWon() returns (es: seq<Event>, w: World)
    ensures Goes(Init(3), es, w) && |w.servers| == 3
    ensures w.servers[0].state == Leader && w.servers[0].currentTerm == 1
  {
    var w0 := Init(3);
    var w1 := Step(w0, Timeout(0));
    assert w1.calls[1] == VoteCall(0, 1, 0, VoteArgs(1, 0, 0, 0), None);
    var w2 := Step(w1, HandleVote(1));
    assert w2.calls[1].vreply == Some(VoteReply(1, true));
    assert CanStep(w2, VoteReplied(1));
    w := Step(w2, VoteReplied(1));
    es := [Timeout(0), HandleVote(1), VoteReplied(1)];
    assert es[1..] == [HandleVote(1), VoteReplied(1)] && es[1..][1..] == [VoteReplied(1)] && es[1..][1..][1..] == [];
    assert Goes(w2, es[1..][1..], w);
    assert Goes(w1, es[1..], w);
  }
}
