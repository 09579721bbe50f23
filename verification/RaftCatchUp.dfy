/** From every reachable state a leader can bring a follower up to date. */
module RaftCatchUp {
  import opened RaftServer
  import opened RaftProtocol
  import opened RaftBackoff
  import opened RaftExchanges
  import RaftLogs
  import RaftReplies

  lemma LeaderLeads(n: nat, es: seq<Event>, w: World, i: nat, j: nat)
    requires Goes(Init(n), es, w) && CanStep(w, SendAppend(i, j))
    requires w.servers[j].currentTerm <= w.servers[i].currentTerm
    ensures Leads(w.servers[i], w.servers[j], j)
    ensures i != j && i < |w.servers| && j < |w.servers| && j < |w.servers[i].nextIndex|
    ensures DummyIndex(w.servers[i].log) == 0 && Prev(w.servers[i], j) == w.servers[i].nextIndex[j] - 1
  {
    var h := RaftReplies.ReachesInv(n, es, w);
    assert RaftReplies.E.ServerOk(w, h, i) && RaftReplies.IndexesOk(w, i);
    assert RaftLogs.ServerLogOk(w, h, i) && RaftLogs.ServerLogOk(w, h, j);
    var a, b := w.servers[j].log, w.servers[i].log;
    forall k | 0 <= k < |a| && k < |b| && a[k].term == b[k].term ensures a[..k + 1] == b[..k + 1] {
      RaftLogs.SameUpTo(h, a, b, k);
    }
  }

  lemma Located(w: World, i: nat, j: nat)
    requires Stage(w, i, j) && Done(w, i, j) && DummyIndex(w.servers[i].log) == 0
    ensures var s, f := w.servers[i], w.servers[j];
      f.log == s.log && s.state == Leader && j < |s.matchIndex| && s.matchIndex[j] == |s.log| - 1
  {
  }

  /** In every reachable state, if a leader can send to a server that is not ahead of it in terms,
      then k + 1 exchanges of three steps each bring that server up to date, where the next index
      that the leader keeps for it is at most 2^k; the leader's log stays as it is. */
  lemma CanCatchUp(n: nat, es: seq<Event>, w: World, i: nat, j: nat, k: nat) returns (later: seq<Event>, w': World)
    requires Goes(Init(n), es, w) && CanStep(w, SendAppend(i, j))
    requires w.servers[j].currentTerm <= w.servers[i].currentTerm && w.servers[i].nextIndex[j] <= Doubled(1, k)
    ensures Goes(w, later, w') && |later| == 3 * (k + 1) && OnlyThese(w, w', i, j)
    ensures w'.servers[j].log == w'.servers[i].log && w'.servers[i].state == Leader
    ensures j < |w'.servers[i].matchIndex| && w'.servers[i].matchIndex[j] == |w'.servers[i].log| - 1
  {
    LeaderLeads(n, es, w, i, j);
    NearIf(w.servers[i], j, k);
    later, w' := CatchesUp(w, i, j, k);
    Located(w', i, j);
  }
}
