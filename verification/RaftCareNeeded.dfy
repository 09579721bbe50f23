/** How much care State Machine Safety and Leader Completeness take: both kinds, and no more. */
module RaftCareNeeded {
  import opened RaftServer
  import opened RaftProtocol
  import opened RaftCareful
  import RaftSafety
  import RaftUnsafe
  import RaftOldTerms

  /** What servers have applied at the same index, in w and in w', is the same. */
  ghost predicate Agree(w: World, w': World)
  {
    forall i, j, a, b ::
      && 0 <= i < |w.servers| && a in w.servers[i].applied
      && 0 <= j < |w'.servers| && b in w'.servers[j].applied
      && a.commandIndex == b.commandIndex
      ==> a == b
  }

  /** State Machine Safety of all runs with this care. */
  ghost predicate SafeWith(care: Care)
  {
    forall n, es, w, later, w' ::
      GoesWith(care, Init(n), es, w) && GoesWith(care, w, later, w') ==> Agree(w, w')
  }

  /** Servers never apply different commands at one index, whatever the number of servers and
      however they crash and messages are delayed, exactly if they are careful both in what they
      cut off and in what they commit. */
  lemma SafeIffFullCare(care: Care)
    ensures SafeWith(care) <==> care.FullCare?
  {
    if care.FullCare? {
      forall n, es, w, later, w' | GoesWith(care, Init(n), es, w) && GoesWith(care, w, later, w') ensures Agree(w, w') {
        CarefulAgree(n, es, w, later, w');
      }
    } else if RaftUnsafe.CutsFreely(care) {
      var es, w := RaftUnsafe.StateMachineSafetyCanFail(care);
      NotSafe(care, 3, es, w, RaftUnsafe.MSG_A, RaftUnsafe.MSG_X);
    } else {
      var es, w := RaftOldTerms.StateMachineSafetyCanFail(care);
      NotSafe(care, 3, es, w, RaftOldTerms.APPLY_A, RaftOldTerms.APPLY_B);
    }
  }

  lemma CarefulAgree(n: nat, es: seq<Event>, w: World, later: seq<Event>, w': World)
    requires GoesWith(FullCare, Init(n), es, w) && GoesWith(FullCare, w, later, w')
    ensures Agree(w, w')
  {
    forall i, j, a, b |
      && 0 <= i < |w.servers| && a in w.servers[i].applied
      && 0 <= j < |w'.servers| && b in w'.servers[j].applied
      && a.commandIndex == b.commandIndex
      ensures a == b
    {
      RaftSafety.StateMachineSafety(n, es, w, later, w', i, j, a, b);
    }
  }

  lemma NotSafe(care: Care, n: nat, es: seq<Event>, w: World, a: ApplyMsg, b: ApplyMsg)
    requires GoesWith(care, Init(n), es, w) && |w.servers| >= 2
    requires a in w.servers[0].applied && b in w.servers[1].applied && a.commandIndex == b.commandIndex && a != b
    ensures !SafeWith(care)
  {
    assert GoesWith(care, w, [], w) && !Agree(w, w);
  }

  // ---------- Leader Completeness ----------

  /** The item that the message is about is in the log. */
  ghost predicate InLog(log: seq<LogItem>, a: ApplyMsg)
  {
    Contiguous(log) && HasIndex(log, a.commandIndex) && a == RaftSafety.MsgOf(ItemAt(log, a.commandIndex))
  }

  /** What servers have applied in w is in the logs of the leaders in w' whose terms are not older
      than the servers' were. */
  ghost predicate LeadersHave(w: World, w': World)
  {
    forall i, j, a ::
      && 0 <= i < |w.servers| && a in w.servers[i].applied
      && 0 <= j < |w'.servers| && w'.servers[j].state == Leader
      && w.servers[i].currentTerm <= w'.servers[j].currentTerm
      ==> InLog(w'.servers[j].log, a)
  }

  /** Leader Completeness of all runs with this care. */
  ghost predicate CompleteWith(care: Care)
  {
    forall n, es, w, later, w' ::
      GoesWith(care, Init(n), es, w) && GoesWith(care, w, later, w') ==> LeadersHave(w, w')
  }

  /** Leaders never lack what has been applied, exactly with the same care. */
  lemma CompleteIffFullCare(care: Care)
    ensures CompleteWith(care) <==> care.FullCare?
  {
    if care.FullCare? {
      forall n, es, w, later, w' | GoesWith(care, Init(n), es, w) && GoesWith(care, w, later, w')
        ensures LeadersHave(w, w')
      {
        CarefulLeadersHave(n, es, w, later, w');
      }
    } else if RaftUnsafe.CutsFreely(care) {
      var es, w := RaftUnsafe.StateMachineSafetyCanFail(care);
      NotComplete(care, 3, es, w, RaftUnsafe.MSG_A);
    } else {
      var es, w := RaftOldTerms.StateMachineSafetyCanFail(care);
      NotComplete(care, 3, es, w, RaftOldTerms.APPLY_A);
    }
  }

  lemma CarefulLeadersHave(n: nat, es: seq<Event>, w: World, later: seq<Event>, w': World)
    requires GoesWith(FullCare, Init(n), es, w) && GoesWith(FullCare, w, later, w')
    ensures LeadersHave(w, w')
  {
    forall i, j, a |
      && 0 <= i < |w.servers| && a in w.servers[i].applied
      && 0 <= j < |w'.servers| && w'.servers[j].state == Leader
      && w.servers[i].currentTerm <= w'.servers[j].currentTerm
      ensures InLog(w'.servers[j].log, a)
    {
      RaftSafety.LeaderCompleteness(n, es, w, later, w', i, j, a);
    }
  }

  lemma NotComplete(care: Care, n: nat, es: seq<Event>, w: World, a: ApplyMsg)
    requires GoesWith(care, Init(n), es, w) && |w.servers| >= 2
    requires a in w.servers[0].applied && w.servers[1].state == Leader
    requires w.servers[0].currentTerm <= w.servers[1].currentTerm && !InLog(w.servers[1].log, a)
    ensures !CompleteWith(care)
  {
    assert GoesWith(care, w, [], w) && !LeadersHave(w, w);
  }
}
