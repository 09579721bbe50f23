/** How a leader finds out what a follower is missing: each refusal makes it go back twice as far
    as the time before, so that a follower is brought up to date in a logarithmic number of
    exchanges. */
module RaftBackoff {
  import opened RaftServer
  import RaftLogFacts

  /** x doubled k times. */
  function Doubled(x: nat, k: nat): (r: nat)
  {
    if k == 0 then x else 2 * Doubled(x, k - 1)
  }

  lemma {:induction false} DoubledMore(x: nat, y: nat, k: nat)
    requires x <= y
    ensures Doubled(y, k) - Doubled(x, k) >= y - x
  {
    if k > 0 {
      DoubledMore(x, y, k - 1);
    }
  }

  lemma {:induction false} DoubledTwice(x: nat, k: nat)
    ensures Doubled(2 * x, k) == Doubled(x, k + 1)
  {
    if k > 0 {
      DoubledTwice(x, k - 1);
    }
  }

  /** The index after which the next request to j starts. */
  function Prev(s: Server, j: nat): (r: int)
    requires CanSendAppend(s, j)
  {
    AppendArgsFor(s, j).prevLogIndex
  }

  /** How many entries it carries. */
  function Carried(s: Server, j: nat): (r: nat)
    requires CanSendAppend(s, j)
  {
    |AppendArgsFor(s, j).entries|
  }

  /** What the leader becomes when j refuses, in the leader's own term, the request it is sent. */
  function Refused(s: Server, j: nat): (r: Server)
    requires CanSendAppend(s, j) && j < |s.matchIndex|
  {
    OnAppendReply(s, j, AppendArgsFor(s, j), AppendReply(s.currentTerm, false))
  }

  /** The leader is the same except for what it knows of j's log. */
  ghost predicate SameButFor(s: Server, s': Server, j: nat)
  {
    && s' == s.(nextIndex := s'.nextIndex) && |s'.nextIndex| == |s.nextIndex|
    && forall k :: 0 <= k < |s.nextIndex| && k != j ==> s'.nextIndex[k] == s.nextIndex[k]
  }

  /** After a refusal the next request starts strictly earlier and carries twice as many entries
      and one more, or all that the log has; a request that starts right after the dummy cannot
      start earlier, and j is passed over from then on. */
  lemma GoesBack(s: Server, j: nat)
    requires CanSendAppend(s, j) && j < |s.matchIndex|
    ensures SameButFor(s, Refused(s, j), j)
    ensures Prev(s, j) == DummyIndex(s.log) ==> Refused(s, j).nextIndex[j] - 1 < DummyIndex(s.log)
    ensures Prev(s, j) > DummyIndex(s.log) ==>
      && CanSendAppend(Refused(s, j), j)
      && Prev(Refused(s, j), j) < Prev(s, j)
      && Carried(Refused(s, j), j) == Min(2 * Carried(s, j) + 1, LastIndex(s.log) - DummyIndex(s.log))
      && Prev(Refused(s, j), j) + Carried(Refused(s, j), j) == LastIndex(s.log)
  {
  }

  // ---------- Any number of refusals, with commands in between ----------

  datatype Turn = Refusal | Accept(command: string)

  /** The leader after these turns; a request that starts right after the dummy is not refused. */
  ghost predicate Turns(s: Server, j: nat, turns: seq<Turn>, s': Server)
    requires s.log != []
    decreases |turns|
  {
    if turns == [] then s' == s
    else
      CanSendAppend(s, j) && j < |s.matchIndex| && s.me < |s.matchIndex| &&
      match turns[0]
      case Refusal => Prev(s, j) > DummyIndex(s.log) && Turns(Refused(s, j), j, turns[1..], s')
      case Accept(command) => Turns(RaftServer.Start(s, command).0, j, turns[1..], s')
  }

  function Refusals(turns: seq<Turn>): (k: nat)
  {
    if turns == [] then 0 else (if turns[0].Refusal? then 1 else 0) + Refusals(turns[1..])
  }

  /** A new command is carried by the next request as well. */
  lemma AcceptCarries(s: Server, j: nat, command: string)
    requires CanSendAppend(s, j) && j < |s.matchIndex| && s.me < |s.matchIndex|
    ensures var s' := RaftServer.Start(s, command).0;
      && CanSendAppend(s', j) && Prev(s', j) == Prev(s, j) && Carried(s', j) == Carried(s, j) + 1
      && s.log < s'.log && |s'.matchIndex| == |s.matchIndex| && s'.me == s.me && s'.currentTerm == s.currentTerm
  {
  }

  /** How far a leader has gone back for j after k refusals: its requests start right after the
      dummy, or they have grown to at least twice the size, and one, each time. */
  ghost predicate Doubles(s: Server, s': Server, j: nat, k: nat)
  {
    && CanSendAppend(s, j) && CanSendAppend(s', j) && s.log <= s'.log && Prev(s', j) <= Prev(s, j)
    && var size, grown := Carried(s, j) + 1, Doubled(Carried(s, j) + 1, k);
       || Prev(s', j) == DummyIndex(s.log)
       || (Carried(s', j) + 1 >= grown && Prev(s, j) - Prev(s', j) >= grown - size)
  }

  lemma DoublesAfterRefusal(s: Server, s': Server, j: nat, k: nat)
    requires CanSendAppend(s, j) && j < |s.matchIndex| && Prev(s, j) > DummyIndex(s.log)
    requires Doubles(Refused(s, j), s', j, k)
    ensures Doubles(s, s', j, k + 1)
  {
    GoesBack(s, j);
    DoubledTwice(Carried(s, j) + 1, k);
  }

  lemma DoublesAfterAccept(s: Server, s': Server, j: nat, k: nat, command: string)
    requires CanSendAppend(s, j) && j < |s.matchIndex| && s.me < |s.matchIndex|
    requires Doubles(RaftServer.Start(s, command).0, s', j, k)
    ensures Doubles(s, s', j, k)
  {
    AcceptCarries(s, j, command);
    DoubledMore(Carried(s, j) + 1, Carried(s, j) + 2, k);
  }

  lemma {:induction false} TurnsDouble(s: Server, j: nat, turns: seq<Turn>, s': Server)
    requires CanSendAppend(s, j) && Turns(s, j, turns, s')
    ensures Doubles(s, s', j, Refusals(turns))
    decreases |turns|
  {
    if turns != [] {
      match turns[0] {
        case Refusal =>
          GoesBack(s, j);
          TurnsDouble(Refused(s, j), j, turns[1..], s');
          DoublesAfterRefusal(s, s', j, Refusals(turns[1..]));
        case Accept(command) =>
          AcceptCarries(s, j, command);
          TurnsDouble(RaftServer.Start(s, command).0, j, turns[1..], s');
          DoublesAfterAccept(s, s', j, Refusals(turns), command);
      }
    }
  }

  /** However many commands come in between, after k refusals with 2^k beyond the distance to the
      dummy, the follower is sent everything after the dummy. */
  lemma FinallySendsAll(s: Server, j: nat, turns: seq<Turn>, s': Server)
    requires CanSendAppend(s, j) && Turns(s, j, turns, s')
    requires Doubled(1, Refusals(turns)) > Prev(s, j) - DummyIndex(s.log)
    ensures CanSendAppend(s', j) && Prev(s', j) == DummyIndex(s'.log)
    ensures AppendArgsFor(s', j).entries == s'.log[1..] && s.log <= s'.log
  {
    TurnsDouble(s, j, turns, s');
    DoubledMore(1, Carried(s, j) + 1, Refusals(turns));
  }

  // ---------- A leader and a follower that nobody disturbs ----------

  /** Entries of the same term at the same place come with the same past. */
  ghost predicate Matched(a: seq<LogItem>, b: seq<LogItem>)
  {
    && a != [] && b != [] && a[0] == b[0]
    && forall k {:trigger a[k], b[k]} :: 0 <= k < |a| && k < |b| && a[k].term == b[k].term ==> a[..k + 1] == b[..k + 1]
  }

  /** Leader s can send to j, which is server f, and f takes it for the leader. */
  ghost predicate Leads(s: Server, f: Server, j: nat)
  {
    && CanSendAppend(s, j) && Contiguous(f.log) && Matched(f.log, s.log) && f.currentTerm <= s.currentTerm
    && |s.nextIndex| == |s.matchIndex|
    && forall k :: 0 <= k < |s.matchIndex| ==> s.matchIndex[k] <= LastIndex(s.log)
  }

  ghost predicate SameLeader(s: Server, s': Server)
  {
    s'.log == s.log && s'.currentTerm == s.currentTerm && s'.state == s.state
  }

  /** The follower's log is that of the leader, and the leader knows. */
  ghost predicate UpToDate(s: Server, f: Server, j: nat)
    requires Leads(s, f, j)
  {
    f.log == s.log && s.matchIndex[j] == LastIndex(s.log) && Prev(s, j) == LastIndex(s.log) && Carried(s, j) == 0
  }

  /** The follower handles the request. */
  function Handled(s: Server, f: Server, j: nat): (r: (Server, AppendReply))
    requires CanSendAppend(s, j) && Contiguous(f.log)
  {
    AppendEntries(f, AppendArgsFor(s, j))
  }

  /** No exchange makes the leader panic. */
  lemma NoPanic(s: Server, f: Server, j: nat)
    requires Leads(s, f, j)
    ensures !AppendReplyPanics(s, j, AppendArgsFor(s, j), Handled(s, f, j).1)
  {
    var args := AppendArgsFor(s, j);
    var last := args.prevLogIndex + |args.entries|;
    RaftLogFacts.FindMatchBound(s.matchIndex[j := last], LastIndex(s.log));
  }

  /** The leader sends, the follower handles the request, and the leader takes in the reply. */
  ghost function Exchanged(s: Server, f: Server, j: nat): (r: (Server, Server))
    requires Leads(s, f, j)
  {
    NoPanic(s, f, j);
    var (f', reply) := Handled(s, f, j);
    (OnAppendReply(s, j, AppendArgsFor(s, j), reply), f')
  }

  lemma PrefixMatched(a: seq<LogItem>, b: seq<LogItem>, k: nat)
    requires Matched(a, b) && 1 <= k <= |a|
    ensures Matched(a[..k], b)
  {
    forall i | 0 <= i < k && i < |b| && a[..k][i].term == b[i].term ensures a[..k][..i + 1] == b[..i + 1] {
      assert a[i].term == b[i].term;
      assert a[..k][..i + 1] == a[..i + 1];
    }
  }

  lemma WholeMatched(a: seq<LogItem>)
    requires a != []
    ensures Matched(a, a)
  {
  }

  /** The request carries the leader's log b from place k + 1 on. */
  ghost predicate CarriesFrom(b: seq<LogItem>, args: AppendArgs, k: nat)
    requires Contiguous(b)
  {
    k < |b| && args.prevLogIndex == b[k].index && args.prevLogTerm == b[k].term && args.entries == b[k + 1..]
  }

  lemma TakesRest(a: seq<LogItem>, b: seq<LogItem>, args: AppendArgs, k: nat)
    requires Contiguous(a) && Contiguous(b) && Matched(a, b) && CarriesFrom(b, args, k) && LogAfter(a, args).1
    ensures LogAfter(a, args).0 == b
  {
    assert a[k].term == b[k].term;
    assert a[..k + 1] == b[..k + 1];
    assert b[..k + 1] + b[k + 1..] == b;
  }

  lemma CutsBack(a: seq<LogItem>, b: seq<LogItem>, args: AppendArgs, k: nat)
    requires Contiguous(a) && Contiguous(b) && Matched(a, b) && CarriesFrom(b, args, k) && !LogAfter(a, args).1
    ensures k > 0 && Contiguous(LogAfter(a, args).0) && Matched(LogAfter(a, args).0, b)
  {
    if k < |a| {
      PrefixMatched(a, b, k);
    }
  }

  /** Either the follower has what the request builds on, and takes the rest of the leader's log;
      or it refuses, and cuts its log back at most to the dummy. */
  lemma FollowerSide(s: Server, f: Server, j: nat)
    requires Leads(s, f, j)
    ensures var (f', reply) := Handled(s, f, j);
      && reply.term == f'.currentTerm == s.currentTerm && Contiguous(f'.log) && Matched(f'.log, s.log)
      && (if reply.success then f'.log == s.log else Prev(s, j) > DummyIndex(s.log))
  {
    var args := AppendArgsFor(s, j);
    AppendParts(f, args);
    var k := args.prevLogIndex - DummyIndex(s.log);
    assert CarriesFrom(s.log, args, k);
    if LogAfter(f.log, args).1 {
      TakesRest(f.log, s.log, args, k);
      WholeMatched(s.log);
    } else {
      CutsBack(f.log, s.log, args, k);
    }
  }

  /** After a success the next request carries nothing and builds on the last item. */
  lemma GoesOn(s: Server, j: nat)
    requires CanSendAppend(s, j) && |s.nextIndex| == |s.matchIndex|
    requires forall k :: 0 <= k < |s.matchIndex| ==> s.matchIndex[k] <= LastIndex(s.log)
    requires !AppendReplyPanics(s, j, AppendArgsFor(s, j), AppendReply(s.currentTerm, true))
    ensures var s' := OnAppendReply(s, j, AppendArgsFor(s, j), AppendReply(s.currentTerm, true));
      && CanSendAppend(s', j) && SameLeader(s, s')
      && |s'.nextIndex| == |s'.matchIndex| == |s.matchIndex|
      && (forall k :: 0 <= k < |s'.matchIndex| ==> s'.matchIndex[k] <= LastIndex(s.log))
      && s'.matchIndex[j] == LastIndex(s.log) && Prev(s', j) == LastIndex(s.log) && Carried(s', j) == 0
  {
  }

  lemma Succeeds(s: Server, f: Server, j: nat)
    requires Leads(s, f, j) && Handled(s, f, j).1.success
    ensures var (s', f') := Exchanged(s, f, j);
      Leads(s', f', j) && UpToDate(s', f', j) && SameLeader(s, s')
  {
    NoPanic(s, f, j);
    FollowerSide(s, f, j);
    GoesOn(s, j);
  }

  lemma Fails(s: Server, f: Server, j: nat)
    requires Leads(s, f, j) && !Handled(s, f, j).1.success
    ensures var (s', f') := Exchanged(s, f, j);
      && Leads(s', f', j) && SameLeader(s, s')
      && Prev(s, j) > DummyIndex(s.log) && s' == Refused(s, j)
  {
    NoPanic(s, f, j);
    FollowerSide(s, f, j);
    GoesBack(s, j);
  }

  lemma SucceedsAgain(s: Server, f: Server, j: nat)
    requires Leads(s, f, j) && UpToDate(s, f, j)
    ensures Handled(s, f, j).1.success
  {
  }

  /** After an exchange the follower is up to date, or the leader has gone back. */
  lemma OneExchange(s: Server, f: Server, j: nat)
    requires Leads(s, f, j)
    ensures var (s', f') := Exchanged(s, f, j);
      && Leads(s', f', j) && SameLeader(s, s')
      && (UpToDate(s', f', j) || (Prev(s, j) > DummyIndex(s.log) && s' == Refused(s, j)))
      && (UpToDate(s, f, j) ==> UpToDate(s', f', j))
  {
    if Handled(s, f, j).1.success {
      Succeeds(s, f, j);
    } else {
      Fails(s, f, j);
      if UpToDate(s, f, j) {
        SucceedsAgain(s, f, j);
      }
    }
  }

  /** The next request starts less than 2^k behind the dummy, in units of what it carries. */
  ghost predicate Near(s: Server, j: nat, k: nat)
    requires CanSendAppend(s, j)
  {
    Prev(s, j) - DummyIndex(s.log) < Doubled(Carried(s, j) + 1, k) - Carried(s, j)
  }

  lemma NearAfterRefusal(s: Server, j: nat, k: nat)
    requires CanSendAppend(s, j) && j < |s.matchIndex| && k > 0 && Prev(s, j) > DummyIndex(s.log) && Near(s, j, k)
    ensures CanSendAppend(Refused(s, j), j) && Near(Refused(s, j), j, k - 1)
  {
    GoesBack(s, j);
    DoubledTwice(Carried(s, j) + 1, k - 1);
    DoubledMore(0, Carried(Refused(s, j), j) + 1, k - 1);
  }

  /** One exchange brings the follower up to date, or makes the leader come nearer. */
  lemma ComesNearer(s: Server, f: Server, j: nat, k: nat)
    requires Leads(s, f, j) && Near(s, j, k)
    ensures var (s', f') := Exchanged(s, f, j);
      && Leads(s', f', j) && SameLeader(s, s')
      && (UpToDate(s', f', j) || (k > 0 && Near(s', j, k - 1)))
  {
    OneExchange(s, f, j);
    if !UpToDate(Exchanged(s, f, j).0, Exchanged(s, f, j).1, j) {
      NearAfterRefusal(s, j, k);
    }
  }

  lemma NearIf(s: Server, j: nat, k: nat)
    requires CanSendAppend(s, j) && Prev(s, j) - DummyIndex(s.log) < Doubled(1, k)
    ensures Near(s, j, k)
  {
    DoubledMore(1, Carried(s, j) + 1, k);
  }
}
