/** Exchanges between a leader and a follower as steps of the servers and the network. */
module RaftExchanges {
  import opened Wrappers
  import opened RaftServer
  import opened RaftProtocol
  import opened RaftBackoff

  /** Server i sends to server j, j handles the request, and i takes in the reply. */
  function ExchangeEvents(w: World, i: nat, j: nat): (es: seq<Event>)
  {
    [SendAppend(i, j), HandleAppend(w.nextCall), AppendReplied(w.nextCall)]
  }

  lemma ThreeSteps(w: World, a: Event, b: Event, c: Event)
    requires CanStep(w, a) && CanStep(Step(w, a), b) && CanStep(Step(Step(w, a), b), c)
    ensures Goes(w, [a, b, c], Step(Step(Step(w, a), b), c))
  {
    assert [a, b, c][1..] == [b, c] && [b, c][1..] == [c] && [c][1..] == [];
    assert Goes(Step(Step(w, a), b), [c], Step(Step(Step(w, a), b), c));
    assert Goes(Step(w, a), [b, c], Step(Step(Step(w, a), b), c));
  }

  lemma ExchangeRuns(w: World, i: nat, j: nat) returns (w': World)
    requires Shape(w) && i < |w.servers| && j < |w.servers| && i != j && Leads(w.servers[i], w.servers[j], j)
    ensures Shape(w') && Goes(w, ExchangeEvents(w, i, j), w')
    ensures var (s, f) := Exchanged(w.servers[i], w.servers[j], j); w'.servers == w.servers[i := s][j := f]
  {
    var call := w.nextCall;
    var args := AppendArgsFor(w.servers[i], j);
    NoPanic(w.servers[i], w.servers[j], j);
    var w1 := Step(w, SendAppend(i, j));
    assert w1.calls[call] == AppendCall(i, j, w.lives[i], args, None);
    assert EntriesFit(args);
    var w2 := Step(w1, HandleAppend(call));
    assert w2.calls[call] == AppendCall(i, j, w.lives[i], args, Some(Handled(w.servers[i], w.servers[j], j).1));
    w' := Step(w2, AppendReplied(call));
    ThreeSteps(w, SendAppend(i, j), HandleAppend(call), AppendReplied(call));
  }

  lemma {:induction false} GoesThrough(w: World, a: seq<Event>, w1: World, b: seq<Event>, w2: World)
    requires Goes(w, a, w1) && Goes(w1, b, w2)
    ensures Goes(w, a + b, w2)
    decreases |a|
  {
    if a == [] {
      assert a + b == b;
    } else {
      GoesThrough(Step(w, a[0]), a[1..], w1, b, w2);
      assert (a + b)[1..] == a[1..] + b;
    }
  }

  /** Server i can send to server j, which takes it for the leader. */
  ghost predicate Stage(w: World, i: nat, j: nat)
  {
    && Shape(w) && i < |w.servers| && j < |w.servers| && i != j
    && Leads(w.servers[i], w.servers[j], j)
  }

  ghost predicate Done(w: World, i: nat, j: nat)
    requires Stage(w, i, j)
  {
    UpToDate(w.servers[i], w.servers[j], j)
  }

  /** Only the two servers have changed; i is leader of the same term with the same log. */
  ghost predicate OnlyThese(w: World, w': World, i: nat, j: nat)
  {
    && |w'.servers| == |w.servers| && i < |w.servers|
    && (forall m :: 0 <= m < |w.servers| && m != i && m != j ==> w'.servers[m] == w.servers[m])
    && SameLeader(w.servers[i], w'.servers[i])
  }

  lemma StepNearer(w: World, i: nat, j: nat, k: nat) returns (es: seq<Event>, w': World)
    requires Stage(w, i, j) && Near(w.servers[i], j, k)
    ensures Goes(w, es, w') && |es| == 3 && OnlyThese(w, w', i, j) && Stage(w', i, j)
    ensures Done(w', i, j) || (k > 0 && Near(w'.servers[i], j, k - 1))
  {
    es := ExchangeEvents(w, i, j);
    w' := ExchangeRuns(w, i, j);
    ComesNearer(w.servers[i], w.servers[j], j, k);
  }

  lemma StepOn(w: World, i: nat, j: nat) returns (es: seq<Event>, w': World)
    requires Stage(w, i, j) && Done(w, i, j)
    ensures Goes(w, es, w') && |es| == 3 && OnlyThese(w, w', i, j) && Stage(w', i, j) && Done(w', i, j)
  {
    es := ExchangeEvents(w, i, j);
    w' := ExchangeRuns(w, i, j);
    OneExchange(w.servers[i], w.servers[j], j);
  }

  lemma {:induction false} StaysDone(w: World, i: nat, j: nat, k: nat) returns (es: seq<Event>, w': World)
    requires Stage(w, i, j) && Done(w, i, j)
    ensures Goes(w, es, w') && |es| == 3 * k && OnlyThese(w, w', i, j) && Stage(w', i, j) && Done(w', i, j)
    decreases k
  {
    if k == 0 {
      es, w' := [], w;
    } else {
      var first, w1 := StepOn(w, i, j);
      var rest;
      rest, w' := StaysDone(w1, i, j, k - 1);
      GoesThrough(w, first, w1, rest, w');
      es := first + rest;
    }
  }

  lemma {:induction false} CatchesUp(w: World, i: nat, j: nat, k: nat) returns (es: seq<Event>, w': World)
    requires Stage(w, i, j) && Near(w.servers[i], j, k)
    ensures Goes(w, es, w') && |es| == 3 * (k + 1) && OnlyThese(w, w', i, j) && Stage(w', i, j) && Done(w', i, j)
    decreases k
  {
    var first, w1 := StepNearer(w, i, j, k);
    var rest;
    if Done(w1, i, j) {
      rest, w' := StaysDone(w1, i, j, k);
    } else {
      rest, w' := CatchesUp(w1, i, j, k - 1);
    }
    GoesThrough(w, first, w1, rest, w');
    es := first + rest;
  }
}
