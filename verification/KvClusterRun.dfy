/** A run of the cluster in which something happens: a clerk writes, careful peers agree on its
    command, a server applies it, and the clerk gets its reply. */
module KvClusterRun {
  import opened RaftCareful
  import opened RaftRuns
  import opened KvCluster
  import P = RaftProtocol
  import U = RaftUnsafe
  import V = KvServer
  import K = KvService
  import KvLinearizable

  const PUT: V.Command := V.Command(V.CommandId(0, 0), V.PutCommand, "k", "v")

  function ToPut(item: string): (r: V.Command) { PUT }

  /** The service after the clerk has issued its command. */
  function Issued(): (w: K.World)
  {
    K.Step(K.Init(1, 3), K.Invoke(0, V.PutCommand, "k", "v"))
  }

  /** The command is issued, and no server has consumed anything. */
  ghost predicate Waiting(c: Cluster)
  {
    && |c.raft.servers| == 3 && c.kv == Issued().(log := c.kv.log)
    && exists es :: Goes(ToPut, Init(1, 3), es, c)
  }

  ghost predicate WaitingWith(w: P.World)
  {
    exists c: Cluster :: c.raft == w && Waiting(c)
  }

  /** The states of the peers in the meantime. */
  ghost function Meantime(): (r: Space)
  {
    Space((iset w | WaitingWith(w)), FullCare)
  }

  lemma {:induction false} GoesAppend(c: Cluster, es: seq<Event>, c1: Cluster, e: Event)
    requires Goes(ToPut, c, es, c1) && CanStep(ToPut, c1, e)
    ensures Goes(ToPut, c, es + [e], Step(ToPut, c1, e))
    decreases |es|
  {
    if es == [] {
      assert [e][1..] == [];
    } else {
      GoesAppend(Step(ToPut, c, es[0]), es[1..], c1, e);
      assert (es + [e])[1..] == es[1..] + [e];
    }
  }

  /** A peer steps, or crashes together with its server. */
  function PeerEvent(f: P.Event): (e: Event)
  {
    if f.Crash? then Restart(f.i, K.START) else Raft(f)
  }

  lemma PeerStep(c: Cluster, f: P.Event)
    requires Waiting(c) && P.CanStep(c.raft, f) && Minds(FullCare, c.raft, f)
    ensures CanStep(ToPut, c, PeerEvent(f))
    ensures var c' := Step(ToPut, c, PeerEvent(f));
      c'.raft == P.Step(c.raft, f) && |c'.raft.servers| == 3 && c'.kv == Issued().(log := c'.kv.log)
  {
    assert Issued().replicas == [K.START, K.START, K.START];
    SameServers(c.raft, f);
    if f.Crash? {
      assert Issued().replicas[f.i := K.START] == Issued().replicas;
    }
  }

  lemma StillWaiting(c: Cluster, f: P.Event)
    requires Waiting(c) && P.CanStep(c.raft, f) && Minds(FullCare, c.raft, f)
    ensures WaitingWith(P.Step(c.raft, f))
  {
    PeerStep(c, f);
    var es :| Goes(ToPut, Init(1, 3), es, c);
    GoesAppend(Init(1, 3), es, c, PeerEvent(f));
    assert Waiting(Step(ToPut, c, PeerEvent(f)));
  }

  lemma StartsWaiting()
    ensures WaitingWith(P.Init(3))
  {
    var e := Service(K.Invoke(0, V.PutCommand, "k", "v"));
    assert Goes(ToPut, Init(1, 3), [], Init(1, 3));
    GoesAppend(Init(1, 3), [], Init(1, 3), e);
    var c := Step(ToPut, Init(1, 3), e);
    assert c.raft == P.Init(3) && Waiting(c);
  }

  lemma MeantimeIsClosed()
    ensures FromStart(Meantime())
  {
    forall w, f | WaitingWith(w) && P.CanStep(w, f) && Minds(FullCare, w, f) ensures WaitingWith(P.Step(w, f)) {
      var c: Cluster :| c.raft == w && Waiting(c);
      StillWaiting(c, f);
    }
    StartsWaiting();
  }

  /** Server 0 consumes the command and answers, and the clerk completes its operation. */
  lemma Answers(es: seq<Event>, c: Cluster) returns (es': seq<Event>, c': Cluster)
    requires Goes(ToPut, Init(1, 3), es, c) && |c.raft.servers| == 3 && c.kv == Issued().(log := c.kv.log)
    requires |c.raft.servers[0].applied| == 1
    ensures Goes(ToPut, Init(1, 3), es', c') && |c'.kv.history| == 1 && KvLinearizable.Idle(c'.kv)
  {
    assert Issued().replicas[0] == K.START;
    var c1 := Step(ToPut, c, Consume(0));
    GoesAppend(Init(1, 3), es, c, Consume(0));
    assert c1.kv.replicas[0] == K.Fed(K.START, PUT);
    var c2 := Step(ToPut, c1, Service(K.Respond(0, PUT)));
    GoesAppend(Init(1, 3), es + [Consume(0)], c1, Service(K.Respond(0, PUT)));
    var answer := K.Answer(PUT, V.Ok(""), 1);
    assert answer in c2.kv.answers;
    c' := Step(ToPut, c2, Service(K.Complete(answer)));
    es' := es + [Consume(0)] + [Service(K.Respond(0, PUT))] + [Service(K.Complete(answer))];
    GoesAppend(Init(1, 3), es + [Consume(0)] + [Service(K.Respond(0, PUT))], c2, Service(K.Complete(answer)));
  }

  /** The cluster can complete an operation. */
  lemma ClusterCompletes() returns (es: seq<Event>, c: Cluster)
    ensures Goes(ToPut, Init(1, 3), es, c) && |c.kv.history| == 1 && KvLinearizable.Idle(c.kv)
  {
    MeantimeIsClosed();
    var w, m1, m2 := U.Beginning(Meantime());
    var c0: Cluster :| c0.raft == w && Waiting(c0);
    var es0 :| Goes(ToPut, Init(1, 3), es0, c0);
    es, c := Answers(es0, c0);
  }
}
