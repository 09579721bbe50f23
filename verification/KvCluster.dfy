/** The key-value service on top of Raft: every server applies what its own Raft peer sends it, at
    its own pace, and starts over after a crash.  If the peers are careful, that is a run of the
    service over one agreed log, and so it is linearizable.

    `agreed` only observes: it is the longest list of messages that any peer has sent so far. */
module KvCluster {
  import opened Linearizability
  import opened RaftServer
  import opened RaftCareful
  import opened RaftApplied
  import E = RaftElection
  import L = RaftLogs
  import P = RaftProtocol
  import A = RaftAcks
  import V = KvServer
  import K = KvService
  import KvLinearizable
  import KvModel

  /** The command that an item of the log stands for. */
  type Decoder = string -> V.Command

  datatype Cluster = Cluster(raft: P.World, agreed: seq<ApplyMsg>, kv: K.World)

  datatype Event =
    | Raft(e: P.Event)
    | Restart(s: nat, from: K.Replica)
    | Consume(s: nat)
    | Service(f: K.Event)

  function Decoded(dec: Decoder, msgs: seq<ApplyMsg>): (r: seq<V.Command>)
    ensures |r| == |msgs| && forall k :: 0 <= k < |msgs| ==> r[k] == dec(msgs[k].command)
  {
    seq(|msgs|, k requires 0 <= k < |msgs| => dec(msgs[k].command))
  }

  function Init(clerks: nat, servers: nat): (c: Cluster)
  {
    Cluster(P.Init(servers), [], K.Init(clerks, servers))
  }

  /** Peers take careful steps, and only commands that clerks have issued are given to them.  A
      server that crashes comes back with some snapshot, and its peer sends everything again. */
  ghost predicate CanStep(dec: Decoder, c: Cluster, e: Event)
  {
    match e
    case Raft(f) =>
      && !f.Crash? && P.CanStep(c.raft, f) && Minds(FullCare, c.raft, f)
      && (f.ClientStart? ==> dec(f.command) in c.kv.issued)
    case Restart(s, from) => P.CanStep(c.raft, P.Crash(s)) && K.CanStep(c.kv, K.Restore(s, from, 0))
    case Consume(s) =>
      && s < |c.raft.servers| && s < |c.kv.replicas|
      && c.kv.replicas[s].fed < |c.raft.servers[s].applied|
    case Service(f) => (f.Invoke? || f.Save? || f.Respond? || f.Complete?) && K.CanStep(c.kv, f)
  }

  ghost function Step(dec: Decoder, c: Cluster, e: Event): (r: Cluster)
    requires CanStep(dec, c, e)
  {
    match e
    case Raft(f) =>
      var raft := P.Step(c.raft, f);
      var agreed := Longest(c.agreed, raft.servers);
      Cluster(raft, agreed, c.kv.(log := Decoded(dec, agreed)))
    case Restart(s, from) => c.(raft := P.Step(c.raft, P.Crash(s)), kv := K.Step(c.kv, K.Restore(s, from, 0)))
    case Consume(s) =>
      var r := c.kv.replicas[s];
      var cmd := dec(c.raft.servers[s].applied[r.fed].command);
      c.(kv := c.kv.(replicas := c.kv.replicas[s := K.Fed(r, cmd)]))
    case Service(f) => c.(kv := K.Step(c.kv, f))
  }

  ghost predicate Goes(dec: Decoder, c: Cluster, es: seq<Event>, c': Cluster)
    decreases |es|
  {
    if es == [] then c' == c else CanStep(dec, c, es[0]) && Goes(dec, Step(dec, c, es[0]), es[1..], c')
  }

  // ---------- Peers hold only commands that were issued ----------

  ghost predicate ItemsIssued(dec: Decoder, issued: set<V.Command>, log: seq<LogItem>)
  {
    forall k :: 1 <= k < |log| ==> dec(log[k].command) in issued
  }

  ghost predicate CallIssued(dec: Decoder, issued: set<V.Command>, call: P.Call)
  {
    call.AppendCall? ==>
      forall k :: 0 <= k < |call.aargs.entries| ==> dec(call.aargs.entries[k].command) in issued
  }

  ghost predicate AllIssued(dec: Decoder, issued: set<V.Command>, w: P.World)
  {
    && (forall i :: 0 <= i < |w.servers| ==> ItemsIssued(dec, issued, w.servers[i].log))
    && (forall id {:trigger w.calls[id]} :: id in w.calls ==> CallIssued(dec, issued, w.calls[id]))
  }

  ghost predicate MessagesIssued(dec: Decoder, issued: set<V.Command>, msgs: seq<ApplyMsg>)
  {
    forall k :: 0 <= k < |msgs| ==> dec(msgs[k].command) in issued
  }

  lemma FollowerItems(dec: Decoder, issued: set<V.Command>, s: Server, args: AppendArgs)
    requires Contiguous(s.log) && DummyIndex(s.log) == 0 && EntriesFit(args) && ItemsIssued(dec, issued, s.log)
    requires forall k :: 0 <= k < |args.entries| ==> dec(args.entries[k].command) in issued
    ensures ItemsIssued(dec, issued, AppendEntries(s, args).0.log)
  {
    if s.currentTerm <= args.term {
      AppendParts(s, args);
    }
  }

  /** The log of a peer after a step. */
  lemma StepItems(dec: Decoder, issued: set<V.Command>, w: P.World, h: P.History, e: P.Event, i: nat)
    requires E.Inv(w, h) && L.LogInv(w, h) && P.CanStep(w, e) && AllIssued(dec, issued, w) && i < |w.servers|
    requires e.ClientStart? ==> dec(e.command) in issued
    ensures |P.Step(w, e).servers| == |w.servers| && ItemsIssued(dec, issued, P.Step(w, e).servers[i].log)
  {
    assert E.ServerOk(w, h, i) && L.ServerLogOk(w, h, i);
    if e.HandleAppend? && w.calls[e.call].dest == i {
      assert CallIssued(dec, issued, w.calls[e.call]);
      FollowerItems(dec, issued, w.servers[i], w.calls[e.call].aargs);
    } else if e.AppendReplied? && w.calls[e.call].from == i {
      var c := w.calls[e.call];
      E.AppendReplyFields(w.servers[i], c.dest, c.aargs, c.areply.value);
    } else if e.Timeout? || e.HandleVote? || e.VoteReplied? {
      VotingStepKeepsLog(w, e);
    }
  }

  lemma SentIssued(dec: Decoder, issued: set<V.Command>, s: Server, j: nat)
    requires CanSendAppend(s, j) && DummyIndex(s.log) == 0 && ItemsIssued(dec, issued, s.log)
    ensures forall k :: 0 <= k < |AppendArgsFor(s, j).entries| ==> dec(AppendArgsFor(s, j).entries[k].command) in issued
  {
  }

  lemma StepCalls(dec: Decoder, issued: set<V.Command>, w: P.World, h: P.History, e: P.Event, id: nat)
    requires E.Inv(w, h) && L.LogInv(w, h) && P.CanStep(w, e) && AllIssued(dec, issued, w) && id in P.Step(w, e).calls
    ensures CallIssued(dec, issued, P.Step(w, e).calls[id])
  {
    if e.SendAppend? && id == w.nextCall {
      assert L.ServerLogOk(w, h, e.i);
      SentIssued(dec, issued, w.servers[e.i], e.j);
    } else if id in w.calls {
      assert CallIssued(dec, issued, w.calls[id]);
    }
  }

  lemma StepIssued(dec: Decoder, issued: set<V.Command>, w: P.World, h: P.History, e: P.Event)
    requires E.Inv(w, h) && L.LogInv(w, h) && P.CanStep(w, e) && AllIssued(dec, issued, w)
    requires e.ClientStart? ==> dec(e.command) in issued
    ensures AllIssued(dec, issued, P.Step(w, e))
  {
    forall i | 0 <= i < |P.Step(w, e).servers| ensures ItemsIssued(dec, issued, P.Step(w, e).servers[i].log) {
      SameServers(w, e);
      StepItems(dec, issued, w, h, e, i);
    }
    forall id | id in P.Step(w, e).calls ensures CallIssued(dec, issued, P.Step(w, e).calls[id]) {
      StepCalls(dec, issued, w, h, e, id);
    }
  }

  lemma SameServers(w: P.World, e: P.Event)
    requires P.CanStep(w, e)
    ensures |P.Step(w, e).servers| == |w.servers|
  {
  }

  /** So do the messages that they send. */
  lemma AppliedIssued(dec: Decoder, issued: set<V.Command>, s: Server)
    requires InOwnLog(s) && ItemsIssued(dec, issued, s.log)
    ensures MessagesIssued(dec, issued, s.applied)
  {
    forall k | 0 <= k < |s.applied| ensures dec(s.applied[k].command) in issued {
      AppliedList(s, k);
    }
  }

  lemma {:induction false} LongestIssued(dec: Decoder, issued: set<V.Command>, a: seq<ApplyMsg>, servers: seq<Server>)
    requires MessagesIssued(dec, issued, a)
    requires forall i :: 0 <= i < |servers| ==> MessagesIssued(dec, issued, servers[i].applied)
    ensures MessagesIssued(dec, issued, Longest(a, servers))
  {
    if servers != [] {
      LongestIssued(dec, issued, a, servers[..|servers| - 1]);
    }
  }

  // ---------- The invariant ----------

  ghost predicate ReplicasBehind(c: Cluster)
  {
    && |c.kv.replicas| == |c.raft.servers|
    && forall s :: 0 <= s < |c.kv.replicas| ==> c.kv.replicas[s].fed <= |c.raft.servers[s].applied|
  }

  ghost predicate Inv(dec: Decoder, c: Cluster, h: P.History, g: A.Acks)
  {
    && AllInv(c.raft, h, g) && Agreed(h, g, |c.raft.servers|, c.agreed) && FollowedBy(c.agreed, c.raft.servers)
    && c.kv.log == Decoded(dec, c.agreed) && ReplicasBehind(c)
    && AllIssued(dec, c.kv.issued, c.raft) && MessagesIssued(dec, c.kv.issued, c.agreed)
  }

  lemma InitInv(dec: Decoder, clerks: nat, servers: nat)
    ensures Inv(dec, Init(clerks, servers), P.HistInit(servers), A.NO_ACKS)
  {
    RaftApplied.InitInv(servers);
  }

  lemma MoreIssued(dec: Decoder, issued: set<V.Command>, issued': set<V.Command>, w: P.World)
    requires AllIssued(dec, issued, w) && issued <= issued'
    ensures AllIssued(dec, issued', w)
  {
    forall i | 0 <= i < |w.servers| ensures ItemsIssued(dec, issued', w.servers[i].log) {
      assert ItemsIssued(dec, issued, w.servers[i].log);
    }
    forall id | id in w.calls ensures CallIssued(dec, issued', w.calls[id]) {
      assert CallIssued(dec, issued, w.calls[id]);
    }
  }

  ghost predicate PeerSteps(dec: Decoder, c: Cluster, h: P.History, g: A.Acks, f: P.Event)
  {
    Inv(dec, c, h, g) && P.CanStep(c.raft, f) && Minds(FullCare, c.raft, f)
    && (f.ClientStart? ==> dec(f.command) in c.kv.issued)
  }

  /** All messages that are sent are about commands that were issued. */
  lemma PeerIssued(dec: Decoder, c: Cluster, h: P.History, g: A.Acks, f: P.Event)
    requires PeerSteps(dec, c, h, g, f)
    ensures AllIssued(dec, c.kv.issued, P.Step(c.raft, f))
    ensures MessagesIssued(dec, c.kv.issued, Longest(c.agreed, P.Step(c.raft, f).servers))
  {
    var w, issued := P.Step(c.raft, f), c.kv.issued;
    StepIssued(dec, issued, c.raft, h, f);
    RaftApplied.StepKeepsInv(c.raft, h, g, f);
    forall i | 0 <= i < |w.servers| ensures MessagesIssued(dec, issued, w.servers[i].applied) {
      AppliedIssued(dec, issued, w.servers[i]);
    }
    LongestIssued(dec, issued, c.agreed, w.servers);
  }

  lemma PeerBehind(dec: Decoder, c: Cluster, h: P.History, g: A.Acks, f: P.Event, s: nat)
    requires PeerSteps(dec, c, h, g, f) && f != P.Crash(s) && s < |c.raft.servers|
    ensures |P.Step(c.raft, f).servers| == |c.raft.servers|
    ensures c.kv.replicas[s].fed <= |P.Step(c.raft, f).servers[s].applied|
  {
    StepGoes(c.raft, h, g, f, s);
  }

  lemma RaftBehind(dec: Decoder, c: Cluster, h: P.History, g: A.Acks, f: P.Event)
    requires Inv(dec, c, h, g) && CanStep(dec, c, Raft(f))
    ensures ReplicasBehind(Step(dec, c, Raft(f)))
  {
    SameServers(c.raft, f);
    forall s | 0 <= s < |c.kv.replicas|
      ensures c.kv.replicas[s].fed <= |P.Step(c.raft, f).servers[s].applied|
    {
      PeerBehind(dec, c, h, g, f, s);
    }
  }

  lemma RaftKeeps(dec: Decoder, c: Cluster, h: P.History, g: A.Acks, f: P.Event)
    requires Inv(dec, c, h, g) && CanStep(dec, c, Raft(f))
    ensures Inv(dec, Step(dec, c, Raft(f)), P.HistStep(c.raft, h, f), A.AckStep(c.raft, h, g, f))
  {
    StepAgreed(c.raft, h, g, f, c.agreed);
    PeerIssued(dec, c, h, g, f);
    RaftBehind(dec, c, h, g, f);
  }

  lemma RestartPeers(w: P.World, h: P.History, g: A.Acks, s: nat, a: seq<ApplyMsg>)
    requires AllInv(w, h, g) && P.CanStep(w, P.Crash(s)) && Agreed(h, g, |w.servers|, a) && FollowedBy(a, w.servers)
    ensures var w', h', g' := P.Step(w, P.Crash(s)), P.HistStep(w, h, P.Crash(s)), A.AckStep(w, h, g, P.Crash(s));
      && AllInv(w', h', g') && |w'.servers| == |w.servers| && Agreed(h', g', |w.servers|, a)
      && FollowedBy(a, w'.servers)
  {
    var f := P.Crash(s);
    RaftApplied.StepKeepsInv(w, h, g, f);
    AgreedStays(h, g, P.HistStep(w, h, f), A.AckStep(w, h, g, f), |w.servers|, a);
    CrashForgets(w, h, g, s);
  }

  lemma RestartBehind(dec: Decoder, c: Cluster, s: nat, from: K.Replica)
    requires ReplicasBehind(c) && CanStep(dec, c, Restart(s, from))
    ensures ReplicasBehind(Step(dec, c, Restart(s, from)))
  {
  }

  lemma RestartIssued(dec: Decoder, c: Cluster, h: P.History, g: A.Acks, s: nat)
    requires Inv(dec, c, h, g) && P.CanStep(c.raft, P.Crash(s))
    ensures AllIssued(dec, c.kv.issued, P.Step(c.raft, P.Crash(s)))
  {
    StepIssued(dec, c.kv.issued, c.raft, h, P.Crash(s));
  }

  lemma RestartKeeps(dec: Decoder, c: Cluster, h: P.History, g: A.Acks, s: nat, from: K.Replica)
    requires Inv(dec, c, h, g) && CanStep(dec, c, Restart(s, from))
    ensures Inv(dec, Step(dec, c, Restart(s, from)), P.HistStep(c.raft, h, P.Crash(s)),
                A.AckStep(c.raft, h, g, P.Crash(s)))
  {
    RestartPeers(c.raft, h, g, s, c.agreed);
    RestartBehind(dec, c, s, from);
    RestartIssued(dec, c, h, g, s);
  }

  lemma ServiceKeeps(dec: Decoder, c: Cluster, h: P.History, g: A.Acks, f: K.Event)
    requires Inv(dec, c, h, g) && CanStep(dec, c, Service(f))
    ensures Inv(dec, Step(dec, c, Service(f)), h, g)
  {
    MoreIssued(dec, c.kv.issued, K.Step(c.kv, f).issued, c.raft);
  }

  lemma ConsumeKeeps(dec: Decoder, c: Cluster, h: P.History, g: A.Acks, s: nat)
    requires Inv(dec, c, h, g) && CanStep(dec, c, Consume(s))
    ensures Inv(dec, Step(dec, c, Consume(s)), h, g)
  {
  }

  lemma StepKeepsInv(dec: Decoder, c: Cluster, h: P.History, g: A.Acks, e: Event) returns (h': P.History, g': A.Acks)
    requires Inv(dec, c, h, g) && CanStep(dec, c, e)
    ensures Inv(dec, Step(dec, c, e), h', g')
  {
    h', g' := h, g;
    match e
    case Raft(f) =>
      RaftKeeps(dec, c, h, g, f);
      h', g' := P.HistStep(c.raft, h, f), A.AckStep(c.raft, h, g, f);
    case Restart(s, from) =>
      RestartKeeps(dec, c, h, g, s, from);
      h', g' := P.HistStep(c.raft, h, P.Crash(s)), A.AckStep(c.raft, h, g, P.Crash(s));
    case Consume(s) => ConsumeKeeps(dec, c, h, g, s);
    case Service(f) => ServiceKeeps(dec, c, h, g, f);
  }

  // ---------- Every step is a step of the service ----------

  lemma {:induction false} GoesOn(w: K.World, a: seq<K.Event>, w1: K.World, b: seq<K.Event>, w2: K.World)
    requires K.Goes(w, a, w1) && K.Goes(w1, b, w2)
    ensures K.Goes(w, a + b, w2)
    decreases |a|
  {
    if a == [] {
      assert a + b == b;
    } else {
      GoesOn(K.Step(w, a[0]), a[1..], w1, b, w2);
      assert (a + b)[1..] == a[1..] + b;
    }
  }

  lemma OneStep(w: K.World, f: K.Event)
    requires K.CanStep(w, f)
    ensures K.Goes(w, [f], K.Step(w, f))
  {
    assert [f][1..] == [];
  }

  /** The commands are agreed on one after the other. */
  lemma {:induction false} AgreesOn(w: K.World, cmds: seq<V.Command>) returns (fs: seq<K.Event>)
    requires forall k :: 0 <= k < |cmds| ==> cmds[k] in w.issued
    ensures K.Goes(w, fs, w.(log := w.log + cmds))
    decreases |cmds|
  {
    if cmds == [] {
      fs := [];
      assert w.log + cmds == w.log;
    } else {
      var w1 := K.Step(w, K.Agree(cmds[0]));
      var rest := AgreesOn(w1, cmds[1..]);
      OneStep(w, K.Agree(cmds[0]));
      assert w.log + [cmds[0]] + cmds[1..] == w.log + cmds;
      GoesOn(w, [K.Agree(cmds[0])], w1, rest, w.(log := w.log + cmds));
      fs := [K.Agree(cmds[0])] + rest;
    }
  }

  lemma DecodedGrows(dec: Decoder, a: seq<ApplyMsg>, b: seq<ApplyMsg>, issued: set<V.Command>)
    requires a <= b && MessagesIssued(dec, issued, b)
    ensures Decoded(dec, b) == Decoded(dec, a) + Decoded(dec, b[|a|..])
    ensures forall k :: 0 <= k < |b[|a|..]| ==> Decoded(dec, b[|a|..])[k] in issued
  {
    assert forall k :: 0 <= k < |b[|a|..]| ==> b[|a|..][k] == b[|a| + k];
  }

  /** What the peers newly send is agreed on. */
  lemma RaftAgrees(dec: Decoder, c: Cluster, h: P.History, g: A.Acks, f: P.Event) returns (fs: seq<K.Event>)
    requires Inv(dec, c, h, g) && CanStep(dec, c, Raft(f))
    ensures K.Goes(c.kv, fs, Step(dec, c, Raft(f)).kv)
  {
    var agreed := Longest(c.agreed, P.Step(c.raft, f).servers);
    StepAgreed(c.raft, h, g, f, c.agreed);
    PeerIssued(dec, c, h, g, f);
    DecodedGrows(dec, c.agreed, agreed, c.kv.issued);
    fs := AgreesOn(c.kv, Decoded(dec, agreed[|c.agreed|..]));
  }

  /** What a server consumes is the next command of the agreed log. */
  lemma ConsumeFeeds(dec: Decoder, c: Cluster, h: P.History, g: A.Acks, s: nat)
    requires Inv(dec, c, h, g) && CanStep(dec, c, Consume(s))
    ensures K.CanStep(c.kv, K.Feed(s)) && Step(dec, c, Consume(s)).kv == K.Step(c.kv, K.Feed(s))
  {
    var fed := c.kv.replicas[s].fed;
    assert c.raft.servers[s].applied <= c.agreed;
    assert c.kv.log[fed] == dec(c.raft.servers[s].applied[fed].command);
  }

  lemma StepSimulates(dec: Decoder, c: Cluster, h: P.History, g: A.Acks, e: Event) returns (fs: seq<K.Event>)
    requires Inv(dec, c, h, g) && CanStep(dec, c, e)
    ensures K.Goes(c.kv, fs, Step(dec, c, e).kv)
  {
    match e
    case Raft(f) => fs := RaftAgrees(dec, c, h, g, f);
    case Restart(s, from) =>
      fs := [K.Restore(s, from, 0)];
      OneStep(c.kv, K.Restore(s, from, 0));
    case Consume(s) =>
      fs := [K.Feed(s)];
      ConsumeFeeds(dec, c, h, g, s);
      OneStep(c.kv, K.Feed(s));
    case Service(f) =>
      fs := [f];
      OneStep(c.kv, f);
  }

  // ---------- Whole runs ----------

  lemma {:induction false} RunSimulates(dec: Decoder, c: Cluster, h: P.History, g: A.Acks, es: seq<Event>, c': Cluster)
    returns (fs: seq<K.Event>)
    requires Inv(dec, c, h, g) && Goes(dec, c, es, c')
    ensures K.Goes(c.kv, fs, c'.kv)
    decreases |es|
  {
    if es == [] {
      fs := [];
    } else {
      var c1 := Step(dec, c, es[0]);
      var first := StepSimulates(dec, c, h, g, es[0]);
      var h1, g1 := StepKeepsInv(dec, c, h, g, es[0]);
      var rest := RunSimulates(dec, c1, h1, g1, es[1..], c');
      GoesOn(c.kv, first, c1.kv, rest, c'.kv);
      fs := first + rest;
    }
  }

  /** A run of the service on top of careful peers is a run of the service over one agreed log. */
  lemma ClusterIsService(dec: Decoder, clerks: nat, servers: nat, es: seq<Event>, c: Cluster)
    returns (fs: seq<K.Event>)
    requires Goes(dec, Init(clerks, servers), es, c)
    ensures K.Goes(K.Init(clerks, servers), fs, c.kv)
  {
    InitInv(dec, clerks, servers);
    fs := RunSimulates(dec, Init(clerks, servers), P.HistInit(servers), A.NO_ACKS, es, c);
  }

  /** So its operations are linearizable: the completed ones with the pending writes that peers have
      sent; and if no operation is pending, the completed ones. */
  lemma ClusterIsLinearizable(dec: Decoder, clerks: nat, servers: nat, es: seq<Event>, c: Cluster)
    requires Goes(dec, Init(clerks, servers), es, c)
    ensures Linearizable(KvModel.Store(), KvLinearizable.Operations(c.kv))
    ensures KvLinearizable.Idle(c.kv) ==> Linearizable(KvModel.Store(), KvLinearizable.Completed(c.kv))
  {
    var fs := ClusterIsService(dec, clerks, servers, es, c);
    KvLinearizable.ServiceIsLinearizable(clerks, servers, fs, c.kv);
    if KvLinearizable.Idle(c.kv) {
      KvLinearizable.CompletedIsLinearizable(clerks, servers, fs, c.kv);
    }
  }
}
