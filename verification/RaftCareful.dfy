/** Two kinds of care that the program does not take: not to cut off entries that agree with a
    request, and to commit only up to items of the leader's own term. */
module RaftCareful {
  import opened RaftServer
  import opened RaftProtocol

  /** The request takes entries off the end of the log only if it conflicts with one of them. */
  ghost predicate CutsOnlyConflicts(log: seq<LogItem>, args: AppendArgs)
    requires Contiguous(log)
  {
    && HasIndex(log, args.prevLogIndex) && ItemAt(log, args.prevLogIndex).term == args.prevLogTerm
    && args.prevLogIndex + |args.entries| < LastIndex(log)
    ==>
      exists k :: 0 <= k < |args.entries| && ItemAt(log, args.prevLogIndex + 1 + k).term != args.entries[k].term
  }

  ghost predicate HandlesWithCare(s: Server, args: AppendArgs)
    requires Contiguous(s.log)
  {
    args.term < s.currentTerm || CutsOnlyConflicts(s.log, args)
  }

  /** The match indexes after a success reply of server j. */
  function NextMatch(s: Server, j: nat, args: AppendArgs): (r: seq<int>)
    requires j < |s.matchIndex|
  {
    s.matchIndex[j := args.prevLogIndex + |args.entries|]
  }

  /** If the reply makes the leader commit, it commits up to an item of its own term. */
  ghost predicate CommitsOwnTerm(s: Server, j: nat, args: AppendArgs, reply: AppendReply)
    requires Contiguous(s.log) && !AppendReplyPanics(s, j, args, reply)
  {
    reply.term == s.currentTerm && reply.success && LastTerm(s.log) == s.currentTerm ==>
      var k := FindMatch(NextMatch(s, j, args));
      k <= s.commitIndex || (HasIndex(s.log, k) && ItemAt(s.log, k).term == s.currentTerm)
  }

  // ---------- Runs with some care ----------

  datatype Care = NoCare | CareInCuts | CareInCommits | FullCare

  ghost predicate CarefulCut(w: World, e: Event)
    requires CanStep(w, e)
  {
    e.HandleAppend? ==>
      var c := w.calls[e.call];
      HandlesWithCare(w.servers[c.dest], c.aargs)
  }

  ghost predicate CarefulCommit(w: World, e: Event)
    requires CanStep(w, e)
  {
    e.AppendReplied? ==>
      var c := w.calls[e.call];
      CommitsOwnTerm(w.servers[c.from], c.dest, c.aargs, c.areply.value)
  }

  /** The step is taken with this care. */
  ghost predicate Minds(care: Care, w: World, e: Event)
    requires CanStep(w, e)
  {
    && (care.CareInCuts? || care.FullCare? ==> CarefulCut(w, e))
    && (care.CareInCommits? || care.FullCare? ==> CarefulCommit(w, e))
  }

  ghost predicate GoesWith(care: Care, w: World, es: seq<Event>, w': World)
    decreases |es|
  {
    if es == [] then w' == w
    else CanStep(w, es[0]) && Minds(care, w, es[0]) && GoesWith(care, Step(w, es[0]), es[1..], w')
  }

  lemma {:induction false} GoesWithGoes(care: Care, w: World, es: seq<Event>, w': World)
    requires GoesWith(care, w, es, w')
    ensures Goes(w, es, w')
    decreases |es|
  {
    if es != [] {
      GoesWithGoes(care, Step(w, es[0]), es[1..], w');
    }
  }
}
