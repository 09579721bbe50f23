# Raft, a key-value service, a shard master and a linearizability checker: models and proofs

The repository holds four programs that belong together: a Raft library, a key-value service
and a shard master that are built on it, and a linearizability checker (Porcupine) that judges
the histories of the key-value service. This project models all four in Dafny and proves what
they are for. `dafny verify dfyconfig.toml` checks everything.

## The parts

**The checker** (`src/porcupine`). `Linearizability.dfy` says what a linearization is, independently
of any search. `History.dfy` and `Events.dfy` build the checker's input from operations and from
events, and say for which of them it is the right one. `EntryList.dfy` and `OperationList.dfy` are
the doubly linked list that is rewired in place, `Bitset.dfy` the set of linearized operations,
`Search.dfy` the argument why nothing is missed, `Odometer.dfy` the argument why the loop ends, and
`Checker.dfy` the search itself, on the heap, with the hash-bucketed cache and the records of the
longest partial linearizations. Main results: the verdict is exact in both directions
(`CheckSingle`); when it rejects, what it records for each operation is a longest partial
linearization through it, and when it accepts, the record of every operation is one and the same
linearization; whatever it records can be replayed on the model; and it terminates for every model,
also with infinitely many states. `CheckParallel.dfy` is the collector with its workers, kill flag and
timeout as a state machine: its verdict is truthful under every interleaving, it says what happened
in the run, and the one way it gets stuck is named.

**The key-value model** (`src/models/kv.go`). `KvModel.dfy` proves the locality theorem for the
partition by key; `KvReads.dfy` says, by scanning the order, what every read of a linearization
returns; `KvCheck.dfy` puts partition, workers and collector together.

**Raft** (`src/raft`). `RaftServer.dfy` holds a server as a value and what every critical section
does to it, `RaftNode.dfy` the object with its fields, whose methods are proved against those
functions. `RaftProtocol.dfy` is the distributed protocol: every lock-held section is one step, a
call is handled at most once and its reply consumed at most once, calls may be lost, delayed and
reordered, servers may crash at any time and keep what they persisted, and a panic is the absence of
a step. `RaftElection.dfy` and `RaftLogs.dfy` prove Election Safety, Log Matching and Leader
Append-Only (Figure 3 of the extended Raft paper) over all runs. `RaftReplies.dfy` proves that
sending entries is the only step that can panic and says exactly when; `RaftPanic.dfy` gives a run
in which it does. `RaftCommit.dfy` proves that a leader never lowers its commit index.
`RaftRuns.dfy` is a vocabulary for concrete runs; `RaftUnsafe.dfy` and `RaftOldTerms.dfy` use it for
runs in which servers apply different commands at one index. `RaftCareful.dfy` says what two kinds
of care would prevent that, `RaftAcks.dfy` and `RaftSafety.dfy` prove Leader Completeness and State
Machine Safety for all runs that take both, and `RaftCareNeeded.dfy` puts it together: State Machine
Safety and Leader Completeness hold with both kinds of care and with no less. `RaftApplied.dfy`
proves what the services rely on: careful servers apply prefixes of one log. `RaftBackoff.dfy`
proves how a leader finds out what a follower misses, `RaftExchanges.dfy` and `RaftCatchUp.dfy` that
from every reachable state it can bring the follower up to date in a logarithmic number of exchanges,
and `RaftBackoffRun.dfy` has a run in which it does so and commits. `RaftCalls.dfy` says what single
calls promise: when stale servers step down, what clients are told, what is committed, what survives a
crash. `RaftLogFacts.dfy` has properties of one server, such as what its majority index is, and `RaftCompaction.dfy` proves that a
server that compacts its log behaves like one that never does, exactly as long as no message reaches
behind the compacted part or conflicts with its first item.

**The key-value service** (`src/kvraft`). `KvServer.dfy` is a server over an agreed log:
de-duplication by a high-water mark and snapshots. `KvService.dfy` is the whole service (clerks,
log, servers that lag, crash and are restored, replies that are delayed), and `KvLinearizable.dfy`
proves that every history of it is linearizable, by the linearization points of
`LinearizationPoints.dfy`, and so that its reads return what was written. `KvCluster.dfy` puts the service on top of Raft: servers that consume
what their careful peers send, at their own pace and from the start again after a crash, are a run
of that service; `KvClusterRun.dfy` has a run that completes an operation. `KvCheck.dfy` closes the
circle: the checker accepts every such history.

**The shard master** (`src/shardmaster`). `ShardMaster.dfy`: replicas are deterministic although
maps are iterated in any order, history is never rewritten, and dealing out shards is balanced
exactly when at most one shard is left over. `ShardMasterLog.dfy` says what one more command of a log
does to the configurations, which commands count as new, and what queries are told.

`Collections.dfy` and `Wrappers.dfy` are shared by all parts.

## What the proofs show about the code

Some properties one would expect do not hold of the code. Each is kept as it is and stated exactly.

- Without a timeout, checking an empty history never returns: the collector waits for a result of
  which there is none. In every other state some step is possible (`CheckParallel.Progress`).
- `findMatch` picks an index that a majority has reached if and only if the number of servers is
  odd (`RaftLogFacts.MajorityIffOdd`). With an even number it may be half of them, which does no harm:
  half of the servers and the voters of a leader have one in common (`RaftAcks.LeaderCompleteness`).
- State Machine Safety and Leader Completeness fail in runs of three servers, for two reasons. A
  delayed heartbeat makes a follower drop an entry that is already committed
  (`RaftUnsafe.StateMachineSafetyCanFail`), and a leader commits an entry of an older term as soon as
  the last entry of its log is of its own (`RaftOldTerms.StateMachineSafetyCanFail`). They hold for
  any number of servers and over all runs, crashes and delays included, if a server cuts off entries
  only on a conflict and a leader commits only up to an entry of its own term; neither property can
  spare either guard (`RaftCareNeeded.SafeIffFullCare`, `RaftCareNeeded.CompleteIffFullCare`).
- A follower's commit index can go down, also in a run of three servers
  (`RaftUnsafe.CommitIndexCanGoDown`): it is set to the end of the new entries, even when that is
  before what was committed. `RaftLogFacts.CommitIndexGoesDownIff` says exactly when.
- Compaction can leave a server with an empty log: it compacts at an index that it has applied,
  and a call on its way to it disagrees about the term of that index
  (`RaftUnsafe.CompactionCanEmptyLog`). Without compaction that does not happen; how far
  compaction goes unnoticed otherwise is `RaftCompaction.SameIffHarmless`.
- The history that the checker searches stands for the operations it was given, whatever the sort
  does with equal times, if and only if every call is before its return and no call ties with
  another return (`History.UntiedIff`).
- A leader can panic when it sends entries: the refusal of a heartbeat that it sent in an older
  term makes it expect more of a follower than it has itself (`RaftPanic.SendingCanPanic`). Nothing
  else can panic (`RaftReplies.OnlySendingCanPanic`).
- The high-water mark skips exactly the repeated commands if and only if each clerk's commands
  first reach the log in order (`KvServer.HighWaterMarkIsExact`).
- Shards are balanced after a redistribution, whatever they were before, if and only if the number
  of shards modulo the number of groups is at most one (`ShardMaster.BalancedIff`).

## Model

| member | source | states |
|---|---|---|
| Linearizability.FullPartialIsLinearization | src/porcupine/checker.go:239-247 | a legal, predecessor-closed list of all operations is the same thing as a linearization |
| Linearizability.PartialIsExtension | src/porcupine/checker.go:180-181 | partial linearizations are what a search can reach from the initial state, choosing among enabled operations |
| Linearizability.LinearizableSame | src/porcupine/checker.go:43-55 | only inputs, outputs and real-time order matter, so positions may replace timestamps |
| History.MakeEntries | src/porcupine/checker.go:43-55 | when no call ties with another return the sorted entries form a well-formed history of the same operations in the same real-time order |
| History.UntiedIff | src/porcupine/checker.go:43-55 | every outcome of the unstable sort stands for the operations if and only if each call is before its return and no call ties with another return |
| Events.Renumber | src/porcupine/checker.go:87-101 | every event gets the number of different ids that appear before the first event of its id |
| Events.NumberIsInjective | src/porcupine/checker.go:87-101 | two events have the same number if and only if they had the same id, and numbers stay below the count of ids |
| Events.NumberInOrder | src/porcupine/checker.go:87-101 | an id that appears for the first time gets a larger number than all before it |
| Events.NumberInUse | src/porcupine/checker.go:87-101 | all the numbers below that count are used |
| Events.ConvertEntries | src/porcupine/checker.go:103-114 | one entry per event, of its kind, with its index as time |
| Events.EntriesOfEvents | src/porcupine/checker.go:350-358 | the entries are the events, renumbered and converted, and well formed exactly for paired events |
| Events.WellFormedIffPaired | src/porcupine/checker.go:350-358 | the search gets a well-formed history if and only if each id has one call and, later, one return |
| EntryList.InsertBefore | src/porcupine/checker.go:65-76 | inserting a node before the first one keeps all links consistent |
| EntryList.MakeLinkedEntries | src/porcupine/checker.go:116-133 | the list holds one node per entry in order, and each call is matched with the first return of its id after it |
| EntryList.Length | src/porcupine/checker.go:78-85 | the number of entries |
| EntryList.Lift | src/porcupine/checker.go:154-162 | the list without the call and its return is linked consistently, and the two keep the links they need to come back, adjacent or last as they may be |
| EntryList.Unlift | src/porcupine/checker.go:164-172 | lifting is undone |
| OperationList.TakeOut | src/porcupine/checker.go:201 | the list then holds exactly the entries of the operations not taken, in original order, and every operation taken can still be put back in LIFO order |
| OperationList.PutBack | src/porcupine/checker.go:235 | the operation taken last comes back, and the same holds again |
| Bitset.NewBitset | src/porcupine/bitset.go:10-17 | the empty set, in just enough words |
| Bitset.Clone | src/porcupine/bitset.go:19-23 | a fresh copy with the same contents |
| Bitset.Set | src/porcupine/bitset.go:29-33 | adds the number and no other |
| Bitset.Clear | src/porcupine/bitset.go:35-39 | removes the number and no other |
| Bitset.Get | src/porcupine/bitset.go:41-44 | membership |
| Bitset.PopCnt | src/porcupine/bitset.go:46-52 | the size of the set |
| Bitset.CountAllCounts | src/porcupine/bitset.go:46-52 | summing the ones of the words counts the members |
| Bitset.SameMembers | src/porcupine/bitset.go:62-72 | words of equal length are equal if and only if they hold the same numbers |
| Bitset.Equals | src/porcupine/bitset.go:62-72 | equality of sets, for bitsets of one length |
| Bitset.HashBit | src/porcupine/bitset.go:54-60 | bit i of the hash is bit i of the number of members, flipped if an odd number of words have bit i |
| Checker.CacheContains | src/porcupine/checker.go:140-147 | finds the configuration if and only if some inserted one has the same set and an equal state, whatever bucket it is in |
| Checker.InsertContents | src/porcupine/checker.go:193-197 | inserting adds the configuration to the contents and nothing else |
| Search.InvPush | src/porcupine/checker.go:195-202 | taking a legal operation whose configuration is new keeps the search invariant |
| Search.InvSkipCached | src/porcupine/checker.go:203-205 | passing over a cached configuration misses no continuation that is longer than what is recorded |
| Search.InvPop | src/porcupine/checker.go:209-237 | when a return that has not been taken is met, every continuation of the path has been scanned, and undoing the last choice keeps the invariant |
| Search.InvReject | src/porcupine/checker.go:210-212 | at a return with nothing taken there is no linearization, and the recorded lengths are maximal |
| Odometer.ReadingIncreases | src/porcupine/checker.go:185-238 | turning a digit up outweighs all digits to its right: the termination measure of the search, free of the states |
| Checker.TryCall | src/porcupine/checker.go:189-208 | one iteration at a call keeps the invariant and decreases the measure |
| Checker.Backtrack | src/porcupine/checker.go:230-236 | one iteration back keeps the invariant and decreases the measure |
| Checker.UpdateLongest | src/porcupine/checker.go:213-229 | exactly the operations on the path whose record is shorter get the path as their record |
| Checker.CheckSingle | src/porcupine/checker.go:174-248 | true implies linearizable, and every operation is then recorded with one and the same complete linearization; false, when none of the readings of the kill flag that the search made found it raised and equality is sound, implies not linearizable and, if asked for, a longest partial linearization through every operation that has one, and no record at all otherwise; the first reading that finds the flag raised is the last; whatever the verdict, replaying a recorded order on the model never meets a refused step |
| CheckParallel.VerdictIsTruthful | src/porcupine/checker.go:269-348 | in every run Ok means all partitions are linearizable and Illegal that some is not; without a timeout the verdict is one of the two and exact |
| CheckParallel.VerdictSaysWhatHappened | src/porcupine/checker.go:337-346 | at the end of every run the verdict is Illegal if and only if some result that was received in the main loop was a rejection, and otherwise Unknown if and only if the time ran out |
| CheckParallel.RunSettles | src/porcupine/checker.go:286-313 | at the end of every run the kill flag is raised exactly if the time ran out or a rejection made the collector stop early, and with computeInfo every worker has been waited for |
| CheckParallel.Progress | src/porcupine/checker.go:286-305 | a run that is not finished can go on if and only if there is a partition or a timeout |
| CheckParallel.StepsEnd | src/porcupine/checker.go:286-314 | every step lowers a measure, so every run ends |
| KvModel.Partition | src/models/kv.go:18-34 | the parts are the sub-histories of the keys that occur, keys sorted, operations in order; the history is linearizable for the store if and only if each part is for one key |
| KvModel.LexLeIff | src/models/kv.go:28 | the order of the keys: the first string ends, or has the smaller byte, where the two first differ |
| KvModel.KeyLinearizable | src/porcupine/model.go:28-33 | a linearization of the whole history restricts to each key |
| KvModel.Merge | src/porcupine/model.go:28-33 | orders for the separate keys can be merged into one that respects real time and the store |
| KvModel.Locality | src/porcupine/model.go:28-33 | a history is linearizable for the store if and only if each key's operations are for the model of one key |
| KvModel.PartitionContract | src/porcupine/model.go:28-33 | a history is linearizable if and only if every part of a partition by key is |
| KvReads.LastPutIsLast | src/models/kv.go:47-49 | the put that counts for a read is the last one on its key before it |
| KvReads.LinearizationIffReadsRight | src/models/kv.go:40-54 | an order that respects real time is a linearization for the store if and only if every get in it returns the last put value of its key before it, followed by what was appended since, or nothing if nothing was written |
| KvReads.LinearizableIffReadsRight | src/models/kv.go:40-54 | a history is linearizable if and only if there is such an order |
| KvCheck.Worker | src/porcupine/checker.go:276-280 | from operations to verdict, a worker answers only what the collector lets it answer, the flag counting as raised only if the worker has read it raised |
| KvCheck.CheckParts | src/porcupine/checker.go:360-368 | partition, then one worker on each part: every answer is one that the collector may rely on |
| KvCheck.VerdictForStore | src/porcupine/checker.go:360-368 | the verdict over the parts of a history is truthful for the store, and exact without a timeout; it is Illegal if and only if a rejection was received, and otherwise Unknown if and only if the time ran out |
| KvCheck.CheckerAcceptsService | src/porcupine/porcupine.go:5-8 | no run of the checker rejects an idle history of the service, and without a timeout it answers Ok |
| RaftNode.Raft.Make | src/raft/raft.go:863-934 | the server that the disk describes, with the snapshot saved there, a blank disk being initialised |
| RaftNode.Raft.BecomeFollower | src/raft/raft.go:472-478 | the whole new state |
| RaftNode.Raft.BecomeCandidate | src/raft/raft.go:479-485 | the whole new state |
| RaftNode.Raft.BecomeLeader | src/raft/raft.go:486-496 | the loop fills both index lists for all peers; the whole new state |
| RaftNode.Raft.StartElection | src/raft/raft.go:509-521 | the new term and the vote for itself are on disk, and the request sent is about that state |
| RaftNode.Raft.RequestVote | src/raft/raft.go:352-382 | new state, disk and reply, in every branch |
| RaftNode.Raft.VoteReplied | src/raft/raft.go:528-547 | new state after a stale, newer, granted or refused reply |
| RaftNode.Raft.DeleteLogFromIndexInclusive | src/raft/raft.go:188-193 | keeps the items before the index |
| RaftNode.Raft.SendCommitMessage | src/raft/raft.go:788-796 | what is sent on the apply channel |
| RaftNode.Raft.AppendEntries | src/raft/raft.go:384-435 | new state, disk, messages and reply, in every branch |
| RaftNode.Raft.AppendArgsOf | src/raft/raft.go:571-578 | the request carries the items after the previous index |
| RaftNode.Raft.FindMatch | src/raft/raft.go:195-201 | the middle of the sorted match indexes |
| RaftNode.Raft.AppendReplied | src/raft/raft.go:586-615 | new state after every kind of reply |
| RaftNode.Raft.Start | src/raft/raft.go:763-787 | new state, disk and results |
| RaftNode.Raft.SaveSnapshot | src/raft/raft.go:810-824 | new log and disk, and the snapshot with its index and term saved along with them; an index outside the log changes nothing |
| RaftCalls.VoterTerm | src/raft/raft.go:352-382 | a server asked for its vote ends in the larger of the two terms, on disk, says so, and leads no more if the term is new |
| RaftCalls.FollowerTerm | src/raft/raft.go:384-398 | the same of a server that is sent entries |
| RaftCalls.StaleCandidateStepsDown | src/raft/raft.go:532-538 | a candidate that asks a server of a newer term gets no vote and steps down to that term when it hears the reply |
| RaftCalls.StaleLeaderStepsDown | src/raft/raft.go:588-593 | a leader that sends to a server of a newer term changes nothing there and steps down when it hears the reply |
| RaftCalls.OldRepliesAreIgnored | src/raft/raft.go:595-598 | replies from older terms change nothing |
| RaftCalls.Campaigns | src/raft/raft.go:479-521 | a candidate is in a term newer than its old one, with its own vote on disk and counted, and asks with a log as up to date as its own |
| RaftCalls.WinsIff | src/raft/raft.go:540-546 | a server becomes leader exactly with the vote of its own term that makes more than half |
| RaftCalls.LeaderIgnoresVotes | src/raft/raft.go:540-546 | to a leader the votes still on their way make no difference |
| RaftCalls.StartAnswers | src/raft/raft.go:763-787 | the client is told whether the server is leader; only a leader takes the command, as the last item of its log, under the index and term that it answers |
| RaftCalls.LeaderCommits | src/raft/raft.go:599-608 | after a success reply a leader whose log ends in its own term has committed exactly what at least half of the servers hold, or what it had before, and applied the new items each once |
| RaftCalls.OldTermCommitsNothing | src/raft/raft.go:603-608 | a leader whose log ends in an older term commits nothing |
| RaftCalls.FollowerCommits | src/raft/raft.go:423-428 | a follower that takes entries commits as much as the leader has, as far as its log goes |
| RaftCalls.Restarts | src/raft/raft.go:863-934 | a restarted server has the term, vote and log of its disk, leads nothing and takes what is up to the dummy for applied |
| RaftCalls.SnapshotSurvives | src/raft/raft.go:810-824 | after a compaction and a crash the server has the snapshot, and a log that starts at the index it includes and holds the items from there on |
| RaftCalls.ForeignSnapshotIsIgnored | src/raft/raft.go:810-824 | a snapshot of an index that the log does not hold is not taken |
| RaftBackoff.GoesBack | src/raft/raft.go:609-615 | after a refusal the next request starts strictly earlier and carries twice as many entries and one more, or all there are; a request right after the dummy cannot start earlier |
| RaftBackoff.FinallySendsAll | src/raft/raft.go:609-615 | however many commands come in between, after k refusals with 2^k beyond the distance to the dummy the follower is sent everything after the dummy |
| RaftCatchUp.CanCatchUp | src/raft/raft.go:554-616 | from every reachable state in which a leader can send to a server that is not ahead of it in terms, k + 1 exchanges give that server the leader's log, and the leader knows, where its next index is at most 2^k |
| RaftBackoffRun.MissedItemsAreMadeUp | src/raft/raft.go:554-616 | a run in which a follower that misses three items refuses a request with entries, takes the next one, and the leader commits all three |
| RaftElection.QuorumsMeet | src/raft/raft.go:184-186 | two candidates cannot both have a majority of votes in a term |
| RaftElection.WinnerHasQuorum | src/raft/raft.go:540-546 | the plain vote counter of a winner is backed by a majority of distinct servers that voted for it in that term |
| RaftElection.StepKeepsInv | src/raft/raft.go:352-382 | every step, crashes and lost calls included, keeps the election invariant |
| RaftElection.ElectionSafety | src/raft/raft.go:498-552 | servers that lead the same term, at any two points of a run, are the same server |
| RaftElection.ElectionCanBeWon | src/raft/raft.go:498-552 | a run in which an election is won |
| RaftLogs.AppendEntriesLog | src/raft/raft.go:399-420 | in every branch a follower's log stays made of pieces of leaders' logs |
| RaftLogs.StepKeepsLogInv | src/raft/raft.go:384-435 | every step keeps that invariant, and leaders' logs only grow |
| RaftLogs.LogMatching | src/raft/raft.go:384-435 | logs of two servers at any two points of a run that hold an entry with the same index and term agree up to it |
| RaftLogs.LeaderAppendOnly | src/raft/raft.go:763-787 | while a server leads a term its log is only appended to |
| RaftReplies.AckedIsInLog | src/raft/raft.go:599-608 | a success reply that is counted comes to a leader and is about entries of its own log |
| RaftReplies.OnlySendingCanPanic | src/raft/raft.go:164-172 | in every reachable state whatever is due, except sending entries, can happen without a panic |
| RaftReplies.SendingPanicsIff | src/raft/raft.go:563-578 | a leader can send to a peer or pass it over if and only if its next index is at most one past the end of the log |
| RaftPanic.SendingCanPanic | src/raft/raft.go:609-615 | a run of three servers after which a leader can do neither |
| RaftAcks.NotCut | src/raft/raft.go:399-421 | a careful follower keeps every entry on which it and the leader agree |
| RaftAcks.StepKeepsInv | src/raft/raft.go:352-435 | every step with careful cuts keeps what servers have taken from leaders in their logs and in those of the candidates they vote for, unless a leader in between lacks it |
| RaftAcks.LeaderCompleteness | src/raft/raft.go:352-382 | what at least half of the servers have taken from the leader of a term, up to an entry of that term, is in the log of every later leader |
| RaftSafety.StepKeepsInv | src/raft/raft.go:423-428 | every careful step keeps whatever servers have committed or applied taken by at least half of them |
| RaftSafety.StateMachineSafety | src/raft/raft.go:788-796 | servers never apply different messages at one index, at any two points of a careful run |
| RaftSafety.LeaderCompleteness | src/raft/raft.go:498-552 | what a server has applied is in the log of every leader of its term or a later one, from then on |
| RaftApplied.AppliedFromOneLog | src/raft/raft.go:32-48 | in a careful run each server has applied the items of its own log up to its commit index, each once and in order, and what all servers ever apply are prefixes of one list that only grows |
| RaftApplied.AppliedOnlyGrows | src/raft/raft.go:788-796 | in a careful run, until it crashes, a server's commit index does not go down and what it has applied is only added to |
| RaftUnsafe.RunCommits | src/raft/raft.go:602-608 | with any care there is a run in which a leader commits and applies a command |
| RaftUnsafe.StateMachineSafetyCanFail | src/raft/raft.go:399-421 | a run of three servers, careful in its commits, after which two of them have applied different commands at one index, and a leader lacks what was committed in an older term |
| RaftOldTerms.StateMachineSafetyCanFail | src/raft/raft.go:602-608 | a run of three servers, careful in its cuts, after which two of them have applied different commands at one index, and a leader lacks what was applied in an older term |
| RaftCareNeeded.SafeIffFullCare | src/raft/raft.go:384-435 | State Machine Safety holds of all runs with some care if and only if it is care in both cuts and commits |
| RaftCareNeeded.CompleteIffFullCare | src/raft/raft.go:498-552 | Leader Completeness holds of all runs with some care if and only if it is care in both cuts and commits |
| RaftUnsafe.CommitIndexCanGoDown | src/raft/raft.go:423-428 | a run of three servers after which a waiting call, when handled, lowers a follower's commit index |
| RaftUnsafe.CompactionCanEmptyLog | src/raft/raft.go:406-413 | a run of three servers after which a server that compacts at an index it has applied, and handles a waiting call, has no log item left |
| RaftCommit.LeaderCommitGrows | src/raft/raft.go:602-608 | a server that leads one term at two points of a run has not lowered its commit index in between |
| RaftCompaction.SameIffHarmless | src/raft/raft.go:384-421 | one operation keeps a compacted and an uncompacted server the same from the dummy on, with the same answer, if and only if it does not reach behind the dummy or conflict with it |
| RaftCompaction.CompactionIsTransparent | src/raft/raft.go:810-824 | over any sequence of such operations, compactions anywhere among them change neither an answer nor a retained item |
| RaftLogFacts.CommitMessagesAre | src/raft/raft.go:788-796 | the items of the range, each once, in order of index, the dummy left out |
| RaftLogFacts.FindMatchIsLargest | src/raft/raft.go:195-201 | the largest value that at least half of the servers, rounded up, have reached |
| RaftLogFacts.MajorityIffOdd | src/raft/raft.go:184-201 | it has always been reached by a majority if and only if the number of servers is odd |
| KvServer.KVServer.constructor | src/kvraft/server.go:326-357 | an empty server, or the one the snapshot describes |
| KvServer.KVServer.GetLastCommitCommandCount | src/kvraft/server.go:230-236 | the clerk's mark, -1 if there is none |
| KvServer.KVServer.ApplyMessage | src/kvraft/server.go:166-222 | new map and marks after a snapshot, a new command or a duplicate |
| KvServer.KVServer.Poll | src/kvraft/server.go:97-112 | a request is answered once the mark has reached it, from the state as it is then |
| KvServer.AppliedIsAnswered | src/kvraft/server.go:97-112 | an applied command is never told to try again: a Get hears the value of its key, or that there is no such key, exactly as the map says, and a write has succeeded |
| KvServer.LastCountIsMax | src/kvraft/server.go:230-236 | the mark is the largest number the clerk has in the log |
| KvServer.HighWaterMarkIsExact | src/kvraft/server.go:180-206 | a log entry is applied exactly when its command is new, for all entries, if and only if each clerk's commands first occur in order |
| KvServer.RetriesDoNotMatter | src/kvraft/server.go:180-206 | the map is the one where each command took effect once, at its first occurrence |
| KvServer.SnapshotReplay | src/kvraft/server.go:171-216 | restoring the state after k commands and feeding the log again from any j up to k gives the same map and marks as the whole log |
| KvService.CountSaysOccurs | src/kvraft/server.go:97-112 | in a log of the service the mark says exactly which commands it holds |
| KvService.FeedReplica | src/kvraft/server.go:171-206 | a server that was restored and is fed again always reflects a prefix of the log |
| KvService.StepKeepsInv | src/kvraft/client.go:63-165 | every step of clerks, log and servers keeps the invariant of the service |
| KvLinearizable.EffectIsStep | src/kvraft/server.go:190-205 | what a write does to a server's map is what its operation does to the store |
| LinearizationPoints.PointsLinearize | src/porcupine/model.go:28-33 | operations with points inside their intervals that explain a sequence of states are linearizable |
| KvLinearizable.ServiceIsLinearizable | src/kvraft/server.go:69-222 | in every reachable state the completed operations with the pending writes that reached the log are linearizable |
| KvLinearizable.CompletedIsLinearizable | src/kvraft/client.go:63-152 | with no operation pending the completed ones are |
| KvLinearizable.ServiceReadsRight | src/kvraft/server.go:69-222 | in every reachable state there is an order of the operations that respects real time and in which every get returned what was written before it |
| KvCluster.ClusterIsService | src/kvraft/server.go:166-222 | servers that consume what their own careful Raft peers send, and start over after a crash, run the service over one agreed log |
| KvCluster.ClusterIsLinearizable | src/kvraft/server.go:326-357 | every history of such a cluster is linearizable |
| KvClusterRun.ClusterCompletes | src/kvraft/client.go:63-152 | a run of such a cluster in which a clerk's write is agreed on, applied, answered and completed |
| Collections.SortSet | src/shardmaster/server.go:145-151 | the members of a set in order, each once, in whatever order they are taken |
| ShardMaster.SortedUnique | src/shardmaster/server.go:145-151 | there is only one such list |
| ShardMaster.Master.RedistributeShard | src/shardmaster/server.go:134-163 | the assignment depends on the old one and the set of groups alone |
| ShardMaster.Master.HandleJoin | src/shardmaster/server.go:235-246 | the whole new state, or a panic exactly when a group is already there, in whatever order the message yields its groups |
| ShardMaster.Master.HandleLeave | src/shardmaster/server.go:248-255 | the whole new state |
| ShardMaster.Master.HandleMove | src/shardmaster/server.go:268-276 | the whole new state, or a panic exactly when there is no such group or shard |
| ShardMaster.Master.HandleQuery | src/shardmaster/server.go:256-267 | the configuration of that number, or the newest for a number out of range |
| ShardMaster.Master.ApplyCommand | src/shardmaster/server.go:81-103 | a duplicate changes nothing; a new command has its effect and raises the clerk's mark |
| ShardMaster.Master.ApplyLog | src/shardmaster/server.go:71-118 | replicas fed the same log have the same state, whatever orders their maps were iterated in |
| ShardMaster.HistoryGrows | src/shardmaster/server.go:194-197 | the configurations after any prefix of a log are still there after the whole log |
| ShardMaster.HistoricalQueryIsStable | src/shardmaster/server.go:256-267 | configuration k has number k, and a query for it gets the same answer forever |
| ShardMaster.NewestIsCurrent | src/shardmaster/server.go:180-197 | the newest configuration is always the assignment in force |
| ShardMaster.RunsCount | src/shardmaster/server.go:153-161 | the dealing loop gives every group the same number of shards |
| ShardMaster.LeftoverKeepsOwner | src/shardmaster/server.go:153-162 | with two or more shards left over the last but one keeps its old owner |
| ShardMaster.BalancedIff | src/shardmaster/server.go:134-163 | the result is balanced for all old assignments if and only if at most one shard is left over |
| ShardMaster.FirstJoinBalancedIff | src/shardmaster/server.go:134-163 | the same for the first groups that join |
| ShardMaster.JoinAndLeaveBalance | src/shardmaster/server.go:235-255 | after any Join or Leave the load is balanced over the groups left, if at most one shard is over, and all shards are unowned if no group is |
| ShardMasterLog.NewMove | src/shardmaster/server.go:268-276 | a new Move gives that one shard to that group, adds one configuration and changes nothing else; it panics exactly when the group or the shard is not there |
| ShardMasterLog.NewQuery | src/shardmaster/server.go:95-96 | a Query adds no configuration |
| ShardMasterLog.NewJoin | src/shardmaster/server.go:235-246 | after a new Join the groups are those before and the newcomers, with their servers, in one more configuration; it panics exactly when a newcomer is already there |
| ShardMasterLog.NewLeave | src/shardmaster/server.go:248-255 | after a new Leave the groups are those before without the ones that leave, in one more configuration |
| ShardMasterLog.NewOwners | src/shardmaster/server.go:134-163 | after either of them the g-th group in ascending order owns the g-th run of shards, the last group the last shard, and what is left over keeps its owner |
| ShardMasterLog.NoGroupsNoOwners | src/shardmaster/server.go:134-142 | without groups nobody owns a shard |
| ShardMasterLog.FirstConfig | src/shardmaster/server.go:495-497 | configuration 0 has no groups and no owners, whatever comes later |
| ShardMasterLog.OldChangesNothing | src/shardmaster/server.go:86-89 | a command that the log already holds, or an older one of its clerk, changes nothing |
| ShardMasterLog.OneConfigPerChange | src/shardmaster/server.go:180-197 | there is one configuration for each new command that is not a query, after the first one |
| ShardMasterLog.QueryAnswer | src/shardmaster/server.go:256-261 | a query is answered with the configuration of its number if there is one, and with the assignment in force otherwise |

## Left out

- InstallSnapshot and the sending of snapshots between servers: compaction is an operation of one server (`RaftCompaction.CompactionIsTransparent`), and the distributed protocol is the one without it.
- Liveness of Raft: election timing and progress depend on real clocks; what is proved is that progress is possible (`RaftElection.ElectionCanBeWon`, `RaftCatchUp.CanCatchUp`).
- KvCluster.ClusterIsLinearizable: is about peers that take the two kinds of care and do not compact; a server's snapshot does not shorten its peer's log, which sends everything again after a crash.
- Overlapping commands of one clerk: the service is modelled for clerks that wait for each reply.
- labrpc, labgob and the persister: the network is a set of calls, encoding is the identity, and the disk is what was saved last.
- Snapshots of the shard master: they are switched off by a constant in the program.
- Locks, sleeps, goroutines, debug output and the HTML of the visualizer.
- RaftSafety.StateMachineSafety: is about runs that keep to two guards that the program does not have; `RaftCareNeeded.SafeIffFullCare` shows that with less it is false.
- Checker.CheckSingle: histories in which a call has no return or an id is used twice are not covered; `Events.WellFormedIffPaired` says which ones they are. Records are kept as lists where the program shares pointers to lists, and the cached bitsets are values.
- Checker.UpdateLongest: the lists that checkParallel collects from the records for the visualizer are not assembled.
- History.MakeEntries: says nothing when a call ties with another return or is not before its own, because the sort is not stable; `History.UntiedIff` shows that nothing more could be said.
- Bitset.Set: words are 64 booleans, so shifts and masks are updates of one position; the hash is defined bit by bit.
- EntryList.Lift: the field `match` is called `matching`, a reserved word being in the way.
- KvCheck.VerdictForStore: the goroutines are not run; the collector is a state machine over the truth of each part, and `KvCheck.CheckParts` proves that the answers of the workers are ones it allows.
- RaftNode.Raft.AppendArgsOf: the loop over all peers is one step per peer in the protocol, which allows more interleavings than the lock does.
- RaftNode.Raft.StartElection: sending the requests is part of the protocol step.
- RaftNode.Raft.Make: the goroutines it starts are the steps of the protocol.
- KvServer.KVServer.Poll: calling Raft, waiting and timing out are steps of the service; a clerk is a number.
- KvService.StepKeepsInv: the fields asOf, upTo and ticks only observe; they do not influence any step.
- ShardMaster.HistoryGrows: configurations are values, so the copying of maps and lists that keeps them apart in the program is not modelled.
