/** The replicated key-value server: how it applies the commands that the agreed log delivers,
    how it recognises duplicates, and how it is restored from a snapshot. */
module KvServer {

  datatype CommandType = GetCommand | PutCommand | AppendCommand

  datatype CommandId = CommandId(clerk: nat, command: nat)

  datatype Command = Command(id: CommandId, ctype: CommandType, key: string, value: string)

  /** What a server knows; also what a snapshot holds. */
  datatype KvState = KvState(kvMap: map<string, string>, counts: map<nat, int>)

  /** What the apply channel delivers: a snapshot, or the command at an index. */
  datatype ApplyMsg = SnapshotMsg(state: KvState) | CommandMsg(command: Command)

  const EMPTY: KvState := KvState(map[], map[])

  /** The number of the last command of this clerk that was applied (-1 if none was). */
  function LastCount(st: KvState, clerk: nat): (r: int)
  {
    if clerk in st.counts then st.counts[clerk] else -1
  }

  /** The effect of a command on the map. */
  function Effect(kvMap: map<string, string>, c: Command): (r: map<string, string>)
  {
    match c.ctype
    case GetCommand => kvMap
    case PutCommand => kvMap[c.key := c.value]
    case AppendCommand => kvMap[c.key := if c.key in kvMap then kvMap[c.key] + c.value else c.value]
  }

  function Apply(st: KvState, c: Command): (r: KvState)
  {
    if LastCount(st, c.id.clerk) >= c.id.command then st
    else KvState(Effect(st.kvMap, c), st.counts[c.id.clerk := c.id.command])
  }

  function Deliver(st: KvState, msg: ApplyMsg): (r: KvState)
  {
    match msg
    case SnapshotMsg(state) => state
    case CommandMsg(c) => Apply(st, c)
  }

  /** The state after feeding commands one by one. */
  function ApplyAll(st: KvState, log: seq<Command>): (r: KvState)
  {
    if log == [] then st else Apply(ApplyAll(st, log[..|log| - 1]), log[|log| - 1])
  }

  // ---------- The server object ----------

  datatype Reply = WrongLeader | TimeOut | NoKey | Ok(value: string)

  class KVServer {
    var kvMap: map<string, string>
    var lastCommittedCommandCount: map<nat, int>

    ghost function Value(): (st: KvState)
      reads this
    {
      KvState(kvMap, lastCommittedCommandCount)
    }

    /** A new server; a snapshot, if there is one, is restored. */
    constructor (snapshot: seq<KvState>)
      ensures Value() == if |snapshot| > 0 then snapshot[0] else EMPTY
    {
      kvMap := map[];
      lastCommittedCommandCount := map[];
      new;
      if |snapshot| > 0 {
        kvMap := snapshot[0].kvMap;
        lastCommittedCommandCount := snapshot[0].counts;
      }
    }

    method GetLastCommitCommandCount(clerk: nat) returns (count: int)
      ensures count == LastCount(Value(), clerk)
    {
      if clerk !in lastCommittedCommandCount {
        return -1;
      }
      return lastCommittedCommandCount[clerk];
    }

    /** One turn of the apply loop. */
    method ApplyMessage(msg: ApplyMsg)
      modifies this
      ensures Value() == Deliver(old(Value()), msg)
    {
      match msg
      case SnapshotMsg(state) =>
        kvMap := state.kvMap;
        lastCommittedCommandCount := state.counts;
      case CommandMsg(command) =>
        var lastCommand := GetLastCommitCommandCount(command.id.clerk);
        if lastCommand >= command.id.command {
          return;
        }
        if command.ctype == GetCommand {
        } else if command.ctype == PutCommand {
          kvMap := kvMap[command.key := command.value];
        } else {
          var value;
          if command.key !in kvMap {
            value := command.value;
          } else {
            value := kvMap[command.key] + command.value;
          }
          kvMap := kvMap[command.key := value];
        }
        lastCommittedCommandCount := lastCommittedCommandCount[command.id.clerk := command.id.command];
    }

    /** What a waiting request finds when it looks: nothing yet, or its reply. */
    method Poll(c: Command) returns (done: bool, reply: Reply)
      ensures done <==> LastCount(Value(), c.id.clerk) >= c.id.command
      ensures done ==> reply == ReplyTo(Value(), c) && reply != TimeOut && reply != WrongLeader
    {
      var lastCommitCommand := GetLastCommitCommandCount(c.id.clerk);
      if lastCommitCommand < c.id.command {
        return false, TimeOut;
      }
      if c.ctype == GetCommand {
        if c.key !in kvMap {
          return true, NoKey;
        }
        return true, Ok(kvMap[c.key]);
      }
      return true, Ok("");
    }
  }

  /** The reply to a command that has been applied. */
  function ReplyTo(st: KvState, c: Command): (r: Reply)
  {
    if c.ctype != GetCommand then Ok("")
    else if c.key in st.kvMap then Ok(st.kvMap[c.key]) else NoKey
  }

  /** An applied command is never told to try again: a Get has the value of its key, or hears that
      there is no such key, exactly as the map says, and a write has succeeded. */
  lemma AppliedIsAnswered(st: KvState, c: Command)
    ensures var r := ReplyTo(st, c);
      && r != TimeOut && r != WrongLeader
      && (r == NoKey <==> c.ctype == GetCommand && c.key !in st.kvMap)
      && (c.ctype == GetCommand && c.key in st.kvMap ==> r == Ok(st.kvMap[c.key]))
  {
  }

  /** The value the clerk hands to its caller; a missing key reads as the empty string. */
  function ValueOf(reply: Reply): (r: string)
  {
    if reply.Ok? then reply.value else ""
  }

  // ---------- Duplicates ----------

  ghost predicate Occurs(log: seq<Command>, id: CommandId)
  {
    exists i :: 0 <= i < |log| && log[i].id == id
  }

  /** Entry i is the first one with its id. */
  ghost predicate IsFirst(log: seq<Command>, i: nat)
    requires i < |log|
  {
    !Occurs(log[..i], log[i].id)
  }

  /** Entry i is applied rather than skipped. */
  ghost predicate IsApplied(log: seq<Command>, i: nat)
    requires i < |log|
  {
    LastCount(ApplyAll(EMPTY, log[..i]), log[i].id.clerk) < log[i].id.command
  }

  /** The first occurrences of each clerk's commands come in the order of their numbers. */
  ghost predicate FirstsInOrder(log: seq<Command>)
  {
    forall i, j :: 0 <= i < j < |log| && IsFirst(log, j) && log[i].id.clerk == log[j].id.clerk ==>
      log[i].id.command < log[j].id.command
  }

  /** The high-water mark is the largest number that the clerk has in the log. */
  lemma {:induction false} LastCountIsMax(log: seq<Command>, clerk: nat)
    ensures var count := LastCount(ApplyAll(EMPTY, log), clerk);
      && -1 <= count
      && (forall i :: 0 <= i < |log| && log[i].id.clerk == clerk ==> log[i].id.command <= count)
      && (count >= 0 ==> Occurs(log, CommandId(clerk, count)))
    decreases |log|
  {
    if log != [] {
      var k := |log| - 1;
      LastCountIsMax(log[..k], clerk);
      var count0, count := LastCount(ApplyAll(EMPTY, log[..k]), clerk), LastCount(ApplyAll(EMPTY, log), clerk);
      if count >= 0 {
        if count == count0 {
          var i :| 0 <= i < k && log[..k][i].id == CommandId(clerk, count);
          assert log[i].id == CommandId(clerk, count);
        } else {
          assert log[k].id == CommandId(clerk, count);
        }
      }
    }
  }

  lemma ExactIsInOrder(log: seq<Command>)
    requires forall i :: 0 <= i < |log| ==> (IsApplied(log, i) <==> IsFirst(log, i))
    ensures FirstsInOrder(log)
  {
    forall i, j | 0 <= i < j < |log| && IsFirst(log, j) && log[i].id.clerk == log[j].id.clerk
      ensures log[i].id.command < log[j].id.command
    {
      AppliedIffLargest(log, j);
    }
  }

  lemma InOrderIsExact(log: seq<Command>, i: nat)
    requires FirstsInOrder(log) && i < |log|
    ensures IsApplied(log, i) <==> IsFirst(log, i)
  {
    if IsApplied(log, i) {
      AppliedIsFirst(log, i);
    } else {
      AppliedIffLargest(log, i);
    }
  }

  /** De-duplication by the high-water mark applies exactly the first occurrences if and only
      if the first occurrences come in the order of their numbers. */
  lemma HighWaterMarkIsExact(log: seq<Command>)
    ensures (forall i :: 0 <= i < |log| ==> (IsApplied(log, i) <==> IsFirst(log, i))) <==> FirstsInOrder(log)
  {
    if FirstsInOrder(log) {
      forall i | 0 <= i < |log| ensures IsApplied(log, i) <==> IsFirst(log, i) {
        InOrderIsExact(log, i);
      }
    } else if forall i :: 0 <= i < |log| ==> (IsApplied(log, i) <==> IsFirst(log, i)) {
      ExactIsInOrder(log);
    }
  }

  /** The map after applying each command exactly once, where it first occurs. */
  ghost function OnceMap(log: seq<Command>): (r: map<string, string>)
  {
    if log == [] then map[]
    else
      var k := |log| - 1;
      if Occurs(log[..k], log[k].id) then OnceMap(log[..k]) else Effect(OnceMap(log[..k]), log[k])
  }

  lemma InOrderPrefix(log: seq<Command>, k: nat)
    requires FirstsInOrder(log) && k <= |log|
    ensures FirstsInOrder(log[..k])
  {
    forall i, j | 0 <= i < j < k && IsFirst(log[..k], j) && log[i].id.clerk == log[j].id.clerk
      ensures log[i].id.command < log[j].id.command
    {
      assert log[..k][..j] == log[..j];
      assert IsFirst(log, j);
    }
  }

  /** However many retries are interleaved, the map is the one where every command took
      effect once. */
  lemma {:induction false} RetriesDoNotMatter(log: seq<Command>)
    requires FirstsInOrder(log)
    ensures ApplyAll(EMPTY, log).kvMap == OnceMap(log)
    decreases |log|
  {
    if log != [] {
      var k := |log| - 1;
      InOrderPrefix(log, k);
      RetriesDoNotMatter(log[..k]);
      InOrderIsExact(log, k);
    }
  }

  lemma AppliedIffLargest(log: seq<Command>, j: nat)
    requires j < |log|
    ensures IsApplied(log, j) <==>
      forall i :: 0 <= i < j && log[i].id.clerk == log[j].id.clerk ==> log[i].id.command < log[j].id.command
  {
    var clerk := log[j].id.clerk;
    LastCountIsMax(log[..j], clerk);
    var count := LastCount(ApplyAll(EMPTY, log[..j]), clerk);
    if count >= log[j].id.command {
      var i :| 0 <= i < j && log[..j][i].id == CommandId(clerk, count);
      assert log[i].id == CommandId(clerk, count);
    }
    assert forall i :: 0 <= i < j ==> log[..j][i] == log[i];
  }

  /** What is applied has not occurred before. */
  lemma AppliedIsFirst(log: seq<Command>, j: nat)
    requires j < |log| && IsApplied(log, j)
    ensures IsFirst(log, j)
  {
    AppliedIffLargest(log, j);
    assert forall i :: 0 <= i < j ==> log[..j][i] == log[i];
  }

  // ---------- Snapshots ----------

  lemma {:induction false} ApplyAllAppend(st: KvState, a: seq<Command>, b: seq<Command>)
    ensures ApplyAll(st, a + b) == ApplyAll(ApplyAll(st, a), b)
    decreases |b|
  {
    if b == [] {
      assert a + b == a;
    } else {
      var k := |b| - 1;
      assert (a + b)[..|a + b| - 1] == a + b[..k];
      ApplyAllAppend(st, a, b[..k]);
    }
  }

  /** All these commands would be skipped. */
  ghost predicate AllOld(st: KvState, log: seq<Command>)
  {
    forall i :: 0 <= i < |log| ==> log[i].id.command <= LastCount(st, log[i].id.clerk)
  }

  lemma {:induction false} OldIsSkipped(st: KvState, log: seq<Command>)
    requires AllOld(st, log)
    ensures ApplyAll(st, log) == st
    decreases |log|
  {
    if log != [] {
      OldIsSkipped(st, log[..|log| - 1]);
    }
  }

  /** Snapshot and replay agree with full replay: take the state after the first k commands
      and feed the log again from any position j up to there; nothing is lost, and nothing
      is applied twice. */
  lemma SnapshotReplay(log: seq<Command>, j: nat, k: nat)
    requires j <= k <= |log|
    ensures ApplyAll(ApplyAll(EMPTY, log[..k]), log[j..]) == ApplyAll(EMPTY, log)
  {
    ReplayedIsOld(log, j, k);
    SkipOld(ApplyAll(EMPTY, log[..k]), log, j, k);
    Split(EMPTY, log, 0, k);
    assert log[0..k] == log[..k] && log[0..] == log;
  }

  /** Commands that are old to a state can be left out. */
  lemma SkipOld(st: KvState, log: seq<Command>, j: nat, k: nat)
    requires j <= k <= |log| && AllOld(st, log[j..k])
    ensures ApplyAll(st, log[j..]) == ApplyAll(st, log[k..])
  {
    OldIsSkipped(st, log[j..k]);
    Split(st, log, j, k);
  }

  lemma Split(st: KvState, log: seq<Command>, j: nat, k: nat)
    requires j <= k <= |log|
    ensures ApplyAll(st, log[j..]) == ApplyAll(ApplyAll(st, log[j..k]), log[k..])
  {
    assert log[j..] == log[j..k] + log[k..];
    ApplyAllAppend(st, log[j..k], log[k..]);
  }

  lemma ReplayedIsOld(log: seq<Command>, j: nat, k: nat)
    requires j <= k <= |log|
    ensures AllOld(ApplyAll(EMPTY, log[..k]), log[j..k])
  {
    forall i | j <= i < k ensures log[i].id.command <= LastCount(ApplyAll(EMPTY, log[..k]), log[i].id.clerk) {
      LastCountIsMax(log[..k], log[i].id.clerk);
      assert log[..k][i] == log[i];
    }
  }
}
