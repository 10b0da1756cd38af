/** Publication of committed entries on the bounded bus to the query worker. */
module Broadcast {
  import opened Logs
  import Q = Query

  const MAX_RETRIES_PER_ENTRY: nat := 100
  const YIELD_INTERVAL: nat := 10
  const MAX_BROADCAST_PER_TIMESTEP: nat := 5000

  function Min(a: nat, b: nat): nat {
    if a <= b then a else b
  }

  /** How many attempts in a row find room (or find none), counting from attempt `a` up to
      `n` attempts. */
  function Streak(room: nat -> bool, found: bool, a: nat, n: nat): (k: nat)
    ensures k <= n
    ensures forall i: nat | a <= i < a + k :: room(i) == found
    ensures k < n ==> room(a + k) != found
    decreases n
  {
    if n == 0 || room(a) != found then 0 else Streak(room, found, a + 1, n - 1) + 1
  }

  /** Some attempt among the next `n` finds room. */
  predicate RoomWithin(room: nat -> bool, a: nat, n: nat) {
    Streak(room, false, a, n) < n
  }

  /** `Complete` is a write that has become complete, `Announce` the first step of a
      leadership. */
  datatype Op =
    | Append(entry: Entry)
    | Truncate(length: nat)
    | Commit(index: nat)
    | Complete(index: nat)
    | Announce
    | Retry

  function LogAfter(log: Log, op: Op): Log {
    match op
    case Append(e) => log + [e]
    case Truncate(length) => if length < |log| then log[..length] else log
    case _ => log
  }

  function LogAfterAll(log: Log, ops: seq<Op>): Log {
    if ops == [] then log else LogAfter(LogAfterAll(log, ops[..|ops| - 1]), ops[|ops| - 1])
  }

  function CommitAfter(commit: nat, op: Op): nat {
    match op
    case Commit(index) => index
    case Complete(index) => if index > commit then index else commit
    case _ => commit
  }

  function CommitAfterAll(commit: nat, ops: seq<Op>): nat {
    if ops == [] then commit else CommitAfter(CommitAfterAll(commit, ops[..|ops| - 1]), ops[|ops| - 1])
  }

  /** The entries whose writers have been told of success. */
  function ToldAfter(told: set<Entry>, log: Log, op: Op): set<Entry> {
    if op.Complete? && op.index < |log| then told + {log[op.index]} else told
  }

  function ToldAfterAll(told: set<Entry>, log: Log, ops: seq<Op>): set<Entry> {
    if ops == [] then told
    else
      var n := |ops| - 1;
      ToldAfter(ToldAfterAll(told, log, ops[..n]), LogAfterAll(log, ops[..n]), ops[n])
  }

  lemma PrefixGrows(log: Log, bus: seq<Entry>)
    requires |bus| < |log|
    ensures bus == log[..|bus|] ==> bus + [log[|bus|]] == log[..|bus| + 1]
  {
  }

  /** The log, the commit index and the broadcast state of the raft state. `room(k)` tells
      whether the k-th attempt to put an entry on the bus finds room; `bus` holds all entries
      ever put there, `told` the entries whose writers were told of success. */
  class Publisher {
    const room: nat -> bool
    var log: Log
    var commitIndex: nat
    var lastBroadcast: Option<nat>
    var deferred: bool
    var version: nat
    var bus: seq<Entry>
    var told: set<Entry>
    var attempts: nat

    /** History: the steps taken on the board that the query worker shares, from its first
        state on. `lawful` tells whether all of them were permitted. */
    const start: Q.Board
    var board: Q.Board
    var trace: seq<Q.EnvironmentStep>
    var lawful: bool

    constructor (room: nat -> bool, recovered: Log)
      ensures BusPrefix() && Next() == 0 && log == recovered && commitIndex == 0 && !deferred
      ensures Traced() && Shown() && (lawful <==> WellFormed(recovered)) && (lawful ==> Q.BoardOk(start))
    {
      this.room := room;
      log, commitIndex, lastBroadcast, deferred, version, bus, attempts := recovered, 0, None, false, 0, [], 0;
      told := {};
      start, board := Q.Board(0, 0, recovered, 0, [], [], {}), Q.Board(0, 0, recovered, 0, [], [], {});
      trace, lawful := [], WellFormed(recovered);
    }

    /** The publisher was lawful exactly when it started from a well-formed log and all of its
        steps on the board so far were permitted. */
    predicate Traced()
      reads this`board, this`trace, this`lawful
    {
      if lawful then WellFormed(start.log) && Q.TakenAll(start, trace) == Some(board)
      else !WellFormed(start.log) || Q.TakenAll(start, trace).None?
    }

    /** The board shows the publisher's state. */
    predicate Shown()
      reads this`board, this`lawful, this`commitIndex, this`version, this`log, this`bus, this`told
    {
      lawful ==>
        && board.commit == commitIndex && board.version == version && board.log == log
        && board.sent == |bus| <= |log| && bus == log[..|bus|] && board.succeeded == told
    }

    /** Takes a step, on the board if it is permitted. */
    method Note(step: Q.EnvironmentStep)
      requires Traced()
      modifies this`board, this`trace, this`lawful
      ensures Traced() && lawful == (old(lawful) && Q.Permitted(old(board), step))
      ensures lawful ==> board == Q.Taken(old(board), step)
      ensures trace == old(trace) + [step]
    {
      Q.TakeOneMore(start, trace, step);
      lawful, trace := lawful && Q.Permitted(board, step), trace + [step];
      if lawful {
        board := Q.Taken(board, step);
      }
    }

    method BumpVersion()
      requires Traced() && Shown()
      modifies this`version, this`board, this`trace, this`lawful
      ensures Traced() && Shown() && lawful == old(lawful) && version == old(version) + 1
    {
      version := version + 1;
      Note(Q.BumpVersion);
    }

    function Next(): nat
      reads this`lastBroadcast
    {
      if lastBroadcast.Some? then lastBroadcast.value + 1 else 0
    }

    /** The bus has carried exactly the log up to the last broadcast index, in order. */
    predicate BusPrefix()
      reads this`lastBroadcast, this`log, this`bus
    {
      Next() <= |log| && bus == log[..Next()]
    }

    /** The entry is the next one for the bus and committed. */
    predicate IsNext(e: Entry)
      reads this`bus, this`log, this`commitIndex
    {
      |bus| < |log| && |bus| <= commitIndex && e == log[|bus|]
    }

    method TryBroadcast(e: Entry) returns (ok: bool)
      requires Traced() && Shown() && IsNext(e)
      modifies this`attempts, this`bus, this`board, this`trace, this`lawful
      ensures ok == room(old(attempts)) && attempts == old(attempts) + 1
      ensures bus == old(bus) + if ok then [e] else []
      ensures Traced() && Shown() && lawful == old(lawful)
    {
      hide Traced;
      ok := room(attempts);
      attempts := attempts + 1;
      if ok {
        PrefixGrows(log, bus);
        bus := bus + [e];
        Note(Q.BroadcastNext);
      }
    }

    /** Tries entry i, which is the next one, once. */
    method TryAt(i: nat) returns (ok: bool)
      requires Traced() && Shown() && i < |log| && i <= commitIndex && bus == log[..i]
      modifies this`attempts, this`bus, this`board, this`trace, this`lawful
      ensures ok == room(old(attempts)) && attempts == old(attempts) + 1
      ensures bus == if ok then log[..i + 1] else log[..i]
      ensures Traced() && Shown() && lawful == old(lawful)
    {
      hide Traced, Shown;
      PrefixGrows(log, bus);
      ok := TryBroadcast(log[i]);
    }

    /** Tries one entry at most 100 times. */
    method Insist(e: Entry) returns (ok: bool)
      requires Traced() && Shown() && IsNext(e)
      modifies this`attempts, this`bus, this`version, this`board, this`trace, this`lawful
      ensures ok == RoomWithin(room, old(attempts), MAX_RETRIES_PER_ENTRY)
      ensures bus == old(bus) + if ok then [e] else []
      ensures version == old(version) +
                         Streak(room, false, old(attempts), MAX_RETRIES_PER_ENTRY) / YIELD_INTERVAL
      ensures Traced() && Shown() && lawful == old(lawful)
    {
      hide Streak, Traced, Shown;
      var retries := 0;
      ghost var start := attempts;
      while retries < MAX_RETRIES_PER_ENTRY
        invariant retries <= MAX_RETRIES_PER_ENTRY && attempts == start + retries && bus == old(bus)
        invariant Streak(room, false, start, MAX_RETRIES_PER_ENTRY) >= retries
        invariant Traced() && Shown() && lawful == old(lawful) && IsNext(e)
        invariant version == old(version) + retries / YIELD_INTERVAL
      {
        ok := TryBroadcast(e);
        if ok {
          return;
        }
        retries := retries + 1;
        if retries % YIELD_INTERVAL == 0 {
          BumpVersion();
        }
      }
      ok := false;
    }

    /** Called when the bus refused entry `start`: goes on from there until an entry is
        refused 100 times. Giving up on `start` itself is reported as if it had been sent. */
    method WhenBusFull(newCommit: nat, start: nat) returns (last: nat)
      requires start < |log| && start <= newCommit <= commitIndex && bus == log[..start]
      requires Traced() && Shown()
      modifies this`attempts, this`bus, this`version, this`board, this`trace, this`lawful
      ensures start <= last <= newCommit && last < |log|
      ensures if RoomWithin(room, old(attempts), MAX_RETRIES_PER_ENTRY) then bus == log[..last + 1]
              else last == start && bus == log[..start]
      ensures Traced() && Shown() && lawful == old(lawful) && version > old(version)
    {
      hide RoomWithin, Streak, Traced, Shown;
      BumpVersion();
      ghost var first := attempts;
      var index := start;
      while index <= newCommit
        invariant start <= index <= newCommit + 1 && index <= |log| && bus == log[..index]
        invariant index == start ==> attempts == first
        invariant index > start ==> RoomWithin(room, first, MAX_RETRIES_PER_ENTRY)
        invariant Traced() && Shown() && lawful == old(lawful) && version > old(version)
      {
        if index >= |log| {
          return index - 1;
        }
        var ok := Insist(log[index]);
        if !ok {
          return if index > start then index - 1 else start;
        }
        index := index + 1;
      }
      last := newCommit;
    }

    /** The entries that a broadcast up to `newCommit` finds in the log. */
    function Due(start: nat, newCommit: nat): nat
      reads this`log
      requires start <= newCommit && start < |log|
    {
      Min(newCommit, |log| - 1) - start + 1
    }

    /** The first due entry that the bus refuses is accepted within the next 100 attempts. */
    predicate RefusalRecovers(start: nat, newCommit: nat)
      reads this`log, this`attempts
      requires start <= newCommit && start < |log|
    {
      var k := Streak(room, true, attempts, Due(start, newCommit));
      k < Due(start, newCommit) ==> RoomWithin(room, attempts + k + 1, MAX_RETRIES_PER_ENTRY)
    }

    /** The loop over the newly committed indices, up to the first refusal; indices beyond the
        log are skipped. */
    method SendUntilRefused(start: nat, newCommit: nat) returns (last: nat, refused: Option<nat>)
      requires start <= newCommit <= commitIndex && start <= |log| && bus == log[..start]
      requires Traced() && Shown()
      modifies this`attempts, this`bus, this`board, this`trace, this`lawful
      ensures Traced() && Shown() && lawful == old(lawful)
      ensures start == |log| ==> last == 0 && refused.None? && bus == log
      ensures start < |log| ==>
                var run, due := Streak(room, true, old(attempts), Due(start, newCommit)), Due(start, newCommit);
                if run == due then refused.None? && last == start + due - 1 && bus == log[..start + due]
                else refused == Some(start + run) && bus == log[..start + run] && attempts == old(attempts) + run + 1
    {
      hide Streak, Traced, Shown;
      last := 0;
      ghost var first := attempts;
      ghost var due := if start < |log| then Due(start, newCommit) else 0;
      ghost var run := Streak(room, true, first, due);
      var i := start;
      while i <= newCommit
        invariant start <= i <= newCommit + 1 && Traced() && Shown() && lawful == old(lawful)
        invariant i <= |log| ==> bus == log[..i] && attempts == first + i - start && run >= i - start
        invariant i <= |log| ==> last == if i == start then 0 else i - 1
        invariant i > |log| ==> bus == log && run == due && last == if start < |log| then |log| - 1 else 0
      {
        if i < |log| {
          var ok := TryAt(i);
          if !ok {
            return last, Some(i);
          }
          last := i;
        }
        i := i + 1;
      }
      refused := None;
    }

    method BroadcastFrom(start: nat, newCommit: nat) returns (last: nat)
      requires start <= newCommit <= commitIndex && start <= |log| && bus == log[..start]
      requires Traced() && Shown()
      modifies this`attempts, this`bus, this`version, this`board, this`trace, this`lawful
      ensures Traced() && Shown() && lawful == old(lawful) && version >= old(version)
      ensures start == |log| ==> last == 0 && bus == log
      ensures start < |log| ==> start <= last <= newCommit && last < |log|
      ensures start < |log| ==> bus == if old(RefusalRecovers(start, newCommit)) then log[..last + 1] else log[..last]
      ensures start < |log| && Streak(room, true, old(attempts), Due(start, newCommit)) == Due(start, newCommit) ==>
                last == Min(newCommit, |log| - 1)
    {
      hide Streak, Traced, Shown, RoomWithin;
      var refused;
      last, refused := SendUntilRefused(start, newCommit);
      if refused.Some? {
        last := WhenBusFull(newCommit, refused.value);
      }
    }

    /** The next entry is in the log and a refusal recovers in time. */
    predicate Placeable(newCommit: nat)
      reads this`lastBroadcast, this`log, this`attempts
    {
      Next() <= newCommit ==> Next() < |log| && RefusalRecovers(Next(), newCommit)
    }

    predicate AllRoom(newCommit: nat)
      reads this`lastBroadcast, this`log, this`attempts
      requires Next() <= newCommit && Next() < |log|
    {
      Streak(room, true, attempts, Due(Next(), newCommit)) == Due(Next(), newCommit)
    }

    /** Broadcasts the entries after the last broadcast one up to the new commit index. The
        bus stays a prefix of the log, and the count of entries does not underflow, exactly
        when the entries are placeable. */
    method BroadcastCommitted(newCommit: nat) returns (underflow: bool)
      requires BusPrefix() && newCommit <= commitIndex && Traced() && Shown()
      modifies this`attempts, this`bus, this`version, this`lastBroadcast, this`deferred, this`board, this`trace,
               this`lawful
      ensures Traced() && Shown() && lawful == old(lawful)
      ensures !underflow && BusPrefix() <==> old(Placeable(newCommit))
      ensures old(Placeable(newCommit)) && old(Next()) <= newCommit ==>
                Next() > old(Next()) && deferred == (Next() <= newCommit)
      ensures old(Next() <= newCommit && Next() < |log| && AllRoom(newCommit)) ==> Next() == Min(newCommit + 1, |log|)
      ensures old(Next()) > newCommit ==> Next() == old(Next()) && bus == old(bus)
      ensures if old(Next()) <= newCommit then version > old(version) else version == old(version)
    {
      hide Streak, RoomWithin, Traced, Shown;
      var start := Next();
      if start > newCommit {
        return false;
      }
      var last := BroadcastFrom(start, newCommit);
      underflow := last < start;
      lastBroadcast := Some(last);
      deferred := last < newCommit;
      BumpVersion();
    }

    /** How many entries a retry may send. */
    function Owed(): nat
      reads this`deferred, this`commitIndex, this`lastBroadcast, this`log
    {
      if deferred && Next() <= commitIndex && Next() < |log|
      then Min(Due(Next(), commitIndex), MAX_BROADCAST_PER_TIMESTEP) else 0
    }

    /** Tries the next entry once and notes it as broadcast if it found room. */
    method SendNext(i: nat) returns (ok: bool)
      requires BusPrefix() && Traced() && Shown() && Next() == i < |log| && i <= commitIndex
      modifies this`attempts, this`bus, this`lastBroadcast, this`board, this`trace, this`lawful
      ensures Traced() && Shown() && lawful == old(lawful)
      ensures ok == room(old(attempts)) && attempts == old(attempts) + 1
      ensures BusPrefix() && Next() == old(Next()) + if ok then 1 else 0
    {
      hide Traced, Shown;
      ok := TryAt(i);
      if ok {
        lastBroadcast := Some(i);
      }
    }

    /** Sends the entries up to `end`, up to the first refusal. */
    method SendOwed(end: nat) returns (count: nat, refused: bool)
      requires BusPrefix() && Traced() && Shown() && Next() <= end <= commitIndex
      modifies this`attempts, this`bus, this`lastBroadcast, this`board, this`trace, this`lawful
      ensures Traced() && Shown() && lawful == old(lawful)
      ensures BusPrefix() && Next() == old(Next()) + count
      ensures var owed := if old(Next()) < |log| then Due(old(Next()), end) else 0;
              count == Streak(room, true, old(attempts), owed) && refused == (count < owed)
    {
      hide Streak, Traced, Shown;
      assert Next() <= |log|;
      hide BusPrefix;
      ghost var first := attempts;
      ghost var owed := if Next() < |log| then Due(Next(), end) else 0;
      count, refused := 0, false;
      var start := Next();
      var i := start;
      while i <= end
        invariant start <= i <= end + 1 && count <= i - start
        invariant BusPrefix() && Next() == start + count && Traced() && Shown() && lawful == old(lawful)
        invariant i <= |log| ==> count == i - start
        invariant i >= |log| ==> Next() == |log|
        invariant count <= owed && attempts == first + count && Streak(room, true, first, owed) >= count
      {
        if i < |log| {
          var ok := SendNext(i);
          if !ok {
            return count, true;
          }
          count := count + 1;
        }
        i := i + 1;
      }
    }

    /** Resumes deferred broadcasts, at most 5000 entries at a time, up to the first refusal.
        The prefix is kept whatever the bus does. The version moves only when nothing is
        refused: entries sent before a refusal wait for the next move. */
    method RetryDeferred() returns (count: nat)
      requires BusPrefix() && Traced() && Shown()
      modifies this`attempts, this`bus, this`version, this`lastBroadcast, this`deferred, this`board, this`trace,
               this`lawful
      ensures Traced() && Shown() && lawful == old(lawful)
      ensures BusPrefix() && Next() == old(Next()) + count
      ensures count == Streak(room, true, old(attempts), old(Owed()))
      ensures deferred == (old(deferred) && Next() <= commitIndex)
      ensures version == old(version) + if count > 0 && count == old(Owed()) then 1 else 0
    {
      hide Streak, Traced, Shown;
      assert Next() <= |log|;
      hide BusPrefix;
      if !deferred {
        return 0;
      }
      var start := Next();
      if start > commitIndex {
        deferred := false;
        return 0;
      }
      OwedWithin(start);
      var end := Min(commitIndex, start + MAX_BROADCAST_PER_TIMESTEP - 1);
      hide Due, Owed;
      var refused;
      count, refused := SendOwed(end);
      if !refused {
        FinishRetry(count > 0);
      }
    }

    lemma OwedWithin(start: nat)
      requires start == Next() <= commitIndex && deferred
      ensures var end := Min(commitIndex, start + MAX_BROADCAST_PER_TIMESTEP - 1);
              && start <= end && Owed() == (if start < |log| then Due(start, end) else 0)
              && Owed() <= commitIndex + 1 - start
    {
    }

    method FinishRetry(sent: bool)
      requires Traced() && Shown() && Next() <= commitIndex + 1
      modifies this`version, this`deferred, this`board, this`trace, this`lawful
      ensures Traced() && Shown() && lawful == old(lawful)
      ensures deferred == (old(deferred) && Next() <= commitIndex)
      ensures version == old(version) + if sent then 1 else 0
    {
      hide Traced, Shown;
      if lastBroadcast == Some(commitIndex) {
        deferred := false;
      }
      if sent {
        BumpVersion();
      }
    }

    /** Stores the new commit index, then broadcasts. The steps are permitted exactly when the
        index does not fall. */
    method CommitTo(index: nat)
      requires BusPrefix() && Traced() && Shown()
      modifies this`commitIndex, this`attempts, this`bus, this`version, this`lastBroadcast, this`deferred, this`board,
               this`trace, this`lawful
      ensures log == old(log) && commitIndex == index
      ensures BusPrefix() <== old(Placeable(index))
      ensures Traced() && Shown() && lawful == (old(lawful) && index >= old(commitIndex)) && version > old(version)
    {
      hide Streak, Placeable;
      commitIndex := index;
      Note(Q.StoreCommit(index));
      BumpVersion();
      var _ := BroadcastCommitted(index);
    }

    /** A complete write: its index is committed and broadcast, then its writer is told. */
    method CompleteWrite(index: nat)
      requires BusPrefix() && Traced() && Shown()
      modifies this`commitIndex, this`attempts, this`bus, this`version, this`lastBroadcast, this`deferred, this`board,
               this`trace, this`lawful, this`told
      ensures log == old(log) && commitIndex == if index > old(commitIndex) then index else old(commitIndex)
      ensures BusPrefix() <== old(index > commitIndex ==> Placeable(index))
      ensures Traced() && Shown() && lawful == (old(lawful) && index < |log|)
      ensures told == old(told) + if index < |log| then {log[index]} else {}
    {
      hide Streak, Placeable, BusPrefix;
      if index > commitIndex {
        CommitTo(index);
      }
      Note(Q.Succeed(index));
      if index < |log| {
        told := told + {log[index]};
      }
    }

    /** No broadcast entry is truncated and a commit is placeable. */
    predicate Premise(op: Op)
      reads this`lastBroadcast, this`log, this`attempts, this`commitIndex
    {
      match op
      case Truncate(length) => Next() <= length
      case Commit(index) => Placeable(index)
      case Complete(index) => index > commitIndex ==> Placeable(index)
      case Announce => commitIndex > 0 ==> Placeable(commitIndex)
      case _ => true
    }

    /** What the query worker relies on: entries keep the log well-formed, the commit index
        does not fall, a complete write is in the log, and no reported write is truncated. */
    predicate Lawful(op: Op)
      reads this`log, this`commitIndex, this`told
    {
      match op
      case Append(e) => WellFormed(log + [e])
      case Truncate(length) => length < |log| ==> forall e | e in told :: e.index < length
      case Commit(index) => index >= commitIndex
      case Complete(index) => index < |log|
      case _ => true
    }

    method TruncateTo(length: nat)
      requires BusPrefix() && Traced() && Shown() && Next() <= length
      modifies this`log, this`board, this`trace, this`lawful
      ensures BusPrefix() && log == LogAfter(old(log), Truncate(length))
      ensures Traced() && Shown() && lawful == (old(lawful) && old(Lawful(Truncate(length))))
    {
      if length < |log| {
        Note(Q.Truncate(length));
        log := log[..length];
      }
    }

    /** An operation that meets the premise keeps the bus a prefix of the log. It is a sequence
        of permitted steps on the board exactly when it is lawful. */
    method Step(op: Op)
      requires BusPrefix() && Traced() && Shown() && Premise(op)
      modifies this
      ensures log == LogAfter(old(log), op) && commitIndex == CommitAfter(old(commitIndex), op) && BusPrefix()
      ensures told == ToldAfter(old(told), old(log), op)
      ensures Traced() && Shown() && lawful == (old(lawful) && old(Lawful(op)))
    {
      hide Placeable, Streak, Traced;
      match op
      case Append(e) =>
        Note(Q.AppendEntry(e));
        log := log + [e];
      case Truncate(length) =>
        TruncateTo(length);
      case Commit(index) =>
        CommitTo(index);
      case Complete(index) =>
        CompleteWrite(index);
      case Announce =>
        if commitIndex > 0 {
          var _ := BroadcastCommitted(commitIndex);
        }
      case Retry =>
        var _ := RetryDeferred();
    }

    /** Any run of operations keeps the bus a prefix of the log for as long as each meets the
        premise when its turn comes. */
    method Run(ops: seq<Op>) returns (taken: nat)
      requires BusPrefix() && Traced() && Shown()
      modifies this
      ensures BusPrefix() && taken <= |ops| && log == LogAfterAll(old(log), ops[..taken])
      ensures taken < |ops| ==> !Premise(ops[taken])
      ensures Traced() && Shown()
    {
      hide Premise, BusPrefix, LogAfter, Traced, Shown, Lawful;
      taken := 0;
      while taken < |ops|
        invariant taken <= |ops| && BusPrefix() && log == LogAfterAll(old(log), ops[..taken]) && Traced() && Shown()
      {
        if !Premise(ops[taken]) {
          return;
        }
        assert ops[..taken + 1][..taken] == ops[..taken];
        Step(ops[taken]);
        taken := taken + 1;
      }
    }

    /** Any run of operations that meet the premise and are lawful at their turn is a sequence
        of permitted steps on the board, with requests of clients arriving at any times, so all
        that holds of the query worker beside such steps holds beside the publisher. */
    method Publish(ops: seq<Op>) returns (taken: nat)
      requires BusPrefix() && Traced() && Shown() && lawful && Q.BoardOk(start)
      modifies this
      ensures BusPrefix() && lawful && Q.TakenAll(start, trace) == Some(board) && Q.BoardOk(board)
      ensures forall steps | Q.WithoutAsks(steps) == trace ::
                Q.TakenAll(start, steps).Some? && Q.SamePublished(board, Q.TakenAll(start, steps).value)
      ensures Traced() && Shown() && taken <= |ops| && log == LogAfterAll(old(log), ops[..taken])
      ensures commitIndex == CommitAfterAll(old(commitIndex), ops[..taken])
      ensures told == ToldAfterAll(old(told), old(log), ops[..taken])
      ensures taken < |ops| ==> !Premise(ops[taken]) || !Lawful(ops[taken])
    {
      hide Premise, BusPrefix, LogAfter, CommitAfter, ToldAfter, Shown, Lawful, Q.TakenAll, Q.SamePublished, Q.BoardOk;
      taken := 0;
      while taken < |ops| && Premise(ops[taken]) && Lawful(ops[taken])
        invariant taken <= |ops| && BusPrefix() && log == LogAfterAll(old(log), ops[..taken])
        invariant commitIndex == CommitAfterAll(old(commitIndex), ops[..taken])
        invariant told == ToldAfterAll(old(told), old(log), ops[..taken])
        invariant Traced() && Shown() && lawful
      {
        assert ops[..taken + 1][..taken] == ops[..taken];
        Step(ops[taken]);
        taken := taken + 1;
      }
      Q.TakenAllKeeps(start, trace);
      forall steps | Q.WithoutAsks(steps) == trace
        ensures Q.TakenAll(start, steps).Some? && Q.SamePublished(board, Q.TakenAll(start, steps).value)
      {
        Q.RequestsInterleave(start, steps);
      }
    }
  }
}
