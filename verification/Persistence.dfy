/** The persistence worker: batched, buffered writes to the log file refine plain append and
    truncate on a list of entries. */
module Persistence {
  import opened Nodes

  type Bytes = seq<bv8>

  const BATCH_SIZE: nat := 32

  /** The bytes of a list of entries, one after the other. */
  function Flatten(entries: seq<Bytes>): Bytes {
    if entries == [] then [] else Flatten(entries[..|entries| - 1]) + entries[|entries| - 1]
  }

  /** The position right after each entry. */
  function EndOffsets(entries: seq<Bytes>): seq<nat> {
    if entries == [] then [] else EndOffsets(entries[..|entries| - 1]) + [|Flatten(entries)|]
  }

  lemma {:induction false} FlattenPrefix(entries: seq<Bytes>, k: nat)
    requires k <= |entries|
    ensures Flatten(entries[..k]) <= Flatten(entries)
    decreases |entries|
  {
    if k < |entries| {
      var n := |entries| - 1;
      FlattenPrefix(entries[..n], k);
      assert entries[..n][..k] == entries[..k];
    } else {
      assert entries[..k] == entries;
    }
  }

  lemma {:induction false} OffsetsCount(entries: seq<Bytes>)
    ensures |EndOffsets(entries)| == |entries|
  {
    hide Flatten;
    if entries != [] {
      OffsetsCount(entries[..|entries| - 1]);
    }
  }

  lemma {:induction false} OffsetsPrefix(entries: seq<Bytes>, k: nat)
    requires k <= |entries|
    ensures |EndOffsets(entries)| == |entries|
    ensures EndOffsets(entries)[..k] == EndOffsets(entries[..k])
    decreases |entries|
  {
    hide Flatten;
    OffsetsCount(entries);
    if k < |entries| {
      var shorter := entries[..|entries| - 1];
      OffsetsPrefix(shorter, k);
      assert shorter[..k] == entries[..k];
      assert EndOffsets(entries)[..|shorter|] == EndOffsets(shorter);
      assert EndOffsets(entries)[..k] == EndOffsets(shorter)[..k];
    } else {
      hide EndOffsets;
      assert entries[..k] == entries;
      assert EndOffsets(entries)[..k] == EndOffsets(entries);
    }
  }

  lemma OffsetAt(entries: seq<Bytes>, k: nat)
    requires 0 < k <= |entries|
    ensures |EndOffsets(entries)| == |entries| && EndOffsets(entries)[k - 1] == |Flatten(entries[..k])|
  {
    OffsetsPrefix(entries, k);
    OffsetsPrefix(entries[..k], k);
    assert EndOffsets(entries)[k - 1] == EndOffsets(entries)[..k][k - 1];
  }

  datatype WriteTask =
    | WriteVote(id: nat, row: VoteRow)
    | WriteEntry(id: nat, data: Bytes)
    | CutTo(length: nat)

  /** What a task means for the list of entries, without files, buffers or batches. */
  function Plain(entries: seq<Bytes>, task: WriteTask): seq<Bytes> {
    match task
    case WriteVote(_, _) => entries
    case WriteEntry(_, data) => entries + [data]
    case CutTo(length) => if length <= |entries| then entries[..length] else entries
  }

  function Reported(task: WriteTask): seq<Response> {
    match task
    case WriteVote(id, row) => [VotePersisted(id, row)]
    case WriteEntry(id, _) => [LogPersisted(id)]
    case CutTo(_) => []
  }

  /** A task arrives, or the queue is drained or silent for a while. */
  datatype Event = Arrives(task: WriteTask) | Quiet

  function PlainAll(entries: seq<Bytes>, events: seq<Event>): seq<Bytes> {
    if events == [] then entries
    else
      var before := PlainAll(entries, events[..|events| - 1]);
      var last := events[|events| - 1];
      if last.Arrives? then Plain(before, last.task) else before
  }

  function ReportedAll(events: seq<Event>): seq<Response> {
    if events == [] then []
    else
      var last := events[|events| - 1];
      ReportedAll(events[..|events| - 1]) + if last.Arrives? then Reported(last.task) else []
  }

  function VotesAll(events: seq<Event>): seq<VoteRow> {
    if events == [] then []
    else
      var last := events[|events| - 1];
      VotesAll(events[..|events| - 1]) + if last.Arrives? && last.task.WriteVote? then [last.task.row] else []
  }

  /** Every truncation names a length the log has reached. */
  predicate CutsFit(entries: seq<Bytes>, events: seq<Event>) {
    events == [] ||
    var before := events[..|events| - 1];
    var last := events[|events| - 1];
    && CutsFit(entries, before)
    && (last.Arrives? && last.task.CutTo? ==> last.task.length <= |PlainAll(entries, before)|)
  }

  lemma {:induction false} CutsFitPrefix(entries: seq<Bytes>, events: seq<Event>, k: nat)
    requires CutsFit(entries, events) && k <= |events|
    ensures CutsFit(entries, events[..k])
    decreases |events|
  {
    if k < |events| {
      CutsFitPrefix(entries, events[..|events| - 1], k);
      assert events[..|events| - 1][..k] == events[..k];
    } else {
      assert events[..k] == events;
    }
  }

  lemma FlattenPush(entries: seq<Bytes>, data: Bytes)
    ensures Flatten(entries + [data]) == Flatten(entries) + data
    ensures EndOffsets(entries + [data]) == EndOffsets(entries) + [|Flatten(entries)| + |data|]
  {
    assert (entries + [data])[..|entries|] == entries;
  }

  lemma LastOffset(entries: seq<Bytes>)
    ensures var offsets := EndOffsets(entries);
            |Flatten(entries)| == if offsets == [] then 0 else offsets[|offsets| - 1]
  {
    if entries != [] {
      OffsetAt(entries, |entries|);
      assert entries[..|entries|] == entries;
    }
  }

  lemma EntryAdded(entries: seq<Bytes>, data: Bytes)
    ensures Flatten(entries + [data]) == Flatten(entries) + data
    ensures var offsets := EndOffsets(entries);
            var lastEnd := if offsets == [] then 0 else offsets[|offsets| - 1];
            EndOffsets(entries + [data]) == offsets + [lastEnd + |data|]
  {
    hide Flatten, EndOffsets;
    FlattenPush(entries, data);
    LastOffset(entries);
  }

  // ---------------------------------------------------------------- what a report means

  /** History of one report: the id and the bytes of its task, and where the file had these
      bytes when the report was sent. */
  datatype Receipt = Receipt(id: nat, data: Bytes, start: nat, file: Bytes)

  predicate ReceiptOk(r: Receipt) {
    r.start + |r.data| <= |r.file| && r.file[r.start..r.start + |r.data|] == r.data
  }

  predicate AllLogReports(pending: seq<Response>) {
    forall k | 0 <= k < |pending| :: pending[k].LogPersisted?
  }

  /** The tasks behind the waiting reports, which are about the last entries. */
  function WaitingTasks(pending: seq<Response>, entries: seq<Bytes>): seq<(nat, Bytes)>
    requires |pending| <= |entries|
  {
    seq(|pending|, k requires 0 <= k < |pending| => (pending[k].id, entries[|entries| - |pending| + k]))
  }

  function TasksOf(receipts: seq<Receipt>): seq<(nat, Bytes)> {
    seq(|receipts|, k requires 0 <= k < |receipts| => (receipts[k].id, receipts[k].data))
  }

  function ReportsOf(receipts: seq<Receipt>): seq<Response> {
    seq(|receipts|, k requires 0 <= k < |receipts| => LogPersisted(receipts[k].id))
  }

  function LogReports(responses: seq<Response>): seq<Response> {
    if responses == [] then []
    else
      var n := |responses| - 1;
      LogReports(responses[..n]) + if responses[n].LogPersisted? then [responses[n]] else []
  }

  function ReceiptFor(pending: seq<Response>, entries: seq<Bytes>, file: Bytes, k: nat): Receipt
    requires |pending| <= |entries| && k < |pending|
  {
    var i := |entries| - |pending| + k;
    Receipt(pending[k].id, entries[i], |Flatten(entries[..i])|, file)
  }

  /** The receipts of a flush, once the whole log is in the file. */
  function ReceiptsFor(pending: seq<Response>, entries: seq<Bytes>, file: Bytes): seq<Receipt>
    requires |pending| <= |entries|
  {
    seq(|pending|, k requires 0 <= k < |pending| => ReceiptFor(pending, entries, file, k))
  }

  /** In a file that holds all entries, each entry lies at the end of those before it. */
  lemma EntryInPlace(entries: seq<Bytes>, i: nat, id: nat)
    requires i < |entries|
    ensures ReceiptOk(Receipt(id, entries[i], |Flatten(entries[..i])|, Flatten(entries)))
  {
    FlattenPrefix(entries, i + 1);
    assert entries[..i + 1][..i] == entries[..i];
    var upTo := Flatten(entries[..i + 1]);
    assert upTo == Flatten(entries[..i]) + entries[i];
    assert Flatten(entries)[..|upTo|] == upTo;
  }

  lemma ReceiptAt(pending: seq<Response>, entries: seq<Bytes>, k: nat)
    requires |pending| <= |entries| && k < |pending|
    ensures ReceiptOk(ReceiptFor(pending, entries, Flatten(entries), k))
  {
    hide Flatten, ReceiptOk;
    EntryInPlace(entries, |entries| - |pending| + k, pending[k].id);
  }

  lemma ReceiptsNamed(pending: seq<Response>, entries: seq<Bytes>, file: Bytes)
    requires |pending| <= |entries| && AllLogReports(pending)
    ensures TasksOf(ReceiptsFor(pending, entries, file)) == WaitingTasks(pending, entries)
    ensures ReportsOf(ReceiptsFor(pending, entries, file)) == pending
  {
    hide Flatten;
  }

  lemma ReceiptsSound(pending: seq<Response>, entries: seq<Bytes>)
    requires |pending| <= |entries|
    ensures forall r | r in ReceiptsFor(pending, entries, Flatten(entries)) :: ReceiptOk(r)
  {
    var receipts := ReceiptsFor(pending, entries, Flatten(entries));
    hide ReceiptFor, ReceiptOk, Flatten;
    forall k | 0 <= k < |receipts| ensures ReceiptOk(receipts[k]) {
      ReceiptAt(pending, entries, k);
    }
  }

  lemma LogReportAdded(responses: seq<Response>, r: Response)
    ensures LogReports(responses + [r]) == LogReports(responses) + if r.LogPersisted? then [r] else []
  {
    assert (responses + [r])[..|responses|] == responses;
  }

  lemma {:induction false} LogReportsOf(responses: seq<Response>, more: seq<Response>)
    requires AllLogReports(more)
    ensures LogReports(responses + more) == LogReports(responses) + more
    decreases |more|
  {
    hide LogReports;
    if more == [] {
      assert responses + more == responses;
    } else {
      var before, last := more[..|more| - 1], more[|more| - 1];
      LogReportsOf(responses, before);
      LogReportAdded(responses + before, last);
      assert before + [last] == more;
      assert responses + before + [last] == responses + more;
      assert LogReports(responses) + before + [last] == LogReports(responses) + more;
    }
  }

  lemma TaskWaits(pending: seq<Response>, entries: seq<Bytes>, id: nat, data: Bytes, before: seq<(nat, Bytes)>)
    requires |pending| <= |entries|
    ensures before + WaitingTasks(pending + [LogPersisted(id)], entries + [data])
         == before + WaitingTasks(pending, entries) + [(id, data)]
  {
    var longer := WaitingTasks(pending + [LogPersisted(id)], entries + [data]);
    assert longer == WaitingTasks(pending, entries) + [(id, data)];
  }

  lemma TasksJoin(a: seq<Receipt>, b: seq<Receipt>)
    ensures TasksOf(a + b) == TasksOf(a) + TasksOf(b) && ReportsOf(a + b) == ReportsOf(a) + ReportsOf(b)
  {
  }

  predicate AccountOk(pending: seq<Response>, responses: seq<Response>, entries: seq<Bytes>,
                      queued: seq<(nat, Bytes)>, receipts: seq<Receipt>)
  {
    && |pending| <= |entries| && AllLogReports(pending)
    && queued == TasksOf(receipts) + WaitingTasks(pending, entries)
    && LogReports(responses) == ReportsOf(receipts)
    && forall r | r in receipts :: ReceiptOk(r)
  }

  lemma FlushAccounts(pending: seq<Response>, responses: seq<Response>, entries: seq<Bytes>,
                      queued: seq<(nat, Bytes)>, receipts: seq<Receipt>)
    requires AccountOk(pending, responses, entries, queued, receipts)
    ensures var more := ReceiptsFor(pending, entries, Flatten(entries));
            AccountOk([], responses + pending, entries, queued, receipts + more)
  {
    var more := ReceiptsFor(pending, entries, Flatten(entries));
    ReceiptsSound(pending, entries);
    ReceiptsNamed(pending, entries, Flatten(entries));
    LogReportsOf(responses, pending);
    TasksJoin(receipts, more);
    assert WaitingTasks([], entries) == [];
    hide ReceiptsFor, Flatten, LogReports, ReportsOf, TasksOf, WaitingTasks, ReceiptOk;
    assert TasksOf(receipts + more) + [] == TasksOf(receipts + more);
  }

  /** Cutting the bytes of the entries at the end of entry `length - 1` keeps the first
      `length` entries. */
  lemma CutFile(entries: seq<Bytes>, length: nat)
    requires length <= |entries|
    ensures var offsets, file := EndOffsets(entries), Flatten(entries);
            && length <= |offsets| && EndOffsets(entries[..length]) == offsets[..length]
            && var position := if length == 0 then 0 else offsets[length - 1];
               position <= |file| && file[..position] == Flatten(entries[..length])
  {
    OffsetsPrefix(entries, length);
    FlattenPrefix(entries, length);
    if length > 0 {
      OffsetAt(entries, length);
    }
  }

  lemma NothingWaits(pending: seq<Response>, responses: seq<Response>, entries: seq<Bytes>, kept: seq<Bytes>,
                     queued: seq<(nat, Bytes)>, receipts: seq<Receipt>)
    requires AccountOk(pending, responses, entries, queued, receipts) && pending == []
    ensures AccountOk(pending, responses, kept, queued, receipts)
  {
    hide TasksOf, LogReports, ReportsOf, ReceiptOk;
    assert WaitingTasks(pending, entries) == [] == WaitingTasks(pending, kept);
  }

  /** A new entry waits behind those that wait already. */
  lemma OneMoreWaits(pending: seq<Response>, responses: seq<Response>, entries: seq<Bytes>,
                     queued: seq<(nat, Bytes)>, receipts: seq<Receipt>, id: nat, data: Bytes)
    requires AccountOk(pending, responses, entries, queued, receipts)
    ensures AccountOk(pending + [LogPersisted(id)], responses, entries + [data], queued + [(id, data)], receipts)
  {
    hide TasksOf, LogReports, ReportsOf, ReceiptOk;
    TaskWaits(pending, entries, id, data, TasksOf(receipts));
    hide WaitingTasks;
  }

  function QueuedAll(events: seq<Event>): seq<(nat, Bytes)> {
    if events == [] then []
    else QueuedAll(events[..|events| - 1]) + QueuedBy(events[|events| - 1])
  }

  function QueuedBy(event: Event): seq<(nat, Bytes)> {
    if event.Arrives? && event.task.WriteEntry? then [(event.task.id, event.task.data)] else []
  }

  lemma OneMoreEvent(entries: seq<Bytes>, events: seq<Event>, k: nat)
    requires k < |events|
    ensures var before, after, event := events[..k], events[..k + 1], events[k];
            && PlainAll(entries, after) ==
               (if event.Arrives? then Plain(PlainAll(entries, before), event.task) else PlainAll(entries, before))
            && ReportedAll(after) == ReportedAll(before) + (if event.Arrives? then Reported(event.task) else [])
            && VotesAll(after) ==
               VotesAll(before) + (if event.Arrives? && event.task.WriteVote? then [event.task.row] else [])
            && QueuedAll(after) == QueuedAll(before) + QueuedBy(event)
  {
    assert events[..k + 1][..k] == events[..k];
  }

  lemma NoEvents(entries: seq<Bytes>)
    ensures PlainAll(entries, []) == entries && ReportedAll([]) == [] && VotesAll([]) == [] && QueuedAll([]) == []
  {
  }

  lemma CutAhead(entries: seq<Bytes>, events: seq<Event>, k: nat)
    requires CutsFit(entries, events) && k < |events|
    ensures events[k].Arrives? && events[k].task.CutTo? ==> events[k].task.length <= |PlainAll(entries, events[..k])|
  {
    CutsFitPrefix(entries, events, k + 1);
    assert events[..k + 1][..k] == events[..k];
  }

  /** The worker with its log file and write buffer. A full buffer spills to the file early,
      and data of at least the buffer's capacity bypasses it. */
  class PersistenceWorker {
    const capacity: nat
    var file: Bytes
    var buffer: Bytes
    var votes: seq<VoteRow>
    var offsets: seq<nat>
    var pending: seq<Response>
    var responses: seq<Response>
    ghost var entries: seq<Bytes>
    ghost var queued: seq<(nat, Bytes)>
    ghost var receipts: seq<Receipt>

    constructor (capacity: nat, entries: seq<Bytes>, file: Bytes, offsets: seq<nat>, votes: seq<VoteRow>)
      requires file == Flatten(entries) && offsets == EndOffsets(entries)
      ensures Valid() && this.entries == entries && this.votes == votes && pending == [] && responses == []
      ensures queued == [] && receipts == []
    {
      this.capacity := capacity;
      this.file, this.offsets, this.votes, this.entries := file, offsets, votes, entries;
      buffer, pending, responses := [], [], [];
      queued, receipts := [], [];
      assert entries[..|entries|] == entries;
    }

    /** File and buffer together hold the list of entries, the offsets are its prefix sums,
        and everything not waiting to be reported is in the file. */
    ghost predicate Valid()
      reads this
    {
      && file + buffer == Flatten(entries)
      && offsets == EndOffsets(entries)
      && (pending == [] ==> buffer == [])
      && |pending| <= |entries| && Flatten(entries[..|entries| - |pending|]) <= file
      && Accounted()
    }

    /** Every entry task so far is reported with a receipt or waits, in order, and every
        report of an entry has a receipt. */
    ghost predicate Accounted()
      reads this`pending, this`responses, this`entries, this`queued, this`receipts
    {
      AccountOk(pending, responses, entries, queued, receipts)
    }

    method Write(data: Bytes)
      modifies this`file, this`buffer
      ensures file + buffer == old(file + buffer) + data && old(file) <= file
    {
      if |buffer| + |data| > capacity {
        file, buffer := file + buffer, [];
      }
      if |data| >= capacity {
        file := file + data;
        assert buffer == [];
      } else {
        buffer := buffer + data;
      }
    }

    /** Empties the buffer, then reports all waiting entries in order. */
    method Flush() returns (count: nat)
      requires Valid()
      modifies this`file, this`buffer, this`pending, this`responses, this`receipts
      ensures Valid() && pending == [] && responses == old(responses) + old(pending) && count == |old(pending)|
      ensures file == Flatten(entries)
      ensures receipts == old(receipts) + ReceiptsFor(old(pending), entries, file)
    {
      assert entries[..|entries|] == entries;
      count := |pending|;
      if pending == [] {
        return;
      }
      FlushAccounts(pending, responses, entries, queued, receipts);
      file, buffer := file + buffer, [];
      assert file == Flatten(entries);
      hide Flatten, ReceiptsFor, AccountOk;
      receipts := receipts + ReceiptsFor(pending, entries, file);
      responses := responses + pending;
      pending := [];
    }

    method AppendVote(id: nat, row: VoteRow)
      requires Valid()
      modifies this
      ensures Valid() && entries == old(entries) && votes == old(votes) + [row] && pending == []
      ensures queued == old(queued)
      ensures responses == old(responses) + old(pending) + [VotePersisted(id, row)]
    {
      var _ := Flush();
      LogReportAdded(responses, VotePersisted(id, row));
      votes := votes + [row];
      responses := responses + [VotePersisted(id, row)];
    }

    /** Buffers the entry; its response waits for a flush, which a full batch triggers. */
    method AppendEntry(id: nat, data: Bytes)
      requires Valid()
      modifies this
      ensures Valid() && entries == old(entries) + [data] && votes == old(votes)
      ensures responses + pending == old(responses + pending) + [LogPersisted(id)]
      ensures |pending| < BATCH_SIZE && queued == old(queued) + [(id, data)]
    {
      hide Flatten, EndOffsets, AccountOk, ReceiptsFor;
      EntryAdded(entries, data);
      OneMoreWaits(pending, responses, entries, queued, receipts, id, data);
      ghost var longer := entries + [data];
      assert longer[..|longer| - |pending + [LogPersisted(id)]|] == entries[..|entries| - |pending|];
      Write(data);
      var lastEnd := if offsets == [] then 0 else offsets[|offsets| - 1];
      offsets := offsets + [lastEnd + |data|];
      entries := longer;
      pending := pending + [LogPersisted(id)];
      queued := queued + [(id, data)];
      if |pending| >= BATCH_SIZE {
        var _ := Flush();
      }
    }

    /** Cuts the file at the end of the last kept entry. */
    method CutLog(length: nat)
      requires Valid() && length <= |entries|
      modifies this
      ensures Valid() && entries == old(entries)[..length] && votes == old(votes) && pending == []
      ensures queued == old(queued)
      ensures responses == old(responses) + old(pending)
    {
      hide Flatten, EndOffsets, AccountOk, ReceiptsFor;
      var _ := Flush();
      CutFile(entries, length);
      NothingWaits(pending, responses, entries, entries[..length], queued, receipts);
      var position := if length == 0 then 0 else offsets[length - 1];
      file := file[..position];
      offsets := offsets[..length];
      entries := entries[..length];
      assert entries[..|entries|] == entries;
    }

    method Process(event: Event)
      requires Valid()
      requires event.Arrives? && event.task.CutTo? ==> event.task.length <= |entries|
      modifies this
      ensures Valid()
      ensures entries == if event.Arrives? then Plain(old(entries), event.task) else old(entries)
      ensures responses + pending == old(responses + pending) + if event.Arrives? then Reported(event.task) else []
      ensures votes == old(votes) + if event.Arrives? && event.task.WriteVote? then [event.task.row] else []
      ensures event.Quiet? ==> pending == [] && file == Flatten(entries)
      ensures queued == old(queued) + QueuedBy(event)
    {
      match event
      case Quiet =>
        var _ := Flush();
      case Arrives(WriteVote(id, row)) =>
        AppendVote(id, row);
      case Arrives(WriteEntry(id, data)) =>
        AppendEntry(id, data);
      case Arrives(CutTo(length)) =>
        CutLog(length);
    }

    /** Durable-log refinement: for any tasks, any batching and any spills, file and buffer
        hold what plain append and truncate give, the responses sent and waiting are those of
        the tasks, once each and in order, and after a flush nothing waits. Every report of
        an entry was sent when the bytes of its task were in the file. */
    method Run(events: seq<Event>)
      requires Valid() && CutsFit(entries, events)
      modifies this
      ensures Valid() && entries == PlainAll(old(entries), events)
      ensures responses + pending == old(responses + pending) + ReportedAll(events)
      ensures votes == old(votes) + VotesAll(events)
      ensures events != [] && events[|events| - 1].Quiet? ==> pending == [] && file == Flatten(entries)
      ensures LogReports(responses) == ReportsOf(receipts) && forall r | r in receipts :: ReceiptOk(r)
      ensures |pending| <= |entries|
      ensures TasksOf(receipts) + WaitingTasks(pending, entries) == old(queued) + QueuedAll(events)
    {
      hide Valid, Flatten, Plain, Reported, CutsFit, QueuedBy, PlainAll, ReportedAll, VotesAll, QueuedAll;
      NoEvents(entries);
      for k := 0 to |events|
        invariant Valid() && entries == PlainAll(old(entries), events[..k])
        invariant responses + pending == old(responses + pending) + ReportedAll(events[..k])
        invariant votes == old(votes) + VotesAll(events[..k])
        invariant k > 0 && events[k - 1].Quiet? ==> pending == [] && file == Flatten(entries)
        invariant queued == old(queued) + QueuedAll(events[..k])
      {
        CutAhead(old(entries), events, k);
        OneMoreEvent(old(entries), events, k);
        Process(events[k]);
      }
      assert events[..|events|] == events;
      Accounts();
    }

    lemma Accounts()
      requires Valid()
      ensures Accounted()
    {
    }
  }

  /** At any time, every entry whose report does not wait has all its bytes in the file. */
  lemma ReportedIsDurable(entries: seq<Bytes>, file: Bytes, waiting: nat, i: nat)
    requires waiting <= |entries| && Flatten(entries[..|entries| - waiting]) <= file
    requires i < |entries| - waiting
    ensures ReceiptOk(Receipt(0, entries[i], |Flatten(entries[..i])|, file))
  {
    var done := entries[..|entries| - waiting];
    EntryInPlace(done, i, 0);
    assert done[..i] == entries[..i];
    assert file[..|Flatten(done)|] == Flatten(done);
  }
}
