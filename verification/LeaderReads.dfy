/** What a leadership publishes: all of it is lawful, so reads beside a leader see the writes
    that were reported before them for as long as the bus finds room. */
module LeaderReads {
  import opened Logs
  import opened Nodes
  import opened LeaderRun
  import opened RequestLaws
  import B = Broadcast
  import Q = Query

  // ---------------------------------------------------------------- the operations of a leadership

  /** A turn of the leader: an event, or the retry of deferred broadcasts. */
  datatype Turn = Handle(event: LeaderEvent) | Resume

  function EventsIn(turns: seq<Turn>): seq<LeaderEvent> {
    if turns == [] then []
    else
      var n := |turns| - 1;
      EventsIn(turns[..n]) + if turns[n].Handle? then [turns[n].event] else []
  }

  predicate IsProposal(n: Node, id: nat) {
    id in n.outstanding && n.outstanding[id].Proposal?
  }

  /** The proposal that an event completes. */
  function Completes(n: Node, event: LeaderEvent): Option<Outstanding> {
    match event
    case ReadReport =>
      if && n.done != [] && n.done[0].LogPersisted? && IsProposal(n, n.done[0].id)
         && AfterPersisted(n.outstanding[n.done[0].id], n.quorum).Completed?
      then Some(n.outstanding[n.done[0].id]) else None
    case Ack(id) =>
      if IsProposal(n, id) && AfterAck(n.outstanding[id], n.quorum).Completed?
      then Some(n.outstanding[id]) else None
    case _ => None
  }

  /** What an event publishes: a complete write is reported to its client, a complete no-op
      only moves the commit index. */
  function EventOps(n: Node, event: LeaderEvent): seq<B.Op> {
    if event.Write? && event.commands != [] then
      [B.Append(NewEntry(n, n.replica.nextIndex, n.nextId, event.timestamp, event.commands))]
    else
      match Completes(n, event)
      case None => []
      case Some(p) =>
        if p.client then [B.Complete(p.index)]
        else if p.index > n.commitIndex then [B.Commit(p.index)]
        else []
  }

  /** A leadership first announces what it knows to be committed, then appends its no-op. */
  function FirstOps(elected: Node, timestamp: nat): seq<B.Op> {
    var led := InitializeLeadership(elected, timestamp);
    [B.Announce, B.Append(led.replica.log[|elected.replica.log|])]
  }

  function OpsAt(n: Node, turn: Turn): seq<B.Op> {
    match turn
    case Resume => [B.Retry]
    case Handle(event) => EventOps(n, event)
  }

  function TurnOps(elected: Node, timestamp: nat, before: seq<Turn>, turn: Turn): seq<B.Op> {
    OpsAt(Leadership(elected, timestamp, EventsIn(before)), turn)
  }

  function OpsOf(elected: Node, timestamp: nat, turns: seq<Turn>): seq<B.Op> {
    if turns == [] then FirstOps(elected, timestamp)
    else
      var n := |turns| - 1;
      OpsOf(elected, timestamp, turns[..n]) + TurnOps(elected, timestamp, turns[..n], turns[n])
  }

  // ---------------------------------------------------------------- all of them are lawful

  /** Entries keep the log well-formed, the commit index does not fall and stays within the
      log, a complete write is in the log, and nothing is truncated. */
  predicate LawfulAt(log: Log, commit: nat, op: B.Op) {
    match op
    case Append(e) => WellFormed(log + [e])
    case Truncate(_) => false
    case Commit(index) => commit <= index < |log|
    case Complete(index) => index < |log|
    case _ => true
  }

  predicate LawfulNth(log: Log, commit: nat, ops: seq<B.Op>, k: nat)
    requires k < |ops|
  {
    LawfulAt(B.LogAfterAll(log, ops[..k]), B.CommitAfterAll(commit, ops[..k]), ops[k])
  }

  predicate AllLawful(log: Log, commit: nat, ops: seq<B.Op>) {
    forall k: nat | k < |ops| :: LawfulNth(log, commit, ops, k)
  }

  lemma OneMoreOp(log: Log, commit: nat, ops: seq<B.Op>, op: B.Op)
    ensures B.LogAfterAll(log, ops + [op]) == B.LogAfter(B.LogAfterAll(log, ops), op)
    ensures B.CommitAfterAll(commit, ops + [op]) == B.CommitAfter(B.CommitAfterAll(commit, ops), op)
    ensures AllLawful(log, commit, ops) && LawfulAt(B.LogAfterAll(log, ops), B.CommitAfterAll(commit, ops), op) ==>
              AllLawful(log, commit, ops + [op])
  {
    var more := ops + [op];
    assert more[..|ops|] == ops;
    if AllLawful(log, commit, ops) && LawfulAt(B.LogAfterAll(log, ops), B.CommitAfterAll(commit, ops), op) {
      hide LawfulAt, B.LogAfterAll, B.CommitAfterAll;
      forall k: nat | k < |more| ensures LawfulNth(log, commit, more, k) {
        if k < |ops| {
          assert LawfulNth(log, commit, ops, k);
          assert more[..k] == ops[..k];
        }
      }
    }
  }

  /** The operations so far were lawful and have brought the publisher to the leader's log
      and commit index. */
  predicate Caught(elected: Node, n: Node, ops: seq<B.Op>) {
    && B.LogAfterAll(elected.replica.log, ops) == n.replica.log
    && B.CommitAfterAll(elected.commitIndex, ops) == n.commitIndex
    && AllLawful(elected.replica.log, elected.commitIndex, ops)
  }

  lemma FirstCaught(elected: Node, timestamp: nat)
    requires CleanStart(elected)
    ensures Caught(elected, InitializeLeadership(elected, timestamp), FirstOps(elected, timestamp))
  {
    var log, led := elected.replica.log, InitializeLeadership(elected, timestamp);
    var e := led.replica.log[|log|];
    assert led.replica.log == log + [e] && led.commitIndex == elected.commitIndex;
    LeadershipBegins(elected, timestamp);
    assert WellFormed(log + [e]);
    OneMoreOp(log, elected.commitIndex, [], B.Announce);
    OneMoreOp(log, elected.commitIndex, [B.Announce], B.Append(e));
    assert [] + [B.Announce] == [B.Announce];
    assert [B.Announce] + [B.Append(e)] == FirstOps(elected, timestamp);
  }

  /** What one event does to log and commit index is what its operations do. */
  lemma EventMatches(elected: Node, n: Node, events: seq<LeaderEvent>, event: LeaderEvent)
    requires LeadershipOk(elected, n, events) && elected.currentTerm >= 1
    ensures var ops, n' := EventOps(n, event), LeaderStep(n, event);
            if ops == [] then n'.replica.log == n.replica.log && n'.commitIndex == n.commitIndex
            else && |ops| == 1 && LawfulAt(n.replica.log, n.commitIndex, ops[0])
                 && n'.replica.log == B.LogAfter(n.replica.log, ops[0])
                 && n'.commitIndex == B.CommitAfter(n.commitIndex, ops[0])
  {
    hide LeadershipOk, WellFormed;
    StaysLeader(elected, n, events);
    if event.Write? && event.commands != [] {
      WriteMatches(elected, n, events, event);
    } else if event.Ack? {
      AckMatches(elected, n, events, event.id);
    } else if event.ReadReport? && n.done != [] {
      ReportMatches(elected, n, events);
    }
  }

  lemma WriteMatches(elected: Node, n: Node, events: seq<LeaderEvent>, event: LeaderEvent)
    requires LeadershipOk(elected, n, events) && elected.currentTerm >= 1 && event.Write? && event.commands != []
    ensures var n' := LeaderStep(n, event);
            && WellFormed(n'.replica.log) && n'.commitIndex == n.commitIndex
            && n'.replica.log ==
               n.replica.log + [NewEntry(n, n.replica.nextIndex, n.nextId, event.timestamp, event.commands)]
  {
    ProposedInLeadership(elected, n, events, event, event.timestamp, event.commands, true);
    hide WellFormed, InLine, CommitOk, ProposalOk;
  }

  lemma ProposalInLog(elected: Node, n: Node, events: seq<LeaderEvent>, id: nat)
    requires LeadershipOk(elected, n, events) && IsProposal(n, id)
    ensures n.outstanding[id].index < |n.replica.log|
  {
    hide WellFormed, InLine, CommitOk;
    assert ProposalOk(elected, n, events, id);
  }

  lemma AckMatches(elected: Node, n: Node, events: seq<LeaderEvent>, id: nat)
    requires LeadershipOk(elected, n, events) && n.role.Leader?
    ensures var n', completed := OnAck(n, id), Completes(n, Ack(id));
            && n'.replica == n.replica
            && n'.commitIndex == (if completed.Some? then Max(n.commitIndex, completed.value.index) else n.commitIndex)
            && (completed.Some? ==> completed.value.index < |n.replica.log|)
  {
    hide LeadershipOk;
    if IsProposal(n, id) {
      ProposalInLog(elected, n, events, id);
    }
  }

  lemma ReportMatches(elected: Node, n: Node, events: seq<LeaderEvent>)
    requires LeadershipOk(elected, n, events) && n.role.Leader? && n.done != []
    ensures var n', completed := HandlePersisted(n).0, Completes(n, ReadReport);
            && n'.replica == n.replica
            && n'.commitIndex == (if completed.Some? then Max(n.commitIndex, completed.value.index) else n.commitIndex)
            && (completed.Some? ==> completed.value.index < |n.replica.log|)
  {
    hide LeadershipOk;
    if IsProposal(n, n.done[0].id) {
      ProposalInLog(elected, n, events, n.done[0].id);
    }
  }

  lemma EventCaught(elected: Node, n: Node, events: seq<LeaderEvent>, event: LeaderEvent, ops: seq<B.Op>)
    requires LeadershipOk(elected, n, events) && elected.currentTerm >= 1 && Caught(elected, n, ops)
    ensures Caught(elected, LeaderStep(n, event), ops + EventOps(n, event))
  {
    EventMatches(elected, n, events, event);
    hide LeadershipOk, EventOps, LeaderStep, LawfulAt, AllLawful;
    var more := EventOps(n, event);
    if more == [] {
      assert ops + more == ops;
    } else {
      assert more == [more[0]];
      OneMoreOp(elected.replica.log, elected.commitIndex, ops, more[0]);
    }
  }

  /** Every operation of a leadership with a clean start is lawful at its turn, whatever
      happens, and together they give the leader's log and commit index. */
  lemma {:induction false} LeadershipIsLawful(elected: Node, timestamp: nat, turns: seq<Turn>)
    requires CleanStart(elected)
    ensures Caught(elected, Leadership(elected, timestamp, EventsIn(turns)), OpsOf(elected, timestamp, turns))
  {
    hide CleanStart, Caught, EventOps, FirstOps, LeaderStep;
    if turns == [] {
      FirstCaught(elected, timestamp);
    } else {
      var n := |turns| - 1;
      var before, ops := EventsIn(turns[..n]), OpsOf(elected, timestamp, turns[..n]);
      var leader := Leadership(elected, timestamp, before);
      LeadershipIsLawful(elected, timestamp, turns[..n]);
      match turns[n]
      case Resume =>
        assert before + [] == before;
        RetryCaught(elected, leader, ops);
      case Handle(event) =>
        LeadershipInvariant(elected, timestamp, before);
        CleanTerm(elected);
        EventCaught(elected, leader, before, event, ops);
        assert (before + [event])[..|before|] == before;
    }
  }

  lemma RetryCaught(elected: Node, n: Node, ops: seq<B.Op>)
    requires Caught(elected, n, ops)
    ensures Caught(elected, n, ops + [B.Retry])
  {
    hide AllLawful;
    OneMoreOp(elected.replica.log, elected.commitIndex, ops, B.Retry);
  }

  lemma CleanTerm(elected: Node)
    requires CleanStart(elected)
    ensures elected.currentTerm >= 1
  {
  }

  // ---------------------------------------------------------------- where a batch ends up

  /** Turn k writes a batch of commands. */
  predicate Wrote(turns: seq<Turn>, k: nat) {
    k < |turns| && turns[k].Handle? && turns[k].event.Write? && turns[k].event.commands != []
  }

  /** The place of its entry: the end of the leader's log at that turn. */
  function PlaceOf(elected: Node, timestamp: nat, turns: seq<Turn>, k: nat): nat
    requires Wrote(turns, k)
  {
    |Leadership(elected, timestamp, EventsIn(turns[..k])).replica.log|
  }

  lemma {:induction false} EventsPrefix(turns: seq<Turn>, k: nat)
    requires k <= |turns|
    ensures EventsIn(turns[..k]) <= EventsIn(turns)
    decreases |turns|
  {
    if k < |turns| {
      EventsPrefix(turns[..|turns| - 1], k);
      assert turns[..|turns| - 1][..k] == turns[..k];
    } else {
      assert turns[..k] == turns;
    }
  }

  /** A batch written at any turn of a leadership is one entry of the leader's log from then
      on: all its commands in order, under its own timestamp, at its own index. */
  lemma BatchInLog(elected: Node, timestamp: nat, turns: seq<Turn>, k: nat)
    requires CleanStart(elected) && Wrote(turns, k)
    ensures var log := Leadership(elected, timestamp, EventsIn(turns)).replica.log;
            var i := PlaceOf(elected, timestamp, turns, k);
            && i < |log| && log[i].index == i && log[i].term == elected.currentTerm
            && log[i].commands == turns[k].event.commands && log[i].timestamp == turns[k].event.timestamp
  {
    hide CleanStart, LeaderStep, Leadership;
    var before, with := EventsIn(turns[..k]), EventsIn(turns[..k + 1]);
    assert turns[..k + 1][..k] == turns[..k];
    assert with == before + [turns[k].event];
    hide EventsIn;
    BatchStored(elected, timestamp, before, turns[k].event);
    EventsPrefix(turns, k + 1);
    LogKept(elected, timestamp, with, EventsIn(turns));
  }

  lemma LogKept(elected: Node, timestamp: nat, events: seq<LeaderEvent>, more: seq<LeaderEvent>)
    requires CleanStart(elected) && events <= more
    ensures Leadership(elected, timestamp, events).replica.log <= Leadership(elected, timestamp, more).replica.log
  {
    hide CleanStart, Leadership;
    var later := more[|events|..];
    assert events + later == more;
    CommitRule(elected, timestamp, events, later);
  }

  lemma BatchStored(elected: Node, timestamp: nat, before: seq<LeaderEvent>, event: LeaderEvent)
    requires CleanStart(elected) && event.Write? && event.commands != []
    ensures var n := Leadership(elected, timestamp, before);
            var log, i := Leadership(elected, timestamp, before + [event]).replica.log, |n.replica.log|;
            && i < |log| && log[i].index == i && log[i].term == elected.currentTerm
            && log[i].commands == event.commands && log[i].timestamp == event.timestamp
  {
    LeadershipInvariant(elected, timestamp, before);
    assert (before + [event])[..|before|] == before;
    hide CleanStart, WriteBatch, InLine, CommitOk, ProposalOk, WellFormed;
    WriteStored(Leadership(elected, timestamp, before), event.timestamp, event.commands);
  }

  /** Lawful operations truncate nothing, so what has been published is a prefix. */
  lemma {:induction false} PublishedPrefix(log: Log, commit: nat, ops: seq<B.Op>, k: nat)
    requires AllLawful(log, commit, ops) && k <= |ops|
    ensures B.LogAfterAll(log, ops[..k]) <= B.LogAfterAll(log, ops)
    decreases |ops| - k
  {
    if k == |ops| {
      assert ops[..k] == ops;
    } else {
      PublishedPrefix(log, commit, ops, k + 1);
      assert LawfulNth(log, commit, ops, k);
      assert ops[..k + 1][..k] == ops[..k];
    }
  }

  /** The index of the client's write that a turn completes, if it completes one. */
  function CompletedIn(n: Node, turn: Turn): Option<nat> {
    match turn
    case Resume => None
    case Handle(event) =>
      match Completes(n, event)
      case None => None
      case Some(p) => if p.client then Some(p.index) else None
  }

  function CompletedAt(elected: Node, timestamp: nat, turns: seq<Turn>, k: nat): Option<nat>
    requires k < |turns|
  {
    CompletedIn(Leadership(elected, timestamp, EventsIn(turns[..k])), turns[k])
  }

  ghost predicate CompletedBefore(elected: Node, timestamp: nat, turns: seq<Turn>, i: nat) {
    exists k: nat | k < |turns| :: CompletedAt(elected, timestamp, turns, k) == Some(i)
  }

  lemma CompletedOneMore(elected: Node, timestamp: nat, turns: seq<Turn>, i: nat)
    requires turns != []
    ensures CompletedBefore(elected, timestamp, turns, i) <==>
            || CompletedBefore(elected, timestamp, turns[..|turns| - 1], i)
            || CompletedAt(elected, timestamp, turns, |turns| - 1) == Some(i)
  {
    hide Completes, Leadership;
    var n := |turns| - 1;
    var before := turns[..n];
    if CompletedBefore(elected, timestamp, before, i) {
      var k: nat :| k < n && CompletedAt(elected, timestamp, before, k) == Some(i);
      assert before[..k] == turns[..k];
      assert CompletedAt(elected, timestamp, turns, k) == Some(i);
    }
    if CompletedBefore(elected, timestamp, turns, i) && CompletedAt(elected, timestamp, turns, n) != Some(i) {
      var k: nat :| k < |turns| && CompletedAt(elected, timestamp, turns, k) == Some(i);
      assert before[..k] == turns[..k];
      assert CompletedAt(elected, timestamp, before, k) == Some(i);
    }
  }

  lemma ToldOneMore(told: set<Entry>, log: Log, ops: seq<B.Op>, op: B.Op)
    ensures B.ToldAfterAll(told, log, ops + [op]) ==
            B.ToldAfter(B.ToldAfterAll(told, log, ops), B.LogAfterAll(log, ops), op)
  {
    assert (ops + [op])[..|ops|] == ops;
  }

  /** The operation of a turn reports a write exactly when the turn completes one. */
  lemma OpsTell(n: Node, turn: Turn)
    ensures var ops, i := OpsAt(n, turn), CompletedIn(n, turn);
            && |ops| <= 1 && (i.Some? ==> ops == [B.Complete(i.value)])
            && (i.None? && ops != [] ==> !ops[0].Complete?)
  {
  }

  lemma CompletionInLog(elected: Node, n: Node, events: seq<LeaderEvent>, turn: Turn)
    requires LeadershipOk(elected, n, events)
    ensures CompletedIn(n, turn).Some? ==> CompletedIn(n, turn).value < |n.replica.log|
  {
    hide LeadershipOk;
    if CompletedIn(n, turn).Some? {
      ProposalInLog(elected, n, events, if turn.event.Ack? then turn.event.id else n.done[0].id);
    }
  }

  /** What the operations of one more turn report. */
  lemma TurnTells(elected: Node, timestamp: nat, turns: seq<Turn>, told: set<Entry>)
    requires CleanStart(elected) && turns != []
    ensures var n := |turns| - 1;
            var before := B.ToldAfterAll(told, elected.replica.log, OpsOf(elected, timestamp, turns[..n]));
            var leader := Leadership(elected, timestamp, EventsIn(turns[..n]));
            var i := CompletedAt(elected, timestamp, turns, n);
            && (i.Some? ==> i.value < |leader.replica.log|)
            && B.ToldAfterAll(told, elected.replica.log, OpsOf(elected, timestamp, turns)) ==
               if i.Some? then B.ToldAfter(before, leader.replica.log, B.Complete(i.value)) else before
  {
    hide CleanStart, CompletedIn, OpsAt, Leadership, FirstOps, AllLawful, LeadershipOk, B.ToldAfterAll, B.LogAfterAll,
      EventsIn;
    var n, log := |turns| - 1, elected.replica.log;
    var leader := Leadership(elected, timestamp, EventsIn(turns[..n]));
    LeadershipIsLawful(elected, timestamp, turns[..n]);
    LeadershipInvariant(elected, timestamp, EventsIn(turns[..n]));
    CompletionInLog(elected, leader, EventsIn(turns[..n]), turns[n]);
    OpsTell(leader, turns[n]);
    ToldOneMoreTurn(told, log, OpsOf(elected, timestamp, turns[..n]), OpsAt(leader, turns[n]));
  }

  lemma ToldOneMoreTurn(told: set<Entry>, log: Log, ops: seq<B.Op>, more: seq<B.Op>)
    requires |more| <= 1
    ensures var before, now := B.ToldAfterAll(told, log, ops), B.LogAfterAll(log, ops);
            B.ToldAfterAll(told, log, ops + more) ==
            if more == [] then before else B.ToldAfter(before, now, more[0])
  {
    hide B.ToldAfterAll, B.LogAfterAll;
    if more == [] {
      assert ops + more == ops;
    } else {
      assert more == [more[0]];
      ToldOneMore(told, log, ops, more[0]);
    }
  }

  lemma NothingToldFirst(elected: Node, timestamp: nat, told: set<Entry>)
    ensures B.ToldAfterAll(told, elected.replica.log, FirstOps(elected, timestamp)) == told
  {
    var ops, log := FirstOps(elected, timestamp), elected.replica.log;
    assert ops == [ops[0]] + [ops[1]] && [] + [ops[0]] == [ops[0]];
    ToldOneMore(told, log, [], ops[0]);
    ToldOneMore(told, log, [ops[0]], ops[1]);
  }

  /** The entries of the clients' writes that have become complete. */
  ghost function CompleteEntries(elected: Node, timestamp: nat, turns: seq<Turn>, log: Log): set<Entry> {
    set i | 0 <= i < |log| && CompletedBefore(elected, timestamp, turns, i) :: log[i]
  }

  lemma OneMoreComplete(elected: Node, timestamp: nat, turns: seq<Turn>, before: seq<Turn>, log: Log, log': Log)
    requires turns != [] && before == turns[..|turns| - 1] && log <= log'
    requires forall i: nat | CompletedBefore(elected, timestamp, before, i) :: i < |log|
    requires var done := CompletedAt(elected, timestamp, turns, |before|); done.Some? ==> done.value < |log|
    ensures forall i: nat | CompletedBefore(elected, timestamp, turns, i) :: i < |log|
    ensures var done := CompletedAt(elected, timestamp, turns, |before|);
            CompleteEntries(elected, timestamp, turns, log') ==
            CompleteEntries(elected, timestamp, before, log) + if done.Some? then {log[done.value]} else {}
  {
    hide CompletedAt, CompletedBefore;
    var done := CompletedAt(elected, timestamp, turns, |before|);
    forall i: nat
      ensures CompletedBefore(elected, timestamp, turns, i) <==>
              CompletedBefore(elected, timestamp, before, i) || done == Some(i)
    {
      CompletedOneMore(elected, timestamp, turns, i);
    }
  }

  /** Success is reported exactly for the clients' writes that have become complete: beyond
      what had been told before, a leadership tells the entry of each of them and no other. */
  lemma {:induction false} ToldIffComplete(elected: Node, timestamp: nat, turns: seq<Turn>, told: set<Entry>)
    requires CleanStart(elected)
    ensures var log := Leadership(elected, timestamp, EventsIn(turns)).replica.log;
            && (forall i: nat | CompletedBefore(elected, timestamp, turns, i) :: i < |log|)
            && B.ToldAfterAll(told, elected.replica.log, OpsOf(elected, timestamp, turns)) ==
               told + CompleteEntries(elected, timestamp, turns, log)
  {
    hide CleanStart, FirstOps, Leadership, CompleteEntries, CompletedAt, CompletedBefore, B.ToldAfterAll, TurnOps,
      EventsIn;
    if turns == [] {
      NothingToldFirst(elected, timestamp, told);
      NothingCompleteFirst(elected, timestamp);
    } else {
      hide OpsOf;
      var before := turns[..|turns| - 1];
      ToldIffComplete(elected, timestamp, before, told);
      TurnTells(elected, timestamp, turns, told);
      EventsPrefix(turns, |before|);
      LogKept(elected, timestamp, EventsIn(before), EventsIn(turns));
      OneMoreComplete(elected, timestamp, turns, before,
                      Leadership(elected, timestamp, EventsIn(before)).replica.log,
                      Leadership(elected, timestamp, EventsIn(turns)).replica.log);
    }
  }

  lemma NothingCompleteFirst(elected: Node, timestamp: nat)
    ensures forall i: nat :: !CompletedBefore(elected, timestamp, [], i)
    ensures forall log :: CompleteEntries(elected, timestamp, [], log) == {}
  {
  }

  /** If the batch at index i was reported before the request, its commands are what the answer
      was read after, and its last command for the key is the answer unless a later entry
      writes the key. */
  predicate ServesBatch(b: Q.Board, a: Q.Answer, i: nat, commands: seq<Command>) {
    (exists e | e in a.request.after :: e.index == i) && Q.LastFor(commands, a.request.key).Some? ==>
      && i < a.entries <= |b.log| && b.log[i].commands == commands && Q.Sees(b, a, b.log[i])
      && ((forall j | i < j < a.entries :: Q.LastFor(b.log[j].commands, a.request.key).None?) ==>
            a.value == Q.LastFor(commands, a.request.key))
  }

  lemma BatchServed(b: Q.Board, a: Q.Answer, i: nat, commands: seq<Command>)
    requires Q.BoardOk(b) && Q.AnswerOk(b, a) && a.request in b.issued
    requires i < |b.log| ==> b.log[i].commands == commands && b.log[i].index == i
    ensures ServesBatch(b, a, i, commands)
  {
    hide Q.LastFor, Q.AnswerOk, Q.BoardOk;
    Q.ReadYourWrites(b, a);
    var key := a.request.key;
    if (exists e | e in a.request.after :: e.index == i) && Q.LastFor(commands, key).Some? {
      var e :| e in a.request.after && e.index == i;
      assert Q.WriteOk(b, e) by { ReportedInLog(b, a, e); }
      assert Q.Sees(b, a, e);
      var j: nat :| i <= j < a.entries && Q.LastWriter(b.log, a.entries, key, j)
                 && a.value == Q.LastFor(b.log[j].commands, key);
    }
  }

  lemma ReportedInLog(b: Q.Board, a: Q.Answer, e: Entry)
    requires Q.BoardOk(b) && a.request in b.issued && e in a.request.after
    ensures Q.WriteOk(b, e)
  {
    assert Q.RequestOk(b, a.request);
  }

  // ---------------------------------------------------------------- reading beside a leader

  /** The bus has no room for the next entry in time or, at the start of a leadership, the
      entry is not in the log. */
  predicate Refused(p: B.Publisher, op: B.Op)
    reads p
  {
    match op
    case Commit(index) => p.Next() <= index && p.Next() < |p.log| && !p.RefusalRecovers(p.Next(), index)
    case Complete(index) => p.Next() <= index && p.Next() < |p.log| && !p.RefusalRecovers(p.Next(), index)
    case Announce => !p.Placeable(p.commitIndex)
    case _ => false
  }

  lemma LawfulMeans(p: B.Publisher, op: B.Op)
    requires LawfulAt(p.log, p.commitIndex, op) && (!p.Premise(op) || !p.Lawful(op))
    ensures Refused(p, op)
  {
    hide B.Streak, B.RoomWithin;
  }

  /** A leadership publishes all it does, stopping only when the bus has no room in time. With
      requests arriving at any times in between, every answer that the query worker gives reads
      all writes to its key that had been reported before the request was made. A reported
      batch is read with the very commands that its client sent. */
  method Lead(p: B.Publisher, elected: Node, timestamp: nat, turns: seq<Turn>) returns (taken: nat)
    requires CleanStart(elected) && p.log == elected.replica.log && p.commitIndex == elected.commitIndex
    requires p.BusPrefix() && p.Traced() && p.Shown() && p.lawful && Q.BoardOk(p.start)
    modifies p
    ensures var ops := OpsOf(elected, timestamp, turns);
            && taken <= |ops| && (taken < |ops| ==> Refused(p, ops[taken]))
            && p.told == B.ToldAfterAll(old(p.told), elected.replica.log, ops[..taken])
    ensures var n := Leadership(elected, timestamp, EventsIn(turns));
            taken == |OpsOf(elected, timestamp, turns)| ==> p.log == n.replica.log && p.commitIndex == n.commitIndex
    ensures p.BusPrefix() && p.Traced() && p.Shown() && p.lawful && Q.BoardOk(p.start)
    ensures forall steps, a | Q.WithoutAsks(steps) == p.trace && AnswersOn(p.start, steps, a) ::
              Q.ReadsItsWrites(Q.TakenAll(p.start, steps).value, a)
    ensures forall k: nat, steps, a |
              Wrote(turns, k) && Q.WithoutAsks(steps) == p.trace && AnswersOn(p.start, steps, a) ::
              ServesBatch(Q.TakenAll(p.start, steps).value, a, PlaceOf(elected, timestamp, turns, k),
                          turns[k].event.commands)
  {
    hide Refused, Leadership, OpsOf, B.Publisher.BusPrefix, Q.BoardOk, Q.ReadsItsWrites, AnswersOn, ServesBatch,
      Q.TakenAll, CleanStart, PlaceOf, AllLawful, Q.WithoutAsks;
    var ops := OpsOf(elected, timestamp, turns);
    LeadershipIsLawful(elected, timestamp, turns);
    taken := p.Publish(ops);
    if taken < |ops| {
      assert LawfulNth(elected.replica.log, elected.commitIndex, ops, taken) by { NthLawful(elected, ops, taken); }
      LawfulMeans(p, ops[taken]);
    } else {
      assert ops[..taken] == ops;
    }
    PublishedPrefix(elected.replica.log, elected.commitIndex, ops, taken);
    forall steps, a | Q.WithoutAsks(steps) == p.trace && AnswersOn(p.start, steps, a)
      ensures Q.ReadsItsWrites(Q.TakenAll(p.start, steps).value, a)
    {
      AnswerReads(p.start, steps, a);
    }
    forall k: nat, steps, a | Wrote(turns, k) && Q.WithoutAsks(steps) == p.trace && AnswersOn(p.start, steps, a)
      ensures ServesBatch(Q.TakenAll(p.start, steps).value, a, PlaceOf(elected, timestamp, turns, k),
                          turns[k].event.commands)
    {
      BatchInLog(elected, timestamp, turns, k);
      AnswerServes(p.start, steps, a, PlaceOf(elected, timestamp, turns, k), turns[k].event.commands,
                   Leadership(elected, timestamp, EventsIn(turns)).replica.log);
    }
  }

  lemma NthLawful(elected: Node, ops: seq<B.Op>, k: nat)
    requires AllLawful(elected.replica.log, elected.commitIndex, ops) && k < |ops|
    ensures LawfulNth(elected.replica.log, elected.commitIndex, ops, k)
  {
  }

  lemma AnswerServes(start: Q.Board, steps: seq<Q.EnvironmentStep>, a: Q.Answer, i: nat, commands: seq<Command>,
                     log: Log)
    requires Q.BoardOk(start) && AnswersOn(start, steps, a) && Q.TakenAll(start, steps).Some?
    requires Q.TakenAll(start, steps).value.log <= log && i < |log| && log[i].commands == commands && log[i].index == i
    ensures ServesBatch(Q.TakenAll(start, steps).value, a, i, commands)
  {
    hide Q.BoardOk, Q.AnswerOk, ServesBatch;
    Q.TakenAllKeeps(start, steps);
    BatchServed(Q.TakenAll(start, steps).value, a, i, commands);
  }

  /** After the given steps the query worker has given this answer. */
  predicate AnswersOn(start: Q.Board, steps: seq<Q.EnvironmentStep>, a: Q.Answer) {
    match Q.TakenAll(start, steps)
    case None => false
    case Some(b) => Q.AnswerOk(b, a) && a.request in b.issued
  }

  lemma AnswerReads(start: Q.Board, steps: seq<Q.EnvironmentStep>, a: Q.Answer)
    requires Q.BoardOk(start) && AnswersOn(start, steps, a)
    ensures Q.ReadsItsWrites(Q.TakenAll(start, steps).value, a)
  {
    hide Q.BoardOk, Q.AnswerOk, Q.ReadsItsWrites;
    Q.TakenAllKeeps(start, steps);
    Q.ReadYourWrites(Q.TakenAll(start, steps).value, a);
  }
}
