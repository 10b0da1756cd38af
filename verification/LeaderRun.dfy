/** Commit accounting: what acknowledgements and persistence events make of one proposal, and
    what a whole leadership does to the log and the commit index. */
module LeaderRun {
  import opened Logs
  import opened Nodes
  import opened Repair
  import opened NodeInvariant

  // ---------------------------------------------------------------- one proposal

  datatype Event = OnDisk | FromPeer

  /** Events for a proposal that is completed or dropped find no record and do nothing. */
  function After(p: Progress, event: Event, quorum: nat): Progress {
    if !p.Kept? || !p.record.Proposal? then p
    else if event.OnDisk? then AfterPersisted(p.record, quorum)
    else AfterAck(p.record, quorum)
  }

  function AfterAll(p: Progress, events: seq<Event>, quorum: nat): Progress {
    if events == [] then p
    else After(AfterAll(p, events[..|events| - 1], quorum), events[|events| - 1], quorum)
  }

  function Acks(events: seq<Event>): nat {
    multiset(events)[FromPeer]
  }

  function Registered(client: bool, peers: nat, index: nat): Progress {
    Kept(Proposal(client, peers + 1, false, 0, index))
  }

  /** At most one persistence event and one acknowledgement per peer. */
  predicate Interleaving(events: seq<Event>, peers: nat) {
    multiset(events)[OnDisk] <= 1 && Acks(events) <= peers
  }

  lemma CountsOfPrefix(events: seq<Event>)
    requires events != []
    ensures multiset(events) == multiset(events[..|events| - 1]) + multiset{events[|events| - 1]}
  {
    var n := |events| - 1;
    assert events == events[..n] + [events[n]];
  }

  lemma {:induction false} EventCount(events: seq<Event>)
    ensures |events| == Acks(events) + multiset(events)[OnDisk]
  {
    if events != [] {
      CountsOfPrefix(events);
      EventCount(events[..|events| - 1]);
      assert events[|events| - 1] == OnDisk || events[|events| - 1] == FromPeer;
    }
  }

  lemma EventsSplit(events: seq<Event>)
    requires events != []
    ensures var before, last := events[..|events| - 1], events[|events| - 1];
            && |events| == |before| + 1
            && (OnDisk in events <==> OnDisk in before || last.OnDisk?)
            && Acks(events) == Acks(before) + (if last.FromPeer? then 1 else 0)
            && multiset(events)[OnDisk] == multiset(before)[OnDisk] + (if last.OnDisk? then 1 else 0)
            && |before| == Acks(before) + multiset(before)[OnDisk]
  {
    CountsOfPrefix(events);
    EventCount(events[..|events| - 1]);
    assert events == events[..|events| - 1] + [events[|events| - 1]];
  }

  /** Order does not matter: after any interleaving the proposal is complete exactly when it
      is on disk and has a quorum of acknowledgements. It is dropped exactly when a peer's
      answer is the last of all and does not complete it, which takes a quorum of more than
      the peers. */
  lemma {:induction false} AckCountingIgnoresOrder(client: bool, peers: nat, index: nat, events: seq<Event>,
                                                   quorum: nat)
    requires Interleaving(events, peers)
    ensures AfterAll(Registered(client, peers, index), events, quorum) ==
            if OnDisk in events && Acks(events) >= quorum then Completed
            else if |events| > peers && events[|events| - 1].FromPeer? then Dropped
            else Kept(Proposal(client, peers + 1 - |events|, OnDisk in events, Acks(events), index))
    ensures quorum <= peers ==> !AfterAll(Registered(client, peers, index), events, quorum).Dropped?
  {
    if events != [] {
      var before := events[..|events| - 1];
      EventsSplit(events);
      assert OnDisk in before ==> multiset(before)[OnDisk] >= 1;
      hide Acks;
      AckCountingIgnoresOrder(client, peers, index, before, quorum);
    }
  }

  lemma {:induction false} CompletionNeedsQuorum(client: bool, peers: nat, index: nat, events: seq<Event>, quorum: nat)
    ensures match AfterAll(Registered(client, peers, index), events, quorum)
            case Completed => OnDisk in events && Acks(events) >= quorum
            case Kept(p) => p.Proposal? && (p.persisted ==> OnDisk in events) && p.acks <= Acks(events)
            case Dropped => true
  {
    if events != [] {
      EventsSplit(events);
      hide Acks;
      CompletionNeedsQuorum(client, peers, index, events[..|events| - 1], quorum);
    }
  }

  /** When every peer answers and the disk reports, the proposal completes exactly when the
      quorum does not exceed the number of peers: the leader's own copy is no acknowledgement,
      so a single-node cluster never commits. */
  lemma EveryProposalCompletesIff(client: bool, peers: nat, index: nat, events: seq<Event>, quorum: nat)
    requires multiset(events)[OnDisk] == 1 && Acks(events) == peers
    ensures AfterAll(Registered(client, peers, index), events, quorum) == Completed <==> quorum <= peers
  {
    if quorum <= peers {
      assert OnDisk in multiset(events);
      AckCountingIgnoresOrder(client, peers, index, events, quorum);
    } else {
      CompletionNeedsQuorum(client, peers, index, events, quorum);
    }
  }

  // ---------------------------------------------------------------- one leadership

  datatype LeaderEvent =
    | Write(timestamp: nat, commands: seq<Command>)
    | PersistTask
    | ReadReport
    | Ack(id: nat)
    | VoteRequest(ballot: Ballot, lastIndex: nat)
    | BackfillWanted(lastTerm: nat, lastIndex: nat)
    | Send(messages: set<Message>)

  /** The persistence worker's step and the reading of a report do nothing when there is
      none to take. */
  function LeaderStep(n: Node, event: LeaderEvent): Node {
    match event
    case Write(timestamp, commands) => WriteBatch(n, timestamp, commands)
    case PersistTask => if n.work == [] then n else PersistOne(n)
    case ReadReport => if n.done == [] then n else HandlePersisted(n).0
    case Ack(id) => OnAck(n, id)
    case VoteRequest(b, lastIndex) => OnVoteRequest(n, b, lastIndex).0
    case BackfillWanted(lastTerm, lastIndex) => OnBackfillRequest(n, lastTerm, lastIndex)
    case Send(messages) => n.(sent := n.sent + messages)
  }

  /** The leadership after its first step and the given events. */
  function Leadership(elected: Node, timestamp: nat, events: seq<LeaderEvent>): Node {
    if events == [] then InitializeLeadership(elected, timestamp)
    else LeaderStep(Leadership(elected, timestamp, events[..|events| - 1]), events[|events| - 1])
  }

  /** A newly elected leader whose earlier leaderships have left no proposals behind. The
      rest holds of every node in every run. */
  predicate CleanStart(n: Node) {
    && n.role == Leader(false) && n.currentTerm >= 1 && n.nextId >= 1
    && Tracks(n.disk.log, n.work, n.replica.log) && CursorOk(n.replica)
    && (forall k | 0 <= k < |n.work| && !n.work[k].TruncateTo? :: n.work[k].id < n.nextId)
    && (forall k | 0 <= k < |n.done| :: n.done[k].id < n.nextId)
    && (forall id | id in n.outstanding :: id < n.nextId && !n.outstanding[id].Proposal?)
  }

  lemma CleanLog(n: Node)
    requires CleanStart(n)
    ensures WellFormed(n.replica.log) && CursorOk(n.replica)
  {
    TracksWellFormed(n.disk.log, n.work, n.replica.log);
  }

  function AckCount(events: seq<LeaderEvent>, id: nat): nat {
    multiset(events)[Ack(id)]
  }

  /** Position i of the log is in the file for good: no truncation is on its way. */
  predicate InFile(n: Node, i: nat) {
    NoCuts(n.work) && i < |n.disk.log|
  }

  /** Entry i was created by this leadership, is on disk and has been acknowledged by a
      quorum. */
  predicate Earned(elected: Node, n: Node, events: seq<LeaderEvent>, i: nat) {
    && |elected.replica.log| <= i < |n.replica.log|
    && n.replica.log[i].term == elected.currentTerm
    && InFile(n, i)
    && AckCount(events, n.replica.log[i].messageId) >= elected.quorum
  }

  predicate ProposalOk(elected: Node, n: Node, events: seq<LeaderEvent>, id: nat)
    requires id in n.outstanding
  {
    var p := n.outstanding[id];
    && id < n.nextId
    && (p.Proposal? ==>
          && id >= elected.nextId
          && |elected.replica.log| <= p.index < |n.replica.log|
          && n.replica.log[p.index].messageId == id && n.replica.log[p.index].term == elected.currentTerm
          && (p.persisted ==> InFile(n, p.index))
          && p.acks <= AckCount(events, id))
  }

  /** The record of a proposal, if it is still waited for, has the given index. */
  predicate Indexed(n: Node, id: nat, index: nat) {
    id in n.outstanding && n.outstanding[id].Proposal? ==> n.outstanding[id].index == index
  }

  /** An entry of this leadership on its way to the disk has no truncation behind it. */
  predicate TaskInLine(elected: Node, n: Node, k: nat)
    requires k < |n.work|
  {
    && (!n.work[k].TruncateTo? ==> n.work[k].id < n.nextId)
    && (n.work[k].AppendEntry? && n.work[k].id >= elected.nextId ==>
          NoCuts(n.work[k..]) && Indexed(n, n.work[k].id, n.work[k].entry.index))
  }

  /** The report of an entry of this leadership comes when the entry is on disk. */
  predicate ReportInLine(elected: Node, n: Node, k: nat)
    requires k < |n.done|
  {
    var id := n.done[k].id;
    && id < n.nextId
    && (n.done[k].LogPersisted? && id >= elected.nextId && id in n.outstanding && n.outstanding[id].Proposal? ==>
          InFile(n, n.outstanding[id].index))
  }

  predicate InLine(elected: Node, n: Node) {
    && (forall k: nat | k < |n.work| :: TaskInLine(elected, n, k))
    && (forall k: nat | k < |n.done| :: ReportInLine(elected, n, k))
  }

  predicate LeaderShape(elected: Node, n: Node) {
    && n.role == Leader(true) && n.currentTerm == elected.currentTerm && n.quorum == elected.quorum
    && elected.replica.log <= n.replica.log && |elected.replica.log| < |n.replica.log|
    && n.replica.nextIndex == |n.replica.log|
    && Tracks(n.disk.log, n.work, n.replica.log) && WellFormed(n.replica.log) && CursorOk(n.replica)
    && n.nextId >= 1 && n.nextId >= elected.nextId
  }

  predicate CommitOk(elected: Node, n: Node, events: seq<LeaderEvent>) {
    || n.commitIndex == elected.commitIndex
    || (n.commitIndex > elected.commitIndex && Earned(elected, n, events, n.commitIndex))
  }

  predicate LeadershipOk(elected: Node, n: Node, events: seq<LeaderEvent>) {
    && LeaderShape(elected, n)
    && CommitOk(elected, n, events)
    && InLine(elected, n)
    && forall id | id in n.outstanding :: ProposalOk(elected, n, events, id)
  }

  // ---------------------------------------------------------------- the commit rule

  lemma EventsGrow(events: seq<LeaderEvent>, event: LeaderEvent)
    ensures forall id :: AckCount(events + [event], id) == AckCount(events, id) + if event == Ack(id) then 1 else 0
  {
  }

  /** What every event keeps of the records: they keep their kind and index, and know no more
      than has happened. */
  predicate RecordsFrom(n: Node, n': Node) {
    forall id | id in n'.outstanding && n'.outstanding[id].Proposal? && id < n.nextId ::
      id in n.outstanding && n.outstanding[id].Proposal? && n'.outstanding[id].index == n.outstanding[id].index
  }

  /** Tasks and reports stay in line when no more than one task is queued, and no truncation. */
  lemma LineKept(elected: Node, n: Node, n': Node, more: seq<Task>)
    requires InLine(elected, n) && RecordsFrom(n, n') && n'.nextId >= n.nextId && n'.disk == n.disk
    requires n'.work == n.work + more && NoCuts(more) && |more| <= 1
    requires more != [] ==> more[0].id < n'.nextId
    requires more != [] && more[0].AppendEntry? ==> Indexed(n', more[0].id, more[0].entry.index)
    requires n'.done == n.done || (n.done != [] && n'.done == n.done[1..])
    ensures InLine(elected, n')
  {
    forall k: nat | k < |n'.work| ensures TaskInLine(elected, n', k) {
      if k < |n.work| {
        assert TaskInLine(elected, n, k);
        assert n'.work[k..] == n.work[k..] + more;
      } else {
        assert n'.work[k..] == more;
      }
    }
    forall k: nat | k < |n'.done| ensures ReportInLine(elected, n', k) {
      assert ReportInLine(elected, n, if n'.done == n.done then k else k + 1);
    }
  }

  /** An event that leaves log, files and commit index alone and changes no proposal. */
  lemma RecordsCarried(elected: Node, n: Node, n': Node, events: seq<LeaderEvent>, event: LeaderEvent, more: seq<Task>)
    requires LeadershipOk(elected, n, events)
    requires n'.role == n.role && n'.currentTerm == n.currentTerm && n'.quorum == n.quorum && n'.replica == n.replica
    requires n'.nextId >= n.nextId && n'.commitIndex == n.commitIndex && n'.disk == n.disk
    requires n'.work == n.work + more && (more == [] || (|more| == 1 && more[0].AppendVote? && more[0].id < n'.nextId))
    requires n'.done == n.done || (n.done != [] && n'.done == n.done[1..])
    requires forall id | id in n'.outstanding ::
               if id in n.outstanding && n'.outstanding[id] == n.outstanding[id] then true
               else id < n'.nextId && !n'.outstanding[id].Proposal?
    ensures LeadershipOk(elected, n', events + [event])
  {
    EventsGrow(events, event);
    LineKept(elected, n, n', more);
    VotesTrack(n.disk.log, n.work, n.replica.log, more);
    forall id | id in n'.outstanding ensures ProposalOk(elected, n', events + [event], id) {
      if id in n.outstanding {
        assert ProposalOk(elected, n, events, id);
      }
    }
  }

  lemma VotesTrack(file: Log, work: seq<Task>, log: Log, more: seq<Task>)
    requires Tracks(file, work, log) && (more == [] || (|more| == 1 && more[0].AppendVote?))
    ensures Tracks(file, work + more, log)
  {
    if more == [] {
      assert work + more == work;
    } else {
      assert more == [more[0]];
      TracksWellFormed(file, work, log);
      TracksQueue(file, work, log, more[0]);
    }
  }

  /** One report or acknowledgement of a proposal, after the report has been taken. */
  lemma Advanced(elected: Node, n: Node, n': Node, events: seq<LeaderEvent>, event: LeaderEvent, id: nat,
                 progress: Progress)
    requires LeadershipOk(elected, n, events) && id in n.outstanding && n.outstanding[id].Proposal?
    requires || (event == ReadReport && InFile(n, n.outstanding[id].index) && n.done != [] && n'.done == n.done[1..]
                 && progress == AfterPersisted(n.outstanding[id], n.quorum))
             || (event == Ack(id) && n'.done == n.done && progress == AfterAck(n.outstanding[id], n.quorum))
    requires n' == Advance(n, id, n.outstanding[id].index, progress).(done := n'.done)
    ensures LeadershipOk(elected, n', events + [event])
  {
    EventsGrow(events, event);
    AdvancedCommit(elected, n, n', events, event, id, progress);
    assert n.work + [] == n.work;
    hide CommitOk, LeaderShape, Tracks;
    AdvancedShape(elected, n, n');
    LineKept(elected, n, n', []);
    hide InLine, AckCount;
    forall k | k in n'.outstanding ensures ProposalOk(elected, n', events + [event], k) {
      assert ProposalOk(elected, n, events, k);
    }
  }

  lemma AdvancedShape(elected: Node, n: Node, n': Node)
    requires LeaderShape(elected, n)
    requires n' == n.(outstanding := n'.outstanding, commitIndex := n'.commitIndex, done := n'.done)
    ensures LeaderShape(elected, n')
  {
  }

  lemma AdvancedCommit(elected: Node, n: Node, n': Node, events: seq<LeaderEvent>, event: LeaderEvent,
                       id: nat, progress: Progress)
    requires LeadershipOk(elected, n, events) && id in n.outstanding && n.outstanding[id].Proposal?
    requires || (event == ReadReport && InFile(n, n.outstanding[id].index)
                 && progress == AfterPersisted(n.outstanding[id], n.quorum))
             || (event == Ack(id) && progress == AfterAck(n.outstanding[id], n.quorum))
    requires n' == Advance(n, id, n.outstanding[id].index, progress).(done := n'.done)
    ensures CommitOk(elected, n', events + [event])
  {
    hide InLine, Tracks;
    EventsGrow(events, event);
    assert ProposalOk(elected, n, events, id);
  }

  lemma ProposedInLeadership(elected: Node, n: Node, events: seq<LeaderEvent>, event: LeaderEvent, timestamp: nat,
                             commands: seq<Command>, client: bool)
    requires LeadershipOk(elected, n, events) && elected.currentTerm >= 1
    ensures LeadershipOk(elected, Propose(n, timestamp, commands, client), events + [event])
  {
    var n' := Propose(n, timestamp, commands, client);
    var e := NewEntry(n, n.replica.nextIndex, n.nextId, timestamp, commands);
    var task := Task.AppendEntry(n.nextId, e);
    EventsGrow(events, event);
    ChainedEntry(n.replica.log, e);
    TracksQueue(n.disk.log, n.work, n.replica.log, task);
    assert n'.replica.log == n.replica.log + [e] && n'.work == n.work + [task];
    LineKept(elected, n, n', [task]);
    forall id | id in n'.outstanding ensures ProposalOk(elected, n', events + [event], id) {
      if id != n.nextId {
        assert ProposalOk(elected, n, events, id);
      }
    }
  }

  lemma LeadershipBegins(elected: Node, timestamp: nat)
    requires CleanStart(elected)
    ensures LeadershipOk(elected, InitializeLeadership(elected, timestamp), [])
  {
    hide LeaderShape, InLine, ProposalOk, CleanStart;
    BeginsShape(elected, timestamp);
    BeginsInLine(elected, timestamp);
    BeginsProposals(elected, timestamp);
  }

  function NoopOf(elected: Node, timestamp: nat): Entry {
    Entry(|elected.replica.log|, elected.currentTerm, elected.replica.lastIndex, elected.replica.lastTerm,
          elected.nextId + 1, timestamp, [])
  }

  /** The first step of a leadership appends its no-op and registers it. */
  lemma BeginsWith(elected: Node, timestamp: nat)
    ensures var e, n := NoopOf(elected, timestamp), InitializeLeadership(elected, timestamp);
            && n.role == Leader(true) && n.currentTerm == elected.currentTerm && n.quorum == elected.quorum
            && n.replica.log == elected.replica.log + [e] && n.replica.nextIndex == |n.replica.log|
            && n.replica.lastIndex == e.index && n.replica.lastTerm == e.term
            && n.disk == elected.disk && n.done == elected.done && n.nextId == elected.nextId + 2
            && n.work == elected.work + [Task.AppendEntry(elected.nextId + 1, e)]
            && n.commitIndex == elected.commitIndex
            && n.outstanding == elected.outstanding[elected.nextId + 1 :=
                                  Proposal(false, elected.peers + 1, false, 0, |elected.replica.log|)]
  {
  }

  lemma BeginsShape(elected: Node, timestamp: nat)
    requires CleanStart(elected)
    ensures LeaderShape(elected, InitializeLeadership(elected, timestamp))
    ensures CommitOk(elected, InitializeLeadership(elected, timestamp), [])
  {
    BeginsWith(elected, timestamp);
    hide InitializeLeadership;
    var log, e := elected.replica.log, NoopOf(elected, timestamp);
    TracksWellFormed(elected.disk.log, elected.work, log);
    ChainedEntry(log, e);
    TracksQueue(elected.disk.log, elected.work, log, Task.AppendEntry(elected.nextId + 1, e));
    assert LastIndex(log + [e]) == e.index && LastTerm(log + [e]) == e.term;
  }

  lemma BeginsInLine(elected: Node, timestamp: nat)
    requires CleanStart(elected)
    ensures InLine(elected, InitializeLeadership(elected, timestamp))
  {
    BeginsWith(elected, timestamp);
    hide InitializeLeadership;
    var n := InitializeLeadership(elected, timestamp);
    forall k: nat | k < |n.work| ensures TaskInLine(elected, n, k) {
      if k == |elected.work| {
        assert n.work[k..] == [n.work[k]];
      }
    }
    forall k: nat | k < |n.done| ensures ReportInLine(elected, n, k) {
    }
  }

  lemma BeginsProposals(elected: Node, timestamp: nat)
    requires CleanStart(elected)
    ensures var n := InitializeLeadership(elected, timestamp);
            forall id | id in n.outstanding :: ProposalOk(elected, n, [], id)
  {
    BeginsWith(elected, timestamp);
    hide InitializeLeadership;
  }

  /** The oldest task reaches the disk. */
  lemma TaskPersisted(elected: Node, n: Node, events: seq<LeaderEvent>)
    requires LeadershipOk(elected, n, events) && n.work != []
    ensures LeadershipOk(elected, PersistOne(n), events + [PersistTask])
  {
    var n' := PersistOne(n);
    EventsGrow(events, PersistTask);
    PersistedLine(elected, n);
    assert NoCuts(n.work) ==> NoCuts(n'.work) && |n'.disk.log| >= |n.disk.log|;
    forall id | id in n'.outstanding ensures ProposalOk(elected, n', events + [PersistTask], id) {
      assert ProposalOk(elected, n, events, id);
    }
  }

  lemma PersistedLine(elected: Node, n: Node)
    requires InLine(elected, n) && n.work != [] && Tracks(n.disk.log, n.work, n.replica.log)
    ensures InLine(elected, PersistOne(n))
  {
    var n' := PersistOne(n);
    assert TaskInLine(elected, n, 0) && n.work[0..] == n.work;
    forall k: nat | k < |n'.work| ensures TaskInLine(elected, n', k) {
      assert TaskInLine(elected, n, k + 1);
      assert n'.work[k..] == n.work[k + 1..];
    }
    forall k: nat | k < |n'.done| ensures ReportInLine(elected, n', k) {
      if k < |n.done| {
        assert ReportInLine(elected, n, k);
      } else if n.work[0].AppendEntry? {
        assert EntryAt(n'.disk.log, |n.disk.log|);
      }
    }
  }

  lemma ReportRead(elected: Node, n: Node, events: seq<LeaderEvent>)
    requires LeadershipOk(elected, n, events) && n.done != []
    ensures LeadershipOk(elected, HandlePersisted(n).0, events + [ReadReport])
  {
    var n' := HandlePersisted(n).0;
    var r := n.done[0];
    assert ReportInLine(elected, n, 0);
    assert n.work + [] == n.work;
    if r.LogPersisted? && r.id in n.outstanding && n.outstanding[r.id].Proposal? {
      assert ProposalOk(elected, n, events, r.id);
      Advanced(elected, n, n', events, ReadReport, r.id, AfterPersisted(n.outstanding[r.id], n.quorum));
    } else {
      StaysLeader(elected, n, events);
      hide LeadershipOk;
      RecordsCarried(elected, n, n', events, ReadReport, []);
    }
  }

  lemma VoteAsked(elected: Node, n: Node, events: seq<LeaderEvent>, b: Ballot, lastIndex: nat)
    requires LeadershipOk(elected, n, events)
    ensures LeadershipOk(elected, OnVoteRequest(n, b, lastIndex).0, events + [VoteRequest(b, lastIndex)])
  {
    hide LeadershipOk;
    StaysLeader(elected, n, events);
    var n' := OnVoteRequest(n, b, lastIndex).0;
    assert n.work + [] == n.work;
    RecordsCarried(elected, n, n', events, VoteRequest(b, lastIndex),
                   if n'.work == n.work then [] else [AppendVote(n.nextId, VoteRow(b.term, b.candidate))]);
  }

  lemma LeaderStepKeeps(elected: Node, n: Node, events: seq<LeaderEvent>, event: LeaderEvent)
    requires LeadershipOk(elected, n, events) && elected.currentTerm >= 1
    ensures LeadershipOk(elected, LeaderStep(n, event), events + [event])
  {
    hide LeadershipOk;
    StaysLeader(elected, n, events);
    assert n.work + [] == n.work;
    match event {
      case Write(timestamp, commands) =>
        if commands != [] {
          ProposedInLeadership(elected, n, events, event, timestamp, commands, true);
        } else {
          RecordsCarried(elected, n, LeaderStep(n, event), events, event, []);
        }
      case PersistTask =>
        if n.work != [] {
          TaskPersisted(elected, n, events);
        } else {
          RecordsCarried(elected, n, n, events, event, []);
        }
      case ReadReport =>
        if n.done != [] {
          ReportRead(elected, n, events);
        } else {
          RecordsCarried(elected, n, n, events, event, []);
        }
      case Ack(id) => Acknowledged(elected, n, events, id);
      case VoteRequest(b, lastIndex) => VoteAsked(elected, n, events, b, lastIndex);
      case BackfillWanted(_, _) => RecordsCarried(elected, n, LeaderStep(n, event), events, event, []);
      case Send(_) => RecordsCarried(elected, n, LeaderStep(n, event), events, event, []);
    }
  }

  lemma Acknowledged(elected: Node, n: Node, events: seq<LeaderEvent>, id: nat)
    requires LeadershipOk(elected, n, events)
    ensures LeadershipOk(elected, OnAck(n, id), events + [Ack(id)])
  {
    hide LeadershipOk;
    StaysLeader(elected, n, events);
    assert n.work + [] == n.work;
    if id in n.outstanding && n.outstanding[id].Proposal? {
      Advanced(elected, n, OnAck(n, id), events, Ack(id), id, AfterAck(n.outstanding[id], n.quorum));
    } else {
      RecordsCarried(elected, n, OnAck(n, id), events, Ack(id), []);
    }
  }

  lemma StaysLeader(elected: Node, n: Node, events: seq<LeaderEvent>)
    requires LeadershipOk(elected, n, events)
    ensures n.role == Leader(true) && forall id | id in n.outstanding :: id < n.nextId
  {
    forall id | id in n.outstanding ensures id < n.nextId {
      assert ProposalOk(elected, n, events, id);
    }
  }

  lemma {:induction false} LeadershipInvariant(elected: Node, timestamp: nat, events: seq<LeaderEvent>)
    requires CleanStart(elected)
    ensures LeadershipOk(elected, Leadership(elected, timestamp, events), events)
  {
    hide LeadershipOk, LeaderStep;
    if events == [] {
      LeadershipBegins(elected, timestamp);
    } else {
      var n := |events| - 1;
      LeadershipInvariant(elected, timestamp, events[..n]);
      LeaderStepKeeps(elected, Leadership(elected, timestamp, events[..n]), events[..n], events[n]);
      assert events[..n] + [events[n]] == events;
    }
  }

  /** The leader's commit rule, section 5.4.2 of the Raft paper: over a whole leadership the
      log only grows, and the commit index never falls and moves only to an entry that this
      leader created in its own term, that its log file holds, and that was acknowledged
      `quorum` times. */
  lemma CommitRule(elected: Node, timestamp: nat, events: seq<LeaderEvent>, later: seq<LeaderEvent>)
    requires CleanStart(elected)
    ensures var before := Leadership(elected, timestamp, events);
            var after := Leadership(elected, timestamp, events + later);
            && before.replica.log <= after.replica.log
            && before.commitIndex <= after.commitIndex
            && (after.commitIndex != elected.commitIndex ==>
                  && Earned(elected, after, events + later, after.commitIndex)
                  && after.disk.log[..after.commitIndex + 1] == after.replica.log[..after.commitIndex + 1])
    decreases |later|
  {
    hide LeadershipOk, LeaderStep, Earned;
    LeadershipInvariant(elected, timestamp, events + later);
    var after := Leadership(elected, timestamp, events + later);
    if after.commitIndex != elected.commitIndex {
      CommitEarned(elected, after, events + later);
    }
    if later == [] {
      assert events + later == events;
    } else {
      var n := |later| - 1;
      CommitRule(elected, timestamp, events, later[..n]);
      assert (events + later)[..|events + later| - 1] == events + later[..n];
      LeadershipInvariant(elected, timestamp, events + later[..n]);
      StepGrows(elected, Leadership(elected, timestamp, events + later[..n]), events + later[..n], later[n]);
    }
  }

  lemma CommitEarned(elected: Node, n: Node, events: seq<LeaderEvent>)
    requires LeadershipOk(elected, n, events) && n.commitIndex != elected.commitIndex
    ensures Earned(elected, n, events, n.commitIndex) && n.commitIndex < |n.disk.log| && n.commitIndex < |n.replica.log|
    ensures n.disk.log[..n.commitIndex + 1] == n.replica.log[..n.commitIndex + 1]
  {
    NoCutsPrefix(n.disk.log, n.work, n.replica.log);
    assert n.replica.log[..|n.disk.log|] == n.disk.log;
  }

  lemma StepGrows(elected: Node, n: Node, events: seq<LeaderEvent>, event: LeaderEvent)
    requires LeadershipOk(elected, n, events)
    ensures n.replica.log <= LeaderStep(n, event).replica.log
    ensures n.commitIndex <= LeaderStep(n, event).commitIndex
  {
    hide LeadershipOk, HandlePersisted, OnAck, OnVoteRequest, WriteBatch, OnBackfillRequest;
    StaysLeader(elected, n, events);
    match event
    case Write(timestamp, commands) => WriteGrows(n, timestamp, commands);
    case ReadReport =>
      if n.done != [] {
        ReportGrows(n);
      }
    case Ack(id) => AckGrows(n, id);
    case VoteRequest(b, lastIndex) => VoteGrows(n, b, lastIndex);
    case BackfillWanted(lastTerm, lastIndex) => BackfillGrows(n, lastTerm, lastIndex);
    case _ =>
  }

  lemma WriteGrows(n: Node, timestamp: nat, commands: seq<Command>)
    ensures n.replica.log <= WriteBatch(n, timestamp, commands).replica.log
    ensures n.commitIndex == WriteBatch(n, timestamp, commands).commitIndex
  {
  }

  lemma ReportGrows(n: Node)
    requires n.done != [] && n.role.Leader?
    ensures HandlePersisted(n).0.replica == n.replica && n.commitIndex <= HandlePersisted(n).0.commitIndex
  {
  }

  lemma AckGrows(n: Node, id: nat)
    ensures OnAck(n, id).replica == n.replica && n.commitIndex <= OnAck(n, id).commitIndex
  {
  }

  lemma VoteGrows(n: Node, b: Ballot, lastIndex: nat)
    ensures var n' := OnVoteRequest(n, b, lastIndex).0;
            n'.replica == n.replica && n'.commitIndex == n.commitIndex
  {
  }

  lemma BackfillGrows(n: Node, lastTerm: nat, lastIndex: nat)
    ensures var n' := OnBackfillRequest(n, lastTerm, lastIndex);
            n'.replica == n.replica && n'.commitIndex == n.commitIndex
  {
  }
}
