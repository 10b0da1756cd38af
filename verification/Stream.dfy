/** The per-peer quorum worker: its queue, its cursor, and the stream of messages one
    leadership sends to one peer. */
module Stream {
  import opened Logs
  import opened Nodes
  import opened Repair
  import opened LeaderRun
  import opened RequestLaws

  datatype WorkerTask =
    | StartHeartbeats(term: nat, prevTerm: nat, prevIndex: nat, commit: nat)
    | StopHeartbeats
    | SendEntry(entry: Entry, id: nat, commit: nat)
    | SendBackfill(entries: seq<Entry>)
    | SendTruncate(prevTerm: nat, prevIndex: nat)
    | UpdateCommit(commit: nat)

  datatype Worker = Worker(self: NodeId, term: nat, prevIndex: nat, prevTerm: nat, commit: nat, heartbeats: bool)

  function EntryRequest(w: Worker, e: Entry, id: nat, commit: nat): Message {
    AppendEntries(w.term, w.self, e.prevIndex, e.prevTerm, id, Some(e), commit)
  }

  /** A backfill goes out under the entries' original ids and leaves the cursor alone. */
  function Perform(w: Worker, task: WorkerTask): (Worker, seq<Message>) {
    match task
    case StartHeartbeats(term, prevTerm, prevIndex, commit) =>
      (Worker(w.self, term, prevIndex, prevTerm, commit, true), [])
    case StopHeartbeats => (w.(heartbeats := false), [])
    case SendEntry(e, id, commit) =>
      (w.(prevIndex := e.index, prevTerm := e.term, commit := commit), [EntryRequest(w, e, id, commit)])
    case SendBackfill(entries) => (w, BackfillRequests(w, entries))
    case SendTruncate(prevTerm, prevIndex) => (w, [TruncateLog(w.term, w.self, prevTerm, prevIndex)])
    case UpdateCommit(commit) => (w.(commit := commit), [])
  }

  function BackfillRequests(w: Worker, entries: seq<Entry>): seq<Message> {
    seq(|entries|, i requires 0 <= i < |entries| => EntryRequest(w, entries[i], entries[i].messageId, w.commit))
  }

  function Beat(w: Worker): seq<Message> {
    if w.heartbeats then [AppendEntries(w.term, w.self, w.prevIndex, w.prevTerm, 0, None, w.commit)] else []
  }

  function PerformAll(w: Worker, tasks: seq<WorkerTask>): (Worker, seq<Message>) {
    if tasks == [] then (w, [])
    else
      var n := |tasks| - 1;
      var (w1, sent) := PerformAll(w, tasks[..n]);
      var (w2, more) := Perform(w1, tasks[n]);
      (w2, sent + more)
  }

  lemma PerformNone(w: Worker)
    ensures PerformAll(w, []) == (w, [])
  {
  }

  lemma PerformOneMore(w: Worker, tasks: seq<WorkerTask>, n: nat)
    requires n < |tasks|
    ensures var (w1, sent) := PerformAll(w, tasks[..n]);
            var (w2, more) := Perform(w1, tasks[n]);
            PerformAll(w, tasks[..n + 1]) == (w2, sent + more)
  {
    hide Perform;
    assert tasks[..n + 1][..n] == tasks[..n];
  }

  // ---------------------------------------------------------------- speaking for the leader

  /** The worker knows the leader's identity, term and commit index. */
  predicate SpeaksFor(w: Worker, n: Node) {
    w.self == n.id && w.term == n.currentTerm && w.commit == n.commitIndex
  }

  function TaskFor(answer: Answer): WorkerTask {
    match answer
    case Backfill(entries) => SendBackfill(entries)
    case Truncate(prevTerm, prevIndex) => SendTruncate(prevTerm, prevIndex)
  }

  /** The answer to a follower's question goes out as exactly the messages that the leader
      sends in the cluster model: a backfill entry by entry in order, or one truncation, which
      takes a new id. */
  lemma AnswerCarried(w: Worker, n: Node, lastTerm: nat, lastIndex: nat)
    requires SpeaksFor(w, n)
    ensures var messages := Perform(w, TaskFor(AnswerTo(n.replica.log, lastTerm, lastIndex))).1;
            && OnBackfillRequest(n, lastTerm, lastIndex).sent == n.sent + set m | m in messages
            && match AnswerTo(n.replica.log, lastTerm, lastIndex)
               case Backfill(entries) =>
                 && |messages| == |entries| && OnBackfillRequest(n, lastTerm, lastIndex).nextId == n.nextId
                 && forall i | 0 <= i < |entries| ::
                      messages[i] == AppendEntries(n.currentTerm, n.id, entries[i].prevIndex, entries[i].prevTerm,
                                                   entries[i].messageId, Some(entries[i]), n.commitIndex)
               case Truncate(prevTerm, prevIndex) =>
                 && messages == [TruncateLog(n.currentTerm, n.id, prevTerm, prevIndex)]
                 && OnBackfillRequest(n, lastTerm, lastIndex).nextId == n.nextId + 1
  {
    var answer := AnswerTo(n.replica.log, lastTerm, lastIndex);
    hide AnswerTo;
    if answer.Backfill? {
      var entries, messages := answer.entries, BackfillRequests(w, answer.entries);
      assert forall i | 0 <= i < |entries| :: messages[i] == EntryMessage(n, entries[i]);
      forall e | e in entries ensures EntryMessage(n, e) in messages {
        var i :| 0 <= i < |entries| && entries[i] == e;
        assert messages[i] == EntryMessage(n, e);
      }
    }
  }

  /** A new entry goes out as the leader's own message and moves the cursor to it; a heartbeat
      is the one that the leader sends in the cluster model, at the worker's cursor. */
  lemma EntryCarried(w: Worker, n: Node, e: Entry)
    requires SpeaksFor(w, n)
    ensures var (w', messages) := Perform(w, SendEntry(e, e.messageId, n.commitIndex));
            && messages == [EntryMessage(n, e)] && SpeaksFor(w', n) && w'.heartbeats == w.heartbeats
            && w'.prevIndex == e.index && w'.prevTerm == e.term
    ensures Beat(w) == if w.heartbeats
                       then [AppendEntries(n.currentTerm, n.id, w.prevIndex, w.prevTerm, 0, None, n.commitIndex)]
                       else []
  {
  }

  predicate Switches(task: WorkerTask) {
    task.StartHeartbeats? || task.StopHeartbeats?
  }

  /** Heartbeats run exactly when the last task that starts or stops them starts them. */
  lemma {:induction false} LastSwitchDecides(w: Worker, tasks: seq<WorkerTask>, k: nat)
    requires k < |tasks| && Switches(tasks[k]) && forall i | k < i < |tasks| :: !Switches(tasks[i])
    ensures PerformAll(w, tasks).0.heartbeats == tasks[k].StartHeartbeats?
    decreases |tasks|
  {
    var n := |tasks| - 1;
    if k < n {
      LastSwitchDecides(w, tasks[..n], k);
      assert !Switches(tasks[n]);
    }
  }

  // ---------------------------------------------------------------- the worker

  const MAX_MESSAGES_PER_ITERATION: nat := 32

  class QuorumWorker {
    const self: NodeId
    var term: nat
    var prevIndex: nat
    var prevTerm: nat
    var commit: nat
    var heartbeats: bool
    var queue: seq<WorkerTask>
    var sent: seq<Message>

    constructor (self: NodeId)
      ensures View() == Worker(self, 0, 0, 0, 0, false) && queue == [] && sent == []
    {
      this.self := self;
      term, prevIndex, prevTerm, commit, heartbeats, queue, sent := 0, 0, 0, 0, false, [], [];
    }

    function View(): Worker
      reads this
    {
      Worker(self, term, prevIndex, prevTerm, commit, heartbeats)
    }

    method PerformTask(task: WorkerTask)
      modifies this
      ensures View() == Perform(old(View()), task).0
      ensures sent == old(sent) + Perform(old(View()), task).1
      ensures queue == old(queue)
    {
      match task
      case StartHeartbeats(t, pt, pi, c) =>
        heartbeats, term, prevTerm, prevIndex, commit := true, t, pt, pi, c;
      case StopHeartbeats =>
        heartbeats := false;
      case SendEntry(e, id, c) =>
        sent := sent + [EntryRequest(View(), e, id, c)];
        prevTerm, prevIndex, commit := e.term, e.index, c;
      case SendBackfill(entries) =>
        ghost var before := sent;
        for i := 0 to |entries|
          invariant View() == old(View()) && queue == old(queue)
          invariant sent == before + BackfillRequests(View(), entries)[..i]
        {
          sent := sent + [EntryRequest(View(), entries[i], entries[i].messageId, commit)];
        }
      case SendTruncate(pt, pi) =>
        sent := sent + [TruncateLog(term, self, pt, pi)];
      case UpdateCommit(c) =>
        commit := c;
    }

    /** Takes tasks from the front of the queue, at most 32 of them. */
    method ProcessWorkQueue() returns (n: nat)
      modifies this
      ensures n == if |old(queue)| <= MAX_MESSAGES_PER_ITERATION then |old(queue)| else MAX_MESSAGES_PER_ITERATION
      ensures queue == old(queue)[n..]
      ensures View() == PerformAll(old(View()), old(queue)[..n]).0
      ensures sent == old(sent) + PerformAll(old(View()), old(queue)[..n]).1
    {
      hide Perform, PerformAll, View;
      PerformNone(View());
      assert old(queue)[..0] == [];
      n := 0;
      while n < MAX_MESSAGES_PER_ITERATION && queue != []
        invariant n <= MAX_MESSAGES_PER_ITERATION && n <= |old(queue)| && queue == old(queue)[n..]
        invariant View() == PerformAll(old(View()), old(queue)[..n]).0
        invariant sent == old(sent) + PerformAll(old(View()), old(queue)[..n]).1
      {
        PerformOneMore(old(View()), old(queue), n);
        var task := PopTask();
        PerformTask(task);
        n := n + 1;
      }
    }

    method PopTask() returns (task: WorkerTask)
      requires queue != []
      modifies this`queue
      ensures task == old(queue)[0] && queue == old(queue)[1..] && View() == old(View())
    {
      task := queue[0];
      queue := queue[1..];
    }
  }

  // ---------------------------------------------------------------- what a leadership queues

  /** The tasks a step pushes to every peer's queue. Backfills and truncations go to one peer
      and are not part of this stream. */
  function TasksOf(n: Node, event: LeaderEvent): seq<WorkerTask> {
    if event.Write? && event.commands != [] then
      [SendEntry(NewEntry(n, n.replica.nextIndex, n.nextId, event.timestamp, event.commands), n.nextId, n.commitIndex)]
    else if LeaderStep(n, event).commitIndex > n.commitIndex then [UpdateCommit(LeaderStep(n, event).commitIndex)]
    else []
  }

  function OpeningTasks(elected: Node, timestamp: nat): seq<WorkerTask> {
    var r := elected.replica;
    var noop := NewEntry(elected, |r.log|, elected.nextId + 1, timestamp, []);
    [StartHeartbeats(elected.currentTerm, r.lastTerm, r.lastIndex, elected.commitIndex),
     SendEntry(noop, elected.nextId + 1, elected.commitIndex)]
  }

  function StreamOf(elected: Node, timestamp: nat, events: seq<LeaderEvent>): seq<WorkerTask> {
    if events == [] then OpeningTasks(elected, timestamp)
    else
      var n := |events| - 1;
      StreamOf(elected, timestamp, events[..n]) + TasksOf(Leadership(elected, timestamp, events[..n]), events[n])
  }

  function EntriesOf(tasks: seq<WorkerTask>): seq<Entry> {
    if tasks == [] then []
    else
      var last := tasks[|tasks| - 1];
      EntriesOf(tasks[..|tasks| - 1]) + if last.SendEntry? then [last.entry] else []
  }

  /** The commit index the worker carries after the tasks. */
  function CommitOf(commit: nat, tasks: seq<WorkerTask>): nat {
    if tasks == [] then commit
    else
      match tasks[|tasks| - 1]
      case StartHeartbeats(_, _, _, c) => c
      case SendEntry(_, _, c) => c
      case UpdateCommit(c) => c
      case _ => CommitOf(commit, tasks[..|tasks| - 1])
  }

  /** One more task is in order: heartbeats start at the cursor, an entry continues the log
      sent so far under its own id, and the commit index never falls or passes that log. */
  predicate InOrder(elected: Node, before: seq<WorkerTask>, task: WorkerTask) {
    var log := elected.replica.log + EntriesOf(before);
    var commit := CommitOf(elected.commitIndex, before);
    match task
    case StartHeartbeats(term, prevTerm, prevIndex, c) =>
      && before == [] && c == commit && term == elected.currentTerm
      && prevTerm == elected.replica.lastTerm && prevIndex == elected.replica.lastIndex
    case SendEntry(e, id, c) => before != [] && c == commit && id == e.messageId && WellFormed(log + [e])
    case UpdateCommit(c) => before != [] && commit <= c <= LastIndex(log)
    case _ => false
  }

  predicate Orderly(elected: Node, tasks: seq<WorkerTask>) {
    tasks == [] ||
    var n := |tasks| - 1;
    Orderly(elected, tasks[..n]) && InOrder(elected, tasks[..n], tasks[n])
  }

  lemma TaskAdded(elected: Node, tasks: seq<WorkerTask>, task: WorkerTask)
    requires Orderly(elected, tasks) && InOrder(elected, tasks, task)
    ensures Orderly(elected, tasks + [task])
    ensures EntriesOf(tasks + [task]) == EntriesOf(tasks) + if task.SendEntry? then [task.entry] else []
  {
    assert (tasks + [task])[..|tasks|] == tasks;
  }

  lemma OpeningOrderly(elected: Node, timestamp: nat)
    requires CleanStart(elected)
    ensures Synced(elected, OpeningTasks(elected, timestamp), InitializeLeadership(elected, timestamp))
  {
    var tasks := OpeningTasks(elected, timestamp);
    var log := elected.replica.log;
    var start := [tasks[0]];
    assert start[..0] == [];
    TaskAdded(elected, [], tasks[0]);
    assert [] + [tasks[0]] == start;
    CleanLog(elected);
    ChainedEntry(log, tasks[1].entry);
    assert log + EntriesOf(start) == log;
    TaskAdded(elected, start, tasks[1]);
    assert start + [tasks[1]] == tasks;
  }

  /** The tasks are in order, and with them the peer's worker knows all of the leader's log
      and commit index. */
  predicate Synced(elected: Node, tasks: seq<WorkerTask>, n: Node) {
    && tasks != [] && Orderly(elected, tasks)
    && elected.replica.log + EntriesOf(tasks) == n.replica.log
    && CommitOf(elected.commitIndex, tasks) == n.commitIndex
  }

  lemma EntrySynced(elected: Node, tasks: seq<WorkerTask>, n: Node, n': Node, task: WorkerTask)
    requires Synced(elected, tasks, n) && task.SendEntry? && task.id == task.entry.messageId
    requires task.commit == n.commitIndex
    requires n'.replica.log == n.replica.log + [task.entry] && WellFormed(n'.replica.log)
    requires n'.commitIndex == n.commitIndex
    ensures Synced(elected, tasks + [task], n')
  {
    assert InOrder(elected, tasks, task);
    TaskAdded(elected, tasks, task);
  }

  lemma CommitSynced(elected: Node, tasks: seq<WorkerTask>, n: Node, n': Node)
    requires Synced(elected, tasks, n) && n'.replica.log == n.replica.log
    requires n.commitIndex <= n'.commitIndex <= LastIndex(n.replica.log)
    ensures Synced(elected, tasks + [UpdateCommit(n'.commitIndex)], n')
  {
    var task := UpdateCommit(n'.commitIndex);
    assert InOrder(elected, tasks, task);
    TaskAdded(elected, tasks, task);
  }

  lemma StepSynced(elected: Node, tasks: seq<WorkerTask>, n: Node, event: LeaderEvent, events: seq<LeaderEvent>)
    requires Synced(elected, tasks, n)
    requires LeadershipOk(elected, n, events) && LeadershipOk(elected, LeaderStep(n, event), events + [event])
    ensures Synced(elected, tasks + TasksOf(n, event), LeaderStep(n, event))
  {
    hide LeaderStep, Synced, Orderly, EntriesOf, CommitOf, ProposalOk;
    var n' := LeaderStep(n, event);
    LeaderStepShape(n, event);
    CursorOfWellFormed(n.replica.log);
    if event.Write? && event.commands != [] {
      EntrySynced(elected, tasks, n, n', TasksOf(n, event)[0]);
    } else if n'.commitIndex > n.commitIndex {
      CommitSynced(elected, tasks, n, n');
    } else {
      SyncedSame(elected, tasks, n, n');
      assert tasks + [] == tasks;
    }
  }

  lemma SyncedSame(elected: Node, tasks: seq<WorkerTask>, n: Node, n': Node)
    requires Synced(elected, tasks, n) && n'.replica.log == n.replica.log && n'.commitIndex == n.commitIndex
    ensures Synced(elected, tasks, n')
  {
  }

  /** The tasks of a leadership are in order, and their entries are all that the leader's log
      has gained. */
  lemma {:induction false} StreamOrderly(elected: Node, timestamp: nat, events: seq<LeaderEvent>)
    requires CleanStart(elected)
    ensures Synced(elected, StreamOf(elected, timestamp, events), Leadership(elected, timestamp, events))
  {
    hide Synced, LeadershipOk, LeaderStep, TasksOf;
    if events == [] {
      OpeningOrderly(elected, timestamp);
    } else {
      var k := |events| - 1;
      assert events[..k] + [events[k]] == events;
      StreamOrderly(elected, timestamp, events[..k]);
      LeadershipInvariant(elected, timestamp, events[..k]);
      LeadershipInvariant(elected, timestamp, events);
      StepSynced(elected, StreamOf(elected, timestamp, events[..k]),
                 Leadership(elected, timestamp, events[..k]), events[k], events[..k]);
    }
  }

  /** Only a write changes the log, and it leaves the commit index alone. */
  lemma LeaderStepShape(n: Node, event: LeaderEvent)
    requires n.role == Leader(true)
    ensures var n' := LeaderStep(n, event);
            && n'.commitIndex >= n.commitIndex
            && if event.Write? && event.commands != [] then
                 && n'.commitIndex == n.commitIndex
                 && var e := NewEntry(n, n.replica.nextIndex, n.nextId, event.timestamp, event.commands);
                    n'.replica.log == n.replica.log + [e]
               else n'.replica.log == n.replica.log
  {
    hide HandlePersisted, OnAck, OnVoteRequest, OnBackfillRequest;
    match event
    case ReadReport =>
      if n.done != [] {
        ReportGrows(n);
      }
    case Ack(id) => AckGrows(n, id);
    case VoteRequest(b, lastIndex) => VoteGrows(n, b, lastIndex);
    case BackfillWanted(lastTerm, lastIndex) => BackfillGrows(n, lastTerm, lastIndex);
    case _ =>
  }

  /** The carried commit index never falls, and never passes the entries sent so far, unless
      the leader was elected with a commit index beyond its log and has not moved it. */
  lemma {:induction false} CommitStaysBehind(elected: Node, tasks: seq<WorkerTask>, k: nat)
    requires Orderly(elected, tasks) && WellFormed(elected.replica.log) && k <= |tasks|
    ensures WellFormed(elected.replica.log + EntriesOf(tasks))
    ensures CommitOf(elected.commitIndex, tasks[..k]) <= CommitOf(elected.commitIndex, tasks)
    ensures CommitOf(elected.commitIndex, tasks) <=
              Max(elected.commitIndex, LastIndex(elected.replica.log + EntriesOf(tasks)))
    decreases |tasks|
  {
    hide Orderly, WellFormed, LastIndex, InOrder;
    if tasks == [] {
      assert elected.replica.log + EntriesOf(tasks) == elected.replica.log;
    } else {
      hide EntriesOf, CommitOf;
      var n := |tasks| - 1;
      LastTaskInOrder(elected, tasks);
      CommitStaysBehind(elected, tasks[..n], if k <= n then k else n);
      LastTaskGrows(elected, tasks[..n], tasks[n]);
      assert tasks[..n] + [tasks[n]] == tasks;
      if k <= n {
        assert tasks[..n][..k] == tasks[..k];
      } else {
        assert tasks[..k] == tasks && tasks[..n][..n] == tasks[..n];
      }
    }
  }

  lemma LastTaskInOrder(elected: Node, tasks: seq<WorkerTask>)
    requires Orderly(elected, tasks) && tasks != []
    ensures Orderly(elected, tasks[..|tasks| - 1]) && InOrder(elected, tasks[..|tasks| - 1], tasks[|tasks| - 1])
  {
    hide InOrder;
  }

  /** One more task in order keeps the log sent so far well-formed, and moves the commit index
      forward within it. */
  lemma LastTaskGrows(elected: Node, before: seq<WorkerTask>, task: WorkerTask)
    requires InOrder(elected, before, task) && WellFormed(elected.replica.log + EntriesOf(before))
    ensures var log, more := elected.replica.log + EntriesOf(before), elected.replica.log + EntriesOf(before + [task]);
            && WellFormed(more) && LastIndex(log) <= LastIndex(more)
            && CommitOf(elected.commitIndex, before) <= CommitOf(elected.commitIndex, before + [task])
            && CommitOf(elected.commitIndex, before + [task]) <=
               Max(CommitOf(elected.commitIndex, before), LastIndex(log))
  {
    var log := elected.replica.log + EntriesOf(before);
    assert (before + [task])[..|before|] == before;
    CursorOfWellFormed(log);
    if task.SendEntry? {
      assert elected.replica.log + EntriesOf(before + [task]) == log + [task.entry];
      CursorOfWellFormed(log + [task.entry]);
    } else {
      assert elected.replica.log + EntriesOf(before + [task]) == log;
    }
  }

  // ---------------------------------------------------------------- the peer at the other end

  datatype Action = Do(task: WorkerTask) | Tick

  /** A worker, its peer, and whether the peer has accepted everything so far. */
  datatype Link = Link(worker: Worker, peer: Node, inStep: bool)

  function Hear(l: Link, m: Message): Link {
    if m.TruncateLog? then l.(peer := OnTruncate(l.peer, m.prevTerm, m.prevIndex), inStep := false)
    else
      var (peer, reply) := OnAppend(l.peer, m);
      l.(peer := peer, inStep := l.inStep && (reply.Accepted? || reply.Deferred?))
  }

  function HearAll(l: Link, messages: seq<Message>): Link {
    if messages == [] then l
    else Hear(HearAll(l, messages[..|messages| - 1]), messages[|messages| - 1])
  }

  /** The worker performs a task or its heartbeat timer fires; its messages arrive in order. */
  function Act(l: Link, action: Action): Link {
    match action
    case Tick => HearAll(l, Beat(l.worker))
    case Do(task) =>
      var (w, messages) := Perform(l.worker, task);
      HearAll(l, messages).(worker := w)
  }

  function Play(l: Link, actions: seq<Action>): Link {
    if actions == [] then l
    else Act(Play(l, actions[..|actions| - 1]), actions[|actions| - 1])
  }

  function TasksIn(actions: seq<Action>): seq<WorkerTask> {
    if actions == [] then []
    else
      var last := actions[|actions| - 1];
      TasksIn(actions[..|actions| - 1]) + if last.Do? then [last.task] else []
  }

  predicate WorkerOk(w: Worker, elected: Node, tasks: seq<WorkerTask>) {
    var log := elected.replica.log + EntriesOf(tasks);
    w.self == elected.id &&
    if tasks == [] then !w.heartbeats
    else
      && w.heartbeats && w.term == elected.currentTerm
      && w.prevIndex == LastIndex(log) && w.prevTerm == LastTerm(log)
      && w.commit == CommitOf(elected.commitIndex, tasks)
  }

  predicate LinkOk(elected: Node, l: Link, tasks: seq<WorkerTask>) {
    && l.inStep && Recognises(l.peer, elected) && WorkerOk(l.worker, elected, tasks)
    && l.peer.replica.log == elected.replica.log + EntriesOf(tasks) && CursorOk(l.peer.replica)
    && WellFormed(l.peer.replica.log)
  }

  lemma HearOne(l: Link, m: Message)
    ensures HearAll(l, [m]) == Hear(l, m)
  {
    assert [m][..0] == [];
  }

  lemma TickKeepsStep(elected: Node, l: Link, tasks: seq<WorkerTask>)
    requires LinkOk(elected, l, tasks)
    ensures LinkOk(elected, Act(l, Tick), tasks)
  {
    if l.worker.heartbeats {
      HearOne(l, Beat(l.worker)[0]);
    }
  }

  lemma EntryKeepsStep(elected: Node, l: Link, tasks: seq<WorkerTask>, task: WorkerTask)
    requires LinkOk(elected, l, tasks) && InOrder(elected, tasks, task) && task.SendEntry?
    ensures LinkOk(elected, Act(l, Do(task)), tasks + [task])
  {
    var e, log := task.entry, l.peer.replica.log;
    var m := EntryRequest(l.worker, e, task.id, task.commit);
    HearOne(l, m);
    EntryContinues(log, e);
    EntryTaken(l.peer, elected, m, e);
    assert (tasks + [task])[..|tasks|] == tasks;
    assert elected.replica.log + EntriesOf(tasks + [task]) == log + [e];
    hide OnAppend, WellFormed, HearAll, EntriesOf, Recognises;
  }

  lemma EntryContinues(log: Log, e: Entry)
    requires WellFormed(log) && WellFormed(log + [e])
    ensures e.prevIndex == LastIndex(log) && e.prevTerm == LastTerm(log) && e.messageId > 0
  {
    assert EntryAt(log + [e], |log|);
    CursorOfWellFormed(log);
  }

  lemma EntryTaken(peer: Node, elected: Node, m: Message, e: Entry)
    requires Recognises(peer, elected) && m.AppendEntries? && m.term == elected.currentTerm && m.leader == elected.id
    requires m.entry == Some(e) && m.requestId > 0 && Consecutive(peer.replica, m.prevIndex, m.prevTerm)
    ensures var (n, reply) := OnAppend(peer, m);
            reply.Deferred? && Recognises(n, elected) && n.replica == Push(peer.replica, e)
  {
  }

  lemma TaskKeepsStep(elected: Node, l: Link, tasks: seq<WorkerTask>, task: WorkerTask)
    requires LinkOk(elected, l, tasks) && InOrder(elected, tasks, task) && CursorOk(elected.replica)
    ensures LinkOk(elected, Act(l, Do(task)), tasks + [task])
  {
    if task.SendEntry? {
      EntryKeepsStep(elected, l, tasks, task);
    } else {
      NoteKeepsStep(elected, l, tasks, task);
    }
  }

  /** The start of heartbeats and a new commit index change the worker only. */
  lemma NoteKeepsStep(elected: Node, l: Link, tasks: seq<WorkerTask>, task: WorkerTask)
    requires LinkOk(elected, l, tasks) && InOrder(elected, tasks, task) && CursorOk(elected.replica)
    requires task.StartHeartbeats? || task.UpdateCommit?
    ensures LinkOk(elected, Act(l, Do(task)), tasks + [task])
  {
    var w := Perform(l.worker, task).0;
    assert Act(l, Do(task)) == l.(worker := w);
    hide Act, WellFormed, CursorOk, Hear, HearAll;
    NoteAdded(elected, tasks, task);
    hide EntriesOf, CommitOf;
    CursorNoted(elected);
  }

  lemma NoteAdded(elected: Node, tasks: seq<WorkerTask>, task: WorkerTask)
    requires task.StartHeartbeats? || task.UpdateCommit?
    ensures EntriesOf(tasks + [task]) == EntriesOf(tasks)
    ensures CommitOf(elected.commitIndex, tasks + [task]) == task.commit
    ensures tasks == [] ==> elected.replica.log + EntriesOf(tasks) == elected.replica.log
  {
    assert (tasks + [task])[..|tasks|] == tasks;
  }

  lemma CursorNoted(elected: Node)
    requires CursorOk(elected.replica)
    ensures elected.replica.lastIndex == LastIndex(elected.replica.log)
    ensures elected.replica.lastTerm == LastTerm(elected.replica.log)
  {
  }

  lemma {:induction false} OrderlyPrefix(elected: Node, tasks: seq<WorkerTask>, k: nat)
    requires Orderly(elected, tasks) && k < |tasks|
    ensures InOrder(elected, tasks[..k], tasks[k])
    decreases |tasks|
  {
    var n := |tasks| - 1;
    if k < n {
      OrderlyPrefix(elected, tasks[..n], k);
      assert tasks[..n][..k] == tasks[..k];
    }
  }

  lemma {:induction false} PlayKeepsStep(elected: Node, l: Link, actions: seq<Action>, tasks: seq<WorkerTask>)
    requires LinkOk(elected, l, []) && CursorOk(elected.replica)
    requires Orderly(elected, tasks) && TasksIn(actions) <= tasks
    ensures LinkOk(elected, Play(l, actions), TasksIn(actions))
    decreases |actions|
  {
    hide LinkOk, InOrder, Orderly, Act;
    if actions != [] {
      var n := |actions| - 1;
      var before := TasksIn(actions[..n]);
      assert before <= TasksIn(actions);
      PlayKeepsStep(elected, l, actions[..n], tasks);
      if actions[n].Tick? {
        TickKeepsStep(elected, Play(l, actions[..n]), before);
        assert TasksIn(actions) == before;
      } else {
        OrderlyPrefix(elected, tasks, |before|);
        assert tasks[..|before|] == before;
        TaskKeepsStep(elected, Play(l, actions[..n]), before, actions[n].task);
      }
    }
  }

  /** A follower that starts with the new leader's log accepts everything the leadership
      streams to it, however the worker's heartbeats fall between its tasks, and its log stays
      a prefix of the leader's log; it is the leader's log once all tasks are done. */
  lemma StreamKeepsFollowerInStep(
    elected: Node, timestamp: nat, events: seq<LeaderEvent>, l: Link, actions: seq<Action>)
    requires CleanStart(elected)
    requires l.inStep && Recognises(l.peer, elected) && l.worker.self == elected.id && !l.worker.heartbeats
    requires l.peer.replica.log == elected.replica.log && CursorOk(l.peer.replica)
    requires TasksIn(actions) <= StreamOf(elected, timestamp, events)
    ensures var after := Play(l, actions);
            var leader := Leadership(elected, timestamp, events);
            && after.inStep
            && after.peer.replica.log <= leader.replica.log
            && after.worker.commit <= Max(Max(l.worker.commit, elected.commitIndex), LastIndex(after.peer.replica.log))
            && (TasksIn(actions) == StreamOf(elected, timestamp, events) ==>
                  after.peer.replica.log == leader.replica.log && after.worker.commit == leader.commitIndex)
  {
    hide CleanStart, Leadership, StreamOf, Orderly, WellFormed, Play, TasksIn, CommitOf, EntriesOf, LastIndex, CursorOk;
    var tasks := StreamOf(elected, timestamp, events);
    var done := TasksIn(actions);
    CleanLog(elected);
    StreamOrderly(elected, timestamp, events);
    NothingSent(elected, l);
    PlayKeepsStep(elected, l, actions, tasks);
    EntriesPrefix(tasks, done);
    PrefixOrderly(elected, tasks, done);
    CommitStaysBehind(elected, done, 0);
    if done == [] {
      NoTasksNoCommit(l, actions);
    }
  }

  lemma NothingSent(elected: Node, l: Link)
    requires l.inStep && Recognises(l.peer, elected) && l.worker.self == elected.id && !l.worker.heartbeats
    requires l.peer.replica.log == elected.replica.log && CursorOk(l.peer.replica) && WellFormed(elected.replica.log)
    ensures LinkOk(elected, l, [])
  {
    assert elected.replica.log + [] == elected.replica.log;
  }

  lemma {:induction false} EntriesPrefix(tasks: seq<WorkerTask>, done: seq<WorkerTask>)
    requires done <= tasks
    ensures EntriesOf(done) <= EntriesOf(tasks)
    decreases |tasks|
  {
    if |done| < |tasks| {
      EntriesPrefix(tasks[..|tasks| - 1], done);
    } else {
      assert done == tasks;
    }
  }

  lemma {:induction false} PrefixOrderly(elected: Node, tasks: seq<WorkerTask>, done: seq<WorkerTask>)
    requires Orderly(elected, tasks) && done <= tasks
    ensures Orderly(elected, done)
    decreases |tasks|
  {
    if |done| < |tasks| {
      PrefixOrderly(elected, tasks[..|tasks| - 1], done);
    } else {
      assert done == tasks;
    }
  }

  lemma {:induction false} NoTasksNoCommit(l: Link, actions: seq<Action>)
    requires TasksIn(actions) == []
    ensures Play(l, actions).worker == l.worker
  {
    if actions != [] {
      NoTasksNoCommit(l, actions[..|actions| - 1]);
      HeardOnly(Play(l, actions[..|actions| - 1]), Beat(l.worker));
    }
  }

  lemma {:induction false} HeardOnly(l: Link, messages: seq<Message>)
    ensures HearAll(l, messages).worker == l.worker
  {
    if messages != [] {
      HeardOnly(l, messages[..|messages| - 1]);
    }
  }

  // ---------------------------------------------------------------- the peer's commit index

  /** The peer's commit index has not fallen below its first value c0 and has not passed what
      it has been told. It has heard the leader's term with the first entry. */
  predicate Told(c0: nat, elected: Node, l: Link, tasks: seq<WorkerTask>) {
    && c0 <= l.peer.commitIndex <= Max(c0, CommitOf(elected.commitIndex, tasks))
    && (tasks == [] ==> l.peer.commitIndex == c0)
    && (EntriesOf(tasks) != [] ==> l.peer.currentTerm == elected.currentTerm)
  }

  /** A heartbeat brings a peer that has heard the leader's term up to the carried index. */
  lemma TickTells(c0: nat, elected: Node, l: Link, tasks: seq<WorkerTask>)
    requires LinkOk(elected, l, tasks) && Told(c0, elected, l, tasks)
    ensures Told(c0, elected, Act(l, Tick), tasks)
    ensures EntriesOf(tasks) != [] ==>
              Act(l, Tick).peer.commitIndex == Max(l.peer.commitIndex, CommitOf(elected.commitIndex, tasks))
  {
    hide CommitOf, WellFormed;
    if l.worker.heartbeats {
      var m := Beat(l.worker)[0];
      HearOne(l, m);
      CommitAfterAppend(l.peer, m);
      AppendFollows(l.peer, m);
      hide OnAppend, HearAll;
    } else {
      assert tasks == [];
    }
  }

  lemma EntryTells(c0: nat, elected: Node, l: Link, tasks: seq<WorkerTask>, task: WorkerTask)
    requires LinkOk(elected, l, tasks) && InOrder(elected, tasks, task)
    requires task.SendEntry? && Told(c0, elected, l, tasks)
    ensures Told(c0, elected, Act(l, Do(task)), tasks + [task])
  {
    var e, log := task.entry, l.peer.replica.log;
    var m := EntryRequest(l.worker, e, task.id, task.commit);
    HearOne(l, m);
    EntryContinues(log, e);
    CommitAfterAppend(l.peer, m);
    AppendFollows(l.peer, m);
    assert (tasks + [task])[..|tasks|] == tasks;
    hide OnAppend, WellFormed, HearAll;
  }

  lemma NoteTells(c0: nat, elected: Node, l: Link, tasks: seq<WorkerTask>, task: WorkerTask)
    requires LinkOk(elected, l, tasks) && InOrder(elected, tasks, task) && Told(c0, elected, l, tasks)
    requires task.StartHeartbeats? || task.UpdateCommit?
    ensures Told(c0, elected, Act(l, Do(task)), tasks + [task])
  {
    var w := Perform(l.worker, task).0;
    assert Act(l, Do(task)) == l.(worker := w);
    hide Act, WellFormed, CursorOk, Hear, HearAll, LinkOk;
    NoteAdded(elected, tasks, task);
    hide EntriesOf, CommitOf;
  }

  lemma {:induction false} PlayTells(elected: Node, l: Link, actions: seq<Action>, tasks: seq<WorkerTask>)
    requires LinkOk(elected, l, []) && CursorOk(elected.replica)
    requires Orderly(elected, tasks) && TasksIn(actions) <= tasks
    ensures LinkOk(elected, Play(l, actions), TasksIn(actions))
    ensures Told(l.peer.commitIndex, elected, Play(l, actions), TasksIn(actions))
    decreases |actions|
  {
    PlayKeepsStep(elected, l, actions, tasks);
    hide LinkOk, InOrder, Orderly, Act, Told;
    if actions == [] {
      NothingTold(elected, l);
    } else {
      var n := |actions| - 1;
      var before, mid := TasksIn(actions[..n]), Play(l, actions[..n]);
      PlayOne(l, actions);
      hide Play, TasksIn;
      PlayTells(elected, l, actions[..n], tasks);
      if actions[n].Tick? {
        TickTells(l.peer.commitIndex, elected, mid, before);
      } else {
        NextInOrder(elected, tasks, before, actions[n].task);
        TaskTells(l.peer.commitIndex, elected, mid, before, actions[n].task);
      }
    }
  }

  lemma NothingTold(elected: Node, l: Link)
    ensures Told(l.peer.commitIndex, elected, l, [])
  {
  }

  lemma NextInOrder(elected: Node, tasks: seq<WorkerTask>, before: seq<WorkerTask>, task: WorkerTask)
    requires Orderly(elected, tasks) && before + [task] <= tasks
    ensures InOrder(elected, before, task)
  {
    hide InOrder;
    OrderlyPrefix(elected, tasks, |before|);
    assert tasks[..|before|] == before && tasks[|before|] == task;
  }

  lemma PlayOne(l: Link, actions: seq<Action>)
    requires actions != []
    ensures var n := |actions| - 1;
            && Play(l, actions) == Act(Play(l, actions[..n]), actions[n])
            && TasksIn(actions) ==
               if actions[n].Tick? then TasksIn(actions[..n]) else TasksIn(actions[..n]) + [actions[n].task]
  {
    hide Act;
    assert TasksIn(actions[..|actions| - 1]) + [] == TasksIn(actions[..|actions| - 1]);
  }

  lemma TaskTells(c0: nat, elected: Node, l: Link, tasks: seq<WorkerTask>, task: WorkerTask)
    requires LinkOk(elected, l, tasks) && InOrder(elected, tasks, task) && Told(c0, elected, l, tasks)
    ensures Told(c0, elected, Act(l, Do(task)), tasks + [task])
  {
    hide LinkOk, Act, Told, WellFormed;
    if task.SendEntry? {
      EntryTells(c0, elected, l, tasks, task);
    } else {
      NoteTells(c0, elected, l, tasks, task);
    }
  }

  /** Once all tasks are done and one more heartbeat has fired, a follower that started with
      the new leader's log knows the leader's commit index, unless it knew of a higher one. */
  lemma StreamSpreadsCommit(
    elected: Node, timestamp: nat, events: seq<LeaderEvent>, l: Link, actions: seq<Action>)
    requires CleanStart(elected)
    requires l.inStep && Recognises(l.peer, elected) && l.worker.self == elected.id && !l.worker.heartbeats
    requires l.peer.replica.log == elected.replica.log && CursorOk(l.peer.replica)
    requires TasksIn(actions) == StreamOf(elected, timestamp, events)
    ensures Play(l, actions + [Tick]).peer.commitIndex ==
            Max(l.peer.commitIndex, Leadership(elected, timestamp, events).commitIndex)
  {
    hide CleanStart, Leadership, StreamOf, Orderly, WellFormed, CommitOf, EntriesOf, Act, LinkOk;
    var tasks := StreamOf(elected, timestamp, events);
    CleanLog(elected);
    StreamOrderly(elected, timestamp, events);
    StreamHasEntry(elected, timestamp, events);
    NothingSent(elected, l);
    PlayTells(elected, l, actions, tasks);
    var mid := Play(l, actions);
    TickTells(l.peer.commitIndex, elected, mid, tasks);
    assert (actions + [Tick])[..|actions|] == actions;
  }

  lemma StreamHasEntry(elected: Node, timestamp: nat, events: seq<LeaderEvent>)
    requires CleanStart(elected)
    ensures EntriesOf(StreamOf(elected, timestamp, events)) != []
  {
    StreamOrderly(elected, timestamp, events);
    LeadershipInvariant(elected, timestamp, events);
    hide CleanStart, Leadership, StreamOf, Orderly, WellFormed, CommitOf, EntriesOf, InLine, CommitOk, ProposalOk;
    assert elected.replica.log + [] == elected.replica.log;
  }
}
