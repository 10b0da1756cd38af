/** What needs none of the cluster's premises: every message id is used once, reports come back
    in the order of their ids, each at most once, and the votes on disk and on their way there
    are the votes in memory. */
module MessageIds {
  import opened Logs
  import opened Nodes
  import opened Repair
  import opened Cluster

  function TaskIds(work: seq<Task>): seq<nat> {
    if work == [] then []
    else
      var k := |work| - 1;
      TaskIds(work[..k]) + if work[k].TruncateTo? then [] else [work[k].id]
  }

  function ReportIds(done: seq<Response>): seq<nat> {
    seq(|done|, k requires 0 <= k < |done| => done[k].id)
  }

  /** The ids still to be reported, in the order in which the reports will be read. */
  function PendingIds(n: Node): seq<nat> {
    ReportIds(n.done) + TaskIds(n.work)
  }

  predicate Increasing(ids: seq<nat>, bound: nat) {
    && (forall i, j | 0 <= i < j < |ids| :: ids[i] < ids[j])
    && (forall i | 0 <= i < |ids| :: ids[i] < bound)
  }

  /** The vote rows on their way to the disk. */
  function RowsOf(work: seq<Task>): seq<VoteRow> {
    if work == [] then []
    else
      var k := |work| - 1;
      RowsOf(work[..k]) + if work[k].AppendVote? then [work[k].row] else []
  }

  /** Reading back the votes file, once the queued rows are in it, gives the votes in memory. */
  predicate VotesMirrored(n: Node) {
    n.votes == VotesOf(n.disk.votes + RowsOf(n.work))
  }

  predicate IdsInOrder(n: Node) {
    && Increasing(PendingIds(n), n.nextId) && (forall id | id in n.outstanding :: id < n.nextId)
    && VotesMirrored(n)
  }

  // ---------------------------------------------------------------- single handlers

  lemma QueueTask(work: seq<Task>, task: Task)
    ensures TaskIds(work + [task]) == TaskIds(work) + if task.TruncateTo? then [] else [task.id]
    ensures RowsOf(work + [task]) == RowsOf(work) + if task.AppendVote? then [task.row] else []
  {
    assert (work + [task])[..|work|] == work;
  }

  lemma {:induction false} OldestTask(work: seq<Task>)
    requires work != []
    ensures TaskIds(work) == (if work[0].TruncateTo? then [] else [work[0].id]) + TaskIds(work[1..])
    ensures RowsOf(work) == (if work[0].AppendVote? then [work[0].row] else []) + RowsOf(work[1..])
  {
    var k := |work| - 1;
    if k > 0 {
      OldestTask(work[..k]);
      assert work[..k][1..] == work[1..][..k - 1];
      assert work[1..][k - 1] == work[k];
    }
  }

  lemma RowPersisted(n: Node)
    requires n.work != []
    ensures PersistOne(n).disk.votes + RowsOf(PersistOne(n).work) == n.disk.votes + RowsOf(n.work)
  {
    OldestTask(n.work);
    var first := if n.work[0].AppendVote? then [n.work[0].row] else [];
    assert n.disk.votes + (first + RowsOf(n.work[1..])) == (n.disk.votes + first) + RowsOf(n.work[1..]);
  }

  lemma PersistKeepsIds(n: Node)
    requires n.work != []
    ensures PendingIds(PersistOne(n)) == PendingIds(n)
    ensures PersistOne(n).disk.votes + RowsOf(PersistOne(n).work) == n.disk.votes + RowsOf(n.work)
  {
    hide RowsOf, TaskIds, ReportIds;
    RowPersisted(n);
    OldestTask(n.work);
    OneMoreReport(n.done, n.work[0]);
    var first, rest := if n.work[0].TruncateTo? then [] else [n.work[0].id], TaskIds(n.work[1..]);
    assert ReportIds(n.done) + (first + rest) == (ReportIds(n.done) + first) + rest;
  }

  lemma OneMoreReport(done: seq<Response>, task: Task)
    ensures ReportIds(done + ResponseTo(task)) == ReportIds(done) + if task.TruncateTo? then [] else [task.id]
  {
    var reports := ResponseTo(task);
    assert ReportIds(reports) == if task.TruncateTo? then [] else [task.id];
    assert ReportIds(done + reports) == ReportIds(done) + ReportIds(reports);
  }

  /** A report that has been read is never read again. */
  lemma ReportReadOnce(n: Node)
    requires n.done != [] && IdsInOrder(n)
    ensures var n' := HandlePersisted(n).0;
            IdsInOrder(n') && PendingIds(n') == PendingIds(n)[1..] && n.done[0].id !in PendingIds(n')
  {
    var n' := HandlePersisted(n).0;
    ReportTaken(n);
    hide HandlePersisted, VotesOf, RowsOf;
    assert ReportIds(n.done[1..]) == ReportIds(n.done)[1..];
    assert PendingIds(n') == PendingIds(n)[1..];
    assert PendingIds(n)[0] == n.done[0].id;
  }

  lemma ReportTaken(n: Node)
    requires n.done != []
    ensures var n' := HandlePersisted(n).0;
            && n'.done == n.done[1..] && n'.work == n.work && n'.disk == n.disk && n'.votes == n.votes
            && n'.nextId == n.nextId && n'.outstanding.Keys <= n.outstanding.Keys
  {
  }

  /** Every handler that hands out ids or queues tasks keeps the order. */
  lemma QueuedInOrder(n: Node, n': Node, task: Task)
    requires IdsInOrder(n) && n'.done == n.done && n'.work == n.work + [task] && n'.nextId >= n.nextId
    requires !task.TruncateTo? ==> n.nextId <= task.id < n'.nextId
    requires n'.disk == n.disk
    requires n'.votes == if task.AppendVote? then n.votes[task.row.term := task.row.candidate] else n.votes
    requires forall id | id in n'.outstanding :: id < n'.nextId
    ensures IdsInOrder(n')
  {
    QueueTask(n.work, task);
    assert PendingIds(n') == PendingIds(n) + if task.TruncateTo? then [] else [task.id];
    if task.AppendVote? {
      VoteQueued(n.disk.votes, RowsOf(n.work), task.row);
    } else {
      assert RowsOf(n'.work) == RowsOf(n.work);
    }
  }

  lemma VoteQueued(rows: seq<VoteRow>, queued: seq<VoteRow>, row: VoteRow)
    ensures VotesOf(rows + (queued + [row])) == VotesOf(rows + queued)[row.term := row.candidate]
  {
    assert (rows + (queued + [row]))[..|rows + queued|] == rows + queued;
  }

  /** The tasks, ids and votes of n' are those of n, or one more task under a new id. */
  predicate QueuesAtMostOne(n: Node, n': Node) {
    && n'.done == n.done && n'.disk == n.disk && n'.nextId >= n.nextId
    && (forall id | id in n'.outstanding :: id in n.outstanding || n.nextId <= id < n'.nextId)
    && if n'.work == n.work then n'.votes == n.votes
       else
         && |n'.work| == |n.work| + 1 && n'.work == n.work + [n'.work[|n.work|]]
         && var task := n'.work[|n.work|];
            && !task.TruncateTo? && n.nextId <= task.id < n'.nextId
            && n'.votes == if task.AppendVote? then n.votes[task.row.term := task.row.candidate] else n.votes
  }

  lemma OneMoreInOrder(n: Node, n': Node)
    requires IdsInOrder(n) && QueuesAtMostOne(n, n')
    ensures IdsInOrder(n')
  {
    if n'.work == n.work {
      assert PendingIds(n') == PendingIds(n);
    } else {
      QueuedInOrder(n, n', n'.work[|n.work|]);
    }
  }

  lemma AppendQueues(n: Node, m: Message)
    requires m.AppendEntries?
    ensures QueuesAtMostOne(n, OnAppend(n, m).0)
  {
    hide FollowerAppend, QueuesAtMostOne;
    if n.role.Follower? {
      FollowerQueues(n, m);
    } else {
      StepDownQueues(n, OnAppend(n, m).0);
    }
  }

  lemma StepDownQueues(n: Node, n': Node)
    requires n'.done == n.done && n'.disk == n.disk && n'.nextId >= n.nextId && n'.work == n.work && n'.votes == n.votes
    requires n'.outstanding == n.outstanding
    ensures QueuesAtMostOne(n, n')
  {
  }

  lemma FollowerQueues(n: Node, m: Message)
    requires m.AppendEntries?
    ensures QueuesAtMostOne(n, FollowerAppend(n, m).0)
  {
  }

  lemma AppendInOrder(n: Node, m: Message)
    requires IdsInOrder(n) && m.AppendEntries?
    ensures IdsInOrder(OnAppend(n, m).0)
  {
    hide IdsInOrder, OnAppend, QueuesAtMostOne;
    AppendQueues(n, m);
    OneMoreInOrder(n, OnAppend(n, m).0);
  }

  lemma VoteRequestQueues(n: Node, b: Ballot, lastIndex: nat)
    ensures QueuesAtMostOne(n, OnVoteRequest(n, b, lastIndex).0)
  {
  }

  lemma VoteRequestInOrder(n: Node, b: Ballot, lastIndex: nat)
    requires IdsInOrder(n)
    ensures IdsInOrder(OnVoteRequest(n, b, lastIndex).0)
  {
    hide IdsInOrder, OnVoteRequest, QueuesAtMostOne;
    VoteRequestQueues(n, b, lastIndex);
    OneMoreInOrder(n, OnVoteRequest(n, b, lastIndex).0);
  }

  lemma LeadingInOrder(n: Node, timestamp: nat, commands: seq<Command>)
    requires IdsInOrder(n)
    ensures IdsInOrder(InitializeLeadership(n, timestamp)) && IdsInOrder(WriteBatch(n, timestamp, commands))
  {
    var led := InitializeLeadership(n, timestamp);
    QueuedInOrder(n, led, led.work[|n.work|]);
    var wrote := WriteBatch(n, timestamp, commands);
    if commands != [] {
      QueuedInOrder(n, wrote, wrote.work[|n.work|]);
    }
  }

  lemma ElectionInOrder(n: Node)
    requires IdsInOrder(n)
    ensures IdsInOrder(StartElection(n))
  {
    QueuedInOrder(n, StartElection(n), AppendVote(n.nextId, VoteRow(n.nextTerm, n.id)));
  }

  lemma TruncateInOrder(n: Node, prevTerm: nat, prevIndex: nat)
    requires IdsInOrder(n)
    ensures IdsInOrder(OnTruncate(n, prevTerm, prevIndex))
  {
    var n' := OnTruncate(n, prevTerm, prevIndex);
    if n'.work != n.work {
      QueuedInOrder(n, n', TruncateTo(prevIndex + 1));
    }
  }

  // ---------------------------------------------------------------- every step of every run

  ghost predicate AllInOrder(c: Cluster) {
    c.tallies.Keys == c.nodes.Keys && forall v | v in c.nodes :: IdsInOrder(c.nodes[v])
  }

  predicate IsVoting(s: Step) {
    s.DeliverVoteRequest? || s.DeliverVoteReply? || s.LoseBallot?
  }

  /** One node has moved. */
  lemma MovedInOrder(c: Cluster, c': Cluster, v: NodeId, n': Node)
    requires AllInOrder(c) && IdsInOrder(n') && v in c.nodes
    requires c'.nodes == c.nodes[v := n'] && c'.tallies.Keys == c.tallies.Keys
    ensures AllInOrder(c')
  {
    hide IdsInOrder;
  }

  lemma NodeInOrder(c: Cluster, v: NodeId)
    requires AllInOrder(c) && v in c.nodes
    ensures IdsInOrder(c.nodes[v]) && c.tallies.Keys == c.nodes.Keys
  {
  }

  lemma VotingInOrder(c: Cluster, s: Step)
    requires AllInOrder(c) && c.tallies.Keys == c.nodes.Keys && Enabled(c, s) && IsVoting(s)
    ensures AllInOrder(Apply(c, s))
  {
    hide IdsInOrder, OnVoteRequest, AfterVoteReply, WithReply, AllInOrder;
    match s
    case DeliverVoteRequest(b) =>
      NodeInOrder(c, b.voter);
      VoteRequestInOrder(c.nodes[b.voter], b, c.ballots[b].lastIndex);
      MovedInOrder(c, Apply(c, s), b.voter, OnVoteRequest(c.nodes[b.voter], b, c.ballots[b].lastIndex).0);
    case DeliverVoteReply(b) =>
      VoteReplyInOrder(c, b);
    case LoseBallot(b) =>
      LostInOrder(c, b);
  }

  lemma ReadInOrder(c: Cluster, v: NodeId)
    requires AllInOrder(c) && c.tallies.Keys == c.nodes.Keys && Enabled(c, ReadPersisted(v))
    ensures AllInOrder(Apply(c, ReadPersisted(v)))
  {
    hide IdsInOrder, HandlePersisted, WithReply, AllInOrder;
    NodeInOrder(c, v);
    ReportReadOnce(c.nodes[v]);
    MovedInOrder(c, Apply(c, ReadPersisted(v)), v, HandlePersisted(c.nodes[v]).0);
  }

  lemma VoteReplyInOrder(c: Cluster, b: Ballot)
    requires AllInOrder(c) && b in c.ballots && c.ballots[b].Answered? && b.candidate in c.nodes
    requires b.candidate in c.tallies
    ensures AllInOrder(AfterVoteReply(c, b))
  {
    hide IdsInOrder, OnVoteReply, WithReply, AllInOrder;
    var n := c.nodes[b.candidate];
    NodeInOrder(c, b.candidate);
    RepliesInOrder(n, b.id, b.term, c.ballots[b].granted);
    MovedInOrder(c, AfterVoteReply(c, b), b.candidate, OnVoteReply(n, b.id, b.term, c.ballots[b].granted).0);
  }

  lemma LostInOrder(c: Cluster, b: Ballot)
    requires AllInOrder(c)
    ensures AllInOrder(c.(ballots := c.ballots - {b}))
  {
  }

  lemma StartsInOrder(c: Cluster, s: Step)
    requires AllInOrder(c) && Enabled(c, s) && (s.BeginElection? || s.CrashAndRestart?)
    ensures AllInOrder(Apply(c, s))
  {
    hide IdsInOrder, StartElection, Restarted;
    if s.BeginElection? {
      ElectionInOrder(c.nodes[s.v]);
    } else {
      RestartInOrder(c.nodes[s.v]);
    }
  }

  lemma DeliveryInOrder(c: Cluster, s: Step)
    requires AllInOrder(c) && c.tallies.Keys == c.nodes.Keys && Enabled(c, s)
    requires s.DeliverAppend? || s.DeliverTruncate?
    ensures AllInOrder(Apply(c, s))
  {
    hide IdsInOrder, OnAppend, OnTruncate, AllInOrder;
    var n := c.nodes[s.v];
    NodeInOrder(c, s.v);
    match s {
      case DeliverAppend(_, _, m, commit) => AppendInOrder(n, m.(commit := commit));
      case DeliverTruncate(_, _, m) => TruncateInOrder(n, m.prevTerm, m.prevIndex);
    }
    MovedInOrder(c, Apply(c, s), s.v, Apply(c, s).nodes[s.v]);
  }

  lemma ExchangeInOrder(c: Cluster, s: Step)
    requires AllInOrder(c) && c.tallies.Keys == c.nodes.Keys && Enabled(c, s)
    requires s.Heartbeat? || s.AckFromPeer? || s.BackfillRequest?
    ensures AllInOrder(Apply(c, s))
  {
    hide IdsInOrder, OnAck, OnBackfillRequest, AllInOrder;
    var n := c.nodes[s.v];
    NodeInOrder(c, s.v);
    match s {
      case Heartbeat(v, _, _) => OthersInOrder(n, Apply(c, s).nodes[v]);
      case AckFromPeer(_, id) => AckInOrder(n, id);
      case BackfillRequest(_, lastTerm, lastIndex) => BackfillInOrder(n, lastTerm, lastIndex);
    }
    MovedInOrder(c, Apply(c, s), s.v, Apply(c, s).nodes[s.v]);
  }

  lemma LocalInOrder(c: Cluster, s: Step)
    requires AllInOrder(c) && c.tallies.Keys == c.nodes.Keys && Enabled(c, s)
    requires s.ElectionTimeout? || s.Persist?
    ensures AllInOrder(Apply(c, s))
  {
    hide IdsInOrder, PersistOne, AllInOrder;
    var n := c.nodes[s.v];
    NodeInOrder(c, s.v);
    match s {
      case ElectionTimeout(_) => OthersInOrder(n, n.(role := Candidate));
      case Persist(_) => PersistInOrder(n);
    }
    MovedInOrder(c, Apply(c, s), s.v, Apply(c, s).nodes[s.v]);
  }

  lemma LeaderInOrder(c: Cluster, s: Step)
    requires AllInOrder(c) && c.tallies.Keys == c.nodes.Keys && Enabled(c, s)
    requires s.BeginLeading? || s.ClientWrite?
    ensures AllInOrder(Apply(c, s))
  {
    hide IdsInOrder, InitializeLeadership, WriteBatch, AllInOrder;
    var n := c.nodes[s.v];
    NodeInOrder(c, s.v);
    match s {
      case BeginLeading(_, timestamp) => LeadingInOrder(n, timestamp, []);
      case ClientWrite(_, timestamp, commands) => LeadingInOrder(n, timestamp, commands);
    }
    MovedInOrder(c, Apply(c, s), s.v, Apply(c, s).nodes[s.v]);
  }

  lemma StepInOrder(c: Cluster, s: Step)
    requires AllInOrder(c) && Enabled(c, s)
    ensures AllInOrder(Apply(c, s))
  {
    hide Enabled, Apply, IdsInOrder;
    if IsVoting(s) {
      VotingInOrder(c, s);
    } else if s.ReadPersisted? {
      ReadInOrder(c, s.v);
    } else if s.BeginElection? || s.CrashAndRestart? {
      StartsInOrder(c, s);
    } else if s.DeliverAppend? || s.DeliverTruncate? {
      DeliveryInOrder(c, s);
    } else if s.Heartbeat? || s.AckFromPeer? || s.BackfillRequest? {
      ExchangeInOrder(c, s);
    } else if s.BeginLeading? || s.ClientWrite? {
      LeaderInOrder(c, s);
    } else {
      LocalInOrder(c, s);
    }
  }

  lemma OthersInOrder(n: Node, n': Node)
    requires IdsInOrder(n) && n'.done == n.done && n'.work == n.work && n'.nextId >= n.nextId
    requires n'.outstanding.Keys <= n.outstanding.Keys && n'.disk == n.disk && n'.votes == n.votes
    ensures IdsInOrder(n')
  {
  }

  lemma PersistInOrder(n: Node)
    requires IdsInOrder(n) && n.work != []
    ensures IdsInOrder(PersistOne(n))
  {
    PersistKeepsIds(n);
  }

  lemma RepliesInOrder(n: Node, id: nat, term: nat, granted: bool)
    requires IdsInOrder(n)
    ensures IdsInOrder(OnVoteReply(n, id, term, granted).0)
  {
    OthersInOrder(n, OnVoteReply(n, id, term, granted).0);
  }

  lemma AckInOrder(n: Node, id: nat)
    requires IdsInOrder(n)
    ensures IdsInOrder(OnAck(n, id))
  {
    OthersInOrder(n, OnAck(n, id));
  }

  lemma BackfillInOrder(n: Node, lastTerm: nat, lastIndex: nat)
    requires IdsInOrder(n)
    ensures IdsInOrder(OnBackfillRequest(n, lastTerm, lastIndex))
  {
    OthersInOrder(n, OnBackfillRequest(n, lastTerm, lastIndex));
  }

  lemma RestartInOrder(n: Node)
    ensures IdsInOrder(Restarted(n))
  {
    assert n.disk.votes + [] == n.disk.votes;
  }

  /** Any run the code can take, of a cluster of any size, with no premise on its steps. */
  ghost predicate AnyRun(members: set<NodeId>, states: seq<Cluster>, steps: seq<Step>) {
    && |states| == |steps| + 1 && states[0] == Init(members)
    && forall i | 0 <= i < |steps| :: Moves(states[i], steps[i], states[i + 1])
  }

  ghost predicate Moves(c: Cluster, s: Step, c': Cluster) {
    c.tallies.Keys == c.nodes.Keys && Enabled(c, s) && c' == Apply(c, s)
  }

  /** In every state of every run, each node's awaited reports carry distinct ids in
      increasing order, and all ids in use are below the next one to be handed out. */
  lemma {:induction false} IdsOverRuns(members: set<NodeId>, states: seq<Cluster>, steps: seq<Step>, i: nat)
    requires AnyRun(members, states, steps) && i < |states|
    ensures AllInOrder(states[i])
  {
    hide AllInOrder, Enabled, Apply, Init;
    if i == 0 {
      InitInOrder(members);
    } else {
      IdsOverRuns(members, states, steps, i - 1);
      assert Moves(states[i - 1], steps[i - 1], states[i]);
      StepInOrder(states[i - 1], steps[i - 1]);
    }
  }

  lemma InitInOrder(members: set<NodeId>)
    ensures AllInOrder(Init(members))
  {
  }
}
