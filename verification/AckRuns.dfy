/** What an Ok to an append request means: over whole runs, the node that gives it has written
    an entry of that request's id to its log file. */
module AckRuns {
  import opened Logs
  import opened Nodes
  import opened Repair
  import opened Cluster
  import opened NodeInvariant
  import opened ClusterInvariant
  import opened ClusterSteps
  import opened ClusterSafety
  import opened NodeMoves

  // ---------------------------------------------------------------- one step

  /** A report waits to be read that will answer request r. */
  predicate Owes(n: Node, id: nat, r: nat) {
    LogPersisted(id) in n.done && id in n.outstanding && n.outstanding[id] == AppendLog(r)
  }

  /** The step in which node u writes entry e, which it waits for under the id, to its file. */
  predicate WritesEntry(c: Cluster, s: Step, u: NodeId, id: nat, e: Entry) {
    s == Persist(u) && u in c.nodes && c.nodes[u].work != [] && c.nodes[u].work[0] == AppendEntry(id, e)
  }

  /** No report is new, and no older record is the record of an append request if it was not. */
  predicate OwesNoMore(n: Node, n': Node) {
    && (forall r | r in n'.done :: r in n.done)
    && (forall id | id in n'.outstanding && n'.outstanding[id].AppendLog? && id < n.nextId ::
          id in n.outstanding && n.outstanding[id] == n'.outstanding[id])
  }

  lemma VotingOwes(n: Node, b: Ballot, lastIndex: nat)
    ensures OwesNoMore(n, OnVoteRequest(n, b, lastIndex).0) && OwesNoMore(n, StartElection(n))
  {
  }

  lemma AnswerOwes(n: Node, b: Ballot, granted: bool)
    ensures OwesNoMore(n, OnVoteReply(n, b.id, b.term, granted).0)
  {
  }

  lemma AppendOwes(n: Node, m: Message)
    requires m.AppendEntries?
    ensures OwesNoMore(n, OnAppend(n, m).0)
  {
  }

  lemma LeaderOwes(n: Node, timestamp: nat, commands: seq<Command>, id: nat, lastTerm: nat, lastIndex: nat)
    ensures OwesNoMore(n, InitializeLeadership(n, timestamp)) && OwesNoMore(n, WriteBatch(n, timestamp, commands))
    ensures OwesNoMore(n, OnAck(n, id)) && OwesNoMore(n, OnBackfillRequest(n, lastTerm, lastIndex))
  {
  }

  lemma OtherOwes(n: Node, prevTerm: nat, prevIndex: nat)
    ensures OwesNoMore(n, OnTruncate(n, prevTerm, prevIndex)) && OwesNoMore(n, Restarted(n))
  {
  }

  lemma ReportOwes(n: Node)
    requires n.done != []
    ensures OwesNoMore(n, HandlePersisted(n).0)
  {
  }

  lemma VoteStepOwes(c: Cluster, s: Step, u: NodeId)
    requires Enabled(c, s) && u in c.nodes && Votes(s)
    ensures OwesNoMore(c.nodes[u], NodeAfter(c, s, u))
  {
    var n := c.nodes[u];
    hide OnVoteReply, OnVoteRequest, StartElection;
    match s
    case DeliverVoteRequest(b) => VotingOwes(n, b, c.ballots[b].lastIndex);
    case DeliverVoteReply(b) => AnswerOwes(n, b, c.ballots[b].granted);
    case BeginElection(_) => VotingOwes(n, Ballot(0, 0, 0, 0, 0), 0);
    case LoseBallot(_) =>
  }

  lemma LocalStepOwes(c: Cluster, s: Step, u: NodeId)
    requires Enabled(c, s) && u in c.nodes && Local(s) && s != Persist(u)
    ensures OwesNoMore(c.nodes[u], NodeAfter(c, s, u))
  {
    var n := c.nodes[u];
    hide HandlePersisted, PersistOne, InitializeLeadership, WriteBatch, Restarted;
    match s
    case ReadPersisted(v) =>
      if v == u {
        ReportOwes(n);
      }
    case CrashAndRestart(_) => OtherOwes(n, 0, 0);
    case BeginLeading(_, timestamp) => LeaderOwes(n, timestamp, [], 0, 0, 0);
    case ClientWrite(_, timestamp, commands) => LeaderOwes(n, timestamp, commands, 0, 0, 0);
    case _ =>
  }

  lemma PeerStepOwes(c: Cluster, s: Step, u: NodeId)
    requires Enabled(c, s) && u in c.nodes && !Votes(s) && !Local(s)
    ensures OwesNoMore(c.nodes[u], NodeAfter(c, s, u))
  {
    var n := c.nodes[u];
    hide OnAppend, OnTruncate, OnAck, OnBackfillRequest;
    match s
    case DeliverAppend(_, _, m, commit) => AppendOwes(n, m.(commit := commit));
    case DeliverTruncate(_, _, m) => OtherOwes(n, m.prevTerm, m.prevIndex);
    case AckFromPeer(_, id) => LeaderOwes(n, 0, [], id, 0, 0);
    case BackfillRequest(_, lastTerm, lastIndex) => LeaderOwes(n, 0, [], 0, lastTerm, lastIndex);
    case _ =>
  }

  lemma StepOwes(c: Cluster, s: Step, u: NodeId)
    requires Enabled(c, s) && u in c.nodes && s != Persist(u)
    ensures OwesNoMore(c.nodes[u], NodeAfter(c, s, u))
  {
    hide Enabled, NodeAfter;
    if Votes(s) {
      VoteStepOwes(c, s, u);
    } else if Local(s) {
      LocalStepOwes(c, s, u);
    } else {
      PeerStepOwes(c, s, u);
    }
  }

  /** An answer comes to be owed only when the entry of the request reaches the file. */
  lemma NewDebt(c: Cluster, s: Step, u: NodeId, tally: map<nat, Tally>, id: nat, r: nat)
    requires Enabled(c, s) && u in c.nodes && QueuesOk(c.nodes[u], tally) && Owes(NodeAfter(c, s, u), id, r)
    ensures Owes(c.nodes[u], id, r) || exists e :: WritesEntry(c, s, u, id, e) && e.messageId == r
  {
    var n := c.nodes[u];
    if s == Persist(u) {
      if LogPersisted(id) !in n.done {
        assert TaskOk(n, tally, n.work[0]);
        assert WritesEntry(c, s, u, id, n.work[0].entry);
      }
    } else {
      StepOwes(c, s, u);
      hide NodeAfter;
      var k :| 0 <= k < |n.done| && n.done[k] == LogPersisted(id);
      assert ResponseOk(n, tally, n.done[k]);
    }
  }

  // ---------------------------------------------------------------- whole runs

  ghost predicate WrittenAt(states: seq<Cluster>, steps: seq<Step>, j: nat, u: NodeId, id: nat, r: nat, e: Entry)
    requires j < |steps| < |states|
  {
    WritesEntry(states[j], steps[j], u, id, e) && e.messageId == r
  }

  ghost predicate Written(states: seq<Cluster>, steps: seq<Step>, i: nat, u: NodeId, id: nat, r: nat)
    requires i <= |steps| < |states|
  {
    exists j: nat, e | j < i :: WrittenAt(states, steps, j, u, id, r, e)
  }

  lemma {:induction false} DebtsWritten(
    members: set<NodeId>, states: seq<Cluster>, steps: seq<Step>, i: nat, u: NodeId, id: nat, r: nat)
    requires IsRun(members, states, steps) && |members| % 2 == 1 && i < |states|
    requires u in states[i].nodes && Owes(states[i].nodes[u], id, r)
    ensures Written(states, steps, i, u, id, r)
  {
    hide Init, Enabled, Disciplined, Apply, Inv, NodeAfter, Owes, WritesEntry;
    if i == 0 {
      NothingOwed(members, u, id, r);
    } else {
      var k := i - 1;
      var c := states[k];
      assert Follows(c, steps[k], states[k + 1]);
      RunInv(members, states, steps, k);
      SameMembers(c, steps[k]);
      AfterStep(c, steps[k], u);
      NodeQueues(c, members, u);
      NewDebt(c, steps[k], u, c.tallies[u], id, r);
      if Owes(c.nodes[u], id, r) {
        DebtsWritten(members, states, steps, k, u, id, r);
        var j: nat, e :| j < k && WrittenAt(states, steps, j, u, id, r, e);
      } else {
        var e :| WritesEntry(c, steps[k], u, id, e) && e.messageId == r;
        assert WrittenAt(states, steps, k, u, id, r, e);
      }
    }
  }

  lemma NothingOwed(members: set<NodeId>, u: NodeId, id: nat, r: nat)
    requires u in Init(members).nodes
    ensures !Owes(Init(members).nodes[u], id, r)
  {
  }

  lemma NodeQueues(c: Cluster, members: set<NodeId>, u: NodeId)
    requires Inv(c, members) && u in c.nodes
    ensures u in c.tallies && QueuesOk(c.nodes[u], c.tallies[u])
  {
    hide Inv;
    MemberInv(c, members, u);
  }

  /** Nothing that node u persists in the steps from i to j truncates its file. */
  ghost predicate Uncut(states: seq<Cluster>, steps: seq<Step>, i: nat, j: nat, u: NodeId)
    requires i <= j <= |steps| < |states|
  {
    forall k | i <= k < j && steps[k] == Persist(u) ::
      u in states[k].nodes && states[k].nodes[u].work != [] && !states[k].nodes[u].work[0].TruncateTo?
  }

  lemma FileGrows(c: Cluster, s: Step, u: NodeId)
    requires Enabled(c, s) && u in c.nodes
    requires s == Persist(u) ==> !c.nodes[u].work[0].TruncateTo?
    ensures c.nodes[u].disk.log <= NodeAfter(c, s, u).disk.log
  {
    hide OnVoteReply, HandlePersisted, OnVoteRequest, OnAppend, StartElection, OnTruncate, OnAck, OnBackfillRequest,
      InitializeLeadership, WriteBatch, Restarted;
    if s != Persist(u) {
      SameFile(c, s, u);
    }
  }

  lemma SameFile(c: Cluster, s: Step, u: NodeId)
    requires Enabled(c, s) && u in c.nodes && s != Persist(u)
    ensures NodeAfter(c, s, u).disk == c.nodes[u].disk
  {
    if s.DeliverAppend? {
      AppendKeepsFile(c.nodes[u], s.m.(commit := s.commit));
    } else if s.DeliverVoteReply? {
      AnswerKeepsFile(c.nodes[u], s.b, c.ballots[s.b].granted);
    }
    hide OnAppend, OnVoteReply;
  }

  lemma AppendKeepsFile(n: Node, m: Message)
    requires m.AppendEntries?
    ensures OnAppend(n, m).0.disk == n.disk
  {
  }

  lemma AnswerKeepsFile(n: Node, b: Ballot, granted: bool)
    ensures OnVoteReply(n, b.id, b.term, granted).0.disk == n.disk
  {
  }

  lemma {:induction false} FileKept(
    members: set<NodeId>, states: seq<Cluster>, steps: seq<Step>, i: nat, j: nat, u: NodeId)
    requires IsRun(members, states, steps) && i <= j < |states| && u in states[i].nodes && Uncut(states, steps, i, j, u)
    ensures u in states[j].nodes && states[i].nodes[u].disk.log <= states[j].nodes[u].disk.log
    decreases j
  {
    hide Init, Enabled, Disciplined, Apply, NodeAfter;
    if i < j {
      var k := j - 1;
      FileKept(members, states, steps, i, k, u);
      assert Follows(states[k], steps[k], states[k + 1]);
      AfterStep(states[k], steps[k], u);
      FileGrows(states[k], steps[k], u);
    }
  }

  /** Whenever a node answers an append request with Ok after a report, it has written, in an
      earlier step j, the entry of that request to the end of its log file. The entry is still
      there, at its own index, unless a truncation has reached the file since. */
  lemma AckMeansStored(members: set<NodeId>, states: seq<Cluster>, steps: seq<Step>, k: nat, u: NodeId)
    returns (j: nat, e: Entry)
    requires IsRun(members, states, steps) && |members| % 2 == 1 && k < |steps| && steps[k] == ReadPersisted(u)
    requires u in states[k].nodes && states[k].nodes[u].done != [] && AnsweredAppend(states[k].nodes[u]).Some?
    ensures j < k && steps[j] == Persist(u) && u in states[j].nodes && u in states[j + 1].nodes
    ensures e.messageId == AnsweredAppend(states[k].nodes[u]).value && e.index == |states[j].nodes[u].disk.log|
    ensures states[j + 1].nodes[u].disk.log == states[j].nodes[u].disk.log + [e]
    ensures Uncut(states, steps, j + 1, k, u) ==>
              var file := states[k].nodes[u].disk.log;
              e.index < |file| && file[e.index] == e
  {
    hide Init, Enabled, Disciplined, Apply, Inv, NodeAfter;
    var n := states[k].nodes[u];
    var id := n.done[0].id;
    var r := AnsweredAppend(n).value;
    assert Owes(n, id, r);
    DebtsWritten(members, states, steps, k, u, id, r);
    j, e :| j < k && WrittenAt(states, steps, j, u, id, r, e);
    var c := states[j];
    assert Follows(c, steps[j], states[j + 1]);
    AfterStep(c, steps[j], u);
    EntryWritten(c, steps[j], u, id, e);
    RunInv(members, states, steps, j + 1);
    FileIndex(states[j + 1], members, u);
    assert states[j + 1].nodes[u].disk.log[|c.nodes[u].disk.log|] == e;
    if Uncut(states, steps, j + 1, k, u) {
      FileKept(members, states, steps, j + 1, k, u);
    }
  }

  lemma EntryWritten(c: Cluster, s: Step, u: NodeId, id: nat, e: Entry)
    requires Enabled(c, s) && u in c.nodes && WritesEntry(c, s, u, id, e)
    ensures NodeAfter(c, s, u).disk.log == c.nodes[u].disk.log + [e]
  {
  }

  lemma FileIndex(c: Cluster, members: set<NodeId>, u: NodeId)
    requires Inv(c, members) && u in c.nodes
    ensures var file := c.nodes[u].disk.log;
            forall i | 0 <= i < |file| :: file[i].index == i
  {
    hide Inv;
    MemberInv(c, members, u);
    var file := c.nodes[u].disk.log;
    forall i | 0 <= i < |file| ensures file[i].index == i {
      assert EntryAt(file, i);
    }
  }
}
