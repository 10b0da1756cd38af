/** The vote rule over whole runs: every vote that has won an election was recorded by a node
    whose log did not reach further than the candidate's at the start of the election. */
module VoteRuns {
  import opened Logs
  import opened Nodes
  import opened RequestLaws
  import opened Repair
  import opened Cluster
  import opened NodeInvariant
  import opened ClusterInvariant
  import opened ClusterSteps
  import opened ClusterSafety
  import opened MessageIds
  import opened NodeMoves

  /** The votes on a node's disk and on their way there. */
  function AllRows(n: Node): seq<VoteRow> {
    n.disk.votes + RowsOf(n.work)
  }

  /** The step in which a candidate asks all others for their votes and announces the end of
      its own log. */
  predicate Announces(c: Cluster, s: Step, v: NodeId, term: nat, lastIndex: nat) {
    s == BeginElection(v) && v in c.nodes && c.nodes[v].nextTerm == term && c.nodes[v].replica.lastIndex == lastIndex
  }

  /** The step in which node u records its vote for v: it has not voted in the term, has not
      reached it, and its log does not go beyond the announced index. */
  predicate Records(c: Cluster, s: Step, u: NodeId, v: NodeId, term: nat, lastIndex: nat) {
    && s.DeliverVoteRequest? && s.b.voter == u && s.b.candidate == v && s.b.term == term
    && s.b in c.ballots && c.ballots[s.b] == Requested(lastIndex)
    && u in c.nodes && !c.nodes[u].role.Follower?
    && term !in c.nodes[u].votes && term > c.nodes[u].currentTerm && c.nodes[u].replica.lastIndex <= lastIndex
  }

  // ---------------------------------------------------------------- one step

  /** Only the start of an election creates requests. */
  lemma NewRequest(c: Cluster, s: Step, b: Ballot)
    requires c.tallies.Keys == c.nodes.Keys && Enabled(c, s)
    requires var ballots := Apply(c, s).ballots;
             b in ballots && ballots[b].Requested?
    ensures var lastIndex := Apply(c, s).ballots[b].lastIndex;
            (b in c.ballots && c.ballots[b] == Requested(lastIndex)) || Announces(c, s, b.candidate, b.term, lastIndex)
  {
    if s.BeginElection? {
      hide StartElection;
    } else {
      OldRequest(c, s, b);
      hide Apply, Enabled;
    }
  }

  lemma OldRequest(c: Cluster, s: Step, b: Ballot)
    requires c.tallies.Keys == c.nodes.Keys && Enabled(c, s) && !s.BeginElection?
    requires b in Apply(c, s).ballots && Apply(c, s).ballots[b].Requested?
    ensures b in c.ballots && c.ballots[b] == Apply(c, s).ballots[b]
  {
    if Votes(s) {
      hide OnVoteReply, OnVoteRequest;
    } else {
      OldRequestKept(c, s, b);
      hide Apply, Enabled;
    }
  }

  lemma OldRequestKept(c: Cluster, s: Step, b: Ballot)
    requires c.tallies.Keys == c.nodes.Keys && Enabled(c, s) && !Votes(s)
    requires b in Apply(c, s).ballots && Apply(c, s).ballots[b].Requested?
    ensures b in c.ballots && c.ballots[b] == Apply(c, s).ballots[b]
  {
    hide HandlePersisted, OnAppend, OnTruncate, PersistOne, OnAck, OnBackfillRequest, InitializeLeadership, WriteBatch,
      Restarted;
  }

  lemma TaskRows(n: Node, n': Node, task: Task)
    requires n'.disk == n.disk && n'.work == n.work + [task]
    ensures AllRows(n') == AllRows(n) + if task.AppendVote? then [task.row] else []
  {
    QueueTask(n.work, task);
    hide RowsOf;
  }

  /** A vote request adds the row of a vote that the rule allows, or none. */
  lemma VoteRows(n: Node, b: Ballot, lastIndex: nat)
    ensures var n', row := OnVoteRequest(n, b, lastIndex).0, VoteRow(b.term, b.candidate);
            || AllRows(n') == AllRows(n)
            || (&& AllRows(n') == AllRows(n) + [row] && !n.role.Follower?
                && b.term !in n.votes && b.term > n.currentTerm && n.replica.lastIndex <= lastIndex)
  {
    VoteRefusedIff(n, b, lastIndex);
    if b.term !in n.votes && b.term > n.currentTerm && lastIndex >= n.replica.lastIndex {
      VoteRegistered(n, b, lastIndex);
      if !n.role.Follower? {
        TaskRows(n, OnVoteRequest(n, b, lastIndex).0, AppendVote(n.nextId, VoteRow(b.term, b.candidate)));
      }
    }
  }

  /** Everything else that a peer sends adds none. */
  lemma MessageRows(n: Node, m: Message, prevTerm: nat, prevIndex: nat)
    requires m.AppendEntries? && CursorOk(n.replica)
    ensures AllRows(OnAppend(n, m).0) == AllRows(n) && AllRows(OnTruncate(n, prevTerm, prevIndex)) == AllRows(n)
  {
    AppendStores(n, m);
    AppendFollows(n, m);
    if Stores(n, m) {
      TaskRows(n, OnAppend(n, m).0, AppendEntry(n.nextId, m.entry.value));
    }
    var cut := OnTruncate(n, prevTerm, prevIndex);
    if cut.work != n.work {
      TaskRows(n, cut, TruncateTo(prevIndex + 1));
    }
  }

  lemma LeaderRows(n: Node, timestamp: nat, commands: seq<Command>)
    ensures AllRows(InitializeLeadership(n, timestamp)) == AllRows(n)
    ensures AllRows(WriteBatch(n, timestamp, commands)) == AllRows(n)
  {
    var led, wrote := InitializeLeadership(n, timestamp), WriteBatch(n, timestamp, commands);
    TaskRows(n, led, led.work[|n.work|]);
    if commands != [] {
      TaskRows(n, wrote, wrote.work[|n.work|]);
    }
  }

  /** A node's own election adds its own vote only. */
  lemma OwnRows(n: Node)
    ensures AllRows(StartElection(n)) == AllRows(n) + [VoteRow(n.nextTerm, n.id)]
  {
    TaskRows(n, StartElection(n), AppendVote(n.nextId, VoteRow(n.nextTerm, n.id)));
  }

  /** Reading a report, counting an answer and the like leave disk and queue alone. */
  lemma QuietRows(n: Node, id: nat, term: nat, granted: bool, lastTerm: nat, lastIndex: nat)
    ensures AllRows(OnVoteReply(n, id, term, granted).0) == AllRows(n) && AllRows(OnAck(n, id)) == AllRows(n)
    ensures AllRows(OnBackfillRequest(n, lastTerm, lastIndex)) == AllRows(n)
    ensures n.done != [] ==> AllRows(HandlePersisted(n).0) == AllRows(n)
  {
    hide RowsOf;
  }

  lemma RestartRows(n: Node)
    ensures AllRows(Restarted(n)) == n.disk.votes
  {
  }

  predicate Gains(c: Cluster, s: Step, u: NodeId, row: VoteRow) {
    s.DeliverVoteRequest? && s.b in c.ballots && c.ballots[s.b].Requested?
    && Records(c, s, u, row.candidate, row.term, c.ballots[s.b].lastIndex)
  }

  /** The steps that neither record a vote nor touch the votes on disk. */
  predicate NoVotes(s: Step) {
    !s.DeliverVoteRequest? && !s.BeginElection? && !s.Persist? && !s.CrashAndRestart?
  }

  lemma LocalKeepsRows(c: Cluster, s: Step, u: NodeId)
    requires Enabled(c, s) && NoVotes(s) && Local(s) && u in c.nodes
    ensures AllRows(NodeAfter(c, s, u)) == AllRows(c.nodes[u])
  {
    var n := c.nodes[u];
    hide AllRows, HandlePersisted, InitializeLeadership, WriteBatch, Restarted;
    match s
    case ReadPersisted(_) => QuietRows(n, 0, 0, false, 0, 0);
    case BeginLeading(_, timestamp) => LeaderRows(n, timestamp, []);
    case ClientWrite(_, timestamp, commands) => LeaderRows(n, timestamp, commands);
    case ElectionTimeout(_) => SameRows(n, NodeAfter(c, s, u));
  }

  lemma PeersKeepRows(c: Cluster, s: Step, u: NodeId)
    requires Enabled(c, s) && NoVotes(s) && !Local(s) && u in c.nodes && CursorOk(c.nodes[u].replica)
    ensures AllRows(NodeAfter(c, s, u)) == AllRows(c.nodes[u])
  {
    var n := c.nodes[u];
    hide AllRows, OnVoteReply, OnAppend, OnTruncate, OnAck, OnBackfillRequest, CursorOk;
    match s
    case DeliverVoteReply(b) => QuietRows(n, b.id, b.term, c.ballots[b].granted, 0, 0);
    case DeliverAppend(_, _, m, commit) => MessageRows(n, m.(commit := commit), 0, 0);
    case DeliverTruncate(_, _, m) =>
      MessageRows(n, AppendEntries(0, 0, 0, 0, 0, None, 0), m.prevTerm, m.prevIndex);
    case AckFromPeer(_, id) => QuietRows(n, id, 0, false, 0, 0);
    case BackfillRequest(_, lastTerm, lastIndex) => QuietRows(n, 0, 0, false, lastTerm, lastIndex);
    case Heartbeat(_, _, _) => SameRows(n, NodeAfter(c, s, u));
    case LoseBallot(_) =>
  }

  /** A node's vote for another is new only in the step that records it. */
  lemma NewRow(c: Cluster, s: Step, u: NodeId, row: VoteRow)
    requires Enabled(c, s) && u in c.nodes && c.nodes[u].id == u && CursorOk(c.nodes[u].replica)
    requires row in AllRows(NodeAfter(c, s, u)) && row.candidate != u
    ensures row in AllRows(c.nodes[u]) || Gains(c, s, u, row)
  {
    hide AllRows, NodeAfter, Enabled, Gains, CursorOk;
    if !NoVotes(s) {
      NewVoteRow(c, s, u, row);
    } else if Local(s) {
      LocalKeepsRows(c, s, u);
    } else {
      PeersKeepRows(c, s, u);
    }
  }

  lemma NewVoteRow(c: Cluster, s: Step, u: NodeId, row: VoteRow)
    requires Enabled(c, s) && !NoVotes(s) && u in c.nodes && c.nodes[u].id == u
    requires row in AllRows(NodeAfter(c, s, u)) && row.candidate != u
    ensures row in AllRows(c.nodes[u]) || Gains(c, s, u, row)
  {
    var n := c.nodes[u];
    hide AllRows, OnVoteRequest, StartElection;
    match s
    case DeliverVoteRequest(b) => VoteRows(n, b, c.ballots[b].lastIndex);
    case BeginElection(_) => OwnRows(n);
    case _ =>
      hide NodeAfter, Enabled, Gains;
      OldRow(c, s, u, row);
  }

  lemma OldRow(c: Cluster, s: Step, u: NodeId, row: VoteRow)
    requires Enabled(c, s) && u in c.nodes && (s.Persist? || s.CrashAndRestart?)
    requires row in AllRows(NodeAfter(c, s, u))
    ensures row in AllRows(c.nodes[u])
  {
    var n := c.nodes[u];
    hide AllRows, PersistOne, Restarted;
    match s
    case Persist(v) =>
      if v == u {
        PersistRows(n);
      }
    case CrashAndRestart(v) =>
      if v == u {
        RestartRows(n);
        RowsMean(n, row);
      }
  }

  lemma PersistRows(n: Node)
    requires n.work != []
    ensures AllRows(PersistOne(n)) == AllRows(n)
  {
    hide PersistOne, RowsOf;
    RowPersisted(n);
  }

  lemma RowsMean(n: Node, row: VoteRow)
    requires row in n.disk.votes
    ensures row in AllRows(n)
  {
  }

  lemma SameRows(n: Node, n': Node)
    requires n'.disk == n.disk && n'.work == n.work
    ensures AllRows(n') == AllRows(n)
  {
  }

  // ---------------------------------------------------------------- whole runs

  ghost predicate Announced(states: seq<Cluster>, steps: seq<Step>, i: nat, v: NodeId, term: nat, lastIndex: nat)
    requires i <= |steps| < |states|
  {
    exists j | 0 <= j < i :: Announces(states[j], steps[j], v, term, lastIndex)
  }

  ghost predicate RecordedAt(states: seq<Cluster>, steps: seq<Step>, k: nat, u: NodeId, row: VoteRow, lastIndex: nat)
    requires k < |steps| < |states|
  {
    && Records(states[k], steps[k], u, row.candidate, row.term, lastIndex)
    && Announced(states, steps, k, row.candidate, row.term, lastIndex)
  }

  ghost predicate Recorded(states: seq<Cluster>, steps: seq<Step>, i: nat, u: NodeId, row: VoteRow)
    requires i <= |steps| < |states|
  {
    exists k: nat, lastIndex: nat | k < i :: RecordedAt(states, steps, k, u, row, lastIndex)
  }

  /** Every request in flight was announced, and every vote for another node was recorded. */
  ghost predicate Accounted(states: seq<Cluster>, steps: seq<Step>, i: nat)
    requires i <= |steps| < |states|
  {
    && (forall b | b in states[i].ballots && states[i].ballots[b].Requested? ::
          Announced(states, steps, i, b.candidate, b.term, states[i].ballots[b].lastIndex))
    && (forall u, row | u in states[i].nodes && row in AllRows(states[i].nodes[u]) && row.candidate != u ::
          Recorded(states, steps, i, u, row))
  }

  lemma RequestsAnnounced(states: seq<Cluster>, steps: seq<Step>, i: nat, b: Ballot)
    requires i < |steps| < |states| && Accounted(states, steps, i)
    requires states[i].tallies.Keys == states[i].nodes.Keys && Enabled(states[i], steps[i])
    requires states[i + 1] == Apply(states[i], steps[i])
    requires b in states[i + 1].ballots && states[i + 1].ballots[b].Requested?
    ensures Announced(states, steps, i + 1, b.candidate, b.term, states[i + 1].ballots[b].lastIndex)
  {
    hide Enabled, Apply, AllRows, Announces;
    NewRequest(states[i], steps[i], b);
    var lastIndex := states[i + 1].ballots[b].lastIndex;
    if b in states[i].ballots && states[i].ballots[b] == Requested(lastIndex) {
      assert Announced(states, steps, i, b.candidate, b.term, lastIndex);
    }
  }

  lemma VotesRecorded(states: seq<Cluster>, steps: seq<Step>, i: nat, u: NodeId, row: VoteRow)
    requires i < |steps| < |states| && Accounted(states, steps, i)
    requires states[i].tallies.Keys == states[i].nodes.Keys && Enabled(states[i], steps[i])
    requires states[i + 1] == Apply(states[i], steps[i])
    requires u in states[i].nodes && states[i].nodes[u].id == u && CursorOk(states[i].nodes[u].replica)
    requires u in states[i + 1].nodes && row in AllRows(states[i + 1].nodes[u]) && row.candidate != u
    ensures Recorded(states, steps, i + 1, u, row)
  {
    hide Enabled, Apply, AllRows, Announces, NodeAfter;
    var c := states[i];
    AfterStep(c, steps[i], u);
    NewRow(c, steps[i], u, row);
    if row in AllRows(c.nodes[u]) {
      assert Recorded(states, steps, i, u, row);
      var k: nat, lastIndex: nat :| k < i && RecordedAt(states, steps, k, u, row, lastIndex);
    } else {
      var b := steps[i].b;
      assert Announced(states, steps, i, b.candidate, b.term, c.ballots[b].lastIndex);
      assert RecordedAt(states, steps, i, u, row, c.ballots[b].lastIndex);
    }
  }

  lemma InitAccounted(members: set<NodeId>, states: seq<Cluster>, steps: seq<Step>)
    requires |steps| < |states| && states[0] == Init(members)
    ensures Accounted(states, steps, 0)
  {
  }

  lemma {:induction false} RunAccounted(members: set<NodeId>, states: seq<Cluster>, steps: seq<Step>, i: nat)
    requires IsRun(members, states, steps) && |members| % 2 == 1 && i < |states|
    ensures Accounted(states, steps, i)
  {
    hide Init, Enabled, Disciplined, Apply, AllRows, Announced, Recorded, Inv, NodeInv;
    if i == 0 {
      InitAccounted(members, states, steps);
    } else {
      var k := i - 1;
      RunAccounted(members, states, steps, k);
      assert Follows(states[k], steps[k], states[k + 1]);
      RunInv(members, states, steps, k);
      forall b | b in states[i].ballots && states[i].ballots[b].Requested?
        ensures Announced(states, steps, i, b.candidate, b.term, states[i].ballots[b].lastIndex)
      {
        RequestsAnnounced(states, steps, k, b);
      }
      forall u, row | u in states[i].nodes && row in AllRows(states[i].nodes[u]) && row.candidate != u
        ensures Recorded(states, steps, i, u, row)
      {
        SameMembers(states[k], steps[k]);
        NodeCursor(states[k], members, u);
        VotesRecorded(states, steps, k, u, row);
      }
    }
  }

  lemma NodeCursor(c: Cluster, members: set<NodeId>, u: NodeId)
    requires Inv(c, members) && u in c.nodes
    ensures c.nodes[u].id == u && CursorOk(c.nodes[u].replica)
  {
    hide Inv;
    MemberInv(c, members, u);
  }

  lemma WinningVote(c: Cluster, members: set<NodeId>, term: nat, v: NodeId, u: NodeId)
    requires Inv(c, members) && (term, v) in c.wins && u in c.wins[(term, v)]
    ensures u in c.nodes && VoteRow(term, v) in AllRows(c.nodes[u])
  {
    hide Members, Elections, Ballots, HistoryOk, Leaders, Outboxes;
    assert WinOk(c.nodes, c.wins, c.leaderLogs, members, (term, v));
    assert Durable(c.nodes, u, term, v);
    RowsMean(c.nodes[u], VoteRow(term, v));
  }

  /** The vote rule (section 5.4.1 of the Raft paper, without its comparison of terms): whoever
      was counted in a won election had recorded its vote in a step k of the run, in a term new
      to it, when its log reached no further than the winner's did at the start j of that
      election. */
  lemma VoteRuleOverRuns(
    members: set<NodeId>, states: seq<Cluster>, steps: seq<Step>, i: nat, term: nat, v: NodeId, u: NodeId)
    returns (j: nat, k: nat)
    requires IsRun(members, states, steps) && |members| % 2 == 1 && i < |states|
    requires (term, v) in states[i].wins && u in states[i].wins[(term, v)] && u != v
    ensures j < k < i && steps[j] == BeginElection(v) && v in states[j].nodes && states[j].nodes[v].nextTerm == term
    ensures steps[k].DeliverVoteRequest?
    ensures steps[k].b.voter == u && steps[k].b.candidate == v && steps[k].b.term == term
    ensures u in states[k].nodes && term !in states[k].nodes[u].votes && term > states[k].nodes[u].currentTerm
    ensures u in states[k + 1].nodes && term in states[k + 1].nodes[u].votes && states[k + 1].nodes[u].votes[term] == v
    ensures LastIndex(states[k].nodes[u].replica.log) <= LastIndex(states[j].nodes[v].replica.log)
  {
    hide Init, Enabled, Disciplined, Apply, AllRows, Inv;
    RunInv(members, states, steps, i);
    WinningVote(states[i], members, term, v, u);
    RunAccounted(members, states, steps, i);
    var row := VoteRow(term, v);
    assert Recorded(states, steps, i, u, row);
    var lastIndex: nat;
    k, lastIndex :| k < i && RecordedAt(states, steps, k, u, row, lastIndex);
    j :| 0 <= j < k && Announces(states[j], steps[j], v, term, lastIndex);
    RunInv(members, states, steps, k);
    RunInv(members, states, steps, j);
    NodeCursor(states[k], members, u);
    NodeCursor(states[j], members, v);
    assert Follows(states[k], steps[k], states[k + 1]);
    VoteKept(states[k], steps[k]);
  }

  lemma VoteKept(c: Cluster, s: Step)
    requires c.tallies.Keys == c.nodes.Keys && Enabled(c, s) && s.DeliverVoteRequest?
    requires var n := c.nodes[s.b.voter];
             && !n.role.Follower? && s.b.term !in n.votes && s.b.term > n.currentTerm
             && n.replica.lastIndex <= c.ballots[s.b].lastIndex
    ensures var c' := Apply(c, s);
            && s.b.voter in c'.nodes && s.b.term in c'.nodes[s.b.voter].votes
            && c'.nodes[s.b.voter].votes[s.b.term] == s.b.candidate
  {
    VoteRegistered(c.nodes[s.b.voter], s.b, c.ballots[s.b].lastIndex);
    AfterStep(c, s, s.b.voter);
    hide OnVoteRequest, Apply;
  }
}
