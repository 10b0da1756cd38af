/** Safety of whole runs: Election Safety and Log Matching over all states and all moments,
    the node log invariant, and the log file as a mirror of memory. */
module ClusterSafety {
  import opened Logs
  import opened Nodes
  import opened Repair
  import opened Cluster
  import opened NodeInvariant
  import opened NodeSteps
  import opened ClusterInvariant
  import opened ElectionSafety
  import opened ClusterSteps
  import opened LeadSteps

  lemma StartedFacts(v: NodeId, peers: nat, quorum: nat)
    ensures var n := Started(v, peers, quorum, 0, Disk([], []), {});
            n.id == v && n.quorum == quorum && n.role.Follower? && n.outstanding == map[] && n.sent == {}
  {
  }

  lemma StartedInv(v: NodeId, peers: nat, quorum: nat)
    ensures NodeInv(Started(v, peers, quorum, 0, Disk([], []), {}), map[], map[])
  {
  }

  lemma InitInv(members: set<NodeId>)
    ensures Inv(Init(members), members)
  {
    hide NodeInv, Started;
    var c := Init(members);
    forall v | v in members
      ensures NodeInv(c.nodes[v], map[], map[]) && NewNode(c.nodes[v], v, members)
    {
      StartedInv(v, if |members| == 0 then 0 else |members| - 1, QuorumSize(|members|));
      StartedFacts(v, if |members| == 0 then 0 else |members| - 1, QuorumSize(|members|));
    }
    assert HistoryOk(map[]);
    NewMembers(c, members);
  }

  predicate NewNode(n: Node, v: NodeId, members: set<NodeId>) {
    && n.id == v && n.quorum == QuorumSize(|members|) && n.role.Follower? && n.outstanding == map[] && n.sent == {}
  }

  lemma NewMembers(c: Cluster, members: set<NodeId>)
    requires c.nodes.Keys == c.tallies.Keys == members && c.ballots == map[] && c.wins == map[] && c.leaderLogs == map[]
    requires forall v | v in members :: c.tallies[v] == map[]
    requires forall v | v in members :: NodeInv(c.nodes[v], map[], map[]) && NewNode(c.nodes[v], v, members)
    requires HistoryOk(map[])
    ensures Inv(c, members)
  {
    hide NodeInv, HistoryOk;
    forall v | v in members ensures MemberOk(c.nodes, c.tallies, c.leaderLogs, members, v) {
    }
  }

  lemma EntryStep(c: Cluster, members: set<NodeId>, s: Step)
    requires Inv(c, members) && |members| % 2 == 1 && c.tallies.Keys == c.nodes.Keys
    requires (s.BeginLeading? || s.ClientWrite?) && Enabled(c, s) && Disciplined(c, s)
    ensures Inv(Apply(c, s), members) && Grows(c.leaderLogs, Apply(c, s).leaderLogs)
  {
    hide NodeInv, Inv, HistoryOk, LeaderOk, QuietStep, InitializeLeadership, Propose;
    var n := c.nodes[s.v];
    MemberInv(c, members, s.v);
    HistoryOf(c, members);
    if s.BeginLeading? {
      InitializeExtends(n, s.timestamp, c.tallies[s.v], c.wins, c.leaderLogs);
      ExtendStep(c, members, s.v, InitializeLeadership(n, s.timestamp));
    } else if s.commands != [] {
      ProposeExtends(n, s.timestamp, s.commands, c.tallies[s.v], c.wins, c.leaderLogs);
      ExtendStep(c, members, s.v, Propose(n, s.timestamp, s.commands, true));
    } else {
      SendQuiet(n, n.(nextId := n.nextId + 1), c.tallies[s.v], c.leaderLogs);
      QuietMove(c, members, s.v, n.(nextId := n.nextId + 1));
    }
  }

  lemma HistoryOf(c: Cluster, members: set<NodeId>)
    requires Inv(c, members)
    ensures HistoryOk(c.leaderLogs)
  {
    hide Members, Elections, WinsOk, Ballots, HistoryOk, Leaders, Outboxes;
  }

  lemma ElectionStep(c: Cluster, members: set<NodeId>, s: Step)
    requires Inv(c, members) && |members| % 2 == 1 && c.tallies.Keys == c.nodes.Keys
    requires s.BeginElection? || s.DeliverVoteRequest? || s.DeliverVoteReply? || s.LoseBallot? || s.ReadPersisted?
    requires Enabled(c, s) && Disciplined(c, s)
    ensures Inv(Apply(c, s), members) && Grows(c.leaderLogs, Apply(c, s).leaderLogs)
  {
    hide Inv, AfterVoteReply, AfterReadPersisted, OnVoteRequest, StartElection;
    match s
    case BeginElection(v) => BeginElectionStep(c, members, v);
    case DeliverVoteRequest(b) => VoteRequestStep(c, members, b);
    case DeliverVoteReply(b) => VoteReplyStep(c, members, b);
    case LoseBallot(b) => LoseStep(c, members, b);
    case ReadPersisted(v) => ReadPersistedStep(c, members, v);
  }

  lemma OwnStep(c: Cluster, members: set<NodeId>, s: Step)
    requires Inv(c, members) && c.tallies.Keys == c.nodes.Keys
    requires s.ElectionTimeout? || s.Persist? || s.AckFromPeer?
    requires Enabled(c, s) && Disciplined(c, s)
    ensures Inv(Apply(c, s), members) && Apply(c, s).leaderLogs == c.leaderLogs
  {
    hide NodeInv, Inv, LeaderOk, SentOk, QuietStep, PersistOne, OnAck;
    var n := c.nodes[s.v];
    var tally := c.tallies[s.v];
    MemberInv(c, members, s.v);
    match s {
      case ElectionTimeout(_) => TimeoutQuiet(n, tally, c.leaderLogs);
      case Persist(_) => PersistQuiet(n, tally, c.leaderLogs);
      case AckFromPeer(_, id) => AckQuiet(n, id, tally, c.leaderLogs);
    }
    QuietMove(c, members, s.v, Apply(c, s).nodes[s.v]);
  }

  lemma AppendStep(c: Cluster, members: set<NodeId>, s: Step)
    requires Inv(c, members) && c.tallies.Keys == c.nodes.Keys && s.DeliverAppend? && Enabled(c, s)
    ensures Inv(Apply(c, s), members) && Apply(c, s).leaderLogs == c.leaderLogs
  {
    hide NodeInv, Inv, HistoryOk, MessageOk, LeaderOk, SentOk, QuietStep, OnAppend;
    var n := c.nodes[s.v];
    MemberInv(c, members, s.v);
    HistoryOf(c, members);
    MessageInFlight(c, members, s.from, s.m);
    StampedMessage(s.m, s.commit, c.leaderLogs);
    AppendQuiet(n, s.m.(commit := s.commit), c.tallies[s.v], c.leaderLogs);
    QuietMove(c, members, s.v, OnAppend(n, s.m.(commit := s.commit)).0);
  }

  lemma PeerStep(c: Cluster, members: set<NodeId>, s: Step)
    requires Inv(c, members) && c.tallies.Keys == c.nodes.Keys
    requires s.DeliverTruncate? || s.BackfillRequest? || s.Heartbeat?
    requires Enabled(c, s) && Disciplined(c, s)
    ensures Inv(Apply(c, s), members) && Apply(c, s).leaderLogs == c.leaderLogs
  {
    hide NodeInv, Inv, HistoryOk, MessageOk, LeaderOk, SentOk, QuietStep, OnTruncate, OnBackfillRequest;
    var n := c.nodes[s.v];
    var tally := c.tallies[s.v];
    MemberInv(c, members, s.v);
    HistoryOf(c, members);
    match s {
      case DeliverTruncate(_, _, m) => TruncateQuiet(n, m.prevTerm, m.prevIndex, tally, c.leaderLogs);
      case BackfillRequest(_, lastTerm, lastIndex) =>
        BackfillQuiet(n, lastTerm, lastIndex, tally, c.wins, c.leaderLogs);
      case Heartbeat(_, prevIndex, prevTerm) =>
        HeartbeatQuiet(n, prevIndex, prevTerm, tally, c.leaderLogs);
    }
    QuietMove(c, members, s.v, Apply(c, s).nodes[s.v]);
  }

  lemma StampedMessage(m: Message, commit: nat, h: History)
    requires MessageOk(m, h) && m.AppendEntries?
    ensures MessageOk(m.(commit := commit), h)
  {
  }

  lemma HeartbeatQuiet(n: Node, prevIndex: nat, prevTerm: nat, tally: map<nat, Tally>, h: History)
    requires NodeInv(n, tally, h)
    ensures var m := AppendEntries(n.currentTerm, n.id, prevIndex, prevTerm, 0, None, n.commitIndex);
            QuietStep(n, n.(sent := n.sent + {m}), tally, h)
  {
    hide NodeInv, QuietStep;
    var m := AppendEntries(n.currentTerm, n.id, prevIndex, prevTerm, 0, None, n.commitIndex);
    SendQuiet(n, n.(sent := n.sent + {m}), tally, h);
  }

  // ---------------------------------------------------------------- every step

  lemma WinsKept(c: Cluster, s: Step)
    requires Enabled(c, s) && c.tallies.Keys == c.nodes.Keys
    ensures forall w | w in c.wins :: w in Apply(c, s).wins
  {
    hide OnVoteReply, HandlePersisted, OnVoteRequest, OnAppend, StartElection, OnTruncate, PersistOne, OnAck,
      OnBackfillRequest, InitializeLeadership, WriteBatch, Restarted;
  }

  lemma StepKeepsInv(c: Cluster, members: set<NodeId>, s: Step)
    requires Inv(c, members) && |members| % 2 == 1 && c.tallies.Keys == c.nodes.Keys
    requires Enabled(c, s) && Disciplined(c, s)
    ensures Inv(Apply(c, s), members) && Grows(c.leaderLogs, Apply(c, s).leaderLogs)
  {
    hide Inv, Enabled, Disciplined, Apply;
    if s.BeginLeading? || s.ClientWrite? {
      EntryStep(c, members, s);
    } else if s.CrashAndRestart? {
      CrashStep(c, members, s);
    } else if s.BeginElection? || s.DeliverVoteRequest? || s.DeliverVoteReply? || s.LoseBallot? || s.ReadPersisted? {
      ElectionStep(c, members, s);
    } else if s.ElectionTimeout? || s.Persist? || s.AckFromPeer? {
      OwnStep(c, members, s);
    } else if s.DeliverAppend? {
      AppendStep(c, members, s);
    } else {
      PeerStep(c, members, s);
    }
  }

  lemma CrashStep(c: Cluster, members: set<NodeId>, s: Step)
    requires Inv(c, members) && c.tallies.Keys == c.nodes.Keys && s.CrashAndRestart? && Enabled(c, s)
    ensures Inv(Apply(c, s), members) && Grows(c.leaderLogs, Apply(c, s).leaderLogs)
  {
    hide Inv, Restarted;
    RestartStep(c, members, s.v);
  }

  // ---------------------------------------------------------------- whole runs

  /** A run from the initial state of a cluster in which every step is one the code can take
      and meets the premises. */
  ghost predicate IsRun(members: set<NodeId>, states: seq<Cluster>, steps: seq<Step>) {
    && |states| == |steps| + 1
    && states[0] == Init(members)
    && forall i | 0 <= i < |steps| :: Follows(states[i], steps[i], states[i + 1])
  }

  ghost predicate Follows(c: Cluster, s: Step, c': Cluster) {
    c.tallies.Keys == c.nodes.Keys && Enabled(c, s) && Disciplined(c, s) && c' == Apply(c, s)
  }

  lemma {:induction false} RunInv(members: set<NodeId>, states: seq<Cluster>, steps: seq<Step>, i: nat)
    requires IsRun(members, states, steps) && |members| % 2 == 1 && i < |states|
    ensures Inv(states[i], members)
  {
    hide Inv, Init, Enabled, Disciplined, Apply;
    if i == 0 {
      InitInv(members);
    } else {
      RunInv(members, states, steps, i - 1);
      assert Follows(states[i - 1], steps[i - 1], states[i]);
      StepKeepsInv(states[i - 1], members, steps[i - 1]);
    }
  }

  /** History and wins only accumulate. */
  lemma {:induction false} RunGrows(members: set<NodeId>, states: seq<Cluster>, steps: seq<Step>, i: nat, j: nat)
    requires IsRun(members, states, steps) && |members| % 2 == 1 && i <= j < |states|
    ensures Grows(states[i].leaderLogs, states[j].leaderLogs)
    ensures forall w | w in states[i].wins :: w in states[j].wins
    decreases j
  {
    hide Inv, Init, Enabled, Disciplined, Apply;
    if i < j {
      RunGrows(members, states, steps, i, j - 1);
      RunInv(members, states, steps, j - 1);
      assert Follows(states[j - 1], steps[j - 1], states[j]);
      StepKeepsInv(states[j - 1], members, steps[j - 1]);
      WinsKept(states[j - 1], steps[j - 1]);
    }
  }

  lemma LeaderWon(members: set<NodeId>, states: seq<Cluster>, steps: seq<Step>, i: nat, j: nat, v: NodeId)
    requires IsRun(members, states, steps) && |members| % 2 == 1 && i <= j < |states|
    requires v in states[i].nodes && states[i].nodes[v].role.Leader?
    ensures (states[i].nodes[v].currentTerm, v) in states[j].wins
  {
    hide Inv, NodeInv;
    RunInv(members, states, steps, i);
    MemberInv(states[i], members, v);
    RunGrows(members, states, steps, i, j);
  }

  /** Election Safety, section 5.2 of the Raft paper: no two nodes ever lead the same term,
      at the same or at different moments of a run, whatever crashes it contains. */
  lemma ElectionSafetyOverRuns(
    members: set<NodeId>, states: seq<Cluster>, steps: seq<Step>, i: nat, j: nat, a: NodeId, b: NodeId)
    requires IsRun(members, states, steps) && |members| % 2 == 1 && i <= j < |states|
    requires a in states[i].nodes && states[i].nodes[a].role.Leader?
    requires b in states[j].nodes && states[j].nodes[b].role.Leader?
    requires states[i].nodes[a].currentTerm == states[j].nodes[b].currentTerm
    ensures a == b
  {
    hide Inv;
    LeaderWon(members, states, steps, i, j, a);
    LeaderWon(members, states, steps, j, j, b);
    RunInv(members, states, steps, j);
    WinnerUnique(states[j], members);
  }

  /** The log a node has in memory, or would recover from its disk. */
  ghost predicate HasLog(c: Cluster, v: NodeId, log: Log) {
    v in c.nodes && (log == c.nodes[v].replica.log || log == c.nodes[v].disk.log)
  }

  lemma NodeLogsSound(c: Cluster, members: set<NodeId>, v: NodeId, log: Log)
    requires Inv(c, members) && HasLog(c, v, log)
    ensures Sound(log, c.leaderLogs)
  {
    hide Inv;
    MemberInv(c, members, v);
    MirrorsSound(c.nodes[v].disk.log, c.nodes[v].work, c.nodes[v].replica.log, c.leaderLogs);
  }

  /** Log Matching, section 5.3 of the Raft paper, between any two logs in memory or on disk,
      at the same or at different moments of a run. */
  lemma LogMatchingOverRuns(
    members: set<NodeId>, states: seq<Cluster>, steps: seq<Step>, i: nat, j: nat,
    a: NodeId, b: NodeId, logA: Log, logB: Log)
    requires IsRun(members, states, steps) && |members| % 2 == 1 && i <= j < |states|
    requires HasLog(states[i], a, logA) && HasLog(states[j], b, logB)
    ensures LogMatching(logA, logB)
  {
    hide Inv, LogMatching, Sound;
    RunInv(members, states, steps, i);
    RunInv(members, states, steps, j);
    RunGrows(members, states, steps, i, j);
    NodeLogsSound(states[i], members, a, logA);
    NodeLogsSound(states[j], members, b, logB);
    SoundUnderGrowth(logA, states[i].leaderLogs, states[j].leaderLogs);
    MatchingFromHistory(logA, logB, states[j].leaderLogs);
  }

  /** In every role and after every crash, entry i of a node's log has index i, names its
      predecessor and carries a nonzero message id, entry 0 is a no-op, the cursor is the end
      of the log, and the term map holds the starts of its terms. Replaying the queued tasks
      over the file yields the log, and each queued truncation stays within the file it meets. */
  lemma NodeLogOverRuns(members: set<NodeId>, states: seq<Cluster>, steps: seq<Step>, i: nat, v: NodeId)
    requires IsRun(members, states, steps) && |members| % 2 == 1 && i < |states| && v in states[i].nodes
    ensures var n := states[i].nodes[v];
            && WellFormed(n.replica.log) && CursorOk(n.replica)
            && n.replica.termStarts == TermStarts(n.replica.log)
            && Replay(n.disk.log, n.work) == n.replica.log
            && forall k | 0 <= k < |n.work| :: Fits(Replay(n.disk.log, n.work[..k]), n.work[k])
  {
    hide Inv;
    var n := states[i].nodes[v];
    RunInv(members, states, steps, i);
    MemberInv(states[i], members, v);
    var h := states[i].leaderLogs;
    MirrorsSound(n.disk.log, n.work, n.replica.log, h);
    MirrorsReplay(n.disk.log, n.work, n.replica.log, h);
    forall k | 0 <= k < |n.work| ensures Fits(Replay(n.disk.log, n.work[..k]), n.work[k]) {
      TruncationsFit(n.disk.log, n.work, n.replica.log, h, k);
    }
  }

  /** In every state of a run, a node's repair by any leader with entries converges exactly
      when the node is repairable, and a walk-back keeps only entries the two agree on. */
  lemma RepairOverRuns(
    members: set<NodeId>, states: seq<Cluster>, steps: seq<Step>, i: nat, a: NodeId, b: NodeId)
    requires IsRun(members, states, steps) && |members| % 2 == 1 && i < |states|
    requires a in states[i].nodes && b in states[i].nodes && states[i].nodes[a].replica.log != []
    ensures var leader, r := states[i].nodes[a].replica.log, states[i].nodes[b].replica;
            && (Repaired(leader, r).log == leader <==> Repairable(leader, r.log))
            && (r.log != [] && |r.log| <= |leader| && LastWithTerm(leader, |r.log| - 1, r.lastTerm).Some? ==>
                  var j := LastWithTerm(leader, |r.log| - 1, r.lastTerm).value;
                  j + 1 < |r.log| && r.log[..j + 1] == leader[..j + 1])
  {
    hide Inv, Repaired, Repairable, LastWithTerm, Sound;
    var c := states[i];
    RunInv(members, states, steps, i);
    MemberInv(c, members, b);
    NodeLogsSound(c, members, a, c.nodes[a].replica.log);
    NodeLogsSound(c, members, b, c.nodes[b].replica.log);
    RepairConvergesIff(c.nodes[a].replica.log, c.nodes[b].replica, c.leaderLogs);
    if c.nodes[b].replica.log != [] && |c.nodes[b].replica.log| <= |c.nodes[a].replica.log| {
      WalkBackSound(c.nodes[a].replica.log, c.nodes[b].replica.log, c.leaderLogs);
    }
  }

  /** A message that carries an entry repeats the entry's own predecessor and its nonzero id,
      so no follower takes a replicated or backfilled entry for a heartbeat. */
  lemma EntriesAreNotHeartbeats(
    members: set<NodeId>, states: seq<Cluster>, steps: seq<Step>, i: nat, from: NodeId, m: Message)
    requires IsRun(members, states, steps) && |members| % 2 == 1 && i < |states|
    requires from in states[i].nodes && m in states[i].nodes[from].sent && m.AppendEntries? && m.entry.Some?
    ensures var e := m.entry.value;
            m.requestId == e.messageId >= 1 && m.prevIndex == e.prevIndex && m.prevTerm == e.prevTerm
  {
    hide Inv;
    RunInv(members, states, steps, i);
    MessageInFlight(states[i], members, from, m);
    var e, h := m.entry.value, states[i].leaderLogs;
    assert Sound(h[e.term], h) && EntryAt(h[e.term], e.index);
  }

  /** An entry on its way to the disk belongs to the record under its id: the request that
      brought it, or the proposal that created it at that index. */
  lemma TasksMatchRecords(
    members: set<NodeId>, states: seq<Cluster>, steps: seq<Step>, i: nat, v: NodeId, id: nat, e: Entry)
    requires IsRun(members, states, steps) && |members| % 2 == 1 && i < |states|
    requires v in states[i].nodes && AppendEntry(id, e) in states[i].nodes[v].work
    ensures var n := states[i].nodes[v];
            id in n.outstanding ==>
              || n.outstanding[id] == AppendLog(e.messageId)
              || (n.outstanding[id].Proposal? && n.outstanding[id].index == e.index && id == e.messageId)
  {
    hide Inv;
    RunInv(members, states, steps, i);
    MemberInv(states[i], members, v);
    assert TaskOk(states[i].nodes[v], states[i].tallies[v], AppendEntry(id, e));
  }

  /** A persistence report finds only the record it belongs to. A reported vote is on disk,
      and is the vote of the request it answers or of the node's own election. */
  lemma ReportsMatchRecords(members: set<NodeId>, states: seq<Cluster>, steps: seq<Step>, i: nat, v: NodeId,
                            r: Response)
    requires IsRun(members, states, steps) && |members| % 2 == 1 && i < |states|
    requires v in states[i].nodes && r in states[i].nodes[v].done
    ensures var n := states[i].nodes[v];
            match r
            case VotePersisted(id, row) =>
              && row in n.disk.votes && row.term in n.votes && n.votes[row.term] == row.candidate
              && (id in n.outstanding ==>
                    var o := n.outstanding[id];
                    (o.RequestVote? && o.ballot.candidate == row.candidate && o.ballot.term == row.term)
                    || (o.CandidateElection? && row.candidate == v))
            case LogPersisted(id) =>
              id in n.outstanding ==> n.outstanding[id].AppendLog? || n.outstanding[id].Proposal?
  {
    hide Inv;
    RunInv(members, states, steps, i);
    MemberInv(states[i], members, v);
    var n := states[i].nodes[v];
    assert ResponseOk(n, states[i].tallies[v], r);
    if r.VotePersisted? {
      assert Honours(n.votes, r.row);
    }
  }
}
