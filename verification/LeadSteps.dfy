/** The remaining steps: reading vote answers, beginning an election, proposing an entry and
    restarting. */
module LeadSteps {
  import opened Logs
  import opened Nodes
  import opened Cluster
  import opened NodeInvariant
  import opened NodeSteps
  import opened ClusterInvariant
  import opened ElectionSafety
  import opened ClusterSteps

  // ---------------------------------------------------------------- reading vote answers

  lemma CountedRecord(n: Node, tally: map<nat, Tally>, h: History, id: nat)
    requires NodeInv(n, tally, h) && id in tally
    ensures id in n.outstanding ==>
              n.outstanding[id].CandidateElection? && n.outstanding[id].votes == |tally[id].voters|
  {
    if id in n.outstanding {
      assert RecordOk(n, tally, id);
    }
  }

  lemma ForgetQuiet(n: Node, tally: map<nat, Tally>, h: History, id: nat)
    requires NodeInv(n, tally, h) && id in n.outstanding
    ensures QuietStep(n, Forget(n, id), tally, h)
  {
    RecordsTallied(n, tally, h);
    RecordSettled(n, Forget(n, id), tally, h, id);
    hide NodeInv;
  }

  lemma VoteReplyCases(n: Node, b: Ballot, granted: bool)
    requires Counts(n, b.id)
    ensures var n1 := Recounted(n, b.id, granted);
            var o := n1.outstanding[b.id];
            OnVoteReply(n, b.id, b.term, granted) ==
              (if o.votes >= n.quorum && o.persisted then BecomeLeader(Forget(n1, b.id), b.term)
               else if o.responses > 0 then n1
               else Forget(n1, b.id), None)
  {
    var n1 := Recounted(n, b.id, granted);
    assert n1.outstanding - {b.id} == n.outstanding - {b.id};
  }

  lemma CountedCanWin(c: Cluster, members: set<NodeId>, v: NodeId, id: nat)
    requires Inv(c, members) && IsElection(c.nodes, c.tallies, v, id) && c.nodes[v].role.Candidate?
    requires c.nodes[v].outstanding[id].votes >= c.nodes[v].quorum && c.nodes[v].outstanding[id].persisted
    ensures CanWin(c, members, v, id)
  {
    hide NodeInv, Members, WinsOk, Ballots, HistoryOk, Leaders, Outboxes;
    MemberInv(c, members, v);
    CountedRecord(c.nodes[v], c.tallies[v], c.leaderLogs, id);
    assert ElectionOk(c.nodes, c.tallies, c.wins, members, v, id);
  }

  lemma VoteReplyCounted(c: Cluster, members: set<NodeId>, b: Ballot)
    requires Inv(c, members) && |members| % 2 == 1
    requires b in c.ballots && c.ballots[b].Answered? && IsElection(c.nodes, c.tallies, b.candidate, b.id)
    requires c.nodes[b.candidate].epoch == b.epoch && c.nodes[b.candidate].role.Candidate?
    requires c.tallies[b.candidate][b.id].term == b.term
    ensures Inv(AfterVoteReply(c, b), members)
    ensures Grows(c.leaderLogs, AfterVoteReply(c, b).leaderLogs)
  {
    hide NodeInv, Inv, QuietStep, OnVoteReply, CanWin;
    var v := b.candidate;
    var granted := c.ballots[b].granted;
    var n' := OnVoteReply(c.nodes[v], b.id, b.term, granted).0;
    var c1 := Counted(c, b);
    VoteReplyCases(c.nodes[v], b, granted);
    CountStep(c, members, b);
    MemberInv(c1, members, v);
    assert Tallied(c, b).tallies == c1.tallies;
    assert c1.nodes[v := n'] == c.nodes[v := n'];
    if BecomesLeader(c.nodes[v], n') {
      CountedCanWin(c1, members, v, b.id);
      WinStep(c1, members, v, b.id);
      assert n' == Winner(c1, v, b.id);
      assert AfterVoteReply(c, b) == AfterWin(c1, v, b.id);
    } else {
      if n' != c1.nodes[v] {
        ForgetQuiet(c1.nodes[v], c1.tallies[v], c1.leaderLogs, b.id);
        QuietMove(c1, members, v, n');
      }
      assert c1.nodes == c1.nodes[v := c1.nodes[v]];
      assert AfterVoteReply(c, b) == With(c1, v, n');
    }
  }

  lemma VoteReplyStep(c: Cluster, members: set<NodeId>, b: Ballot)
    requires Inv(c, members) && |members| % 2 == 1
    requires b in c.ballots && c.ballots[b].Answered? && b.candidate in c.nodes && b.candidate in c.tallies
    requires c.nodes[b.candidate].epoch == b.epoch
    ensures Inv(AfterVoteReply(c, b), members)
    ensures Grows(c.leaderLogs, AfterVoteReply(c, b).leaderLogs)
  {
    hide NodeInv, Inv;
    var v := b.candidate;
    MemberInv(c, members, v);
    BallotFacts(c, members, b);
    CountedRecord(c.nodes[v], c.tallies[v], c.leaderLogs, b.id);
    if Counts(c.nodes[v], b.id) {
      VoteReplyCounted(c, members, b);
    } else {
      LoseStep(c, members, b);
      assert c.tallies[v := c.tallies[v]] == c.tallies;
      assert c.nodes[v := c.nodes[v]] == c.nodes;
      assert AfterVoteReply(c, b) == c.(ballots := c.ballots - {b});
    }
  }

  // ---------------------------------------------------------------- beginning an election

  lemma ElectionsBegun(ns: Procs, ts: Tallies, wins: Wins, members: set<NodeId>, v: NodeId)
    requires Elections(ns, ts, wins, members) && v in ns && v in ts && v in members
    requires ns[v].nextId !in ts[v] && (ns[v].nextTerm, v) !in wins && AllTallied(ns[v], ts[v])
    ensures Elections(ns[v := StartElection(ns[v])],
                      ts[v := ts[v][ns[v].nextId := Tally(ns[v].nextTerm, {v})]], wins, members)
  {
    var n := ns[v];
    var ns', ts' := ns[v := StartElection(n)], ts[v := ts[v][n.nextId := Tally(n.nextTerm, {v})]];
    DurableKept(ns, v, ns'[v]);
    forall u, id | IsElection(ns', ts', u, id) ensures ElectionOk(ns', ts', wins, members, u, id) {
      if u != v || id != n.nextId {
        assert IsElection(ns, ts, u, id);
        assert ElectionOk(ns, ts, wins, members, u, id);
      }
    }
  }

  lemma BallotsBegun(ns: Procs, ts: Tallies, ballots: map<Ballot, Phase>, v: NodeId, requests: map<Ballot, Phase>)
    requires Ballots(ns, ts, ballots) && v in ns && v in ts && ns[v].nextId !in ts[v]
    requires forall b | b in requests ::
               && b.candidate == v && b.epoch == ns[v].epoch && b.id == ns[v].nextId && b.term == ns[v].nextTerm
               && b.voter in ns && b.voter != v && requests[b].Requested?
    ensures Ballots(ns[v := StartElection(ns[v])],
                    ts[v := ts[v][ns[v].nextId := Tally(ns[v].nextTerm, {v})]], ballots + requests)
  {
    var n := ns[v];
    var ns', ts' := ns[v := StartElection(n)], ts[v := ts[v][n.nextId := Tally(n.nextTerm, {v})]];
    var ballots' := ballots + requests;
    forall b | b in ballots' ensures BallotOk(ns', ts', b, ballots'[b]) {
      if b !in requests {
        assert BallotOk(ns, ts, b, ballots[b]);
      }
    }
  }

  /** A term without a vote cannot have been won, and the next id is new. */
  lemma FreshElection(c: Cluster, members: set<NodeId>, v: NodeId)
    requires Inv(c, members) && v in c.nodes && v in c.tallies && c.nodes[v].nextTerm !in c.nodes[v].votes
    ensures (c.nodes[v].nextTerm, v) !in c.wins && c.nodes[v].nextId !in c.tallies[v]
  {
    hide NodeInv, Members, Elections, Ballots, HistoryOk, Leaders, Outboxes;
    MemberInv(c, members, v);
    UnusedByNode(c.nodes[v], c.tallies[v], c.leaderLogs);
  }

  lemma UnusedByNode(n: Node, tally: map<nat, Tally>, h: History)
    requires NodeInv(n, tally, h) && n.nextTerm !in n.votes
    ensures n.nextId !in tally && VoteRow(n.nextTerm, n.id) !in n.disk.votes
  {
    assert forall id | id in tally :: TallyOk(n, tally, id);
  }

  lemma BeginElectionStep(c: Cluster, members: set<NodeId>, v: NodeId)
    requires Inv(c, members) && v in c.nodes && v in c.tallies
    requires c.nodes[v].role.Candidate? && c.nodes[v].nextTerm !in c.nodes[v].votes
    ensures Inv(AfterBeginElection(c, v), members)
  {
    hide NodeInv, Elections, WinsOk, Ballots, HistoryOk, Leaders, Outboxes, Members, AllTallied;
    var n := c.nodes[v];
    var tally' := c.tallies[v][n.nextId := Tally(n.nextTerm, {v})];
    MemberInv(c, members, v);
    FreshElection(c, members, v);
    RecordsTallied(n, c.tallies[v], c.leaderLogs);
    ElectionStarted(n, c.tallies[v], c.leaderLogs);
    MembersRetallied(c.nodes, c.tallies, c.leaderLogs, members, v, StartElection(n), tally');
    ElectionsBegun(c.nodes, c.tallies, c.wins, members, v);
    WinsMoved(c.nodes, c.wins, c.leaderLogs, members, v, StartElection(n));
    BallotsBegun(c.nodes, c.tallies, c.ballots, v, Requests(c, v));
    LeadersKept(c.nodes, c.wins, c.leaderLogs, v, StartElection(n));
    OutboxesMoved(c.nodes, c.leaderLogs, v, StartElection(n));
  }

  // ---------------------------------------------------------------- proposing

  /** A leader whose log has grown by an entry of its term, and with it the term's history. */
  predicate Extends(n: Node, n': Node, tally: map<nat, Tally>, h: History, h': History) {
    && NodeInv(n', tally, h') && Grows(h, h') && HistoryOk(h') && h' == h[n.currentTerm := n'.replica.log]
    && n'.id == n.id && n'.quorum == n.quorum && n'.epoch == n.epoch && n'.currentTerm == n.currentTerm
    && n.currentTerm in h
    && KeepsVotes(n, n') && KeepsElections(n, n', tally)
    && (forall m | m in n'.sent :: m in n.sent || MessageOk(m, h'))
  }

  lemma OtherLeaders(c: Cluster, members: set<NodeId>, v: NodeId, n': Node, h': History)
    requires Inv(c, members) && |members| % 2 == 1 && v in c.nodes && c.nodes[v].id == v && c.nodes[v].role.Leader?
    requires n'.id == v && n'.currentTerm == c.nodes[v].currentTerm
    requires h' == c.leaderLogs[n'.currentTerm := n'.replica.log]
    ensures Leaders(c.nodes[v := n'], c.wins, h')
  {
    hide NodeInv, Elections, WinsOk, Ballots, HistoryOk, Outboxes;
    WinnerUnique(c, members);
    assert LeaderOk(c.nodes[v], c.wins, c.leaderLogs);
    forall u | u in c.nodes && u != v ensures LeaderOk(c.nodes[u], c.wins, h') {
      assert LeaderOk(c.nodes[u], c.wins, c.leaderLogs);
      MemberInv(c, members, u);
    }
  }

  lemma OutboxesExtended(ns: Procs, h: History, h': History, v: NodeId, n': Node)
    requires Outboxes(ns, h) && Grows(h, h') && v in ns
    requires forall m | m in n'.sent :: m in ns[v].sent || MessageOk(m, h')
    ensures Outboxes(ns[v := n'], h')
  {
    hide MessageOk;
    OutboxesUnderGrowth(ns, h, h');
    assert SentOk(ns[v], h');
  }

  lemma WinsUnderGrowth(ns: Procs, wins: Wins, h: History, h': History, members: set<NodeId>)
    requires WinsOk(ns, wins, h, members) && Grows(h, h') && h'.Keys == h.Keys
    ensures WinsOk(ns, wins, h', members)
  {
    forall w | w in wins ensures WinOk(ns, wins, h', members, w) {
      assert WinOk(ns, wins, h, members, w);
    }
  }

  lemma ExtendStep(c: Cluster, members: set<NodeId>, v: NodeId, n': Node)
    requires Inv(c, members) && |members| % 2 == 1 && v in c.nodes && v in c.tallies && c.nodes[v].role.Leader?
    requires Extends(c.nodes[v], n', c.tallies[v], c.leaderLogs, NoteEntry(c, n').leaderLogs)
    ensures Inv(NoteEntry(With(c, v, n'), n'), members)
  {
    hide NodeInv, Elections, WinsOk, Ballots, HistoryOk, Leaders, Outboxes, Members, KeepsVotes, KeepsElections,
      MessageOk, Grows;
    var h' := c.leaderLogs[n'.currentTerm := n'.replica.log];
    MemberInv(c, members, v);
    MembersUnderGrowth(c.nodes, c.tallies, c.leaderLogs, h', members);
    MembersMoved(c.nodes, c.tallies, h', members, v, n');
    ElectionsMoved(c.nodes, c.tallies, c.wins, members, v, n');
    WinsUnderGrowth(c.nodes, c.wins, c.leaderLogs, h', members);
    WinsMoved(c.nodes, c.wins, h', members, v, n');
    BallotsMoved(c.nodes, c.tallies, c.ballots, v, n');
    OtherLeaders(c, members, v, n', h');
    OutboxesExtended(c.nodes, c.leaderLogs, h', v, n');
  }

  lemma ProposeExtends(n: Node, timestamp: nat, commands: seq<Command>, tally: map<nat, Tally>, wins: Wins, h: History)
    requires NodeInv(n, tally, h) && HistoryOk(h) && n.role == Leader(true) && LeaderOk(n, wins, h)
    ensures var n' := Propose(n, timestamp, commands, true);
            Extends(n, n', tally, h, h[n'.currentTerm := n'.replica.log])
  {
    var n' := Propose(n, timestamp, commands, true);
    RecordsTallied(n, tally, h);
    LogSound(n, tally, h);
    CursorOfWellFormed(n.replica.log);
    Proposed(n, timestamp, commands, true, tally, h, h[n'.currentTerm := n'.replica.log]);
    hide NodeInv, Grows, HistoryOk;
  }

  lemma InitializeExtends(n: Node, timestamp: nat, tally: map<nat, Tally>, wins: Wins, h: History)
    requires NodeInv(n, tally, h) && HistoryOk(h) && n.role == Leader(false) && LeaderOk(n, wins, h)
    ensures var n' := InitializeLeadership(n, timestamp);
            Extends(n, n', tally, h, h[n'.currentTerm := n'.replica.log])
  {
    var n' := InitializeLeadership(n, timestamp);
    RecordsTallied(n, tally, h);
    LogSound(n, tally, h);
    CursorOfWellFormed(n.replica.log);
    LeadershipInitialized(n, timestamp, tally, h, h[n'.currentTerm := n'.replica.log]);
    hide NodeInv, Grows, HistoryOk;
  }

  // ---------------------------------------------------------------- restarting

  lemma BallotsRestarted(ns: Procs, ts: Tallies, ballots: map<Ballot, Phase>, v: NodeId)
    requires Ballots(ns, ts, ballots) && v in ns
    ensures Ballots(ns[v := Restarted(ns[v])], ts[v := map[]], ballots)
  {
    var ns', ts' := ns[v := Restarted(ns[v])], ts[v := map[]];
    forall b | b in ballots ensures BallotOk(ns', ts', b, ballots[b]) {
      assert BallotOk(ns, ts, b, ballots[b]);
    }
  }

  lemma ElectionsRestarted(ns: Procs, ts: Tallies, wins: Wins, members: set<NodeId>, v: NodeId)
    requires Elections(ns, ts, wins, members) && v in ns
    ensures Elections(ns[v := Restarted(ns[v])], ts[v := map[]], wins, members)
  {
    var ns', ts' := ns[v := Restarted(ns[v])], ts[v := map[]];
    DurableKept(ns, v, ns'[v]);
    forall u, id | IsElection(ns', ts', u, id) ensures ElectionOk(ns', ts', wins, members, u, id) {
      assert IsElection(ns, ts, u, id);
      assert ElectionOk(ns, ts, wins, members, u, id);
    }
  }

  lemma RestartStep(c: Cluster, members: set<NodeId>, v: NodeId)
    requires Inv(c, members) && v in c.nodes && v in c.tallies
    ensures Inv(With(c, v, Restarted(c.nodes[v])).(tallies := c.tallies[v := map[]]), members)
  {
    hide NodeInv, Elections, WinsOk, Ballots, HistoryOk, Leaders, Outboxes, Members;
    var n' := Restarted(c.nodes[v]);
    MemberInv(c, members, v);
    RestartedNode(c.nodes[v], c.tallies[v], c.leaderLogs);
    MembersRetallied(c.nodes, c.tallies, c.leaderLogs, members, v, n', map[]);
    ElectionsRestarted(c.nodes, c.tallies, c.wins, members, v);
    WinsMoved(c.nodes, c.wins, c.leaderLogs, members, v, n');
    BallotsRestarted(c.nodes, c.tallies, c.ballots, v);
    LeadersKept(c.nodes, c.wins, c.leaderLogs, v, n');
    OutboxesMoved(c.nodes, c.leaderLogs, v, n');
  }
}
