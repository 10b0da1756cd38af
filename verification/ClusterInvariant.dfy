/** The inductive invariant of the cluster, and how changes of one node keep it. */
module ClusterInvariant {
  import opened Logs
  import opened Nodes
  import opened Cluster
  import opened NodeInvariant
  import opened NodeSteps

  type Procs = map<NodeId, Node>
  type Tallies = map<NodeId, map<nat, Tally>>
  type Wins = map<(nat, NodeId), set<NodeId>>

  predicate Durable(ns: Procs, v: NodeId, term: nat, candidate: NodeId) {
    v in ns && VoteRow(term, candidate) in ns[v].disk.votes
  }

  predicate MemberOk(ns: Procs, ts: Tallies, h: History, members: set<NodeId>, v: NodeId) {
    && v in ns && v in ts
    && ns[v].id == v && ns[v].quorum == QuorumSize(|members|)
    && NodeInv(ns[v], ts[v], h)
  }

  predicate Members(ns: Procs, ts: Tallies, h: History, members: set<NodeId>) {
    && ns.Keys == members && ts.Keys == members
    && forall v | v in members :: MemberOk(ns, ts, h, members, v)
  }

  predicate IsElection(ns: Procs, ts: Tallies, v: NodeId, id: nat) {
    && v in ns && v in ts
    && id in ns[v].outstanding && ns[v].outstanding[id].CandidateElection? && id in ts[v]
  }

  /** Every counted vote is on its voter's disk, and the election is not won yet. */
  predicate ElectionOk(ns: Procs, ts: Tallies, wins: Wins, members: set<NodeId>, v: NodeId, id: nat)
    requires IsElection(ns, ts, v, id)
  {
    var t := ts[v][id];
    && v in t.voters && t.voters <= members
    && (forall u | u in t.voters && u != v :: Durable(ns, u, t.term, v))
    && (ns[v].outstanding[id].persisted ==> Durable(ns, v, t.term, v))
    && (t.term, v) !in wins
  }

  ghost predicate Elections(ns: Procs, ts: Tallies, wins: Wins, members: set<NodeId>) {
    forall v, id | IsElection(ns, ts, v, id) :: ElectionOk(ns, ts, wins, members, v, id)
  }

  predicate WinOk(ns: Procs, wins: Wins, h: History, members: set<NodeId>, w: (nat, NodeId))
    requires w in wins
  {
    && w.0 in h
    && w.1 in wins[w] && wins[w] <= members && |wins[w]| >= QuorumSize(|members|)
    && forall u | u in wins[w] :: Durable(ns, u, w.0, w.1)
  }

  /** Exactly the won terms have a history. */
  ghost predicate WinsOk(ns: Procs, wins: Wins, h: History, members: set<NodeId>) {
    && (forall w | w in wins :: WinOk(ns, wins, h, members, w))
    && (forall t | t in h :: exists v :: (t, v) in wins)
  }

  /** A request of the running process belongs to one of its elections and its voter is not
      counted yet; a granted answer is on the voter's disk. */
  predicate BallotOk(ns: Procs, ts: Tallies, b: Ballot, phase: Phase) {
    && b.candidate in ns && b.candidate in ts && b.voter in ns && b.voter != b.candidate
    && b.epoch <= ns[b.candidate].epoch
    && (b.epoch == ns[b.candidate].epoch ==>
          var tally := ts[b.candidate];
          b.id in tally && tally[b.id].term == b.term && b.voter !in tally[b.id].voters)
    && (phase == Answered(true) ==> Durable(ns, b.voter, b.term, b.candidate))
  }

  predicate Ballots(ns: Procs, ts: Tallies, ballots: map<Ballot, Phase>) {
    forall b | b in ballots :: BallotOk(ns, ts, b, ballots[b])
  }

  /** A leader's log is the whole history of the term it won. */
  predicate LeaderOk(n: Node, wins: Wins, h: History) {
    n.role.Leader? ==>
      (n.currentTerm, n.id) in wins && n.currentTerm in h && h[n.currentTerm] == n.replica.log
  }

  predicate SentOk(n: Node, h: History) {
    forall m | m in n.sent :: MessageOk(m, h)
  }

  predicate Leaders(ns: Procs, wins: Wins, h: History) {
    forall v | v in ns :: LeaderOk(ns[v], wins, h)
  }

  predicate Outboxes(ns: Procs, h: History) {
    forall v | v in ns :: SentOk(ns[v], h)
  }

  ghost predicate Inv(c: Cluster, members: set<NodeId>) {
    && Members(c.nodes, c.tallies, c.leaderLogs, members)
    && Elections(c.nodes, c.tallies, c.wins, members)
    && WinsOk(c.nodes, c.wins, c.leaderLogs, members)
    && Ballots(c.nodes, c.tallies, c.ballots)
    && HistoryOk(c.leaderLogs)
    && Leaders(c.nodes, c.wins, c.leaderLogs)
    && Outboxes(c.nodes, c.leaderLogs)
  }

  // ---------------------------------------------------------------- changes of one node

  predicate KeepsVotes(n: Node, n': Node) {
    forall row | row in n.disk.votes :: row in n'.disk.votes
  }

  /** No election appears, and one is marked persisted only when its vote is on disk. */
  predicate KeepsElections(n: Node, n': Node, tally: map<nat, Tally>) {
    forall id | id in n'.outstanding && n'.outstanding[id].CandidateElection? ::
      && id in n.outstanding && n.outstanding[id].CandidateElection? && id in tally
      && (n'.outstanding[id].persisted ==>
            n.outstanding[id].persisted || VoteRow(tally[id].term, n.id) in n'.disk.votes)
  }

  /** The node neither wins nor proposes nor restarts: what others know about it stays true. */
  predicate Quiet(n: Node, n': Node, tally: map<nat, Tally>, h: History) {
    && n'.id == n.id && n'.quorum == n.quorum && n'.epoch == n.epoch
    && KeepsVotes(n, n')
    && KeepsElections(n, n', tally)
    && (n'.role.Leader? ==>
          n.role.Leader? && n'.currentTerm == n.currentTerm && n'.replica.log == n.replica.log)
    && (forall m | m in n'.sent :: m in n.sent || MessageOk(m, h))
  }

  lemma DurableKept(ns: Procs, v: NodeId, n': Node)
    requires v in ns && KeepsVotes(ns[v], n')
    ensures forall u, term, candidate | Durable(ns, u, term, candidate) :: Durable(ns[v := n'], u, term, candidate)
  {
  }

  lemma MembersMoved(ns: Procs, ts: Tallies, h: History, members: set<NodeId>, v: NodeId, n': Node)
    requires Members(ns, ts, h, members) && v in members
    requires n'.id == v && n'.quorum == QuorumSize(|members|) && NodeInv(n', ts[v], h)
    ensures Members(ns[v := n'], ts, h, members)
  {
    hide NodeInv;
    forall u | u in members ensures MemberOk(ns[v := n'], ts, h, members, u) {
      assert MemberOk(ns, ts, h, members, u);
    }
  }

  lemma ElectionsMoved(ns: Procs, ts: Tallies, wins: Wins, members: set<NodeId>, v: NodeId, n': Node)
    requires Elections(ns, ts, wins, members) && v in ns && v in ts && ns[v].id == v
    requires KeepsVotes(ns[v], n') && KeepsElections(ns[v], n', ts[v])
    ensures Elections(ns[v := n'], ts, wins, members)
  {
    var ns' := ns[v := n'];
    DurableKept(ns, v, n');
    forall u, id | IsElection(ns', ts, u, id) ensures ElectionOk(ns', ts, wins, members, u, id) {
      assert IsElection(ns, ts, u, id);
      assert ElectionOk(ns, ts, wins, members, u, id);
    }
  }

  lemma WinsMoved(ns: Procs, wins: Wins, h: History, members: set<NodeId>, v: NodeId, n': Node)
    requires WinsOk(ns, wins, h, members) && v in ns && KeepsVotes(ns[v], n')
    ensures WinsOk(ns[v := n'], wins, h, members)
  {
    DurableKept(ns, v, n');
    forall w | w in wins ensures WinOk(ns[v := n'], wins, h, members, w) {
      assert WinOk(ns, wins, h, members, w);
    }
  }

  lemma BallotsMoved(ns: Procs, ts: Tallies, ballots: map<Ballot, Phase>, v: NodeId, n': Node)
    requires Ballots(ns, ts, ballots) && v in ns
    requires n'.epoch == ns[v].epoch && KeepsVotes(ns[v], n')
    ensures Ballots(ns[v := n'], ts, ballots)
  {
    forall b | b in ballots ensures BallotOk(ns[v := n'], ts, b, ballots[b]) {
      assert BallotOk(ns, ts, b, ballots[b]);
    }
  }

  lemma MemberFacts(ns: Procs, ts: Tallies, h: History, members: set<NodeId>, v: NodeId)
    requires Members(ns, ts, h, members) && v in members
    ensures v in ns && v in ts && ns[v].id == v && ns[v].quorum == QuorumSize(|members|)
  {
    hide NodeInv;
    assert MemberOk(ns, ts, h, members, v);
  }

  lemma LeadersMoved(ns: Procs, wins: Wins, h: History, v: NodeId, n': Node, tally: map<nat, Tally>)
    requires Leaders(ns, wins, h) && Outboxes(ns, h) && v in ns && Quiet(ns[v], n', tally, h)
    ensures Leaders(ns[v := n'], wins, h) && Outboxes(ns[v := n'], h)
  {
    hide MessageOk, KeepsVotes, KeepsElections;
    assert LeaderOk(ns[v], wins, h) && SentOk(ns[v], h);
  }

  lemma Moved(c: Cluster, members: set<NodeId>, v: NodeId, n': Node)
    requires Inv(c, members) && v in members && v in c.nodes && v in c.tallies
    requires NodeInv(n', c.tallies[v], c.leaderLogs) && Quiet(c.nodes[v], n', c.tallies[v], c.leaderLogs)
    ensures Inv(With(c, v, n'), members)
  {
    hide NodeInv, Members, Elections, WinsOk, Ballots, HistoryOk, Leaders, Outboxes, KeepsVotes, KeepsElections;
    MemberFacts(c.nodes, c.tallies, c.leaderLogs, members, v);
    MembersMoved(c.nodes, c.tallies, c.leaderLogs, members, v, n');
    ElectionsMoved(c.nodes, c.tallies, c.wins, members, v, n');
    WinsMoved(c.nodes, c.wins, c.leaderLogs, members, v, n');
    BallotsMoved(c.nodes, c.tallies, c.ballots, v, n');
    LeadersMoved(c.nodes, c.wins, c.leaderLogs, v, n', c.tallies[v]);
  }
}
