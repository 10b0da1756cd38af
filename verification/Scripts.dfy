/** Building runs of the cluster: what an election does, from the first timeout to the win. */
module Scripts {
  import opened Logs
  import opened Nodes
  import opened Cluster

  /** Which premise the steps of a run need not meet. */
  datatype Premises = All | ButElections | ButTruncations | ButWrites

  predicate Meets(p: Premises, c: Cluster, s: Step)
    requires Enabled(c, s)
  {
    || Disciplined(c, s)
    || (p.ButElections? && s.BeginElection?)
    || (p.ButTruncations? && s.DeliverTruncate?)
    || (p.ButWrites? && s.ClientWrite?)
  }

  ghost predicate Leads(p: Premises, c: Cluster, s: Step, c': Cluster) {
    c.tallies.Keys == c.nodes.Keys && Enabled(c, s) && Meets(p, c, s) && c' == Apply(c, s)
  }

  ghost predicate Links(p: Premises, c: Cluster, states: seq<Cluster>, steps: seq<Step>, c': Cluster) {
    && |states| == |steps| + 1 && states[0] == c && states[|steps|] == c'
    && forall i | 0 <= i < |steps| :: Leads(p, states[i], steps[i], states[i + 1])
  }

  ghost predicate Reaches(p: Premises, c: Cluster, c': Cluster) {
    exists states, steps :: Links(p, c, states, steps, c')
  }

  lemma ReachesSelf(p: Premises, c: Cluster)
    ensures Reaches(p, c, c)
  {
    assert Links(p, c, [c], [], c);
  }

  lemma ReachesOn(p: Premises, c: Cluster, c': Cluster, s: Step)
    requires Reaches(p, c, c') && c'.tallies.Keys == c'.nodes.Keys && Enabled(c', s) && Meets(p, c', s)
    ensures Reaches(p, c, Apply(c', s))
  {
    hide Enabled, Meets, Apply;
    var states, steps :| Links(p, c, states, steps, c');
    var longer, more := states + [Apply(c', s)], steps + [s];
    assert Leads(p, c', s, Apply(c', s));
    forall i | 0 <= i < |more| ensures Leads(p, longer[i], more[i], longer[i + 1]) {
      if i < |steps| {
        assert Leads(p, states[i], steps[i], states[i + 1]);
      }
    }
    assert Links(p, c, longer, more, Apply(c', s));
  }

  lemma ReachesThrough(p: Premises, c: Cluster, mid: Cluster, c': Cluster)
    requires Reaches(p, c, mid) && Reaches(p, mid, c')
    ensures Reaches(p, c, c')
  {
    hide Leads;
    var states, steps :| Links(p, c, states, steps, mid);
    var more, moreSteps :| Links(p, mid, more, moreSteps, c');
    var all, allSteps := states + more[1..], steps + moreSteps;
    forall i | 0 <= i < |allSteps| ensures Leads(p, all[i], allSteps[i], all[i + 1]) {
      if i < |steps| {
        assert Leads(p, states[i], steps[i], states[i + 1]);
      } else {
        var k := i - |steps|;
        assert Leads(p, more[k], moreSteps[k], more[k + 1]);
        assert all[i] == more[k] && all[i + 1] == more[k + 1];
      }
    }
    assert Links(p, c, all, allSteps, c');
  }

  // ---------------------------------------------------------------- one vote

  /** Nothing is queued and the next id is free. */
  predicate Idle(n: Node) {
    n.work == [] && n.done == [] && n.nextId !in n.outstanding
  }

  /** The node will record and answer a request for its vote. */
  predicate Willing(n: Node, term: nat, lastIndex: nat) {
    Idle(n) && !n.role.Follower? && ShouldAcceptVote(n, term, lastIndex)
  }

  /** The node once its vote is recorded, on disk and answered. */
  function Granted(n: Node, b: Ballot): Node {
    n.(nextTerm := if n.nextTerm <= b.term then b.term + 1 else n.nextTerm,
       nextId := n.nextId + 1,
       votes := n.votes[b.term := b.candidate],
       disk := n.disk.(votes := n.disk.votes + [VoteRow(b.term, b.candidate)]))
  }

  lemma VoteRecorded(n: Node, b: Ballot, lastIndex: nat)
    requires Willing(n, b.term, lastIndex)
    ensures var asked := OnVoteRequest(n, b, lastIndex);
            && asked.1.None? && asked.0.work != [] && PersistOne(asked.0).done != []
            && HandlePersisted(PersistOne(asked.0)) == (Granted(n, b), Some(VoteReply(b, true)))
            && Granted(n, b).role == PersistOne(asked.0).role
  {
    var asked := OnVoteRequest(n, b, lastIndex).0;
    var stored := PersistOne(asked);
    assert asked.work == [AppendVote(n.nextId, VoteRow(b.term, b.candidate))];
    assert stored.done == [VotePersisted(n.nextId, VoteRow(b.term, b.candidate))] && stored.work == [];
    assert stored.done[1..] == [];
    assert n.outstanding[n.nextId := RequestVote(b)] - {n.nextId} == n.outstanding;
  }

  lemma AskStep(p: Premises, c: Cluster, u: NodeId, b: Ballot, lastIndex: nat)
    requires c.tallies.Keys == c.nodes.Keys && u in c.nodes && b.voter == u && Willing(c.nodes[u], b.term, lastIndex)
    requires b in c.ballots && c.ballots[b] == Requested(lastIndex)
    ensures Reaches(p, c, AfterVoteRequest(c, b))
    ensures AfterVoteRequest(c, b) ==
            With(c, u, OnVoteRequest(c.nodes[u], b, lastIndex).0).(ballots := c.ballots[b := AtVoter])
  {
    VoteRecorded(c.nodes[u], b, lastIndex);
    hide OnVoteRequest;
    ReachesSelf(p, c);
    ReachesOn(p, c, c, DeliverVoteRequest(b));
  }

  lemma PersistStep(p: Premises, c0: Cluster, c: Cluster, u: NodeId)
    requires Reaches(p, c0, c) && c.tallies.Keys == c.nodes.Keys && u in c.nodes && c.nodes[u].work != []
    ensures Reaches(p, c0, With(c, u, PersistOne(c.nodes[u])))
  {
    hide PersistOne, Reaches;
    ReachesOn(p, c0, c, Persist(u));
  }

  lemma ReadStep(p: Premises, c0: Cluster, c: Cluster, u: NodeId)
    requires Reaches(p, c0, c) && c.tallies.Keys == c.nodes.Keys && u in c.nodes && c.nodes[u].done != []
    ensures Reaches(p, c0, AfterReadPersisted(c, u))
  {
    hide AfterReadPersisted, Reaches;
    ReachesOn(p, c0, c, ReadPersisted(u));
  }

  lemma VoteAnswered(c: Cluster, u: NodeId, n': Node, b: Ballot)
    requires u in c.nodes && u in c.tallies && c.nodes[u].done != []
    requires HandlePersisted(c.nodes[u]) == (n', Some(VoteReply(b, true))) && n'.role == c.nodes[u].role
    requires b in c.ballots && c.ballots[b].AtVoter?
    ensures AfterReadPersisted(c, u) == With(c, u, n').(ballots := c.ballots[b := Answered(true)])
  {
    hide HandlePersisted;
  }

  /** Member u is asked, records its vote, persists it and answers. */
  lemma GiveVote(p: Premises, c: Cluster, u: NodeId, b: Ballot, lastIndex: nat) returns (c': Cluster)
    requires c.tallies.Keys == c.nodes.Keys && u in c.nodes && b.voter == u && Willing(c.nodes[u], b.term, lastIndex)
    requires b in c.ballots && c.ballots[b] == Requested(lastIndex)
    ensures Reaches(p, c, c')
    ensures c' == c.(nodes := c.nodes[u := Granted(c.nodes[u], b)], ballots := c.ballots[b := Answered(true)])
  {
    hide OnVoteRequest, PersistOne, HandlePersisted, Reaches, AfterVoteRequest, AfterReadPersisted, Granted, Willing;
    VoteRecorded(c.nodes[u], b, lastIndex);
    AskStep(p, c, u, b, lastIndex);
    var asked := AfterVoteRequest(c, b);
    var stored := With(asked, u, PersistOne(asked.nodes[u]));
    assert asked.nodes.Keys == c.nodes.Keys == stored.nodes.Keys;
    PersistStep(p, c, asked, u);
    ReadStep(p, c, stored, u);
    VoteAnswered(stored, u, Granted(c.nodes[u], b), b);
    c' := AfterReadPersisted(stored, u);
    assert c'.ballots == c.ballots[b := AtVoter][b := Answered(true)] == c.ballots[b := Answered(true)];
    assert c'.nodes == c.nodes[u := Granted(c.nodes[u], b)];
  }

  // ---------------------------------------------------------------- counting votes

  /** The node waits for `r` more answers to its election, with its own vote on disk. */
  predicate Awaits(n: Node, id: nat, r: int, votes: nat) {
    n.role.Candidate? && id in n.outstanding && n.outstanding[id] == CandidateElection(r, true, votes)
  }

  function Elected(n: Node, id: nat, term: nat): Node {
    BecomeLeader(Forget(n, id), term)
  }

  lemma CountStep(p: Premises, c: Cluster, b: Ballot, r: int, votes: nat)
    requires c.tallies.Keys == c.nodes.Keys && b.candidate in c.nodes && c.nodes[b.candidate].epoch == b.epoch
    requires Awaits(c.nodes[b.candidate], b.id, r, votes) && b in c.ballots && c.ballots[b] == Answered(true)
    ensures Reaches(p, c, AfterVoteReply(c, b))
    ensures var c', n := AfterVoteReply(c, b), c.nodes[b.candidate];
            && c'.ballots == c.ballots - {b} && c'.tallies.Keys == c.tallies.Keys
            && (votes + 1 >= n.quorum ==> c'.nodes == c.nodes[b.candidate := Elected(n, b.id, b.term)])
            && (votes + 1 < n.quorum && r > 1 ==>
                  var record := CandidateElection(r - 1, true, votes + 1);
                  c'.nodes == c.nodes[b.candidate := n.(outstanding := n.outstanding[b.id := record])])
  {
    ReachesSelf(p, c);
    hide Reaches;
    ReachesOn(p, c, c, DeliverVoteReply(b));
  }

  /** The requests that candidate v has sent for one election. */
  ghost predicate Asked(c: Cluster, v: NodeId, epoch: nat, id: nat, term: nat, lastIndex: nat, voters: set<NodeId>) {
    forall u | u in voters ::
      && u in c.nodes && u != v && Willing(c.nodes[u], term, lastIndex)
      && Ballot(v, epoch, id, term, u) in c.ballots && c.ballots[Ballot(v, epoch, id, term, u)] == Requested(lastIndex)
  }

  /** The ballots of other elections and of other voters stay as they are. */
  ghost predicate OthersKept(c: Cluster, c': Cluster, v: NodeId, id: nat, voters: set<NodeId>) {
    forall b | b in c.ballots && (b.candidate != v || b.id != id || b.voter !in voters) ::
      b in c'.ballots && c'.ballots[b] == c.ballots[b]
  }

  lemma KeptThrough(c: Cluster, mid: Cluster, c': Cluster, v: NodeId, id: nat, voters: set<NodeId>, b: Ballot)
    requires b.candidate == v && b.id == id && b.voter in voters && mid.ballots == c.ballots - {b}
    requires c' == mid || OthersKept(mid, c', v, id, voters - {b.voter})
    ensures OthersKept(c, c', v, id, voters)
  {
  }

  lemma CollectOne(p: Premises, c: Cluster, v: NodeId, id: nat, term: nat, lastIndex: nat, u: NodeId, r: int,
                   votes: nat)
    returns (c': Cluster)
    requires c.tallies.Keys == c.nodes.Keys && v in c.nodes && Awaits(c.nodes[v], id, r, votes)
    requires Asked(c, v, c.nodes[v].epoch, id, term, lastIndex, {u}) && (votes + 1 >= c.nodes[v].quorum || r > 1)
    ensures Reaches(p, c, c') && c'.tallies.Keys == c.tallies.Keys
    ensures var b, n := Ballot(v, c.nodes[v].epoch, id, term, u), c.nodes[v];
            && c'.ballots == c.ballots - {b} && Voted(c, c', v, n.epoch, id, term, {u})
            && v in c'.nodes
            && (votes + 1 >= n.quorum ==> c'.nodes[v] == Elected(n, id, term))
            && (votes + 1 < n.quorum && r > 1 ==>
                  c'.nodes[v] == n.(outstanding := n.outstanding[id := CandidateElection(r - 1, true, votes + 1)]))
  {
    hide Reaches, Granted, AfterVoteReply, Willing, Elected, Asked, Voted;
    var b := Ballot(v, c.nodes[v].epoch, id, term, u);
    OneAsked(c, v, c.nodes[v].epoch, id, term, lastIndex, {u}, u);
    var given := GiveVote(p, c, u, b, lastIndex);
    CountStep(p, given, b, r, votes);
    c' := AfterVoteReply(given, b);
    assert c'.ballots == c.ballots - {b};
    OneVoted(c, c', v, c.nodes[v].epoch, id, term, u);
    ReachesThrough(p, c, given, c');
  }

  /** What the election of v leaves of the other nodes: its voters have voted. */
  ghost predicate Voted(c: Cluster, c': Cluster, v: NodeId, epoch: nat, id: nat, term: nat, voters: set<NodeId>) {
    && c'.nodes.Keys == c.nodes.Keys
    && (forall u | u in voters && u in c.nodes :: c'.nodes[u] == Granted(c.nodes[u], Ballot(v, epoch, id, term, u)))
    && (forall u | u in c.nodes && u != v && u !in voters :: c'.nodes[u] == c.nodes[u])
  }

  lemma RestAsked(c: Cluster, c': Cluster, v: NodeId, epoch: nat, id: nat, term: nat, lastIndex: nat,
                  voters: set<NodeId>, u: NodeId)
    requires Asked(c, v, epoch, id, term, lastIndex, voters) && u in voters
    requires Voted(c, c', v, epoch, id, term, {u}) && c'.ballots == c.ballots - {Ballot(v, epoch, id, term, u)}
    ensures Asked(c', v, epoch, id, term, lastIndex, voters - {u})
  {
    hide Willing, Granted;
  }

  lemma VotedTogether(c: Cluster, mid: Cluster, c': Cluster, v: NodeId, epoch: nat, id: nat, term: nat,
                      voters: set<NodeId>, u: NodeId)
    requires u in voters && u != v && u in c.nodes && voters <= c.nodes.Keys - {v}
    requires Voted(c, mid, v, epoch, id, term, {u}) && Voted(mid, c', v, epoch, id, term, voters - {u})
    ensures Voted(c, c', v, epoch, id, term, voters)
  {
    hide Granted;
    var one, rest := {u}, voters - {u};
    forall w | w in voters && w in c.nodes
      ensures c'.nodes[w] == Granted(c.nodes[w], Ballot(v, epoch, id, term, w))
    {
      assert w in one || w in rest;
    }
    forall w | w in c.nodes && w != v && w !in voters ensures c'.nodes[w] == c.nodes[w] {
      assert w !in one && w !in rest;
    }
  }

  lemma VotedKeys(c: Cluster, c': Cluster, v: NodeId, epoch: nat, id: nat, term: nat, voters: set<NodeId>)
    requires Voted(c, c', v, epoch, id, term, voters)
    ensures c'.nodes.Keys == c.nodes.Keys
  {
    hide Granted;
  }

  lemma VoterVoted(c: Cluster, c': Cluster, v: NodeId, epoch: nat, id: nat, term: nat, voters: set<NodeId>, u: NodeId)
    requires Voted(c, c', v, epoch, id, term, voters) && u in voters && u in c.nodes
    ensures u in c'.nodes && c'.nodes[u] == Granted(c.nodes[u], Ballot(v, epoch, id, term, u))
  {
    hide Granted;
  }

  lemma OthersUntouched(c: Cluster, c': Cluster, v: NodeId, epoch: nat, id: nat, term: nat, voters: set<NodeId>,
                        others: set<NodeId>)
    requires Voted(c, c', v, epoch, id, term, voters) && others <= c.nodes.Keys && v !in others && others !! voters
    ensures c'.nodes.Keys == c.nodes.Keys && forall u | u in others :: c'.nodes[u] == c.nodes[u]
  {
    hide Granted;
  }

  /** Candidate v collects the votes of the listed members, just enough to win. */
  lemma {:induction false} CollectAll(
    p: Premises, c: Cluster, v: NodeId, id: nat, term: nat, lastIndex: nat, voters: set<NodeId>, r: int, votes: nat)
    returns (c': Cluster)
    requires c.tallies.Keys == c.nodes.Keys && v in c.nodes && Awaits(c.nodes[v], id, r, votes) && voters != {}
    requires Asked(c, v, c.nodes[v].epoch, id, term, lastIndex, voters)
    requires votes + |voters| == c.nodes[v].quorum && r >= |voters|
    ensures Reaches(p, c, c') && c'.tallies.Keys == c.tallies.Keys && OthersKept(c, c', v, id, voters)
    ensures Voted(c, c', v, c.nodes[v].epoch, id, term, voters)
    ensures v in c'.nodes && c'.nodes[v] == Elected(c.nodes[v], id, term)
    decreases |voters|
  {
    hide Reaches, Granted, Willing, Asked, Voted, OthersKept, Awaits, Elected;
    var epoch := c.nodes[v].epoch;
    var u :| u in voters;
    var b := Ballot(v, epoch, id, term, u);
    OneAsked(c, v, epoch, id, term, lastIndex, voters, u);
    var rest := voters - {u};
    assert |voters| == |rest| + 1;
    var mid := CollectOne(p, c, v, id, term, lastIndex, u, r, votes);
    VotedKeys(c, mid, v, epoch, id, term, {u});
    if rest == {} {
      assert voters == {u};
      c' := mid;
    } else {
      assert |rest| >= 1;
      RestAsked(c, mid, v, epoch, id, term, lastIndex, voters, u);
      AwaitsMeans(c.nodes[v], id, r, votes);
      CountedOnce(c.nodes[v], mid.nodes[v], id, r - 1, votes + 1, term);
      c' := CollectAll(p, mid, v, id, term, lastIndex, rest, r - 1, votes + 1);
      VotersKnown(c, v, epoch, id, term, lastIndex, voters);
      VotedTogether(c, mid, c', v, epoch, id, term, voters, u);
      ReachesThrough(p, c, mid, c');
    }
    KeptThrough(c, mid, c', v, id, voters, b);
  }

  lemma CountedOnce(n: Node, n': Node, id: nat, r: int, votes: nat, term: nat)
    requires n.role.Candidate? && n' == n.(outstanding := n.outstanding[id := CandidateElection(r, true, votes)])
    ensures Awaits(n', id, r, votes) && Elected(n', id, term) == Elected(n, id, term)
    ensures n'.epoch == n.epoch && n'.quorum == n.quorum
  {
    assert n'.outstanding - {id} == n.outstanding - {id};
  }

  lemma OneAsked(c: Cluster, v: NodeId, epoch: nat, id: nat, term: nat, lastIndex: nat, voters: set<NodeId>, u: NodeId)
    requires Asked(c, v, epoch, id, term, lastIndex, voters) && u in voters
    ensures Asked(c, v, epoch, id, term, lastIndex, {u}) && u != v && u in c.nodes
    ensures Willing(c.nodes[u], term, lastIndex)
    ensures var b := Ballot(v, epoch, id, term, u);
            b in c.ballots && c.ballots[b] == Requested(lastIndex)
  {
    hide Willing;
  }

  lemma NoneAnswered(c: Cluster, v: NodeId, epoch: nat, id: nat, term: nat)
    ensures AllAnswered(c, v, epoch, id, term, {}) && OthersKept(c, c, v, id, {})
  {
  }

  lemma VotersKnown(c: Cluster, v: NodeId, epoch: nat, id: nat, term: nat, lastIndex: nat, voters: set<NodeId>)
    requires Asked(c, v, epoch, id, term, lastIndex, voters)
    ensures voters <= c.nodes.Keys - {v}
  {
    hide Willing;
  }

  lemma OneVoted(c: Cluster, c': Cluster, v: NodeId, epoch: nat, id: nat, term: nat, u: NodeId)
    requires v in c.nodes && u in c.nodes && u != v && v in c'.nodes
    requires c'.nodes == c.nodes[u := Granted(c.nodes[u], Ballot(v, epoch, id, term, u))][v := c'.nodes[v]]
    ensures Voted(c, c', v, epoch, id, term, {u})
  {
    hide Granted;
  }

  // ---------------------------------------------------------------- an election

  /** The candidate once its own vote is on disk, with one vote of several. */
  function Campaigning(n: Node): Node {
    n.(nextId := n.nextId + 1, nextTerm := n.nextTerm + 1,
       votes := n.votes[n.nextTerm := n.id],
       outstanding := n.outstanding[n.nextId := CandidateElection(n.peers, true, 1)],
       disk := n.disk.(votes := n.disk.votes + [VoteRow(n.nextTerm, n.id)]))
  }

  lemma OwnVote(n: Node)
    requires n.role.Candidate? && Idle(n)
    ensures var begun := StartElection(n);
            && begun.work != [] && PersistOne(begun).done == [VotePersisted(n.nextId, VoteRow(n.nextTerm, n.id))]
            && HandlePersisted(PersistOne(begun)) ==
               (if n.quorum <= 1 then Elected(Campaigning(n), n.nextId, n.nextTerm) else Campaigning(n), None)
  {
    var begun := StartElection(n);
    var stored := PersistOne(begun);
    var id := n.nextId;
    assert begun.work == [AppendVote(id, VoteRow(n.nextTerm, n.id))];
    assert stored.done == [VotePersisted(id, VoteRow(n.nextTerm, n.id))] && stored.work == [];
    assert stored.done[1..] == [];
    assert begun.outstanding - {id} == Campaigning(n).outstanding - {id};
    assert begun.outstanding[id := CandidateElection(n.peers, true, 1)] == Campaigning(n).outstanding;
  }

  lemma BeginStep(p: Premises, c: Cluster, v: NodeId) returns (c': Cluster)
    requires c.tallies.Keys == c.nodes.Keys && v in c.nodes && c.nodes[v].role.Candidate?
    requires c.nodes[v].nextTerm !in c.nodes[v].votes || p.ButElections?
    ensures Reaches(p, c, c') && c'.tallies.Keys == c.tallies.Keys && v in c'.tallies
    ensures c.nodes[v].nextId in c'.tallies[v]
    ensures c'.nodes == c.nodes[v := StartElection(c.nodes[v])] && c'.ballots == c.ballots + Requests(c, v)
  {
    ReachesSelf(p, c);
    hide Reaches;
    ReachesOn(p, c, c, BeginElection(v));
    c' := Apply(c, BeginElection(v));
  }

  /** Candidate v starts an election and gets its own vote onto its disk. */
  lemma Campaign(p: Premises, c: Cluster, v: NodeId) returns (c': Cluster)
    requires c.tallies.Keys == c.nodes.Keys && v in c.nodes && c.nodes[v].role.Candidate? && Idle(c.nodes[v])
    requires c.nodes[v].nextTerm !in c.nodes[v].votes || p.ButElections?
    ensures Reaches(p, c, c') && c'.tallies.Keys == c.tallies.Keys && c'.ballots == c.ballots + Requests(c, v)
    ensures var n := c.nodes[v];
            var n' := if n.quorum <= 1 then Elected(Campaigning(n), n.nextId, n.nextTerm) else Campaigning(n);
            c'.nodes == c.nodes[v := n']
  {
    hide Campaigning, StartElection, PersistOne, HandlePersisted, Reaches, Elected, Requests, AfterReadPersisted, Idle;
    var n := c.nodes[v];
    OwnVote(n);
    var begun := BeginStep(p, c, v);
    PersistStep(p, c, begun, v);
    var stored := With(begun, v, PersistOne(begun.nodes[v]));
    ReadStep(p, c, stored, v);
    NothingAnswered(stored, v);
    c' := AfterReadPersisted(stored, v);
  }

  lemma NothingAnswered(c: Cluster, v: NodeId)
    requires v in c.nodes && v in c.tallies && c.nodes[v].done != [] && HandlePersisted(c.nodes[v]).1.None?
    ensures var c' := AfterReadPersisted(c, v);
            && c'.nodes == c.nodes[v := HandlePersisted(c.nodes[v]).0]
            && c'.ballots == c.ballots && c'.tallies == c.tallies
  {
    hide HandlePersisted;
  }

  lemma AsksAll(c: Cluster, c': Cluster, v: NodeId, voters: set<NodeId>)
    requires v in c.nodes && c'.ballots == c.ballots + Requests(c, v) && voters <= c.nodes.Keys - {v}
    requires c'.nodes.Keys == c.nodes.Keys && forall u | u in voters :: c'.nodes[u] == c.nodes[u]
    requires forall u | u in voters :: Willing(c.nodes[u], c.nodes[v].nextTerm, c.nodes[v].replica.lastIndex)
    ensures var n := c.nodes[v];
            Asked(c', v, n.epoch, n.nextId, n.nextTerm, n.replica.lastIndex, voters)
  {
    hide Willing;
    var n := c.nodes[v];
    forall u | u in voters
      ensures var b := Ballot(v, n.epoch, n.nextId, n.nextTerm, u);
              b in c'.ballots && c'.ballots[b] == Requested(n.replica.lastIndex)
    {
      assert u in c.nodes.Keys - {v};
    }
  }

  /** Candidate v is elected in its next term by itself and the listed voters. */
  lemma Elect(p: Premises, c: Cluster, v: NodeId, voters: set<NodeId>) returns (c': Cluster)
    requires c.tallies.Keys == c.nodes.Keys && v in c.nodes && c.nodes[v].role.Candidate? && Idle(c.nodes[v])
    requires c.nodes[v].nextTerm !in c.nodes[v].votes || p.ButElections?
    requires voters <= c.nodes.Keys - {v} && |voters| + 1 == c.nodes[v].quorum <= c.nodes[v].peers + 1
    requires forall u | u in voters :: Willing(c.nodes[u], c.nodes[v].nextTerm, c.nodes[v].replica.lastIndex)
    ensures Reaches(p, c, c') && c'.tallies.Keys == c'.nodes.Keys == c.nodes.Keys
    ensures OthersKept(c, c', v, c.nodes[v].nextId, c.nodes.Keys)
    ensures var n := c.nodes[v];
            && c'.nodes[v] == Elected(Campaigning(n), n.nextId, n.nextTerm)
            && Voted(c, c', v, n.epoch, n.nextId, n.nextTerm, voters)
            && Unanswered(c', v, n.epoch, n.nextId, n.nextTerm, n.replica.lastIndex, c.nodes.Keys - {v} - voters)
  {
    hide Reaches, Granted, Willing, Asked, Requests, Elected, Campaigning, Awaits, OthersKept, Unanswered, Idle;
    var n := c.nodes[v];
    var mid := Campaign(p, c, v);
    CampaignWaits(n);
    RequestsKept(c, mid, v);
    if voters == {} {
      c' := mid;
      hide Voted;
      NoneVoted(c, c', v, n.epoch, n.nextId, n.nextTerm);
      assert c.nodes.Keys - {v} - voters == c.nodes.Keys - {v};
    } else {
      assert |voters| >= 1;
      AsksAll(c, mid, v, voters);
      assert Elected(mid.nodes[v], n.nextId, n.nextTerm) == Elected(Campaigning(n), n.nextId, n.nextTerm);
      c' := CollectAll(p, mid, v, n.nextId, n.nextTerm, n.replica.lastIndex, voters, n.peers, 1);
      VotedAfter(c, mid, c', v, n.epoch, n.nextId, n.nextTerm, voters);
      BallotsAfter(c, mid, c', v, n.epoch, n.nextId, n.nextTerm, n.replica.lastIndex, voters);
      ReachesThrough(p, c, mid, c');
    }
  }

  lemma CampaignWaits(n: Node)
    requires n.role.Candidate?
    ensures Campaigning(n).quorum == n.quorum && Campaigning(n).epoch == n.epoch
    ensures Awaits(Campaigning(n), n.nextId, n.peers, 1)
  {
  }

  lemma NoneVoted(c: Cluster, c': Cluster, v: NodeId, epoch: nat, id: nat, term: nat)
    requires v in c.nodes && v in c'.nodes && c'.nodes == c.nodes[v := c'.nodes[v]]
    ensures Voted(c, c', v, epoch, id, term, {})
  {
    hide Granted;
  }

  /** The listed members have been asked and have not answered. */
  ghost predicate Unanswered(c: Cluster, v: NodeId, epoch: nat, id: nat, term: nat, lastIndex: nat,
                             others: set<NodeId>) {
    forall u | u in others ::
      Ballot(v, epoch, id, term, u) in c.ballots && c.ballots[Ballot(v, epoch, id, term, u)] == Requested(lastIndex)
  }

  lemma RequestsKept(c: Cluster, c': Cluster, v: NodeId)
    requires v in c.nodes && c'.ballots == c.ballots + Requests(c, v)
    ensures var n := c.nodes[v];
            && OthersKept(c, c', v, n.nextId, c.nodes.Keys)
            && Unanswered(c', v, n.epoch, n.nextId, n.nextTerm, n.replica.lastIndex, c.nodes.Keys - {v})
  {
  }

  lemma VotedAfter(c: Cluster, mid: Cluster, c': Cluster, v: NodeId, epoch: nat, id: nat, term: nat,
                   voters: set<NodeId>)
    requires v in c.nodes && v in mid.nodes && mid.nodes == c.nodes[v := mid.nodes[v]] && v !in voters
    requires Voted(mid, c', v, epoch, id, term, voters)
    ensures Voted(c, c', v, epoch, id, term, voters)
  {
    hide Granted;
  }

  lemma BallotsAfter(c: Cluster, mid: Cluster, c': Cluster, v: NodeId, epoch: nat, id: nat, term: nat, lastIndex: nat,
                     voters: set<NodeId>)
    requires voters <= c.nodes.Keys && OthersKept(c, mid, v, id, c.nodes.Keys) && OthersKept(mid, c', v, id, voters)
    requires Unanswered(mid, v, epoch, id, term, lastIndex, c.nodes.Keys - {v})
    ensures OthersKept(c, c', v, id, c.nodes.Keys)
    ensures Unanswered(c', v, epoch, id, term, lastIndex, c.nodes.Keys - {v} - voters)
  {
  }

  // ---------------------------------------------------------------- from the start

  /** A node that has just started and become a candidate, in a cluster of k members. */
  function Contender(u: NodeId, k: nat): Node
    requires k >= 1
  {
    Started(u, k - 1, QuorumSize(k), 0, Disk([], []), {}).(role := Candidate)
  }

  lemma InitKeys(members: set<NodeId>)
    ensures Init(members).nodes.Keys == Init(members).tallies.Keys == members && Init(members).ballots == map[]
  {
  }

  lemma TimesOut(members: set<NodeId>, v: NodeId)
    requires v in members
    ensures v in Init(members).nodes
    ensures var n := Init(members).nodes[v];
            n.role.Follower? && n.(role := Candidate) == Contender(v, |members|)
  {
  }

  /** The listed members time out; the others have done nothing yet. */
  lemma {:induction false} Timeouts(p: Premises, members: set<NodeId>, todo: set<NodeId>) returns (c: Cluster)
    requires todo <= members && members != {}
    ensures Reaches(p, Init(members), c) && c.tallies.Keys == c.nodes.Keys == members && c.ballots == map[]
    ensures forall u | u in todo :: c.nodes[u] == Contender(u, |members|)
    ensures Init(members).nodes.Keys == members
    ensures forall u | u in members && u !in todo :: c.nodes[u] == Init(members).nodes[u]
  {
    hide Init, Contender, Reaches;
    if todo == {} {
      ReachesSelf(p, Init(members));
      InitKeys(members);
      return Init(members);
    }
    var v :| v in todo;
    var before := Timeouts(p, members, todo - {v});
    c := TimeoutOne(p, members, before, v);
  }

  lemma TimeoutOne(p: Premises, members: set<NodeId>, before: Cluster, v: NodeId) returns (c: Cluster)
    requires Reaches(p, Init(members), before) && before.tallies.Keys == before.nodes.Keys == members
    requires v in members && Init(members).nodes.Keys == members && before.nodes[v] == Init(members).nodes[v]
    ensures Reaches(p, Init(members), c) && c.tallies == before.tallies && c.ballots == before.ballots
    ensures |members| >= 1 && c.nodes == before.nodes[v := Contender(v, |members|)]
  {
    TimesOut(members, v);
    hide Reaches, Init, Contender;
    ReachesOn(p, Init(members), before, ElectionTimeout(v));
    c := Apply(before, ElectionTimeout(v));
  }

  /** A candidate with an empty log and nothing queued that has not acted beyond term t. */
  predicate Fresh(n: Node, u: NodeId, k: nat, t: nat) {
    && n.id == u && n.peers + 1 == k && n.quorum == QuorumSize(k) && n.epoch == 0
    && n.role.Candidate? && n.currentTerm == 0 && n.replica == RecoveredReplica([]) && Idle(n)
    && n.nextTerm <= t && forall x | x in n.votes :: x < t
  }

  lemma ContenderFresh(u: NodeId, k: nat)
    requires k >= 1
    ensures Fresh(Contender(u, k), u, k, 1) && Contender(u, k).nextTerm == 1 && Contender(u, k).nextId == 0
    ensures Contender(u, k).outstanding == map[]
  {
  }

  lemma FreshWilling(n: Node, u: NodeId, k: nat, t: nat)
    requires Fresh(n, u, k, t) && t >= 1
    ensures Willing(n, t, 0) && n.replica.lastIndex == 0
  {
  }

  lemma FreshGrants(n: Node, u: NodeId, k: nat, t: nat, b: Ballot)
    requires Fresh(n, u, k, t) && b.term == t && forall id | id in n.outstanding :: id < n.nextId
    ensures var n' := Granted(n, b);
            Fresh(n', u, k, t + 1) && n'.outstanding == n.outstanding && n'.nextId == n.nextId + 1
            && n'.nextTerm == t + 1
  {
  }

  // ---------------------------------------------------------------- votes given now, counted later

  /** The listed members answer the election's requests; nothing is counted yet. */
  lemma {:induction false} GiveAll(
    p: Premises, c: Cluster, v: NodeId, epoch: nat, id: nat, term: nat, lastIndex: nat, voters: set<NodeId>)
    returns (c': Cluster)
    requires c.tallies.Keys == c.nodes.Keys && v in c.nodes && Asked(c, v, epoch, id, term, lastIndex, voters)
    ensures Reaches(p, c, c') && c'.tallies == c.tallies && Voted(c, c', v, epoch, id, term, voters)
    ensures v in c'.nodes && c'.nodes[v] == c.nodes[v]
    ensures AllAnswered(c', v, epoch, id, term, voters) && OthersKept(c, c', v, id, voters)
    decreases |voters|
  {
    hide Reaches, Granted, Willing, Voted, OthersKept, AllAnswered, Asked;
    if voters == {} {
      ReachesSelf(p, c);
      c' := c;
      NoneVoted(c, c', v, epoch, id, term);
      NoneAnswered(c, v, epoch, id, term);
      return;
    }
    var u :| u in voters;
    var b := Ballot(v, epoch, id, term, u);
    OneAsked(c, v, epoch, id, term, lastIndex, voters, u);
    VotersKnown(c, v, epoch, id, term, lastIndex, voters);
    var mid := GiveVote(p, c, u, b, lastIndex);
    OneVoted(c, mid, v, epoch, id, term, u);
    RestAskedToo(c, mid, v, epoch, id, term, lastIndex, voters, u);
    c' := GiveAll(p, mid, v, epoch, id, term, lastIndex, voters - {u});
    VotedTogether(c, mid, c', v, epoch, id, term, voters, u);
    OneMoreAnswered(c, mid, c', v, epoch, id, term, voters, u);
    ReachesThrough(p, c, mid, c');
  }

  lemma OneMoreAnswered(c: Cluster, mid: Cluster, c': Cluster, v: NodeId, epoch: nat, id: nat, term: nat,
                        voters: set<NodeId>, u: NodeId)
    requires u in voters && mid.ballots == c.ballots[Ballot(v, epoch, id, term, u) := Answered(true)]
    requires AllAnswered(c', v, epoch, id, term, voters - {u}) && OthersKept(mid, c', v, id, voters - {u})
    ensures AllAnswered(c', v, epoch, id, term, voters) && OthersKept(c, c', v, id, voters)
  {
  }

  lemma RestAskedToo(c: Cluster, c': Cluster, v: NodeId, epoch: nat, id: nat, term: nat, lastIndex: nat,
                     voters: set<NodeId>, u: NodeId)
    requires Asked(c, v, epoch, id, term, lastIndex, voters) && u in voters
    requires c'.nodes.Keys == c.nodes.Keys && (forall w | w in c.nodes && w != v && w != u :: c'.nodes[w] == c.nodes[w])
    requires c'.ballots == c.ballots[Ballot(v, epoch, id, term, u) := Answered(true)]
    ensures Asked(c', v, epoch, id, term, lastIndex, voters - {u})
  {
    hide Willing;
  }

  ghost predicate AllAnswered(c: Cluster, v: NodeId, epoch: nat, id: nat, term: nat, voters: set<NodeId>) {
    forall u | u in voters ::
      Ballot(v, epoch, id, term, u) in c.ballots && c.ballots[Ballot(v, epoch, id, term, u)] == Answered(true)
  }

  lemma OneAnswered(c: Cluster, v: NodeId, epoch: nat, id: nat, term: nat, voters: set<NodeId>, u: NodeId)
    requires AllAnswered(c, v, epoch, id, term, voters) && u in voters
    ensures var b := Ballot(v, epoch, id, term, u);
            b in c.ballots && c.ballots[b] == Answered(true)
  {
  }

  lemma RestAnswered(c: Cluster, c': Cluster, v: NodeId, epoch: nat, id: nat, term: nat, voters: set<NodeId>, u: NodeId)
    requires AllAnswered(c, v, epoch, id, term, voters) && c'.ballots == c.ballots - {Ballot(v, epoch, id, term, u)}
    ensures AllAnswered(c', v, epoch, id, term, voters - {u})
  {
  }

  lemma AwaitsMeans(n: Node, id: nat, r: int, votes: nat)
    requires Awaits(n, id, r, votes)
    ensures n.role.Candidate? && id in n.outstanding
  {
  }

  /** Candidate v reads answers given earlier, just enough to win. */
  lemma {:induction false} CountAll(p: Premises, c: Cluster, v: NodeId, id: nat, term: nat, voters: set<NodeId>,
                                    r: int, votes: nat)
    returns (c': Cluster)
    requires c.tallies.Keys == c.nodes.Keys && v in c.nodes && Awaits(c.nodes[v], id, r, votes) && voters != {}
    requires AllAnswered(c, v, c.nodes[v].epoch, id, term, voters)
    requires votes + |voters| == c.nodes[v].quorum && r >= |voters|
    ensures Reaches(p, c, c') && c'.tallies.Keys == c'.nodes.Keys == c.nodes.Keys
    ensures c'.nodes == c.nodes[v := Elected(c.nodes[v], id, term)]
    decreases |voters|
  {
    hide Reaches, AfterVoteReply, AllAnswered, Elected, Awaits;
    var n := c.nodes[v];
    var u :| u in voters;
    var b := Ballot(v, n.epoch, id, term, u);
    OneAnswered(c, v, n.epoch, id, term, voters, u);
    CountStep(p, c, b, r, votes);
    var mid := AfterVoteReply(c, b);
    var rest := voters - {u};
    if rest == {} {
      assert voters == {u};
      c' := mid;
    } else {
      assert |rest| >= 1;
      AwaitsMeans(n, id, r, votes);
      CountedOnce(n, mid.nodes[v], id, r - 1, votes + 1, term);
      RestAnswered(c, mid, v, n.epoch, id, term, voters, u);
      c' := CountAll(p, mid, v, id, term, rest, r - 1, votes + 1);
      ReachesThrough(p, c, mid, c');
    }
  }

  // ---------------------------------------------------------------- leading and following

  lemma BeginsLeading(p: Premises, c: Cluster, v: NodeId) returns (c': Cluster)
    requires c.tallies.Keys == c.nodes.Keys && v in c.nodes && c.nodes[v].role == Leader(false)
    ensures Reaches(p, c, c') && c'.nodes == c.nodes[v := InitializeLeadership(c.nodes[v], 0)]
    ensures c'.ballots == c.ballots && c'.tallies == c.tallies
  {
    ReachesSelf(p, c);
    hide Reaches, InitializeLeadership;
    ReachesOn(p, c, c, BeginLeading(v, 0));
    c' := Apply(c, BeginLeading(v, 0));
  }

  /** Node v receives a message that `from` has sent. */
  lemma Hears(p: Premises, c: Cluster, v: NodeId, from: NodeId, m: Message) returns (c': Cluster)
    requires c.tallies.Keys == c.nodes.Keys && v in c.nodes && from in c.nodes
    requires m in c.nodes[from].sent && m.AppendEntries?
    ensures Reaches(p, c, c') && c'.ballots == c.ballots && c'.tallies == c.tallies
    ensures c'.nodes == c.nodes[v := OnAppend(c.nodes[v], m.(commit := 0)).0]
  {
    ReachesSelf(p, c);
    hide Reaches, OnAppend;
    ReachesOn(p, c, c, DeliverAppend(v, from, m, 0));
    c' := Apply(c, DeliverAppend(v, from, m, 0));
  }

  lemma StopsFollowing(p: Premises, c: Cluster, v: NodeId) returns (c': Cluster)
    requires c.tallies.Keys == c.nodes.Keys && v in c.nodes && c.nodes[v].role.Follower?
    ensures Reaches(p, c, c') && c'.ballots == c.ballots && c'.tallies == c.tallies
    ensures c'.nodes == c.nodes[v := c.nodes[v].(role := Candidate)]
  {
    ReachesSelf(p, c);
    hide Reaches;
    ReachesOn(p, c, c, ElectionTimeout(v));
    c' := Apply(c, ElectionTimeout(v));
  }
}
