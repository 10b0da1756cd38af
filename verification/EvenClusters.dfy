/** Election Safety holds exactly for odd cluster sizes: in a cluster of even size, two halves
    elect two leaders of the same term. */
module EvenClusters {
  import opened Logs
  import opened Nodes
  import opened Cluster
  import opened ElectionSafety
  import opened ClusterSafety
  import opened Scripts

  lemma LinksRun(members: set<NodeId>, states: seq<Cluster>, steps: seq<Step>, c: Cluster)
    requires Links(All, Init(members), states, steps, c)
    ensures IsRun(members, states, steps)
  {
    hide Init, Apply, Enabled, Disciplined;
    forall i | 0 <= i < |steps| ensures Follows(states[i], steps[i], states[i + 1]) {
      assert Leads(All, states[i], steps[i], states[i + 1]);
    }
  }

  lemma DisciplinedRunTo(members: set<NodeId>, c: Cluster) returns (states: seq<Cluster>, steps: seq<Step>)
    requires Reaches(All, Init(members), c)
    ensures IsRun(members, states, steps) && |states| == |steps| + 1 && states[|steps|] == c
  {
    hide Leads, Init, IsRun;
    states, steps :| Links(All, Init(members), states, steps, c);
    LinksRun(members, states, steps, c);
  }

  lemma ContenderReady(u: NodeId, k: nat)
    requires k >= 1
    ensures var n := Contender(u, k);
            && Willing(n, 1, 0) && n.role.Candidate? && n.nextTerm == 1 && n.votes == map[] && n.replica.lastIndex == 0
            && n.quorum == QuorumSize(k) && n.peers == k - 1 && n.id == u && n.epoch == 0 && n.nextId == 0
            && Idle(n) && Elected(Campaigning(n), n.nextId, 1).role.Leader?
            && Elected(Campaigning(n), n.nextId, 1).currentTerm == 1
  {
  }

  predicate LeadsTerm(n: Node, term: nat) {
    n.role.Leader? && n.currentTerm == term
  }

  /** A quorum of nodes that have just become candidates elects one of them; the others
      notice nothing. */
  lemma FirstElection(p: Premises, c: Cluster, quorum: set<NodeId>, a: NodeId, k: nat) returns (c': Cluster)
    requires k >= 1 && c.tallies.Keys == c.nodes.Keys && quorum <= c.nodes.Keys && a in quorum
    requires |quorum| == QuorumSize(k) && forall u | u in quorum :: c.nodes[u] == Contender(u, k)
    ensures Reaches(p, c, c') && c'.tallies.Keys == c'.nodes.Keys == c.nodes.Keys
    ensures forall v | v in c.nodes && v !in quorum :: c'.nodes[v] == c.nodes[v]
    ensures LeadsTerm(c'.nodes[a], 1) && c'.nodes[a] == Elected(Campaigning(Contender(a, k)), 0, 1)
    ensures Voted(c, c', a, 0, 0, 1, quorum - {a})
  {
    hide Reaches, Contender, Willing, Elected, Campaigning, OthersKept, Unanswered, Granted, Idle, Voted;
    var voters := quorum - {a};
    assert |quorum| == |voters| + 1;
    forall u | u in quorum ensures Willing(c.nodes[u], 1, 0) {
      ContenderReady(u, k);
    }
    ContenderReady(a, k);
    c' := Elect(p, c, a, voters);
    OthersUntouched(c, c', a, 0, 0, 1, voters, c.nodes.Keys - quorum);
  }

  /** The premises of the runs exclude no cluster from electing a leader. */
  lemma EveryClusterCanElect(members: set<NodeId>) returns (states: seq<Cluster>, steps: seq<Step>, a: NodeId)
    requires members != {}
    ensures IsRun(members, states, steps) && a in states[|steps|].nodes && LeadsTerm(states[|steps|].nodes[a], 1)
  {
    hide Contender, Leads, Init;
    var quorum := SubsetOfSize(members, QuorumSize(|members|));
    a :| a in quorum;
    var start := Timeouts(All, members, members);
    var end := FirstElection(All, start, quorum, a, |members|);
    ReachesThrough(All, Init(members), start, end);
    states, steps := DisciplinedRunTo(members, end);
  }

  lemma Halves(members: set<NodeId>) returns (half: set<NodeId>, rest: set<NodeId>)
    requires |members| % 2 == 0 && members != {}
    ensures half + rest == members && half !! rest && half != {} && rest != {}
    ensures |half| == |rest| == QuorumSize(|members|)
  {
    assert |members| >= 2;
    half := SubsetOfSize(members, QuorumSize(|members|));
    rest := members - half;
    assert members == half + rest;
  }

  /** Any nonempty cluster of even size has a run to two leaders of term 1. */
  lemma EvenClusterElectsTwo(members: set<NodeId>)
    returns (states: seq<Cluster>, steps: seq<Step>, a: NodeId, b: NodeId)
    requires |members| % 2 == 0 && members != {}
    ensures IsRun(members, states, steps) && a != b && a in members && b in members
    ensures var end := states[|steps|];
            end.nodes.Keys == members && LeadsTerm(end.nodes[a], 1) && LeadsTerm(end.nodes[b], 1)
  {
    hide Contender, Reaches, Init, LeadsTerm, Elected, Campaigning, IsRun;
    var k := |members|;
    var half, rest := Halves(members);
    a :| a in half;
    b :| b in rest;
    var start := Timeouts(All, members, members);
    var one := FirstElection(All, start, half, a, k);
    var two := FirstElection(All, one, rest, b, k);
    ReachesThrough(All, Init(members), start, one);
    ReachesThrough(All, Init(members), one, two);
    states, steps := DisciplinedRunTo(members, two);
  }

  /** No run has two leaders of one term. */
  ghost predicate ElectionSafe(members: set<NodeId>) {
    forall states, steps, i: nat, a, b | IsRun(members, states, steps) && i < |states| && BothLead(states[i], a, b) ::
      a == b
  }

  ghost predicate BothLead(c: Cluster, a: NodeId, b: NodeId) {
    && a in c.nodes && c.nodes[a].role.Leader? && b in c.nodes && c.nodes[b].role.Leader?
    && c.nodes[a].currentTerm == c.nodes[b].currentTerm
  }

  lemma ElectionSafetyIffOdd(members: set<NodeId>)
    requires members != {}
    ensures ElectionSafe(members) <==> |members| % 2 == 1
  {
    hide IsRun;
    if |members| % 2 == 1 {
      forall states, steps, i: nat, a, b | IsRun(members, states, steps) && i < |states| && BothLead(states[i], a, b)
        ensures a == b
      {
        ElectionSafetyOverRuns(members, states, steps, i, i, a, b);
      }
    } else {
      var states, steps, a, b := EvenClusterElectsTwo(members);
      RunLength(members, states, steps);
      assert BothLead(states[|steps|], a, b);
    }
  }

  lemma RunLength(members: set<NodeId>, states: seq<Cluster>, steps: seq<Step>)
    requires IsRun(members, states, steps)
    ensures |states| == |steps| + 1
  {
  }
}
