/** Runs that drop one premise of the cluster theorems and break what the premise protects. */
module Necessity {
  import opened Logs
  import opened Nodes
  import opened Repair
  import opened Cluster
  import opened ElectionSafety
  import opened MessageIds
  import opened Scripts
  import opened EvenClusters

  /** A run of the code in which every step meets the premises but those of the given kind. */
  ghost predicate RunBut(p: Premises, members: set<NodeId>, states: seq<Cluster>, steps: seq<Step>) {
    && AnyRun(members, states, steps)
    && forall i | 0 <= i < |steps| :: Enabled(states[i], steps[i]) && Meets(p, states[i], steps[i])
  }

  lemma LinksAnyRun(p: Premises, members: set<NodeId>, states: seq<Cluster>, steps: seq<Step>, c: Cluster)
    requires Links(p, Init(members), states, steps, c)
    ensures RunBut(p, members, states, steps)
  {
    hide Init, Apply, Enabled, Meets;
    forall i | 0 <= i < |steps|
      ensures Moves(states[i], steps[i], states[i + 1]) && Enabled(states[i], steps[i]) && Meets(p, states[i], steps[i])
    {
      assert Leads(p, states[i], steps[i], states[i + 1]);
    }
  }

  // ---------------------------------------------------------------- voting twice in a term

  /** A leader of term 1 with an empty log, its no-op proposed and reported on disk. */
  function Settled(n: Node): Node
    requires InitializeLeadership(n, 0).work != [] && PersistOne(InitializeLeadership(n, 0)).done != []
  {
    HandlePersisted(PersistOne(InitializeLeadership(n, 0))).0
  }

  lemma LeaderSettles(n: Node)
    requires Idle(n) && n.role == Leader(false) && n.currentTerm == 1 && n.replica == RecoveredReplica([])
    requires n.quorum > 0
    requires (forall id | id in n.outstanding :: id < n.nextId) && forall x | x in n.votes :: x < 2
    ensures var led := InitializeLeadership(n, 0);
            && led.work != [] && PersistOne(led).done != [] && HandlePersisted(PersistOne(led)).1.None?
            && led.role == PersistOne(led).role == Settled(n).role == Leader(true)
            && Willing(Settled(n), 2, 0) && Settled(n).id == n.id
            && exists m :: m in Settled(n).sent && m.AppendEntries? && m.term == 1
  {
    var led := InitializeLeadership(n, 0);
    var stored := PersistOne(led);
    var id := n.nextId + 1;
    assert led.work == [AppendEntry(id, led.replica.log[0])];
    assert stored.done == [LogPersisted(id)] && stored.work == [];
    assert Settled(n).done == [];
    assert EntryMessage(n, led.replica.log[0]) in Settled(n).sent;
  }

  /** The leader initializes itself and reads the report of its no-op. */
  lemma SettleStep(p: Premises, c: Cluster, b: NodeId) returns (c': Cluster)
    requires c.tallies.Keys == c.nodes.Keys && b in c.nodes
    requires var n := c.nodes[b];
             && Idle(n) && n.role == Leader(false) && n.currentTerm == 1 && n.replica == RecoveredReplica([])
             && n.quorum > 0
             && (forall id | id in n.outstanding :: id < n.nextId) && forall x | x in n.votes :: x < 2
    ensures Reaches(p, c, c') && c'.nodes == c.nodes[b := Settled(c.nodes[b])] && c'.tallies == c.tallies
  {
    hide Reaches, InitializeLeadership, PersistOne, HandlePersisted, Settled, Willing, Idle, AfterReadPersisted;
    var n := c.nodes[b];
    LeaderSettles(n);
    SettledIs(n);
    var led := BeginsLeading(p, c, b);
    PersistStep(p, c, led, b);
    var stored := With(led, b, PersistOne(led.nodes[b]));
    ReadStep(p, c, stored, b);
    NothingAnswered(stored, b);
    c' := AfterReadPersisted(stored, b);
  }

  lemma SettledIs(n: Node)
    requires InitializeLeadership(n, 0).work != [] && PersistOne(InitializeLeadership(n, 0)).done != []
    ensures Settled(n) == HandlePersisted(PersistOne(InitializeLeadership(n, 0))).0
  {
  }

  /** The members are split so that two quorums share only c, and b is in the second. */
  ghost predicate Split(members: set<NodeId>, first: set<NodeId>, second: set<NodeId>, a: NodeId, b: NodeId,
                        c: NodeId) {
    && first + second == members && first * second == {c} && a in first && a != c && b in second && b != c
    && |first| == |second| == QuorumSize(|members|)
  }

  lemma SplitExists(members: set<NodeId>)
    returns (first: set<NodeId>, second: set<NodeId>, a: NodeId, b: NodeId, c: NodeId)
    requires |members| % 2 == 1 && |members| >= 3
    ensures Split(members, first, second, a, b, c)
  {
    var q := QuorumSize(|members|);
    first := SubsetOfSize(members, q);
    var rest := members - first;
    assert members == first + rest;
    assert |rest| == q - 1;
    c :| c in first;
    assert |first - {c}| == q - 1;
    a :| a in first - {c};
    b :| b in rest;
    second := rest + {c};
  }

  lemma SplitFacts(members: set<NodeId>, first: set<NodeId>, second: set<NodeId>, a: NodeId, b: NodeId, c: NodeId)
    requires Split(members, first, second, a, b, c)
    ensures forall u | u in first && u in second :: u == c
    ensures first <= members && second <= members && c in first && c in second && b !in first && a !in second
    ensures a in first && b in second && a != c && b != c && |first| == |second| == QuorumSize(|members|) >= 1
    ensures |first - {a}| + 1 == |second - {b}| + 1 == |second - {c}| + 1 == QuorumSize(|members|) <= |members|
    ensures |members| >= 1
  {
    assert c in first * second;
    forall u | u in first && u in second ensures u == c {
      assert u in first * second;
    }
  }

  /** Every member is a candidate that has not acted beyond the term the map gives it. */
  ghost predicate AllFresh(cl: Cluster, members: set<NodeId>, some: set<NodeId>, t: nat) {
    && cl.nodes.Keys == members && cl.tallies.Keys == members && some <= members
    && forall u | u in some :: Fresh(cl.nodes[u], u, |members|, t) && IdsBelow(cl.nodes[u])
  }

  predicate IdsBelow(n: Node) {
    forall id | id in n.outstanding :: id < n.nextId
  }

  /** Leader b of term 1 is elected by the second quorum. */
  lemma FirstElected(members: set<NodeId>, first: set<NodeId>, second: set<NodeId>, a: NodeId, b: NodeId, c: NodeId)
    returns (cl: Cluster)
    requires Split(members, first, second, a, b, c)
    ensures Reaches(ButElections, Init(members), cl) && AllFresh(cl, members, members - {b}, 2)
    ensures cl.nodes[a] == Contender(a, |members|)
    ensures cl.nodes[b] == Elected(Campaigning(Contender(b, |members|)), 0, 1)
  {
    hide Reaches, Contender, Elected, Campaigning, Granted, OthersKept, Unanswered, Init, Fresh, Willing, Voted, Idle;
    var p := ButElections;
    SplitFacts(members, first, second, a, b, c);
    hide Split, QuorumSize, LeadsTerm;
    var start := Timeouts(p, members, members);
    cl := FirstElection(p, start, second, b, |members|);
    OthersFresh(start, cl, members, second - {b}, b);
    ReachesThrough(p, Init(members), start, cl);
  }

  /** It initializes itself and so announces its term. */
  lemma FirstLeader(members: set<NodeId>, first: set<NodeId>, second: set<NodeId>, a: NodeId, b: NodeId, c: NodeId)
    returns (cl: Cluster)
    requires Split(members, first, second, a, b, c)
    ensures Reaches(ButElections, Init(members), cl) && AllFresh(cl, members, members - {b}, 2)
    ensures cl.nodes[a] == Contender(a, |members|)
    ensures Willing(cl.nodes[b], 2, 0) && exists m :: m in cl.nodes[b].sent && m.AppendEntries? && m.term == 1
  {
    hide Reaches, Contender, Elected, Campaigning, Init, Settled, Fresh, Willing, Idle, InitializeLeadership,
      PersistOne, HandlePersisted;
    SplitFacts(members, first, second, a, b, c);
    var one := FirstElected(members, first, second, a, b, c);
    FirstWinner(b, |members|);
    LeaderSettles(one.nodes[b]);
    cl := SettleStep(ButElections, one, b);
    ReachesThrough(ButElections, Init(members), one, cl);
  }

  lemma OthersFresh(c: Cluster, c': Cluster, members: set<NodeId>, voters: set<NodeId>, b: NodeId)
    requires c.nodes.Keys == members && b in members && voters <= members - {b}
    requires (forall u | u in members :: c.nodes[u] == Contender(u, |members|)) && Voted(c, c', b, 0, 0, 1, voters)
    ensures forall u | u in members && u != b :: Fresh(c'.nodes[u], u, |members|, 2) && IdsBelow(c'.nodes[u])
  {
    hide Contender, Granted, Fresh;
    forall u | u in members && u != b ensures Fresh(c'.nodes[u], u, |members|, 2) && IdsBelow(c'.nodes[u]) {
      ContenderFacts(u, |members|);
      ContenderFresh(u, |members|);
      if u in voters {
        FreshGrants(c.nodes[u], u, |members|, 1, Ballot(b, 0, 0, 1, u));
      } else {
        FreshLater(c'.nodes[u], u, |members|, 1, 2);
      }
    }
  }

  lemma ContenderFacts(u: NodeId, k: nat)
    requires k >= 1
    ensures var n := Contender(u, k);
            && n.role.Candidate? && Idle(n) && n.nextTerm == 1 && n.votes == map[] && n.replica.lastIndex == 0
            && n.quorum == QuorumSize(k) && n.peers == k - 1 && n.epoch == 0 && n.nextId == 0 && IdsBelow(n)
  {
  }

  lemma FreshLater(n: Node, u: NodeId, k: nat, t: nat, t': nat)
    requires Fresh(n, u, k, t) && t <= t'
    ensures Fresh(n, u, k, t')
  {
  }

  lemma FirstWinner(b: NodeId, k: nat)
    requires k >= 1
    ensures var n := Elected(Campaigning(Contender(b, k)), 0, 1);
            && Idle(n) && n.role == Leader(false) && n.currentTerm == 1 && n.replica == RecoveredReplica([])
            && n.quorum > 0 && IdsBelow(n) && forall x | x in n.votes :: x < 2
  {
  }

  /** Node a loses term 1. */
  lemma LoseOnce(cl: Cluster, a: NodeId, k: nat) returns (mid: Cluster)
    requires cl.nodes.Keys == cl.tallies.Keys && a in cl.nodes && k >= 1 && QuorumSize(k) >= 2
    requires cl.nodes[a] == Contender(a, k)
    ensures Reaches(ButElections, cl, mid) && mid.tallies.Keys == cl.nodes.Keys
    ensures mid.nodes == cl.nodes[a := Campaigning(Contender(a, k))]
  {
    hide Reaches, Contender, Elected, Campaigning, Requests;
    ContenderFacts(a, k);
    mid := Campaign(ButElections, cl, a);
  }

  /** Node a loses term 1 and is elected in term 2 by the first quorum. */
  lemma SecondLeader(cl: Cluster, members: set<NodeId>, first: set<NodeId>, second: set<NodeId>, a: NodeId, b: NodeId,
                     c: NodeId)
    returns (cl': Cluster)
    requires Split(members, first, second, a, b, c) && AllFresh(cl, members, members - {b}, 2)
    requires cl.nodes[a] == Contender(a, |members|)
    ensures Reaches(ButElections, cl, cl') && cl'.nodes.Keys == cl'.tallies.Keys == members
    ensures LeadsTerm(cl'.nodes[a], 2)
    ensures forall u | u in second && u != c :: cl'.nodes[u] == cl.nodes[u]
    ensures Fresh(cl'.nodes[c], c, |members|, 3) && IdsBelow(cl'.nodes[c])
  {
    hide Reaches, Contender, Elected, Campaigning, Granted, OthersKept, Unanswered, Fresh, Willing, Voted, Idle;
    var p, k, voters := ButElections, |members|, first - {a};
    SplitFacts(members, first, second, a, b, c);
    QuorumOfThree(k, first, a, c);
    var mid := LoseOnce(cl, a, k);
    SecondCampaign(a, k);
    VotersWilling(cl, mid, members, voters, b);
    hide LeadsTerm, QuorumSize, IdsBelow, Split;
    cl' := Elect(p, mid, a, voters);
    VoterVoted(mid, cl', a, 0, 1, 2, voters, c);
    OthersUntouched(mid, cl', a, 0, 1, 2, voters, second - {c});
    SecondVote(cl.nodes[c], c, k, Ballot(a, 0, 1, 2, c));
    ReachesThrough(p, cl, mid, cl');
  }

  lemma SecondVote(n: Node, c: NodeId, k: nat, b: Ballot)
    requires Fresh(n, c, k, 2) && IdsBelow(n) && b.term == 2
    ensures Fresh(Granted(n, b), c, k, 3) && IdsBelow(Granted(n, b))
  {
    hide Fresh, Granted;
    FreshGrants(n, c, k, 2, b);
  }

  lemma VotersWilling(cl: Cluster, mid: Cluster, members: set<NodeId>, voters: set<NodeId>, b: NodeId)
    requires AllFresh(cl, members, members - {b}, 2) && voters <= members - {b} && mid.nodes.Keys == members
    requires forall u | u in voters :: mid.nodes[u] == cl.nodes[u]
    ensures forall u | u in voters :: Willing(mid.nodes[u], 2, 0)
  {
    hide Fresh, Willing;
    forall u | u in voters ensures Willing(mid.nodes[u], 2, 0) {
      FreshWilling(mid.nodes[u], u, |members|, 2);
    }
  }

  lemma QuorumOfThree(k: nat, first: set<NodeId>, a: NodeId, c: NodeId)
    requires a in first && c in first && a != c && |first| == QuorumSize(k)
    ensures QuorumSize(k) >= 2
  {
    assert first == first - {a} + {a};
    assert c in first - {a};
    assert |first - {a}| >= 1;
  }

  lemma SecondCampaign(a: NodeId, k: nat)
    requires k >= 1
    ensures var n := Campaigning(Contender(a, k));
            && n.role.Candidate? && Idle(n) && n.nextTerm == 2 && n.replica.lastIndex == 0 && n.nextId == 1
            && n.quorum == QuorumSize(k) && n.peers == k - 1 && n.epoch == 0
            && LeadsTerm(Elected(Campaigning(n), 1, 2), 2)
  {
  }

  /** Node c hears the leader of term 1 late, falls back to it, times out and wins term 2,
      in which it has already voted. */
  lemma ReopenedTerm(cl: Cluster, members: set<NodeId>, first: set<NodeId>, second: set<NodeId>,
                     a: NodeId, b: NodeId, c: NodeId, m: Message)
    returns (cl': Cluster)
    requires Split(members, first, second, a, b, c) && cl.nodes.Keys == cl.tallies.Keys == members
    requires Fresh(cl.nodes[c], c, |members|, 3) && IdsBelow(cl.nodes[c])
    requires m in cl.nodes[b].sent && m.AppendEntries? && m.term == 1
    requires forall u | u in second && u != c :: Willing(cl.nodes[u], 2, 0)
    ensures Reaches(ButElections, cl, cl') && cl'.nodes.Keys == members
    ensures LeadsTerm(cl'.nodes[c], 2) && cl'.nodes[a] == cl.nodes[a]
  {
    hide Reaches, Elected, Campaigning, OthersKept, Unanswered, Willing;
    var p := ButElections;
    SplitFacts(members, first, second, a, b, c);
    hide Split, OnAppend, Fresh, Idle, QuorumSize, Voted, LeadsTerm;
    FallsBack(cl.nodes[c], c, |members|, m.(commit := 0));
    var heard := Hears(p, cl, c, b, m);
    var late := StopsFollowing(p, heard, c);
    ReachesThrough(p, cl, heard, late);
    var n := late.nodes[c];
    cl' := Elect(p, late, c, second - {c});
    OthersUntouched(late, cl', c, 0, n.nextId, 2, second - {c}, {a});
    ReElected(n);
    ReachesThrough(p, cl, late, cl');
  }

  /** A candidate that has voted in term 2 falls back to the leader of term 1. */
  lemma FallsBack(n: Node, c: NodeId, k: nat, m: Message)
    requires Fresh(n, c, k, 3) && m.AppendEntries? && m.term == 1
    ensures var heard := OnAppend(n, m).0;
            var late := heard.(role := Candidate);
            && heard.role.Follower? && Idle(late) && late.nextTerm == 2 && late.epoch == 0
            && late.replica.lastIndex == 0
            && late.quorum == QuorumSize(k) && late.peers + 1 == k
  {
  }

  lemma ReElected(n: Node)
    requires n.nextTerm == 2
    ensures LeadsTerm(Elected(Campaigning(n), n.nextId, 2), 2)
  {
  }

  /** Without the election premise, every odd cluster of three or more members has a run to
      two leaders of the same term. */
  lemma ElectionPremiseNeeded(members: set<NodeId>)
    returns (states: seq<Cluster>, steps: seq<Step>, a: NodeId, c: NodeId)
    requires |members| % 2 == 1 && |members| >= 3
    ensures RunBut(ButElections, members, states, steps) && a != c && BothLead(states[|steps|], a, c)
  {
    hide Contender, Leads, Init, Fresh, Willing;
    var first, second, b;
    first, second, a, b, c := SplitExists(members);
    SplitFacts(members, first, second, a, b, c);
    var one := FirstLeader(members, first, second, a, b, c);
    var m :| m in one.nodes[b].sent && m.AppendEntries? && m.term == 1;
    var two := SecondLeader(one, members, first, second, a, b, c);
    forall u | u in second && u != c ensures Willing(two.nodes[u], 2, 0) {
      if u != b {
        FreshWilling(one.nodes[u], u, |members|, 2);
      }
    }
    var three := ReopenedTerm(two, members, first, second, a, b, c, m);
    ReachesThrough(ButElections, Init(members), one, two);
    ReachesThrough(ButElections, Init(members), two, three);
    states, steps := RunTo(ButElections, members, three);
  }

  // ---------------------------------------------------------------- truncating to an entry not held

  /** A leader elected with an empty log that has written its no-op and one command. */
  function WithTwo(n: Node, command: Command): Node {
    WriteBatch(InitializeLeadership(n, 0), 0, [command])
  }

  /** Elected in term t by a cluster that has written nothing. */
  predicate Blank(n: Node, t: nat) {
    n.role == Leader(false) && n.currentTerm == t && n.replica == RecoveredReplica([])
  }

  lemma TwoEntries(n: Node, command: Command, t: nat)
    requires Blank(n, t)
    ensures var led := WithTwo(n, command);
            && led.role == Leader(true) && led.currentTerm == t && led.id == n.id
            && |led.replica.log| == 2 && led.replica.log[0].term == led.replica.log[1].term == t
            && led.replica.lastIndex == 1 && led.replica.lastTerm == t
  {
  }

  /** Its first message carries entry 0. */
  lemma FirstMessage(n: Node, command: Command) returns (m: Message)
    requires n.role == Leader(false) && n.replica == RecoveredReplica([])
    ensures m in WithTwo(n, command).sent && m.AppendEntries? && m.term == n.currentTerm && m.leader == n.id
    ensures m.prevIndex == m.prevTerm == 0 && m.requestId > 0 && m.entry.Some? && m.entry.value.index == 0
  {
    m := EntryMessage(n, InitializeLeadership(n, 0).replica.log[0]);
  }

  lemma WritesTwo(p: Premises, c: Cluster, v: NodeId, command: Command) returns (c': Cluster)
    requires c.tallies.Keys == c.nodes.Keys && v in c.nodes && c.nodes[v].role == Leader(false)
    ensures Reaches(p, c, c') && c'.nodes == c.nodes[v := WithTwo(c.nodes[v], command)] && c'.tallies == c.tallies
  {
    var led := BeginsLeading(p, c, v);
    assert led.nodes[v].role == Leader(true);
    hide Reaches, InitializeLeadership, WriteBatch;
    ReachesOn(p, c, led, ClientWrite(v, 0, [command]));
    c' := Apply(led, ClientWrite(v, 0, [command]));
  }

  /** Node a leads term 1 with two entries, and c leads term 2 with two entries of its own. */
  ghost predicate TwoLogs(cl: Cluster, members: set<NodeId>, a: NodeId, c: NodeId, first: Node, second: Node,
                          command: Command) {
    && cl.nodes.Keys == cl.tallies.Keys == members && a in members && c in members && a != c
    && Blank(first, 1) && cl.nodes[a] == WithTwo(first, command)
    && Blank(second, 2) && second.id == c && cl.nodes[c] == WithTwo(second, command)
  }

  /** The first quorum elects a in term 1, which writes; c is left to run for term 2. */
  lemma LeadAndWrite(members: set<NodeId>, first: set<NodeId>, second: set<NodeId>, a: NodeId, b: NodeId, c: NodeId,
                     command: Command)
    returns (cl: Cluster)
    requires Split(members, first, second, a, b, c)
    ensures Reaches(ButTruncations, Init(members), cl) && cl.nodes.Keys == cl.tallies.Keys == members
    ensures |members| >= 1 && a in members && c in members
    ensures cl.nodes[a] == WithTwo(Elected(Campaigning(Contender(a, |members|)), 0, 1), command)
    ensures cl.nodes[c] == Granted(Contender(c, |members|), Ballot(a, 0, 0, 1, c))
    ensures forall u | u in second && u != c :: cl.nodes[u] == Contender(u, |members|)
  {
    hide Reaches, Contender, Elected, Campaigning, Granted, OthersKept, Unanswered, Init, Willing, WithTwo, Voted, Idle;
    var p := ButTruncations;
    SplitFacts(members, first, second, a, b, c);
    hide Split, QuorumSize, LeadsTerm;
    var start := Timeouts(p, members, members);
    var led := FirstElection(p, start, first, a, |members|);
    VoterVoted(start, led, a, 0, 0, 1, first - {a}, c);
    ReachesThrough(p, Init(members), start, led);
    FirstWinner(a, |members|);
    cl := WritesTwo(p, led, a, command);
    ReachesThrough(p, Init(members), led, cl);
  }

  lemma VoterCampaigns(c: NodeId, k: nat, a: NodeId)
    requires k >= 1
    ensures var n := Granted(Contender(c, k), Ballot(a, 0, 0, 1, c));
            && n.role.Candidate? && Idle(n) && n.nextTerm == 2 && n.votes == map[1 := a] && n.replica.lastIndex == 0
            && n.quorum == QuorumSize(k) && n.peers == k - 1 && n.nextId == 1 && n.epoch == 0
            && Blank(Elected(Campaigning(n), 1, 2), 2) && Elected(Campaigning(n), 1, 2).id == c
  {
  }

  lemma ContenderBlank(a: NodeId, k: nat)
    requires k >= 1
    ensures Blank(Elected(Campaigning(Contender(a, k)), 0, 1), 1) && Willing(Contender(a, k), 2, 0)
  {
  }

  /** The second quorum, which has seen no entry, elects c in term 2. */
  lemma LeadAndWriteAgain(cl: Cluster, members: set<NodeId>, first: set<NodeId>, second: set<NodeId>,
                          a: NodeId, b: NodeId, c: NodeId, command: Command)
    returns (cl': Cluster, one: Node, two: Node)
    requires Split(members, first, second, a, b, c) && cl.nodes.Keys == cl.tallies.Keys == members
    requires |members| >= 1 && a in members && c in members
    requires cl.nodes[a] == WithTwo(Elected(Campaigning(Contender(a, |members|)), 0, 1), command)
    requires cl.nodes[c] == Granted(Contender(c, |members|), Ballot(a, 0, 0, 1, c))
    requires forall u | u in second && u != c :: cl.nodes[u] == Contender(u, |members|)
    ensures Reaches(ButTruncations, cl, cl') && TwoLogs(cl', members, a, c, one, two, command)
  {
    hide Reaches, Contender, Elected, Campaigning, Granted, OthersKept, Unanswered, Willing, WithTwo, Blank, Voted,
      Idle, TwoLogs;
    var p, k, voters := ButTruncations, |members|, second - {c};
    SplitFacts(members, first, second, a, b, c);
    hide Split, QuorumSize;
    forall u | u in voters ensures Willing(cl.nodes[u], 2, 0) {
      ContenderBlank(u, k);
    }
    VoterCampaigns(c, k, a);
    ContenderBlank(a, k);
    one := Elected(Campaigning(Contender(a, k)), 0, 1);
    var led := Elect(p, cl, c, voters);
    OthersUntouched(cl, led, c, 0, 1, 2, voters, {a});
    two := led.nodes[c];
    cl' := WritesAgain(led, members, a, c, one, two, command);
    ReachesThrough(p, cl, led, cl');
  }

  lemma WritesAgain(led: Cluster, members: set<NodeId>, a: NodeId, c: NodeId, one: Node, two: Node, command: Command)
    returns (cl': Cluster)
    requires led.nodes.Keys == led.tallies.Keys == members && a in members && c in members && a != c
    requires Blank(one, 1) && led.nodes[a] == WithTwo(one, command) && Blank(two, 2) && two.id == c
    requires led.nodes[c] == two
    ensures Reaches(ButTruncations, led, cl') && TwoLogs(cl', members, a, c, one, two, command)
  {
    hide Reaches, WithTwo, Blank;
    BlankLeads(two, 2);
    cl' := WritesTwo(ButTruncations, led, c, command);
  }

  lemma BlankLeads(n: Node, t: nat)
    requires Blank(n, t)
    ensures n.role == Leader(false) && n.currentTerm == t && n.replica == RecoveredReplica([])
  {
  }

  /** The follower asked to truncate everything keeps entry 0 and stores another entry 0
      behind it. */
  function Misled(n: Node, m: Message): Node
    requires m.AppendEntries?
  {
    OnAppend(OnTruncate(OnAppend(n, m).0, 0, 0), m).0
  }

  lemma EntryZeroTwice(n: Node, m: Message)
    requires n.role == Leader(true) && |n.replica.log| == 2 && n.currentTerm == 1 && n.replica.log[0].term == 1
    requires m.AppendEntries? && m.term == 2 && m.prevIndex == m.prevTerm == 0 && m.requestId > 0
    requires m.entry.Some? && m.entry.value.index == 0
    ensures !WellFormed(Misled(n, m).replica.log) && OnAppend(n, m).0.role.Follower?
  {
    var log := Misled(n, m).replica.log;
    assert |log| == 2 && log[1].index == 0 && !EntryAt(log, 1);
  }

  lemma AskedToTruncateAll(n: Node)
    requires n.replica.lastIndex == 1 && |n.replica.log| == 2 && n.replica.log[0].term == n.replica.log[1].term == 2
    ensures TruncateLog(n.currentTerm, n.id, 0, 0) in OnBackfillRequest(n, 1, 1).sent
    ensures n.sent <= OnBackfillRequest(n, 1, 1).sent
  {
    assert LastWithTerm(n.replica.log, 1, 1).None?;
  }

  /** The leader of term 2 is asked for entries on behalf of cursor (1, 1). */
  lemma AsksForEntries(p: Premises, cl: Cluster, c: NodeId) returns (cl': Cluster)
    requires cl.tallies.Keys == cl.nodes.Keys && c in cl.nodes && cl.nodes[c].role == Leader(true)
    ensures Reaches(p, cl, cl') && cl'.nodes == cl.nodes[c := OnBackfillRequest(cl.nodes[c], 1, 1)]
    ensures cl'.tallies == cl.tallies
  {
    ReachesSelf(p, cl);
    hide Reaches, OnBackfillRequest;
    ReachesOn(p, cl, cl, BackfillRequest(c, 1, 1));
    cl' := Apply(cl, BackfillRequest(c, 1, 1));
  }

  lemma Truncates(cl: Cluster, v: NodeId, from: NodeId, m: Message) returns (cl': Cluster)
    requires cl.tallies.Keys == cl.nodes.Keys && v in cl.nodes && from in cl.nodes
    requires m in cl.nodes[from].sent && m.TruncateLog?
    ensures Reaches(ButTruncations, cl, cl') && cl'.tallies == cl.tallies
    ensures cl'.nodes == cl.nodes[v := OnTruncate(cl.nodes[v], m.prevTerm, m.prevIndex)]
  {
    ReachesSelf(ButTruncations, cl);
    hide Reaches, OnTruncate;
    ReachesOn(ButTruncations, cl, cl, DeliverTruncate(v, from, m));
    cl' := Apply(cl, DeliverTruncate(v, from, m));
  }

  /** Node a hears of term 2, is told to truncate everything and hears of entry 0 again. */
  lemma Misleads(cl: Cluster, a: NodeId, c: NodeId, m: Message, signal: Message) returns (cl': Cluster)
    requires cl.tallies.Keys == cl.nodes.Keys && a in cl.nodes && c in cl.nodes && a != c
    requires m in cl.nodes[c].sent && m.AppendEntries? && signal in cl.nodes[c].sent
    requires signal.TruncateLog? && signal.prevTerm == signal.prevIndex == 0
    ensures Reaches(ButTruncations, cl, cl')
    ensures cl'.nodes == cl.nodes[a := Misled(cl.nodes[a], m.(commit := 0))]
  {
    hide Reaches, OnAppend, OnTruncate;
    var heard := Hears(ButTruncations, cl, a, c, m);
    var cut := Truncates(heard, a, c, signal);
    ReachesThrough(ButTruncations, cl, heard, cut);
    cl' := Hears(ButTruncations, cut, a, c, m);
    ReachesThrough(ButTruncations, cl, cut, cl');
  }

  lemma EndsMisled(cl: Cluster, members: set<NodeId>, a: NodeId, c: NodeId, first: Node, second: Node, command: Command)
    returns (cl': Cluster)
    requires TwoLogs(cl, members, a, c, first, second, command)
    ensures Reaches(ButTruncations, cl, cl') && a in cl'.nodes && !WellFormed(cl'.nodes[a].replica.log)
  {
    hide Reaches, WithTwo, Misled, OnBackfillRequest, WellFormed, Blank, OnAppend;
    BlankLeads(first, 1);
    BlankLeads(second, 2);
    TwoEntries(first, command, 1);
    TwoEntries(second, command, 2);
    var m := FirstMessage(second, command);
    AskedToTruncateAll(cl.nodes[c]);
    var asked := AsksForEntries(ButTruncations, cl, c);
    cl' := Misleads(asked, a, c, m, TruncateLog(2, c, 0, 0));
    EntryZeroTwice(cl.nodes[a], m.(commit := 0));
    ReachesThrough(ButTruncations, cl, asked, cl');
  }

  /** Without the truncation premise, every odd cluster of three or more members has a run to
      a log that holds two entries of index 0: the signal to truncate everything keeps one. */
  lemma TruncationPremiseNeeded(members: set<NodeId>, command: Command)
    returns (states: seq<Cluster>, steps: seq<Step>, a: NodeId)
    requires |members| % 2 == 1 && |members| >= 3
    ensures RunBut(ButTruncations, members, states, steps)
    ensures a in states[|steps|].nodes && !WellFormed(states[|steps|].nodes[a].replica.log)
  {
    hide Contender, Reaches, Init, Elected, Campaigning, Granted, WithTwo, WellFormed, TwoLogs, Split;
    var first, second, b, c;
    first, second, a, b, c := SplitExists(members);
    var one := LeadAndWrite(members, first, second, a, b, c, command);
    var two, n, n2 := LeadAndWriteAgain(one, members, first, second, a, b, c, command);
    var three := EndsMisled(two, members, a, c, n, n2, command);
    ReachesThrough(ButTruncations, Init(members), one, two);
    ReachesThrough(ButTruncations, Init(members), two, three);
    states, steps := RunTo(ButTruncations, members, three);
  }

  // ---------------------------------------------------------------- writing too early

  lemma EarlyWriteMisplaced(a: NodeId, k: nat, command: Command)
    requires k >= 1
    ensures var n := Elected(Campaigning(Contender(a, k)), 0, 1);
            n.role == Leader(false) && !WellFormed(WriteBatch(n, 0, [command]).replica.log)
  {
    var log := WriteBatch(Elected(Campaigning(Contender(a, k)), 0, 1), 0, [command]).replica.log;
    assert |log| == 1 && log[0].index == 1 && !EntryAt(log, 0);
  }

  /** Without the write premise, every cluster has a run to a log whose only entry has index 1. */
  lemma WritePremiseNeeded(members: set<NodeId>, command: Command)
    returns (states: seq<Cluster>, steps: seq<Step>, a: NodeId)
    requires members != {}
    ensures RunBut(ButWrites, members, states, steps)
    ensures a in states[|steps|].nodes && !WellFormed(states[|steps|].nodes[a].replica.log)
  {
    var quorum := SubsetOfSize(members, QuorumSize(|members|));
    a :| a in quorum;
    hide Contender, Reaches, Init, Elected, Campaigning, WellFormed, WriteBatch, LeadsTerm, Voted, QuorumSize, RunBut;
    var start := Timeouts(ButWrites, members, members);
    var one := FirstElection(ButWrites, start, quorum, a, |members|);
    EarlyWriteMisplaced(a, |members|, command);
    ReachesThrough(ButWrites, Init(members), start, one);
    var end := WritesEarly(one, a, command);
    ReachesThrough(ButWrites, Init(members), one, end);
    states, steps := RunTo(ButWrites, members, end);
  }

  lemma WritesEarly(c: Cluster, v: NodeId, command: Command) returns (c': Cluster)
    requires c.tallies.Keys == c.nodes.Keys && v in c.nodes && c.nodes[v].role.Leader?
    ensures Reaches(ButWrites, c, c') && c'.nodes == c.nodes[v := WriteBatch(c.nodes[v], 0, [command])]
  {
    ReachesSelf(ButWrites, c);
    hide Reaches, WriteBatch;
    ReachesOn(ButWrites, c, c, ClientWrite(v, 0, [command]));
    c' := Apply(c, ClientWrite(v, 0, [command]));
  }

  lemma RunTo(p: Premises, members: set<NodeId>, c: Cluster) returns (states: seq<Cluster>, steps: seq<Step>)
    requires Reaches(p, Init(members), c)
    ensures RunBut(p, members, states, steps) && states[|steps|] == c
  {
    hide Leads, Init;
    states, steps :| Links(p, Init(members), states, steps, c);
    LinksAnyRun(p, members, states, steps, c);
  }
}
