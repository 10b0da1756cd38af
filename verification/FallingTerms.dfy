/** The terms of a log can fall: a node can win an election of an earlier term after it has led
    a later one. When an appended entry keeps the terms of a log nondecreasing. */
module FallingTerms {
  import opened Logs
  import opened Nodes
  import opened Cluster
  import opened ClusterSafety
  import opened Scripts
  import opened EvenClusters
  import opened Necessity

  predicate Nondecreasing(log: Log) {
    forall i: nat, j: nat | i < j < |log| :: log[i].term <= log[j].term
  }

  /** An appended entry keeps the terms nondecreasing exactly when its term is not below the
      cursor's. */
  lemma AppendKeepsTermsIff(r: Replica, e: Entry)
    requires CursorOk(r) && Nondecreasing(r.log)
    ensures Nondecreasing(Push(r, e).log) <==> r.log == [] || e.term >= r.lastTerm
  {
    var longer := r.log + [e];
    if r.log != [] {
      var last := |r.log| - 1;
      assert longer[last] == r.log[last] && longer[|r.log|] == e;
    }
    if r.log == [] || e.term >= r.lastTerm {
      forall i: nat, j: nat | i < j < |longer| ensures longer[i].term <= longer[j].term {
        if j == |r.log| && i < j - 1 {
          assert r.log[i].term <= r.log[j - 1].term;
        }
      }
    }
  }

  /** A leader's proposal keeps the terms of its log nondecreasing exactly when its own term
      is not below the term of its last entry. */
  lemma ProposalKeepsTermsIff(n: Node, timestamp: nat, commands: seq<Command>, client: bool)
    requires CursorOk(n.replica) && Nondecreasing(n.replica.log)
    ensures Nondecreasing(Propose(n, timestamp, commands, client).replica.log) <==>
            n.replica.log == [] || n.currentTerm >= n.replica.lastTerm
  {
    AppendKeepsTermsIff(n.replica, NewEntry(n, n.replica.nextIndex, n.nextId, timestamp, commands));
  }

  // ---------------------------------------------------------------- the node whose log falls

  /** Leader of term 2, with its no-op, while its election of term 1 is still open. */
  function LeaderOfTwo(a: NodeId, k: nat): Node
    requires k >= 1
  {
    InitializeLeadership(Elected(Campaigning(Campaigning(Contender(a, k))), 1, 2), 0)
  }

  /** After it has stepped down for message m and has timed out again. */
  function Again(a: NodeId, k: nat, m: Message): Node
    requires k >= 1 && m.AppendEntries?
  {
    OnAppend(LeaderOfTwo(a, k), m).0.(role := Candidate)
  }

  lemma LateWin(a: NodeId, k: nat, m: Message)
    requires k >= 2 && m.AppendEntries? && m.term == 3
    ensures LeaderOfTwo(a, k).role == Leader(true) && OnAppend(LeaderOfTwo(a, k), m).0.role.Follower?
    ensures Awaits(Again(a, k, m), 0, k - 1, 1) && Again(a, k, m).epoch == 0 && Again(a, k, m).quorum == QuorumSize(k)
    ensures var won := Elected(Again(a, k, m), 0, 1);
            var led := InitializeLeadership(won, 0);
            && won.role == Leader(false) && led.role == Leader(true)
            && |led.replica.log| == 2 && led.replica.log[0].term == 2 && led.replica.log[1].term == 1
  {
  }

  lemma OpenElection(a: NodeId, k: nat)
    requires k >= 1
    ensures var n := Elected(Campaigning(Campaigning(Contender(a, k))), 1, 2);
            n.role == Leader(false)
  {
  }

  // ---------------------------------------------------------------- the run

  /** Node a asks `held` for term 1 and is elected in term 2 by `voters`, among them c. Both
      groups make up a quorum with a, and `held` makes up one with c. */
  ghost predicate Cast(members: set<NodeId>, held: set<NodeId>, voters: set<NodeId>, a: NodeId, c: NodeId) {
    && held <= members && voters <= members && held !! voters
    && a in members && a !in held && a !in voters && c in voters
    && |held| + 1 == |voters| + 1 == QuorumSize(|members|)
  }

  lemma CastExists(members: set<NodeId>) returns (held: set<NodeId>, voters: set<NodeId>, a: NodeId, c: NodeId)
    requires |members| % 2 == 1 && |members| >= 3
    ensures Cast(members, held, voters, a, c)
  {
    var first, second, b;
    first, second, a, b, c := SplitExists(members);
    SplitFacts(members, first, second, a, b, c);
    held, voters := second - {c}, first - {a};
  }

  lemma CastFacts(members: set<NodeId>, held: set<NodeId>, voters: set<NodeId>, a: NodeId, c: NodeId)
    requires Cast(members, held, voters, a, c)
    ensures QuorumSize(|members|) >= 2 && |members| >= 2 && a != c && c in members && c !in held && held != {}
  {
    assert |voters| >= 1 by {
      assert voters == voters - {c} + {c};
    }
  }

  /** Node a waits for term 1, and the answers of `held` wait unread. */
  ghost predicate HoldsAnswers(cl: Cluster, members: set<NodeId>, held: set<NodeId>, a: NodeId) {
    && cl.nodes.Keys == cl.tallies.Keys == members && held <= members && AllAnswered(cl, a, 0, 0, 1, held)
    && forall u | u in held :: Fresh(cl.nodes[u], u, |members|, 3)
  }

  /** Node a campaigns for term 1; `held` answers, and nothing is read. */
  lemma AnswersHeld(start: Cluster, members: set<NodeId>, held: set<NodeId>, a: NodeId) returns (given: Cluster)
    requires start.nodes.Keys == start.tallies.Keys == members && held <= members - {a} && a in members
    requires forall u | u in members :: start.nodes[u] == Contender(u, |members|)
    requires QuorumSize(|members|) >= 2
    ensures Reaches(All, start, given) && HoldsAnswers(given, members, held, a)
    ensures given.nodes[a] == Campaigning(Contender(a, |members|))
    ensures forall u | u in members && u !in held && u != a :: given.nodes[u] == Contender(u, |members|)
  {
    hide Reaches, Contender, Campaigning, Granted, Fresh, Willing, Requests, OthersKept, Asked, AllAnswered, Elected;
    var asked := AsksHeld(start, members, held, a);
    given := GiveAll(All, asked, a, 0, 0, 1, 0, held);
    forall u | u in held ensures Fresh(given.nodes[u], u, |members|, 3) {
      VoterStaysFresh(u, |members|, a);
    }
    ReachesThrough(All, start, asked, given);
  }

  lemma AsksHeld(start: Cluster, members: set<NodeId>, held: set<NodeId>, a: NodeId) returns (asked: Cluster)
    requires start.nodes.Keys == start.tallies.Keys == members && held <= members - {a} && a in members
    requires forall u | u in members :: start.nodes[u] == Contender(u, |members|)
    requires QuorumSize(|members|) >= 2
    ensures Reaches(All, start, asked) && asked.tallies.Keys == members && Asked(asked, a, 0, 0, 1, 0, held)
    ensures asked.nodes == start.nodes[a := Campaigning(Contender(a, |members|))]
  {
    hide Reaches, Contender, Campaigning, Willing, Requests, Asked, Elected;
    ContenderFacts(a, |members|);
    asked := Campaign(All, start, a);
    forall u | u in held ensures Willing(start.nodes[u], 1, 0) {
      ContenderReady(u, |members|);
    }
    AsksAll(start, asked, a, held);
  }

  lemma VoterStaysFresh(u: NodeId, k: nat, a: NodeId)
    requires k >= 1
    ensures Fresh(Granted(Contender(u, k), Ballot(a, 0, 0, 1, u)), u, k, 3)
  {
    ContenderFacts(u, k);
    ContenderFresh(u, k);
    hide Contender, Granted;
    FreshGrants(Contender(u, k), u, k, 1, Ballot(a, 0, 0, 1, u));
  }

  /** A voter of term 2 that could run for term 3. */
  predicate Runs(n: Node, c: NodeId, k: nat) {
    Fresh(n, c, k, 3) && n.nextTerm == 3 && n.nextId == 1
  }

  lemma VoterRuns(c: NodeId, k: nat, a: NodeId)
    requires k >= 1
    ensures Runs(Granted(Contender(c, k), Ballot(a, 0, 1, 2, c)), c, k)
  {
    ContenderFacts(c, k);
    ContenderFresh(c, k);
    hide Contender, Granted;
    FreshLater(Contender(c, k), c, k, 1, 2);
    FreshGrants(Contender(c, k), c, k, 2, Ballot(a, 0, 1, 2, c));
  }

  lemma ContenderWilling(u: NodeId, k: nat)
    requires k >= 1
    ensures Willing(Contender(u, k), 2, 0)
  {
  }

  /** Node a is elected in term 2, with term 1 still open. */
  lemma WinTwo(given: Cluster, members: set<NodeId>, held: set<NodeId>, voters: set<NodeId>, a: NodeId, c: NodeId)
    returns (led: Cluster)
    requires Cast(members, held, voters, a, c) && HoldsAnswers(given, members, held, a)
    requires given.nodes[a] == Campaigning(Contender(a, |members|))
    requires forall u | u in members && u !in held && u != a :: given.nodes[u] == Contender(u, |members|)
    ensures Reaches(All, given, led) && HoldsAnswers(led, members, held, a)
    ensures led.nodes[a] == Elected(Campaigning(Campaigning(Contender(a, |members|))), 1, 2)
    ensures c in members && Runs(led.nodes[c], c, |members|)
  {
    hide Reaches, Contender, Elected, Campaigning, Granted, Fresh, Willing, OthersKept, AllAnswered, Unanswered, Runs;
    var k := |members|;
    CastFacts(members, held, voters, a, c);
    SecondCampaign(a, k);
    CampaignVotes(a, k);
    forall u | u in voters ensures Willing(given.nodes[u], 2, 0) {
      ContenderWilling(u, k);
    }
    led := Elect(All, given, a, voters);
    VoterRuns(c, k, a);
    StillAnswered(given, led, a, 1, held);
  }

  lemma CampaignVotes(a: NodeId, k: nat)
    requires k >= 1
    ensures Campaigning(Contender(a, k)).votes == map[1 := a]
  {
  }

  lemma StillAnswered(c: Cluster, c': Cluster, v: NodeId, id: nat, voters: set<NodeId>)
    requires AllAnswered(c, v, 0, 0, 1, voters) && id != 0 && OthersKept(c, c', v, id, c.nodes.Keys)
    ensures AllAnswered(c', v, 0, 0, 1, voters)
  {
  }

  lemma StillAnsweredToo(c: Cluster, c': Cluster, v: NodeId, w: NodeId, id: nat, voters: set<NodeId>)
    requires AllAnswered(c, v, 0, 0, 1, voters) && v != w && OthersKept(c, c', w, id, c.nodes.Keys)
    ensures AllAnswered(c', v, 0, 0, 1, voters)
  {
  }

  lemma SameBallots(c: Cluster, c': Cluster, v: NodeId, voters: set<NodeId>)
    requires AllAnswered(c, v, 0, 0, 1, voters) && c'.ballots == c.ballots
    ensures AllAnswered(c', v, 0, 0, 1, voters)
  {
  }

  /** Node a has led term 2 with the answers for term 1 unread, and c could run for term 3. */
  ghost predicate HasLedTwo(cl: Cluster, members: set<NodeId>, held: set<NodeId>, a: NodeId, c: NodeId) {
    && HoldsAnswers(cl, members, held, a) && a in members && c in members && |members| >= 1
    && cl.nodes[a] == LeaderOfTwo(a, |members|) && Runs(cl.nodes[c], c, |members|)
  }

  /** It begins to lead. */
  lemma BeginsTwo(led: Cluster, members: set<NodeId>, held: set<NodeId>, a: NodeId, c: NodeId) returns (cl: Cluster)
    requires HoldsAnswers(led, members, held, a) && |members| >= 1
    requires a in members && c in members && a != c && a !in held
    requires led.nodes[a] == Elected(Campaigning(Campaigning(Contender(a, |members|))), 1, 2)
    requires Runs(led.nodes[c], c, |members|)
    ensures Reaches(All, led, cl) && HasLedTwo(cl, members, held, a, c)
  {
    hide Reaches, Contender, Elected, Campaigning, Fresh, LeaderOfTwo, AllAnswered, Runs, InitializeLeadership;
    OpenElection(a, |members|);
    LeaderOfTwoIs(a, |members|);
    cl := BeginsLeading(All, led, a);
    SameBallots(led, cl, a, held);
  }

  lemma LeaderOfTwoIs(a: NodeId, k: nat)
    requires k >= 1
    ensures LeaderOfTwo(a, k) == InitializeLeadership(Elected(Campaigning(Campaigning(Contender(a, k))), 1, 2), 0)
  {
  }

  lemma LeadTwo(members: set<NodeId>, held: set<NodeId>, voters: set<NodeId>, a: NodeId, c: NodeId)
    returns (cl: Cluster)
    requires Cast(members, held, voters, a, c)
    ensures Reaches(All, Init(members), cl) && HasLedTwo(cl, members, held, a, c)
  {
    hide Reaches, Contender, Elected, Campaigning, Init, HasLedTwo, Runs, QuorumSize, AllAnswered, Fresh;
    CastFacts(members, held, voters, a, c);
    var start := Timeouts(All, members, members);
    var given := AnswersHeld(start, members, held, a);
    ReachesThrough(All, Init(members), start, given);
    var led := WinTwo(given, members, held, voters, a, c);
    ReachesThrough(All, Init(members), given, led);
    cl := BeginsTwo(led, members, held, a, c);
    ReachesThrough(All, Init(members), led, cl);
  }

  /** Node c is elected in term 3 by `held` and so announces its term. */
  lemma LeadThree(cl: Cluster, members: set<NodeId>, held: set<NodeId>, voters: set<NodeId>, a: NodeId, c: NodeId)
    returns (cl': Cluster, m: Message)
    requires Cast(members, held, voters, a, c) && HasLedTwo(cl, members, held, a, c)
    ensures Reaches(All, cl, cl') && cl'.nodes.Keys == cl'.tallies.Keys == members && c in members
    ensures cl'.nodes[a] == cl.nodes[a] && AllAnswered(cl', a, 0, 0, 1, held)
    ensures m in cl'.nodes[c].sent && m.AppendEntries? && m.term == 3
  {
    hide Reaches, LeaderOfTwo, Elected, Campaigning, AllAnswered, Runs, InitializeLeadership;
    CastFacts(members, held, voters, a, c);
    var led := WinThree(cl, members, held, voters, a, c);
    m := Announced(led.nodes[c]);
    cl' := BeginsLeading(All, led, c);
    SameBallots(led, cl', a, held);
    ReachesThrough(All, cl, led, cl');
  }

  lemma WinThree(cl: Cluster, members: set<NodeId>, held: set<NodeId>, voters: set<NodeId>, a: NodeId, c: NodeId)
    returns (led: Cluster)
    requires Cast(members, held, voters, a, c) && HasLedTwo(cl, members, held, a, c)
    ensures Reaches(All, cl, led) && led.nodes.Keys == led.tallies.Keys == members && c in members
    ensures led.nodes[a] == cl.nodes[a] && AllAnswered(led, a, 0, 0, 1, held)
    ensures led.nodes[c].role == Leader(false) && led.nodes[c].currentTerm == 3
  {
    hide Reaches, LeaderOfTwo, Elected, Campaigning, Granted, Fresh, Willing, OthersKept, AllAnswered, Unanswered, Runs;
    CastFacts(members, held, voters, a, c);
    RunnerReady(cl.nodes[c], c, |members|);
    forall u | u in held ensures Willing(cl.nodes[u], 3, 0) {
      FreshWilling(cl.nodes[u], u, |members|, 3);
    }
    led := Elect(All, cl, c, held);
    StillAnsweredToo(cl, led, a, c, 1, held);
  }

  lemma RunnerReady(n: Node, c: NodeId, k: nat)
    requires Runs(n, c, k)
    ensures n.role.Candidate? && Idle(n) && n.nextTerm == 3 && n.nextTerm !in n.votes && n.nextId == 1
    ensures n.quorum == QuorumSize(k) && n.peers + 1 == k && n.replica.lastIndex == 0
    ensures var won := Elected(Campaigning(n), 1, 3);
            won.role == Leader(false) && won.currentTerm == 3
  {
  }

  lemma Announced(n: Node) returns (m: Message)
    requires n.role == Leader(false)
    ensures m in InitializeLeadership(n, 0).sent && m.AppendEntries? && m.term == n.currentTerm
  {
    var led := InitializeLeadership(n, 0);
    m := EntryMessage(n, led.replica.log[|n.replica.log|]);
  }

  /** Node a steps down for the leader of term 3, times out, reads the old answers and leads
      term 1. */
  lemma LeadOne(cl: Cluster, members: set<NodeId>, held: set<NodeId>, a: NodeId, c: NodeId, m: Message)
    returns (cl': Cluster)
    requires cl.nodes.Keys == cl.tallies.Keys == members && a in members && c in members && |members| >= 2
    requires cl.nodes[a] == LeaderOfTwo(a, |members|) && AllAnswered(cl, a, 0, 0, 1, held)
    requires held != {} && |held| + 1 == QuorumSize(|members|)
    requires m in cl.nodes[c].sent && m.AppendEntries? && m.term == 3
    ensures Reaches(All, cl, cl') && a in cl'.nodes
    ensures cl'.nodes[a] == InitializeLeadership(Elected(Again(a, |members|, m.(commit := 0)), 0, 1), 0)
  {
    hide Reaches, LeaderOfTwo, Again, Elected, Awaits, InitializeLeadership, AllAnswered, OnAppend;
    var k := |members|;
    LateWin(a, k, m.(commit := 0));
    var late := StepsDown(cl, a, c, k, m);
    SameBallots(cl, late, a, held);
    var won := CountAll(All, late, a, 0, 1, held, k - 1, 1);
    ReachesThrough(All, cl, late, won);
    cl' := BeginsLeading(All, won, a);
    ReachesThrough(All, cl, won, cl');
  }

  /** Node a hears the leader of term 3 and times out. */
  lemma StepsDown(cl: Cluster, a: NodeId, c: NodeId, k: nat, m: Message) returns (late: Cluster)
    requires cl.nodes.Keys == cl.tallies.Keys && a in cl.nodes && c in cl.nodes && k >= 2
    requires cl.nodes[a] == LeaderOfTwo(a, k) && m in cl.nodes[c].sent && m.AppendEntries? && m.term == 3
    ensures Reaches(All, cl, late) && late.ballots == cl.ballots && late.tallies == cl.tallies
    ensures late.nodes == cl.nodes[a := Again(a, k, m.(commit := 0))]
  {
    hide Reaches, LeaderOfTwo, Again, OnAppend, Elected, InitializeLeadership, Awaits;
    var stamped := m.(commit := 0);
    LateWin(a, k, stamped);
    AgainIs(a, k, stamped);
    var heard := Hears(All, cl, a, c, m);
    late := StopsFollowing(All, heard, a);
    ReachesThrough(All, cl, heard, late);
  }

  lemma AgainIs(a: NodeId, k: nat, m: Message)
    requires k >= 1 && m.AppendEntries?
    ensures Again(a, k, m) == OnAppend(LeaderOfTwo(a, k), m).0.(role := Candidate)
  {
  }

  /** Every odd cluster of three or more members has a run that meets all premises and ends
      with a leader whose log has an entry of term 2 before one of term 1. In it, messages
      from one node to another may get lost but do not overtake each other. */
  lemma TermsCanFall(members: set<NodeId>) returns (states: seq<Cluster>, steps: seq<Step>, a: NodeId)
    requires |members| % 2 == 1 && |members| >= 3
    ensures IsRun(members, states, steps) && a in states[|steps|].nodes
    ensures states[|steps|].nodes[a].role.Leader? && !Nondecreasing(states[|steps|].nodes[a].replica.log)
  {
    hide Links, Init, LeaderOfTwo, Again, Elected, Runs, InitializeLeadership, HoldsAnswers, IsRun;
    var held, voters, c;
    held, voters, a, c := CastExists(members);
    CastFacts(members, held, voters, a, c);
    var one := LeadTwo(members, held, voters, a, c);
    var two, m := LeadThree(one, members, held, voters, a, c);
    var three := LeadOne(two, members, held, a, c, m);
    LateWin(a, |members|, m.(commit := 0));
    ReachesThrough(All, Init(members), one, two);
    ReachesThrough(All, Init(members), two, three);
    states, steps := DisciplinedRunTo(members, three);
    var log := three.nodes[a].replica.log;
    assert log[0].term > log[1].term;
  }
}
