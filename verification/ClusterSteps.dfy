/** Every disciplined step of the cluster keeps its invariant. */
module ClusterSteps {
  import opened Logs
  import opened Nodes
  import opened Repair
  import opened Cluster
  import opened NodeInvariant
  import opened NodeSteps
  import opened ClusterInvariant
  import opened ElectionSafety

  lemma MemberInv(c: Cluster, members: set<NodeId>, v: NodeId)
    requires Inv(c, members) && v in c.nodes
    ensures v in members && v in c.tallies && c.nodes[v].id == v && c.nodes[v].quorum == QuorumSize(|members|)
    ensures NodeInv(c.nodes[v], c.tallies[v], c.leaderLogs)
    ensures LeaderOk(c.nodes[v], c.wins, c.leaderLogs) && SentOk(c.nodes[v], c.leaderLogs)
  {
    hide NodeInv;
    assert MemberOk(c.nodes, c.tallies, c.leaderLogs, members, v);
  }

  // ---------------------------------------------------------------- steps of one node

  /** Every election the node still waits for is on record. */
  predicate AllTallied(n: Node, tally: map<nat, Tally>) {
    forall id | id in n.outstanding && n.outstanding[id].CandidateElection? :: id in tally
  }

  lemma RecordsTallied(n: Node, tally: map<nat, Tally>, h: History)
    requires NodeInv(n, tally, h)
    ensures AllTallied(n, tally)
  {
    forall id | id in n.outstanding && n.outstanding[id].CandidateElection? ensures id in tally {
      assert RecordOk(n, tally, id);
    }
  }

  /** A node that takes one step, quietly and within its own invariant. */
  ghost predicate QuietStep(n: Node, n': Node, tally: map<nat, Tally>, h: History) {
    NodeInv(n', tally, h) && Quiet(n, n', tally, h)
  }

  lemma QuietMove(c: Cluster, members: set<NodeId>, v: NodeId, n': Node)
    requires Inv(c, members) && v in c.nodes && v in c.tallies
    requires QuietStep(c.nodes[v], n', c.tallies[v], c.leaderLogs)
    ensures Inv(With(c, v, n'), members)
  {
    hide NodeInv, Quiet;
    Moved(c, members, v, n');
  }

  lemma TimeoutQuiet(n: Node, tally: map<nat, Tally>, h: History)
    requires NodeInv(n, tally, h)
    ensures QuietStep(n, n.(role := Candidate), tally, h)
  {
    RecordsTallied(n, tally, h);
    Timeout(n, tally, h);
    hide NodeInv;
  }

  lemma AppendQuiet(n: Node, m: Message, tally: map<nat, Tally>, h: History)
    requires NodeInv(n, tally, h) && HistoryOk(h) && m.AppendEntries? && MessageOk(m, h)
    ensures QuietStep(n, OnAppend(n, m).0, tally, h)
  {
    hide NodeInv, OnAppend, AllTallied, MessageOk, HistoryOk;
    RecordsTallied(n, tally, h);
    AppendMovesQuietly(n, m, tally, h);
    Appended(n, m, tally, h);
  }

  lemma AppendMovesQuietly(n: Node, m: Message, tally: map<nat, Tally>, h: History)
    requires m.AppendEntries? && AllTallied(n, tally)
    ensures Quiet(n, OnAppend(n, m).0, tally, h)
  {
    AppendShape(n, m);
    hide OnAppend, MessageOk;
  }

  /** An append request adds one record at most, and none of an election. */
  lemma AppendShape(n: Node, m: Message)
    requires m.AppendEntries?
    ensures var n' := OnAppend(n, m).0;
            && n'.id == n.id && n'.quorum == n.quorum && n'.epoch == n.epoch && n'.disk == n.disk && n'.sent == n.sent
            && (n'.role.Leader? ==> n' == n)
            && (n'.outstanding == n.outstanding || n'.outstanding == n.outstanding[n.nextId := AppendLog(m.requestId)])
  {
  }

  lemma TruncateQuiet(n: Node, prevTerm: nat, prevIndex: nat, tally: map<nat, Tally>, h: History)
    requires NodeInv(n, tally, h) && HistoryOk(h) && HoldsPoint(n.replica, prevTerm, prevIndex)
    ensures QuietStep(n, OnTruncate(n, prevTerm, prevIndex), tally, h)
  {
    RecordsTallied(n, tally, h);
    Truncated(n, prevTerm, prevIndex, tally, h);
    hide NodeInv;
  }

  lemma PersistQuiet(n: Node, tally: map<nat, Tally>, h: History)
    requires NodeInv(n, tally, h) && n.work != []
    ensures QuietStep(n, PersistOne(n), tally, h)
  {
    RecordsTallied(n, tally, h);
    Persisted(n, tally, h);
    hide NodeInv;
  }

  lemma AckQuiet(n: Node, id: nat, tally: map<nat, Tally>, h: History)
    requires NodeInv(n, tally, h)
    ensures QuietStep(n, OnAck(n, id), tally, h)
  {
    hide NodeInv, OnAck;
    RecordsTallied(n, tally, h);
    Acked(n, id, tally, h);
    AckShape(n, id);
  }

  /** Only the outbox grows, by sound messages, and perhaps the id counter. */
  lemma SendQuiet(n: Node, n': Node, tally: map<nat, Tally>, h: History)
    requires NodeInv(n, tally, h)
    requires n' == n.(nextId := n'.nextId, sent := n'.sent) && n'.nextId >= n.nextId
    requires forall m | m in n'.sent :: m in n.sent || MessageOk(m, h)
    ensures QuietStep(n, n', tally, h)
  {
    RecordsTallied(n, tally, h);
    Retitled(n, n', tally, h);
    hide NodeInv;
  }

  lemma OwnEntriesInHistory(n: Node, wins: Wins, h: History, e: Entry)
    requires n.role.Leader? && LeaderOk(n, wins, h) && HistoryOk(h) && e in n.replica.log
    ensures MessageOk(EntryMessage(n, e), h)
  {
    var log := n.replica.log;
    var i :| 0 <= i < |log| && log[i] == e;
    assert Sound(log, h);
    assert EntryAt(log, i) && AgreesAt(log, i, h);
    assert log[..i + 1][i] == h[e.term][..i + 1][i];
  }

  lemma BackfillQuiet(n: Node, lastTerm: nat, lastIndex: nat, tally: map<nat, Tally>, wins: Wins, h: History)
    requires NodeInv(n, tally, h) && HistoryOk(h) && n.role.Leader? && LeaderOk(n, wins, h)
    ensures QuietStep(n, OnBackfillRequest(n, lastTerm, lastIndex), tally, h)
  {
    hide NodeInv, QuietStep;
    var n' := OnBackfillRequest(n, lastTerm, lastIndex);
    forall m | m in n'.sent && m !in n.sent ensures MessageOk(m, h) {
      if m.AppendEntries? {
        var entries := AnswerTo(n.replica.log, lastTerm, lastIndex).entries;
        var e :| e in entries && m == EntryMessage(n, e);
        OwnEntriesInHistory(n, wins, h, e);
      }
    }
    SendQuiet(n, n', tally, h);
  }

  lemma MessageInFlight(c: Cluster, members: set<NodeId>, from: NodeId, m: Message)
    requires Inv(c, members) && from in c.nodes && m in c.nodes[from].sent
    ensures MessageOk(m, c.leaderLogs) && HistoryOk(c.leaderLogs)
  {
    hide NodeInv, MessageOk, HistoryOk;
    MemberInv(c, members, from);
  }

  // ---------------------------------------------------------------- ballots

  lemma BallotAnswered(ns: Procs, ts: Tallies, ballots: map<Ballot, Phase>, reply: Option<VoteReply>)
    requires Ballots(ns, ts, ballots)
    requires reply.Some? && reply.value.granted ==>
               Durable(ns, reply.value.ballot.voter, reply.value.ballot.term, reply.value.ballot.candidate)
    ensures Ballots(ns, ts, WithReply(ballots, reply))
  {
    var ballots' := WithReply(ballots, reply);
    forall b | b in ballots' ensures BallotOk(ns, ts, b, ballots'[b]) {
      assert BallotOk(ns, ts, b, ballots[b]);
    }
  }

  lemma VoteRequestQuiet(n: Node, b: Ballot, lastIndex: nat, tally: map<nat, Tally>, h: History)
    requires NodeInv(n, tally, h) && b.voter == n.id
    ensures QuietStep(n, OnVoteRequest(n, b, lastIndex).0, tally, h)
  {
    hide NodeInv, OnVoteRequest;
    RecordsTallied(n, tally, h);
    VoteRequested(n, b, lastIndex, tally, h);
    VoteRequestShape(n, b, lastIndex);
  }

  lemma VoteRequestShape(n: Node, b: Ballot, lastIndex: nat)
    ensures var n' := OnVoteRequest(n, b, lastIndex).0;
            && n'.id == n.id && n'.quorum == n.quorum && n'.epoch == n.epoch && n'.disk == n.disk && n'.sent == n.sent
            && n'.role == n.role && n'.currentTerm == n.currentTerm && n'.replica == n.replica
            && (n'.outstanding == n.outstanding || n'.outstanding == n.outstanding[n.nextId := RequestVote(b)])
  {
  }

  lemma Reballoted(c: Cluster, members: set<NodeId>, ballots: map<Ballot, Phase>)
    requires Inv(c, members) && Ballots(c.nodes, c.tallies, ballots)
    ensures Inv(c.(ballots := ballots), members)
  {
    hide Members, Elections, WinsOk, Ballots, HistoryOk, Leaders, Outboxes;
  }

  lemma BallotsOf(c: Cluster, members: set<NodeId>)
    requires Inv(c, members)
    ensures Ballots(c.nodes, c.tallies, c.ballots)
  {
    hide Members, Elections, WinsOk, Ballots, HistoryOk, Leaders, Outboxes;
  }

  lemma VoteRequestStep(c: Cluster, members: set<NodeId>, b: Ballot)
    requires Inv(c, members) && b in c.ballots && c.ballots[b].Requested? && b.voter in c.nodes
    ensures Inv(AfterVoteRequest(c, b), members)
  {
    hide Inv, NodeInv, QuietStep, OnVoteRequest;
    var v := b.voter;
    var (n', reply) := OnVoteRequest(c.nodes[v], b, c.ballots[b].lastIndex);
    MemberInv(c, members, v);
    VoteRequestQuiet(c.nodes[v], b, c.ballots[b].lastIndex, c.tallies[v], c.leaderLogs);
    VoteNeverGrantedAtOnce(c.nodes[v], b, c.ballots[b].lastIndex);
    BallotsOf(c, members);
    BallotTaken(c.nodes, c.tallies, c.ballots, b);
    BallotAnswered(c.nodes, c.tallies, c.ballots[b := AtVoter], reply);
    Reballoted(c, members, WithReply(c.ballots[b := AtVoter], reply));
    QuietMove(c.(ballots := WithReply(c.ballots[b := AtVoter], reply)), members, v, n');
  }

  lemma VoteNeverGrantedAtOnce(n: Node, b: Ballot, lastIndex: nat)
    ensures OnVoteRequest(n, b, lastIndex).1.Some? ==> !OnVoteRequest(n, b, lastIndex).1.value.granted
  {
  }

  lemma BallotTaken(ns: Procs, ts: Tallies, ballots: map<Ballot, Phase>, b: Ballot)
    requires Ballots(ns, ts, ballots) && b in ballots
    ensures Ballots(ns, ts, ballots[b := AtVoter]) && Ballots(ns, ts, ballots - {b})
  {
    forall d | d in ballots ensures BallotOk(ns, ts, d, ballots[d]) && BallotOk(ns, ts, d, AtVoter) {
    }
  }

  lemma LoseStep(c: Cluster, members: set<NodeId>, b: Ballot)
    requires Inv(c, members) && b in c.ballots
    ensures Inv(c.(ballots := c.ballots - {b}), members)
  {
    hide Inv;
    BallotsOf(c, members);
    BallotTaken(c.nodes, c.tallies, c.ballots, b);
    Reballoted(c, members, c.ballots - {b});
  }

  // ---------------------------------------------------------------- winning

  /** A candidate whose election has a quorum of durable votes takes the leadership. */
  ghost predicate CanWin(c: Cluster, members: set<NodeId>, v: NodeId, id: nat) {
    && IsElection(c.nodes, c.tallies, v, id)
    && c.nodes[v].role.Candidate?
    && |c.tallies[v][id].voters| >= QuorumSize(|members|)
    && Durable(c.nodes, v, c.tallies[v][id].term, v)
  }

  function Winner(c: Cluster, v: NodeId, id: nat): Node
    requires IsElection(c.nodes, c.tallies, v, id)
  {
    BecomeLeader(Forget(c.nodes[v], id), c.tallies[v][id].term)
  }

  lemma WinnerVoters(c: Cluster, members: set<NodeId>, v: NodeId, id: nat)
    requires Inv(c, members) && CanWin(c, members, v, id)
    ensures var t := c.tallies[v][id];
            && v in t.voters && t.voters <= members && (t.term, v) !in c.wins
            && forall u | u in t.voters :: Durable(c.nodes, u, t.term, v)
  {
    hide Members, WinsOk, Ballots, HistoryOk, Leaders, Outboxes;
    assert ElectionOk(c.nodes, c.tallies, c.wins, members, v, id);
  }

  /** No other node has won the term, so it has no history yet. */
  lemma TermIsNew(c: Cluster, members: set<NodeId>, v: NodeId, id: nat)
    requires Inv(c, members) && |members| % 2 == 1 && CanWin(c, members, v, id)
    ensures c.tallies[v][id].term !in c.leaderLogs
  {
    hide NodeInv, Ballots, HistoryOk, Leaders, Outboxes;
    WinnerVoters(c, members, v, id);
    var t := c.tallies[v][id];
    if t.term in c.leaderLogs {
      var u :| (t.term, u) in c.wins;
      assert WinOk(c.nodes, c.wins, c.leaderLogs, members, (t.term, u));
      QuorumsAgree(c.nodes, c.tallies, c.leaderLogs, members, t.term, v, t.voters, u, c.wins[(t.term, u)]);
    }
  }

  lemma WinnerInv(n: Node, tally: map<nat, Tally>, h: History, id: nat)
    requires NodeInv(n, tally, h) && n.role.Candidate? && id in n.outstanding && id in tally
    ensures NodeInv(BecomeLeader(Forget(n, id), tally[id].term), tally, h)
  {
    assert RecordOk(n, tally, id) && TallyOk(n, tally, id);
    RecordSettled(n, BecomeLeader(Forget(n, id), tally[id].term), tally, h, id);
  }

  /** The history gains a term, or grows within the term of one leader. */
  lemma MembersUnderGrowth(ns: Procs, ts: Tallies, h: History, h': History, members: set<NodeId>)
    requires Members(ns, ts, h, members) && Grows(h, h')
    ensures Members(ns, ts, h', members)
  {
    hide NodeInv;
    forall v | v in members ensures MemberOk(ns, ts, h', members, v) {
      assert MemberOk(ns, ts, h, members, v);
      NodeUnderGrowth(ns[v], ts[v], h, h');
    }
  }

  lemma MessageUnderGrowth(m: Message, h: History, h': History)
    requires MessageOk(m, h) && Grows(h, h')
    ensures MessageOk(m, h')
  {
  }

  lemma OutboxesUnderGrowth(ns: Procs, h: History, h': History)
    requires Outboxes(ns, h) && Grows(h, h')
    ensures Outboxes(ns, h')
  {
    forall v | v in ns ensures SentOk(ns[v], h') {
      assert SentOk(ns[v], h);
      forall m | m in ns[v].sent ensures MessageOk(m, h') {
        MessageUnderGrowth(m, h, h');
      }
    }
  }

  lemma ElectionsAfterWin(ns: Procs, ts: Tallies, wins: Wins, members: set<NodeId>, v: NodeId, id: nat, n': Node)
    requires Elections(ns, ts, wins, members) && IsElection(ns, ts, v, id) && ns[v].id == v && AllTallied(ns[v], ts[v])
    requires forall i, j | i in ts[v] && j in ts[v] && ts[v][i].term == ts[v][j].term :: i == j
    requires n' == BecomeLeader(Forget(ns[v], id), ts[v][id].term)
    ensures Elections(ns[v := n'], ts, wins[(ts[v][id].term, v) := ts[v][id].voters], members)
  {
    var wins' := wins[(ts[v][id].term, v) := ts[v][id].voters];
    var ns' := ns[v := n'];
    ElectionsMoved(ns, ts, wins, members, v, n');
    forall u, k | IsElection(ns', ts, u, k) ensures ElectionOk(ns', ts, wins', members, u, k) {
      assert ElectionOk(ns', ts, wins, members, u, k);
    }
  }

  lemma WinsAfterWin(ns: Procs, wins: Wins, h: History, members: set<NodeId>, v: NodeId, n': Node, w: (nat, NodeId),
                     voters: set<NodeId>, log: Log)
    requires WinsOk(ns, wins, h, members) && v in ns && KeepsVotes(ns[v], n')
    requires w.1 in voters && voters <= members && |voters| >= QuorumSize(|members|)
    requires forall u | u in voters :: Durable(ns, u, w.0, w.1)
    ensures WinsOk(ns[v := n'], wins[w := voters], h[w.0 := log], members)
  {
    var wins' := wins[w := voters];
    WinsMoved(ns, wins, h, members, v, n');
    DurableKept(ns, v, n');
    forall x | x in wins' ensures WinOk(ns[v := n'], wins', h[w.0 := log], members, x) {
      if x != w {
        assert WinOk(ns[v := n'], wins, h, members, x);
      }
    }
    var h' := h[w.0 := log];
    forall t | t in h' ensures exists u :: (t, u) in wins' {
      if t == w.0 {
        assert (w.0, w.1) in wins';
      } else {
        var u :| (t, u) in wins;
        assert (t, u) in wins';
      }
    }
  }

  lemma LeadersAfterWin(ns: Procs, wins: Wins, h: History, v: NodeId, n': Node, voters: set<NodeId>)
    requires Leaders(ns, wins, h) && v in ns && n'.id == v && n'.currentTerm !in h
    ensures Leaders(ns[v := n'], wins[(n'.currentTerm, v) := voters], h[n'.currentTerm := n'.replica.log])
  {
    forall u | u in ns && u != v
      ensures LeaderOk(ns[u], wins[(n'.currentTerm, v) := voters], h[n'.currentTerm := n'.replica.log])
    {
      assert LeaderOk(ns[u], wins, h);
    }
  }

  function AfterWin(c: Cluster, v: NodeId, id: nat): Cluster
    requires IsElection(c.nodes, c.tallies, v, id)
  {
    With(NoteWin(c, v, Winner(c, v, id), id), v, Winner(c, v, id))
  }

  lemma TermsDiffer(n: Node, tally: map<nat, Tally>, h: History)
    requires NodeInv(n, tally, h)
    ensures forall i, j | i in tally && j in tally && tally[i].term == tally[j].term :: i == j
  {
  }

  lemma WinStep(c: Cluster, members: set<NodeId>, v: NodeId, id: nat)
    requires Inv(c, members) && |members| % 2 == 1 && CanWin(c, members, v, id)
    ensures Inv(AfterWin(c, v, id), members) && Grows(c.leaderLogs, AfterWin(c, v, id).leaderLogs)
  {
    hide NodeInv, Elections, WinsOk, Ballots, HistoryOk, Leaders, Outboxes, Members, AllTallied;
    var n' := Winner(c, v, id);
    var t := c.tallies[v][id];
    var h' := c.leaderLogs[t.term := n'.replica.log];
    MemberInv(c, members, v);
    RecordsTallied(c.nodes[v], c.tallies[v], c.leaderLogs);
    TermsDiffer(c.nodes[v], c.tallies[v], c.leaderLogs);
    TermIsNew(c, members, v, id);
    WinnerVoters(c, members, v, id);
    LogSound(c.nodes[v], c.tallies[v], c.leaderLogs);
    NewTerm(n'.replica.log, t.term, c.leaderLogs, h');
    WinnerInv(c.nodes[v], c.tallies[v], c.leaderLogs, id);
    MembersMoved(c.nodes, c.tallies, c.leaderLogs, members, v, n');
    MembersUnderGrowth(c.nodes[v := n'], c.tallies, c.leaderLogs, h', members);
    ElectionsAfterWin(c.nodes, c.tallies, c.wins, members, v, id, n');
    WinsAfterWin(c.nodes, c.wins, c.leaderLogs, members, v, n', (t.term, v), t.voters, n'.replica.log);
    BallotsMoved(c.nodes, c.tallies, c.ballots, v, n');
    LeadersAfterWin(c.nodes, c.wins, c.leaderLogs, v, n', t.voters);
    OutboxesMoved(c.nodes, c.leaderLogs, v, n');
    OutboxesUnderGrowth(c.nodes[v := n'], c.leaderLogs, h');
  }

  lemma LogSound(n: Node, tally: map<nat, Tally>, h: History)
    requires NodeInv(n, tally, h)
    ensures Sound(n.replica.log, h) && CursorOk(n.replica) && RoleOk(n)
  {
    MirrorsSound(n.disk.log, n.work, n.replica.log, h);
  }

  lemma OutboxesMoved(ns: Procs, h: History, v: NodeId, n': Node)
    requires Outboxes(ns, h) && SentOk(n', h)
    ensures Outboxes(ns[v := n'], h)
  {
  }

  // ---------------------------------------------------------------- persistence events

  /** What the persistence event under a candidate's election id says. */
  lemma OwnVotePersisted(n: Node, tally: map<nat, Tally>, h: History)
    requires NodeInv(n, tally, h) && n.done != []
    requires n.done[0].id in n.outstanding && n.outstanding[n.done[0].id].CandidateElection?
    ensures var id := n.done[0].id;
            && n.done[0].VotePersisted? && id in tally
            && n.done[0].row == VoteRow(tally[id].term, n.id) && n.done[0].row in n.disk.votes
            && |tally[id].voters| == n.outstanding[id].votes
  {
    assert ResponseOk(n, tally, n.done[0]);
    assert RecordOk(n, tally, n.done[0].id);
  }

  lemma GrantIsDurable(n: Node, tally: map<nat, Tally>, h: History)
    requires NodeInv(n, tally, h) && n.done != []
    ensures var reply := HandlePersisted(n).1;
            reply.Some? ==>
              reply.value.ballot.voter == n.id
              && VoteRow(reply.value.ballot.term, reply.value.ballot.candidate) in n.disk.votes
  {
    assert ResponseOk(n, tally, n.done[0]);
    if n.done[0].id in n.outstanding {
      assert RecordOk(n, tally, n.done[0].id);
    }
  }

  lemma PersistedMovesQuietly(n: Node, tally: map<nat, Tally>, h: History)
    requires n.done != [] && AllTallied(n, tally) && !BecomesLeader(n, HandlePersisted(n).0)
    requires n.done[0].id in n.outstanding && n.outstanding[n.done[0].id].CandidateElection? ==>
               n.done[0].id in tally && VoteRow(tally[n.done[0].id].term, n.id) in n.disk.votes
    ensures Quiet(n, HandlePersisted(n).0, tally, h)
  {
  }

  lemma PersistedQuiet(n: Node, tally: map<nat, Tally>, h: History)
    requires NodeInv(n, tally, h) && n.done != [] && !BecomesLeader(n, HandlePersisted(n).0)
    ensures QuietStep(n, HandlePersisted(n).0, tally, h)
  {
    hide NodeInv, HandlePersisted, Quiet;
    RecordsTallied(n, tally, h);
    PersistenceHandled(n, tally, h);
    if n.done[0].id in n.outstanding && n.outstanding[n.done[0].id].CandidateElection? {
      OwnVotePersisted(n, tally, h);
    }
    PersistedMovesQuietly(n, tally, h);
  }

  lemma PopQuiet(n: Node, tally: map<nat, Tally>, h: History)
    requires NodeInv(n, tally, h) && n.done != []
    ensures QuietStep(n, n.(done := n.done[1..]), tally, h)
  {
    RecordsTallied(n, tally, h);
    Popped(n, tally, h);
    hide NodeInv;
  }

  lemma WinByPersistence(n: Node)
    requires n.done != [] && BecomesLeader(n, HandlePersisted(n).0)
    ensures var id := n.done[0].id;
            && id in n.outstanding && n.outstanding[id].CandidateElection? && n.outstanding[id].votes >= n.quorum
            && n.role.Candidate? && n.done[0].VotePersisted? && HandlePersisted(n).1.None?
            && HandlePersisted(n).0 == BecomeLeader(Forget(n.(done := n.done[1..]), id), n.done[0].row.term)
  {
  }

  lemma ReadPersistedWin(c: Cluster, members: set<NodeId>, v: NodeId)
    requires Inv(c, members) && |members| % 2 == 1 && v in c.nodes && v in c.tallies && c.nodes[v].done != []
    requires BecomesLeader(c.nodes[v], HandlePersisted(c.nodes[v]).0)
    ensures Inv(AfterReadPersisted(c, v), members)
    ensures Grows(c.leaderLogs, AfterReadPersisted(c, v).leaderLogs)
  {
    hide NodeInv, Inv, QuietStep, HandlePersisted;
    var n := c.nodes[v];
    var id := n.done[0].id;
    var popped := n.(done := n.done[1..]);
    MemberInv(c, members, v);
    WinByPersistence(n);
    OwnVotePersisted(n, c.tallies[v], c.leaderLogs);
    PopQuiet(n, c.tallies[v], c.leaderLogs);
    QuietMove(c, members, v, popped);
    var c1 := With(c, v, popped);
    WinStep(c1, members, v, id);
    assert c1.nodes[v := Winner(c1, v, id)] == c.nodes[v := Winner(c1, v, id)];
    assert AfterReadPersisted(c, v) == AfterWin(c1, v, id);
  }

  lemma ReadPersistedStep(c: Cluster, members: set<NodeId>, v: NodeId)
    requires Inv(c, members) && |members| % 2 == 1 && v in c.nodes && v in c.tallies && c.nodes[v].done != []
    ensures Inv(AfterReadPersisted(c, v), members)
    ensures Grows(c.leaderLogs, AfterReadPersisted(c, v).leaderLogs)
  {
    hide NodeInv, Inv, QuietStep, HandlePersisted;
    var (n', reply) := HandlePersisted(c.nodes[v]);
    if BecomesLeader(c.nodes[v], n') {
      ReadPersistedWin(c, members, v);
    } else {
      MemberInv(c, members, v);
      PersistedQuiet(c.nodes[v], c.tallies[v], c.leaderLogs);
      GrantIsDurable(c.nodes[v], c.tallies[v], c.leaderLogs);
      BallotsOf(c, members);
      BallotAnswered(c.nodes, c.tallies, c.ballots, reply);
      Reballoted(c, members, WithReply(c.ballots, reply));
      QuietMove(c.(ballots := WithReply(c.ballots, reply)), members, v, n');
    }
  }

  // ---------------------------------------------------------------- counting votes

  /** The record after one more answer, still waited for. */
  function Recounted(n: Node, id: nat, granted: bool): Node
    requires id in n.outstanding && n.outstanding[id].CandidateElection?
  {
    var o := n.outstanding[id];
    n.(outstanding := n.outstanding[id := CandidateElection(
      o.responses - 1, o.persisted, if granted then o.votes + 1 else o.votes)])
  }

  function AddVoter(tally: map<nat, Tally>, b: Ballot, granted: bool): map<nat, Tally>
    requires b.id in tally
  {
    if granted then tally[b.id := tally[b.id].(voters := tally[b.id].voters + {b.voter})] else tally
  }

  lemma RecountedInv(n: Node, tally: map<nat, Tally>, h: History, b: Ballot, granted: bool)
    requires NodeInv(n, tally, h) && b.id in n.outstanding && n.outstanding[b.id].CandidateElection?
    requires b.id in tally && b.voter !in tally[b.id].voters
    ensures NodeInv(Recounted(n, b.id, granted), AddVoter(tally, b, granted), h)
  {
    assert RecordOk(n, tally, b.id);
    var tally' := AddVoter(tally, b, granted);
    assert tally' == tally[b.id := tally'[b.id]];
    VoterCounted(n, Recounted(n, b.id, granted), tally, tally', b.id, h);
  }

  lemma MembersRetallied(ns: Procs, ts: Tallies, h: History, members: set<NodeId>, v: NodeId, n': Node,
                         tally': map<nat, Tally>)
    requires Members(ns, ts, h, members) && v in members
    requires n'.id == v && n'.quorum == QuorumSize(|members|) && NodeInv(n', tally', h)
    ensures Members(ns[v := n'], ts[v := tally'], h, members)
  {
    hide NodeInv;
    var ns', ts' := ns[v := n'], ts[v := tally'];
    forall u | u in members ensures MemberOk(ns', ts', h, members, u) {
      assert MemberOk(ns, ts, h, members, u);
    }
  }

  lemma ElectionsRecounted(ns: Procs, ts: Tallies, wins: Wins, members: set<NodeId>, v: NodeId, b: Ballot,
                           granted: bool)
    requires Elections(ns, ts, wins, members) && IsElection(ns, ts, v, b.id) && b.voter in members
    requires b.voter != v && b.term == ts[v][b.id].term
    requires granted ==> Durable(ns, b.voter, b.term, v)
    ensures Elections(ns[v := Recounted(ns[v], b.id, granted)], ts[v := AddVoter(ts[v], b, granted)], wins, members)
  {
    var ns', ts' := ns[v := Recounted(ns[v], b.id, granted)], ts[v := AddVoter(ts[v], b, granted)];
    DurableKept(ns, v, ns'[v]);
    forall u, id | IsElection(ns', ts', u, id) ensures ElectionOk(ns', ts', wins, members, u, id) {
      assert IsElection(ns, ts, u, id);
      assert ElectionOk(ns, ts, wins, members, u, id);
    }
  }

  lemma BallotsRecounted(ns: Procs, ts: Tallies, ballots: map<Ballot, Phase>, b: Ballot, granted: bool)
    requires Ballots(ns, ts, ballots) && b in ballots && IsElection(ns, ts, b.candidate, b.id)
    requires b.epoch == ns[b.candidate].epoch
    ensures var v := b.candidate;
            Ballots(ns[v := Recounted(ns[v], b.id, granted)], ts[v := AddVoter(ts[v], b, granted)], ballots - {b})
  {
    var v := b.candidate;
    var ns', ts' := ns[v := Recounted(ns[v], b.id, granted)], ts[v := AddVoter(ts[v], b, granted)];
    var ballots' := ballots - {b};
    assert BallotOk(ns, ts, b, ballots[b]);
    forall d | d in ballots' ensures BallotOk(ns', ts', d, ballots'[d]) {
      assert BallotOk(ns, ts, d, ballots[d]);
    }
  }

  /** The answer is read and counted, before its consequences are drawn. */
  function Counted(c: Cluster, b: Ballot): Cluster
    requires b in c.ballots && c.ballots[b].Answered? && IsElection(c.nodes, c.tallies, b.candidate, b.id)
  {
    var v := b.candidate;
    var granted := c.ballots[b].granted;
    c.(nodes := c.nodes[v := Recounted(c.nodes[v], b.id, granted)],
       tallies := c.tallies[v := AddVoter(c.tallies[v], b, granted)],
       ballots := c.ballots - {b})
  }

  lemma BallotFacts(c: Cluster, members: set<NodeId>, b: Ballot)
    requires Inv(c, members) && b in c.ballots
    ensures BallotOk(c.nodes, c.tallies, b, c.ballots[b])
  {
    hide Members, Elections, WinsOk, HistoryOk, Leaders, Outboxes;
  }

  lemma CountStep(c: Cluster, members: set<NodeId>, b: Ballot)
    requires Inv(c, members) && b in c.ballots && c.ballots[b].Answered?
    requires IsElection(c.nodes, c.tallies, b.candidate, b.id) && c.nodes[b.candidate].epoch == b.epoch
    ensures Inv(Counted(c, b), members)
  {
    hide NodeInv, Elections, WinsOk, Ballots, HistoryOk, Leaders, Outboxes, Members;
    var v := b.candidate;
    var granted := c.ballots[b].granted;
    var n' := Recounted(c.nodes[v], b.id, granted);
    MemberInv(c, members, v);
    BallotFacts(c, members, b);
    MemberInv(c, members, b.voter);
    RecountedInv(c.nodes[v], c.tallies[v], c.leaderLogs, b, granted);
    MembersRetallied(c.nodes, c.tallies, c.leaderLogs, members, v, n', AddVoter(c.tallies[v], b, granted));
    ElectionsRecounted(c.nodes, c.tallies, c.wins, members, v, b, granted);
    WinsMoved(c.nodes, c.wins, c.leaderLogs, members, v, n');
    BallotsRecounted(c.nodes, c.tallies, c.ballots, b, granted);
    LeadersKept(c.nodes, c.wins, c.leaderLogs, v, n');
    OutboxesMoved(c.nodes, c.leaderLogs, v, n');
  }

  lemma LeadersKept(ns: Procs, wins: Wins, h: History, v: NodeId, n': Node)
    requires Leaders(ns, wins, h) && LeaderOk(n', wins, h)
    ensures Leaders(ns[v := n'], wins, h)
  {
  }
}
