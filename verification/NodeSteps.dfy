/** Every handler keeps the node invariant. */
module NodeSteps {
  import opened Logs
  import opened Nodes
  import opened TermBlocks
  import opened Cluster
  import opened NodeInvariant

  /** The record is removed, or replaced by one of its kind with the same votes. */
  predicate Settles(n: Node, n': Node, id: nat)
    requires id in n.outstanding
  {
    || n'.outstanding == n.outstanding - {id}
    || (id in n'.outstanding && n'.outstanding == n.outstanding[id := n'.outstanding[id]]
        && SameKind(n.outstanding[id], n'.outstanding[id])
        && (n.outstanding[id].CandidateElection? ==> n'.outstanding[id].votes == n.outstanding[id].votes))
  }

  lemma InvRole(n: Node, tally: map<nat, Tally>, h: History)
    requires NodeInv(n, tally, h)
    ensures RoleOk(n)
  {
  }

  lemma RecordSettled(n: Node, n': Node, tally: map<nat, Tally>, h: History, id: nat)
    requires NodeInv(n, tally, h) && SameStore(n, n') && n'.done == n.done && n'.nextId == n.nextId
    requires id in n.outstanding && RoleOk(n') && Settles(n, n', id)
    ensures NodeInv(n', tally, h)
  {
    forall k | k in n'.outstanding ensures RecordOk(n', tally, k) {
      assert RecordOk(n, tally, k);
    }
    KeptStore(n, n', tally, h);
  }

  lemma Timeout(n: Node, tally: map<nat, Tally>, h: History)
    requires NodeInv(n, tally, h)
    ensures NodeInv(n.(role := Candidate), tally, h)
  {
    var n' := n.(role := Candidate);
    forall id | id in n'.outstanding ensures RecordOk(n', tally, id) {
      assert RecordOk(n, tally, id);
    }
    KeptStore(n, n', tally, h);
  }

  /** Terms, ids, the role below leader, the commit index and the outbox may move freely. */
  lemma Retitled(n: Node, n': Node, tally: map<nat, Tally>, h: History)
    requires NodeInv(n, tally, h) && SameStore(n, n') && n'.done == n.done
    requires n'.outstanding == n.outstanding && RoleOk(n')
    ensures NodeInv(n', tally, h)
  {
    forall id | id in n'.outstanding ensures RecordOk(n', tally, id) {
      assert RecordOk(n, tally, id);
    }
    KeptStore(n, n', tally, h);
  }

  // ---------------------------------------------------------------- appending and truncating

  /** A new record under the next id, with the task it waits for. */
  lemma TaskQueued(n: Node, n': Node, tally: map<nat, Tally>, task: Task)
    requires QueuesOk(n, tally) && n'.id == n.id
    requires n'.nextId == n.nextId + 1 && n'.disk == n.disk && n'.done == n.done
    requires n.nextId in n'.outstanding && n'.outstanding == n.outstanding[n.nextId := n'.outstanding[n.nextId]]
    requires n'.work == n.work + [task] && TaskOk(n', tally, task)
    ensures QueuesOk(n', tally)
  {
    forall id | id in n'.outstanding && id < n.nextId ensures id in n.outstanding {
      assert id != n.nextId;
    }
    TasksKept(n, n', tally);
  }

  lemma RecordAdded(n: Node, n': Node, tally: map<nat, Tally>)
    requires IdsOk(n, tally) && n'.id == n.id && n'.nextId == n.nextId + 1
    requires n.nextId in n'.outstanding && n'.outstanding == n.outstanding[n.nextId := n'.outstanding[n.nextId]]
    requires RecordOk(n', tally, n.nextId)
    requires forall t | t in n.votes :: t in n'.votes && n'.votes[t] == n.votes[t]
    ensures IdsOk(n', tally)
  {
    forall id | id in n'.outstanding ensures RecordOk(n', tally, id) {
      if id != n.nextId {
        assert RecordOk(n, tally, id);
      }
    }
    forall id | id in tally ensures TallyOk(n', tally, id) {
      assert TallyOk(n, tally, id);
    }
  }

  /** A log that grows by an entry, in memory and as a task, under a fresh record. */
  lemma EntryStored(n: Node, n': Node, tally: map<nat, Tally>, e: Entry, h: History)
    requires NodeInv(n, tally, h) && Sound(n.replica.log + [e], h)
    requires n'.id == n.id && n'.nextId == n.nextId + 1 && n'.disk == n.disk && n'.done == n.done && n'.votes == n.votes
    requires n'.replica.log == n.replica.log + [e] && CursorOk(n'.replica)
    requires n'.replica.termStarts == TermStarts(n'.replica.log)
    requires n'.work == n.work + [AppendEntry(n.nextId, e)]
    requires n.nextId in n'.outstanding && n'.outstanding == n.outstanding[n.nextId := n'.outstanding[n.nextId]]
    requires n'.outstanding[n.nextId].AppendLog? || n'.outstanding[n.nextId].Proposal?
    requires EntryMatched(n', n.nextId, e) && RoleOk(n')
    ensures NodeInv(n', tally, h)
  {
    var task := AppendEntry(n.nextId, e);
    MirrorsQueue(n.disk.log, n.work, n.replica.log, task, h);
    TaskQueued(n, n', tally, task);
    RecordAdded(n, n', tally);
  }

  lemma Applied(n: Node, m: Message, tally: map<nat, Tally>, h: History)
    requires NodeInv(n, tally, h) && HistoryOk(h) && !n.role.Leader?
    requires m.AppendEntries? && MessageOk(m, h) && Consecutive(n.replica, m.prevIndex, m.prevTerm)
    ensures NodeInv(ApplyEntry(n, m).0, tally, h)
  {
    var n' := ApplyEntry(n, m).0;
    if m.entry.None? {
      Retitled(n, n', tally, h);
    } else {
      MirrorsSound(n.disk.log, n.work, n.replica.log, h);
      ConsecutiveEntry(n.replica.log, m.entry.value, h);
      PushKeepsStarts(n.replica, m.entry.value);
      EntryStored(n, n', tally, m.entry.value, h);
    }
  }

  /** An entry in a message was created by the leader of its term, and the message repeats
      the entry's own previous index and term, under an id that no heartbeat has. */
  predicate MessageOk(m: Message, h: History) {
    m.AppendEntries? && m.entry.Some? ==>
      var e := m.entry.value;
      InHistory(e, h) && m.prevIndex == e.prevIndex && m.prevTerm == e.prevTerm && m.requestId == e.messageId
  }

  lemma FollowerAppended(n: Node, m: Message, tally: map<nat, Tally>, h: History)
    requires NodeInv(n, tally, h) && HistoryOk(h) && m.AppendEntries? && MessageOk(m, h) && n.role.Follower?
    ensures NodeInv(FollowerAppend(n, m).0, tally, h)
  {
    hide NodeInv, HistoryOk, MessageOk, FollowerAppend, ApplyEntry;
    FollowerShape(n, m);
    InvRole(n, tally, h);
    var n' := FollowerAppend(n, m).0;
    var n1 := Recognised(n, m);
    if n' == ApplyEntry(n1, m).0 && Consecutive(n.replica, m.prevIndex, m.prevTerm) {
      Retitled(n, n1, tally, h);
      Applied(n1, m, tally, h);
    } else {
      Retitled(n, n', tally, h);
    }
  }

  function Recognised(n: Node, m: Message): Node
    requires m.AppendEntries?
  {
    if m.term > n.currentTerm then Recognise(n, m) else n
  }

  /** A follower recognises the leader at most, and stores a consecutive entry or takes over
      the commit index. */
  lemma FollowerShape(n: Node, m: Message)
    requires m.AppendEntries?
    ensures var n', n1 := FollowerAppend(n, m).0, Recognised(n, m);
            || (n' == ApplyEntry(n1, m).0 && Consecutive(n.replica, m.prevIndex, m.prevTerm))
            || n' == n1
            || n' == n1.(commitIndex := m.commit)
  {
  }

  lemma Appended(n: Node, m: Message, tally: map<nat, Tally>, h: History)
    requires NodeInv(n, tally, h) && HistoryOk(h) && m.AppendEntries? && MessageOk(m, h)
    ensures NodeInv(OnAppend(n, m).0, tally, h)
  {
    if n.role.Follower? {
      FollowerAppended(n, m, tally, h);
    } else {
      Retitled(n, OnAppend(n, m).0, tally, h);
    }
  }

  lemma Truncated(n: Node, prevTerm: nat, prevIndex: nat, tally: map<nat, Tally>, h: History)
    requires NodeInv(n, tally, h) && HistoryOk(h) && HoldsPoint(n.replica, prevTerm, prevIndex)
    ensures NodeInv(OnTruncate(n, prevTerm, prevIndex), tally, h)
  {
    var n' := OnTruncate(n, prevTerm, prevIndex);
    if n' != n {
      var task := TruncateTo(prevIndex + 1);
      MirrorsSound(n.disk.log, n.work, n.replica.log, h);
      assert EntryAt(n.replica.log, prevIndex);
      PrefixSound(n.replica.log, prevIndex + 1, h);
      CutKeepsStarts(n.replica, prevTerm, prevIndex, h);
      MirrorsQueue(n.disk.log, n.work, n.replica.log, task, h);
      TasksKept(n, n', tally);
      forall id | id in n'.outstanding ensures RecordOk(n', tally, id) {
        assert RecordOk(n, tally, id);
      }
      forall id | id in tally ensures TallyOk(n', tally, id) {
        assert TallyOk(n, tally, id);
      }
    }
  }

  // ---------------------------------------------------------------- persistence

  lemma PersistedQueues(n: Node, tally: map<nat, Tally>)
    requires QueuesOk(n, tally) && n.work != []
    ensures QueuesOk(PersistOne(n), tally)
  {
    var n' := PersistOne(n);
    forall k | 0 <= k < |n'.work| ensures TaskOk(n', tally, n'.work[k]) {
      assert TaskOk(n, tally, n.work[k + 1]);
    }
    forall k | 0 <= k < |n'.done| ensures ResponseOk(n', tally, n'.done[k]) {
      if k < |n.done| {
        assert ResponseOk(n, tally, n.done[k]);
      } else {
        assert TaskOk(n, tally, n.work[0]);
      }
    }
  }

  lemma Persisted(n: Node, tally: map<nat, Tally>, h: History)
    requires NodeInv(n, tally, h) && n.work != []
    ensures NodeInv(PersistOne(n), tally, h)
    ensures forall row | row in n.disk.votes :: row in PersistOne(n).disk.votes
  {
    var n' := PersistOne(n);
    PersistedQueues(n, tally);
    assert forall k | 0 <= k < |n'.work| :: n'.work[k] == n.work[k + 1];
    forall id | id in n'.outstanding ensures RecordOk(n', tally, id) {
      assert RecordOk(n, tally, id);
    }
    forall id | id in tally ensures TallyOk(n', tally, id) {
      assert TallyOk(n, tally, id);
    }
  }

  lemma Popped(n: Node, tally: map<nat, Tally>, h: History)
    requires NodeInv(n, tally, h) && n.done != []
    ensures NodeInv(n.(done := n.done[1..]), tally, h)
  {
    var n' := n.(done := n.done[1..]);
    TasksKept(n, n', tally);
    assert forall k | 0 <= k < |n'.done| :: n'.done[k] == n.done[k + 1];
    forall id | id in n'.outstanding ensures RecordOk(n', tally, id) {
      assert RecordOk(n, tally, id);
    }
    forall id | id in tally ensures TallyOk(n', tally, id) {
      assert TallyOk(n, tally, id);
    }
  }

  lemma PersistenceHandled(n: Node, tally: map<nat, Tally>, h: History)
    requires NodeInv(n, tally, h) && n.done != []
    ensures NodeInv(HandlePersisted(n).0, tally, h)
  {
    hide HandlePersisted, NodeInv;
    var popped := n.(done := n.done[1..]);
    var id := n.done[0].id;
    Popped(n, tally, h);
    ReportShape(n);
    if id in n.outstanding {
      InvRole(n, tally, h);
      if BecomesLeader(n, HandlePersisted(n).0) {
        ReportedTerm(n, tally, h);
      }
      RecordSettled(popped, HandlePersisted(n).0, tally, h, id);
    }
  }

  predicate BecomesLeader(n: Node, n': Node) {
    n'.role.Leader? && !n.role.Leader?
  }

  /** A report settles its record at most; only the report of an own vote may win. */
  lemma ReportShape(n: Node)
    requires n.done != []
    ensures var n', id := HandlePersisted(n).0, n.done[0].id;
            && n' == n.(role := n'.role, currentTerm := n'.currentTerm, leaderId := n'.leaderId,
                        commitIndex := n'.commitIndex, outstanding := n'.outstanding, done := n.done[1..])
            && (if id in n.outstanding then Settles(n, n', id) else n'.outstanding == n.outstanding)
            && (if BecomesLeader(n, n')
                then && n'.role == Leader(false) && n.done[0].VotePersisted? && n'.currentTerm == n.done[0].row.term
                     && id in n.outstanding && n.outstanding[id].CandidateElection?
                else n'.role == n.role && n'.currentTerm == n.currentTerm)
            && (id !in n.outstanding ==> n' == n.(done := n.done[1..]))
  {
  }

  lemma ReportedTerm(n: Node, tally: map<nat, Tally>, h: History)
    requires NodeInv(n, tally, h) && n.done != [] && n.done[0].VotePersisted?
    requires n.done[0].id in n.outstanding && n.outstanding[n.done[0].id].CandidateElection?
    ensures n.done[0].row.term >= 1 && n.nextId >= 1
  {
    var id := n.done[0].id;
    assert ResponseOk(n, tally, n.done[0]);
    assert RecordOk(n, tally, id);
    assert TallyOk(n, tally, id);
  }

  lemma Acked(n: Node, id: nat, tally: map<nat, Tally>, h: History)
    requires NodeInv(n, tally, h)
    ensures NodeInv(OnAck(n, id), tally, h)
  {
    hide OnAck, NodeInv;
    AckShape(n, id);
    InvRole(n, tally, h);
    if n.role.Leader? && id in n.outstanding {
      RecordSettled(n, OnAck(n, id), tally, h, id);
    }
  }

  /** An acknowledgement settles its record at most, and then the record of no election is
      left changed. */
  lemma AckShape(n: Node, id: nat)
    ensures var n' := OnAck(n, id);
            && n' == n.(commitIndex := n'.commitIndex, outstanding := n'.outstanding)
            && (if n.role.Leader? && id in n.outstanding
                then Settles(n, n', id) && (id in n'.outstanding ==> n'.outstanding[id].Proposal?)
                else n' == n)
  {
  }

  // ---------------------------------------------------------------- voting

  /** A vote given to a term without one, queued for the disk under a fresh record. */
  lemma VoteCast(n: Node, n': Node, tally: map<nat, Tally>, row: VoteRow, h: History)
    requires NodeInv(n, tally, h) && row.term !in n.votes
    requires n'.votes == n.votes[row.term := row.candidate]
    requires n'.disk == n.disk && n'.work == n.work + [AppendVote(n.nextId, row)] && n'.replica == n.replica
    ensures Mirrors(n'.disk.log, n'.work, n'.replica.log, h) && VotesOk(n')
  {
    MirrorsSound(n.disk.log, n.work, n.replica.log, h);
    MirrorsQueue(n.disk.log, n.work, n.replica.log, AppendVote(n.nextId, row), h);
  }

  lemma VoteAccepted(n: Node, b: Ballot, lastIndex: nat, tally: map<nat, Tally>, h: History)
    requires NodeInv(n, tally, h) && b.voter == n.id && n.nextTerm > b.term
    requires ShouldAcceptVote(n, b.term, lastIndex)
    ensures NodeInv(OnVoteRequest(n, b, lastIndex).0, tally, h)
  {
    var n' := OnVoteRequest(n, b, lastIndex).0;
    RecordAdded(n, n', tally);
    if n.role.Follower? {
      TasksKept(n, n', tally);
    } else {
      var row := VoteRow(b.term, b.candidate);
      TaskQueued(n, n', tally, AppendVote(n.nextId, row));
      VoteCast(n, n', tally, row, h);
    }
  }

  lemma VoteRequested(n: Node, b: Ballot, lastIndex: nat, tally: map<nat, Tally>, h: History)
    requires NodeInv(n, tally, h) && b.voter == n.id
    ensures NodeInv(OnVoteRequest(n, b, lastIndex).0, tally, h)
  {
    var raised := if n.nextTerm <= b.term then n.(nextTerm := b.term + 1) else n;
    Retitled(n, raised, tally, h);
    assert OnVoteRequest(n, b, lastIndex).0 == OnVoteRequest(raised, b, lastIndex).0;
    if ShouldAcceptVote(raised, b.term, lastIndex) {
      VoteAccepted(raised, b, lastIndex, tally, h);
    }
  }

  lemma ElectionStarted(n: Node, tally: map<nat, Tally>, h: History)
    requires NodeInv(n, tally, h) && n.nextTerm !in n.votes
    ensures NodeInv(StartElection(n), tally[n.nextId := Tally(n.nextTerm, {n.id})], h)
  {
    var n' := StartElection(n);
    var tally' := tally[n.nextId := Tally(n.nextTerm, {n.id})];
    var task := AppendVote(n.nextId, VoteRow(n.nextTerm, n.id));
    forall id | id in tally ensures id != n.nextId {
      assert TallyOk(n, tally, id);
    }
    TallyExtended(n, tally, tally');
    ElectionRecorded(n, tally, tally');
    TaskQueued(n, n', tally', task);
    VoteCast(n, n', tally, task.row, h);
  }

  /** A tally that changes only in voters, or gains an election under a fresh id. */
  predicate TallyFits(tally: map<nat, Tally>, tally': map<nat, Tally>) {
    forall id | id in tally :: id in tally' && tally'[id].term == tally[id].term
  }

  lemma TallyExtended(n: Node, tally: map<nat, Tally>, tally': map<nat, Tally>)
    requires QueuesOk(n, tally) && TallyFits(tally, tally')
    ensures QueuesOk(n, tally')
  {
    forall k | 0 <= k < |n.work| ensures TaskOk(n, tally', n.work[k]) {
      assert TaskOk(n, tally, n.work[k]);
    }
    forall k | 0 <= k < |n.done| ensures ResponseOk(n, tally', n.done[k]) {
      assert ResponseOk(n, tally, n.done[k]);
    }
  }

  lemma ElectionRecorded(n: Node, tally: map<nat, Tally>, tally': map<nat, Tally>)
    requires IdsOk(n, tally) && n.nextTerm >= 1 && n.nextTerm !in n.votes
    requires tally' == tally[n.nextId := Tally(n.nextTerm, {n.id})]
    ensures IdsOk(StartElection(n), tally')
  {
    var n' := StartElection(n);
    forall id | id in n'.outstanding ensures RecordOk(n', tally', id) {
      if id != n.nextId {
        assert RecordOk(n, tally, id);
      }
    }
    forall id | id in tally' ensures TallyOk(n', tally', id) {
      if id != n.nextId {
        assert TallyOk(n, tally, id);
      }
    }
    forall i, j | i in tally' && j in tally' && tally'[i].term == tally'[j].term ensures i == j {
      if i in tally && i != n.nextId { assert TallyOk(n, tally, i); }
      if j in tally && j != n.nextId { assert TallyOk(n, tally, j); }
    }
  }

  /** One more voter is counted for an election, or none. */
  lemma VoterCounted(n: Node, n': Node, tally: map<nat, Tally>, tally': map<nat, Tally>, id: nat, h: History)
    requires NodeInv(n, tally, h) && SameStore(n, n') && n'.done == n.done && n'.nextId == n.nextId && RoleOk(n')
    requires id in n.outstanding && n.outstanding[id].CandidateElection?
    requires id in tally && id in tally' && tally' == tally[id := tally'[id]] && tally'[id].term == tally[id].term
    requires || n'.outstanding == n.outstanding - {id}
             || (id in n'.outstanding && n'.outstanding == n.outstanding[id := n'.outstanding[id]]
                 && n'.outstanding[id].CandidateElection? && n'.outstanding[id].votes == |tally'[id].voters|)
    ensures NodeInv(n', tally', h)
  {
    TallyExtended(n, tally, tally');
    TasksKept(n, n', tally');
    forall k | k in n'.outstanding ensures RecordOk(n', tally', k) {
      assert RecordOk(n, tally, k);
    }
    forall k | k in tally' ensures TallyOk(n', tally', k) {
      assert TallyOk(n, tally, k);
    }
  }

  // ---------------------------------------------------------------- leading

  lemma Proposed(n: Node, timestamp: nat, commands: seq<Command>, client: bool, tally: map<nat, Tally>, h: History,
                 h': History)
    requires NodeInv(n, tally, h) && HistoryOk(h) && n.role.Leader?
    requires n.replica.nextIndex == |n.replica.log| && (n.replica.log == [] ==> commands == [])
    requires n.currentTerm in h && h[n.currentTerm] == n.replica.log
    requires h' == h[n.currentTerm := Propose(n, timestamp, commands, client).replica.log]
    ensures NodeInv(Propose(n, timestamp, commands, client), tally, h')
    ensures Grows(h, h') && HistoryOk(h')
  {
    var e := NewEntry(n, n.replica.nextIndex, n.nextId, timestamp, commands);
    MirrorsSound(n.disk.log, n.work, n.replica.log, h);
    CursorOfWellFormed(n.replica.log);
    ChainedEntry(n.replica.log, e);
    LeaderExtends(n.replica.log, e, h, h');
    PushKeepsStarts(n.replica, e);
    NodeUnderGrowth(n, tally, h, h');
    EntryStored(n, Propose(n, timestamp, commands, client), tally, e, h');
  }

  lemma LeadershipInitialized(n: Node, timestamp: nat, tally: map<nat, Tally>, h: History, h': History)
    requires NodeInv(n, tally, h) && HistoryOk(h) && n.role == Leader(false)
    requires n.currentTerm in h && h[n.currentTerm] == n.replica.log
    requires h' == h[n.currentTerm := InitializeLeadership(n, timestamp).replica.log]
    ensures NodeInv(InitializeLeadership(n, timestamp), tally, h')
    ensures Grows(h, h') && HistoryOk(h')
  {
    var ready := n.(nextId := n.nextId + 1, replica := n.replica.(nextIndex := |n.replica.log|));
    var proposed := Propose(ready, timestamp, [], false);
    var led := InitializeLeadership(n, timestamp);
    assert led == proposed.(role := Leader(true));
    assert led.replica.log != [] && led.replica.nextIndex == |led.replica.log|;
    assert RoleOk(n) && RoleOk(ready);
    hide NodeInv, Propose, InitializeLeadership, HistoryOk;
    Retitled(n, ready, tally, h);
    Proposed(ready, timestamp, [], false, tally, h, h');
    Retitled(proposed, led, tally, h');
  }

  lemma NodeUnderGrowth(n: Node, tally: map<nat, Tally>, h: History, h': History)
    requires NodeInv(n, tally, h) && Grows(h, h')
    ensures NodeInv(n, tally, h')
  {
    MirrorsUnderGrowth(n.disk.log, n.work, n.replica.log, h, h');
  }

  // ---------------------------------------------------------------- restarting

  lemma {:induction false} RowsHonoured(rows: seq<VoteRow>, votes: map<nat, NodeId>)
    requires forall row | row in rows :: Honours(votes, row)
    ensures forall row | row in rows :: Honours(VotesOf(rows), row)
  {
    if rows != [] {
      var n := |rows| - 1;
      RowsHonoured(rows[..n], votes);
      forall row | row in rows ensures Honours(VotesOf(rows), row) {
        assert Honours(votes, row) && Honours(votes, rows[n]);
        if row != rows[n] {
          assert row in rows[..n];
        }
      }
    }
  }

  lemma RestartedNode(n: Node, tally: map<nat, Tally>, h: History)
    requires NodeInv(n, tally, h)
    ensures NodeInv(Restarted(n), map[], h)
  {
    RowsHonoured(n.disk.votes, n.votes);
  }
}
