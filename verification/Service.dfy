/** What the shared state keeps over any sequence of requests and time steps, seen from one node
    and without any knowledge of the others. */
module Service {
  import opened Logs
  import opened Nodes
  import opened Repair
  import opened Cluster
  import opened NodeInvariant
  import opened MessageIds
  import opened Handlers
  import opened TimeSteps

  // ---------------------------------------------------------------- the invariant

  /** Votes are for terms from 1 on. */
  predicate TermsPositive(n: Node) {
    && n.nextTerm >= 1
    && (forall k | 0 <= k < |n.work| && n.work[k].AppendVote? :: n.work[k].row.term >= 1)
    && (forall k | 0 <= k < |n.done| && n.done[k].VotePersisted? :: n.done[k].row.term >= 1)
  }

  predicate LeaderReady(n: Node) {
    && (n.role.Leader? ==> n.currentTerm >= 1 && n.nextId >= 1)
    && (n.role == Leader(true) ==> n.replica.log != [] && n.replica.nextIndex == |n.replica.log|)
  }

  /** The log is well-formed and the cursor is its end, memory mirrors disk, and message ids
      and votes are in order. */
  predicate Sane(n: Node) {
    && Tracks(n.disk.log, n.work, n.replica.log) && CursorOk(n.replica)
    && IdsInOrder(n) && TermsPositive(n) && LeaderReady(n)
  }

  // ---------------------------------------------------------------- requests

  /** The entry of a message names its own place, as every entry of a well-formed log does. */
  predicate Shaped(m: Message) {
    m.AppendEntries? &&
    (m.entry.Some? ==>
       var e := m.entry.value;
       && m.prevIndex == e.prevIndex && m.prevTerm == e.prevTerm && e.term >= 1 && e.messageId >= 1
       && e.index == (if e.prevTerm == 0 then 0 else e.prevIndex + 1)
       && (e.prevTerm == 0 ==> e.prevIndex == 0 && e.commands == []))
  }

  /** What a node with a well-formed log sends is shaped so. */
  lemma SentShaped(n: Node, i: nat)
    requires WellFormed(n.replica.log) && i < |n.replica.log|
    ensures Shaped(EntryMessage(n, n.replica.log[i]))
  {
    assert EntryAt(n.replica.log, i);
    if i > 0 {
      assert EntryAt(n.replica.log, i - 1);
    }
  }

  datatype Request =
    | Append(message: Message)
    | Vote(ballot: Ballot, lastIndex: nat)
    | Write(timestamp: nat, commands: seq<Command>)
    | PersistTask
    | Tick(responses: seq<QuorumResponse>, timestamp: nat, timedOut: bool)

  predicate TermsNamed(inbox: seq<QuorumResponse>) {
    forall k | 0 <= k < |inbox| && inbox[k].VoteResponse? :: inbox[k].term >= 1
  }

  /** The premises of one request, at its turn. */
  predicate Admissible(n: Node, queued: seq<QuorumResponse>, r: Request) {
    match r
    case Append(m) => Shaped(m)
    case Vote(_, _) => true
    case Write(_, _) => n.role.Leader? ==> n.role.initialized
    case PersistTask => n.work != []
    case Tick(responses, timestamp, _) =>
      var n0 := Initialized(n, timestamp);
      var read := Drained(n0).0;
      TermsNamed(queued + responses) && (read.role == n0.role ==> Held(read, queued + responses))
  }

  /** The node and its queued responses after one request. */
  function Served(n: Node, queued: seq<QuorumResponse>, r: Request): (Node, seq<QuorumResponse>)
    requires Admissible(n, queued, r)
  {
    match r
    case Append(m) => (OnAppend(n, m).0, queued)
    case Vote(b, lastIndex) => (OnVoteRequest(n, b, lastIndex).0, queued)
    case Write(timestamp, commands) => (if n.role.Leader? then WriteBatch(n, timestamp, commands) else n, queued)
    case PersistTask => (PersistOne(n), queued)
    case Tick(responses, timestamp, timedOut) =>
      var outcome := TimeStepped(n, queued + responses, timestamp, timedOut);
      (outcome.node, outcome.rest)
  }

  // ---------------------------------------------------------------- every handler keeps it

  /** Log, files and queued tasks are untouched. */
  lemma Retitles(n: Node, n': Node)
    requires Sane(n) && n'.replica.log == n.replica.log && CursorOk(n'.replica) && n'.work == n.work
    requires n'.disk == n.disk
    requires IdsInOrder(n') && n'.nextTerm >= 1 && LeaderReady(n')
    requires forall k | 0 <= k < |n'.done| :: n'.done[k] in n.done
    ensures Sane(n')
  {
  }

  lemma StoresEntry(n: Node, n': Node, id: nat, e: Entry)
    requires Sane(n) && e.index == |n.replica.log| && e.term >= 1 && e.messageId >= 1
    requires e.prevIndex == LastIndex(n.replica.log) && e.prevTerm == LastTerm(n.replica.log)
    requires n.replica.log == [] ==> e.commands == []
    requires n'.replica.log == n.replica.log + [e] && n'.replica.lastIndex == e.index && n'.replica.lastTerm == e.term
    requires n'.work == n.work + [AppendEntry(id, e)] && n'.disk == n.disk && n'.done == n.done
    requires IdsInOrder(n') && n'.nextTerm >= 1 && LeaderReady(n')
    ensures Sane(n')
  {
    TracksWellFormed(n.disk.log, n.work, n.replica.log);
    ChainedEntry(n.replica.log, e);
    TracksQueue(n.disk.log, n.work, n.replica.log, AppendEntry(id, e));
  }

  lemma AppendSane(n: Node, m: Message)
    requires Sane(n) && Shaped(m)
    ensures Sane(OnAppend(n, m).0)
  {
    var n' := OnAppend(n, m).0;
    AppendInOrder(n, m);
    AppendMoves(n, m);
    TracksWellFormed(n.disk.log, n.work, n.replica.log);
    CursorOfWellFormed(n.replica.log);
    hide OnAppend, IdsInOrder, Tracks, WellFormed;
    if n'.work == n.work {
      Retitles(n, n');
    } else {
      StoresEntry(n, n', n.nextId, m.entry.value);
    }
  }

  lemma AppendMoves(n: Node, m: Message)
    requires m.AppendEntries? && n.nextTerm >= 1 && LeaderReady(n)
    ensures var n' := OnAppend(n, m).0;
            && n'.disk == n.disk && n'.done == n.done && n'.nextTerm >= 1 && LeaderReady(n')
            && if n'.work == n.work then n'.replica == n.replica
               else
                 && m.entry.Some? && Consecutive(n.replica, m.prevIndex, m.prevTerm)
                 && n'.work == n.work + [AppendEntry(n.nextId, m.entry.value)]
                 && n'.replica == Push(n.replica, m.entry.value)
  {
  }

  lemma VoteQueues(n: Node, n': Node, id: nat, row: VoteRow)
    requires Sane(n) && row.term >= 1 && n'.replica == n.replica && n'.disk == n.disk && n'.done == n.done
    requires n'.work == n.work + [AppendVote(id, row)]
    requires IdsInOrder(n') && n'.nextTerm >= 1 && LeaderReady(n')
    ensures Sane(n')
  {
    TracksWellFormed(n.disk.log, n.work, n.replica.log);
    TracksQueue(n.disk.log, n.work, n.replica.log, AppendVote(id, row));
  }

  lemma VoteSane(n: Node, b: Ballot, lastIndex: nat)
    requires Sane(n)
    ensures Sane(OnVoteRequest(n, b, lastIndex).0)
  {
    hide OnVoteRequest, IdsInOrder, Tracks;
    var n' := OnVoteRequest(n, b, lastIndex).0;
    VoteRequestInOrder(n, b, lastIndex);
    VoteMoves(n, b, lastIndex);
    if n'.work == n.work {
      Retitles(n, n');
    } else {
      VoteQueues(n, n', n.nextId, VoteRow(b.term, b.candidate));
    }
  }

  lemma VoteMoves(n: Node, b: Ballot, lastIndex: nat)
    requires LeaderReady(n)
    ensures var n' := OnVoteRequest(n, b, lastIndex).0;
            && n'.replica == n.replica && n'.disk == n.disk && n'.done == n.done && n'.nextTerm >= n.nextTerm
            && LeaderReady(n')
            && (n'.work == n.work ||
                (b.term >= 1 && n'.work == n.work + [AppendVote(n.nextId, VoteRow(b.term, b.candidate))]))
  {
  }

  lemma ElectionSane(n: Node)
    requires Sane(n) && n.role.Candidate?
    ensures Sane(StartElection(n))
  {
    hide IdsInOrder, Tracks;
    ElectionInOrder(n);
    VoteQueues(n, StartElection(n), n.nextId, VoteRow(n.nextTerm, n.id));
  }

  lemma WriteSane(n: Node, timestamp: nat, commands: seq<Command>)
    requires Sane(n) && n.role == Leader(true)
    ensures Sane(WriteBatch(n, timestamp, commands))
  {
    hide IdsInOrder, WellFormed;
    var n' := WriteBatch(n, timestamp, commands);
    LeadingInOrder(n, timestamp, commands);
    if commands == [] {
      Retitles(n, n');
    } else {
      StoresEntry(n, n', n.nextId, NewEntry(n, n.replica.nextIndex, n.nextId, timestamp, commands));
    }
  }

  lemma InitializeSane(n: Node, timestamp: nat)
    requires Sane(n) && n.role == Leader(false)
    ensures Sane(InitializeLeadership(n, timestamp))
  {
    var n' := InitializeLeadership(n, timestamp);
    LeadingInOrder(n, timestamp, []);
    StoresEntry(n, n', n.nextId + 1, n'.replica.log[|n.replica.log|]);
  }

  lemma TruncateSane(n: Node, prevTerm: nat, prevIndex: nat)
    requires Sane(n) && (n.role.Follower? ==> HoldsPoint(n.replica, prevTerm, prevIndex))
    ensures Sane(OnTruncate(n, prevTerm, prevIndex))
  {
    hide IdsInOrder, Tracks;
    TruncateInOrder(n, prevTerm, prevIndex);
    if n.role.Follower? && prevIndex + 1 < |n.replica.log| {
      TruncateTracks(n.disk.log, n.work, n.replica.log, prevIndex);
    }
  }

  lemma TruncateTracks(file: Log, work: seq<Task>, log: Log, last: nat)
    requires Tracks(file, work, log) && last < |log|
    ensures Tracks(file, work + [TruncateTo(last + 1)], log[..last + 1]) && log[last].index == last
  {
    TracksWellFormed(file, work, log);
    assert EntryAt(log, last);
    var cut := log[..last + 1];
    forall i: nat | i < |cut| ensures EntryAt(cut, i) {
      assert EntryAt(log, i);
    }
    TracksQueue(file, work, log, TruncateTo(last + 1));
  }

  lemma PersistSane(n: Node)
    requires Sane(n) && n.work != []
    ensures Sane(PersistOne(n))
  {
    PersistInOrder(n);
    PersistTerms(n);
    hide IdsInOrder, TermsPositive;
  }

  lemma PersistTerms(n: Node)
    requires TermsPositive(n) && n.work != []
    ensures TermsPositive(PersistOne(n))
  {
    var n' := PersistOne(n);
    forall k | 0 <= k < |n'.work| && n'.work[k].AppendVote? ensures n'.work[k].row.term >= 1 {
      assert n'.work[k] == n.work[k + 1];
    }
  }

  lemma ReportSane(n: Node)
    requires Sane(n) && n.done != []
    ensures Sane(HandlePersisted(n).0)
  {
    hide HandlePersisted, IdsInOrder, Tracks;
    ReportReadOnce(n);
    IdsMean(n);
    ReportMoves(n);
    Retitles(n, HandlePersisted(n).0);
  }

  lemma ReportMoves(n: Node)
    requires n.done != [] && LeaderReady(n) && (forall id | id in n.outstanding :: id < n.nextId)
    requires n.done[0].VotePersisted? ==> n.done[0].row.term >= 1
    ensures var n' := HandlePersisted(n).0;
            && n'.replica == n.replica && n'.work == n.work && n'.disk == n.disk && n'.nextTerm == n.nextTerm
            && n'.done == n.done[1..] && LeaderReady(n')
  {
  }

  lemma ReplySane(n: Node, id: nat, term: nat, granted: bool)
    requires Sane(n) && term >= 1
    ensures Sane(OnVoteReply(n, id, term, granted).0)
  {
    hide OnVoteReply, IdsInOrder, Tracks;
    RepliesInOrder(n, id, term, granted);
    IdsMean(n);
    ReplyMoves(n, id, term, granted);
    Retitles(n, OnVoteReply(n, id, term, granted).0);
  }

  lemma IdsMean(n: Node)
    requires IdsInOrder(n)
    ensures forall id | id in n.outstanding :: id < n.nextId
  {
  }

  lemma ReplyMoves(n: Node, id: nat, term: nat, granted: bool)
    requires LeaderReady(n) && term >= 1 && (forall id | id in n.outstanding :: id < n.nextId)
    ensures var n' := OnVoteReply(n, id, term, granted).0;
            && n'.replica == n.replica && n'.work == n.work && n'.disk == n.disk && n'.nextTerm == n.nextTerm
            && n'.done == n.done && LeaderReady(n')
  {
  }

  lemma AckMoves(n: Node, id: nat)
    requires LeaderReady(n)
    ensures var n' := OnAck(n, id);
            && n'.replica == n.replica && n'.work == n.work && n'.disk == n.disk && n'.nextTerm == n.nextTerm
            && n'.done == n.done && LeaderReady(n')
  {
  }

  lemma AckSane(n: Node, id: nat)
    requires Sane(n)
    ensures Sane(OnAck(n, id))
  {
    hide OnAck, IdsInOrder, Tracks;
    AckInOrder(n, id);
    AckMoves(n, id);
    Retitles(n, OnAck(n, id));
  }

  lemma BackfillSane(n: Node, lastTerm: nat, lastIndex: nat)
    requires Sane(n)
    ensures Sane(OnBackfillRequest(n, lastTerm, lastIndex)) && OnBackfillRequest(n, lastTerm, lastIndex).role == n.role
  {
    hide IdsInOrder, Tracks;
    BackfillInOrder(n, lastTerm, lastIndex);
    Retitles(n, OnBackfillRequest(n, lastTerm, lastIndex));
  }

  // ---------------------------------------------------------------- whole time steps

  lemma {:induction false} DrainSane(n: Node)
    requires Sane(n)
    ensures Sane(Drained(n).0)
    decreases |n.done|
  {
    if n.done != [] {
      ReportSane(n);
      DrainOne(n);
      hide Sane, HandlePersisted;
      if HandlePersisted(n).0.role == n.role {
        DrainSane(HandlePersisted(n).0);
      }
    }
  }

  lemma ResponseSane(n: Node, r: QuorumResponse)
    requires Sane(n) && (r.VoteResponse? ==> r.term >= 1)
    requires r.TruncateRequest? && n.role.Follower? ==> HoldsPoint(n.replica, r.prevTerm, r.prevIndex)
    ensures Sane(OnResponse(n, r).0)
  {
    hide Sane, OnTruncate, OnVoteReply, OnAck;
    match r
    case TruncateRequest(prevTerm, prevIndex) => TruncateSane(n, prevTerm, prevIndex);
    case VoteResponse(id, term, granted) => ReplySane(n, id, term, granted);
    case AppendAck(id) => AckSane(n, id);
    case _ =>
  }

  lemma {:induction false} ResponsesSane(n: Node, inbox: seq<QuorumResponse>)
    requires Sane(n) && TermsNamed(inbox) && Held(n, inbox)
    ensures Sane(Responded(n, inbox).node)
    decreases |inbox|
  {
    hide Sane, OnResponse;
    if inbox != [] {
      ResponseSane(n, inbox[0]);
      if OnResponse(n, inbox[0]).0.role == n.role {
        ResponsesSane(OnResponse(n, inbox[0]).0, inbox[1..]);
      }
    }
  }

  lemma {:induction false} BackfillsSane(n: Node, wanted: seq<(nat, nat)>)
    requires Sane(n)
    ensures Sane(Backfilled(n, wanted))
  {
    hide Sane, OnBackfillRequest;
    if wanted != [] {
      var last := |wanted| - 1;
      BackfillsSane(n, wanted[..last]);
      BackfillSane(Backfilled(n, wanted[..last]), wanted[last].0, wanted[last].1);
    }
  }

  lemma FinishSane(n: Node, wanted: seq<(nat, nat)>, timedOut: bool)
    requires Sane(n)
    ensures Sane(Finished(n, wanted, timedOut))
  {
    if n.role.Leader? {
      hide Sane;
      BackfillsSane(n, wanted);
    } else if timedOut && n.role.Candidate? {
      hide Sane;
      ElectionSane(n);
    } else if timedOut {
      OthersInOrder(n, n.(role := Candidate));
      Retitles(n, n.(role := Candidate));
    }
  }

  lemma ServedSane(n: Node, queued: seq<QuorumResponse>, r: Request)
    requires Sane(n) && Admissible(n, queued, r)
    ensures Sane(Served(n, queued, r).0)
  {
    hide Sane, OnAppend, OnVoteRequest, WriteBatch, PersistOne, Drained, Responded, Finished, Initialized, Held;
    match r
    case Append(m) => AppendSane(n, m);
    case Vote(b, lastIndex) => VoteSane(n, b, lastIndex);
    case Write(timestamp, commands) =>
      if n.role.Leader? {
        WriteSane(n, timestamp, commands);
      }
    case PersistTask => PersistSane(n);
    case Tick(responses, timestamp, timedOut) => TickSane(n, queued + responses, timestamp, timedOut);
  }

  lemma TickSane(n: Node, inbox: seq<QuorumResponse>, timestamp: nat, timedOut: bool)
    requires Sane(n) && TermsNamed(inbox)
    requires var n0 := Initialized(n, timestamp);
             Drained(n0).0.role == n0.role ==> Held(Drained(n0).0, inbox)
    ensures Sane(TimeStepped(n, inbox, timestamp, timedOut).node)
  {
    hide Sane, Drained, Responded, Finished, Held;
    var n0 := Initialized(n, timestamp);
    if n.role == Leader(false) {
      InitializeSane(n, timestamp);
    }
    DrainSane(n0);
    var read := Drained(n0).0;
    if read.role == n0.role {
      ResponsesSane(read, inbox);
      FinishSane(Responded(read, inbox).node, BackfillsIn(inbox), timedOut);
    }
  }

  // ---------------------------------------------------------------- the class

  lemma StartedSane(id: NodeId, peers: nat, quorumSize: nat, epoch: nat, disk: Disk, sent: set<Message>)
    requires WellFormed(disk.log)
    ensures Sane(Started(id, peers, quorumSize, epoch, disk, sent))
  {
    assert disk.votes + [] == disk.votes;
  }

  /** The node and its queued responses after all requests, if each is admissible at its turn. */
  function ServedAll(n: Node, queued: seq<QuorumResponse>, requests: seq<Request>)
    : (r: Option<(Node, seq<QuorumResponse>)>)
  {
    if requests == [] then Some((n, queued))
    else
      var last := |requests| - 1;
      match ServedAll(n, queued, requests[..last])
      case None => None
      case Some(state) =>
        if Admissible(state.0, state.1, requests[last]) then Some(Served(state.0, state.1, requests[last])) else None
  }

  method ServeOne(s: SharedState, r: Request)
    requires Sane(s.View()) && Admissible(s.View(), s.quorumResponse, r)
    modifies s
    ensures (s.View(), s.quorumResponse) == Served(old(s.View()), old(s.quorumResponse), r)
    ensures Sane(s.View())
  {
    ServedSane(s.View(), s.quorumResponse, r);
    hide Sane, OnAppend, OnVoteRequest, WriteBatch, PersistOne, TimeStepped, Shaped, SharedState.View;
    match r
    case Append(m) =>
      assert m.AppendEntries? by { ShapedIsAppend(m); }
      var _ := s.AcceptAppendEntries(m);
    case Vote(b, lastIndex) =>
      var _ := s.AcceptVoteRequest(b, lastIndex);
    case Write(timestamp, commands) =>
      var _ := s.AcceptWriteBatch(timestamp, commands);
    case PersistTask =>
      s.PersistNext();
    case Tick(responses, timestamp, timedOut) =>
      s.Enqueue(responses);
      var _, _ := s.TimeStep(timestamp, timedOut);
  }

  lemma ShapedIsAppend(m: Message)
    requires Shaped(m)
    ensures m.AppendEntries?
  {
  }

  /** Over any sequence of requests and time steps, in any roles, the shared state keeps a
      well-formed log with its cursor, a disk that mirrors it, and ids and votes in order, for
      as long as each request meets its premises when its turn comes. */
  method Serve(s: SharedState, requests: seq<Request>) returns (taken: nat)
    requires Sane(s.View())
    modifies s
    ensures taken <= |requests| && Sane(s.View())
    ensures WellFormed(s.replicationLog) && Replay(s.disk.log, s.persistenceWork) == s.replicationLog
    ensures ServedAll(old(s.View()), old(s.quorumResponse), requests[..taken]) == Some((s.View(), s.quorumResponse))
    ensures taken < |requests| ==> !Admissible(s.View(), s.quorumResponse, requests[taken])
  {
    hide Sane, Served, Admissible, SharedState.View;
    taken := 0;
    while taken < |requests|
      invariant taken <= |requests| && Sane(s.View())
      invariant ServedAll(old(s.View()), old(s.quorumResponse), requests[..taken]) == Some((s.View(), s.quorumResponse))
    {
      if !Admissible(s.View(), s.quorumResponse, requests[taken]) {
        break;
      }
      assert requests[..taken + 1][..taken] == requests[..taken];
      ServeOne(s, requests[taken]);
      taken := taken + 1;
    }
    SaneMeans(s.View());
    ViewMeans(s);
  }

  /** The same from the start of a process on: whatever votes its disk holds, a well-formed
      log is all that a started node needs. */
  method StartAndServe(id: NodeId, peers: nat, quorumSize: nat, epoch: nat, disk: Disk, sent: set<Message>,
                       requests: seq<Request>)
    returns (s: SharedState, taken: nat)
    requires WellFormed(disk.log)
    ensures fresh(s) && taken <= |requests| && Sane(s.View())
    ensures WellFormed(s.replicationLog) && Replay(s.disk.log, s.persistenceWork) == s.replicationLog
    ensures ServedAll(Started(id, peers, quorumSize, epoch, disk, sent), [], requests[..taken]) ==
            Some((s.View(), s.quorumResponse))
    ensures taken < |requests| ==> !Admissible(s.View(), s.quorumResponse, requests[taken])
  {
    hide Sane, ServedAll, Admissible, Started, SharedState.View, WellFormed, Replay;
    StartedSane(id, peers, quorumSize, epoch, disk, sent);
    s := new SharedState(id, peers, quorumSize, epoch, disk, sent);
    taken := Serve(s, requests);
  }

  lemma SaneMeans(n: Node)
    requires Sane(n)
    ensures WellFormed(n.replica.log) && CursorOk(n.replica) && Replay(n.disk.log, n.work) == n.replica.log
  {
    TracksWellFormed(n.disk.log, n.work, n.replica.log);
  }

  lemma ViewMeans(s: SharedState)
    ensures s.View().replica.log == s.replicationLog && s.View().disk == s.disk && s.View().work == s.persistenceWork
  {
  }
}
