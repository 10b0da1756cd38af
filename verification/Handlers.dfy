/** The state shared by the three role delegates, updated in place. Each handler does to it
    what the corresponding function of `Nodes` does to a node. */
module Handlers {
  import opened Logs
  import opened Nodes
  import opened Repair

  /** What a node's quorum workers report back to it. */
  datatype QuorumResponse =
    | TruncateRequest(prevTerm: nat, prevIndex: nat)
    | VoteResponse(id: nat, term: nat, granted: bool)
    | AppendAck(id: nat)
    | BackfillWanted(lastTerm: nat, lastIndex: nat)
    | TruncateAck(id: nat)

  datatype WriteResult = Pending | EmptyBatch | NotLeader

  // ---------------------------------------------------------------- one time step

  /** Persistence reports are read until none is left or the node is elected. */
  function Drained(n: Node): (r: (Node, seq<VoteReply>))
    ensures r.0.role == n.role ==> r.0.done == []
    decreases |n.done|
  {
    if n.done == [] then (n, [])
    else
      var (next, reply) := HandlePersisted(n);
      var replies := if reply.Some? then [reply.value] else [];
      if next.role != n.role then (next, replies)
      else
        var (last, more) := Drained(next);
        (last, replies + more)
  }

  /** The append requests that are answered with Ok on the way, in order. */
  function DrainedAppends(n: Node): seq<nat>
    decreases |n.done|
  {
    if n.done == [] then []
    else
      var next := HandlePersisted(n).0;
      var answered := if AnsweredAppend(n).Some? then [AnsweredAppend(n).value] else [];
      if next.role != n.role then answered else answered + DrainedAppends(next)
  }

  lemma ReportConsumed(n: Node)
    requires n.done != []
    ensures HandlePersisted(n).0.done == n.done[1..]
  {
  }

  lemma DrainOne(n: Node)
    requires n.done != []
    ensures var (next, reply) := HandlePersisted(n);
            var replies := if reply.Some? then [reply.value] else [];
            && next.done == n.done[1..]
            && Drained(n).0 == (if next.role != n.role then next else Drained(next).0)
            && Drained(n).1 == replies + (if next.role != n.role then [] else Drained(next).1)
    ensures var next := HandlePersisted(n).0;
            var answered := if AnsweredAppend(n).Some? then [AnsweredAppend(n).value] else [];
            DrainedAppends(n) == answered + (if next.role != n.role then [] else DrainedAppends(next))
  {
    hide HandlePersisted, AnsweredAppend;
    ReportConsumed(n);
  }

  lemma DrainNone(n: Node)
    requires n.done == []
    ensures Drained(n) == (n, []) && DrainedAppends(n) == []
  {
  }

  /** Each role acts on one kind of response and discards the others. A leader sets backfill
      requests aside. */
  function OnResponse(n: Node, r: QuorumResponse): (Node, Option<VoteReply>) {
    match r
    case TruncateRequest(prevTerm, prevIndex) => (OnTruncate(n, prevTerm, prevIndex), None)
    case VoteResponse(id, term, granted) => OnVoteReply(n, id, term, granted)
    case AppendAck(id) => (OnAck(n, id), None)
    case _ => (n, None)
  }

  datatype Outcome = Outcome(node: Node, replies: seq<VoteReply>, rest: seq<QuorumResponse>)

  /** Responses are read until none is left or the node is elected; the rest stays queued. */
  function Responded(n: Node, inbox: seq<QuorumResponse>): (r: Outcome)
    ensures r.node.role == n.role ==> r.rest == []
    decreases |inbox|
  {
    if inbox == [] then Outcome(n, [], [])
    else
      var (next, reply) := OnResponse(n, inbox[0]);
      var replies := if reply.Some? then [reply.value] else [];
      if next.role != n.role then Outcome(next, replies, inbox[1..])
      else
        var after := Responded(next, inbox[1..]);
        after.(replies := replies + after.replies)
  }

  /** The backfill requests among the responses, oldest first. */
  function BackfillsIn(inbox: seq<QuorumResponse>): seq<(nat, nat)>
    decreases |inbox|
  {
    if inbox == [] then [] else AskedBy(inbox[0]) + BackfillsIn(inbox[1..])
  }

  function AskedBy(r: QuorumResponse): seq<(nat, nat)> {
    if r.BackfillWanted? then [(r.lastTerm, r.lastIndex)] else []
  }

  /** The requests set aside are those among the responses, each once and in their order. */
  lemma {:induction false} BackfillsInOrder(inbox: seq<QuorumResponse>, more: seq<QuorumResponse>)
    ensures BackfillsIn(inbox + more) == BackfillsIn(inbox) + BackfillsIn(more)
    ensures |inbox| == 1 ==>
              BackfillsIn(inbox) ==
              if inbox[0].BackfillWanted? then [(inbox[0].lastTerm, inbox[0].lastIndex)] else []
    decreases |inbox|
  {
    hide BackfillsIn, AskedBy;
    if inbox == [] {
      NoBackfill();
      assert inbox + more == more && [] + BackfillsIn(more) == BackfillsIn(more);
    } else {
      var r, rest := inbox[0], inbox[1..];
      BackfillsInOrder(rest, more);
      assert inbox + more == [r] + (rest + more) && inbox == [r] + rest;
      OneBackfill(r);
      assert |inbox| == 1 ==> inbox == [r];
      FirstBackfill(r, rest + more);
      FirstBackfill(r, rest);
      assert AskedBy(r) + (BackfillsIn(rest) + BackfillsIn(more)) == AskedBy(r) + BackfillsIn(rest) + BackfillsIn(more);
    }
  }

  lemma OneBackfill(r: QuorumResponse)
    ensures BackfillsIn([r]) == if r.BackfillWanted? then [(r.lastTerm, r.lastIndex)] else []
  {
    FirstBackfill(r, []);
    NoBackfill();
    assert [r] + [] == [r];
    hide BackfillsIn;
  }

  lemma NoBackfill()
    ensures BackfillsIn([]) == []
  {
  }

  lemma FirstBackfill(r: QuorumResponse, rest: seq<QuorumResponse>)
    ensures BackfillsIn([r] + rest) == AskedBy(r) + BackfillsIn(rest)
  {
    assert ([r] + rest)[1..] == rest;
  }

  lemma RespondOne(n: Node, inbox: seq<QuorumResponse>)
    requires inbox != []
    ensures var (next, reply) := OnResponse(n, inbox[0]);
            var replies := if reply.Some? then [reply.value] else [];
            var after := Responded(next, inbox[1..]);
            Responded(n, inbox) ==
            if next.role != n.role then Outcome(next, replies, inbox[1..])
            else after.(replies := replies + after.replies)
    ensures var wanted := if inbox[0].BackfillWanted? then [(inbox[0].lastTerm, inbox[0].lastIndex)] else [];
            BackfillsIn(inbox) == wanted + BackfillsIn(inbox[1..])
  {
    hide OnResponse;
  }

  lemma RespondNone(n: Node)
    ensures Responded(n, []) == Outcome(n, [], []) && BackfillsIn([]) == []
  {
  }

  function Backfilled(n: Node, wanted: seq<(nat, nat)>): Node {
    if wanted == [] then n
    else
      var last := |wanted| - 1;
      OnBackfillRequest(Backfilled(n, wanted[..last]), wanted[last].0, wanted[last].1)
  }

  /** What ends a time step that brought no election win. */
  function Finished(n: Node, wanted: seq<(nat, nat)>, timedOut: bool): Node {
    match n.role
    case Follower => if timedOut then n.(role := Candidate) else n
    case Candidate => if timedOut then StartElection(n) else n
    case Leader(_) => Backfilled(n, wanted)
  }

  /** A new leader's first time step initializes its leadership. */
  function Initialized(n: Node, timestamp: nat): Node {
    if n.role == Leader(false) then InitializeLeadership(n, timestamp) else n
  }

  /** One time step in any role. */
  function TimeStepped(n: Node, inbox: seq<QuorumResponse>, timestamp: nat, timedOut: bool): Outcome {
    var n := Initialized(n, timestamp);
    var (read, replies) := Drained(n);
    if read.role != n.role then Outcome(read, replies, inbox)
    else
      var after := Responded(read, inbox);
      if after.node.role != n.role then after.(replies := replies + after.replies)
      else Outcome(Finished(after.node, BackfillsIn(inbox), timedOut), replies + after.replies, [])
  }

  function VoteCast(n: Node, id: nat, row: VoteRow): Node {
    n.(work := n.work + [AppendVote(id, row)], votes := n.votes[row.term := row.candidate])
  }

  // ---------------------------------------------------------------- the state and its handlers

  class SharedState {
    const identity: NodeId
    const peers: nat
    const quorumSize: nat
    const epoch: nat
    var role: Role
    var currentTerm: nat
    var leaderId: NodeId
    var nextTerm: nat
    var commitIndex: nat
    var replicationLog: Log
    var lastLogIndex: nat
    var lastLogTerm: nat
    var nextLogIndex: nat
    var termStarts: map<nat, nat>
    var termVotes: map<nat, NodeId>
    var nextMessageId: nat
    var outstanding: map<nat, Outstanding>
    var persistenceWork: seq<Task>
    var persistenceResponse: seq<Response>
    var quorumResponse: seq<QuorumResponse>
    var sent: set<Message>
    var disk: Disk

    function Replica(): Replica
      reads this
    {
      Nodes.Replica(replicationLog, lastLogIndex, lastLogTerm, nextLogIndex, termStarts)
    }

    function View(): (n: Node)
      reads this
      ensures n.role == role && n.done == persistenceResponse
    {
      Node(identity, peers, quorumSize, epoch, role, currentTerm, leaderId, nextTerm, commitIndex,
           Replica(), termVotes, nextMessageId, outstanding, persistenceWork, persistenceResponse, disk, sent)
    }

    constructor (id: NodeId, peers: nat, quorumSize: nat, epoch: nat, disk: Disk, sent: set<Message>)
      ensures View() == Started(id, peers, quorumSize, epoch, disk, sent) && quorumResponse == []
    {
      identity, this.peers, this.quorumSize, this.epoch := id, peers, quorumSize, epoch;
      role, currentTerm, leaderId := Follower, 0, 0;
      nextTerm := Max(MaxVoteTerm(disk.votes), LastTerm(disk.log)) + 1;
      commitIndex := 0;
      replicationLog, lastLogIndex, lastLogTerm := disk.log, LastIndex(disk.log), LastTerm(disk.log);
      nextLogIndex, termStarts := LastIndex(disk.log) + 1, TermStarts(disk.log);
      termVotes := VotesOf(disk.votes);
      nextMessageId, outstanding := 0, map[];
      persistenceWork, persistenceResponse, quorumResponse := [], [], [];
      this.sent, this.disk := sent, disk;
    }

    // -------------------------------------------------------------- requests from peers

    method TakeMessageId() returns (messageId: nat)
      modifies this`nextMessageId
      ensures messageId == old(nextMessageId) && View() == old(View()).(nextId := messageId + 1)
    {
      messageId := nextMessageId;
      nextMessageId := nextMessageId + 1;
    }

    method SetCursor(index: nat, term: nat)
      modifies this`lastLogIndex, this`lastLogTerm
      ensures var n := old(View());
              View() == n.(replica := n.replica.(lastIndex := index, lastTerm := term))
    {
      lastLogIndex := index;
      lastLogTerm := term;
    }

    method RaiseCommitIndex(index: nat)
      modifies this`commitIndex
      ensures View() == old(View()).(commitIndex := Max(old(commitIndex), index))
    {
      if index > commitIndex {
        commitIndex := index;
      }
    }

    /** Moves the cursor, notes the start of a term, queues the entry for the disk and
        stores it. */
    method StoreEntry(messageId: nat, entry: Entry)
      modifies this`lastLogIndex, this`lastLogTerm, this`termStarts, this`persistenceWork, this`replicationLog
      ensures var n := old(View());
              View() == n.(replica := Push(n.replica, entry), work := n.work + [AppendEntry(messageId, entry)])
    {
      SetCursor(entry.index, entry.term);
      NoteTermStart(entry);
      QueueAndStore(messageId, entry);
    }

    method NoteTermStart(entry: Entry)
      modifies this`termStarts
      ensures var n := old(View());
              View() == n.(replica := n.replica.(termStarts := Push(n.replica, entry).termStarts))
    {
      if entry.prevTerm != entry.term {
        termStarts := termStarts[entry.term := |replicationLog|];
      }
    }

    method QueueAndStore(messageId: nat, entry: Entry)
      modifies this`persistenceWork, this`replicationLog
      ensures var n := old(View());
              View() == n.(replica := n.replica.(log := n.replica.log + [entry]),
                           work := n.work + [AppendEntry(messageId, entry)])
    {
      persistenceWork := persistenceWork + [AppendEntry(messageId, entry)];
      replicationLog := replicationLog + [entry];
    }

    method ApplyLogEntry(m: Message) returns (reply: AppendReply)
      requires m.AppendEntries?
      modifies this`nextMessageId, this`lastLogIndex, this`lastLogTerm, this`termStarts, this`persistenceWork,
               this`replicationLog, this`commitIndex, this`outstanding
      ensures View() == ApplyEntry(old(View()), m).0 && reply == ApplyEntry(old(View()), m).1
      ensures if m.entry.Some? then reply == Deferred && replicationLog == old(replicationLog) + [m.entry.value]
              else reply == WantedPreviousEntry(lastLogTerm, lastLogIndex) && Replica() == old(Replica())
    {
      var messageId := nextMessageId;
      nextMessageId := nextMessageId + 1;
      match m.entry {
        case None =>
          reply := WantedPreviousEntry(lastLogTerm, lastLogIndex);
        case Some(entry) =>
          hide Push;
          StoreEntry(messageId, entry);
          RaiseCommitIndex(m.commit);
          outstanding := outstanding[messageId := AppendLog(m.requestId)];
          reply := Deferred;
      }
    }

    method RecogniseLeader(m: Message)
      requires m.AppendEntries?
      modifies this`currentTerm, this`leaderId, this`nextTerm
      ensures View() == Recognise(old(View()), m)
    {
      currentTerm := m.term;
      leaderId := m.leader;
      nextTerm := m.term + 1;
    }

    method HandleHeartbeat(m: Message) returns (reply: AppendReply)
      requires m.AppendEntries? && m.requestId == 0 && role.Follower?
      requires m.term <= currentTerm && m.leader == leaderId
      modifies this`commitIndex
      ensures View() == FollowerAppend(old(View()), m).0 && reply == FollowerAppend(old(View()), m).1
      ensures m.prevTerm != lastLogTerm || m.prevIndex != lastLogIndex ==>
                reply == WantedPreviousEntry(lastLogTerm, lastLogIndex) && commitIndex == old(commitIndex)
      ensures m.prevTerm == lastLogTerm && m.prevIndex == lastLogIndex ==>
                && reply == Accepted
                && commitIndex == if m.term == currentTerm then Max(old(commitIndex), m.commit) else m.commit
    {
      if m.prevTerm != lastLogTerm || m.prevIndex != lastLogIndex {
        return WantedPreviousEntry(lastLogTerm, lastLogIndex);
      }
      if m.commit > commitIndex || currentTerm != m.term {
        commitIndex := m.commit;
      }
      reply := Accepted;
    }

    method FollowerAppendEntries(m: Message) returns (reply: AppendReply)
      requires m.AppendEntries? && role.Follower?
      modifies this
      ensures View() == FollowerAppend(old(View()), m).0 && reply == FollowerAppend(old(View()), m).1
      ensures quorumResponse == old(quorumResponse)
      ensures reply == UnrecognizedLeader <==> m.term <= old(currentTerm) && m.leader != old(leaderId)
      ensures reply.WantedPreviousEntry? ==>
                reply == WantedPreviousEntry(lastLogTerm, lastLogIndex) && Replica() == old(Replica())
      ensures replicationLog == old(replicationLog) + if reply.Deferred? then [m.entry.value] else []
    {
      if m.term > currentTerm {
        RecogniseLeader(m);
        if m.prevIndex != lastLogIndex || m.prevTerm != lastLogTerm {
          return WantedPreviousEntry(lastLogTerm, lastLogIndex);
        }
        if m.entry.Some? {
          reply := ApplyLogEntry(m);
        } else {
          reply := Accepted;
        }
        return;
      }
      if m.leader != leaderId {
        return UnrecognizedLeader;
      }
      if m.requestId == 0 {
        reply := HandleHeartbeat(m);
        return;
      }
      if m.prevIndex != lastLogIndex || m.prevTerm != lastLogTerm {
        return WantedPreviousEntry(lastLogTerm, lastLogIndex);
      }
      reply := ApplyLogEntry(m);
    }

    /** The request as the executor passes it to the current delegate. */
    method AcceptAppendEntries(m: Message) returns (reply: AppendReply)
      requires m.AppendEntries?
      modifies this
      ensures View() == OnAppend(old(View()), m).0 && reply == OnAppend(old(View()), m).1
      ensures quorumResponse == old(quorumResponse)
    {
      match role {
        case Follower =>
          reply := FollowerAppendEntries(m);
          return;
        case Candidate =>
          if m.term < currentTerm {
            return UnrecognizedLeader;
          }
        case Leader(_) =>
          if m.term <= currentTerm {
            return UnrecognizedLeader;
          }
          nextMessageId := nextMessageId + 1;
      }
      RecogniseLeader(m);
      if m.prevIndex == lastLogIndex && m.prevTerm == lastLogTerm {
        reply := Accepted;
      } else {
        reply := WantedPreviousEntry(lastLogTerm, lastLogIndex);
      }
      role := Follower;
    }

    method AcceptVoteRequest(b: Ballot, lastIndex: nat) returns (reply: Option<VoteReply>)
      modifies this
      ensures View() == OnVoteRequest(old(View()), b, lastIndex).0
      ensures reply == OnVoteRequest(old(View()), b, lastIndex).1
      ensures reply == if b.term in old(termVotes) || b.term <= currentTerm || lastIndex < lastLogIndex
                       then Some(VoteReply(b, false)) else None
      ensures quorumResponse == old(quorumResponse)
    {
      if nextTerm <= b.term {
        nextTerm := b.term + 1;
      }
      if b.term in termVotes || b.term <= currentTerm || lastIndex < lastLogIndex {
        return Some(VoteReply(b, false));
      }
      RegisterVote(b);
      reply := None;
    }

    /** A follower only registers the request. */
    method RegisterVote(b: Ballot)
      modifies this`nextMessageId, this`outstanding, this`persistenceWork, this`termVotes
      ensures var n := old(View());
              View() == (if role.Follower? then n else VoteCast(n, n.nextId, VoteRow(b.term, b.candidate)))
                        .(nextId := n.nextId + 1, outstanding := n.outstanding[n.nextId := RequestVote(b)])
    {
      var messageId := nextMessageId;
      if !role.Follower? {
        CastVote(messageId, VoteRow(b.term, b.candidate));
      }
      nextMessageId := messageId + 1;
      outstanding := outstanding[messageId := RequestVote(b)];
    }

    /** The vote is recorded and queued for the disk. */
    method CastVote(messageId: nat, row: VoteRow)
      modifies this`persistenceWork, this`termVotes
      ensures View() == VoteCast(old(View()), messageId, row)
    {
      persistenceWork := persistenceWork + [AppendVote(messageId, row)];
      termVotes := termVotes[row.term := row.candidate];
    }

    method TruncateLog(prevTerm: nat, prevIndex: nat)
      requires role.Follower?
      modifies this`replicationLog, this`lastLogTerm, this`lastLogIndex, this`nextLogIndex, this`termStarts,
               this`persistenceWork
      ensures View() == OnTruncate(old(View()), prevTerm, prevIndex)
    {
      var targetLength := prevIndex + 1;
      if targetLength < |replicationLog| {
        CutReplica(prevTerm, prevIndex);
        hide Cut;
        persistenceWork := persistenceWork + [Task.TruncateTo(targetLength)];
      }
    }

    method CutReplica(prevTerm: nat, prevIndex: nat)
      requires prevIndex + 1 < |replicationLog|
      modifies this`replicationLog, this`lastLogTerm, this`lastLogIndex, this`nextLogIndex, this`termStarts
      ensures View() == old(View()).(replica := Cut(old(Replica()), prevTerm, prevIndex))
    {
      ShortenLog(prevIndex + 1);
      SetCursor(prevIndex, prevTerm);
      DropTermStarts(prevIndex);
    }

    method ShortenLog(length: nat)
      requires length < |replicationLog|
      modifies this`replicationLog, this`nextLogIndex
      ensures var n := old(View());
              View() == n.(replica := n.replica.(log := n.replica.log[..length], nextIndex := length))
    {
      replicationLog := replicationLog[..length];
      nextLogIndex := length;
    }

    method DropTermStarts(prevIndex: nat)
      modifies this`termStarts
      ensures var n := old(View());
              var starts := n.replica.termStarts;
              var kept := map t | t in starts && starts[t] <= prevIndex :: starts[t];
              View() == n.(replica := n.replica.(termStarts := kept))
    {
      termStarts := map t | t in termStarts && termStarts[t] <= prevIndex :: termStarts[t];
    }

    // -------------------------------------------------------------- elections

    method BecomeCandidate()
      modifies this`role
      ensures View() == old(View()).(role := Candidate)
    {
      role := Candidate;
    }

    method BeginElection()
      requires role.Candidate?
      modifies this`nextMessageId, this`nextTerm, this`persistenceWork, this`termVotes, this`outstanding
      ensures View() == StartElection(old(View()))
    {
      var messageId := TakeMessageId();
      var term := nextTerm;
      nextTerm := term + 1;
      CastVote(messageId, VoteRow(term, identity));
      outstanding := outstanding[messageId := CandidateElection(peers + 1, false, 1)];
    }

    method TakeOffice(term: nat)
      modifies this`role, this`leaderId, this`currentTerm
      ensures View() == BecomeLeader(old(View()), term)
    {
      leaderId := identity;
      currentTerm := term;
      role := Leader(false);
    }

    method HandleVotePersisted(id: nat, row: VoteRow) returns (reply: Option<VoteReply>)
      modifies this`outstanding, this`role, this`leaderId, this`currentTerm
      ensures View() == OnVotePersisted(old(View()), id, row).0 && reply == OnVotePersisted(old(View()), id, row).1
    {
      reply := None;
      if id in outstanding {
        var record := outstanding[id];
        outstanding := outstanding - {id};
        if record.RequestVote? {
          reply := Some(VoteReply(record.ballot, true));
        } else if record.CandidateElection? && role.Candidate? {
          if record.votes >= quorumSize {
            TakeOffice(row.term);
          } else {
            outstanding := outstanding[id := CandidateElection(record.responses - 1, true, record.votes)];
            assert outstanding == old(outstanding)[id := CandidateElection(record.responses - 1, true, record.votes)];
          }
        }
      }
    }

    method HandleVoteResponse(id: nat, term: nat, granted: bool) returns (reply: Option<VoteReply>)
      requires role.Candidate?
      modifies this`outstanding, this`role, this`leaderId, this`currentTerm
      ensures View() == OnVoteReply(old(View()), id, term, granted).0
      ensures reply == OnVoteReply(old(View()), id, term, granted).1
    {
      reply := None;
      if id in outstanding {
        var record := outstanding[id];
        outstanding := outstanding - {id};
        if record.RequestVote? {
          reply := Some(VoteReply(record.ballot, granted));
        } else if record.CandidateElection? {
          var votes := if granted then record.votes + 1 else record.votes;
          var waiting := record.responses - 1;
          if votes >= quorumSize && record.persisted {
            TakeOffice(term);
          } else if waiting > 0 {
            outstanding := outstanding[id := CandidateElection(waiting, record.persisted, votes)];
            assert outstanding == old(outstanding)[id := CandidateElection(waiting, record.persisted, votes)];
          }
        }
      }
    }

    // -------------------------------------------------------------- leading

    /** The request whose entry is now on disk is answered with Ok, except by a leader. */
    method HandleLogPersisted(id: nat) returns (reply: Option<VoteReply>, accepted: Option<nat>)
      modifies this`outstanding, this`commitIndex
      ensures View() == OnLogPersisted(old(View()), id).0 && reply == OnLogPersisted(old(View()), id).1
      ensures accepted == if !role.Leader? && id in old(outstanding) && old(outstanding)[id].AppendLog?
                          then Some(old(outstanding)[id].requestId) else None
    {
      reply, accepted := None, None;
      if id in outstanding {
        var record := outstanding[id];
        outstanding := outstanding - {id};
        if role.Leader? && record.Proposal? {
          if record.acks >= quorumSize {
            RaiseCommitIndex(record.index);
          } else {
            var waiting := Proposal(record.client, record.responses - 1, true, record.acks, record.index);
            outstanding := outstanding[id := waiting];
            assert outstanding == old(outstanding)[id := waiting];
          }
        } else if role.Leader? && record.RequestVote? {
          reply := Some(VoteReply(record.ballot, true));
        } else if !role.Leader? && record.AppendLog? {
          accepted := Some(record.requestId);
        }
      }
    }

    method HandleAppendAck(id: nat)
      requires role.Leader?
      modifies this`outstanding, this`commitIndex
      ensures View() == OnAck(old(View()), id)
    {
      if id in outstanding {
        var record := outstanding[id];
        outstanding := outstanding - {id};
        if record.Proposal? {
          var acks, waiting := record.acks + 1, record.responses - 1;
          if acks >= quorumSize && record.persisted {
            RaiseCommitIndex(record.index);
          } else if waiting > 0 {
            outstanding := outstanding[id := record.(acks := acks, responses := waiting)];
            assert outstanding == old(outstanding)[id := record.(acks := acks, responses := waiting)];
          }
        }
      }
    }

    /** A new entry of the current term goes into the log; the cursor stays behind it. */
    method CreateEntry(index: nat, messageId: nat, timestamp: nat, commands: seq<Command>) returns (entry: Entry)
      modifies this`termStarts, this`replicationLog
      ensures entry == NewEntry(old(View()), index, messageId, timestamp, commands)
      ensures var n := old(View());
              View() == n.(replica := Push(n.replica, entry).(lastIndex := lastLogIndex, lastTerm := lastLogTerm))
    {
      entry := Entry(index, currentTerm, lastLogIndex, lastLogTerm, messageId, timestamp, commands);
      if lastLogTerm != currentTerm {
        termStarts := termStarts[currentTerm := |replicationLog|];
      }
      replicationLog := replicationLog + [entry];
    }

    /** The entry is stored, queued, sent and registered before the cursor moves to it. */
    method ProposeEntry(timestamp: nat, commands: seq<Command>, client: bool)
      modifies this`nextMessageId, this`termStarts, this`replicationLog, this`persistenceWork, this`sent,
               this`outstanding, this`lastLogTerm, this`nextLogIndex, this`lastLogIndex
      ensures View() == Propose(old(View()), timestamp, commands, client)
      ensures |replicationLog| == |old(replicationLog)| + 1
      ensures var e := replicationLog[|old(replicationLog)|];
              && e.commands == commands && e.timestamp == timestamp && e.index == old(nextLogIndex) == lastLogIndex
              && persistenceWork == old(persistenceWork) + [AppendEntry(e.messageId, e)]
    {
      var messageId, index := nextMessageId, nextLogIndex;
      nextMessageId := nextMessageId + 1;
      var entry := CreateEntry(index, messageId, timestamp, commands);
      Dispatch(messageId, entry, client);
      MoveCursor(index);
    }

    method MoveCursor(index: nat)
      modifies this`lastLogTerm, this`nextLogIndex, this`lastLogIndex
      ensures var n := old(View());
              View() == n.(replica := n.replica.(lastTerm := n.currentTerm, nextIndex := index + 1, lastIndex := index))
    {
      lastLogTerm := currentTerm;
      nextLogIndex := index + 1;
      lastLogIndex := index;
    }

    method Dispatch(messageId: nat, entry: Entry, client: bool)
      requires entry.messageId == messageId
      modifies this`persistenceWork, this`sent, this`outstanding
      ensures var n := old(View());
              var record := Proposal(client, n.peers + 1, false, 0, entry.index);
              View() == n.(work := n.work + [AppendEntry(messageId, entry)],
                           sent := n.sent + {EntryMessage(n, entry)},
                           outstanding := n.outstanding[messageId := record])
    {
      persistenceWork := persistenceWork + [AppendEntry(messageId, entry)];
      sent := sent + {EntryMessage(View(), entry)};
      outstanding := outstanding[messageId := Proposal(client, peers + 1, false, 0, entry.index)];
    }

    method StartLeading(timestamp: nat)
      requires role == Leader(false)
      modifies this`role, this`nextMessageId, this`termStarts, this`replicationLog, this`persistenceWork, this`sent,
               this`outstanding, this`lastLogTerm, this`nextLogIndex, this`lastLogIndex
      ensures View() == InitializeLeadership(old(View()), timestamp)
    {
      hide Propose;
      var _ := TakeMessageId();
      nextLogIndex := |replicationLog|;
      role := Leader(true);
      ProposeEntry(timestamp, [], false);
    }

    /** A write batch as the executor accepts it in any role. */
    method AcceptWriteBatch(timestamp: nat, commands: seq<Command>) returns (result: WriteResult)
      modifies this
      ensures old(role.Leader?) ==> View() == WriteBatch(old(View()), timestamp, commands)
      ensures !old(role.Leader?) ==> View() == old(View())
      ensures result == if !old(role.Leader?) then NotLeader else if commands == [] then EmptyBatch else Pending
      ensures quorumResponse == old(quorumResponse)
    {
      if !role.Leader? {
        return NotLeader;
      }
      if commands == [] {
        nextMessageId := nextMessageId + 1;
        return EmptyBatch;
      }
      hide Propose;
      ProposeEntry(timestamp, commands, true);
      result := Pending;
    }

    /** The answer to a follower that names the end of its own log. */
    method HandleBackfillRequest(lastTerm: nat, lastIndex: nat)
      modifies this`nextMessageId, this`sent
      ensures View() == OnBackfillRequest(old(View()), lastTerm, lastIndex)
    {
      var answer;
      if lastIndex >= |replicationLog| {
        var ourTerm := if replicationLog == [] then 0 else replicationLog[|replicationLog| - 1].term;
        answer := Truncate(ourTerm, if replicationLog == [] then 0 else |replicationLog| - 1);
      } else if replicationLog[lastIndex].term != lastTerm && lastTerm != 0 {
        answer := FindTruncationPoint(replicationLog, lastTerm, lastIndex);
      } else {
        var start := if lastTerm == 0 then 0 else lastIndex + 1;
        answer := Backfill(replicationLog[start..]);
      }
      assert answer == AnswerTo(replicationLog, lastTerm, lastIndex);
      hide AnswerTo;
      match answer {
        case Truncate(prevTerm, prevIndex) =>
          nextMessageId := nextMessageId + 1;
          sent := sent + {Message.TruncateLog(currentTerm, identity, prevTerm, prevIndex)};
        case Backfill(entries) =>
          var self := View();
          sent := sent + set e | e in entries :: EntryMessage(self, e);
      }
    }

    /** The persistence worker's effect on the oldest queued task. */
    method PersistNext()
      requires persistenceWork != []
      modifies this`persistenceWork, this`persistenceResponse, this`disk
      ensures View() == PersistOne(old(View()))
    {
      var task := persistenceWork[0];
      persistenceWork := persistenceWork[1..];
      if task.AppendVote? {
        disk := disk.(votes := disk.votes + [task.row]);
      }
      disk := disk.(log := ApplyTask(disk.log, task));
      persistenceResponse := persistenceResponse + ResponseTo(task);
    }

    method Enqueue(responses: seq<QuorumResponse>)
      modifies this`quorumResponse
      ensures quorumResponse == old(quorumResponse) + responses
    {
      quorumResponse := quorumResponse + responses;
    }

    // -------------------------------------------------------------- the time step

    method ReadReport() returns (reply: Option<VoteReply>, accepted: Option<nat>)
      requires persistenceResponse != []
      modifies this`persistenceResponse, this`outstanding, this`role, this`leaderId, this`currentTerm, this`commitIndex
      ensures View() == HandlePersisted(old(View())).0 && reply == HandlePersisted(old(View())).1
      ensures persistenceResponse == old(persistenceResponse)[1..]
      ensures accepted == AnsweredAppend(old(View()))
    {
      hide OnVotePersisted, OnLogPersisted;
      accepted := None;
      var report := persistenceResponse[0];
      persistenceResponse := persistenceResponse[1..];
      match report {
        case VotePersisted(id, row) => reply := HandleVotePersisted(id, row);
        case LogPersisted(id) => reply, accepted := HandleLogPersisted(id);
      }
    }

    /** The loop over the persistence reports. It ends at once when the node is elected. */
    method ProcessPersistenceReports() returns (replies: seq<VoteReply>, accepted: seq<nat>)
      modifies this`persistenceResponse, this`outstanding, this`role, this`leaderId, this`currentTerm, this`commitIndex
      ensures View() == Drained(old(View())).0 && replies == Drained(old(View())).1
      ensures accepted == DrainedAppends(old(View()))
    {
      hide HandlePersisted, Drained, DrainedAppends, View, AnsweredAppend;
      replies, accepted := [], [];
      while persistenceResponse != []
        invariant role == old(role)
        invariant Drained(old(View())).0 == Drained(View()).0
        invariant Drained(old(View())).1 == replies + Drained(View()).1
        invariant DrainedAppends(old(View())) == accepted + DrainedAppends(View())
        decreases |persistenceResponse|
      {
        var before := role;
        DrainOne(View());
        var reply, request := ReadReport();
        if reply.Some? {
          replies := replies + [reply.value];
        }
        if request.Some? {
          accepted := accepted + [request.value];
        }
        if role != before {
          return;
        }
      }
      DrainNone(View());
    }

    method HandleResponse(r: QuorumResponse) returns (reply: Option<VoteReply>)
      modifies this
      ensures View() == OnResponse(old(View()), r).0 && reply == OnResponse(old(View()), r).1
      ensures quorumResponse == old(quorumResponse)
    {
      reply := None;
      match r {
        case TruncateRequest(prevTerm, prevIndex) =>
          if role.Follower? {
            TruncateLog(prevTerm, prevIndex);
          }
        case VoteResponse(id, term, granted) =>
          if role.Candidate? {
            hide OnVoteReply;
            reply := HandleVoteResponse(id, term, granted);
          }
        case AppendAck(id) =>
          if role.Leader? {
            hide OnAck;
            HandleAppendAck(id);
          }
        case _ =>
      }
    }

    method PopResponse() returns (response: QuorumResponse)
      requires quorumResponse != []
      modifies this`quorumResponse
      ensures response == old(quorumResponse)[0] && quorumResponse == old(quorumResponse)[1..] && View() == old(View())
    {
      response := quorumResponse[0];
      quorumResponse := quorumResponse[1..];
    }

    /** The loop over the quorum workers' responses. */
    method ProcessResponses() returns (replies: seq<VoteReply>, wanted: seq<(nat, nat)>)
      modifies this
      ensures var outcome := Responded(old(View()), old(quorumResponse));
              View() == outcome.node && replies == outcome.replies && quorumResponse == outcome.rest
      ensures role == old(role) ==> wanted == BackfillsIn(old(quorumResponse))
    {
      hide OnResponse, Responded, View, BackfillsIn;
      var start := role;
      replies, wanted := [], [];
      while quorumResponse != []
        invariant role == start
        invariant wanted + BackfillsIn(quorumResponse) == BackfillsIn(old(quorumResponse))
        invariant var outcome := Responded(View(), quorumResponse);
                  Responded(old(View()), old(quorumResponse)) == outcome.(replies := replies + outcome.replies)
        decreases |quorumResponse|
      {
        RespondOne(View(), quorumResponse);
        var response := PopResponse();
        if response.BackfillWanted? {
          wanted := wanted + [(response.lastTerm, response.lastIndex)];
        }
        var reply := HandleResponse(response);
        if reply.Some? {
          replies := replies + [reply.value];
        }
        if role != start {
          return;
        }
      }
      RespondNone(View());
    }

    method AnswerBackfills(wanted: seq<(nat, nat)>)
      modifies this`nextMessageId, this`sent
      ensures View() == Backfilled(old(View()), wanted)
    {
      hide OnBackfillRequest;
      for i := 0 to |wanted|
        invariant View() == Backfilled(old(View()), wanted[..i])
      {
        assert wanted[..i + 1][..i] == wanted[..i];
        HandleBackfillRequest(wanted[i].0, wanted[i].1);
      }
      assert wanted[..|wanted|] == wanted;
    }

    /** One time step in any role, up to the retry of deferred broadcasts. */
    method TimeStep(timestamp: nat, timedOut: bool) returns (replies: seq<VoteReply>, accepted: seq<nat>)
      modifies this
      ensures var outcome := TimeStepped(old(View()), old(quorumResponse), timestamp, timedOut);
              View() == outcome.node && replies == outcome.replies && quorumResponse == outcome.rest
      ensures accepted == DrainedAppends(Initialized(old(View()), timestamp))
    {
      hide Drained, DrainedAppends, Responded, BackfillsIn, InitializeLeadership, StartElection, Backfilled, View;
      if role == Leader(false) {
        StartLeading(timestamp);
      }
      var start := role;
      replies, accepted := ProcessPersistenceReports();
      if role != start {
        return;
      }
      var more, wanted := ProcessResponses();
      replies := replies + more;
      if role != start {
        return;
      }
      match role {
        case Follower =>
          if timedOut {
            BecomeCandidate();
          }
        case Candidate =>
          if timedOut {
            BeginElection();
          }
        case Leader(_) =>
          AnswerBackfills(wanted);
      }
    }
  }
}
