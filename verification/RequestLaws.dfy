/** What a node answers to each request and what the request changes, in terms of the node's
    own fields: when a vote is refused, which of the four answers an append request gets, when
    the commit index moves, and where the commands of a write end up. */
module RequestLaws {
  import opened Logs
  import opened Nodes

  // ---------------------------------------------------------------- votes

  /** A vote request is refused at once exactly when the node has voted in the term, has
      reached it, or holds a longer log than the candidate announces. */
  lemma VoteRefusedIff(n: Node, b: Ballot, lastIndex: nat)
    ensures var (n', reply) := OnVoteRequest(n, b, lastIndex);
            && (reply == Some(VoteReply(b, false)) <==>
                  b.term in n.votes || b.term <= n.currentTerm || lastIndex < n.replica.lastIndex)
            && (reply.Some? ==> reply == Some(VoteReply(b, false)) && n' == n.(nextTerm := n'.nextTerm))
            && n'.nextTerm > b.term && n'.nextTerm >= n.nextTerm
            && (n'.nextTerm == n.nextTerm || n'.nextTerm == b.term + 1)
  {
  }

  /** Otherwise it is registered under a new id, and every node but a follower records the
      vote and queues it for the disk. */
  lemma VoteRegistered(n: Node, b: Ballot, lastIndex: nat)
    requires b.term !in n.votes && b.term > n.currentTerm && lastIndex >= n.replica.lastIndex
    ensures var (n', reply) := OnVoteRequest(n, b, lastIndex);
            && reply.None? && n'.nextId == n.nextId + 1
            && n'.outstanding.Keys == n.outstanding.Keys + {n.nextId} && n'.outstanding[n.nextId] == RequestVote(b)
            && (if n.role.Follower? then n'.votes == n.votes && n'.work == n.work
                else && n'.votes == n.votes[b.term := b.candidate]
                     && n'.work == n.work + [AppendVote(n.nextId, VoteRow(b.term, b.candidate))])
            && n'.replica == n.replica && n'.role == n.role && n'.currentTerm == n.currentTerm
  {
  }

  /** A registered request is answered once: its record goes and its candidate is told, of the
      vote that has reached the disk or of the answer that came under its id. */
  lemma RequestAnswered(n: Node, id: nat, row: VoteRow, term: nat, granted: bool)
    requires id in n.outstanding && n.outstanding[id].RequestVote?
    ensures var (n', reply) := OnVotePersisted(n, id, row);
            && reply == Some(VoteReply(n.outstanding[id].ballot, true))
            && n' == n.(outstanding := n'.outstanding) && n'.outstanding.Keys == n.outstanding.Keys - {id}
    ensures var (n', reply) := OnVoteReply(n, id, term, granted);
            n.role.Candidate? ==>
              && reply == Some(VoteReply(n.outstanding[id].ballot, granted))
              && n' == n.(outstanding := n'.outstanding) && n'.outstanding.Keys == n.outstanding.Keys - {id}
    ensures var (n', reply) := OnLogPersisted(n, id);
            && reply == (if n.role.Leader? then Some(VoteReply(n.outstanding[id].ballot, true)) else None)
            && n' == n.(outstanding := n'.outstanding) && n'.outstanding.Keys == n.outstanding.Keys - {id}
  {
  }

  // ---------------------------------------------------------------- append requests

  /** The node takes the sender for its leader: a new one of a higher term, or the one it
      knows. A candidate gives way to its own term, a leader only to a higher one. */
  predicate Heeds(n: Node, m: Message)
    requires m.AppendEntries?
  {
    match n.role
    case Follower => m.term > n.currentTerm || m.leader == n.leaderId
    case Candidate => m.term >= n.currentTerm
    case Leader(_) => m.term > n.currentTerm
  }

  /** The request names the end of the node's log. */
  predicate Continues(n: Node, m: Message)
    requires m.AppendEntries?
  {
    m.prevIndex == LastIndex(n.replica.log) && m.prevTerm == LastTerm(n.replica.log)
  }

  /** Only a follower stores an entry. Of the leader it knows, it tells entries from
      heartbeats by the request id. */
  predicate Stores(n: Node, m: Message)
    requires m.AppendEntries?
  {
    && n.role.Follower? && Heeds(n, m) && Continues(n, m) && m.entry.Some?
    && (m.term > n.currentTerm || m.requestId != 0)
  }

  /** The request id promises an entry that the request does not carry. */
  predicate Hollow(n: Node, m: Message)
    requires m.AppendEntries?
  {
    n.role.Follower? && m.term <= n.currentTerm && m.requestId != 0 && m.entry.None?
  }

  /** A heartbeat of the leader the follower knows, at the end of its log. */
  predicate Beats(n: Node, m: Message)
    requires m.AppendEntries?
  {
    n.role.Follower? && m.term <= n.currentTerm && m.leader == n.leaderId && Continues(n, m) && m.requestId == 0
  }

  /** Exactly when each of the four answers is given. A follower that asks for entries names
      the end of its own log, in this order: the term, then the index. */
  lemma AppendAnswer(n: Node, m: Message)
    requires m.AppendEntries? && CursorOk(n.replica)
    ensures var (n', reply) := OnAppend(n, m);
            && (reply.UnrecognizedLeader? <==> !Heeds(n, m))
            && (reply.WantedPreviousEntry? <==> Heeds(n, m) && (!Continues(n, m) || Hollow(n, m)))
            && (reply.Deferred? <==> Stores(n, m))
            && (reply.Accepted? <==> Heeds(n, m) && Continues(n, m) && !Stores(n, m) && !Hollow(n, m))
            && (reply.WantedPreviousEntry? ==>
                  && n'.replica == n.replica
                  && reply.lastTerm == LastTerm(n'.replica.log) && reply.lastIndex == LastIndex(n'.replica.log))
  {
  }

  /** What an append request does to the log: a stored entry ends the log in memory, the
      queue for the disk and the records, under one new id. */
  lemma AppendStores(n: Node, m: Message)
    requires m.AppendEntries? && CursorOk(n.replica)
    ensures var n' := OnAppend(n, m).0;
            if Stores(n, m) then
              && n'.replica.log == n.replica.log + [m.entry.value] && n'.nextId == n.nextId + 1
              && n'.work == n.work + [AppendEntry(n.nextId, m.entry.value)]
              && n'.outstanding == n.outstanding[n.nextId := AppendLog(m.requestId)]
            else n'.replica == n.replica && n'.work == n.work && n'.outstanding == n.outstanding
  {
  }

  /** What it does to roles, terms and ids: a node that heeds it follows the sender in the
      higher of the two terms; any other node is left as it is. An id is spent on an entry to
      store, also on one that is missing, and by a leader that steps down. */
  lemma AppendFollows(n: Node, m: Message)
    requires m.AppendEntries? && CursorOk(n.replica)
    ensures var n' := OnAppend(n, m).0;
            if Heeds(n, m) then
              && n'.role.Follower? && n'.leaderId == m.leader && n'.currentTerm == Max(n.currentTerm, m.term)
              && n'.nextTerm == (if n.role.Follower? && m.term <= n.currentTerm then n.nextTerm else m.term + 1)
              && n'.votes == n.votes && n'.disk == n.disk && n'.sent == n.sent && n'.done == n.done
              && n'.nextId == n.nextId +
                              if Stores(n, m) || (Hollow(n, m) && Continues(n, m)) || n.role.Leader? then 1 else 0
            else n' == n
  {
  }

  /** The commit index after an append request: a stored entry raises it to the announced one,
      and a heartbeat of the known leader sets it when that raises it or when the heartbeat is
      of an older term. Nothing else moves it. */
  lemma CommitAfterAppend(n: Node, m: Message)
    requires m.AppendEntries? && CursorOk(n.replica)
    ensures OnAppend(n, m).0.commitIndex ==
            if Stores(n, m) then Max(n.commitIndex, m.commit)
            else if Beats(n, m) && (m.commit > n.commitIndex || m.term < n.currentTerm) then m.commit
            else n.commitIndex
  {
  }

  /** When the stored entry has reached the file and its report is read, the request that
      brought it is answered. */
  lemma StoredThenAnswered(n: Node, m: Message)
    requires m.AppendEntries? && CursorOk(n.replica) && Stores(n, m) && n.work == [] && n.done == []
    ensures var n' := PersistOne(OnAppend(n, m).0);
            && n'.disk.log == n.disk.log + [m.entry.value] && n'.done == [LogPersisted(n.nextId)]
            && AnsweredAppend(n') == Some(m.requestId)
            && n.nextId !in HandlePersisted(n').0.outstanding
  {
    AppendStores(n, m);
    AppendFollows(n, m);
    hide OnAppend, Stores;
  }

  /** A report is answered exactly when it is about the entry of an append request and the
      node does not lead. */
  lemma AppendAnsweredIff(n: Node, r: nat)
    requires n.done != []
    ensures AnsweredAppend(n) == Some(r) <==>
            && !n.role.Leader? && n.done[0].LogPersisted?
            && n.done[0].id in n.outstanding && n.outstanding[n.done[0].id] == AppendLog(r)
  {
  }

  // ---------------------------------------------------------------- writes

  /** A leadership opens with an entry of its own term that holds no commands and that no
      client waits for, at the end of the log whatever the next index was. It takes the second
      of two new ids. */
  lemma LeadershipOpens(n: Node, timestamp: nat)
    ensures var n' := InitializeLeadership(n, timestamp);
            && |n'.replica.log| == |n.replica.log| + 1 && n'.replica.log[..|n.replica.log|] == n.replica.log
            && var e := n'.replica.log[|n.replica.log|];
               && e.commands == [] && e.timestamp == timestamp && e.term == n.currentTerm
               && e.index == |n.replica.log| && e.messageId == n.nextId + 1
               && e.prevIndex == n.replica.lastIndex && e.prevTerm == n.replica.lastTerm
               && n'.replica.lastIndex == e.index && n'.replica.lastTerm == e.term
               && n'.replica.nextIndex == e.index + 1
               && n'.work == n.work + [AppendEntry(e.messageId, e)]
               && n'.sent == n.sent + {AppendEntries(n.currentTerm, n.id, e.prevIndex, e.prevTerm, e.messageId, Some(e),
                                                     n.commitIndex)}
               && n'.outstanding == n.outstanding[e.messageId := Proposal(false, n.peers + 1, false, 0, e.index)]
               && n'.role == Leader(true) && n'.nextId == n.nextId + 2 && n'.commitIndex == n.commitIndex
  {
    var e := NewEntry(n, |n.replica.log|, n.nextId + 1, timestamp, []);
    assert (n.replica.log + [e])[..|n.replica.log|] == n.replica.log;
  }

  /** A batch of commands becomes one entry of the leader's term that holds all of them in
      order. The same entry ends the log, the queue for the disk and, in a message to the
      peers, the outbox, and its client is registered under the entry's id. */
  lemma WriteStored(n: Node, timestamp: nat, commands: seq<Command>)
    requires commands != []
    ensures var n' := WriteBatch(n, timestamp, commands);
            && |n'.replica.log| == |n.replica.log| + 1 && n'.replica.log[..|n.replica.log|] == n.replica.log
            && var e := n'.replica.log[|n.replica.log|];
               && e.commands == commands && e.timestamp == timestamp && e.term == n.currentTerm
               && e.index == n.replica.nextIndex && e.messageId == n.nextId
               && e.prevIndex == n.replica.lastIndex && e.prevTerm == n.replica.lastTerm
               && n'.replica.lastIndex == e.index && n'.replica.lastTerm == e.term
               && n'.replica.nextIndex == e.index + 1
               && n'.work == n.work + [AppendEntry(e.messageId, e)]
               && n'.sent == n.sent + {AppendEntries(n.currentTerm, n.id, e.prevIndex, e.prevTerm, e.messageId, Some(e),
                                                     n.commitIndex)}
               && n'.outstanding == n.outstanding[e.messageId := Proposal(true, n.peers + 1, false, 0, e.index)]
               && n'.nextId == n.nextId + 1 && n'.commitIndex == n.commitIndex
  {
    assert (n.replica.log + [NewEntry(n, n.replica.nextIndex, n.nextId, timestamp, commands)])[..|n.replica.log|]
        == n.replica.log;
  }
}
