/** What single handlers keep, and the exact conditions under which they do. */
module Premises {
  import opened Logs
  import opened Nodes
  import opened Cluster

  /** A truncation leaves a cursor that describes the log exactly when the named entry is
      held with the named term. */
  lemma TruncationKeepsCursorIff(r: Replica, prevTerm: nat, prevIndex: nat)
    requires WellFormed(r.log) && CursorOk(r)
    ensures CursorOk(Cut(r, prevTerm, prevIndex)) <==> HoldsPoint(r, prevTerm, prevIndex)
  {
    if prevIndex + 1 < |r.log| {
      assert EntryAt(r.log, prevIndex);
    }
  }

  /** The "truncate everything" signal (0, 0) keeps entry 0 but empties the cursor, so the
      first backfilled entry lands at position 1: no log of two or more entries survives it. */
  lemma TruncateEverythingBreaksLog(r: Replica, first: Entry)
    requires WellFormed(r.log) && |r.log| >= 2
    requires first.index == 0 && first.prevIndex == 0 && first.prevTerm == 0
    ensures Consecutive(Cut(r, 0, 0), first.prevIndex, first.prevTerm)
    ensures !WellFormed(Push(Cut(r, 0, 0), first).log)
  {
    assert !EntryAt(Push(Cut(r, 0, 0), first).log, 1);
  }

  /** Starting an election keeps every vote given so far exactly when the term has no vote,
      or the node's own. */
  lemma ElectionKeepsVotesIff(n: Node)
    ensures (forall t | t in n.votes :: StartElection(n).votes[t] == n.votes[t])
            <==> (n.nextTerm in n.votes ==> n.votes[n.nextTerm] == n.id)
  {
    if n.nextTerm in n.votes {
      assert StartElection(n).votes[n.nextTerm] == n.id;
    }
  }

  /** A candidate that has voted for another node in term m.term + 1 and then hears from the
      leader of m.term falls back to that term: its next election votes in it again. */
  lemma StaleLeaderReopensTerm(n: Node, m: Message, other: NodeId)
    requires n.role.Candidate? && m.AppendEntries? && m.term >= n.currentTerm
    requires m.term + 1 in n.votes && n.votes[m.term + 1] == other && other != n.id
    ensures var again := StartElection(OnAppend(n, m).0.(role := Candidate));
            && again.votes[m.term + 1] == n.id
            && again.work == n.work + [AppendVote(n.nextId, VoteRow(m.term + 1, n.id))]
  {
  }

  /** A follower's commit index falls exactly on a consecutive heartbeat from the leader it
      knows, stamped with an older term and a smaller commit index. */
  lemma CommitFallsIff(n: Node, m: Message)
    requires n.role.Follower? && m.AppendEntries?
    ensures OnAppend(n, m).0.commitIndex < n.commitIndex <==>
            && m.term < n.currentTerm && m.leader == n.leaderId && m.requestId == 0
            && Consecutive(n.replica, m.prevIndex, m.prevTerm) && m.commit < n.commitIndex
  {
  }

  /** A candidate or leader that steps down acknowledges an entry without keeping it exactly
      when the entry continues its log. */
  lemma LostAcknowledgementIff(n: Node, m: Message)
    requires !n.role.Follower? && m.AppendEntries? && m.entry.Some?
    ensures var (n', reply) := OnAppend(n, m);
            && n'.replica.log == n.replica.log && n'.work == n.work
            && (reply.Accepted? <==>
                  Consecutive(n.replica, m.prevIndex, m.prevTerm) &&
                  if n.role.Leader? then m.term > n.currentTerm else m.term >= n.currentTerm)
  {
  }

  /** A write of a leader keeps its log well-formed exactly when the log is not empty and the
      next index is its length, as the first time step of a leadership makes it. */
  lemma WriteKeepsLogIff(n: Node, timestamp: nat, commands: seq<Command>)
    requires WellFormed(n.replica.log) && CursorOk(n.replica) && n.currentTerm >= 1 && n.nextId >= 1 && commands != []
    ensures WellFormed(WriteBatch(n, timestamp, commands).replica.log) <==>
            n.replica.log != [] && n.replica.nextIndex == |n.replica.log|
  {
    var log := n.replica.log;
    var e := NewEntry(n, n.replica.nextIndex, n.nextId, timestamp, commands);
    var longer := WriteBatch(n, timestamp, commands).replica.log;
    assert longer == log + [e];
    if log != [] && n.replica.nextIndex == |log| {
      ChainedEntry(log, e);
    } else {
      assert !EntryAt(longer, |log|);
    }
  }
}
