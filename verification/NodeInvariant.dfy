/** What every handler keeps true of one node, whatever its role. */
module NodeInvariant {
  import opened Logs
  import opened Nodes
  import opened Cluster

  predicate Fits(file: Log, task: Task) {
    task.TruncateTo? ==> task.length <= |file|
  }

  /** Memory mirrors disk: carrying out the queued tasks on the file yields the log in
      memory, each truncation names a length the file has reached, and the file is a sound
      log at every moment on the way. */
  predicate Mirrors(file: Log, work: seq<Task>, log: Log, h: History)
    decreases |work|
  {
    && Sound(file, h)
    && if work == [] then file == log
       else Fits(file, work[0]) && Mirrors(ApplyTask(file, work[0]), work[1..], log, h)
  }

  predicate Honours(votes: map<nat, NodeId>, row: VoteRow) {
    row.term in votes && votes[row.term] == row.candidate
  }

  /** Every vote on disk or on its way there is the vote in memory, so no term has two. */
  predicate VotesOk(n: Node) {
    && (forall row | row in n.disk.votes :: Honours(n.votes, row))
    && (forall k | 0 <= k < |n.work| && n.work[k].AppendVote? :: Honours(n.votes, n.work[k].row))
  }

  /** A vote being persisted under an id can only be reported to the request or election
      that caused it. */
  predicate VoteTracked(n: Node, tally: map<nat, Tally>, id: nat, row: VoteRow) {
    && id < n.nextId
    && (id in n.outstanding ==>
          match n.outstanding[id]
          case RequestVote(b) => b.candidate == row.candidate && b.term == row.term
          case CandidateElection(_, _, _) => id in tally && tally[id].term == row.term && row.candidate == n.id
          case _ => false)
  }

  predicate EntryTracked(n: Node, id: nat) {
    id < n.nextId && (id in n.outstanding ==> n.outstanding[id].AppendLog? || n.outstanding[id].Proposal?)
  }

  /** The record of an entry being persisted is that of the request that brought it, or of
      the proposal that created it. */
  predicate EntryMatched(n: Node, id: nat, e: Entry) {
    id in n.outstanding ==>
      match n.outstanding[id]
      case AppendLog(requestId) => requestId == e.messageId
      case Proposal(_, _, _, _, index) => index == e.index && id == e.messageId
      case _ => false
  }

  predicate TaskOk(n: Node, tally: map<nat, Tally>, task: Task) {
    match task
    case AppendVote(id, row) => VoteTracked(n, tally, id, row)
    case AppendEntry(id, e) => EntryTracked(n, id) && EntryMatched(n, id, e)
    case TruncateTo(_) => true
  }

  predicate ResponseOk(n: Node, tally: map<nat, Tally>, r: Response) {
    match r
    case VotePersisted(id, row) => VoteTracked(n, tally, id, row) && row in n.disk.votes
    case LogPersisted(id) => EntryTracked(n, id)
  }

  predicate QueuesOk(n: Node, tally: map<nat, Tally>) {
    && (forall k | 0 <= k < |n.work| :: TaskOk(n, tally, n.work[k]))
    && (forall k | 0 <= k < |n.done| :: ResponseOk(n, tally, n.done[k]))
  }

  predicate RecordOk(n: Node, tally: map<nat, Tally>, id: nat)
    requires id in n.outstanding
  {
    && id < n.nextId
    && (n.outstanding[id].RequestVote? ==> n.outstanding[id].ballot.voter == n.id)
    && (n.outstanding[id].CandidateElection? <==> id in tally)
    && (id in tally ==> |tally[id].voters| == n.outstanding[id].votes)
  }

  predicate TallyOk(n: Node, tally: map<nat, Tally>, id: nat)
    requires id in tally
  {
    id < n.nextId && tally[id].term >= 1 && Honours(n.votes, VoteRow(tally[id].term, n.id))
  }

  predicate IdsOk(n: Node, tally: map<nat, Tally>) {
    && (forall id | id in n.outstanding :: RecordOk(n, tally, id))
    && (forall id | id in tally :: TallyOk(n, tally, id))
    && (forall i, j | i in tally && j in tally && tally[i].term == tally[j].term :: i == j)
  }

  predicate RoleOk(n: Node) {
    && n.nextTerm >= 1
    && (n.role.Leader? ==> n.currentTerm >= 1 && n.nextId >= 1)
    && (n.role == Leader(true) ==> n.replica.log != [] && n.replica.nextIndex == |n.replica.log|)
  }

  predicate NodeInv(n: Node, tally: map<nat, Tally>, h: History) {
    && Mirrors(n.disk.log, n.work, n.replica.log, h)
    && CursorOk(n.replica) && n.replica.termStarts == TermStarts(n.replica.log)
    && VotesOk(n)
    && QueuesOk(n, tally)
    && IdsOk(n, tally)
    && RoleOk(n)
  }

  // ---------------------------------------------------------------- memory mirrors disk

  lemma {:induction false} MirrorsSound(file: Log, work: seq<Task>, log: Log, h: History)
    requires Mirrors(file, work, log, h)
    ensures Sound(log, h)
    decreases |work|
  {
    if work != [] {
      MirrorsSound(ApplyTask(file, work[0]), work[1..], log, h);
    }
  }

  lemma {:induction false} MirrorsUnderGrowth(file: Log, work: seq<Task>, log: Log, h: History, h': History)
    requires Mirrors(file, work, log, h) && Grows(h, h')
    ensures Mirrors(file, work, log, h')
    decreases |work|
  {
    SoundUnderGrowth(file, h, h');
    if work != [] {
      MirrorsUnderGrowth(ApplyTask(file, work[0]), work[1..], log, h, h');
    }
  }

  /** Queueing the task that matches a change of the log keeps the mirror. */
  lemma {:induction false} MirrorsQueue(file: Log, work: seq<Task>, log: Log, task: Task, h: History)
    requires Mirrors(file, work, log, h) && Fits(log, task) && Sound(ApplyTask(log, task), h)
    ensures Mirrors(file, work + [task], ApplyTask(log, task), h)
    decreases |work|
  {
    var longer := work + [task];
    if work == [] {
      assert longer[1..] == [];
    } else {
      assert longer[1..] == work[1..] + [task];
      MirrorsQueue(ApplyTask(file, work[0]), work[1..], log, task, h);
    }
  }

  /** Every queued truncation names a length within the file once its turn comes. */
  lemma {:induction false} TruncationsFit(file: Log, work: seq<Task>, log: Log, h: History, k: nat)
    requires Mirrors(file, work, log, h) && k < |work|
    ensures Fits(Replay(file, work[..k]), work[k])
    decreases |work|
  {
    if k > 0 {
      TruncationsFit(ApplyTask(file, work[0]), work[1..], log, h, k - 1);
      assert work[..k][1..] == work[1..][..k - 1];
    }
  }

  function Replay(file: Log, work: seq<Task>): Log
    decreases |work|
  {
    if work == [] then file else Replay(ApplyTask(file, work[0]), work[1..])
  }

  lemma {:induction false} MirrorsReplay(file: Log, work: seq<Task>, log: Log, h: History)
    requires Mirrors(file, work, log, h)
    ensures Replay(file, work) == log
    decreases |work|
  {
    if work != [] {
      MirrorsReplay(ApplyTask(file, work[0]), work[1..], log, h);
    }
  }

  // ---------------------------------------------------------------- the same without history

  /** Carrying out the queued tasks on the file yields the log in memory, over well-formed
      files all the way, and each truncation names a length the file has reached. */
  predicate Tracks(file: Log, work: seq<Task>, log: Log)
    decreases |work|
  {
    && WellFormed(file)
    && if work == [] then file == log
       else Fits(file, work[0]) && Tracks(ApplyTask(file, work[0]), work[1..], log)
  }

  lemma {:induction false} TracksWellFormed(file: Log, work: seq<Task>, log: Log)
    requires Tracks(file, work, log)
    ensures WellFormed(log) && Replay(file, work) == log
    decreases |work|
  {
    if work != [] {
      TracksWellFormed(ApplyTask(file, work[0]), work[1..], log);
    }
  }

  lemma {:induction false} TracksQueue(file: Log, work: seq<Task>, log: Log, task: Task)
    requires Tracks(file, work, log) && Fits(log, task) && WellFormed(ApplyTask(log, task))
    ensures Tracks(file, work + [task], ApplyTask(log, task))
    decreases |work|
  {
    var longer := work + [task];
    if work == [] {
      assert longer[1..] == [];
    } else {
      assert longer[1..] == work[1..] + [task];
      TracksQueue(ApplyTask(file, work[0]), work[1..], log, task);
    }
  }

  lemma {:induction false} MirrorsTracks(file: Log, work: seq<Task>, log: Log, h: History)
    requires Mirrors(file, work, log, h)
    ensures Tracks(file, work, log)
    decreases |work|
  {
    if work != [] {
      MirrorsTracks(ApplyTask(file, work[0]), work[1..], log, h);
    }
  }

  predicate NoCuts(work: seq<Task>) {
    forall k | 0 <= k < |work| :: !work[k].TruncateTo?
  }

  /** Without truncations on the way, the file is a prefix of the log. */
  lemma {:induction false} NoCutsPrefix(file: Log, work: seq<Task>, log: Log)
    requires Tracks(file, work, log) && NoCuts(work)
    ensures file <= log
    decreases |work|
  {
    if work != [] {
      assert NoCuts(work[1..]);
      NoCutsPrefix(ApplyTask(file, work[0]), work[1..], log);
    }
  }

  // ---------------------------------------------------------------- handlers that leave the log alone

  /** Log, votes, queues and files are untouched; records may change but not their kind. */
  predicate SameStore(n: Node, n': Node) {
    && n'.id == n.id && n'.replica.log == n.replica.log
    && n'.replica.lastIndex == n.replica.lastIndex && n'.replica.lastTerm == n.replica.lastTerm
    && n'.replica.termStarts == n.replica.termStarts
    && n'.votes == n.votes && n'.work == n.work && n'.disk == n.disk
    && n'.nextId >= n.nextId
  }

  predicate SameKind(o: Outstanding, o': Outstanding) {
    || o == o'
    || (o.CandidateElection? && o'.CandidateElection?)
    || (o.Proposal? && o'.Proposal? && o'.index == o.index)
  }

  predicate RecordsKept(n: Node, n': Node) {
    forall id | id in n'.outstanding && id < n.nextId ::
      id in n.outstanding && SameKind(n.outstanding[id], n'.outstanding[id])
  }

  lemma TasksKept(n: Node, n': Node, tally: map<nat, Tally>)
    requires QueuesOk(n, tally) && RecordsKept(n, n') && n'.id == n.id && n'.nextId >= n.nextId
    ensures forall k | 0 <= k < |n.work| :: TaskOk(n', tally, n.work[k])
    ensures n'.disk == n.disk ==> forall k | 0 <= k < |n.done| :: ResponseOk(n', tally, n.done[k])
  {
    forall k | 0 <= k < |n.work| ensures TaskOk(n', tally, n.work[k]) {
      assert TaskOk(n, tally, n.work[k]);
    }
    if n'.disk == n.disk {
      forall k | 0 <= k < |n.done| ensures ResponseOk(n', tally, n.done[k]) {
        assert ResponseOk(n, tally, n.done[k]);
      }
    }
  }

  lemma KeptStore(n: Node, n': Node, tally: map<nat, Tally>, h: History)
    requires NodeInv(n, tally, h) && SameStore(n, n') && RecordsKept(n, n')
    requires n'.done == n.done
    requires forall id | id in n'.outstanding :: RecordOk(n', tally, id)
    requires RoleOk(n')
    ensures NodeInv(n', tally, h)
  {
    TasksKept(n, n', tally);
    forall id | id in tally ensures TallyOk(n', tally, id) {
      assert TallyOk(n, tally, id);
    }
  }
}
