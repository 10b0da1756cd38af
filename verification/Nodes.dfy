/** The state of one Kraft process with its disk, and every handler as a function on it. */
module Nodes {
  import opened Logs

  datatype Role = Follower | Candidate | Leader(initialized: bool)

  /** Identifies one request for one vote: the candidate's process run (epoch) and message
      id, the term asked for, and the node asked. */
  datatype Ballot = Ballot(candidate: NodeId, epoch: nat, id: nat, term: nat, voter: NodeId)

  datatype VoteReply = VoteReply(ballot: Ballot, granted: bool)

  /** What a node waits for under a message id. `Proposal` is a client write batch, or a
      leader's no-op when no client waits for it. */
  datatype Outstanding =
    | RequestVote(ballot: Ballot)
    | CandidateElection(responses: int, persisted: bool, votes: nat)
    | AppendLog(requestId: nat)
    | Proposal(client: bool, responses: int, persisted: bool, acks: nat, index: nat)

  datatype VoteRow = VoteRow(term: nat, candidate: NodeId)

  datatype Task =
    | AppendVote(id: nat, row: VoteRow)
    | AppendEntry(id: nat, entry: Entry)
    | TruncateTo(length: nat)

  datatype Response =
    | VotePersisted(id: nat, row: VoteRow)
    | LogPersisted(id: nat)

  datatype Message =
    | AppendEntries(term: nat, leader: NodeId, prevIndex: nat, prevTerm: nat,
                    requestId: nat, entry: Option<Entry>, commit: nat)
    | TruncateLog(term: nat, leader: NodeId, prevTerm: nat, prevIndex: nat)

  datatype AppendReply =
    | Accepted
    | UnrecognizedLeader
    | WantedPreviousEntry(lastTerm: nat, lastIndex: nat)
    | Deferred // answered with Accepted once the entry is on disk

  datatype Replica = Replica(
    log: Log, lastIndex: nat, lastTerm: nat, nextIndex: nat, termStarts: map<nat, nat>)

  /** The cursor describes the end of the log. */
  predicate CursorOk(r: Replica) {
    r.lastIndex == LastIndex(r.log) && r.lastTerm == LastTerm(r.log)
  }

  datatype Disk = Disk(votes: seq<VoteRow>, log: Log)

  datatype Node = Node(
    id: NodeId, peers: nat, quorum: nat, epoch: nat,
    role: Role, currentTerm: nat, leaderId: NodeId, nextTerm: nat, commitIndex: nat,
    replica: Replica, votes: map<nat, NodeId>,
    nextId: nat, outstanding: map<nat, Outstanding>,
    work: seq<Task>, done: seq<Response>, disk: Disk,
    sent: set<Message>)

  // ---------------------------------------------------------------- startup and recovery

  /** The start of each term in a log; a term that recurs keeps its latest start. */
  function TermStarts(log: Log): map<nat, nat> {
    if log == [] then map[]
    else
      var n := |log| - 1;
      var before := TermStarts(log[..n]);
      if log[n].term != LastTerm(log[..n]) then before[log[n].term := n] else before
  }

  /** The vote map read back from the votes file; a later row for a term overrides. */
  function VotesOf(rows: seq<VoteRow>): map<nat, NodeId> {
    if rows == [] then map[]
    else
      var n := |rows| - 1;
      VotesOf(rows[..n])[rows[n].term := rows[n].candidate]
  }

  function MaxVoteTerm(rows: seq<VoteRow>): nat {
    if rows == [] then 0
    else
      var n := |rows| - 1;
      var before := MaxVoteTerm(rows[..n]);
      if rows[n].term >= before then rows[n].term else before
  }

  function Max(a: nat, b: nat): nat {
    if a >= b then a else b
  }

  function RecoveredReplica(log: Log): Replica {
    Replica(log, LastIndex(log), LastTerm(log), LastIndex(log) + 1, TermStarts(log))
  }

  function Started(id: NodeId, peers: nat, quorum: nat, epoch: nat, disk: Disk, sent: set<Message>): Node {
    Node(id, peers, quorum, epoch,
         Follower, 0, 0, Max(MaxVoteTerm(disk.votes), LastTerm(disk.log)) + 1, 0,
         RecoveredReplica(disk.log), VotesOf(disk.votes),
         0, map[], [], [], disk, sent)
  }

  /** The process dies and starts again from its files. Messages already sent stay sent. */
  function Restarted(n: Node): Node {
    Started(n.id, n.peers, n.quorum, n.epoch + 1, n.disk, n.sent)
  }

  // ---------------------------------------------------------------- persistence worker

  function ApplyTask(log: Log, task: Task): Log {
    match task
    case AppendVote(_, _) => log
    case AppendEntry(_, e) => log + [e]
    case TruncateTo(k) => if k <= |log| then log[..k] else log
  }

  function ResponseTo(task: Task): seq<Response> {
    match task
    case AppendVote(id, row) => [VotePersisted(id, row)]
    case AppendEntry(id, _) => [LogPersisted(id)]
    case TruncateTo(_) => []
  }

  /** The effect of the oldest queued task reaches the disk and is reported. */
  function PersistOne(n: Node): Node
    requires n.work != []
  {
    var task := n.work[0];
    var votes := if task.AppendVote? then n.disk.votes + [task.row] else n.disk.votes;
    n.(work := n.work[1..], done := n.done + ResponseTo(task),
       disk := Disk(votes, ApplyTask(n.disk.log, task)))
  }

  // ---------------------------------------------------------------- voting

  predicate ShouldAcceptVote(n: Node, term: nat, lastIndex: nat) {
    term !in n.votes && term > n.currentTerm && lastIndex >= n.replica.lastIndex
  }

  /** A vote request raises `nextTerm` in every role. An accepted request is recorded,
      persisted and later answered by candidates and leaders; a follower only registers it. */
  function OnVoteRequest(n: Node, b: Ballot, lastIndex: nat): (Node, Option<VoteReply>) {
    var n := if n.nextTerm <= b.term then n.(nextTerm := b.term + 1) else n;
    if !ShouldAcceptVote(n, b.term, lastIndex) then (n, Some(VoteReply(b, false)))
    else
      var n := n.(nextId := n.nextId + 1, outstanding := n.outstanding[n.nextId := RequestVote(b)]);
      if n.role.Follower? then (n, None)
      else
        (n.(votes := n.votes[b.term := b.candidate],
            work := n.work + [AppendVote(n.nextId - 1, VoteRow(b.term, b.candidate))]), None)
  }

  /** A candidate votes for itself in its next term, without looking at earlier votes. */
  function StartElection(n: Node): Node {
    var id := n.nextId;
    var term := n.nextTerm;
    n.(nextId := id + 1, nextTerm := term + 1,
       work := n.work + [AppendVote(id, VoteRow(term, n.id))],
       votes := n.votes[term := n.id],
       outstanding := n.outstanding[id := CandidateElection(n.peers + 1, false, 1)])
  }

  function BecomeLeader(n: Node, term: nat): Node {
    n.(role := Leader(false), leaderId := n.id, currentTerm := term)
  }

  function Forget(n: Node, id: nat): Node {
    n.(outstanding := n.outstanding - {id})
  }

  function OnVotePersisted(n: Node, id: nat, row: VoteRow): (Node, Option<VoteReply>) {
    if id !in n.outstanding then (n, None)
    else
      match n.outstanding[id]
      case RequestVote(b) => (Forget(n, id), Some(VoteReply(b, true)))
      case CandidateElection(responses, _, votes) =>
        if !n.role.Candidate? then (Forget(n, id), None)
        else if votes >= n.quorum then (BecomeLeader(Forget(n, id), row.term), None)
        else
          (n.(outstanding := n.outstanding[id := CandidateElection(responses - 1, true, votes)]), None)
      case _ => (Forget(n, id), None)
  }

  /** A vote response reaches the process that asked for it; only a candidate counts it. */
  function OnVoteReply(n: Node, id: nat, term: nat, granted: bool): (Node, Option<VoteReply>) {
    if !n.role.Candidate? || id !in n.outstanding then (n, None)
    else
      match n.outstanding[id]
      case RequestVote(b) => (Forget(n, id), Some(VoteReply(b, granted)))
      case CandidateElection(responses, persisted, votes) =>
        var votes := if granted then votes + 1 else votes;
        if votes >= n.quorum && persisted then (BecomeLeader(Forget(n, id), term), None)
        else if responses - 1 > 0 then
          (n.(outstanding := n.outstanding[id := CandidateElection(responses - 1, persisted, votes)]), None)
        else (Forget(n, id), None)
      case _ => (Forget(n, id), None)
  }

  // ---------------------------------------------------------------- receiving entries

  predicate Consecutive(r: Replica, prevIndex: nat, prevTerm: nat) {
    prevIndex == r.lastIndex && prevTerm == r.lastTerm
  }

  function Push(r: Replica, e: Entry): Replica {
    r.(log := r.log + [e], lastIndex := e.index, lastTerm := e.term,
       termStarts := if e.prevTerm != e.term then r.termStarts[e.term := |r.log|] else r.termStarts)
  }

  function Recognise(n: Node, m: Message): Node
    requires m.AppendEntries?
  {
    n.(currentTerm := m.term, leaderId := m.leader, nextTerm := m.term + 1)
  }

  function ApplyEntry(n: Node, m: Message): (Node, AppendReply)
    requires m.AppendEntries?
  {
    var id := n.nextId;
    var n := n.(nextId := id + 1);
    match m.entry
    case None => (n, WantedPreviousEntry(n.replica.lastTerm, n.replica.lastIndex))
    case Some(e) =>
      (n.(replica := Push(n.replica, e),
          work := n.work + [AppendEntry(id, e)],
          commitIndex := Max(n.commitIndex, m.commit),
          outstanding := n.outstanding[id := AppendLog(m.requestId)]), Deferred)
  }

  function Wanted(n: Node): AppendReply {
    WantedPreviousEntry(n.replica.lastTerm, n.replica.lastIndex)
  }

  function FollowerAppend(n: Node, m: Message): (Node, AppendReply)
    requires m.AppendEntries?
  {
    var consecutive := Consecutive(n.replica, m.prevIndex, m.prevTerm);
    if m.term > n.currentTerm then
      var n := Recognise(n, m);
      if !consecutive then (n, Wanted(n))
      else if m.entry.Some? then ApplyEntry(n, m)
      else (n, Accepted)
    else if m.leader != n.leaderId then (n, UnrecognizedLeader)
    else if !consecutive then (n, Wanted(n))
    else if m.requestId != 0 then ApplyEntry(n, m)
    else if m.commit > n.commitIndex || n.currentTerm != m.term then (n.(commitIndex := m.commit), Accepted)
    else (n, Accepted)
  }

  /** A candidate or leader that steps down answers a consecutive request with Accepted but
      does not store its entry. */
  function StepDown(n: Node, m: Message): (Node, AppendReply)
    requires m.AppendEntries?
  {
    var id := if n.role.Leader? then n.nextId + 1 else n.nextId;
    var n := Recognise(n, m).(role := Follower, nextId := id);
    (n, if Consecutive(n.replica, m.prevIndex, m.prevTerm) then Accepted else Wanted(n))
  }

  function OnAppend(n: Node, m: Message): (Node, AppendReply)
    requires m.AppendEntries?
  {
    match n.role
    case Follower => FollowerAppend(n, m)
    case Candidate => if m.term >= n.currentTerm then StepDown(n, m) else (n, UnrecognizedLeader)
    case Leader(_) => if m.term > n.currentTerm then StepDown(n, m) else (n, UnrecognizedLeader)
  }

  /** Keeps the entries up to the named index and takes the named term as the new cursor,
      whatever term the kept entry has. */
  function Cut(r: Replica, prevTerm: nat, prevIndex: nat): Replica {
    if prevIndex + 1 >= |r.log| then r
    else
      Replica(r.log[..prevIndex + 1], prevIndex, prevTerm, prevIndex + 1,
              map t | t in r.termStarts && r.termStarts[t] <= prevIndex :: r.termStarts[t])
  }

  /** Only a follower acts on a truncate request, from whatever leader or term it came. */
  function OnTruncate(n: Node, prevTerm: nat, prevIndex: nat): Node {
    if !n.role.Follower? || prevIndex + 1 >= |n.replica.log| then n
    else n.(replica := Cut(n.replica, prevTerm, prevIndex), work := n.work + [TruncateTo(prevIndex + 1)])
  }

  // ---------------------------------------------------------------- leading

  function NewEntry(n: Node, index: nat, id: nat, timestamp: nat, commands: seq<Command>): Entry {
    Entry(index, n.currentTerm, n.replica.lastIndex, n.replica.lastTerm, id, timestamp, commands)
  }

  /** Appends a new entry of the current term, queues it for the disk, sends it to the peers
      and registers the proposal, before the cursor is moved. */
  function Propose(n: Node, timestamp: nat, commands: seq<Command>, client: bool): Node {
    var id := n.nextId;
    var index := n.replica.nextIndex;
    var e := NewEntry(n, index, id, timestamp, commands);
    n.(nextId := id + 1,
       replica := Push(n.replica, e).(nextIndex := index + 1),
       work := n.work + [AppendEntry(id, e)],
       sent := n.sent + {EntryMessage(n, e)},
       outstanding := n.outstanding[id := Proposal(client, n.peers + 1, false, 0, index)])
  }

  function EntryMessage(n: Node, e: Entry): Message {
    AppendEntries(n.currentTerm, n.id, e.prevIndex, e.prevTerm, e.messageId, Some(e), n.commitIndex)
  }

  /** The first step of a leadership spends one id on the heartbeats and proposes a no-op. */
  function InitializeLeadership(n: Node, timestamp: nat): Node {
    var n := n.(nextId := n.nextId + 1, role := Leader(true),
                replica := n.replica.(nextIndex := |n.replica.log|));
    Propose(n, timestamp, [], false)
  }

  /** An empty batch is refused after its message id has been taken. */
  function WriteBatch(n: Node, timestamp: nat, commands: seq<Command>): Node {
    if commands == [] then n.(nextId := n.nextId + 1) else Propose(n, timestamp, commands, true)
  }

  /** What one persistence event or one peer acknowledgement makes of a proposal. */
  datatype Progress = Kept(record: Outstanding) | Completed | Dropped

  function AfterPersisted(p: Outstanding, quorum: nat): Progress
    requires p.Proposal?
  {
    if p.acks >= quorum then Completed
    else Kept(p.(persisted := true, responses := p.responses - 1))
  }

  function AfterAck(p: Outstanding, quorum: nat): Progress
    requires p.Proposal?
  {
    if p.acks + 1 >= quorum && p.persisted then Completed
    else if p.responses - 1 > 0 then Kept(p.(acks := p.acks + 1, responses := p.responses - 1))
    else Dropped
  }

  function Advance(n: Node, id: nat, index: nat, progress: Progress): Node {
    match progress
    case Kept(record) => n.(outstanding := n.outstanding[id := record])
    case Completed => Forget(n, id).(commitIndex := Max(n.commitIndex, index))
    case Dropped => Forget(n, id)
  }

  function OnLogPersisted(n: Node, id: nat): (Node, Option<VoteReply>) {
    if id !in n.outstanding then (n, None)
    else if !n.role.Leader? then (Forget(n, id), None)
    else
      match n.outstanding[id]
      case Proposal(_, _, _, _, index) =>
        (Advance(n, id, index, AfterPersisted(n.outstanding[id], n.quorum)), None)
      case RequestVote(b) => (Forget(n, id), Some(VoteReply(b, true)))
      case _ => (Forget(n, id), None)
  }

  function OnPersisted(n: Node, r: Response): (Node, Option<VoteReply>) {
    match r
    case VotePersisted(id, row) => OnVotePersisted(n, id, row)
    case LogPersisted(id) => OnLogPersisted(n, id)
  }

  function HandlePersisted(n: Node): (Node, Option<VoteReply>)
    requires n.done != []
  {
    OnPersisted(n.(done := n.done[1..]), n.done[0])
  }

  /** The append request that reading the oldest report answers with Ok: the one whose entry
      the report is about. A leader answers none. */
  function AnsweredAppend(n: Node): Option<nat>
    requires n.done != []
  {
    var id := n.done[0].id;
    if n.done[0].LogPersisted? && !n.role.Leader? && id in n.outstanding && n.outstanding[id].AppendLog?
    then Some(n.outstanding[id].requestId) else None
  }

  /** An acknowledgement from some peer; outside leadership it is ignored. */
  function OnAck(n: Node, id: nat): Node {
    if !n.role.Leader? || id !in n.outstanding then n
    else
      match n.outstanding[id]
      case Proposal(_, _, _, _, index) => Advance(n, id, index, AfterAck(n.outstanding[id], n.quorum))
      case _ => Forget(n, id)
  }
}
