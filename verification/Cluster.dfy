/** A cluster of Kraft nodes: every step of every node, in any interleaving, with lost,
    repeated and reordered append and truncate messages and with crashes. */
module Cluster {
  import opened Logs
  import opened Nodes
  import opened Repair

  /** Where a vote request currently is. A request travels once, is answered at most once,
      and its answer is read at most once. */
  datatype Phase = Requested(lastIndex: nat) | AtVoter | Answered(granted: bool)

  /** History: the term of an election and the votes its candidate has counted. */
  datatype Tally = Tally(term: nat, voters: set<NodeId>)

  /** `tallies`, `wins` and `leaderLogs` record history for the proofs; no step reads them.
      `wins` maps each (term, node) election win to the voters it was won with. */
  datatype Cluster = Cluster(
    nodes: map<NodeId, Node>,
    ballots: map<Ballot, Phase>,
    tallies: map<NodeId, map<nat, Tally>>,
    wins: map<(nat, NodeId), set<NodeId>>,
    leaderLogs: History)

  /** Half of the members, rounded up. */
  function QuorumSize(members: nat): nat {
    (members + 1) / 2
  }

  function Init(members: set<NodeId>): Cluster {
    Cluster(
      map v | v in members ::
        Started(v, if |members| == 0 then 0 else |members| - 1, QuorumSize(|members|), 0, Disk([], []), {}),
      map[],
      map v | v in members :: map[],
      map[], map[])
  }

  datatype Step =
    | ElectionTimeout(v: NodeId)
    | BeginElection(v: NodeId)
    | DeliverVoteRequest(b: Ballot)
    | DeliverVoteReply(b: Ballot)
    | LoseBallot(b: Ballot)
    | DeliverAppend(v: NodeId, from: NodeId, m: Message, commit: nat)
    | DeliverTruncate(v: NodeId, from: NodeId, m: Message)
    | Persist(v: NodeId)
    | ReadPersisted(v: NodeId)
    | BeginLeading(v: NodeId, timestamp: nat)
    | ClientWrite(v: NodeId, timestamp: nat, commands: seq<Command>)
    | Heartbeat(v: NodeId, prevIndex: nat, prevTerm: nat)
    | AckFromPeer(v: NodeId, id: nat)
    | BackfillRequest(v: NodeId, lastTerm: nat, lastIndex: nat)
    | CrashAndRestart(v: NodeId)

  /** What the code can do next. Answers to an earlier process run are lost with it. */
  predicate Enabled(c: Cluster, s: Step) {
    match s
    case ElectionTimeout(v) => v in c.nodes && c.nodes[v].role.Follower?
    case BeginElection(v) => v in c.nodes && c.nodes[v].role.Candidate?
    case DeliverVoteRequest(b) => b in c.ballots && c.ballots[b].Requested? && b.voter in c.nodes
    case DeliverVoteReply(b) =>
      && b in c.ballots && c.ballots[b].Answered?
      && b.candidate in c.nodes && c.nodes[b.candidate].epoch == b.epoch
    case LoseBallot(b) => b in c.ballots
    case DeliverAppend(v, from, m, _) =>
      v in c.nodes && from in c.nodes && m in c.nodes[from].sent && m.AppendEntries?
    case DeliverTruncate(v, from, m) =>
      v in c.nodes && from in c.nodes && m in c.nodes[from].sent && m.TruncateLog?
    case Persist(v) => v in c.nodes && c.nodes[v].work != []
    case ReadPersisted(v) => v in c.nodes && c.nodes[v].done != []
    case BeginLeading(v, _) => v in c.nodes && c.nodes[v].role == Leader(false)
    case ClientWrite(v, _, _) => v in c.nodes && c.nodes[v].role.Leader?
    case Heartbeat(v, _, _) => v in c.nodes && c.nodes[v].role == Leader(true)
    case AckFromPeer(v, _) => v in c.nodes
    case BackfillRequest(v, _, _) => v in c.nodes && c.nodes[v].role.Leader?
    case CrashAndRestart(v) => v in c.nodes
  }

  /** The premises the code relies on without checking them: an election is for a term
      without a vote, a truncate request names an entry the receiver holds (or one past its
      log), and no write arrives before the leadership is initialized. */
  predicate Disciplined(c: Cluster, s: Step)
    requires Enabled(c, s)
  {
    match s
    case BeginElection(v) => c.nodes[v].nextTerm !in c.nodes[v].votes
    case DeliverTruncate(v, _, m) => HoldsPoint(c.nodes[v].replica, m.prevTerm, m.prevIndex)
    case ClientWrite(v, _, _) => c.nodes[v].role.initialized
    case _ => true
  }

  predicate HoldsPoint(r: Replica, prevTerm: nat, prevIndex: nat) {
    prevIndex + 1 < |r.log| ==> r.log[prevIndex].term == prevTerm
  }

  function WithReply(ballots: map<Ballot, Phase>, reply: Option<VoteReply>): map<Ballot, Phase> {
    if reply.Some? && reply.value.ballot in ballots && ballots[reply.value.ballot].AtVoter?
    then ballots[reply.value.ballot := Answered(reply.value.granted)]
    else ballots
  }

  function With(c: Cluster, v: NodeId, n: Node): Cluster {
    c.(nodes := c.nodes[v := n])
  }

  /** Records a win when the node has just become leader through election `id`. */
  function NoteWin(c: Cluster, v: NodeId, n: Node, id: nat): Cluster
    requires v in c.nodes && v in c.tallies
  {
    if n.role.Leader? && !c.nodes[v].role.Leader? && id in c.tallies[v] then
      c.(wins := c.wins[(n.currentTerm, v) := c.tallies[v][id].voters],
         leaderLogs := c.leaderLogs[n.currentTerm := n.replica.log])
    else c
  }

  function NoteEntry(c: Cluster, n: Node): Cluster {
    c.(leaderLogs := c.leaderLogs[n.currentTerm := n.replica.log])
  }

  function Requests(c: Cluster, v: NodeId): map<Ballot, Phase>
    requires v in c.nodes
  {
    var n := c.nodes[v];
    map u | u in c.nodes.Keys - {v} ::
      Ballot(v, n.epoch, n.nextId, n.nextTerm, u) := Requested(n.replica.lastIndex)
  }

  function AfterBeginElection(c: Cluster, v: NodeId): Cluster
    requires v in c.nodes && v in c.tallies
  {
    var n := c.nodes[v];
    With(c, v, StartElection(n))
      .(ballots := c.ballots + Requests(c, v),
        tallies := c.tallies[v := c.tallies[v][n.nextId := Tally(n.nextTerm, {v})]])
  }

  function AfterVoteRequest(c: Cluster, b: Ballot): Cluster
    requires b in c.ballots && c.ballots[b].Requested? && b.voter in c.nodes
  {
    var (n, reply) := OnVoteRequest(c.nodes[b.voter], b, c.ballots[b].lastIndex);
    With(c, b.voter, n).(ballots := WithReply(c.ballots[b := AtVoter], reply))
  }

  predicate Counts(n: Node, id: nat) {
    n.role.Candidate? && id in n.outstanding && n.outstanding[id].CandidateElection?
  }

  /** The answer leaves the network and, where the candidate counts it, enters its tally. */
  function Tallied(c: Cluster, b: Ballot): Cluster
    requires b in c.ballots && c.ballots[b].Answered? && b.candidate in c.nodes && b.candidate in c.tallies
  {
    var v := b.candidate;
    var tally := c.tallies[v];
    var counted :=
      if Counts(c.nodes[v], b.id) && c.ballots[b].granted && b.id in tally
      then tally[b.id := tally[b.id].(voters := tally[b.id].voters + {b.voter})]
      else tally;
    c.(ballots := c.ballots - {b}, tallies := c.tallies[v := counted])
  }

  function AfterVoteReply(c: Cluster, b: Ballot): Cluster
    requires b in c.ballots && c.ballots[b].Answered? && b.candidate in c.nodes && b.candidate in c.tallies
  {
    var v := b.candidate;
    var (n, reply) := OnVoteReply(c.nodes[v], b.id, b.term, c.ballots[b].granted);
    var c := NoteWin(Tallied(c, b), v, n, b.id);
    With(c, v, n).(ballots := WithReply(c.ballots, reply))
  }

  function AfterReadPersisted(c: Cluster, v: NodeId): Cluster
    requires v in c.nodes && v in c.tallies && c.nodes[v].done != []
  {
    var (n, reply) := HandlePersisted(c.nodes[v]);
    With(NoteWin(c, v, n, c.nodes[v].done[0].id), v, n).(ballots := WithReply(c.ballots, reply))
  }

  function Apply(c: Cluster, s: Step): Cluster
    requires Enabled(c, s) && c.tallies.Keys == c.nodes.Keys
  {
    match s
    case ElectionTimeout(v) => With(c, v, c.nodes[v].(role := Candidate))
    case BeginElection(v) => AfterBeginElection(c, v)
    case DeliverVoteRequest(b) => AfterVoteRequest(c, b)
    case DeliverVoteReply(b) => AfterVoteReply(c, b)
    case LoseBallot(b) => c.(ballots := c.ballots - {b})
    case DeliverAppend(v, _, m, commit) => With(c, v, OnAppend(c.nodes[v], m.(commit := commit)).0)
    case DeliverTruncate(v, _, m) => With(c, v, OnTruncate(c.nodes[v], m.prevTerm, m.prevIndex))
    case Persist(v) => With(c, v, PersistOne(c.nodes[v]))
    case ReadPersisted(v) => AfterReadPersisted(c, v)
    case BeginLeading(v, timestamp) =>
      var n := InitializeLeadership(c.nodes[v], timestamp);
      NoteEntry(With(c, v, n), n)
    case ClientWrite(v, timestamp, commands) =>
      var n := WriteBatch(c.nodes[v], timestamp, commands);
      if commands == [] then With(c, v, n) else NoteEntry(With(c, v, n), n)
    case Heartbeat(v, prevIndex, prevTerm) =>
      var n := c.nodes[v];
      With(c, v, n.(sent := n.sent + {AppendEntries(n.currentTerm, v, prevIndex, prevTerm, 0, None, n.commitIndex)}))
    case AckFromPeer(v, id) => With(c, v, OnAck(c.nodes[v], id))
    case BackfillRequest(v, lastTerm, lastIndex) => With(c, v, OnBackfillRequest(c.nodes[v], lastTerm, lastIndex))
    case CrashAndRestart(v) => With(c, v, Restarted(c.nodes[v])).(tallies := c.tallies[v := map[]])
  }
}
