# A verified model of Kraft's replication core

Kraft is a key-value store replicated with Raft (Ongaro and Ousterhout, "In Search of an
Understandable Consensus Algorithm", extended version). A process consists of actors joined
by queues: a state machine with three role delegates, a worker per peer, a persistence
worker, a query worker and a write proxy. This project models them and proves what they keep
over whole runs. `dafny verify dfyconfig.toml` checks all of it.

How the files fit together:

- `Logs`, `Nodes`: log entries, the state of one process, and every handler as a function.
  `RequestLaws` states, in terms of the node's fields alone, when each answer is given and
  what each request changes; `ElectionCount` when an election is won.
- `Handlers`: the shared state as a class whose methods update it step by step and drain its
  queues in loops. Each method is proved equal to its function in `Nodes`. `Service` proves
  what the class keeps over any sequence of requests and time steps; `TimeSteps` shows that
  a whole time step, in any role, is a run of single cluster steps.
- `Cluster`: all nodes, ballots in flight, lost, repeated and reordered messages, crashes.
  `NodeInvariant`, `NodeSteps`, `ClusterInvariant`, `ClusterSteps`, `LeadSteps`,
  `ElectionSafety` and `TermBlocks` prove the invariant of every step, `ClusterSafety` its
  consequences for runs, `MessageIds` what needs no premise. `NodeMoves` says what a step does
  to one node; `VoteRuns` and `AckRuns` use it to trace a counted vote and an acknowledgement
  back to the steps that they came from.
- `Scripts`: building runs, from the first timeout to a won election. `EvenClusters`,
  `Necessity` and `FallingTerms` use it for the runs that show where a property ends;
  `Premises` has the exact conditions of single handlers.
- `Repair`: the walk-back, truncation and backfill of a lagging log. `RepairRuns` carries the
  exchange out as steps of the cluster.
- `LeaderRun`, `CommitRuns`, `Stream`: commit accounting of a leadership, the same in runs of
  the cluster, and the stream a leadership sends a peer.
- `Broadcast`, `Query`: the bounded bus to the query worker, and the query worker beside a
  concurrent publisher and concurrent clients. The publisher records its steps on the board
  that the query worker shares. `LeaderReads` feeds it what a leadership publishes.
- `Persistence`, `Recovery`, `Restart`: the batching log writer, recovery from its files, and
  the restart of a running node.
- `WriteQueue`: the queue of client batches with its one-batch shelf.

Premises of the cluster runs (`Cluster.Disciplined`, and `|members|` odd), which the code
relies on without checking:

- an election is for a term in which the node has not voted. The code only logs an error
  otherwise, and its `next_term` can fall when it recognises a leader. Without this premise
  every odd cluster of three or more members has a run to two leaders of one term
  (`Necessity.ElectionPremiseNeeded`);
- a truncate request names an entry the receiver holds with the named term, or lies past its
  log. The code takes the named term on trust. Without this premise every odd cluster of three
  or more members has a run to a malformed log
  (`Necessity.TruncationPremiseNeeded`);
- a write reaches a leader only after its first time step. Without this premise every
  nonempty cluster has a run to a malformed log (`Necessity.WritePremiseNeeded`);
- answers to a vote request of a crashed process run are lost with that run (in
  `Cluster.Enabled`), because message ids start again at 0.

What turned out to hold only under a condition has that condition proved exact:

- half of the members, rounded up, is a majority for odd sizes only, and a cluster of any even
  size has a run that elects two leaders of the same term. Sizes count the configured list with
  the node itself in it, as the shipped configurations have it;
- repair fails for a follower whose last term the leader's log does not hold low enough: the
  "truncate everything" signal (0, 0) keeps entry 0, and a follower that is ahead may keep
  entries that differ from the leader's;
- a single-node cluster never commits, since the leader's own copy is no acknowledgement;
- the bus stays a prefix of the log exactly when the next entry is in the log and a refused
  entry finds room within 100 more attempts; otherwise an unsent entry is counted as sent, or
  the count of sent entries underflows;
- dropping term starts beyond a truncation gives the right map exactly when no earlier term
  resumes beyond it, which no run that meets the premises lets happen: each term is one block
  of every log;
- the terms of a log can fall, since a leftover election can be won late
  (`FallingTerms.TermsCanFall`). A proposal keeps them nondecreasing exactly when the leader's
  term is not below that of its last entry;
- a follower's commit index falls on a late heartbeat of the leader it knows;
- a write queue with limit 0 and an empty shelf never yields a batch.

## Model

| member | source | states |
|---|---|---|
| ClusterSafety.ElectionSafetyOverRuns | src/raft/candidate.rs:118-399 | Election Safety (section 5.2 of the Raft paper): in every run of an odd cluster, with crashes between recording, persisting and answering a vote, no two nodes lead the same term at any two moments |
| EvenClusters.ElectionSafetyIffOdd | src/main.rs:124-124 | all runs of a nonempty cluster have at most one leader per term if and only if its size is odd |
| EvenClusters.EvenClusterElectsTwo | src/main.rs:124-124 | for every even size, a concrete run that meets all premises and ends with two leaders of term 1 |
| EvenClusters.EveryClusterCanElect | src/raft/candidate.rs:321-393 | the premises are satisfiable: every nonempty cluster has a run that elects a leader |
| ElectionSafety.QuorumsMeetIffOdd | src/main.rs:124-124 | any two quorums of the configured size share a member if and only if the size is odd |
| ElectionSafety.WinnerUnique | src/raft/raft_sm.rs:452-480 | in every state that satisfies the invariant, two recorded wins of one term are by the same node |
| ClusterSafety.StepKeepsInv | src/raft/raft_sm.rs:304-398 | every step of any node, every delivery, loss and crash keeps the cluster invariant, and the per-term leader logs only grow |
| ClusterSafety.RunInv | src/raft/raft_sm.rs:304-398 | the invariant holds in every state of every run |
| ClusterSafety.LogMatchingOverRuns | src/raft/follower/append_entries.rs:185-296 | Log Matching (section 5.3 of the Raft paper): two logs, in memory or on disk, of any nodes at any two moments of a run that share an index and term are identical up to it |
| ClusterSafety.NodeLogOverRuns | src/raft/follower/mod.rs:30-69 | in every role and after every crash, entry i has index i and names its predecessor, the cursor is the end of the log, the term map holds the starts of its terms, replaying the queued tasks over the file gives the log in memory, and every queued truncation is within the file it meets |
| ClusterSafety.RepairOverRuns | src/raft/leader/replication.rs:56-94 | in every reachable state, one truncation and one backfill make a node's log the leader's if and only if it is repairable, and what a walk-back keeps is a strictly shorter log that both agree on |
| ClusterSafety.EntriesAreNotHeartbeats | src/quorum/quorum_worker/outbound.rs:171-217 | every message in flight that carries an entry has that entry's predecessor and nonzero id, so no follower takes it for a heartbeat |
| ClusterSafety.ReportsMatchRecords | src/raft/leader/outstanding.rs:36-132 | a vote report finds only the request or election of that very vote, which is on disk and in memory; an entry report finds only an append or a proposal |
| ClusterSafety.TasksMatchRecords | src/raft/leader/write_batch.rs:89-147 | the record under the id of an entry on its way to the disk is that of the request that brought the entry, or of the proposal that created it at its index |
| MessageIds.IdsOverRuns | src/startup/state.rs:52-88 | in every run of any cluster, with no premise, the awaited reports of a node carry distinct increasing ids, all ids in use are below the next one, and the votes on disk and on their way there give back the votes in memory |
| MessageIds.ReportReadOnce | src/raft/leader/outstanding.rs:15-33 | reading a report removes exactly its id from the awaited ones, so no report is read twice |
| RequestLaws.VoteRefusedIff | src/raft/raft_sm.rs:452-480 | a vote request is refused at once if and only if the node has voted in the term, has reached it, or has a longer log than announced; a refusal changes only the next term, which every request lifts above its own term |
| RequestLaws.VoteRegistered | src/raft/candidate.rs:401-461 | every other request is registered under a new id, and a candidate or leader records the vote and queues it for the disk |
| RequestLaws.RequestAnswered | src/raft/candidate.rs:126-238 | a registered request is answered once, when its vote is on disk, and only its record goes |
| ElectionCount.CountingIgnoresOrder | src/raft/candidate.rs:126-289 | after any interleaving of the own vote reaching the disk and at most one answer per peer, a candidate leads the term it asked for if and only if its vote is on disk and it has a quorum with it; otherwise it has counted everything it heard and goes on until all have answered |
| VoteRuns.VoteRuleOverRuns | src/raft/raft_sm.rs:452-480 | in every run of an odd cluster, whoever was counted in a won election recorded that vote in an earlier step, in a term new to it, when its log reached no further than the winner's did at the start of that election |
| RequestLaws.AppendAnswer | src/raft/follower/append_entries.rs:151-318 | the exact condition of each of the four answers to an append request in any role; a node that asks for entries names the term and index of the end of its own log |
| RequestLaws.AppendStores | src/raft/follower/append_entries.rs:185-296 | an entry is stored exactly when a follower heeds the sender and the entry continues its log; the same entry ends the log, the queue for the disk and, by its id, the records; otherwise all three stay as they are |
| RequestLaws.AppendFollows | src/raft/follower/append_entries.rs:22-85 | a node that heeds the sender follows it in the higher of the two terms, and spends an id exactly on an entry to store or on stepping down; any other node is unchanged |
| RequestLaws.CommitAfterAppend | src/raft/follower/append_entries.rs:88-148 | the commit index after any append request: raised to the announced one by a stored entry, set by a heartbeat at the end of the log when that raises it or the heartbeat is of an older term, and otherwise unmoved |
| RequestLaws.StoredThenAnswered | src/raft/follower/mod.rs:271-300 | a node with nothing else queued writes a stored entry to the end of its file and then answers Ok to the very request that brought it |
| RequestLaws.AppendAnsweredIff | src/raft/follower/mod.rs:271-300 | a report answers an append request if and only if its record is that request's and the node does not lead |
| RequestLaws.WriteStored | src/raft/leader/write_batch.rs:25-147 | a batch becomes one entry of the leader's term with all its commands in order and its timestamp; the same entry ends the log and the queue for the disk, goes out to the peers, and its client is registered under its id |
| RequestLaws.LeadershipOpens | src/raft/leader/mod.rs:48-104 | a leadership opens with an entry without commands and without a client, of its own term, at the end of the log; the same entry is queued for the disk, sent and registered under the second of two new ids |
| AckRuns.AckMeansStored | src/raft/follower/mod.rs:271-300 | in every run of an odd cluster, a node that answers Ok after a report has written the entry of that request to the end of its file in an earlier step, and the entry is still there at its index unless a truncation has reached the file since |
| Logs.MatchingFromHistory | src/raft/follower/append_entries.rs:16-18 | two logs supported by the same per-term leader logs match |
| Logs.ConsecutiveEntry | src/raft/follower/append_entries.rs:185-296 | an entry that passes the consecutiveness check extends a sound log to a sound log |
| LeadSteps.ExtendStep | src/raft/leader/write_batch.rs:25-85 | a leader's new entry keeps the invariant and extends only its own term's log |
| ClusterSteps.WinStep | src/raft/candidate.rs:215-272 | becoming leader with a quorum of durable votes keeps the invariant |
| LeadSteps.RestartStep | src/startup/recovery.rs:114-151 | a crash and restart keeps the invariant, with tallies and outstanding records lost and votes and log recovered from disk |
| NodeSteps.Truncated | src/raft/follower/mod.rs:30-69 | a truncation to a held point keeps the node invariant |
| NodeSteps.Appended | src/raft/follower/mod.rs:77-148 | an append request in any role keeps the node invariant |
| NodeSteps.PersistenceHandled | src/raft/leader/outstanding.rs:36-132 | handling a persistence report keeps the node invariant |
| NodeInvariant.MirrorsReplay | src/persistence/worker.rs:225-249 | memory mirrors disk: carrying out the queued tasks on the file yields the log in memory |
| Premises.TruncationKeepsCursorIff | src/raft/follower/mod.rs:30-69 | a truncation leaves a cursor that describes the log if and only if the named entry is held with the named term |
| Premises.TruncateEverythingBreaksLog | src/raft/leader/replication.rs:145-149 | the (0, 0) signal keeps entry 0, so the first backfilled entry lands at position 1 and breaks every log of two or more entries |
| Premises.ElectionKeepsVotesIff | src/raft/candidate.rs:321-393 | starting an election keeps all given votes if and only if the term has no vote for another node |
| Premises.StaleLeaderReopensTerm | src/raft/candidate.rs:62-64 | a candidate that voted in a term and then hears an older leader votes in that term again |
| Premises.CommitFallsIff | src/raft/follower/append_entries.rs:88-148 | a follower's commit index falls if and only if a consecutive heartbeat of its leader carries an older term and a smaller commit index |
| Premises.LostAcknowledgementIff | src/raft/leader/mod.rs:107-164 | a candidate or leader stores no entry of an append request, and answers Ok to it exactly when it steps down and the entry continues its log |
| Premises.WriteKeepsLogIff | src/raft/leader/mod.rs:172-216 | a write keeps a leader's log well-formed if and only if the log is not empty and the next index is its length |
| Necessity.ElectionPremiseNeeded | src/raft/candidate.rs:321-393 | for every odd size of at least 3, a run that breaks only the election premise and ends with two leaders of one term |
| Necessity.WritePremiseNeeded | src/raft/leader/mod.rs:172-216 | for every nonempty cluster, a run that breaks only the write premise and ends with a malformed log |
| Necessity.TruncationPremiseNeeded | src/raft/leader/replication.rs:119-150 | for every odd size of at least 3, a run that breaks only the truncation premise and ends with a malformed log: the signal to truncate everything keeps entry 0 |
| FallingTerms.TermsCanFall | src/raft/candidate.rs:215-272 | for every odd size of at least 3, a run that meets all premises and ends with a leader whose log has an entry of a lower term after one of a higher term |
| FallingTerms.ProposalKeepsTermsIff | src/raft/leader/write_batch.rs:25-85 | a proposal keeps the terms of the log nondecreasing if and only if the leader's term is not below that of its last entry |
| FallingTerms.AppendKeepsTermsIff | src/raft/follower/append_entries.rs:185-296 | the same for an entry that a follower stores |
| Repair.FindTruncationPoint | src/raft/leader/replication.rs:119-150 | the backward loop returns the greatest position below the mismatch with the follower's last term, or (0, 0) if there is none |
| Repair.LastWithTerm | src/raft/leader/replication.rs:119-150 | the position found has the term, none between it and the bound has it, and none has it when nothing is found |
| Repair.WalkBackSound | src/raft/leader/replication.rs:119-150 | up to the point found both logs are the same, and the point is strictly below the follower's end |
| Repair.SuffixAccepted | src/raft/leader/replication.rs:153-168 | every backfilled entry is accepted as consecutive, and together they extend the log by the whole suffix |
| Repair.RepairAhead | src/raft/leader/replication.rs:97-112 | a follower that is ahead is cut to the leader's length, and ends with the leader's log if and only if its entry there has the leader's last term |
| Repair.RepairConvergesIff | src/raft/leader/replication.rs:56-168 | at most one truncation and one backfill make the follower's log the leader's if and only if it is repairable |
| Repair.FedReceives | src/raft/follower/append_entries.rs:185-296 | what the follower's handler makes of a backfill's messages is what the convergence theorems say of its replica |
| RepairRuns.RepairIsRun | src/raft/leader/replication.rs:56-168 | from every state that satisfies the invariant, a repairable follower that knows a leader with entries reaches the leader's log by heartbeats, questions, a truncation and backfilled entries, all steps that meet the premises; an initialized leader is asked only what the follower answered to a message of that leader |
| RepairRuns.RepairExtendsRun | src/raft/leader/replication.rs:56-168 | every run that ends with such a pair goes on to equal logs, and every question to an initialized leader is the reply to the message delivered in the step before |
| Handlers.SharedState.constructor | src/startup/state.rs:35-88 | a started process has the recovered log, cursor, votes and next term, and empty queues |
| Handlers.SharedState.AcceptAppendEntries | src/raft/raft_sm.rs:340-355 | the request in any role: new state and reply are those of the cluster model's handler |
| Handlers.SharedState.FollowerAppendEntries | src/raft/follower/mod.rs:77-148 | new leader, unknown leader, heartbeat, gap or consecutive entry: new state and reply, for which `RequestLaws` gives the exact conditions |
| Handlers.SharedState.HandleHeartbeat | src/raft/follower/append_entries.rs:88-148 | a heartbeat at the end of the log sets the commit index when that raises it or the heartbeat is of an older term, any other is answered with the end of the log, and nothing else changes |
| Handlers.SharedState.ApplyLogEntry | src/raft/follower/append_entries.rs:185-296 | the entry is stored, queued for the disk and registered under a new id, and the commit index never falls |
| Handlers.SharedState.AcceptVoteRequest | src/raft/candidate.rs:401-461 | raises the next term, refuses at once, or records, persists and registers the vote (a follower only registers it) |
| Handlers.SharedState.TruncateLog | src/raft/follower/mod.rs:30-69 | log, cursor, next index, term starts and the queued file truncation after a truncate request |
| Handlers.SharedState.BeginElection | src/raft/candidate.rs:321-393 | the node votes for itself in its next term and registers the election |
| Handlers.SharedState.HandleVotePersisted | src/raft/candidate.rs:126-187 | a vote on disk is answered, or counts for the node's own election and may win it |
| Handlers.SharedState.HandleVoteResponse | src/raft/candidate.rs:215-289 | a vote response is counted, wins the election once the own vote is on disk, or ends it |
| Handlers.SharedState.HandleLogPersisted | src/raft/leader/outstanding.rs:36-107 | an entry on disk completes its proposal once a quorum has acknowledged it; a follower answers Ok to the append request under its id |
| Handlers.SharedState.HandleAppendAck | src/raft/leader/outstanding.rs:178-248 | an acknowledgement completes, advances or drops its proposal |
| Handlers.SharedState.ProposeEntry | src/raft/leader/mod.rs:194-215 | a new entry is stored, queued, sent and registered, and the cursor moves to it last |
| Handlers.SharedState.StartLeading | src/raft/leader/mod.rs:48-104 | the first step of a leadership spends an id on heartbeats and proposes a no-op at the end of the log |
| Handlers.SharedState.AcceptWriteBatch | src/raft/raft_sm.rs:368-395 | a write is refused without leadership or when empty, and proposed otherwise |
| Handlers.SharedState.HandleBackfillRequest | src/raft/leader/replication.rs:56-168 | the answer to a follower's cursor is a truncation or the rest of the log |
| Handlers.SharedState.ProcessPersistenceReports | src/raft/leader/outstanding.rs:15-33 | the draining loop handles all reports in order, stopping at once when the node is elected |
| Handlers.SharedState.ProcessResponses | src/raft/leader/outstanding.rs:136-175 | the draining loop handles all worker responses in order and collects the backfill requests for later |
| Handlers.BackfillsInOrder | src/raft/leader/outstanding.rs:136-175 | the backfill requests collected from responses are those among them, each once and in their order |
| Handlers.SharedState.TimeStep | src/raft/leader/mod.rs:253-277 | a whole time step in any role: initialization, reports, responses, backfills or timeout |
| TimeSteps.TimeStepIsRun | src/raft/raft_sm.rs:305-323 | a whole time step in any role is a run of single cluster steps that touches no other node, given that responses come from messages in flight and meet the premises at their turn |
| Service.Serve | src/raft/raft_sm.rs:304-398 | over any sequence of requests and time steps in any roles, a node keeps a well-formed log with its cursor, a disk that mirrors it, and ids and votes in order, until a request fails its premise; its state is that of the handlers in order |
| Service.StartAndServe | src/startup/state.rs:35-88 | the same from the start of a process on, for any disk with a well-formed log |
| Service.SentShaped | src/raft/leader/write_batch.rs:105-120 | what a node with a well-formed log sends meets the premise of its receivers |
| LeaderRun.AckCountingIgnoresOrder | src/raft/leader/outstanding.rs:36-248 | after any interleaving of one persistence event and one ack per peer, a proposal is complete if and only if it is on disk with a quorum of acks, and dropped if and only if a peer answers last of all without completing it, which no quorum within the peers lets happen |
| LeaderRun.EveryProposalCompletesIff | src/raft/leader/write_batch.rs:123-147 | once all events are in, a proposal has completed if and only if the quorum is at most the number of peers |
| LeaderRun.CompletionNeedsQuorum | src/raft/leader/outstanding.rs:36-248 | for any events at all, completion implies a persistence event and a quorum of acks |
| LeaderRun.CommitRule | src/raft/leader/outstanding.rs:251-351 | over a leadership with a clean start the log only grows, and the commit index never falls and moves only to own-term entries that the leader's file holds and that were acknowledged a quorum of times |
| CommitRuns.CommitRuleOverRuns | src/raft/leader/outstanding.rs:251-351 | the same in runs of the cluster, with the persistence worker's steps and the acknowledgements that peers sent |
| Stream.QuorumWorker.constructor | src/quorum/quorum_worker/mod.rs:84-121 | a new worker has an empty cursor and sends no heartbeats |
| Stream.QuorumWorker.PerformTask | src/quorum/quorum_worker/mod.rs:233-342 | each task's messages and new cursor; a backfill sends its entries in order under their own ids |
| Stream.QuorumWorker.ProcessWorkQueue | src/quorum/quorum_worker/mod.rs:233-342 | exactly the first 32 tasks, or all if fewer, are performed in order |
| Stream.StreamOrderly | src/raft/leader/write_batch.rs:105-120 | the tasks of a leadership form a gap-free chain of entries under their own ids, and together give the worker all of the leader's log and commit index |
| Stream.CommitStaysBehind | src/quorum/quorum_worker/outbound.rs:34-132 | the carried commit index never falls and never passes the entries sent, unless the leader was elected with one beyond its log |
| Stream.StreamKeepsFollowerInStep | src/raft/follower/append_entries.rs:88-148 | a follower in step accepts everything, however heartbeats fall, stays a prefix of the leader's log, and has all of it once all tasks are done |
| Stream.StreamSpreadsCommit | src/quorum/quorum_worker/outbound.rs:34-66 | once all tasks are done and one more heartbeat has fired, a follower that started with the new leader's log has the leader's commit index, or its own if that was higher |
| Stream.EntryCarried | src/quorum/quorum_worker/outbound.rs:34-132 | a new entry goes out as the message that the leader sends in the cluster model and moves the cursor to it; so does a heartbeat, at the cursor, and only while heartbeats run |
| Stream.AnswerCarried | src/quorum/quorum_worker/outbound.rs:156-217 | the answer to a follower's question goes out as exactly the messages of the cluster model: each backfilled entry in order with its own predecessor and id, or one truncation |
| Stream.LastSwitchDecides | src/quorum/quorum_worker/mod.rs:233-342 | heartbeats run if and only if the last task that starts or stops them starts them |
| Broadcast.Publisher.Insist | src/raft/raft_sm.rs:171-225 | one entry is tried until it finds room, at most 100 times, and is on the bus exactly when it did; the version moves once for every 10 refusals |
| Broadcast.Publisher.WhenBusFull | src/raft/raft_sm.rs:171-225 | the bus holds the log up to the reported index if the first entry finds room, and otherwise the unsent first entry is reported as sent |
| Broadcast.Publisher.BroadcastCommitted | src/raft/raft_sm.rs:116-162 | the bus stays a prefix of the log and the count does not underflow if and only if the next entry is in the log and a refusal recovers; then it makes progress and defers exactly the rest; the version moves exactly when there is something to send |
| Broadcast.Publisher.RetryDeferred | src/raft/raft_sm.rs:232-279 | a retry keeps the prefix whatever the bus does and sends exactly the entries up to the first refusal, at most 5000; the version moves exactly when it sends something and nothing is refused |
| Broadcast.Publisher.CommitTo | src/raft/follower/append_entries.rs:320-335 | the commit index is stored, the log untouched, the version moved, and the prefix kept when placeable; its steps on the shared board are permitted exactly when the index does not fall |
| Broadcast.Publisher.CompleteWrite | src/raft/leader/outstanding.rs:251-311 | a complete write is committed and broadcast before its writer is told |
| Broadcast.Publisher.Step | src/raft/raft_sm.rs:116-279 | every operation that meets the premise keeps the prefix, and continues a history of permitted steps on the shared board exactly when it is lawful |
| Broadcast.Publisher.Publish | src/raft/raft_sm.rs:116-279 | any run of operations that meet the premise and are lawful is a sequence of permitted steps, also with requests of clients arriving at any times between them; log, commit index and reported entries are those of the operations in order |
| LeaderReads.LeadershipIsLawful | src/raft/leader/outstanding.rs:251-351 | everything that a leadership with a clean start publishes is lawful at its turn, whatever happens and however retries fall in between, and gives the leader's log and commit index |
| LeaderReads.BatchInLog | src/raft/leader/write_batch.rs:25-85 | a batch written at any turn of a leadership is one entry of the leader's log from then on, with all its commands in order |
| LeaderReads.ToldIffComplete | src/raft/leader/outstanding.rs:251-311 | over a leadership success is reported for the entries of exactly those client writes that became complete |
| LeaderReads.Lead | src/raft/leader/outstanding.rs:251-351 | publishing a leadership stops only when the bus has no room in time (or the first announcement is beyond the log); with requests arriving at any times, every answer reads all writes to its key that were reported before the request was made: of each reported batch that writes the key, its last value for it or that of a later entry |
| Broadcast.Publisher.Run | src/raft/raft_sm.rs:116-279 | any run of appends, truncations, commits and retries keeps the bus a prefix of the log until an operation fails its premise |
| Query.EnvironmentKeeps | src/raft/leader/outstanding.rs:266-288 | every permitted step of the publisher and the clients keeps what the query worker relies on |
| Query.RequestsInterleave | src/raft/leader/outstanding.rs:266-288 | publisher steps that are permitted by themselves stay permitted with requests arriving at any times between them, and publish the same |
| Query.QueryWorker.ReceiveOne | src/query/worker.rs:74-105 | an entry is applied if covered by the loaded index, parked otherwise; the map stays a replay |
| Query.QueryWorker.Drain | src/query/worker.rs:74-105 | everything on the bus that the loaded index covers is applied |
| Query.QueryWorker.ParkedIsDue | src/query/worker.rs:59-72 | a parked entry is due at the next load of the commit index, so it is never overwritten |
| Query.QueryWorker.ApplyCommitted | src/query/worker.rs:55-110 | with other actors running between any two accesses, the map is the replay of the log up to the last applied entry; if the version moved, all entries on the bus are applied |
| Query.QueryWorker.ServeParked | src/query/worker.rs:113-131 | a parked request is answered exactly when the map has caught up with it |
| Query.QueryWorker.ServeNext | src/query/worker.rs:133-153 | the oldest request is answered from the map or parked; nothing is skipped or answered twice |
| Query.QueryWorker.Run | src/query/worker.rs:45-167 | over any rounds and interleavings: map, parked entry and the order of answers; every answer is the last value for its key among the entries applied, and none exactly if none of them writes it; it reads all writes to its key whose success was reported before the request was made |
| Query.ReadYourWrites | src/transport/datastore/connection.rs:166-176 | a request made after the success of writes was reported is answered, for each of them to its key, with that write or a later one |
| Query.ReplayLookup | src/query/worker.rs:169-185 | a key has no value in a replay if and only if no entry writes it, and otherwise that of the last command for it in the last entry that does |
| Query.AnswerExact | src/query/worker.rs:169-185 | the same of every answer, for the entries it was read after |
| Persistence.PersistenceWorker.Write | src/persistence/worker.rs:272-275 | a buffered write appends to file plus buffer, whatever is spilled early |
| Persistence.PersistenceWorker.Flush | src/persistence/worker.rs:279-296 | the buffer reaches the file before all waiting reports go out, in order, each with its own bytes in the file |
| Persistence.PersistenceWorker.AppendEntry | src/persistence/worker.rs:149-223 | the entry and its offset are added and reported only by a flush; at most 31 entries wait |
| Persistence.PersistenceWorker.CutLog | src/persistence/worker.rs:225-257 | the file is cut at the end of the last kept entry, after a flush |
| Persistence.PersistenceWorker.Run | src/persistence/worker.rs:73-147 | for any tasks and batching, file plus buffer is what plain append and truncate give, offsets are prefix sums, and reports come once each, in task order; every report of an entry was sent when the bytes of its task were in the file |
| Persistence.ReportedIsDurable | src/persistence/worker.rs:279-296 | at any time, every entry whose report does not wait has all its bytes in the file |
| Recovery.ParseLog | src/startup/recovery.rs:32-109 | the loop reads exactly the framed entries with their end offsets, skips undecodable ones and stops at unframed bytes |
| Recovery.FindTermStarts | src/startup/recovery.rs:32-109 | the map built along the log |
| Recovery.Recover | src/startup/recovery.rs:136-151 | the recovered record: log, cursor, votes, next term, offsets |
| Recovery.ParseWhole | src/startup/recovery.rs:32-109 | a file of whole entries parses to exactly these entries and their end offsets |
| Recovery.ParseSkips | src/startup/recovery.rs:32-109 | any messages followed by bytes that frame none are read to the entries among them, in order and with their own end offsets, whatever undecodable messages lie between |
| Restart.RestartRoundTrip | src/startup/recovery.rs:32-151 | in every state of a run in which a node has nothing queued for its disk, its files give back its log, cursor, term starts, votes and offset table; the restarted node follows nobody, waits for nothing, and has the least next term new to it and commit index 0 |
| Recovery.NextTermIsNew | src/startup/recovery.rs:114-133 | the recovered next term is the least that exceeds every voted term and the last log term |
| Recovery.LastVoteRecovered | src/startup/recovery.rs:114-133 | the recovered vote of a term is its last row, and a term has a vote exactly when it has a row |
| Recovery.FileFollowsDisk | src/persistence/worker.rs:149-257 | a task does to the entries' bytes what it does to the entries of the cluster model, with the same report |
| TermBlocks.TermStartsMeaning | src/startup/recovery.rs:32-109 | the map has exactly the terms of the log, each with the start of its last stretch |
| TermBlocks.TruncationKeepsStartsIff | src/raft/follower/mod.rs:48-52 | dropping later starts gives the map of the shorter log if and only if no earlier term resumes beyond the cut |
| TermBlocks.OneBlock | src/raft/leader/write_batch.rs:25-85 | in a log supported by the leaders' histories the entries of one term are consecutive |
| TermBlocks.CutKeepsStarts | src/raft/follower/mod.rs:48-52 | so a truncation of such a log leaves the term map of the shorter log |
| TermBlocks.NondecreasingNeverResumes | src/raft/follower/mod.rs:48-52 | logs with nondecreasing terms always qualify |
| TermBlocks.PushKeepsStarts | src/raft/leader/write_batch.rs:69-75 | appending keeps the map that of the log |
| WriteQueue.Queue.NextWriteBatch | src/transport/write_proxy/mod.rs:96-125 | with clients pushing during the call: nothing is lost, repeated or reordered, the result fits the limit or is one oversized batch, a batch is shelved only if it does not fit, and `more` is false only when nothing is left |
| WriteQueue.Queue.TwoCalls | src/transport/write_proxy/mod.rs:96-125 | a nonempty backlog yields a batch within two calls if and only if the limit is positive or the shelf is taken |
| WriteQueue.Queue.Session | src/transport/write_proxy/mod.rs:96-125 | over any calls and pushes, the returned batches, then the shelf, then the queue are exactly what was pushed |
| WriteQueue.Queue.DrainAll | src/transport/write_proxy/mod.rs:288-290 | calling until there is no more delivers the whole backlog, for every positive limit |
| WriteQueue.SizeAdds | src/transport/write_proxy/mod.rs:68-80 | the size of a batch is the sum of its payloads, however it is split |

## Left out

- Leader Completeness and State Machine Safety: not claimed. The vote rule compares only log indices, and a node that steps down acknowledges an entry it does not store (`Premises.LostAcknowledgementIff`).
- Which peers acknowledged: acknowledgements are counted per message id, as in the code, where a backfill can acknowledge the same id again and a node that steps down acknowledges what it does not store.
- Liveness and time: timeouts are nondeterministic steps; clock rollback, heartbeat cadence and backoff are not modelled.
- Entry encoding: any self-delimiting byte format (`Recovery.SelfDelimiting`); Cap'n Proto itself, torn file tails and fsync are not modelled, and a flush is durable.
- Failures: entries parse and channel sends succeed, so the branches that answer a malformed entry or a closed channel are not modelled.
- Integer widths: terms, indices and ids are unbounded. The underflow of the broadcast count is explicit; no other wrap-around is.
- Transport: TCP senders and receivers, reconnection, the datastore server and its frame codec. In `Cluster` a worker's queue and its connection are one set of sent messages, delivered in any order, any number of times.
- Responses to clients beyond the state machine's callback, such as forwarded writes.
- The query worker's branch for entries of the largest term, which nothing sends.
- Tracing, metrics, configuration parsing and the unused task buffer.
- Handlers.SharedState.StartLeading: the broadcast up to the current commit index is the operation `Announce` of `Broadcast`, not part of the shared state.
- Handlers.SharedState.TimeStep: the loops drain what is queued when they start, since arrivals during a drain count as the next step's; the retry of deferred broadcasts is in `Broadcast`.
- Broadcast.Publisher.Publish: also stops at an operation that is not lawful (`Broadcast.Publisher.Lawful`), such as a follower's commit index that falls; a leader's operations are all lawful (`LeaderReads.LeadershipIsLawful`).
- Broadcast.Publisher.Run: stops at an operation that fails its premise; what the bus holds after that is stated only per operation.
- Query.QueryWorker.Run: each round serves at most a given number of queued requests, where the code goes on until the queue is empty.
- LeaderRun.CommitRule: a leadership entered with proposals left over from an earlier one is excluded (`LeaderRun.CleanStart`).
- CommitRuns.CommitRuleOverRuns: the same exclusion; which peers sent the acknowledgements is not counted.
- Stream.StreamKeepsFollowerInStep: messages to this peer arrive in order and once; backfills and truncations are covered by `Repair` and `RepairRuns`.
- ClusterSafety.ReportsMatchRecords: for the report of an entry only the kind of the record, since the report carries only the id; `ClusterSafety.TasksMatchRecords` ties the record to the entry while it is queued.
- TimeSteps.TimeStepIsRun: the retry of deferred broadcasts, which touches neither log nor messages, is in `Broadcast`.
- LeaderReads.Lead: a leadership entered with leftover proposals is excluded, as in `LeaderRun.CommitRule`.
- Query.ReadYourWrites: on one process while it leads; an entry whose success was reported must not be truncated (`Query.Permitted`), which the code does not guarantee to a leader that steps down.
- Service.Serve: entries in messages must be shaped as a well-formed log's are, truncations must name held entries, and writes come after initialization.
- VoteRuns.VoteRuleOverRuns: compares lengths only, as the code does; nothing is said about the terms of the two logs.
- AckRuns.AckMeansStored: a later truncation may remove the entry again, and the Ok of a node that steps down is excluded (`Premises.LostAcknowledgementIff`).
- RepairRuns.RepairExtendsRun: a leader that has not taken its first step has sent nothing yet, so the first question to it is one that the follower may ask at any time, not the reply to a message.
- Broadcast.Publisher.RetryDeferred: entries sent before a refusal move no version, as in the code, and are seen at the next move.
