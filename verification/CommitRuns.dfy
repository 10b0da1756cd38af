/** The leader's commit rule in runs of the cluster: what its commit index rests on, in terms
    of its own disk and of the acknowledgements its peers have sent. */
module CommitRuns {
  import opened Logs
  import opened Nodes
  import opened Repair
  import opened Cluster
  import opened NodeInvariant
  import opened ClusterInvariant
  import opened ClusterSteps
  import opened ClusterSafety
  import opened LeaderRun

  /** What a step of the cluster is to leader v: one event, or nothing. */
  function EventsOf(c: Cluster, s: Step, v: NodeId): (events: seq<LeaderEvent>)
    ensures |events| <= 1
  {
    match s
    case ClientWrite(u, timestamp, commands) => if u == v then [Write(timestamp, commands)] else []
    case Persist(u) => if u == v then [PersistTask] else []
    case ReadPersisted(u) => if u == v then [ReadReport] else []
    case AckFromPeer(u, id) => if u == v then [Ack(id)] else []
    case DeliverVoteRequest(b) =>
      if b.voter == v && b in c.ballots && c.ballots[b].Requested? then [VoteRequest(b, c.ballots[b].lastIndex)] else []
    case BackfillRequest(u, lastTerm, lastIndex) => if u == v then [BackfillWanted(lastTerm, lastIndex)] else []
    case Heartbeat(u, prevIndex, prevTerm) =>
      if u != v || v !in c.nodes then []
      else [Send({AppendEntries(c.nodes[v].currentTerm, v, prevIndex, prevTerm, 0, None, c.nodes[v].commitIndex)})]
    case _ => []
  }

  /** The events of leader v in the steps from position i to position j of a run. */
  function EventsBetween(states: seq<Cluster>, steps: seq<Step>, i: nat, j: nat, v: NodeId): seq<LeaderEvent>
    requires i <= j <= |steps| && |states| == |steps| + 1
    decreases j
  {
    if i == j then []
    else EventsBetween(states, steps, i, j - 1, v) + EventsOf(states[j - 1], steps[j - 1], v)
  }

  predicate Leading(c: Cluster, v: NodeId, epoch: nat) {
    v in c.nodes && c.nodes[v].role == Leader(true) && c.nodes[v].epoch == epoch
  }

  predicate IsIgnored(s: Step) {
    s.DeliverVoteReply? || s.DeliverAppend? || s.DeliverTruncate? || s.CrashAndRestart?
  }

  /** What a leader ignores leaves its node as it is. */
  lemma IgnoredStep(c: Cluster, s: Step, v: NodeId, epoch: nat)
    requires c.tallies.Keys == c.nodes.Keys && Enabled(c, s) && Leading(c, v, epoch) && Leading(Apply(c, s), v, epoch)
    requires IsIgnored(s)
    ensures Apply(c, s).nodes[v] == c.nodes[v] && EventsOf(c, s, v) == []
  {
    hide WithReply, OnTruncate, Restarted;
    if s.DeliverTruncate? && s.v == v {
      NotTruncated(c.nodes[v], s.m.prevTerm, s.m.prevIndex);
    }
    if s.CrashAndRestart? && s.v == v {
      NextEpoch(c.nodes[v]);
    }
  }

  lemma NotTruncated(n: Node, prevTerm: nat, prevIndex: nat)
    requires !n.role.Follower?
    ensures OnTruncate(n, prevTerm, prevIndex) == n
  {
  }

  lemma NextEpoch(n: Node)
    ensures Restarted(n).epoch != n.epoch
  {
  }

  /** So do the steps of others; the leader's own are events. */
  lemma StepIsEvent(c: Cluster, s: Step, v: NodeId, epoch: nat)
    requires c.tallies.Keys == c.nodes.Keys && Enabled(c, s) && Leading(c, v, epoch) && Leading(Apply(c, s), v, epoch)
    ensures var events := EventsOf(c, s, v);
            Apply(c, s).nodes[v] == if events == [] then c.nodes[v] else LeaderStep(c.nodes[v], events[0])
  {
    hide Apply, LeaderStep, Enabled, Leading, EventsOf;
    if IsIgnored(s) {
      IgnoredStep(c, s, v, epoch);
    } else if IsElectoral(s) {
      ElectoralStep(c, s, v, epoch);
    } else {
      OwnEvent(c, s, v, epoch);
    }
  }

  predicate IsElectoral(s: Step) {
    s.ElectionTimeout? || s.BeginElection? || s.DeliverVoteRequest? || s.LoseBallot? || s.ReadPersisted?
  }

  lemma ElectoralStep(c: Cluster, s: Step, v: NodeId, epoch: nat)
    requires c.tallies.Keys == c.nodes.Keys && Enabled(c, s) && Leading(c, v, epoch) && Leading(Apply(c, s), v, epoch)
    requires IsElectoral(s)
    ensures var events := EventsOf(c, s, v);
            Apply(c, s).nodes[v] == if events == [] then c.nodes[v] else LeaderStep(c.nodes[v], events[0])
  {
    hide HandlePersisted, OnVoteRequest, StartElection, WithReply, Requests;
  }

  lemma OwnEvent(c: Cluster, s: Step, v: NodeId, epoch: nat)
    requires c.tallies.Keys == c.nodes.Keys && Enabled(c, s) && Leading(c, v, epoch) && Leading(Apply(c, s), v, epoch)
    requires !IsIgnored(s) && !IsElectoral(s)
    ensures var events := EventsOf(c, s, v);
            Apply(c, s).nodes[v] == if events == [] then c.nodes[v] else LeaderStep(c.nodes[v], events[0])
  {
    hide InitializeLeadership, WriteBatch, PersistOne, OnAck, OnBackfillRequest;
    if s.v != v {
      hide LeaderStep;
    }
  }

  /** Node v leads from after position i up to position j, in one process run. */
  ghost predicate LeadsFrom(states: seq<Cluster>, i: nat, j: nat, v: NodeId) {
    && i < j < |states| && v in states[i].nodes && states[i].nodes[v].role == Leader(false)
    && forall k | i < k <= j :: Leading(states[k], v, states[i].nodes[v].epoch)
  }

  lemma FirstStep(c: Cluster, v: NodeId, timestamp: nat)
    requires c.tallies.Keys == c.nodes.Keys && Enabled(c, BeginLeading(v, timestamp))
    ensures v in Apply(c, BeginLeading(v, timestamp)).nodes
    ensures Apply(c, BeginLeading(v, timestamp)).nodes[v] == InitializeLeadership(c.nodes[v], timestamp)
  {
  }

  lemma LeadershipStart(elected: Node, timestamp: nat)
    ensures Leadership(elected, timestamp, []) == InitializeLeadership(elected, timestamp)
  {
  }

  lemma LeadershipGrows(elected: Node, timestamp: nat, before: seq<LeaderEvent>, more: seq<LeaderEvent>)
    requires |more| <= 1
    ensures Leadership(elected, timestamp, before + more) ==
            if more == [] then Leadership(elected, timestamp, before)
            else LeaderStep(Leadership(elected, timestamp, before), more[0])
  {
    if more == [] {
      assert before + more == before;
    } else {
      assert (before + more)[..|before|] == before;
    }
  }

  lemma {:induction false} LeadershipInRun(
    members: set<NodeId>, states: seq<Cluster>, steps: seq<Step>, i: nat, j: nat, v: NodeId, timestamp: nat)
    requires IsRun(members, states, steps) && LeadsFrom(states, i, j, v) && steps[i] == BeginLeading(v, timestamp)
    ensures Leading(states[j], v, states[i].nodes[v].epoch)
    ensures states[j].nodes[v] == Leadership(states[i].nodes[v], timestamp, EventsBetween(states, steps, i + 1, j, v))
    decreases j
  {
    hide Init, Enabled, Disciplined, Apply, LeaderStep, InitializeLeadership, EventsOf, Leadership;
    assert Follows(states[j - 1], steps[j - 1], states[j]);
    var elected := states[i].nodes[v];
    assert Leading(states[j], v, elected.epoch);
    if j == i + 1 {
      FirstStep(states[i], v, timestamp);
      LeadershipStart(elected, timestamp);
    } else {
      LeadershipInRun(members, states, steps, i, j - 1, v, timestamp);
      StepIsEvent(states[j - 1], steps[j - 1], v, elected.epoch);
      LeadershipGrows(elected, timestamp, EventsBetween(states, steps, i + 1, j - 1, v),
                      EventsOf(states[j - 1], steps[j - 1], v));
    }
  }

  lemma AcksOf(c: Cluster, s: Step, v: NodeId, id: nat)
    ensures AckCount(EventsOf(c, s, v), id) == if s == AckFromPeer(v, id) then 1 else 0
  {
  }

  /** The acknowledgements among a leader's events are those that peers sent it. */
  lemma {:induction false} AcksBetween(states: seq<Cluster>, steps: seq<Step>, i: nat, j: nat, v: NodeId, id: nat)
    requires i <= j <= |steps| && |states| == |steps| + 1
    ensures AckCount(EventsBetween(states, steps, i, j, v), id) == multiset(steps[i..j])[AckFromPeer(v, id)]
    decreases j
  {
    hide EventsOf;
    if i < j {
      AcksBetween(states, steps, i, j - 1, v, id);
      AcksOf(states[j - 1], steps[j - 1], v, id);
      assert steps[i..j] == steps[i..j - 1] + [steps[j - 1]];
      var before, events := EventsBetween(states, steps, i, j - 1, v), EventsOf(states[j - 1], steps[j - 1], v);
      assert multiset(before + events) == multiset(before) + multiset(events);
    }
  }

  lemma StartsClean(members: set<NodeId>, states: seq<Cluster>, steps: seq<Step>, i: nat, v: NodeId)
    requires IsRun(members, states, steps) && |members| % 2 == 1 && i < |states| && v in states[i].nodes
    requires var n := states[i].nodes[v];
             n.role == Leader(false) && forall id | id in n.outstanding :: !n.outstanding[id].Proposal?
    ensures CleanStart(states[i].nodes[v])
  {
    hide Inv, Init;
    RunInv(members, states, steps, i);
    MemberInv(states[i], members, v);
    var n, tally := states[i].nodes[v], states[i].tallies[v];
    MirrorsTracks(n.disk.log, n.work, n.replica.log, states[i].leaderLogs);
    assert forall k | 0 <= k < |n.work| :: TaskOk(n, tally, n.work[k]);
    assert forall k | 0 <= k < |n.done| :: ResponseOk(n, tally, n.done[k]);
    assert forall id | id in n.outstanding :: RecordOk(n, tally, id);
  }

  /** Section 5.4.2 of the Raft paper in runs: while a leadership that started without leftover
      proposals lasts, its log only grows and its commit index never falls, and wherever the
      commit index has moved to, there is an entry that this leader created in its term, that
      its log file holds up to that point, and that peers have acknowledged a quorum of times. */
  lemma CommitRuleOverRuns(
    members: set<NodeId>, states: seq<Cluster>, steps: seq<Step>, i: nat, j: nat, v: NodeId, timestamp: nat)
    requires IsRun(members, states, steps) && |members| % 2 == 1
    requires LeadsFrom(states, i, j, v) && steps[i] == BeginLeading(v, timestamp)
    requires forall id | id in states[i].nodes[v].outstanding :: !states[i].nodes[v].outstanding[id].Proposal?
    ensures v in states[j].nodes
    ensures var elected, n := states[i].nodes[v], states[j].nodes[v];
            && elected.replica.log <= n.replica.log && elected.commitIndex <= n.commitIndex
            && (n.commitIndex != elected.commitIndex ==>
                  && |elected.replica.log| <= n.commitIndex < |n.replica.log| && n.commitIndex < |n.disk.log|
                  && n.replica.log[n.commitIndex].term == elected.currentTerm
                  && n.disk.log[..n.commitIndex + 1] == n.replica.log[..n.commitIndex + 1]
                  && var id := n.replica.log[n.commitIndex].messageId;
                     multiset(steps[i + 1..j])[AckFromPeer(v, id)] >= elected.quorum)
  {
    hide IsRun, Leadership, LeaderStep, CleanStart, LeadershipOk, EventsBetween;
    RunShape(members, states, steps);
    StartsClean(members, states, steps, i, v);
    LeadershipInRun(members, states, steps, i, j, v, timestamp);
    var elected, n := states[i].nodes[v], states[j].nodes[v];
    var events := EventsBetween(states, steps, i + 1, j, v);
    LeadershipInvariant(elected, timestamp, events);
    CommitNotBelow(elected, n, events);
    if n.commitIndex != elected.commitIndex {
      CommitEarned(elected, n, events);
      AcksBetween(states, steps, i + 1, j, v, n.replica.log[n.commitIndex].messageId);
    }
  }

  lemma RunShape(members: set<NodeId>, states: seq<Cluster>, steps: seq<Step>)
    requires IsRun(members, states, steps)
    ensures |states| == |steps| + 1
  {
  }

  lemma CommitNotBelow(elected: Node, n: Node, events: seq<LeaderEvent>)
    requires LeadershipOk(elected, n, events)
    ensures elected.replica.log <= n.replica.log && elected.commitIndex <= n.commitIndex
  {
  }
}
