/** The restart round trip of a running node: what its files give back is what it had. */
module Restart {
  import opened Logs
  import opened Nodes
  import opened Cluster
  import opened ClusterSafety
  import opened MessageIds
  import opened Persistence
  import opened Recovery

  lemma RunMoves(members: set<NodeId>, states: seq<Cluster>, steps: seq<Step>)
    requires IsRun(members, states, steps)
    ensures AnyRun(members, states, steps)
  {
    hide Enabled, Disciplined, Apply, Init;
    forall i | 0 <= i < |steps| ensures Moves(states[i], steps[i], states[i + 1]) {
      assert Follows(states[i], steps[i], states[i + 1]);
    }
  }

  /** In every state of a run in which a node has nothing queued for its disk, recovery from
      its two files gives back its log, its cursor, its term starts and its votes, and the
      offset table of the log file. The restarted node follows nobody, waits for nothing and
      has the least next term that is new to it; its commit index starts again at 0. */
  lemma RestartRoundTrip(
    c: Codec, members: set<NodeId>, states: seq<Cluster>, steps: seq<Step>, i: nat, v: NodeId)
    requires SelfDelimiting(c) && IsRun(members, states, steps) && |members| % 2 == 1 && i < |states|
    requires v in states[i].nodes && states[i].nodes[v].work == []
    ensures var n := states[i].nodes[v];
            var (log, offsets) := Parse(c, Flatten(Encoded(c, n.disk.log)), 0);
            var recovered := RecoveredReplica(log);
            && recovered == n.replica.(nextIndex := n.replica.lastIndex + 1)
            && offsets == EndOffsets(Encoded(c, n.replica.log))
            && var again := Restarted(n);
               && again.replica == recovered && again.votes == n.votes
               && LeastNewTerm(n.disk.votes, n.replica.lastTerm, again.nextTerm)
               && (forall t | t in n.votes :: t < again.nextTerm)
               && again.role.Follower? && again.currentTerm == 0 && again.commitIndex == 0
               && again.nextId == 0 && again.outstanding == map[] && again.work == [] && again.done == []
               && again.disk == n.disk && again.epoch == n.epoch + 1
  {
    hide Init, Apply, Enabled, Disciplined, Parse, Flatten, EndOffsets, Encoded, SelfDelimiting, Framed;
    var n := states[i].nodes[v];
    NodeLogOverRuns(members, states, steps, i, v);
    RunMoves(members, states, steps);
    IdsOverRuns(members, states, steps, i);
    assert IdsInOrder(n) && n.disk.votes + [] == n.disk.votes;
    ParseWhole(c, n.disk.log);
    NextTermIsNew(n.disk.votes, n.replica.lastTerm);
    forall t | t in n.votes ensures t < Restarted(n).nextTerm {
      LastVoteRecovered(n.disk.votes, t);
    }
  }
}
