/** What a step of the cluster does to each single node. */
module NodeMoves {
  import opened Logs
  import opened Nodes
  import opened Repair
  import opened Cluster

  function NodeAfter(c: Cluster, s: Step, u: NodeId): Node
    requires Enabled(c, s) && u in c.nodes
  {
    var n := c.nodes[u];
    match s
    case ElectionTimeout(v) => if v == u then n.(role := Candidate) else n
    case BeginElection(v) => if v == u then StartElection(n) else n
    case DeliverVoteRequest(b) => if b.voter == u then OnVoteRequest(n, b, c.ballots[b].lastIndex).0 else n
    case DeliverVoteReply(b) =>
      if b.candidate == u then OnVoteReply(n, b.id, b.term, c.ballots[b].granted).0 else n
    case LoseBallot(_) => n
    case DeliverAppend(v, _, m, commit) => if v == u then OnAppend(n, m.(commit := commit)).0 else n
    case DeliverTruncate(v, _, m) => if v == u then OnTruncate(n, m.prevTerm, m.prevIndex) else n
    case Persist(v) => if v == u then PersistOne(n) else n
    case ReadPersisted(v) => if v == u then HandlePersisted(n).0 else n
    case BeginLeading(v, timestamp) => if v == u then InitializeLeadership(n, timestamp) else n
    case ClientWrite(v, timestamp, commands) => if v == u then WriteBatch(n, timestamp, commands) else n
    case Heartbeat(v, prevIndex, prevTerm) =>
      if v != u then n
      else n.(sent := n.sent + {AppendEntries(n.currentTerm, v, prevIndex, prevTerm, 0, None, n.commitIndex)})
    case AckFromPeer(v, id) => if v == u then OnAck(n, id) else n
    case BackfillRequest(v, lastTerm, lastIndex) => if v == u then OnBackfillRequest(n, lastTerm, lastIndex) else n
    case CrashAndRestart(v) => if v == u then Restarted(n) else n
  }

  predicate Votes(s: Step) {
    s.BeginElection? || s.DeliverVoteRequest? || s.DeliverVoteReply? || s.LoseBallot?
  }

  predicate Local(s: Step) {
    s.ElectionTimeout? || s.Persist? || s.ReadPersisted? || s.BeginLeading? || s.ClientWrite? || s.CrashAndRestart?
  }

  lemma AfterRead(c: Cluster, v: NodeId, u: NodeId)
    requires c.tallies.Keys == c.nodes.Keys && Enabled(c, ReadPersisted(v)) && u in c.nodes
    ensures var s := ReadPersisted(v);
            && u in Apply(c, s).nodes && Apply(c, s).nodes[u] == NodeAfter(c, s, u)
            && Apply(c, s).nodes.Keys == c.nodes.Keys
  {
    hide HandlePersisted, WithReply;
  }

  lemma AfterVotes(c: Cluster, s: Step, u: NodeId)
    requires c.tallies.Keys == c.nodes.Keys && Enabled(c, s) && u in c.nodes && Votes(s)
    ensures u in Apply(c, s).nodes && Apply(c, s).nodes[u] == NodeAfter(c, s, u)
    ensures Apply(c, s).nodes.Keys == c.nodes.Keys
  {
    hide OnVoteReply, OnVoteRequest, StartElection, WithReply, Requests;
  }

  lemma AfterLead(c: Cluster, v: NodeId, timestamp: nat, u: NodeId)
    requires c.tallies.Keys == c.nodes.Keys && Enabled(c, BeginLeading(v, timestamp)) && u in c.nodes
    ensures var s := BeginLeading(v, timestamp);
            && u in Apply(c, s).nodes && Apply(c, s).nodes[u] == NodeAfter(c, s, u)
            && Apply(c, s).nodes.Keys == c.nodes.Keys
  {
    hide InitializeLeadership;
  }

  lemma AfterWrite(c: Cluster, v: NodeId, timestamp: nat, commands: seq<Command>, u: NodeId)
    requires c.tallies.Keys == c.nodes.Keys && Enabled(c, ClientWrite(v, timestamp, commands)) && u in c.nodes
    ensures var s := ClientWrite(v, timestamp, commands);
            && u in Apply(c, s).nodes && Apply(c, s).nodes[u] == NodeAfter(c, s, u)
            && Apply(c, s).nodes.Keys == c.nodes.Keys
  {
    hide WriteBatch;
    var s := ClientWrite(v, timestamp, commands);
    assert Apply(c, s).nodes == c.nodes[v := WriteBatch(c.nodes[v], timestamp, commands)];
  }

  lemma AfterLocal(c: Cluster, s: Step, u: NodeId)
    requires c.tallies.Keys == c.nodes.Keys && Enabled(c, s) && u in c.nodes && Local(s)
    ensures u in Apply(c, s).nodes && Apply(c, s).nodes[u] == NodeAfter(c, s, u)
    ensures Apply(c, s).nodes.Keys == c.nodes.Keys
  {
    if s.ReadPersisted? {
      hide Apply, Enabled, NodeAfter;
      AfterRead(c, s.v, u);
    } else if s.BeginLeading? {
      hide Apply, Enabled, NodeAfter;
      AfterLead(c, s.v, s.timestamp, u);
    } else if s.ClientWrite? {
      hide Apply, Enabled, NodeAfter;
      AfterWrite(c, s.v, s.timestamp, s.commands, u);
    } else {
      hide PersistOne, Restarted;
    }
  }

  lemma AfterPeers(c: Cluster, s: Step, u: NodeId)
    requires c.tallies.Keys == c.nodes.Keys && Enabled(c, s) && u in c.nodes && !Votes(s) && !Local(s)
    ensures u in Apply(c, s).nodes && Apply(c, s).nodes[u] == NodeAfter(c, s, u)
    ensures Apply(c, s).nodes.Keys == c.nodes.Keys
  {
    hide OnAppend, OnTruncate, OnAck, OnBackfillRequest;
  }

  lemma AfterStep(c: Cluster, s: Step, u: NodeId)
    requires c.tallies.Keys == c.nodes.Keys && Enabled(c, s) && u in c.nodes
    ensures u in Apply(c, s).nodes && Apply(c, s).nodes[u] == NodeAfter(c, s, u)
    ensures Apply(c, s).nodes.Keys == c.nodes.Keys
  {
    hide Apply, Enabled, NodeAfter;
    if Votes(s) {
      AfterVotes(c, s, u);
    } else if Local(s) {
      AfterLocal(c, s, u);
    } else {
      AfterPeers(c, s, u);
    }
  }

  lemma SameMembers(c: Cluster, s: Step)
    requires c.tallies.Keys == c.nodes.Keys && Enabled(c, s)
    ensures Apply(c, s).nodes.Keys == c.nodes.Keys
  {
    if s.LoseBallot? {
      hide Enabled;
    } else {
      SomeMember(c, s);
      hide Apply, Enabled;
      var u :| u in c.nodes;
      AfterStep(c, s, u);
    }
  }

  lemma SomeMember(c: Cluster, s: Step)
    requires Enabled(c, s) && !s.LoseBallot?
    ensures exists u :: u in c.nodes
  {
  }
}
