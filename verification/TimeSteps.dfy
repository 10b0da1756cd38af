/** A time step of the code handles many events at once. In every role it is a run of the
    cluster's single steps, so the cluster theorems hold between any two time steps. */
module TimeSteps {
  import opened Logs
  import opened Nodes
  import opened Repair
  import opened Cluster
  import opened Handlers
  import opened Scripts

  // ---------------------------------------------------------------- where responses come from

  ghost predicate TruncationInFlight(c: Cluster, prevTerm: nat, prevIndex: nat) {
    exists from, m :: from in c.nodes && IsTruncation(c.nodes[from], m, prevTerm, prevIndex)
  }

  predicate IsTruncation(n: Node, m: Message, prevTerm: nat, prevIndex: nat) {
    m in n.sent && m.TruncateLog? && m.prevTerm == prevTerm && m.prevIndex == prevIndex
  }

  /** A response that the node's role acts on comes from a message in flight: a truncate
      request, or the answer to a ballot of the running process. */
  ghost predicate Delivered(c: Cluster, v: NodeId, r: QuorumResponse, b: Ballot)
    requires v in c.nodes
  {
    match r
    case TruncateRequest(prevTerm, prevIndex) =>
      c.nodes[v].role.Follower? ==> TruncationInFlight(c, prevTerm, prevIndex)
    case VoteResponse(id, term, granted) =>
      c.nodes[v].role.Candidate? ==>
        && b in c.ballots && c.ballots[b] == Answered(granted)
        && b.candidate == v && b.epoch == c.nodes[v].epoch && b.id == id && b.term == term
    case _ => true
  }

  /** All queued responses are, each vote response from a ballot of its own. */
  ghost predicate Backed(c: Cluster, v: NodeId, inbox: seq<QuorumResponse>, from: seq<Ballot>)
    requires v in c.nodes
  {
    && |from| == |inbox|
    && (forall k | 0 <= k < |inbox| :: Delivered(c, v, inbox[k], from[k]))
    && (forall j, k | 0 <= j < k < |inbox| && inbox[j].VoteResponse? && inbox[k].VoteResponse? :: from[j] != from[k])
  }

  /** Each truncate request names an entry the follower holds when its turn comes. */
  predicate Held(n: Node, inbox: seq<QuorumResponse>)
    decreases |inbox|
  {
    inbox == [] ||
    ((inbox[0].TruncateRequest? && n.role.Follower? ==> HoldsPoint(n.replica, inbox[0].prevTerm, inbox[0].prevIndex))
     && var next := OnResponse(n, inbox[0]).0;
        next.role == n.role ==> Held(next, inbox[1..]))
  }

  /** The premises of the cluster's steps, for the events of one time step. */
  predicate StepPremise(n: Node, inbox: seq<QuorumResponse>, timestamp: nat, timedOut: bool) {
    var n0 := Initialized(n, timestamp);
    var read := Drained(n0).0;
    read.role == n0.role ==>
      && Held(read, inbox)
      && var after := Responded(read, inbox).node;
         after.role == n0.role && after.role.Candidate? && timedOut ==> after.nextTerm !in after.votes
  }

  // ---------------------------------------------------------------- single events

  /** Answered ballots other than b stay, and so does every outbox. */
  ghost predicate Kept(c: Cluster, c': Cluster, v: NodeId, used: set<Ballot>) {
    && c'.tallies.Keys == c.tallies.Keys && c'.nodes.Keys == c.nodes.Keys && v in c.nodes
    && (forall b | b in c.ballots && c.ballots[b].Answered? && b !in used ::
          b in c'.ballots && c'.ballots[b] == c.ballots[b])
    && (forall u | u in c.nodes && u != v :: c'.nodes[u] == c.nodes[u])
    && c'.nodes[v].sent == c.nodes[v].sent && c'.nodes[v].epoch == c.nodes[v].epoch
  }

  ghost predicate Becomes(c: Cluster, c': Cluster, v: NodeId, n: Node, used: set<Ballot>) {
    v in c.nodes && c'.nodes == c.nodes[v := n] && Kept(c, c', v, used) && Reaches(All, c, c')
  }

  lemma ReadOne(c: Cluster, v: NodeId) returns (c': Cluster)
    requires c.tallies.Keys == c.nodes.Keys && v in c.nodes && c.nodes[v].done != []
    ensures Becomes(c, c', v, HandlePersisted(c.nodes[v]).0, {})
  {
    ReachesSelf(All, c);
    ReportKeeps(c.nodes[v]);
    hide Reaches, HandlePersisted;
    ReachesOn(All, c, c, ReadPersisted(v));
    c' := Apply(c, ReadPersisted(v));
  }

  lemma ReportKeeps(n: Node)
    requires n.done != []
    ensures HandlePersisted(n).0.sent == n.sent && HandlePersisted(n).0.epoch == n.epoch
  {
  }

  lemma Onward(c: Cluster, mid: Cluster, c': Cluster, v: NodeId, n: Node, n': Node, used: set<Ballot>,
               more: set<Ballot>)
    requires Becomes(c, mid, v, n, used) && Becomes(mid, c', v, n', more)
    ensures Becomes(c, c', v, n', used + more)
  {
    hide Reaches;
    ReachesThrough(All, c, mid, c');
  }

  lemma Unmoved(c: Cluster, v: NodeId)
    requires v in c.nodes
    ensures Becomes(c, c, v, c.nodes[v], {})
  {
    ReachesSelf(All, c);
    assert c.nodes == c.nodes[v := c.nodes[v]];
  }

  lemma {:induction false} DrainIsRun(c: Cluster, v: NodeId) returns (c': Cluster)
    requires c.tallies.Keys == c.nodes.Keys && v in c.nodes
    ensures Becomes(c, c', v, Drained(c.nodes[v]).0, {})
    decreases |c.nodes[v].done|
  {
    var n := c.nodes[v];
    if n.done == [] {
      Unmoved(c, v);
      return c;
    }
    c' := ReadOne(c, v);
    DrainOne(n);
    var next := HandlePersisted(n).0;
    if next.role == n.role {
      hide HandlePersisted, Drained, Reaches;
      var mid := c';
      c' := DrainIsRun(mid, v);
      Onward(c, mid, c', v, next, Drained(next).0, {}, {});
    }
  }

  lemma TruncateOne(c: Cluster, v: NodeId, prevTerm: nat, prevIndex: nat) returns (c': Cluster)
    requires c.tallies.Keys == c.nodes.Keys && v in c.nodes && TruncationInFlight(c, prevTerm, prevIndex)
    requires HoldsPoint(c.nodes[v].replica, prevTerm, prevIndex)
    ensures Becomes(c, c', v, OnTruncate(c.nodes[v], prevTerm, prevIndex), {})
  {
    var from, m :| from in c.nodes && IsTruncation(c.nodes[from], m, prevTerm, prevIndex);
    ReachesSelf(All, c);
    hide Reaches;
    ReachesOn(All, c, c, DeliverTruncate(v, from, m));
    c' := Apply(c, DeliverTruncate(v, from, m));
  }

  lemma CountOne(c: Cluster, b: Ballot, granted: bool) returns (c': Cluster)
    requires c.tallies.Keys == c.nodes.Keys && b.candidate in c.nodes && c.nodes[b.candidate].epoch == b.epoch
    requires b in c.ballots && c.ballots[b] == Answered(granted)
    ensures Becomes(c, c', b.candidate, OnVoteReply(c.nodes[b.candidate], b.id, b.term, granted).0, {b})
  {
    hide Reaches, OnVoteReply, AfterVoteReply, WithReply;
    ReachesSelf(All, c);
    ReachesOn(All, c, c, DeliverVoteReply(b));
    c' := AfterVoteReply(c, b);
    ReplyCounted(c, b, granted);
  }

  lemma ReplyCounted(c: Cluster, b: Ballot, granted: bool)
    requires c.tallies.Keys == c.nodes.Keys && b.candidate in c.nodes && b in c.ballots
    requires c.ballots[b] == Answered(granted)
    ensures var c' := AfterVoteReply(c, b);
            && c'.nodes == c.nodes[b.candidate := OnVoteReply(c.nodes[b.candidate], b.id, b.term, granted).0]
            && Kept(c, c', b.candidate, {b})
  {
    ReplyKeeps(c.nodes[b.candidate], b.id, b.term, granted);
    hide OnVoteReply;
  }

  lemma ReplyKeeps(n: Node, id: nat, term: nat, granted: bool)
    ensures OnVoteReply(n, id, term, granted).0.sent == n.sent && OnVoteReply(n, id, term, granted).0.epoch == n.epoch
  {
  }

  lemma AckOne(c: Cluster, v: NodeId, id: nat) returns (c': Cluster)
    requires c.tallies.Keys == c.nodes.Keys && v in c.nodes
    ensures Becomes(c, c', v, OnAck(c.nodes[v], id), {})
  {
    ReachesSelf(All, c);
    hide Reaches;
    ReachesOn(All, c, c, AckFromPeer(v, id));
    c' := Apply(c, AckFromPeer(v, id));
  }

  /** A response that the role acts on is one step; any other response changes nothing. */
  lemma RespondOne(c: Cluster, v: NodeId, r: QuorumResponse, b: Ballot) returns (c': Cluster)
    requires c.tallies.Keys == c.nodes.Keys && v in c.nodes && Delivered(c, v, r, b)
    requires r.TruncateRequest? && c.nodes[v].role.Follower? ==> HoldsPoint(c.nodes[v].replica, r.prevTerm, r.prevIndex)
    ensures Becomes(c, c', v, OnResponse(c.nodes[v], r).0, if r.VoteResponse? then {b} else {})
  {
    var n := c.nodes[v];
    if r.TruncateRequest? && n.role.Follower? {
      c' := TruncateOne(c, v, r.prevTerm, r.prevIndex);
    } else if r.VoteResponse? && n.role.Candidate? {
      c' := CountOne(c, b, r.granted);
    } else if r.AppendAck? {
      c' := AckOne(c, v, r.id);
    } else {
      Unmoved(c, v);
      c' := c;
    }
  }

  lemma BackedOn(c: Cluster, c': Cluster, v: NodeId, inbox: seq<QuorumResponse>, from: seq<Ballot>)
    requires v in c.nodes && inbox != [] && Backed(c, v, inbox, from) && c'.nodes.Keys == c.nodes.Keys
    requires Kept(c, c', v, if inbox[0].VoteResponse? then {from[0]} else {}) && c'.nodes[v].role == c.nodes[v].role
    ensures Backed(c', v, inbox[1..], from[1..])
  {
    forall k | 0 < k < |inbox| ensures Delivered(c', v, inbox[k], from[k]) {
      assert Delivered(c, v, inbox[k], from[k]);
      if inbox[k].TruncateRequest? && c.nodes[v].role.Follower? {
        SameOutboxes(c, c', v, inbox[k].prevTerm, inbox[k].prevIndex);
      }
    }
  }

  lemma SameOutboxes(c: Cluster, c': Cluster, v: NodeId, prevTerm: nat, prevIndex: nat)
    requires v in c.nodes && TruncationInFlight(c, prevTerm, prevIndex) && c'.nodes.Keys == c.nodes.Keys
    requires c'.nodes[v].sent == c.nodes[v].sent && forall u | u in c.nodes && u != v :: c'.nodes[u] == c.nodes[u]
    ensures TruncationInFlight(c', prevTerm, prevIndex)
  {
    var from, m :| from in c.nodes && IsTruncation(c.nodes[from], m, prevTerm, prevIndex);
    assert IsTruncation(c'.nodes[from], m, prevTerm, prevIndex);
  }

  lemma {:induction false} ResponsesAreRun(c: Cluster, v: NodeId, inbox: seq<QuorumResponse>, from: seq<Ballot>)
    returns (c': Cluster, used: set<Ballot>)
    requires c.tallies.Keys == c.nodes.Keys && v in c.nodes && Backed(c, v, inbox, from) && Held(c.nodes[v], inbox)
    ensures Becomes(c, c', v, Responded(c.nodes[v], inbox).node, used)
    decreases |inbox|
  {
    var n := c.nodes[v];
    if inbox == [] {
      Unmoved(c, v);
      return c, {};
    }
    var next := OnResponse(n, inbox[0]).0;
    assert Delivered(c, v, inbox[0], from[0]);
    hide OnResponse, Reaches, Delivered;
    c' := RespondOne(c, v, inbox[0], from[0]);
    used := if inbox[0].VoteResponse? then {from[0]} else {};
    if next.role == n.role {
      var mid, more := c', {};
      BackedOn(c, mid, v, inbox, from);
      hide Backed, Kept;
      c', more := ResponsesAreRun(mid, v, inbox[1..], from[1..]);
      Onward(c, mid, c', v, next, Responded(next, inbox[1..]).node, used, more);
      used := used + more;
    }
  }

  // ---------------------------------------------------------------- the end of a time step

  lemma {:induction false} BackfillsAreRun(c: Cluster, v: NodeId, wanted: seq<(nat, nat)>) returns (c': Cluster)
    requires c.tallies.Keys == c.nodes.Keys && v in c.nodes && c.nodes[v].role.Leader?
    ensures Reaches(All, c, c') && c'.nodes == c.nodes[v := Backfilled(c.nodes[v], wanted)] && c'.tallies == c.tallies
    ensures Backfilled(c.nodes[v], wanted).role == c.nodes[v].role
    decreases |wanted|
  {
    hide Reaches, OnBackfillRequest;
    if wanted == [] {
      ReachesSelf(All, c);
      assert c.nodes == c.nodes[v := c.nodes[v]];
      return c;
    }
    var last := |wanted| - 1;
    var mid := BackfillsAreRun(c, v, wanted[..last]);
    BackfillKeepsRole(mid.nodes[v], wanted[last].0, wanted[last].1);
    c' := BackfillIsRun(mid, v, wanted[last].0, wanted[last].1);
    ReachesThrough(All, c, mid, c');
  }

  lemma BackfillIsRun(c: Cluster, v: NodeId, lastTerm: nat, lastIndex: nat) returns (c': Cluster)
    requires c.tallies.Keys == c.nodes.Keys && v in c.nodes && c.nodes[v].role.Leader?
    ensures Reaches(All, c, c') && c'.nodes == c.nodes[v := OnBackfillRequest(c.nodes[v], lastTerm, lastIndex)]
    ensures c'.tallies == c.tallies
  {
    hide Reaches, OnBackfillRequest;
    ReachesSelf(All, c);
    ReachesOn(All, c, c, BackfillRequest(v, lastTerm, lastIndex));
    c' := Apply(c, BackfillRequest(v, lastTerm, lastIndex));
  }

  lemma BackfillKeepsRole(n: Node, lastTerm: nat, lastIndex: nat)
    ensures OnBackfillRequest(n, lastTerm, lastIndex).role == n.role
  {
  }

  lemma FinishIsRun(c: Cluster, v: NodeId, wanted: seq<(nat, nat)>, timedOut: bool) returns (c': Cluster)
    requires c.tallies.Keys == c.nodes.Keys && v in c.nodes
    requires c.nodes[v].role.Candidate? && timedOut ==> c.nodes[v].nextTerm !in c.nodes[v].votes
    ensures Reaches(All, c, c') && c'.nodes == c.nodes[v := Finished(c.nodes[v], wanted, timedOut)]
  {
    ReachesSelf(All, c);
    hide Reaches, Backfilled, StartElection;
    var n := c.nodes[v];
    if n.role.Leader? {
      c' := BackfillsAreRun(c, v, wanted);
    } else if timedOut {
      var s := if n.role.Follower? then ElectionTimeout(v) else BeginElection(v);
      ReachesOn(All, c, c, s);
      c' := Apply(c, s);
    } else {
      c' := c;
      assert c.nodes == c.nodes[v := n];
    }
  }

  lemma InitializationIsRun(c: Cluster, v: NodeId, inbox: seq<QuorumResponse>, from: seq<Ballot>, timestamp: nat)
    returns (c': Cluster)
    requires c.tallies.Keys == c.nodes.Keys && v in c.nodes && Backed(c, v, inbox, from)
    ensures Reaches(All, c, c') && c'.nodes == c.nodes[v := Initialized(c.nodes[v], timestamp)]
    ensures c'.tallies == c.tallies && Backed(c', v, inbox, from)
  {
    ReachesSelf(All, c);
    var n := c.nodes[v];
    if n.role == Leader(false) {
      var s := BeginLeading(v, timestamp);
      assert InitializeLeadership(n, timestamp).role.Leader?;
      hide Reaches, InitializeLeadership;
      ReachesOn(All, c, c, s);
      c' := Apply(c, s);
      forall k | 0 <= k < |inbox| ensures Delivered(c', v, inbox[k], from[k]) {
      }
    } else {
      c' := c;
      assert c.nodes == c.nodes[v := n];
    }
  }

  lemma BackedSame(c: Cluster, c': Cluster, v: NodeId, inbox: seq<QuorumResponse>, from: seq<Ballot>)
    requires v in c.nodes && Backed(c, v, inbox, from) && Kept(c, c', v, {}) && c'.nodes[v].role == c.nodes[v].role
    ensures Backed(c', v, inbox, from)
  {
    forall k | 0 <= k < |inbox| ensures Delivered(c', v, inbox[k], from[k]) {
      assert Delivered(c, v, inbox[k], from[k]);
      if inbox[k].TruncateRequest? && c.nodes[v].role.Follower? {
        SameOutboxes(c, c', v, inbox[k].prevTerm, inbox[k].prevIndex);
      }
    }
  }

  lemma RestIsRun(c: Cluster, v: NodeId, inbox: seq<QuorumResponse>, from: seq<Ballot>, timedOut: bool)
    returns (c': Cluster)
    requires c.tallies.Keys == c.nodes.Keys && v in c.nodes && Backed(c, v, inbox, from) && Held(c.nodes[v], inbox)
    requires var after := Responded(c.nodes[v], inbox).node;
             after.role == c.nodes[v].role && after.role.Candidate? && timedOut ==> after.nextTerm !in after.votes
    ensures var after := Responded(c.nodes[v], inbox).node;
            && Reaches(All, c, c')
            && c'.nodes == c.nodes[v := if after.role != c.nodes[v].role then after
                                        else Finished(after, BackfillsIn(inbox), timedOut)]
  {
    hide Responded, BackfillsIn, Finished, Reaches, Backed, Held;
    var used;
    c', used := ResponsesAreRun(c, v, inbox, from);
    if c'.nodes[v].role == c.nodes[v].role {
      var mid := c';
      c' := FinishIsRun(mid, v, BackfillsIn(inbox), timedOut);
      ReachesThrough(All, c, mid, c');
    }
  }

  lemma ReadsAreRun(c: Cluster, v: NodeId, inbox: seq<QuorumResponse>, from: seq<Ballot>) returns (c': Cluster)
    requires c.tallies.Keys == c.nodes.Keys && v in c.nodes && Backed(c, v, inbox, from)
    ensures var read := Drained(c.nodes[v]).0;
            && Reaches(All, c, c') && c'.nodes == c.nodes[v := read] && c'.tallies.Keys == c'.nodes.Keys
            && (read.role == c.nodes[v].role ==> Backed(c', v, inbox, from))
  {
    hide Drained, Reaches, Backed;
    c' := DrainIsRun(c, v);
    if c'.nodes[v].role == c.nodes[v].role {
      BackedSame(c, c', v, inbox, from);
    }
  }

  /** Every time step in every role, with all its queued reports and responses, is a run of
      single steps of the cluster that meets the premises and touches no other node. */
  lemma TimeStepIsRun(
    c: Cluster, v: NodeId, inbox: seq<QuorumResponse>, from: seq<Ballot>, timestamp: nat, timedOut: bool)
    returns (c': Cluster)
    requires c.tallies.Keys == c.nodes.Keys && v in c.nodes && Backed(c, v, inbox, from)
    requires StepPremise(c.nodes[v], inbox, timestamp, timedOut)
    ensures Reaches(All, c, c') && c'.nodes == c.nodes[v := TimeStepped(c.nodes[v], inbox, timestamp, timedOut).node]
  {
    hide Drained, Responded, Initialized, BackfillsIn, Finished, Reaches, Backed, Held;
    var n := Initialized(c.nodes[v], timestamp);
    var init := InitializationIsRun(c, v, inbox, from, timestamp);
    c' := ReadsAreRun(init, v, inbox, from);
    ReachesThrough(All, c, init, c');
    if c'.nodes[v].role == n.role {
      var read := c';
      c' := RestIsRun(read, v, inbox, from, timedOut);
      ReachesThrough(All, c, read, c');
    }
  }
}
