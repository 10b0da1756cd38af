/** Log repair as steps of the cluster: a follower answers a heartbeat of its leader by naming
    the end of its own log, and the leader sends a truncation or the rest of its log. */
module RepairRuns {
  import opened Logs
  import opened Nodes
  import opened RequestLaws
  import opened Repair
  import opened Cluster
  import opened NodeInvariant
  import opened ClusterInvariant
  import opened ClusterSteps
  import opened ClusterSafety
  import opened Scripts

  /** Node a leads, node b follows it, and both are what they were but for a's outbox and
      b's own doings. */
  ghost predicate Pair(c: Cluster, a: NodeId, b: NodeId) {
    && c.tallies.Keys == c.nodes.Keys && a in c.nodes && b in c.nodes && a != b
    && c.nodes[a].role.Leader? && Recognises(c.nodes[b], c.nodes[a])
  }

  predicate SameLeader(n: Node, n': Node) {
    && n'.role == n.role && n'.currentTerm == n.currentTerm && n'.id == n.id
    && n'.replica == n.replica && n'.commitIndex == n.commitIndex
  }

  // ---------------------------------------------------------------- questions come from answers

  /** The question q to a leader is what a follower has answered, in step s, to a message of
      that leader. */
  predicate FromReply(c: Cluster, s: Step, q: Step) {
    && s.DeliverAppend? && s.v in c.nodes && s.m.AppendEntries? && q.BackfillRequest? && q.v == s.from
    && OnAppend(c.nodes[s.v], s.m.(commit := s.commit)).1 == WantedPreviousEntry(q.lastTerm, q.lastIndex)
  }

  ghost predicate Driven(states: seq<Cluster>, steps: seq<Step>) {
    && |states| == |steps| + 1
    && forall k | 0 <= k < |steps| && steps[k].BackfillRequest? ::
         k > 0 && FromReply(states[k - 1], steps[k - 1], steps[k])
  }

  /** Steps that meet the premises lead from c to c'. In a driven talk every question to a
      leader is a follower's answer in the step before. */
  ghost predicate Talks(driven: bool, c: Cluster, c': Cluster) {
    exists states, steps :: Links(All, c, states, steps, c') && (driven ==> Driven(states, steps))
  }

  lemma TalksSelf(driven: bool, c: Cluster)
    ensures Talks(driven, c, c)
  {
    assert Links(All, c, [c], [], c) && Driven([c], []);
  }

  lemma TalkOf(driven: bool, c: Cluster, states: seq<Cluster>, steps: seq<Step>, c': Cluster)
    requires Links(All, c, states, steps, c') && (driven ==> Driven(states, steps))
    ensures Talks(driven, c, c')
  {
  }

  lemma TalksThrough(driven: bool, c: Cluster, mid: Cluster, c': Cluster)
    requires Talks(driven, c, mid) && Talks(driven, mid, c')
    ensures Talks(driven, c, c')
  {
    hide Leads, FromReply;
    var states: seq<Cluster>, steps: seq<Step> :|
      Links(All, c, states, steps, mid) && (driven ==> Driven(states, steps));
    var more: seq<Cluster>, moreSteps: seq<Step> :|
      Links(All, mid, more, moreSteps, c') && (driven ==> Driven(more, moreSteps));
    var all, allSteps := states + more[1..], steps + moreSteps;
    forall i | 0 <= i < |allSteps| ensures Leads(All, all[i], allSteps[i], all[i + 1]) {
      if i < |steps| {
        assert Leads(All, states[i], steps[i], states[i + 1]);
      } else {
        var k := i - |steps|;
        assert Leads(All, more[k], moreSteps[k], more[k + 1]);
        assert all[i] == more[k] && all[i + 1] == more[k + 1];
      }
    }
    assert Links(All, c, all, allSteps, c');
    if driven {
      forall i | 0 <= i < |allSteps| && allSteps[i].BackfillRequest?
        ensures i > 0 && FromReply(all[i - 1], allSteps[i - 1], allSteps[i])
      {
        if i >= |steps| {
          var k := i - |steps|;
          assert moreSteps[k].BackfillRequest?;
          assert all[i - 1] == more[k - 1];
        } else {
          assert steps[i].BackfillRequest?;
        }
      }
    }
  }

  lemma TalksOn(driven: bool, c: Cluster, s: Step)
    requires c.tallies.Keys == c.nodes.Keys && Enabled(c, s) && Disciplined(c, s) && (driven ==> !s.BackfillRequest?)
    ensures Talks(driven, c, Apply(c, s))
  {
    hide Enabled, Disciplined, Apply, FromReply;
    var c' := Apply(c, s);
    assert Leads(All, c, s, c');
    assert Links(All, c, [c, c'], [s], c');
  }

  lemma TalksReach(driven: bool, c: Cluster, c': Cluster)
    requires Talks(driven, c, c')
    ensures Reaches(All, c, c')
  {
    hide Links, Driven;
  }

  // ---------------------------------------------------------------- one exchange

  /** The messages of a backfill are delivered one after the other. */
  lemma {:induction false} DeliverAll(driven: bool, c: Cluster, a: NodeId, b: NodeId, entries: seq<Entry>)
    returns (c': Cluster)
    requires Pair(c, a, b)
    requires forall e | e in entries :: e.messageId != 0 && EntryMessage(c.nodes[a], e) in c.nodes[a].sent
    ensures Talks(driven, c, c') && Pair(c', a, b)
    ensures c'.nodes[a] == c.nodes[a] && c'.nodes[b] == Fed(c.nodes[b], c.nodes[a], entries)
    decreases |entries|
  {
    if entries == [] {
      TalksSelf(driven, c);
      return c;
    }
    var m := EntryMessage(c.nodes[a], entries[0]);
    EntryHeard(c.nodes[b], c.nodes[a], entries[0], c.nodes[a].commitIndex);
    hide Talks, OnAppend, Recognises, EntryMessage;
    TalksOn(driven, c, DeliverAppend(b, a, m, m.commit));
    var mid := Apply(c, DeliverAppend(b, a, m, m.commit));
    assert mid.nodes == c.nodes[b := OnAppend(c.nodes[b], m).0];
    hide Apply;
    c' := DeliverAll(driven, mid, a, b, entries[1..]);
    TalksThrough(driven, c, mid, c');
  }

  /** The heartbeat of an initialized leader whose worker has sent all of its log. */
  function BeatOf(n: Node): Message {
    AppendEntries(n.currentTerm, n.id, n.replica.lastIndex, n.replica.lastTerm, 0, None, n.commitIndex)
  }

  /** A follower whose log ends elsewhere answers it with the end of its own log, and changes
      in nothing but the leader and term it knows. */
  lemma BeatAnswered(peer: Node, n: Node)
    requires Recognises(peer, n) && CursorOk(peer.replica) && CursorOk(n.replica)
    requires || LastIndex(peer.replica.log) != LastIndex(n.replica.log)
             || LastTerm(peer.replica.log) != LastTerm(n.replica.log)
    ensures var (heard, reply) := OnAppend(peer, BeatOf(n));
            && reply == WantedPreviousEntry(LastTerm(peer.replica.log), LastIndex(peer.replica.log))
            && heard.replica == peer.replica && Recognises(heard, n)
  {
    AppendAnswer(peer, BeatOf(n));
    AppendFollows(peer, BeatOf(n));
    hide OnAppend;
  }

  /** The leader is asked for what the follower lacks, and answers. An initialized leader is
      asked by the follower's answer to its heartbeat. */
  lemma AskStep(c: Cluster, a: NodeId, b: NodeId) returns (c': Cluster, n: Node)
    requires Pair(c, a, b) && c.nodes[a].id == a && CursorOk(c.nodes[a].replica) && CursorOk(c.nodes[b].replica)
    requires var log, own := c.nodes[a].replica.log, c.nodes[b].replica.log;
             LastIndex(own) != LastIndex(log) || LastTerm(own) != LastTerm(log)
    ensures Talks(c.nodes[a].role.initialized, c, c') && Pair(c', a, b) && c'.nodes[b].replica == c.nodes[b].replica
    ensures SameLeader(c.nodes[a], n) && SameLeader(c.nodes[a], c'.nodes[a])
    ensures var own := c.nodes[b].replica.log;
            c'.nodes[a] == OnBackfillRequest(n, LastTerm(own), LastIndex(own))
  {
    n := c.nodes[a];
    var own := c.nodes[b].replica.log;
    var q := BackfillRequest(a, LastTerm(own), LastIndex(own));
    QuestionKeeps(n, LastTerm(own), LastIndex(own));
    if !n.role.initialized {
      hide Talks, OnBackfillRequest;
      TalksOn(false, c, q);
      c' := Apply(c, q);
    } else {
      n := n.(sent := n.sent + {BeatOf(n)});
      QuestionKeeps(n, LastTerm(own), LastIndex(own));
      hide Talks, OnBackfillRequest, OnAppend, Recognises;
      c' := BeatExchange(c, a, b, n, q);
    }
  }

  lemma QuestionKeeps(n: Node, lastTerm: nat, lastIndex: nat)
    ensures SameLeader(n, OnBackfillRequest(n, lastTerm, lastIndex))
  {
  }

  lemma BeatExchange(c: Cluster, a: NodeId, b: NodeId, n: Node, q: Step) returns (c': Cluster)
    requires Pair(c, a, b) && c.nodes[a].id == a && c.nodes[a].role == Leader(true)
    requires CursorOk(c.nodes[a].replica) && CursorOk(c.nodes[b].replica)
    requires var log, own := c.nodes[a].replica.log, c.nodes[b].replica.log;
             && (LastIndex(own) != LastIndex(log) || LastTerm(own) != LastTerm(log))
             && q == BackfillRequest(a, LastTerm(own), LastIndex(own))
    requires n == c.nodes[a].(sent := c.nodes[a].sent + {BeatOf(c.nodes[a])})
    ensures Talks(true, c, c') && Pair(c', a, b) && c'.nodes[b].replica == c.nodes[b].replica
    ensures c'.nodes[a] == OnBackfillRequest(n, q.lastTerm, q.lastIndex)
  {
    var m := BeatOf(c.nodes[a]);
    BeatAnswered(c.nodes[b], c.nodes[a]);
    QuestionKeeps(n, q.lastTerm, q.lastIndex);
    hide Talks, OnBackfillRequest, OnAppend, Recognises, BeatOf, Links, Driven, Apply, Enabled, Disciplined, FromReply;
    var beat := Heartbeat(a, m.prevIndex, m.prevTerm);
    var c1 := BeatStep(c, a, m, beat, n);
    var tell := DeliverAppend(b, a, m, m.commit);
    var c2 := TellStep(c1, a, b, m, q);
    c' := QuestionStep(c2, a, n, q);
    ThreeSteps(c, beat, c1, tell, c2, q, c');
    StillPair(c, c', a, b);
  }

  lemma StillPair(c: Cluster, c': Cluster, a: NodeId, b: NodeId)
    requires Pair(c, a, b) && c'.tallies.Keys == c'.nodes.Keys && a in c'.nodes && b in c'.nodes
    requires SameLeader(c.nodes[a], c'.nodes[a]) && Recognises(c'.nodes[b], c.nodes[a])
    ensures Pair(c', a, b)
  {
  }

  lemma BeatStep(c: Cluster, a: NodeId, m: Message, beat: Step, n: Node) returns (c': Cluster)
    requires c.tallies.Keys == c.nodes.Keys && a in c.nodes && c.nodes[a].id == a && c.nodes[a].role == Leader(true)
    requires m == BeatOf(c.nodes[a]) && beat == Heartbeat(a, m.prevIndex, m.prevTerm)
    requires n == c.nodes[a].(sent := c.nodes[a].sent + {m})
    ensures Enabled(c, beat) && Disciplined(c, beat) && c' == Apply(c, beat)
    ensures c'.nodes == c.nodes[a := n] && c'.tallies == c.tallies && m in n.sent
  {
    c' := Apply(c, beat);
  }

  /** The message reaches the follower, whose answer is the question q. */
  lemma TellStep(c: Cluster, a: NodeId, b: NodeId, m: Message, q: Step) returns (c': Cluster)
    requires c.tallies.Keys == c.nodes.Keys && a in c.nodes && b in c.nodes
    requires m.AppendEntries? && m in c.nodes[a].sent && q.BackfillRequest? && q.v == a
    requires OnAppend(c.nodes[b], m).1 == WantedPreviousEntry(q.lastTerm, q.lastIndex)
    ensures var tell := DeliverAppend(b, a, m, m.commit);
            && Enabled(c, tell) && Disciplined(c, tell) && c' == Apply(c, tell) && FromReply(c, tell, q)
    ensures c'.nodes == c.nodes[b := OnAppend(c.nodes[b], m).0] && c'.tallies == c.tallies
  {
    hide OnAppend;
    assert m.(commit := m.commit) == m;
    c' := Apply(c, DeliverAppend(b, a, m, m.commit));
  }

  lemma QuestionStep(c: Cluster, a: NodeId, n: Node, q: Step) returns (c': Cluster)
    requires c.tallies.Keys == c.nodes.Keys && a in c.nodes && c.nodes[a] == n && n.role.Leader?
    requires q.BackfillRequest? && q.v == a
    ensures Enabled(c, q) && Disciplined(c, q) && c' == Apply(c, q)
    ensures c'.nodes == c.nodes[a := OnBackfillRequest(n, q.lastTerm, q.lastIndex)] && c'.tallies == c.tallies
  {
    hide OnBackfillRequest;
    c' := Apply(c, q);
  }

  lemma ThreeSteps(c: Cluster, s1: Step, c1: Cluster, s2: Step, c2: Cluster, s3: Step, c3: Cluster)
    requires c.tallies.Keys == c.nodes.Keys && Enabled(c, s1) && Disciplined(c, s1) && c1 == Apply(c, s1)
    requires c1.tallies.Keys == c1.nodes.Keys && Enabled(c1, s2) && Disciplined(c1, s2) && c2 == Apply(c1, s2)
    requires c2.tallies.Keys == c2.nodes.Keys && Enabled(c2, s3) && Disciplined(c2, s3) && c3 == Apply(c2, s3)
    requires !s1.BackfillRequest? && !s2.BackfillRequest? && FromReply(c1, s2, s3)
    ensures Talks(true, c, c3)
  {
    hide Enabled, Disciplined, Apply, FromReply;
    var states, steps := [c, c1, c2, c3], [s1, s2, s3];
    assert Leads(All, c, s1, c1) && Leads(All, c1, s2, c2) && Leads(All, c2, s3, c3);
    hide Leads;
    assert Links(All, c, states, steps, c3);
    assert Driven(states, steps);
    TalkOf(true, c, states, steps, c3);
  }

  /** One question and its answer, as steps of the cluster. A truncation must name an entry
      the follower holds. */
  lemma ExchangeStep(c: Cluster, a: NodeId, b: NodeId) returns (c': Cluster)
    requires Pair(c, a, b) && WellFormed(c.nodes[a].replica.log) && c.nodes[a].replica.log != [] && c.nodes[a].id == a
    requires CursorOk(c.nodes[a].replica) && CursorOk(c.nodes[b].replica)
    requires var answer := AnswerTo(c.nodes[a].replica.log, c.nodes[b].replica.lastTerm, c.nodes[b].replica.lastIndex);
             answer.Truncate? ==> HoldsPoint(c.nodes[b].replica, answer.prevTerm, answer.prevIndex)
    ensures Talks(c.nodes[a].role.initialized, c, c') && Pair(c', a, b) && SameLeader(c.nodes[a], c'.nodes[a])
    ensures c'.nodes[b].replica == Exchange(c.nodes[a].replica.log, c.nodes[b].replica)
  {
    hide Talks, OnBackfillRequest, Fed, Recognises;
    var log, r := c.nodes[a].replica.log, c.nodes[b].replica;
    if LastIndex(r.log) == LastIndex(log) && LastTerm(r.log) == LastTerm(log) {
      NothingToAsk(log, r);
      TalksSelf(c.nodes[a].role.initialized, c);
      c' := c;
    } else {
      var answer := AnswerTo(log, r.lastTerm, r.lastIndex);
      hide AnswerTo;
      var asked, n := AskStep(c, a, b);
      match answer
      case Truncate(prevTerm, prevIndex) =>
        TruncationSent(n, r.lastTerm, r.lastIndex, prevTerm, prevIndex);
        c' := TruncateStep(asked, a, b, prevTerm, prevIndex, c.nodes[a].role.initialized);
        TalksThrough(c.nodes[a].role.initialized, c, asked, c');
      case Backfill(entries) =>
        BackfillSent(n, r.lastTerm, r.lastIndex, entries);
        c' := DeliverAll(c.nodes[a].role.initialized, asked, a, b, entries);
        FedReceives(asked.nodes[b], asked.nodes[a], entries);
        TalksThrough(c.nodes[a].role.initialized, c, asked, c');
    }
  }

  /** A follower whose log ends where the leader's does would be sent nothing. */
  lemma NothingToAsk(log: Log, r: Replica)
    requires WellFormed(log) && log != [] && CursorOk(r)
    requires LastIndex(r.log) == LastIndex(log) && LastTerm(r.log) == LastTerm(log)
    ensures Exchange(log, r) == r
  {
    CursorOfWellFormed(log);
    assert log[|log|..] == [];
  }

  lemma TruncationSent(n: Node, lastTerm: nat, lastIndex: nat, prevTerm: nat, prevIndex: nat)
    requires AnswerTo(n.replica.log, lastTerm, lastIndex) == Truncate(prevTerm, prevIndex)
    ensures TruncateLog(n.currentTerm, n.id, prevTerm, prevIndex) in OnBackfillRequest(n, lastTerm, lastIndex).sent
  {
    hide AnswerTo;
  }

  lemma BackfillSent(n: Node, lastTerm: nat, lastIndex: nat, entries: seq<Entry>)
    requires WellFormed(n.replica.log) && AnswerTo(n.replica.log, lastTerm, lastIndex) == Backfill(entries)
    ensures var n' := OnBackfillRequest(n, lastTerm, lastIndex);
            forall e | e in entries :: e.messageId != 0 && EntryMessage(n', e) in n'.sent
  {
    forall e | e in entries ensures e.messageId != 0 {
      var log := n.replica.log;
      var i :| 0 <= i < |log| && log[i] == e;
      assert EntryAt(log, i);
    }
  }

  lemma TruncateStep(c: Cluster, a: NodeId, b: NodeId, prevTerm: nat, prevIndex: nat, driven: bool)
    returns (c': Cluster)
    requires Pair(c, a, b) && HoldsPoint(c.nodes[b].replica, prevTerm, prevIndex)
    requires TruncateLog(c.nodes[a].currentTerm, c.nodes[a].id, prevTerm, prevIndex) in c.nodes[a].sent
    ensures Talks(driven, c, c') && Pair(c', a, b) && c'.nodes[a] == c.nodes[a]
    ensures c'.nodes[b].replica == Cut(c.nodes[b].replica, prevTerm, prevIndex)
  {
    hide Talks;
    var m := TruncateLog(c.nodes[a].currentTerm, c.nodes[a].id, prevTerm, prevIndex);
    TalksOn(driven, c, DeliverTruncate(b, a, m));
    c' := Apply(c, DeliverTruncate(b, a, m));
  }

  // ---------------------------------------------------------------- repair

  /** A repairable follower holds the point it is told to cut to, and the next answer is a
      backfill. */
  lemma RepairableTruncation(leader: Log, r: Replica, h: History)
    requires Sound(leader, h) && Sound(r.log, h) && CursorOk(r) && leader != [] && Repairable(leader, r.log)
    requires AnswerTo(leader, r.lastTerm, r.lastIndex).Truncate?
    ensures var answer := AnswerTo(leader, r.lastTerm, r.lastIndex);
            && HoldsPoint(r, answer.prevTerm, answer.prevIndex)
            && var cut := Exchange(leader, r);
               AnswerTo(leader, cut.lastTerm, cut.lastIndex).Backfill?
  {
    CursorOfWellFormed(r.log);
    if r.log == [] {
      BackfillAll(leader, r);
    } else if |r.log| > |leader| {
      BackfillFrom(leader, Cut(r, LastTerm(leader), |leader| - 1), |leader|);
    } else {
      var found := LastWithTerm(leader, |r.log| - 1, LastTerm(r.log));
      assert found.Some?;
      WalkBackCuts(leader, r, h, found.value);
      WalkBackSound(leader, r.log, h);
      BackfillFrom(leader, Exchange(leader, r), found.value + 1);
    }
  }

  lemma CutKeepsCursor(leader: Log, r: Replica)
    requires WellFormed(r.log) && CursorOk(r) && AnswerTo(leader, r.lastTerm, r.lastIndex).Truncate?
    requires var answer := AnswerTo(leader, r.lastTerm, r.lastIndex);
             HoldsPoint(r, answer.prevTerm, answer.prevIndex)
    ensures CursorOk(Exchange(leader, r))
  {
    var answer := AnswerTo(leader, r.lastTerm, r.lastIndex);
    hide AnswerTo;
    if answer.prevIndex + 1 < |r.log| {
      assert EntryAt(r.log, answer.prevIndex);
    }
  }

  /** Repair runs: from every state that satisfies the invariant, a repairable follower that
      knows a leader with entries reaches the leader's log by steps that meet all premises. An
      initialized leader is asked only what the follower has answered to its heartbeats. */
  lemma RepairIsRun(c: Cluster, members: set<NodeId>, a: NodeId, b: NodeId) returns (c': Cluster)
    requires Inv(c, members) && Pair(c, a, b) && c.nodes[a].replica.log != []
    requires Repairable(c.nodes[a].replica.log, c.nodes[b].replica.log)
    ensures Reaches(All, c, c') && Talks(c.nodes[a].role.initialized, c, c') && Pair(c', a, b)
    ensures c'.nodes[a].replica == c.nodes[a].replica && c'.nodes[b].replica.log == c.nodes[a].replica.log
  {
    hide Inv, Talks, Recognises;
    var leader, r, h := c.nodes[a].replica.log, c.nodes[b].replica, c.leaderLogs;
    MemberInv(c, members, a);
    MemberInv(c, members, b);
    NodeLogsSound(c, members, a, leader);
    NodeLogsSound(c, members, b, r.log);
    RepairConvergesIff(leader, r, h);
    hide Repairable, AnswerTo, Exchange, HoldsPoint, NodeInv, Supported;
    if AnswerTo(leader, r.lastTerm, r.lastIndex).Backfill? {
      c' := ExchangeStep(c, a, b);
    } else {
      RepairableTruncation(leader, r, h);
      CutKeepsCursor(leader, r);
      var mid := ExchangeStep(c, a, b);
      c' := ExchangeStep(mid, a, b);
      TalksThrough(c.nodes[a].role.initialized, c, mid, c');
    }
    TalksReach(c.nodes[a].role.initialized, c, c');
  }

  lemma JoinedRun(
    members: set<NodeId>, states: seq<Cluster>, steps: seq<Step>, more: seq<Cluster>, moreSteps: seq<Step>, c': Cluster)
    requires IsRun(members, states, steps) && Links(All, states[|steps|], more, moreSteps, c')
    ensures var states', steps' := states + more[1..], steps + moreSteps;
            IsRun(members, states', steps') && states <= states' && steps <= steps' && states'[|steps'|] == c'
  {
    hide Init, Follows, Leads;
    var states', steps' := states + more[1..], steps + moreSteps;
    forall i | 0 <= i < |steps'| ensures Follows(states'[i], steps'[i], states'[i + 1]) {
      if i < |steps| {
        assert Follows(states[i], steps[i], states[i + 1]);
      } else {
        var k := i - |steps|;
        assert Leads(All, more[k], moreSteps[k], more[k + 1]);
        LeadsFollows(more[k], moreSteps[k], more[k + 1]);
        assert states'[i] == more[k] && states'[i + 1] == more[k + 1];
      }
    }
  }

  lemma JoinedTalk(states: seq<Cluster>, steps: seq<Step>, more: seq<Cluster>, moreSteps: seq<Step>)
    requires |states| == |steps| + 1 && Driven(more, moreSteps) && more[0] == states[|steps|]
    ensures var states', steps' := states + more[1..], steps + moreSteps;
            forall i | |steps| <= i < |steps'| && steps'[i].BackfillRequest? ::
              i > |steps| && FromReply(states'[i - 1], steps'[i - 1], steps'[i])
  {
    hide FromReply;
    var states', steps' := states + more[1..], steps + moreSteps;
    forall i | |steps| <= i < |steps'| && steps'[i].BackfillRequest?
      ensures i > |steps| && FromReply(states'[i - 1], steps'[i - 1], steps'[i])
    {
      var k := i - |steps|;
      assert moreSteps[k].BackfillRequest?;
      assert states'[i - 1] == more[k - 1] && steps'[i - 1] == moreSteps[k - 1];
    }
  }

  /** Every run that ends with a leader and a repairable follower of it goes on to equal logs,
      and every question on the way to an initialized leader is the follower's answer to a
      message of that leader. */
  lemma RepairExtendsRun(members: set<NodeId>, states: seq<Cluster>, steps: seq<Step>, a: NodeId, b: NodeId)
    returns (states': seq<Cluster>, steps': seq<Step>)
    requires IsRun(members, states, steps) && |members| % 2 == 1
    requires var c := states[|steps|];
             && Pair(c, a, b) && c.nodes[a].replica.log != []
             && Repairable(c.nodes[a].replica.log, c.nodes[b].replica.log)
    ensures IsRun(members, states', steps') && states <= states' && steps <= steps'
    ensures var c, c' := states[|steps|], states'[|steps'|];
            && a in c'.nodes && b in c'.nodes
            && c'.nodes[b].replica.log == c'.nodes[a].replica.log == c.nodes[a].replica.log
    ensures states[|steps|].nodes[a].role.initialized ==>
              forall i | |steps| <= i < |steps'| && steps'[i].BackfillRequest? ::
                i > |steps| && FromReply(states'[i - 1], steps'[i - 1], steps'[i])
  {
    hide Init, Inv, Pair, Repairable, FromReply;
    var c := states[|steps|];
    RunInv(members, states, steps, |steps|);
    assert a in c.nodes && c.nodes[a].role.Leader? by { PairFacts(c, a, b); }
    var c' := RepairIsRun(c, members, a, b);
    PairFacts(c', a, b);
    var driven := c.nodes[a].role.initialized;
    var more: seq<Cluster>, moreSteps: seq<Step> :|
      Links(All, c, more, moreSteps, c') && (driven ==> Driven(more, moreSteps));
    states', steps' := states + more[1..], steps + moreSteps;
    JoinedRun(members, states, steps, more, moreSteps, c');
    if driven {
      JoinedTalk(states, steps, more, moreSteps);
    }
  }

  lemma PairFacts(c: Cluster, a: NodeId, b: NodeId)
    requires Pair(c, a, b)
    ensures a in c.nodes && b in c.nodes && c.nodes[a].role.Leader?
  {
  }

  lemma LeadsFollows(c: Cluster, s: Step, c': Cluster)
    requires Leads(All, c, s, c')
    ensures Follows(c, s, c')
  {
    hide Apply, Enabled, Disciplined;
  }
}
