/** Counting the votes of one election: the order in which the own vote reaches the disk and
    the others answer does not matter. */
module ElectionCount {
  import opened Logs
  import opened Nodes

  /** What a candidate hears about its election. */
  datatype ElectionEvent = OwnVoteOnDisk | Answer(granted: bool)

  function Heard(n: Node, id: nat, term: nat, event: ElectionEvent): Node {
    match event
    case OwnVoteOnDisk => OnVotePersisted(n, id, VoteRow(term, n.id)).0
    case Answer(granted) => OnVoteReply(n, id, term, granted).0
  }

  function HeardAll(n: Node, id: nat, term: nat, events: seq<ElectionEvent>): Node {
    if events == [] then n
    else Heard(HeardAll(n, id, term, events[..|events| - 1]), id, term, events[|events| - 1])
  }

  function Grants(events: seq<ElectionEvent>): nat {
    multiset(events)[Answer(true)]
  }

  /** The disk reports the own vote at most once, and each peer answers at most once. */
  predicate OneEach(events: seq<ElectionEvent>, peers: nat) {
    multiset(events)[OwnVoteOnDisk] <= 1 && |events| <= peers + multiset(events)[OwnVoteOnDisk]
  }

  predicate Won(events: seq<ElectionEvent>, quorum: nat) {
    OwnVoteOnDisk in events && 1 + Grants(events) >= quorum
  }

  /** Exactly when the election is won, and what is left of it otherwise. A lost election is
      forgotten exactly when the last of all answers comes from a peer. */
  predicate Counted(n0: Node, n: Node, events: seq<ElectionEvent>) {
    var id, term := n0.nextId, n0.nextTerm;
    if Won(events, n0.quorum) then
      && n.role == Leader(false) && n.leaderId == n0.id && n.currentTerm == term && id !in n.outstanding
    else
      && n.role.Candidate? && n.leaderId == n0.leaderId && n.currentTerm == n0.currentTerm
      && (id in n.outstanding <==> |events| <= n0.peers || events[|events| - 1].OwnVoteOnDisk?)
      && (id in n.outstanding ==>
            n.outstanding[id] ==
            CandidateElection(n0.peers + 1 - |events|, OwnVoteOnDisk in events, 1 + Grants(events)))
  }

  lemma EventsSplit(events: seq<ElectionEvent>, peers: nat)
    requires events != [] && OneEach(events, peers)
    ensures var before, last := events[..|events| - 1], events[|events| - 1];
            && OneEach(before, peers) && |before| <= peers && (last.OwnVoteOnDisk? ==> OwnVoteOnDisk !in before)
            && (OwnVoteOnDisk in events <==> OwnVoteOnDisk in before || last.OwnVoteOnDisk?)
            && Grants(events) == Grants(before) + if last == Answer(true) then 1 else 0
  {
    var before, last := events[..|events| - 1], events[|events| - 1];
    assert events == before + [last];
    assert OwnVoteOnDisk in before ==> multiset(before)[OwnVoteOnDisk] >= 1;
  }

  /** After any interleaving the candidate leads, in the term it asked for, exactly when its
      own vote is on disk and it has, with that vote, a quorum. Otherwise it has counted all
      that it has heard, and goes on counting until everyone has answered. */
  lemma {:induction false} CountingIgnoresOrder(n: Node, events: seq<ElectionEvent>)
    requires n.role.Candidate? && OneEach(events, n.peers)
    ensures Counted(n, HeardAll(StartElection(n), n.nextId, n.nextTerm, events), events)
    ensures var after := HeardAll(StartElection(n), n.nextId, n.nextTerm, events);
            after.id == n.id && after.quorum == n.quorum && after.peers == n.peers && after.replica == n.replica
  {
    if events != [] {
      EventsSplit(events, n.peers);
      hide Grants, OneEach;
      CountingIgnoresOrder(n, events[..|events| - 1]);
    }
  }
}
