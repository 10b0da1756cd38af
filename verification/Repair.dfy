/** Log repair: the leader's answer to a follower that names the end of its own log, and
    what the follower's log becomes. */
module Repair {
  import opened Logs
  import opened Nodes

  datatype Answer = Backfill(entries: seq<Entry>) | Truncate(prevTerm: nat, prevIndex: nat)

  /** The greatest position below `bound` whose entry has the given term. */
  function LastWithTerm(log: Log, bound: nat, term: nat): (r: Option<nat>)
    requires bound <= |log|
    ensures r.Some? ==> r.value < bound && log[r.value].term == term
    ensures r.Some? ==> forall j: nat | r.value < j < bound :: log[j].term != term
    ensures r.None? ==> forall j: nat | j < bound :: log[j].term != term
  {
    if bound == 0 then None
    else if log[bound - 1].term == term then Some(bound - 1)
    else LastWithTerm(log, bound - 1, term)
  }

  function OnTermMismatch(log: Log, lastTerm: nat, lastIndex: nat): Answer
    requires lastIndex <= |log|
  {
    match LastWithTerm(log, lastIndex, lastTerm)
    case Some(j) => Truncate(lastTerm, j)
    case None => Truncate(0, 0)
  }

  function AnswerTo(log: Log, lastTerm: nat, lastIndex: nat): Answer {
    if lastIndex >= |log| then
      Truncate(LastTerm(log), if log == [] then 0 else |log| - 1)
    else if log[lastIndex].term != lastTerm && lastTerm != 0 then
      OnTermMismatch(log, lastTerm, lastIndex)
    else
      Backfill(log[if lastTerm == 0 then 0 else lastIndex + 1..])
  }

  /** The leader's handling of a backfill request, as messages for the peer's worker. */
  function OnBackfillRequest(n: Node, lastTerm: nat, lastIndex: nat): Node {
    match AnswerTo(n.replica.log, lastTerm, lastIndex)
    case Backfill(entries) => n.(sent := n.sent + set e | e in entries :: EntryMessage(n, e))
    case Truncate(prevTerm, prevIndex) =>
      n.(nextId := n.nextId + 1, sent := n.sent + {TruncateLog(n.currentTerm, n.id, prevTerm, prevIndex)})
  }

  /** The leader's backward walk from the mismatch, one entry at a time. */
  method FindTruncationPoint(log: Log, lastTerm: nat, lastIndex: nat) returns (answer: Answer)
    requires lastIndex <= |log|
    ensures answer == OnTermMismatch(log, lastTerm, lastIndex)
  {
    var truncateTo := lastIndex;
    while truncateTo > 0
      invariant 0 <= truncateTo <= lastIndex
      invariant LastWithTerm(log, lastIndex, lastTerm) == LastWithTerm(log, truncateTo, lastTerm)
    {
      truncateTo := truncateTo - 1;
      if log[truncateTo].term == lastTerm {
        return Truncate(lastTerm, truncateTo);
      }
    }
    answer := Truncate(0, 0);
  }

  /** Walk-back soundness: the point found lies strictly below the end of the follower's log,
      and up to it both logs are the same, so only agreed entries are kept. */
  lemma WalkBackSound(leader: Log, follower: Log, h: History)
    requires Sound(leader, h) && Sound(follower, h) && follower != []
    requires |follower| <= |leader|
    ensures match LastWithTerm(leader, |follower| - 1, LastTerm(follower))
            case Some(j) => j + 1 < |follower| && follower[..j + 1] == leader[..j + 1]
            case None => true
  {
    var last := |follower| - 1;
    match LastWithTerm(leader, last, LastTerm(follower))
    case None =>
    case Some(j) =>
      assert AgreesAt(follower, last, h) && AgreesAt(leader, j, h);
      var origin := h[LastTerm(follower)];
      assert follower[..j + 1] == follower[..last + 1][..j + 1] == origin[..last + 1][..j + 1] == origin[..j + 1];
  }

  // ---------------------------------------------------------------- the follower's side

  /** A follower stores each entry that continues its log and skips the others. */
  function Receive(r: Replica, entries: seq<Entry>): Replica
    decreases |entries|
  {
    if entries == [] then r
    else
      var e := entries[0];
      Receive(if Consecutive(r, e.prevIndex, e.prevTerm) then Push(r, e) else r, entries[1..])
  }

  /** Every entry continues the log it meets. */
  predicate AcceptsAll(r: Replica, entries: seq<Entry>)
    decreases |entries|
  {
    entries == [] ||
    (Consecutive(r, entries[0].prevIndex, entries[0].prevTerm) && AcceptsAll(Push(r, entries[0]), entries[1..]))
  }

  /** The suffix of a leader's log continues any replica whose cursor is the end of the
      leader's prefix, whatever the replica holds. */
  lemma {:induction false} SuffixAccepted(r: Replica, leader: Log, i: nat)
    requires WellFormed(leader) && i <= |leader|
    requires r.lastIndex == LastIndex(leader[..i]) && r.lastTerm == LastTerm(leader[..i])
    ensures AcceptsAll(r, leader[i..])
    ensures Receive(r, leader[i..]).log == r.log + leader[i..]
    ensures Receive(r, leader[i..]).lastIndex == LastIndex(leader)
    ensures Receive(r, leader[i..]).lastTerm == LastTerm(leader)
    decreases |leader| - i
  {
    if i == |leader| {
      assert leader[..i] == leader && leader[i..] == [];
    } else {
      var e, rest := leader[i], leader[i + 1..];
      NextEntry(leader, i);
      hide WellFormed, LastIndex, LastTerm;
      assert leader[i..] == [e] + rest;
      SuffixAccepted(Push(r, e), leader, i + 1);
      assert ([e] + rest)[1..] == rest;
      assert r.log + ([e] + rest) == (r.log + [e]) + rest;
    }
  }

  lemma NextEntry(log: Log, i: nat)
    requires WellFormed(log) && i < |log|
    ensures log[i].prevIndex == LastIndex(log[..i]) && log[i].prevTerm == LastTerm(log[..i])
    ensures LastIndex(log[..i + 1]) == log[i].index && LastTerm(log[..i + 1]) == log[i].term
  {
    assert EntryAt(log, i);
    if i > 0 {
      assert EntryAt(log, i - 1);
    }
  }

  /** One question and one answer. */
  function Exchange(leader: Log, r: Replica): Replica {
    match AnswerTo(leader, r.lastTerm, r.lastIndex)
    case Backfill(entries) => Receive(r, entries)
    case Truncate(prevTerm, prevIndex) => Cut(r, prevTerm, prevIndex)
  }

  /** At most one truncation, then one backfill. */
  function Repaired(leader: Log, r: Replica): Replica {
    if AnswerTo(leader, r.lastTerm, r.lastIndex).Backfill? then Exchange(leader, r)
    else Exchange(leader, Exchange(leader, r))
  }

  /** The last term of the follower's log occurs in the leader's log no later than in its
      own; for a follower that is ahead, its entry at the leader's last index has the
      leader's last term. */
  predicate Repairable(leader: Log, follower: Log)
    requires leader != []
  {
    if follower == [] then true
    else if |follower| <= |leader| then
      exists j | 0 <= j < |follower| :: leader[j].term == LastTerm(follower)
    else
      follower[|leader| - 1].term == LastTerm(leader)
  }

  lemma SameTermSamePrefix(a: Log, b: Log, i: nat, h: History)
    requires Supported(a, h) && Supported(b, h) && i < |a| && i < |b| && a[i].term == b[i].term
    ensures a[..i + 1] == b[..i + 1]
  {
    assert AgreesAt(a, i, h) && AgreesAt(b, i, h);
  }

  /** A cursor inside the leader's log is answered with the rest of that log. */
  lemma BackfillFrom(leader: Log, r: Replica, i: nat)
    requires WellFormed(leader) && 0 < i <= |leader|
    requires r.lastIndex == i - 1 && r.lastTerm == leader[i - 1].term
    ensures AnswerTo(leader, r.lastTerm, r.lastIndex) == Backfill(leader[i..])
    ensures AcceptsAll(r, leader[i..]) && Exchange(leader, r).log == r.log + leader[i..]
  {
    assert EntryAt(leader, i - 1);
    assert LastIndex(leader[..i]) == i - 1 && LastTerm(leader[..i]) == leader[i - 1].term;
    SuffixAccepted(r, leader, i);
  }

  lemma BackfillAll(leader: Log, r: Replica)
    requires WellFormed(leader) && leader != [] && r.lastIndex == 0 && r.lastTerm == 0
    ensures AnswerTo(leader, 0, 0) == Backfill(leader)
    ensures AcceptsAll(r, leader) && Exchange(leader, r).log == r.log + leader
  {
    assert leader[0..] == leader;
    SuffixAccepted(r, leader, 0);
  }

  lemma RepairAhead(leader: Log, r: Replica, h: History)
    requires Sound(leader, h) && Sound(r.log, h) && CursorOk(r) && leader != [] && |r.log| > |leader|
    ensures Repaired(leader, r).log == r.log[..|leader|]
    ensures Repaired(leader, r).log == leader <==> Repairable(leader, r.log)
  {
    var n := |leader|;
    CursorOfWellFormed(r.log);
    var cut := Cut(r, LastTerm(leader), n - 1);
    BackfillFrom(leader, cut, n);
    assert leader[n..] == [] && leader[..n] == leader;
    assert cut.log + [] == cut.log;
    if r.log[n - 1].term == LastTerm(leader) {
      SameTermSamePrefix(r.log, leader, n - 1, h);
    }
  }

  lemma RepairInside(leader: Log, r: Replica, h: History)
    requires Sound(leader, h) && Sound(r.log, h) && CursorOk(r) && r.log != [] && |r.log| <= |leader|
    requires leader[|r.log| - 1].term == LastTerm(r.log)
    ensures Repaired(leader, r).log == leader
  {
    var n := |r.log|;
    CursorOfWellFormed(r.log);
    BackfillFrom(leader, r, n);
    SameTermSamePrefix(r.log, leader, n - 1, h);
    assert r.log == r.log[..n] == leader[..n];
    assert leader[..n] + leader[n..] == leader;
  }

  lemma WalkBackCuts(leader: Log, r: Replica, h: History, j: nat)
    requires Sound(leader, h) && Sound(r.log, h) && CursorOk(r) && r.log != [] && |r.log| <= |leader|
    requires leader[|r.log| - 1].term != LastTerm(r.log)
    requires LastWithTerm(leader, |r.log| - 1, LastTerm(r.log)) == Some(j)
    ensures WellFormed(leader) && AnswerTo(leader, r.lastTerm, r.lastIndex).Truncate?
    ensures var cut := Exchange(leader, r);
            && j < |leader| && cut.log == leader[..j + 1] && cut.lastIndex == j && cut.lastTerm == leader[j].term
  {
    hide LastWithTerm, Sound, WellFormed, CursorOk, Exchange;
    WalkBackFacts(leader, r, h);
    WalkBackSound(leader, r.log, h);
    MismatchAnswer(leader, r, j);
    CutExchange(leader, r, LastTerm(r.log), j);
  }

  lemma WalkBackFacts(leader: Log, r: Replica, h: History)
    requires Sound(leader, h) && Sound(r.log, h) && CursorOk(r) && r.log != []
    ensures WellFormed(leader) && r.lastIndex == |r.log| - 1 && r.lastTerm == LastTerm(r.log) > 0
  {
    CursorOfWellFormed(r.log);
  }

  lemma MismatchAnswer(leader: Log, r: Replica, j: nat)
    requires r.log != [] && |r.log| <= |leader| && r.lastIndex == |r.log| - 1 && r.lastTerm == LastTerm(r.log) > 0
    requires leader[|r.log| - 1].term != LastTerm(r.log)
    requires LastWithTerm(leader, |r.log| - 1, LastTerm(r.log)) == Some(j)
    ensures AnswerTo(leader, r.lastTerm, r.lastIndex) == Truncate(LastTerm(r.log), j)
  {
    hide LastWithTerm;
  }

  lemma CutExchange(leader: Log, r: Replica, term: nat, j: nat)
    requires AnswerTo(leader, r.lastTerm, r.lastIndex) == Truncate(term, j) && j + 1 < |r.log|
    ensures var cut := Exchange(leader, r);
            cut.log == r.log[..j + 1] && cut.lastIndex == j && cut.lastTerm == term
  {
    hide AnswerTo;
  }

  lemma RepairByWalkBack(leader: Log, r: Replica, h: History)
    requires Sound(leader, h) && Sound(r.log, h) && CursorOk(r) && r.log != [] && |r.log| <= |leader|
    requires leader[|r.log| - 1].term != LastTerm(r.log)
    requires LastWithTerm(leader, |r.log| - 1, LastTerm(r.log)).Some?
    ensures Repaired(leader, r).log == leader
  {
    hide Sound, WellFormed, LastWithTerm, AnswerTo, Exchange, CursorOk, AcceptsAll;
    var j := LastWithTerm(leader, |r.log| - 1, LastTerm(r.log)).value;
    WalkBackCuts(leader, r, h, j);
    BackfillFrom(leader, Exchange(leader, r), j + 1);
    assert leader[..j + 1] + leader[j + 1..] == leader;
  }

  lemma RepairImpossible(leader: Log, r: Replica, h: History)
    requires Sound(leader, h) && Sound(r.log, h) && CursorOk(r) && r.log != [] && |r.log| <= |leader|
    requires leader[|r.log| - 1].term != LastTerm(r.log)
    requires LastWithTerm(leader, |r.log| - 1, LastTerm(r.log)).None?
    ensures Repaired(leader, r).log != leader
  {
    CursorOfWellFormed(r.log);
    var cut := Cut(r, 0, 0);
    if |r.log| >= 2 {
      BackfillAll(leader, cut);
    }
  }

  /** Repair converges exactly for repairable followers: at most one truncation and one
      backfill make the follower's log the leader's. */
  lemma RepairConvergesIff(leader: Log, r: Replica, h: History)
    requires Sound(leader, h) && Sound(r.log, h) && CursorOk(r) && leader != []
    ensures Repaired(leader, r).log == leader <==> Repairable(leader, r.log)
  {
    CursorOfWellFormed(r.log);
    if r.log == [] {
      BackfillAll(leader, r);
    } else if |r.log| > |leader| {
      RepairAhead(leader, r, h);
    } else if leader[|r.log| - 1].term == LastTerm(r.log) {
      RepairInside(leader, r, h);
    } else if LastWithTerm(leader, |r.log| - 1, LastTerm(r.log)).Some? {
      RepairByWalkBack(leader, r, h);
    } else {
      RepairImpossible(leader, r, h);
    }
  }

  // ---------------------------------------------------------------- the follower's handler

  /** The peer has heard of the leader's term from this leader, or of no term as high. */
  predicate Recognises(peer: Node, elected: Node) {
    peer.role.Follower? &&
    (peer.currentTerm < elected.currentTerm || (peer.currentTerm == elected.currentTerm && peer.leaderId == elected.id))
  }

  /** A follower that knows the leader stores a backfilled entry exactly when it continues the
      log, whatever commit index the message carries. */
  lemma EntryHeard(n: Node, leader: Node, e: Entry, commit: nat)
    requires Recognises(n, leader) && e.messageId != 0
    ensures EntryMessage(leader, e).AppendEntries?
    ensures var n' := OnAppend(n, EntryMessage(leader, e).(commit := commit)).0;
            && Recognises(n', leader) && n'.id == n.id
            && n'.replica == if Consecutive(n.replica, e.prevIndex, e.prevTerm) then Push(n.replica, e) else n.replica
  {
  }

  /** The follower after the backfill's messages, in order. */
  function Fed(n: Node, leader: Node, entries: seq<Entry>): Node
    decreases |entries|
  {
    if entries == [] then n
    else Fed(OnAppend(n, EntryMessage(leader, entries[0])).0, leader, entries[1..])
  }

  /** What the follower's handler makes of a backfill is what `Receive` says. */
  lemma {:induction false} FedReceives(n: Node, leader: Node, entries: seq<Entry>)
    requires Recognises(n, leader) && forall e | e in entries :: e.messageId != 0
    ensures Recognises(Fed(n, leader, entries), leader)
    ensures Fed(n, leader, entries).replica == Receive(n.replica, entries)
    decreases |entries|
  {
    if entries != [] {
      EntryHeard(n, leader, entries[0], leader.commitIndex);
      hide OnAppend, Recognises, Push;
      FedReceives(OnAppend(n, EntryMessage(leader, entries[0])).0, leader, entries[1..]);
    }
  }
}
