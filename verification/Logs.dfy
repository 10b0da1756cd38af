/** Log entries, well-formed logs, and the history of leader logs that Log Matching rests on. */
module Logs {

  type NodeId = nat

  datatype Option<+T> = None | Some(value: T)

  datatype Command = Command(key: string, payload: seq<int>)

  /** An entry of the replication log. An entry without commands is a leader's no-op. */
  datatype Entry = Entry(
    index: nat, term: nat, prevIndex: nat, prevTerm: nat,
    messageId: nat, timestamp: nat, commands: seq<Command>)

  type Log = seq<Entry>

  /** The cursor of a log: index and term of its last entry, and (0, 0) for the empty log. */
  function LastIndex(log: Log): nat {
    if log == [] then 0 else log[|log| - 1].index
  }

  function LastTerm(log: Log): nat {
    if log == [] then 0 else log[|log| - 1].term
  }

  /** Position i holds entry i, chained to its predecessor. Terms and message ids start
      at 1, and the very first entry of a log is a leader's no-op. */
  predicate EntryAt(log: Log, i: nat)
    requires i < |log|
  {
    var e := log[i];
    && e.index == i
    && e.term >= 1
    && e.messageId >= 1
    && e.prevIndex == (if i == 0 then 0 else i - 1)
    && e.prevTerm == (if i == 0 then 0 else log[i - 1].term)
    && (i == 0 ==> e.commands == [])
  }

  predicate WellFormed(log: Log) {
    forall i: nat | i < |log| :: EntryAt(log, i)
  }

  /** The longest log that the leader of each term has had. */
  type History = map<nat, Log>

  /** Up to and including position i, the log is that of the leader who created entry i. */
  predicate AgreesAt(log: Log, i: nat, h: History)
    requires i < |log|
  {
    var t := log[i].term;
    t in h && i < |h[t]| && log[..i + 1] == h[t][..i + 1]
  }

  predicate Supported(log: Log, h: History) {
    forall i: nat | i < |log| :: AgreesAt(log, i, h)
  }

  predicate Sound(log: Log, h: History) {
    WellFormed(log) && Supported(log, h)
  }

  /** From the first entry of term t on, all entries have term t. */
  predicate OwnTermLast(log: Log, t: nat) {
    forall i: nat, j: nat | i < j < |log| && log[i].term == t :: log[j].term == t
  }

  /** A leader inherits a log without its own term and then appends only entries of it. */
  predicate HistoryOk(h: History) {
    forall t | t in h :: Sound(h[t], h) && OwnTermLast(h[t], t)
  }

  /** The entry was created by the leader of its term and is still in that leader's log. */
  predicate InHistory(e: Entry, h: History) {
    e.term in h && e.index < |h[e.term]| && h[e.term][e.index] == e
  }

  predicate Grows(h: History, h': History) {
    forall t | t in h :: t in h' && h[t] <= h'[t]
  }

  /** Section 5.3 of the Raft paper: one shared (index, term) means one shared prefix. */
  ghost predicate LogMatching(a: Log, b: Log) {
    forall i: nat, j: nat | i < |a| && j < |b| && a[i].index == b[j].index && a[i].term == b[j].term ::
      i == j && a[..i + 1] == b[..i + 1]
  }

  lemma CursorOfWellFormed(log: Log)
    requires WellFormed(log)
    ensures LastIndex(log) == if log == [] then 0 else |log| - 1
    ensures log == [] <==> LastTerm(log) == 0
  {
    if log != [] {
      assert EntryAt(log, |log| - 1);
    }
  }

  lemma MatchingFromHistory(a: Log, b: Log, h: History)
    requires Sound(a, h) && Sound(b, h)
    ensures LogMatching(a, b)
  {
    forall i: nat, j: nat | i < |a| && j < |b| && a[i].index == b[j].index && a[i].term == b[j].term
      ensures i == j && a[..i + 1] == b[..i + 1]
    {
      assert EntryAt(a, i) && EntryAt(b, j);
      assert AgreesAt(a, i, h) && AgreesAt(b, j, h);
    }
  }

  lemma PrefixSound(log: Log, k: nat, h: History)
    requires Sound(log, h) && k <= |log|
    ensures Sound(log[..k], h)
  {
    forall i: nat | i < k ensures EntryAt(log[..k], i) && AgreesAt(log[..k], i, h) {
      assert EntryAt(log, i) && AgreesAt(log, i, h);
      assert log[..k][..i + 1] == log[..i + 1];
    }
  }

  lemma SoundUnderGrowth(log: Log, h: History, h': History)
    requires Sound(log, h) && Grows(h, h')
    ensures Sound(log, h')
  {
    forall i: nat | i < |log| ensures AgreesAt(log, i, h') {
      assert AgreesAt(log, i, h);
    }
  }

  /** The induction step of Log Matching: an entry whose previous index and term equal the
      cursor of a log extends that log as its creator's log was extended. */
  lemma ConsecutiveEntry(log: Log, e: Entry, h: History)
    requires Sound(log, h) && HistoryOk(h) && InHistory(e, h)
    requires e.prevIndex == LastIndex(log) && e.prevTerm == LastTerm(log)
    ensures e.index == |log| && Sound(log + [e], h)
    ensures log + [e] == h[e.term][..|log| + 1]
  {
    var origin := h[e.term];
    var i := e.index;
    assert EntryAt(origin, i);
    CursorOfWellFormed(log);
    if i > 0 {
      assert EntryAt(origin, i - 1);
      assert AgreesAt(origin, i - 1, h);
      assert AgreesAt(log, |log| - 1, h);
      assert log == log[..|log|];
    }
    assert log == origin[..i];
    assert log + [e] == origin[..i + 1];
    PrefixSound(origin, i + 1, h);
  }

  /** An entry built from the cursor of a log continues it. */
  lemma ChainedEntry(log: Log, e: Entry)
    requires WellFormed(log)
    requires e.index == |log| && e.term >= 1 && e.messageId >= 1
    requires e.prevIndex == LastIndex(log) && e.prevTerm == LastTerm(log)
    requires log == [] ==> e.commands == []
    ensures WellFormed(log + [e])
  {
    CursorOfWellFormed(log);
    forall i: nat | i < |log + [e]| ensures EntryAt(log + [e], i) {
      if i < |log| {
        assert EntryAt(log, i);
      }
    }
  }

  /** A leader that appends to its own log extends the history of its term with it. */
  lemma LeaderExtends(log: Log, e: Entry, h: History, h': History)
    requires HistoryOk(h) && Sound(log, h) && WellFormed(log + [e])
    requires e.term in h && h[e.term] == log
    requires h' == h[e.term := log + [e]]
    ensures Grows(h, h') && HistoryOk(h') && Sound(log + [e], h')
  {
    assert Grows(h, h');
    forall t | t in h' ensures Sound(h'[t], h') && OwnTermLast(h'[t], t) {
      if t != e.term {
        SoundUnderGrowth(h[t], h, h');
      } else {
        LastEntrySupported(log, e, h, h');
      }
    }
  }

  lemma LastEntrySupported(log: Log, e: Entry, h: History, h': History)
    requires Sound(log, h) && WellFormed(log + [e])
    requires Grows(h, h') && e.term in h' && h'[e.term] == log + [e]
    ensures Supported(log + [e], h')
  {
    var longer := log + [e];
    SoundUnderGrowth(log, h, h');
    forall i: nat | i < |longer| ensures AgreesAt(longer, i, h') {
      if i < |log| {
        assert AgreesAt(log, i, h');
        assert longer[..i + 1] == log[..i + 1];
      }
    }
  }

  /** A new term's history starts as the winner's log. */
  lemma NewTerm(log: Log, t: nat, h: History, h': History)
    requires HistoryOk(h) && Sound(log, h) && t !in h
    requires h' == h[t := log]
    ensures Grows(h, h') && HistoryOk(h') && Sound(log, h')
  {
    assert Grows(h, h');
    SoundUnderGrowth(log, h, h');
    forall u | u in h' ensures Sound(h'[u], h') && OwnTermLast(h'[u], u) {
      if u != t {
        SoundUnderGrowth(h[u], h, h');
      } else {
        forall i: nat | i < |log| ensures log[i].term != t {
          assert AgreesAt(log, i, h);
        }
      }
    }
  }
}
