/** Recovery of log and votes from disk, and the restart round trip. */
module Recovery {
  import opened Logs
  import opened Nodes
  import opened Persistence

  /** The byte format of an entry: `frame` measures the first message of some bytes, `decode`
      reads an entry from the bytes of one message. */
  datatype Codec = Codec(
    encode: Entry -> Bytes,
    frame: Bytes -> Option<nat>,
    decode: Bytes -> Option<Entry>)

  /** A framed message is not empty and lies within the bytes. */
  ghost predicate Framed(c: Codec) {
    forall b: Bytes | c.frame(b).Some? :: 0 < c.frame(b).value <= |b|
  }

  /** Entries can be told apart when written one after the other. */
  ghost predicate SelfDelimiting(c: Codec) {
    && Framed(c)
    && (forall e: Entry, rest: Bytes :: c.frame(c.encode(e) + rest) == Some(|c.encode(e)|))
    && (forall e: Entry :: c.decode(c.encode(e)) == Some(e))
  }

  /** The entries read from position `start`, with their end offsets. A framed message that
      is no entry is skipped; unframed bytes end the recovery. */
  ghost function Parse(c: Codec, bytes: Bytes, start: nat): (Log, seq<nat>)
    requires Framed(c) && start <= |bytes|
    decreases |bytes| - start
  {
    if start == |bytes| || c.frame(bytes[start..]).None? then ([], [])
    else
      var end := start + c.frame(bytes[start..]).value;
      var (log, offsets) := Parse(c, bytes, end);
      match c.decode(bytes[start..end])
      case None => (log, offsets)
      case Some(e) => ([e] + log, [end] + offsets)
  }

  ghost predicate Continues(whole: (Log, seq<nat>), log: Log, offsets: seq<nat>, rest: (Log, seq<nat>)) {
    whole.0 == log + rest.0 && whole.1 == offsets + rest.1
  }

  lemma OneMore(whole: (Log, seq<nat>), log: Log, offsets: seq<nat>, e: Entry, end: nat, rest: (Log, seq<nat>))
    requires Continues(whole, log, offsets, ([e] + rest.0, [end] + rest.1))
    ensures Continues(whole, log + [e], offsets + [end], rest)
  {
    assert log + ([e] + rest.0) == (log + [e]) + rest.0;
    assert offsets + ([end] + rest.1) == (offsets + [end]) + rest.1;
  }

  lemma FrameFits(c: Codec, bytes: Bytes)
    requires Framed(c) && c.frame(bytes).Some?
    ensures 0 < c.frame(bytes).value <= |bytes|
  {
  }

  lemma Delimits(c: Codec, e: Entry, rest: Bytes)
    requires SelfDelimiting(c)
    ensures Framed(c) && c.frame(c.encode(e) + rest) == Some(|c.encode(e)|) && c.decode(c.encode(e)) == Some(e)
  {
  }

  lemma ParseOne(c: Codec, bytes: Bytes, start: nat, end: nat)
    requires Framed(c) && start < |bytes| && start <= end && c.frame(bytes[start..]) == Some(end - start)
    ensures start < end <= |bytes|
    ensures Parse(c, bytes, start) ==
            match c.decode(bytes[start..end])
            case None => Parse(c, bytes, end)
            case Some(e) => ([e] + Parse(c, bytes, end).0, [end] + Parse(c, bytes, end).1)
  {
    hide Framed;
    FrameFits(c, bytes[start..]);
  }

  lemma NothingYet(whole: (Log, seq<nat>))
    ensures Continues(whole, [], [], whole)
  {
  }

  lemma ParseEnds(c: Codec, bytes: Bytes, end: nat, whole: (Log, seq<nat>), log: Log, offsets: seq<nat>)
    requires Framed(c) && end <= |bytes| && (end == |bytes| || c.frame(bytes[end..]).None?)
    requires Continues(whole, log, offsets, Parse(c, bytes, end))
    ensures whole == (log, offsets)
  {
    hide Framed;
    assert log + [] == log && offsets + [] == offsets;
  }

  /** Reads the log file message by message. */
  method ParseLog(c: Codec, bytes: Bytes) returns (log: Log, offsets: seq<nat>)
    requires Framed(c)
    ensures (log, offsets) == Parse(c, bytes, 0)
  {
    hide Framed, Parse, Continues;
    log, offsets := [], [];
    var offset := 0;
    NothingYet(Parse(c, bytes, 0));
    while offset < |bytes| && c.frame(bytes[offset..]).Some?
      invariant offset <= |bytes|
      invariant Continues(Parse(c, bytes, 0), log, offsets, Parse(c, bytes, offset))
      decreases |bytes| - offset
    {
      var end := offset + c.frame(bytes[offset..]).value;
      ParseOne(c, bytes, offset, end);
      var entry := c.decode(bytes[offset..end]);
      if entry.Some? {
        OneMore(Parse(c, bytes, 0), log, offsets, entry.value, end, Parse(c, bytes, end));
        log := log + [entry.value];
        offsets := offsets + [end];
      }
      offset := end;
    }
    ParseEnds(c, bytes, offset, Parse(c, bytes, 0), log, offsets);
  }

  /** Finds where each term starts. */
  method FindTermStarts(log: Log) returns (termStarts: map<nat, nat>)
    ensures termStarts == TermStarts(log)
  {
    termStarts := map[];
    var prevTerm := 0;
    for i := 0 to |log|
      invariant termStarts == TermStarts(log[..i]) && prevTerm == LastTerm(log[..i])
    {
      assert log[..i + 1][..i] == log[..i];
      if log[i].term != prevTerm {
        termStarts := termStarts[log[i].term := i];
        prevTerm := log[i].term;
      }
    }
    assert log[..|log|] == log;
  }

  function Encoded(c: Codec, log: Log): seq<Bytes> {
    seq(|log|, i requires 0 <= i < |log| => c.encode(log[i]))
  }

  lemma EncodedPrefix(c: Codec, log: Log, k: nat)
    requires k <= |log|
    ensures Encoded(c, log)[..k] == Encoded(c, log[..k])
    ensures k < |log| ==> Flatten(Encoded(c, log[..k + 1])) == Flatten(Encoded(c, log[..k])) + c.encode(log[k])
  {
    if k < |log| {
      var next := Encoded(c, log[..k + 1]);
      assert next[..k] == Encoded(c, log[..k]);
    }
  }

  /** Where the k-th entry lies in a file of whole entries. */
  lemma EntryInFile(c: Codec, log: Log, k: nat)
    requires k < |log|
    ensures var bytes := Flatten(Encoded(c, log));
            var start, end := |Flatten(Encoded(c, log[..k]))|, |Flatten(Encoded(c, log[..k + 1]))|;
            && start <= end <= |bytes| && end - start == |c.encode(log[k])|
            && bytes[start..end] == c.encode(log[k]) && bytes[start..] == c.encode(log[k]) + bytes[end..]
  {
    var bytes := Flatten(Encoded(c, log));
    EncodedPrefix(c, log, k);
    EncodedPrefix(c, log, k + 1);
    FlattenPrefix(Encoded(c, log), k + 1);
    var upTo := Flatten(Encoded(c, log[..k + 1]));
    assert bytes == upTo + bytes[|upTo|..];
  }

  lemma OffsetInFile(c: Codec, log: Log, k: nat)
    requires k <= |log|
    ensures |EndOffsets(Encoded(c, log))| == |log|
    ensures k < |log| ==> EndOffsets(Encoded(c, log))[k] == |Flatten(Encoded(c, log[..k + 1]))|
  {
    OffsetsPrefix(Encoded(c, log), k);
    if k < |log| {
      OffsetAt(Encoded(c, log), k + 1);
      EncodedPrefix(c, log, k + 1);
    }
  }

  /** Parsing a file of whole entries from the end of the k-th one finds exactly the rest. */
  lemma {:induction false} ParseRest(c: Codec, log: Log, k: nat)
    requires Framed(c) && SelfDelimiting(c) && k <= |log|
    ensures |Flatten(Encoded(c, log[..k]))| <= |Flatten(Encoded(c, log))| && |EndOffsets(Encoded(c, log))| == |log|
    ensures Parse(c, Flatten(Encoded(c, log)), |Flatten(Encoded(c, log[..k]))|) ==
              (log[k..], EndOffsets(Encoded(c, log))[k..])
    decreases |log| - k
  {
    hide Flatten, EndOffsets, Encoded, SelfDelimiting, Framed;
    OffsetInFile(c, log, k);
    if k == |log| {
      assert log[..k] == log && log[k..] == [] && EndOffsets(Encoded(c, log))[k..] == [];
    } else {
      ParseRest(c, log, k + 1);
      EntryInFile(c, log, k);
      var bytes, offsets := Flatten(Encoded(c, log)), EndOffsets(Encoded(c, log));
      var start, end := |Flatten(Encoded(c, log[..k]))|, offsets[k];
      Delimits(c, log[k], bytes[end..]);
      hide Parse;
      FrameFits(c, bytes[start..]);
      ParseOne(c, bytes, start, end);
      FirstOfRest(log, k);
      FirstOfRest(offsets, k);
    }
  }

  lemma FirstOfRest<T>(s: seq<T>, k: nat)
    requires k < |s|
    ensures s[k..] == [s[k]] + s[k + 1..]
  {
  }

  /** The entries of a list of messages, with their end offsets: messages that are no entry
      count for the offsets only. */
  ghost function ReadChunks(c: Codec, chunks: seq<Bytes>): (Log, seq<nat>) {
    if chunks == [] then ([], [])
    else
      var n := |chunks| - 1;
      var (log, offsets) := ReadChunks(c, chunks[..n]);
      match c.decode(chunks[n])
      case None => (log, offsets)
      case Some(e) => (log + [e], offsets + [|Flatten(chunks)|])
  }

  /** Each message is told apart from whatever follows it, and no message starts the tail. */
  ghost predicate Delimited(c: Codec, chunks: seq<Bytes>, tail: Bytes) {
    && (forall i, rest | 0 <= i < |chunks| :: c.frame(chunks[i] + rest) == Some(|chunks[i]|))
    && (tail == [] || c.frame(tail).None?)
  }

  lemma ChunkAt(chunks: seq<Bytes>, tail: Bytes, k: nat)
    requires k < |chunks|
    ensures var bytes, start, end := Flatten(chunks) + tail, |Flatten(chunks[..k])|, |Flatten(chunks[..k + 1])|;
            && start <= end <= |bytes| && end - start == |chunks[k]|
            && bytes[start..end] == chunks[k] && bytes[start..] == chunks[k] + bytes[end..]
  {
    FlattenPrefix(chunks, k + 1);
    assert chunks[..k + 1][..k] == chunks[..k];
    var upTo := Flatten(chunks[..k + 1]);
    assert Flatten(chunks) == upTo + Flatten(chunks)[|upTo|..];
  }

  lemma {:induction false} ParseUpTo(c: Codec, chunks: seq<Bytes>, tail: Bytes, k: nat)
    requires Framed(c) && Delimited(c, chunks, tail) && k <= |chunks|
    ensures |Flatten(chunks[..k])| <= |Flatten(chunks) + tail|
    ensures var bytes, read := Flatten(chunks) + tail, ReadChunks(c, chunks[..k]);
            Continues(Parse(c, bytes, 0), read.0, read.1, Parse(c, bytes, |Flatten(chunks[..k])|))
  {
    hide Parse, Framed, Continues, Flatten;
    var bytes := Flatten(chunks) + tail;
    if k == 0 {
      assert chunks[..0] == [] && Flatten([]) == [] by { NoBytes(); }
      NothingYet(Parse(c, bytes, 0));
    } else {
      var j := k - 1;
      ParseUpTo(c, chunks, tail, j);
      ChunkAt(chunks, tail, j);
      var start, end, read := |Flatten(chunks[..j])|, |Flatten(chunks[..k])|, ReadChunks(c, chunks[..j]);
      assert c.frame(chunks[j] + bytes[end..]) == Some(|chunks[j]|);
      NotEmpty(c, bytes[start..]);
      ParseOne(c, bytes, start, end);
      assert chunks[..k][..j] == chunks[..j];
      if c.decode(chunks[j]).Some? {
        OneMore(Parse(c, bytes, 0), read.0, read.1, c.decode(chunks[j]).value, end, Parse(c, bytes, end));
      }
    }
  }

  lemma NoBytes()
    ensures Flatten([]) == []
  {
  }

  lemma NotEmpty(c: Codec, bytes: Bytes)
    requires Framed(c) && c.frame(bytes).Some?
    ensures |bytes| > 0
  {
  }

  /** Any messages, followed by bytes that are none, are read to the entries among them, in
      order and with their own end offsets: what cannot be decoded is skipped, and nothing
      behind it is lost. */
  lemma ParseSkips(c: Codec, chunks: seq<Bytes>, tail: Bytes)
    requires Framed(c) && Delimited(c, chunks, tail)
    ensures Parse(c, Flatten(chunks) + tail, 0) == ReadChunks(c, chunks)
  {
    hide Flatten;
    var bytes, end, read := Flatten(chunks) + tail, |Flatten(chunks)|, ReadChunks(c, chunks);
    ParseUpTo(c, chunks, tail, |chunks|);
    assert chunks[..|chunks|] == chunks;
    assert bytes[end..] == tail;
    ParseEnds(c, bytes, end, Parse(c, bytes, 0), read.0, read.1);
  }

  datatype RecoveredData = RecoveredData(
    replica: Replica, votes: map<nat, NodeId>, nextTerm: nat, offsets: seq<nat>)

  /** The state a process starts from, given the contents of its two files. */
  method Recover(c: Codec, bytes: Bytes, rows: seq<VoteRow>) returns (data: RecoveredData)
    requires Framed(c)
    ensures data == RecoveredData(
                      RecoveredReplica(Parse(c, bytes, 0).0), VotesOf(rows),
                      Max(MaxVoteTerm(rows), LastTerm(Parse(c, bytes, 0).0)) + 1, Parse(c, bytes, 0).1)
    ensures LeastNewTerm(rows, LastTerm(data.replica.log), data.nextTerm)
  {
    hide Parse;
    NextTermIsNew(rows, LastTerm(Parse(c, bytes, 0).0));
    var log, offsets := ParseLog(c, bytes);
    var termStarts := FindTermStarts(log);
    var lastIndex := if log == [] then 0 else log[|log| - 1].index;
    var lastTerm := if log == [] then 0 else log[|log| - 1].term;
    data := RecoveredData(
      Replica(log, lastIndex, lastTerm, lastIndex + 1, termStarts), VotesOf(rows),
      Max(MaxVoteTerm(rows), lastTerm) + 1, offsets);
  }

  /** Parsing the file of a list of entries gives back the list and its offsets. */
  lemma ParseWhole(c: Codec, log: Log)
    requires SelfDelimiting(c)
    ensures Parse(c, Flatten(Encoded(c, log)), 0) == (log, EndOffsets(Encoded(c, log)))
  {
    assert log[..0] == [] && log[0..] == log;
    assert Encoded(c, []) == [];
    ParseRest(c, log, 0);
    assert EndOffsets(Encoded(c, log))[0..] == EndOffsets(Encoded(c, log));
  }

  /** The term is above every term voted in and that of the last entry, and the one before it
      is among them: it is the least such term. */
  predicate LeastNewTerm(rows: seq<VoteRow>, lastTerm: nat, t: nat) {
    && lastTerm < t && (forall row | row in rows :: row.term < t)
    && (t == lastTerm + 1 || exists row | row in rows :: t == row.term + 1)
  }

  lemma {:induction false} MaxVoteAttained(rows: seq<VoteRow>)
    ensures forall row | row in rows :: row.term <= MaxVoteTerm(rows)
    ensures rows != [] ==> exists row | row in rows :: row.term == MaxVoteTerm(rows)
    ensures rows == [] ==> MaxVoteTerm(rows) == 0
  {
    if rows != [] {
      var n := |rows| - 1;
      var before := rows[..n];
      MaxVoteAttained(before);
      forall row | row in rows ensures row.term <= MaxVoteTerm(rows) {
        assert row == rows[n] || row in before;
      }
      if rows[n].term == MaxVoteTerm(rows) {
        assert rows[n] in rows;
      } else {
        var row :| row in before && row.term == MaxVoteTerm(before);
        assert row in rows;
      }
    }
  }

  /** The recovered next term is the least one that is new to the node. */
  lemma NextTermIsNew(rows: seq<VoteRow>, lastTerm: nat)
    ensures LeastNewTerm(rows, lastTerm, Max(MaxVoteTerm(rows), lastTerm) + 1)
  {
    MaxVoteAttained(rows);
  }

  /** The recovered vote of a term is the last row for it, and a term without rows has none. */
  lemma {:induction false} LastVoteRecovered(rows: seq<VoteRow>, term: nat)
    ensures term in VotesOf(rows) <==> exists i | 0 <= i < |rows| :: rows[i].term == term
    ensures forall i | 0 <= i < |rows| && rows[i].term == term && (forall j | i < j < |rows| :: rows[j].term != term) ::
              VotesOf(rows)[term] == rows[i].candidate
  {
    if rows != [] {
      var n := |rows| - 1;
      LastVoteRecovered(rows[..n], term);
      assert forall i | 0 <= i < n :: rows[..n][i] == rows[i];
    }
  }

  /** A node's task as the persistence worker gets it, with the entry as bytes. */
  function AsWriteTask(c: Codec, task: Task): WriteTask {
    match task
    case AppendVote(id, row) => WriteVote(id, row)
    case AppendEntry(id, e) => WriteEntry(id, c.encode(e))
    case TruncateTo(length) => CutTo(length)
  }

  /** What a task does to the entries on disk, it does to their bytes, with the same report. */
  lemma FileFollowsDisk(c: Codec, log: Log, task: Task)
    ensures Plain(Encoded(c, log), AsWriteTask(c, task)) == Encoded(c, ApplyTask(log, task))
    ensures Reported(AsWriteTask(c, task)) == ResponseTo(task)
  {
    if task.TruncateTo? && task.length <= |log| {
      EncodedPrefix(c, log, task.length);
    }
  }
}
