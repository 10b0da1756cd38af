/** Where the terms of a log start. In a log supported by the leaders' histories each term is
    one block, so dropping the starts beyond a truncation is right. */
module TermBlocks {
  import opened Logs
  import opened Nodes

  predicate StartsAt(log: Log, i: nat)
    requires i < |log|
  {
    log[i].term != LastTerm(log[..i])
  }

  predicate TermOccurs(log: Log, t: nat) {
    exists i: nat | i < |log| :: log[i].term == t
  }

  /** Position j starts the last stretch of term t. */
  predicate LatestStart(log: Log, t: nat, j: nat) {
    && j < |log| && StartsAt(log, j) && log[j].term == t
    && forall i: nat | j < i < |log| && log[i].term == t :: !StartsAt(log, i)
  }

  /** The map has exactly the terms of the log, each with the start of its last stretch. */
  lemma {:induction false} TermStartsMeaning(log: Log, t: nat)
    requires WellFormed(log)
    ensures t in TermStarts(log) <==> TermOccurs(log, t)
    ensures t in TermStarts(log) ==> LatestStart(log, t, TermStarts(log)[t])
  {
    if log != [] {
      var n := |log| - 1;
      var before := log[..n];
      assert WellFormed(before) by {
        forall i: nat | i < n ensures EntryAt(before, i) {
          assert EntryAt(log, i);
        }
      }
      assert log[n].term >= 1 by {
        assert EntryAt(log, n);
      }
      TermStartsMeaning(before, t);
      hide WellFormed;
      if TermOccurs(before, t) {
        var i: nat :| i < n && before[i].term == t;
        assert log[i].term == t;
      }
      if TermOccurs(log, t) && log[n].term != t {
        var i: nat :| i < |log| && log[i].term == t;
        assert before[i].term == t;
      }
      if t in TermStarts(before) && (log[n].term != t || !StartsAt(log, n)) {
        LatestStartKept(log, t, TermStarts(before)[t]);
      }
      if log[n].term == t && !StartsAt(log, n) {
        assert before[n - 1].term == t;
      }
    }
  }

  lemma LatestStartKept(log: Log, t: nat, j: nat)
    requires log != [] && LatestStart(log[..|log| - 1], t, j)
    requires log[|log| - 1].term != t || !StartsAt(log, |log| - 1)
    ensures LatestStart(log, t, j)
  {
    var n := |log| - 1;
    forall i: nat | i < n ensures StartsAt(log[..n], i) <==> StartsAt(log, i) {
      PrefixStarts(log, n, i);
    }
  }

  /** No term from before position k starts a new stretch at or after k. */
  predicate NoTermResumes(log: Log, k: nat)
    requires k <= |log|
  {
    forall i: nat, j: nat | i < k <= j < |log| && StartsAt(log, j) :: log[j].term != log[i].term
  }

  lemma PrefixStarts(log: Log, k: nat, i: nat)
    requires i < k <= |log|
    ensures StartsAt(log[..k], i) <==> StartsAt(log, i)
  {
    assert log[..k][..i] == log[..i];
  }

  /** Dropping the starts beyond a truncation restores the term map of the shorter log
      exactly when no earlier term resumes beyond it. */
  lemma TruncationKeepsStartsIff(r: Replica, prevTerm: nat, prevIndex: nat)
    requires WellFormed(r.log) && r.termStarts == TermStarts(r.log) && prevIndex + 1 < |r.log|
    ensures var k := prevIndex + 1;
            Cut(r, prevTerm, prevIndex).termStarts == TermStarts(r.log[..k]) <==> NoTermResumes(r.log, k)
  {
    var k := prevIndex + 1;
    var cut := Cut(r, prevTerm, prevIndex).termStarts;
    assert WellFormed(r.log[..k]) by {
      forall i: nat | i < k ensures EntryAt(r.log[..k], i) {
        assert EntryAt(r.log, i);
      }
    }
    if NoTermResumes(r.log, k) {
      forall t ensures t in cut <==> t in TermStarts(r.log[..k]) {
        RetainedIfNoneResumes(r.log, k, t);
      }
      forall t | t in cut ensures cut[t] == TermStarts(r.log[..k])[t] {
        RetainedIfNoneResumes(r.log, k, t);
      }
      assert cut == TermStarts(r.log[..k]);
    } else {
      var i: nat, j: nat :| i < k <= j < |r.log| && StartsAt(r.log, j) && r.log[j].term == r.log[i].term;
      var t := r.log[i].term;
      TermStartsMeaning(r.log, t);
      TermStartsMeaning(r.log[..k], t);
      assert r.log[..k][i].term == t;
      assert t !in cut;
    }
  }

  lemma RetainedIfNoneResumes(log: Log, k: nat, t: nat)
    requires k <= |log| && WellFormed(log) && WellFormed(log[..k]) && NoTermResumes(log, k)
    ensures t in TermStarts(log) && TermStarts(log)[t] < k <==> t in TermStarts(log[..k])
    ensures t in TermStarts(log) && t in TermStarts(log[..k]) ==> TermStarts(log)[t] == TermStarts(log[..k])[t]
  {
    TermStartsMeaning(log, t);
    TermStartsMeaning(log[..k], t);
    if t in TermStarts(log) {
      var j := TermStarts(log)[t];
      if j < k {
        assert log[..k][j].term == t;
        PrefixStarts(log, k, j);
      }
    }
    if t in TermStarts(log[..k]) {
      var j := TermStarts(log[..k])[t];
      assert log[j].term == t;
      PrefixStarts(log, k, j);
      var last := TermStarts(log)[t];
      if last < k {
        PrefixStarts(log, k, last);
      }
    }
  }

  /** Logs with nondecreasing terms always qualify. */
  lemma NondecreasingNeverResumes(log: Log, k: nat)
    requires k <= |log| && forall i: nat, j: nat | i < j < |log| :: log[i].term <= log[j].term
    ensures NoTermResumes(log, k)
  {
    forall i: nat, j: nat | i < k <= j < |log| && StartsAt(log, j) ensures log[j].term != log[i].term {
      assert log[..j][j - 1] == log[j - 1];
      assert i == j - 1 || log[i].term <= log[j - 1].term;
    }
  }

  /** Appending keeps the term map up to date. */
  lemma PushKeepsStarts(r: Replica, e: Entry)
    requires r.termStarts == TermStarts(r.log) && e.prevTerm == LastTerm(r.log)
    ensures Push(r, e).termStarts == TermStarts(Push(r, e).log)
  {
    assert (r.log + [e])[..|r.log|] == r.log;
  }

  /** In a supported log, the entries of one term are consecutive. */
  lemma OneBlock(log: Log, h: History, i: nat, j: nat, k: nat)
    requires HistoryOk(h) && Supported(log, h) && i <= j <= k < |log| && log[i].term == log[k].term
    ensures log[j].term == log[k].term
  {
    assert AgreesAt(log, k, h);
    var origin := h[log[k].term];
    assert log[i] == log[..k + 1][i] == origin[i] && log[j] == log[..k + 1][j] == origin[j];
  }

  lemma SupportedNeverResumes(log: Log, h: History, k: nat)
    requires HistoryOk(h) && Supported(log, h) && k <= |log|
    ensures NoTermResumes(log, k)
  {
    forall i: nat, j: nat | i < k <= j < |log| && StartsAt(log, j) ensures log[j].term != log[i].term {
      assert log[..j][j - 1] == log[j - 1];
      if log[j].term == log[i].term {
        OneBlock(log, h, i, j - 1, j);
      }
    }
  }

  /** A truncation of a supported log leaves the term map of the shorter log. */
  lemma CutKeepsStarts(r: Replica, prevTerm: nat, prevIndex: nat, h: History)
    requires HistoryOk(h) && Sound(r.log, h) && r.termStarts == TermStarts(r.log)
    ensures var cut := Cut(r, prevTerm, prevIndex);
            cut.termStarts == TermStarts(cut.log)
  {
    if prevIndex + 1 < |r.log| {
      SupportedNeverResumes(r.log, h, prevIndex + 1);
      TruncationKeepsStartsIff(r, prevTerm, prevIndex);
    }
  }
}
