/** The write proxy's queue of client batches, with a shelf for one batch that did not fit. */
module WriteQueue {
  import opened Logs

  datatype WriteBatch = WriteBatch(batchId: string, requests: seq<Command>)

  /** The payload bytes of a batch; keys are not counted. */
  function Size(requests: seq<Command>): nat {
    if requests == [] then 0 else Size(requests[..|requests| - 1]) + |requests[|requests| - 1].payload|
  }

  function TotalSize(batches: seq<WriteBatch>): nat {
    if batches == [] then 0 else TotalSize(batches[..|batches| - 1]) + Size(batches[|batches| - 1].requests)
  }

  function Concat<T>(parts: seq<seq<T>>): seq<T> {
    if parts == [] then [] else Concat(parts[..|parts| - 1]) + parts[|parts| - 1]
  }

  /** A call's result respects the limit, or is one batch that alone exceeds it. */
  predicate Fits(taken: seq<WriteBatch>, limit: nat) {
    TotalSize(taken) <= limit || |taken| == 1
  }

  /** The size of a batch is that of its payloads, however it is taken apart. */
  lemma {:induction false} SizeAdds(requests: seq<Command>, more: seq<Command>)
    ensures Size(requests + more) == Size(requests) + Size(more)
    ensures |more| == 1 ==> Size(more) == |more[0].payload|
    decreases |more|
  {
    if more == [] {
      assert requests + more == requests;
    } else {
      var n := |more| - 1;
      SizeAdds(requests, more[..n]);
      assert (requests + more)[..|requests| + n] == requests + more[..n];
      if n == 0 {
        assert more[..0] == [];
      }
    }
  }

  lemma TotalOfOne(b: WriteBatch)
    ensures TotalSize([b]) == Size(b.requests)
  {
    assert [b][..0] == [];
  }

  lemma TotalPush(taken: seq<WriteBatch>, b: WriteBatch)
    ensures TotalSize(taken + [b]) == TotalSize(taken) + Size(b.requests)
  {
    assert (taken + [b])[..|taken|] == taken;
  }

  lemma ConcatPush<T>(parts: seq<seq<T>>, part: seq<T>)
    ensures Concat(parts + [part]) == Concat(parts) + part
  {
    assert (parts + [part])[..|parts|] == parts;
  }

  lemma Regroup<T>(a: seq<T>, b: seq<T>, c: seq<T>)
    ensures a + (b + c) == a + b + c
  {
  }

  /** What one more call does to the results of a drain. */
  lemma Drained(results: seq<seq<WriteBatch>>, taken: seq<WriteBatch>, before: seq<WriteBatch>, after: seq<WriteBatch>,
                all: seq<WriteBatch>, limit: nat)
    requires Concat(results) + before == all && taken + after == before && Fits(taken, limit)
    requires forall i | 0 <= i < |results| :: Fits(results[i], limit)
    ensures Concat(results + [taken]) + after == all
    ensures forall i | 0 <= i < |results + [taken]| :: Fits((results + [taken])[i], limit)
  {
    hide Concat, Fits;
    ConcatPush(results, taken);
    Regroup(Concat(results), taken, after);
  }

  /** For each call, how many of the pushes made during it came before its last pop. */
  predicate UsedOf(arrivals: seq<seq<seq<WriteBatch>>>, used: seq<nat>) {
    |used| == |arrivals| && forall i | 0 <= i < |used| :: used[i] <= |arrivals[i]|
  }

  /** All batches pushed before and during the calls of a session, in order. */
  function Pushed(pushes: seq<seq<WriteBatch>>, arrivals: seq<seq<seq<WriteBatch>>>, used: seq<nat>): seq<WriteBatch>
    requires |arrivals| == |pushes| && UsedOf(arrivals, used)
  {
    if pushes == [] then []
    else
      var n := |pushes| - 1;
      Pushed(pushes[..n], arrivals[..n], used[..n]) + (pushes[n] + Concat(arrivals[n][..used[n]]))
  }

  lemma PushedMore(pushes: seq<seq<WriteBatch>>, arrivals: seq<seq<seq<WriteBatch>>>, used: seq<nat>, i: nat, k: nat)
    requires |arrivals| == |pushes| && i < |pushes| && UsedOf(arrivals[..i], used) && k <= |arrivals[i]|
    ensures UsedOf(arrivals[..i + 1], used + [k])
    ensures Pushed(pushes[..i + 1], arrivals[..i + 1], used + [k])
         == Pushed(pushes[..i], arrivals[..i], used) + (pushes[i] + Concat(arrivals[i][..k]))
  {
    hide Concat;
    assert arrivals[..i + 1][..i] == arrivals[..i] && pushes[..i + 1][..i] == pushes[..i];
    assert (used + [k])[..i] == used;
    assert UsedOf(arrivals[..i + 1], used + [k]);
  }

  lemma Arrive<T>(taken: seq<T>, queue: seq<T>, before: seq<T>, arrived: seq<T>, more: seq<T>)
    requires taken + queue == before + arrived
    ensures taken + (queue + more) == before + (arrived + more)
  {
    Regroup(taken, queue, more);
    Regroup(before, arrived, more);
  }

  class Queue {
    var queue: seq<WriteBatch>
    var shelf: Option<WriteBatch>

    constructor ()
      ensures Backlog() == []
    {
      queue, shelf := [], None;
    }

    /** Everything waiting, oldest first. */
    function Backlog(): seq<WriteBatch>
      reads this
    {
      if shelf.Some? then [shelf.value] + queue else queue
    }

    method Push(batches: seq<WriteBatch>)
      modifies this`queue
      ensures Backlog() == old(Backlog()) + batches
    {
      Receive(batches);
    }

    method Receive(batches: seq<WriteBatch>)
      modifies this`queue
      ensures queue == old(queue) + batches
    {
      queue := queue + batches;
    }

    method Pop() returns (next: WriteBatch)
      requires queue != []
      modifies this`queue
      ensures old(queue) == [next] + queue
    {
      next := queue[0];
      queue := queue[1..];
    }

    /** The shelved batch is the first one of the next call. */
    method TakeShelf() returns (taken: seq<WriteBatch>, size: nat)
      modifies this`shelf
      ensures shelf.None? && taken + queue == old(Backlog()) && size == TotalSize(taken)
      ensures |taken| == if old(shelf.Some?) then 1 else 0
    {
      taken, size := [], 0;
      if shelf.Some? {
        TotalOfOne(shelf.value);
        size := Size(shelf.value.requests);
        taken := [shelf.value];
        shelf := None;
      }
    }

    /** Clients push while the call runs: `arrivals[i]` reaches the queue just before the
        call's pop number i. Every batch is taken, shelved or left in the queue, in order. */
    method NextWriteBatch(limit: nat, arrivals: seq<seq<WriteBatch>>)
      returns (taken: seq<WriteBatch>, more: bool, used: nat)
      modifies this
      ensures used <= |arrivals|
      ensures taken + Backlog() == old(Backlog()) + Concat(arrivals[..used])
      ensures Fits(taken, limit)
      ensures shelf.Some? ==> TotalSize(taken) + Size(shelf.value.requests) > limit
      ensures more <==> shelf.Some? || TotalSize(taken) >= limit
      ensures !more ==> Backlog() == []
      ensures old(shelf.Some?) ==> taken != []
      ensures old(shelf.None?) && limit == 0 ==> taken == [] && shelf.None?
    {
      used := 0;
      var size;
      taken, size := TakeShelf();
      assert Concat(arrivals[..0]) == [] && old(Backlog()) + [] == old(Backlog());
      hide Concat, TotalSize, Size;
      while size < limit
        invariant used <= |arrivals| && size == TotalSize(taken) && Fits(taken, limit) && shelf.None?
        invariant taken + queue == old(Backlog()) + Concat(arrivals[..used])
        invariant old(shelf.Some?) ==> taken != []
        invariant old(shelf.None?) && limit == 0 ==> taken == []
        decreases |arrivals| - used, |queue|
      {
        if used < |arrivals| {
          ConcatPush(arrivals[..used], arrivals[used]);
          assert arrivals[..used] + [arrivals[used]] == arrivals[..used + 1];
          Arrive(taken, queue, old(Backlog()), Concat(arrivals[..used]), arrivals[used]);
          Receive(arrivals[used]);
          used := used + 1;
        }
        if queue == [] {
          return taken, false, used;
        }
        var next := Pop();
        Regroup(taken, [next], queue);
        if size + Size(next.requests) > limit {
          shelf := Some(next);
          return taken, true, used;
        }
        TotalPush(taken, next);
        taken := taken + [next];
        size := size + Size(next.requests);
      }
      more := true;
    }

    /** A call during which nothing arrives. */
    method Poll(limit: nat) returns (taken: seq<WriteBatch>, more: bool)
      modifies this
      ensures taken + Backlog() == old(Backlog()) && Fits(taken, limit)
      ensures !more ==> Backlog() == []
      ensures taken == [] && more ==> shelf.Some? || limit == 0
      ensures old(shelf.Some?) ==> taken != []
      ensures old(shelf.None?) && limit == 0 ==> taken == [] && shelf.None?
    {
      var used;
      taken, more, used := NextWriteBatch(limit, []);
      assert old(Backlog()) + [] == old(Backlog());
    }

    /** While nothing arrives, a nonempty backlog yields a batch within two calls, unless
        the limit is 0 and the shelf is empty: then it never does. */
    method TwoCalls(limit: nat) returns (first: seq<WriteBatch>, second: seq<WriteBatch>)
      requires Backlog() != []
      modifies this
      ensures first + second + Backlog() == old(Backlog())
      ensures first + second != [] <==> limit > 0 || old(shelf.Some?)
    {
      var more;
      first, more := Poll(limit);
      second, more := Poll(limit);
      Regroup(first, second, Backlog());
    }

    /** A whole session: before call i the clients push `pushes[i]`, during it the first
        `used[i]` of `arrivals[i]`. What the calls return, then the shelf, then the queue
        are exactly what was pushed, in order. */
    method Session(limit: nat, pushes: seq<seq<WriteBatch>>, arrivals: seq<seq<seq<WriteBatch>>>)
      returns (results: seq<seq<WriteBatch>>, used: seq<nat>)
      requires |arrivals| == |pushes|
      modifies this
      ensures |results| == |pushes| && UsedOf(arrivals, used)
      ensures Concat(results) + Backlog() == old(Backlog()) + Pushed(pushes, arrivals, used)
      ensures forall i | 0 <= i < |results| :: Fits(results[i], limit)
    {
      results, used := [], [];
      assert old(Backlog()) + [] == old(Backlog());
      hide Concat, TotalSize, Size, Fits;
      assert arrivals[..0] == [] && pushes[..0] == [];
      for i := 0 to |pushes|
        invariant |results| == i && UsedOf(arrivals[..i], used)
        invariant Concat(results) + Backlog() == old(Backlog()) + Pushed(pushes[..i], arrivals[..i], used)
        invariant forall j | 0 <= j < i :: Fits(results[j], limit)
      {
        ghost var before, got, pushed := Backlog(), Concat(results), Pushed(pushes[..i], arrivals[..i], used);
        Push(pushes[i]);
        var taken, more, k := NextWriteBatch(limit, arrivals[i]);
        ghost var arrived := Concat(arrivals[i][..k]);
        PushedMore(pushes, arrivals, used, i, k);
        used := used + [k];
        ConcatPush(results, taken);
        results := results + [taken];
        Regroup(got, taken, Backlog());
        Regroup(before, pushes[i], arrived);
        Regroup(got, before, pushes[i] + arrived);
        Regroup(old(Backlog()), pushed, pushes[i] + arrived);
      }
      assert arrivals[..|pushes|] == arrivals && pushes[..|pushes|] == pushes;
    }

    /** Calling until there is no more empties the queue, for any positive limit. */
    method DrainAll(limit: nat) returns (results: seq<seq<WriteBatch>>)
      requires limit > 0
      modifies this
      ensures Backlog() == [] && Concat(results) == old(Backlog())
      ensures forall i | 0 <= i < |results| :: Fits(results[i], limit)
    {
      results := [];
      var more := true;
      assert [] + old(Backlog()) == old(Backlog());
      hide Concat, TotalSize, Size, Fits, Backlog;
      while more
        invariant Concat(results) + Backlog() == old(Backlog())
        invariant !more ==> Backlog() == []
        invariant forall i | 0 <= i < |results| :: Fits(results[i], limit)
        decreases more, |Backlog()|, if shelf.None? then 1 else 0
      {
        ghost var before := Backlog();
        var taken;
        taken, more := Poll(limit);
        Drained(results, taken, before, Backlog(), old(Backlog()), limit);
        results := results + [taken];
        assert |before| == |taken| + |Backlog()|;
      }
    }
  }
}
