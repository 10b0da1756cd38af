/** The query worker: its map is a replay of the published log, whatever the publisher and
    the clients do between any two of its steps. */
module Query {
  import opened Logs

  type Store = map<string, seq<int>>

  function Apply(store: Store, commands: seq<Command>): Store {
    if commands == [] then store
    else
      var n := |commands| - 1;
      Apply(store, commands[..n])[commands[n].key := commands[n].payload]
  }

  /** The map after applying the entries of a log in order. */
  function ReplayOf(log: Log): Store {
    if log == [] then map[] else Apply(ReplayOf(log[..|log| - 1]), log[|log| - 1].commands)
  }

  function Lookup(store: Store, key: string): Option<seq<int>> {
    if key in store then Some(store[key]) else None
  }

  /** `after` records the writes whose success had been reported when the request was made. */
  datatype Request = Request(key: string, index: nat, after: set<Entry>)

  /** An answer together with the number of log entries its value was read after. */
  datatype Answer = Answer(request: Request, value: Option<seq<int>>, entries: nat)

  // ---------------------------------------------------------------- what the actors share

  /** The commit state, the bus and the query queue. `sent` counts the entries of the log
      that have been put on the bus; `issued` records all requests ever queued, `succeeded`
      the entries whose writers have been told of success. */
  datatype Board = Board(
    commit: nat, version: nat, log: Log, sent: nat, pending: seq<Request>, issued: seq<Request>,
    succeeded: set<Entry>)

  /** A reported entry is in the log and committed. */
  predicate WriteOk(b: Board, e: Entry) {
    e.index < |b.log| && b.log[e.index] == e && e.index <= b.commit
  }

  /** A request has loaded a commit index that covers every write reported before it. */
  predicate RequestOk(b: Board, q: Request) {
    q.index <= b.commit && forall e | e in q.after :: e in b.succeeded && e.index <= q.index
  }

  /** Only committed entries are broadcast and reported. */
  predicate BoardOk(b: Board) {
    && WellFormed(b.log)
    && b.sent <= |b.log| && b.sent <= b.commit + 1
    && (forall e | e in b.succeeded :: WriteOk(b, e))
    && (forall q | q in b.issued :: RequestOk(b, q))
  }

  /** The commit index never falls, broadcast entries stay, requests only arrive. */
  predicate Rely(b: Board, b': Board) {
    && b.commit <= b'.commit && b.version <= b'.version
    && b.sent <= b'.sent <= |b'.log| && b.sent <= |b.log| && b'.log[..b.sent] == b.log[..b.sent]
    && |b.pending| <= |b'.pending| && b.pending == b'.pending[..|b.pending|]
    && b'.issued == b.issued + b'.pending[|b.pending|..]
  }

  lemma RelyReflexive(b: Board)
    requires b.sent <= |b.log|
    ensures Rely(b, b)
  {
  }

  lemma RelyMeans(b: Board, b': Board)
    requires Rely(b, b')
    ensures b.commit <= b'.commit && b.version <= b'.version && b.sent <= b'.sent
  {
  }

  lemma LongerPrefix<T>(a: seq<T>, b: seq<T>, c: seq<T>, m: nat, n: nat)
    requires m <= n && m <= |a| && n <= |b| && n <= |c| && b[..m] == a[..m] && c[..n] == b[..n]
    ensures c[..m] == a[..m]
  {
    assert c[..m] == c[..n][..m] && b[..m] == b[..n][..m];
  }

  lemma GrownBy<T>(b: seq<T>, c: seq<T>, m: nat)
    requires m <= |b| <= |c| && b == c[..|b|]
    ensures c[m..] == b[m..] + c[|b|..]
  {
  }

  lemma ArrivedSince<T>(p: seq<T>, q: seq<T>, r: seq<T>, issued: seq<T>, more: seq<T>, all: seq<T>)
    requires |p| <= |q| <= |r| && p == q[..|p|] && q == r[..|q|]
    requires more == issued + q[|p|..] && all == more + r[|q|..]
    ensures p == r[..|p|] && all == issued + r[|p|..]
  {
    GrownBy(q, r, |p|);
    var arrived, later := q[|p|..], r[|q|..];
    assert issued + arrived + later == issued + (arrived + later);
  }

  lemma RelyTransitive(a: Board, b: Board, c: Board)
    requires Rely(a, b) && Rely(b, c)
    ensures Rely(a, c)
  {
    LongerPrefix(a.log, b.log, c.log, a.sent, b.sent);
    ArrivedSince(a.pending, b.pending, c.pending, a.issued, b.issued, c.issued);
  }

  /** One step of the publisher or of a client. */
  datatype EnvironmentStep =
    | StoreCommit(index: nat)
    | BumpVersion
    | BroadcastNext
    | AppendEntry(entry: Entry)
    | Truncate(length: nat)
    | Succeed(index: nat)
    | Ask(key: string)

  /** A commit index is stored before the entries up to it are broadcast or reported to their
      writers, and never lowered; broadcast and reported entries are not truncated; a request
      carries the commit index it loaded. */
  predicate Permitted(b: Board, step: EnvironmentStep) {
    match step
    case StoreCommit(index) => index >= b.commit
    case BumpVersion => true
    case BroadcastNext => b.sent < |b.log| && b.sent <= b.commit
    case AppendEntry(e) => WellFormed(b.log + [e])
    case Truncate(length) => b.sent <= length <= |b.log| && forall e | e in b.succeeded :: e.index < length
    case Succeed(index) => index < |b.log| && index <= b.commit
    case Ask(_) => true
  }

  function Taken(b: Board, step: EnvironmentStep): Board
    requires Permitted(b, step)
  {
    match step
    case StoreCommit(index) => b.(commit := index)
    case BumpVersion => b.(version := b.version + 1)
    case BroadcastNext => b.(sent := b.sent + 1)
    case AppendEntry(e) => b.(log := b.log + [e])
    case Truncate(length) => b.(log := b.log[..length])
    case Succeed(index) => b.(succeeded := b.succeeded + {b.log[index]})
    case Ask(key) =>
      var q := Request(key, b.commit, b.succeeded);
      b.(pending := b.pending + [q], issued := b.issued + [q])
  }

  lemma EnvironmentKeeps(b: Board, step: EnvironmentStep)
    requires BoardOk(b) && Permitted(b, step)
    ensures BoardOk(Taken(b, step)) && Rely(b, Taken(b, step))
  {
    var b' := Taken(b, step);
    assert b.pending == b.pending[..|b.pending|];
    if step.Truncate? {
      forall i: nat | i < step.length ensures EntryAt(b'.log, i) {
        assert EntryAt(b.log, i);
      }
    }
    if step.Succeed? {
      assert EntryAt(b.log, step.index);
    }
    forall e | e in b'.succeeded ensures WriteOk(b', e) {
      assert e in b.succeeded ==> WriteOk(b, e);
    }
    forall q | q in b'.issued ensures RequestOk(b', q) {
      if q in b.issued {
        assert RequestOk(b, q);
      } else {
        assert forall e | e in b.succeeded :: WriteOk(b, e);
      }
    }
  }

  /** The board after a sequence of steps, if all of them are permitted. */
  function TakenAll(b: Board, steps: seq<EnvironmentStep>): Option<Board> {
    if steps == [] then Some(b)
    else
      var n := |steps| - 1;
      match TakenAll(b, steps[..n])
      case None => None
      case Some(d) => if Permitted(d, steps[n]) then Some(Taken(d, steps[n])) else None
  }

  lemma {:induction false} TakenAllKeeps(b: Board, steps: seq<EnvironmentStep>)
    requires BoardOk(b)
    ensures TakenAll(b, steps).Some? ==> BoardOk(TakenAll(b, steps).value)
  {
    hide BoardOk, Permitted, Taken;
    if steps != [] {
      var n := |steps| - 1;
      TakenAllKeeps(b, steps[..n]);
      if TakenAll(b, steps).Some? {
        EnvironmentKeeps(TakenAll(b, steps[..n]).value, steps[n]);
      }
    }
  }

  lemma TakeOneMore(b: Board, steps: seq<EnvironmentStep>, step: EnvironmentStep)
    ensures TakenAll(b, steps + [step]) ==
            match TakenAll(b, steps)
            case None => None
            case Some(d) => if Permitted(d, step) then Some(Taken(d, step)) else None
  {
    assert (steps + [step])[..|steps|] == steps;
  }

  /** The boards differ at most in the clients' requests. */
  predicate SamePublished(b: Board, d: Board) {
    && d.commit == b.commit && d.version == b.version && d.log == b.log && d.sent == b.sent
    && d.succeeded == b.succeeded
  }

  /** The steps of the publisher among those of the publisher and the clients. */
  function WithoutAsks(steps: seq<EnvironmentStep>): seq<EnvironmentStep> {
    if steps == [] then []
    else
      var n := |steps| - 1;
      WithoutAsks(steps[..n]) + if steps[n].Ask? then [] else [steps[n]]
  }

  /** What the publisher may do does not depend on the clients: steps that are permitted by
      themselves stay permitted when requests arrive at any times between them. */
  lemma {:induction false} RequestsInterleave(b: Board, steps: seq<EnvironmentStep>)
    requires TakenAll(b, WithoutAsks(steps)).Some?
    ensures TakenAll(b, steps).Some? && SamePublished(TakenAll(b, WithoutAsks(steps)).value, TakenAll(b, steps).value)
  {
    if steps != [] {
      var n := |steps| - 1;
      var before := WithoutAsks(steps[..n]);
      if !steps[n].Ask? {
        TakeOneMore(b, before, steps[n]);
      } else {
        assert before + [] == before;
      }
      RequestsInterleave(b, steps[..n]);
    }
  }

  class Shared {
    var board: Board

    /** The environment takes any finite number of permitted steps. */
    method Interfere()
      requires BoardOk(board)
      modifies this
      ensures BoardOk(board) && Rely(old(board), board)
    {
      var n: nat := *;
      RelyReflexive(board);
      while n > 0
        invariant BoardOk(board) && Rely(old(board), board)
      {
        var step: EnvironmentStep := *;
        if Permitted(board, step) {
          EnvironmentKeeps(board, step);
          RelyTransitive(old(board), board, Taken(board, step));
          board := Taken(board, step);
        }
        n := n - 1;
      }
    }
  }

  // ---------------------------------------------------------------- the worker

  /** The answer was read from the replay of a prefix of the broadcast log that includes the
      request's commit index. Only a request made at index 0 may precede every entry. */
  predicate AnswerOk(b: Board, a: Answer) {
    && a.entries <= b.sent <= |b.log|
    && a.value == Lookup(ReplayOf(b.log[..a.entries]), a.request.key)
    && (a.request.index < a.entries || (a.request.index == 0 && a.entries == 0))
  }

  predicate AnswersOk(b: Board, answers: seq<Answer>) {
    forall a | a in answers :: AnswerOk(b, a)
  }

  function Answered(answers: seq<Answer>): seq<Request> {
    if answers == [] then [] else Answered(answers[..|answers| - 1]) + [answers[|answers| - 1].request]
  }

  function AsSeq<T>(o: Option<T>): seq<T> {
    if o.Some? then [o.value] else []
  }

  lemma AnswersUnderRely(b: Board, b': Board, answers: seq<Answer>)
    requires AnswersOk(b, answers) && Rely(b, b')
    ensures AnswersOk(b', answers)
  {
    forall a | a in answers ensures AnswerOk(b', a) {
      assert AnswerOk(b, a);
      SameEntries(b, b', a.entries);
    }
  }

  /** What the broadcast entries and the requests are after other actors have run. */
  lemma SameEntries(b: Board, b': Board, n: nat)
    requires Rely(b, b') && n <= b.sent
    ensures b.sent <= |b.log| && b.sent <= |b'.log| && b'.log[..n] == b.log[..n]
  {
    assert b'.log[..n] == b'.log[..b.sent][..n] == b.log[..b.sent][..n] == b.log[..n];
  }

  lemma SameEntry(b: Board, b': Board, i: nat)
    requires Rely(b, b') && i < b.sent
    ensures b.sent <= |b.log| && b.sent <= |b'.log| && b'.log[i] == b.log[i]
  {
    assert b'.log[..b.sent][i] == b.log[..b.sent][i];
  }

  lemma RequestsArrive(b: Board, b': Board, front: seq<Request>)
    requires Rely(b, b') && b.issued == front + b.pending
    ensures b'.issued == front + b'.pending
  {
    var arrived := b'.pending[|b.pending|..];
    assert b'.pending == b.pending + arrived;
    assert front + b.pending + arrived == front + (b.pending + arrived);
  }

  lemma SameAnswers(b: Board, b': Board, answers: seq<Answer>)
    requires AnswersOk(b, answers) && b'.log == b.log && b'.sent == b.sent
    ensures AnswersOk(b', answers)
  {
    forall a | a in answers ensures AnswerOk(b', a) {
      assert AnswerOk(b, a);
    }
  }

  lemma SameBoard(b: Board, b': Board)
    requires BoardOk(b) && b' == b.(pending := b'.pending)
    ensures BoardOk(b')
  {
  }

  lemma PopFront<T>(all: seq<T>, front: seq<T>, pending: seq<T>)
    requires pending != [] && all == front + [] + pending
    ensures all == front + [pending[0]] + pending[1..]
  {
    assert pending == [pending[0]] + pending[1..];
  }

  lemma AnswerAdded(answers: seq<Answer>, a: Answer)
    ensures Answered(answers + [a]) == Answered(answers) + [a.request]
  {
    assert (answers + [a])[..|answers|] == answers;
  }

  lemma NextReplay(b: Board, n: nat)
    requires BoardOk(b) && n < b.sent
    ensures n < |b.log| && b.log[n].index == n
    ensures ReplayOf(b.log[..n + 1]) == Apply(ReplayOf(b.log[..n]), b.log[n].commands)
  {
    assert EntryAt(b.log, n);
    assert b.log[..n + 1][..n] == b.log[..n];
  }

  class QueryWorker {
    const shared: Shared
    var store: Store
    var lastVersion: nat
    var taken: nat
    var parked: Option<Entry>
    var parkedRequest: Option<Request>
    var appliedIndex: nat
    var answers: seq<Answer>

    constructor (shared: Shared)
      requires BoardOk(shared.board) && shared.board.issued == shared.board.pending
      ensures this.shared == shared && Valid() && answers == []
    {
      this.shared := shared;
      store, lastVersion, taken, parked, parkedRequest := map[], 0, 0, None, None;
      appliedIndex, answers := 0, [];
    }

    /** How many entries have been applied to the map. */
    function Applied(): int
      reads this`taken, this`parked
    {
      taken - |AsSeq(parked)|
    }

    /** The map is the replay of the first entries on the bus, and a parked entry is the very
        next one. */
    predicate MapOk()
      reads this`store, this`taken, this`parked, this`appliedIndex, shared
    {
      var b := shared.board;
      && BoardOk(b) && taken <= b.sent
      && 0 <= Applied() && appliedIndex == (if Applied() == 0 then 0 else Applied() - 1)
      && (parked.Some? ==> parked.value == b.log[taken - 1])
      && store == ReplayOf(b.log[..Applied()])
    }

    /** Every request is answered at most once and in order: answered, parked and queued
        requests make up all that were ever issued. */
    predicate RequestsOk()
      reads this`answers, this`parkedRequest, shared
    {
      var b := shared.board;
      AnswersOk(b, answers) && b.issued == Answered(answers) + AsSeq(parkedRequest) + b.pending
    }

    predicate Valid()
      reads this, shared
    {
      MapOk() && RequestsOk() && lastVersion <= shared.board.version
    }

    /** Other actors may run here. */
    method Yield()
      requires Valid()
      modifies shared
      ensures Valid() && Rely(old(shared.board), shared.board)
    {
      hide BoardOk, ReplayOf, AnswersOk, Answered, Rely;
      ghost var b := shared.board;
      shared.Interfere();
      RelyMeans(b, shared.board);
      SameEntries(b, shared.board, Applied());
      if parked.Some? {
        SameEntry(b, shared.board, taken - 1);
      }
      AnswersUnderRely(b, shared.board, answers);
      RequestsArrive(b, shared.board, Answered(answers) + AsSeq(parkedRequest));
    }

    method ApplyEntry(e: Entry)
      requires MapOk() && parked.None? && taken < shared.board.sent && e == shared.board.log[taken]
      modifies this`store, this`appliedIndex, this`taken
      ensures MapOk() && taken == old(taken) + 1 && appliedIndex == e.index
    {
      hide ReplayOf, BoardOk;
      NextReplay(shared.board, taken);
      store := Apply(store, e.commands);
      appliedIndex := e.index;
      taken := taken + 1;
    }

    method ParkEntry(e: Entry)
      requires MapOk() && parked.None? && taken < shared.board.sent && e == shared.board.log[taken]
      modifies this`taken, this`parked
      ensures MapOk() && parked == Some(e) && Applied() == old(Applied())
    {
      taken := taken + 1;
      parked := Some(e);
    }

    /** Takes the next entry from the bus, if there is one. */
    method TryReceive() returns (e: Option<Entry>)
      requires Valid() && parked.None?
      modifies shared
      ensures Valid() && Rely(old(shared.board), shared.board)
      ensures e.Some? ==> taken < shared.board.sent && e.value == shared.board.log[taken] && e.value.index == taken
      ensures e.None? ==> taken == shared.board.sent
      ensures old(shared.board.sent) <= shared.board.sent
    {
      Yield();
      if taken == shared.board.sent {
        return None;
      }
      assert EntryAt(shared.board.log, taken);
      e := Some(shared.board.log[taken]);
    }

    /** Receives one entry and applies it, or parks it if it is beyond the loaded index. */
    method ReceiveOne(index: nat) returns (more: bool)
      requires Valid() && parked.None?
      modifies this`store, this`appliedIndex, this`taken, this`parked, shared
      ensures Valid() && Rely(old(shared.board), shared.board) && old(shared.board.sent) <= shared.board.sent
      ensures more ==> parked.None? && taken == old(taken) + 1 && old(taken) <= index
      ensures !more ==> (parked.None? && taken == shared.board.sent) || (parked.Some? && parked.value.index > index)
      ensures !more ==> Applied() == shared.board.sent || Applied() > index
    {
      hide MapOk, RequestsOk, Rely;
      var e := TryReceive();
      if e.None? {
        return false;
      }
      more := e.value.index <= index;
      if more {
        ApplyEntry(e.value);
      } else {
        ParkEntry(e.value);
      }
    }

    /** Receives entries until one is parked or the bus is empty. */
    method Drain(index: nat)
      requires Valid() && parked.None?
      modifies this`store, this`appliedIndex, this`taken, this`parked, shared
      ensures Valid() && Rely(old(shared.board), shared.board)
      ensures parked.Some? ==> parked.value.index > index
      ensures Applied() >= old(shared.board.sent) || Applied() > index
    {
      RelyReflexive(shared.board);
      hide Valid, Rely;
      var more := true;
      while more
        invariant Valid() && Rely(old(shared.board), shared.board) && old(shared.board.sent) <= shared.board.sent
        invariant more ==> parked.None?
        invariant parked.Some? ==> parked.value.index > index
        invariant !more ==> Applied() == shared.board.sent || Applied() > index
        decreases more, index + 1 - taken
      {
        ghost var before := shared.board;
        more := ReceiveOne(index);
        RelyTransitive(old(shared.board), before, shared.board);
      }
    }

    /** Applies the parked entry if the loaded commit index covers it. */
    method TakeParked(index: nat)
      requires Valid()
      modifies this`store, this`appliedIndex, this`parked
      ensures Valid()
      ensures parked == if old(parked).Some? && old(parked).value.index > index then old(parked) else None
    {
      hide ReplayOf, BoardOk, RequestsOk;
      if parked.Some? && parked.value.index <= index {
        var e := parked.value;
        NextReplay(shared.board, taken - 1);
        store := Apply(store, e.commands);
        appliedIndex := e.index;
        parked := None;
      }
    }

    /** When the version has moved since it was last loaded, every entry that was on the bus
        is applied. */
    method ApplyCommitted()
      requires Valid()
      modifies this`store, this`appliedIndex, this`taken, this`parked, this`lastVersion, shared
      ensures Valid() && Rely(old(shared.board), shared.board)
      ensures old(shared.board.version > lastVersion) ==> Applied() >= old(shared.board.sent)
    {
      hide MapOk, RequestsOk, Rely, Valid;
      Yield();
      var version := shared.board.version;
      RelyMeans(old(shared.board), shared.board);
      ValidMeans();
      if version != lastVersion {
        ghost var loading := shared.board;
        Yield();
        RelyTransitive(old(shared.board), loading, shared.board);
        RelyMeans(loading, shared.board);
        RelyMeans(old(shared.board), shared.board);
        var index := shared.board.commit;
        LoadVersion(version);
        ValidMeans();
        ParkedIsDue();
        ghost var draining := shared.board;
        TakeParked(index);
        Drain(index);
        RelyTransitive(old(shared.board), draining, shared.board);
      }
    }

    method LoadVersion(version: nat)
      requires Valid() && version <= shared.board.version
      modifies this`lastVersion
      ensures Valid() && lastVersion == version
    {
      hide MapOk, RequestsOk;
      lastVersion := version;
    }

    lemma ValidMeans()
      requires Valid()
      ensures lastVersion <= shared.board.version && shared.board.sent <= shared.board.commit + 1
    {
      hide ReplayOf, RequestsOk;
    }

    /** A parked entry is due as soon as the commit index is loaded again: entries are
        broadcast only after the index that commits them is stored, and that index does not
        fall. So no parked entry is ever overwritten by the next one. */
    lemma ParkedIsDue()
      requires Valid()
      ensures parked.Some? ==> parked.value.index <= shared.board.commit
    {
      if parked.Some? {
        assert EntryAt(shared.board.log, taken - 1);
      }
    }

    method HandleQuery(query: Request)
      requires MapOk() && AnswersOk(shared.board, answers) && query.index <= appliedIndex
      modifies this`answers
      ensures AnswersOk(shared.board, answers)
      ensures answers == old(answers) + [Answer(query, Lookup(store, query.key), Applied())]
      ensures Answered(answers) == Answered(old(answers)) + [query]
    {
      AnswerAdded(answers, Answer(query, Lookup(store, query.key), Applied()));
      answers := answers + [Answer(query, Lookup(store, query.key), Applied())];
    }

    /** Answers the parked request if the map has caught up with it. */
    method ServeParked() returns (blocked: bool)
      requires Valid()
      modifies this`answers, this`parkedRequest
      ensures Valid() && blocked == parkedRequest.Some? && old(answers) <= answers
      ensures blocked ==> parkedRequest.value.index > appliedIndex
    {
      hide MapOk, AnswersOk, Answered, Lookup;
      if parkedRequest.None? {
        return false;
      }
      var query := parkedRequest.value;
      if query.index > appliedIndex {
        return true;
      }
      HandleQuery(query);
      parkedRequest := None;
      blocked := false;
    }

    method PopRequest() returns (query: Option<Request>)
      requires Valid() && parkedRequest.None?
      modifies shared
      ensures MapOk() && AnswersOk(shared.board, answers)
      ensures shared.board.issued == Answered(answers) + AsSeq(query) + shared.board.pending
      ensures query.None? ==> shared.board.pending == []
      ensures old(shared.board.version) <= shared.board.version
    {
      Yield();
      hide ReplayOf, AnswersOk, Answered, BoardOk, Rely;
      var b := shared.board;
      if b.pending == [] {
        return None;
      }
      SameBoard(b, b.(pending := b.pending[1..]));
      SameAnswers(b, b.(pending := b.pending[1..]), answers);
      PopFront(b.issued, Answered(answers), b.pending);
      query := Some(b.pending[0]);
      shared.board := b.(pending := b.pending[1..]);
    }

    /** Takes the oldest queued request and answers it, or parks it. */
    method ServeNext() returns (more: bool)
      requires Valid() && parkedRequest.None?
      modifies this`answers, this`parkedRequest, shared
      ensures Valid() && old(answers) <= answers && |answers| == |old(answers)| + if more then 1 else 0
      ensures more ==> parkedRequest.None?
      ensures !more ==> shared.board.pending == [] || parkedRequest.Some?
      ensures parkedRequest.Some? ==> parkedRequest.value.index > appliedIndex
    {
      hide MapOk, AnswersOk, Answered, Lookup;
      var query := PopRequest();
      if query.None? {
        return false;
      }
      if query.value.index <= appliedIndex {
        HandleQuery(query.value);
        more := true;
      } else {
        parkedRequest := query;
        more := false;
      }
    }

    /** One round of the worker's loop, serving at most `limit` queued requests. */
    method Iterate(limit: nat)
      requires Valid()
      modifies this, shared
      ensures Valid() && old(answers) <= answers
      ensures shared.board.pending == [] || |answers| >= |old(answers)| + limit
              || (parkedRequest.Some? && parkedRequest.value.index > appliedIndex)
    {
      ApplyCommitted();
      var blocked := ServeParked();
      if blocked {
        return;
      }
      var served := 0;
      while served < limit
        invariant Valid() && parkedRequest.None? && old(answers) <= answers
        invariant |answers| >= |old(answers)| + served
      {
        var more := ServeNext();
        if !more {
          return;
        }
        served := served + 1;
      }
    }

    /** Any number of rounds, with the environment running between any two steps: the map is
        the replay of the bus up to the last applied entry, a parked entry is the next one
        due, and every request is answered once, in order, from a prefix that covers it, with
        what the last entry of it that writes the key leaves there, or with nothing. Every
        answer reads all writes to its key that were reported before the request was made. */
    method Run(rounds: nat, limit: nat)
      requires Valid()
      modifies this, shared
      ensures Valid() && old(answers) <= answers
      ensures forall a | a in answers :: ReadsItsWrites(shared.board, a)
      ensures forall a | a in answers ::
                a.entries <= |shared.board.log| && Exact(shared.board.log, a.entries, a.request.key, a.value)
    {
      hide ReadsItsWrites, Valid, Exact;
      for k := 0 to rounds
        invariant Valid() && old(answers) <= answers
      {
        Iterate(limit);
      }
      AnswersRead();
    }

    lemma AnswersRead()
      requires Valid()
      ensures forall a | a in answers :: ReadsItsWrites(shared.board, a)
      ensures forall a | a in answers ::
                a.entries <= |shared.board.log| && Exact(shared.board.log, a.entries, a.request.key, a.value)
    {
      hide ReadsItsWrites, ReplayOf, AnswerOk, Answered, BoardOk, Exact;
      var rest := AsSeq(parkedRequest) + shared.board.pending;
      assert shared.board.issued == Answered(answers) + rest;
      AllReadTheirWrites(shared.board, answers, rest);
      forall a | a in answers
        ensures a.entries <= |shared.board.log| && Exact(shared.board.log, a.entries, a.request.key, a.value)
      {
        AnswerExact(shared.board, a);
      }
    }
  }

  // ---------------------------------------------------------------- read your writes

  /** The payload of the last command for a key, if any. */
  function LastFor(commands: seq<Command>, key: string): Option<seq<int>> {
    if commands == [] then None
    else
      var n := |commands| - 1;
      if commands[n].key == key then Some(commands[n].payload) else LastFor(commands[..n], key)
  }

  lemma {:induction false} ApplyLookup(store: Store, commands: seq<Command>, key: string)
    ensures Lookup(Apply(store, commands), key) ==
            if LastFor(commands, key).Some? then LastFor(commands, key) else Lookup(store, key)
  {
    if commands != [] {
      ApplyLookup(store, commands[..|commands| - 1], key);
    }
  }

  lemma ReplayStep(log: Log, key: string)
    requires log != []
    ensures var last := LastFor(log[|log| - 1].commands, key);
            Lookup(ReplayOf(log), key) == if last.Some? then last else Lookup(ReplayOf(log[..|log| - 1]), key)
  {
    hide Apply, LastFor, Lookup;
    ApplyLookup(ReplayOf(log[..|log| - 1]), log[|log| - 1].commands, key);
  }

  /** Entry j is the last of the first n entries that writes the key. */
  predicate LastWriter(log: Log, n: nat, key: string, j: nat)
    requires n <= |log|
  {
    && j < n && LastFor(log[j].commands, key).Some?
    && forall i | j < i < n :: LastFor(log[i].commands, key).None?
  }

  predicate Unwritten(log: Log, n: nat, key: string)
    requires n <= |log|
  {
    forall i | 0 <= i < n :: LastFor(log[i].commands, key).None?
  }

  /** The value is what the last of the first n entries that writes the key leaves there, and
      there is none exactly when no entry writes it. */
  predicate Exact(log: Log, n: nat, key: string, value: Option<seq<int>>)
    requires n <= |log|
  {
    && (value.None? <==> Unwritten(log, n, key))
    && (value.Some? ==> exists j | 0 <= j < n :: LastWriter(log, n, key, j) && value == LastFor(log[j].commands, key))
  }

  lemma ExactOn(log: Log, n: nat, key: string, value: Option<seq<int>>)
    requires n < |log| && LastFor(log[n].commands, key).None? && Exact(log, n, key, value)
    ensures Exact(log, n + 1, key, value)
  {
    hide LastFor;
    if value.Some? {
      var j: nat :| j < n && LastWriter(log, n, key, j) && value == LastFor(log[j].commands, key);
      assert LastWriter(log, n + 1, key, j);
    }
  }

  lemma ExactPrefix(log: Log, n: nat, key: string, value: Option<seq<int>>)
    requires n <= |log| && Exact(log[..n], n, key, value)
    ensures Exact(log, n, key, value)
  {
    hide LastFor;
    var seen := log[..n];
    if value.Some? {
      var j: nat :| j < n && LastWriter(seen, n, key, j) && value == LastFor(seen[j].commands, key);
      forall i | j < i < n ensures LastFor(log[i].commands, key).None? {
        assert LastFor(seen[i].commands, key).None?;
      }
      assert LastWriter(log, n, key, j);
      assert !Unwritten(log, n, key);
    } else {
      forall i | 0 <= i < n ensures LastFor(log[i].commands, key).None? {
        assert LastFor(seen[i].commands, key).None?;
      }
    }
  }

  /** The value of a key in a replay is that of the last entry that writes it; a key that no
      entry writes has none. */
  lemma {:induction false} ReplayLookup(log: Log, key: string)
    ensures Exact(log, |log|, key, Lookup(ReplayOf(log), key))
  {
    if log != [] {
      ReplayStep(log, key);
      hide ReplayOf, Apply, LastFor, Lookup;
      var n := |log| - 1;
      var value := Lookup(ReplayOf(log), key);
      if LastFor(log[n].commands, key).Some? {
        assert LastWriter(log, |log|, key, n);
      } else {
        ReplayLookup(log[..n], key);
        ExactPrefix(log, n, key, value);
        ExactOn(log, n, key, value);
      }
    }
  }

  /** Every answer is exact for the entries it was read after. */
  lemma AnswerExact(b: Board, a: Answer)
    requires AnswerOk(b, a)
    ensures a.entries <= |b.log| && Exact(b.log, a.entries, a.request.key, a.value)
  {
    hide ReplayOf, Lookup, Exact;
    var seen := b.log[..a.entries];
    ReplayLookup(seen, a.request.key);
    ExactPrefix(b.log, a.entries, a.request.key, a.value);
  }

  /** The value of the answer comes from an entry at or after e, the last one that writes the
      key among those the answer was read after. */
  predicate Sees(b: Board, a: Answer, e: Entry)
    requires a.entries <= |b.log|
  {
    exists j | e.index <= j < a.entries ::
      LastWriter(b.log, a.entries, a.request.key, j) && a.value == LastFor(b.log[j].commands, a.request.key)
  }

  /** Every write to the key that was reported before the request is seen by its answer. */
  predicate ReadsItsWrites(b: Board, a: Answer) {
    a.entries <= |b.log| &&
    forall e | e in a.request.after && LastFor(e.commands, a.request.key).Some? :: WriteOk(b, e) && Sees(b, a, e)
  }

  /** Read your writes: whatever was reported to its writer before a request was made, the
      answer is that write or a later one to the same key. Entry 0 is a no-op, so requests
      at index 0 miss nothing. */
  lemma ReadYourWrites(b: Board, a: Answer)
    requires BoardOk(b) && AnswerOk(b, a) && a.request in b.issued
    ensures ReadsItsWrites(b, a)
  {
    assert RequestOk(b, a.request);
    forall e | e in a.request.after && LastFor(e.commands, a.request.key).Some?
      ensures WriteOk(b, e) && Sees(b, a, e)
    {
      assert WriteOk(b, e);
      SeesCovered(b, a, e.index);
    }
  }

  lemma SeesCovered(b: Board, a: Answer, w: nat)
    requires BoardOk(b) && AnswerOk(b, a)
    requires w < |b.log| && w <= a.request.index && LastFor(b.log[w].commands, a.request.key).Some?
    ensures a.entries <= |b.log| && Sees(b, a, b.log[w])
  {
    assert b.log[w].index == w by { assert EntryAt(b.log, w); }
    AnswerExact(b, a);
    assert w < a.entries by { FirstIsNoop(b, a, w); }
    hide LastFor, AnswerOk, BoardOk;
    var key := a.request.key;
    assert !Unwritten(b.log, a.entries, key);
    var j: nat :| j < a.entries && LastWriter(b.log, a.entries, key, j) && a.value == LastFor(b.log[j].commands, key);
  }

  lemma FirstIsNoop(b: Board, a: Answer, w: nat)
    requires BoardOk(b) && AnswerOk(b, a)
    requires w < |b.log| && w <= a.request.index && LastFor(b.log[w].commands, a.request.key).Some?
    ensures w < a.entries
  {
    hide ReplayOf, Lookup;
    assert EntryAt(b.log, w);
  }

  lemma {:induction false} AnsweredRequests(answers: seq<Answer>, a: Answer)
    requires a in answers
    ensures a.request in Answered(answers)
  {
    var n := |answers| - 1;
    if a != answers[n] {
      assert a in answers[..n];
      AnsweredRequests(answers[..n], a);
    }
  }

  lemma AllReadTheirWrites(b: Board, answers: seq<Answer>, rest: seq<Request>)
    requires BoardOk(b) && AnswersOk(b, answers) && b.issued == Answered(answers) + rest
    ensures forall a | a in answers :: ReadsItsWrites(b, a)
  {
    hide BoardOk, ReadsItsWrites, AnswerOk, Answered;
    forall a | a in answers ensures ReadsItsWrites(b, a) {
      AnsweredRequests(answers, a);
      ReadYourWrites(b, a);
    }
  }
}
