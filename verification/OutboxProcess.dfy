/**
 One relay process under any faults, also those that take effect unseen and cause republication.
 What the process commits looks, to a latest-wins reader, as if each row had been published once and
 in order (`PublishesOnceInOrder`), and what such a reader has seen of it never goes back
 (`NeverGoesBack`).

 Both are about the log between polls: inside a republished block a reader sees the block's rows
 again.
 */
module OutboxProcess {
  import opened Prelude
  import opened Outbox
  import opened OutboxQueue
  import opened OutboxRuns

  /** The elements of `s` without their repetitions, by first occurrence. */
  function Firsts<T(==)>(s: seq<T>): seq<T> {
    if s == [] then []
    else
      var rest, last := Firsts(s[..|s| - 1]), s[|s| - 1];
      if last in s[..|s| - 1] then rest else rest + [last]
  }

  lemma {:induction false} FirstsMembers<T>(s: seq<T>, x: T)
    ensures x in Firsts(s) <==> x in s
  {
    if s != [] {
      FirstsMembers(s[..|s| - 1], x);
      assert s == s[..|s| - 1] + [s[|s| - 1]];
    }
  }

  lemma FirstsAppend<T>(s: seq<T>, x: T)
    ensures Firsts(s + [x]) == if x in s then Firsts(s) else Firsts(s) + [x]
  {
    assert (s + [x])[..|s|] == s;
  }

  /** More output keeps the first occurrences so far. */
  lemma {:induction false} FirstsGrow<T>(a: seq<T>, b: seq<T>)
    ensures Firsts(a) <= Firsts(a + b)
  {
    if b == [] {
      assert a + b == a;
    } else {
      var n := |b| - 1;
      FirstsGrow(a, b[..n]);
      assert a + b == a + b[..n] + [b[n]];
      FirstsAppend(a + b[..n], b[n]);
    }
  }

  lemma {:induction false} FirstsOfDistinct<T>(s: seq<T>)
    requires Distinct(s)
    ensures Firsts(s) == s
  {
    if s != [] {
      var n := |s| - 1;
      assert s == s[..n] + [s[n]];
      DistinctPrefix(s[..n], s[n]);
      FirstsOfDistinct(s[..n]);
      NotBefore(s, n);
    }
  }

  predicate SameAt<T(==)>(s: seq<T>, i: nat, j: nat)
    requires i < |s| && j < |s|
  {
    s[i] == s[j]
  }

  predicate Distinct<T(==)>(s: seq<T>) { forall i: nat, j: nat :: i < j < |s| ==> !SameAt(s, i, j) }

  lemma NotBefore<T>(s: seq<T>, i: nat)
    requires Distinct(s) && i < |s|
    ensures s[i] !in s[..i]
  {
    forall h: nat | h < i
      ensures s[..i][h] != s[i]
    {
      assert !SameAt(s, h, i);
    }
  }

  lemma SliceOfRest<T>(s: seq<T>, rest: seq<T>, j: nat, n: nat)
    requires j <= |s| && rest == s[j..] && n <= |rest|
    ensures rest[..n] == s[j..j + n] && rest[n..] == s[j + n..]
  {
  }

  /** A stretch of distinct elements, some of them repeated: what is new of it comes at the end. */
  lemma {:induction false} FirstsOfStretch<T>(out: seq<T>, offered: seq<T>, j: nat, k: nat, n: nat)
    requires Distinct(offered)
    requires j <= k <= |offered| && j + n <= |offered|
    requires Firsts(out) == offered[..k]
    ensures Firsts(out + offered[j..j + n]) == offered[..Further(j + n, k)]
  {
    if n == 0 {
      assert out + offered[j..j] == out;
    } else {
      var m := n - 1;
      FirstsOfStretch(out, offered, j, k, m);
      StretchGrows(offered, j, m);
      Reassociate(out, offered[j..j + m], [offered[j + m]]);
      FirstsOfNext(out + offered[j..j + m], offered, j + m, Further(j + m, k));
    }
  }

  function Further(a: nat, b: nat): nat { if a > b then a else b }

  lemma StretchGrows<T>(s: seq<T>, j: nat, n: nat)
    requires j + n < |s|
    ensures s[j..j + n + 1] == s[j..j + n] + [s[j + n]]
  {
  }

  /** One more element: a repetition, or the next of those offered. */
  lemma FirstsOfNext<T>(out: seq<T>, offered: seq<T>, i: nat, k: nat)
    requires Distinct(offered) && i <= k <= |offered| && i < |offered|
    requires Firsts(out) == offered[..k]
    ensures Firsts(out + [offered[i]]) == offered[..Further(i + 1, k)]
  {
    FirstsAppend(out, offered[i]);
    FirstsMembers(out, offered[i]);
    if i < k {
      assert offered[..k][i] == offered[i];
    } else {
      NotBefore(offered, i);
    }
  }

  lemma RepeatShowsNewest<P>(
    out: seq<OutboxRow<P>>, a: seq<OutboxRow<P>>, b: seq<OutboxRow<P>>, c: seq<OutboxRow<P>>, ch: Channel)
    requires LastOn(out, ch) == LastOn(a + b, ch)
    ensures LastOn(out + (b + c), ch) == LastOn(a + b + c, ch)
  {
    LastOnConcat(out, b + c, ch);
    LastOnConcat(b, c, ch);
    LastOnConcat(a, b, ch);
    LastOnConcat(a + b, c, ch);
  }

  /** Committing again from an earlier point, at least as far as before, changes nothing for a latest-wins
      reader but adds what is beyond. */
  lemma StretchShowsNewest<P>(
    out: seq<OutboxRow<P>>, offered: seq<OutboxRow<P>>, j: nat, k: nat, end: nat, ch: Channel)
    requires j <= k <= end <= |offered|
    requires LastOn(out, ch) == LastOn(offered[..k], ch)
    ensures LastOn(out + offered[j..end], ch) == LastOn(offered[..end], ch)
  {
    CutTwice(offered, j, k, end);
    RepeatShowsNewest(out, offered[..j], offered[j..k], offered[k..end], ch);
  }

  lemma CutTwice<T>(s: seq<T>, j: nat, k: nat, end: nat)
    requires j <= k <= end <= |s|
    ensures s[..k] == s[..j] + s[j..k] && s[j..end] == s[j..k] + s[k..end]
    ensures s[..end] == s[..j] + s[j..k] + s[k..end]
  {
  }

  // ---- Flows: what is offered, what is committed, what is still queued ----

  /** A row is offered; or the first `n` queued rows are committed and leave the queue, and the next
      `landed` are committed unseen and stay. */
  datatype Move<T> = Offer(row: T) | Commit(n: nat, landed: nat)

  datatype Flow<T> = Flow(out: seq<T>, offered: seq<T>, queue: seq<T>)

  function Moved<T>(f: Flow<T>, m: Move<T>): Flow<T> {
    match m
    case Offer(x) => Flow(f.out, f.offered + [x], f.queue + [x])
    case Commit(n, landed) =>
      if n + landed <= |f.queue| then Flow(f.out + f.queue[..n + landed], f.offered, f.queue[n..]) else f
  }

  function Played<T>(queue: seq<T>, moves: seq<Move<T>>): Flow<T> {
    if moves == [] then Flow([], queue, queue)
    else Moved(Played(queue, moves[..|moves| - 1]), moves[|moves| - 1])
  }

  /** How many rows have left the queue. */
  function Taken<T>(moves: seq<Move<T>>): nat {
    if moves == [] then 0
    else Taken(moves[..|moves| - 1]) + if moves[|moves| - 1].Commit? then moves[|moves| - 1].n else 0
  }

  /** How many queued rows have been committed unseen. */
  function Ahead<T>(moves: seq<Move<T>>): nat {
    if moves == [] then 0
    else
      var last := moves[|moves| - 1];
      if last.Commit? && last.n + last.landed > 0 then last.landed else Ahead(moves[..|moves| - 1])
  }

  predicate Legal<T>(queue: seq<T>, moves: seq<Move<T>>) {
    moves == [] ||
    (var before, last := moves[..|moves| - 1], moves[|moves| - 1];
     Legal(queue, before) && Fits(Played(queue, before), last, Ahead(before)))
  }

  /** The queue is what was offered from the j-th row on, and the output reaches no further than what was offered. */
  predicate Queued<T(==)>(f: Flow<T>, j: nat, k: nat) { j <= k <= |f.offered| && f.queue == f.offered[j..] }

  /** The first occurrences in the output are the first `k` rows offered. */
  predicate Progress<T(==)>(f: Flow<T>, k: nat) { k <= |f.offered| && Firsts(f.out) == f.offered[..k] }

  /** How far the output reaches after a move. */
  function Reach<T>(last: Move<T>, j: nat, ahead: nat): nat {
    if last.Commit? && last.n + last.landed > 0 then j + last.n + last.landed else j + ahead
  }

  function Left<T>(last: Move<T>, j: nat): nat { if last.Commit? then j + last.n else j }

  /** A move that commits what is there, and reaches as far as what is committed already. */
  predicate Fits<T>(f: Flow<T>, last: Move<T>, ahead: nat) {
    last.Commit? ==> last.n + last.landed <= |f.queue| && (last.n + last.landed == 0 || ahead <= last.n + last.landed)
  }

  lemma ReachAdds<T>(moves: seq<Move<T>>)
    requires moves != []
    ensures var before, last := moves[..|moves| - 1], moves[|moves| - 1];
            && Taken(moves) == Left(last, Taken(before))
            && Taken(moves) + Ahead(moves) == Reach(last, Taken(before), Ahead(before))
  {
  }

  lemma MoveKeepsQueued<T>(f: Flow<T>, last: Move<T>, j: nat, ahead: nat)
    requires Queued(f, j, j + ahead) && Fits(f, last, ahead)
    ensures Queued(Moved(f, last), Left(last, j), Reach(last, j, ahead))
  {
    match last
    case Commit(n, landed) => SliceOfRest(f.offered, f.queue, j, n);
    case Offer(x) => assert (f.offered + [x])[j..] == f.offered[j..] + [x];
  }

  lemma {:induction false} FlowsAreQueued<T>(queue: seq<T>, moves: seq<Move<T>>)
    requires Legal(queue, moves)
    ensures Queued(Played(queue, moves), Taken(moves), Taken(moves) + Ahead(moves))
  {
    if moves != [] {
      var before, last := moves[..|moves| - 1], moves[|moves| - 1];
      FlowsAreQueued(queue, before);
      MoveKeepsQueued(Played(queue, before), last, Taken(before), Ahead(before));
      ReachAdds(moves);
    }
  }

  lemma DistinctPrefix<T>(s: seq<T>, x: T)
    requires Distinct(s + [x])
    ensures Distinct(s)
  {
    forall i: nat, j: nat | i < j < |s|
      ensures !SameAt(s, i, j)
    {
      assert !SameAt(s + [x], i, j);
    }
  }

  lemma MoveKeepsProgress<T>(f: Flow<T>, last: Move<T>, j: nat, ahead: nat)
    requires Queued(f, j, j + ahead) && Progress(f, j + ahead) && Distinct(f.offered) && Fits(f, last, ahead)
    ensures Progress(Moved(f, last), Reach(last, j, ahead))
  {
    match last
    case Commit(n, landed) =>
      SliceOfRest(f.offered, f.queue, j, n + landed);
      if n + landed == 0 {
        assert f.out + f.queue[..0] == f.out;
      } else {
        FirstsOfStretch(f.out, f.offered, j, j + ahead, n + landed);
      }
    case Offer(x) =>
      assert (f.offered + [x])[..j + ahead] == f.offered[..j + ahead];
  }

  /** Every legal flow of distinct rows makes progress, by as much as its moves say. */
  lemma {:induction false} FlowsProgress<T>(queue: seq<T>, moves: seq<Move<T>>)
    requires Legal(queue, moves) && Distinct(Played(queue, moves).offered)
    ensures Progress(Played(queue, moves), Taken(moves) + Ahead(moves))
  {
    if moves != [] {
      var before, last := moves[..|moves| - 1], moves[|moves| - 1];
      var f := Played(queue, before);
      if last.Offer? {
        DistinctPrefix(f.offered, last.row);
      }
      FlowsAreQueued(queue, before);
      FlowsProgress(queue, before);
      MoveKeepsProgress(f, last, Taken(before), Ahead(before));
      ReachAdds(moves);
    }
  }

  /** To a latest-wins reader, the output is the first `k` rows offered. */
  ghost predicate Shows<P>(f: Flow<OutboxRow<P>>, k: nat, ch: Channel) {
    k <= |f.offered| && LastOn(f.out, ch) == LastOn(f.offered[..k], ch)
  }

  lemma CommitShowsNewest<P>(
    out: seq<OutboxRow<P>>, offered: seq<OutboxRow<P>>, queue: seq<OutboxRow<P>>, j: nat, k: nat, m: nat, ch: Channel)
    requires j <= k <= |offered| && queue == offered[j..] && k - j <= m <= |queue|
    requires LastOn(out, ch) == LastOn(offered[..k], ch)
    ensures j + m <= |offered| && LastOn(out + queue[..m], ch) == LastOn(offered[..j + m], ch)
  {
    SliceOfRest(offered, queue, j, m);
    StretchShowsNewest(out, offered, j, k, j + m, ch);
  }

  lemma OfferShowsSame<P>(out: seq<OutboxRow<P>>, offered: seq<OutboxRow<P>>, x: OutboxRow<P>, k: nat, ch: Channel)
    requires k <= |offered| && LastOn(out, ch) == LastOn(offered[..k], ch)
    ensures LastOn(out, ch) == LastOn((offered + [x])[..k], ch)
  {
    assert (offered + [x])[..k] == offered[..k];
  }

  lemma NothingShowsSame<P>(out: seq<OutboxRow<P>>, queue: seq<OutboxRow<P>>, ch: Channel)
    ensures LastOn(out + queue[..0], ch) == LastOn(out, ch)
  {
    assert out + queue[..0] == out;
  }

  lemma MoveKeepsShown<P>(f: Flow<OutboxRow<P>>, last: Move<OutboxRow<P>>, j: nat, ahead: nat, ch: Channel)
    requires Queued(f, j, j + ahead) && Shows(f, j + ahead, ch) && Fits(f, last, ahead)
    ensures Shows(Moved(f, last), Reach(last, j, ahead), ch)
  {
    var k := j + ahead;
    if last.Offer? {
      OfferShowsSame(f.out, f.offered, last.row, k, ch);
    } else if last.n + last.landed == 0 {
      NothingShowsSame(f.out, f.queue, ch);
    } else {
      CommitShowsNewest(f.out, f.offered, f.queue, j, k, last.n + last.landed, ch);
    }
  }

  lemma {:induction false} FlowsShowNewest<P>(queue: seq<OutboxRow<P>>, moves: seq<Move<OutboxRow<P>>>, ch: Channel)
    requires Legal(queue, moves)
    ensures Shows(Played(queue, moves), Taken(moves) + Ahead(moves), ch)
  {
    if moves != [] {
      var before, last := moves[..|moves| - 1], moves[|moves| - 1];
      FlowsAreQueued(queue, before);
      FlowsShowNewest(queue, before, ch);
      MoveKeepsShown(Played(queue, before), last, Taken(before), Ahead(before), ch);
      ReachAdds(moves);
    }
  }

  // ---- A relay process is a flow ----

  /** The output of the process that began in `s`. */
  function Output<P>(s: State<P>, t: State<P>): seq<OutboxRow<P>> {
    if |s.log| <= |t.log| then t.log[|s.log|..] else []
  }

  function OfferedSince<P>(s: State<P>, t: State<P>): seq<OutboxRow<P>> { Queue(s) + NewlyParsed(s, t) }

  function FlowOf<P>(s: State<P>, t: State<P>): Flow<OutboxRow<P>> { Flow(Output(s, t), OfferedSince(s, t), Queue(t)) }

  lemma OfferedOnce<P>(s: State<P>, t: State<P>)
    requires Increasing(s.rows) && Increasing(t.rows) && Parsed(s.rows) <= Parsed(t.rows)
    ensures Distinct(OfferedSince(s, t))
  {
    OfferedAscends(s, t);
  }

  /** How many rows of the queue can have landed unseen: what one failed poll commits. */
  function Unseen<P>(s: State<P>, limit: int, transactional: bool): nat {
    if transactional then |Batch(s, limit)| else 1
  }

  /** A row inserted behind the others only lengthens the batch. */
  lemma InsertKeepsBatch<P>(s: State<P>, r: Row<P>, limit: int)
    requires !r.published
    ensures |Batch(s, limit)| <= |Batch(Inserted(s, r), limit)|
  {
    FilterConcat(Unpublished<P>(), s.rows, [r]);
    FilterOne(Unpublished<P>(), r);
    var was, now := Take(Pending(s.rows), limit), Take(Pending(s.rows + [r]), limit);
    assert Pending(s.rows + [r]) == Pending(s.rows) + [r];
    if now != was {
      assert now == was + [r];
      ParsedConcat(was, [r]);
      FilterConcat(Fresh<P>(s.sent), Parsed(was), Parsed([r]));
    }
  }

  lemma NothingMoved<P>(mid: State<P>, t: State<P>, d: Did, limit: int)
    requires Shape(mid, t, d) && d.n == 0 && d.marks == {}
    ensures Batch(t, limit) == Batch(mid, limit)
  {
    assert IdsOf(Queue(mid)[..0]) == {};
    MarkedNone(mid.rows);
    assert t.rows == mid.rows && t.sent == mid.sent;
  }

  /** A poll that commits something commits at least what can have landed before it, and leaves no more than
      that unseen. */
  lemma PollReaches<P>(mid: State<P>, t: State<P>, d: Did, limit: int, transactional: bool, unseen: nat)
    requires Shape(mid, t, d) && unseen <= Unseen(mid, limit, transactional)
    requires if transactional then Whole(d, |Batch(mid, limit)|) else d.landed <= 1
    ensures d.n + d.landed == 0 || unseen <= d.n + d.landed
    ensures d.n + d.landed == 0 ==> Unseen(t, limit, transactional) == Unseen(mid, limit, transactional)
    ensures d.n + d.landed > 0 ==> d.landed <= Unseen(t, limit, transactional)
  {
    if d.n == 0 && (transactional || d.landed == 0) {
      assert IdsOf(Queue(mid)[..0]) == {};
      assert d.marks == {};
      NothingMoved(mid, t, d, limit);
    }
  }

  lemma OutputGrows<P>(s: State<P>, mid: State<P>, t: State<P>, more: seq<OutboxRow<P>>)
    requires s.log <= mid.log && t.log == mid.log + more
    ensures s.log <= t.log && Output(s, t) == Output(s, mid) + more
  {
  }

  /** A new row is offered and queued, if it parses. */
  lemma InsertMoves<P>(s: State<P>, mid: State<P>, r: Row<P>)
    requires s.log <= mid.log && Parsed(s.rows) <= Parsed(mid.rows) && !r.published && r.id !in mid.sent
    ensures Parsed(s.rows) <= Parsed(Inserted(mid, r).rows)
    ensures FlowOf(s, Inserted(mid, r)) ==
            if r.payload.Json? then Moved(FlowOf(s, mid), Offer(View(r))) else FlowOf(s, mid)
  {
    var tail := if r.payload.Json? then [View(r)] else [];
    var t := Inserted(mid, r);
    QueueAppend(mid.rows, r, mid.sent);
    assert t.rows[..|mid.rows|] == mid.rows;
    assert Parsed(t.rows) == Parsed(mid.rows) + tail;
    SuffixGrows(Parsed(s.rows), Parsed(mid.rows), tail);
    Reassociate(Queue(s), NewlyParsed(s, mid), tail);
    assert OfferedSince(s, t) == OfferedSince(s, mid) + tail;
  }

  lemma FlowAfterCommit<P>(s: State<P>, mid: State<P>, t: State<P>, queue: seq<OutboxRow<P>>, n: nat, landed: nat)
    requires s.log <= mid.log && queue == Queue(mid) && n + landed <= |queue|
    requires t.log == mid.log + queue[..n + landed] && Queue(t) == queue[n..] && Parsed(t.rows) == Parsed(mid.rows)
    ensures s.log <= t.log && FlowOf(s, t) == Moved(FlowOf(s, mid), Commit(n, landed))
  {
    OutputGrows(s, mid, t, queue[..n + landed]);
  }

  /** What a poll does to log, queue and table. */
  lemma PollCommits<P>(mid: State<P>, t: State<P>, limit: int, transactional: bool, f: Faults, unseen: nat)
    returns (n: nat, landed: nat)
    requires Increasing(mid.rows) && unseen <= Unseen(mid, limit, transactional)
    requires t == Poll(mid, limit, transactional, f)
    ensures n + landed <= |Queue(mid)| && t.log == mid.log + Queue(mid)[..n + landed]
    ensures Queue(t) == Queue(mid)[n..] && Parsed(t.rows) == Parsed(mid.rows)
    ensures n + landed == 0 || unseen <= n + landed
    ensures (if n + landed == 0 then unseen else landed) <= Unseen(t, limit, transactional)
  {
    var d := PollShape(mid, limit, transactional, f);
    n, landed := d.n, d.landed;
    ShapeAdvancesQueue(mid, t, d);
    PollReaches(mid, t, d, limit, transactional, unseen);
  }

  /** A poll takes from the queue, nothing or at least what can have landed before, and leaves no more than
      that unseen. */
  lemma PollMoves<P>(
    s: State<P>, mid: State<P>, t: State<P>, limit: int, transactional: bool, f: Faults, unseen: nat)
    returns (n: nat, landed: nat)
    requires Increasing(mid.rows) && s.log <= mid.log && unseen <= Unseen(mid, limit, transactional)
    requires t == Poll(mid, limit, transactional, f)
    ensures s.log <= t.log && Parsed(t.rows) == Parsed(mid.rows) && n + landed <= |Queue(mid)|
    ensures FlowOf(s, t) == Moved(FlowOf(s, mid), Commit(n, landed))
    ensures n + landed == 0 || unseen <= n + landed
    ensures (if n + landed == 0 then unseen else landed) <= Unseen(t, limit, transactional)
  {
    n, landed := PollCommits(mid, t, limit, transactional, f, unseen);
    FlowAfterCommit(s, mid, t, Queue(mid), n, landed);
  }

  /** From `s` to `t`, a relay process has performed these moves. */
  ghost predicate Performs<P>(
    s: State<P>, t: State<P>, limit: int, transactional: bool, moves: seq<Move<OutboxRow<P>>>)
  {
    && s.log <= t.log && Parsed(s.rows) <= Parsed(t.rows)
    && FlowOf(s, t) == Played(Queue(s), moves) && Legal(Queue(s), moves)
    && Ahead(moves) <= Unseen(t, limit, transactional)
  }

  ghost predicate OneProcess<P>(events: seq<Event<P>>) { forall e :: e in events ==> !e.Restart? }

  lemma MoveIsPerformed<P>(
    s: State<P>, mid: State<P>, t: State<P>, limit: int, transactional: bool, moves: seq<Move<OutboxRow<P>>>,
    m: Move<OutboxRow<P>>)
    requires Performs(s, mid, limit, transactional, moves) && Fits(FlowOf(s, mid), m, Ahead(moves))
    requires s.log <= t.log && Parsed(s.rows) <= Parsed(t.rows) && FlowOf(s, t) == Moved(FlowOf(s, mid), m)
    requires (if m.Commit? && m.n + m.landed > 0 then m.landed else Ahead(moves)) <= Unseen(t, limit, transactional)
    ensures Performs(s, t, limit, transactional, moves + [m])
  {
    assert (moves + [m])[..|moves|] == moves;
  }

  lemma InsertIsPerformed<P>(
    s: State<P>, mid: State<P>, r: Row<P>, limit: int, transactional: bool, moves: seq<Move<OutboxRow<P>>>)
    returns (now: seq<Move<OutboxRow<P>>>)
    requires Performs(s, mid, limit, transactional, moves) && !r.published && r.id !in mid.sent
    ensures Performs(s, Inserted(mid, r), limit, transactional, now)
  {
    InsertMoves(s, mid, r);
    InsertKeepsBatch(mid, r, limit);
    now := moves;
    if r.payload.Json? {
      MoveIsPerformed(s, mid, Inserted(mid, r), limit, transactional, moves, Offer(View(r)));
      now := moves + [Offer(View(r))];
    }
  }

  lemma {:induction false} ProcessesAreFlows<P>(
    s: State<P>, events: seq<Event<P>>, limit: int, transactional: bool) returns (moves: seq<Move<OutboxRow<P>>>)
    requires Sound(s) && OneProcess(events)
    ensures Performs(s, Exec(s, events, limit, transactional), limit, transactional, moves)
  {
    if events == [] {
      moves := [];
      assert OfferedSince(s, s) == Queue(s);
    } else {
      var before, e := events[..|events| - 1], events[|events| - 1];
      var mid, t := Exec(s, before, limit, transactional), Exec(s, events, limit, transactional);
      assert e in events;
      moves := ProcessesAreFlows(s, before, limit, transactional);
      RunsAreSound(s, before, limit, transactional);
      match e
      case Insert(gap, topic, key, payload) =>
        var r := Row(NextId(mid.rows, gap), topic, key, payload, false);
        NextIdIsNew(mid.rows, gap);
        NewRowIsUnsent(mid, r);
        moves := InsertIsPerformed(s, mid, r, limit, transactional, moves);
      case PollOnce(f) =>
        var n, landed := PollMoves(s, mid, t, limit, transactional, f, Ahead(moves));
        MoveIsPerformed(s, mid, t, limit, transactional, moves, Commit(n, landed));
        moves := moves + [Commit(n, landed)];
    }
  }

  lemma FlowsPublishOnce<P>(
    f: Flow<OutboxRow<P>>, queue: seq<OutboxRow<P>>, moves: seq<Move<OutboxRow<P>>>, ch: Channel)
    returns (j: nat, k: nat)
    requires Legal(queue, moves) && f == Played(queue, moves) && Distinct(f.offered)
    ensures Queued(f, j, k) && Progress(f, k) && Shows(f, k, ch)
  {
    FlowsAreQueued(queue, moves);
    FlowsProgress(queue, moves);
    FlowsShowNewest(queue, moves, ch);
    j, k := Taken(moves), Taken(moves) + Ahead(moves);
  }

  /** Within one relay process, under any faults, also writes that take effect unseen: each record's first
      publication comes in order, so the first occurrences are exactly a prefix of the parseable rows
      pending at the start followed by those inserted since; everything beyond that prefix is still queued;
      and between polls a latest-wins reader of the output sees exactly what it would if each row of the
      prefix had been published once. */
  lemma PublishesOnceInOrder<P>(
    s: State<P>, events: seq<Event<P>>, t: State<P>, limit: int, transactional: bool, ch: Channel)
    returns (j: nat, k: nat)
    requires Sound(s) && OneProcess(events) && t == Exec(s, events, limit, transactional)
    ensures s.log <= t.log && Parsed(s.rows) <= Parsed(t.rows) && j <= k <= |OfferedSince(s, t)|
    ensures Firsts(Output(s, t)) == OfferedSince(s, t)[..k]
    ensures Queue(t) == OfferedSince(s, t)[j..]
    ensures LastOn(Output(s, t), ch) == LastOn(OfferedSince(s, t)[..k], ch)
  {
    var moves := ProcessesAreFlows(s, events, limit, transactional);
    RunsAreSound(s, events, limit, transactional);
    OfferedOnce(s, t);
    j, k := FlowsPublishOnce(FlowOf(s, t), Queue(s), moves, ch);
  }

  lemma {:induction false} ExecConcat<P>(
    s: State<P>, a: seq<Event<P>>, b: seq<Event<P>>, limit: int, transactional: bool)
    ensures Exec(s, a + b, limit, transactional)
         == Exec(Exec(s, a, limit, transactional), b, limit, transactional)
  {
    if b == [] {
      assert a + b == a;
    } else {
      assert (a + b)[..|a + b| - 1] == a + b[..|b| - 1];
      ExecConcat(s, a, b[..|b| - 1], limit, transactional);
    }
  }

  lemma ProcessLogGrows<P>(s: State<P>, events: seq<Event<P>>, limit: int, transactional: bool)
    requires Sound(s) && OneProcess(events)
    ensures s.log <= Exec(s, events, limit, transactional).log
  {
    var moves := ProcessesAreFlows(s, events, limit, transactional);
  }

  lemma FirstsOfOutputGrow<P>(s: State<P>, t: State<P>, u: State<P>)
    requires s.log <= t.log <= u.log
    ensures Firsts(Output(s, t)) <= Firsts(Output(s, u))
  {
    OutputGrows(s, t, u, u.log[|t.log|..]);
    FirstsGrow(Output(s, t), u.log[|t.log|..]);
  }

  /** And it never goes back: at any later point of the process the first occurrences only extend those of before. */
  lemma NeverGoesBack<P>(
    s: State<P>, before: seq<Event<P>>, after: seq<Event<P>>, limit: int, transactional: bool)
    requires Sound(s) && OneProcess(before) && OneProcess(after)
    ensures var t, u := Exec(s, before, limit, transactional), Exec(s, before + after, limit, transactional);
            t.log <= u.log && Firsts(Output(s, t)) <= Firsts(Output(s, u))
  {
    var t := Exec(s, before, limit, transactional);
    RunsAreSound(s, before, limit, transactional);
    ExecConcat(s, before, after, limit, transactional);
    ProcessLogGrows(s, before, limit, transactional);
    ProcessLogGrows(t, after, limit, transactional);
    FirstsOfOutputGrow(s, t, Exec(t, after, limit, transactional));
  }
}
