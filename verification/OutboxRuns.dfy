/**
 The outbox over whole runs: inserts, polls that fail anywhere, and process restarts, in any order.

 - Within one process, what reaches the log and what is still queued is always exactly what was
   offered, so the log is a prefix of it (`PublishedArePrefix`).
 - Across restarts, marked rows are in the log and nothing parseable is lost (`Sound`).
 - A latest-wins reader catches up after a restart exactly when no marked row is newer than the last
   pending row of its topic and key, and the log already ends in the newest row wherever none is
   pending (`CatchesUpIff`). A mark that fails and is followed by a later successful mark breaks this
   for good (`StaleRepublication`).
 - What a poll returns tells nothing about what it committed (`ZeroHidesCommitIff`, `ZeroHidesSendIff`).
 - A fault-free relay drains its queue at a guaranteed rate unless a full batch of stuck rows sits at
   the head (`DrainRate`, `BlockedForever`).
 */
module OutboxRuns {
  import opened Prelude
  import opened Outbox
  import opened OutboxQueue

  datatype Event<+P> =
    | Insert(gap: nat, topic: string, key: Option<string>, payload: Text<P>)
    | PollOnce(faults: Faults)
    | Restart

  function NextId<P>(rows: seq<Row<P>>, gap: nat): nat {
    if rows == [] then 1 + gap else rows[|rows| - 1].id + 1 + gap
  }

  function Inserted<P>(s: State<P>, r: Row<P>): State<P> { s.(rows := s.rows + [r]) }

  /** A new relay process over the same table and log. */
  function Restarted<P>(s: State<P>): State<P> { s.(sent := {}, hooked := []) }

  function Apply<P>(s: State<P>, e: Event<P>, limit: int, transactional: bool): State<P> {
    match e
    case Insert(gap, topic, key, payload) =>
      Inserted(s, Row(NextId(s.rows, gap), topic, key, payload, false))
    case PollOnce(f) => Poll(s, limit, transactional, f)
    case Restart => Restarted(s)
  }

  function Exec<P>(s: State<P>, events: seq<Event<P>>, limit: int, transactional: bool): State<P> {
    if events == [] then s
    else Apply(Exec(s, events[..|events| - 1], limit, transactional), events[|events| - 1], limit, transactional)
  }

  function Initial<P>(): State<P> { State([], {}, [], []) }

  // ---- What every run keeps ----

  /** Dispatched ids are committed ids and precede the queue; marked rows are committed; committed
      records are rows of the table; hooks ran once per row, in id order, for marked rows. */
  ghost predicate Sound<P>(s: State<P>) {
    && Increasing(s.rows)
    && s.sent <= IdsOf(s.log)
    && (forall id, q :: id in s.sent && q in Queue(s) ==> id < q.id)
    && (forall i :: 0 <= i < |s.rows| && s.rows[i].published ==>
          s.rows[i].payload.Json? && View(s.rows[i]) in s.log)
    && (forall e :: e in s.log ==> e in Parsed(s.rows))
    && (forall i, j :: 0 <= i < j < |s.hooked| ==> s.hooked[i] < s.hooked[j])
    && (forall h :: h in s.hooked ==> h in s.sent && IsMarked(s.rows, h))
  }

  ghost predicate IsMarked<P>(rows: seq<Row<P>>, id: nat) {
    exists i :: 0 <= i < |rows| && rows[i].id == id && rows[i].published
  }

  lemma IdsOfConcat<P>(a: seq<OutboxRow<P>>, b: seq<OutboxRow<P>>)
    ensures IdsOf(a + b) == IdsOf(a) + IdsOf(b)
  {
    forall id | id in IdsOf(a) + IdsOf(b)
      ensures id in IdsOf(a + b)
    {
      if id in IdsOf(a) {
        var i :| 0 <= i < |a| && a[i].id == id;
        assert (a + b)[i].id == id;
      } else {
        var i :| 0 <= i < |b| && b[i].id == id;
        assert (a + b)[|a| + i].id == id;
      }
    }
  }

  /** The marked rows of a poll are queue entries that it committed. */
  lemma MarkedRowsAreQueued<P>(s: State<P>, d: Did, t: State<P>, i: nat)
    requires Increasing(s.rows) && Shape(s, t, d)
    requires i < |s.rows| && s.rows[i].id in d.marks
    ensures s.rows[i].payload.Json? && View(s.rows[i]) in Queue(s)[..d.n]
  {
    var q := Queue(s);
    var k :| 0 <= k < d.n && q[..d.n][k].id == s.rows[i].id;
    assert q[k] in q;
    QueueMembersAreRows(s.rows, s.sent, q[k]);
    ParsedMembers(s.rows, q[k]);
    var j :| 0 <= j < |s.rows| && s.rows[j].payload.Json? && View(s.rows[j]) == q[k];
    assert i == j;
    assert q[..d.n][k] == View(s.rows[i]);
  }

  lemma {:induction false} QueueMembersAreRows<P>(rows: seq<Row<P>>, sent: set<nat>, q: OutboxRow<P>)
    requires q in QueueOf(rows, sent)
    ensures q in Parsed(rows)
  {
    var n := |rows| - 1;
    if rows == [] {
      assert false;
    } else {
      assert rows == rows[..n] + [rows[n]];
      QueueAppend(rows[..n], rows[n], sent);
      if q in QueueOf(rows[..n], sent) {
        QueueMembersAreRows(rows[..n], sent, q);
      }
    }
  }

  lemma PollKeepsMarkedCommitted<P>(s: State<P>, t: State<P>, d: Did)
    requires Sound(s) && Shape(s, t, d)
    ensures forall i :: 0 <= i < |t.rows| && t.rows[i].published ==>
              t.rows[i].payload.Json? && View(t.rows[i]) in t.log
  {
    var q := Queue(s);
    forall i | 0 <= i < |t.rows| && t.rows[i].published
      ensures t.rows[i].payload.Json? && View(t.rows[i]) in t.log
    {
      if !s.rows[i].published {
        MarkedRowsAreQueued(s, d, t, i);
        assert forall k :: 0 <= k < d.n ==> q[..d.n][k] == q[..d.n + d.landed][k];
      }
    }
  }

  lemma PollKeepsSentCommitted<P>(s: State<P>, t: State<P>, d: Did)
    requires s.sent <= IdsOf(s.log) && Shape(s, t, d)
    ensures t.sent <= IdsOf(t.log)
  {
    var q := Queue(s);
    IdsOfConcat(s.log, q[..d.n + d.landed]);
    assert q[..d.n + d.landed] == q[..d.n] + q[d.n..d.n + d.landed];
    IdsOfConcat(q[..d.n], q[d.n..d.n + d.landed]);
  }

  lemma PrefixPrecedesRest<P>(sent: set<nat>, q: seq<OutboxRow<P>>, n: nat, id: nat, r: OutboxRow<P>)
    requires n <= |q| && Ascending(q)
    requires forall x, e :: x in sent && e in q ==> x < e.id
    requires id in sent + IdsOf(q[..n]) && r in q[n..]
    ensures id < r.id
  {
    var k :| n <= k < |q| && q[k] == r;
    assert q[k] in q;
    if id !in sent {
      var m :| 0 <= m < n && q[..n][m].id == id;
      assert q[m].id < q[k].id;
    }
  }

  lemma PollKeepsSentOrder<P>(s: State<P>, t: State<P>, d: Did)
    requires Sound(s) && Shape(s, t, d)
    ensures forall id, r :: id in t.sent && r in Queue(t) ==> id < r.id
  {
    QueueIsSorted(s.rows, s.sent);
    ShapeAdvancesQueue(s, t, d);
    forall id, r | id in t.sent && r in Queue(t)
      ensures id < r.id
    {
      PrefixPrecedesRest(s.sent, Queue(s), d.n, id, r);
    }
  }

  lemma PollKeepsHookOrder<P>(s: State<P>, t: State<P>, d: Did)
    requires Sound(s) && Shape(s, t, d)
    ensures forall i, j :: 0 <= i < j < |t.hooked| ==> t.hooked[i] < t.hooked[j]
  {
    var q := Queue(s);
    QueueIsSorted(s.rows, s.sent);
    var ids := FirstIds(q, d.h);
    forall i, k | 0 <= i < |s.hooked| && 0 <= k < d.h
      ensures s.hooked[i] < ids[k]
    {
      assert s.hooked[i] in s.hooked;
      assert q[k] in q;
    }
  }

  /** A row of the batch whose id was marked is marked in the table. */
  lemma HookedIsMarked<P>(s: State<P>, t: State<P>, d: Did, k: nat)
    requires Shape(s, t, d) && k < d.h
    ensures Queue(s)[k].id in t.sent && IsMarked(t.rows, Queue(s)[k].id)
  {
    var q := Queue(s);
    assert q[..d.n][k].id == q[k].id;
    assert q[k] in q;
    QueueMembersAreRows(s.rows, s.sent, q[k]);
    ParsedMembers(s.rows, q[k]);
    var j :| 0 <= j < |s.rows| && s.rows[j].payload.Json? && View(s.rows[j]) == q[k];
    assert t.rows[j].id == q[k].id && t.rows[j].published;
  }

  lemma PollKeepsHookedMarked<P>(s: State<P>, t: State<P>, d: Did)
    requires Sound(s) && Shape(s, t, d)
    ensures forall h :: h in t.hooked ==> h in t.sent && IsMarked(t.rows, h)
  {
    forall h | h in t.hooked
      ensures h in t.sent && IsMarked(t.rows, h)
    {
      if h in s.hooked {
        var i :| 0 <= i < |s.rows| && s.rows[i].id == h && s.rows[i].published;
        assert t.rows[i].id == h && t.rows[i].published;
      } else {
        var k :| 0 <= k < d.h && FirstIds(Queue(s), d.h)[k] == h;
        HookedIsMarked(s, t, d, k);
      }
    }
  }

  lemma PollKeepsSound<P>(s: State<P>, limit: int, transactional: bool, f: Faults)
    requires Sound(s)
    ensures Sound(Poll(s, limit, transactional, f))
  {
    var t := Poll(s, limit, transactional, f);
    var d := PollShape(s, limit, transactional, f);
    ShapeAdvancesQueue(s, t, d);
    PollKeepsMarkedCommitted(s, t, d);
    PollKeepsSentCommitted(s, t, d);
    PollKeepsSentOrder(s, t, d);
    PollKeepsHookOrder(s, t, d);
    PollKeepsHookedMarked(s, t, d);
    forall e | e in t.log
      ensures e in Parsed(t.rows)
    {
      if e !in s.log {
        assert e in Queue(s)[..d.n + d.landed];
        QueueMembersAreRows(s.rows, s.sent, e);
      }
    }
  }

  lemma InsertKeepsSound<P>(s: State<P>, r: Row<P>)
    requires Sound(s) && !r.published
    requires forall i :: 0 <= i < |s.rows| ==> s.rows[i].id < r.id
    ensures Sound(Inserted(s, r))
  {
    var t := Inserted(s, r);
    QueueAppend(s.rows, r, s.sent);
    assert t.rows[..|s.rows|] == s.rows;
    forall id | id in s.sent
      ensures id < r.id
    {
      var k :| 0 <= k < |s.log| && s.log[k].id == id;
      assert s.log[k] in s.log;
      ParsedMembers(s.rows, s.log[k]);
    }
    forall h | h in t.hooked
      ensures IsMarked(t.rows, h)
    {
      var i :| 0 <= i < |s.rows| && s.rows[i].id == h && s.rows[i].published;
      assert t.rows[i].id == h && t.rows[i].published;
    }
  }

  lemma NextIdIsNew<P>(rows: seq<Row<P>>, gap: nat)
    requires Increasing(rows)
    ensures forall i :: 0 <= i < |rows| ==> rows[i].id < NextId(rows, gap)
  {
  }

  /** `Sound` holds throughout every run, with any faults and any number of restarts. */
  lemma {:induction false} RunsAreSound<P>(s: State<P>, events: seq<Event<P>>, limit: int, transactional: bool)
    requires Sound(s)
    ensures Sound(Exec(s, events, limit, transactional))
  {
    if events != [] {
      var before := Exec(s, events[..|events| - 1], limit, transactional);
      RunsAreSound(s, events[..|events| - 1], limit, transactional);
      match events[|events| - 1]
      case Insert(gap, topic, key, payload) =>
        NextIdIsNew(before.rows, gap);
        InsertKeepsSound(before, Row(NextId(before.rows, gap), topic, key, payload, false));
      case PollOnce(f) =>
        PollKeepsSound(before, limit, transactional, f);
      case Restart =>
    }
  }

  /** From the empty table on, under any faults and restarts: a marked row is in the committed log, so
      a row that parses is pending or in the log; hooks ran at most once per row in this process, in
      id order, and only for rows already committed and marked. */
  lemma NothingIsLost<P>(events: seq<Event<P>>, limit: int, transactional: bool)
    ensures var s := Exec(Initial<P>(), events, limit, transactional);
            && (forall i :: 0 <= i < |s.rows| && s.rows[i].payload.Json? ==>
                  !s.rows[i].published || View(s.rows[i]) in s.log)
            && (forall i, j :: 0 <= i < j < |s.hooked| ==> s.hooked[i] < s.hooked[j])
            && (forall h :: h in s.hooked ==> h in IdsOf(s.log) && IsMarked(s.rows, h))
            && s.sent <= IdsOf(s.log)
  {
    RunsAreSound(Initial<P>(), events, limit, transactional);
  }

  // ---- One process: the log is a prefix of what was offered ----

  ghost predicate Undisturbed<P>(events: seq<Event<P>>) {
    forall e :: e in events ==> !e.Restart? && (e.PollOnce? ==> NothingLands(e.faults))
  }

  /** The parseable rows that `t` has beyond those of `s`. */
  function NewlyParsed<P>(s: State<P>, t: State<P>): seq<OutboxRow<P>> {
    if |Parsed(s.rows)| <= |Parsed(t.rows)| then Parsed(t.rows)[|Parsed(s.rows)|..] else []
  }

  /** From `s` to `t`, log and queue together have grown by exactly the rows that were inserted. */
  ghost predicate Offered<P>(s: State<P>, t: State<P>) {
    && Parsed(s.rows) <= Parsed(t.rows)
    && s.log <= t.log
    && t.log + Queue(t) == s.log + Queue(s) + NewlyParsed(s, t)
  }

  lemma ShapeKeepsOffered<P>(s: State<P>, mid: State<P>, t: State<P>, d: Did)
    requires Offered(s, mid) && Increasing(mid.rows) && Shape(mid, t, d) && d.landed == 0
    ensures Offered(s, t)
  {
    ShapeAdvancesQueue(mid, t, d);
    CutAndJoin(mid.log, Queue(mid), d.n);
  }

  lemma CutAndJoin<T>(log: seq<T>, q: seq<T>, n: nat)
    requires n <= |q|
    ensures log + q[..n] + q[n..] == log + q
  {
    assert q == q[..n] + q[n..];
  }

  lemma Reassociate<T>(a: seq<T>, b: seq<T>, c: seq<T>)
    ensures a + b + c == a + (b + c)
  {
  }

  lemma AppendBoth<T>(log: seq<T>, q: seq<T>, a: seq<T>, b: seq<T>, tail: seq<T>)
    requires log + q == a + b
    ensures log + (q + tail) == a + (b + tail)
  {
    assert log + (q + tail) == (log + q) + tail;
  }

  lemma SuffixGrows<T>(a: seq<T>, b: seq<T>, tail: seq<T>)
    requires a <= b
    ensures a <= b + tail && (b + tail)[|a|..] == b[|a|..] + tail
  {
  }

  lemma InsertKeepsOffered<P>(s: State<P>, mid: State<P>, r: Row<P>)
    requires Offered(s, mid) && !r.published && r.id !in mid.sent
    ensures Offered(s, Inserted(mid, r))
  {
    var t := Inserted(mid, r);
    var tail := if r.payload.Json? then [View(r)] else [];
    QueueAppend(mid.rows, r, mid.sent);
    assert t.rows[..|mid.rows|] == mid.rows;
    assert Parsed(t.rows) == Parsed(mid.rows) + tail;
    SuffixGrows(Parsed(s.rows), Parsed(mid.rows), tail);
    AppendBoth(mid.log, Queue(mid), s.log + Queue(s), NewlyParsed(s, mid), tail);
  }

  lemma {:induction false} LogAndQueueAreWhatWasOffered<P>(
    s: State<P>, events: seq<Event<P>>, limit: int, transactional: bool)
    requires Sound(s) && Undisturbed(events)
    ensures Offered(s, Exec(s, events, limit, transactional))
  {
    if events == [] {
      assert s.log + Queue(s) + [] == s.log + Queue(s);
    } else {
      var mid := Exec(s, events[..|events| - 1], limit, transactional);
      LogAndQueueAreWhatWasOffered(s, events[..|events| - 1], limit, transactional);
      RunsAreSound(s, events[..|events| - 1], limit, transactional);
      var e := events[|events| - 1];
      assert e in events;
      match e
      case Insert(gap, topic, key, payload) =>
        var r := Row(NextId(mid.rows, gap), topic, key, payload, false);
        NextIdIsNew(mid.rows, gap);
        NewRowIsUnsent(mid, r);
        InsertKeepsOffered(s, mid, r);
      case PollOnce(f) =>
        var d := PollShape(mid, limit, transactional, f);
        ShapeKeepsOffered(s, mid, Exec(s, events, limit, transactional), d);
    }
  }

  lemma SplitAt<T>(a: seq<T>, b: seq<T>, c: seq<T>, d: seq<T>) returns (n: nat)
    requires a + b == c + d && |c| <= |a|
    ensures n <= |d| && a == c + d[..n] && b == d[n..]
  {
    n := |a| - |c|;
    assert a == (c + d)[..|a|] && b == (a + b)[|a|..];
  }

  lemma NewRowIsUnsent<P>(s: State<P>, r: Row<P>)
    requires Sound(s)
    requires forall i :: 0 <= i < |s.rows| ==> s.rows[i].id < r.id
    ensures r.id !in s.sent
  {
    if r.id in s.sent {
      var k :| 0 <= k < |s.log| && s.log[k].id == r.id;
      assert s.log[k] in s.log;
      ParsedMembers(s.rows, s.log[k]);
      assert false;
    }
  }

  /** Within one relay process, as long as no failed write takes effect unseen: under any mix of
      failing produces, commits, marks and hooks, what the process commits is exactly a prefix of the
      parseable rows pending at its start followed by those inserted since; what remains is its queue;
      and the ids offered, hence those committed, are strictly increasing. */
  lemma PublishedArePrefix<P>(s: State<P>, events: seq<Event<P>>, limit: int, transactional: bool) returns (n: nat)
    requires Sound(s) && s.sent == {} && Undisturbed(events)
    ensures var t := Exec(s, events, limit, transactional);
            var offered := Queue(s) + NewlyParsed(s, t);
            && n <= |offered|
            && t.log == s.log + offered[..n]
            && Queue(t) == offered[n..]
            && Ascending(offered)
  {
    LogAndQueueAreWhatWasOffered(s, events, limit, transactional);
    RunsAreSound(s, events, limit, transactional);
    n := OfferedSplits(s, Exec(s, events, limit, transactional));
  }

  lemma OfferedSplits<P>(s: State<P>, t: State<P>) returns (n: nat)
    requires Offered(s, t) && Increasing(s.rows) && Increasing(t.rows)
    ensures var offered := Queue(s) + NewlyParsed(s, t);
            n <= |offered| && t.log == s.log + offered[..n] && Queue(t) == offered[n..] && Ascending(offered)
  {
    var offered := Queue(s) + NewlyParsed(s, t);
    Reassociate(s.log, Queue(s), NewlyParsed(s, t));
    n := SplitAt(t.log, Queue(t), s.log, offered);
    OfferedAscends(s, t);
  }

  lemma OfferedAscends<P>(s: State<P>, t: State<P>)
    requires Increasing(s.rows) && Increasing(t.rows) && Parsed(s.rows) <= Parsed(t.rows)
    ensures Ascending(Queue(s) + NewlyParsed(s, t))
  {
    var queued, added := Queue(s), NewlyParsed(s, t);
    QueueIsSorted(s.rows, s.sent);
    ParsedIsSorted(t.rows);
    forall i, j | 0 <= i < |queued| && 0 <= j < |added|
      ensures queued[i].id < added[j].id
    {
      assert queued[i] in queued;
      QueueMembersAreRows(s.rows, s.sent, queued[i]);
      var k :| 0 <= k < |Parsed(s.rows)| && Parsed(s.rows)[k] == queued[i];
      assert Parsed(t.rows)[k] == queued[i];
      assert Parsed(t.rows)[|Parsed(s.rows)| + j] == added[j];
    }
  }

  /** The transaction of a poll takes effect at the broker: every send in it was acknowledged. */
  predicate Lands<P>(s: State<P>, limit: int, f: Faults) {
    f.begins && (forall i :: 0 <= i < |Batch(s, limit)| ==> f.send(i) == Acked) && f.commit != Lost
  }

  /** The batches whose transactions took effect, in order. */
  function LandedBatches<P>(s: State<P>, events: seq<Event<P>>, limit: int): seq<seq<OutboxRow<P>>> {
    if events == [] then []
    else
      var before := events[..|events| - 1];
      var e := events[|events| - 1];
      var mid := Exec(s, before, limit, true);
      LandedBatches(s, before, limit) + if e.PollOnce? && Lands(mid, limit, e.faults) then [Batch(mid, limit)] else []
  }

  function Joined<T>(parts: seq<seq<T>>): seq<T> {
    if parts == [] then [] else Joined(parts[..|parts| - 1]) + parts[|parts| - 1]
  }

  /** In transactional mode, over every run with any faults and restarts, the log has grown by whole
      batches, one for each transaction that took effect, and by nothing else. */
  lemma {:induction false} LogGrowsByWholeBatches<P>(s: State<P>, events: seq<Event<P>>, limit: int)
    ensures Exec(s, events, limit, true).log == s.log + Joined(LandedBatches(s, events, limit))
  {
    if events == [] {
      assert s.log + [] == s.log;
    } else {
      var before, e := events[..|events| - 1], events[|events| - 1];
      var mid, parts := Exec(s, before, limit, true), LandedBatches(s, before, limit);
      LogGrowsByWholeBatches(s, before, limit);
      if e.PollOnce? {
        var batch := Batch(mid, limit);
        TransactionIsWhole(mid, limit, e.faults);
        if Lands(mid, limit, e.faults) {
          assert (parts + [batch])[..|parts|] == parts;
          Reassociate(s.log, Joined(parts), batch);
        }
      }
      if !e.PollOnce? || !Lands(mid, limit, e.faults) {
        assert parts + [] == parts;
      }
    }
  }

  lemma TransactionIsWhole<P>(s: State<P>, limit: int, f: Faults)
    ensures Poll(s, limit, true, f).log == s.log + if Lands(s, limit, f) then Batch(s, limit) else []
  {
    assert s.log + [] == s.log;
  }

  // ---- What the return value says ----

  lemma {:induction false} HookRunStops(hooks: nat -> bool, i: nat, n: nat)
    requires i <= n
    ensures HookRun(hooks, i, n) == n <==> forall k :: i <= k < n ==> hooks(k)
    decreases n - i
  {
    if i < n {
      HookRunStops(hooks, i + 1, n);
    }
  }

  /** In transactional mode a poll returns 0 although it has committed its batch if and only if the commit took effect
      unseen, or was acknowledged and then the marking or some hook failed. */
  lemma ZeroHidesCommitIff<P>(s: State<P>, batch: seq<OutboxRow<P>>, f: Faults)
    requires batch != []
    ensures Publish(s, batch, true, f).1 == 0 && Publish(s, batch, true, f).0.log == s.log + batch
       <==> f.begins && (forall i :: 0 <= i < |batch| ==> f.send(i) == Acked) &&
            (f.commit == Landed ||
             (f.commit == Acked && (!f.marks(0) || exists i :: 0 <= i < |batch| && !f.hooks(i))))
    ensures Publish(s, batch, true, f).0.log == s.log || Publish(s, batch, true, f).0.log == s.log + batch
  {
    HookRunStops(f.hooks, 0, |batch|);
    assert |s.log + batch| != |s.log|;
  }

  /** Row i is sent, marked and accepted by the hook. */
  predicate Clean(f: Faults, i: nat) { f.send(i) == Acked && f.marks(i) && f.hooks(i) }

  lemma {:induction false} SendEachOutcome<P>(s: State<P>, batch: seq<OutboxRow<P>>, n: nat, f: Faults)
    requires n <= |batch|
    ensures SendEach(s, batch, n, f).1 <==> forall i: nat :: i < n ==> Clean(f, i)
    ensures s.log <= SendEach(s, batch, n, f).0.log
    ensures |SendEach(s, batch, n, f).0.log| > |s.log| <==> n > 0 && f.send(0) != Lost
  {
    if n > 0 {
      var m := n - 1;
      var (before, ok) := SendEach(s, batch, m, f);
      SendEachOutcome(s, batch, m, f);
      assert (forall i: nat :: i < n ==> Clean(f, i)) <==> (forall i: nat :: i < m ==> Clean(f, i)) && Clean(f, m);
      if ok {
        assert m > 0 ==> Clean(f, 0);
        assert SendEach(s, batch, n, f) == SendOne(before, batch[m], m, f);
      } else {
        assert SendEach(s, batch, n, f) == (before, false);
      }
    }
  }

  /** Row by row, a poll returns 0 although it has committed something if and only if the first send took
      effect and some row was not sent, marked and accepted; it never reports the rows before the failing
      one. */
  lemma ZeroHidesSendIff<P>(s: State<P>, batch: seq<OutboxRow<P>>, f: Faults)
    requires batch != []
    ensures Publish(s, batch, false, f).1 == 0 && Publish(s, batch, false, f).0.log != s.log
       <==> f.send(0) != Lost && exists i: nat :: i < |batch| && !Clean(f, i)
  {
    SendEachOutcome(s, batch, |batch|, f);
  }

  /** A row inserted while a poll is under way changes nothing for that poll: its batch is already read. */
  lemma {:induction false} InsertCommutesWithSends<P>(
    s: State<P>, r: Row<P>, batch: seq<OutboxRow<P>>, n: nat, f: Faults)
    requires n <= |batch| && r.id !in IdsOf(batch)
    ensures SendEach(Inserted(s, r), batch, n, f) ==
            (Inserted(SendEach(s, batch, n, f).0, r), SendEach(s, batch, n, f).1)
  {
    if n > 0 {
      InsertCommutesWithSends(s, r, batch, n - 1, f);
      var before := SendEach(s, batch, n - 1, f).0;
      assert batch[n - 1].id in IdsOf(batch);
      assert Marked(before.rows + [r], {batch[n - 1].id}) == Marked(before.rows, {batch[n - 1].id}) + [r];
    }
  }

  lemma InsertCommutesWithPublish<P>(
    s: State<P>, r: Row<P>, batch: seq<OutboxRow<P>>, transactional: bool, f: Faults)
    requires r.id !in IdsOf(batch)
    ensures Publish(Inserted(s, r), batch, transactional, f) ==
            (Inserted(Publish(s, batch, transactional, f).0, r), Publish(s, batch, transactional, f).1)
  {
    InsertCommutesWithSends(s, r, batch, |batch|, f);
    assert Marked(s.rows + [r], IdsOf(batch)) == Marked(s.rows, IdsOf(batch)) + [r];
  }

  // ---- Catching up ----

  function ChannelOf<P>(e: OutboxRow<P>): Channel { Channel(e.topic, e.key) }

  /** The last record of a topic and key. */
  function LastOn<P>(rs: seq<OutboxRow<P>>, ch: Channel): Option<OutboxRow<P>> {
    if rs == [] then None
    else if ChannelOf(rs[|rs| - 1]) == ch then Some(rs[|rs| - 1])
    else LastOn(rs[..|rs| - 1], ch)
  }

  lemma {:induction false} LastOnConcat<P>(a: seq<OutboxRow<P>>, b: seq<OutboxRow<P>>, ch: Channel)
    ensures LastOn(a + b, ch) == if LastOn(b, ch).Some? then LastOn(b, ch) else LastOn(a, ch)
  {
    if b == [] {
      assert a + b == a;
    } else {
      assert (a + b)[..|a + b| - 1] == a + b[..|b| - 1];
      LastOnConcat(a, b[..|b| - 1], ch);
    }
  }

  /** A latest-wins reader of the log sees, on every topic and key, the newest row there is. */
  ghost predicate CaughtUp<P(!new)>(s: State<P>) {
    forall ch :: LastOn(s.log, ch) == LastOn(Parsed(s.rows), ch)
  }

  /** Publishing the queue as it stands would bring every latest-wins reader up to date. */
  ghost predicate Aligned<P(!new)>(s: State<P>) {
    forall ch :: LastOn(s.log + Queue(s), ch) == LastOn(Parsed(s.rows), ch)
  }

  /** On every topic and key, if a parseable row is still pending, the newest row is. This can be read
      off the table before a restart. */
  ghost predicate RestartSafe<P(!new)>(rows: seq<Row<P>>) {
    forall ch :: LastOn(Parsed(Pending(rows)), ch).Some? ==>
      LastOn(Parsed(Pending(rows)), ch) == LastOn(Parsed(rows), ch)
  }

  lemma AlignedEmptyQueueIsCaughtUp<P(!new)>(s: State<P>)
    requires Queue(s) == []
    ensures Aligned(s) <==> CaughtUp(s)
  {
    assert s.log + [] == s.log;
  }

  /** Publishing a stretch of the queue without noticing does no harm: it is published again. */
  lemma LandedIsHarmless<P>(log: seq<OutboxRow<P>>, q: seq<OutboxRow<P>>, n: nat, landed: nat, ch: Channel)
    requires n + landed <= |q|
    ensures LastOn(log + q[..n + landed] + q[n..], ch) == LastOn(log + q, ch)
  {
    var a, b, c := q[..n], q[n..n + landed], q[n + landed..];
    assert q == a + b + c && q[..n + landed] == a + b && q[n..] == b + c;
    LastOnConcat(log + (a + b), b + c, ch);
    LastOnConcat(log, a + b, ch);
    LastOnConcat(a, b, ch);
    LastOnConcat(b, c, ch);
    LastOnConcat(log, a + b + c, ch);
    LastOnConcat(a + b, c, ch);
  }

  lemma ShapeKeepsAligned<P(!new)>(s: State<P>, t: State<P>, d: Did)
    requires Increasing(s.rows) && Aligned(s) && Shape(s, t, d)
    ensures Aligned(t)
  {
    ShapeAdvancesQueue(s, t, d);
    forall ch
      ensures LastOn(t.log + Queue(t), ch) == LastOn(Parsed(t.rows), ch)
    {
      LandedIsHarmless(s.log, Queue(s), d.n, d.landed, ch);
      assert LastOn(s.log + Queue(s), ch) == LastOn(Parsed(s.rows), ch);
    }
  }

  lemma InsertKeepsAligned<P(!new)>(s: State<P>, r: Row<P>)
    requires Sound(s) && Aligned(s) && !r.published
    requires forall i :: 0 <= i < |s.rows| ==> s.rows[i].id < r.id
    ensures Aligned(Inserted(s, r))
  {
    var t := Inserted(s, r);
    NewRowIsUnsent(s, r);
    QueueAppend(s.rows, r, s.sent);
    assert t.rows[..|s.rows|] == s.rows;
    var tail := if r.payload.Json? then [View(r)] else [];
    assert t.log + Queue(t) == (s.log + Queue(s)) + tail;
    forall ch
      ensures LastOn(t.log + Queue(t), ch) == LastOn(Parsed(t.rows), ch)
    {
      LastOnConcat(s.log + Queue(s), tail, ch);
      LastOnConcat(Parsed(s.rows), tail, ch);
    }
  }

  lemma {:induction false} FilterNothing<P>(rs: seq<OutboxRow<P>>)
    ensures Unsent(rs, {}) == rs
  {
    if rs != [] {
      FilterNothing(rs[..|rs| - 1]);
    }
  }

  lemma {:induction false} FilteredLast<P>(rs: seq<OutboxRow<P>>, sent: set<nat>, ch: Channel)
    ensures LastOn(Unsent(rs, sent), ch).Some? ==> LastOn(rs, ch).Some?
  {
    if rs != [] {
      FilteredLast(rs[..|rs| - 1], sent, ch);
      var kept := Unsent(rs, sent);
      if rs[|rs| - 1].id !in sent {
        assert kept[..|kept| - 1] == Unsent(rs[..|rs| - 1], sent);
      }
    }
  }

  /** A restart keeps the alignment exactly when it happens in a restart-safe state. */
  lemma RestartKeepsAlignedIffSafe<P(!new)>(s: State<P>)
    requires Aligned(s)
    ensures Aligned(Restarted(s)) <==> RestartSafe(s.rows)
  {
    var t := Restarted(s);
    var pending := Parsed(Pending(s.rows));
    FilterNothing(pending);
    assert Queue(t) == pending;
    forall ch
      ensures LastOn(pending, ch).None? ==> LastOn(t.log + pending, ch) == LastOn(Parsed(s.rows), ch)
      ensures LastOn(pending, ch).Some? ==> LastOn(t.log + pending, ch) == LastOn(pending, ch)
    {
      LastOnConcat(s.log, pending, ch);
      LastOnConcat(s.log, Queue(s), ch);
      FilteredLast(pending, s.sent, ch);
      assert LastOn(s.log + Queue(s), ch) == LastOn(Parsed(s.rows), ch);
    }
    if RestartSafe(s.rows) {
      forall ch
        ensures LastOn(t.log + Queue(t), ch) == LastOn(Parsed(t.rows), ch)
      {
        assert LastOn(pending, ch).Some? ==> LastOn(pending, ch) == LastOn(Parsed(s.rows), ch);
      }
    } else {
      var ch :| LastOn(pending, ch).Some? && LastOn(pending, ch) != LastOn(Parsed(s.rows), ch);
      assert LastOn(t.log + Queue(t), ch) != LastOn(Parsed(t.rows), ch);
    }
  }

  /** Every restart of the run happens in a restart-safe state. */
  ghost predicate SafeRestarts<P(!new)>(s: State<P>, events: seq<Event<P>>, limit: int, transactional: bool) {
    forall i :: 0 <= i < |events| && events[i].Restart? ==>
      RestartSafe(Exec(s, events[..i], limit, transactional).rows)
  }

  /** Across any number of safe restarts and under any faults, also those that land unseen and cause
      republished blocks: whenever this process has nothing left to publish, every latest-wins reader
      of the log is up to date. */
  lemma {:induction false} ConvergesDespiteRepublication<P(!new)>(
    s: State<P>, events: seq<Event<P>>, limit: int, transactional: bool)
    requires Sound(s) && Aligned(s)
    requires SafeRestarts(s, events, limit, transactional)
    ensures Aligned(Exec(s, events, limit, transactional))
    ensures Queue(Exec(s, events, limit, transactional)) == [] ==> CaughtUp(Exec(s, events, limit, transactional))
  {
    if events != [] {
      var prefix := events[..|events| - 1];
      var before := Exec(s, prefix, limit, transactional);
      assert forall i :: 0 <= i < |prefix| ==> prefix[..i] == events[..i];
      ConvergesDespiteRepublication(s, prefix, limit, transactional);
      RunsAreSound(s, prefix, limit, transactional);
      match events[|events| - 1]
      case Insert(gap, topic, key, payload) =>
        NextIdIsNew(before.rows, gap);
        InsertKeepsAligned(before, Row(NextId(before.rows, gap), topic, key, payload, false));
      case PollOnce(f) =>
        var d := PollShape(before, limit, transactional, f);
        ShapeKeepsAligned(before, Poll(before, limit, transactional, f), d);
      case Restart =>
        RestartKeepsAlignedIffSafe(before);
    }
    var t := Exec(s, events, limit, transactional);
    if Queue(t) == [] {
      AlignedEmptyQueueIsCaughtUp(t);
    }
  }

  // ---- Draining ----

  const NO_FAULTS := Faults(true, i => Acked, Acked, i => true, i => true)

  /** Pending rows the relay will never publish: unparseable, or dispatched but not marked. */
  function Stuck<P>(s: State<P>): nat { CountStuck(s.rows, s.sent) }

  function CountStuck<P>(rows: seq<Row<P>>, sent: set<nat>): nat {
    if rows == [] then 0
    else
      var last := rows[|rows| - 1];
      CountStuck(rows[..|rows| - 1], sent) + if !last.published && !Waits(last, sent) then 1 else 0
  }

  lemma {:induction false} HooksAllRun(hooks: nat -> bool, i: nat, n: nat)
    requires i <= n && forall k :: 0 <= k < n ==> hooks(k)
    ensures HookRun(hooks, i, n) == n
    decreases n - i
  {
    if i < n {
      HooksAllRun(hooks, i + 1, n);
    }
  }

  lemma {:induction false} SendEachClean<P>(s: State<P>, batch: seq<OutboxRow<P>>, n: nat)
    requires n <= |batch|
    ensures var (t, ok) := SendEach(s, batch, n, NO_FAULTS);
            ok && t.log == s.log + batch[..n] && t.sent == s.sent + IdsOf(batch[..n]) &&
            t.rows == Marked(s.rows, IdsOf(batch[..n])) && t.hooked == s.hooked + FirstIds(batch, n)
  {
    if n == 0 {
      MarkedNone(s.rows);
      assert IdsOf(batch[..0]) == {};
      assert s.log + batch[..0] == s.log && s.hooked + FirstIds(batch, 0) == s.hooked;
    } else {
      assert FirstIds(batch, n) == FirstIds(batch, n - 1) + [batch[n - 1].id];
      Reassociate(s.hooked, FirstIds(batch, n - 1), [batch[n - 1].id]);
      SendEachClean(s, batch, n - 1);
      assert batch[..n] == batch[..n - 1] + [batch[n - 1]];
      IdsOfAppend(batch[..n - 1], batch[n - 1]);
      MarkedTwice(s.rows, IdsOf(batch[..n - 1]), {batch[n - 1].id});
    }
  }

  /** A poll without faults commits, remembers and marks its whole batch, and calls the hook once for each
      of its rows, in order, in either mode. */
  lemma CleanPoll<P>(s: State<P>, limit: int, transactional: bool)
    ensures var t, batch := Poll(s, limit, transactional, NO_FAULTS), Batch(s, limit);
            && t.log == s.log + batch && t.sent == s.sent + IdsOf(batch)
            && t.rows == Marked(s.rows, IdsOf(batch)) && t.hooked == s.hooked + FirstIds(batch, |batch|)
    ensures Publish(s, Batch(s, limit), transactional, NO_FAULTS).1 == |Batch(s, limit)|
  {
    var batch := Batch(s, limit);
    assert batch[..|batch|] == batch;
    SendEachClean(s, batch, |batch|);
    HooksAllRun(NO_FAULTS.hooks, 0, |batch|);
    MarkedNone(s.rows);
    if batch == [] {
      assert IdsOf(batch) == {} && s.hooked + FirstIds(batch, 0) == s.hooked;
    }
  }

  lemma {:induction false} PendingAreQueuedOrStuck<P>(rows: seq<Row<P>>, sent: set<nat>)
    ensures |Pending(rows)| == |QueueOf(rows, sent)| + CountStuck(rows, sent)
  {
    if rows != [] {
      var n := |rows| - 1;
      PendingAreQueuedOrStuck(rows[..n], sent);
      assert rows == rows[..n] + [rows[n]];
      QueueAppend(rows[..n], rows[n], sent);
    }
  }

  lemma {:induction false} QueuedIdsWait<P>(rows: seq<Row<P>>, sent: set<nat>, i: nat)
    requires Increasing(rows) && i < |rows| && rows[i].id in IdsOf(QueueOf(rows, sent))
    ensures Waits(rows[i], sent)
  {
    var n := |rows| - 1;
    assert rows == rows[..n] + [rows[n]];
    QueueAppend(rows[..n], rows[n], sent);
    var before, q := QueueOf(rows[..n], sent), QueueOf(rows, sent);
    var k :| 0 <= k < |q| && q[k].id == rows[i].id;
    QueueIsSorted(rows[..n], sent);
    if k < |before| {
      assert before[k] in before;
      assert before[k].id == rows[..n][i].id;
      QueuedIdsWait(rows[..n], sent, i);
    } else {
      assert i == n;
    }
  }

  /** Publishing and marking waiting rows leaves the stuck rows as they were. */
  lemma {:induction false} StuckStayStuck<P>(rows: seq<Row<P>>, sent: set<nat>, ids: set<nat>)
    requires forall i :: 0 <= i < |rows| && rows[i].id in ids ==> Waits(rows[i], sent)
    ensures CountStuck(Marked(rows, ids), sent + ids) == CountStuck(rows, sent)
  {
    if rows != [] {
      var n := |rows| - 1;
      StuckStayStuck(rows[..n], sent, ids);
      assert Marked(rows, ids)[..n] == Marked(rows[..n], ids);
    }
  }

  /** What one fault-free poll achieves: it publishes all that is queued, or at least `limit` less the
      stuck rows, from the front of the queue; the stuck rows stay as many. */
  ghost predicate DrainStep<P>(s: State<P>, t: State<P>, limit: nat) {
    && t.log + Queue(t) == s.log + Queue(s)
    && Parsed(t.rows) == Parsed(s.rows)
    && Stuck(t) == Stuck(s)
    && (Queue(t) == [] || |Queue(s)| - |Queue(t)| >= limit - Stuck(s))
  }

  lemma BatchLeavesStuck<P>(s: State<P>, limit: nat)
    requires Increasing(s.rows)
    ensures CountStuck(Marked(s.rows, IdsOf(Batch(s, limit))), s.sent + IdsOf(Batch(s, limit))) == Stuck(s)
  {
    var batch, q := Batch(s, limit), Queue(s);
    var rest := BatchIsPrefix(s, limit);
    forall i | 0 <= i < |s.rows| && s.rows[i].id in IdsOf(batch)
      ensures Waits(s.rows[i], s.sent)
    {
      var k :| 0 <= k < |batch| && batch[k].id == s.rows[i].id;
      assert q[k].id == s.rows[i].id;
      QueuedIdsWait(s.rows, s.sent, i);
    }
    StuckStayStuck(s.rows, s.sent, IdsOf(batch));
  }

  /** The batch is the whole queue, or at least `limit` less the stuck rows. */
  lemma BatchSize<P>(s: State<P>, limit: nat)
    ensures Batch(s, limit) <= Queue(s) && |Batch(s, limit)| <= limit
    ensures Batch(s, limit) == Queue(s) || |Batch(s, limit)| >= limit - Stuck(s)
  {
    var rest := BatchIsPrefix(s, limit);
    PendingAreQueuedOrStuck(s.rows, s.sent);
    assert |Queue(s)| == |Batch(s, limit)| + |rest|;
    if rest == [] {
      assert Batch(s, limit) + [] == Batch(s, limit);
    }
  }

  lemma BatchLeavesQueue<P>(s: State<P>, t: State<P>, batch: seq<OutboxRow<P>>)
    requires Increasing(s.rows) && batch <= Queue(s)
    requires t.sent == s.sent + IdsOf(batch) && t.rows == Marked(s.rows, IdsOf(batch))
    ensures Queue(t) == Queue(s)[|batch|..] && Parsed(t.rows) == Parsed(s.rows)
  {
    assert Queue(s)[..|batch|] == batch;
    DispatchAdvancesQueue(s.rows, s.sent, |batch|);
    MarkingKeepsQueue(s.rows, IdsOf(batch), t.sent);
    MarkingKeepsParsed(s.rows, IdsOf(batch));
  }

  lemma DrainRate<P>(s: State<P>, t: State<P>, limit: nat, batch: seq<OutboxRow<P>>)
    requires Increasing(s.rows) && batch == Batch(s, limit)
    requires t.log == s.log + batch && t.sent == s.sent + IdsOf(batch) && t.rows == Marked(s.rows, IdsOf(batch))
    ensures DrainStep(s, t, limit)
  {
    BatchSize(s, limit);
    BatchLeavesQueue(s, t, batch);
    BatchLeavesStuck(s, limit);
    Regroup(s.log, batch, Queue(s));
  }

  lemma Regroup<T>(log: seq<T>, batch: seq<T>, q: seq<T>)
    requires batch <= q
    ensures log + batch + q[|batch|..] == log + q
    ensures batch == q ==> q[|batch|..] == []
    ensures |q| - |q[|batch|..]| == |batch|
  {
  }

  /** Consecutive states of a relay that polls without faults. */
  ghost predicate CleanPolls<P>(states: seq<State<P>>, limit: int, transactional: bool) {
    && |states| > 0
    && forall i :: 0 <= i < |states| - 1 ==> states[i + 1] == Poll(states[i], limit, transactional, NO_FAULTS)
  }

  lemma {:induction false} CleanPollsStep<P>(states: seq<State<P>>, i: nat, limit: nat, transactional: bool)
    requires CleanPolls(states, limit, transactional) && Increasing(states[0].rows) && i < |states|
    ensures Increasing(states[i].rows)
    ensures i > 0 ==> DrainStep(states[i - 1], states[i], limit)
  {
    if i > 0 {
      CleanPollsStep(states, i - 1, limit, transactional);
      CleanPoll(states[i - 1], limit, transactional);
      DrainRate(states[i - 1], states[i], limit, Batch(states[i - 1], limit));
    }
  }

  lemma {:induction false} DrainSteps<P>(states: seq<State<P>>, n: nat, limit: nat)
    requires n < |states| && Stuck(states[0]) < limit
    requires forall i :: 0 <= i < n ==> DrainStep(states[i], states[i + 1], limit)
    ensures states[n].log + Queue(states[n]) == states[0].log + Queue(states[0])
    ensures Parsed(states[n].rows) == Parsed(states[0].rows) && Stuck(states[n]) == Stuck(states[0])
    ensures |Queue(states[n])| <= Max(0, |Queue(states[0])| - n * (limit - Stuck(states[0])))
  {
    var rate := limit - Stuck(states[0]);
    if n == 0 {
      assert 0 * rate == 0;
    } else {
      DrainSteps(states, n - 1, limit);
      assert DrainStep(states[n - 1], states[n], limit);
      Remaining(|Queue(states[0])|, |Queue(states[n - 1])|, |Queue(states[n])|, n - 1, rate);
    }
  }

  lemma Remaining(total: nat, before: nat, after: nat, n: nat, rate: nat)
    requires before <= Max(0, total - n * rate) && (after == 0 || before - after >= rate)
    ensures after <= Max(0, total - (n + 1) * rate)
  {
    assert (n + 1) * rate == n * rate + rate;
  }

  /** Fault-free polls publish the queue in order: after `n` of them, at least `n * (limit - stuck)`
      rows, or all of it. So with fewer stuck rows than the batch size, `u` queued rows are gone after
      ceil(u / (limit - stuck)) polls. */
  lemma Drains<P>(states: seq<State<P>>, limit: nat, transactional: bool)
    requires CleanPolls(states, limit, transactional) && Increasing(states[0].rows)
    requires Stuck(states[0]) < limit
    ensures var s, n := states[0], |states| - 1;
            var t := states[n];
            && t.log + Queue(t) == s.log + Queue(s)
            && Parsed(t.rows) == Parsed(s.rows) && Stuck(t) == Stuck(s)
            && |Queue(t)| <= Max(0, |Queue(s)| - n * (limit - Stuck(s)))
  {
    forall i | 0 <= i < |states| - 1
      ensures DrainStep(states[i], states[i + 1], limit)
    {
      CleanPollsStep(states, i + 1, limit, transactional);
    }
    DrainSteps(states, |states| - 1, limit);
  }

  /** Wherever nothing is pending, the log already ends in the newest row. Unlike `RestartSafe`, this also
      reads the log. */
  ghost predicate DrainedAreCurrent<P(!new)>(s: State<P>) {
    forall ch :: LastOn(Parsed(Pending(s.rows)), ch).None? ==> LastOn(s.log, ch) == LastOn(Parsed(s.rows), ch)
  }

  /** A latest-wins reader of `log` sees the newest of `rows` on every topic and key. */
  ghost predicate ShowsNewest<P(!new)>(log: seq<OutboxRow<P>>, rows: seq<OutboxRow<P>>) {
    forall ch :: LastOn(log, ch) == LastOn(rows, ch)
  }

  /** Publishing all that is pending brings every latest-wins reader up to date exactly under the two conditions. */
  lemma PendingCatchesUpIff<P(!new)>(s: State<P>)
    ensures ShowsNewest(s.log + Parsed(Pending(s.rows)), Parsed(s.rows))
       <==> RestartSafe(s.rows) && DrainedAreCurrent(s)
  {
    var pending := Parsed(Pending(s.rows));
    forall ch
      ensures LastOn(s.log + pending, ch) ==
              if LastOn(pending, ch).Some? then LastOn(pending, ch) else LastOn(s.log, ch)
    {
      LastOnConcat(s.log, pending, ch);
    }
    if ShowsNewest(s.log + pending, Parsed(s.rows)) {
      forall ch
        ensures LastOn(pending, ch).Some? ==> LastOn(pending, ch) == LastOn(Parsed(s.rows), ch)
        ensures LastOn(pending, ch).None? ==> LastOn(s.log, ch) == LastOn(Parsed(s.rows), ch)
      {
        assert LastOn(s.log + pending, ch) == LastOn(Parsed(s.rows), ch);
      }
    } else {
      var ch :| LastOn(s.log + pending, ch) != LastOn(Parsed(s.rows), ch);
      assert LastOn(pending, ch).Some? || LastOn(s.log, ch) != LastOn(Parsed(s.rows), ch);
    }
  }

  /** The main result on restarts. Take any run state `s`, whatever restarts and failures led there, restart
      the relay, and let it poll without faults until the queue is empty. Then the latest-wins readers are
      up to date if and only if, on every topic and key, the last pending row is the newest, or nothing is
      pending and the log ends in the newest. */
  lemma CatchesUpIff<P(!new)>(s: State<P>, states: seq<State<P>>, limit: nat, transactional: bool)
    requires Sound(s)
    requires CleanPolls(states, limit, transactional) && states[0] == Restarted(s)
    requires Stuck(Restarted(s)) < limit
    requires (|states| - 1) * (limit - Stuck(Restarted(s))) >= |Queue(Restarted(s))|
    ensures var t := states[|states| - 1];
            Queue(t) == [] && (CaughtUp(t) <==> RestartSafe(s.rows) && DrainedAreCurrent(s))
  {
    var r, t := Restarted(s), states[|states| - 1];
    Drains(states, limit, transactional);
    FilterNothing(Parsed(Pending(s.rows)));
    assert Queue(t) == [] && t.log + [] == t.log;
    assert t.log == s.log + Parsed(Pending(s.rows));
    PendingCatchesUpIff(s);
    assert CaughtUp(t) <==> ShowsNewest(t.log, Parsed(s.rows));
  }

  /** As long as every restart so far was safe, the second condition holds by itself, and the first, which
      can be read off the table, decides. */
  lemma CatchesUpIffRestartSafe<P(!new)>(
    events: seq<Event<P>>, s: State<P>, states: seq<State<P>>, limit: nat, transactional: bool)
    requires s == Exec(Initial<P>(), events, limit, transactional)
    requires SafeRestarts(Initial<P>(), events, limit, transactional)
    requires CleanPolls(states, limit, transactional) && states[0] == Restarted(s)
    requires Stuck(Restarted(s)) < limit
    requires (|states| - 1) * (limit - Stuck(Restarted(s))) >= |Queue(Restarted(s))|
    ensures var t := states[|states| - 1]; Queue(t) == [] && (CaughtUp(t) <==> RestartSafe(s.rows))
  {
    InitialIsSound<P>();
    RunsAreSound(Initial<P>(), events, limit, transactional);
    ConvergesDespiteRepublication(Initial<P>(), events, limit, transactional);
    CatchesUpIff(s, states, limit, transactional);
    AlignedIsCurrentWhereDrained(s);
  }

  lemma InitialIsSound<P(!new)>()
    ensures Sound(Initial<P>()) && Aligned(Initial<P>()) && Queue(Initial<P>()) == []
  {
  }

  lemma AlignedIsCurrentWhereDrained<P(!new)>(s: State<P>)
    requires Aligned(s)
    ensures DrainedAreCurrent(s)
  {
    forall ch | LastOn(Parsed(Pending(s.rows)), ch).None?
      ensures LastOn(s.log, ch) == LastOn(Parsed(s.rows), ch)
    {
      FilteredLast(Parsed(Pending(s.rows)), s.sent, ch);
      LastOnConcat(s.log, Queue(s), ch);
      assert LastOn(s.log + Queue(s), ch) == LastOn(Parsed(s.rows), ch);
    }
  }

  /** When the first `limit` pending rows are all stuck, this process publishes nothing ever again,
      whatever is inserted behind them. */
  lemma {:induction false} BlockedForever<P>(s: State<P>, events: seq<Event<P>>, limit: nat, transactional: bool)
    requires |Pending(s.rows)| >= limit && Batch(s, limit) == []
    requires forall e :: e in events ==> !e.Restart?
    ensures var t := Exec(s, events, limit, transactional);
            t.log == s.log && Batch(t, limit) == [] && t.sent == s.sent && Pending(s.rows) <= Pending(t.rows)
  {
    if events != [] {
      BlockedForever(s, events[..|events| - 1], limit, transactional);
      var e := events[|events| - 1];
      assert e in events;
      if e.Insert? {
        var mid := Exec(s, events[..|events| - 1], limit, transactional);
        var r := Row(NextId(mid.rows, e.gap), e.topic, e.key, e.payload, false);
        FilterConcat(Unpublished<P>(), mid.rows, [r]);
        assert Take(Pending(mid.rows + [r]), limit) == Take(Pending(mid.rows), limit);
      }
    }
  }

  // ---- A stale republication ----

  const MARK_FAILS := NO_FAULTS.(marks := i => false)

  /** One event of a transactional relay with the default batch size. */
  ghost predicate Leads<P>(s: State<P>, e: Event<P>, t: State<P>) { Apply(s, e, 10, true) == t }

  lemma ShortQueueIsBatch<P>(s: State<P>)
    requires |s.rows| <= 10
    ensures Batch(s, 10) == Queue(s)
  {
  }

  lemma QueueOfOne<P>(r: Row<P>, sent: set<nat>)
    ensures QueueOf([r], sent) == if Waits(r, sent) then [View(r)] else []
  {
    QueueAppend([], r, sent);
    assert [] + [r] == [r];
  }

  lemma QueueOfTwo<P>(r1: Row<P>, r2: Row<P>, sent: set<nat>)
    ensures QueueOf([r1, r2], sent) ==
            (if Waits(r1, sent) then [View(r1)] else []) + (if Waits(r2, sent) then [View(r2)] else [])
  {
    QueueOfOne(r1, sent);
    QueueAppend([r1], r2, sent);
    assert [r1] + [r2] == [r1, r2];
  }

  lemma IdsOfOne<P>(r: OutboxRow<P>)
    ensures IdsOf([r]) == {r.id}
  {
    assert [r][0].id == r.id;
  }

  lemma MarkFails<P>(s: State<P>, t: State<P>, r: OutboxRow<P>)
    requires Batch(s, 10) == [r]
    requires t == s.(log := s.log + [r], sent := s.sent + {r.id})
    ensures Leads(s, PollOnce(MARK_FAILS), t)
  {
    IdsOfOne(r);
  }

  lemma MarkSucceeds<P>(s: State<P>, t: State<P>, r: OutboxRow<P>)
    requires Batch(s, 10) == [r]
    requires t == s.(log := s.log + [r], sent := s.sent + {r.id},
                     rows := Marked(s.rows, {r.id}), hooked := s.hooked + [r.id])
    ensures Leads(s, PollOnce(NO_FAULTS), t)
  {
    IdsOfOne(r);
    HooksAllRun(NO_FAULTS.hooks, 0, 1);
    assert FirstIds([r], 1) == [r.id];
  }

  /** A row whose mark failed after its commit: dispatched, committed, still pending. */
  function StuckState<P>(topic: string, key: string, older: P): State<P> {
    State([Row(1, topic, Some(key), Json(older), false)], {1}, [OutboxRow(1, topic, Some(key), older)], [])
  }

  lemma StuckStateIsReachable<P>(topic: string, key: string, older: P) returns (s: State<P>)
    ensures Leads(Initial<P>(), Insert(0, topic, Some(key), Json(older)), s)
    ensures Leads(s, PollOnce(MARK_FAILS), StuckState(topic, key, older))
  {
    var r1 := Row(1, topic, Some(key), Json(older), false);
    s := State([r1], {}, [], []);
    InsertLeads(Initial<P>(), topic, key, older);
    FirstMarkFails(r1);
  }

  /** A newer row of the same topic and key is then published and marked: the table is no longer
      restart-safe. */
  lemma UnsafeStateIsReachable<P>(topic: string, key: string, older: P, newer: P) returns (s: State<P>)
    ensures Leads(StuckState(topic, key, older), Insert(0, topic, Some(key), Json(newer)), s)
    ensures Leads(s, PollOnce(NO_FAULTS), UnsafeState(topic, key, older, newer))
  {
    var r1, r2 := Row(1, topic, Some(key), Json(older), false), Row(2, topic, Some(key), Json(newer), false);
    s := State([r1, r2], {1}, [View(r1)], []);
    InsertLeads(StuckState(topic, key, older), topic, key, newer);
    SecondIsMarked(r1, r2);
  }

  function UnsafeState<P>(topic: string, key: string, older: P, newer: P): State<P> {
    var a, b := OutboxRow(1, topic, Some(key), older), OutboxRow(2, topic, Some(key), newer);
    State([Row(1, topic, Some(key), Json(older), false), Row(2, topic, Some(key), Json(newer), true)],
          {1, 2}, [a, b], [2])
  }

  /** From there a restart and one clean poll publish and mark the first row again: nothing is pending,
      and the last record of the key is the older one. The table is restart-safe again, but no later
      restart mends the log. */
  lemma StaleRepublication<P(!new)>(topic: string, key: string, older: P, newer: P) returns (t: State<P>)
    ensures Leads(Restarted(UnsafeState(topic, key, older, newer)), PollOnce(NO_FAULTS), t)
    ensures Pending(t.rows) == [] && RestartSafe(t.rows) && !DrainedAreCurrent(t)
    ensures LastOn(t.log, Channel(topic, Some(key))) == Some(OutboxRow(1, topic, Some(key), older))
    ensures LastOn(Parsed(t.rows), Channel(topic, Some(key))) == Some(OutboxRow(2, topic, Some(key), newer))
  {
    var r1, d2 := Row(1, topic, Some(key), Json(older), false), Row(2, topic, Some(key), Json(newer), true);
    var d1 := r1.(published := true);
    t := State([d1, d2], {1}, [View(r1), View(d2), View(r1)], [1]);
    FirstIsRepublished(r1, d2);
    ParsedOfTwo(d1, d2);
    LastOfLog(View(r1), View(d2));
    NonePending(d1, d2);
  }

  lemma InsertLeads<P>(s: State<P>, topic: string, key: string, payload: P)
    requires s.rows == [] || s.rows[|s.rows| - 1].id == |s.rows|
    ensures var r := Row(|s.rows| + 1, topic, Some(key), Json(payload), false);
            Leads(s, Insert(0, topic, Some(key), Json(payload)), s.(rows := s.rows + [r]))
  {
  }

  lemma FirstMarkFails<P>(r1: Row<P>)
    requires r1.id == 1 && r1.payload.Json? && !r1.published
    ensures Leads(State([r1], {}, [], []), PollOnce(MARK_FAILS), State([r1], {1}, [View(r1)], []))
  {
    var s := State([r1], {}, [], []);
    QueueOfOne(r1, {});
    ShortQueueIsBatch(s);
    assert s.log + [View(r1)] == [View(r1)] && s.sent + {1} == {1};
    MarkFails(s, State([r1], {1}, [View(r1)], []), View(r1));
  }

  lemma SecondIsMarked<P>(r1: Row<P>, r2: Row<P>)
    requires r1.id == 1 && r1.payload.Json? && !r1.published && r2.id == 2 && r2.payload.Json? && !r2.published
    ensures Leads(State([r1, r2], {1}, [View(r1)], []), PollOnce(NO_FAULTS),
                  State([r1, r2.(published := true)], {1, 2}, [View(r1), View(r2)], [2]))
  {
    var s := State([r1, r2], {1}, [View(r1)], []);
    QueueOfTwo(r1, r2, {1});
    ShortQueueIsBatch(s);
    assert Marked([r1, r2], {2}) == [r1, r2.(published := true)];
    MarkSucceeds(s, State([r1, r2.(published := true)], {1, 2}, [View(r1), View(r2)], [2]), View(r2));
  }

  lemma FirstIsRepublished<P>(r1: Row<P>, r2: Row<P>)
    requires r1.id == 1 && r1.payload.Json? && !r1.published && r2.id == 2 && r2.payload.Json?
    ensures var d1, d2 := r1.(published := true), r2.(published := true);
            Leads(State([r1, d2], {}, [View(r1), View(r2)], []), PollOnce(NO_FAULTS),
                  State([d1, d2], {1}, [View(r1), View(r2), View(r1)], [1]))
  {
    var d1, d2 := r1.(published := true), r2.(published := true);
    var s := State([r1, d2], {}, [View(r1), View(r2)], []);
    QueueOfTwo(r1, d2, {});
    ShortQueueIsBatch(s);
    assert Marked([r1, d2], {1}) == [d1, d2];
    MarkSucceeds(s, State([d1, d2], {1}, [View(r1), View(r2), View(r1)], [1]), View(r1));
  }

  lemma NonePending<P>(r1: Row<P>, r2: Row<P>)
    requires r1.published && r2.published
    ensures Pending([r1, r2]) == []
  {
    FilterOne(Unpublished<P>(), r1);
    FilterOne(Unpublished<P>(), r2);
    FilterConcat(Unpublished<P>(), [r1], [r2]);
    assert [r1] + [r2] == [r1, r2];
  }

  lemma ParsedOfTwo<P>(r1: Row<P>, r2: Row<P>)
    requires r1.payload.Json? && r2.payload.Json?
    ensures Parsed([r1, r2]) == [View(r1), View(r2)]
  {
    ParsedOne(r1);
    ParsedOne(r2);
    ParsedConcat([r1], [r2]);
    assert [r1] + [r2] == [r1, r2];
  }

  lemma LastOfLog<P>(a: OutboxRow<P>, b: OutboxRow<P>)
    requires ChannelOf(a) == ChannelOf(b)
    ensures LastOn([a, b, a], ChannelOf(a)) == Some(a) && LastOn([a, b], ChannelOf(a)) == Some(b)
  {
  }
}
