/**
 Facts about the relay's queue: what is pending, parseable and not yet dispatched, in id order.
 Every poll, whatever fails, removes a prefix of the queue (`Shape`).
 */
module OutboxQueue {
  import opened Prelude
  import opened Outbox

  function QueueOf<P>(rows: seq<Row<P>>, sent: set<nat>): seq<OutboxRow<P>> {
    Unsent(Parsed(Pending(rows)), sent)
  }

  predicate Waits<P>(r: Row<P>, sent: set<nat>) {
    !r.published && r.payload.Json? && r.id !in sent
  }

  predicate Ascending<P>(rs: seq<OutboxRow<P>>) {
    forall i, j :: 0 <= i < j < |rs| ==> rs[i].id < rs[j].id
  }

  lemma {:induction false} ParsedConcat<P>(a: seq<Row<P>>, b: seq<Row<P>>)
    ensures Parsed(a + b) == Parsed(a) + Parsed(b)
  {
    if b == [] {
      assert a + b == a;
    } else {
      assert (a + b)[..|a + b| - 1] == a + b[..|b| - 1];
      ParsedConcat(a, b[..|b| - 1]);
    }
  }

  lemma ParsedOne<P>(r: Row<P>)
    ensures Parsed([r]) == if r.payload.Json? then [View(r)] else []
  {
    assert [r][..0] == [];
  }

  lemma FilterOne<T>(keep: T -> bool, x: T)
    ensures Filter(keep, [x]) == if keep(x) then [x] else []
  {
    assert [x][..0] == [];
  }

  /** A row added at the end joins the queue at the end, if it waits. */
  lemma QueueAppend<P>(rows: seq<Row<P>>, r: Row<P>, sent: set<nat>)
    ensures QueueOf(rows + [r], sent) == QueueOf(rows, sent) + if Waits(r, sent) then [View(r)] else []
  {
    FilterConcat(Unpublished<P>(), rows, [r]);
    FilterOne(Unpublished<P>(), r);
    if r.published {
      assert Pending(rows + [r]) == Pending(rows);
    } else {
      ParsedConcat(Pending(rows), [r]);
      ParsedOne(r);
      FilterConcat(Fresh<P>(sent), Parsed(Pending(rows)), Parsed([r]));
      if r.payload.Json? {
        FilterOne(Fresh<P>(sent), View(r));
      }
    }
  }

  /** The batch is the front of the queue. */
  lemma BatchIsPrefix<P>(s: State<P>, limit: int) returns (rest: seq<OutboxRow<P>>)
    ensures Queue(s) == Batch(s, limit) + rest
    ensures |rest| <= |Pending(s.rows)| - |Take(Pending(s.rows), limit)|
  {
    var window := Take(Pending(s.rows), limit);
    var beyond := Pending(s.rows)[|window|..];
    assert Pending(s.rows) == window + beyond;
    ParsedConcat(window, beyond);
    FilterConcat(Fresh<P>(s.sent), Parsed(window), Parsed(beyond));
    rest := Unsent(Parsed(beyond), s.sent);
  }

  /** Queue entries are rows of the table that wait, in ascending id order. */
  lemma {:induction false} QueueIsSorted<P>(rows: seq<Row<P>>, sent: set<nat>)
    requires Increasing(rows)
    ensures Ascending(QueueOf(rows, sent))
    ensures forall q :: q in QueueOf(rows, sent) ==> q.id !in sent && rows != [] && q.id <= rows[|rows| - 1].id
  {
    if rows != [] {
      var n := |rows| - 1;
      QueueIsSorted(rows[..n], sent);
      QueueAppend(rows[..n], rows[n], sent);
      assert rows[..n] + [rows[n]] == rows;
      var before := QueueOf(rows[..n], sent);
      forall i | 0 <= i < |before|
        ensures before[i].id < rows[n].id
      {
        assert before[i] in before;
      }
    }
  }

  lemma {:induction false} ParsedIsSorted<P>(rows: seq<Row<P>>)
    requires Increasing(rows)
    ensures Ascending(Parsed(rows))
    ensures forall q :: q in Parsed(rows) ==> rows != [] && q.id <= rows[|rows| - 1].id
  {
    if rows != [] {
      var n := |rows| - 1;
      ParsedIsSorted(rows[..n]);
      var before := Parsed(rows[..n]);
      forall i | 0 <= i < |before|
        ensures before[i].id < rows[n].id
      {
        assert before[i] in before;
      }
    }
  }

  lemma {:induction false} ParsedMembers<P>(rows: seq<Row<P>>, e: OutboxRow<P>)
    ensures e in Parsed(rows) <==> exists i :: 0 <= i < |rows| && rows[i].payload.Json? && View(rows[i]) == e
  {
    if rows != [] {
      var n := |rows| - 1;
      ParsedMembers(rows[..n], e);
      if exists i :: 0 <= i < |rows| && rows[i].payload.Json? && View(rows[i]) == e {
        var i :| 0 <= i < |rows| && rows[i].payload.Json? && View(rows[i]) == e;
        if i < n {
          assert rows[..n][i] == rows[i];
        }
      }
    }
  }

  /** Marking rows changes neither which rows there are nor what they hold. */
  lemma {:induction false} MarkingKeepsParsed<P>(rows: seq<Row<P>>, ids: set<nat>)
    ensures Parsed(Marked(rows, ids)) == Parsed(rows)
  {
    if rows != [] {
      var n := |rows| - 1;
      MarkingKeepsParsed(rows[..n], ids);
      assert Marked(rows, ids)[..n] == Marked(rows[..n], ids);
    }
  }

  /** Marking dispatched rows does not change the queue. */
  lemma {:induction false} MarkingKeepsQueue<P>(rows: seq<Row<P>>, ids: set<nat>, sent: set<nat>)
    requires ids <= sent
    ensures QueueOf(Marked(rows, ids), sent) == QueueOf(rows, sent)
  {
    if rows != [] {
      var n := |rows| - 1;
      var marked := Marked(rows, ids);
      MarkingKeepsQueue(rows[..n], ids, sent);
      assert marked[..n] == Marked(rows[..n], ids);
      assert marked == marked[..n] + [marked[n]] && rows == rows[..n] + [rows[n]];
      QueueAppend(rows[..n], rows[n], sent);
      QueueAppend(marked[..n], marked[n], sent);
    }
  }

  lemma MarkedTwice<P>(rows: seq<Row<P>>, a: set<nat>, b: set<nat>)
    ensures Marked(Marked(rows, a), b) == Marked(rows, a + b)
  {
  }

  lemma MarkedNone<P>(rows: seq<Row<P>>)
    ensures Marked(rows, {}) == rows
  {
  }

  lemma {:induction false} DispatchedDrop<P>(rs: seq<OutboxRow<P>>, n: nat, sent: set<nat>)
    requires n <= |rs| && Ascending(rs)
    requires forall q :: q in rs ==> q.id !in sent
    ensures Unsent(rs, sent + IdsOf(rs[..n])) == rs[n..]
  {
    var ids := sent + IdsOf(rs[..n]);
    if rs != [] {
      var last := |rs| - 1;
      assert rs[last] in rs;
      if n == |rs| {
        assert rs[..n][last] == rs[last];
        DropAll(rs, ids);
      } else {
        assert rs[..last][..n] == rs[..n];
        DispatchedDrop(rs[..last], n, sent);
        assert rs[n..] == rs[..last][n..] + [rs[last]];
      }
    }
  }

  lemma {:induction false} DropAll<P>(rs: seq<OutboxRow<P>>, ids: set<nat>)
    requires forall i :: 0 <= i < |rs| ==> rs[i].id in ids
    ensures Unsent(rs, ids) == []
  {
    if rs != [] {
      DropAll(rs[..|rs| - 1], ids);
    }
  }

  lemma {:induction false} UnsentTwice<P>(rs: seq<OutboxRow<P>>, a: set<nat>, b: set<nat>)
    ensures Unsent(rs, a + b) == Unsent(Unsent(rs, a), a + b)
  {
    if rs != [] {
      UnsentTwice(rs[..|rs| - 1], a, b);
      if rs[|rs| - 1].id !in a {
        assert Unsent(rs, a)[..|Unsent(rs, a)| - 1] == Unsent(rs[..|rs| - 1], a);
      }
    }
  }

  /** Dispatching the first `n` entries leaves the queue behind them. */
  lemma DispatchAdvancesQueue<P>(rows: seq<Row<P>>, sent: set<nat>, n: nat)
    requires Increasing(rows) && n <= |QueueOf(rows, sent)|
    ensures QueueOf(rows, sent + IdsOf(QueueOf(rows, sent)[..n])) == QueueOf(rows, sent)[n..]
  {
    var q := QueueOf(rows, sent);
    QueueIsSorted(rows, sent);
    UnsentTwice(Parsed(Pending(rows)), sent, IdsOf(q[..n]));
    DispatchedDrop(q, n, sent);
  }

  // ---- The shape of every poll ----

  /** What a poll did, whatever failed: the first `n` queue entries were sent and remembered, the next
      `landed` reached the log without the relay knowing, `marks` were marked, and `h` hooks ran. */
  datatype Did = Did(n: nat, landed: nat, marks: set<nat>, h: nat)

  ghost predicate Shape<P>(s: State<P>, t: State<P>, d: Did) {
    var q := Queue(s);
    && d.n + d.landed <= |q| && d.h <= d.n
    && t.log == s.log + q[..d.n + d.landed]
    && t.sent == s.sent + IdsOf(q[..d.n])
    && d.marks <= IdsOf(q[..d.n])
    && t.rows == Marked(s.rows, d.marks)
    && t.hooked == s.hooked + FirstIds(q, d.h)
    && forall i :: 0 <= i < d.h ==> q[i].id in d.marks
  }

  /** A transaction commits its whole batch or nothing, and one that lands unseen marks nothing. */
  predicate Whole(d: Did, size: nat) {
    && (d.n + d.landed == 0 || d.n + d.landed == size)
    && (d.landed > 0 ==> d.n == 0 && d.marks == {})
  }

  ghost predicate NothingLands(f: Faults) {
    f.commit != Landed && forall i: nat :: f.send(i) != Landed
  }

  lemma NothingHappened<P>(s: State<P>)
    ensures Shape(s, s, Did(0, 0, {}, 0))
  {
    MarkedNone(s.rows);
    assert s.hooked + FirstIds(Queue(s), 0) == s.hooked;
    assert s.log + Queue(s)[..0] == s.log;
    assert IdsOf(Queue(s)[..0]) == {};
  }

  lemma TransactionShape<P>(s: State<P>, batch: seq<OutboxRow<P>>, f: Faults) returns (d: Did)
    requires batch <= Queue(s)
    ensures Shape(s, Transact(s, batch, f).0, d)
    ensures NothingLands(f) ==> d.landed == 0
    ensures Whole(d, |batch|)
  {
    var q, t := Queue(s), Transact(s, batch, f).0;
    NothingHappened(s);
    d := Did(0, 0, {}, 0);
    if f.begins && AllSent(f.send, |batch|) {
      assert q[..|batch|] == batch;
      if f.commit == Landed {
        d := Did(0, |batch|, {}, 0);
      } else if f.commit == Acked && !f.marks(0) {
        d := Did(|batch|, 0, {}, 0);
      } else if f.commit == Acked {
        var h := Min(HookRun(f.hooks, 0, |batch|) + 1, |batch|);
        assert FirstIds(q, h) == FirstIds(batch, h);
        d := Did(|batch|, 0, IdsOf(batch), h);
      }
    }
  }

  lemma IdsOfAppend<P>(rs: seq<OutboxRow<P>>, r: OutboxRow<P>)
    ensures IdsOf(rs + [r]) == IdsOf(rs) + {r.id}
  {
    var longer := rs + [r];
    forall id | id in IdsOf(rs) + {r.id}
      ensures id in IdsOf(longer)
    {
      if id in IdsOf(rs) {
        var i :| 0 <= i < |rs| && rs[i].id == id;
        assert longer[i].id == id;
      } else {
        assert longer[|rs|].id == id;
      }
    }
  }

  /** Sending the row after `n` complete ones. */
  lemma SendOneShape<P>(s: State<P>, t: State<P>, i: nat, f: Faults) returns (d: Did)
    requires i < |Queue(s)|
    requires Shape(s, t, Did(i, 0, IdsOf(Queue(s)[..i]), i))
    ensures var (u, ok) := SendOne(t, Queue(s)[i], i, f);
            && Shape(s, u, d)
            && (ok ==> d == Did(i + 1, 0, IdsOf(Queue(s)[..i + 1]), i + 1))
            && (NothingLands(f) ==> d.landed == 0) && d.landed <= 1
  {
    var q := Queue(s);
    var done := IdsOf(q[..i]);
    assert q[..i + 1] == q[..i] + [q[i]];
    IdsOfAppend(q[..i], q[i]);
    MarkedTwice(s.rows, done, {q[i].id});
    assert t.log + [q[i]] == s.log + q[..i + 1];
    assert t.hooked + [q[i].id] == s.hooked + FirstIds(q, i + 1);
    assert t.sent + {q[i].id} == s.sent + IdsOf(q[..i + 1]);
    assert forall k :: 0 <= k < i ==> q[..i][k].id in done;
    if f.send(i) == Lost {
      d := Did(i, 0, done, i);
    } else if f.send(i) == Landed {
      d := Did(i, 1, done, i);
    } else if !f.marks(i) {
      d := Did(i + 1, 0, done, i);
    } else {
      d := Did(i + 1, 0, done + {q[i].id}, i + 1);
    }
  }

  lemma {:induction false} SendEachShape<P>(s: State<P>, batch: seq<OutboxRow<P>>, n: nat, f: Faults) returns (d: Did)
    requires batch <= Queue(s) && n <= |batch|
    ensures var (t, ok) := SendEach(s, batch, n, f);
            && Shape(s, t, d)
            && (ok ==> d == Did(n, 0, IdsOf(Queue(s)[..n]), n))
            && (NothingLands(f) ==> d.landed == 0) && d.landed <= 1
  {
    if n == 0 {
      NothingHappened(s);
      d := Did(0, 0, {}, 0);
      assert IdsOf(Queue(s)[..0]) == {};
    } else {
      d := SendEachShape(s, batch, n - 1, f);
      var (t, ok) := SendEach(s, batch, n - 1, f);
      assert batch[n - 1] == Queue(s)[n - 1];
      assert SendEach(s, batch, n, f) == if ok then SendOne(t, Queue(s)[n - 1], n - 1, f) else (t, false);
      if ok {
        d := SendOneShape(s, t, n - 1, f);
      }
    }
  }

  /** Whatever fails in a poll, in either mode, it has the shape above. */
  lemma PollShape<P>(s: State<P>, limit: int, transactional: bool, f: Faults) returns (d: Did)
    ensures Shape(s, Poll(s, limit, transactional, f), d)
    ensures NothingLands(f) ==> d.landed == 0
    ensures if transactional then Whole(d, |Batch(s, limit)|) else d.landed <= 1
  {
    var batch := Batch(s, limit);
    var rest := BatchIsPrefix(s, limit);
    if batch == [] {
      NothingHappened(s);
      d := Did(0, 0, {}, 0);
    } else if transactional {
      d := TransactionShape(s, batch, f);
    } else {
      d := SendEachShape(s, batch, |batch|, f);
    }
  }

  lemma ShapeAdvancesQueue<P>(s: State<P>, t: State<P>, d: Did)
    requires Increasing(s.rows) && Shape(s, t, d)
    ensures Queue(t) == Queue(s)[d.n..]
    ensures Parsed(t.rows) == Parsed(s.rows)
    ensures Increasing(t.rows)
  {
    DispatchAdvancesQueue(s.rows, s.sent, d.n);
    MarkingKeepsQueue(s.rows, d.marks, t.sent);
    MarkingKeepsParsed(s.rows, d.marks);
  }
}
