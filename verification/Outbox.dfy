/**
 The transactional outbox (packages/infra/src/outbox.ts): a table of rows waiting to be published,
 and the relay that publishes them in batches and marks them.

 The table and the committed Kafka log are sequences; every remote step can fail, and a failed step
 may still have taken effect at the broker (`Landed`). A crash is a poll that fails at the step
 where the process died, followed by `Restart`.
 */
module Outbox {
  import opened Prelude

  /** A stored payload: JSON text, by its value, or text that does not parse. */
  datatype Text<+P> = Json(value: P) | Malformed

  datatype Row<+P> = Row(id: nat, topic: string, key: Option<string>, payload: Text<P>, published: bool)

  /** A row as the relay sees it; also the record the broker commits. The id is not sent: it only says
      which row a committed record came from. */
  datatype OutboxRow<+P> = OutboxRow(id: nat, topic: string, key: Option<string>, payload: P)

  /** Where a record goes: latest-wins readers look at one topic and key at a time. */
  datatype Channel = Channel(topic: string, key: Option<string>)

  // ---- The table ----

  predicate Increasing<P>(rows: seq<Row<P>>) {
    forall i, j :: 0 <= i < j < |rows| ==> rows[i].id < rows[j].id
  }

  function Unpublished<P>(): Row<P> -> bool { (r: Row<P>) => !r.published }

  /** Rows not yet marked, in id order. */
  function Pending<P>(rows: seq<Row<P>>): seq<Row<P>> { Filter(Unpublished(), rows) }

  /** As many rows are pending as there are positions with an unpublished row. */
  lemma {:induction false} PendingCountsUnpublished<P>(rows: seq<Row<P>>)
    ensures |Pending(rows)| == |set i | 0 <= i < |rows| && !rows[i].published|
  {
    if rows != [] {
      var n := |rows| - 1;
      PendingCountsUnpublished(rows[..n]);
      var before, now := set i | 0 <= i < n && !rows[..n][i].published, set i | 0 <= i < |rows| && !rows[i].published;
      assert now == if rows[n].published then before else before + {n};
    }
  }

  /** `LIMIT`: a negative limit means no limit. */
  function Take<T>(s: seq<T>, limit: int): (r: seq<T>)
    ensures r <= s && (limit >= 0 ==> |r| <= limit)
    ensures limit < 0 || |s| <= limit ==> r == s
    ensures 0 <= limit <= |s| ==> |r| == limit
  {
    if limit < 0 || |s| <= limit then s else s[..limit]
  }

  function View<P>(r: Row<P>): OutboxRow<P>
    requires r.payload.Json?
  {
    OutboxRow(r.id, r.topic, r.key, r.payload.value)
  }

  /** The rows whose payload parses; the others are skipped, never dropped. */
  function Parsed<P>(rows: seq<Row<P>>): (r: seq<OutboxRow<P>>)
    ensures |r| <= |rows|
  {
    if rows == [] then []
    else
      var rest := Parsed(rows[..|rows| - 1]);
      var last := rows[|rows| - 1];
      if last.payload.Json? then rest + [View(last)] else rest
  }

  function IdsOf<P>(rs: seq<OutboxRow<P>>): set<nat> {
    set i | 0 <= i < |rs| :: rs[i].id
  }

  function Marked<P>(rows: seq<Row<P>>, ids: set<nat>): (r: seq<Row<P>>)
    ensures |r| == |rows|
  {
    seq(|rows|, i requires 0 <= i < |rows| =>
      if rows[i].id in ids then rows[i].(published := true) else rows[i])
  }

  class OutboxStore<P> {
    var rows: seq<Row<P>>
    var nextId: nat

    ghost predicate Valid()
      reads this
    {
      Increasing(rows) && forall r :: r in rows ==> r.id < nextId
    }

    constructor ()
      ensures Valid() && rows == []
    {
      rows, nextId := [], 1;
    }

    method InsertPending(topic: string, key: Option<string>, payload: Text<P>) returns (id: nat)
      requires Valid()
      modifies this
      ensures Valid() && id == old(nextId)
      ensures rows == old(rows) + [Row(id, topic, key, payload, false)]
    {
      id := nextId;
      rows := rows + [Row(id, topic, key, payload, false)];
      nextId := nextId + 1;
    }

    /** The first `limit` pending rows, less those that do not parse: the limit is applied first. */
    method PeekPending(limit: int) returns (pending: seq<OutboxRow<P>>)
      ensures pending == Parsed(Take(Pending(rows), limit))
    {
      var window := Take(Pending(rows), limit);
      pending := [];
      for i := 0 to |window|
        invariant pending == Parsed(window[..i])
      {
        assert window[..i + 1][..i] == window[..i];
        if window[i].payload.Json? {
          pending := pending + [View(window[i])];
        }
      }
      assert window[..|window|] == window;
    }

    method MarkPublished(ids: set<nat>)
      requires Valid()
      modifies `rows
      ensures Valid() && rows == Marked(old(rows), ids)
    {
      if ids == {} {
        assert Marked(rows, ids) == rows;
        return;
      }
      var before := rows;
      rows := Marked(rows, ids);
      assert forall i :: 0 <= i < |rows| ==> rows[i].id == before[i].id && before[i] in before;
    }

    method CountPending() returns (n: nat)
      ensures n == |Pending(rows)|
      ensures n == |set i | 0 <= i < |rows| && !rows[i].published|
    {
      PendingCountsUnpublished(rows);
      n := |Pending(rows)|;
    }
  }

  // ---- The relay ----

  /** What one relay process and its surroundings hold. `sent` is the in-process set of dispatched ids,
      `hooked` the ids `onPublished` has been called with in this process, in order. */
  datatype State<+P> = State(rows: seq<Row<P>>, sent: set<nat>, log: seq<OutboxRow<P>>, hooked: seq<nat>)

  /** The fault oracle of one poll: how each remote step ends. Index i is the i-th row of the batch. */
  datatype Faults = Faults(
    begins: bool,
    send: nat -> Delivery,
    commit: Delivery,
    marks: nat -> bool,
    hooks: nat -> bool)

  function Fresh<P>(sent: set<nat>): OutboxRow<P> -> bool { (r: OutboxRow<P>) => r.id !in sent }

  function Unsent<P>(rs: seq<OutboxRow<P>>, sent: set<nat>): seq<OutboxRow<P>> { Filter(Fresh(sent), rs) }

  /** What the next poll will publish. */
  function Batch<P>(s: State<P>, limit: int): seq<OutboxRow<P>> {
    Unsent(Parsed(Take(Pending(s.rows), limit)), s.sent)
  }

  /** Everything this process has still to publish, in order. */
  function Queue<P>(s: State<P>): seq<OutboxRow<P>> { Unsent(Parsed(Pending(s.rows)), s.sent) }

  /** How many rows, from the i-th on, the hook accepts before it first throws. */
  function HookRun(hooks: nat -> bool, i: nat, n: nat): (h: nat)
    requires i <= n
    ensures i <= h <= n
    decreases n - i
  {
    if i < n && hooks(i) then HookRun(hooks, i + 1, n) else i
  }

  function FirstIds<P>(rs: seq<OutboxRow<P>>, n: nat): (r: seq<nat>)
    requires n <= |rs|
    ensures |r| == n
  {
    seq(n, i requires 0 <= i < n => rs[i].id)
  }

  /** A transaction that got as far as `commit`: the batch lands whole or not at all. */
  function FinishTransaction<P>(s: State<P>, batch: seq<OutboxRow<P>>, f: Faults): (State<P>, nat) {
    if f.commit == Lost then (s, 0)
    else if f.commit == Landed then (s.(log := s.log + batch), 0)
    else
      var committed := s.(log := s.log + batch, sent := s.sent + IdsOf(batch));
      if !f.marks(0) then (committed, 0)
      else
        var h := HookRun(f.hooks, 0, |batch|);
        (committed.(rows := Marked(s.rows, IdsOf(batch)), hooked := s.hooked + FirstIds(batch, Min(h + 1, |batch|))),
         if h == |batch| then |batch| else 0)
  }

  predicate AllSent(send: nat -> Delivery, n: nat) {
    forall i :: 0 <= i < n ==> send(i) == Acked
  }

  function Transact<P>(s: State<P>, batch: seq<OutboxRow<P>>, f: Faults): (State<P>, nat) {
    if !f.begins || !AllSent(f.send, |batch|) then (s, 0) else FinishTransaction(s, batch, f)
  }

  /** One non-transactional row: sent, remembered, marked, passed to the hook; false stops the batch. */
  function SendOne<P>(s: State<P>, r: OutboxRow<P>, i: nat, f: Faults): (State<P>, bool) {
    if f.send(i) == Lost then (s, false)
    else if f.send(i) == Landed then (s.(log := s.log + [r]), false)
    else
      var acked := s.(log := s.log + [r], sent := s.sent + {r.id});
      if !f.marks(i) then (acked, false)
      else
        (acked.(rows := Marked(s.rows, {r.id}), hooked := s.hooked + [r.id]), f.hooks(i))
  }

  /** The first `n` rows of the batch, one by one, stopping at the first that fails. */
  function SendEach<P>(s: State<P>, batch: seq<OutboxRow<P>>, n: nat, f: Faults): (State<P>, bool)
    requires n <= |batch|
  {
    if n == 0 then (s, true)
    else
      var (before, ok) := SendEach(s, batch, n - 1, f);
      if ok then SendOne(before, batch[n - 1], n - 1, f) else (before, false)
  }

  /** The rest of a poll once its batch has been read. */
  function Publish<P>(s: State<P>, batch: seq<OutboxRow<P>>, transactional: bool, f: Faults): (State<P>, nat) {
    if batch == [] then (s, 0)
    else if transactional then Transact(s, batch, f)
    else
      var (after, ok) := SendEach(s, batch, |batch|, f);
      (after, if ok then |batch| else 0)
  }

  function Poll<P>(s: State<P>, limit: int, transactional: bool, f: Faults): State<P> {
    Publish(s, Batch(s, limit), transactional, f).0
  }

  class OutboxRelay<P> {
    const store: OutboxStore<P>
    const batchSize: int
    const transactional: bool
    var publishedIds: set<nat>
    /** The records visible to readers of committed data, in order. */
    var log: seq<OutboxRow<P>>
    /** The ids `onPublished` has been called with, whether or not it then threw. */
    var hooked: seq<nat>

    function Now(): State<P>
      reads this, store
    {
      State(store.rows, publishedIds, log, hooked)
    }

    constructor (store: OutboxStore<P>, batchSize: int, transactional: bool, log: seq<OutboxRow<P>>)
      ensures this.store == store && this.batchSize == batchSize && this.transactional == transactional
      ensures publishedIds == {} && this.log == log && hooked == []
    {
      this.store, this.batchSize, this.transactional := store, batchSize, transactional;
      publishedIds, this.log, hooked := {}, log, [];
    }

    /** One poll. Returns the number of rows published, or 0 when anything failed on the way. */
    method RunOnce(f: Faults) returns (count: nat)
      requires store.Valid()
      modifies this, store`rows
      ensures store.Valid()
      ensures (Now(), count) == Publish(old(Now()), Batch(old(Now()), batchSize), transactional, f)
    {
      var peeked := store.PeekPending(batchSize);
      var rows := Unsent(peeked, publishedIds);
      if |rows| == 0 {
        return 0;
      }
      if transactional {
        count := RunTransaction(rows, f);
      } else {
        count := RunRows(rows, f);
      }
    }

    method RunTransaction(rows: seq<OutboxRow<P>>, f: Faults) returns (count: nat)
      requires store.Valid()
      modifies this, store`rows
      ensures store.Valid()
      ensures (Now(), count) == Transact(old(Now()), rows, f)
    {
      if !f.begins {
        return 0;
      }
      for i := 0 to |rows|
        invariant AllSent(f.send, i) && Now() == old(Now())
        invariant store.Valid()
      {
        if f.send(i) != Acked {
          return 0;
        }
      }
      if f.commit != Acked {
        log := if f.commit == Landed then log + rows else log;
        return 0;
      }
      log := log + rows;
      publishedIds := publishedIds + IdsOf(rows);
      if !f.marks(0) {
        return 0;
      }
      store.MarkPublished(IdsOf(rows));
      var before := hooked;
      for i := 0 to |rows|
        invariant store.Valid()
        invariant HookRun(f.hooks, 0, |rows|) == HookRun(f.hooks, i, |rows|)
        invariant hooked == before + FirstIds(rows, i)
        invariant Now() == old(Now()).(log := old(log) + rows, sent := old(publishedIds) + IdsOf(rows),
                                       rows := Marked(old(store.rows), IdsOf(rows)), hooked := hooked)
      {
        hooked := hooked + [rows[i].id];
        assert before + FirstIds(rows, i) + [rows[i].id] == before + FirstIds(rows, i + 1);
        if !f.hooks(i) {
          return 0;
        }
      }
      return |rows|;
    }

    method RunRows(rows: seq<OutboxRow<P>>, f: Faults) returns (count: nat)
      requires store.Valid()
      modifies this, store`rows
      ensures store.Valid()
      ensures var (after, ok) := SendEach(old(Now()), rows, |rows|, f);
              Now() == after && count == if ok then |rows| else 0
    {
      for i := 0 to |rows|
        invariant store.Valid()
        invariant SendEach(old(Now()), rows, i, f) == (Now(), true)
      {
        var ok := SendRow(rows[i], i, f);
        if !ok {
          SendEachStops(old(Now()), rows, i + 1, |rows|, f);
          return 0;
        }
      }
      return |rows|;
    }

    /** Sends one row and persists the outcome before the next row is attempted. */
    method SendRow(row: OutboxRow<P>, i: nat, f: Faults) returns (ok: bool)
      requires store.Valid()
      modifies this, store`rows
      ensures store.Valid()
      ensures (Now(), ok) == SendOne(old(Now()), row, i, f)
    {
      if f.send(i) != Acked {
        log := if f.send(i) == Landed then log + [row] else log;
        return false;
      }
      log := log + [row];
      publishedIds := publishedIds + {row.id};
      if !f.marks(i) {
        return false;
      }
      store.MarkPublished({row.id});
      hooked := hooked + [row.id];
      return f.hooks(i);
    }
  }

  lemma {:induction false} SendEachStops<P>(s: State<P>, batch: seq<OutboxRow<P>>, m: nat, n: nat, f: Faults)
    requires m <= n <= |batch| && !SendEach(s, batch, m, f).1
    ensures SendEach(s, batch, n, f) == SendEach(s, batch, m, f)
  {
    if m < n {
      SendEachStops(s, batch, m, n - 1, f);
    }
  }
}
