/**
 The in-process idempotency filter (packages/infra/src/idempotency.ts): a bounded map from event id
 to the time of its last mark, with an optional time-to-live.

 The map is kept as the sequence of its entries in insertion order, the order in which the original
 map iterates. The lemmas relate it to a plain log of insertions that never forgets anything.
 */
module Idempotency {
  import opened Prelude

  datatype Entry = Entry(id: string, markedAt: int)

  class IdempotencyFilter {
    var seen: seq<Entry>
    const maxSize: int
    const ttlMs: int

    constructor (maxSize: int, ttlMs: int)
      ensures seen == [] && this.maxSize == maxSize && this.ttlMs == ttlMs
    {
      seen := [];
      this.maxSize, this.ttlMs := maxSize, ttlMs;
    }

    /** Answers whether `id` is live, forgetting it when its time-to-live has passed. */
    method IsDuplicate(id: string, now: int) returns (duplicate: bool)
      requires Distinct(seen)
      modifies this
      ensures duplicate == Live(old(seen), id, now, ttlMs)
      ensures seen == Step(old(seen), Query(id, now), maxSize, ttlMs)
      ensures Distinct(seen)
    {
      StepKeepsDistinct(seen, Query(id, now), maxSize, ttlMs);
      var found := Find(seen, id);
      if found.None? {
        return false;
      }
      var ts := seen[found.value].markedAt;
      if ttlMs > 0 && now - ts > ttlMs {
        seen := seen[..found.value] + seen[found.value + 1..];
        return false;
      }
      return true;
    }

    /** Records `id`, evicting the oldest insertion when the map has grown beyond `maxSize`. */
    method Mark(id: string, now: int)
      requires Distinct(seen)
      modifies this
      ensures seen == Step(old(seen), Op.Mark(id, now), maxSize, ttlMs)
      ensures Distinct(seen)
    {
      StepKeepsDistinct(seen, Op.Mark(id, now), maxSize, ttlMs);
      var found := Find(seen, id);
      if found.Some? {
        seen := seen[found.value := Entry(id, now)];
      } else {
        seen := seen + [Entry(id, now)];
      }
      if |seen| > maxSize {
        seen := if seen == [] then [] else seen[1..];
      }
    }
  }

  // ---- Specification ----

  datatype Op = Query(id: string, now: int) | Mark(id: string, now: int)

  function Ids(seen: seq<Entry>): (r: seq<string>)
    ensures |r| == |seen|
  {
    seq(|seen|, i requires 0 <= i < |seen| => seen[i].id)
  }

  predicate Distinct(seen: seq<Entry>) {
    forall i, j :: 0 <= i < j < |seen| ==> seen[i].id != seen[j].id
  }

  function Find(seen: seq<Entry>, id: string): (r: Option<nat>)
    ensures r.Some? ==> r.value < |seen| && seen[r.value].id == id
    ensures r.None? ==> forall e :: e in seen ==> e.id != id
  {
    if seen == [] then None
    else if seen[|seen| - 1].id == id then Some(|seen| - 1)
    else assert seen == seen[..|seen| - 1] + [seen[|seen| - 1]]; Find(seen[..|seen| - 1], id)
  }

  predicate Expired(e: Entry, now: int, ttlMs: int) {
    ttlMs > 0 && now - e.markedAt > ttlMs
  }

  predicate Live(seen: seq<Entry>, id: string, now: int, ttlMs: int) {
    var found := Find(seen, id);
    found.Some? && !Expired(seen[found.value], now, ttlMs)
  }

  function Step(seen: seq<Entry>, op: Op, maxSize: int, ttlMs: int): seq<Entry> {
    var found := Find(seen, op.id);
    match op
    case Query(id, now) =>
      if found.Some? && Expired(seen[found.value], now, ttlMs)
      then seen[..found.value] + seen[found.value + 1..]
      else seen
    case Mark(id, now) =>
      var put := if found.Some? then seen[found.value := Entry(id, now)] else seen + [Entry(id, now)];
      if |put| > maxSize && put != [] then put[1..] else put
  }

  function Run(ops: seq<Op>, maxSize: int, ttlMs: int): seq<Entry> {
    if ops == [] then []
    else Step(Run(ops[..|ops| - 1], maxSize, ttlMs), ops[|ops| - 1], maxSize, ttlMs)
  }

  lemma StepKeepsDistinct(seen: seq<Entry>, op: Op, maxSize: int, ttlMs: int)
    requires Distinct(seen)
    ensures Distinct(Step(seen, op, maxSize, ttlMs))
    ensures |seen| <= Max(0, maxSize) ==> |Step(seen, op, maxSize, ttlMs)| <= Max(0, maxSize)
  {
    match op
    case Query(id, now) =>
      if Find(seen, id).Some? {
        DropKeepsDistinct(seen, Find(seen, id).value);
      }
    case Mark(id, now) => MarkKeepsDistinct(seen, id, now, Find(seen, id));
  }

  lemma DropKeepsDistinct(seen: seq<Entry>, at: nat)
    requires Distinct(seen) && at < |seen|
    ensures Distinct(seen[..at] + seen[at + 1..])
  {
  }

  /** The entry is put in place or at the end, and the oldest may go. */
  lemma MarkKeepsDistinct(seen: seq<Entry>, id: string, now: int, found: Option<nat>)
    requires Distinct(seen) && found == Find(seen, id)
    ensures var put := if found.Some? then seen[found.value := Entry(id, now)] else seen + [Entry(id, now)];
            Distinct(put) && Distinct(put[1..])
  {
    if found.None? {
      AppendKeepsDistinct(seen, Entry(id, now));
    } else {
      ReplaceKeepsDistinct(seen, found.value, Entry(id, now));
    }
  }

  lemma ReplaceKeepsDistinct(seen: seq<Entry>, at: nat, e: Entry)
    requires Distinct(seen) && at < |seen| && seen[at].id == e.id
    ensures Distinct(seen[at := e])
  {
  }

  lemma AppendKeepsDistinct(seen: seq<Entry>, e: Entry)
    requires Distinct(seen) && Find(seen, e.id).None?
    ensures Distinct(seen + [e])
  {
    assert forall i :: 0 <= i < |seen| ==> seen[i] in seen;
  }

  // ---- Capacity and refinement of the insertion log ----

  /** The insertion log: every mark of an id that is not among the last `maxSize` insertions. */
  function InsertionLog(ops: seq<Op>, maxSize: int): seq<string> {
    if ops == [] then []
    else
      var log := InsertionLog(ops[..|ops| - 1], maxSize);
      var op := ops[|ops| - 1];
      if op.Mark? && op.id !in LastN(log, maxSize) then log + [op.id] else log
  }

  lemma {:induction false} SizeNeverExceedsCapacity(ops: seq<Op>, maxSize: int, ttlMs: int)
    ensures |Run(ops, maxSize, ttlMs)| <= Max(0, maxSize)
    ensures Distinct(Run(ops, maxSize, ttlMs))
  {
    if ops != [] {
      SizeNeverExceedsCapacity(ops[..|ops| - 1], maxSize, ttlMs);
      StepKeepsDistinct(Run(ops[..|ops| - 1], maxSize, ttlMs), ops[|ops| - 1], maxSize, ttlMs);
    }
  }

  lemma FindIsMembership(seen: seq<Entry>, id: string)
    ensures Find(seen, id).Some? <==> id in Ids(seen)
  {
    if Find(seen, id).Some? {
      assert Ids(seen)[Find(seen, id).value] == id;
    } else {
      assert forall i :: 0 <= i < |seen| ==> seen[i] in seen;
    }
  }

  /** One mark, seen through the ids alone. */
  lemma MarkOnIds(seen: seq<Entry>, log: seq<string>, id: string, now: int, maxSize: int)
    requires Ids(seen) == LastN(log, maxSize)
    ensures Ids(Step(seen, Op.Mark(id, now), maxSize, 0)) ==
            LastN(if id in LastN(log, maxSize) then log else log + [id], maxSize)
  {
    FindIsMembership(seen, id);
    var found := Find(seen, id);
    if found.Some? {
      assert Ids(seen[found.value := Entry(id, now)]) == Ids(seen);
    } else {
      assert Ids(seen + [Entry(id, now)]) == Ids(seen) + [id];
      var grown := Ids(seen) + [id];
      if |grown| > maxSize {
        assert Ids((seen + [Entry(id, now)])[1..]) == grown[1..];
      }
    }
  }

  /** With the time-to-live off, the live ids are exactly the last `maxSize` insertions, and they are
      distinct; a query answers whether its id is one of them. */
  lemma {:induction false} RefinesInsertionLog(ops: seq<Op>, maxSize: int, id: string, now: int)
    ensures Ids(Run(ops, maxSize, 0)) == LastN(InsertionLog(ops, maxSize), maxSize)
    ensures Distinct(Run(ops, maxSize, 0))
    ensures Live(Run(ops, maxSize, 0), id, now, 0) <==> id in LastN(InsertionLog(ops, maxSize), maxSize)
  {
    SizeNeverExceedsCapacity(ops, maxSize, 0);
    if ops != [] {
      var before := ops[..|ops| - 1];
      var op := ops[|ops| - 1];
      RefinesInsertionLog(before, maxSize, id, now);
      if op.Mark? {
        MarkOnIds(Run(before, maxSize, 0), InsertionLog(before, maxSize), op.id, op.now, maxSize);
      }
    }
    FindIsMembership(Run(ops, maxSize, 0), id);
  }

  /** In the insertion log an id recurs only after `maxSize` other insertions. */
  ghost predicate Spaced(log: seq<string>, maxSize: int) {
    forall i, j :: 0 <= i < j < |log| && log[i] == log[j] ==> j - i > maxSize
  }

  lemma SpacedAppend(log: seq<string>, id: string, maxSize: int)
    requires Spaced(log, maxSize) && id !in LastN(log, maxSize)
    ensures Spaced(log + [id], maxSize)
  {
    var k := |log| - |LastN(log, maxSize)|;
    forall i | k <= i < |log|
      ensures log[i] in LastN(log, maxSize)
    {
      assert LastN(log, maxSize)[i - k] == log[i];
    }
  }

  lemma {:induction false} InsertionsAreSpaced(ops: seq<Op>, maxSize: int)
    ensures Spaced(InsertionLog(ops, maxSize), maxSize)
  {
    if ops != [] {
      var before := InsertionLog(ops[..|ops| - 1], maxSize);
      InsertionsAreSpaced(ops[..|ops| - 1], maxSize);
      var id := ops[|ops| - 1].id;
      if id !in LastN(before, maxSize) {
        SpacedAppend(before, id, maxSize);
      }
    }
  }

  // ---- Time-to-live ----

  /** The time of the last mark of `id`. */
  function LastMark(ops: seq<Op>, id: string): Option<int> {
    if ops == [] then None
    else
      var op := ops[|ops| - 1];
      if op.Mark? && op.id == id then Some(op.now) else LastMark(ops[..|ops| - 1], id)
  }

  lemma {:induction false} EntriesCarryTheLastMark(ops: seq<Op>, maxSize: int, ttlMs: int, e: Entry)
    requires e in Run(ops, maxSize, ttlMs)
    ensures LastMark(ops, e.id) == Some(e.markedAt)
  {
    var before := Run(ops[..|ops| - 1], maxSize, ttlMs);
    var op := ops[|ops| - 1];
    SizeNeverExceedsCapacity(ops[..|ops| - 1], maxSize, ttlMs);
    var found := Find(before, op.id);
    if op.Mark? && e.id == op.id {
      if found.Some? {
        assert forall i :: 0 <= i < |before| && i != found.value ==> before[i].id != op.id;
      }
    } else {
      assert e in before;
      EntriesCarryTheLastMark(ops[..|ops| - 1], maxSize, ttlMs, e);
    }
  }

  /** A positive answer means the id was marked, and with the time-to-live on, no longer ago than it. */
  lemma PositiveAnswerMeansRecentMark(ops: seq<Op>, maxSize: int, ttlMs: int, id: string, now: int)
    requires Live(Run(ops, maxSize, ttlMs), id, now, ttlMs)
    ensures LastMark(ops, id).Some?
    ensures ttlMs > 0 ==> now - LastMark(ops, id).value <= ttlMs
  {
    var seen := Run(ops, maxSize, ttlMs);
    var e := seen[Find(seen, id).value];
    assert e in seen;
    EntriesCarryTheLastMark(ops, maxSize, ttlMs, e);
  }

  function Marks(ops: seq<Op>): nat {
    if ops == [] then 0
    else Marks(ops[..|ops| - 1]) + if ops[|ops| - 1].Mark? then 1 else 0
  }

  /** The clock never goes back, and no operation lies after `now`. */
  predicate ClockUpTo(ops: seq<Op>, now: int) {
    ops == [] || (ops[|ops| - 1].now <= now && ClockUpTo(ops[..|ops| - 1], ops[|ops| - 1].now))
  }

  lemma MarkForgetsNothing(seen: seq<Entry>, id: string, now: int, maxSize: int, other: string)
    requires |seen| < maxSize
    ensures Find(Step(seen, Op.Mark(id, now), maxSize, 0), id).Some?
    ensures Find(seen, other).Some? ==> Find(Step(seen, Op.Mark(id, now), maxSize, 0), other).Some?
  {
    var after := Step(seen, Op.Mark(id, now), maxSize, 0);
    FindIsMembership(after, id);
    FindIsMembership(after, other);
    var found := Find(seen, id);
    assert Ids(after)[if found.Some? then found.value else |seen|] == id;
    if Find(seen, other).Some? {
      assert Ids(after)[Find(seen, other).value] == other;
    }
  }

  lemma DroppingKeepsOthers(seen: seq<Entry>, gone: nat, at: nat)
    requires gone < |seen| && at < |seen| && gone != at
    ensures seen[at].id in Ids(seen[..gone] + seen[gone + 1..])
  {
    assert Ids(seen[..gone] + seen[gone + 1..])[if gone < at then at - 1 else at] == seen[at].id;
  }

  lemma QueryForgetsOnlyExpired(seen: seq<Entry>, id: string, now: int, ttlMs: int, other: string)
    requires Find(seen, other).Some?
    requires id == other ==> !Expired(seen[Find(seen, other).value], now, ttlMs)
    ensures Find(Step(seen, Query(id, now), 0, ttlMs), other).Some?
  {
    var gone := Find(seen, id);
    if id != other && gone.Some? {
      DroppingKeepsOthers(seen, gone.value, Find(seen, other).value);
      FindIsMembership(seen[..gone.value] + seen[gone.value + 1..], other);
    }
  }

  lemma {:induction false} ForgottenOnlyWhenExpired(ops: seq<Op>, maxSize: int, ttlMs: int, id: string, now: int)
    requires ClockUpTo(ops, now) && Marks(ops) <= maxSize
    ensures |Run(ops, maxSize, ttlMs)| <= Marks(ops)
    ensures LastMark(ops, id).Some? && Find(Run(ops, maxSize, ttlMs), id).None? ==>
              ttlMs > 0 && now - LastMark(ops, id).value > ttlMs
  {
    if ops != [] {
      var before := Run(ops[..|ops| - 1], maxSize, ttlMs);
      var op := ops[|ops| - 1];
      ForgottenOnlyWhenExpired(ops[..|ops| - 1], maxSize, ttlMs, id, op.now);
      if op.Mark? {
        MarkForgetsNothing(before, op.id, op.now, maxSize, id);
      } else if Find(before, id).Some? {
        var e := before[Find(before, id).value];
        assert e in before;
        EntriesCarryTheLastMark(ops[..|ops| - 1], maxSize, ttlMs, e);
        if op.id != id || !Expired(e, op.now, ttlMs) {
          QueryForgetsOnlyExpired(before, op.id, op.now, ttlMs, id);
        }
      }
    }
  }

  /** As long as nothing has been evicted and the clock does not go back, an id counts as a duplicate
      exactly when it was marked and, with the time-to-live on, within it. */
  lemma AnswersExactlyTheRecentMarks(ops: seq<Op>, maxSize: int, ttlMs: int, id: string, now: int)
    requires ClockUpTo(ops, now) && Marks(ops) <= maxSize
    ensures Live(Run(ops, maxSize, ttlMs), id, now, ttlMs)
       <==> LastMark(ops, id).Some? && (ttlMs > 0 ==> now - LastMark(ops, id).value <= ttlMs)
  {
    var seen := Run(ops, maxSize, ttlMs);
    ForgottenOnlyWhenExpired(ops, maxSize, ttlMs, id, now);
    if Find(seen, id).Some? {
      assert seen[Find(seen, id).value] in seen;
      EntriesCarryTheLastMark(ops, maxSize, ttlMs, seen[Find(seen, id).value]);
    }
  }

  // ---- Forgetting ----

  /** A query for an id whose time-to-live has passed forgets it, so that its next mark counts as a new
      insertion; the others keep their order. Any other query changes nothing. */
  lemma QueryForgetsExactlyTheExpired(seen: seq<Entry>, id: string, now: int, maxSize: int, ttlMs: int)
    requires Distinct(seen)
    ensures var after := Step(seen, Query(id, now), maxSize, ttlMs);
            if ttlMs > 0 && Find(seen, id).Some? && now - seen[Find(seen, id).value].markedAt > ttlMs
            then Ids(after) == Filter(Except(id), Ids(seen)) && id !in Ids(after)
            else after == seen
  {
    var found := Find(seen, id);
    if found.Some? && Expired(seen[found.value], now, ttlMs) {
      var at := found.value;
      FilterOneId(Ids(seen), id, at);
      assert Ids(seen[..at] + seen[at + 1..]) == Ids(seen)[..at] + Ids(seen)[at + 1..];
    }
  }

  // ---- Eviction order ----

  function Except(id: string): string -> bool { x => x != id }

  /** What a least-recently-used map would do: a mark moves its entry to the young end. */
  function LruMark(ids: seq<string>, id: string, maxSize: int): seq<string> {
    var moved := Filter(Except(id), ids) + [id];
    if |moved| > maxSize && moved != [] then moved[1..] else moved
  }

  lemma {:induction false} FilterAbsentId(ids: seq<string>, id: string)
    requires forall i :: 0 <= i < |ids| ==> ids[i] != id
    ensures Filter(Except(id), ids) == ids
  {
    if ids != [] {
      FilterAbsentId(ids[..|ids| - 1], id);
    }
  }

  lemma {:induction false} FilterOneId(ids: seq<string>, id: string, at: nat)
    requires at < |ids| && ids[at] == id
    requires forall i :: 0 <= i < |ids| && i != at ==> ids[i] != id
    ensures Filter(Except(id), ids) == ids[..at] + ids[at + 1..]
  {
    var n := |ids| - 1;
    if at == n {
      FilterAbsentId(ids[..n], id);
    } else {
      FilterOneId(ids[..n], id, at);
    }
  }

  /** The documentation calls the eviction LRU; the code re-marks an id in place. A map within its
      capacity orders its ids as an LRU map would exactly when the marked id was not live, or was
      already the youngest. */
  lemma InsertionOrderVersusLru(seen: seq<Entry>, id: string, now: int, maxSize: int)
    requires Distinct(seen) && |seen| <= maxSize
    ensures Ids(Step(seen, Op.Mark(id, now), maxSize, 0)) == LruMark(Ids(seen), id, maxSize)
       <==> (id !in Ids(seen) || Ids(seen)[|seen| - 1] == id)
  {
    var ids := Ids(seen);
    FindIsMembership(seen, id);
    var found := Find(seen, id);
    if found.None? {
      FilterAbsentId(ids, id);
      assert Ids(seen + [Entry(id, now)]) == ids + [id];
      if |ids| + 1 > maxSize {
        assert Ids((seen + [Entry(id, now)])[1..]) == (ids + [id])[1..];
      }
    } else {
      var at := found.value;
      FilterOneId(ids, id, at);
      assert Ids(seen[at := Entry(id, now)]) == ids;
      assert LruMark(ids, id, maxSize) == ids[..at] + ids[at + 1..] + [id];
      assert at < |ids| - 1 ==> ids[at] != (ids[..at] + ids[at + 1..] + [id])[at];
    }
  }

  /** So a full map forgets its oldest insertion even when that id was marked again just before. */
  lemma ReMarkedIdIsEvictedFirst(seen: seq<Entry>, newcomer: string, t1: int, t2: int)
    requires Distinct(seen) && seen != [] && newcomer !in Ids(seen)
    ensures var reMarked := Step(seen, Op.Mark(seen[0].id, t1), |seen|, 0);
            Ids(Step(reMarked, Op.Mark(newcomer, t2), |seen|, 0)) == Ids(seen)[1..] + [newcomer]
  {
    var ids := Ids(seen);
    assert ids[0] == seen[0].id;
    assert LastN(ids, |seen|) == ids;
    MarkOnIds(seen, ids, seen[0].id, t1, |seen|);
    var reMarked := Step(seen, Op.Mark(seen[0].id, t1), |seen|, 0);
    assert Ids(reMarked) == ids;
    NewcomerEvictsOldest(reMarked, ids, newcomer, t2);
  }

  lemma NewcomerEvictsOldest(seen: seq<Entry>, ids: seq<string>, newcomer: string, now: int)
    requires Ids(seen) == ids && ids != [] && newcomer !in ids
    ensures Ids(Step(seen, Op.Mark(newcomer, now), |ids|, 0)) == ids[1..] + [newcomer]
  {
    assert LastN(ids, |ids|) == ids;
    MarkOnIds(seen, ids, newcomer, now, |ids|);
  }
}
