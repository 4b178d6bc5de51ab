/**
 The customer read model: a keyed changelog replayed into a map
 (apps/customer-view/src/customer-store.ts, and the DELETE route of apps/customer-view/src/app.ts).

 `Replay` is what a reader computes record by record. The lemmas say that the result depends on
 nothing but the newest record of each key, and therefore survives partition interleaving,
 compaction, redelivery, and (under an exact condition) the local delete of the DELETE route.
 */
module Changelog {
  import opened Prelude

  /** One changelog record. A `None` value is a tombstone. */
  datatype Change<V> = Change(key: string, value: Option<V>)

  datatype ApplyError = UnkeyedRecord

  /** The in-memory store. `Apply` and `Delete` update `customers` in place. */
  class CustomerStore<V> {
    var customers: map<string, V>

    constructor ()
      ensures customers == map[]
    {
      customers := map[];
    }

    /** An unkeyed record is refused; a tombstone deletes; anything else overwrites. */
    method Apply(key: Option<string>, value: Option<V>) returns (error: Option<ApplyError>)
      modifies this
      ensures error == (if key.None? then Some(UnkeyedRecord) else None)
      ensures key.None? ==> customers == old(customers)
      ensures key.Some? ==> customers == After(old(customers), Change(key.value, value))
    {
      if key.None? {
        return Some(UnkeyedRecord);
      }
      if value.None? {
        customers := customers - {key.value};
        return None;
      }
      customers := customers[key.value := value.value];
      return None;
    }

    method Delete(customerId: string) returns (existed: bool)
      modifies this
      ensures existed == (customerId in old(customers))
      ensures customers == old(customers) - {customerId}
    {
      existed := customerId in customers;
      customers := customers - {customerId};
    }

    /** A consumer that applies a whole log, one record at a time, holds its replay. */
    method ApplyAll(log: seq<Change<V>>)
      requires customers == map[]
      modifies this
      ensures customers == Replay(log)
    {
      for i := 0 to |log|
        invariant customers == Replay(log[..i])
      {
        var error := Apply(Some(log[i].key), log[i].value);
        assert log[..i + 1][..i] == log[..i];
      }
      assert log[..|log|] == log;
    }
  }

  function After<V>(m: map<string, V>, c: Change<V>): map<string, V> {
    if c.value.None? then m - {c.key} else m[c.key := c.value.value]
  }

  function Replay<V>(log: seq<Change<V>>): map<string, V> {
    ReplayFrom(map[], log)
  }

  function ReplayFrom<V>(m: map<string, V>, log: seq<Change<V>>): map<string, V> {
    if log == [] then m else After(ReplayFrom(m, log[..|log| - 1]), log[|log| - 1])
  }

  /** The newest record of `key`, the only one a latest-wins reader may depend on. */
  function Latest<V>(log: seq<Change<V>>, key: string): (r: Option<Change<V>>)
    ensures r.Some? ==> r.value in log && r.value.key == key
    ensures r.None? <==> forall c :: c in log ==> c.key != key
  {
    if log == [] then None
    else
      var n := |log| - 1;
      assert log == log[..n] + [log[n]];
      if log[n].key == key then Some(log[n]) else Latest(log[..n], key)
  }

  lemma LatestAppend<V>(log: seq<Change<V>>, c: Change<V>, key: string)
    ensures Latest(log + [c], key) == if c.key == key then Some(c) else Latest(log, key)
  {
    assert (log + [c])[..|log|] == log;
  }

  /** What a latest-wins reader shows for `key`: the newest value, nothing after a tombstone. */
  function Visible<V>(log: seq<Change<V>>, key: string): Option<V> {
    var newest := Latest(log, key);
    if newest.None? then None else newest.value.value
  }

  ghost predicate Shows<V>(m: map<string, V>, key: string, value: Option<V>) {
    (key in m <==> value.Some?) && (key in m ==> m[key] == value.value)
  }

  /** Record-by-record replay is latest-wins, from any starting map. */
  lemma {:induction false} ReplayFromIsLatestWins<V>(m: map<string, V>, log: seq<Change<V>>, key: string)
    ensures Latest(log, key).Some? ==> Shows(ReplayFrom(m, log), key, Visible(log, key))
    ensures Latest(log, key).None? ==> (key in ReplayFrom(m, log) <==> key in m)
    ensures Latest(log, key).None? && key in m ==> ReplayFrom(m, log)[key] == m[key]
  {
    if log != [] {
      ReplayFromIsLatestWins(m, log[..|log| - 1], key);
    }
  }

  lemma ReplayIsLatestWins<V>(log: seq<Change<V>>, key: string)
    ensures Shows(Replay(log), key, Visible(log, key))
  {
    ReplayFromIsLatestWins(map[], log, key);
  }

  /** Two logs give one view exactly when they agree on what each key shows. */
  lemma SameViewIffSameVisible<V>(a: seq<Change<V>>, b: seq<Change<V>>)
    ensures Replay(a) == Replay(b) <==> forall key :: Visible(a, key) == Visible(b, key)
  {
    forall key
      ensures Shows(Replay(a), key, Visible(a, key)) && Shows(Replay(b), key, Visible(b, key))
    {
      ReplayIsLatestWins(a, key);
      ReplayIsLatestWins(b, key);
    }
    if forall key :: Visible(a, key) == Visible(b, key) {
      assert forall key :: key in Replay(a) <==> key in Replay(b) by {
        forall key
          ensures key in Replay(a) <==> key in Replay(b)
        {
          assert Visible(a, key) == Visible(b, key);
          assert Shows(Replay(a), key, Visible(a, key)) && Shows(Replay(b), key, Visible(b, key));
        }
      }
      forall key | key in Replay(a)
        ensures Replay(a)[key] == Replay(b)[key]
      {
        assert Visible(a, key) == Visible(b, key);
        assert Shows(Replay(a), key, Visible(a, key)) && Shows(Replay(b), key, Visible(b, key));
      }
    } else {
      var key :| Visible(a, key) != Visible(b, key);
      assert Shows(Replay(a), key, Visible(a, key)) && Shows(Replay(b), key, Visible(b, key));
    }
  }

  // ---- Partition interleaving ----

  /** The records of `log` that arrived from partition `p`; `from[i]` is the partition of `log[i]`. */
  function FromPartition<V>(log: seq<Change<V>>, from: seq<nat>, p: nat): seq<Change<V>>
    requires |log| == |from|
  {
    if log == [] then []
    else
      var n := |log| - 1;
      var part := FromPartition(log[..n], from[..n], p);
      if from[n] == p then part + [log[n]] else part
  }

  /** `log` is one order in which a consumer may see the partitions `parts`: each stays in order. */
  ghost predicate Interleaves<V(!new)>(log: seq<Change<V>>, from: seq<nat>, parts: nat -> seq<Change<V>>) {
    |log| == |from| && forall p :: FromPartition(log, from, p) == parts(p)
  }

  /** Every record sits on the partition its key hashes to. */
  ghost predicate KeyedBy<V(!new)>(parts: nat -> seq<Change<V>>, partitionOf: string -> nat) {
    forall p: nat, c :: c in parts(p) ==> partitionOf(c.key) == p
  }

  lemma {:induction false} InterleavingKeepsLatest<V>(
    log: seq<Change<V>>, from: seq<nat>, partitionOf: string -> nat, key: string)
    requires |log| == |from|
    requires forall i :: 0 <= i < |log| ==> from[i] == partitionOf(log[i].key)
    ensures Latest(FromPartition(log, from, partitionOf(key)), key) == Latest(log, key)
  {
    if log != [] {
      var n, p := |log| - 1, partitionOf(key);
      InterleavingKeepsLatest(log[..n], from[..n], partitionOf, key);
      var part := FromPartition(log[..n], from[..n], p);
      LatestAppend(part, log[n], key);
      assert FromPartition(log, from, p) == if from[n] == p then part + [log[n]] else part;
      assert Latest(log, key) == if log[n].key == key then Some(log[n]) else Latest(log[..n], key);
    }
  }

  lemma {:induction false} RecordsComeFromTheirPartition<V>(log: seq<Change<V>>, from: seq<nat>, i: nat)
    requires |log| == |from| && i < |log|
    ensures log[i] in FromPartition(log, from, from[i])
  {
    var n := |log| - 1;
    if i < n {
      RecordsComeFromTheirPartition(log[..n], from[..n], i);
      assert log[..n][i] == log[i] && from[..n][i] == from[i];
    }
  }

  /** Any two orders in which the keyed partitions of a topic can be consumed build the same map. */
  lemma InterleavingIndependence<V(!new)>(
    log1: seq<Change<V>>, from1: seq<nat>, log2: seq<Change<V>>, from2: seq<nat>,
    parts: nat -> seq<Change<V>>, partitionOf: string -> nat)
    requires KeyedBy(parts, partitionOf)
    requires Interleaves(log1, from1, parts)
    requires Interleaves(log2, from2, parts)
    ensures Replay(log1) == Replay(log2)
  {
    forall i | 0 <= i < |log1|
      ensures from1[i] == partitionOf(log1[i].key)
    {
      RecordsComeFromTheirPartition(log1, from1, i);
      assert FromPartition(log1, from1, from1[i]) == parts(from1[i]);
    }
    forall i | 0 <= i < |log2|
      ensures from2[i] == partitionOf(log2[i].key)
    {
      RecordsComeFromTheirPartition(log2, from2, i);
      assert FromPartition(log2, from2, from2[i]) == parts(from2[i]);
    }
    forall key
      ensures Visible(log1, key) == Visible(log2, key)
    {
      InterleavingKeepsLatest(log1, from1, partitionOf, key);
      InterleavingKeepsLatest(log2, from2, partitionOf, key);
      assert FromPartition(log1, from1, partitionOf(key)) == parts(partitionOf(key));
    }
    SameViewIffSameVisible(log1, log2);
  }

  // ---- Compaction ----

  function Kept<V>(log: seq<Change<V>>, keep: seq<bool>): seq<Change<V>>
    requires |log| == |keep|
  {
    if log == [] then []
    else
      var n := |log| - 1;
      if keep[n] then Kept(log[..n], keep[..n]) + [log[n]] else Kept(log[..n], keep[..n])
  }

  predicate Superseded<V>(log: seq<Change<V>>, i: nat)
    requires i < |log|
  {
    exists j :: i < j < |log| && log[j].key == log[i].key
  }

  /** A tombstone whose older records have all been removed: the broker may drop it too. */
  predicate SpentTombstone<V>(log: seq<Change<V>>, keep: seq<bool>, i: nat)
    requires |log| == |keep| && i < |log|
  {
    log[i].value.None? && forall j :: 0 <= j < i && log[j].key == log[i].key ==> !keep[j]
  }

  /** What compaction may remove for `key`. */
  predicate Compacts<V>(log: seq<Change<V>>, keep: seq<bool>, key: string)
    requires |log| == |keep|
  {
    forall i :: 0 <= i < |log| && !keep[i] && log[i].key == key ==>
      Superseded(log, i) || SpentTombstone(log, keep, i)
  }

  lemma CompactsPrefix<V>(log: seq<Change<V>>, keep: seq<bool>, key: string)
    requires |log| == |keep| && log != []
    requires Compacts(log, keep, key) && log[|log| - 1].key != key
    ensures Compacts(log[..|log| - 1], keep[..|log| - 1], key)
  {
    var n := |log| - 1;
    forall i | 0 <= i < n && !keep[..n][i] && log[..n][i].key == key
      ensures Superseded(log[..n], i) || SpentTombstone(log[..n], keep[..n], i)
    {
      assert !keep[i] && log[i].key == key;
      if Superseded(log, i) {
        var j :| i < j < |log| && log[j].key == log[i].key;
        assert log[..n][j].key == key;
      }
    }
  }

  lemma {:induction false} KeptDropsKey<V>(log: seq<Change<V>>, keep: seq<bool>, key: string)
    requires |log| == |keep|
    requires forall i :: 0 <= i < |log| && log[i].key == key ==> !keep[i]
    ensures Latest(Kept(log, keep), key).None?
  {
    if log != [] {
      var n := |log| - 1;
      KeptDropsKey(log[..n], keep[..n], key);
      if keep[n] {
        LatestAppend(Kept(log[..n], keep[..n]), log[n], key);
      }
    }
  }

  lemma {:induction false} CompactionKeepsVisible<V>(log: seq<Change<V>>, keep: seq<bool>, key: string)
    requires |log| == |keep|
    requires Compacts(log, keep, key)
    ensures Visible(Kept(log, keep), key) == Visible(log, key)
  {
    if log != [] {
      var n := |log| - 1;
      if keep[n] {
        LatestAppend(Kept(log[..n], keep[..n]), log[n], key);
      }
      if log[n].key != key {
        CompactsPrefix(log, keep, key);
        CompactionKeepsVisible(log[..n], keep[..n], key);
      } else if !keep[n] {
        assert !Superseded(log, n);
        KeptDropsKey(log[..n], keep[..n], key);
      }
    }
  }

  /** A reader that starts from the compacted topic builds the same map as one that saw every record. */
  lemma CompactionIndependence<V>(log: seq<Change<V>>, keep: seq<bool>)
    requires |log| == |keep|
    requires forall key :: Compacts(log, keep, key)
    ensures Replay(Kept(log, keep)) == Replay(log)
  {
    forall key
      ensures Visible(Kept(log, keep), key) == Visible(log, key)
    {
      CompactionKeepsVisible(log, keep, key);
    }
    SameViewIffSameVisible(Kept(log, keep), log);
  }

  // ---- Redelivery ----

  /** A consumption schedule: offsets in the order they were delivered. Each delivery is the next
      offset or, after a rewind to a committed offset, some earlier one. */
  predicate Schedule(offsets: seq<nat>, length: nat) {
    && (offsets != [] ==> offsets[0] == 0)
    && (forall i :: 0 <= i < |offsets| ==> offsets[i] < length)
    && (forall i :: 0 < i < |offsets| ==> offsets[i] <= offsets[i - 1] + 1)
  }

  function Delivered<V>(log: seq<Change<V>>, offsets: seq<nat>): (r: seq<Change<V>>)
    requires forall i :: 0 <= i < |offsets| ==> offsets[i] < |log|
    ensures |r| == |offsets|
  {
    seq(|offsets|, i requires 0 <= i < |offsets| => log[offsets[i]])
  }

  /** The last offset at most `bound` that carries `key`. */
  function LastOffset<V>(log: seq<Change<V>>, key: string, bound: nat): (r: Option<nat>)
    requires bound <= |log|
    ensures r.Some? ==> r.value < bound && log[r.value].key == key
    ensures r.Some? ==> forall i :: r.value < i < bound ==> log[i].key != key
    ensures r.None? ==> forall i :: 0 <= i < bound ==> log[i].key != key
  {
    if bound == 0 then None
    else if log[bound - 1].key == key then Some(bound - 1)
    else LastOffset(log, key, bound - 1)
  }

  /** After any schedule, the newest delivered record of a key that occurs up to the current offset is
      either the newest one up to it, or one from beyond it that was seen before a rewind. */
  lemma {:induction false} ScheduleInvariant<V>(log: seq<Change<V>>, offsets: seq<nat>, key: string) returns (o: nat)
    requires Schedule(offsets, |log|) && offsets != []
    requires LastOffset(log, key, offsets[|offsets| - 1] + 1).Some?
    ensures o in offsets && log[o].key == key
    ensures Latest(Delivered(log, offsets), key) == Some(log[o])
    ensures o == LastOffset(log, key, offsets[|offsets| - 1] + 1).value || o > offsets[|offsets| - 1]
  {
    var n := |offsets| - 1;
    var all := Delivered(log, offsets);
    assert offsets == offsets[..n] + [offsets[n]];
    if log[offsets[n]].key == key {
      return offsets[n];
    }
    assert n > 0;
    assert all[..n] == Delivered(log, offsets[..n]);
    assert LastOffset(log, key, offsets[n - 1] + 1).Some?;
    o := ScheduleInvariant(log, offsets[..n], key);
  }

  /** The consumer stands at the furthest offset it has ever reached. */
  predicate AtFurthest(offsets: seq<nat>) {
    offsets != [] && forall o :: o in offsets ==> o <= offsets[|offsets| - 1]
  }

  lemma LastOfDelivered<V>(log: seq<Change<V>>, offsets: seq<nat>, key: string, last: nat)
    requires Schedule(offsets, |log|) && AtFurthest(offsets) && last == offsets[|offsets| - 1]
    requires LastOffset(log, key, last + 1).Some?
    ensures Latest(Delivered(log, offsets), key) == Some(log[LastOffset(log, key, last + 1).value])
  {
    var o := ScheduleInvariant(log, offsets, key);
    assert o <= last;
  }

  lemma RedeliveryKeepsVisible<V>(log: seq<Change<V>>, offsets: seq<nat>, key: string)
    requires Schedule(offsets, |log|) && AtFurthest(offsets)
    ensures Visible(Delivered(log, offsets), key) == Visible(log[..offsets[|offsets| - 1] + 1], key)
  {
    var last := offsets[|offsets| - 1];
    LatestIsLastOffset(log, key, last + 1);
    if LastOffset(log, key, last + 1).Some? {
      LastOfDelivered(log, offsets, key, last);
    } else {
      assert forall i :: 0 <= i < |offsets| ==> offsets[i] in offsets;
      AbsentStaysAbsent(log, offsets, key, last + 1);
    }
  }

  /** A key that does not occur up to the furthest offset has not been delivered. */
  lemma AbsentStaysAbsent<V>(log: seq<Change<V>>, offsets: seq<nat>, key: string, end: nat)
    requires end <= |log| && forall i :: 0 <= i < |offsets| ==> offsets[i] < end
    requires LastOffset(log, key, end).None?
    ensures Latest(Delivered(log, offsets), key).None?
  {
    forall i | 0 <= i < |offsets|
      ensures Delivered(log, offsets)[i].key != key
    {
      assert log[offsets[i]].key != key;
    }
  }

  /** Whatever was redelivered on the way, a consumer that stands at its furthest offset holds exactly
      the replay of the log up to there. */
  lemma RedeliveryConverges<V>(log: seq<Change<V>>, offsets: seq<nat>)
    requires Schedule(offsets, |log|) && AtFurthest(offsets)
    ensures Replay(Delivered(log, offsets)) == Replay(log[..offsets[|offsets| - 1] + 1])
  {
    var end := offsets[|offsets| - 1] + 1;
    forall key
      ensures Visible(Delivered(log, offsets), key) == Visible(log[..end], key)
    {
      RedeliveryKeepsVisible(log, offsets, key);
    }
    SameViewIffSameVisible(Delivered(log, offsets), log[..end]);
  }

  /** What arrived from one partition is a schedule of its records that has reached their end. */
  ghost predicate Redelivers<V>(arrived: seq<Change<V>>, part: seq<Change<V>>, offsets: seq<nat>) {
    && Schedule(offsets, |part|)
    && arrived == Delivered(part, offsets)
    && if part == [] then offsets == [] else AtFurthest(offsets) && offsets[|offsets| - 1] == |part| - 1
  }

  lemma RedeliveredPartShowsSame<V>(arrived: seq<Change<V>>, part: seq<Change<V>>, offsets: seq<nat>, key: string)
    requires Redelivers(arrived, part, offsets)
    ensures Visible(arrived, key) == Visible(part, key)
  {
    if part != [] {
      RedeliveryKeepsVisible(part, offsets, key);
      assert part[..|part|] == part;
    }
  }

  /** Every record that arrived sits on the partition of its key. */
  lemma RedeliveryKeepsKeys<V(!new)>(
    arrived: seq<Change<V>>, from: seq<nat>, parts: nat -> seq<Change<V>>, offsets: nat -> seq<nat>,
    partitionOf: string -> nat, i: nat)
    requires |arrived| == |from| && i < |arrived| && KeyedBy(parts, partitionOf)
    requires forall p: nat :: Redelivers(FromPartition(arrived, from, p), parts(p), offsets(p))
    ensures from[i] == partitionOf(arrived[i].key)
  {
    var p := from[i];
    RecordsComeFromTheirPartition(arrived, from, i);
    assert Redelivers(FromPartition(arrived, from, p), parts(p), offsets(p));
    var k :| 0 <= k < |offsets(p)| && Delivered(parts(p), offsets(p))[k] == arrived[i];
    assert parts(p)[offsets(p)[k]] == arrived[i];
  }

  /** A consumer of a keyed topic whose partitions interleave in any way and are each rewound on their own,
      any number of times, holds the same map as one that read them once, in any order. */
  lemma PartitionedRedeliveryConverges<V(!new)>(
    arrived: seq<Change<V>>, from: seq<nat>, log: seq<Change<V>>, logFrom: seq<nat>,
    parts: nat -> seq<Change<V>>, offsets: nat -> seq<nat>, partitionOf: string -> nat)
    requires KeyedBy(parts, partitionOf) && Interleaves(log, logFrom, parts)
    requires |arrived| == |from|
    requires forall p: nat :: Redelivers(FromPartition(arrived, from, p), parts(p), offsets(p))
    ensures Replay(arrived) == Replay(log)
  {
    forall i: nat | i < |arrived|
      ensures from[i] == partitionOf(arrived[i].key)
    {
      RedeliveryKeepsKeys(arrived, from, parts, offsets, partitionOf, i);
    }
    forall i: nat | i < |log|
      ensures logFrom[i] == partitionOf(log[i].key)
    {
      RecordsComeFromTheirPartition(log, logFrom, i);
      assert FromPartition(log, logFrom, logFrom[i]) == parts(logFrom[i]);
    }
    forall key
      ensures Visible(arrived, key) == Visible(log, key)
    {
      var p := partitionOf(key);
      InterleavingKeepsLatest(arrived, from, partitionOf, key);
      InterleavingKeepsLatest(log, logFrom, partitionOf, key);
      assert FromPartition(log, logFrom, p) == parts(p);
      RedeliveredPartShowsSame(FromPartition(arrived, from, p), parts(p), offsets(p), key);
    }
    SameViewIffSameVisible(arrived, log);
  }

  lemma {:induction false} LatestIsLastOffset<V>(log: seq<Change<V>>, key: string, bound: nat)
    requires bound <= |log|
    ensures Latest(log[..bound], key) ==
            if LastOffset(log, key, bound).None? then None else Some(log[LastOffset(log, key, bound).value])
  {
    if bound > 0 {
      assert log[..bound][..bound - 1] == log[..bound - 1];
      LatestIsLastOffset(log, key, bound - 1);
    }
  }

  // ---- The DELETE route ----

  lemma {:induction false} ReplayFromConcat<V>(m: map<string, V>, a: seq<Change<V>>, b: seq<Change<V>>)
    ensures ReplayFrom(ReplayFrom(m, a), b) == ReplayFrom(m, a + b)
  {
    if b == [] {
      assert a + b == a;
    } else {
      assert (a + b)[..|a + b| - 1] == a + b[..|b| - 1];
      ReplayFromConcat(m, a, b[..|b| - 1]);
    }
  }

  /** The route publishes a tombstone (at offset `t`) and then deletes locally, at a moment when the
      consumer has applied `n` records. Seen again at `m` applied records, the view is the replay of
      the log exactly when the local delete did not remove a record newer than the tombstone, or a
      still newer record of that customer has arrived since. */
  lemma LocalDelete<V>(log: seq<Change<V>>, customer: string, t: nat, n: nat, m: nat)
    requires t < m && n <= m <= |log|
    requires log[t] == Change(customer, None)
    ensures ReplayFrom(Replay(log[..n]) - {customer}, log[n..m]) == Replay(log[..m])
       <==> (t < n && customer in Replay(log[..n]) ==> Latest(log[n..m], customer).Some?)
  {
    var before := Replay(log[..n]);
    var rest := log[n..m];
    assert log[..n] + rest == log[..m];
    ReplayFromConcat(map[], log[..n], rest);
    var got, want := ReplayFrom(before - {customer}, rest), ReplayFrom(before, rest);
    forall key
      ensures key != customer || Latest(rest, customer).Some? || customer !in before ==>
                (key in got <==> key in want) && (key in got ==> got[key] == want[key])
    {
      ReplayFromIsLatestWins(before - {customer}, rest, key);
      ReplayFromIsLatestWins(before, rest, key);
    }
    ReplayFromIsLatestWins(before - {customer}, rest, customer);
    ReplayFromIsLatestWins(before, rest, customer);
    if n <= t {
      assert rest[t - n] == log[t] && rest[t - n] in rest;
      assert Latest(rest, customer).Some?;
    }
  }
}
