/**
 The in-memory broker (packages/broker/src/adapters/in-memory.ts): one list of records over all topics,
 offsets per partition, a global sequence, and subscriptions that are handed records as they arrive.

 A produce reads the next offset, awaits the codec, and only then takes its sequence number and
 pushes; the two halves are separate methods, and other produces may run in between.
 */
module InMemoryBroker {
  import opened Prelude
  import KeyPartition

  type Key = Option<seq<KeyPartition.CodeUnit>>

  type PartitionCount = n: int | n > 0 witness 1

  datatype StoredRecord<+V> = StoredRecord(
    topic: string, partition: nat, offset: nat, key: Key, value: V, sequence: nat)

  /** A produce that has read its offset and is waiting for the codec. */
  datatype InProgress<+V> = InProgress(topic: string, partition: nat, offset: nat, key: Key, value: V)

  /** `handed` is everything passed on to the subscription's dispatcher, in order. */
  datatype Subscription<+V> = Subscription(
    topics: set<string>, fromBeginning: bool, fromSequence: nat, attached: bool, handed: seq<StoredRecord<V>>)

  datatype Broker<+V> = Broker(records: seq<StoredRecord<V>>, nextSequence: nat, subscriptions: seq<Subscription<V>>)

  datatype Result<+T> = Success(value: T) | NoSuchTopic(topic: string)

  class InMemoryBrokerAdapter<V> {
    var topics: map<string, PartitionCount>
    var records: seq<StoredRecord<V>>
    var nextSequence: nat
    var subscriptions: seq<Subscription<V>>

    function Now(): Broker<V>
      reads this
    {
      Broker(records, nextSequence, subscriptions)
    }

    constructor ()
      ensures topics == map[] && Now() == Empty()
    {
      topics, records, nextSequence, subscriptions := map[], [], 0, [];
    }

    /** Existing topics keep their partition count. */
    method CreateTopic(name: string, partitions: PartitionCount)
      modifies `topics
      ensures name in topics && topics[name] == (if name in old(topics) then old(topics)[name] else partitions)
      ensures topics.Keys == old(topics).Keys + {name}
      ensures forall t :: t in old(topics) ==> topics[t] == old(topics)[t]
    {
      if name !in topics {
        topics := topics[name := partitions];
      }
    }

    /** The first half of a produce: the partition and the offset, as of now. */
    method BeginProduce(topic: string, key: Key, value: V, partition: Option<nat>) returns (r: Result<InProgress<V>>)
      ensures topic !in topics ==> r == NoSuchTopic(topic)
      ensures topic in topics ==>
                var p := if partition.Some? then partition.value else KeyPartition.PartitionOf(key, topics[topic]);
                r == Success(InProgress(topic, p, NextOffset(records, topic, p), key, value))
    {
      if topic !in topics {
        return NoSuchTopic(topic);
      }
      var p: int;
      if partition.Some? {
        p := partition.value;
      } else {
        p := KeyPartition.PartitionForKey(key, topics[topic]);
      }
      var max := -1;
      for i := 0 to |records|
        invariant max == MaxOffset(records[..i], topic, p)
      {
        assert records[..i + 1][..i] == records[..i];
        if records[i].topic == topic && records[i].partition == p {
          max := Max(max, records[i].offset);
        }
      }
      assert records[..|records|] == records;
      return Success(InProgress(topic, p, max + 1, key, value));
    }

    /** The second half: sequence number, push, and delivery to every listening subscription. */
    method FinishProduce(p: InProgress<V>) returns (record: StoredRecord<V>)
      modifies this
      ensures Now() == Push(old(Now()), p) && topics == old(topics)
      ensures record == Recorded(p, old(nextSequence))
    {
      record := Recorded(p, nextSequence);
      nextSequence := nextSequence + 1;
      records := records + [record];
      var before := subscriptions;
      for i := 0 to |subscriptions|
        invariant |subscriptions| == |before|
        invariant forall j :: 0 <= j < i ==> subscriptions[j] == Hand(before[j], record)
        invariant forall j :: i <= j < |before| ==> subscriptions[j] == before[j]
        invariant records == old(records) + [record] && nextSequence == old(nextSequence) + 1 && topics == old(topics)
      {
        var s := subscriptions[i];
        if s.attached && record.topic in s.topics && record.sequence >= s.fromSequence {
          subscriptions := subscriptions[i := s.(handed := s.handed + [record])];
        }
      }
      assert subscriptions == seq(|before|, i requires 0 <= i < |before| => Hand(before[i], record));
    }

    method Consume(topics: set<string>, fromBeginning: bool) returns (index: nat)
      modifies `subscriptions
      ensures Now() == Subscribe(old(Now()), topics, fromBeginning)
      ensures index == |old(subscriptions)|
    {
      var s: Subscription<V> := Subscription(topics, fromBeginning, nextSequence, true, []);
      if fromBeginning {
        for i := 0 to |records|
          invariant s == Subscription(topics, fromBeginning, nextSequence, true,
                                      Filter(History(topics, nextSequence), records[..i]))
        {
          assert records[..i + 1][..i] == records[..i];
          if records[i].sequence < nextSequence && records[i].topic in topics {
            s := s.(handed := s.handed + [records[i]]);
          }
        }
        assert records[..|records|] == records;
      }
      index := |subscriptions|;
      subscriptions := subscriptions + [s];
    }

    method DisposeSubscription(index: nat)
      requires index < |subscriptions|
      modifies `subscriptions
      ensures Now() == Detach(old(Now()), index)
      ensures !subscriptions[index].attached && subscriptions[index].handed == old(subscriptions[index].handed)
      ensures |subscriptions| == |old(subscriptions)|
      ensures forall k :: 0 <= k < |subscriptions| && k != index ==> subscriptions[k] == old(subscriptions)[k]
    {
      subscriptions := subscriptions[index := subscriptions[index].(attached := false)];
    }

    method Disconnect()
      modifies this
      ensures Now() == Disconnected(old(Now())) && topics == map[] && records == []
      ensures forall k :: 0 <= k < |subscriptions| ==> !subscriptions[k].attached
    {
      topics, records := map[], [];
      subscriptions := seq(|subscriptions|, i requires 0 <= i < |subscriptions| reads this =>
        subscriptions[i].(attached := false));
    }
  }

  // ---- Specification ----

  function Empty<V>(): Broker<V> { Broker([], 0, []) }

  /** The largest offset on a partition, -1 when there is none. */
  function MaxOffset<V>(records: seq<StoredRecord<V>>, topic: string, partition: int): (m: int)
    ensures m >= -1
  {
    if records == [] then -1
    else
      var m := MaxOffset(records[..|records| - 1], topic, partition);
      var r := records[|records| - 1];
      if r.topic == topic && r.partition == partition then Max(m, r.offset) else m
  }

  function NextOffset<V>(records: seq<StoredRecord<V>>, topic: string, partition: int): nat {
    MaxOffset(records, topic, partition) + 1
  }

  function Recorded<V>(p: InProgress<V>, sequence: nat): StoredRecord<V> {
    StoredRecord(p.topic, p.partition, p.offset, p.key, p.value, sequence)
  }

  function Hand<V>(s: Subscription<V>, r: StoredRecord<V>): Subscription<V> {
    if s.attached && r.topic in s.topics && r.sequence >= s.fromSequence then s.(handed := s.handed + [r]) else s
  }

  function Push<V>(b: Broker<V>, p: InProgress<V>): Broker<V> {
    var r := Recorded(p, b.nextSequence);
    Broker(b.records + [r], b.nextSequence + 1,
           seq(|b.subscriptions|, i requires 0 <= i < |b.subscriptions| => Hand(b.subscriptions[i], r)))
  }

  function History<V>(topics: set<string>, before: nat): StoredRecord<V> -> bool {
    (r: StoredRecord<V>) => r.sequence < before && r.topic in topics
  }

  function Subscribe<V>(b: Broker<V>, topics: set<string>, fromBeginning: bool): Broker<V> {
    var past := if fromBeginning then Filter(History(topics, b.nextSequence), b.records) else [];
    b.(subscriptions := b.subscriptions + [Subscription(topics, fromBeginning, b.nextSequence, true, past)])
  }

  function Detach<V>(b: Broker<V>, index: nat): Broker<V>
    requires index < |b.subscriptions|
  {
    b.(subscriptions := b.subscriptions[index := b.subscriptions[index].(attached := false)])
  }

  function Disconnected<V>(b: Broker<V>): Broker<V> {
    b.(records := [],
       subscriptions := seq(|b.subscriptions|, i requires 0 <= i < |b.subscriptions| =>
         b.subscriptions[i].(attached := false)))
  }

  // ---- Runs: produces may overlap ----

  datatype Event<+V> =
    | Begin(topic: string, partition: nat, key: Key, value: V)
    | Finish(which: nat)
    | Abandon(which: nat) // the codec threw
    | Consume(topics: set<string>, fromBeginning: bool)
    | Dispose(index: nat)
    | Disconnect

  datatype World<+V> = World(broker: Broker<V>, pending: seq<InProgress<V>>)

  function Drop<T>(s: seq<T>, i: nat): seq<T>
    requires i < |s|
  {
    s[..i] + s[i + 1..]
  }

  function Step<V>(w: World<V>, e: Event<V>): World<V> {
    match e
    case Begin(topic, partition, key, value) =>
      var offset := NextOffset(w.broker.records, topic, partition);
      w.(pending := w.pending + [InProgress(topic, partition, offset, key, value)])
    case Finish(i) =>
      if i < |w.pending| then World(Push(w.broker, w.pending[i]), Drop(w.pending, i)) else w
    case Abandon(i) => if i < |w.pending| then w.(pending := Drop(w.pending, i)) else w
    case Consume(topics, fromBeginning) => w.(broker := Subscribe(w.broker, topics, fromBeginning))
    case Dispose(i) => if i < |w.broker.subscriptions| then w.(broker := Detach(w.broker, i)) else w
    case Disconnect => w.(broker := Disconnected(w.broker))
  }

  function Run<V>(events: seq<Event<V>>): World<V> {
    if events == [] then World(Empty(), []) else Step(Run(events[..|events| - 1]), events[|events| - 1])
  }

  // ---- Hand-off ----

  /** The records a subscription is for: all on its topics, or only those after it began. */
  function Wants<V>(s: Subscription<V>): StoredRecord<V> -> bool {
    var (topics, all, from) := (s.topics, s.fromBeginning, s.fromSequence);
    (r: StoredRecord<V>) => r.topic in topics && (all || r.sequence >= from)
  }

  ghost predicate Sequenced<V>(b: Broker<V>) {
    && (forall i, j :: 0 <= i < j < |b.records| ==> b.records[i].sequence < b.records[j].sequence)
    && (forall i :: 0 <= i < |b.records| ==> b.records[i].sequence < b.nextSequence)
    && (forall k :: 0 <= k < |b.subscriptions| ==> b.subscriptions[k].fromSequence <= b.nextSequence)
  }

  ghost predicate HandedExactly<V>(b: Broker<V>) {
    forall k :: 0 <= k < |b.subscriptions| && b.subscriptions[k].attached ==>
      b.subscriptions[k].handed == Filter(Wants(b.subscriptions[k]), b.records)
  }

  lemma FilterAppend<T>(keep: T -> bool, s: seq<T>, x: T)
    ensures Filter(keep, s + [x]) == if keep(x) then Filter(keep, s) + [x] else Filter(keep, s)
  {
    assert (s + [x])[..|s|] == s;
  }

  lemma PushKeepsHanded<V>(b: Broker<V>, p: InProgress<V>)
    requires Sequenced(b) && HandedExactly(b)
    ensures Sequenced(Push(b, p)) && HandedExactly(Push(b, p))
  {
    var r := Recorded(p, b.nextSequence);
    var c := Push(b, p);
    forall k | 0 <= k < |c.subscriptions| && c.subscriptions[k].attached
      ensures c.subscriptions[k].handed == Filter(Wants(c.subscriptions[k]), c.records)
    {
      var s := b.subscriptions[k];
      assert s.handed == Filter(Wants(s), b.records);
      assert Wants(c.subscriptions[k]) == Wants(s);
      FilterAppend(Wants(s), b.records, r);
    }
  }

  /** Filtering by two predicates that agree on the records gives the same records. */
  lemma {:induction false} FilterSame<V>(
    p: StoredRecord<V> -> bool, q: StoredRecord<V> -> bool, s: seq<StoredRecord<V>>)
    requires forall i :: 0 <= i < |s| ==> p(s[i]) == q(s[i])
    ensures Filter(p, s) == Filter(q, s)
  {
    if s != [] {
      FilterSame(p, q, s[..|s| - 1]);
    }
  }

  lemma {:induction false} FilterNone<V>(p: StoredRecord<V> -> bool, s: seq<StoredRecord<V>>)
    requires forall i :: 0 <= i < |s| ==> !p(s[i])
    ensures Filter(p, s) == []
  {
    if s != [] {
      FilterNone(p, s[..|s| - 1]);
    }
  }

  lemma SubscribeKeepsHanded<V>(b: Broker<V>, topics: set<string>, fromBeginning: bool)
    requires Sequenced(b) && HandedExactly(b)
    ensures Sequenced(Subscribe(b, topics, fromBeginning)) && HandedExactly(Subscribe(b, topics, fromBeginning))
  {
    var c := Subscribe(b, topics, fromBeginning);
    var s := c.subscriptions[|b.subscriptions|];
    if fromBeginning {
      FilterSame(History(topics, b.nextSequence), Wants(s), b.records);
    } else {
      FilterNone(Wants(s), b.records);
    }
    assert forall k :: 0 <= k < |b.subscriptions| ==> c.subscriptions[k] == b.subscriptions[k];
  }

  /** In every run, also with overlapping produces: stored sequence numbers are strictly increasing, and a
      subscription that is neither disposed nor disconnected has been handed exactly the stored records
      it is for, each once, in sequence order. */
  lemma {:induction false} ExactlyOnceHandOff<V>(events: seq<Event<V>>)
    ensures Sequenced(Run(events).broker) && HandedExactly(Run(events).broker)
  {
    if events != [] {
      var w := Run(events[..|events| - 1]);
      ExactlyOnceHandOff(events[..|events| - 1]);
      match events[|events| - 1]
      case Finish(i) =>
        if i < (|w.pending|) {
          PushKeepsHanded(w.broker, w.pending[i]);
        }
      case Consume(topics, fromBeginning) =>
        SubscribeKeepsHanded(w.broker, topics, fromBeginning);
      case _ =>
    }
  }

  lemma PushSkipsDetached<V>(b: Broker<V>, p: InProgress<V>, k: nat)
    requires k < |b.subscriptions| && !b.subscriptions[k].attached
    ensures k < |Push(b, p).subscriptions| && Push(b, p).subscriptions[k] == b.subscriptions[k]
  {
  }

  lemma StepSkipsDetached<V>(w: World<V>, e: Event<V>, k: nat)
    requires k < |w.broker.subscriptions| && !w.broker.subscriptions[k].attached
    ensures k < |Step(w, e).broker.subscriptions|
    ensures Step(w, e).broker.subscriptions[k] == w.broker.subscriptions[k]
  {
    if e.Finish? && e.which < |w.pending| {
      PushSkipsDetached(w.broker, w.pending[e.which], k);
    }
  }

  /** After disposal or disconnection a subscription is handed nothing more. */
  lemma {:induction false} DetachedGetsNothing<V>(before: seq<Event<V>>, after: seq<Event<V>>, k: nat)
    requires k < |Run(before).broker.subscriptions| && !Run(before).broker.subscriptions[k].attached
    ensures k < |Run(before + after).broker.subscriptions|
    ensures Run(before + after).broker.subscriptions[k] == Run(before).broker.subscriptions[k]
  {
    if after == [] {
      assert before + after == before;
    } else {
      assert (before + after)[..|before + after| - 1] == before + after[..|after| - 1];
      DetachedGetsNothing(before, after[..|after| - 1], k);
      StepSkipsDetached(Run(before + after[..|after| - 1]), after[|after| - 1], k);
    }
  }

  // ---- Offsets ----

  function OffsetsOn<V>(records: seq<StoredRecord<V>>, topic: string, partition: nat): seq<nat> {
    if records == [] then []
    else
      var rest := OffsetsOn(records[..|records| - 1], topic, partition);
      var r := records[|records| - 1];
      if r.topic == topic && r.partition == partition then rest + [r.offset] else rest
  }

  predicate Counting(offsets: seq<nat>) {
    forall i :: 0 <= i < |offsets| ==> offsets[i] == i
  }

  lemma {:induction false} NextOffsetCounts<V>(records: seq<StoredRecord<V>>, topic: string, partition: nat)
    requires Counting(OffsetsOn(records, topic, partition))
    ensures NextOffset(records, topic, partition) == |OffsetsOn(records, topic, partition)|
  {
    if records != [] {
      var all, rest := OffsetsOn(records, topic, partition), OffsetsOn(records[..|records| - 1], topic, partition);
      assert rest <= all;
      assert Counting(rest) by {
        assert forall i :: 0 <= i < |rest| ==> rest[i] == all[i];
      }
      NextOffsetCounts(records[..|records| - 1], topic, partition);
      assert |all| > |rest| ==> all[|rest|] == |rest| && all[|rest|] == records[|records| - 1].offset;
    }
  }

  lemma OffsetsAppend<V>(records: seq<StoredRecord<V>>, r: StoredRecord<V>, topic: string, partition: nat)
    ensures OffsetsOn(records + [r], topic, partition) ==
            OffsetsOn(records, topic, partition) +
            if r.topic == topic && r.partition == partition then [r.offset] else []
  {
    assert (records + [r])[..|records|] == records;
  }

  lemma CountingAppend(offsets: seq<nat>, o: nat)
    ensures Counting(offsets + [o]) <==> Counting(offsets) && o == |offsets|
  {
    if Counting(offsets + [o]) {
      assert forall i :: 0 <= i < |offsets| ==> (offsets + [o])[i] == offsets[i];
      assert (offsets + [o])[|offsets|] == o;
    }
  }

  /** A push keeps a partition counting exactly when the record goes elsewhere or holds the next offset. */
  lemma PushKeepsCountingIff<V>(b: Broker<V>, p: InProgress<V>, topic: string, partition: nat)
    ensures
      var before := OffsetsOn(b.records, topic, partition);
      var after := OffsetsOn(Push(b, p).records, topic, partition);
      var here := p.topic == topic && p.partition == partition;
      && after == before + (if here then [p.offset] else [])
      && (Counting(after) <==> Counting(before) && (here ==> p.offset == |before|))
  {
    OffsetsAppend(b.records, Recorded(p, b.nextSequence), topic, partition);
    CountingAppend(OffsetsOn(b.records, topic, partition), p.offset);
  }

  // ---- Exactly when offsets count ----

  /** A produce in progress by when it began, and a finished one by when it began and finished. Times are positions in
      the sequence of events. */
  datatype Started = Started(topic: string, partition: nat, at: nat)

  datatype Span = Span(topic: string, partition: nat, begun: nat, finished: nat)

  datatype Timeline = Timeline(started: seq<Started>, spans: seq<Span>)

  /** The produces in progress, and those whose records are stored. */
  function TimelineOf<V>(events: seq<Event<V>>): Timeline {
    if events == [] then Timeline([], [])
    else Advance(TimelineOf(events[..|events| - 1]), events[|events| - 1], |events| - 1)
  }

  function Advance<V>(t: Timeline, e: Event<V>, now: nat): Timeline {
    match e
    case Begin(topic, partition, _, _) => t.(started := t.started + [Started(topic, partition, now)])
    case Finish(i) =>
      if i < |t.started|
      then Timeline(Drop(t.started, i),
                    t.spans + [Span(t.started[i].topic, t.started[i].partition, t.started[i].at, now)])
      else t
    case Abandon(i) => if i < |t.started| then t.(started := Drop(t.started, i)) else t
    case Disconnect => t.(spans := [])
    case _ => t
  }

  /** The i-th event is the beginning of a produce with this topic, partition, key and value. */
  predicate Began<V(==)>(events: seq<Event<V>>, i: nat, topic: string, partition: nat, key: Key, value: V) {
    i < |events| && events[i] == Begin(topic, partition, key, value)
  }

  /** Every produce in progress and every stored record has the topic, partition, key and value that its own
      produce began with. */
  ghost predicate KeepsWhatBegan<V>(events: seq<Event<V>>, w: World<V>, t: Timeline) {
    && |t.started| == |w.pending| && |t.spans| == |w.broker.records|
    && (forall k :: 0 <= k < |w.pending| ==>
          var p := w.pending[k]; Began(events, t.started[k].at, p.topic, p.partition, p.key, p.value))
    && (forall x :: 0 <= x < |w.broker.records| ==>
          var r := w.broker.records[x]; Began(events, t.spans[x].begun, r.topic, r.partition, r.key, r.value))
  }

  lemma DropAt<T>(s: seq<T>, i: nat)
    requires i < |s|
    ensures forall k :: 0 <= k < |s| - 1 ==> Drop(s, i)[k] == s[if k < i then k else k + 1]
  {
  }

  lemma StepKeepsWhatBegan<V>(events: seq<Event<V>>, e: Event<V>, w: World<V>, t: Timeline)
    requires KeepsWhatBegan(events, w, t)
    ensures KeepsWhatBegan(events + [e], Step(w, e), Advance(t, e, |events|))
  {
    var all := events + [e];
    assert all[|events|] == e && forall i :: 0 <= i < |events| ==> all[i] == events[i];
    match e
    case Finish(i) =>
      if i < (|w.pending|) {
        DropAt(w.pending, i);
        DropAt(t.started, i);
      }
    case Abandon(i) =>
      if i < (|w.pending|) {
        DropAt(w.pending, i);
        DropAt(t.started, i);
      }
    case _ =>
  }

  /** In every run, also with overlapping produces: the records are stored in the order in which their
      produces finished, and each carries the topic, partition, key and value given to its own. */
  lemma {:induction false} StoredAsProduced<V>(events: seq<Event<V>>)
    ensures KeepsWhatBegan(events, Run(events), TimelineOf(events))
  {
    if events != [] {
      var n := |events| - 1;
      StoredAsProduced(events[..n]);
      StepKeepsWhatBegan(events[..n], events[n], Run(events[..n]), TimelineOf(events[..n]));
      assert events[..n] + [events[n]] == events;
    }
  }

  predicate On(s: Span, topic: string, partition: nat) { s.topic == topic && s.partition == partition }

  /** A produce to the partition finished while another one, which finished later, was waiting for its codec. */
  ghost predicate Undercut(spans: seq<Span>, topic: string, partition: nat) {
    exists x, y ::
      && 0 <= x < |spans| && 0 <= y < |spans| && On(spans[x], topic, partition) && On(spans[y], topic, partition)
      && spans[x].begun < spans[y].finished < spans[x].finished
  }

  /** How many produces to the partition had finished by a time. */
  function FinishedBy(spans: seq<Span>, topic: string, partition: nat, time: int): nat {
    if spans == [] then 0
    else
      var last := spans[|spans| - 1];
      FinishedBy(spans[..|spans| - 1], topic, partition, time) +
      if On(last, topic, partition) && last.finished <= time then 1 else 0
  }

  lemma FinishedByAppend(spans: seq<Span>, s: Span, topic: string, partition: nat, time: int)
    ensures FinishedBy(spans + [s], topic, partition, time) ==
            FinishedBy(spans, topic, partition, time) + if On(s, topic, partition) && s.finished <= time then 1 else 0
  {
    assert (spans + [s])[..|spans|] == spans;
  }

  /** No produce to the partition finished after `time`. */
  predicate NoneSince(spans: seq<Span>, topic: string, partition: nat, time: nat) {
    forall y :: 0 <= y < |spans| && On(spans[y], topic, partition) ==> spans[y].finished <= time
  }

  lemma {:induction false} AllFinishedByIff(spans: seq<Span>, topic: string, partition: nat, time: nat, now: nat)
    requires time <= now && forall y :: 0 <= y < |spans| ==> spans[y].finished < now
    ensures FinishedBy(spans, topic, partition, time) <= FinishedBy(spans, topic, partition, now)
    ensures FinishedBy(spans, topic, partition, time) == FinishedBy(spans, topic, partition, now)
       <==> NoneSince(spans, topic, partition, time)
  {
    if spans != [] {
      var n := |spans| - 1;
      AllFinishedByIff(spans[..n], topic, partition, time, now);
      assert NoneSince(spans, topic, partition, time) <==>
             NoneSince(spans[..n], topic, partition, time) &&
             (On(spans[n], topic, partition) ==> spans[n].finished <= time)
      by {
        assert forall y :: 0 <= y < n ==> spans[..n][y] == spans[y];
      }
    }
  }

  /** A newly finished produce, later than all others, undercuts nobody; it was undercut if one finished since it
      began. */
  lemma UndercutAppend(spans: seq<Span>, s: Span, topic: string, partition: nat)
    requires forall y :: 0 <= y < |spans| ==> spans[y].finished < s.finished
    ensures Undercut(spans + [s], topic, partition)
       <==> Undercut(spans, topic, partition) ||
            (On(s, topic, partition) && !NoneSince(spans, topic, partition, s.begun))
  {
    var all, n := spans + [s], |spans|;
    assert all[n] == s && forall y :: 0 <= y < n ==> all[y] == spans[y];
    if Undercut(all, topic, partition) {
      var x, y :| 0 <= x < |all| && 0 <= y < |all| && On(all[x], topic, partition) && On(all[y], topic, partition)
        && all[x].begun < all[y].finished < all[x].finished;
      assert y < n;
      if x < n {
        assert On(spans[x], topic, partition) && On(spans[y], topic, partition);
      } else {
        assert On(spans[y], topic, partition);
      }
    }
    if Undercut(spans, topic, partition) {
      var x, y :| 0 <= x < n && 0 <= y < n && On(spans[x], topic, partition) && On(spans[y], topic, partition)
        && spans[x].begun < spans[y].finished < spans[x].finished;
      assert all[x] == spans[x] && all[y] == spans[y];
    }
    if On(s, topic, partition) && !NoneSince(spans, topic, partition, s.begun) {
      var y :| 0 <= y < n && On(spans[y], topic, partition) && spans[y].finished > s.begun;
      assert all[y] == spans[y];
    }
  }

  /** The timeline fits the broker; as long as a partition counts, a produce in progress there holds the number of
      records that were stored when it began. */
  ghost predicate Fits<V>(w: World<V>, t: Timeline, now: nat) {
    && |t.started| == |w.pending|
    && (forall k :: 0 <= k < |t.started| ==>
          t.started[k].topic == w.pending[k].topic && t.started[k].partition == w.pending[k].partition
          && t.started[k].at < now)
    && (forall y :: 0 <= y < |t.spans| ==> t.spans[y].finished < now)
  }

  ghost predicate HoldsCounts<V>(w: World<V>, t: Timeline, topic: string, partition: nat)
    requires |t.started| == |w.pending|
  {
    forall k :: 0 <= k < |w.pending| && w.pending[k].topic == topic && w.pending[k].partition == partition ==>
      w.pending[k].offset == FinishedBy(t.spans, topic, partition, t.started[k].at)
  }

  ghost predicate Exact<V>(w: World<V>, t: Timeline, now: nat, topic: string, partition: nat) {
    && Fits(w, t, now)
    && |OffsetsOn(w.broker.records, topic, partition)| == FinishedBy(t.spans, topic, partition, now)
    && (Counting(OffsetsOn(w.broker.records, topic, partition)) <==> !Undercut(t.spans, topic, partition))
    && (Counting(OffsetsOn(w.broker.records, topic, partition)) ==> HoldsCounts(w, t, topic, partition))
  }

  lemma {:induction false} FinishedByLater(spans: seq<Span>, topic: string, partition: nat, now: nat)
    requires forall y :: 0 <= y < |spans| ==> spans[y].finished < now
    ensures FinishedBy(spans, topic, partition, now + 1) == FinishedBy(spans, topic, partition, now)
  {
    AllFinishedByIff(spans, topic, partition, now, now + 1);
  }

  lemma BeginKeepsExact<V>(w: World<V>, t: Timeline, now: nat, e: Event<V>, topic: string, partition: nat)
    requires Exact(w, t, now, topic, partition) && e.Begin?
    ensures Exact(Step(w, e), Advance(t, e, now), now + 1, topic, partition)
  {
    FinishedByLater(t.spans, topic, partition, now);
    if Counting(OffsetsOn(w.broker.records, topic, partition)) {
      NextOffsetCounts(w.broker.records, topic, partition);
    }
  }

  lemma DropKeepsPairs<V>(w: World<V>, t: Timeline, now: nat, i: nat, topic: string, partition: nat)
    requires Fits(w, t, now) && i < |w.pending|
    ensures var u, v := w.(pending := Drop(w.pending, i)), t.(started := Drop(t.started, i));
            Fits(u, v, now) && (HoldsCounts(w, t, topic, partition) ==> HoldsCounts(u, v, topic, partition))
  {
    var u, v := Drop(w.pending, i), Drop(t.started, i);
    forall k | 0 <= k < |u|
      ensures u[k] == w.pending[if k < i then k else k + 1] && v[k] == t.started[if k < i then k else k + 1]
    {
    }
  }

  lemma AbandonKeepsExact<V>(w: World<V>, t: Timeline, now: nat, i: nat, topic: string, partition: nat)
    requires Exact(w, t, now, topic, partition)
    ensures Exact(Step(w, Abandon(i)), Advance(t, Event<V>.Abandon(i), now), now + 1, topic, partition)
  {
    FinishedByLater(t.spans, topic, partition, now);
    if i < |w.pending| {
      DropKeepsPairs(w, t, now, i, topic, partition);
    }
  }

  lemma FinishKeepsCounts<V>(w: World<V>, t: Timeline, now: nat, s: Span, topic: string, partition: nat)
    requires Fits(w, t, now) && HoldsCounts(w, t, topic, partition) && s.finished == now
    ensures HoldsCounts(w, t.(spans := t.spans + [s]), topic, partition)
  {
    forall k | 0 <= k < |w.pending| && w.pending[k].topic == topic && w.pending[k].partition == partition
      ensures w.pending[k].offset == FinishedBy(t.spans + [s], topic, partition, t.started[k].at)
    {
      FinishedByAppend(t.spans, s, topic, partition, t.started[k].at);
    }
  }

  lemma HoldsCountsIgnoresBroker<V>(w: World<V>, u: World<V>, t: Timeline, topic: string, partition: nat)
    requires |t.started| == |w.pending| && u.pending == w.pending && HoldsCounts(w, t, topic, partition)
    ensures HoldsCounts(u, t, topic, partition)
  {
  }

  lemma FinishKeepsExact<V>(w: World<V>, t: Timeline, now: nat, i: nat, topic: string, partition: nat)
    requires Exact(w, t, now, topic, partition) && i < |w.pending|
    ensures Exact(Step(w, Finish(i)), Advance(t, Event<V>.Finish(i), now), now + 1, topic, partition)
  {
    var p, b := w.pending[i], t.started[i];
    var s := Span(b.topic, b.partition, b.at, now);
    var u, v := Step(w, Finish(i)), Advance(t, Event<V>.Finish(i), now);
    PushKeepsCountingIff(w.broker, p, topic, partition);
    FinishedByLater(t.spans, topic, partition, now);
    FinishedByAppend(t.spans, s, topic, partition, now + 1);
    AllFinishedByIff(t.spans, topic, partition, b.at, now);
    UndercutAppend(t.spans, s, topic, partition);
    DropKeepsPairs(w, t, now, i, topic, partition);
    if Counting(OffsetsOn(u.broker.records, topic, partition)) {
      var dropped, left := w.(pending := Drop(w.pending, i)), t.(started := Drop(t.started, i));
      FinishKeepsCounts(dropped, left, now, s, topic, partition);
      HoldsCountsIgnoresBroker(dropped, u, v, topic, partition);
    }
  }

  lemma DisconnectKeepsExact<V>(w: World<V>, t: Timeline, now: nat, topic: string, partition: nat)
    requires Exact(w, t, now, topic, partition) && !InUse(w.pending, topic, partition)
    ensures Exact(Step(w, Disconnect), Advance(t, Event<V>.Disconnect, now), now + 1, topic, partition)
  {
  }

  predicate InUse<V>(pending: seq<InProgress<V>>, topic: string, partition: nat) {
    exists i :: 0 <= i < |pending| && pending[i].topic == topic && pending[i].partition == partition
  }

  /** The broker is never disconnected under a produce to the partition. */
  ghost predicate Connected<V>(events: seq<Event<V>>, topic: string, partition: nat) {
    forall i :: 0 <= i < |events| && events[i].Disconnect? ==> !InUse(Run(events[..i]).pending, topic, partition)
  }

  lemma {:induction false} RunsAreExact<V>(events: seq<Event<V>>, topic: string, partition: nat)
    requires Connected(events, topic, partition)
    ensures Exact(Run(events), TimelineOf(events), |events|, topic, partition)
  {
    if events != [] {
      var n := |events| - 1;
      var prefix := events[..n];
      assert forall i :: 0 <= i < n ==> prefix[..i] == events[..i];
      RunsAreExact(prefix, topic, partition);
      var w, t := Run(prefix), TimelineOf(prefix);
      match events[n]
      case Begin(_, _, _, _) => BeginKeepsExact(w, t, n, events[n], topic, partition);
      case Finish(i) =>
        if i < (|w.pending|) {
          FinishKeepsExact(w, t, n, i, topic, partition);
        } else {
          FinishedByLater(t.spans, topic, partition, n);
        }
      case Abandon(i) => AbandonKeepsExact(w, t, n, i, topic, partition);
      case Disconnect => DisconnectKeepsExact(w, t, n, topic, partition);
      case _ => FinishedByLater(t.spans, topic, partition, n);
    }
  }

  /** In every run, whatever happens on other partitions: a partition holds the offsets 0, 1, 2, ... if and only if no
      stored produce to it was undercut, that is, no other one finished between its beginning and its end. */
  lemma OffsetsCountIffNoneUndercut<V>(events: seq<Event<V>>, topic: string, partition: nat)
    requires Connected(events, topic, partition)
    ensures Counting(OffsetsOn(Run(events).broker.records, topic, partition))
       <==> !Undercut(TimelineOf(events).spans, topic, partition)
  {
    RunsAreExact(events, topic, partition);
  }

  /** No produce begins on the partition while another is in progress there. */
  ghost predicate NonOverlappingOn<V>(events: seq<Event<V>>, topic: string, partition: nat) {
    forall i ::
      0 <= i < |events| && events[i].Begin? && events[i].topic == topic && events[i].partition == partition ==>
      !InUse(Run(events[..i]).pending, topic, partition)
  }

  predicate Busy(s: Started, topic: string, partition: nat) { s.topic == topic && s.partition == partition }

  /** At most one produce to the partition is in progress, and none has finished since it began. */
  ghost predicate AtMostOne(t: Timeline, topic: string, partition: nat) {
    && (forall j, k :: 0 <= j < k < |t.started| ==>
          !Busy(t.started[j], topic, partition) || !Busy(t.started[k], topic, partition))
    && (forall k :: 0 <= k < |t.started| && Busy(t.started[k], topic, partition) ==>
          NoneSince(t.spans, topic, partition, t.started[k].at))
  }

  lemma BeginKeepsAtMostOne(t: Timeline, s: Started, topic: string, partition: nat)
    requires AtMostOne(t, topic, partition)
    requires forall y :: 0 <= y < |t.spans| ==> t.spans[y].finished < s.at
    requires Busy(s, topic, partition) ==>
               forall k :: 0 <= k < |t.started| ==> !Busy(t.started[k], topic, partition)
    ensures AtMostOne(t.(started := t.started + [s]), topic, partition)
  {
  }

  lemma DropKeepsAtMostOne(t: Timeline, i: nat, topic: string, partition: nat)
    requires AtMostOne(t, topic, partition) && i < |t.started|
    ensures AtMostOne(t.(started := Drop(t.started, i)), topic, partition)
    ensures Busy(t.started[i], topic, partition) ==>
              forall k :: 0 <= k < |t.started| - 1 ==> !Busy(Drop(t.started, i)[k], topic, partition)
  {
    var rest := Drop(t.started, i);
    forall k | 0 <= k < |rest|
      ensures rest[k] == t.started[if k < i then k else k + 1]
    {
    }
  }

  lemma FinishKeepsAtMostOne(t: Timeline, s: Span, topic: string, partition: nat)
    requires AtMostOne(t, topic, partition)
    requires On(s, topic, partition) ==>
               forall k :: 0 <= k < |t.started| ==> !Busy(t.started[k], topic, partition)
    ensures AtMostOne(t.(spans := t.spans + [s]), topic, partition)
  {
  }

  lemma AdvanceKeepsAtMostOne<V>(w: World<V>, t: Timeline, now: nat, e: Event<V>, topic: string, partition: nat)
    requires Fits(w, t, now) && AtMostOne(t, topic, partition) && !Undercut(t.spans, topic, partition)
    requires e.Begin? && e.topic == topic && e.partition == partition ==> !InUse(w.pending, topic, partition)
    ensures AtMostOne(Advance(t, e, now), topic, partition) && !Undercut(Advance(t, e, now).spans, topic, partition)
  {
    match e
    case Begin(other, at, _, _) =>
      forall k | 0 <= k < |t.started| && Busy(t.started[k], topic, partition)
        ensures InUse(w.pending, topic, partition)
      {
        assert w.pending[k].topic == topic && w.pending[k].partition == partition;
      }
      BeginKeepsAtMostOne(t, Started(other, at, now), topic, partition);
    case Finish(i) =>
      if i < (|t.started|) {
        var s := Span(t.started[i].topic, t.started[i].partition, t.started[i].at, now);
        UndercutAppend(t.spans, s, topic, partition);
        DropKeepsAtMostOne(t, i, topic, partition);
        FinishKeepsAtMostOne(t.(started := Drop(t.started, i)), s, topic, partition);
      }
    case Abandon(i) =>
      if i < (|t.started|) {
        DropKeepsAtMostOne(t, i, topic, partition);
      }
    case _ =>
  }

  lemma {:induction false} NonOverlappingIsNotUndercut<V>(events: seq<Event<V>>, topic: string, partition: nat)
    requires NonOverlappingOn(events, topic, partition) && Connected(events, topic, partition)
    ensures AtMostOne(TimelineOf(events), topic, partition) && !Undercut(TimelineOf(events).spans, topic, partition)
  {
    if events != [] {
      var n := |events| - 1;
      var prefix := events[..n];
      assert forall i :: 0 <= i < n ==> prefix[..i] == events[..i];
      NonOverlappingIsNotUndercut(prefix, topic, partition);
      RunsAreExact(prefix, topic, partition);
      AdvanceKeepsAtMostOne(Run(prefix), TimelineOf(prefix), n, events[n], topic, partition);
    }
  }

  /** When produces to a partition do not overlap, it holds the offsets 0, 1, 2, ..., whatever overlaps elsewhere. */
  lemma OffsetsAreDense<V>(events: seq<Event<V>>, topic: string, partition: nat)
    requires NonOverlappingOn(events, topic, partition) && Connected(events, topic, partition)
    ensures Counting(OffsetsOn(Run(events).broker.records, topic, partition))
  {
    NonOverlappingIsNotUndercut(events, topic, partition);
    OffsetsCountIffNoneUndercut(events, topic, partition);
  }

  lemma RunSnoc<V>(events: seq<Event<V>>, e: Event<V>)
    ensures Run(events + [e]) == Step(Run(events), e)
  {
    assert (events + [e])[..|events|] == events;
  }

  /** Two produces that have begun in one state, finished one after the other. */
  lemma TwoFinishes<V>(w: World<V>, p: InProgress<V>, q: InProgress<V>)
    ensures var m := |w.pending|;
            Step(Step(w.(pending := w.pending + [p] + [q]), Finish(m)), Finish(m))
            == w.(broker := Push(Push(w.broker, p), q))
  {
    var m := |w.pending|;
    assert Drop(w.pending + [p] + [q], m) == w.pending + [q];
    assert Drop(w.pending + [q], m) == w.pending;
  }

  lemma OverlappingRun<V>(events: seq<Event<V>>, p: InProgress<V>, q: InProgress<V>)
    requires p.offset == q.offset == NextOffset(Run(events).broker.records, p.topic, p.partition)
    requires p.topic == q.topic && p.partition == q.partition
    ensures var m := |Run(events).pending|;
            Run(events + [Begin(p.topic, p.partition, p.key, p.value), Begin(q.topic, q.partition, q.key, q.value),
                          Finish(m), Finish(m)]).broker == Push(Push(Run(events).broker, p), q)
  {
    var w, m := Run(events), |Run(events).pending|;
    var e1 := Begin(p.topic, p.partition, p.key, p.value);
    var e2, e3 := Begin(q.topic, q.partition, q.key, q.value), Event<V>.Finish(m);
    RunSnoc(events, e1);
    RunSnoc(events + [e1], e2);
    RunSnoc(events + [e1] + [e2], e3);
    RunSnoc(events + [e1] + [e2] + [e3], e3);
    assert events + [e1, e2, e3, e3] == events + [e1] + [e2] + [e3] + [e3];
    TwoFinishes(w, p, q);
  }

  /** The failing input: after any history, two produces to one partition begin before either finishes. They store one
      offset twice, under different sequence numbers, and the partition no longer counts. */
  lemma OverlapSharesOffset<V>(
    events: seq<Event<V>>, topic: string, partition: nat, k1: Key, v1: V, k2: Key, v2: V)
    ensures
      var m := |Run(events).pending|;
      var overlapping := [Begin(topic, partition, k1, v1), Begin(topic, partition, k2, v2), Finish(m), Finish(m)];
      var before, after := Run(events).broker.records, Run(events + overlapping).broker.records;
      var n := |before|;
      && |after| == n + 2 && after[..n] == before
      && after[n].topic == after[n + 1].topic == topic && after[n].partition == after[n + 1].partition == partition
      && after[n].offset == after[n + 1].offset && after[n].sequence < after[n + 1].sequence
      && !Counting(OffsetsOn(after, topic, partition))
  {
    var b := Run(events).broker;
    var o := NextOffset(b.records, topic, partition);
    OverlappingRun(events, InProgress(topic, partition, o, k1, v1), InProgress(topic, partition, o, k2, v2));
    SecondPushDoesNotCount(b, topic, partition, k1, v1, k2, v2);
  }

  lemma SecondPushDoesNotCount<V>(b: Broker<V>, topic: string, partition: nat, k1: Key, v1: V, k2: Key, v2: V)
    ensures var o := NextOffset(b.records, topic, partition);
            var c := Push(b, InProgress(topic, partition, o, k1, v1));
            !Counting(OffsetsOn(Push(c, InProgress(topic, partition, o, k2, v2)).records, topic, partition))
  {
    var o := NextOffset(b.records, topic, partition);
    var p := InProgress(topic, partition, o, k1, v1);
    PushKeepsCountingIff(b, p, topic, partition);
    PushKeepsCountingIff(Push(b, p), InProgress(topic, partition, o, k2, v2), topic, partition);
  }
}
