/**
 The dispatch pool of a subscription (packages/broker/src/adapters/in-memory.ts, enqueueDispatch and
 runPooled): at most `limit` handlers in flight, the rest queued.

 A dispatch settles at an arbitrary later moment, by resolving or by rejecting; both take the same
 `finally` path. `started` and `arrived` record the history.
 */
module DispatchPool {
  import opened Prelude

  datatype Pool<R> = Pool(active: int, queue: seq<R>, inFlight: seq<R>, started: seq<R>, arrived: seq<R>)

  datatype Event<R> = Enqueue(record: R) | Settle(which: nat)

  function Empty<R>(): Pool<R> { Pool(0, [], [], [], []) }

  function Without<R>(s: seq<R>, i: nat): seq<R>
    requires i < |s|
  {
    s[..i] + s[i + 1..]
  }

  class SubscriptionPool<R> {
    const limit: int
    var active: int
    var queue: seq<R>
    var inFlight: seq<R>
    var started: seq<R>
    var arrived: seq<R>

    function State(): Pool<R>
      reads this
    {
      Pool(active, queue, inFlight, started, arrived)
    }

    constructor (limit: int)
      ensures this.limit == limit && State() == Empty()
    {
      this.limit := limit;
      active, queue, inFlight, started, arrived := 0, [], [], [], [];
    }

    method EnqueueDispatch(record: R)
      modifies this
      ensures State() == Step(limit, old(State()), Enqueue(record))
    {
      arrived := arrived + [record];
      if limit <= 1 {
        Start(record);
        return;
      }
      if active < limit {
        active := active + 1;
        Start(record);
      } else {
        queue := queue + [record];
      }
    }

    /** A dispatch begins; its handler is in flight from here on. */
    method Start(record: R)
      modifies `inFlight, `started
      ensures inFlight == old(inFlight) + [record] && started == old(started) + [record]
    {
      inFlight, started := inFlight + [record], started + [record];
    }

    /** A dispatch settles. A pooled one hands its slot to the head of the queue, or gives it up. */
    method Finish(which: nat)
      requires which < |inFlight|
      modifies this
      ensures State() == Step(limit, old(State()), Settle(which))
    {
      inFlight := Without(inFlight, which);
      if limit <= 1 {
        return;
      }
      if queue != [] {
        var next := queue[0];
        queue := queue[1..];
        Start(next);
      } else {
        active := active - 1;
      }
    }
  }

  function Step<R>(limit: int, p: Pool<R>, e: Event<R>): Pool<R> {
    match e
    case Enqueue(r) =>
      var q := p.(arrived := p.arrived + [r]);
      if limit <= 1 then q.(inFlight := p.inFlight + [r], started := p.started + [r])
      else if p.active < limit then
        q.(active := p.active + 1, inFlight := p.inFlight + [r], started := p.started + [r])
      else q.(queue := p.queue + [r])
    case Settle(i) =>
      if i >= |p.inFlight| then p
      else
        var q := p.(inFlight := Without(p.inFlight, i));
        if limit <= 1 then q
        else if p.queue != [] then
          q.(queue := p.queue[1..], inFlight := q.inFlight + [p.queue[0]], started := p.started + [p.queue[0]])
        else q.(active := p.active - 1)
  }

  function Run<R>(limit: int, events: seq<Event<R>>): Pool<R> {
    if events == [] then Empty()
    else Step(limit, Run(limit, events[..|events| - 1]), events[|events| - 1])
  }

  /** With a limit up to one, the default, there is no pool: every record starts when it arrives, and none
      is ever queued. */
  lemma {:induction false} WithoutPoolAllStartAtOnce<R>(limit: int, events: seq<Event<R>>)
    requires limit <= 1
    ensures var p := Run(limit, events); p.started == p.arrived && p.queue == [] && p.active == 0
  {
    if events != [] {
      WithoutPoolAllStartAtOnce(limit, events[..|events| - 1]);
    }
  }

  /** How many arrivals have not settled yet. */
  function Unfinished<R>(p: Pool<R>): int { |p.queue| + |p.inFlight| }

  /** With a limit of at least two, in every interleaving of arrivals and settlements: the number in
      flight is the limit or all that is unfinished, whichever is less; records start once each, in
      the order they arrived; and a pool with nothing in flight is empty and has started everything. */
  lemma {:induction false} PoolIsBoundedAndWorkConserving<R>(limit: int, events: seq<Event<R>>)
    requires limit >= 2
    ensures var p := Run(limit, events);
            && p.active == |p.inFlight| == Min(limit, Unfinished(p))
            && (p.queue != [] ==> p.active == limit)
            && p.started + p.queue == p.arrived
            && (p.inFlight == [] ==> p.active == 0 && p.queue == [] && p.started == p.arrived)
  {
    if events != [] {
      PoolIsBoundedAndWorkConserving(limit, events[..|events| - 1]);
      var before, e := Run(limit, events[..|events| - 1]), events[|events| - 1];
      if e.Enqueue? && before.active < limit {
        assert before.queue == [];
      }
      if e.Settle? && before.queue != [] {
        assert before.queue == [before.queue[0]] + before.queue[1..];
      }
    }
  }

  /** Nothing enters the history but what arrives, in order. */
  lemma {:induction false} ArrivalsAreTheEnqueued<R>(limit: int, events: seq<Event<R>>)
    ensures Run(limit, events).arrived == Arrivals(events)
  {
    if events != [] {
      ArrivalsAreTheEnqueued(limit, events[..|events| - 1]);
    }
  }

  function Arrivals<R>(events: seq<Event<R>>): seq<R> {
    if events == [] then []
    else
      var rest := Arrivals(events[..|events| - 1]);
      if events[|events| - 1].Enqueue? then rest + [events[|events| - 1].record] else rest
  }

  /** `n` arrivals of one record and no settlement. */
  function Burst<R>(r: R, n: nat): seq<Event<R>> {
    if n == 0 then [] else Burst(r, n - 1) + [Enqueue(r)]
  }

  lemma {:induction false} BurstIsUnbounded<R>(limit: int, r: R, n: nat)
    requires limit <= 1
    ensures |Run(limit, Burst(r, n)).inFlight| == n
  {
    if n > 0 {
      BurstIsUnbounded(limit, r, n - 1);
      assert Burst(r, n)[..|Burst(r, n)| - 1] == Burst(r, n - 1);
    }
  }

  ghost predicate AlwaysWithin<R(!new)>(limit: int, bound: int) {
    forall events: seq<Event<R>> :: |Run(limit, events).inFlight| <= bound
  }

  /** The comment in the code promises serial dispatch for limits up to one. In fact a limit bounds the
      handlers in flight exactly when it is at least two: below that, no bound holds at all. */
  lemma BoundedExactlyFromTwo<R(!new)>(limit: int, bound: nat, r: R)
    requires limit <= bound
    ensures AlwaysWithin<R>(limit, bound) <==> limit >= 2
  {
    if limit >= 2 {
      forall events: seq<Event<R>>
        ensures |Run(limit, events).inFlight| <= bound
      {
        PoolIsBoundedAndWorkConserving(limit, events);
      }
    } else {
      BurstIsUnbounded(limit, r, bound + 1);
      assert |Run(limit, Burst(r, bound + 1)).inFlight| == bound + 1;
    }
  }

  lemma WithoutRemovesOne<R>(s: seq<R>, i: nat)
    requires i < |s|
    ensures multiset(Without(s, i)) == multiset(s) - multiset{s[i]}
  {
    assert s == s[..i] + [s[i]] + s[i + 1..];
  }

  /** A settlement ends the dispatch that settled and no other; what starts in its place is the head of the queue. */
  lemma SettleEndsItsOwn<R>(limit: int, p: Pool<R>, i: nat)
    requires i < |p.inFlight|
    ensures var q := Step(limit, p, Settle(i));
            var next := if limit > 1 && p.queue != [] then [p.queue[0]] else [];
            && multiset(q.inFlight) == multiset(p.inFlight) - multiset{p.inFlight[i]} + multiset(next)
            && q.started == p.started + next && next + q.queue == p.queue
  {
    WithoutRemovesOne(p.inFlight, i);
  }
}
