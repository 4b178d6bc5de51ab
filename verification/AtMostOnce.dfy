/**
 Effectively-once handling within one process: with the shared filter on, its time-to-live off, and no
 two deliveries of one event id in their handlers at the same time, the handler completes again for
 an id only after `maxSize` other ids have completed since.
 */
module AtMostOnce {
  import opened Prelude
  import opened DeliveryProtocol
  import Idempotency

  /** The known ids among the completions from `from` on, in order. */
  function KnownIds(completions: seq<Completion>): seq<string> {
    if completions == [] then []
    else
      var rest := KnownIds(completions[..|completions| - 1]);
      var id := completions[|completions| - 1].eventId;
      if id == UNKNOWN then rest else rest + [id]
  }

  /** The known ids whose handler has completed in this process. */
  function CompletedHere(w: World): seq<string>
    requires w.epoch <= |w.completions|
  {
    KnownIds(w.completions[w.epoch..])
  }

  predicate InHandler(w: World, tp: TP) {
    Busy(w, tp) && w.lanes[tp].phase.Handling?
  }

  function IdAt(w: World, tp: TP): string
    requires Busy(w, tp)
  {
    EventId(Current(w, tp).message.value)
  }

  /** No two handlers run for the same known event id. */
  ghost predicate NoOverlap(w: World) {
    forall p, q :: InHandler(w, p) && InHandler(w, q) && p != q && IdAt(w, p) == IdAt(w, q) ==> IdAt(w, p) == UNKNOWN
  }

  /** The filter is the tail of the completion log, in which ids recur only at a distance. */
  ghost predicate FilterIsTail(cfg: Config, w: World) {
    && w.epoch <= |w.completions|
    && Idempotency.Ids(w.seen) == LastN(CompletedHere(w), cfg.maxSize)
    && Idempotency.Spaced(CompletedHere(w), cfg.maxSize)
  }

  /** No id in a handler is in the filter. */
  ghost predicate HandlersAreNew(w: World) {
    && (forall tp :: tp in w.lanes && w.lanes[tp].phase.Handling? ==> Busy(w, tp))
    && (forall tp :: InHandler(w, tp) && IdAt(w, tp) != UNKNOWN ==> IdAt(w, tp) !in Idempotency.Ids(w.seen))
  }

  ghost predicate Inv(cfg: Config, w: World) {
    FilterIsTail(cfg, w) && HandlersAreNew(w)
  }

  lemma KnownIdsAppend(completions: seq<Completion>, c: Completion)
    ensures KnownIds(completions + [c]) ==
            KnownIds(completions) + if c.eventId == UNKNOWN then [] else [c.eventId]
  {
    assert (completions + [c])[..|completions|] == completions;
  }

  lemma SucceedKeepsInv(cfg: Config, w: World, tp: TP)
    requires cfg.deduplicates && cfg.ttlMs == 0
    requires Inv(cfg, w) && InHandler(w, tp) && NoOverlap(w)
    ensures Inv(cfg, SucceedStep(cfg, w, tp))
  {
    var v := SucceedStep(cfg, w, tp);
    var id := IdAt(w, tp);
    var c := Completion(Current(w, tp).root, id);
    var known := CompletedHere(w);
    assert v.completions[v.epoch..] == w.completions[w.epoch..] + [c];
    KnownIdsAppend(w.completions[w.epoch..], c);
    if id != UNKNOWN {
      Idempotency.MarkOnIds(w.seen, known, id, w.now, cfg.maxSize);
      Idempotency.SpacedAppend(known, id, cfg.maxSize);
      assert Idempotency.Ids(v.seen) == LastN(known + [id], cfg.maxSize);
    }
    forall q | InHandler(v, q) && IdAt(v, q) != UNKNOWN
      ensures IdAt(v, q) !in Idempotency.Ids(v.seen)
    {
      assert q != tp;
      assert InHandler(w, q) && IdAt(w, q) == IdAt(v, q) && IdAt(w, q) != id;
      if id != UNKNOWN {
        NotInLonger(known, id, IdAt(v, q), cfg.maxSize);
      }
    }
  }

  lemma NotInLonger(log: seq<string>, id: string, other: string, n: int)
    requires other !in LastN(log, n) && other != id
    ensures other !in LastN(log + [id], n)
  {
    var longer := LastN(log + [id], n);
    forall k | 0 <= k < |longer|
      ensures longer[k] != other
    {
      var at := |log| + 1 - |longer| + k;
      assert longer[k] == (log + [id])[at];
      if at < |log| {
        assert LastN(log, n)[at - (|log| - |LastN(log, n)|)] == log[at];
      }
    }
  }

  lemma QueryChangesNothing(seen: seq<Idempotency.Entry>, id: string, now: int, maxSize: int)
    ensures Idempotency.Step(seen, Idempotency.Query(id, now), maxSize, 0) == seen
  {
  }

  /** Receiving leaves the filter alone, and starts a handler for a known id only if the filter lacks it. */
  lemma ReceiveConsultsFilter(cfg: Config, w: World, tp: TP)
    requires cfg.deduplicates && cfg.ttlMs == 0 && Busy(w, tp)
    ensures var v := ReceiveStep(cfg, w, tp);
            && v.seen == w.seen && v.completions == w.completions && v.epoch == w.epoch
            && v.lanes == w.lanes[tp := w.lanes[tp].(phase := v.lanes[tp].phase)]
            && (v.lanes[tp].phase.Handling? && IdAt(w, tp) != UNKNOWN ==> IdAt(w, tp) !in Idempotency.Ids(w.seen))
  {
    QueryChangesNothing(w.seen, IdAt(w, tp), w.now, cfg.maxSize);
    Idempotency.FindIsMembership(w.seen, IdAt(w, tp));
  }

  lemma ReceiveKeepsInv(cfg: Config, w: World, v: World, tp: TP)
    requires Inv(cfg, w) && Busy(w, tp)
    requires v.seen == w.seen && v.completions == w.completions && v.epoch == w.epoch
    requires tp in v.lanes && v.lanes == w.lanes[tp := w.lanes[tp].(phase := v.lanes[tp].phase)]
    requires v.lanes[tp].phase.Handling? && IdAt(w, tp) != UNKNOWN ==> IdAt(w, tp) !in Idempotency.Ids(w.seen)
    ensures Inv(cfg, v)
  {
    forall q | InHandler(v, q) && IdAt(v, q) != UNKNOWN
      ensures IdAt(v, q) !in Idempotency.Ids(v.seen)
    {
      if q != tp {
        assert InHandler(w, q) && IdAt(w, q) == IdAt(v, q);
      }
    }
  }

  /** A step that touches neither the filter nor the completions, and starts no handler. */
  ghost predicate Harmless(w: World, v: World) {
    && v.seen == w.seen && v.completions == w.completions && v.epoch == w.epoch
    && forall q :: q in v.lanes && v.lanes[q].phase.Handling? ==>
         q in w.lanes && w.lanes[q].phase.Handling?
         && w.lanes[q].position == v.lanes[q].position && w.lanes[q].log <= v.lanes[q].log
  }

  lemma HarmlessKeepsHandlersNew(w: World, v: World)
    requires HandlersAreNew(w) && Harmless(w, v)
    ensures HandlersAreNew(v)
  {
    forall q | q in v.lanes && v.lanes[q].phase.Handling?
      ensures Busy(v, q) && InHandler(w, q) && IdAt(v, q) == IdAt(w, q)
    {
      assert Busy(w, q);
      assert Current(v, q) == Current(w, q);
    }
  }

  lemma HarmlessKeepsInv(cfg: Config, w: World, v: World)
    requires Inv(cfg, w) && Harmless(w, v)
    ensures Inv(cfg, v)
  {
    assert CompletedHere(v) == CompletedHere(w);
    HarmlessKeepsHandlersNew(w, v);
  }

  lemma SendIsHarmless(w: World, tp: TP, dest: TP, copy: Rec, sent: Delivery)
    requires Busy(w, tp)
    ensures Harmless(w, SendCopy(w, tp, dest, copy, sent))
  {
  }

  lemma ExhaustIsHarmless(cfg: Config, w: World, tp: TP, dest: nat, sent: Delivery)
    requires Busy(w, tp)
    ensures Harmless(w, ExhaustStep(cfg, w, tp, dest, sent))
  {
    var rec := Current(w, tp);
    var prior := PriorDeliveries(cfg, tp, rec.message.headers);
    SendIsHarmless(w, tp, TP(cfg.policy.topic, dest), ScheduledCopy(cfg, tp, rec, prior, w.now), sent);
  }

  lemma OtherStepsAreHarmless(cfg: Config, w: World, e: Event)
    requires Enabled(cfg, w, e) && !e.Receive? && !e.Succeed? && !e.Crash?
    ensures Harmless(w, Perform(cfg, w, e))
  {
    match e
    case Requeue(tp, dest, sent) =>
      SendIsHarmless(w, tp, TP(cfg.policy.topic, dest), RequeuedCopy(cfg, tp, Current(w, tp), w.now), sent);
    case Exhaust(tp, dest, sent) => ExhaustIsHarmless(cfg, w, tp, dest, sent);
    case _ =>
  }

  lemma CrashKeepsInv(cfg: Config, w: World)
    ensures Inv(cfg, CrashStep(w))
  {
    var v := CrashStep(w);
    assert v.completions[v.epoch..] == [];
  }

  lemma NextKeepsInv(cfg: Config, w: World, e: Event)
    requires cfg.deduplicates && cfg.ttlMs == 0
    requires Inv(cfg, w) && NoOverlap(w) && Enabled(cfg, w, e)
    ensures Inv(cfg, Perform(cfg, w, e))
  {
    if e.Receive? {
      ReceiveConsultsFilter(cfg, w, e.tp);
      ReceiveKeepsInv(cfg, w, ReceiveStep(cfg, w, e.tp), e.tp);
    } else if e.Succeed? {
      SucceedKeepsInv(cfg, w, e.tp);
    } else if e.Crash? {
      CrashKeepsInv(cfg, w);
    } else {
      OtherStepsAreHarmless(cfg, w, e);
      HarmlessKeepsInv(cfg, w, Perform(cfg, w, e));
    }
  }

  lemma {:induction false} RunsKeepInv(cfg: Config, w: World, events: seq<Event>)
    requires cfg.deduplicates && cfg.ttlMs == 0 && Initial(w)
    requires forall i :: 0 <= i < |events| ==> NoOverlap(Run(cfg, w, events[..i]))
    ensures Inv(cfg, Run(cfg, w, events))
  {
    if events == [] {
      assert w.completions[w.epoch..] == [];
    } else {
      var prefix := events[..|events| - 1];
      assert forall i :: 0 <= i < |prefix| ==> prefix[..i] == events[..i];
      RunsKeepInv(cfg, w, prefix);
      var before, e := Run(cfg, w, prefix), events[|events| - 1];
      if Enabled(cfg, before, e) {
        NextKeepsInv(cfg, before, e);
      }
    }
  }

  /** Between two completions of one event id in a process lie at least `maxSize` completions of others,
      and what the filter remembers is exactly the last `maxSize` completed ids. */
  lemma HandledOncePerWindow(cfg: Config, w: World, events: seq<Event>)
    requires cfg.deduplicates && cfg.ttlMs == 0 && Initial(w)
    requires forall i :: 0 <= i < |events| ==> NoOverlap(Run(cfg, w, events[..i]))
    ensures var v := Run(cfg, w, events);
            && v.epoch <= |v.completions|
            && Idempotency.Ids(v.seen) == LastN(CompletedHere(v), cfg.maxSize)
            && forall i, j :: 0 <= i < j < |CompletedHere(v)| && CompletedHere(v)[i] == CompletedHere(v)[j] ==>
                 j - i - 1 >= cfg.maxSize
  {
    RunsKeepInv(cfg, w, events);
  }

  // ---- The condition is needed ----

  lemma RunSnoc(cfg: Config, w: World, events: seq<Event>, e: Event)
    ensures Run(cfg, w, events + [e]) == Next(cfg, Run(cfg, w, events), e)
  {
    assert (events + [e])[..|events|] == events;
  }

  /** A lane of a source topic that has consumed all it holds. */
  predicate AtEnd(cfg: Config, w: World, tp: TP) {
    tp in w.lanes && !IsRetry(cfg, tp) && w.lanes[tp].phase.Idle? && w.lanes[tp].position == |w.lanes[tp].log|
  }

  /** A new message is published there and delivered: its handler starts, if the filter is empty. */
  lemma DeliveryStartsHandler(cfg: Config, w: World, tp: TP, m: Message)
    requires AtEnd(cfg, w, tp) && cfg.accepts(tp.topic, m.value) && w.seen == []
    ensures var v := Next(cfg, Next(cfg, w, Publish(tp, m)), Receive(tp));
            && InHandler(v, tp) && IdAt(v, tp) == EventId(m.value)
            && v.seen == [] && v.completions == w.completions && v.lanes == w.lanes[tp := v.lanes[tp]]
  {
    var mid := Next(cfg, w, Publish(tp, m));
    assert Current(mid, tp).message == m;
    assert Next(cfg, mid, Receive(tp)).lanes == w.lanes[tp := Next(cfg, mid, Receive(tp)).lanes[tp]];
  }

  lemma BothComplete(cfg: Config, w: World, p: TP, q: TP)
    requires p != q && InHandler(w, p) && InHandler(w, q) && IdAt(w, p) == IdAt(w, q)
    ensures var v := Next(cfg, Next(cfg, w, Succeed(p)), Succeed(q));
            var n := |w.completions|;
            |v.completions| == n + 2 && v.completions[n].eventId == v.completions[n + 1].eventId == IdAt(w, p)
  {
  }

  /** Two deliveries of one event, on two lanes, both in their handlers before either completes. */
  function Overlapping(p: TP, q: TP, m: Message): seq<Event> {
    [Publish(p, m), Receive(p), Publish(q, m), Receive(q)]
  }

  lemma OverlapIsReached(cfg: Config, w: World, p: TP, q: TP, m: Message)
    requires w.seen == [] && p != q && AtEnd(cfg, w, p) && AtEnd(cfg, w, q)
    requires cfg.accepts(p.topic, m.value) && cfg.accepts(q.topic, m.value)
    ensures var v := Run(cfg, w, Overlapping(p, q, m));
            && InHandler(v, p) && InHandler(v, q) && IdAt(v, p) == IdAt(v, q) == EventId(m.value)
            && v.completions == w.completions
  {
    var e := Overlapping(p, q, m);
    assert e[..0] == [];
    RunSnoc(cfg, w, [], e[0]);
    RunSnoc(cfg, w, [e[0]], e[1]);
    RunSnoc(cfg, w, [e[0], e[1]], e[2]);
    RunSnoc(cfg, w, [e[0], e[1], e[2]], e[3]);
    assert [] + [e[0]] == [e[0]] && [e[0]] + [e[1]] == [e[0], e[1]];
    assert [e[0], e[1]] + [e[2]] == [e[0], e[1], e[2]] && [e[0], e[1], e[2]] + [e[3]] == e;
    DeliveryStartsHandler(cfg, w, p, m);
    DeliveryStartsHandler(cfg, Next(cfg, Next(cfg, w, e[0]), e[1]), q, m);
  }

  /** The failing input: from empty partitions, an event published on two source partitions and delivered on
      both before either handler ends is handled twice, with the filter on and any capacity. */
  lemma OverlapCompletesTwice(cfg: Config, w: World, p: TP, q: TP, m: Message)
    requires Initial(w) && p != q && p in w.lanes && q in w.lanes && !IsRetry(cfg, p) && !IsRetry(cfg, q)
    requires cfg.accepts(p.topic, m.value) && cfg.accepts(q.topic, m.value) && EventId(m.value) != UNKNOWN
    ensures var v := Run(cfg, w, Overlapping(p, q, m) + [Succeed(p)] + [Succeed(q)]);
            |v.completions| == 2 && v.completions[0].eventId == v.completions[1].eventId == EventId(m.value)
  {
    var e := Overlapping(p, q, m);
    OverlapIsReached(cfg, w, p, q, m);
    RunSnoc(cfg, w, e, Succeed(p));
    RunSnoc(cfg, w, e + [Succeed(p)], Succeed(q));
    BothComplete(cfg, Run(cfg, w, e), p, q);
  }
}
