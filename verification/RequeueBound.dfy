/**
 How often a message goes round the retry topic, over every run of the delivery protocol with any
 faults: every requeue hop has slept a second or what was left of the wait, so a copy has been
 requeued at most once per started second of the delay it was scheduled with.
 */
module RequeueBound {
  import opened Prelude
  import opened RetryTopic
  import opened DeliveryProtocol
  import Journeys

  function DueAt(rec: Rec): nat { ParseRetryHeaders(rec.message.headers).nextDeliverAtMs }

  /** Hops made and hops left together are no more than were needed when the message was scheduled; and a
      scheduled message is due by the ladder. */
  predicate OnCourse(cfg: Config, rec: Rec, now: int) {
    var count := ParseRetryHeaders(rec.message.headers).retryCount;
    && rec.storedAt <= now
    && rec.hops + Hops(DueAt(rec) - rec.storedAt) <= Hops(DueAt(rec) - rec.scheduledAt)
    && (rec.schedules >= 1 ==> count >= 1 && DueAt(rec) == Max(0, rec.scheduledAt + NextDelay(cfg.policy, count - 1)))
  }

  ghost predicate AllOnCourse(cfg: Config, w: World) {
    forall tp, i :: tp in w.lanes && 0 <= i < |w.lanes[tp].log| ==> OnCourse(cfg, w.lanes[tp].log[i], w.now)
  }

  /** A parked message will have made a hop when its sleep ends. */
  predicate Shortens(lane: Lane) {
    lane.phase.Parked? ==>
      && lane.position < |lane.log|
      && Hops(DueAt(lane.log[lane.position]) - lane.phase.until) + 1
         <= Hops(DueAt(lane.log[lane.position]) - lane.log[lane.position].storedAt)
  }

  ghost predicate AllShorten(w: World) {
    forall tp :: tp in w.lanes ==> Shortens(w.lanes[tp])
  }

  ghost predicate Inv(cfg: Config, w: World) { AllOnCourse(cfg, w) && AllShorten(w) }

  // ---- Copies ----

  lemma RequeueStaysOnCourse(cfg: Config, tp: TP, lane: Lane, now: nat)
    requires lane.phase.Parked? && Shortens(lane) && lane.phase.until <= now
    requires OnCourse(cfg, lane.log[lane.position], now)
    ensures OnCourse(cfg, RequeuedCopy(cfg, tp, lane.log[lane.position], now), now)
  {
    var rec := lane.log[lane.position];
    RequeueIsTransparent(cfg.policy, tp.topic, rec.message.headers);
    HopsMonotone(DueAt(rec) - now, DueAt(rec) - lane.phase.until);
  }

  lemma ScheduleIsOnCourse(cfg: Config, tp: TP, rec: Rec, prior: nat, now: nat)
    ensures OnCourse(cfg, ScheduledCopy(cfg, tp, rec, prior, now), now)
  {
    ScheduledHeadersReadBack(cfg.policy, tp.topic, rec.message.headers, prior, now);
  }

  // ---- Steps ----

  /** Logs and sleeping lanes as they were, time going on. */
  lemma QuietKeepsInv(cfg: Config, w: World, v: World)
    requires Inv(cfg, w) && v.now >= w.now && v.lanes.Keys == w.lanes.Keys
    requires forall tp :: tp in w.lanes ==> v.lanes[tp].log == w.lanes[tp].log
    requires forall tp :: tp in w.lanes ==> v.lanes[tp] == w.lanes[tp] || Shortens(v.lanes[tp])
    ensures Inv(cfg, v)
  {
    forall tp, i | tp in v.lanes && 0 <= i < |v.lanes[tp].log|
      ensures OnCourse(cfg, v.lanes[tp].log[i], v.now)
    {
      assert OnCourse(cfg, w.lanes[tp].log[i], w.now);
    }
    forall tp | tp in v.lanes
      ensures Shortens(v.lanes[tp])
    {
      assert Shortens(w.lanes[tp]);
    }
  }

  lemma AppendKeepsInv(cfg: Config, w: World, tp: TP, rec: Rec)
    requires Inv(cfg, w) && tp in w.lanes && OnCourse(cfg, rec, w.now)
    ensures Inv(cfg, Append(w, tp, rec))
  {
    var v := Append(w, tp, rec);
    forall q, i | q in v.lanes && 0 <= i < |v.lanes[q].log|
      ensures OnCourse(cfg, v.lanes[q].log[i], v.now)
    {
      if i < |w.lanes[q].log| {
        assert v.lanes[q].log[i] == w.lanes[q].log[i];
      }
    }
    forall q | q in v.lanes
      ensures Shortens(v.lanes[q])
    {
      assert Shortens(w.lanes[q]);
    }
  }

  lemma SendCopyKeepsInv(cfg: Config, w: World, tp: TP, dest: TP, copy: Rec, sent: Delivery)
    requires Inv(cfg, w) && tp in w.lanes && OnCourse(cfg, copy, w.now)
    ensures Inv(cfg, SendCopy(w, tp, dest, copy, sent))
  {
    var mid := w;
    if Outcome(w, dest, sent).Applied() {
      AppendKeepsInv(cfg, w, dest, copy);
      mid := Append(w, dest, copy);
    }
    QuietKeepsInv(cfg, mid, SendCopy(w, tp, dest, copy, sent));
  }

  lemma ExhaustKeepsInv(cfg: Config, w: World, tp: TP, dest: nat, sent: Delivery)
    requires Inv(cfg, w) && Busy(w, tp)
    ensures Inv(cfg, ExhaustStep(cfg, w, tp, dest, sent))
  {
    var rec := Current(w, tp);
    var prior := PriorDeliveries(cfg, tp, rec.message.headers);
    if (IsRetry(cfg, tp) && IsMaxRetries(cfg.policy, prior)) || (!IsRetry(cfg, tp) && !cfg.withRetryTopic) {
      QuietKeepsInv(cfg, w, ExhaustStep(cfg, w, tp, dest, sent));
    } else {
      ScheduleIsOnCourse(cfg, tp, rec, prior, w.now);
      SendCopyKeepsInv(cfg, w, tp, TP(cfg.policy.topic, dest), ScheduledCopy(cfg, tp, rec, prior, w.now), sent);
    }
  }

  /** Parking: the message is not due, and the sleep is a second or the rest of the wait. */
  lemma ReceiveKeepsInv(cfg: Config, w: World, tp: TP)
    requires Inv(cfg, w) && Busy(w, tp)
    ensures Inv(cfg, ReceiveStep(cfg, w, tp))
  {
    var rec := Current(w, tp);
    var park := ParkMs(cfg, tp, rec.message.headers, w.now);
    assert OnCourse(cfg, rec, w.now);
    if park > 0 {
      HopShortens(park, Min(park, REQUEUE_THROTTLE_MS));
      HopsMonotone(park, DueAt(rec) - rec.storedAt);
    }
    QuietKeepsInv(cfg, w, ReceiveStep(cfg, w, tp));
  }

  lemma RequeueKeepsInv(cfg: Config, w: World, tp: TP, dest: nat, sent: Delivery)
    requires Inv(cfg, w) && Enabled(cfg, w, Requeue(tp, dest, sent))
    ensures Inv(cfg, Perform(cfg, w, Requeue(tp, dest, sent)))
  {
    assert Shortens(w.lanes[tp]) && OnCourse(cfg, Current(w, tp), w.now);
    RequeueStaysOnCourse(cfg, tp, w.lanes[tp], w.now);
    SendCopyKeepsInv(cfg, w, tp, TP(cfg.policy.topic, dest), RequeuedCopy(cfg, tp, Current(w, tp), w.now), sent);
  }

  lemma PerformKeepsInv(cfg: Config, w: World, e: Event)
    requires Inv(cfg, w) && Enabled(cfg, w, e)
    ensures Inv(cfg, Perform(cfg, w, e))
  {
    match e
    case Publish(tp, m) => AppendKeepsInv(cfg, w, tp, PublishedRec(w, tp, m));
    case Receive(tp) => ReceiveKeepsInv(cfg, w, tp);
    case Requeue(tp, dest, sent) => RequeueKeepsInv(cfg, w, tp, dest, sent);
    case Exhaust(tp, dest, sent) => ExhaustKeepsInv(cfg, w, tp, dest, sent);
    case _ => QuietKeepsInv(cfg, w, Perform(cfg, w, e));
  }

  lemma {:induction false} RunsKeepInv(cfg: Config, w: World, events: seq<Event>)
    requires Inv(cfg, w)
    ensures Inv(cfg, Run(cfg, w, events))
  {
    if events != [] {
      var before, e := Run(cfg, w, events[..|events| - 1]), events[|events| - 1];
      RunsKeepInv(cfg, w, events[..|events| - 1]);
      if Enabled(cfg, before, e) {
        PerformKeepsInv(cfg, before, e);
      }
    }
  }

  lemma CopyOnCourse(cfg: Config, w: World, events: seq<Event>, v: World, tp: TP, i: nat)
    requires Initial(w) && v == Run(cfg, w, events) && tp in v.lanes && i < |v.lanes[tp].log|
    ensures OnCourse(cfg, v.lanes[tp].log[i], v.now)
  {
    RunsKeepInv(cfg, w, events);
  }

  lemma CopyCounts(cfg: Config, w: World, events: seq<Event>, v: World, tp: TP, i: nat)
    requires Initial(w) && v == Run(cfg, w, events) && tp in v.lanes && i < |v.lanes[tp].log|
    requires IsRetry(cfg, tp) && !IsRetry(cfg, v.lanes[tp].log[i].root.tp)
    ensures var rec := v.lanes[tp].log[i];
            ParseRetryHeaders(rec.message.headers).retryCount == rec.schedules
            && 1 <= rec.schedules <= Max(1, cfg.policy.maxDeliveries)
  {
    Journeys.CopiesAreFaithful(cfg, w, events, tp, i);
  }

  /** The hops of a scheduled copy, by the ladder alone. */
  lemma HopsByLadder(cfg: Config, rec: Rec, now: int)
    requires OnCourse(cfg, rec, now) && rec.schedules >= 1
    requires ParseRetryHeaders(rec.message.headers).retryCount == rec.schedules
    ensures rec.hops <= Hops(NextDelay(cfg.policy, rec.schedules - 1))
  {
    HopsMonotone(DueAt(rec) - rec.scheduledAt, Max(0, NextDelay(cfg.policy, rec.schedules - 1)));
  }

  /** In every run with any faults, each stored copy of a source record has been requeued at most once per
      started second of the ladder delay it was last scheduled with, and scheduled at most max(1,
      maxDeliveries) times. Every hop brings it nearer: hops made and hops left never exceed what the
      schedule needed. */
  lemma RequeuesAreBounded(cfg: Config, w: World, events: seq<Event>, v: World, tp: TP, i: nat)
    requires Initial(w) && v == Run(cfg, w, events) && tp in v.lanes && i < |v.lanes[tp].log|
    requires IsRetry(cfg, tp) && !IsRetry(cfg, v.lanes[tp].log[i].root.tp)
    ensures var rec := v.lanes[tp].log[i];
            && rec.hops + Hops(DueAt(rec) - rec.storedAt) <= Hops(DueAt(rec) - rec.scheduledAt)
            && 1 <= rec.schedules <= Max(1, cfg.policy.maxDeliveries)
            && rec.hops <= Hops(NextDelay(cfg.policy, rec.schedules - 1))
  {
    CopyOnCourse(cfg, w, events, v, tp, i);
    CopyCounts(cfg, w, events, v, tp, i);
    HopsByLadder(cfg, v.lanes[tp].log[i], v.now);
  }
}
