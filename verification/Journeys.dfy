/**
 What a message keeps on its way: over every run, each copy on the retry topic carries the value, key and
 source topic of the record it descends from, its retry count is the number of times it was scheduled,
 and its handler never starts before the delays of the ladder have passed.
 */
module Journeys {
  import opened Prelude
  import opened RetryTopic
  import opened DeliveryProtocol

  /** `copy` descends from the record `first`, published on the partition `origin`. Copies exist only where a
      scheduler is wired. */
  predicate Faithful(cfg: Config, origin: TP, first: Rec, copy: Rec) {
    var base := PriorDeliveries(cfg, origin, first.message.headers);
    var parsed := ParseRetryHeaders(copy.message.headers);
    && cfg.withRetryTopic
    && copy.message.key == first.message.key && copy.message.value == first.message.value
    && parsed.retryCount == base + copy.schedules
    && Pick(copy.message.headers.originalTopic)
       == Some(OriginalTopicFor(cfg.policy, origin.topic, first.message.headers))
    && (IsRetry(cfg, origin) || copy.schedules >= 1)
    && (copy.schedules >= 1 ==>
          && parsed.retryCount <= Max(1, cfg.policy.maxDeliveries)
          && parsed.nextDeliverAtMs >= copy.born + LadderSum(cfg.policy, base, copy.schedules))
  }

  /** `rec`, found on `tp`, is the record itself or a faithful copy of it. */
  predicate Descends(cfg: Config, origin: TP, first: Rec, tp: TP, rec: Rec) {
    && first.schedules == 0
    && ((tp == origin && rec == first) || (IsRetry(cfg, tp) && Faithful(cfg, origin, first, rec)))
  }

  lemma RequeueIsFaithful(cfg: Config, origin: TP, first: Rec, tp: TP, rec: Rec, now: nat)
    requires Descends(cfg, origin, first, tp, rec) && IsRetry(cfg, tp) && cfg.withRetryTopic
    ensures Faithful(cfg, origin, first, RequeuedCopy(cfg, tp, rec, now))
  {
    RequeueIsTransparent(cfg.policy, tp.topic, rec.message.headers);
  }

  /** Scheduling after a handler that started at `since`, no earlier than the message was due. */
  lemma ScheduleIsFaithful(cfg: Config, origin: TP, first: Rec, tp: TP, rec: Rec, since: int, now: nat)
    requires Descends(cfg, origin, first, tp, rec) && since <= now && cfg.withRetryTopic
    requires IsRetry(cfg, tp) ==> ParseRetryHeaders(rec.message.headers).nextDeliverAtMs <= since
    requires IsRetry(cfg, tp) ==> !IsMaxRetries(cfg.policy, PriorDeliveries(cfg, tp, rec.message.headers))
    ensures Faithful(cfg, origin, first,
                     ScheduledCopy(cfg, tp, rec, PriorDeliveries(cfg, tp, rec.message.headers), now))
  {
    var prior := PriorDeliveries(cfg, tp, rec.message.headers);
    var base := PriorDeliveries(cfg, origin, first.message.headers);
    ScheduledHeadersReadBack(cfg.policy, tp.topic, rec.message.headers, prior, now);
    assert prior == base + rec.schedules;
    assert LadderSum(cfg.policy, base, 0) == 0;
    assert LadderSum(cfg.policy, base, rec.schedules + 1) ==
           LadderSum(cfg.policy, base, rec.schedules) + NextDelay(cfg.policy, prior);
  }

  // ---- Over runs ----

  predicate Rooted(w: World, root: Ref) {
    root.tp in w.lanes && root.offset < |w.lanes[root.tp].log| && w.lanes[root.tp].log[root.offset].root == root
  }

  function First(w: World, root: Ref): Rec
    requires Rooted(w, root)
  {
    w.lanes[root.tp].log[root.offset]
  }

  predicate RecOk(cfg: Config, w: World, tp: TP, rec: Rec) {
    Rooted(w, rec.root) && Descends(cfg, rec.root.tp, First(w, rec.root), tp, rec)
  }

  ghost predicate RecsOk(cfg: Config, w: World) {
    forall tp, i :: tp in w.lanes && 0 <= i < |w.lanes[tp].log| ==> RecOk(cfg, w, tp, w.lanes[tp].log[i])
  }

  /** Validation rejects the record. */
  predicate Rejected(cfg: Config, tp: TP, m: Message) { !cfg.accepts(SchemaTopic(cfg, tp, m.headers), m.value) }

  /** Only a rejected record, or one that may not be retried any more, is dead-lettered; the count in the entry is the
      delivery count of a retry-topic message, and on a source topic the attempts made, none if it was rejected. */
  predicate Justified(cfg: Config, tp: TP, m: Message, attempts: int) {
    var count := ParseRetryHeaders(m.headers).retryCount;
    if IsRetry(cfg, tp) then attempts == count && (Rejected(cfg, tp, m) || count >= cfg.policy.maxDeliveries)
    else if Rejected(cfg, tp, m) then attempts == 0
    else attempts == cfg.sourceAttempts && !cfg.withRetryTopic
  }

  /** A dead letter names a stored record, carries its value and key, which are those of the record it
      descends from, and is justified. */
  predicate LetterOk(cfg: Config, w: World, e: DlqEntry) {
    var tp := TP(e.topic, e.partition);
    && Rooted(w, e.root) && e.original == First(w, e.root).message.value && e.key == First(w, e.root).message.key
    && tp in w.lanes && e.offset < |w.lanes[tp].log| && w.lanes[tp].log[e.offset].root == e.root
    && w.lanes[tp].log[e.offset].message.value == e.original && w.lanes[tp].log[e.offset].message.key == e.key
    && Justified(cfg, tp, w.lanes[tp].log[e.offset].message, e.attempts)
  }

  /** A completion names a stored record and its event id. */
  predicate CompletionOk(w: World, c: Completion) {
    Rooted(w, c.root) && c.eventId == EventId(First(w, c.root).message.value)
  }

  ghost predicate HistoryOk(cfg: Config, w: World) {
    && (forall e :: e in w.dlq ==> LetterOk(cfg, w, e))
    && (forall c :: c in w.completions ==> CompletionOk(w, c))
  }

  /** A handler in progress started no earlier than its message was due, and on a payload that the schema accepts. */
  predicate OnTime(cfg: Config, w: World, tp: TP)
    requires tp in w.lanes
  {
    var lane := w.lanes[tp];
    lane.phase.Handling? ==>
      && lane.phase.since <= w.now && lane.position < |lane.log|
      && var m := lane.log[lane.position].message;
         && !Rejected(cfg, tp, m)
         && (IsRetry(cfg, tp) ==> ParseRetryHeaders(m.headers).nextDeliverAtMs <= lane.phase.since)
  }

  /** Only retry lanes park, the retry topic is read only where a scheduler is wired, and only rejected messages
      are treated as invalid. */
  predicate FitsMessage(cfg: Config, w: World, tp: TP)
    requires tp in w.lanes
  {
    var lane := w.lanes[tp];
    && (lane.phase.Parked? ==> IsRetry(cfg, tp))
    && (IsRetry(cfg, tp) && (lane.phase.Parked? || lane.phase.Handling?) ==> cfg.withRetryTopic)
    && (lane.phase.Invalid? ==> lane.position < |lane.log| && Rejected(cfg, tp, lane.log[lane.position].message))
  }

  ghost predicate PhasesOk(cfg: Config, w: World) {
    forall tp :: tp in w.lanes ==> OnTime(cfg, w, tp) && FitsMessage(cfg, w, tp)
  }

  ghost predicate Inv(cfg: Config, w: World) {
    RecsOk(cfg, w) && HistoryOk(cfg, w) && PhasesOk(cfg, w)
  }

  /** Logs only grow. */
  ghost predicate Grows(w: World, v: World) {
    v.lanes.Keys == w.lanes.Keys && forall tp :: tp in w.lanes ==> w.lanes[tp].log <= v.lanes[tp].log
  }

  lemma GrowingKeepsRoots(cfg: Config, w: World, v: World, tp: TP, rec: Rec)
    requires Grows(w, v) && RecOk(cfg, w, tp, rec)
    ensures RecOk(cfg, v, tp, rec)
  {
    assert w.lanes[rec.root.tp].log <= v.lanes[rec.root.tp].log;
  }

  lemma GrowingKeepsLetters(cfg: Config, w: World, v: World, e: DlqEntry)
    requires Grows(w, v) && LetterOk(cfg, w, e)
    ensures LetterOk(cfg, v, e)
  {
    assert w.lanes[e.root.tp].log <= v.lanes[e.root.tp].log;
    var tp := TP(e.topic, e.partition);
    assert w.lanes[tp].log <= v.lanes[tp].log;
  }

  lemma GrowingKeepsCompletions(w: World, v: World, c: Completion)
    requires Grows(w, v) && CompletionOk(w, c)
    ensures CompletionOk(v, c)
  {
    assert w.lanes[c.root.tp].log <= v.lanes[c.root.tp].log;
  }

  /** Logs only grow, and no history is added. */
  lemma GrowingKeepsHistory(cfg: Config, w: World, v: World)
    requires Grows(w, v) && HistoryOk(cfg, w) && v.dlq == w.dlq && v.completions == w.completions
    ensures HistoryOk(cfg, v)
  {
    forall e | e in v.dlq
      ensures LetterOk(cfg, v, e)
    {
      GrowingKeepsLetters(cfg, w, v, e);
    }
    forall c | c in v.completions
      ensures CompletionOk(v, c)
    {
      GrowingKeepsCompletions(w, v, c);
    }
  }

  /** Steps that only change phases, positions or bookkeeping keep the records and letters. */
  lemma SameLogsKeep(cfg: Config, w: World, v: World)
    requires RecsOk(cfg, w) && HistoryOk(cfg, w) && v.dlq == w.dlq && v.completions == w.completions
    requires v.lanes.Keys == w.lanes.Keys && forall tp :: tp in w.lanes ==> v.lanes[tp].log == w.lanes[tp].log
    ensures RecsOk(cfg, v) && HistoryOk(cfg, v)
  {
    forall tp, i | tp in v.lanes && 0 <= i < |v.lanes[tp].log|
      ensures RecOk(cfg, v, tp, v.lanes[tp].log[i])
    {
      GrowingKeepsRoots(cfg, w, v, tp, w.lanes[tp].log[i]);
    }
    GrowingKeepsHistory(cfg, w, v);
  }

  lemma AppendKeeps(cfg: Config, w: World, tp: TP, rec: Rec)
    requires RecsOk(cfg, w) && HistoryOk(cfg, w) && tp in w.lanes
    requires RecOk(cfg, Append(w, tp, rec), tp, rec)
    ensures RecsOk(cfg, Append(w, tp, rec)) && HistoryOk(cfg, Append(w, tp, rec))
  {
    var v := Append(w, tp, rec);
    forall q, i | q in v.lanes && 0 <= i < |v.lanes[q].log|
      ensures RecOk(cfg, v, q, v.lanes[q].log[i])
    {
      if i < |w.lanes[q].log| {
        assert v.lanes[q].log[i] == w.lanes[q].log[i];
        GrowingKeepsRoots(cfg, w, v, q, w.lanes[q].log[i]);
      }
    }
    GrowingKeepsHistory(cfg, w, v);
  }

  lemma AppendKeepsPhases(cfg: Config, w: World, tp: TP, rec: Rec)
    requires PhasesOk(cfg, w) && tp in w.lanes
    ensures PhasesOk(cfg, Append(w, tp, rec))
  {
    var v := Append(w, tp, rec);
    forall q | q in v.lanes
      ensures OnTime(cfg, v, q) && FitsMessage(cfg, v, q)
    {
      assert OnTime(cfg, w, q) && FitsMessage(cfg, w, q);
    }
  }

  lemma RestKeepsPhases(cfg: Config, w: World, v: World, tp: TP, phase: Phase)
    requires PhasesOk(cfg, w) && tp in w.lanes && (phase.Idle? || phase.Settled?)
    requires v.now == w.now && v.lanes == w.lanes[tp := w.lanes[tp].(phase := phase)]
    ensures PhasesOk(cfg, v)
  {
    forall q | q in v.lanes
      ensures OnTime(cfg, v, q) && FitsMessage(cfg, v, q)
    {
      assert OnTime(cfg, w, q) && FitsMessage(cfg, w, q);
    }
  }

  lemma SendCopyKeepsInv(cfg: Config, w: World, tp: TP, dest: TP, copy: Rec, sent: Delivery)
    requires Inv(cfg, w) && tp in w.lanes && IsRetry(cfg, dest)
    requires RecOk(cfg, w, dest, copy)
    ensures Inv(cfg, SendCopy(w, tp, dest, copy, sent))
  {
    var v := SendCopy(w, tp, dest, copy, sent);
    var mid := w;
    if Outcome(w, dest, sent).Applied() {
      mid := Append(w, dest, copy);
      GrowingKeepsRoots(cfg, w, mid, dest, copy);
      AppendKeeps(cfg, w, dest, copy);
      AppendKeepsPhases(cfg, w, dest, copy);
    }
    SameLogsKeep(cfg, mid, v);
    RestKeepsPhases(cfg, mid, v, tp, v.lanes[tp].phase);
  }

  lemma LetterIsOk(cfg: Config, w: World, tp: TP, attempts: int)
    requires Busy(w, tp) && RecOk(cfg, w, tp, Current(w, tp)) && Justified(cfg, tp, Current(w, tp).message, attempts)
    ensures var rec := Current(w, tp);
            LetterOk(cfg, w, DlqEntry(tp.topic, tp.partition, w.lanes[tp].position, rec.message.key, attempts,
                                      rec.message.value, rec.root))
  {
  }

  lemma SendToDlqKeepsInv(cfg: Config, w: World, tp: TP, attempts: int, sent: Delivery)
    requires Inv(cfg, w) && Busy(w, tp) && Justified(cfg, tp, Current(w, tp).message, attempts)
    ensures Inv(cfg, SendToDlq(w, tp, attempts, sent))
  {
    var v := SendToDlq(w, tp, attempts, sent);
    assert RecOk(cfg, w, tp, Current(w, tp));
    LetterIsOk(cfg, w, tp, attempts);
    SameLogsKeep(cfg, w, v.(dlq := w.dlq));
    forall e | e in v.dlq
      ensures LetterOk(cfg, v, e)
    {
      assert e !in w.dlq ==> LetterOk(cfg, w, e);
      GrowingKeepsLetters(cfg, w, v, e);
    }
    HistoryOfParts(cfg, v.(dlq := w.dlq), v);
    RecsDoNotReadDlq(cfg, v.(dlq := w.dlq), v);
    RestKeepsPhases(cfg, w, v, tp, v.lanes[tp].phase);
  }

  lemma HistoryOfParts(cfg: Config, w: World, v: World)
    requires HistoryOk(cfg, w) && v.lanes == w.lanes && v.completions == w.completions
    requires forall e :: e in v.dlq ==> LetterOk(cfg, v, e)
    ensures HistoryOk(cfg, v)
  {
    forall c | c in v.completions
      ensures CompletionOk(v, c)
    {
      assert CompletionOk(w, c);
    }
  }

  lemma RecsDoNotReadDlq(cfg: Config, w: World, v: World)
    requires RecsOk(cfg, w) && v.lanes == w.lanes
    ensures RecsOk(cfg, v)
  {
    forall tp, i | tp in v.lanes && 0 <= i < |v.lanes[tp].log|
      ensures RecOk(cfg, v, tp, v.lanes[tp].log[i])
    {
      assert RecOk(cfg, w, tp, w.lanes[tp].log[i]);
    }
  }

  /** A message is handled only when due, and parked only on the retry topic. */
  lemma ReceiveDecides(cfg: Config, w: World, tp: TP)
    requires Busy(w, tp)
    ensures var v := ReceiveStep(cfg, w, tp);
            var phase := v.lanes[tp].phase;
            && v.lanes == w.lanes[tp := w.lanes[tp].(phase := phase)]
            && v.dlq == w.dlq && v.completions == w.completions && v.now == w.now
            && (phase.Handling? ==> phase.since == w.now)
            && (phase.Handling? ==>
                  !Rejected(cfg, tp, Current(w, tp).message))
            && (phase.Invalid? ==> Rejected(cfg, tp, Current(w, tp).message))
            && (phase.Handling? && IsRetry(cfg, tp) ==>
                  ParseRetryHeaders(Current(w, tp).message.headers).nextDeliverAtMs <= w.now)
            && (phase.Parked? ==> IsRetry(cfg, tp))
  {
  }

  lemma PhaseStartKeepsPhases(cfg: Config, w: World, v: World, tp: TP)
    requires PhasesOk(cfg, w) && tp in w.lanes && tp in v.lanes && v.now == w.now
    requires v.lanes == w.lanes[tp := w.lanes[tp].(phase := v.lanes[tp].phase)]
    requires OnTime(cfg, v, tp) && FitsMessage(cfg, v, tp)
    ensures PhasesOk(cfg, v)
  {
    forall q | q in v.lanes && q != tp
      ensures OnTime(cfg, v, q) && FitsMessage(cfg, v, q)
    {
      assert OnTime(cfg, w, q) && FitsMessage(cfg, w, q);
    }
  }

  lemma ReceiveKeepsInv(cfg: Config, w: World, v: World, tp: TP)
    requires Inv(cfg, w) && Busy(w, tp) && v == ReceiveStep(cfg, w, tp) && (IsRetry(cfg, tp) ==> cfg.withRetryTopic)
    ensures Inv(cfg, v)
  {
    ReceiveDecides(cfg, w, tp);
    SameLogsKeep(cfg, w, v);
    PhaseStartKeepsPhases(cfg, w, v, tp);
  }

  lemma ExhaustKeepsInv(cfg: Config, w: World, tp: TP, dest: nat, sent: Delivery)
    requires Inv(cfg, w) && Busy(w, tp) && w.lanes[tp].phase.Handling?
    ensures Inv(cfg, ExhaustStep(cfg, w, tp, dest, sent))
  {
    var rec := Current(w, tp);
    var prior := PriorDeliveries(cfg, tp, rec.message.headers);
    assert RecOk(cfg, w, tp, rec) && OnTime(cfg, w, tp) && FitsMessage(cfg, w, tp);
    if IsRetry(cfg, tp) && IsMaxRetries(cfg.policy, prior) {
      SendToDlqKeepsInv(cfg, w, tp, prior, sent);
    } else if !IsRetry(cfg, tp) && !cfg.withRetryTopic {
      SendToDlqKeepsInv(cfg, w, tp, cfg.sourceAttempts, sent);
    } else {
      ScheduleIsFaithful(cfg, rec.root.tp, First(w, rec.root), tp, rec, w.lanes[tp].phase.since, w.now);
      SendCopyKeepsInv(cfg, w, tp, TP(cfg.policy.topic, dest), ScheduledCopy(cfg, tp, rec, prior, w.now), sent);
    }
  }

  lemma PublishKeepsInv(cfg: Config, w: World, tp: TP, m: Message)
    requires Inv(cfg, w) && tp in w.lanes
    ensures Inv(cfg, Append(w, tp, PublishedRec(w, tp, m)))
  {
    var rec := PublishedRec(w, tp, m);
    AppendKeeps(cfg, w, tp, rec);
    AppendKeepsPhases(cfg, w, tp, rec);
  }

  lemma SucceedKeepsInv(cfg: Config, w: World, tp: TP)
    requires Inv(cfg, w) && Busy(w, tp)
    ensures Inv(cfg, SucceedStep(cfg, w, tp))
  {
    var v := SucceedStep(cfg, w, tp);
    var rec := Current(w, tp);
    assert RecOk(cfg, w, tp, rec);
    SameLogsKeep(cfg, w, v.(completions := w.completions));
    forall c | c in v.completions
      ensures CompletionOk(v, c)
    {
      assert c !in w.completions ==> c == Completion(rec.root, EventId(rec.message.value));
      assert CompletionOk(w, c);
      GrowingKeepsCompletions(w, v, c);
    }
    forall e | e in v.dlq
      ensures LetterOk(cfg, v, e)
    {
      GrowingKeepsLetters(cfg, w, v, e);
    }
    RecsDoNotReadDlq(cfg, v.(completions := w.completions), v);
    RestKeepsPhases(cfg, w, v, tp, Settled);
  }

  lemma PhasesSurvive(cfg: Config, w: World, v: World)
    requires PhasesOk(cfg, w) && v.now >= w.now && v.lanes.Keys == w.lanes.Keys
    requires forall q :: q in w.lanes ==>
               v.lanes[q] == w.lanes[q] || v.lanes[q].phase.Idle? || v.lanes[q].phase.Settled?
    ensures PhasesOk(cfg, v)
  {
    forall q | q in v.lanes
      ensures OnTime(cfg, v, q) && FitsMessage(cfg, v, q)
    {
      assert OnTime(cfg, w, q) && FitsMessage(cfg, w, q);
    }
  }

  lemma RequeueKeepsInv(cfg: Config, w: World, tp: TP, dest: TP, sent: Delivery)
    requires Inv(cfg, w) && Busy(w, tp) && w.lanes[tp].phase.Parked? && IsRetry(cfg, dest)
    ensures Inv(cfg, SendCopy(w, tp, dest, RequeuedCopy(cfg, tp, Current(w, tp), w.now), sent))
  {
    var rec := Current(w, tp);
    assert RecOk(cfg, w, tp, rec) && FitsMessage(cfg, w, tp);
    RequeueIsFaithful(cfg, rec.root.tp, First(w, rec.root), tp, rec, w.now);
    SendCopyKeepsInv(cfg, w, tp, dest, RequeuedCopy(cfg, tp, rec, w.now), sent);
  }

  lemma PerformKeepsInv(cfg: Config, w: World, e: Event)
    requires Inv(cfg, w) && Enabled(cfg, w, e)
    ensures Inv(cfg, Perform(cfg, w, e))
  {
    match e
    case Publish(tp, m) => PublishKeepsInv(cfg, w, tp, m);
    case Receive(tp) => ReceiveKeepsInv(cfg, w, ReceiveStep(cfg, w, tp), tp);
    case Requeue(tp, dest, sent) =>
      RequeueKeepsInv(cfg, w, tp, TP(cfg.policy.topic, dest), sent);
    case DeadLetter(tp, sent) =>
      assert FitsMessage(cfg, w, tp);
      SendToDlqKeepsInv(cfg, w, tp, PriorDeliveries(cfg, tp, Current(w, tp).message.headers), sent);
    case Succeed(tp) => SucceedKeepsInv(cfg, w, tp);
    case Exhaust(tp, dest, sent) => ExhaustKeepsInv(cfg, w, tp, dest, sent);
    case _ =>
      SameLogsKeep(cfg, w, Perform(cfg, w, e));
      PhasesSurvive(cfg, w, Perform(cfg, w, e));
  }

  lemma {:induction false} RunsKeepInv(cfg: Config, w: World, events: seq<Event>)
    requires Inv(cfg, w)
    ensures Inv(cfg, Run(cfg, w, events))
  {
    if events != [] {
      var before, e := Run(cfg, w, events[..|events| - 1]), events[|events| - 1];
      RunsKeepInv(cfg, w, events[..|events| - 1]);
      if Enabled(cfg, before, e) {
        PerformKeepsInv(cfg, before, e);
      }
    }
  }

  /** In every run, each stored record descends faithfully from the record it names as its root, and each dead letter
      carries that record's value and key. In particular a copy of a source record has a retry count that
      equals its number of schedules and never exceeds max(1, maxDeliveries), and names the source topic. */
  lemma CopiesAreFaithful(cfg: Config, w: World, events: seq<Event>, tp: TP, i: nat)
    requires Initial(w)
    requires var v := Run(cfg, w, events); tp in v.lanes && i < |v.lanes[tp].log|
    ensures var v := Run(cfg, w, events);
            var rec := v.lanes[tp].log[i];
            var parsed := ParseRetryHeaders(rec.message.headers);
            && RecOk(cfg, v, tp, rec)
            && rec.message.value == First(v, rec.root).message.value
            && rec.message.key == First(v, rec.root).message.key
            && (!IsRetry(cfg, rec.root.tp) && IsRetry(cfg, tp) ==>
                  && parsed.retryCount == rec.schedules
                  && 1 <= parsed.retryCount <= Max(1, cfg.policy.maxDeliveries)
                  && SchemaTopic(cfg, tp, rec.message.headers) == rec.root.tp.topic)
            && forall e :: e in v.dlq ==> LetterOk(cfg, v, e)
  {
    RunsKeepInv(cfg, w, events);
    assert RecOk(cfg, Run(cfg, w, events), tp, Run(cfg, w, events).lanes[tp].log[i]);
  }

  /** In every run without a scheduler, nothing is ever copied: each stored record is where it was published. */
  lemma WithoutSchedulerNothingIsCopied(cfg: Config, w: World, events: seq<Event>, tp: TP, i: nat)
    requires Initial(w) && !cfg.withRetryTopic
    requires var v := Run(cfg, w, events); tp in v.lanes && i < |v.lanes[tp].log|
    ensures var v := Run(cfg, w, events);
            var rec := v.lanes[tp].log[i];
            rec.root.tp == tp && Rooted(v, rec.root) && rec == First(v, rec.root)
  {
    RunsKeepInv(cfg, w, events);
    assert RecOk(cfg, Run(cfg, w, events), tp, Run(cfg, w, events).lanes[tp].log[i]);
  }

  /** In every run, each dead letter names a stored record by topic, partition and offset and carries its
      key, value and delivery count, and there was a reason: validation rejects it, or it was exhausted, on
      the retry topic at maxDeliveries, on a source topic where no scheduler is wired. Each completion names
      a stored record by its root and event id. */
  lemma HistoryIsJustified(cfg: Config, w: World, events: seq<Event>)
    requires Initial(w)
    ensures HistoryOk(cfg, Run(cfg, w, events))
  {
    RunsKeepInv(cfg, w, events);
  }

  /** In every run, the handler of a due delivery with retry count j starts no earlier than the sum of the
      first j ladder delays after the source-side schedule. */
  lemma HandlerStartsAfterTheLadder(cfg: Config, w: World, events: seq<Event>, tp: TP)
    requires Initial(w)
    requires var v := Run(cfg, w, events);
             Busy(v, tp) && v.lanes[tp].phase.Handling? && IsRetry(cfg, tp) && !IsRetry(cfg, Current(v, tp).root.tp)
    ensures var v := Run(cfg, w, events);
            var rec := Current(v, tp);
            v.lanes[tp].phase.since >=
              rec.born + LadderSum(cfg.policy, 0, ParseRetryHeaders(rec.message.headers).retryCount)
  {
    RunsKeepInv(cfg, w, events);
    var v := Run(cfg, w, events);
    assert OnTime(cfg, v, tp) && RecOk(cfg, v, tp, Current(v, tp));
  }

  /** In every run, a handler works only on a payload that the schema of the message's source topic accepts, on the
      source lane as well as on any copy on the retry topic. */
  lemma OnlyAcceptedMessagesAreHandled(cfg: Config, w: World, events: seq<Event>, tp: TP)
    requires Initial(w)
    requires var v := Run(cfg, w, events);
             Busy(v, tp) && v.lanes[tp].phase.Handling? && !IsRetry(cfg, Current(v, tp).root.tp)
    ensures var v := Run(cfg, w, events);
            var root := Current(v, tp).root;
            Rooted(v, root) && cfg.accepts(root.tp.topic, First(v, root).message.value)
  {
    RunsKeepInv(cfg, w, events);
    var v := Run(cfg, w, events);
    assert OnTime(cfg, v, tp) && RecOk(cfg, v, tp, Current(v, tp));
  }
}
