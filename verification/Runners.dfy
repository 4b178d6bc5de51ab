/**
 The two consumer runners, as the code performs them: ordered effects with early returns, where a
 failing write ends the call and leaves the offset uncommitted (apps/consumer/src/handler-runner.ts,
 apps/consumer/src/retry-runner.ts, apps/consumer/src/pipeline-shared.ts).

 Each is proved to perform exactly one run of the delivery protocol, `Expected`, so everything proved about
 runs holds of them.
 */
module Runners {
  import opened Prelude
  import opened RetryTopic
  import opened DeliveryProtocol
  import Backoff
  import Idempotency

  /** What the environment does with one delivery: the handler, the broker, and the time that passes. */
  datatype Script = Script(
    handler: nat -> Backoff.Outcome<(), ()>, backoff: Backoff.Options, random: nat -> real,
    took: nat, extra: nat, dest: nat, produce: Delivery, commit: Delivery)

  class Runner {
    const cfg: Config
    const retryAttempts: int
    var now: nat
    var lanes: map<TP, Lane>
    var dlq: seq<DlqEntry>
    var seen: seq<Idempotency.Entry>
    /** History, for the statement of what was handled. */
    var completions: seq<Completion>
    var epoch: nat

    function Now(): World
      reads this
    {
      World(now, lanes, dlq, seen, completions, epoch)
    }

    constructor (cfg: Config, retryAttempts: int, w: World)
      ensures this.cfg == cfg && this.retryAttempts == retryAttempts && Now() == w
    {
      this.cfg, this.retryAttempts := cfg, retryAttempts;
      now, lanes, dlq, seen, completions, epoch := w.now, w.lanes, w.dlq, w.seen, w.completions, w.epoch;
    }

    // ---- Effects ----

    /** `broker.produce` to the retry topic; false means that it threw. */
    method ProduceRetry(dest: TP, copy: Rec, sent: Delivery) returns (ok: bool)
      modifies `lanes
      ensures ok == (Outcome(old(Now()), dest, sent) == Acked)
      ensures Now() == if Outcome(old(Now()), dest, sent).Applied() then Append(old(Now()), dest, copy) else old(Now())
    {
      if dest !in lanes {
        return false;
      }
      if sent != Lost {
        lanes := lanes[dest := lanes[dest].(log := lanes[dest].log + [copy])];
      }
      return sent == Acked;
    }

    /** Writes the dead letter; a failure is rethrown, so that the offset stays uncommitted. */
    method SafeDeadLetter(tp: TP, attempts: int, sent: Delivery) returns (ok: bool)
      requires Busy(Now(), tp)
      modifies `dlq
      ensures ok == (sent == Acked)
      ensures dlq == old(dlq) + if sent.Applied() then [Letter(old(Now()), tp, attempts)] else []
    {
      var lane := lanes[tp];
      var rec := lane.log[lane.position];
      if sent != Lost {
        dlq := dlq + [DlqEntry(tp.topic, tp.partition, lane.position, rec.message.key, attempts,
                               rec.message.value, rec.root)];
      }
      return sent == Acked;
    }

    /** Commits offset + 1; only an acknowledged commit moves the driver on. */
    method CommitOffset(tp: TP, sent: Delivery) returns (ok: bool)
      requires tp in lanes && lanes[tp].phase.Idle?
      modifies `lanes
      ensures ok == (sent == Acked)
      ensures Now() == CommitStep(old(Now()), tp, sent)
    {
      var next := lanes[tp].position + 1;
      if sent != Lost {
        lanes := lanes[tp := lanes[tp].(committed := next)];
      }
      if sent == Acked {
        lanes := lanes[tp := lanes[tp].(position := next)];
      }
      return sent == Acked;
    }

    /** The handler with its in-process retries; false means that the last error was rethrown. */
    method RunHandler(tp: TP, attempts: int, s: Script) returns (ok: bool)
      modifies `now
      ensures ok == HandlerSucceeds(s, attempts)
      ensures now == old(now) + s.took
    {
      var result, calls, notices, sleeps := Backoff.WithRetry(s.handler, s.backoff.(attempts := attempts), s.random);
      now := now + s.took;
      ok := result.Ok?;
    }

    /** The duplicate guard; false when no filter is wired or the id is unknown. */
    method IsDuplicate(id: string) returns (duplicate: bool)
      modifies `seen
      ensures duplicate == (Checks(cfg, id) && Idempotency.Live(old(seen), id, now, cfg.ttlMs))
      ensures seen == if Checks(cfg, id)
                      then Idempotency.Step(old(seen), Idempotency.Query(id, now), cfg.maxSize, cfg.ttlMs)
                      else old(seen)
    {
      if id == UNKNOWN || !cfg.deduplicates {
        return false;
      }
      duplicate := Idempotency.Live(seen, id, now, cfg.ttlMs);
      seen := Idempotency.Step(seen, Idempotency.Query(id, now), cfg.maxSize, cfg.ttlMs);
    }

    /** The handler has completed: record it, and mark the id. */
    method Complete(tp: TP)
      requires Busy(Now(), tp)
      modifies `completions, `seen
      ensures Now() == Completed(cfg, old(Now()), tp)
    {
      var rec := lanes[tp].log[lanes[tp].position];
      var id := EventId(rec.message.value);
      completions := completions + [Completion(rec.root, id)];
      if id != UNKNOWN && cfg.deduplicates {
        seen := Idempotency.Step(seen, Idempotency.Mark(id, now), cfg.maxSize, cfg.ttlMs);
      }
    }

    /** Dead-letter the message and commit its offset; a failed write throws before the commit. */
    method DeadLetterAndCommit(tp: TP, attempts: int, s: Script) returns (resolved: bool)
      requires Busy(Now(), tp) && lanes[tp].phase.Idle?
      modifies `dlq, `lanes
      ensures Now() == Finish(Lettered(old(Now()), tp, attempts, s.produce), tp, s.produce == Acked, s.commit)
      ensures resolved == (s.produce == Acked && s.commit == Acked)
    {
      resolved := SafeDeadLetter(tp, attempts, s.produce);
      if resolved {
        resolved := CommitOffset(tp, s.commit);
      }
    }

    /** Put a copy on the retry topic and commit the offset; a failed produce throws before the commit. */
    method ForwardAndCommit(tp: TP, copy: Rec, s: Script) returns (resolved: bool)
      requires Busy(Now(), tp) && lanes[tp].phase.Idle?
      modifies `lanes
      ensures var dest := TP(cfg.policy.topic, s.dest); var acked := Outcome(old(Now()), dest, s.produce) == Acked;
        && Now() == Finish(Sent(old(Now()), dest, copy, s.produce), tp, acked, s.commit)
        && resolved == (acked && s.commit == Acked)
    {
      resolved := ProduceRetry(TP(cfg.policy.topic, s.dest), copy, s.produce);
      if resolved {
        resolved := CommitOffset(tp, s.commit);
      }
    }

    // ---- Runners ----

    /** The handler on a source topic, and what follows from its failure or success. */
    method AttemptSource(tp: TP, s: Script) returns (resolved: bool)
      requires Busy(Now(), tp) && lanes[tp].phase.Idle? && !IsRetry(cfg, tp)
      modifies this
      ensures var ran := old(Now()).(now := old(now) + s.took);
        var settles := AttemptSettles(cfg, ran, tp, cfg.sourceAttempts, s);
        && Now() == Finish(Attempted(cfg, ran, tp, cfg.sourceAttempts, s), tp, settles, s.commit)
        && resolved == (settles && s.commit == Acked)
    {
      var ok := RunHandler(tp, cfg.sourceAttempts, s);
      if !ok {
        if cfg.withRetryTopic {
          resolved := ForwardAndCommit(tp, ScheduledCopy(cfg, tp, Current(Now(), tp), 0, now), s);
        } else {
          resolved := DeadLetterAndCommit(tp, cfg.sourceAttempts, s);
        }
        return;
      }
      Complete(tp);
      resolved := CommitOffset(tp, s.commit);
    }

    /** The handler on the retry topic, and what follows from its failure or success. */
    method AttemptRetry(tp: TP, prior: nat, s: Script) returns (resolved: bool)
      requires Busy(Now(), tp) && lanes[tp].phase.Idle? && IsRetry(cfg, tp)
      requires prior == PriorDeliveries(cfg, tp, Current(Now(), tp).message.headers)
      modifies this
      ensures var ran := old(Now()).(now := old(now) + s.took);
        var settles := AttemptSettles(cfg, ran, tp, retryAttempts, s);
        && Now() == Finish(Attempted(cfg, ran, tp, retryAttempts, s), tp, settles, s.commit)
        && resolved == (settles && s.commit == Acked)
    {
      var ok := RunHandler(tp, retryAttempts, s);
      if !ok {
        if IsMaxRetries(cfg.policy, prior) {
          resolved := DeadLetterAndCommit(tp, prior, s);
        } else {
          resolved := ForwardAndCommit(tp, ScheduledCopy(cfg, tp, Current(Now(), tp), prior, now), s);
        }
        return;
      }
      Complete(tp);
      resolved := CommitOffset(tp, s.commit);
    }

    /** The duplicate guard on a source topic, and the handler behind it. */
    method GuardedSource(tp: TP, s: Script) returns (resolved: bool)
      requires Busy(Now(), tp) && lanes[tp].phase.Idle? && !IsRetry(cfg, tp)
      modifies this
      ensures
        var id := EventId(Current(old(Now()), tp).message.value);
        var asked := AskedFor(cfg, old(Now()), id);
        var ran := asked.(now := old(now) + s.took);
        var settles := AttemptSettles(cfg, ran, tp, cfg.sourceAttempts, s);
        && Now() == (if Reported(cfg, old(Now()), id) then CommitStep(asked, tp, s.commit)
                     else Finish(Attempted(cfg, ran, tp, cfg.sourceAttempts, s), tp, settles, s.commit))
        && resolved == (s.commit == Acked && (Reported(cfg, old(Now()), id) || settles))
    {
      var duplicate := IsDuplicate(EventId(lanes[tp].log[lanes[tp].position].message.value));
      if duplicate {
        resolved := CommitOffset(tp, s.commit);
      } else {
        resolved := AttemptSource(tp, s);
      }
    }

    /** A delivery on a source topic. True: the call resolved and the driver moves on; false: it threw. */
    method HandleSource(tp: TP, s: Script) returns (resolved: bool)
      requires Ready(cfg, Now(), tp) && !IsRetry(cfg, tp)
      modifies this
      ensures Now() == Closed(cfg, old(Now()), tp, cfg.sourceAttempts, s)
      ensures Decision(cfg, old(Now()), tp).Handling? ==>
                (completions != old(completions)
                 <==> exists k: nat :: 1 <= k <= Max(1, cfg.sourceAttempts) && s.handler(k).Ok?)
      ensures resolved == Resolves(cfg, old(Now()), tp, cfg.sourceAttempts, s)
    {
      ClosedWhenDue(cfg, Now(), tp, cfg.sourceAttempts, s);
      AttemptsShow(cfg, Now(), tp, cfg.sourceAttempts, s);
      var m := lanes[tp].log[lanes[tp].position].message;
      if !cfg.accepts(tp.topic, m.value) {
        resolved := DeadLetterAndCommit(tp, 0, s);
        return;
      }
      resolved := GuardedSource(tp, s);
    }

    /** The duplicate guard on the retry topic, and the handler behind it. */
    method GuardedRetry(tp: TP, prior: nat, s: Script) returns (resolved: bool)
      requires Busy(Now(), tp) && lanes[tp].phase.Idle? && IsRetry(cfg, tp)
      requires prior == PriorDeliveries(cfg, tp, Current(Now(), tp).message.headers)
      modifies this
      ensures
        var id := EventId(Current(old(Now()), tp).message.value);
        var asked := AskedFor(cfg, old(Now()), id);
        var ran := asked.(now := old(now) + s.took);
        var settles := AttemptSettles(cfg, ran, tp, retryAttempts, s);
        && Now() == (if Reported(cfg, old(Now()), id) then CommitStep(asked, tp, s.commit)
                     else Finish(Attempted(cfg, ran, tp, retryAttempts, s), tp, settles, s.commit))
        && resolved == (s.commit == Acked && (Reported(cfg, old(Now()), id) || settles))
    {
      var duplicate := IsDuplicate(EventId(lanes[tp].log[lanes[tp].position].message.value));
      if duplicate {
        resolved := CommitOffset(tp, s.commit);
      } else {
        resolved := AttemptRetry(tp, prior, s);
      }
    }

    /** A due delivery on the retry topic: parse against the original topic's schema, dedupe, attempt. */
    method HandleDue(tp: TP, s: Script) returns (resolved: bool)
      requires Ready(cfg, Now(), tp) && IsRetry(cfg, tp)
      requires ParkMs(cfg, tp, Current(Now(), tp).message.headers, now) == 0
      modifies this
      ensures Now() == Closed(cfg, old(Now()), tp, retryAttempts, s)
      ensures Decision(cfg, old(Now()), tp).Handling? ==>
                (completions != old(completions)
                 <==> exists k: nat :: 1 <= k <= Max(1, retryAttempts) && s.handler(k).Ok?)
      ensures resolved == Resolves(cfg, old(Now()), tp, retryAttempts, s)
    {
      ClosedWhenDue(cfg, Now(), tp, retryAttempts, s);
      AttemptsShow(cfg, Now(), tp, retryAttempts, s);
      var m := lanes[tp].log[lanes[tp].position].message;
      var named := Pick(m.headers.originalTopic);
      var originalTopic := if named.Some? then named.value else cfg.defaultTopic;
      var retryCount := ParseRetryHeaders(m.headers).retryCount;
      if !cfg.accepts(originalTopic, m.value) {
        resolved := DeadLetterAndCommit(tp, retryCount, s);
        return;
      }
      resolved := GuardedRetry(tp, retryCount, s);
    }

    /** A delivery on the retry topic: one that is not due yet sleeps for at most a second and is requeued. */
    method HandleRetry(tp: TP, s: Script) returns (resolved: bool)
      requires Ready(cfg, Now(), tp) && IsRetry(cfg, tp)
      modifies this
      ensures Now() == Closed(cfg, old(Now()), tp, retryAttempts, s)
      ensures Decision(cfg, old(Now()), tp).Handling? ==>
                (completions != old(completions)
                 <==> exists k: nat :: 1 <= k <= Max(1, retryAttempts) && s.handler(k).Ok?)
      ensures resolved == Resolves(cfg, old(Now()), tp, retryAttempts, s)
    {
      var rec := lanes[tp].log[lanes[tp].position];
      var parkMs := ParkDelay(ParseRetryHeaders(rec.message.headers).nextDeliverAtMs, now);
      if parkMs > 0 {
        now := now + Min(parkMs, REQUEUE_THROTTLE_MS) + s.extra;
        resolved := ForwardAndCommit(tp, RequeuedCopy(cfg, tp, rec, now), s);
        return;
      }
      resolved := HandleDue(tp, s);
    }
  }

  // ---- Specification ----

  /** Some attempt within the limit succeeds. */
  ghost predicate HandlerSucceeds(s: Script, attempts: int) {
    exists k: nat :: 1 <= k <= Max(1, attempts) && s.handler(k).Ok?
  }

  function Letter(w: World, tp: TP, attempts: int): DlqEntry
    requires Busy(w, tp)
  {
    var rec := Current(w, tp);
    DlqEntry(tp.topic, tp.partition, w.lanes[tp].position, rec.message.key, attempts, rec.message.value, rec.root)
  }

  function Completed(cfg: Config, w: World, tp: TP): World
    requires Busy(w, tp)
  {
    var rec := Current(w, tp);
    var id := EventId(rec.message.value);
    w.(completions := w.completions + [Completion(rec.root, id)],
       seen := if Checks(cfg, id)
               then Idempotency.Step(w.seen, Idempotency.Mark(id, w.now), cfg.maxSize, cfg.ttlMs) else w.seen)
  }

  /** What the receive step decides for the message at the lane's position. */
  function Decision(cfg: Config, w: World, tp: TP): Phase
    requires Busy(w, tp)
  {
    ReceiveStep(cfg, w, tp).lanes[tp].phase
  }

  /** An exhausted message goes to the dead-letter topic, not to the retry topic. */
  predicate GoesToDlq(cfg: Config, tp: TP, headers: Headers) {
    if IsRetry(cfg, tp) then IsMaxRetries(cfg.policy, PriorDeliveries(cfg, tp, headers)) else !cfg.withRetryTopic
  }

  /** The runner may take this delivery. */
  predicate Ready(cfg: Config, w: World, tp: TP) {
    Busy(w, tp) && w.lanes[tp].phase.Idle? && (IsRetry(cfg, tp) ==> cfg.withRetryTopic)
  }

  /** Where a copy goes: some partition of the retry topic. */
  function RetryTP(cfg: Config, s: Script): TP { TP(cfg.policy.topic, s.dest) }

  /** A call that reached the handler ends with an outcome: it completed, or its copy or dead letter was taken. */
  ghost predicate AttemptSettles(cfg: Config, w: World, tp: TP, attempts: int, s: Script)
    requires Busy(w, tp)
  {
    || HandlerSucceeds(s, attempts)
    || if GoesToDlq(cfg, tp, Current(w, tp).message.headers) then s.produce == Acked
       else Outcome(w, RetryTP(cfg, s), s.produce) == Acked
  }

  /** An outcome for the message exists, so that its offset may be committed. */
  ghost predicate Settles(cfg: Config, w: World, tp: TP, phase: Phase, attempts: int, s: Script)
    requires Busy(w, tp)
  {
    var copied := Outcome(w, RetryTP(cfg, s), s.produce) == Acked;
    match phase
    case Idle => false
    case Parked(_) => copied
    case Invalid => s.produce == Acked
    case Settled => true
    case Handling(_) => AttemptSettles(cfg, w, tp, attempts, s)
  }

  /** The call resolves, and the driver moves on to the next offset. */
  ghost predicate Resolves(cfg: Config, w: World, tp: TP, attempts: int, s: Script)
    requires Busy(w, tp)
  {
    Settles(cfg, w, tp, Decision(cfg, w, tp), attempts, s) && s.commit == Acked
  }

  /** The event with which a handler ends. */
  ghost function LastEvent(tp: TP, attempts: int, s: Script): Event {
    if HandlerSucceeds(s, attempts) then Succeed(tp) else Exhaust(tp, s.dest, s.produce)
  }

  /** The steps of the protocol that one delivery performs before its commit. */
  ghost function Steps(w: World, tp: TP, phase: Phase, attempts: int, s: Script): seq<Event> {
    match phase
    case Idle => []
    case Parked(until) => [Receive(tp), Tick(Max(0, until - w.now) + s.extra), Requeue(tp, s.dest, s.produce)]
    case Invalid => [Receive(tp), DeadLetter(tp, s.produce)]
    case Settled => [Receive(tp)]
    case Handling(_) =>
      [Receive(tp), Tick(s.took), LastEvent(tp, attempts, s)]
  }

  /** The run of the protocol that one delivery performs: the commit follows only an outcome. */
  ghost function Expected(cfg: Config, w: World, tp: TP, attempts: int, s: Script): seq<Event>
    requires Busy(w, tp)
  {
    var phase := Decision(cfg, w, tp);
    Steps(w, tp, phase, attempts, s) + if Settles(cfg, w, tp, phase, attempts, s) then [Commit(tp, s.commit)] else []
  }

  // ---- The runs in closed form ----

  /** The filter as the duplicate test leaves it: untouched when the message never reaches that test. */
  function Asked(cfg: Config, w: World, tp: TP): World
    requires Busy(w, tp)
  {
    w.(seen := ReceiveStep(cfg, w, tp).seen)
  }

  /** The end of a call: commit when an outcome exists, otherwise throw and leave everything as it is. */
  function Finish(w: World, tp: TP, settled: bool, commit: Delivery): World
    requires tp in w.lanes
  {
    if settled then CommitStep(w, tp, commit) else w
  }

  /** The filter after the duplicate test. */
  function AskedFor(cfg: Config, w: World, id: string): World {
    if Checks(cfg, id)
    then w.(seen := Idempotency.Step(w.seen, Idempotency.Query(id, w.now), cfg.maxSize, cfg.ttlMs))
    else w
  }

  /** The filter reports the id as a duplicate. */
  predicate Reported(cfg: Config, w: World, id: string) {
    Checks(cfg, id) && Idempotency.Live(w.seen, id, w.now, cfg.ttlMs)
  }

  lemma DecisionWhenDue(cfg: Config, w: World, tp: TP)
    requires Busy(w, tp) && ParkMs(cfg, tp, Current(w, tp).message.headers, w.now) == 0
    ensures
      var m := Current(w, tp).message;
      var accepted := cfg.accepts(SchemaTopic(cfg, tp, m.headers), m.value);
      && (!accepted ==> Decision(cfg, w, tp) == Invalid)
      && (accepted ==> Asked(cfg, w, tp) == AskedFor(cfg, w, EventId(m.value)))
      && (accepted ==> Decision(cfg, w, tp) == if Reported(cfg, w, EventId(m.value)) then Settled else Handling(w.now))
  {}

  /** A delivery that is not parked, in the order in which the runners decide. */
  lemma ClosedWhenDue(cfg: Config, w: World, tp: TP, attempts: int, s: Script)
    requires Busy(w, tp) && ParkMs(cfg, tp, Current(w, tp).message.headers, w.now) == 0
    ensures
      var m := Current(w, tp).message;
      var prior := PriorDeliveries(cfg, tp, m.headers);
      var asked := AskedFor(cfg, w, EventId(m.value));
      var ran := asked.(now := w.now + s.took);
      Closed(cfg, w, tp, attempts, s) ==
        if !cfg.accepts(SchemaTopic(cfg, tp, m.headers), m.value)
        then Finish(Lettered(w, tp, prior, s.produce), tp, s.produce == Acked, s.commit)
        else if Reported(cfg, w, EventId(m.value)) then CommitStep(asked, tp, s.commit)
        else Finish(Attempted(cfg, ran, tp, attempts, s), tp, AttemptSettles(cfg, ran, tp, attempts, s), s.commit)
    ensures
      var m := Current(w, tp).message;
      Resolves(cfg, w, tp, attempts, s) == (s.commit == Acked &&
        if !cfg.accepts(SchemaTopic(cfg, tp, m.headers), m.value) then s.produce == Acked
        else Reported(cfg, w, EventId(m.value)) || AttemptSettles(cfg, w, tp, attempts, s))
  {
    DecisionWhenDue(cfg, w, tp);
  }

  lemma PhaseTwice(w: World, tp: TP, before: Phase, after: Phase)
    requires tp in w.lanes
    ensures SetPhase(SetPhase(w, tp, before), tp, after) == SetPhase(w, tp, after)
  {
    assert SetPhase(SetPhase(w, tp, before), tp, after).lanes == SetPhase(w, tp, after).lanes;
  }

  lemma PhaseIdle(w: World, tp: TP)
    requires tp in w.lanes && w.lanes[tp].phase.Idle?
    ensures SetPhase(w, tp, Idle) == w
  {
    assert SetPhase(w, tp, Idle).lanes == w.lanes;
  }

  lemma PhaseAppend(w: World, tp: TP, phase: Phase, dest: TP, rec: Rec)
    requires tp in w.lanes && dest in w.lanes
    ensures Append(SetPhase(w, tp, phase), dest, rec) == SetPhase(Append(w, dest, rec), tp, phase)
  {
    assert Append(SetPhase(w, tp, phase), dest, rec).lanes == SetPhase(Append(w, dest, rec), tp, phase).lanes;
  }

  lemma PhaseCommit(w: World, tp: TP, phase: Phase, commit: Delivery)
    requires tp in w.lanes
    ensures CommitStep(SetPhase(w, tp, phase), tp, commit) == CommitStep(w, tp, commit)
  {
    assert CommitStep(SetPhase(w, tp, phase), tp, commit).lanes == CommitStep(w, tp, commit).lanes;
  }

  lemma Run1(cfg: Config, w: World, a: Event)
    ensures Run(cfg, w, [a]) == Next(cfg, w, a)
  {
    assert [a][..0] == [];
  }

  lemma RunSnoc(cfg: Config, w: World, events: seq<Event>, e: Event)
    ensures Run(cfg, w, events + [e]) == Next(cfg, Run(cfg, w, events), e)
  {
    assert (events + [e])[..|events|] == events;
  }

  /** A run that ends with the settled message being committed, or with a throw. */
  lemma RunFinish(cfg: Config, w: World, events: seq<Event>, x: World, tp: TP, settled: bool, commit: Delivery)
    requires Busy(x, tp) && x.lanes[tp].phase.Idle?
    requires Run(cfg, w, events) == SetPhase(x, tp, if settled then Settled else Idle)
    ensures Run(cfg, w, events + if settled then [Commit(tp, commit)] else []) == Finish(x, tp, settled, commit)
  {
    if settled {
      RunSnoc(cfg, w, events, Commit(tp, commit));
      PhaseCommit(x, tp, Settled, commit);
    } else {
      assert events + [] == events;
      PhaseIdle(x, tp);
    }
  }

  lemma AfterReceive(cfg: Config, w: World, tp: TP)
    requires Ready(cfg, w, tp)
    ensures Run(cfg, w, [Receive(tp)]) == SetPhase(Asked(cfg, w, tp), tp, Decision(cfg, w, tp))
  {
    Run1(cfg, w, Receive(tp));
  }

  lemma AfterTick(cfg: Config, w: World, events: seq<Event>, x: World, tp: TP, phase: Phase, ms: nat)
    requires tp in x.lanes
    requires Run(cfg, w, events) == SetPhase(x, tp, phase)
    ensures Run(cfg, w, events + [Tick(ms)]) == SetPhase(x.(now := x.now + ms), tp, phase)
  {
    RunSnoc(cfg, w, events, Tick(ms));
  }

  /** The world after a produce of a copy to the retry topic, which may or may not have taken effect. */
  function Sent(w: World, dest: TP, copy: Rec, sent: Delivery): World {
    if Outcome(w, dest, sent).Applied() then Append(w, dest, copy) else w
  }

  lemma AfterCopy(x: World, tp: TP, phase: Phase, dest: TP, copy: Rec, sent: Delivery)
    requires tp in x.lanes
    ensures SendCopy(SetPhase(x, tp, phase), tp, dest, copy, sent)
         == SetPhase(Sent(x, dest, copy, sent), tp, if Outcome(x, dest, sent) == Acked then Settled else Idle)
  {
    var after := if Outcome(x, dest, sent) == Acked then Settled else Idle;
    if Outcome(x, dest, sent).Applied() {
      PhaseAppend(x, tp, phase, dest, copy);
      PhaseTwice(Append(x, dest, copy), tp, phase, after);
    } else {
      PhaseTwice(x, tp, phase, after);
    }
  }

  /** The world after a produce of a dead letter. */
  function Lettered(w: World, tp: TP, attempts: int, sent: Delivery): World
    requires Busy(w, tp)
  {
    if sent.Applied() then w.(dlq := w.dlq + [Letter(w, tp, attempts)]) else w
  }

  lemma AfterLetter(x: World, tp: TP, phase: Phase, attempts: int, sent: Delivery)
    requires Busy(x, tp)
    ensures SendToDlq(SetPhase(x, tp, phase), tp, attempts, sent)
         == SetPhase(Lettered(x, tp, attempts, sent), tp, if sent == Acked then Settled else Idle)
  {
    PhaseTwice(Lettered(x, tp, attempts, sent), tp, phase, if sent == Acked then Settled else Idle);
  }

  /** What follows the handler, from the world in which it has returned. */
  ghost function Attempted(cfg: Config, ran: World, tp: TP, attempts: int, s: Script): World
    requires Busy(ran, tp)
  {
    var rec := Current(ran, tp);
    var prior := PriorDeliveries(cfg, tp, rec.message.headers);
    if HandlerSucceeds(s, attempts) then Completed(cfg, ran, tp)
    else if GoesToDlq(cfg, tp, rec.message.headers)
    then Lettered(ran, tp, if IsRetry(cfg, tp) then prior else attempts, s.produce)
    else Sent(ran, RetryTP(cfg, s), ScheduledCopy(cfg, tp, rec, prior, ran.now), s.produce)
  }

  /** Everything one delivery does before its commit, as one change of the world. */
  ghost function Effect(cfg: Config, w: World, asked: World, tp: TP, phase: Phase, attempts: int, s: Script): World
    requires Busy(w, tp) && Busy(asked, tp)
  {
    var rec := Current(w, tp);
    var prior := PriorDeliveries(cfg, tp, rec.message.headers);
    match phase
    case Idle => w
    case Parked(until) =>
      var late := w.now + Max(0, until - w.now) + s.extra;
      Sent(w.(now := late), RetryTP(cfg, s), RequeuedCopy(cfg, tp, rec, late), s.produce)
    case Invalid => Lettered(w, tp, prior, s.produce)
    case Settled => asked
    case Handling(_) => Attempted(cfg, asked.(now := w.now + s.took), tp, attempts, s)
  }

  /** One delivery as one change of the world. */
  ghost function Closed(cfg: Config, w: World, tp: TP, attempts: int, s: Script): World
    requires Busy(w, tp)
  {
    var phase := Decision(cfg, w, tp);
    Finish(Effect(cfg, w, Asked(cfg, w, tp), tp, phase, attempts, s), tp,
           Settles(cfg, w, tp, phase, attempts, s), s.commit)
  }

  lemma NextRequeue(cfg: Config, x: World, tp: TP, until: int, dest: nat, sent: Delivery)
    requires Busy(x, tp) && until <= x.now
    ensures var to := TP(cfg.policy.topic, dest);
      Next(cfg, SetPhase(x, tp, Parked(until)), Requeue(tp, dest, sent))
      == SetPhase(Sent(x, to, RequeuedCopy(cfg, tp, Current(x, tp), x.now), sent), tp,
                  if Outcome(x, to, sent) == Acked then Settled else Idle)
  {
    AfterCopy(x, tp, Parked(until), TP(cfg.policy.topic, dest), RequeuedCopy(cfg, tp, Current(x, tp), x.now), sent);
  }

  lemma NextDeadLetter(cfg: Config, x: World, tp: TP, sent: Delivery)
    requires Busy(x, tp)
    ensures Next(cfg, SetPhase(x, tp, Invalid), DeadLetter(tp, sent))
         == SetPhase(Lettered(x, tp, PriorDeliveries(cfg, tp, Current(x, tp).message.headers), sent), tp,
                     if sent == Acked then Settled else Idle)
  {
    AfterLetter(x, tp, Invalid, PriorDeliveries(cfg, tp, Current(x, tp).message.headers), sent);
  }

  lemma NextSucceed(cfg: Config, x: World, tp: TP, since: int)
    requires Busy(x, tp)
    ensures Next(cfg, SetPhase(x, tp, Handling(since)), Succeed(tp)) == SetPhase(Completed(cfg, x, tp), tp, Settled)
  {
    PhaseTwice(Completed(cfg, x, tp), tp, Handling(since), Settled);
  }

  lemma NextExhaust(cfg: Config, x: World, tp: TP, since: int, dest: nat, sent: Delivery)
    requires Busy(x, tp)
    ensures
      var to := TP(cfg.policy.topic, dest);
      var headers := Current(x, tp).message.headers;
      var prior := PriorDeliveries(cfg, tp, headers);
      Next(cfg, SetPhase(x, tp, Handling(since)), Exhaust(tp, dest, sent))
      == if GoesToDlq(cfg, tp, headers)
         then SetPhase(Lettered(x, tp, if IsRetry(cfg, tp) then prior else cfg.sourceAttempts, sent), tp,
                       if sent == Acked then Settled else Idle)
         else SetPhase(Sent(x, to, ScheduledCopy(cfg, tp, Current(x, tp), prior, x.now), sent), tp,
                       if Outcome(x, to, sent) == Acked then Settled else Idle)
  {
    var prior := PriorDeliveries(cfg, tp, Current(x, tp).message.headers);
    if GoesToDlq(cfg, tp, Current(x, tp).message.headers) {
      AfterLetter(x, tp, Handling(since), if IsRetry(cfg, tp) then prior else cfg.sourceAttempts, sent);
    } else {
      AfterCopy(x, tp, Handling(since), TP(cfg.policy.topic, dest),
                ScheduledCopy(cfg, tp, Current(x, tp), prior, x.now), sent);
    }
  }

  /** The receive step has decided on `phase` and left the filter as in `asked`. */
  ghost predicate Received(cfg: Config, w: World, asked: World, tp: TP, phase: Phase) {
    && Busy(w, tp) && w.lanes[tp].phase.Idle?
    && asked == w.(seen := asked.seen)
    && !phase.Idle? && (phase.Parked? || phase.Invalid? ==> asked == w)
    && Run(cfg, w, [Receive(tp)]) == SetPhase(asked, tp, phase)
  }

  lemma ReceiveDecides(cfg: Config, w: World, tp: TP)
    requires Ready(cfg, w, tp)
    ensures Received(cfg, w, Asked(cfg, w, tp), tp, Decision(cfg, w, tp))
  {
    AfterReceive(cfg, w, tp);
  }

  lemma RunThree(cfg: Config, w: World, asked: World, tp: TP, phase: Phase, ms: nat, last: Event)
    requires Received(cfg, w, asked, tp, phase)
    ensures Run(cfg, w, [Receive(tp), Tick(ms), last])
         == Next(cfg, SetPhase(asked.(now := w.now + ms), tp, phase), last)
  {
    AfterTick(cfg, w, [Receive(tp)], asked, tp, phase, ms);
    RunSnoc(cfg, w, [Receive(tp)] + [Tick(ms)], last);
    assert [Receive(tp)] + [Tick(ms)] + [last] == [Receive(tp), Tick(ms), last];
  }

  lemma ParkedSteps(cfg: Config, w: World, tp: TP, phase: Phase, attempts: int, s: Script)
    requires Received(cfg, w, w, tp, phase) && phase.Parked?
    ensures Run(cfg, w, Steps(w, tp, phase, attempts, s))
         == SetPhase(Effect(cfg, w, w, tp, phase, attempts, s), tp,
                     if Outcome(w, RetryTP(cfg, s), s.produce) == Acked then Settled else Idle)
  {
    var wait := Max(0, phase.until - w.now) + s.extra;
    RunThree(cfg, w, w, tp, phase, wait, Requeue(tp, s.dest, s.produce));
    NextRequeue(cfg, w.(now := w.now + wait), tp, phase.until, s.dest, s.produce);
  }

  lemma InvalidSteps(cfg: Config, w: World, tp: TP, attempts: int, s: Script)
    requires Received(cfg, w, w, tp, Invalid)
    ensures Run(cfg, w, Steps(w, tp, Invalid, attempts, s))
         == SetPhase(Effect(cfg, w, w, tp, Invalid, attempts, s), tp, if s.produce == Acked then Settled else Idle)
  {
    RunSnoc(cfg, w, [Receive(tp)], DeadLetter(tp, s.produce));
    assert [Receive(tp)] + [DeadLetter(tp, s.produce)] == [Receive(tp), DeadLetter(tp, s.produce)];
    NextDeadLetter(cfg, w, tp, s.produce);
  }

  lemma NextAttempt(cfg: Config, ran: World, tp: TP, since: int, attempts: int, s: Script)
    requires Busy(ran, tp)
    requires !IsRetry(cfg, tp) ==> attempts == cfg.sourceAttempts
    ensures Next(cfg, SetPhase(ran, tp, Handling(since)), LastEvent(tp, attempts, s))
         == SetPhase(Attempted(cfg, ran, tp, attempts, s), tp,
                     if AttemptSettles(cfg, ran, tp, attempts, s) then Settled else Idle)
  {
    if HandlerSucceeds(s, attempts) {
      NextSucceed(cfg, ran, tp, since);
    } else {
      NextExhaust(cfg, ran, tp, since, s.dest, s.produce);
    }
  }

  lemma HandlingSteps(cfg: Config, w: World, asked: World, tp: TP, phase: Phase, attempts: int, s: Script)
    requires Received(cfg, w, asked, tp, phase) && phase.Handling?
    requires !IsRetry(cfg, tp) ==> attempts == cfg.sourceAttempts
    ensures var ran := asked.(now := w.now + s.took);
            Run(cfg, w, Steps(w, tp, phase, attempts, s))
            == SetPhase(Attempted(cfg, ran, tp, attempts, s), tp,
                        if AttemptSettles(cfg, ran, tp, attempts, s) then Settled else Idle)
  {
    RunThree(cfg, w, asked, tp, phase, s.took, LastEvent(tp, attempts, s));
    NextAttempt(cfg, asked.(now := w.now + s.took), tp, phase.since, attempts, s);
  }

  lemma StepsAreEffect(cfg: Config, w: World, asked: World, tp: TP, phase: Phase, attempts: int, s: Script)
    requires Received(cfg, w, asked, tp, phase)
    requires !IsRetry(cfg, tp) ==> attempts == cfg.sourceAttempts
    ensures Run(cfg, w, Steps(w, tp, phase, attempts, s))
         == SetPhase(Effect(cfg, w, asked, tp, phase, attempts, s), tp,
                     if Settles(cfg, w, tp, phase, attempts, s) then Settled else Idle)
  {
    match phase
    case Parked(_) => ParkedSteps(cfg, w, tp, phase, attempts, s);
    case Invalid => InvalidSteps(cfg, w, tp, attempts, s);
    case Settled =>
    case Handling(_) => HandlingSteps(cfg, w, asked, tp, phase, attempts, s);
  }

  lemma EffectKeepsLane(cfg: Config, w: World, asked: World, tp: TP, phase: Phase, attempts: int, s: Script)
    requires Busy(w, tp) && asked == w.(seen := asked.seen)
    ensures var x := Effect(cfg, w, asked, tp, phase, attempts, s);
            && Busy(x, tp) && x.lanes[tp].phase == w.lanes[tp].phase
            && x.lanes[tp].position == w.lanes[tp].position && x.lanes[tp].committed == w.lanes[tp].committed
  {
  }

  /** What a runner does with one delivery is a run of the protocol. */
  lemma DeliveryIsARun(cfg: Config, w: World, tp: TP, attempts: int, s: Script)
    requires Ready(cfg, w, tp)
    requires !IsRetry(cfg, tp) ==> attempts == cfg.sourceAttempts
    ensures Closed(cfg, w, tp, attempts, s) == Run(cfg, w, Expected(cfg, w, tp, attempts, s))
  {
    ReceiveDecides(cfg, w, tp);
    CallIsARun(cfg, w, Asked(cfg, w, tp), tp, Decision(cfg, w, tp), attempts, s);
  }

  lemma CallIsARun(cfg: Config, w: World, asked: World, tp: TP, phase: Phase, attempts: int, s: Script)
    requires Received(cfg, w, asked, tp, phase)
    requires !IsRetry(cfg, tp) ==> attempts == cfg.sourceAttempts
    ensures var settled := Settles(cfg, w, tp, phase, attempts, s);
            Run(cfg, w, Steps(w, tp, phase, attempts, s) + if settled then [Commit(tp, s.commit)] else [])
            == Finish(Effect(cfg, w, asked, tp, phase, attempts, s), tp, settled, s.commit)
  {
    StepsAreEffect(cfg, w, asked, tp, phase, attempts, s);
    EffectKeepsLane(cfg, w, asked, tp, phase, attempts, s);
    RunFinish(cfg, w, Steps(w, tp, phase, attempts, s), Effect(cfg, w, asked, tp, phase, attempts, s), tp,
              Settles(cfg, w, tp, phase, attempts, s), s.commit);
  }

  /** The completion that a delivery leaves behind. */
  function CompletionOf(w: World, tp: TP): Completion
    requires Busy(w, tp)
  {
    Completion(Current(w, tp).root, EventId(Current(w, tp).message.value))
  }

  /** A delivery that reaches the handler uses its in-process attempts: it leaves exactly one completion, of
      its own record, if one of the first max(1, attempts) handler calls succeeds, and none otherwise. */
  lemma AttemptsDecideCompletion(cfg: Config, w: World, tp: TP, attempts: int, s: Script)
    requires Ready(cfg, w, tp) && Decision(cfg, w, tp).Handling?
    ensures (exists k: nat :: 1 <= k <= Max(1, attempts) && s.handler(k).Ok?) ==>
              Closed(cfg, w, tp, attempts, s).completions == w.completions + [CompletionOf(w, tp)]
    ensures !(exists k: nat :: 1 <= k <= Max(1, attempts) && s.handler(k).Ok?) ==>
              Closed(cfg, w, tp, attempts, s).completions == w.completions
    ensures Closed(cfg, w, tp, attempts, s).completions != w.completions
       <==> exists k: nat :: 1 <= k <= Max(1, attempts) && s.handler(k).Ok?
  {
    EffectKeepsLane(cfg, w, Asked(cfg, w, tp), tp, Decision(cfg, w, tp), attempts, s);
    assert |w.completions + [CompletionOf(w, tp)]| != |w.completions|;
  }

  lemma AttemptsShow(cfg: Config, w: World, tp: TP, attempts: int, s: Script)
    requires Ready(cfg, w, tp)
    ensures Decision(cfg, w, tp).Handling? ==>
              (Closed(cfg, w, tp, attempts, s).completions != w.completions
               <==> exists k: nat :: 1 <= k <= Max(1, attempts) && s.handler(k).Ok?)
  {
    if Decision(cfg, w, tp).Handling? {
      AttemptsDecideCompletion(cfg, w, tp, attempts, s);
    }
  }

  /** A delivery that does not reach the handler completes nothing. */
  lemma OnlyHandlersComplete(cfg: Config, w: World, tp: TP, attempts: int, s: Script)
    requires Ready(cfg, w, tp) && !Decision(cfg, w, tp).Handling?
    ensures Closed(cfg, w, tp, attempts, s).completions == w.completions
  {
    EffectKeepsLane(cfg, w, Asked(cfg, w, tp), tp, Decision(cfg, w, tp), attempts, s);
  }

  /** Against which schema a due message is validated: on a source topic that topic's, on the retry topic
      that of the topic named in its header, and of the default topic where none is named. */
  lemma ValidatedAgainst(cfg: Config, w: World, tp: TP, named: string)
    requires Ready(cfg, w, tp) && !Decision(cfg, w, tp).Parked?
    ensures var m := Current(w, tp).message;
            var header := m.headers.originalTopic;
            && (!IsRetry(cfg, tp) ==> (Decision(cfg, w, tp).Invalid? <==> !cfg.accepts(tp.topic, m.value)))
            && (IsRetry(cfg, tp) && header == Some(One(named)) ==>
                  (Decision(cfg, w, tp).Invalid? <==> !cfg.accepts(named, m.value)))
            && (IsRetry(cfg, tp) && header == None ==>
                  (Decision(cfg, w, tp).Invalid? <==> !cfg.accepts(cfg.defaultTopic, m.value)))
  {
  }

  /** A message that is not due is parked, and sleeps until it is due or for a second, whichever comes first. */
  lemma ParksAtMostASecond(cfg: Config, w: World, tp: TP)
    requires Ready(cfg, w, tp)
    ensures var due := ParseRetryHeaders(Current(w, tp).message.headers).nextDeliverAtMs;
            && (Decision(cfg, w, tp).Parked? <==> IsRetry(cfg, tp) && due > w.now)
            && (Decision(cfg, w, tp).Parked? ==>
                  Decision(cfg, w, tp).until == if due < w.now + 1000 then due else w.now + 1000)
  {
  }

  /** The offset moves only once an outcome exists: a delivery commits offset + 1 exactly when it is settled and the
      commit takes effect, and the driver goes on to the next record exactly when the call resolves. */
  lemma OffsetMovesIffSettled(cfg: Config, w: World, tp: TP, attempts: int, s: Script)
    requires Ready(cfg, w, tp)
    ensures var before, after := w.lanes[tp], Closed(cfg, w, tp, attempts, s).lanes[tp];
            var settled := Settles(cfg, w, tp, Decision(cfg, w, tp), attempts, s);
            && after.committed == (if settled && s.commit.Applied() then before.position + 1 else before.committed)
            && after.position == (if Resolves(cfg, w, tp, attempts, s) then before.position + 1 else before.position)
  {
    EffectKeepsLane(cfg, w, Asked(cfg, w, tp), tp, Decision(cfg, w, tp), attempts, s);
  }
}
