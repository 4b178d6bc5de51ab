/**
 One message's way through the pipeline when no produce, commit or process fails: in-process attempts on
 the source topic, then the retry topic, parked and requeued until due, and in the end handled, skipped,
 rejected or dead-lettered (apps/consumer/src/handler-runner.ts, apps/consumer/src/retry-runner.ts).

 The handler, validation, the duplicate filter, the lateness of every redelivery and the time everything
 takes are oracles. That the journey ends is the termination of `Follow`; its postconditions bound what it
 costs. `RequeueBound` has the bound on requeues for runs with faults.
 */
module RetryJourney {
  import opened Prelude
  import opened RetryTopic
  import Backoff

  /** What the environment decides. `handles(d, k)`: the k-th attempt of delivery d succeeds (delivery 0 is the
      one on the source topic). `accepts(d)` and `known(d)`: validation accepts it, the filter knows its id.
      `late` and `extra` are the delays of the i-th hop. */
  datatype Environment = Environment(
    handles: (nat, nat) -> bool, accepts: nat -> bool, known: nat -> bool,
    took: nat -> nat, late: nat -> nat, extra: nat -> nat, random: nat -> real)

  datatype Settings = Settings(policy: Policy, sourceAttempts: int, retryAttempts: int, backoff: Backoff.Options)

  datatype End = Handled | Skipped | Rejected | DeadLettered

  /** Retry-topic deliveries until the message must be dead-lettered. */
  function MaxDue(policy: Policy): int { Max(1, policy.maxDeliveries) }

  // ---- Requeues ----

  /** How often a message that is due at `due` is requeued, when its copy is stored at `from`. */
  function Requeues(env: Environment, due: int, from: int, hop: nat): nat
    decreases Hops(due - from)
  {
    var now := from + env.late(hop);
    if due <= now then 0
    else
      var elapsed := Min(due - now, REQUEUE_THROTTLE_MS) + env.extra(hop);
      HopShortens(due - now, elapsed);
      HopsMonotone(due - now, due - from);
      1 + Requeues(env, due, now + elapsed, hop + 1)
  }

  lemma {:induction false} RequeuesAreBounded(env: Environment, due: int, from: int, hop: nat)
    ensures Requeues(env, due, from, hop) <= Hops(due - from)
    decreases Hops(due - from)
  {
    var now := from + env.late(hop);
    HopsMonotone(due - now, due - from);
    if due > now {
      var elapsed := Min(due - now, REQUEUE_THROTTLE_MS) + env.extra(hop);
      HopShortens(due - now, elapsed);
      RequeuesAreBounded(env, due, now + elapsed, hop + 1);
    }
  }

  ghost predicate Punctual(env: Environment) { forall i: nat :: env.late(i) == 0 && env.extra(i) == 0 }

  /** Without lateness the bound is reached. */
  lemma {:induction false} PunctualRequeues(env: Environment, due: int, from: int, hop: nat)
    requires Punctual(env)
    ensures Requeues(env, due, from, hop) == Hops(due - from)
    decreases Hops(due - from)
  {
    assert env.late(hop) == 0 && env.extra(hop) == 0;
    if due > from {
      var elapsed := Min(due - from, REQUEUE_THROTTLE_MS);
      HopShortens(due - from, elapsed);
      PunctualRequeues(env, due, from + elapsed, hop + 1);
    }
  }

  const PUNCTUAL := Environment((d, k) => false, d => true, d => false, d => 0, i => 0, i => 0, k => 0.5)

  /** When a message is due that is scheduled at `now` after `prior` deliveries. */
  function DueAfter(policy: Policy, prior: nat, now: int): int { Max(0, now + NextDelay(policy, prior)) }

  lemma DueAsScheduled(policy: Policy, topic: string, headers: Headers, prior: nat, now: int)
    ensures ParseRetryHeaders(ScheduleHeaders(policy, topic, headers, prior, now)).nextDeliverAtMs
         == DueAfter(policy, prior, now)
  {
    ScheduledHeadersReadBack(policy, topic, headers, prior, now);
  }

  /** The code's comment says that `maxDeliveries` bounds the requeues. It does so, in every environment, if
      and only if the ladder delay has no more started seconds than `maxDeliveries`. */
  lemma MaxDeliveriesBoundsRequeuesIff(policy: Policy, prior: nat, now: nat, bound: int)
    ensures (forall env, hop :: Requeues(env, DueAfter(policy, prior, now), now, hop) <= bound)
       <==> Hops(NextDelay(policy, prior)) <= bound
  {
    var due := DueAfter(policy, prior, now);
    assert Hops(due - now) == Hops(NextDelay(policy, prior));
    if Hops(NextDelay(policy, prior)) <= bound {
      forall env, hop
        ensures Requeues(env, due, now, hop) <= bound
      {
        RequeuesAreBounded(env, due, now, hop);
      }
    } else {
      PunctualRequeues(PUNCTUAL, due, now, 0);
      assert Requeues(PUNCTUAL, due, now, 0) > bound;
    }
  }

  const ONE_MINUTE := Policy("orders.retry", [60000], 1)

  /** The failing input: a ladder of one minute and one delivery make sixty requeues. */
  lemma OneDeliverySixtyRequeues(now: nat)
    ensures Requeues(PUNCTUAL, DueAfter(ONE_MINUTE, 0, now), now, 0) == 60 > ONE_MINUTE.maxDeliveries
  {
    PunctualRequeues(PUNCTUAL, DueAfter(ONE_MINUTE, 0, now), now, 0);
  }

  // ---- The journey ----

  /** Runs the handler with in-process retries, as both runners do. */
  method Attempt(settings: Settings, env: Environment, delivery: nat, attempts: int) returns (ok: bool, calls: nat)
    ensures 1 <= calls <= Max(1, attempts)
    ensures ok <==> env.handles(delivery, calls)
    ensures forall k: nat :: 1 <= k < calls ==> !env.handles(delivery, k)
    ensures !ok ==> calls == Max(1, attempts)
  {
    var task := (k: nat) => if env.handles(delivery, k) then Backoff.Ok(()) else Backoff.Err(());
    var result, n, notices, sleeps := Backoff.WithRetry(task, settings.backoff.(attempts := attempts), env.random);
    ok, calls := result.Ok?, n;
    forall k: nat | 1 <= k < calls
      ensures !env.handles(delivery, k)
    {
      assert task(k).Err?;
    }
  }

  /** A message that is not yet due goes round the retry topic until it is: each delivery sleeps at most
      a second, requeues a copy and commits. */
  method WaitUntilDue(policy: Policy, env: Environment, sent: Headers, from: int, firstHop: nat)
    returns (headers: Headers, now: int, hop: nat, waited: nat)
    ensures ParseRetryHeaders(headers) == ParseRetryHeaders(sent)
    ensures now >= from && now >= ParseRetryHeaders(sent).nextDeliverAtMs
    ensures waited == Requeues(env, ParseRetryHeaders(sent).nextDeliverAtMs, from, firstHop)
    ensures waited <= Hops(ParseRetryHeaders(sent).nextDeliverAtMs - from)
    ensures Punctual(env) ==> waited == Hops(ParseRetryHeaders(sent).nextDeliverAtMs - from)
  {
    ghost var due := ParseRetryHeaders(sent).nextDeliverAtMs;
    RequeuesAreBounded(env, due, from, firstHop);
    if Punctual(env) {
      PunctualRequeues(env, due, from, firstHop);
    }
    headers, hop, waited := sent, firstHop, 0;
    ghost var stored := from;
    now := from + env.late(hop);
    while ParkDelay(ParseRetryHeaders(headers).nextDeliverAtMs, now) > 0
      invariant ParseRetryHeaders(headers) == ParseRetryHeaders(sent) && now >= from
      invariant now == stored + env.late(hop)
      invariant waited + Requeues(env, due, stored, hop) == Requeues(env, due, from, firstHop)
      decreases Requeues(env, due, stored, hop)
    {
      var parsed := ParseRetryHeaders(headers);
      var park := ParkDelay(parsed.nextDeliverAtMs, now);
      var elapsed := Min(park, REQUEUE_THROTTLE_MS) + env.extra(hop);
      RequeueIsTransparent(policy, policy.topic, headers);
      now := now + elapsed;
      headers := RequeueHeaders(policy, policy.topic, headers, parsed);
      stored := now;
      hop, waited := hop + 1, waited + 1;
      now := now + env.late(hop);
    }
  }

  /** Headers just scheduled after `due` deliveries of a message first handled at `start`. */
  predicate OnLadder(policy: Policy, headers: Headers, due: nat, start: nat, now: int) {
    var parsed := ParseRetryHeaders(headers);
    && parsed.retryCount == due + 1
    && parsed.nextDeliverAtMs >= start + LadderSum(policy, 0, due + 1)
    && Hops(parsed.nextDeliverAtMs - now) <= Hops(NextDelay(policy, due))
  }

  lemma ScheduleIsOnLadder(policy: Policy, topic: string, headers: Headers, due: nat, start: nat, now: int)
    requires now >= start && now >= start + LadderSum(policy, 0, due)
    ensures OnLadder(policy, ScheduleHeaders(policy, topic, headers, due, now), due, start, now)
  {
    ScheduledHeadersReadBack(policy, topic, headers, due, now);
  }

  datatype Result = Finished(end: End) | Rescheduled(headers: Headers)

  /** One due delivery on the retry topic, from the copy that was scheduled for it to its outcome. */
  method Deliver(settings: Settings, env: Environment, sent: Headers, start: nat, from: int, firstHop: nat, due: nat)
    returns (result: Result, now: int, hop: nat, waited: nat, dueAt: int, calls: nat)
    requires from >= start && due < MaxDue(settings.policy) && OnLadder(settings.policy, sent, due, start, from)
    ensures waited <= Hops(NextDelay(settings.policy, due))
    ensures dueAt >= start + LadderSum(settings.policy, 0, due + 1)
    ensures calls <= Max(1, settings.retryAttempts)
    ensures result == Finished(Rejected) <==> !env.accepts(due + 1)
    ensures result == Finished(Skipped) <==> env.accepts(due + 1) && env.known(due + 1)
    ensures calls == 0 <==> result == Finished(Rejected) || result == Finished(Skipped)
    ensures calls > 0 ==> (result == Finished(Handled) <==> env.handles(due + 1, calls))
    ensures result == Finished(DeadLettered) ==> due + 1 == MaxDue(settings.policy)
    ensures result == Finished(DeadLettered) || result.Rescheduled? ==> calls == Max(1, settings.retryAttempts)
    ensures result.Rescheduled? ==> due + 1 < MaxDue(settings.policy) && now >= start
    ensures result.Rescheduled? ==> OnLadder(settings.policy, result.headers, due + 1, start, now)
  {
    var policy := settings.policy;
    var headers;
    headers, now, hop, waited := WaitUntilDue(policy, env, sent, from, firstHop);
    dueAt, calls := now, 0;
    if !env.accepts(due + 1) {
      result := Finished(Rejected);
      return;
    }
    if env.known(due + 1) {
      result := Finished(Skipped);
      return;
    }
    var ok;
    ok, calls := Attempt(settings, env, due + 1, settings.retryAttempts);
    if ok {
      result := Finished(Handled);
      return;
    }
    var count := ParseRetryHeaders(headers).retryCount;
    if IsMaxRetries(policy, count) {
      result := Finished(DeadLettered);
      return;
    }
    now := now + env.took(due + 1);
    ScheduleIsOnLadder(policy, policy.topic, headers, count, start, now);
    result := Rescheduled(ScheduleHeaders(policy, policy.topic, headers, count, now));
  }

  /** Before the (k+1)-th due delivery, one requeue per started second of its delay. */
  predicate WaitsAreBounded(policy: Policy, waits: seq<nat>) {
    forall k: nat :: k < |waits| ==> waits[k] <= Hops(NextDelay(policy, k))
  }

  /** The (k+1)-th due delivery starts no earlier than the first k+1 delays of the ladder allow. */
  predicate DueInTime(policy: Policy, start: nat, dueAt: seq<int>) {
    forall k: nat :: k < |dueAt| ==> dueAt[k] >= start + LadderSum(policy, 0, k + 1)
  }

  lemma BoundsGrow(policy: Policy, start: nat, waits: seq<nat>, waited: nat, dueAt: seq<int>, at: int)
    requires WaitsAreBounded(policy, waits) && DueInTime(policy, start, dueAt)
    requires waited <= Hops(NextDelay(policy, |waits|)) && at >= start + LadderSum(policy, 0, |dueAt| + 1)
    ensures WaitsAreBounded(policy, waits + [waited]) && DueInTime(policy, start, dueAt + [at])
  {
  }

  /** The journey of a message whose source delivery starts at `start`. `waits[k]` counts the requeues before the
      (k+1)-th due delivery, `dueAt[k]` is when that delivery started; `retryCalls` counts the handler calls of
      the due deliveries, `sourceCalls` those on the source topic. */
  method Follow(settings: Settings, env: Environment, topic: string, start: nat)
    returns (end: End, due: nat, waits: seq<nat>, dueAt: seq<int>, sourceCalls: nat, retryCalls: nat)
    ensures due <= MaxDue(settings.policy)
    ensures |waits| == |dueAt| == due
    ensures WaitsAreBounded(settings.policy, waits) && DueInTime(settings.policy, start, dueAt)
    ensures sourceCalls <= Max(1, settings.sourceAttempts)
    ensures sourceCalls + retryCalls <=
              Max(1, settings.sourceAttempts) + MaxDue(settings.policy) * Max(1, settings.retryAttempts)
    ensures end == DeadLettered ==> due == MaxDue(settings.policy) && sourceCalls == Max(1, settings.sourceAttempts)
    ensures end == DeadLettered ==> retryCalls == Times(due, Max(1, settings.retryAttempts))
    ensures end == Handled ==> exists k: nat :: env.handles(due, k)
    ensures end == Rejected ==> !env.accepts(due)
    ensures end == Skipped ==> env.known(due)
  {
    var now: int, hop: nat := start, 0;
    due, waits, dueAt, sourceCalls, retryCalls := 0, [], [], 0, 0;
    CallsAreBounded(0, Max(1, settings.retryAttempts), MaxDue(settings.policy));
    if !env.accepts(0) {
      end := Rejected;
      return;
    }
    if env.known(0) {
      end := Skipped;
      return;
    }
    var ok;
    ok, sourceCalls := Attempt(settings, env, 0, settings.sourceAttempts);
    if ok {
      end := Handled;
      return;
    }
    now := now + env.took(0);
    assert LadderSum(settings.policy, 0, 0) == 0;
    ScheduleIsOnLadder(settings.policy, topic, NO_HEADERS, 0, start, now);
    var headers := ScheduleHeaders(settings.policy, topic, NO_HEADERS, 0, now);
    while true
      invariant now >= start && |waits| == |dueAt| == due < MaxDue(settings.policy)
      invariant OnLadder(settings.policy, headers, due, start, now)
      invariant WaitsAreBounded(settings.policy, waits) && DueInTime(settings.policy, start, dueAt)
      invariant retryCalls == Times(due, Max(1, settings.retryAttempts))
      decreases MaxDue(settings.policy) - due
    {
      var result, waited, at, n;
      result, now, hop, waited, at, n := Deliver(settings, env, headers, start, now, hop, due);
      BoundsGrow(settings.policy, start, waits, waited, dueAt, at);
      waits, dueAt, due, retryCalls := waits + [waited], dueAt + [at], due + 1, retryCalls + n;
      if result.Finished? {
        CallsAreBounded(due, Max(1, settings.retryAttempts), MaxDue(settings.policy));
        end := result.end;
        return;
      }
      headers := result.headers;
    }
  }

  function Times(n: nat, x: int): int {
    if n == 0 then 0 else Times(n - 1, x) + x
  }

  /** The bound on handler calls as a product. */
  lemma {:induction false} CallsAreBounded(n: nat, x: int, m: nat)
    requires x >= 0 && n <= m
    ensures Times(n, x) <= Times(m, x) == m * x
    decreases m
  {
    if m > 0 {
      CallsAreBounded(if n == m then n - 1 else n, x, m - 1);
    }
  }
}
