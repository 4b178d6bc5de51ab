/**
 In-process retries with capped exponential backoff (packages/infra/src/retry.ts, and its use in
 runHandlerWithRetry of apps/consumer/src/pipeline-shared.ts).

 The task and the random draws are oracles indexed by the attempt number; sleeping is recorded.
 */
module Backoff {
  import opened Prelude

  datatype Outcome<+T, +E> = Ok(value: T) | Err(error: E)

  datatype Options = Options(attempts: int, baseDelayMs: real, maxDelayMs: real, factor: real, jitter: bool)

  /** What the `onAttempt` callback is told: the failed attempt, the rounded delay, the error. */
  datatype Notice<+E> = Notice(attempt: nat, delayMs: int, error: E)

  function Pow(base: real, exponent: nat): real {
    if exponent == 0 then 1.0 else base * Pow(base, exponent - 1)
  }

  /** The backoff before jitter. */
  function Ceiling(o: Options, attempt: nat): real
    requires attempt >= 1
  {
    var raw := o.baseDelayMs * Pow(o.factor, attempt - 1);
    if raw < o.maxDelayMs then raw else o.maxDelayMs
  }

  function Jittered(jitter: bool, ceiling: real, draw: real): real {
    if jitter then ceiling * draw else ceiling
  }

  function Delay(o: Options, attempt: nat, draw: real): real
    requires attempt >= 1
  {
    Jittered(o.jitter, Ceiling(o, attempt), draw)
  }

  /** Rounds to the nearest integer, halves upwards. */
  function Round(x: real): (r: int)
    ensures r as real - 0.5 <= x < r as real + 0.5
  {
    (x + 0.5).Floor
  }

  /** Runs `task` until it succeeds or the attempts are used up; then the last error is rethrown. */
  method WithRetry<T, E>(task: nat -> Outcome<T, E>, o: Options, random: nat -> real)
    returns (result: Outcome<T, E>, calls: nat, notices: seq<Notice<E>>, sleeps: seq<real>)
    ensures 1 <= calls <= Max(1, o.attempts)
    ensures forall k: nat :: 1 <= k < calls ==> task(k).Err?
    ensures result == task(calls)
    ensures result.Err? ==> calls == Max(1, o.attempts)
    ensures |notices| == |sleeps| == calls - 1
    ensures forall k: nat :: k < calls - 1 ==> sleeps[k] == Delay(o, k + 1, random(k + 1))
    ensures forall k: nat :: k < calls - 1 && task(k + 1).Err? ==>
              notices[k] == Notice(k + 1, Round(sleeps[k]), task(k + 1).error)
  {
    var attempts := Max(1, o.attempts);
    notices, sleeps := [], [];
    for attempt := 1 to attempts + 1
      invariant |notices| == |sleeps| == attempt - 1
      invariant forall k: nat :: 1 <= k < attempt ==> task(k).Err?
      invariant attempt <= attempts
      invariant forall k: nat :: k < attempt - 1 ==> sleeps[k] == Delay(o, k + 1, random(k + 1))
      invariant forall k: nat :: k < attempt - 1 && task(k + 1).Err? ==>
                  notices[k] == Notice(k + 1, Round(sleeps[k]), task(k + 1).error)
    {
      result, calls := task(attempt), attempt;
      if result.Ok? || attempt == attempts {
        return;
      }
      var capped := Ceiling(o, attempt);
      var delay := Jittered(o.jitter, capped, random(attempt));
      notices := notices + [Notice(attempt, Round(delay), result.error)];
      sleeps := sleeps + [delay];
    }
  }

  // ---- The single backoff ----

  function MinReal(a: real, b: real): real { if a < b then a else b }

  lemma RawGrows(base: real, factor: real, k: nat)
    ensures base * Pow(factor, k + 1) == factor * (base * Pow(factor, k))
  {
  }

  lemma GrowthKeepsCap(x: real, cap: real, factor: real)
    requires x >= cap >= 0.0 && factor >= 1.0
    ensures factor * x >= cap
  {
    assert (factor - 1.0) * x >= 0.0;
  }

  lemma CapBeforeGrowth(raw: real, next: real, cap: real, factor: real)
    requires cap >= 0.0 && factor >= 1.0 && next == factor * raw
    ensures MinReal(next, cap) == MinReal(factor * MinReal(raw, cap), cap)
  {
    if raw >= cap {
      GrowthKeepsCap(raw, cap, factor);
      GrowthKeepsCap(cap, cap, factor);
    }
  }

  /** What the backoff of an attempt is, by the backoff before capping. */
  lemma CeilingIsCapped(o: Options, attempt: nat, raw: real)
    requires attempt >= 1 && raw == o.baseDelayMs * Pow(o.factor, attempt - 1)
    ensures Ceiling(o, attempt) == MinReal(raw, o.maxDelayMs)
  {
  }

  lemma NextRaw(o: Options, k: nat) returns (raw: real, next: real)
    requires k >= 1
    ensures Ceiling(o, k) == MinReal(raw, o.maxDelayMs) && Ceiling(o, k + 1) == MinReal(next, o.maxDelayMs)
    ensures next == o.factor * raw
  {
    raw, next := o.baseDelayMs * Pow(o.factor, k - 1), o.baseDelayMs * Pow(o.factor, k);
    RawGrows(o.baseDelayMs, o.factor, k - 1);
    CeilingIsCapped(o, k, raw);
    CeilingIsCapped(o, k + 1, next);
  }

  /** The first backoff is the base, or the cap if that is less. */
  lemma FirstBackoffIsBase(o: Options)
    ensures Ceiling(o, 1) == MinReal(o.baseDelayMs, o.maxDelayMs)
  {
    assert Pow(o.factor, 0) == 1.0;
    CeilingIsCapped(o, 1, o.baseDelayMs);
  }

  /** The backoff is exponential up to its cap: each is the factor times the one before. */
  lemma BackoffIsExponential(o: Options, k: nat, before: real, after: real)
    requires o.maxDelayMs >= 0.0 && o.factor >= 1.0 && k >= 1
    requires before == Ceiling(o, k) && after == Ceiling(o, k + 1)
    ensures after == MinReal(o.factor * before, o.maxDelayMs)
  {
    var raw, next := NextRaw(o, k);
    CapBeforeGrowth(raw, next, o.maxDelayMs, o.factor);
  }

  /** Without jitter the delay is that backoff; with it, the drawn share of it. */
  lemma JitterTakesShare(o: Options, attempt: nat, draw: real)
    requires Sensible(o) && attempt >= 1 && 0.0 <= draw < 1.0
    ensures !o.jitter ==> Delay(o, attempt, draw) == Ceiling(o, attempt)
    ensures o.jitter ==> Delay(o, attempt, draw) == draw * Ceiling(o, attempt)
    ensures 0.0 <= Delay(o, attempt, draw) <= Ceiling(o, attempt)
  {
    CeilingIsBounded(o, attempt);
    JitterShrinks(o.jitter, Ceiling(o, attempt), draw);
  }

  // ---- Total time asleep ----

  predicate Sensible(o: Options) {
    o.baseDelayMs >= 0.0 && o.maxDelayMs >= 0.0 && o.factor >= 0.0
  }

  lemma {:induction false} PowNonNegative(base: real, exponent: nat)
    requires base >= 0.0
    ensures Pow(base, exponent) >= 0.0
  {
    if exponent > 0 {
      PowNonNegative(base, exponent - 1);
    }
  }

  function Sum(xs: seq<real>): real {
    if xs == [] then 0.0 else Sum(xs[..|xs| - 1]) + xs[|xs| - 1]
  }

  /** The first `n` backoff ceilings, `min(base * factor^(k-1), maxDelay)` for k = 1, ..., n. */
  function Ceilings(o: Options, n: nat): seq<real> {
    seq(n, (k: nat) => Ceiling(o, k + 1))
  }

  lemma CeilingIsBounded(o: Options, attempt: nat)
    requires Sensible(o) && attempt >= 1
    ensures 0.0 <= Ceiling(o, attempt) <= o.maxDelayMs
  {
    PowNonNegative(o.factor, attempt - 1);
    var power := Pow(o.factor, attempt - 1);
    assert o.baseDelayMs * power >= 0.0;
  }

  lemma Shrinks(x: real, draw: real)
    requires x >= 0.0 && 0.0 <= draw < 1.0
    ensures 0.0 <= x * draw <= x
  {
  }

  lemma JitterShrinks(jitter: bool, ceiling: real, draw: real)
    requires ceiling >= 0.0 && 0.0 <= draw < 1.0
    ensures 0.0 <= Jittered(jitter, ceiling, draw) <= ceiling
  {
    Shrinks(ceiling, draw);
  }

  lemma {:induction false} SumIsMonotone(xs: seq<real>, ys: seq<real>)
    requires |xs| == |ys|
    requires forall k :: 0 <= k < |xs| ==> 0.0 <= xs[k] <= ys[k]
    ensures 0.0 <= Sum(xs) <= Sum(ys)
  {
    if xs != [] {
      SumIsMonotone(xs[..|xs| - 1], ys[..|ys| - 1]);
    }
  }

  /** `x` added up `n` times. */
  function Times(n: nat, x: real): real {
    if n == 0 then 0.0 else Times(n - 1, x) + x
  }

  lemma {:induction false} TimesIsProduct(n: nat, x: real)
    ensures Times(n, x) == n as real * x
  {
    if n > 0 {
      TimesIsProduct(n - 1, x);
    }
  }

  lemma {:induction false} SumIsCapped(xs: seq<real>, bound: real, n: nat)
    requires bound >= 0.0 && |xs| <= n
    requires forall k :: 0 <= k < |xs| ==> 0.0 <= xs[k] <= bound
    ensures 0.0 <= Sum(xs) <= Times(n, bound)
  {
    if n > 0 {
      SumIsCapped(if |xs| == n then xs[..n - 1] else xs, bound, n - 1);
    }
  }

  lemma JitteredSum(jitter: bool, ceilings: seq<real>, draws: seq<real>, sleeps: seq<real>, bound: real)
    requires |ceilings| == |draws| == |sleeps|
    requires forall k :: 0 <= k < |ceilings| ==> 0.0 <= ceilings[k] <= bound && 0.0 <= draws[k] < 1.0
    requires forall k :: 0 <= k < |ceilings| ==> sleeps[k] == Jittered(jitter, ceilings[k], draws[k])
    ensures 0.0 <= Sum(sleeps) <= Sum(ceilings)
  {
    forall k | 0 <= k < |sleeps|
      ensures 0.0 <= sleeps[k] <= ceilings[k]
    {
      JitterShrinks(jitter, ceilings[k], draws[k]);
    }
    SumIsMonotone(sleeps, ceilings);
  }

  lemma CeilingsAreBounded(o: Options, n: nat)
    requires Sensible(o)
    ensures forall k :: 0 <= k < n ==> 0.0 <= Ceilings(o, n)[k] <= o.maxDelayMs
  {
    forall k: nat | k < n
      ensures 0.0 <= Ceilings(o, n)[k] <= o.maxDelayMs
    {
      CeilingIsBounded(o, k + 1);
    }
  }

  lemma SleepsAreJittered(o: Options, random: nat -> real, sleeps: seq<real>, ceilings: seq<real>)
    requires ceilings == Ceilings(o, |sleeps|)
    requires forall k: nat :: k < |sleeps| ==> sleeps[k] == Delay(o, k + 1, random(k + 1))
    ensures forall k: nat :: k < |sleeps| ==> sleeps[k] == Jittered(o.jitter, ceilings[k], random(k + 1))
  {
  }

  /** The sleeps of a run add up to at most the sum of the ceilings, and hence to at most `attempts - 1` times
      `maxDelayMs` (`TimesIsProduct` says that `Times` is the product). */
  lemma TotalSleepIsBounded(o: Options, random: nat -> real, sleeps: seq<real>, ceilings: seq<real>)
    requires Sensible(o)
    requires forall k: nat :: 0.0 <= random(k) < 1.0
    requires |sleeps| < Max(1, o.attempts)
    requires forall k: nat :: k < |sleeps| ==> sleeps[k] == Delay(o, k + 1, random(k + 1))
    requires ceilings == Ceilings(o, |sleeps|)
    ensures 0.0 <= Sum(sleeps) <= Sum(ceilings) <= Times(Max(1, o.attempts) - 1, o.maxDelayMs)
  {
    CeilingsAreBounded(o, |sleeps|);
    SleepsAreJittered(o, random, sleeps, ceilings);
    var draws := seq(|sleeps|, (k: nat) => random(k + 1));
    JitteredSum(o.jitter, ceilings, draws, sleeps, o.maxDelayMs);
    SumIsCapped(ceilings, o.maxDelayMs, Max(1, o.attempts) - 1);
  }
}
