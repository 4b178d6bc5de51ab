/**
 The retry topic's delay ladder and headers (packages/infra/src/retry-topic.ts).

 The decimal retry count is printed and parsed character by character, as `String` and `parseInt`
 do. Timestamps are abstract: an ISO text stands for the instant it denotes.
 */
module RetryTopic {
  import opened Prelude

  /** A header as the driver hands it over: one value or a list of them. */
  datatype HeaderValue<+T> = One(value: T) | Many(values: seq<T>)

  /** The text of a `next-deliver-at` header, by how the parser reads it. */
  datatype Stamp = Iso(ms: int) | Numeric(ms: int) | Unreadable

  datatype Headers = Headers(
    retryCount: Option<HeaderValue<string>>,
    nextDeliverAt: Option<HeaderValue<Stamp>>,
    originalTopic: Option<HeaderValue<string>>)

  const NO_HEADERS := Headers(None, None, None)

  datatype RetryHeaders = RetryHeaders(retryCount: nat, nextDeliverAtMs: nat)

  datatype Policy = Policy(topic: string, delaysMs: seq<int>, maxDeliveries: int)

  // ---- Delay ladder ----

  /** The delay after `priorDeliveries` retry-topic deliveries: the ladder's step, held at its last. */
  function NextDelay(policy: Policy, priorDeliveries: int): (delay: int)
    ensures policy.delaysMs == [] ==> delay == 0
    ensures 0 <= priorDeliveries < |policy.delaysMs| ==> delay == policy.delaysMs[priorDeliveries]
    ensures |policy.delaysMs| > 0 && priorDeliveries >= |policy.delaysMs| ==>
              delay == policy.delaysMs[|policy.delaysMs| - 1]
  {
    var index := Min(Max(0, priorDeliveries), |policy.delaysMs| - 1);
    if index < 0 then 0 else policy.delaysMs[index]
  }

  predicate IsMaxRetries(policy: Policy, retryCount: int) {
    retryCount >= policy.maxDeliveries
  }

  /** The ladder delays after `from`, `from + 1`, ..., `from + steps - 1` deliveries, added up. */
  function LadderSum(policy: Policy, from: nat, steps: nat): int {
    if steps == 0 then 0 else LadderSum(policy, from, steps - 1) + NextDelay(policy, from + steps - 1)
  }

  function ParkDelay(nextDeliverAtMs: int, now: int): (r: nat)
    ensures r == 0 <==> nextDeliverAtMs <= now
    ensures r > 0 ==> now + r == nextDeliverAtMs
  {
    Max(0, nextDeliverAtMs - now)
  }

  /** How long a runner sleeps at most before it requeues a message that is not due. */
  const REQUEUE_THROTTLE_MS := 1000

  /** Throttled hops needed for a delay: one per started second. */
  function Hops(delayMs: int): nat {
    if delayMs <= 0 then 0 else (delayMs + REQUEUE_THROTTLE_MS - 1) / REQUEUE_THROTTLE_MS
  }

  /** A hop sleeps a second, or what is left of the wait. */
  lemma HopShortens(park: int, elapsed: int)
    requires park > 0 && elapsed >= Min(park, REQUEUE_THROTTLE_MS)
    ensures Hops(park - elapsed) < Hops(park)
  {
  }

  lemma HopsMonotone(a: int, b: int)
    requires a <= b
    ensures Hops(a) <= Hops(b)
  {
  }

  // ---- Decimal counts ----

  function DigitChar(d: nat): char
    requires d < 10
  {
    "0123456789"[d]
  }

  predicate IsDigit(c: char) { '0' <= c <= '9' }

  function DigitValue(c: char): nat
    requires IsDigit(c)
  {
    c as int - '0' as int
  }

  function Print(n: nat): (s: string)
    ensures s != "" && forall c :: c in s ==> IsDigit(c)
    ensures n > 0 ==> s[0] != '0'
  {
    if n < 10 then [DigitChar(n)] else Print(n / 10) + [DigitChar(n % 10)]
  }

  predicate IsBlank(c: char) { c == ' ' || c == '\t' || c == '\n' || c == '\r' }

  function SkipBlanks(s: string): string {
    if s != "" && IsBlank(s[0]) then SkipBlanks(s[1..]) else s
  }

  /** Reads the longest prefix of digits, most significant first. */
  function ReadDigits(s: string, acc: nat): nat {
    if s == "" || !IsDigit(s[0]) then acc else ReadDigits(s[1..], acc * 10 + DigitValue(s[0]))
  }

  /** `parseInt(s, 10)`: optional blanks and sign, then digits; anything after them is ignored. */
  function ParseInt(s: string): Option<int> {
    var t := SkipBlanks(s);
    var negative := t != "" && t[0] == '-';
    var signed := t != "" && (t[0] == '-' || t[0] == '+');
    var digits := if signed then t[1..] else t;
    if digits == "" || !IsDigit(digits[0]) then None
    else
      var magnitude: int := ReadDigits(digits, 0);
      Some(if negative then -magnitude else magnitude)
  }

  lemma {:induction false} ReadDigitsConcat(a: string, b: string, acc: nat)
    requires forall c :: c in a ==> IsDigit(c)
    ensures ReadDigits(a + b, acc) == ReadDigits(b, ReadDigits(a, acc))
    decreases |a|
  {
    if a == "" {
      assert a + b == b;
    } else {
      assert (a + b)[1..] == a[1..] + b;
      ReadDigitsConcat(a[1..], b, acc * 10 + DigitValue(a[0]));
    }
  }

  lemma {:induction false} ReadDigitsPrinted(n: nat)
    ensures ReadDigits(Print(n), 0) == n
  {
    if n >= 10 {
      ReadDigitsPrinted(n / 10);
      ReadDigitsConcat(Print(n / 10), [DigitChar(n % 10)], 0);
    }
    var last := [DigitChar(n % 10)];
    assert last[1..] == "";
    assert DigitValue(DigitChar(n % 10)) == n % 10;
  }

  /** Printing a count and parsing it back is the identity, whatever text follows the digits. */
  lemma CountRoundTrip(n: nat, rest: string)
    requires rest == "" || !IsDigit(rest[0])
    ensures ParseInt(Print(n) + rest) == Some(n)
  {
    ReadDigitsPrinted(n);
    ReadDigitsConcat(Print(n), rest, 0);
    var s := Print(n) + rest;
    assert s[0] == Print(n)[0] && Print(n)[0] in Print(n);
  }

  predicate AllBlank(s: string) { forall i :: 0 <= i < |s| ==> IsBlank(s[i]) }

  lemma {:induction false} BlanksAreSkipped(blanks: string, s: string)
    requires AllBlank(blanks) && (s == "" || !IsBlank(s[0]))
    ensures SkipBlanks(blanks + s) == s
  {
    if blanks == "" {
      assert blanks + s == s;
    } else {
      assert (blanks + s)[1..] == blanks[1..] + s;
      BlanksAreSkipped(blanks[1..], s);
    }
  }

  /** Blanks, then a sign or none, then digits. */
  lemma SignedDigits(blanks: string, digits: string, n: nat)
    requires AllBlank(blanks) && digits != "" && IsDigit(digits[0]) && ReadDigits(digits, 0) == n
    ensures ParseInt(blanks + digits) == Some(n)
  {
    BlanksAreSkipped(blanks, digits);
  }

  lemma SignIsRead(blanks: string, sign: char, digits: string, n: nat)
    requires AllBlank(blanks) && (sign == '+' || sign == '-')
    requires digits != "" && IsDigit(digits[0]) && ReadDigits(digits, 0) == n
    ensures ParseInt(blanks + ([sign] + digits)) == Some(if sign == '-' then -(n as int) else n)
  {
    BlanksAreSkipped(blanks, [sign] + digits);
    assert ([sign] + digits)[1..] == digits;
  }

  /** The number that a text with digits denotes: leading blanks are skipped, a sign counts, and what
      follows the digits is ignored. */
  lemma SignedCount(blanks: string, n: nat, rest: string)
    requires AllBlank(blanks) && (rest == "" || !IsDigit(rest[0]))
    ensures var digits := Print(n) + rest;
            && ParseInt(blanks + digits) == Some(n)
            && ParseInt(blanks + (['+'] + digits)) == Some(n)
            && ParseInt(blanks + (['-'] + digits)) == Some(-(n as int))
  {
    var digits := Print(n) + rest;
    ReadDigitsPrinted(n);
    ReadDigitsConcat(Print(n), rest, 0);
    assert digits[0] == Print(n)[0] && Print(n)[0] in Print(n);
    SignedDigits(blanks, digits, n);
    SignIsRead(blanks, '+', digits, n);
    SignIsRead(blanks, '-', digits, n);
  }

  /** A text without digits after blanks and sign denotes no number. */
  lemma NoDigitsNoCount(blanks: string, rest: string)
    requires AllBlank(blanks)
    requires rest == "" || !(IsDigit(rest[0]) || IsBlank(rest[0]) || rest[0] == '-' || rest[0] == '+')
    ensures ParseInt(blanks + rest) == None
  {
    BlanksAreSkipped(blanks, rest);
  }

  // ---- Headers ----

  /** The first value of a header; an empty list counts as a missing header. */
  function Pick<T>(header: Option<HeaderValue<T>>): Option<T> {
    match header
    case None => None
    case Some(One(v)) => Some(v)
    case Some(Many(vs)) => if vs == [] then None else Some(vs[0])
  }

  function ParseRetryHeaders(headers: Headers): RetryHeaders {
    var rawCount := Pick(headers.retryCount);
    var count := if rawCount.None? then 0 else
                   var parsed := ParseInt(rawCount.value);
                   if parsed.None? then 0 else Max(0, parsed.value);
    var rawNext := Pick(headers.nextDeliverAt);
    var next := if rawNext.None? || rawNext.value.Unreadable? then 0 else Max(0, rawNext.value.ms);
    RetryHeaders(count, next)
  }

  /** How headers from any producer are read: a list by its first value, a count by its number and never
      below 0, an instant in either notation and never before the epoch; a missing, empty or unreadable
      header as 0. */
  lemma ForeignHeaders(h: Headers, count: string, counts: seq<string>, stamp: Stamp, stamps: seq<Stamp>)
    ensures h.retryCount.None? || h.retryCount == Some(Many([])) ==> ParseRetryHeaders(h).retryCount == 0
    ensures h.nextDeliverAt.None? || h.nextDeliverAt == Some(Many([])) ==> ParseRetryHeaders(h).nextDeliverAtMs == 0
    ensures h.retryCount == Some(One(count)) || h.retryCount == Some(Many([count] + counts)) ==>
              ParseRetryHeaders(h).retryCount == if ParseInt(count).Some? then Max(0, ParseInt(count).value) else 0
    ensures h.nextDeliverAt == Some(One(stamp)) || h.nextDeliverAt == Some(Many([stamp] + stamps)) ==>
              ParseRetryHeaders(h).nextDeliverAtMs == if stamp.Unreadable? then 0 else Max(0, stamp.ms)
  {
  }

  /** The source topic written into a copy: carried over from a retry-topic message when it names one,
      otherwise the topic the message was read from. */
  function OriginalTopicFor(policy: Policy, topic: string, headers: Headers): string {
    if topic == policy.topic
    then var carried := Pick(headers.originalTopic); if carried.Some? then carried.value else topic
    else topic
  }

  /** A first copy names the source topic whatever header the message came with; on the retry topic a copy names
      what the message named, and where it named nothing the retry topic itself. */
  lemma CopyNamesItsSource(policy: Policy, topic: string, headers: Headers, named: string, others: seq<string>)
    ensures topic != policy.topic ==> OriginalTopicFor(policy, topic, headers) == topic
    ensures headers.originalTopic == Some(One(named)) || headers.originalTopic == Some(Many([named] + others)) ==>
              OriginalTopicFor(policy, policy.topic, headers) == named
    ensures headers.originalTopic.None? || headers.originalTopic == Some(Many([])) ==>
              OriginalTopicFor(policy, policy.topic, headers) == policy.topic
  {
  }

  function ScheduleHeaders(policy: Policy, topic: string, headers: Headers, priorDeliveries: nat, now: int): Headers {
    Headers(
      Some(One(Print(priorDeliveries + 1))),
      Some(One(Iso(now + NextDelay(policy, priorDeliveries)))),
      Some(One(OriginalTopicFor(policy, topic, headers))))
  }

  function RequeueHeaders(policy: Policy, topic: string, headers: Headers, parsed: RetryHeaders): Headers {
    Headers(
      Some(One(Print(parsed.retryCount))),
      Some(One(Iso(parsed.nextDeliverAtMs))),
      Some(One(OriginalTopicFor(policy, topic, headers))))
  }

  /** Scheduling after `prior` deliveries is read back as `prior + 1` and the instant it printed
      (clamped at the epoch). */
  lemma ScheduledHeadersReadBack(policy: Policy, topic: string, headers: Headers, prior: nat, now: int)
    ensures ParseRetryHeaders(ScheduleHeaders(policy, topic, headers, prior, now))
         == RetryHeaders(prior + 1, Max(0, now + NextDelay(policy, prior)))
  {
    CountRoundTrip(prior + 1, "");
    assert Print(prior + 1) + "" == Print(prior + 1);
  }

  /** A requeued copy reads back exactly what the message it was made from read as. */
  lemma RequeueIsTransparent(policy: Policy, topic: string, headers: Headers)
    ensures var parsed := ParseRetryHeaders(headers);
            ParseRetryHeaders(RequeueHeaders(policy, topic, headers, parsed)) == parsed
  {
    var parsed := ParseRetryHeaders(headers);
    CountRoundTrip(parsed.retryCount, "");
    assert Print(parsed.retryCount) + "" == Print(parsed.retryCount);
  }

  /** The original topic named by a copy is the one every later copy of it will name. */
  lemma OriginalTopicIsStable(policy: Policy, topic: string, headers: Headers, copy: Headers)
    requires Pick(copy.originalTopic) == Some(OriginalTopicFor(policy, topic, headers))
    ensures OriginalTopicFor(policy, policy.topic, copy) == OriginalTopicFor(policy, topic, headers)
  {
  }
}
