/**
 The consumer delivery protocol as a state machine (apps/consumer/src/handler-runner.ts,
 apps/consumer/src/retry-runner.ts, with packages/infra/src/retry-topic.ts, dlq.ts, idempotency.ts).

 A lane is one partition of a source topic or of the retry topic: its log, the offset the group has
 committed, the position the driver delivers next, and where the runner stands with that message.
 Lanes interleave at every await. Every produce and every commit can fail, also after taking effect;
 a runner can throw, and the process can crash, between any two steps.
 */
module DeliveryProtocol {
  import opened Prelude
  import opened RetryTopic
  import Idempotency

  // ---- Messages ----

  datatype Json = JString(text: string) | JObject(fields: map<string, Json>) | JOther(text: string)

  const UNKNOWN := "unknown"

  /** The event id of a payload: its string field `eventId`, or "unknown". */
  function EventId(value: Json): string {
    if value.JObject? && "eventId" in value.fields && value.fields["eventId"].JString?
    then value.fields["eventId"].text else UNKNOWN
  }

  datatype TP = TP(topic: string, partition: nat)

  datatype Ref = Ref(tp: TP, offset: nat)

  datatype Message = Message(key: Option<string>, value: Json, headers: Headers)

  /** A stored message, with its history as bookkeeping: the record it descends from, how often it was
      scheduled since, and when the first and the last of those schedules happened; how often it was
      requeued since the last one, and when it was stored. */
  datatype Rec = Rec(
    message: Message, root: Ref, schedules: nat, born: nat, scheduledAt: nat, hops: nat, storedAt: nat)

  /** A dead letter, with the record it descends from as bookkeeping. */
  datatype DlqEntry = DlqEntry(
    topic: string, partition: nat, offset: nat, key: Option<string>, attempts: int, original: Json, root: Ref)

  datatype Completion = Completion(root: Ref, eventId: string)

  // ---- State ----

  /** Where a runner stands with the message at the lane's position. `Settled` means that an outcome
      exists and only the offset commit is left. */
  datatype Phase = Idle | Parked(until: int) | Invalid | Handling(since: int) | Settled

  datatype Lane = Lane(log: seq<Rec>, position: nat, committed: nat, phase: Phase)

  datatype World = World(
    now: nat, lanes: map<TP, Lane>, dlq: seq<DlqEntry>,
    seen: seq<Idempotency.Entry>, completions: seq<Completion>, epoch: nat)

  /** `accepts(topic, value)` is schema validation; `withRetryTopic` says whether a scheduler is wired. */
  datatype Config = Config(
    policy: Policy, withRetryTopic: bool, sourceAttempts: int, defaultTopic: string,
    accepts: (string, Json) -> bool, deduplicates: bool, maxSize: int, ttlMs: int)

  predicate IsRetry(cfg: Config, tp: TP) { tp.topic == cfg.policy.topic }

  predicate Busy(w: World, tp: TP) {
    tp in w.lanes && w.lanes[tp].position < |w.lanes[tp].log|
  }

  function Current(w: World, tp: TP): Rec
    requires Busy(w, tp)
  {
    w.lanes[tp].log[w.lanes[tp].position]
  }

  // ---- Steps ----

  datatype Event =
    | Publish(tp: TP, message: Message)          // some producer appends a record
    | Tick(ms: nat)                              // time passes
    | Receive(tp: TP)                            // headers, park test, parse, duplicate test
    | Requeue(tp: TP, dest: nat, sent: Delivery) // a parked message, after its bounded sleep
    | DeadLetter(tp: TP, sent: Delivery)         // an invalid message
    | Succeed(tp: TP)                            // the handler completed; the id is marked
    | Exhaust(tp: TP, dest: nat, sent: Delivery) // the handler failed every attempt
    | Commit(tp: TP, sent: Delivery)
    | Throw(tp: TP)                              // anything else throws; the driver seeks back
    | Crash

  function SetPhase(w: World, tp: TP, phase: Phase): World
    requires tp in w.lanes
  {
    w.(lanes := w.lanes[tp := w.lanes[tp].(phase := phase)])
  }

  function Append(w: World, tp: TP, rec: Rec): World
    requires tp in w.lanes
  {
    w.(lanes := w.lanes[tp := w.lanes[tp].(log := w.lanes[tp].log + [rec])])
  }

  /** A produce to a partition that does not exist fails. */
  function Outcome(w: World, tp: TP, sent: Delivery): Delivery {
    if tp in w.lanes then sent else Lost
  }

  /** A produce to the retry topic, and the runner's continuation: an acknowledged one settles the
      message, any other throws. */
  function SendCopy(w: World, tp: TP, dest: TP, rec: Rec, sent: Delivery): World
    requires tp in w.lanes
  {
    var outcome := Outcome(w, dest, sent);
    var after := if outcome.Applied() then Append(w, dest, rec) else w;
    SetPhase(after, tp, if outcome == Acked then Settled else Idle)
  }

  function SendToDlq(w: World, tp: TP, attempts: int, sent: Delivery): World
    requires Busy(w, tp)
  {
    var rec := Current(w, tp);
    var entry := DlqEntry(tp.topic, tp.partition, w.lanes[tp].position, rec.message.key, attempts,
                          rec.message.value, rec.root);
    var after := if sent.Applied() then w.(dlq := w.dlq + [entry]) else w;
    SetPhase(after, tp, if sent == Acked then Settled else Idle)
  }

  function RequeuedCopy(cfg: Config, tp: TP, rec: Rec, now: nat): Rec {
    var parsed := ParseRetryHeaders(rec.message.headers);
    rec.(message := rec.message.(headers := RequeueHeaders(cfg.policy, tp.topic, rec.message.headers, parsed)),
         hops := rec.hops + 1, storedAt := now)
  }

  function ScheduledCopy(cfg: Config, tp: TP, rec: Rec, prior: nat, now: nat): Rec {
    Rec(rec.message.(headers := ScheduleHeaders(cfg.policy, tp.topic, rec.message.headers, prior, now)),
        rec.root, rec.schedules + 1, if rec.schedules == 0 then now else rec.born, now, 0, now)
  }

  /** A record as some producer publishes it. */
  function PublishedRec(w: World, tp: TP, m: Message): Rec
    requires tp in w.lanes
  {
    Rec(m, Ref(tp, |w.lanes[tp].log|), 0, 0, w.now, 0, w.now)
  }

  /** The topic whose schema parses the message. */
  function SchemaTopic(cfg: Config, tp: TP, headers: Headers): string {
    if IsRetry(cfg, tp)
    then var named := Pick(headers.originalTopic); if named.Some? then named.value else cfg.defaultTopic
    else tp.topic
  }

  /** Deliveries on the retry topic before this one. */
  function PriorDeliveries(cfg: Config, tp: TP, headers: Headers): nat {
    if IsRetry(cfg, tp) then ParseRetryHeaders(headers).retryCount else 0
  }

  function ParkMs(cfg: Config, tp: TP, headers: Headers, now: int): nat {
    if IsRetry(cfg, tp) then ParkDelay(ParseRetryHeaders(headers).nextDeliverAtMs, now) else 0
  }

  predicate Checks(cfg: Config, id: string) { cfg.deduplicates && id != UNKNOWN }

  function ReceiveStep(cfg: Config, w: World, tp: TP): World
    requires Busy(w, tp)
  {
    var m := Current(w, tp).message;
    var park := ParkMs(cfg, tp, m.headers, w.now);
    var id := EventId(m.value);
    if park > 0 then SetPhase(w, tp, Parked(w.now + Min(park, REQUEUE_THROTTLE_MS)))
    else if !cfg.accepts(SchemaTopic(cfg, tp, m.headers), m.value) then SetPhase(w, tp, Invalid)
    else if !Checks(cfg, id) then SetPhase(w, tp, Handling(w.now))
    else
      var asked := w.(seen := Idempotency.Step(w.seen, Idempotency.Query(id, w.now), cfg.maxSize, cfg.ttlMs));
      SetPhase(asked, tp, if Idempotency.Live(w.seen, id, w.now, cfg.ttlMs) then Settled else Handling(w.now))
  }

  function SucceedStep(cfg: Config, w: World, tp: TP): World
    requires Busy(w, tp)
  {
    var rec := Current(w, tp);
    var id := EventId(rec.message.value);
    var done := w.(completions := w.completions + [Completion(rec.root, id)]);
    var marked := if Checks(cfg, id)
                  then done.(seen := Idempotency.Step(w.seen, Idempotency.Mark(id, w.now), cfg.maxSize, cfg.ttlMs))
                  else done;
    SetPhase(marked, tp, Settled)
  }

  function ExhaustStep(cfg: Config, w: World, tp: TP, dest: nat, sent: Delivery): World
    requires Busy(w, tp)
  {
    var rec := Current(w, tp);
    var prior := PriorDeliveries(cfg, tp, rec.message.headers);
    if IsRetry(cfg, tp) && IsMaxRetries(cfg.policy, prior) then SendToDlq(w, tp, prior, sent)
    else if !IsRetry(cfg, tp) && !cfg.withRetryTopic then SendToDlq(w, tp, cfg.sourceAttempts, sent)
    else SendCopy(w, tp, TP(cfg.policy.topic, dest), ScheduledCopy(cfg, tp, rec, prior, w.now), sent)
  }

  function CommitStep(w: World, tp: TP, sent: Delivery): World
    requires tp in w.lanes
  {
    var lane := w.lanes[tp];
    var next := lane.(committed := if sent.Applied() then lane.position + 1 else lane.committed,
                      position := if sent == Acked then lane.position + 1 else lane.position,
                      phase := Idle);
    w.(lanes := w.lanes[tp := next])
  }

  function Rewound(lane: Lane): Lane { lane.(position := lane.committed, phase := Idle) }

  function CrashStep(w: World): World {
    w.(lanes := map tp | tp in w.lanes :: Rewound(w.lanes[tp]), seen := [], epoch := |w.completions|)
  }

  predicate Enabled(cfg: Config, w: World, e: Event) {
    match e
    case Publish(tp, _) => tp in w.lanes
    case Tick(_) => true
    case Receive(tp) => Busy(w, tp) && w.lanes[tp].phase.Idle? && (IsRetry(cfg, tp) ==> cfg.withRetryTopic)
    case Requeue(tp, _, _) => Busy(w, tp) && w.lanes[tp].phase.Parked? && w.lanes[tp].phase.until <= w.now
    case DeadLetter(tp, _) => Busy(w, tp) && w.lanes[tp].phase.Invalid?
    case Succeed(tp) => Busy(w, tp) && w.lanes[tp].phase.Handling?
    case Exhaust(tp, _, _) => Busy(w, tp) && w.lanes[tp].phase.Handling?
    case Commit(tp, _) => Busy(w, tp) && w.lanes[tp].phase.Settled?
    case Throw(tp) => tp in w.lanes
    case Crash => true
  }

  function Perform(cfg: Config, w: World, e: Event): World
    requires Enabled(cfg, w, e)
  {
    match e
    case Publish(tp, m) => Append(w, tp, PublishedRec(w, tp, m))
    case Tick(ms) => w.(now := w.now + ms)
    case Receive(tp) => ReceiveStep(cfg, w, tp)
    case Requeue(tp, dest, sent) =>
      SendCopy(w, tp, TP(cfg.policy.topic, dest), RequeuedCopy(cfg, tp, Current(w, tp), w.now), sent)
    case DeadLetter(tp, sent) => SendToDlq(w, tp, PriorDeliveries(cfg, tp, Current(w, tp).message.headers), sent)
    case Succeed(tp) => SucceedStep(cfg, w, tp)
    case Exhaust(tp, dest, sent) => ExhaustStep(cfg, w, tp, dest, sent)
    case Commit(tp, sent) => CommitStep(w, tp, sent)
    case Throw(tp) => SetPhase(w, tp, Idle)
    case Crash => CrashStep(w)
  }

  /** A step that is not possible changes nothing. */
  function Next(cfg: Config, w: World, e: Event): World {
    if Enabled(cfg, w, e) then Perform(cfg, w, e) else w
  }

  function Run(cfg: Config, w: World, events: seq<Event>): World {
    if events == [] then w else Next(cfg, Run(cfg, w, events[..|events| - 1]), events[|events| - 1])
  }

  /** Empty partitions, nothing consumed. */
  predicate Initial(w: World) {
    && w.dlq == [] && w.seen == [] && w.completions == [] && w.epoch == 0
    && forall tp :: tp in w.lanes ==> w.lanes[tp] == Lane([], 0, 0, Idle)
  }
}
