/**
 What the duplicate guard goes by: the string field `eventId` of the payload, and nothing else. The
 laws on duplicates, which the protocol states by event id, are stated here by that field, for the
 payloads stored in the logs.
 */
module Duplicates {
  import opened Prelude
  import opened DeliveryProtocol
  import Idempotency
  import Conservation
  import Journeys

  /** The payload is an object whose field `eventId` is this text. */
  predicate HasEventId(value: Json, text: string) {
    value.JObject? && "eventId" in value.fields && value.fields["eventId"] == JString(text)
  }

  /** The event id of an object is the text of that field, whatever its other fields are. */
  lemma EventIdIsTheField(fields: map<string, Json>, text: string)
    ensures EventId(JObject(fields["eventId" := JString(text)])) == text
  {
  }

  /** A known event id is the text of the field; without such a field it is unknown. */
  lemma KnownIdIsTheField(value: Json)
    ensures EventId(value) != "unknown" ==> HasEventId(value, EventId(value))
    ensures forall text :: HasEventId(value, text) ==> EventId(value) == text
    ensures (forall text :: !HasEventId(value, text)) ==> EventId(value) == "unknown"
  {
    if value.JObject? && "eventId" in value.fields && value.fields["eventId"].JString? {
      assert HasEventId(value, value.fields["eventId"].text);
    }
  }

  /** Two events of one order are two events. */
  lemma EventsOfOneOrderDiffer(order: string, e1: string, e2: string)
    requires e1 != e2
    ensures EventId(JObject(map["eventId" := JString(e1), "orderId" := JString(order)]))
         != EventId(JObject(map["eventId" := JString(e2), "orderId" := JString(order)]))
  {
  }

  /** Where no filter is wired nothing is skipped, and a payload without the field is never skipped, whatever the
      filter holds; the filter is not even asked. */
  lemma UnidentifiedIsNeverSkipped(cfg: Config, w: World, tp: TP)
    requires Busy(w, tp) && (!cfg.deduplicates || forall text :: !HasEventId(Current(w, tp).message.value, text))
    ensures !ReceiveStep(cfg, w, tp).lanes[tp].phase.Settled? && ReceiveStep(cfg, w, tp).seen == w.seen
  {
    KnownIdIsTheField(Current(w, tp).message.value);
  }

  lemma StepKeepsFilterDistinct(cfg: Config, w: World, e: Event)
    requires Idempotency.Distinct(w.seen) && Enabled(cfg, w, e)
    ensures Idempotency.Distinct(Perform(cfg, w, e).seen)
  {
    if e.Receive? || e.Succeed? {
      var id := EventId(Current(w, e.tp).message.value);
      Idempotency.StepKeepsDistinct(w.seen, Idempotency.Query(id, w.now), cfg.maxSize, cfg.ttlMs);
      Idempotency.StepKeepsDistinct(w.seen, Idempotency.Mark(id, w.now), cfg.maxSize, cfg.ttlMs);
    }
  }

  /** In every run the filter holds each id once. */
  lemma {:induction false} FilterStaysDistinct(cfg: Config, w: World, events: seq<Event>)
    requires Initial(w)
    ensures Idempotency.Distinct(Run(cfg, w, events).seen)
  {
    if events != [] {
      var before, e := Run(cfg, w, events[..|events| - 1]), events[|events| - 1];
      FilterStaysDistinct(cfg, w, events[..|events| - 1]);
      if Enabled(cfg, before, e) {
        StepKeepsFilterDistinct(cfg, before, e);
      }
    }
  }

  /** The guard as a whole, in every run, for a message that is due and valid and has the field: it is
      skipped exactly when the filter holds the id and its time-to-live has not passed. When its handler
      begins, the filter has forgotten the id, so that marking it again counts as a new insertion; all other
      ids stay. */
  lemma GuardForgetsTheExpired(
    cfg: Config, start: World, events: seq<Event>, w: World, tp: TP, id: string, e: Idempotency.Entry)
    requires Initial(start) && w == Run(cfg, start, events)
    requires Busy(w, tp) && cfg.deduplicates && HasEventId(Current(w, tp).message.value, id) && id != "unknown"
    requires e in w.seen
    ensures var v := ReceiveStep(cfg, w, tp);
            var phase := v.lanes[tp].phase;
            && (phase.Settled? ==> v.seen == w.seen)
            && (phase.Handling? ==> id !in Idempotency.Ids(v.seen))
            && (e.id != id ==> e in v.seen)
            && (e.id == id && phase.Settled? ==> cfg.ttlMs <= 0 || w.now - e.markedAt <= cfg.ttlMs)
            && (e.id == id && phase.Handling? ==> cfg.ttlMs > 0 && w.now - e.markedAt > cfg.ttlMs)
  {
    KnownIdIsTheField(Current(w, tp).message.value);
    FilterStaysDistinct(cfg, start, events);
    AskingForgetsTheExpired(w.seen, id, w.now, cfg.maxSize, cfg.ttlMs, e);
  }

  lemma AskingForgetsTheExpired(
    seen: seq<Idempotency.Entry>, id: string, now: int, maxSize: int, ttlMs: int, e: Idempotency.Entry)
    requires Idempotency.Distinct(seen) && e in seen
    ensures var after := Idempotency.Step(seen, Idempotency.Query(id, now), maxSize, ttlMs);
            && (Idempotency.Live(seen, id, now, ttlMs) ==> after == seen)
            && (!Idempotency.Live(seen, id, now, ttlMs) ==> id !in Idempotency.Ids(after))
            && (e.id != id ==> e in after)
            && (e.id == id ==>
                  (Idempotency.Live(seen, id, now, ttlMs) <==> ttlMs <= 0 || now - e.markedAt <= ttlMs))
  {
    var found := Idempotency.Find(seen, id);
    var after := Idempotency.Step(seen, Idempotency.Query(id, now), maxSize, ttlMs);
    Idempotency.QueryForgetsExactlyTheExpired(seen, id, now, maxSize, ttlMs);
    Idempotency.FindIsMembership(seen, id);
    var i :| 0 <= i < |seen| && seen[i] == e;
    if found.Some? && after != seen {
      var at := found.value;
      assert after == seen[..at] + seen[at + 1..];
      assert i < at ==> after[i] == e;
      assert i > at ==> after[i - 1] == e;
    }
  }

  /** A completion of a stored record whose `eventId` field is this text. */
  predicate Handles(w: World, k: nat, text: string) {
    && k < |w.completions| && Journeys.Rooted(w, w.completions[k].root)
    && HasEventId(Journeys.First(w, w.completions[k].root).message.value, text)
  }

  ghost predicate HandledByField(w: World, text: string) { exists k: nat :: Handles(w, k, text) }

  /** In every run, a completion of a known id is one of a stored record with that id in its field. */
  lemma CompletionHandlesField(cfg: Config, w: World, events: seq<Event>, v: World, k: nat)
    requires Initial(w) && v == Run(cfg, w, events)
    requires k < |v.completions| && v.completions[k].eventId != UNKNOWN
    ensures Handles(v, k, v.completions[k].eventId)
  {
    Journeys.HistoryIsJustified(cfg, w, events);
    var c := v.completions[k];
    assert c in v.completions;
    KnownIdIsTheField(Journeys.First(v, c.root).message.value);
  }

  /** In every run, a payload is skipped only if it has a string field `eventId` and a handler has completed
      for a stored record whose `eventId` is the same text. */
  lemma SkippedOnlyIfSameEventHandled(cfg: Config, w: World, events: seq<Event>, v: World, tp: TP)
    requires Initial(w) && v == Run(cfg, w, events)
    requires Busy(v, tp) && ReceiveStep(cfg, v, tp).lanes[tp].phase.Settled?
    ensures var value := Current(v, tp).message.value;
            HasEventId(value, EventId(value)) && HandledByField(v, EventId(value))
  {
    var value := Current(v, tp).message.value;
    Conservation.SkippedOnlyIfCompleted(cfg, w, events, tp);
    KnownIdIsTheField(value);
    var k :| 0 <= k < |v.completions| && v.completions[k].eventId == EventId(value);
    CompletionHandlesField(cfg, w, events, v, k);
  }

  /** The record has had its own handler complete. */
  ghost predicate HandledItself(w: World, root: Ref) {
    exists k :: 0 <= k < |w.completions| && w.completions[k].root == root
  }

  /** Conservation by the payload's field: in every run, a record below its lane's committed offset has had
      its own handler complete, or has a string field `eventId` and a stored record with the same text in
      that field has had its handler complete, or is on the dead-letter topic, or has a copy waiting on the
      retry topic. */
  lemma NothingIsLost(cfg: Config, w: World, events: seq<Event>, v: World, tp: TP, offset: nat)
    requires Initial(w) && v == Run(cfg, w, events)
    requires tp in v.lanes && offset < v.lanes[tp].committed
    ensures offset < |v.lanes[tp].log|
    ensures var rec := v.lanes[tp].log[offset];
            var id := EventId(rec.message.value);
            || HandledItself(v, rec.root)
            || (HasEventId(rec.message.value, id) && HandledByField(v, id))
            || Conservation.Dead(v, rec.root)
            || Conservation.Waiting(cfg, v, rec.root, id)
  {
    Conservation.NothingIsLost(cfg, w, events, tp, offset);
    var rec := v.lanes[tp].log[offset];
    var id := EventId(rec.message.value);
    KnownIdIsTheField(rec.message.value);
    if Conservation.Handled(v, rec.root, id) && !HandledItself(v, rec.root) {
      var k :| 0 <= k < |v.completions| &&
        (v.completions[k].root == rec.root || (id != UNKNOWN && v.completions[k].eventId == id));
      CompletionHandlesField(cfg, w, events, v, k);
    }
  }
}
