/**
 No message is lost: over every run of the delivery protocol, a record below its lane's committed
 offset has been handled, or is in the dead-letter topic, or has a copy waiting on the retry topic.

 The argument follows one witness: a copy is `Pending` while it lies at or above its lane's committed offset
 and the runner has not settled it. Settling a message always leaves a completion, a dead letter or a
 new pending copy, and nothing but settling ends a copy's being pending.
 */
module Conservation {
  import opened Prelude
  import opened RetryTopic
  import opened DeliveryProtocol
  import Idempotency

  /** A copy on the retry topic that nobody has dealt with yet. */
  predicate Pending(cfg: Config, w: World, tp: TP, i: nat) {
    && tp in w.lanes && IsRetry(cfg, tp) && i < |w.lanes[tp].log|
    && w.lanes[tp].committed <= i
    && !(w.lanes[tp].phase.Settled? && w.lanes[tp].position == i)
  }

  ghost predicate Handled(w: World, root: Ref, id: string) {
    exists k :: 0 <= k < |w.completions| &&
      (w.completions[k].root == root || (id != UNKNOWN && w.completions[k].eventId == id))
  }

  ghost predicate Dead(w: World, root: Ref) {
    exists k :: 0 <= k < |w.dlq| && w.dlq[k].root == root
  }

  ghost predicate Waiting(cfg: Config, w: World, root: Ref, id: string) {
    exists tp, i: nat :: Pending(cfg, w, tp, i) && IsCopy(w, tp, i, root, id)
  }

  predicate IsCopy(w: World, tp: TP, i: nat, root: Ref, id: string) {
    tp in w.lanes && i < |w.lanes[tp].log| &&
    w.lanes[tp].log[i].root == root && EventId(w.lanes[tp].log[i].message.value) == id
  }

  /** The record `root`, whose event id is `id`, is accounted for. */
  ghost predicate Covered(cfg: Config, w: World, root: Ref, id: string) {
    Handled(w, root, id) || Dead(w, root) || Waiting(cfg, w, root, id)
  }

  /** The runner has settled the record at `i`, or its offset is committed. */
  predicate Concluded(lane: Lane, i: nat) {
    i < lane.committed || (i == lane.position && lane.phase.Settled?)
  }

  ghost predicate AllCovered(cfg: Config, w: World) {
    forall tp, i :: tp in w.lanes && 0 <= i < |w.lanes[tp].log| && Concluded(w.lanes[tp], i) ==>
      Covered(cfg, w, w.lanes[tp].log[i].root, EventId(w.lanes[tp].log[i].message.value))
  }

  predicate LaneOk(lane: Lane) {
    && lane.position <= lane.committed <= lane.position + 1
    && lane.committed <= |lane.log|
    && (!lane.phase.Idle? ==> lane.position < |lane.log|)
  }

  ghost predicate LanesOk(w: World) {
    forall tp :: tp in w.lanes ==> LaneOk(w.lanes[tp])
  }

  /** The filter holds only ids whose handler has completed. */
  ghost predicate FilterSound(w: World) {
    forall e :: e in w.seen ==> Completed(w, e.id)
  }

  ghost predicate Completed(w: World, id: string) {
    id != UNKNOWN && exists k :: 0 <= k < |w.completions| && w.completions[k].eventId == id
  }

  ghost predicate Inv(cfg: Config, w: World) {
    LanesOk(w) && FilterSound(w) && AllCovered(cfg, w)
  }

  // ---- What a step must do to keep everything covered ----

  /** From `w` to `v`, histories grow, and every pending copy stays what and where it is, except perhaps
      the one at (`tp`, `at`). */
  ghost predicate Preserves(cfg: Config, w: World, v: World, tp: TP, at: nat) {
    && w.completions <= v.completions && w.dlq <= v.dlq
    && (forall q, i: nat :: Pending(cfg, w, q, i) && !(q == tp && i == at) ==>
          Pending(cfg, v, q, i) && v.lanes[q].log[i] == w.lanes[q].log[i])
  }

  lemma CoverKept(cfg: Config, w: World, v: World, tp: TP, at: nat, root: Ref, id: string)
    requires Preserves(cfg, w, v, tp, at) && Covered(cfg, w, root, id)
    requires Pending(cfg, w, tp, at) && IsCopy(w, tp, at, root, id) ==> Covered(cfg, v, root, id)
    ensures Covered(cfg, v, root, id)
  {
    if Handled(w, root, id) {
      var k :| 0 <= k < |w.completions| &&
        (w.completions[k].root == root || (id != UNKNOWN && w.completions[k].eventId == id));
      assert v.completions[k] == w.completions[k];
    } else if Dead(w, root) {
      var k :| 0 <= k < |w.dlq| && w.dlq[k].root == root;
      assert v.dlq[k] == w.dlq[k];
    } else {
      var q, i :| Pending(cfg, w, q, i) && IsCopy(w, q, i, root, id);
      if q != tp || i != at {
        assert Pending(cfg, v, q, i) && IsCopy(v, q, i, root, id);
      }
    }
  }

  /** Logs only grow, and what is newly concluded in `v` is at most the record at (`tp`, `at`). */
  ghost predicate Concludes(w: World, v: World, tp: TP, at: nat) {
    && v.lanes.Keys == w.lanes.Keys
    && (forall q :: q in w.lanes ==> w.lanes[q].log <= v.lanes[q].log)
    && (forall q, i :: q in w.lanes && 0 <= i < |v.lanes[q].log| && Concluded(v.lanes[q], i) ==>
          (q == tp && i == at) || (i < |w.lanes[q].log| && Concluded(w.lanes[q], i)))
  }

  /** A step keeps everything covered if it covers the one record it may conclude. */
  lemma StepKeepsCovered(cfg: Config, w: World, v: World, tp: TP, at: nat)
    requires AllCovered(cfg, w)
    requires Preserves(cfg, w, v, tp, at) && Concludes(w, v, tp, at)
    requires tp in w.lanes && at < |w.lanes[tp].log|
    requires Pending(cfg, v, tp, at) ||
             Covered(cfg, v, w.lanes[tp].log[at].root, EventId(w.lanes[tp].log[at].message.value))
    requires Concluded(v.lanes[tp], at) ==>
               Covered(cfg, v, w.lanes[tp].log[at].root, EventId(w.lanes[tp].log[at].message.value))
    ensures AllCovered(cfg, v)
  {
    var rec := w.lanes[tp].log[at];
    forall q, i | q in v.lanes && 0 <= i < |v.lanes[q].log| && Concluded(v.lanes[q], i)
      ensures Covered(cfg, v, v.lanes[q].log[i].root, EventId(v.lanes[q].log[i].message.value))
    {
      assert w.lanes[q].log <= v.lanes[q].log;
      assert v.lanes[tp].log[at] == rec;
      if q == tp && i == at {
      } else {
        var root, id := w.lanes[q].log[i].root, EventId(w.lanes[q].log[i].message.value);
        assert Covered(cfg, w, root, id);
        if Pending(cfg, v, tp, at) && IsCopy(w, tp, at, root, id) {
          assert IsCopy(v, tp, at, root, id);
        }
        CoverKept(cfg, w, v, tp, at, root, id);
      }
    }
  }

  /** Nothing is newly concluded and every pending copy stays pending. */
  ghost predicate Quiet(cfg: Config, w: World, v: World) {
    && w.completions <= v.completions && w.dlq <= v.dlq
    && v.lanes.Keys == w.lanes.Keys
    && (forall q :: q in w.lanes ==> w.lanes[q].log <= v.lanes[q].log)
    && (forall q, i: nat :: Pending(cfg, w, q, i) ==> Pending(cfg, v, q, i))
    && (forall q, i :: q in w.lanes && 0 <= i < |v.lanes[q].log| && Concluded(v.lanes[q], i) ==>
          i < |w.lanes[q].log| && Concluded(w.lanes[q], i))
  }

  lemma QuietKeepsCovered(cfg: Config, w: World, v: World)
    requires AllCovered(cfg, w) && Quiet(cfg, w, v)
    ensures AllCovered(cfg, v)
  {
    forall q, i | q in v.lanes && 0 <= i < |v.lanes[q].log| && Concluded(v.lanes[q], i)
      ensures Covered(cfg, v, v.lanes[q].log[i].root, EventId(v.lanes[q].log[i].message.value))
    {
      assert w.lanes[q].log <= v.lanes[q].log;
      var root, id := w.lanes[q].log[i].root, EventId(w.lanes[q].log[i].message.value);
      assert Covered(cfg, w, root, id);
      if Handled(w, root, id) {
        var k :| 0 <= k < |w.completions| &&
          (w.completions[k].root == root || (id != UNKNOWN && w.completions[k].eventId == id));
        assert v.completions[k] == w.completions[k];
      } else if Dead(w, root) {
        var k :| 0 <= k < |w.dlq| && w.dlq[k].root == root;
        assert v.dlq[k] == w.dlq[k];
      } else {
        var p, j: nat :| Pending(cfg, w, p, j) && IsCopy(w, p, j, root, id);
        assert w.lanes[p].log <= v.lanes[p].log;
        assert Pending(cfg, v, p, j) && IsCopy(v, p, j, root, id);
      }
    }
  }

  // ---- Step by step ----

  /** Settling the current message without touching any log. */
  lemma SettlingKeepsCovered(cfg: Config, w: World, v: World, tp: TP)
    requires Inv(cfg, w) && Busy(w, tp)
    requires v.lanes == w.lanes[tp := w.lanes[tp].(phase := Settled)]
    requires w.completions <= v.completions && w.dlq <= v.dlq
    requires Covered(cfg, v, Current(w, tp).root, EventId(Current(w, tp).message.value))
    ensures AllCovered(cfg, v)
  {
    StepKeepsCovered(cfg, w, v, tp, w.lanes[tp].position);
  }

  /** Leaving the current message unsettled, or starting on it. */
  lemma PhaseChangeIsQuiet(cfg: Config, w: World, v: World, tp: TP, phase: Phase)
    requires tp in w.lanes && !phase.Settled?
    requires v.lanes == w.lanes[tp := w.lanes[tp].(phase := phase)]
    requires w.completions <= v.completions && w.dlq <= v.dlq
    ensures Quiet(cfg, w, v)
  {
  }

  lemma AppendIsQuiet(cfg: Config, w: World, tp: TP, rec: Rec)
    requires LanesOk(w) && tp in w.lanes
    ensures Quiet(cfg, w, Append(w, tp, rec)) && LanesOk(Append(w, tp, rec))
  {
    assert LaneOk(w.lanes[tp]);
  }

  /** A record just appended to the retry topic is pending there. */
  lemma AppendedIsPending(cfg: Config, w: World, tp: TP, rec: Rec)
    requires LanesOk(w) && tp in w.lanes && IsRetry(cfg, tp)
    ensures Pending(cfg, Append(w, tp, rec), tp, |w.lanes[tp].log|)
  {
    assert LaneOk(w.lanes[tp]);
  }

  lemma SendCopyKeepsCovered(cfg: Config, w: World, tp: TP, dest: TP, copy: Rec, sent: Delivery)
    requires Inv(cfg, w) && Busy(w, tp) && !w.lanes[tp].phase.Settled?
    requires IsRetry(cfg, dest)
    requires copy.root == Current(w, tp).root && copy.message.value == Current(w, tp).message.value
    ensures Inv(cfg, SendCopy(w, tp, dest, copy, sent))
  {
    var outcome := Outcome(w, dest, sent);
    var v := SendCopy(w, tp, dest, copy, sent);
    var mid := if outcome.Applied() then Append(w, dest, copy) else w;
    if outcome.Applied() {
      AppendIsQuiet(cfg, w, dest, copy);
      QuietKeepsCovered(cfg, w, mid);
    }
    assert Inv(cfg, mid);
    assert LaneOk(mid.lanes[tp]);
    if outcome == Acked {
      var root, id := copy.root, EventId(copy.message.value);
      var at := |w.lanes[dest].log|;
      AppendedIsPending(cfg, w, dest, copy);
      assert Pending(cfg, v, dest, at) && IsCopy(v, dest, at, root, id);
      assert Current(mid, tp) == Current(w, tp);
      SettlingKeepsCovered(cfg, mid, v, tp);
    } else {
      PhaseChangeIsQuiet(cfg, mid, v, tp, Idle);
      QuietKeepsCovered(cfg, mid, v);
    }
  }

  lemma SendToDlqKeepsCovered(cfg: Config, w: World, tp: TP, attempts: int, sent: Delivery)
    requires Inv(cfg, w) && Busy(w, tp)
    ensures Inv(cfg, SendToDlq(w, tp, attempts, sent))
  {
    var v := SendToDlq(w, tp, attempts, sent);
    assert LaneOk(w.lanes[tp]);
    if sent == Acked {
      assert v.dlq[|w.dlq|].root == Current(w, tp).root;
      SettlingKeepsCovered(cfg, w, v, tp);
    } else {
      PhaseChangeIsQuiet(cfg, w, v, tp, Idle);
      QuietKeepsCovered(cfg, w, v);
    }
  }

  /** Asking the filter adds no id; marking adds the marked one. */
  lemma FilterStepIds(seen: seq<Idempotency.Entry>, op: Idempotency.Op, maxSize: int, ttlMs: int, e: Idempotency.Entry)
    requires e in Idempotency.Step(seen, op, maxSize, ttlMs)
    ensures (op.Mark? && e.id == op.id) || exists before :: before in seen && before.id == e.id
  {
    var after := Idempotency.Step(seen, op, maxSize, ttlMs);
    var k :| 0 <= k < |after| && after[k] == e;
    if !(op.Mark? && e.id == op.id) {
      assert e in seen;
    }
  }

  lemma ReceiveKeepsFilterSound(cfg: Config, w: World, tp: TP)
    requires FilterSound(w) && Busy(w, tp)
    ensures FilterSound(ReceiveStep(cfg, w, tp))
  {
    var v := ReceiveStep(cfg, w, tp);
    var id := EventId(Current(w, tp).message.value);
    forall e | e in v.seen
      ensures Completed(v, e.id)
    {
      if v.seen != w.seen {
        FilterStepIds(w.seen, Idempotency.Query(id, w.now), cfg.maxSize, cfg.ttlMs, e);
        var before :| before in w.seen && before.id == e.id;
        assert Completed(w, before.id);
      } else {
        assert Completed(w, e.id);
      }
    }
  }

  lemma SkipMeansCompleted(cfg: Config, w: World, tp: TP)
    requires FilterSound(w) && Busy(w, tp) && ReceiveStep(cfg, w, tp).lanes[tp].phase.Settled?
    ensures Completed(w, EventId(Current(w, tp).message.value))
  {
    var id := EventId(Current(w, tp).message.value);
    var e := w.seen[Idempotency.Find(w.seen, id).value];
    assert e in w.seen;
  }

  lemma ReceiveKeepsInv(cfg: Config, w: World, tp: TP)
    requires Inv(cfg, w) && Busy(w, tp)
    ensures Inv(cfg, ReceiveStep(cfg, w, tp))
  {
    var v := ReceiveStep(cfg, w, tp);
    assert LaneOk(w.lanes[tp]);
    ReceiveKeepsFilterSound(cfg, w, tp);
    if v.lanes[tp].phase.Settled? {
      SkipMeansCompleted(cfg, w, tp);
      var id := EventId(Current(w, tp).message.value);
      assert Handled(v, Current(w, tp).root, id);
      SettlingKeepsCovered(cfg, w, v, tp);
    } else {
      PhaseChangeIsQuiet(cfg, w, v, tp, v.lanes[tp].phase);
      QuietKeepsCovered(cfg, w, v);
    }
  }

  lemma SucceedKeepsInv(cfg: Config, w: World, tp: TP)
    requires Inv(cfg, w) && Busy(w, tp)
    ensures Inv(cfg, SucceedStep(cfg, w, tp))
  {
    var v := SucceedStep(cfg, w, tp);
    assert LaneOk(w.lanes[tp]);
    var rec := Current(w, tp);
    var id := EventId(rec.message.value);
    assert v.completions[|w.completions|] == Completion(rec.root, id);
    forall e | e in v.seen
      ensures Completed(v, e.id)
    {
      if v.seen != w.seen {
        FilterStepIds(w.seen, Idempotency.Mark(id, w.now), cfg.maxSize, cfg.ttlMs, e);
      }
      if e.id != id || !Checks(cfg, id) {
        var before :| before in w.seen && before.id == e.id;
        assert Completed(w, before.id);
        var k :| 0 <= k < |w.completions| && w.completions[k].eventId == e.id;
        assert v.completions[k].eventId == e.id;
      }
    }
    assert Handled(v, rec.root, id);
    SettlingKeepsCovered(cfg, w, v, tp);
  }

  lemma CommitKeepsInv(cfg: Config, w: World, tp: TP, sent: Delivery)
    requires Inv(cfg, w) && Busy(w, tp) && w.lanes[tp].phase.Settled?
    ensures Inv(cfg, CommitStep(w, tp, sent))
  {
    assert LaneOk(w.lanes[tp]);
    QuietKeepsCovered(cfg, w, CommitStep(w, tp, sent));
  }

  lemma CrashKeepsInv(cfg: Config, w: World)
    requires Inv(cfg, w)
    ensures Inv(cfg, CrashStep(w))
  {
    var v := CrashStep(w);
    forall tp | tp in v.lanes
      ensures LaneOk(v.lanes[tp])
    {
      assert LaneOk(w.lanes[tp]);
    }
    QuietKeepsCovered(cfg, w, v);
  }

  lemma PublishKeepsInv(cfg: Config, w: World, tp: TP, rec: Rec)
    requires Inv(cfg, w) && tp in w.lanes
    ensures Inv(cfg, Append(w, tp, rec))
  {
    AppendIsQuiet(cfg, w, tp, rec);
    QuietKeepsCovered(cfg, w, Append(w, tp, rec));
  }

  lemma ThrowKeepsInv(cfg: Config, w: World, tp: TP)
    requires Inv(cfg, w) && tp in w.lanes
    ensures Inv(cfg, SetPhase(w, tp, Idle))
  {
    assert LaneOk(w.lanes[tp]);
    PhaseChangeIsQuiet(cfg, w, SetPhase(w, tp, Idle), tp, Idle);
    QuietKeepsCovered(cfg, w, SetPhase(w, tp, Idle));
  }

  lemma NextKeepsInv(cfg: Config, w: World, e: Event)
    requires Inv(cfg, w)
    ensures Inv(cfg, Next(cfg, w, e))
  {
    if Enabled(cfg, w, e) {
      match e
      case Publish(tp, m) =>
        PublishKeepsInv(cfg, w, tp, PublishedRec(w, tp, m));
      case Tick(ms) =>
        QuietKeepsCovered(cfg, w, w.(now := w.now + ms));
      case Receive(tp) => ReceiveKeepsInv(cfg, w, tp);
      case Requeue(tp, dest, sent) =>
        var copy := RequeuedCopy(cfg, tp, Current(w, tp), w.now);
        SendCopyKeepsCovered(cfg, w, tp, TP(cfg.policy.topic, dest), copy, sent);
      case DeadLetter(tp, sent) =>
        SendToDlqKeepsCovered(cfg, w, tp, PriorDeliveries(cfg, tp, Current(w, tp).message.headers), sent);
      case Succeed(tp) => SucceedKeepsInv(cfg, w, tp);
      case Exhaust(tp, dest, sent) => ExhaustKeepsInv(cfg, w, tp, dest, sent);
      case Commit(tp, sent) => CommitKeepsInv(cfg, w, tp, sent);
      case Throw(tp) =>
        ThrowKeepsInv(cfg, w, tp);
      case Crash => CrashKeepsInv(cfg, w);
    }
  }

  lemma ExhaustKeepsInv(cfg: Config, w: World, tp: TP, dest: nat, sent: Delivery)
    requires Inv(cfg, w) && Busy(w, tp) && w.lanes[tp].phase.Handling?
    ensures Inv(cfg, ExhaustStep(cfg, w, tp, dest, sent))
  {
    var rec := Current(w, tp);
    var prior := PriorDeliveries(cfg, tp, rec.message.headers);
    if IsRetry(cfg, tp) && IsMaxRetries(cfg.policy, prior) {
      SendToDlqKeepsCovered(cfg, w, tp, prior, sent);
    } else if !IsRetry(cfg, tp) && !cfg.withRetryTopic {
      SendToDlqKeepsCovered(cfg, w, tp, cfg.sourceAttempts, sent);
    } else {
      SendCopyKeepsCovered(cfg, w, tp, TP(cfg.policy.topic, dest), ScheduledCopy(cfg, tp, rec, prior, w.now), sent);
    }
  }

  lemma {:induction false} RunsKeepInv(cfg: Config, w: World, events: seq<Event>)
    requires Inv(cfg, w)
    ensures Inv(cfg, Run(cfg, w, events))
  {
    if events != [] {
      RunsKeepInv(cfg, w, events[..|events| - 1]);
      NextKeepsInv(cfg, Run(cfg, w, events[..|events| - 1]), events[|events| - 1]);
    }
  }

  /** Conservation. In every run from empty partitions, with crashes, redeliveries, failing or half-failing
      dead-letter, retry and commit writes anywhere: each record below its lane's committed offset has had
      its handler complete (for it, or for its event id), or is in the dead-letter topic, or has a copy
      with its event id at or above the committed offset of a retry partition. */
  lemma NothingIsLost(cfg: Config, w: World, events: seq<Event>, tp: TP, offset: nat)
    requires Initial(w)
    requires var v := Run(cfg, w, events); tp in v.lanes && offset < v.lanes[tp].committed
    ensures var v := Run(cfg, w, events);
            && offset < |v.lanes[tp].log|
            && Covered(cfg, v, v.lanes[tp].log[offset].root, EventId(v.lanes[tp].log[offset].message.value))
  {
    RunsKeepInv(cfg, w, events);
    var v := Run(cfg, w, events);
    assert LaneOk(v.lanes[tp]);
  }

  /** In every run, a message is skipped as a duplicate only if the handler has completed for its event id. */
  lemma SkippedOnlyIfCompleted(cfg: Config, w: World, events: seq<Event>, tp: TP)
    requires Initial(w)
    requires Busy(Run(cfg, w, events), tp) && ReceiveStep(cfg, Run(cfg, w, events), tp).lanes[tp].phase.Settled?
    ensures Completed(Run(cfg, w, events), EventId(Current(Run(cfg, w, events), tp).message.value))
  {
    RunsKeepInv(cfg, w, events);
    SkipMeansCompleted(cfg, Run(cfg, w, events), tp);
  }

  /** A crash keeps all logs and committed offsets, forgets the filter, and every lane delivers next what
      lies at its committed offset, also where the driver had not yet gone on or stood further back. */
  lemma CrashRedelivers(cfg: Config, w: World, tp: TP)
    requires tp in w.lanes
    ensures var v := Next(cfg, w, Crash);
            && tp in v.lanes && v.lanes[tp].log == w.lanes[tp].log && v.lanes[tp].committed == w.lanes[tp].committed
            && v.lanes[tp].phase.Idle? && v.seen == [] && v.dlq == w.dlq && v.completions == w.completions
            && (Busy(v, tp) <==> w.lanes[tp].committed < |w.lanes[tp].log|)
            && (Busy(v, tp) ==> Current(v, tp) == w.lanes[tp].log[w.lanes[tp].committed])
  {
  }

  /** After a throw the same record is delivered again, and nothing else has changed. */
  lemma ThrowRedelivers(cfg: Config, w: World, tp: TP)
    requires Busy(w, tp)
    ensures var v := Next(cfg, w, Throw(tp));
            && Busy(v, tp) && Current(v, tp) == Current(w, tp) && v.lanes[tp].phase.Idle?
            && v.lanes[tp].committed == w.lanes[tp].committed && v.seen == w.seen
  {
  }
}
