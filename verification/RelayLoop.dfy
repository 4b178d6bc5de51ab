/**
 The polling loop of the relay (packages/infra/src/outbox.ts, `start`): a tick that runs `runOnce`
 unless one is running, a timer, and a disposer that stops the timer and waits for the run in flight.

 Each method is one uninterrupted stretch of the event loop; between them, anything may happen. Runs
 are numbered in the order they begin; a run settles, by returning or by throwing, at any later time.
 */
module RelayLoop {
  import opened Prelude

  datatype Startup = Awaiting | Started | Failed

  datatype Disposal = Idle | Waiting(run: Option<nat>) | Resolved

  /** `awaited` is the run the current tick is suspended on, `threw` tells how each settled run ended. */
  datatype Loop = Loop(
    startup: Startup, running: bool, stopped: bool, timer: bool, inFlight: Option<nat>,
    awaited: Option<nat>, begun: nat, threw: map<nat, bool>, disposal: Disposal)

  datatype Event =
    | Tick              // the first tick of `start`, or the timer firing
    | Settle(run: nat, throws: bool)
    | Resume            // the tick continues after its run has settled
    | Dispose
    | DisposerContinues // the disposer continues after the run it waited for

  const INITIAL := Loop(Awaiting, false, false, false, None, None, 0, map[], Idle)

  class Loops {
    var startup: Startup
    var running: bool
    var stopped: bool
    var timer: bool
    var inFlight: Option<nat>
    var awaited: Option<nat>
    var begun: nat
    var threw: map<nat, bool>
    var disposal: Disposal

    function Now(): Loop
      reads this
    {
      Loop(startup, running, stopped, timer, inFlight, awaited, begun, threw, disposal)
    }

    constructor ()
      ensures Now() == INITIAL
    {
      startup, running, stopped, timer := Awaiting, false, false, false;
      inFlight, awaited, begun, threw, disposal := None, None, 0, map[], Idle;
    }

    method OnTick()
      modifies this
      ensures Now() == Step(old(Now()), Tick)
    {
      if !timer && !(startup == Awaiting && begun == 0) {
        return;
      }
      if running || stopped {
        return;
      }
      running := true;
      inFlight := Some(begun);
      awaited := inFlight;
      begun := begun + 1;
    }

    /** The tick resumes: the `finally` block, and for the first tick the rest of `start`. */
    method OnResume()
      modifies this
      ensures Now() == Step(old(Now()), Resume)
    {
      if awaited.None? || awaited.value !in threw {
        return;
      }
      running := false;
      if startup == Awaiting {
        if threw[awaited.value] {
          startup := Failed;
        } else {
          startup, timer := Started, true;
        }
      }
      awaited := None;
    }

    method OnSettle(run: nat, throws: bool)
      modifies this
      ensures Now() == Step(old(Now()), Settle(run, throws))
    {
      if run < begun && run !in threw {
        threw := threw[run := throws];
      }
    }

    method OnDispose()
      modifies this
      ensures Now() == Step(old(Now()), Dispose)
    {
      if startup != Started || disposal != Idle {
        return;
      }
      stopped, timer := true, false;
      disposal := if inFlight.Some? then Waiting(inFlight) else Resolved;
    }

    method OnDisposerContinues()
      modifies this
      ensures Now() == Step(old(Now()), DisposerContinues)
    {
      if disposal.Waiting? && disposal.run.Some? && disposal.run.value in threw {
        disposal := Resolved;
      }
    }
  }

  function Step(s: Loop, e: Event): Loop {
    match e
    case Tick =>
      var fires := s.timer || (s.startup == Awaiting && s.begun == 0);
      if !fires || s.running || s.stopped then s
      else s.(running := true, inFlight := Some(s.begun), awaited := Some(s.begun), begun := s.begun + 1)
    case Settle(run, throws) =>
      if run < s.begun && run !in s.threw then s.(threw := s.threw[run := throws]) else s
    case Resume =>
      if s.awaited.None? || s.awaited.value !in s.threw then s
      else
        var done := s.(running := false, awaited := None);
        if s.startup != Awaiting then done
        else if s.threw[s.awaited.value] then done.(startup := Failed)
        else done.(startup := Started, timer := true)
    case Dispose =>
      if s.startup != Started || s.disposal != Idle then s
      else s.(stopped := true, timer := false,
              disposal := if s.inFlight.Some? then Waiting(s.inFlight) else Resolved)
    case DisposerContinues =>
      if s.disposal.Waiting? && s.disposal.run.Some? && s.disposal.run.value in s.threw
      then s.(disposal := Resolved) else s
  }

  function Run(events: seq<Event>): Loop {
    if events == [] then INITIAL else Step(Run(events[..|events| - 1]), events[|events| - 1])
  }

  /** The runs that have begun and not settled. */
  function Live(s: Loop): set<nat> {
    set run | 0 <= run < s.begun && run !in s.threw
  }

  /** The loop invariant: a run that is not settled is the one the tick awaits and `inFlight` names. */
  ghost predicate Guarded(s: Loop) {
    && (forall run :: run in Live(s) ==> s.running && s.awaited == Some(run) && s.inFlight == Some(run))
    && (s.awaited.Some? <==> s.running)
    && (s.awaited.Some? ==> s.awaited.value < s.begun)
    && (s.timer ==> s.startup == Started)
    && (s.startup != Started ==> !s.timer && !s.stopped && s.disposal == Idle)
    && (s.stopped ==> !s.timer)
    && (s.disposal != Idle <==> s.stopped)
    && (s.disposal.Waiting? ==> s.disposal.run == s.inFlight && s.inFlight.Some?)
    && (s.disposal == Resolved ==> Live(s) == {})
    && (s.inFlight.Some? ==> s.inFlight.value < s.begun)
  }

  lemma StepKeepsGuarded(s: Loop, e: Event)
    requires Guarded(s)
    ensures Guarded(Step(s, e))
  {
    var t := Step(s, e);
    assert Live(t) <= Live(s) + {s.begun};
    if e.Tick? && t != s {
      assert Live(s) == {};
    }
    if e.DisposerContinues? && t != s {
      assert Live(t) == Live(s);
    }
  }

  lemma {:induction false} RunsAreGuarded(events: seq<Event>)
    ensures Guarded(Run(events))
  {
    if events == [] {
      assert Live(INITIAL) == {};
    } else {
      RunsAreGuarded(events[..|events| - 1]);
      StepKeepsGuarded(Run(events[..|events| - 1]), events[|events| - 1]);
    }
  }

  /** In every schedule of ticks, settlements, continuations and disposal, at most one run is in flight. */
  lemma AtMostOneRunInFlight(events: seq<Event>)
    ensures forall a, b :: a in Live(Run(events)) && b in Live(Run(events)) ==> a == b
  {
    RunsAreGuarded(events);
  }

  lemma StoppedStaysStopped(s: Loop, e: Event)
    requires Guarded(s) && s.stopped
    ensures Step(s, e).stopped && Step(s, e).begun == s.begun
  {
  }

  /** From the moment the disposer is called no run begins; once it has resolved, none is in flight,
      and that stays so whatever happens afterwards. */
  lemma {:induction false} DisposalIsFinal(before: seq<Event>, after: seq<Event>)
    ensures Run(before).stopped ==> Run(before + after).begun == Run(before).begun && Run(before + after).stopped
    ensures Run(before).disposal == Resolved ==> Live(Run(before + after)) == {}
  {
    RunsAreGuarded(before);
    if after == [] {
      assert before + after == before;
    } else {
      var prefix := after[..|after| - 1];
      DisposalIsFinal(before, prefix);
      RunsAreGuarded(before + prefix);
      assert (before + after)[..|before + after| - 1] == before + prefix;
      var s, t := Run(before + prefix), Run(before + after);
      if Run(before).stopped {
        StoppedStaysStopped(s, after[|after| - 1]);
        assert Live(t) <= Live(s);
      }
    }
  }

  /** A waiting disposer resolves exactly when nothing is in flight any more. */
  lemma DisposerResolvesIffIdle(events: seq<Event>)
    requires Run(events).disposal.Waiting?
    ensures Step(Run(events), DisposerContinues).disposal == Resolved <==> Live(Run(events)) == {}
  {
    RunsAreGuarded(events);
    var s := Run(events);
    assert s.inFlight.value in Live(s) <==> s.inFlight.value !in s.threw;
  }

  /** The loop does not starve: while the timer is on, a tick begins a run exactly when no tick is still
      suspended, and once nothing is in flight the suspended tick can resume and the next one begins a run.
      */
  lemma TimerKeepsRunning(events: seq<Event>)
    requires Run(events).timer
    ensures var s := Run(events);
            && (Step(s, Tick).begun == s.begun + 1 <==> s.awaited.None?)
            && (Live(s) == {} ==> Step(Step(s, Resume), Tick).begun == s.begun + 1)
  {
    RunsAreGuarded(events);
    var s := Run(events);
    assert s.awaited.Some? ==> (s.awaited.value in Live(s) <==> s.awaited.value !in s.threw);
  }

  lemma StepKeepsTimer(s: Loop, e: Event)
    requires Guarded(s) && (s.startup == Started && !s.stopped ==> s.timer)
    ensures Step(s, e).startup == Started && !Step(s, e).stopped ==> Step(s, e).timer
  {
  }

  /** In every schedule, a relay that has started and has not been disposed has its timer on, and only such
      a relay. */
  lemma {:induction false} TimerIsOnIffStarted(events: seq<Event>)
    ensures Run(events).timer <==> Run(events).startup == Started && !Run(events).stopped
  {
    RunsAreGuarded(events);
    if events != [] {
      TimerIsOnIffStarted(events[..|events| - 1]);
      RunsAreGuarded(events[..|events| - 1]);
      StepKeepsTimer(Run(events[..|events| - 1]), events[|events| - 1]);
    }
  }

  /** `start` polls at once. When that first poll has settled, resuming ends the startup: with the timer on,
      or, if the poll threw, for good, without a timer. */
  lemma StartupEndsWithTimerOrThrow(events: seq<Event>)
    ensures Step(INITIAL, Tick).begun == 1 && Live(Step(INITIAL, Tick)) == {0}
    ensures var s := Run(events);
            s.startup == Awaiting && s.awaited.Some? && s.awaited.value in s.threw ==>
              var t := Step(s, Resume);
              && t.startup == (if s.threw[s.awaited.value] then Failed else Started)
              && t.timer == !s.threw[s.awaited.value] && !t.running
  {
    RunsAreGuarded(events);
    assert 0 in Live(Step(INITIAL, Tick));
  }

  /** So a relay whose first poll returns goes on polling: the failing schedule of a loop without a timer. */
  lemma SecondTickPollsAgain()
    ensures Run([Tick, Settle(0, false), Resume, Tick]).begun == 2
    ensures Run([Tick]).begun == 1 && Run([Tick, Settle(0, true), Resume]).startup == Failed
  {
    var f := [Tick, Settle(0, true), Resume];
    assert f[..2] == [Tick, Settle(0, true)] && [Tick, Settle(0, true)][..1] == [Tick];
    assert Run(f[..2]) == Step(Run([Tick]), Settle(0, true));
    var e := [Tick, Settle(0, false), Resume, Tick];
    assert e[..3] == [Tick, Settle(0, false), Resume] && e[..3][..2] == [Tick, Settle(0, false)];
    assert [Tick, Settle(0, false)][..1] == [Tick] && [Tick][..0] == [];
    assert Run([Tick]) == Step(INITIAL, Tick);
    assert Run([Tick, Settle(0, false)]) == Step(Run([Tick]), Settle(0, false));
    assert Run(e[..3]) == Step(Run([Tick, Settle(0, false)]), Resume);
  }

  /** Disposing of a started relay stops it, and it waits exactly when a poll has ever begun. */
  lemma DisposeStops(events: seq<Event>)
    requires Run(events).startup == Started && Run(events).disposal == Idle
    ensures var t := Step(Run(events), Dispose);
            t.stopped && !t.timer && t.begun == Run(events).begun
            && t.disposal == (if t.inFlight.Some? then Waiting(t.inFlight) else Resolved)
  {
    RunsAreGuarded(events);
  }
}
