/** The forecast of the next warning that `status` reports, against the warnings that do come. */
module ForecastLaws {
  import opened Basics
  import opened Records
  import opened Storage
  import opened Engine
  import opened Frames
  import opened SessionLaws
  import opened RecoveryLaws
  import opened AccountingLaws
  import opened WarningLaws
  import opened WarningRuns

  // ----- the forecast

  /** The candidate is the largest due threshold that has no mark and does not exceed `remaining`. */
  lemma {:induction false} CandidateExact(marked: set<int>, due: seq<int>, remaining: int)
    ensures match Candidate(marked, due, remaining)
            case None => forall t :: t in due && t <= remaining ==> t in marked
            case Some(best) =>
              && best in due && best !in marked && best <= remaining
              && forall t :: t in due && best < t <= remaining ==> t in marked
  {
    if due != [] {
      var rest, t := due[..|due| - 1], due[|due| - 1];
      assert due == rest + [t];
      CandidateExact(marked, rest, remaining);
    }
  }

  /** `threshold` is the next to be warned about: due, unmarked, not yet passed, and every due
      threshold between it and the remaining time already has its mark. */
  ghost predicate NextUnmarked(w: World, scope: Scope, threshold: int) {
    var due, marked := DueThresholds(w.cfg), MarkedThresholds(w.db, scope);
    && Remaining(w, scope).Some?
    && threshold in due && threshold !in marked
    && threshold as real <= Remaining(w, scope).value
    && forall t :: t in due && threshold < t && t as real <= Remaining(w, scope).value ==> t in marked
  }

  /** The forecast of a running timer names the next threshold and the whole seconds until it;
      without a forecast every threshold that is left already has its mark. */
  lemma TimerForecastExact(w: World, g: nat)
    requires TimerOk(w.timer) && w.timer.state == Running && w.timer.generation == Some(g)
    requires !w.cfg.countOnlyWhilePlaying || w.game.Some?
    ensures match TimerForecast(w)
            case None => forall t :: t in DueThresholds(w.cfg) && t as real <= w.timer.remaining ==>
                                       t in MarkedThresholds(w.db, OfTimer(g))
            case Some(f) =>
              && f.scope == OfTimer(g) && NextUnmarked(w, OfTimer(g), f.threshold)
              && f.secondsUntil as real <= w.timer.remaining - f.threshold as real < f.secondsUntil as real + 1.0
  {
    var whole := w.timer.remaining.Floor;
    CandidateExact(MarkedThresholds(w.db, OfTimer(g)), DueThresholds(w.cfg), whole);
    forall t | t in DueThresholds(w.cfg) ensures t as real <= w.timer.remaining <==> t <= whole {}
  }

  // ----- until the forecast comes true

  /** Until the timer's remaining time falls to the forecast threshold, no run of commands that leaves
      the timer's scope alone warns about it: ticks, pauses, game changes, suspends and resumes,
      grants, time taken off, and refused commands included. */
  lemma ForecastSilence(w: World, run: seq<Input>, g: nat, threshold: int)
    requires Ready(w) && Timing(w, g) && ValidRun(run) && LeavesTimer(w, run, g)
    requires NextUnmarked(w, OfTimer(g), threshold)
    ensures var v := After(w, run);
            && Timing(v, g)
            && (StillAbove(w, v, OfTimer(g), threshold) ==>
                  Warned(RecordedInRun(w, run), OfTimer(g)) == [] && threshold !in MarkedThresholds(v.db, OfTimer(g)))
  {
    TimerRunWarnings(w, run, g);
    SilentAbove(w, After(w, run), Warned(RecordedInRun(w, run), OfTimer(g)), OfTimer(g), threshold);
  }

  /** The remaining time has not come down to the threshold, or not come down at all. */
  predicate StillAbove(w: World, v: World, scope: Scope, threshold: int) {
    Remaining(v, scope).Some? ==>
      threshold as real < Remaining(v, scope).value || Remaining(v, scope) == Remaining(w, scope)
  }

  lemma SilentAbove(w: World, v: World, warned: seq<int>, scope: Scope, threshold: int)
    requires NextUnmarked(w, scope, threshold) && RunWarnsExactly(w, v, warned, scope)
    ensures StillAbove(w, v, scope, threshold) ==> warned == [] && threshold !in MarkedThresholds(v.db, scope)
  {
    if warned != [] {
      var low, high := Remaining(v, scope).value, Remaining(w, scope).value;
      var shown := warned[0];
      assert low < high && shown in Between(DueThresholds(w.cfg), low, high);
      assert shown !in MarkedThresholds(w.db, scope);
    }
  }

  /** After such a run, the first tick that strictly decreases the remaining time to the forecast
      threshold or below shows one warning, for that threshold or a lower one it passed at the same
      time. */
  lemma ForecastFires(w: World, run: seq<Input>, r: Reading, g: nat, threshold: int)
    requires Ready(w) && Timing(w, g) && ValidRun(run) && LeavesTimer(w, run, g)
    requires NextUnmarked(w, OfTimer(g), threshold)
    requires var u := After(w, run);
             && KeepsMarks(u, r, OfTimer(g)) && StillAbove(w, u, OfTimer(g), threshold)
             && TimerCounts(u) && u.lastMono < r.mono
             && u.timer.remaining - (r.mono - u.lastMono) <= threshold as real
    ensures var shown := Warned(Tick(After(w, run), r).events, OfTimer(g));
            |shown| == 1 && shown[0] <= threshold
  {
    ForecastSilence(w, run, g, threshold);
    TimerRunWarnings(w, run, g);
    var u := After(w, run);
    TickRunsDown(u, r, g);
    FiresWhenPassed(w, u, Tick(u, r), g, threshold);
  }

  lemma TickRunsDown(u: World, r: Reading, g: nat)
    requires Ready(u) && Timing(u, g) && KeepsMarks(u, r, OfTimer(g)) && TimerCounts(u) && u.lastMono < r.mono
    ensures var v := Tick(u, r);
            && Lowers(u, v.world, v.events, g)
            && Remaining(v.world, OfTimer(g)).value == MaxReal(0.0, u.timer.remaining - (r.mono - u.lastMono))
            && Remaining(v.world, OfTimer(g)).value < Remaining(u, OfTimer(g)).value == u.timer.remaining
  {
    TickLowers(u, r, g);
    TickTimerFrame(u, r);
  }

  lemma FiresWhenPassed(w: World, u: World, v: Effect, g: nat, threshold: int)
    requires Lowers(u, v.world, v.events, g) && DueThresholds(u.cfg) == DueThresholds(w.cfg)
    requires Timing(w, g) && NextUnmarked(w, OfTimer(g), threshold)
    requires threshold !in MarkedThresholds(u.db, OfTimer(g)) && StillAbove(w, u, OfTimer(g), threshold)
    requires Remaining(v.world, OfTimer(g)).value < Remaining(u, OfTimer(g)).value
    requires Remaining(v.world, OfTimer(g)).value <= threshold as real
    ensures var shown := Warned(v.events, OfTimer(g));
            |shown| == 1 && shown[0] <= threshold
  {
    assert threshold in CrossedBy(u.cfg, Remaining(u, OfTimer(g)), Remaining(v.world, OfTimer(g)))
                        - MarkedThresholds(u.db, OfTimer(g));
  }

  // ----- the daily forecast

  /** The daily forecast is made from rounded seconds. It names the next threshold exactly when
      rounding has not lifted the report onto a due threshold that has no mark yet. */
  lemma DailyForecastExact(w: World)
    requires DailyForecast(w, w.lastWall).Some?
    ensures var reported := ReportedDailyRemaining(w, w.lastWall).value;
            && Remaining(w, Daily(w.day)).Some?
            && (NextUnmarked(w, Daily(w.day), DailyForecast(w, w.lastWall).value.threshold) <==>
                || reported as real <= Remaining(w, Daily(w.day)).value
                || reported !in DueThresholds(w.cfg)
                || reported in MarkedThresholds(w.db, Daily(w.day)))
  {
    var reported := ReportedDailyRemaining(w, w.lastWall).value;
    var left := Remaining(w, Daily(w.day)).value;
    CandidateExact(MarkedThresholds(w.db, Daily(w.day)), DueThresholds(w.cfg), reported);
    assert left - 0.5 <= reported as real <= left + 0.5;
    forall t | t in DueThresholds(w.cfg) ensures t as real <= left ==> t <= reported {}
  }

  /** Python's `round`: the nearest integer, and the even one of two that are equally near. */
  lemma RoundExact(x: real)
    ensures -0.5 <= Round(x) as real - x <= 0.5
    ensures Round(x) as real - x == 0.5 || x - Round(x) as real == 0.5 ==> Round(x) % 2 == 0
  { }

  /** There is a daily forecast for a day with a limit only, made from what is left of it to the nearest second:
      the largest due threshold that this has not passed and that has no mark, and the seconds until it. */
  lemma DailyForecastTells(w: World, now: int)
    ensures var reported := ReportedDailyRemaining(w, now);
            var due, marked := DueThresholds(w.cfg), MarkedThresholds(w.db, Daily(w.day));
            && (reported.Some? <==> w.cfg.limitsEnabled && !w.cfg.weekly[(DayOf(w.cfg, now) + 3) % 7].unlimited)
            && (reported.Some? <==> DailyRemaining(w, now).Some?)
            && (reported.Some? ==> -0.5 <= reported.value as real - DailyRemaining(w, now).value <= 0.5)
            && match DailyForecast(w, now)
               case None => reported.Some? ==> forall t :: t in due && t <= reported.value ==> t in marked
               case Some(f) =>
                 && reported.Some? && f.scope == Daily(w.day) && f.threshold in due && f.threshold !in marked
                 && 0 <= f.secondsUntil == reported.value - f.threshold
                 && forall t :: t in due && f.threshold < t <= reported.value ==> t in marked
  {
    var reported := ReportedDailyRemaining(w, now);
    if reported.Some? {
      RoundExact(EffectiveLimit(w, now).value as real - w.played);
      CandidateExact(MarkedThresholds(w.db, Daily(w.day)), DueThresholds(w.cfg), reported.value);
    }
  }

  /** There is a timer forecast for a timer that is running only, and where only play counts, during play. */
  lemma TimerForecastNeedsTime(w: World)
    ensures TimerForecast(w).Some? ==> w.timer.state == Running && (!w.cfg.countOnlyWhilePlaying || w.game.Some?)
  { }

  /** Until the remaining time falls to the threshold that is next for a scope, the day's or the
      timer's, no run of ticks warns about the scope. */
  lemma TicksStaySilent(w: World, rs: seq<Reading>, scope: Scope, threshold: int)
    requires Linked(w) && ValidConfig(w.cfg) && ScopeTicks(w, rs, scope) && NextUnmarked(w, scope, threshold)
    ensures var v := AfterTicks(w, rs);
            StillAbove(w, v, scope, threshold) ==>
              WarnedInRun(w, rs, scope) == [] && threshold !in MarkedThresholds(v.db, scope)
  {
    RunWarnings(w, rs, scope);
    SilentAbove(w, AfterTicks(w, rs), WarnedInRun(w, rs, scope), scope, threshold);
  }

  /** Rounding can make the forecast wrong: with 299.6 seconds left the report says 300, and the
      forecast promises at once a five-minute warning that no run of ticks will ever bring. */
  lemma DailyForecastRoundsUp(w: World, rs: seq<Reading>)
    requires Linked(w) && ValidConfig(w.cfg) && ScopeTicks(w, rs, Daily(w.day))
    requires w.cfg.limitsEnabled && w.cfg.thresholdMinutes == [5] && !w.cfg.notifyAtExhaustion
    requires EffectiveLimit(w, w.lastWall) == Some(300) && w.played == 0.4
    requires MarkedThresholds(w.db, Daily(w.day)) == {}
    ensures DailyForecast(w, w.lastWall) == Some(Forecast(Daily(w.day), 300, 0))
    ensures WarnedInRun(w, rs, Daily(w.day)) == []
  {
    RoundedUpForecast(w);
    RunWarnings(w, rs, Daily(w.day));
    WarnedWasAhead(w, AfterTicks(w, rs), WarnedInRun(w, rs, Daily(w.day)), Daily(w.day));
  }

  lemma RoundedUpForecast(w: World)
    requires w.cfg.limitsEnabled && w.cfg.thresholdMinutes == [5] && !w.cfg.notifyAtExhaustion
    requires EffectiveLimit(w, w.lastWall) == Some(300) && w.played == 0.4
    requires MarkedThresholds(w.db, Daily(w.day)) == {}
    ensures DueThresholds(w.cfg) == [300] && Remaining(w, Daily(w.day)) == Some(299.6)
    ensures DailyForecast(w, w.lastWall) == Some(Forecast(Daily(w.day), 300, 0))
  {
    assert Round(299.6) == 300;
    assert Candidate({}, [300][..0], 300) == None;
  }

  /** What a run warns about was due and still ahead when the run began. */
  lemma WarnedWasAhead(w: World, v: World, warned: seq<int>, scope: Scope)
    requires RunWarnsExactly(w, v, warned, scope)
    ensures warned != [] ==> warned[0] in DueThresholds(w.cfg) && warned[0] as real <= Remaining(w, scope).value
  { }
}
