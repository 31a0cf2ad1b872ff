/** Warnings about an accounting day over runs of all kinds of commands within that day. */
module DailyRuns {
  import opened Basics
  import opened Records
  import opened Storage
  import opened Engine
  import opened Frames
  import opened SessionLaws
  import opened TransitionLaws
  import opened WarningLaws
  import opened WarningRuns
  import opened ForecastLaws

  /** Day `d` is the current one, also by the last reading, and has a limit. */
  predicate OnDay(w: World, d: int) {
    w.day == d && DayOf(w.cfg, w.lastWall) == d && EffectiveLimit(w, w.lastWall).Some?
  }

  /** What a stage does to the day's scope: the remaining time does not grow, and exactly what it crosses is
      marked and warned about. */
  ghost predicate LowersDay(t: World, v: World, es: seq<Event>, d: int) {
    && OnDay(t, d) && OnDay(v, d) && v.cfg == t.cfg
    && Remaining(v, Daily(d)).value <= Remaining(t, Daily(d)).value
    && WarnsExactly(Daily(d), CrossedBy(t.cfg, Remaining(t, Daily(d)), Remaining(v, Daily(d))), t.db, v.db, es)
  }

  lemma TickLowersDay(w: World, r: Reading, d: int)
    requires Linked(w) && ValidConfig(w.cfg) && OnDay(w, d) && DayOf(w.cfg, r.now) == d
    ensures LowersDay(w, Tick(w, r).world, Tick(w, r).events, d)
  {
    SameLimit(w, r.now);
    TickScope(w, r, Daily(d));
    TickBooks(w, r, 0);
    TickKeepsLimit(w, r);
  }

  /** Within a day the limit is the same at every reading. */
  lemma SameLimit(w: World, now: int)
    requires DayOf(w.cfg, now) == DayOf(w.cfg, w.lastWall)
    ensures EffectiveLimit(w, now) == EffectiveLimit(w, w.lastWall)
  { }

  lemma TickKeepsLimit(w: World, r: Reading)
    requires DayOf(w.cfg, r.now) == w.day == DayOf(w.cfg, w.lastWall)
    ensures EffectiveLimit(Tick(w, r).world, r.now) == EffectiveLimit(w, w.lastWall)
  {
    NoteClockFrame(w, r);
    var clock := NoteClock(w, r).world;
    AccountFrame(clock, MonoDelta(w, r), w.lastWall, r.now, Reliable(w, r));
    SettleFrame(Advance(clock, r).world, MonoDelta(w, r), r.mono);
    AnnounceFrame(Elapse(w, r).world, r.now, TakeSnapshot(w, r.now));
  }

  // ----- what follows the tick

  /** What the day's remaining time depends on is kept. */
  predicate KeepsDay(t: World, v: World) {
    v.cfg == t.cfg && v.day == t.day && v.played == t.played && v.db.adjustments == t.db.adjustments
  }

  /** A stage that touches neither the day's time nor its marks. */
  lemma DayStandsStill(t: World, v: World, es: seq<Event>, d: int)
    requires OnDay(t, d) && KeepsDay(t, v) && DayOf(v.cfg, v.lastWall) == d
    requires MarkedThresholds(v.db, Daily(d)) == MarkedThresholds(t.db, Daily(d)) && Warned(es, Daily(d)) == []
    ensures LowersDay(t, v, es, d)
  { }

  lemma SilentTailDay(t: World, c: Command, r: Reading)
    requires SilentTail(c) && TicksFirst(c)
    ensures var v := Tail(t, c, r).world;
            KeepsDay(t, v) && v.lastWall == t.lastWall && v.db.marks == t.db.marks
  {
    if c.DoSetGame? {
      SetGameTailFrame(t, c.game, r);
    } else if c.DoStopGame? {
      StopGameTailFrame(t, r);
    } else if c.DoShutdown? {
      ShutdownTailFrame(t, r);
    }
  }

  lemma SilentLowersDay(t: World, c: Command, r: Reading, d: int)
    requires SilentTail(c) && TicksFirst(c) && OnDay(t, d)
    ensures LowersDay(t, Tail(t, c, r).world, EventsOf(Tail(t, c, r)), d)
  {
    SilentTailDay(t, c, r);
    SilentTailEvents(t, c, r, Daily(d));
    DayStandsStill(t, Tail(t, c, r).world, EventsOf(Tail(t, c, r)), d);
  }

  /** An announcement after the day's time has fallen, or stayed as it was. */
  lemma AnnouncedLowersDay(t: World, a: World, e: Event, now: int, d: int)
    requires OnDay(t, d) && OnDay(a, d) && a.cfg == t.cfg && !e.Warning? && now == t.lastWall == a.lastWall
    requires Remaining(a, Daily(d)).value <= Remaining(t, Daily(d)).value
    requires MarkedThresholds(a.db, Daily(d)) == MarkedThresholds(t.db, Daily(d))
    ensures var v := Announce(a, now, TakeSnapshot(t, now));
            LowersDay(t, v.world, [e] + v.events, d)
  {
    var before := TakeSnapshot(t, now);
    var v := Announce(a, now, before);
    AnnounceExact(a, now, before, Daily(d));
    AnnounceFrame(a, now, before);
    OneMore(e, v.events, Daily(d));
    AnnouncedFrom(t, a, v.world, v.events, [e] + v.events, d);
  }

  lemma AnnouncedFrom(t: World, a: World, v: World, es: seq<Event>, all: seq<Event>, d: int)
    requires OnDay(t, d) && OnDay(a, d) && a.cfg == t.cfg
    requires Remaining(a, Daily(d)).value <= Remaining(t, Daily(d)).value
    requires MarkedThresholds(a.db, Daily(d)) == MarkedThresholds(t.db, Daily(d))
    requires v == a.(reason := v.reason, level := v.level, db := a.db.(marks := v.db.marks))
    requires WarnsExactly(Daily(d), CrossedBy(a.cfg, Remaining(t, Daily(d)), Remaining(a, Daily(d))), a.db, v.db, es)
    requires Warned(all, Daily(d)) == Warned(es, Daily(d))
    ensures LowersDay(t, v, all, d)
  { }

  lemma {:induction false} LandingMarksOther(db: Tables, g: nat, ts: seq<int>, remaining: real, now: int, d: int)
    ensures MarkedThresholds(MarkLanding(db, g, ts, remaining, now), Daily(d)) == MarkedThresholds(db, Daily(d))
  {
    if ts != [] {
      LandingMarksOther(db, g, ts[..|ts| - 1], remaining, now, d);
    }
  }

  lemma AdjustedDay(t: World, seconds: int, now: int, d: int)
    ensures var a := ApplyAdjustment(t, seconds, now);
            && KeepsDay(t, a) && a.lastWall == t.lastWall
            && MarkedThresholds(a.db, Daily(d)) == MarkedThresholds(t.db, Daily(d))
  {
    var timer := AdjustedTimer(t.timer, seconds);
    if timer.generation.Some? {
      var g := timer.generation.value;
      var cleared := ClearScope(SaveTimer(t.db, timer), OfTimer(g));
      ClearedScope(SaveTimer(t.db, timer), OfTimer(g));
      MarkLandingOnlyMarks(cleared, g, Thresholds(t.cfg.thresholdMinutes), timer.remaining, now);
      LandingMarksOther(cleared, g, Thresholds(t.cfg.thresholdMinutes), timer.remaining, now, d);
    }
  }

  lemma AdjustLowersDay(t: World, seconds: int, r: Reading, d: int)
    requires OnDay(t, d) && t.lastWall == r.now && AdjustTimerTail(t, seconds, r).Done?
    ensures LowersDay(t, AdjustTimerTail(t, seconds, r).world, EventsOf(AdjustTimerTail(t, seconds, r)), d)
  {
    AdjustedDay(t, seconds, r.now, d);
    AnnouncedLowersDay(t, ApplyAdjustment(t, seconds, r.now), TimerAdjusted(seconds), r.now, d);
  }

  lemma GrantLowersDay(t: World, seconds: int, reason: string, r: Reading, d: int)
    requires OnDay(t, d) && t.lastWall == r.now && seconds < 0 && GrantTail(t, seconds, reason, r).Done?
    ensures LowersDay(t, GrantTail(t, seconds, reason, r).world, EventsOf(GrantTail(t, seconds, reason, r)), d)
  {
    AdjustmentAppend(t.db.adjustments, Adjustment(t.day, seconds, r.now), t.day);
    AnnouncedLowersDay(t, ApplyGrant(t, seconds, r.now), DailyAdjusted(t.day, seconds), r.now, d);
  }

  lemma ReplacedLowersDay(t: World, c: Command, r: Reading, d: int)
    requires OnDay(t, d) && (c.DoStartTimer? || c.DoCancelTimer?)
    ensures LowersDay(t, Proper(t, c, r).world, EventsOf(Proper(t, c, r)), d)
  {
    var p := Proper(t, c, r);
    if c.DoStartTimer? {
      ClearedScope(SaveTimer(t.db.(nextId := t.db.nextId + 1), p.world.timer), OfTimer(t.db.nextId));
    }
    NothingWarned(EventsOf(p), Daily(d));
    DayStandsStill(t, p.world, EventsOf(p), d);
  }

  lemma ResumeLowersDay(w: World, r: Reading, d: int)
    requires OnDay(w, d) && DayOf(w.cfg, r.now) == d
    ensures LowersDay(w, Resume(w, r).world, Resume(w, r).events, d)
  {
    NothingWarned(Resume(w, r).events, Daily(d));
    DayStandsStill(w, Resume(w, r).world, Resume(w, r).events, d);
  }

  // ----- single commands

  /** The command takes no new settings, grants the day nothing and does not clear the history; a command
      that does not complete is always like this. */
  ghost predicate LeavesDayScope(t: World, c: Command, r: Reading) {
    Proper(t, c, r).Done? ==>
      !c.DoUpdateConfig? && !c.DoPurge? && !c.DoRestart? && (c.DoGrant? ==> c.seconds < 0)
  }

  lemma ProperLowersDay(t: World, c: Command, r: Reading, d: int)
    requires Linked(t) && OnDay(t, d) && DayOf(t.cfg, r.now) == d && LeavesDayScope(t, c, r)
    requires TicksFirst(c) ==> t.lastWall == r.now
    ensures LowersDay(t, Proper(t, c, r).world, EventsOf(Proper(t, c, r)), d)
  {
    if !Proper(t, c, r).Done? {
      RefusedProper(t, c, r);
      DayStandsStill(t, t, [], d);
    } else if c.DoResume? {
      ResumeLowersDay(t, r, d);
    } else if SilentTail(c) {
      SilentLowersDay(t, c, r, d);
    } else if c.DoGrant? {
      GrantLowersDay(t, c.seconds, c.reason, r, d);
    } else if c.DoAdjustTimer? {
      AdjustLowersDay(t, c.seconds, r, d);
    } else {
      ReplacedLowersDay(t, c, r, d);
    }
  }

  // ----- runs

  /** The input falls into day `d` and leaves its scope alone. */
  ghost predicate InputOnDay(w: World, c: Command, r: Reading, d: int) {
    DayOf(w.cfg, r.now) == d && LeavesDayScope(Ticked(w, c, r).world, c, r)
  }

  ghost predicate RunOnDay(w: World, run: seq<Input>, d: int) {
    run == [] ||
    var prefix, last := run[..|run| - 1], run[|run| - 1];
    RunOnDay(w, prefix, d) && InputOnDay(After(w, prefix), last.command, last.at, d)
  }

  lemma ExtendDay(w: World, u: World, v: World, warned: seq<int>, es: seq<Event>, d: int)
    requires u.cfg == w.cfg && RunWarnsExactly(w, u, warned, Daily(d)) && LowersDay(u, v, es, d)
    ensures v.cfg == w.cfg && RunWarnsExactly(w, v, warned + Warned(es, Daily(d)), Daily(d))
  {
    ExtendWarnings(w, u, v, warned, es, Daily(d));
  }

  lemma TickedLowersDay(w: World, c: Command, r: Reading, d: int)
    requires Ready(w) && OnDay(w, d) && DayOf(w.cfg, r.now) == d
    ensures var t := Ticked(w, c, r);
            && Ready(t.world) && LowersDay(w, t.world, t.events, d)
            && (TicksFirst(c) ==> t.world.lastWall == r.now)
  {
    if TicksFirst(c) {
      TickReady(w, r);
      TickLowersDay(w, r, d);
      TickBooks(w, r, 0);
    } else {
      DayStandsStill(w, w, [], d);
    }
  }

  ghost predicate FollowedDay(w: World, v: World, warned: seq<int>, d: int) {
    Ready(v) && OnDay(v, d) && v.cfg == w.cfg && RunWarnsExactly(w, v, warned, Daily(d))
  }

  lemma FollowedDayFurther(w: World, u: World, warned: seq<int>, c: Command, r: Reading, d: int)
    requires FollowedDay(w, u, warned, d) && ValidCommand(c) && InputOnDay(u, c, r, d)
    ensures FollowedDay(w, Step(u, c, r).world, warned + Warned(Recorded(u, c, r), Daily(d)), d)
  {
    var t := Ticked(u, c, r);
    TickedLowersDay(u, c, r, d);
    ProperLowersDay(t.world, c, r, d);
    ExtendDayTwice(w, u, t, Proper(t.world, c, r), warned, d);
    StepInTwo(u, c, r, Daily(d));
    StepReady(u, c, r);
  }

  lemma ExtendDayTwice(w: World, u: World, t: Effect, p: Reply, warned: seq<int>, d: int)
    requires u.cfg == w.cfg && RunWarnsExactly(w, u, warned, Daily(d))
    requires LowersDay(u, t.world, t.events, d) && LowersDay(t.world, p.world, EventsOf(p), d)
    ensures OnDay(p.world, d) && p.world.cfg == w.cfg
    ensures var more := Warned(t.events, Daily(d)) + Warned(EventsOf(p), Daily(d));
            RunWarnsExactly(w, p.world, warned + more, Daily(d))
  {
    var first, second := Warned(t.events, Daily(d)), Warned(EventsOf(p), Daily(d));
    ExtendDay(w, u, t.world, warned, t.events, d);
    ExtendDay(w, t.world, p.world, warned + first, EventsOf(p), d);
    Associate(warned, first, second);
  }

  /** Over any run of such commands within one day, the day's marks grow by exactly the thresholds that its
      time has passed, and the warnings are for strictly decreasing thresholds without a mark. */
  lemma {:induction false} DailyRunWarnings(w: World, run: seq<Input>, d: int)
    requires Ready(w) && OnDay(w, d) && ValidRun(run) && RunOnDay(w, run, d)
    ensures FollowedDay(w, After(w, run), Warned(RecordedInRun(w, run), Daily(d)), d)
  {
    if run == [] {
      assert RunWarnsExactly(w, w, [], Daily(d));
    } else {
      var prefix, last := run[..|run| - 1], run[|run| - 1];
      assert forall i :: 0 <= i < |prefix| ==> prefix[i] == run[i];
      DailyRunWarnings(w, prefix, d);
      var u, sofar := After(w, prefix), RecordedInRun(w, prefix);
      FollowedDayFurther(w, u, Warned(sofar, Daily(d)), last.command, last.at, d);
      WarnedConcat(sofar, Recorded(u, last.command, last.at), Daily(d));
    }
  }

  /** Until the day's remaining time falls to the threshold that is next, no such run warns about it. */
  lemma DaySilence(w: World, run: seq<Input>, d: int, threshold: int)
    requires Ready(w) && OnDay(w, d) && ValidRun(run) && RunOnDay(w, run, d)
    requires NextUnmarked(w, Daily(d), threshold)
    ensures var v := After(w, run);
            StillAbove(w, v, Daily(d), threshold) ==>
              Warned(RecordedInRun(w, run), Daily(d)) == [] && threshold !in MarkedThresholds(v.db, Daily(d))
  {
    DailyRunWarnings(w, run, d);
    SilentAbove(w, After(w, run), Warned(RecordedInRun(w, run), Daily(d)), Daily(d), threshold);
  }
}
