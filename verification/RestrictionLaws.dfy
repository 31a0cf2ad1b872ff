/** Which restriction is in force, and what is left to warn about, told from the settings themselves. */
module RestrictionLaws {
  import opened Basics
  import opened Zones
  import opened Schedule
  import opened Records
  import opened Storage
  import opened Engine
  import opened Frames
  import opened SessionLaws
  import opened RecoveryLaws
  import opened TransitionLaws

  // ----- the restriction

  /** The day is limited, and its minutes with its adjustments, which cannot take it below zero, are played. */
  predicate UsedUp(v: World, day: int) {
    && v.cfg.limitsEnabled && !v.cfg.weekly[(day + 3) % 7].unlimited
    && var allowance := v.cfg.weekly[(day + 3) % 7].minutes * 60 + AdjustmentForDay(v.db.adjustments, day);
       (if allowance < 0 then 0 else allowance) as real <= v.played
  }

  /** The minute of the local week at an instant: Monday 00:00 is 0, and 1970-01-01 was a Thursday. */
  function WeekMinute(z: Zone, now: int): int { ((now + OffsetAt(z, now)) / 60_000_000 + 4320) % 10080 }

  /** On the circle of the week's minutes, the period runs from its start on `day` through `minute`. */
  predicate Holds(p: Period, day: int, minute: int) {
    && (p.days.None? || day in p.days.value)
    && (minute - (day * 1440 + p.start)) % 10080 < (p.end - p.start) % 1440
  }

  /** There are allowed periods, and none of them, from whichever day, holds the present minute. */
  ghost predicate OffHours(c: Config, now: int) {
    && c.limitsEnabled && c.periods != []
    && forall i, day :: 0 <= i < |c.periods| && 0 <= day < 7 ==> !Holds(c.periods[i], day, WeekMinute(c.zone, now))
  }

  /** The reason and level that the state calls for: an expired timer's action comes first, then the daily
      limit, then the allowed periods. */
  ghost predicate InForce(v: World, now: int) {
    if v.timer.state == Expired then
      && v.reason == TimerExpired
      && v.level == (if v.timer.action == "notify_only" then 0
                     else if v.timer.action == "soft" then 1
                     else if v.timer.action == "close" then 2
                     else if v.timer.action == "block" then 3
                     else v.cfg.level)
    else if UsedUp(v, DayOf(v.cfg, now)) then v.reason == DailyLimit && v.level == v.cfg.level
    else if OffHours(v.cfg, now) then v.reason == OutsidePeriod && v.level == v.cfg.level
    else v.reason == Unrestricted && v.level == 0
  }

  lemma WeekMinuteIs(z: Zone, now: int)
    ensures MinuteOfWeek(z, now) == WeekMinute(z, now)
  {
    var local := Local(z, now);
    assert local / MINUTE == local / DAY * 1440 + (local % DAY) / MINUTE;
  }

  lemma HoldsIs(p: Period, day: int, minute: int)
    requires ValidPeriod(p)
    ensures StartsArcHolding(p, day, minute) <==> Holds(p, day, minute)
  { }

  lemma OffHoursIs(c: Config, now: int)
    requires ValidConfig(c)
    ensures OffHours(c, now) <==> c.limitsEnabled && !WithinAllowedPeriod(c.periods, c.zone, now)
  {
    AllowedPeriodIsCircular(c.periods, c.zone, now);
    WeekMinuteIs(c.zone, now);
    forall i, day | 0 <= i < |c.periods| && 0 <= day < 7
      ensures StartsArcHolding(c.periods[i], day, MinuteOfWeek(c.zone, now)) <==>
              Holds(c.periods[i], day, WeekMinute(c.zone, now))
    {
      HoldsIs(c.periods[i], day, WeekMinute(c.zone, now));
    }
  }

  /** A state has the restriction in force that the engine calls for exactly if it is this one. */
  lemma InForceExact(v: World, now: int)
    requires ValidConfig(v.cfg) && v.day == DayOf(v.cfg, now)
    ensures Current(v, now) <==> InForce(v, now)
  {
    OffHoursIs(v.cfg, now);
  }

  /** After every tick the restriction in force follows from the timer, the day's allowance and the
      allowed periods, in this order. */
  lemma TickRestriction(w: World, r: Reading)
    requires ValidConfig(w.cfg) && TimerOk(w.timer)
    ensures InForce(Tick(w, r).world, r.now)
  {
    TickRests(w, r);
    TickTimerFrame(w, r);
    InForceExact(Tick(w, r).world, r.now);
  }

  /** So it does when the daemon starts. */
  lemma StartupRestriction(db: Tables, c: Config, r: Reading)
    requires ValidConfig(c)
    ensures InForce(Startup(db, c, r).world, r.now)
  {
    InForceExact(Startup(db, c, r).world, r.now);
  }

  lemma TailKeepsDay(t: World, c: Command, r: Reading)
    requires Linked(t) && TicksFirst(c) && ValidCommand(c) && ValidConfig(t.cfg) && t.day == DayOf(t.cfg, r.now)
    ensures var v := Tail(t, c, r).world;
            ValidConfig(v.cfg) && v.day == DayOf(v.cfg, r.now)
  {
    if TimerCommand(c) {
      TimerTailBooks(t, c, r);
    } else {
      match c
      case DoSetGame(g) => SetGameTailBooks(t, g, r, 0);
      case DoStopGame => StopGameTailBooks(t, r, 0);
      case DoUpdateConfig(cfg) => SwitchConfigBooks(t, cfg, r);
      case DoShutdown => ShutdownTailBooks(t, r, 0);
    }
  }

  /** And so it does after every command that starts with a tick, unless a timer has been started over an
      expired one. */
  lemma StepRestriction(w: World, c: Command, r: Reading)
    requires Linked(w) && ValidConfig(w.cfg) && TimerOk(w.timer) && TicksFirst(c) && ValidCommand(c)
    ensures InForce(Step(w, c, r).world, r.now) <==> !ReplacesExpired(Tick(w, r).world, c)
  {
    TickBooks(w, r, 0);
    StepCurrent(w, c, r);
    TailKeepsDay(Tick(w, r).world, c, r);
    StepIsProper(w, c, r);
    InForceExact(Step(w, c, r).world, r.now);
  }

  // ----- what warnings are measured against

  /** What is left of the day is its allowance less what has been played, down to zero, and what is left of
      the timer is its remaining time; nothing is left of a day without a limit or of an idle timer. */
  lemma LeftExact(v: World, now: int)
    requires v.day == DayOf(v.cfg, now) && TimerOk(v.timer)
    ensures Lookup(TakeSnapshot(v, now), Daily(v.day)) ==
            if !v.cfg.limitsEnabled || v.cfg.weekly[(v.day + 3) % 7].unlimited then None
            else
              var allowance := v.cfg.weekly[(v.day + 3) % 7].minutes * 60 + AdjustmentForDay(v.db.adjustments, v.day);
              var seconds := if allowance < 0 then 0 else allowance;
              Some(if seconds as real < v.played then 0.0 else seconds as real - v.played)
    ensures forall g :: v.timer.generation == Some(g) ==>
                          Lookup(TakeSnapshot(v, now), OfTimer(g)) == Some(v.timer.remaining)
  { }

  /** Warnings are due at the configured minutes, in seconds, and at zero if exhaustion is to be notified. */
  lemma DueExact(c: Config, t: int)
    ensures t in DueThresholds(c) <==>
            || (t == 0 && c.notifyAtExhaustion)
            || exists i :: 0 <= i < |c.thresholdMinutes| && t == c.thresholdMinutes[i] * 60
  {
    var due := Thresholds(c.thresholdMinutes);
    if i :| 0 <= i < |c.thresholdMinutes| && t == c.thresholdMinutes[i] * 60 {
      assert due[i] == t && DueThresholds(c)[i] == t;
    }
    if t == 0 && c.notifyAtExhaustion {
      assert DueThresholds(c)[|due|] == 0;
    }
    if t in DueThresholds(c) && t in due {
      var i :| 0 <= i < |due| && due[i] == t;
      assert t == c.thresholdMinutes[i] * 60;
    }
  }
}
