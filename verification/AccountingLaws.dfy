/** What a sequence of ticks credits to each accounting day when the clocks agree. */
module AccountingLaws {
  import opened Basics
  import opened Zones
  import opened Schedule
  import opened Records
  import opened Engine
  import opened Frames
  import opened SessionLaws

  /** The microseconds from `a` up to `b` that lie in accounting day `d`. */
  function Overlap(c: Config, d: int, a: int, b: int): int {
    Max(0, Min(b, DayStart(c, d + 1)) - Max(a, DayStart(c, d)))
  }

  ghost predicate RegularDays(c: Config) {
    ValidReset(c.reset) && WellSpaced(c.zone) && RegularReset(c.zone, c.reset)
  }

  lemma OverlapAdds(c: Config, d: int, a: int, b: int, e: int)
    requires RegularDays(c) && a <= b <= e
    ensures Overlap(c, d, a, b) + Overlap(c, d, b, e) == Overlap(c, d, a, e)
  { }

  /** The clocks agree: both have advanced by the same amount since the last tick. */
  predicate DriftFree(w: World, r: Reading) {
    w.lastWall <= r.now && r.mono - w.lastMono == Seconds(r.now - w.lastWall)
  }

  /** A game is being played and the engine's day is the one of its last tick. */
  predicate Playing(w: World) {
    w.game.Some? && !w.suspended && w.day == DayOf(w.cfg, w.lastWall)
  }

  /** When the clocks agree, the split at the reset is exact. */
  lemma SplitExact(previous: int, current: int, boundary: int)
    requires previous < boundary <= current
    ensures SplitElapsed(Seconds(current - previous), previous, current, boundary) ==
            (Seconds(boundary - previous), Seconds(current - boundary))
  {
    var part, whole := Seconds(boundary - previous), Seconds(current - previous);
    assert whole - part == Seconds(current - boundary);
    if boundary < current {
      DivideExact(part, whole);
    }
  }

  lemma DivideExact(part: real, whole: real)
    requires 0.0 < part < whole
    ensures Divide(whole, part, whole) == (part, whole - part)
  {
    var ratio := part / whole;
    assert ratio * whole == part;
    ProperFraction(ratio, part, whole);
    assert Divide(whole, part, whole).0 == whole * ratio;
    assert whole * ratio == ratio * whole;
  }

  lemma ProperFraction(ratio: real, part: real, whole: real)
    requires 0.0 < part < whole && ratio * whole == part
    ensures 0.0 <= ratio <= 1.0
  { }

  /** The new day is the next one, or every day in between is empty. */
  predicate NoDaySkipped(w: World, r: Reading) {
    var newDay := DayOf(w.cfg, r.now);
    newDay == w.day || DayStart(w.cfg, w.day + 1) == DayStart(w.cfg, newDay)
  }

  lemma NewDayStarts(w: World, r: Reading)
    requires RegularDays(w.cfg) && Playing(w) && w.lastWall <= r.now
    ensures var newDay := DayOf(w.cfg, r.now);
            && w.day <= newDay
            && DayStart(w.cfg, w.day) <= w.lastWall < DayStart(w.cfg, w.day + 1)
            && DayStart(w.cfg, newDay) <= r.now < DayStart(w.cfg, newDay + 1)
            && (newDay != w.day ==> DayStart(w.cfg, w.day + 1) <= DayStart(w.cfg, newDay))
  {
    var newDay := DayOf(w.cfg, r.now);
    RegularIsNeverRepeated(w.cfg.zone, w.cfg.reset);
    AccountingDayMonotone(w.cfg.zone, w.cfg.reset, w.lastWall, r.now);
    DaysPartitionTime(w.cfg.zone, w.cfg.reset, w.lastWall, w.day);
    DaysPartitionTime(w.cfg.zone, w.cfg.reset, r.now, newDay);
    if newDay != w.day {
      DayStartsMonotone(w.cfg.zone, w.cfg.reset, w.day + 1, newDay);
    }
  }

  lemma NoOverlapBefore(w: World, r: Reading, d: int)
    requires RegularDays(w.cfg) && Playing(w) && d < w.day
    ensures Overlap(w.cfg, d, w.lastWall, r.now) == 0
  {
    DaysPartitionTime(w.cfg.zone, w.cfg.reset, w.lastWall, w.day);
    DayStartsMonotone(w.cfg.zone, w.cfg.reset, d + 1, w.day);
  }

  lemma NoOverlapAfter(w: World, r: Reading, d: int)
    requires RegularDays(w.cfg) && DayOf(w.cfg, r.now) < d
    ensures Overlap(w.cfg, d, w.lastWall, r.now) == 0
  {
    DaysPartitionTime(w.cfg.zone, w.cfg.reset, r.now, DayOf(w.cfg, r.now));
    DayStartsMonotone(w.cfg.zone, w.cfg.reset, DayOf(w.cfg, r.now) + 1, d);
  }

  lemma NoOverlapBetween(w: World, r: Reading, d: int)
    requires RegularDays(w.cfg) && NoDaySkipped(w, r) && w.day < d < DayOf(w.cfg, r.now)
    ensures Overlap(w.cfg, d, w.lastWall, r.now) == 0
  {
    DayStartsMonotone(w.cfg.zone, w.cfg.reset, w.day + 1, d);
    DayStartsMonotone(w.cfg.zone, w.cfg.reset, d + 1, DayOf(w.cfg, r.now));
  }

  /** A day that lies outside the interval has no part of it, nor has one that is empty. */
  lemma NoOverlap(w: World, r: Reading, d: int)
    requires RegularDays(w.cfg) && Playing(w)
    requires d < w.day || DayOf(w.cfg, r.now) < d
             || (w.day < d < DayOf(w.cfg, r.now) && NoDaySkipped(w, r))
    ensures Overlap(w.cfg, d, w.lastWall, r.now) == 0
  {
    if d < w.day {
      NoOverlapBefore(w, r, d);
    } else if DayOf(w.cfg, r.now) < d {
      NoOverlapAfter(w, r, d);
    } else {
      NoOverlapBetween(w, r, d);
    }
  }

  lemma SameDayCredit(w: World, r: Reading, d: int)
    requires RegularDays(w.cfg) && Playing(w) && DriftFree(w, r) && DayOf(w.cfg, r.now) == w.day
    ensures Credit(w, r, d) == Seconds(Overlap(w.cfg, d, w.lastWall, r.now))
  {
    NewDayStarts(w, r);
    if d != w.day {
      NoOverlap(w, r, d);
    }
  }

  lemma NewDayCredit(w: World, r: Reading, d: int)
    requires RegularDays(w.cfg) && Playing(w) && DriftFree(w, r) && NoDaySkipped(w, r) && DayOf(w.cfg, r.now) != w.day
    ensures Credit(w, r, d) == Seconds(Overlap(w.cfg, d, w.lastWall, r.now))
  {
    SlicesCredited(w, r);
    if d != w.day && d != DayOf(w.cfg, r.now) {
      NoOverlap(w, r, d);
    } else {
      OverlapAtEnds(w, r);
    }
  }

  /** The parts of the interval in the first and in the last day. */
  lemma OverlapAtEnds(w: World, r: Reading)
    requires RegularDays(w.cfg) && Playing(w) && w.lastWall <= r.now && DayOf(w.cfg, r.now) != w.day
    ensures var newDay := DayOf(w.cfg, r.now);
            && Overlap(w.cfg, w.day, w.lastWall, r.now) == DayStart(w.cfg, w.day + 1) - w.lastWall
            && Overlap(w.cfg, newDay, w.lastWall, r.now) == r.now - DayStart(w.cfg, newDay)
            && DayStart(w.cfg, w.day + 1) <= DayStart(w.cfg, newDay)
  {
    NewDayStarts(w, r);
  }

  /** What a tick across the reset credits to the old and to the new day. */
  lemma SlicesCredited(w: World, r: Reading)
    requires RegularDays(w.cfg) && Playing(w) && DriftFree(w, r) && DayOf(w.cfg, r.now) != w.day
    ensures var newDay := DayOf(w.cfg, r.now);
            && Credit(w, r, w.day) == Seconds(DayStart(w.cfg, newDay) - w.lastWall)
            && Credit(w, r, newDay) == Seconds(r.now - DayStart(w.cfg, newDay))
            && forall d :: d != w.day && d != newDay ==> Credit(w, r, d) == 0.0
  {
    NewDaySlice(w, r);
  }

  /** A tick credits each accounting day with exactly the part of the elapsed interval that lies in
      it, as long as it skips no day. */
  lemma CreditExact(w: World, r: Reading, d: int)
    requires RegularDays(w.cfg) && Playing(w) && DriftFree(w, r) && NoDaySkipped(w, r)
    ensures Credit(w, r, d) == Seconds(Overlap(w.cfg, d, w.lastWall, r.now))
  {
    if DayOf(w.cfg, r.now) == w.day {
      SameDayCredit(w, r, d);
    } else {
      NewDayCredit(w, r, d);
    }
  }

  /** If a day is skipped, its time goes to the old day. */
  lemma SkippedDayCredit(w: World, r: Reading)
    requires RegularDays(w.cfg) && Playing(w) && DriftFree(w, r) && !NoDaySkipped(w, r)
    ensures Credit(w, r, w.day) > Seconds(Overlap(w.cfg, w.day, w.lastWall, r.now))
  {
    OverlapAtEnds(w, r);
    SlicesCredited(w, r);
    assert DayStart(w.cfg, w.day + 1) < DayStart(w.cfg, DayOf(w.cfg, r.now));
    SecondsOrdered(DayStart(w.cfg, w.day + 1) - w.lastWall, DayStart(w.cfg, DayOf(w.cfg, r.now)) - w.lastWall);
  }

  lemma SecondsOrdered(a: int, b: int)
    ensures a < b <==> Seconds(a) < Seconds(b)
  { }

  /** Crediting is exact for every day if and only if the tick skips no day; a longer gap leaves
      the days in between without credit and gives their time to the old day. */
  lemma CreditExactIff(w: World, r: Reading)
    requires RegularDays(w.cfg) && Playing(w) && DriftFree(w, r)
    ensures NoDaySkipped(w, r) <==>
            forall d :: Credit(w, r, d) == Seconds(Overlap(w.cfg, d, w.lastWall, r.now))
  {
    if NoDaySkipped(w, r) {
      forall d ensures Credit(w, r, d) == Seconds(Overlap(w.cfg, d, w.lastWall, r.now)) {
        CreditExact(w, r, d);
      }
    } else {
      SkippedDayCredit(w, r);
    }
  }

  // ----- runs of ticks

  function AfterTicks(w: World, rs: seq<Reading>): World {
    if rs == [] then w else Tick(AfterTicks(w, rs[..|rs| - 1]), rs[|rs| - 1]).world
  }

  /** At every tick the clocks agree, no day is skipped, and retention removes no play time of
      day `d`. */
  ghost predicate SteadyTicks(w: World, rs: seq<Reading>, d: int) {
    rs == [] ||
    var before, r := AfterTicks(w, rs[..|rs| - 1]), rs[|rs| - 1];
    && SteadyTicks(w, rs[..|rs| - 1], d)
    && DriftFree(before, r) && NoDaySkipped(before, r) && Purged(before, r, d) == 0.0
  }

  lemma SteadyTick(w: World, r: Reading, d: int)
    requires Linked(w) && ValidConfig(w.cfg) && RegularDays(w.cfg) && Playing(w)
    requires DriftFree(w, r) && NoDaySkipped(w, r) && Purged(w, r, d) == 0.0
    ensures var v := Tick(w, r).world;
            && Linked(v) && v.cfg == w.cfg && Playing(v) && v.lastWall == r.now && v.lastMono == r.mono
            && LiveUsage(v, d) == LiveUsage(w, d) + Seconds(Overlap(w.cfg, d, w.lastWall, r.now))
  {
    TickBooks(w, r, d);
    CreditExact(w, r, d);
  }

  /** However a stretch of play is cut into ticks, each accounting day ends up with exactly the
      part of the stretch that lies in it. */
  lemma {:induction false} TicksCreditExactly(w: World, rs: seq<Reading>, d: int)
    requires Linked(w) && ValidConfig(w.cfg) && RegularDays(w.cfg) && Playing(w) && SteadyTicks(w, rs, d)
    ensures var v := AfterTicks(w, rs);
            && Linked(v) && v.cfg == w.cfg && Playing(v) && w.lastWall <= v.lastWall
            && (rs != [] ==> v.lastWall == rs[|rs| - 1].now)
            && LiveUsage(v, d) == LiveUsage(w, d) + Seconds(Overlap(w.cfg, d, w.lastWall, v.lastWall))
  {
    if rs == [] {
      DayStartsMonotone(w.cfg.zone, w.cfg.reset, d, d + 1);
    } else {
      var before, r := AfterTicks(w, rs[..|rs| - 1]), rs[|rs| - 1];
      TicksCreditExactly(w, rs[..|rs| - 1], d);
      SteadyTick(before, r, d);
      OverlapAdds(w.cfg, d, w.lastWall, before.lastWall, r.now);
    }
  }

  // ----- the open session

  /** The length of the open session after play from `from` to `to`: it starts over at the last
      reset in between. */
  function OpenLength(c: Config, day: int, duration: real, from: int, to: int): real {
    if DayOf(c, to) == day then duration + Seconds(to - from) else Seconds(to - DayStart(c, DayOf(c, to)))
  }

  lemma TickDuration(w: World, r: Reading)
    requires Linked(w) && ValidConfig(w.cfg) && RegularDays(w.cfg) && Playing(w)
    requires DriftFree(w, r)
    ensures Tick(w, r).world.duration == OpenLength(w.cfg, w.day, w.duration, w.lastWall, r.now)
  {
    NoteClockFrame(w, r);
    NoteClockBooks(w, r, 0);
    var clock := NoteClock(w, r).world;
    AdvanceDuration(clock, r);
    SettleFrame(Advance(clock, r).world, MonoDelta(w, r), r.mono);
    AnnounceFrame(Elapse(w, r).world, r.now, TakeSnapshot(w, r.now));
  }

  lemma AdvanceDuration(w: World, r: Reading)
    requires Linked(w) && ValidConfig(w.cfg) && RegularDays(w.cfg) && Playing(w)
    requires DriftFree(w, r)
    ensures Advance(w, r).world.duration == OpenLength(w.cfg, w.day, w.duration, w.lastWall, r.now)
  {
    if DayOf(w.cfg, r.now) != w.day {
      RolledDuration(w, r);
      NewDaySlice(w, r);
    } else {
      AccountDuration(w, Seconds(r.now - w.lastWall), w.lastWall, r.now, Reliable(w, r));
    }
  }

  lemma NewDaySlice(w: World, r: Reading)
    requires RegularDays(w.cfg) && Playing(w) && DriftFree(w, r) && DayOf(w.cfg, r.now) != w.day
    ensures var boundary := DayStart(w.cfg, DayOf(w.cfg, r.now));
            SplitElapsed(MonoDelta(w, r), w.lastWall, r.now, boundary) ==
            (Seconds(boundary - w.lastWall), Seconds(r.now - boundary))
  {
    NewDayStarts(w, r);
    SplitExact(w.lastWall, r.now, DayStart(w.cfg, DayOf(w.cfg, r.now)));
  }

  lemma RolledDuration(w: World, r: Reading)
    requires Linked(w) && 0 <= w.cfg.retentionDays && w.game.Some? && !w.suspended
    requires DayOf(w.cfg, r.now) != w.day
    ensures Advance(w, r).world.duration ==
            SplitElapsed(MonoDelta(w, r), w.lastWall, r.now, DayStart(w.cfg, DayOf(w.cfg, r.now))).1
  {
    var newDay := DayOf(w.cfg, r.now);
    var boundary := DayStart(w.cfg, newDay);
    var split := SplitElapsed(MonoDelta(w, r), w.lastWall, r.now, boundary);
    SplitElapsedSums(MonoDelta(w, r), w.lastWall, r.now, boundary);
    var before := AccountUnlessSuspended(w, split.0, w.lastWall, boundary, Reliable(w, r));
    AccountBooks(w, split.0, w.lastWall, boundary, Reliable(w, r), 0);
    RollBooks(before, boundary, newDay, r.mono, 0);
    RollFrame(before, boundary, newDay, r.mono);
    AccountDuration(RollDay(before, boundary, newDay, r.mono).world, split.1, boundary, r.now, Reliable(w, r));
  }

  lemma AccountDuration(w: World, seconds: real, start: int, end: int, record: bool)
    requires w.game.Some? && 0.0 <= seconds
    ensures Account(w, seconds, start, end, record).duration == w.duration + seconds
    ensures Flush(Account(w, seconds, start, end, record)).duration == w.duration + seconds
  { }

  // ----- suspended time

  lemma StandstillTimer(w: World, r: Reading)
    requires r.mono <= w.lastMono && 0.0 <= w.timer.remaining
    ensures Tick(w, r).world.timer.remaining == w.timer.remaining
  {
    TickTimerFrame(w, r);
  }

  /** While the monotonic clock stands still, no time is credited to any day and none runs off
      the timer, however far the wall clock has moved. */
  lemma StandstillCreditsNothing(w: World, r: Reading, d: int)
    requires Linked(w) && ValidConfig(w.cfg) && r.mono <= w.lastMono && 0.0 <= w.timer.remaining
    ensures LiveUsage(Tick(w, r).world, d) == LiveUsage(w, d) - Purged(w, r, d)
    ensures Tick(w, r).world.timer.remaining == w.timer.remaining
  {
    TickBooks(w, r, d);
    StandstillTimer(w, r);
    StandstillCredit(w, r, d);
  }

  lemma StandstillCredit(w: World, r: Reading, d: int)
    requires r.mono <= w.lastMono
    ensures Credit(w, r, d) == 0.0
  { }
}
