/** When a tick has nothing to report, told on what it starts from. */
module SilenceLaws {
  import opened Basics
  import opened Zones
  import opened Records
  import opened Storage
  import opened Engine
  import opened Frames
  import opened WarningLaws
  import opened TransitionLaws

  /** The state with the time run that a tick within one day lets pass. */
  function Later(w: World, r: Reading): World {
    w.(played := if w.game.Some? && !w.suspended then w.played + MonoDelta(w, r) else w.played,
       timer := RunTimer(w, MonoDelta(w, r)).world.timer)
  }

  /** Every threshold of the scope that has been crossed since `before` has its mark. */
  ghost predicate AllHandled(w: World, scope: Scope, before: Snapshot, after: Snapshot) {
    var previous, remaining := Lookup(before, scope), Lookup(after, scope);
    previous.Some? && remaining.Some? ==>
      forall t :: t in DueThresholds(w.cfg) && Crosses(t, previous.value, remaining.value) ==>
                    t in MarkedThresholds(w.db, scope)
  }

  ghost predicate BothHandled(w: World, before: Snapshot, after: Snapshot) {
    && AllHandled(w, Daily(w.day), before, after)
    && (w.timer.generation.Some? ==> AllHandled(w, OfTimer(w.timer.generation.value), before, after))
  }

  predicate ClocksSteady(w: World, r: Reading) {
    Abs(Discrepancy(w, r)) <= 5.0 && OffsetAt(w.cfg.zone, r.now) == w.lastOffset
  }

  predicate RunsOut(w: World, r: Reading) { TimerCounts(w) && w.timer.remaining <= MonoDelta(w, r) }

  /** The clocks have kept together and kept their offset, the day is the same, the timer does not run out,
      every threshold passed has its mark, and the restriction is still the one called for. */
  ghost predicate NothingToReport(w: World, r: Reading) {
    && ClocksSteady(w, r) && DayOf(w.cfg, r.now) == w.day && !RunsOut(w, r)
    && BothHandled(w, TakeSnapshot(w, r.now), TakeSnapshot(Later(w, r), r.now))
    && Priority(Later(w, r), r.now) == Pair(w)
  }

  lemma NoteClockSilent(w: World, r: Reading)
    ensures NoteClock(w, r).events == [] <==> ClocksSteady(w, r)
  { }

  lemma AdvanceSilent(w: World, r: Reading)
    ensures Advance(w, r).events == [] <==> DayOf(w.cfg, r.now) == w.day
  { }

  lemma SettleSilent(w: World, elapsed: real, mono: real)
    ensures Settle(w, elapsed, mono).events == [] <==> !(TimerCounts(w) && w.timer.remaining <= elapsed)
  { }

  /** Within a day the time run changes these, as far as warnings and restriction go. */
  lemma ElapseWithinDay(w: World, r: Reading)
    requires DayOf(w.cfg, r.now) == w.day
    ensures var v := Elapse(w, r).world;
            v.played == Later(w, r).played && SameJudged(Later(w, r), v)
  {
    NoteClockFrame(w, r);
    var clock := NoteClock(w, r).world;
    AccountFrame(clock, MonoDelta(w, r), w.lastWall, r.now, Reliable(w, r));
    var advanced := Advance(clock, r).world;
    AccountedTime(clock, MonoDelta(w, r), w.lastWall, r.now, Reliable(w, r));
    SettleFrame(advanced, MonoDelta(w, r), r.mono);
    RunTimerSame(w, advanced, MonoDelta(w, r), r.mono);
  }

  lemma AccountedTime(w: World, seconds: real, start: int, end: int, record: bool)
    requires 0.0 <= seconds
    ensures AccountUnlessSuspended(w, seconds, start, end, record).played ==
            if w.game.Some? && !w.suspended then w.played + seconds else w.played
  { }

  /** What warnings and restriction look at is the same. */
  predicate SameJudged(w: World, v: World) {
    && v.cfg == w.cfg && v.day == w.day && v.played == w.played && v.timer == w.timer
    && v.db.adjustments == w.db.adjustments && v.db.marks == w.db.marks && Pair(v) == Pair(w)
  }

  lemma JudgedSame(w: World, v: World, now: int)
    requires SameJudged(w, v)
    ensures TakeSnapshot(v, now) == TakeSnapshot(w, now) && Priority(v, now) == Priority(w, now)
    ensures forall scope :: MarkedThresholds(v.db, scope) == MarkedThresholds(w.db, scope)
  { }

  lemma WarnScopeSilent(w: World, scope: Scope, now: int, before: Snapshot)
    ensures WarnScope(w, scope, now, before).events == [] <==> AllHandled(w, scope, before, TakeSnapshot(w, now))
  {
    var previous, remaining := Lookup(before, scope), Lookup(TakeSnapshot(w, now), scope);
    if previous.Some? && remaining.Some? {
      SweepExact(w.db, scope, DueThresholds(w.cfg), previous.value, remaining.value, now);
      SweptNothing(w.db, scope, DueThresholds(w.cfg), previous.value, remaining.value, now);
    }
  }

  lemma SweptNothing(db: Tables, scope: Scope, due: seq<int>, previous: real, remaining: real, now: int)
    ensures Sweep(db, scope, due, previous, remaining, now).newly == [] <==>
            forall t :: t in Crossed(due, previous, remaining) ==> t in MarkedThresholds(db, scope)
  {
    var newly := Sweep(db, scope, due, previous, remaining, now).newly;
    SweepExact(db, scope, due, previous, remaining, now);
    if newly != [] {
      assert newly[0] in newly;
    }
  }

  lemma WarnSilent(w: World, now: int, before: Snapshot)
    ensures Warn(w, now, before).events == [] <==> BothHandled(w, before, TakeSnapshot(w, now))
  {
    if w.timer.generation.None? {
      WarnScopeSilent(w, Daily(w.day), now, before);
    } else {
      var ofTimer := OfTimer(w.timer.generation.value);
      var timer := WarnScope(w, ofTimer, now, before);
      WarnScopeSilent(w, ofTimer, now, before);
      WarnScopeExact(w, ofTimer, now, before);
      WarnScopeOnlyMarks(w, ofTimer, now, before);
      SameSnapshot(w, timer.world, now);
      WarnScopeSilent(timer.world, Daily(w.day), now, before);
      assert AllHandled(timer.world, Daily(w.day), before, TakeSnapshot(w, now)) <==>
             AllHandled(w, Daily(w.day), before, TakeSnapshot(w, now));
    }
  }

  lemma AnnounceSilent(w: World, now: int, before: Snapshot)
    ensures Announce(w, now, before).events == [] <==>
            BothHandled(w, before, TakeSnapshot(w, now)) && Priority(w, now) == Pair(w)
  {
    WarnSilent(w, now, before);
    WarnOnlyMarks(w, now, before);
    var warned := Warn(w, now, before);
    assert Priority(warned.world, now) == Priority(w, now) && Pair(warned.world) == Pair(w);
    NothingAdded(warned.events, Refresh(warned.world, now).events);
  }

  lemma ElapseSilent(w: World, r: Reading)
    ensures Elapse(w, r).events == [] <==> ClocksSteady(w, r) && DayOf(w.cfg, r.now) == w.day && !RunsOut(w, r)
  {
    var clock := NoteClock(w, r);
    var advanced := Advance(clock.world, r);
    NoteClockFrame(w, r);
    NoteClockSilent(w, r);
    AdvanceSilent(clock.world, r);
    AdvanceFrame(clock.world, r);
    SettleSilent(advanced.world, MonoDelta(w, r), r.mono);
    NothingAdded(clock.events, advanced.events);
    NothingAdded(clock.events + advanced.events, Settle(advanced.world, MonoDelta(w, r), r.mono).events);
  }

  /** A tick has nothing to report exactly if nothing has happened that it would report. */
  lemma TickSilentExact(w: World, r: Reading)
    ensures Tick(w, r).events == [] <==> NothingToReport(w, r)
  {
    var e, before := Elapse(w, r), TakeSnapshot(w, r.now);
    ElapseSilent(w, r);
    NothingAdded(e.events, Announce(e.world, r.now, before).events);
    if e.events == [] {
      ElapseWithinDay(w, r);
      AnnounceSilent(e.world, r.now, before);
      JudgedAlike(w, Later(w, r), e.world, r.now, before);
    }
  }

  lemma JudgedAlike(w: World, later: World, v: World, now: int, before: Snapshot)
    requires SameJudged(later, v) && later.cfg == w.cfg && later.day == w.day && later.db == w.db
    requires later.timer.generation == w.timer.generation && Pair(later) == Pair(w)
    ensures BothHandled(v, before, TakeSnapshot(v, now)) <==> BothHandled(w, before, TakeSnapshot(later, now))
    ensures Priority(v, now) == Priority(later, now) && Pair(v) == Pair(w)
  {
    JudgedSame(later, v, now);
  }
}
