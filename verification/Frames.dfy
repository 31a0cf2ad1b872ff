/** What each stage of the engine may touch. These facts hold in every state; they let the laws
    about one part of the state step over the stages that concern the others. */
module Frames {
  import opened Records
  import opened Storage
  import opened Engine

  lemma {:induction false} SweepOnlyMarks(db: Tables, scope: Scope, due: seq<int>, previous: real, remaining: real,
                                          now: int)
    ensures var s := Sweep(db, scope, due, previous, remaining, now);
            s.db == db.(marks := s.db.marks)
  {
    if due != [] {
      SweepOnlyMarks(db, scope, due[..|due| - 1], previous, remaining, now);
    }
  }

  /** Warnings touch nothing but the marks. */
  lemma WarnOnlyMarks(w: World, now: int, before: Snapshot)
    ensures var v := Warn(w, now, before).world;
            v == w.(db := w.db.(marks := v.db.marks))
  {
    WarnScopeOnlyMarks(w, OfTimer(if w.timer.generation.Some? then w.timer.generation.value else 0), now, before);
    var timer := if w.timer.generation.Some?
                 then WarnScope(w, OfTimer(w.timer.generation.value), now, before)
                 else Effect(w, []);
    WarnScopeOnlyMarks(timer.world, Daily(w.day), now, before);
  }

  lemma WarnScopeOnlyMarks(w: World, scope: Scope, now: int, before: Snapshot)
    ensures var v := WarnScope(w, scope, now, before).world;
            v == w.(db := w.db.(marks := v.db.marks))
  {
    var previous := Lookup(before, scope);
    var current := Lookup(TakeSnapshot(w, now), scope);
    if previous.Some? && current.Some? {
      SweepOnlyMarks(w.db, scope, DueThresholds(w.cfg), previous.value, current.value, now);
    }
  }

  /** Announcing touches nothing but the marks and the restriction. */
  lemma AnnounceFrame(w: World, now: int, before: Snapshot)
    ensures var v := Announce(w, now, before).world;
            v == w.(reason := v.reason, level := v.level, db := w.db.(marks := v.db.marks))
  {
    WarnOnlyMarks(w, now, before);
  }

  lemma {:induction false} MarkLandingOnlyMarks(db: Tables, g: nat, ts: seq<int>, remaining: real, now: int)
    ensures var v := MarkLanding(db, g, ts, remaining, now);
            v == db.(marks := v.marks)
  {
    if ts != [] {
      MarkLandingOnlyMarks(db, g, ts[..|ts| - 1], remaining, now);
    }
  }

  lemma ApplyAdjustmentOnlyTimer(w: World, seconds: int, now: int)
    ensures var v := ApplyAdjustment(w, seconds, now);
            v == w.(timer := AdjustedTimer(w.timer, seconds),
                    db := SaveTimer(w.db, AdjustedTimer(w.timer, seconds)).(marks := v.db.marks))
  {
    var timer := AdjustedTimer(w.timer, seconds);
    if timer.generation.Some? {
      MarkLandingOnlyMarks(ClearScope(SaveTimer(w.db, timer), OfTimer(timer.generation.value)),
                           timer.generation.value, Thresholds(w.cfg.thresholdMinutes), timer.remaining, now);
    }
  }

  lemma AccountFrame(w: World, seconds: real, start: int, end: int, record: bool)
    ensures var v := Account(w, seconds, start, end, record);
            v == w.(played := v.played, duration := v.duration, pending := v.pending)
  { }

  /** What accounting and the daily roll may change. */
  ghost predicate OnlyAccounts(w: World, v: World) {
    && w.db.nextId <= v.db.nextId
    && v == w.(db := w.db.(sessions := v.db.sessions, adjustments := v.db.adjustments, marks := v.db.marks,
                        buckets := v.db.buckets, nextId := v.db.nextId),
            day := v.day, played := v.played, session := v.session, duration := v.duration,
            lastCheckpoint := v.lastCheckpoint, pending := v.pending)
  }

  lemma RollFrame(w: World, at: int, newDay: int, mono: real)
    ensures OnlyAccounts(w, RollDay(w, at, newDay, mono).world)
    ensures var v := RollDay(w, at, newDay, mono).world;
            && v.day == newDay
            && v.db.marks ==
               (map m | m in w.db.marks && Cutoff(w.cfg.retentionDays, at) <= w.db.marks[m] :: w.db.marks[m])
            && v.lastCheckpoint == (if w.game.Some? && w.session.Some? then mono else w.lastCheckpoint)
  { }

  lemma AdvanceFrame(w: World, r: Reading)
    ensures OnlyAccounts(w, Advance(w, r).world)
    ensures var v := Advance(w, r).world;
            && v.day == DayOf(w.cfg, r.now)
            && v.db.marks == if v.day == w.day then w.db.marks
                             else map m | m in w.db.marks
                                          && Cutoff(w.cfg.retentionDays, DayStart(w.cfg, v.day)) <= w.db.marks[m]
                                        :: w.db.marks[m]
  {
    var newDay := DayOf(w.cfg, r.now);
    if newDay == w.day {
      AccountFrame(w, MonoDelta(w, r), w.lastWall, r.now, Reliable(w, r));
    } else {
      var boundary := DayStart(w.cfg, newDay);
      var split := SplitElapsed(MonoDelta(w, r), w.lastWall, r.now, boundary);
      var before := AccountUnlessSuspended(w, split.0, w.lastWall, boundary, Reliable(w, r));
      AccountFrame(w, split.0, w.lastWall, boundary, Reliable(w, r));
      RollFrame(before, boundary, newDay, r.mono);
      AccountFrame(RollDay(before, boundary, newDay, r.mono).world, split.1, boundary, r.now, Reliable(w, r));
    }
  }

  lemma NoteClockFrame(w: World, r: Reading)
    ensures var v := NoteClock(w, r).world;
            v == w.(lastOffset := v.lastOffset)
  { }

  /** Settling concerns the timer on the one hand and the saved session and slices on the other. */
  lemma SettleFrame(w: World, elapsed: real, mono: real)
    ensures var v := Settle(w, elapsed, mono).world;
            var timed := PersistTimer(RunTimer(w, elapsed).world, mono);
            var saved := PersistSession(w, mono);
            && v == w.(db := w.db.(sessions := v.db.sessions, buckets := v.db.buckets, timer := v.db.timer),
                       timer := v.timer, lastCheckpoint := v.lastCheckpoint, lastPersist := v.lastPersist,
                       pending := v.pending)
            && v.timer == timed.timer && v.db.timer == timed.db.timer && v.lastPersist == timed.lastPersist
            && v.db.sessions == saved.db.sessions && v.db.buckets == saved.db.buckets
            && v.lastCheckpoint == saved.lastCheckpoint && v.pending == saved.pending
  {
    var t := RunTimer(w, elapsed).world;
    assert t == w.(timer := t.timer, db := w.db.(timer := t.db.timer));
  }

  /** Apart from running and saving it, what elapses in a tick leaves the timer alone; of the marks it
      forgets those that a daily roll finds too old. */
  lemma ElapseFrame(w: World, r: Reading)
    ensures var v := Elapse(w, r).world;
            && RunsTimer(w, v, MonoDelta(w, r), r.mono)
            && v.cfg == w.cfg && w.db.nextId <= v.db.nextId && v.day == DayOf(w.cfg, r.now)
            && v.db.marks == if v.day == w.day then w.db.marks
                             else map m | m in w.db.marks
                                          && Cutoff(w.cfg.retentionDays, DayStart(w.cfg, v.day)) <= w.db.marks[m]
                                        :: w.db.marks[m]
  {
    NoteClockFrame(w, r);
    var clock := NoteClock(w, r).world;
    AdvanceFrame(clock, r);
    var advanced := Advance(clock, r).world;
    var elapsed := MonoDelta(w, r);
    SettleFrame(advanced, elapsed, r.mono);
    RunTimerSame(w, advanced, elapsed, r.mono);
  }

  /** The timer, its stored copy and the time of its last saving after `elapsed` seconds. */
  ghost predicate RunsTimer(w: World, v: World, elapsed: real, mono: real) {
    var timed := PersistTimer(RunTimer(w, elapsed).world, mono);
    && v.timer == timed.timer && v.db.timer == timed.db.timer && v.lastPersist == timed.lastPersist
    && v.timer == RunTimer(w, elapsed).world.timer
    && (v.db.timer == w.db.timer || v.db.timer == SaveTimer(w.db, v.timer).timer)
  }

  lemma RunTimerSame(w: World, v: World, elapsed: real, mono: real)
    requires v.timer == w.timer && v.suspended == w.suspended && v.game == w.game && v.cfg == w.cfg
    requires v.db.timer == w.db.timer && v.lastPersist == w.lastPersist
    ensures RunsTimer(w, PersistTimer(RunTimer(v, elapsed).world, mono), elapsed, mono)
  { }

  lemma TickTimerFrame(w: World, r: Reading)
    ensures var v := Tick(w, r).world;
            RunsTimer(w, v, MonoDelta(w, r), r.mono) && v.cfg == w.cfg && w.db.nextId <= v.db.nextId
  {
    ElapseFrame(w, r);
    AnnounceFrame(Elapse(w, r).world, r.now, TakeSnapshot(w, r.now));
  }

  /** No warning and no change of the restriction among the events. */
  ghost predicate Quiet(es: seq<Event>) {
    forall i :: 0 <= i < |es| ==> !es[i].Warning? && !es[i].RestrictionChanged?
  }

  lemma QuietConcat(a: seq<Event>, b: seq<Event>)
    requires Quiet(a) && Quiet(b)
    ensures Quiet(a + b)
  { }

  lemma AdvanceQuiet(w: World, r: Reading)
    ensures Quiet(Advance(w, r).events)
  { }

  lemma ClockAndTimerQuiet(w: World, r: Reading, v: World, elapsed: real, mono: real)
    ensures Quiet(NoteClock(w, r).events) && Quiet(Settle(v, elapsed, mono).events)
  { }

  /** Whatever elapses, it is only the announcement after it that warns and changes the restriction. */
  lemma ElapseQuiet(w: World, r: Reading)
    ensures Quiet(Elapse(w, r).events)
  {
    var clock := NoteClock(w, r);
    var advanced := Advance(clock.world, r);
    var settled := Settle(advanced.world, MonoDelta(w, r), r.mono);
    AdvanceQuiet(clock.world, r);
    ClockAndTimerQuiet(w, r, advanced.world, MonoDelta(w, r), r.mono);
    QuietConcat(clock.events, advanced.events);
    QuietConcat(clock.events + advanced.events, settled.events);
  }

  lemma SwitchConfigFrame(t: World, c: Config, r: Reading)
    ensures OnlyAccounts(t.(cfg := c), SwitchConfig(t, c, r).world)
    ensures SwitchConfig(t, c, r).world.day == DayOf(c, r.now)
  { }

  lemma UpdateConfigTailFrame(t: World, c: Config, r: Reading)
    ensures var switched := SwitchConfig(t, c, r).world;
            var v := UpdateConfigTail(t, c, r).world;
            v == switched.(reason := v.reason, level := v.level, db := switched.db.(marks := v.db.marks))
  {
    var switched := SwitchConfig(t, c, r).world;
    var before := TakeSnapshot(t, r.now);
    var rearmed := Rearm(switched, r.now, before);
    assert rearmed == switched.(db := switched.db.(marks := rearmed.db.marks));
    AnnounceFrame(rearmed, r.now, before);
  }

  lemma ResumeFrame(w: World, r: Reading)
    ensures var v := Resume(w, r).world;
            && OnlyAccounts(w.(lastWall := r.now, lastMono := r.mono, suspended := v.suspended), v)
            && v.day == DayOf(w.cfg, r.now)
  {
    RollFrame(w.(lastWall := r.now, lastMono := r.mono), r.now, DayOf(w.cfg, r.now), r.mono);
  }

  /** What opening and closing sessions may change. */
  ghost predicate OnlySessions(w: World, v: World) {
    && w.db.nextId <= v.db.nextId
    && v == w.(db := w.db.(sessions := v.db.sessions, buckets := v.db.buckets, nextId := v.db.nextId),
            game := v.game, session := v.session, duration := v.duration,
            lastCheckpoint := v.lastCheckpoint, pending := v.pending)
  }

  lemma CloseCurrentFrame(w: World, at: int)
    ensures OnlySessions(w, CloseCurrent(w, at).world)
  { }

  lemma SetGameTailFrame(t: World, g: Game, r: Reading)
    ensures OnlySessions(t, SetGameTail(t, g, r).world)
  {
    CloseCurrentFrame(t, r.now);
    var c := if t.game.Some? then CloseCurrent(t, r.now).world else t;
    var b := BeginSession(c, g, r.mono).world;
    assert OnlySessions(c, b);
  }

  lemma StopGameTailFrame(t: World, r: Reading)
    ensures var v := StopGameTail(t, r).world;
            OnlySessions(t.(reason := v.reason, level := v.level), v)
  { }

  lemma ShutdownTailFrame(t: World, r: Reading)
    ensures var v := ShutdownTail(t, r).world;
            && OnlySessions(t.(db := t.db.(timer := v.db.timer)), v)
            && v.db.timer == if t.timer.state == Running then SaveTimer(t.db, t.timer).timer else t.db.timer
  { }
}
