/** Runs on a wall clock that does not go back: daily rolls then open days that are new to the table, and
    the cache of today's play is right without any condition on retention. */
module OnwardLaws {
  import opened Zones
  import opened Schedule
  import opened Records
  import opened Storage
  import opened Engine
  import opened Frames
  import opened SessionLaws

  /** No row belongs to a day after the current one, and the current day is that of the last reading. */
  ghost predicate UpToDate(w: World) {
    w.day == DayOf(w.cfg, w.lastWall) && DaysUpTo(w.db.sessions, w.day)
  }

  ghost predicate DaysUpTo(rows: seq<Session>, day: int) {
    forall i :: 0 <= i < |rows| ==> rows[i].day <= day
  }

  /** Settings with the same accounting days. */
  predicate SameDays(c: Config, e: Config) { c.zone == e.zone && c.reset == e.reset }

  /** The wall clock does not go back, and the zone and the reset clock stay as they are. */
  ghost predicate Onward(w: World, c: Command, r: Reading) {
    w.lastWall <= r.now && (c.DoUpdateConfig? || c.DoRestart? ==> SameDays(c.config, w.cfg))
  }

  ghost predicate OnwardDays(c: Config) {
    WellSpaced(c.zone) && ValidReset(c.reset) && NeverRepeated(c.zone, c.reset)
  }

  lemma {:induction false} NothingLaterExpires(rows: seq<Session>, day: int, cutoff: int)
    requires forall i :: 0 <= i < |rows| ==> rows[i].day < day
    ensures ExpiredUsage(rows, day, cutoff) == 0.0
  {
    if rows != [] {
      var n := |rows| - 1;
      assert forall i :: 0 <= i < n ==> rows[..n][i] == rows[i];
      NothingLaterExpires(rows[..n], day, cutoff);
    }
  }

  lemma RotatedDays(w: World, at: int, newDay: int, mono: real)
    requires DaysUpTo(w.db.sessions, w.day) && w.day <= newDay
    ensures DaysUpTo(RotateSession(w, at, newDay, mono).world.db.sessions, newDay)
  { }

  lemma RetainedDays(rows: seq<Session>, cutoff: int, day: int)
    requires NonNegative(rows) && DaysUpTo(rows, day)
    ensures DaysUpTo(RetainSessions(rows, cutoff), day)
  {
    RetentionShape(rows, cutoff);
    var kept := RetainSessions(rows, cutoff);
    forall i | 0 <= i < |kept| ensures kept[i].day <= day {
      assert kept[i] in rows;
    }
  }

  lemma RolledDays(w: World, at: int, newDay: int, mono: real)
    requires Linked(w) && DaysUpTo(w.db.sessions, w.day) && w.day <= newDay
    ensures DaysUpTo(RollDay(w, at, newDay, mono).world.db.sessions, newDay)
  {
    RotateBooks(w, at, newDay, mono, 0);
    RotatedDays(w, at, newDay, mono);
    RetainedDays(RotateSession(w, at, newDay, mono).world.db.sessions, Cutoff(w.cfg.retentionDays, at), newDay);
  }

  lemma AdvancedDays(w: World, r: Reading)
    requires Linked(w) && 0 <= w.cfg.retentionDays
    requires DaysUpTo(w.db.sessions, w.day) && w.day <= DayOf(w.cfg, r.now)
    ensures DaysUpTo(Advance(w, r).world.db.sessions, DayOf(w.cfg, r.now))
  {
    var newDay := DayOf(w.cfg, r.now);
    if newDay != w.day {
      var boundary := DayStart(w.cfg, newDay);
      var split := SplitElapsed(MonoDelta(w, r), w.lastWall, r.now, boundary);
      AccountBooks(w, split.0, w.lastWall, boundary, Reliable(w, r), 0);
      RolledDays(AccountUnlessSuspended(w, split.0, w.lastWall, boundary, Reliable(w, r)), boundary, newDay, r.mono);
    }
  }

  lemma SettledDays(w: World, elapsed: real, mono: real, day: int)
    requires DaysUpTo(w.db.sessions, day)
    ensures DaysUpTo(Settle(w, elapsed, mono).world.db.sessions, day)
  {
    SettleFrame(w, elapsed, mono);
  }

  lemma TickedDays(w: World, r: Reading)
    requires Linked(w) && 0 <= w.cfg.retentionDays
    requires DaysUpTo(w.db.sessions, w.day) && w.day <= DayOf(w.cfg, r.now)
    ensures DaysUpTo(Tick(w, r).world.db.sessions, DayOf(w.cfg, r.now))
  {
    NoteClockBooks(w, r, 0);
    var clock := NoteClock(w, r).world;
    AdvancedDays(clock, r);
    SettledDays(Advance(clock, r).world, MonoDelta(w, r), r.mono, DayOf(w.cfg, r.now));
    AnnounceFrame(Elapse(w, r).world, r.now, TakeSnapshot(w, r.now));
  }

  lemma DayGoesOn(w: World, r: Reading)
    requires UpToDate(w) && OnwardDays(w.cfg) && w.lastWall <= r.now
    ensures w.day <= DayOf(w.cfg, r.now)
    ensures forall cutoff :: w.day < DayOf(w.cfg, r.now) ==>
                               ExpiredUsage(w.db.sessions, DayOf(w.cfg, r.now), cutoff) == 0.0
  {
    AccountingDayMonotone(w.cfg.zone, w.cfg.reset, w.lastWall, r.now);
    forall cutoff | w.day < DayOf(w.cfg, r.now)
      ensures ExpiredUsage(w.db.sessions, DayOf(w.cfg, r.now), cutoff) == 0.0
    {
      NothingLaterExpires(w.db.sessions, DayOf(w.cfg, r.now), cutoff);
    }
  }

  lemma TickUpToDate(w: World, r: Reading)
    requires Linked(w) && 0 <= w.cfg.retentionDays && UpToDate(w) && OnwardDays(w.cfg) && w.lastWall <= r.now
    ensures UpToDate(Tick(w, r).world) && Purged(w, r, DayOf(w.cfg, r.now)) == 0.0
  {
    DayGoesOn(w, r);
    TickBooks(w, r, 0);
    TickedDays(w, r);
  }

  lemma ClosedDays(w: World, at: int, day: int)
    requires DaysUpTo(w.db.sessions, day)
    ensures DaysUpTo(CloseCurrent(w, at).world.db.sessions, day)
  { }

  lemma SetGameUpToDate(t: World, g: Game, r: Reading)
    requires UpToDate(t)
    ensures UpToDate(SetGameTail(t, g, r).world)
  {
    SetGameTailFrame(t, g, r);
    ClosedDays(t, r.now, t.day);
  }

  lemma StopGameUpToDate(t: World, r: Reading)
    requires UpToDate(t)
    ensures UpToDate(StopGameTail(t, r).world)
  {
    StopGameTailFrame(t, r);
    ClosedDays(t, r.now, t.day);
  }

  lemma ShutdownUpToDate(t: World, r: Reading)
    requires UpToDate(t)
    ensures UpToDate(ShutdownTail(t, r).world)
  {
    ShutdownTailFrame(t, r);
    if t.session.Some? {
      ClosedDays(t.(db := CheckpointSession(t.db, t.session.value, t.duration)), r.now, t.day);
    }
  }

  lemma UpdateConfigUpToDate(t: World, c: Config, r: Reading)
    requires UpToDate(t) && SameDays(c, t.cfg) && DayOf(t.cfg, r.now) == t.day
    ensures UpToDate(UpdateConfigTail(t, c, r).world)
  {
    UpdateConfigTailFrame(t, c, r);
  }

  lemma TimerTailUpToDate(t: World, c: Command, r: Reading)
    requires UpToDate(t) && TimerCommand(c)
    ensures UpToDate(Tail(t, c, r).world)
  {
    TimerTailBooks(t, c, r);
    match c
    case DoAdjustTimer(s) =>
      ApplyAdjustmentOnlyTimer(t, s, r.now);
      AnnounceFrame(ApplyAdjustment(t, s, r.now), r.now, TakeSnapshot(t, r.now));
    case DoGrant(s, reason) =>
      AnnounceFrame(ApplyGrant(t, s, r.now), r.now, TakeSnapshot(t, r.now));
    case _ =>
  }

  lemma TailUpToDate(t: World, c: Command, r: Reading)
    requires UpToDate(t) && TicksFirst(c) && DayOf(t.cfg, r.now) == t.day
    requires c.DoUpdateConfig? ==> SameDays(c.config, t.cfg)
    ensures UpToDate(Tail(t, c, r).world)
  {
    if TimerCommand(c) {
      TimerTailUpToDate(t, c, r);
    } else {
      match c
      case DoSetGame(g) => SetGameUpToDate(t, g, r);
      case DoStopGame => StopGameUpToDate(t, r);
      case DoUpdateConfig(cfg) => UpdateConfigUpToDate(t, cfg, r);
      case DoShutdown => ShutdownUpToDate(t, r);
    }
  }

  lemma ResumeUpToDate(w: World, r: Reading)
    requires Linked(w) && 0 <= w.cfg.retentionDays && UpToDate(w) && w.day <= DayOf(w.cfg, r.now)
    ensures UpToDate(Resume(w, r).world)
  {
    ResumeFrame(w, r);
    var base := w.(lastWall := r.now, lastMono := r.mono);
    if DayOf(w.cfg, r.now) != w.day {
      SameBooks(w, base, 0);
      RolledDays(base, r.now, DayOf(w.cfg, r.now), r.mono);
    }
  }

  lemma StartupUpToDate(db: Tables, c: Config, r: Reading)
    requires DaysUpTo(db.sessions, DayOf(c, r.now))
    ensures UpToDate(Startup(db, c, r).world)
  {
    var open := FindOpen(db.sessions);
    if open.Some? {
      assert DaysUpTo(CloseRows(db.sessions, open.value.id, open.value.duration, r.now), DayOf(c, r.now));
    }
  }

  /** On a clock that does not go back, in a zone that does not repeat the reset clock, every daily roll
      opens a day that no row belongs to yet, so that retention has nothing of it to remove. */
  lemma StepUpToDate(w: World, c: Command, r: Reading)
    requires Linked(w) && 0 <= w.cfg.retentionDays && UpToDate(w) && OnwardDays(w.cfg) && Onward(w, c, r)
    ensures UpToDate(Step(w, c, r).world) && SparesToday(w, c, r)
  {
    DayGoesOn(w, r);
    if TicksFirst(c) {
      TickUpToDate(w, r);
      TickBooks(w, r, 0);
      TailUpToDate(Tick(w, r).world, c, r);
    } else {
      UntickedUpToDate(w, c, r);
    }
  }

  lemma UntickedUpToDate(w: World, c: Command, r: Reading)
    requires Linked(w) && 0 <= w.cfg.retentionDays && UpToDate(w) && Onward(w, c, r) && !TicksFirst(c)
    requires w.day <= DayOf(w.cfg, r.now)
    ensures UpToDate(Proper(w, c, r).world)
  {
    if c.DoResume? {
      ResumeUpToDate(w, r);
    } else if c.DoRestart? {
      StartupUpToDate(w.db, c.config, r);
    } else {
      RestUpToDate(w, c, r);
    }
  }

  /** Clearing the history, and turning down a malformed game. */
  lemma RestUpToDate(w: World, c: Command, r: Reading)
    requires UpToDate(w) && (c.DoPurge? || (c.DoSetGame? && !TicksFirst(c)))
    ensures UpToDate(Proper(w, c, r).world)
  { }

  lemma StepKeepsDays(w: World, c: Command, r: Reading)
    requires Onward(w, c, r)
    ensures SameDays(Step(w, c, r).world.cfg, w.cfg)
  {
    if TicksFirst(c) {
      TickTimerFrame(w, r);
      TailKeepsDays(Tick(w, r).world, c, r);
    } else {
      UntickedKeepsDays(w, c, r);
    }
  }

  lemma UntickedKeepsDays(w: World, c: Command, r: Reading)
    requires !TicksFirst(c) && (c.DoRestart? ==> SameDays(c.config, w.cfg))
    ensures SameDays(Proper(w, c, r).world.cfg, w.cfg)
  {
    if c.DoResume? {
      ResumeFrame(w, r);
    }
  }

  lemma TailKeepsDays(t: World, c: Command, r: Reading)
    requires TicksFirst(c) && (c.DoUpdateConfig? ==> SameDays(c.config, t.cfg))
    ensures SameDays(Tail(t, c, r).world.cfg, t.cfg)
  {
    if TimerCommand(c) {
      TimerTailBooks(t, c, r);
    } else {
      match c
      case DoSetGame(g) => SetGameTailFrame(t, g, r);
      case DoStopGame => StopGameTailFrame(t, r);
      case DoUpdateConfig(cfg) => SwitchConfigFrame(t, cfg, r); UpdateConfigTailFrame(t, cfg, r);
      case DoShutdown => ShutdownTailFrame(t, r);
    }
  }

  ghost predicate OnwardState(w: World) {
    Linked(w) && 0 <= w.cfg.retentionDays && UpToDate(w) && OnwardDays(w.cfg)
  }

  lemma StepOnward(w: World, c: Command, r: Reading)
    requires OnwardState(w) && ValidCommand(c) && Onward(w, c, r)
    ensures OnwardState(Step(w, c, r).world) && SparesToday(w, c, r)
  {
    StepBooks(w, c, r);
    StepUpToDate(w, c, r);
    StepKeepsDays(w, c, r);
  }

  ghost predicate OnwardRun(w: World, run: seq<Input>) {
    run == [] ||
    var prefix, last := run[..|run| - 1], run[|run| - 1];
    OnwardRun(w, prefix) && Onward(After(w, prefix), last.command, last.at)
  }

  lemma {:induction false} RunOnward(w: World, run: seq<Input>)
    requires OnwardState(w) && ValidRun(run) && OnwardRun(w, run)
    ensures OnwardState(After(w, run)) && RunSparesToday(w, run)
  {
    if run != [] {
      var prefix, last := run[..|run| - 1], run[|run| - 1];
      assert forall i :: 0 <= i < |prefix| ==> prefix[i] == run[i];
      RunOnward(w, prefix);
      StepOnward(After(w, prefix), last.command, last.at);
    }
  }

  /** On a clock that does not go back the cache of today's play is right in every reachable state,
      without any condition on retention. */
  lemma OnwardReachableBooks(c: Config, r: Reading, run: seq<Input>)
    requires ValidConfig(c) && ValidRun(run) && OnwardDays(c) && OnwardRun(Begin(c, r), run)
    ensures var v := After(Begin(c, r), run);
            Linked(v) && CacheAgrees(v)
  {
    StartupBooks(EMPTY_TABLES, c, r, 0);
    StartupUpToDate(EMPTY_TABLES, c, r);
    RunOnward(Begin(c, r), run);
    ReachableBooks(c, r, run);
  }
}
