/** Play that is over stays in the history as it was, until it is too old or the history is cleared. */
module HistoryLaws {
  import opened Records
  import opened Storage
  import opened Engine
  import opened Frames
  import opened SessionLaws

  /** The row ended more than `days` days before `at`, counted in microseconds. */
  predicate EndedBefore(row: Session, days: int, at: int) {
    row.ended.Some? && row.ended.value < at - days * 86_400_000_000
  }

  /** Every closed row is still there, except those that ended too long ago. */
  ghost predicate KeptSince(rows: seq<Session>, after: seq<Session>, days: int, at: int) {
    forall row :: row in rows && row.ended.Some? ==> row in after || EndedBefore(row, days, at)
  }

  ghost predicate Kept(rows: seq<Session>, after: seq<Session>) {
    forall row :: row in rows && row.ended.Some? ==> row in after
  }

  lemma ClosingKeeps(rows: seq<Session>, id: nat, duration: real, at: int)
    ensures Kept(rows, CloseRows(rows, id, duration, at))
  {
    var after := CloseRows(rows, id, duration, at);
    forall row | row in rows && row.ended.Some? ensures row in after {
      var i :| 0 <= i < |rows| && rows[i] == row;
      assert after[i] == row;
    }
  }

  lemma SavingKeeps(rows: seq<Session>, id: nat, duration: real)
    ensures Kept(rows, CheckpointRows(rows, id, duration))
  {
    var after := CheckpointRows(rows, id, duration);
    forall row | row in rows && row.ended.Some? ensures row in after {
      var i :| 0 <= i < |rows| && rows[i] == row;
      assert after[i] == row;
    }
  }

  lemma RotatingKeeps(w: World, at: int, newDay: int, mono: real)
    ensures Kept(w.db.sessions, RotateSession(w, at, newDay, mono).world.db.sessions)
  {
    if w.session.Some? {
      ClosingKeeps(w.db.sessions, w.session.value, w.duration, at);
    }
  }

  lemma RollingKeeps(w: World, at: int, newDay: int, mono: real)
    requires Linked(w)
    ensures KeptSince(w.db.sessions, RollDay(w, at, newDay, mono).world.db.sessions, w.cfg.retentionDays, at)
  {
    RotatingKeeps(w, at, newDay, mono);
    RotateBooks(w, at, newDay, mono, 0);
    RetentionShape(RotateSession(w, at, newDay, mono).world.db.sessions, Cutoff(w.cfg.retentionDays, at));
  }

  /** Whether a tick's roll finds the row too old. */
  predicate TickDrops(w: World, r: Reading, row: Session) {
    var newDay := DayOf(w.cfg, r.now);
    newDay != w.day && EndedBefore(row, w.cfg.retentionDays, DayStart(w.cfg, newDay))
  }

  lemma AdvancingKeeps(w: World, r: Reading)
    requires Linked(w) && 0 <= w.cfg.retentionDays
    ensures forall row :: row in w.db.sessions && row.ended.Some? ==>
                            row in Advance(w, r).world.db.sessions || TickDrops(w, r, row)
  {
    var newDay := DayOf(w.cfg, r.now);
    if newDay != w.day {
      var boundary := DayStart(w.cfg, newDay);
      var split := SplitElapsed(MonoDelta(w, r), w.lastWall, r.now, boundary);
      AccountBooks(w, split.0, w.lastWall, boundary, Reliable(w, r), 0);
      RollingKeeps(AccountUnlessSuspended(w, split.0, w.lastWall, boundary, Reliable(w, r)), boundary, newDay, r.mono);
    }
  }

  lemma SettlingKeeps(w: World, elapsed: real, mono: real)
    ensures Kept(w.db.sessions, Settle(w, elapsed, mono).world.db.sessions)
  {
    SettleFrame(w, elapsed, mono);
    if w.session.Some? {
      SavingKeeps(w.db.sessions, w.session.value, w.duration);
    }
  }

  lemma TickKeeps(w: World, r: Reading)
    requires Linked(w) && 0 <= w.cfg.retentionDays
    ensures forall row :: row in w.db.sessions && row.ended.Some? ==>
                            row in Tick(w, r).world.db.sessions || TickDrops(w, r, row)
  {
    NoteClockBooks(w, r, 0);
    var clock := NoteClock(w, r).world;
    AdvancingKeeps(clock, r);
    SettlingKeeps(Advance(clock, r).world, MonoDelta(w, r), r.mono);
    AnnounceFrame(Elapse(w, r).world, r.now, TakeSnapshot(w, r.now));
    assert forall row :: TickDrops(clock, r, row) == TickDrops(w, r, row);
  }

  lemma CurrentClosingKeeps(w: World, at: int)
    ensures Kept(w.db.sessions, CloseCurrent(w, at).world.db.sessions)
  {
    if w.session.Some? {
      ClosingKeeps(w.db.sessions, w.session.value, w.duration, at);
    }
  }

  lemma SetGameKeeps(t: World, g: Game, r: Reading)
    ensures Kept(t.db.sessions, SetGameTail(t, g, r).world.db.sessions)
  {
    CurrentClosingKeeps(t, r.now);
  }

  lemma ShutdownKeeps(t: World, r: Reading)
    ensures Kept(t.db.sessions, ShutdownTail(t, r).world.db.sessions)
  {
    if t.session.Some? {
      var saved := t.(db := CheckpointSession(t.db, t.session.value, t.duration));
      SavingKeeps(t.db.sessions, t.session.value, t.duration);
      CurrentClosingKeeps(saved, r.now);
    }
  }

  /** Whether taking over settings rolls the day and finds the row too old. */
  predicate SwitchDrops(t: World, c: Config, now: int, row: Session) {
    DayOf(c, now) != t.day && EndedBefore(row, c.retentionDays, now)
  }

  lemma UpdateKeeps(t: World, c: Config, r: Reading)
    requires Linked(t)
    ensures forall row :: row in t.db.sessions && row.ended.Some? ==>
                            row in UpdateConfigTail(t, c, r).world.db.sessions || SwitchDrops(t, c, r.now, row)
  {
    SameBooks(t, t.(cfg := c), 0);
    UpdateConfigTailFrame(t, c, r);
    if DayOf(c, r.now) != t.day {
      RollingKeeps(t.(cfg := c), r.now, DayOf(c, r.now), r.mono);
    }
  }

  lemma ResumeKeeps(w: World, r: Reading)
    requires Linked(w)
    ensures forall row :: row in w.db.sessions && row.ended.Some? ==>
                            row in Resume(w, r).world.db.sessions || SwitchDrops(w, w.cfg, r.now, row)
  {
    var base := w.(lastWall := r.now, lastMono := r.mono);
    SameBooks(w, base, 0);
    if DayOf(w.cfg, r.now) != w.day {
      RollingKeeps(base, r.now, DayOf(w.cfg, r.now), r.mono);
    }
  }

  lemma StartupKeeps(db: Tables, c: Config, r: Reading)
    ensures Kept(db.sessions, Startup(db, c, r).world.db.sessions)
  {
    var open := FindOpen(db.sessions);
    if open.Some? {
      ClosingKeeps(db.sessions, open.value.id, open.value.duration, r.now);
    }
  }

  /** Whether the command, without its tick, removes the closed row. */
  predicate Drops(t: World, c: Command, r: Reading, row: Session) {
    match c
    case DoPurge => !AnyOpen(t.db.sessions)
    case DoResume => SwitchDrops(t, t.cfg, r.now, row)
    case DoUpdateConfig(cfg) => SwitchDrops(t, cfg, r.now, row)
    case _ => false
  }

  ghost predicate ProperKeepsRows(t: World, c: Command, r: Reading) {
    forall row :: row in t.db.sessions && row.ended.Some? ==>
                    row in Proper(t, c, r).world.db.sessions || Drops(t, c, r, row)
  }

  lemma ProperKeeps(t: World, c: Command, r: Reading)
    requires Linked(t)
    ensures ProperKeepsRows(t, c, r)
  {
    if TimerCommand(c) {
      TimerTailBooks(t, c, r);
    } else if c.DoSetGame? {
      SetGameKeeps(t, c.game, r);
    } else if c.DoStopGame? {
      CurrentClosingKeeps(t, r.now);
    } else if c.DoShutdown? {
      ShutdownKeeps(t, r);
    } else if c.DoUpdateConfig? {
      UpdateKeeps(t, c.config, r);
    } else if c.DoResume? {
      ResumeKeeps(t, r);
    } else if c.DoRestart? {
      StartupKeeps(t.db, c.config, r);
    }
  }

  /** Whether an input removes the closed row. */
  predicate InputDrops(w: World, c: Command, r: Reading, row: Session) {
    (TicksFirst(c) && TickDrops(w, r, row)) || Drops(Ticked(w, c, r).world, c, r, row)
  }

  /** A closed row stays in the table as it is, with its day, its game, its end and its duration, whatever
      is done to the daemon, unless the history is cleared or a daily roll finds it too old. */
  lemma StepKeepsHistory(w: World, c: Command, r: Reading, row: Session)
    requires Linked(w) && 0 <= w.cfg.retentionDays
    requires row in w.db.sessions && row.ended.Some? && !InputDrops(w, c, r, row)
    ensures row in Step(w, c, r).world.db.sessions
  {
    var t := Ticked(w, c, r).world;
    if TicksFirst(c) {
      TickKeeps(w, r);
      TickBooks(w, r, 0);
    }
    ProperKeeps(t, c, r);
    StepFromTicked(w, c, r);
  }

  lemma StepFromTicked(w: World, c: Command, r: Reading)
    ensures Step(w, c, r).world == Proper(Ticked(w, c, r).world, c, r).world
  { }

  ghost predicate NeverDropped(w: World, run: seq<Input>, row: Session) {
    run == [] ||
    var prefix, last := run[..|run| - 1], run[|run| - 1];
    NeverDropped(w, prefix, row) && !InputDrops(After(w, prefix), last.command, last.at, row)
  }

  lemma {:induction false} RunKeepsHistory(w: World, run: seq<Input>, row: Session)
    requires Linked(w) && 0 <= w.cfg.retentionDays && ValidRun(run)
    requires row in w.db.sessions && row.ended.Some? && NeverDropped(w, run, row)
    ensures row in After(w, run).db.sessions
  {
    if run != [] {
      var prefix, last := run[..|run| - 1], run[|run| - 1];
      assert forall i :: 0 <= i < |prefix| ==> prefix[i] == run[i];
      RunKeepsHistory(w, prefix, row);
      RunBooks(w, prefix);
      StepKeepsHistory(After(w, prefix), last.command, last.at, row);
    }
  }
}
