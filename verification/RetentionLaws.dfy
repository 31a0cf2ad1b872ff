/** What retention keeps, with the instants and days spelled out. */
module RetentionLaws {
  import opened Basics
  import opened Records
  import opened Storage
  import opened Engine
  import opened Frames
  import opened SessionLaws
  import opened HistoryLaws

  lemma {:induction false} RetainedBuckets(rows: Buckets, cutoffDay: int)
    ensures forall b :: b in RetainBuckets(rows, cutoffDay) <==> b in rows && cutoffDay <= b.day
  {
    if rows != [] {
      RetainedBuckets(rows[1..], cutoffDay);
      assert rows == [rows[0]] + rows[1..];
    }
  }

  /** Of a table's rows exactly these stay: open sessions, and those that ended at `days` days before `at` or
      later; adjustments granted and marks made then or later; and slices of days that are not before the
      UTC date of `at` less `days`. The timer is not touched. */
  lemma RetentionExact(db: Tables, days: int, at: int)
    requires NonNegative(db.sessions)
    ensures var v := EnforceRetention(db, days, at);
            && (forall s: Session :: s in v.sessions <==>
                  s in db.sessions && (s.ended.None? || at - days * 86_400_000_000 <= s.ended.value))
            && (forall a :: a in v.adjustments <==> a in db.adjustments && at - days * 86_400_000_000 <= a.granted)
            && (forall m :: m in v.marks <==> m in db.marks && at - days * 86_400_000_000 <= db.marks[m])
            && (forall m :: m in v.marks ==> v.marks[m] == db.marks[m])
            && (forall b :: b in v.buckets <==> b in db.buckets && at / 86_400_000_000 - days <= b.day)
            && v.timer == db.timer && v.nextId == db.nextId
  {
    RetentionShape(db.sessions, Cutoff(days, at));
    RetainAdjustmentsExact(db.adjustments, Cutoff(days, at), 0);
    RetainedBuckets(db.buckets, at / 86_400_000_000 - days);
  }

  /** A daily roll does this to the tables once the session has been rotated, at the instant of the roll and
      with the configured number of days. */
  lemma RollRetains(w: World, at: int, newDay: int, mono: real)
    requires Linked(w)
    ensures var v := RollDay(w, at, newDay, mono).world.db;
            && (forall s :: s in w.db.sessions && s.ended.Some? ==>
                  (s in v.sessions <==> at - w.cfg.retentionDays * 86_400_000_000 <= s.ended.value))
            && (forall a :: a in v.adjustments <==>
                  a in w.db.adjustments && at - w.cfg.retentionDays * 86_400_000_000 <= a.granted)
            && (forall m :: m in v.marks <==>
                  m in w.db.marks && at - w.cfg.retentionDays * 86_400_000_000 <= w.db.marks[m])
            && (forall m :: m in v.marks ==> v.marks[m] == w.db.marks[m])
            && (forall b :: b in v.buckets ==> at / 86_400_000_000 - w.cfg.retentionDays <= b.day)
  {
    RotatingKeeps(w, at, newDay, mono);
    RollTables(w, at, newDay, mono);
    RetentionExact(RotateSession(w, at, newDay, mono).world.db, w.cfg.retentionDays, at);
  }

  /** A roll applies retention to the tables of the rotated session. */
  lemma RollTables(w: World, at: int, newDay: int, mono: real)
    requires Linked(w)
    ensures var rotated := RotateSession(w, at, newDay, mono).world.db;
            && NonNegative(rotated.sessions) && rotated.adjustments == w.db.adjustments && rotated.marks == w.db.marks
            && RollDay(w, at, newDay, mono).world.db == EnforceRetention(rotated, w.cfg.retentionDays, at)
  {
    RotateBooks(w, at, newDay, mono, 0);
  }

  /** A tick keeps every closed session and every adjustment as long as the day stays; when it opens another
      day, it removes exactly those from before the configured number of days ahead of that day's start. A
      mark it keeps has its old time; whatever else is marked afterwards was marked by this tick. */
  lemma TickRetains(w: World, r: Reading)
    requires Linked(w) && 0 <= w.cfg.retentionDays
    ensures var v := Tick(w, r).world.db;
            var newDay := DayOf(w.cfg, r.now);
            var oldest := DayStart(w.cfg, newDay) - w.cfg.retentionDays * 86_400_000_000;
            && (forall s: Session :: s in w.db.sessions && s.ended.Some? ==>
                  (s in v.sessions <==> newDay == w.day || oldest <= s.ended.value))
            && (forall a :: a in v.adjustments <==> a in w.db.adjustments && (newDay == w.day || oldest <= a.granted))
            && (forall m :: m in w.db.marks && (newDay == w.day || oldest <= w.db.marks[m]) ==>
                  m in v.marks && v.marks[m] == w.db.marks[m])
            && (forall m :: m in v.marks && !(m in w.db.marks && (newDay == w.day || oldest <= w.db.marks[m])) ==>
                  v.marks[m] == r.now)
  {
    ElapseRetains(w, r);
    var elapsed := Elapse(w, r).world;
    AnnounceFrame(elapsed, r.now, TakeSnapshot(w, r.now));
    AnnounceStamps(elapsed, r.now, TakeSnapshot(w, r.now));
  }

  /** Marks stay as they are, and new ones carry the time at which they are made. */
  ghost predicate Stamped(before: map<Mark, int>, after: map<Mark, int>, now: int) {
    && (forall m :: m in before ==> m in after && after[m] == before[m])
    && (forall m :: m in after && m !in before ==> after[m] == now)
  }

  lemma {:induction false} SweepStamps(db: Tables, scope: Scope, due: seq<int>, previous: real, remaining: real,
                                       now: int)
    ensures Stamped(db.marks, Sweep(db, scope, due, previous, remaining, now).db.marks, now)
  {
    if due != [] {
      SweepStamps(db, scope, due[..|due| - 1], previous, remaining, now);
    }
  }

  lemma WarnScopeStamps(w: World, scope: Scope, now: int, before: Snapshot)
    ensures Stamped(w.db.marks, WarnScope(w, scope, now, before).world.db.marks, now)
  {
    var previous := Lookup(before, scope);
    var current := Lookup(TakeSnapshot(w, now), scope);
    if previous.Some? && current.Some? {
      SweepStamps(w.db, scope, DueThresholds(w.cfg), previous.value, current.value, now);
    }
  }

  lemma AnnounceStamps(w: World, now: int, before: Snapshot)
    ensures Stamped(w.db.marks, Announce(w, now, before).world.db.marks, now)
  {
    WarnScopeStamps(w, OfTimer(if w.timer.generation.Some? then w.timer.generation.value else 0), now, before);
    var timer := if w.timer.generation.Some?
                 then WarnScope(w, OfTimer(w.timer.generation.value), now, before)
                 else Effect(w, []);
    WarnScopeStamps(timer.world, Daily(w.day), now, before);
  }

  lemma ElapseRetains(w: World, r: Reading)
    requires Linked(w) && 0 <= w.cfg.retentionDays
    ensures var v := Elapse(w, r).world.db;
            var newDay := DayOf(w.cfg, r.now);
            var oldest := DayStart(w.cfg, newDay) - w.cfg.retentionDays * 86_400_000_000;
            && (forall s: Session :: s in w.db.sessions && s.ended.Some? ==>
                  (s in v.sessions <==> newDay == w.day || oldest <= s.ended.value))
            && (forall a :: a in v.adjustments <==> a in w.db.adjustments && (newDay == w.day || oldest <= a.granted))
            && (forall m :: m in v.marks <==> m in w.db.marks && (newDay == w.day || oldest <= w.db.marks[m]))
            && (forall m :: m in v.marks ==> v.marks[m] == w.db.marks[m])
  {
    NoteClockBooks(w, r, 0);
    var clock := NoteClock(w, r).world;
    AdvanceRetains(clock, r);
    var advanced := Advance(clock, r).world;
    AdvanceBooks(clock, r, 0);
    SettleRetains(advanced, MonoDelta(w, r), r.mono);
  }

  /** Saving the open session touches no closed one. */
  lemma SettleRetains(w: World, elapsed: real, mono: real)
    requires Linked(w)
    ensures var v := Settle(w, elapsed, mono).world.db;
            && (forall s: Session :: s.ended.Some? ==> (s in v.sessions <==> s in w.db.sessions))
            && v.adjustments == w.db.adjustments && v.marks == w.db.marks
  {
    SettleFrame(w, elapsed, mono);
    PersistBooks(w, mono, 0);
    if w.session.Some? {
      SameClosed(w.db.sessions, w.duration);
    }
  }

  lemma SameClosed(rows: seq<Session>, duration: real)
    requires rows != [] && rows[|rows| - 1].ended.None?
    ensures forall s: Session :: s.ended.Some? ==> (s in WithLive(rows, duration) <==> s in rows)
  {
    assert rows == rows[..|rows| - 1] + [rows[|rows| - 1]];
  }

  lemma AdvanceRetains(w: World, r: Reading)
    requires Linked(w) && 0 <= w.cfg.retentionDays
    ensures var v := Advance(w, r).world.db;
            var newDay := DayOf(w.cfg, r.now);
            var oldest := DayStart(w.cfg, newDay) - w.cfg.retentionDays * 86_400_000_000;
            && (forall s :: s in w.db.sessions && s.ended.Some? ==>
                  (s in v.sessions <==> newDay == w.day || oldest <= s.ended.value))
            && (forall a :: a in v.adjustments <==> a in w.db.adjustments && (newDay == w.day || oldest <= a.granted))
            && (forall m :: m in v.marks <==> m in w.db.marks && (newDay == w.day || oldest <= w.db.marks[m]))
            && (forall m :: m in v.marks ==> v.marks[m] == w.db.marks[m])
  {
    var newDay := DayOf(w.cfg, r.now);
    if newDay != w.day {
      var boundary := DayStart(w.cfg, newDay);
      var split := SplitElapsed(MonoDelta(w, r), w.lastWall, r.now, boundary);
      AccountBooks(w, split.0, w.lastWall, boundary, Reliable(w, r), 0);
      RollRetains(AccountUnlessSuspended(w, split.0, w.lastWall, boundary, Reliable(w, r)), boundary, newDay, r.mono);
    }
  }

  /** Resuming into another day rolls it at the present instant, and counts from there. */
  lemma ResumeRetains(w: World, r: Reading)
    requires Linked(w)
    ensures var v := Resume(w, r).world.db;
            var oldest := r.now - w.cfg.retentionDays * 86_400_000_000;
            var sameDay := DayOf(w.cfg, r.now) == w.day;
            && (forall s: Session :: s in w.db.sessions && s.ended.Some? ==>
                  (s in v.sessions <==> sameDay || oldest <= s.ended.value))
            && (forall a :: a in v.adjustments <==> a in w.db.adjustments && (sameDay || oldest <= a.granted))
            && (forall m :: m in v.marks <==> m in w.db.marks && (sameDay || oldest <= w.db.marks[m]))
  {
    var base := w.(lastWall := r.now, lastMono := r.mono);
    SameBooks(w, base, 0);
    RollRetains(base, r.now, DayOf(w.cfg, r.now), r.mono);
  }

  /** So do new settings that put the present in another day, with their own number of days. */
  lemma UpdateRetains(t: World, c: Config, r: Reading)
    requires Linked(t)
    ensures var v := UpdateConfigTail(t, c, r).world.db;
            var oldest := r.now - c.retentionDays * 86_400_000_000;
            var sameDay := DayOf(c, r.now) == t.day;
            && (forall s: Session :: s in t.db.sessions && s.ended.Some? ==>
                  (s in v.sessions <==> sameDay || oldest <= s.ended.value))
            && (forall a :: a in v.adjustments <==> a in t.db.adjustments && (sameDay || oldest <= a.granted))
  {
    SameBooks(t, t.(cfg := c), 0);
    RollRetains(t.(cfg := c), r.now, DayOf(c, r.now), r.mono);
    UpdateConfigTailFrame(t, c, r);
  }

  // ----- the row that a roll ends

  /** A roll ends the open row at its instant, with all that was played. */
  lemma RollEndsRow(w: World, at: int, newDay: int, mono: real)
    requires Linked(w) && w.session.Some? && 0 <= w.cfg.retentionDays
    ensures var last := w.db.sessions[|w.db.sessions| - 1];
            last.(ended := Some(at), duration := w.duration) in RollDay(w, at, newDay, mono).world.db.sessions
  {
    var rows, n := w.db.sessions, |w.db.sessions| - 1;
    CloseOpen(rows, w.session.value, w.day, w.duration, at);
    RotateBooks(w, at, newDay, mono, 0);
    var rotated := RotateSession(w, at, newDay, mono).world;
    assert rotated.db.sessions[n] == rows[n].(ended := Some(at), duration := w.duration);
    RetentionShape(rotated.db.sessions, Cutoff(w.cfg.retentionDays, at));
  }

  /** The open row as the old day's part of a tick that opens a new one leaves it. */
  function EndedRow(w: World, r: Reading): Session
    requires w.db.sessions != []
  {
    w.db.sessions[|w.db.sessions| - 1].(ended := Some(DayStart(w.cfg, DayOf(w.cfg, r.now))),
                                        duration := w.duration + Credit(w, r, w.day))
  }

  /** At a tick the row ends when the new day starts, with what the tick still credits to the old one. */
  lemma TickEndsRow(w: World, r: Reading)
    requires Linked(w) && w.session.Some? && 0 <= w.cfg.retentionDays && DayOf(w.cfg, r.now) != w.day
    ensures EndedRow(w, r) in Tick(w, r).world.db.sessions
  {
    NoteClockBooks(w, r, w.day);
    var clock := NoteClock(w, r).world;
    assert EndedRow(clock, r) == EndedRow(w, r);
    AdvanceEndsRow(clock, r);
    AdvanceBooks(clock, r, 0);
    ElapseEndsRow(w, r, EndedRow(w, r));
    AnnounceFrame(Elapse(w, r).world, r.now, TakeSnapshot(w, r.now));
  }

  /** A row that has ended before a tick settles stays. */
  lemma ElapseEndsRow(w: World, r: Reading, row: Session)
    requires row.ended.Some?
    requires var advanced := Advance(NoteClock(w, r).world, r).world;
             Linked(advanced) && row in advanced.db.sessions
    ensures row in Elapse(w, r).world.db.sessions
  {
    SettleRetains(Advance(NoteClock(w, r).world, r).world, MonoDelta(w, r), r.mono);
  }

  /** What a tick does before it rolls the day. */
  lemma OldDayPart(w: World, r: Reading)
    requires Linked(w) && DayOf(w.cfg, r.now) != w.day
    ensures var boundary := DayStart(w.cfg, DayOf(w.cfg, r.now));
            var split := SplitElapsed(MonoDelta(w, r), w.lastWall, r.now, boundary);
            var v := AccountUnlessSuspended(w, split.0, w.lastWall, boundary, Reliable(w, r));
            && Linked(v) && v.db == w.db && v.session == w.session && v.cfg == w.cfg
            && (w.session.Some? ==> v.duration == w.duration + Credit(w, r, w.day))
  {
    var boundary := DayStart(w.cfg, DayOf(w.cfg, r.now));
    var split := SplitElapsed(MonoDelta(w, r), w.lastWall, r.now, boundary);
    SplitElapsedSums(MonoDelta(w, r), w.lastWall, r.now, boundary);
    AccountBooks(w, split.0, w.lastWall, boundary, Reliable(w, r), 0);
  }

  lemma AdvanceEndsRow(w: World, r: Reading)
    requires Linked(w) && w.session.Some? && 0 <= w.cfg.retentionDays && DayOf(w.cfg, r.now) != w.day
    ensures EndedRow(w, r) in Advance(w, r).world.db.sessions
  {
    OldDayPart(w, r);
    var newDay := DayOf(w.cfg, r.now);
    var boundary := DayStart(w.cfg, newDay);
    var split := SplitElapsed(MonoDelta(w, r), w.lastWall, r.now, boundary);
    var before := AccountUnlessSuspended(w, split.0, w.lastWall, boundary, Reliable(w, r));
    RollEndsRow(before, boundary, newDay, r.mono);
    NewDayRows(w, r);
    var rows := w.db.sessions;
    assert EndedRow(w, r) == rows[|rows| - 1].(ended := Some(boundary), duration := before.duration);
  }

  /** What a tick does after the roll leaves the rows alone. */
  lemma NewDayRows(w: World, r: Reading)
    requires DayOf(w.cfg, r.now) != w.day
    ensures var newDay := DayOf(w.cfg, r.now);
            var boundary := DayStart(w.cfg, newDay);
            var split := SplitElapsed(MonoDelta(w, r), w.lastWall, r.now, boundary);
            var before := AccountUnlessSuspended(w, split.0, w.lastWall, boundary, Reliable(w, r));
            Advance(w, r).world.db.sessions == RollDay(before, boundary, newDay, r.mono).world.db.sessions
  { }

  /** At a resume and under new settings it ends now. */
  lemma SwitchEndsRow(t: World, c: Config, r: Reading)
    requires Linked(t) && t.session.Some? && 0 <= c.retentionDays && 0 <= t.cfg.retentionDays
    ensures var ended := t.db.sessions[|t.db.sessions| - 1].(ended := Some(r.now), duration := t.duration);
            && (DayOf(c, r.now) != t.day ==> ended in UpdateConfigTail(t, c, r).world.db.sessions)
            && (DayOf(t.cfg, r.now) != t.day ==> ended in Resume(t, r).world.db.sessions)
  {
    var base := t.(lastWall := r.now, lastMono := r.mono);
    SameBooks(t, t.(cfg := c), 0);
    SameBooks(t, base, 0);
    RollEndsRow(t.(cfg := c), r.now, DayOf(c, r.now), r.mono);
    RollEndsRow(base, r.now, DayOf(t.cfg, r.now), r.mono);
    UpdateConfigTailFrame(t, c, r);
  }
}
