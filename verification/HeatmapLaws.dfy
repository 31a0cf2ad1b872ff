/** Conservation of heatmap time: what is pending and what is stored, against what was played. */
module HeatmapLaws {
  import opened Basics
  import opened Zones
  import opened Ledger
  import opened Records
  import opened Storage
  import opened Engine
  import opened Frames
  import opened SessionLaws
  import opened RecoveryLaws
  import Heatmap

  /** Heatmap seconds of a cell, whether still pending or already stored. */
  function Heat(w: World, c: Cell): real { Total(w.pending, c) + Total(w.db.buckets, c) }

  lemma SameHeat(w: World, v: World, c: Cell)
    requires v.pending == w.pending && v.db.buckets == w.db.buckets
    ensures Heat(v, c) == Heat(w, c)
  { }

  /** A flush moves seconds from pending to stored; no cell gains or loses any. */
  lemma FlushHeat(w: World, c: Cell)
    requires Acceptable(w.pending) && Acceptable(w.db.buckets)
    ensures Heat(Flush(w), c) == Heat(w, c) && Flush(w).pending == []
  {
    AddBucketsExact(w.db.buckets, w.pending, c);
  }

  lemma AccountHeat(w: World, seconds: real, start: int, end: int, record: bool, d: int)
    ensures Heat(Account(w, seconds, start, end, record), WholeDay(d)) ==
            Heat(w, WholeDay(d))
            + if w.game.Some? && record && start < end && d == w.day then MaxReal(0.0, seconds) else 0.0
  {
    if w.game.Some? && seconds > 0.0 && record && start < end {
      Heatmap.QueueExact(w.cfg.zone, w.game.value, w.day, start, end, seconds, w.pending, WholeDay(d));
    }
  }

  /** The bucket table after a roll: days before the retention horizon are gone, others kept. */
  function HorizonDay(c: Config, at: int): int { at / DAY - c.retentionDays }

  lemma RollHeat(w: World, at: int, newDay: int, mono: real, d: int)
    requires Linked(w)
    ensures var v := RollDay(w, at, newDay, mono).world;
            Heat(v, WholeDay(d)) == if d < HorizonDay(w.cfg, at) then 0.0 else Heat(w, WholeDay(d))
  {
    var rotated := RotateSession(w, at, newDay, mono).world;
    if w.session.Some? {
      FlushHeat(w, WholeDay(d));
      assert rotated.db.buckets == Flush(w).db.buckets && rotated.pending == [];
    }
    assert Heat(rotated, WholeDay(d)) == Heat(w, WholeDay(d)) && rotated.pending == [];
    RetentionBuckets(rotated.db.buckets, HorizonDay(w.cfg, at), d);
    RollFrame(w, at, newDay, mono);
    assert RollDay(w, at, newDay, mono).world.db.buckets == RetainBuckets(rotated.db.buckets, HorizonDay(w.cfg, at));
  }

  lemma PersistHeat(w: World, mono: real, c: Cell)
    requires Linked(w)
    ensures Heat(PersistSession(w, mono), c) == Heat(w, c)
  {
    if w.session.Some? && mono - w.lastCheckpoint >= w.cfg.checkpointSeconds as real {
      var saved := w.(db := CheckpointSession(w.db, w.session.value, w.duration));
      FlushHeat(saved, c);
      SameHeat(w, saved, c);
      SameHeat(Flush(saved), PersistSession(w, mono), c);
    }
  }

  /** Whether a tick's roll, if there is one, keeps the buckets of day `d`. */
  predicate KeepsBuckets(w: World, r: Reading, d: int) {
    var newDay := DayOf(w.cfg, r.now);
    newDay == w.day || HorizonDay(w.cfg, DayStart(w.cfg, newDay)) <= d
  }

  lemma AdvanceHeat(w: World, r: Reading, d: int)
    requires Linked(w) && 0 <= w.cfg.retentionDays
    ensures var v := Advance(w, r).world;
            var credit := if Reliable(w, r) then Credit(w, r, d) else 0.0;
            && Heat(v, WholeDay(d)) <= Heat(w, WholeDay(d)) + credit
            && (KeepsBuckets(w, r, d) ==> Heat(v, WholeDay(d)) == Heat(w, WholeDay(d)) + credit)
  {
    var newDay := DayOf(w.cfg, r.now);
    var record, elapsed := Reliable(w, r), MonoDelta(w, r);
    if newDay == w.day {
      AccountHeat(w, elapsed, w.lastWall, r.now, record, d);
    } else {
      var boundary := DayStart(w.cfg, newDay);
      var split := SplitElapsed(elapsed, w.lastWall, r.now, boundary);
      SplitElapsedSums(elapsed, w.lastWall, r.now, boundary);
      var before := AccountUnlessSuspended(w, split.0, w.lastWall, boundary, record);
      AccountBooks(w, split.0, w.lastWall, boundary, record, d);
      AccountHeat(w, split.0, w.lastWall, boundary, record, d);
      RollBooks(before, boundary, newDay, r.mono, d);
      RollHeat(before, boundary, newDay, r.mono, d);
      HeatNonNegative(before, d);
      NewDayHeat(RollDay(before, boundary, newDay, r.mono).world, split.1, boundary, r.now, record, d);
    }
  }

  lemma NewDayHeat(w: World, seconds: real, start: int, end: int, record: bool, d: int)
    requires Linked(w) && 0.0 <= seconds
    ensures var v := if w.suspended then w else Flush(Account(w, seconds, start, end, record));
            Heat(v, WholeDay(d)) ==
            Heat(w, WholeDay(d))
            + if !w.suspended && w.game.Some? && record && start < end && d == w.day then seconds else 0.0
  {
    if !w.suspended {
      AccountBooks(w, seconds, start, end, record, d);
      AccountHeat(w, seconds, start, end, record, d);
      FlushHeat(Account(w, seconds, start, end, record), WholeDay(d));
    }
  }

  lemma {:induction false} TotalNonNegative<K>(s: seq<Entry<K>>, c: Cell)
    requires Acceptable(s)
    ensures 0.0 <= Total(s, c)
  {
    if s != [] {
      assert Acceptable(s[1..]);
      TotalNonNegative(s[1..], c);
    }
  }

  lemma HeatNonNegative(w: World, d: int)
    requires Linked(w)
    ensures 0.0 <= Heat(w, WholeDay(d))
  {
    TotalNonNegative(w.pending, WholeDay(d));
    TotalNonNegative(w.db.buckets, WholeDay(d));
  }

  lemma AdvancedHeat(w: World, r: Reading, d: int)
    requires Linked(w) && 0 <= w.cfg.retentionDays
    ensures var v := Advance(NoteClock(w, r).world, r).world;
            var credit := if Reliable(w, r) then Credit(w, r, d) else 0.0;
            && Linked(v)
            && Heat(v, WholeDay(d)) <= Heat(w, WholeDay(d)) + credit
            && (KeepsBuckets(w, r, d) ==> Heat(v, WholeDay(d)) == Heat(w, WholeDay(d)) + credit)
  {
    NoteClockBooks(w, r, d);
    var clock := NoteClock(w, r).world;
    SameHeat(w, clock, WholeDay(d));
    AdvanceHeat(clock, r, d);
    AdvanceBooks(clock, r, d);
  }

  lemma ElapseHeat(w: World, r: Reading, d: int)
    requires Linked(w) && 0 <= w.cfg.retentionDays
    ensures var v := Elapse(w, r).world;
            var credit := if Reliable(w, r) then Credit(w, r, d) else 0.0;
            && Heat(v, WholeDay(d)) <= Heat(w, WholeDay(d)) + credit
            && (KeepsBuckets(w, r, d) ==> Heat(v, WholeDay(d)) == Heat(w, WholeDay(d)) + credit)
  {
    AdvancedHeat(w, r, d);
    var advanced := Advance(NoteClock(w, r).world, r).world;
    SettleHeat(advanced, MonoDelta(w, r), r.mono, WholeDay(d));
    SameHeat(Settle(advanced, MonoDelta(w, r), r.mono).world, Elapse(w, r).world, WholeDay(d));
  }

  lemma SettleHeat(w: World, elapsed: real, mono: real, c: Cell)
    requires Linked(w)
    ensures Heat(Settle(w, elapsed, mono).world, c) == Heat(w, c)
  {
    SettleFrame(w, elapsed, mono);
    PersistHeat(w, mono, c);
    SameHeat(PersistSession(w, mono), Settle(w, elapsed, mono).world, c);
  }

  /** A tick whose wall and monotonic clocks agree records exactly the play time it credits, day by
      day; any other tick records nothing. */
  lemma TickHeat(w: World, r: Reading, d: int)
    requires Linked(w) && 0 <= w.cfg.retentionDays
    ensures var v := Tick(w, r).world;
            var credit := if Reliable(w, r) then Credit(w, r, d) else 0.0;
            && Heat(v, WholeDay(d)) <= Heat(w, WholeDay(d)) + credit
            && (KeepsBuckets(w, r, d) ==> Heat(v, WholeDay(d)) == Heat(w, WholeDay(d)) + credit)
  {
    ElapseHeat(w, r, d);
    AnnounceFrame(Elapse(w, r).world, r.now, TakeSnapshot(w, r.now));
    SameHeat(Elapse(w, r).world, Tick(w, r).world, WholeDay(d));
  }

  /** No day shows more heatmap time than play time, save for a debt from earlier crashes. */
  ghost predicate HeatWithin(w: World, d: int, debt: real) {
    0.0 <= debt && Heat(w, WholeDay(d)) <= LiveUsage(w, d) + debt
  }

  lemma CreditNonNegative(w: World, r: Reading, d: int)
    ensures 0.0 <= Credit(w, r, d)
  { }

  lemma CloseCurrentHeat(w: World, at: int, c: Cell)
    requires Linked(w)
    ensures Heat(CloseCurrent(w, at).world, c) == Heat(w, c)
  {
    if w.session.Some? {
      FlushHeat(w, c);
      SameHeat(Flush(w), CloseCurrent(w, at).world, c);
    }
  }

  lemma SetGameTailHeat(t: World, g: Game, r: Reading, c: Cell)
    requires Linked(t)
    ensures Heat(SetGameTail(t, g, r).world, c) == Heat(t, c)
  {
    CloseCurrentHeat(t, r.now, c);
    var closed := if t.game.Some? then CloseCurrent(t, r.now).world else t;
    var v := SetGameTail(t, g, r).world;
    if t.game.Some? && SameGame(t.game.value, g) {
      SameHeat(t, v, c);
    } else {
      SameHeat(closed, v, c);
    }
  }

  lemma ShutdownTailHeat(t: World, r: Reading, c: Cell)
    requires Linked(t)
    ensures Heat(ShutdownTail(t, r).world, c) == Heat(t, c)
  {
    if t.session.Some? {
      var saved := t.(db := CheckpointSession(t.db, t.session.value, t.duration));
      SameHeat(t, saved, c);
      FlushHeat(saved, c);
      SameHeat(Flush(saved), ShutdownTail(t, r).world, c);
    }
  }

  /** The play time of day `d` that a step's daily rolls remove. */
  function StepPurges(w: World, c: Command, r: Reading, d: int): real {
    if TicksFirst(c) then
      Purged(w, r, d)
      + if c.DoUpdateConfig? && DayOf(c.config, r.now) != DayOf(w.cfg, r.now)
        then ExpiredUsage(Tick(w, r).world.db.sessions, d, Cutoff(c.config.retentionDays, r.now)) else 0.0
    else if c.DoResume? && DayOf(w.cfg, r.now) != w.day
    then ExpiredUsage(w.db.sessions, d, Cutoff(w.cfg.retentionDays, r.now))
    else 0.0
  }

  lemma {:induction false} ExpiredNonNegative(rows: seq<Session>, d: int, cutoff: int)
    requires NonNegative(rows)
    ensures 0.0 <= ExpiredUsage(rows, d, cutoff)
  {
    if rows != [] {
      var n := |rows| - 1;
      assert NonNegative(rows[..n]);
      ExpiredNonNegative(rows[..n], d, cutoff);
    }
  }

  lemma UpdateConfigTailHeat(t: World, c: Config, r: Reading, d: int)
    requires Linked(t) && 0 <= c.retentionDays
    ensures var v := UpdateConfigTail(t, c, r).world;
            var purged := if DayOf(c, r.now) != t.day
                          then ExpiredUsage(t.db.sessions, d, Cutoff(c.retentionDays, r.now)) else 0.0;
            Heat(v, WholeDay(d)) <= Heat(t, WholeDay(d)) && LiveUsage(v, d) == LiveUsage(t, d) - purged
  {
    SameBooks(t, t.(cfg := c), d);
    UpdateConfigTailFrame(t, c, r);
    if DayOf(c, r.now) != t.day {
      RollBooks(t.(cfg := c), r.now, DayOf(c, r.now), r.mono, d);
      RollHeat(t.(cfg := c), r.now, DayOf(c, r.now), r.mono, d);
      HeatNonNegative(t, d);
    }
    SameBooks(SwitchConfig(t, c, r).world, UpdateConfigTail(t, c, r).world, d);
    SameHeat(SwitchConfig(t, c, r).world, UpdateConfigTail(t, c, r).world, WholeDay(d));
  }

  lemma TailHeat(t: World, c: Command, r: Reading, d: int, debt: real)
    requires Linked(t) && TicksFirst(c) && ValidCommand(c) && HeatWithin(t, d, debt)
    requires c.DoUpdateConfig? && DayOf(c.config, r.now) != t.day ==>
               ExpiredUsage(t.db.sessions, d, Cutoff(c.config.retentionDays, r.now)) == 0.0
    ensures HeatWithin(Tail(t, c, r).world, d, debt)
  {
    if TimerCommand(c) {
      TimerTailBooks(t, c, r);
      SameBooks(t, Tail(t, c, r).world, d);
      SameHeat(t, Tail(t, c, r).world, WholeDay(d));
    } else {
      match c
      case DoSetGame(g) => SetGameTailBooks(t, g, r, d); SetGameTailHeat(t, g, r, WholeDay(d));
      case DoStopGame => StopGameTailBooks(t, r, d); StopGameTailHeat(t, r, WholeDay(d));
      case DoUpdateConfig(cfg) => UpdateConfigTailHeat(t, cfg, r, d);
      case DoShutdown => ShutdownTailBooks(t, r, d); ShutdownTailHeat(t, r, WholeDay(d));
    }
  }

  lemma StopGameTailHeat(t: World, r: Reading, c: Cell)
    requires Linked(t)
    ensures Heat(StopGameTail(t, r).world, c) == Heat(t, c)
  {
    CloseCurrentHeat(t, r.now, c);
    SameHeat(CloseCurrent(t, r.now).world, StopGameTail(t, r).world, c);
  }

  lemma ResumeHeat(w: World, r: Reading, d: int, debt: real)
    requires Linked(w) && 0 <= w.cfg.retentionDays && HeatWithin(w, d, debt)
    requires StepPurges(w, DoResume, r, d) == 0.0
    ensures HeatWithin(Resume(w, r).world, d, debt)
  {
    var base := w.(lastWall := r.now, lastMono := r.mono);
    SameBooks(w, base, d);
    SameHeat(w, base, WholeDay(d));
    var day := DayOf(w.cfg, r.now);
    var rolled := if day != w.day then RollDay(base, r.now, day, r.mono).world else base;
    if day != w.day {
      RollBooks(base, r.now, day, r.mono, d);
      RollHeat(base, r.now, day, r.mono, d);
      HeatNonNegative(base, d);
    }
    SameBooks(rolled, Resume(w, r).world, d);
    SameHeat(rolled, Resume(w, r).world, WholeDay(d));
  }

  lemma TickHeatWithin(w: World, r: Reading, d: int, debt: real)
    requires Linked(w) && 0 <= w.cfg.retentionDays && HeatWithin(w, d, debt) && Purged(w, r, d) == 0.0
    ensures HeatWithin(Tick(w, r).world, d, debt)
  {
    TickBooks(w, r, d);
    TickHeat(w, r, d);
    CreditNonNegative(w, r, d);
  }

  /** Every step of a living daemon that removes no play time of day `d` keeps the heatmap of that
      day within its play time; buckets may go, and history may be cleared. */
  lemma StepHeat(w: World, c: Command, r: Reading, d: int, debt: real)
    requires Linked(w) && 0 <= w.cfg.retentionDays && ValidCommand(c) && !c.DoRestart?
    requires HeatWithin(w, d, debt) && StepPurges(w, c, r, d) == 0.0
    ensures HeatWithin(Step(w, c, r).world, d, debt)
  {
    if TicksFirst(c) {
      PurgesInTwo(w, c, r, d);
      TickBooks(w, r, d);
      TickHeatWithin(w, r, d, debt);
      TailHeat(Tick(w, r).world, c, r, d, debt);
    } else if c.DoResume? {
      ResumeHeat(w, r, d, debt);
    } else {
      RestHeat(w, c, r, d, debt);
    }
  }

  /** Clearing the history, and turning down a malformed game. */
  lemma RestHeat(w: World, c: Command, r: Reading, d: int, debt: real)
    requires HeatWithin(w, d, debt) && Linked(w) && (c.DoPurge? || (c.DoSetGame? && !TicksFirst(c)))
    ensures HeatWithin(Proper(w, c, r).world, d, debt)
  {
    PurgeHeat(w, d, debt);
  }

  lemma PurgeHeat(w: World, d: int, debt: real)
    requires HeatWithin(w, d, debt) && Linked(w)
    ensures HeatWithin(PurgeHistory(w).world, d, debt)
  { }

  /** If a step removes no play time of a day, neither the tick nor what follows it does. */
  lemma PurgesInTwo(w: World, c: Command, r: Reading, d: int)
    requires Linked(w) && 0 <= w.cfg.retentionDays && TicksFirst(c) && StepPurges(w, c, r, d) == 0.0
    ensures Purged(w, r, d) == 0.0
    ensures c.DoUpdateConfig? && DayOf(c.config, r.now) != DayOf(w.cfg, r.now) ==>
              ExpiredUsage(Tick(w, r).world.db.sessions, d, Cutoff(c.config.retentionDays, r.now)) == 0.0
  {
    ExpiredNonNegative(w.db.sessions, d, Cutoff(w.cfg.retentionDays, DayStart(w.cfg, DayOf(w.cfg, r.now))));
    if c.DoUpdateConfig? {
      TickBooks(w, r, d);
      ExpiredNonNegative(Tick(w, r).world.db.sessions, d, Cutoff(c.config.retentionDays, r.now));
    }
  }

  // ----- what is on disk

  /** The stored slices of a day exceed its stored play time by no more than the carry, and that only
      for the day of the open row. */
  ghost predicate StoredWithin(w: World, d: int, carry: real, debt: real) {
    && 0.0 <= carry && 0.0 <= debt
    && Total(w.db.buckets, WholeDay(d)) <=
       UsageForDay(w.db.sessions, d) + (if d == w.day && w.session.Some? then carry else 0.0) + debt
  }

  ghost predicate HeatSound(w: World, d: int, carry: real, debt: real) {
    HeatWithin(w, d, debt) && StoredWithin(w, d, carry, debt)
  }

  /** With nothing pending, what is stored is what there is, and the row lacks its lag. */
  lemma NothingPending(w: World, d: int, carry: real, debt: real)
    requires Linked(w) && HeatWithin(w, d, debt) && w.pending == [] && 0.0 <= carry
    requires w.session.Some? ==> Lag(w) <= carry
    ensures HeatSound(w, d, carry, debt)
  {
    SessionRowUsage(w, d);
  }

  lemma SameStored(w: World, v: World, d: int, carry: real, debt: real)
    requires StoredWithin(w, d, carry, debt)
    requires v.db.buckets == w.db.buckets && v.db.sessions == w.db.sessions && v.day == w.day
             && (v.session.Some? <==> w.session.Some?)
    ensures StoredWithin(v, d, carry, debt)
  { }

  /** A tick either rolls the day or saves the open row, and has nothing pending afterwards, or it
      stores nothing. */
  lemma TickStores(w: World, r: Reading, carry: real)
    requires Linked(w) && ValidConfig(w.cfg)
    requires 0.0 <= carry
    ensures var v := Tick(w, r).world;
            var kept := CarryAfterTick(w, r, carry);
            && 0.0 <= kept && (v.session.Some? <==> w.session.Some?)
            && (|| (v.pending == [] && (v.session.Some? ==> Lag(v) <= kept))
                || (&& v.db.sessions == w.db.sessions && v.db.buckets == w.db.buckets && v.day == w.day
                    && kept == carry))
  {
    NoteClockFrame(w, r);
    var clock := NoteClock(w, r).world;
    NoteClockBooks(w, r, 0);
    ClockLag(w, clock, r, carry);
    AdvanceStores(clock, r, carry);
    AdvanceBooks(clock, r, 0);
    AdvanceFrame(clock, r);
    var advanced := Advance(clock, r).world;
    SettleStores(advanced, MonoDelta(w, r), r.mono);
    SettleLag(advanced, MonoDelta(w, r), r.mono);
    SettleFrame(advanced, MonoDelta(w, r), r.mono);
    AnnounceFrame(Elapse(w, r).world, r.now, TakeSnapshot(w, r.now));
  }

  lemma AdvanceStores(w: World, r: Reading, carry: real)
    requires Linked(w) && 0 <= w.cfg.retentionDays
    ensures var v := Advance(w, r).world;
            if DayOf(w.cfg, r.now) == w.day
            then v == w.(played := v.played, duration := v.duration, pending := v.pending)
            else v.pending == []
                 && (w.session.Some? ==> v.lastCheckpoint == r.mono && Lag(v) == CarryAfterTick(w, r, carry))
  {
    if DayOf(w.cfg, r.now) == w.day {
      AccountFrame(w, MonoDelta(w, r), w.lastWall, r.now, Reliable(w, r));
    } else {
      RolledLag(w, r, carry);
      RolledCheckpoint(w, r);
    }
  }

  lemma SettleStores(w: World, elapsed: real, mono: real)
    ensures var v := Settle(w, elapsed, mono).world;
            if w.session.Some? && mono - w.lastCheckpoint >= w.cfg.checkpointSeconds as real
            then v.pending == []
            else v.pending == w.pending && v.db.sessions == w.db.sessions && v.db.buckets == w.db.buckets
  {
    SettleFrame(w, elapsed, mono);
  }

  lemma TickStored(w: World, r: Reading, d: int, carry: real, debt: real)
    requires Linked(w) && ValidConfig(w.cfg) && HeatSound(w, d, carry, debt) && Purged(w, r, d) == 0.0
    ensures HeatSound(Tick(w, r).world, d, CarryAfterTick(w, r, carry), debt)
  {
    TickHeatWithin(w, r, d, debt);
    TickBooks(w, r, d);
    TickStores(w, r, carry);
    var v := Tick(w, r).world;
    if v.pending == [] && (v.session.Some? ==> Lag(v) <= CarryAfterTick(w, r, carry)) {
      NothingPending(v, d, CarryAfterTick(w, r, carry), debt);
    } else {
      SameStored(w, v, d, carry, debt);
    }
  }

  // ----- commands and restarts

  function TailCarry(t: World, c: Command, r: Reading, carry: real): real {
    if c.DoUpdateConfig? && DayOf(c.config, r.now) != t.day then 0.0 else carry
  }

  lemma RollStores(w: World, at: int, newDay: int, mono: real)
    requires Linked(w) && 0 <= w.cfg.retentionDays
    ensures var v := RollDay(w, at, newDay, mono).world;
            v.pending == [] && Lag(v) == 0.0
  {
    RollBooks(w, at, newDay, mono, 0);
    RollRow(w, at, newDay, mono);
  }

  lemma SetGameStores(t: World, g: Game, r: Reading)
    requires Linked(t)
    ensures var v := SetGameTail(t, g, r).world;
            || (v.pending == [] && Lag(v) == 0.0)
            || (v.db == t.db && v.day == t.day && v.session == t.session)
  {
    if !(t.game.Some? && SameGame(t.game.value, g)) {
      CloseCurrentBooks(t, r.now, 0);
      BeginSessionStores(if t.game.Some? then CloseCurrent(t, r.now).world else t, g, r.mono);
      BeginSessionBooks(if t.game.Some? then CloseCurrent(t, r.now).world else t, g, r.mono, 0);
    }
  }

  lemma BeginSessionStores(w: World, g: Game, mono: real)
    requires w.pending == []
    ensures var v := BeginSession(w, g, mono).world;
            v.pending == [] && Lag(v) == 0.0
  { }

  lemma UpdateConfigStores(t: World, c: Config, r: Reading)
    requires Linked(t) && 0 <= c.retentionDays
    ensures var v := UpdateConfigTail(t, c, r).world;
            && (DayOf(c, r.now) != t.day ==> v.pending == [] && Lag(v) == 0.0)
            && (DayOf(c, r.now) == t.day ==> v.db.sessions == t.db.sessions && v.db.buckets == t.db.buckets
                                             && v.day == t.day && v.session == t.session)
  {
    SameBooks(t, t.(cfg := c), 0);
    UpdateConfigTailFrame(t, c, r);
    if DayOf(c, r.now) != t.day {
      RollStores(t.(cfg := c), r.now, DayOf(c, r.now), r.mono);
    }
  }

  /** What a command stores after its tick. */
  lemma TailStores(t: World, c: Command, r: Reading)
    requires Linked(t) && TicksFirst(c) && ValidCommand(c)
    ensures var v := Tail(t, c, r).world;
            || (v.pending == [] && (v.session.Some? ==> Lag(v) == 0.0))
            || (&& v.db.sessions == t.db.sessions && v.db.buckets == t.db.buckets && v.day == t.day
                && (v.session.Some? <==> t.session.Some?) && TailCarry(t, c, r, 1.0) == 1.0)
  {
    if TimerCommand(c) {
      TimerTailBooks(t, c, r);
    } else {
      match c
      case DoSetGame(g) => SetGameStores(t, g, r);
      case DoStopGame => CloseCurrentBooks(t, r.now, 0); StopGameTailBooks(t, r, 0);
      case DoUpdateConfig(cfg) => UpdateConfigStores(t, cfg, r);
      case DoShutdown => ShutdownStores(t, r);
    }
  }

  lemma ShutdownStores(t: World, r: Reading)
    requires Linked(t)
    ensures ShutdownTail(t, r).world.pending == [] && ShutdownTail(t, r).world.session == None
  {
    ShutdownTailBooks(t, r, 0);
  }

  lemma TailStored(t: World, c: Command, r: Reading, d: int, carry: real, debt: real)
    requires Linked(t) && ValidConfig(t.cfg) && TicksFirst(c) && ValidCommand(c) && HeatSound(t, d, carry, debt)
    requires c.DoUpdateConfig? && DayOf(c.config, r.now) != t.day ==>
               ExpiredUsage(t.db.sessions, d, Cutoff(c.config.retentionDays, r.now)) == 0.0
    ensures HeatSound(Tail(t, c, r).world, d, TailCarry(t, c, r, carry), debt)
  {
    TailHeat(t, c, r, d, debt);
    TailStores(t, c, r);
    TailBooks(t, c, r);
    var v := Tail(t, c, r).world;
    if v.pending == [] && (v.session.Some? ==> Lag(v) == 0.0) {
      NothingPending(v, d, TailCarry(t, c, r, carry), debt);
    } else {
      SameStored(t, v, d, carry, debt);
    }
  }

  lemma ResumeStored(w: World, r: Reading, d: int, carry: real, debt: real)
    requires Linked(w) && 0 <= w.cfg.retentionDays && HeatSound(w, d, carry, debt)
    requires StepPurges(w, DoResume, r, d) == 0.0
    ensures HeatSound(Resume(w, r).world, d, if DayOf(w.cfg, r.now) != w.day then 0.0 else carry, debt)
  {
    ResumeHeat(w, r, d, debt);
    ResumeBooks(w, r);
    var base, v := w.(lastWall := r.now, lastMono := r.mono), Resume(w, r).world;
    if DayOf(w.cfg, r.now) != w.day {
      SameBooks(w, base, d);
      RollStores(base, r.now, DayOf(w.cfg, r.now), r.mono);
      NothingPending(v, d, 0.0, debt);
    } else {
      SameStored(w, v, d, carry, debt);
    }
  }

  /** What a restart leaves behind for good: if it is a crash, with a session open, the slice that the
      last roll had stored ahead of the row. */
  function LostCarry(w: World, c: Command, carry: real, d: int): real {
    if c.DoRestart? && w.session.Some? && d == w.day then carry else 0.0
  }

  /** A restart finds what was stored. */
  lemma RestartFinds(w: World, c: Config, r: Reading, d: int)
    requires Linked(w)
    ensures var v := Startup(w.db, c, r).world;
            && Linked(v) && v.pending == [] && v.session == None
            && Heat(v, WholeDay(d)) == Total(w.db.buckets, WholeDay(d))
            && LiveUsage(v, d) == UsageForDay(w.db.sessions, d)
  {
    StartupBooks(w.db, c, r, d);
    StartupBuckets(w.db, c, r);
    assert Total(Startup(w.db, c, r).world.pending, WholeDay(d)) == 0.0;
  }

  lemma StartupBuckets(db: Tables, c: Config, r: Reading)
    ensures var v := Startup(db, c, r).world;
            v.pending == [] && v.db.buckets == db.buckets && v.session == None
  { }

  lemma TickedStored(w: World, c: Command, r: Reading, d: int, carry: real, debt: real)
    requires Linked(w) && ValidConfig(w.cfg) && ValidCommand(c) && TicksFirst(c)
    requires HeatSound(w, d, carry, debt) && StepPurges(w, c, r, d) == 0.0
    ensures HeatSound(Tail(Tick(w, r).world, c, r).world, d, CarryAfter(w, c, r, carry), debt)
  {
    PurgesInTwo(w, c, r, d);
    TickStored(w, r, d, carry, debt);
    TickBooks(w, r, d);
    TailStored(Tick(w, r).world, c, r, d, CarryAfterTick(w, r, carry), debt);
  }

  /** `v` is sound after command `c`. */
  ghost predicate SoundAfter(w: World, v: World, c: Command, r: Reading, d: int, carry: real, debt: real) {
    HeatSound(v, d, CarryAfter(w, c, r, carry), debt + LostCarry(w, c, carry, d))
  }

  lemma NoneLost(w: World, v: World, c: Command, r: Reading, d: int, carry: real, debt: real)
    requires !c.DoRestart? && HeatSound(v, d, CarryAfter(w, c, r, carry), debt)
    ensures SoundAfter(w, v, c, r, d, carry, debt)
  {
    assert debt + LostCarry(w, c, carry, d) == debt;
  }

  lemma ResumeIsStored(w: World, c: Command, r: Reading, d: int, carry: real, debt: real)
    requires Linked(w) && 0 <= w.cfg.retentionDays && HeatSound(w, d, carry, debt)
    requires c.DoResume? && StepPurges(w, c, r, d) == 0.0
    ensures SoundAfter(w, Proper(w, c, r).world, c, r, d, carry, debt)
  {
    ResumeStored(w, r, d, carry, debt);
    NoneLost(w, Resume(w, r).world, c, r, d, carry, debt);
  }

  /** Clearing the history, and turning down a malformed game. */
  lemma RestIsStored(w: World, c: Command, r: Reading, d: int, carry: real, debt: real)
    requires Linked(w) && HeatSound(w, d, carry, debt) && (c.DoPurge? || (c.DoSetGame? && !TicksFirst(c)))
    ensures SoundAfter(w, Proper(w, c, r).world, c, r, d, carry, debt)
  {
    PurgeStored(w, d, carry, debt);
    NoneLost(w, if c.DoPurge? then PurgeHistory(w).world else w, c, r, d, carry, debt);
  }

  lemma RestartIsStored(w: World, c: Command, r: Reading, d: int, carry: real, debt: real)
    requires Linked(w) && HeatSound(w, d, carry, debt) && c.DoRestart?
    ensures SoundAfter(w, Proper(w, c, r).world, c, r, d, carry, debt)
  {
    RestartFinds(w, c.config, r, d);
    FoundSound(w, Startup(w.db, c.config, r).world, d, carry, debt);
  }

  lemma FoundSound(w: World, v: World, d: int, carry: real, debt: real)
    requires HeatSound(w, d, carry, debt)
    requires Linked(v) && v.pending == [] && v.session == None
    requires Heat(v, WholeDay(d)) == Total(w.db.buckets, WholeDay(d))
    requires LiveUsage(v, d) == UsageForDay(w.db.sessions, d)
    ensures HeatSound(v, d, 0.0, debt + if w.session.Some? && d == w.day then carry else 0.0)
  {
    NothingPending(v, d, 0.0, debt + if w.session.Some? && d == w.day then carry else 0.0);
  }

  lemma OtherIsStored(w: World, c: Command, r: Reading, d: int, carry: real, debt: real)
    requires Linked(w) && ValidConfig(w.cfg) && ValidCommand(c) && !TicksFirst(c)
    requires HeatSound(w, d, carry, debt) && StepPurges(w, c, r, d) == 0.0
    ensures SoundAfter(w, Proper(w, c, r).world, c, r, d, carry, debt)
  {
    if c.DoResume? {
      ResumeIsStored(w, c, r, d, carry, debt);
    } else if c.DoRestart? {
      RestartIsStored(w, c, r, d, carry, debt);
    } else {
      RestIsStored(w, c, r, d, carry, debt);
    }
  }

  lemma PurgeStored(w: World, d: int, carry: real, debt: real)
    requires HeatSound(w, d, carry, debt) && Linked(w)
    ensures HeatSound(PurgeHistory(w).world, d, carry, debt)
  { }

  // ----- runs

  /** No roll of the run removes play time of day `d`. */
  ghost predicate SparesDayInRun(w: World, run: seq<Input>, d: int) {
    run == [] ||
    var prefix, last := run[..|run| - 1], run[|run| - 1];
    SparesDayInRun(w, prefix, d) && StepPurges(After(w, prefix), last.command, last.at, d) == 0.0
  }

  /** The heatmap time of a day that the crashes of a run have left without play time. */
  function Debt(w: World, run: seq<Input>, d: int): real {
    if run == [] then 0.0
    else
      var prefix, last := run[..|run| - 1], run[|run| - 1];
      Debt(w, prefix, d) + LostCarry(After(w, prefix), last.command, CarryOver(w, prefix), d)
  }

  /** Over any run that removes no play time of a day, crashes and restarts included, the heatmap time
      of that day, pending and stored, exceeds its play time by no more than what crashes right after
      a daily roll have lost; and on disk by no more than the carry in addition. */
  lemma {:induction false} RunHeat(w: World, run: seq<Input>, d: int)
    requires Linked(w) && ValidConfig(w.cfg) && HeatSound(w, d, 0.0, 0.0)
    requires ValidRun(run) && SparesDayInRun(w, run, d)
    ensures var v := After(w, run);
            && Linked(v) && ValidConfig(v.cfg)
            && HeatSound(v, d, CarryOver(w, run), Debt(w, run, d))
  {
    if run != [] {
      var prefix, last := run[..|run| - 1], run[|run| - 1];
      assert forall i :: 0 <= i < |prefix| ==> prefix[i] == run[i];
      RunHeat(w, prefix, d);
      StepHeatSound(After(w, prefix), last.command, last.at, d, CarryOver(w, prefix), Debt(w, prefix, d));
    }
  }

  lemma StepHeatSound(w: World, c: Command, r: Reading, d: int, carry: real, debt: real)
    requires Linked(w) && ValidConfig(w.cfg) && ValidCommand(c)
    requires HeatSound(w, d, carry, debt) && StepPurges(w, c, r, d) == 0.0
    ensures var v := Step(w, c, r).world;
            && Linked(v) && ValidConfig(v.cfg)
            && HeatSound(v, d, CarryAfter(w, c, r, carry), debt + LostCarry(w, c, carry, d))
  {
    StepBooks(w, c, r);
    StepConfigValid(w, c, r);
    if TicksFirst(c) {
      TickedStored(w, c, r, d, carry, debt);
      NoneLost(w, Tail(Tick(w, r).world, c, r).world, c, r, d, carry, debt);
    } else {
      OtherIsStored(w, c, r, d, carry, debt);
    }
  }

  /** Every restart of the run comes after an orderly end of play. */
  ghost predicate NoCrash(w: World, run: seq<Input>) {
    run == [] ||
    var prefix, last := run[..|run| - 1], run[|run| - 1];
    NoCrash(w, prefix) && (last.command.DoRestart? ==> After(w, prefix).session == None)
  }

  lemma {:induction false} NoCrashNoDebt(w: World, run: seq<Input>, d: int)
    requires NoCrash(w, run)
    ensures Debt(w, run, d) == 0.0
  {
    if run != [] {
      NoCrashNoDebt(w, run[..|run| - 1], d);
    }
  }

  /** In every state reachable without a crash in the middle of play, no day whose play time has been
      kept shows more heatmap time than play time. */
  lemma ReachableHeat(c: Config, r: Reading, run: seq<Input>, d: int)
    requires ValidConfig(c) && ValidRun(run) && SparesDayInRun(Begin(c, r), run, d) && NoCrash(Begin(c, r), run)
    ensures var v := After(Begin(c, r), run);
            Heat(v, WholeDay(d)) <= LiveUsage(v, d)
  {
    StartupBooks(EMPTY_TABLES, c, r, d);
    BeginHeat(c, r, d);
    RunHeat(Begin(c, r), run, d);
    NoCrashNoDebt(Begin(c, r), run, d);
  }

  /** A fresh engine shows nothing yet. */
  lemma BeginHeat(c: Config, r: Reading, d: int)
    ensures HeatSound(Begin(c, r), d, 0.0, 0.0)
  { }

  /** The bound is reached: when the first tick of a new day has credited and filed its slice and the
      daemon crashes, the heatmap keeps the slice and the play time does not. */
  lemma CrashAfterRoll(w: World, r: Reading, c: Config, r': Reading)
    requires Linked(w) && ValidConfig(w.cfg) && w.session.Some? && !w.suspended && Reliable(w, r)
    requires DayOf(w.cfg, r.now) != w.day && KeepsBuckets(w, r, DayOf(w.cfg, r.now))
    requires var d := DayOf(w.cfg, r.now);
             Heat(w, WholeDay(d)) == 0.0 && LiveUsage(w, d) == 0.0 && Purged(w, r, d) == 0.0
    ensures var d := DayOf(w.cfg, r.now);
            var v := Startup(Tick(w, r).world.db, c, r').world;
            Heat(v, WholeDay(d)) == Credit(w, r, d) && LiveUsage(v, d) == 0.0
  {
    FirstSlice(w, r);
    CrashedWithLag(Tick(w, r).world, c, r', DayOf(w.cfg, r.now));
  }

  /** After the first tick of a new day its slice is played, shown, and missing from its row. */
  lemma FirstSlice(w: World, r: Reading)
    requires Linked(w) && ValidConfig(w.cfg) && w.session.Some? && !w.suspended && Reliable(w, r)
    requires DayOf(w.cfg, r.now) != w.day && KeepsBuckets(w, r, DayOf(w.cfg, r.now))
    requires var d := DayOf(w.cfg, r.now);
             Heat(w, WholeDay(d)) == 0.0 && LiveUsage(w, d) == 0.0 && Purged(w, r, d) == 0.0
    ensures var t, d := Tick(w, r).world, DayOf(w.cfg, r.now);
            && Linked(t) && t.day == d && t.pending == []
            && Heat(t, WholeDay(d)) == Credit(w, r, d) && LiveUsage(t, d) == Credit(w, r, d)
            && Lag(t) == Credit(w, r, d)
  {
    TickBooks(w, r, DayOf(w.cfg, r.now));
    TickHeat(w, r, DayOf(w.cfg, r.now));
    RollTickLag(w, r);
  }

  lemma CrashedWithLag(t: World, c: Config, r: Reading, d: int)
    requires Linked(t) && t.pending == [] && d == t.day
    ensures var v := Startup(t.db, c, r).world;
            Heat(v, WholeDay(d)) == Heat(t, WholeDay(d)) && LiveUsage(v, d) == LiveUsage(t, d) - Lag(t)
  {
    RestartFinds(t, c, r, d);
    SessionRowUsage(t, d);
  }

  lemma RollTickLag(w: World, r: Reading)
    requires Linked(w) && ValidConfig(w.cfg) && w.session.Some? && !w.suspended
    requires DayOf(w.cfg, r.now) != w.day
    ensures var v := Tick(w, r).world;
            v.pending == [] && v.session.Some? && Lag(v) == Credit(w, r, DayOf(w.cfg, r.now))
  {
    NoteClockFrame(w, r);
    var clock := NoteClock(w, r).world;
    NoteClockBooks(w, r, DayOf(w.cfg, r.now));
    RolledLag(clock, r, 0.0);
    RolledCheckpoint(clock, r);
    AdvanceBooks(clock, r, 0);
    AdvanceFrame(clock, r);
    var advanced := Advance(clock, r).world;
    SettleStores(advanced, MonoDelta(w, r), r.mono);
    SettleLag(advanced, MonoDelta(w, r), r.mono);
    SettleFrame(advanced, MonoDelta(w, r), r.mono);
    AnnounceFrame(Elapse(w, r).world, r.now, TakeSnapshot(w, r.now));
  }
}
