/** What ticks and commands report, credit and save, in terms of the clocks, the settings and the rows. */
module TickLaws {
  import opened Basics
  import opened Zones
  import opened Records
  import opened Storage
  import opened Engine
  import opened Frames
  import opened SessionLaws
  import opened RecoveryLaws
  import opened TransitionLaws

  // ----- what a tick reports

  /** By how many seconds the wall clock has run ahead of the monotonic clock since the last tick. */
  function Gap(w: World, r: Reading): real {
    (r.now - w.lastWall) as real / 1000000.0 - if r.mono < w.lastMono then 0.0 else r.mono - w.lastMono
  }

  /** A gap of more than thirty seconds is taken for a suspend, one of more than five either way for a
      changed clock; a new offset is reported with the old one. */
  predicate ClockNote(w: World, r: Reading, e: Event) {
    match e
    case SuspendInferred => 30.0 < Gap(w, r)
    case ResumeInferred => 30.0 < Gap(w, r)
    case ClockChanged => 5.0 < Gap(w, r) <= 30.0 || Gap(w, r) < -5.0
    case OffsetChanged(before, after) => before == w.lastOffset != after && after == OffsetAt(w.cfg.zone, r.now)
    case _ => false
  }

  /** A new day is reported with the old one, and so is the rotation of a session that is open. */
  predicate RollNote(w: World, r: Reading, e: Event) {
    match e
    case SessionRotated(before, after) => w.session.Some? && before == w.day != after && after == DayOf(w.cfg, r.now)
    case DailyReset(before, after) => before == w.day != after && after == DayOf(w.cfg, r.now)
    case _ => false
  }

  lemma ClockTells(w: World, r: Reading, e: Event)
    ensures e in NoteClock(w, r).events <==> ClockNote(w, r, e)
  { }

  lemma RollTells(w: World, at: int, newDay: int, mono: real, e: Event)
    requires Linked(w)
    ensures e in RollDay(w, at, newDay, mono).events <==>
            (w.session.Some? && e == SessionRotated(w.day, newDay)) || e == DailyReset(w.day, newDay)
  { }

  /** The state that a tick rolls into another day. */
  function BeforeRoll(w: World, r: Reading): World {
    var boundary := DayStart(w.cfg, DayOf(w.cfg, r.now));
    AccountUnlessSuspended(w, SplitElapsed(MonoDelta(w, r), w.lastWall, r.now, boundary).0, w.lastWall, boundary,
                           Reliable(w, r))
  }

  lemma AdvanceRolls(w: World, r: Reading)
    requires Linked(w) && DayOf(w.cfg, r.now) != w.day
    ensures var newDay, before := DayOf(w.cfg, r.now), BeforeRoll(w, r);
            && Linked(before) && before.session == w.session && before.day == w.day
            && Advance(w, r).events == RollDay(before, DayStart(w.cfg, newDay), newDay, r.mono).events
  {
    var boundary := DayStart(w.cfg, DayOf(w.cfg, r.now));
    var split := SplitElapsed(MonoDelta(w, r), w.lastWall, r.now, boundary);
    AccountBooks(w, split.0, w.lastWall, boundary, Reliable(w, r), 0);
  }

  lemma AdvanceTells(w: World, r: Reading, e: Event)
    requires Linked(w)
    ensures e in Advance(w, r).events <==> RollNote(w, r, e)
  {
    var newDay := DayOf(w.cfg, r.now);
    if newDay != w.day {
      AdvanceRolls(w, r);
      RollTells(BeforeRoll(w, r), DayStart(w.cfg, newDay), newDay, r.mono, e);
    }
  }

  lemma SettleTells(w: World, elapsed: real, mono: real, e: Event)
    requires TimerOk(w.timer)
    ensures e in Settle(w, elapsed, mono).events <==>
            e == TimerRanOut && w.timer.state == Running && Settle(w, elapsed, mono).world.timer.state == Expired
  { }

  lemma ElapseTells(w: World, r: Reading, e: Event)
    requires Linked(w) && TimerOk(w.timer)
    ensures e in Elapse(w, r).events <==>
            || ClockNote(w, r, e) || RollNote(w, r, e)
            || (e == TimerRanOut && w.timer.state == Running && Elapse(w, r).world.timer.state == Expired)
  {
    NoteClockBooks(w, r, 0);
    ClockTells(w, r, e);
    var clock := NoteClock(w, r).world;
    AdvanceTells(clock, r, e);
    AdvanceFrame(clock, r);
    SettleTells(Advance(clock, r).world, MonoDelta(w, r), r.mono, e);
  }

  lemma AnnounceTells(w: World, now: int, before: Snapshot, e: Event)
    requires !e.Warning?
    ensures var v := Announce(w, now, before).world;
            e in Announce(w, now, before).events <==>
            e == RestrictionChanged(w.reason, w.level, v.reason, v.level) && Pair(v) != Pair(w)
  {
    WarnOnlyMarks(w, now, before);
    WarnOnlyWarns(w, now, before);
  }

  lemma WarnOnlyWarns(w: World, now: int, before: Snapshot)
    ensures var es := Warn(w, now, before).events;
            forall i :: 0 <= i < |es| ==> es[i].Warning?
  { }

  /** The events of a tick, warnings aside, say exactly what has happened: what there is to note about the
      clocks, a new day, a timer that has run out, and a restriction that is another one than before. */
  lemma TickTells(w: World, r: Reading, e: Event)
    requires Linked(w) && TimerOk(w.timer) && !e.Warning?
    ensures var v := Tick(w, r).world;
            e in Tick(w, r).events <==>
            || ClockNote(w, r, e) || RollNote(w, r, e)
            || (e == TimerRanOut && w.timer.state == Running && v.timer.state == Expired)
            || (e == RestrictionChanged(w.reason, w.level, v.reason, v.level) && Pair(v) != Pair(w))
  {
    ElapseTells(w, r, e);
    ElapsePair(w, r);
    AnnounceTells(Elapse(w, r).world, r.now, TakeSnapshot(w, r.now), e);
    AnnounceFrame(Elapse(w, r).world, r.now, TakeSnapshot(w, r.now));
  }

  // ----- what it credits

  /** Without a game, and while the engine is suspended, a tick credits nothing. Otherwise it credits the
      monotonic time since the last tick, all of it to the day that goes on, or divided between the old day
      and the new one. */
  lemma CreditExact(w: World, r: Reading)
    ensures var elapsed := if r.mono < w.lastMono then 0.0 else r.mono - w.lastMono;
            var newDay := DayOf(w.cfg, r.now);
            && (w.game.None? || w.suspended ==> forall d :: Credit(w, r, d) == 0.0)
            && (w.game.Some? && !w.suspended ==>
                  && (forall d :: d != w.day && d != newDay ==> Credit(w, r, d) == 0.0)
                  && if newDay == w.day then Credit(w, r, w.day) == elapsed
                     else Credit(w, r, w.day) + Credit(w, r, newDay) == elapsed)
  { }

  /** The division at a reset: in proportion to the wall clock, if that has gone forward through the reset;
      all to the new day, if the reset was not after the last tick or the clock has gone back; and all to
      the old day, if the reset is yet to come. */
  lemma CreditDivided(w: World, r: Reading)
    requires w.game.Some? && !w.suspended && DayOf(w.cfg, r.now) != w.day && w.lastMono <= r.mono
    ensures var reset := DayStart(w.cfg, DayOf(w.cfg, r.now));
            var elapsed, before := r.mono - w.lastMono, Credit(w, r, w.day);
            && (r.now <= w.lastWall || reset <= w.lastWall ==> before == 0.0)
            && (w.lastWall < r.now <= reset ==> before == elapsed)
            && (w.lastWall < reset < r.now ==>
                  before * (r.now - w.lastWall) as real == elapsed * (reset - w.lastWall) as real)
  {
    var reset := DayStart(w.cfg, DayOf(w.cfg, r.now));
    if w.lastWall < reset < r.now {
      DividedInProportion(r.mono - w.lastMono, reset - w.lastWall, r.now - w.lastWall);
    }
  }

  lemma DividedInProportion(elapsed: real, part: int, whole: int)
    requires 0 < part < whole
    ensures Divide(elapsed, Seconds(part), Seconds(whole)).0 * whole as real == elapsed * part as real
  {
    var ratio := Seconds(part) / Seconds(whole);
    assert ratio * whole as real == part as real by {
      assert ratio * Seconds(whole) == Seconds(part);
    }
    assert 0.0 < ratio < 1.0;
    assert Divide(elapsed, Seconds(part), Seconds(whole)).0 == elapsed * ratio;
  }

  // ----- what it saves

  /** Within a day, the open session is saved, with all that is pending, exactly when the checkpoint interval
      has passed since it was saved last. */
  lemma TickSavesSession(w: World, r: Reading)
    requires Linked(w) && w.session.Some? && DayOf(w.cfg, r.now) == w.day
    ensures var v := Tick(w, r).world;
            var rows := w.db.sessions;
            if w.cfg.checkpointSeconds as real <= r.mono - w.lastCheckpoint
            then v.db.sessions == rows[..|rows| - 1] + [rows[|rows| - 1].(duration := v.duration)]
                 && v.pending == [] && v.lastCheckpoint == r.mono
            else v.db.sessions == rows && v.db.buckets == w.db.buckets && v.lastCheckpoint == w.lastCheckpoint
  {
    ElapseSavesSession(w, r);
    AnnounceFrame(Elapse(w, r).world, r.now, TakeSnapshot(w, r.now));
  }

  lemma ElapseSavesSession(w: World, r: Reading)
    requires Linked(w) && w.session.Some? && DayOf(w.cfg, r.now) == w.day
    ensures SavedIfDue(w, Elapse(w, r).world, r.mono)
  {
    NoteClockBooks(w, r, 0);
    var advanced := Advance(NoteClock(w, r).world, r).world;
    AdvanceSavesNothing(NoteClock(w, r).world, r);
    SettleSavesSession(advanced, MonoDelta(w, r), r.mono);
    SavedFrom(w, advanced, Settle(advanced, MonoDelta(w, r), r.mono).world, Elapse(w, r).world, r.mono);
  }

  lemma AdvanceSavesNothing(w: World, r: Reading)
    requires Linked(w) && DayOf(w.cfg, r.now) == w.day
    ensures var v := Advance(w, r).world;
            && Linked(v) && v.session == w.session && v.db == w.db && v.cfg == w.cfg
            && v.lastCheckpoint == w.lastCheckpoint
  {
    AccountBooks(w, MonoDelta(w, r), w.lastWall, r.now, Reliable(w, r), 0);
  }

  lemma SavedFrom(w: World, u: World, s: World, v: World, mono: real)
    requires u.db == w.db && u.lastCheckpoint == w.lastCheckpoint && u.cfg == w.cfg && SavedIfDue(u, s, mono)
    requires v.db == s.db && v.pending == s.pending && v.duration == s.duration && v.lastCheckpoint == s.lastCheckpoint
    ensures SavedIfDue(w, v, mono)
  { }

  ghost predicate SavedIfDue(w: World, v: World, mono: real) {
    var rows := w.db.sessions;
    rows != [] &&
    if w.cfg.checkpointSeconds as real <= mono - w.lastCheckpoint
    then v.db.sessions == rows[..|rows| - 1] + [rows[|rows| - 1].(duration := v.duration)]
         && v.pending == [] && v.lastCheckpoint == mono
    else v.db.sessions == rows && v.db.buckets == w.db.buckets && v.lastCheckpoint == w.lastCheckpoint
  }

  lemma SettleSavesSession(w: World, elapsed: real, mono: real)
    requires Linked(w) && w.session.Some?
    ensures SavedIfDue(w, Settle(w, elapsed, mono).world, mono)
  {
    SettleFrame(w, elapsed, mono);
    PersistBooks(w, mono, 0);
  }

  /** The timer is saved when it runs out, and while it runs exactly when the interval has passed since it was
      saved last; otherwise its stored copy stays. */
  lemma TickSavesTimer(w: World, r: Reading)
    requires TimerOk(w.timer)
    ensures var v := Tick(w, r).world;
            var due := v.timer.state == Running && w.cfg.checkpointSeconds as real <= r.mono - w.lastPersist;
            && v.db.timer == (if due || (w.timer.state == Running && v.timer.state == Expired) then Some(v.timer)
                              else w.db.timer)
            && v.lastPersist == if due then r.mono else w.lastPersist
  {
    TickTimerFrame(w, r);
    RunSavesTimer(w, Tick(w, r).world, MonoDelta(w, r), r.mono);
  }

  lemma RunSavesTimer(w: World, v: World, elapsed: real, mono: real)
    requires TimerOk(w.timer) && RunsTimer(w, v, elapsed, mono)
    ensures var due := v.timer.state == Running && w.cfg.checkpointSeconds as real <= mono - w.lastPersist;
            && v.db.timer == (if due || (w.timer.state == Running && v.timer.state == Expired) then Some(v.timer)
                              else w.db.timer)
            && v.lastPersist == if due then mono else w.lastPersist
  { }

  // ----- starting, suspending, resuming

  /** A new engine finds everything that is stored. A row that is still open ends now, with the duration it
      was saved with; a running timer is paused; and both are reported. */
  lemma StartupExact(db: Tables, c: Config, r: Reading, id: nat, day: int)
    requires OpenLast(db.sessions, id, day) && NonNegative(db.sessions)
    requires db.timer.Some? && TimerOk(db.timer.value)
    ensures var v, rows := Startup(db, c, r), db.sessions;
            var last, timer := rows[|rows| - 1], db.timer.value;
            && v.world.db.sessions == rows[..|rows| - 1] + [last.(ended := Some(r.now))]
            && v.world.db.adjustments == db.adjustments && v.world.db.marks == db.marks
            && v.world.db.buckets == db.buckets
            && v.world.timer == (if timer.state == Running then timer.(state := Paused) else timer)
            && v.world.db.timer == Some(v.world.timer)
            && v.events == [SessionRecovered(id, last.duration)]
                           + if timer.state == Running then [TimerPausedAfterRestart] else []
  {
    FindOpenLast(db.sessions, id, day);
    CloseOpen(db.sessions, id, day, db.sessions[|db.sessions| - 1].duration, r.now);
  }

  /** It measures from the present reading, plays no game and has nothing pending. */
  lemma StartupBaselines(db: Tables, c: Config, r: Reading)
    ensures var v := Startup(db, c, r).world;
            && v.cfg == c && v.day == DayOf(c, r.now) && v.lastOffset == OffsetAt(c.zone, r.now)
            && v.lastWall == r.now && v.lastMono == r.mono && v.lastPersist == r.mono
            && v.game == None && v.session == None && v.duration == 0.0 && !v.suspended && v.pending == []
  { }

  /** Suspending stops the clocks of a world that is otherwise left alone; resuming starts them at the
      present reading, and rolls the day if another one has begun. Each is reported once. */
  lemma SuspendAndResumeExact(w: World, r: Reading)
    ensures SuspendTail(w) == Done(w.(suspended := true), if w.suspended then [] else [SystemSuspended])
    ensures var v := Resume(w, r);
            && !v.world.suspended && v.world.lastWall == r.now && v.world.lastMono == r.mono
            && v.world.game == w.game && v.world.timer == w.timer && v.world.db.timer == w.db.timer
            && v.world.day == DayOf(w.cfg, r.now)
            && (DayOf(w.cfg, r.now) == w.day ==>
                  v == Effect(w.(suspended := false, lastWall := r.now, lastMono := r.mono),
                              if w.suspended then [SystemResumed] else []))
  {
    ResumeFrame(w, r);
  }

  // ----- games and grants

  /** A first report opens a row of the current day for the game. At restriction level two the game is said
      to have started all the same, and from level three on it is said to be blocked. */
  lemma FirstReportExact(t: World, g: Game, r: Reading)
    requires Linked(t) && t.game.None?
    ensures var v := SetGameTail(t, g, r);
            && v.Done? && v.world.db.sessions == t.db.sessions + [Session(t.db.nextId, t.day, g, None, 0.0)]
            && v.world.game == Some(g) && v.world.session == Some(t.db.nextId) && v.world.duration == 0.0
            && v.events == [GameStarted(g, t.db.nextId)]
                           + if 3 <= t.level then [NewGameBlocked(g)]
                             else if t.level == 2 then [StartedWhileRestricted(g)] else []
  { }

  /** A further report about the game that is on only brings its details up to date. */
  lemma FurtherReportExact(t: World, g: Game, r: Reading)
    requires t.game.Some? && (t.game.value.appId == g.appId || g.appId == None) && t.game.value.folded == g.folded
    ensures SetGameTail(t, g, r) == Done(t.(game := Some(g)), [GameUpdated(g)])
  { }

  /** When the game stops, its row ends now with all that was played, and so it does at a shutdown. */
  lemma StopExact(t: World, r: Reading)
    requires Linked(t) && t.session.Some?
    ensures var rows := t.db.sessions;
            var ended := rows[..|rows| - 1] + [rows[|rows| - 1].(ended := Some(r.now), duration := t.duration)];
            && StopGameTail(t, r).world.db.sessions == ended && ShutdownTail(t, r).world.db.sessions == ended
            && GameStopped(t.game.value, t.session.value, t.duration) in EventsOf(StopGameTail(t, r))
            && EventsOf(ShutdownTail(t, r)) == [GameStopped(t.game.value, t.session.value, t.duration)]
            && StopGameTail(t, r).world.game == None && ShutdownTail(t, r).world.game == None
  { }

  /** The name is not blank and has at most two hundred characters, the id is a number of at most 32 digits,
      and the process ids are positive. */
  predicate InOrder(g: Game) {
    && (exists i :: 0 <= i < |g.name| && g.name[i] !in {' ', '\t', '\n', '\r'}) && |g.name| <= 200
    && (g.appId.Some? ==> && 1 <= |g.appId.value| <= 32
                          && forall i :: 0 <= i < |g.appId.value| ==> '0' <= g.appId.value[i] <= '9')
    && forall i :: 0 <= i < |g.pids| ==> 1 <= g.pids[i]
  }

  lemma InOrderExact(g: Game)
    ensures ValidGame(g) <==> InOrder(g)
  { }

  /** A report is turned down exactly if it is not in order, and then before anything else happens. */
  lemma ReportRefusedExact(w: World, g: Game, r: Reading)
    requires Linked(w) && ValidConfig(w.cfg)
    ensures Step(w, DoSetGame(g), r).Done? <==> InOrder(g)
    ensures !InOrder(g) ==> Step(w, DoSetGame(g), r) == Refused(w, BadGame)
  {
    InOrderExact(g);
    if ValidGame(g) {
      TickedLinked(w, DoSetGame(g), r);
      SetGameTailBooks(Ticked(w, DoSetGame(g), r).world, g, r, 0);
    }
    StepInParts(w, DoSetGame(g), r);
  }

  /** A grant needs a reason and an amount other than zero, or it is refused; it completes if the amount is
      no more than a day either way. */
  lemma GrantAnswers(t: World, seconds: int, reason: string, r: Reading)
    ensures var v := GrantTail(t, seconds, reason, r);
            var blank := forall i :: 0 <= i < |reason| ==> reason[i] in {' ', '\t', '\n', '\r'};
            && (v.Refused? <==> blank || seconds == 0)
            && (v.Done? <==> !blank && seconds != 0 && -86400 <= seconds <= 86400)
  { }
}
