/** Concrete states in which a promise fails, one for each condition that the laws attach to one. */
module Witnesses {
  import opened Basics
  import opened Zones
  import opened Schedule
  import opened Ledger
  import opened Records
  import opened Storage
  import opened Engine
  import opened Frames
  import opened SessionLaws
  import opened AccountingLaws
  import opened RecoveryLaws
  import opened HeatmapLaws
  import opened WarningLaws
  import opened WarningRuns
  import opened TransitionLaws
  import opened ForecastLaws
  import opened SilenceLaws
  import opened PlayLaws
  import opened LandingLaws

  function EveryDay(minutes: int): Week {
    var d := DayLimit(minutes, false);
    [d, d, d, d, d, d, d]
  }

  /** No limits, a reset at midnight UTC, one warning at five minutes, level two, one day of history. */
  const SETTINGS := Config(false, 0, Zone(0, []), EveryDay(120), [], [5], false,
                           false, 2, 1, 60)

  const GAME := Game(Some("1"), "x", "x", "procfs", [])

  /** An engine on day 0 with nothing going on. */
  const CALM := World(SETTINGS, EMPTY_TABLES, 0, 0.0, None, None, 0.0, BLANK_TIMER, false, Unrestricted, 0,
                      0.0, 0, 0.0, 0.0, 0, [])

  lemma SettingsOk()
    ensures ValidConfig(SETTINGS) && RegularDays(SETTINGS)
  {
    FixedOffsetIsRegular(SETTINGS.zone, SETTINGS.reset);
  }

  lemma RegularSettings()
    ensures ValidConfig(SETTINGS) && RegularDays(SETTINGS)
    ensures forall t :: DayOf(SETTINGS, t) == t / DAY
    ensures forall d :: DayStart(SETTINGS, d) == d * DAY
  {
    FixedOffsetIsRegular(SETTINGS.zone, SETTINGS.reset);
  }

  // ----- warnings

  /** With one threshold, unmarked, at the very value that is left, the next second warns for it. */
  lemma UnmarkedLandingWarns(w: World, r: Reading, g: nat, t: int)
    requires Ready(w) && Timing(w, g) && DueThresholds(w.cfg) == [t] && w.timer.remaining == t as real > 0.0
    requires (forall m :: m in w.db.marks ==> m.scope != OfTimer(g)) && TimerCounts(w) && w.lastMono < r.mono
    ensures Warned(Tick(w, r).events, OfTimer(g)) == [t]
  {
    TickLowers(w, r, g);
    TickTimerFrame(w, r);
    OnlyThresholdPassed(w, Tick(w, r).world, Tick(w, r).events, g, t);
  }

  lemma OnlyThresholdPassed(w: World, v: World, es: seq<Event>, g: nat, t: int)
    requires Lowers(w, v, es, g) && DueThresholds(w.cfg) == [t] && w.timer.remaining == t as real > 0.0
    requires v.timer.remaining < t as real && forall m :: m in w.db.marks ==> m.scope != OfTimer(g)
    ensures Warned(es, OfTimer(g)) == [t]
  {
    assert t in CrossedBy(w.cfg, Remaining(w, OfTimer(g)), Remaining(v, OfTimer(g)))
                - MarkedThresholds(w.db, OfTimer(g));
  }

  /** A running timer with five minutes left, and its stored copy. */
  const FIVE_MINUTES := Timer(Running, 300, 300.0, "inherit", Some(0))

  /** The timer has landed on its threshold, which is marked. */
  const LANDED := CALM.(timer := FIVE_MINUTES,
                        db := EMPTY_TABLES.(timer := Some(FIVE_MINUTES), marks := map[Mark(OfTimer(0), 300) := 0],
                                            nextId := 1))

  /** Clearing the history forgets that, and a second later there is the warning for the value landed on. */
  lemma PurgeWakesLanding()
    ensures Ready(LANDED) && Ceiling(LANDED, 0, 300.0)
    ensures var p := PurgeHistory(LANDED);
            p.Done? && Warned(Tick(p.world, Reading(SECOND, 1.0)).events, OfTimer(0)) == [300]
  {
    Landed();
    PurgeWakes(LANDED, Reading(SECOND, 1.0), 0, 300);
  }

  lemma Landed()
    ensures Ready(LANDED) && Ceiling(LANDED, 0, 300.0) && TimerCounts(LANDED) && !AnyOpen(LANDED.db.sessions)
    ensures DueThresholds(SETTINGS) == [300]
  {
    RegularSettings();
  }

  lemma PurgeWakes(w: World, r: Reading, g: nat, t: int)
    requires Ready(w) && Timing(w, g) && DueThresholds(w.cfg) == [t] && w.timer.remaining == t as real > 0.0
    requires TimerCounts(w) && w.lastMono < r.mono && !AnyOpen(w.db.sessions)
    ensures Warned(Tick(PurgeHistory(w).world, r).events, OfTimer(g)) == [t]
  {
    PurgeBooks(w);
    UnmarkedLandingWarns(PurgeHistory(w).world, r, g, t);
  }

  /** A second of the timer, three days later by the wall clock. */
  const DAYS_LATER := Reading(3 * DAY, 1.0)

  /** So does the first tick that opens a day after the mark has grown too old. */
  lemma RetentionWakesLanding()
    ensures TickBreaks(LANDED, DAYS_LATER, 0, 300.0)
    ensures Warned(Tick(LANDED, DAYS_LATER).events, OfTimer(0)) == [300]
  {
    Landed();
    LandedForgotten();
    ForgottenWakes(LANDED, DAYS_LATER, 0, 300);
  }

  lemma LandedForgotten()
    ensures !TickSpares(LANDED, DAYS_LATER, 0, 300.0) && LANDED.timer.remaining == 300.0
    ensures LandingDue(LANDED.cfg, 300.0)
  {
    RegularSettings();
    assert DueThresholds(SETTINGS) == [300];
    assert DayOf(SETTINGS, 3 * DAY) == 3 && LandingMark(0, 300.0) == Mark(OfTimer(0), 300);
    TooOldAMark(LANDED, DAYS_LATER, 0, 300.0);
  }

  lemma TooOldAMark(w: World, r: Reading, g: nat, top: real)
    requires DayOf(w.cfg, r.now) == 3 && w.day == 0 && DayStart(w.cfg, 3) == 3 * DAY && w.cfg.retentionDays == 1
    requires LandingMark(g, top) in w.db.marks && w.db.marks[LandingMark(g, top)] == 0
    ensures !TickSpares(w, r, g, top)
  { }

  lemma ForgottenWakes(w: World, r: Reading, g: nat, t: int)
    requires Ready(w) && Ceiling(w, g, t as real) && DueThresholds(w.cfg) == [t] && w.timer.remaining == t as real
    requires !TickSpares(w, r, g, t as real) && TimerCounts(w) && w.lastMono < r.mono
    ensures TickBreaks(w, r, g, t as real) && Warned(Tick(w, r).events, OfTimer(g)) == [t]
  {
    ElapseForgets(w, r, g, t as real);
    ElapseFrame(w, r);
    TickAnnounces(w, r, OfTimer(g));
    AnnouncesOne(w, Elapse(w, r).world, r.now, g, t);
  }

  lemma AnnouncesOne(w: World, a: World, now: int, g: nat, t: int)
    requires Timing(w, g) && Timing(a, g) && w.timer.remaining == t as real && 0.0 <= a.timer.remaining < t as real
    requires DueThresholds(a.cfg) == [t] && LandingMark(g, t as real) !in a.db.marks
    ensures Warned(Announce(a, now, TakeSnapshot(w, now)).events, OfTimer(g)) == [t]
  {
    var before := TakeSnapshot(w, now);
    AnnounceExact(a, now, before, OfTimer(g));
    OnlyOne(a, Announce(a, now, before).world, Announce(a, now, before).events, g, t);
  }

  lemma OnlyOne(a: World, v: World, es: seq<Event>, g: nat, t: int)
    requires DueThresholds(a.cfg) == [t] && a.timer.remaining < t as real && 0.0 <= a.timer.remaining
    requires LandingMark(g, t as real) !in a.db.marks
    requires WarnsExactly(OfTimer(g), CrossedBy(a.cfg, Some(t as real), Some(a.timer.remaining)), a.db, v.db, es)
    ensures Warned(es, OfTimer(g)) == [t]
  {
    MarkedIff(a.db, OfTimer(g), t);
    assert t in CrossedBy(a.cfg, Some(t as real), Some(a.timer.remaining)) - MarkedThresholds(a.db, OfTimer(g));
  }

  /** The timer has landed on a value that is no threshold. */
  const LANDED_FREELY := CALM.(cfg := SETTINGS.(thresholdMinutes := []), timer := FIVE_MINUTES,
                               db := EMPTY_TABLES.(timer := Some(FIVE_MINUTES), nextId := 1))

  const AT_ONCE := Reading(0, 0.0)

  /** New settings make it one, and a second later there is the warning for the value landed on. */
  lemma UpdateWakesLanding()
    ensures Ready(LANDED_FREELY) && Ceiling(LANDED_FREELY, 0, 300.0)
    ensures var u := UpdateConfigTail(LANDED_FREELY, SETTINGS, AT_ONCE);
            u.Done? && Warned(Tick(u.world, Reading(SECOND, 1.0)).events, OfTimer(0)) == [300]
  {
    LandedFreely();
    assert DueThresholds(SETTINGS) == [300];
    UpdateWakes(LANDED_FREELY, SETTINGS, AT_ONCE, Reading(SECOND, 1.0), 0, 300);
  }

  lemma LandedFreely()
    ensures Ready(LANDED_FREELY) && Ceiling(LANDED_FREELY, 0, 300.0) && TimerCounts(LANDED_FREELY)
    ensures DayOf(SETTINGS, 0) == 0 && ValidConfig(SETTINGS)
  {
    RegularSettings();
  }

  lemma UpdateWakes(w: World, c: Config, at: Reading, r: Reading, g: nat, t: int)
    requires Ready(w) && Timing(w, g) && ValidConfig(c) && DayOf(c, at.now) == w.day && w.db.marks == map[]
    requires DueThresholds(c) == [t] && w.timer.remaining == t as real > 0.0
    requires TimerCounts(w) && !c.countOnlyWhilePlaying && w.lastMono < r.mono
    ensures Warned(Tick(UpdateConfigTail(w, c, at).world, r).events, OfTimer(g)) == [t]
  {
    var u := UpdateConfigTail(w, c, at).world;
    UpdateConfigTailFrame(w, c, at);
    UpdateStandsStill(w, c, at, g);
    SwitchConfigBooks(w, c, at);
    UnmarkedScope(u.db, g);
    UnmarkedLandingWarns(u, r, g, t);
  }

  lemma UnmarkedScope(db: Tables, g: nat)
    requires MarkedThresholds(db, OfTimer(g)) == {}
    ensures forall m :: m in db.marks ==> m.scope != OfTimer(g)
  {
    forall m | m in db.marks ensures m.scope != OfTimer(g) {
      MarkedIff(db, OfTimer(g), m.threshold);
    }
  }

  // ----- the daily forecast

  /** Five minutes a day, of which 0.4 seconds have been played. */
  const BARELY_STARTED := CALM.(
    cfg := SETTINGS.(limitsEnabled := true, weekly := EveryDay(5)),
    played := 0.4, lastWall := SECOND, lastMono := 1.0,
    db := EMPTY_TABLES.(sessions := [Session(0, 0, GAME, Some(SECOND), 0.4)], nextId := 1))

  /** The forecast promises the five-minute warning at once; it never comes. */
  lemma RoundingPromisesTooMuch(rs: seq<Reading>)
    requires ScopeTicks(BARELY_STARTED, rs, Daily(0))
    ensures Linked(BARELY_STARTED) && CacheAgrees(BARELY_STARTED)
    ensures DailyForecast(BARELY_STARTED, SECOND) == Some(Forecast(Daily(0), 300, 0))
    ensures WarnedInRun(BARELY_STARTED, rs, Daily(0)) == []
  {
    BarelyStarted();
    DailyForecastRoundsUp(BARELY_STARTED, rs);
  }

  lemma BarelyStarted()
    ensures Linked(BARELY_STARTED) && CacheAgrees(BARELY_STARTED) && ValidConfig(BARELY_STARTED.cfg)
    ensures EffectiveLimit(BARELY_STARTED, SECOND) == Some(300)
  {
    OneRow(Session(0, 0, GAME, Some(SECOND), 0.4), 0, 0);
  }

  // ----- the service's action

  /** A chain that leads somewhere else ends with a change to there. */
  lemma {:induction false} ChainedReaches(es: seq<Event>, p: (Reason, int), q: (Reason, int))
    requires Chained(es, p, q) && p != q
    ensures exists i :: 0 <= i < |es| && es[i].RestrictionChanged? && (es[i].newReason, es[i].newLevel) == q
  {
    var n := |es| - 1;
    if es[n].RestrictionChanged? {
      assert (es[n].newReason, es[n].newLevel) == q;
    } else {
      ChainedReaches(es[..n], p, q);
      var i :| 0 <= i < n && es[..n][i].RestrictionChanged? && (es[..n][i].newReason, es[..n][i].newLevel) == q;
      assert es[i] == es[..n][i];
    }
  }

  const LAST_SECOND := Timer(Running, 60, 1.0, "close", Some(0))

  /** A game is on, and its timer has a second left. */
  const LAST_MOMENT := CALM.(game := Some(GAME), session := Some(1), timer := LAST_SECOND,
                             db := EMPTY_TABLES.(sessions := [Session(1, 0, GAME, None, 0.0)],
                                                 timer := Some(LAST_SECOND), nextId := 2))

  /** The same under a limit of a day, with two hours granted on top. */
  const LONG_DAY := LAST_MOMENT.(
    cfg := SETTINGS.(limitsEnabled := true, weekly := EveryDay(1440)),
    db := LAST_MOMENT.db.(adjustments := [Adjustment(0, 7200, 0)]))

  const SECOND_LATER := Reading(SECOND, 1.0)

  const SIMULATED := "simulation: limit reached"

  /** To simulate a reached limit the service takes away the 26 hours that the status reports. The grant
      takes the news with it: its first tick activates the restriction at level two, for good, and nobody
      hears of it. */
  lemma OversizedGrantLosesRestriction()
    ensures Linked(LONG_DAY) && ValidConfig(LONG_DAY.cfg) && TimerOk(LONG_DAY.timer)
    ensures ReportedDailyRemaining(LONG_DAY, LONG_DAY.lastWall) == Some(93600)
    ensures TellsOf(Tick(LONG_DAY, SECOND_LATER).events, TimerExpired, 2)
    ensures var a := EngineAction(LONG_DAY, DoGrant(-93600, SIMULATED), SECOND_LATER, SECOND_LATER);
            a.published == [] && a.fate == Crashed && Pair(a.world) == (TimerExpired, 2)
  {
    LongDay();
    assert SIMULATED[0] !in " \t\n\r";
    GrantHidesExpiry(LONG_DAY, -93600, SIMULATED, SECOND_LATER);
  }

  lemma LongDay()
    ensures LastMoment(LONG_DAY, SECOND_LATER)
    ensures ReportedDailyRemaining(LONG_DAY, LONG_DAY.lastWall) == Some(93600)
  {
    RegularSettings();
    assert [Session(1, 0, GAME, None, 0.0)][..0] == [];
    assert [Adjustment(0, 7200, 0)][1..] == [];
    assert EffectiveLimit(LONG_DAY, 0) == Some(93600);
  }

  /** A timer that closes the game runs out by the reading. */
  ghost predicate LastMoment(w: World, r: Reading) {
    && Linked(w) && ValidConfig(w.cfg) && w.cfg.level == 2 && TimerOk(w.timer) && TimerCounts(w)
    && w.timer.action == "close" && Pair(w) == (Unrestricted, 0) && w.timer.remaining <= MonoDelta(w, r)
  }

  /** Half a second before, and at, the end of the timer. */
  const HALF_LATER := Reading(500_000, 0.5)

  /** Asked for another timer half a second before the end of this one, the service ticks, and has nothing
      to report; the command ticks again, half a second later, and is refused because that has activated
      the restriction. Nobody hears of it. */
  lemma RefusedStartLosesRestriction()
    ensures Linked(LAST_MOMENT) && ValidConfig(LAST_MOMENT.cfg) && TimerOk(LAST_MOMENT.timer)
    ensures var t := Tick(LAST_MOMENT, HALF_LATER);
            t.events == [] && TellsOf(Tick(t.world, SECOND_LATER).events, TimerExpired, 2)
    ensures var a := EngineAction(LAST_MOMENT, DoStartTimer(3600, "inherit"), HALF_LATER, SECOND_LATER);
            a.published == [] && a.fate == Rejected(Restricted) && Pair(a.world) == (TimerExpired, 2)
  {
    LastMomentQuiet();
    QuietTick(LAST_MOMENT, HALF_LATER);
    StillToRunOut(LAST_MOMENT, HALF_LATER, SECOND_LATER);
    RefusedStartHides(LAST_MOMENT, HALF_LATER, SECOND_LATER, 3600, "inherit");
  }

  lemma LastMomentQuiet()
    ensures Linked(LAST_MOMENT) && ValidConfig(SETTINGS) && TimerOk(LAST_MOMENT.timer) && TimerCounts(LAST_MOMENT)
    ensures Pair(LAST_MOMENT) == (Unrestricted, 0) && NothingToReport(LAST_MOMENT, HALF_LATER)
  {
    RegularSettings();
    assert [Session(1, 0, GAME, None, 0.0)][..0] == [];
    assert DueThresholds(SETTINGS) == [300];
    assert Seconds(500_000) == 0.5;
  }

  lemma QuietTick(w: World, r: Reading)
    requires NothingToReport(w, r)
    ensures Tick(w, r).events == [] && Pair(Tick(w, r).world) == Pair(w)
  {
    TickSilentExact(w, r);
    TickChained(w, r);
  }

  lemma StillToRunOut(w: World, first: Reading, second: Reading)
    requires Linked(w) && ValidConfig(w.cfg) && w.cfg.level == 2 && TimerOk(w.timer) && TimerCounts(w)
    requires w.timer.action == "close" && Pair(Tick(w, first).world) == (Unrestricted, 0)
    requires w.lastMono <= first.mono <= second.mono && first.mono - w.lastMono < w.timer.remaining
    requires w.timer.remaining <= second.mono - w.lastMono
    ensures LastMoment(Tick(w, first).world, second)
  {
    TickBooks(w, first, 0);
    TickTimerFrame(w, first);
  }

  lemma RefusedStartHides(w: World, first: Reading, second: Reading, seconds: int, action: string)
    requires Linked(w) && ValidConfig(w.cfg) && Tick(w, first).events == []
    requires LastMoment(Tick(w, first).world, second)
    ensures TellsOf(Tick(Tick(w, first).world, second).events, TimerExpired, 2)
    ensures var a := EngineAction(w, DoStartTimer(seconds, action), first, second);
            a.published == [] && a.fate == Rejected(Restricted) && Pair(a.world) == (TimerExpired, 2)
  {
    var t := Tick(w, first).world;
    TimerRunsOut(t, second);
    assert Ticked(t, DoStartTimer(seconds, action), second) == Tick(t, second);
    StartIsRefused(Tick(t, second).world, seconds, action, second);
    EngineActionExact(w, DoStartTimer(seconds, action), first, second);
  }

  lemma StartIsRefused(u: World, seconds: int, action: string, r: Reading)
    requires 1 <= u.level
    ensures Proper(u, DoStartTimer(seconds, action), r) == Refused(u, Restricted)
  { }

  lemma GrantHidesExpiry(w: World, seconds: int, reason: string, r: Reading)
    requires LastMoment(w, r) && OversizedGrant(DoGrant(seconds, reason))
    ensures TellsOf(Tick(w, r).events, TimerExpired, 2)
    ensures var a := EngineAction(w, DoGrant(seconds, reason), r, r);
            a.published == [] && a.fate == Crashed && Pair(a.world) == (TimerExpired, 2)
  {
    TimerRunsOut(w, r);
    GrantCrashes(w, seconds, reason, r);
  }

  ghost predicate TellsOf(es: seq<Event>, reason: Reason, level: int) {
    exists i :: 0 <= i < |es| && es[i].RestrictionChanged? && (es[i].newReason, es[i].newLevel) == (reason, level)
  }

  lemma GrantCrashes(w: World, seconds: int, reason: string, r: Reading)
    requires Linked(w) && ValidConfig(w.cfg) && TimerOk(w.timer) && OversizedGrant(DoGrant(seconds, reason))
    ensures EngineAction(w, DoGrant(seconds, reason), r, r) == Answer(Tick(w, r).world, [], Crashed)
  {
    EngineActionAtOnce(w, DoGrant(seconds, reason), r);
    TickBooks(w, r, 0);
    RefusedProper(Tick(w, r).world, DoGrant(seconds, reason), r);
  }

  lemma TimerRanOut(w: World, r: Reading)
    requires LastMoment(w, r)
    ensures Pair(Tick(w, r).world) == (TimerExpired, 2)
  {
    TickTimerFrame(w, r);
    TickRests(w, r);
    ExpiredCloses(Tick(w, r).world, r.now);
  }

  lemma ExpiredCloses(v: World, now: int)
    requires Current(v, now) && v.timer.state == Expired && v.timer.action == "close"
    ensures Pair(v) == (TimerExpired, 2)
  { }

  lemma TimerRunsOut(w: World, r: Reading)
    requires LastMoment(w, r)
    ensures Pair(Tick(w, r).world) == (TimerExpired, 2) && TellsOf(Tick(w, r).events, TimerExpired, 2)
  {
    TimerRanOut(w, r);
    TickChained(w, r);
    ChainedReaches(Tick(w, r).events, (Unrestricted, 0), (TimerExpired, 2));
  }

  // ----- the restriction

  const NOTED := Timer(Expired, 60, 0.0, "notify_only", Some(0))

  /** The timer has run out under "notify only", which imposes no level. */
  const RUN_OUT := CALM.(timer := NOTED, db := EMPTY_TABLES.(timer := Some(NOTED), nextId := 1), reason := TimerExpired)

  /** So another one may be started; the reason stays. */
  lemma StartLeavesStaleReason()
    ensures Linked(RUN_OUT) && ValidConfig(RUN_OUT.cfg) && TimerOk(RUN_OUT.timer) && Current(RUN_OUT, 0)
    ensures var v := Step(RUN_OUT, DoStartTimer(3600, "inherit"), AT_ONCE);
            v.Done? && v.world.timer.state == Running && !Current(v.world, 0)
  {
    RunOut();
    StaleStart(RUN_OUT, 3600, "inherit", AT_ONCE);
  }

  lemma RunOut()
    ensures Linked(RUN_OUT) && ValidConfig(RUN_OUT.cfg) && TimerOk(RUN_OUT.timer) && Rested(RUN_OUT, AT_ONCE)
  {
    RegularSettings();
  }

  lemma StaleStart(w: World, seconds: int, action: string, r: Reading)
    requires Linked(w) && ValidConfig(w.cfg) && TimerOk(w.timer) && Rested(w, r)
    requires ReplacesExpired(w, DoStartTimer(seconds, action))
    ensures var v := Step(w, DoStartTimer(seconds, action), r);
            v.Done? && v.world.timer.state == Running && !Current(v.world, r.now)
  {
    RestedTick(w, r);
    StartTimerCurrent(w, seconds, action, r);
    StepInParts(w, DoStartTimer(seconds, action), r);
    assert Ticked(w, DoStartTimer(seconds, action), r) == Effect(w, []);
    assert Proper(w, DoStartTimer(seconds, action), r) == StartTimerTail(w, seconds, action);
  }

  // ----- days

  /** What is known of these settings' days. */
  lemma DayIs(t: int, d: int)
    requires d * DAY <= t < (d + 1) * DAY
    ensures DayOf(SETTINGS, t) == d && DayStart(SETTINGS, d) == d * DAY
  {
    RegularSettings();
  }

  /** A game has been on since the start of day `d`, for `seconds` that its row does not show yet. */
  ghost predicate OnSince(w: World, d: int, seconds: real) {
    && ValidConfig(w.cfg) && w.cfg.retentionDays == 1 && w.day == d && DayOf(w.cfg, w.lastWall) == d
    && w.game == Some(GAME) && w.session == Some(0) && w.duration == seconds && w.played == seconds && !w.suspended
    && w.db.sessions == [Session(0, d, GAME, None, 0.0)] && w.db.nextId == 1 && w.pending == [] && w.db.buckets == []
  }

  lemma OnBooks(w: World, d: int, seconds: real)
    requires OnSince(w, d, seconds) && 0.0 <= seconds
    ensures Linked(w) && CacheAgrees(w)
    ensures forall e :: LiveUsage(w, e) == if e == d then seconds else 0.0
    ensures forall r, e :: Purged(w, r, e) == 0.0
  {
    var row := Session(0, d, GAME, None, 0.0);
    var live := row.(duration := seconds);
    assert [row][..0] == [] && LiveRows(w) == [live];
    forall e ensures LiveUsage(w, e) == if e == d then seconds else 0.0 {
      OneRow(live, e, 0);
    }
    forall r: Reading, e ensures Purged(w, r, e) == 0.0 {
      OneRow(row, e, Cutoff(w.cfg.retentionDays, DayStart(w.cfg, DayOf(w.cfg, r.now))));
    }
  }

  /** Such a state, last ticked at `wall` and `mono`. */
  function OnWorld(d: int, seconds: real, wall: int, mono: real): World {
    CALM.(game := Some(GAME), session := Some(0), duration := seconds, day := d, played := seconds,
          lastWall := wall, lastMono := mono,
          db := EMPTY_TABLES.(sessions := [Session(0, d, GAME, None, 0.0)], nextId := 1))
  }

  lemma OnWorldIs(d: int, seconds: real, wall: int, mono: real)
    requires d * DAY <= wall < (d + 1) * DAY
    ensures var w := OnWorld(d, seconds, wall, mono);
            OnSince(w, d, seconds) && w.cfg == SETTINGS && w.lastWall == wall && w.lastMono == mono
  {
    SettingsOk();
    DayIs(wall, d);
  }

  /** The game has just begun, with day 0; the reading is two days later on both clocks. */
  ghost predicate TwoDaysOn(w: World, r: Reading) {
    && OnSince(w, 0, 0.0) && RegularDays(w.cfg) && DriftFree(w, r)
    && w.lastWall == 0 && r.now == 2 * DAY && DayOf(w.cfg, r.now) == 2
    && DayStart(w.cfg, 0) == 0 && DayStart(w.cfg, 1) == DAY && DayStart(w.cfg, 2) == 2 * DAY
  }

  lemma ALongTick() returns (w: World, r: Reading)
    ensures TwoDaysOn(w, r)
  {
    w, r := OnWorld(0, 0.0, 0, 0.0), Reading(2 * DAY, Seconds(2 * DAY));
    OnWorldIs(0, 0.0, 0, 0.0);
    SettingsOk();
    DayIs(0, 0);
    DayIs(DAY, 1);
    DayIs(2 * DAY, 2);
  }

  /** With the clocks in agreement, one tick over two days of play gives both to the first, and leaves the
      day in between without any play time. */
  lemma LongTickSkipsDay() returns (w: World, r: Reading)
    ensures TwoDaysOn(w, r) && Linked(w) && CacheAgrees(w)
    ensures var v := Tick(w, r).world;
            LiveUsage(v, 0) == Seconds(2 * DAY) && LiveUsage(v, 1) == 0.0
    ensures Overlap(w.cfg, 0, w.lastWall, r.now) == DAY && Overlap(w.cfg, 1, w.lastWall, r.now) == DAY
  {
    w, r := ALongTick();
    OnBooks(w, 0, 0.0);
    TwoDaysOverlap(w, r);
    LongTickUsage(w, r);
  }

  lemma TwoDaysOverlap(w: World, r: Reading)
    requires TwoDaysOn(w, r)
    ensures Overlap(w.cfg, 0, w.lastWall, r.now) == DAY && Overlap(w.cfg, 1, w.lastWall, r.now) == DAY
  { }

  lemma LongTickUsage(w: World, r: Reading)
    requires TwoDaysOn(w, r) && Linked(w)
    requires forall d :: LiveUsage(w, d) == 0.0 && Purged(w, r, d) == 0.0
    ensures LiveUsage(Tick(w, r).world, 0) == Seconds(2 * DAY) && LiveUsage(Tick(w, r).world, 1) == 0.0
  {
    LongTickCredits(w, r);
    TickBooks(w, r, 0);
    TickBooks(w, r, 1);
  }

  lemma LongTickCredits(w: World, r: Reading)
    requires RegularDays(w.cfg) && Playing(w) && DriftFree(w, r) && w.day == 0 && DayOf(w.cfg, r.now) == 2
    requires w.lastWall == 0 && DayStart(w.cfg, 2) == 2 * DAY
    ensures Credit(w, r, 0) == Seconds(2 * DAY) && Credit(w, r, 1) == 0.0
  {
    SlicesCredited(w, r);
  }

  /** Fifty seconds of play on day 10. A second later the clock is five days slow, and another second later
      it is right. */
  ghost predicate SlowThenRight(w: World, slow: Reading, right: Reading) {
    && OnSince(w, 10, 50.0)
    && DayOf(w.cfg, slow.now) == 5 && slow.now <= w.lastWall && DayStart(w.cfg, 5) == 5 * DAY
    && DayOf(w.cfg, right.now) == 10 && DayStart(w.cfg, 10) == 10 * DAY
    && slow.mono == w.lastMono + 1.0 && right.mono == slow.mono + 1.0
  }

  lemma ASlowClock() returns (w: World, slow: Reading, right: Reading)
    ensures SlowThenRight(w, slow, right)
  {
    w := OnWorld(10, 50.0, 10 * DAY + 50 * SECOND, 50.0);
    slow, right := Reading(5 * DAY, 51.0), Reading(10 * DAY + 52 * SECOND, 52.0);
    OnWorldIs(10, 50.0, 10 * DAY + 50 * SECOND, 50.0);
    DayIs(10 * DAY + 52 * SECOND, 10);
    DayIs(5 * DAY, 5);
  }

  /** The first tick rolls back to day 5 and closes the row of day 10 at the start of day 5. The second one
      rolls forward to day 10, counts the play of that row, and then removes the row by its age. */
  lemma ClockSetBackLosesToday() returns (w: World, slow: Reading, right: Reading)
    ensures SlowThenRight(w, slow, right) && Linked(w) && CacheAgrees(w)
    ensures var v := Tick(w, slow).world;
            var u := Tick(v, right).world;
            && v.day == 5 && CacheAgrees(v)
            && u.day == 10 && u.played == LiveUsage(u, 10) + 50.0
  {
    w, slow, right := ASlowClock();
    OnBooks(w, 10, 50.0);
    SetBack(w, slow, right);
    LostByTicks(w, slow, right, 5, 10, 50.0);
  }

  lemma LostByTicks(w: World, first: Reading, second: Reading, early: int, day: int, lost: real)
    requires Linked(w) && ValidConfig(w.cfg) && CacheAgrees(w) && early != day
    requires DayOf(w.cfg, first.now) == early && DayOf(w.cfg, second.now) == day
    requires Purged(w, first, early) == 0.0 && Purged(Tick(w, first).world, second, day) == lost
    ensures var slow := Tick(w, first).world;
            var right := Tick(slow, second).world;
            && slow.day == early && CacheAgrees(slow)
            && right.day == day && right.played == LiveUsage(right, day) + lost
  {
    TickCache(w, first);
    TickBooks(w, first, early);
    TickBooks(Tick(w, first).world, second, day);
  }

  lemma OneRow(row: Session, d: int, cutoff: int)
    ensures UsageForDay([row], d) == if row.day == d then row.duration else 0.0
    ensures ExpiredUsage([row], d, cutoff) == if row.day == d && TooOld(row, cutoff) then row.duration else 0.0
  {
    assert [row][..0] == [];
  }

  lemma SetBack(w: World, slow: Reading, right: Reading)
    requires SlowThenRight(w, slow, right) && Linked(w)
    ensures Purged(Tick(w, slow).world, right, 10) == 50.0
  {
    var row := Session(0, 10, GAME, None, 0.0);
    var closed, next := row.(ended := Some(5 * DAY), duration := 50.0), Session(1, 5, GAME, None, 0.0);
    SetBackRows(w, slow.mono, row, closed, next);
    ClosedTooEarly(closed, next);
    PurgedAfterwards(w, slow, right, 5, 10, [closed, next]);
  }

  lemma PurgedAfterwards(w: World, first: Reading, second: Reading, early: int, day: int, rows: seq<Session>)
    requires Linked(w) && ValidConfig(w.cfg) && w.session.Some? && !w.suspended
    requires first.now <= w.lastWall && w.lastMono < first.mono && w.day != early && early != day
    requires DayOf(w.cfg, first.now) == early && DayOf(w.cfg, second.now) == day
    requires RollDay(w, DayStart(w.cfg, early), early, first.mono).world.db.sessions == rows
    ensures Purged(Tick(w, first).world, second, day) ==
            ExpiredUsage(rows, day, Cutoff(w.cfg.retentionDays, DayStart(w.cfg, day)))
  {
    RolledBackRows(w, first);
    TickBooks(w, first, 0);
  }

  /** When the clock has gone back over a reset, the tick's roll is all that happens to the rows. */
  lemma RolledBackRows(w: World, r: Reading)
    requires Linked(w) && ValidConfig(w.cfg) && w.session.Some? && !w.suspended
    requires DayOf(w.cfg, r.now) != w.day && r.now <= w.lastWall && w.lastMono < r.mono
    ensures var newDay := DayOf(w.cfg, r.now);
            Tick(w, r).world.db.sessions == RollDay(w, DayStart(w.cfg, newDay), newDay, r.mono).world.db.sessions
  {
    NoteClockFrame(w, r);
    var clock := NoteClock(w, r).world;
    var newDay := DayOf(w.cfg, r.now);
    AdvanceUnfolds(clock, r, DayStart(w.cfg, newDay), 0.0, MonoDelta(w, r));
    RolledCheckpoint(clock, r);
    AdvanceFrame(clock, r);
    var advanced := Advance(clock, r).world;
    SettleStores(advanced, MonoDelta(w, r), r.mono);
    AdvanceBooks(clock, r, 0);
    AnnounceFrame(Elapse(w, r).world, r.now, TakeSnapshot(w, r.now));
    SameRolledRows(w, clock, DayStart(w.cfg, newDay), newDay, r.mono);
  }

  lemma SameRolledRows(w: World, v: World, at: int, newDay: int, mono: real)
    requires v == w.(lastOffset := v.lastOffset)
    ensures RollDay(v, at, newDay, mono).world.db.sessions == RollDay(w, at, newDay, mono).world.db.sessions
  { }

  lemma SetBackRows(w: World, mono: real, row: Session, closed: Session, next: Session)
    requires OnSince(w, 10, 50.0) && row == Session(0, 10, GAME, None, 0.0)
    requires closed == row.(ended := Some(5 * DAY), duration := 50.0) && next == Session(1, 5, GAME, None, 0.0)
    ensures RollDay(w, 5 * DAY, 5, mono).world.db.sessions == [closed, next]
  {
    assert CloseRows([row], 0, 50.0, 5 * DAY) == [closed];
    KeptBoth(closed, next, Cutoff(1, 5 * DAY));
  }

  lemma KeptBoth(a: Session, b: Session, cutoff: int)
    requires !TooOld(a, cutoff) && !TooOld(b, cutoff)
    ensures RetainSessions([a, b], cutoff) == [a, b]
  {
    assert [a, b][..1] == [a] && [a][..0] == [];
    assert RetainSessions([a], cutoff) == [] + [a];
  }

  lemma ClosedTooEarly(closed: Session, row: Session)
    requires closed.day == 10 && closed.ended == Some(5 * DAY) && closed.duration == 50.0 && row.day == 5
    ensures ExpiredUsage([closed, row], 10, Cutoff(1, 10 * DAY)) == 50.0
  {
    assert [closed, row][..1] == [closed];
    OneRow(closed, 10, Cutoff(1, 10 * DAY));
  }

  // ----- the heatmap

  /** A game is on, ten seconds before the end of day 0. */
  const LATE := CALM.(game := Some(GAME), session := Some(0), lastWall := DAY - 10 * SECOND,
                      db := EMPTY_TABLES.(sessions := [Session(0, 0, GAME, None, 0.0)], nextId := 1))

  const EARLY := Reading(DAY + 10 * SECOND, 20.0)

  /** A crash right after the first tick of a day, ten seconds into it: the ten seconds stay in the
      heatmap, but not in the play time. */
  lemma CrashLeavesHeat()
    ensures Linked(LATE) && ValidConfig(SETTINGS) && HeatSound(LATE, 1, 0.0, 0.0)
    ensures var v := Startup(Tick(LATE, EARLY).world.db, SETTINGS, EARLY).world;
            Heat(v, WholeDay(1)) == 10.0 && LiveUsage(v, 1) == 0.0
  {
    LateEnough();
    CrashAfterRoll(LATE, EARLY, SETTINGS, EARLY);
  }

  lemma LateEnough()
    ensures Linked(LATE) && ValidConfig(SETTINGS) && HeatSound(LATE, 1, 0.0, 0.0) && Reliable(LATE, EARLY)
    ensures DayOf(SETTINGS, EARLY.now) == 1 && KeepsBuckets(LATE, EARLY, 1)
    ensures Heat(LATE, WholeDay(1)) == 0.0 && LiveUsage(LATE, 1) == 0.0 && Purged(LATE, EARLY, 1) == 0.0
    ensures Credit(LATE, EARLY, 1) == 10.0
  {
    RegularSettings();
    LateBooks();
    SplitExact(LATE.lastWall, EARLY.now, DAY);
    assert DayStart(SETTINGS, 1) == DAY;
  }

  lemma LateBooks()
    ensures Linked(LATE) && HeatSound(LATE, 1, 0.0, 0.0)
    ensures Heat(LATE, WholeDay(1)) == 0.0 && LiveUsage(LATE, 1) == 0.0
    ensures forall cutoff :: ExpiredUsage(LATE.db.sessions, 1, cutoff) == 0.0
  {
    var row := Session(0, 0, GAME, None, 0.0);
    assert [row][..0] == [] && LiveRows(LATE) == [row];
    forall cutoff ensures ExpiredUsage(LATE.db.sessions, 1, cutoff) == 0.0 {
      OneRow(row, 1, cutoff);
    }
    OneRow(row, 1, 0);
  }
}
