/** The time-accounting engine as a transition system: the state that the engine object and its
    storage hold between them, and one function per command. The object itself, in EngineObject,
    is proved to carry out exactly these transitions. Each command reads the clock once. */
module Engine {
  import opened Basics
  import opened Zones
  import opened Schedule
  import opened Records
  import opened Storage
  import Heatmap

  datatype Config = Config(
    limitsEnabled: bool, reset: int, zone: Zone, weekly: Week, periods: seq<Period>,
    thresholdMinutes: seq<int>, notifyAtExhaustion: bool,
    countOnlyWhilePlaying: bool, level: int,
    retentionDays: int, checkpointSeconds: int)

  /** What configuration validation guarantees of the settings the engine reads. */
  predicate ValidConfig(c: Config) {
    && ValidReset(c.reset)
    && (forall i :: 0 <= i < DAYS_IN_WEEK ==> 0 <= c.weekly[i].minutes <= 1440)
    && (forall i :: 0 <= i < |c.periods| ==> ValidPeriod(c.periods[i]))
    && (forall i :: 0 <= i < |c.thresholdMinutes| ==> 0 < c.thresholdMinutes[i] <= 1440)
    && 0 <= c.level <= 3
    && 1 <= c.retentionDays <= 3650
    && 5 <= c.checkpointSeconds <= 600
  }

  /** One reading of the wall clock and of the monotonic clock. */
  datatype Reading = Reading(now: int, mono: real)

  datatype Reason = Unrestricted | DailyLimit | TimerExpired | OutsidePeriod

  datatype World = World(
    cfg: Config, db: Tables,
    day: int, played: real,
    game: Option<Game>, session: Option<nat>, duration: real,
    timer: Timer, suspended: bool,
    reason: Reason, level: int,
    lastMono: real, lastWall: int, lastCheckpoint: real, lastPersist: real, lastOffset: int,
    pending: Pending)

  datatype Event =
    | SessionRecovered(id: nat, seconds: real)
    | TimerPausedAfterRestart
    | SuspendInferred
    | ResumeInferred
    | ClockChanged
    | OffsetChanged(oldOffset: int, newOffset: int)
    | SessionRotated(fromDay: int, toDay: int)
    | DailyReset(oldDay: int, newDay: int)
    | TimerRanOut
    | Warning(scope: Scope, threshold: int)
    | RestrictionChanged(oldReason: Reason, oldLevel: int, newReason: Reason, newLevel: int)
    | GameStarted(game: Game, session: nat)
    | GameUpdated(game: Game)
    | GameStopped(game: Game, session: nat, seconds: real)
    | NewGameBlocked(game: Game)
    | StartedWhileRestricted(game: Game)
    | SystemSuspended
    | SystemResumed
    | TimerStarted
    | TimerPaused
    | TimerResumed
    | TimerCancelled
    | TimerAdjusted(change: int)
    | DailyAdjusted(onDay: int, bySeconds: int)
    | ConfigUpdated

  datatype Effect = Effect(world: World, events: seq<Event>)

  datatype Refusal =
    | BadGame | SessionConflict | Restricted | BadDuration | BadAction | NotRunning | NotPaused
    | NoTimer | AdjustmentOutOfRange | AdjustmentZero | ReasonRequired

  /** A command completes with its events, is refused with a domain error, or raises an error that
      nobody expects; the last two report no events. */
  datatype Reply =
    | Done(world: World, events: seq<Event>)
    | Refused(world: World, why: Refusal)
    | Raised(world: World)

  /** The events that a caller gets to see. */
  function EventsOf(p: Reply): seq<Event> { if p.Done? then p.events else [] }

  // ----- clocks and days

  function DayOf(c: Config, now: int): int { AccountingDay(c.zone, c.reset, now) }

  function DayStart(c: Config, day: int): int { AccountingDayStart(c.zone, c.reset, day) }

  function MonoDelta(w: World, r: Reading): real { MaxReal(0.0, r.mono - w.lastMono) }

  function Discrepancy(w: World, r: Reading): real { Seconds(r.now - w.lastWall) - MonoDelta(w, r) }

  /** Whether the wall interval since the last tick may be used to say when play happened. */
  predicate Reliable(w: World, r: Reading) {
    !w.suspended && MonoDelta(w, r) > 0.0 && w.lastWall < r.now && Abs(Discrepancy(w, r)) <= 5.0
  }

  function NoteClock(w: World, r: Reading): Effect {
    var gap := Discrepancy(w, r);
    var clockEvents := if gap > 30.0 then [SuspendInferred, ResumeInferred]
                       else if Abs(gap) > 5.0 then [ClockChanged]
                       else [];
    var offset := OffsetAt(w.cfg.zone, r.now);
    if offset != w.lastOffset
    then Effect(w.(lastOffset := offset), clockEvents + [OffsetChanged(w.lastOffset, offset)])
    else Effect(w, clockEvents)
  }

  // ----- limits, warnings and restriction

  function EffectiveLimit(w: World, now: int): Option<int> {
    if !w.cfg.limitsEnabled then None
    else match LimitForDay(w.cfg.weekly, DayOf(w.cfg, now))
      case None => None
      case Some(base) => Some(Max(0, base + AdjustmentForDay(w.db.adjustments, w.day)))
  }

  function DailyRemaining(w: World, now: int): Option<real> {
    match EffectiveLimit(w, now)
    case None => None
    case Some(limit) => Some(MaxReal(0.0, limit as real - w.played))
  }

  function TimerRemaining(w: World): Option<real> {
    if w.timer.state != Idle && w.timer.generation.Some? then Some(MaxReal(0.0, w.timer.remaining)) else None
  }

  /** Remaining time of every scope that has any: what a warning is measured against. */
  datatype Snapshot = Snapshot(day: int, daily: Option<real>, generation: Option<nat>, timer: Option<real>)

  function TakeSnapshot(w: World, now: int): Snapshot {
    Snapshot(w.day, DailyRemaining(w, now), w.timer.generation, TimerRemaining(w))
  }

  function Lookup(s: Snapshot, scope: Scope): Option<real> {
    match scope
    case Daily(d) => if d == s.day then s.daily else None
    case OfTimer(g) => if s.generation == Some(g) then s.timer else None
  }

  /** The thresholds in seconds, in the order they are tried. */
  function Thresholds(minutes: seq<int>): seq<int> {
    seq(|minutes|, i requires 0 <= i < |minutes| => minutes[i] * 60)
  }

  function DueThresholds(c: Config): seq<int> {
    Thresholds(c.thresholdMinutes) + if c.notifyAtExhaustion then [0] else []
  }

  predicate Crosses(threshold: int, previous: real, remaining: real) {
    remaining < previous && remaining <= threshold as real <= previous
  }

  datatype Swept = Swept(db: Tables, newly: seq<int>)

  /** Marks each crossed threshold; `newly` are those that had no mark yet. */
  function Sweep(db: Tables, scope: Scope, due: seq<int>, previous: real, remaining: real, now: int): Swept {
    if due == [] then Swept(db, [])
    else
      var s := Sweep(db, scope, due[..|due| - 1], previous, remaining, now);
      var t := due[|due| - 1];
      if Crosses(t, previous, remaining) && Mark(scope, t) !in s.db.marks
      then Swept(MarkNotification(s.db, Mark(scope, t), now), s.newly + [t])
      else s
  }

  function Least(s: seq<int>): int
    requires s != []
  {
    if |s| == 1 then s[0] else Min(Least(s[..|s| - 1]), s[|s| - 1])
  }

  function ThresholdEvents(w: World, scope: Scope, previous: Option<real>, remaining: real, now: int): Effect {
    if previous.None? then Effect(w, [])
    else
      var s := Sweep(w.db, scope, DueThresholds(w.cfg), previous.value, remaining, now);
      Effect(w.(db := s.db), if s.newly == [] then [] else [Warning(scope, Least(s.newly))])
  }

  function WarnScope(w: World, scope: Scope, now: int, before: Snapshot): Effect {
    match Lookup(TakeSnapshot(w, now), scope)
    case None => Effect(w, [])
    case Some(remaining) => ThresholdEvents(w, scope, Lookup(before, scope), remaining, now)
  }

  function Warn(w: World, now: int, before: Snapshot): Effect {
    var timer := if w.timer.generation.Some?
                 then WarnScope(w, OfTimer(w.timer.generation.value), now, before)
                 else Effect(w, []);
    var daily := WarnScope(timer.world, Daily(w.day), now, before);
    Effect(daily.world, timer.events + daily.events)
  }

  predicate KnownAction(action: string) {
    action in {"inherit", "notify_only", "soft", "close", "block"}
  }

  /** The level an expired timer imposes, unless it inherits the configured one. */
  function ActionLevel(action: string): Option<int> {
    if action == "notify_only" then Some(0)
    else if action == "soft" then Some(1)
    else if action == "close" then Some(2)
    else if action == "block" then Some(3)
    else None
  }

  function Priority(w: World, now: int): (Reason, int) {
    var limit := EffectiveLimit(w, now);
    if w.timer.state == Expired then
      (TimerExpired, match ActionLevel(w.timer.action) case None => w.cfg.level case Some(l) => l)
    else if limit.Some? && limit.value as real <= w.played then (DailyLimit, w.cfg.level)
    else if w.cfg.limitsEnabled && !WithinAllowedPeriod(w.cfg.periods, w.cfg.zone, now) then
      (OutsidePeriod, w.cfg.level)
    else (Unrestricted, 0)
  }

  function Refresh(w: World, now: int): Effect {
    var p := Priority(w, now);
    Effect(w.(reason := p.0, level := p.1),
           if p == (w.reason, w.level) then []
           else [RestrictionChanged(w.reason, w.level, p.0, p.1)])
  }

  // ----- accounting

  function Flush(w: World): World {
    w.(db := w.db.(buckets := AddBuckets(w.db.buckets, w.pending)), pending := [])
  }

  function Account(w: World, seconds: real, start: int, end: int, record: bool): World {
    if w.game.Some? && seconds > 0.0 then
      w.(played := w.played + seconds,
         duration := w.duration + seconds,
         pending := if record
                    then Heatmap.Queue(w.cfg.zone, w.game.value, w.day, start, end, seconds, w.pending)
                    else w.pending)
    else w
  }

  /** Divides an elapsed time in the proportion of `part` to `whole`. */
  function Divide(elapsed: real, part: real, whole: real): (real, real)
    requires whole != 0.0
  {
    var ratio := MaxReal(0.0, MinReal(1.0, part / whole));
    (elapsed * ratio, elapsed - elapsed * ratio)
  }

  function SplitElapsed(elapsed: real, previous: int, current: int, boundary: int): (real, real) {
    if elapsed <= 0.0 then (0.0, 0.0)
    else if current <= previous || boundary <= previous then (0.0, elapsed)
    else if current <= boundary then (elapsed, 0.0)
    else Divide(elapsed, Seconds(boundary - previous), Seconds(current - previous))
  }

  function RotateSession(w: World, at: int, newDay: int, mono: real): Effect {
    if w.game.Some? && w.session.Some? then
      var f := Flush(w);
      var closed := CloseSession(f.db, w.session.value, w.duration, at);
      Effect(f.(db := OpenSession(closed, newDay, w.game.value),
                session := Some(closed.nextId), duration := 0.0, lastCheckpoint := mono),
             [SessionRotated(w.day, newDay)])
    else Effect(w, [])
  }

  function RollDay(w: World, at: int, newDay: int, mono: real): Effect {
    var rotated := RotateSession(w, at, newDay, mono);
    Effect(rotated.world.(
             day := newDay,
             played := UsageForDay(rotated.world.db.sessions, newDay),
             db := EnforceRetention(rotated.world.db, w.cfg.retentionDays, at)),
           rotated.events + [DailyReset(w.day, newDay)])
  }

  function AccountUnlessSuspended(w: World, seconds: real, start: int, end: int, record: bool): World {
    if w.suspended then w else Account(w, seconds, start, end, record)
  }

  /** Credits the time since the last tick, across the daily reset if there was one. */
  function Advance(w: World, r: Reading): Effect {
    var newDay := DayOf(w.cfg, r.now);
    var elapsed := MonoDelta(w, r);
    var record := Reliable(w, r);
    if newDay == w.day then
      Effect(AccountUnlessSuspended(w, elapsed, w.lastWall, r.now, record), [])
    else
      var boundary := DayStart(w.cfg, newDay);
      var split := SplitElapsed(elapsed, w.lastWall, r.now, boundary);
      var before := AccountUnlessSuspended(w, split.0, w.lastWall, boundary, record);
      var rolled := RollDay(before, boundary, newDay, r.mono);
      Effect(if w.suspended then rolled.world
             else Flush(Account(rolled.world, split.1, boundary, r.now, record)),
             rolled.events)
  }

  predicate TimerCounts(w: World) {
    w.timer.state == Running && !w.suspended && (!w.cfg.countOnlyWhilePlaying || w.game.Some?)
  }

  function RunTimer(w: World, elapsed: real): Effect {
    if !TimerCounts(w) then Effect(w, [])
    else
      var t := w.timer.(remaining := MaxReal(0.0, w.timer.remaining - elapsed));
      if t.remaining <= 0.0 then
        var out := t.(state := Expired);
        Effect(w.(timer := out, db := SaveTimer(w.db, out)), [TimerRanOut])
      else Effect(w.(timer := t), [])
  }

  function PersistSession(w: World, mono: real): World {
    if w.session.Some? && mono - w.lastCheckpoint >= w.cfg.checkpointSeconds as real then
      Flush(w.(db := CheckpointSession(w.db, w.session.value, w.duration))).(lastCheckpoint := mono)
    else w
  }

  function PersistTimer(w: World, mono: real): World {
    if w.timer.state == Running && mono - w.lastPersist >= w.cfg.checkpointSeconds as real then
      w.(db := SaveTimer(w.db, w.timer), lastPersist := mono)
    else w
  }

  /** Runs the timer for the elapsed time and saves what is due. */
  function Settle(w: World, elapsed: real, mono: real): Effect {
    var timed := RunTimer(w, elapsed);
    Effect(PersistTimer(PersistSession(timed.world, mono), mono), timed.events)
  }

  /** Notes what the clocks have done and credits the time. */
  function AdvanceClock(w: World, r: Reading): Effect {
    var clock := NoteClock(w, r);
    var advanced := Advance(clock.world, r);
    Effect(advanced.world, clock.events + advanced.events)
  }

  /** The part of a tick that moves time forward. */
  function Elapse(w: World, r: Reading): Effect {
    var advanced := AdvanceClock(w, r);
    var settled := Settle(advanced.world, MonoDelta(w, r), r.mono);
    Effect(settled.world.(lastMono := r.mono, lastWall := r.now), advanced.events + settled.events)
  }

  /** Warnings for what was crossed since `before`, then the restriction that follows. */
  function Announce(w: World, now: int, before: Snapshot): Effect {
    var warned := Warn(w, now, before);
    var refreshed := Refresh(warned.world, now);
    Effect(refreshed.world, warned.events + refreshed.events)
  }

  function Tick(w: World, r: Reading): Effect {
    var elapsed := Elapse(w, r);
    var announced := Announce(elapsed.world, r.now, TakeSnapshot(w, r.now));
    Effect(announced.world, elapsed.events + announced.events)
  }

  // ----- commands

  function CloseCurrent(w: World, at: int): Effect {
    if w.game.None? || w.session.None? then
      Effect(w.(game := None, session := None, duration := 0.0), [])
    else
      var f := Flush(w);
      Effect(f.(db := CloseSession(f.db, w.session.value, w.duration, at),
                game := None, session := None, duration := 0.0),
             [GameStopped(w.game.value, w.session.value, w.duration)])
  }

  function BeginSession(w: World, g: Game, mono: real): Effect {
    var id := w.db.nextId;
    Effect(w.(game := Some(g), session := Some(id), db := OpenSession(w.db, w.day, g),
              duration := 0.0, lastCheckpoint := mono),
           StartEvents(g, id, w.level))
  }

  function StartEvents(g: Game, id: nat, level: int): seq<Event> {
    [GameStarted(g, id)]
    + if level >= 3 then [NewGameBlocked(g)]
      else if level >= 2 then [StartedWhileRestricted(g)]
      else []
  }

  // Every command but `resume` starts with a tick; what follows the tick is its tail.

  function SetGameTail(t: World, g: Game, r: Reading): Reply {
    if t.game.Some? && SameGame(t.game.value, g) then Done(t.(game := Some(g)), [GameUpdated(g)])
    else
      var c := if t.game.Some? then CloseCurrent(t, r.now) else Effect(t, []);
      if AnyOpen(c.world.db.sessions) then Refused(c.world.(game := None), SessionConflict)
      else
        var b := BeginSession(c.world, g, r.mono);
        Done(b.world, c.events + b.events)
  }

  function StopGameTail(t: World, r: Reading): Reply {
    var c := CloseCurrent(t, r.now);
    var f := Refresh(c.world, r.now);
    Done(f.world, c.events + f.events)
  }

  function SuspendTail(t: World): Reply {
    if t.suspended then Done(t, []) else Done(t.(suspended := true), [SystemSuspended])
  }

  function StartTimerTail(t: World, seconds: int, action: string): Reply {
    if t.level >= 1 then Refused(t, Restricted)
    else if !(60 <= seconds <= 86400) then Refused(t, BadDuration)
    else if !KnownAction(action) then Refused(t, BadAction)
    else
      var generation := t.db.nextId;
      var timer := Timer(Running, seconds, seconds as real, action, Some(generation));
      var db := SaveTimer(t.db.(nextId := generation + 1), timer);
      Done(t.(timer := timer, db := ClearScope(db, OfTimer(generation))), [TimerStarted])
  }

  function PauseTimerTail(t: World): Reply {
    if t.timer.state != Running then Refused(t, NotRunning)
    else
      var timer := t.timer.(state := Paused);
      Done(t.(timer := timer, db := SaveTimer(t.db, timer)), [TimerPaused])
  }

  function ResumeTimerTail(t: World): Reply {
    if t.level >= 1 then Refused(t, Restricted)
    else if t.timer.state != Paused then Refused(t, NotPaused)
    else
      var timer := t.timer.(state := Running);
      Done(t.(timer := timer, db := SaveTimer(t.db, timer)), [TimerResumed])
  }

  function CancelTimerTail(t: World, r: Reading): Reply {
    if t.timer.state == Idle then Done(t, [])
    else
      var f := Refresh(t.(timer := BLANK_TIMER, db := SaveTimer(t.db, BLANK_TIMER)), r.now);
      Done(f.world, [TimerCancelled] + f.events)
  }

  /** Marks the configured thresholds that equal the remaining time. */
  function MarkLanding(db: Tables, generation: nat, thresholds: seq<int>, remaining: real, now: int): Tables {
    if thresholds == [] then db
    else
      var d := MarkLanding(db, generation, thresholds[..|thresholds| - 1], remaining, now);
      var t := thresholds[|thresholds| - 1];
      if remaining == t as real then MarkNotification(d, Mark(OfTimer(generation), t), now) else d
  }

  function AdjustedTimer(t: Timer, seconds: int): Timer {
    var remaining := MaxReal(0.0, MinReal(86400.0, t.remaining + seconds as real));
    t.(remaining := remaining,
       state := if remaining == 0.0 then Expired
                else if t.state == Expired then Paused
                else t.state)
  }

  /** The adjustment proper: new remaining time, saved, with the marks re-armed after an increase. */
  function ApplyAdjustment(w: World, seconds: int, now: int): World {
    var timer := AdjustedTimer(w.timer, seconds);
    var saved := SaveTimer(w.db, timer);
    w.(timer := timer,
       db := if seconds > 0 && timer.generation.Some?
             then MarkLanding(ClearScope(saved, OfTimer(timer.generation.value)), timer.generation.value,
                              Thresholds(w.cfg.thresholdMinutes), timer.remaining, now)
             else saved)
  }

  function AdjustTimerTail(t: World, seconds: int, r: Reading): Reply {
    if t.timer.state == Idle then Refused(t, NoTimer)
    else if !AdjustmentInRange(seconds) then Refused(t, AdjustmentOutOfRange)
    else if seconds == 0 then Refused(t, AdjustmentZero)
    else
      var a := Announce(ApplyAdjustment(t, seconds, r.now), r.now, TakeSnapshot(t, r.now));
      Done(a.world, [TimerAdjusted(seconds)] + a.events)
  }

  /** The grant proper: the adjustment row, with the day's marks re-armed after an increase. */
  function ApplyGrant(w: World, seconds: int, now: int): World {
    var granted := GrantAdjustment(w.db, w.day, seconds, now);
    w.(db := if seconds > 0 then ClearScope(granted, Daily(w.day)) else granted)
  }

  /** An amount that is out of range is not checked by the engine but by the storage, whose error is
      not a domain error. */
  function GrantTail(t: World, seconds: int, reason: string, r: Reading): Reply {
    if IsBlank(reason) then Refused(t, ReasonRequired)
    else if seconds == 0 then Refused(t, AdjustmentZero)
    else if !AdjustmentInRange(seconds) then Raised(t)
    else
      var a := Announce(ApplyGrant(t, seconds, r.now), r.now, TakeSnapshot(t, r.now));
      Done(a.world, [DailyAdjusted(t.day, seconds)] + a.events)
  }

  /** Forgets a scope's marks if its remaining time has grown. */
  function RearmIfGrown(db: Tables, scope: Scope, before: Snapshot, now: Snapshot): Tables {
    var previous, current := Lookup(before, scope), Lookup(now, scope);
    if previous.Some? && current.Some? && current.value > previous.value then ClearScope(db, scope) else db
  }

  /** Takes over new settings, rolling the day if they put the present in another one. */
  function SwitchConfig(w: World, c: Config, r: Reading): Effect {
    var newDay := DayOf(c, r.now);
    if newDay != w.day then RollDay(w.(cfg := c), r.now, newDay, r.mono) else Effect(w.(cfg := c), [])
  }

  function Rearm(w: World, now: int, before: Snapshot): World {
    var current := TakeSnapshot(w, now);
    var db := RearmIfGrown(w.db, Daily(w.day), before, current);
    w.(db := if w.timer.generation.None? then db
             else RearmIfGrown(db, OfTimer(w.timer.generation.value), before, current))
  }

  function UpdateConfigTail(t: World, c: Config, r: Reading): Reply {
    var before := TakeSnapshot(t, r.now);
    var switched := SwitchConfig(t, c, r);
    var a := Announce(Rearm(switched.world, r.now, before), r.now, before);
    Done(a.world, switched.events + a.events + [ConfigUpdated])
  }

  function ShutdownTail(t: World, r: Reading): Reply {
    var c := if t.session.Some?
             then CloseCurrent(t.(db := CheckpointSession(t.db, t.session.value, t.duration)), r.now)
             else Effect(t, []);
    Done(if c.world.timer.state == Running then c.world.(db := SaveTimer(c.world.db, c.world.timer)) else c.world,
         c.events)
  }

  function Resume(w: World, r: Reading): Effect {
    var base := w.(lastWall := r.now, lastMono := r.mono);
    var newDay := DayOf(w.cfg, r.now);
    var rolled := if newDay != w.day then RollDay(base, r.now, newDay, r.mono) else Effect(base, []);
    if w.suspended then Effect(rolled.world.(suspended := false), rolled.events + [SystemResumed])
    else rolled
  }

  /** What a new engine finds in tables that an earlier run, perhaps a crashed one, left behind. */
  function Load(db: Tables, c: Config, r: Reading): Effect {
    var day := DayOf(c, r.now);
    var open := FindOpen(db.sessions);
    Effect(World(c, RecoverOpenSession(db, r.now), day, UsageForDay(db.sessions, day), None, None, 0.0,
                 LoadTimer(db), false, Unrestricted, 0, r.mono, r.now, r.mono, r.mono, OffsetAt(c.zone, r.now), []),
           if open.Some? then [SessionRecovered(open.value.id, open.value.duration)] else [])
  }

  function PauseRunning(w: World): Effect {
    if w.timer.state != Running then Effect(w, [])
    else
      var timer := w.timer.(state := Paused);
      Effect(w.(timer := timer, db := SaveTimer(w.db, timer)), [TimerPausedAfterRestart])
  }

  /** Builds an engine over stored tables. */
  function Startup(db: Tables, c: Config, r: Reading): Effect {
    var loaded := Load(db, c, r);
    var paused := PauseRunning(loaded.world);
    Effect(Refresh(paused.world, r.now).world, loaded.events + paused.events)
  }

  /** `history.clear`: refused while a session is open. */
  function PurgeHistory(w: World): Reply {
    if AnyOpen(w.db.sessions) then Refused(w, SessionConflict)
    else Done(w.(db := ClearHistory(w.db), played := 0.0), [])
  }

  // ----- runs

  /** Everything that can happen to the engine, including a crash followed by a restart. */
  datatype Command =
    | DoTick
    | DoSetGame(game: Game)
    | DoStopGame
    | DoSuspend
    | DoResume
    | DoStartTimer(seconds: int, action: string)
    | DoPauseTimer
    | DoResumeTimer
    | DoCancelTimer
    | DoAdjustTimer(seconds: int)
    | DoGrant(seconds: int, reason: string)
    | DoUpdateConfig(config: Config)
    | DoShutdown
    | DoPurge
    | DoRestart(config: Config)

  predicate ValidCommand(c: Command) {
    c.DoUpdateConfig? || c.DoRestart? ==> ValidConfig(c.config)
  }

  /** The commands that tick before they do anything else. */
  predicate TicksFirst(c: Command) {
    !c.DoResume? && !c.DoPurge? && !c.DoRestart? && (c.DoSetGame? ==> ValidGame(c.game))
  }

  function Tail(t: World, c: Command, r: Reading): Reply
    requires TicksFirst(c)
  {
    match c
    case DoTick => Done(t, [])
    case DoSetGame(g) => SetGameTail(t, g, r)
    case DoStopGame => StopGameTail(t, r)
    case DoSuspend => SuspendTail(t)
    case DoStartTimer(s, a) => StartTimerTail(t, s, a)
    case DoPauseTimer => PauseTimerTail(t)
    case DoResumeTimer => ResumeTimerTail(t)
    case DoCancelTimer => CancelTimerTail(t, r)
    case DoAdjustTimer(s) => AdjustTimerTail(t, s, r)
    case DoGrant(s, reason) => GrantTail(t, s, reason, r)
    case DoUpdateConfig(cfg) => UpdateConfigTail(t, cfg, r)
    case DoShutdown => ShutdownTail(t, r)
  }

  function AfterTick(t: Effect, tail: Reply): Reply {
    match tail
    case Done(w, events) => Done(w, t.events + events)
    case Refused(w, why) => tail
    case Raised(w) => tail
  }

  /** A command without the tick that it may start with. */
  function Proper(t: World, c: Command, r: Reading): Reply {
    if TicksFirst(c) then Tail(t, c, r)
    else match c
      case DoResume => var e := Resume(t, r); Done(e.world, e.events)
      case DoPurge => PurgeHistory(t)
      case DoRestart(cfg) => var e := Startup(t.db, cfg, r); Done(e.world, e.events)
      case _ => Refused(t, BadGame)
  }

  function Step(w: World, c: Command, r: Reading): Reply {
    if TicksFirst(c) then AfterTick(Tick(w, r), Tail(Tick(w, r).world, c, r)) else Proper(w, c, r)
  }

  /** The tick that a command starts with, if it starts with one. */
  function Ticked(w: World, c: Command, r: Reading): Effect {
    if TicksFirst(c) then Tick(w, r) else Effect(w, [])
  }

  /** The events that a command records, whether or not it completes. */
  function Recorded(w: World, c: Command, r: Reading): seq<Event> {
    Ticked(w, c, r).events + EventsOf(Proper(Ticked(w, c, r).world, c, r))
  }

  datatype Input = Input(command: Command, at: Reading)

  /** The state after each input of a run, oldest first. */
  function After(w: World, run: seq<Input>): World {
    if run == [] then w
    else
      var last := run[|run| - 1];
      Step(After(w, run[..|run| - 1]), last.command, last.at).world
  }

  function RecordedInRun(w: World, run: seq<Input>): seq<Event> {
    if run == [] then []
    else
      var prefix, last := run[..|run| - 1], run[|run| - 1];
      RecordedInRun(w, prefix) + Recorded(After(w, prefix), last.command, last.at)
  }

  // ----- the next-warning forecast of `status`

  /** Python's `round`: to the nearest integer, halves to the even one. */
  function Round(x: real): int {
    var below := x.Floor;
    var rest := x - below as real;
    if rest < 0.5 || (rest == 0.5 && below % 2 == 0) then below else below + 1
  }

  datatype Forecast = Forecast(scope: Scope, threshold: int, secondsUntil: int)

  /** The largest unmarked threshold that `remaining` has not passed. */
  function Candidate(marked: set<int>, due: seq<int>, remaining: int): Option<int> {
    if due == [] then None
    else
      var best := Candidate(marked, due[..|due| - 1], remaining);
      var t := due[|due| - 1];
      if t in marked || remaining < t || (best.Some? && t <= best.value) then best else Some(t)
  }

  function WarningCandidate(w: World, scope: Scope, remaining: int): Option<Forecast> {
    match Candidate(MarkedThresholds(w.db, scope), DueThresholds(w.cfg), remaining)
    case None => None
    case Some(t) => Some(Forecast(scope, t, Max(0, remaining - t)))
  }

  function TimerForecast(w: World): Option<Forecast> {
    if w.timer.state == Running && w.timer.generation.Some?
       && (!w.cfg.countOnlyWhilePlaying || w.game.Some?)
    then WarningCandidate(w, OfTimer(w.timer.generation.value), Max(0, w.timer.remaining.Floor))
    else None
  }

  /** The rounded remaining seconds that `status` reports and forecasts from. */
  function ReportedDailyRemaining(w: World, now: int): Option<int> {
    match EffectiveLimit(w, now)
    case None => None
    case Some(limit) => Some(Max(0, Round(limit as real - w.played)))
  }

  function DailyForecast(w: World, now: int): Option<Forecast> {
    match ReportedDailyRemaining(w, now)
    case None => None
    case Some(remaining) => WarningCandidate(w, Daily(w.day), remaining)
  }

  /** `status` reports the nearer of the two, the lower threshold breaking a tie. */
  function NextWarning(w: World, now: int): Option<Forecast> {
    var d, t := DailyForecast(w, now), TimerForecast(w);
    if d.None? then t
    else if t.None? then d
    else if t.value.secondsUntil < d.value.secondsUntil
         || (t.value.secondsUntil == d.value.secondsUntil && t.value.threshold < d.value.threshold) then t
    else d
  }
}
