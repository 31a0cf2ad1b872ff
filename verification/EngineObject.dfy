/** The engine object. Its methods work on its own fields and on the storage object, step by step,
    and are proved to carry out the transitions of Engine. */
module EngineObject {
  import opened Basics
  import opened Zones
  import opened Ledger
  import opened Records
  import opened SessionLaws
  import opened RecoveryLaws
  import E = Engine
  import H = Heatmap
  import S = Storage
  import StorageObject
  import Schedule

  /** What a caller of a command sees. */
  datatype Outcome = Completed(events: seq<E.Event>) | Rejected(why: E.Refusal) | Crashed

  /** The state and outcome are those of the transition's reply. */
  ghost predicate Answers(v: E.World, o: Outcome, p: E.Reply) {
    match p
    case Done(w, events) => v == w && o == Completed(events)
    case Refused(w, why) => v == w && o == Rejected(why)
    case Raised(w) => v == w && o == Crashed
  }

  class GuardianEngine {
    const storage: StorageObject.Storage
    var cfg: E.Config
    var day: int
    var played: real
    var game: Option<Game>
    var session: Option<nat>
    var duration: real
    var timer: Timer
    var suspended: bool
    var reason: E.Reason
    var level: int
    var lastMono: real
    var lastWall: int
    var lastCheckpoint: real
    var lastPersist: real
    var lastOffset: int
    var pending: Pending
    var initialEvents: seq<E.Event>

    /** The state of the engine and its tables as one value. */
    function View(): E.World
      reads this, storage
    {
      E.World(cfg, storage.View(), day, played, game, session, duration, timer, suspended, reason, level,
              lastMono, lastWall, lastCheckpoint, lastPersist, lastOffset, pending)
    }

    ghost predicate Valid()
      reads this, storage
    {
      Linked(View()) && E.ValidConfig(cfg)
    }

    /** Takes over tables that an earlier engine left behind. */
    constructor (s: StorageObject.Storage, c: E.Config, r: E.Reading)
      requires E.ValidConfig(c)
      requires S.NonNegative(s.sessions) && Acceptable(s.buckets)
      requires S.AllClosed(s.sessions) || exists id, d :: S.OpenLast(s.sessions, id, d)
      modifies s
      ensures storage == s && Valid()
      ensures View() == E.Startup(old(s.View()), c, r).world
      ensures initialEvents == E.Startup(old(s.View()), c, r).events
    {
      storage := s;
      cfg := c;
      day := E.DayOf(c, r.now);
      game, session, duration := None, None, 0.0;
      suspended := false;
      reason, level := E.Unrestricted, 0;
      lastMono, lastWall, lastCheckpoint, lastPersist := r.mono, r.now, r.mono, r.mono;
      lastOffset := OffsetAt(c.zone, r.now);
      pending := [];
      played, timer := 0.0, BLANK_TIMER;
      new;
      ghost var db := s.View();
      TakeOver(r);
      StartupBooks(db, c, r, 0);
    }

    /** Loads what is stored, closes a session left open, and pauses a timer left running. */
    method TakeOver(r: E.Reading)
      requires View() == E.World(cfg, storage.View(), E.DayOf(cfg, r.now), 0.0, None, None, 0.0, BLANK_TIMER, false,
                                 E.Unrestricted, 0, r.mono, r.now, r.mono, r.mono, OffsetAt(cfg.zone, r.now), [])
      modifies this, storage
      ensures View() == E.Startup(old(storage.View()), old(cfg), r).world
      ensures initialEvents == E.Startup(old(storage.View()), old(cfg), r).events
    {
      var recovered := LoadStored(r);
      var paused := PauseRunning();
      initialEvents := recovered + paused;
      var ignored := RefreshRestriction(r.now);
    }

    method LoadStored(r: E.Reading) returns (events: seq<E.Event>)
      requires View() == E.World(cfg, storage.View(), E.DayOf(cfg, r.now), 0.0, None, None, 0.0, BLANK_TIMER, false,
                                 E.Unrestricted, 0, r.mono, r.now, r.mono, r.mono, OffsetAt(cfg.zone, r.now), [])
      modifies this`played, this`timer, storage
      ensures View() == E.Load(old(storage.View()), cfg, r).world
      ensures events == E.Load(old(storage.View()), cfg, r).events
    {
      played := storage.UsageForDay(day);
      timer := storage.LoadTimer();
      var recovered := storage.RecoverOpenSession(r.now);
      events := if recovered.Some? then [E.SessionRecovered(recovered.value.id, recovered.value.duration)] else [];
    }

    method PauseRunning() returns (events: seq<E.Event>)
      modifies this`timer, storage
      ensures View() == E.PauseRunning(old(View())).world
      ensures events == E.PauseRunning(old(View())).events
    {
      if timer.state != Running {
        return [];
      }
      timer := timer.(state := Paused);
      storage.SaveTimer(timer);
      return [E.TimerPausedAfterRestart];
    }

    method TakeInitialEvents() returns (events: seq<E.Event>)
      modifies this`initialEvents
      ensures events == old(initialEvents) && initialEvents == [] && View() == old(View())
    {
      events := initialEvents;
      initialEvents := [];
    }

    // ----- the heatmap

    method NextTarget(local: int) returns (target: int)
      ensures target == H.NextTarget(local)
    {
      var index := (local % DAY) / H.BLOCK;
      var targetDay, targetHour := local / DAY, (index + 1) * 4;
      if targetHour >= 24 {
        targetDay, targetHour := targetDay + 1, 0;
      }
      return targetDay * DAY + targetHour * 60 * MINUTE;
    }

    /** The next instant after `value` at which the local four-hour block changes. */
    method NextUsageBucketBoundary(value: int) returns (t: int)
      ensures t == H.NextBoundary(cfg.zone, value) && value < t
    {
      var target := NextTarget(Local(cfg.zone, value));
      var candidate := ToUtc(cfg.zone, target);
      if value < candidate {
        return candidate;
      }
      var probe := value - value % MINUTE + MINUTE;
      var block := H.BlockNumber(cfg.zone, value);
      for i := 0 to H.PROBES
        invariant value < probe
        invariant H.Probe(cfg.zone, value, block, probe, H.PROBES - i) == H.NextBoundary(cfg.zone, value)
      {
        if H.BlockNumber(cfg.zone, probe) != block {
          return probe;
        }
        probe := probe + MINUTE;
      }
      return value + SECOND;
    }

    /** Cuts a stretch of play at the block boundaries and queues the pieces. */
    method QueueUsageBuckets(g: Game, d: int, start: int, end: int, seconds: real)
      modifies this`pending
      ensures pending == H.Queue(cfg.zone, g, d, start, end, seconds, old(pending))
    {
      if end <= start || seconds <= 0.0 {
        return;
      }
      var cursor, remaining, who := start, seconds, WhoIs(g);
      while cursor < end && remaining > 0.0
        invariant start <= cursor <= end
        invariant H.Allocate(cfg.zone, who, d, start, end, seconds, cursor, remaining, pending) ==
                  H.Queue(cfg.zone, g, d, start, end, seconds, old(pending))
        decreases end - cursor
      {
        var boundary := NextUsageBucketBoundary(cursor);
        var segmentEnd := Min(boundary, end);
        var share;
        if segmentEnd == end {
          share := remaining;
        } else {
          share := H.Portion(seconds, segmentEnd - cursor, end - start);
          remaining := MaxReal(0.0, remaining - share);
        }
        pending := Put(pending, Entry(d, H.BlockIndex(cfg.zone, cursor), who, share));
        cursor := segmentEnd;
      }
    }

    method FlushUsageBuckets()
      modifies this`pending, storage
      ensures View() == E.Flush(old(View()))
    {
      if pending == [] {
        return;
      }
      storage.AddUsageBuckets(pending);
      pending := [];
    }

    // ----- accounting

    method AccountGameElapsed(seconds: real, start: int, end: int, record: bool)
      modifies this`played, this`duration, this`pending
      ensures View() == E.Account(old(View()), seconds, start, end, record)
    {
      if game.Some? && seconds > 0.0 {
        played := played + seconds;
        duration := duration + seconds;
        if record {
          QueueUsageBuckets(game.value, day, start, end, seconds);
        }
      }
    }

    method RotateSession(at: int, newDay: int, mono: real) returns (events: seq<E.Event>)
      requires Linked(View())
      modifies this, storage
      ensures View() == E.RotateSession(old(View()), at, newDay, mono).world
      ensures events == E.RotateSession(old(View()), at, newDay, mono).events
    {
      events := [];
      if game.Some? && session.Some? {
        FlushBooks(View());
        S.CloseOpen(storage.sessions, session.value, day, duration, at);
        FlushUsageBuckets();
        storage.CloseSession(session.value, duration, at);
        events := [E.SessionRotated(day, newDay)];
        var opening := storage.OpenSession(newDay, game.value);
        assert opening.Success?;
        session := Some(opening.value);
        duration := 0.0;
        lastCheckpoint := mono;
      }
    }

    method RollDay(at: int, newDay: int, mono: real) returns (events: seq<E.Event>)
      requires Linked(View())
      modifies this, storage
      ensures View() == E.RollDay(old(View()), at, newDay, mono).world
      ensures events == E.RollDay(old(View()), at, newDay, mono).events
    {
      var oldDay := day;
      events := RotateSession(at, newDay, mono);
      day := newDay;
      played := storage.UsageForDay(newDay);
      storage.EnforceRetention(cfg.retentionDays, at);
      events := events + [E.DailyReset(oldDay, newDay)];
    }

    method NoteClock(r: E.Reading) returns (events: seq<E.Event>)
      modifies this`lastOffset
      ensures View() == E.NoteClock(old(View()), r).world
      ensures old(Valid()) ==> Valid()
      ensures events == E.NoteClock(old(View()), r).events
    {
      var monoDelta := MaxReal(0.0, r.mono - lastMono);
      var discrepancy := Seconds(r.now - lastWall) - monoDelta;
      events := [];
      if discrepancy > 30.0 {
        events := [E.SuspendInferred, E.ResumeInferred];
      } else if Abs(discrepancy) > 5.0 {
        events := [E.ClockChanged];
      }
      var offset := OffsetAt(cfg.zone, r.now);
      if offset != lastOffset {
        events := events + [E.OffsetChanged(lastOffset, offset)];
        lastOffset := offset;
      }
    }

    method AccountUnlessSuspended(seconds: real, start: int, end: int, record: bool)
      requires Linked(View())
      modifies this`played, this`duration, this`pending
      ensures View() == E.AccountUnlessSuspended(old(View()), seconds, start, end, record) && Linked(View())
    {
      AccountBooks(View(), seconds, start, end, record, 0);
      if !suspended {
        AccountGameElapsed(seconds, start, end, record);
      }
    }

    /** Credits the elapsed time when the daily reset has passed since the last tick. */
    method CrossReset(newDay: int, elapsed: real, record: bool, r: E.Reading) returns (events: seq<E.Event>)
      requires Valid() && newDay == E.DayOf(cfg, r.now) && newDay != day
      requires elapsed == E.MonoDelta(View(), r) && record == E.Reliable(View(), r)
      modifies this, storage
      ensures View() == E.Advance(old(View()), r).world
      ensures events == E.Advance(old(View()), r).events
    {
      var boundary := E.DayStart(cfg, newDay);
      var split := E.SplitElapsed(elapsed, lastWall, r.now, boundary);
      AccountUnlessSuspended(split.0, lastWall, boundary, record);
      events := RollDay(boundary, newDay, r.mono);
      if !suspended {
        AccountGameElapsed(split.1, boundary, r.now, record);
        FlushUsageBuckets();
      }
    }

    method Advance(r: E.Reading) returns (events: seq<E.Event>)
      requires Valid()
      modifies this, storage
      ensures View() == E.Advance(old(View()), r).world && Linked(View())
      ensures events == E.Advance(old(View()), r).events
    {
      AdvanceBooks(View(), r, 0);
      var newDay := E.DayOf(cfg, r.now);
      var elapsed := MaxReal(0.0, r.mono - lastMono);
      var record := E.Reliable(View(), r);
      if newDay == day {
        AccountUnlessSuspended(elapsed, lastWall, r.now, record);
        events := [];
      } else {
        events := CrossReset(newDay, elapsed, record, r);
      }
    }

    method RunTimer(elapsed: real) returns (events: seq<E.Event>)
      modifies this`timer, storage
      ensures View() == E.RunTimer(old(View()), elapsed).world
      ensures events == E.RunTimer(old(View()), elapsed).events
    {
      events := [];
      if timer.state == Running && !suspended && (!cfg.countOnlyWhilePlaying || game.Some?) {
        timer := timer.(remaining := MaxReal(0.0, timer.remaining - elapsed));
        if timer.remaining <= 0.0 {
          timer := timer.(state := Expired);
          storage.SaveTimer(timer);
          events := [E.TimerRanOut];
        }
      }
    }

    method PersistSession(mono: real)
      requires Linked(View())
      modifies this, storage
      ensures View() == E.PersistSession(old(View()), mono)
    {
      if session.Some? && mono - lastCheckpoint >= cfg.checkpointSeconds as real {
        var saved := storage.CheckpointSession(session.value, duration);
        assert saved.Success?;
        FlushUsageBuckets();
        lastCheckpoint := mono;
      }
    }

    method PersistTimer(mono: real)
      modifies this, storage
      ensures View() == E.PersistTimer(old(View()), mono)
    {
      if timer.state == Running && mono - lastPersist >= cfg.checkpointSeconds as real {
        storage.SaveTimer(timer);
        lastPersist := mono;
      }
    }

    // ----- warnings and restriction

    method ThresholdEvents(scope: Scope, previous: Option<real>, remaining: real, now: int)
      returns (events: seq<E.Event>)
      modifies storage
      ensures View() == E.ThresholdEvents(old(View()), scope, previous, remaining, now).world
      ensures events == E.ThresholdEvents(old(View()), scope, previous, remaining, now).events
    {
      if previous.None? {
        return [];
      }
      var due, newly := E.DueThresholds(cfg), [];
      for i := 0 to |due|
        invariant E.Sweep(old(storage.View()), scope, due[..i], previous.value, remaining, now) ==
                  E.Swept(storage.View(), newly)
        invariant View() == old(View()).(db := storage.View())
      {
        assert due[..i + 1][..i] == due[..i];
        if E.Crosses(due[i], previous.value, remaining) {
          var inserted := storage.MarkNotification(Mark(scope, due[i]), now);
          if inserted {
            newly := newly + [due[i]];
          }
        }
      }
      assert due[..|due|] == due;
      return if newly == [] then [] else [E.Warning(scope, E.Least(newly))];
    }

    method WarnScope(scope: Scope, now: int, before: E.Snapshot) returns (events: seq<E.Event>)
      modifies storage
      ensures View() == E.WarnScope(old(View()), scope, now, before).world
      ensures events == E.WarnScope(old(View()), scope, now, before).events
    {
      events := [];
      var remaining := E.Lookup(E.TakeSnapshot(View(), now), scope);
      if remaining.Some? {
        events := ThresholdEvents(scope, E.Lookup(before, scope), remaining.value, now);
      }
    }

    method WarningEvents(now: int, before: E.Snapshot) returns (events: seq<E.Event>)
      modifies storage
      ensures View() == E.Warn(old(View()), now, before).world
      ensures events == E.Warn(old(View()), now, before).events
    {
      events := [];
      if timer.generation.Some? {
        events := WarnScope(OfTimer(timer.generation.value), now, before);
      }
      var daily := WarnScope(Daily(day), now, before);
      events := events + daily;
    }

    method RefreshRestriction(now: int) returns (events: seq<E.Event>)
      modifies this`reason, this`level
      ensures View() == E.Refresh(old(View()), now).world
      ensures events == E.Refresh(old(View()), now).events
    {
      var newReason, newLevel := E.Unrestricted, 0;
      var limit := E.EffectiveLimit(View(), now);
      if timer.state == Expired {
        newReason := E.TimerExpired;
        var override := E.ActionLevel(timer.action);
        newLevel := if override.None? then cfg.level else override.value;
      } else if limit.Some? && limit.value as real <= played {
        newReason, newLevel := E.DailyLimit, cfg.level;
      } else if cfg.limitsEnabled && !Schedule.WithinAllowedPeriod(cfg.periods, cfg.zone, now) {
        newReason, newLevel := E.OutsidePeriod, cfg.level;
      }
      var oldReason, oldLevel := reason, level;
      reason, level := newReason, newLevel;
      if oldReason == newReason && oldLevel == newLevel {
        return [];
      }
      return [E.RestrictionChanged(oldReason, oldLevel, newReason, newLevel)];
    }

    method Announce(now: int, before: E.Snapshot) returns (events: seq<E.Event>)
      modifies this`reason, this`level, storage
      ensures View() == E.Announce(old(View()), now, before).world
      ensures events == E.Announce(old(View()), now, before).events
    {
      events := WarningEvents(now, before);
      var refreshed := RefreshRestriction(now);
      events := events + refreshed;
    }

    // ----- the tick

    method Settle(elapsed: real, mono: real) returns (events: seq<E.Event>)
      requires Linked(View())
      modifies this, storage
      ensures View() == E.Settle(old(View()), elapsed, mono).world
      ensures events == E.Settle(old(View()), elapsed, mono).events
    {
      ghost var w := View();
      events := RunTimer(elapsed);
      SameBooks(w, View(), 0);
      PersistSession(mono);
      PersistTimer(mono);
    }

    /** The clock notes and the crediting of a tick. */
    method AdvanceClock(r: E.Reading) returns (events: seq<E.Event>)
      requires Valid()
      modifies this, storage
      ensures View() == E.AdvanceClock(old(View()), r).world && Linked(View())
      ensures events == E.AdvanceClock(old(View()), r).events
    {
      var noted := NoteClock(r);
      var advanced := Advance(r);
      events := noted + advanced;
    }

    method Elapse(r: E.Reading) returns (events: seq<E.Event>)
      requires Valid()
      modifies this, storage
      ensures View() == E.Elapse(old(View()), r).world
      ensures events == E.Elapse(old(View()), r).events
    {
      ghost var w := View();
      var elapsed := MaxReal(0.0, r.mono - lastMono);
      ElapseIs(w, r, elapsed);
      events := AdvanceClock(r);
      var settled := SettleAt(elapsed, r);
      events := events + settled;
    }

    /** Settles and takes the reading as the new baseline. */
    method SettleAt(elapsed: real, r: E.Reading) returns (events: seq<E.Event>)
      requires Linked(View())
      modifies this, storage
      ensures View() == E.Settle(old(View()), elapsed, r.mono).world.(lastMono := r.mono, lastWall := r.now)
      ensures events == E.Settle(old(View()), elapsed, r.mono).events
    {
      events := Settle(elapsed, r.mono);
      lastMono, lastWall := r.mono, r.now;
    }

    method Tick(r: E.Reading) returns (events: seq<E.Event>)
      requires Valid()
      modifies this, storage
      ensures Valid()
      ensures View() == E.Tick(old(View()), r).world
      ensures events == E.Tick(old(View()), r).events
    {
      TickBooks(View(), r, 0);
      var before := E.TakeSnapshot(View(), r.now);
      events := Elapse(r);
      var announced := Announce(r.now, before);
      events := events + announced;
    }

    // ----- what commands do after their tick

    method CloseCurrent(at: int) returns (events: seq<E.Event>)
      modifies this, storage
      ensures View() == E.CloseCurrent(old(View()), at).world
      ensures events == E.CloseCurrent(old(View()), at).events
    {
      events := [];
      if game.Some? && session.Some? {
        events := [E.GameStopped(game.value, session.value, duration)];
        FlushUsageBuckets();
        storage.CloseSession(session.value, duration, at);
      }
      game, session, duration := None, None, 0.0;
    }

    method SetGameTail(g: Game, r: E.Reading) returns (o: Outcome)
      modifies this, storage
      ensures Answers(View(), o, E.SetGameTail(old(View()), g, r))
    {
      if game.Some? && SameGame(game.value, g) {
        game := Some(g);
        return Completed([E.GameUpdated(g)]);
      }
      var events := [];
      if game.Some? {
        events := CloseCurrent(r.now);
      }
      var begun := BeginSession(g, r.mono);
      return if begun.Completed? then Completed(events + begun.events) else begun;
    }

    method BeginSession(g: Game, mono: real) returns (o: Outcome)
      modifies this, storage
      ensures var w := old(View());
              if S.AnyOpen(w.db.sessions) then View() == w.(game := None) && o == Rejected(E.SessionConflict)
              else View() == E.BeginSession(w, g, mono).world && o == Completed(E.BeginSession(w, g, mono).events)
    {
      game := Some(g);
      var opening := storage.OpenSession(day, g);
      if opening.Failure? {
        game := None;
        return Rejected(E.SessionConflict);
      }
      session := Some(opening.value);
      duration := 0.0;
      lastCheckpoint := mono;
      var events := StartEvents(g, opening.value);
      return Completed(events);
    }

    method StartEvents(g: Game, id: nat) returns (events: seq<E.Event>)
      ensures events == E.StartEvents(g, id, level)
    {
      events := [E.GameStarted(g, id)];
      if level >= 3 {
        events := events + [E.NewGameBlocked(g)];
      } else if level >= 2 {
        events := events + [E.StartedWhileRestricted(g)];
      }
    }

    method StopGameTail(r: E.Reading) returns (o: Outcome)
      modifies this, storage
      ensures Answers(View(), o, E.StopGameTail(old(View()), r))
    {
      var closed := CloseCurrent(r.now);
      var refreshed := RefreshRestriction(r.now);
      return Completed(closed + refreshed);
    }

    method SuspendTail() returns (o: Outcome)
      modifies this`suspended
      ensures Answers(View(), o, E.SuspendTail(old(View())))
    {
      if suspended {
        return Completed([]);
      }
      suspended := true;
      return Completed([E.SystemSuspended]);
    }

    method StartTimerTail(seconds: int, action: string) returns (o: Outcome)
      modifies this`timer, storage
      ensures Answers(View(), o, E.StartTimerTail(old(View()), seconds, action))
    {
      if level >= 1 {
        return Rejected(E.Restricted);
      }
      if !(60 <= seconds <= 24 * 3600) {
        return Rejected(E.BadDuration);
      }
      if !E.KnownAction(action) {
        return Rejected(E.BadAction);
      }
      var generation := storage.nextId;
      storage.nextId := generation + 1;
      timer := Timer(Running, seconds, seconds as real, action, Some(generation));
      storage.SaveTimer(timer);
      storage.ClearScope(OfTimer(generation));
      return Completed([E.TimerStarted]);
    }

    method PauseTimerTail() returns (o: Outcome)
      modifies this`timer, storage
      ensures Answers(View(), o, E.PauseTimerTail(old(View())))
    {
      if timer.state != Running {
        return Rejected(E.NotRunning);
      }
      timer := timer.(state := Paused);
      storage.SaveTimer(timer);
      return Completed([E.TimerPaused]);
    }

    method ResumeTimerTail() returns (o: Outcome)
      modifies this`timer, storage
      ensures Answers(View(), o, E.ResumeTimerTail(old(View())))
    {
      if level >= 1 {
        return Rejected(E.Restricted);
      }
      if timer.state != Paused {
        return Rejected(E.NotPaused);
      }
      timer := timer.(state := Running);
      storage.SaveTimer(timer);
      return Completed([E.TimerResumed]);
    }

    method CancelTimerTail(r: E.Reading) returns (o: Outcome)
      modifies this, storage
      ensures Answers(View(), o, E.CancelTimerTail(old(View()), r))
    {
      if timer.state == Idle {
        return Completed([]);
      }
      timer := BLANK_TIMER;
      storage.SaveTimer(timer);
      var refreshed := RefreshRestriction(r.now);
      return Completed([E.TimerCancelled] + refreshed);
    }

    /** Adds `seconds` to the timer and re-arms its marks after an increase. */
    method ApplyAdjustment(seconds: int, now: int)
      modifies this`timer, storage
      ensures View() == E.ApplyAdjustment(old(View()), seconds, now)
    {
      timer := timer.(remaining := MaxReal(0.0, MinReal(86400.0, timer.remaining + seconds as real)));
      if timer.remaining == 0.0 {
        timer := timer.(state := Expired);
      } else if timer.state == Expired {
        timer := timer.(state := Paused);
      }
      storage.SaveTimer(timer);
      if seconds > 0 && timer.generation.Some? {
        var g, ts := timer.generation.value, E.Thresholds(cfg.thresholdMinutes);
        storage.ClearScope(OfTimer(g));
        ghost var cleared, w := storage.View(), View();
        for i := 0 to |ts|
          invariant View() == w.(db := storage.View())
          invariant storage.View() == E.MarkLanding(cleared, g, ts[..i], timer.remaining, now)
        {
          assert ts[..i + 1][..i] == ts[..i];
          if timer.remaining == ts[i] as real {
            var inserted := storage.MarkNotification(Mark(OfTimer(g), ts[i]), now);
          }
        }
        assert ts[..|ts|] == ts;
      }
    }

    method AdjustTimerTail(seconds: int, r: E.Reading) returns (o: Outcome)
      modifies this, storage
      ensures Answers(View(), o, E.AdjustTimerTail(old(View()), seconds, r))
    {
      if timer.state == Idle {
        return Rejected(E.NoTimer);
      }
      if !(-86400 <= seconds <= 86400) {
        return Rejected(E.AdjustmentOutOfRange);
      }
      if seconds == 0 {
        return Rejected(E.AdjustmentZero);
      }
      var before := E.TakeSnapshot(View(), r.now);
      ApplyAdjustment(seconds, r.now);
      var announced := Announce(r.now, before);
      return Completed([E.TimerAdjusted(seconds)] + announced);
    }

    method GrantTail(seconds: int, text: string, r: E.Reading) returns (o: Outcome)
      modifies this, storage
      ensures Answers(View(), o, E.GrantTail(old(View()), seconds, text, r))
    {
      if IsBlank(text) {
        return Rejected(E.ReasonRequired);
      }
      if seconds == 0 {
        return Rejected(E.AdjustmentZero);
      }
      var before := E.TakeSnapshot(View(), r.now);
      var granted := storage.GrantAdjustment(day, seconds, r.now);
      if granted.Failure? {
        return Crashed;
      }
      if seconds > 0 {
        storage.ClearScope(Daily(day));
      }
      var announced := Announce(r.now, before);
      return Completed([E.DailyAdjusted(day, seconds)] + announced);
    }

    method SwitchConfig(c: E.Config, r: E.Reading) returns (events: seq<E.Event>)
      requires Linked(View())
      modifies this, storage
      ensures View() == E.SwitchConfig(old(View()), c, r).world
      ensures events == E.SwitchConfig(old(View()), c, r).events
    {
      ghost var w := View();
      cfg := c;
      SameBooks(w, View(), 0);
      events := [];
      var newDay := E.DayOf(cfg, r.now);
      if newDay != day {
        events := RollDay(r.now, newDay, r.mono);
      }
    }

    /** Clears the marks of the scopes whose remaining time has grown. */
    method Rearm(now: int, before: E.Snapshot)
      modifies storage
      ensures View() == E.Rearm(old(View()), now, before)
    {
      var current := E.TakeSnapshot(View(), now);
      RearmIfGrown(Daily(day), before, current);
      if timer.generation.Some? {
        RearmIfGrown(OfTimer(timer.generation.value), before, current);
      }
    }

    method RearmIfGrown(scope: Scope, before: E.Snapshot, current: E.Snapshot)
      modifies storage
      ensures storage.View() == E.RearmIfGrown(old(storage.View()), scope, before, current)
    {
      var previous, latest := E.Lookup(before, scope), E.Lookup(current, scope);
      if previous.Some? && latest.Some? && latest.value > previous.value {
        storage.ClearScope(scope);
      }
    }

    method UpdateConfigTail(c: E.Config, r: E.Reading) returns (o: Outcome)
      requires Linked(View())
      modifies this, storage
      ensures Answers(View(), o, E.UpdateConfigTail(old(View()), c, r))
    {
      var before := E.TakeSnapshot(View(), r.now);
      var switched := SwitchConfig(c, r);
      Rearm(r.now, before);
      var announced := Announce(r.now, before);
      return Completed(switched + announced + [E.ConfigUpdated]);
    }

    method ShutdownTail(r: E.Reading) returns (o: Outcome)
      requires Linked(View())
      modifies this, storage
      ensures Answers(View(), o, E.ShutdownTail(old(View()), r))
    {
      var events := [];
      if session.Some? {
        var saved := storage.CheckpointSession(session.value, duration);
        assert saved.Success?;
        events := CloseCurrent(r.now);
      }
      if timer.state == Running {
        storage.SaveTimer(timer);
      }
      return Completed(events);
    }

    method Resume(r: E.Reading) returns (events: seq<E.Event>)
      requires Linked(View())
      modifies this, storage
      ensures View() == E.Resume(old(View()), r).world
      ensures events == E.Resume(old(View()), r).events
    {
      ghost var w := View();
      lastWall, lastMono := r.now, r.mono;
      SameBooks(w, View(), 0);
      events := [];
      var newDay := E.DayOf(cfg, r.now);
      if newDay != day {
        events := RollDay(r.now, newDay, r.mono);
      }
      if suspended {
        suspended := false;
        events := events + [E.SystemResumed];
      }
    }

    /** `history.clear` of the service: the tables are emptied and the cache with them. */
    method PurgeHistory() returns (o: Outcome)
      modifies this`played, storage
      ensures Answers(View(), o, E.PurgeHistory(old(View())))
    {
      var cleared := storage.ClearHistory();
      if cleared.Failure? {
        return Rejected(E.SessionConflict);
      }
      played := 0.0;
      return Completed([]);
    }

    /** The tail of a command that ticks first. */
    method PerformTail(c: E.Command, r: E.Reading) returns (o: Outcome)
      requires E.TicksFirst(c) && Linked(View())
      modifies this, storage
      ensures Answers(View(), o, E.Tail(old(View()), c, r))
    {
      match c
      case DoTick => o := Completed([]);
      case DoSetGame(g) => o := SetGameTail(g, r);
      case DoStopGame => o := StopGameTail(r);
      case DoSuspend => o := SuspendTail();
      case DoStartTimer(seconds, action) => o := StartTimerTail(seconds, action);
      case DoPauseTimer => o := PauseTimerTail();
      case DoResumeTimer => o := ResumeTimerTail();
      case DoCancelTimer => o := CancelTimerTail(r);
      case DoAdjustTimer(seconds) => o := AdjustTimerTail(seconds, r);
      case DoGrant(seconds, text) => o := GrantTail(seconds, text, r);
      case DoUpdateConfig(config) => o := UpdateConfigTail(config, r);
      case DoShutdown => o := ShutdownTail(r);
    }

    method TickAndPerform(c: E.Command, r: E.Reading) returns (o: Outcome)
      requires Valid() && E.TicksFirst(c)
      modifies this, storage
      ensures Answers(View(), o, E.AfterTick(E.Tick(old(View()), r), E.Tail(E.Tick(old(View()), r).world, c, r)))
    {
      var ticked := Tick(r);
      var tail := PerformTail(c, r);
      o := if tail.Completed? then Completed(ticked + tail.events) else tail;
    }

    /** Any command: most tick first; a malformed game report is turned down before the tick. A
        restart is not a command of the object but the construction of another one. */
    method Perform(c: E.Command, r: E.Reading) returns (o: Outcome)
      requires Valid() && E.ValidCommand(c) && !c.DoRestart?
      modifies this, storage
      ensures Valid()
      ensures Answers(View(), o, E.Step(old(View()), c, r))
    {
      StepBooks(View(), c, r);
      StepConfigValid(View(), c, r);
      if E.TicksFirst(c) {
        o := TickAndPerform(c, r);
      } else if c.DoResume? {
        var events := Resume(r);
        o := Completed(events);
      } else if c.DoPurge? {
        o := PurgeHistory();
      } else {
        o := Rejected(E.BadGame);
      }
    }
  }

  lemma ElapseIs(w: E.World, r: E.Reading, elapsed: real)
    requires elapsed == MaxReal(0.0, r.mono - w.lastMono)
    ensures var advanced := E.AdvanceClock(w, r);
            var settled := E.Settle(advanced.world, elapsed, r.mono);
            E.Elapse(w, r) == E.Effect(settled.world.(lastMono := r.mono, lastWall := r.now),
                                       advanced.events + settled.events)
  {
    assert E.MonoDelta(w, r) == elapsed;
  }
}
