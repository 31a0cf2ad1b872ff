/** What single commands promise: game changes, grants, new timers, configuration updates, an orderly
    shutdown, and clearing the history. */
module CommandLaws {
  import opened Basics
  import opened Ledger
  import opened Records
  import opened Storage
  import opened Engine
  import opened Frames
  import opened SessionLaws
  import opened RecoveryLaws
  import opened WarningLaws
  import opened ForecastLaws

  // ----- games

  /** A report opens a new session row exactly if it is not about the game being played, as far as
      ids and names tell. */
  lemma NewSessionExact(t: World, g: Game, r: Reading)
    requires Linked(t)
    ensures var rows := SetGameTail(t, g, r).world.db.sessions;
            |rows| == |t.db.sessions| + if t.game.Some? && SameGame(t.game.value, g) then 0 else 1
  { }

  function Report(appId: Option<string>, name: string): Game { Game(appId, name, name, "procfs", []) }

  /** That is no equivalence: a report without an id agrees by its name with games of different ids, so
      that three reports in a row carry one session from one application over to another. */
  lemma NamelessBridge(t: World, r: Reading)
    requires Linked(t) && t.game == Some(Report(Some("1"), "x"))
    ensures var u := SetGameTail(t, Report(None, "x"), r).world;
            var v := SetGameTail(u, Report(Some("2"), "x"), r).world;
            && v.game == Some(Report(Some("2"), "x")) && v.session == t.session && v.db == t.db
            && !SameGame(t.game.value, v.game.value)
  { }

  predicate HasId(g: Game) { g.appId.Some? && g.appId.value != "" }

  /** The report in between has no id, and the other two have different ones under its name. */
  predicate BridgedByName(a: Game, b: Game, c: Game) {
    !HasId(b) && HasId(a) && HasId(c) && a.appId != c.appId && a.folded == b.folded == c.folded
  }

  /** The report in between has the id of one of the others and the name of the other one, which has no id,
      and those two have different names. */
  predicate BridgedById(a: Game, b: Game, c: Game) {
    HasId(b) && HasId(a) && !HasId(c) && a.appId == b.appId && b.folded == c.folded && a.folded != c.folded
  }

  /** To be the same game is reflexive and symmetric, and carries over from `a` to `b` and from `b` to `c`
      without doing so from `a` to `c` in exactly these two ways. */
  lemma SameGameExact(a: Game, b: Game, c: Game)
    ensures SameGame(a, a) && (SameGame(a, b) <==> SameGame(b, a))
    ensures SameGame(a, b) && SameGame(b, c) && !SameGame(a, c) <==>
            BridgedByName(a, b, c) || BridgedById(a, b, c) || BridgedById(c, b, a)
  { }

  /** A change of game closes the old row now, with the live duration, and opens a new last row
      for the new game on the same day. */
  lemma GameChangeRows(t: World, g: Game, r: Reading)
    requires Linked(t) && t.session.Some? && !SameGame(t.game.value, g)
    ensures var v := SetGameTail(t, g, r).world;
            var rows := t.db.sessions;
            var last := rows[|rows| - 1];
            && v.db.sessions == rows[..|rows| - 1]
                                + [last.(ended := Some(r.now), duration := t.duration)]
                                + [Session(t.db.nextId, t.day, g, None, 0.0)]
            && v.session == Some(t.db.nextId) && v.duration == 0.0 && v.lastCheckpoint == r.mono
  { }

  /** The daily reset does the same for the game that goes on: its row ends at the boundary, and a
      new row of the new day begins. */
  lemma ResetRows(w: World, at: int, newDay: int, mono: real)
    requires Linked(w) && w.session.Some?
    ensures var v := RotateSession(w, at, newDay, mono).world;
            var rows := w.db.sessions;
            var last := rows[|rows| - 1];
            && v.db.sessions == rows[..|rows| - 1]
                                + [last.(ended := Some(at), duration := w.duration)]
                                + [Session(w.db.nextId, newDay, w.game.value, None, 0.0)]
            && v.session == Some(w.db.nextId)
  { }

  /** History can be cleared exactly when no game is being played; afterwards no day has any play
      time, nothing is shown in the heatmap, and nothing is marked. */
  lemma PurgeExact(w: World, d: int, c: Cell, scope: Scope)
    requires Linked(w)
    ensures PurgeHistory(w).Refused? <==> w.session.Some?
    ensures PurgeHistory(w).Refused? ==> PurgeHistory(w).world == w
    ensures var v := PurgeHistory(w);
            v.Done? ==> && LiveUsage(v.world, d) == 0.0 && v.world.played == 0.0
                        && Total(v.world.pending, c) == 0.0 && Total(v.world.db.buckets, c) == 0.0
                        && MarkedThresholds(v.world.db, scope) == {}
                        && v.world.timer == w.timer && v.world.db.timer == w.db.timer
  { }

  // ----- clocks

  /** Play may be filed under hours of the day exactly when the tick has nothing to report about the
      clocks but a new offset, both clocks have advanced, and the engine is not suspended. */
  lemma ReliableIffNothingToReport(w: World, r: Reading)
    ensures Reliable(w, r) <==>
            && (forall i :: 0 <= i < |NoteClock(w, r).events| ==> NoteClock(w, r).events[i].OffsetChanged?)
            && w.lastMono < r.mono && w.lastWall < r.now && !w.suspended
  {
    var gap, es := Discrepancy(w, r), NoteClock(w, r).events;
    if Abs(gap) > 5.0 {
      if gap > 30.0 {
        assert es[0] == SuspendInferred;
      } else if gap > 5.0 || gap < -5.0 {
        assert es[0] == ClockChanged;
      }
    }
  }

  // ----- grants

  /** A grant moves the day's adjustments by the granted seconds and touches no other day; it never
      touches played time. */
  lemma GrantExact(t: World, seconds: int, reason: string, r: Reading, d: int)
    requires GrantTail(t, seconds, reason, r).Done?
    ensures var v := GrantTail(t, seconds, reason, r).world;
            && AdjustmentForDay(v.db.adjustments, d) ==
               AdjustmentForDay(t.db.adjustments, d) + (if d == t.day then seconds else 0)
            && BooksOf(v) == BooksOf(t) && v.timer == t.timer
  {
    AdjustmentAppend(t.db.adjustments, Adjustment(t.day, seconds, r.now), d);
    AnnounceFrame(ApplyGrant(t, seconds, r.now), r.now, TakeSnapshot(t, r.now));
  }

  /** More time for the day warns about nothing and arms all of the day's warnings again. */
  lemma GrantRearms(t: World, seconds: int, reason: string, r: Reading)
    requires GrantTail(t, seconds, reason, r).Done? && 0 < seconds
    ensures var v := GrantTail(t, seconds, reason, r);
            Warned(v.events, Daily(t.day)) == [] && MarkedThresholds(v.world.db, Daily(t.day)) == {}
  {
    var granted := ApplyGrant(t, seconds, r.now);
    var before := TakeSnapshot(t, r.now);
    GrantAdds(t, seconds, r.now);
    NoWarningWithoutFall(granted, r.now, before, Daily(t.day));
    WarnedConcat([DailyAdjusted(t.day, seconds)], Announce(granted, r.now, before).events, Daily(t.day));
    NothingWarned([DailyAdjusted(t.day, seconds)], Daily(t.day));
  }

  lemma GrantAdds(t: World, seconds: int, now: int)
    requires 0 < seconds
    ensures var granted := ApplyGrant(t, seconds, now);
            var before, after := DailyRemaining(t, now), DailyRemaining(granted, now);
            && granted.day == t.day && MarkedThresholds(granted.db, Daily(t.day)) == {}
            && (before.Some? <==> after.Some?) && (before.Some? ==> before.value <= after.value)
  {
    ClearedScope(GrantAdjustment(t.db, t.day, seconds, now), Daily(t.day));
    AdjustmentAppend(t.db.adjustments, Adjustment(t.day, seconds, now), t.day);
  }

  // ----- timers

  /** A timer starts under no restriction only, with the requested time, saved, as a new generation
      without marks. */
  lemma FreshTimer(t: World, seconds: int, action: string)
    ensures StartTimerTail(t, seconds, action).Done? <==>
            t.level < 1 && 60 <= seconds <= 86400 && KnownAction(action)
    ensures var v := StartTimerTail(t, seconds, action);
            v.Done? ==>
              && v.world.timer == Timer(Running, seconds, seconds as real, action, Some(t.db.nextId))
              && LoadTimer(v.world.db) == v.world.timer
              && t.db.nextId < v.world.db.nextId
              && MarkedThresholds(v.world.db, OfTimer(t.db.nextId)) == {}
  {
    ClearedScope(SaveTimer(t.db.(nextId := t.db.nextId + 1),
                           Timer(Running, seconds, seconds as real, action, Some(t.db.nextId))), OfTimer(t.db.nextId));
  }

  /** The first warning of a new timer is forecast for the largest threshold that does not exceed its
      time; one that starts on a threshold is due to warn for it at once. */
  lemma FreshTimerForecast(t: World, seconds: int, action: string)
    requires StartTimerTail(t, seconds, action).Done? && (!t.cfg.countOnlyWhilePlaying || t.game.Some?)
    ensures match TimerForecast(StartTimerTail(t, seconds, action).world)
            case None => forall x :: x in DueThresholds(t.cfg) ==> seconds < x
            case Some(f) =>
              && f.scope == OfTimer(t.db.nextId) && f.threshold in DueThresholds(t.cfg)
              && f.secondsUntil == seconds - f.threshold >= 0
              && forall x :: x in DueThresholds(t.cfg) && x <= seconds ==> x <= f.threshold
  {
    FreshTimer(t, seconds, action);
    CandidateExact({}, DueThresholds(t.cfg), seconds);
  }

  /** Pausing and resuming gives the timer back as it was, in memory and in storage. */
  lemma PauseThenResume(t: World)
    requires TimerOk(t.timer) && t.timer.state == Running && t.level < 1
    ensures var p := PauseTimerTail(t);
            && p.Done? && p.world.timer.state == Paused && LoadTimer(p.world.db) == p.world.timer
            && var v := ResumeTimerTail(p.world);
               v.Done? && v.world == t.(db := SaveTimer(t.db, t.timer))
  { }

  // ----- configuration updates

  /** Under new settings a scope is judged by its remaining time before and after: if that has grown
      its marks are forgotten and nothing is shown; otherwise the crossed thresholds of the new
      settings are marked and warned about as in a tick. */
  lemma ConfigUpdateWarns(t: World, c: Config, r: Reading, scope: Scope)
    requires LiveScope(SwitchConfig(t, c, r).world, scope)
    ensures var switched := SwitchConfig(t, c, r).world;
            var previous := Lookup(TakeSnapshot(t, r.now), scope);
            var current := Lookup(TakeSnapshot(switched, r.now), scope);
            var grown := previous.Some? && current.Some? && previous.value < current.value;
            var rearmed := Rearm(switched, r.now, TakeSnapshot(t, r.now));
            && MarkedThresholds(rearmed.db, scope) == (if grown then {} else MarkedThresholds(switched.db, scope))
            && WarnsExactly(scope, CrossedBy(c, previous, current), rearmed.db,
                            UpdateConfigTail(t, c, r).world.db, Announce(rearmed, r.now, TakeSnapshot(t, r.now)).events)
  {
    SwitchConfigFrame(t, c, r);
    RearmedWarns(SwitchConfig(t, c, r).world, r.now, TakeSnapshot(t, r.now), scope);
  }

  // ----- shutdown

  /** After an orderly shutdown a restart finds everything: each day's play time, and the timer with
      its remaining time, paused if it was running. */
  lemma CleanRestartLosesNothing(t: World, r: Reading, c: Config, r': Reading, d: int)
    requires Linked(t) && TimerGood(t)
    ensures var v := ShutdownTail(t, r).world;
            var u := Startup(v.db, c, r').world;
            && LiveUsage(u, d) == LiveUsage(t, d)
            && u.timer == if t.timer.state == Running then t.timer.(state := Paused) else t.timer
  {
    ShutdownTailBooks(t, r, d);
    ShutdownSaves(t, r);
    RestartRecovers(ShutdownTail(t, r).world, c, r', d);
  }

  lemma ShutdownSaves(t: World, r: Reading)
    requires TimerGood(t)
    ensures LoadTimer(ShutdownTail(t, r).world.db) == t.timer
  { }

  // ----- status

  /** A forecast comes before another if it is nearer, or as near and for a lower threshold. */
  predicate Sooner(a: Forecast, b: Forecast) {
    a.secondsUntil < b.secondsUntil || (a.secondsUntil == b.secondsUntil && a.threshold < b.threshold)
  }

  /** `status` reports one of the two forecasts, if there is any, and the other one does not come
      before it; of two alike it is the daily one. */
  lemma NextWarningNearest(w: World, now: int)
    ensures var n, d, t := NextWarning(w, now), DailyForecast(w, now), TimerForecast(w);
            && (n == None <==> d == None && t == None)
            && (n.Some? ==> n == d || n == t)
            && (n.Some? && d.Some? ==> !Sooner(d.value, n.value))
            && (n.Some? && t.Some? ==> !Sooner(t.value, n.value))
            && (n != d ==> t.Some? && (d.Some? ==> Sooner(t.value, d.value)))
  { }
}
