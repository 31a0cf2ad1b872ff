/** Warnings about a timer over runs of all kinds of commands, not only ticks. */
module WarningRuns {
  import opened Basics
  import opened Records
  import opened Storage
  import opened Engine
  import opened Frames
  import opened SessionLaws
  import opened RecoveryLaws
  import opened TransitionLaws
  import opened WarningLaws

  /** The engine's timer is of generation `g`. */
  predicate Timing(w: World, g: nat) { w.timer.generation == Some(g) && w.timer.state != Idle }

  /** What a stage does to the timer's scope: the remaining time does not grow, and exactly what it
      crosses is marked and warned about. */
  ghost predicate Lowers(t: World, v: World, es: seq<Event>, g: nat) {
    && Timing(t, g) && Timing(v, g) && DueThresholds(v.cfg) == DueThresholds(t.cfg)
    && Remaining(v, OfTimer(g)).value <= Remaining(t, OfTimer(g)).value
    && WarnsExactly(OfTimer(g), CrossedBy(t.cfg, Remaining(t, OfTimer(g)), Remaining(v, OfTimer(g))), t.db, v.db, es)
  }

  /** A stage that touches neither the timer's time nor its marks. */
  lemma StandsStill(t: World, v: World, es: seq<Event>, g: nat)
    requires Timing(t, g) && Timing(v, g) && DueThresholds(v.cfg) == DueThresholds(t.cfg)
    requires v.timer.remaining == t.timer.remaining
    requires MarkedThresholds(v.db, OfTimer(g)) == MarkedThresholds(t.db, OfTimer(g))
    requires Warned(es, OfTimer(g)) == []
    ensures Lowers(t, v, es, g)
  { }

  lemma TickLowers(w: World, r: Reading, g: nat)
    requires Linked(w) && ValidConfig(w.cfg) && Timing(w, g) && KeepsMarks(w, r, OfTimer(g))
    ensures Lowers(w, Tick(w, r).world, Tick(w, r).events, g)
  {
    TickScope(w, r, OfTimer(g));
  }

  // ----- what follows the tick

  /** The tails that announce nothing. */
  predicate SilentTail(c: Command) {
    c.DoTick? || c.DoSetGame? || c.DoStopGame? || c.DoSuspend? || c.DoPauseTimer? || c.DoResumeTimer?
    || c.DoShutdown?
  }

  /** They may stop the timer, start it again and save it, and leave its time and all marks alone. */
  lemma SilentTailFrame(t: World, c: Command, r: Reading)
    requires SilentTail(c) && TicksFirst(c)
    ensures var v := Tail(t, c, r).world;
            && v.cfg == t.cfg && v.db.marks == t.db.marks && t.db.nextId <= v.db.nextId
            && v.timer == t.timer.(state := v.timer.state) && (v.timer.state == Idle <==> t.timer.state == Idle)
            && (v.db.timer == t.db.timer || v.db.timer == SaveTimer(t.db, v.timer).timer)
  {
    match c
    case DoSetGame(game) => SetGameTailFrame(t, game, r);
    case DoStopGame => StopGameTailFrame(t, r);
    case DoShutdown => ShutdownTailFrame(t, r);
    case _ =>
  }

  lemma SilentTailEvents(t: World, c: Command, r: Reading, scope: Scope)
    requires SilentTail(c) && TicksFirst(c)
    ensures Warned(EventsOf(Tail(t, c, r)), scope) == []
  {
    if c.DoSetGame? || c.DoStopGame? || c.DoShutdown? {
      GameTailSilent(t, c, r);
    }
    NothingWarned(EventsOf(Tail(t, c, r)), scope);
  }

  lemma NoWarningIn(a: seq<Event>, b: seq<Event>)
    requires forall i :: 0 <= i < |a| ==> !a[i].Warning?
    requires forall i :: 0 <= i < |b| ==> !b[i].Warning?
    ensures forall i :: 0 <= i < |a + b| ==> !(a + b)[i].Warning?
  { }

  lemma CloseAndRefreshSilent(t: World, at: int)
    ensures var es, fs := CloseCurrent(t, at).events, Refresh(CloseCurrent(t, at).world, at).events;
            && (forall i :: 0 <= i < |es| ==> !es[i].Warning?) && (forall i :: 0 <= i < |fs| ==> !fs[i].Warning?)
            && forall i :: 0 <= i < |es + fs| ==> !(es + fs)[i].Warning?
  { }

  lemma BeginSilent(w: World, g: Game, mono: real)
    ensures var es := BeginSession(w, g, mono).events;
            forall i :: 0 <= i < |es| ==> !es[i].Warning?
  { }

  lemma SetGameSilent(t: World, g: Game, r: Reading)
    ensures var es := EventsOf(SetGameTail(t, g, r));
            forall i :: 0 <= i < |es| ==> !es[i].Warning?
  {
    if !(t.game.Some? && SameGame(t.game.value, g)) {
      CloseAndRefreshSilent(t, r.now);
      var c := if t.game.Some? then CloseCurrent(t, r.now) else Effect(t, []);
      BeginSilent(c.world, g, r.mono);
      NoWarningIn(c.events, BeginSession(c.world, g, r.mono).events);
    }
  }

  lemma GameTailSilent(t: World, c: Command, r: Reading)
    requires TicksFirst(c) && (c.DoSetGame? || c.DoStopGame? || c.DoShutdown?)
    ensures var es := EventsOf(Tail(t, c, r));
            forall i :: 0 <= i < |es| ==> !es[i].Warning?
  {
    if c.DoSetGame? {
      SetGameSilent(t, c.game, r);
    } else {
      CloseAndRefreshSilent(t, r.now);
      if c.DoShutdown? && t.session.Some? {
        CloseAndRefreshSilent(t.(db := CheckpointSession(t.db, t.session.value, t.duration)), r.now);
      }
    }
  }

  /** An announcement after the timer's time has fallen, or stayed as it was. */
  lemma AnnouncedLowers(t: World, a: World, e: Event, now: int, g: nat)
    requires Timing(t, g) && Timing(a, g) && a.cfg == t.cfg && !e.Warning?
    requires a.timer.remaining <= t.timer.remaining
    requires MarkedThresholds(a.db, OfTimer(g)) == MarkedThresholds(t.db, OfTimer(g))
    ensures var v := Announce(a, now, TakeSnapshot(t, now));
            Lowers(t, v.world, [e] + v.events, g)
  {
    var before := TakeSnapshot(t, now);
    var v := Announce(a, now, before);
    AnnounceExact(a, now, before, OfTimer(g));
    AnnounceFrame(a, now, before);
    OneMore(e, v.events, OfTimer(g));
    LowersFrom(t, a, v.world, v.events, g);
    assert Warned([e] + v.events, OfTimer(g)) == Warned(v.events, OfTimer(g));
  }

  lemma OneMore(e: Event, es: seq<Event>, scope: Scope)
    requires !e.Warning?
    ensures Warned([e] + es, scope) == Warned(es, scope)
  {
    WarnedConcat([e], es, scope);
    NothingWarned([e], scope);
  }

  /** From `a`, which differs from `t` in what lies below the timer's time, to `v`, which differs from
      `a` in its marks. */
  lemma LowersFrom(t: World, a: World, v: World, es: seq<Event>, g: nat)
    requires Timing(t, g) && Timing(a, g) && a.cfg == t.cfg && a.timer.remaining <= t.timer.remaining
    requires MarkedThresholds(a.db, OfTimer(g)) == MarkedThresholds(t.db, OfTimer(g))
    requires v.timer == a.timer && v.cfg == a.cfg
    requires WarnsExactly(OfTimer(g), CrossedBy(a.cfg, Some(MaxReal(0.0, t.timer.remaining)),
                                                Some(MaxReal(0.0, a.timer.remaining))), a.db, v.db, es)
    ensures Lowers(t, v, es, g)
  { }

  lemma GrantLowers(t: World, seconds: int, reason: string, r: Reading, g: nat)
    requires Timing(t, g) && GrantTail(t, seconds, reason, r).Done?
    ensures var v := GrantTail(t, seconds, reason, r);
            Lowers(t, v.world, v.events, g)
  {
    ClearedScope(GrantAdjustment(t.db, t.day, seconds, r.now), Daily(t.day));
    AnnouncedLowers(t, ApplyGrant(t, seconds, r.now), DailyAdjusted(t.day, seconds), r.now, g);
  }

  lemma TakingTimeLowers(t: World, seconds: int, r: Reading, g: nat)
    requires Timing(t, g) && seconds < 0 && AdjustTimerTail(t, seconds, r).Done?
    requires 0.0 <= t.timer.remaining
    ensures var v := AdjustTimerTail(t, seconds, r);
            Lowers(t, v.world, v.events, g)
  {
    AnnouncedLowers(t, ApplyAdjustment(t, seconds, r.now), TimerAdjusted(seconds), r.now, g);
  }

  // ----- daily rolls outside a tick

  /** If a roll at `at` opens `newDay`, it does not forget marks of the scope by their age. */
  ghost predicate RollKeepsMarks(w: World, retentionDays: int, at: int, newDay: int, scope: Scope) {
    newDay == w.day || forall m :: m in w.db.marks && m.scope == scope ==> Cutoff(retentionDays, at) <= w.db.marks[m]
  }

  lemma RolledMarks(w: World, at: int, newDay: int, mono: real, scope: Scope)
    requires RollKeepsMarks(w, w.cfg.retentionDays, at, newDay, scope) && newDay != w.day
    ensures MarkedThresholds(RollDay(w, at, newDay, mono).world.db, scope) == MarkedThresholds(w.db, scope)
  {
    RollFrame(w, at, newDay, mono);
    var after := RollDay(w, at, newDay, mono).world.db.marks;
    assert forall m :: m in after ==> m in w.db.marks;
    assert forall m :: m in w.db.marks && m.scope == scope ==> m in after;
  }

  lemma RollNoWarnings(w: World, at: int, newDay: int, mono: real)
    ensures var es := RollDay(w, at, newDay, mono).events;
            forall i :: 0 <= i < |es| ==> !es[i].Warning?
  { }

  lemma ResumeLowers(w: World, r: Reading, g: nat)
    requires Timing(w, g) && RollKeepsMarks(w, w.cfg.retentionDays, r.now, DayOf(w.cfg, r.now), OfTimer(g))
    ensures Lowers(w, Resume(w, r).world, Resume(w, r).events, g)
  {
    ResumeFrame(w, r);
    var base, newDay := w.(lastWall := r.now, lastMono := r.mono), DayOf(w.cfg, r.now);
    if newDay != w.day {
      RolledMarks(base, r.now, newDay, r.mono, OfTimer(g));
      RollNoWarnings(base, r.now, newDay, r.mono);
    }
    NothingWarned(Resume(w, r).events, OfTimer(g));
    StandsStill(w, Resume(w, r).world, Resume(w, r).events, g);
  }

  lemma SwitchedMarks(t: World, c: Config, r: Reading, g: nat)
    requires RollKeepsMarks(t, c.retentionDays, r.now, DayOf(c, r.now), OfTimer(g))
    ensures var s := SwitchConfig(t, c, r);
            && MarkedThresholds(s.world.db, OfTimer(g)) == MarkedThresholds(t.db, OfTimer(g))
            && s.world.timer == t.timer && s.world.cfg == c && t.db.nextId <= s.world.db.nextId
            && s.world.db.timer == t.db.timer
            && Warned(s.events, OfTimer(g)) == []
  {
    SwitchConfigFrame(t, c, r);
    var newDay := DayOf(c, r.now);
    if newDay != t.day {
      RolledMarks(t.(cfg := c), r.now, newDay, r.mono, OfTimer(g));
      RollNoWarnings(t.(cfg := c), r.now, newDay, r.mono);
    }
    NothingWarned(SwitchConfig(t, c, r).events, OfTimer(g));
  }

  /** New settings leave the timer's time as it is, so that nothing is crossed and nothing re-armed. */
  lemma UpdateStandsStill(t: World, c: Config, r: Reading, g: nat)
    requires Timing(t, g)
    ensures var s, v := SwitchConfig(t, c, r).world, UpdateConfigTail(t, c, r);
            && MarkedThresholds(v.world.db, OfTimer(g)) == MarkedThresholds(s.db, OfTimer(g))
            && v.world.timer == t.timer && v.world.cfg == c && v.world.db.timer == t.db.timer
            && t.db.nextId <= v.world.db.nextId
            && Warned(v.events, OfTimer(g)) == []
  {
    var before, s := TakeSnapshot(t, r.now), SwitchConfig(t, c, r);
    SwitchConfigFrame(t, c, r);
    SwitchNoWarnings(t, c, r, OfTimer(g));
    RearmedWarns(s.world, r.now, before, OfTimer(g));
    RearmedMarks(s.world, r.now, before, OfTimer(g));
    var rearmed := Rearm(s.world, r.now, before);
    var a := Announce(rearmed, r.now, before);
    AnnounceFrame(rearmed, r.now, before);
    assert CrossedBy(c, Lookup(before, OfTimer(g)), Lookup(TakeSnapshot(s.world, r.now), OfTimer(g))) == {};
    NothingWarned([ConfigUpdated], OfTimer(g));
    WarnedPadded(s.events, a.events, [ConfigUpdated], OfTimer(g));
  }

  lemma SwitchNoWarnings(t: World, c: Config, r: Reading, scope: Scope)
    ensures Warned(SwitchConfig(t, c, r).events, scope) == []
  {
    RollNoWarnings(t.(cfg := c), r.now, DayOf(c, r.now), r.mono);
    NothingWarned(SwitchConfig(t, c, r).events, scope);
  }

  lemma UpdateLowers(t: World, c: Config, r: Reading, g: nat)
    requires Timing(t, g) && DueThresholds(c) == DueThresholds(t.cfg)
    requires RollKeepsMarks(t, c.retentionDays, r.now, DayOf(c, r.now), OfTimer(g))
    ensures var v := UpdateConfigTail(t, c, r);
            Lowers(t, v.world, v.events, g)
  {
    SwitchedMarks(t, c, r, g);
    UpdateStandsStill(t, c, r, g);
    var v := UpdateConfigTail(t, c, r);
    StandsStill(t, v.world, v.events, g);
  }

  // ----- single commands

  /** The command neither replaces the timer, adds time to it, changes the thresholds, nor clears the
      history; and a daily roll that it causes forgets no marks of the timer. A command that does
      not complete is always like this. */
  ghost predicate LeavesScope(t: World, c: Command, r: Reading, g: nat) {
    Proper(t, c, r).Done? ==>
      match c
      case DoStartTimer(_, _) => false
      case DoCancelTimer => false
      case DoPurge => false
      case DoRestart(_) => false
      case DoAdjustTimer(s) => s < 0
      case DoResume => RollKeepsMarks(t, t.cfg.retentionDays, r.now, DayOf(t.cfg, r.now), OfTimer(g))
      case DoUpdateConfig(cfg) =>
        && DueThresholds(cfg) == DueThresholds(t.cfg)
        && RollKeepsMarks(t, cfg.retentionDays, r.now, DayOf(cfg, r.now), OfTimer(g))
      case _ => true
  }

  lemma ProperLowers(t: World, c: Command, r: Reading, g: nat)
    requires Linked(t) && TimerOk(t.timer) && Timing(t, g) && LeavesScope(t, c, r, g)
    ensures Lowers(t, Proper(t, c, r).world, EventsOf(Proper(t, c, r)), g)
  {
    var p := Proper(t, c, r);
    if !p.Done? {
      RefusedProper(t, c, r);
      StandsStill(t, p.world, [], g);
    } else if c.DoResume? {
      ResumeLowers(t, r, g);
    } else if SilentTail(c) {
      SilentTailFrame(t, c, r);
      SilentTailEvents(t, c, r, OfTimer(g));
      StandsStill(t, p.world, EventsOf(p), g);
    } else if c.DoGrant? {
      GrantLowers(t, c.seconds, c.reason, r, g);
    } else if c.DoAdjustTimer? {
      TakingTimeLowers(t, c.seconds, r, g);
    } else {
      UpdateLowers(t, c.config, r, g);
    }
  }

  // ----- runs

  /** Over the run nothing replaces the timer, adds time to it, changes the thresholds or forgets
      marks of the timer. */
  ghost predicate LeavesTimer(w: World, run: seq<Input>, g: nat) {
    run == [] ||
    var prefix, last := run[..|run| - 1], run[|run| - 1];
    LeavesTimer(w, prefix, g) && InputLeaves(After(w, prefix), last.command, last.at, g)
  }

  ghost predicate InputLeaves(w: World, c: Command, r: Reading, g: nat) {
    && (TicksFirst(c) ==> KeepsMarks(w, r, OfTimer(g)))
    && LeavesScope(Ticked(w, c, r).world, c, r, g)
  }

  /** The timer and its stored copy are in one of the four forms. */
  predicate TimersOk(w: World) { TimerOk(w.timer) && TimerOk(LoadTimer(w.db)) }

  ghost predicate Ready(w: World) { Linked(w) && ValidConfig(w.cfg) && TimersOk(w) }

  lemma TickReady(w: World, r: Reading)
    requires Ready(w)
    ensures Ready(Tick(w, r).world)
  {
    TickBooks(w, r, 0);
    TickTimerFrame(w, r);
    RunTimersOk(w, Tick(w, r).world, MonoDelta(w, r));
  }

  lemma RunTimersOk(w: World, v: World, elapsed: real)
    requires TimersOk(w) && 0.0 <= elapsed && v.timer == RunTimer(w, elapsed).world.timer
    requires v.db.timer == w.db.timer || v.db.timer == SaveTimer(w.db, v.timer).timer
    ensures TimersOk(v)
  { }

  /** What is known of state `v` after a run from `w` with these warnings. */
  ghost predicate Followed(w: World, v: World, warned: seq<int>, g: nat) {
    && Ready(v) && Timing(v, g) && DueThresholds(v.cfg) == DueThresholds(w.cfg)
    && RunWarnsExactly(w, v, warned, OfTimer(g))
  }

  /** Over any run of commands that leave the timer's scope alone, the timer's marks grow by exactly
      the thresholds that its time has passed, however the run is made up, and the warnings are for
      strictly decreasing thresholds without a mark. */
  lemma {:induction false} TimerRunWarnings(w: World, run: seq<Input>, g: nat)
    requires Ready(w) && Timing(w, g) && ValidRun(run) && LeavesTimer(w, run, g)
    ensures Followed(w, After(w, run), Warned(RecordedInRun(w, run), OfTimer(g)), g)
  {
    if run == [] {
      assert RunWarnsExactly(w, w, [], OfTimer(g));
    } else {
      var prefix, last := run[..|run| - 1], run[|run| - 1];
      assert forall i :: 0 <= i < |prefix| ==> prefix[i] == run[i];
      TimerRunWarnings(w, prefix, g);
      var u, sofar := After(w, prefix), RecordedInRun(w, prefix);
      FollowedFurther(w, u, Warned(sofar, OfTimer(g)), last.command, last.at, g);
      WarnedConcat(sofar, Recorded(u, last.command, last.at), OfTimer(g));
    }
  }

  lemma FollowedFurther(w: World, u: World, warned: seq<int>, c: Command, r: Reading, g: nat)
    requires Followed(w, u, warned, g) && ValidCommand(c) && InputLeaves(u, c, r, g)
    ensures Followed(w, Step(u, c, r).world, warned + Warned(Recorded(u, c, r), OfTimer(g)), g)
  {
    ExtendByInput(w, u, warned, c, r, g);
    StepReady(u, c, r);
  }

  lemma ExtendLowered(w: World, u: World, v: World, warned: seq<int>, es: seq<Event>, g: nat)
    requires DueThresholds(u.cfg) == DueThresholds(w.cfg) && RunWarnsExactly(w, u, warned, OfTimer(g))
    requires Lowers(u, v, es, g)
    ensures DueThresholds(v.cfg) == DueThresholds(w.cfg)
    ensures RunWarnsExactly(w, v, warned + Warned(es, OfTimer(g)), OfTimer(g))
  {
    ExtendWarnings(w, u, v, warned, es, OfTimer(g));
  }

  lemma StepInTwo(w: World, c: Command, r: Reading, scope: Scope)
    ensures var t := Ticked(w, c, r);
            var p := Proper(t.world, c, r);
            && Step(w, c, r).world == p.world
            && Warned(Recorded(w, c, r), scope) == Warned(t.events, scope) + Warned(EventsOf(p), scope)
  {
    StepIsProper(w, c, r);
    var t := Ticked(w, c, r);
    WarnedConcat(t.events, EventsOf(Proper(t.world, c, r)), scope);
  }

  lemma TickedLowers(w: World, c: Command, r: Reading, g: nat)
    requires Ready(w) && Timing(w, g) && (TicksFirst(c) ==> KeepsMarks(w, r, OfTimer(g)))
    ensures var t := Ticked(w, c, r);
            Ready(t.world) && Lowers(w, t.world, t.events, g)
  {
    if TicksFirst(c) {
      TickLowers(w, r, g);
      TickReady(w, r);
    } else {
      StandsStill(w, w, [], g);
    }
  }

  /** Two stages one after the other. */
  lemma ExtendTwice(w: World, u: World, t: Effect, p: Reply, warned: seq<int>, g: nat)
    requires DueThresholds(u.cfg) == DueThresholds(w.cfg) && RunWarnsExactly(w, u, warned, OfTimer(g))
    requires Lowers(u, t.world, t.events, g) && Lowers(t.world, p.world, EventsOf(p), g)
    ensures Timing(p.world, g) && DueThresholds(p.world.cfg) == DueThresholds(w.cfg)
    ensures var more := Warned(t.events, OfTimer(g)) + Warned(EventsOf(p), OfTimer(g));
            RunWarnsExactly(w, p.world, warned + more, OfTimer(g))
  {
    var first, second := Warned(t.events, OfTimer(g)), Warned(EventsOf(p), OfTimer(g));
    ExtendLowered(w, u, t.world, warned, t.events, g);
    ExtendLowered(w, t.world, p.world, warned + first, EventsOf(p), g);
    Associate(warned, first, second);
  }

  lemma Associate<T>(a: seq<T>, b: seq<T>, c: seq<T>)
    ensures a + b + c == a + (b + c)
  { }

  lemma InputLowers(w: World, c: Command, r: Reading, g: nat)
    requires Ready(w) && Timing(w, g) && InputLeaves(w, c, r, g)
    ensures var t := Ticked(w, c, r);
            var p := Proper(t.world, c, r);
            Lowers(w, t.world, t.events, g) && Lowers(t.world, p.world, EventsOf(p), g)
  {
    TickedLowers(w, c, r, g);
    ProperLowers(Ticked(w, c, r).world, c, r, g);
  }

  lemma ExtendByInput(w: World, u: World, warned: seq<int>, c: Command, r: Reading, g: nat)
    requires Ready(u) && Timing(u, g) && InputLeaves(u, c, r, g)
    requires DueThresholds(u.cfg) == DueThresholds(w.cfg) && RunWarnsExactly(w, u, warned, OfTimer(g))
    ensures var v := Step(u, c, r).world;
            && Timing(v, g) && DueThresholds(v.cfg) == DueThresholds(w.cfg)
            && RunWarnsExactly(w, v, warned + Warned(Recorded(u, c, r), OfTimer(g)), OfTimer(g))
  {
    InputLowers(u, c, r, g);
    var t := Ticked(u, c, r);
    ExtendTwice(w, u, t, Proper(t.world, c, r), warned, g);
    StepInTwo(u, c, r, OfTimer(g));
  }

  lemma ProperTimersOk(t: World, c: Command, r: Reading)
    requires TimersOk(t)
    ensures TimersOk(Proper(t, c, r).world)
  {
    if SilentTail(c) && TicksFirst(c) {
      SilentTimersOk(t, c, r);
    } else if c.DoAdjustTimer? {
      AdjustTimersOk(t, c.seconds, r);
    } else if c.DoGrant? {
      AnnounceFrame(ApplyGrant(t, c.seconds, r.now), r.now, TakeSnapshot(t, r.now));
    } else if c.DoUpdateConfig? {
      SwitchConfigFrame(t, c.config, r);
      UpdateConfigTailFrame(t, c.config, r);
    } else {
      OtherTimersOk(t, c, r);
    }
  }

  lemma OtherTimersOk(t: World, c: Command, r: Reading)
    requires TimersOk(t)
    requires c.DoStartTimer? || c.DoCancelTimer? || !TicksFirst(c)
    ensures TimersOk(Proper(t, c, r).world)
  {
    ResumeFrame(t, r);
  }

  lemma AdjustTimersOk(t: World, seconds: int, r: Reading)
    requires TimersOk(t)
    ensures TimersOk(AdjustTimerTail(t, seconds, r).world)
  {
    ApplyAdjustmentOnlyTimer(t, seconds, r.now);
    AnnounceFrame(ApplyAdjustment(t, seconds, r.now), r.now, TakeSnapshot(t, r.now));
  }

  lemma SilentTimersOk(t: World, c: Command, r: Reading)
    requires TimersOk(t) && SilentTail(c) && TicksFirst(c)
    ensures TimersOk(Tail(t, c, r).world)
  {
    match c
    case DoSetGame(game) => SetGameTailFrame(t, game, r);
    case DoStopGame => StopGameTailFrame(t, r);
    case DoShutdown => ShutdownTailFrame(t, r);
    case _ =>
  }

  lemma StepReady(w: World, c: Command, r: Reading)
    requires Ready(w) && ValidCommand(c)
    ensures Ready(Step(w, c, r).world)
  {
    StepBooks(w, c, r);
    StepConfigValid(w, c, r);
    if TicksFirst(c) {
      TickReady(w, r);
    }
    StepIsProper(w, c, r);
    ProperTimersOk(Ticked(w, c, r).world, c, r);
  }
}
