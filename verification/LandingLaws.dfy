/** The fresh start that adding time to a timer makes: what the later warnings can be about, and what
    ends it. */
module LandingLaws {
  import opened Basics
  import opened Records
  import opened Storage
  import opened Engine
  import opened Frames
  import opened SessionLaws
  import opened RecoveryLaws
  import opened TransitionLaws
  import opened WarningLaws
  import opened WarningRuns

  // ----- adding time

  lemma {:induction false} LandingMarks(db: Tables, g: nat, ts: seq<int>, remaining: real, now: int)
    ensures MarkedThresholds(MarkLanding(db, g, ts, remaining, now), OfTimer(g)) ==
            MarkedThresholds(db, OfTimer(g)) + set t | t in ts && remaining == t as real
  {
    if ts != [] {
      var rest, t := ts[..|ts| - 1], ts[|ts| - 1];
      assert ts == rest + [t];
      LandingMarks(db, g, rest, remaining, now);
      var d := MarkLanding(db, g, rest, remaining, now);
      if remaining == t as real {
        assert MarkedThresholds(MarkNotification(d, Mark(OfTimer(g), t), now), OfTimer(g)) ==
               MarkedThresholds(d, OfTimer(g)) + {t};
        assert (set x | x in ts && remaining == x as real) == (set x | x in rest && remaining == x as real) + {t};
      } else {
        assert (set x | x in ts && remaining == x as real) == (set x | x in rest && remaining == x as real);
      }
    }
  }

  /** After time was added, the timer's marks are the configured thresholds it has landed on. */
  lemma AdjustedMarks(t: World, seconds: int, now: int, g: nat)
    requires t.timer.generation == Some(g) && 0 < seconds
    ensures var v := ApplyAdjustment(t, seconds, now);
            MarkedThresholds(v.db, OfTimer(g)) ==
            set x | x in Thresholds(t.cfg.thresholdMinutes) && v.timer.remaining == x as real
  {
    var timer := AdjustedTimer(t.timer, seconds);
    var cleared := ClearScope(SaveTimer(t.db, timer), OfTimer(g));
    ClearedScope(SaveTimer(t.db, timer), OfTimer(g));
    LandingMarks(cleared, g, Thresholds(t.cfg.thresholdMinutes), timer.remaining, now);
  }

  lemma AddingTimeWarnsNot(t: World, seconds: int, now: int, g: nat)
    requires Timing(t, g) && 0 < seconds && t.timer.remaining <= 86400.0
    ensures var a := Announce(ApplyAdjustment(t, seconds, now), now, TakeSnapshot(t, now));
            && Warned([TimerAdjusted(seconds)] + a.events, OfTimer(g)) == []
            && Warned([TimerAdjusted(seconds)] + a.events, Daily(t.day)) == []
            && MarkedThresholds(a.world.db, OfTimer(g)) ==
               MarkedThresholds(ApplyAdjustment(t, seconds, now).db, OfTimer(g))
  {
    var adjusted, before := ApplyAdjustment(t, seconds, now), TakeSnapshot(t, now);
    ApplyAdjustmentOnlyTimer(t, seconds, now);
    NoWarningWithoutFall(adjusted, now, before, OfTimer(g));
    NoWarningWithoutFall(adjusted, now, before, Daily(t.day));
    OneMore(TimerAdjusted(seconds), Announce(adjusted, now, before).events, OfTimer(g));
    OneMore(TimerAdjusted(seconds), Announce(adjusted, now, before).events, Daily(t.day));
  }

  /** Adding time warns about nothing, revives an expired timer as a paused one, leaves as the timer's
      only marks the configured thresholds landed on, and puts a ceiling where it has landed. */
  lemma AddingTimeRearms(t: World, seconds: int, r: Reading, g: nat)
    requires TimerOk(t.timer) && Timing(t, g) && KnownGeneration(t.timer, t.db.nextId)
    requires 0 < seconds <= 86400
    ensures var v := AdjustTimerTail(t, seconds, r);
            && v.Done?
            && Warned(v.events, OfTimer(g)) == [] && Warned(v.events, Daily(t.day)) == []
            && v.world.timer.remaining == MinReal(86400.0, t.timer.remaining + seconds as real)
            && v.world.timer.state == (if t.timer.state == Expired then Paused else t.timer.state)
            && MarkedThresholds(v.world.db, OfTimer(g)) ==
               (set x | x in Thresholds(t.cfg.thresholdMinutes) && v.world.timer.remaining == x as real)
            && Ceiling(v.world, g, v.world.timer.remaining)
  {
    AdjustedMarks(t, seconds, r.now, g);
    AddingTimeWarnsNot(t, seconds, r.now, g);
    LandedCeiling(t, seconds, r.now, g);
  }

  lemma LandedCeiling(t: World, seconds: int, now: int, g: nat)
    requires TimerOk(t.timer) && Timing(t, g) && KnownGeneration(t.timer, t.db.nextId) && 0 < seconds
    ensures var v := Announce(ApplyAdjustment(t, seconds, now), now, TakeSnapshot(t, now)).world;
            && v.timer == AdjustedTimer(t.timer, seconds)
            && Ceiling(v, g, v.timer.remaining)
  {
    var adjusted := ApplyAdjustment(t, seconds, now);
    ApplyAdjustmentOnlyTimer(t, seconds, now);
    AdjustedMarks(t, seconds, now, g);
    AddingTimeWarnsNot(t, seconds, now, g);
    AnnounceFrame(adjusted, now, TakeSnapshot(t, now));
    var v := Announce(adjusted, now, TakeSnapshot(t, now)).world;
    MarkedIff(v.db, OfTimer(g), v.timer.remaining.Floor);
  }

  lemma MarkedIff(db: Tables, scope: Scope, t: int)
    ensures t in MarkedThresholds(db, scope) <==> Mark(scope, t) in db.marks
  {
    if Mark(scope, t) in db.marks {
      assert Mark(scope, t).threshold in MarkedThresholds(db, scope);
    }
  }

  // ----- the ceiling

  /** Whether the value landed on is itself a threshold under settings `c`. */
  predicate LandingDue(c: Config, top: real) { top == top.Floor as real && top.Floor in DueThresholds(c) }

  function LandingMark(g: nat, top: real): Mark { Mark(OfTimer(g), top.Floor) }

  predicate TimerUnder(t: Timer, g: nat, top: real) {
    t.generation == Some(g) && t.state != Idle && t.remaining <= top
  }

  /** The timer, or its stored copy, still has all of `top`. */
  predicate AtTop(w: World, top: real) { w.timer.remaining == top || LoadTimer(w.db).remaining == top }

  /** The timer and its stored copy have at most `top` left; while one of them still has all of it, a
      threshold of exactly `top` has its mark. */
  predicate Ceiling(w: World, g: nat, top: real) {
    && 0.0 < top && g < w.db.nextId
    && TimerUnder(w.timer, g, top) && TimerUnder(LoadTimer(w.db), g, top)
    && (AtTop(w, top) && LandingDue(w.cfg, top) ==> LandingMark(g, top) in w.db.marks)
  }

  /** Generation `g` has been replaced for good. */
  predicate Gone(w: World, g: nat) {
    w.timer.generation != Some(g) && LoadTimer(w.db).generation != Some(g) && g < w.db.nextId
  }

  predicate Held(w: World, g: nat, top: real) { Ceiling(w, g, top) || Gone(w, g) }

  ghost predicate AllBelow(s: seq<int>, top: real) {
    forall i :: 0 <= i < |s| ==> s[i] as real < top
  }

  /** Whatever is warned about under a ceiling lies strictly below it, and the ceiling stays. */
  lemma CeilingAnnounced(a: World, v: World, es: seq<Event>, g: nat, top: real, previous: real)
    requires Ceiling(a, g, top)
    requires previous <= top && (previous == top && LandingDue(a.cfg, top) ==> LandingMark(g, top) in a.db.marks)
    requires v.cfg == a.cfg && v.timer == a.timer && v.db.timer == a.db.timer && v.db.nextId == a.db.nextId
    requires WarnsExactly(OfTimer(g),
                          CrossedBy(a.cfg, Some(MaxReal(0.0, previous)), Some(MaxReal(0.0, a.timer.remaining))),
                          a.db, v.db, es)
    ensures Ceiling(v, g, top) && AllBelow(Warned(es, OfTimer(g)), top)
  {
    MarkedIff(a.db, OfTimer(g), top.Floor);
    MarkedIff(v.db, OfTimer(g), top.Floor);
    var crossed := CrossedBy(a.cfg, Some(MaxReal(0.0, previous)), Some(MaxReal(0.0, a.timer.remaining)));
    CrossedUnder(DueThresholds(a.cfg), previous, a.timer.remaining, top);
    NewlyBelow(Warned(es, OfTimer(g)), crossed, MarkedThresholds(a.db, OfTimer(g)), top);
  }

  lemma CrossedUnder(due: seq<int>, previous: real, remaining: real, top: real)
    requires previous <= top && 0.0 < top
    ensures var crossed := Crossed(due, MaxReal(0.0, previous), MaxReal(0.0, remaining));
            forall t :: t in crossed ==> t as real <= top && (t as real == top ==> previous == top && t in due)
  { }

  lemma NewlyBelow(shown: seq<int>, crossed: set<int>, marked: set<int>, top: real)
    requires forall i :: 0 <= i < |shown| ==> shown[i] in crossed - marked
    requires forall t :: t in crossed ==> t as real <= top && (t as real == top ==> t in marked)
    ensures AllBelow(shown, top)
  { }

  // ----- ticks under a ceiling

  /** A daily roll at `at`, if it opens another day, does not forget that the value landed on has been
      handled. */
  predicate SparesLanding(w: World, retentionDays: int, at: int, newDay: int, g: nat, top: real) {
    || newDay == w.day
    || LandingMark(g, top) !in w.db.marks
    || Cutoff(retentionDays, at) <= w.db.marks[LandingMark(g, top)]
  }

  predicate TickSpares(w: World, r: Reading, g: nat, top: real) {
    var newDay := DayOf(w.cfg, r.now);
    SparesLanding(w, w.cfg.retentionDays, DayStart(w.cfg, newDay), newDay, g, top)
  }

  lemma CeilingElapse(w: World, r: Reading, g: nat, top: real)
    requires Ceiling(w, g, top) && (LandingDue(w.cfg, top) ==> TickSpares(w, r, g, top))
    ensures var e := Elapse(w, r).world;
            && Ceiling(e, g, top) && e.cfg == w.cfg
            && (w.timer.remaining == top && LandingDue(e.cfg, top) ==> LandingMark(g, top) in e.db.marks)
  {
    ElapseFrame(w, r);
    RunUnderCeiling(w, Elapse(w, r).world, MonoDelta(w, r), r.mono, g, top);
  }

  /** Running and saving the timer keeps it under the ceiling. */
  lemma RunUnderCeiling(w: World, e: World, elapsed: real, mono: real, g: nat, top: real)
    requires Ceiling(w, g, top) && 0.0 <= elapsed && RunsTimer(w, e, elapsed, mono)
    requires w.db.nextId <= e.db.nextId && e.cfg == w.cfg
    requires AtTop(w, top) && LandingDue(w.cfg, top) ==> LandingMark(g, top) in e.db.marks
    ensures Ceiling(e, g, top)
    ensures w.timer.remaining == top && LandingDue(e.cfg, top) ==> LandingMark(g, top) in e.db.marks
  { }

  lemma CeilingTick(w: World, r: Reading, g: nat, top: real)
    requires Ceiling(w, g, top) && (LandingDue(w.cfg, top) ==> TickSpares(w, r, g, top))
    ensures Ceiling(Tick(w, r).world, g, top) && AllBelow(Warned(Tick(w, r).events, OfTimer(g)), top)
  {
    CeilingElapse(w, r, g, top);
    TickAnnounces(w, r, OfTimer(g));
    AnnouncedBelow(w, Elapse(w, r).world, r.now, g, top);
  }

  /** An announcement about what has happened since `t`. */
  lemma AnnouncedBelow(t: World, a: World, now: int, g: nat, top: real)
    requires TimerUnder(t.timer, g, top) && Ceiling(a, g, top)
    requires t.timer.remaining == top && LandingDue(a.cfg, top) ==> LandingMark(g, top) in a.db.marks
    ensures var v := Announce(a, now, TakeSnapshot(t, now));
            && Ceiling(v.world, g, top) && AllBelow(Warned(v.events, OfTimer(g)), top)
  {
    var before := TakeSnapshot(t, now);
    AnnounceExact(a, now, before, OfTimer(g));
    AnnounceFrame(a, now, before);
    CeilingAnnounced(a, Announce(a, now, before).world, Announce(a, now, before).events, g, top, t.timer.remaining);
  }

  /** What a tick does to the ceiling by forgetting, at a daily roll, that the value landed on has been
      handled. If the timer leaves that value in the same tick, the value is warned about again, unless a
      lower threshold without a mark is shown in its place; otherwise it is due for a warning as long as
      the timer or its stored copy has all of it. */
  ghost predicate TickBreaks(w: World, r: Reading, g: nat, top: real) {
    var e := Elapse(w, r).world;
    && LandingDue(w.cfg, top) && !TickSpares(w, r, g, top)
    && if w.timer.remaining == top && e.timer.remaining < top
       then forall t :: t in DueThresholds(w.cfg) && e.timer.remaining <= t as real < top ==>
                          t in MarkedThresholds(e.db, OfTimer(g))
       else w.timer.remaining == top || LoadTimer(e.db).remaining == top
  }

  /** What elapses leaves timer and copy where they are or lower. */
  lemma RunLower(w: World, e: World, elapsed: real, mono: real, g: nat, top: real)
    requires Ceiling(w, g, top) && TimerOk(w.timer) && 0.0 <= elapsed && RunsTimer(w, e, elapsed, mono)
    ensures TimerUnder(e.timer, g, top) && TimerUnder(LoadTimer(e.db), g, top)
    ensures 0.0 <= e.timer.remaining <= w.timer.remaining
  { }

  /** The announcement once the mark is forgotten: `a` is the state that it finds, `previous` the time
      left before. */
  lemma ForgottenAnnounced(a: World, v: World, es: seq<Event>, g: nat, top: real, previous: real)
    requires 0.0 < top && g < a.db.nextId && 0.0 <= a.timer.remaining <= previous <= top
    requires TimerUnder(a.timer, g, top) && TimerUnder(LoadTimer(a.db), g, top)
    requires LandingDue(a.cfg, top) && LandingMark(g, top) !in a.db.marks
    requires v.cfg == a.cfg && v.timer == a.timer && v.db.timer == a.db.timer && v.db.nextId == a.db.nextId
    requires WarnsExactly(OfTimer(g), CrossedBy(a.cfg, Some(previous), Some(a.timer.remaining)), a.db, v.db, es)
    ensures Held(v, g, top) && AllBelow(Warned(es, OfTimer(g)), top) <==>
            if previous == top && a.timer.remaining < top
            then exists t :: t in DueThresholds(a.cfg) && a.timer.remaining <= t as real < top
                             && t !in MarkedThresholds(a.db, OfTimer(g))
            else previous != top && LoadTimer(a.db).remaining != top
  {
    MarkedIff(a.db, OfTimer(g), top.Floor);
    MarkedIff(v.db, OfTimer(g), top.Floor);
    if previous == top && a.timer.remaining < top {
      LeavingForgotten(a, v, es, g, top);
    } else {
      BelowForgotten(a, v, es, g, top, previous);
    }
  }

  /** On leaving the value landed on, the least threshold passed without a mark is shown: the value itself
      or a lower one. */
  lemma LeavingForgotten(a: World, v: World, es: seq<Event>, g: nat, top: real)
    requires 0.0 < top && 0.0 <= a.timer.remaining < top
    requires LandingDue(a.cfg, top) && top.Floor !in MarkedThresholds(a.db, OfTimer(g))
    requires WarnsExactly(OfTimer(g), CrossedBy(a.cfg, Some(top), Some(a.timer.remaining)), a.db, v.db, es)
    ensures top.Floor in MarkedThresholds(v.db, OfTimer(g))
    ensures AllBelow(Warned(es, OfTimer(g)), top) <==>
            exists t :: t in DueThresholds(a.cfg) && a.timer.remaining <= t as real < top
                        && t !in MarkedThresholds(a.db, OfTimer(g))
  {
    var newly := CrossedBy(a.cfg, Some(top), Some(a.timer.remaining)) - MarkedThresholds(a.db, OfTimer(g));
    assert top.Floor in newly;
    var shown := Warned(es, OfTimer(g))[0];
    assert shown in newly;
    if t :| t in DueThresholds(a.cfg) && a.timer.remaining <= t as real < top
            && t !in MarkedThresholds(a.db, OfTimer(g)) {
      assert t in newly && shown <= t;
    }
  }

  lemma BelowForgotten(a: World, v: World, es: seq<Event>, g: nat, top: real, previous: real)
    requires 0.0 < top && 0.0 <= a.timer.remaining <= previous <= top
    requires previous == top ==> a.timer.remaining == top
    requires top.Floor !in MarkedThresholds(a.db, OfTimer(g))
    requires WarnsExactly(OfTimer(g), CrossedBy(a.cfg, Some(previous), Some(a.timer.remaining)), a.db, v.db, es)
    ensures top == top.Floor as real ==> top.Floor !in MarkedThresholds(v.db, OfTimer(g))
    ensures AllBelow(Warned(es, OfTimer(g)), top)
  {
    var crossed := CrossedBy(a.cfg, Some(previous), Some(a.timer.remaining));
    assert forall t :: t in crossed ==> t as real < top;
    NewlyBelow(Warned(es, OfTimer(g)), crossed, MarkedThresholds(a.db, OfTimer(g)), top);
  }

  /** The ceiling holds after a tick, with every warning strictly below it, if and only if the tick is not
      one that breaks it. */
  lemma CeilingTickExact(w: World, r: Reading, g: nat, top: real)
    requires TimersOk(w) && Ceiling(w, g, top)
    ensures Held(Tick(w, r).world, g, top) && AllBelow(Warned(Tick(w, r).events, OfTimer(g)), top) <==>
            !TickBreaks(w, r, g, top)
  {
    if LandingDue(w.cfg, top) && !TickSpares(w, r, g, top) {
      ForgettingTick(w, r, g, top);
    } else {
      CeilingTick(w, r, g, top);
    }
  }

  lemma ElapseForgets(w: World, r: Reading, g: nat, top: real)
    requires TimersOk(w) && Ceiling(w, g, top) && LandingDue(w.cfg, top) && !TickSpares(w, r, g, top)
    ensures var e := Elapse(w, r).world;
            && TimerUnder(e.timer, g, top) && TimerUnder(LoadTimer(e.db), g, top)
            && 0.0 <= e.timer.remaining <= w.timer.remaining
            && e.cfg == w.cfg && g < e.db.nextId && LandingMark(g, top) !in e.db.marks
  {
    ElapseFrame(w, r);
    RunLower(w, Elapse(w, r).world, MonoDelta(w, r), r.mono, g, top);
  }

  lemma AnnounceForgotten(w: World, a: World, now: int, g: nat, top: real)
    requires TimerUnder(w.timer, g, top) && 0.0 < top && g < a.db.nextId
    requires TimerUnder(a.timer, g, top) && TimerUnder(LoadTimer(a.db), g, top)
    requires 0.0 <= a.timer.remaining <= w.timer.remaining
    requires LandingDue(a.cfg, top) && LandingMark(g, top) !in a.db.marks
    ensures var v := Announce(a, now, TakeSnapshot(w, now));
            Held(v.world, g, top) && AllBelow(Warned(v.events, OfTimer(g)), top) <==>
            if w.timer.remaining == top && a.timer.remaining < top
            then exists t :: t in DueThresholds(a.cfg) && a.timer.remaining <= t as real < top
                             && t !in MarkedThresholds(a.db, OfTimer(g))
            else w.timer.remaining != top && LoadTimer(a.db).remaining != top
  {
    var before := TakeSnapshot(w, now);
    var v := Announce(a, now, before);
    AnnounceExact(a, now, before, OfTimer(g));
    AnnounceFrame(a, now, before);
    ForgottenAnnounced(a, v.world, v.events, g, top, w.timer.remaining);
  }

  lemma ForgettingTick(w: World, r: Reading, g: nat, top: real)
    requires TimersOk(w) && Ceiling(w, g, top) && LandingDue(w.cfg, top) && !TickSpares(w, r, g, top)
    ensures Held(Tick(w, r).world, g, top) && AllBelow(Warned(Tick(w, r).events, OfTimer(g)), top) <==>
            !TickBreaks(w, r, g, top)
  {
    ElapseForgets(w, r, g, top);
    TickAnnounces(w, r, OfTimer(g));
    AnnounceForgotten(w, Elapse(w, r).world, r.now, g, top);
  }

  // ----- when the generation is gone

  lemma AnnounceOther(w: World, now: int, before: Snapshot, scope: Scope)
    requires !LiveScope(w, scope)
    ensures Warned(Announce(w, now, before).events, scope) == []
  {
    var timer := if w.timer.generation.Some?
                 then WarnScope(w, OfTimer(w.timer.generation.value), now, before) else Effect(w, []);
    if w.timer.generation.Some? {
      WarnScopeExact(w, OfTimer(w.timer.generation.value), now, before);
      WarnScopeOnlyMarks(w, OfTimer(w.timer.generation.value), now, before);
    }
    WarnScopeExact(timer.world, Daily(w.day), now, before);
    NothingWarned(Announce(w, now, before).events, scope);
  }

  lemma GoneTick(w: World, r: Reading, g: nat)
    requires Gone(w, g)
    ensures Gone(Tick(w, r).world, g) && Warned(Tick(w, r).events, OfTimer(g)) == []
  {
    ElapseFrame(w, r);
    GoneElapsed(w, Elapse(w, r).world, MonoDelta(w, r), g);
    TickAnnounces(w, r, OfTimer(g));
    GoneSilent(Elapse(w, r).world, r.now, TakeSnapshot(w, r.now), g);
  }

  lemma GoneElapsed(w: World, e: World, elapsed: real, g: nat)
    requires Gone(w, g) && w.db.nextId <= e.db.nextId && e.timer == RunTimer(w, elapsed).world.timer
    requires e.db.timer == w.db.timer || e.db.timer == SaveTimer(w.db, e.timer).timer
    ensures Gone(e, g)
  { }

  lemma GoneSilent(a: World, now: int, before: Snapshot, g: nat)
    requires Gone(a, g)
    ensures var v := Announce(a, now, before);
            Gone(v.world, g) && Warned(v.events, OfTimer(g)) == []
  {
    AnnounceFrame(a, now, before);
    AnnounceOther(a, now, before, OfTimer(g));
  }

  lemma GoneAnnounced(a: World, e: Event, now: int, before: Snapshot, g: nat)
    requires Gone(a, g) && !e.Warning?
    ensures var v := Announce(a, now, before);
            Gone(v.world, g) && Warned([e] + v.events, OfTimer(g)) == []
  {
    GoneSilent(a, now, before, g);
    OneMore(e, Announce(a, now, before).events, OfTimer(g));
  }

  lemma UpdateSilent(t: World, c: Config, r: Reading, g: nat)
    requires t.timer.generation != Some(g)
    ensures Warned(UpdateConfigTail(t, c, r).events, OfTimer(g)) == []
  {
    var before, s := TakeSnapshot(t, r.now), SwitchConfig(t, c, r);
    SwitchNoWarnings(t, c, r, OfTimer(g));
    var rearmed := Rearm(s.world, r.now, before);
    RearmedTimer(t, c, r);
    AnnounceOther(rearmed, r.now, before, OfTimer(g));
    NothingWarned([ConfigUpdated], OfTimer(g));
    WarnedPadded(s.events, Announce(rearmed, r.now, before).events, [ConfigUpdated], OfTimer(g));
  }

  lemma RearmedTimer(t: World, c: Config, r: Reading)
    ensures Rearm(SwitchConfig(t, c, r).world, r.now, TakeSnapshot(t, r.now)).timer == t.timer
  {
    SwitchConfigFrame(t, c, r);
  }

  lemma GoneUpdate(t: World, c: Config, r: Reading, g: nat)
    requires Gone(t, g)
    ensures Gone(UpdateConfigTail(t, c, r).world, g)
  {
    SwitchConfigFrame(t, c, r);
    UpdateConfigTailFrame(t, c, r);
  }

  lemma GoneProper(t: World, c: Command, r: Reading, g: nat)
    requires Gone(t, g)
    ensures var p := Proper(t, c, r);
            Gone(p.world, g) && Warned(EventsOf(p), OfTimer(g)) == []
  {
    if SilentTail(c) && TicksFirst(c) {
      SilentTailFrame(t, c, r);
      SilentTailEvents(t, c, r, OfTimer(g));
    } else if c.DoAdjustTimer? {
      GoneAdjust(t, c.seconds, r, g);
    } else if c.DoGrant? {
      GoneGrant(t, c.seconds, c.reason, r, g);
    } else if c.DoUpdateConfig? {
      GoneUpdate(t, c.config, r, g);
      UpdateSilent(t, c.config, r, g);
    } else {
      GoneOther(t, c, r, g);
    }
  }

  lemma GoneOther(t: World, c: Command, r: Reading, g: nat)
    requires Gone(t, g) && (c.DoStartTimer? || c.DoCancelTimer? || !TicksFirst(c))
    ensures var p := Proper(t, c, r);
            Gone(p.world, g) && Warned(EventsOf(p), OfTimer(g)) == []
  {
    if c.DoStartTimer? || c.DoCancelTimer? {
      ReplacingSilent(t, c, r, OfTimer(g));
    } else if c.DoResume? {
      ResumeFrame(t, r);
      ResumeSilent(t, r, g);
    } else if c.DoRestart? {
      StartupSilent(t.db, c.config, r, OfTimer(g));
      StartupKeepsTables(t.db, c.config, r);
    }
  }

  lemma GoneAdjust(t: World, seconds: int, r: Reading, g: nat)
    requires Gone(t, g)
    ensures var p := AdjustTimerTail(t, seconds, r);
            Gone(p.world, g) && Warned(EventsOf(p), OfTimer(g)) == []
  {
    ApplyAdjustmentOnlyTimer(t, seconds, r.now);
    GoneAnnounced(ApplyAdjustment(t, seconds, r.now), TimerAdjusted(seconds), r.now, TakeSnapshot(t, r.now), g);
  }

  lemma GoneGrant(t: World, seconds: int, reason: string, r: Reading, g: nat)
    requires Gone(t, g)
    ensures var p := GrantTail(t, seconds, reason, r);
            Gone(p.world, g) && Warned(EventsOf(p), OfTimer(g)) == []
  {
    GoneAnnounced(ApplyGrant(t, seconds, r.now), DailyAdjusted(t.day, seconds), r.now, TakeSnapshot(t, r.now), g);
  }

  lemma ReplacingSilent(t: World, c: Command, r: Reading, scope: Scope)
    requires c.DoStartTimer? || c.DoCancelTimer?
    ensures Warned(EventsOf(Proper(t, c, r)), scope) == []
  {
    NothingWarned(EventsOf(Proper(t, c, r)), scope);
  }

  lemma ResumeSilent(w: World, r: Reading, g: nat)
    ensures Warned(Resume(w, r).events, OfTimer(g)) == []
  {
    RollNoWarnings(w.(lastWall := r.now, lastMono := r.mono), r.now, DayOf(w.cfg, r.now), r.mono);
    NothingWarned(Resume(w, r).events, OfTimer(g));
  }

  // ----- commands under a ceiling

  /** The mark survives a daily roll at `at`, if that opens another day. */
  predicate Kept(w: World, retentionDays: int, at: int, newDay: int, m: Mark) {
    m in w.db.marks && (newDay == w.day || Cutoff(retentionDays, at) <= w.db.marks[m])
  }

  /** What ends the fresh start: time added beyond the value landed on; and, while all of it is left and
      it is a threshold, losing the mark that says so, be it to `history.clear`, to retention, or
      because new settings have only just made it a threshold. */
  predicate Breaks(t: World, c: Command, r: Reading, g: nat, top: real) {
    match c
    case DoAdjustTimer(s) => 0 < s <= 86400 && top < MinReal(86400.0, t.timer.remaining + s as real)
    case DoPurge => !AnyOpen(t.db.sessions) && AtTop(t, top) && LandingDue(t.cfg, top)
    case DoResume =>
      && AtTop(t, top) && LandingDue(t.cfg, top)
      && !Kept(t, t.cfg.retentionDays, r.now, DayOf(t.cfg, r.now), LandingMark(g, top))
    case DoUpdateConfig(cfg) =>
      && AtTop(t, top) && LandingDue(cfg, top)
      && !Kept(t, cfg.retentionDays, r.now, DayOf(cfg, r.now), LandingMark(g, top))
    case DoRestart(cfg) =>
      LoadTimer(t.db).remaining == top && LandingDue(cfg, top) && LandingMark(g, top) !in t.db.marks
    case _ => false
  }

  lemma CeilingRaised(v: World, g: nat, low: real, top: real)
    requires Ceiling(v, g, low) && low <= top
    ensures Ceiling(v, g, top)
  { }

  /** Without its tick, the command warns about nothing that is not strictly below the ceiling, and the
      ceiling holds afterwards, or the timer has been replaced, if and only if the command is not one
      of those that break it. */
  ghost predicate KeepsCeiling(t: World, c: Command, r: Reading, g: nat, top: real) {
    var p := Proper(t, c, r);
    && (Held(p.world, g, top) <==> !Breaks(t, c, r, g, top))
    && AllBelow(Warned(EventsOf(p), OfTimer(g)), top)
  }

  lemma AdjustUnderCeiling(t: World, seconds: int, r: Reading, g: nat, top: real)
    requires Ceiling(t, g, top) && TimerOk(t.timer)
    ensures KeepsCeiling(t, DoAdjustTimer(seconds), r, g, top)
  {
    assert Proper(t, DoAdjustTimer(seconds), r) == AdjustTimerTail(t, seconds, r);
    if 0 < seconds <= 86400 {
      AddingUnderCeiling(t, seconds, r, g, top);
    } else if -86400 <= seconds < 0 {
      TakingUnderCeiling(t, seconds, r, g, top);
    } else {
      RefusedUnderCeiling(t, DoAdjustTimer(seconds), r, g, top);
    }
  }

  /** A command that is refused. */
  lemma RefusedUnderCeiling(t: World, c: Command, r: Reading, g: nat, top: real)
    requires Ceiling(t, g, top) && c.DoAdjustTimer? && !(0 < c.seconds <= 86400)
    requires Proper(t, c, r).Refused? && Proper(t, c, r).world == t
    ensures KeepsCeiling(t, c, r, g, top)
  { }

  lemma AddingUnderCeiling(t: World, seconds: int, r: Reading, g: nat, top: real)
    requires Ceiling(t, g, top) && TimerOk(t.timer) && 0 < seconds <= 86400
    ensures var v := AdjustTimerTail(t, seconds, r);
            && (Held(v.world, g, top) <==> MinReal(86400.0, t.timer.remaining + seconds as real) <= top)
            && Warned(EventsOf(v), OfTimer(g)) == []
  {
    AddingTimeRearms(t, seconds, r, g);
    var v := AdjustTimerTail(t, seconds, r).world;
    if v.timer.remaining <= top {
      CeilingRaised(v, g, v.timer.remaining, top);
    }
  }

  lemma TakingUnderCeiling(t: World, seconds: int, r: Reading, g: nat, top: real)
    requires Ceiling(t, g, top) && -86400 <= seconds < 0
    ensures var v := AdjustTimerTail(t, seconds, r);
            Ceiling(v.world, g, top) && AllBelow(Warned(EventsOf(v), OfTimer(g)), top)
  {
    var a := ApplyAdjustment(t, seconds, r.now);
    AnnouncedBelow(t, a, r.now, g, top);
    OneMore(TimerAdjusted(seconds), Announce(a, r.now, TakeSnapshot(t, r.now)).events, OfTimer(g));
  }

  lemma GrantTailUnderCeiling(t: World, seconds: int, reason: string, r: Reading, g: nat, top: real)
    requires Ceiling(t, g, top)
    ensures var v := GrantTail(t, seconds, reason, r);
            Ceiling(v.world, g, top) && AllBelow(Warned(EventsOf(v), OfTimer(g)), top)
  {
    if GrantTail(t, seconds, reason, r).Done? {
      var a := ApplyGrant(t, seconds, r.now);
      AnnouncedBelow(t, a, r.now, g, top);
      OneMore(DailyAdjusted(t.day, seconds), Announce(a, r.now, TakeSnapshot(t, r.now)).events, OfTimer(g));
    }
  }

  lemma GrantUnderCeiling(t: World, seconds: int, reason: string, r: Reading, g: nat, top: real)
    requires Ceiling(t, g, top)
    ensures KeepsCeiling(t, DoGrant(seconds, reason), r, g, top)
  {
    assert Proper(t, DoGrant(seconds, reason), r) == GrantTail(t, seconds, reason, r);
    GrantTailUnderCeiling(t, seconds, reason, r, g, top);
  }

  lemma SwitchedLanding(t: World, c: Config, r: Reading, m: Mark)
    ensures m in SwitchConfig(t, c, r).world.db.marks <==> Kept(t, c.retentionDays, r.now, DayOf(c, r.now), m)
  {
    if DayOf(c, r.now) != t.day {
      RollFrame(t.(cfg := c), r.now, DayOf(c, r.now), r.mono);
    }
  }

  lemma UpdateUnderCeiling(t: World, c: Config, r: Reading, g: nat, top: real)
    requires Ceiling(t, g, top)
    ensures KeepsCeiling(t, DoUpdateConfig(c), r, g, top)
  {
    assert Proper(t, DoUpdateConfig(c), r) == UpdateConfigTail(t, c, r);
    UpdateStandsStill(t, c, r, g);
    SwitchedLanding(t, c, r, LandingMark(g, top));
    MarkedIff(SwitchConfig(t, c, r).world.db, OfTimer(g), top.Floor);
    MarkedIff(UpdateConfigTail(t, c, r).world.db, OfTimer(g), top.Floor);
    SameTimerHeld(t, UpdateConfigTail(t, c, r).world, g, top);
  }

  lemma ResumeUnderCeiling(t: World, r: Reading, g: nat, top: real)
    requires Ceiling(t, g, top)
    ensures KeepsCeiling(t, DoResume, r, g, top)
  {
    ResumeFrame(t, r);
    ResumeSilent(t, r, g);
    ResumedLanding(t, r, LandingMark(g, top));
    SameTimerHeld(t, Resume(t, r).world, g, top);
  }

  lemma ResumedLanding(t: World, r: Reading, m: Mark)
    ensures m in Resume(t, r).world.db.marks <==> Kept(t, t.cfg.retentionDays, r.now, DayOf(t.cfg, r.now), m)
  {
    if DayOf(t.cfg, r.now) != t.day {
      RollFrame(t.(lastWall := r.now, lastMono := r.mono), r.now, DayOf(t.cfg, r.now), r.mono);
    }
  }

  /** With the timer as it was, a ceiling depends on the settings and on the mark. */
  lemma SameTimerHeld(t: World, v: World, g: nat, top: real)
    requires Ceiling(t, g, top) && v.timer == t.timer && v.db.timer == t.db.timer && t.db.nextId <= v.db.nextId
    ensures Held(v, g, top) <==> !(AtTop(t, top) && LandingDue(v.cfg, top) && LandingMark(g, top) !in v.db.marks)
  { }

  /** The same for the timer as it was stored. */
  lemma LoadedTimerHeld(t: World, v: World, g: nat, top: real)
    requires Ceiling(t, g, top) && t.db.nextId <= v.db.nextId && v.timer.state != Idle
    requires v.timer == LoadTimer(t.db).(state := v.timer.state)
    requires v.db.timer == t.db.timer || v.db.timer == SaveTimer(t.db, v.timer).timer
    ensures Held(v, g, top) <==>
            !(LoadTimer(t.db).remaining == top && LandingDue(v.cfg, top) && LandingMark(g, top) !in v.db.marks)
  { }

  lemma RestartUnderCeiling(t: World, c: Config, r: Reading, g: nat, top: real)
    requires Ceiling(t, g, top)
    ensures KeepsCeiling(t, DoRestart(c), r, g, top)
  {
    StartupSilent(t.db, c, r, OfTimer(g));
    StartupKeepsTables(t.db, c, r);
    LoadedTimerHeld(t, Startup(t.db, c, r).world, g, top);
  }

  lemma StartupSilent(db: Tables, c: Config, r: Reading, scope: Scope)
    ensures Warned(Startup(db, c, r).events, scope) == []
  {
    NothingWarned(Startup(db, c, r).events, scope);
  }

  lemma StartupKeepsTables(db: Tables, c: Config, r: Reading)
    ensures var v := Startup(db, c, r).world;
            var saved := LoadTimer(db);
            && v.cfg == c && v.db.marks == db.marks && v.db.nextId == db.nextId
            && v.timer == saved.(state := v.timer.state) && (v.timer.state == Idle <==> saved.state == Idle)
            && (v.db.timer == db.timer || v.db.timer == SaveTimer(db, v.timer).timer)
  { }

  lemma SilentUnderCeiling(t: World, c: Command, r: Reading, g: nat, top: real)
    requires SilentTail(c) && TicksFirst(c) && Ceiling(t, g, top)
    ensures KeepsCeiling(t, c, r, g, top)
  {
    SilentTailFrame(t, c, r);
    SilentTailEvents(t, c, r, OfTimer(g));
  }

  lemma ReplacedUnderCeiling(t: World, c: Command, r: Reading, g: nat, top: real)
    requires (c.DoStartTimer? || c.DoCancelTimer?) && Ceiling(t, g, top)
    ensures KeepsCeiling(t, c, r, g, top)
  {
    ReplacingSilent(t, c, r, OfTimer(g));
  }

  /** Clearing the history, and turning down a malformed game. */
  lemma RestUnderCeiling(t: World, c: Command, r: Reading, g: nat, top: real)
    requires (c.DoPurge? || (c.DoSetGame? && !TicksFirst(c))) && Ceiling(t, g, top)
    ensures KeepsCeiling(t, c, r, g, top)
  { }

  /** Exactly the commands that break a ceiling end it. */
  lemma CeilingExact(t: World, c: Command, r: Reading, g: nat, top: real)
    requires TimerOk(t.timer) && Ceiling(t, g, top)
    ensures KeepsCeiling(t, c, r, g, top)
  {
    if SilentTail(c) && TicksFirst(c) {
      SilentUnderCeiling(t, c, r, g, top);
    } else {
      match c
      case DoAdjustTimer(s) => AdjustUnderCeiling(t, s, r, g, top);
      case DoGrant(s, reason) => GrantUnderCeiling(t, s, reason, r, g, top);
      case DoUpdateConfig(cfg) => UpdateUnderCeiling(t, cfg, r, g, top);
      case DoResume => ResumeUnderCeiling(t, r, g, top);
      case DoRestart(cfg) => RestartUnderCeiling(t, cfg, r, g, top);
      case DoStartTimer(s, action) => ReplacedUnderCeiling(t, c, r, g, top);
      case DoCancelTimer => ReplacedUnderCeiling(t, c, r, g, top);
      case DoPurge => RestUnderCeiling(t, c, r, g, top);
      case DoSetGame(game) => RestUnderCeiling(t, c, r, g, top);
    }
  }

  // ----- runs under a ceiling

  /** No tick and no command breaks the ceiling; once the timer has been replaced anything goes. */
  ghost predicate Unbroken(w: World, run: seq<Input>, g: nat, top: real) {
    run == [] ||
    var prefix, last := run[..|run| - 1], run[|run| - 1];
    Unbroken(w, prefix, g, top) && InputSpares(After(w, prefix), last.command, last.at, g, top)
  }

  ghost predicate InputSpares(w: World, c: Command, r: Reading, g: nat, top: real) {
    Ceiling(w, g, top) ==>
      (TicksFirst(c) ==> !TickBreaks(w, r, g, top)) && !Breaks(Ticked(w, c, r).world, c, r, g, top)
  }

  lemma TickedUnderCeiling(w: World, c: Command, r: Reading, g: nat, top: real)
    requires Ready(w) && Ceiling(w, g, top) && (TicksFirst(c) ==> !TickBreaks(w, r, g, top))
    ensures var t := Ticked(w, c, r);
            && Ready(t.world) && Ceiling(t.world, g, top)
            && AllBelow(Warned(t.events, OfTimer(g)), top)
  {
    if TicksFirst(c) {
      TickReady(w, r);
      CeilingTickExact(w, r, g, top);
      TickKeepsGeneration(w, r);
    }
  }

  lemma TickKeepsGeneration(w: World, r: Reading)
    ensures Tick(w, r).world.timer.generation == w.timer.generation
  {
    TickTimerFrame(w, r);
  }

  lemma CeilingStep(w: World, c: Command, r: Reading, g: nat, top: real)
    requires Ready(w) && Ceiling(w, g, top) && InputSpares(w, c, r, g, top)
    ensures Held(Step(w, c, r).world, g, top) && AllBelow(Warned(Recorded(w, c, r), OfTimer(g)), top)
  {
    StepInTwo(w, c, r, OfTimer(g));
    TickedUnderCeiling(w, c, r, g, top);
    CeilingExact(Ticked(w, c, r).world, c, r, g, top);
  }

  lemma GoneStep(w: World, c: Command, r: Reading, g: nat)
    requires Gone(w, g)
    ensures Gone(Step(w, c, r).world, g) && Warned(Recorded(w, c, r), OfTimer(g)) == []
  {
    StepInTwo(w, c, r, OfTimer(g));
    GoneTick(w, r, g);
    GoneProper(Ticked(w, c, r).world, c, r, g);
  }

  lemma HeldStep(w: World, c: Command, r: Reading, g: nat, top: real)
    requires Ready(w) && Held(w, g, top) && InputSpares(w, c, r, g, top) && ValidCommand(c)
    ensures Ready(Step(w, c, r).world) && Held(Step(w, c, r).world, g, top)
    ensures AllBelow(Warned(Recorded(w, c, r), OfTimer(g)), top)
  {
    StepReady(w, c, r);
    if Ceiling(w, g, top) {
      CeilingStep(w, c, r, g, top);
    } else {
      GoneStep(w, c, r, g);
    }
  }

  /** From the landing on, whatever is done to the daemon, crashes and restarts included, every warning
      about this timer is for a threshold strictly below the value landed on, until one of the ticks
      or commands that break the ceiling; also when the landing is on a threshold, and when it
      revived an expired timer. */
  lemma {:induction false} WarningsStayBelowLanding(w: World, run: seq<Input>, g: nat, top: real)
    requires Ready(w) && Held(w, g, top) && ValidRun(run) && Unbroken(w, run, g, top)
    ensures AllBelow(Warned(RecordedInRun(w, run), OfTimer(g)), top)
    ensures Ready(After(w, run)) && Held(After(w, run), g, top)
  {
    if run != [] {
      var prefix, last := run[..|run| - 1], run[|run| - 1];
      assert forall i :: 0 <= i < |prefix| ==> prefix[i] == run[i];
      WarningsStayBelowLanding(w, prefix, g, top);
      var u := After(w, prefix);
      assert InputSpares(u, last.command, last.at, g, top);
      HeldStep(u, last.command, last.at, g, top);
      WarnedConcat(RecordedInRun(w, prefix), Recorded(u, last.command, last.at), OfTimer(g));
    }
  }
}
