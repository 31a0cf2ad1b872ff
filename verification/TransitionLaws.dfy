/** Ticking twice, refused commands, and the chain of restriction changes. */
module TransitionLaws {
  import opened Basics
  import opened Zones
  import opened Schedule
  import opened Records
  import opened Storage
  import opened Engine
  import opened Frames
  import opened SessionLaws
  import opened RecoveryLaws

  // ----- ticking twice

  /** Nothing is left to do at reading `r`: the baselines are those of the reading, the day and the
      restriction are current, and nothing is due for saving. */
  ghost predicate Rested(w: World, r: Reading) {
    && w.lastMono == r.mono && w.lastWall == r.now
    && w.lastOffset == OffsetAt(w.cfg.zone, r.now)
    && w.day == DayOf(w.cfg, r.now)
    && Current(w, r.now)
    && (w.session.Some? ==> r.mono - w.lastCheckpoint < w.cfg.checkpointSeconds as real)
    && (w.timer.state == Running ==>
          r.mono - w.lastPersist < w.cfg.checkpointSeconds as real && 0.0 < w.timer.remaining)
  }

  /** The restriction is the one that timer, daily limit and allowed periods call for. */
  ghost predicate Current(w: World, now: int) { (w.reason, w.level) == Priority(w, now) }

  lemma {:induction false} SweepNothing(db: Tables, scope: Scope, due: seq<int>, previous: real, now: int)
    ensures Sweep(db, scope, due, previous, previous, now) == Swept(db, [])
  {
    if due != [] {
      SweepNothing(db, scope, due[..|due| - 1], previous, now);
    }
  }

  lemma WarnNothing(w: World, now: int)
    ensures Warn(w, now, TakeSnapshot(w, now)) == Effect(w, [])
  {
    var before := TakeSnapshot(w, now);
    if w.timer.generation.Some? {
      WarnScopeNothing(w, OfTimer(w.timer.generation.value), now);
    }
    WarnScopeNothing(w, Daily(w.day), now);
  }

  lemma WarnScopeNothing(w: World, scope: Scope, now: int)
    ensures WarnScope(w, scope, now, TakeSnapshot(w, now)) == Effect(w, [])
  {
    var current := Lookup(TakeSnapshot(w, now), scope);
    if current.Some? {
      SweepNothing(w.db, scope, DueThresholds(w.cfg), current.value, now);
    }
  }

  lemma RestedElapse(w: World, r: Reading)
    requires Rested(w, r)
    ensures Elapse(w, r) == Effect(w, [])
  { }

  lemma RestedTick(w: World, r: Reading)
    requires Rested(w, r)
    ensures Tick(w, r) == Effect(w, [])
  {
    RestedElapse(w, r);
    WarnNothing(w, r.now);
  }

  lemma SettleRests(w: World, elapsed: real, mono: real)
    requires 0 < w.cfg.checkpointSeconds && 0.0 <= elapsed && TimerOk(w.timer)
    ensures var v := Settle(w, elapsed, mono).world;
            && (v.session.Some? ==> mono - v.lastCheckpoint < w.cfg.checkpointSeconds as real)
            && (v.timer.state == Running ==>
                  mono - v.lastPersist < w.cfg.checkpointSeconds as real && 0.0 < v.timer.remaining)
  { }

  /** Every tick leaves the state at rest at its reading, with the restriction current. */
  lemma TickRests(w: World, r: Reading)
    requires ValidConfig(w.cfg) && TimerOk(w.timer)
    ensures Rested(Tick(w, r).world, r)
  {
    var clock := NoteClock(w, r).world;
    NoteClockFrame(w, r);
    assert clock.lastOffset == OffsetAt(w.cfg.zone, r.now);
    AdvanceFrame(clock, r);
    var advanced := Advance(clock, r).world;
    SettleRests(advanced, MonoDelta(w, r), r.mono);
    SettleFrame(advanced, MonoDelta(w, r), r.mono);
    AnnounceRests(Elapse(w, r).world, r.now, TakeSnapshot(w, r.now));
  }

  lemma AnnounceRests(w: World, now: int, before: Snapshot)
    ensures var v := Announce(w, now, before).world;
            && v == w.(reason := v.reason, level := v.level, db := w.db.(marks := v.db.marks))
            && Current(v, now)
  {
    AnnounceFrame(w, now, before);
    WarnOnlyMarks(w, now, before);
  }

  /** A second tick at the same clock reading changes nothing and reports nothing. */
  lemma TickTwice(w: World, r: Reading)
    requires ValidConfig(w.cfg) && TimerOk(w.timer)
    ensures Tick(Tick(w, r).world, r) == Effect(Tick(w, r).world, [])
  {
    TickRests(w, r);
    RestedTick(Tick(w, r).world, r);
  }

  // ----- refused commands and the service's engine action

  /** What becomes of a command that the service carries out. */
  datatype Fate = Accepted | Rejected(why: Refusal) | Crashed

  datatype Answer = Answer(world: World, published: seq<Event>, fate: Fate)

  /** `_engine_action`: a tick, then the command, which ticks again. A domain error is kept until the
      events of the first tick are out; any other error leaves before that. */
  function EngineAction(w: World, c: Command, first: Reading, second: Reading): Answer {
    var t := Tick(w, first);
    match Step(t.world, c, second)
    case Done(v, events) => Answer(v, t.events + events, Accepted)
    case Refused(v, why) => Answer(v, t.events, Rejected(why))
    case Raised(v) => Answer(v, [], Crashed)
  }

  /** The one command that fails with an error other than a domain error. */
  predicate OversizedGrant(c: Command) {
    c.DoGrant? && !IsBlank(c.reason) && c.seconds != 0 && !AdjustmentInRange(c.seconds)
  }

  /** A command that does not complete changes nothing, apart from its tick. */
  lemma RefusedProper(t: World, c: Command, r: Reading)
    requires Linked(t)
    ensures !Proper(t, c, r).Done? ==> Proper(t, c, r).world == t
    ensures Proper(t, c, r).Raised? <==> OversizedGrant(c)
  {
    if c.DoSetGame? && ValidGame(c.game) {
      SetGameTailBooks(t, c.game, r, 0);
    } else if c.DoGrant? {
      RefusedGrant(t, c.seconds, c.reason, r);
    } else {
      RefusedOther(t, c, r);
    }
  }

  lemma RefusedGrant(t: World, seconds: int, reason: string, r: Reading)
    ensures var v := GrantTail(t, seconds, reason, r);
            && (!v.Done? ==> v.world == t)
            && (v.Raised? <==> OversizedGrant(DoGrant(seconds, reason)))
  { }

  lemma RefusedOther(t: World, c: Command, r: Reading)
    requires !c.DoGrant? && (c.DoSetGame? ==> !ValidGame(c.game))
    ensures !Proper(t, c, r).Done? ==> Proper(t, c, r).world == t
    ensures !Proper(t, c, r).Raised?
  { }

  /** The action, at any two readings. `t` is what its own tick makes of the state, `u` what the
      command's tick makes of that. A command that does not complete leaves the state as `u`. If it was
      refused with a domain error, the events of `t` are published, but not those of `u`; if it failed in
      any other way, none are. */
  lemma EngineActionExact(w: World, c: Command, first: Reading, second: Reading)
    requires Linked(w) && ValidConfig(w.cfg)
    ensures var t, a := Tick(w, first), EngineAction(w, c, first, second);
            var u := Ticked(t.world, c, second);
            match Proper(u.world, c, second)
            case Done(v, _) => a == Answer(v, t.events + Recorded(t.world, c, second), Accepted)
            case Refused(_, why) => a == Answer(u.world, t.events, Rejected(why))
            case Raised(_) => a == Answer(u.world, [], Crashed)
  {
    TickBooks(w, first, 0);
    var t := Tick(w, first).world;
    TickedLinked(t, c, second);
    RefusedProper(Ticked(t, c, second).world, c, second);
    StepInParts(t, c, second);
  }

  lemma TickedLinked(w: World, c: Command, r: Reading)
    requires Linked(w) && 0 <= w.cfg.retentionDays
    ensures Linked(Ticked(w, c, r).world)
  {
    TickBooks(w, r, 0);
  }

  lemma StepInParts(w: World, c: Command, r: Reading)
    ensures match Proper(Ticked(w, c, r).world, c, r)
            case Done(v, _) => Step(w, c, r) == Done(v, Recorded(w, c, r))
            case Refused(v, why) => Step(w, c, r) == Refused(v, why)
            case Raised(v) => Step(w, c, r) == Raised(v)
  {
    var p := Proper(Ticked(w, c, r).world, c, r);
    if p.Done? {
      assert [] + p.events == p.events;
    }
  }

  /** Every event that the two ticks and the command record is published if and only if the command
      completes; or it is refused, and its own tick has nothing to report; or it is a grant that passes
      the engine's two checks and is out of the storage's range, and neither tick has. */
  lemma EventsKeptExact(w: World, c: Command, first: Reading, second: Reading)
    requires Linked(w) && ValidConfig(w.cfg)
    ensures var t := Tick(w, first);
            var u := Ticked(t.world, c, second);
            EngineAction(w, c, first, second).published == t.events + Recorded(t.world, c, second) <==>
            || Proper(u.world, c, second).Done?
            || (u.events == [] && (OversizedGrant(c) ==> t.events == []))
  {
    EngineActionExact(w, c, first, second);
    TickBooks(w, first, 0);
    var t := Tick(w, first);
    TickedLinked(t.world, c, second);
    var u := Ticked(t.world, c, second);
    RefusedProper(u.world, c, second);
    PublishedExact(t.events, u.events, Proper(u.world, c, second), EngineAction(w, c, first, second).published);
  }

  lemma PublishedExact(outer: seq<Event>, inner: seq<Event>, p: Reply, published: seq<Event>)
    requires match p
             case Done(_, events) => published == outer + (inner + events)
             case Refused(_, _) => published == outer
             case Raised(_) => published == []
    ensures published == outer + (inner + EventsOf(p)) <==>
            p.Done? || (inner == [] && (p.Raised? ==> outer == []))
  {
    if !p.Done? {
      assert inner + EventsOf(p) == inner;
      NothingAdded(outer, inner);
    }
  }

  lemma NothingAdded(a: seq<Event>, b: seq<Event>)
    ensures a == a + b <==> b == []
    ensures [] == a + b <==> a == [] && b == []
  {
    assert |a + b| == |a| + |b|;
  }

  /** With both ticks at one reading the second one does nothing, so that a refused command leaves the
      state of the first and loses none of its events. */
  lemma EngineActionAtOnce(w: World, c: Command, r: Reading)
    requires Linked(w) && ValidConfig(w.cfg) && TimerOk(w.timer)
    ensures var t, a := Tick(w, r), EngineAction(w, c, r, r);
            match Proper(t.world, c, r)
            case Done(v, events) => a == Answer(v, t.events + events, Accepted)
            case Refused(_, why) => a == Answer(t.world, t.events, Rejected(why))
            case Raised(_) => a == Answer(t.world, [], Crashed)
  {
    EngineActionExact(w, c, r, r);
    TickTwice(w, r);
    RestedRecords(Tick(w, r).world, c, r);
  }

  lemma RestedRecords(t: World, c: Command, r: Reading)
    requires Tick(t, r) == Effect(t, [])
    ensures Ticked(t, c, r) == Effect(t, []) && Recorded(t, c, r) == EventsOf(Proper(t, c, r))
  { }

  // ----- the restriction chain

  /** The restriction changes among the events lead from pair `p` to pair `q`, each from where the
      one before it ended, and each to somewhere else. */
  ghost predicate Chained(es: seq<Event>, p: (Reason, int), q: (Reason, int)) {
    if es == [] then p == q
    else
      var e := es[|es| - 1];
      if e.RestrictionChanged? then
        && q == (e.newReason, e.newLevel) && q != (e.oldReason, e.oldLevel)
        && Chained(es[..|es| - 1], p, (e.oldReason, e.oldLevel))
      else Chained(es[..|es| - 1], p, q)
  }

  lemma {:induction false} ChainedConcat(a: seq<Event>, b: seq<Event>,
                                         p: (Reason, int), m: (Reason, int), q: (Reason, int))
    requires Chained(a, p, m) && Chained(b, m, q)
    ensures Chained(a + b, p, q)
  {
    if b == [] {
      assert a + b == a;
    } else {
      var n := |b| - 1;
      assert (a + b)[..|a + b| - 1] == a + b[..n];
      ChainedConcat(a, b[..n], p, m, if b[n].RestrictionChanged? then (b[n].oldReason, b[n].oldLevel) else q);
    }
  }

  lemma {:induction false} ChainedWithout(es: seq<Event>, p: (Reason, int))
    requires forall i :: 0 <= i < |es| ==> !es[i].RestrictionChanged?
    ensures Chained(es, p, p)
  {
    if es != [] {
      ChainedWithout(es[..|es| - 1], p);
    }
  }

  function Pair(w: World): (Reason, int) { (w.reason, w.level) }

  lemma RefreshChained(w: World, now: int)
    ensures Chained(Refresh(w, now).events, Pair(w), Pair(Refresh(w, now).world))
  { }

  lemma WarnNoRestriction(w: World, now: int, before: Snapshot)
    ensures var es := Warn(w, now, before).events;
            forall i :: 0 <= i < |es| ==> !es[i].RestrictionChanged?
  { }

  lemma AnnounceChained(w: World, now: int, before: Snapshot)
    ensures Chained(Announce(w, now, before).events, Pair(w), Pair(Announce(w, now, before).world))
  {
    var warned := Warn(w, now, before);
    WarnOnlyMarks(w, now, before);
    WarnNoRestriction(w, now, before);
    ChainedWithout(warned.events, Pair(w));
    RefreshChained(warned.world, now);
    ChainedConcat(warned.events, Refresh(warned.world, now).events,
                  Pair(w), Pair(w), Pair(Announce(w, now, before).world));
  }

  lemma ElapsePair(w: World, r: Reading)
    ensures Pair(Elapse(w, r).world) == Pair(w)
  {
    var clock := NoteClock(w, r);
    NoteClockFrame(w, r);
    AdvanceFrame(clock.world, r);
    SettleFrame(Advance(clock.world, r).world, MonoDelta(w, r), r.mono);
  }

  lemma TickChained(w: World, r: Reading)
    ensures Chained(Tick(w, r).events, Pair(w), Pair(Tick(w, r).world))
  {
    ElapsePair(w, r);
    ElapseQuiet(w, r);
    var e := Elapse(w, r);
    ChainedWithout(e.events, Pair(w));
    AnnounceChained(e.world, r.now, TakeSnapshot(w, r.now));
    ChainedConcat(e.events, Announce(e.world, r.now, TakeSnapshot(w, r.now)).events,
                  Pair(w), Pair(w), Pair(Tick(w, r).world));
  }

  /** Concatenating events without a restriction change keeps a chain. */
  lemma ChainedPadded(a: seq<Event>, es: seq<Event>, b: seq<Event>, p: (Reason, int), q: (Reason, int))
    requires Chained(es, p, q)
    requires forall i :: 0 <= i < |a| ==> !a[i].RestrictionChanged?
    requires forall i :: 0 <= i < |b| ==> !b[i].RestrictionChanged?
    ensures Chained(a + es + b, p, q)
  {
    ChainedWithout(a, p);
    ChainedWithout(b, q);
    ChainedConcat(a, es, p, p, q);
    ChainedConcat(a + es, b, p, q, q);
  }

  /** The tails that never look at the restriction. */
  predicate KeepsPair(c: Command) {
    c.DoTick? || c.DoSetGame? || c.DoSuspend? || c.DoStartTimer? || c.DoPauseTimer? || c.DoResumeTimer? || c.DoShutdown?
  }

  lemma PairKeptTail(t: World, c: Command, r: Reading)
    requires KeepsPair(c) && TicksFirst(c)
    ensures var v := Tail(t, c, r);
            Pair(v.world) == Pair(t) && Chained(EventsOf(v), Pair(t), Pair(t))
  {
    ChainedWithout(EventsOf(Tail(t, c, r)), Pair(t));
  }

  lemma RefreshingTail(t: World, c: Command, r: Reading)
    requires TicksFirst(c) && (c.DoStopGame? || c.DoCancelTimer?)
    ensures var v := Tail(t, c, r);
            Chained(EventsOf(v), Pair(t), Pair(v.world))
  {
    if c.DoStopGame? {
      var closed := CloseCurrent(t, r.now);
      RefreshChained(closed.world, r.now);
      ChainedPadded(closed.events, Refresh(closed.world, r.now).events, [], Pair(t), Pair(StopGameTail(t, r).world));
      assert closed.events + Refresh(closed.world, r.now).events + [] == EventsOf(StopGameTail(t, r));
    } else if t.timer.state != Idle {
      var cleared := t.(timer := BLANK_TIMER, db := SaveTimer(t.db, BLANK_TIMER));
      RefreshChained(cleared, r.now);
      ChainedPadded([TimerCancelled], Refresh(cleared, r.now).events, [], Pair(t), Pair(CancelTimerTail(t, r).world));
      assert [TimerCancelled] + Refresh(cleared, r.now).events + [] == EventsOf(CancelTimerTail(t, r));
    } else {
      ChainedWithout([], Pair(t));
    }
  }

  lemma AdjustTailChained(t: World, seconds: int, r: Reading)
    ensures var v := AdjustTimerTail(t, seconds, r);
            Chained(EventsOf(v), Pair(t), Pair(v.world))
  {
    var v := AdjustTimerTail(t, seconds, r);
    if v.Refused? {
      ChainedWithout([], Pair(t));
    } else {
      var a := Announce(ApplyAdjustment(t, seconds, r.now), r.now, TakeSnapshot(t, r.now));
      AnnounceChained(ApplyAdjustment(t, seconds, r.now), r.now, TakeSnapshot(t, r.now));
      ChainedWithout([TimerAdjusted(seconds)], Pair(t));
      ChainedConcat([TimerAdjusted(seconds)], a.events, Pair(t), Pair(t), Pair(a.world));
    }
  }

  lemma GrantTailChained(t: World, seconds: int, reason: string, r: Reading)
    ensures var v := GrantTail(t, seconds, reason, r);
            Chained(EventsOf(v), Pair(t), Pair(v.world))
  {
    var v := GrantTail(t, seconds, reason, r);
    if v.Refused? {
      ChainedWithout([], Pair(t));
    } else {
      var a := Announce(ApplyGrant(t, seconds, r.now), r.now, TakeSnapshot(t, r.now));
      AnnounceChained(ApplyGrant(t, seconds, r.now), r.now, TakeSnapshot(t, r.now));
      ChainedWithout([DailyAdjusted(t.day, seconds)], Pair(t));
      ChainedConcat([DailyAdjusted(t.day, seconds)], a.events, Pair(t), Pair(t), Pair(a.world));
    }
  }

  /** Taking over settings and re-arming leave the restriction to the announcement that follows. */
  lemma SwitchQuiet(t: World, c: Config, r: Reading)
    ensures var s := SwitchConfig(t, c, r);
            && Pair(Rearm(s.world, r.now, TakeSnapshot(t, r.now))) == Pair(t)
            && forall i :: 0 <= i < |s.events| ==> !s.events[i].RestrictionChanged?
  {
    SwitchConfigFrame(t, c, r);
  }

  lemma UpdateConfigTailChained(t: World, c: Config, r: Reading)
    ensures var v := UpdateConfigTail(t, c, r);
            Chained(EventsOf(v), Pair(t), Pair(v.world))
  {
    var before := TakeSnapshot(t, r.now);
    var switched := SwitchConfig(t, c, r);
    SwitchQuiet(t, c, r);
    var rearmed := Rearm(switched.world, r.now, before);
    AnnounceChained(rearmed, r.now, before);
    var a := Announce(rearmed, r.now, before);
    ChainedPadded(switched.events, a.events, [ConfigUpdated], Pair(t), Pair(a.world));
  }

  lemma TailChained(t: World, c: Command, r: Reading)
    requires TicksFirst(c)
    ensures var v := Tail(t, c, r);
            Chained(EventsOf(v), Pair(t), Pair(v.world))
  {
    if KeepsPair(c) {
      PairKeptTail(t, c, r);
    } else if c.DoStopGame? || c.DoCancelTimer? {
      RefreshingTail(t, c, r);
    } else if c.DoUpdateConfig? {
      UpdateConfigTailChained(t, c.config, r);
    } else if c.DoAdjustTimer? {
      AdjustTailChained(t, c.seconds, r);
    } else {
      GrantTailChained(t, c.seconds, c.reason, r);
    }
  }

  lemma ProperChained(t: World, c: Command, r: Reading)
    requires !c.DoRestart?
    ensures Chained(EventsOf(Proper(t, c, r)), Pair(t), Pair(Proper(t, c, r).world))
  {
    if TicksFirst(c) {
      TailChained(t, c, r);
    } else {
      QuietCommand(t, c, r);
      ChainedWithout(EventsOf(Proper(t, c, r)), Pair(t));
    }
  }

  lemma QuietCommand(t: World, c: Command, r: Reading)
    requires !TicksFirst(c) && !c.DoRestart?
    ensures Pair(Proper(t, c, r).world) == Pair(t)
    ensures var es := EventsOf(Proper(t, c, r));
            forall i :: 0 <= i < |es| ==> !es[i].RestrictionChanged?
  { }

  lemma StepIsProper(w: World, c: Command, r: Reading)
    ensures Step(w, c, r).world == Proper(if TicksFirst(c) then Tick(w, r).world else w, c, r).world
  { }

  lemma StepChained(w: World, c: Command, r: Reading)
    requires !c.DoRestart?
    ensures Chained(Recorded(w, c, r), Pair(w), Pair(Step(w, c, r).world))
  {
    StepIsProper(w, c, r);
    if TicksFirst(c) {
      TickChained(w, r);
    } else {
      ChainedWithout([], Pair(w));
    }
    var t := if TicksFirst(c) then Tick(w, r) else Effect(w, []);
    ProperChained(t.world, c, r);
    ChainedConcat(t.events, EventsOf(Proper(t.world, c, r)), Pair(w), Pair(t.world), Pair(Step(w, c, r).world));
  }

  /** Over any run of a living daemon the recorded restriction changes form one unbroken chain that
      ends at the restriction now in force. */
  lemma {:induction false} RunChained(w: World, run: seq<Input>)
    requires forall i :: 0 <= i < |run| ==> !run[i].command.DoRestart?
    ensures Chained(RecordedInRun(w, run), Pair(w), Pair(After(w, run)))
  {
    if run != [] {
      var prefix, last := run[..|run| - 1], run[|run| - 1];
      RunChained(w, prefix);
      var u := After(w, prefix);
      StepChained(u, last.command, last.at);
      ChainedConcat(RecordedInRun(w, prefix), Recorded(u, last.command, last.at),
                    Pair(w), Pair(u), Pair(After(w, run)));
    }
  }

  // ----- when the restriction is current

  lemma CurrentDependsOn(w: World, v: World, now: int)
    requires Current(w, now)
    requires Pair(v) == Pair(w) && v.cfg == w.cfg && v.played == w.played && v.day == w.day
             && v.db.adjustments == w.db.adjustments
    requires v.timer.state == w.timer.state || (w.timer.state != Expired && v.timer.state != Expired)
    requires v.timer.action == w.timer.action || v.timer.state != Expired
    ensures Current(v, now)
  { }

  /** A timer can be started: the restriction imposes no level, and the request is in order. */
  predicate Startable(level: int, seconds: int, action: string) {
    level < 1 && 60 <= seconds <= 86400 && KnownAction(action)
  }

  /** A start that replaces an expired timer. */
  predicate ReplacesExpired(t: World, c: Command) {
    c.DoStartTimer? && t.timer.state == Expired && Startable(t.level, c.seconds, c.action)
  }

  lemma TailCurrent(t: World, c: Command, r: Reading)
    requires Linked(t) && Current(t, r.now) && TicksFirst(c)
    ensures Current(Tail(t, c, r).world, r.now) <==> !ReplacesExpired(t, c)
  {
    if c.DoSetGame? {
      SetGameCurrent(t, c.game, r);
    } else if c.DoShutdown? {
      ShutdownCurrent(t, r);
    } else if c.DoAdjustTimer? || c.DoGrant? {
      AnnouncedCurrent(t, c, r);
    } else if c.DoUpdateConfig? {
      UpdateConfigCurrent(t, c.config, r);
    } else if c.DoStartTimer? {
      StartTimerCurrent(t, c.seconds, c.action, r);
    } else if c.DoStopGame? || c.DoCancelTimer? {
      StopAndCancelCurrent(t, r);
    } else {
      SmallTailCurrent(t, c, r);
    }
  }

  lemma AnnouncedCurrent(t: World, c: Command, r: Reading)
    requires Current(t, r.now) && (c.DoAdjustTimer? || c.DoGrant?)
    ensures Current(Tail(t, c, r).world, r.now)
  {
    if c.DoAdjustTimer? {
      AnnounceRests(ApplyAdjustment(t, c.seconds, r.now), r.now, TakeSnapshot(t, r.now));
    } else {
      AnnounceRests(ApplyGrant(t, c.seconds, r.now), r.now, TakeSnapshot(t, r.now));
    }
  }

  lemma SmallTailCurrent(t: World, c: Command, r: Reading)
    requires Current(t, r.now) && (c.DoTick? || c.DoSuspend? || c.DoPauseTimer? || c.DoResumeTimer?)
    ensures Current(Tail(t, c, r).world, r.now)
  { }

  lemma StopAndCancelCurrent(t: World, r: Reading)
    requires Current(t, r.now)
    ensures Current(StopGameTail(t, r).world, r.now) && Current(CancelTimerTail(t, r).world, r.now)
  { }

  lemma UpdateConfigCurrent(t: World, c: Config, r: Reading)
    ensures Current(UpdateConfigTail(t, c, r).world, r.now)
  {
    var before := TakeSnapshot(t, r.now);
    AnnounceRests(Rearm(SwitchConfig(t, c, r).world, r.now, before), r.now, before);
  }

  lemma StartTimerCurrent(t: World, seconds: int, action: string, r: Reading)
    requires Current(t, r.now)
    ensures Current(StartTimerTail(t, seconds, action).world, r.now) <==>
            !(t.timer.state == Expired && Startable(t.level, seconds, action))
  { }

  lemma SetGameCurrent(t: World, g: Game, r: Reading)
    requires Linked(t) && Current(t, r.now)
    ensures Current(SetGameTail(t, g, r).world, r.now)
  {
    SetGameTailFrame(t, g, r);
    SetGameTailBooks(t, g, r, 0);
    CurrentDependsOn(t, SetGameTail(t, g, r).world, r.now);
  }

  lemma ShutdownCurrent(t: World, r: Reading)
    requires Current(t, r.now)
    ensures Current(ShutdownTail(t, r).world, r.now)
  {
    ShutdownTailFrame(t, r);
    CurrentDependsOn(t, ShutdownTail(t, r).world, r.now);
  }

  /** After every command that ticks first the restriction is the one called for, with one exception:
      `start_timer` does not look at it, so that starting over an expired timer whose action imposed no
      level leaves the old reason in force until the next tick. */
  lemma StepCurrent(w: World, c: Command, r: Reading)
    requires Linked(w) && ValidConfig(w.cfg) && TimerOk(w.timer) && TicksFirst(c)
    ensures Current(Step(w, c, r).world, r.now) <==> !ReplacesExpired(Tick(w, r).world, c)
  {
    TickBooks(w, r, 0);
    TickRests(w, r);
    TailCurrent(Tick(w, r).world, c, r);
  }

  // ----- the commands that do not look at the restriction at all

  predicate LimitReached(w: World, now: int) {
    var limit := EffectiveLimit(w, now);
    limit.Some? && limit.value as real <= w.played
  }

  predicate Outside(c: Config, now: int) { c.limitsEnabled && !WithinAllowedPeriod(c.periods, c.zone, now) }

  /** With the pair, the timer and the settings kept, a restriction that was current at one instant is
      so at another exactly if the timer has expired, or if it is as true as before that the limit is
      reached and, where it is not, that play is outside the allowed periods. */
  lemma CurrentLater(w: World, before: int, v: World, after: int)
    requires Current(w, before) && Pair(v) == Pair(w) && v.timer == w.timer && v.cfg == w.cfg
    ensures Current(v, after) <==>
            || w.timer.state == Expired
            || (&& (LimitReached(v, after) <==> LimitReached(w, before))
                && (LimitReached(v, after) || (Outside(w.cfg, after) <==> Outside(w.cfg, before))))
  { }

  /** `resume` leaves the restriction stale exactly when, without an expired timer, the limit or the
      allowed periods say something else of the new reading than they did of the last tick. */
  lemma ResumeCurrentExact(w: World, r: Reading)
    requires Current(w, w.lastWall)
    ensures var v := Resume(w, r).world;
            Current(v, r.now) <==>
            || w.timer.state == Expired
            || (&& (LimitReached(v, r.now) <==> LimitReached(w, w.lastWall))
                && (LimitReached(v, r.now) || (Outside(w.cfg, r.now) <==> Outside(w.cfg, w.lastWall))))
  {
    ResumeFrame(w, r);
    CurrentLater(w, w.lastWall, Resume(w, r).world, r.now);
  }

  /** Clearing the history puts played time and adjustments back to zero and leaves the restriction
      stale exactly when that lifts the daily limit or, for a day without any allowance that lived
      on a grant, brings it about. */
  lemma PurgeCurrentExact(w: World, now: int)
    requires Current(w, now) && PurgeHistory(w).Done? && ValidConfig(w.cfg)
    ensures var base := if w.cfg.limitsEnabled then LimitForDay(w.cfg.weekly, DayOf(w.cfg, now)) else None;
            Current(PurgeHistory(w).world, now) <==>
              w.timer.state == Expired || (LimitReached(w, now) <==> base == Some(0))
  {
    CurrentLater(w, now, PurgeHistory(w).world, now);
    var day := DayOf(w.cfg, now);
    assert 0 <= w.cfg.weekly[Weekday(day)].minutes;
  }
}
