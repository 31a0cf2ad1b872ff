/** Warnings: which thresholds get marked, which are shown, and what the forecast says of them. */
module WarningLaws {
  import opened Basics
  import opened Records
  import opened Storage
  import opened Engine
  import opened Frames
  import opened SessionLaws
  import opened AccountingLaws

  /** The thresholds warned about for a scope, in order. */
  function Warned(es: seq<Event>, scope: Scope): seq<int> {
    if es == [] then []
    else
      var e := es[|es| - 1];
      Warned(es[..|es| - 1], scope) + if e.Warning? && e.scope == scope then [e.threshold] else []
  }

  lemma {:induction false} WarnedConcat(a: seq<Event>, b: seq<Event>, scope: Scope)
    ensures Warned(a + b, scope) == Warned(a, scope) + Warned(b, scope)
  {
    if b == [] {
      assert a + b == a;
    } else {
      var n := |b| - 1;
      assert (a + b)[..|a + b| - 1] == a + b[..n];
      WarnedConcat(a, b[..n], scope);
    }
  }

  /** Events without a warning before and after others make no difference. */
  lemma WarnedPadded(a: seq<Event>, es: seq<Event>, b: seq<Event>, scope: Scope)
    requires Warned(a, scope) == [] && Warned(b, scope) == []
    ensures Warned(a + es + b, scope) == Warned(es, scope)
  {
    WarnedConcat(a, es, scope);
    WarnedConcat(a + es, b, scope);
  }

  lemma {:induction false} NothingWarned(es: seq<Event>, scope: Scope)
    requires forall i :: 0 <= i < |es| ==> !es[i].Warning? || es[i].scope != scope
    ensures Warned(es, scope) == []
  {
    if es != [] {
      NothingWarned(es[..|es| - 1], scope);
    }
  }

  // ----- one sweep

  /** The due thresholds that a fall from `previous` to `remaining` crosses. */
  ghost function Crossed(due: seq<int>, previous: real, remaining: real): set<int> {
    set t | t in due && Crosses(t, previous, remaining)
  }

  lemma {:induction false} SweepExact(db: Tables, scope: Scope, due: seq<int>, previous: real, remaining: real,
                                      now: int)
    ensures var s := Sweep(db, scope, due, previous, remaining, now);
            && MarkedThresholds(s.db, scope) == MarkedThresholds(db, scope) + Crossed(due, previous, remaining)
            && (forall t ::
                  t in s.newly <==> t in Crossed(due, previous, remaining) && t !in MarkedThresholds(db, scope))
            && (forall m :: m in s.db.marks ==> m in db.marks || m.scope == scope)
            && (forall m :: m in db.marks ==> m in s.db.marks && s.db.marks[m] == db.marks[m])
            && (forall m :: m in s.db.marks && m !in db.marks ==> s.db.marks[m] == now)
  {
    if due != [] {
      var rest, t := due[..|due| - 1], due[|due| - 1];
      assert due == rest + [t];
      SweepExact(db, scope, rest, previous, remaining, now);
      var before := Sweep(db, scope, rest, previous, remaining, now);
      var after := Sweep(db, scope, due, previous, remaining, now);
      assert t in MarkedThresholds(before.db, scope) <==> Mark(scope, t) in before.db.marks;
      if Crosses(t, previous, remaining) && Mark(scope, t) !in before.db.marks {
        assert MarkedThresholds(after.db, scope) == MarkedThresholds(before.db, scope) + {t};
      }
      assert Crossed(due, previous, remaining) ==
             Crossed(rest, previous, remaining) + if Crosses(t, previous, remaining) then {t} else {};
    }
  }

  lemma {:induction false} LeastExact(s: seq<int>)
    requires s != []
    ensures Least(s) in s && forall i :: 0 <= i < |s| ==> Least(s) <= s[i]
  {
    if |s| > 1 {
      var rest := s[..|s| - 1];
      LeastExact(rest);
      assert forall i :: 0 <= i < |rest| ==> rest[i] == s[i];
    }
  }

  ghost function CrossedBy(c: Config, previous: Option<real>, remaining: Option<real>): set<int> {
    if previous.Some? && remaining.Some? then Crossed(DueThresholds(c), previous.value, remaining.value) else {}
  }

  /** What a scope's warning amounts to: every crossed threshold is marked, and if any of them was
      not marked before, exactly one warning is shown, for the least of those. */
  ghost predicate WarnsExactly(scope: Scope, crossed: set<int>, before: Tables, after: Tables, es: seq<Event>) {
    var newly := crossed - MarkedThresholds(before, scope);
    && MarkedThresholds(after, scope) == MarkedThresholds(before, scope) + crossed
    && if newly == {} then Warned(es, scope) == []
       else |Warned(es, scope)| == 1 && Warned(es, scope)[0] in newly
            && forall t :: t in newly ==> Warned(es, scope)[0] <= t
  }

  ghost predicate OtherScopesKept(scope: Scope, before: Tables, after: Tables, es: seq<Event>) {
    && (forall other | other != scope :: MarkedThresholds(after, other) == MarkedThresholds(before, other))
    && forall i :: 0 <= i < |es| && es[i].Warning? ==> es[i].scope == scope
  }

  lemma WarnScopeExact(w: World, scope: Scope, now: int, before: Snapshot)
    ensures var v := WarnScope(w, scope, now, before);
            && WarnsExactly(scope, CrossedBy(w.cfg, Lookup(before, scope), Lookup(TakeSnapshot(w, now), scope)),
                            w.db, v.world.db, v.events)
            && OtherScopesKept(scope, w.db, v.world.db, v.events)
  {
    var previous, current := Lookup(before, scope), Lookup(TakeSnapshot(w, now), scope);
    if previous.Some? && current.Some? {
      var due := DueThresholds(w.cfg);
      SweepExact(w.db, scope, due, previous.value, current.value, now);
      var s := Sweep(w.db, scope, due, previous.value, current.value, now);
      var v := WarnScope(w, scope, now, before);
      if s.newly != [] {
        LeastExact(s.newly);
        assert s.newly[0] in CrossedBy(w.cfg, previous, current) - MarkedThresholds(w.db, scope);
        assert v.events[..0] == [];
        assert Warned(v.events, scope) == [Least(s.newly)];
      } else {
        assert forall t :: t !in s.newly;
      }
      forall other | other != scope
        ensures MarkedThresholds(s.db, other) == MarkedThresholds(w.db, other)
      { }
    }
  }

  /** The scopes that a world warns about. */
  predicate LiveScope(w: World, scope: Scope) {
    scope == Daily(w.day) || (scope.OfTimer? && w.timer.generation == Some(scope.generation))
  }

  /** What another scope does before or after makes no difference. */
  lemma WarnsThenOther(scope: Scope, crossed: set<int>, other: Scope, a: Tables, b: Tables, c: Tables,
                       es: seq<Event>, fs: seq<Event>)
    requires other != scope
    requires WarnsExactly(scope, crossed, a, b, es) && OtherScopesKept(other, b, c, fs)
    ensures WarnsExactly(scope, crossed, a, c, es + fs)
  {
    WarnedConcat(es, fs, scope);
    NothingWarned(fs, scope);
  }

  lemma OtherThenWarns(scope: Scope, crossed: set<int>, other: Scope, a: Tables, b: Tables, c: Tables,
                       es: seq<Event>, fs: seq<Event>)
    requires other != scope
    requires OtherScopesKept(other, a, b, es) && WarnsExactly(scope, crossed, b, c, fs)
    ensures WarnsExactly(scope, crossed, a, c, es + fs)
  {
    WarnedConcat(es, fs, scope);
    NothingWarned(es, scope);
  }

  lemma WarnExact(w: World, now: int, before: Snapshot, scope: Scope)
    requires LiveScope(w, scope)
    ensures var v := Warn(w, now, before);
            WarnsExactly(scope, CrossedBy(w.cfg, Lookup(before, scope), Lookup(TakeSnapshot(w, now), scope)),
                         w.db, v.world.db, v.events)
  {
    var crossed := CrossedBy(w.cfg, Lookup(before, scope), Lookup(TakeSnapshot(w, now), scope));
    if w.timer.generation.None? {
      WarnScopeExact(w, Daily(w.day), now, before);
      assert Warn(w, now, before).events == WarnScope(w, Daily(w.day), now, before).events;
    } else {
      var ofTimer := OfTimer(w.timer.generation.value);
      var timer := WarnScope(w, ofTimer, now, before);
      WarnScopeExact(w, ofTimer, now, before);
      WarnScopeOnlyMarks(w, ofTimer, now, before);
      assert TakeSnapshot(timer.world, now) == TakeSnapshot(w, now);
      var daily := WarnScope(timer.world, Daily(w.day), now, before);
      WarnScopeExact(timer.world, Daily(w.day), now, before);
      if scope == ofTimer {
        WarnsThenOther(scope, crossed, Daily(w.day), w.db, timer.world.db, daily.world.db, timer.events, daily.events);
      } else {
        OtherThenWarns(scope, crossed, ofTimer, w.db, timer.world.db, daily.world.db, timer.events, daily.events);
      }
    }
  }

  lemma AnnounceExact(w: World, now: int, before: Snapshot, scope: Scope)
    requires LiveScope(w, scope)
    ensures var v := Announce(w, now, before);
            WarnsExactly(scope, CrossedBy(w.cfg, Lookup(before, scope), Lookup(TakeSnapshot(w, now), scope)),
                         w.db, v.world.db, v.events)
  {
    WarnExact(w, now, before, scope);
    var warned := Warn(w, now, before);
    var refreshed := Refresh(warned.world, now);
    WarnedConcat(warned.events, refreshed.events, scope);
    NothingWarned(refreshed.events, scope);
  }

  /** Without a fall in its remaining time a scope is not warned about and keeps its marks. */
  lemma NoWarningWithoutFall(w: World, now: int, before: Snapshot, scope: Scope)
    requires LiveScope(w, scope)
    requires Lookup(before, scope).Some? && Lookup(TakeSnapshot(w, now), scope).Some? ==>
               Lookup(before, scope).value <= Lookup(TakeSnapshot(w, now), scope).value
    ensures var v := Announce(w, now, before);
            Warned(v.events, scope) == [] && MarkedThresholds(v.world.db, scope) == MarkedThresholds(w.db, scope)
  {
    AnnounceExact(w, now, before, scope);
    assert CrossedBy(w.cfg, Lookup(before, scope), Lookup(TakeSnapshot(w, now), scope)) == {};
  }

  lemma ClearedScope(db: Tables, scope: Scope)
    ensures MarkedThresholds(ClearScope(db, scope), scope) == {}
    ensures forall other | other != scope ::
              MarkedThresholds(ClearScope(db, scope), other) == MarkedThresholds(db, other)
  { }

  // ----- new settings

  lemma RearmedWarns(w: World, now: int, before: Snapshot, scope: Scope)
    requires LiveScope(w, scope)
    ensures var previous, current := Lookup(before, scope), Lookup(TakeSnapshot(w, now), scope);
            var grown := previous.Some? && current.Some? && previous.value < current.value;
            var rearmed := Rearm(w, now, before);
            var a := Announce(rearmed, now, before);
            && MarkedThresholds(rearmed.db, scope) == (if grown then {} else MarkedThresholds(w.db, scope))
            && WarnsExactly(scope, CrossedBy(w.cfg, previous, current), rearmed.db, a.world.db, a.events)
  {
    RearmedMarks(w, now, before, scope);
    SameSnapshot(w, Rearm(w, now, before), now);
    AnnounceExact(Rearm(w, now, before), now, before, scope);
  }

  /** Marks play no part in what remains. */
  lemma SameSnapshot(w: World, v: World, now: int)
    requires v == w.(db := w.db.(marks := v.db.marks))
    ensures TakeSnapshot(v, now) == TakeSnapshot(w, now)
  { }

  lemma RearmedMarks(w: World, now: int, before: Snapshot, scope: Scope)
    requires LiveScope(w, scope)
    ensures var previous, current := Lookup(before, scope), Lookup(TakeSnapshot(w, now), scope);
            var grown := previous.Some? && current.Some? && previous.value < current.value;
            var v := Rearm(w, now, before);
            && v == w.(db := w.db.(marks := v.db.marks))
            && MarkedThresholds(v.db, scope) == if grown then {} else MarkedThresholds(w.db, scope)
  { }

  // ----- one tick

  lemma ElapseNoWarnings(w: World, r: Reading, scope: Scope)
    ensures Warned(Elapse(w, r).events, scope) == []
  {
    ElapseQuiet(w, r);
    NothingWarned(Elapse(w, r).events, scope);
  }

  /** Whatever a tick warns about comes from its announcement. */
  lemma TickAnnounces(w: World, r: Reading, scope: Scope)
    ensures var a := Announce(Elapse(w, r).world, r.now, TakeSnapshot(w, r.now));
            Tick(w, r).world == a.world && Warned(Tick(w, r).events, scope) == Warned(a.events, scope)
  {
    ElapseNoWarnings(w, r, scope);
    WarnedConcat(Elapse(w, r).events, Announce(Elapse(w, r).world, r.now, TakeSnapshot(w, r.now)).events, scope);
  }

  /** The roll of a tick, if there is one, is not so late that it forgets marks of the scope. */
  ghost predicate KeepsMarks(w: World, r: Reading, scope: Scope) {
    var newDay := DayOf(w.cfg, r.now);
    newDay == w.day ||
    forall m :: m in w.db.marks && m.scope == scope ==>
                  Cutoff(w.cfg.retentionDays, DayStart(w.cfg, newDay)) <= w.db.marks[m]
  }

  /** The tick stays within the scope: the same accounting day with a limit, or the same
      generation of a timer. */
  predicate InScope(w: World, r: Reading, scope: Scope) {
    match scope
    case Daily(d) =>
      && w.day == d && DayOf(w.cfg, w.lastWall) == d && DayOf(w.cfg, r.now) == d
      && EffectiveLimit(w, r.now).Some?
    case OfTimer(g) => w.timer.generation == Some(g) && w.timer.state != Idle
  }

  /** The scope's remaining time as of the last tick. */
  function Remaining(w: World, scope: Scope): Option<real> { Lookup(TakeSnapshot(w, w.lastWall), scope) }

  lemma ElapseMarks(w: World, r: Reading, scope: Scope)
    requires KeepsMarks(w, r, scope)
    ensures MarkedThresholds(Elapse(w, r).world.db, scope) == MarkedThresholds(w.db, scope)
  {
    NoteClockFrame(w, r);
    var clock := NoteClock(w, r).world;
    AdvanceFrame(clock, r);
    SettleFrame(Advance(clock, r).world, MonoDelta(w, r), r.mono);
    var after := Elapse(w, r).world.db.marks;
    assert forall m :: m in after ==> m in w.db.marks;
    assert forall m :: m in w.db.marks && m.scope == scope ==> m in after;
  }

  /** What elapses in a tick: the scope stays live, its remaining time does not grow, and the tick's
      own reading sees the same remaining time at the start as the last tick saw at its end. */
  ghost predicate Falls(w: World, v: World, now: int, scope: Scope) {
    && LiveScope(v, scope)
    && Lookup(TakeSnapshot(w, now), scope) == Remaining(w, scope)
    && Remaining(w, scope).Some? && Lookup(TakeSnapshot(v, now), scope).Some?
    && 0.0 <= Lookup(TakeSnapshot(v, now), scope).value <= Remaining(w, scope).value
  }

  lemma ElapseDaily(w: World, r: Reading, d: int)
    requires InScope(w, r, Daily(d))
    ensures Falls(w, Elapse(w, r).world, r.now, Daily(d))
  {
    NoteClockFrame(w, r);
    var clock := NoteClock(w, r).world;
    AccountPlayed(clock, MonoDelta(clock, r), clock.lastWall, r.now, Reliable(clock, r));
    SettleFrame(Advance(clock, r).world, MonoDelta(w, r), r.mono);
  }

  lemma AccountPlayed(w: World, seconds: real, start: int, end: int, record: bool)
    ensures var v := AccountUnlessSuspended(w, seconds, start, end, record);
            && v == w.(played := v.played, duration := v.duration, pending := v.pending)
            && w.played <= v.played
  { }

  lemma ElapseOfTimer(w: World, r: Reading, g: nat)
    requires InScope(w, r, OfTimer(g))
    ensures var v := Elapse(w, r).world;
            Falls(w, v, r.now, OfTimer(g)) && v.timer.state != Idle
  {
    NoteClockFrame(w, r);
    var clock := NoteClock(w, r).world;
    AdvanceFrame(clock, r);
    var advanced := Advance(clock, r).world;
    SettleFrame(advanced, MonoDelta(w, r), r.mono);
    TimerFalls(advanced, MonoDelta(w, r), r.mono);
  }

  lemma TimerFalls(w: World, elapsed: real, mono: real)
    requires 0.0 <= elapsed
    ensures var v := PersistTimer(RunTimer(w, elapsed).world, mono);
            && (w.timer.state != Idle ==> v.timer.state != Idle)
            && v.timer.generation == w.timer.generation
            && MaxReal(0.0, v.timer.remaining) <= MaxReal(0.0, w.timer.remaining)
  { }

  lemma AnnounceScope(w: World, e: World, now: int, scope: Scope)
    requires Falls(w, e, now, scope) && e.lastWall == now && e.cfg == w.cfg
    requires MarkedThresholds(e.db, scope) == MarkedThresholds(w.db, scope)
    ensures var v := Announce(e, now, TakeSnapshot(w, now));
            && v.world.lastWall == now && v.world.cfg == w.cfg && v.world.timer == e.timer
            && Remaining(v.world, scope) == Lookup(TakeSnapshot(e, now), scope)
            && WarnsExactly(scope, CrossedBy(w.cfg, Remaining(w, scope), Remaining(v.world, scope)),
                            w.db, v.world.db, v.events)
  {
    var before := TakeSnapshot(w, now);
    AnnounceFrame(e, now, before);
    AnnounceExact(e, now, before, scope);
    SameRemaining(e, Announce(e, now, before).world, now);
    WarnsFrom(scope, CrossedBy(e.cfg, Lookup(before, scope), Lookup(TakeSnapshot(e, now), scope)),
              w.db, e.db, Announce(e, now, before).world.db, Announce(e, now, before).events);
  }

  /** Marks and restriction play no part in what remains. */
  lemma SameRemaining(w: World, v: World, now: int)
    requires v == w.(reason := v.reason, level := v.level, db := w.db.(marks := v.db.marks))
    ensures TakeSnapshot(v, now) == TakeSnapshot(w, now)
  { }

  lemma WarnsFrom(scope: Scope, crossed: set<int>, a: Tables, b: Tables, c: Tables, es: seq<Event>)
    requires WarnsExactly(scope, crossed, b, c, es) && MarkedThresholds(b, scope) == MarkedThresholds(a, scope)
    ensures WarnsExactly(scope, crossed, a, c, es)
  { }

  lemma ElapseFalls(w: World, r: Reading, scope: Scope)
    requires InScope(w, r, scope)
    ensures Falls(w, Elapse(w, r).world, r.now, scope)
    ensures scope.OfTimer? ==> Elapse(w, r).world.timer.state != Idle
  {
    match scope
    case Daily(d) => ElapseDaily(w, r, d);
    case OfTimer(g) => ElapseOfTimer(w, r, g);
  }

  lemma TickScope(w: World, r: Reading, scope: Scope)
    requires Linked(w) && ValidConfig(w.cfg) && InScope(w, r, scope) && KeepsMarks(w, r, scope)
    ensures var v := Tick(w, r);
            && Linked(v.world) && v.world.cfg == w.cfg && v.world.lastWall == r.now
            && Remaining(w, scope).Some? && Remaining(v.world, scope).Some?
            && 0.0 <= Remaining(v.world, scope).value <= Remaining(w, scope).value
            && WarnsExactly(scope, CrossedBy(w.cfg, Remaining(w, scope), Remaining(v.world, scope)),
                            w.db, v.world.db, v.events)
            && (scope.OfTimer? ==> v.world.timer.generation == Some(scope.generation) && v.world.timer.state != Idle)
  {
    TickBooks(w, r, 0);
    ElapseBooks(w, r, 0);
    ElapseFalls(w, r, scope);
    ElapseMarks(w, r, scope);
    ElapseNoWarnings(w, r, scope);
    var e := Elapse(w, r);
    AnnounceScope(w, e.world, r.now, scope);
    WarnedConcat(e.events, Announce(e.world, r.now, TakeSnapshot(w, r.now)).events, scope);
  }

  // ----- runs of ticks

  /** Every tick of the run stays in the scope and keeps its marks. */
  ghost predicate ScopeTicks(w: World, rs: seq<Reading>, scope: Scope) {
    rs == [] ||
    var before, r := AfterTicks(w, rs[..|rs| - 1]), rs[|rs| - 1];
    ScopeTicks(w, rs[..|rs| - 1], scope) && InScope(before, r, scope) && KeepsMarks(before, r, scope)
  }

  /** All the thresholds a run warns about, in order. */
  function WarnedInRun(w: World, rs: seq<Reading>, scope: Scope): seq<int> {
    if rs == [] then []
    else
      WarnedInRun(w, rs[..|rs| - 1], scope)
      + Warned(Tick(AfterTicks(w, rs[..|rs| - 1]), rs[|rs| - 1]).events, scope)
  }

  /** The due thresholds from `low` up to `high`, both included. */
  ghost function Between(due: seq<int>, low: real, high: real): set<int> {
    set t | t in due && low <= t as real <= high
  }

  /** What is known after a run: from R0 down to R1, with R1 below R0, exactly the thresholds in
      [R1, R0] have been marked in addition; each warning was for one that had no mark, and the
      warned thresholds decrease strictly. */
  ghost predicate RunWarnsExactly(w: World, v: World, warned: seq<int>, scope: Scope) {
    && Remaining(w, scope).Some? && Remaining(v, scope).Some?
    && var high, low := Remaining(w, scope).value, Remaining(v, scope).value;
    var fallen := if low < high then Between(DueThresholds(w.cfg), low, high) else {};
    && low <= high
    && MarkedThresholds(v.db, scope) == MarkedThresholds(w.db, scope) + fallen
    && StrictlyDecreasing(warned)
    && forall i :: 0 <= i < |warned| ==> warned[i] in fallen - MarkedThresholds(w.db, scope)
  }

  lemma CrossedUnion(due: seq<int>, high: real, middle: real, low: real)
    requires low <= middle <= high
    ensures (if middle < high then Between(due, middle, high) else {}) + Crossed(due, middle, low) ==
            (if low < high then Between(due, low, high) else {})
  { }

  lemma {:induction false} RunWarnings(w: World, rs: seq<Reading>, scope: Scope)
    requires Linked(w) && ValidConfig(w.cfg) && ScopeTicks(w, rs, scope) && Remaining(w, scope).Some?
    ensures var v := AfterTicks(w, rs);
            && Linked(v) && v.cfg == w.cfg
            && RunWarnsExactly(w, v, WarnedInRun(w, rs, scope), scope)
  {
    if rs != [] {
      var prefix, r := rs[..|rs| - 1], rs[|rs| - 1];
      RunWarnings(w, prefix, scope);
      var before := AfterTicks(w, prefix);
      TickScope(before, r, scope);
      var t := Tick(before, r);
      ExtendWarnings(w, before, t.world, WarnedInRun(w, prefix, scope), t.events, scope);
    }
  }

  lemma ExtendWarnings(w: World, u: World, v: World, warned: seq<int>, es: seq<Event>, scope: Scope)
    requires DueThresholds(u.cfg) == DueThresholds(w.cfg) && RunWarnsExactly(w, u, warned, scope)
    requires Remaining(v, scope).Some? && Remaining(v, scope).value <= Remaining(u, scope).value
    requires WarnsExactly(scope, CrossedBy(u.cfg, Remaining(u, scope), Remaining(v, scope)), u.db, v.db, es)
    ensures RunWarnsExactly(w, v, warned + Warned(es, scope), scope)
  {
    var due := DueThresholds(w.cfg);
    var high, middle, low := Remaining(w, scope).value, Remaining(u, scope).value, Remaining(v, scope).value;
    var crossed, fallen := Crossed(due, middle, low), if middle < high then Between(due, middle, high) else {};
    CrossedUnion(due, high, middle, low);
    WarnedAreNew(scope, crossed, u.db, v.db, es);
    assert forall t :: t in fallen ==> middle <= t as real;
    StillDecreasing(warned, Warned(es, scope), MarkedThresholds(u.db, scope), middle);
    AllNew(warned, Warned(es, scope), fallen, crossed, MarkedThresholds(w.db, scope));
  }

  lemma AllNew(warned: seq<int>, more: seq<int>, fallen: set<int>, crossed: set<int>, marked: set<int>)
    requires forall i :: 0 <= i < |warned| ==> warned[i] in fallen - marked
    requires forall i :: 0 <= i < |more| ==> more[i] in crossed - (marked + fallen)
    ensures forall i :: 0 <= i < |warned + more| ==> (warned + more)[i] in fallen + crossed - marked
  { }

  lemma WarnedAreNew(scope: Scope, crossed: set<int>, before: Tables, after: Tables, es: seq<Event>)
    requires WarnsExactly(scope, crossed, before, after, es)
    ensures |Warned(es, scope)| <= 1
    ensures forall i :: 0 <= i < |Warned(es, scope)| ==>
                          Warned(es, scope)[i] in crossed - MarkedThresholds(before, scope)
  { }

  /** A further warning, for a threshold not above the current time and without a mark, is below all
      the earlier ones: those are marked and not below the current time. */
  lemma StillDecreasing(warned: seq<int>, more: seq<int>, marked: set<int>, middle: real)
    requires StrictlyDecreasing(warned) && |more| <= 1
    requires forall i :: 0 <= i < |warned| ==> warned[i] in marked && middle <= warned[i] as real
    requires forall i :: 0 <= i < |more| ==> more[i] !in marked && more[i] as real <= middle
    ensures StrictlyDecreasing(warned + more)
  { }
}
