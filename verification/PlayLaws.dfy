/** The sessions table under play without interruption: read live, it is the same row by row however the
    play is cut into ticks. */
module PlayLaws {
  import opened Basics
  import opened Zones
  import opened Schedule
  import opened Records
  import opened Storage
  import opened Engine
  import opened Frames
  import opened SessionLaws
  import opened AccountingLaws

  /** The sessions table, the open row at its live duration; the current day; and the next fresh id. */
  datatype Play = Play(rows: seq<Session>, day: int, nextId: nat)

  function PlayOf(w: World): Play { Play(LiveRows(w), w.day, w.db.nextId) }

  /** The last row grows. */
  function Extend(p: Play, seconds: real): Play
    requires p.rows != []
  {
    p.(rows := WithLive(p.rows, p.rows[|p.rows| - 1].duration + seconds))
  }

  /** The last row ends at the daily reset, a row of the new day follows, and what is too old goes. */
  function Roll(p: Play, c: Config, g: Game, at: int, newDay: int): Play
    requires p.rows != []
  {
    var last := p.rows[|p.rows| - 1];
    var closed := p.rows[..|p.rows| - 1] + [last.(ended := Some(at))];
    Play(RetainSessions(closed, Cutoff(c.retentionDays, at)) + [Session(p.nextId, newDay, g, None, 0.0)],
         newDay, p.nextId + 1)
  }

  /** What play from `from` to `to` does to the table, told day by day, without any ticks. */
  function PlayTo(c: Config, g: Game, p: Play, from: int, to: int): (q: Play)
    requires p.rows != []
    ensures q.rows != []
    decreases Max(0, DayOf(c, to) - p.day)
  {
    if DayOf(c, to) <= p.day then Extend(p, Seconds(to - from))
    else
      var reset := DayStart(c, p.day + 1);
      if DayOf(c, reset) <= p.day then p else PlayTo(c, g, PlayToReset(c, g, p, from), reset, to)
  }

  /** Play up to the end of the day, and the daily reset. */
  function PlayToReset(c: Config, g: Game, p: Play, from: int): Play
    requires p.rows != []
  {
    var reset := DayStart(c, p.day + 1);
    Roll(Extend(p, Seconds(reset - from)), c, g, reset, DayOf(c, reset))
  }

  /** The play is under way on the day of instant `from`. */
  predicate Underway(c: Config, p: Play, from: int) { p.rows != [] && p.day == DayOf(c, from) }

  /** The end of a day is the start of the next one that is not empty. */
  lemma NextDay(c: Config, day: int, from: int, to: int)
    requires RegularDays(c) && DayOf(c, from) == day && from <= to && day < DayOf(c, to)
    ensures var reset := DayStart(c, day + 1);
            && from < reset <= to && day < DayOf(c, reset) <= DayOf(c, to)
            && DayStart(c, DayOf(c, reset)) == reset
  {
    var reset := DayStart(c, day + 1);
    RegularIsNeverRepeated(c.zone, c.reset);
    DaysPartitionTime(c.zone, c.reset, from, day);
    DayReached(c.zone, c.reset, to, day + 1);
    DayReached(c.zone, c.reset, reset, day + 1);
    AccountingDayMonotone(c.zone, c.reset, reset, to);
    DayStartsMonotone(c.zone, c.reset, day + 1, DayOf(c, reset));
    DaysPartitionTime(c.zone, c.reset, reset, DayOf(c, reset));
  }

  lemma DayGoesOn(c: Config, t: int, u: int)
    requires RegularDays(c) && t <= u
    ensures DayOf(c, t) <= DayOf(c, u)
  {
    RegularIsNeverRepeated(c.zone, c.reset);
    AccountingDayMonotone(c.zone, c.reset, t, u);
  }

  lemma PlayWithinDay(c: Config, g: Game, p: Play, from: int, to: int)
    requires p.rows != [] && DayOf(c, to) <= p.day
    ensures PlayTo(c, g, p, from, to) == Extend(p, Seconds(to - from))
  { }

  lemma PlayAcrossReset(c: Config, g: Game, p: Play, from: int, to: int)
    requires RegularDays(c) && Underway(c, p, from) && from <= to && p.day < DayOf(c, to)
    ensures var reset, q := DayStart(c, p.day + 1), PlayToReset(c, g, p, from);
            && from < reset <= to && Underway(c, q, reset) && p.day < q.day <= DayOf(c, to)
            && PlayTo(c, g, p, from, to) == PlayTo(c, g, q, reset, to)
  {
    NextDay(c, p.day, from, to);
    PlayUnfolds(c, g, p, from, to);
  }

  lemma PlayUnfolds(c: Config, g: Game, p: Play, from: int, to: int)
    requires p.rows != [] && p.day < DayOf(c, to) && p.day < DayOf(c, DayStart(c, p.day + 1))
    ensures PlayTo(c, g, p, from, to) == PlayTo(c, g, PlayToReset(c, g, p, from), DayStart(c, p.day + 1), to)
  { }

  lemma ExtendTwice(p: Play, a: real, b: real)
    requires p.rows != []
    ensures Extend(Extend(p, a), b) == Extend(p, a + b)
  {
    var n := |p.rows| - 1;
    assert Extend(p, a).rows[..n] == p.rows[..n];
  }

  lemma SecondsAdd(a: int, b: int, e: int)
    ensures Seconds(b - a) + Seconds(e - b) == Seconds(e - a)
  { }

  /** Cutting a stretch of play in two makes no difference. */
  lemma {:induction false} PlayInTwo(c: Config, g: Game, p: Play, a: int, b: int, e: int)
    requires RegularDays(c) && Underway(c, p, a) && a <= b <= e
    ensures PlayTo(c, g, PlayTo(c, g, p, a, b), b, e) == PlayTo(c, g, p, a, e)
    decreases Max(0, DayOf(c, b) - p.day)
  {
    DayGoesOn(c, a, b);
    DayGoesOn(c, b, e);
    if p.day < DayOf(c, b) {
      PlayAcrossReset(c, g, p, a, b);
      PlayAcrossReset(c, g, p, a, e);
      PlayInTwo(c, g, PlayToReset(c, g, p, a), DayStart(c, p.day + 1), b, e);
    } else {
      CutWithinDay(c, g, p, a, b, e);
    }
  }

  lemma CutWithinDay(c: Config, g: Game, p: Play, a: int, b: int, e: int)
    requires RegularDays(c) && Underway(c, p, a) && a <= b <= e && DayOf(c, b) == p.day <= DayOf(c, e)
    ensures PlayTo(c, g, PlayTo(c, g, p, a, b), b, e) == PlayTo(c, g, p, a, e)
  {
    PlayWithinDay(c, g, p, a, b);
    if DayOf(c, e) <= p.day {
      CutOnSameDay(c, g, p, a, b, e);
    } else {
      CutBeforeReset(c, g, p, a, b, e);
    }
  }

  lemma CutOnSameDay(c: Config, g: Game, p: Play, a: int, b: int, e: int)
    requires p.rows != [] && DayOf(c, e) <= p.day
    ensures PlayTo(c, g, Extend(p, Seconds(b - a)), b, e) == PlayTo(c, g, p, a, e)
  {
    PlayWithinDay(c, g, Extend(p, Seconds(b - a)), b, e);
    PlayWithinDay(c, g, p, a, e);
    ExtendOn(p, a, b, e);
  }

  lemma CutBeforeReset(c: Config, g: Game, p: Play, a: int, b: int, e: int)
    requires RegularDays(c) && Underway(c, p, a) && a <= b <= e && DayOf(c, b) == p.day < DayOf(c, e)
    ensures PlayTo(c, g, Extend(p, Seconds(b - a)), b, e) == PlayTo(c, g, p, a, e)
  {
    SameReset(c, g, p, a, b);
    PlayAcrossReset(c, g, Extend(p, Seconds(b - a)), b, e);
    PlayAcrossReset(c, g, p, a, e);
  }

  /** The reset comes to the same whether or not the play before it is cut. */
  lemma SameReset(c: Config, g: Game, p: Play, a: int, b: int)
    requires p.rows != []
    ensures PlayToReset(c, g, Extend(p, Seconds(b - a)), b) == PlayToReset(c, g, p, a)
  {
    ExtendOn(p, a, b, DayStart(c, p.day + 1));
  }

  lemma ExtendOn(p: Play, a: int, b: int, e: int)
    requires p.rows != []
    ensures Extend(Extend(p, Seconds(b - a)), Seconds(e - b)) == Extend(p, Seconds(e - a))
  {
    ExtendTwice(p, Seconds(b - a), Seconds(e - b));
    SecondsAdd(a, b, e);
  }

  // ----- one tick

  /** The rows but for what the open one has stored. */
  lemma LiveRowsOf(w: World, rows: seq<Session>)
    requires w.session.Some? && rows != [] && |w.db.sessions| == |rows|
    requires w.db.sessions[..|rows| - 1] == rows[..|rows| - 1]
    requires w.db.sessions[|rows| - 1] == rows[|rows| - 1].(duration := w.db.sessions[|rows| - 1].duration)
    ensures LiveRows(w) == WithLive(rows, w.duration)
  { }

  /** Settling and announcing change at most what the open row has stored. */
  lemma RestOfTick(w: World, r: Reading, advanced: World)
    requires Linked(advanced) && advanced.session.Some?
    requires advanced == Advance(NoteClock(w, r).world, r).world
    ensures PlayOf(Tick(w, r).world) == PlayOf(advanced)
  {
    var elapsed := MonoDelta(w, r);
    SettleFrame(advanced, elapsed, r.mono);
    PersistBooks(advanced, r.mono, 0);
    AnnounceFrame(Elapse(w, r).world, r.now, TakeSnapshot(w, r.now));
    var v := Tick(w, r).world;
    SettledRows(advanced, r.mono);
    LiveRowsOf(v, advanced.db.sessions);
  }

  lemma SettledRows(w: World, mono: real)
    requires Linked(w) && w.session.Some?
    ensures var rows, v := w.db.sessions, PersistSession(w, mono).db.sessions;
            && |v| == |rows| && v[..|rows| - 1] == rows[..|rows| - 1]
            && v[|rows| - 1] == rows[|rows| - 1].(duration := v[|rows| - 1].duration)
  {
    PersistBooks(w, mono, 0);
  }

  lemma AccountedPlay(w: World, seconds: real, start: int, end: int, record: bool)
    requires Linked(w) && w.session.Some? && 0.0 <= seconds
    ensures var v := Account(w, seconds, start, end, record);
            && PlayOf(v) == Extend(PlayOf(w), seconds)
            && PlayOf(Flush(v)) == PlayOf(v)
  {
    var v := Account(w, seconds, start, end, record);
    AccountBooks(w, seconds, start, end, record, 0);
    LiveRowsOf(v, w.db.sessions);
    var live := LiveRows(w);
    assert live[..|live| - 1] == w.db.sessions[..|live| - 1];
    assert WithLive(live, v.duration) == LiveRows(v);
  }

  lemma RolledRows(rows: seq<Session>, id: nat, day: int, duration: real, at: int, cutoff: int, row: Session)
    requires OpenLast(rows, id, day) && 0.0 <= duration && row.ended.None? && row.duration == 0.0
    ensures var live := WithLive(rows, duration);
            var after := RetainSessions(CloseRows(rows, id, duration, at) + [row], cutoff);
            && after == RetainSessions(live[..|live| - 1] + [live[|live| - 1].(ended := Some(at))], cutoff) + [row]
            && WithLive(after, 0.0) == after
  {
    CloseOpen(rows, id, day, duration, at);
    var closed, live := CloseRows(rows, id, duration, at), WithLive(rows, duration);
    assert live[..|live| - 1] == rows[..|rows| - 1];
    assert (closed + [row])[..|closed|] == closed;
    var kept := RetainSessions(closed, cutoff);
    assert (kept + [row])[..|kept|] == kept;
  }

  lemma RolledPlay(w: World, at: int, newDay: int, mono: real)
    requires Linked(w) && w.session.Some?
    ensures PlayOf(RollDay(w, at, newDay, mono).world) == Roll(PlayOf(w), w.cfg, w.game.value, at, newDay)
  {
    RolledRows(w.db.sessions, w.session.value, w.day, w.duration, at, Cutoff(w.cfg.retentionDays, at),
               Session(w.db.nextId, newDay, w.game.value, None, 0.0));
  }

  lemma AdvanceWithinDay(w: World, r: Reading)
    requires Linked(w) && w.session.Some? && !w.suspended && DriftFree(w, r) && DayOf(w.cfg, r.now) == w.day
    ensures PlayOf(Advance(w, r).world) == Extend(PlayOf(w), Seconds(r.now - w.lastWall))
  {
    AccountedPlay(w, Seconds(r.now - w.lastWall), w.lastWall, r.now, Reliable(w, r));
  }

  lemma AdvancePlays(w: World, r: Reading)
    requires Linked(w) && ValidConfig(w.cfg) && RegularDays(w.cfg) && Playing(w)
    requires DriftFree(w, r) && NoDaySkipped(w, r)
    ensures PlayOf(Advance(w, r).world) == PlayTo(w.cfg, w.game.value, PlayOf(w), w.lastWall, r.now)
  {
    if DayOf(w.cfg, r.now) == w.day {
      AdvanceWithinDay(w, r);
      PlayWithinDay(w.cfg, w.game.value, PlayOf(w), w.lastWall, r.now);
    } else {
      AdvanceAcrossReset(w, r);
    }
  }

  /** Play across a single reset, which opens `newDay`. */
  function PlayOverReset(c: Config, g: Game, p: Play, from: int, reset: int, newDay: int, to: int): Play
    requires p.rows != []
  {
    Extend(Roll(Extend(p, Seconds(reset - from)), c, g, reset, newDay), Seconds(to - reset))
  }

  lemma ResetBetween(w: World, r: Reading)
    requires RegularDays(w.cfg) && Playing(w) && w.lastWall <= r.now
    requires NoDaySkipped(w, r) && DayOf(w.cfg, r.now) != w.day
    ensures var reset := DayStart(w.cfg, DayOf(w.cfg, r.now));
            && w.lastWall <= reset <= r.now && DayStart(w.cfg, w.day + 1) == reset && w.day < DayOf(w.cfg, r.now)
  {
    NewDayStarts(w, r);
  }

  lemma AdvanceAcrossReset(w: World, r: Reading)
    requires Linked(w) && ValidConfig(w.cfg) && RegularDays(w.cfg) && Playing(w)
    requires DriftFree(w, r) && NoDaySkipped(w, r) && DayOf(w.cfg, r.now) != w.day
    ensures PlayOf(Advance(w, r).world) == PlayTo(w.cfg, w.game.value, PlayOf(w), w.lastWall, r.now)
  {
    AdvanceRollsOnce(w, r);
    PlayRollsOnce(w, PlayOf(w), r);
  }

  lemma PlayRollsOnce(w: World, p: Play, r: Reading)
    requires RegularDays(w.cfg) && Playing(w) && w.lastWall <= r.now
    requires NoDaySkipped(w, r) && DayOf(w.cfg, r.now) != w.day
    requires p.rows != [] && p.day == w.day
    ensures var newDay := DayOf(w.cfg, r.now);
            PlayTo(w.cfg, w.game.value, p, w.lastWall, r.now) ==
            PlayOverReset(w.cfg, w.game.value, p, w.lastWall, DayStart(w.cfg, newDay), newDay, r.now)
  {
    ResetBetween(w, r);
    AcrossOneReset(w.cfg, w.game.value, p, w.lastWall, r.now);
  }

  lemma AdvanceRollsOnce(w: World, r: Reading)
    requires Linked(w) && ValidConfig(w.cfg) && RegularDays(w.cfg) && Playing(w)
    requires DriftFree(w, r) && NoDaySkipped(w, r) && DayOf(w.cfg, r.now) != w.day
    ensures var newDay := DayOf(w.cfg, r.now);
            PlayOf(Advance(w, r).world) ==
            PlayOverReset(w.cfg, w.game.value, PlayOf(w), w.lastWall, DayStart(w.cfg, newDay), newDay, r.now)
  {
    ResetBetween(w, r);
    NewDaySlice(w, r);
    AdvanceRolls(w, r, DayStart(w.cfg, DayOf(w.cfg, r.now)));
  }

  /** If the reset at the end of the day opens the day of `to`, there is only that one reset. */
  lemma AcrossOneReset(c: Config, g: Game, p: Play, from: int, to: int)
    requires RegularDays(c) && Underway(c, p, from) && from <= to && p.day < DayOf(c, to)
    requires DayStart(c, p.day + 1) == DayStart(c, DayOf(c, to))
    ensures PlayTo(c, g, p, from, to) == PlayOverReset(c, g, p, from, DayStart(c, DayOf(c, to)), DayOf(c, to), to)
  {
    var reset, newDay := DayStart(c, p.day + 1), DayOf(c, to);
    PlayAcrossReset(c, g, p, from, to);
    DaysPartitionTime(c.zone, c.reset, to, newDay);
    DaysPartitionTime(c.zone, c.reset, reset, newDay);
    PlayWithinDay(c, g, PlayToReset(c, g, p, from), reset, to);
  }

  /** The tick across a reset, with the split that agreeing clocks give. */
  lemma AdvanceRolls(w: World, r: Reading, reset: int)
    requires Linked(w) && ValidConfig(w.cfg) && w.session.Some? && !w.suspended && DayOf(w.cfg, r.now) != w.day
    requires reset == DayStart(w.cfg, DayOf(w.cfg, r.now)) && w.lastWall <= reset <= r.now
    requires SplitElapsed(MonoDelta(w, r), w.lastWall, r.now, reset) ==
             (Seconds(reset - w.lastWall), Seconds(r.now - reset))
    ensures PlayOf(Advance(w, r).world) ==
            PlayOverReset(w.cfg, w.game.value, PlayOf(w), w.lastWall, reset, DayOf(w.cfg, r.now), r.now)
  {
    var a, b := Seconds(reset - w.lastWall), Seconds(r.now - reset);
    AdvanceUnfolds(w, r, reset, a, b);
    assert 0.0 <= a && 0.0 <= b;
    RollsOnce(w, r, reset, DayOf(w.cfg, r.now), a, b);
    OverResetIs(w.cfg, w.game.value, PlayOf(w), w.lastWall, reset, DayOf(w.cfg, r.now), r.now, a, b);
  }

  lemma AdvanceUnfolds(w: World, r: Reading, reset: int, a: real, b: real)
    requires !w.suspended && DayOf(w.cfg, r.now) != w.day && reset == DayStart(w.cfg, DayOf(w.cfg, r.now))
    requires SplitElapsed(MonoDelta(w, r), w.lastWall, r.now, reset) == (a, b)
    ensures var before := Account(w, a, w.lastWall, reset, Reliable(w, r));
            var rolled := RollDay(before, reset, DayOf(w.cfg, r.now), r.mono).world;
            Advance(w, r).world == Flush(Account(rolled, b, reset, r.now, Reliable(w, r)))
  {
    var before := Account(w, a, w.lastWall, reset, Reliable(w, r));
    RollFrame(before, reset, DayOf(w.cfg, r.now), r.mono);
  }

  lemma OverResetIs(c: Config, g: Game, p: Play, from: int, reset: int, newDay: int, to: int, a: real, b: real)
    requires p.rows != [] && a == Seconds(reset - from) && b == Seconds(to - reset)
    ensures PlayOverReset(c, g, p, from, reset, newDay, to) == Extend(Roll(Extend(p, a), c, g, reset, newDay), b)
  { }

  lemma RollsOnce(w: World, r: Reading, reset: int, newDay: int, a: real, b: real)
    requires Linked(w) && 0 <= w.cfg.retentionDays && w.session.Some? && 0.0 <= a && 0.0 <= b
    ensures var before := Account(w, a, w.lastWall, reset, Reliable(w, r));
            var rolled := RollDay(before, reset, newDay, r.mono).world;
            PlayOf(Flush(Account(rolled, b, reset, r.now, Reliable(w, r)))) ==
            Extend(Roll(Extend(PlayOf(w), a), w.cfg, w.game.value, reset, newDay), b)
  {
    var record := Reliable(w, r);
    var before := Account(w, a, w.lastWall, reset, record);
    AccountedPlay(w, a, w.lastWall, reset, record);
    AccountBooks(w, a, w.lastWall, reset, record, 0);
    RolledPlay(before, reset, newDay, r.mono);
    RollBooks(before, reset, newDay, r.mono, 0);
    AccountedPlay(RollDay(before, reset, newDay, r.mono).world, b, reset, r.now, record);
  }

  lemma TickPlays(w: World, r: Reading)
    requires Linked(w) && ValidConfig(w.cfg) && RegularDays(w.cfg) && Playing(w)
    requires DriftFree(w, r) && NoDaySkipped(w, r)
    ensures PlayOf(Tick(w, r).world) == PlayTo(w.cfg, w.game.value, PlayOf(w), w.lastWall, r.now)
  {
    NoteClockBooks(w, r, 0);
    var clock := NoteClock(w, r).world;
    assert PlayOf(clock) == PlayOf(w);
    AdvancePlays(clock, r);
    AdvanceBooks(clock, r, 0);
    RestOfTick(w, r, Advance(clock, r).world);
  }

  // ----- runs of ticks

  /** At every tick the clocks agree and no day is skipped. */
  ghost predicate DenseTicks(w: World, rs: seq<Reading>) {
    rs == [] ||
    var before, r := AfterTicks(w, rs[..|rs| - 1]), rs[|rs| - 1];
    DenseTicks(w, rs[..|rs| - 1]) && DriftFree(before, r) && NoDaySkipped(before, r)
  }

  ghost predicate AtPlay(w: World) {
    Linked(w) && ValidConfig(w.cfg) && RegularDays(w.cfg) && Playing(w)
  }

  lemma StaysAtPlay(w: World, r: Reading)
    requires AtPlay(w)
    ensures var v := Tick(w, r).world;
            AtPlay(v) && v.cfg == w.cfg && v.game == w.game && v.lastWall == r.now
  {
    TickBooks(w, r, 0);
  }

  /** However a stretch of play is cut into ticks, the table ends up as if there had been none. */
  lemma {:induction false} TicksPlay(w: World, rs: seq<Reading>)
    requires AtPlay(w) && DenseTicks(w, rs)
    ensures var v := AfterTicks(w, rs);
            && AtPlay(v) && v.cfg == w.cfg && v.game == w.game && w.lastWall <= v.lastWall
            && (rs != [] ==> v.lastWall == rs[|rs| - 1].now)
            && (rs != [] ==> PlayOf(v) == PlayTo(w.cfg, w.game.value, PlayOf(w), w.lastWall, v.lastWall))
  {
    if rs != [] {
      var before, r := AfterTicks(w, rs[..|rs| - 1]), rs[|rs| - 1];
      TicksPlay(w, rs[..|rs| - 1]);
      TickPlays(before, r);
      StaysAtPlay(before, r);
      if |rs| > 1 {
        PlayInTwo(w.cfg, w.game.value, PlayOf(w), w.lastWall, before.lastWall, r.now);
      }
    }
  }

  lemma OpenLengthInTwo(c: Config, duration: real, a: int, b: int, e: int)
    requires RegularDays(c) && a <= b <= e
    ensures OpenLength(c, DayOf(c, b), OpenLength(c, DayOf(c, a), duration, a, b), b, e) ==
            OpenLength(c, DayOf(c, a), duration, a, e)
  {
    DayGoesOn(c, a, b);
    DayGoesOn(c, b, e);
    SecondsAdd(a, b, e);
    SecondsAdd(DayStart(c, DayOf(c, b)), b, e);
  }

  /** In particular the open session is as long as the play since the last reset, or since it began if that
      is later. */
  lemma {:induction false} TicksOpenLength(w: World, rs: seq<Reading>)
    requires AtPlay(w) && DenseTicks(w, rs)
    ensures var v := AfterTicks(w, rs);
            v.duration == OpenLength(w.cfg, DayOf(w.cfg, w.lastWall), w.duration, w.lastWall, v.lastWall)
  {
    if rs != [] {
      var prefix, r := rs[..|rs| - 1], rs[|rs| - 1];
      var before := AfterTicks(w, prefix);
      TicksPlay(w, prefix);
      TicksOpenLength(w, prefix);
      TickOpenLength(before, r);
      OpenLengthInTwo(w.cfg, w.duration, w.lastWall, before.lastWall, r.now);
    }
  }

  lemma TickOpenLength(w: World, r: Reading)
    requires AtPlay(w) && DriftFree(w, r)
    ensures var v := Tick(w, r).world;
            && v.lastWall == r.now
            && v.duration == OpenLength(w.cfg, DayOf(w.cfg, w.lastWall), w.duration, w.lastWall, r.now)
  {
    StaysAtPlay(w, r);
    TickDuration(w, r);
  }

  /** Two schedules of ticks over the same stretch leave the same table, read live: the same rows with
      the same ids, days, ends and durations; and so the same open session, the same day, and for
      every day the same play time. */
  lemma ScheduleIndependence(w: World, rs: seq<Reading>, qs: seq<Reading>)
    requires AtPlay(w) && DenseTicks(w, rs) && DenseTicks(w, qs)
    requires rs != [] && qs != [] && rs[|rs| - 1].now == qs[|qs| - 1].now
    ensures var v, u := AfterTicks(w, rs), AfterTicks(w, qs);
            && LiveRows(v) == LiveRows(u) && v.day == u.day && v.duration == u.duration
            && forall d :: LiveUsage(v, d) == LiveUsage(u, d)
  {
    TicksPlay(w, rs);
    TicksPlay(w, qs);
    SamePlay(AfterTicks(w, rs), AfterTicks(w, qs));
  }

  lemma SamePlay(v: World, u: World)
    requires Linked(v) && Linked(u) && v.session.Some? && u.session.Some? && PlayOf(v) == PlayOf(u)
    ensures LiveRows(v) == LiveRows(u) && v.day == u.day && v.duration == u.duration
    ensures forall d :: LiveUsage(v, d) == LiveUsage(u, d)
  {
    OpenDuration(v);
    OpenDuration(u);
  }

  lemma OpenDuration(w: World)
    requires Linked(w) && w.session.Some?
    ensures var rows := LiveRows(w);
            rows != [] && rows[|rows| - 1].duration == w.duration
  { }
}
