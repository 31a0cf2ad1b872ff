/** The sessions table and the engine's caches of it: which row is open, and how much has been
    played on each day. */
module SessionLaws {
  import opened Basics
  import opened Zones
  import opened Ledger
  import opened Records
  import opened Storage
  import opened Engine
  import opened Frames
  import Heatmap

  /** The engine holds a game exactly when it holds a session id; that id is then the only open
      row, the last one, filed under the current day; otherwise no row is open and nothing is
      pending. */
  ghost predicate Linked(w: World) {
    && NonNegative(w.db.sessions) && 0.0 <= w.duration
    && Acceptable(w.pending) && Acceptable(w.db.buckets)
    && match w.session
       case None => w.game.None? && AllClosed(w.db.sessions) && w.duration == 0.0 && w.pending == []
       case Some(id) => w.game.Some? && OpenLast(w.db.sessions, id, w.day)
  }

  /** The sessions table with the open row at its live duration. */
  function LiveRows(w: World): seq<Session> {
    if w.session.Some? && w.db.sessions != [] then WithLive(w.db.sessions, w.duration) else w.db.sessions
  }

  function LiveUsage(w: World, day: int): real { UsageForDay(LiveRows(w), day) }

  /** `played_today` is what the table, read live, says of the current day. */
  ghost predicate CacheAgrees(w: World) { w.played == LiveUsage(w, w.day) }

  /** The part of the state that sessions and heatmap are about. */
  datatype Books = Books(
    sessions: seq<Session>, buckets: Buckets, pending: Pending,
    game: Option<Game>, session: Option<nat>, duration: real, day: int, played: real)

  function BooksOf(w: World): Books {
    Books(w.db.sessions, w.db.buckets, w.pending, w.game, w.session, w.duration, w.day, w.played)
  }

  /** Linked states and their usage depend on the books only. */
  lemma SameBooks(w: World, v: World, d: int)
    requires BooksOf(v) == BooksOf(w)
    ensures Linked(w) <==> Linked(v)
    ensures LiveUsage(v, d) == LiveUsage(w, d)
  { }

  // ----- the stages of a tick

  lemma AccountBooks(w: World, seconds: real, start: int, end: int, record: bool, d: int)
    requires Linked(w)
    ensures var v := Account(w, seconds, start, end, record);
            && Linked(v)
            && v == w.(played := v.played, duration := v.duration, pending := v.pending)
            && LiveUsage(v, d) ==
               LiveUsage(w, d) + (if w.game.Some? && d == w.day then MaxReal(0.0, seconds) else 0.0)
            && v.played == w.played + (if w.game.Some? then MaxReal(0.0, seconds) else 0.0)
            && v.duration == w.duration + (if w.game.Some? then MaxReal(0.0, seconds) else 0.0)
  {
    if w.game.Some? && seconds > 0.0 {
      Heatmap.QueueAcceptable(w.cfg.zone, w.game.value, w.day, start, end, seconds, w.pending);
      UsageWithLive(w.db.sessions, w.duration, d);
      UsageWithLive(w.db.sessions, w.duration + seconds, d);
    }
  }

  lemma FlushBooks(w: World)
    requires Linked(w)
    ensures Linked(Flush(w))
    ensures Flush(w) == w.(db := w.db.(buckets := Flush(w).db.buckets), pending := [])
  {
    AddBucketsExact(w.db.buckets, w.pending, WholeDay(0));
  }

  /** Rotation leaves what is too old as it was: the row it closes ends now. */
  lemma RotateExpired(w: World, at: int, newDay: int, mono: real, d: int, cutoff: int)
    requires Linked(w) && cutoff <= at
    ensures ExpiredUsage(RotateSession(w, at, newDay, mono).world.db.sessions, d, cutoff) ==
            ExpiredUsage(w.db.sessions, d, cutoff)
  {
    if w.session.Some? {
      var rows := w.db.sessions;
      var n := |rows| - 1;
      CloseOpen(rows, w.session.value, w.day, w.duration, at);
      var closed := CloseRows(rows, w.session.value, w.duration, at);
      var after := RotateSession(w, at, newDay, mono).world.db.sessions;
      assert after[..|closed|] == closed && closed[..n] == rows[..n];
      assert !TooOld(closed[n], cutoff);
    }
  }

  /** The open row closed and a new one put behind it. */
  lemma RotatedRows(rows: seq<Session>, id: nat, day: int, duration: real, at: int, row: Session, d: int)
    requires OpenLast(rows, id, day) && NonNegative(rows) && 0.0 <= duration
    requires row.ended.None? && row.duration == 0.0
    ensures var after := CloseRows(rows, id, duration, at) + [row];
            && OpenLast(after, row.id, row.day) && NonNegative(after)
            && WithLive(after, 0.0) == after
            && UsageForDay(after, d) == UsageForDay(WithLive(rows, duration), d)
  {
    CloseOpen(rows, id, day, duration, at);
    var closed := CloseRows(rows, id, duration, at);
    assert (closed + [row])[..|closed|] == closed;
    UsageAppend(closed, row, d);
  }

  /** Closing the old session and opening the new one at the reset moves the live duration into
      the closed row: no day's usage changes. */
  lemma RotateBooks(w: World, at: int, newDay: int, mono: real, d: int)
    requires Linked(w)
    ensures var v := RotateSession(w, at, newDay, mono).world;
            && Linked(v.(day := newDay))
            && LiveUsage(v.(day := newDay), d) == LiveUsage(w, d)
            && UsageForDay(v.db.sessions, d) == LiveUsage(w, d)
            && v.pending == [] && v.duration == 0.0 && w.db.nextId <= v.db.nextId
            && (w.session.Some? <==> v.session.Some?)
            && v == w.(db := w.db.(sessions := v.db.sessions, buckets := v.db.buckets, nextId := v.db.nextId),
                       session := v.session, duration := v.duration, lastCheckpoint := v.lastCheckpoint,
                       pending := v.pending)
            && v.lastCheckpoint == if w.session.Some? then mono else w.lastCheckpoint
  {
    if w.session.Some? {
      FlushBooks(w);
      RotatedRows(w.db.sessions, w.session.value, w.day, w.duration, at,
                  Session(w.db.nextId, newDay, w.game.value, None, 0.0), d);
    }
  }

  /** What linked states ask of the rows survives retention. */
  lemma RetainedRows(rows: seq<Session>, session: Option<nat>, day: int, cutoff: int)
    requires NonNegative(rows)
    requires match session case None => AllClosed(rows) case Some(id) => OpenLast(rows, id, day)
    ensures NonNegative(RetainSessions(rows, cutoff))
    ensures match session
            case None => AllClosed(RetainSessions(rows, cutoff))
            case Some(id) => OpenLast(RetainSessions(rows, cutoff), id, day)
  {
    RetentionShape(rows, cutoff);
    if session.Some? {
      RetentionKeepsOpen(rows, session.value, day, cutoff);
    }
  }

  lemma RetainLinks(w: World, at: int)
    requires Linked(w)
    ensures Linked(w.(db := EnforceRetention(w.db, w.cfg.retentionDays, at)))
  {
    RetainedRows(w.db.sessions, w.session, w.day, Cutoff(w.cfg.retentionDays, at));
    RetentionBuckets(w.db.buckets, at / DAY - w.cfg.retentionDays, 0);
  }

  lemma RetainUsage(w: World, at: int, d: int)
    requires Linked(w)
    ensures LiveUsage(w.(db := EnforceRetention(w.db, w.cfg.retentionDays, at)), d) ==
            LiveUsage(w, d) - ExpiredUsage(w.db.sessions, d, Cutoff(w.cfg.retentionDays, at))
  {
    var rows, cutoff := w.db.sessions, Cutoff(w.cfg.retentionDays, at);
    RetentionUsage(rows, d, cutoff);
    if w.session.Some? {
      RetentionKeepsOpen(rows, w.session.value, w.day, cutoff);
      UsageWithLive(rows, w.duration, d);
      UsageWithLive(RetainSessions(rows, cutoff), w.duration, d);
    }
  }

  lemma RetainBooks(w: World, at: int, d: int)
    requires Linked(w) && 0 <= w.cfg.retentionDays
    ensures var v := w.(db := EnforceRetention(w.db, w.cfg.retentionDays, at));
            && Linked(v)
            && LiveUsage(v, d) == LiveUsage(w, d) - ExpiredUsage(w.db.sessions, d, Cutoff(w.cfg.retentionDays, at))
  {
    RetainLinks(w, at);
    RetainUsage(w, at, d);
  }

  /** The daily roll: usage of every day is kept except what retention removes; the caches are
      reloaded for the new day. */
  lemma RollBooks(w: World, at: int, newDay: int, mono: real, d: int)
    requires Linked(w) && 0 <= w.cfg.retentionDays
    ensures var v := RollDay(w, at, newDay, mono).world;
            && Linked(v) && v.day == newDay && v.pending == [] && v.duration == 0.0
            && (w.session.Some? <==> v.session.Some?)
            && LiveUsage(v, d) == LiveUsage(w, d) - ExpiredUsage(w.db.sessions, d, Cutoff(w.cfg.retentionDays, at))
            && v.played == LiveUsage(w, newDay)
            && (v.lastCheckpoint == if w.session.Some? then mono else w.lastCheckpoint)
  {
    var cutoff := Cutoff(w.cfg.retentionDays, at);
    RotateBooks(w, at, newDay, mono, d);
    RotateBooks(w, at, newDay, mono, newDay);
    RotateExpired(w, at, newDay, mono, d, cutoff);
    var rotated := RotateSession(w, at, newDay, mono).world.(day := newDay);
    assert cutoff <= at;
    RetainBooks(rotated, at, d);
    var v := RollDay(w, at, newDay, mono).world;
    assert BooksOf(v) ==
           BooksOf(rotated.(db := EnforceRetention(rotated.db, w.cfg.retentionDays, at))).(played := v.played);
  }

  /** After a roll the cache agrees with the table exactly when retention removed no play time
      of the new day. */
  lemma RollCacheExact(w: World, at: int, newDay: int, mono: real)
    requires Linked(w) && 0 <= w.cfg.retentionDays
    ensures CacheAgrees(RollDay(w, at, newDay, mono).world) <==>
            ExpiredUsage(w.db.sessions, newDay, Cutoff(w.cfg.retentionDays, at)) == 0.0
  {
    RollBooks(w, at, newDay, mono, newDay);
  }

  lemma SplitElapsedSums(elapsed: real, previous: int, current: int, boundary: int)
    requires 0.0 <= elapsed
    ensures var s := SplitElapsed(elapsed, previous, current, boundary);
            0.0 <= s.0 && 0.0 <= s.1 && s.0 + s.1 == elapsed
  { }

  /** The seconds a tick credits to a day. */
  function Credit(w: World, r: Reading, d: int): real {
    var newDay := DayOf(w.cfg, r.now);
    if w.game.None? || w.suspended then 0.0
    else if newDay == w.day then (if d == w.day then MonoDelta(w, r) else 0.0)
    else
      var s := SplitElapsed(MonoDelta(w, r), w.lastWall, r.now, DayStart(w.cfg, newDay));
      (if d == w.day then s.0 else 0.0) + if d == newDay then s.1 else 0.0
  }

  /** The seconds of a day that retention removes during a tick. */
  function Purged(w: World, r: Reading, d: int): real {
    var newDay := DayOf(w.cfg, r.now);
    if newDay == w.day then 0.0
    else ExpiredUsage(w.db.sessions, d, Cutoff(w.cfg.retentionDays, DayStart(w.cfg, newDay)))
  }

  lemma AdvanceSameDay(w: World, r: Reading, d: int)
    requires Linked(w) && DayOf(w.cfg, r.now) == w.day
    ensures var v := Advance(w, r).world;
            && Linked(v) && v.day == w.day && (w.session.Some? <==> v.session.Some?)
            && LiveUsage(v, d) == LiveUsage(w, d) + Credit(w, r, d)
            && v.played == w.played + Credit(w, r, w.day)
  {
    AccountBooks(w, MonoDelta(w, r), w.lastWall, r.now, Reliable(w, r), d);
  }

  /** What a tick does after the roll: the rest of the elapsed time goes to the new day. */
  lemma AdvanceNewDay(w: World, seconds: real, start: int, end: int, record: bool, d: int)
    requires Linked(w) && 0.0 <= seconds
    ensures var v := if w.suspended then w else Flush(Account(w, seconds, start, end, record));
            var credit := if w.suspended || w.game.None? then 0.0 else seconds;
            && Linked(v) && v.day == w.day && (w.session.Some? <==> v.session.Some?)
            && LiveUsage(v, d) == LiveUsage(w, d) + (if d == w.day then credit else 0.0)
            && v.played == w.played + credit
  {
    AccountBooks(w, seconds, start, end, record, d);
    FlushBooks(Account(w, seconds, start, end, record));
    var v := Account(w, seconds, start, end, record);
    SameLive(v, Flush(v), d);
  }

  lemma SameLive(w: World, v: World, d: int)
    requires v.db.sessions == w.db.sessions && v.session == w.session && v.duration == w.duration
    ensures LiveUsage(v, d) == LiveUsage(w, d)
  { }

  lemma AdvanceBooks(w: World, r: Reading, d: int)
    requires Linked(w) && 0 <= w.cfg.retentionDays
    ensures var v := Advance(w, r).world;
            && Linked(v) && v.day == DayOf(w.cfg, r.now) && (w.session.Some? <==> v.session.Some?)
            && LiveUsage(v, d) == LiveUsage(w, d) + Credit(w, r, d) - Purged(w, r, d)
            && v.played == (if v.day == w.day then w.played else LiveUsage(w, v.day)) + Credit(w, r, v.day)
  {
    var newDay := DayOf(w.cfg, r.now);
    if newDay == w.day {
      AdvanceSameDay(w, r, d);
      AdvanceSameDay(w, r, w.day);
    } else {
      var boundary := DayStart(w.cfg, newDay);
      var split := SplitElapsed(MonoDelta(w, r), w.lastWall, r.now, boundary);
      SplitElapsedSums(MonoDelta(w, r), w.lastWall, r.now, boundary);
      var before := AccountUnlessSuspended(w, split.0, w.lastWall, boundary, Reliable(w, r));
      AccountBooks(w, split.0, w.lastWall, boundary, Reliable(w, r), d);
      AccountBooks(w, split.0, w.lastWall, boundary, Reliable(w, r), newDay);
      RollBooks(before, boundary, newDay, r.mono, d);
      AdvanceNewDay(RollDay(before, boundary, newDay, r.mono).world, split.1, boundary, r.now, Reliable(w, r), d);
    }
  }

  lemma PersistBooks(w: World, mono: real, d: int)
    requires Linked(w)
    ensures var v := PersistSession(w, mono);
            && Linked(v)
            && LiveUsage(v, d) == LiveUsage(w, d)
            && v == w.(db := w.db.(sessions := v.db.sessions, buckets := v.db.buckets),
                       lastCheckpoint := v.lastCheckpoint, pending := v.pending)
            && (w.session.Some? ==>
                  v.db.sessions == if mono - w.lastCheckpoint >= w.cfg.checkpointSeconds as real
                                   then WithLive(w.db.sessions, w.duration) else w.db.sessions)
  {
    if w.session.Some? && mono - w.lastCheckpoint >= w.cfg.checkpointSeconds as real {
      SavedBooks(w, d);
      var saved := w.(db := CheckpointSession(w.db, w.session.value, w.duration));
      FlushBooks(saved);
      SameLive(saved, PersistSession(w, mono), d);
    }
  }

  /** Clock notes concern the last seen offset only. */
  lemma NoteClockBooks(w: World, r: Reading, d: int)
    ensures var v := NoteClock(w, r).world;
            && v == w.(lastOffset := v.lastOffset)
            && (Linked(w) ==> Linked(v))
            && LiveUsage(v, d) == LiveUsage(w, d)
            && Credit(v, r, d) == Credit(w, r, d) && Purged(v, r, d) == Purged(w, r, d)
  { }

  /** Running the timer and saving change no one's usage. */
  lemma SettleBooks(w: World, elapsed: real, mono: real, d: int)
    requires Linked(w)
    ensures var v := Settle(w, elapsed, mono).world;
            Linked(v) && LiveUsage(v, d) == LiveUsage(w, d)
  {
    SettleFrame(w, elapsed, mono);
    PersistBooks(w, mono, d);
    SameBooks(PersistSession(w, mono), Settle(w, elapsed, mono).world, d);
  }

  lemma ElapseBooks(w: World, r: Reading, d: int)
    requires Linked(w) && 0 <= w.cfg.retentionDays
    ensures var v := Elapse(w, r).world;
            && Linked(v) && v.day == DayOf(w.cfg, r.now)
            && v.game == w.game && v.cfg == w.cfg && v.suspended == w.suspended
            && v.lastMono == r.mono && v.lastWall == r.now
            && (w.session.Some? <==> v.session.Some?)
            && LiveUsage(v, d) == LiveUsage(w, d) + Credit(w, r, d) - Purged(w, r, d)
            && v.played == (if v.day == w.day then w.played else LiveUsage(w, v.day)) + Credit(w, r, v.day)
  {
    NoteClockBooks(w, r, d);
    NoteClockBooks(w, r, DayOf(w.cfg, r.now));
    var clock := NoteClock(w, r).world;
    AdvanceBooks(clock, r, d);
    var advanced := Advance(clock, r).world;
    AdvanceFrame(clock, r);
    SettleFrame(advanced, MonoDelta(w, r), r.mono);
    SettleBooks(advanced, MonoDelta(w, r), r.mono, d);
    SameBooks(Settle(advanced, MonoDelta(w, r), r.mono).world, Elapse(w, r).world, d);
  }

  /** One tick, seen from the books: the day is the one of the clock reading, usage grows by the
      credited seconds and shrinks by what retention removes, and the cache follows. */
  lemma TickBooks(w: World, r: Reading, d: int)
    requires Linked(w) && 0 <= w.cfg.retentionDays
    ensures var v := Tick(w, r).world;
            && Linked(v) && v.day == DayOf(w.cfg, r.now)
            && v.game == w.game && v.cfg == w.cfg && v.suspended == w.suspended
            && v.lastMono == r.mono && v.lastWall == r.now
            && LiveUsage(v, d) == LiveUsage(w, d) + Credit(w, r, d) - Purged(w, r, d)
            && v.played == (if v.day == w.day then w.played else LiveUsage(w, v.day)) + Credit(w, r, v.day)
  {
    ElapseBooks(w, r, d);
    AnnounceFrame(Elapse(w, r).world, r.now, TakeSnapshot(w, r.now));
    SameBooks(Elapse(w, r).world, Tick(w, r).world, d);
  }

  // ----- commands

  lemma CloseCurrentBooks(w: World, at: int, d: int)
    requires Linked(w)
    ensures var v := CloseCurrent(w, at).world;
            && Linked(v) && v.session == None && v.day == w.day && v.played == w.played
            && LiveUsage(v, d) == LiveUsage(w, d)
            && v == w.(db := w.db.(sessions := v.db.sessions, buckets := v.db.buckets), game := None,
                       session := None, duration := 0.0, pending := [])
  {
    if w.session.Some? {
      FlushBooks(w);
      CloseOpen(w.db.sessions, w.session.value, w.day, w.duration, at);
      assert CloseCurrent(w, at).world.db.sessions == CloseRows(w.db.sessions, w.session.value, w.duration, at);
    }
  }

  lemma BeginSessionBooks(w: World, g: Game, mono: real, d: int)
    requires Linked(w) && w.session == None
    ensures !AnyOpen(w.db.sessions)
    ensures var v := BeginSession(w, g, mono).world;
            && Linked(v) && v.session == Some(w.db.nextId) && v.day == w.day && v.played == w.played
            && LiveUsage(v, d) == LiveUsage(w, d)
  { }

  /** In a linked state, hence in every reachable one, the storage layer never refuses to open a
      session for the engine: the only report `set_game` turns down is a malformed one. */
  lemma SetGameTailBooks(t: World, g: Game, r: Reading, d: int)
    requires Linked(t)
    ensures var v := SetGameTail(t, g, r);
            && v.Done? && Linked(v.world) && v.world.game == Some(g) && v.world.cfg == t.cfg
            && v.world.day == t.day && v.world.played == t.played
            && LiveUsage(v.world, d) == LiveUsage(t, d)
  {
    if !(t.game.Some? && SameGame(t.game.value, g)) {
      CloseCurrentBooks(t, r.now, d);
      BeginSessionBooks(if t.game.Some? then CloseCurrent(t, r.now).world else t, g, r.mono, d);
    }
  }

  /** The commands whose tails leave the books alone. */
  predicate TimerCommand(c: Command) {
    c.DoStartTimer? || c.DoPauseTimer? || c.DoResumeTimer? || c.DoCancelTimer? || c.DoAdjustTimer?
    || c.DoGrant? || c.DoSuspend? || c.DoTick?
  }

  lemma TimerTailBooks(t: World, c: Command, r: Reading)
    requires TimerCommand(c)
    ensures BooksOf(Tail(t, c, r).world) == BooksOf(t) && Tail(t, c, r).world.cfg == t.cfg
  {
    match c
    case DoAdjustTimer(s) =>
      ApplyAdjustmentOnlyTimer(t, s, r.now);
      AnnounceFrame(ApplyAdjustment(t, s, r.now), r.now, TakeSnapshot(t, r.now));
    case DoGrant(s, reason) =>
      AnnounceFrame(ApplyGrant(t, s, r.now), r.now, TakeSnapshot(t, r.now));
    case _ =>
  }

  lemma StopGameTailBooks(t: World, r: Reading, d: int)
    requires Linked(t)
    ensures var v := StopGameTail(t, r).world;
            && Linked(v) && v.session == None && v.cfg == t.cfg && v.day == t.day && v.played == t.played
            && LiveUsage(v, d) == LiveUsage(t, d)
  {
    CloseCurrentBooks(t, r.now, d);
    SameBooks(CloseCurrent(t, r.now).world, StopGameTail(t, r).world, d);
  }

  lemma ShutdownTailBooks(t: World, r: Reading, d: int)
    requires Linked(t)
    ensures var v := ShutdownTail(t, r).world;
            && Linked(v) && v.session == None && v.cfg == t.cfg && v.day == t.day && v.played == t.played
            && LiveUsage(v, d) == LiveUsage(t, d)
  {
    if t.session.Some? {
      SavedBooks(t, d);
      var saved := t.(db := CheckpointSession(t.db, t.session.value, t.duration));
      CloseCurrentBooks(saved, r.now, d);
      SameBooks(CloseCurrent(saved, r.now).world, ShutdownTail(t, r).world, d);
    } else {
      SameBooks(t, ShutdownTail(t, r).world, d);
    }
  }

  /** Saving the open row makes it what it is live. */
  lemma SavedBooks(t: World, d: int)
    requires Linked(t) && t.session.Some?
    ensures var v := t.(db := CheckpointSession(t.db, t.session.value, t.duration));
            Linked(v) && v.db.sessions == LiveRows(t) && LiveUsage(v, d) == LiveUsage(t, d)
  {
    var rows := t.db.sessions;
    CheckpointOpen(rows, t.session.value, t.day, t.duration);
    var live := WithLive(rows, t.duration);
    assert live[..|rows| - 1] == rows[..|rows| - 1];
    assert WithLive(live, t.duration) == live;
  }

  lemma StartupBooks(db: Tables, c: Config, r: Reading, d: int)
    requires NonNegative(db.sessions) && Acceptable(db.buckets)
    requires AllClosed(db.sessions) || exists id, day :: OpenLast(db.sessions, id, day)
    ensures var v := Startup(db, c, r).world;
            && Linked(v) && v.session == None && v.cfg == c && v.day == DayOf(c, r.now)
            && LiveUsage(v, d) == UsageForDay(db.sessions, d)
            && CacheAgrees(v)
  {
    RecoveryKeepsUsage(db, r.now);
    var v := Startup(db, c, r).world;
    assert v.db.sessions == RecoverOpenSession(db, r.now).sessions;
  }

  /** The condition under which a step's cache survives retention: the last daily roll of the
      step, if there was one, removed no play time of the day it opened. */
  ghost predicate SparesToday(w: World, c: Command, r: Reading) {
    if TicksFirst(c) then
      if c.DoUpdateConfig? && DayOf(c.config, r.now) != DayOf(w.cfg, r.now)
      then RollSpares(Tick(w, r).world, c.config, r.now)
      else Purged(w, r, DayOf(w.cfg, r.now)) == 0.0
    else c.DoResume? && DayOf(w.cfg, r.now) != w.day ==> RollSpares(w, w.cfg, r.now)
  }

  /** A roll at `now` under settings `c` removes no play time of the day it opens. */
  ghost predicate RollSpares(w: World, c: Config, now: int) {
    ExpiredUsage(w.db.sessions, DayOf(c, now), Cutoff(c.retentionDays, now)) == 0.0
  }

  lemma TickCache(w: World, r: Reading)
    requires Linked(w) && 0 <= w.cfg.retentionDays && CacheAgrees(w)
    ensures CacheAgrees(Tick(w, r).world) <==> Purged(w, r, DayOf(w.cfg, r.now)) == 0.0
  {
    TickBooks(w, r, DayOf(w.cfg, r.now));
  }

  lemma SwitchConfigBooks(t: World, c: Config, r: Reading)
    requires Linked(t) && 0 <= c.retentionDays
    ensures var v := UpdateConfigTail(t, c, r).world;
            && Linked(v) && v.day == DayOf(c, r.now) && v.cfg == c
            && (CacheAgrees(v) <==> if DayOf(c, r.now) != t.day then RollSpares(t, c, r.now) else CacheAgrees(t))
  {
    var d := DayOf(c, r.now);
    UpdateConfigTailFrame(t, c, r);
    var switched := SwitchConfig(t, c, r).world;
    SameBooks(t, t.(cfg := c), d);
    if d != t.day {
      RollBooks(t.(cfg := c), r.now, d, r.mono, d);
    }
    SameBooks(switched, UpdateConfigTail(t, c, r).world, d);
  }

  lemma ResumeBooks(w: World, r: Reading)
    requires Linked(w) && 0 <= w.cfg.retentionDays
    ensures var v := Resume(w, r).world;
            && Linked(v) && v.day == DayOf(w.cfg, r.now) && v.cfg == w.cfg
            && (CacheAgrees(v) <==>
                if DayOf(w.cfg, r.now) != w.day then RollSpares(w, w.cfg, r.now) else CacheAgrees(w))
  {
    var base := w.(lastWall := r.now, lastMono := r.mono);
    var d := DayOf(w.cfg, r.now);
    SameBooks(w, base, d);
    if d != w.day {
      RollBooks(base, r.now, d, r.mono, d);
      SameBooks(RollDay(base, r.now, d, r.mono).world, Resume(w, r).world, d);
    } else {
      SameBooks(base, Resume(w, r).world, d);
    }
  }

  lemma TailBooks(t: World, c: Command, r: Reading)
    requires Linked(t) && 0 <= t.cfg.retentionDays && ValidCommand(c) && TicksFirst(c)
    ensures var v := Tail(t, c, r).world;
            && Linked(v) && 0 <= v.cfg.retentionDays
            && (CacheAgrees(v) <==> if c.DoUpdateConfig? && DayOf(c.config, r.now) != t.day
                                    then RollSpares(t, c.config, r.now) else CacheAgrees(t))
  {
    if TimerCommand(c) {
      TimerTailBooks(t, c, r);
      SameBooks(t, Tail(t, c, r).world, t.day);
    } else {
      match c
      case DoSetGame(g) => SetGameTailBooks(t, g, r, t.day);
      case DoStopGame => StopGameTailBooks(t, r, t.day);
      case DoUpdateConfig(cfg) => SwitchConfigBooks(t, cfg, r);
      case DoShutdown => ShutdownTailBooks(t, r, t.day);
    }
  }

  /** Every command keeps the engine and the sessions table linked, and keeps the cache of
      today's play exactly when retention spares today. */
  lemma StepBooks(w: World, c: Command, r: Reading)
    requires Linked(w) && 0 <= w.cfg.retentionDays && ValidCommand(c)
    ensures Linked(Step(w, c, r).world)
    ensures CacheAgrees(w) ==> (CacheAgrees(Step(w, c, r).world) <==> SparesToday(w, c, r))
    ensures 0 <= Step(w, c, r).world.cfg.retentionDays
  {
    if TicksFirst(c) {
      TickedBooks(w, c, r);
    } else {
      UntickedBooks(w, c, r);
    }
  }

  /** `v` is linked after command `c`, and its cache agrees as that allows. */
  ghost predicate BooksAfter(w: World, v: World, c: Command, r: Reading) {
    && Linked(v) && 0 <= v.cfg.retentionDays
    && (CacheAgrees(w) ==> (CacheAgrees(v) <==> SparesToday(w, c, r)))
  }

  lemma UntickedBooks(w: World, c: Command, r: Reading)
    requires Linked(w) && 0 <= w.cfg.retentionDays && ValidCommand(c) && !TicksFirst(c)
    ensures BooksAfter(w, Proper(w, c, r).world, c, r)
  {
    if c.DoResume? {
      ResumeBooksAfter(w, c, r);
    } else if c.DoRestart? {
      RestartBooksAfter(w, c, r);
    } else {
      RestBooksAfter(w, c, r);
    }
  }

  lemma ResumeBooksAfter(w: World, c: Command, r: Reading)
    requires Linked(w) && 0 <= w.cfg.retentionDays && c.DoResume?
    ensures BooksAfter(w, Proper(w, c, r).world, c, r)
  {
    ResumeBooks(w, r);
  }

  lemma RestartBooksAfter(w: World, c: Command, r: Reading)
    requires Linked(w) && c.DoRestart? && ValidConfig(c.config)
    ensures BooksAfter(w, Proper(w, c, r).world, c, r)
  {
    RestartBooks(w, c.config, r);
  }

  /** Clearing the history, and turning down a malformed game. */
  lemma RestBooksAfter(w: World, c: Command, r: Reading)
    requires Linked(w) && 0 <= w.cfg.retentionDays && (c.DoPurge? || (c.DoSetGame? && !TicksFirst(c)))
    ensures BooksAfter(w, Proper(w, c, r).world, c, r)
  {
    PurgeBooks(w);
  }

  lemma RestartBooks(w: World, c: Config, r: Reading)
    requires Linked(w)
    ensures var v := Startup(w.db, c, r).world;
            Linked(v) && v.cfg == c && CacheAgrees(v)
  {
    StartupBooks(w.db, c, r, 0);
  }

  lemma PurgeBooks(w: World)
    requires Linked(w)
    ensures var v := PurgeHistory(w).world;
            Linked(v) && v.cfg == w.cfg && (CacheAgrees(w) ==> CacheAgrees(v))
  { }

  lemma TickedBooks(w: World, c: Command, r: Reading)
    requires Linked(w) && 0 <= w.cfg.retentionDays && ValidCommand(c) && TicksFirst(c)
    ensures var v := Tail(Tick(w, r).world, c, r).world;
            && Linked(v) && 0 <= v.cfg.retentionDays
            && (CacheAgrees(w) ==> (CacheAgrees(v) <==> SparesToday(w, c, r)))
  {
    TickBooks(w, r, 0);
    if CacheAgrees(w) {
      TickCache(w, r);
    }
    TailBooks(Tick(w, r).world, c, r);
  }

  /** A run starts from a fresh engine over empty tables. */
  function Begin(c: Config, r: Reading): World { Startup(EMPTY_TABLES, c, r).world }

  ghost predicate ValidRun(run: seq<Input>) {
    forall i :: 0 <= i < |run| ==> ValidCommand(run[i].command)
  }

  /** Each daily roll of the run left the play time of the day it opened in the table. */
  ghost predicate RunSparesToday(w: World, run: seq<Input>) {
    run == [] ||
    var prefix, last := run[..|run| - 1], run[|run| - 1];
    RunSparesToday(w, prefix) && SparesToday(After(w, prefix), last.command, last.at)
  }

  /** Over every run, crashes and restarts included, engine and table stay linked; and if no daily
      roll removes play time of the day it opens, `played_today` stays what the table says. */
  lemma {:induction false} RunBooks(w: World, run: seq<Input>)
    requires Linked(w) && 0 <= w.cfg.retentionDays && ValidRun(run)
    ensures var v := After(w, run);
            && Linked(v) && 0 <= v.cfg.retentionDays
            && (CacheAgrees(w) && RunSparesToday(w, run) ==> CacheAgrees(v))
  {
    if run != [] {
      var prefix, last := run[..|run| - 1], run[|run| - 1];
      assert forall i :: 0 <= i < |prefix| ==> prefix[i] == run[i];
      RunBooks(w, prefix);
      StepBooks(After(w, prefix), last.command, last.at);
    }
  }

  /** A fresh engine is linked and its cache agrees, so the same holds in every reachable state. */
  lemma ReachableBooks(c: Config, r: Reading, run: seq<Input>)
    requires ValidConfig(c) && ValidRun(run)
    ensures var v := After(Begin(c, r), run);
            Linked(v) && (RunSparesToday(Begin(c, r), run) ==> CacheAgrees(v))
  {
    StartupBooks(EMPTY_TABLES, c, r, 0);
    RunBooks(Begin(c, r), run);
  }

  /** A day's rows cannot be old enough to go when the day itself is just beginning: with rows
      that end no earlier than their day starts, the roll of a tick always spares today. */
  lemma TickSparesToday(w: World, r: Reading)
    requires 1 <= w.cfg.retentionDays
    requires forall i :: 0 <= i < |w.db.sessions| && w.db.sessions[i].ended.Some? ==>
                           DayStart(w.cfg, w.db.sessions[i].day) <= w.db.sessions[i].ended.value
    ensures Purged(w, r, DayOf(w.cfg, r.now)) == 0.0
  {
    var newDay := DayOf(w.cfg, r.now);
    SparedUsage(w.db.sessions, newDay, Cutoff(w.cfg.retentionDays, DayStart(w.cfg, newDay)));
  }
}
