/** What a crash can lose: the stored timer and the stored session row against the live ones. */
module RecoveryLaws {
  import opened Records
  import opened Storage
  import opened Engine
  import opened Frames
  import opened SessionLaws

  // ----- the timer

  /** A running or paused timer has between zero and 24 hours left and a generation; an expired
      one has nothing left; an idle one is blank. */
  predicate TimerOk(t: Timer) {
    match t.state
    case Idle => t == BLANK_TIMER
    case Running => 0.0 < t.remaining <= 86400.0 && t.generation.Some?
    case Paused => 0.0 < t.remaining <= 86400.0 && t.generation.Some?
    case Expired => t.remaining == 0.0 && t.generation.Some?
  }

  /** The stored timer differs from the live one only in the time that has run off since it was
      last saved, and that is no more than the monotonic time since then. */
  ghost predicate TimerSaved(w: World) {
    var saved := LoadTimer(w.db);
    && saved == w.timer.(remaining := saved.remaining)
    && w.lastPersist <= w.lastMono
    && (w.timer.state != Running ==> saved.remaining == w.timer.remaining)
    && w.timer.remaining <= saved.remaining <= 86400.0
    && saved.remaining - w.timer.remaining <= w.lastMono - w.lastPersist
  }

  /** The timer's generation is not one that is still to be handed out. */
  predicate KnownGeneration(t: Timer, nextId: nat) { t.generation.Some? ==> t.generation.value < nextId }

  ghost predicate TimerGood(w: World) {
    TimerOk(w.timer) && TimerSaved(w) && KnownGeneration(w.timer, w.db.nextId)
  }

  /** What a tick leaves of a good timer: less time, and a stored copy less than the checkpoint
      interval behind. */
  ghost predicate TimerSettled(w: World, v: World) {
    && TimerGood(v)
    && v.timer.remaining <= w.timer.remaining
    && v.timer.generation == w.timer.generation
    && (v.timer.state == Running ==>
          LoadTimer(v.db).remaining - v.timer.remaining < w.cfg.checkpointSeconds as real)
  }

  lemma SettleTimer(w: World, elapsed: real, mono: real)
    requires TimerGood(w) && 0 < w.cfg.checkpointSeconds
    requires w.lastMono <= mono && elapsed == mono - w.lastMono
    ensures TimerSettled(w, PersistTimer(RunTimer(w, elapsed).world, mono).(lastMono := mono))
  { }

  lemma TimerSettledCopies(w: World, v: World, v': World)
    requires TimerSettled(w, v)
    requires v'.timer == v.timer && v'.db.timer == v.db.timer
             && v'.lastMono == v.lastMono && v'.lastPersist == v.lastPersist && v.db.nextId <= v'.db.nextId
    ensures TimerSettled(w, v')
  { }

  lemma TickTimer(w: World, r: Reading)
    requires ValidConfig(w.cfg) && TimerGood(w) && w.lastMono <= r.mono
    ensures TimerSettled(w, Tick(w, r).world)
  {
    SettleTimer(w, MonoDelta(w, r), r.mono);
    TickTimerFrame(w, r);
    TickClock(w, r);
    TimerSettledCopies(w, PersistTimer(RunTimer(w, MonoDelta(w, r)).world, r.mono).(lastMono := r.mono),
                       Tick(w, r).world);
  }

  lemma TickClock(w: World, r: Reading)
    ensures Tick(w, r).world.lastMono == r.mono && Tick(w, r).world.lastWall == r.now
  {
    AnnounceFrame(Elapse(w, r).world, r.now, TakeSnapshot(w, r.now));
  }

  lemma AdjustTimerGood(t: World, seconds: int, r: Reading)
    requires TimerGood(t)
    ensures TimerGood(AdjustTimerTail(t, seconds, r).world)
  {
    ApplyAdjustmentOnlyTimer(t, seconds, r.now);
    AnnounceFrame(ApplyAdjustment(t, seconds, r.now), r.now, TakeSnapshot(t, r.now));
  }

  lemma GrantTimerGood(t: World, seconds: int, reason: string, r: Reading)
    requires TimerGood(t)
    ensures TimerGood(GrantTail(t, seconds, reason, r).world)
  {
    AnnounceFrame(ApplyGrant(t, seconds, r.now), r.now, TakeSnapshot(t, r.now));
  }

  lemma UpdateConfigTimerGood(t: World, c: Config, r: Reading)
    requires TimerGood(t)
    ensures TimerGood(UpdateConfigTail(t, c, r).world)
  {
    SwitchConfigFrame(t, c, r);
    UpdateConfigTailFrame(t, c, r);
  }

  lemma TailTimer(t: World, c: Command, r: Reading)
    requires TicksFirst(c) && TimerGood(t)
    ensures TimerGood(Tail(t, c, r).world)
  {
    match c
    case DoAdjustTimer(s) => AdjustTimerGood(t, s, r);
    case DoGrant(s, reason) => GrantTimerGood(t, s, reason, r);
    case DoUpdateConfig(cfg) => UpdateConfigTimerGood(t, cfg, r);
    case DoSetGame(g) => SetGameTailFrame(t, g, r);
    case DoStopGame => StopGameTailFrame(t, r);
    case DoShutdown => ShutdownTailFrame(t, r);
    case _ =>
  }

  /** Every command, a crash and restart included, keeps the timer in one of its four forms and
      the stored timer close behind it, as long as the monotonic clock does not go back while the
      daemon lives. */
  lemma StepTimer(w: World, c: Command, r: Reading)
    requires ValidConfig(w.cfg)
    requires TimerGood(w) && (c.DoRestart? || w.lastMono <= r.mono)
    ensures TimerGood(Step(w, c, r).world)
  {
    if TicksFirst(c) {
      TickTimer(w, r);
      TailTimer(Tick(w, r).world, c, r);
    } else {
      match c
      case DoResume => ResumeFrame(w, r);
      case DoRestart(cfg) => StartupTimer(w.db, cfg, r);
      case _ =>
    }
  }

  /** A restarted engine has the stored timer, paused if it was running. */
  lemma StartupTimer(db: Tables, c: Config, r: Reading)
    requires TimerOk(LoadTimer(db)) && KnownGeneration(LoadTimer(db), db.nextId)
    ensures var v := Startup(db, c, r).world;
            var saved := LoadTimer(db);
            && TimerGood(v)
            && v.timer == if saved.state == Running then saved.(state := Paused) else saved
  { }

  // ----- the session row

  function RowDuration(w: World): real {
    if w.db.sessions == [] then 0.0 else w.db.sessions[|w.db.sessions| - 1].duration
  }

  /** Play time that the open row does not show yet. */
  function Lag(w: World): real { if w.session.Some? then w.duration - RowDuration(w) else 0.0 }

  /** The row lags by no more than the monotonic time since the last checkpoint, plus `carry`:
      what the last daily roll credited to the row it had just opened. */
  ghost predicate LagWithin(w: World, carry: real) {
    && 0.0 <= carry && w.lastCheckpoint <= w.lastMono
    && 0.0 <= Lag(w) <= w.lastMono - w.lastCheckpoint + carry
  }

  /** The carry after a tick: the slice a roll put in the new row, nothing once a checkpoint has
      saved the row, otherwise what it was. */
  function CarryAfterTick(w: World, r: Reading, carry: real): real {
    var newDay := DayOf(w.cfg, r.now);
    if newDay != w.day then
      if w.suspended then 0.0
      else SplitElapsed(MonoDelta(w, r), w.lastWall, r.now, DayStart(w.cfg, newDay)).1
    else if r.mono - w.lastCheckpoint >= w.cfg.checkpointSeconds as real then 0.0
    else carry
  }

  lemma RollRow(w: World, at: int, newDay: int, mono: real)
    requires Linked(w) && 0 <= w.cfg.retentionDays
    ensures Lag(RollDay(w, at, newDay, mono).world) == 0.0
  { }

  /** After a tick across the daily reset the open row lacks exactly the slice of the new day. */
  lemma RolledLag(w: World, r: Reading, carry: real)
    requires Linked(w) && 0 <= w.cfg.retentionDays && DayOf(w.cfg, r.now) != w.day
    ensures var v := Advance(w, r).world;
            && v.pending == [] && 0.0 <= CarryAfterTick(w, r, carry)
            && Lag(v) == if w.session.Some? then CarryAfterTick(w, r, carry) else 0.0
  {
    var newDay := DayOf(w.cfg, r.now);
    var boundary := DayStart(w.cfg, newDay);
    var split := SplitElapsed(MonoDelta(w, r), w.lastWall, r.now, boundary);
    SplitElapsedSums(MonoDelta(w, r), w.lastWall, r.now, boundary);
    var before := AccountUnlessSuspended(w, split.0, w.lastWall, boundary, Reliable(w, r));
    AccountBooks(w, split.0, w.lastWall, boundary, Reliable(w, r), 0);
    RollBooks(before, boundary, newDay, r.mono, 0);
    RollRow(before, boundary, newDay, r.mono);
    RollFrame(before, boundary, newDay, r.mono);
    AccountLag(RollDay(before, boundary, newDay, r.mono).world, split.1, boundary, r.now, Reliable(w, r));
  }

  lemma AccountLag(w: World, seconds: real, start: int, end: int, record: bool)
    requires Linked(w) && 0.0 <= seconds
    ensures var v := Flush(Account(w, seconds, start, end, record));
            v.pending == [] && Lag(v) == Lag(w) + if w.session.Some? then seconds else 0.0
  { }

  lemma AdvanceLag(w: World, r: Reading, carry: real)
    requires Linked(w) && 0 <= w.cfg.retentionDays && w.lastMono <= r.mono
    requires LagWithin(w, carry)
    ensures var v := Advance(w, r).world;
            if DayOf(w.cfg, r.now) == w.day
            then v.lastCheckpoint == w.lastCheckpoint
                 && 0.0 <= Lag(v) <= r.mono - w.lastCheckpoint + carry
            else (w.session.Some? ==> v.lastCheckpoint == r.mono)
                 && v.lastCheckpoint <= r.mono
                 && 0.0 <= Lag(v) <= CarryAfterTick(w, r, carry)
  {
    var newDay := DayOf(w.cfg, r.now);
    if newDay == w.day {
      AccountBooks(w, MonoDelta(w, r), w.lastWall, r.now, Reliable(w, r), 0);
    } else {
      RolledLag(w, r, carry);
      RolledCheckpoint(w, r);
    }
  }

  lemma RolledCheckpoint(w: World, r: Reading)
    requires DayOf(w.cfg, r.now) != w.day && (w.game.Some? <==> w.session.Some?)
    ensures Advance(w, r).world.lastCheckpoint == if w.session.Some? then r.mono else w.lastCheckpoint
  {
    var newDay, record := DayOf(w.cfg, r.now), Reliable(w, r);
    var boundary := DayStart(w.cfg, newDay);
    var split := SplitElapsed(MonoDelta(w, r), w.lastWall, r.now, boundary);
    var before := AccountUnlessSuspended(w, split.0, w.lastWall, boundary, record);
    AccountFrame(w, split.0, w.lastWall, boundary, record);
    RollFrame(before, boundary, newDay, r.mono);
    AccountFrame(RollDay(before, boundary, newDay, r.mono).world, split.1, boundary, r.now, record);
  }

  /** Saving when it is due: afterwards either the row is up to date or the last checkpoint is
      recent. */
  lemma SettleLag(w: World, elapsed: real, mono: real)
    requires Linked(w)
    ensures var v := Settle(w, elapsed, mono).world;
            if w.session.Some? && mono - w.lastCheckpoint >= w.cfg.checkpointSeconds as real
            then Lag(v) == 0.0 && v.lastCheckpoint == mono
            else Lag(v) == Lag(w) && v.lastCheckpoint == w.lastCheckpoint
  { }

  /** At the end of a tick the row lags by less than the checkpoint interval plus the carry. */
  lemma TickLag(w: World, r: Reading, carry: real)
    requires Linked(w) && ValidConfig(w.cfg) && w.lastMono <= r.mono
    requires LagWithin(w, carry)
    ensures var v := Tick(w, r).world;
            && LagWithin(v, CarryAfterTick(w, r, carry))
            && Lag(v) < w.cfg.checkpointSeconds as real + CarryAfterTick(w, r, carry)
  {
    NoteClockFrame(w, r);
    var clock := NoteClock(w, r).world;
    NoteClockBooks(w, r, 0);
    ClockLag(w, clock, r, carry);
    AdvanceBooks(clock, r, 0);
    AdvanceFrame(clock, r);
    AdvanceLag(clock, r, carry);
    var advanced := Advance(clock, r).world;
    SettleLag(advanced, MonoDelta(w, r), r.mono);
    SettleFrame(advanced, MonoDelta(w, r), r.mono);
    AnnounceFrame(Elapse(w, r).world, r.now, TakeSnapshot(w, r.now));
  }

  lemma ClockLag(w: World, clock: World, r: Reading, carry: real)
    requires clock == w.(lastOffset := clock.lastOffset) && 0.0 <= carry
    ensures CarryAfterTick(clock, r, carry) == CarryAfterTick(w, r, carry) && 0.0 <= CarryAfterTick(w, r, carry)
    ensures LagWithin(w, carry) ==> LagWithin(clock, carry)
    ensures MonoDelta(clock, r) == MonoDelta(w, r)
  {
    SplitElapsedSums(MonoDelta(w, r), w.lastWall, r.now, DayStart(w.cfg, DayOf(w.cfg, r.now)));
  }

  /** The carry after any input. */
  function CarryAfter(w: World, c: Command, r: Reading, carry: real): real {
    if !TicksFirst(c) then
      if c.DoRestart? || (c.DoResume? && DayOf(w.cfg, r.now) != w.day) then 0.0 else carry
    else
      var ticked := CarryAfterTick(w, r, carry);
      if c.DoUpdateConfig? && DayOf(c.config, r.now) != DayOf(w.cfg, r.now) then 0.0 else ticked
  }

  lemma CloseCurrentLag(w: World, at: int)
    ensures Lag(CloseCurrent(w, at).world) == 0.0
  { }

  lemma SetGameTailLag(t: World, g: Game, r: Reading, carry: real)
    requires Linked(t) && LagWithin(t, carry) && t.lastMono == r.mono
    ensures LagWithin(SetGameTail(t, g, r).world, carry)
  { }

  /** The lag depends on these parts of the state only. */
  lemma SameLag(t: World, v: World, carry: real)
    requires LagWithin(t, carry) && BooksOf(v) == BooksOf(t)
    requires v.lastMono == t.lastMono && v.lastCheckpoint == t.lastCheckpoint
    ensures LagWithin(v, carry)
  { }

  lemma TimerTailClock(t: World, c: Command, r: Reading)
    requires TimerCommand(c)
    ensures var v := Tail(t, c, r).world;
            v.lastMono == t.lastMono && v.lastCheckpoint == t.lastCheckpoint
  {
    if c.DoAdjustTimer? {
      ApplyAdjustmentOnlyTimer(t, c.seconds, r.now);
      AnnounceFrame(ApplyAdjustment(t, c.seconds, r.now), r.now, TakeSnapshot(t, r.now));
    } else if c.DoGrant? {
      AnnounceFrame(ApplyGrant(t, c.seconds, r.now), r.now, TakeSnapshot(t, r.now));
    }
  }

  lemma TimerTailLag(t: World, c: Command, r: Reading, carry: real)
    requires TimerCommand(c) && LagWithin(t, carry)
    ensures LagWithin(Tail(t, c, r).world, carry)
  {
    TimerTailBooks(t, c, r);
    TimerTailClock(t, c, r);
    SameLag(t, Tail(t, c, r).world, carry);
  }

  lemma UpdateConfigTailLag(t: World, c: Config, r: Reading, carry: real)
    requires Linked(t) && 0 <= c.retentionDays && LagWithin(t, carry) && t.lastMono == r.mono
    ensures LagWithin(UpdateConfigTail(t, c, r).world, if DayOf(c, r.now) != t.day then 0.0 else carry)
  {
    SwitchConfigLag(t, c, r, carry);
    UpdateConfigTailFrame(t, c, r);
    SameLag(SwitchConfig(t, c, r).world, UpdateConfigTail(t, c, r).world,
            if DayOf(c, r.now) != t.day then 0.0 else carry);
  }

  lemma SwitchConfigLag(t: World, c: Config, r: Reading, carry: real)
    requires Linked(t) && 0 <= c.retentionDays && LagWithin(t, carry) && t.lastMono == r.mono
    ensures LagWithin(SwitchConfig(t, c, r).world, if DayOf(c, r.now) != t.day then 0.0 else carry)
  {
    SameBooks(t, t.(cfg := c), 0);
    if DayOf(c, r.now) != t.day {
      RollFrame(t.(cfg := c), r.now, DayOf(c, r.now), r.mono);
      RollRow(t.(cfg := c), r.now, DayOf(c, r.now), r.mono);
    }
  }

  lemma TailLag(t: World, c: Command, r: Reading, carry: real)
    requires Linked(t) && TicksFirst(c) && ValidCommand(c)
    requires LagWithin(t, carry) && t.lastMono == r.mono
    ensures LagWithin(Tail(t, c, r).world,
                      if c.DoUpdateConfig? && DayOf(c.config, r.now) != t.day then 0.0 else carry)
  {
    if TimerCommand(c) {
      TimerTailLag(t, c, r, carry);
    } else {
      match c
      case DoSetGame(g) => SetGameTailLag(t, g, r, carry);
      case DoStopGame => CloseCurrentLag(t, r.now);
      case DoUpdateConfig(cfg) => UpdateConfigTailLag(t, cfg, r, carry);
      case DoShutdown =>
    }
  }

  lemma StepLag(w: World, c: Command, r: Reading, carry: real)
    requires Linked(w) && ValidConfig(w.cfg) && ValidCommand(c)
    requires LagWithin(w, carry) && (c.DoRestart? || w.lastMono <= r.mono)
    ensures LagWithin(Step(w, c, r).world, CarryAfter(w, c, r, carry))
  {
    if TicksFirst(c) {
      TickedLag(w, c, r, carry);
    } else {
      UntickedLag(w, c, r, carry);
    }
  }

  lemma TickedLag(w: World, c: Command, r: Reading, carry: real)
    requires Linked(w) && ValidConfig(w.cfg) && ValidCommand(c) && TicksFirst(c)
    requires LagWithin(w, carry) && w.lastMono <= r.mono
    ensures LagWithin(Tail(Tick(w, r).world, c, r).world, CarryAfter(w, c, r, carry))
  {
    TickBooks(w, r, 0);
    TickLag(w, r, carry);
    TailLag(Tick(w, r).world, c, r, CarryAfterTick(w, r, carry));
  }

  lemma UntickedLag(w: World, c: Command, r: Reading, carry: real)
    requires Linked(w) && ValidConfig(w.cfg) && !TicksFirst(c)
    requires LagWithin(w, carry) && (c.DoRestart? || w.lastMono <= r.mono)
    ensures LagWithin(Proper(w, c, r).world, CarryAfter(w, c, r, carry))
  {
    if c.DoResume? {
      ResumeLag(w, r, carry);
    } else {
      RestLag(w, c, r, carry);
    }
  }

  /** A restart, clearing the history, and turning down a malformed game. */
  lemma RestLag(w: World, c: Command, r: Reading, carry: real)
    requires Linked(w) && LagWithin(w, carry) && (c.DoRestart? || c.DoPurge? || (c.DoSetGame? && !TicksFirst(c)))
    ensures LagWithin(Proper(w, c, r).world, if c.DoRestart? then 0.0 else carry)
  { }

  lemma ResumeLag(w: World, r: Reading, carry: real)
    requires Linked(w) && 0 <= w.cfg.retentionDays && LagWithin(w, carry) && w.lastMono <= r.mono
    ensures LagWithin(Resume(w, r).world, if DayOf(w.cfg, r.now) != w.day then 0.0 else carry)
  { }

  // ----- crash and restart

  ghost predicate Sound(w: World, carry: real) {
    Linked(w) && ValidConfig(w.cfg) && TimerGood(w) && LagWithin(w, carry)
  }

  lemma TailConfigValid(t: World, c: Command, r: Reading)
    requires ValidConfig(t.cfg) && ValidCommand(c) && TicksFirst(c)
    ensures ValidConfig(Tail(t, c, r).world.cfg)
  {
    if TimerCommand(c) {
      TimerTailBooks(t, c, r);
    } else {
      match c
      case DoSetGame(g) => SetGameTailFrame(t, g, r);
      case DoStopGame => StopGameTailFrame(t, r);
      case DoUpdateConfig(cfg) => SwitchConfigFrame(t, cfg, r); UpdateConfigTailFrame(t, cfg, r);
      case DoShutdown => ShutdownTailFrame(t, r);
    }
  }

  lemma StepConfigValid(w: World, c: Command, r: Reading)
    requires ValidConfig(w.cfg) && ValidCommand(c) && Linked(w)
    ensures ValidConfig(Step(w, c, r).world.cfg)
  {
    if TicksFirst(c) {
      TickTimerFrame(w, r);
      TailConfigValid(Tick(w, r).world, c, r);
    } else {
      UntickedConfigValid(w, c, r);
    }
  }

  lemma UntickedConfigValid(w: World, c: Command, r: Reading)
    requires ValidConfig(w.cfg) && ValidCommand(c) && !TicksFirst(c)
    ensures ValidConfig(Proper(w, c, r).world.cfg)
  {
    if c.DoResume? {
      ResumeFrame(w, r);
    }
  }

  /** The monotonic clock does not go back, except across a restart of the daemon. */
  ghost predicate Forward(w: World, run: seq<Input>) {
    run == [] ||
    var prefix, last := run[..|run| - 1], run[|run| - 1];
    Forward(w, prefix) && (last.command.DoRestart? || After(w, prefix).lastMono <= last.at.mono)
  }

  /** What is carried after a run. */
  function CarryOver(w: World, run: seq<Input>): real {
    if run == [] then 0.0
    else
      var last := run[|run| - 1];
      CarryAfter(After(w, run[..|run| - 1]), last.command, last.at, CarryOver(w, run[..|run| - 1]))
  }

  /** Every run keeps the state sound: sessions linked, the timer in one of its forms, and the
      stored copies of both within their bounds. */
  lemma {:induction false} RunSound(w: World, run: seq<Input>)
    requires Sound(w, 0.0) && ValidRun(run) && Forward(w, run)
    ensures Sound(After(w, run), CarryOver(w, run))
  {
    if run != [] {
      var prefix, last := run[..|run| - 1], run[|run| - 1];
      assert forall i :: 0 <= i < |prefix| ==> prefix[i] == run[i];
      RunSound(w, prefix);
      StepSound(After(w, prefix), last.command, last.at, CarryOver(w, prefix));
    }
  }

  /** A fresh engine is sound. */
  lemma BeginSound(c: Config, r: Reading)
    requires ValidConfig(c)
    ensures Sound(Begin(c, r), 0.0)
  { }

  /** So every reachable state is sound. */
  lemma ReachableSound(c: Config, r: Reading, run: seq<Input>)
    requires ValidConfig(c) && ValidRun(run) && Forward(Begin(c, r), run)
    ensures Sound(After(Begin(c, r), run), CarryOver(Begin(c, r), run))
  {
    BeginSound(c, r);
    RunSound(Begin(c, r), run);
  }

  lemma StepSound(w: World, c: Command, r: Reading, carry: real)
    requires Sound(w, carry) && ValidCommand(c)
    requires c.DoRestart? || w.lastMono <= r.mono
    ensures Sound(Step(w, c, r).world, CarryAfter(w, c, r, carry))
  {
    StepBooks(w, c, r);
    StepConfigValid(w, c, r);
    StepTimer(w, c, r);
    StepLag(w, c, r, carry);
  }

  lemma RestartRecovers(w: World, c: Config, r: Reading, d: int)
    requires Linked(w) && TimerOk(LoadTimer(w.db)) && KnownGeneration(LoadTimer(w.db), w.db.nextId)
    ensures var v := Startup(w.db, c, r).world;
            var saved := LoadTimer(w.db);
            && UsageForDay(v.db.sessions, d) == LiveUsage(w, d) - (if d == w.day then Lag(w) else 0.0)
            && v.timer == if saved.state == Running then saved.(state := Paused) else saved
  {
    StartupBooks(w.db, c, r, d);
    StartupTimer(w.db, c, r);
    SessionRowUsage(w, d);
  }

  /** A crash at the end of any tick, followed by a restart at any later reading: no day shows
      more play time than was in memory; today falls short by less than the checkpoint interval
      plus what the last roll carried over, other days by nothing; and the timer is as it was,
      not running, with less than the checkpoint interval given back. */
  lemma CrashLosesLittle(u: World, r: Reading, carry: real, c: Config, r': Reading, d: int)
    requires Sound(u, carry) && u.lastMono <= r.mono
    ensures var w := Tick(u, r).world;
            var v := Startup(w.db, c, r').world;
            var recovered := UsageForDay(v.db.sessions, d);
            && recovered <= LiveUsage(w, d)
            && (d == w.day ==> LiveUsage(w, d) - recovered
                               < u.cfg.checkpointSeconds as real + CarryAfterTick(u, r, carry))
            && (d != w.day ==> recovered == LiveUsage(w, d))
            && v.timer.state == (if w.timer.state == Running then Paused else w.timer.state)
            && v.timer.generation == w.timer.generation
            && 0.0 <= v.timer.remaining - w.timer.remaining < u.cfg.checkpointSeconds as real
  {
    TickBooks(u, r, d);
    TickTimer(u, r);
    TickLag(u, r, carry);
    RestartRecovers(Tick(u, r).world, c, r', d);
  }

  /** What is stored of a day differs from what is live by the lag of the open row. */
  lemma SessionRowUsage(w: World, d: int)
    requires Linked(w)
    ensures UsageForDay(w.db.sessions, d) == LiveUsage(w, d) - if d == w.day then Lag(w) else 0.0
  { }
}
