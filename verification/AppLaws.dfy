/** Whose heatmap time it is: seconds by day, block and application key. */
module AppLaws {
  import opened Ledger
  import opened Records
  import opened Storage
  import opened Engine
  import opened Frames
  import opened SessionLaws
  import opened HeatmapLaws
  import opened HistoryLaws
  import Heatmap

  // ----- slices and rows

  /** The stored seconds of a cell under an application key. */
  ghost function Stored(rows: Buckets, c: Cell, key: string): real { TotalOf(rows, c, iset{key}) }

  ghost function Keyed(key: string): iset<Who> { iset who: Who | who.appKey == key }

  /** The pending seconds of a cell under an application key, whatever name goes with it. */
  ghost function Waiting(pending: Pending, c: Cell, key: string): real { TotalOf(pending, c, Keyed(key)) }

  /** Storing slices moves the seconds of each application key, and no others, to its rows. */
  lemma {:induction false} AddBucketsFor(rows: Buckets, entries: Pending, c: Cell, key: string)
    ensures Stored(AddBuckets(rows, entries), c, key) == Stored(rows, c, key) + Waiting(entries, c, key)
    decreases |entries|
  {
    if entries != [] {
      var e := entries[0];
      var row := Entry(e.day, e.index, e.who.appKey, e.seconds);
      TotalOfPut(rows, row, c, iset{key});
      AddBucketsFor(Put(rows, row), entries[1..], c, key);
    }
  }

  lemma {:induction false} AddBucketsDistinct(rows: Buckets, entries: Pending)
    requires Distinct(rows)
    ensures Distinct(AddBuckets(rows, entries))
    decreases |entries|
  {
    if entries != [] {
      var e := entries[0];
      var row := Entry(e.day, e.index, e.who.appKey, e.seconds);
      PutDistinct(rows, row);
      AddBucketsDistinct(Put(rows, row), entries[1..]);
    }
  }

  lemma {:induction false} RetainedFor(rows: Buckets, cutoffDay: int, c: Cell, key: string)
    ensures Stored(RetainBuckets(rows, cutoffDay), c, key) == if c.day < cutoffDay then 0.0 else Stored(rows, c, key)
  {
    if rows != [] {
      var rest, kept := rows[1..], RetainBuckets(rows[1..], cutoffDay);
      RetainedFor(rest, cutoffDay, c, key);
      if rows[0].day < cutoffDay {
        assert RetainBuckets(rows, cutoffDay) == kept;
      } else {
        assert RetainBuckets(rows, cutoffDay) == [rows[0]] + kept;
        assert ([rows[0]] + kept)[1..] == kept;
      }
    }
  }

  lemma {:induction false} RetainedIsPart(rows: Buckets, cutoffDay: int, x: Entry<string>)
    requires x in RetainBuckets(rows, cutoffDay)
    ensures exists i :: 0 <= i < |rows| && rows[i] == x
  {
    if rows[0].day < cutoffDay || x != rows[0] {
      RetainedIsPart(rows[1..], cutoffDay, x);
      var i :| 0 <= i < |rows[1..]| && rows[1..][i] == x;
      assert rows[i + 1] == x;
    }
  }

  lemma {:induction false} RetainedDistinct(rows: Buckets, cutoffDay: int)
    requires Distinct(rows)
    ensures Distinct(RetainBuckets(rows, cutoffDay))
  {
    if rows != [] {
      var rest, kept := rows[1..], RetainBuckets(rows[1..], cutoffDay);
      RetainedDistinct(rest, cutoffDay);
      forall j | 0 <= j < |kept| ensures !SameKey(rows[0], kept[j]) {
        RetainedIsPart(rest, cutoffDay, kept[j]);
        var i :| 0 <= i < |rest| && rest[i] == kept[j];
        assert rows[i + 1] == kept[j];
      }
      assert RetainBuckets(rows, cutoffDay) == if rows[0].day < cutoffDay then kept else [rows[0]] + kept;
    }
  }

  // ----- the engine

  /** Heatmap seconds of a cell under an application key, whether still pending or already stored. */
  ghost function HeatOf(w: World, c: Cell, key: string): real {
    Waiting(w.pending, c, key) + Stored(w.db.buckets, c, key)
  }

  lemma SameHeatOf(w: World, v: World, c: Cell, key: string)
    requires v.pending == w.pending && v.db.buckets == w.db.buckets
    ensures HeatOf(v, c, key) == HeatOf(w, c, key)
  { }

  /** A flush moves seconds from pending to stored; no application gains or loses any. */
  lemma FlushFor(w: World, c: Cell, key: string)
    ensures HeatOf(Flush(w), c, key) == HeatOf(w, c, key) && Flush(w).pending == []
  {
    AddBucketsFor(w.db.buckets, w.pending, c, key);
  }

  /** What a stretch of play adds to a cell when it is filed under accounting day `day`. */
  ghost function Filed(c: Config, cell: Cell, day: int, start: int, end: int, seconds: real): real {
    if start < end && seconds > 0.0
    then Heatmap.Portion(seconds, Heatmap.InstantsIn(c.zone, cell, day, start, end), end - start) else 0.0
  }

  /** The game that is on goes by this key in the heatmap. */
  predicate OnAs(w: World, key: string) { w.game.Some? && Heatmap.NamedInHeatmap(w.game.value).appKey == key }

  lemma AccountFor(w: World, seconds: real, start: int, end: int, record: bool, c: Cell, key: string)
    requires c.WholeDay? || Heatmap.RegularBlocks(w.cfg.zone)
    ensures HeatOf(Account(w, seconds, start, end, record), c, key) ==
            HeatOf(w, c, key)
            + if OnAs(w, key) && record then Filed(w.cfg, c, w.day, start, end, seconds) else 0.0
  {
    if w.game.Some? && seconds > 0.0 && record && start < end {
      Heatmap.QueueFor(w.cfg.zone, w.game.value, w.day, start, end, seconds, w.pending, c, Keyed(key));
    }
  }

  lemma RollFor(w: World, at: int, newDay: int, mono: real, c: Cell, key: string)
    requires Linked(w)
    ensures var v := RollDay(w, at, newDay, mono).world;
            HeatOf(v, c, key) == if c.day < HorizonDay(w.cfg, at) then 0.0 else HeatOf(w, c, key)
  {
    var rotated := RotateSession(w, at, newDay, mono).world;
    if w.session.Some? {
      FlushFor(w, c, key);
      assert rotated.db.buckets == Flush(w).db.buckets && rotated.pending == [];
    }
    RetainedFor(rotated.db.buckets, HorizonDay(w.cfg, at), c, key);
    assert RollDay(w, at, newDay, mono).world.db.buckets == RetainBuckets(rotated.db.buckets, HorizonDay(w.cfg, at));
  }

  lemma PersistFor(w: World, mono: real, c: Cell, key: string)
    ensures HeatOf(PersistSession(w, mono), c, key) == HeatOf(w, c, key)
  {
    if w.session.Some? && mono - w.lastCheckpoint >= w.cfg.checkpointSeconds as real {
      var saved := w.(db := CheckpointSession(w.db, w.session.value, w.duration));
      FlushFor(saved, c, key);
      SameHeatOf(w, saved, c, key);
      SameHeatOf(Flush(saved), PersistSession(w, mono), c, key);
    }
  }

  /** What a tick adds to a cell: all of its time under the day that goes on, or the time up to the reset
      under the old day and the rest under the new one. */
  ghost function FiledByTick(w: World, r: Reading, c: Cell): real {
    var newDay, elapsed := DayOf(w.cfg, r.now), MonoDelta(w, r);
    if newDay == w.day then Filed(w.cfg, c, w.day, w.lastWall, r.now, elapsed)
    else
      var boundary := DayStart(w.cfg, newDay);
      var split := SplitElapsed(elapsed, w.lastWall, r.now, boundary);
      Filed(w.cfg, c, w.day, w.lastWall, boundary, split.0) + Filed(w.cfg, c, newDay, boundary, r.now, split.1)
  }

  lemma NewDayFor(w: World, seconds: real, start: int, end: int, record: bool, c: Cell, key: string)
    requires c.WholeDay? || Heatmap.RegularBlocks(w.cfg.zone)
    ensures var v := if w.suspended then w else Flush(Account(w, seconds, start, end, record));
            HeatOf(v, c, key) ==
            HeatOf(w, c, key)
            + if !w.suspended && OnAs(w, key) && record then Filed(w.cfg, c, w.day, start, end, seconds) else 0.0
  {
    AccountFor(w, seconds, start, end, record, c, key);
    FlushFor(Account(w, seconds, start, end, record), c, key);
  }

  lemma AdvanceFor(w: World, r: Reading, c: Cell, key: string)
    requires Linked(w) && KeepsBuckets(w, r, c.day) && (c.WholeDay? || Heatmap.RegularBlocks(w.cfg.zone))
    ensures HeatOf(Advance(w, r).world, c, key) ==
            HeatOf(w, c, key) + if OnAs(w, key) && Reliable(w, r) then FiledByTick(w, r, c) else 0.0
  {
    var newDay := DayOf(w.cfg, r.now);
    var record, elapsed := Reliable(w, r), MonoDelta(w, r);
    if newDay == w.day {
      AccountFor(w, elapsed, w.lastWall, r.now, record, c, key);
    } else {
      var boundary := DayStart(w.cfg, newDay);
      var split := SplitElapsed(elapsed, w.lastWall, r.now, boundary);
      var before := AccountUnlessSuspended(w, split.0, w.lastWall, boundary, record);
      AccountBooks(w, split.0, w.lastWall, boundary, record, 0);
      AccountFor(w, split.0, w.lastWall, boundary, record, c, key);
      RollFor(before, boundary, newDay, r.mono, c, key);
      RollFrame(before, boundary, newDay, r.mono);
      NewDayFor(RollDay(before, boundary, newDay, r.mono).world, split.1, boundary, r.now, record, c, key);
    }
  }

  /** Notes about the clocks change nothing that the filing looks at. */
  lemma ClockFor(w: World, r: Reading, c: Cell, key: string)
    ensures var clock := NoteClock(w, r).world;
            && HeatOf(clock, c, key) == HeatOf(w, c, key) && FiledByTick(clock, r, c) == FiledByTick(w, r, c)
            && (OnAs(clock, key) <==> OnAs(w, key)) && (Reliable(clock, r) <==> Reliable(w, r))
            && (KeepsBuckets(clock, r, c.day) <==> KeepsBuckets(w, r, c.day))
  { }

  lemma SettleFor(w: World, elapsed: real, mono: real, c: Cell, key: string)
    ensures HeatOf(Settle(w, elapsed, mono).world, c, key) == HeatOf(w, c, key)
  {
    SettleFrame(w, elapsed, mono);
    PersistFor(w, mono, c, key);
    SameHeatOf(PersistSession(w, mono), Settle(w, elapsed, mono).world, c, key);
  }

  lemma ElapseFor(w: World, r: Reading, c: Cell, key: string)
    requires Linked(w) && KeepsBuckets(w, r, c.day) && (c.WholeDay? || Heatmap.RegularBlocks(w.cfg.zone))
    ensures HeatOf(Elapse(w, r).world, c, key) ==
            HeatOf(w, c, key) + if OnAs(w, key) && Reliable(w, r) then FiledByTick(w, r, c) else 0.0
  {
    NoteClockBooks(w, r, 0);
    ClockFor(w, r, c, key);
    var clock := NoteClock(w, r).world;
    AdvanceFor(clock, r, c, key);
    var settled := Settle(Advance(clock, r).world, MonoDelta(w, r), r.mono).world;
    SettleFor(Advance(clock, r).world, MonoDelta(w, r), r.mono, c, key);
    SameHeatOf(settled, Elapse(w, r).world, c, key);
  }

  /** A tick whose clocks agree files its play time under the key of the game that is on: under its id, or
      under its folded name if the id is missing, empty or zero. Every other key keeps what it has. */
  lemma TickFor(w: World, r: Reading, c: Cell, key: string)
    requires Linked(w) && KeepsBuckets(w, r, c.day) && (c.WholeDay? || Heatmap.RegularBlocks(w.cfg.zone))
    ensures HeatOf(Tick(w, r).world, c, key) ==
            HeatOf(w, c, key) + if OnAs(w, key) && Reliable(w, r) then FiledByTick(w, r, c) else 0.0
  {
    ElapseFor(w, r, c, key);
    AnnounceFrame(Elapse(w, r).world, r.now, TakeSnapshot(w, r.now));
    SameHeatOf(Elapse(w, r).world, Tick(w, r).world, c, key);
  }

  // ----- one entry for each key

  /** No two slices, and no two rows, are for the same day, block and application. */
  ghost predicate OneEach(w: World) { Distinct(w.pending) && Distinct(w.db.buckets) }

  lemma FlushOneEach(w: World)
    requires OneEach(w)
    ensures OneEach(Flush(w))
  {
    AddBucketsDistinct(w.db.buckets, w.pending);
  }

  lemma AccountOneEach(w: World, seconds: real, start: int, end: int, record: bool)
    requires OneEach(w)
    ensures OneEach(Account(w, seconds, start, end, record))
  {
    if w.game.Some? {
      Heatmap.QueueDistinct(w.cfg.zone, w.game.value, w.day, start, end, seconds, w.pending);
    }
  }

  lemma RollOneEach(w: World, at: int, newDay: int, mono: real)
    requires OneEach(w)
    ensures OneEach(RollDay(w, at, newDay, mono).world)
  {
    FlushOneEach(w);
    var rotated := RotateSession(w, at, newDay, mono).world;
    RetainedDistinct(rotated.db.buckets, HorizonDay(w.cfg, at));
    assert RollDay(w, at, newDay, mono).world.db.buckets == RetainBuckets(rotated.db.buckets, HorizonDay(w.cfg, at));
  }

  lemma AdvanceOneEach(w: World, r: Reading)
    requires OneEach(w)
    ensures OneEach(Advance(w, r).world)
  {
    var newDay := DayOf(w.cfg, r.now);
    var record, elapsed := Reliable(w, r), MonoDelta(w, r);
    if newDay == w.day {
      AccountOneEach(w, elapsed, w.lastWall, r.now, record);
    } else {
      var boundary := DayStart(w.cfg, newDay);
      var split := SplitElapsed(elapsed, w.lastWall, r.now, boundary);
      var before := AccountUnlessSuspended(w, split.0, w.lastWall, boundary, record);
      AccountOneEach(w, split.0, w.lastWall, boundary, record);
      RollOneEach(before, boundary, newDay, r.mono);
      var rolled := RollDay(before, boundary, newDay, r.mono).world;
      AccountOneEach(rolled, split.1, boundary, r.now, record);
      FlushOneEach(Account(rolled, split.1, boundary, r.now, record));
    }
  }

  lemma TickOneEach(w: World, r: Reading)
    requires OneEach(w)
    ensures OneEach(Tick(w, r).world)
  {
    NoteClockFrame(w, r);
    var clock := NoteClock(w, r).world;
    AdvanceOneEach(clock, r);
    var advanced := Advance(clock, r).world;
    SettleFrame(advanced, MonoDelta(w, r), r.mono);
    PersistOneEach(advanced, r.mono);
    AnnounceFrame(Elapse(w, r).world, r.now, TakeSnapshot(w, r.now));
  }

  lemma PersistOneEach(w: World, mono: real)
    requires OneEach(w)
    ensures OneEach(PersistSession(w, mono))
  {
    FlushOneEach(w.(db := CheckpointSession(w.db, if w.session.Some? then w.session.value else 0, w.duration)));
  }

  lemma CloseCurrentOneEach(w: World, at: int)
    requires OneEach(w)
    ensures OneEach(CloseCurrent(w, at).world)
  {
    FlushOneEach(w);
  }

  lemma GameTailOneEach(t: World, c: Command, r: Reading)
    requires OneEach(t) && TicksFirst(c) && (c.DoSetGame? || c.DoStopGame? || c.DoShutdown?)
    ensures OneEach(Tail(t, c, r).world)
  {
    CloseCurrentOneEach(t, r.now);
    if c.DoShutdown? && t.session.Some? {
      CloseCurrentOneEach(t.(db := CheckpointSession(t.db, t.session.value, t.duration)), r.now);
    }
  }

  lemma UpdateOneEach(t: World, c: Config, r: Reading)
    requires OneEach(t)
    ensures OneEach(UpdateConfigTail(t, c, r).world)
  {
    RollOneEach(t.(cfg := c), r.now, DayOf(c, r.now), r.mono);
    UpdateConfigTailFrame(t, c, r);
  }

  lemma ResumeOneEach(w: World, r: Reading)
    requires OneEach(w)
    ensures OneEach(Resume(w, r).world)
  {
    RollOneEach(w.(lastWall := r.now, lastMono := r.mono), r.now, DayOf(w.cfg, r.now), r.mono);
  }

  lemma ProperOneEach(t: World, c: Command, r: Reading)
    requires OneEach(t)
    ensures OneEach(Proper(t, c, r).world)
  {
    if TimerCommand(c) {
      TimerTailBooks(t, c, r);
    } else if c.DoUpdateConfig? {
      UpdateOneEach(t, c.config, r);
    } else if c.DoResume? {
      ResumeOneEach(t, r);
    } else if TicksFirst(c) {
      GameTailOneEach(t, c, r);
    } else {
      RestOneEach(t, c, r);
    }
  }

  /** Clearing the history, a restart, and turning down a malformed game. */
  lemma RestOneEach(t: World, c: Command, r: Reading)
    requires OneEach(t) && !TicksFirst(c) && !c.DoResume?
    ensures OneEach(Proper(t, c, r).world)
  { }

  /** Whatever happens, each application has one slice and one row at most for a day and block. */
  lemma StepOneEach(w: World, c: Command, r: Reading)
    requires OneEach(w)
    ensures OneEach(Step(w, c, r).world)
  {
    TickOneEach(w, r);
    ProperOneEach(Ticked(w, c, r).world, c, r);
    StepFromTicked(w, c, r);
  }

  lemma {:induction false} RunOneEach(w: World, run: seq<Input>)
    requires OneEach(w)
    ensures OneEach(After(w, run))
  {
    if run != [] {
      var prefix, last := run[..|run| - 1], run[|run| - 1];
      RunOneEach(w, prefix);
      StepOneEach(After(w, prefix), last.command, last.at);
    }
  }

  lemma ReachableOneEach(c: Config, r: Reading, run: seq<Input>)
    ensures OneEach(After(Begin(c, r), run))
  {
    assert OneEach(Begin(c, r));
    RunOneEach(Begin(c, r), run);
  }
}
