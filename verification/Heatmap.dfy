/** Cutting a stretch of active time at the four-hour boundaries of the local clock. */
module Heatmap {
  import opened Basics
  import opened Zones
  import opened Ledger
  import opened Records

  const BLOCK_HOURS := 4
  const BLOCK := 14_400_000_000
  const PROBES := 242

  /** Blocks of the local clock, numbered without end; a block's index within its day is the
      number modulo six. */
  function BlockNumber(z: Zone, t: int): int { Local(z, t) / BLOCK }

  function BlockIndex(z: Zone, t: int): int { (Local(z, t) % DAY) / BLOCK }

  function BlockReading(n: int): int { n * BLOCK }

  /** Looks for the first whole minute at which the local block has changed. */
  function Probe(z: Zone, value: int, block: int, probe: int, tries: nat): (t: int)
    requires value < probe
    ensures value < t
    decreases tries
  {
    if tries == 0 then value + SECOND
    else if BlockNumber(z, probe) != block then probe
    else Probe(z, value, block, probe + MINUTE, tries - 1)
  }

  /** The clock value at which the next block is due to begin. */
  function NextTarget(local: int): int {
    var index := (local % DAY) / BLOCK;
    if (index + 1) * BLOCK_HOURS >= 24 then (local / DAY + 1) * DAY else local / DAY * DAY + (index + 1) * BLOCK
  }

  function NextBoundary(z: Zone, value: int): (t: int)
    ensures value < t
  {
    var candidate := ToUtc(z, NextTarget(Local(z, value)));
    if value < candidate then candidate
    else Probe(z, value, BlockNumber(z, value), value - value % MINUTE + MINUTE, PROBES)
  }

  /** The share of `seconds` that falls to `part` of a stretch of length `whole`. */
  function Portion(seconds: real, part: int, whole: int): real
    requires 0 < whole
  {
    seconds * (part as real) / (whole as real)
  }

  /** What the allocation loop still does from `cursor` on. */
  function Allocate(z: Zone, who: Who, day: int, start: int, end: int, seconds: real,
                    cursor: int, remaining: real, pending: Pending): Pending
    requires start < end
    decreases end - cursor
  {
    if cursor < end && remaining > 0.0 then
      var segmentEnd := Min(NextBoundary(z, cursor), end);
      var share := if segmentEnd == end then remaining
                       else Portion(seconds, segmentEnd - cursor, end - start);
      var left := if segmentEnd == end then remaining else MaxReal(0.0, remaining - share);
      Allocate(z, who, day, start, end, seconds, segmentEnd, left,
               Put(pending, Entry(day, BlockIndex(z, cursor), who, share)))
    else pending
  }

  /** Queues `seconds` of play between two instants under accounting day `day`. */
  function Queue(z: Zone, game: Game, day: int, start: int, end: int, seconds: real, pending: Pending): Pending {
    if end <= start || seconds <= 0.0 then pending
    else Allocate(z, WhoIs(game), day, start, end, seconds, start, seconds, pending)
  }

  // ----- what the allocation amounts to

  /** How many of the instants from `a` up to but not including `b` belong to the cell, when
      filed under accounting day `day`. */
  function InstantsIn(z: Zone, c: Cell, day: int, a: int, b: int): nat
    decreases b - a
  {
    if b <= a then 0
    else (if Selects(c, day, BlockIndex(z, a)) then 1 else 0) + InstantsIn(z, c, day, a + 1, b)
  }

  /** No transition skips or repeats a block boundary of the local clock. */
  ghost predicate RegularBlocks(z: Zone) {
    WellSpaced(z) && forall n :: RegularAt(z, BlockReading(n))
  }

  lemma FixedOffsetBlocks(z: Zone)
    requires z.transitions == []
    ensures RegularBlocks(z)
  { }

  lemma PortionAdds(seconds: real, a: int, b: int, whole: int)
    requires 0 < whole
    ensures Portion(seconds, a, whole) + Portion(seconds, b, whole) == Portion(seconds, a + b, whole)
  { }

  lemma PortionPositive(seconds: real, part: int, whole: int)
    requires 0 < whole && seconds > 0.0
    ensures Portion(seconds, part, whole) > 0.0 <==> part > 0
    ensures Portion(seconds, whole, whole) == seconds
    ensures Portion(seconds, 0, whole) == 0.0
  { }

  lemma BlocksOfDay(z: Zone, t: int)
    ensures BlockIndex(z, t) == BlockNumber(z, t) % 6
    ensures 0 <= BlockIndex(z, t) < 6
  { }

  lemma BlockReached(z: Zone, t: int, n: int)
    requires RegularBlocks(z)
    ensures n <= BlockNumber(z, t) <==> ToUtc(z, BlockReading(n)) <= t
  {
    assert RegularAt(z, BlockReading(n));
    Crossing(z, BlockReading(n), t);
  }

  /** In a zone with regular blocks the boundary is the first instant of the next block, and the
      minute-by-minute search is never needed. */
  lemma NextBoundaryExact(z: Zone, value: int, t: int)
    requires RegularBlocks(z) && value <= t
    ensures t < NextBoundary(z, value) <==> BlockNumber(z, t) == BlockNumber(z, value)
  {
    var n := BlockNumber(z, value);
    BlocksOfDay(z, value);
    var local := Local(z, value);
    assert local / BLOCK == local / DAY * 6 + BlockIndex(z, value);
    BlockReached(z, value, n);
    BlockReached(z, value, n + 1);
    BlockReached(z, t, n);
    BlockReached(z, t, n + 1);
    assert NextBoundary(z, value) == ToUtc(z, BlockReading(n + 1));
  }

  lemma {:induction false} InstantsSplit(z: Zone, c: Cell, day: int, a: int, b: int, e: int)
    requires a <= b <= e
    ensures InstantsIn(z, c, day, a, e) == InstantsIn(z, c, day, a, b) + InstantsIn(z, c, day, b, e)
    decreases b - a
  {
    if a < b {
      InstantsSplit(z, c, day, a + 1, b, e);
    }
  }

  lemma {:induction false} InstantsUniform(z: Zone, c: Cell, day: int, a: int, b: int, selected: bool)
    requires a <= b
    requires forall t :: a <= t < b ==> Selects(c, day, BlockIndex(z, t)) == selected
    ensures InstantsIn(z, c, day, a, b) == if selected then b - a else 0
    decreases b - a
  {
    if a < b {
      InstantsUniform(z, c, day, a + 1, b, selected);
    }
  }

  /** All instants of a segment are filed where its first instant is. */
  lemma SegmentInstants(z: Zone, c: Cell, day: int, a: int, b: int)
    requires a < b <= NextBoundary(z, a)
    requires c.WholeDay? || RegularBlocks(z)
    ensures InstantsIn(z, c, day, a, b) == if Selects(c, day, BlockIndex(z, a)) then b - a else 0
  {
    forall t | a <= t < b
      ensures Selects(c, day, BlockIndex(z, t)) == Selects(c, day, BlockIndex(z, a))
    {
      if c.OneBlock? {
        NextBoundaryExact(z, a, t);
        BlocksOfDay(z, a);
        BlocksOfDay(z, t);
      }
    }
    InstantsUniform(z, c, day, a, b, Selects(c, day, BlockIndex(z, a)));
  }

  /** One turn of the loop: its share goes to the cell of its first instant, and the rest is left. */
  lemma ShareExact(z: Zone, c: Cell, day: int, start: int, end: int, seconds: real, cursor: int, next: int)
    requires start <= cursor < next <= end && next <= NextBoundary(z, cursor) && seconds > 0.0
    requires c.WholeDay? || RegularBlocks(z)
    ensures var whole := end - start;
            && Portion(seconds, InstantsIn(z, c, day, cursor, end), whole) ==
               (if Selects(c, day, BlockIndex(z, cursor)) then Portion(seconds, next - cursor, whole) else 0.0)
               + Portion(seconds, InstantsIn(z, c, day, next, end), whole)
            && Portion(seconds, end - cursor, whole) ==
               Portion(seconds, next - cursor, whole) + Portion(seconds, end - next, whole)
            && (Portion(seconds, end - next, whole) > 0.0 <==> next < end)
            && Portion(seconds, end - cursor, whole) > 0.0
  {
    SegmentInstants(z, c, day, cursor, next);
    InstantsSplit(z, c, day, cursor, next, end);
    PortionAdds(seconds, InstantsIn(z, c, day, cursor, next), InstantsIn(z, c, day, next, end), end - start);
    PortionAdds(seconds, next - cursor, end - next, end - start);
    PortionPositive(seconds, end - next, end - start);
    PortionPositive(seconds, end - cursor, end - start);
  }

  lemma {:induction false} AllocateExact(z: Zone, who: Who, day: int, start: int, end: int, seconds: real,
                                         cursor: int, remaining: real, pending: Pending, c: Cell)
    requires start <= cursor < end && seconds > 0.0
    requires remaining == Portion(seconds, end - cursor, end - start)
    requires c.WholeDay? || RegularBlocks(z)
    ensures Total(Allocate(z, who, day, start, end, seconds, cursor, remaining, pending), c) ==
            Total(pending, c) + Portion(seconds, InstantsIn(z, c, day, cursor, end), end - start)
    decreases end - cursor
  {
    var segmentEnd := Min(NextBoundary(z, cursor), end);
    var share := Portion(seconds, segmentEnd - cursor, end - start);
    var entry := Entry(day, BlockIndex(z, cursor), who, share);
    ShareExact(z, c, day, start, end, seconds, cursor, segmentEnd);
    TotalPut(pending, entry, c);
    if segmentEnd < end {
      AllocateExact(z, who, day, start, end, seconds, segmentEnd, remaining - share, Put(pending, entry), c);
    }
  }

  /** Queueing a stretch adds exactly its seconds to the accounting day and nothing to any other
      day; and, in a zone with regular blocks, adds to each four-hour block the seconds times
      the fraction of the stretch that lies in the block. */
  lemma QueueExact(z: Zone, game: Game, day: int, start: int, end: int, seconds: real, pending: Pending, c: Cell)
    requires start < end && seconds > 0.0
    requires c.WholeDay? || RegularBlocks(z)
    ensures Total(Queue(z, game, day, start, end, seconds, pending), c) ==
            Total(pending, c) + Portion(seconds, InstantsIn(z, c, day, start, end), end - start)
    ensures c.WholeDay? ==>
              Total(Queue(z, game, day, start, end, seconds, pending), c) ==
              Total(pending, c) + if c.day == day then seconds else 0.0
  {
    PortionPositive(seconds, end - start, end - start);
    AllocateExact(z, WhoIs(game), day, start, end, seconds, start, seconds, pending, c);
    if c.WholeDay? {
      InstantsUniform(z, c, day, start, end, c.day == day);
    }
  }

  /** At a fixed offset every block gets its fraction without any further hypothesis. */
  lemma FixedOffsetQueue(z: Zone, game: Game, day: int, start: int, end: int, seconds: real, pending: Pending, c: Cell)
    requires z.transitions == [] && start < end && seconds > 0.0
    ensures Total(Queue(z, game, day, start, end, seconds, pending), c) ==
            Total(pending, c) + Portion(seconds, InstantsIn(z, c, day, start, end), end - start)
  {
    FixedOffsetBlocks(z);
    QueueExact(z, game, day, start, end, seconds, pending, c);
  }

  lemma {:induction false} AllocateAcceptable(z: Zone, who: Who, day: int, start: int, end: int, seconds: real,
                                              cursor: int, remaining: real, pending: Pending)
    requires start <= cursor < end && seconds > 0.0
    requires Acceptable(pending)
    ensures Acceptable(Allocate(z, who, day, start, end, seconds, cursor, remaining, pending))
    decreases end - cursor
  {
    if remaining > 0.0 {
      var segmentEnd := Min(NextBoundary(z, cursor), end);
      var share := if segmentEnd == end then remaining
                       else Portion(seconds, segmentEnd - cursor, end - start);
      PortionPositive(seconds, segmentEnd - cursor, end - start);
      BlocksOfDay(z, cursor);
      var next := Put(pending, Entry(day, BlockIndex(z, cursor), who, share));
      PutAcceptable(pending, Entry(day, BlockIndex(z, cursor), who, share));
      if segmentEnd < end {
        AllocateAcceptable(z, who, day, start, end, seconds, segmentEnd,
                           MaxReal(0.0, remaining - share), next);
      }
    }
  }

  /** Every queued slice is positive and names one of the six blocks, in any zone, so the
      storage layer takes it. */
  lemma QueueAcceptable(z: Zone, game: Game, day: int, start: int, end: int, seconds: real, pending: Pending)
    requires Acceptable(pending)
    ensures Acceptable(Queue(z, game, day, start, end, seconds, pending))
  {
    if start < end && seconds > 0.0 {
      AllocateAcceptable(z, WhoIs(game), day, start, end, seconds, start, seconds, pending);
    }
  }

  // ----- whose time is queued

  /** The block of an instant is the hour of the local clock divided by four. */
  lemma BlockIndexExact(z: Zone, t: int)
    ensures BlockIndex(z, t) == ((t + OffsetAt(z, t)) / 3_600_000_000 % 24) / 4
  {
    HourOfDay(Local(z, t));
  }

  lemma HourOfDay(local: int)
    ensures (local % DAY) / BLOCK == (local / 3_600_000_000 % 24) / 4
  {
    var day, rest := local / DAY, local % DAY;
    var hour := rest / 3_600_000_000;
    assert local == day * DAY + rest;
    assert local / 3_600_000_000 == day * 24 + hour && 0 <= hour < 24;
    assert (day * 24 + hour) % 24 == hour;
    assert rest / BLOCK == hour / 4;
  }

  /** The name under which a game's time is queued. */
  function NamedInHeatmap(g: Game): Who {
    Who(if g.appId == None || g.appId == Some("") || g.appId == Some("0") then "name:" + g.folded
        else "app:" + g.appId.value, g.appId, g.name)
  }

  lemma {:induction false} AllocateFor(z: Zone, who: Who, day: int, start: int, end: int, seconds: real,
                                       cursor: int, remaining: real, pending: Pending, c: Cell, keys: iset<Who>)
    requires start <= cursor < end && seconds > 0.0
    requires remaining == Portion(seconds, end - cursor, end - start)
    requires c.WholeDay? || RegularBlocks(z)
    ensures TotalOf(Allocate(z, who, day, start, end, seconds, cursor, remaining, pending), c, keys) ==
            TotalOf(pending, c, keys)
            + if who in keys then Portion(seconds, InstantsIn(z, c, day, cursor, end), end - start) else 0.0
    decreases end - cursor
  {
    var segmentEnd := Min(NextBoundary(z, cursor), end);
    var share := Portion(seconds, segmentEnd - cursor, end - start);
    var entry := Entry(day, BlockIndex(z, cursor), who, share);
    ShareExact(z, c, day, start, end, seconds, cursor, segmentEnd);
    TotalOfPut(pending, entry, c, keys);
    if segmentEnd < end {
      AllocateFor(z, who, day, start, end, seconds, segmentEnd, remaining - share, Put(pending, entry), c, keys);
    }
  }

  /** The portion is to the seconds as the part is to the whole. */
  lemma PortionExact(seconds: real, part: int, whole: int)
    requires 0 < whole
    ensures Portion(seconds, part, whole) * (whole as real) == seconds * (part as real)
  { }

  /** Queueing adds the cell's portion of the seconds to the game that was played, under its id, or under
      its folded name if the id is missing, empty or zero, and to no other. */
  lemma QueueFor(z: Zone, game: Game, day: int, start: int, end: int, seconds: real, pending: Pending, c: Cell,
                 keys: iset<Who>)
    requires start < end && seconds > 0.0
    requires c.WholeDay? || RegularBlocks(z)
    ensures TotalOf(Queue(z, game, day, start, end, seconds, pending), c, keys) ==
            TotalOf(pending, c, keys)
            + if NamedInHeatmap(game) in keys
              then Portion(seconds, InstantsIn(z, c, day, start, end), end - start) else 0.0
  {
    PortionPositive(seconds, end - start, end - start);
    assert WhoIs(game) == NamedInHeatmap(game);
    AllocateFor(z, WhoIs(game), day, start, end, seconds, start, seconds, pending, c, keys);
  }

  /** All of them go to the accounting day. */
  lemma QueueForDay(z: Zone, game: Game, day: int, start: int, end: int, seconds: real, pending: Pending, d: int,
                    keys: iset<Who>)
    requires start < end && seconds > 0.0
    ensures TotalOf(Queue(z, game, day, start, end, seconds, pending), WholeDay(d), keys) ==
            TotalOf(pending, WholeDay(d), keys) + if NamedInHeatmap(game) in keys && d == day then seconds else 0.0
  {
    QueueFor(z, game, day, start, end, seconds, pending, WholeDay(d), keys);
    InstantsUniform(z, WholeDay(d), day, start, end, d == day);
    PortionPositive(seconds, end - start, end - start);
  }

  lemma {:induction false} AllocateDistinct(z: Zone, who: Who, day: int, start: int, end: int, seconds: real,
                                            cursor: int, remaining: real, pending: Pending)
    requires start < end && Distinct(pending)
    ensures Distinct(Allocate(z, who, day, start, end, seconds, cursor, remaining, pending))
    decreases end - cursor
  {
    if cursor < end && remaining > 0.0 {
      var segmentEnd := Min(NextBoundary(z, cursor), end);
      var share := if segmentEnd == end then remaining else Portion(seconds, segmentEnd - cursor, end - start);
      var left := if segmentEnd == end then remaining else MaxReal(0.0, remaining - share);
      PutDistinct(pending, Entry(day, BlockIndex(z, cursor), who, share));
      AllocateDistinct(z, who, day, start, end, seconds, segmentEnd, left,
                       Put(pending, Entry(day, BlockIndex(z, cursor), who, share)));
    }
  }

  /** No two queued slices share day, block and game. */
  lemma QueueDistinct(z: Zone, game: Game, day: int, start: int, end: int, seconds: real, pending: Pending)
    requires Distinct(pending)
    ensures Distinct(Queue(z, game, day, start, end, seconds, pending))
  {
    if start < end && seconds > 0.0 {
      AllocateDistinct(z, WhoIs(game), day, start, end, seconds, start, seconds, pending);
    }
  }
}
