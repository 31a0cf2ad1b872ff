/** The five tables the engine writes, as values with one function per statement, and the storage
    object whose methods carry the statements out. `nextId` stands for the supply of fresh
    UUIDs. */
module Storage {
  import opened Basics
  import opened Zones
  import opened Ledger
  import opened Records

  datatype Tables = Tables(
    sessions: seq<Session>,
    adjustments: seq<Adjustment>,
    marks: map<Mark, int>,
    timer: Option<Timer>,
    buckets: Buckets,
    nextId: nat)

  const EMPTY_TABLES := Tables([], [], map[], None, [], 0)

  datatype StorageError = AlreadyOpen | NotOpen | OutOfRange | SessionActive

  // ----- statements

  predicate AnyOpen(rows: seq<Session>) {
    exists i :: 0 <= i < |rows| && rows[i].ended.None?
  }

  function OpenSession(db: Tables, day: int, game: Game): Tables {
    db.(sessions := db.sessions + [Session(db.nextId, day, game, None, 0.0)], nextId := db.nextId + 1)
  }

  function CheckpointRow(r: Session, id: nat, duration: real): Session {
    if r.id == id && r.ended.None? then r.(duration := MaxReal(0.0, duration)) else r
  }

  function CheckpointRows(rows: seq<Session>, id: nat, duration: real): seq<Session> {
    seq(|rows|, i requires 0 <= i < |rows| => CheckpointRow(rows[i], id, duration))
  }

  function CheckpointSession(db: Tables, id: nat, duration: real): Tables {
    db.(sessions := CheckpointRows(db.sessions, id, duration))
  }

  function CloseRow(r: Session, id: nat, duration: real, at: int): Session {
    if r.id == id && r.ended.None? then r.(ended := Some(at), duration := MaxReal(0.0, duration)) else r
  }

  function CloseRows(rows: seq<Session>, id: nat, duration: real, at: int): seq<Session> {
    seq(|rows|, i requires 0 <= i < |rows| => CloseRow(rows[i], id, duration, at))
  }

  function CloseSession(db: Tables, id: nat, duration: real, at: int): Tables {
    db.(sessions := CloseRows(db.sessions, id, duration, at))
  }

  /** The first open row, if any. */
  function FindOpen(rows: seq<Session>): Option<Session> {
    if rows == [] then None
    else if rows[0].ended.None? then Some(rows[0])
    else FindOpen(rows[1..])
  }

  function RecoverOpenSession(db: Tables, at: int): Tables {
    match FindOpen(db.sessions)
    case None => db
    case Some(row) => CloseSession(db, row.id, row.duration, at)
  }

  function UsageForDay(rows: seq<Session>, day: int): real {
    if rows == [] then 0.0
    else
      var last := rows[|rows| - 1];
      UsageForDay(rows[..|rows| - 1], day) + if last.day == day then last.duration else 0.0
  }

  function AdjustmentForDay(rows: seq<Adjustment>, day: int): int {
    if rows == [] then 0
    else (if rows[0].day == day then rows[0].seconds else 0) + AdjustmentForDay(rows[1..], day)
  }

  predicate AdjustmentInRange(seconds: int) { -86400 <= seconds <= 86400 }

  function GrantAdjustment(db: Tables, day: int, seconds: int, at: int): Tables {
    db.(adjustments := db.adjustments + [Adjustment(day, seconds, at)])
  }

  function SaveTimer(db: Tables, t: Timer): Tables {
    db.(timer := Some(t.(remaining := MaxReal(0.0, t.remaining))))
  }

  function LoadTimer(db: Tables): Timer {
    if db.timer.None? then BLANK_TIMER else db.timer.value
  }

  function MarkNotification(db: Tables, m: Mark, at: int): Tables {
    if m in db.marks then db else db.(marks := db.marks[m := at])
  }

  function ClearScope(db: Tables, scope: Scope): Tables {
    db.(marks := map m | m in db.marks && m.scope != scope :: db.marks[m])
  }

  function MarkedThresholds(db: Tables, scope: Scope): set<int> {
    set m | m in db.marks && m.scope == scope :: m.threshold
  }

  function AddBuckets(rows: Buckets, entries: Pending): Buckets
    decreases |entries|
  {
    if entries == [] then rows
    else
      var e := entries[0];
      AddBuckets(Put(rows, Entry(e.day, e.index, e.who.appKey, e.seconds)), entries[1..])
  }

  function ClearHistory(db: Tables): Tables {
    db.(sessions := [], adjustments := [], marks := map[], buckets := [])
  }

  predicate TooOld(r: Session, cutoff: int) { r.ended.Some? && r.ended.value < cutoff }

  function RetainSessions(rows: seq<Session>, cutoff: int): seq<Session> {
    if rows == [] then []
    else
      var last := rows[|rows| - 1];
      RetainSessions(rows[..|rows| - 1], cutoff) + if TooOld(last, cutoff) then [] else [last]
  }

  function RetainAdjustments(rows: seq<Adjustment>, cutoff: int): seq<Adjustment> {
    if rows == [] then []
    else (if rows[0].granted < cutoff then [] else [rows[0]]) + RetainAdjustments(rows[1..], cutoff)
  }

  function RetainBuckets(rows: Buckets, cutoffDay: int): Buckets {
    if rows == [] then []
    else (if rows[0].day < cutoffDay then [] else [rows[0]]) + RetainBuckets(rows[1..], cutoffDay)
  }

  function Cutoff(retentionDays: int, at: int): int { at - retentionDays * DAY }

  /** Rows that ended, were granted or were emitted more than `retentionDays` before `at` go,
      and buckets of days before the UTC date that many days back. */
  function EnforceRetention(db: Tables, retentionDays: int, at: int): Tables {
    var cutoff := Cutoff(retentionDays, at);
    db.(sessions := RetainSessions(db.sessions, cutoff),
        adjustments := RetainAdjustments(db.adjustments, cutoff),
        marks := map m | m in db.marks && cutoff <= db.marks[m] :: db.marks[m],
        buckets := RetainBuckets(db.buckets, at / DAY - retentionDays))
  }

  // ----- the sessions table

  predicate AllClosed(rows: seq<Session>) {
    forall i :: 0 <= i < |rows| ==> rows[i].ended.Some?
  }

  /** Exactly one row is open: the last one, with this id and day. */
  predicate OpenLast(rows: seq<Session>, id: nat, day: int) {
    && |rows| > 0
    && rows[|rows| - 1].ended.None?
    && rows[|rows| - 1].id == id
    && rows[|rows| - 1].day == day
    && AllClosed(rows[..|rows| - 1])
  }

  predicate NonNegative(rows: seq<Session>) {
    forall i :: 0 <= i < |rows| ==> 0.0 <= rows[i].duration
  }

  /** The table as it would read if the open row already held `duration`. */
  function WithLive(rows: seq<Session>, duration: real): seq<Session>
    requires rows != []
  {
    rows[..|rows| - 1] + [rows[|rows| - 1].(duration := duration)]
  }

  lemma UsageAppend(rows: seq<Session>, r: Session, day: int)
    ensures UsageForDay(rows + [r], day) == UsageForDay(rows, day) + if r.day == day then r.duration else 0.0
  { }

  /** Replacing the last row changes a day's usage by the difference of the two rows. */
  lemma UsageWithLive(rows: seq<Session>, duration: real, day: int)
    requires rows != []
    ensures UsageForDay(WithLive(rows, duration), day) ==
            UsageForDay(rows, day)
            + if rows[|rows| - 1].day == day then duration - rows[|rows| - 1].duration else 0.0
  { }

  lemma CheckpointOpen(rows: seq<Session>, id: nat, day: int, duration: real)
    requires OpenLast(rows, id, day) && 0.0 <= duration
    ensures CheckpointRows(rows, id, duration) == WithLive(rows, duration)
  { }

  lemma CloseOpen(rows: seq<Session>, id: nat, day: int, duration: real, at: int)
    requires OpenLast(rows, id, day) && 0.0 <= duration
    ensures var closed := CloseRows(rows, id, duration, at);
            && closed == rows[..|rows| - 1] + [rows[|rows| - 1].(ended := Some(at), duration := duration)]
            && AllClosed(closed)
            && forall d :: UsageForDay(closed, d) == UsageForDay(WithLive(rows, duration), d)
  { }

  /** Startup recovery leaves no row open and changes no day's usage: the checkpointed duration
      is kept. */
  lemma RecoveryKeepsUsage(db: Tables, at: int)
    requires NonNegative(db.sessions)
    requires AllClosed(db.sessions) || exists id, day :: OpenLast(db.sessions, id, day)
    ensures var after := RecoverOpenSession(db, at).sessions;
            && AllClosed(after) && NonNegative(after)
            && forall d :: UsageForDay(after, d) == UsageForDay(db.sessions, d)
  {
    var rows := db.sessions;
    if AllClosed(rows) {
      FindOpenNone(rows);
    } else {
      var id, day :| OpenLast(rows, id, day);
      FindOpenLast(rows, id, day);
      var last := rows[|rows| - 1];
      assert WithLive(rows, last.duration) == rows;
      CloseOpen(rows, last.id, day, last.duration, at);
    }
  }

  lemma {:induction false} FindOpenNone(rows: seq<Session>)
    requires AllClosed(rows)
    ensures FindOpen(rows) == None
  {
    if rows != [] {
      assert rows[0].ended.Some?;
      assert forall i :: 0 <= i < |rows[1..]| ==> rows[1..][i] == rows[i + 1];
      FindOpenNone(rows[1..]);
    }
  }

  lemma {:induction false} FindOpenLast(rows: seq<Session>, id: nat, day: int)
    requires OpenLast(rows, id, day)
    ensures FindOpen(rows) == Some(rows[|rows| - 1])
  {
    if |rows| > 1 {
      assert rows[0] == rows[..|rows| - 1][0];
      var rest := rows[1..];
      assert rest[|rest| - 1] == rows[|rows| - 1];
      assert rest[..|rest| - 1] == rows[..|rows| - 1][1..];
      FindOpenLast(rest, id, day);
    }
  }

  // ----- retention

  /** No row of the day is old enough to be removed. */
  predicate SparesDay(rows: seq<Session>, day: int, cutoff: int) {
    forall i :: 0 <= i < |rows| && rows[i].day == day ==> !TooOld(rows[i], cutoff)
  }

  /** The play time of a day that retention would remove. */
  function ExpiredUsage(rows: seq<Session>, day: int, cutoff: int): real {
    if rows == [] then 0.0
    else
      var last := rows[|rows| - 1];
      ExpiredUsage(rows[..|rows| - 1], day, cutoff)
      + if last.day == day && TooOld(last, cutoff) then last.duration else 0.0
  }

  lemma {:induction false} RetentionUsage(rows: seq<Session>, day: int, cutoff: int)
    ensures UsageForDay(RetainSessions(rows, cutoff), day) ==
            UsageForDay(rows, day) - ExpiredUsage(rows, day, cutoff)
  {
    if rows != [] {
      var n := |rows| - 1;
      RetentionUsage(rows[..n], day, cutoff);
      var kept := RetainSessions(rows[..n], cutoff);
      if TooOld(rows[n], cutoff) {
        assert kept + [] == kept;
      } else {
        UsageAppend(kept, rows[n], day);
      }
    }
  }

  lemma {:induction false} SparedUsage(rows: seq<Session>, day: int, cutoff: int)
    requires SparesDay(rows, day, cutoff)
    ensures ExpiredUsage(rows, day, cutoff) == 0.0
  {
    if rows != [] {
      var n := |rows| - 1;
      assert forall i :: 0 <= i < n ==> rows[..n][i] == rows[i];
      SparedUsage(rows[..n], day, cutoff);
    }
  }

  lemma {:induction false} RetentionShape(rows: seq<Session>, cutoff: int)
    requires NonNegative(rows)
    ensures NonNegative(RetainSessions(rows, cutoff))
    ensures forall r :: r in RetainSessions(rows, cutoff) <==> r in rows && !TooOld(r, cutoff)
    ensures AllClosed(rows) ==> AllClosed(RetainSessions(rows, cutoff))
  {
    if rows != [] {
      var n := |rows| - 1;
      assert forall i :: 0 <= i < n ==> rows[..n][i] == rows[i];
      RetentionShape(rows[..n], cutoff);
      assert forall r :: r in rows <==> r in rows[..n] || r == rows[n];
    }
  }

  lemma RetentionKeepsOpen(rows: seq<Session>, id: nat, day: int, cutoff: int)
    requires OpenLast(rows, id, day) && NonNegative(rows)
    ensures OpenLast(RetainSessions(rows, cutoff), id, day)
    ensures RetainSessions(rows, cutoff) == RetainSessions(rows[..|rows| - 1], cutoff) + [rows[|rows| - 1]]
  {
    var n := |rows| - 1;
    RetentionShape(rows[..n], cutoff);
    var kept := RetainSessions(rows[..n], cutoff);
    assert RetainSessions(rows, cutoff)[..|kept|] == kept;
  }

  lemma {:induction false} RetentionBuckets(rows: Buckets, cutoffDay: int, day: int)
    ensures Acceptable(rows) ==> Acceptable(RetainBuckets(rows, cutoffDay))
    ensures Total(RetainBuckets(rows, cutoffDay), WholeDay(day)) ==
            if day < cutoffDay then 0.0 else Total(rows, WholeDay(day))
  {
    if rows != [] {
      var rest, kept := rows[1..], RetainBuckets(rows[1..], cutoffDay);
      RetentionBuckets(rest, cutoffDay, day);
      assert Acceptable(rows) ==> Acceptable(rest);
      if rows[0].day < cutoffDay {
        assert RetainBuckets(rows, cutoffDay) == kept;
      } else {
        assert RetainBuckets(rows, cutoffDay) == [rows[0]] + kept;
        assert ([rows[0]] + kept)[1..] == kept;
      }
    }
  }

  /** Adjustments go by when they were granted, whatever day they are for. */
  lemma {:induction false} RetainAdjustmentsExact(rows: seq<Adjustment>, cutoff: int, day: int)
    ensures forall a :: a in RetainAdjustments(rows, cutoff) <==> a in rows && cutoff <= a.granted
    ensures (forall a :: a in rows && a.day == day ==> cutoff <= a.granted) ==>
              AdjustmentForDay(RetainAdjustments(rows, cutoff), day) == AdjustmentForDay(rows, day)
  {
    if rows != [] {
      RetainAdjustmentsExact(rows[1..], cutoff, day);
      assert forall a :: a in rows <==> a == rows[0] || a in rows[1..];
      var kept := RetainAdjustments(rows[1..], cutoff);
      assert RetainAdjustments(rows, cutoff) == if rows[0].granted < cutoff then kept else [rows[0]] + kept;
      assert ([rows[0]] + kept)[1..] == kept;
    }
  }

  lemma {:induction false} AdjustmentAppend(rows: seq<Adjustment>, a: Adjustment, day: int)
    ensures AdjustmentForDay(rows + [a], day) == AdjustmentForDay(rows, day) + if a.day == day then a.seconds else 0
  {
    if rows == [] {
      assert (rows + [a])[1..] == [];
    } else {
      assert (rows + [a])[1..] == rows[1..] + [a];
      AdjustmentAppend(rows[1..], a, day);
    }
  }

  // ----- buckets

  /** Storing slices moves their seconds into the table: nothing is lost and nothing appears. */
  lemma {:induction false} AddBucketsExact(rows: Buckets, entries: Pending, c: Cell)
    requires Acceptable(rows) && Acceptable(entries)
    ensures Total(AddBuckets(rows, entries), c) == Total(rows, c) + Total(entries, c)
    ensures Acceptable(AddBuckets(rows, entries))
    decreases |entries|
  {
    if entries != [] {
      var e := entries[0];
      var row := Entry(e.day, e.index, e.who.appKey, e.seconds);
      TotalPut(rows, row, c);
      PutAcceptable(rows, row);
      assert Acceptable(entries[1..]);
      AddBucketsExact(Put(rows, row), entries[1..], c);
    }
  }
}
