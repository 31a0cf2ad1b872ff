/** Accounting days, weekly limits and allowed periods. */
module Schedule {
  import opened Basics
  import opened Zones

  const DAYS_IN_WEEK := 7
  const MINUTES_IN_DAY := 1440
  const MINUTES_IN_WEEK := 10080

  /** A weekly entry: `minutes`, unless `unlimited`. */
  datatype DayLimit = DayLimit(minutes: int, unlimited: bool)

  /** One entry for each weekday, Monday first. */
  type Week = w: seq<DayLimit> | |w| == DAYS_IN_WEEK witness seq(DAYS_IN_WEEK, i => DayLimit(120, false))

  /** An allowed period. Times are minutes after midnight; days count from Monday as 0; a period
      without a `days` list applies to every day. */
  datatype Period = Period(start: int, end: int, days: Option<seq<int>>)

  /** Monday is 0; 1970-01-01 was a Thursday. */
  function Weekday(day: int): (w: int)
    ensures 0 <= w < DAYS_IN_WEEK
  {
    (day + 3) % DAYS_IN_WEEK
  }

  // ----- accounting days

  /** The reading of a running day counter when accounting day `d` is due to start. */
  function ResetReading(reset: int, d: int): int { d * DAY + reset * MINUTE }

  function AccountingDay(z: Zone, reset: int, t: int): int {
    var local := Local(z, t);
    var day := local / DAY;
    if local % DAY < reset * MINUTE then day - 1 else day
  }

  /** The UTC instant chosen for the start of a day, with the conversion there and back that the
      code performs. */
  function AccountingDayStart(z: Zone, reset: int, d: int): int {
    var utcValue := ToUtc(z, ResetReading(reset, d));
    var roundTrip := Local(z, utcValue);
    if roundTrip / DAY != d || roundTrip % DAY != reset * MINUTE
    then roundTrip - OffsetAt(z, utcValue)
    else utcValue
  }

  function SecondsUntilReset(z: Zone, reset: int, t: int): int {
    var candidate := AccountingDayStart(z, reset, AccountingDay(z, reset, t) + 1);
    if candidate < t then 0 else (candidate - t) / SECOND
  }

  predicate ValidReset(reset: int) { 0 <= reset < MINUTES_IN_DAY }

  /** No transition skips or repeats the reset clock, on any day. */
  ghost predicate RegularReset(z: Zone, reset: int) {
    forall d :: RegularAt(z, ResetReading(reset, d))
  }

  /** The conversion there and back never moves the instant: both branches return the value that
      `astimezone` gave, also for a reset clock that falls in a daylight-saving gap. */
  lemma DayStartIgnoresRoundTrip(z: Zone, reset: int, d: int)
    ensures AccountingDayStart(z, reset, d) == ToUtc(z, ResetReading(reset, d))
  { }

  /** 1970-01-01 was a Thursday, and the weekdays go round. */
  lemma WeekdayExact(day: int)
    ensures Weekday(0) == 3 && Weekday(day + 1) == if Weekday(day) == 6 then 0 else Weekday(day) + 1
  { }

  /** Accounting days are the days of a clock that is as many minutes behind the local one as the reset
      comes after midnight. */
  lemma AccountingDayExact(z: Zone, reset: int, t: int)
    requires ValidReset(reset)
    ensures AccountingDay(z, reset, t) == (t + OffsetAt(z, t) - reset * 60_000_000) / 86_400_000_000
  {
    var x, minutes := t + OffsetAt(z, t), reset * 60_000_000;
    assert 0 <= minutes < 86_400_000_000;
    assert x == x / 86_400_000_000 * 86_400_000_000 + x % 86_400_000_000;
  }

  lemma AccountingDayReached(z: Zone, reset: int, t: int, d: int)
    requires ValidReset(reset)
    ensures d <= AccountingDay(z, reset, t) <==> ResetReading(reset, d) <= Local(z, t)
  { }

  /** `AccountingDayStart(d)` is the instant from which accounting day `d` or a later one is
      current, for every day and instant, exactly when no transition skips or repeats the reset
      clock. */
  lemma DayStartExact(z: Zone, reset: int)
    requires WellSpaced(z) && ValidReset(reset)
    ensures RegularReset(z, reset) <==>
            forall t, d :: d <= AccountingDay(z, reset, t) <==> AccountingDayStart(z, reset, d) <= t
  {
    forall t, d
      ensures RegularReset(z, reset) ==>
                (d <= AccountingDay(z, reset, t) <==> AccountingDayStart(z, reset, d) <= t)
    {
      if RegularReset(z, reset) {
        DayReached(z, reset, t, d);
      }
    }
    if !RegularReset(z, reset) {
      var d :| !RegularAt(z, ResetReading(reset, d));
      var t := CrossingFails(z, ResetReading(reset, d));
      AccountingDayReached(z, reset, t, d);
      DayStartIgnoresRoundTrip(z, reset, d);
    }
  }

  lemma DayReached(z: Zone, reset: int, t: int, d: int)
    requires WellSpaced(z) && ValidReset(reset) && RegularReset(z, reset)
    ensures d <= AccountingDay(z, reset, t) <==> AccountingDayStart(z, reset, d) <= t
  {
    Crossing(z, ResetReading(reset, d), t);
    AccountingDayReached(z, reset, t, d);
    DayStartIgnoresRoundTrip(z, reset, d);
  }

  /** Accounting days partition time into consecutive half-open intervals. */
  lemma DaysPartitionTime(z: Zone, reset: int, t: int, d: int)
    requires WellSpaced(z) && ValidReset(reset) && RegularReset(z, reset)
    ensures AccountingDay(z, reset, t) == d <==>
            AccountingDayStart(z, reset, d) <= t < AccountingDayStart(z, reset, d + 1)
  {
    DayReached(z, reset, t, d);
    DayReached(z, reset, t, d + 1);
  }

  /** No transition repeats the reset clock, on any day. */
  ghost predicate NeverRepeated(z: Zone, reset: int) {
    forall d :: NotRepeatedAt(z, ResetReading(reset, d))
  }

  lemma RegularIsNeverRepeated(z: Zone, reset: int)
    requires RegularReset(z, reset)
    ensures NeverRepeated(z, reset)
  {
    forall d ensures NotRepeatedAt(z, ResetReading(reset, d)) {
      RegularIsNotRepeated(z, ResetReading(reset, d));
    }
  }

  /** Later instants never have an earlier accounting day, also across a gap that skips the reset
      clock. */
  lemma AccountingDayMonotone(z: Zone, reset: int, t: int, u: int)
    requires WellSpaced(z) && ValidReset(reset) && NeverRepeated(z, reset)
    requires t <= u
    ensures AccountingDay(z, reset, t) <= AccountingDay(z, reset, u)
  {
    var d := AccountingDay(z, reset, t);
    AccountingDayReached(z, reset, t, d);
    AccountingDayReached(z, reset, u, d);
    StaysReached(z, ResetReading(reset, d), t, u);
  }

  /** The accounting day never goes back if and only if no transition repeats the reset clock. */
  lemma MonotoneExact(z: Zone, reset: int)
    requires WellSpaced(z) && ValidReset(reset)
    ensures NeverRepeated(z, reset) <==>
            forall t, u :: t <= u ==> AccountingDay(z, reset, t) <= AccountingDay(z, reset, u)
  {
    if NeverRepeated(z, reset) {
      forall t, u | t <= u ensures AccountingDay(z, reset, t) <= AccountingDay(z, reset, u) {
        AccountingDayMonotone(z, reset, t, u);
      }
    } else {
      var d :| !NotRepeatedAt(z, ResetReading(reset, d));
      var t, u := RepeatedIsLeft(z, ResetReading(reset, d));
      AccountingDayReached(z, reset, t, d);
      AccountingDayReached(z, reset, u, d);
    }
  }

  lemma DayStartsMonotone(z: Zone, reset: int, d: int, e: int)
    requires WellSpaced(z) && ValidReset(reset) && RegularReset(z, reset)
    requires d <= e
    ensures AccountingDayStart(z, reset, d) <= AccountingDayStart(z, reset, e)
  {
    var t := AccountingDayStart(z, reset, e);
    DayReached(z, reset, t, d);
    DayReached(z, reset, t, e);
  }

  /** `seconds_until_reset` counts the whole seconds that are left of the current accounting day:
      the day lasts that long, and less than a second longer. */
  lemma SecondsUntilResetExact(z: Zone, reset: int, t: int)
    requires WellSpaced(z) && ValidReset(reset) && RegularReset(z, reset)
    ensures var s := SecondsUntilReset(z, reset, t);
            && 0 <= s
            && (forall u :: t <= u < t + s * SECOND ==> AccountingDay(z, reset, u) == AccountingDay(z, reset, t))
            && AccountingDay(z, reset, t + (s + 1) * SECOND) > AccountingDay(z, reset, t)
  {
    var d := AccountingDay(z, reset, t);
    var s := SecondsUntilReset(z, reset, t);
    var next := AccountingDayStart(z, reset, d + 1);
    DayReached(z, reset, t, d + 1);
    DayReached(z, reset, t, d);
    assert t < next && s * SECOND <= next - t < (s + 1) * SECOND;
    DayReached(z, reset, t + (s + 1) * SECOND, d + 1);
    forall u | t <= u < t + s * SECOND ensures AccountingDay(z, reset, u) == d {
      DaysPartitionTime(z, reset, u, d);
    }
  }

  /** At a fixed offset at most a day is left. */
  lemma SecondsUntilResetBound(z: Zone, reset: int, t: int)
    requires z.transitions == [] && ValidReset(reset)
    ensures 0 <= SecondsUntilReset(z, reset, t) <= 86400
  { }

  lemma FixedOffsetIsRegular(z: Zone, reset: int)
    requires z.transitions == []
    ensures WellSpaced(z) && RegularReset(z, reset)
  { }

  /** At a fixed offset accounting days partition time without any further hypothesis, and each of
      them lasts 24 hours. */
  lemma FixedOffsetDays(z: Zone, reset: int, t: int, d: int)
    requires z.transitions == [] && ValidReset(reset)
    ensures AccountingDay(z, reset, t) == d <==>
            AccountingDayStart(z, reset, d) <= t < AccountingDayStart(z, reset, d + 1)
    ensures AccountingDayStart(z, reset, d + 1) == AccountingDayStart(z, reset, d) + DAY
  {
    FixedOffsetIsRegular(z, reset);
    DaysPartitionTime(z, reset, t, d);
  }

  /** Why the hypothesis is needed: with a reset at 02:30 and a gap from 02:00 to 03:00, the
      "start" of the day comes half an hour after the day has become current. */
  lemma ResetInsideGap() returns (z: Zone)
    ensures WellSpaced(z)
    ensures AccountingDay(z, 150, 120 * MINUTE) == 0 && AccountingDayStart(z, 150, 0) == 150 * MINUTE
  {
    z := Zone(0, [Transition(120 * MINUTE, 60 * MINUTE)]);
    assert Earlier(z) == Zone(0, []);
    assert Local(z, 120 * MINUTE) == 180 * MINUTE;
    assert OffsetOfLocal(Earlier(z), 150 * MINUTE) == 0;
    assert ToUtc(z, ResetReading(150, 0)) == 150 * MINUTE;
    DayStartIgnoresRoundTrip(z, 150, 0);
  }

  /** With a repeated reset clock the accounting day goes back: clocks turned from 03:00 to 02:00
      at a reset of 02:30 put the instant before the turn in a later day than the turn itself. */
  lemma ResetInsideOverlap() returns (z: Zone)
    ensures WellSpaced(z)
    ensures AccountingDay(z, 150, 180 * MINUTE - 1) == 0 && AccountingDay(z, 150, 180 * MINUTE) == -1
  {
    z := Zone(0, [Transition(180 * MINUTE, -60 * MINUTE)]);
    assert Earlier(z) == Zone(0, []);
    assert OffsetAt(Earlier(z), 180 * MINUTE - 1) == 0;
    assert Local(z, 180 * MINUTE) == 120 * MINUTE;
  }

  // ----- limits

  /** The configured allowance of a day in seconds, or no limit. */
  function LimitForDay(weekly: Week, day: int): Option<int> {
    var entry := weekly[Weekday(day)];
    if entry.unlimited then None else Some(entry.minutes * 60)
  }

  // ----- allowed periods

  function MinuteOfDay(local: int): (m: int)
    ensures 0 <= m < MINUTES_IN_DAY
  {
    (local % DAY) / MINUTE
  }

  function DayListed(p: Period, weekday: int): bool {
    p.days.None? || weekday in p.days.value
  }

  function PeriodAllows(p: Period, weekday: int, minute: int): bool {
    if p.start <= p.end then
      DayListed(p, weekday) && p.start <= minute < p.end
    else
      || (DayListed(p, weekday) && p.start <= minute)
      || (DayListed(p, (weekday - 1) % DAYS_IN_WEEK) && minute < p.end)
  }

  function AnyPeriodAllows(periods: seq<Period>, weekday: int, minute: int): bool {
    periods != [] &&
    (PeriodAllows(periods[0], weekday, minute) || AnyPeriodAllows(periods[1..], weekday, minute))
  }

  function WithinAllowedPeriod(periods: seq<Period>, z: Zone, t: int): bool {
    periods == [] ||
    var local := Local(z, t);
    AnyPeriodAllows(periods, Weekday(local / DAY), MinuteOfDay(local))
  }

  predicate ValidPeriod(p: Period) {
    && 0 <= p.start < MINUTES_IN_DAY
    && 0 <= p.end < MINUTES_IN_DAY
  }

  /** The number of minutes a period lasts, on whichever side of midnight it ends. */
  function PeriodLength(p: Period): int {
    if p.start <= p.end then p.end - p.start else p.end - p.start + MINUTES_IN_DAY
  }

  /** The local clock as minutes since Monday 00:00, going round once a week. */
  function MinuteOfWeek(z: Zone, t: int): int {
    var local := Local(z, t);
    Weekday(local / DAY) * MINUTES_IN_DAY + MinuteOfDay(local)
  }

  /** On the circle of minutes of a week, `minute` lies in the arc of `length` minutes that
      starts at clock `start` of day `day`. */
  predicate InArc(minute: int, day: int, start: int, length: int) {
    (minute - (day * MINUTES_IN_DAY + start)) % MINUTES_IN_WEEK < length
  }

  ghost predicate StartsArcHolding(p: Period, day: int, minute: int) {
    DayListed(p, day) && InArc(minute, day, p.start, PeriodLength(p))
  }

  lemma ArcOfSameOrPreviousDay(weekday: int, minute: int, day: int, p: Period)
    requires 0 <= weekday < DAYS_IN_WEEK && 0 <= day < DAYS_IN_WEEK
    requires 0 <= minute < MINUTES_IN_DAY && ValidPeriod(p)
    ensures InArc(weekday * MINUTES_IN_DAY + minute, day, p.start, PeriodLength(p)) <==>
            (if p.start <= p.end then day == weekday && p.start <= minute < p.end
             else (day == weekday && p.start <= minute)
                  || (day == (weekday - 1) % DAYS_IN_WEEK && minute < p.end))
  {
    var x := weekday * MINUTES_IN_DAY + minute - (day * MINUTES_IN_DAY + p.start);
    assert -MINUTES_IN_WEEK < x < MINUTES_IN_WEEK;
    assert x % MINUTES_IN_WEEK == if x < 0 then x + MINUTES_IN_WEEK else x;
    assert (weekday - 1) % DAYS_IN_WEEK == if weekday == 0 then 6 else weekday - 1;
  }

  lemma PeriodAllowsExact(p: Period, weekday: int, minute: int, now: int)
    requires 0 <= weekday < DAYS_IN_WEEK && 0 <= minute < MINUTES_IN_DAY && ValidPeriod(p)
    requires now == weekday * MINUTES_IN_DAY + minute
    ensures PeriodAllows(p, weekday, minute) <==>
            exists day :: 0 <= day < DAYS_IN_WEEK && StartsArcHolding(p, day, now)
  {
    forall day | 0 <= day < DAYS_IN_WEEK
      ensures StartsArcHolding(p, day, now) ==> PeriodAllows(p, weekday, minute)
    {
      ArcOfSameOrPreviousDay(weekday, minute, day, p);
    }
    if PeriodAllows(p, weekday, minute) {
      var day := if DayListed(p, weekday) && p.start <= minute && (p.start <= p.end ==> minute < p.end)
                 then weekday else (weekday - 1) % DAYS_IN_WEEK;
      ArcOfSameOrPreviousDay(weekday, minute, day, p);
      assert StartsArcHolding(p, day, now);
    }
  }

  lemma {:induction false} AnyPeriodAllowsExact(periods: seq<Period>, weekday: int, minute: int)
    ensures AnyPeriodAllows(periods, weekday, minute) <==>
            exists i :: 0 <= i < |periods| && PeriodAllows(periods[i], weekday, minute)
  {
    if periods != [] {
      AnyPeriodAllowsExact(periods[1..], weekday, minute);
      if i :| 0 <= i < |periods| && PeriodAllows(periods[i], weekday, minute) {
        if i > 0 {
          assert periods[1..][i - 1] == periods[i];
        }
      }
      if AnyPeriodAllows(periods[1..], weekday, minute) {
        var i :| 0 <= i < |periods[1..]| && PeriodAllows(periods[1..][i], weekday, minute);
        assert periods[i + 1] == periods[1..][i];
      }
    }
  }

  /** Play is allowed exactly when no period is configured or the local minute of the week lies
      in an arc that starts on a listed day; overnight arcs run into the next day, and from Sunday
      night into Monday. */
  lemma AllowedPeriodIsCircular(periods: seq<Period>, z: Zone, t: int)
    requires forall p :: p in periods ==> ValidPeriod(p)
    ensures WithinAllowedPeriod(periods, z, t) <==>
            || periods == []
            || exists i, day :: 0 <= i < |periods| && 0 <= day < DAYS_IN_WEEK
                                && StartsArcHolding(periods[i], day, MinuteOfWeek(z, t))
  {
    var local := Local(z, t);
    var weekday, minute := Weekday(local / DAY), MinuteOfDay(local);
    AnyPeriodAllowsExact(periods, weekday, minute);
    forall i | 0 <= i < |periods|
      ensures PeriodAllows(periods[i], weekday, minute) <==>
              exists day :: 0 <= day < DAYS_IN_WEEK && StartsArcHolding(periods[i], day, MinuteOfWeek(z, t))
    {
      PeriodAllowsExact(periods[i], weekday, minute, MinuteOfWeek(z, t));
    }
  }
}
