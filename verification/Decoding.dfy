/** From a validated configuration tree to the settings that the engine reads. */
module Decoding {
  import opened Basics
  import opened Zones
  import opened Schedule
  import opened Settings
  import opened Validation
  import Engine

  function IntAt(c: Json, section: string, key: string): int
    requires Sub(c, section, key).Some? && Sub(c, section, key).value.JInt?
  {
    Sub(c, section, key).value.n
  }

  predicate Readable(c: Json, zones: set<string>) { HasSections(c) && ListsOk(c) && ScalarsOk(c, zones) }

  function DayIndex(day: string): int
    requires day in WEEKDAYS
  {
    if day == "monday" then 0
    else if day == "tuesday" then 1
    else if day == "wednesday" then 2
    else if day == "thursday" then 3
    else if day == "friday" then 4
    else if day == "saturday" then 5
    else 6
  }

  function DecodePeriod(p: Json): Period
    requires PeriodOk(p)
  {
    var days := p.fields["days"].items;
    Period(ParseHhmm(p.fields["start"]).value, ParseHhmm(p.fields["end"]).value,
           Some(seq(|days|, i requires 0 <= i < |days| => DayIndex(days[i].s))))
  }

  function DecodeWeek(weekly: Json): Week
    requires WeeklyOk(weekly)
  {
    assert |WEEKDAYS| == DAYS_IN_WEEK;
    seq(DAYS_IN_WEEK, i requires 0 <= i < DAYS_IN_WEEK =>
      DayLimit(Sub(weekly, WEEKDAYS[i], "minutes").value.n, Sub(weekly, WEEKDAYS[i], "unlimited").value.b))
  }

  /** The weekdays by name, counted from Monday as zero. */
  predicate Named(k: int, name: string) {
    (k, name) in {(0, "monday"), (1, "tuesday"), (2, "wednesday"), (3, "thursday"), (4, "friday"), (5, "saturday"),
                  (6, "sunday")}
  }

  lemma DayIndexExact(k: int, name: string, day: string)
    requires Named(k, name) && day in WEEKDAYS
    ensures DayIndex(day) == k <==> day == name
  { }

  /** The days of a decoded period are those that are listed. */
  lemma DaysExact(p: Json, k: int, name: string)
    requires PeriodOk(p) && Named(k, name)
    ensures k in DecodePeriod(p).days.value <==> JText(name) in p.fields["days"].items
  {
    var items, days := p.fields["days"].items, DecodePeriod(p).days.value;
    forall i | 0 <= i < |items| ensures days[i] == k <==> items[i] == JText(name) {
      DayIndexExact(k, name, items[i].s);
    }
    if k in days {
      var i :| 0 <= i < |days| && days[i] == k;
      assert items[i] == JText(name);
    }
    if JText(name) in items {
      var i :| 0 <= i < |items| && items[i] == JText(name);
      assert days[i] == k;
    }
  }

  /** Each day of the week has its own entry, Monday first. */
  lemma WeekExact(weekly: Json, k: int, name: string)
    requires WeeklyOk(weekly) && Named(k, name)
    ensures Sub(weekly, name, "minutes") == Some(JInt(DecodeWeek(weekly)[k].minutes))
    ensures Sub(weekly, name, "unlimited") == Some(JBool(DecodeWeek(weekly)[k].unlimited))
  {
    assert name == WEEKDAYS[k];
  }

  /** The typed fields of a readable tree. */
  lemma ScalarFields(c: Json)
    requires ChecksPass(c)
    ensures IsBoolean(Sub(c, "daily_limits", "enabled"))
    ensures IsBoolean(Sub(c, "warnings", "notify_at_exhaustion"))
    ensures IsBoolean(Sub(c, "timer", "count_only_while_playing"))
    ensures IsIntIn(Sub(c, "restriction", "level"), 0, 3)
    ensures IsIntIn(Sub(c, "history", "retention_days"), 1, 3650)
    ensures IsIntIn(Sub(c, "history", "checkpoint_seconds"), 5, 600)
  {
    assert Passes(c, CHECKS[0]) && Passes(c, CHECKS[1]) && Passes(c, CHECKS[3]);
    assert Passes(c, CHECKS[6]) && Passes(c, CHECKS[15]) && Passes(c, CHECKS[16]);
  }

  function Decode(c: Json, zones: set<string>, zone: Zone): Engine.Config
    requires Readable(c, zones)
  {
    ScalarFields(c);
    var periods := Field(c, "daily_limits", "allowed_periods").items;
    Engine.Config(
      Sub(c, "daily_limits", "enabled").value.b,
      ParseHhmm(Field(c, "daily_limits", "reset_at")).value,
      zone,
      DecodeWeek(Field(c, "daily_limits", "weekly")),
      seq(|periods|, i requires 0 <= i < |periods| => DecodePeriod(periods[i])),
      Ints(Field(c, "warnings", "threshold_minutes").items),
      Sub(c, "warnings", "notify_at_exhaustion").value.b,
      Sub(c, "timer", "count_only_while_playing").value.b,
      IntAt(c, "restriction", "level"),
      IntAt(c, "history", "retention_days"),
      IntAt(c, "history", "checkpoint_seconds"))
  }

  /** Every weekly entry has between zero minutes and a day. */
  lemma WeekInRange(weekly: Json)
    requires WeeklyOk(weekly)
    ensures forall i :: 0 <= i < DAYS_IN_WEEK ==> 0 <= DecodeWeek(weekly)[i].minutes <= 1440
  { }

  lemma ReadableIsValid(v: Json, zones: set<string>, zone: Zone)
    requires Readable(v, zones)
    ensures Engine.ValidConfig(Decode(v, zones, zone))
  {
    ScalarFields(v);
    WeekInRange(Field(v, "daily_limits", "weekly"));
  }

  /** What validation lets through is what the laws of the engine ask of a configuration, with its
      warning thresholds in strictly decreasing order. */
  lemma ValidatedIsValid(t: Json, raw: Json, zones: set<string>, zone: Zone)
    requires TemplateOk(t) && Validate(t, raw, zones).Some?
    ensures var v := Validate(t, raw, zones).value;
            && Readable(v, zones)
            && Engine.ValidConfig(Decode(v, zones, zone))
            && StrictlyDecreasing(Decode(v, zones, zone).thresholdMinutes)
  {
    ValidateIsProjection(t, raw, zones);
    ReadableIsValid(Validate(t, raw, zones).value, zones, zone);
  }

  /** What the engine reads is what the tree says: its switches and numbers, the minute of the reset, the
      periods from start to end, and the thresholds. */
  lemma DecodeExact(c: Json, zones: set<string>, zone: Zone)
    requires Readable(c, zones)
    ensures var e, periods := Decode(c, zones, zone), Field(c, "daily_limits", "allowed_periods").items;
            && Sub(c, "daily_limits", "enabled") == Some(JBool(e.limitsEnabled))
            && ParseHhmm(Field(c, "daily_limits", "reset_at")) == Some(e.reset)
            && |e.periods| == |periods|
            && (forall i :: 0 <= i < |periods| ==>
                  && ParseHhmm(periods[i].fields["start"]) == Some(e.periods[i].start)
                  && ParseHhmm(periods[i].fields["end"]) == Some(e.periods[i].end))
            && Field(c, "warnings", "threshold_minutes") == FromInts(e.thresholdMinutes)
            && Sub(c, "warnings", "notify_at_exhaustion") == Some(JBool(e.notifyAtExhaustion))
            && Sub(c, "timer", "count_only_while_playing") == Some(JBool(e.countOnlyWhilePlaying))
            && Sub(c, "restriction", "level") == Some(JInt(e.level))
            && Sub(c, "history", "retention_days") == Some(JInt(e.retentionDays))
            && Sub(c, "history", "checkpoint_seconds") == Some(JInt(e.checkpointSeconds))
  {
    ScalarFields(c);
    var items := Field(c, "warnings", "threshold_minutes").items;
    assert FromInts(Ints(items)).items == items;
  }
}
