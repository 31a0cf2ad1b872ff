/** Migration and validation of a configuration tree, and updates by patches. Raising any exception
    is `None`. */
module Validation {
  import opened Basics
  import opened Records
  import opened Settings

  const WEEKDAYS: seq<string> := ["monday", "tuesday", "wednesday", "thursday", "friday", "saturday", "sunday"]
  const SCHEMA_VERSION := 2

  const DEFAULT_CONFIG := JObject(map[
    "schema_version" := JInt(SCHEMA_VERSION),
    "language" := JText("en"),
    "daily_limits" := JObject(map[
      "enabled" := JBool(true), "reset_at" := JText("00:00"), "timezone" := JText("system"),
      "weekly" := JObject(map d | d in WEEKDAYS :: JObject(map["minutes" := JInt(120), "unlimited" := JBool(false)])),
      "allowed_periods" := JList([])]),
    "warnings" := JObject(map[
      "threshold_minutes" := JList([JInt(30), JInt(15), JInt(5), JInt(1)]),
      "notify_at_exhaustion" := JBool(true), "native_desktop_notifications" := JBool(true)]),
    "timer" := JObject(map[
      "count_only_while_playing" := JBool(true), "default_minutes" := JInt(30), "default_action" := JText("inherit")]),
    "restriction" := JObject(map[
      "level" := JInt(0), "grace_seconds" := JInt(60), "close_timeout_seconds" := JInt(20),
      "force_kill_enabled" := JBool(false), "launch_grace_seconds" := JInt(5), "safe_process_fallback" := JBool(true)]),
    "detector" := JObject(map[
      "mode" := JText("auto"), "steam_log_path" := JText("auto"), "procfs_fallback_interval_seconds" := JInt(15),
      "decky_signal_ttl_seconds" := JInt(20), "ignored_app_ids" := JList([JText("769")]),
      "ignored_names" := JList([JText("Steam"), JText("gamescope"), JText("steamwebhelper")])]),
    "history" := JObject(map[
      "retention_days" := JInt(90), "checkpoint_seconds" := JInt(30), "backup_count" := JInt(3)]),
    "logging" := JObject(map["level" := JText("INFO"), "max_bytes" := JInt(2_000_000), "backup_count" := JInt(3)]),
    "simulation" := JObject(map["enabled" := JBool(false)])])

  // ----- numbers and clocks in text

  function Digits(s: string): int {
    if s == "" then 0 else Digits(s[..|s| - 1]) * 10 + (s[|s| - 1] as int - '0' as int)
  }

  /** `int` of a text: surrounding blanks, a sign and decimal digits. */
  function ParseInt(text: string): Option<int> {
    var s := Strip(text);
    if s != "" && s[0] == '-' && IsDigits(s[1..]) then Some(-Digits(s[1..]))
    else if s != "" && s[0] == '+' && IsDigits(s[1..]) then Some(Digits(s[1..]))
    else if IsDigits(s) then Some(Digits(s))
    else None
  }

  function Truncate(r: real): int { if r < 0.0 then -((-r).Floor) else r.Floor }

  /** `int` of a JSON value, with booleans turned down. */
  function AsInt(j: Json): Option<int> {
    match j
    case JInt(n) => Some(n)
    case JReal(r) => Some(Truncate(r))
    case JText(s) => ParseInt(s)
    case _ => None
  }

  /** Splits at the first colon. */
  function SplitColon(s: string): Option<(string, string)> {
    if s == "" then None
    else if s[0] == ':' then Some(("", s[1..]))
    else match SplitColon(s[1..])
      case None => None
      case Some((a, b)) => Some(([s[0]] + a, b))
  }

  /** The minute of the day that an HH:MM text names. */
  function ParseHhmm(j: Json): (minute: Option<int>)
    ensures minute.Some? ==> 0 <= minute.value < 1440
  {
    if !j.JText? then None
    else match SplitColon(j.s)
      case None => None
      case Some((h, m)) =>
        var hour, minute := ParseInt(h), ParseInt(m);
        if hour.Some? && minute.Some? && 0 <= hour.value <= 23 && 0 <= minute.value <= 59
        then Some(hour.value * 60 + minute.value) else None
  }

  lemma TwoDigits(a: char, b: char)
    requires '0' <= a <= '9' && '0' <= b <= '9'
    ensures ParseInt([a, b]) == Some((a as int - 48) * 10 + (b as int - 48))
  {
    assert IsDigits([a, b]) && [a, b][..1] == [a] && [a][..0] == "";
    assert Digits([a]) == a as int - 48;
  }

  lemma TwoSides(a: char, b: char, c: char, d: char)
    requires a != ':' && b != ':'
    ensures SplitColon([a, b, ':', c, d]) == Some(([a, b], [c, d]))
  {
    var s := [a, b, ':', c, d];
    assert s[1..] == [b, ':', c, d] && [b, ':', c, d][1..] == [':', c, d] && [':', c, d][1..] == [c, d];
    assert SplitColon([':', c, d]) == Some(("", [c, d]));
    assert [b] + "" == [b] && [a] + [b] == [a, b];
    assert SplitColon([b, ':', c, d]) == Some(([b], [c, d]));
  }

  /** A clock is read as hours and minutes: the text HH:MM names that minute of the day, as far as there are
      such hours and minutes. */
  lemma ParseHhmmExact(a: char, b: char, c: char, d: char)
    requires '0' <= a <= '9' && '0' <= b <= '9' && '0' <= c <= '9' && '0' <= d <= '9'
    ensures var hour, minute := (a as int - 48) * 10 + (b as int - 48), (c as int - 48) * 10 + (d as int - 48);
            ParseHhmm(JText([a, b, ':', c, d])) ==
            if hour < 24 && minute < 60 then Some(hour * 60 + minute) else None
  {
    TwoSides(a, b, c, d);
    TwoDigits(a, b);
    TwoDigits(c, d);
  }

  // ----- migration

  /** `data.setdefault(section, {}).setdefault(key, value)` */
  function SetDefault(j: Json, section: string, key: string, value: Json): Option<Json>
    requires j.JObject?
  {
    if section !in j.fields then Some(JObject(j.fields[section := JObject(map[key := value])]))
    else
      var s := j.fields[section];
      if !s.JObject? then None
      else if key in s.fields then Some(j)
      else Some(JObject(j.fields[section := JObject(s.fields[key := value])]))
  }

  function Upgrade(j: Json): Option<Json>
    requires j.JObject?
  {
    match SetDefault(j, "restriction", "launch_grace_seconds", JInt(5))
    case None => None
    case Some(a) =>
      match SetDefault(a, "detector", "decky_signal_ttl_seconds", JInt(20))
      case None => None
      case Some(b) => Some(JObject(b.fields["schema_version" := JInt(SCHEMA_VERSION)]))
  }

  function VersionOf(j: Json): Option<int>
    requires j.JObject?
  {
    AsInt(if "schema_version" in j.fields then j.fields["schema_version"] else JInt(1))
  }

  function Migrate(template: Json, raw: Json): Option<Json> {
    if !raw.JObject? then None
    else
      var version := VersionOf(raw);
      if version.None? || version.value > SCHEMA_VERSION || !KnownKeys(raw, template) then None
      else if version.value < 2 then
        match Upgrade(raw)
        case None => None
        case Some(data) => Some(Merge(template, data))
      else Some(Merge(template, raw))
  }

  // ----- validation

  const SECTIONS: seq<string> :=
    ["daily_limits", "warnings", "timer", "restriction", "detector", "history", "logging", "simulation"]

  predicate HasSections(c: Json) {
    c.JObject? && forall i :: 0 <= i < |SECTIONS| ==> SECTIONS[i] in c.fields && c.fields[SECTIONS[i]].JObject?
  }

  /** What a section holds under a key. */
  function Sub(c: Json, section: string, key: string): Option<Json> {
    if c.JObject? && section in c.fields && c.fields[section].JObject? && key in c.fields[section].fields
    then Some(c.fields[section].fields[key]) else None
  }

  function Top(c: Json, key: string): Option<Json> {
    if c.JObject? && key in c.fields then Some(c.fields[key]) else None
  }

  /** `cfg[section].get(key)` */
  function Field(c: Json, section: string, key: string): Json {
    match Sub(c, section, key)
    case None => JNull
    case Some(j) => j
  }

  datatype Check =
    | IntIn(section: string, key: string, low: int, high: int)
    | IsBool(section: string, key: string)
    | OneOf(section: string, key: string, options: seq<string>)

  const CHECKS: seq<Check> := [
    IsBool("daily_limits", "enabled"),
    IsBool("warnings", "notify_at_exhaustion"), IsBool("warnings", "native_desktop_notifications"),
    IsBool("timer", "count_only_while_playing"), IntIn("timer", "default_minutes", 1, 1440),
    OneOf("timer", "default_action", ["inherit", "notify_only", "soft", "close", "block"]),
    IntIn("restriction", "level", 0, 3), IntIn("restriction", "grace_seconds", 0, 3600),
    IntIn("restriction", "close_timeout_seconds", 0, 3600), IntIn("restriction", "launch_grace_seconds", 0, 3600),
    IsBool("restriction", "force_kill_enabled"), IsBool("restriction", "safe_process_fallback"),
    OneOf("detector", "mode", ["auto", "steam_log", "procfs", "disabled"]),
    IntIn("detector", "procfs_fallback_interval_seconds", 5, 300),
    IntIn("detector", "decky_signal_ttl_seconds", 5, 300),
    IntIn("history", "retention_days", 1, 3650), IntIn("history", "checkpoint_seconds", 5, 600),
    IntIn("history", "backup_count", 0, 20),
    OneOf("logging", "level", ["DEBUG", "INFO", "WARNING", "ERROR"]),
    IntIn("logging", "max_bytes", 100_000, 100_000_000), IntIn("logging", "backup_count", 0, 20),
    IsBool("simulation", "enabled")]

  predicate Passes(c: Json, check: Check) {
    var j := Field(c, check.section, check.key);
    match check
    case IntIn(_, _, low, high) => j.JInt? && low <= j.n <= high
    case IsBool(_, _) => j.JBool?
    case OneOf(_, _, options) => j.JText? && j.s in options
  }

  predicate IsBoolean(j: Option<Json>) { j.Some? && j.value.JBool? }

  predicate IsIntIn(j: Option<Json>, low: int, high: int) { j.Some? && j.value.JInt? && low <= j.value.n <= high }

  predicate WeeklyOk(weekly: Json) {
    forall i :: 0 <= i < |WEEKDAYS| ==>
                  && IsIntIn(Sub(weekly, WEEKDAYS[i], "minutes"), 0, 1440)
                  && IsBoolean(Sub(weekly, WEEKDAYS[i], "unlimited"))
  }

  /** A period names start, end and days; leaving the days out is turned down, because the default
      that is checked instead is not a list. */
  predicate PeriodOk(p: Json) {
    && p.JObject?
    && p.fields.Keys == {"start", "end", "days"}
    && ParseHhmm(p.fields["start"]).Some? && ParseHhmm(p.fields["end"]).Some?
    && ParseHhmm(p.fields["start"]) != ParseHhmm(p.fields["end"])
    && p.fields["days"].JList?
    && (forall i :: 0 <= i < |p.fields["days"].items| ==>
          p.fields["days"].items[i].JText? && p.fields["days"].items[i].s in WEEKDAYS)
    && forall i, j :: 0 <= i < j < |p.fields["days"].items| ==> p.fields["days"].items[i] != p.fields["days"].items[j]
  }

  predicate PeriodsOk(periods: Json) {
    periods.JList? && forall i :: 0 <= i < |periods.items| ==> PeriodOk(periods.items[i])
  }

  predicate PathOk(j: Json) { j.JText? && !IsBlank(j.s) && '\0' !in j.s }

  predicate IsVersion2(j: Json) { j == JInt(SCHEMA_VERSION) || j == JReal(2.0) }

  predicate ChecksPass(c: Json) { forall i :: 0 <= i < |CHECKS| ==> Passes(c, CHECKS[i]) }

  /** Every check but those of the three lists that are normalised. */
  predicate ScalarsOk(c: Json, zones: set<string>) {
    && ChecksPass(c)
    && Top(c, "schema_version").Some? && IsVersion2(Top(c, "schema_version").value)
    && Top(c, "language") in {Some(JText("en")), Some(JText("es"))}
    && ParseHhmm(Field(c, "daily_limits", "reset_at")).Some?
    && Field(c, "daily_limits", "timezone").JText?
    && Field(c, "daily_limits", "timezone").s in zones + {"system"}
    && PathOk(Field(c, "detector", "steam_log_path"))
    && WeeklyOk(Field(c, "daily_limits", "weekly"))
    && PeriodsOk(Field(c, "daily_limits", "allowed_periods"))
  }

  predicate ThresholdsOk(j: Json) {
    j.JList? && forall i :: 0 <= i < |j.items| ==> j.items[i].JInt? && 0 < j.items[i].n <= 1440
  }

  predicate AppIdsOk(j: Json) {
    j.JList? && forall i :: 0 <= i < |j.items| ==> j.items[i].JText? && IsDigits(j.items[i].s)
  }

  predicate NamesOk(j: Json) {
    j.JList? && forall i :: 0 <= i < |j.items| ==> j.items[i].JText? && !IsBlank(j.items[i].s) && |j.items[i].s| <= 200
  }

  predicate ListsOk(c: Json) {
    && ThresholdsOk(Field(c, "warnings", "threshold_minutes"))
    && AppIdsOk(Field(c, "detector", "ignored_app_ids"))
    && NamesOk(Field(c, "detector", "ignored_names"))
  }

  function Ints(items: seq<Json>): seq<int> {
    seq(|items|, i requires 0 <= i < |items| => if items[i].JInt? then items[i].n else 0)
  }

  function Texts(items: seq<Json>): seq<string> {
    seq(|items|, i requires 0 <= i < |items| => if items[i].JText? then items[i].s else "")
  }

  function FromInts(s: seq<int>): Json { JList(seq(|s|, i requires 0 <= i < |s| => JInt(s[i]))) }

  function FromTexts(s: seq<string>): Json { JList(seq(|s|, i requires 0 <= i < |s| => JText(s[i]))) }

  function NormalThresholds(j: Json): Json
    requires j.JList?
  {
    FromInts(SortedDown(Ints(j.items)))
  }

  function NormalAppIds(j: Json): Json
    requires j.JList?
  {
    FromTexts(Distinct(Texts(j.items)))
  }

  function NormalNames(j: Json): Json
    requires j.JList?
  {
    FromTexts(Distinct(StripAll(Texts(j.items))))
  }

  function SetField(c: Json, section: string, key: string, value: Json): Json
    requires c.JObject? && section in c.fields && c.fields[section].JObject?
  {
    JObject(c.fields[section := JObject(c.fields[section].fields[key := value])])
  }

  /** Thresholds in decreasing order without repetition; ignored ids and trimmed names without
      repetition. */
  function Normalise(c: Json): Json
    requires HasSections(c) && ListsOk(c)
  {
    assert SECTIONS[1] == "warnings" && SECTIONS[4] == "detector";
    var a := SetField(c, "warnings", "threshold_minutes", NormalThresholds(Field(c, "warnings", "threshold_minutes")));
    var b := SetField(a, "detector", "ignored_app_ids", NormalAppIds(Field(c, "detector", "ignored_app_ids")));
    SetField(b, "detector", "ignored_names", NormalNames(Field(c, "detector", "ignored_names")))
  }

  function Validate(template: Json, raw: Json, zones: set<string>): Option<Json> {
    match Migrate(template, raw)
    case None => None
    case Some(c) =>
      if HasSections(c) && ListsOk(c) && ScalarsOk(c, zones) then Some(Normalise(c)) else None
  }

  function Update(template: Json, current: Json, patch: Json, zones: set<string>): Option<Json> {
    Validate(template, Merge(current, patch), zones)
  }

  // ----- the normal forms are normal

  lemma IntsRoundTrip(s: seq<int>)
    ensures Ints(FromInts(s).items) == s
  { }

  lemma TextsRoundTrip(s: seq<string>)
    ensures Texts(FromTexts(s).items) == s
  { }

  /** The normal thresholds are the supplied ones, each once, strictly decreasing; normalising them
      again changes nothing. */
  lemma ThresholdsNormal(j: Json)
    requires ThresholdsOk(j)
    ensures var n := NormalThresholds(j);
            && ThresholdsOk(n) && NormalThresholds(n) == n
            && StrictlyDecreasing(Ints(n.items))
            && forall x :: x in Ints(n.items) <==> x in Ints(j.items)
  {
    var s := SortedDown(Ints(j.items));
    SortedDownExact(Ints(j.items));
    SortedDownExact(s);
    IntsRoundTrip(s);
    forall i | 0 <= i < |s| ensures 0 < s[i] <= 1440 {
      assert s[i] in Ints(j.items);
    }
  }

  lemma AppIdsNormal(j: Json)
    requires AppIdsOk(j)
    ensures var n := NormalAppIds(j);
            && AppIdsOk(n) && NormalAppIds(n) == n
            && NoDuplicates(Texts(n.items))
            && forall x :: x in Texts(n.items) <==> x in Texts(j.items)
  {
    var s := Distinct(Texts(j.items));
    DistinctExact(Texts(j.items));
    DistinctExact(s);
    TextsRoundTrip(s);
    forall i | 0 <= i < |s| ensures IsDigits(s[i]) {
      assert s[i] in Texts(j.items);
      var k :| 0 <= k < |j.items| && Texts(j.items)[k] == s[i];
      assert IsDigits(j.items[k].s);
    }
  }

  lemma NamesNormal(j: Json)
    requires NamesOk(j)
    ensures var n := NormalNames(j);
            && NamesOk(n) && NormalNames(n) == n
            && NoDuplicates(Texts(n.items))
            && forall x :: x in Texts(n.items) <==> x in StripAll(Texts(j.items))
  {
    var stripped := StripAll(Texts(j.items));
    var s := Distinct(stripped);
    DistinctExact(stripped);
    DistinctExact(s);
    TextsRoundTrip(s);
    forall i | 0 <= i < |s| ensures Strip(s[i]) == s[i] && !IsBlank(s[i]) && |s[i]| <= 200 {
      assert s[i] in stripped;
      var k :| 0 <= k < |stripped| && stripped[k] == s[i];
      StripIsStripped(Texts(j.items)[k]);
      StripIsStripped(s[i]);
    }
    assert StripAll(s) == s;
  }

  // ----- validation is a projection

  predicate Holds(c: Json, section: string, key: string) {
    Sub(c, section, key).Some? && !Sub(c, section, key).value.JObject?
  }

  /** Setting one field leaves the others as they are. */
  lemma SetFieldExact(c: Json, section: string, key: string, value: Json)
    requires c.JObject? && section in c.fields && c.fields[section].JObject?
    ensures var v := SetField(c, section, key, value);
            && (forall s, k :: Sub(v, s, k) == if s == section && k == key then Some(value) else Sub(c, s, k))
            && (forall k :: k != section ==> Top(v, k) == Top(c, k))
            && (HasSections(c) ==> HasSections(v))
  { }

  /** Setting a field that the template knows as a leaf keeps coverage and known keys. */
  lemma SetFieldShape(t: Json, c: Json, section: string, key: string, value: Json)
    requires Holds(t, section, key) && c.JObject? && section in c.fields && c.fields[section].JObject?
    requires !value.JObject?
    ensures Covers(t, c) ==> Covers(t, SetField(c, section, key, value))
    ensures KnownKeys(c, t) ==> KnownKeys(SetField(c, section, key, value), t)
  {
    var v := SetField(c, section, key, value);
    if Covers(t, c) {
      assert Covers(t.fields[section], c.fields[section]);
      assert Covers(t.fields[section], v.fields[section]);
    }
    if KnownKeys(c, t) {
      assert KnownKeys(c.fields[section], t.fields[section]);
      assert KnownKeys(v.fields[section], t.fields[section]);
    }
  }

  /** What the defaults must look like for the normalising and migrating steps to make sense: the
      fields that these steps set are leaves. */
  ghost predicate TemplateOk(t: Json) {
    && Holds(t, "warnings", "threshold_minutes")
    && Holds(t, "detector", "ignored_app_ids") && Holds(t, "detector", "ignored_names")
    && Holds(t, "restriction", "launch_grace_seconds") && Holds(t, "detector", "decky_signal_ttl_seconds")
    && Top(t, "schema_version").Some? && !Top(t, "schema_version").value.JObject?
  }

  lemma DefaultTemplateOk()
    ensures TemplateOk(DEFAULT_CONFIG)
  { }

  /** The fields that normalisation sets. */
  predicate IsList(section: string, key: string) {
    || (section == "warnings" && key == "threshold_minutes")
    || (section == "detector" && (key == "ignored_app_ids" || key == "ignored_names"))
  }

  lemma NormaliseExact(c: Json)
    requires HasSections(c) && ListsOk(c)
    ensures var n := Normalise(c);
            && HasSections(n)
            && Field(n, "warnings", "threshold_minutes") == NormalThresholds(Field(c, "warnings", "threshold_minutes"))
            && Field(n, "detector", "ignored_app_ids") == NormalAppIds(Field(c, "detector", "ignored_app_ids"))
            && Field(n, "detector", "ignored_names") == NormalNames(Field(c, "detector", "ignored_names"))
            && (forall s, k :: !IsList(s, k) ==> Sub(n, s, k) == Sub(c, s, k))
            && (forall k :: k != "warnings" && k != "detector" ==> Top(n, k) == Top(c, k))
  {
    assert SECTIONS[1] == "warnings" && SECTIONS[4] == "detector";
    var a := SetField(c, "warnings", "threshold_minutes", NormalThresholds(Field(c, "warnings", "threshold_minutes")));
    SetFieldExact(c, "warnings", "threshold_minutes", NormalThresholds(Field(c, "warnings", "threshold_minutes")));
    var b := SetField(a, "detector", "ignored_app_ids", NormalAppIds(Field(c, "detector", "ignored_app_ids")));
    SetFieldExact(a, "detector", "ignored_app_ids", NormalAppIds(Field(c, "detector", "ignored_app_ids")));
    SetFieldExact(b, "detector", "ignored_names", NormalNames(Field(c, "detector", "ignored_names")));
  }

  lemma NormaliseShape(t: Json, c: Json)
    requires TemplateOk(t) && HasSections(c) && ListsOk(c)
    ensures Covers(t, c) ==> Covers(t, Normalise(c))
    ensures KnownKeys(c, t) ==> KnownKeys(Normalise(c), t)
  {
    assert SECTIONS[1] == "warnings" && SECTIONS[4] == "detector";
    var thresholds := NormalThresholds(Field(c, "warnings", "threshold_minutes"));
    var a := SetField(c, "warnings", "threshold_minutes", thresholds);
    SetFieldShape(t, c, "warnings", "threshold_minutes", thresholds);
    var ids := NormalAppIds(Field(c, "detector", "ignored_app_ids"));
    var b := SetField(a, "detector", "ignored_app_ids", ids);
    SetFieldShape(t, a, "detector", "ignored_app_ids", ids);
    SetFieldShape(t, b, "detector", "ignored_names", NormalNames(Field(c, "detector", "ignored_names")));
  }

  /** Setting a field to what it holds changes nothing. */
  lemma SetSame(c: Json, section: string, key: string)
    requires Holds(c, section, key)
    ensures SetField(c, section, key, Field(c, section, key)) == c
  {
    var s := c.fields[section];
    assert s.fields[key := Field(c, section, key)] == s.fields;
    assert c.fields[section := s] == c.fields;
  }

  lemma NormaliseTwice(c: Json)
    requires HasSections(c) && ListsOk(c)
    ensures var n := Normalise(c);
            HasSections(n) && ListsOk(n) && Normalise(n) == n
  {
    NormaliseExact(c);
    ThresholdsNormal(Field(c, "warnings", "threshold_minutes"));
    AppIdsNormal(Field(c, "detector", "ignored_app_ids"));
    NamesNormal(Field(c, "detector", "ignored_names"));
    var n := Normalise(c);
    SetSame(n, "warnings", "threshold_minutes");
    SetSame(n, "detector", "ignored_app_ids");
    SetSame(n, "detector", "ignored_names");
  }

  lemma ChecksAvoidLists(i: nat)
    requires i < |CHECKS|
    ensures !IsList(CHECKS[i].section, CHECKS[i].key)
  { }

  lemma SamePasses(c: Json, n: Json)
    requires ChecksPass(c)
    requires forall s, k :: !IsList(s, k) ==> Sub(n, s, k) == Sub(c, s, k)
    ensures ChecksPass(n)
  {
    forall i | 0 <= i < |CHECKS| ensures Passes(n, CHECKS[i]) {
      assert Passes(c, CHECKS[i]);
      ChecksAvoidLists(i);
    }
  }

  lemma NormaliseScalars(c: Json, zones: set<string>)
    requires HasSections(c) && ListsOk(c) && ScalarsOk(c, zones)
    ensures ScalarsOk(Normalise(c), zones)
  {
    NormaliseExact(c);
    SameScalars(c, Normalise(c), zones);
  }

  /** The scalar checks do not look at the three lists. */
  lemma SameScalars(c: Json, n: Json, zones: set<string>)
    requires ScalarsOk(c, zones)
    requires forall s, k :: !IsList(s, k) ==> Sub(n, s, k) == Sub(c, s, k)
    requires forall k :: k != "warnings" && k != "detector" ==> Top(n, k) == Top(c, k)
    ensures ScalarsOk(n, zones)
  {
    SamePasses(c, n);
  }

  lemma SetDefaultKnown(t: Json, j: Json, section: string, key: string, value: Json)
    requires KnownKeys(j, t) && j.JObject? && Holds(t, section, key) && !value.JObject?
    ensures var d := SetDefault(j, section, key, value);
            d.Some? ==> d.value.JObject? && KnownKeys(d.value, t)
  { }

  lemma UpgradeKnown(t: Json, j: Json)
    requires TemplateOk(t) && KnownKeys(j, t) && j.JObject?
    ensures Upgrade(j).Some? ==> KnownKeys(Upgrade(j).value, t)
  {
    SetDefaultKnown(t, j, "restriction", "launch_grace_seconds", JInt(5));
    var a := SetDefault(j, "restriction", "launch_grace_seconds", JInt(5));
    if a.Some? {
      SetDefaultKnown(t, a.value, "detector", "decky_signal_ttl_seconds", JInt(20));
    }
  }

  /** A tree can be migrated exactly if it is an object with a version that is a number up to two and without
      an unknown key, and the two sections that an older version is given settings in are objects, if there. */
  lemma MigrateExact(t: Json, raw: Json)
    ensures Migrate(t, raw).Some? <==>
            && raw.JObject? && VersionOf(raw).Some? && VersionOf(raw).value <= 2 && KnownKeys(raw, t)
            && (VersionOf(raw).value < 2 ==>
                  && ("restriction" in raw.fields ==> raw.fields["restriction"].JObject?)
                  && ("detector" in raw.fields ==> raw.fields["detector"].JObject?))
  { }

  /** An older tree comes to version two, with five seconds of launch grace and twenty of signal life unless it
      says otherwise. */
  lemma UpgradeExact(raw: Json)
    requires raw.JObject? && Upgrade(raw).Some?
    ensures var v := Upgrade(raw).value;
            && Top(v, "schema_version") == Some(JInt(2))
            && (Sub(raw, "restriction", "launch_grace_seconds") == None ==>
                  Sub(v, "restriction", "launch_grace_seconds") == Some(JInt(5)))
            && (Sub(raw, "detector", "decky_signal_ttl_seconds") == None ==>
                  Sub(v, "detector", "decky_signal_ttl_seconds") == Some(JInt(20)))
  { }

  /** A migrated tree is complete and has no unknown key. */
  lemma MigrateShape(t: Json, raw: Json)
    requires TemplateOk(t) && Migrate(t, raw).Some?
    ensures Covers(t, Migrate(t, raw).value) && KnownKeys(Migrate(t, raw).value, t)
  {
    var data := if VersionOf(raw).value < 2 then Upgrade(raw).value else raw;
    UpgradeKnown(t, raw);
    MergeCovers(t, data);
    MergeKnown(t, data);
  }

  /** A complete, known tree of version two migrates to itself. */
  lemma MigrateFixed(t: Json, c: Json)
    requires Covers(t, c) && KnownKeys(c, t)
    requires Top(c, "schema_version").Some? && IsVersion2(Top(c, "schema_version").value)
    ensures Migrate(t, c) == Some(c)
  {
    MergeCovered(t, c);
  }

  /** Validating a validated configuration returns it unchanged; its thresholds are the supplied
      ones in strictly decreasing order. */
  lemma ValidateIsProjection(t: Json, raw: Json, zones: set<string>)
    requires TemplateOk(t) && Validate(t, raw, zones).Some?
    ensures var v := Validate(t, raw, zones).value;
            && Validate(t, v, zones) == Some(v)
            && HasSections(v) && ListsOk(v) && ScalarsOk(v, zones)
            && StrictlyDecreasing(Ints(Field(v, "warnings", "threshold_minutes").items))
  {
    var c := Migrate(t, raw).value;
    MigrateShape(t, raw);
    NormaliseExact(c);
    NormaliseShape(t, c);
    NormaliseTwice(c);
    NormaliseScalars(c, zones);
    ThresholdsNormal(Field(c, "warnings", "threshold_minutes"));
    MigrateFixed(t, Normalise(c));
  }

  // ----- updates

  predicate Leaf(c: Json, path: seq<string>) { Get(c, path).Some? && !Get(c, path).value.JObject? }

  predicate IsListPath(path: seq<string>) { |path| == 2 && IsList(path[0], path[1]) }

  /** Looking up a path of at least two keys. */
  lemma GetBySub(c: Json, path: seq<string>)
    requires |path| >= 2
    ensures Get(c, path) == match Sub(c, path[0], path[1]) case None => None case Some(j) => Get(j, path[2..])
  { }

  lemma GetByTop(c: Json, path: seq<string>)
    requires |path| == 1
    ensures Get(c, path) == Top(c, path[0])
  { }

  /** Two trees that agree on all fields but the lists, and on the top level outside two sections,
      agree on every other leaf. */
  lemma SameLeaves(c: Json, n: Json, path: seq<string>)
    requires HasSections(c) && ListsOk(c)
    requires forall s, k :: !IsList(s, k) ==> Sub(n, s, k) == Sub(c, s, k)
    requires forall k :: k != "warnings" && k != "detector" ==> Top(n, k) == Top(c, k)
    requires Leaf(c, path) && !IsListPath(path)
    ensures Get(n, path) == Get(c, path)
  {
    assert SECTIONS[1] == "warnings" && SECTIONS[4] == "detector";
    assert path != [];
    if |path| == 1 {
      GetByTop(c, path);
      GetByTop(n, path);
    } else {
      GetBySub(c, path);
      GetBySub(n, path);
    }
  }

  lemma SetDefaultKeepsLeaf(j: Json, section: string, key: string, value: Json, path: seq<string>)
    requires j.JObject? && Leaf(j, path)
    ensures var d := SetDefault(j, section, key, value);
            d.Some? ==> d.value.JObject? && Get(d.value, path) == Get(j, path)
  { }

  /** Migration keeps every setting that is there, but may raise the schema version. */
  lemma MigrateKeepsLeaf(t: Json, raw: Json, path: seq<string>)
    requires Migrate(t, raw).Some? && Leaf(raw, path)
    requires path == ["schema_version"] ==> VersionOf(raw) == Some(SCHEMA_VERSION)
    ensures Get(Migrate(t, raw).value, path) == Get(raw, path)
  {
    if VersionOf(raw).value < 2 {
      SetDefaultKeepsLeaf(raw, "restriction", "launch_grace_seconds", JInt(5), path);
      var a := SetDefault(raw, "restriction", "launch_grace_seconds", JInt(5)).value;
      SetDefaultKeepsLeaf(a, "detector", "decky_signal_ttl_seconds", JInt(20), path);
      UpgradeKeepsLeaf(raw, path);
      MergeAtPath(t, Upgrade(raw).value, path);
    } else {
      MergeAtPath(t, raw, path);
    }
  }

  const PERIODS_PATH: seq<string> := ["daily_limits", "allowed_periods"]

  /** What can be wrong with a period: a key too many or one that is missing, among them the days; times that
      cannot be read or are the same; and days that are no list of different weekdays. */
  predicate Faulty(p: Json) {
    || !p.JObject?
    || (exists k :: k in p.fields && k != "start" && k != "end" && k != "days")
    || "start" !in p.fields || "end" !in p.fields || "days" !in p.fields
    || ParseHhmm(p.fields["start"]) == None || ParseHhmm(p.fields["end"]) == None
    || ParseHhmm(p.fields["start"]) == ParseHhmm(p.fields["end"])
    || !p.fields["days"].JList?
    || (exists i :: 0 <= i < |p.fields["days"].items| &&
                    p.fields["days"].items[i] !in
                      {JText("monday"), JText("tuesday"), JText("wednesday"), JText("thursday"), JText("friday"),
                       JText("saturday"), JText("sunday")})
    || exists i, j :: 0 <= i < j < |p.fields["days"].items| && p.fields["days"].items[i] == p.fields["days"].items[j]
  }

  lemma WeekdaysExact(j: Json)
    ensures j.JText? && j.s in WEEKDAYS <==>
            j in {JText("monday"), JText("tuesday"), JText("wednesday"), JText("thursday"), JText("friday"),
                  JText("saturday"), JText("sunday")}
  { }

  lemma PeriodExact(p: Json)
    ensures PeriodOk(p) <==> !Faulty(p)
  {
    if p.JObject? && "start" in p.fields && "end" in p.fields && "days" in p.fields {
      assert p.fields.Keys == {"start", "end", "days"} <==>
             !exists k :: k in p.fields && k != "start" && k != "end" && k != "days";
      if p.fields["days"].JList? {
        forall i | 0 <= i < |p.fields["days"].items|
          ensures var j := p.fields["days"].items[i];
                  j.JText? && j.s in WEEKDAYS <==>
                  j in {JText("monday"), JText("tuesday"), JText("wednesday"), JText("thursday"), JText("friday"),
                        JText("saturday"), JText("sunday")}
        {
          WeekdaysExact(p.fields["days"].items[i]);
        }
      }
    }
  }

  /** A configuration with a faulty period, such as one that does not list its days, is refused. */
  lemma FaultyPeriodRefused(t: Json, raw: Json, zones: set<string>, i: nat)
    requires Leaf(raw, PERIODS_PATH) && Get(raw, PERIODS_PATH).value.JList?
    requires i < |Get(raw, PERIODS_PATH).value.items|
    requires Faulty(Get(raw, PERIODS_PATH).value.items[i])
    ensures Validate(t, raw, zones) == None
  {
    if Migrate(t, raw).Some? {
      MigrateKeepsLeaf(t, raw, PERIODS_PATH);
      var c, p := Migrate(t, raw).value, Get(raw, PERIODS_PATH).value.items[i];
      GetBySub(c, PERIODS_PATH);
      assert Field(c, "daily_limits", "allowed_periods") == Get(raw, PERIODS_PATH).value;
      PeriodExact(p);
    }
  }

  /** For example one from 08:00 to 20:00. */
  lemma DaylessPeriodRefused(zones: set<string>)
    ensures var period := JObject(map["start" := JText("08:00"), "end" := JText("20:00")]);
            var raw := JObject(map["daily_limits" := JObject(map["allowed_periods" := JList([period])])]);
            Validate(DEFAULT_CONFIG, raw, zones) == None
  {
    var period := JObject(map["start" := JText("08:00"), "end" := JText("20:00")]);
    var raw := JObject(map["daily_limits" := JObject(map["allowed_periods" := JList([period])])]);
    GetBySub(raw, PERIODS_PATH);
    FaultyPeriodRefused(DEFAULT_CONFIG, raw, zones, 0);
  }

  lemma UpgradeKeepsLeaf(raw: Json, path: seq<string>)
    requires raw.JObject? && Upgrade(raw).Some? && Leaf(raw, path)
    requires VersionOf(raw).Some? && VersionOf(raw).value < 2 && path != ["schema_version"]
    ensures Get(Upgrade(raw).value, path) == Get(raw, path)
  { }

  lemma ValidateKeepsLeaf(t: Json, raw: Json, zones: set<string>, path: seq<string>)
    requires Validate(t, raw, zones).Some? && Leaf(raw, path) && !IsListPath(path)
    requires path == ["schema_version"] ==> VersionOf(raw) == Some(SCHEMA_VERSION)
    ensures Get(Validate(t, raw, zones).value, path) == Get(raw, path)
  {
    MigrateKeepsLeaf(t, raw, path);
    var c := Migrate(t, raw).value;
    NormaliseExact(c);
    SameLeaves(c, Normalise(c), path);
  }

  /** An accepted update sets every setting that the patch gives and leaves every setting alone that
      it does not mention. The three lists and the schema version are given in normal form. */
  lemma UpdateExact(t: Json, current: Json, patch: Json, zones: set<string>, path: seq<string>)
    requires Update(t, current, patch, zones).Some?
    requires !IsListPath(path) && path != ["schema_version"]
    ensures Leaf(patch, path) ==> Get(Update(t, current, patch, zones).value, path) == Get(patch, path)
    ensures !Mentions(patch, path) && Leaf(current, path) ==>
              Get(Update(t, current, patch, zones).value, path) == Get(current, path)
  {
    MergeAtPath(current, patch, path);
    if Leaf(patch, path) || (!Mentions(patch, path) && Leaf(current, path)) {
      ValidateKeepsLeaf(t, Merge(current, patch), zones, path);
    }
  }

  /** An unmentioned list of a validated configuration is kept as well, being in normal form. */
  lemma UpdateKeepsLists(t: Json, current: Json, patch: Json, zones: set<string>, section: string, key: string)
    requires Validate(t, current, zones) == Some(current) && Update(t, current, patch, zones).Some?
    requires IsList(section, key) && !Mentions(patch, [section, key])
    ensures Field(Update(t, current, patch, zones).value, section, key) == Field(current, section, key)
  {
    var merged := Merge(current, patch);
    var c := Migrate(t, merged).value;
    GetBySub(current, [section, key]);
    GetBySub(merged, [section, key]);
    GetBySub(c, [section, key]);
    CurrentIsNormal(t, current, zones);
    MergeAtPath(current, patch, [section, key]);
    MigrateKeepsLeaf(t, merged, [section, key]);
    NormaliseExact(c);
  }

  lemma CurrentIsNormal(t: Json, current: Json, zones: set<string>)
    requires Validate(t, current, zones) == Some(current)
    ensures HasSections(current) && ListsOk(current)
    ensures Field(current, "warnings", "threshold_minutes") ==
            NormalThresholds(Field(current, "warnings", "threshold_minutes"))
    ensures Field(current, "detector", "ignored_app_ids") == NormalAppIds(Field(current, "detector", "ignored_app_ids"))
    ensures Field(current, "detector", "ignored_names") == NormalNames(Field(current, "detector", "ignored_names"))
  {
    var c := Migrate(t, current).value;
    NormaliseExact(c);
    ThresholdsNormal(Field(c, "warnings", "threshold_minutes"));
    AppIdsNormal(Field(c, "detector", "ignored_app_ids"));
    NamesNormal(Field(c, "detector", "ignored_names"));
  }
}
