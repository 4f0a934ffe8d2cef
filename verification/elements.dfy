/**
  The abstract input of the forecast script: one record per `time` element of the
  forecast document, in document order, with the first matching measurement of each
  kind already looked up. Also the fixed text formats in which measurements are stored.
 */
module Elements {
  import opened Options

  /** An XML attribute as `Element.get` returns it: its text, or None when it is absent. */
  type Attr = Option<string>

  /** How a Python f-string renders a str-or-None value: the text itself, or "None". */
  function Show(a: Attr): string {
    match a
    case Some(s) => s
    case None => "None"
  }

  /** A `temperature` or `precipitation` element: its `value` and `unit` attributes. */
  datatype ValueUnit = ValueUnit(value: Attr, unit: Attr)

  /** A `humidity` element: its `value` attribute, a percentage. */
  datatype Percent = Percent(value: Attr)

  /** A `windSpeed` element: its `mps` attribute, in metres per second. */
  datatype Speed = Speed(mps: Attr)

  /** One `time` element: its `from` and `to` attributes and the first descendant of each measurement kind. */
  datatype TimeElement = TimeElement(
    fromTime: Attr,
    toTime: Attr,
    temperature: Option<ValueUnit>,
    precipitation: Option<ValueUnit>,
    humidity: Option<Percent>,
    windSpeed: Option<Speed>)

  /** The four measurement fields of a reading, in report order. */
  datatype Field = Temperature | Precipitation | Humidity | WindSpeed

  /** Position of a field in the report. */
  function Rank(f: Field): nat {
    match f
    case Temperature => 0
    case Precipitation => 1
    case Humidity => 2
    case WindSpeed => 3
  }

  /** Temperature and precipitation text: value, one space, unit. */
  function FormatValueUnit(q: ValueUnit): string {
    Show(q.value) + " " + Show(q.unit)
  }

  /** Humidity text: value followed by " %". */
  function FormatPercent(p: Percent): string {
    Show(p.value) + " %"
  }

  /** Wind speed text: value followed by " m/s". */
  function FormatSpeed(w: Speed): string {
    Show(w.mps) + " m/s"
  }

  /** The text element `e` stores into field `f`, or None when `e` has no such measurement. */
  function Contribution(e: TimeElement, f: Field): Option<string> {
    match f
    case Temperature =>
      if e.temperature.Some? then Some(FormatValueUnit(e.temperature.value)) else None
    case Precipitation =>
      if e.precipitation.Some? then Some(FormatValueUnit(e.precipitation.value)) else None
    case Humidity =>
      if e.humidity.Some? then Some(FormatPercent(e.humidity.value)) else None
    case WindSpeed =>
      if e.windSpeed.Some? then Some(FormatSpeed(e.windSpeed.value)) else None
  }

  /** True when `e` carries none of the four measurements. */
  predicate NoMeasurements(e: TimeElement) {
    e.temperature.None? && e.precipitation.None? && e.humidity.None? && e.windSpeed.None?
  }

  // Readers of the stored texts, the inverses of the formats above.

  /** Index of the last space among the first `n` characters of `s`, if there is one. */
  function LastSpaceBelow(s: string, n: nat): (r: Option<nat>)
    requires n <= |s|
    ensures r.Some? ==> r.value < n && s[r.value] == ' '
    ensures r.Some? ==> forall j :: r.value < j < n ==> s[j] != ' '
    ensures r.None? ==> forall j :: 0 <= j < n ==> s[j] != ' '
  {
    if n == 0 then None
    else if s[n - 1] == ' ' then Some(n - 1)
    else LastSpaceBelow(s, n - 1)
  }

  /** Index of the last space in `s`, if there is one. */
  function LastSpace(s: string): Option<nat> {
    LastSpaceBelow(s, |s|)
  }

  /** Splits a value-and-unit text at its last space. */
  function SplitValueUnit(s: string): Option<(string, string)> {
    match LastSpace(s)
    case Some(i) => Some((s[..i], s[i + 1..]))
    case None => None
  }

  /** `s` without `suffix`, when `s` ends with it. */
  function StripSuffix(s: string, suffix: string): Option<string> {
    if |suffix| <= |s| && s[|s| - |suffix|..] == suffix then Some(s[..|s| - |suffix|]) else None
  }

  /** A temperature or precipitation text gives back its value and unit, provided the unit has no space. */
  lemma ValueUnitRoundTrip(q: ValueUnit)
    requires ' ' !in Show(q.unit)
    ensures SplitValueUnit(FormatValueUnit(q)) == Some((Show(q.value), Show(q.unit)))
  {
    var v, u := Show(q.value), Show(q.unit);
    var s := FormatValueUnit(q);
    assert s[|v|] == ' ';
    assert s[|v| + 1..] == u;
    assert s[..|v|] == v;
  }

  /** A humidity text gives back its value. */
  lemma PercentRoundTrip(p: Percent)
    ensures StripSuffix(FormatPercent(p), " %") == Some(Show(p.value))
  {
  }

  /** A wind speed text gives back its value. */
  lemma SpeedRoundTrip(w: Speed)
    ensures StripSuffix(FormatSpeed(w), " m/s") == Some(Show(w.mps))
  {
  }
}
