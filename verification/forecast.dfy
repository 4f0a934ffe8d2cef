/**
  The pure part of `get_weather_forecast` end to end: the `time` elements in, the
  report lines out.
 */
module Forecast {
  import opened Options
  import opened Elements
  import opened Aggregation
  import opened Report

  /** The lines written for report date `date` and the `time` elements `es`. */
  function ForecastReport(date: string, es: seq<TimeElement>): seq<string> {
    Render(date, Aggregate(es))
  }

  /**
    The report's block titles are one per distinct `from` value, in order of first
    occurrence, each naming the `to` of that first occurrence.
   */
  lemma ReportFollowsInput(date: string, es: seq<TimeElement>)
    ensures var keys := Aggregate(es).keys;
      && |Titles(ForecastReport(date, es))| == |keys|
      && (forall k :: k in keys <==> Occurs(es, k))
      && (forall i, j :: 0 <= i < j < |keys| ==> keys[i] != keys[j])
      && (forall i, j :: 0 <= i < j < |keys| ==> FirstIndex(es, keys[i]) < FirstIndex(es, keys[j]))
      && (forall i :: 0 <= i < |keys| ==>
            Titles(ForecastReport(date, es))[i] ==
            "From " + Show(keys[i]) + " to " + Show(es[FirstIndex(es, keys[i])].toTime) + ":")
  {
    var t := Aggregate(es);
    AggregateKeys(es);
    AggregateToTime(es);
    RenderTitles(date, t);
  }

  /** Without `time` elements the report is its two heading lines. */
  lemma EmptyForecast(date: string)
    ensures ForecastReport(date, []) == [Title(date), Rule()]
  {
  }

  /** A reading is determined by its `to` and its four fields; the example proofs use it to name the reading. */
  lemma ReadingByFields(r: Reading, to: Attr, tp: Option<string>, pr: Option<string>, hu: Option<string>, ws: Option<string>)
    requires r.toTime == to
    requires Get(r, Temperature) == tp && Get(r, Precipitation) == pr
    requires Get(r, Humidity) == hu && Get(r, WindSpeed) == ws
    ensures r == Reading(to, tp, pr, hu, ws)
  {
  }

  /** The report for a dictionary with one key. */
  lemma RenderOneKey(date: string, k: Attr, r: Reading)
    ensures Valid(Table([k], map[k := r]))
    ensures Render(date, Table([k], map[k := r])) == [Title(date), Rule(), BlockTitle(k, r)] + FieldLines(r) + [""]
  {
    var t := Table([k], map[k := r]);
    assert Blocks(t, 1) == Blocks(t, 0) + Block(k, r);
  }

  const ExampleFrom: Attr := Some("2024-01-01T00:00:00")
  const ExampleTo: Attr := Some("2024-01-01T01:00:00")

  /** The element of the worked example: a temperature of 5 celsius and a humidity of 80. */
  function ExampleElement(): TimeElement {
    TimeElement(ExampleFrom, ExampleTo, Some(ValueUnit(Some("5"), Some("celsius"))), None, Some(Percent(Some("80"))), None)
  }

  lemma SingleIntervalTable()
    ensures Aggregate([ExampleElement()]) ==
      Table([ExampleFrom], map[ExampleFrom := Reading(ExampleTo, Some("5 celsius"), None, Some("80 %"), None)])
  {
    var e := ExampleElement();
    assert [e][..0] == [];
    assert Aggregate([]) == Empty;
    var t := Aggregate([e]);
    assert t == Step(Empty, e);
    assert FormatValueUnit(e.temperature.value) == "5 celsius";
    assert FormatPercent(e.humidity.value) == "80 %";
    ReadingByFields(t.entries[ExampleFrom], ExampleTo, Some("5 celsius"), None, Some("80 %"), None);
  }

  /** The report for a single key whose reading holds only a temperature and a humidity. */
  lemma RenderTemperatureHumidity(date: string, k: Attr, r: Reading, title: string, temp: string, hum: string)
    requires BlockTitle(k, r) == title
    requires r.temperature == Some(temp) && r.precipitation.None?
    requires r.humidity == Some(hum) && r.windSpeed.None?
    ensures Render(date, Table([k], map[k := r])) ==
      [Title(date), Rule(), title, "  Temperature: " + temp, "  Humidity: " + hum, ""]
  {
    RenderOneKey(date, k, r);
    ExampleBlockLines(k, r, title, temp, hum);
  }

  // Literal text facts sit in lemmas of their own so the example proofs stay cheap.

  /** The block title of the single-interval example, as literal text. */
  lemma SingleIntervalTitle()
    ensures BlockTitle(ExampleFrom, Reading(ExampleTo, Some("5 celsius"), None, Some("80 %"), None))
      == "From 2024-01-01T00:00:00 to 2024-01-01T01:00:00:"
  {
    var r := Reading(ExampleTo, Some("5 celsius"), None, Some("80 %"), None);
    assert BlockTitle(ExampleFrom, r) == "From " + "2024-01-01T00:00:00" + " to " + "2024-01-01T01:00:00" + ":";
    assert "From " + "2024-01-01T00:00:00" == "From 2024-01-01T00:00:00";
    assert "From 2024-01-01T00:00:00" + " to " == "From 2024-01-01T00:00:00 to ";
    assert "From 2024-01-01T00:00:00 to " + "2024-01-01T01:00:00" == "From 2024-01-01T00:00:00 to 2024-01-01T01:00:00";
  }

  /** The worked example: one interval with a temperature and a humidity. */
  lemma SingleIntervalExample()
    ensures ForecastReport("2024-01-01", [ExampleElement()]) == [
        "Weather forecast for 2024-01-01",
        Rule(),
        "From 2024-01-01T00:00:00 to 2024-01-01T01:00:00:",
        "  Temperature: 5 celsius",
        "  Humidity: 80 %",
        ""]
  {
    var r := Reading(ExampleTo, Some("5 celsius"), None, Some("80 %"), None);
    SingleIntervalTable();
    SingleIntervalTitle();
    RenderTemperatureHumidity("2024-01-01", ExampleFrom, r,
      "From 2024-01-01T00:00:00 to 2024-01-01T01:00:00:", "5 celsius", "80 %");
    SingleIntervalLines();
  }

  /** The heading and the field lines of the single-interval example, as literal text. */
  lemma SingleIntervalLines()
    ensures Title("2024-01-01") == "Weather forecast for 2024-01-01"
    ensures "  Temperature: " + "5 celsius" == "  Temperature: 5 celsius"
    ensures "  Humidity: " + "80 %" == "  Humidity: 80 %"
  {
  }

  /** The block of a reading holding only a temperature and a humidity. */
  lemma ExampleBlockLines(k: Attr, r: Reading, title: string, temp: string, hum: string)
    requires BlockTitle(k, r) == title
    requires r.temperature == Some(temp) && r.precipitation.None?
    requires r.humidity == Some(hum) && r.windSpeed.None?
    ensures [BlockTitle(k, r)] + FieldLines(r) + [""] == [title, "  Temperature: " + temp, "  Humidity: " + hum, ""]
  {
    assert Lead(Temperature) == "  Temperature: ";
    assert Lead(Humidity) == "  Humidity: ";
    assert OptLine(Temperature, r) == [FieldLine(Temperature, temp)];
    assert OptLine(Precipitation, r) == [];
    assert OptLine(Humidity, r) == [FieldLine(Humidity, hum)];
    assert OptLine(WindSpeed, r) == [];
  }

  /** Two elements for one interval: a temperature of 10.5 celsius, then a humidity of 80. */
  function MergeElements(): seq<TimeElement> {
    [TimeElement(Some("T0"), Some("T1"), Some(ValueUnit(Some("10.5"), Some("celsius"))), None, None, None),
     TimeElement(Some("T0"), Some("T1"), None, None, Some(Percent(Some("80"))), None)]
  }

  lemma MergeTable()
    ensures Aggregate(MergeElements()) ==
      Table([Some("T0")], map[Some("T0") := Reading(Some("T1"), Some("10.5 celsius"), None, Some("80 %"), None)])
  {
    var es := MergeElements();
    var e1, e2 := es[0], es[1];
    assert es[..1] == [e1];
    assert [e1][..0] == [];
    assert Aggregate([]) == Empty;
    var t1 := Aggregate([e1]);
    assert t1 == Step(Empty, e1);
    var t := Aggregate(es);
    assert t == Step(t1, e2);
    assert FormatValueUnit(e1.temperature.value) == "10.5 celsius";
    assert FormatPercent(e2.humidity.value) == "80 %";
    ReadingByFields(t.entries[Some("T0")], Some("T1"), Some("10.5 celsius"), None, Some("80 %"), None);
  }

  /** The block title of the merge example, as literal text. */
  lemma MergeTitle()
    ensures BlockTitle(Some("T0"), Reading(Some("T1"), Some("10.5 celsius"), None, Some("80 %"), None)) == "From T0 to T1:"
  {
  }

  /** The heading and the field lines of the merge example, as literal text. */
  lemma MergeLines()
    ensures Title("2024-01-01") == "Weather forecast for 2024-01-01"
    ensures "  Temperature: " + "10.5 celsius" == "  Temperature: 10.5 celsius"
    ensures "  Humidity: " + "80 %" == "  Humidity: 80 %"
  {
  }

  /** Two elements for the same interval, each with one measurement, give one block with both. */
  lemma MergeExample()
    ensures ForecastReport("2024-01-01", MergeElements()) == [
        "Weather forecast for 2024-01-01",
        Rule(),
        "From T0 to T1:",
        "  Temperature: 10.5 celsius",
        "  Humidity: 80 %",
        ""]
  {
    var r := Reading(Some("T1"), Some("10.5 celsius"), None, Some("80 %"), None);
    MergeTable();
    MergeTitle();
    RenderTemperatureHumidity("2024-01-01", Some("T0"), r, "From T0 to T1:", "10.5 celsius", "80 %");
    MergeLines();
  }
}
