/**
  The `weather_data` dictionary and the loop that fills it: a left fold over the
  `time` elements into an insertion-ordered map keyed by the `from` attribute.
 */
module Aggregation {
  import opened Options
  import opened Elements

  /** The per-interval record: the `to` attribute and four optional formatted measurements. */
  datatype Reading = Reading(
    toTime: Attr,
    temperature: Option<string>,
    precipitation: Option<string>,
    humidity: Option<string>,
    windSpeed: Option<string>)

  function Get(r: Reading, f: Field): Option<string> {
    match f
    case Temperature => r.temperature
    case Precipitation => r.precipitation
    case Humidity => r.humidity
    case WindSpeed => r.windSpeed
  }

  /** The record created for a key seen for the first time: its `to` and four nulls. */
  function NewReading(toTime: Attr): (r: Reading)
    ensures r.toTime == toTime
    ensures forall f :: Get(r, f).None?
  {
    Reading(toTime, None, None, None, None)
  }

  /** Stores each measurement `e` carries into its field; the others and `to` are kept. */
  function Merge(r: Reading, e: TimeElement): (r': Reading)
    ensures r'.toTime == r.toTime
    ensures forall f :: Get(r', f) == if Contribution(e, f).Some? then Contribution(e, f) else Get(r, f)
  {
    var r1 := if e.temperature.Some? then r.(temperature := Some(FormatValueUnit(e.temperature.value))) else r;
    var r2 := if e.precipitation.Some? then r1.(precipitation := Some(FormatValueUnit(e.precipitation.value))) else r1;
    var r3 := if e.humidity.Some? then r2.(humidity := Some(FormatPercent(e.humidity.value))) else r2;
    if e.windSpeed.Some? then r3.(windSpeed := Some(FormatSpeed(e.windSpeed.value))) else r3
  }

  /** An insertion-ordered dictionary: the keys in insertion order and the mapping. */
  datatype Table = Table(keys: seq<Attr>, entries: map<Attr, Reading>)

  const Empty: Table := Table([], map[])

  /** Keys are listed once each, and exactly the keys of the mapping are listed. */
  predicate Valid(t: Table) {
    && (forall i, j :: 0 <= i < j < |t.keys| ==> t.keys[i] != t.keys[j])
    && (forall k :: k in t.keys ==> k in t.entries)
    && (forall k :: k in t.entries ==> k in t.keys)
  }

  /** One pass of the loop body for element `e`. */
  function Step(t: Table, e: TimeElement): (t': Table)
    requires Valid(t)
    ensures Valid(t')
    ensures e.fromTime in t'.entries
    // a new key is appended, an old one keeps its place
    ensures e.fromTime in t.entries ==> t'.keys == t.keys
    ensures e.fromTime !in t.entries ==> t'.keys == t.keys + [e.fromTime]
    // every other entry is untouched
    ensures forall k :: k in t.entries && k != e.fromTime ==> k in t'.entries && t'.entries[k] == t.entries[k]
    // `to` is fixed when the key is created
    ensures t'.entries[e.fromTime].toTime ==
      if e.fromTime in t.entries then t.entries[e.fromTime].toTime else e.toTime
    // a present measurement overwrites its field, an absent one keeps it (null for a new key)
    ensures forall f :: (Get(t'.entries[e.fromTime], f) ==
      if Contribution(e, f).Some? then Contribution(e, f)
      else if e.fromTime in t.entries then Get(t.entries[e.fromTime], f)
      else None)
  {
    var k := e.fromTime;
    if k in t.entries then
      Table(t.keys, t.entries[k := Merge(t.entries[k], e)])
    else
      Table(t.keys + [k], t.entries[k := Merge(NewReading(e.toTime), e)])
  }

  /** The dictionary after the loop has run over `es`. */
  function Aggregate(es: seq<TimeElement>): (t: Table)
    ensures Valid(t)
  {
    if es == [] then Empty else Step(Aggregate(es[..|es| - 1]), es[|es| - 1])
  }

  /** The loop itself, written as the script writes it. */
  method CollectReadings(es: seq<TimeElement>) returns (t: Table)
    ensures t == Aggregate(es)
  {
    t := Empty;
    var i := 0;
    while i < |es|
      invariant i <= |es|
      invariant t == Aggregate(es[..i])
    {
      assert es[..i + 1][..i] == es[..i];
      t := Step(t, es[i]);
      i := i + 1;
    }
    assert es[..i] == es;
  }

  // ----- Reference description of the fold's result in terms of the input -----

  /** Some element of `es` has `from` equal to `k`. */
  predicate Occurs(es: seq<TimeElement>, k: Attr) {
    exists i :: 0 <= i < |es| && es[i].fromTime == k
  }

  /** The index of the first element of `es` whose `from` is `k`. */
  function FirstIndex(es: seq<TimeElement>, k: Attr): (i: nat)
    requires Occurs(es, k)
    ensures i < |es| && es[i].fromTime == k
    ensures forall j :: 0 <= j < i ==> es[j].fromTime != k
  {
    var p := es[..|es| - 1];
    if Occurs(p, k) then FirstIndex(p, k)
    else
      assert forall j :: 0 <= j < |es| - 1 ==> p[j] == es[j];
      |es| - 1
  }

  /** No element with `from` equal to `k` carries field `f`. */
  ghost predicate NeverWritten(es: seq<TimeElement>, k: Attr, f: Field) {
    forall i :: 0 <= i < |es| && es[i].fromTime == k ==> Contribution(es[i], f).None?
  }

  /** Element `i` is the last one with `from` equal to `k` that carries field `f`. */
  ghost predicate LastWrite(es: seq<TimeElement>, k: Attr, f: Field, i: int) {
    && 0 <= i < |es|
    && es[i].fromTime == k
    && Contribution(es[i], f).Some?
    && forall j :: i < j < |es| && es[j].fromTime == k ==> Contribution(es[j], f).None?
  }

  /** `k` occurs in `es` when it occurs before the last element or is the last element's key. */
  lemma OccursSnoc(es: seq<TimeElement>, k: Attr)
    requires es != []
    ensures Occurs(es, k) <==> Occurs(es[..|es| - 1], k) || es[|es| - 1].fromTime == k
  {
    var p := es[..|es| - 1];
    assert forall j :: 0 <= j < |p| ==> p[j] == es[j];
  }

  /** A key that occurs before the last element keeps its first index when the last element is added. */
  lemma FirstIndexSnoc(es: seq<TimeElement>, k: Attr)
    requires es != [] && Occurs(es[..|es| - 1], k)
    ensures Occurs(es, k) && FirstIndex(es, k) == FirstIndex(es[..|es| - 1], k) < |es| - 1
  {
    OccursSnoc(es, k);
  }

  /** The keys are exactly the `from` values that occur. */
  lemma {:induction false} AggregateKeySet(es: seq<TimeElement>)
    ensures forall k :: k in Aggregate(es).keys <==> Occurs(es, k)
  {
    if es != [] {
      var n := |es| - 1;
      AggregateKeySet(es[..n]);
      assert Aggregate(es) == Step(Aggregate(es[..n]), es[n]);
      forall k
        ensures k in Aggregate(es).keys <==> Occurs(es, k)
      {
        OccursSnoc(es, k);
      }
    }
  }

  /** The keys are exactly the distinct `from` values, listed in order of first occurrence. */
  lemma {:induction false} AggregateKeys(es: seq<TimeElement>)
    ensures forall k :: k in Aggregate(es).keys <==> Occurs(es, k)
    ensures forall a, b :: 0 <= a < b < |Aggregate(es).keys| ==>
      FirstIndex(es, Aggregate(es).keys[a]) < FirstIndex(es, Aggregate(es).keys[b])
  {
    AggregateKeySet(es);
    if es != [] {
      var n := |es| - 1;
      var p, e := es[..n], es[n];
      AggregateKeys(p);
      var t0, t := Aggregate(p), Aggregate(es);
      assert t == Step(t0, e);
      forall k | k in t0.keys
        ensures FirstIndex(es, k) == FirstIndex(p, k) < n
      {
        FirstIndexSnoc(es, k);
      }
      if e.fromTime !in t0.entries {
        OccursSnoc(es, e.fromTime);
        assert FirstIndex(es, e.fromTime) == n;
      }
      forall a, b | 0 <= a < b < |t.keys|
        ensures FirstIndex(es, t.keys[a]) < FirstIndex(es, t.keys[b])
      {
        assert t.keys[a] == t0.keys[a];
        if b < |t0.keys| {
          assert t.keys[b] == t0.keys[b];
        }
      }
    }
  }

  /** An entry's `to` is that of the first element with its `from`. */
  lemma {:induction false} AggregateToTime(es: seq<TimeElement>)
    ensures forall k :: k in Aggregate(es).entries ==>
      Occurs(es, k) && Aggregate(es).entries[k].toTime == es[FirstIndex(es, k)].toTime
  {
    if es != [] {
      var n := |es| - 1;
      var p, e := es[..n], es[n];
      AggregateToTime(p);
      AggregateKeys(p);
      var t0, t := Aggregate(p), Aggregate(es);
      assert t == Step(t0, e);
      forall k | k in t.entries
        ensures Occurs(es, k) && t.entries[k].toTime == es[FirstIndex(es, k)].toTime
      {
        OccursSnoc(es, k);
        if k in t0.entries {
          assert es[FirstIndex(p, k)] == p[FirstIndex(p, k)];
        } else {
          assert FirstIndex(es, k) == n;
        }
      }
    }
  }

  /** A field is null exactly when no element with the entry's `from` carries it. */
  lemma {:induction false} AggregateNullFields(es: seq<TimeElement>)
    ensures forall k, f :: k in Aggregate(es).entries ==>
      (Get(Aggregate(es).entries[k], f).None? <==> NeverWritten(es, k, f))
  {
    if es != [] {
      var n := |es| - 1;
      var p, e := es[..n], es[n];
      AggregateNullFields(p);
      AggregateKeys(p);
      var t0, t := Aggregate(p), Aggregate(es);
      assert t == Step(t0, e);
      forall k, f | k in t.entries
        ensures Get(t.entries[k], f).None? <==> NeverWritten(es, k, f)
      {
        NeverWrittenSnoc(es, k, f);
        if k == e.fromTime && Contribution(e, f).None? && k !in t0.entries {
          assert !Occurs(p, k);
        }
      }
    }
  }

  /** `NeverWritten` on `es` splits into the prefix and the last element. */
  lemma NeverWrittenSnoc(es: seq<TimeElement>, k: Attr, f: Field)
    requires es != []
    ensures NeverWritten(es, k, f) <==>
      NeverWritten(es[..|es| - 1], k, f) && (es[|es| - 1].fromTime == k ==> Contribution(es[|es| - 1], f).None?)
    ensures !Occurs(es[..|es| - 1], k) ==> NeverWritten(es[..|es| - 1], k, f)
  {
    var p := es[..|es| - 1];
    assert forall j :: 0 <= j < |p| ==> p[j] == es[j];
  }

  /** A non-null field holds the text of the last element with the entry's `from` that carries it. */
  lemma {:induction false} AggregateLastWrite(es: seq<TimeElement>)
    ensures forall k, f, i :: LastWrite(es, k, f, i) ==>
      k in Aggregate(es).entries && Get(Aggregate(es).entries[k], f) == Contribution(es[i], f)
  {
    if es != [] {
      var n := |es| - 1;
      var p, e := es[..n], es[n];
      AggregateLastWrite(p);
      var t0, t := Aggregate(p), Aggregate(es);
      assert t == Step(t0, e);
      forall k, f, i | LastWrite(es, k, f, i)
        ensures k in t.entries && Get(t.entries[k], f) == Contribution(es[i], f)
      {
        if i < n {
          assert es[i] == p[i];
          assert LastWrite(p, k, f, i) by {
            forall j | i < j < |p| && p[j].fromTime == k
              ensures Contribution(p[j], f).None?
            {
              assert p[j] == es[j];
            }
          }
          if k == e.fromTime {
            assert Contribution(e, f).None? by { assert es[n] == e; }
          }
        }
      }
    }
  }

  /** Processing an element without measurements for a new key creates an all-null entry. */
  lemma NewEntryAllNull(t: Table, e: TimeElement)
    requires Valid(t)
    requires e.fromTime !in t.entries
    requires NoMeasurements(e)
    ensures Step(t, e).entries[e.fromTime] == Reading(e.toTime, None, None, None, None)
  {
    var r := Step(t, e).entries[e.fromTime];
    assert Get(r, Temperature).None? && Get(r, Precipitation).None?;
    assert Get(r, Humidity).None? && Get(r, WindSpeed).None?;
  }
}
