/**
  The request window: the current UTC instant truncated to midnight, and one day
  less one second after it. Instants are integer microseconds since the Unix epoch,
  the resolution of the script's timestamps, and lie in the range Python's
  `datetime` can represent.
 */
module DayWindow {
  import opened Options

  const MicrosPerSecond: int := 1_000_000
  const SecondsPerDay: int := 86_400
  const MicrosPerDay: int := SecondsPerDay * MicrosPerSecond

  /** 0001-01-01T00:00:00, the earliest `datetime`. */
  const MinInstant: int := -62_135_596_800 * MicrosPerSecond
  /** 9999-12-31T23:59:59.999999, the latest `datetime`. */
  const MaxInstant: int := 253_402_300_800 * MicrosPerSecond - 1
  /** Midnight of 9999-12-31, the start of the last representable day. */
  const LastMidnight: int := MaxInstant + 1 - MicrosPerDay

  /** An instant a `datetime` can hold. */
  type Instant = t: int | MinInstant <= t <= MaxInstant witness 0

  /** The `from` and `to` instants of the request. */
  datatype Window = Window(start: int, end: int)

  /** Midnight UTC of the day holding `now`. */
  function Midnight(now: Instant): (m: Instant)
    ensures m % MicrosPerDay == 0
    ensures m <= now < m + MicrosPerDay
  {
    now - now % MicrosPerDay
  }

  /**
    The window for the day holding `now`: from its midnight to its last whole second.
    Adding the day to midnight leaves the `datetime` range on the last representable
    day, where the script stops with an `OverflowError`; that is `None`.
   */
  function ForecastWindow(now: Instant): (w: Option<Window>)
    ensures w.None? <==> now >= LastMidnight
    ensures w.Some? ==> MinInstant <= w.value.start && w.value.end <= MaxInstant
    ensures w.Some? ==> w.value.start % MicrosPerDay == 0
    ensures w.Some? ==> w.value.start <= now < w.value.start + MicrosPerDay
    ensures w.Some? ==> w.value.start < w.value.end < w.value.start + MicrosPerDay
    ensures w.Some? ==> w.value.end + MicrosPerSecond == w.value.start + MicrosPerDay
    ensures w.Some? ==> w.value.end / MicrosPerDay == w.value.start / MicrosPerDay
  {
    var start := Midnight(now);
    if start + MicrosPerDay > MaxInstant then None
    else Some(Window(start, start + MicrosPerDay - MicrosPerSecond))
  }

  /** Only one midnight lies at most a day before `now`: the one the window starts at. */
  lemma MidnightUnique(now: Instant, m: int)
    requires m % MicrosPerDay == 0
    requires m <= now < m + MicrosPerDay
    ensures m == Midnight(now)
  {
    var s := Midnight(now);
    var q, p := m / MicrosPerDay, s / MicrosPerDay;
    assert m == q * MicrosPerDay;
    assert s == p * MicrosPerDay;
  }

  /** The first and the last instant of 9999-12-31 have no window; the instant before has one. */
  lemma LastDayOverflows()
    ensures ForecastWindow(LastMidnight).None?
    ensures ForecastWindow(MaxInstant).None?
    ensures ForecastWindow(LastMidnight - 1).Some?
  {
  }

  /** Hour, minute and second of the day of instant `t`. */
  function Clock(t: int): (hms: (int, int, int))
    ensures 0 <= hms.0 < 24 && 0 <= hms.1 < 60 && 0 <= hms.2 < 60
  {
    var d := t % MicrosPerDay;
    (d / (3600 * MicrosPerSecond), d / (60 * MicrosPerSecond) % 60, d / MicrosPerSecond % 60)
  }

  /** The window runs from 00:00:00 to 23:59:59 on the clock. */
  lemma WindowClock(now: Instant)
    ensures ForecastWindow(now).Some? ==> Clock(ForecastWindow(now).value.start) == (0, 0, 0)
    ensures ForecastWindow(now).Some? ==> Clock(ForecastWindow(now).value.end) == (23, 59, 59)
  {
    if ForecastWindow(now).Some? {
      var w := ForecastWindow(now).value;
      assert w.end % MicrosPerDay == MicrosPerDay - MicrosPerSecond;
    }
  }
}
