/**
  `System.TimeSpan` as far as the service uses it, and the
  `TimeSpanExtension.Format` rendering (TimeSpanExtension.cs).
  A span is a signed count of 100-nanosecond ticks; its components are taken
  with .NET's truncating division.
 */
module TimeSpans {
  import opened Wrappers
  import opened Text
  import opened Exceptions

  const TicksPerSecond: int := 10_000_000
  const TicksPerMinute: int := 60 * TicksPerSecond
  const TicksPerHour: int := 60 * TicksPerMinute
  const TicksPerDay: int := 24 * TicksPerHour
  const TicksPerMillisecond: int := 10_000

  /** The largest whole number of seconds a span can hold (Int64.MaxValue / TicksPerSecond). */
  const MaxSeconds: int := 922_337_203_685
  const MinSeconds: int := -922_337_203_685

  datatype TimeSpan = TimeSpan(ticks: int)

  /** Division rounding toward zero, as C#'s `/` on integers. */
  function Quot(a: int, b: int): (q: int)
    requires b > 0
    ensures a >= 0 ==> 0 <= q && b * q <= a < b * (q + 1)
    ensures a < 0 ==> q <= 0 && b * (q - 1) < a <= b * q
  {
    QuotBounds(a, b);
    if a >= 0 then a / b else -((-a) / b)
  }

  lemma QuotBounds(a: int, b: int)
    requires b > 0
    ensures a >= 0 ==> 0 <= a / b && b * (a / b) <= a < b * (a / b + 1)
    ensures a < 0 ==> var q := -((-a) / b); q <= 0 && b * (q - 1) < a <= b * q
  {
    if a >= 0 {
      DivBounds(a, b);
    } else {
      DivBounds(-a, b);
      var p := (-a) / b;
      assert b * (-p - 1) == -(b * (p + 1));
      assert b * (-p) == -(b * p);
    }
  }

  /** Euclidean division of a non-negative number: the quotient brackets it. */
  lemma DivBounds(n: int, b: int)
    requires n >= 0 && b > 0
    ensures 0 <= n / b && b * (n / b) <= n < b * (n / b + 1)
  {
    var p, r := n / b, n % b;
    assert n == b * p + r && 0 <= r < b;
    assert b * (p + 1) == b * p + b;
  }

  /** The remainder that goes with `Quot`, as C#'s `%`: it takes the sign of `a`. */
  function Rem(a: int, b: int): (r: int)
    requires b > 0
    ensures a == b * Quot(a, b) + r
    ensures a >= 0 ==> 0 <= r < b
    ensures a < 0 ==> -b < r <= 0
  {
    a - b * Quot(a, b)
  }

  /**
    `new TimeSpan(hours, minutes, seconds)`: the total must fit in a span,
    otherwise ArgumentOutOfRangeException (with no parameter name).
   */
  function FromHms(hours: int, minutes: int, seconds: int): Result<TimeSpan, Exception>
  {
    var total := hours * 3600 + minutes * 60 + seconds;
    if total > MaxSeconds || total < MinSeconds then Failure(ArgumentOutOfRange(""))
    else Success(TimeSpan(total * TicksPerSecond))
  }

  function Hours(t: TimeSpan): int
  {
    Rem(Quot(t.ticks, TicksPerHour), 24)
  }

  function Minutes(t: TimeSpan): int
  {
    Rem(Quot(t.ticks, TicksPerMinute), 60)
  }

  function Seconds(t: TimeSpan): int
  {
    Rem(Quot(t.ticks, TicksPerSecond), 60)
  }

  /** `TotalMilliseconds`; exact here, since the spans built by the service are whole seconds. */
  function TotalMilliseconds(t: TimeSpan): real
  {
    t.ticks as real / TicksPerMillisecond as real
  }

  /** The plural suffix: none for exactly one, "s" for anything else, zero included. */
  function Suffix(v: int): (r: string)
    ensures r == "" <==> v == 1
    ensures r != "" ==> r == "s"
  {
    if v != 1 then "s" else ""
  }

  /** `TimeSpanExtension.Format` */
  function Format(t: TimeSpan): string
  {
    var h, m, s := Hours(t), Minutes(t), Seconds(t);
    IntToString(h) + " hour" + Suffix(h) + " " + IntToString(m) + " minute" + Suffix(m) + " "
    + IntToString(s) + " second" + Suffix(s)
  }

  /** For a non-negative span the three components are the clock reading of its time of day. */
  lemma ComponentsOfNonNegative(t: TimeSpan)
    requires t.ticks >= 0
    ensures var secs := t.ticks / TicksPerSecond;
            Hours(t) == (secs / 3600) % 24 && Minutes(t) == (secs / 60) % 60 && Seconds(t) == secs % 60
  {
    var secs := t.ticks / TicksPerSecond;
    assert t.ticks / TicksPerHour == secs / 3600;
    assert t.ticks / TicksPerMinute == secs / 60;
  }

  /**
    The whole seconds of a span into its day, as C#'s `%` gives them: in
    (-86400, 86400), with the sign of the span.
   */
  function TimeOfDaySeconds(t: TimeSpan): int
  {
    Rem(Quot(t.ticks, TicksPerSecond), 86400)
  }

  /** Truncating division and its remainder commute with negation. */
  lemma QuotRemNegate(a: int, b: int)
    requires b > 0
    ensures Quot(-a, b) == -Quot(a, b) && Rem(-a, b) == -Rem(a, b)
  {
    if a > 0 {
      assert Quot(-a, b) == -(a / b);
    } else if a < 0 {
      assert Quot(a, b) == -((-a) / b);
    }
    var q := Quot(a, b);
    assert b * (-q) == -(b * q);
  }

  /** Hours and minutes of a span are its whole seconds divided down, for either sign. */
  lemma TicksToSeconds(ticks: int)
    ensures Quot(ticks, TicksPerHour) == Quot(Quot(ticks, TicksPerSecond), 3600)
    ensures Quot(ticks, TicksPerMinute) == Quot(Quot(ticks, TicksPerSecond), 60)
  {
    var a := if ticks < 0 then -ticks else ticks;
    var secs := a / TicksPerSecond;
    assert a / TicksPerHour == secs / 3600;
    assert a / TicksPerMinute == secs / 60;
    if ticks < 0 {
      QuotRemNegate(a, TicksPerHour);
      QuotRemNegate(a, TicksPerMinute);
      QuotRemNegate(a, TicksPerSecond);
      QuotRemNegate(secs, 3600);
      QuotRemNegate(secs, 60);
    }
  }

  /** The clock reading of a non-negative number of seconds, from its time of day. */
  lemma ClockOfNonNegative(s: int)
    requires s >= 0
    ensures Rem(Quot(s, 3600), 24) == Quot(Rem(s, 86400), 3600)
    ensures Rem(Quot(s, 60), 60) == Quot(Rem(Rem(s, 86400), 3600), 60)
    ensures Rem(s, 60) == Rem(Rem(s, 86400), 60)
  {
    HourOfDay(s);
    MinuteOfHour(s);
    WithinDay(s);
  }

  /** The hour of the day of any number of seconds, signed as C# does. */
  lemma HourClock(s: int)
    ensures Rem(Quot(s, 3600), 24) == Quot(Rem(s, 86400), 3600)
  {
    var n := if s < 0 then -s else s;
    ClockOfNonNegative(n);
    if s < 0 {
      QuotRemNegate(n, 3600);
      QuotRemNegate(Quot(n, 3600), 24);
      QuotRemNegate(n, 86400);
      QuotRemNegate(Rem(n, 86400), 3600);
    }
  }

  /** The minute of the hour of any number of seconds, signed as C# does. */
  lemma MinuteClock(s: int)
    ensures Rem(Quot(s, 60), 60) == Quot(Rem(Rem(s, 86400), 3600), 60)
  {
    var n := if s < 0 then -s else s;
    ClockOfNonNegative(n);
    if s < 0 {
      QuotRemNegate(n, 60);
      QuotRemNegate(Quot(n, 60), 60);
      QuotRemNegate(n, 86400);
      QuotRemNegate(Rem(n, 86400), 3600);
      QuotRemNegate(Rem(Rem(n, 86400), 3600), 60);
    }
  }

  /** The second of the minute of any number of seconds, signed as C# does. */
  lemma SecondClock(s: int)
    ensures Rem(s, 60) == Rem(Rem(s, 86400), 60)
  {
    var n := if s < 0 then -s else s;
    ClockOfNonNegative(n);
    if s < 0 {
      QuotRemNegate(n, 60);
      QuotRemNegate(n, 86400);
      QuotRemNegate(Rem(n, 86400), 60);
    }
  }

  /** Every span's components are read off its time of day; days and fractions of a second play no part. */
  lemma ComponentsOfTimeOfDay(t: TimeSpan)
    ensures var r := TimeOfDaySeconds(t);
            Hours(t) == Quot(r, 3600) && Minutes(t) == Quot(Rem(r, 3600), 60) && Seconds(t) == Rem(r, 60)
  {
    TicksToSeconds(t.ticks);
    var secs := Quot(t.ticks, TicksPerSecond);
    HourClock(secs);
    MinuteClock(secs);
    SecondClock(secs);
  }

  /**
    Only the time of day, to the whole second, reaches the text: two spans
    that agree on it format alike, whatever their days and fractions of a
    second, negative spans included.
   */
  lemma FormatIgnoresDaysAndFractions(t: TimeSpan, u: TimeSpan)
    requires TimeOfDaySeconds(t) == TimeOfDaySeconds(u)
    ensures Format(t) == Format(u)
  {
    ComponentsOfTimeOfDay(t);
    ComponentsOfTimeOfDay(u);
  }

  lemma HourOfDay(a: int)
    requires a >= 0
    ensures (a / 3600) % 24 == (a % 86400) / 3600
  {
    var q, r := a / 86400, a % 86400;
    assert a == 86400 * q + r;
    assert a / 3600 == 24 * q + r / 3600;
  }

  lemma MinuteOfHour(a: int)
    requires a >= 0
    ensures (a / 60) % 60 == (a % 3600) / 60
  {
    var q, r := a / 3600, a % 3600;
    assert a == 3600 * q + r;
    assert a / 60 == 60 * q + r / 60;
  }

  lemma WithinDay(a: int)
    requires a >= 0
    ensures (a % 86400) % 3600 == a % 3600 && (a % 86400) % 60 == a % 60
  {
    HourWithinDay(a);
    MinuteWithinDay(a);
  }

  lemma HourWithinDay(a: int)
    requires a >= 0
    ensures (a % 86400) % 3600 == a % 3600
  {
    var q, r := a / 86400, a % 86400;
    assert a == 86400 * q + r;
    var s, u := r / 3600, r % 3600;
    assert a == 3600 * (24 * q + s) + u;
  }

  lemma MinuteWithinDay(a: int)
    requires a >= 0
    ensures (a % 86400) % 60 == a % 60
  {
    var q, r := a / 86400, a % 86400;
    assert a == 86400 * q + r;
    var s, u := r / 60, r % 60;
    assert a == 60 * (1440 * q + s) + u;
  }

  /** The second of the minute is the same whether counted in the hour or in the day. */
  lemma SecondOfHour(r: int)
    ensures Rem(Rem(r, 3600), 60) == Rem(r, 60)
  {
    var n := if r < 0 then -r else r;
    var q, u := n / 3600, n % 3600;
    assert n == 60 * (60 * q + u / 60) + u % 60;
    if r < 0 {
      QuotRemNegate(n, 3600);
      QuotRemNegate(Rem(n, 3600), 60);
      QuotRemNegate(n, 60);
    }
  }

  /**
    The components carry the sign of the span, stay within a day, an hour and
    a minute, and recompose its time of day.
   */
  lemma ComponentsRecompose(t: TimeSpan)
    ensures t.ticks >= 0 ==> 0 <= Hours(t) < 24 && 0 <= Minutes(t) < 60 && 0 <= Seconds(t) < 60
    ensures t.ticks < 0 ==> -24 < Hours(t) <= 0 && -60 < Minutes(t) <= 0 && -60 < Seconds(t) <= 0
    ensures Hours(t) * 3600 + Minutes(t) * 60 + Seconds(t) == TimeOfDaySeconds(t)
  {
    ComponentsOfTimeOfDay(t);
    var r := TimeOfDaySeconds(t);
    SecondOfHour(r);
    assert Rem(r, 3600) == 60 * Quot(Rem(r, 3600), 60) + Rem(Rem(r, 3600), 60);
    assert r == 3600 * Quot(r, 3600) + Rem(r, 3600);
  }

  /** A span of whole hours formats as its hour of the day, with zero minutes and seconds. */
  lemma FormatWholeHours(hours: int)
    requires 0 <= hours <= MaxSeconds / 3600
    ensures FromHms(hours, 0, 0).Success?
    ensures Format(FromHms(hours, 0, 0).value)
         == IntToString(hours % 24) + " hour" + Suffix(hours % 24) + " " + "0" + " minute" + "s" + " "
            + "0" + " second" + "s"
  {
    var t := FromHms(hours, 0, 0).value;
    WholeHoursComponents(t, hours);
    assert IntToString(0) == "0";
  }

  lemma WholeHoursComponents(t: TimeSpan, hours: int)
    requires hours >= 0 && t.ticks == hours * 3600 * TicksPerSecond
    ensures Hours(t) == hours % 24 && Minutes(t) == 0 && Seconds(t) == 0
  {
    ComponentsOfNonNegative(t);
    var secs := hours * 3600;
    assert t.ticks / TicksPerSecond == secs;
    assert secs / 3600 == hours;
    assert secs / 60 == 60 * hours;
  }

  lemma WholeSecondsComponents(t: TimeSpan, secs: int)
    requires secs >= 0 && t.ticks == secs * TicksPerSecond
    ensures Hours(t) == (secs / 3600) % 24 && Minutes(t) == (secs / 60) % 60 && Seconds(t) == secs % 60
  {
    ComponentsOfNonNegative(t);
    assert t.ticks / TicksPerSecond == secs;
  }

  lemma FormatOf(t: TimeSpan, h: int, m: int, s: int)
    requires Hours(t) == h && Minutes(t) == m && Seconds(t) == s
    ensures Format(t) == IntToString(h) + " hour" + Suffix(h) + " " + IntToString(m) + " minute" + Suffix(m) + " "
                         + IntToString(s) + " second" + Suffix(s)
  {
  }

  /** `new TimeSpan(1, 1, 1).Format()` */
  lemma FormatSingular()
    ensures FromHms(1, 1, 1).Success?
    ensures Format(FromHms(1, 1, 1).value) == "1" + " hour" + " " + "1" + " minute" + " " + "1" + " second"
  {
    var t := FromHms(1, 1, 1).value;
    assert Hours(t) == 1 && Minutes(t) == 1 && Seconds(t) == 1 by {
      WholeSecondsComponents(t, 3661);
      assert 3661 / 3600 == 1 && 3661 / 60 == 61 && 3661 % 60 == 1 && 61 % 60 == 1;
    }
    FormatOf(t, 1, 1, 1);
    SingleDigitTexts();
  }

  /** `new TimeSpan(2, 3, 4).Format()` */
  lemma FormatPlural()
    ensures FromHms(2, 3, 4).Success?
    ensures Format(FromHms(2, 3, 4).value) == "2" + " hour" + "s" + " " + "3" + " minute" + "s" + " " + "4" + " second" + "s"
  {
    var t := FromHms(2, 3, 4).value;
    assert Hours(t) == 2 && Minutes(t) == 3 && Seconds(t) == 4 by {
      WholeSecondsComponents(t, 7384);
      assert 7384 / 3600 == 2 && 7384 / 60 == 123 && 7384 % 60 == 4 && 123 % 60 == 3;
    }
    FormatOf(t, 2, 3, 4);
    SingleDigitTexts();
  }

  /** A whole day of hours has hour-of-day zero, so it formats as zero hours. */
  lemma FormatOneDay()
    ensures Format(FromHms(24, 0, 0).value) == "0" + " hour" + "s" + " " + "0" + " minute" + "s" + " " + "0" + " second" + "s"
  {
    FormatWholeHours(24);
    assert NatToString(0) == "0";
  }
}
