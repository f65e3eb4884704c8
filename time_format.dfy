/**
 * The time-bucket formatter: a duration in whole seconds becomes "Ns", "Nm",
 * "Nh" or "Nd", taking the first bucket whose bound the duration is below and
 * flooring the count. The current time is a parameter (the clock is not modelled).
 */
module TimeFormat {
  import opened Wrappers

  const SecondsPerMinute: int := 60
  const SecondsPerHour: int := 60 * 60
  const SecondsPerDay: int := 24 * 60 * 60

  predicate IsDigit(c: char) {
    '0' <= c <= '9'
  }

  predicate AllDigits(s: string) {
    forall i :: 0 <= i < |s| ==> IsDigit(s[i])
  }

  function DigitChar(d: nat): (c: char)
    requires d < 10
    ensures IsDigit(c) && c as int - '0' as int == d
  {
    ('0' as int + d) as char
  }

  /** The decimal rendering of a natural number, as a JavaScript template literal prints it. */
  function NatToString(n: nat): (s: string)
    ensures |s| >= 1 && AllDigits(s)
    ensures s[0] == '0' ==> n == 0
    decreases n
  {
    if n < 10 then [DigitChar(n)] else NatToString(n / 10) + [DigitChar(n % 10)]
  }

  /** The rendering of an integer: a minus sign before the digits of a negative one. */
  function IntToString(i: int): (s: string)
    ensures i >= 0 ==> s == NatToString(i)
    ensures i < 0 ==> |s| >= 2 && s[0] == '-' && s[1..] == NatToString(-i)
  {
    if i < 0 then "-" + NatToString(-i) else NatToString(i)
  }

  /** The number a string of decimal digits denotes (the reading that undoes NatToString). */
  function DigitsValue(s: string): nat
    requires AllDigits(s)
  {
    if s == [] then 0 else DigitsValue(s[..|s| - 1]) * 10 + (s[|s| - 1] as int - '0' as int)
  }

  /** Rendering a natural number and reading it back gives the number. */
  lemma {:induction false} NatToStringRoundTrip(n: nat)
    ensures DigitsValue(NatToString(n)) == n
  {
    if n >= 10 {
      var s := NatToString(n);
      assert s == NatToString(n / 10) + [DigitChar(n % 10)];
      assert s[..|s| - 1] == NatToString(n / 10);
      NatToStringRoundTrip(n / 10);
    }
  }

  /** Distinct numbers render as distinct strings. */
  lemma NatToStringInjective(a: nat, b: nat)
    requires NatToString(a) == NatToString(b)
    ensures a == b
  {
    NatToStringRoundTrip(a);
    NatToStringRoundTrip(b);
  }

  /** Length in seconds of the unit a bucket suffix names. */
  function UnitSeconds(u: char): (n: int)
    requires u in "smhd"
    ensures n >= 1
  {
    if u == 's' then 1 else if u == 'm' then SecondsPerMinute else if u == 'h' then SecondsPerHour else SecondsPerDay
  }

  /** Reads a bucket string back into its count and its unit suffix. */
  function ParseBucket(s: string): (r: Option<(nat, char)>)
    ensures r.Some? ==> r.value.1 in "smhd" && s == NatToString(r.value.0) + [r.value.1]
  {
    if |s| >= 2 && s[|s| - 1] in "smhd" && AllDigits(s[..|s| - 1]) && (s[0] == '0' ==> |s| == 2) then
      var n := DigitsValue(s[..|s| - 1]);
      assert NatToString(n) == s[..|s| - 1] by { DigitsCanonical(s[..|s| - 1]); }
      Some((n, s[|s| - 1]))
    else
      None
  }

  /** A digit string without a leading zero (or the single digit 0) is the rendering of its value. */
  lemma {:induction false} DigitsCanonical(s: string)
    requires |s| >= 1 && AllDigits(s) && (s[0] == '0' ==> |s| == 1)
    ensures NatToString(DigitsValue(s)) == s
    decreases |s|
  {
    var last := s[|s| - 1] as int - '0' as int;
    if |s| == 1 {
      assert DigitsValue(s) == last;
    } else {
      var front := s[..|s| - 1];
      assert front[0] == s[0];
      DigitsCanonical(front);
      var v := DigitsValue(front);
      assert s[0] != '0';
      assert v != 0 by { assert NatToString(0)[0] == '0'; }
      assert DigitsValue(s) == v * 10 + last;
      assert DigitsValue(s) / 10 == v && DigitsValue(s) % 10 == last;
      assert s == front + [s[|s| - 1]];
    }
  }

  /** The template `${count}u`: the rendered count followed by the unit suffix. */
  function Render(count: int, unit: char): (s: string)
    ensures count >= 0 ==> s == NatToString(count) + [unit]
  {
    IntToString(count) + [unit]
  }

  /** The bucket string of a duration in whole seconds. */
  function FormatDuration(duration: int): string {
    if duration < SecondsPerMinute then
      Render(duration, 's')
    else if duration < SecondsPerHour then
      Render(duration / SecondsPerMinute, 'm')
    else if duration < SecondsPerDay then
      Render(duration / SecondsPerHour, 'h')
    else
      Render(duration / SecondsPerDay, 'd')
  }

  /** Age of a position opened at `startTime`, seen at time `now` (both in unix seconds). */
  function FormatPositionTime(now: int, startTime: int): string {
    FormatDuration(now - startTime)
  }

  /**
   * For a non-negative duration the string reads back as a count n of a unit of
   * u seconds with n * u <= duration < (n + 1) * u (a floored count, never a
   * fraction), and the unit is the first bucket whose bound the duration is below.
   */
  lemma FormatDurationMeaning(duration: nat)
    ensures ParseBucket(FormatDuration(duration)).Some?
    ensures var (n, u) := ParseBucket(FormatDuration(duration)).value;
      && n * UnitSeconds(u) <= duration < (n + 1) * UnitSeconds(u)
      && (u == 's' <==> duration < 60)
      && (u == 'm' <==> 60 <= duration < 3600)
      && (u == 'h' <==> 3600 <= duration < 86400)
      && (u == 'd' <==> 86400 <= duration)
  {
    var n: nat, u: char;
    if duration < 60 {
      n, u := duration, 's';
      assert FormatDuration(duration) == NatToString(n) + [u];
    } else if duration < 3600 {
      n, u := duration / 60, 'm';
      assert FormatDuration(duration) == NatToString(n) + [u];
    } else if duration < 86400 {
      n, u := duration / 3600, 'h';
      assert FormatDuration(duration) == NatToString(n) + [u];
    } else {
      n, u := duration / 86400, 'd';
      assert FormatDuration(duration) == NatToString(n) + [u];
    }
    ParseRendered(n, u);
    FlooredCount(duration, UnitSeconds(u));
  }

  /**
   * In terms of the two timestamps: a position opened at `startTime` and shown
   * as n units of u seconds at time `now` was opened between n and n + 1 units ago.
   */
  lemma PositionTimeMeaning(now: int, startTime: int)
    requires startTime <= now
    ensures ParseBucket(FormatPositionTime(now, startTime)).Some?
    ensures var (n, u) := ParseBucket(FormatPositionTime(now, startTime)).value;
      startTime + n * UnitSeconds(u) <= now < startTime + (n + 1) * UnitSeconds(u)
  {
    FormatDurationMeaning(now - startTime);
  }

  /** The floored quotient counts whole units: n * k <= d < (n + 1) * k for n = d / k. */
  lemma FlooredCount(d: nat, k: int)
    requires k >= 1
    ensures (d / k) * k <= d < (d / k + 1) * k
  {
  }

  /** A rendered count followed by a unit suffix reads back as that count and unit. */
  lemma ParseRendered(count: nat, unit: char)
    requires unit in "smhd"
    ensures ParseBucket(NatToString(count) + [unit]) == Some((count, unit))
  {
    var s := NatToString(count) + [unit];
    assert s[..|s| - 1] == NatToString(count);
    NatToStringRoundTrip(count);
  }

  /** Within its bucket the count is bounded: seconds 0..59, minutes 1..59, hours 1..23, days at least 1. */
  lemma BucketCountBounds(duration: nat)
    ensures ParseBucket(FormatDuration(duration)).Some?
    ensures var (n, u) := ParseBucket(FormatDuration(duration)).value;
      && (u == 's' ==> n <= 59)
      && (u == 'm' ==> 1 <= n <= 59)
      && (u == 'h' ==> 1 <= n <= 23)
      && (u == 'd' ==> 1 <= n)
  {
    FormatDurationMeaning(duration);
    var (n, u) := ParseBucket(FormatDuration(duration)).value;
    if u == 'm' {
      LessFromProduct(n, 60, 60);
      LessFromProduct(0, n + 1, 60);
    } else if u == 'h' {
      LessFromProduct(n, 24, 3600);
      LessFromProduct(0, n + 1, 3600);
    } else if u == 'd' {
      LessFromProduct(0, n + 1, 86400);
    }
  }

  lemma LessFromProduct(n: int, b: int, u: int)
    requires u > 0 && n * u < b * u
    ensures n < b
  {
    assert (b - n) * u == b * u - n * u;
  }

  /**
   * `Math.floor(duration / k)` on a JavaScript number agrees with Dafny's
   * integer division for a positive divisor, negative durations included.
   */
  lemma RealFloorDivision(duration: int, k: int)
    requires k > 0
    ensures (duration as real / k as real).Floor == duration / k
  {
    var q, r := duration / k, duration % k;
    assert duration == q * k + r && 0 <= r < k;
    assert duration as real / k as real == q as real + r as real / k as real;
    assert 0.0 <= r as real / k as real < 1.0;
  }

  /**
   * The template `${Math.floor(duration / k)}u` of the formatter copies that
   * floor a real quotient; it renders the same count as integer division.
   */
  function FlooredBucket(duration: int, k: int, unit: char): (s: string)
    requires k > 0
    ensures s == Render(duration / k, unit)
  {
    RealFloorDivision(duration, k);
    Render((duration as real / k as real).Floor, unit)
  }

  /** The boundary cases of the formatter: 59 s, 60 s and 90 s (never "1.5m"). */
  lemma BoundaryExamples(now: int)
    ensures FormatPositionTime(now, now - 59) == "59s"
    ensures FormatPositionTime(now, now - 60) == "1m"
    ensures FormatPositionTime(now, now - 90) == "1m"
  {
    assert NatToString(59) == NatToString(5) + [DigitChar(9)];
  }

  /** The worked cases below an hour. */
  lemma WorkedExamplesShort(now: int)
    ensures FormatPositionTime(now, now - 5) == "5s"
    ensures FormatPositionTime(now, now - 30) == "30s"
    ensures FormatPositionTime(now, now - 30 * 60) == "30m"
  {
    assert NatToString(30) == NatToString(3) + [DigitChar(0)];
  }

  /** The worked cases of one and three hours. */
  lemma WorkedExamplesHours(now: int)
    ensures FormatPositionTime(now, now - 60 * 60) == "1h"
    ensures FormatPositionTime(now, now - 3 * 60 * 60) == "3h"
  {
    assert FormatDuration(60 * 60) == Render(1, 'h');
    assert FormatDuration(3 * 60 * 60) == Render(3, 'h');
  }

  /** The worked cases of one, two and seven days. */
  lemma WorkedExamplesDays(now: int)
    ensures FormatPositionTime(now, now - 24 * 60 * 60) == "1d"
    ensures FormatPositionTime(now, now - 2 * 24 * 60 * 60) == "2d"
    ensures FormatPositionTime(now, now - 7 * 24 * 60 * 60) == "7d"
  {
    assert FormatDuration(24 * 60 * 60) == Render(1, 'd');
    assert FormatDuration(2 * 24 * 60 * 60) == Render(2, 'd');
    assert FormatDuration(7 * 24 * 60 * 60) == Render(7, 'd');
  }
}
