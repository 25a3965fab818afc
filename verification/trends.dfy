/** The relative-time label of the dashboard header and the trend arrow of a
    parameter, as the dashboard's shared helpers compute them. The current
    time is a parameter. */
module Trends {
  import opened Wrappers
  import opened Records

  /** `formatRelativeTime` result: "Never", or a count with its unit. */
  datatype RelativeTime = Never | SecondsAgo(n: int) | MinutesAgo(n: int) | HoursAgo(n: int) | DaysAgo(n: int)

  const SECOND := 1000
  const MINUTE := 60 * SECOND
  const HOUR := 60 * MINUTE
  const DAY := 24 * HOUR

  /** Floored division is determined by quotient and remainder. */
  lemma DivUnique(x: int, m: int, q: int, r: int)
    requires m > 0 && 0 <= r < m && x == q * m + r
    ensures x / m == q
  {
    var q' := x / m;
    var r' := x % m;
    assert (q - q') * m == r' - r;
    if q > q' {
      MulAtLeast(q - q', m);
    } else if q < q' {
      MulAtLeast(q' - q, m);
    }
  }

  lemma MulAtLeast(k: int, m: int)
    requires k >= 1 && m > 0
    ensures k * m >= m
  {
  }

  /** Flooring twice is flooring once by the product (positive divisors). */
  lemma FloorTwice(x: int, a: int, b: int)
    requires a > 0 && b > 0
    ensures x / a / b == x / (a * b)
  {
    var q := x / a;
    var r := x % a;
    var q2 := q / b;
    var r2 := q % b;
    Regroup(x, a, b, q, r, q2, r2);
    RemainderBound(a, b, r, r2);
    DivUnique(x, a * b, q2, r2 * a + r);
  }

  lemma Regroup(x: int, a: int, b: int, q: int, r: int, q2: int, r2: int)
    requires x == q * a + r && q == q2 * b + r2
    ensures x == q2 * (a * b) + (r2 * a + r)
  {
    assert q * a == (q2 * b + r2) * a == q2 * (a * b) + r2 * a;
  }

  lemma RemainderBound(a: int, b: int, r: int, r2: int)
    requires a > 0 && b > 0 && 0 <= r < a && 0 <= r2 < b
    ensures 0 <= r2 * a + r < a * b
  {
    MulMono(r2, b - 1, a);
    assert (b - 1) * a == a * b - a;
  }

  lemma MulMono(u: int, v: int, a: int)
    requires u <= v && a > 0
    ensures u * a <= v * a
  {
  }

  /** `formatRelativeTime(date)` with `date` and `now` in milliseconds:
      the first bucket whose floored count stays below the limit
      (60 s, 60 min, 24 h), else days. A time in the future gives a negative
      second count. */
  function FormatRelativeTime(date: Option<int>, now: int): (r: RelativeTime)
    ensures date.None? <==> r == Never
  {
    if date.None? then Never
    else
      var diffMs := now - date.value;
      var diffSecs := diffMs / 1000;
      var diffMins := diffSecs / 60;
      var diffHours := diffMins / 60;
      var diffDays := diffHours / 24;
      if diffSecs < 60 then SecondsAgo(diffSecs)
      else if diffMins < 60 then MinutesAgo(diffMins)
      else if diffHours < 24 then HoursAgo(diffHours)
      else DaysAgo(diffDays)
  }

  /** The bucket is chosen by the elapsed milliseconds alone, and its count
      `n` is the floor of the elapsed time in that unit:
      `n * unit <= elapsed < (n + 1) * unit`. */
  lemma {:induction false} RelativeTimeBuckets(date: int, now: int)
    ensures var d := now - date;
            var r := FormatRelativeTime(Some(date), now);
            && (d < MINUTE <==> r.SecondsAgo?)
            && (MINUTE <= d < HOUR <==> r.MinutesAgo?)
            && (HOUR <= d < DAY <==> r.HoursAgo?)
            && (DAY <= d <==> r.DaysAgo?)
            && (r.SecondsAgo? ==> r.n * SECOND <= d < (r.n + 1) * SECOND)
            && (r.MinutesAgo? ==> 1 <= r.n < 60 && r.n * MINUTE <= d < (r.n + 1) * MINUTE)
            && (r.HoursAgo? ==> 1 <= r.n < 24 && r.n * HOUR <= d < (r.n + 1) * HOUR)
            && (r.DaysAgo? ==> 1 <= r.n && r.n * DAY <= d < (r.n + 1) * DAY)
  {
    var d := now - date;
    FloorTwice(d, 1000, 60);
    FloorTwice(d, 60000, 60);
    FloorTwice(d, 3600000, 24);
    assert d / 1000 / 60 / 60 == d / 3600000 by {
      FloorTwice(d / 1000, 60, 60);
      FloorTwice(d, 1000, 3600);
    }
    assert d / 1000 / 60 / 60 / 24 == d / 86400000 by {
      FloorTwice(d / 1000 / 60, 60, 24);
      FloorTwice(d / 1000, 60, 1440);
      FloorTwice(d, 1000, 86400);
    }
  }

  datatype Trend = Up | Down | Stable

  /** `readings.slice(0, 5)`: the newest five readings. */
  function Window(readings: seq<Reading>): (w: seq<Reading>)
    ensures |w| <= 5 && |w| <= |readings| && w == readings[..|w|]
    ensures |w| == 5 || |w| == |readings|
  {
    if |readings| <= 5 then readings else readings[..5]
  }

  /** `parameter`'s value in each reading of `rs`, missing ones included. */
  function Column(rs: seq<Reading>, parameter: string): (vs: seq<Option<real>>)
    ensures |vs| == |rs|
    ensures forall i :: 0 <= i < |rs| ==> vs[i] == ValueOf(rs[i], parameter)
  {
    seq(|rs|, i requires 0 <= i < |rs| => ValueOf(rs[i], parameter))
  }

  /** The positions, among the newest five readings, that hold a value of
      `parameter`. */
  function RecentPositions(readings: seq<Reading>, parameter: string): seq<nat> {
    PresentPositions(Column(Window(readings), parameter))
  }

  /** The values of `parameter` among the newest five readings, newest
      first, with missing ones dropped: value i comes from reading
      `RecentPositions(...)[i]`, those positions increase, and every
      reading among the five that has a value contributes it. */
  function RecentValues(readings: seq<Reading>, parameter: string): (vs: seq<real>)
    ensures |vs| <= 5 && |vs| <= |readings|
    ensures |vs| == |RecentPositions(readings, parameter)|
    ensures forall i :: 0 <= i < |vs| ==>
              RecentPositions(readings, parameter)[i] < 5
              && RecentPositions(readings, parameter)[i] < |readings|
              && ValueOf(readings[RecentPositions(readings, parameter)[i]], parameter) == Some(vs[i])
    ensures forall i, j :: 0 <= i < j < |vs| ==>
              RecentPositions(readings, parameter)[i] < RecentPositions(readings, parameter)[j]
    ensures forall q :: 0 <= q < 5 && q < |readings| && ValueOf(readings[q], parameter).Some? ==>
              q in RecentPositions(readings, parameter)
  {
    var w := Window(readings);
    var col := Column(w, parameter);
    assert forall q :: 0 <= q < |w| ==> w[q] == readings[q];
    Present(col)
  }

  /** The sign of JavaScript's `(last - first) / first * 100` when
      `first` is 0: +Infinity for a rise, -Infinity for a fall and NaN for
      no change; NaN fails both `Math.abs(change) < 2` and `change > 0`. */
  function ZeroBaseTrend(last: real): (t: Trend)
    ensures t != Stable
    ensures last == 0.0 ==> t == Down
  {
    if last > 0.0 then Up else Down
  }

  /** `calculateTrend(readings, parameter)`: the relative change in percent
      from the oldest to the newest of the recent values; under 2% either
      way is stable. */
  function CalculateTrend(readings: seq<Reading>, parameter: string): (t: Trend)
    ensures |readings| < 2 ==> t == Stable
    ensures |RecentValues(readings, parameter)| < 2 ==> t == Stable
  {
    if |readings| < 2 then Stable
    else
      var values := RecentValues(readings, parameter);
      if |values| < 2 then Stable
      else
        var first := values[|values| - 1];
        var last := values[0];
        if first == 0.0 then ZeroBaseTrend(last)
        else
          var change := (last - first) / first * 100.0;
          if -2.0 < change < 2.0 then Stable
          else if change > 0.0 then Up
          else Down
  }

  /** With a positive oldest value, the trend is up exactly when the newest
      value exceeds it by at least 2%, down exactly when it is at least 2%
      lower, and stable in between. */
  lemma PositiveBaseTrend(readings: seq<Reading>, parameter: string)
    requires |readings| >= 2
    requires |RecentValues(readings, parameter)| >= 2
    requires RecentValues(readings, parameter)[|RecentValues(readings, parameter)| - 1] > 0.0
    ensures var vs := RecentValues(readings, parameter);
            var first := vs[|vs| - 1];
            var last := vs[0];
            var t := CalculateTrend(readings, parameter);
            && (t == Up <==> last >= first * 1.02)
            && (t == Down <==> last <= first * 0.98)
            && (t == Stable <==> first * 0.98 < last < first * 1.02)
  {
    var vs := RecentValues(readings, parameter);
    var first := vs[|vs| - 1];
    var last := vs[0];
    var change := (last - first) / first * 100.0;
    assert change * first == (last - first) * 100.0;
  }

  /** As written, a parameter that read 0 throughout is reported as falling:
      0/0 is NaN, which is neither under 2% nor positive. */
  lemma ZeroSeriesIsDown(r0: Reading, r1: Reading)
    requires r0.temperature == Some(0.0) && r1.temperature == Some(0.0)
    ensures CalculateTrend([r0, r1], TEMPERATURE) == Down
  {
    var rs := [r0, r1];
    var ks := RecentPositions(rs, TEMPERATURE);
    var vs := RecentValues(rs, TEMPERATURE);
    assert 0 in ks && 1 in ks;
    assert |ks| == 2 && ks[0] == 0 && ks[1] == 1;
    assert vs[0] == 0.0 && vs[1] == 0.0;
  }

  /** The evidently intended trend: an unchanged value is stable whatever it
      is; otherwise as written. */
  function CalculateTrendCorrected(readings: seq<Reading>, parameter: string): (t: Trend)
    ensures |RecentValues(readings, parameter)| >= 2 && |readings| >= 2
            && RecentValues(readings, parameter)[0] == RecentValues(readings, parameter)[|RecentValues(readings, parameter)| - 1]
            ==> t == Stable
    ensures t != CalculateTrend(readings, parameter) ==>
            t == Stable && RecentValues(readings, parameter)[0] == 0.0 && RecentValues(readings, parameter)[|RecentValues(readings, parameter)| - 1] == 0.0
  {
    var values := RecentValues(readings, parameter);
    if |readings| >= 2 && |values| >= 2 && values[0] == values[|values| - 1] then Stable
    else CalculateTrend(readings, parameter)
  }
}
