/** The daylight card: the day-length text, whether it is daytime, and the
    two recommended feeding times 90 minutes inside sunrise and sunset.
    Instants are milliseconds since the epoch; the sunrise-sunset request is
    left out and its outcome is an input, as are the current time and the
    clock-time formatter. */
module Daylight {
  import opened Wrappers
  import opened Text

  datatype SunData = SunData(sunrise: int, sunset: int, dayLength: int, solarNoon: int)

  /** Data is kept only when the service answers with status `OK`. */
  function Accept(status: string, results: SunData): (d: Option<SunData>)
    ensures d.Some? <==> status == "OK"
    ensures d.Some? ==> d.value == results
  {
    if status == "OK" then Some(results) else None
  }

  /** JavaScript's `%`: the remainder takes the sign of the dividend. */
  function JsRem(a: int, m: int): (r: int)
    requires m > 0
    ensures a >= 0 ==> 0 <= r < m
    ensures a < 0 ==> -m < r <= 0
  {
    if a >= 0 then a % m else -((-a) % m)
  }

  /** `formatDayLength(seconds)` as its two numbers: whole hours, then whole
      minutes of what is left; for a non-negative length the pair is the
      length rounded down to the minute. */
  function DayLength(seconds: int): (hm: (int, int))
    ensures seconds >= 0 ==> 0 <= hm.0 && 0 <= hm.1 <= 59
    ensures seconds >= 0 ==> 3600 * hm.0 + 60 * hm.1 <= seconds < 3600 * hm.0 + 60 * hm.1 + 60
    ensures seconds < 0 ==> hm.0 < 0 && -60 <= hm.1 <= 0
  {
    var hours := seconds / 3600;
    var minutes := JsRem(seconds, 3600) / 60;
    (hours, minutes)
  }

  /** An integer as JavaScript's template literal renders it. */
  function IntText(n: int): (s: string)
    ensures |s| >= 1
    ensures n >= 0 ==> s == NatToDecimal(n)
    ensures n < 0 ==> s == "-" + NatToDecimal(-n)
  {
    if n >= 0 then NatToDecimal(n) else "-" + NatToDecimal(-n)
  }

  /** `${hours}h ${minutes}m`. */
  function DayLengthText(seconds: int): (s: string)
    ensures var hm := DayLength(seconds);
            s == IntText(hm.0) + "h " + IntText(hm.1) + "m"
  {
    var hm := DayLength(seconds);
    IntText(hm.0) + "h " + IntText(hm.1) + "m"
  }

  /** A whole day of daylight reads "24h 0m". */
  lemma FullDayText()
    ensures DayLengthText(86400) == "24h 0m"
  {
    assert NatToDecimal(24) == "24";
    assert NatToDecimal(0) == "0";
  }

  /** `isDaytime()`: assumed day before there is data, otherwise sunrise to
      sunset inclusive. */
  function IsDaytime(sun: Option<SunData>, now: int): (b: bool)
    ensures sun.None? ==> b
    ensures sun.Some? ==> (b <==> sun.value.sunrise <= now <= sun.value.sunset)
  {
    match sun
    case None => true
    case Some(d) => now >= d.sunrise && now <= d.sunset
  }

  /** `90 * 60000`: an hour and a half in milliseconds. */
  const FEEDING_OFFSET := 90 * 60000

  /** The morning and evening feeding instants: 90 minutes after sunrise
      and 90 minutes before sunset. */
  function FeedingTimes(d: SunData): (t: (int, int))
    ensures t.0 - d.sunrise == 5400000
    ensures d.sunset - t.1 == 5400000
  {
    (d.sunrise + FEEDING_OFFSET, d.sunset - FEEDING_OFFSET)
  }

  /** `getOptimalFeedingTime()`: "Loading..." without data, otherwise the
      two formatted times joined by " & ". */
  function FeedingText(sun: Option<SunData>, formatTime: int -> string): (s: string)
    ensures sun.None? ==> s == "Loading..."
    ensures sun.Some? ==> s == formatTime(FeedingTimes(sun.value).0) + " & " + formatTime(FeedingTimes(sun.value).1)
  {
    match sun
    case None => "Loading..."
    case Some(d) =>
      var t := FeedingTimes(d);
      formatTime(t.0) + " & " + formatTime(t.1)
  }

  /** When the day is at least three hours long, both feeding times fall in
      daytime and the morning one comes first. */
  lemma FeedingInDaylight(d: SunData)
    requires d.sunset - d.sunrise >= 2 * FEEDING_OFFSET
    ensures IsDaytime(Some(d), FeedingTimes(d).0) && IsDaytime(Some(d), FeedingTimes(d).1)
    ensures FeedingTimes(d).0 <= FeedingTimes(d).1
  {
  }

  /** What the card shows: a loading line until the request settles,
      nothing without data, the schedule otherwise. */
  datatype Card = LoadingDaylight | NoCard | Schedule(daytime: bool, dayLength: string, feeding: string)

  function Render(loading: bool, sun: Option<SunData>, now: int, formatTime: int -> string): (c: Card)
    ensures loading <==> c == LoadingDaylight
    ensures !loading && sun.None? <==> c == NoCard
    ensures c.Schedule? ==> (c.daytime <==> sun.value.sunrise <= now <= sun.value.sunset)
  {
    if loading then LoadingDaylight
    else if sun.None? then NoCard
    else Schedule(IsDaytime(sun, now), DayLengthText(sun.value.dayLength), FeedingText(sun, formatTime))
  }
}
