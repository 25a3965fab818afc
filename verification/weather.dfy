/** The weather card: WMO weather-code classification and the water-quality
    impact line drawn from current conditions. The forecast request is left
    out; its outcome (conditions, or none when it fails) is an input. */
module Weather {
  import opened Wrappers
  import opened Text

  datatype Conditions = Conditions(
    temperature: real,
    humidity: real,
    windSpeed: real,
    precipitation: real,
    weatherCode: int,
    location: string)

  datatype Description = ClearSky | PartlyCloudy | Rainy | HeavyRain | Cloudy

  /** `getWeatherDescription(code)`. */
  function DescribeCode(code: int): (d: Description)
    ensures d == ClearSky <==> code == 0
    ensures d == PartlyCloudy <==> 1 <= code <= 3
    ensures d == Rainy <==> 51 <= code <= 67
    ensures d == HeavyRain <==> 80 <= code <= 99
    ensures d == Cloudy <==> code < 0 || 4 <= code <= 50 || 68 <= code <= 79 || code > 99
  {
    if code == 0 then ClearSky
    else if 1 <= code <= 3 then PartlyCloudy
    else if 51 <= code <= 67 then Rainy
    else if 80 <= code <= 99 then HeavyRain
    else Cloudy
  }

  /** The text shown for a description. */
  function DescriptionText(d: Description): string {
    match d
    case ClearSky => "Clear Sky"
    case PartlyCloudy => "Partly Cloudy"
    case Rainy => "Rainy"
    case HeavyRain => "Heavy Rain"
    case Cloudy => "Cloudy"
  }

  datatype Icon = SunIcon | RainIcon | CloudIcon

  /** `getWeatherIcon(code)`. */
  function IconFor(code: int): (i: Icon)
    ensures i == SunIcon <==> code == 0
    ensures i == RainIcon <==> 51 <= code <= 67 || 80 <= code <= 99
  {
    if code == 0 then SunIcon
    else if 51 <= code <= 67 then RainIcon
    else if 80 <= code <= 99 then RainIcon
    else CloudIcon
  }

  /** The icon and the description agree: rain exactly for the two rain
      descriptions, sun exactly for a clear sky, and a cloud for partly
      cloudy and cloudy skies. */
  lemma IconMatchesDescription(code: int)
    ensures IconFor(code) == RainIcon <==> DescribeCode(code) in {Rainy, HeavyRain}
    ensures IconFor(code) == SunIcon <==> DescribeCode(code) == ClearSky
    ensures IconFor(code) == CloudIcon <==> DescribeCode(code) in {PartlyCloudy, Cloudy}
  {
  }

  const HIGH_TEMP := "\U{26A0}\U{FE0F} High temp may increase water temperature"
  const COOL := "\U{2744}\U{FE0F} Cool weather may lower water temp"
  const RAIN := "\U{1F327}\U{FE0F} Rain may dilute salinity and affect pH"
  const WIND := "\U{1F4A8} Strong winds increase water oxygenation"
  const NORMAL := "\U{2705} Normal conditions"
  const IMPACT_SEPARATOR := " \U{2022} "

  /** Where each impact sits in the fixed reporting order. */
  function ImpactOrder(s: string): nat {
    if s == HIGH_TEMP || s == COOL then 0 else if s == RAIN then 1 else 2
  }

  /** The impacts of current conditions, in the order temperature, rain,
      wind: each present exactly when its condition holds, high and cool
      temperature never together. */
  function Impacts(w: Conditions): (r: seq<string>)
    ensures |r| <= 3
    ensures HIGH_TEMP in r <==> w.temperature > 32.0
    ensures COOL in r <==> w.temperature < 24.0
    ensures RAIN in r <==> w.precipitation > 0.0
    ensures WIND in r <==> w.windSpeed > 20.0
    ensures !(HIGH_TEMP in r && COOL in r)
    ensures forall i :: 0 <= i < |r| ==> r[i] in {HIGH_TEMP, COOL, RAIN, WIND}
    ensures forall i, j :: 0 <= i < j < |r| ==> ImpactOrder(r[i]) < ImpactOrder(r[j])
  {
    var t := if w.temperature > 32.0 then [HIGH_TEMP] else if w.temperature < 24.0 then [COOL] else [];
    var p := if w.precipitation > 0.0 then [RAIN] else [];
    var v := if w.windSpeed > 20.0 then [WIND] else [];
    assert HIGH_TEMP[0] != COOL[0] && HIGH_TEMP[0] != RAIN[0] && HIGH_TEMP[0] != WIND[0];
    assert COOL[0] != RAIN[0] && COOL[0] != WIND[0] && RAIN[0] != WIND[0];
    t + p + v
  }

  /** `getWaterQualityImpact()`: "Loading..." before there are conditions,
      the impacts joined by " • " when there are any, and the all-clear
      line otherwise. */
  function ImpactText(w: Option<Conditions>): (s: string)
    ensures w.None? ==> s == "Loading..."
    ensures w.Some? && |Impacts(w.value)| == 0 ==> s == NORMAL
    ensures w.Some? && |Impacts(w.value)| > 0 ==> s == JoinWith(Impacts(w.value), IMPACT_SEPARATOR)
  {
    if w.None? then "Loading..."
    else
      var impacts := Impacts(w.value);
      if |impacts| > 0 then JoinWith(impacts, IMPACT_SEPARATOR) else NORMAL
  }

  /** Mild, dry, calm weather has no impact. */
  lemma MildWeatherIsNormal(w: Conditions)
    requires 24.0 <= w.temperature <= 32.0 && w.precipitation <= 0.0 && w.windSpeed <= 20.0
    ensures ImpactText(Some(w)) == NORMAL
  {
  }

  /** What the card shows: a loading line until the request settles,
      nothing when it failed, the conditions otherwise. */
  datatype Card = LoadingWeather | NoCard | Shown(icon: Icon, description: string, showRain: bool, impact: string)

  function Render(loading: bool, w: Option<Conditions>): (c: Card)
    ensures loading <==> c == LoadingWeather
    ensures !loading && w.None? <==> c == NoCard
    ensures c.Shown? ==> c.impact != "Loading..." && (c.showRain <==> RAIN in Impacts(w.value))
  {
    if loading then LoadingWeather
    else if w.None? then NoCard
    else
      var x := w.value;
      assert NORMAL != "Loading...";
      Shown(IconFor(x.weatherCode), DescriptionText(DescribeCode(x.weatherCode)), x.precipitation > 0.0, ImpactText(w))
  }
}
