/** The "System Health" card: a score out of 100 from the latest reading and
    the alert list, its band label and colour class, and the OK / issue
    counts. */
module HealthScore {
  import opened Wrappers
  import opened Records
  import opened Text

  /** The wide calibration limits the score checks against. */
  function WideLimits(p: string): (r: (real, real))
    requires p in PARAMETERS
  {
    if p == TEMPERATURE then (0.0, 100.0)
    else if p == PH then (0.0, 14.0)
    else if p == DISSOLVED_OXYGEN then (0.0, 20.0)
    else (0.0, 50.0)
  }

  /** `value < min || value > max` for a present value; a missing value
      compares false either way. */
  predicate OutOfRange(r: Reading, p: string)
    requires p in PARAMETERS
  {
    var v := ValueOf(r, p);
    v.Some? && (v.value < WideLimits(p).0 || v.value > WideLimits(p).1)
  }

  /** The parameters of `ps` whose value in `r` is out of range, in order. */
  function OutParameters(r: Reading, ps: seq<string>): (out: seq<string>)
    requires forall i :: 0 <= i < |ps| ==> ps[i] in PARAMETERS
    ensures |out| <= |ps|
    ensures forall p :: p in out <==> p in ps && OutOfRange(r, p)
    ensures (forall i, j :: 0 <= i < j < |ps| ==> ps[i] != ps[j]) ==>
            forall i, j :: 0 <= i < j < |out| ==> out[i] != out[j]
  {
    if |ps| == 0 then []
    else
      var rest := OutParameters(r, ps[1..]);
      assert (forall i, j :: 0 <= i < j < |ps| ==> ps[i] != ps[j]) ==> ps[0] !in ps[1..];
      (if OutOfRange(r, ps[0]) then [ps[0]] else []) + rest
  }

  /** Points `alertPenalty[severity] || 2` deducts for one alert. */
  function AlertPenalty(severity: Option<string>): (n: nat)
    ensures n == 10 <==> severity == Some("high")
    ensures n == 5 <==> severity == Some("medium")
    ensures n == 2 <==> severity != Some("high") && severity != Some("medium")
  {
    if severity == Some("high") then 10
    else if severity == Some("medium") then 5
    else 2
  }

  /** Total penalty of an alert list. */
  function TotalPenalty(alerts: seq<Alert>): (t: nat)
    ensures 2 * |alerts| <= t <= 10 * |alerts|
  {
    if |alerts| == 0 then 0 else AlertPenalty(alerts[0].severity) + TotalPenalty(alerts[1..])
  }

  function Clamp(x: int): (c: int)
    ensures 0 <= c <= 100
    ensures 0 <= x <= 100 ==> c == x
  {
    if x < 0 then 0 else if x > 100 then 100 else x
  }

  /** `calculateHealthScore()`: 0 without readings, otherwise 100 less 15
      per out-of-range parameter of the newest reading and the penalty of
      every alert, clamped to 0..100. */
  function CalculateHealthScore(readings: seq<Reading>, alerts: seq<Alert>): (s: int)
    ensures |readings| == 0 ==> s == 0
    ensures 0 <= s <= 100
  {
    if |readings| == 0 then 0
    else Clamp(100 - 15 * |OutParameters(readings[0], PARAMETERS)| - TotalPenalty(alerts))
  }

  /** Without alerts the score is 100 less exactly 15 for each out-of-range
      parameter, each counted once; in particular all values in range give
      100. */
  lemma ScoreWithoutAlerts(readings: seq<Reading>)
    requires |readings| > 0
    ensures var out := OutParameters(readings[0], PARAMETERS);
            && CalculateHealthScore(readings, []) == 100 - 15 * |out|
            && (forall p :: p in out <==> p in PARAMETERS && OutOfRange(readings[0], p))
            && (forall i, j :: 0 <= i < j < |out| ==> out[i] != out[j])
    ensures (forall p :: p in PARAMETERS ==> !OutOfRange(readings[0], p)) ==>
            CalculateHealthScore(readings, []) == 100
  {
    var out := OutParameters(readings[0], PARAMETERS);
    assert forall i, j :: 0 <= i < j < |PARAMETERS| ==> PARAMETERS[i] != PARAMETERS[j];
    if forall p :: p in PARAMETERS ==> !OutOfRange(readings[0], p) {
      if |out| > 0 {
        assert out[0] in out;
      }
    }
  }

  /** Prepending an alert never raises the score, and lowers it by exactly
      its penalty while the result stays above 0. */
  lemma AddingAlertNeverRaises(readings: seq<Reading>, a: Alert, alerts: seq<Alert>)
    ensures CalculateHealthScore(readings, [a] + alerts) <= CalculateHealthScore(readings, alerts)
    ensures |readings| > 0 &&
            100 - 15 * |OutParameters(readings[0], PARAMETERS)| - TotalPenalty([a] + alerts) >= 0 ==>
            CalculateHealthScore(readings, [a] + alerts) == CalculateHealthScore(readings, alerts) - AlertPenalty(a.severity)
  {
    assert ([a] + alerts)[1..] == alerts;
  }

  /** `getScoreLabel()`. */
  function ScoreLabel(score: int): (l: string)
    ensures l == "Excellent" <==> score >= 80
    ensures l == "Good" <==> 60 <= score < 80
    ensures l == "Fair" <==> 40 <= score < 60
    ensures l == "Poor" <==> score < 40
  {
    if score >= 80 then "Excellent"
    else if score >= 60 then "Good"
    else if score >= 40 then "Fair"
    else "Poor"
  }

  /** `getScoreColor()`: the CSS class of the band. */
  function ScoreColor(score: int): string {
    if score >= 80 then "excellent"
    else if score >= 60 then "good"
    else if score >= 40 then "fair"
    else "poor"
  }

  /** The colour class is always the label in lower case. */
  lemma ColorAgreesWithLabel(score: int)
    ensures ScoreColor(score) == ToLowerAscii(ScoreLabel(score))
  {
    var l := ScoreLabel(score);
    assert ToLowerAscii(l) == [LowerChar(l[0])] + l[1..];
  }

  /** `{5 - alerts.length} OK`: negative above five alerts; with the issue
      count it always sums to five. */
  function OkCount(alerts: seq<Alert>): (n: int)
    ensures n + |alerts| == 5
    ensures n < 0 <==> |alerts| > 5
  {
    5 - |alerts|
  }
}
