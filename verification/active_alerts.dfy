/** Alert generation from the latest reading, as the dashboard's shared
    helpers define it. The ISO timestamp of "now" and the fixed-point number
    formatter (`Number.prototype.toFixed`) are parameters. */
module ActiveAlerts {
  import opened Wrappers
  import opened Records
  import opened Thresholds

  /** The parameters alerts are generated for, in generation order
      (salinity is not among them). */
  const ALERT_PARAMETERS: seq<string> := [TEMPERATURE, PH, DISSOLVED_OXYGEN, AMMONIA]

  /** Position of a parameter in generation order; 4 for any other name. */
  function Position(p: string): (k: nat)
    ensures k <= 4
    ensures k < 4 <==> p in ALERT_PARAMETERS
    ensures k < 4 ==> ALERT_PARAMETERS[k] == p
  {
    if p == TEMPERATURE then 0
    else if p == PH then 1
    else if p == DISSOLVED_OXYGEN then 2
    else if p == AMMONIA then 3
    else 4
  }

  lemma PositionOfListed(k: nat)
    requires k < 4
    ensures Position(ALERT_PARAMETERS[k]) == k
  {
  }

  datatype ParameterConfig = ParameterConfig(displayName: string, unit: string, decimals: nat)

  /** Display label, unit and number of decimals of each alerted parameter. */
  function Config(p: string): ParameterConfig
    requires p in ALERT_PARAMETERS
  {
    if p == TEMPERATURE then ParameterConfig("Temperature", "°C", 1)
    else if p == PH then ParameterConfig("pH Level", "", 2)
    else if p == DISSOLVED_OXYGEN then ParameterConfig("Dissolved Oxygen", "mg/L", 2)
    else ParameterConfig("Ammonia", "ppm", 3)
  }

  datatype MessageKind = TooLow | TooHigh | ApproachingLow | ApproachingHigh

  function Phrase(k: MessageKind): string {
    match k
    case TooLow => "is too low"
    case TooHigh => "is too high"
    case ApproachingLow => "is approaching low limit"
    case ApproachingHigh => "is approaching high limit"
  }

  /** The alert text, e.g. "Temperature is too high (35.0 °C)". */
  function MessageText(p: string, k: MessageKind, v: real, fixed: (real, nat) -> string): string
    requires p in ALERT_PARAMETERS
  {
    Config(p).displayName + " " + Phrase(k) + " (" + fixed(v, Config(p).decimals) + " " + Config(p).unit + ")"
  }

  /** The alert a single parameter contributes: one exactly when its value
      is present and not green, and then it describes that value. */
  function ParameterAlert(reading: Reading, p: string, testMode: bool, custom: Stored<Table>,
                          timestamp: string, fixed: (real, nat) -> string): (r: Option<Alert>)
    requires p in ALERT_PARAMETERS
    ensures r.Some? ==> r.value.parameter == p
    ensures r.Some? <==> ValueOf(reading, p).Some? && GetStatusColor(ValueOf(reading, p), p, testMode, custom) != Green
    ensures r.Some? ==> Describes(r.value, reading, testMode, custom, timestamp, fixed)
  {
    var value := ValueOf(reading, p);
    if value.None? then None
    else
      var status := GetStatusColor(value, p, testMode, custom);
      if status == Green then None
      else
        var t := GetThreshold(p, testMode, custom);
        var v := value.value;
        var severity := if status == Red then "high" else "medium";
        var kind := if status == Red then (if v < t.min then TooLow else TooHigh) else WarningKind(v, t);
        Some(Alert(p + "-" + timestamp, p, Some(severity), MessageText(p, kind, v, fixed), Some(timestamp), "active"))
  }

  /** What an alert generated for `reading` says: its parameter has a value,
      the severity is high exactly when the value is outside the resolved
      range, the message direction (outside the range, the side it lies on;
      inside it, always "approaching high limit", as the direction test is
      written), and the id, time and status fields. */
  ghost predicate Describes(a: Alert, reading: Reading, testMode: bool, custom: Stored<Table>,
                            timestamp: string, fixed: (real, nat) -> string)
  {
    && a.parameter in ALERT_PARAMETERS
    && ValueOf(reading, a.parameter).Some?
    && var v := ValueOf(reading, a.parameter).value;
       var t := GetThreshold(a.parameter, testMode, custom);
       && GetStatusColor(Some(v), a.parameter, testMode, custom) != Green
       && (a.severity == Some("high") <==> !Within(v, t))
       && (a.severity == Some("medium") <==> Within(v, t))
       && (!Within(v, t) && v < t.min ==> a.message == MessageText(a.parameter, TooLow, v, fixed))
       && (!Within(v, t) && v >= t.min ==> a.message == MessageText(a.parameter, TooHigh, v, fixed))
       && (Within(v, t) ==> a.message == MessageText(a.parameter, ApproachingHigh, v, fixed))
       && a.id == a.parameter + "-" + timestamp
       && a.createdAt == Some(timestamp)
       && a.status == "active"
  }

  /** A parameter contributes an alert exactly when its value is present and
      not green, and the alert then describes that value. */
  lemma ParameterAlertSpec(reading: Reading, p: string, testMode: bool, custom: Stored<Table>,
                           timestamp: string, fixed: (real, nat) -> string)
    requires p in ALERT_PARAMETERS
    ensures var r := ParameterAlert(reading, p, testMode, custom, timestamp, fixed);
            && (r.Some? <==> ValueOf(reading, p).Some? && GetStatusColor(ValueOf(reading, p), p, testMode, custom) != Green)
            && (r.Some? ==> Describes(r.value, reading, testMode, custom, timestamp, fixed))
  {
  }

  /** The per-parameter alerts, in generation order. */
  function PerParameter(reading: Reading, testMode: bool, custom: Stored<Table>,
                        timestamp: string, fixed: (real, nat) -> string): (opts: seq<Option<Alert>>)
    ensures |opts| == 4
    ensures forall q :: 0 <= q < 4 ==> opts[q] == ParameterAlert(reading, ALERT_PARAMETERS[q], testMode, custom, timestamp, fixed)
  {
    seq(4, q requires 0 <= q < 4 => ParameterAlert(reading, ALERT_PARAMETERS[q], testMode, custom, timestamp, fixed))
  }

  /** The i-th present per-parameter alert is the alert of the parameter at
      the i-th present position. */
  lemma PresentAlertAt(reading: Reading, testMode: bool, custom: Stored<Table>,
                       timestamp: string, fixed: (real, nat) -> string, i: nat)
    requires i < |Present(PerParameter(reading, testMode, custom, timestamp, fixed))|
    ensures var alerts := Present(PerParameter(reading, testMode, custom, timestamp, fixed));
            var k := PresentPositions(PerParameter(reading, testMode, custom, timestamp, fixed))[i];
            && k < 4
            && alerts[i].parameter == ALERT_PARAMETERS[k]
            && Position(alerts[i].parameter) == k
            && Describes(alerts[i], reading, testMode, custom, timestamp, fixed)
  {
    var opts := PerParameter(reading, testMode, custom, timestamp, fixed);
    var k := PresentPositions(opts)[i];
    PositionOfListed(k);
    ParameterAlertSpec(reading, ALERT_PARAMETERS[k], testMode, custom, timestamp, fixed);
  }

  /** The present per-parameter alerts follow generation order with distinct
      ids, never concern salinity, each describes the reading's value of its
      parameter, and a listed parameter is among them exactly when its
      status colour is red or yellow. */
  lemma PresentAlertsSpec(reading: Reading, testMode: bool, custom: Stored<Table>,
                          timestamp: string, fixed: (real, nat) -> string)
    ensures var alerts := Present(PerParameter(reading, testMode, custom, timestamp, fixed));
            && (forall i :: 0 <= i < |alerts| ==>
                  alerts[i].parameter != SALINITY && Describes(alerts[i], reading, testMode, custom, timestamp, fixed))
            && (forall i, j :: 0 <= i < j < |alerts| ==>
                  Position(alerts[i].parameter) < Position(alerts[j].parameter) && alerts[i].id != alerts[j].id)
            && (forall p :: p in ALERT_PARAMETERS ==>
                  (p in ParametersOf(alerts) <==> GetStatusColor(ValueOf(reading, p), p, testMode, custom) in {Red, Yellow}))
  {
    var opts := PerParameter(reading, testMode, custom, timestamp, fixed);
    var alerts := Present(opts);
    var ks := PresentPositions(opts);
    forall i | 0 <= i < |alerts|
      ensures alerts[i].parameter != SALINITY && Describes(alerts[i], reading, testMode, custom, timestamp, fixed)
    {
      PresentAlertAt(reading, testMode, custom, timestamp, fixed, i);
    }
    forall i, j | 0 <= i < j < |alerts|
      ensures Position(alerts[i].parameter) < Position(alerts[j].parameter) && alerts[i].id != alerts[j].id
    {
      PresentAlertAt(reading, testMode, custom, timestamp, fixed, i);
      PresentAlertAt(reading, testMode, custom, timestamp, fixed, j);
      DistinctIds(alerts[i].parameter, alerts[j].parameter, timestamp);
    }
    forall p | p in ALERT_PARAMETERS
      ensures p in ParametersOf(alerts) <==> GetStatusColor(ValueOf(reading, p), p, testMode, custom) in {Red, Yellow}
    {
      var q := Position(p);
      ParameterAlertSpec(reading, p, testMode, custom, timestamp, fixed);
      if opts[q].Some? {
        var i :| 0 <= i < |ks| && ks[i] == q;
        assert ParametersOf(alerts)[i] == p;
      }
      if p in ParametersOf(alerts) {
        var i :| 0 <= i < |alerts| && ParametersOf(alerts)[i] == p;
        PresentAlertAt(reading, testMode, custom, timestamp, fixed, i);
      }
    }
  }

  /** `generateActiveAlerts(reading, testMode)`: no reading gives no alerts;
      otherwise at most one alert per alerted parameter, in generation order,
      for exactly the parameters whose colour is red or yellow, each
      describing that parameter's value. */
  function GenerateActiveAlerts(reading: Option<Reading>, testMode: bool, custom: Stored<Table>,
                                timestamp: string, fixed: (real, nat) -> string): (alerts: seq<Alert>)
    ensures reading.None? ==> alerts == []
    ensures |alerts| <= 4
    ensures reading.Some? ==> forall i :: 0 <= i < |alerts| ==>
              alerts[i].parameter != SALINITY && Describes(alerts[i], reading.value, testMode, custom, timestamp, fixed)
    ensures reading.Some? ==> forall i, j :: 0 <= i < j < |alerts| ==>
              Position(alerts[i].parameter) < Position(alerts[j].parameter) && alerts[i].id != alerts[j].id
    ensures reading.Some? ==> forall p :: p in ALERT_PARAMETERS ==>
              (p in ParametersOf(alerts) <==> GetStatusColor(ValueOf(reading.value, p), p, testMode, custom) in {Red, Yellow})
  {
    if reading.None? then []
    else
      PresentAlertsSpec(reading.value, testMode, custom, timestamp, fixed);
      Present(PerParameter(reading.value, testMode, custom, timestamp, fixed))
  }

  /** The parameter names of a list of alerts, in order. */
  function ParametersOf(alerts: seq<Alert>): (ps: seq<string>)
    ensures |ps| == |alerts|
    ensures forall i :: 0 <= i < |alerts| ==> ps[i] == alerts[i].parameter
  {
    seq(|alerts|, i requires 0 <= i < |alerts| => alerts[i].parameter)
  }

  /** Ids built from different parameters and one timestamp differ. */
  lemma DistinctIds(p: string, q: string, timestamp: string)
    requires p != q
    ensures p + "-" + timestamp != q + "-" + timestamp
  {
    var sp := p + "-" + timestamp;
    var sq := q + "-" + timestamp;
    if |p| == |q| {
      assert sp[..|p|] == p && sq[..|q|] == q;
    }
  }

  /** The direction word of a yellow alert, as written: it compares the value
      with `min`, which a yellow value never falls below, so every yellow
      alert says "approaching high limit", whichever edge it is near. */
  function WarningKind(v: real, t: Range): (k: MessageKind)
    ensures t.min <= v ==> k == ApproachingHigh
    ensures k == ApproachingLow ==> !Within(v, t)
  {
    if v < t.min then ApproachingLow else ApproachingHigh
  }

  /** As written, every medium (yellow) alert generated says "approaching
      high limit", whichever edge its value is near. */
  lemma AsWrittenWarningAlwaysHigh(reading: Reading, testMode: bool, custom: Stored<Table>,
                                   timestamp: string, fixed: (real, nat) -> string)
    ensures var alerts := GenerateActiveAlerts(Some(reading), testMode, custom, timestamp, fixed);
            forall i :: 0 <= i < |alerts| && alerts[i].severity == Some("medium") ==>
              alerts[i].message == MessageText(alerts[i].parameter, ApproachingHigh,
                                               ValueOf(reading, alerts[i].parameter).value, fixed)
  {
  }

  /** The evidently intended direction of a warning: toward the low edge
      exactly when the value is in the low 10% band. */
  function WarningKindCorrected(v: real, t: Range): (k: MessageKind)
    requires Within(v, t)
    ensures k == ApproachingLow || k == ApproachingHigh
    ensures k == ApproachingLow <==> v < WarnLow(t)
  {
    if v < t.min + (t.max - t.min) * 0.1 then ApproachingLow else ApproachingHigh
  }

  /** A production temperature of 26.1 is 0.1 above the minimum of 26 and
      5.9 below the maximum: it yields one medium alert, which says
      "approaching high limit", while the intended direction rule says
      "approaching low limit" for it. */
  lemma NearLowEdgeExample(fixed: (real, nat) -> string)
    ensures var r := Reading(0, None, Some(26.1), None, None, None, None);
            var alerts := GenerateActiveAlerts(Some(r), false, Absent, "t", fixed);
            |alerts| == 1 && alerts[0].severity == Some("medium")
            && alerts[0].message == MessageText(TEMPERATURE, ApproachingHigh, 26.1, fixed)
    ensures WarningKindCorrected(26.1, Range(26.0, 32.0)) == ApproachingLow
  {
    var r := Reading(0, None, Some(26.1), None, None, None, None);
    var alerts := GenerateActiveAlerts(Some(r), false, Absent, "t", fixed);
    OnlyTemperatureNear26(fixed);
    assert alerts == Present(PerParameter(r, false, Absent, "t", fixed));
    assert GetThreshold(TEMPERATURE, false, Absent) == Range(26.0, 32.0);
    assert ValueOf(r, alerts[0].parameter).Some?;
    assert WarningKindCorrected(26.1, Range(26.0, 32.0)) == ApproachingLow;
  }

  /** At production temperature 26.1 with nothing else measured, only the
      temperature entry of the per-parameter alerts is present. */
  lemma OnlyTemperatureNear26(fixed: (real, nat) -> string)
    ensures var r := Reading(0, None, Some(26.1), None, None, None, None);
            PresentPositions(PerParameter(r, false, Absent, "t", fixed)) == [0]
  {
    var r := Reading(0, None, Some(26.1), None, None, None, None);
    assert GetStatusColor(Some(26.1), TEMPERATURE, false, Absent) == Yellow;
    var opts := PerParameter(r, false, Absent, "t", fixed);
    assert opts[0].Some?;
    assert opts[1].None? && opts[2].None? && opts[3].None?;
    assert opts[..3][..2] == opts[..2] && opts[..2][..1] == opts[..1] && opts[..1][..0] == [];
    assert PresentPositions(opts[..1]) == [0];
    assert PresentPositions(opts[..2]) == [0];
    assert PresentPositions(opts[..3]) == [0];
  }
}
