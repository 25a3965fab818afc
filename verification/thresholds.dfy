/** Threshold resolution and the range and colour classification of the
    dashboard's shared helpers. The browser's `customThresholds` storage
    entry is an explicit parameter. */
module Thresholds {
  import opened Wrappers
  import opened Records

  datatype Range = Range(min: real, max: real)

  /** A parameter-name-to-range table (a JavaScript object of `{min, max}`). */
  type Table = map<string, Range>

  /** Inclusive range test. */
  predicate Within(v: real, r: Range) {
    r.min <= v <= r.max
  }

  /** Production thresholds. */
  function ProductionTable(): Table {
    map[TEMPERATURE := Range(26.0, 32.0),
        PH := Range(7.0, 8.5),
        DISSOLVED_OXYGEN := Range(4.0, 8.0),
        AMMONIA := Range(0.0, 0.5)]
  }

  /** Wide thresholds for calibration. */
  function TestTable(): Table {
    map[TEMPERATURE := Range(0.0, 100.0),
        PH := Range(0.0, 14.0),
        DISSOLVED_OXYGEN := Range(0.0, 20.0),
        AMMONIA := Range(0.0, 50.0)]
  }

  /** The range `getThreshold` returns for a parameter no table knows. */
  const FALLBACK := Range(0.0, 100.0)

  function ModeTable(testMode: bool): Table {
    if testMode then TestTable() else ProductionTable()
  }

  /** The stored custom table overrides for `parameter` only when it parsed
      and holds an entry for that parameter. */
  predicate Overrides(custom: Stored<Table>, parameter: string) {
    custom.Parsed? && parameter in custom.value
  }

  /** `isInRange(value, parameter, testMode)`. */
  function IsInRange(value: Option<real>, parameter: string, testMode: bool, custom: Stored<Table>): (b: bool)
    ensures value.None? ==> b
    ensures value.Some? && Overrides(custom, parameter) ==>
      (b <==> Within(value.value, custom.value[parameter]))
    ensures value.Some? && !Overrides(custom, parameter) && parameter in ModeTable(testMode) ==>
      (b <==> Within(value.value, ModeTable(testMode)[parameter]))
    ensures !Overrides(custom, parameter) && parameter !in ModeTable(testMode) ==> b
  {
    if value.None? then true
    else
      var table := if Overrides(custom, parameter) then custom.value else ModeTable(testMode);
      if parameter !in table then true
      else value.value >= table[parameter].min && value.value <= table[parameter].max
  }

  /** `getThreshold(parameter, testMode)`. */
  function GetThreshold(parameter: string, testMode: bool, custom: Stored<Table>): (r: Range)
    ensures Overrides(custom, parameter) ==> r == custom.value[parameter]
    ensures !Overrides(custom, parameter) && parameter in ModeTable(testMode) ==> r == ModeTable(testMode)[parameter]
    ensures !Overrides(custom, parameter) && parameter !in ModeTable(testMode) ==> r == FALLBACK
  {
    if Overrides(custom, parameter) then custom.value[parameter]
    else
      var table := ModeTable(testMode);
      if parameter in table then table[parameter] else FALLBACK
  }

  /** For a parameter some table knows, `isInRange` is the inclusive test
      against the range `getThreshold` resolves. */
  lemma InRangeAgreesWithThreshold(v: real, parameter: string, testMode: bool, custom: Stored<Table>)
    requires Overrides(custom, parameter) || parameter in ModeTable(testMode)
    ensures IsInRange(Some(v), parameter, testMode, custom) <==> Within(v, GetThreshold(parameter, testMode, custom))
  {
  }

  /** For a parameter neither table knows, `isInRange` reports every value
      as in range while `getThreshold` falls back to 0..100, so the two
      helpers disagree about 150. */
  lemma UnknownParameterDisagreement()
    ensures IsInRange(Some(150.0), "turbidity", false, Absent)
    ensures !Within(150.0, GetThreshold("turbidity", false, Absent))
  {
  }

  datatype Color = Gray | Red | Yellow | Green

  /** Lower edge of the inner band: 10% of the width above `min`. */
  function WarnLow(r: Range): real {
    r.min + (r.max - r.min) * 0.1
  }

  /** Upper edge of the inner band: 10% of the width below `max`. */
  function WarnHigh(r: Range): real {
    r.max - (r.max - r.min) * 0.1
  }

  /** `getStatusColor(value, parameter, testMode)`: gray for a missing value,
      red outside the resolved range, yellow inside it but within 10% of the
      width of an edge, green otherwise. */
  function GetStatusColor(value: Option<real>, parameter: string, testMode: bool, custom: Stored<Table>): (c: Color)
    ensures c == Gray <==> value.None?
    ensures c == Red <==> value.Some? && !Within(value.value, GetThreshold(parameter, testMode, custom))
    ensures c == Yellow <==>
      value.Some? && Within(value.value, GetThreshold(parameter, testMode, custom))
      && (value.value < WarnLow(GetThreshold(parameter, testMode, custom))
          || value.value > WarnHigh(GetThreshold(parameter, testMode, custom)))
    ensures c == Green <==>
      value.Some?
      && WarnLow(GetThreshold(parameter, testMode, custom)) <= value.value <= WarnHigh(GetThreshold(parameter, testMode, custom))
      && Within(value.value, GetThreshold(parameter, testMode, custom))
  {
    if value.None? then Gray
    else
      var t := GetThreshold(parameter, testMode, custom);
      var v := value.value;
      if !(v >= t.min && v <= t.max) then Red
      else
        var margin := (t.max - t.min) * 0.1;
        if v < t.min + margin || v > t.max - margin then Yellow
        else Green
  }

  /** With a well-formed range (min <= max) the inner band lies inside the
      range, so a value between the warning edges is green. */
  lemma GreenBand(v: real, parameter: string, testMode: bool, custom: Stored<Table>)
    requires GetThreshold(parameter, testMode, custom).min <= GetThreshold(parameter, testMode, custom).max
    requires WarnLow(GetThreshold(parameter, testMode, custom)) <= v <= WarnHigh(GetThreshold(parameter, testMode, custom))
    ensures GetStatusColor(Some(v), parameter, testMode, custom) == Green
  {
  }

  /** A yellow value is never below the resolved minimum: the yellow band is
      part of the range. */
  lemma YellowIsAtLeastMin(v: real, parameter: string, testMode: bool, custom: Stored<Table>)
    requires GetStatusColor(Some(v), parameter, testMode, custom) == Yellow
    ensures v >= GetThreshold(parameter, testMode, custom).min
    ensures IsInRange(Some(v), parameter, testMode, custom) || !(Overrides(custom, parameter) || parameter in ModeTable(testMode))
  {
  }

  /** Production temperature 31.5 lies in the upper warning band (31.4..32)
      and 35 lies above the range. */
  lemma TemperatureExamples()
    ensures GetStatusColor(Some(31.5), TEMPERATURE, false, Absent) == Yellow
    ensures GetStatusColor(Some(35.0), TEMPERATURE, false, Absent) == Red
    ensures GetStatusColor(Some(29.0), TEMPERATURE, false, Absent) == Green
    ensures GetStatusColor(Some(26.1), TEMPERATURE, false, Absent) == Yellow
  {
  }
}
