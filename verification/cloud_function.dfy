/** The Pub/Sub-triggered cloud function: it stores a reading and checks it
    against a fixed Asian Seabass table. Message decoding, the database and
    the logging are outside the model; what the database does is a
    parameter. */
module CloudFunction {
  import opened Wrappers
  import opened Records
  import opened Bridge

  /** The fixed table, in dictionary order. */
  const FIXED_LIMITS: seq<Limit> := [
    Limit(TEMPERATURE, 26.0, 32.0),
    Limit(PH, 7.0, 8.5),
    Limit(DISSOLVED_OXYGEN, 4.0, 8.0),
    Limit(AMMONIA, 0.0, 0.02),
    Limit(SALINITY, 28.0, 32.0)]

  function Abs(x: real): real {
    if x < 0.0 then -x else x
  }

  /** The severity rule as written: dissolved oxygen and ammonia are high;
      otherwise medium when the value is more than half the range's width
      away from either bound, else low. */
  function SeverityAsWritten(param: string, v: real, l: Limit): (s: string)
    ensures s == "high" <==> param == DISSOLVED_OXYGEN || param == AMMONIA
    ensures param != DISSOLVED_OXYGEN && param != AMMONIA && l.min <= l.max ==>
              (s == "low" <==> v == (l.min + l.max) / 2.0)
  {
    if param == DISSOLVED_OXYGEN || param == AMMONIA then "high"
    else if Abs(v - l.min) > (l.max - l.min) * 0.5 || Abs(v - l.max) > (l.max - l.min) * 0.5 then "medium"
    else "low"
  }

  /** As written, `'low'` is never produced for an out-of-range value of a
      well-formed range: such a value is farther than the whole width from
      the opposite bound. */
  lemma LowUnreachable(param: string, v: real, l: Limit)
    requires l.min <= l.max
    requires v < l.min || v > l.max
    ensures SeverityAsWritten(param, v, l) != "low"
  {
  }

  /** Temperature 32.5 is only 0.5 above its maximum of 32, yet the rule as
      written calls it medium. */
  lemma SlightExcessIsMedium()
    ensures SeverityAsWritten(TEMPERATURE, 32.5, FIXED_LIMITS[0]) == "medium"
  {
  }

  /** How far a value lies past the bound it violates. */
  function Excess(v: real, l: Limit): real {
    if v < l.min then l.min - v else v - l.max
  }

  /** The evidently intended rule: dissolved oxygen and ammonia are high;
      otherwise medium when the value is more than half the width past the
      violated bound, low when it is closer. */
  function Severity(param: string, v: real, l: Limit): (s: string)
    requires v < l.min || v > l.max
    ensures s == "high" <==> param == DISSOLVED_OXYGEN || param == AMMONIA
    ensures s != "high" ==> (s == "medium" <==> Excess(v, l) > (l.max - l.min) * 0.5)
    ensures s != "high" ==> (s == "low" <==> Excess(v, l) <= (l.max - l.min) * 0.5)
  {
    if param == DISSOLVED_OXYGEN || param == AMMONIA then "high"
    else if Excess(v, l) > (l.max - l.min) * 0.5 then "medium"
    else "low"
  }

  /** Under the intended rule the slight excess above is low, and every
      severity is reachable. */
  lemma SeverityLevelsReachable()
    ensures Severity(TEMPERATURE, 32.5, FIXED_LIMITS[0]) == "low"
    ensures Severity(TEMPERATURE, 40.0, FIXED_LIMITS[0]) == "medium"
    ensures Severity(AMMONIA, 0.5, FIXED_LIMITS[3]) == "high"
  {
  }

  /** An alert row the function inserts. */
  datatype CloudAlert = CloudAlert(device: Json, param: string, value: real, min: real, max: real, severity: string)

  /** One table entry's created alert: only for a numeric value strictly
      outside the limits whose insert succeeded. The row carries the device,
      the parameter, the value, the entry's limits and the severity graded
      as written, which is never `low` for a well-formed entry. */
  function CreateOne(data: Payload, l: Limit, parse: string -> Option<real>, insertOk: string -> bool): (r: Option<CloudAlert>)
    ensures r.Some? <==>
            NumericValue(data, l.param, parse).Some?
            && !(l.min <= NumericValue(data, l.param, parse).value <= l.max)
            && insertOk(l.param)
    ensures r.Some? ==>
            && r.value.device == DeviceOf(data)
            && r.value.param == l.param && r.value.value == NumericValue(data, l.param, parse).value
            && r.value.min == l.min && r.value.max == l.max
            && r.value.severity == SeverityAsWritten(l.param, r.value.value, l)
    ensures r.Some? && l.min <= l.max ==> r.value.severity in {"high", "medium"}
  {
    var v := NumericValue(data, l.param, parse);
    if v.None? then None
    else if (v.value < l.min || v.value > l.max) && insertOk(l.param) then
      assert l.min <= l.max ==> SeverityAsWritten(l.param, v.value, l) != "low" by {
        if l.min <= l.max {
          LowUnreachable(l.param, v.value, l);
        }
      }
      Some(CloudAlert(DeviceOf(data), l.param, v.value, l.min, l.max, SeverityAsWritten(l.param, v.value, l)))
    else None
  }

  /** `check_thresholds(data)`: the alerts created, one per entry of the
      fixed table at most, in table order; as written none is ever graded
      `low`. */
  function CheckThresholds(data: Payload, parse: string -> Option<real>, insertOk: string -> bool): (created: seq<CloudAlert>)
    ensures |created| <= 5
    ensures forall i :: 0 <= i < |created| ==> created[i].severity in {"high", "medium"}
  {
    var opts := seq(5, i requires 0 <= i < 5 => CreateOne(data, FIXED_LIMITS[i], parse, insertOk));
    assert forall k :: 0 <= k < 5 ==> opts[k] == CreateOne(data, FIXED_LIMITS[k], parse, insertOk);
    Present(opts)
  }

  /** The payload `{temperature: 32.5}` is stored with a `medium` alert,
      although it is only 0.5 above the maximum of 32. */
  lemma CreatedSlightExcessIsMedium(parse: string -> Option<real>)
    ensures var created := CheckThresholds(map[TEMPERATURE := JNum(32.5)], parse, _ => true);
            exists i :: 0 <= i < |created| && created[i].param == TEMPERATURE && created[i].severity == "medium"
  {
    var data := map[TEMPERATURE := JNum(32.5)];
    var created := CheckThresholds(data, parse, _ => true);
    CreatedExactly(data, parse, _ => true, 0);
    var i :| 0 <= i < |created| && created[i].param == TEMPERATURE;
    CreatedAt(data, parse, _ => true, i);
    var opts := seq(5, i requires 0 <= i < 5 => CreateOne(data, FIXED_LIMITS[i], parse, _ => true));
    var k := PresentPositions(opts)[i];
    if k != 0 {
      FixedParamsDistinct(k, 0);
    }
    assert opts[0] == Some(created[i]);
  }

  /** The fixed table names five different parameters (their names even
      differ in length). */
  lemma FixedParamsDistinct(i: nat, j: nat)
    requires i < 5 && j < 5 && i != j
    ensures FIXED_LIMITS[i].param != FIXED_LIMITS[j].param
  {
    assert |FIXED_LIMITS[i].param| != |FIXED_LIMITS[j].param|;
  }

  /** The i-th created alert belongs to the entry at the i-th present
      position. */
  lemma CreatedAt(data: Payload, parse: string -> Option<real>, insertOk: string -> bool, i: nat)
    requires i < |CheckThresholds(data, parse, insertOk)|
    ensures var opts := seq(5, i requires 0 <= i < 5 => CreateOne(data, FIXED_LIMITS[i], parse, insertOk));
            var k := PresentPositions(opts)[i];
            k < 5 && CheckThresholds(data, parse, insertOk)[i].param == FIXED_LIMITS[k].param
  {
    var opts := seq(5, i requires 0 <= i < 5 => CreateOne(data, FIXED_LIMITS[i], parse, insertOk));
    var k := PresentPositions(opts)[i];
    assert opts[k] == CreateOne(data, FIXED_LIMITS[k], parse, insertOk);
  }

  /** An alert is created for a parameter exactly when its value is numeric,
      strictly outside the fixed limits, and its insert succeeded. */
  lemma CreatedExactly(data: Payload, parse: string -> Option<real>, insertOk: string -> bool, q: nat)
    requires q < 5
    ensures var created := CheckThresholds(data, parse, insertOk);
            var l := FIXED_LIMITS[q];
            (exists i :: 0 <= i < |created| && created[i].param == l.param) <==>
            NumericValue(data, l.param, parse).Some?
            && !(l.min <= NumericValue(data, l.param, parse).value <= l.max)
            && insertOk(l.param)
  {
    var opts := seq(5, i requires 0 <= i < 5 => CreateOne(data, FIXED_LIMITS[i], parse, insertOk));
    var ks := PresentPositions(opts);
    var created := Present(opts);
    var l := FIXED_LIMITS[q];
    assert opts[q] == CreateOne(data, l, parse, insertOk);
    if opts[q].Some? {
      var i :| 0 <= i < |ks| && ks[i] == q;
      assert created[i].param == l.param;
    }
    if exists i :: 0 <= i < |created| && created[i].param == l.param {
      var i :| 0 <= i < |created| && created[i].param == l.param;
      CreatedAt(data, parse, insertOk, i);
      if ks[i] != q {
        FixedParamsDistinct(ks[i], q);
      }
    }
  }

  /** The HTTP-style status `process_sensor_data` returns. */
  datatype Response = Response(status: int, created: seq<CloudAlert>)

  /** `process_sensor_data`: a message that does not decode, a reading
      field that does not convert or a failed reading insert gives 500;
      otherwise the thresholds are checked and 200 is returned. */
  function ProcessSensorData(msg: Option<Payload>, parse: string -> Option<real>, storeOk: bool,
                             insertOk: string -> bool): (r: Response)
    ensures r.status == 200 || r.status == 500
    ensures r.status == 200 <==> msg.Some? && StoredFields(msg.value, parse).Some? && storeOk
    ensures r.status == 500 ==> r.created == []
    ensures r.status == 200 ==> r.created == CheckThresholds(msg.value, parse, insertOk)
  {
    if msg.None? || StoredFields(msg.value, parse).None? || !storeOk then Response(500, [])
    else Response(200, CheckThresholds(msg.value, parse, insertOk))
  }
}
