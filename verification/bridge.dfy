/** The MQTT-to-database bridge: the cached threshold lookup, the threshold
    check that raises alerts, and the order of work when a sensor message
    arrives. The database, the clock and the e-mail sender are parameters;
    a payload is modelled after JSON decoding. */
module Bridge {
  import opened Wrappers
  import opened Records

  /** A decoded JSON value, as far as the bridge distinguishes them. */
  datatype Json = JNull | JBool(b: bool) | JNum(n: real) | JStr(s: string) | JOther

  /** A decoded JSON object. */
  type Payload = map<string, Json>

  /** Python's `float(value)`: numbers and booleans convert, a string
      converts when `parse` accepts it, and `None`, lists and objects raise. */
  function ToFloat(j: Json, parse: string -> Option<real>): (r: Option<real>)
    ensures j.JNum? ==> r == Some(j.n)
    ensures j.JNull? || j.JOther? ==> r.None?
  {
    match j
    case JNull => None
    case JBool(b) => Some(if b then 1.0 else 0.0)
    case JNum(n) => Some(n)
    case JStr(s) => parse(s)
    case JOther => None
  }

  /** One parameter's (min, max) pair. */
  datatype Limit = Limit(param: string, min: real, max: real)

  /** `DEFAULT_THRESHOLDS`, in dictionary order. */
  const DEFAULT_LIMITS: seq<Limit> := [
    Limit(TEMPERATURE, 26.0, 32.0),
    Limit(PH, 6.0, 9.0),
    Limit(DISSOLVED_OXYGEN, 4.0, 8.0),
    Limit(AMMONIA, 0.0, 2.0),
    Limit(SALINITY, 28.0, 32.0)]

  /** A `threshold_settings` row: a column absent from the row is `None`. */
  datatype Row = Row(
    temperatureMin: Option<real>, temperatureMax: Option<real>,
    phMin: Option<real>, phMax: Option<real>,
    dissolvedOxygenMin: Option<real>, dissolvedOxygenMax: Option<real>,
    ammoniaMin: Option<real>, ammoniaMax: Option<real>)

  /** Outcome of the settings query. */
  datatype Query = DbError | NoRow | Found(row: Row)

  /** The module-level cache: the last loaded table and when it was loaded. */
  datatype Cache = Cache(limits: Option<seq<Limit>>, time: real)

  const CACHE_SECONDS := 30.0

  /** The table a loaded row gives: each bound from its own column, or the
      default bound when the column is absent; salinity always keeps its
      default. */
  function FromRow(s: Row): (ls: seq<Limit>)
    ensures |ls| == 5 && ls[4] == Limit(SALINITY, 28.0, 32.0)
    ensures forall i :: 0 <= i < 5 ==> ls[i].param == DEFAULT_LIMITS[i].param
    ensures ls[0] == Limit(TEMPERATURE, s.temperatureMin.GetOr(DEFAULT_LIMITS[0].min), s.temperatureMax.GetOr(DEFAULT_LIMITS[0].max))
    ensures ls[1] == Limit(PH, s.phMin.GetOr(DEFAULT_LIMITS[1].min), s.phMax.GetOr(DEFAULT_LIMITS[1].max))
    ensures ls[2] == Limit(DISSOLVED_OXYGEN, s.dissolvedOxygenMin.GetOr(DEFAULT_LIMITS[2].min),
                           s.dissolvedOxygenMax.GetOr(DEFAULT_LIMITS[2].max))
    ensures ls[3] == Limit(AMMONIA, s.ammoniaMin.GetOr(DEFAULT_LIMITS[3].min), s.ammoniaMax.GetOr(DEFAULT_LIMITS[3].max))
  {
    [Limit(TEMPERATURE, s.temperatureMin.GetOr(26.0), s.temperatureMax.GetOr(32.0)),
     Limit(PH, s.phMin.GetOr(6.0), s.phMax.GetOr(9.0)),
     Limit(DISSOLVED_OXYGEN, s.dissolvedOxygenMin.GetOr(4.0), s.dissolvedOxygenMax.GetOr(8.0)),
     Limit(AMMONIA, s.ammoniaMin.GetOr(0.0), s.ammoniaMax.GetOr(2.0)),
     Limit(SALINITY, 28.0, 32.0)]
  }

  /** A cache that holds a table loaded less than 30 seconds ago. */
  predicate Fresh(c: Cache, now: real) {
    c.limits.Some? && |c.limits.value| > 0 && now - c.time < CACHE_SECONDS
  }

  /** `get_thresholds()` at time `now`, given what the query would return:
      a fresh cache is answered without querying; a found row is loaded,
      cached and returned; on an error or no row the defaults are returned
      and the cache is left as it was. */
  function GetThresholds(c: Cache, now: real, q: Query): (r: (seq<Limit>, Cache))
    ensures Fresh(c, now) ==> r == (c.limits.value, c)
    ensures !Fresh(c, now) && q.Found? ==> r == (FromRow(q.row), Cache(Some(FromRow(q.row)), now))
    ensures !Fresh(c, now) && !q.Found? ==> r == (DEFAULT_LIMITS, c)
  {
    if Fresh(c, now) then (c.limits.value, c)
    else match q
      case Found(row) => (FromRow(row), Cache(Some(FromRow(row)), now))
      case _ => (DEFAULT_LIMITS, c)
  }

  /** A table of the bridge's shape: the five parameters in dictionary
      order, with salinity at 28..32. */
  predicate Shaped(ls: seq<Limit>) {
    && |ls| == 5
    && (forall i :: 0 <= i < 5 ==> ls[i].param == DEFAULT_LIMITS[i].param)
    && ls[4] == Limit(SALINITY, 28.0, 32.0)
  }

  /** Every limit names one of the five known parameters, in the limits
      returned and in the cache kept, provided the cache started that way:
      the invariant `get_thresholds` keeps. */
  lemma ThresholdParamsKnown(c: Cache, now: real, q: Query)
    requires c.limits.Some? ==> forall i :: 0 <= i < |c.limits.value| ==> c.limits.value[i].param in PARAMETERS
    ensures var r := GetThresholds(c, now, q);
            && (forall i :: 0 <= i < |r.0| ==> r.0[i].param in PARAMETERS)
            && (r.1.limits.Some? ==> forall i :: 0 <= i < |r.1.limits.value| ==> r.1.limits.value[i].param in PARAMETERS)
  {
  }

  /** Whatever the database holds, the table used has the bridge's shape —
      in particular salinity's limits are always 28..32, even from a loaded
      row — and the cache keeps that shape. */
  lemma SalinityAlwaysDefault(c: Cache, now: real, q: Query)
    requires c.limits.Some? ==> Shaped(c.limits.value)
    ensures Shaped(GetThresholds(c, now, q).0)
    ensures GetThresholds(c, now, q).1.limits.Some? ==> Shaped(GetThresholds(c, now, q).1.limits.value)
  {
  }

  /** An alert the bridge raises (a row for the `alerts` table). */
  datatype BridgeAlert = BridgeAlert(device: Json, param: string, value: real, min: real, max: real, severity: string)

  /** A raised alert, whether its insert succeeded, and whether an e-mail
      was requested for it. */
  datatype Raised = Raised(alert: BridgeAlert, stored: bool, emailed: bool)

  /** `data.get('device_id', 'esp32-001')`. */
  function DeviceOf(data: Payload): (d: Json)
    ensures "device_id" !in data ==> d == JStr("esp32-001")
    ensures "device_id" in data ==> d == data["device_id"]
  {
    if "device_id" in data then data["device_id"] else JStr("esp32-001")
  }

  /** The numeric value of a parameter, when it is present, not null and
      converts with `float`. */
  function NumericValue(data: Payload, param: string, parse: string -> Option<real>): Option<real> {
    if param !in data || data[param].JNull? then None else ToFloat(data[param], parse)
  }

  /** `'high'` for ammonia, ph and temperature, `'medium'` otherwise. */
  function BridgeSeverity(param: string): (s: string)
    ensures s == "high" <==> param in [AMMONIA, PH, TEMPERATURE]
    ensures s == "medium" <==> param !in [AMMONIA, PH, TEMPERATURE]
  {
    if param == AMMONIA || param == PH || param == TEMPERATURE then "high" else "medium"
  }

  /** What one table entry contributes: an alert only for a numeric value
      strictly outside the limits; its e-mail is sent only when the insert
      succeeded. */
  function CheckOne(data: Payload, l: Limit, parse: string -> Option<real>, insertOk: string -> bool): (r: Option<Raised>)
    ensures r.Some? <==>
            NumericValue(data, l.param, parse).Some?
            && (NumericValue(data, l.param, parse).value < l.min || NumericValue(data, l.param, parse).value > l.max)
    ensures r.Some? ==>
            && r.value.alert == BridgeAlert(DeviceOf(data), l.param, NumericValue(data, l.param, parse).value,
                                            l.min, l.max, BridgeSeverity(l.param))
            && r.value.stored == insertOk(l.param)
            && (r.value.emailed <==> r.value.stored)
  {
    var v := NumericValue(data, l.param, parse);
    if v.None? then None
    else if v.value < l.min || v.value > l.max then
      var ok := insertOk(l.param);
      Some(Raised(BridgeAlert(DeviceOf(data), l.param, v.value, l.min, l.max, BridgeSeverity(l.param)), ok, ok))
    else None
  }

  /** `check_thresholds(data)` against a given table: the alerts of the
      entries, in table order. `insertOk` says which inserts succeed. */
  function CheckThresholds(data: Payload, limits: seq<Limit>, parse: string -> Option<real>,
                           insertOk: string -> bool): (rs: seq<Raised>)
    ensures |rs| <= |limits|
  {
    Present(seq(|limits|, i requires 0 <= i < |limits| => CheckOne(data, limits[i], parse, insertOk)))
  }

  /** The i-th raised alert is the one `check_thresholds` builds for the
      limit entry at the i-th raising position. */
  lemma RaisedAt(data: Payload, limits: seq<Limit>, parse: string -> Option<real>, insertOk: string -> bool, i: nat)
    requires i < |CheckThresholds(data, limits, parse, insertOk)|
    ensures var opts := seq(|limits|, i requires 0 <= i < |limits| => CheckOne(data, limits[i], parse, insertOk));
            var k := PresentPositions(opts)[i];
            && k < |limits| && CheckOne(data, limits[k], parse, insertOk).Some?
            && CheckThresholds(data, limits, parse, insertOk)[i] == CheckOne(data, limits[k], parse, insertOk).value
  {
    var opts := seq(|limits|, i requires 0 <= i < |limits| => CheckOne(data, limits[i], parse, insertOk));
    var k := PresentPositions(opts)[i];
    assert opts[k] == CheckOne(data, limits[k], parse, insertOk);
  }

  /** Each raised alert comes from a table entry, in table order, whose
      value lies strictly outside its limits; every such entry raises one;
      a value on a bound raises nothing. */
  lemma CheckThresholdsSpec(data: Payload, limits: seq<Limit>, parse: string -> Option<real>,
                            insertOk: string -> bool)
    ensures var rs := CheckThresholds(data, limits, parse, insertOk);
            var ks := PresentPositions(seq(|limits|, i requires 0 <= i < |limits| => CheckOne(data, limits[i], parse, insertOk)));
            && |ks| == |rs|
            && (forall i :: 0 <= i < |rs| ==>
                  ks[i] < |limits| && rs[i].alert.param == limits[ks[i]].param
                  && (rs[i].alert.value < limits[ks[i]].min || rs[i].alert.value > limits[ks[i]].max)
                  && (rs[i].emailed <==> rs[i].stored))
            && (forall i, j :: 0 <= i < j < |rs| ==> ks[i] < ks[j])
            && (forall q :: 0 <= q < |limits| ==>
                  (q in ks <==>
                   NumericValue(data, limits[q].param, parse).Some?
                   && !(limits[q].min <= NumericValue(data, limits[q].param, parse).value <= limits[q].max)))
  {
    var opts := seq(|limits|, i requires 0 <= i < |limits| => CheckOne(data, limits[i], parse, insertOk));
    var ks := PresentPositions(opts);
    var rs := Present(opts);
    forall i | 0 <= i < |rs|
      ensures ks[i] < |limits| && rs[i].alert.param == limits[ks[i]].param
      ensures rs[i].alert.value < limits[ks[i]].min || rs[i].alert.value > limits[ks[i]].max
    {
      RaisedAt(data, limits, parse, insertOk, i);
    }
    forall q | 0 <= q < |limits|
      ensures q in ks ==> NumericValue(data, limits[q].param, parse).Some?
    {
      assert opts[q] == CheckOne(data, limits[q], parse, insertOk);
    }
  }

  /** A missing, null or non-numeric value never raises an alert (the
      table names each parameter once). */
  lemma SkippedValuesRaiseNothing(data: Payload, limits: seq<Limit>, parse: string -> Option<real>,
                                  insertOk: string -> bool, q: nat)
    requires q < |limits|
    requires forall i :: 0 <= i < |limits| && i != q ==> limits[i].param != limits[q].param
    requires NumericValue(data, limits[q].param, parse).None?
    ensures forall i :: 0 <= i < |CheckThresholds(data, limits, parse, insertOk)| ==>
              CheckThresholds(data, limits, parse, insertOk)[i].alert.param != limits[q].param
  {
    CheckThresholdsSpec(data, limits, parse, insertOk);
  }

  /** What the bridge does with one message. */
  datatype Outcome =
    | Malformed                      // the payload is not a JSON object
    | StoreFailed                    // a reading field did not convert, or the insert raised
    | Processed(reading: seq<real>, raised: seq<Raised>)

  /** The reading columns stored for a message, in the order temperature,
      ph, dissolved_oxygen, ammonia, salinity: `float(data.get(f, 0))`. */
  function StoredFields(data: Payload, parse: string -> Option<real>): (r: Option<seq<real>>)
    ensures r.Some? ==> |r.value| == 5
    ensures r.Some? <==> forall i :: 0 <= i < 5 && PARAMETERS[i] in data ==> ToFloat(data[PARAMETERS[i]], parse).Some?
    ensures r.Some? ==> forall i :: 0 <= i < 5 ==>
              r.value[i] == if PARAMETERS[i] in data then ToFloat(data[PARAMETERS[i]], parse).value else 0.0
  {
    var vs := seq(5, i requires 0 <= i < 5 =>
                    if PARAMETERS[i] in data then ToFloat(data[PARAMETERS[i]], parse) else Some(0.0));
    assert forall i :: 0 <= i < 5 ==>
      vs[i] == if PARAMETERS[i] in data then ToFloat(data[PARAMETERS[i]], parse) else Some(0.0);
    if forall i :: 0 <= i < 5 ==> vs[i].Some? then
      Some(seq(5, i requires 0 <= i < 5 => vs[i].value))
    else
      assert exists i :: 0 <= i < 5 && !vs[i].Some?;
      None
  }

  /** A message whose present reading fields are all JSON numbers is
      stored: each number as it is, and each missing field as 0.0. */
  lemma NumericFieldsStoredAsSent(data: Payload, parse: string -> Option<real>)
    requires forall i :: 0 <= i < 5 && PARAMETERS[i] in data ==> data[PARAMETERS[i]].JNum?
    ensures StoredFields(data, parse).Some?
    ensures forall i :: 0 <= i < 5 ==>
              StoredFields(data, parse).value[i] == if PARAMETERS[i] in data then data[PARAMETERS[i]].n else 0.0
  {
  }

  /** `on_message`: the reading is stored first; only when every stored
      field converted and the insert succeeded are the thresholds fetched
      and checked. The cache is touched only then. */
  function OnMessage(msg: Option<Payload>, parse: string -> Option<real>, storeOk: bool,
                     c: Cache, now: real, q: Query, insertOk: string -> bool): (r: (Outcome, Cache))
    ensures msg.None? ==> r == (Malformed, c)
    ensures msg.Some? && (StoredFields(msg.value, parse).None? || !storeOk) ==> r == (StoreFailed, c)
    ensures r.0.Processed? ==>
            && msg.Some? && storeOk && StoredFields(msg.value, parse) == Some(r.0.reading)
            && r.0.raised == CheckThresholds(msg.value, GetThresholds(c, now, q).0, parse, insertOk)
            && r.1 == GetThresholds(c, now, q).1
    ensures msg.Some? && StoredFields(msg.value, parse).Some? && storeOk ==>
            r == (Processed(StoredFields(msg.value, parse).value,
                            CheckThresholds(msg.value, GetThresholds(c, now, q).0, parse, insertOk)),
                  GetThresholds(c, now, q).1)
  {
    if msg.None? then (Malformed, c)
    else
      var fields := StoredFields(msg.value, parse);
      if fields.None? || !storeOk then (StoreFailed, c)
      else
        var (limits, c') := GetThresholds(c, now, q);
        (Processed(fields.value, CheckThresholds(msg.value, limits, parse, insertOk)), c')
  }

  /** Against a table that names each parameter once, an entry's parameter
      has an alert among the raised ones iff its value is numeric and
      strictly outside the entry's bounds. */
  lemma RaisedForEntry(data: Payload, limits: seq<Limit>, parse: string -> Option<real>,
                       insertOk: string -> bool, k: nat)
    requires k < |limits|
    requires forall i, j :: 0 <= i < j < |limits| ==> limits[i].param != limits[j].param
    ensures var rs := CheckThresholds(data, limits, parse, insertOk);
            (exists i :: 0 <= i < |rs| && rs[i].alert.param == limits[k].param) <==>
            NumericValue(data, limits[k].param, parse).Some?
            && !(limits[k].min <= NumericValue(data, limits[k].param, parse).value <= limits[k].max)
  {
    var rs := CheckThresholds(data, limits, parse, insertOk);
    var ks := PresentPositions(seq(|limits|, i requires 0 <= i < |limits| => CheckOne(data, limits[i], parse, insertOk)));
    CheckThresholdsSpec(data, limits, parse, insertOk);
    assert k in ks <==>
           NumericValue(data, limits[k].param, parse).Some?
           && !(limits[k].min <= NumericValue(data, limits[k].param, parse).value <= limits[k].max);
    if k in ks {
      var i :| 0 <= i < |ks| && ks[i] == k;
      assert rs[i].alert.param == limits[k].param;
    } else {
      forall i | 0 <= i < |rs|
        ensures rs[i].alert.param != limits[k].param
      {
        assert ks[i] != k && ks[i] < |limits|;
      }
    }
  }

  /** A message is checked iff it decoded, every stored field converted and
      the insert succeeded; a checked message is checked against a table of
      five entries and raises an alert for an entry's parameter iff that
      value is numeric and strictly outside the entry's bounds. */
  lemma StoredMessageIsChecked(msg: Option<Payload>, parse: string -> Option<real>, storeOk: bool,
                               c: Cache, now: real, q: Query, insertOk: string -> bool)
    requires c.limits.Some? ==> Shaped(c.limits.value)
    ensures var r := OnMessage(msg, parse, storeOk, c, now, q, insertOk);
            r.0.Processed? <==> msg.Some? && StoredFields(msg.value, parse).Some? && storeOk
    ensures var r := OnMessage(msg, parse, storeOk, c, now, q, insertOk);
            var limits := GetThresholds(c, now, q).0;
            r.0.Processed? ==>
              && |limits| == 5
              && forall k :: 0 <= k < 5 ==>
                   ((exists i :: 0 <= i < |r.0.raised| && r.0.raised[i].alert.param == limits[k].param) <==>
                    NumericValue(msg.value, limits[k].param, parse).Some?
                    && !(limits[k].min <= NumericValue(msg.value, limits[k].param, parse).value <= limits[k].max))
  {
    var r := OnMessage(msg, parse, storeOk, c, now, q, insertOk);
    if r.0.Processed? {
      var limits := GetThresholds(c, now, q).0;
      SalinityAlwaysDefault(c, now, q);
      ShapedParamsDistinct(limits);
      forall k | 0 <= k < 5
        ensures (exists i :: 0 <= i < |r.0.raised| && r.0.raised[i].alert.param == limits[k].param) <==>
                NumericValue(msg.value, limits[k].param, parse).Some?
                && !(limits[k].min <= NumericValue(msg.value, limits[k].param, parse).value <= limits[k].max)
      {
        RaisedForEntry(msg.value, limits, parse, insertOk, k);
      }
    }
  }

  /** A table of the bridge's shape names each parameter once. */
  lemma ShapedParamsDistinct(ls: seq<Limit>)
    requires Shaped(ls)
    ensures forall i, j :: 0 <= i < j < |ls| ==> ls[i].param != ls[j].param
  {
    assert forall i :: 0 <= i < 5 ==> ls[i].param == PARAMETERS[i];
  }

  /** A message whose stored temperature is a non-numeric string raises no
      alert at all, even when another parameter is far out of range: the
      store step fails before any check. */
  lemma BadStoredFieldBlocksCheck(ammonia: real, c: Cache, now: real, q: Query, insertOk: string -> bool)
    ensures var msg := map[TEMPERATURE := JStr("warm"), AMMONIA := JNum(ammonia)];
            OnMessage(Some(msg), s => None, true, c, now, q, insertOk).0 == StoreFailed
  {
    var msg := map[TEMPERATURE := JStr("warm"), AMMONIA := JNum(ammonia)];
    assert PARAMETERS[0] in msg;
  }
}
