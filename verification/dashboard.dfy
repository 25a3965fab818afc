/** The dashboard page state — the reading window, the latest reading, the
    alert list — its updates from fetches and real-time events, and the
    alert panel's rendering decisions. Database calls, subscriptions and
    timers are left to the caller: their payloads are parameters. */
module Dashboard {
  import opened Wrappers
  import opened Records
  import opened Text
  import opened Trends
  import Thresholds
  import ActiveAlerts
  import Bridge
  import CloudFunction

  /** At most this many readings are kept, newest first. */
  const WINDOW := 50

  datatype State = State(
    readings: seq<Reading>,
    latest: Option<Reading>,
    alerts: seq<Alert>,
    lastUpdate: Option<int>,
    loading: bool)

  /** The state before the first fetch completes. */
  const Initial := State([], None, [], None, true)

  /** The window is bounded and the latest reading is its head. */
  ghost predicate Valid(s: State) {
    && |s.readings| <= WINDOW
    && (s.latest.Some? <==> |s.readings| > 0)
    && (|s.readings| > 0 ==> s.latest == Some(s.readings[0]))
  }

  lemma InitialValid()
    ensures Valid(Initial) && Initial.loading
  {
  }

  function Min(a: int, b: int): int {
    if a <= b then a else b
  }

  /** A real-time reading: `[newReading, ...prev].slice(0, 50)`. */
  function PushReading(s: State, r: Reading, now: int): (t: State)
    ensures |t.readings| > 0 && t.readings[0] == r && t.latest == Some(r) && t.lastUpdate == Some(now)
    ensures |t.readings| == Min(|s.readings| + 1, WINDOW)
    ensures forall i :: 1 <= i < |t.readings| ==> t.readings[i] == s.readings[i - 1]
    ensures t.alerts == s.alerts && t.loading == s.loading
  {
    var w := [r] + s.readings;
    s.(readings := if |w| <= WINDOW then w else w[..WINDOW], latest := Some(r), lastUpdate := Some(now))
  }

  /** A real-time alert: `[newAlert, ...prev]`, with no cap. */
  function PushAlert(s: State, a: Alert): (t: State)
    ensures |t.alerts| == |s.alerts| + 1 && t.alerts[0] == a && t.alerts[1..] == s.alerts
    ensures t.readings == s.readings && t.latest == s.latest && t.lastUpdate == s.lastUpdate
  {
    s.(alerts := [a] + s.alerts)
  }

  /** `alerts.filter((_, index) => index !== i)` over the suffix of the list
      that starts at index `k`. */
  function FilterIndex(alerts: seq<Alert>, i: int, k: int): (r: seq<Alert>)
    decreases |alerts|
  {
    if |alerts| == 0 then []
    else (if k == i then [] else [alerts[0]]) + FilterIndex(alerts[1..], i, k + 1)
  }

  /** Filtering out an index the suffix starting at `k` does not cover keeps
      it whole; filtering out one it covers drops exactly that element. */
  lemma {:induction false} FilterIndexSpec(alerts: seq<Alert>, i: int, k: int)
    ensures !(k <= i < k + |alerts|) ==> FilterIndex(alerts, i, k) == alerts
    ensures k <= i < k + |alerts| ==>
            FilterIndex(alerts, i, k) == alerts[..i - k] + alerts[i - k + 1..]
    decreases |alerts|
  {
    if |alerts| > 0 {
      FilterIndexSpec(alerts[1..], i, k + 1);
      if k < i < k + |alerts| {
        var tail := alerts[1..];
        assert FilterIndex(alerts, i, k) == [alerts[0]] + (tail[..i - k - 1] + tail[i - k..]);
        assert alerts[..i - k] == [alerts[0]] + tail[..i - k - 1];
        assert alerts[i - k + 1..] == tail[i - k..];
      } else {
        assert alerts == [alerts[0]] + alerts[1..];
      }
    }
  }

  /** `handleDismissAlert(i)`: the alert at position `i` is removed and the
      rest keep their order; any other `i` leaves the list unchanged. */
  function DismissAlert(s: State, i: int): (t: State)
    ensures 0 <= i < |s.alerts| ==> |t.alerts| == |s.alerts| - 1
    ensures 0 <= i < |s.alerts| ==> t.alerts == s.alerts[..i] + s.alerts[i + 1..]
    ensures !(0 <= i < |s.alerts|) ==> t.alerts == s.alerts
    ensures t.readings == s.readings && t.latest == s.latest
  {
    FilterIndexSpec(s.alerts, i, 0);
    s.(alerts := FilterIndex(s.alerts, i, 0))
  }

  /** `handleDismissAllAlerts()`. */
  function DismissAll(s: State): (t: State)
    ensures t.alerts == [] && t.readings == s.readings && t.latest == s.latest
  {
    s.(alerts := [])
  }

  /** Outcome of `Promise.all([getLatestReadings(50), getActiveAlerts()])`:
      a thrown error, or the two results, either of which may be null. */
  datatype FetchResult = FetchFailed | Fetched(readings: Option<seq<Reading>>, alerts: Option<seq<Alert>>)

  /** The initial fetch: a non-empty batch replaces the window and makes
      its head the latest reading (stamped with its own time); the alerts are
      replaced in any case, null by the empty list. A failed fetch changes
      nothing else. Loading ends either way, in the fetch's `finally`. (The
      auto-refresh makes the same replacements but never touches `loading`.) */
  function ApplyFetch(s: State, f: FetchResult): (t: State)
    ensures !t.loading
    ensures f.FetchFailed? ==> t == s.(loading := false)
    ensures f.Fetched? ==> t.alerts == f.alerts.GetOr([])
    ensures f.Fetched? && f.readings.Some? && |f.readings.value| > 0 ==>
            t.readings == f.readings.value && t.latest == Some(f.readings.value[0])
            && t.lastUpdate == Some(f.readings.value[0].timestamp)
    ensures f.Fetched? && (f.readings.None? || |f.readings.value| == 0) ==>
            t.readings == s.readings && t.latest == s.latest && t.lastUpdate == s.lastUpdate
  {
    match f
    case FetchFailed => s.(loading := false)
    case Fetched(rs, als) =>
      var s1 := if rs.Some? && |rs.value| > 0
                then s.(readings := rs.value, latest := Some(rs.value[0]), lastUpdate := Some(rs.value[0].timestamp))
                else s;
      s1.(alerts := als.GetOr([]), loading := false)
  }

  /** Every update keeps the window bounded with the latest reading at its
      head, provided a fetch returns no more readings than it asked for. */
  lemma UpdatesPreserveValid(s: State, r: Reading, a: Alert, i: int, f: FetchResult, now: int)
    requires Valid(s)
    requires f.Fetched? && f.readings.Some? ==> |f.readings.value| <= WINDOW
    ensures Valid(PushReading(s, r, now))
    ensures Valid(PushAlert(s, a))
    ensures Valid(DismissAlert(s, i))
    ensures Valid(DismissAll(s))
    ensures Valid(ApplyFetch(s, f))
  {
  }

  /** The advice `getRecommendation` shows, when the table has an entry. */
  function RecommendationEntry(parameter: string, severity: string): Option<string> {
    if severity == "high" then
      if parameter == TEMPERATURE then Some("Enable cooling system or add ice packs")
      else if parameter == AMMONIA then Some("Immediate water change (30-50%), reduce feeding")
      else if parameter == PH then Some("Add pH down solution or peat moss")
      else if parameter == DISSOLVED_OXYGEN then Some("Reduce aeration, check for algae bloom")
      else if parameter == SALINITY then Some("Dilute with fresh water")
      else None
    else if severity == "medium" then
      if parameter == TEMPERATURE then Some("Monitor closely, increase aeration")
      else if parameter == AMMONIA then Some("Partial water change (20%), check filter")
      else if parameter == PH then Some("Monitor and test water source")
      else if parameter == DISSOLVED_OXYGEN then Some("Increase water circulation")
      else if parameter == SALINITY then Some("Monitor evaporation rate")
      else None
    else None
  }

  const FALLBACK_ADVICE := "Check system parameters"

  /** `getRecommendation(parameter, severity)`: the table entry for a known
      parameter at high or medium severity, the generic advice otherwise
      (including for `'low'` and a missing severity). */
  function Recommendation(parameter: string, severity: Option<string>): (r: string)
    ensures r == FALLBACK_ADVICE <==>
            !(parameter in PARAMETERS && severity.Some? && severity.value in {"high", "medium"})
  {
    if severity.None? then FALLBACK_ADVICE
    else RecommendationEntry(parameter, severity.value).GetOr(FALLBACK_ADVICE)
  }

  /** Each known parameter has its own advice for high and for medium
      severity. */
  lemma HighAndMediumAdviceDiffer(parameter: string)
    requires parameter in PARAMETERS
    ensures Recommendation(parameter, Some("high")) != FALLBACK_ADVICE
    ensures Recommendation(parameter, Some("medium")) != FALLBACK_ADVICE
    ensures Recommendation(parameter, Some("high")) != Recommendation(parameter, Some("medium"))
  {
  }

  /** Every alert `generateActiveAlerts` builds from a reading would get
      specific advice, never the generic fallback: its parameter is a known
      one and its severity is high or medium. (The panel itself shows the
      alerts the back ends store, covered by `BackEndAlertsGetAdvice`.) */
  lemma GeneratedAlertsGetAdvice(reading: Reading, testMode: bool, custom: Stored<Thresholds.Table>,
                                 timestamp: string, fixed: (real, nat) -> string)
    ensures var alerts := ActiveAlerts.GenerateActiveAlerts(Some(reading), testMode, custom, timestamp, fixed);
            forall i :: 0 <= i < |alerts| ==> Recommendation(alerts[i].parameter, alerts[i].severity) != FALLBACK_ADVICE
  {
    var alerts := ActiveAlerts.GenerateActiveAlerts(Some(reading), testMode, custom, timestamp, fixed);
    forall i | 0 <= i < |alerts|
      ensures Recommendation(alerts[i].parameter, alerts[i].severity) != FALLBACK_ADVICE
    {
      assert ActiveAlerts.Describes(alerts[i], reading, testMode, custom, timestamp, fixed);
      assert alerts[i].parameter in PARAMETERS;
      assert alerts[i].severity in {Some("high"), Some("medium")};
    }
  }
  /** The alerts the panel shows come from the two back ends; every one of
      them gets specific advice. The bridge checks limits for the five known
      parameters and grades high or medium; the cloud function checks its
      fixed table and, as written, never grades low. */
  lemma BackEndAlertsGetAdvice(data: Bridge.Payload, limits: seq<Bridge.Limit>, parse: string -> Option<real>,
                               insertOk: string -> bool)
    requires forall i :: 0 <= i < |limits| ==> limits[i].param in PARAMETERS
    ensures var rs := Bridge.CheckThresholds(data, limits, parse, insertOk);
            forall i :: 0 <= i < |rs| ==>
              Recommendation(rs[i].alert.param, Some(rs[i].alert.severity)) != FALLBACK_ADVICE
    ensures var cs := CloudFunction.CheckThresholds(data, parse, insertOk);
            forall i :: 0 <= i < |cs| ==>
              Recommendation(cs[i].param, Some(cs[i].severity)) != FALLBACK_ADVICE
  {
    var rs := Bridge.CheckThresholds(data, limits, parse, insertOk);
    forall i | 0 <= i < |rs|
      ensures Recommendation(rs[i].alert.param, Some(rs[i].alert.severity)) != FALLBACK_ADVICE
    {
      BridgeAlertAdvice(data, limits, parse, insertOk, i);
    }
    var cs := CloudFunction.CheckThresholds(data, parse, insertOk);
    forall i | 0 <= i < |cs|
      ensures Recommendation(cs[i].param, Some(cs[i].severity)) != FALLBACK_ADVICE
    {
      CloudAlertAdvice(data, parse, insertOk, i);
    }
  }

  /** The i-th bridge alert, on a table of known parameters, gets specific advice. */
  lemma BridgeAlertAdvice(data: Bridge.Payload, limits: seq<Bridge.Limit>, parse: string -> Option<real>,
                          insertOk: string -> bool, i: nat)
    requires forall i :: 0 <= i < |limits| ==> limits[i].param in PARAMETERS
    requires i < |Bridge.CheckThresholds(data, limits, parse, insertOk)|
    ensures var a := Bridge.CheckThresholds(data, limits, parse, insertOk)[i].alert;
            Recommendation(a.param, Some(a.severity)) != FALLBACK_ADVICE
  {
    Bridge.RaisedAt(data, limits, parse, insertOk, i);
    var a := Bridge.CheckThresholds(data, limits, parse, insertOk)[i].alert;
    assert a.severity == Bridge.BridgeSeverity(a.param);
  }

  /** The i-th cloud-function alert gets specific advice. */
  lemma CloudAlertAdvice(data: Bridge.Payload, parse: string -> Option<real>, insertOk: string -> bool, i: nat)
    requires i < |CloudFunction.CheckThresholds(data, parse, insertOk)|
    ensures var a := CloudFunction.CheckThresholds(data, parse, insertOk)[i];
            Recommendation(a.param, Some(a.severity)) != FALLBACK_ADVICE
  {
    CloudFunction.CreatedAt(data, parse, insertOk, i);
  }


  /** `(alert.severity || 'warning').toUpperCase()`: an absent or empty
      severity shows as WARNING. */
  function SeverityBadge(severity: Option<string>): (b: string)
    ensures severity.None? || severity == Some("") ==> b == "WARNING"
    ensures severity.Some? && severity.value != "" ==> b == ToUpperAscii(severity.value)
  {
    ToUpperAscii(if severity.Some? && severity.value != "" then severity.value else "warning")
  }

  /** One rendered alert row; its dismiss button reports `dismissIndex`. */
  datatype Item = Item(
    title: string,
    message: string,
    recommendation: string,
    badge: string,
    time: Option<RelativeTime>,
    dismissIndex: nat)

  /** The panel shows either the healthy state or a list of alert rows. */
  datatype Panel = AllClear | AlertList(count: nat, items: seq<Item>)

  function RenderItem(a: Alert, index: nat, parseTime: string -> int, now: int): Item {
    Item(ToUpperAscii(a.parameter), a.message, Recommendation(a.parameter, a.severity),
         SeverityBadge(a.severity),
         if a.createdAt.Some? && a.createdAt.value != "" then Some(FormatRelativeTime(Some(parseTime(a.createdAt.value)), now)) else None,
         index)
  }

  /** `AlertPanel`: a null or empty list renders the healthy state; otherwise
      one row per alert, in list order, whose dismiss button reports the row's
      position. `parseTime` stands for `new Date(created_at)`. */
  function RenderPanel(alerts: Option<seq<Alert>>, parseTime: string -> int, now: int): (p: Panel)
    ensures p.AllClear? <==> alerts.None? || |alerts.value| == 0
    ensures p.AlertList? ==> p.count == |alerts.value| == |p.items|
    ensures p.AlertList? ==> forall i :: 0 <= i < |p.items| ==>
      p.items[i].dismissIndex == i && p.items[i].message == alerts.value[i].message
  {
    if alerts.None? || |alerts.value| == 0 then AllClear
    else
      var als := alerts.value;
      AlertList(|als|, seq(|als|, i requires 0 <= i < |als| => RenderItem(als[i], i, parseTime, now)))
  }

  /** Pressing the dismiss button of a rendered row removes exactly the
      alert that row shows. */
  lemma DismissRemovesShownAlert(s: State, parseTime: string -> int, now: int, row: nat)
    requires RenderPanel(Some(s.alerts), parseTime, now).AlertList?
    requires row < |RenderPanel(Some(s.alerts), parseTime, now).items|
    ensures var i := RenderPanel(Some(s.alerts), parseTime, now).items[row].dismissIndex;
            DismissAlert(s, i).alerts == s.alerts[..row] + s.alerts[row + 1..]
  {
  }
}
