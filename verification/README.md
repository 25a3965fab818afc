# HydroMonitor core in Dafny

HydroMonitor watches an aquaculture pond. Sensors publish readings of temperature, pH, dissolved oxygen, ammonia and salinity. Two Python back ends store the readings and raise alerts:

- an MQTT bridge, with an e-mail notifier behind it;
- a Pub/Sub cloud function.

A React dashboard shows the readings and alerts, and lets the operator tune thresholds and run the daily operations pages.

This project models the decision logic of those pieces as pure Dafny functions over immutable datatypes, and proves what each promises.

## Modules

One Dafny module follows each source file.

| module | what it models |
|---|---|
| `Records` | The two shared records: a sensor reading and an alert. |
| `Thresholds` | `isInRange`, `getThreshold` and `getStatusColor` from `lib/utils.js`. |
| `ActiveAlerts` | `generateActiveAlerts` from `lib/utils.js`. |
| `Trends` | `formatRelativeTime` and `calculateTrend` from `lib/utils.js`. |
| `HealthScore` | The score, label, colour and OK count of `HealthScore.jsx`. |
| `Dashboard` | The reading window, alert list, dismissal and fetch handling of `App.jsx`, plus the rendering decisions of `AlertPanel.jsx`. |
| `Presets` | The species presets, custom presets and threshold editing of `ThresholdManager.jsx`. |
| `Bridge` | Threshold caching, threshold checks and message handling of `mqtt_to_supabase.py`. |
| `CloudFunction` | The fixed-threshold check and request outcome of `process_sensor_data/main.py`. |
| `EmailNotifier` | The settings precedence, cooldown and send guards of `email_notifier.py`. |
| `EmailSettings` | The PIN-locked settings panel that writes the row the notifier reads. |
| `Maintenance` | `MaintenanceSchedule.jsx`. |
| `Checklist` | `DailyChecklist.jsx`. |
| `DataExport` | The CSV content of `DataExport.jsx`. |
| `Weather` | The classification of `WeatherWidget.jsx`. |
| `Daylight` | The day-length, daytime and feeding logic of `SunriseSunset.jsx`. |
| `Text` | The string built-ins the sources lean on: JavaScript `trim`, `join`, `split` and ASCII case mapping, Python `replace` and `title`, and decimal rendering. |
| `Wrappers` | `Option` for `null`/`None`, `Stored` for a browser-storage entry (absent, unparsable or parsed), and a generic "present entries in order" filter. |

## How the outside world enters the model

Everything the source obtains from outside is an explicit parameter. That covers:

- the current time;
- browser storage entries;
- the result of a database call;
- whether an SMTP send or an insert succeeded;
- `float()` on a string;
- the JSON payload.

Number-to-text formatting is abstract:

- `toFixed`;
- `toLocaleString`;
- `toLocaleTimeString`;
- `formatValue`.

These are function parameters, so contracts speak about them without fixing a rendering.

Measurements are `real`. Times are `int` milliseconds in the dashboard and `real` seconds in Python.

Where an alert message or a file is built from such pieces, the contracts say which pieces appear, and where.

## Model

| member | source | states |
|---|---|---|
| Records.ValueOf | water-quality-dashboard/src/lib/utils.js:174 | Reading a reading under a name that is not one of the five parameters yields a missing value. |
| Thresholds.IsInRange | water-quality-dashboard/src/lib/utils.js:17-39 | A missing value is in range, whatever the tables. A parsed custom table holding the parameter decides alone; otherwise the test or production table does. The test is inclusive at both ends, and a parameter no table knows is in range. |
| Thresholds.GetThreshold | water-quality-dashboard/src/lib/utils.js:42-59 | Resolves the range in this order: the custom entry, then the mode table's entry, then 0..100. |
| Thresholds.InRangeAgreesWithThreshold | water-quality-dashboard/src/lib/utils.js:17-59 | For a parameter some table knows, `isInRange` is exactly the inclusive test against the range `getThreshold` returns. |
| Thresholds.UnknownParameterDisagreement | water-quality-dashboard/src/lib/utils.js:35-58 | For an unknown parameter the two helpers disagree: 150 is "in range" yet outside the 0..100 fallback. |
| Thresholds.GetStatusColor | water-quality-dashboard/src/lib/utils.js:109-126 | Gray iff the value is missing. Red iff it is outside the resolved range. Yellow iff it is inside but within 10% of the width of an edge. Green iff it lies between the two warning edges. |
| Thresholds.GreenBand | water-quality-dashboard/src/lib/utils.js:117-125 | With min <= max, any value between the warning edges is green. |
| Thresholds.YellowIsAtLeastMin | water-quality-dashboard/src/lib/utils.js:113-123 | A yellow value is never below the resolved minimum, and `isInRange` accepts it. |
| Thresholds.TemperatureExamples | water-quality-dashboard/src/lib/utils.js:2-7 | With production temperature 26..32: 31.5 and 26.1 are yellow, 35 is red, 29 is green. |
| ActiveAlerts.Position | water-quality-dashboard/src/lib/utils.js:170 | A parameter's place in the fixed order temperature, ph, dissolved_oxygen, ammonia; 4 for any other name. |
| ActiveAlerts.ParameterAlert | water-quality-dashboard/src/lib/utils.js:173-201 | One parameter's contribution: an alert iff its value is present and its colour is not green, for that parameter, and then the alert describes the value (severity high iff outside the range, the message direction, id, time and status). |
| ActiveAlerts.WarningKind | water-quality-dashboard/src/lib/utils.js:188-191 | The yellow direction word as written: any value at or above `min` reads "approaching high limit", and "approaching low limit" only for a value already outside the range. |
| ActiveAlerts.ParameterAlertSpec | water-quality-dashboard/src/lib/utils.js:173-201 | A parameter yields an alert iff its value is present and its colour is not green. The alert has id `param-timestamp` and severity high iff red, otherwise medium. A red message says too low or too high by the side of the range it left. A yellow message always says "approaching high limit", as the direction test is written. It carries the timestamp and status `active`. |
| ActiveAlerts.GenerateActiveAlerts | water-quality-dashboard/src/lib/utils.js:166-204 | No reading gives no alerts, and there are never more than four. For a reading: salinity is never alerted; each alert describes its parameter's value; alerts follow the fixed parameter order with distinct ids; and a listed parameter is alerted iff its colour is red or yellow. |
| ActiveAlerts.PresentAlertsSpec | water-quality-dashboard/src/lib/utils.js:170-201 | The alerts kept from the per-parameter list are, in order, exactly those of the non-green listed parameters, each describing its parameter's value. |
| ActiveAlerts.DistinctIds | water-quality-dashboard/src/lib/utils.js:195 | Alerts for different parameters built with the same timestamp have different ids. |
| ActiveAlerts.AsWrittenWarningAlwaysHigh | water-quality-dashboard/src/lib/utils.js:184-191 | Every generated medium alert says "approaching high limit": the warning branch tests `value < min`, which never holds for an in-range value. |
| ActiveAlerts.WarningKindCorrected | water-quality-dashboard/src/lib/utils.js:188-191 | The warning message says "approaching low limit" iff the value is below the lower warning edge. |
| ActiveAlerts.NearLowEdgeExample | water-quality-dashboard/src/lib/utils.js:184-191 | At production temperature 26.1, just above the 26..32 minimum, exactly one medium alert is generated and it says "approaching high limit". The corrected rule would say "approaching low limit". |
| Trends.FormatRelativeTime | water-quality-dashboard/src/lib/utils.js:62-63 | The result is "Never" iff there is no date. |
| Trends.RelativeTimeBuckets | water-quality-dashboard/src/lib/utils.js:64-76 | Exactly one of the seconds/minutes/hours/days buckets is chosen, by the 60 s, 60 min and 24 h thresholds. The count n satisfies n·unit <= elapsed < (n+1)·unit (floored division), with minutes < 60 and hours < 24. |
| Trends.RecentValues | water-quality-dashboard/src/lib/utils.js:95-96 | At most five values, and no more than there are readings. They are the present values of the parameter among the five newest readings, newest first: each value sits at a position below five, positions strictly increase, and every present value in that window is included. |
| Trends.CalculateTrend | water-quality-dashboard/src/lib/utils.js:92-98 | Fewer than two readings, or fewer than two present values, gives stable. |
| Trends.PositiveBaseTrend | water-quality-dashboard/src/lib/utils.js:100-105 | With a positive oldest value: up iff the change is >= +2%, down iff it is <= -2%, stable strictly between. |
| Trends.ZeroBaseTrend | water-quality-dashboard/src/lib/utils.js:100-105 | With a zero oldest value the change is ±Infinity or NaN, so the trend is never stable, and an unchanged zero reads down. |
| Trends.ZeroSeriesIsDown | water-quality-dashboard/src/lib/utils.js:100-105 | As written, a constant zero series reports down, because 0/0 gives a NaN change. |
| Trends.CalculateTrendCorrected | water-quality-dashboard/src/lib/utils.js:100-105 | Equal newest and oldest values are stable. It differs from the as-written trend only on an all-zero endpoint pair. |
| HealthScore.OutParameters | water-quality-dashboard/src/components/HealthScore.jsx:13-28 | A parameter is listed iff its value is present and outside its hard-coded wide range. A list of distinct parameters gives distinct entries, so each is counted once. |
| HealthScore.AlertPenalty | water-quality-dashboard/src/components/HealthScore.jsx:31-38 | 10 iff severity is high, 5 iff medium, and 2 for anything else, including missing, `warning` and `low`. |
| HealthScore.TotalPenalty | water-quality-dashboard/src/components/HealthScore.jsx:37-39 | The summed penalty lies between 2 and 10 per alert. |
| HealthScore.Clamp | water-quality-dashboard/src/components/HealthScore.jsx:41 | The result is always in 0..100 and leaves in-range values alone. |
| HealthScore.CalculateHealthScore | water-quality-dashboard/src/components/HealthScore.jsx:7-41 | 0 with no readings; always within 0..100. |
| HealthScore.ScoreWithoutAlerts | water-quality-dashboard/src/components/HealthScore.jsx:9-28 | Without alerts the score is 100 minus 15 per out-of-range parameter. The out-of-range list holds exactly those parameters, each once, so all in range gives 100. |
| HealthScore.AddingAlertNeverRaises | water-quality-dashboard/src/components/HealthScore.jsx:37-41 | One more alert never raises the score, and lowers it by exactly its penalty while the score stays above the floor. |
| HealthScore.ScoreLabel | water-quality-dashboard/src/components/HealthScore.jsx:53-58 | Excellent iff >= 80, Good iff 60..79, Fair iff 40..59, Poor iff < 40. |
| HealthScore.ColorAgreesWithLabel | water-quality-dashboard/src/components/HealthScore.jsx:46-58 | The colour class is the label in lower case. |
| HealthScore.OkCount | water-quality-dashboard/src/components/HealthScore.jsx:103 | The OK count plus the issue count is 5, so the OK count is negative iff there are more than five alerts. |
| Dashboard.InitialValid | water-quality-dashboard/src/App.jsx:17-21 | The empty start state meets the window invariant: at most 50 readings, and the latest reading is their head. |
| Dashboard.PushReading | water-quality-dashboard/src/App.jsx:61-66 | The new reading heads the window and becomes the latest reading. The length is min(n+1, 50), older readings keep their order, and alerts are untouched. |
| Dashboard.PushAlert | water-quality-dashboard/src/App.jsx:68-71 | The alert is prepended and the list grows by exactly one, with no cap. |
| Dashboard.FilterIndexSpec | water-quality-dashboard/src/App.jsx:111 | Filtering out index i removes exactly that element when it exists, and nothing otherwise. |
| Dashboard.DismissAlert | water-quality-dashboard/src/App.jsx:110-112 | Removes exactly the alert at index i and keeps the rest in order. An out-of-range i changes nothing. |
| Dashboard.DismissAll | water-quality-dashboard/src/App.jsx:115-117 | The alert list becomes empty; readings are untouched. |
| Dashboard.ApplyFetch | water-quality-dashboard/src/App.jsx:40-53 | Loading always ends. A failed fetch changes nothing else. A fetch with readings replaces the window and sets latest to the head and the update time to its timestamp. A fetch without readings keeps them. Alerts are always replaced, a null list by []. |
| Dashboard.UpdatesPreserveValid | water-quality-dashboard/src/App.jsx:40-117 | Every state update keeps the window invariant. |
| Dashboard.HighAndMediumAdviceDiffer | water-quality-dashboard/src/components/AlertPanel.jsx:6-31 | For each of the five parameters, the high and medium advice are specific (not the generic text) and differ from each other. |
| Dashboard.GeneratedAlertsGetAdvice | water-quality-dashboard/src/components/AlertPanel.jsx:6-31 | Every alert `generateActiveAlerts` would build from a reading gets specific advice, never the generic text. Nothing on the dashboard calls that helper. |
| Dashboard.BackEndAlertsGetAdvice | water-quality-dashboard/src/components/AlertPanel.jsx:6-31 | The panel shows the alerts the back ends store. Every alert the bridge raises, for limits on the five known parameters, gets specific advice, and so does every alert the cloud function creates. |
| Dashboard.Recommendation | water-quality-dashboard/src/components/AlertPanel.jsx:6-31 | The generic advice is given iff the pair is not one of the five parameters with severity high or medium; this includes `low`. |
| Dashboard.SeverityBadge | water-quality-dashboard/src/components/AlertPanel.jsx:102-103 | WARNING for a missing or empty severity, the upper-cased severity otherwise. |
| Dashboard.RenderPanel | water-quality-dashboard/src/components/AlertPanel.jsx:34-77 | The healthy state iff the list is null or empty. Otherwise it shows one item per alert, in order, showing its message and reporting its own index for dismissal. |
| Dashboard.DismissRemovesShownAlert | water-quality-dashboard/src/components/AlertPanel.jsx:67-77 | Dismissing from a shown row removes exactly that row's alert. |
| Presets.BuiltIn | water-quality-dashboard/src/components/ThresholdManager.jsx:8-44 | Exactly five keys are built in: four species and `custom`. |
| Presets.SavedSelection | water-quality-dashboard/src/components/ThresholdManager.jsx:59-63 | The saved preset key when non-empty, `asian_seabass` otherwise. |
| Presets.Init | water-quality-dashboard/src/components/ThresholdManager.jsx:54-96 | Custom presets come from storage, else are empty. The selection is the saved key, and nothing is being edited. |
| Presets.InitPrecedence | water-quality-dashboard/src/components/ThresholdManager.jsx:70-96 | The initial thresholds come from, in order: parsed saved thresholds, the saved built-in preset, the saved custom preset, then asian_seabass. |
| Presets.AlertCount | water-quality-dashboard/src/components/ThresholdManager.jsx:99-106 | The number of positions among the newest ten readings whose value for the parameter is present and outside min..max. It is 0 with no readings and never more than min(10, n). |
| Presets.CountOutside | water-quality-dashboard/src/components/ThresholdManager.jsx:102-105 | The count equals the number of positions whose value is present and outside the range. |
| Presets.CountOutsideExtremes | water-quality-dashboard/src/components/ThresholdManager.jsx:102-105 | The count is everything iff every value is present and outside. It is 0 iff every value is missing or inside. |
| Presets.PresetChange | water-quality-dashboard/src/components/ThresholdManager.jsx:109-119 | The key becomes selected and saved. A built-in key wins over a custom one of the same name. An unknown key leaves the thresholds as they were. Presets, the name and rename fields, and the saved thresholds and presets are unchanged. |
| Presets.NewKey | water-quality-dashboard/src/components/ThresholdManager.jsx:127 | New keys start with `custom_`. |
| Presets.NewKeyNotBuiltIn | water-quality-dashboard/src/components/ThresholdManager.jsx:127 | A new key never names a built-in preset. |
| Presets.AddPreset | water-quality-dashboard/src/components/ThresholdManager.jsx:122-142 | A blank name changes nothing. Otherwise an unlocked preset with the trimmed name and a copy of the current thresholds is added under the new key and selected, the name field clears, and both are saved. The saved thresholds and the rename fields are unchanged. |
| Presets.AddedPresetIsSelectable | water-quality-dashboard/src/components/ThresholdManager.jsx:109-142 | Selecting the added preset later restores the thresholds it copied. Other presets are unchanged. |
| Presets.ToggleLock | water-quality-dashboard/src/components/ThresholdManager.jsx:145-155 | Flips only that preset's lock and keeps its name and thresholds. The presets are saved. Every other preset, the selection, the thresholds, the name and rename fields, and the saved thresholds and selection are unchanged. |
| Presets.ToggleTwice | water-quality-dashboard/src/components/ThresholdManager.jsx:145-155 | Toggling twice restores the presets. |
| Presets.DeletePreset | water-quality-dashboard/src/components/ThresholdManager.jsx:158-173 | A locked or unconfirmed delete changes nothing. Otherwise the key is removed and the presets are saved. If it was selected, the page's selection and thresholds revert to asian_seabass. The saved selection and thresholds and the name and rename fields are unchanged. |
| Presets.DeletedKeyStaysSaved | water-quality-dashboard/src/components/ThresholdManager.jsx:158-173 | Deleting the saved, selected preset leaves its key as the saved selection, so reopening the page selects a key that is no longer among the presets. |
| Presets.StartRenaming | water-quality-dashboard/src/components/ThresholdManager.jsx:176-183 | Refused for a locked preset. Otherwise editing starts with the current name, and the presets, selection, thresholds, name field and storage are unchanged. |
| Presets.SaveRename | water-quality-dashboard/src/components/ThresholdManager.jsx:186-202 | A blank name changes nothing. Otherwise only that preset's name changes, to the trimmed text, the presets are saved, and editing ends. The selection, thresholds, name field and the saved thresholds and selection are unchanged. |
| Presets.RenamedNameIsTrimmed | water-quality-dashboard/src/components/ThresholdManager.jsx:186-196 | A saved new name is non-empty and neither starts nor ends with whitespace. |
| Presets.ThresholdChange | water-quality-dashboard/src/components/ThresholdManager.jsx:205-213 | Exactly one bound of one parameter changes; everything else is unchanged. |
| Presets.ResetButton | water-quality-dashboard/src/components/ThresholdManager.jsx:525-530 | The "Reset to Defaults" button as wired. When confirmed, asian_seabass is selected with its thresholds and storage is left as it was. Otherwise nothing changes. |
| Presets.ResetButtonKeepsSavedRanges | water-quality-dashboard/src/components/ThresholdManager.jsx:525-530 | After the button, the dashboard's `getThreshold` still resolves every saved parameter to its saved range. |
| Presets.ResetButtonExample | water-quality-dashboard/src/components/ThresholdManager.jsx:525-530 | With temperature saved as 20..25, the page shows 26..32 after the button while the dashboard still checks against 20..25. |
| Presets.Reset | water-quality-dashboard/src/components/ThresholdManager.jsx:280-287 | The unused `handleReset`. When confirmed, asian_seabass is selected with its thresholds, and the saved thresholds and selection are removed. Otherwise nothing changes. |
| Presets.ResetClearsDashboardRanges | water-quality-dashboard/src/components/ThresholdManager.jsx:280-287 | After `handleReset`, no parameter is overridden, and the dashboard resolves every parameter from its built-in tables. |
| Presets.Save | water-quality-dashboard/src/components/ThresholdManager.jsx:216-219 | Storage then holds the current thresholds and selection. |
| Presets.SaveIsSeenEverywhere | water-quality-dashboard/src/components/ThresholdManager.jsx:216-219 | After saving, the dashboard's `getThreshold` resolves every saved parameter to the saved range. Reopening the manager restores the thresholds and selection. |
| Bridge.ToFloat | src/cloud/mqtt_bridge/mqtt_to_supabase.py:71-74 | A number converts to itself; null and non-scalar values fail. |
| Bridge.FromRow | src/cloud/mqtt_bridge/mqtt_to_supabase.py:45-52 | Five limits in the fixed parameter order. Each bound of temperature, ph, dissolved oxygen and ammonia comes from its own `_min`/`_max` column, or the default bound (26/32, 6/9, 4/8, 0/2) when the column is absent. Salinity is always 28..32. |
| Bridge.GetThresholds | src/cloud/mqtt_bridge/mqtt_to_supabase.py:33-59 | A non-empty cache younger than 30 s is reused. Otherwise a found row is converted and cached with the current time; a DB error or no row gives the defaults, and the cache is kept. |
| Bridge.ThresholdParamsKnown | src/cloud/mqtt_bridge/mqtt_to_supabase.py:33-59 | If the cache names only the five known parameters, so do the limits returned and the cache kept. |
| Bridge.SalinityAlwaysDefault | src/cloud/mqtt_bridge/mqtt_to_supabase.py:46-52 | Whatever path is taken, the limits and the cache keep salinity at (28.0, 32.0). |
| Bridge.DeviceOf | src/cloud/mqtt_bridge/mqtt_to_supabase.py:63 | The device id defaults to `esp32-001`. |
| Bridge.BridgeSeverity | src/cloud/mqtt_bridge/mqtt_to_supabase.py:77-78 | High iff the parameter is ammonia, ph or temperature; medium otherwise. |
| Bridge.CheckOne | src/cloud/mqtt_bridge/mqtt_to_supabase.py:66-96 | An alert is raised iff the value is present, numeric and strictly outside the limits. It carries device, parameter, value, limits and severity. It is e-mailed iff its insert succeeded. |
| Bridge.CheckThresholds | src/cloud/mqtt_bridge/mqtt_to_supabase.py:61-96 | At most one alert per limit entry. |
| Bridge.CheckThresholdsSpec | src/cloud/mqtt_bridge/mqtt_to_supabase.py:66-96 | Alerts follow the limit order, each strictly out of range. An entry is alerted iff its value is numeric and outside its bounds, so the bounds themselves are safe. |
| Bridge.SkippedValuesRaiseNothing | src/cloud/mqtt_bridge/mqtt_to_supabase.py:67-74 | A missing or non-numeric value never produces an alert for its parameter. |
| Bridge.StoredFields | src/cloud/mqtt_bridge/mqtt_to_supabase.py:122-129 | Storing succeeds iff every present field converts to a float. It then holds five values: each present field's float, and 0.0 for a missing one. |
| Bridge.NumericFieldsStoredAsSent | src/cloud/mqtt_bridge/mqtt_to_supabase.py:122-129 | A message whose present fields are all numbers is stored, with each number unchanged and each missing field as 0.0. |
| Bridge.OnMessage | src/cloud/mqtt_bridge/mqtt_to_supabase.py:110-140 | Malformed JSON does nothing. A failed store stops before any check. A decoded message whose fields all convert and whose insert succeeds is always checked: it carries the stored fields and the alerts of `check_thresholds` against the table `get_thresholds` returns, and keeps the cache that call leaves. |
| Bridge.StoredMessageIsChecked | src/cloud/mqtt_bridge/mqtt_to_supabase.py:61-135 | A message is checked iff it decoded, converted and was stored. A checked message is checked against five limits and raises an alert for a parameter iff its value is numeric and strictly outside that parameter's bounds. |
| Bridge.RaisedForEntry | src/cloud/mqtt_bridge/mqtt_to_supabase.py:66-96 | Against a table naming each parameter once, a parameter has an alert iff its value is numeric and strictly outside its bounds. |
| Bridge.BadStoredFieldBlocksCheck | src/cloud/mqtt_bridge/mqtt_to_supabase.py:122-135 | A non-numeric temperature stops the message before the ammonia check, however far out ammonia is. |
| CloudFunction.SeverityAsWritten | src/cloud/functions/process_sensor_data/main.py:82-89 | High iff dissolved oxygen or ammonia; for any other parameter of a well-formed range, low iff the value is exactly the range's midpoint. |
| CloudFunction.LowUnreachable | src/cloud/functions/process_sensor_data/main.py:85-89 | As written, any out-of-range value with min <= max is at least half the width from one bound, so `low` is never chosen. |
| CloudFunction.SlightExcessIsMedium | src/cloud/functions/process_sensor_data/main.py:85-89 | As written, temperature 32.5 (just above 32) is rated medium. |
| CloudFunction.Severity | src/cloud/functions/process_sensor_data/main.py:82-89 | High iff the parameter is dissolved oxygen or ammonia. Otherwise medium iff the excess beyond the crossed bound is more than half the width, else low. |
| CloudFunction.SeverityLevelsReachable | src/cloud/functions/process_sensor_data/main.py:82-89 | All three levels occur: 32.5 °C is low, 40 °C medium, ammonia 0.5 high. |
| CloudFunction.CreateOne | src/cloud/functions/process_sensor_data/main.py:68-106 | An alert is recorded iff the value is present, numeric, strictly outside the fixed range and inserted. It carries the device, parameter, value and fixed bounds, and the severity the source computes. That severity is never `low`. |
| CloudFunction.CheckThresholds | src/cloud/functions/process_sensor_data/main.py:51-108 | One entry per successful insert, so at most five. No created alert is graded `low`. |
| CloudFunction.CreatedSlightExcessIsMedium | src/cloud/functions/process_sensor_data/main.py:85-89 | Temperature 32.5, only 0.5 above 32, produces a created alert graded medium. |
| CloudFunction.FixedParamsDistinct | src/cloud/functions/process_sensor_data/main.py:57-63 | The fixed table names five different parameters. |
| CloudFunction.CreatedAt | src/cloud/functions/process_sensor_data/main.py:66-108 | Each created alert comes from one fixed-table entry. |
| CloudFunction.CreatedExactly | src/cloud/functions/process_sensor_data/main.py:68-106 | A parameter has a created alert iff its value is numeric, out of range and its insert succeeded. |
| CloudFunction.ProcessSensorData | src/cloud/functions/process_sensor_data/main.py:12-48 | 200 iff the message decodes, every stored field converts and the store succeeds; 500 otherwise. Alerts are created only on the 200 path. |
| EmailNotifier.LoadSettings | src/cloud/mqtt_bridge/email_notifier.py:84-118 | A loaded row sets the recipient and cooldown. Mail stays on iff the `enabled` column is absent or true, so a null flag turns it off. No row changes nothing, and the send history is kept. |
| EmailNotifier.NullEnabledDisablesMail | src/cloud/mqtt_bridge/email_notifier.py:102-143 | With SMTP configured, a row whose `enabled` is null stops every alert e-mail as disabled. A row without the column does not. |
| EmailNotifier.NewNotifier | src/cloud/mqtt_bridge/email_notifier.py:47-73 | It starts with no send history and the env cooldown (default 300). Without SMTP no DB settings are loaded. |
| EmailNotifier.Recipient | src/cloud/mqtt_bridge/email_notifier.py:120-124 | The DB recipient when truthy (non-empty), else the env value. |
| EmailNotifier.Cooldown | src/cloud/mqtt_bridge/email_notifier.py:126-130 | The DB cooldown when truthy, else the env value; 0 falls back to env. |
| EmailNotifier.IsEnabled | src/cloud/mqtt_bridge/email_notifier.py:138-143 | False without SMTP, whatever the DB says. Otherwise settings are reloaded and the DB flag decides. |
| EmailNotifier.CanSend | src/cloud/mqtt_bridge/email_notifier.py:132-136 | A parameter may be mailed once the cooldown has passed since its last send; a parameter never sent counts from time 0. |
| EmailNotifier.SendAlert | src/cloud/mqtt_bridge/email_notifier.py:260-305 | Checks, in order, enabled, recipient, cooldown (at the check time) and delivery; the first failure is reported. Only a delivered mail records a send time, and it records the clock read after delivery, not the check time. |
| EmailNotifier.CooldownIsPerParameter | src/cloud/mqtt_bridge/email_notifier.py:132-136 | After a send, that parameter is blocked until the cooldown has passed since the recorded send time. Every other parameter is unaffected. |
| EmailNotifier.NoSmtpNoMail | src/cloud/mqtt_bridge/email_notifier.py:138-143 | Without SMTP, sending is refused and nothing changes. |
| EmailNotifier.Recommendation | src/cloud/mqtt_bridge/email_notifier.py:145-152 | Generic text for unknown parameters. Otherwise the low advice iff the value is below min, and the high advice for everything else. |
| EmailNotifier.AdviceTellsSide | src/cloud/mqtt_bridge/email_notifier.py:149-152 | In-range values get the high advice too. |
| EmailNotifier.SeverityColor | src/cloud/mqtt_bridge/email_notifier.py:154-160 | The three known severities map to their colours; anything else maps to `#6b7280`. |
| EmailNotifier.FormatParameterName | src/cloud/mqtt_bridge/email_notifier.py:162-170 | An unknown name keeps its length: underscores become spaces, a letter starting a run of letters is upper case, other letters are lower case. |
| EmailNotifier.FormatUnknownExample | src/cloud/mqtt_bridge/email_notifier.py:170 | `water_level` is shown as `Water Level`. |
| EmailSettings.RoundMinutes | water-quality-dashboard/src/components/EmailSettings.jsx:53 | Rounds seconds to the nearest minute, halves up: 60m − 30 <= s < 60m + 30. |
| EmailSettings.Load | water-quality-dashboard/src/components/EmailSettings.jsx:27-61 | The panel opens locked. A DB row overrides the stored settings, which override the defaults (off, no address, 5 minutes). Each missing field takes its default, and a DB row's minutes are its seconds rounded (300 s when missing). |
| EmailSettings.DefaultCooldownIsFiveMinutes | water-quality-dashboard/src/components/EmailSettings.jsx:53 | A row without a cooldown loads as the notifier's default of 300 s, shown in minutes. |
| EmailSettings.Unlock | water-quality-dashboard/src/components/EmailSettings.jsx:63-72 | The admin PIN unlocks and clears the input. Anything else only raises the error flag, and the panel stays locked. |
| EmailSettings.Save | water-quality-dashboard/src/components/EmailSettings.jsx:74-115 | Refused with an error while locked. Otherwise the settings are stored locally, and in the DB as minutes·60 seconds when the upsert succeeds; the message says which. The panel re-locks. |
| EmailSettings.Toggle | water-quality-dashboard/src/components/EmailSettings.jsx:117-120 | A no-op while locked; otherwise it flips the switch. |
| EmailSettings.LockedPanelIsFrozen | water-quality-dashboard/src/components/EmailSettings.jsx:74-79 | While locked, neither saving nor toggling changes any setting, and nothing is written to browser storage or the settings row. |
| EmailSettings.MinutesRoundTrip | water-quality-dashboard/src/components/EmailSettings.jsx:50-101 | Saving and loading back from the DB returns the same switch, address and minutes. |
| EmailSettings.ZeroMinutesFallsBack | water-quality-dashboard/src/components/EmailSettings.jsx:97-101 | Saving 0 minutes and an empty address does not disable the cooldown or clear the recipient: the notifier falls back to its environment values. |
| Maintenance.DefaultTasks | water-quality-dashboard/src/components/MaintenanceSchedule.jsx:8-16 | Seven tasks with ids 1..7, none completed or dated. |
| Maintenance.Today | water-quality-dashboard/src/components/MaintenanceSchedule.jsx:40 | The UTC day containing the current time. |
| Maintenance.Load | water-quality-dashboard/src/components/MaintenanceSchedule.jsx:18-32 | A stored list is used as is. With none, the defaults are used, never completed and due today. Unparsable text loads nothing. |
| Maintenance.DaysUntilDue | water-quality-dashboard/src/components/MaintenanceSchedule.jsx:71-78 | 0 without a due date. Otherwise the ceiling of the days from now to the due midnight: (d−1)·day < due − now <= d·day. |
| Maintenance.StatusOf | water-quality-dashboard/src/components/MaintenanceSchedule.jsx:80-86 | Overdue iff a full day has passed since the due midnight. Due today iff less than a day has, or there is no due date. Due soon iff the due midnight is at most two days ahead, scheduled beyond. |
| Maintenance.MarkComplete | water-quality-dashboard/src/components/MaintenanceSchedule.jsx:39-54 | Tasks with that id are done today and due today + interval, with every other field kept. All other tasks are unchanged. |
| Maintenance.ResetTask | water-quality-dashboard/src/components/MaintenanceSchedule.jsx:56-69 | Tasks with that id lose their completion date and are due today. All other tasks are unchanged. |
| Maintenance.CompletedTaskDueInInterval | water-quality-dashboard/src/components/MaintenanceSchedule.jsx:43-48 | A task just completed is due in exactly its interval, so it is scheduled when the interval exceeds two days. |
| Maintenance.DueTodayIsToday | water-quality-dashboard/src/components/MaintenanceSchedule.jsx:71-86 | A task dated today is 0 days away and due today. |
| Maintenance.ResetTaskIsDueToday | water-quality-dashboard/src/components/MaintenanceSchedule.jsx:56-69 | A reset task is due today. |
| Maintenance.OfStatus | water-quality-dashboard/src/components/MaintenanceSchedule.jsx:93-94 | The filtered tasks all have the requested status. |
| Maintenance.OfStatusEmpty | water-quality-dashboard/src/components/MaintenanceSchedule.jsx:93-94 | A status class is empty iff no task has that status. |
| Maintenance.SortByStatus | water-quality-dashboard/src/components/MaintenanceSchedule.jsx:88-91 | The sorted list holds exactly the tasks of the schedule. |
| Maintenance.SortedByRank | water-quality-dashboard/src/components/MaintenanceSchedule.jsx:88-91 | The sorted list runs overdue, due today, due soon, scheduled. |
| Maintenance.SortPermutes | water-quality-dashboard/src/components/MaintenanceSchedule.jsx:88-91 | The sorted list is a permutation of the tasks. |
| Maintenance.SortIsStable | water-quality-dashboard/src/components/MaintenanceSchedule.jsx:88-91 | Within each status the original order is kept, as JavaScript's stable sort does. |
| Maintenance.Summarize | water-quality-dashboard/src/components/MaintenanceSchedule.jsx:93-121 | The badges count the overdue and due-today classes. "All Up to Date" shows iff every task is due soon or scheduled. |
| Maintenance.CountsAreSortedBlocks | water-quality-dashboard/src/components/MaintenanceSchedule.jsx:88-94 | The overdue count is the length of the sorted list's leading overdue block, and the due-today block follows it. |
| Maintenance.FreshScheduleAllDueToday | water-quality-dashboard/src/components/MaintenanceSchedule.jsx:24-28 | A fresh schedule has seven never-completed tasks, all due today, so the all-clear badge is not shown. |
| Checklist.DefaultChecklist | water-quality-dashboard/src/components/DailyChecklist.jsx:9-18 | Eight tasks with ids 1..8. None is done, and none has a completion time, amount or notes. |
| Checklist.ReadDays | water-quality-dashboard/src/components/DailyChecklist.jsx:25-26 | Nothing stored reads as the empty map; unparsable text fails. |
| Checklist.LoadChecklist | water-quality-dashboard/src/components/DailyChecklist.jsx:24-43 | A stored date returns its list and leaves storage alone. An unseen date gets the default list, also written back under the date. |
| Checklist.SaveChecklist | water-quality-dashboard/src/components/DailyChecklist.jsx:45-51 | The day's list is stored under its date; other dates keep theirs. |
| Checklist.SaveThenLoad | water-quality-dashboard/src/components/DailyChecklist.jsx:24-51 | Loading a date just saved returns the saved list. |
| Checklist.ToggleTask | water-quality-dashboard/src/components/DailyChecklist.jsx:53-66 | Flips `completed` on the matching task only. The completion time is present iff the task is now done, and is the clock time when it is. |
| Checklist.UpdateTaskData | water-quality-dashboard/src/components/DailyChecklist.jsx:68-76 | Changes exactly the named field of the matching task. |
| Checklist.ResetDay | water-quality-dashboard/src/components/DailyChecklist.jsx:78-87 | Restores the default list with nothing done. |
| Checklist.EditsKeepTasks | water-quality-dashboard/src/components/DailyChecklist.jsx:53-87 | Ticking and editing keep the task ids in order, so resetting a default-based day keeps its task count. |
| Checklist.ToggleTwice | water-quality-dashboard/src/components/DailyChecklist.jsx:53-66 | Ticking twice restores every task's done flag. |
| Checklist.CompletedCount | water-quality-dashboard/src/components/DailyChecklist.jsx:95 | The count is the number of positions whose task is done. It is at most the list length, 0 iff nothing is done, and the length iff everything is. |
| Checklist.ToggleMovesCountByOne | water-quality-dashboard/src/components/DailyChecklist.jsx:53-66 | Ticking a task with a unique id raises the done count by one, and unticking it lowers the count by one. |
| Checklist.Percentage | water-quality-dashboard/src/components/DailyChecklist.jsx:97 | 0 for an empty list; otherwise 100·done/total rounded half up, which always lies in 0..100. None done gives 0 and all done gives 100. |
| Checklist.CompletionPercentage | water-quality-dashboard/src/components/DailyChecklist.jsx:95-97 | 0 for an empty or untouched list, 100 for a fully done one, and always in 0..100. |
| Checklist.PercentageMonotone | water-quality-dashboard/src/components/DailyChecklist.jsx:97 | One more task done never lowers the percentage. |
| DataExport.Cell | water-quality-dashboard/src/components/DataExport.jsx:18-22 | A missing value is an empty cell; a present one is its two-decimal text. |
| DataExport.Row | water-quality-dashboard/src/components/DataExport.jsx:15-23 | Seven cells in column order: date, device id (empty when missing), then the five measurements. |
| DataExport.Lines | water-quality-dashboard/src/components/DataExport.jsx:26-29 | The header line, then one line per reading in input order. |
| DataExport.ExportToCsv | water-quality-dashboard/src/components/DataExport.jsx:5-29 | No output iff the readings are null or empty. |
| DataExport.ExportLines | water-quality-dashboard/src/components/DataExport.jsx:26-29 | When no cell holds a newline, the file splits at its newlines back into exactly n+1 lines: the header, then the readings in order. |
| DataExport.ExportCells | water-quality-dashboard/src/components/DataExport.jsx:12-28 | When no cell holds a comma, every line splits at its commas back into the seven column titles or the seven cells of its reading. |
| Weather.DescribeCode | water-quality-dashboard/src/components/WeatherWidget.jsx:53-59 | Clear Sky iff code 0, Partly Cloudy iff 1-3, Rainy iff 51-67, Heavy Rain iff 80-99, Cloudy otherwise. |
| Weather.IconFor | water-quality-dashboard/src/components/WeatherWidget.jsx:45-51 | Sun iff code 0; rain iff 51-67 or 80-99. |
| Weather.IconMatchesDescription | water-quality-dashboard/src/components/WeatherWidget.jsx:45-59 | Rain icon iff the description is Rainy or Heavy Rain. Sun iff Clear Sky. Cloud iff Partly Cloudy or Cloudy. |
| Weather.Impacts | water-quality-dashboard/src/components/WeatherWidget.jsx:61-78 | Each impact is present iff its condition holds: > 32 °C, < 24 °C, rain > 0, wind > 20. High and cool are exclusive, and the order is temperature, rain, wind. |
| Weather.ImpactText | water-quality-dashboard/src/components/WeatherWidget.jsx:61-81 | "Loading..." without data. Otherwise the impacts joined by " • ", or the normal-conditions line when there are none. |
| Weather.MildWeatherIsNormal | water-quality-dashboard/src/components/WeatherWidget.jsx:66-80 | 24..32 °C, dry and calm weather reads as normal conditions. |
| Weather.Render | water-quality-dashboard/src/components/WeatherWidget.jsx:83-134 | Shows the loading card while loading, and nothing when the fetch failed. Otherwise the rain statistic shows iff the rain impact is listed. |
| Daylight.Accept | water-quality-dashboard/src/components/SunriseSunset.jsx:21-28 | Data is kept iff the service status is OK. |
| Daylight.JsRem | water-quality-dashboard/src/components/SunriseSunset.jsx:61 | JavaScript's remainder takes the dividend's sign. |
| Daylight.DayLength | water-quality-dashboard/src/components/SunriseSunset.jsx:59-63 | For s >= 0: minutes are in 0..59 and 3600h + 60m <= s < 3600h + 60m + 60. A negative length gives negative hours. |
| Daylight.FullDayText | water-quality-dashboard/src/components/SunriseSunset.jsx:59-63 | 86400 s renders as "24h 0m". |
| Daylight.IsDaytime | water-quality-dashboard/src/components/SunriseSunset.jsx:65-69 | True with no data; otherwise sunrise <= now <= sunset, inclusive. |
| Daylight.FeedingTimes | water-quality-dashboard/src/components/SunriseSunset.jsx:74-75 | Exactly 90 minutes after sunrise and 90 minutes before sunset. |
| Daylight.FeedingText | water-quality-dashboard/src/components/SunriseSunset.jsx:71-78 | "Loading..." without data; otherwise the two formatted times joined by " & ". |
| Daylight.FeedingInDaylight | water-quality-dashboard/src/components/SunriseSunset.jsx:65-75 | When the day lasts at least three hours, both feeding times are in daytime and the morning one comes first. |
| Daylight.Render | water-quality-dashboard/src/components/SunriseSunset.jsx:80-93 | Shows the loading card while loading, and nothing without data. Otherwise the sun/moon icon follows `isDaytime`. |
| Text.Trim | water-quality-dashboard/src/components/ThresholdManager.jsx:123 | The result is a slice of the input with only whitespace before and after it. It neither starts nor ends with whitespace. |
| Text.BlankIffAllSpace | water-quality-dashboard/src/components/ThresholdManager.jsx:187 | A name is rejected as blank iff it is all whitespace. |
| Text.TitleCase | src/cloud/mqtt_bridge/email_notifier.py:170 | Python's `title()` on ASCII text: a letter starting a run of letters is upper case, other letters are lower case, and everything else is kept. |
| Text.ToUpperAscii | water-quality-dashboard/src/components/AlertPanel.jsx:103 | `toUpperCase()` on ASCII text: each character upper-cased in place, same length. |

## Left out

- Network and I/O are inputs, not modelled:
  - Supabase queries, subscriptions and upserts;
  - the MQTT client wiring;
  - SMTP sessions and the HTML e-mail body;
  - Pub/Sub base64/JSON decoding;
  - the weather and sunrise `fetch` calls;
  - file download.
  
  A DB call is a `Query`, a `Load` or a success flag. A decoded payload is an `Option<Payload>`.
- Timers are not modelled: auto-refresh, the midnight refresh and the message-clearing timeouts are event plumbing.
- Number and date rendering are function parameters (`toFixed`, `toLocaleString`, `toLocaleTimeString`, `formatValue`). Floating-point effects are not modelled:
  - NaN, apart from the zero-series trend;
  - rounding of `(done/total)*100`.
  
  Measurements are exact reals.
- Dates are UTC day numbers. The local-time `setDate` used by `markComplete` and `changeDate` is taken as adding whole days, and time zones and DST are not modelled.
- `changeDate` and the "today" badge of the checklist are not modelled. They are date arithmetic over the formatted date string.
- Maintenance.Load, Checklist.ReadDays and Presets.Init: a stored JSON text that parses to a non-object is not distinguished from valid data. An unparsable `customPresets` entry, which throws in the source, is read as no presets.
- Bridge.GetThresholds: `time.time()` is read once, as `now`, where the source reads it twice. A row column that is present but `null` is not modelled; a missing column takes its default.
- Presets.SaveRename: requires the key being edited to exist, as the UI only starts editing an existing preset.
- Presets.ThresholdChange: `parseFloat` is taken as having produced a number. The `name` key that a built-in preset's table carries alongside its ranges is left out of `Table`.
- The ThresholdManager import/export handlers (`handleExport`, `handleImport`) are file I/O and not modelled. The threshold upsert is left out, as network I/O.
- `getThreshold`/`isInRange` treat any present custom entry as overriding. JavaScript's truthiness of an inherited key such as `constructor` is not modelled.
- MetricCard.jsx calls `isInRange(parameter, value, testMode)` with its first two arguments swapped. That caller is not part of this model; `Thresholds.IsInRange` models the helper itself.
- EmailNotifier: the SMTP login/send is the `delivered` flag. The DB reload inside `_is_enabled` is the `Load` passed in. The two clock reads of `send_alert` are the parameters `now` (the cooldown check) and `sentAt` (the time recorded after delivery); nothing relates them, as a wall clock may step back.
- Text.TitleCase: models `str.title()` on ASCII letters only. Python also capitalises other scripts ("émile" becomes "Émile"); the model leaves non-ASCII letters unchanged. The source only applies it to parameter names, which are ASCII.
- Text.ToUpperAscii: models `toUpperCase()` on ASCII letters only. JavaScript also maps other scripts and can change the length ("ß" becomes "SS"). The source only applies it to alert severities, which both back ends write as ASCII words.
- Emoji icons of the maintenance and checklist tasks are presentation and are left out of the records.
- DataExport.ExportCells: requires comma-free cells. The date cell is not quoted, so a locale whose date text contains a comma (as en-US `toLocaleString` does) splits that cell into two columns.

## Findings

| source | as written | input that shows it | evidently intended | confidence | as-written member | corrected member |
|---|---|---|---|---|---|---|
| water-quality-dashboard/src/lib/utils.js:188-191 | The yellow branch picks "approaching low limit" only when `value < threshold.min`. A yellow value is always >= min, so the message always says "approaching high limit". | Production temperature 26.1 (warning band 26..26.6) is reported as approaching the high limit. | Compare against the lower warning edge, so values near min say "approaching low limit". | not executed | ActiveAlerts.NearLowEdgeExample | ActiveAlerts.WarningKindCorrected |
| src/cloud/functions/process_sensor_data/main.py:85-89 | `medium` when either distance to a bound exceeds half the width. Out of range, the far bound is always more than the full width away, so `low` is unreachable. | Temperature 32.5 against 26..32 is rated medium, though it is only 0.5 over. | Grade by how far the value lies beyond the crossed bound: low for a slight excess, medium beyond half the width. | not executed | CloudFunction.CreatedSlightExcessIsMedium | CloudFunction.Severity |
| water-quality-dashboard/src/lib/utils.js:100-105 | The change is `(last - first) / first * 100`. A zero oldest value with a zero newest value gives NaN, which fails the stable test and reports down. | Two readings with temperature 0 give a down trend. | An unchanged series is stable. | not executed | Trends.ZeroSeriesIsDown | Trends.CalculateTrendCorrected |
| water-quality-dashboard/src/components/ThresholdManager.jsx:525-530 | The "Reset to Defaults" button resets the page's thresholds and selection but leaves the saved `customThresholds` in storage. `handleReset` (lines 280-287), which also clears storage, is never called. | Save temperature as 20..25, then press the button: the page shows 26..32, while the dashboard's `getThreshold` still checks against 20..25. | The button calls `handleReset`, so the saved ranges are removed and the dashboard falls back to its built-in tables. | not executed | Presets.ResetButtonExample | Presets.ResetClearsDashboardRanges |

The operations follow the code as written, so their contracts describe what the system does today:

- `ActiveAlerts.ParameterAlert` words its warnings with `WarningKind`.
- `CloudFunction.CreateOne` grades with `SeverityAsWritten`.
- `Trends.CalculateTrend` computes the trend.
- `Presets.ResetButton` is the reset the page offers.

Each corrected member (`WarningKindCorrected`, `Severity`, `CalculateTrendCorrected`, `Reset`) sits beside its as-written counterpart. Each carries the intended property, proved.
