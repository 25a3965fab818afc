/** The bridge's e-mail notifier: where the recipient and the cooldown come
    from, the per-parameter rate limit, the on/off switch, the order of
    checks before an alert e-mail is sent, and the text helpers of the
    message. SMTP, the settings query and the clock are parameters. */
module EmailNotifier {
  import opened Wrappers
  import opened Records
  import opened Text

  /** `DEFAULT_COOLDOWN`, in seconds. */
  const DEFAULT_COOLDOWN := 300

  /** Python truthiness of an optional string: present and non-empty. */
  predicate Truthy(s: Option<string>) {
    s.Some? && s.value != ""
  }

  /** The notifier's state. `smtpConfigured` is set once from the
      environment; the `db` fields are the last loaded dashboard settings;
      `lastSent` is when each parameter was last e-mailed. */
  datatype Notifier = Notifier(
    smtpConfigured: bool,
    envRecipient: Option<string>,
    envCooldown: int,
    lastSent: map<string, real>,
    dbEnabled: bool,
    dbRecipient: Option<string>,
    dbCooldown: Option<int>)

  /** A column of a loaded row: absent from the row, present but null, or
      present with a value. `dict.get(key, default)` tells the first two
      apart: only an absent column gets the default. */
  datatype Field<+T> = Missing | Null | Value(v: T)

  /** A `email_settings` row. For the recipient and the cooldown, absent and
      null both read as `None`; the `enabled` flag keeps the distinction. */
  datatype SettingsRow = SettingsRow(enabled: Field<bool>, recipient: Option<string>, cooldown: Option<int>)

  /** Outcome of `_load_db_settings`: no usable row (no credentials, an
      error, or an empty table) leaves the settings as they were. */
  datatype Load = NoSettings | Loaded(row: SettingsRow)

  function LoadSettings(n: Notifier, l: Load): (m: Notifier)
    ensures l.NoSettings? ==> m == n
    ensures l.Loaded? ==> (m.dbEnabled <==> l.row.enabled.Missing? || l.row.enabled == Value(true))
    ensures l.Loaded? ==> m.dbRecipient == l.row.recipient
                          && m.dbCooldown == l.row.cooldown
    ensures m.lastSent == n.lastSent && m.smtpConfigured == n.smtpConfigured
  {
    match l
    case NoSettings => n
    case Loaded(row) =>
      // a null flag is stored as `None`, which `_is_enabled` returns and the
      // caller reads as false
      var enabled := match row.enabled
        case Missing => true
        case Null => false
        case Value(b) => b;
      n.(dbEnabled := enabled, dbRecipient := row.recipient, dbCooldown := row.cooldown)
  }

  /** The notifier as constructed: the environment cooldown defaults to 300
      seconds, and the settings are loaded only when SMTP is configured. */
  function NewNotifier(smtpConfigured: bool, envRecipient: Option<string>, envCooldown: Option<int>, l: Load): (n: Notifier)
    ensures n.lastSent == map[] && n.envCooldown == envCooldown.GetOr(DEFAULT_COOLDOWN)
    ensures !smtpConfigured ==> n.dbEnabled && n.dbRecipient.None? && n.dbCooldown.None?
  {
    var n := Notifier(smtpConfigured, envRecipient, envCooldown.GetOr(DEFAULT_COOLDOWN), map[], true, None, None);
    if smtpConfigured then LoadSettings(n, l) else n
  }

  /** `_get_recipient()`: the dashboard's recipient when it is non-empty,
      else the environment's. */
  function Recipient(n: Notifier): (r: Option<string>)
    ensures Truthy(n.dbRecipient) ==> r == n.dbRecipient
    ensures !Truthy(n.dbRecipient) ==> r == n.envRecipient
  {
    if Truthy(n.dbRecipient) then n.dbRecipient else n.envRecipient
  }

  /** `_get_cooldown()`: the dashboard's cooldown when it is non-zero, else
      the environment's; a dashboard value of 0 falls back. */
  function Cooldown(n: Notifier): (c: int)
    ensures n.dbCooldown.Some? && n.dbCooldown.value != 0 ==> c == n.dbCooldown.value
    ensures n.dbCooldown.None? || n.dbCooldown == Some(0) ==> c == n.envCooldown
  {
    if n.dbCooldown.Some? && n.dbCooldown.value != 0 then n.dbCooldown.value else n.envCooldown
  }

  /** When `parameter` was last e-mailed; 0 if never. */
  function LastSent(n: Notifier, parameter: string): real {
    if parameter in n.lastSent then n.lastSent[parameter] else 0.0
  }

  /** `_can_send(parameter)` at time `now`. */
  function CanSend(n: Notifier, parameter: string, now: real): (ok: bool)
    ensures parameter in n.lastSent ==> (ok <==> n.lastSent[parameter] + Cooldown(n) as real <= now)
    ensures parameter !in n.lastSent ==> (ok <==> Cooldown(n) as real <= now)
  {
    now - LastSent(n, parameter) >= Cooldown(n) as real
  }

  /** `_is_enabled()`: false without SMTP, whatever the dashboard says (and
      the settings are then not reloaded); otherwise the reloaded flag. */
  function IsEnabled(n: Notifier, l: Load): (r: (bool, Notifier))
    ensures !n.smtpConfigured ==> r == (false, n)
    ensures n.smtpConfigured ==> r.1 == LoadSettings(n, l) && r.0 == r.1.dbEnabled
  {
    if !n.smtpConfigured then (false, n)
    else
      var m := LoadSettings(n, l);
      (m.dbEnabled, m)
  }

  /** What `send_alert` did. */
  datatype SendResult = Disabled | NoRecipient | CoolingDown | SendFailed | Sent

  /** `send_alert(parameter, ...)`: the cooldown is checked at time `now`,
      given what the settings reload returns and whether SMTP delivery
      succeeds; the checks run in the order enabled, recipient, cooldown.
      Only a delivered e-mail records a time, and that is `sentAt`, the
      clock read again once the SMTP exchange is over. */
  function SendAlert(n: Notifier, parameter: string, now: real, l: Load, delivered: bool, sentAt: real): (r: (SendResult, Notifier))
    ensures var m := IsEnabled(n, l).1;
            && (r.0 == Disabled <==> !IsEnabled(n, l).0)
            && (r.0 == NoRecipient <==> IsEnabled(n, l).0 && !Truthy(Recipient(m)))
            && (r.0 == CoolingDown <==> IsEnabled(n, l).0 && Truthy(Recipient(m)) && !CanSend(m, parameter, now))
            && (r.0 == SendFailed <==> IsEnabled(n, l).0 && Truthy(Recipient(m)) && CanSend(m, parameter, now) && !delivered)
            && (r.0 == Sent <==> IsEnabled(n, l).0 && Truthy(Recipient(m)) && CanSend(m, parameter, now) && delivered)
            && (r.0 == Sent ==> r.1 == m.(lastSent := m.lastSent[parameter := sentAt]))
            && (r.0 != Sent ==> r.1 == m)
  {
    var (enabled, m) := IsEnabled(n, l);
    if !enabled then (Disabled, m)
    else if !Truthy(Recipient(m)) then (NoRecipient, m)
    else if !CanSend(m, parameter, now) then (CoolingDown, m)
    else if !delivered then (SendFailed, m)
    else (Sent, m.(lastSent := m.lastSent[parameter := sentAt]))
  }

  /** After a sent e-mail, the same parameter is refused until a positive
      cooldown has passed since the recorded send time, while every other
      parameter's rate limit is as before. */
  lemma CooldownIsPerParameter(n: Notifier, p: string, q: string, now: real, sentAt: real, later: real, l: Load)
    requires SendAlert(n, p, now, l, true, sentAt).0 == Sent
    ensures var m := SendAlert(n, p, now, l, true, sentAt).1;
            && (Cooldown(m) > 0 && later - sentAt < Cooldown(m) as real ==> !CanSend(m, p, later))
            && (q != p ==> (CanSend(m, q, later) <==> CanSend(IsEnabled(n, l).1, q, later)))
  {
  }

  /** A settings row whose `enabled` column is null switches mail off, just
      as `false` does; only a row without the column keeps it on. */
  lemma NullEnabledDisablesMail(n: Notifier, p: string, now: real, row: SettingsRow, delivered: bool, sentAt: real)
    requires n.smtpConfigured
    ensures row.enabled == Null ==> SendAlert(n, p, now, Loaded(row), delivered, sentAt).0 == Disabled
    ensures row.enabled == Missing ==> SendAlert(n, p, now, Loaded(row), delivered, sentAt).0 != Disabled
  {
  }

  /** Without SMTP no e-mail is ever sent, whatever the dashboard settings
      say, and nothing is recorded. */
  lemma NoSmtpNoMail(n: Notifier, p: string, now: real, l: Load, delivered: bool, sentAt: real)
    requires !n.smtpConfigured
    ensures SendAlert(n, p, now, l, delivered, sentAt) == (Disabled, n)
  {
  }

  /** The advice the e-mail carries. */
  function RecommendationText(parameter: string, low: bool): string
    requires parameter in PARAMETERS
  {
    if parameter == TEMPERATURE then
      (if low then "Check heating systems and ensure proper insulation."
       else "Consider increasing water flow or adding shade covers to reduce temperature.")
    else if parameter == PH then
      (if low then "Add pH buffer or lime. Check for organic matter decomposition."
       else "Add pH-lowering agents or increase aeration. Check for algae blooms.")
    else if parameter == DISSOLVED_OXYGEN then
      (if low then "URGENT: Increase aeration immediately! Check for equipment failures."
       else "Reduce aeration if levels are excessively high.")
    else if parameter == AMMONIA then
      (if low then "Ammonia levels are within safe range."
       else "CRITICAL: Reduce feeding, increase water exchange, check filtration system!")
    else
      (if low then "Add salt or reduce freshwater input to maintain proper salinity."
       else "Add freshwater to reduce salinity levels.")
  }

  const GENERIC_ADVICE := "Please review the parameter and take appropriate action."

  /** `_get_recommendation`: generic for an unknown parameter; otherwise the
      low advice exactly when the value is below the minimum, and the high
      advice for anything else, in-range values included. */
  function Recommendation(parameter: string, value: real, min: real, max: real): (r: string)
    ensures parameter !in PARAMETERS ==> r == GENERIC_ADVICE
    ensures parameter in PARAMETERS ==> r == RecommendationText(parameter, value < min)
  {
    if parameter !in PARAMETERS then GENERIC_ADVICE
    else RecommendationText(parameter, value < min)
  }

  /** A value at or above the minimum gets the high advice even when it
      is inside the range; the low advice is given only below the minimum. */
  lemma AdviceTellsSide(parameter: string, min: real, max: real, v: real)
    requires parameter in PARAMETERS
    ensures min <= v ==> Recommendation(parameter, v, min, max) == RecommendationText(parameter, false)
    ensures v < min ==> Recommendation(parameter, v, min, max) == RecommendationText(parameter, true)
  {
  }

  /** `_get_severity_color`: a colour per known severity, grey otherwise. */
  function SeverityColor(severity: string): (c: string)
    ensures severity == "high" ==> c == "#dc2626"
    ensures severity == "medium" ==> c == "#f59e0b"
    ensures severity == "low" ==> c == "#eab308"
    ensures severity !in {"high", "medium", "low"} ==> c == "#6b7280"
  {
    if severity == "high" then "#dc2626"
    else if severity == "medium" then "#f59e0b"
    else if severity == "low" then "#eab308"
    else "#6b7280"
  }

  /** `_format_parameter_name`: a display name for each known parameter;
      any other name has its underscores replaced by spaces and is
      title-cased. */
  function FormatParameterName(param: string): (r: string)
    ensures param !in PARAMETERS ==> |r| == |param|
    ensures param !in PARAMETERS ==> forall i :: 0 <= i < |param| ==>
      && (param[i] == '_' ==> r[i] == ' ')
      && (!IsLetter(param[i]) && param[i] != '_' ==> r[i] == param[i])
      && (IsLetter(param[i]) && (i == 0 || !IsLetter(param[i - 1])) ==> r[i] == UpperChar(param[i]))
      && (IsLetter(param[i]) && i > 0 && IsLetter(param[i - 1]) ==> r[i] == LowerChar(param[i]))
  {
    if param == TEMPERATURE then "Temperature"
    else if param == PH then "pH Level"
    else if param == DISSOLVED_OXYGEN then "Dissolved Oxygen"
    else if param == AMMONIA then "Ammonia (NH3)"
    else if param == SALINITY then "Salinity"
    else
      var spaced := ReplaceChar(param, '_', ' ');
      var r := TitleCase(spaced);
      assert forall i :: 0 <= i < |param| ==> spaced[i] == (if param[i] == '_' then ' ' else param[i]);
      r
  }

  /** An unknown lower-case name with one underscore is title-cased word by
      word. */
  lemma FormatUnknownExample()
    ensures FormatParameterName("water_level") == "Water Level"
  {
    var p := "water_level";
    assert p !in PARAMETERS by {
      assert p[0] != TEMPERATURE[0] && |p| != |PH| && |p| != |DISSOLVED_OXYGEN| && |p| != |AMMONIA| && |p| != |SALINITY|;
    }
    SpacedExample();
    TitledExample();
  }

  lemma SpacedExample()
    ensures ReplaceChar("water_level", '_', ' ') == "water level"
  {
  }

  lemma TitledExample()
    ensures TitleCase("water level") == "Water Level"
  {
    var s := "water level";
    var r := TitleCase(s);
    assert r[0] == 'W' && r[5] == ' ';
    assert s[6] == 'l' && s[5] == ' ' && !IsLetter(s[5]) && UpperChar('l') == 'L';
    assert r[6] == 'L';
    assert r[1] == 'a' && r[2] == 't' && r[3] == 'e' && r[4] == 'r';
    assert r[7] == 'e' && r[8] == 'v' && r[9] == 'e' && r[10] == 'l';
  }
}
