/** The dashboard's e-mail settings panel: a PIN lock, the on/off switch,
    the recipient and the cooldown in minutes, saved to browser storage and
    to the `email_settings` row the notifier reads (in seconds). Storage
    and the database are part of the state; whether the database write
    succeeds is a parameter. */
module EmailSettings {
  import opened Wrappers
  import EmailNotifier

  const ADMIN_PIN := "472513"

  /** What the panel keeps in browser storage. */
  datatype LocalSettings = LocalSettings(enabled: bool, email: string, cooldownMinutes: int)

  /** A stored or loaded record whose fields may be absent (`null`). */
  datatype LocalRecord = LocalRecord(enabled: Option<bool>, email: Option<string>, cooldownMinutes: Option<int>)
  datatype DbRecord = DbRecord(enabled: Option<bool>, recipient: Option<string>, cooldownSeconds: Option<int>)

  datatype Message = LockedError | SavedEverywhere | SavedLocally

  /** The panel's state. `localWritten` is what this session wrote to
      browser storage (`None` until a save, whatever storage held when the
      panel opened); `dbWritten` is the settings row as last loaded or
      written. */
  datatype Panel = Panel(
    enabled: bool,
    email: string,
    minutes: int,
    locked: bool,
    pinInput: string,
    pinError: bool,
    message: Option<Message>,
    localWritten: Option<LocalSettings>,
    dbWritten: Option<DbRecord>)

  /** JavaScript's `Math.round(seconds / 60)` for whole seconds: halves
      round up. */
  function RoundMinutes(seconds: int): (m: int)
    ensures 60 * m - 30 <= seconds < 60 * m + 30
  {
    (seconds + 30) / 60
  }

  /** `loadSettings()`: the panel's defaults (off, no address, 5 minutes),
      then the stored settings when they parse, then the database row when
      there is one; each missing field takes its default. The panel opens
      locked. */
  function Load(local: Stored<LocalRecord>, db: Option<DbRecord>): (p: Panel)
    ensures p.locked && p.localWritten.None? && p.dbWritten == db
    ensures db.Some? ==>
              && p.enabled == db.value.enabled.GetOr(false)
              && p.email == db.value.recipient.GetOr("")
              && p.minutes == RoundMinutes(db.value.cooldownSeconds.GetOr(300))
    ensures db.None? && local.Parsed? ==>
              && p.enabled == local.value.enabled.GetOr(false)
              && p.email == local.value.email.GetOr("")
              && p.minutes == local.value.cooldownMinutes.GetOr(5)
    ensures db.None? && !local.Parsed? ==> !p.enabled && p.email == "" && p.minutes == 5
  {
    var p := Panel(false, "", 5, true, "", false, None, None, db);
    var p1 := if local.Parsed?
              then p.(enabled := local.value.enabled.GetOr(false), email := local.value.email.GetOr(""),
                      minutes := local.value.cooldownMinutes.GetOr(5))
              else p;
    if db.Some?
    then p1.(enabled := db.value.enabled.GetOr(false), email := db.value.recipient.GetOr(""),
             minutes := RoundMinutes(db.value.cooldownSeconds.GetOr(300)))
    else p1
  }

  /** A row with no cooldown loads as the notifier's default of 5 minutes. */
  lemma DefaultCooldownIsFiveMinutes(e: Option<bool>, r: Option<string>)
    ensures Load(Absent, Some(DbRecord(e, r, None))).minutes == EmailNotifier.DEFAULT_COOLDOWN / 60
  {
  }

  /** `handleUnlock()`: the right PIN unlocks and clears the input; any
      other input flags an error and leaves the lock as it was. */
  function Unlock(p: Panel): (q: Panel)
    ensures p.pinInput == ADMIN_PIN ==> !q.locked && !q.pinError && q.pinInput == ""
    ensures p.pinInput != ADMIN_PIN ==> q == p.(pinError := true)
    ensures q.enabled == p.enabled && q.email == p.email && q.minutes == p.minutes
  {
    if p.pinInput == ADMIN_PIN then p.(locked := false, pinError := false, pinInput := "")
    else p.(pinError := true)
  }

  /** `saveSettings()`, given whether the database upsert succeeds: refused
      while locked; otherwise the settings go to storage and, in seconds, to
      the database row, and the panel locks again. */
  function Save(p: Panel, dbOk: bool): (q: Panel)
    ensures p.locked ==> q == p.(message := Some(LockedError))
    ensures !p.locked ==>
            && q.locked
            && q.localWritten == Some(LocalSettings(p.enabled, p.email, p.minutes))
            && (dbOk ==> q.dbWritten == Some(DbRecord(Some(p.enabled), Some(p.email), Some(p.minutes * 60))) && q.message == Some(SavedEverywhere))
            && (!dbOk ==> q.dbWritten == p.dbWritten && q.message == Some(SavedLocally))
            && q.enabled == p.enabled && q.email == p.email && q.minutes == p.minutes
  {
    if p.locked then p.(message := Some(LockedError))
    else
      var p1 := p.(localWritten := Some(LocalSettings(p.enabled, p.email, p.minutes)), locked := true);
      if dbOk then p1.(dbWritten := Some(DbRecord(Some(p.enabled), Some(p.email), Some(p.minutes * 60))), message := Some(SavedEverywhere))
      else p1.(message := Some(SavedLocally))
  }

  /** `handleToggle()`: a no-op while locked. */
  function Toggle(p: Panel): (q: Panel)
    ensures p.locked ==> q == p
    ensures !p.locked ==> q == p.(enabled := !p.enabled)
  {
    if p.locked then p else p.(enabled := !p.enabled)
  }

  /** Settings cannot change while the panel is locked: toggling and saving
      leave the switch, address and cooldown as they were, and write neither
      browser storage nor the settings row. */
  lemma LockedPanelIsFrozen(p: Panel, dbOk: bool)
    requires p.locked
    ensures Toggle(p) == p
    ensures var q := Save(p, dbOk);
            q.enabled == p.enabled && q.email == p.email && q.minutes == p.minutes && q.localWritten == p.localWritten && q.dbWritten == p.dbWritten
  {
  }

  /** Minutes survive the trip through the database: saving stores
      `60 * m` seconds and loading rounds `60 * m / 60` back to `m`. */
  lemma MinutesRoundTrip(p: Panel, local: Stored<LocalRecord>)
    requires !p.locked
    ensures var q := Save(p, true);
            var r := Load(local, q.dbWritten);
            r.minutes == p.minutes && r.enabled == p.enabled && r.email == p.email
  {
    assert (p.minutes * 60 + 30) / 60 == p.minutes;
  }

  /** A saved row as the notifier loads it; the notifier selects every
      column of the table, so an unset flag comes back null, not absent. */
  function AsNotifierRow(r: DbRecord): EmailNotifier.SettingsRow {
    var enabled := if r.enabled.Some? then EmailNotifier.Value(r.enabled.value) else EmailNotifier.Null;
    EmailNotifier.SettingsRow(enabled, r.recipient, r.cooldownSeconds)
  }

  /** Saving a cooldown of 0 minutes or an empty address does not switch
      the limit off or clear the recipient: the notifier falls back to its
      environment values. */
  lemma ZeroMinutesFallsBack(p: Panel, n: EmailNotifier.Notifier)
    requires !p.locked && p.minutes == 0 && p.email == ""
    ensures var row := AsNotifierRow(Save(p, true).dbWritten.value);
            var m := EmailNotifier.LoadSettings(n, EmailNotifier.Loaded(row));
            EmailNotifier.Cooldown(m) == n.envCooldown && EmailNotifier.Recipient(m) == n.envRecipient
  {
  }
}
