/** The threshold configuration page: built-in species presets, custom
    presets with lock flags, the selected preset key and the thresholds being
    edited. Browser storage is part of the state (`Storage`); the clock,
    the user's confirmation and the text inputs are parameters. */
module Presets {
  import opened Wrappers
  import opened Records
  import opened Text
  import opened Thresholds

  /** A built-in species preset: display name and table. */
  datatype Preset = Preset(name: string, table: Table)

  function SpeciesTable(t: real, t2: real, p: real, p2: real, o: real, o2: real, a2: real): Table {
    map[TEMPERATURE := Range(t, t2), PH := Range(p, p2), DISSOLVED_OXYGEN := Range(o, o2), AMMONIA := Range(0.0, a2)]
  }

  const DEFAULT_KEY := "asian_seabass"

  /** `SPECIES_PRESETS[key]`, when `key` names a built-in preset. */
  function BuiltIn(key: string): (r: Option<Preset>)
    ensures r.Some? <==> key in {"asian_seabass", "grouper", "tilapia", "shrimp", "custom"}
  {
    if key == "asian_seabass" then Some(Preset("Siakap (Asian Seabass)", SpeciesTable(26.0, 32.0, 7.0, 8.5, 4.0, 8.0, 0.02)))
    else if key == "grouper" then Some(Preset("Kerapu (Hybrid Grouper)", SpeciesTable(26.0, 30.0, 7.5, 8.3, 5.0, 8.0, 0.02)))
    else if key == "tilapia" then Some(Preset("Tilapia (Red/Black)", SpeciesTable(25.0, 32.0, 6.5, 9.0, 3.0, 8.0, 0.05)))
    else if key == "shrimp" then Some(Preset("Udang Vannamei (White Shrimp)", SpeciesTable(28.0, 32.0, 7.5, 8.5, 5.0, 8.0, 0.01)))
    else if key == "custom" then Some(Preset("Custom", SpeciesTable(20.0, 30.0, 6.5, 8.5, 4.0, 8.0, 0.05)))
    else None
  }

  function DefaultTable(): Table {
    BuiltIn(DEFAULT_KEY).value.table
  }

  /** A user-defined preset. */
  datatype CustomPreset = CustomPreset(name: string, thresholds: Table, locked: bool)

  type Presets = map<string, CustomPreset>

  /** The browser storage entries the page reads and writes. */
  datatype Storage = Storage(
    customThresholds: Stored<Table>,
    selectedPreset: Option<string>,
    customPresets: Option<Presets>)

  datatype Manager = Manager(
    presets: Presets,
    selected: string,
    thresholds: Table,
    newName: string,
    editingKey: Option<string>,
    editingName: string,
    store: Storage)

  /** `savedPreset || 'asian_seabass'`. */
  function SavedSelection(store: Storage): (key: string)
    ensures store.selectedPreset.Some? && store.selectedPreset.value != "" ==> key == store.selectedPreset.value
    ensures store.selectedPreset.None? || store.selectedPreset == Some("") ==> key == DEFAULT_KEY
  {
    if store.selectedPreset.Some? && store.selectedPreset.value != "" then store.selectedPreset.value else DEFAULT_KEY
  }

  /** The initial thresholds: saved thresholds that parse, else the saved
      preset (a built-in one first, then a custom one), else the default. */
  function InitialThresholds(store: Storage): (t: Table)
  {
    if store.customThresholds.Parsed? then store.customThresholds.value
    else
      var key := SavedSelection(store);
      var custom := store.customPresets.GetOr(map[]);
      if BuiltIn(key).Some? then BuiltIn(key).value.table
      else if key in custom then custom[key].thresholds
      else DefaultTable()
  }

  /** The page as it opens. */
  function Init(store: Storage): (m: Manager)
    ensures m.presets == store.customPresets.GetOr(map[]) && m.selected == SavedSelection(store)
    ensures m.store == store && m.editingKey.None?
  {
    Manager(store.customPresets.GetOr(map[]), SavedSelection(store), InitialThresholds(store), "", None, "", store)
  }

  /** The four levels of the initial threshold precedence. */
  lemma InitPrecedence(store: Storage)
    ensures store.customThresholds.Parsed? ==> Init(store).thresholds == store.customThresholds.value
    ensures !store.customThresholds.Parsed? && BuiltIn(SavedSelection(store)).Some? ==>
            Init(store).thresholds == BuiltIn(SavedSelection(store)).value.table
    ensures !store.customThresholds.Parsed? && BuiltIn(SavedSelection(store)).None?
            && store.customPresets.Some? && SavedSelection(store) in store.customPresets.value ==>
            Init(store).thresholds == store.customPresets.value[SavedSelection(store)].thresholds
    ensures !store.customThresholds.Parsed? && BuiltIn(SavedSelection(store)).None?
            && !(store.customPresets.Some? && SavedSelection(store) in store.customPresets.value) ==>
            Init(store).thresholds == DefaultTable()
  {
  }

  /** How many of the newest ten readings have a present `param` value
      outside `min..max`. */
  function AlertCount(readings: seq<Reading>, param: string, min: real, max: real): (n: nat)
    ensures n == |set i: nat | i < 10 && i < |readings| && IsOutside(readings[i], param, Range(min, max))|
    ensures n <= |readings| && n <= 10
    ensures |readings| == 0 ==> n == 0
  {
    var w := if |readings| <= 10 then readings else readings[..10];
    assert forall i :: 0 <= i < |w| ==> w[i] == readings[i];
    assert OutsidePositions(w, param, Range(min, max))
        == set i: nat | i < 10 && i < |readings| && IsOutside(readings[i], param, Range(min, max));
    CountOutside(w, param, Range(min, max))
  }

  /** `rd` has a present `param` value outside `r`. */
  predicate IsOutside(rd: Reading, param: string, r: Range) {
    var v := ValueOf(rd, param);
    v.Some? && !Within(v.value, r)
  }

  /** The positions of `rs` whose `param` value lies outside `r`. */
  function OutsidePositions(rs: seq<Reading>, param: string, r: Range): set<nat> {
    set i: nat | i < |rs| && IsOutside(rs[i], param, r)
  }

  function CountOutside(rs: seq<Reading>, param: string, r: Range): (n: nat)
    ensures n == |OutsidePositions(rs, param, r)|
    ensures n <= |rs|
    decreases |rs|
  {
    if |rs| == 0 then 0
    else
      var k := |rs| - 1;
      OutsidePositionsStep(rs, param, r);
      CountOutside(rs[..k], param, r) + (if IsOutside(rs[k], param, r) then 1 else 0)
  }

  /** The outside positions of a list are those of its front plus, if
      outside, its last position, which the front cannot contain. */
  lemma OutsidePositionsStep(rs: seq<Reading>, param: string, r: Range)
    requires |rs| > 0
    ensures var k := |rs| - 1;
            && OutsidePositions(rs, param, r) == OutsidePositions(rs[..k], param, r) + (if IsOutside(rs[k], param, r) then {k} else {})
            && k !in OutsidePositions(rs[..k], param, r)
  {
    var k := |rs| - 1;
    assert forall i :: 0 <= i < k ==> rs[..k][i] == rs[i];
  }

  /** The count reaches its bound exactly when every one of the readings it
      looks at has a present value outside the range, and is 0 exactly when
      none has. */
  lemma {:induction false} CountOutsideExtremes(rs: seq<Reading>, param: string, r: Range)
    ensures CountOutside(rs, param, r) == |rs| <==>
            forall i :: 0 <= i < |rs| ==> ValueOf(rs[i], param).Some? && !Within(ValueOf(rs[i], param).value, r)
    ensures CountOutside(rs, param, r) == 0 <==>
            forall i :: 0 <= i < |rs| ==> ValueOf(rs[i], param).None? || Within(ValueOf(rs[i], param).value, r)
    decreases |rs|
  {
    if |rs| > 0 {
      var k := |rs| - 1;
      CountOutsideExtremes(rs[..k], param, r);
      assert forall i :: 0 <= i < k ==> rs[..k][i] == rs[i];
    }
  }

  /** `handlePresetChange(key)`: the key is selected and stored; a built-in
      preset's table wins over a custom preset of the same key; an unknown key
      keeps the current thresholds. */
  function PresetChange(m: Manager, key: string): (r: Manager)
    ensures r.selected == key && r.store.selectedPreset == Some(key)
    ensures BuiltIn(key).Some? ==> r.thresholds == BuiltIn(key).value.table
    ensures BuiltIn(key).None? && key in m.presets ==> r.thresholds == m.presets[key].thresholds
    ensures BuiltIn(key).None? && key !in m.presets ==> r.thresholds == m.thresholds
    ensures r.presets == m.presets
    ensures r.newName == m.newName && r.editingKey == m.editingKey && r.editingName == m.editingName
    ensures r.store.customThresholds == m.store.customThresholds && r.store.customPresets == m.store.customPresets
  {
    var m1 := m.(selected := key, store := m.store.(selectedPreset := Some(key)));
    if BuiltIn(key).Some? then m1.(thresholds := BuiltIn(key).value.table)
    else if key in m.presets then m1.(thresholds := m.presets[key].thresholds)
    else m1
  }

  /** The key of a preset added at time `now` (`custom_${Date.now()}`). */
  function NewKey(now: nat): (key: string)
    ensures |key| > 7 && key[..7] == "custom_"
  {
    "custom_" + NatToDecimal(now)
  }

  /** A generated key never names a built-in preset. */
  lemma NewKeyNotBuiltIn(now: nat)
    ensures BuiltIn(NewKey(now)).None?
  {
    var key := NewKey(now);
    assert key[0] == 'c' && key[6] == '_';
    assert IsDigit(key[7]);
  }

  /** `handleAddPreset()` at time `now`: a blank name changes nothing;
      otherwise a new unlocked preset with the trimmed name and a copy of the
      current thresholds is stored under a fresh-time key and selected. */
  function AddPreset(m: Manager, now: nat): (r: Manager)
    ensures IsBlank(m.newName) ==> r == m
    ensures !IsBlank(m.newName) ==>
            && r.presets == m.presets[NewKey(now) := CustomPreset(Trim(m.newName), m.thresholds, false)]
            && r.selected == NewKey(now)
            && r.thresholds == m.thresholds
            && r.newName == ""
            && r.store.customPresets == Some(r.presets)
            && r.store.selectedPreset == Some(NewKey(now))
            && r.store.customThresholds == m.store.customThresholds
            && r.editingKey == m.editingKey && r.editingName == m.editingName
  {
    if IsBlank(m.newName) then m
    else
      var key := NewKey(now);
      var presets := m.presets[key := CustomPreset(Trim(m.newName), m.thresholds, false)];
      m.(presets := presets, selected := key, newName := "",
         store := m.store.(customPresets := Some(presets), selectedPreset := Some(key)))
  }

  /** After adding a preset, selecting it again restores the thresholds it
      was created with, and no other preset changed. */
  lemma AddedPresetIsSelectable(m: Manager, now: nat, other: Manager)
    requires !IsBlank(m.newName)
    ensures var r := AddPreset(m, now);
            && PresetChange(other.(presets := r.presets), NewKey(now)).thresholds == m.thresholds
            && (forall k :: k in m.presets && k != NewKey(now) ==> k in r.presets && r.presets[k] == m.presets[k])
  {
    NewKeyNotBuiltIn(now);
  }

  /** `toggleLock(key)`: flips that preset's lock flag and nothing else. */
  function ToggleLock(m: Manager, key: string): (r: Manager)
    requires key in m.presets
    ensures key in r.presets && r.presets[key].locked == !m.presets[key].locked
    ensures r.presets[key].name == m.presets[key].name && r.presets[key].thresholds == m.presets[key].thresholds
    ensures r.presets.Keys == m.presets.Keys
    ensures forall k :: k in m.presets && k != key ==> r.presets[k] == m.presets[k]
    ensures r.selected == m.selected && r.thresholds == m.thresholds
    ensures r.store.customPresets == Some(r.presets)
    ensures r.store.customThresholds == m.store.customThresholds && r.store.selectedPreset == m.store.selectedPreset
    ensures r.newName == m.newName && r.editingKey == m.editingKey && r.editingName == m.editingName
  {
    var presets := m.presets[key := m.presets[key].(locked := !m.presets[key].locked)];
    m.(presets := presets, store := m.store.(customPresets := Some(presets)))
  }

  /** Toggling twice restores the presets. */
  lemma ToggleTwice(m: Manager, key: string)
    requires key in m.presets
    ensures ToggleLock(ToggleLock(m, key), key).presets == m.presets
  {
  }

  /** `handleDeletePreset(key)` with the user's answer to the confirmation: a
      locked preset or a declined confirmation changes nothing; otherwise
      the key is removed, and if it was selected, selection and thresholds
      return to the default preset. */
  function DeletePreset(m: Manager, key: string, confirmed: bool): (r: Manager)
    requires key in m.presets
    ensures m.presets[key].locked || !confirmed ==> r == m
    ensures !m.presets[key].locked && confirmed ==>
            && r.presets == m.presets - {key}
            && r.store.customPresets == Some(r.presets)
            && (m.selected == key ==> r.selected == DEFAULT_KEY && r.thresholds == DefaultTable())
            && (m.selected != key ==> r.selected == m.selected && r.thresholds == m.thresholds)
            && r.store.customThresholds == m.store.customThresholds
            && r.store.selectedPreset == m.store.selectedPreset
            && r.newName == m.newName && r.editingKey == m.editingKey && r.editingName == m.editingName
  {
    if m.presets[key].locked || !confirmed then m
    else
      var presets := m.presets - {key};
      var m1 := m.(presets := presets, store := m.store.(customPresets := Some(presets)));
      if m.selected == key then m1.(selected := DEFAULT_KEY, thresholds := DefaultTable()) else m1
  }

  /** Deleting the selected preset resets only the page: the saved
      selection still names the deleted key, so the page reopens on a key
      that is no longer among the presets. */
  lemma DeletedKeyStaysSaved(m: Manager, key: string)
    requires key in m.presets && !m.presets[key].locked
    requires m.store.selectedPreset == Some(key) && key != ""
    ensures var r := DeletePreset(m, key, true);
            Init(r.store).selected == key && key !in r.presets
  {
  }

  /** `startRenaming(key)`: refused for a locked preset; otherwise the
      rename field starts from the current name. */
  function StartRenaming(m: Manager, key: string): (r: Manager)
    requires key in m.presets
    ensures m.presets[key].locked ==> r == m
    ensures !m.presets[key].locked ==>
            && r.editingKey == Some(key) && r.editingName == m.presets[key].name
            && r.presets == m.presets && r.selected == m.selected && r.thresholds == m.thresholds
            && r.newName == m.newName && r.store == m.store
  {
    if m.presets[key].locked then m
    else m.(editingKey := Some(key), editingName := m.presets[key].name)
  }

  /** `saveRename()`: a blank name is rejected with no change; otherwise the
      edited preset gets the trimmed name, keeping its thresholds and lock,
      and editing ends. */
  function SaveRename(m: Manager): (r: Manager)
    requires m.editingKey.Some? && m.editingKey.value in m.presets
    ensures IsBlank(m.editingName) ==> r == m
    ensures !IsBlank(m.editingName) ==>
            var key := m.editingKey.value;
            && r.presets.Keys == m.presets.Keys
            && r.presets[key] == m.presets[key].(name := Trim(m.editingName))
            && (forall k :: k in m.presets && k != key ==> r.presets[k] == m.presets[k])
            && r.editingKey.None? && r.editingName == ""
            && r.selected == m.selected && r.thresholds == m.thresholds
            && r.store.customPresets == Some(r.presets)
            && r.store.customThresholds == m.store.customThresholds
            && r.store.selectedPreset == m.store.selectedPreset
            && r.newName == m.newName
  {
    if IsBlank(m.editingName) then m
    else
      var key := m.editingKey.value;
      var presets := m.presets[key := m.presets[key].(name := Trim(m.editingName))];
      m.(presets := presets, editingKey := None, editingName := "",
         store := m.store.(customPresets := Some(presets)))
  }

  /** A blank name is never stored: after a successful rename the preset's
      name is non-empty and carries no surrounding whitespace. */
  lemma RenamedNameIsTrimmed(m: Manager)
    requires m.editingKey.Some? && m.editingKey.value in m.presets
    requires !IsBlank(m.editingName)
    ensures var n := SaveRename(m).presets[m.editingKey.value].name;
            |n| > 0 && !IsSpace(n[0]) && !IsSpace(n[|n| - 1])
  {
  }

  datatype Bound = Min | Max

  /** `handleThresholdChange(parameter, type, value)`: one bound of one
      parameter takes the new value. */
  function ThresholdChange(m: Manager, parameter: string, bound: Bound, value: real): (r: Manager)
    requires parameter in m.thresholds
    ensures r.thresholds.Keys == m.thresholds.Keys
    ensures bound == Min ==> r.thresholds[parameter] == Range(value, m.thresholds[parameter].max)
    ensures bound == Max ==> r.thresholds[parameter] == Range(m.thresholds[parameter].min, value)
    ensures forall p :: p in m.thresholds && p != parameter ==> r.thresholds[p] == m.thresholds[p]
    ensures r.presets == m.presets && r.selected == m.selected && r.store == m.store
  {
    var current := m.thresholds[parameter];
    var updated := if bound == Min then current.(min := value) else current.(max := value);
    m.(thresholds := m.thresholds[parameter := updated])
  }

  /** `handleReset()` with the user's answer: the default preset and its
      table, and the saved thresholds and selection are cleared. Nothing on
      the page calls this handler; `ResetButton` is what the button does. */
  function Reset(m: Manager, confirmed: bool): (r: Manager)
    ensures !confirmed ==> r == m
    ensures confirmed ==>
            && r.selected == DEFAULT_KEY && r.thresholds == DefaultTable()
            && r.store.customThresholds == Absent && r.store.selectedPreset.None?
            && r.presets == m.presets
  {
    if !confirmed then m
    else m.(selected := DEFAULT_KEY, thresholds := DefaultTable(),
            store := m.store.(customThresholds := Absent, selectedPreset := None))
  }

  /** The "Reset to Defaults" button as wired: the page shows the default
      preset and its table, but nothing in storage changes. */
  function ResetButton(m: Manager, confirmed: bool): (r: Manager)
    ensures !confirmed ==> r == m
    ensures confirmed ==>
            && r.selected == DEFAULT_KEY && r.thresholds == DefaultTable()
            && r.store == m.store && r.presets == m.presets
  {
    if !confirmed then m
    else m.(selected := DEFAULT_KEY, thresholds := DefaultTable())
  }

  /** After the wired button, the dashboard still resolves every saved
      range, even where the page now shows another one. */
  lemma ResetButtonKeepsSavedRanges(m: Manager, p: string, testMode: bool)
    requires m.store.customThresholds.Parsed? && p in m.store.customThresholds.value
    ensures GetThreshold(p, testMode, ResetButton(m, true).store.customThresholds) == m.store.customThresholds.value[p]
  {
  }

  /** With temperature saved as 20..25, the page after the wired button
      shows 26..32 while the dashboard keeps checking against 20..25. */
  lemma ResetButtonExample(m: Manager)
    requires m.store.customThresholds == Parsed(map[TEMPERATURE := Range(20.0, 25.0)])
    ensures ResetButton(m, true).thresholds[TEMPERATURE] == Range(26.0, 32.0)
    ensures GetThreshold(TEMPERATURE, false, ResetButton(m, true).store.customThresholds) == Range(20.0, 25.0)
  {
  }

  /** The unused `handleReset` does clear the saved ranges: afterwards the
      dashboard resolves every parameter from its built-in tables. */
  lemma ResetClearsDashboardRanges(m: Manager, p: string, testMode: bool)
    ensures GetThreshold(p, testMode, Reset(m, true).store.customThresholds) == GetThreshold(p, testMode, Absent)
    ensures !Overrides(Reset(m, true).store.customThresholds, p)
  {
  }

  /** `handleSave()`'s storage writes: the thresholds and the selection. */
  function Save(m: Manager): (r: Manager)
    ensures r.store.customThresholds == Parsed(m.thresholds)
    ensures r.store.selectedPreset == Some(m.selected)
    ensures r.thresholds == m.thresholds && r.presets == m.presets && r.selected == m.selected
  {
    m.(store := m.store.(customThresholds := Parsed(m.thresholds), selectedPreset := Some(m.selected)))
  }

  /** Once saved, the dashboard's threshold lookup returns the page's range
      for every parameter the page holds, in either mode, and a reload of the
      page comes back with the same thresholds and selection. */
  lemma SaveIsSeenEverywhere(m: Manager, p: string, testMode: bool)
    requires p in m.thresholds
    ensures GetThreshold(p, testMode, Save(m).store.customThresholds) == m.thresholds[p]
    ensures m.selected != "" ==> Init(Save(m).store).thresholds == m.thresholds && Init(Save(m).store).selected == m.selected
  {
  }
}
