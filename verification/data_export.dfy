/** The CSV export of the readings on screen: a header line, then one line
    per reading, cells joined by commas and lines by newlines, nothing
    quoted. Date rendering (`toLocaleString`) and two-decimal rendering
    (`toFixed(2)`) are parameters. */
module DataExport {
  import opened Wrappers
  import opened Records
  import opened Text

  /** The seven column titles, as the source spells them (its degree sign
      is stored as the two characters U+00C2 U+00B0). */
  const HEADERS: seq<string> := [
    "Timestamp", "Device ID", "Temperature (\U{00C2}\U{00B0}C)", "pH",
    "Dissolved Oxygen (mg/L)", "Ammonia (ppm)", "Salinity (ppt)"]

  /** `v?.toFixed(2) || ''`: a missing value is an empty cell. */
  function Cell(v: Option<real>, fixed2: real -> string): (c: string)
    ensures v.None? ==> c == ""
    ensures v.Some? ==> c == fixed2(v.value)
  {
    match v
    case None => ""
    case Some(x) => fixed2(x)
  }

  /** The cells of one reading, in column order. A missing device id joins
      as the empty string, as `Array.join` renders `null`. */
  function Row(r: Reading, locale: int -> string, fixed2: real -> string): (cells: seq<string>)
    ensures |cells| == |HEADERS|
    ensures cells[0] == locale(r.timestamp) && cells[1] == r.deviceId.GetOr("")
    ensures cells[2] == Cell(r.temperature, fixed2) && cells[3] == Cell(r.ph, fixed2)
    ensures cells[4] == Cell(r.dissolvedOxygen, fixed2) && cells[5] == Cell(r.ammonia, fixed2)
    ensures cells[6] == Cell(r.salinity, fixed2)
  {
    [locale(r.timestamp), r.deviceId.GetOr(""), Cell(r.temperature, fixed2), Cell(r.ph, fixed2),
     Cell(r.dissolvedOxygen, fixed2), Cell(r.ammonia, fixed2), Cell(r.salinity, fixed2)]
  }

  /** The lines of the file: the header, then each reading in order. */
  function Lines(readings: seq<Reading>, locale: int -> string, fixed2: real -> string): (ls: seq<string>)
    ensures |ls| == |readings| + 1
    ensures ls[0] == JoinWith(HEADERS, ",")
    ensures forall i :: 0 <= i < |readings| ==> ls[i + 1] == JoinWith(Row(readings[i], locale, fixed2), ",")
  {
    [JoinWith(HEADERS, ",")] + seq(|readings|, i requires 0 <= i < |readings| => JoinWith(Row(readings[i], locale, fixed2), ","))
  }

  /** `exportToCSV()`: nothing for no readings (the source alerts "No data
      to export" instead), the joined lines otherwise. */
  function ExportToCsv(readings: Option<seq<Reading>>, locale: int -> string, fixed2: real -> string): (out: Option<string>)
    ensures out.None? <==> readings.None? || |readings.value| == 0
  {
    if readings.None? || |readings.value| == 0 then None
    else Some(JoinWith(Lines(readings.value, locale, fixed2), "\n"))
  }

  /** No cell of the file, header or data, contains `c`. */
  ghost predicate CellsAvoid(readings: seq<Reading>, locale: int -> string, fixed2: real -> string, c: char) {
    && (forall t :: c !in locale(t))
    && (forall v :: c !in fixed2(v))
    && (forall i :: 0 <= i < |readings| ==> c !in readings[i].deviceId.GetOr(""))
  }

  lemma RowAvoids(r: Reading, locale: int -> string, fixed2: real -> string, c: char)
    requires c !in locale(r.timestamp) && c !in r.deviceId.GetOr("")
    requires forall v :: c !in fixed2(v)
    ensures forall k :: 0 <= k < |Row(r, locale, fixed2)| ==> c !in Row(r, locale, fixed2)[k]
  {
  }

  /** A character in none of the parts nor the separator is not in the
      joined string. */
  lemma {:induction false} JoinAvoids(parts: seq<string>, sep: string, c: char)
    requires forall k :: 0 <= k < |parts| ==> c !in parts[k]
    requires c !in sep
    ensures c !in JoinWith(parts, sep)
    decreases |parts|
  {
    if |parts| > 1 {
      JoinAvoids(parts[1..], sep, c);
    }
  }

  /** When no cell contains a line break, the file splits at its line
      breaks into exactly the header line and one line per reading, in
      input order. */
  lemma ExportLines(readings: seq<Reading>, locale: int -> string, fixed2: real -> string)
    requires |readings| > 0
    requires CellsAvoid(readings, locale, fixed2, '\n')
    ensures var out := ExportToCsv(Some(readings), locale, fixed2).value;
            Split(out, '\n') == Lines(readings, locale, fixed2)
  {
    var ls := Lines(readings, locale, fixed2);
    JoinAvoids(HEADERS, ",", '\n');
    forall k | 0 <= k < |ls|
      ensures '\n' !in ls[k]
    {
      if k > 0 {
        RowAvoids(readings[k - 1], locale, fixed2, '\n');
        JoinAvoids(Row(readings[k - 1], locale, fixed2), ",", '\n');
      }
    }
    SplitJoin(ls, '\n');
  }

  /** When in addition no cell contains a comma, every line splits at its
      commas into seven cells: the column titles, then for each reading its
      date, device id and the five measurements in column order. */
  lemma ExportCells(readings: seq<Reading>, locale: int -> string, fixed2: real -> string, i: nat)
    requires i < |readings|
    requires CellsAvoid(readings, locale, fixed2, ',')
    ensures Split(Lines(readings, locale, fixed2)[0], ',') == HEADERS
    ensures Split(Lines(readings, locale, fixed2)[i + 1], ',') == Row(readings[i], locale, fixed2)
  {
    SplitJoin(HEADERS, ',');
    RowAvoids(readings[i], locale, fixed2, ',');
    SplitJoin(Row(readings[i], locale, fixed2), ',');
  }
}
