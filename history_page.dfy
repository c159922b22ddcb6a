/**
 * public/js/history.js: the history page's time-range table, the window it asks
 * the server for, and the CSV file it exports. The page finds its base path with
 * the same rule as the dashboard (Dashboard.GetBasePath).
 */
module HistoryPage {
  import opened Common

  // ---------------------------------------------------------------------------
  // Time ranges
  // ---------------------------------------------------------------------------

  const Minute := 60 * 1000
  const Hour := 60 * Minute
  const Day := 24 * Hour

  /** The codes of the page's range selector, shortest first. */
  const RangeCodes: seq<string> := ["15m", "30m", "1h", "3h", "6h", "12h", "24h", "3d", "7d", "30d"]

  /** The range resetFilters selects. */
  const ResetRange := "1h"

  /** getTimeRangeMillis: the length of a range code in ms; one hour for any other code. */
  function GetTimeRangeMillis(range: string): (r: int)
    ensures r > 0
    ensures range !in RangeCodes ==> r == Hour
  {
    if range == "15m" then 15 * Minute
    else if range == "30m" then 30 * Minute
    else if range == "1h" then Hour
    else if range == "3h" then 3 * Hour
    else if range == "6h" then 6 * Hour
    else if range == "12h" then 12 * Hour
    else if range == "24h" then 24 * Hour
    else if range == "3d" then 3 * Day
    else if range == "7d" then 7 * Day
    else if range == "30d" then 30 * Day
    else Hour
  }

  /** The decimal value of a string of digits. */
  function DigitsValue(s: string): nat {
    if s == [] then 0
    else
      var d := s[|s| - 1] as int - '0' as int;
      DigitsValue(s[..|s| - 1]) * 10 + (if 0 <= d <= 9 then d else 0)
  }

  /** The length in ms of one unit letter: m(inute), h(our) or d(ay). */
  function UnitMillis(c: char): nat {
    if c == 'm' then Minute else if c == 'h' then Hour else if c == 'd' then Day else 0
  }

  /** What a code says when read as a count followed by a unit letter. */
  function SpelledMillis(code: string): nat {
    if code == [] then 0 else DigitsValue(code[..|code| - 1]) * UnitMillis(code[|code| - 1])
  }

  /** Every code of the selector is mapped to the duration it spells. */
  lemma {:induction false} RangeCodesMeanWhatTheySay()
    ensures forall i :: 0 <= i < |RangeCodes| ==> GetTimeRangeMillis(RangeCodes[i]) == SpelledMillis(RangeCodes[i])
  {
    CountsSpelled();
    assert "15m"[..2] == "15" && "30m"[..2] == "30" && "1h"[..1] == "1" && "3h"[..1] == "3";
    assert "6h"[..1] == "6" && "12h"[..2] == "12" && "24h"[..2] == "24" && "3d"[..1] == "3";
    assert "7d"[..1] == "7" && "30d"[..2] == "30";
  }

  /** The counts the codes are spelled with, read as decimal numbers. */
  lemma {:induction false} CountsSpelled()
    ensures DigitsValue("15") == 15 && DigitsValue("30") == 30
    ensures DigitsValue("12") == 12 && DigitsValue("24") == 24
    ensures DigitsValue("1") == 1 && DigitsValue("3") == 3
    ensures DigitsValue("6") == 6 && DigitsValue("7") == 7
  {
    assert DigitsValue("15") == 15 by { assert "15"[..1] == "1"; assert "1"[..0] == ""; }
    assert DigitsValue("30") == 30 by { assert "30"[..1] == "3"; assert "3"[..0] == ""; }
    assert DigitsValue("12") == 12 by { assert "12"[..1] == "1"; assert "1"[..0] == ""; }
    assert DigitsValue("24") == 24 by { assert "24"[..1] == "2"; assert "2"[..0] == ""; }
    assert DigitsValue("1") == 1 by { assert "1"[..0] == ""; }
    assert DigitsValue("3") == 3 by { assert "3"[..0] == ""; }
    assert DigitsValue("6") == 6 by { assert "6"[..0] == ""; }
    assert DigitsValue("7") == 7 by { assert "7"[..0] == ""; }
  }

  /** A few codes spelled out: 15m is 900000 ms, 1h is 3600000 ms and 7d is 604800000 ms. */
  lemma KnownDurations()
    ensures GetTimeRangeMillis("15m") == 900000
    ensures GetTimeRangeMillis("1h") == 3600000
    ensures GetTimeRangeMillis("7d") == 604800000
    ensures GetTimeRangeMillis("30d") == 2592000000
  {
  }

  /** The selector's codes are in strictly increasing order of duration. */
  lemma RangesIncrease()
    ensures forall i, j :: 0 <= i < j < |RangeCodes| ==>
              GetTimeRangeMillis(RangeCodes[i]) < GetTimeRangeMillis(RangeCodes[j])
  {
  }

  /** resetFilters brings the page back to the last hour. */
  lemma ResetIsOneHour()
    ensures GetTimeRangeMillis(ResetRange) == Hour == 3600000
  {
  }

  /** loadHistoryData: the window [now - range, now] the page asks the server for. */
  function HistoryWindow(range: string, now: int): (w: (int, int))
    ensures w.1 == now && w.0 < w.1
    ensures w.1 - w.0 == GetTimeRangeMillis(range)
    ensures range !in RangeCodes ==> w.1 - w.0 == Hour
  {
    (now - GetTimeRangeMillis(range), now)
  }

  // ---------------------------------------------------------------------------
  // CSV export
  // ---------------------------------------------------------------------------

  const Delimiter := ';'
  const Newline := '\n'

  const ColumnCount := 12

  /** The header of column `k`: the date, the sensor, the eight wavelengths, clear and near infrared. */
  function ColumnHeader(k: nat): string {
    match k
    case 0 => "Timestamp"
    case 1 => "Sensor ID"
    case 2 => "415nm"
    case 3 => "445nm"
    case 4 => "480nm"
    case 5 => "515nm"
    case 6 => "555nm"
    case 7 => "590nm"
    case 8 => "630nm"
    case 9 => "680nm"
    case 10 => "Clear"
    case _ => "910nm"
  }

  /** The twelve column headers, in the order the cells are written. */
  function Headers(): seq<string> {
    seq(ColumnCount, k requires 0 <= k => ColumnHeader(k))
  }

  /** The first line of the file, without its newline. */
  function HeaderLine(): string {
    Join(Headers(), Delimiter)
  }

  /**
   * The sensor cell: `row.sensor_id || ''` as join prints it, "" for a falsy id and
   * String(id) otherwise; None where that conversion throws.
   */
  function SensorCell(id: JsValue): Option<string> {
    if Truthy(id) then ToJsString(id) else Some("")
  }

  /** A row whose sensor cell can be printed; join throws on any other row. */
  predicate Printable(row: Received) {
    SensorCell(row.sensorId).Some?
  }

  /**
   * The cells of one row: the formatted date, the sensor id or "" when it is falsy,
   * then f1..f8, clear, nir, each `(x || 0).toFixed(1)`. Date formatting and toFixed
   * are parameters. Only a Printable row gets this far (see AppendRows); for
   * another row the sensor cell is left blank.
   */
  function CsvValues(row: Received, formatDate: int -> string, toFixed1: real -> string): seq<string> {
    var c := row.channels;
    [formatDate(row.timestamp), if Printable(row) then SensorCell(row.sensorId).value else "",
     toFixed1(OrZero(c.f1)), toFixed1(OrZero(c.f2)), toFixed1(OrZero(c.f3)), toFixed1(OrZero(c.f4)),
     toFixed1(OrZero(c.f5)), toFixed1(OrZero(c.f6)), toFixed1(OrZero(c.f7)), toFixed1(OrZero(c.f8)),
     toFixed1(OrZero(c.clear)), toFixed1(OrZero(c.nir))]
  }

  /**
   * A row has one cell per header: the date under Timestamp, the sensor (blank when
   * falsy) under Sensor ID, and channel k, missing as 0, under the k-th wavelength.
   */
  lemma CsvValuesLayout(row: Received, formatDate: int -> string, toFixed1: real -> string)
    ensures var cells := CsvValues(row, formatDate, toFixed1);
            |cells| == |Headers()| == ColumnCount &&
            cells[0] == formatDate(row.timestamp) &&
            (Printable(row) && Truthy(row.sensorId) ==> Some(cells[1]) == ToJsString(row.sensorId)) &&
            (!Truthy(row.sensorId) ==> cells[1] == "") &&
            forall k :: 0 <= k < ChannelCount ==> cells[2 + k] == toFixed1(OrZero(row.channels.Values()[k]))
  {
  }

  /** One data line, without its newline. */
  function CsvLine(row: Received, formatDate: int -> string, toFixed1: real -> string): string {
    Join(CsvValues(row, formatDate, toFixed1), Delimiter)
  }

  /** `f` applied to each row, in order. */
  function Mapped<T>(rows: seq<T>, f: T -> string): seq<string> {
    if rows == [] then [] else [f(rows[0])] + Mapped(rows[1..], f)
  }

  lemma {:induction false} MappedLength<T>(rows: seq<T>, f: T -> string)
    ensures |Mapped(rows, f)| == |rows|
  {
    if rows != [] {
      MappedLength(rows[1..], f);
    }
  }

  lemma {:induction false} MappedAt<T>(rows: seq<T>, f: T -> string, i: nat)
    requires i < |rows|
    ensures |Mapped(rows, f)| == |rows| && Mapped(rows, f)[i] == f(rows[i])
    decreases i
  {
    MappedLength(rows, f);
    if i > 0 {
      MappedAt(rows[1..], f, i - 1);
    }
  }

  lemma {:induction false} MappedSnoc<T>(rows: seq<T>, row: T, f: T -> string)
    ensures Mapped(rows + [row], f) == Mapped(rows, f) + [f(row)]
  {
    if rows == [] {
      assert rows + [row] == [row];
      assert [row][1..] == [];
    } else {
      MappedSnoc(rows[1..], row, f);
      assert (rows + [row])[1..] == rows[1..] + [row];
    }
  }

  /** The line of a row, as a function of the row. */
  function LineOf(formatDate: int -> string, toFixed1: real -> string): Received -> string {
    row => CsvLine(row, formatDate, toFixed1)
  }

  /** The data lines of `rows`, one per row, in data order. */
  function CsvLines(rows: seq<Received>, formatDate: int -> string, toFixed1: real -> string): seq<string> {
    Mapped(rows, LineOf(formatDate, toFixed1))
  }

  /** There is one data line per row, and line i is the line of row i. */
  lemma CsvLinesInOrder(rows: seq<Received>, formatDate: int -> string, toFixed1: real -> string)
    ensures |CsvLines(rows, formatDate, toFixed1)| == |rows|
    ensures forall i :: 0 <= i < |rows| ==> CsvLines(rows, formatDate, toFixed1)[i] == CsvLine(rows[i], formatDate, toFixed1)
  {
    MappedLength(rows, LineOf(formatDate, toFixed1));
    forall i | 0 <= i < |rows|
      ensures CsvLines(rows, formatDate, toFixed1)[i] == CsvLine(rows[i], formatDate, toFixed1)
    {
      MappedAt(rows, LineOf(formatDate, toFixed1), i);
    }
  }

  /** The lines, each followed by a newline. */
  function Terminated(lines: seq<string>): string {
    if lines == [] then "" else lines[0] + [Newline] + Terminated(lines[1..])
  }

  /** The whole file: the header line, a newline, then each data line and a newline. */
  function CsvText(rows: seq<Received>, formatDate: int -> string, toFixed1: real -> string): string {
    HeaderLine() + [Newline] + Terminated(CsvLines(rows, formatDate, toFixed1))
  }

  /** Appending a line at the end appends it, and its newline, to the text. */
  lemma {:induction false} TerminatedSnoc(lines: seq<string>, line: string)
    ensures Terminated(lines + [line]) == Terminated(lines) + line + [Newline]
  {
    if lines == [] {
      assert lines + [line] == [line];
      assert [line][1..] == [];
    } else {
      TerminatedSnoc(lines[1..], line);
      assert (lines + [line])[1..] == lines[1..] + [line];
    }
  }

  /** The text of the first i + 1 rows is that of the first i rows, then row i's line and a newline. */
  lemma NextRow(data: seq<Received>, i: nat, formatDate: int -> string, toFixed1: real -> string)
    requires i < |data|
    ensures Terminated(CsvLines(data[..i + 1], formatDate, toFixed1)) ==
            Terminated(CsvLines(data[..i], formatDate, toFixed1)) + CsvLine(data[i], formatDate, toFixed1) + [Newline]
  {
    assert data[..i + 1] == data[..i] + [data[i]];
    MappedSnoc(data[..i], data[i], LineOf(formatDate, toFixed1));
    TerminatedSnoc(CsvLines(data[..i], formatDate, toFixed1), CsvLine(data[i], formatDate, toFixed1));
  }

  /** One step of the forEach: the line of row i and a newline. */
  method AppendLine(csv: string, acc: string, data: seq<Received>, i: nat, formatDate: int -> string, toFixed1: real -> string)
    returns (next: string)
    requires i < |data|
    requires acc == csv + Terminated(CsvLines(data[..i], formatDate, toFixed1))
    ensures next == csv + Terminated(CsvLines(data[..i + 1], formatDate, toFixed1))
  {
    NextRow(data, i, formatDate, toFixed1);
    next := acc + CsvLine(data[i], formatDate, toFixed1) + [Newline];
  }

  /** What exportToCSV ends with: a warning, an exception, or the file. */
  datatype Export =
    | NoData            // 'Tidak ada data untuk diexport'
    | Aborted           // join threw on a row's sensor_id; nothing is downloaded
    | Csv(text: string)

  /**
   * exportToCSV: only a warning when there is no data; an exception when some
   * row's sensor_id cannot be printed; otherwise the header line and a newline,
   * then the rows' lines appended by AppendRows.
   */
  method ExportToCsv(data: seq<Received>, formatDate: int -> string, toFixed1: real -> string)
    returns (r: Export)
    ensures r.NoData? <==> data == []
    ensures r.Aborted? <==> data != [] && exists i :: 0 <= i < |data| && !Printable(data[i])
    ensures r.Csv? ==> r.text == CsvText(data, formatDate, toFixed1)
  {
    if |data| == 0 {
      return NoData;
    }
    var text := AppendRows(HeaderLine() + [Newline], data, formatDate, toFixed1);
    r := if text.None? then Aborted else Csv(text.value);
  }

  /**
   * The `forEach` of exportToCSV: `csv += values.join(delimiter) + '\n'` for each
   * row in order; None when join throws on a row, which ends the export.
   */
  method AppendRows(csv: string, data: seq<Received>, formatDate: int -> string, toFixed1: real -> string)
    returns (text: Option<string>)
    ensures text.None? <==> exists i :: 0 <= i < |data| && !Printable(data[i])
    ensures text.Some? ==> text.value == csv + Terminated(CsvLines(data, formatDate, toFixed1))
  {
    var acc := csv;
    var i := 0;
    assert data[..0] == [];
    while i < |data|
      invariant 0 <= i <= |data|
      invariant forall k :: 0 <= k < i ==> Printable(data[k])
      invariant acc == csv + Terminated(CsvLines(data[..i], formatDate, toFixed1))
    {
      if !Printable(data[i]) {
        return None;
      }
      acc := AppendLine(csv, acc, data, i, formatDate, toFixed1);
      i := i + 1;
    }
    assert data[..i] == data;
    text := Some(acc);
  }

  /** No cell of `row` contains `c`. */
  ghost predicate RowAvoids(row: Received, formatDate: int -> string, toFixed1: real -> string, c: char) {
    forall k :: 0 <= k < ColumnCount ==> c !in CsvValues(row, formatDate, toFixed1)[k]
  }

  /** When no cell holds a ';', splitting a data line at ';' gives back its twelve cells. */
  lemma CsvLineFields(row: Received, formatDate: int -> string, toFixed1: real -> string)
    requires RowAvoids(row, formatDate, toFixed1, Delimiter)
    ensures Split(CsvLine(row, formatDate, toFixed1), Delimiter) == CsvValues(row, formatDate, toFixed1)
  {
    SplitJoin(CsvValues(row, formatDate, toFixed1), Delimiter);
  }

  /** A character other than ';' that no cell holds is not in the line either. */
  lemma CsvLineAvoids(row: Received, formatDate: int -> string, toFixed1: real -> string, c: char)
    requires c != Delimiter && RowAvoids(row, formatDate, toFixed1, c)
    ensures c !in CsvLine(row, formatDate, toFixed1)
  {
    JoinAvoids(CsvValues(row, formatDate, toFixed1), Delimiter, c);
  }

  /** No header holds the delimiter or a newline. */
  lemma HeaderCells()
    ensures forall k :: 0 <= k < |Headers()| ==> Delimiter !in Headers()[k] && Newline !in Headers()[k]
  {
  }

  /** The header line splits back into the twelve headers, and holds no newline. */
  lemma HeaderFields()
    ensures Split(HeaderLine(), Delimiter) == Headers()
    ensures Newline !in HeaderLine()
  {
    HeaderCells();
    SplitJoin(Headers(), Delimiter);
    JoinAvoids(Headers(), Delimiter, Newline);
  }

  /** Splitting newline-free lines, each terminated, at newlines gives the lines and a final "". */
  lemma {:induction false} TerminatedSplit(lines: seq<string>)
    requires forall i :: 0 <= i < |lines| ==> Newline !in lines[i]
    ensures Split(Terminated(lines), Newline) == lines + [""]
  {
    if lines == [] {
      SplitAtFirst("", "", Newline);
    } else {
      TerminatedSplit(lines[1..]);
      SplitAtFirst(lines[0], Terminated(lines[1..]), Newline);
      assert [lines[0]] + lines[1..] == lines;
    }
  }

  /** Data lines avoid a character other than ';' that no cell of their rows holds. */
  lemma CsvLinesAvoid(rows: seq<Received>, formatDate: int -> string, toFixed1: real -> string, c: char)
    requires c != Delimiter
    requires forall i :: 0 <= i < |rows| ==> RowAvoids(rows[i], formatDate, toFixed1, c)
    ensures var lines := CsvLines(rows, formatDate, toFixed1);
            |lines| == |rows| && forall i :: 0 <= i < |lines| ==> c !in lines[i]
  {
    var lines := CsvLines(rows, formatDate, toFixed1);
    MappedLength(rows, LineOf(formatDate, toFixed1));
    forall i | 0 <= i < |lines| ensures c !in lines[i] {
      MappedAt(rows, LineOf(formatDate, toFixed1), i);
      CsvLineAvoids(rows[i], formatDate, toFixed1, c);
    }
  }

  /**
   * The exported file, split at newlines, is the header line, one line per row in
   * data order, and the empty piece after the final newline.
   */
  lemma {:induction false} CsvLayout(rows: seq<Received>, formatDate: int -> string, toFixed1: real -> string)
    requires forall i :: 0 <= i < |rows| ==> RowAvoids(rows[i], formatDate, toFixed1, Newline)
    ensures Split(CsvText(rows, formatDate, toFixed1), Newline) ==
            [HeaderLine()] + CsvLines(rows, formatDate, toFixed1) + [""]
  {
    var lines := CsvLines(rows, formatDate, toFixed1);
    CsvLinesAvoid(rows, formatDate, toFixed1, Newline);
    HeaderFields();
    TerminatedSplit(lines);
    SplitAtFirst(HeaderLine(), Terminated(lines), Newline);
  }
}
