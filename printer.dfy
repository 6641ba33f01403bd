/** The table and summary printers (app/utils/printer.py). What a printer
    writes is returned as its lines; colour markup of `rich` is dropped, and
    the grey escape codes of the column headers and keys are kept. */
module Printer {
  import opened Common
  import opened Text
  import opened Schemas
  import opened ScanService

  /** The terminal codes around grey text. */
  const Dim: string := "\U{001B}[2m"
  const Reset: string := "\U{001B}[0m"

  function Max(a: nat, b: nat): nat {
    if a < b then b else a
  }

  // ----- column_table -----

  /** Every row has one cell per header (a longer row, or a shorter one,
      raises `IndexError`). */
  predicate Rectangular(headers: seq<string>, rows: seq<seq<string>>) {
    forall r :: 0 <= r < |rows| ==> |rows[r]| == |headers|
  }

  /** The width of column `i`: the longest of its upper-cased header and its
      cells. */
  function ColumnWidth(headers: seq<string>, rows: seq<seq<string>>, i: nat): (w: nat)
    requires i < |headers| && Rectangular(headers, rows)
    ensures |headers[i]| <= w && forall r :: 0 <= r < |rows| ==> |rows[r][i]| <= w
    ensures w == |headers[i]| || exists r :: 0 <= r < |rows| && w == |rows[r][i]|
  {
    if rows == [] then |Upper(headers[i])|
    else
      var init := rows[..|rows| - 1];
      assert forall r :: 0 <= r < |init| ==> init[r] == rows[r];
      Max(ColumnWidth(headers, init, i), |rows[|rows| - 1][i]|)
  }

  function Widths(headers: seq<string>, rows: seq<seq<string>>): (ws: seq<nat>)
    requires Rectangular(headers, rows)
    ensures |ws| == |headers|
  {
    seq(|headers|, i requires 0 <= i < |headers| => ColumnWidth(headers, rows, i))
  }

  /** The cells, each left-aligned to its column's width. */
  function Padded(ws: seq<nat>, cells: seq<string>): (parts: seq<string>)
    requires |cells| == |ws|
    ensures |parts| == |ws| && forall i :: 0 <= i < |ws| ==> parts[i] == LeftAlign(cells[i], ws[i])
  {
    seq(|ws|, i requires 0 <= i < |ws| => LeftAlign(cells[i], ws[i]))
  }

  /** `row_format.format(*cells)`: the padded cells joined by two spaces. */
  function FormatRow(ws: seq<nat>, cells: seq<string>): string
    requires |cells| == |ws|
  {
    Join(Padded(ws, cells), "  ")
  }

  function UpperAll(headers: seq<string>): (u: seq<string>)
    ensures |u| == |headers| && forall i :: 0 <= i < |headers| ==> u[i] == Upper(headers[i])
  {
    seq(|headers|, i requires 0 <= i < |headers| => Upper(headers[i]))
  }

  /** The lines `column_table` prints: the grey header line, then one line
      per row. */
  function TableLines(headers: seq<string>, rows: seq<seq<string>>): (lines: seq<string>)
    requires Rectangular(headers, rows)
    ensures |lines| == |rows| + 1
    ensures lines[0] == HeaderLine(Widths(headers, rows), headers)
    ensures forall r :: 0 <= r < |rows| ==> lines[r + 1] == FormatRow(Widths(headers, rows), rows[r])
  {
    var ws := Widths(headers, rows);
    [HeaderLine(ws, headers)] + RowLines(ws, rows)
  }

  /** One formatted line per row. */
  function RowLines(ws: seq<nat>, rows: seq<seq<string>>): (lines: seq<string>)
    requires forall r :: 0 <= r < |rows| ==> |rows[r]| == |ws|
    ensures |lines| == |rows| && forall r :: 0 <= r < |rows| ==> lines[r] == FormatRow(ws, rows[r])
  {
    seq(|rows|, r requires 0 <= r < |rows| => FormatRow(ws, rows[r]))
  }

  /** The grey header line: the upper-cased headers in their columns. */
  function HeaderLine(ws: seq<nat>, headers: seq<string>): string
    requires |headers| == |ws|
  {
    Dim + FormatRow(ws, UpperAll(headers)) + Reset
  }

  /** `column_table` */
  method ColumnTable(headers: seq<string>, rows: seq<seq<string>>) returns (lines: seq<string>)
    requires Rectangular(headers, rows)
    ensures lines == TableLines(headers, rows)
  {
    var upper := UpperAll(headers);
    var widths := MeasureColumns(headers, upper, rows);
    var header := Dim + FormatRow(widths, upper) + Reset;
    var body: seq<string> := [];
    for r := 0 to |rows|
      invariant |body| == r && forall j :: 0 <= j < r ==> body[j] == FormatRow(widths, rows[j])
    {
      body := body + [FormatRow(widths, rows[r])];
    }
    assert body == RowLines(widths, rows);
    lines := [header] + body;
  }

  /** The width pass of `column_table`: each column as wide as its
      upper-cased header, then widened to its longest cell, row by row. */
  method MeasureColumns(headers: seq<string>, upper: seq<string>, rows: seq<seq<string>>) returns (widths: seq<nat>)
    requires Rectangular(headers, rows) && upper == UpperAll(headers)
    ensures widths == Widths(headers, rows)
  {
    widths := seq(|upper|, i requires 0 <= i < |upper| => |upper[i]|);
    for r := 0 to |rows|
      invariant |widths| == |headers|
      invariant forall c :: 0 <= c < |headers| ==> widths[c] == ColumnWidth(headers, rows[..r], c)
    {
      assert rows[..r + 1][..r] == rows[..r];
      for i := 0 to |rows[r]|
        invariant |widths| == |headers|
        invariant forall c :: 0 <= c < i ==> widths[c] == ColumnWidth(headers, rows[..r + 1], c)
        invariant forall c :: i <= c < |headers| ==> widths[c] == ColumnWidth(headers, rows[..r], c)
      {
        widths := widths[i := Max(widths[i], |rows[r][i]|)];
      }
    }
    assert rows[..|rows|] == rows;
  }

  /** Where column `i` starts in a formatted line: after the earlier
      columns' widths and two spaces for each. */
  function Offset(ws: seq<nat>, i: nat): nat
    requires i <= |ws|
  {
    if i == 0 then 0 else Offset(ws, i - 1) + ws[i - 1] + 2
  }

  lemma {:induction false} PaddedOffset(ws: seq<nat>, cells: seq<string>, i: nat)
    requires |cells| == |ws| && i <= |ws|
    requires forall k :: 0 <= k < |ws| ==> |cells[k]| <= ws[k]
    ensures TotalLength(Padded(ws, cells)[..i]) + i * 2 == Offset(ws, i)
  {
    var parts := Padded(ws, cells);
    if i > 0 {
      PaddedOffset(ws, cells, i - 1);
      TotalLengthSnoc(parts[..i - 1], parts[i - 1]);
      assert parts[..i] == parts[..i - 1] + [parts[i - 1]];
    }
  }

  lemma {:induction false} TotalLengthSnoc(parts: seq<string>, last: string)
    ensures TotalLength(parts + [last]) == TotalLength(parts) + |last|
  {
    if parts != [] {
      TotalLengthSnoc(parts[1..], last);
      assert (parts + [last])[1..] == parts[1..] + [last];
    } else {
      assert [last][1..] == [];
    }
  }

  /** Every cell that fits its column starts at that column's offset, in
      every line alike: the columns line up. */
  lemma FormatRowAligned(ws: seq<nat>, cells: seq<string>, i: nat)
    requires |cells| == |ws| && i < |ws|
    requires forall k :: 0 <= k < |cells| ==> |cells[k]| <= ws[k]
    ensures Offset(ws, i) + ws[i] <= |FormatRow(ws, cells)|
    ensures Offset(ws, i) + |cells[i]| <= |FormatRow(ws, cells)|
    ensures FormatRow(ws, cells)[Offset(ws, i)..Offset(ws, i) + |cells[i]|] == cells[i]
    ensures forall k :: Offset(ws, i) + |cells[i]| <= k < Offset(ws, i) + ws[i] ==> FormatRow(ws, cells)[k] == ' '
  {
    var parts := Padded(ws, cells);
    JoinPart(parts, "  ", i);
    PaddedOffset(ws, cells, i);
    var row := FormatRow(ws, cells);
    var off := Offset(ws, i);
    assert row[off..off + |parts[i]|] == LeftAlign(cells[i], ws[i]);
    Within(row, off, parts[i], |cells[i]|);
  }

  /** A part found at `off` in `s`: its prefix too, and its characters one
      by one. */
  lemma Within(s: string, off: nat, part: string, n: nat)
    requires off + |part| <= |s| && s[off..off + |part|] == part && n <= |part|
    ensures s[off..off + n] == part[..n]
    ensures forall k :: off <= k < off + |part| ==> s[k] == part[k - off]
  {
    forall k | off <= k < off + |part|
      ensures s[k] == part[k - off]
    {
      assert s[off..off + |part|][k - off] == s[k];
    }
  }

  /** A header line whose upper-cased headers fit their columns shows
      header `i` at its column's offset, after the grey code. */
  lemma HeaderLineAligned(ws: seq<nat>, headers: seq<string>, i: nat)
    requires |headers| == |ws| && i < |ws|
    requires forall k :: 0 <= k < |headers| ==> |UpperAll(headers)[k]| <= ws[k]
    ensures |Dim| + Offset(ws, i) + |headers[i]| <= |HeaderLine(ws, headers)|
    ensures HeaderLine(ws, headers)[|Dim| + Offset(ws, i)..|Dim| + Offset(ws, i) + |headers[i]|] == Upper(headers[i])
  {
    var upper := UpperAll(headers);
    FormatRowCell(ws, upper, i);
    assert HeaderLine(ws, headers) == Dim + FormatRow(ws, upper) + Reset;
    Framed(Dim, FormatRow(ws, upper), Reset, Offset(ws, i), |upper[i]|);
    assert upper[i] == Upper(headers[i]) && |upper[i]| == |headers[i]|;
  }

  /** The text of cell `i` in a formatted row, without its padding. */
  lemma FormatRowCell(ws: seq<nat>, cells: seq<string>, i: nat)
    requires |cells| == |ws| && i < |ws|
    requires forall k :: 0 <= k < |cells| ==> |cells[k]| <= ws[k]
    ensures Offset(ws, i) + |cells[i]| <= |FormatRow(ws, cells)|
    ensures FormatRow(ws, cells)[Offset(ws, i)..Offset(ws, i) + |cells[i]|] == cells[i]
  {
    FormatRowAligned(ws, cells, i);
  }

  /** The widths `column_table` computes fit every header and every cell. */
  lemma HeadersFit(headers: seq<string>, rows: seq<seq<string>>)
    requires Rectangular(headers, rows)
    ensures forall k :: 0 <= k < |headers| ==> |UpperAll(headers)[k]| <= Widths(headers, rows)[k]
  {
    var ws := Widths(headers, rows);
    forall k | 0 <= k < |headers|
      ensures |UpperAll(headers)[k]| <= ws[k]
    {
      assert ws[k] == ColumnWidth(headers, rows, k);
    }
  }

  lemma CellsFit(headers: seq<string>, rows: seq<seq<string>>, r: nat)
    requires Rectangular(headers, rows) && r < |rows|
    ensures forall k :: 0 <= k < |rows[r]| ==> |rows[r][k]| <= Widths(headers, rows)[k]
  {
    var ws := Widths(headers, rows);
    forall k | 0 <= k < |headers|
      ensures |rows[r][k]| <= ws[k]
    {
      assert ws[k] == ColumnWidth(headers, rows, k);
    }
  }

  /** `column_table` lines up its columns: in the header line (after the
      grey code) and in every row line, column `i`'s text starts at the same
      offset. `HeaderAligned` states it for the header line; for a row line it
      is `FormatRowAligned` with the widths of `CellsFit`. */
  lemma HeaderAligned(headers: seq<string>, rows: seq<seq<string>>, i: nat)
    requires Rectangular(headers, rows) && i < |headers|
    ensures |Dim| + Offset(Widths(headers, rows), i) + |headers[i]| <= |HeaderLine(Widths(headers, rows), headers)|
    ensures HeaderLine(Widths(headers, rows), headers)[|Dim| + Offset(Widths(headers, rows), i)..|Dim| + Offset(Widths(headers, rows), i) + |headers[i]|]
      == Upper(headers[i])
  {
    HeadersFit(headers, rows);
    HeaderLineAligned(Widths(headers, rows), headers, i);
  }

  /** A slice of the middle part of a concatenation. */
  lemma Framed(a: string, b: string, c: string, off: nat, n: nat)
    requires off + n <= |b|
    ensures (a + b + c)[|a| + off..|a| + off + n] == b[off..off + n]
  {
    assert (a + b + c)[|a|..|a| + |b|] == b;
  }

  // ----- value rendering -----

  /** A field value as the printers see it: a list, None, or any other value
      given as its `str` text. */
  datatype Cell = Items(items: seq<string>) | Null | Scalar(text: string)

  /** `", ".join(map(str, value))` for a list, "-" for None, `str(value)`
      otherwise. An empty list renders as the empty text. */
  function CellText(c: Cell): (t: string)
    ensures c.Null? ==> t == "-"
    ensures c.Items? && |c.items| == 1 ==> t == c.items[0]
  {
    match c
    case Items(items) => Join(items, ", ")
    case Null => "-"
    case Scalar(text) => text
  }

  // ----- print_model_table -----

  /** `print_model_table`: "(No data)" for no objects; otherwise a column
      table headed by the upper-cased field names, one row per object. */
  method PrintModelTable(fields: seq<string>, objects: seq<seq<Cell>>) returns (lines: seq<string>)
    requires forall o :: 0 <= o < |objects| ==> |objects[o]| == |fields|
    ensures objects == [] ==> lines == ["(No data)"]
    ensures objects != [] ==> lines == TableLines(UpperAll(fields), ModelRows(objects))
  {
    if objects == [] {
      return ["(No data)"];
    }
    var headers := UpperAll(fields);
    var rows: seq<seq<string>> := [];
    for o := 0 to |objects|
      invariant rows == ModelRows(objects[..o])
    {
      var row: seq<string> := [];
      for f := 0 to |objects[o]|
        invariant row == RowText(objects[o][..f])
      {
        var value := objects[o][f];
        if value.Items? {
          row := row + [Join(value.items, ", ")];
        } else if value.Null? {
          row := row + ["-"];
        } else {
          row := row + [value.text];
        }
        assert objects[o][..f + 1] == objects[o][..f] + [value];
      }
      assert objects[o][..|objects[o]|] == objects[o];
      rows := rows + [row];
      assert objects[..o + 1] == objects[..o] + [objects[o]];
    }
    assert objects[..|objects|] == objects;
    lines := ColumnTable(headers, rows);
  }

  function RowText(values: seq<Cell>): (row: seq<string>)
    ensures |row| == |values| && forall f :: 0 <= f < |values| ==> row[f] == CellText(values[f])
  {
    seq(|values|, f requires 0 <= f < |values| => CellText(values[f]))
  }

  function ModelRows(objects: seq<seq<Cell>>): (rows: seq<seq<string>>)
    ensures |rows| == |objects| && forall o :: 0 <= o < |objects| ==> rows[o] == RowText(objects[o])
  {
    if objects == [] then [] else ModelRows(objects[..|objects| - 1]) + [RowText(objects[|objects| - 1])]
  }

  lemma UpperIdempotent(s: string)
    ensures Upper(Upper(s)) == Upper(s)
  {
  }

  /** `print_model_table` upper-cases the field names and `column_table`
      upper-cases them again; the header line is the same as with the
      names upper-cased once. */
  lemma ModelTableHeaders(fields: seq<string>, ws: seq<nat>)
    requires |ws| == |fields|
    ensures HeaderLine(ws, UpperAll(fields)) == HeaderLine(ws, fields)
  {
    var once := UpperAll(fields);
    var twice := UpperAll(once);
    forall k | 0 <= k < |fields|
      ensures twice[k] == once[k]
    {
      UpperIdempotent(fields[k]);
    }
    assert twice == once;
  }

  // ----- key_value_table -----

  /** `max(len(key) for key in keys)`. */
  function LongestKey(keys: seq<string>): (n: nat)
    requires keys != []
    ensures forall k :: 0 <= k < |keys| ==> |keys[k]| <= n
    ensures exists k :: 0 <= k < |keys| && n == |keys[k]|
  {
    if |keys| == 1 then |keys[0]|
    else
      var m := LongestKey(keys[..|keys| - 1]);
      assert forall k :: 0 <= k < |keys| - 1 ==> keys[..|keys| - 1][k] == keys[k];
      Max(m, |keys[|keys| - 1]|)
  }

  function Keys(data: seq<(string, Cell)>): (keys: seq<string>)
    ensures |keys| == |data| && forall k :: 0 <= k < |data| ==> keys[k] == data[k].0
  {
    seq(|data|, k requires 0 <= k < |data| => data[k].0)
  }

  /** One line: the indent, the grey key, padding to two past the longest
      key, ": ", the value. */
  function KeyValueLine(indent: int, longest: nat, key: string, value: Cell): string {
    Spaces(indent) + Dim + key + Reset + Spaces(longest - |key| + 2) + ": " + CellText(value)
  }

  /** The lines `key_value_table` prints; None for no data, where `max` of
      nothing raises `ValueError`. */
  function KeyValueLines(data: seq<(string, Cell)>, indent: int): (r: Option<seq<string>>)
    ensures r.None? <==> data == []
    ensures r.Some? ==> |r.value| == |data|
  {
    if data == [] then None
    else
      var longest := LongestKey(Keys(data));
      Some(seq(|data|, k requires 0 <= k < |data| => KeyValueLine(indent, longest, data[k].0, data[k].1)))
  }

  /** `key_value_table` */
  method KeyValueTable(data: seq<(string, Cell)>, indent: int) returns (r: Option<seq<string>>)
    ensures r == KeyValueLines(data, indent)
  {
    if data == [] {
      return None;
    }
    var longest := LongestKey(Keys(data));
    var padding := Spaces(indent);
    var lines: seq<string> := [];
    for k := 0 to |data|
      invariant |lines| == k
      invariant forall j :: 0 <= j < k ==> lines[j] == KeyValueLine(indent, longest, data[j].0, data[j].1)
    {
      var (key, value) := data[k];
      var text := if value.Items? then Join(value.items, ", ") else if value.Null? then "-" else value.text;
      var spaces := Spaces(longest - |key| + 2);
      lines := lines + [padding + Dim + key + Reset + spaces + ": " + text];
    }
    assert lines == KeyValueLines(data, indent).value;
    r := Some(lines);
  }

  /** The column of every line's colon. */
  function ColonColumn(indent: int, longest: nat): nat {
    (if indent < 0 then 0 else indent) + |Dim| + longest + |Reset| + 2
  }

  /** One line has its key right after the indent and the grey code, and
      ": " at the colon column of its longest key. */
  lemma KeyValueLineShape(indent: int, longest: nat, key: string, value: Cell)
    requires |key| <= longest
    ensures var line := KeyValueLine(indent, longest, key, value);
      var start := (if indent < 0 then 0 else indent) + |Dim|;
      var colon := ColonColumn(indent, longest);
      && start + |key| <= |line| && line[start..start + |key|] == key
      && colon + 2 <= |line| && line[colon..colon + 2] == ": "
  {
    var line := KeyValueLine(indent, longest, key, value);
    var start := (if indent < 0 then 0 else indent) + |Dim|;
    var colon := ColonColumn(indent, longest);
    forall j | 0 <= j < |key|
      ensures line[start + j] == key[j]
    {
    }
    assert line[start..start + |key|] == key;
    assert line[colon] == ':' && line[colon + 1] == ' ';
    assert line[colon..colon + 2] == ": ";
  }

  /** The colons line up: every line has its key right after the indent and
      the grey code, and ": " at the same column. */
  lemma KeyValueAligned(data: seq<(string, Cell)>, indent: int, k: nat)
    requires data != [] && k < |data|
    ensures var line := KeyValueLines(data, indent).value[k];
      var start := (if indent < 0 then 0 else indent) + |Dim|;
      var colon := ColonColumn(indent, LongestKey(Keys(data)));
      && start + |data[k].0| <= |line| && line[start..start + |data[k].0|] == data[k].0
      && colon + 2 <= |line| && line[colon..colon + 2] == ": "
  {
    var longest := LongestKey(Keys(data));
    assert Keys(data)[k] == data[k].0;
    assert KeyValueLines(data, indent).value[k] == KeyValueLine(indent, longest, data[k].0, data[k].1);
    KeyValueLineShape(indent, longest, data[k].0, data[k].1);
  }

  // ----- scan_summary_table -----

  function Skipped(ref: RefusedCounts): int {
    ref.alreadyInScanledger + ref.alreadyInQueue
  }

  function Rejected(ref: RefusedCounts): int {
    ref.forbidden + ref.privateIp + ref.unresolvable + ref.other
  }

  function Count(n: int): Cell {
    Scalar(IntToString(n))
  }

  function SummaryData(s: ScanStartSummary): seq<(string, Cell)> {
    [("Targets provided", Count(s.provided)),
     ("Duplicates removed", Count(s.duplicatesRemoved)),
     ("Skipped (already known)", Count(Skipped(s.refused))),
     ("Rejected", Count(Rejected(s.refused))),
     ("Accepted and sent", Count(s.sentToScan))]
  }

  function SkipData(ref: RefusedCounts): seq<(string, Cell)> {
    [("In ScanLedger", Count(ref.alreadyInScanledger)),
     ("Already in queue", Count(ref.alreadyInQueue))]
  }

  function RejectData(ref: RefusedCounts): seq<(string, Cell)> {
    [("Private IP", Count(ref.privateIp)),
     ("Unresolvable", Count(ref.unresolvable)),
     ("Forbidden", Count(ref.forbidden)),
     ("Other", Count(ref.other))]
  }

  /** A reasons breakdown: its heading and lines when its total is not
      zero, nothing otherwise. */
  function Breakdown(total: int, heading: string, data: seq<(string, Cell)>): seq<string>
    requires data != []
  {
    if total != 0 then [heading] + KeyValueLines(data, 4).value else []
  }

  /** The lines of `scan_summary_table`. */
  function SummaryLines(s: ScanStartSummary): seq<string> {
    ["Scan Summary"] + KeyValueLines(SummaryData(s), 2).value
    + Breakdown(Skipped(s.refused), "  Skipped reasons:", SkipData(s.refused))
    + Breakdown(Rejected(s.refused), "  Rejected reasons:", RejectData(s.refused))
  }

  /** `scan_summary_table` */
  method ScanSummaryTable(s: ScanStartSummary) returns (lines: seq<string>)
    ensures lines == SummaryLines(s)
  {
    var ref := s.refused;
    var table := KeyValueTable(SummaryData(s), 2);
    var skipped: seq<string> := [];
    if Skipped(ref) != 0 {
      var skip := KeyValueTable(SkipData(ref), 4);
      skipped := ["  Skipped reasons:"] + skip.value;
    }
    var rejected: seq<string> := [];
    if Rejected(ref) != 0 {
      var reject := KeyValueTable(RejectData(ref), 4);
      rejected := ["  Rejected reasons:"] + reject.value;
    }
    assert skipped == Breakdown(Skipped(ref), "  Skipped reasons:", SkipData(ref));
    assert rejected == Breakdown(Rejected(ref), "  Rejected reasons:", RejectData(ref));
    lines := ["Scan Summary"] + table.value + skipped + rejected;
  }

  /** Each breakdown adds its heading and one line per reason, and only
      when its total is not zero. */
  lemma SummaryLineCount(s: ScanStartSummary)
    ensures |SummaryLines(s)| == 6 + (if Skipped(s.refused) != 0 then 3 else 0) + (if Rejected(s.refused) != 0 then 5 else 0)
  {
  }

  /** For counts that are never negative, a breakdown is left out exactly
      when every count in it is zero. */
  lemma SummaryBreakdownsOmitted(ref: RefusedCounts)
    requires ref.alreadyInScanledger >= 0 && ref.alreadyInQueue >= 0
    requires ref.forbidden >= 0 && ref.privateIp >= 0 && ref.unresolvable >= 0 && ref.other >= 0
    ensures Skipped(ref) == 0 <==> ref.alreadyInScanledger == 0 && ref.alreadyInQueue == 0
    ensures Rejected(ref) == 0 <==> ref.forbidden == 0 && ref.privateIp == 0 && ref.unresolvable == 0 && ref.other == 0
  {
  }

  /** A shown count reads back as the number. */
  lemma CountReads(n: int)
    ensures ParseInt(Count(n).text) == Some(n)
  {
    ParseIntToString(n);
  }

  /** The shown totals read back as the sums of their reasons:
      `SkippedTotalReads` for the skipped targets, `RejectedTotalReads` for
      the rejected ones. */
  lemma SkippedTotalReads(s: ScanStartSummary)
    ensures var shown := SummaryData(s)[2].1;
      shown.Scalar? && ParseInt(shown.text) == Some(Skipped(s.refused))
  {
    var n := Skipped(s.refused);
    CountReads(n);
    assert SummaryData(s)[2].1 == Count(n);
  }

  lemma RejectedTotalReads(s: ScanStartSummary)
    ensures var shown := SummaryData(s)[3].1;
      shown.Scalar? && ParseInt(shown.text) == Some(Rejected(s.refused))
  {
    var n := Rejected(s.refused);
    CountReads(n);
    assert SummaryData(s)[3].1 == Count(n);
  }

  // ----- task_summary_table -----

  function TaskData(t: ProjectTaskSummary): seq<(string, Cell)> {
    [("Tasks total", Count(t.activeOrQueued)),
     ("Tasks running", Count(t.running)),
     ("Tasks queued", Count(t.activeOrQueued - t.running))]
  }

  const TargetHeaders: seq<string> := ["IP", "HOSTNAMES", "WORKER", "STARTED_AT (UTC)", "ELAPSED"]

  /** The rows of the running targets; `times` holds each target's start
      time and elapsed time as text. */
  function TargetRows(targets: seq<RunningTarget>, times: seq<(string, string)>): (rows: seq<seq<string>>)
    requires |times| == |targets|
    ensures |rows| == |targets| && Rectangular(TargetHeaders, rows)
  {
    seq(|targets|, k requires 0 <= k < |targets| =>
      [targets[k].ip, Join(targets[k].hostnames, ", "), targets[k].worker, times[k].0, times[k].1])
  }

  /** The lines of `task_summary_table`. */
  function TaskLines(t: ProjectTaskSummary, times: seq<(string, string)>): seq<string>
    requires |times| == |t.runningTargets|
  {
    ["Scan Status Summary"] + KeyValueLines(TaskData(t), 2).value + RunningPart(t.runningTargets, times)
  }

  /** The running targets' table, or a note that there are none. */
  function RunningPart(targets: seq<RunningTarget>, times: seq<(string, string)>): seq<string>
    requires |times| == |targets|
  {
    if targets != [] then ["", "Running Targets:"] + TableLines(TargetHeaders, TargetRows(targets, times))
    else ["  No running targets."]
  }

  /** `task_summary_table`: the counts, then the running targets' table or
      a note that there are none. The clock readings are `times`. */
  method TaskSummaryTable(t: ProjectTaskSummary, times: seq<(string, string)>) returns (lines: seq<string>)
    requires |times| == |t.runningTargets|
    ensures lines == TaskLines(t, times)
  {
    var table := KeyValueTable(TaskData(t), 2);
    var running: seq<string>;
    if t.runningTargets != [] {
      var rows: seq<seq<string>> := [];
      for k := 0 to |t.runningTargets|
        invariant rows == TargetRows(t.runningTargets, times)[..k]
      {
        var target := t.runningTargets[k];
        rows := rows + [[target.ip, Join(target.hostnames, ", "), target.worker, times[k].0, times[k].1]];
      }
      assert rows == TargetRows(t.runningTargets, times);
      var targetLines := ColumnTable(TargetHeaders, rows);
      running := ["", "Running Targets:"] + targetLines;
    } else {
      running := ["  No running targets."];
    }
    assert running == RunningPart(t.runningTargets, times);
    lines := ["Scan Status Summary"] + table.value + running;
  }

  /** The shown queue length and running count add up to the shown total. */
  lemma TaskCountsAddUp(t: ProjectTaskSummary)
    ensures var d := TaskData(t);
      d[1].1.Scalar? && d[2].1.Scalar? &&
      ParseInt(d[1].1.text).Some? && ParseInt(d[2].1.text).Some? &&
      ParseInt(d[1].1.text).value + ParseInt(d[2].1.text).value == t.activeOrQueued
  {
    CountReads(t.running);
    CountReads(t.activeOrQueued - t.running);
  }

  // ----- scan_start_header -----

  /** The `value` of an import mode. */
  function ModeText(m: ImportMode): string {
    match m
    case Insert => "insert"
    case Replace => "replace"
    case Update => "update"
    case Append => "append"
  }

  function ServicesText(r: RunNmapRequest): string {
    if r.includeServices then Join(ServiceArgs(r.serviceOpts), " ") else "not performed"
  }

  /** The lines of `scan_start_header`; `displayPath` is the configuration
      path as shown. */
  function HeaderLines(r: RunNmapRequest, displayPath: string): seq<string> {
    ["", "Scan Settings"]
    + KeyValueLines([("Import mode", Scalar(ModeText(r.mode))),
                     ("Nmap (open ports)", Scalar(Join(OpenPortsArgs(r.openPortsOpts), " "))),
                     ("Nmap (services)", Scalar(ServicesText(r))),
                     ("Scan config", Scalar(displayPath))], 2).value
    + [""]
  }

  /** `scan_start_header` */
  method ScanStartHeader(r: RunNmapRequest, displayPath: string) returns (lines: seq<string>)
    ensures lines == HeaderLines(r, displayPath)
  {
    var openPortsArgs := ToNmapArgs(r.openPortsOpts);
    var serviceFlags := "not performed";
    if r.includeServices {
      var serviceArgs := ServiceToNmapArgs(r.serviceOpts);
      serviceFlags := Join(serviceArgs, " ");
    }
    var data := [("Import mode", Scalar(ModeText(r.mode))),
                 ("Nmap (open ports)", Scalar(Join(openPortsArgs, " "))),
                 ("Nmap (services)", Scalar(serviceFlags)),
                 ("Scan config", Scalar(displayPath))];
    var table := KeyValueTable(data, 2);
    lines := ["", "Scan Settings"] + table.value + [""];
  }

  /** The services entry reads "not performed" exactly when the service
      phase is off: the flags of the phase always end with "-sV". */
  lemma NotPerformedIff(r: RunNmapRequest)
    ensures ServicesText(r) == "not performed" <==> !r.includeServices
  {
    if r.includeServices {
      ServiceArgsShape(r.serviceOpts);
      EndsInFlag(ServiceArgs(r.serviceOpts));
    }
  }

  /** A command line whose last flag is "-sV" ends in 'V'. */
  lemma EndsInFlag(args: seq<string>)
    requires |args| >= 1 && args[|args| - 1] == "-sV"
    ensures Join(args, " ") != "not performed"
  {
    JoinSuffix(args, " ");
    var text := Join(args, " ");
    assert text[|text| - 3..] == "-sV";
    assert text[|text| - 1] == 'V';
  }
}
