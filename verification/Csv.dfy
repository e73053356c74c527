/**
 The report export (apps/web/components/admin-reports-workspace.tsx, exportReport and csvCell):
 every cell quoted, cells separated by commas, records by a line feed where section 2 of RFC 4180
 has CRLF. The reader is the quoted-field part of that section with the same separator.
 */
module Csv {
  import opened Util

  const QUOTE: char := '"'
  const COMMA: char := ','
  const NEWLINE: char := '\n'
  const BOM: string := "\U{FEFF}"

  // ------------------------------------------------------------------ printing

  /** replaceAll of one quote by two. */
  function Doubled(s: string): string {
    if s == "" then "" else (if s[0] == QUOTE then [QUOTE, QUOTE] else [s[0]]) + Doubled(s[1..])
  }

  function CsvCell(value: string): string { [QUOTE] + Doubled(value) + [QUOTE] }

  function PrintRow(row: seq<string>): string {
    if row == [] then ""
    else if |row| == 1 then CsvCell(row[0])
    else CsvCell(row[0]) + [COMMA] + PrintRow(row[1..])
  }

  function Print(rows: seq<seq<string>>): string {
    if rows == [] then ""
    else if |rows| == 1 then PrintRow(rows[0])
    else PrintRow(rows[0]) + [NEWLINE] + Print(rows[1..])
  }

  // ------------------------------------------------------------------- reading

  datatype Read<T> = Fail | Got(value: T, rest: string)

  /** The rest of a quoted field, up to its closing quote. */
  function ReadQuoted(s: string): (r: Read<string>)
    ensures r.Got? ==> |r.rest| < |s|
    decreases |s|
  {
    if s == "" then Fail
    else if s[0] != QUOTE then
      var tail := ReadQuoted(s[1..]);
      if tail.Fail? then Fail else Got([s[0]] + tail.value, tail.rest)
    else if |s| > 1 && s[1] == QUOTE then
      var tail := ReadQuoted(s[2..]);
      if tail.Fail? then Fail else Got([QUOTE] + tail.value, tail.rest)
    else Got("", s[1..])
  }

  /** One or more quoted fields separated by commas. */
  function ReadCells(s: string): (r: Read<seq<string>>)
    ensures r.Got? ==> |r.rest| < |s|
    decreases |s|
  {
    if s == "" || s[0] != QUOTE then Fail
    else
      var cell := ReadQuoted(s[1..]);
      if cell.Fail? then Fail
      else if cell.rest != "" && cell.rest[0] == COMMA then
        var more := ReadCells(cell.rest[1..]);
        if more.Fail? then Fail else Got([cell.value] + more.value, more.rest)
      else Got([cell.value], cell.rest)
  }

  /** A record: nothing at all, or fields. */
  function ReadRow(s: string): (r: Read<seq<string>>)
    ensures r.Got? ==> |r.rest| <= |s|
  {
    if s == "" || s[0] == NEWLINE then Got([], s) else ReadCells(s)
  }

  function ReadRows(s: string): Option<seq<seq<string>>>
    decreases |s|
  {
    var row := ReadRow(s);
    if row.Fail? then None
    else if row.rest == "" then Some([row.value])
    else if row.rest[0] != NEWLINE then None
    else
      var more := ReadRows(row.rest[1..]);
      if more.None? then None else Some([row.value] + more.value)
  }

  // --------------------------------------------------------- reading what was printed

  predicate NoQuoteAhead(rest: string) { rest == "" || rest[0] != QUOTE }

  lemma {:induction false} QuotedReads(value: string, rest: string)
    requires NoQuoteAhead(rest)
    ensures ReadQuoted(Doubled(value) + [QUOTE] + rest) == Got(value, rest)
  {
    var text := Doubled(value) + [QUOTE] + rest;
    if value == "" {
      assert text == [QUOTE] + rest;
      assert text[1..] == rest;
    } else {
      var tail := Doubled(value[1..]) + [QUOTE] + rest;
      QuotedReads(value[1..], rest);
      if value[0] == QUOTE {
        assert text == [QUOTE, QUOTE] + tail;
        assert text[2..] == tail;
      } else {
        assert text == [value[0]] + tail;
        assert text[1..] == tail;
      }
      assert [value[0]] + value[1..] == value;
    }
  }

  lemma CellReads(value: string, after: string)
    requires NoQuoteAhead(after)
    ensures var s := CsvCell(value) + after; s[0] == QUOTE && ReadQuoted(s[1..]) == Got(value, after)
  {
    QuotedReads(value, after);
    assert (CsvCell(value) + after)[1..] == Doubled(value) + [QUOTE] + after;
  }

  predicate RowEnds(rest: string) { rest == "" || rest[0] == NEWLINE }

  lemma LastCellReads(value: string, rest: string)
    requires RowEnds(rest)
    ensures ReadCells(CsvCell(value) + rest) == Got([value], rest)
  {
    CellReads(value, rest);
  }

  lemma NextCellReads(value: string, text: string)
    requires ReadCells(text).Got?
    ensures ReadCells(CsvCell(value) + ([COMMA] + text)) == Got([value] + ReadCells(text).value, ReadCells(text).rest)
  {
    CellReads(value, [COMMA] + text);
    assert ([COMMA] + text)[1..] == text;
  }

  lemma {:induction false} CellsRead(row: seq<string>, rest: string)
    requires row != [] && RowEnds(rest)
    ensures ReadCells(PrintRow(row) + rest) == Got(row, rest)
  {
    if |row| == 1 {
      LastCellReads(row[0], rest);
      assert [row[0]] == row;
    } else {
      var tail := PrintRow(row[1..]) + rest;
      CellsRead(row[1..], rest);
      NextCellReads(row[0], tail);
      Regrouped(CsvCell(row[0]), [COMMA], tail);
      Regrouped(CsvCell(row[0]) + [COMMA], PrintRow(row[1..]), rest);
      assert [row[0]] + row[1..] == row;
    }
  }

  lemma RowReads(row: seq<string>, rest: string)
    requires RowEnds(rest)
    ensures ReadRow(PrintRow(row) + rest) == Got(row, rest)
  {
    if row == [] {
      assert PrintRow(row) + rest == rest;
    } else {
      CellsRead(row, rest);
      assert (PrintRow(row) + rest)[0] == QUOTE;
    }
  }

  lemma LastRowReads(row: seq<string>)
    ensures ReadRows(PrintRow(row)) == Some([row])
  {
    RowReads(row, "");
    assert PrintRow(row) + "" == PrintRow(row);
  }

  lemma NextRowReads(row: seq<string>, text: string)
    requires ReadRows(text).Some?
    ensures ReadRows(PrintRow(row) + [NEWLINE] + text) == Some([row] + ReadRows(text).value)
  {
    RowReads(row, [NEWLINE] + text);
    assert PrintRow(row) + [NEWLINE] + text == PrintRow(row) + ([NEWLINE] + text);
    assert ([NEWLINE] + text)[1..] == text;
  }

  /** Whatever the cells hold, quotes, commas, line feeds or nothing, and however many rows are empty, the printed text reads back. */
  lemma {:induction false} PrintThenRead(rows: seq<seq<string>>)
    requires rows != []
    ensures ReadRows(Print(rows)) == Some(rows)
  {
    if |rows| == 1 {
      LastRowReads(rows[0]);
      assert [rows[0]] == rows;
    } else {
      PrintThenRead(rows[1..]);
      NextRowReads(rows[0], Print(rows[1..]));
      assert [rows[0]] + rows[1..] == rows;
    }
  }

  // ------------------------------------------------------- printing what was read

  lemma {:induction false} QuotedPrints(s: string)
    requires ReadQuoted(s).Got?
    ensures s == Doubled(ReadQuoted(s).value) + [QUOTE] + ReadQuoted(s).rest
    decreases |s|
  {
    var r := ReadQuoted(s);
    if s[0] != QUOTE {
      QuotedPrints(s[1..]);
      assert s == [s[0]] + s[1..];
      assert r.value[1..] == ReadQuoted(s[1..]).value;
    } else if |s| > 1 && s[1] == QUOTE {
      QuotedPrints(s[2..]);
      assert s == [QUOTE, QUOTE] + s[2..];
      assert r.value[1..] == ReadQuoted(s[2..]).value;
    } else {
      assert s == [QUOTE] + s[1..];
    }
  }

  lemma {:induction false} CellsPrint(s: string)
    requires ReadCells(s).Got?
    ensures ReadCells(s).value != [] && s == PrintRow(ReadCells(s).value) + ReadCells(s).rest
    decreases |s|
  {
    var cell := ReadQuoted(s[1..]);
    QuotedPrints(s[1..]);
    assert s == [QUOTE] + s[1..];
    assert s == CsvCell(cell.value) + cell.rest;
    if cell.rest != "" && cell.rest[0] == COMMA {
      var more := ReadCells(cell.rest[1..]);
      CellsPrint(cell.rest[1..]);
      assert cell.rest == [COMMA] + cell.rest[1..];
      assert ReadCells(s).value[1..] == more.value;
    }
  }

  lemma RowPrints(s: string)
    requires ReadRow(s).Got?
    ensures s == PrintRow(ReadRow(s).value) + ReadRow(s).rest
  {
    if s != "" && s[0] != NEWLINE {
      CellsPrint(s);
    }
  }

  lemma PrintNext(row: seq<string>, rows: seq<seq<string>>)
    requires rows != []
    ensures Print([row] + rows) == PrintRow(row) + [NEWLINE] + Print(rows)
  {
    assert ([row] + rows)[1..] == rows;
  }

  lemma LastRowPrints(s: string)
    requires ReadRow(s).Got? && ReadRow(s).rest == ""
    ensures ReadRows(s) == Some([ReadRow(s).value]) && Print([ReadRow(s).value]) == s
  {
    RowPrints(s);
    assert PrintRow(ReadRow(s).value) + "" == PrintRow(ReadRow(s).value);
  }

  lemma NextRowPrints(row: seq<string>, rows: seq<seq<string>>, rest: string)
    requires rows != [] && rest != "" && rest[0] == NEWLINE && Print(rows) == rest[1..]
    ensures Print([row] + rows) == PrintRow(row) + rest
  {
    PrintNext(row, rows);
    assert rest == [NEWLINE] + rest[1..];
    Regrouped(PrintRow(row), [NEWLINE], rest[1..]);
  }

  /** Every text the reader takes is the one printed text of the rows it reads. */
  lemma {:induction false} ReadThenPrint(s: string)
    requires ReadRows(s).Some?
    ensures ReadRows(s).value != [] && Print(ReadRows(s).value) == s
    decreases |s|
  {
    var row := ReadRow(s);
    if row.rest == "" {
      LastRowPrints(s);
    } else {
      ReadThenPrint(row.rest[1..]);
      RowPrints(s);
      NextRowPrints(row.value, ReadRows(row.rest[1..]).value, row.rest);
    }
  }

  /** Two non-empty lists of rows print the same text exactly when they are the same list. */
  lemma PrintInjective(a: seq<seq<string>>, b: seq<seq<string>>)
    requires a != [] && b != []
    ensures Print(a) == Print(b) <==> a == b
  {
    PrintThenRead(a);
    PrintThenRead(b);
  }

  /** The empty list is the exception: it prints like the list of one empty row, and like no other. */
  lemma EmptyPrint(rows: seq<seq<string>>)
    ensures Print(rows) == "" <==> rows == [] || rows == [[]]
  {
    if rows != [] {
      PrintInjective(rows, [[]]);
      assert Print([[]]) == "";
    }
  }

  // ------------------------------------------------------------------- the export

  datatype Metric = Metric(name: string, value: string)
  datatype VehicleLine = VehicleLine(nameAr: string, nameEn: string, requests: real, confirmed: real, completed: real, occupiedDays: real)
  datatype SalesLine = SalesLine(nameAr: string, nameEn: string, assignedCount: real, confirmed: real, completed: real, median: Option<real>)
  datatype Report = Report(metrics: seq<Metric>, vehicles: seq<VehicleLine>, sales: seq<SalesLine>)
  datatype Headings = Headings(metric: string, value: string, vehicle: string, requests: string, confirmed: string,
                               completed: string, occupied: string, team: string, assignedTo: string, firstReview: string)

  function MetricRow(m: Metric): seq<string> { [m.name, m.value] }

  function VehicleRow(arabic: bool, show: real -> string, v: VehicleLine): seq<string> {
    [if arabic then v.nameAr else v.nameEn, show(v.requests), show(v.confirmed), show(v.completed), show(v.occupiedDays)]
  }

  /** A missing or empty Arabic name falls back to the English one; a missing median is an empty cell. */
  function SalesRow(arabic: bool, show: real -> string, m: SalesLine): seq<string> {
    [if arabic && m.nameAr != "" then m.nameAr else m.nameEn, show(m.assignedCount), show(m.confirmed),
     show(m.completed), if m.median.None? then "" else show(m.median.value)]
  }

  function MetricTable(r: Report, h: Headings): seq<seq<string>> {
    [[h.metric, h.value]] + seq(|r.metrics|, i requires 0 <= i < |r.metrics| => MetricRow(r.metrics[i]))
  }

  function VehicleTable(r: Report, h: Headings, arabic: bool, show: real -> string): seq<seq<string>> {
    [[h.vehicle, h.requests, h.confirmed, h.completed, h.occupied]]
    + seq(|r.vehicles|, i requires 0 <= i < |r.vehicles| => VehicleRow(arabic, show, r.vehicles[i]))
  }

  function SalesTable(r: Report, h: Headings, arabic: bool, show: real -> string): seq<seq<string>> {
    [[h.team, h.assignedTo, h.confirmed, h.completed, h.firstReview]]
    + seq(|r.sales|, i requires 0 <= i < |r.sales| => SalesRow(arabic, show, r.sales[i]))
  }

  function ReportRows(r: Report, h: Headings, arabic: bool, show: real -> string): seq<seq<string>> {
    MetricTable(r, h) + [[]] + VehicleTable(r, h, arabic, show) + [[]] + SalesTable(r, h, arabic, show)
  }

  lemma NextRow(before: seq<seq<string>>, table: seq<seq<string>>, i: nat, row: seq<string>)
    requires i + 1 < |table| && table[i + 1] == row
    ensures before + table[..i + 1] + [row] == before + table[..i + 2]
  {
    assert table[..i + 2] == table[..i + 1] + [row];
  }

  /** show is the engine's rendering of a number. */
  method ExportReport(r: Report, h: Headings, arabic: bool, show: real -> string) returns (csv: string)
    ensures csv == BOM + Print(ReportRows(r, h, arabic, show))
  {
    ghost var metrics, vehicles, sales :=
      MetricTable(r, h), VehicleTable(r, h, arabic, show), SalesTable(r, h, arabic, show);
    var rows := [[h.metric, h.value]];
    for i := 0 to |r.metrics|
      invariant rows == [] + metrics[..i + 1]
    {
      NextRow([], metrics, i, MetricRow(r.metrics[i]));
      rows := rows + [[r.metrics[i].name, r.metrics[i].value]];
    }
    assert rows == metrics;
    rows := rows + [[]];
    ghost var before := rows;
    rows := rows + [[h.vehicle, h.requests, h.confirmed, h.completed, h.occupied]];
    for i := 0 to |r.vehicles|
      invariant rows == before + vehicles[..i + 1]
    {
      var v := r.vehicles[i];
      NextRow(before, vehicles, i, VehicleRow(arabic, show, v));
      rows := rows + [[if arabic then v.nameAr else v.nameEn,
                       show(v.requests), show(v.confirmed), show(v.completed), show(v.occupiedDays)]];
    }
    assert rows == before + vehicles;
    rows := rows + [[]];
    ghost var ahead := rows;
    rows := rows + [[h.team, h.assignedTo, h.confirmed, h.completed, h.firstReview]];
    for i := 0 to |r.sales|
      invariant rows == ahead + sales[..i + 1]
    {
      var m := r.sales[i];
      NextRow(ahead, sales, i, SalesRow(arabic, show, m));
      rows := rows + [[if arabic && m.nameAr != "" then m.nameAr else m.nameEn, show(m.assignedCount),
                       show(m.confirmed), show(m.completed), if m.median.None? then "" else show(m.median.value)]];
    }
    assert rows == ahead + sales;
    csv := BOM + Print(rows);
  }

  // --------------------------------------------------- the tables can be told apart

  /** The runs of non-empty rows between empty ones. */
  function Tables(rows: seq<seq<string>>): (r: seq<seq<seq<string>>>)
    ensures |r| > 0
  {
    if rows == [] then [[]]
    else
      var more := Tables(rows[1..]);
      if rows[0] == [] then [[]] + more else [[rows[0]] + more[0]] + more[1..]
  }

  ghost predicate Filled(rows: seq<seq<string>>) { forall i :: 0 <= i < |rows| ==> rows[i] != [] }

  lemma {:induction false} TableAhead(table: seq<seq<string>>, rest: seq<seq<string>>)
    requires Filled(table)
    ensures Tables(table + [[]] + rest) == [table] + Tables(rest)
  {
    if table == [] {
      assert table + [[]] + rest == [[]] + rest;
    } else {
      var rows := table + [[]] + rest;
      assert rows[1..] == table[1..] + [[]] + rest;
      assert rows[0] == table[0];
      TableAhead(table[1..], rest);
      assert [table[0]] + table[1..] == table;
    }
  }

  lemma {:induction false} LastTable(table: seq<seq<string>>)
    requires Filled(table)
    ensures Tables(table) == [table]
  {
    if table != [] {
      LastTable(table[1..]);
      assert [table[0]] + table[1..] == table;
    }
  }

  lemma ThreeTables(a: seq<seq<string>>, b: seq<seq<string>>, c: seq<seq<string>>)
    requires Filled(a) && Filled(b) && Filled(c)
    ensures Tables(a + [[]] + (b + [[]] + c)) == [a, b, c]
  {
    TableAhead(a, b + [[]] + c);
    TableAhead(b, c);
    LastTable(c);
  }

  /** Three tables with empty rows between them come back from their printed text. */
  lemma TablesRead(a: seq<seq<string>>, b: seq<seq<string>>, c: seq<seq<string>>)
    requires Filled(a) && Filled(b) && Filled(c)
    ensures var read := ReadRows(Print(a + [[]] + b + [[]] + c)); read.Some? && Tables(read.value) == [a, b, c]
  {
    PrintThenRead(a + [[]] + b + [[]] + c);
    Regrouping(a, b, c);
    ThreeTables(a, b, c);
  }

  lemma Regrouping(a: seq<seq<string>>, b: seq<seq<string>>, c: seq<seq<string>>)
    ensures a + [[]] + b + [[]] + c == a + [[]] + (b + [[]] + c)
  {
  }

  /** From the exported text alone, the three tables of the report come back whole and apart. */
  lemma ExportKeepsTables(r: Report, h: Headings, arabic: bool, show: real -> string)
    ensures var text := Print(ReportRows(r, h, arabic, show));
      ReadRows(text).Some?
      && Tables(ReadRows(text).value) ==
           [MetricTable(r, h), VehicleTable(r, h, arabic, show), SalesTable(r, h, arabic, show)]
  {
    TablesRead(MetricTable(r, h), VehicleTable(r, h, arabic, show), SalesTable(r, h, arabic, show));
  }
}
