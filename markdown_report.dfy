/**
 * `generateMarkdownReport` of src/lib/analyzeSheet.ts: the Markdown document
 * describing an analysed spreadsheet. The specification functions build the
 * document piece by piece; the methods accumulate it with loops as the source
 * does (`markdown += ...`) and are proved to produce the same text.
 *
 * The analysis date (today's date in the source) is the parameter `date`.
 */
module MarkdownReport {
  import opened TextUtil
  import opened SeqUtil
  import opened JsNumbers
  import opened SheetRows
  import opened SheetAnalysis

  // ---- Cells of the column table -------------------------------------------------

  /** `String.fromCharCode(65 + k)`: the code is taken modulo 2^16; a code
      that is half of a UTF-16 surrogate pair stands alone and is shown as
      U+FFFD here. */
  function ColumnLabel(k: nat): (c: char)
    ensures k < 26 ==> 'A' <= c <= 'Z' && c as int == 65 + k
  {
    var code := (65 + k) % 0x1_0000;
    if 0xD800 <= code < 0xE000 then '\U{FFFD}' else code as char
  }

  /** The first two non-empty values of column `k` of the sample rows. */
  function FirstSamples(sampleData: seq<seq<string>>, k: nat): (vs: seq<string>)
    ensures |vs| <= 2
    ensures forall i :: 0 <= i < |vs| ==> vs[i] != ""
  {
    var samples := ColumnSamples(sampleData, k);
    var vs := if |samples| <= 2 then samples else samples[..2];
    assert forall i :: 0 <= i < |vs| ==> vs[i] in samples;
    vs
  }

  /** A join of non-empty texts is empty only when there is nothing to join. */
  lemma {:induction false} JoinNonEmpty(parts: seq<string>, sep: string)
    requires forall i :: 0 <= i < |parts| ==> parts[i] != ""
    ensures Join(parts, sep) == "" <==> |parts| == 0
    decreases |parts|
  {
    if |parts| > 1 {
      JoinNonEmpty(parts[1..], sep);
    }
  }

  /** `samples || 'N/A'`: the first two non-empty values of the column joined
      by `, `, or `N/A` when the column has none. */
  function SampleCell(sampleData: seq<seq<string>>, k: nat): (cell: string)
    ensures ColumnSamples(sampleData, k) == [] ==> cell == "N/A"
    ensures ColumnSamples(sampleData, k) != [] ==> cell == Join(FirstSamples(sampleData, k), ", ")
  {
    var vs := FirstSamples(sampleData, k);
    JoinNonEmpty(vs, ", ");
    var joined := Join(vs, ", ");
    if joined == "" then "N/A" else joined
  }

  /** `sheet.dataTypes[header] || 'unknown'` */
  function TypeCell(sheet: SheetInfo, header: string): (cell: string)
    ensures header in sheet.dataTypes ==> cell == TypeName(sheet.dataTypes[header])
    ensures header !in sheet.dataTypes ==> cell == "unknown"
  {
    if header in sheet.dataTypes && TypeName(sheet.dataTypes[header]) != "" then TypeName(sheet.dataTypes[header])
    else "unknown"
  }

  /** The row of the column table describing column `k`. */
  function ColumnRow(sheet: SheetInfo, k: nat): string
    requires k < |sheet.headers|
  {
    "| " + [ColumnLabel(k)] + " | " + sheet.headers[k] + " | " + TypeCell(sheet, sheet.headers[k])
    + " | " + SampleCell(sheet.sampleData, k) + " |\n"
  }

  function ColumnRows(sheet: SheetInfo): string
  {
    Concat(seq(|sheet.headers|, k requires 0 <= k < |sheet.headers| => ColumnRow(sheet, k)))
  }

  // ---- The sample table ----------------------------------------------------------

  /** `| h1 | h2 | ... |` */
  function HeaderRow(headers: seq<string>): string
  {
    "| " + Join(headers, " | ") + " |\n"
  }

  /** `'---'` once per column. */
  function Dashes(n: nat): (ds: seq<string>)
    ensures |ds| == n && forall i :: 0 <= i < n ==> ds[i] == "---"
  {
    seq(n, _ => "---")
  }

  /** `|---|---|...|` */
  function SeparatorRow(n: nat): string
  {
    "|" + Join(Dashes(n), "|") + "|\n"
  }

  /** Between its outer bars, the separator row splits into exactly one
      `---` per header. */
  lemma SeparatorPerColumn(n: nat)
    requires n >= 1
    ensures var row := SeparatorRow(n);
            Split(row[1..|row| - 2], '|') == Dashes(n)
  {
    var inner := Join(Dashes(n), "|");
    var row := SeparatorRow(n);
    assert row == "|" + inner + "|\n";
    assert row[1..|row| - 2] == inner;
    SplitJoin(Dashes(n), '|');
  }

  /** `paddedRow` after the `while` loop: the row, followed by as many empty
      cells as it falls short of `n`; a longer row is kept whole. */
  function Padded(row: seq<string>, n: nat): (r: seq<string>)
    ensures |r| == if |row| < n then n else |row|
    ensures r[..|row|] == row
    ensures forall i :: |row| <= i < |r| ==> r[i] == ""
  {
    row + seq(if |row| < n then n - |row| else 0, _ => "")
  }

  /** The `while (paddedRow.length < n) paddedRow.push('')` loop. */
  method PadRow(row: seq<string>, n: nat) returns (padded: seq<string>)
    ensures padded == Padded(row, n)
  {
    padded := row;
    while |padded| < n
      invariant |row| <= |padded| && padded[..|row|] == row
      invariant forall i :: |row| <= i < |padded| ==> padded[i] == ""
      invariant |padded| <= n || padded == row
      decreases n - |padded|
    {
      padded := padded + [""];
    }
  }

  /** `| c1 | c2 | ... |` for one padded sample row. */
  function DataRow(row: seq<string>, n: nat): string
  {
    "| " + Join(Padded(row, n), " | ") + " |\n"
  }

  /** `sheet.sampleData.slice(0, 5)` */
  function FirstFive(rows: seq<seq<string>>): (r: seq<seq<string>>)
    ensures |r| <= 5 && |r| <= |rows| && r == rows[..|r|]
    ensures |rows| <= 5 ==> r == rows
  {
    if |rows| <= 5 then rows else rows[..5]
  }

  function DataRows(sheet: SheetInfo): string
  {
    var rows := FirstFive(sheet.sampleData);
    Concat(seq(|rows|, i requires 0 <= i < |rows| => DataRow(rows[i], |sheet.headers|)))
  }

  // ---- Sections ------------------------------------------------------------------

  /** `## <index+1>. Sheet: "<name>"` */
  function Heading(sheet: SheetInfo, index: nat): string
  {
    "## " + NatToString(index + 1) + ". Sheet: \"" + sheet.name + "\"\n\n"
  }

  function Dimensions(sheet: SheetInfo): string
  {
    "**Dimensions:** " + IntToString(sheet.rowCount) + " rows \U{D7} " + IntToString(sheet.columnCount) + " columns\n\n"
  }

  /** The two tables of a sheet with headers. */
  function Tables(sheet: SheetInfo): string
  {
    "### Column Structure\n\n"
    + "| Column | Header | Data Type | Sample Values |\n"
    + "|--------|--------|-----------|---------------|\n"
    + ColumnRows(sheet)
    + "\n### Sample Data (First 5 Rows)\n\n"
    + HeaderRow(sheet.headers)
    + SeparatorRow(|sheet.headers|)
    + DataRows(sheet)
    + "\n"
  }

  const NoData := "*No data found in this sheet*\n\n"

  /** The section of one sheet: its numbered heading and dimensions, then the
      tables, or the no-data note when the sheet has no headers. */
  function SheetSection(sheet: SheetInfo, index: nat): (section: string)
    ensures StartsWith(section, Heading(sheet, index) + Dimensions(sheet))
  {
    var head := Heading(sheet, index) + Dimensions(sheet);
    var body := if |sheet.headers| > 0 then Tables(sheet) else NoData;
    StartsWithAppend(head, body, "---\n\n");
    head + body + "---\n\n"
  }

  function Sections(analysis: SpreadsheetAnalysis): (ss: seq<string>)
    ensures |ss| == |analysis.sheets|
  {
    seq(|analysis.sheets|, i requires 0 <= i < |analysis.sheets| => SheetSection(analysis.sheets[i], i))
  }

  function Preamble(analysis: SpreadsheetAnalysis, date: string): string
  {
    "# Google Spreadsheet Structure Analysis\n\n"
    + "**Spreadsheet:** " + analysis.title + "\n"
    + "**Spreadsheet ID:** `" + analysis.spreadsheetId + "`\n"
    + "**Total Sheets:** " + IntToString(analysis.totalSheets) + "\n"
    + "**Analysis Date:** " + date + "\n\n"
    + "---\n\n"
  }

  /** `- **<name>**: <n> columns, <rows> rows` */
  function SummaryLine(sheet: SheetInfo): string
  {
    "- **" + sheet.name + "**: " + NatToString(|sheet.headers|) + " columns, " + IntToString(sheet.rowCount) + " rows\n"
  }

  function SummaryLines(analysis: SpreadsheetAnalysis): (ls: seq<string>)
    ensures |ls| == |analysis.sheets|
  {
    seq(|analysis.sheets|, i requires 0 <= i < |analysis.sheets| => SummaryLine(analysis.sheets[i]))
  }

  function SummaryHead(analysis: SpreadsheetAnalysis): string
  {
    "## Summary\n\n" + "This spreadsheet contains " + IntToString(analysis.totalSheets) + " sheet(s):\n\n"
  }

  /** The whole report: the preamble, one section per sheet in order, then the
      summary with one line per sheet in order. */
  function Report(analysis: SpreadsheetAnalysis, date: string): string
  {
    Preamble(analysis, date) + Concat(Sections(analysis)) + SummaryHead(analysis) + Concat(SummaryLines(analysis))
  }

  /** Every sheet gets its numbered heading in the body of the report. */
  lemma ReportHasHeading(analysis: SpreadsheetAnalysis, date: string, i: nat)
    requires i < |analysis.sheets|
    ensures Contains(Report(analysis, date), Heading(analysis.sheets[i], i))
  {
    var h := Heading(analysis.sheets[i], i);
    var body := Concat(Sections(analysis));
    BodyHasHeading(analysis, i);
    ReportHasBody(analysis, date);
    ContainsTransitive(Report(analysis, date), body, h);
  }

  lemma BodyHasHeading(analysis: SpreadsheetAnalysis, i: nat)
    requires i < |analysis.sheets|
    ensures Contains(Concat(Sections(analysis)), Heading(analysis.sheets[i], i))
  {
    var section := Sections(analysis)[i];
    SectionHasHeading(analysis.sheets[i], i);
    ConcatContains(Sections(analysis), i);
    ContainsTransitive(Concat(Sections(analysis)), section, Heading(analysis.sheets[i], i));
  }

  lemma SectionHasHeading(sheet: SheetInfo, i: nat)
    ensures Contains(SheetSection(sheet, i), Heading(sheet, i))
  {
    StartsWithContains(SheetSection(sheet, i), Heading(sheet, i), Dimensions(sheet));
  }

  lemma ReportHasBody(analysis: SpreadsheetAnalysis, date: string)
    ensures Contains(Report(analysis, date), Concat(Sections(analysis)))
  {
    var p, b, h, s := Preamble(analysis, date), Concat(Sections(analysis)), SummaryHead(analysis), Concat(SummaryLines(analysis));
    var r := Report(analysis, date);
    assert r == p + b + h + s;
    ContainsSecondOfFour(p, b, h, s);
  }

  /** Every sheet gets its line in the summary at the end of the report. */
  lemma ReportHasSummaryLine(analysis: SpreadsheetAnalysis, date: string, i: nat)
    requires i < |analysis.sheets|
    ensures Contains(Report(analysis, date), SummaryLine(analysis.sheets[i]))
  {
    var summary := Concat(SummaryLines(analysis));
    var front := Preamble(analysis, date) + Concat(Sections(analysis)) + SummaryHead(analysis);
    assert Report(analysis, date) == front + summary + "";
    ContainsInfix(front, summary, "");
    ConcatContains(SummaryLines(analysis), i);
    ContainsTransitive(Report(analysis, date), summary, SummaryLine(analysis.sheets[i]));
  }

  /** A sheet without headers gets the no-data note and no tables. */
  lemma HeaderlessSection(sheet: SheetInfo, index: nat)
    requires |sheet.headers| == 0
    ensures SheetSection(sheet, index) == Heading(sheet, index) + Dimensions(sheet) + NoData + "---\n\n"
  {
  }

  // ---- The accumulating methods --------------------------------------------------

  /** Appending one more part extends the concatenation by that part. */
  lemma ConcatStep(parts: seq<string>, i: nat)
    requires i < |parts|
    ensures Concat(parts[..i + 1]) == Concat(parts[..i]) + parts[i]
  {
    assert parts[..i + 1][..i] == parts[..i];
  }

  /** The `sheet.headers.forEach` loop writing the column table rows. */
  method WriteColumnRows(sheet: SheetInfo) returns (out: string)
    ensures out == ColumnRows(sheet)
  {
    ghost var rows := seq(|sheet.headers|, k requires 0 <= k < |sheet.headers| => ColumnRow(sheet, k));
    out := "";
    var k := 0;
    while k < |sheet.headers|
      invariant 0 <= k <= |sheet.headers|
      invariant out == Concat(rows[..k])
    {
      ConcatStep(rows, k);
      out := out + ColumnRow(sheet, k);
      k := k + 1;
    }
    assert rows[..k] == rows;
  }

  /** The `sheet.sampleData.slice(0, 5).forEach` loop writing the padded
      sample rows. */
  method WriteDataRows(sheet: SheetInfo) returns (out: string)
    ensures out == DataRows(sheet)
  {
    var sample := FirstFive(sheet.sampleData);
    ghost var lines := seq(|sample|, i requires 0 <= i < |sample| => DataRow(sample[i], |sheet.headers|));
    out := "";
    var i := 0;
    while i < |sample|
      invariant 0 <= i <= |sample|
      invariant out == Concat(lines[..i])
    {
      var padded := PadRow(sample[i], |sheet.headers|);
      ConcatStep(lines, i);
      out := out + "| " + Join(padded, " | ") + " |\n";
      i := i + 1;
    }
    assert lines[..i] == lines;
  }

  /** The body of `analysis.sheets.forEach` for one sheet. */
  method WriteSection(sheet: SheetInfo, index: nat) returns (out: string)
    ensures out == SheetSection(sheet, index)
  {
    out := Heading(sheet, index);
    out := out + Dimensions(sheet);
    var body;
    if |sheet.headers| > 0 {
      var columns := WriteColumnRows(sheet);
      var data := WriteDataRows(sheet);
      body := "### Column Structure\n\n"
        + "| Column | Header | Data Type | Sample Values |\n"
        + "|--------|--------|-----------|---------------|\n"
        + columns
        + "\n### Sample Data (First 5 Rows)\n\n"
        + HeaderRow(sheet.headers)
        + SeparatorRow(|sheet.headers|)
        + data
        + "\n";
      assert body == Tables(sheet);
    } else {
      body := NoData;
    }
    out := out + body;
    out := out + "---\n\n";
  }

  /** The `analysis.sheets.forEach` loop writing one section per sheet. */
  method WriteSections(analysis: SpreadsheetAnalysis) returns (out: string)
    ensures out == Concat(Sections(analysis))
  {
    ghost var sections := Sections(analysis);
    out := "";
    var i := 0;
    while i < |analysis.sheets|
      invariant 0 <= i <= |analysis.sheets|
      invariant out == Concat(sections[..i])
    {
      var section := WriteSection(analysis.sheets[i], i);
      assert section == sections[i];
      ConcatStep(sections, i);
      out := out + section;
      i := i + 1;
    }
    assert sections[..i] == sections;
  }

  /** The summary loop writing one line per sheet. */
  method WriteSummaryLines(analysis: SpreadsheetAnalysis) returns (out: string)
    ensures out == Concat(SummaryLines(analysis))
  {
    ghost var lines := SummaryLines(analysis);
    out := "";
    var j := 0;
    while j < |analysis.sheets|
      invariant 0 <= j <= |analysis.sheets|
      invariant out == Concat(lines[..j])
    {
      ConcatStep(lines, j);
      out := out + SummaryLine(analysis.sheets[j]);
      j := j + 1;
    }
    assert lines[..j] == lines;
  }

  /** `generateMarkdownReport` */
  method GenerateMarkdownReport(analysis: SpreadsheetAnalysis, date: string) returns (markdown: string)
    ensures markdown == Report(analysis, date)
  {
    markdown := Preamble(analysis, date);
    var sections := WriteSections(analysis);
    markdown := markdown + sections;
    markdown := markdown + SummaryHead(analysis);
    var summary := WriteSummaryLines(analysis);
    markdown := markdown + summary;
  }
}
