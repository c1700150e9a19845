/**
 * The structure analysis of src/lib/analyzeSheet.ts: the value classifier
 * `detectDataType`, the per-column "most common type" vote over the sample
 * rows, and `analyzeSpreadsheet`, which walks every listed sheet.
 *
 * The spreadsheet metadata request and each per-sheet values request are not
 * modelled: their outcomes are inputs (a failed metadata request is
 * `MetadataFailure`, a failed values request a `TransportFailure`).
 */
module SheetAnalysis {
  import opened TextUtil
  import opened SeqUtil
  import opened JsNumbers
  import opened SheetRows

  // ---- detectDataType ------------------------------------------------------------

  datatype DataType = Empty | Number | Date | Email | Url | CommaSeparated | Text

  /** The name the source stores for each type. */
  function TypeName(t: DataType): string
  {
    match t
    case Empty => "empty"
    case Number => "number"
    case Date => "date"
    case Email => "email"
    case Url => "url"
    case CommaSeparated => "comma-separated"
    case Text => "text"
  }

  lemma TypeNameInjective(a: DataType, b: DataType)
    requires TypeName(a) == TypeName(b)
    ensures a == b
  {
  }

  /** `^\d{4}-\d{2}-\d{2}$` */
  predicate IsIsoDateShape(v: string)
  {
    |v| == 10 && v[4] == '-' && v[7] == '-'
    && IsDigit(v[0]) && IsDigit(v[1]) && IsDigit(v[2]) && IsDigit(v[3])
    && IsDigit(v[5]) && IsDigit(v[6]) && IsDigit(v[8]) && IsDigit(v[9])
  }

  /** `^\d{2}\/\d{2}\/\d{4}$` */
  predicate IsSlashDateShape(v: string)
  {
    |v| == 10 && v[2] == '/' && v[5] == '/'
    && IsDigit(v[0]) && IsDigit(v[1]) && IsDigit(v[3]) && IsDigit(v[4])
    && IsDigit(v[6]) && IsDigit(v[7]) && IsDigit(v[8]) && IsDigit(v[9])
  }

  /** `^https?:\/\/` */
  predicate IsUrlStart(v: string)
  {
    StartsWith(v, "http://") || StartsWith(v, "https://")
  }

  /** Whether `v` shows the feature each type tests for, taken on its own. */
  predicate Shows(v: string, t: DataType)
  {
    match t
    case Empty => v == ""
    case Number => IsNumeric(v)
    case Date => IsIsoDateShape(v) || IsSlashDateShape(v)
    case Email => '@' in v
    case Url => IsUrlStart(v)
    case CommaSeparated => ',' in v
    case Text => true
  }

  /** The order in which the classifier tests the features. */
  function Rank(t: DataType): nat
  {
    match t
    case Empty => 0
    case Number => 1
    case Date => 2
    case Email => 3
    case Url => 4
    case CommaSeparated => 5
    case Text => 6
  }

  /** `detectDataType`: the first type, in test order, whose feature the
      value shows. */
  function DetectDataType(v: string): (t: DataType)
    ensures Shows(v, t)
    ensures forall u :: Rank(u) < Rank(t) ==> !Shows(v, u)
  {
    if v == "" then Empty
    else if IsNumeric(v) then Number
    else if IsIsoDateShape(v) then Date
    else if IsSlashDateShape(v) then Date
    else if '@' in v then Email
    else if IsUrlStart(v) then Url
    else if ',' in v then CommaSeparated
    else Text
  }

  /** The test order decides: `a@b,c` holds both `@` and `,` and is an e-mail. */
  lemma EmailBeforeComma()
    ensures DetectDataType("a@b,c") == Email
  {
    var v := "a@b,c";
    NotNumericStart(v);
    assert v[1] == '@';
  }

  /** Dates are recognised by shape only, so an impossible date is a date. */
  lemma DateByShapeOnly()
    ensures DetectDataType("9999-99-99") == Date
  {
    DateIsNotNumeric();
    ImpossibleDateShape();
  }

  lemma ImpossibleDateShape()
    ensures IsIsoDateShape("9999-99-99")
  {
    var v := "9999-99-99";
    assert v[4] == '-' && v[7] == '-';
    assert forall i :: 0 <= i < 10 && i != 4 && i != 7 ==> v[i] == '9';
  }

  // ---- The column vote -----------------------------------------------------------

  /** `dataRows.map(row => row[index]).filter(val => val && val !== '')`:
      the non-empty values of one column. */
  function ColumnSamples(dataRows: seq<seq<string>>, index: nat): (samples: seq<string>)
    ensures forall s :: s in samples ==> s != ""
    ensures |samples| <= |dataRows|
  {
    Filter(seq(|dataRows|, r requires 0 <= r < |dataRows| => CellAt(dataRows[r], index)), (v: string) => v != "")
  }

  /** `t` occurs in `types` at least as often as any other type, and no other
      type as frequent occurs earlier (the stable descending sort keeps the
      first-inserted key in front). */
  predicate IsDominant(types: seq<DataType>, t: DataType)
  {
    t in types
    && forall u :: u in types ==>
         Count(types, u) <= Count(types, t)
         && (Count(types, u) == Count(types, t) ==> FirstIndex(types, t) <= FirstIndex(types, u))
  }

  /** At most one type dominates, so the vote is determined by the values. */
  lemma DominantUnique(types: seq<DataType>, a: DataType, b: DataType)
    requires IsDominant(types, a) && IsDominant(types, b)
    ensures a == b
  {
    assert FirstIndex(types, a) == FirstIndex(types, b);
  }

  /** What the source records for a column with the given samples: `empty`
      without samples, otherwise the dominant type of the samples. */
  predicate ColumnTypeIs(samples: seq<string>, t: DataType)
  {
    if |samples| == 0 then t == Empty
    else IsDominant(seq(|samples|, i requires 0 <= i < |samples| => DetectDataType(samples[i])), t)
  }

  /** `types.forEach(type => typeCount[type] = (typeCount[type] || 0) + 1)`:
      the count of each type, and the types in the order the object's keys
      were first inserted. */
  method CountTypes(types: seq<DataType>) returns (counts: map<DataType, nat>, order: seq<DataType>)
    ensures order == Distinct(types)
    ensures forall u :: u in counts <==> u in types
    ensures forall u :: u in counts ==> counts[u] == Count(types, u)
  {
    counts := map[];
    order := [];
    ghost var seen: seq<DataType> := [];
    var i := 0;
    while i < |types|
      invariant 0 <= i <= |types| && seen == types[..i]
      invariant Tally(seen, counts, order)
    {
      var x := types[i];
      TallyStep(seen, x, counts, order);
      if x in counts {
        counts := counts[x := counts[x] + 1];
      } else {
        counts := counts[x := 1];
        order := order + [x];
      }
      PrefixSnoc(types, i);
      seen := seen + [x];
      i := i + 1;
    }
    assert types[..i] == types;
  }

  /** The tally after reading `seen`: first-seen order and the count of each type. */
  ghost predicate Tally(seen: seq<DataType>, counts: map<DataType, nat>, order: seq<DataType>)
  {
    && order == Distinct(seen)
    && (forall u :: u in counts <==> u in seen)
    && forall u :: u in counts ==> counts[u] == Count(seen, u)
  }

  /** Reading one more type bumps its count and lists it when it is new. */
  lemma TallyStep(seen: seq<DataType>, x: DataType, counts: map<DataType, nat>, order: seq<DataType>)
    requires Tally(seen, counts, order)
    ensures x in counts ==> Tally(seen + [x], counts[x := counts[x] + 1], order)
    ensures x !in counts ==> Tally(seen + [x], counts[x := 1], order + [x])
  {
    DistinctStep(seen, x, order);
    CountStep(seen, x, counts, counts[x := if x in counts then counts[x] + 1 else 1]);
  }

  lemma CountStep(seen: seq<DataType>, x: DataType, before: map<DataType, nat>, after: map<DataType, nat>)
    requires forall u :: u in before <==> u in seen
    requires forall u :: u in before ==> before[u] == Count(seen, u)
    requires after == before[x := if x in before then before[x] + 1 else 1]
    ensures forall u :: u in after <==> u in seen + [x]
    ensures forall u :: u in after ==> after[u] == Count(seen + [x], u)
  {
    forall u ensures Count(seen + [x], u) == Count(seen, u) + if u == x then 1 else 0 {
      CountSnoc(seen, x, u);
    }
    assert forall u :: u in seen + [x] <==> u in seen || u == x;
  }

  lemma DistinctStep(seen: seq<DataType>, x: DataType, order: seq<DataType>)
    requires order == Distinct(seen)
    ensures (if x in seen then order else order + [x]) == Distinct(seen + [x])
  {
    DistinctSnoc(seen, x);
  }

  /** `Object.entries(typeCount).sort((a, b) => b[1] - a[1])[0]`: the sort
      is stable, so its head is the first key, in insertion order, with the
      greatest count. */
  method FirstMostFrequent(order: seq<DataType>, counts: map<DataType, nat>) returns (best: nat)
    requires |order| > 0 && forall k :: 0 <= k < |order| ==> order[k] in counts
    ensures best < |order|
    ensures forall k :: 0 <= k < |order| ==> counts[order[k]] <= counts[order[best]]
    ensures forall k :: 0 <= k < best ==> counts[order[k]] < counts[order[best]]
  {
    best := 0;
    var j := 1;
    while j < |order|
      invariant 1 <= j <= |order| && 0 <= best < j
      invariant forall k :: 0 <= k < j ==> counts[order[k]] <= counts[order[best]]
      invariant forall k :: 0 <= k < best ==> counts[order[k]] < counts[order[best]]
    {
      if counts[order[j]] > counts[order[best]] {
        best := j;
      }
      j := j + 1;
    }
  }

  /** The vote of one column: `empty` without samples, otherwise the first
      of the most frequent detected types. */
  method ColumnType(samples: seq<string>) returns (t: DataType)
    ensures ColumnTypeIs(samples, t)
  {
    if |samples| == 0 {
      return Empty;
    }
    var types := seq(|samples|, i requires 0 <= i < |samples| => DetectDataType(samples[i]));
    var counts, order := CountTypes(types);
    assert types[0] in types;
    assert forall k :: 0 <= k < |order| ==> order[k] in types;
    var best := FirstMostFrequent(order, counts);
    LeaderIsDominant(types, order, counts, best);
    t := order[best];
  }

  /** The first of the most frequent entries of the first-seen order
      dominates. */
  lemma LeaderIsDominant(types: seq<DataType>, order: seq<DataType>, counts: map<DataType, nat>, best: nat)
    requires order == Distinct(types) && best < |order|
    requires forall u :: u in counts <==> u in types
    requires forall u :: u in counts ==> counts[u] == Count(types, u)
    requires forall k :: 0 <= k < |order| ==> counts[order[k]] <= counts[order[best]]
    requires forall k :: 0 <= k < best ==> counts[order[k]] < counts[order[best]]
    ensures IsDominant(types, order[best])
  {
    var t := order[best];
    DistinctOrder(types);
    forall u | u in types
      ensures Count(types, u) <= Count(types, t)
      ensures Count(types, u) == Count(types, t) ==> FirstIndex(types, t) <= FirstIndex(types, u)
    {
      var k := FirstIndex(order, u);
      assert order[k] == u;
    }
  }

  /** Each key of `m` is one of `keys`, each of `keys` is a key of `m`, and
      the value of a key satisfies `ok` at the key's last position. */
  ghost predicate MapsToLast<V>(keys: seq<string>, m: map<string, V>, ok: (int, V) -> bool)
  {
    (forall x :: x in m <==> x in keys)
    && forall x :: x in m ==> var c := LastIndexOf(keys, x); c >= 0 && ok(c, m[x])
  }

  /** Setting one more key, whose value satisfies `ok` at the new last position. */
  lemma MapsToLastSnoc<V>(keys: seq<string>, h: string, m: map<string, V>, v: V, ok: (int, V) -> bool)
    requires MapsToLast(keys, m, ok) && ok(|keys|, v)
    ensures MapsToLast(keys + [h], m[h := v], ok)
  {
    var m' := m[h := v];
    forall x ensures x in m' <==> x in keys + [h] {
      assert x in keys + [h] <==> x in keys || x == h;
    }
    forall x | x in m'
      ensures var c := LastIndexOf(keys + [h], x); c >= 0 && ok(c, m'[x])
    {
      LastIndexOfSnoc(keys, h, x);
    }
  }

  /** Column `c` of the sample rows has type `t`. */
  function ColumnHasType(dataRows: seq<seq<string>>): (int, DataType) -> bool
  {
    (c: int, t: DataType) => c >= 0 && ColumnTypeIs(ColumnSamples(dataRows, c), t)
  }

  /** `dataTypes` maps each header to the type of its column; among equal
      headers the last column wins. */
  ghost predicate DataTypesAre(headers: seq<string>, dataRows: seq<seq<string>>, dataTypes: map<string, DataType>)
  {
    MapsToLast(headers, dataTypes, ColumnHasType(dataRows))
  }

  /** Spelled out: exactly the headers are keys, and each maps to the type
      of its last column. */
  lemma DataTypesMeaning(headers: seq<string>, dataRows: seq<seq<string>>, dataTypes: map<string, DataType>)
    requires DataTypesAre(headers, dataRows, dataTypes)
    ensures forall h :: h in dataTypes <==> h in headers
    ensures forall h :: h in dataTypes ==>
              var c := LastIndexOf(headers, h);
              c >= 0 && ColumnTypeIs(ColumnSamples(dataRows, c), dataTypes[h])
  {
    forall h | h in dataTypes
      ensures var c := LastIndexOf(headers, h);
              c >= 0 && ColumnTypeIs(ColumnSamples(dataRows, c), dataTypes[h])
    {
      assert ColumnHasType(dataRows)(LastIndexOf(headers, h), dataTypes[h]);
    }
  }

  /** The `headers.forEach` loop that fills `dataTypes`. */
  method AnalyzeColumns(headers: seq<string>, dataRows: seq<seq<string>>) returns (dataTypes: map<string, DataType>)
    ensures DataTypesAre(headers, dataRows, dataTypes)
  {
    dataTypes := map[];
    var k := 0;
    ghost var ok := ColumnHasType(dataRows);
    while k < |headers|
      invariant 0 <= k <= |headers|
      invariant MapsToLast(headers[..k], dataTypes, ok)
    {
      var t := ColumnType(ColumnSamples(dataRows, k));
      assert ok(k, t);
      MapsToLastSnoc(headers[..k], headers[k], dataTypes, t, ok);
      PrefixSnoc(headers, k);
      dataTypes := dataTypes[headers[k] := t];
      k := k + 1;
    }
    assert headers[..k] == headers;
  }

  // ---- analyzeSpreadsheet --------------------------------------------------------

  /** One entry of the metadata's sheet list, with the outcome of reading its
      values range. A missing title is `""` and a missing dimension 0. */
  datatype SheetProps = SheetProps(title: string, rowCount: int, columnCount: int, values: Fetch)

  datatype Metadata = Metadata(title: string, sheets: seq<SheetProps>) | MetadataFailure

  datatype SheetInfo = SheetInfo(
    name: string, rowCount: int, columnCount: int, headers: seq<string>,
    sampleData: seq<seq<string>>, dataTypes: map<string, DataType>)

  datatype SpreadsheetAnalysis = SpreadsheetAnalysis(
    spreadsheetId: string, title: string, sheets: seq<SheetInfo>, totalSheets: int)

  datatype AnalysisResult = Analyzed(analysis: SpreadsheetAnalysis) | Failed(error: SheetError)

  function OrUnknown(s: string): string
  {
    if s == "" then "Unknown" else s
  }

  /** `rows.length > 0 ? rows[0] : []` */
  function HeadersOf(grid: seq<seq<string>>): seq<string>
  {
    if |grid| > 0 then grid[0] else []
  }

  /** `rows.slice(1, 6)`: at most five rows below the header row. */
  function SampleRowsOf(grid: seq<seq<string>>): (rows: seq<seq<string>>)
    ensures |rows| == if |grid| <= 1 then 0 else if |grid| < 6 then |grid| - 1 else 5
    ensures forall i :: 0 <= i < |rows| ==> i + 1 < |grid| && rows[i] == grid[i + 1]
  {
    if |grid| <= 1 then [] else grid[1..if |grid| < 6 then |grid| else 6]
  }

  /** The entry recorded for one sheet: a failed read still gives an entry,
      with the sheet's name and dimensions and nothing else. */
  ghost predicate SheetEntryFor(props: SheetProps, info: SheetInfo)
  {
    && info.name == OrUnknown(props.title)
    && info.rowCount == props.rowCount
    && info.columnCount == props.columnCount
    && match props.values
       case TransportFailure =>
         info.headers == [] && info.sampleData == [] && info.dataTypes == map[]
       case Fetched(grid) =>
         && info.headers == HeadersOf(grid)
         && info.sampleData == SampleRowsOf(grid)
         && DataTypesAre(info.headers, info.sampleData, info.dataTypes)
  }

  /** The per-sheet body of the loop in `analyzeSpreadsheet`. */
  method AnalyzeSheet(props: SheetProps) returns (info: SheetInfo)
    ensures SheetEntryFor(props, info)
  {
    var name := OrUnknown(props.title);
    match props.values {
      case TransportFailure =>
        info := SheetInfo(name, props.rowCount, props.columnCount, [], [], map[]);
      case Fetched(grid) =>
        var headers := HeadersOf(grid);
        var dataRows := SampleRowsOf(grid);
        var dataTypes := AnalyzeColumns(headers, dataRows);
        info := SheetInfo(name, props.rowCount, props.columnCount, headers, dataRows, dataTypes);
    }
  }

  /** `analyzeSpreadsheet`: the configuration errors of the access layer, a
      failed metadata request, or one entry per listed sheet, in order, so
      that the entries always number `totalSheets`. */
  method AnalyzeSpreadsheet(config: Config, meta: Metadata) returns (r: AnalysisResult)
    ensures config.sheetId == "" ==> r == Failed(SheetIdMissing)
    ensures config.sheetId != "" && !HasAuth(config) ==> r == Failed(NoAuthentication)
    ensures r.Analyzed? <==> config.sheetId != "" && HasAuth(config) && meta.Metadata?
    ensures r.Analyzed? ==>
              && r.analysis.spreadsheetId == config.sheetId
              && r.analysis.title == OrUnknown(meta.title)
              && r.analysis.totalSheets == |r.analysis.sheets| == |meta.sheets|
              && forall i :: 0 <= i < |meta.sheets| ==> SheetEntryFor(meta.sheets[i], r.analysis.sheets[i])
  {
    if config.sheetId == "" {
      return Failed(SheetIdMissing);
    }
    if !HasAuth(config) {
      return Failed(NoAuthentication);
    }
    if meta.MetadataFailure? {
      return Failed(RequestFailed);
    }
    var sheets: seq<SheetInfo> := [];
    var i := 0;
    while i < |meta.sheets|
      invariant 0 <= i <= |meta.sheets| && |sheets| == i
      invariant forall k :: 0 <= k < i ==> SheetEntryFor(meta.sheets[k], sheets[k])
    {
      var info := AnalyzeSheet(meta.sheets[i]);
      sheets := sheets + [info];
      i := i + 1;
    }
    r := Analyzed(SpreadsheetAnalysis(config.sheetId, OrUnknown(meta.title), sheets, |meta.sheets|));
  }
}
