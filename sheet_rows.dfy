/**
 * The spreadsheet access layer (`getGoogleSheetsData` in
 * src/lib/googleSheets.ts): configuration checks, then the conversion of a
 * fetched value grid into records keyed by normalised header names.
 *
 * The fetch itself is not modelled: its outcome, the grid of cell strings or
 * a transport failure, is a parameter.
 */
module SheetRows {
  import opened TextUtil
  import opened SeqUtil

  /** A value of a raw record: the synthetic `id` is a number, every cell a
      string. */
  datatype Value = Num(n: int) | Str(s: string)

  type Record = map<string, Value>

  /** The environment variables the access layer reads; an unset variable is
      the empty string (both are falsy in the source). */
  datatype Config = Config(sheetId: string, clientEmail: string, privateKey: string, apiKey: string)

  datatype SheetError = SheetIdMissing | NoAuthentication | RequestFailed

  /** What `spreadsheets.values.get` produced: rows of cell strings (a
      missing `values` array is the empty grid), or a thrown failure. */
  datatype Fetch = Fetched(values: seq<seq<string>>) | TransportFailure

  datatype SheetResult = Ok(records: seq<Record>) | Err(error: SheetError)

  // ---- Header normalisation ----------------------------------------------------

  /** Replaces every maximal run of white space by a single `_`. */
  function CollapseSpaces(s: string): (r: string)
    ensures !HasSpace(r)
    ensures |r| <= |s|
    ensures (forall i :: 0 <= i < |s| ==> LowerChar(s[i]) == s[i]) ==>
            (forall i :: 0 <= i < |r| ==> LowerChar(r[i]) == r[i])
    decreases |s|
  {
    if |s| == 0 then ""
    else if IsSpace(s[0]) then
      var rest := TrimStart(s[1..]);
      "_" + CollapseSpaces(rest)
    else [s[0]] + CollapseSpaces(s[1..])
  }

  /** `header.toLowerCase().replace(/\s+/g, '_')` */
  function NormalizeHeader(h: string): (k: string)
  {
    CollapseSpaces(Lower(h))
  }

  lemma {:induction false} CollapseWithoutSpaces(s: string)
    requires !HasSpace(s)
    ensures CollapseSpaces(s) == s
    decreases |s|
  {
    if |s| > 0 {
      assert !IsSpace(s[0]);
      assert !HasSpace(s[1..]) by {
        forall i | 0 <= i < |s[1..]| ensures !IsSpace(s[1..][i]) {
          assert s[1..][i] == s[i + 1];
        }
      }
      CollapseWithoutSpaces(s[1..]);
    }
  }

  /** A normalised key contains no white space and is its own normal form. */
  lemma NormalizeHeaderIdempotent(h: string)
    ensures !HasSpace(NormalizeHeader(h))
    ensures NormalizeHeader(NormalizeHeader(h)) == NormalizeHeader(h)
  {
    var k := NormalizeHeader(h);
    assert forall i :: 0 <= i < |k| ==> LowerChar(k[i]) == k[i];
    assert Lower(k) == k;
    CollapseWithoutSpaces(k);
  }

  /** A header without white space is only lower-cased. */
  lemma NormalizeHeaderWithoutSpaces(h: string)
    requires !HasSpace(h)
    ensures NormalizeHeader(h) == Lower(h)
  {
    LowerKeepsSpaces(h);
    CollapseWithoutSpaces(Lower(h));
  }

  // ---- Rows to records ---------------------------------------------------------

  /** `row[i] || ''`: a cell past the end of a short row reads as empty. */
  function CellAt(row: seq<string>, i: nat): string
  {
    if i < |row| then row[i] else ""
  }

  /** The record of one data row, as the source builds it: first the `id`
      entry, then one entry per header column in order, so a later column
      overwrites an earlier one with the same normalised key. */
  function RecordOf(headers: seq<string>, row: seq<string>, id: int): Record
    decreases |headers|
  {
    if |headers| == 0 then map["id" := Num(id)]
    else
      var n := |headers| - 1;
      RecordOf(headers[..n], row, id)[NormalizeHeader(headers[n]) := Str(CellAt(row, n))]
  }

  /** The normalised key of every header column. */
  function HeaderKeys(headers: seq<string>): (ks: seq<string>)
    ensures |ks| == |headers|
    ensures forall i :: 0 <= i < |headers| ==> ks[i] == NormalizeHeader(headers[i])
  {
    seq(|headers|, i requires 0 <= i < |headers| => NormalizeHeader(headers[i]))
  }

  /** What a record holds, key by key: the keys are `id` and the normalised
      headers; a key comes from the last column that normalises to it (so a
      header normalising to `id` replaces the synthetic id), and `id` keeps
      the row number otherwise. */
  lemma {:induction false} RecordOfLookup(headers: seq<string>, row: seq<string>, id: int, key: string)
    ensures var c := LastIndexOf(HeaderKeys(headers), key);
            && (key in RecordOf(headers, row, id) <==> key == "id" || c >= 0)
            && (c >= 0 ==> RecordOf(headers, row, id)[key] == Str(CellAt(row, c)))
            && (key == "id" && c < 0 ==> RecordOf(headers, row, id)[key] == Num(id))
    decreases |headers|
  {
    if |headers| > 0 {
      var n := |headers| - 1;
      assert HeaderKeys(headers)[..n] == HeaderKeys(headers[..n]);
      RecordOfLookup(headers[..n], row, id, key);
    }
  }

  /** The records of a whole grid: the first row holds the headers, each later
      row becomes one record numbered from 1; an empty grid gives none. */
  function ToRecords(grid: seq<seq<string>>): (rs: seq<Record>)
    ensures |rs| == if |grid| == 0 then 0 else |grid| - 1
  {
    if |grid| == 0 then []
    else seq(|grid| - 1, j requires 0 <= j < |grid| - 1 => RecordOf(grid[0], grid[j + 1], j + 1))
  }

  /** The `headers.forEach` loop that fills one record object. */
  method BuildRecord(headers: seq<string>, row: seq<string>, index: nat) returns (obj: Record)
    ensures obj == RecordOf(headers, row, index + 1)
    ensures "id" in obj
  {
    obj := map["id" := Num(index + 1)];
    var i := 0;
    while i < |headers|
      invariant 0 <= i <= |headers|
      invariant obj == RecordOf(headers[..i], row, index + 1)
    {
      assert headers[..i + 1][..i] == headers[..i];
      obj := obj[NormalizeHeader(headers[i]) := Str(CellAt(row, i))];
      i := i + 1;
    }
    assert headers[..i] == headers;
    RecordOfLookup(headers, row, index + 1, "id");
  }

  /** The `data.map` over the rows below the header row. */
  method RowsToRecords(grid: seq<seq<string>>) returns (records: seq<Record>)
    ensures records == ToRecords(grid)
    ensures |grid| > 0 ==> |records| == |grid| - 1
    ensures forall j :: 0 <= j < |records| ==> "id" in records[j]
  {
    records := [];
    if |grid| == 0 {
      return;
    }
    var headers := grid[0];
    ghost var all := ToRecords(grid);
    var j := 0;
    while j < |grid| - 1
      invariant 0 <= j <= |grid| - 1
      invariant records == all[..j]
      invariant forall k :: 0 <= k < j ==> "id" in records[k]
    {
      var obj := BuildRecord(headers, grid[j + 1], j);
      assert obj == all[j];
      PrefixSnoc(all, j);
      records := records + [obj];
      j := j + 1;
    }
    assert all[..j] == all;
  }

  /** A complete service account (e-mail and private key), or else an API key. */
  predicate HasAuth(config: Config)
  {
    (config.clientEmail != "" && config.privateKey != "") || config.apiKey != ""
  }

  /** `getGoogleSheetsData`: fails without a sheet id, without credentials
      (neither a complete service account nor an API key) or when the request
      fails; otherwise the records of the fetched grid. */
  function GetSheetData(config: Config, fetch: Fetch): (r: SheetResult)
    ensures config.sheetId == "" ==> r == Err(SheetIdMissing)
    ensures config.sheetId != "" && !HasAuth(config) ==> r == Err(NoAuthentication)
    ensures r.Ok? <==> config.sheetId != "" && HasAuth(config) && fetch.Fetched?
    ensures r.Ok? ==> r.records == ToRecords(fetch.values)
  {
    if config.sheetId == "" then Err(SheetIdMissing)
    else
      var useServiceAccount := config.clientEmail != "" && config.privateKey != "";
      if !useServiceAccount && config.apiKey == "" then Err(NoAuthentication)
      else
        match fetch
        case TransportFailure => Err(RequestFailed)
        case Fetched(values) => Ok(ToRecords(values))
  }
}
