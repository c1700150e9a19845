/**
 * The domain mappers of src/lib/googleSheets.ts: each takes the outcome of
 * the access layer for its sheet and produces typed entities, choosing each
 * field from a list of alias columns, applying defaults and deriving
 * statuses. Every mapper catches a failed access and returns no entities.
 *
 * The current date, which several mappers use as a default, is the parameter
 * `today` (the `YYYY-MM-DD` part of an ISO timestamp in the source).
 */
module SheetMappers {
  import opened Wrappers
  import opened TextUtil
  import opened SeqUtil
  import opened JsNumbers
  import opened SheetRows

  // ---- Reading fields of a raw record -----------------------------------------

  /** JavaScript truthiness of `row[key]`: present, and neither `''` nor `0`. */
  predicate Truthy(row: Record, key: string)
  {
    key in row &&
    match row[key]
    case Str(s) => s != ""
    case Num(n) => n != 0
  }

  /** `String(v)` */
  function AsText(v: Value): string
  {
    match v
    case Str(s) => s
    case Num(n) => IntToString(n)
  }

  /** The text of a truthy value is non-empty. */
  lemma TruthyText(row: Record, key: string)
    ensures Truthy(row, key) ==> AsText(row[key]) != ""
  {
    if key in row && row[key].Num? {
      var v := row[key];
      var m: nat := if v.n < 0 then -v.n else v.n;
      assert |NatToString(m)| >= 1;
    }
  }

  /** `String(row[k1] || row[k2] || ... || default)`: the first alias whose
      value is non-empty, else the default. */
  function Pick(row: Record, keys: seq<string>, default: string): (r: string)
    ensures (forall i :: 0 <= i < |keys| ==> !Truthy(row, keys[i])) ==> r == default
    ensures forall i :: 0 <= i < |keys| && Truthy(row, keys[i])
              && (forall j :: 0 <= j < i ==> !Truthy(row, keys[j]))
              ==> r == AsText(row[keys[i]])
  {
    if |keys| == 0 then default
    else if Truthy(row, keys[0]) then AsText(row[keys[0]])
    else
      var r := Pick(row, keys[1..], default);
      assert forall i :: 1 <= i < |keys| ==> keys[i] == keys[1..][i - 1];
      r
  }

  /** `parseInt(String(row[k1] || ... || '0'))`; `None` is `NaN`. */
  function PickCount(row: Record, keys: seq<string>): Option<int>
  {
    ParseInt(Pick(row, keys, "0"))
  }

  /** A count whose alias columns are all empty is 0, not `NaN`. */
  lemma PickCountDefault(row: Record, keys: seq<string>)
    requires forall i :: 0 <= i < |keys| ==> !Truthy(row, keys[i])
    ensures PickCount(row, keys) == Some(0)
  {
    ParseIntZeroDefault();
  }

  /** A count taken from a cell holding a rendered integer is that integer. */
  lemma PickCountReadsInteger(row: Record, key: string, n: int)
    requires key in row && row[key] == Str(IntToString(n))
    ensures PickCount(row, [key]) == Some(n)
  {
    assert IntToString(n) != "" by {
      assert |NatToString(if n < 0 then -n else n)| >= 1;
    }
    assert Truthy(row, [key][0]);
    ParseIntRoundTrip(n);
  }

  // ---- Entities ------------------------------------------------------------------

  datatype WebsiteData = WebsiteData(
    id: int, url: string, title: string, category: string, dateFound: string,
    emailsExtracted: int, status: string)

  datatype WebsiteDetail = WebsiteDetail(
    id: int, url: string, title: string, description: string, category: string,
    dateFound: string, contactStatus: string, contactEmail: string, contactName: string,
    socialLinks: string, keywordsUsed: string, platform: string)

  /** Counts are `parseInt` results, so each may be `NaN` (`None`). */
  datatype CampaignData = CampaignData(
    id: int, name: string, status: string, emailsSent: Option<int>, openedCount: Option<int>,
    clicked: Option<int>, responded: Option<int>, dateCreated: string)

  datatype EmailData = EmailData(
    id: int, email: string, website: string, status: string, dateSent: Option<string>,
    response: string, subject: string)

  datatype KeywordData = KeywordData(id: int, date: string, keywords: string, keywordsList: seq<string>)

  datatype DashboardMetric = DashboardMetric(metric: string, value: string, lastUpdated: string)

  datatype AnalyticsData = AnalyticsData(
    id: int, date: string, requests: Option<int>, delivered: Option<int>, bounces: Option<int>,
    opens: Option<int>, uniqueOpens: Option<int>, clicks: Option<int>, uniqueClicks: Option<int>,
    spamReports: Option<int>, unsubscribes: Option<int>, blocks: Option<int>)

  /** The rows a mapper works on: none when the access layer failed. */
  function RowsOf(data: SheetResult): seq<Record>
  {
    match data
    case Ok(rows) => rows
    case Err(_) => []
  }

  // ---- getWebsitesData -----------------------------------------------------------

  /** One row of the websites sheet. A website is `processed` exactly when its
      contact status reads `email_sent` in any letter case, and `pending`
      otherwise; it counts one extracted e-mail exactly when it has a contact
      e-mail, and none otherwise. */
  function ToWebsite(row: Record, id: int, today: string): (w: WebsiteData)
    ensures w.id == id
    ensures w.status == "processed" <==> Lower(Pick(row, ["contact_status"], "")) == "email_sent"
    ensures w.status == "processed" || w.status == "pending"
    ensures w.emailsExtracted == (if Truthy(row, "contact_email") then 1 else 0)
    ensures !Truthy(row, "keywords_used") && !Truthy(row, "category") ==> w.category == "Uncategorized"
    ensures !Truthy(row, "discovery_date") && !Truthy(row, "date_found") && !Truthy(row, "date")
            ==> w.dateFound == today
  {
    var status := Lower(Pick(row, ["contact_status"], ""));
    WebsiteData(
      id,
      Pick(row, ["website_url", "url", "website"], ""),
      Pick(row, ["title", "name"], ""),
      Pick(row, ["keywords_used", "category"], "Uncategorized"),
      Pick(row, ["discovery_date", "date_found", "date"], today),
      if Truthy(row, "contact_email") then 1 else 0,
      if status == "email_sent" then "processed"
      else if status == "pending" then "pending"
      else "pending")
  }

  /** `getWebsitesData`: one website per row, in order, numbered from 1; none
      when the sheet could not be read. */
  function WebsitesData(data: SheetResult, today: string): (ws: seq<WebsiteData>)
    ensures data.Err? ==> ws == []
    ensures |ws| == |RowsOf(data)|
    ensures forall i :: 0 <= i < |ws| ==> ws[i] == ToWebsite(RowsOf(data)[i], i + 1, today)
    ensures forall i :: 0 <= i < |ws| ==> ws[i].id == i + 1
  {
    Numbered(RowsOf(data), (row, id) => ToWebsite(row, id, today))
  }

  // ---- getWebsitesDetailData -----------------------------------------------------

  /** `String(row.description || '').substring(0, 100) + '...'`: at most the
      first 100 characters of the description, always followed by `...`. */
  function Description(row: Record): (d: string)
    ensures 3 <= |d| <= 103
    ensures d[|d| - 3..] == "..."
    ensures d[..|d| - 3] == Take(Pick(row, ["description"], ""), 100)
    ensures !Truthy(row, "description") ==> d == "..."
  {
    Take(Pick(row, ["description"], ""), 100) + "..."
  }

  /** One row of the detailed websites sheet: the contact status is kept as
      written, `Pending` when empty, and the category is `Uncategorized`
      when no keywords were recorded. */
  function ToWebsiteDetail(row: Record, id: int): (w: WebsiteDetail)
    ensures w.id == id
    ensures w.description == Description(row)
    ensures Truthy(row, "contact_status") ==> w.contactStatus == AsText(row["contact_status"])
    ensures !Truthy(row, "contact_status") ==> w.contactStatus == "Pending"
    ensures !Truthy(row, "keywords_used") ==> w.category == "Uncategorized" && w.keywordsUsed == ""
    ensures Truthy(row, "keywords_used") ==> w.category == w.keywordsUsed == AsText(row["keywords_used"])
  {
    WebsiteDetail(
      id,
      Pick(row, ["website_url"], ""),
      Pick(row, ["title"], ""),
      Description(row),
      Pick(row, ["keywords_used"], "Uncategorized"),
      Pick(row, ["discovery_date"], ""),
      Pick(row, ["contact_status"], "Pending"),
      Pick(row, ["contact_email"], ""),
      Pick(row, ["contact_name"], ""),
      Pick(row, ["social_links"], ""),
      Pick(row, ["keywords_used"], ""),
      Pick(row, ["platform"], ""))
  }

  /** `getWebsitesDetailData`: one entry per row, in order, numbered from 1. */
  function WebsitesDetailData(data: SheetResult): (ws: seq<WebsiteDetail>)
    ensures data.Err? ==> ws == []
    ensures |ws| == |RowsOf(data)|
    ensures forall i :: 0 <= i < |ws| ==> ws[i] == ToWebsiteDetail(RowsOf(data)[i], i + 1)
    ensures forall i :: 0 <= i < |ws| ==> ws[i].id == i + 1
  {
    Numbered(RowsOf(data), (row, id) => ToWebsiteDetail(row, id))
  }

  // ---- getCampaignsData ----------------------------------------------------------

  /** One row of the campaigns sheet: the status defaults to `active`, and a
      count whose alias columns are all empty is 0. */
  function ToCampaign(row: Record, id: int, today: string): (c: CampaignData)
    ensures c.id == id
    ensures !Truthy(row, "status") ==> c.status == "active"
    ensures !Truthy(row, "date_created") && !Truthy(row, "date") ==> c.dateCreated == today
  {
    CampaignData(
      id,
      Pick(row, ["name", "campaign_name"], ""),
      Pick(row, ["status"], "active"),
      PickCount(row, ["emails_sent", "sent"]),
      PickCount(row, ["opened", "opens"]),
      PickCount(row, ["clicked", "clicks"]),
      PickCount(row, ["responded", "responses"]),
      Pick(row, ["date_created", "date"], today))
  }

  /** The four counts of a campaign. */
  datatype CampaignCount = EmailsSent | Opened | Clicked | Responded

  /** The alias columns of each count, in the order they are tried. */
  function CountColumns(which: CampaignCount): seq<string>
  {
    match which
    case EmailsSent => ["emails_sent", "sent"]
    case Opened => ["opened", "opens"]
    case Clicked => ["clicked", "clicks"]
    case Responded => ["responded", "responses"]
  }

  function CountOf(c: CampaignData, which: CampaignCount): Option<int>
  {
    match which
    case EmailsSent => c.emailsSent
    case Opened => c.openedCount
    case Clicked => c.clicked
    case Responded => c.responded
  }

  /** Each campaign count is `parseInt` of its first truthy alias column, and
      0, not `NaN`, when all of them are empty. */
  lemma CampaignCountDefaults(row: Record, id: int, today: string, which: CampaignCount)
    ensures CountOf(ToCampaign(row, id, today), which) == PickCount(row, CountColumns(which))
    ensures (forall i :: 0 <= i < |CountColumns(which)| ==> !Truthy(row, CountColumns(which)[i])) ==>
              CountOf(ToCampaign(row, id, today), which) == Some(0)
  {
    var keys := CountColumns(which);
    if forall i :: 0 <= i < |keys| ==> !Truthy(row, keys[i]) {
      PickCountDefault(row, keys);
    }
  }

  /** `getCampaignsData`: one campaign per row, in order, numbered from 1. */
  function CampaignsData(data: SheetResult, today: string): (cs: seq<CampaignData>)
    ensures data.Err? ==> cs == []
    ensures |cs| == |RowsOf(data)|
    ensures forall i :: 0 <= i < |cs| ==> cs[i] == ToCampaign(RowsOf(data)[i], i + 1, today)
    ensures forall i :: 0 <= i < |cs| ==> cs[i].id == i + 1
  {
    Numbered(RowsOf(data), (row, id) => ToCampaign(row, id, today))
  }

  // ---- getEmailsData -------------------------------------------------------------

  /** One row of the e-mails sheet: status `pending` and response `none` by
      default; the sending date is null exactly when its cell is empty. */
  function ToEmail(row: Record, id: int): (e: EmailData)
    ensures e.id == id
    ensures e.dateSent.None? <==> !Truthy(row, "date_sent")
    ensures e.dateSent.Some? ==> e.dateSent.value == AsText(row["date_sent"])
    ensures !Truthy(row, "status") ==> e.status == "pending"
    ensures !Truthy(row, "response") ==> e.response == "none"
  {
    EmailData(
      id,
      Pick(row, ["email"], ""),
      Pick(row, ["website"], ""),
      Pick(row, ["status"], "pending"),
      if Truthy(row, "date_sent") then Some(AsText(row["date_sent"])) else None,
      Pick(row, ["response"], "none"),
      Pick(row, ["subject"], ""))
  }

  /** `getEmailsData`: one e-mail per row, in order, numbered from 1. */
  function EmailsData(data: SheetResult): (es: seq<EmailData>)
    ensures data.Err? ==> es == []
    ensures |es| == |RowsOf(data)|
    ensures forall i :: 0 <= i < |es| ==> es[i] == ToEmail(RowsOf(data)[i], i + 1)
    ensures forall i :: 0 <= i < |es| ==> es[i].id == i + 1
  {
    Numbered(RowsOf(data), (row, id) => ToEmail(row, id))
  }

  // ---- getKeywordsData -----------------------------------------------------------

  /** `k => k`: a string is truthy when it is not empty. */
  predicate NonEmptyText(k: string)
  {
    k != ""
  }

  /** `s.split(',').map(k => k.trim()).filter(k => k)`: the comma-separated
      entries, trimmed, without the empty ones. */
  function KeywordList(s: string): (ks: seq<string>)
    ensures forall i :: 0 <= i < |ks| ==> ks[i] != "" && ',' !in ks[i]
    ensures forall i :: 0 <= i < |ks| ==> !IsSpace(ks[i][0]) && !IsSpace(ks[i][|ks[i]| - 1])
    ensures |ks| <= |Split(s, ',')|
  {
    var trimmed := TrimAll(Split(s, ','), ',');
    var ks := Filter(trimmed, NonEmptyText);
    KeptPiecesTrimmed(trimmed, ks);
    ks
  }

  /** Non-empty entries of a trimmed, comma-free list are themselves trimmed and comma-free. */
  lemma KeptPiecesTrimmed(trimmed: seq<string>, ks: seq<string>)
    requires forall i :: 0 <= i < |trimmed| ==> ',' !in trimmed[i]
    requires forall i :: 0 <= i < |trimmed| ==>
      trimmed[i] == [] || (!IsSpace(trimmed[i][0]) && !IsSpace(trimmed[i][|trimmed[i]| - 1]))
    requires forall k :: k in ks ==> k in trimmed && k != ""
    ensures forall i :: 0 <= i < |ks| ==> ks[i] != "" && ',' !in ks[i]
    ensures forall i :: 0 <= i < |ks| ==> !IsSpace(ks[i][0]) && !IsSpace(ks[i][|ks[i]| - 1])
  {
    forall i | 0 <= i < |ks|
      ensures ks[i] != "" && ',' !in ks[i] && !IsSpace(ks[i][0]) && !IsSpace(ks[i][|ks[i]| - 1])
    {
      assert ks[i] in ks;
      var j :| 0 <= j < |trimmed| && trimmed[j] == ks[i];
    }
  }

  /** Exactly the non-empty trimmed comma-separated pieces are kept, in their
      order and as often as they occur. */
  lemma KeywordListPieces(s: string)
    ensures forall p :: p in Split(s, ',') && Trim(p) != "" ==> Trim(p) in KeywordList(s)
    ensures forall k :: k in KeywordList(s) ==> exists p :: p in Split(s, ',') && k == Trim(p)
    ensures IsSubsequence(KeywordList(s), TrimAll(Split(s, ','), ','))
    ensures forall k :: k != "" ==> Count(KeywordList(s), k) == Count(TrimAll(Split(s, ','), ','), k)
  {
    var pieces := Split(s, ',');
    var trimmed := TrimAll(pieces, ',');
    var nonEmpty := NonEmptyText;
    assert KeywordList(s) == Filter(trimmed, nonEmpty);
    KeptNonEmptyTrimmed(pieces, trimmed, KeywordList(s));
    forall k | k != "" ensures Count(KeywordList(s), k) == Count(trimmed, k) {
      FilterCount(trimmed, nonEmpty, k);
    }
  }

  /** A keyword as it is written: non-empty, comma-free, not starting or ending with white space. */
  predicate IsBareWord(w: string)
  {
    |w| > 0 && !IsSpace(w[0]) && !IsSpace(w[|w| - 1]) && ',' !in w
  }

  /** Three comma pieces, the last two after a space, list the three words. */
  lemma ThreeKeywords(s: string, a: string, b: string, c: string)
    requires IsBareWord(a) && IsBareWord(b) && IsBareWord(c)
    requires Split(s, ',') == [a, " " + b, " " + c]
    ensures KeywordList(s) == [a, b, c]
  {
    KeywordListOfPieces(s, [a, " " + b, " " + c]);
    ThreeTrimmed(a, b, c);
    KeepThree(a, b, c);
  }

  lemma ThreeTrimmed(a: string, b: string, c: string)
    requires IsBareWord(a) && IsBareWord(b) && IsBareWord(c)
    ensures TrimAll([a, " " + b, " " + c], ',') == [a, b, c]
  {
    TrimUnchanged(a);
    TrimAfterSpace(b);
    TrimAfterSpace(c);
    TrimAllThree(a, " " + b, " " + c);
  }

  /** Trimming three comma-free pieces trims each of them. */
  lemma TrimAllThree(p: string, q: string, r: string)
    requires ',' !in p && ',' !in q && ',' !in r
    ensures TrimAll([p, q, r], ',') == [Trim(p), Trim(q), Trim(r)]
  {
    var pieces := [p, q, r];
    var ts := TrimAll(pieces, ',');
    assert ts[0] == Trim(pieces[0]) && ts[1] == Trim(pieces[1]) && ts[2] == Trim(pieces[2]);
    ThreeElements(ts, Trim(p), Trim(q), Trim(r));
  }

  lemma ThreeElements<T>(xs: seq<T>, x: T, y: T, z: T)
    requires |xs| == 3 && xs[0] == x && xs[1] == y && xs[2] == z
    ensures xs == [x, y, z]
  {
  }

  lemma KeepThree(a: string, b: string, c: string)
    requires a != "" && b != "" && c != ""
    ensures Filter([a, b, c], NonEmptyText) == [a, b, c]
  {
    FilterKeepsAll([a, b, c], NonEmptyText);
  }

  /** Two comma pieces of white space list nothing. */
  lemma NoKeywords(s: string, a: string, b: string)
    requires forall i :: 0 <= i < |a| ==> IsSpace(a[i])
    requires forall i :: 0 <= i < |b| ==> IsSpace(b[i])
    requires Split(s, ',') == [a, b]
    ensures KeywordList(s) == []
  {
    KeywordListOfPieces(s, [a, b]);
    TrimSpaces(a);
    TrimSpaces(b);
    var trimmed := TrimAll([a, b], ',');
    assert trimmed[0] == "" && trimmed[1] == "";
    assert forall k :: k in Filter(trimmed, NonEmptyText) ==> k in trimmed && k != "";
  }

  /** The keyword list of a text whose comma pieces are known. */
  lemma KeywordListOfPieces(s: string, pieces: seq<string>)
    requires Split(s, ',') == pieces
    ensures KeywordList(s) == Filter(TrimAll(pieces, ','), NonEmptyText)
  {
  }

  lemma AfterSpace(p: string, w: string)
    requires |p| == |w| + 1 && p[0] == ' ' && forall i :: 0 <= i < |w| ==> p[i + 1] == w[i]
    ensures p == " " + w
  {
  }

  /** `SEO, gaming, outreach` lists its three keywords, in order. */
  lemma KeywordListExample()
    ensures KeywordList("SEO, gaming, outreach") == ["SEO", "gaming", "outreach"]
  {
    ExamplePieces();
    ExampleWords();
    ThreeKeywords("SEO, gaming, outreach", "SEO", "gaming", "outreach");
  }

  lemma ExamplePieces()
    ensures Split("SEO, gaming, outreach", ',') == ["SEO", " " + "gaming", " " + "outreach"]
  {
    AfterSpace(" gaming", "gaming");
    AfterSpace(" outreach", "outreach");
    ExampleJoin();
    ExampleCommaFree();
    SplitJoin(["SEO", " gaming", " outreach"], ',');
  }

  /** Three comma-free pieces joined by commas. */
  lemma JoinThree(a: string, b: string, c: string, s: string)
    requires |s| == |a| + |b| + |c| + 2
    requires forall i :: 0 <= i < |a| ==> s[i] == a[i]
    requires s[|a|] == ',' && s[|a| + |b| + 1] == ','
    requires forall i :: 0 <= i < |b| ==> s[|a| + 1 + i] == b[i]
    requires forall i :: 0 <= i < |c| ==> s[|a| + |b| + 2 + i] == c[i]
    ensures Join([a, b, c], [',']) == s
  {
    var bc := [b, c];
    assert [a, b, c][1..] == bc && bc[1..] == [c];
    assert Join(bc, [',']) == b + [','] + c;
    assert Join([a, b, c], [',']) == a + [','] + (b + [','] + c);
  }

  lemma ExampleJoin()
    ensures Join(["SEO", " gaming", " outreach"], [',']) == "SEO, gaming, outreach"
  {
    JoinThree("SEO", " gaming", " outreach", "SEO, gaming, outreach");
  }

  lemma ExampleCommaFree()
    ensures forall i :: 0 <= i < 3 ==> ',' !in ["SEO", " gaming", " outreach"][i]
  {
  }

  lemma ExampleWords()
    ensures IsBareWord("SEO") && IsBareWord("gaming") && IsBareWord("outreach")
  {
  }

  /** ` , ` lists no keywords. */
  lemma KeywordListBlank()
    ensures KeywordList(" , ") == []
  {
    var pieces := [" ", " "];
    assert Join(pieces, [',']) == " , ";
    SplitJoin(pieces, ',');
    NoKeywords(" , ", " ", " ");
  }

  /** Keeping the non-empty entries of the trimmed pieces keeps exactly the
      non-empty trims. */
  lemma KeptNonEmptyTrimmed(pieces: seq<string>, trimmed: seq<string>, ks: seq<string>)
    requires |trimmed| == |pieces|
    requires forall i :: 0 <= i < |trimmed| ==> trimmed[i] == Trim(pieces[i])
    requires forall k :: k in ks <==> k in trimmed && k != ""
    ensures forall p :: p in pieces && Trim(p) != "" ==> Trim(p) in ks
    ensures forall k :: k in ks ==> exists p :: p in pieces && k == Trim(p)
  {
    forall p | p in pieces && Trim(p) != "" ensures Trim(p) in ks {
      var i :| 0 <= i < |pieces| && pieces[i] == p;
      assert trimmed[i] == Trim(p);
    }
    forall k | k in ks ensures exists p :: p in pieces && k == Trim(p) {
      var i :| 0 <= i < |trimmed| && trimmed[i] == k;
      assert pieces[i] in pieces;
    }
  }

  /** `pieces.map(k => k.trim())`, keeping out a character none of the
      pieces holds. */
  function TrimAll(pieces: seq<string>, c: char): (ts: seq<string>)
    requires forall i :: 0 <= i < |pieces| ==> c !in pieces[i]
    ensures |ts| == |pieces|
    ensures forall i :: 0 <= i < |ts| ==> ts[i] == Trim(pieces[i]) && c !in ts[i]
    ensures forall i :: 0 <= i < |ts| ==> ts[i] == [] || (!IsSpace(ts[i][0]) && !IsSpace(ts[i][|ts[i]| - 1]))
  {
    TrimAllKeepsOut(pieces, c);
    seq(|pieces|, i requires 0 <= i < |pieces| => Trim(pieces[i]))
  }

  /** Trimming keeps out a character none of the pieces holds. */
  lemma TrimAllKeepsOut(pieces: seq<string>, c: char)
    requires forall i :: 0 <= i < |pieces| ==> c !in pieces[i]
    ensures forall i :: 0 <= i < |pieces| ==> c !in Trim(pieces[i])
  {
    forall i | 0 <= i < |pieces| ensures c !in Trim(pieces[i]) {
      TrimKeepsOut(pieces[i], c);
    }
  }

  predicate HasDateAndKeywords(row: Record)
  {
    Truthy(row, "date") && Truthy(row, "keywords")
  }

  /** One kept row of the keywords sheet, with its keyword list. */
  function ToKeyword(row: Record, id: int, today: string): (k: KeywordData)
    ensures k.id == id
    ensures HasDateAndKeywords(row) ==>
              && k.date == AsText(row["date"]) && k.date != ""
              && k.keywords == AsText(row["keywords"]) && k.keywords != ""
              && k.keywordsList == KeywordList(k.keywords)
  {
    TruthyText(row, "date");
    TruthyText(row, "keywords");
    var keywords := Pick(row, ["keywords"], "");
    KeywordData(
      id,
      Pick(row, ["date"], today),
      keywords,
      if keywords != "" then KeywordList(keywords) else [])
  }

  /** `getKeywordsData`: the rows having both a date and keywords, in order,
      renumbered from 1. */
  function KeywordsData(data: SheetResult, today: string): (ks: seq<KeywordData>)
    ensures data.Err? ==> ks == []
    ensures |ks| == |Filter(RowsOf(data), HasDateAndKeywords)|
    ensures forall i :: 0 <= i < |ks| ==>
              HasDateAndKeywords(Filter(RowsOf(data), HasDateAndKeywords)[i])
              && ks[i] == ToKeyword(Filter(RowsOf(data), HasDateAndKeywords)[i], i + 1, today)
    ensures forall i :: 0 <= i < |ks| ==> ks[i].id == i + 1
  {
    Numbered(Filter(RowsOf(data), HasDateAndKeywords), (row, id) => ToKeyword(row, id, today))
  }

  /** No row lacking a date or keywords produces an entry. */
  lemma KeywordsNeedDateAndText(data: SheetResult, today: string, row: Record)
    requires row in RowsOf(data) && !HasDateAndKeywords(row)
    ensures |KeywordsData(data, today)| < |RowsOf(data)|
  {
    var xs := RowsOf(data);
    var kept := Filter(xs, HasDateAndKeywords);
    FilterMissing(xs, HasDateAndKeywords, row);
  }

  // ---- getDashboardMetrics -------------------------------------------------------

  predicate HasMetricAndValue(row: Record)
  {
    Truthy(row, "metric") && Truthy(row, "value")
  }

  /** One kept row of the metrics sheet; it carries no id. */
  function ToMetric(row: Record): (m: DashboardMetric)
    requires HasMetricAndValue(row)
    ensures m.metric == AsText(row["metric"]) && m.metric != ""
    ensures m.value == AsText(row["value"]) && m.value != ""
    ensures !Truthy(row, "last_updated") ==> m.lastUpdated == ""
  {
    TruthyText(row, "metric");
    TruthyText(row, "value");
    DashboardMetric(Pick(row, ["metric"], ""), Pick(row, ["value"], "0"), Pick(row, ["last_updated"], ""))
  }

  /** `getDashboardMetrics`: the rows having both a metric and a value, in
      order. */
  function DashboardMetrics(data: SheetResult): (ms: seq<DashboardMetric>)
    ensures data.Err? ==> ms == []
    ensures |ms| == |Filter(RowsOf(data), HasMetricAndValue)|
    ensures forall i :: 0 <= i < |ms| ==>
              HasMetricAndValue(Filter(RowsOf(data), HasMetricAndValue)[i])
              && ms[i] == ToMetric(Filter(RowsOf(data), HasMetricAndValue)[i])
  {
    var kept := Filter(RowsOf(data), HasMetricAndValue);
    seq(|kept|, i requires 0 <= i < |kept| => ToMetric(kept[i]))
  }

  // ---- getAnalyticsData ----------------------------------------------------------

  predicate HasDate(row: Record)
  {
    Truthy(row, "date")
  }

  /** The ten counter columns of the analytics sheet, in field order. */
  const AnalyticsColumns: seq<string> := [
    "requests", "delivered", "bounces", "opens", "unique_opens",
    "clicks", "unique_clicks", "spam_reports", "unsubscribes", "blocks"]

  /** The ten counters of an analytics entry, in field order. */
  function Counters(a: AnalyticsData): (cs: seq<Option<int>>)
    ensures |cs| == |AnalyticsColumns|
  {
    [a.requests, a.delivered, a.bounces, a.opens, a.uniqueOpens,
     a.clicks, a.uniqueClicks, a.spamReports, a.unsubscribes, a.blocks]
  }

  /** The entry with the given counters, in field order. */
  function WithCounters(id: int, date: string, cs: seq<Option<int>>): (a: AnalyticsData)
    requires |cs| == |AnalyticsColumns|
    ensures a.id == id && a.date == date && Counters(a) == cs
  {
    AnalyticsData(id, date, cs[0], cs[1], cs[2], cs[3], cs[4], cs[5], cs[6], cs[7], cs[8], cs[9])
  }

  /** One kept row of the analytics sheet: the date, and each counter read
      from its own column. */
  function ToAnalytics(row: Record, id: int): (a: AnalyticsData)
    ensures a.id == id
    ensures HasDate(row) ==> a.date == AsText(row["date"]) && a.date != ""
    ensures forall k :: 0 <= k < |AnalyticsColumns| ==>
              Counters(a)[k] == PickCount(row, [AnalyticsColumns[k]])
  {
    TruthyText(row, "date");
    var counts := seq(|AnalyticsColumns|, k requires 0 <= k < |AnalyticsColumns| =>
                        PickCount(row, [AnalyticsColumns[k]]));
    WithCounters(id, Pick(row, ["date"], ""), counts)
  }

  /** An analytics counter whose column is empty is 0, not `NaN`. */
  lemma AnalyticsCountDefault(row: Record, id: int, k: int)
    requires 0 <= k < |AnalyticsColumns| && !Truthy(row, AnalyticsColumns[k])
    ensures Counters(ToAnalytics(row, id))[k] == Some(0)
  {
    PickCountDefault(row, [AnalyticsColumns[k]]);
  }

  /** `getAnalyticsData`: the rows having a date, in order, renumbered from 1. */
  function AnalyticsDataOf(data: SheetResult): (as_: seq<AnalyticsData>)
    ensures data.Err? ==> as_ == []
    ensures |as_| == |Filter(RowsOf(data), HasDate)|
    ensures forall i :: 0 <= i < |as_| ==>
              HasDate(Filter(RowsOf(data), HasDate)[i])
              && as_[i] == ToAnalytics(Filter(RowsOf(data), HasDate)[i], i + 1)
    ensures forall i :: 0 <= i < |as_| ==> as_[i].id == i + 1
  {
    Numbered(Filter(RowsOf(data), HasDate), ToAnalytics)
  }
}
