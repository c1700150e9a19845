// The shared data store of the dashboard (src/contexts/DataContext.tsx): four
// collections loaded from the API routes, a loading flag, an error message and
// the time of the last completed load, with a five-second debounce.
//
// Clock readings and the outcome of the four parallel requests are parameters:
// `now` is the reading taken when a load starts, `finishedAt` the reading
// stored once the responses have been decoded.

module DataStore {
  import opened Wrappers
  import opened SheetMappers

  /** One decoded API response: `{ success, data }`. */
  datatype Feed<T> = Feed(success: bool, data: seq<T>)

  /** A number after the JSON round trip of a response body. JSON has no
      `NaN`: `NextResponse.json` writes it as `null`, and `res.json()` reads
      `null` back. */
  datatype JsonNumber = JsonNull | JsonNum(value: int)

  /** How a count computed on the server arrives in the browser. */
  function OverJson(n: Option<int>): JsonNumber
  {
    if n.Some? then JsonNum(n.value) else JsonNull
  }

  /** A campaign as the browser holds it after decoding the response body. */
  datatype Campaign = Campaign(
    id: int, name: string, status: string, emailsSent: JsonNumber, openedCount: JsonNumber,
    clicked: JsonNumber, responded: JsonNumber, dateCreated: string)

  /** One campaign written by the route and read back by the data store. */
  function DecodeCampaign(c: CampaignData): (d: Campaign)
    ensures d.id == c.id && d.name == c.name && d.status == c.status && d.dateCreated == c.dateCreated
    ensures d.emailsSent.JsonNull? <==> c.emailsSent.None?
    ensures d.openedCount.JsonNull? <==> c.openedCount.None?
    ensures d.clicked.JsonNull? <==> c.clicked.None?
    ensures d.responded.JsonNull? <==> c.responded.None?
    ensures d.emailsSent.JsonNum? ==> c.emailsSent == Some(d.emailsSent.value)
    ensures d.openedCount.JsonNum? ==> c.openedCount == Some(d.openedCount.value)
    ensures d.clicked.JsonNum? ==> c.clicked == Some(d.clicked.value)
    ensures d.responded.JsonNum? ==> c.responded == Some(d.responded.value)
  {
    Campaign(c.id, c.name, c.status, OverJson(c.emailsSent), OverJson(c.openedCount),
             OverJson(c.clicked), OverJson(c.responded), c.dateCreated)
  }

  /** The campaigns route's body as the browser decodes it: `{ success: true, data }`. */
  function CampaignsResponse(campaigns: seq<CampaignData>): (f: Feed<Campaign>)
    ensures f.success && |f.data| == |campaigns|
    ensures forall i :: 0 <= i < |campaigns| ==> f.data[i] == DecodeCampaign(campaigns[i])
  {
    Feed(true, seq(|campaigns|, i requires 0 <= i < |campaigns| => DecodeCampaign(campaigns[i])))
  }

  /** What the four parallel requests produced: four decoded bodies, or a rejection. */
  datatype Outcome =
    | Responses(websites: Feed<WebsiteDetail>, keywords: Feed<KeywordData>,
                campaigns: Feed<Campaign>, emails: Feed<EmailData>)
    | Thrown

  /** Everything the provider exposes, as one value. */
  datatype Snapshot = Snapshot(
    websites: seq<WebsiteDetail>, keywords: seq<KeywordData>,
    campaigns: seq<Campaign>, emails: seq<EmailData>,
    loading: bool, error: Option<string>, lastFetchTime: Option<int>)

  const DebounceMillis: int := 5000
  const AllFeedsFailed: string := "Failed to fetch data from Google Sheets"
  const ConnectFailed: string := "Failed to connect to API"

  const Initial: Snapshot := Snapshot([], [], [], [], false, None, None)

  /** A response's payload when it reports success, otherwise nothing. */
  function DataOr<T>(f: Feed<T>): seq<T>
  {
    if f.success then f.data else []
  }

  /** The last completed load is less than five seconds old. */
  predicate IsFresh(s: Snapshot, now: int)
  {
    s.lastFetchTime.Some? && now - s.lastFetchTime.value < DebounceMillis
  }

  predicate AllFailed(o: Outcome)
    requires o.Responses?
  {
    !o.websites.success && !o.keywords.success && !o.campaigns.success && !o.emails.success
  }

  /** The state after one call of fetchAllData. */
  function FetchStep(s: Snapshot, now: int, finishedAt: int, o: Outcome): Snapshot
  {
    if IsFresh(s, now) then s
    else match o
      case Thrown =>
        s.(loading := false, error := Some(ConnectFailed))
      case Responses(w, k, c, e) =>
        Snapshot(DataOr(w), DataOr(k), DataOr(c), DataOr(e), false,
                 if AllFailed(o) then Some(AllFeedsFailed) else None,
                 Some(finishedAt))
  }

  /** The state after refreshData: the timestamp is cleared, then a load runs. */
  function Refresh(s: Snapshot, now: int, finishedAt: int, o: Outcome): Snapshot
  {
    FetchStep(s.(lastFetchTime := None), now, finishedAt, o)
  }

  /** A load within five seconds of the previous one changes nothing. */
  lemma DebouncedIsNoOp(s: Snapshot, now: int, finishedAt: int, o: Outcome)
    requires s.lastFetchTime.Some? && now - s.lastFetchTime.value < 5000
    ensures FetchStep(s, now, finishedAt, o) == s
  {
  }

  /** Each collection becomes its response's payload when that response succeeded, and empty otherwise. */
  lemma ResponsesReplaceCollections(s: Snapshot, now: int, finishedAt: int, o: Outcome)
    requires !IsFresh(s, now) && o.Responses?
    ensures var t := FetchStep(s, now, finishedAt, o);
      && (o.websites.success ==> t.websites == o.websites.data)
      && (!o.websites.success ==> t.websites == [])
      && (o.keywords.success ==> t.keywords == o.keywords.data)
      && (!o.keywords.success ==> t.keywords == [])
      && (o.campaigns.success ==> t.campaigns == o.campaigns.data)
      && (!o.campaigns.success ==> t.campaigns == [])
      && (o.emails.success ==> t.emails == o.emails.data)
      && (!o.emails.success ==> t.emails == [])
      && t.lastFetchTime == Some(finishedAt)
  {
  }

  /** After decoded responses, an error is reported exactly when all four requests failed. */
  lemma ErrorOnlyWhenAllFail(s: Snapshot, now: int, finishedAt: int, o: Outcome)
    requires !IsFresh(s, now) && o.Responses?
    ensures var t := FetchStep(s, now, finishedAt, o);
      && (t.error.Some? <==> !o.websites.success && !o.keywords.success
                             && !o.campaigns.success && !o.emails.success)
      && (t.error.Some? ==> t.error.value == "Failed to fetch data from Google Sheets")
  {
  }

  /** A rejected request keeps the previous collections and timestamp and reports the connection error. */
  lemma ThrownKeepsData(s: Snapshot, now: int, finishedAt: int)
    requires !IsFresh(s, now)
    ensures var t := FetchStep(s, now, finishedAt, Thrown);
      && t.websites == s.websites && t.keywords == s.keywords
      && t.campaigns == s.campaigns && t.emails == s.emails
      && t.lastFetchTime == s.lastFetchTime
      && t.error == Some("Failed to connect to API")
  {
  }

  /** No call leaves the store loading if it was not loading before. */
  lemma LoadingSettles(s: Snapshot, now: int, finishedAt: int, o: Outcome)
    requires !s.loading
    ensures !FetchStep(s, now, finishedAt, o).loading
    ensures !Refresh(s, now, finishedAt, o).loading
  {
  }

  /** A completed load debounces every further load that starts less than five seconds after it finished. */
  lemma FetchThenDebounce(s: Snapshot, now: int, finishedAt: int, o: Outcome,
                          later: int, finishedLater: int, o2: Outcome)
    requires !IsFresh(s, now) && o.Responses?
    requires later - finishedAt < 5000
    ensures var t := FetchStep(s, now, finishedAt, o);
      FetchStep(t, later, finishedLater, o2) == t
  {
  }

  /** A rejected load leaves no fresh timestamp behind: the next load, at any later time, runs. */
  lemma ThrownNotDebounced(s: Snapshot, now: int, finishedAt: int, later: int)
    requires !IsFresh(s, now) && now <= later
    ensures !IsFresh(FetchStep(s, now, finishedAt, Thrown), later)
  {
  }

  /** A refresh always loads, however recent the last load was. */
  lemma RefreshAlwaysFetches(s: Snapshot, now: int, finishedAt: int, o: Outcome)
    requires o.Responses?
    ensures Refresh(s, now, finishedAt, o).lastFetchTime == Some(finishedAt)
    ensures Refresh(s, now, finishedAt, o).websites == DataOr(o.websites)
  {
  }

  /** The provider's state, updated in place by its two actions. */
  class DataProvider {
    var websites: seq<WebsiteDetail>
    var keywords: seq<KeywordData>
    var campaigns: seq<Campaign>
    var emails: seq<EmailData>
    var loading: bool
    var error: Option<string>
    var lastFetchTime: Option<int>

    function State(): Snapshot
      reads this
    {
      Snapshot(websites, keywords, campaigns, emails, loading, error, lastFetchTime)
    }

    constructor()
      ensures State() == Initial
    {
      websites, keywords, campaigns, emails := [], [], [], [];
      loading, error, lastFetchTime := false, None, None;
    }

    /** fetchAllData: debounce, then load the four collections or record the failure. */
    method FetchAllData(now: int, finishedAt: int, o: Outcome)
      modifies this
      ensures State() == FetchStep(old(State()), now, finishedAt, o)
    {
      if lastFetchTime.Some? && now - lastFetchTime.value < DebounceMillis {
        return;
      }
      loading := true;
      error := None;
      match o {
        case Thrown =>
          error := Some(ConnectFailed);
        case Responses(w, k, c, e) =>
          websites := if w.success then w.data else [];
          keywords := if k.success then k.data else [];
          campaigns := if c.success then c.data else [];
          emails := if e.success then e.data else [];
          lastFetchTime := Some(finishedAt);
          if !w.success && !k.success && !c.success && !e.success {
            error := Some(AllFeedsFailed);
          }
      }
      loading := false;
    }

    /** refreshData: clear the timestamp, then load. */
    method RefreshData(now: int, finishedAt: int, o: Outcome)
      modifies this
      ensures State() == Refresh(old(State()), now, finishedAt, o)
    {
      lastFetchTime := None;
      FetchAllData(now, finishedAt, o);
    }
  }
}
