// The Semrush page (src/app/dashboard/semrush/page.tsx): the websites found
// through Semrush, their outreach counts, the campaign open rate, the search
// and status filter, and the status colours and badge text.
//
// Percentages are kept as the pair (part, whole) they are computed from;
// the floating-point division and `toFixed` formatting are not modelled.
// The campaigns are the decoded JSON the data store holds, so a count the
// mapper could not read arrives as `null`, not `NaN`.

module SemrushPage {
  import opened Wrappers
  import opened TextUtil
  import opened SeqUtil
  import opened SheetMappers
  import opened DataStore

  /** One row of the page's own projection of a website. */
  datatype SemrushSite = SemrushSite(
    id: int, url: string, title: string, contactEmail: string, contactName: string,
    contactStatus: string, dateFound: string, keywordsUsed: string,
    description: string, socialLinks: string)

  predicate IsSemrush(w: WebsiteDetail)
  {
    w.platform != "" && Lower(w.platform) == "semrush"
  }

  /** `w.contactStatus?.toLowerCase() || 'pending'` */
  function NormalStatus(status: string): string
  {
    if Lower(status) == "" then "pending" else Lower(status)
  }

  function Project(w: WebsiteDetail, id: int): SemrushSite
  {
    SemrushSite(id, w.url, w.title, w.contactEmail, w.contactName, NormalStatus(w.contactStatus),
                w.dateFound, w.keywordsUsed, w.description, w.socialLinks)
  }

  /** The Semrush websites, renumbered from 1 in their original order. */
  function SemrushWebsites(websites: seq<WebsiteDetail>): seq<SemrushSite>
  {
    Numbered(Filter(websites, IsSemrush), Project)
  }

  /**
   * Exactly the websites whose platform lower-cases to `semrush` are shown, in
   * order, numbered 1..n, with their fields carried over and a status that is
   * lower case and never empty.
   */
  lemma SemrushProjection(websites: seq<WebsiteDetail>)
    ensures var kept := Filter(websites, IsSemrush);
      var sites := SemrushWebsites(websites);
      && |sites| == |kept|
      && (forall w :: w in kept <==> w in websites && Lower(w.platform) == "semrush")
      && forall i :: 0 <= i < |sites| ==>
           && sites[i].id == i + 1
           && sites[i].url == kept[i].url && sites[i].title == kept[i].title
           && sites[i].contactEmail == kept[i].contactEmail
           && sites[i].contactStatus != ""
           && Lower(sites[i].contactStatus) == sites[i].contactStatus
           && (Lower(kept[i].contactStatus) != "" ==> sites[i].contactStatus == Lower(kept[i].contactStatus))
  {
    var kept := Filter(websites, IsSemrush);
    var sites := SemrushWebsites(websites);
    assert forall w :: IsSemrush(w) <==> Lower(w.platform) == "semrush";
    forall i | 0 <= i < |sites|
      ensures && sites[i].id == i + 1
              && sites[i].url == kept[i].url && sites[i].title == kept[i].title
              && sites[i].contactEmail == kept[i].contactEmail
              && sites[i].contactStatus != ""
              && Lower(sites[i].contactStatus) == sites[i].contactStatus
              && (Lower(kept[i].contactStatus) != "" ==> sites[i].contactStatus == Lower(kept[i].contactStatus))
    {
      assert sites[i] == Project(kept[i], i + 1);
      NormalStatusIsLower(kept[i].contactStatus);
    }
  }

  /** A normalised status is non-empty, lower case, and the lower-cased status when that is non-empty. */
  lemma NormalStatusIsLower(status: string)
    ensures NormalStatus(status) != ""
    ensures Lower(NormalStatus(status)) == NormalStatus(status)
    ensures Lower(status) != "" ==> NormalStatus(status) == Lower(status)
  {
    LowerIdempotent(status);
    assert Lower("pending") == "pending";
  }

  // ---- Stat counts ---------------------------------------------------------------

  predicate HasEmail(s: SemrushSite)
  {
    s.contactEmail != "" && Trim(s.contactEmail) != ""
  }

  predicate IsEmailSent(s: SemrushSite)
  {
    s.contactStatus == "email_sent"
  }

  predicate IsPending(s: SemrushSite)
  {
    s.contactStatus == "pending"
  }

  datatype Stats = Stats(total: nat, withEmail: nat, emailSent: nat, pending: nat)

  function StatsOf(sites: seq<SemrushSite>): Stats
  {
    Stats(|sites|, |Filter(sites, HasEmail)|, |Filter(sites, IsEmailSent)|, |Filter(sites, IsPending)|)
  }

  /** No site is counted both as sent and as pending, and no count exceeds the total. */
  lemma StatsBounded(sites: seq<SemrushSite>)
    ensures StatsOf(sites).emailSent + StatsOf(sites).pending <= StatsOf(sites).total
    ensures StatsOf(sites).withEmail <= StatsOf(sites).total
  {
    FilterDisjointBound(sites, IsEmailSent, IsPending);
  }

  // ---- Rates ---------------------------------------------------------------------

  /** A percentage as the two numbers it divides, or the zero shown when the whole is not positive. */
  datatype Rate = ZeroRate | Ratio(part: int, whole: int)

  /** JavaScript `sum + x` for a number `sum` and a decoded count: `null` converts to 0. */
  function AddJson(sum: int, x: JsonNumber): int
  {
    if x.JsonNum? then sum + x.value else sum
  }

  /** `cs.reduce((sum, c) => sum + f(c), 0)`: it starts from the number 0, so it is always a number. */
  function SumOf(cs: seq<Campaign>, f: Campaign -> JsonNumber): int
  {
    if |cs| == 0 then 0 else AddJson(SumOf(cs[..|cs| - 1], f), f(cs[|cs| - 1]))
  }

  function EmailsSentOf(c: Campaign): JsonNumber { c.emailsSent }
  function OpenedOf(c: Campaign): JsonNumber { c.openedCount }

  /** The open rate over all campaigns: opened over sent, guarded against a total that is not positive. */
  function OpenRate(campaigns: seq<Campaign>): (r: Rate)
    ensures r.Ratio? <==> SumOf(campaigns, EmailsSentOf) > 0
    ensures r.Ratio? ==> r.whole == SumOf(campaigns, EmailsSentOf) && r.part == SumOf(campaigns, OpenedOf)
  {
    var sent := SumOf(campaigns, EmailsSentOf);
    if sent > 0 then Ratio(SumOf(campaigns, OpenedOf), sent) else ZeroRate
  }

  /** A campaign whose count is `null` adds nothing: the sum is that of the other campaigns. */
  lemma {:induction false} NullAddsNothing(cs: seq<Campaign>, f: Campaign -> JsonNumber, i: int)
    requires 0 <= i < |cs| && f(cs[i]).JsonNull?
    ensures SumOf(cs, f) == SumOf(cs[..i] + cs[i + 1..], f)
  {
    var n := |cs| - 1;
    if i == n {
      assert cs[..i] + cs[i + 1..] == cs[..n];
    } else {
      NullAddsNothing(cs[..n], f, i);
      assert cs[..n][..i] + cs[..n][i + 1..] == (cs[..i] + cs[i + 1..])[..n - 1];
      assert (cs[..i] + cs[i + 1..])[n - 1] == cs[n];
    }
  }

  /** Appending one more campaign adds its readable count to the sum. */
  lemma SumSnoc(cs: seq<Campaign>, c: Campaign, f: Campaign -> JsonNumber)
    ensures SumOf(cs + [c], f) == SumOf(cs, f) + (if f(c).JsonNum? then f(c).value else 0)
  {
    assert (cs + [c])[..|cs|] == cs;
  }

  /** With every readable count non-negative, the sum is non-negative. */
  lemma {:induction false} SumCounts(cs: seq<Campaign>, f: Campaign -> JsonNumber)
    requires forall i :: 0 <= i < |cs| && f(cs[i]).JsonNum? ==> f(cs[i]).value >= 0
    ensures SumOf(cs, f) >= 0
  {
    if |cs| > 0 {
      SumCounts(cs[..|cs| - 1], f);
    }
  }

  /** A campaign with an unreadable sent count and one opened, beside one with
      ten sent and four opened, shows five opened of ten sent: the unreadable
      count is skipped, not turned into `NaN`. */
  lemma OpenRateSkipsUnreadable(a: CampaignData, b: CampaignData)
    requires a.emailsSent.None? && a.openedCount == Some(1)
    requires b.emailsSent == Some(10) && b.openedCount == Some(4)
    ensures OpenRate(CampaignsResponse([a, b]).data) == Ratio(5, 10)
  {
    var cs := CampaignsResponse([a, b]).data;
    assert cs == [DecodeCampaign(a), DecodeCampaign(b)];
    SumSnoc([DecodeCampaign(a)], DecodeCampaign(b), EmailsSentOf);
    SumSnoc([DecodeCampaign(a)], DecodeCampaign(b), OpenedOf);
    SumSnoc([], DecodeCampaign(a), EmailsSentOf);
    SumSnoc([], DecodeCampaign(a), OpenedOf);
    assert [] + [DecodeCampaign(a)] == [DecodeCampaign(a)];
    assert [DecodeCampaign(a)] + [DecodeCampaign(b)] == cs;
  }

  /** A share of the Semrush total, `0` when there are no Semrush websites. */
  function ShareOf(count: nat, total: nat): (r: Rate)
    ensures r.Ratio? <==> total > 0
  {
    if total > 0 then Ratio(count, total) else ZeroRate
  }

  /** The performance card appears only when at least one email was sent. */
  predicate ShowsPerformance(s: Stats)
  {
    s.emailSent > 0
  }

  /** Whenever the performance card is shown, both its rates are real ratios of at most 100%. */
  lemma PerformanceRatesDefined(sites: seq<SemrushSite>)
    requires ShowsPerformance(StatsOf(sites))
    ensures var s := StatsOf(sites);
      && ShareOf(s.emailSent, s.total).Ratio? && s.emailSent <= s.total
      && ShareOf(s.withEmail, s.total).Ratio? && s.withEmail <= s.total
  {
    StatsBounded(sites);
  }

  // ---- Search and status filter --------------------------------------------------

  predicate MatchesSearch(s: SemrushSite, term: string)
  {
    var t := Lower(term);
    || Contains(Lower(s.url), t)
    || Contains(Lower(s.title), t)
    || (s.contactEmail != "" && Contains(Lower(s.contactEmail), t))
    || (s.contactName != "" && Contains(Lower(s.contactName), t))
  }

  predicate MatchesStatus(s: SemrushSite, selected: string)
  {
    selected == "all" || s.contactStatus == selected
  }

  function FilteredWebsites(sites: seq<SemrushSite>, term: string, selected: string): (r: seq<SemrushSite>)
    ensures IsSubsequence(r, sites)
    ensures forall s :: s in r <==> s in sites && MatchesSearch(s, term) && MatchesStatus(s, selected)
  {
    Filter(sites, s => MatchesSearch(s, term) && MatchesStatus(s, selected))
  }

  /** The search ignores the case of the term. */
  lemma SearchIgnoresCase(s: SemrushSite, term: string)
    ensures MatchesSearch(s, Upper(term)) == MatchesSearch(s, term)
    ensures MatchesSearch(s, Lower(term)) == MatchesSearch(s, term)
  {
    LowerUpper(term);
    LowerIdempotent(term);
  }

  /** An empty search with status `all` shows every Semrush website. */
  lemma NoFilterKeepsAll(sites: seq<SemrushSite>)
    ensures FilteredWebsites(sites, "", "all") == sites
  {
    forall i | 0 <= i < |sites| ensures MatchesSearch(sites[i], "") {
      ContainsEmpty(Lower(sites[i].url));
    }
    FilterKeepsAll(sites, x => MatchesSearch(x, "") && MatchesStatus(x, "all"));
  }

  // ---- Status colour and badge ---------------------------------------------------

  function StatusColor(status: string): (c: string)
    ensures c == "bg-gray-100 text-gray-800" <==>
      Lower(status) != "email_sent" && Lower(status) != "pending" && Lower(status) != "failed"
  {
    var s := Lower(status);
    if s == "email_sent" then "bg-green-100 text-green-800"
    else if s == "pending" then "bg-yellow-100 text-yellow-800"
    else if s == "failed" then "bg-red-100 text-red-800"
    else "bg-gray-100 text-gray-800"
  }

  /** The colour depends only on the lower-cased status. */
  lemma StatusColorIgnoresCase(status: string)
    ensures StatusColor(Upper(status)) == StatusColor(status)
    ensures StatusColor(Lower(status)) == StatusColor(status)
  {
    LowerUpper(status);
    LowerIdempotent(status);
  }

  /** The badge text: the status with its first underscore shown as a space. */
  function BadgeLabel(status: string): string
  {
    ReplaceFirst(status, '_', ' ')
  }

  /** Only the first underscore is replaced: `a_b_c` shows as `a b_c`. */
  lemma BadgeReplacesFirstOnly(status: string)
    ensures |BadgeLabel(status)| == |status|
    ensures '_' in status ==> ' ' in BadgeLabel(status)
    ensures forall i, j :: 0 <= i < j < |status| && status[i] == '_' && status[j] == '_' ==> BadgeLabel(status)[j] == '_'
    ensures BadgeLabel("email_sent") == "email sent"
  {
    if '_' in status {
      var k := IndexOf(status, '_');
      assert BadgeLabel(status)[k] == ' ';
    }
    forall i, j | 0 <= i < j < |status| && status[i] == '_' && status[j] == '_'
      ensures BadgeLabel(status)[j] == '_'
    {
      assert IndexOf(status, '_') <= i;
    }
    assert "email_sent"[5] == '_' && forall i :: 0 <= i < 5 ==> "email_sent"[i] != '_';
  }
}
