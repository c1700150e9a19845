// The websites page (src/app/dashboard/websites/page.tsx): a fixed list of
// discovered websites, a search over address and title, an exact category
// filter, the category choices offered and the status colour.

module WebsitesPage {
  import opened TextUtil
  import opened SeqUtil
  import opened SheetMappers

  /** The page's own sample rows. */
  const WebsiteRows: seq<WebsiteData> := [
    WebsiteData(1, "techstartup1.com", "Tech Startup 1", "Technology", "2024-01-15", 3, "processed"),
    WebsiteData(2, "businesscorp.com", "Business Corp", "Business Services", "2024-01-15", 2, "processed"),
    WebsiteData(3, "innovativeagency.co", "Innovative Agency", "Marketing", "2024-01-14", 1, "processing"),
    WebsiteData(4, "designstudio.net", "Design Studio", "Design", "2024-01-14", 0, "pending"),
    WebsiteData(5, "consultingfirm.org", "Consulting Firm", "Consulting", "2024-01-13", 4, "processed"),
    WebsiteData(6, "digitalmarketingpro.io", "Digital Marketing Pro", "Marketing", "2024-01-13", 2, "processed")
  ]

  /** Search: the term, ignoring case, occurs in the address or the title. */
  predicate MatchesSearch(w: WebsiteData, term: string)
  {
    Contains(Lower(w.url), Lower(term)) || Contains(Lower(w.title), Lower(term))
  }

  /** Category filter: `all`, or exactly the row's category. */
  predicate MatchesCategory(w: WebsiteData, selected: string)
  {
    selected == "all" || w.category == selected
  }

  function FilteredWebsites(rows: seq<WebsiteData>, term: string, selected: string): (r: seq<WebsiteData>)
    ensures IsSubsequence(r, rows)
    ensures forall w :: w in r <==> w in rows && MatchesSearch(w, term) && MatchesCategory(w, selected)
  {
    Filter(rows, w => MatchesSearch(w, term) && MatchesCategory(w, selected))
  }

  /** An empty search with category `all` shows every row. */
  lemma NoFilterKeepsAll(rows: seq<WebsiteData>)
    ensures FilteredWebsites(rows, "", "all") == rows
  {
    forall i | 0 <= i < |rows| ensures MatchesSearch(rows[i], "") {
      ContainsEmpty(Lower(rows[i].url));
    }
    FilterKeepsAll(rows, x => MatchesSearch(x, "") && MatchesCategory(x, "all"));
  }

  /** The search ignores the case of the term. */
  lemma SearchIgnoresCase(w: WebsiteData, term: string)
    ensures MatchesSearch(w, Upper(term)) == MatchesSearch(w, term)
  {
    LowerUpper(term);
  }

  /** The category filter compares exactly: a differently cased category is not selected. */
  lemma CategoryFilterIsExact(w: WebsiteData, term: string, selected: string)
    requires selected != "all" && w.category != selected
    ensures FilteredWebsites([w], term, selected) == []
  {
  }

  /** "No websites found" is shown exactly when no row passes both filters. */
  predicate ShowsEmptyState(rows: seq<WebsiteData>, term: string, selected: string)
  {
    |FilteredWebsites(rows, term, selected)| == 0
  }

  lemma EmptyStateIff(rows: seq<WebsiteData>, term: string, selected: string)
    ensures ShowsEmptyState(rows, term, selected) <==>
      forall w :: w in rows ==> !(MatchesSearch(w, term) && MatchesCategory(w, selected))
  {
    var r := FilteredWebsites(rows, term, selected);
    if |r| > 0 {
      assert r[0] in r;
    }
  }

  /** `rows.map(w => w.category)` */
  function CategoryList(rows: seq<WebsiteData>): (r: seq<string>)
    ensures |r| == |rows| && forall i :: 0 <= i < |rows| ==> r[i] == rows[i].category
  {
    seq(|rows|, k requires 0 <= k < |rows| => rows[k].category)
  }

  /** The category choices: each category present, once, in order of first appearance. */
  function Categories(rows: seq<WebsiteData>): (r: seq<string>)
    ensures NoDuplicates(r)
    ensures forall c :: c in r <==> exists i :: 0 <= i < |rows| && rows[i].category == c
    ensures forall c :: c in r <==> c in CategoryList(rows)
    ensures forall i, j :: 0 <= i < j < |r| ==>
      FirstIndex(CategoryList(rows), r[i]) < FirstIndex(CategoryList(rows), r[j])
  {
    var all := CategoryList(rows);
    assert forall c :: c in all <==> exists i :: 0 <= i < |rows| && rows[i].category == c by {
      forall c | c in all ensures exists i :: 0 <= i < |rows| && rows[i].category == c {
        var i :| 0 <= i < |all| && all[i] == c;
      }
    }
    DistinctOrder(all);
    Distinct(all)
  }

  /** The sample rows offer five categories, `Marketing` once. */
  lemma SampleCategories()
    ensures Categories(WebsiteRows) == ["Technology", "Business Services", "Marketing", "Design", "Consulting"]
  {
    SampleCategoryList();
    SampleDistinct();
  }

  lemma SampleCategoryList()
    ensures CategoryList(WebsiteRows) ==
      ["Technology", "Business Services", "Marketing", "Design", "Consulting", "Marketing"]
  {
  }

  lemma SampleDistinct()
    ensures Distinct(["Technology", "Business Services", "Marketing", "Design", "Consulting", "Marketing"]) ==
      ["Technology", "Business Services", "Marketing", "Design", "Consulting"]
  {
    var s5 := ["Technology", "Business Services", "Marketing", "Design", "Consulting"];
    DistinctOfNoDuplicates(s5);
    DistinctSnoc(s5, "Marketing");
    assert s5 + ["Marketing"] == ["Technology", "Business Services", "Marketing", "Design", "Consulting", "Marketing"];
  }

  function StatusColor(status: string): (c: string)
    ensures c == "bg-green-100 text-green-800" <==> status == "processed"
    ensures c == "bg-yellow-100 text-yellow-800" <==> status == "processing"
    ensures c == "bg-gray-100 text-gray-800" <==> status != "processed" && status != "processing"
  {
    match status
    case "processed" => "bg-green-100 text-green-800"
    case "processing" => "bg-yellow-100 text-yellow-800"
    case "pending" => "bg-gray-100 text-gray-800"
    case _ => "bg-gray-100 text-gray-800"
  }

  /** `pending` cannot be told apart from an unknown status by colour. */
  lemma PendingLooksUnknown(status: string)
    requires status != "processed" && status != "processing"
    ensures StatusColor(status) == StatusColor("pending")
  {
  }
}
