// The email outreach page (src/app/dashboard/emails/page.tsx): a fixed list of
// outreach emails, a search over address and website, an exact status filter,
// the status choices offered, and the colours of statuses and responses.

module EmailsPage {
  import opened Wrappers
  import opened TextUtil
  import opened SeqUtil
  import opened SheetMappers

  /** The page's own sample rows. */
  const EmailRows: seq<EmailData> := [
    EmailData(1, "tech@company1.com", "company1.com", "sent", Some("2024-01-15"), "pending", "Partnership Opportunity"),
    EmailData(2, "info@startup2.com", "startup2.com", "pending", None, "none", "Collaboration Proposal"),
    EmailData(3, "hello@business3.com", "business3.com", "found", None, "none", "Business Development"),
    EmailData(4, "contact@firm4.com", "firm4.com", "failed", Some("2024-01-14"), "none", "Strategic Partnership"),
    EmailData(5, "support@agency5.com", "agency5.com", "sent", Some("2024-01-14"), "positive", "Marketing Collaboration"),
    EmailData(6, "team@consultancy6.org", "consultancy6.org", "sent", Some("2024-01-13"), "negative", "Service Partnership")
  ]

  /** Search: the term, ignoring case, occurs in the address or the website. */
  predicate MatchesSearch(e: EmailData, term: string)
  {
    Contains(Lower(e.email), Lower(term)) || Contains(Lower(e.website), Lower(term))
  }

  /** Status filter: `all`, or exactly the row's status (case matters). */
  predicate MatchesStatus(e: EmailData, selected: string)
  {
    selected == "all" || e.status == selected
  }

  function FilteredEmails(rows: seq<EmailData>, term: string, selected: string): (r: seq<EmailData>)
    ensures IsSubsequence(r, rows)
    ensures forall e :: e in r <==> e in rows && MatchesSearch(e, term) && MatchesStatus(e, selected)
  {
    Filter(rows, e => MatchesSearch(e, term) && MatchesStatus(e, selected))
  }

  /** An empty search with status `all` shows every row. */
  lemma NoFilterKeepsAll(rows: seq<EmailData>)
    ensures FilteredEmails(rows, "", "all") == rows
  {
    forall i | 0 <= i < |rows| ensures MatchesSearch(rows[i], "") {
      ContainsEmpty(Lower(rows[i].email));
    }
    FilterKeepsAll(rows, x => MatchesSearch(x, "") && MatchesStatus(x, "all"));
  }

  /** The subject, the response and every other field play no part in the search. */
  lemma SearchOnlyAddressAndWebsite(e: EmailData, term: string)
    requires !Contains(Lower(e.email), Lower(term)) && !Contains(Lower(e.website), Lower(term))
    ensures forall selected :: e !in FilteredEmails([e], term, selected)
  {
  }

  /** The status filter compares exactly: a differently cased status is not selected. */
  lemma StatusFilterIsExact(e: EmailData, term: string, selected: string)
    requires selected != "all" && e.status != selected
    ensures FilteredEmails([e], term, selected) == []
  {
  }

  /** "No emails found" is shown exactly when no row passes both filters. */
  predicate ShowsEmptyState(rows: seq<EmailData>, term: string, selected: string)
  {
    |FilteredEmails(rows, term, selected)| == 0
  }

  lemma EmptyStateIff(rows: seq<EmailData>, term: string, selected: string)
    ensures ShowsEmptyState(rows, term, selected) <==>
      forall e :: e in rows ==> !(MatchesSearch(e, term) && MatchesStatus(e, selected))
  {
    var r := FilteredEmails(rows, term, selected);
    if |r| > 0 {
      assert r[0] in r;
    }
  }

  /** `rows.map(e => e.status)` */
  function StatusList(rows: seq<EmailData>): (r: seq<string>)
    ensures |r| == |rows| && forall i :: 0 <= i < |rows| ==> r[i] == rows[i].status
  {
    seq(|rows|, k requires 0 <= k < |rows| => rows[k].status)
  }

  /** The status choices: each status present, once, in order of first appearance. */
  function Statuses(rows: seq<EmailData>): (r: seq<string>)
    ensures NoDuplicates(r)
    ensures forall s :: s in r <==> exists i :: 0 <= i < |rows| && rows[i].status == s
    ensures forall s :: s in r <==> s in StatusList(rows)
    ensures forall i, j :: 0 <= i < j < |r| ==>
      FirstIndex(StatusList(rows), r[i]) < FirstIndex(StatusList(rows), r[j])
  {
    var all := StatusList(rows);
    assert forall s :: s in all <==> exists i :: 0 <= i < |rows| && rows[i].status == s by {
      forall s | s in all ensures exists i :: 0 <= i < |rows| && rows[i].status == s {
        var i :| 0 <= i < |all| && all[i] == s;
      }
    }
    DistinctOrder(all);
    Distinct(all)
  }

  /** The sample rows offer four statuses, in this order. */
  lemma SampleStatuses()
    ensures Statuses(EmailRows) == ["sent", "pending", "found", "failed"]
  {
    SampleStatusList();
    SampleDistinct();
  }

  lemma SampleStatusList()
    ensures StatusList(EmailRows) == ["sent", "pending", "found", "failed", "sent", "sent"]
  {
  }

  lemma SampleDistinct()
    ensures Distinct(["sent", "pending", "found", "failed", "sent", "sent"]) == ["sent", "pending", "found", "failed"]
  {
    var s4 := ["sent", "pending", "found", "failed"];
    DistinctOfNoDuplicates(s4);
    var t5 := s4 + ["sent"];
    DistinctSnoc(s4, "sent");
    assert s4[0] == "sent" && t5[0] == "sent";
    DistinctSnoc(t5, "sent");
    assert t5 + ["sent"] == ["sent", "pending", "found", "failed", "sent", "sent"];
  }

  function StatusColor(status: string): (c: string)
    ensures c == "bg-gray-100 text-gray-800" <==>
      status != "sent" && status != "found" && status != "pending" && status != "failed"
  {
    match status
    case "sent" => "bg-green-100 text-green-800"
    case "found" => "bg-blue-100 text-blue-800"
    case "pending" => "bg-yellow-100 text-yellow-800"
    case "failed" => "bg-red-100 text-red-800"
    case _ => "bg-gray-100 text-gray-800"
  }

  function ResponseColor(response: string): (c: string)
    ensures c == "bg-gray-100 text-gray-800" <==>
      response != "positive" && response != "negative" && response != "pending"
  {
    match response
    case "positive" => "bg-green-100 text-green-800"
    case "negative" => "bg-red-100 text-red-800"
    case "pending" => "bg-yellow-100 text-yellow-800"
    case _ => "bg-gray-100 text-gray-800"
  }

  /** Both colour switches compare exactly: `Sent` is not `sent`. */
  lemma ColorsAreCaseSensitive()
    ensures StatusColor("Sent") == "bg-gray-100 text-gray-800"
    ensures ResponseColor("Positive") == "bg-gray-100 text-gray-800"
  {
  }

  /** Every sample row's status has its own colour, and `none` responses are gray. */
  lemma SampleColors()
    ensures forall i :: 0 <= i < |EmailRows| ==> StatusColor(EmailRows[i].status) != "bg-gray-100 text-gray-800"
    ensures forall i :: 0 <= i < |EmailRows| && EmailRows[i].response == "none" ==>
      ResponseColor(EmailRows[i].response) == "bg-gray-100 text-gray-800"
  {
  }
}
