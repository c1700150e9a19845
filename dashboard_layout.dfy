// The dashboard shell (src/components/dashboard-layout.tsx): the avatar
// initials derived from the user name, and which navigation entry is shown as
// active for the current path.

module DashboardLayout {
  import opened Wrappers
  import opened TextUtil
  import opened SeqUtil
  import Auth

  datatype NavItem = NavItem(name: string, href: string)

  const Navigation: seq<NavItem> := [
    NavItem("Overview", "/dashboard"),
    NavItem("Websites", "/dashboard/websites"),
    NavItem("Semrush Sites", "/dashboard/semrush"),
    NavItem("Email Outreach", "/dashboard/emails"),
    NavItem("Performance", "/dashboard/performance"),
    NavItem("Settings", "/dashboard/settings")
  ]

  // ---- Initials ------------------------------------------------------------------

  predicate NonEmpty(w: string) { w != "" }

  /** `words.map(word => word[0]).join('')`: an empty word has no first character and adds nothing. */
  function FirstLetters(words: seq<string>): string
  {
    if |words| == 0 then ""
    else (if words[0] == "" then "" else words[0][..1]) + FirstLetters(words[1..])
  }

  /** Words that are all non-empty contribute exactly their first characters, in order. */
  lemma {:induction false} FirstLettersOfWords(words: seq<string>)
    requires forall i :: 0 <= i < |words| ==> words[i] != ""
    ensures |FirstLetters(words)| == |words|
    ensures forall i :: 0 <= i < |words| ==> FirstLetters(words)[i] == words[i][0]
  {
    if |words| > 0 {
      FirstLettersOfWords(words[1..]);
      assert FirstLetters(words) == [words[0][0]] + FirstLetters(words[1..]);
    }
  }

  /** Empty words, from leading, trailing or repeated spaces, are as if absent. */
  lemma {:induction false} EmptyWordsIgnored(words: seq<string>)
    ensures FirstLetters(words) == FirstLetters(Filter(words, NonEmpty))
  {
    if |words| > 0 {
      EmptyWordsIgnored(words[1..]);
      if words[0] != "" {
        assert Filter(words, NonEmpty) == [words[0]] + Filter(words[1..], NonEmpty);
        assert Filter(words, NonEmpty)[1..] == Filter(words[1..], NonEmpty);
      }
    }
  }

  /**
   * getUserInitials: the first character of each space-separated word,
   * upper-cased, at most two of them.
   */
  function GetUserInitials(name: string): (r: string)
    ensures var words := Filter(Split(name, ' '), NonEmpty);
      && |r| <= 2
      && |r| == (if |words| < 2 then |words| else 2)
      && forall i :: 0 <= i < |r| ==> r[i] == UpperChar(words[i][0])
  {
    var words := Filter(Split(name, ' '), NonEmpty);
    EmptyWordsIgnored(Split(name, ' '));
    FirstLettersOfWords(words);
    Take(Upper(FirstLetters(Split(name, ' '))), 2)
  }

  /** The avatar text: the initials of the user name, or of `U` when there is no user or no name. */
  function AvatarText(user: Option<Auth.User>): string
  {
    GetUserInitials(if user.Some? && user.value.username != "" then user.value.username else "U")
  }

  lemma AvatarWithoutUser()
    ensures AvatarText(None) == "U"
  {
    assert Split("U", ' ') == ["U"];
    assert Filter(["U"], NonEmpty) == ["U"];
  }

  lemma InitialsOfTwoWords()
    ensures GetUserInitials("data analyst") == "DA"
  {
    SplitTwoWords();
    TwoWordInitials("data analyst", "data", "analyst");
  }

  /** A name of two words gives the upper-cased first letter of each. */
  lemma TwoWordInitials(name: string, first: string, second: string)
    requires Split(name, ' ') == [first, second] && first != "" && second != ""
    ensures GetUserInitials(name) == [UpperChar(first[0]), UpperChar(second[0])]
  {
    FilterKeepsAll([first, second], NonEmpty);
  }

  lemma SplitTwoWords()
    ensures Split("data analyst", ' ') == ["data", "analyst"]
  {
    var words := ["data", "analyst"];
    assert Join(words, [' ']) == "data analyst";
    assert forall k :: 0 <= k < |words| ==> ' ' !in words[k];
    SplitJoin(words, ' ');
  }

  // ---- Active navigation entry ---------------------------------------------------

  /** An entry is active exactly when the path equals its link. */
  predicate IsActive(pathname: string, item: NavItem)
  {
    pathname == item.href
  }

  /** No two entries share a link, so at most one entry is active on any path. */
  lemma AtMostOneActive(pathname: string)
    ensures forall i, j :: 0 <= i < j < |Navigation| ==>
      !(IsActive(pathname, Navigation[i]) && IsActive(pathname, Navigation[j]))
  {
    assert forall i, j :: 0 <= i < j < |Navigation| ==> Navigation[i].href != Navigation[j].href;
  }

  /** A path under the overview does not make the overview active: the match is exact. */
  lemma OverviewNotActiveOnSubpage()
    ensures !IsActive("/dashboard/websites", Navigation[0])
    ensures IsActive("/dashboard/websites", Navigation[1])
  {
  }
}
