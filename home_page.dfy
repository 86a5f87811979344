/** The public listing: approved tutorials narrowed by the search query and the selected category. */
module HomePage {
  import opened Wrappers
  import opened Types
  import opened Seqs
  import opened Text

  /** The `search` URL parameter, or the empty query when it is missing or empty. */
  function SearchQuery(param: Option<string>): (r: string)
    ensures param.None? ==> r == ""
    ensures param.Some? ==> r == param.value
  {
    OrIfEmpty(param, "")
  }

  predicate IsApproved(t: Tutorial)
  {
    t.approved
  }

  predicate MatchesSearch(t: Tutorial, query: string)
  {
    IncludesIgnoringCase(t.title, query) || IncludesIgnoringCase(t.description, query)
  }

  /** No selection, and an empty selection, match every category. */
  predicate MatchesCategory(t: Tutorial, selected: Option<string>)
  {
    selected.None? || selected.value == "" || t.category == selected.value
  }

  function Matches(query: string, selected: Option<string>): Tutorial -> bool
  {
    t => MatchesSearch(t, query) && MatchesCategory(t, selected)
  }

  function ApprovedTutorials(ts: seq<Tutorial>): (r: seq<Tutorial>)
    ensures IsSubsequence(r, ts)
    ensures forall i :: 0 <= i < |r| ==> r[i].approved
    ensures forall i :: 0 <= i < |ts| ==> (ts[i] in r <==> ts[i].approved)
  {
    Filter(ts, IsApproved)
  }

  /** The listing shown: only approved tutorials, each matching the query on title or description and
      the category, with every such tutorial present and the store order kept. */
  function FilteredTutorials(ts: seq<Tutorial>, query: string, selected: Option<string>): (r: seq<Tutorial>)
    ensures IsSubsequence(r, ts)
    ensures forall i :: 0 <= i < |r| ==> r[i].approved && MatchesSearch(r[i], query) && MatchesCategory(r[i], selected)
    ensures forall i :: 0 <= i < |ts| ==>
              (ts[i] in r <==> ts[i].approved && MatchesSearch(ts[i], query) && MatchesCategory(ts[i], selected))
  {
    var approved := ApprovedTutorials(ts);
    var r := Filter(approved, Matches(query, selected));
    SubsequenceTransitive(r, approved, ts);
    SubsequenceMembers(r, approved);
    assert forall i :: 0 <= i < |ts| && ts[i].approved ==> exists j :: 0 <= j < |approved| && approved[j] == ts[i];
    r
  }

  /** With an empty query and no category the listing is every approved tutorial. */
  lemma UnfilteredListing(ts: seq<Tutorial>)
    ensures FilteredTutorials(ts, "", None) == ApprovedTutorials(ts)
  {
    var approved := ApprovedTutorials(ts);
    forall i | 0 <= i < |approved| ensures Matches("", None)(approved[i]) {
      EmptyQueryMatches(approved[i].title);
    }
    FilterKeepsAll(approved, Matches("", None));
  }

  /** Clicking a category button: it becomes the selection, unless it already was, which clears it. */
  function ToggleCategory(selected: Option<string>, clicked: string): (r: Option<string>)
    ensures r.None? <==> selected == Some(clicked)
    ensures r.Some? ==> r.value == clicked
  {
    if selected == Some(clicked) then None else Some(clicked)
  }

  /** Clicking the same category twice from no selection returns to no selection. */
  lemma ToggleCategoryTwice(clicked: string)
    ensures ToggleCategory(ToggleCategory(None, clicked), clicked) == None
  {
  }

  /** The "Em Alta" button's new selection: always none. */
  function ClickTrending(selected: Option<string>): Option<string>
  {
    None
  }

  /** After "Em Alta" the listing no longer depends on a category: it shows every approved tutorial
      matching the query, so it keeps every tutorial the previous selection showed. */
  lemma TrendingClearsCategory(ts: seq<Tutorial>, query: string, selected: Option<string>)
    ensures forall i :: 0 <= i < |ts| ==>
              (ts[i] in FilteredTutorials(ts, query, ClickTrending(selected)) <==> ts[i].approved && MatchesSearch(ts[i], query))
    ensures forall i :: 0 <= i < |ts| && ts[i] in FilteredTutorials(ts, query, selected) ==>
              ts[i] in FilteredTutorials(ts, query, ClickTrending(selected))
    ensures query == "" ==> FilteredTutorials(ts, query, ClickTrending(selected)) == ApprovedTutorials(ts)
  {
    if query == "" {
      UnfilteredListing(ts);
    }
  }
}
