/**
 * The header's search panel (src/components/layout/Header.tsx): the live results under the search
 * bar and the list of recent searches. The list's persistence in the browser is not part of this
 * model; the constructor takes what the browser had stored, already decoded.
 */
module Header {
  import opened Wrappers
  import opened Text
  import opened Seqs
  import opened Catalogue
  import opened Events
  import ProductSearch

  /** The list shown when nothing was stored. */
  const DefaultRecent: seq<string> := ["Current Noodles", "Eggplant", "Wai Wai", "2pm Soupbase"]
  /** How many recent searches a click keeps. */
  const RecentCap: nat := 6
  /** How many live results the panel shows. */
  const ShownResults: nat := 3

  /** handleSearchClick's list update: a new search goes first and the list is cut to 6; a search
      already in the list leaves it as it is (it does not move to the front). */
  function RecordSearch(recent: seq<string>, search: string): (r: seq<string>)
    ensures search in recent ==> r == recent
    ensures search !in recent ==> |r| >= 1 && r[0] == search && r[1..] == Take(recent, RecentCap - 1)
    ensures search !in recent ==> |r| <= RecentCap
    ensures search in r
  {
    if search in recent then recent else Take([search] + recent, RecentCap)
  }

  /** The live results the panel shows: the first three matches. */
  function ShownProducts(catalogue: seq<Product>, query: string): (shown: seq<Product>)
    ensures |shown| <= ShownResults && |shown| <= |ProductSearch.SearchResults(catalogue, query)|
    ensures shown == ProductSearch.SearchResults(catalogue, query)[..|shown|]
    ensures var n := |ProductSearch.SearchResults(catalogue, query)|; |shown| == if n < ShownResults then n else ShownResults
  {
    Take(ProductSearch.SearchResults(catalogue, query), ShownResults)
  }

  /** Recording a search keeps the list free of duplicates. */
  lemma RecordSearchKeepsNoDuplicates(recent: seq<string>, search: string)
    requires NoDuplicates(recent)
    ensures NoDuplicates(RecordSearch(recent, search))
  {
    if search !in recent {
      var r := RecordSearch(recent, search);
      forall i, j | 0 <= i < j < |r| ensures r[i] != r[j] {
        assert r[j] == recent[j - 1];
        if i > 0 {
          assert r[i] == recent[i - 1];
        }
      }
    }
  }

  /** The default list itself has no duplicates and fits under the cap. */
  lemma DefaultRecentValid()
    ensures NoDuplicates(DefaultRecent) && |DefaultRecent| <= RecentCap
  {
  }

  /** The header's search state. */
  class HeaderSearch {
    var searchQuery: string
    var isSearchFocused: bool
    var recentSearches: seq<string>
    /** Whether the page passed `onCloseCart`; only the home page and the search page do. */
    const hasCloseCart: bool

    /** The recent list never holds a search twice; it is at most 6 long when it started so. */
    predicate Valid()
      reads this
    {
      NoDuplicates(recentSearches) && |recentSearches| <= RecentCap
    }

    /** The initial state: the stored list when there is one (even an empty one), the default list otherwise. */
    constructor (saved: Option<seq<string>>, closeCartPassed: bool)
      ensures searchQuery == "" && !isSearchFocused
      ensures recentSearches == (if saved.Some? then saved.value else DefaultRecent)
      ensures hasCloseCart == closeCartPassed
      ensures saved.None? ==> Valid()
    {
      searchQuery := "";
      isSearchFocused := false;
      recentSearches := if saved.Some? then saved.value else DefaultRecent;
      hasCloseCart := closeCartPassed;
    }

    /** handleSearchFocus: the cart closes, when the page passed a way to close it, and the panel
        opens either way. */
    method HandleSearchFocus() returns (effects: seq<Effect>)
      modifies this
      ensures isSearchFocused
      ensures effects == (if hasCloseCart then [Close] else [])
      ensures searchQuery == old(searchQuery) && recentSearches == old(recentSearches)
    {
      if hasCloseCart {
        effects := [Close];
      } else {
        effects := [];
      }
      isSearchFocused := true;
    }

    /** handleSearchClick: fills the search bar and records the search, without navigating. */
    method HandleSearchClick(search: string)
      modifies this
      ensures searchQuery == search
      ensures recentSearches == RecordSearch(old(recentSearches), search)
      ensures isSearchFocused == old(isSearchFocused)
      ensures old(Valid()) ==> Valid()
    {
      searchQuery := search;
      if search !in recentSearches {
        recentSearches := Take([search] + recentSearches, 6);
      }
      if NoDuplicates(old(recentSearches)) {
        RecordSearchKeepsNoDuplicates(old(recentSearches), search);
      }
    }

    /** handleRemoveRecent: every entry equal to the search goes, the others stay in order. */
    method HandleRemoveRecent(search: string)
      modifies this
      ensures forall s :: s in recentSearches <==> s in old(recentSearches) && s != search
      ensures IsSubsequence(recentSearches, old(recentSearches))
      ensures forall s :: multiset(recentSearches)[s] == if s == search then 0 else multiset(old(recentSearches))[s]
      ensures searchQuery == old(searchQuery) && isSearchFocused == old(isSearchFocused)
      ensures old(Valid()) ==> Valid()
    {
      var p := (s: string) => s != search;
      if NoDuplicates(recentSearches) {
        FilterKeepsNoDuplicates(recentSearches, p);
      }
      recentSearches := Filter(recentSearches, p);
    }

    /** clearAllRecent. */
    method ClearAllRecent()
      modifies this
      ensures recentSearches == []
      ensures searchQuery == old(searchQuery) && isSearchFocused == old(isSearchFocused)
      ensures Valid()
    {
      recentSearches := [];
    }

    /** handleSearchSubmit: a query that is not blank opens the results page for the query as typed
        and closes the panel; a blank one does nothing. */
    method HandleSearchSubmit(query: string) returns (effects: seq<Effect>)
      modifies this
      ensures effects != [] <==> !AllWhitespace(query)
      ensures effects != [] ==> effects == [Navigate("/search?q=" + query)] && !isSearchFocused
      ensures effects == [] ==> isSearchFocused == old(isSearchFocused)
      ensures searchQuery == old(searchQuery) && recentSearches == old(recentSearches)
    {
      BlankIffAllWhitespace(query);
      if !IsBlank(query) {
        effects := [Navigate("/search?q=" + query)];
        isSearchFocused := false;
      } else {
        effects := [];
      }
    }

    /** handleSearchClose: the panel closes and the query is cleared. */
    method HandleSearchClose()
      modifies this
      ensures !isSearchFocused && searchQuery == ""
      ensures recentSearches == old(recentSearches)
    {
      isSearchFocused := false;
      searchQuery := "";
    }
  }
}
