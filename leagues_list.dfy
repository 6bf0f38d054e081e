/**
 * The league sidebar of `components/LeaguesList.tsx`: search plus region filter
 * over the fetched leagues, and the search-box and region state.
 */
module LeaguesList {
  import opened Wrappers
  import opened Seqs
  import opened Text
  import opened Types
  import opened SearchBox

  /** The region buttons, in order; 'all' switches the region test off. */
  const REGION_IDS: seq<string> := ["all", "europe", "south_america", "africa", "asia"]

  predicate MatchesSearch(term: string, l: League) {
    term == "" || NameOrCountryMatches(l.name, l.country, term)
  }

  predicate MatchesRegion(activeFilter: string, l: League) {
    activeFilter == "all" || ToLower(l.region) == ToLower(activeFilter)
  }

  function Keeps(term: string, activeFilter: string): League -> bool {
    (l: League) => MatchesSearch(term, l) && MatchesRegion(activeFilter, l)
  }

  /** `filteredLeagues`. */
  function FilteredLeagues(leagues: Option<seq<League>>, term: string, activeFilter: string): (r: seq<League>)
    ensures leagues.None? ==> r == []
    ensures leagues.Some? ==> IsSubsequence(r, leagues.value)
  {
    if leagues.None? then []
    else
      FilterIsSubsequence(Keeps(term, activeFilter), leagues.value);
      Filter(Keeps(term, activeFilter), leagues.value)
  }

  /** A league is listed iff it passes both the search and the region test. */
  lemma FilteredMembers(ls: seq<League>, term: string, activeFilter: string)
    ensures forall l :: l in FilteredLeagues(Some(ls), term, activeFilter) <==>
      l in ls && MatchesSearch(term, l) && MatchesRegion(activeFilter, l)
  {
    FilterMembers(Keeps(term, activeFilter), ls);
  }

  /** No term and the 'all' region list every league, in order. */
  lemma NoFilterKeepsAll(ls: seq<League>)
    ensures FilteredLeagues(Some(ls), "", "all") == ls
  {
    FilterAll(Keeps("", "all"), ls);
  }

  /** The region test ignores case: "EUROPE" selects what "europe" selects. */
  lemma RegionIgnoresCase(ls: seq<League>, term: string, f1: string, f2: string)
    requires f1 != "all" && f2 != "all" && ToLower(f1) == ToLower(f2)
    ensures FilteredLeagues(Some(ls), term, f1) == FilteredLeagues(Some(ls), term, f2)
  {
    FilterCongruent(Keeps(term, f1), Keeps(term, f2), ls);
  }

  /** Typing the term in capitals changes nothing. */
  lemma SearchIgnoresCase(ls: seq<League>, t1: string, t2: string, activeFilter: string)
    requires ToLower(t1) == ToLower(t2)
    ensures FilteredLeagues(Some(ls), t1, activeFilter) == FilteredLeagues(Some(ls), t2, activeFilter)
  {
    assert t1 == "" <==> t2 == "" by {
      assert |ToLower(t1)| == |t1| && |ToLower(t2)| == |t2|;
    }
    FilterCongruent(Keeps(t1, activeFilter), Keeps(t2, activeFilter), ls);
  }

  /** Adding a search term can only shorten the list. */
  lemma SearchNarrows(ls: seq<League>, term: string, activeFilter: string)
    ensures IsSubsequence(FilteredLeagues(Some(ls), term, activeFilter), FilteredLeagues(Some(ls), "", activeFilter))
  {
    FilterNarrows(Keeps("", activeFilter), Keeps(term, activeFilter), ls);
  }

  /** The component's search and region state. */
  class LeaguesListState {
    var showSearch: bool
    var searchTerm: string
    var activeFilter: string

    function Box(): Search
      reads this
    {
      Search(showSearch, searchTerm)
    }

    /** The term can be non-empty only while the box is open. */
    ghost predicate Valid()
      reads this
    {
      Reachable(Box())
    }

    constructor()
      ensures Box() == CLOSED && activeFilter == "all" && Valid()
    {
      showSearch := false;
      searchTerm := "";
      activeFilter := "all";
    }

    method ToggleSearch()
      requires Valid()
      modifies this
      ensures Box() == Toggle(old(Box())) && activeFilter == old(activeFilter) && Valid()
    {
      var wasOpen := showSearch;
      showSearch := !wasOpen;
      if wasOpen {
        searchTerm := "";
      }
    }

    /** The input exists only while the box is open. */
    method SetSearchTerm(term: string)
      requires Valid() && showSearch
      modifies this
      ensures Box() == Search(true, term) && activeFilter == old(activeFilter) && Valid()
    {
      searchTerm := term;
    }

    method SetActiveFilter(f: string)
      requires Valid()
      modifies this
      ensures Box() == old(Box()) && activeFilter == f && Valid()
    {
      activeFilter := f;
    }
  }

  /** Closing the box lists exactly what no search lists. */
  lemma ClosingClearsSearch(ls: Option<seq<League>>, s: Search, activeFilter: string)
    requires s.showSearch
    ensures FilteredLeagues(ls, Toggle(s).searchTerm, activeFilter) == FilteredLeagues(ls, "", activeFilter)
  {
  }
}
