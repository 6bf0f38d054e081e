/**
 * The team sidebar of `components/TeamsList.tsx`: search over the fetched teams
 * and the search-box state.
 */
module TeamsList {
  import opened Wrappers
  import opened Seqs
  import opened Text
  import opened Types
  import opened SearchBox

  function Keeps(term: string): Team -> bool {
    (t: Team) => NameOrCountryMatches(t.name, t.country, term)
  }

  /** `searchTerm && teams ? teams.filter(...) : teams || []`. */
  function FilteredTeams(teams: Option<seq<Team>>, term: string): (r: seq<Team>)
    ensures teams.None? ==> r == []
    ensures teams.Some? && term == "" ==> r == teams.value
    ensures teams.Some? ==> IsSubsequence(r, teams.value)
  {
    if term != "" && teams.Some? then
      FilterIsSubsequence(Keeps(term), teams.value);
      Filter(Keeps(term), teams.value)
    else if teams.Some? then
      SubsequenceOfSelf(teams.value);
      teams.value
    else []
  }

  /** A non-empty term keeps exactly the teams whose name or country contains it, ignoring case. */
  lemma FilteredMembers(ts: seq<Team>, term: string)
    requires term != ""
    ensures forall t :: t in FilteredTeams(Some(ts), term) <==>
      t in ts && NameOrCountryMatches(t.name, t.country, term)
  {
    FilterMembers(Keeps(term), ts);
  }

  /** Typing the term in capitals changes nothing. */
  lemma SearchIgnoresCase(ts: seq<Team>, t1: string, t2: string)
    requires ToLower(t1) == ToLower(t2)
    ensures FilteredTeams(Some(ts), t1) == FilteredTeams(Some(ts), t2)
  {
    assert |ToLower(t1)| == |t1| && |ToLower(t2)| == |t2|;
    FilterCongruent(Keeps(t1), Keeps(t2), ts);
  }

  /** A team's own name finds it. */
  lemma OwnNameFindsTeam(ts: seq<Team>, t: Team)
    requires t in ts && t.name != ""
    ensures t in FilteredTeams(Some(ts), t.name)
  {
    MatchesOwnName(t.name);
    FilteredMembers(ts, t.name);
  }

  /** The component's search state. */
  class TeamsListState {
    var showSearch: bool
    var searchTerm: string

    function Box(): Search
      reads this
    {
      Search(showSearch, searchTerm)
    }

    ghost predicate Valid()
      reads this
    {
      Reachable(Box())
    }

    constructor()
      ensures Box() == CLOSED && Valid()
    {
      showSearch := false;
      searchTerm := "";
    }

    method ToggleSearch()
      requires Valid()
      modifies this
      ensures Box() == Toggle(old(Box())) && Valid()
    {
      var wasOpen := showSearch;
      showSearch := !wasOpen;
      if wasOpen {
        searchTerm := "";
      }
    }

    method SetSearchTerm(term: string)
      requires Valid() && showSearch
      modifies this
      ensures Box() == Search(true, term) && Valid()
    {
      searchTerm := term;
    }
  }

  /** With the box closed, every fetched team is listed. */
  lemma ClosedBoxListsAll(ts: seq<Team>, s: Search)
    requires Reachable(s) && !s.showSearch
    ensures FilteredTeams(Some(ts), s.searchTerm) == ts
  {
  }
}
