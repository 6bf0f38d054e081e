/**
 * The search box shared by `components/LeaguesList.tsx` and
 * `components/TeamsList.tsx`: the case-insensitive name-or-country test and the
 * open/close toggle that clears the term on closing.
 */
module SearchBox {
  import opened Text

  /** `x.toLowerCase().includes(term.toLowerCase())`. */
  predicate MatchesText(x: string, term: string) {
    Contains(ToLower(x), ToLower(term))
  }

  /** The name or the country contains the term, ignoring case. */
  predicate NameOrCountryMatches(name: string, country: string, term: string) {
    MatchesText(name, term) || MatchesText(country, term)
  }

  /** The test ignores the case of the term. */
  lemma MatchesTextIgnoresCase(x: string, term: string)
    ensures MatchesText(x, ToLower(term)) == MatchesText(x, term)
  {
    ToLowerIdempotent(term);
  }

  /** A name always matches its own text, in any case. */
  lemma MatchesOwnName(x: string)
    ensures MatchesText(x, x)
  {
    assert IsPrefix(ToLower(x), ToLower(x));
  }

  /**
   * The count line of either list, `{n} Leagues` or `{n} Teams`: the digits before
   * the first space read back as the count, and the noun follows the space.
   */
  function CountLabel(n: nat, noun: string): (r: string)
    ensures var k := |NatToString(n)|;
      k < |r| && r[k] == ' ' && r[k + 1..] == noun &&
      (forall i :: 0 <= i < k ==> IsDigit(r[i])) && ParseNat(r[..k]) == n
  {
    var digits := NatToString(n);
    ParseNatToString(n);
    var r := digits + " " + noun;
    assert r[..|digits|] == digits;
    r
  }

  /** Two lists of different sizes never show the same count line. */
  lemma CountLabelInjective(a: nat, b: nat, noun: string)
    requires CountLabel(a, noun) == CountLabel(b, noun)
    ensures a == b
  {
    assert |NatToString(a)| == |NatToString(b)|;
  }

  /** The two pieces of state `toggleSearch` touches. */
  datatype Search = Search(showSearch: bool, searchTerm: string)

  const CLOSED: Search := Search(false, "")

  /** `toggleSearch`: flip the box; closing it also clears the term. */
  function Toggle(s: Search): (r: Search)
    ensures r.showSearch == !s.showSearch
    ensures s.showSearch ==> r.searchTerm == ""
    ensures !s.showSearch ==> r.searchTerm == s.searchTerm
  {
    if s.showSearch then Search(false, "") else Search(true, s.searchTerm)
  }

  /** Opening and closing the box returns to the closed box with no term. */
  lemma ToggleTwiceFromClosed()
    ensures Toggle(Toggle(CLOSED)) == CLOSED
  {
  }

  /** After any toggle that closes the box, the term is empty. */
  lemma ClosedBoxHasNoTerm(s: Search)
    requires s.showSearch
    ensures Toggle(s) == CLOSED
  {
  }

  /** Typing only ever happens in an open box; a closed box reachable from the start has no term. */
  ghost predicate Reachable(s: Search) {
    s.showSearch || s.searchTerm == ""
  }

  lemma ToggleKeepsReachable(s: Search)
    requires Reachable(s)
    ensures Reachable(Toggle(s))
  {
  }
}
