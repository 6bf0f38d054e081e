/** The mock leagues route `pages/api/leagues.ts`: nine English leagues, filtered by `?country=`. */
module LeaguesApi {
  import opened Seqs
  import opened Text
  import opened Types
  import opened QueryParams

  const FLAG: string := "https://flagcdn.com/w20/gb-eng.png"

  function MockLeague(id: int, name: string, logo: string): League {
    League(id, name, "England", logo, FLAG, "Europe")
  }

  const LEAGUES: seq<League> := [
    MockLeague(1, "Arsenal", "/leagues/arsenal.png"),
    MockLeague(2, "Arsenal", "/leagues/arsenal.png"),
    MockLeague(3, "Arsenal", "/leagues/arsenal.png"),
    MockLeague(4, "Chelsea", "/leagues/chelsea.png"),
    MockLeague(5, "Liverpool", "/leagues/liverpool.png"),
    MockLeague(6, "Manchester City", "/leagues/man-city.png"),
    MockLeague(7, "Manchester City", "/leagues/man-city.png"),
    MockLeague(8, "Manchester City", "/leagues/man-city.png"),
    MockLeague(9, "Manchester City", "/leagues/man-city.png")
  ]

  /** Every mock record is in England. */
  lemma AllInEngland()
    ensures ToLower("England") == "england"
    ensures forall l :: l in LEAGUES ==> CountryOf(l) == "England"
  {
    assert ToLower("England") == "england";
  }

  function CountryOf(l: League): string {
    l.country
  }

  /** `handler`: the whole list, or the leagues whose country equals the query ignoring case. */
  function Handler(country: Param): (r: seq<League>)
    ensures IsSubsequence(r, LEAGUES)
  {
    if IsText(country) then
      FilterIsSubsequence(SameCountry(CountryOf, country.s), LEAGUES);
      ByCountry(CountryOf, country, LEAGUES)
    else
      SubsequenceOfSelf(LEAGUES);
      ByCountry(CountryOf, country, LEAGUES)
  }

  /** A league is returned exactly when its country agrees with the query up to case. */
  lemma HandlerMembers(q: string)
    requires q != ""
    ensures forall l :: l in Handler(One(q)) <==> l in LEAGUES && ToLower(l.country) == ToLower(q)
  {
    ByCountryMembers(CountryOf, q, LEAGUES);
  }

  /** Every mock league is in England, so any spelling of "england" returns all nine. */
  lemma EnglandReturnsAll(q: string)
    requires ToLower(q) == "england"
    ensures Handler(One(q)) == LEAGUES
  {
    AllInEngland();
    ByCountryUniform(CountryOf, "England", q, LEAGUES);
  }

  /** Any other country returns no league. */
  lemma OtherCountryReturnsNone(q: string)
    requires q != "" && ToLower(q) != "england"
    ensures Handler(One(q)) == []
  {
    AllInEngland();
    ByCountryUniform(CountryOf, "England", q, LEAGUES);
  }

  /** Without a usable query the whole list is returned. */
  lemma NoQueryReturnsAll(country: Param)
    requires !IsText(country)
    ensures Handler(country) == LEAGUES
  {
  }
}
