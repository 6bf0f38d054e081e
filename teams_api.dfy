/**
 * The mock teams route `pages/api/teams.ts`: nine English teams, filtered by
 * `?country=`. The records carry a country code instead of the `flag` of the
 * application's `Team`.
 */
module TeamsApi {
  import opened Seqs
  import opened Text
  import opened QueryParams

  datatype ApiTeam = ApiTeam(id: int, name: string, country: string, countryCode: string, logo: string)

  function MockTeam(id: int, name: string, logo: string): ApiTeam {
    ApiTeam(id, name, "England", "gb-eng", logo)
  }

  const TEAMS: seq<ApiTeam> := [
    MockTeam(1, "Arsenal", "/teams/arsenal.png"),
    MockTeam(2, "Liverpool", "/teams/liverpool.png"),
    MockTeam(3, "Liverpool", "/teams/liverpool.png"),
    MockTeam(4, "Liverpool", "/teams/liverpool.png"),
    MockTeam(5, "Liverpool", "/teams/liverpool.png"),
    MockTeam(6, "Manchester City", "/teams/man-city.png"),
    MockTeam(7, "Manchester City", "/teams/man-city.png"),
    MockTeam(8, "Manchester City", "/teams/man-city.png"),
    MockTeam(9, "Manchester City", "/teams/man-city.png")
  ]

  /** Every mock record is in England. */
  lemma AllInEngland()
    ensures ToLower("England") == "england"
    ensures forall t :: t in TEAMS ==> CountryOf(t) == "England"
  {
    assert ToLower("England") == "england";
  }

  function CountryOf(t: ApiTeam): string {
    t.country
  }

  /** `handler`: the whole list, or the teams whose country equals the query ignoring case. */
  function Handler(country: Param): (r: seq<ApiTeam>)
    ensures IsSubsequence(r, TEAMS)
  {
    if IsText(country) then
      FilterIsSubsequence(SameCountry(CountryOf, country.s), TEAMS);
      ByCountry(CountryOf, country, TEAMS)
    else
      SubsequenceOfSelf(TEAMS);
      ByCountry(CountryOf, country, TEAMS)
  }

  /** A team is returned exactly when its country agrees with the query up to case. */
  lemma HandlerMembers(q: string)
    requires q != ""
    ensures forall t :: t in Handler(One(q)) <==> t in TEAMS && ToLower(t.country) == ToLower(q)
  {
    ByCountryMembers(CountryOf, q, TEAMS);
  }

  /** Any spelling of "england" returns all nine teams. */
  lemma EnglandReturnsAll(q: string)
    requires ToLower(q) == "england"
    ensures Handler(One(q)) == TEAMS
  {
    AllInEngland();
    ByCountryUniform(CountryOf, "England", q, TEAMS);
  }

  /** Any other country returns no team. */
  lemma OtherCountryReturnsNone(q: string)
    requires q != "" && ToLower(q) != "england"
    ensures Handler(One(q)) == []
  {
    AllInEngland();
    ByCountryUniform(CountryOf, "England", q, TEAMS);
  }

  /** The ids are 1 to 9 in order, so no team is listed twice. */
  lemma IdsAreDistinct()
    ensures forall i :: 0 <= i < |TEAMS| ==> TEAMS[i].id == i + 1
  {
  }
}
