/**
 * The API client and normaliser of `services/api.ts`: media URL templates, the
 * status-code mapping, the fixture mapping of `getFixturesByDate`, the
 * country-group flattening of `getSelectedTeams` / `getSelectedLeagues`, and the
 * single error every failure is turned into.
 *
 * A call's HTTP exchange is an input (`Http`): the parsed body of a successful
 * response, a non-2xx status, or a thrown transport/JSON error.
 */
module Api {
  import opened Wrappers
  import opened Text
  import opened Types

  // ---------------------------------------------------------------------
  // Transport outcome and the single error message
  // ---------------------------------------------------------------------

  datatype Http<T> = Ok(body: T) | NotOk(status: int) | Threw

  /** The message every failure of the client surfaces as. */
  const FETCH_FAILED: string := "Failed to fetch data from API"

  // ---------------------------------------------------------------------
  // MEDIA_URLS
  // ---------------------------------------------------------------------

  const HOST: string := "https://beta.api-score.top/"

  datatype MediaKind = TeamMedia | LeagueMedia | CountryMedia | PlayerMedia | CoachMedia | RefereeMedia

  /** The path under the host that each template puts in front of the id. */
  function MediaDirectory(kind: MediaKind): string {
    match kind
    case TeamMedia => "uploads/teams/"
    case LeagueMedia => "uploads/leagues/"
    case CountryMedia => "uploads/countries/"
    case PlayerMedia => "uploads/players/"
    case CoachMedia => "uploads/coaches/"
    case RefereeMedia => "referees/coaches/"
  }

  /** `MEDIA_URLS[kind](id)`. */
  function MediaUrl(kind: MediaKind, id: int): string {
    HOST + MediaDirectory(kind) + IntToString(id) + ".webp"
  }

  /** Within one kind, different ids give different URLs. */
  lemma MediaUrlInjective(kind: MediaKind, m: int, n: int)
    requires MediaUrl(kind, m) == MediaUrl(kind, n)
    ensures m == n
  {
    var p := HOST + MediaDirectory(kind);
    var a, b := IntToString(m), IntToString(n);
    assert MediaUrl(kind, m) == p + a + ".webp";
    assert MediaUrl(kind, n) == p + b + ".webp";
    assert |a| == |b|;
    assert a == MediaUrl(kind, m)[|p|..|p| + |a|];
    assert b == MediaUrl(kind, n)[|p|..|p| + |b|];
    IntToStringInjective(m, n);
  }

  // ---------------------------------------------------------------------
  // getMatchStatus (services/api.ts:167-197)
  // ---------------------------------------------------------------------

  /** Map a free-form upstream state code onto one of the four canonical statuses. */
  function GetMatchStatus(code: string): (r: string)
    ensures IsCanonicalStatus(r)
  {
    match code
    case "NS" | "TBD" | "SCHEDULED" => NOT_STARTED
    case "LIVE" | "1H" | "2H" | "HT" | "ET" | "BT" | "P" | "INT" => LIVE
    case "FT" | "FT_PEN" | "AET" | "FINISHED" => FINISHED
    case "SUSP" | "PST" | "CANC" | "ABD" | "CANCELLED" | "POSTPONED" => CANCELED
    case _ => NOT_STARTED
  }

  const LIVE_CODES: set<string> := {"LIVE", "1H", "2H", "HT", "ET", "BT", "P", "INT"}
  const FINISHED_CODES: set<string> := {"FT", "FT_PEN", "AET", "FINISHED"}
  const CANCELED_CODES: set<string> := {"SUSP", "PST", "CANC", "ABD", "CANCELLED", "POSTPONED"}

  /** The mapping as a table of code sets; every other code, "NS"/"TBD"/"SCHEDULED" included, is Not Started. */
  lemma StatusTable(code: string)
    ensures code in LIVE_CODES ==> GetMatchStatus(code) == LIVE
    ensures code in FINISHED_CODES ==> GetMatchStatus(code) == FINISHED
    ensures code in CANCELED_CODES ==> GetMatchStatus(code) == CANCELED
    ensures code !in LIVE_CODES + FINISHED_CODES + CANCELED_CODES ==> GetMatchStatus(code) == NOT_STARTED
  {
  }

  /** Each canonical status comes exactly from its code set (Not Started: from everything else). */
  lemma StatusPreimage(code: string)
    ensures GetMatchStatus(code) == LIVE <==> code in LIVE_CODES
    ensures GetMatchStatus(code) == FINISHED <==> code in FINISHED_CODES
    ensures GetMatchStatus(code) == CANCELED <==> code in CANCELED_CODES
    ensures GetMatchStatus(code) == NOT_STARTED <==> code !in LIVE_CODES + FINISHED_CODES + CANCELED_CODES
  {
    StatusTable(code);
  }

  // ---------------------------------------------------------------------
  // getFixturesByDate (services/api.ts:22-63)
  // ---------------------------------------------------------------------

  /** The fields of one upstream fixture record that the mapping reads. */
  datatype RawFixture = RawFixture(
    id: int,
    startingAt: string,
    leagueId: int,
    leagueName: string,
    leagueCountryName: string,
    homeTeamId: int,
    homeTeamName: string,
    awayTeamId: int,
    awayTeamName: string,
    state: string,
    scoreCurrentHome: Option<int>,
    scoreCurrentAway: Option<int>)

  /**
   * `starting_at.split(' ')[0]` and `starting_at.split(' ')[1].substring(0, 5)`;
   * `None` when there is no space, where `[1]` is undefined and the call throws.
   */
  function DateAndTime(startingAt: string): (r: Option<(string, string)>)
    ensures r.Some? <==> ' ' in startingAt
  {
    var parts := Split(startingAt, ' ');
    if |parts| < 2 then
      assert ' ' !in startingAt by {
        JoinSplit(startingAt, ' ');
        SplitPartsFree(startingAt, ' ');
      }
      None
    else
      assert ' ' in startingAt by {
        JoinSplit(startingAt, ' ');
        assert Join(parts, ' ') == parts[0] + [' '] + Join(parts[1..], ' ');
        assert Join(parts, ' ')[|parts[0]|] == ' ';
      }
      Some((parts[0], Prefix(parts[1], 5)))
  }

  /** The placeholder elapsed minute: "45" exactly for the raw state "LIVE". */
  function PlaceholderElapsed(state: string): Option<string> {
    if state == "LIVE" then Some("45") else None
  }

  /** The per-record body of `data.data.map(...)`; `None` when it throws. */
  function MapFixture(f: RawFixture): (r: Option<Match>)
    ensures r.Some? <==> ' ' in f.startingAt
  {
    match DateAndTime(f.startingAt)
    case None => None
    case Some((date, time)) =>
      Some(Match(
        f.id, date, time,
        Competition(f.leagueName, MediaUrl(LeagueMedia, f.leagueId), f.leagueCountryName),
        Side(f.homeTeamName, MediaUrl(TeamMedia, f.homeTeamId)),
        Side(f.awayTeamName, MediaUrl(TeamMedia, f.awayTeamId)),
        GetMatchStatus(f.state),
        PlaceholderElapsed(f.state),
        f.scoreCurrentHome,
        f.scoreCurrentAway))
  }

  /** `data.data.map(...)`: fails as a whole as soon as one record throws. */
  function MapFixtures(fs: seq<RawFixture>): (r: Option<seq<Match>>)
    ensures r.Some? <==> forall i :: 0 <= i < |fs| ==> ' ' in fs[i].startingAt
    ensures r.Some? ==> |r.value| == |fs| && forall i :: 0 <= i < |fs| ==> MapFixture(fs[i]) == Some(r.value[i])
  {
    if fs == [] then Some([])
    else match (MapFixture(fs[0]), MapFixtures(fs[1..]))
      case (Some(m), Some(ms)) => Some([m] + ms)
      case _ => None
  }

  /**
   * `getFixturesByDate`: the response body's `data` field is `None` when it is not
   * an array (then `.map` throws). Every failure is the one generic error.
   */
  function GetFixturesByDate(response: Http<Option<seq<RawFixture>>>): (r: Result<seq<Match>, string>)
    ensures r.Failure? ==> r.error == FETCH_FAILED
  {
    match response
    case Ok(Some(fs)) =>
      (match MapFixtures(fs)
       case Some(ms) => Success(ms)
       case None => Failure(FETCH_FAILED))
    case _ => Failure(FETCH_FAILED)
  }

  /** The mapped list has the input's length and order, ids unchanged, and only canonical statuses. */
  lemma FixturesShape(fs: seq<RawFixture>)
    requires GetFixturesByDate(Ok(Some(fs))).Success?
    ensures var ms := GetFixturesByDate(Ok(Some(fs))).value;
      |ms| == |fs| &&
      forall i :: 0 <= i < |fs| ==>
        ms[i].id == fs[i].id &&
        ms[i].status == GetMatchStatus(fs[i].state) && IsCanonicalStatus(ms[i].status) &&
        (ms[i].elapsed == Some("45") <==> fs[i].state == "LIVE") &&
        (ms[i].elapsed.None? <==> fs[i].state != "LIVE") &&
        ms[i].homeScore == fs[i].scoreCurrentHome && ms[i].awayScore == fs[i].scoreCurrentAway &&
        ms[i].homeTeam.logo == MediaUrl(TeamMedia, fs[i].homeTeamId) &&
        ms[i].competition.logo == MediaUrl(LeagueMedia, fs[i].leagueId)
  {
    var ms := GetFixturesByDate(Ok(Some(fs))).value;
    forall i | 0 <= i < |fs|
      ensures ms[i].id == fs[i].id && ms[i].status == GetMatchStatus(fs[i].state)
      ensures ms[i].elapsed == PlaceholderElapsed(fs[i].state)
      ensures ms[i].homeScore == fs[i].scoreCurrentHome && ms[i].awayScore == fs[i].scoreCurrentAway
      ensures ms[i].homeTeam.logo == MediaUrl(TeamMedia, fs[i].homeTeamId)
      ensures ms[i].competition.logo == MediaUrl(LeagueMedia, fs[i].leagueId)
    {
      assert MapFixture(fs[i]) == Some(ms[i]);
    }
  }

  /** The call succeeds iff the response is ok, `data` is an array, and every `starting_at` has a space. */
  lemma FixturesSucceedIff(response: Http<Option<seq<RawFixture>>>)
    ensures GetFixturesByDate(response).Success? <==>
      response.Ok? && response.body.Some? &&
      forall i :: 0 <= i < |response.body.value| ==> ' ' in response.body.value[i].startingAt
  {
  }

  /** For "D T rest" with no space in D or T, the date is D and the time is T's first five characters. */
  lemma {:induction false} DateAndTimeParts(d: string, t: string, rest: string)
    requires ' ' !in d && ' ' !in t
    ensures DateAndTime(d + " " + t) == Some((d, Prefix(t, 5)))
    ensures DateAndTime(d + " " + t + " " + rest) == Some((d, Prefix(t, 5)))
  {
    SplitAtFirst(d, ' ', t);
    SplitNoSeparator(t, ' ');
    assert d + " " + t == d + [' '] + t;
    SplitAtFirst(d, ' ', t + " " + rest);
    SplitAtFirst(t, ' ', rest);
    assert d + " " + t + " " + rest == d + [' '] + (t + [' '] + rest);
  }

  /** The worked example: "2024-05-01 15:30:00" gives date "2024-05-01" and time "15:30". */
  lemma DateAndTimeExample()
    ensures DateAndTime("2024-05-01 15:30:00") == Some(("2024-05-01", "15:30"))
  {
    DateAndTimeParts("2024-05-01", "15:30:00", "");
    assert "2024-05-01" + " " + "15:30:00" == "2024-05-01 15:30:00";
    assert Prefix("15:30:00", 5) == "15:30";
  }

  /** A state of "1H" is Live but gets no elapsed minute. */
  lemma FirstHalfHasNoElapsed(f: RawFixture)
    requires f.state == "1H" && ' ' in f.startingAt
    ensures MapFixture(f).value.status == LIVE && MapFixture(f).value.elapsed == None
  {
  }

  // ---------------------------------------------------------------------
  // getFixtureDetails (services/api.ts:66-79)
  // ---------------------------------------------------------------------

  /** The detail payload's `data` field is passed through unmapped. */
  function GetFixtureDetails<D>(response: Http<D>): (r: Result<D, string>)
    ensures r.Success? <==> response.Ok?
    ensures r.Success? ==> r.value == response.body
    ensures r.Failure? ==> r.error == FETCH_FAILED
  {
    if response.Ok? then Success(response.body) else Failure(FETCH_FAILED)
  }

  // ---------------------------------------------------------------------
  // getSelectedTeams / getSelectedLeagues (services/api.ts:82-164)
  // ---------------------------------------------------------------------

  const PLACEHOLDER_FLAG: string := "https://via.placeholder.com/24"

  /** The group's flag: the host plus `country_image` when it is truthy, else the placeholder. */
  function Flag(countryImage: Option<string>): (r: string)
    ensures Truthy(countryImage) ==> r == HOST + countryImage.value
    ensures !Truthy(countryImage) ==> r == PLACEHOLDER_FLAG
  {
    if Truthy(countryImage) then HOST + countryImage.value else PLACEHOLDER_FLAG
  }

  datatype RawTeam = RawTeam(id: int, name: string, countryName: string)

  /** One country group; `teams` is `None` when missing or not an array. */
  datatype TeamGroup = TeamGroup(countryImage: Option<string>, teams: Option<seq<RawTeam>>)

  function GroupTeamsOf(g: TeamGroup): seq<RawTeam> {
    if g.teams.Some? then g.teams.value else []
  }

  function ToTeam(t: RawTeam, flag: string): Team {
    Team(t.id, t.name, t.countryName, MediaUrl(TeamMedia, t.id), flag)
  }

  /** The teams one group contributes, in order. */
  function GroupTeams(g: TeamGroup): (r: seq<Team>)
    ensures |r| == |GroupTeamsOf(g)|
    ensures forall j :: 0 <= j < |r| ==> r[j] == ToTeam(GroupTeamsOf(g)[j], Flag(g.countryImage))
  {
    seq(|GroupTeamsOf(g)|, j requires 0 <= j < |GroupTeamsOf(g)| => ToTeam(GroupTeamsOf(g)[j], Flag(g.countryImage)))
  }

  /** The flattened list: group-major, then team order. */
  function FlattenTeams(groups: seq<TeamGroup>): seq<Team> {
    if groups == [] then [] else FlattenTeams(groups[..|groups| - 1]) + GroupTeams(groups[|groups| - 1])
  }

  function TeamCount(groups: seq<TeamGroup>): nat {
    if groups == [] then 0 else TeamCount(groups[..|groups| - 1]) + |GroupTeamsOf(groups[|groups| - 1])|
  }

  /** The flattened length is the sum of the per-group team counts. */
  lemma {:induction false} FlattenTeamsLength(groups: seq<TeamGroup>)
    ensures |FlattenTeams(groups)| == TeamCount(groups)
  {
    if groups != [] {
      FlattenTeamsLength(groups[..|groups| - 1]);
    }
  }

  /** Flattening two runs of groups is flattening each and concatenating (group-major order). */
  lemma {:induction false} FlattenTeamsConcat(a: seq<TeamGroup>, b: seq<TeamGroup>)
    ensures FlattenTeams(a + b) == FlattenTeams(a) + FlattenTeams(b)
    decreases |b|
  {
    if b == [] {
      assert a + b == a;
    } else {
      var b' := b[..|b| - 1];
      assert (a + b)[..|a + b| - 1] == a + b';
      FlattenTeamsConcat(a, b');
    }
  }

  /** The inner loop of `getSelectedTeams`: one group's teams, all with the group's flag. */
  method AppendGroupTeams(acc: seq<Team>, g: TeamGroup) returns (teams: seq<Team>)
    ensures teams == acc + GroupTeams(g)
  {
    teams := acc;
    if g.teams.Some? {
      var flag := Flag(g.countryImage);
      var j := 0;
      while j < |g.teams.value|
        invariant 0 <= j <= |g.teams.value|
        invariant teams == acc + GroupTeams(g)[..j]
      {
        teams := teams + [ToTeam(g.teams.value[j], flag)];
        assert GroupTeams(g)[..j + 1] == GroupTeams(g)[..j] + [GroupTeams(g)[j]];
        j := j + 1;
      }
      assert GroupTeams(g)[..j] == GroupTeams(g);
    } else {
      assert GroupTeams(g) == [];
    }
  }

  /** `getSelectedTeams`: the body's `data` is `None` when it is falsy or not an array. */
  method GetSelectedTeams(response: Http<Option<seq<TeamGroup>>>) returns (r: Result<seq<Team>, string>)
    ensures response.Ok? && response.body.Some? ==> r == Success(FlattenTeams(response.body.value))
    ensures response.Ok? && response.body.None? ==> r == Success([])
    ensures !response.Ok? ==> r == Failure(FETCH_FAILED)
  {
    if !response.Ok? {
      return Failure(FETCH_FAILED);
    }
    var teams: seq<Team> := [];
    if response.body.Some? {
      var groups := response.body.value;
      var i := 0;
      while i < |groups|
        invariant 0 <= i <= |groups|
        invariant teams == FlattenTeams(groups[..i])
      {
        teams := AppendGroupTeams(teams, groups[i]);
        assert groups[..i + 1][..i] == groups[..i];
        i := i + 1;
      }
      assert groups[..i] == groups;
    }
    return Success(teams);
  }

  /** The worked example: two groups of 2 and 3 teams give 5 teams, the second group's flag the placeholder. */
  lemma TwoGroupsExample(a: seq<RawTeam>, b: seq<RawTeam>, img: string)
    requires |a| == 2 && |b| == 3 && img != ""
    ensures var r := FlattenTeams([TeamGroup(Some(img), Some(a)), TeamGroup(None, Some(b))]);
      |r| == 5 && r[0].flag == HOST + img && r[4].flag == PLACEHOLDER_FLAG &&
      r[4].country == b[2].countryName
  {
    var gs := [TeamGroup(Some(img), Some(a)), TeamGroup(None, Some(b))];
    assert gs[..1] == [gs[0]];
    assert [gs[0]][..0] == [];
    assert FlattenTeams([gs[0]]) == GroupTeams(gs[0]);
    var r := FlattenTeams(gs);
    assert r == GroupTeams(gs[0]) + GroupTeams(gs[1]);
    assert r[4] == GroupTeams(gs[1])[2];
  }

  datatype RawLeague = RawLeague(id: int, name: string, countryName: string)

  /** One country group of leagues; `countryId` is the group's `country_id`. */
  datatype LeagueGroup = LeagueGroup(countryImage: Option<string>, countryId: Option<string>, leagues: Option<seq<RawLeague>>)

  function GroupLeaguesOf(g: LeagueGroup): seq<RawLeague> {
    if g.leagues.Some? then g.leagues.value else []
  }

  /** `country_id || ''`. */
  function Region(countryId: Option<string>): (r: string)
    ensures Truthy(countryId) ==> r == countryId.value
    ensures !Truthy(countryId) ==> r == ""
  {
    if Truthy(countryId) then countryId.value else ""
  }

  function ToLeague(l: RawLeague, flag: string, region: string): League {
    League(l.id, l.name, l.countryName, MediaUrl(LeagueMedia, l.id), flag, region)
  }

  function GroupLeagues(g: LeagueGroup): (r: seq<League>)
    ensures |r| == |GroupLeaguesOf(g)|
    ensures forall j :: 0 <= j < |r| ==> r[j] == ToLeague(GroupLeaguesOf(g)[j], Flag(g.countryImage), Region(g.countryId))
  {
    seq(|GroupLeaguesOf(g)|, j requires 0 <= j < |GroupLeaguesOf(g)| =>
      ToLeague(GroupLeaguesOf(g)[j], Flag(g.countryImage), Region(g.countryId)))
  }

  function FlattenLeagues(groups: seq<LeagueGroup>): seq<League> {
    if groups == [] then [] else FlattenLeagues(groups[..|groups| - 1]) + GroupLeagues(groups[|groups| - 1])
  }

  function LeagueCount(groups: seq<LeagueGroup>): nat {
    if groups == [] then 0 else LeagueCount(groups[..|groups| - 1]) + |GroupLeaguesOf(groups[|groups| - 1])|
  }

  lemma {:induction false} FlattenLeaguesLength(groups: seq<LeagueGroup>)
    ensures |FlattenLeagues(groups)| == LeagueCount(groups)
  {
    if groups != [] {
      FlattenLeaguesLength(groups[..|groups| - 1]);
    }
  }

  /** The inner loop of `getSelectedLeagues`: one group's leagues, all with the group's flag and region. */
  method AppendGroupLeagues(acc: seq<League>, g: LeagueGroup) returns (leagues: seq<League>)
    ensures leagues == acc + GroupLeagues(g)
  {
    leagues := acc;
    if g.leagues.Some? {
      var flag := Flag(g.countryImage);
      var region := Region(g.countryId);
      var j := 0;
      while j < |g.leagues.value|
        invariant 0 <= j <= |g.leagues.value|
        invariant leagues == acc + GroupLeagues(g)[..j]
      {
        leagues := leagues + [ToLeague(g.leagues.value[j], flag, region)];
        assert GroupLeagues(g)[..j + 1] == GroupLeagues(g)[..j] + [GroupLeagues(g)[j]];
        j := j + 1;
      }
      assert GroupLeagues(g)[..j] == GroupLeagues(g);
    } else {
      assert GroupLeagues(g) == [];
    }
  }

  /** `getSelectedLeagues`. */
  method GetSelectedLeagues(response: Http<Option<seq<LeagueGroup>>>) returns (r: Result<seq<League>, string>)
    ensures response.Ok? && response.body.Some? ==> r == Success(FlattenLeagues(response.body.value))
    ensures response.Ok? && response.body.None? ==> r == Success([])
    ensures !response.Ok? ==> r == Failure(FETCH_FAILED)
  {
    if !response.Ok? {
      return Failure(FETCH_FAILED);
    }
    var leagues: seq<League> := [];
    if response.body.Some? {
      var groups := response.body.value;
      var i := 0;
      while i < |groups|
        invariant 0 <= i <= |groups|
        invariant leagues == FlattenLeagues(groups[..i])
      {
        leagues := AppendGroupLeagues(leagues, groups[i]);
        assert groups[..i + 1][..i] == groups[..i];
        i := i + 1;
      }
      assert groups[..i] == groups;
    }
    return Success(leagues);
  }
}
