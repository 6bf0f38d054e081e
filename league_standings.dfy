/**
 * The standings tab of `components/match/LeagueStandings.tsx`: which table is
 * shown, which rows are the fixture's teams, and how goal difference, form and
 * movement are rendered.
 */
module LeagueStandings {
  import opened Wrappers
  import opened Text
  import opened Types

  /** One table row, reduced to what the tab renders or tests. */
  datatype Standing = Standing(rank: int, teamId: int, points: int, goalsDiff: int, form: string,
                               status: string, description: Option<string>)

  datatype StandingGroup = StandingGroup(name: string, standings: seq<Standing>)

  /** The eight mock rows; the fixture's own teams are placed third and fifth. */
  function MockStandings(homeId: int, awayId: int): seq<Standing> {
    [ Standing(1, 1, 30, 15, "WWWDW", "up", Some("Champions League")),
      Standing(2, 2, 25, 10, "WDWWL", "up", Some("Champions League")),
      Standing(3, homeId, 23, 8, "DWWLW", "same", Some("Europa League")),
      Standing(4, 4, 20, 5, "WLWDW", "down", Some("Europa League")),
      Standing(5, awayId, 18, 2, "LWDWL", "same", Some("Conference League")),
      Standing(6, 6, 15, -2, "LDWLD", "down", None),
      Standing(7, 7, 10, -8, "LLDLW", "down", None),
      Standing(8, 8, 5, -15, "LLLLD", "down", Some("Relegation")) ]
  }

  /** `standings && standings.length > 0 ? standings[0].standings : mockStandings`. */
  function StandingsData(standings: Option<seq<StandingGroup>>, homeId: int, awayId: int): (r: seq<Standing>)
    ensures standings.Some? && standings.value != [] ==> r == standings.value[0].standings
    ensures standings.None? || standings.value == [] ==> r == MockStandings(homeId, awayId) && |r| == 8
  {
    if standings.Some? && |standings.value| > 0 then standings.value[0].standings
    else MockStandings(homeId, awayId)
  }

  /** The mock table is ranked 1 to 8 in order, with points falling down the table. */
  lemma MockTableRanked(homeId: int, awayId: int)
    ensures var t := StandingsData(None, homeId, awayId);
      (forall i :: 0 <= i < |t| ==> t[i].rank == i + 1) &&
      (forall i, j :: 0 <= i < j < |t| ==> t[i].points > t[j].points)
  {
  }

  /** `isMatchTeam`. */
  predicate IsMatchTeam(teamId: int, homeId: int, awayId: int) {
    teamId == homeId || teamId == awayId
  }

  datatype Tag = HomeTag | AwayTag

  /** The tag of a highlighted row: "Home" iff it is the home team, else "Away". */
  function TagOf(teamId: int, homeId: int, awayId: int): (t: Option<Tag>)
    ensures t.Some? <==> IsMatchTeam(teamId, homeId, awayId)
    ensures t == Some(HomeTag) <==> teamId == homeId
  {
    if !IsMatchTeam(teamId, homeId, awayId) then None
    else if teamId == homeId then Some(HomeTag) else Some(AwayTag)
  }

  /** In the mock table, the third row is tagged Home and, for two different teams, the fifth Away. */
  lemma MockHighlightsFixtureTeams(homeId: int, awayId: int)
    ensures var t := MockStandings(homeId, awayId);
      TagOf(t[2].teamId, homeId, awayId) == Some(HomeTag) &&
      (homeId != awayId ==> TagOf(t[4].teamId, homeId, awayId) == Some(AwayTag))
  {
  }

  /** `goalsDiff > 0 ? `+${goalsDiff}` : goalsDiff`. */
  function GoalDiffText(gd: int): (r: string)
    ensures |r| >= 1
    ensures r[0] == '+' <==> gd > 0
    ensures r[0] == '-' <==> gd < 0
  {
    if gd > 0 then "+" + IntToString(gd) else IntToString(gd)
  }

  /** Different goal differences are printed differently. */
  lemma GoalDiffTextInjective(a: int, b: int)
    requires GoalDiffText(a) == GoalDiffText(b)
    ensures a == b
  {
    if a > 0 && b > 0 {
      assert GoalDiffText(a)[1..] == IntToString(a);
      assert GoalDiffText(b)[1..] == IntToString(b);
    }
    IntToStringInjective(a, b);
  }

  datatype FormClass = FormWin | FormLoss | FormDraw | FormOther

  function ClassOf(c: char): (k: FormClass)
    ensures k == FormWin <==> c == 'W'
    ensures k == FormLoss <==> c == 'L'
    ensures k == FormDraw <==> c == 'D'
  {
    if c == 'W' then FormWin else if c == 'L' then FormLoss else if c == 'D' then FormDraw else FormOther
  }

  datatype Badge = Badge(letter: char, cls: FormClass)

  /** `renderForm`: nothing for an empty form, else one badge per character, in order. */
  function RenderForm(form: string): (r: Option<seq<Badge>>)
    ensures r.None? <==> form == ""
    ensures r.Some? ==> |r.value| == |form| && forall i :: 0 <= i < |form| ==> r.value[i] == Badge(form[i], ClassOf(form[i]))
  {
    if form == "" then None
    else Some(seq(|form|, i requires 0 <= i < |form| => Badge(form[i], ClassOf(form[i]))))
  }

  /** The badges spell out the form string again. */
  lemma RenderFormLetters(form: string)
    requires form != ""
    ensures seq(|RenderForm(form).value|, i requires 0 <= i < |RenderForm(form).value| => RenderForm(form).value[i].letter) == form
  {
  }

  datatype Arrow = Up | Down | Level

  /** `renderStatus`. */
  function RenderStatus(status: string): (a: Arrow)
    ensures a == Up <==> status == "up"
    ensures a == Down <==> status == "down"
  {
    if status == "up" then Up else if status == "down" then Down else Level
  }

  /** The rank badge is highlighted iff the description is truthy. */
  function RankHighlighted(s: Standing): (b: bool)
    ensures b <==> s.description.Some? && s.description.value != ""
  {
    Truthy(s.description)
  }

  /** In the mock table every row with a qualification or relegation zone is highlighted, rows 6 and 7 are not. */
  lemma MockRankBadges(homeId: int, awayId: int)
    ensures var t := MockStandings(homeId, awayId);
      forall i :: 0 <= i < |t| ==> (RankHighlighted(t[i]) <==> i != 5 && i != 6)
  {
  }
}
