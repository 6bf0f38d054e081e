/**
 * The top-scorers tab of `components/match/TopScorers.tsx`: the fallback to the
 * mock table, the rank column, the highlight and tag of the fixture's teams, and
 * minutes per goal.
 */
module TopScorers {
  import opened Wrappers
  import LeagueStandings

  /** The first `statistics` entry of a player, which is the one the table reads. */
  datatype ScorerStats = ScorerStats(teamId: int, goals: nat, assists: nat, penalties: nat, appearances: nat, minutes: nat)

  datatype Player = Player(playerId: int, name: string, statistics: seq<ScorerStats>)

  /** The ten mock scorers; four of them play for the fixture's teams. */
  function MockTopScorers(homeId: int, awayId: int): seq<Player> {
    [ Player(1, "Player A", [ScorerStats(1, 15, 7, 3, 20, 1752)]),
      Player(2, "Player B", [ScorerStats(homeId, 12, 5, 2, 19, 1680)]),
      Player(3, "Player C", [ScorerStats(3, 10, 3, 1, 18, 1620)]),
      Player(4, "Player D", [ScorerStats(awayId, 9, 8, 1, 20, 1800)]),
      Player(5, "Player E", [ScorerStats(5, 8, 2, 0, 17, 1485)]),
      Player(6, "Player F", [ScorerStats(6, 7, 4, 2, 18, 1602)]),
      Player(7, "Player G", [ScorerStats(7, 7, 1, 0, 16, 1350)]),
      Player(8, "Player H", [ScorerStats(homeId, 6, 6, 1, 19, 1710)]),
      Player(9, "Player I", [ScorerStats(9, 6, 3, 0, 17, 1479)]),
      Player(10, "Player J", [ScorerStats(awayId, 5, 7, 0, 18, 1600)]) ]
  }

  /** `fixture.topScorers || mockTopScorers`: an empty array is truthy and is kept. */
  function TopScorersData(topScorers: Option<seq<Player>>, homeId: int, awayId: int): (r: seq<Player>)
    ensures topScorers.Some? ==> r == topScorers.value
    ensures topScorers.None? ==> r == MockTopScorers(homeId, awayId) && |r| == 10
    ensures topScorers.None? ==> forall i :: 0 <= i < |r| ==> r[i].playerId == i + 1 && |r[i].statistics| == 1
  {
    if topScorers.Some? then topScorers.value else MockTopScorers(homeId, awayId)
  }

  /**
   * `getMinutesPerGoal`: "-" (`None`) for no goals, else `Math.round(minutes / goals)`,
   * which for whole numbers is the nearest integer with halves rounded up.
   */
  function MinutesPerGoal(minutes: nat, goals: nat): (r: Option<nat>)
    ensures r.None? <==> goals == 0
    ensures r.Some? ==> 2 * r.value * goals <= 2 * minutes + goals < 2 * r.value * goals + 2 * goals
  {
    if goals == 0 then None
    else
      var q := (2 * minutes + goals) / (2 * goals);
      assert q * (2 * goals) <= 2 * minutes + goals < q * (2 * goals) + 2 * goals;
      Some(q)
  }

  /** The result is the only whole number within half a goal's share of the exact quotient. */
  lemma MinutesPerGoalUnique(minutes: nat, goals: nat, k: nat)
    requires goals > 0
    requires 2 * k * goals <= 2 * minutes + goals < 2 * k * goals + 2 * goals
    ensures MinutesPerGoal(minutes, goals) == Some(k)
  {
    var r := MinutesPerGoal(minutes, goals).value;
    var g := 2 * goals;
    assert r * g < (k + 1) * g;
    assert k * g < (r + 1) * g;
    CancelFactor(r, k + 1, g);
    CancelFactor(k, r + 1, g);
  }

  lemma CancelFactor(a: int, b: int, g: int)
    requires g > 0 && a * g < b * g
    ensures a < b
  {
    assert (a - b) * g == a * g - b * g;
  }

  /** Player A of the mock table: 1752 minutes for 15 goals is 117 minutes a goal. */
  lemma MockFirstRow()
    ensures MinutesPerGoal(1752, 15) == Some(117)
  {
    MinutesPerGoalUnique(1752, 15, 117);
  }

  datatype Row = Row(rank: nat, name: string, teamId: int, highlighted: bool,
                     tag: Option<LeagueStandings.Tag>, goals: nat, minutesPerGoal: Option<nat>)

  function RowOf(index: nat, p: Player, homeId: int, awayId: int): Row
    requires p.statistics != []
  {
    var st := p.statistics[0];
    Row(index + 1, p.name, st.teamId, LeagueStandings.IsMatchTeam(st.teamId, homeId, awayId),
        LeagueStandings.TagOf(st.teamId, homeId, awayId), st.goals, MinutesPerGoal(st.minutes, st.goals))
  }

  /**
   * The table rows, in the players' order. Rendering reads `statistics[0].team`,
   * which throws for a player with no statistics: such a list gives `None`.
   */
  function Rows(players: seq<Player>, homeId: int, awayId: int): (r: Option<seq<Row>>)
    ensures r.None? <==> exists i :: 0 <= i < |players| && players[i].statistics == []
    ensures r.Some? ==> |r.value| == |players|
    ensures r.Some? ==> forall i :: 0 <= i < |players| ==> r.value[i].rank == i + 1 && r.value[i].name == players[i].name
    ensures r.Some? ==> forall i :: 0 <= i < |players| ==>
                          (r.value[i].highlighted <==> LeagueStandings.IsMatchTeam(players[i].statistics[0].teamId, homeId, awayId))
    ensures r.Some? ==> forall i :: 0 <= i < |players| ==>
                          var st := players[i].statistics[0];
                          r.value[i].teamId == st.teamId &&
                          r.value[i].tag == LeagueStandings.TagOf(st.teamId, homeId, awayId) &&
                          (r.value[i].tag == Some(LeagueStandings.HomeTag) <==> st.teamId == homeId) &&
                          (r.value[i].tag.Some? <==> r.value[i].highlighted) &&
                          r.value[i].goals == st.goals &&
                          r.value[i].minutesPerGoal == MinutesPerGoal(st.minutes, st.goals)
  {
    if exists i :: 0 <= i < |players| && players[i].statistics == [] then None
    else Some(seq(|players|, i requires 0 <= i < |players| => RowOf(i, players[i], homeId, awayId)))
  }

  /** With the mock table, exactly the rows of players B, D, H and J are highlighted. */
  lemma MockHighlights(homeId: int, awayId: int)
    requires homeId !in {1, 3, 5, 6, 7, 9} && awayId !in {1, 3, 5, 6, 7, 9}
    ensures var r := Rows(TopScorersData(None, homeId, awayId), homeId, awayId);
      r.Some? && forall i :: 0 <= i < 10 ==> (r.value[i].highlighted <==> i in {1, 3, 7, 9})
  {
    var ps := MockTopScorers(homeId, awayId);
    assert forall i :: 0 <= i < |ps| ==> ps[i].statistics != [];
  }
}
