/**
 * The "last matches" tab of `components/match/TeamLastMatches.tsx`: the
 * win/draw/loss letter of each recent match from one team's point of view, its
 * colour, and the fallback to the mock list trimmed to five entries.
 */
module TeamLastMatches {
  import opened Wrappers
  import opened Text

  /** One recent match, reduced to the ids and the goals. */
  datatype LastMatch = LastMatch(homeId: int, awayId: int, homeGoals: Option<int>, awayGoals: Option<int>)

  /** The four strings `getMatchResult` can return. */
  datatype Outcome = W | L | D | NotAvailable

  function OutcomeText(o: Outcome): (r: string)
    ensures o == NotAvailable <==> r == "N/A"
    ensures |r| == 1 <==> o != NotAvailable
  {
    match o
    case W => "W"
    case L => "L"
    case D => "D"
    case NotAvailable => "N/A"
  }

  /** Every letter names one outcome. */
  lemma OutcomeTextInjective(a: Outcome, b: Outcome)
    requires OutcomeText(a) == OutcomeText(b)
    ensures a == b
  {
  }

  /** The outcome seen from the other side of the pitch. */
  function Mirror(o: Outcome): Outcome {
    match o
    case W => L
    case L => W
    case D => D
    case NotAvailable => NotAvailable
  }

  /** `getMatchResult`: a team that is not the home side is read as the away side. */
  function MatchResult(m: LastMatch, teamId: int): (r: Outcome)
    ensures r == NotAvailable <==> m.homeGoals.None? || m.awayGoals.None?
    ensures r == D <==> m.homeGoals.Some? && m.awayGoals.Some? && m.homeGoals.value == m.awayGoals.value
    ensures m.homeId == teamId && r == W <==> m.homeId == teamId && m.homeGoals.Some? && m.awayGoals.Some? && m.homeGoals.value > m.awayGoals.value
    ensures m.homeId == teamId && r == L <==> m.homeId == teamId && m.homeGoals.Some? && m.awayGoals.Some? && m.homeGoals.value < m.awayGoals.value
    ensures m.homeId != teamId && r == W <==> m.homeId != teamId && m.homeGoals.Some? && m.awayGoals.Some? && m.homeGoals.value < m.awayGoals.value
    ensures m.homeId != teamId && r == L <==> m.homeId != teamId && m.homeGoals.Some? && m.awayGoals.Some? && m.homeGoals.value > m.awayGoals.value
  {
    if m.homeId == teamId then
      if m.homeGoals.None? || m.awayGoals.None? then NotAvailable
      else if m.homeGoals.value > m.awayGoals.value then W
      else if m.homeGoals.value < m.awayGoals.value then L
      else D
    else
      if m.homeGoals.None? || m.awayGoals.None? then NotAvailable
      else if m.homeGoals.value < m.awayGoals.value then W
      else if m.homeGoals.value > m.awayGoals.value then L
      else D
  }

  /** Any team other than the home team is given the home team's result mirrored. */
  lemma NonHomeIsMirrored(m: LastMatch, teamId: int)
    requires teamId != m.homeId
    ensures MatchResult(m, teamId) == Mirror(MatchResult(m, m.homeId))
  {
  }

  /** The two sides of a decisive match get W and L, and both get D on a draw. */
  lemma SidesAgree(m: LastMatch)
    requires m.homeId != m.awayId && m.homeGoals.Some? && m.awayGoals.Some?
    ensures m.homeGoals.value != m.awayGoals.value ==>
      {MatchResult(m, m.homeId), MatchResult(m, m.awayId)} == {W, L}
    ensures m.homeGoals.value == m.awayGoals.value ==>
      MatchResult(m, m.homeId) == D && MatchResult(m, m.awayId) == D
  {
    NonHomeIsMirrored(m, m.awayId);
  }

  datatype Colour = Green | Red | Yellow | Grey

  /** `getResultBgColor`: total over all strings, grey by default. */
  function ResultColour(result: string): (c: Colour)
    ensures c == Green <==> result == "W"
    ensures c == Red <==> result == "L"
    ensures c == Yellow <==> result == "D"
  {
    if result == "W" then Green
    else if result == "L" then Red
    else if result == "D" then Yellow
    else Grey
  }

  /** "N/A" is shown in the neutral colour. */
  lemma NotAvailableIsGrey()
    ensures ResultColour(OutcomeText(NotAvailable)) == Grey
  {
  }

  /** The five mock matches, seen from team 1. */
  const MOCK_LAST_MATCHES: seq<LastMatch> := [
    LastMatch(1, 2, Some(2), Some(1)),
    LastMatch(3, 1, Some(0), Some(3)),
    LastMatch(1, 4, Some(1), Some(1)),
    LastMatch(5, 1, Some(2), Some(0)),
    LastMatch(1, 6, Some(3), Some(0))
  ]

  /** `(last_5 || mockLastMatches).slice(0, 5)`: an empty array is truthy and is kept. */
  function Listed(last5: Option<seq<LastMatch>>): (r: seq<LastMatch>)
    ensures last5.Some? ==> r == last5.value[..if |last5.value| < 5 then |last5.value| else 5]
    ensures last5.None? ==> r == MOCK_LAST_MATCHES
    ensures |r| <= 5
  {
    var ms := if last5.Some? then last5.value else MOCK_LAST_MATCHES;
    ms[..if |ms| < 5 then |ms| else 5]
  }

  /** The letters of the listed matches, in order. */
  function Results(ms: seq<LastMatch>, teamId: int): (r: seq<Outcome>)
    ensures |r| == |ms|
    ensures forall i :: 0 <= i < |ms| ==> r[i] == MatchResult(ms[i], teamId)
  {
    if ms == [] then [] else [MatchResult(ms[0], teamId)] + Results(ms[1..], teamId)
  }

  /** The mock list read for team 1 is W, W, D, L, W. */
  lemma MockForm()
    ensures Results(Listed(None), 1) == [W, W, D, L, W]
  {
  }

  /** A longer list is cut to its first five matches, in order. */
  lemma ListedIsPrefix(last5: seq<LastMatch>)
    ensures |Listed(Some(last5))| == if |last5| < 5 then |last5| else 5
    ensures forall i :: 0 <= i < |Listed(Some(last5))| ==> Listed(Some(last5))[i] == last5[i]
  {
  }

  /** `goals ?? '-'`: the dash only for a missing goal count. */
  function GoalCell(goals: Option<int>): (r: string)
    ensures goals.None? <==> r == "-"
  {
    if goals.Some? then IntToString(goals.value) else "-"
  }

  /** Different goal counts are shown differently. */
  lemma GoalCellInjective(a: Option<int>, b: Option<int>)
    requires GoalCell(a) == GoalCell(b)
    ensures a == b
  {
    if a.Some? && b.Some? {
      IntToStringInjective(a.value, b.value);
    }
  }
}
