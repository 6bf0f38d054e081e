/**
 * The fixture header of `components/match/MatchHeader.tsx`: the status text and
 * its colour, and the "VS" placeholder versus the score.
 */
module MatchHeader {
  import opened Wrappers
  import opened Text

  /** `${elapsed}` for `number | null`. */
  function ElapsedText(elapsed: Option<int>): string {
    if elapsed.Some? then IntToString(elapsed.value) else "null"
  }

  /** The three in-play codes whose text carries the minute. */
  predicate ShowsMinute(status: string) {
    status == "LIVE" || status == "1H" || status == "2H"
  }

  /** `getStatusDisplay`: a fixed text for NS, HT and FT, the minute for the in-play codes, the code itself otherwise. */
  function StatusDisplay(status: string, elapsed: Option<int>): (r: string)
    ensures status == "NS" ==> r == "Not Started"
    ensures status == "HT" ==> r == "Half Time"
    ensures status == "FT" ==> r == "Full Time"
    ensures status == "LIVE" ==> r == "LIVE " + ElapsedText(elapsed) + "'"
    ensures status == "1H" ==> r == "1st Half " + ElapsedText(elapsed) + "'"
    ensures status == "2H" ==> r == "2nd Half " + ElapsedText(elapsed) + "'"
    ensures !ShowsMinute(status) && status !in {"NS", "HT", "FT"} ==> r == status
  {
    var minute := ElapsedText(elapsed) + "'";
    match status
    case "NS" => "Not Started"
    case "LIVE" => "LIVE " + minute
    case "HT" => "Half Time"
    case "FT" => "Full Time"
    case "1H" => "1st Half " + minute
    case "2H" => "2nd Half " + minute
    case _ => status
  }

  datatype Colour = Red | Grey | Blue

  /** `getStatusColor`. */
  function StatusColour(status: string): (c: Colour)
    ensures c == Red <==> ShowsMinute(status)
    ensures c == Grey <==> status in {"FT", "AET", "PEN"}
  {
    if ShowsMinute(status) then Red
    else if status == "FT" || status == "AET" || status == "PEN" then Grey
    else Blue
  }

  /** The red codes are exactly the ones whose text ends with the minute; half time is blue. */
  lemma RedMeansMinuteShown(status: string, elapsed: Option<int>)
    ensures StatusColour(status) == Red <==> ShowsMinute(status)
    ensures StatusColour("HT") == Blue && StatusDisplay("HT", elapsed) == "Half Time"
    ensures StatusColour("NS") == Blue && StatusColour("FT") == Grey
  {
  }

  datatype Centre = Vs | Score(home: int, away: int)

  /** "VS" iff the match has not started; the score otherwise, with a null goal count as 0. */
  function CentreOf(status: string, homeGoals: Option<int>, awayGoals: Option<int>): (c: Centre)
    ensures c == Vs <==> status == "NS"
    ensures c.Score? ==> c.home == (if homeGoals.Some? then homeGoals.value else 0)
    ensures c.Score? ==> c.away == (if awayGoals.Some? then awayGoals.value else 0)
  {
    if status == "NS" then Vs else Score(homeGoals.GetOr(0), awayGoals.GetOr(0))
  }

  /** A started match with no goals recorded shows 0 - 0. */
  lemma NoGoalsShowsNil(status: string)
    requires status != "NS"
    ensures CentreOf(status, None, None) == Score(0, 0)
  {
  }
}
