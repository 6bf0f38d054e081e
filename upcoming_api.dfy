/**
 * The mock upcoming-matches route `pages/api/matches/upcoming.ts`: three
 * fixtures over two days, filtered by `?date=`.
 */
module UpcomingApi {
  import opened Seqs
  import opened QueryParams

  datatype UpcomingMatch = UpcomingMatch(id: int, league: string, date: string, time: string, home: string, away: string)

  const UPCOMING: seq<UpcomingMatch> := [
    UpcomingMatch(1, "Premier League", "2023-08-24", "17:40", "Liverpool FC", "Manchester United"),
    UpcomingMatch(2, "La Liga", "2023-08-24", "17:40", "Liverpool FC", "Manchester United"),
    UpcomingMatch(3, "Bundesliga", "2023-08-25", "19:30", "Bayern Munich", "Borussia Dortmund")
  ]

  function OnDate(d: string): UpcomingMatch -> bool {
    (m: UpcomingMatch) => m.date == d
  }

  /** `handler`: the whole list, or the fixtures whose date is exactly the query. */
  function Handler(date: Param): (r: seq<UpcomingMatch>)
    ensures !IsText(date) ==> r == UPCOMING
    ensures IsSubsequence(r, UPCOMING)
  {
    if IsText(date) then
      FilterIsSubsequence(OnDate(date.s), UPCOMING);
      Filter(OnDate(date.s), UPCOMING)
    else
      SubsequenceOfSelf(UPCOMING);
      UPCOMING
  }

  function Ids(ms: seq<UpcomingMatch>): (r: seq<int>)
    ensures |r| == |ms|
    ensures forall i :: 0 <= i < |ms| ==> r[i] == ms[i].id
  {
    if ms == [] then [] else [ms[0].id] + Ids(ms[1..])
  }

  /** A fixture is returned exactly when its date is the query. */
  lemma HandlerMembers(d: string)
    requires d != ""
    ensures forall m :: m in Handler(One(d)) <==> m in UPCOMING && m.date == d
  {
    FilterMembers(OnDate(d), UPCOMING);
  }

  /** The first day has the first two fixtures, the second day the third. */
  lemma MockDays()
    ensures Ids(Handler(One("2023-08-24"))) == [1, 2]
    ensures Ids(Handler(One("2023-08-25"))) == [3]
  {
  }

  /** A date with no fixture gives an empty list. */
  lemma OtherDateIsEmpty(d: string)
    requires d != "" && d != "2023-08-24" && d != "2023-08-25"
    ensures Handler(One(d)) == []
  {
    FilterNone(OnDate(d), UPCOMING);
  }
}
