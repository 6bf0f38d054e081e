/**
 * The live-matches panel of `components/LiveMatches.tsx`: the three-way filter,
 * the badge counts, and the choice between a featured card and the empty state.
 */
module LiveMatches {
  import opened Wrappers
  import opened Seqs
  import opened Text
  import opened Types
  import MatchSchedule

  datatype LiveFilter = AllMatches | LiveOnly | Favorites

  /** `fixtures-${today}-livematches`: its own cache entry, apart from the schedule's. */
  function LiveCacheKey(today: string): string {
    "fixtures-" + today + "-livematches"
  }

  /** Two dates of the same length never share an entry between the panel and the day schedule. */
  lemma LiveKeyDiffersFromScheduleKey(today: string, date: string)
    requires |today| == |date|
    ensures LiveCacheKey(today) != "fixtures-" + date
  {
    assert |LiveCacheKey(today)| == 9 + |today| + 12;
  }

  predicate Keeps(f: LiveFilter, m: Match) {
    match f
    case AllMatches => true
    case LiveOnly => m.status == LIVE
    case Favorites => false
  }

  function KeepsFn(f: LiveFilter): Match -> bool {
    m => Keeps(f, m)
  }

  function IsLive(m: Match): bool {
    m.status == LIVE
  }

  /** `matches ? matches.filter(...) : []`. */
  function FilteredMatches(f: LiveFilter, matches: Option<seq<Match>>): (r: seq<Match>)
    ensures matches.None? ==> r == []
    ensures matches.Some? ==> IsSubsequence(r, matches.value)
  {
    if matches.None? then []
    else
      FilterIsSubsequence(KeepsFn(f), matches.value);
      Filter(KeepsFn(f), matches.value)
  }

  /** 'all' keeps everything, 'live' exactly the live matches, 'favorites' nothing. */
  lemma FilterCases(f: LiveFilter, ms: seq<Match>)
    ensures f == AllMatches ==> FilteredMatches(f, Some(ms)) == ms
    ensures f == LiveOnly ==> FilteredMatches(f, Some(ms)) == Filter(IsLive, ms)
    ensures f == LiveOnly ==> forall m :: m in FilteredMatches(f, Some(ms)) <==> m in ms && m.status == LIVE
    ensures f == Favorites ==> FilteredMatches(f, Some(ms)) == []
  {
    match f
    case AllMatches => FilterAll(KeepsFn(f), ms);
    case LiveOnly =>
      FilterCongruent(KeepsFn(f), IsLive, ms);
      FilterMembers(IsLive, ms);
    case Favorites => FilterNone(KeepsFn(f), ms);
  }

  datatype Badges = Badges(live: nat, all: nat, favorites: nat)

  /** `liveCount`, `allCount`, `favoritesCount`: taken over all matches, whatever the filter. */
  function Counts(matches: Option<seq<Match>>): (b: Badges)
    ensures matches.None? ==> b == Badges(0, 0, 0)
    ensures matches.Some? ==> b.all == |matches.value| && b.live == |Filter(IsLive, matches.value)|
    ensures b.live <= b.all && b.favorites == 0
  {
    if matches.None? then Badges(0, 0, 0)
    else Badges(Count(IsLive, matches.value), |matches.value|, 0)
  }

  /** The live badge is the length of the list the 'live' filter shows. */
  lemma LiveBadgeMatchesLiveFilter(matches: Option<seq<Match>>)
    ensures Counts(matches).live == |FilteredMatches(LiveOnly, matches)|
  {
    if matches.Some? {
      FilterCases(LiveOnly, matches.value);
    }
  }

  datatype Panel = Spinner | ErrorBox | Featured(m: Match) | NoneFound

  /** The panels below the header, in order: spinner, error box, then featured card or empty state. */
  function Panels(isLoading: bool, hasError: bool, filtered: seq<Match>): (r: seq<Panel>)
    ensures isLoading <==> Spinner in r
    ensures hasError <==> ErrorBox in r
    ensures !isLoading && !hasError && filtered != [] ==> r == [Featured(filtered[0])]
    ensures !isLoading && !hasError && filtered == [] ==> r == [NoneFound]
    ensures isLoading || hasError ==> forall p :: p in r ==> p == Spinner || p == ErrorBox
  {
    (if isLoading then [Spinner] else []) +
    (if hasError then [ErrorBox] else []) +
    (if !isLoading && !hasError && |filtered| > 0 then [Featured(filtered[0])] else []) +
    (if !isLoading && !hasError && |filtered| == 0 then [NoneFound] else [])
  }

  /** `score !== undefined ? score : '-'`. */
  function ScoreCell(score: Option<int>): (r: string)
    ensures score.None? <==> r == "-"
    ensures score.Some? ==> r == IntToString(score.value)
  {
    if score.Some? then IntToString(score.value) else "-"
  }

  /** The line under the score: the minute or "• LIVE" while live, the kick-off time otherwise. */
  function TimeLine(m: Match): (r: string)
    ensures m.status == LIVE && Truthy(m.elapsed) ==> r == m.elapsed.value + "'"
    ensures m.status == LIVE && !Truthy(m.elapsed) ==> r == "• LIVE"
    ensures m.status != LIVE ==> r == m.time
  {
    if m.status == LIVE then (if Truthy(m.elapsed) then m.elapsed.value + "'" else "• LIVE")
    else m.time
  }

  /**
   * The panel's time line agrees with the day schedule's cells: a live minute reads the
   * same in both, a not-started match shows its kick-off time in both, and a live match
   * without a minute shows "• LIVE" here but "•'" in the schedule.
   */
  lemma TimeLineAgreesWithSchedule(m: Match)
    ensures m.status == LIVE && Truthy(m.elapsed) ==>
              TimeLine(m) == MatchSchedule.ElapsedLabel(m) == MatchSchedule.StatusLabel(m)
    ensures m.status == LIVE && !Truthy(m.elapsed) ==>
              MatchSchedule.ElapsedLabel(m) == "" && TimeLine(m) != MatchSchedule.StatusLabel(m)
    ensures m.status == NOT_STARTED ==> TimeLine(m) == MatchSchedule.StatusLabel(m)
  {
  }
}
