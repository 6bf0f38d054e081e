# Live-score front end: a Dafny model of its decision logic

The live-score site is a Next.js application. It shows football fixtures, live matches,
leagues, teams and news, and a detail page per fixture with tabs for the head-to-head
record, recent form, events, statistics, standings and top scorers. Almost all of it is
markup. This project models the logic under the markup and proves what that logic
promises:

- the fixture normaliser and the country-group flattening of `services/api.ts`;
- the keyed five-minute cache and request state of the `useApiData` hook;
- the list shaping of the home page (tab filters, grouping by competition, labels, slugs,
  featured-match choice and search);
- the per-tab rules of the fixture page;
- the news ticker and the header toggles, both small state machines;
- the four mock API routes under `pages/api/`.

Each source file has one module. Modules that change state use classes:

- `ApiData.Cache` and `ApiData.ApiData` for the hook;
- `BreakingNews.Ticker`;
- `Header.HeaderState`;
- the search state of the two lists;
- the featured-fixture id.

Loops in the source are `while` loops here, each proved against a specification
function:

- `calculateSummary`;
- the nested `forEach`/`push` flattening;
- `groupMatchesByCompetition`, which uses a dictionary plus its key order;
- `generateCalendarDays`.

Everything else is functions and lemmas. The shared modules are:

- `Wrappers`: `Option` and `Result`;
- `Seqs`: `filter`, `find` and `findIndex`, with the subsequence facts;
- `Text`: ASCII lower-casing, `includes`, number printing, `split`, and the `\s+`
  replacement over ASCII white space;
- `Types`: the entities of `types/index.ts`;
- `SearchBox`: the search box shared by the two lists;
- `QueryParams`: the query-string values of the API routes.

JavaScript details are written out where they decide a result:

- truthiness: an empty string is falsy, an id of 0 is falsy, and an empty array is truthy,
  so `x || mock` keeps `[]`;
- `${null}` prints as `null`;
- `slice` with a negative end;
- `replace` with a string pattern removes only the first match;
- numbers are printed in decimal.

Where the code and its description disagree, the model follows the code:

- The fixture time is the first five characters of the second space-separated field. A
  `starting_at` without a space makes the whole `map` throw, and the call then fails with
  the generic message.
- The standings rank badge is highlighted when the description is truthy. An empty
  description is not highlighted, although it is non-null.
- `MatchSchedule`'s "All" badge counts the filtered list, not every match, so on the live
  tab it equals the live badge.
- The `limit` of the news route is read by `slice`. A negative number therefore drops
  items from the end instead of being ignored.

## Model

| member | source | states |
|---|---|---|
| Api.MediaUrlInjective | services/api.ts:6-13 | within one media kind, two ids with the same URL are equal |
| Api.GetMatchStatus | services/api.ts:167-197 | every upstream code maps to one of the four canonical statuses |
| Api.StatusTable | services/api.ts:167-197 | the live, finished and cancelled code sets map to their status; every other code maps to Not Started |
| Api.StatusPreimage | services/api.ts:167-197 | each status comes from exactly its own code set, in both directions |
| Api.DateAndTime | services/api.ts:35-39 | a date and a time exist exactly when `starting_at` contains a space |
| Api.MapFixture | services/api.ts:33-58 | a record maps without throwing exactly when its `starting_at` has a space |
| Api.MapFixtures | services/api.ts:33-59 | the map succeeds iff every record has a space; it then keeps the length, and each output is the mapped input at the same position |
| Api.GetFixturesByDate | services/api.ts:22-63 | every failure carries the single message "Failed to fetch data from API" |
| Api.FixturesShape | services/api.ts:33-59 | a successful list has the input's length and order, the same ids and scores, canonical statuses, elapsed "45" iff the state is "LIVE", and the team and league logo URLs |
| Api.FixturesSucceedIff | services/api.ts:22-63 | the call succeeds iff the response is ok, `data` is present, and every `starting_at` has a space |
| Api.DateAndTimeParts | services/api.ts:35-39 | for "D T" or "D T rest", the date is D and the time is the first five characters of T |
| Api.DateAndTimeExample | services/api.ts:35-39 | "2024-05-01 15:30:00" gives "2024-05-01" and "15:30" |
| Api.FirstHalfHasNoElapsed | services/api.ts:54-55 | a "1H" fixture is Live but has no elapsed minute |
| Api.GetFixtureDetails | services/api.ts:66-79 | an ok response passes the body through unchanged; any other response fails with the generic message |
| Api.Flag | services/api.ts:101-103 | the flag is the host plus `country_image` when that is truthy, else the placeholder URL |
| Api.GroupTeams | services/api.ts:98-112 | one group contributes its teams in order, each with the group's flag and its team logo URL |
| Api.FlattenTeamsLength | services/api.ts:94-117 | the flattened length is the sum of the per-group team counts |
| Api.FlattenTeamsConcat | services/api.ts:96-115 | flattening is group-major: flattening two runs of groups is concatenating their flattenings |
| Api.AppendGroupTeams | services/api.ts:98-113 | the inner loop appends exactly that group's teams |
| Api.GetSelectedTeams | services/api.ts:82-121 | an ok response gives the flattened list, or [] when `data` is not an array; a failed response gives the generic error |
| Api.TwoGroupsExample | services/api.ts:94-117 | groups of 2 and 3 teams give 5 teams; the first has the group's flag and the last has the placeholder |
| Api.Region | services/api.ts:153 | the region is `country_id` when truthy, else "" |
| Api.GroupLeagues | services/api.ts:140-155 | one group contributes its leagues in order, each with the group's flag and region |
| Api.FlattenLeaguesLength | services/api.ts:136-158 | the flattened length is the sum of the per-group league counts |
| Api.AppendGroupLeagues | services/api.ts:140-156 | the inner loop appends exactly that group's leagues |
| Api.GetSelectedLeagues | services/api.ts:124-164 | an ok response gives the flattened list, or [] when `data` is not an array; a failed response gives the generic error |
| ApiData.Caught | hooks/useApiData.ts:51-52 | a thrown Error is kept; any other thrown value becomes "An unknown error occurred" |
| ApiData.FetchStep | hooks/useApiData.ts:23-56 | loading always ends false; the loader runs iff there is no fresh entry; a hit serves the cached data and leaves the cache alone; a load stores `{result, now}` under a key; a failure keeps the old data, records the error and leaves the cache alone |
| ApiData.OtherKeysUntouched | hooks/useApiData.ts:46-49 | a fetch never changes another key's entry |
| ApiData.SecondFetchHits | hooks/useApiData.ts:29-37 | a second fetch within five minutes of a load is served from the cache without calling the loader |
| ApiData.NoKeyAlwaysLoads | hooks/useApiData.ts:29 | without a key the loader is always called |
| ApiData.BoundaryIsStale | hooks/useApiData.ts:12 | an entry exactly 300000 ms old is stale |
| ApiData.Cache.constructor | hooks/useApiData.ts:11 | the shared cache starts empty |
| ApiData.ApiData.constructor | hooks/useApiData.ts:19-21 | the hook starts with no data, loading, and no error |
| ApiData.ApiData.Fetch | hooks/useApiData.ts:23-56 | the hook's state and the shared cache become what `FetchStep` prescribes |
| ApiData.ApiData.Refetch | hooks/useApiData.ts:62 | `refetch` takes the same step as a fetch, so it honours fresh entries |
| ApiData.SharedCacheScenario | hooks/useApiData.ts:11-56 | two hooks with the same key: the second is served the first one's data |
| BreakingNews.ItemCount | components/BreakingNews.tsx:14-19 | there are four headlines |
| BreakingNews.Next | components/BreakingNews.tsx:25 | the next index is always in 0..N-1 |
| BreakingNews.Prev | components/BreakingNews.tsx:33 | the previous index of an index in range is in range |
| BreakingNews.PrevNextInverse | components/BreakingNews.tsx:31-37 | previous undoes next, next undoes previous, and previous from 0 is N-1 |
| BreakingNews.AdvanceIsAddition | components/BreakingNews.tsx:25 | k ticks from i land on (i + k) mod N |
| BreakingNews.FullCycle | components/BreakingNews.tsx:35 | N ticks return to the starting headline |
| BreakingNews.Ticker.constructor | components/BreakingNews.tsx:10-11 | the ticker starts at headline 0, not paused |
| BreakingNews.Ticker.Tick | components/BreakingNews.tsx:21-29 | a tick advances by one unless paused; the index stays in range |
| BreakingNews.Ticker.Navigate | components/BreakingNews.tsx:31-37 | the arrows move to the previous or next headline, within range |
| BreakingNews.Ticker.SelectIndicator | components/BreakingNews.tsx:98-106 | a dot click shows that headline |
| BreakingNews.Ticker.MouseEnter | components/BreakingNews.tsx:44 | hovering pauses without moving |
| BreakingNews.Ticker.MouseLeave | components/BreakingNews.tsx:45 | leaving resumes without moving |
| BreakingNews.Ticker.Position | components/BreakingNews.tsx:115 | the counter shows a position in 1..N |
| BreakingNews.PausedTickerStays | components/BreakingNews.tsx:21-45 | a tick while hovered leaves the headline; after next, both ticks and three steps back the ticker shows headline 4 of 4, running |
| FeaturedMatch.SelectFeatured | components/FeaturedMatch.tsx:26-40 | with no fixtures, or none at all, the id is left as it was |
| FeaturedMatch.SelectionRule | components/FeaturedMatch.tsx:26-40 | the first live fixture is chosen; with none live, the first not-started one; with neither, the id is unchanged |
| FeaturedMatch.FeaturedState.constructor | components/FeaturedMatch.tsx:13 | the featured id starts as null |
| FeaturedMatch.FeaturedState.OnFixturesChanged | components/FeaturedMatch.tsx:26-40 | the state becomes the selection of the new fixtures |
| FeaturedMatch.DetailsCacheKey | components/FeaturedMatch.tsx:44-48 | a details key exists iff the id is truthy, and it is `fixture-details-<id>` |
| FeaturedMatch.DetailsKeyInjective | components/FeaturedMatch.tsx:46 | different featured ids never share a details entry |
| FeaturedMatch.LoadingWaitsForBoth | components/FeaturedMatch.tsx:44-51 | loading the fixtures always holds the card back; the details flag matters exactly when the fixtures have settled and a details cache key exists; a settled card has neither fetch running |
| FeaturedMatch.CombinedError | components/FeaturedMatch.tsx:52 | there is an error iff either fetch failed, and the fixtures' error wins |
| FeaturedMatch.BasicMatchInfo | components/FeaturedMatch.tsx:55-57 | nothing without a truthy id or fixtures; otherwise a match is found iff some fixture has the id, and it is the first fixture with that id |
| FeaturedMatch.CentreOf | components/FeaturedMatch.tsx:138-144 | the score iff live with both scores present, else "VS" |
| FeaturedMatch.ViewOf | components/FeaturedMatch.tsx:72-100 | loading first; then "no featured match" iff there is an error or no match; else the card |
| FeaturedMatch.CardShowsFirstLive | components/FeaturedMatch.tsx:26-100 | once both fetches settle, the card shows the first live fixture |
| FeaturedMatch.EmptyDayHasNoFeatured | components/FeaturedMatch.tsx:13-88 | with no fixtures the id stays null and the card says there is no featured match |
| FeaturedMatch.StatusChip | components/FeaturedMatch.tsx:91-136 | "LIVE" with the minute when it is truthy, else "Today, " and the kick-off time |
| FeaturedMatch.StatusChipShowsLive | components/FeaturedMatch.tsx:91-136 | the chip starts with "LIVE " iff the match is live; with a truthy minute a live chip is "LIVE " plus the schedule's status cell, without one it is "LIVE " where the status cell shows "•'" |
| HeadToHead.H2HMatches | components/match/HeadToHead.tsx:168 | an `h2h` array, even an empty one, is used as it is; otherwise exactly the mock list `MockH2H` built from the fixture's two team ids |
| HeadToHead.Classify | components/match/HeadToHead.tsx:177-190 | a meeting without both goals is skipped; equal goals are a draw; a decisive meeting is a home win iff the fixture's home team won it from either side |
| HeadToHead.CalculateSummary | components/match/HeadToHead.tsx:171-194 | the counting loop computes the tally of the list |
| HeadToHead.TallyCounts | components/match/HeadToHead.tsx:171-194 | each counter is the number of meetings of its kind |
| HeadToHead.TallyTotal | components/match/HeadToHead.tsx:176-197 | the total is the number of meetings with both goals known |
| HeadToHead.MockTally | components/match/HeadToHead.tsx:65-194 | the mock meetings tally 3 home wins, 2 draws and 0 away wins, whatever the ids |
| HeadToHead.EmptyH2HIsKept | components/match/HeadToHead.tsx:168 | an empty `h2h` gives an empty tally, not the mock one |
| HeadToHead.ResultClass | components/match/HeadToHead.tsx:210-229 | neutral iff a goal is missing, draw iff the goals are equal, win iff the team is home and won or is not home and the away side won |
| HeadToHead.OppositeBadges | components/match/HeadToHead.tsx:210-229 | in a decisive meeting, the two teams get one win and one loss |
| HeadToHead.BadgeAgreesWithTally | components/match/HeadToHead.tsx:171-229 | the fixture's home team has a win badge iff the tally counts a home win, and a loss badge iff it counts an away win |
| Header.ToggleSearch | components/Header.tsx:46-49 | search flips and the menu ends closed |
| Header.ToggleMenu | components/Header.tsx:57-60 | the menu flips and search ends closed |
| Header.TogglesAreExclusive | components/Header.tsx:46-60 | after any click, search and menu are never both open |
| Header.ToggleTwice | components/Header.tsx:46-60 | the same button twice from all-closed returns to all-closed |
| Header.ScrolledThreshold | components/Header.tsx:11-13 | unscrolled at the top and through 20 pixels, scrolled from 21, and the flag only turns on further down the page |
| Header.HeaderState.constructor | components/Header.tsx:5-7 | everything starts closed and unscrolled |
| Header.HeaderState.ClickSearch | components/Header.tsx:46-49 | the flags become the search toggle of the old flags |
| Header.HeaderState.ClickMenu | components/Header.tsx:57-60 | the flags become the menu toggle of the old flags |
| Header.HeaderState.OnScroll | components/Header.tsx:11-13 | the scrolled flag follows the threshold and the toggles are untouched |
| LeagueStandings.StandingsData | components/match/LeagueStandings.tsx:258-260 | the first group's table when there are groups; with none, or none at all, exactly the eight mock rows built from the fixture's ids |
| LeagueStandings.MockTableRanked | components/match/LeagueStandings.tsx:62-255 | the mock is ranked 1 to 8 in order, with points strictly falling |
| LeagueStandings.TagOf | components/match/LeagueStandings.tsx:263-265 | a tag iff the row is a fixture team; "Home" iff it is the home team |
| LeagueStandings.MockHighlightsFixtureTeams | components/match/LeagueStandings.tsx:62-255 | the mock's third row is tagged Home and its fifth Away |
| LeagueStandings.GoalDiffText | components/match/LeagueStandings.tsx:387 | a leading "+" iff the difference is positive, "-" iff negative |
| LeagueStandings.GoalDiffTextInjective | components/match/LeagueStandings.tsx:387 | different goal differences print differently |
| LeagueStandings.ClassOf | components/match/LeagueStandings.tsx:271-296 | W, L and D each get their own style; any other letter is neutral |
| LeagueStandings.RenderForm | components/match/LeagueStandings.tsx:268-298 | nothing iff the form is empty, else one badge per letter, in order |
| LeagueStandings.RenderFormLetters | components/match/LeagueStandings.tsx:268-298 | the badges spell the form string again |
| LeagueStandings.RenderStatus | components/match/LeagueStandings.tsx:302-309 | up iff "up", down iff "down", a dash otherwise |
| LeagueStandings.RankHighlighted | components/match/LeagueStandings.tsx:355-357 | the rank badge is highlighted iff the description is truthy |
| LeagueStandings.MockRankBadges | components/match/LeagueStandings.tsx:62-255 | in the mock, the zone rows are highlighted and rows 6 and 7 are not |
| LeaguesApi.AllInEngland | pages/api/leagues.ts:5-78 | every mock league's country is England |
| LeaguesApi.Handler | pages/api/leagues.ts:80-90 | the output is an order-preserving subsequence of the mock list |
| LeaguesApi.HandlerMembers | pages/api/leagues.ts:85-87 | a league is returned iff its country equals the query ignoring case |
| LeaguesApi.EnglandReturnsAll | pages/api/leagues.ts:5-87 | every spelling of "england" returns all nine leagues |
| LeaguesApi.OtherCountryReturnsNone | pages/api/leagues.ts:86 | any other country returns [] |
| LeaguesApi.NoQueryReturnsAll | pages/api/leagues.ts:82-89 | without a usable query all nine leagues are returned in order |
| LeaguesList.FilteredLeagues | components/LeaguesList.tsx:30-41 | null leagues give []; otherwise an order-preserving subsequence |
| LeaguesList.FilteredMembers | components/LeaguesList.tsx:30-41 | a league is listed iff it passes both the name-or-country search and the region test |
| LeaguesList.NoFilterKeepsAll | components/LeaguesList.tsx:31-38 | no term and region "all" list every league, in order |
| LeaguesList.RegionIgnoresCase | components/LeaguesList.tsx:36-38 | regions that differ only in case select the same leagues |
| LeaguesList.SearchIgnoresCase | components/LeaguesList.tsx:31-34 | terms that differ only in case select the same leagues |
| LeaguesList.SearchNarrows | components/LeaguesList.tsx:30-41 | a search term can only shorten the list |
| SearchBox.CountLabel | components/LeaguesList.tsx:58 | the digits before the first space of the count line read back as the count, and the noun follows the space |
| LeaguesList.LeaguesListState.constructor | components/LeaguesList.tsx:10-12 | the box starts closed with no term, and the region is "all" |
| LeaguesList.LeaguesListState.ToggleSearch | components/LeaguesList.tsx:43-52 | the box flips; closing it clears the term; the region is untouched |
| LeaguesList.LeaguesListState.SetSearchTerm | components/LeaguesList.tsx:78 | typing into the open box sets the term |
| LeaguesList.LeaguesListState.SetActiveFilter | components/LeaguesList.tsx:97 | a region button sets the region |
| LeaguesList.ClosingClearsSearch | components/LeaguesList.tsx:43-52 | after closing the box, the list is what no search lists |
| LiveMatches.LiveKeyDiffersFromScheduleKey | components/LiveMatches.tsx:14-20 | the panel's cache entry never collides with the schedule's entry for a date of the same length |
| LiveMatches.FilteredMatches | components/LiveMatches.tsx:23-28 | null gives []; otherwise an order-preserving subsequence |
| LiveMatches.FilterCases | components/LiveMatches.tsx:23-28 | 'all' keeps everything, 'live' exactly the live matches, 'favorites' nothing |
| LiveMatches.Counts | components/LiveMatches.tsx:31-33 | null gives zero counts; otherwise all is the length, live the live count, live <= all, and favorites 0 |
| LiveMatches.LiveBadgeMatchesLiveFilter | components/LiveMatches.tsx:23-32 | the live badge is the length of the 'live' list |
| LiveMatches.Panels | components/LiveMatches.tsx:129-150 | the spinner iff loading, the error box iff an error; with neither, the first match is featured or the empty state is shown |
| LiveMatches.ScoreCell | components/LiveMatches.tsx:64-68 | "-" iff the score is undefined |
| LiveMatches.TimeLine | components/LiveMatches.tsx:70-78 | the minute, or "• LIVE", while live; the kick-off time otherwise |
| LiveMatches.TimeLineAgreesWithSchedule | components/LiveMatches.tsx:70-78 | a live minute and a kick-off time read the same as in the schedule's status cell; a live match without a minute reads "• LIVE" here and differently there |
| MatchEvents.CompareOrdersByKey | components/match/MatchEvents.tsx:59-69 | the comparator is negative, zero or positive exactly as (elapsed, extra or 0) compares |
| MatchEvents.InsertPermutes | components/match/MatchEvents.tsx:59-69 | inserting one event adds exactly that event |
| MatchEvents.InsertSorted | components/match/MatchEvents.tsx:59-69 | inserting into a sorted list keeps it sorted |
| MatchEvents.InsertStable | components/match/MatchEvents.tsx:59-69 | an inserted event goes before the events with its key |
| MatchEvents.SortedTail | components/match/MatchEvents.tsx:59-69 | the tail of a sorted list is sorted |
| MatchEvents.SortEventsCorrect | components/match/MatchEvents.tsx:59-69 | the sorted copy is a permutation of the events, is ordered by key, and keeps the input order of equal keys |
| MatchEvents.TimeLabel | components/match/MatchEvents.tsx:147-149 | the label starts with the minute, ends with ′, and has "+extra" exactly when the extra time is truthy |
| MatchEvents.NumeralPrefix | components/match/MatchEvents.tsx:147-149 | two labels split into their numerals the same way |
| MatchEvents.TimeLabelInjective | components/match/MatchEvents.tsx:147-149 | the label gives back the minute and the shown added time |
| MatchEvents.Description | components/match/MatchEvents.tsx:152-167 | own goal, penalty, goal with optional assist, "detail for player", "player replaces …", and "type: detail" otherwise |
| MatchEvents.AssistShown | components/match/MatchEvents.tsx:159-164 | an ordinary goal mentions the assist iff its name is truthy; a substitution without one names "a player" |
| MatchEvents.DescriptionNamesPlayer | components/match/MatchEvents.tsx:152-164 | goals, cards and substitutions contain the player's name |
| MatchEvents.SidesArePartition | components/match/MatchEvents.tsx:113-115 | the home-side and away-side events together count every event once |
| MatchEvents.ViewOf | components/match/MatchEvents.tsx:55-137 | "NS" shows the not-started message; otherwise no events show the empty message; otherwise the timeline |
| MatchHeader.StatusDisplay | components/match/MatchHeader.tsx:60-79 | fixed texts for NS, HT and FT; exactly "LIVE ", "1st Half " or "2nd Half " followed by the minute and "'" for LIVE, 1H and 2H; any other code passes through |
| MatchHeader.StatusColour | components/match/MatchHeader.tsx:82-92 | red iff LIVE, 1H or 2H; grey iff FT, AET or PEN; blue otherwise |
| MatchHeader.RedMeansMinuteShown | components/match/MatchHeader.tsx:60-92 | the red codes are exactly the codes whose text shows the minute |
| MatchHeader.CentreOf | components/match/MatchHeader.tsx:125-133 | "VS" iff "NS"; otherwise the score, with a null goal count as 0 |
| MatchHeader.NoGoalsShowsNil | components/match/MatchHeader.tsx:125-133 | a started match with no goals recorded shows 0 - 0 |
| MatchMenuBar.MenuItemsShape | components/match/MatchMenuBar.tsx:11-19 | seven items with unique ids in the fixed order; the info href is the base, every other href is base/id |
| MatchMenuBar.HrefsShareBase | components/match/MatchMenuBar.tsx:12-18 | every href starts with `/fixture/<id>/<slug>` |
| MatchMenuBar.CountDistinct | components/match/MatchMenuBar.tsx:11-31 | with unique ids, an id is matched by one item if present and by none if absent |
| MatchMenuBar.ActiveTab | components/match/MatchMenuBar.tsx:31 | at most one tab is active, and exactly one iff the active tab is an id |
| MatchMenuBar.InfoTabIsScheduleLink | components/match/MatchMenuBar.tsx:12 | the info tab is the page the schedule links the match to |
| MatchSchedule.GenerateCalendarDays | components/MatchSchedule.tsx:16-37 | eleven days with ids 0..10 and offsets -5..5; only id 5 is active |
| MatchSchedule.FixturesCacheKey | components/MatchSchedule.tsx:51-55 | the key is "fixtures-" then the date, so the date can be read back |
| MatchSchedule.FilteredMatches | components/MatchSchedule.tsx:58-92 | null data gives []; otherwise an order-preserving subsequence |
| MatchSchedule.TabFilterCases | components/MatchSchedule.tsx:87-92 | 'all' and unknown tabs keep everything, 'live' exactly the live matches, 'favorites' nothing |
| MatchSchedule.Counts | components/MatchSchedule.tsx:172-186 | the all badge is the filtered length, the live badge the number of live matches in it (so at most all), favorites 0 |
| MatchSchedule.AllBadgeOnLiveTab | components/MatchSchedule.tsx:172-186 | on the live tab the all badge equals the live badge |
| MatchSchedule.ElapsedLabel | components/MatchSchedule.tsx:95-100 | the `getElapsedTime` helper (defined, never rendered): non-empty iff live with a truthy elapsed, and then elapsed plus "'" |
| MatchSchedule.StatusLabel | components/MatchSchedule.tsx:103-118 | time for Not Started and unknown statuses, the minute or "•" for Live, "FT", "CANC" |
| MatchSchedule.ScoreDisplay | components/MatchSchedule.tsx:121-128 | the `getScoreDisplay` helper (defined, never rendered): "h - a" for Live or Finished, "-" for Not Started, "" otherwise |
| MatchSchedule.ScoreTextChars | components/MatchSchedule.tsx:123 | the home score text is followed by a space in the helper's text |
| MatchSchedule.SplitScoreText | components/MatchSchedule.tsx:123 | the helper's "a - b" text splits back into its two parts |
| MatchSchedule.ScoreDisplayInjective | components/MatchSchedule.tsx:121-128 | both scores can be read back from the helper's text for a finished match |
| MatchSchedule.RenderedScores | components/MatchSchedule.tsx:348-353 | the two score cells the schedule renders: each is non-empty iff the match is Live or Finished and that score is present, and then it is the score's digits |
| MatchSchedule.RenderedScoresAgreeWithDisplay | components/MatchSchedule.tsx:348-353 | with both scores present, the cells joined by " - " are the `getScoreDisplay` text; a not-started match gets empty cells where that helper gives "-" |
| MatchSchedule.RenderedScoresInjective | components/MatchSchedule.tsx:348-353 | the two cells of a Live or Finished match give both scores back, present or not |
| MatchSchedule.Keys | components/MatchSchedule.tsx:143 | the keys of the groups, in order |
| MatchSchedule.MatchKeys | components/MatchSchedule.tsx:143 | the `country-name` key of each match, in order |
| MatchSchedule.DistinctMembers | components/MatchSchedule.tsx:144-149 | the first occurrences are the same keys, without repeats |
| MatchSchedule.IndexOfKey | components/MatchSchedule.tsx:144 | the position of the group with the key, or -1 iff there is none |
| MatchSchedule.TotalUpdate | components/MatchSchedule.tsx:150 | replacing one group changes the total by the difference in its size |
| MatchSchedule.FilterSingletonAppend | components/MatchSchedule.tsx:150 | appending a match adds it to its key's run only |
| MatchSchedule.KeysDistinct | components/MatchSchedule.tsx:144-149 | group keys are distinct and are the matches' keys |
| MatchSchedule.MatchKeysAppend | components/MatchSchedule.tsx:142-143 | the keys of an appended match come last |
| MatchSchedule.AddExisting | components/MatchSchedule.tsx:150 | adding to an existing group keeps the grouping correct and adds one to the total |
| MatchSchedule.AddNew | components/MatchSchedule.tsx:144-150 | opening a new group keeps the grouping correct and adds one to the total |
| MatchSchedule.GroupedCorrect | components/MatchSchedule.tsx:139-154 | every group holds exactly its key's matches in order, and no match is lost |
| MatchSchedule.GroupingPreservesCount | components/MatchSchedule.tsx:139-154 | the groups hold as many matches as the input |
| MatchSchedule.GroupingKeys | components/MatchSchedule.tsx:139-154 | group keys are distinct, in first-occurrence order, and every match has its group |
| MatchSchedule.GroupingMembers | components/MatchSchedule.tsx:139-154 | a group's matches are the input's matches with its key, in input order |
| MatchSchedule.MirrorsAddExisting | components/MatchSchedule.tsx:150 | pushing into the dictionary's group mirrors adding to the ordered groups |
| MatchSchedule.MirrorsAddNew | components/MatchSchedule.tsx:144-150 | creating a dictionary entry mirrors opening a new group at the end |
| MatchSchedule.ValuesInOrder | components/MatchSchedule.tsx:153 | `Object.values` lists the groups in key insertion order |
| MatchSchedule.GroupMatchesByCompetition | components/MatchSchedule.tsx:139-154 | the dictionary loop returns exactly the grouping specified above |
| MatchSchedule.SlugPart | components/MatchSchedule.tsx:312 | a slug part has no white space and no capitals |
| MatchSchedule.SlugPartIdempotent | components/MatchSchedule.tsx:312 | slugging a slug changes nothing |
| MatchSchedule.SlugClean | components/MatchSchedule.tsx:312 | the fixture slug has no white space and no capitals |
| MatchSchedule.SlugPartTwoWords | components/MatchSchedule.tsx:312 | a two-word name joins its words with one dash, however wide the gap |
| MatchSchedule.SchedulePanels | components/MatchSchedule.tsx:244-272 | spinner and error box follow the flags; with neither, the empty state is shown iff there are no groups, and the list is shown otherwise |
| MatchStats.FindStatistic | components/match/MatchStats.tsx:97-105 | undefined iff no entry has the type; otherwise the value of the first entry with it |
| MatchStats.GetStatistic | components/match/MatchStats.tsx:108-118 | the API value when present and non-null; else the mock value for the type; else "0" |
| MatchStats.DisplayedTypesAreMocked | components/match/MatchStats.tsx:79-150 | every displayed type has a mock entry |
| MatchStats.UnknownTypeIsZero | components/match/MatchStats.tsx:108-118 | a type neither the API nor the mock has reads as "0" |
| MatchStats.DisplayRows | components/match/MatchStats.tsx:136-150 | thirteen distinct rows, from Ball Possession to Pass Accuracy |
| MatchStats.FormatValue | components/match/MatchStats.tsx:186-191 | a "%" is appended only to a number in a percentage row |
| MatchStats.FormatValueInjective | components/match/MatchStats.tsx:186-191 | different numbers are shown differently |
| MatchStats.BarInput | components/match/MatchStats.tsx:194-196 | a number is used as it is; a string has its first "%" removed and gives a value iff the rest is a non-empty run of digits, and the value is that decimal number |
| MatchStats.BarReadsFormattedPercentage | components/match/MatchStats.tsx:186-196 | the label `formatValue` shows for a number n in a percentage row reads back as n, the number the bar is given |
| Text.RemoveFirstSplits | components/match/MatchStats.tsx:195 | `replace('%', '')` removes the first "%" and keeps everything before and after it |
| MatchStats.CalculatePercentage | components/match/MatchStats.tsx:121-133 | a zero total gives an even split; otherwise the shares are the two values out of their total |
| MatchStats.MockBars | components/match/MatchStats.tsx:79-133 | the mock possession "60%"/"40%" splits 60/40, and the mock red cards split evenly |
| MatchStats.ViewOf | components/match/MatchStats.tsx:47-196 | not started iff "NS"; unavailable iff started without statistics; otherwise the 13 rows of looked-up values |
| NewsApi.Handler | pages/api/news.ts:68-87 | the output is an order-preserving subsequence of the mock list |
| NewsApi.NoQuery | pages/api/news.ts:17-86 | no query returns all four items in order |
| NewsApi.CategoryThenTeam | pages/api/news.ts:73-79 | the category filter is exactly `filter`, and the team filter is applied to what it kept |
| NewsApi.CategoryAndTeamMembers | pages/api/news.ts:73-79 | an item is returned iff it has both the category and the team |
| NewsApi.NumericLimit | pages/api/news.ts:71-84 | a limit n >= 0 keeps the first min(n, len) items of the category- and team-filtered list, for any filters; min(n, 4) with none |
| NewsApi.IgnoredLimit | pages/api/news.ts:71-84 | a non-numeric or repeated limit is ignored, whatever the category and team filters |
| NewsApi.NegativeLimit | pages/api/news.ts:82-84 | limit "-1" drops the last item |
| NewsApi.BarcelonaNews | pages/api/news.ts:42-79 | Barcelona football news is item 3 alone |
| QueryParams.JsNumber | pages/api/news.ts:82-83 | a run of digits reads as its decimal value |
| QueryParams.JsNumberOfIntToString | pages/api/news.ts:82-83 | the decimal text of any integer reads back as that integer |
| QueryParams.SliceTo | pages/api/news.ts:83 | `slice(0, n)` clamps n to the length, and a negative n counts from the end |
| QueryParams.ByCountry | pages/api/teams.ts:76-78 | without a usable query the list is unchanged; otherwise it is the country filter |
| QueryParams.ByCountryMembers | pages/api/teams.ts:77 | a record is kept iff its country equals the query ignoring case |
| QueryParams.ByCountryIgnoresCase | pages/api/teams.ts:77 | "england" and "England" give the same result |
| QueryParams.ByCountryUniform | pages/api/teams.ts:77 | over records of one country, a query returns all of them or none |
| SearchBox.MatchesTextIgnoresCase | components/TeamsList.tsx:23-24 | the search ignores the case of the term |
| SearchBox.MatchesOwnName | components/TeamsList.tsx:23 | a name matches itself |
| SearchBox.Toggle | components/TeamsList.tsx:28-37 | the box flips; closing clears the term, opening keeps it |
| SearchBox.ToggleTwiceFromClosed | components/TeamsList.tsx:28-37 | opening then closing returns to the closed, empty box |
| SearchBox.ClosedBoxHasNoTerm | components/TeamsList.tsx:34-36 | closing always gives the closed box with no term |
| SearchBox.ToggleKeepsReachable | components/TeamsList.tsx:28-37 | a closed box never holds a term |
| TeamLastMatches.OutcomeText | components/match/TeamLastMatches.tsx:111-126 | "N/A" iff not available; the others are one letter |
| TeamLastMatches.OutcomeTextInjective | components/match/TeamLastMatches.tsx:111-126 | every text names one outcome |
| TeamLastMatches.MatchResult | components/match/TeamLastMatches.tsx:111-126 | "N/A" iff a goal is missing, D iff equal; for the home team W/L by home vs away goals, for any other team the reverse |
| TeamLastMatches.NonHomeIsMirrored | components/match/TeamLastMatches.tsx:120-125 | any team other than the home team gets the mirrored result |
| TeamLastMatches.SidesAgree | components/match/TeamLastMatches.tsx:111-126 | the two sides of a decisive match get W and L; both get D on a draw |
| TeamLastMatches.ResultColour | components/match/TeamLastMatches.tsx:129-136 | green iff "W", red iff "L", yellow iff "D", grey otherwise |
| TeamLastMatches.NotAvailableIsGrey | components/match/TeamLastMatches.tsx:129-136 | "N/A" is grey |
| TeamLastMatches.Listed | components/match/TeamLastMatches.tsx:106-154 | the team's list, even empty, cut to five; else the five mock matches |
| TeamLastMatches.Results | components/match/TeamLastMatches.tsx:154-155 | one result per listed match, in order |
| TeamLastMatches.MockForm | components/match/TeamLastMatches.tsx:57-155 | team 1's mock form is W W D L W |
| TeamLastMatches.ListedIsPrefix | components/match/TeamLastMatches.tsx:154 | at most the first five matches are listed, in order |
| TeamLastMatches.GoalCell | components/match/TeamLastMatches.tsx:180-190 | "-" iff the goal count is missing |
| TeamLastMatches.GoalCellInjective | components/match/TeamLastMatches.tsx:180-190 | different goal counts are shown differently |
| TeamsApi.AllInEngland | pages/api/teams.ts:5-69 | every mock team's country is England |
| TeamsApi.Handler | pages/api/teams.ts:71-81 | the output is an order-preserving subsequence of the mock list |
| TeamsApi.HandlerMembers | pages/api/teams.ts:76-78 | a team is returned iff its country equals the query ignoring case |
| TeamsApi.EnglandReturnsAll | pages/api/teams.ts:5-78 | every spelling of "england" returns all nine teams |
| TeamsApi.OtherCountryReturnsNone | pages/api/teams.ts:77 | a country absent from the list returns [] |
| TeamsApi.IdsAreDistinct | pages/api/teams.ts:5-69 | the mock ids are 1 to 9 in order |
| TeamsList.FilteredTeams | components/TeamsList.tsx:21-26 | null gives []; an empty term gives the teams unchanged; always an order-preserving subsequence |
| TeamsList.FilteredMembers | components/TeamsList.tsx:22-25 | a non-empty term keeps exactly the teams whose name or country contains it, ignoring case |
| TeamsList.SearchIgnoresCase | components/TeamsList.tsx:22-25 | terms that differ only in case select the same teams |
| TeamsList.OwnNameFindsTeam | components/TeamsList.tsx:22-25 | searching a team's own name finds it |
| SearchBox.CountLabelInjective | components/TeamsList.tsx:43 | lists of different sizes never show the same count line |
| TeamsList.TeamsListState.constructor | components/TeamsList.tsx:11-12 | the box starts closed with no term |
| TeamsList.TeamsListState.ToggleSearch | components/TeamsList.tsx:28-37 | the box flips, and closing clears the term |
| TeamsList.TeamsListState.SetSearchTerm | components/TeamsList.tsx:61 | typing into the open box sets the term |
| TeamsList.ClosedBoxListsAll | components/TeamsList.tsx:21-37 | with the box closed, every fetched team is listed |
| TopScorers.TopScorersData | components/match/TopScorers.tsx:57-311 | the given list, even empty; otherwise exactly the ten mock players built from the fixture's ids, numbered 1 to 10, each with one statistics entry |
| TopScorers.MinutesPerGoal | components/match/TopScorers.tsx:319-322 | "-" iff there are no goals; otherwise minutes/goals rounded half up |
| TopScorers.MinutesPerGoalUnique | components/match/TopScorers.tsx:321 | the rounded value is the only whole number within half a step of the quotient |
| TopScorers.MockFirstRow | components/match/TopScorers.tsx:57-321 | 1752 minutes for 15 goals is 117 minutes a goal |
| TopScorers.Rows | components/match/TopScorers.tsx:314-396 | the table fails iff a player has no statistics; otherwise one row per player in order, rank position + 1, the name, the first entry's team and goals, its minutes per goal, highlighted iff that team is a fixture team, tagged exactly when highlighted, and tagged Home iff it is the home team |
| TopScorers.MockHighlights | components/match/TopScorers.tsx:57-396 | in the mock table exactly the rows of the fixture's own players are highlighted |
| UpcomingApi.Handler | pages/api/matches/upcoming.ts:110-123 | no usable date returns all three fixtures; the output is always an order-preserving subsequence |
| UpcomingApi.Ids | pages/api/matches/upcoming.ts:30-108 | the ids of a list, in order |
| UpcomingApi.HandlerMembers | pages/api/matches/upcoming.ts:115-117 | a fixture is returned iff its date equals the query |
| UpcomingApi.MockDays | pages/api/matches/upcoming.ts:30-117 | "2023-08-24" gives ids [1, 2] and "2023-08-25" gives [3] |
| UpcomingApi.OtherDateIsEmpty | pages/api/matches/upcoming.ts:116 | any other date gives [] |

## Left out

- HTTP and `fetch`: responses are inputs (`Http` with ok flag and parsed body). The
  status text of a failed response and `console.error` logging are not modelled.
- `response.json()` shapes beyond what the code reads: a non-array `data` is modelled as
  "no array".
- React scheduling: every fetch, click, tick and effect is one atomic step.
  - Overlapping fetches and unmounting are not modelled.
  - The `useCallback` and `useEffect` dependency lists are not modelled.
- The 5-second interval is one `Tick` call each time it fires.
- The 300 ms `setTimeout` of the upcoming route and the 100 ms input focus are not
  modelled.
- Clocks: `Date.now()`, "today" and the fixture times are parameters.
- Calendar arithmetic and date labels: `generateCalendarDays` keeps only the ids, offsets
  and the active flag.
  - Not modelled: month names, `toISOString` and `toLocale*` formatting.
  - Not modelled: the `selectedDate` fallback when a day has no `fullDate`.
- Scroll centring and the scroll listener are not modelled. `Header.HeaderState.OnScroll`
  takes the scroll position as a parameter.
- Icons, CSS classes, colours beyond the category they encode, and images are not
  modelled. This covers the event icons and colours of MatchEvents.
- The mock odds of the featured card and of the upcoming route are not modelled. They are
  placeholder floating-point numbers.
- Static and presentational files are not modelled: skeletons, the spinner, the news
  section, sports categories, lineups, the match info card, the layouts and the other
  pages.
- MatchStats.CalculatePercentage: only the zero-total split and the two shares are stated.
  The rounding of each share to a whole percent is not modelled.
- MatchStats.BarInput: `parseInt` is modelled only for a string of decimal digits. Other
  strings (signs, leading blanks, trailing text) give no value.
- QueryParams.JsNumber: `Number` is modelled only for an optionally negative run of
  decimal digits. Everything else counts as NaN.
  - This leaves out decimals, exponents, hex, blanks and "Infinity".
  - A fractional limit, which `slice` would truncate, is left out too.
- Text.ToLower: only ASCII letters are lower-cased. Unicode case mapping is not modelled.
- `split('')` on the form string is per code point here. JavaScript splits UTF-16 code
  units, and the two agree on the ASCII form letters.
- TopScorers.MinutesPerGoal: floating-point division and `Math.round` are replaced by the
  integer formula for rounding half up, which agrees for non-negative whole numbers.
- TopScorers.Rows: a player without statistics makes the render throw. The model returns
  `None` for the whole table.
- Event `player`, `assist` and `team` objects are reduced to their names and ids.
- Fixture records in the detail tabs are reduced to the fields the rules read.
- `Api.DateAndTime` treats a missing or non-string `starting_at` like one without a space.
  Both make the mapping throw.
- The league `region` is the group's `country_id` as the source writes it, and the model
  takes it to be a string. A numeric `country_id` would make `region.toLowerCase()` throw
  whenever the region filter is not "all". That throw is not modelled.
- Scores are taken to be `number | undefined`, as `types/index.ts` declares them. The
  source copies `score_current_home` and `score_current_away` unchanged, so an upstream
  `null` would reach the components. The model treats such a score as undefined, and the
  source would differ in two places:
  - the live panel would render an empty cell instead of "-";
  - the featured card would take the score branch instead of "VS".
- MatchSchedule.ElapsedLabel and MatchSchedule.ScoreDisplay model `getElapsedTime` and
  `getScoreDisplay`, which the schedule defines but never calls when it renders. The page
  shows `MatchSchedule.StatusLabel` in the status cell and `MatchSchedule.RenderedScores`
  in the score cells. React prints a `null` score as nothing, as it does an undefined one,
  so the rendered cells are the same for both.
- Text.CollapseSpaces and MatchSchedule.SlugPart: `\s` is modelled as ASCII white space
  only. JavaScript's `\s` also matches non-ASCII spaces such as U+00A0, U+2000-U+200A,
  U+2028, U+2029, U+3000 and U+FEFF, so a name containing one of them is slugged
  differently by the source.
