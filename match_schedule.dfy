/**
 * The day schedule of `components/MatchSchedule.tsx`: the eleven-day calendar
 * strip, the tab filter, the per-match labels, the competition grouping and the
 * fixture link slug.
 */
module MatchSchedule {
  import opened Wrappers
  import opened Seqs
  import opened Text
  import opened Types

  // ---------------------------------------------------------------------
  // Calendar strip (components/MatchSchedule.tsx:11, 16-37)
  // ---------------------------------------------------------------------

  /** One calendar slot: its id and its distance in days from today. */
  datatype Day = Day(id: int, offset: int, active: bool)

  /** The slot selected on first render: today. */
  const INITIAL_ACTIVE_DAY: int := 5

  /** Five days before today, today, five days after. */
  method GenerateCalendarDays() returns (days: seq<Day>)
    ensures |days| == 11
    ensures forall j :: 0 <= j < 11 ==> days[j].id == j && days[j].offset == j - 5
    ensures forall j :: 0 <= j < 11 ==> (days[j].active <==> days[j].id == INITIAL_ACTIVE_DAY)
  {
    days := [];
    var i := -5;
    while i <= 5
      invariant -5 <= i <= 6
      invariant |days| == i + 5
      invariant forall j :: 0 <= j < |days| ==> days[j].id == j && days[j].offset == j - 5
      invariant forall j :: 0 <= j < |days| ==> (days[j].active <==> j == 5)
    {
      days := days + [Day(i + 5, i, i == 0)];
      i := i + 1;
    }
  }

  /** `fixtures-${selectedDate}`: one cache entry per date. */
  function FixturesCacheKey(date: string): (k: string)
    ensures |k| == |date| + 9 && k[9..] == date
  {
    "fixtures-" + date
  }

  // ---------------------------------------------------------------------
  // Tab filter (components/MatchSchedule.tsx:58, 87-92)
  // ---------------------------------------------------------------------

  predicate TabKeeps(tab: string, m: Match) {
    if tab == "all" then true
    else if tab == "live" then m.status == LIVE
    else if tab == "favorites" then false
    else true
  }

  function TabFilter(tab: string): Match -> bool {
    m => TabKeeps(tab, m)
  }

  function IsLive(m: Match): bool {
    m.status == LIVE
  }

  /** `(fetchedMatches || []).filter(...)` for the active tab. */
  function FilteredMatches(tab: string, fetched: Option<seq<Match>>): (r: seq<Match>)
    ensures fetched.None? ==> r == []
    ensures fetched.Some? ==> IsSubsequence(r, fetched.value)
  {
    var ms := if fetched.Some? then fetched.value else [];
    FilterIsSubsequence(TabFilter(tab), ms);
    Filter(TabFilter(tab), ms)
  }

  /** 'all' and any unknown tab keep every match; 'live' keeps exactly the live ones; 'favorites' keeps none. */
  lemma TabFilterCases(tab: string, ms: seq<Match>)
    ensures tab != "live" && tab != "favorites" ==> FilteredMatches(tab, Some(ms)) == ms
    ensures tab == "live" ==> FilteredMatches(tab, Some(ms)) == Filter(IsLive, ms)
    ensures tab == "live" ==> forall m :: m in FilteredMatches(tab, Some(ms)) <==> m in ms && m.status == LIVE
    ensures tab == "favorites" ==> FilteredMatches(tab, Some(ms)) == []
  {
    if tab != "live" && tab != "favorites" {
      FilterAll(TabFilter(tab), ms);
    } else if tab == "live" {
      FilterCongruent(TabFilter(tab), IsLive, ms);
      FilterMembers(IsLive, ms);
    } else {
      FilterNone(TabFilter(tab), ms);
    }
  }

  /** The three tab badges: the filtered length, its live part, and a fixed zero. */
  datatype TabCounts = TabCounts(all: nat, live: nat, favorites: nat)

  function Counts(filtered: seq<Match>): (c: TabCounts)
    ensures c.all == |filtered| && c.favorites == 0
    ensures c.live == Count(IsLive, filtered) && c.live <= c.all
  {
    TabCounts(|filtered|, Count(IsLive, filtered), 0)
  }

  /** The "All" badge counts the filtered list, so on the live tab it equals the live badge. */
  lemma AllBadgeOnLiveTab(ms: seq<Match>)
    ensures var c := Counts(FilteredMatches("live", Some(ms))); c.all == c.live
  {
    TabFilterCases("live", ms);
    var f := Filter(IsLive, ms);
    FilterTwice(IsLive, IsLive, ms);
    FilterMembers(IsLive, ms);
    FilterAll(IsLive, f);
  }

  // ---------------------------------------------------------------------
  // Per-match labels (components/MatchSchedule.tsx:95-128)
  // ---------------------------------------------------------------------

  /** `getElapsedTime`; the render never calls it. */
  function ElapsedLabel(m: Match): (r: string)
    ensures r != "" <==> m.status == LIVE && Truthy(m.elapsed)
    ensures r != "" ==> r == m.elapsed.value + "'"
  {
    if m.status == LIVE && Truthy(m.elapsed) then m.elapsed.value + "'" else ""
  }

  /** `getMatchStatus`: the text of the left-hand status cell. */
  function StatusLabel(m: Match): (r: string)
    ensures m.status == NOT_STARTED ==> r == m.time
    ensures m.status == LIVE ==> r == (if Truthy(m.elapsed) then m.elapsed.value else "•") + "'"
    ensures m.status == FINISHED ==> r == "FT"
    ensures m.status == CANCELED ==> r == "CANC"
    ensures !IsCanonicalStatus(m.status) ==> r == m.time
  {
    if m.status == NOT_STARTED then m.time
    else if m.status == LIVE then (if Truthy(m.elapsed) then m.elapsed.value else "•") + "'"
    else if m.status == FINISHED then "FT"
    else if m.status == CANCELED then "CANC"
    else m.time
  }

  /** `${score}` in a template string: an absent score prints as "undefined". */
  function ScoreText(score: Option<int>): string {
    if score.Some? then IntToString(score.value) else "undefined"
  }

  /** `getScoreDisplay`; the render never calls it and shows `RenderedScores` instead. */
  function ScoreDisplay(m: Match): (r: string)
    ensures m.status == LIVE || m.status == FINISHED ==>
      r == ScoreText(m.homeScore) + " - " + ScoreText(m.awayScore)
    ensures m.status == NOT_STARTED ==> r == "-"
    ensures m.status != LIVE && m.status != FINISHED && m.status != NOT_STARTED ==> r == ""
  {
    if m.status == LIVE || m.status == FINISHED then ScoreText(m.homeScore) + " - " + ScoreText(m.awayScore)
    else if m.status == NOT_STARTED then "-"
    else ""
  }

  lemma ScoreTextChars(a: string, b: string)
    ensures (a + " - " + b)[|a|] == ' '
    ensures forall k :: 0 <= k < |a| ==> (a + " - " + b)[k] == a[k]
  {
  }

  lemma SplitScoreText(a1: string, b1: string, a2: string, b2: string)
    requires ' ' !in a1 && ' ' !in a2
    requires a1 + " - " + b1 == a2 + " - " + b2
    ensures a1 == a2 && b1 == b2
  {
    var d := a1 + " - " + b1;
    ScoreTextChars(a1, b1);
    ScoreTextChars(a2, b2);
    if |a1| < |a2| {
      assert false;
    } else if |a2| < |a1| {
      assert false;
    }
    assert a1 == d[..|a1|] && a2 == (a2 + " - " + b2)[..|a2|];
    assert b1 == d[|a1| + 3..] && b2 == (a2 + " - " + b2)[|a2| + 3..];
  }

  /** The two scores can be read back from a live or finished score cell. */
  lemma ScoreDisplayInjective(m1: Match, m2: Match)
    requires m1.status == FINISHED && m2.status == FINISHED
    requires m1.homeScore.Some? && m1.awayScore.Some? && m2.homeScore.Some? && m2.awayScore.Some?
    requires ScoreDisplay(m1) == ScoreDisplay(m2)
    ensures m1.homeScore == m2.homeScore && m1.awayScore == m2.awayScore
  {
    IntToStringNoSpace(m1.homeScore.value);
    IntToStringNoSpace(m2.homeScore.value);
    SplitScoreText(IntToString(m1.homeScore.value), IntToString(m1.awayScore.value),
                   IntToString(m2.homeScore.value), IntToString(m2.awayScore.value));
    IntToStringInjective(m1.homeScore.value, m2.homeScore.value);
    IntToStringInjective(m1.awayScore.value, m2.awayScore.value);
  }

  /** A number as a React child prints its digits; `undefined` renders nothing. */
  function RenderedScore(score: Option<int>): string {
    if score.Some? then IntToString(score.value) else ""
  }

  datatype ScoreCells = ScoreCells(home: string, away: string)

  /**
   * The two right-hand cells the schedule renders for a match: the raw scores while
   * Live or Finished, nothing otherwise. Each cell is non-empty iff it shows a score.
   */
  function RenderedScores(m: Match): (r: ScoreCells)
    ensures r.home != "" <==> (m.status == LIVE || m.status == FINISHED) && m.homeScore.Some?
    ensures r.away != "" <==> (m.status == LIVE || m.status == FINISHED) && m.awayScore.Some?
    ensures r.home != "" ==> r.home == IntToString(m.homeScore.value)
    ensures r.away != "" ==> r.away == IntToString(m.awayScore.value)
  {
    if m.status == LIVE || m.status == FINISHED then ScoreCells(RenderedScore(m.homeScore), RenderedScore(m.awayScore))
    else ScoreCells("", "")
  }

  /**
   * The rendered cells and the unused `getScoreDisplay` helper agree where both show
   * scores; a not-started match gets empty cells where the helper would give "-".
   */
  lemma RenderedScoresAgreeWithDisplay(m: Match)
    ensures (m.status == LIVE || m.status == FINISHED) && m.homeScore.Some? && m.awayScore.Some? ==>
              ScoreDisplay(m) == RenderedScores(m).home + " - " + RenderedScores(m).away
    ensures m.status == NOT_STARTED ==> RenderedScores(m) == ScoreCells("", "") && ScoreDisplay(m) == "-"
  {
  }

  /** The scores of a played match can be read back from its two cells. */
  lemma RenderedScoresInjective(m1: Match, m2: Match)
    requires m1.status == LIVE || m1.status == FINISHED
    requires m2.status == LIVE || m2.status == FINISHED
    requires RenderedScores(m1) == RenderedScores(m2)
    ensures m1.homeScore == m2.homeScore && m1.awayScore == m2.awayScore
  {
    if m1.homeScore.Some? && m2.homeScore.Some? {
      IntToStringInjective(m1.homeScore.value, m2.homeScore.value);
    }
    if m1.awayScore.Some? && m2.awayScore.Some? {
      IntToStringInjective(m1.awayScore.value, m2.awayScore.value);
    }
  }

  // ---------------------------------------------------------------------
  // Grouping by competition (components/MatchSchedule.tsx:139-154)
  // ---------------------------------------------------------------------

  datatype Group = Group(competition: Competition, matches: seq<Match>)

  /** `${country}-${name}`. */
  function CompetitionKey(c: Competition): string {
    c.country + "-" + c.name
  }

  function MatchKey(m: Match): string {
    CompetitionKey(m.competition)
  }

  function GroupKey(g: Group): string {
    CompetitionKey(g.competition)
  }

  function KeyIs(k: string): Match -> bool {
    m => MatchKey(m) == k
  }

  function Keys(gs: seq<Group>): (r: seq<string>)
    ensures |r| == |gs| && forall i :: 0 <= i < |gs| ==> r[i] == GroupKey(gs[i])
  {
    seq(|gs|, i requires 0 <= i < |gs| => GroupKey(gs[i]))
  }

  function MatchKeys(ms: seq<Match>): (r: seq<string>)
    ensures |r| == |ms| && forall i :: 0 <= i < |ms| ==> r[i] == MatchKey(ms[i])
  {
    seq(|ms|, i requires 0 <= i < |ms| => MatchKey(ms[i]))
  }

  /** The keys in order of first occurrence. */
  function Distinct(ks: seq<string>): seq<string> {
    if ks == [] then []
    else var d := Distinct(ks[..|ks| - 1]);
      if ks[|ks| - 1] in d then d else d + [ks[|ks| - 1]]
  }

  lemma {:induction false} DistinctMembers(ks: seq<string>)
    ensures forall k :: k in Distinct(ks) <==> k in ks
    ensures forall i, j :: 0 <= i < j < |Distinct(ks)| ==> Distinct(ks)[i] != Distinct(ks)[j]
  {
    if ks != [] {
      var p := ks[..|ks| - 1];
      DistinctMembers(p);
      assert ks == p + [ks[|ks| - 1]];
    }
  }

  /** The position of the group with key `k`, or -1. */
  function IndexOfKey(gs: seq<Group>, k: string): (r: int)
    ensures -1 <= r < |gs|
    ensures r >= 0 ==> GroupKey(gs[r]) == k
    ensures r == -1 <==> forall i :: 0 <= i < |gs| ==> GroupKey(gs[i]) != k
  {
    if gs == [] then -1
    else if GroupKey(gs[0]) == k then 0
    else var r := IndexOfKey(gs[1..], k); if r < 0 then -1 else r + 1
  }

  /** One `forEach` step: append to the match's group, or open a new group with its competition. */
  function AddToGroups(gs: seq<Group>, m: Match): seq<Group> {
    var i := IndexOfKey(gs, MatchKey(m));
    if i >= 0 then gs[i := gs[i].(matches := gs[i].matches + [m])]
    else gs + [Group(m.competition, [m])]
  }

  /** `Object.values(groups)` after the `forEach`. Keys hold a '-', so no key is an array index and insertion order is kept. */
  function Grouped(ms: seq<Match>): seq<Group> {
    if ms == [] then [] else AddToGroups(Grouped(ms[..|ms| - 1]), ms[|ms| - 1])
  }

  function TotalMatches(gs: seq<Group>): nat {
    if gs == [] then 0 else TotalMatches(gs[..|gs| - 1]) + |gs[|gs| - 1].matches|
  }

  /** Group `g` holds exactly the matches of `ms` with its key, under the competition of the first one. */
  ghost predicate GroupOf(g: Group, ms: seq<Match>) {
    g.matches == Filter(KeyIs(GroupKey(g)), ms) && g.matches != [] && g.competition == g.matches[0].competition
  }

  /** The groups of `ms`: its keys in first-occurrence order, each group holding that key's matches. */
  ghost predicate GroupsOf(gs: seq<Group>, ms: seq<Match>) {
    Keys(gs) == Distinct(MatchKeys(ms)) && forall i :: 0 <= i < |gs| ==> GroupOf(gs[i], ms)
  }

  lemma {:induction false} TotalUpdate(gs: seq<Group>, i: nat, g: Group)
    requires i < |gs|
    ensures TotalMatches(gs[i := g]) == TotalMatches(gs) - |gs[i].matches| + |g.matches|
    decreases |gs|
  {
    var n := |gs| - 1;
    if i < n {
      assert gs[i := g][..n] == gs[..n][i := g];
      TotalUpdate(gs[..n], i, g);
    } else {
      assert gs[i := g][..n] == gs[..n];
    }
  }

  lemma FilterSingletonAppend(k: string, p: seq<Match>, m: Match)
    ensures Filter(KeyIs(k), p + [m]) == Filter(KeyIs(k), p) + (if MatchKey(m) == k then [m] else [])
  {
    FilterConcat(KeyIs(k), p, [m]);
    assert [m][1..] == [];
  }

  lemma KeysDistinct(gs: seq<Group>, ms: seq<Match>)
    requires Keys(gs) == Distinct(MatchKeys(ms))
    ensures forall a, b :: 0 <= a < b < |gs| ==> GroupKey(gs[a]) != GroupKey(gs[b])
    ensures forall k :: k in Keys(gs) <==> k in MatchKeys(ms)
  {
    DistinctMembers(MatchKeys(ms));
    assert forall a :: 0 <= a < |gs| ==> Keys(gs)[a] == GroupKey(gs[a]);
  }

  lemma MatchKeysAppend(p: seq<Match>, m: Match)
    ensures MatchKeys(p + [m]) == MatchKeys(p) + [MatchKey(m)]
  {
  }

  /** Adding a match whose key already has a group. */
  lemma {:induction false} AddExisting(gs: seq<Group>, p: seq<Match>, m: Match)
    requires GroupsOf(gs, p)
    requires IndexOfKey(gs, MatchKey(m)) >= 0
    ensures GroupsOf(AddToGroups(gs, m), p + [m])
    ensures TotalMatches(AddToGroups(gs, m)) == TotalMatches(gs) + 1
  {
    var k := MatchKey(m);
    var i := IndexOfKey(gs, k);
    var gs' := AddToGroups(gs, m);
    KeysDistinct(gs, p);
    MatchKeysAppend(p, m);
    assert MatchKeys(p + [m])[..|p|] == MatchKeys(p);
    assert k in Distinct(MatchKeys(p)) by {
      assert Keys(gs)[i] == k;
    }
    assert Keys(gs') == Keys(gs);
    forall j | 0 <= j < |gs'|
      ensures GroupOf(gs'[j], p + [m])
    {
      FilterSingletonAppend(GroupKey(gs[j]), p, m);
      assert GroupOf(gs[j], p);
    }
    TotalUpdate(gs, i, gs'[i]);
  }

  /** Adding a match whose key has no group yet. */
  lemma {:induction false} AddNew(gs: seq<Group>, p: seq<Match>, m: Match)
    requires GroupsOf(gs, p)
    requires IndexOfKey(gs, MatchKey(m)) < 0
    ensures GroupsOf(AddToGroups(gs, m), p + [m])
    ensures TotalMatches(AddToGroups(gs, m)) == TotalMatches(gs) + 1
  {
    var k := MatchKey(m);
    var gs' := AddToGroups(gs, m);
    KeysDistinct(gs, p);
    MatchKeysAppend(p, m);
    assert MatchKeys(p + [m])[..|p|] == MatchKeys(p);
    assert k !in Keys(gs);
    assert k !in Distinct(MatchKeys(p));
    assert Keys(gs') == Keys(gs) + [k];
    forall x | x in p
      ensures !KeyIs(k)(x)
    {
      var xi :| 0 <= xi < |p| && p[xi] == x;
      assert MatchKeys(p)[xi] == MatchKey(x);
    }
    FilterNone(KeyIs(k), p);
    FilterSingletonAppend(k, p, m);
    forall j | 0 <= j < |gs|
      ensures GroupOf(gs'[j], p + [m])
    {
      FilterSingletonAppend(GroupKey(gs[j]), p, m);
      assert GroupOf(gs[j], p);
    }
    assert GroupOf(gs'[|gs|], p + [m]);
    assert gs'[..|gs'| - 1] == gs;
  }

  lemma {:induction false} GroupedCorrect(ms: seq<Match>)
    ensures GroupsOf(Grouped(ms), ms)
    ensures TotalMatches(Grouped(ms)) == |ms|
  {
    if ms != [] {
      var p, m := ms[..|ms| - 1], ms[|ms| - 1];
      assert ms == p + [m];
      GroupedCorrect(p);
      if IndexOfKey(Grouped(p), MatchKey(m)) >= 0 {
        AddExisting(Grouped(p), p, m);
      } else {
        AddNew(Grouped(p), p, m);
      }
    }
  }

  /** Grouping neither loses nor duplicates a match. */
  lemma GroupingPreservesCount(ms: seq<Match>)
    ensures TotalMatches(Grouped(ms)) == |ms|
  {
    GroupedCorrect(ms);
  }

  /** Keys are distinct and come in order of first occurrence; every match has its group. */
  lemma GroupingKeys(ms: seq<Match>)
    ensures Keys(Grouped(ms)) == Distinct(MatchKeys(ms))
    ensures forall i, j :: 0 <= i < j < |Grouped(ms)| ==> GroupKey(Grouped(ms)[i]) != GroupKey(Grouped(ms)[j])
    ensures forall m :: m in ms ==> MatchKey(m) in Keys(Grouped(ms))
  {
    GroupedCorrect(ms);
    KeysDistinct(Grouped(ms), ms);
    forall m | m in ms
      ensures MatchKey(m) in MatchKeys(ms)
    {
      var mi :| 0 <= mi < |ms| && ms[mi] == m;
      assert MatchKeys(ms)[mi] == MatchKey(m);
    }
  }

  /**
   * Each group holds exactly the matches with its key, in input order, under the
   * competition of its first match.
   */
  lemma GroupingMembers(ms: seq<Match>, i: nat)
    requires i < |Grouped(ms)|
    ensures var g := Grouped(ms)[i];
      g.matches == Filter(KeyIs(GroupKey(g)), ms) &&
      IsSubsequence(g.matches, ms) &&
      g.matches != [] && g.competition == g.matches[0].competition &&
      forall m :: m in g.matches <==> m in ms && MatchKey(m) == GroupKey(g)
  {
    GroupedCorrect(ms);
    var g := Grouped(ms)[i];
    assert GroupOf(g, ms);
    FilterIsSubsequence(KeyIs(GroupKey(g)), ms);
    FilterMembers(KeyIs(GroupKey(g)), ms);
  }

  /** The dictionary and key order mirror the group list: `groups[order[j]]` is group `j`. */
  ghost predicate Mirrors(groups: map<string, Group>, order: seq<string>, gs: seq<Group>) {
    |order| == |gs| &&
    (forall j :: 0 <= j < |order| ==> order[j] == GroupKey(gs[j]) && order[j] in groups && groups[order[j]] == gs[j]) &&
    (forall k :: k in groups ==> k in order)
  }

  lemma MirrorsAddExisting(groups: map<string, Group>, order: seq<string>, gs: seq<Group>, m: Match)
    requires Mirrors(groups, order, gs)
    requires forall a, b :: 0 <= a < b < |gs| ==> GroupKey(gs[a]) != GroupKey(gs[b])
    requires MatchKey(m) in groups
    ensures Mirrors(groups[MatchKey(m) := groups[MatchKey(m)].(matches := groups[MatchKey(m)].matches + [m])],
                    order, AddToGroups(gs, m))
  {
    var key := MatchKey(m);
    var r := IndexOfKey(gs, key);
    var j0 :| 0 <= j0 < |order| && order[j0] == key;
    assert GroupKey(gs[j0]) == key;
    assert r >= 0;
    assert r == j0 by {
      if r != j0 {
        assert false;
      }
    }
    var groups' := groups[key := groups[key].(matches := groups[key].matches + [m])];
    var gs' := AddToGroups(gs, m);
    assert gs' == gs[r := gs[r].(matches := gs[r].matches + [m])];
    forall j | 0 <= j < |order|
      ensures order[j] == GroupKey(gs'[j]) && order[j] in groups' && groups'[order[j]] == gs'[j]
    {
      if j != r {
        assert order[j] != key;
      }
    }
  }

  lemma MirrorsAddNew(groups: map<string, Group>, order: seq<string>, gs: seq<Group>, m: Match)
    requires Mirrors(groups, order, gs)
    requires MatchKey(m) !in groups
    ensures Mirrors(groups[MatchKey(m) := Group(m.competition, [m])], order + [MatchKey(m)], AddToGroups(gs, m))
  {
    var key := MatchKey(m);
    assert IndexOfKey(gs, key) < 0 by {
      forall j | 0 <= j < |gs|
        ensures GroupKey(gs[j]) != key
      {
        assert order[j] in groups;
      }
    }
    var groups' := groups[key := Group(m.competition, [m])];
    var gs' := AddToGroups(gs, m);
    var order' := order + [key];
    forall j | 0 <= j < |order'|
      ensures order'[j] == GroupKey(gs'[j]) && order'[j] in groups' && groups'[order'[j]] == gs'[j]
    {
      if j < |order| {
        assert order[j] in groups;
      }
    }
  }

  /** `Object.values`: the entries in key insertion order. */
  method ValuesInOrder(groups: map<string, Group>, order: seq<string>) returns (result: seq<Group>)
    requires forall j :: 0 <= j < |order| ==> order[j] in groups
    ensures |result| == |order| && forall j :: 0 <= j < |order| ==> result[j] == groups[order[j]]
  {
    result := [];
    var j := 0;
    while j < |order|
      invariant 0 <= j <= |order|
      invariant |result| == j && forall k :: 0 <= k < j ==> result[k] == groups[order[k]]
    {
      result := result + [groups[order[j]]];
      j := j + 1;
    }
  }

  /** `groupMatchesByCompetition`: a dictionary of groups plus the order in which keys were first added. */
  method GroupMatchesByCompetition(ms: seq<Match>) returns (result: seq<Group>)
    ensures result == Grouped(ms)
  {
    var groups: map<string, Group> := map[];
    var order: seq<string> := [];
    var i := 0;
    while i < |ms|
      invariant 0 <= i <= |ms|
      invariant Mirrors(groups, order, Grouped(ms[..i]))
    {
      var m := ms[i];
      var key := CompetitionKey(m.competition);
      ghost var gs := Grouped(ms[..i]);
      assert ms[..i + 1][..i] == ms[..i];
      assert Grouped(ms[..i + 1]) == AddToGroups(gs, m);
      GroupingKeys(ms[..i]);
      if key in groups {
        MirrorsAddExisting(groups, order, gs, m);
        groups := groups[key := groups[key].(matches := groups[key].matches + [m])];
      } else {
        MirrorsAddNew(groups, order, gs, m);
        groups := groups[key := Group(m.competition, [m])];
        order := order + [key];
      }
      i := i + 1;
    }
    assert ms[..i] == ms;
    result := ValuesInOrder(groups, order);
  }

  // ---------------------------------------------------------------------
  // Fixture link (components/MatchSchedule.tsx:312)
  // ---------------------------------------------------------------------

  /** `name.toLowerCase().replace(/\s+/g, '-')`. */
  function SlugPart(name: string): (r: string)
    ensures forall i :: 0 <= i < |r| ==> !IsSpace(r[i]) && !IsUpper(r[i])
  {
    ToLowerHasNoUpper(name);
    CollapseSpacesNoUpper(ToLower(name));
    CollapseSpaces(ToLower(name))
  }

  function Slug(homeName: string, awayName: string): string {
    SlugPart(homeName) + "-vs-" + SlugPart(awayName)
  }

  function FixtureHref(m: Match): string {
    "/fixture/" + IntToString(m.id) + "/" + Slug(m.homeTeam.name, m.awayTeam.name)
  }

  /** Slugs are a normal form: slugging a slug changes nothing. */
  lemma SlugPartIdempotent(name: string)
    ensures SlugPart(SlugPart(name)) == SlugPart(name)
  {
    var s := SlugPart(name);
    ToLowerIdentity(s);
    CollapseSpacesIdentity(s);
  }

  /** The slug has no white space and no capitals. */
  lemma SlugClean(homeName: string, awayName: string)
    ensures forall i :: 0 <= i < |Slug(homeName, awayName)| ==>
      !IsSpace(Slug(homeName, awayName)[i]) && !IsUpper(Slug(homeName, awayName)[i])
  {
    var a, b := SlugPart(homeName), SlugPart(awayName);
    var s := Slug(homeName, awayName);
    forall i | 0 <= i < |s|
      ensures !IsSpace(s[i]) && !IsUpper(s[i])
    {
      if i < |a| {
        assert s[i] == a[i];
      } else if i < |a| + 4 {
        assert s[i] == "-vs-"[i - |a|];
      } else {
        assert s[i] == b[i - |a| - 4];
      }
    }
  }

  /** A two-word name joins its words with one dash, however long the gap. */
  lemma SlugPartTwoWords(first: string, gap: string, last: string)
    requires first != [] && last != []
    requires forall i :: 0 <= i < |first| ==> 'a' <= first[i] <= 'z'
    requires forall i :: 0 <= i < |last| ==> 'a' <= last[i] <= 'z'
    requires gap != [] && forall i :: 0 <= i < |gap| ==> gap[i] == ' '
    ensures SlugPart(first + gap + last) == first + "-" + last
  {
    var s := first + gap + last;
    assert ToLower(s) == s;
    CollapseSpacesRun(first, gap, last);
    CollapseSpacesIdentity(last);
  }

  // ---------------------------------------------------------------------
  // Panels (components/MatchSchedule.tsx:246-272)
  // ---------------------------------------------------------------------

  datatype Panels = Panels(spinner: bool, errorBox: bool, emptyState: bool, groupList: bool)

  function SchedulePanels(isLoading: bool, hasError: bool, groupCount: nat): (p: Panels)
    ensures p.spinner == isLoading && p.errorBox == hasError
    ensures !isLoading && !hasError ==> (p.emptyState <==> !p.groupList) && (p.groupList <==> groupCount > 0)
    ensures isLoading || hasError ==> !p.emptyState && !p.groupList
  {
    Panels(isLoading, hasError,
           !isLoading && !hasError && groupCount == 0,
           !isLoading && !hasError && groupCount > 0)
  }
}
