/**
 * The featured-match card of `components/FeaturedMatch.tsx`: which fixture is
 * featured, the combined loading and error state of its two fetches, and what the
 * card shows.
 *
 * The fixture id is JavaScript `number | null`: `None` is null, and an id of 0,
 * though stored, is falsy wherever the code tests it.
 */
module FeaturedMatch {
  import opened Wrappers
  import opened Seqs
  import opened Text
  import opened Types
  import ApiData
  import MatchSchedule

  predicate IdTruthy(id: Option<int>) {
    id.Some? && id.value != 0
  }

  function IsLive(m: Match): bool {
    m.status == LIVE
  }

  function IsUpcoming(m: Match): bool {
    m.status == NOT_STARTED
  }

  /**
   * The effect run when `fixtures` changes: the first live match, else the first
   * not-started one; with neither, or with no fixtures, the id is left as it was.
   */
  function SelectFeatured(fixtures: Option<seq<Match>>, current: Option<int>): (r: Option<int>)
    ensures fixtures.None? || fixtures.value == [] ==> r == current
  {
    if fixtures.Some? && |fixtures.value| > 0 then
      match Find(IsLive, fixtures.value)
      case Some(live) => Some(live.id)
      case None =>
        match Find(IsUpcoming, fixtures.value)
        case Some(upcoming) => Some(upcoming.id)
        case None => current
    else current
  }

  /** The selection rule in terms of positions in the list. */
  lemma SelectionRule(fs: seq<Match>, current: Option<int>)
    ensures var r := SelectFeatured(Some(fs), current);
      (forall i :: 0 <= i < |fs| && IsLive(fs[i]) && (forall j :: 0 <= j < i ==> !IsLive(fs[j])) ==> r == Some(fs[i].id)) &&
      ((forall j :: 0 <= j < |fs| ==> !IsLive(fs[j])) ==>
        forall i :: 0 <= i < |fs| && IsUpcoming(fs[i]) && (forall j :: 0 <= j < i ==> !IsUpcoming(fs[j])) ==> r == Some(fs[i].id)) &&
      ((forall j :: 0 <= j < |fs| ==> !IsLive(fs[j]) && !IsUpcoming(fs[j])) ==> r == current)
  {
    var r := SelectFeatured(Some(fs), current);
    forall i | 0 <= i < |fs| && IsLive(fs[i]) && (forall j :: 0 <= j < i ==> !IsLive(fs[j]))
      ensures r == Some(fs[i].id)
    {
      var k := FindIndex(IsLive, fs);
      assert k >= 0;
      assert k == i;
    }
    if forall j :: 0 <= j < |fs| ==> !IsLive(fs[j]) {
      forall i | 0 <= i < |fs| && IsUpcoming(fs[i]) && (forall j :: 0 <= j < i ==> !IsUpcoming(fs[j]))
        ensures r == Some(fs[i].id)
      {
        var k := FindIndex(IsUpcoming, fs);
        assert k >= 0;
        assert k == i;
      }
    }
  }

  /** The component's `featuredFixtureId` state. */
  class FeaturedState {
    var featuredFixtureId: Option<int>

    constructor()
      ensures featuredFixtureId == None
    {
      featuredFixtureId := None;
    }

    method OnFixturesChanged(fixtures: Option<seq<Match>>)
      modifies this
      ensures featuredFixtureId == SelectFeatured(fixtures, old(featuredFixtureId))
    {
      if fixtures.Some? && |fixtures.value| > 0 {
        var live := Find(IsLive, fixtures.value);
        if live.Some? {
          featuredFixtureId := Some(live.value.id);
        } else {
          var upcoming := Find(IsUpcoming, fixtures.value);
          if upcoming.Some? {
            featuredFixtureId := Some(upcoming.value.id);
          }
        }
      }
    }
  }

  /** `fixture-details-${id}` when the id is truthy; no key (and so no caching) otherwise. */
  function DetailsCacheKey(id: Option<int>): (k: Option<string>)
    ensures k.Some? <==> IdTruthy(id)
    ensures k.Some? ==> k.value == "fixture-details-" + IntToString(id.value)
    ensures ApiData.HasKey(k) <==> IdTruthy(id)
  {
    if IdTruthy(id) then Some("fixture-details-" + IntToString(id.value)) else None
  }

  /** Different featured ids never share a details entry. */
  lemma DetailsKeyInjective(a: int, b: int)
    requires a != 0 && b != 0
    requires DetailsCacheKey(Some(a)) == DetailsCacheKey(Some(b))
    ensures a == b
  {
    var ka, kb := DetailsCacheKey(Some(a)).value, DetailsCacheKey(Some(b)).value;
    assert ka[16..] == IntToString(a);
    assert kb[16..] == IntToString(b);
    IntToStringInjective(a, b);
  }

  /** `fixturesLoading || (featuredFixtureId && detailsLoading)`. */
  predicate CombinedLoading(fixturesLoading: bool, id: Option<int>, detailsLoading: bool) {
    fixturesLoading || (IdTruthy(id) && detailsLoading)
  }

  /**
   * The fixtures fetch always holds the card back. The details flag matters exactly
   * when the fixtures have settled and there is a details cache key, i.e. when the
   * details fetch runs at all.
   */
  lemma LoadingWaitsForBoth(fixturesLoading: bool, id: Option<int>, detailsLoading: bool)
    ensures fixturesLoading ==> CombinedLoading(fixturesLoading, id, detailsLoading)
    ensures (CombinedLoading(fixturesLoading, id, true) != CombinedLoading(fixturesLoading, id, false)) <==>
            !fixturesLoading && ApiData.HasKey(DetailsCacheKey(id))
    ensures !CombinedLoading(fixturesLoading, id, detailsLoading) ==>
            !fixturesLoading && (ApiData.HasKey(DetailsCacheKey(id)) ==> !detailsLoading)
  {
  }

  /** `fixturesError || detailsError`: the fixtures error wins. */
  function CombinedError(fixturesError: Option<ApiData.Error>, detailsError: Option<ApiData.Error>): (r: Option<ApiData.Error>)
    ensures r.None? <==> fixturesError.None? && detailsError.None?
    ensures fixturesError.Some? ==> r == fixturesError
  {
    if fixturesError.Some? then fixturesError else detailsError
  }

  function HasId(id: int): Match -> bool {
    (m: Match) => m.id == id
  }

  /** `featuredFixtureId && fixtures ? fixtures.find(id match) : null`. */
  function BasicMatchInfo(id: Option<int>, fixtures: Option<seq<Match>>): (r: Option<Match>)
    ensures !IdTruthy(id) || fixtures.None? ==> r.None?
    ensures IdTruthy(id) && fixtures.Some? ==>
      (r.Some? <==> exists i :: 0 <= i < |fixtures.value| && fixtures.value[i].id == id.value)
    ensures r.Some? ==> exists i :: 0 <= i < |fixtures.value| && fixtures.value[i] == r.value && r.value.id == id.value &&
                          forall j :: 0 <= j < i ==> fixtures.value[j].id != id.value
  {
    if IdTruthy(id) && fixtures.Some? then
      var fs := fixtures.value;
      var i := FindIndex(HasId(id.value), fs);
      if i >= 0 then
        assert fs[i].id == id.value;
        Find(HasId(id.value), fs)
      else
        assert forall j :: 0 <= j < |fs| ==> !HasId(id.value)(fs[j]);
        Find(HasId(id.value), fs)
    else None
  }

  datatype Centre = Score(home: int, away: int) | Vs

  datatype View = Loading | NoFeatured | Card(m: Match, centre: Centre)

  /** The score is shown only for a live match with both scores present. */
  function CentreOf(m: Match): (c: Centre)
    ensures c.Score? <==> m.status == LIVE && m.homeScore.Some? && m.awayScore.Some?
    ensures c.Score? ==> c.home == m.homeScore.value && c.away == m.awayScore.value
  {
    if m.status == LIVE && m.homeScore.Some? && m.awayScore.Some? then Score(m.homeScore.value, m.awayScore.value)
    else Vs
  }

  /** The early returns: loading first, then "no featured match" on an error or a missing match. */
  function ViewOf(isLoading: bool, error: Option<ApiData.Error>, info: Option<Match>): (v: View)
    ensures v == Loading <==> isLoading
    ensures !isLoading ==> (v == NoFeatured <==> error.Some? || info.None?)
    ensures v.Card? ==> info.Some? && v.m == info.value && v.centre == CentreOf(info.value)
  {
    if isLoading then Loading
    else if error.Some? || info.None? then NoFeatured
    else Card(info.value, CentreOf(info.value))
  }

  /**
   * The card shows the first live fixture once both fetches have settled without
   * error, provided its id is non-zero and no earlier fixture has the same id.
   */
  lemma CardShowsFirstLive(fs: seq<Match>, current: Option<int>, i: nat)
    requires i < |fs| && IsLive(fs[i]) && forall j :: 0 <= j < i ==> !IsLive(fs[j])
    requires fs[i].id != 0 && forall j :: 0 <= j < i ==> fs[j].id != fs[i].id
    ensures var id := SelectFeatured(Some(fs), current);
      ViewOf(CombinedLoading(false, id, false), CombinedError(None, None), BasicMatchInfo(id, Some(fs))) ==
      Card(fs[i], CentreOf(fs[i]))
  {
    SelectionRule(fs, current);
    var k := FindIndex(HasId(fs[i].id), fs);
    assert k >= 0;
    assert k == i;
  }

  /** With no fixtures at all the initial null id stays, and the card says there is no featured match. */
  lemma EmptyDayHasNoFeatured(fixtures: Option<seq<Match>>)
    requires fixtures.None? || fixtures.value == []
    ensures var id := SelectFeatured(fixtures, None);
      id == None && ViewOf(CombinedLoading(false, id, false), None, BasicMatchInfo(id, fixtures)) == NoFeatured
  {
  }

  /** The status chip: "LIVE" with the minute when known, else the kick-off time. */
  function StatusChip(m: Match): (r: string)
    ensures m.status == LIVE ==> r == "LIVE " + (if Truthy(m.elapsed) then m.elapsed.value + "'" else "")
    ensures m.status != LIVE ==> r == "Today, " + m.time
  {
    if m.status == LIVE then "LIVE " + (if Truthy(m.elapsed) then m.elapsed.value + "'" else "")
    else "Today, " + m.time
  }

  /**
   * The chip tells a live match from any other by its first five characters. A live
   * chip with a known minute shows the same minute as the schedule's status cell; with
   * no minute the chip shows nothing after "LIVE " where the schedule shows a dot.
   */
  lemma StatusChipShowsLive(m: Match)
    ensures StatusChip(m)[..5] == "LIVE " <==> m.status == LIVE
    ensures m.status == LIVE && Truthy(m.elapsed) ==> StatusChip(m) == "LIVE " + MatchSchedule.StatusLabel(m)
    ensures m.status == LIVE && !Truthy(m.elapsed) ==> StatusChip(m) == "LIVE " && MatchSchedule.StatusLabel(m) == "•'"
  {
    if m.status != LIVE {
      assert StatusChip(m)[..5] == "Today";
    }
  }
}
