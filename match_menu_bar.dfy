/**
 * The tab bar of `components/match/MatchMenuBar.tsx`: the seven tab links of one
 * fixture page and which of them is marked active.
 */
module MatchMenuBar {
  import opened Seqs
  import opened Text
  import opened Types
  import MatchSchedule

  datatype MenuItem = MenuItem(id: string, title: string, href: string)

  /** `/fixture/${fixtureId}/${slug}`. */
  function Base(fixtureId: string, slug: string): string {
    "/fixture/" + fixtureId + "/" + slug
  }

  const TAB_IDS: seq<string> := ["info", "lineups", "events", "stats", "head2head", "standings", "scorers"]

  /** `menuItems`. */
  function MenuItems(fixtureId: string, slug: string): seq<MenuItem> {
    var b := Base(fixtureId, slug);
    [ MenuItem("info", "Match Info", b),
      MenuItem("lineups", "Lineups", b + "/lineups"),
      MenuItem("events", "Events", b + "/events"),
      MenuItem("stats", "Stats", b + "/stats"),
      MenuItem("head2head", "H2H", b + "/head2head"),
      MenuItem("standings", "Standings", b + "/standings"),
      MenuItem("scorers", "Top Scorers", b + "/scorers") ]
  }

  /** Seven items with distinct ids in the fixed order; the info tab links to the page itself, every other tab to a sub-path named by its id. */
  lemma MenuItemsShape(fixtureId: string, slug: string)
    ensures var items := MenuItems(fixtureId, slug);
      |items| == 7 &&
      (forall i :: 0 <= i < 7 ==> items[i].id == TAB_IDS[i]) &&
      (forall i, j :: 0 <= i < j < 7 ==> items[i].id != items[j].id) &&
      items[0].href == Base(fixtureId, slug) &&
      (forall i :: 1 <= i < 7 ==> items[i].href == Base(fixtureId, slug) + "/" + items[i].id)
  {
  }

  /** Every href starts with the fixture's base path. */
  lemma HrefsShareBase(fixtureId: string, slug: string)
    ensures forall item :: item in MenuItems(fixtureId, slug) ==> IsPrefix(Base(fixtureId, slug), item.href)
  {
    var b := Base(fixtureId, slug);
    forall item | item in MenuItems(fixtureId, slug)
      ensures IsPrefix(b, item.href)
    {
      assert (item.href)[..|b|] == b;
    }
  }

  function IsActive(activeTab: string): MenuItem -> bool {
    (item: MenuItem) => item.id == activeTab
  }

  function Ids(items: seq<MenuItem>): seq<string> {
    seq(|items|, i requires 0 <= i < |items| => items[i].id)
  }

  /** With distinct ids, an id is matched by one item if it occurs and by none otherwise. */
  lemma {:induction false} CountDistinct(items: seq<MenuItem>, activeTab: string)
    requires forall i, j :: 0 <= i < j < |items| ==> items[i].id != items[j].id
    ensures Count(IsActive(activeTab), items) == if activeTab in Ids(items) then 1 else 0
  {
    if items != [] {
      CountDistinct(items[1..], activeTab);
      assert Ids(items) == [items[0].id] + Ids(items[1..]);
      if items[0].id == activeTab {
        assert activeTab !in Ids(items[1..]);
      }
    }
  }

  /** At most one tab is active, and exactly one iff the active tab is one of the ids. */
  lemma ActiveTab(fixtureId: string, slug: string, activeTab: string)
    ensures Count(IsActive(activeTab), MenuItems(fixtureId, slug)) <= 1
    ensures Count(IsActive(activeTab), MenuItems(fixtureId, slug)) == 1 <==> activeTab in TAB_IDS
  {
    var items := MenuItems(fixtureId, slug);
    MenuItemsShape(fixtureId, slug);
    CountDistinct(items, activeTab);
    assert Ids(items) == TAB_IDS;
  }

  /** The info tab of a fixture is the page the schedule links each match to. */
  lemma InfoTabIsScheduleLink(m: Match)
    ensures MenuItems(IntToString(m.id), MatchSchedule.Slug(m.homeTeam.name, m.awayTeam.name))[0].href ==
            MatchSchedule.FixtureHref(m)
  {
  }
}
