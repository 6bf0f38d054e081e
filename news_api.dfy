/**
 * The mock news route `pages/api/news.ts`: the fixed list of four items,
 * narrowed by category, then by team, then cut by a numeric limit.
 */
module NewsApi {
  import opened Wrappers
  import opened Seqs
  import opened QueryParams

  /** A news item, reduced to the fields the route reads and a few it returns. */
  datatype NewsItem = NewsItem(id: int, title: string, source: string, isLive: bool, category: string, team: string)

  const NEWS_ITEMS: seq<NewsItem> := [
    NewsItem(1, "Appreciate Trent Alexander-Arnold's greatness", "365Scores Magazine", true, "football", "liverpool"),
    NewsItem(2, "Ten Hag confirms Varane will leave Man Utd", "BBC Sport", false, "football", "manchester-united"),
    NewsItem(3, "Barcelona in talks to sign Athletic forward Williams", "Sky Sports", false, "football", "barcelona"),
    NewsItem(4, "Kylian Mbappé set to join Real Madrid next season", "ESPN", false, "football", "real-madrid")
  ]

  function InCategory(c: string): NewsItem -> bool {
    (item: NewsItem) => item.category == c
  }

  function OfTeam(t: string): NewsItem -> bool {
    (item: NewsItem) => item.team == t
  }

  /** The numeric value of the `limit` parameter, if it has one. */
  function LimitOf(limit: Param): Option<int> {
    if IsText(limit) then JsNumber(limit.s) else None
  }

  /** `handler`: category filter, then team filter, then `slice(0, Number(limit))`. */
  function Handler(category: Param, team: Param, limit: Param): (r: seq<NewsItem>)
    ensures IsSubsequence(r, NEWS_ITEMS)
  {
    var byCategory := if IsText(category) then Filter(InCategory(category.s), NEWS_ITEMS) else NEWS_ITEMS;
    var byTeam := if IsText(team) then Filter(OfTeam(team.s), byCategory) else byCategory;
    var n := LimitOf(limit);
    var r := if n.Some? then SliceTo(byTeam, n.value) else byTeam;
    var k := if n.None? then |byTeam|
      else if n.value >= 0 then (if n.value < |byTeam| then n.value else |byTeam|)
      else (if |byTeam| + n.value > 0 then |byTeam| + n.value else 0);
    assert r == byTeam[..k];
    SubsequenceProof(category, team, byCategory, byTeam, k, r);
    r
  }

  lemma SubsequenceProof(category: Param, team: Param, byCategory: seq<NewsItem>, byTeam: seq<NewsItem>, k: nat, r: seq<NewsItem>)
    requires byCategory == if IsText(category) then Filter(InCategory(category.s), NEWS_ITEMS) else NEWS_ITEMS
    requires byTeam == if IsText(team) then Filter(OfTeam(team.s), byCategory) else byCategory
    requires k <= |byTeam| && r == byTeam[..k]
    ensures IsSubsequence(r, NEWS_ITEMS)
  {
    if IsText(category) {
      FilterIsSubsequence(InCategory(category.s), NEWS_ITEMS);
    } else {
      SubsequenceOfSelf(NEWS_ITEMS);
    }
    if IsText(team) {
      FilterIsSubsequence(OfTeam(team.s), byCategory);
      SubsequenceTransitive(byTeam, byCategory, NEWS_ITEMS);
    }
    PrefixIsSubsequence(byTeam, k);
    SubsequenceTransitive(r, byTeam, NEWS_ITEMS);
  }

  /** With no query, all four items are returned in order. */
  lemma NoQuery()
    ensures Handler(Absent, Absent, Absent) == NEWS_ITEMS
  {
  }

  /** A category keeps exactly the items of that category, and a team is applied to what the category kept. */
  lemma CategoryThenTeam(c: string, t: string)
    requires c != "" && t != ""
    ensures Handler(One(c), Absent, Absent) == Filter(InCategory(c), NEWS_ITEMS)
    ensures Handler(One(c), One(t), Absent) == Filter(OfTeam(t), Filter(InCategory(c), NEWS_ITEMS))
  {
  }

  /** Together the two filters keep exactly the items of that category and that team. */
  lemma CategoryAndTeamMembers(c: string, t: string)
    requires c != "" && t != ""
    ensures forall x :: x in Handler(One(c), One(t), Absent) <==> x in NEWS_ITEMS && x.category == c && x.team == t
  {
    CategoryThenTeam(c, t);
    var byCategory := Filter(InCategory(c), NEWS_ITEMS);
    FilterMembers(InCategory(c), NEWS_ITEMS);
    FilterMembers(OfTeam(t), byCategory);
  }

  /**
   * A non-negative numeric limit keeps the first `min(n, len)` items of what the
   * category and team filters kept; with no filter that is `min(n, 4)` of the list.
   */
  lemma NumericLimit(category: Param, team: Param, s: string, n: int)
    requires JsNumber(s) == Some(n) && n >= 0 && s != ""
    ensures var all := Handler(category, team, Absent);
      Handler(category, team, One(s)) == all[..if n < |all| then n else |all|]
    ensures Handler(Absent, Absent, One(s)) == NEWS_ITEMS[..if n < 4 then n else 4]
  {
  }

  /** A limit that is not a number, or an array of limits, is ignored, whatever the filters. */
  lemma IgnoredLimit(category: Param, team: Param, limit: Param)
    requires !IsText(limit) || JsNumber(limit.s).None?
    ensures Handler(category, team, limit) == Handler(category, team, Absent)
    ensures Handler(Absent, Absent, limit) == NEWS_ITEMS
  {
  }

  /** A negative limit drops that many items from the end, as `slice` does. */
  lemma NegativeLimit()
    ensures Handler(Absent, Absent, One("-1")) == NEWS_ITEMS[..3]
  {
    assert JsNumber("-1") == Some(-1) by {
      assert "-1"[1..] == "1" && "1"[..0] == "";
    }
  }

  /** Asking for Barcelona football news returns item 3 alone. */
  lemma BarcelonaNews()
    ensures Handler(One("football"), One("barcelona"), Absent) == [NEWS_ITEMS[2]]
  {
    FilterAll(InCategory("football"), NEWS_ITEMS);
  }
}
