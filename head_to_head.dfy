/**
 * The head-to-head tab of `components/match/HeadToHead.tsx`: the fallback list,
 * the win/draw/win tally from the fixture's point of view, and the per-team
 * result badge of each past meeting.
 */
module HeadToHead {
  import opened Wrappers
  import opened Seqs

  /** One past meeting, reduced to what the tally and the badges read. */
  datatype H2HMatch = H2HMatch(fixtureId: int, homeId: int, awayId: int, homeGoals: Option<int>, awayGoals: Option<int>)

  datatype Summary = Summary(homeWins: nat, draws: nat, awayWins: nat)

  /** The five mock meetings, built from the fixture's own team ids. */
  function MockH2H(fixtureHomeId: int, fixtureAwayId: int): seq<H2HMatch> {
    [ H2HMatch(12345, fixtureHomeId, fixtureAwayId, Some(2), Some(1)),
      H2HMatch(12346, fixtureAwayId, fixtureHomeId, Some(0), Some(3)),
      H2HMatch(12347, fixtureHomeId, fixtureAwayId, Some(1), Some(1)),
      H2HMatch(12348, fixtureAwayId, fixtureHomeId, Some(2), Some(2)),
      H2HMatch(12349, fixtureHomeId, fixtureAwayId, Some(3), Some(0)) ]
  }

  /** `fixture.h2h || mockH2H`: an empty array is truthy and is kept. */
  function H2HMatches(h2h: Option<seq<H2HMatch>>, fixtureHomeId: int, fixtureAwayId: int): (r: seq<H2HMatch>)
    ensures h2h.Some? ==> r == h2h.value
    ensures h2h.None? ==> r == MockH2H(fixtureHomeId, fixtureAwayId) && |r| == 5
  {
    if h2h.Some? then h2h.value else MockH2H(fixtureHomeId, fixtureAwayId)
  }

  predicate HasGoals(m: H2HMatch) {
    m.homeGoals.Some? && m.awayGoals.Some?
  }

  /** The fixture's home team won this meeting, from whichever side it played. */
  predicate FixtureHomeWon(fixtureHomeId: int, m: H2HMatch)
    requires HasGoals(m)
  {
    (m.homeId == fixtureHomeId && m.homeGoals.value > m.awayGoals.value) ||
    (m.awayId == fixtureHomeId && m.awayGoals.value > m.homeGoals.value)
  }

  datatype Tallied = HomeWin | Drawn | AwayWin

  /** Where one meeting is counted; `None` for one without goals. */
  function Classify(fixtureHomeId: int, m: H2HMatch): (r: Option<Tallied>)
    ensures r.None? <==> !HasGoals(m)
    ensures r == Some(Drawn) <==> HasGoals(m) && m.homeGoals.value == m.awayGoals.value
    ensures r == Some(HomeWin) <==> HasGoals(m) && m.homeGoals.value != m.awayGoals.value && FixtureHomeWon(fixtureHomeId, m)
    ensures r == Some(AwayWin) <==> HasGoals(m) && m.homeGoals.value != m.awayGoals.value && !FixtureHomeWon(fixtureHomeId, m)
  {
    if !HasGoals(m) then None
    else if m.homeGoals.value == m.awayGoals.value then Some(Drawn)
    else if FixtureHomeWon(fixtureHomeId, m) then Some(HomeWin)
    else Some(AwayWin)
  }

  function Bump(s: Summary, c: Option<Tallied>): Summary {
    match c
    case None => s
    case Some(HomeWin) => s.(homeWins := s.homeWins + 1)
    case Some(Drawn) => s.(draws := s.draws + 1)
    case Some(AwayWin) => s.(awayWins := s.awayWins + 1)
  }

  /** The summary of a list of meetings. */
  function Tally(fixtureHomeId: int, ms: seq<H2HMatch>): Summary {
    if ms == [] then Summary(0, 0, 0)
    else Bump(Tally(fixtureHomeId, ms[..|ms| - 1]), Classify(fixtureHomeId, ms[|ms| - 1]))
  }

  /** `calculateSummary`. */
  method CalculateSummary(fixtureHomeId: int, ms: seq<H2HMatch>) returns (s: Summary)
    ensures s == Tally(fixtureHomeId, ms)
  {
    var homeWins, draws, awayWins := 0, 0, 0;
    var i := 0;
    while i < |ms|
      invariant 0 <= i <= |ms|
      invariant Summary(homeWins, draws, awayWins) == Tally(fixtureHomeId, ms[..i])
    {
      var m := ms[i];
      assert ms[..i + 1][..i] == ms[..i];
      if m.homeGoals.None? || m.awayGoals.None? {
        i := i + 1;
        continue;
      }
      if m.homeGoals.value == m.awayGoals.value {
        draws := draws + 1;
      } else if (m.homeId == fixtureHomeId && m.homeGoals.value > m.awayGoals.value) ||
                (m.awayId == fixtureHomeId && m.awayGoals.value > m.homeGoals.value) {
        homeWins := homeWins + 1;
      } else {
        awayWins := awayWins + 1;
      }
      i := i + 1;
    }
    assert ms[..i] == ms;
    s := Summary(homeWins, draws, awayWins);
  }

  function IsKind(fixtureHomeId: int, k: Tallied): H2HMatch -> bool {
    m => Classify(fixtureHomeId, m) == Some(k)
  }

  function Scored(): H2HMatch -> bool {
    m => HasGoals(m)
  }

  lemma CountAppend<T>(p: T -> bool, s: seq<T>, x: T)
    ensures Count(p, s + [x]) == Count(p, s) + if p(x) then 1 else 0
  {
    FilterConcat(p, s, [x]);
    assert [x][1..] == [];
  }

  /** Each counter counts the meetings of its kind. */
  lemma {:induction false} TallyCounts(fixtureHomeId: int, ms: seq<H2HMatch>)
    ensures Tally(fixtureHomeId, ms).homeWins == Count(IsKind(fixtureHomeId, HomeWin), ms)
    ensures Tally(fixtureHomeId, ms).draws == Count(IsKind(fixtureHomeId, Drawn), ms)
    ensures Tally(fixtureHomeId, ms).awayWins == Count(IsKind(fixtureHomeId, AwayWin), ms)
  {
    if ms != [] {
      var p, x := ms[..|ms| - 1], ms[|ms| - 1];
      assert ms == p + [x];
      TallyCounts(fixtureHomeId, p);
      CountAppend(IsKind(fixtureHomeId, HomeWin), p, x);
      CountAppend(IsKind(fixtureHomeId, Drawn), p, x);
      CountAppend(IsKind(fixtureHomeId, AwayWin), p, x);
    }
  }

  /** The total shown is the number of meetings with both goals known: none is lost or counted twice. */
  lemma {:induction false} TallyTotal(fixtureHomeId: int, ms: seq<H2HMatch>)
    ensures var s := Tally(fixtureHomeId, ms); s.homeWins + s.draws + s.awayWins == Count(Scored(), ms)
  {
    if ms != [] {
      var p, x := ms[..|ms| - 1], ms[|ms| - 1];
      assert ms == p + [x];
      TallyTotal(fixtureHomeId, p);
      CountAppend(Scored(), p, x);
    }
  }

  /** Whatever the two ids, the mock list tallies three home wins, two draws and no away win. */
  lemma MockTally(fixtureHomeId: int, fixtureAwayId: int)
    ensures Tally(fixtureHomeId, H2HMatches(None, fixtureHomeId, fixtureAwayId)) == Summary(3, 2, 0)
  {
    var ms := MockH2H(fixtureHomeId, fixtureAwayId);
    var f := fixtureHomeId;
    assert [ms[0]][..0] == [];
    assert Tally(f, [ms[0]]) == Summary(1, 0, 0);
    assert [ms[0], ms[1]][..1] == [ms[0]];
    assert Tally(f, [ms[0], ms[1]]) == Summary(2, 0, 0);
    assert [ms[0], ms[1], ms[2]][..2] == [ms[0], ms[1]];
    assert Tally(f, [ms[0], ms[1], ms[2]]) == Summary(2, 1, 0);
    assert [ms[0], ms[1], ms[2], ms[3]][..3] == [ms[0], ms[1], ms[2]];
    assert Tally(f, [ms[0], ms[1], ms[2], ms[3]]) == Summary(2, 2, 0);
    assert ms[..4] == [ms[0], ms[1], ms[2], ms[3]];
  }

  /** An empty `h2h` array is used as it is, so the tally is empty. */
  lemma EmptyH2HIsKept(fixtureHomeId: int, fixtureAwayId: int)
    ensures Tally(fixtureHomeId, H2HMatches(Some([]), fixtureHomeId, fixtureAwayId)) == Summary(0, 0, 0)
  {
  }

  // ---------------------------------------------------------------------
  // getResultClass (components/match/HeadToHead.tsx:210-229)
  // ---------------------------------------------------------------------

  datatype Badge = Neutral | DrawBadge | WinBadge | LossBadge

  /** The colour class of `teamId`'s score in one meeting; a team not on the home side is read as the away side. */
  function ResultClass(m: H2HMatch, teamId: int): (b: Badge)
    ensures b == Neutral <==> !HasGoals(m)
    ensures b == DrawBadge <==> HasGoals(m) && m.homeGoals.value == m.awayGoals.value
    ensures b == WinBadge <==> (HasGoals(m) &&
                                ((m.homeId == teamId && m.homeGoals.value > m.awayGoals.value) ||
                                 (m.homeId != teamId && m.awayGoals.value > m.homeGoals.value)))
  {
    if !HasGoals(m) then Neutral
    else
      var isHomeTeam := m.homeId == teamId;
      var h, a := m.homeGoals.value, m.awayGoals.value;
      if h == a then DrawBadge
      else if (isHomeTeam && h > a) || (!isHomeTeam && a > h) then WinBadge
      else LossBadge
  }

  /** In a decisive meeting between two different teams, one badge says win and the other loss. */
  lemma OppositeBadges(m: H2HMatch, t1: int, t2: int)
    requires HasGoals(m) && m.homeGoals.value != m.awayGoals.value
    requires m.homeId != m.awayId
    requires (t1 == m.homeId && t2 == m.awayId) || (t1 == m.awayId && t2 == m.homeId)
    ensures (ResultClass(m, t1) == WinBadge && ResultClass(m, t2) == LossBadge) ||
            (ResultClass(m, t1) == LossBadge && ResultClass(m, t2) == WinBadge)
  {
  }

  /** The badge and the tally agree: the fixture's home team gets a win badge iff the meeting is counted as its win. */
  lemma BadgeAgreesWithTally(m: H2HMatch, fixtureHomeId: int)
    requires HasGoals(m) && m.homeId != m.awayId
    requires fixtureHomeId == m.homeId || fixtureHomeId == m.awayId
    ensures ResultClass(m, fixtureHomeId) == WinBadge <==> Classify(fixtureHomeId, m) == Some(HomeWin)
    ensures ResultClass(m, fixtureHomeId) == LossBadge <==> Classify(fixtureHomeId, m) == Some(AwayWin)
  {
  }
}
