/**
 * The statistics tab of `components/match/MatchStats.tsx`: the lookup of one
 * statistic with its fallback to the mock table, the value shown, the split of
 * the bar, and which of the three views is rendered.
 */
module MatchStats {
  import opened Wrappers
  import opened Seqs
  import opened Text

  /** `number | string`. */
  datatype StatValue = Num(n: int) | Str(s: string)

  /** One `{ type, value }` entry; `None` is a null value. */
  datatype Stat = Stat(kind: string, value: Option<StatValue>)

  datatype Side = Home | Away

  /** `fixture.statistics`, each side possibly missing. */
  datatype Statistics = Statistics(home: Option<seq<Stat>>, away: Option<seq<Stat>>)

  predicate HasStatistics(st: Option<Statistics>) {
    st.Some? && st.value.home.Some? && st.value.away.Some?
  }

  datatype MockStat = MockStat(kind: string, home: StatValue, away: StatValue)

  const MOCK_STATISTICS: seq<MockStat> := [
    MockStat("Ball Possession", Str("60%"), Str("40%")),
    MockStat("Shots on Goal", Num(5), Num(2)),
    MockStat("Shots off Goal", Num(7), Num(3)),
    MockStat("Total Shots", Num(12), Num(5)),
    MockStat("Blocked Shots", Num(2), Num(1)),
    MockStat("Corner Kicks", Num(6), Num(2)),
    MockStat("Offsides", Num(1), Num(2)),
    MockStat("Fouls", Num(8), Num(14)),
    MockStat("Yellow Cards", Num(1), Num(3)),
    MockStat("Red Cards", Num(0), Num(0)),
    MockStat("Goalkeeper Saves", Num(1), Num(4)),
    MockStat("Total Passes", Num(400), Num(300)),
    MockStat("Passes Accurate", Num(350), Num(240)),
    MockStat("Pass Accuracy", Str("88%"), Str("80%"))
  ]

  datatype Format = Percentage | Number

  datatype Display = Display(kind: string, format: Format)

  /** `statsToDisplay`: the rows, in order; each row's label is its type. */
  const STATS_TO_DISPLAY: seq<Display> := [
    Display("Ball Possession", Percentage),
    Display("Total Shots", Number),
    Display("Shots on Goal", Number),
    Display("Shots off Goal", Number),
    Display("Blocked Shots", Number),
    Display("Corner Kicks", Number),
    Display("Offsides", Number),
    Display("Fouls", Number),
    Display("Yellow Cards", Number),
    Display("Red Cards", Number),
    Display("Goalkeeper Saves", Number),
    Display("Total Passes", Number),
    Display("Pass Accuracy", Percentage)
  ]

  function StatIs(kind: string): Stat -> bool {
    (st: Stat) => st.kind == kind
  }

  function MockIs(kind: string): MockStat -> bool {
    (m: MockStat) => m.kind == kind
  }

  /**
   * `stats.find(stat => stat.type === type)?.value`: `None` is `undefined` (no
   * entry of that type), `Some(None)` a null value.
   */
  function FindStatistic(kind: string, stats: seq<Stat>): (r: Option<Option<StatValue>>)
    ensures r.None? <==> forall i :: 0 <= i < |stats| ==> stats[i].kind != kind
    ensures r.Some? ==> exists i :: 0 <= i < |stats| && stats[i].kind == kind && r.value == stats[i].value &&
                                    forall j :: 0 <= j < i ==> stats[j].kind != kind
  {
    match Find(StatIs(kind), stats)
    case None => None
    case Some(st) =>
      var i := FindIndex(StatIs(kind), stats);
      assert stats[i].kind == kind;
      Some(st.value)
  }

  function MockValue(m: MockStat, side: Side): StatValue {
    if side == Home then m.home else m.away
  }

  /** `getStatistic`, once the statistics are known to be there. */
  function GetStatistic(kind: string, side: Side, stats: Statistics): (r: StatValue)
    requires stats.home.Some? && stats.away.Some?
    ensures var api := FindStatistic(kind, if side == Home then stats.home.value else stats.away.value);
      (api.Some? && api.value.Some? ==> r == api.value.value) &&
      (!(api.Some? && api.value.Some?) ==>
        r == match Find(MockIs(kind), MOCK_STATISTICS)
             case Some(m) => MockValue(m, side)
             case None => Str("0"))
  {
    var api := FindStatistic(kind, if side == Home then stats.home.value else stats.away.value);
    if api.Some? && api.value.Some? then api.value.value
    else
      match Find(MockIs(kind), MOCK_STATISTICS)
      case Some(m) => MockValue(m, side)
      case None => Str("0")
  }

  /** Every displayed type has a mock entry, so no displayed row falls back to "0". */
  lemma DisplayedTypesAreMocked()
    ensures forall d :: d in STATS_TO_DISPLAY ==> Find(MockIs(d.kind), MOCK_STATISTICS).Some?
  {
    forall d | d in STATS_TO_DISPLAY
      ensures Find(MockIs(d.kind), MOCK_STATISTICS).Some?
    {
      var i :| 0 <= i < |STATS_TO_DISPLAY| && STATS_TO_DISPLAY[i] == d;
      var j := [0, 3, 1, 2, 4, 5, 6, 7, 8, 9, 10, 11, 13][i];
      assert MockIs(d.kind)(MOCK_STATISTICS[j]);
    }
  }

  /** An unknown type, with nothing from the API, reads as the string "0". */
  lemma UnknownTypeIsZero(kind: string, side: Side, stats: Statistics)
    requires stats.home.Some? && stats.away.Some?
    requires forall m :: m in MOCK_STATISTICS ==> m.kind != kind
    requires forall st :: st in stats.home.value + stats.away.value ==> st.kind != kind
    ensures GetStatistic(kind, side, stats) == Str("0")
  {
    var xs := if side == Home then stats.home.value else stats.away.value;
    assert forall i :: 0 <= i < |xs| ==> xs[i] in stats.home.value + stats.away.value;
    assert forall j :: 0 <= j < |MOCK_STATISTICS| ==> MOCK_STATISTICS[j] in MOCK_STATISTICS;
  }

  /** The thirteen rows are distinct types, in the fixed order. */
  lemma DisplayRows()
    ensures |STATS_TO_DISPLAY| == 13
    ensures forall i, j :: 0 <= i < j < |STATS_TO_DISPLAY| ==> STATS_TO_DISPLAY[i].kind != STATS_TO_DISPLAY[j].kind
    ensures STATS_TO_DISPLAY[0].kind == "Ball Possession" && STATS_TO_DISPLAY[12].kind == "Pass Accuracy"
  {
  }

  /** `formatValue`: a "%" only for a numeric value in a percentage row. */
  function FormatValue(format: Format, v: StatValue): (r: StatValue)
    ensures format == Percentage && v.Num? ==> r.Str? && |r.s| >= 2 && r.s[..|r.s| - 1] == IntToString(v.n) && r.s[|r.s| - 1] == '%'
    ensures !(format == Percentage && v.Num?) ==> r == v
  {
    if format == Percentage && v.Num? then Str(IntToString(v.n) + "%") else v
  }

  /** A percentage is shown as its number with a "%" sign, and different numbers are shown differently. */
  lemma FormatValueInjective(format: Format, a: StatValue, b: StatValue)
    requires a.Num? && b.Num?
    requires FormatValue(format, a) == FormatValue(format, b)
    ensures a == b
  {
    if format == Percentage {
      IntToStringInjective(a.n, b.n);
    }
  }

  /**
   * The number the bar is computed from: a number as it is, a string with its
   * first "%" removed and then read by `parseInt`. Only strings of decimal digits
   * are read here (`None` for any other string).
   */
  function BarInput(v: StatValue): (r: Option<int>)
    ensures v.Num? ==> r == Some(v.n)
    ensures v.Str? ==> var t := RemoveFirst(v.s, '%');
      (r.Some? <==> t != [] && forall i :: 0 <= i < |t| ==> IsDigit(t[i])) &&
      (r.Some? ==> r.value == ParseNat(t))
  {
    match v
    case Num(n) => Some(n)
    case Str(s) =>
      var t := RemoveFirst(s, '%');
      if t != [] && forall i :: 0 <= i < |t| ==> IsDigit(t[i]) then Some(ParseNat(t)) else None
  }

  /** The label `formatValue` shows for a number n in a percentage row reads back as n, the number the bar is given. */
  lemma BarReadsFormattedPercentage(n: nat)
    ensures BarInput(FormatValue(Percentage, Num(n))) == Some(n)
  {
    var digits := NatToString(n);
    assert IntToString(n) == digits;
    assert '%' !in digits by {
      forall i | 0 <= i < |digits| ensures digits[i] != '%' {
        assert IsDigit(digits[i]);
      }
    }
    assert FormatValue(Percentage, Num(n)) == Str(digits + "%");
    RemoveFirstSplits(digits, '%', "");
    assert digits + ['%'] + "" == digits + "%";
    assert RemoveFirst(digits + "%", '%') == digits;
    ParseNatToString(n);
  }

  /** The split of the bar: even on a zero total, else each side's share of the total. */
  datatype Bar = Even | Shares(home: int, away: int, total: int)

  /** `calculatePercentage`; the rounding of each share to a whole percent is not modelled. */
  function CalculatePercentage(home: int, away: int): (b: Bar)
    ensures b == Even <==> home + away == 0
    ensures b.Shares? ==> b.total != 0 && b.home + b.away == b.total && b.home == home && b.away == away
  {
    if home + away == 0 then Even else Shares(home, away, home + away)
  }

  /** With the mock table, possession is split 60/40 of 100 and red cards evenly. */
  lemma MockBars()
    ensures BarInput(MOCK_STATISTICS[0].home) == Some(60) && BarInput(MOCK_STATISTICS[0].away) == Some(40)
    ensures CalculatePercentage(60, 40) == Shares(60, 40, 100)
    ensures CalculatePercentage(MOCK_STATISTICS[9].home.n, MOCK_STATISTICS[9].away.n) == Even
  {
    assert RemoveFirst("60%", '%') == "60";
    assert RemoveFirst("40%", '%') == "40";
    assert "60"[..1] == "6" && "6"[..0] == "";
    assert ParseNat("6") == 6;
    assert ParseNat("60") == 60;
    assert "40"[..1] == "4" && "4"[..0] == "";
    assert ParseNat("4") == 4;
    assert ParseNat("40") == 40;
  }

  datatype Row = Row(kind: string, home: StatValue, away: StatValue)

  datatype StatsView = NotStarted | Unavailable | Rows(rows: seq<Row>)

  /** The not-started check comes first, then the missing-statistics check, then the rows. */
  function ViewOf(statusShort: string, st: Option<Statistics>): (v: StatsView)
    ensures v == NotStarted <==> statusShort == "NS"
    ensures v == Unavailable <==> statusShort != "NS" && !HasStatistics(st)
    ensures v.Rows? ==> HasStatistics(st) && |v.rows| == |STATS_TO_DISPLAY|
    ensures v.Rows? ==> forall i :: 0 <= i < |v.rows| ==>
                          v.rows[i] == Row(STATS_TO_DISPLAY[i].kind,
                                           GetStatistic(STATS_TO_DISPLAY[i].kind, Home, st.value),
                                           GetStatistic(STATS_TO_DISPLAY[i].kind, Away, st.value))
  {
    if statusShort == "NS" then NotStarted
    else if !HasStatistics(st) then Unavailable
    else Rows(seq(|STATS_TO_DISPLAY|, i requires 0 <= i < |STATS_TO_DISPLAY| =>
      Row(STATS_TO_DISPLAY[i].kind,
          GetStatistic(STATS_TO_DISPLAY[i].kind, Home, st.value),
          GetStatistic(STATS_TO_DISPLAY[i].kind, Away, st.value))))
  }
}
