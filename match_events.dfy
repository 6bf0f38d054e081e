/**
 * The events tab of `components/match/MatchEvents.tsx`: the timeline order given
 * by the sort comparator, the minute label, the one-line description of each
 * event, which side of the timeline it goes on, and the two empty states.
 */
module MatchEvents {
  import opened Wrappers
  import opened Seqs
  import opened Text
  import opened Types

  datatype EventKind = Goal | Card | Subst | Var

  function KindName(k: EventKind): string {
    match k
    case Goal => "Goal"
    case Card => "Card"
    case Subst => "Subst"
    case Var => "Var"
  }

  /**
   * One event. `extra` is `number | null | undefined` in the source; both missing
   * forms are `None`, and they behave alike everywhere below. `assist` is
   * `event.assist?.name`.
   */
  datatype Event = Event(elapsed: int, extra: Option<int>, teamId: int, player: string,
                         assist: Option<string>, kind: EventKind, detail: string)

  /** `a.time.extra || 0`. */
  function ExtraOrZero(e: Event): int {
    if e.extra.Some? then e.extra.value else 0
  }

  /** The sort key: minute first, then added time with a missing one as 0. */
  function Key(e: Event): (int, int) {
    (e.elapsed, ExtraOrZero(e))
  }

  predicate KeyLe(a: Event, b: Event) {
    a.elapsed < b.elapsed || (a.elapsed == b.elapsed && ExtraOrZero(a) <= ExtraOrZero(b))
  }

  /** The comparator passed to `sort`. */
  function Compare(a: Event, b: Event): int {
    if a.elapsed != b.elapsed then a.elapsed - b.elapsed
    else if a.extra != b.extra then ExtraOrZero(a) - ExtraOrZero(b)
    else 0
  }

  /** The comparator orders events by their key, and ties exactly the events with equal keys. */
  lemma CompareOrdersByKey(a: Event, b: Event)
    ensures Compare(a, b) <= 0 <==> KeyLe(a, b)
    ensures Compare(a, b) == 0 <==> Key(a) == Key(b)
    ensures Compare(a, b) == -Compare(b, a)
  {
  }

  ghost predicate Sorted(s: seq<Event>) {
    forall i, j :: 0 <= i < j < |s| ==> KeyLe(s[i], s[j])
  }

  /** Insert `x` before the first element it does not sort after. */
  function Insert(x: Event, t: seq<Event>): seq<Event> {
    if t == [] || Compare(x, t[0]) <= 0 then [x] + t
    else [t[0]] + Insert(x, t[1..])
  }

  /** `[...events].sort(compare)`: a stable sort, here by insertion, on a copy. */
  function SortEvents(s: seq<Event>): seq<Event> {
    if s == [] then [] else Insert(s[0], SortEvents(s[1..]))
  }

  function SameKey(k: (int, int)): Event -> bool {
    (e: Event) => Key(e) == k
  }

  lemma {:induction false} InsertPermutes(x: Event, t: seq<Event>)
    ensures multiset(Insert(x, t)) == multiset{x} + multiset(t)
  {
    if t != [] && Compare(x, t[0]) > 0 {
      InsertPermutes(x, t[1..]);
      assert t == [t[0]] + t[1..];
    }
  }

  lemma {:induction false} InsertSorted(x: Event, t: seq<Event>)
    requires Sorted(t)
    ensures Sorted(Insert(x, t))
  {
    if t != [] && Compare(x, t[0]) > 0 {
      var rest := Insert(x, t[1..]);
      InsertSorted(x, t[1..]);
      InsertPermutes(x, t[1..]);
      CompareOrdersByKey(x, t[0]);
      forall j | 0 <= j < |rest|
        ensures KeyLe(t[0], rest[j])
      {
        assert rest[j] in multiset(rest);
        if rest[j] != x {
          assert rest[j] in t[1..];
          var m :| 0 <= m < |t[1..]| && t[1..][m] == rest[j];
          assert t[m + 1] == rest[j];
        }
      }
      var r := [t[0]] + rest;
      forall i, j | 0 <= i < j < |r|
        ensures KeyLe(r[i], r[j])
      {
        if i == 0 {
          assert r[j] == rest[j - 1];
        } else {
          assert r[i] == rest[i - 1] && r[j] == rest[j - 1];
        }
      }
    }
  }

  /** Inserting into a sorted list keeps `x` ahead of the events with its key. */
  lemma {:induction false} InsertStable(x: Event, t: seq<Event>, k: (int, int))
    requires Sorted(t)
    ensures Filter(SameKey(k), Insert(x, t)) == Filter(SameKey(k), [x] + t)
  {
    var p := SameKey(k);
    if t != [] && Compare(x, t[0]) > 0 {
      var rest := Insert(x, t[1..]);
      InsertStable(x, t[1..], k);
      CompareOrdersByKey(x, t[0]);
      assert ([t[0]] + rest)[1..] == rest;
      assert ([x] + t[1..])[1..] == t[1..];
      assert ([x] + t)[1..] == t;
      assert t == [t[0]] + t[1..];
      assert !(p(x) && p(t[0]));
    }
  }

  lemma {:induction false} SortedTail(t: seq<Event>)
    requires Sorted(t) && t != []
    ensures Sorted(t[1..])
  {
    forall i, j | 0 <= i < j < |t[1..]|
      ensures KeyLe(t[1..][i], t[1..][j])
    {
      assert t[1..][i] == t[i + 1] && t[1..][j] == t[j + 1];
    }
  }

  /**
   * The timeline is the events, each as often as given, in non-decreasing order
   * of (minute, added time), and events with the same key keep their given order.
   */
  lemma {:induction false} SortEventsCorrect(s: seq<Event>)
    ensures multiset(SortEvents(s)) == multiset(s)
    ensures Sorted(SortEvents(s))
    ensures forall k :: Filter(SameKey(k), SortEvents(s)) == Filter(SameKey(k), s)
  {
    if s != [] {
      var t := SortEvents(s[1..]);
      SortEventsCorrect(s[1..]);
      InsertPermutes(s[0], t);
      InsertSorted(s[0], t);
      assert s == [s[0]] + s[1..];
      forall k
        ensures Filter(SameKey(k), SortEvents(s)) == Filter(SameKey(k), s)
      {
        InsertStable(s[0], t, k);
        assert ([s[0]] + t)[1..] == t;
      }
    }
  }

  /** The minute mark. */
  const PRIME: char := '\U{2032}'

  predicate ExtraTruthy(e: Event) {
    e.extra.Some? && e.extra.value != 0
  }

  /** `elapsed+extra′` when the added time is truthy, `elapsed′` otherwise. */
  function TimeLabel(e: Event): (r: string)
    ensures |r| > |IntToString(e.elapsed)| && r[..|IntToString(e.elapsed)|] == IntToString(e.elapsed)
    ensures r[|r| - 1] == PRIME
    ensures r[|IntToString(e.elapsed)|] == (if ExtraTruthy(e) then '+' else PRIME)
  {
    if ExtraTruthy(e) then IntToString(e.elapsed) + "+" + IntToString(e.extra.value) + [PRIME]
    else IntToString(e.elapsed) + [PRIME]
  }

  predicate IsNumeral(s: string) {
    forall k :: 0 <= k < |s| ==> IsDigit(s[k]) || s[k] == '-'
  }

  /** Two numerals each followed by something that is not part of a numeral split the same way. */
  lemma NumeralPrefix(a: string, b: string, c: string, d: string)
    requires a + b == c + d && IsNumeral(a) && IsNumeral(c)
    requires b != [] && !IsDigit(b[0]) && b[0] != '-'
    requires d != [] && !IsDigit(d[0]) && d[0] != '-'
    ensures a == c && b == d
  {
    var n := if |a| < |c| then |a| else |c|;
    assert (a + b)[n] == (c + d)[n];
    assert |a| == |c|;
    assert a == (a + b)[..|a|];
    assert c == (c + d)[..|c|];
  }

  /** The label gives back the minute and the added time shown. */
  lemma TimeLabelInjective(e1: Event, e2: Event)
    requires TimeLabel(e1) == TimeLabel(e2)
    ensures e1.elapsed == e2.elapsed
    ensures ExtraTruthy(e1) <==> ExtraTruthy(e2)
    ensures ExtraTruthy(e1) ==> e1.extra == e2.extra
  {
    var a, c := IntToString(e1.elapsed), IntToString(e2.elapsed);
    IntToStringChars(e1.elapsed);
    IntToStringChars(e2.elapsed);
    var r := TimeLabel(e1);
    assert r == a + r[|a|..];
    assert r == c + r[|c|..];
    NumeralPrefix(a, r[|a|..], c, r[|c|..]);
    IntToStringInjective(e1.elapsed, e2.elapsed);
    if ExtraTruthy(e1) && ExtraTruthy(e2) {
      var x1, x2 := IntToString(e1.extra.value), IntToString(e2.extra.value);
      assert r[|a|..] == "+" + x1 + [PRIME];
      assert r[|a|..] == "+" + x2 + [PRIME];
      assert x1 == r[|a|..][1..|r[|a|..]| - 1];
      assert x2 == r[|a|..][1..|r[|a|..]| - 1];
      IntToStringInjective(e1.extra.value, e2.extra.value);
    }
  }

  /** The line under the player's name. */
  function Description(e: Event): (r: string)
    ensures e.kind == Goal && e.detail == "Own Goal" ==> IsPrefix("Own Goal by ", r)
    ensures e.kind == Goal && e.detail == "Penalty" ==> IsPrefix("Penalty Goal by ", r)
    ensures e.kind == Goal && e.detail != "Own Goal" && e.detail != "Penalty" ==> IsPrefix("Goal by ", r)
    ensures e.kind == Card ==> r == e.detail + " for " + e.player
    ensures e.kind == Subst ==> IsPrefix(e.player + " replaces ", r)
    ensures e.kind == Var ==> r == "Var: " + e.detail
  {
    match e.kind
    case Goal =>
      if e.detail == "Own Goal" then "Own Goal by " + e.player
      else if e.detail == "Penalty" then "Penalty Goal by " + e.player
      else "Goal by " + e.player + (if Truthy(e.assist) then " (Assist: " + e.assist.value + ")" else "")
    case Card => e.detail + " for " + e.player
    case Subst => e.player + " replaces " + (if Truthy(e.assist) then e.assist.value else "a player")
    case Var => KindName(e.kind) + ": " + e.detail
  }

  /** An ordinary goal mentions the assist exactly when its name is truthy; a substitution falls back to "a player". */
  lemma AssistShown(e: Event)
    ensures e.kind == Goal && e.detail != "Own Goal" && e.detail != "Penalty" ==>
      (Truthy(e.assist) ==> Description(e) == "Goal by " + e.player + " (Assist: " + e.assist.value + ")") &&
      (!Truthy(e.assist) ==> Description(e) == "Goal by " + e.player)
    ensures e.kind == Subst ==>
      Description(e) == e.player + " replaces " + (if Truthy(e.assist) then e.assist.value else "a player")
  {
  }

  /** Goals, cards and substitutions name the player. */
  lemma DescriptionNamesPlayer(e: Event)
    requires e.kind != Var
    ensures Contains(Description(e), e.player)
  {
    var r := Description(e);
    var p := e.player;
    if e.kind == Goal {
      var pre := if e.detail == "Own Goal" then "Own Goal by " else if e.detail == "Penalty" then "Penalty Goal by " else "Goal by ";
      var post := if e.detail == "Own Goal" || e.detail == "Penalty" || !Truthy(e.assist) then "" else " (Assist: " + e.assist.value + ")";
      assert r == pre + p + post;
      assert r[|pre|..|pre| + |p|] == p;
      assert OccursAt(r, p, |pre|);
    } else if e.kind == Card {
      assert r == e.detail + " for " + p;
      assert r[|e.detail| + 5..|e.detail| + 5 + |p|] == p;
      assert OccursAt(r, p, |e.detail| + 5);
    } else {
      assert r[0..|p|] == p;
      assert OccursAt(r, p, 0);
    }
    ContainsIff(r, e.player);
  }

  /** `isHomeTeamEvent`. */
  function IsHomeEvent(homeId: int): Event -> bool {
    (e: Event) => e.teamId == homeId
  }

  /** Every event is drawn on exactly one side of the timeline. */
  lemma SidesArePartition(homeId: int, events: seq<Event>)
    ensures Count(IsHomeEvent(homeId), events) + Count(Not(IsHomeEvent(homeId)), events) == |events|
  {
    CountComplement(IsHomeEvent(homeId), events);
  }

  datatype EventsView = NotStarted | NoEvents | Timeline(events: seq<Event>)

  /** `fixture.events || []`, then the not-started and the empty early returns. */
  function ViewOf(statusShort: string, events: Option<seq<Event>>): (v: EventsView)
    ensures v == NotStarted <==> statusShort == "NS"
    ensures v == NoEvents <==> statusShort != "NS" && (events.None? || events.value == [])
    ensures v.Timeline? ==> events.Some? && v.events == SortEvents(events.value) && v.events != []
  {
    var es := if events.Some? then events.value else [];
    if statusShort == "NS" then NotStarted
    else if |es| == 0 then NoEvents
    else
      SortEventsCorrect(es);
      assert |multiset(SortEvents(es))| == |es|;
      Timeline(SortEvents(es))
  }
}
