/**
 * The news ticker of `components/BreakingNews.tsx`: the index of the headline on
 * show, moved by the five-second timer, the previous and next buttons and the
 * indicator dots, and the pause flag set while the pointer is over the ticker.
 */
module BreakingNews {

  const NEWS_ITEMS: seq<string> := [
    "Bayern Munich Extends Winning Streak to 10 Games",
    "PSG Star Linked with Premier League Move",
    "Liverpool Announces New Signing from Bundesliga",
    "Real Madrid Wins El Clasico in Spectacular 3-2 Match"
  ]

  /** The number of headlines. */
  const N: nat := 4

  lemma ItemCount()
    ensures |NEWS_ITEMS| == N
  {
  }

  /** `(prev + 1) % newsItems.length`. */
  function Next(i: int): (r: int)
    ensures 0 <= r < N
  {
    (i + 1) % N
  }

  /** `prev === 0 ? newsItems.length - 1 : prev - 1`. */
  function Prev(i: int): (r: int)
    ensures 0 <= i < N ==> 0 <= r < N
  {
    if i == 0 then N - 1 else i - 1
  }

  /** From any headline on show, previous undoes next and next undoes previous; previous from the first goes to the last. */
  lemma PrevNextInverse(i: int)
    requires 0 <= i < N
    ensures Prev(Next(i)) == i
    ensures Next(Prev(i)) == i
    ensures Prev(0) == N - 1
  {
  }

  /** `k` steps of the timer or of the next button. */
  function Advance(i: int, k: nat): int {
    if k == 0 then i else Next(Advance(i, k - 1))
  }

  /** `k` steps forward from headline `i` land on headline `(i + k) mod n`. */
  lemma {:induction false} AdvanceIsAddition(i: int, k: nat)
    requires 0 <= i < N
    ensures Advance(i, k) == (i + k) % N
  {
    if k > 0 {
      AdvanceIsAddition(i, k - 1);
      var j := i + k - 1;
      assert j == (j / N) * N + j % N;
    }
  }

  /** `n` steps bring the ticker back to the headline it started from. */
  lemma FullCycle(i: int)
    requires 0 <= i < N
    ensures Advance(i, N) == i
  {
    AdvanceIsAddition(i, N);
  }

  datatype Direction = PrevNews | NextNews

  /** The component's `activeNews` and `isPaused` state. */
  class Ticker {
    var activeNews: int
    var isPaused: bool

    ghost predicate Valid()
      reads this
    {
      0 <= activeNews < N
    }

    constructor()
      ensures Valid() && activeNews == 0 && !isPaused
    {
      activeNews := 0;
      isPaused := false;
    }

    /** One firing of the interval; while paused there is no interval, so nothing changes. */
    method Tick()
      requires Valid()
      modifies this
      ensures Valid()
      ensures activeNews == if old(isPaused) then old(activeNews) else Next(old(activeNews))
      ensures isPaused == old(isPaused)
    {
      if !isPaused {
        activeNews := (activeNews + 1) % N;
      }
    }

    /** `navigateNews`. */
    method Navigate(direction: Direction)
      requires Valid()
      modifies this
      ensures Valid()
      ensures direction == PrevNews ==> activeNews == Prev(old(activeNews))
      ensures direction == NextNews ==> activeNews == Next(old(activeNews))
      ensures isPaused == old(isPaused)
    {
      if direction == PrevNews {
        activeNews := if activeNews == 0 then N - 1 else activeNews - 1;
      } else {
        activeNews := (activeNews + 1) % N;
      }
    }

    /** A click on indicator dot `index`; there is one dot per headline. */
    method SelectIndicator(index: int)
      requires Valid() && 0 <= index < N
      modifies this
      ensures Valid() && activeNews == index && isPaused == old(isPaused)
    {
      activeNews := index;
    }

    method MouseEnter()
      modifies this
      ensures isPaused && activeNews == old(activeNews)
    {
      isPaused := true;
    }

    method MouseLeave()
      modifies this
      ensures !isPaused && activeNews == old(activeNews)
    {
      isPaused := false;
    }

    /** The "k/n" counter. */
    function Position(): (p: int)
      reads this
      requires Valid()
      ensures 1 <= p <= N
    {
      activeNews + 1
    }
  }

  /**
   * Hovering stops the ticker: from a fresh ticker, next, a tick while hovered,
   * a tick after leaving and three steps back end on the fourth headline, running.
   */
  method PausedTickerStays() returns (t: Ticker)
    ensures t.Valid() && t.activeNews == 3 && t.Position() == 4 && !t.isPaused
  {
    t := new Ticker();
    t.Navigate(NextNews);
    t.MouseEnter();
    t.Tick();
    assert t.activeNews == 1;
    t.MouseLeave();
    t.Tick();
    assert t.activeNews == 2;
    t.Navigate(PrevNews);
    t.Navigate(PrevNews);
    t.Navigate(PrevNews);
    assert t.activeNews == 3 && t.Position() == 4;
  }
}
