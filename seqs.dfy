/** Sequence helpers standing for the `Array.prototype` methods the source uses. */
module Seqs {
  import opened Wrappers

  /** `s.filter(p)`: the elements of `s` that satisfy `p`, in order. */
  function Filter<T>(p: T -> bool, s: seq<T>): (r: seq<T>)
    ensures |r| <= |s|
  {
    if s == [] then [] else (if p(s[0]) then [s[0]] else []) + Filter(p, s[1..])
  }

  /** `s.findIndex(p)`: the first position whose element satisfies `p`, or -1. */
  function FindIndex<T>(p: T -> bool, s: seq<T>): (r: int)
    ensures -1 <= r < |s|
    ensures r >= 0 ==> p(s[r]) && forall j :: 0 <= j < r ==> !p(s[j])
    ensures r == -1 <==> forall j :: 0 <= j < |s| ==> !p(s[j])
  {
    if s == [] then -1
    else if p(s[0]) then 0
    else var r := FindIndex(p, s[1..]); if r < 0 then -1 else r + 1
  }

  /** `s.find(p)`: the first element that satisfies `p`, if any. */
  function Find<T>(p: T -> bool, s: seq<T>): (r: Option<T>)
    ensures r.None? <==> forall j :: 0 <= j < |s| ==> !p(s[j])
    ensures r.Some? ==> FindIndex(p, s) >= 0 && r.value == s[FindIndex(p, s)]
  {
    var i := FindIndex(p, s);
    if i < 0 then None else Some(s[i])
  }

  /** `a` is obtained from `b` by deleting elements (order is kept). */
  ghost predicate IsSubsequence<T>(a: seq<T>, b: seq<T>)
    decreases |b|
  {
    if b == [] then a == []
    else (a != [] && a[0] == b[0] && IsSubsequence(a[1..], b[1..])) || IsSubsequence(a, b[1..])
  }

  /** `s.filter(p).length`. */
  function Count<T>(p: T -> bool, s: seq<T>): nat {
    |Filter(p, s)|
  }

  lemma {:induction false} FilterMembers<T>(p: T -> bool, s: seq<T>)
    ensures forall x :: x in Filter(p, s) <==> x in s && p(x)
  {
    if s != [] {
      FilterMembers(p, s[1..]);
      assert s == [s[0]] + s[1..];
    }
  }

  /** Filtering keeps every element that satisfies `p` as many times as it occurs. */
  lemma {:induction false} FilterMultiplicity<T>(p: T -> bool, s: seq<T>, x: T)
    ensures multiset(Filter(p, s))[x] == if p(x) then multiset(s)[x] else 0
  {
    if s != [] {
      FilterMultiplicity(p, s[1..], x);
      assert s == [s[0]] + s[1..];
    }
  }

  lemma {:induction false} FilterIsSubsequence<T>(p: T -> bool, s: seq<T>)
    ensures IsSubsequence(Filter(p, s), s)
  {
    if s != [] {
      FilterIsSubsequence(p, s[1..]);
      if p(s[0]) {
        assert Filter(p, s) == [s[0]] + Filter(p, s[1..]);
        assert Filter(p, s)[1..] == Filter(p, s[1..]);
      } else {
        assert Filter(p, s) == Filter(p, s[1..]);
      }
    }
  }

  /** Filtering distributes over concatenation. */
  lemma {:induction false} FilterConcat<T>(p: T -> bool, a: seq<T>, b: seq<T>)
    ensures Filter(p, a + b) == Filter(p, a) + Filter(p, b)
  {
    if a == [] {
      assert a + b == b;
    } else {
      FilterConcat(p, a[1..], b);
      assert (a + b)[1..] == a[1..] + b;
    }
  }

  /** A predicate that holds everywhere keeps the whole sequence. */
  lemma {:induction false} FilterAll<T>(p: T -> bool, s: seq<T>)
    requires forall x :: x in s ==> p(x)
    ensures Filter(p, s) == s
  {
    if s != [] {
      FilterAll(p, s[1..]);
      assert s == [s[0]] + s[1..];
    }
  }

  /** A predicate that holds nowhere keeps nothing. */
  lemma {:induction false} FilterNone<T>(p: T -> bool, s: seq<T>)
    requires forall x :: x in s ==> !p(x)
    ensures Filter(p, s) == []
  {
    if s != [] {
      FilterNone(p, s[1..]);
    }
  }

  /** Filtering with `q` after `p` is filtering with the conjunction. */
  lemma {:induction false} FilterTwice<T>(p: T -> bool, q: T -> bool, s: seq<T>)
    ensures Filter(q, Filter(p, s)) == Filter(x => p(x) && q(x), s)
  {
    if s != [] {
      FilterTwice(p, q, s[1..]);
      FilterConcat(q, if p(s[0]) then [s[0]] else [], Filter(p, s[1..]));
    }
  }

  /** Two predicates that agree on the elements give the same result. */
  lemma {:induction false} FilterCongruent<T>(p: T -> bool, q: T -> bool, s: seq<T>)
    requires forall x :: x in s ==> p(x) == q(x)
    ensures Filter(p, s) == Filter(q, s)
  {
    if s != [] {
      FilterCongruent(p, q, s[1..]);
    }
  }

  /** A stronger predicate keeps a subsequence of what a weaker one keeps. */
  lemma {:induction false} FilterNarrows<T>(p: T -> bool, q: T -> bool, s: seq<T>)
    requires forall x :: q(x) ==> p(x)
    ensures IsSubsequence(Filter(q, s), Filter(p, s))
  {
    if s == [] {
    } else if q(s[0]) {
      FilterNarrows(p, q, s[1..]);
      assert Filter(q, s) == [s[0]] + Filter(q, s[1..]);
      assert Filter(p, s) == [s[0]] + Filter(p, s[1..]);
      assert Filter(q, s)[1..] == Filter(q, s[1..]);
      assert Filter(p, s)[1..] == Filter(p, s[1..]);
    } else if p(s[0]) {
      FilterNarrows(p, q, s[1..]);
      assert Filter(q, s) == Filter(q, s[1..]);
      assert Filter(p, s) == [s[0]] + Filter(p, s[1..]);
      assert Filter(p, s)[1..] == Filter(p, s[1..]);
    } else {
      FilterNarrows(p, q, s[1..]);
      assert Filter(q, s) == Filter(q, s[1..]);
      assert Filter(p, s) == Filter(p, s[1..]);
    }
  }

  lemma {:induction false} SubsequenceTransitive<T>(a: seq<T>, b: seq<T>, c: seq<T>)
    requires IsSubsequence(a, b) && IsSubsequence(b, c)
    ensures IsSubsequence(a, c)
    decreases |c|
  {
    if c == [] {
    } else if b != [] && b[0] == c[0] && IsSubsequence(b[1..], c[1..]) {
      if a != [] && a[0] == b[0] && IsSubsequence(a[1..], b[1..]) {
        SubsequenceTransitive(a[1..], b[1..], c[1..]);
      } else {
        SubsequenceTransitive(a, b[1..], c[1..]);
      }
    } else {
      SubsequenceTransitive(a, b, c[1..]);
    }
  }

  lemma {:induction false} SubsequenceOfSelf<T>(s: seq<T>)
    ensures IsSubsequence(s, s)
  {
    if s != [] {
      SubsequenceOfSelf(s[1..]);
    }
  }

  lemma {:induction false} PrefixIsSubsequence<T>(s: seq<T>, n: nat)
    requires n <= |s|
    ensures IsSubsequence(s[..n], s)
    decreases |s|
  {
    if s != [] {
      if n == 0 {
        PrefixIsSubsequence(s[1..], 0);
      } else {
        PrefixIsSubsequence(s[1..], n - 1);
        assert s[..n][1..] == s[1..][..n - 1];
      }
    }
  }

  function Not<T>(p: T -> bool): T -> bool {
    (x: T) => !p(x)
  }

  /** Every element is kept by exactly one of `p` and its negation. */
  lemma {:induction false} CountComplement<T>(p: T -> bool, s: seq<T>)
    ensures Count(p, s) + Count(Not(p), s) == |s|
  {
    if s != [] {
      CountComplement(p, s[1..]);
    }
  }
}
