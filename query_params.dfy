/**
 * The `req.query` values the mock API routes under `pages/api/` read: a
 * parameter is missing, one string, or repeated (an array), and routes only act
 * on a non-empty single string.
 */
module QueryParams {
  import opened Wrappers
  import opened Text
  import opened Seqs

  datatype Param = Absent | One(s: string) | Many(values: seq<string>)

  /** `p && typeof p === 'string'`. */
  predicate IsText(p: Param) {
    p.One? && p.s != ""
  }

  predicate IsDecimal(s: string) {
    s != [] && forall i :: 0 <= i < |s| ==> IsDigit(s[i])
  }

  /**
   * `Number(s)` for an optionally negative run of decimal digits; `None` stands
   * for `NaN`. Other forms `Number` accepts are not read here.
   */
  function JsNumber(s: string): (r: Option<int>)
    ensures IsDecimal(s) ==> r == Some(ParseNat(s))
  {
    if IsDecimal(s) then Some(ParseNat(s))
    else if |s| >= 2 && s[0] == '-' && IsDecimal(s[1..]) then Some(0 - (ParseNat(s[1..]) as int))
    else None
  }

  /** `Number` reads back the text of any integer. */
  lemma JsNumberOfIntToString(n: int)
    ensures JsNumber(IntToString(n)) == Some(n)
  {
    ParseNatToString(if n < 0 then -n else n);
    if n < 0 {
      assert IntToString(n)[1..] == NatToString(-n);
    }
  }

  /** `s.slice(0, n)`: a negative end counts from the back, and the end is clamped to the length. */
  function SliceTo<T>(s: seq<T>, n: int): (r: seq<T>)
    ensures n >= 0 ==> r == s[..if n < |s| then n else |s|]
    ensures n < 0 ==> r == s[..if |s| + n > 0 then |s| + n else 0]
  {
    var end := if n >= 0 then (if n < |s| then n else |s|) else (if |s| + n > 0 then |s| + n else 0);
    s[..end]
  }

  // ---------------------------------------------------------------------
  // The `?country=` filter shared by the leagues and teams routes
  // ---------------------------------------------------------------------

  /** `x.country.toLowerCase() === country.toLowerCase()`. */
  function SameCountry<T>(country: T -> string, q: string): T -> bool {
    (x: T) => ToLower(country(x)) == ToLower(q)
  }

  /** The filter is only applied to a non-empty single string. */
  function ByCountry<T>(country: T -> string, q: Param, xs: seq<T>): (r: seq<T>)
    ensures !IsText(q) ==> r == xs
    ensures IsText(q) ==> r == Filter(SameCountry(country, q.s), xs)
  {
    if IsText(q) then Filter(SameCountry(country, q.s), xs) else xs
  }

  /** A record is returned exactly when its country agrees with the query up to case. */
  lemma ByCountryMembers<T>(country: T -> string, q: string, xs: seq<T>)
    requires q != ""
    ensures forall x :: x in ByCountry(country, One(q), xs) <==> x in xs && ToLower(country(x)) == ToLower(q)
  {
    FilterMembers(SameCountry(country, q), xs);
  }

  /** The query's case does not matter. */
  lemma ByCountryIgnoresCase<T>(country: T -> string, q: string, xs: seq<T>)
    requires q != ""
    ensures ByCountry(country, One(ToLower(q)), xs) == ByCountry(country, One(q), xs)
  {
    ToLowerIdempotent(q);
    assert ToLower(q) != "";
    FilterCongruent(SameCountry(country, ToLower(q)), SameCountry(country, q), xs);
  }

  /** When every record has the same country, the query returns all of them or none. */
  lemma ByCountryUniform<T>(country: T -> string, c: string, q: string, xs: seq<T>)
    requires q != ""
    requires forall x :: x in xs ==> country(x) == c
    ensures ToLower(q) == ToLower(c) ==> ByCountry(country, One(q), xs) == xs
    ensures ToLower(q) != ToLower(c) ==> ByCountry(country, One(q), xs) == []
  {
    if ToLower(q) == ToLower(c) {
      FilterAll(SameCountry(country, q), xs);
    } else {
      FilterNone(SameCountry(country, q), xs);
    }
  }
}
