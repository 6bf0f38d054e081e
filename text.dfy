/**
 * String helpers standing for the JavaScript string methods the source uses:
 * `toLowerCase` (restricted to ASCII), `includes`, `split`, `substring`,
 * `replace` and number-to-text conversion in template strings.
 */
module Text {

  // ---------------------------------------------------------------------
  // Lower-casing (ASCII only)
  // ---------------------------------------------------------------------

  predicate IsUpper(c: char) {
    'A' <= c <= 'Z'
  }

  function LowerChar(c: char): char {
    if IsUpper(c) then (c as int + 32) as char else c
  }

  /** `s.toLowerCase()` on the ASCII letters. */
  function ToLower(s: string): (r: string)
    ensures |r| == |s|
    ensures forall i :: 0 <= i < |s| ==> r[i] == LowerChar(s[i])
  {
    if s == [] then [] else [LowerChar(s[0])] + ToLower(s[1..])
  }

  lemma {:induction false} ToLowerHasNoUpper(s: string)
    ensures forall i :: 0 <= i < |s| ==> !IsUpper(ToLower(s)[i])
  {
  }

  /** Lower-casing twice is lower-casing once. */
  lemma ToLowerIdempotent(s: string)
    ensures ToLower(ToLower(s)) == ToLower(s)
  {
    assert forall i :: 0 <= i < |s| ==> LowerChar(LowerChar(s[i])) == LowerChar(s[i]);
  }

  // ---------------------------------------------------------------------
  // Substring search: `s.includes(t)`
  // ---------------------------------------------------------------------

  predicate IsPrefix(t: string, s: string) {
    |t| <= |s| && s[..|t|] == t
  }

  /** `s.includes(t)`. */
  predicate Contains(s: string, t: string)
    decreases |s|
  {
    IsPrefix(t, s) || (s != [] && Contains(s[1..], t))
  }

  /** `t` occurs in `s` starting at position `i`. */
  predicate OccursAt(s: string, t: string, i: nat) {
    i + |t| <= |s| && s[i..i + |t|] == t
  }

  /** `includes` holds iff `t` occurs at some position of `s`. */
  lemma {:induction false} ContainsIff(s: string, t: string)
    ensures Contains(s, t) <==> exists i: nat :: OccursAt(s, t, i)
    decreases |s|
  {
    if s != [] {
      ContainsIff(s[1..], t);
      if Contains(s[1..], t) {
        var i: nat :| OccursAt(s[1..], t, i);
        assert s[i + 1..i + 1 + |t|] == t;
        assert OccursAt(s, t, i + 1);
      }
      if IsPrefix(t, s) {
        assert OccursAt(s, t, 0);
      }
      if exists i: nat :: OccursAt(s, t, i) {
        var i: nat :| OccursAt(s, t, i);
        if i > 0 {
          assert s[1..][i - 1..i - 1 + |t|] == t;
          assert OccursAt(s[1..], t, i - 1);
        } else {
          assert s[..|t|] == s[0..|t|];
          assert IsPrefix(t, s);
        }
      }
    } else if t == [] {
      assert IsPrefix(t, s) && OccursAt(s, t, 0);
    }
  }

  /** Every string includes the empty string. */
  lemma ContainsEmpty(s: string)
    ensures Contains(s, "")
  {
    assert IsPrefix("", s);
  }

  // ---------------------------------------------------------------------
  // Numbers in template strings: `${n}`
  // ---------------------------------------------------------------------

  predicate IsDigit(c: char) {
    '0' <= c <= '9'
  }

  function DigitChar(d: nat): (c: char)
    requires d < 10
    ensures IsDigit(c)
  {
    ('0' as int + d) as char
  }

  /** The decimal text of `n`, without leading zeros. */
  function NatToString(n: nat): (r: string)
    ensures |r| >= 1
    ensures forall i :: 0 <= i < |r| ==> IsDigit(r[i])
    ensures n > 0 ==> r[0] != '0'
    decreases n
  {
    if n < 10 then [DigitChar(n)] else NatToString(n / 10) + [DigitChar(n % 10)]
  }

  function DigitValue(c: char): (d: nat)
    requires IsDigit(c)
    ensures d < 10 && DigitChar(d) == c
  {
    c as int - '0' as int
  }

  /** The value of a string of decimal digits. */
  function ParseNat(s: string): nat
    requires forall i :: 0 <= i < |s| ==> IsDigit(s[i])
  {
    if s == [] then 0 else ParseNat(s[..|s| - 1]) * 10 + DigitValue(s[|s| - 1])
  }

  /** Reading back the decimal text of `n` gives `n`. */
  lemma {:induction false} ParseNatToString(n: nat)
    ensures ParseNat(NatToString(n)) == n
    decreases n
  {
    if n >= 10 {
      ParseNatToString(n / 10);
      var s := NatToString(n);
      assert s[..|s| - 1] == NatToString(n / 10);
    }
  }

  /** Different numbers are printed differently. */
  lemma NatToStringInjective(m: nat, n: nat)
    requires NatToString(m) == NatToString(n)
    ensures m == n
  {
    ParseNatToString(m);
    ParseNatToString(n);
  }

  /** `${i}` for an integral JavaScript number. */
  function IntToString(i: int): (r: string)
    ensures |r| >= 1
    ensures (i < 0) == (r[0] == '-')
  {
    if i < 0 then "-" + NatToString(-i) else NatToString(i)
  }

  /** Different integers are printed differently. */
  lemma IntToStringInjective(m: int, n: int)
    requires IntToString(m) == IntToString(n)
    ensures m == n
  {
    if m < 0 && n < 0 {
      assert IntToString(m)[1..] == NatToString(-m);
      assert IntToString(n)[1..] == NatToString(-n);
      NatToStringInjective(-m, -n);
    } else if m >= 0 && n >= 0 {
      NatToStringInjective(m, n);
    }
  }

  /** The text of a number is made of digits and, first, an optional minus sign. */
  lemma IntToStringChars(i: int)
    ensures forall k :: 0 <= k < |IntToString(i)| ==> IsDigit(IntToString(i)[k]) || (k == 0 && IntToString(i)[k] == '-')
  {
    if i < 0 {
      var r := IntToString(i);
      assert r == "-" + NatToString(-i);
      forall k | 1 <= k < |r|
        ensures IsDigit(r[k])
      {
        assert r[k] == NatToString(-i)[k - 1];
      }
    }
  }

  /** The text of a number holds no space. */
  lemma IntToStringNoSpace(i: int)
    ensures ' ' !in IntToString(i)
  {
    IntToStringChars(i);
  }

  // ---------------------------------------------------------------------
  // `s.split(sep)` and `s.substring(0, n)`
  // ---------------------------------------------------------------------

  /** `s.split(sep)` for a one-character separator: never empty. */
  function Split(s: string, sep: char): (r: seq<string>)
    ensures |r| >= 1
  {
    if s == [] then [""]
    else if s[0] == sep then [""] + Split(s[1..], sep)
    else var rest := Split(s[1..], sep); [[s[0]] + rest[0]] + rest[1..]
  }

  /** `parts.join(sep)`. */
  function Join(parts: seq<string>, sep: char): string
    requires |parts| >= 1
  {
    if |parts| == 1 then parts[0] else parts[0] + [sep] + Join(parts[1..], sep)
  }

  /** Splitting loses nothing: joining the parts gives the original text back. */
  lemma {:induction false} JoinSplit(s: string, sep: char)
    ensures Join(Split(s, sep), sep) == s
  {
    if s != [] {
      JoinSplit(s[1..], sep);
      var rest := Split(s[1..], sep);
      if s[0] == sep {
        assert Split(s, sep)[1..] == rest;
      } else {
        var r := Split(s, sep);
        assert r[1..] == rest[1..];
        if |rest| > 1 {
          assert rest == [rest[0]] + rest[1..];
        }
      }
    }
  }

  /** No part contains the separator. */
  lemma {:induction false} SplitPartsFree(s: string, sep: char)
    ensures forall k :: 0 <= k < |Split(s, sep)| ==> sep !in Split(s, sep)[k]
  {
    if s != [] {
      SplitPartsFree(s[1..], sep);
      var rest := Split(s[1..], sep);
      var r := Split(s, sep);
      if s[0] == sep {
        assert forall k :: 1 <= k < |r| ==> r[k] == rest[k - 1];
      } else {
        assert forall k :: 1 <= k < |r| ==> r[k] == rest[k];
      }
    }
  }

  /** A text without the separator is a single part. */
  lemma {:induction false} SplitNoSeparator(a: string, sep: char)
    requires sep !in a
    ensures Split(a, sep) == [a]
  {
    if a != [] {
      SplitNoSeparator(a[1..], sep);
      assert [a[0]] + a[1..] == a;
    }
  }

  /** The text before the first separator is the first part. */
  lemma {:induction false} SplitAtFirst(a: string, sep: char, b: string)
    requires sep !in a
    ensures Split(a + [sep] + b, sep) == [a] + Split(b, sep)
  {
    if a == [] {
      assert a + [sep] + b == [sep] + b;
      assert ([sep] + b)[1..] == b;
    } else {
      SplitAtFirst(a[1..], sep, b);
      assert (a + [sep] + b)[1..] == a[1..] + [sep] + b;
      assert [a[0]] + a[1..] == a;
    }
  }

  /** `s.substring(0, n)`. */
  function Prefix(s: string, n: nat): (r: string)
    ensures |r| == if n < |s| then n else |s|
    ensures IsPrefix(r, s)
  {
    if n < |s| then s[..n] else s
  }

  // ---------------------------------------------------------------------
  // `s.replace(/\s+/g, '-')` and `s.replace('%', '')`
  // ---------------------------------------------------------------------

  /** The characters `\s` matches among ASCII: space, tab, line feed, vertical tab, form feed, carriage return. */
  predicate IsSpace(c: char) {
    c == ' ' || c == '\t' || c == '\n' || c == '\r' || c == '\U{B}' || c == '\U{C}'
  }

  function DropSpaces(s: string): (r: string)
    ensures |r| <= |s|
    ensures r == [] || !IsSpace(r[0])
  {
    if s != [] && IsSpace(s[0]) then DropSpaces(s[1..]) else s
  }

  /** `s.replace(/\s+/g, '-')`: every maximal run of white space becomes one `-`. */
  function CollapseSpaces(s: string): (r: string)
    ensures forall i :: 0 <= i < |r| ==> !IsSpace(r[i])
    ensures |r| <= |s|
    decreases |s|
  {
    if s == [] then []
    else if IsSpace(s[0]) then "-" + CollapseSpaces(DropSpaces(s[1..]))
    else [s[0]] + CollapseSpaces(s[1..])
  }

  /** Text without white space is left as it is. */
  lemma {:induction false} CollapseSpacesIdentity(s: string)
    requires forall i :: 0 <= i < |s| ==> !IsSpace(s[i])
    ensures CollapseSpaces(s) == s
  {
    if s != [] {
      CollapseSpacesIdentity(s[1..]);
    }
  }

  lemma {:induction false} DropSpacesRun(w: string, b: string)
    requires forall i :: 0 <= i < |w| ==> IsSpace(w[i])
    requires b == [] || !IsSpace(b[0])
    ensures DropSpaces(w + b) == b
  {
    if w != [] {
      assert (w + b)[1..] == w[1..] + b;
      DropSpacesRun(w[1..], b);
    }
  }

  /** One run of white space between two words becomes exactly one `-`. */
  lemma {:induction false} CollapseSpacesRun(a: string, w: string, b: string)
    requires forall i :: 0 <= i < |a| ==> !IsSpace(a[i])
    requires w != [] && forall i :: 0 <= i < |w| ==> IsSpace(w[i])
    requires b == [] || !IsSpace(b[0])
    ensures CollapseSpaces(a + w + b) == a + "-" + CollapseSpaces(b)
  {
    if a == [] {
      assert a + w + b == w + b;
      assert (w + b)[1..] == w[1..] + b;
      DropSpacesRun(w[1..], b);
    } else {
      assert (a + w + b)[1..] == a[1..] + w + b;
      CollapseSpacesRun(a[1..], w, b);
    }
  }

  /** Text without capitals is left as it is by lower-casing. */
  lemma ToLowerIdentity(s: string)
    requires forall i :: 0 <= i < |s| ==> !IsUpper(s[i])
    ensures ToLower(s) == s
  {
  }

  lemma {:induction false} DropSpacesSuffix(s: string)
    ensures exists k :: 0 <= k <= |s| && DropSpaces(s) == s[k..]
  {
    if s != [] && IsSpace(s[0]) {
      DropSpacesSuffix(s[1..]);
      var k :| 0 <= k <= |s[1..]| && DropSpaces(s[1..]) == s[1..][k..];
      assert s[1..][k..] == s[k + 1..];
    } else {
      assert s == s[0..];
    }
  }

  /** Collapsing white space introduces no capital letters. */
  lemma {:induction false} CollapseSpacesNoUpper(s: string)
    requires forall i :: 0 <= i < |s| ==> !IsUpper(s[i])
    ensures forall i :: 0 <= i < |CollapseSpaces(s)| ==> !IsUpper(CollapseSpaces(s)[i])
    decreases |s|
  {
    if s != [] {
      if IsSpace(s[0]) {
        DropSpacesSuffix(s[1..]);
        var k :| 0 <= k <= |s[1..]| && DropSpaces(s[1..]) == s[1..][k..];
        CollapseSpacesNoUpper(s[1..][k..]);
      } else {
        CollapseSpacesNoUpper(s[1..]);
      }
    }
  }

  /** `s.replace(c, '')` with a string pattern: only the first occurrence is removed. */
  function RemoveFirst(s: string, c: char): (r: string)
    ensures c in s ==> |r| == |s| - 1
    ensures c !in s ==> r == s
  {
    if s == [] then []
    else if s[0] == c then s[1..]
    else [s[0]] + RemoveFirst(s[1..], c)
  }

  /** The occurrence removed is the first one: everything before it and after it is kept. */
  lemma {:induction false} RemoveFirstSplits(a: string, c: char, b: string)
    requires c !in a
    ensures RemoveFirst(a + [c] + b, c) == a + b
  {
    if a != [] {
      var s := a + [c] + b;
      assert s[0] == a[0] && a[0] != c;
      assert s[1..] == a[1..] + [c] + b;
      RemoveFirstSplits(a[1..], c, b);
      assert RemoveFirst(s, c) == [a[0]] + RemoveFirst(s[1..], c);
      assert a == [a[0]] + a[1..];
    }
  }
}
