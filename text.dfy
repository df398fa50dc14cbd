/** String helpers used by the binder and the test reporter: counting a character,
    PHP's `join` and PHP's decimal rendering of an integer inside a string. */
module Text {

  /** Number of occurrences of `c` in `s`. */
  function Count(s: string, c: char): (n: nat)
    ensures n <= |s|
  {
    if s == [] then 0 else (if s[0] == c then 1 else 0) + Count(s[1..], c)
  }

  /** A character is counted zero times exactly when it does not occur. */
  lemma {:induction false} CountZero(s: string, c: char)
    ensures Count(s, c) == 0 <==> forall i :: 0 <= i < |s| ==> s[i] != c
  {
    if s != [] {
      CountZero(s[1..], c);
      assert forall i :: 1 <= i < |s| ==> s[i] == s[1..][i - 1];
    }
  }

  lemma {:induction false} CountAppend(a: string, b: string, c: char)
    ensures Count(a + b, c) == Count(a, c) + Count(b, c)
  {
    if a == [] {
      assert a + b == b;
    } else {
      assert (a + b)[1..] == a[1..] + b;
      CountAppend(a[1..], b, c);
    }
  }

  /** PHP `join(sep, xs)`: the elements of `xs` in order, separated by `sep`. */
  function Join(sep: string, xs: seq<string>): string
  {
    if |xs| == 0 then ""
    else if |xs| == 1 then xs[0]
    else xs[0] + sep + Join(sep, xs[1..])
  }

  /** Appending one more element to a joined list appends the separator and the element. */
  lemma {:induction false} JoinSnoc(sep: string, xs: seq<string>, x: string)
    ensures Join(sep, xs + [x]) == if xs == [] then x else Join(sep, xs) + sep + x
  {
    if |xs| == 1 {
      assert xs + [x] == [xs[0], x];
      assert Join(sep, [x]) == x;
    } else if |xs| > 1 {
      assert (xs + [x])[1..] == xs[1..] + [x];
      JoinSnoc(sep, xs[1..], x);
    }
  }

  /** `x` occurs in `s` starting at position `k`. */
  predicate OccursAt(x: string, s: string, k: nat)
  {
    k + |x| <= |s| && s[k..k + |x|] == x
  }

  /** Every element of a list occurs, whole, in the joined text. */
  lemma {:induction false} JoinContains(sep: string, xs: seq<string>, i: nat)
    requires i < |xs|
    ensures exists k: nat :: OccursAt(xs[i], Join(sep, xs), k)
  {
    var r := Join(sep, xs);
    if i == 0 {
      assert r[..|xs[0]|] == xs[0];
      assert OccursAt(xs[0], r, 0);
    } else {
      var rest := Join(sep, xs[1..]);
      assert xs[1..][i - 1] == xs[i];
      JoinContains(sep, xs[1..], i - 1);
      var k: nat :| OccursAt(xs[i], rest, k);
      var head := xs[0] + sep;
      assert r == head + rest;
      assert r[|head| + k..|head| + k + |xs[i]|] == rest[k..k + |xs[i]|];
      assert OccursAt(xs[i], r, |head| + k);
    }
  }

  predicate IsDigit(c: char)
  {
    '0' <= c <= '9'
  }

  predicate AllDigits(s: string)
  {
    forall i :: 0 <= i < |s| ==> IsDigit(s[i])
  }

  function DigitChar(d: nat): (c: char)
    requires d < 10
    ensures IsDigit(c)
  {
    "0123456789"[d]
  }

  function DigitValue(c: char): (d: nat)
    requires IsDigit(c)
    ensures d < 10
  {
    (c as int - '0' as int) as nat
  }

  /** The decimal text PHP produces when an integer count is interpolated into a string. */
  function NatToString(n: nat): (s: string)
    ensures s != [] && AllDigits(s)
    ensures s[0] == '0' ==> n == 0
  {
    if n < 10 then [DigitChar(n)] else NatToString(n / 10) + [DigitChar(n % 10)]
  }

  /** Reads back a string of decimal digits. */
  function ParseDecimal(s: string): nat
    requires AllDigits(s)
  {
    if s == [] then 0 else 10 * ParseDecimal(s[..|s| - 1]) + DigitValue(s[|s| - 1])
  }

  /** The decimal rendering of a count reads back as that count. */
  lemma {:induction false} ParseNatToString(n: nat)
    ensures ParseDecimal(NatToString(n)) == n
  {
    var s := NatToString(n);
    if n < 10 {
      assert s[..|s| - 1] == [];
    } else {
      assert s[..|s| - 1] == NatToString(n / 10);
      ParseNatToString(n / 10);
    }
  }

  /** Different counts are rendered as different strings. */
  lemma NatToStringInjective(m: nat, n: nat)
    requires NatToString(m) == NatToString(n)
    ensures m == n
  {
    ParseNatToString(m);
    ParseNatToString(n);
  }

  /** The number of decimal digits at the start of `s`. */
  function LeadingDigits(s: string): nat
  {
    if s != [] && IsDigit(s[0]) then 1 + LeadingDigits(s[1..]) else 0
  }

  /** Digits followed by a non-digit: the run of leading digits is exactly the digits. */
  lemma {:induction false} LeadingDigitsAppend(a: string, s: string)
    requires AllDigits(a) && s != [] && !IsDigit(s[0])
    ensures LeadingDigits(a + s) == |a|
  {
    if a == [] {
      assert a + s == s;
    } else {
      assert (a + s)[1..] == a[1..] + s;
      LeadingDigitsAppend(a[1..], s);
    }
  }

  /** A rendered count followed by a non-digit cannot be mistaken for another count
      followed by other text: the count and the rest are determined. */
  lemma NumberPrefixUnique(m: nat, n: nat, s: string, t: string)
    requires s != [] && !IsDigit(s[0]) && t != [] && !IsDigit(t[0])
    requires NatToString(m) + s == NatToString(n) + t
    ensures m == n && s == t
  {
    var a, b := NatToString(m), NatToString(n);
    LeadingDigitsAppend(a, s);
    LeadingDigitsAppend(b, t);
    assert a == (a + s)[..|a|] && b == (b + t)[..|b|];
    NatToStringInjective(m, n);
    assert s == (a + s)[|a|..] && t == (b + t)[|b|..];
  }
}
