// The few pieces of JavaScript value semantics that the client code leans on:
// a value that may be absent (`undefined`/`null`), the `x || d` defaulting
// idiom, and `String(n)` for an integer-valued number.

module Js {

  /** A value that may be absent: `None` stands for `undefined` or `null`. */
  datatype Option<+T> = None | Some(value: T)

  /** `x || d` for a number that may be absent: absent and 0 are falsy. */
  function NumberOr(x: Option<int>, d: int): (r: int)
    ensures x.Some? && x.value != 0 ==> r == x.value
    ensures x.None? || x.value == 0 ==> r == d
  {
    if x.Some? && x.value != 0 then x.value else d
  }

  /** `x || d` for a string that may be absent: absent and "" are falsy. */
  function TextOr(x: Option<string>, d: string): (r: string)
    ensures x.Some? && x.value != "" ==> r == x.value
    ensures x.None? || x.value == "" ==> r == d
  {
    if x.Some? && x.value != "" then x.value else d
  }

  /** `x || d` for a list that may be absent: every array is truthy, even []. */
  function ListOr<T>(x: Option<seq<T>>, d: seq<T>): (r: seq<T>)
    ensures x.Some? ==> r == x.value
    ensures x.None? ==> r == d
  {
    if x.Some? then x.value else d
  }

  predicate IsDigit(c: char) {
    '0' <= c <= '9'
  }

  function DigitChar(d: nat): (c: char)
    requires d < 10
    ensures IsDigit(c) && DigitValue(c) == d
  {
    "0123456789"[d]
  }

  function DigitValue(c: char): nat
    requires IsDigit(c)
  {
    (c as int - '0' as int) as nat
  }

  predicate AllDigits(s: string) {
    forall i :: 0 <= i < |s| ==> IsDigit(s[i])
  }

  /** A numeral as JavaScript prints it: at least one digit, and no leading
      zero unless the numeral is "0" itself. */
  predicate Canonical(s: string) {
    s != [] && AllDigits(s) && (s[0] == '0' ==> |s| == 1)
  }

  /** The decimal digits of `n`, most significant first, with no leading zero. */
  function NatString(n: nat): (r: string)
    ensures Canonical(r)
    ensures n < 10 <==> |r| == 1
    ensures r[0] == '0' <==> n == 0
    decreases n
  {
    if n < 10 then [DigitChar(n)] else NatString(n / 10) + [DigitChar(n % 10)]
  }

  /** `String(n)` for an integer-valued number `n`: a '-' exactly for
      negatives, followed by the canonical numeral of the magnitude. */
  function NumberString(n: int): (r: string)
    ensures |r| >= 1
    ensures r[0] == '-' <==> n < 0
    ensures Canonical(if n < 0 then r[1..] else r)
    ensures n < 0 ==> r[1..] != "0"
  {
    if n < 0 then "-" + NatString(-n) else NatString(n)
  }

  /** The value of a string of decimal digits (the inverse of NatString). */
  function ParseNat(s: string): nat
    requires AllDigits(s)
  {
    if s == [] then 0 else ParseNat(s[..|s| - 1]) * 10 + DigitValue(s[|s| - 1])
  }

  /** The value of an optionally signed decimal numeral (the inverse of NumberString). */
  function ParseNumber(s: string): int
    requires s != [] && (if s[0] == '-' then AllDigits(s[1..]) else AllDigits(s))
  {
    if s[0] == '-' then -(ParseNat(s[1..]) as int) else ParseNat(s)
  }

  lemma {:induction false} NatStringRoundTrip(n: nat)
    ensures AllDigits(NatString(n)) && ParseNat(NatString(n)) == n
    decreases n
  {
    if n >= 10 {
      NatStringRoundTrip(n / 10);
      var s := NatString(n);
      assert s[..|s| - 1] == NatString(n / 10);
    }
  }

  /** `String(n)` loses nothing: reading the numeral back gives `n`. */
  lemma NumberStringRoundTrip(n: int)
    ensures var s := NumberString(n);
      (if s[0] == '-' then AllDigits(s[1..]) else AllDigits(s)) && ParseNumber(s) == n
  {
    if n < 0 {
      NatStringRoundTrip(-n);
      assert NumberString(n)[1..] == NatString(-n);
    } else {
      NatStringRoundTrip(n);
    }
  }

  /** Distinct numbers print as distinct strings. */
  lemma NumberStringInjective(m: int, n: int)
    requires NumberString(m) == NumberString(n)
    ensures m == n
  {
    NumberStringRoundTrip(m);
    NumberStringRoundTrip(n);
  }

  /** A canonical numeral with a non-zero first digit is worth at least 1. */
  lemma {:induction false} LeadingDigitPositive(s: string)
    requires s != [] && AllDigits(s) && s[0] != '0'
    ensures ParseNat(s) >= 1
    decreases |s|
  {
    if |s| > 1 {
      var p := s[..|s| - 1];
      assert p[0] == s[0];
      LeadingDigitPositive(p);
    }
  }

  /** `String(n)` is the only canonical numeral worth `n`. */
  lemma {:induction false} NatStringUnique(s: string, n: nat)
    requires Canonical(s) && ParseNat(s) == n
    ensures s == NatString(n)
    decreases |s|
  {
    var c := s[|s| - 1];
    assert DigitChar(DigitValue(c)) == c;
    if |s| == 1 {
      assert s == [c];
    } else {
      var p := s[..|s| - 1];
      assert p[0] == s[0] && s[0] != '0';
      assert Canonical(p);
      LeadingDigitPositive(p);
      assert n / 10 == ParseNat(p) && n % 10 == DigitValue(c);
      NatStringUnique(p, n / 10);
      assert s == p + [c];
    }
  }

  /** `String(n)` is the only numeral worth `n` that has an optional '-',
      no leading zero and no "-0". */
  lemma NumberStringUnique(s: string, n: int)
    requires s != []
    requires s[0] == '-' ==> Canonical(s[1..]) && s[1..] != "0"
    requires s[0] != '-' ==> Canonical(s)
    requires ParseNumber(s) == n
    ensures s == NumberString(n)
  {
    if s[0] == '-' {
      NatStringUnique(s[1..], -n);
      assert s == "-" + s[1..];
    } else {
      NatStringUnique(s, n);
    }
  }
}
