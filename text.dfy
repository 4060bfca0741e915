// `String.prototype.trim`, which both taxonomy slices apply to a new name
// and which the product form uses to ignore blank names.

module Text {

  /** The code points `trim` removes: ECMAScript WhiteSpace (tab, vertical tab,
      form feed, space, no-break space, byte order mark and the other Unicode
      space separators) and LineTerminator (line feed, carriage return, line
      and paragraph separators). */
  const WhitespaceChars: seq<char> := [
    '\t', '\U{000B}', '\U{000C}', ' ', '\U{00A0}', '\U{FEFF}', '\U{1680}',
    '\U{2000}', '\U{2001}', '\U{2002}', '\U{2003}', '\U{2004}', '\U{2005}',
    '\U{2006}', '\U{2007}', '\U{2008}', '\U{2009}', '\U{200A}',
    '\U{202F}', '\U{205F}', '\U{3000}',
    '\n', '\r', '\U{2028}', '\U{2029}'
  ]

  /** `c` is one of `cs`. Written by recursion, so that proofs about trimming,
      which never depend on which characters are whitespace, do not unfold the
      whole class at every use. */
  predicate OneOf(c: char, cs: seq<char>) {
    cs != [] && (cs[0] == c || OneOf(c, cs[1..]))
  }

  predicate IsWhitespace(c: char) {
    OneOf(c, WhitespaceChars)
  }

  predicate AllWhitespace(s: string) {
    forall i :: 0 <= i < |s| ==> IsWhitespace(s[i])
  }

  /** Only whitespace lies at positions `lo` up to (not including) `hi` of `s`. */
  predicate WhitespaceBetween(s: string, lo: int, hi: int)
    requires 0 <= lo <= hi <= |s|
  {
    forall k :: lo <= k < hi ==> IsWhitespace(s[k])
  }

  /** `t` is `s` with its leading and trailing whitespace removed: `t` is a
      slice of `s`, only whitespace lies outside it, and `t` neither starts nor
      ends with whitespace. */
  ghost predicate Trimmed(s: string, t: string) {
    exists i, j :: 0 <= i <= j <= |s| && t == s[i..j]
      && WhitespaceBetween(s, 0, i) && WhitespaceBetween(s, j, |s|)
      && (t == [] || (!IsWhitespace(t[0]) && !IsWhitespace(t[|t| - 1])))
  }

  function TrimStart(s: string): (r: string)
    ensures |r| <= |s| && r == s[|s| - |r|..]
    ensures WhitespaceBetween(s, 0, |s| - |r|)
    ensures r == [] || !IsWhitespace(r[0])
  {
    if s == [] || !IsWhitespace(s[0]) then s
    else
      var r := TrimStart(s[1..]);
      assert forall k :: 1 <= k < |s| ==> s[k] == s[1..][k - 1];
      r
  }

  function TrimEnd(s: string): (r: string)
    ensures |r| <= |s| && r == s[..|r|]
    ensures WhitespaceBetween(s, |r|, |s|)
    ensures r == [] || !IsWhitespace(r[|r| - 1])
  {
    if s == [] || !IsWhitespace(s[|s| - 1]) then s
    else
      var r := TrimEnd(s[..|s| - 1]);
      assert forall k :: 0 <= k < |s| - 1 ==> s[k] == s[..|s| - 1][k];
      r
  }

  /** A slice of `s` with only whitespace outside it, and none at its own ends,
      is a trimming of `s`. */
  lemma TrimmedOfBounds(s: string, i: nat, j: nat)
    requires i <= j <= |s|
    requires WhitespaceBetween(s, 0, i) && WhitespaceBetween(s, j, |s|)
    requires i == j || (!IsWhitespace(s[i]) && !IsWhitespace(s[j - 1]))
    ensures Trimmed(s, s[i..j])
  {
    var t := s[i..j];
    if t != [] {
      assert t[0] == s[i] && t[|t| - 1] == s[j - 1];
    }
  }

  /** Removing leading whitespace from `s`, giving `a`, then trailing
      whitespace from `a`, giving `r`, trims `s`. */
  lemma TrimmedOfParts(s: string, a: string, r: string)
    requires |a| <= |s| && a == s[|s| - |a|..] && WhitespaceBetween(s, 0, |s| - |a|)
    requires a == [] || !IsWhitespace(a[0])
    requires |r| <= |a| && r == a[..|r|] && WhitespaceBetween(a, |r|, |a|)
    requires r == [] || !IsWhitespace(r[|r| - 1])
    ensures Trimmed(s, r)
  {
    var i := |s| - |a|;
    var j := i + |r|;
    assert r == s[i..j];
    assert WhitespaceBetween(s, j, |s|) by {
      forall k | j <= k < |s|
        ensures IsWhitespace(s[k])
      {
        assert s[k] == a[k - i];
      }
    }
    assert i == j || (!IsWhitespace(s[i]) && !IsWhitespace(s[j - 1])) by {
      if i < j {
        assert s[i] == a[0] && s[j - 1] == r[|r| - 1];
      }
    }
    TrimmedOfBounds(s, i, j);
  }

  /** `s.trim()`. */
  function Trim(s: string): (r: string)
    ensures Trimmed(s, r)
  {
    TrimmedOfParts(s, TrimStart(s), TrimEnd(TrimStart(s)));
    TrimEnd(TrimStart(s))
  }

  /** `!s.trim()`: the name is empty once trimmed. */
  function IsBlank(s: string): (b: bool)
    ensures b <==> AllWhitespace(s)
  {
    var t := Trim(s);
    TrimmedEmpty(s, t);
    t == []
  }

  lemma TrimmedEmpty(s: string, t: string)
    requires Trimmed(s, t)
    ensures t == [] <==> AllWhitespace(s)
  {
    var i, j :| 0 <= i <= j <= |s| && t == s[i..j]
      && WhitespaceBetween(s, 0, i) && WhitespaceBetween(s, j, |s|)
      && (t == [] || (!IsWhitespace(t[0]) && !IsWhitespace(t[|t| - 1])));
    if t != [] {
      assert s[i] == t[0];
    }
  }

  /** The first non-whitespace position of `s` is determined by `s`. */
  lemma SameStart(s: string, i: nat, i': nat)
    requires i < |s| && i' < |s|
    requires WhitespaceBetween(s, 0, i) && !IsWhitespace(s[i])
    requires WhitespaceBetween(s, 0, i') && !IsWhitespace(s[i'])
    ensures i == i'
  {
  }

  /** The last non-whitespace position of `s` is determined by `s`. */
  lemma SameEnd(s: string, j: nat, j': nat)
    requires 0 < j <= |s| && 0 < j' <= |s|
    requires WhitespaceBetween(s, j, |s|) && !IsWhitespace(s[j - 1])
    requires WhitespaceBetween(s, j', |s|) && !IsWhitespace(s[j' - 1])
    ensures j == j'
  {
  }

  /** Two non-empty trimmings of `s`, given by their bounds, coincide. */
  lemma SameSlice(s: string, i: nat, j: nat, i': nat, j': nat)
    requires i < j <= |s| && i' < j' <= |s|
    requires WhitespaceBetween(s, 0, i) && WhitespaceBetween(s, j, |s|)
    requires WhitespaceBetween(s, 0, i') && WhitespaceBetween(s, j', |s|)
    requires !IsWhitespace(s[i]) && !IsWhitespace(s[j - 1])
    requires !IsWhitespace(s[i']) && !IsWhitespace(s[j' - 1])
    ensures s[i..j] == s[i'..j']
  {
    SameStart(s, i, i');
    SameEnd(s, j, j');
  }

  /** The bounds of a non-empty trimming inside the string it came from. */
  lemma TrimmedBounds(s: string, t: string) returns (i: nat, j: nat)
    requires Trimmed(s, t) && t != []
    ensures i < j <= |s| && t == s[i..j]
    ensures WhitespaceBetween(s, 0, i) && WhitespaceBetween(s, j, |s|)
    ensures !IsWhitespace(s[i]) && !IsWhitespace(s[j - 1])
  {
    i, j :| 0 <= i <= j <= |s| && t == s[i..j]
      && WhitespaceBetween(s, 0, i) && WhitespaceBetween(s, j, |s|)
      && (t == [] || (!IsWhitespace(t[0]) && !IsWhitespace(t[|t| - 1])));
    assert |t| == j - i;
    assert s[i] == t[0] && s[j - 1] == t[j - 1 - i];
  }

  /** There is only one way to trim a string. */
  lemma TrimmedUnique(s: string, t: string, u: string)
    requires Trimmed(s, t) && Trimmed(s, u)
    ensures t == u
  {
    TrimmedEmpty(s, t);
    TrimmedEmpty(s, u);
    if t != [] && u != [] {
      var i, j := TrimmedBounds(s, t);
      var i', j' := TrimmedBounds(s, u);
      SameSlice(s, i, j, i', j');
    }
  }

  /** Trimming twice is trimming once. */
  lemma TrimIdempotent(s: string)
    ensures Trim(Trim(s)) == Trim(s)
  {
    var t := Trim(s);
    assert t == t[0..|t|];
    assert Trimmed(t, t) by {
      TrimmedEmpty(s, t);
    }
    TrimmedUnique(t, t, Trim(t));
  }
}
