/**
 * String helpers shared by the components: the whitespace class of JavaScript
 * regular expressions (`\s`, also what `String.prototype.trim` strips),
 * trimming, ASCII lower-casing and substring search (`includes`).
 */
module Text {

  /** A character of JavaScript's WhiteSpace or LineTerminator productions. */
  predicate IsWhitespace(c: char) {
    c == ' ' || c == '\t' || c == '\n' || c == '\U{B}' || c == '\U{C}' || c == '\r'
    || c == '\U{A0}' || c == '\U{1680}' || ('\U{2000}' <= c <= '\U{200A}')
    || c == '\U{2028}' || c == '\U{2029}' || c == '\U{202F}' || c == '\U{205F}'
    || c == '\U{3000}' || c == '\U{FEFF}'
  }

  predicate AllWhitespace(s: string) {
    forall i :: 0 <= i < |s| ==> IsWhitespace(s[i])
  }

  /** Every character of `s` at a position in `lo..hi` is whitespace. */
  predicate WhitespaceBetween(s: string, lo: int, hi: int) {
    forall i :: 0 <= lo <= i < hi <= |s| ==> IsWhitespace(s[i])
  }

  /** `s` with its leading whitespace removed. */
  function TrimStart(s: string): (r: string)
    ensures |r| <= |s| && r == s[|s| - |r|..]
    ensures WhitespaceBetween(s, 0, |s| - |r|)
    ensures r == [] || !IsWhitespace(r[0])
  {
    if |s| > 0 && IsWhitespace(s[0]) then
      var r := TrimStart(s[1..]);
      TrimStartStep(s, r);
      r
    else s
  }

  /** Whitespace removed from the start of `s[1..]` plus the whitespace first character of `s`. */
  lemma TrimStartStep(s: string, r: string)
    requires |s| > 0 && IsWhitespace(s[0])
    requires |r| <= |s| - 1 && r == s[1..][|s| - 1 - |r|..] && WhitespaceBetween(s[1..], 0, |s| - 1 - |r|)
    ensures r == s[|s| - |r|..] && WhitespaceBetween(s, 0, |s| - |r|)
  {
    assert s[1..][|s| - 1 - |r|..] == s[|s| - |r|..];
    forall i | 0 < i < |s| - |r|
      ensures IsWhitespace(s[i])
    {
      assert s[i] == s[1..][i - 1];
    }
  }

  /** `s` with its trailing whitespace removed. */
  function TrimEnd(s: string): (r: string)
    ensures |r| <= |s| && r == s[..|r|]
    ensures WhitespaceBetween(s, |r|, |s|)
    ensures r == [] || !IsWhitespace(r[|r| - 1])
  {
    if |s| > 0 && IsWhitespace(s[|s| - 1]) then
      var r := TrimEnd(s[..|s| - 1]);
      TrimEndStep(s, r);
      r
    else s
  }

  /** Whitespace removed from the end of `s[..|s| - 1]` plus the whitespace last character of `s`. */
  lemma TrimEndStep(s: string, r: string)
    requires |s| > 0 && IsWhitespace(s[|s| - 1])
    requires |r| <= |s| - 1 && r == s[..|s| - 1][..|r|] && WhitespaceBetween(s[..|s| - 1], |r|, |s| - 1)
    ensures r == s[..|r|] && WhitespaceBetween(s, |r|, |s|)
  {
    assert s[..|s| - 1][..|r|] == s[..|r|];
    forall i | |r| <= i < |s| - 1
      ensures IsWhitespace(s[i])
    {
      assert s[i] == s[..|s| - 1][i];
    }
  }

  /** `r` is `s` with its first `a` characters and a suffix removed, all of them whitespace. */
  predicate TrimmedFrom(s: string, r: string, a: nat) {
    a + |r| <= |s| && r == s[a..a + |r|] && WhitespaceBetween(s, 0, a) && WhitespaceBetween(s, a + |r|, |s|)
  }

  /** How many leading characters `trim` removes. */
  function LeadingWhitespace(s: string): nat {
    |s| - |TrimStart(s)|
  }

  /**
   * `String.prototype.trim`: `s` without its leading and trailing whitespace;
   * what is left neither starts nor ends with whitespace.
   */
  function Trim(s: string): (r: string)
    ensures |r| <= |s|
    ensures r == [] || (!IsWhitespace(r[0]) && !IsWhitespace(r[|r| - 1]))
  {
    var t := TrimStart(s);
    var r := TrimEnd(t);
    assert r == [] || r[0] == t[0];
    r
  }

  /**
   * `trim` removes only whitespace, all of it at the two ends: its result is
   * the infix of `s` after the leading whitespace, and it is empty exactly
   * when `s` is all whitespace.
   */
  lemma TrimSpec(s: string)
    ensures TrimmedFrom(s, Trim(s), LeadingWhitespace(s))
    ensures Trim(s) == [] <==> AllWhitespace(s)
  {
    var t := TrimStart(s);
    var r := TrimEnd(t);
    assert Trim(s) == r && LeadingWhitespace(s) == |s| - |t|;
    TrimParts(s, t, r);
  }

  /** The trimmed text is the infix of `s` after its leading whitespace. */
  lemma TrimInfix(s: string)
    ensures var a, r := LeadingWhitespace(s), Trim(s);
      a + |r| <= |s| && r == s[a..a + |r|] && (a > 0 ==> IsWhitespace(s[a - 1]))
  {
    TrimSpec(s);
  }

  lemma TrimParts(s: string, t: string, r: string)
    requires |t| <= |s| && t == s[|s| - |t|..] && WhitespaceBetween(s, 0, |s| - |t|)
    requires t == [] || !IsWhitespace(t[0])
    requires |r| <= |t| && r == t[..|r|] && WhitespaceBetween(t, |r|, |t|)
    requires r == [] || !IsWhitespace(r[|r| - 1])
    ensures TrimmedFrom(s, r, |s| - |t|)
    ensures r == [] <==> AllWhitespace(s)
  {
    var a := |s| - |t|;
    assert forall i :: a <= i < |s| ==> s[i] == t[i - a];
    assert s[a..a + |r|] == r;
    if r != [] {
      assert s[a] == r[0];
    }
  }
  /** ASCII lower-casing: `A`..`Z` become `a`..`z`, everything else is kept. */
  function LowerChar(c: char): char {
    if 'A' <= c <= 'Z' then (c as int + 32) as char else c
  }

  function Lower(s: string): (r: string)
    ensures |r| == |s|
    ensures forall i :: 0 <= i < |s| ==> r[i] == LowerChar(s[i])
  {
    seq(|s|, i requires 0 <= i < |s| => LowerChar(s[i]))
  }

  /** `t` occurs in `s` starting at index `i`. */
  predicate OccursAt(s: string, t: string, i: int) {
    0 <= i && i + |t| <= |s| && s[i..i + |t|] == t
  }

  /** Reference definition of substring containment. */
  ghost predicate Contains(s: string, t: string) {
    exists i :: OccursAt(s, t, i)
  }

  /** `s.includes(t)`: a left-to-right scan for `t`. */
  function Includes(s: string, t: string): (b: bool)
    ensures b <==> Contains(s, t)
  {
    if t <= s then
      assert OccursAt(s, t, 0);
      true
    else if |s| == 0 then
      false
    else
      var b := Includes(s[1..], t);
      ContainsShift(s, t);
      b
  }

  /** When `t` is not a prefix of `s`, it occurs in `s` iff it occurs in `s[1..]`. */
  lemma ContainsShift(s: string, t: string)
    requires |s| > 0 && !(t <= s)
    ensures Contains(s, t) <==> Contains(s[1..], t)
  {
    if Contains(s[1..], t) {
      var i :| OccursAt(s[1..], t, i);
      OccursShift(s, t, i + 1);
    }
    if Contains(s, t) {
      var i :| OccursAt(s, t, i);
      PrefixOccurs(s, t);
      OccursShift(s, t, i);
    }
  }

  /** An occurrence at index `i > 0` of `s` is one at `i - 1` of `s[1..]`, and back. */
  lemma OccursShift(s: string, t: string, i: int)
    requires 0 < i && |s| > 0
    ensures OccursAt(s, t, i) <==> OccursAt(s[1..], t, i - 1)
  {
    if i + |t| <= |s| {
      assert s[1..][i - 1..i - 1 + |t|] == s[i..i + |t|];
    }
  }

  /** An occurrence at index 0 is a prefix. */
  lemma PrefixOccurs(s: string, t: string)
    ensures OccursAt(s, t, 0) ==> t <= s
  {
    if OccursAt(s, t, 0) {
      assert forall j :: 0 <= j < |t| ==> t[j] == s[..|t|][j] == s[j];
    }
  }
}
