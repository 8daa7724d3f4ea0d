/** The few library string operations the text formatter relies on:
    `strings.TrimSpace`, `strings.ToUpper` and `strings.ReplaceAll(s, "\n", "\n\t")`. */
module Strings {

  /** The code points Unicode gives the White_Space property. */
  const WhiteSpace: set<char> := {
    '\t', '\n', '\U{0B}', '\U{0C}', '\r', ' ', '\U{85}', '\U{A0}', '\U{1680}',
    '\U{2000}', '\U{2001}', '\U{2002}', '\U{2003}', '\U{2004}', '\U{2005}',
    '\U{2006}', '\U{2007}', '\U{2008}', '\U{2009}', '\U{200A}',
    '\U{2028}', '\U{2029}', '\U{202F}', '\U{205F}', '\U{3000}'}

  /** Go's `unicode.IsSpace`: a fixed list for Latin-1, the White_Space
      ranges above it. */
  function IsSpace(c: char): (r: bool)
    ensures r <==> c in WhiteSpace
  {
    if c <= '\U{FF}' then
      c == '\t' || c == '\n' || c == '\U{0B}' || c == '\U{0C}' || c == '\r'
      || c == ' ' || c == '\U{85}' || c == '\U{A0}'
    else
      || c == '\U{1680}'
      || ('\U{2000}' <= c <= '\U{200A}')
      || c == '\U{2028}' || c == '\U{2029}' || c == '\U{202F}' || c == '\U{205F}' || c == '\U{3000}'
  }

  /** Every character of `s` from index `lo` up to `hi` is white space. */
  predicate SpaceBetween(s: string, lo: int, hi: int)
    requires 0 <= lo <= hi <= |s|
  {
    forall k :: lo <= k < hi ==> IsSpace(s[k])
  }

  /** Neither end of `s` is white space. */
  predicate Trimmed(s: string) {
    s == [] || (!IsSpace(s[0]) && !IsSpace(s[|s| - 1]))
  }

  /** `r` is `s` with the white space at both ends removed, and no more. */
  ghost predicate IsTrimOf(r: string, s: string) {
    && Trimmed(r)
    && exists i, j :: 0 <= i <= j <= |s| && r == s[i..j] && SpaceBetween(s, 0, i) && SpaceBetween(s, j, |s|)
  }

  /** The first index at or after `k` that is not white space (or |s|). */
  function SkipForward(s: string, k: nat): (i: nat)
    requires k <= |s|
    ensures k <= i <= |s| && SpaceBetween(s, k, i)
    ensures i < |s| ==> !IsSpace(s[i])
    decreases |s| - k
  {
    if k < |s| && IsSpace(s[k]) then SkipForward(s, k + 1) else k
  }

  /** The end of the text before index `k`, not going below `lo`: every
      character from there up to `k` is white space. */
  function SkipBackward(s: string, lo: nat, k: nat): (j: nat)
    requires lo <= k <= |s|
    ensures lo <= j <= k && SpaceBetween(s, j, k)
    ensures j > lo ==> !IsSpace(s[j - 1])
    decreases k - lo
  {
    if k > lo && IsSpace(s[k - 1]) then SkipBackward(s, lo, k - 1) else k
  }

  /** `strings.TrimSpace`. */
  function TrimSpace(s: string): (r: string)
    ensures IsTrimOf(r, s)
  {
    var i := SkipForward(s, 0);
    var j := SkipBackward(s, i, |s|);
    var r := s[i..j];
    assert r != [] ==> r[0] == s[i] && r[|r| - 1] == s[j - 1];
    assert Trimmed(r);
    r
  }

  /** Trimming is idempotent: a trimmed string is its own trim. */
  lemma TrimSpaceOfTrimmed(s: string)
    requires Trimmed(s)
    ensures TrimSpace(s) == s
  {
    var i := SkipForward(s, 0);
    assert i == 0;
    var j := SkipBackward(s, i, |s|);
    assert j == |s|;
  }

  /** The ASCII case mapping; enough for the level names it is applied to. */
  predicate IsLowerAscii(c: char) {
    'a' <= c <= 'z'
  }

  function UpperChar(c: char): char {
    if IsLowerAscii(c) then (c as int - 32) as char else c
  }

  /** `strings.ToUpper` on ASCII text: exactly the letters 'a' to 'z' change,
      each to its capital, and no such letter is left. */
  function Upper(s: string): (r: string)
    ensures |r| == |s|
    ensures forall i :: 0 <= i < |s| ==> (r[i] != s[i] <==> IsLowerAscii(s[i]))
    ensures forall i :: 0 <= i < |s| && IsLowerAscii(s[i]) ==> r[i] as int + 32 == s[i] as int
    ensures forall i :: 0 <= i < |r| ==> !IsLowerAscii(r[i])
  {
    seq(|s|, i requires 0 <= i < |s| => UpperChar(s[i]))
  }

  /** Upper-casing twice is upper-casing once. */
  lemma UpperIdempotent(s: string)
    ensures Upper(Upper(s)) == Upper(s)
  {
    var u := Upper(s);
    assert forall i :: 0 <= i < |u| ==> Upper(u)[i] == u[i];
  }

  /** Every line break in an indented text is followed by a tab. */
  predicate TabAfterEveryBreak(s: string) {
    forall i :: 0 <= i < |s| && s[i] == '\n' ==> i + 1 < |s| && s[i + 1] == '\t'
  }

  /** Drops the tab after each line break. */
  function UnindentLines(s: string): string
  {
    if s == [] then []
    else if |s| >= 2 && s[0] == '\n' && s[1] == '\t' then "\n" + UnindentLines(s[2..])
    else [s[0]] + UnindentLines(s[1..])
  }

  /** `strings.ReplaceAll(s, "\n", "\n\t")`: a tab after every line break,
      and nothing lost, since UnindentLines gives `s` back. */
  function IndentLines(s: string): (r: string)
    ensures TabAfterEveryBreak(r)
    ensures UnindentLines(r) == s
  {
    if s == [] then []
    else
      var head := if s[0] == '\n' then "\n\t" else [s[0]];
      var rest := IndentLines(s[1..]);
      assert (head + rest)[|head|..] == rest;
      assert forall i :: |head| <= i < |head + rest| ==> (head + rest)[i] == rest[i - |head|];
      head + rest
  }

  /** Trimming keeps the tab after every line break: the last character of a
      trimmed text is never a line break. */
  lemma TrimKeepsTabs(s: string)
    requires TabAfterEveryBreak(s)
    ensures TabAfterEveryBreak(TrimSpace(s))
  {
    var r := TrimSpace(s);
    var i, j :| 0 <= i <= j <= |s| && r == s[i..j] && SpaceBetween(s, 0, i) && SpaceBetween(s, j, |s|);
    forall p | 0 <= p < |r| && r[p] == '\n'
      ensures p + 1 < |r| && r[p + 1] == '\t'
    {
      assert s[i + p] == '\n';
      assert p != |r| - 1;
    }
  }
}
