/**
 Character-level helpers shared by the search and chat components: the
 whitespace trimming of JavaScript's `String.prototype.trim`, and the ASCII
 case folding used to model a case-insensitive substring match.
 */
module Text {

  /** The characters JavaScript's `trim` removes: the ECMAScript WhiteSpace
      and LineTerminator code points. */
  predicate IsWhitespace(c: char) {
    || c == ' ' || c == '\t' || c == '\n' || c == '\r'
    || c == '\U{B}' || c == '\U{C}' || c == '\U{A0}' || c == '\U{1680}'
    || ('\U{2000}' <= c <= '\U{200A}')
    || c == '\U{2028}' || c == '\U{2029}' || c == '\U{202F}' || c == '\U{205F}'
    || c == '\U{3000}' || c == '\U{FEFF}'
  }

  /** `needle` occurs in `hay` starting at offset `i`. */
  predicate OccursAt(needle: string, hay: string, i: int) {
    0 <= i <= |hay| - |needle| && hay[i..i + |needle|] == needle
  }

  predicate AllWhitespace(s: string) {
    forall i :: 0 <= i < |s| ==> IsWhitespace(s[i])
  }

  /** The number of whitespace characters at the start of `s`. */
  function LeadingWhitespace(s: string): (n: nat)
    ensures n <= |s|
    ensures forall k :: 0 <= k < n ==> IsWhitespace(s[k])
    ensures n < |s| ==> !IsWhitespace(s[n])
  {
    if |s| > 0 && IsWhitespace(s[0]) then 1 + LeadingWhitespace(s[1..]) else 0
  }

  /** The end of `s` once trailing whitespace is dropped, never moving below `lo`. */
  function TrailingCut(s: string, lo: nat): (n: nat)
    requires lo <= |s|
    ensures lo <= n <= |s|
    ensures forall k :: n <= k < |s| ==> IsWhitespace(s[k])
    ensures n > lo ==> !IsWhitespace(s[n - 1])
  {
    if |s| > lo && IsWhitespace(s[|s| - 1]) then TrailingCut(s[..|s| - 1], lo) else |s|
  }

  /** `r` sits at offset `i` of `s` with only whitespace before and after it. */
  predicate SurroundedByWhitespace(r: string, s: string, i: int) {
    && OccursAt(r, s, i)
    && (forall k :: 0 <= k < i ==> IsWhitespace(s[k]))
    && (forall k :: i + |r| <= k < |s| ==> IsWhitespace(s[k]))
  }

  /** JavaScript's `s.trim()`: the contiguous middle of `s` left after removing
      whitespace at both ends. It is empty exactly when `s` is all whitespace. */
  function Trim(s: string): (r: string)
    ensures exists i :: SurroundedByWhitespace(r, s, i)
    ensures r == [] <==> AllWhitespace(s)
    ensures |r| > 0 ==> !IsWhitespace(r[0]) && !IsWhitespace(r[|r| - 1])
  {
    var lo := LeadingWhitespace(s);
    var hi := TrailingCut(s, lo);
    assert SurroundedByWhitespace(s[lo..hi], s, lo);
    s[lo..hi]
  }

  /** Trimming twice is trimming once. */
  lemma TrimIdempotent(s: string)
    ensures Trim(Trim(s)) == Trim(s)
  {
  }

  /** ASCII case folding: upper-case Latin letters map to lower case. */
  function FoldChar(c: char): (r: char)
    ensures !('A' <= r <= 'Z')
    ensures !('A' <= c <= 'Z') ==> r == c
  {
    if 'A' <= c <= 'Z' then (c as int + 32) as char else c
  }

  function Fold(s: string): (r: string)
    ensures |r| == |s|
    ensures forall i :: 0 <= i < |s| ==> r[i] == FoldChar(s[i])
  {
    seq(|s|, i requires 0 <= i < |s| => FoldChar(s[i]))
  }

  /** `needle` occurs as a contiguous run of `hay`. */
  predicate IsInfix(needle: string, hay: string) {
    exists i | 0 <= i <= |hay| - |needle| :: OccursAt(needle, hay, i)
  }

  /** A case-insensitive substring test: `needle` occurs in `hay` once both
      are folded. */
  predicate ContainsIgnoringCase(hay: string, needle: string) {
    IsInfix(Fold(needle), Fold(hay))
  }

  /** A verbatim occurrence is also a case-insensitive one. */
  lemma {:induction false} VerbatimOccurrenceMatches(hay: string, needle: string)
    requires IsInfix(needle, hay)
    ensures ContainsIgnoringCase(hay, needle)
  {
    var i :| OccursAt(needle, hay, i);
    assert OccursAt(needle, hay, i);
    var fh, fn := Fold(hay), Fold(needle);
    forall k | 0 <= k < |needle|
      ensures fh[i..i + |needle|][k] == fn[k]
    {
      assert hay[i + k] == needle[k];
    }
    assert fh[i..i + |needle|] == fn;
    assert OccursAt(fn, fh, i);
  }

  /** Matching ignores the case of the needle: folding it first changes nothing. */
  lemma FoldedNeedleMatchesAlike(hay: string, needle: string)
    ensures ContainsIgnoringCase(hay, Fold(needle)) <==> ContainsIgnoringCase(hay, needle)
  {
    assert Fold(Fold(needle)) == Fold(needle);
  }
}
