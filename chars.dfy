/**
 * Characters and positions in a source text.
 *
 * The scanners read their input one UTF-16 code unit at a time through
 * `String.charCodeAt`; here a text is a `string` and a code unit a `char`.
 * The functions below are the reference definitions that the cursor's
 * loops in module Utils are proved against.
 */
module Chars {

  const NUL: char := '\0'
  const FF: char := '\U{0C}'
  const VT: char := '\U{0B}'

  /** `source.charCodeAt(p) || 0`: the character at `p`, or NUL outside the text. */
  function CharAt(s: string, p: int): char {
    if 0 <= p < |s| then s[p] else NUL
  }

  /** `skipWhitespace`: space, tab, line feed, form feed, carriage return. */
  predicate IsWhitespace(c: char) {
    c == ' ' || c == '\t' || c == '\n' || c == FF || c == '\r'
  }

  /** `skipWitheSpaceWithoutNewLine`: space, tab, form feed. */
  predicate IsBlank(c: char) {
    c == ' ' || c == '\t' || c == FF
  }

  /** `[a-zA-Z]` */
  predicate IsLetter(c: char) {
    'a' <= c <= 'z' || 'A' <= c <= 'Z'
  }

  predicate IsDigit(c: char) {
    '0' <= c <= '9'
  }

  /** `\w` in a JavaScript regular expression. */
  predicate IsWordChar(c: char) {
    IsLetter(c) || IsDigit(c) || c == '_'
  }

  /** The characters `.` in a JavaScript regular expression does not match. */
  predicate IsLineTerminator(c: char) {
    c == '\n' || c == '\r' || c == '\U{2028}' || c == '\U{2029}'
  }

  /** `\s` in a JavaScript regular expression, and what `String.prototype.trim` removes. */
  predicate IsJsSpace(c: char) {
    c == ' ' || c == '\t' || c == '\n' || c == VT || c == FF || c == '\r'
    || c == '\U{A0}' || c == '\U{1680}' || ('\U{2000}' <= c <= '\U{200A}')
    || c == '\U{2028}' || c == '\U{2029}' || c == '\U{202F}' || c == '\U{205F}'
    || c == '\U{3000}' || c == '\U{FEFF}'
  }

  /** `String.prototype.toLowerCase` on the ASCII letters. */
  function ToLowerAscii(c: char): char {
    if 'A' <= c <= 'Z' then (c as int + 32) as char else c
  }

  function ToLower(s: string): (r: string)
    ensures |r| == |s|
    ensures forall k :: 0 <= k < |s| ==> r[k] == ToLowerAscii(s[k])
  {
    seq(|s|, k requires 0 <= k < |s| => ToLowerAscii(s[k]))
  }

  /**
   * Where a run of characters satisfying `cond` that starts at `p` ends:
   * the loop of `advanceWhileChar`. A position at or past the end is its
   * own answer.
   */
  function SkipWhile(s: string, p: nat, cond: char -> bool): (r: nat)
    ensures p <= r
    ensures p < |s| ==> r <= |s|
    ensures p >= |s| ==> r == p
    ensures r < |s| ==> !cond(s[r])
    decreases |s| - p
  {
    if p < |s| && cond(s[p]) then SkipWhile(s, p + 1, cond) else p
  }

  /** Every character `SkipWhile` passes over satisfies the condition. */
  lemma {:induction false} SkipWhileSpan(s: string, p: nat, cond: char -> bool)
    ensures forall k :: p <= k < SkipWhile(s, p, cond) ==> k < |s| && cond(s[k])
    decreases |s| - p
  {
    if p < |s| && cond(s[p]) {
      SkipWhileSpan(s, p + 1, cond);
      forall k | p <= k < SkipWhile(s, p, cond)
        ensures k < |s| && cond(s[k])
      {
        if k > p {
          assert p + 1 <= k < SkipWhile(s, p + 1, cond);
        }
      }
    } else {
      assert SkipWhile(s, p, cond) == p;
    }
  }

  /** Where `skipWhitespace` stops when started at `p`. */
  function SkipWs(s: string, p: nat): nat {
    SkipWhile(s, p, IsWhitespace)
  }

  /** Where `skipWitheSpaceWithoutNewLine` stops when started at `p`. */
  function SkipBlanks(s: string, p: nat): nat {
    SkipWhile(s, p, IsBlank)
  }

  /**
   * Where `advanceUntilChar(c)` stops when started at `from`: the first
   * occurrence of `c` at or after `from`, or the end of the text; a
   * position already past the end does not move.
   */
  function IndexOfChar(s: string, from: nat, c: char): (r: nat)
    ensures from <= r
    ensures from <= |s| ==> r <= |s|
    ensures from >= |s| ==> r == from
    ensures r < |s| ==> s[r] == c
    ensures forall k :: from <= k < r ==> k < |s| && s[k] != c
    decreases |s| - from
  {
    if from < |s| && s[from] != c then IndexOfChar(s, from + 1, c) else from
  }

  /** `pat` occurs in `s` at position `k`. */
  predicate MatchesAt(s: string, k: int, pat: string) {
    0 <= k && k + |pat| <= |s| && s[k..k + |pat|] == pat
  }

  /**
   * Where `advanceUntilChars(pat)` stops when started at `from`: the first
   * position at or after `from` where `pat` occurs, or the end of the text.
   */
  function IndexOfSeq(s: string, from: nat, pat: string): (r: nat)
    ensures r == |s| || (from <= r && MatchesAt(s, r, pat))
    ensures forall k :: from <= k < r ==> !MatchesAt(s, k, pat)
    decreases |s| - from
  {
    if from + |pat| <= |s| then
      if s[from..from + |pat|] == pat then from else IndexOfSeq(s, from + 1, pat)
    else
      |s|
  }

  /** `s.indexOf(sub) !== -1` */
  predicate Contains(s: string, sub: string) {
    exists k :: 0 <= k <= |s| - |sub| && MatchesAt(s, k, sub)
  }

  /** `s.indexOf(c) !== -1` for one character. */
  predicate ContainsChar(s: string, c: char) {
    c in s
  }

  /**
   * Opening minus closing braces in `s[i..j]`, every character counted: the
   * brace depth a reader of plain text would track.
   */
  function BraceBalance(s: string, i: nat, j: nat): int
    requires i <= j <= |s|
    decreases j - i
  {
    if i == j then 0
    else (if s[i] == '{' then 1 else if s[i] == '}' then -1 else 0) + BraceBalance(s, i + 1, j)
  }

  /** JavaScript's `s.substring(a, b)`: both bounds clamped to the text, swapped when reversed. */
  function Substring(s: string, a: int, b: int): (r: string)
    ensures 0 <= a <= b <= |s| ==> r == s[a..b]
    ensures 0 <= b <= a <= |s| ==> r == s[b..a]
    ensures 0 <= a <= |s| <= b ==> r == s[a..]
    ensures a <= 0 && |s| <= b ==> r == s
    ensures |r| <= |s|
  {
    var x := if a < 0 then 0 else if a > |s| then |s| else a;
    var y := if b < 0 then 0 else if b > |s| then |s| else b;
    if x <= y then s[x..y] else s[y..x]
  }

  /** `String.prototype.trim`: leading and trailing JavaScript white space removed. */
  function Trim(s: string): (r: string)
    ensures |r| <= |s|
    ensures r != [] ==> !IsJsSpace(r[0]) && !IsJsSpace(r[|r| - 1])
    ensures forall c :: c in r ==> c in s
  {
    TrimEnd(TrimStart(s))
  }

  /** `trim` removes exactly the white space at both ends: what is left is a slice of `s`. */
  lemma TrimIsSlice(s: string)
    ensures TrimmedAt(s, |s| - |TrimStart(s)|, Trim(s))
  {
    var m := TrimStart(s);
    TrimStartDropsSpace(s);
    TrimEndDropsSpace(m);
    TrimmedTwice(s, m, TrimEnd(m));
  }

  /** White space taken off the front of `s`, then off the back of what is left. */
  lemma TrimmedTwice(s: string, m: string, r: string)
    requires |m| <= |s| && m == s[|s| - |m|..] && (forall k :: 0 <= k < |s| - |m| ==> IsJsSpace(s[k]))
    requires |r| <= |m| && r == m[..|r|] && (forall k :: |r| <= k < |m| ==> IsJsSpace(m[k]))
    ensures TrimmedAt(s, |s| - |m|, r)
  {
    var a := |s| - |m|;
    assert r == s[a..a + |r|];
    forall k | a + |r| <= k < |s|
      ensures IsJsSpace(s[k])
    {
      assert s[k] == m[k - a];
    }
  }

  /** `r` is `s[a..a + |r|]`, and every character of `s` outside it is JavaScript white space. */
  predicate TrimmedAt(s: string, a: int, r: string) {
    && 0 <= a <= a + |r| <= |s| && r == s[a..a + |r|]
    && (forall k :: 0 <= k < a ==> IsJsSpace(s[k]))
    && (forall k :: a + |r| <= k < |s| ==> IsJsSpace(s[k]))
  }

  function TrimStart(s: string): (r: string)
    ensures |r| <= |s|
    ensures r != [] ==> !IsJsSpace(r[0])
    ensures r == s[|s| - |r|..]
    decreases |s|
  {
    if s != [] && IsJsSpace(s[0]) then TrimStart(s[1..]) else s
  }

  function TrimEnd(s: string): (r: string)
    ensures |r| <= |s|
    ensures r != [] ==> !IsJsSpace(r[|r| - 1])
    ensures r == s[..|r|]
    decreases |s|
  {
    if s != [] && IsJsSpace(s[|s| - 1]) then TrimEnd(s[..|s| - 1]) else s
  }

  /** Every character `TrimStart` drops is white space. */
  lemma {:induction false} TrimStartDropsSpace(s: string)
    ensures forall k :: 0 <= k < |s| - |TrimStart(s)| ==> IsJsSpace(s[k])
    decreases |s|
  {
    if s != [] && IsJsSpace(s[0]) {
      TrimStartDropsSpace(s[1..]);
    }
  }

  /** Every character `TrimEnd` drops is white space. */
  lemma {:induction false} TrimEndDropsSpace(s: string)
    ensures forall k :: |TrimEnd(s)| <= k < |s| ==> IsJsSpace(s[k])
    decreases |s|
  {
    if s != [] && IsJsSpace(s[|s| - 1]) {
      TrimEndDropsSpace(s[..|s| - 1]);
    }
  }
}
