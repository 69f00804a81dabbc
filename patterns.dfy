/**
 * The anchored regular expressions the scanners hand to
 * `advanceIfRegExp`, each as a hand-written matcher.
 *
 * `Matches(p, t)` says that the whole of `t` is in the language of the
 * pattern; `MatchLength(p, s, i)` is the length of the match a JavaScript
 * engine finds at `i` (0 for no match, since no pattern matches the empty
 * string), proved to be the longest prefix of `s[i..]` in the language.
 */
module Patterns {
  import opened Chars

  datatype Pattern =
    | YaccWord    // ^[a-zA-Z][\w.-]*          yaccScanner nextWord
    | TypeName    // ^[a-zA-Z][\w.-:]*         yaccScanner nextType (`.-:` is the range `.` to `:`)
    | Component   // ^[a-zA-Z]\w*              lexScanner nextComponent, unionParser nextWord
    | OptionName  // ^[\w-]+                   after `%` in both scanners
    | Quoted      // ^("(?:[^"\\\n]|\\.)*"|'(?:[^'\\\n]|\\.)*')
    | Bracketed   // ^\[[a-zA-Z]\w*\]

  /** First character of the class-based patterns. */
  predicate Head(p: Pattern, c: char) {
    match p
    case OptionName => IsWordChar(c) || c == '-'
    case _ => IsLetter(c)
  }

  /** Later characters of the class-based patterns. */
  predicate Tail(p: Pattern, c: char) {
    match p
    case YaccWord => IsWordChar(c) || c == '.' || c == '-'
    case TypeName => IsWordChar(c) || c == '.' || c == '/' || c == ':'
    case OptionName => IsWordChar(c) || c == '-'
    case _ => IsWordChar(c)
  }

  /** The body of a quoted literal: `(?:[^q\\\n]|\\.)*`. */
  predicate IsLiteralBody(t: string, q: char)
    decreases |t|
  {
    if t == [] then true
    else if t[0] == '\\' then |t| >= 2 && !IsLineTerminator(t[1]) && IsLiteralBody(t[2..], q)
    else t[0] != q && t[0] != '\n' && IsLiteralBody(t[1..], q)
  }

  predicate IsQuote(c: char) {
    c == '"' || c == '\''
  }

  /** The whole of `t` is in the language of `p`. */
  predicate Matches(p: Pattern, t: string) {
    match p
    case Quoted =>
      |t| >= 2 && IsQuote(t[0]) && t[|t| - 1] == t[0] && IsLiteralBody(t[1..|t| - 1], t[0])
    case Bracketed =>
      |t| >= 3 && t[0] == '[' && IsLetter(t[1]) && t[|t| - 1] == ']'
      && forall k :: 2 <= k < |t| - 1 ==> IsWordChar(t[k])
    case _ =>
      |t| >= 1 && Head(p, t[0]) && forall k :: 1 <= k < |t| ==> Tail(p, t[k])
  }

  /**
   * Where the greedy loop `(?:[^q\\\n]|\\.)*` stops when started at `k`:
   * before a quote `q`, a line feed, a backslash that escapes nothing, or
   * the end of the text.
   */
  function LiteralBodyEnd(s: string, k: nat, q: char): (e: nat)
    requires k <= |s|
    ensures k <= e <= |s|
    decreases |s| - k
  {
    if k == |s| || s[k] == q || s[k] == '\n' then k
    else if s[k] == '\\' then
      if k + 1 < |s| && !IsLineTerminator(s[k + 1]) then LiteralBodyEnd(s, k + 2, q) else k
    else LiteralBodyEnd(s, k + 1, q)
  }

  /** The characters the greedy loop passes over form a literal body. */
  lemma {:induction false} LiteralBodyEndSound(s: string, k: nat, q: char)
    requires k <= |s|
    ensures IsLiteralBody(s[k..LiteralBodyEnd(s, k, q)], q)
    decreases |s| - k
  {
    var e := LiteralBodyEnd(s, k, q);
    if k == |s| || s[k] == q || s[k] == '\n' {
      assert s[k..e] == [];
    } else if s[k] == '\\' {
      if k + 1 < |s| && !IsLineTerminator(s[k + 1]) {
        LiteralBodyEndSound(s, k + 2, q);
        assert s[k..e][2..] == s[k + 2..e];
      } else {
        assert s[k..e] == [];
      }
    } else {
      LiteralBodyEndSound(s, k + 1, q);
      assert s[k..e][1..] == s[k + 1..e];
    }
  }

  /**
   * A literal body followed by its closing quote can only end where the
   * greedy loop stops: the match of the literal pattern is unique.
   */
  lemma {:induction false} LiteralBodyEndUnique(s: string, k: nat, e: nat, q: char)
    requires k <= e < |s| && s[e] == q && q != '\\'
    requires IsLiteralBody(s[k..e], q)
    ensures LiteralBodyEnd(s, k, q) == e
    decreases e - k
  {
    var t := s[k..e];
    if t == [] {
      assert k == e;
    } else if t[0] == '\\' {
      assert s[k] == '\\' && s[k + 1] == t[1];
      assert t[2..] == s[k + 2..e];
      LiteralBodyEndUnique(s, k + 2, e, q);
    } else {
      assert s[k] == t[0];
      assert t[1..] == s[k + 1..e];
      LiteralBodyEndUnique(s, k + 1, e, q);
    }
  }

  /** Length of the literal starting at `i`, 0 when there is none. */
  function LiteralLength(s: string, i: nat): nat {
    if i < |s| && IsQuote(s[i]) then
      var e := LiteralBodyEnd(s, i + 1, s[i]);
      if e < |s| && s[e] == s[i] then e + 1 - i else 0
    else 0
  }

  /** Length of the parameter `[name]` starting at `i`, 0 when there is none. */
  function ParamLength(s: string, i: nat): nat {
    if i + 1 < |s| && s[i] == '[' && IsLetter(s[i + 1]) then
      var e := SkipWhile(s, i + 2, IsWordChar);
      if e < |s| && s[e] == ']' then e + 1 - i else 0
    else 0
  }

  /** Length of the class-based pattern `p` starting at `i`, 0 when there is none. */
  function ClassLength(p: Pattern, s: string, i: nat): nat
    requires !p.Quoted? && !p.Bracketed?
  {
    if i < |s| && Head(p, s[i]) then SkipWhile(s, i + 1, c => Tail(p, c)) - i else 0
  }

  /**
   * The length of the match of `p` at `i` in `s`; 0 when there is none.
   * It is the longest prefix of `s[i..]` that `p` matches.
   */
  function MatchLength(p: Pattern, s: string, i: nat): (r: nat)
    ensures r > 0 ==> i + r <= |s|
  {
    match p
    case Quoted => LiteralLength(s, i)
    case Bracketed => ParamLength(s, i)
    case _ => ClassLength(p, s, i)
  }

  /** `MatchLength` is a match, and no longer prefix matches. */
  lemma MatchLengthCorrect(p: Pattern, s: string, i: nat)
    ensures var r := MatchLength(p, s, i);
      && (r > 0 ==> Matches(p, s[i..i + r]))
      && (forall k :: i < k <= |s| && Matches(p, s[i..k]) ==> k <= i + r)
  {
    match p
    case Quoted => LiteralLengthCorrect(s, i);
    case Bracketed => ParamLengthCorrect(s, i);
    case _ => ClassLengthCorrect(p, s, i);
  }

  lemma ClassLengthCorrect(p: Pattern, s: string, i: nat)
    requires !p.Quoted? && !p.Bracketed?
    ensures var r := ClassLength(p, s, i);
      && (r > 0 ==> i + r <= |s| && Matches(p, s[i..i + r]))
      && (forall k :: i < k <= |s| && Matches(p, s[i..k]) ==> k <= i + r)
  {
    var r := ClassLength(p, s, i);
    if i < |s| && Head(p, s[i]) {
      SkipWhileSpan(s, i + 1, c => Tail(p, c));
    }
    if r > 0 {
      var t := s[i..i + r];
      assert forall k :: 1 <= k < |t| ==> t[k] == s[i + k];
    }
    forall k | i < k <= |s| && Matches(p, s[i..k])
      ensures k <= i + r
    {
      var t := s[i..k];
      assert t[0] == s[i];
      var e := SkipWhile(s, i + 1, c => Tail(p, c));
    }
  }

  /** The characters a class-based match covers: the head, then tail characters. */
  lemma ClassLengthSpan(p: Pattern, s: string, i: nat)
    requires !p.Quoted? && !p.Bracketed?
    ensures var r := ClassLength(p, s, i);
      r > 0 ==> i + r <= |s| && Head(p, s[i]) && forall k :: i < k < i + r ==> Tail(p, s[k])
  {
    if i < |s| && Head(p, s[i]) {
      SkipWhileSpan(s, i + 1, c => Tail(p, c));
    }
  }

  lemma ParamLengthCorrect(s: string, i: nat)
    ensures var r := ParamLength(s, i);
      && (r > 0 ==> i + r <= |s| && Matches(Bracketed, s[i..i + r]))
      && (forall k :: i < k <= |s| && Matches(Bracketed, s[i..k]) ==> k <= i + r)
  {
    var r := ParamLength(s, i);
    if i + 1 < |s| && s[i] == '[' && IsLetter(s[i + 1]) {
      SkipWhileSpan(s, i + 2, IsWordChar);
    }
    if r > 0 {
      var t := s[i..i + r];
      assert forall k :: 2 <= k < |t| - 1 ==> t[k] == s[i + k];
    }
    forall k | i < k <= |s| && Matches(Bracketed, s[i..k])
      ensures k <= i + r
    {
      var t := s[i..k];
      assert t[0] == s[i] && t[1] == s[i + 1];
      var e := SkipWhile(s, i + 2, IsWordChar);
      assert t[|t| - 1] == s[k - 1];
    }
  }

  lemma LiteralLengthCorrect(s: string, i: nat)
    ensures var r := LiteralLength(s, i);
      && (r > 0 ==> i + r <= |s| && Matches(Quoted, s[i..i + r]))
      && (forall k :: i < k <= |s| && Matches(Quoted, s[i..k]) ==> k <= i + r)
  {
    var r := LiteralLength(s, i);
    if r > 0 {
      var e := LiteralBodyEnd(s, i + 1, s[i]);
      LiteralBodyEndSound(s, i + 1, s[i]);
      var t := s[i..i + r];
      assert |t| == e + 1 - i && t[0] == s[i] && t[|t| - 1] == s[e];
      var body := t[1..|t| - 1];
      assert forall j :: 0 <= j < |body| ==> body[j] == s[i + 1 + j];
      assert body == s[i + 1..e];
    }
    forall k | i < k <= |s| && Matches(Quoted, s[i..k])
      ensures k <= i + r
    {
      var t := s[i..k];
      assert |t| == k - i;
      assert t[0] == s[i] && t[|t| - 1] == s[k - 1];
      assert |t| >= 2;
      var body := t[1..|t| - 1];
      assert forall j :: 0 <= j < |body| ==> body[j] == s[i + 1 + j];
      assert body == s[i + 1..k - 1];
      LiteralBodyEndUnique(s, i + 1, k - 1, s[i]);
    }
  }
}
