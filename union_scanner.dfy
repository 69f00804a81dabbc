/**
 * The small tokenizer that reads the body of a `%union { ... }`
 * declaration: words, `*`, `&`, `;`, comments, and brace-delimited
 * definitions (nested structs), which it passes over as one token.
 *
 * As for the other two scanners, `Step(s, st, p)` is the reference
 * definition of one call of `scan`, and the `Scanner` class is proved to
 * produce it.
 */
module UnionScanner {
  import opened Wrappers
  import opened Chars
  import opened Patterns
  import Utils

  datatype ScannerState = WithinContent | WithinDefinition | WithinComment

  datatype TokenType =
    | Word | SemiColon | Asterisk | Ampersand
    | StartComment | EndComment | Comment
    | StartDefinition | EndDefinition | Definition
    | Unknown | EOS

  /** The outcome of one `scan`: token type, offset, position after it, new state, error text. */
  datatype Token = Token(tokenType: TokenType, offset: nat, end: nat, state: ScannerState, error: Option<string>)

  /** A position in the brace-counting loop and the braces open there. */
  datatype Depth = Depth(pos: nat, open: int)

  const DefinitionNotClosed := "Definition not closed!"

  // ---------------------------------------------------------------------
  // Nested definitions

  /** One turn of the `while (brackets > 0)` loop at `p` with `d` open braces; comments are passed over whole. */
  function DefinitionTick(s: string, p: nat, d: int): (r: Depth)
    requires p <= |s| + 2
    ensures p < r.pos <= |s| + 3
    ensures r.pos <= |s| + 2 || CharAt(s, p) == NUL
    ensures r.open == d + 1 || r.open == d || (r.open == d - 1 && p < |s| && s[p] == '}' && r.pos == p + 1)
    ensures CharAt(s, p) == NUL ==> r == Depth(p + 1, d)
  {
    var ch := CharAt(s, p);
    var p1 := p + 1;
    if ch == '{' then Depth(p1, d + 1)
    else if ch == '}' then Depth(p1, d - 1)
    else if ch == '/' && CharAt(s, p1) == '*' then Depth(IndexOfSeq(s, p1 + 1, "*/") + 2, d)
    else if ch == '/' && CharAt(s, p1) == '/' then Depth(IndexOfChar(s, p1 + 1, '\n') + 1, d)
    else Depth(p1, d)
  }

  /** The whole loop from `p` with `d` open braces; it also stops after reading NUL. */
  function DefinitionLoop(s: string, p: nat, d: int): (r: Depth)
    requires p <= |s| + 2 && d > 0
    ensures p < r.pos <= |s| + 3
    ensures r.open >= 0
    ensures r.open == 0 ==> r.pos <= |s| && s[r.pos - 1] == '}'
    ensures r.open > 0 ==> CharAt(s, r.pos - 1) == NUL
    decreases |s| + 3 - p
  {
    var t := DefinitionTick(s, p, d);
    if t.open <= 0 || CharAt(s, p) == NUL then t else DefinitionLoop(s, t.pos, t.open)
  }

  /** The rest of the loop from a state where it may already have stopped. */
  function DefinitionLoopFrom(s: string, p: nat, d: int): Depth {
    if d > 0 && p <= |s| + 2 then DefinitionLoop(s, p, d) else Depth(p, d)
  }

  // ---------------------------------------------------------------------
  // One call of `scan`

  /** A name at `o` (`Word`), or one unknown character. */
  function WordStep(s: string, o: nat): Token
    requires o < |s|
  {
    var n := MatchLength(Component, s, o);
    if n > 0 then Token(Word, o, o + n, WithinContent, None)
    else Token(Unknown, o, o + 1, WithinContent, None)
  }

  /** The WithinContent state at the first non-white character `o`. */
  function ContentStep(s: string, o: nat): Token
    requires o < |s|
  {
    var ch := s[o];
    if ch == '/' && CharAt(s, o + 1) == '*' then Token(StartComment, o, o + 2, WithinComment, None)
    else if ch == '/' && CharAt(s, o + 1) == '/' then
      Token(Comment, o, IndexOfChar(s, o + 2, '\n'), WithinContent, None)
    else if ch == '{' then Token(StartDefinition, o, o + 1, WithinDefinition, None)
    else if ch == '*' then Token(Asterisk, o, o + 1, WithinContent, None)
    else if ch == '&' then Token(Ampersand, o, o + 1, WithinContent, None)
    else if ch == ';' then Token(SemiColon, o, o + 1, WithinContent, None)
    else WordStep(s, o)
  }

  /** The WithinComment state at `o`. */
  function CommentStep(s: string, o: nat): Token
    requires o < |s|
  {
    if MatchesAt(s, o, "*/") then Token(EndComment, o, o + 2, WithinContent, None)
    else Token(Comment, o, IndexOfSeq(s, o, "*/"), WithinComment, None)
  }

  /** The WithinDefinition state at `o`: the closing `}`, or the nested text up to (not including) it. */
  function DefinitionStep(s: string, o: nat): Token
    requires o < |s|
  {
    if s[o] == '}' then Token(EndDefinition, o, o + 1, WithinContent, None)
    else
      var r := DefinitionLoop(s, o, 1);
      if r.open > 0 then Token(Unknown, o, r.pos, WithinDefinition, Some(DefinitionNotClosed))
      else Token(Definition, o, r.pos - 1, WithinDefinition, None)
  }

  /** `internalScan` */
  function InternalStep(s: string, st: ScannerState, p: nat): Token {
    var o := SkipWs(s, p);
    if o >= |s| then Token(EOS, o, o, st, None)
    else
      match st
      case WithinContent => ContentStep(s, o)
      case WithinComment => CommentStep(s, o)
      case WithinDefinition => DefinitionStep(s, o)
  }

  /**
   * `scan`: `internalScan`, with one character forced when it did not move.
   * Every token but the end of the text starts at or after `p` and is not
   * empty.
   */
  function Step(s: string, st: ScannerState, p: nat): (t: Token)
    ensures t.tokenType == EOS <==> SkipWs(s, p) >= |s|
    ensures t.tokenType != EOS ==> p <= t.offset < t.end <= |s| + 3
    ensures t.tokenType == EOS ==> t.end == t.offset == SkipWs(s, p) && t.state == st
  {
    var t := InternalStep(s, st, p);
    if t.tokenType != EOS && t.end == p then Token(Unknown, p, p + 1, t.state, None) else t
  }

  // ---------------------------------------------------------------------
  // The scanner closure

  class Scanner {
    const stream: Utils.MultiLineStream
    var state: ScannerState
    var tokenOffset: nat
    var tokenType: TokenType
    var tokenError: Option<string>

    /** The scanner's fields hold the outcome `r`. */
    ghost predicate Reports(r: Token)
      reads this, stream
    {
      tokenType == r.tokenType && tokenOffset == r.offset && stream.position == r.end
      && state == r.state && tokenError == r.error
    }

    /** The outcome the scanner's fields hold. */
    function Current(): (r: Token)
      reads this, stream
      ensures Reports(r)
    {
      Token(tokenType, tokenOffset, stream.position, state, tokenError)
    }

    /** `createScanner(input, initialOffset, initialState)` */
    constructor (input: string, initialOffset: nat, initialState: ScannerState)
      ensures fresh(stream) && stream.source == input && stream.position == initialOffset
      ensures state == initialState && tokenOffset == 0 && tokenType == Unknown && tokenError == None
    {
      stream := new Utils.MultiLineStream(input, initialOffset);
      state := initialState;
      tokenOffset := 0;
      tokenType := Unknown;
      tokenError := None;
    }

    function GetTokenType(): TokenType reads this { tokenType }
    function GetTokenOffset(): nat reads this { tokenOffset }
    function GetTokenLength(): int reads this, stream { stream.position - tokenOffset }
    function GetTokenEnd(): nat reads this, stream { stream.position }
    function GetTokenText(): string reads this, stream { Substring(stream.source, tokenOffset, stream.position) }
    function GetScannerState(): ScannerState reads this { state }
    function GetTokenError(): Option<string> reads this { tokenError }

    method NextWord() returns (w: string)
      modifies stream
      ensures var n := MatchLength(Component, stream.source, old(stream.position));
        stream.position == old(stream.position) + n && (w == [] <==> n == 0)
    {
      w := stream.AdvanceIfRegExp(Component);
    }

    /** `finishToken` */
    method FinishToken(offset: nat, t: TokenType, errorMessage: Option<string>) returns (r: TokenType)
      modifies this
      ensures tokenType == t && tokenOffset == offset && tokenError == errorMessage && r == t
      ensures state == old(state)
    {
      tokenType := t;
      tokenOffset := offset;
      tokenError := errorMessage;
      r := t;
    }

    /** `scan` */
    method Scan() returns (t: TokenType)
      modifies this, stream
      ensures Reports(Step(stream.source, old(state), old(stream.position))) && t == tokenType
    {
      var offset := stream.position;
      t := InternalScan();
      if t != EOS && offset == stream.position {
        stream.Advance(1);
        t := FinishToken(offset, Unknown, None);
      }
    }

    /** `internalScan` */
    method InternalScan() returns (t: TokenType)
      modifies this, stream
      ensures Reports(InternalStep(stream.source, old(state), old(stream.position))) && t == tokenType
    {
      var _ := stream.SkipWhitespace();
      var offset := stream.position;
      var eos := stream.Eos();
      if eos {
        t := FinishToken(offset, EOS, None);
        return;
      }
      match state
      case WithinContent =>
        t := ScanContent(offset);
      case WithinComment =>
        t := ScanComment(offset);
      case WithinDefinition =>
        t := ScanDefinition(offset);
    }

    method ScanContent(offset: nat) returns (t: TokenType)
      requires offset == stream.position < |stream.source| && state == WithinContent
      modifies this, stream
      ensures Reports(ContentStep(stream.source, offset)) && t == tokenType
    {
      var ch := stream.NextChar();
      if ch == '/' {
        t := ScanSlash(offset);
        return;
      } else if ch == '{' {
        state := WithinDefinition;
        t := FinishToken(offset, StartDefinition, None);
        return;
      } else if ch == '*' {
        t := FinishToken(offset, Asterisk, None);
        return;
      } else if ch == '&' {
        t := FinishToken(offset, Ampersand, None);
        return;
      } else if ch == ';' {
        t := FinishToken(offset, SemiColon, None);
        return;
      }
      stream.GoBack(1);
      var component := NextWord();
      if |component| > 0 {
        t := FinishToken(offset, Word, None);
        return;
      }
      stream.Advance(1);
      t := FinishToken(offset, Unknown, None);
    }

    /** `/` in the WithinContent state: a block comment, a line comment, or the fallback. */
    method ScanSlash(offset: nat) returns (t: TokenType)
      requires offset < |stream.source| && stream.source[offset] == '/'
      requires stream.position == offset + 1 && state == WithinContent
      modifies this, stream
      ensures Reports(ContentStep(stream.source, offset)) && t == tokenType
    {
      var b := stream.AdvanceIfChar('*');
      if b {
        state := WithinComment;
        t := FinishToken(offset, StartComment, None);
        return;
      }
      b := stream.AdvanceIfChar('/');
      if b {
        b := stream.AdvanceUntilChar('\n');
        t := FinishToken(offset, Comment, None);
        return;
      }
      stream.GoBack(1);
      var component := NextWord();
      stream.Advance(1);
      t := FinishToken(offset, Unknown, None);
    }

    method ScanComment(offset: nat) returns (t: TokenType)
      requires offset == stream.position < |stream.source| && state == WithinComment
      modifies this, stream
      ensures Reports(CommentStep(stream.source, offset)) && t == tokenType
    {
      var b := stream.AdvanceIfChars("*/");
      if b {
        state := WithinContent;
        t := FinishToken(offset, EndComment, None);
        return;
      }
      b := stream.AdvanceUntilChars("*/");
      t := FinishToken(offset, Comment, None);
    }

    /** One turn of the brace-counting loop. */
    method DefinitionChar(brackets: int) returns (depth: int, ch: char)
      requires stream.position <= |stream.source| + 2
      modifies stream
      ensures Depth(stream.position, depth) == DefinitionTick(stream.source, old(stream.position), brackets)
      ensures ch == CharAt(stream.source, old(stream.position))
    {
      depth := brackets;
      ch := stream.NextChar();
      if ch == '{' {
        depth := depth + 1;
      } else if ch == '}' {
        depth := depth - 1;
      } else if ch == '/' {
        var b := stream.AdvanceIfChar('*');
        if b {
          b := stream.AdvanceUntilChars("*/");
          stream.Advance(2);
        } else {
          b := stream.AdvanceIfChar('/');
          if b {
            b := stream.AdvanceUntilChar('\n');
            stream.Advance(1);
          }
        }
      }
    }

    method ScanDefinition(offset: nat) returns (t: TokenType)
      requires offset == stream.position < |stream.source| && state == WithinDefinition
      modifies this, stream
      ensures Reports(DefinitionStep(stream.source, offset)) && t == tokenType
    {
      var b := stream.AdvanceIfChar('}');
      if b {
        state := WithinContent;
        t := FinishToken(offset, EndDefinition, None);
        return;
      }
      ghost var s := stream.source;
      var brackets := 1;
      while brackets > 0
        invariant stream.position <= |s| + 2 || brackets <= 0
        invariant state == WithinDefinition
        invariant DefinitionLoopFrom(s, stream.position, brackets) == DefinitionLoop(s, offset, 1)
        decreases |s| + 3 - stream.position
      {
        var ch;
        brackets, ch := DefinitionChar(brackets);
        if ch == NUL {
          break;
        }
      }
      if brackets > 0 {
        t := FinishToken(offset, Unknown, Some(DefinitionNotClosed));
        return;
      }
      stream.GoBack(1);
      t := FinishToken(offset, Definition, None);
    }
  }
}

/** What one call of the union scanner's `scan` promises. */
module UnionScannerFacts {
  import opened Wrappers
  import opened Chars
  import opened Patterns
  import opened UnionScanner

  /** `{` opens a nested definition. */
  lemma BraceOpensDefinition(s: string, p: nat)
    requires p < |s| && s[p] == '{'
    ensures Step(s, WithinContent, p) == Token(StartDefinition, p, p + 1, WithinDefinition, None)
  {
    assert SkipWs(s, p) == p;
  }

  /**
   * A nested definition's text stops just before the `}` that balances
   * the opening brace; the next `scan` reports that brace and returns to
   * the WithinContent state.
   */
  lemma DefinitionStopsBeforeBrace(s: string, p: nat)
    ensures var t := Step(s, WithinDefinition, p);
      t.tokenType == Definition ==>
        && t.state == WithinDefinition && t.end < |s| && s[t.end] == '}'
        && Step(s, WithinDefinition, t.end) == Token(EndDefinition, t.end, t.end + 1, WithinContent, None)
  {
    var t := Step(s, WithinDefinition, p);
    if t.tokenType == Definition {
      assert SkipWs(s, t.end) == t.end;
    }
  }

  /** A definition still open when the text runs out (or a NUL is read) is reported as an error. */
  lemma UnclosedDefinition(s: string, p: nat)
    ensures var t := Step(s, WithinDefinition, p);
      t.tokenType == Unknown && t.state == WithinDefinition ==>
        t.error == Some(DefinitionNotClosed) && CharAt(s, t.end - 1) == NUL
  {
  }

  /**
   * Braces inside a block comment do not count: when the loop meets slash-star
   * it resumes after the closing star-slash with the same depth.
   */
  lemma DefinitionSkipsBlockComment(s: string, p: nat, d: int)
    requires p + 1 < |s| && s[p] == '/' && s[p + 1] == '*' && d > 0
    ensures DefinitionLoop(s, p, d) == DefinitionLoopFrom(s, IndexOfSeq(s, p + 2, "*/") + 2, d)
  {
  }

  /** Braces inside a line comment do not count either. */
  lemma DefinitionSkipsLineComment(s: string, p: nat, d: int)
    requires p + 1 < |s| && s[p] == '/' && s[p + 1] == '/' && d > 0
    ensures DefinitionLoop(s, p, d) == DefinitionLoopFrom(s, IndexOfChar(s, p + 2, '\n') + 1, d)
  {
  }

  /** Text the brace loop reads one character at a time: no comment can start in it and no NUL stops it. */
  predicate Plain(s: string, i: nat, j: nat)
    requires i <= j <= |s|
  {
    forall k :: i <= k < j ==> s[k] != '/' && s[k] != NUL
  }

  /**
   * Over plain text, the loop with `d` braces open stops just after the
   * `}` at which the brace count first falls to zero.
   */
  lemma {:induction false} DefinitionLoopCloses(s: string, p: nat, d: int, e: nat)
    requires p <= e < |s| && d > 0 && Plain(s, p, e + 1)
    requires d + BraceBalance(s, p, e + 1) == 0
    requires forall k :: p < k <= e ==> d + BraceBalance(s, p, k) > 0
    ensures DefinitionLoop(s, p, d) == Depth(e + 1, 0)
    decreases e - p
  {
    assert s[p] != '/' && s[p] != NUL && BraceBalance(s, p + 1, p + 1) == 0;
    var d1 := d + BraceBalance(s, p, p + 1);
    assert DefinitionTick(s, p, d) == Depth(p + 1, d1);
    if e > p {
      var q := p + 1;
      forall k | q < k <= e
        ensures d1 + BraceBalance(s, q, k) > 0
      {
        assert d + BraceBalance(s, p, k) > 0;
      }
      assert d + BraceBalance(s, p, e + 1) == d1 + BraceBalance(s, p + 1, e + 1);
      DefinitionLoopCloses(s, p + 1, d1, e);
    }
  }

  /** Over plain text whose brace count never falls to zero, the loop runs past the end with the braces still open. */
  lemma {:induction false} DefinitionLoopOpen(s: string, p: nat, d: int)
    requires p <= |s| && d > 0 && Plain(s, p, |s|)
    requires forall k :: p < k <= |s| ==> d + BraceBalance(s, p, k) > 0
    ensures DefinitionLoop(s, p, d) == Depth(|s| + 1, d + BraceBalance(s, p, |s|))
    decreases |s| - p
  {
    if p < |s| {
      assert s[p] != '/' && s[p] != NUL && BraceBalance(s, p + 1, p + 1) == 0;
      var d1 := d + BraceBalance(s, p, p + 1);
      assert DefinitionTick(s, p, d) == Depth(p + 1, d1);
      var q := p + 1;
      forall k | q < k <= |s|
        ensures d1 + BraceBalance(s, q, k) > 0
      {
        assert d + BraceBalance(s, p, k) > 0;
      }
      assert d + BraceBalance(s, p, |s|) == d1 + BraceBalance(s, p + 1, |s|);
      DefinitionLoopOpen(s, p + 1, d1);
    }
  }

  /**
   * A nested definition starting at `p` is the text up to the `}` that
   * balances the opening brace: the first place where the count of
   * braces read since the opening one falls to zero.
   */
  lemma DefinitionEndsAtBalancingBrace(s: string, p: nat, e: nat)
    requires p <= e < |s| && !IsWhitespace(s[p]) && s[p] != '}' && Plain(s, p, e + 1)
    requires 1 + BraceBalance(s, p, e + 1) == 0
    requires forall k :: p < k <= e ==> 1 + BraceBalance(s, p, k) > 0
    ensures Step(s, WithinDefinition, p) == Token(Definition, p, e, WithinDefinition, None)
  {
    assert SkipWs(s, p) == p;
    DefinitionLoopCloses(s, p, 1, e);
  }

  /** A nested definition whose braces never balance before the end of the text is "Definition not closed!". */
  lemma DefinitionUnbalanced(s: string, p: nat)
    requires p < |s| && !IsWhitespace(s[p]) && s[p] != '}' && Plain(s, p, |s|)
    requires forall k :: p < k <= |s| ==> 1 + BraceBalance(s, p, k) > 0
    ensures Step(s, WithinDefinition, p) == Token(Unknown, p, |s| + 1, WithinDefinition, Some(DefinitionNotClosed))
  {
    assert SkipWs(s, p) == p;
    DefinitionLoopOpen(s, p, 1);
  }

  /** A nested `{ }` pair is passed over: in `a{b}c}` the definition runs to the second `}`. */
  lemma NestedBraceExample()
    ensures Step("a{b}c}", WithinDefinition, 0) == Token(Definition, 0, 5, WithinDefinition, None)
  {
    var s := "a{b}c}";
    assert BraceBalance(s, 5, 6) == -1;
    assert BraceBalance(s, 4, 6) == -1 && BraceBalance(s, 4, 5) == 0;
    assert BraceBalance(s, 3, 6) == -2 && BraceBalance(s, 3, 5) == -1 && BraceBalance(s, 3, 4) == -1;
    assert BraceBalance(s, 2, 5) == -1 && BraceBalance(s, 2, 4) == -1 && BraceBalance(s, 2, 3) == 0;
    assert BraceBalance(s, 1, 5) == 0 && BraceBalance(s, 1, 4) == 0 && BraceBalance(s, 1, 3) == 1 && BraceBalance(s, 1, 2) == 1;
    DefinitionEndsAtBalancingBrace(s, 0, 5);
  }

  /** An unbalanced definition: `a{b}` never closes. */
  lemma UnbalancedExample()
    ensures Step("a{b}", WithinDefinition, 0) == Token(Unknown, 0, 5, WithinDefinition, Some(DefinitionNotClosed))
  {
    var s := "a{b}";
    assert BraceBalance(s, 3, 4) == -1;
    assert BraceBalance(s, 2, 4) == -1 && BraceBalance(s, 2, 3) == 0;
    assert BraceBalance(s, 1, 4) == 0 && BraceBalance(s, 1, 3) == 1 && BraceBalance(s, 1, 2) == 1;
    DefinitionUnbalanced(s, 0);
  }

  /** A `Word` token is a longest match of `[a-zA-Z]\w*`. */
  lemma WordIsComponent(s: string, st: ScannerState, p: nat)
    ensures var t := Step(s, st, p);
      t.tokenType == Word ==>
        && st == WithinContent && t.end <= |s|
        && Matches(Component, s[t.offset..t.end])
        && (forall k :: t.end < k <= |s| ==> !Matches(Component, s[t.offset..k]))
  {
    var o := SkipWs(s, p);
    if o < |s| {
      MatchLengthCorrect(Component, s, o);
    }
  }

  /** `*`, `&` and `;` are one-character tokens. */
  lemma Punctuation(s: string, p: nat)
    requires p < |s| && s[p] in "*&;"
    ensures Step(s, WithinContent, p) ==
      Token(if s[p] == '*' then Asterisk else if s[p] == '&' then Ampersand else SemiColon,
            p, p + 1, WithinContent, None)
  {
    assert SkipWs(s, p) == p;
  }
}
