/**
 * The tokenizer for Yacc/Bison grammar files.
 *
 * `Step(s, state, p)` is the reference definition of one call of `scan`
 * from scanner state `state` at position `p` of text `s`: the token type,
 * its offset, the position after it, the new scanner state and the error
 * text. The `Scanner` class is the closure of the original, with the same
 * mutable state; its `Scan` is proved to produce exactly `Step`. The
 * lemmas at the end state what the scanner promises about `Step`.
 */
module YaccScanner {
  import opened Wrappers
  import opened Chars
  import opened Patterns
  import Utils

  datatype TokenType =
    | Word | Literal | Bar | Dot | Colon | SemiColon | Percent | Param | Option | RulesTag
    | StartType | EndType | TypeValue | StartComment | EndComment | Comment
    | StartAction | EndAction | Action | Definition | Unknown | EOS

  datatype ScannerState = WithinContent | WithinComment | WithinCode | WithinUnion | WithinTypeValue

  /** The outcome of one `scan`: token type, offset, position after it, new state, error text. */
  datatype Token = Token(tokenType: TokenType, offset: nat, end: nat, state: ScannerState, error: Option<string>)

  const CodeNotClosed := "Code not closed!"
  const InvalidSymbol := "invalid symbol found"

  /** Text read from a position, and the position after it. */
  datatype Read = Read(text: string, end: nat)

  /** A position in the bracket-counting loop, and how many brackets are open there. */
  datatype Depth = Depth(pos: nat, open: int)

  // ---------------------------------------------------------------------
  // Type names: `nextType`

  /**
   * `nextType` from `p`: a type name, then, when a `<` follows, a type,
   * any number of `, type`, and an optional `>`; white space between the
   * parts is skipped and left out of the name. Returns the name and the
   * position after it.
   */
  function TypeAt(s: string, p: nat): (r: Read)
    requires p <= |s|
    ensures p <= r.end <= |s|
    decreases |s| - p, 2
  {
    var n := MatchLength(TypeName, s, p);
    var q := SkipWs(s, p + n);
    if q < |s| && s[q] == '<' then TypeOpen(s, s[p..p + n], q) else Read(s[p..p + n], q)
  }

  /** After `name` and the `<` at `q`: the type, the list after it, and the optional `>`. */
  function TypeOpen(s: string, name: string, q: nat): (r: Read)
    requires q < |s|
    ensures q < r.end <= |s|
    decreases |s| - q, 1
  {
    var inner := TypeAt(s, SkipWs(s, q + 1));
    var args := TypeArgsAt(s, inner.end);
    TypeClose(s, name + "<" + inner.text + args.text, SkipWs(s, args.end))
  }

  /** The optional `>` at `q`, appended to `t` when present. */
  function TypeClose(s: string, t: string, q: nat): (r: Read)
    requires q <= |s|
    ensures q <= r.end <= |s|
  {
    if q < |s| && s[q] == '>' then Read(t + ">", q + 1) else Read(t, q)
  }

  lemma TypeAtIsOpen(s: string, p: nat, name: string, q: nat)
    requires p <= |s| && name == s[p..p + MatchLength(TypeName, s, p)]
    requires q == SkipWs(s, p + MatchLength(TypeName, s, p)) && q < |s| && s[q] == '<'
    ensures TypeAt(s, p) == TypeOpen(s, name, q)
  {
  }

  lemma TypeOpenIsClose(s: string, name: string, q: nat, inner: Read, args: Read, q3: nat)
    requires q < |s|
    requires inner == TypeAt(s, SkipWs(s, q + 1)) && args == TypeArgsAt(s, inner.end) && q3 == SkipWs(s, args.end)
    ensures TypeOpen(s, name, q) == TypeClose(s, name + "<" + inner.text + args.text, q3)
  {
  }

  /** `TypeAt` when no `<` follows the name. */
  lemma TypeAtShut(s: string, p: nat)
    requires p <= |s|
    requires var q := SkipWs(s, p + MatchLength(TypeName, s, p));
      !(q < |s| && s[q] == '<')
    ensures TypeAt(s, p) == Read(s[p..p + MatchLength(TypeName, s, p)], SkipWs(s, p + MatchLength(TypeName, s, p)))
  {
  }

  /** `TypeArgsAt` when a `,` comes next, in terms of the type after it. */
  lemma TypeArgsAtNext(s: string, p: nat, t: Read)
    requires p <= |s|
    requires var q := SkipWs(s, p);
      q < |s| && s[q] == ',' && t == TypeAt(s, SkipWs(s, q + 1))
    ensures TypeArgsAt(s, p) == Read("," + t.text + TypeArgsAt(s, t.end).text, TypeArgsAt(s, t.end).end)
  {
  }

  /** `TypeArgsAt` when no `,` comes next. */
  lemma TypeArgsAtStop(s: string, p: nat)
    requires p <= |s|
    requires var q := SkipWs(s, p);
      !(q < |s| && s[q] == ',')
    ensures TypeArgsAt(s, p) == Read("", SkipWs(s, p))
  {
  }

  /** The `for (;;)` loop of `nextType`: `, type` repeated; stops after the white space before anything else. */
  function TypeArgsAt(s: string, p: nat): (r: Read)
    requires p <= |s|
    ensures p <= r.end <= |s|
    decreases |s| - p, 0
  {
    var q := SkipWs(s, p);
    if q < |s| && s[q] == ',' then
      var t := TypeAt(s, SkipWs(s, q + 1));
      var rest := TypeArgsAt(s, t.end);
      Read("," + t.text + rest.text, rest.end)
    else Read("", q)
  }

  // ---------------------------------------------------------------------
  // Action code: the bracket-counting loop of the WithinCode state

  /**
   * The `while (brackets > 0)` loop from position `p` with `d` open
   * brackets: returns the position after the loop and the count left.
   * Quoted literals and comments are passed over whole; the loop also
   * stops after reading NUL, which is what `nextChar` gives past the end.
   */
  function CodeLoop(s: string, p: nat, d: int): (r: Depth)
    requires p <= |s| + 2 && d > 0
    ensures p < r.pos <= |s| + 3
    ensures r.open >= 0
    ensures r.open == 0 ==> r.pos <= |s| && s[r.pos - 1] == '}'
    decreases |s| + 3 - p
  {
    var t := CodeTick(s, p, d);
    if t.open <= 0 || CharAt(s, p) == NUL then t else CodeLoop(s, t.pos, t.open)
  }

  /** One turn of that loop: the position after it and the new bracket count. */
  function CodeTick(s: string, p: nat, d: int): (r: Depth)
    requires p <= |s| + 2
    ensures p < r.pos <= |s| + 3
    ensures r.pos <= |s| + 2 || CharAt(s, p) == NUL
    ensures r.open == d + 1 || r.open == d || (r.open == d - 1 && p < |s| && s[p] == '}' && r.pos == p + 1)
  {
    var ch := CharAt(s, p);
    var p1 := p + 1;
    if ch == '{' then Depth(p1, d + 1)
    else if ch == '}' then Depth(p1, d - 1)
    else if ch == '/' && CharAt(s, p1) == '*' then Depth(IndexOfSeq(s, p1 + 1, "*/") + 2, d)
    else if ch == '/' && CharAt(s, p1) == '/' then Depth(IndexOfChar(s, p1 + 1, '\n') + 1, d)
    else if ch == '\'' || ch == '"' then
      var n := MatchLength(Quoted, s, p);
      Depth(if n > 0 then p + n else p1, d)
    else Depth(p1, d)
  }

  /** The rest of the loop from a state where it may already have stopped. */
  function CodeLoopFrom(s: string, p: nat, d: int): Depth {
    if d > 0 && p <= |s| + 2 then CodeLoop(s, p, d) else Depth(p, d)
  }

  // ---------------------------------------------------------------------
  // One call of `scan`

  /** `%` at `o`: `%%`, `%{`, `%define ...` (to the end of the line), `%word`, or a lone `%`. */
  function PercentStep(s: string, o: nat): (r: Token)
    requires o < |s| && s[o] == '%'
    ensures r.offset == o && o <= r.end <= |s| + 3
  {
    if CharAt(s, o + 1) == '%' then Token(RulesTag, o, o + 2, WithinContent, None)
    else if CharAt(s, o + 1) == '{' then Token(StartAction, o, o + 2, WithinCode, None)
    else
      var n := MatchLength(OptionName, s, o + 1);
      if n > 0 then
        if ToLower(s[o..o + 1 + n]) == "%define" then
          Token(Definition, o, IndexOfChar(s, o + 1 + n, '\n'), WithinContent, None)
        else Token(Option, o, o + 1 + n, WithinContent, None)
      else Token(Percent, o, o + 1, WithinContent, None)
  }

  /** A literal, a word, or one unknown character at `o`. */
  function OtherStep(s: string, o: nat): (r: Token)
    requires o < |s|
    ensures r.offset == o && o <= r.end <= |s| + 3
  {
    var l := MatchLength(Quoted, s, o);
    if l > 0 then Token(Literal, o, o + l, WithinContent, None)
    else
      var w := MatchLength(YaccWord, s, o);
      if w > 0 then Token(Word, o, o + w, WithinContent, None)
      else Token(Unknown, o, o + 1, WithinContent, None)
  }

  /** The WithinContent state at the first non-white character `o`. */
  function ContentStep(s: string, o: nat): (r: Token)
    requires o < |s|
    ensures r.offset == o && o <= r.end <= |s| + 3
  {
    var ch := s[o];
    if ch == '/' && CharAt(s, o + 1) == '*' then Token(StartComment, o, o + 2, WithinComment, None)
    else if ch == '/' && CharAt(s, o + 1) == '/' then
      Token(Comment, o, IndexOfChar(s, o + 2, '\n'), WithinContent, None)
    else if ch == '/' then OtherStep(s, o)
    else if ch == '|' then Token(Bar, o, o + 1, WithinContent, None)
    else if ch == ':' then Token(Colon, o, o + 1, WithinContent, None)
    else if ch == '{' then Token(StartAction, o, o + 1, WithinCode, None)
    else if ch == '}' then Token(EndAction, o, o + 1, WithinContent, None)
    else if ch == '.' then Token(Dot, o, o + 1, WithinContent, None)
    else if ch == '%' then PercentStep(s, o)
    else if ch == '<' then Token(StartType, o, o + 1, WithinTypeValue, None)
    else if ch == '"' || ch == '\'' then
      var l := MatchLength(Quoted, s, o);
      if l > 0 then Token(Literal, o, o + l, WithinContent, None)
      else Token(Unknown, o, o + 1, WithinContent, None)
    else if ch == '[' then
      var m := MatchLength(Bracketed, s, o);
      if m > 0 then Token(Param, o, o + m, WithinContent, None)
      else Token(Unknown, o, o + 1, WithinContent, None)
    else if ch == ';' then Token(SemiColon, o, o + 1, WithinContent, None)
    else OtherStep(s, o)
  }

  /** The WithinTypeValue state at `o`: `>`, a type, or one unknown character. */
  function TypeValueStep(s: string, o: nat): (r: Token)
    requires o < |s|
    ensures r.offset == o && o <= r.end <= |s| + 3
  {
    if s[o] == '>' then Token(EndType, o, o + 1, WithinContent, None)
    else
      var t := TypeAt(s, o);
      if t.text != [] then Token(TypeValue, o, t.end, WithinTypeValue, None)
      else Token(Unknown, o, t.end + 1, WithinContent, None)
  }

  /** The WithinComment state at `o`: `*` `/`, or comment text up to it. */
  function CommentStep(s: string, o: nat): (r: Token)
    requires o < |s|
    ensures r.offset == o && o <= r.end <= |s| + 3
  {
    if MatchesAt(s, o, "*/") then Token(EndComment, o, o + 2, WithinContent, None)
    else Token(Comment, o, IndexOfSeq(s, o, "*/"), WithinComment, None)
  }

  /** The WithinCode state at `o`: the closing `}`, or the code up to (not including) it. */
  function CodeStep(s: string, o: nat): (r: Token)
    requires o < |s|
    ensures r.offset == o && o <= r.end <= |s| + 3
  {
    if s[o] == '}' then Token(EndAction, o, o + 1, WithinContent, None)
    else
      var r := CodeLoop(s, o, 1);
      if r.open > 0 then Token(Unknown, o, r.pos, WithinCode, Some(CodeNotClosed))
      else Token(Action, o, r.pos - 1, WithinCode, None)
  }

  /** `internalScan` */
  function InternalStep(s: string, st: ScannerState, p: nat): Token {
    var o := SkipWs(s, p);
    if o >= |s| then Token(EOS, o, o, st, None)
    else
      match st
      case WithinContent => ContentStep(s, o)
      case WithinTypeValue => TypeValueStep(s, o)
      case WithinComment => CommentStep(s, o)
      case WithinCode => CodeStep(s, o)
      case WithinUnion => Token(Unknown, o, o, WithinContent, Some(InvalidSymbol))
  }

  /** `scan`: `internalScan`, with one character forced when it did not move. */
  function Step(s: string, st: ScannerState, p: nat): Token {
    var t := InternalStep(s, st, p);
    if t.tokenType != EOS && t.end == p then Token(Unknown, p, p + 1, t.state, None) else t
  }

  // ---------------------------------------------------------------------
  // The scanner closure

  class Scanner {
    const stream: Utils.MultiLineStream
    var state: ScannerState
    var tokenOffset: nat
    var tokenType: TokenType
    var tokenError: Option<string>

    /** The scanner's fields hold the outcome `r`. */
    ghost predicate Reports(r: Token)
      reads this, stream
    {
      tokenType == r.tokenType && tokenOffset == r.offset && stream.position == r.end
      && state == r.state && tokenError == r.error
    }

    /** The outcome the scanner's fields hold. */
    function Current(): (r: Token)
      reads this, stream
      ensures Reports(r)
    {
      Token(tokenType, tokenOffset, stream.position, state, tokenError)
    }

    /** `createScanner(input, initialOffset, initialState)` */
    constructor (input: string, initialOffset: nat, initialState: ScannerState)
      ensures fresh(stream) && stream.source == input && stream.position == initialOffset
      ensures state == initialState && tokenOffset == 0 && tokenType == Unknown && tokenError == None
    {
      stream := new Utils.MultiLineStream(input, initialOffset);
      state := initialState;
      tokenOffset := 0;
      tokenType := Unknown;
      tokenError := None;
    }

    function GetTokenType(): TokenType reads this { tokenType }
    function GetTokenOffset(): nat reads this { tokenOffset }
    function GetTokenLength(): int reads this, stream { stream.position - tokenOffset }
    function GetTokenEnd(): nat reads this, stream { stream.position }
    function GetTokenText(): string reads this, stream { Substring(stream.source, tokenOffset, stream.position) }
    function GetScannerState(): ScannerState reads this { state }
    function GetTokenError(): Option<string> reads this { tokenError }

    method NextWord() returns (w: string)
      modifies stream
      ensures var n := MatchLength(YaccWord, stream.source, old(stream.position));
        stream.position == old(stream.position) + n && (w == [] <==> n == 0)
    {
      w := stream.AdvanceIfRegExp(YaccWord);
    }

    method NextLiteral() returns (l: string)
      modifies stream
      ensures var n := MatchLength(Quoted, stream.source, old(stream.position));
        stream.position == old(stream.position) + n && (l == [] <==> n == 0)
    {
      l := stream.AdvanceIfRegExp(Quoted);
    }

    method NextParam() returns (m: string)
      modifies stream
      ensures var n := MatchLength(Bracketed, stream.source, old(stream.position));
        stream.position == old(stream.position) + n && (m == [] <==> n == 0)
    {
      m := stream.AdvanceIfRegExp(Bracketed);
    }

    /** `nextType`, recursive. */
    method NextType() returns (typeName: string)
      requires stream.position <= |stream.source|
      modifies stream
      ensures Read(typeName, stream.position) == TypeAt(stream.source, old(stream.position))
      decreases |stream.source| - stream.position, 3
    {
      ghost var s, p := stream.source, stream.position;
      typeName := stream.AdvanceIfRegExp(TypeName);
      assert typeName == s[p..p + MatchLength(TypeName, s, p)];
      var open := SkipThenChar('<');
      if !open {
        TypeAtShut(s, p);
        return;
      }
      TypeAtIsOpen(s, p, typeName, stream.position - 1);
      typeName := NextTypeOpen(typeName);
    }

    /** The rest of `nextType` after `name <`: a type, the list after it, and the optional `>`. */
    method NextTypeOpen(name: string) returns (typeName: string)
      requires 0 < stream.position <= |stream.source| && stream.source[stream.position - 1] == '<'
      modifies stream
      ensures Read(typeName, stream.position) == TypeOpen(stream.source, name, old(stream.position) - 1)
      decreases |stream.source| - stream.position + 1, 0
    {
      ghost var s, q := stream.source, stream.position - 1;
      var _ := stream.SkipWhitespace();
      var inner := NextType();
      ghost var q1 := stream.position;
      var args := NextTypeArgs();
      ghost var q2 := stream.position;
      TypeOpenIsClose(s, name, q, Read(inner, q1), Read(args, q2), SkipWs(s, q2));
      typeName := NextTypeClose(name + "<" + inner + args);
    }

    /** The optional `>` after white space, appended to `t` when present. */
    method NextTypeClose(t: string) returns (typeName: string)
      requires stream.position <= |stream.source|
      modifies stream
      ensures Read(typeName, stream.position) == TypeClose(stream.source, t, SkipWs(stream.source, old(stream.position)))
    {
      var close := SkipThenChar('>');
      typeName := t;
      if close {
        typeName := typeName + ">";
      }
    }

    /** White space, then `c` when it comes next: reports whether `c` was consumed. */
    method SkipThenChar(c: char) returns (found: bool)
      requires stream.position <= |stream.source|
      modifies stream
      ensures var q := SkipWs(stream.source, old(stream.position));
        && (found <==> q < |stream.source| && stream.source[q] == c)
        && stream.position == if found then q + 1 else q
      ensures stream.position <= |stream.source|
    {
      var _ := stream.SkipWhitespace();
      found := stream.AdvanceIfChar(c);
    }

    /** The `for (;;)` loop of `nextType` over `, type`. */
    method NextTypeArgs() returns (args: string)
      requires stream.position <= |stream.source|
      modifies stream
      ensures Read(args, stream.position) == TypeArgsAt(stream.source, old(stream.position))
      decreases |stream.source| - stream.position, 1
    {
      ghost var s := stream.source;
      ghost var goal := TypeArgsAt(s, stream.position);
      args := "";
      assert args + goal.text == goal.text;
      while true
        invariant stream.position <= |s|
        invariant goal == Read(args + TypeArgsAt(s, stream.position).text, TypeArgsAt(s, stream.position).end)
        decreases |s| - stream.position
      {
        var more, t := NextTypeArg();
        if !more {
          assert args + "" == args;
          break;
        }
        ghost var rest := TypeArgsAt(s, stream.position).text;
        assert args + (t + rest) == (args + t) + rest;
        args := args + t;
      }
    }

    /** One turn of that loop: white space, then `,` and a type, or nothing more. */
    method NextTypeArg() returns (more: bool, t: string)
      requires stream.position <= |stream.source|
      modifies stream
      ensures stream.position <= |stream.source|
      ensures more ==> old(stream.position) < stream.position
      ensures var s := stream.source;
        TypeArgsAt(s, old(stream.position)) ==
          if more then Read(t + TypeArgsAt(s, stream.position).text, TypeArgsAt(s, stream.position).end)
          else Read("", stream.position)
      decreases |stream.source| - stream.position, 0
    {
      ghost var s, before := stream.source, stream.position;
      more := SkipThenChar(',');
      if !more {
        TypeArgsAtStop(s, before);
        t := "";
        return;
      }
      var _ := stream.SkipWhitespace();
      var inner := NextType();
      TypeArgsAtNext(s, before, Read(inner, stream.position));
      t := "," + inner;
    }

    /** `finishToken` */
    method FinishToken(offset: nat, t: TokenType, errorMessage: Option<string>) returns (r: TokenType)
      modifies this
      ensures tokenType == t && tokenOffset == offset && tokenError == errorMessage && r == t
      ensures state == old(state)
    {
      tokenType := t;
      tokenOffset := offset;
      tokenError := errorMessage;
      r := t;
    }

    /** `scan` */
    method Scan() returns (t: TokenType)
      modifies this, stream
      ensures Reports(Step(stream.source, old(state), old(stream.position))) && t == tokenType
    {
      var offset := stream.position;
      t := InternalScan();
      if t != EOS && offset == stream.position {
        stream.Advance(1);
        t := FinishToken(offset, Unknown, None);
      }
    }

    /** `internalScan` */
    method InternalScan() returns (t: TokenType)
      modifies this, stream
      ensures Reports(InternalStep(stream.source, old(state), old(stream.position))) && t == tokenType
    {
      var _ := stream.SkipWhitespace();
      var offset := stream.position;
      var eos := stream.Eos();
      if eos {
        t := FinishToken(offset, EOS, None);
        return;
      }
      match state
      case WithinContent =>
        t := ScanContent(offset);
      case WithinTypeValue =>
        t := ScanTypeValue(offset);
      case WithinComment =>
        t := ScanComment(offset);
      case WithinCode =>
        t := ScanCode(offset);
      case WithinUnion =>
        state := WithinContent;
        t := FinishToken(offset, Unknown, Some(InvalidSymbol));
    }

    method ScanContent(offset: nat) returns (t: TokenType)
      requires offset == stream.position < |stream.source| && state == WithinContent
      modifies this, stream
      ensures Reports(ContentStep(stream.source, offset)) && t == tokenType
    {
      var ch := stream.NextChar();
      if ch == '/' {
        t := ScanSlash(offset);
      } else if ch == '%' {
        t := ScanPercent(offset);
      } else if ch == '"' || ch == '\'' || ch == '[' {
        t := ScanQuotedOrParam(offset);
      } else if ch in "|:{}.<;" {
        t := ScanPunctuation(offset);
      } else {
        stream.GoBackTo(offset);
        t := ScanOther(offset);
      }
    }

    /** The single-character tokens of the WithinContent state. */
    method ScanPunctuation(offset: nat) returns (t: TokenType)
      requires offset < |stream.source| && stream.source[offset] in "|:{}.<;"
      requires stream.position == offset + 1 && state == WithinContent
      modifies this
      ensures Reports(ContentStep(stream.source, offset)) && t == tokenType
    {
      var ch := stream.source[offset];
      if ch == '|' {
        t := FinishToken(offset, Bar, None);
      } else if ch == ':' {
        t := FinishToken(offset, Colon, None);
      } else if ch == '{' {
        state := WithinCode;
        t := FinishToken(offset, StartAction, None);
      } else if ch == '}' {
        t := FinishToken(offset, EndAction, None);
      } else if ch == '.' {
        t := FinishToken(offset, Dot, None);
      } else if ch == '<' {
        state := WithinTypeValue;
        t := FinishToken(offset, StartType, None);
      } else {
        t := FinishToken(offset, SemiColon, None);
      }
    }

    /** `/` in the WithinContent state: a block comment, a line comment, or the fallback. */
    method ScanSlash(offset: nat) returns (t: TokenType)
      requires offset < |stream.source| && stream.source[offset] == '/'
      requires stream.position == offset + 1 && state == WithinContent
      modifies this, stream
      ensures Reports(ContentStep(stream.source, offset)) && t == tokenType
    {
      var b := stream.AdvanceIfChar('*');
      if b {
        state := WithinComment;
        t := FinishToken(offset, StartComment, None);
        return;
      }
      b := stream.AdvanceIfChar('/');
      if b {
        b := stream.AdvanceUntilChar('\n');
        t := FinishToken(offset, Comment, None);
        return;
      }
      stream.GoBackTo(offset);
      t := ScanOther(offset);
    }

    /** A quote or `[` in the WithinContent state: a literal or a parameter, else one unknown character. */
    method ScanQuotedOrParam(offset: nat) returns (t: TokenType)
      requires offset < |stream.source| && stream.source[offset] in "\"'["
      requires stream.position == offset + 1 && state == WithinContent
      modifies this, stream
      ensures Reports(ContentStep(stream.source, offset)) && t == tokenType
    {
      stream.GoBack(1);
      if stream.source[offset] == '[' {
        var param := NextParam();
        if |param| > 0 {
          t := FinishToken(offset, Param, None);
          return;
        }
      } else {
        var literal := NextLiteral();
        if |literal| > 0 {
          t := FinishToken(offset, Literal, None);
          return;
        }
      }
      stream.Advance(1);
      t := FinishToken(offset, Unknown, None);
    }

    /** The fallback of the WithinContent state: a literal, a word, or one unknown character. */
    method ScanOther(offset: nat) returns (t: TokenType)
      requires offset == stream.position < |stream.source| && state == WithinContent
      modifies this, stream
      ensures Reports(OtherStep(stream.source, offset)) && t == tokenType
    {
      var literal := NextLiteral();
      if |literal| > 0 {
        t := FinishToken(offset, Literal, None);
        return;
      }
      var component := NextWord();
      if |component| > 0 {
        t := FinishToken(offset, Word, None);
        return;
      }
      stream.Advance(1);
      t := FinishToken(offset, Unknown, None);
    }

    method ScanPercent(offset: nat) returns (t: TokenType)
      requires offset < |stream.source| && stream.source[offset] == '%'
      requires stream.position == offset + 1 && state == WithinContent
      modifies this, stream
      ensures Reports(PercentStep(stream.source, offset)) && t == tokenType
    {
      var b := stream.AdvanceIfChar('%');
      if b {
        t := FinishToken(offset, RulesTag, None);
        return;
      }
      b := stream.AdvanceIfChar('{');
      if b {
        state := WithinCode;
        t := FinishToken(offset, StartAction, None);
        return;
      }
      t := ScanOption(offset);
    }

    /** `%` followed by neither `%` nor `{`: `%define`, another option, or a lone `%`. */
    method ScanOption(offset: nat) returns (t: TokenType)
      requires offset < |stream.source| && stream.source[offset] == '%'
      requires CharAt(stream.source, offset + 1) != '%' && CharAt(stream.source, offset + 1) != '{'
      requires stream.position == offset + 1 && state == WithinContent
      modifies this, stream
      ensures Reports(PercentStep(stream.source, offset)) && t == tokenType
    {
      ghost var n := MatchLength(OptionName, stream.source, offset + 1);
      var option := stream.AdvanceIfRegExp(OptionName);
      if |option| > 0 {
        var source := stream.GetSource();
        assert n > 0 && stream.position == offset + 1 + n;
        assert Substring(source, offset, stream.position) == source[offset..offset + 1 + n];
        if ToLower(Substring(source, offset, stream.position)) == "%define" {
          var _ := stream.AdvanceUntilChar('\n');
          t := FinishToken(offset, Definition, None);
          return;
        }
        t := FinishToken(offset, Option, None);
        return;
      }
      t := FinishToken(offset, Percent, None);
    }

    method ScanTypeValue(offset: nat) returns (t: TokenType)
      requires offset == stream.position < |stream.source| && state == WithinTypeValue
      modifies this, stream
      ensures Reports(TypeValueStep(stream.source, offset)) && t == tokenType
    {
      var b := stream.AdvanceIfChar('>');
      if b {
        state := WithinContent;
        t := FinishToken(offset, EndType, None);
        return;
      }
      var typeValue := NextType();
      if |typeValue| > 0 {
        t := FinishToken(offset, TypeValue, None);
        return;
      }
      stream.Advance(1);
      state := WithinContent;
      t := FinishToken(offset, Unknown, None);
    }

    method ScanComment(offset: nat) returns (t: TokenType)
      requires offset == stream.position < |stream.source| && state == WithinComment
      modifies this, stream
      ensures Reports(CommentStep(stream.source, offset)) && t == tokenType
    {
      var b := stream.AdvanceIfChars("*/");
      if b {
        state := WithinContent;
        t := FinishToken(offset, EndComment, None);
        return;
      }
      b := stream.AdvanceUntilChars("*/");
      t := FinishToken(offset, Comment, None);
    }

    /** One turn of the bracket-counting loop. */
    method CodeChar(brackets: int) returns (depth: int, ch: char)
      requires stream.position <= |stream.source| + 2
      modifies stream
      ensures Depth(stream.position, depth) == CodeTick(stream.source, old(stream.position), brackets)
      ensures ch == CharAt(stream.source, old(stream.position))
    {
      depth := brackets;
      ch := stream.NextChar();
      if ch == '{' {
        depth := depth + 1;
      } else if ch == '}' {
        depth := depth - 1;
      } else if ch == '/' {
        CodeSlash();
      } else if ch == '\'' || ch == '"' {
        stream.GoBack(1);
        var literal := NextLiteral();
        if |literal| == 0 {
          stream.Advance(1);
        }
      }
    }

    /** After a `/` in code: skips a block comment or a line comment that follows. */
    method CodeSlash()
      requires stream.position <= |stream.source| + 3
      modifies stream
      ensures var s, p := stream.source, old(stream.position);
        stream.position ==
          if CharAt(s, p) == '*' then IndexOfSeq(s, p + 1, "*/") + 2
          else if CharAt(s, p) == '/' then IndexOfChar(s, p + 1, '\n') + 1
          else p
    {
      var b := stream.AdvanceIfChar('*');
      if b {
        b := stream.AdvanceUntilChars("*/");
        stream.Advance(2);
      } else {
        b := stream.AdvanceIfChar('/');
        if b {
          b := stream.AdvanceUntilChar('\n');
          stream.Advance(1);
        }
      }
    }

    method ScanCode(offset: nat) returns (t: TokenType)
      requires offset == stream.position < |stream.source| && state == WithinCode
      modifies this, stream
      ensures Reports(CodeStep(stream.source, offset)) && t == tokenType
    {
      var b := stream.AdvanceIfChar('}');
      if b {
        state := WithinContent;
        t := FinishToken(offset, EndAction, None);
        return;
      }
      ghost var s := stream.source;
      var brackets := 1;
      while brackets > 0
        invariant stream.position <= |s| + 2 && brackets >= 0 && state == WithinCode
        invariant CodeLoopFrom(s, stream.position, brackets) == CodeLoop(s, offset, 1)
        decreases |s| + 3 - stream.position
      {
        var ch;
        brackets, ch := CodeChar(brackets);
        if ch == NUL {
          break;
        }
      }
      if brackets > 0 {
        t := FinishToken(offset, Unknown, Some(CodeNotClosed));
        return;
      }
      stream.GoBack(1);
      t := FinishToken(offset, Action, None);
    }
  }
}

/**
 * What the Yacc scanner promises, stated on the reference `Step`.
 */
module YaccScannerFacts {
  import opened Wrappers
  import opened Chars
  import opened Patterns
  import opened YaccScanner

  /**
   * Every call moves forward unless it reports the end of the text, the
   * token starts at or after the old position, and everything it skipped
   * before the token is white space.
   */
  lemma ScanProgress(s: string, st: ScannerState, p: nat)
    ensures var t := Step(s, st, p);
      && p <= t.offset
      && (t.tokenType != EOS ==> p < t.end)
      && (forall k :: p <= k < t.offset ==> k < |s| && IsWhitespace(s[k]))
  {
    SkipWhileSpan(s, p, IsWhitespace);
    var o := SkipWs(s, p);
    if o < |s| && st == WithinTypeValue && s[o] != '>' {
      TypeAtProgress(s, o);
    }
  }

  /**
   * A call started at most three characters past the end stays within
   * that bound, and only the end of the text leaves the position where it was.
   */
  lemma StepBounds(s: string, st: ScannerState, p: nat)
    requires p <= |s| + 3
    ensures var t := Step(s, st, p);
      && p <= t.end <= |s| + 3
      && (t.tokenType != EOS ==> p < t.end)
  {
    ScanProgress(s, st, p);
    var o := SkipWs(s, p);
    if o < |s| && st == WithinTypeValue && s[o] != '>' {
      TypeAtProgress(s, o);
    }
  }

  /** `TypeAt` never moves backwards. */
  lemma TypeAtProgress(s: string, p: nat)
    requires p <= |s|
    ensures p <= TypeAt(s, p).end
  {
  }

  /** The scanner reports the end of the text exactly when only white space is left. */
  lemma EosIffOnlyWhitespace(s: string, st: ScannerState, p: nat)
    ensures Step(s, st, p).tokenType == EOS <==> forall k :: p <= k < |s| ==> IsWhitespace(s[k])
  {
    SkipWhileSpan(s, p, IsWhitespace);
    var o := SkipWs(s, p);
    if o < |s| {
      assert !IsWhitespace(s[o]);
      assert InternalStep(s, st, p).tokenType != EOS;
    }
  }

  /** At a `%`, `scan` makes the `%` decision, and its token is never empty. */
  lemma PercentIsStep(s: string, p: nat)
    requires p < |s| && s[p] == '%'
    ensures Step(s, WithinContent, p) == PercentStep(s, p)
    ensures PercentStep(s, p).end > p
  {
    assert SkipWs(s, p) == p;
    var n := MatchLength(OptionName, s, p + 1);
    if n > 0 {
      assert IndexOfChar(s, p + 1 + n, '\n') >= p + 1 + n;
    }
  }

  /**
   * How a `%` is classified: `%%` is the rules separator, `%{` opens code
   * (and only that moves into the code state), and the other outcomes are
   * a definition, an option or a lone `%`, all without error.
   */
  lemma PercentClassification(s: string, p: nat)
    requires p < |s| && s[p] == '%'
    ensures var t := Step(s, WithinContent, p);
      && t.offset == p && t.error == None
      && (t.tokenType == RulesTag <==> MatchesAt(s, p, "%%"))
      && (t.tokenType == StartAction <==> !MatchesAt(s, p, "%%") && MatchesAt(s, p, "%{"))
      && (t.tokenType == StartAction <==> t.state == WithinCode)
      && t.tokenType in {RulesTag, StartAction, Definition, Option, Percent}
  {
    PercentIsStep(s, p);
    assert MatchesAt(s, p, "%%") <==> CharAt(s, p + 1) == '%' by {
      if p + 2 <= |s| { assert s[p..p + 2] == [s[p], s[p + 1]]; }
    }
    assert MatchesAt(s, p, "%{") <==> CharAt(s, p + 1) == '{' by {
      if p + 2 <= |s| { assert s[p..p + 2] == [s[p], s[p + 1]]; }
    }
  }

  /** A `%` that starts neither `%%` nor `%{` is a lone Percent exactly when no option name follows it. */
  lemma PercentAlone(s: string, p: nat)
    requires p < |s| && s[p] == '%'
    requires CharAt(s, p + 1) != '%' && CharAt(s, p + 1) != '{'
    ensures Step(s, WithinContent, p).tokenType == Percent <==>
      p + 1 == |s| || !(IsWordChar(s[p + 1]) || s[p + 1] == '-')
  {
    PercentIsStep(s, p);
    if p + 1 < |s| && (IsWordChar(s[p + 1]) || s[p + 1] == '-') {
      MatchLengthCorrect(OptionName, s, p + 1);
      assert Matches(OptionName, s[p + 1..p + 2]);
    }
  }

  /** `%define` (in any letter case) takes the rest of its line, up to the line feed. */
  lemma PercentDefinition(s: string, p: nat)
    requires p < |s| && s[p] == '%'
    ensures var t := Step(s, WithinContent, p);
      t.tokenType == Definition ==>
        && p + 7 <= t.end && ToLower(s[p..p + 7]) == "%define"
        && (forall k :: p <= k < t.end ==> k < |s| && s[k] != '\n')
        && (t.end == |s| || s[t.end] == '\n')
  {
    PercentIsStep(s, p);
    var n := MatchLength(OptionName, s, p + 1);
    if CharAt(s, p + 1) != '%' && CharAt(s, p + 1) != '{' && n > 0 && ToLower(s[p..p + 1 + n]) == "%define" {
      assert |s[p..p + 1 + n]| == 7;
      OptionNameInLine(s, p + 1);
    }
  }

  /** An option name holds no line feed. */
  lemma OptionNameInLine(s: string, i: nat)
    ensures forall k :: i <= k < i + MatchLength(OptionName, s, i) ==> k < |s| && s[k] != '\n'
  {
    ClassLengthSpan(OptionName, s, i);
  }

  /**
   * The `%define` test compares the lowered text: it holds exactly when
   * the text is `%` and the letters of `define`, each in either case.
   */
  lemma DefineInAnyCase(w: string)
    ensures ToLower(w) == "%define" <==>
      |w| == 7 && w[0] == '%' && forall k :: 1 <= k < 7 ==> w[k] == "%define"[k] || w[k] == "%DEFINE"[k]
  {
    if ToLower(w) == "%define" {
      forall k | 0 <= k < 7 ensures w[k] == "%define"[k] || w[k] == "%DEFINE"[k] {
        assert ToLowerAscii(w[k]) == "%define"[k];
      }
    }
    if |w| == 7 && w[0] == '%' && forall k :: 1 <= k < 7 ==> w[k] == "%define"[k] || w[k] == "%DEFINE"[k] {
      assert forall k :: 0 <= k < 7 ==> ToLower(w)[k] == "%define"[k];
    }
  }

  /** Any other `%word` is an Option token covering exactly `%` and the option name. */
  lemma PercentOption(s: string, p: nat)
    requires p < |s| && s[p] == '%'
    ensures var t := Step(s, WithinContent, p);
      t.tokenType == Option ==>
        && p + 1 < t.end <= |s| && Matches(OptionName, s[p + 1..t.end])
        && ToLower(s[p..t.end]) != "%define"
        && (t.end == |s| || !(IsWordChar(s[t.end]) || s[t.end] == '-'))
  {
    PercentIsStep(s, p);
    MatchLengthCorrect(OptionName, s, p + 1);
    var n := MatchLength(OptionName, s, p + 1);
    if n > 0 {
      assert SkipWhile(s, p + 2, c => Tail(OptionName, c)) == p + 1 + n;
    }
  }

  /**
   * Action code stops just before the `}` that closes the action, and the
   * next call returns that `}` as EndAction and goes back to content.
   */
  lemma ActionStopsAtClosingBrace(s: string, p: nat)
    ensures var t := Step(s, WithinCode, p);
      t.tokenType == Action ==>
        && t.end < |s| && s[t.end] == '}' && t.error == None && t.state == WithinCode
        && Step(s, WithinCode, t.end) == Token(EndAction, t.end, t.end + 1, WithinContent, None)
  {
    var o := SkipWs(s, p);
    if o < |s| && s[o] != '}' {
      var r := CodeLoop(s, o, 1);
      if r.open == 0 {
        assert r.pos - 1 != o;
        assert SkipWs(s, r.pos - 1) == r.pos - 1;
      }
    }
  }

  /**
   * With no `}` left in the text, action code cannot be closed: the scanner
   * reports "Code not closed!" and stays inside the code.
   */
  lemma UnclosedCode(s: string, p: nat)
    requires forall k :: p <= k < |s| ==> s[k] != '}'
    requires exists k :: p <= k < |s| && !IsWhitespace(s[k])
    ensures var t := Step(s, WithinCode, p);
      t.tokenType == Unknown && t.error == Some(CodeNotClosed) && t.state == WithinCode
  {
    var o := SkipWs(s, p);
    SkipWhileSpan(s, p, IsWhitespace);
    assert o < |s|;
    CodeLoopStaysOpen(s, o, 1);
  }

  /** Reading on without meeting a `}`, the bracket count never drops below its start. */
  lemma {:induction false} CodeLoopStaysOpen(s: string, p: nat, d: int)
    requires p <= |s| + 2 && d > 0
    requires forall k :: p <= k < |s| ==> s[k] != '}'
    ensures CodeLoop(s, p, d).open >= d
    decreases |s| + 3 - p
  {
    var t := CodeTick(s, p, d);
    if !(t.open <= 0 || CharAt(s, p) == NUL) {
      CodeLoopStaysOpen(s, t.pos, t.open);
    }
  }

  /**
   * A quoted literal inside action code is passed over whole: a brace in
   * it is not counted.
   */
  lemma CodeSkipsLiteral(s: string, p: nat, d: int)
    requires p < |s| && IsQuote(s[p]) && d > 0
    requires MatchLength(Quoted, s, p) > 0
    ensures CodeLoop(s, p, d) == CodeLoopFrom(s, p + MatchLength(Quoted, s, p), d)
  {
  }

  /** A block comment inside action code is passed over whole, up to and including its `*` `/`. */
  lemma CodeSkipsBlockComment(s: string, p: nat, d: int)
    requires p + 1 < |s| && s[p] == '/' && s[p + 1] == '*' && d > 0
    ensures CodeLoop(s, p, d) == CodeLoopFrom(s, IndexOfSeq(s, p + 2, "*/") + 2, d)
  {
  }

  /** A line comment inside action code is passed over up to and including its line feed. */
  lemma CodeSkipsLineComment(s: string, p: nat, d: int)
    requires p + 1 < |s| && s[p] == '/' && s[p + 1] == '/' && d > 0
    ensures CodeLoop(s, p, d) == CodeLoopFrom(s, IndexOfChar(s, p + 2, '\n') + 1, d)
  {
  }

  /** Text the bracket loop reads one character at a time: no comment or literal can start in it and no NUL stops it. */
  predicate Plain(s: string, i: nat, j: nat)
    requires i <= j <= |s|
  {
    forall k :: i <= k < j ==> s[k] != '/' && !IsQuote(s[k]) && s[k] != NUL
  }

  /**
   * Over plain text, the loop with `d` brackets open stops just after the
   * `}` at which the bracket count first falls to zero.
   */
  lemma {:induction false} CodeLoopCloses(s: string, p: nat, d: int, e: nat)
    requires p <= e < |s| && d > 0 && Plain(s, p, e + 1)
    requires d + BraceBalance(s, p, e + 1) == 0
    requires forall k :: p < k <= e ==> d + BraceBalance(s, p, k) > 0
    ensures CodeLoop(s, p, d) == Depth(e + 1, 0)
    decreases e - p
  {
    assert s[p] != '/' && !IsQuote(s[p]) && s[p] != NUL && BraceBalance(s, p + 1, p + 1) == 0;
    var d1 := d + BraceBalance(s, p, p + 1);
    assert CodeTick(s, p, d) == Depth(p + 1, d1);
    if e > p {
      var q := p + 1;
      forall k | q < k <= e
        ensures d1 + BraceBalance(s, q, k) > 0
      {
        assert d + BraceBalance(s, p, k) > 0;
      }
      assert d + BraceBalance(s, p, e + 1) == d1 + BraceBalance(s, p + 1, e + 1);
      CodeLoopCloses(s, p + 1, d1, e);
    }
  }

  /** Over plain text whose bracket count never falls to zero, the loop runs past the end with brackets still open. */
  lemma {:induction false} CodeLoopOpen(s: string, p: nat, d: int)
    requires p <= |s| && d > 0 && Plain(s, p, |s|)
    requires forall k :: p < k <= |s| ==> d + BraceBalance(s, p, k) > 0
    ensures CodeLoop(s, p, d) == Depth(|s| + 1, d + BraceBalance(s, p, |s|))
    decreases |s| - p
  {
    if p < |s| {
      assert s[p] != '/' && !IsQuote(s[p]) && s[p] != NUL && BraceBalance(s, p + 1, p + 1) == 0;
      var d1 := d + BraceBalance(s, p, p + 1);
      assert CodeTick(s, p, d) == Depth(p + 1, d1);
      var q := p + 1;
      forall k | q < k <= |s|
        ensures d1 + BraceBalance(s, q, k) > 0
      {
        assert d + BraceBalance(s, p, k) > 0;
      }
      assert d + BraceBalance(s, p, |s|) == d1 + BraceBalance(s, p + 1, |s|);
      CodeLoopOpen(s, p + 1, d1);
    }
  }

  /**
   * Action code starting at `p` is the text up to the `}` that balances
   * the opening `{`: the first place where the count of brackets read
   * since the opening one falls to zero.
   */
  lemma ActionEndsAtBalancingBrace(s: string, p: nat, e: nat)
    requires p <= e < |s| && !IsWhitespace(s[p]) && s[p] != '}' && Plain(s, p, e + 1)
    requires 1 + BraceBalance(s, p, e + 1) == 0
    requires forall k :: p < k <= e ==> 1 + BraceBalance(s, p, k) > 0
    ensures Step(s, WithinCode, p) == Token(Action, p, e, WithinCode, None)
  {
    assert SkipWs(s, p) == p;
    CodeLoopCloses(s, p, 1, e);
  }

  /** Action code whose brackets never balance before the end of the text is "Code not closed!". */
  lemma ActionUnbalanced(s: string, p: nat)
    requires p < |s| && !IsWhitespace(s[p]) && s[p] != '}' && Plain(s, p, |s|)
    requires forall k :: p < k <= |s| ==> 1 + BraceBalance(s, p, k) > 0
    ensures Step(s, WithinCode, p) == Token(Unknown, p, |s| + 1, WithinCode, Some(CodeNotClosed))
  {
    assert SkipWs(s, p) == p;
    CodeLoopOpen(s, p, 1);
  }

  /** A nested `{ }` pair is passed over: in `a{b}c}` the action runs to the second `}`. */
  lemma NestedBraceExample()
    ensures Step("a{b}c}", WithinCode, 0) == Token(Action, 0, 5, WithinCode, None)
  {
    var s := "a{b}c}";
    assert BraceBalance(s, 5, 6) == -1;
    assert BraceBalance(s, 4, 6) == -1 && BraceBalance(s, 4, 5) == 0;
    assert BraceBalance(s, 3, 6) == -2 && BraceBalance(s, 3, 5) == -1 && BraceBalance(s, 3, 4) == -1;
    assert BraceBalance(s, 2, 5) == -1 && BraceBalance(s, 2, 4) == -1 && BraceBalance(s, 2, 3) == 0;
    assert BraceBalance(s, 1, 5) == 0 && BraceBalance(s, 1, 4) == 0 && BraceBalance(s, 1, 3) == 1 && BraceBalance(s, 1, 2) == 1;
    ActionEndsAtBalancingBrace(s, 0, 5);
  }

  /** Unbalanced code: `x { }` never closes. */
  lemma UnbalancedExample()
    ensures Step("x { }", WithinCode, 0) == Token(Unknown, 0, 6, WithinCode, Some(CodeNotClosed))
  {
    var s := "x { }";
    assert BraceBalance(s, 4, 5) == -1;
    assert BraceBalance(s, 3, 5) == -1 && BraceBalance(s, 3, 4) == 0;
    assert BraceBalance(s, 2, 5) == 0 && BraceBalance(s, 2, 4) == 1 && BraceBalance(s, 2, 3) == 1;
    assert BraceBalance(s, 1, 5) == 0 && BraceBalance(s, 1, 4) == 1 && BraceBalance(s, 1, 3) == 1 && BraceBalance(s, 1, 2) == 0;
    ActionUnbalanced(s, 0);
  }

  /** The scanner's own example: a brace inside a string does not close the action. */
  lemma BraceInStringExample()
    ensures Step("x = \"}\"; } y", WithinCode, 0) == Token(Action, 0, 9, WithinCode, None)
  {
    var s := "x = \"}\"; } y";
    assert MatchLength(Quoted, s, 4) == 3 by {
      assert LiteralBodyEnd(s, 6, '"') == 6;
      assert LiteralBodyEnd(s, 5, '"') == 6;
    }
    assert CodeLoop(s, 9, 1) == Depth(10, 0);
    assert CodeLoop(s, 8, 1) == Depth(10, 0);
    assert CodeLoop(s, 7, 1) == Depth(10, 0);
    assert CodeTick(s, 4, 1) == Depth(7, 1);
    assert CodeLoop(s, 4, 1) == Depth(10, 0);
    assert CodeLoop(s, 3, 1) == Depth(10, 0);
    assert CodeLoop(s, 2, 1) == Depth(10, 0);
    assert CodeLoop(s, 1, 1) == Depth(10, 0);
    assert CodeLoop(s, 0, 1) == Depth(10, 0);
    assert SkipWs(s, 0) == 0;
  }

  /**
   * Block comment text runs up to the next `*` `/` (or the end of the text)
   * and contains none; the call after it returns EndComment.
   */
  lemma CommentRunsToCloser(s: string, p: nat)
    ensures var t := Step(s, WithinComment, p);
      t.tokenType == Comment ==>
        && (forall k :: t.offset <= k < t.end ==> !MatchesAt(s, k, "*/"))
        && (t.end == |s| || MatchesAt(s, t.end, "*/"))
        && (t.end < |s| ==> Step(s, WithinComment, t.end).tokenType == EndComment)
  {
    var o := SkipWs(s, p);
    if o < |s| && !MatchesAt(s, o, "*/") {
      var e := IndexOfSeq(s, o, "*/");
      if e < |s| {
        assert s[e..e + 2] == "*/";
        assert s[e] == '*';
        assert SkipWs(s, e) == e;
      }
    }
  }

  /** A `//` comment runs to the end of its line, the line feed excluded. */
  lemma LineCommentToEndOfLine(s: string, p: nat)
    requires p + 1 < |s| && s[p] == '/' && s[p + 1] == '/'
    ensures var t := Step(s, WithinContent, p);
      && t.tokenType == Comment && t.offset == p && t.state == WithinContent
      && (forall k :: p <= k < t.end ==> k < |s| && s[k] != '\n')
      && (t.end == |s| || s[t.end] == '\n')
  {
    assert SkipWs(s, p) == p;
  }

  // ---------------------------------------------------------------------
  // Type names

  /** The characters of `s[a..b]` that are not white space, in order. */
  function Stripped(s: string, a: nat, b: nat): (r: string)
    requires a <= b <= |s|
    ensures |r| <= b - a
    decreases b - a
  {
    if a == b then []
    else Stripped(s, a, b - 1) + (if IsWhitespace(s[b - 1]) then [] else [s[b - 1]])
  }

  lemma {:induction false} StrippedSplit(s: string, a: nat, b: nat, c: nat)
    requires a <= b <= c <= |s|
    ensures Stripped(s, a, c) == Stripped(s, a, b) + Stripped(s, b, c)
    decreases c - b
  {
    if b == c {
      assert Stripped(s, a, b) + [] == Stripped(s, a, b);
    } else {
      StrippedSplit(s, a, b, c - 1);
      var k := if IsWhitespace(s[c - 1]) then [] else [s[c - 1]];
      assert (Stripped(s, a, b) + Stripped(s, b, c - 1)) + k == Stripped(s, a, b) + (Stripped(s, b, c - 1) + k);
    }
  }

  /** The white space `skipWhitespace` passes over strips to nothing. */
  lemma {:induction false} StrippedSkipped(s: string, p: nat, e: nat)
    requires p <= e <= SkipWs(s, p) && e <= |s|
    ensures Stripped(s, p, e) == []
    decreases e - p
  {
    if p < e {
      SkipWhileSpan(s, p, IsWhitespace);
      StrippedSkipped(s, p, e - 1);
    }
  }

  /** A type name matched by the pattern holds no white space. */
  lemma {:induction false} StrippedName(s: string, p: nat, e: nat)
    requires p <= e <= p + MatchLength(TypeName, s, p) && e <= |s|
    ensures Stripped(s, p, e) == s[p..e]
    decreases e - p
  {
    if p < e {
      StrippedName(s, p, e - 1);
      MatchLengthCorrect(TypeName, s, p);
      var n := MatchLength(TypeName, s, p);
      assert s[p..p + n][e - 1 - p] == s[e - 1];
      assert s[p..e] == s[p..e - 1] + [s[e - 1]];
    }
  }

  /** One character that is not white space strips to itself. */
  lemma StrippedOne(s: string, a: nat)
    requires a < |s| && !IsWhitespace(s[a])
    ensures Stripped(s, a, a + 1) == [s[a]]
  {
    assert Stripped(s, a, a) == [];
  }

  /**
   * The type `nextType` returns is exactly the text it consumed with the
   * white space between its parts removed.
   */
  lemma {:induction false} TypeIsConsumedTextStripped(s: string, p: nat)
    requires p <= |s|
    ensures Stripped(s, p, TypeAt(s, p).end) == TypeAt(s, p).text
    decreases |s| - p, 2
  {
    var n := MatchLength(TypeName, s, p);
    var q := SkipWs(s, p + n);
    StrippedHead(s, p);
    if q < |s| && s[q] == '<' {
      TypeAtIsOpen(s, p, s[p..p + n], q);
      OpenTypeIsConsumedTextStripped(s, p, s[p..p + n], q);
    } else {
      TypeAtShut(s, p);
    }
  }

  /** The name and the white space after it strip to the name. */
  lemma StrippedHead(s: string, p: nat)
    requires p <= |s|
    ensures var n := MatchLength(TypeName, s, p);
      Stripped(s, p, SkipWs(s, p + n)) == s[p..p + n]
  {
    var n := MatchLength(TypeName, s, p);
    var q := SkipWs(s, p + n);
    StrippedName(s, p, p + n);
    StrippedSkipped(s, p + n, q);
    StrippedSplit(s, p, p + n, q);
    assert s[p..p + n] + [] == s[p..p + n];
  }

  lemma {:induction false} OpenTypeIsConsumedTextStripped(s: string, p: nat, name: string, q: nat)
    requires p <= q < |s| && s[q] == '<' && Stripped(s, p, q) == name
    ensures Stripped(s, p, TypeOpen(s, name, q).end) == TypeOpen(s, name, q).text
    decreases |s| - q, 1
  {
    var i0 := SkipWs(s, q + 1);
    var inner := TypeAt(s, i0);
    var args := TypeArgsAt(s, inner.end);
    var q3 := SkipWs(s, args.end);
    TypeOpenIsClose(s, name, q, inner, args, q3);
    TypeIsConsumedTextStripped(s, i0);
    ArgsAreConsumedTextStripped(s, inner.end);
    StrippedOpen(s, p, q, i0, inner.end, args.end, q3, name, inner.text, args.text);
    StrippedClose(s, p, q3, name + "<" + inner.text + args.text);
  }

  /** The optional `>` keeps the text read equal to what was consumed, stripped. */
  lemma StrippedClose(s: string, p: nat, q3: nat, t: string)
    requires p <= q3 <= |s| && Stripped(s, p, q3) == t
    requires q3 < |s| && s[q3] == '>' ==> Stripped(s, p, q3 + 1) == t + ">"
    ensures Stripped(s, p, TypeClose(s, t, q3).end) == TypeClose(s, t, q3).text
  {
  }

  /** Gluing the stripped parts of `name < type, ... >` together. */
  lemma StrippedOpen(s: string, p: nat, q: nat, i0: nat, m1: nat, m2: nat, q3: nat,
                     name: string, inner: string, args: string)
    requires p <= q < |s| && s[q] == '<' && i0 == SkipWs(s, q + 1) && i0 <= m1 <= m2 && q3 == SkipWs(s, m2) && q3 <= |s|
    requires Stripped(s, p, q) == name && Stripped(s, i0, m1) == inner && Stripped(s, m1, m2) == args
    ensures Stripped(s, p, q3) == name + "<" + inner + args
    ensures q3 < |s| && s[q3] == '>' ==> Stripped(s, p, q3 + 1) == name + "<" + inner + args + ">"
  {
    StrippedOne(s, q);
    StrippedSplit(s, p, q, q + 1);
    var acc := name + "<";
    StrippedSkipped(s, q + 1, i0);
    StrippedSplit(s, p, q + 1, i0);
    assert Stripped(s, p, i0) == acc by { assert acc + [] == acc; }
    StrippedSplit(s, p, i0, m1);
    acc := acc + inner;
    StrippedSplit(s, p, m1, m2);
    acc := acc + args;
    StrippedSkipped(s, m2, q3);
    StrippedSplit(s, p, m2, q3);
    assert Stripped(s, p, q3) == acc by { assert acc + [] == acc; }
    if q3 < |s| && s[q3] == '>' {
      StrippedOne(s, q3);
      StrippedSplit(s, p, q3, q3 + 1);
    }
  }

  lemma {:induction false} ArgsAreConsumedTextStripped(s: string, p: nat)
    requires p <= |s|
    ensures Stripped(s, p, TypeArgsAt(s, p).end) == TypeArgsAt(s, p).text
    decreases |s| - p, 0
  {
    var q := SkipWs(s, p);
    StrippedSkipped(s, p, q);
    if q < |s| && s[q] == ',' {
      var i0 := SkipWs(s, q + 1);
      var t := TypeAt(s, i0);
      var rest := TypeArgsAt(s, t.end);
      TypeArgsAtNext(s, p, t);
      TypeIsConsumedTextStripped(s, i0);
      ArgsAreConsumedTextStripped(s, t.end);
      StrippedArgs(s, p, q, i0, t.end, rest.end, t.text, rest.text);
    } else {
      TypeArgsAtStop(s, p);
    }
  }

  /** Gluing the stripped parts of `, type ...` together. */
  lemma StrippedArgs(s: string, p: nat, q: nat, i0: nat, m1: nat, m2: nat, t: string, rest: string)
    requires p <= q < |s| && q == SkipWs(s, p) && s[q] == ',' && i0 == SkipWs(s, q + 1) && i0 <= m1 <= m2 <= |s|
    requires Stripped(s, i0, m1) == t && Stripped(s, m1, m2) == rest
    ensures Stripped(s, p, m2) == "," + t + rest
  {
    StrippedSkipped(s, p, q);
    StrippedOne(s, q);
    StrippedSkipped(s, q + 1, i0);
    StrippedSplit(s, p, q, q + 1);
    StrippedSplit(s, p, q + 1, i0);
    StrippedSplit(s, p, i0, m1);
    StrippedSplit(s, p, m1, m2);
    assert [] + "," + [] + t + rest == "," + t + rest;
  }

  /**
   * Started on a non-white character, `nextType` returns the empty string
   * exactly when it consumed nothing; that is when the scanner falls back
   * to one Unknown character.
   */
  lemma TypeEmptyIffNoProgress(s: string, p: nat)
    requires p < |s| && !IsWhitespace(s[p])
    ensures TypeAt(s, p).text == [] <==> TypeAt(s, p).end == p
  {
    var n := MatchLength(TypeName, s, p);
    if n == 0 {
      assert SkipWs(s, p) == p;
    }
  }
}
