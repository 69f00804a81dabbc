/**
 * The tokenizer for Lex/Flex files.
 *
 * As for the Yacc scanner, `Step(s, st, multi, p)` is the reference
 * definition of one call of `scan` from state `st` at position `p`, with
 * `multi` the multi-line-brackets flag; the `Scanner` class holds the
 * closure's mutable state and its `Scan` is proved to produce `Step`.
 */
module LexScanner {
  import opened Wrappers
  import opened Chars
  import opened Patterns
  import Utils

  datatype TokenType =
    | Word | Literal | Bar | Percent | Option | RulesTag
    | StartComment | EndComment | Comment | StartAction | EndAction | Action
    | StartCode | EndCode | Code | StartPredefined | EndPredefined | Predefined
    | StartStates | EndStates | States | Invalid | Unknown | Divider | EOL | EOS

  datatype ScannerState = WithinContent | WithinComment | WithinCode | WithinAction | WithinPredefined | WithinStates

  /** The outcome of one `scan`: token type, offset, position after it, new state, error text. */
  datatype Token = Token(tokenType: TokenType, offset: nat, end: nat, state: ScannerState, error: Option<string>)

  /** A position in the action's bracket-counting loop, the brackets open there, and the `exit` flag. */
  datatype Walk = Walk(pos: nat, open: int, exit: bool)

  const CodeNotClosed := "Code not closed!"

  /** The states in which `internalScan` skips line breaks as well as blanks. */
  predicate SkipsLineBreaks(st: ScannerState) {
    st.WithinAction? || st.WithinCode? || st.WithinComment?
  }

  // ---------------------------------------------------------------------
  // Action code

  /**
   * One turn of the `while (!exit && brackets > 0)` loop at `p` with `d`
   * open brackets. Literals and comments are passed over whole; a line
   * feed sets `exit` when multi-line brackets are off.
   */
  function ActionTick(s: string, p: nat, d: int, multi: bool): (r: Walk)
    requires p <= |s| + 2
    ensures p < r.pos <= |s| + 3
    ensures r.pos <= |s| + 2 || CharAt(s, p) == NUL
    ensures r.open == d + 1 || r.open == d || (r.open == d - 1 && p < |s| && s[p] == '}' && r.pos == p + 1)
    ensures r.exit ==> !multi && r.open == d && p < |s| && s[p] == '\n' && r.pos == p + 1
    ensures CharAt(s, p) == NUL ==> r.pos == p + 1 && r.open == d && !r.exit
  {
    var ch := CharAt(s, p);
    var p1 := p + 1;
    if ch == '{' then Walk(p1, d + 1, false)
    else if ch == '}' then Walk(p1, d - 1, false)
    else if ch == '/' && CharAt(s, p1) == '*' then Walk(IndexOfSeq(s, p1 + 1, "*/") + 2, d, false)
    else if ch == '/' && CharAt(s, p1) == '/' then Walk(IndexOfChar(s, p1 + 1, '\n') + 1, d, false)
    else if ch == '\'' || ch == '"' then
      var n := MatchLength(Quoted, s, p);
      Walk(if n > 0 then p + n else p1, d, false)
    else if ch == '\n' then Walk(p1, d, !multi)
    else Walk(p1, d, false)
  }

  /** The whole loop from `p` with `d` open brackets; it also stops after reading NUL. */
  function ActionLoop(s: string, p: nat, d: int, multi: bool): (r: Walk)
    requires p <= |s| + 2 && d > 0
    ensures p < r.pos <= |s| + 3
    ensures r.open >= 0
    ensures r.open == 0 ==> r.pos <= |s| && s[r.pos - 1] == '}' && !r.exit
    ensures r.exit ==> !multi && r.open > 0 && r.pos <= |s| && s[r.pos - 1] == '\n'
    ensures r.open > 0 && !r.exit ==> CharAt(s, r.pos - 1) == NUL
    decreases |s| + 3 - p
  {
    var t := ActionTick(s, p, d, multi);
    if t.exit || t.open <= 0 || CharAt(s, p) == NUL then t else ActionLoop(s, t.pos, t.open, multi)
  }

  /** The rest of the loop from a state where it may already have stopped. */
  function ActionLoopFrom(s: string, p: nat, d: int, exit: bool, multi: bool): Walk {
    if !exit && d > 0 && p <= |s| + 2 then ActionLoop(s, p, d, multi) else Walk(p, d, exit)
  }

  // ---------------------------------------------------------------------
  // One call of `scan`

  /** `%` at `o`: `%%`, `%{`, `%word`, or a lone `%`. */
  function PercentStep(s: string, o: nat): (r: Token)
    requires o < |s| && s[o] == '%'
    ensures r.offset == o && o <= r.end <= |s| + 3
    ensures r.tokenType != Action
  {
    if CharAt(s, o + 1) == '%' then Token(RulesTag, o, o + 2, WithinContent, None)
    else if CharAt(s, o + 1) == '{' then Token(StartCode, o, o + 2, WithinCode, None)
    else
      var n := MatchLength(OptionName, s, o + 1);
      if n > 0 then Token(Option, o, o + 1 + n, WithinContent, None)
      else Token(Percent, o, o + 1, WithinContent, None)
  }

  /** A name at `o` (`Word`), or one unknown character. */
  function ComponentStep(s: string, o: nat): (r: Token)
    requires o < |s|
    ensures r.offset == o && o <= r.end <= |s| + 3
    ensures r.tokenType != Action
  {
    var n := MatchLength(Component, s, o);
    if n > 0 then Token(Word, o, o + n, WithinContent, None)
    else Token(Unknown, o, o + 1, WithinContent, None)
  }

  /** The WithinContent state at the first non-blank character `o`. */
  function ContentStep(s: string, o: nat): (r: Token)
    requires o < |s|
    ensures r.offset == o && o <= r.end <= |s| + 3
    ensures r.tokenType != Action
  {
    var ch := s[o];
    if ch == '/' && CharAt(s, o + 1) == '*' then Token(StartComment, o, o + 2, WithinComment, None)
    else if ch == '/' && CharAt(s, o + 1) == '/' then
      Token(Comment, o, IndexOfChar(s, o + 2, '\n'), WithinContent, None)
    else if ch == '%' then PercentStep(s, o)
    else if ch == '<' then
      if CharAt(s, o + 1) == '<' then Token(StartPredefined, o, o + 2, WithinPredefined, None)
      else Token(StartStates, o, o + 1, WithinStates, None)
    else if ch == '|' then Token(Bar, o, o + 1, WithinContent, None)
    else if ch == '{' then Token(StartAction, o, o + 1, WithinAction, None)
    else if ch == ' ' then Token(Invalid, o, IndexOfChar(s, o + 1, '\n'), WithinContent, None)
    else if ch == '\n' then Token(EOL, o, o + 1, WithinContent, None)
    else if ch == '"' || ch == '\'' then
      var l := MatchLength(Quoted, s, o);
      if l > 0 then Token(Literal, o, o + l, WithinContent, None)
      else Token(Unknown, o, o + 1, WithinContent, None)
    else ComponentStep(s, o)
  }

  /** The WithinComment state at `o`. */
  function CommentStep(s: string, o: nat): (r: Token)
    requires o < |s|
    ensures r.offset == o && o <= r.end <= |s| + 3
    ensures r.tokenType != Action
  {
    if MatchesAt(s, o, "*/") then Token(EndComment, o, o + 2, WithinContent, None)
    else Token(Comment, o, IndexOfSeq(s, o, "*/"), WithinComment, None)
  }

  /** The WithinCode state at `o`: `%}`, or the code up to it. */
  function CodeStep(s: string, o: nat): (r: Token)
    requires o < |s|
    ensures r.offset == o && o <= r.end <= |s| + 3
    ensures r.tokenType != Action
  {
    if MatchesAt(s, o, "%}") then Token(EndCode, o, o + 2, WithinContent, None)
    else Token(Code, o, IndexOfSeq(s, o, "%}"), WithinCode, None)
  }

  /** The WithinAction state at `o`: the closing `}`, or the action up to (not including) it. */
  function ActionStep(s: string, o: nat, multi: bool): (r: Token)
    requires o < |s|
    ensures r.offset == o && o <= r.end <= |s| + 3
    ensures r.tokenType == Action ==> r.end <= |s|
  {
    if s[o] == '}' then Token(EndAction, o, o + 1, WithinContent, None)
    else
      var r := ActionLoop(s, o, 1, multi);
      var st := if r.exit then WithinContent else WithinAction;
      if r.open > 0 then Token(Unknown, o, r.pos, st, Some(CodeNotClosed))
      else Token(Action, o, if r.exit then r.pos else r.pos - 1, st, None)
  }

  /** The WithinPredefined state at `o`: `>>`, or the text up to it. */
  function PredefinedStep(s: string, o: nat): (r: Token)
    requires o < |s|
    ensures r.offset == o && o <= r.end <= |s| + 3
    ensures r.tokenType != Action
  {
    if MatchesAt(s, o, ">>") then Token(EndPredefined, o, o + 2, WithinContent, None)
    else Token(Predefined, o, IndexOfSeq(s, o, ">>"), WithinPredefined, None)
  }

  /** The WithinStates state at `o`: `>`, or the text up to it. */
  function StatesStep(s: string, o: nat): (r: Token)
    requires o < |s|
    ensures r.offset == o && o <= r.end <= |s| + 3
    ensures r.tokenType != Action
  {
    if s[o] == '>' then Token(EndStates, o, o + 1, WithinContent, None)
    else Token(States, o, IndexOfChar(s, o, '>'), WithinStates, None)
  }

  /** Where `internalScan` started at `p` in state `st` looks for its token. */
  function Start(s: string, st: ScannerState, p: nat): nat {
    if SkipsLineBreaks(st) then SkipWs(s, p) else SkipBlanks(s, p)
  }

  /** `internalScan` */
  function InternalStep(s: string, st: ScannerState, multi: bool, p: nat): Token {
    var o := Start(s, st, p);
    if o >= |s| then Token(EOS, o, o, st, None)
    else if !SkipsLineBreaks(st) && o > p then Token(Divider, o, o, st, None)
    else
      match st
      case WithinContent => ContentStep(s, o)
      case WithinComment => CommentStep(s, o)
      case WithinCode => CodeStep(s, o)
      case WithinAction => ActionStep(s, o, multi)
      case WithinPredefined => PredefinedStep(s, o)
      case WithinStates => StatesStep(s, o)
  }

  /** `scan`: `internalScan`, with one character forced when it did not move. */
  function Step(s: string, st: ScannerState, multi: bool, p: nat): Token {
    var t := InternalStep(s, st, multi, p);
    if t.tokenType != EOS && t.end == p then Token(Unknown, p, p + 1, t.state, None) else t
  }

  // ---------------------------------------------------------------------
  // The scanner closure

  class Scanner {
    const stream: Utils.MultiLineStream
    var state: ScannerState
    var tokenOffset: nat
    var tokenType: TokenType
    var tokenError: Option<string>
    var multiLineBracket: bool

    /** The scanner's fields hold the outcome `r`. */
    ghost predicate Reports(r: Token)
      reads this, stream
    {
      tokenType == r.tokenType && tokenOffset == r.offset && stream.position == r.end
      && state == r.state && tokenError == r.error
    }

    /** The outcome the scanner's fields hold. */
    function Current(): (r: Token)
      reads this, stream
      ensures Reports(r)
    {
      Token(tokenType, tokenOffset, stream.position, state, tokenError)
    }

    /** `createScanner(input, initialOffset, initialState)` */
    constructor (input: string, initialOffset: nat, initialState: ScannerState)
      ensures fresh(stream) && stream.source == input && stream.position == initialOffset
      ensures state == initialState && tokenOffset == 0 && tokenType == Unknown && tokenError == None
      ensures multiLineBracket
    {
      stream := new Utils.MultiLineStream(input, initialOffset);
      state := initialState;
      tokenOffset := 0;
      tokenType := Unknown;
      tokenError := None;
      multiLineBracket := true;
    }

    function GetTokenType(): TokenType reads this { tokenType }
    function GetTokenOffset(): nat reads this { tokenOffset }
    function GetTokenLength(): int reads this, stream { stream.position - tokenOffset }
    function GetTokenEnd(): nat reads this, stream { stream.position }
    function GetTokenText(): string reads this, stream { Substring(stream.source, tokenOffset, stream.position) }
    function GetScannerState(): ScannerState reads this { state }
    function GetTokenError(): Option<string> reads this { tokenError }

    /** `enableMultiLineBrackets`: only the flag changes. */
    method EnableMultiLineBrackets()
      modifies this
      ensures multiLineBracket
      ensures state == old(state) && tokenOffset == old(tokenOffset) && tokenType == old(tokenType)
      ensures tokenError == old(tokenError)
    {
      multiLineBracket := true;
    }

    /** `disableMultiLineBrackets`: only the flag changes. */
    method DisableMultiLineBrackets()
      modifies this
      ensures !multiLineBracket
      ensures state == old(state) && tokenOffset == old(tokenOffset) && tokenType == old(tokenType)
      ensures tokenError == old(tokenError)
    {
      multiLineBracket := false;
    }

    method NextComponent() returns (c: string)
      modifies stream
      ensures var n := MatchLength(Component, stream.source, old(stream.position));
        stream.position == old(stream.position) + n && (c == [] <==> n == 0)
    {
      c := stream.AdvanceIfRegExp(Component);
    }

    method NextLiteral() returns (l: string)
      modifies stream
      ensures var n := MatchLength(Quoted, stream.source, old(stream.position));
        stream.position == old(stream.position) + n && (l == [] <==> n == 0)
    {
      l := stream.AdvanceIfRegExp(Quoted);
    }

    /** `finishToken` */
    method FinishToken(offset: nat, t: TokenType, errorMessage: Option<string>) returns (r: TokenType)
      modifies this
      ensures tokenType == t && tokenOffset == offset && tokenError == errorMessage && r == t
      ensures state == old(state) && multiLineBracket == old(multiLineBracket)
    {
      tokenType := t;
      tokenOffset := offset;
      tokenError := errorMessage;
      r := t;
    }

    /** `scan` */
    method Scan() returns (t: TokenType)
      modifies this, stream
      ensures Reports(Step(stream.source, old(state), old(multiLineBracket), old(stream.position)))
      ensures t == tokenType && multiLineBracket == old(multiLineBracket)
    {
      var offset := stream.position;
      t := InternalScan();
      if t != EOS && offset == stream.position {
        stream.Advance(1);
        t := FinishToken(offset, Unknown, None);
      }
    }

    /** `internalScan` */
    method InternalScan() returns (t: TokenType)
      modifies this, stream
      ensures Reports(InternalStep(stream.source, old(state), old(multiLineBracket), old(stream.position)))
      ensures t == tokenType && multiLineBracket == old(multiLineBracket)
    {
      var white := false;
      if SkipsLineBreaks(state) {
        var _ := stream.SkipWhitespace();
      } else {
        white := stream.SkipWitheSpaceWithoutNewLine();
      }
      var offset := stream.position;
      var eos := stream.Eos();
      if eos {
        t := FinishToken(offset, EOS, None);
        return;
      }
      if white {
        t := FinishToken(offset, Divider, None);
        return;
      }
      match state
      case WithinContent =>
        t := ScanContent(offset);
      case WithinComment =>
        t := ScanUntil(offset, "*/", EndComment, Comment);
      case WithinCode =>
        t := ScanUntil(offset, "%}", EndCode, Code);
      case WithinAction =>
        t := ScanAction(offset);
      case WithinPredefined =>
        t := ScanUntil(offset, ">>", EndPredefined, Predefined);
      case WithinStates =>
        t := ScanStates(offset);
    }

    method ScanContent(offset: nat) returns (t: TokenType)
      requires offset == stream.position < |stream.source| && state == WithinContent
      modifies this, stream
      ensures Reports(ContentStep(stream.source, offset)) && t == tokenType
      ensures multiLineBracket == old(multiLineBracket)
    {
      var ch := stream.NextChar();
      if ch == '/' {
        t := ScanSlash(offset);
      } else if ch == '%' {
        t := ScanPercent(offset);
      } else if ch == '<' {
        t := ScanAngle(offset);
      } else if ch in "|{ \n" {
        t := ScanSingle(offset);
      } else if ch == '"' || ch == '\'' {
        stream.GoBack(1);
        var literal := NextLiteral();
        if |literal| > 0 {
          t := FinishToken(offset, Literal, None);
          return;
        }
        stream.Advance(1);
        t := FinishToken(offset, Unknown, None);
      } else {
        stream.GoBack(1);
        t := ScanComponent(offset);
      }
    }

    /** `/` in the WithinContent state: a block comment, a line comment, or the fallback. */
    method ScanSlash(offset: nat) returns (t: TokenType)
      requires offset < |stream.source| && stream.source[offset] == '/'
      requires stream.position == offset + 1 && state == WithinContent
      modifies this, stream
      ensures Reports(ContentStep(stream.source, offset)) && t == tokenType
      ensures multiLineBracket == old(multiLineBracket)
    {
      var b := stream.AdvanceIfChar('*');
      if b {
        state := WithinComment;
        t := FinishToken(offset, StartComment, None);
        return;
      }
      b := stream.AdvanceIfChar('/');
      if b {
        b := stream.AdvanceUntilChar('\n');
        t := FinishToken(offset, Comment, None);
        return;
      }
      stream.GoBack(1);
      t := ScanComponent(offset);
    }

    method ScanPercent(offset: nat) returns (t: TokenType)
      requires offset < |stream.source| && stream.source[offset] == '%'
      requires stream.position == offset + 1 && state == WithinContent
      modifies this, stream
      ensures Reports(PercentStep(stream.source, offset)) && t == tokenType
      ensures multiLineBracket == old(multiLineBracket)
    {
      var b := stream.AdvanceIfChar('%');
      if b {
        t := FinishToken(offset, RulesTag, None);
        return;
      }
      b := stream.AdvanceIfChar('{');
      if b {
        state := WithinCode;
        t := FinishToken(offset, StartCode, None);
        return;
      }
      var option := stream.AdvanceIfRegExp(OptionName);
      if |option| > 0 {
        t := FinishToken(offset, Option, None);
        return;
      }
      t := FinishToken(offset, Percent, None);
    }

    /** `<` in the WithinContent state: `<<` opens predefined text, `<` a list of start states. */
    method ScanAngle(offset: nat) returns (t: TokenType)
      requires offset < |stream.source| && stream.source[offset] == '<'
      requires stream.position == offset + 1 && state == WithinContent
      modifies this, stream
      ensures Reports(ContentStep(stream.source, offset)) && t == tokenType
      ensures multiLineBracket == old(multiLineBracket)
    {
      var b := stream.AdvanceIfChar('<');
      if b {
        state := WithinPredefined;
        t := FinishToken(offset, StartPredefined, None);
        return;
      }
      state := WithinStates;
      t := FinishToken(offset, StartStates, None);
    }

    /** `|`, `{`, a space (the rest of the line is invalid) and a line feed. */
    method ScanSingle(offset: nat) returns (t: TokenType)
      requires offset < |stream.source| && stream.source[offset] in "|{ \n"
      requires stream.position == offset + 1 && state == WithinContent
      modifies this, stream
      ensures Reports(ContentStep(stream.source, offset)) && t == tokenType
      ensures multiLineBracket == old(multiLineBracket)
    {
      var ch := stream.source[offset];
      if ch == '|' {
        t := FinishToken(offset, Bar, None);
      } else if ch == '{' {
        state := WithinAction;
        t := FinishToken(offset, StartAction, None);
      } else if ch == ' ' {
        var _ := stream.AdvanceUntilChar('\n');
        t := FinishToken(offset, Invalid, None);
      } else {
        t := FinishToken(offset, EOL, None);
      }
    }

    /** The fallback of the WithinContent state: a name, or one unknown character. */
    method ScanComponent(offset: nat) returns (t: TokenType)
      requires offset == stream.position < |stream.source| && state == WithinContent
      modifies this, stream
      ensures Reports(ComponentStep(stream.source, offset)) && t == tokenType
      ensures multiLineBracket == old(multiLineBracket)
    {
      var component := NextComponent();
      if |component| > 0 {
        t := FinishToken(offset, Word, None);
        return;
      }
      stream.Advance(1);
      t := FinishToken(offset, Unknown, None);
    }

    /**
     * The comment, code and predefined states: the closing pair `close`
     * ends the state, anything else is text up to it.
     */
    method ScanUntil(offset: nat, close: string, closing: TokenType, text: TokenType) returns (t: TokenType)
      requires offset == stream.position < |stream.source|
      requires (close, closing, text, state) in
        {("*/", EndComment, Comment, WithinComment), ("%}", EndCode, Code, WithinCode),
         (">>", EndPredefined, Predefined, WithinPredefined)}
      modifies this, stream
      ensures var s := stream.source;
        Reports(match old(state)
                case WithinComment => CommentStep(s, offset)
                case WithinCode => CodeStep(s, offset)
                case _ => PredefinedStep(s, offset))
      ensures t == tokenType && multiLineBracket == old(multiLineBracket)
    {
      var b := stream.AdvanceIfChars(close);
      if b {
        state := WithinContent;
        t := FinishToken(offset, closing, None);
        return;
      }
      b := stream.AdvanceUntilChars(close);
      t := FinishToken(offset, text, None);
    }

    method ScanStates(offset: nat) returns (t: TokenType)
      requires offset == stream.position < |stream.source| && state == WithinStates
      modifies this, stream
      ensures Reports(StatesStep(stream.source, offset)) && t == tokenType
      ensures multiLineBracket == old(multiLineBracket)
    {
      var b := stream.AdvanceIfChar('>');
      if b {
        state := WithinContent;
        t := FinishToken(offset, EndStates, None);
        return;
      }
      b := stream.AdvanceUntilChar('>');
      t := FinishToken(offset, States, None);
    }

    /** One turn of the bracket-counting loop; a line feed with multi-line brackets off leaves the action. */
    method ActionChar(brackets: int) returns (depth: int, exit: bool, ch: char)
      requires stream.position <= |stream.source| + 2 && state == WithinAction
      modifies this, stream
      ensures Walk(stream.position, depth, exit) == ActionTick(stream.source, old(stream.position), brackets, multiLineBracket)
      ensures ch == CharAt(stream.source, old(stream.position))
      ensures state == if exit then WithinContent else WithinAction
      ensures multiLineBracket == old(multiLineBracket) && tokenType == old(tokenType)
      ensures tokenOffset == old(tokenOffset) && tokenError == old(tokenError)
    {
      depth, exit := brackets, false;
      ch := stream.NextChar();
      if ch == '{' {
        depth := depth + 1;
      } else if ch == '}' {
        depth := depth - 1;
      } else if ch == '/' {
        SkipActionComment();
      } else if ch == '\'' || ch == '"' {
        stream.GoBack(1);
        var literal := NextLiteral();
        if |literal| == 0 {
          stream.Advance(1);
        }
      } else if ch == '\n' {
        if !multiLineBracket {
          exit := true;
          state := WithinContent;
        }
      }
    }

    /** After a `/` in an action: a block or line comment is passed over whole. */
    method SkipActionComment()
      modifies stream
      ensures var s, p := stream.source, old(stream.position);
        stream.position ==
          if CharAt(s, p) == '*' then IndexOfSeq(s, p + 1, "*/") + 2
          else if CharAt(s, p) == '/' then IndexOfChar(s, p + 1, '\n') + 1
          else p
    {
      var b := stream.AdvanceIfChar('*');
      if b {
        b := stream.AdvanceUntilChars("*/");
        stream.Advance(2);
        return;
      }
      b := stream.AdvanceIfChar('/');
      if b {
        b := stream.AdvanceUntilChar('\n');
        stream.Advance(1);
      }
    }

    method ScanAction(offset: nat) returns (t: TokenType)
      requires offset == stream.position < |stream.source| && state == WithinAction
      modifies this, stream
      ensures Reports(ActionStep(stream.source, offset, multiLineBracket)) && t == tokenType
      ensures multiLineBracket == old(multiLineBracket)
    {
      var b := stream.AdvanceIfChar('}');
      if b {
        state := WithinContent;
        t := FinishToken(offset, EndAction, None);
        return;
      }
      ghost var s := stream.source;
      var exit := false;
      var brackets := 1;
      while !exit && brackets > 0
        invariant stream.position <= |s| + 2 && brackets >= 0
        invariant state == if exit then WithinContent else WithinAction
        invariant ActionLoopFrom(s, stream.position, brackets, exit, multiLineBracket) == ActionLoop(s, offset, 1, multiLineBracket)
        invariant multiLineBracket == old(multiLineBracket)
        decreases |s| + 3 - stream.position
      {
        var ch;
        brackets, exit, ch := ActionChar(brackets);
        if ch == NUL {
          break;
        }
      }
      if brackets > 0 {
        t := FinishToken(offset, Unknown, Some(CodeNotClosed));
        return;
      }
      if !exit {
        stream.GoBack(1);
      }
      t := FinishToken(offset, Action, None);
    }
  }
}

/** What one call of the Lex scanner's `scan` promises. */
module LexScannerFacts {
  import opened Wrappers
  import opened Chars
  import opened Patterns
  import opened LexScanner

  /** The token starts where skipping stopped, and ends at or after it. */
  lemma InternalStepBounds(s: string, st: ScannerState, multi: bool, p: nat)
    ensures var t := InternalStep(s, st, multi, p);
      t.offset == Start(s, st, p) && p <= t.offset <= t.end
  {
  }

  /** Every `scan` but the one at the end of the text moves forward. */
  lemma ScanProgress(s: string, st: ScannerState, multi: bool, p: nat)
    ensures var t := Step(s, st, multi, p);
      p <= t.offset <= t.end && (t.tokenType != EOS ==> t.end > p)
  {
    InternalStepBounds(s, st, multi, p);
  }

  /**
   * A call started at most three characters past the end stays within
   * that bound, and an action is only reported from the WithinAction
   * state, inside the text.
   */
  lemma StepBounds(s: string, st: ScannerState, multi: bool, p: nat)
    requires p <= |s| + 3
    ensures var t := Step(s, st, multi, p);
      && p <= t.offset <= t.end <= |s| + 3
      && (t.tokenType != EOS ==> p < t.end)
      && (t.tokenType == Action ==> st == WithinAction && t.end <= |s|)
  {
    ScanProgress(s, st, multi, p);
  }

  /** `scan` reports the end of the text exactly when nothing but skipped characters is left. */
  lemma EosIffNothingLeft(s: string, st: ScannerState, multi: bool, p: nat)
    ensures Step(s, st, multi, p).tokenType == EOS <==> Start(s, st, p) >= |s|
    ensures Step(s, st, multi, p).tokenType == EOS ==>
      forall k :: p <= k < |s| ==> if SkipsLineBreaks(st) then IsWhitespace(s[k]) else IsBlank(s[k])
  {
    InternalStepBounds(s, st, multi, p);
    if SkipsLineBreaks(st) {
      SkipWhileSpan(s, p, IsWhitespace);
    } else {
      SkipWhileSpan(s, p, IsBlank);
    }
  }

  /**
   * Outside actions, code and comments, a run of blanks before a token is
   * reported as a zero-length `Divider` at the token; line breaks are never
   * part of the run, and the next `scan` reports the token itself.
   */
  lemma DividerIffBlanks(s: string, st: ScannerState, multi: bool, p: nat)
    ensures var t := Step(s, st, multi, p);
      t.tokenType == Divider <==> !SkipsLineBreaks(st) && p < SkipBlanks(s, p) < |s|
    ensures var t := Step(s, st, multi, p);
      t.tokenType == Divider ==>
        && t.offset == t.end == SkipBlanks(s, p) && t.state == st && !IsBlank(s[t.end])
        && (forall k :: p <= k < t.end ==> s[k] != '\n' && s[k] != '\r')
        && Step(s, st, multi, t.end).tokenType != Divider
  {
    InternalStepBounds(s, st, multi, p);
    SkipWhileSpan(s, p, IsBlank);
    var t := Step(s, st, multi, p);
    if t.tokenType == Divider {
      assert SkipBlanks(s, t.end) == t.end;
    }
  }

  /** The `Invalid` branch for a space is unreachable: blanks were skipped before it. */
  lemma NeverInvalid(s: string, st: ScannerState, multi: bool, p: nat)
    ensures Step(s, st, multi, p).tokenType != Invalid
  {
  }

  /** A line feed in the rules or definitions is an end-of-line token. */
  lemma LineFeedIsEol(s: string, multi: bool, p: nat)
    requires p < |s| && s[p] == '\n'
    ensures Step(s, WithinContent, multi, p) == Token(EOL, p, p + 1, WithinContent, None)
  {
    assert SkipBlanks(s, p) == p;
  }

  /** `<<` opens predefined text, a lone `<` a list of start conditions. */
  lemma AngleOpens(s: string, multi: bool, p: nat)
    requires p < |s| && s[p] == '<'
    ensures Step(s, WithinContent, multi, p) ==
      if CharAt(s, p + 1) == '<' then Token(StartPredefined, p, p + 2, WithinPredefined, None)
      else Token(StartStates, p, p + 1, WithinStates, None)
  {
    assert SkipBlanks(s, p) == p;
  }

  /** A `%` in the definitions: `%%`, `%{`, `%name` or a lone `%`. */
  lemma PercentClassification(s: string, multi: bool, p: nat)
    requires p < |s| && s[p] == '%'
    ensures var t := Step(s, WithinContent, multi, p);
      && t.offset == p && t.error == None
      && (t.tokenType == RulesTag <==> CharAt(s, p + 1) == '%')
      && (t.tokenType == StartCode <==> CharAt(s, p + 1) == '{')
      && (t.tokenType == StartCode <==> t.state == WithinCode)
      && (t.tokenType == Percent <==> t.end == p + 1)
      && t.tokenType in {RulesTag, StartCode, Option, Percent}
    ensures var t := Step(s, WithinContent, multi, p);
      t.tokenType == Option ==>
        && p + 1 < t.end <= |s| && Matches(OptionName, s[p + 1..t.end])
        && (t.end == |s| || !(IsWordChar(s[t.end]) || s[t.end] == '-'))
  {
    assert SkipBlanks(s, p) == p;
    if CharAt(s, p + 1) != '%' && CharAt(s, p + 1) != '{' {
      MatchLengthCorrect(OptionName, s, p + 1);
    }
  }

  /** A `Word` token is a longest match of `[a-zA-Z]\w*`. */
  lemma WordIsComponent(s: string, st: ScannerState, multi: bool, p: nat)
    ensures var t := Step(s, st, multi, p);
      t.tokenType == Word ==>
        && st == WithinContent && t.offset < t.end <= |s|
        && Matches(Component, s[t.offset..t.end])
        && (forall k :: t.end < k <= |s| ==> !Matches(Component, s[t.offset..k]))
  {
    var o := Start(s, st, p);
    if o < |s| {
      MatchLengthCorrect(Component, s, o);
    }
  }

  /** A `Literal` token is a whole quoted string. */
  lemma LiteralIsQuoted(s: string, st: ScannerState, multi: bool, p: nat)
    ensures var t := Step(s, st, multi, p);
      t.tokenType == Literal ==> t.offset < t.end <= |s| && Matches(Quoted, s[t.offset..t.end])
  {
    var o := Start(s, st, p);
    if o < |s| {
      MatchLengthCorrect(Quoted, s, o);
    }
  }

  /** The first character of an occurrence of `pat` is the first character of `pat`. */
  lemma MatchesAtHead(s: string, k: int, pat: string)
    requires MatchesAt(s, k, pat) && pat != []
    ensures s[k] == pat[0]
  {
    assert s[k..k + |pat|][0] == s[k];
  }

  /** The text of a start-condition list runs up to `>`, which the next `scan` closes. */
  lemma StatesRunToClose(s: string, multi: bool, p: nat)
    ensures var t := Step(s, WithinStates, multi, p);
      t.tokenType == States ==>
        && t.state == WithinStates && t.offset < t.end
        && (forall k :: t.offset <= k < t.end ==> s[k] != '>')
        && (t.end < |s| ==> Step(s, WithinStates, multi, t.end) == Token(EndStates, t.end, t.end + 1, WithinContent, None))
  {
    var t := Step(s, WithinStates, multi, p);
    if t.tokenType == States && t.end < |s| {
      assert SkipBlanks(s, t.end) == t.end;
    }
  }

  /** Code between `%{` and `%}` runs up to `%}`, which the next `scan` closes. */
  lemma CodeRunsToClose(s: string, multi: bool, p: nat)
    ensures var t := Step(s, WithinCode, multi, p);
      t.tokenType == Code ==>
        && t.state == WithinCode && t.offset < t.end
        && (forall k :: t.offset <= k < t.end ==> !MatchesAt(s, k, "%}"))
        && (t.end < |s| ==> Step(s, WithinCode, multi, t.end) == Token(EndCode, t.end, t.end + 2, WithinContent, None))
  {
    var t := Step(s, WithinCode, multi, p);
    if t.tokenType == Code && t.end < |s| {
      assert t.end == IndexOfSeq(s, Start(s, WithinCode, p), "%}");
      MatchesAtHead(s, t.end, "%}");
      assert SkipWs(s, t.end) == t.end;
    }
  }

  // A block comment runs up to the closing star-slash, which the next `scan` closes.
  lemma CommentRunsToClose(s: string, multi: bool, p: nat)
    ensures var t := Step(s, WithinComment, multi, p);
      t.tokenType == Comment ==>
        && t.state == WithinComment && t.offset < t.end
        && (forall k :: t.offset <= k < t.end ==> !MatchesAt(s, k, "*/"))
        && (t.end < |s| ==> Step(s, WithinComment, multi, t.end) == Token(EndComment, t.end, t.end + 2, WithinContent, None))
  {
    var t := Step(s, WithinComment, multi, p);
    if t.tokenType == Comment && t.end < |s| {
      assert t.end == IndexOfSeq(s, Start(s, WithinComment, p), "*/");
      MatchesAtHead(s, t.end, "*/");
      assert SkipWs(s, t.end) == t.end;
    }
  }

  /** Predefined text after `<<` runs up to `>>`, which the next `scan` closes. */
  lemma PredefinedRunsToClose(s: string, multi: bool, p: nat)
    ensures var t := Step(s, WithinPredefined, multi, p);
      t.tokenType == Predefined ==>
        && t.state == WithinPredefined && t.offset < t.end
        && (forall k :: t.offset <= k < t.end ==> !MatchesAt(s, k, ">>"))
        && (t.end < |s| ==> Step(s, WithinPredefined, multi, t.end) == Token(EndPredefined, t.end, t.end + 2, WithinContent, None))
  {
    var t := Step(s, WithinPredefined, multi, p);
    if t.tokenType == Predefined && t.end < |s| {
      assert t.end == IndexOfSeq(s, Start(s, WithinPredefined, p), ">>");
      MatchesAtHead(s, t.end, ">>");
      assert SkipBlanks(s, t.end) == t.end;
    }
  }

  /**
   * An action's text stops just before the `}` that balances its `{`; the
   * next `scan` reports that brace and leaves the action.
   */
  lemma ActionStopsBeforeBrace(s: string, multi: bool, p: nat)
    ensures var t := Step(s, WithinAction, multi, p);
      t.tokenType == Action ==>
        && t.state == WithinAction && t.offset < t.end < |s| && s[t.end] == '}'
        && Step(s, WithinAction, multi, t.end) == Token(EndAction, t.end, t.end + 1, WithinContent, None)
  {
    var t := Step(s, WithinAction, multi, p);
    if t.tokenType == Action {
      assert SkipWs(s, t.end) == t.end;
    }
  }

  /**
   * With multi-line brackets on, an action never leaves the WithinAction
   * state before its closing brace; with them off, an action still open at
   * a line feed is reported as unclosed code and the scanner goes back to
   * the WithinContent state.
   */
  lemma ActionLineBreaks(s: string, multi: bool, p: nat)
    ensures var t := Step(s, WithinAction, multi, p);
      multi ==> t.tokenType == EndAction || t.state == WithinAction
    ensures var t := Step(s, WithinAction, multi, p);
      t.tokenType != EndAction && t.state == WithinContent ==>
        && !multi && t.tokenType == Unknown && t.error == Some(CodeNotClosed)
        && t.end <= |s| && s[t.end - 1] == '\n'
  {
  }

  /** A quoted literal inside an action is passed over whole: a brace in it is not counted. */
  lemma ActionSkipsLiteral(s: string, p: nat, d: int, multi: bool)
    requires p < |s| && IsQuote(s[p]) && d > 0
    requires MatchLength(Quoted, s, p) > 0
    ensures ActionLoop(s, p, d, multi) == ActionLoopFrom(s, p + MatchLength(Quoted, s, p), d, false, multi)
  {
  }

  /** A block comment inside an action is passed over up to and including its closer. */
  lemma ActionSkipsBlockComment(s: string, p: nat, d: int, multi: bool)
    requires p + 1 < |s| && s[p] == '/' && s[p + 1] == '*' && d > 0
    ensures ActionLoop(s, p, d, multi) == ActionLoopFrom(s, IndexOfSeq(s, p + 2, "*/") + 2, d, false, multi)
  {
  }

  /** A line comment inside an action is passed over up to and including its line feed. */
  lemma ActionSkipsLineComment(s: string, p: nat, d: int, multi: bool)
    requires p + 1 < |s| && s[p] == '/' && s[p + 1] == '/' && d > 0
    ensures ActionLoop(s, p, d, multi) == ActionLoopFrom(s, IndexOfChar(s, p + 2, '\n') + 1, d, false, multi)
  {
  }

  /**
   * Text the bracket loop reads one character at a time: no comment or
   * literal can start in it, no NUL stops it, and, with multi-line
   * brackets off, no line feed ends it.
   */
  predicate Plain(s: string, i: nat, j: nat, multi: bool)
    requires i <= j <= |s|
  {
    forall k :: i <= k < j ==> s[k] != '/' && !IsQuote(s[k]) && s[k] != NUL && (multi || s[k] != '\n')
  }

  /**
   * Over plain text, the loop with `d` brackets open stops just after the
   * `}` at which the bracket count first falls to zero.
   */
  lemma {:induction false} ActionLoopCloses(s: string, p: nat, d: int, multi: bool, e: nat)
    requires p <= e < |s| && d > 0 && Plain(s, p, e + 1, multi)
    requires d + BraceBalance(s, p, e + 1) == 0
    requires forall k :: p < k <= e ==> d + BraceBalance(s, p, k) > 0
    ensures ActionLoop(s, p, d, multi) == Walk(e + 1, 0, false)
    decreases e - p
  {
    assert s[p] != '/' && !IsQuote(s[p]) && s[p] != NUL && (multi || s[p] != '\n');
    assert BraceBalance(s, p + 1, p + 1) == 0;
    var d1 := d + BraceBalance(s, p, p + 1);
    assert ActionTick(s, p, d, multi) == Walk(p + 1, d1, false);
    if e > p {
      var q := p + 1;
      forall k | q < k <= e
        ensures d1 + BraceBalance(s, q, k) > 0
      {
        assert d + BraceBalance(s, p, k) > 0;
      }
      assert d + BraceBalance(s, p, e + 1) == d1 + BraceBalance(s, p + 1, e + 1);
      ActionLoopCloses(s, p + 1, d1, multi, e);
    }
  }

  /** Over plain text whose bracket count never falls to zero, the loop runs past the end with brackets still open. */
  lemma {:induction false} ActionLoopOpen(s: string, p: nat, d: int, multi: bool)
    requires p <= |s| && d > 0 && Plain(s, p, |s|, multi)
    requires forall k :: p < k <= |s| ==> d + BraceBalance(s, p, k) > 0
    ensures ActionLoop(s, p, d, multi) == Walk(|s| + 1, d + BraceBalance(s, p, |s|), false)
    decreases |s| - p
  {
    if p < |s| {
      assert s[p] != '/' && !IsQuote(s[p]) && s[p] != NUL && (multi || s[p] != '\n');
      assert BraceBalance(s, p + 1, p + 1) == 0;
      var d1 := d + BraceBalance(s, p, p + 1);
      assert ActionTick(s, p, d, multi) == Walk(p + 1, d1, false);
      var q := p + 1;
      forall k | q < k <= |s|
        ensures d1 + BraceBalance(s, q, k) > 0
      {
        assert d + BraceBalance(s, p, k) > 0;
      }
      assert d + BraceBalance(s, p, |s|) == d1 + BraceBalance(s, p + 1, |s|);
      ActionLoopOpen(s, p + 1, d1, multi);
    }
  }

  /**
   * With multi-line brackets off, over plain text the loop stops at the
   * first line feed met while brackets are still open, and sets `exit`.
   */
  lemma {:induction false} ActionLoopBreaks(s: string, p: nat, d: int, e: nat)
    requires p <= e < |s| && d > 0 && s[e] == '\n' && Plain(s, p, e, false)
    requires forall k :: p < k <= e ==> d + BraceBalance(s, p, k) > 0
    ensures ActionLoop(s, p, d, false) == Walk(e + 1, d + BraceBalance(s, p, e), true)
    decreases e - p
  {
    if e > p {
      assert s[p] != '/' && !IsQuote(s[p]) && s[p] != NUL && s[p] != '\n';
      assert BraceBalance(s, p + 1, p + 1) == 0;
      var d1 := d + BraceBalance(s, p, p + 1);
      assert ActionTick(s, p, d, false) == Walk(p + 1, d1, false);
      var q := p + 1;
      forall k | q < k <= e
        ensures d1 + BraceBalance(s, q, k) > 0
      {
        assert d + BraceBalance(s, p, k) > 0;
      }
      assert d + BraceBalance(s, p, e) == d1 + BraceBalance(s, p + 1, e);
      ActionLoopBreaks(s, p + 1, d1, e);
    }
  }

  /**
   * An action starting at `p` is the text up to the `}` that balances the
   * opening `{`: the first place where the count of brackets read since
   * the opening one falls to zero.
   */
  lemma ActionEndsAtBalancingBrace(s: string, multi: bool, p: nat, e: nat)
    requires p <= e < |s| && !IsWhitespace(s[p]) && s[p] != '}' && Plain(s, p, e + 1, multi)
    requires 1 + BraceBalance(s, p, e + 1) == 0
    requires forall k :: p < k <= e ==> 1 + BraceBalance(s, p, k) > 0
    ensures Step(s, WithinAction, multi, p) == Token(Action, p, e, WithinAction, None)
  {
    assert SkipWs(s, p) == p;
    ActionLoopCloses(s, p, 1, multi, e);
  }

  /** An action whose brackets never balance before the end of the text is "Code not closed!". */
  lemma ActionUnbalanced(s: string, multi: bool, p: nat)
    requires p < |s| && !IsWhitespace(s[p]) && s[p] != '}' && Plain(s, p, |s|, multi)
    requires forall k :: p < k <= |s| ==> 1 + BraceBalance(s, p, k) > 0
    ensures Step(s, WithinAction, multi, p) == Token(Unknown, p, |s| + 1, WithinAction, Some(CodeNotClosed))
  {
    assert SkipWs(s, p) == p;
    ActionLoopOpen(s, p, 1, multi);
  }

  /**
   * With multi-line brackets off, an action still open at a line feed is
   * "Code not closed!" up to and including that line feed, and the scanner
   * goes back to the WithinContent state.
   */
  lemma ActionBreaksAtLineFeed(s: string, p: nat, e: nat)
    requires p <= e < |s| && !IsWhitespace(s[p]) && s[p] != '}' && s[e] == '\n' && Plain(s, p, e, false)
    requires forall k :: p < k <= e ==> 1 + BraceBalance(s, p, k) > 0
    ensures Step(s, WithinAction, false, p) == Token(Unknown, p, e + 1, WithinContent, Some(CodeNotClosed))
  {
    assert SkipWs(s, p) == p;
    ActionLoopBreaks(s, p, 1, e);
  }

  /** A nested `{ }` pair is passed over: in `a{b}c}` the action runs to the second `}`. */
  lemma NestedBraceExample(multi: bool)
    ensures Step("a{b}c}", WithinAction, multi, 0) == Token(Action, 0, 5, WithinAction, None)
  {
    var s := "a{b}c}";
    assert BraceBalance(s, 5, 6) == -1;
    assert BraceBalance(s, 4, 6) == -1 && BraceBalance(s, 4, 5) == 0;
    assert BraceBalance(s, 3, 6) == -2 && BraceBalance(s, 3, 5) == -1 && BraceBalance(s, 3, 4) == -1;
    assert BraceBalance(s, 2, 5) == -1 && BraceBalance(s, 2, 4) == -1 && BraceBalance(s, 2, 3) == 0;
    assert BraceBalance(s, 1, 5) == 0 && BraceBalance(s, 1, 4) == 0 && BraceBalance(s, 1, 3) == 1 && BraceBalance(s, 1, 2) == 1;
    ActionEndsAtBalancingBrace(s, multi, 0, 5);
  }

  /**
   * Code still open when the text runs out (or a NUL character is read) is
   * reported as an error, and the state stays in the action.
   */
  lemma UnclosedAction(s: string, multi: bool, p: nat)
    ensures var t := Step(s, WithinAction, multi, p);
      t.tokenType == Unknown && t.state == WithinAction ==>
        t.error == Some(CodeNotClosed) && CharAt(s, t.end - 1) == NUL
  {
  }
}
