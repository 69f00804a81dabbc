/**
 * The `%union` field extractor: it reads the body of a `%union` block
 * with the union scanner and collects each declaration up to its `;` as
 * a field (type tokens, field name, source range and a re-indented copy
 * of the declaration's text).
 */
module UnionParser {
  import opened Wrappers
  import opened Chars
  import opened Patterns
  import opened UnionScanner

  // ---------------------------------------------------------------------
  // Lines

  predicate IsBreak(c: char) {
    c == '\n' || c == '\r'
  }

  predicate NoBreak(l: string) {
    forall k :: 0 <= k < |l| ==> !IsBreak(l[k])
  }

  /** `text.split(/\r\n|\r|\n/)`: never empty, and no piece holds a line break. */
  function Lines(t: string): (r: seq<string>)
    ensures |r| >= 1
    ensures forall i :: 0 <= i < |r| ==> NoBreak(r[i])
    decreases |t|
  {
    if t == [] then [""]
    else if t[0] == '\n' then [""] + Lines(t[1..])
    else if t[0] == '\r' then [""] + Lines(if |t| >= 2 && t[1] == '\n' then t[2..] else t[1..])
    else
      var r := Lines(t[1..]);
      assert NoBreak(r[0]);
      [[t[0]] + r[0]] + r[1..]
  }

  /** `lines.join('\n')` */
  function Join(ls: seq<string>): string
    decreases |ls|
  {
    if |ls| == 0 then ""
    else if |ls| == 1 then ls[0]
    else ls[0] + "\n" + Join(ls[1..])
  }

  // ---------------------------------------------------------------------
  // unIndent

  /** `line.indexOf('{') !== -1` raises the indentation by 4 after the line. */
  function Opening(l: string): int {
    if ContainsChar(l, '{') then 4 else 0
  }

  /** `line.indexOf('}') !== -1` lowers the indentation by 4 before the line. */
  function Closing(l: string): int {
    if ContainsChar(l, '}') then 4 else 0
  }

  /** The value of `indent` once the first `i` lines have been handled. */
  function Level(ls: seq<string>, i: nat): int
    requires i <= |ls|
  {
    if i == 0 then 0 else Level(ls, i - 1) - Closing(ls[i - 1]) + Opening(ls[i - 1])
  }

  /** The indentation `unIndent` gives line `i`. */
  function IndentAt(ls: seq<string>, i: nat): int
    requires i < |ls|
  {
    Level(ls, i) - Closing(ls[i])
  }

  /** `n` spaces; none for a count that is not positive. */
  function Spaces(n: int): (r: string)
    ensures |r| == if n > 0 then n else 0
    ensures forall k :: 0 <= k < |r| ==> r[k] == ' '
  {
    if n <= 0 then [] else [' '] + Spaces(n - 1)
  }

  /** `text.split(...).map(line => line.trim())` */
  function Trimmed(t: string): (r: seq<string>)
    ensures |r| == |Lines(t)|
  {
    var ls := Lines(t);
    seq(|ls|, i requires 0 <= i < |ls| => Trim(ls[i]))
  }

  /** Line `i` prefixed by its indentation. */
  function IndentedLine(ls: seq<string>, i: nat): string
    requires i < |ls|
  {
    Spaces(IndentAt(ls, i)) + ls[i]
  }

  /** Each line prefixed by its indentation. */
  function Indented(ls: seq<string>): (r: seq<string>)
    ensures |r| == |ls|
  {
    seq(|ls|, i requires 0 <= i < |ls| => IndentedLine(ls, i))
  }

  /**
   * `unIndent`, where a negative indentation gives no spaces. The code as
   * written throws instead; `UnIndentAsWritten` models that.
   */
  function UnIndented(text: string): string {
    Join(Indented(Trimmed(text)))
  }

  /** `unIndent`: the lines of `text`, trimmed, re-indented and joined again. */
  method UnIndent(text: string) returns (r: string)
    ensures r == UnIndented(text)
  {
    var indented := IndentLines(Trimmed(text));
    r := Join(indented);
  }

  /** The `forEach` of `unIndent`, which updates `indent` line by line. */
  method IndentLines(trimmed: seq<string>) returns (indented: seq<string>)
    ensures indented == Indented(trimmed)
  {
    indented := [];
    var indent := 0;
    for i := 0 to |trimmed|
      invariant indent == Level(trimmed, i) && |indented| == i
      invariant forall k :: 0 <= k < i ==> indented[k] == IndentedLine(trimmed, k)
    {
      var line := trimmed[i];
      if ContainsChar(line, '}') {
        indent := indent - 4;
      }
      assert Spaces(indent) + line == IndentedLine(trimmed, i);
      indented := indented + [Spaces(indent) + line];
      if ContainsChar(line, '{') {
        indent := indent + 4;
      }
    }
  }

  /** `' '.repeat(n)`: a RangeError (`None`) for a negative count. */
  function Repeat(n: int): (r: Option<string>)
    ensures r.Some? <==> n >= 0
    ensures r.Some? ==> r.value == Spaces(n)
  {
    if n < 0 then None else Some(Spaces(n))
  }

  /** The `forEach` of `unIndent` as written, from line `i` with `indent`: it stops at the first RangeError. */
  function IndentFromAsWritten(ls: seq<string>, i: nat, indent: int): Option<seq<string>>
    requires i <= |ls|
    decreases |ls| - i
  {
    if i == |ls| then Some([])
    else
      var before := indent - Closing(ls[i]);
      match Repeat(before)
      case None => None
      case Some(pad) =>
        match IndentFromAsWritten(ls, i + 1, before + Opening(ls[i]))
        case None => None
        case Some(rest) => Some([pad + ls[i]] + rest)
  }

  /** `unIndent` as written; `None` stands for the RangeError it throws. */
  function UnIndentAsWritten(text: string): Option<string> {
    match IndentFromAsWritten(Trimmed(text), 0, 0)
    case None => None
    case Some(ls) => Some(Join(ls))
  }

  // ---------------------------------------------------------------------
  // parse

  /** Where a field's declaration starts and ends in the union's text. */
  datatype Span = Span(start: nat, end: nat)

  /** `YYType`: the type tokens, the field name, the re-indented declaration and its range. */
  datatype Field = Field(types: seq<string>, name: string, info: string, location: Span)

  /** A declaration being accumulated: its tokens so far and the offset of its first word. */
  datatype Pending = Pending(types: seq<string>, start: nat)

  /** The parse loop's variables: the pending declaration, if any, and the fields so far. */
  datatype Progress = Progress(pending: Option<Pending>, fields: seq<Field>)

  /** A pending declaration always holds at least its first word. */
  predicate PendingWf(pr: Progress) {
    pr.pending.Some? ==> pr.pending.value.types != []
  }

  /** The field completed by the token ending at `end`, named `name`, with type tokens `types`. */
  function Complete(text: string, pd: Pending, name: string, types: seq<string>, end: nat): Field {
    Field(types, name, UnIndented(Substring(text, pd.start, end)), Span(pd.start, end))
  }

  /**
   * One turn of the loop of `parse` for the token `t`; `go` is
   * `TargetLanguage == "go"`, which takes the field name from the first
   * token instead of the last.
   */
  function Consume(text: string, go: bool, t: Token, pr: Progress): (r: Progress)
    requires PendingWf(pr)
    ensures PendingWf(r)
  {
    var word := Substring(text, t.offset, t.end);
    match t.tokenType
    case SemiColon =>
      (match pr.pending
       case None => pr
       case Some(pd) =>
         var n := |pd.types|;
         var f :=
           if go then Complete(text, pd, pd.types[0], pd.types[1..], t.end)
           else Complete(text, pd, pd.types[n - 1], pd.types[..n - 1], t.end);
         Progress(None, pr.fields + [f]))
    case Word =>
      (match pr.pending
       case None => Progress(Some(Pending([word], t.offset)), pr.fields)
       case Some(pd) =>
         var ts := pd.types + [word];
         if go && |ts| == 2 then Progress(None, pr.fields + [Complete(text, pd, ts[0], ts[1..], t.end)])
         else Progress(Some(Pending(ts, pd.start)), pr.fields))
    case Asterisk | Ampersand | StartDefinition | EndDefinition =>
      (match pr.pending
       case None => pr
       case Some(pd) => Progress(Some(Pending(pd.types + [word], pd.start)), pr.fields))
    case _ => pr
  }

  /** The loop of `parse` from the token `t` on: the fields it returns. */
  function Run(text: string, go: bool, t: Token, pr: Progress): seq<Field>
    requires t.end <= |text| + 3 && PendingWf(pr)
    decreases |text| + 4 - t.end, if t.tokenType == EOS then 0 else 1
  {
    if t.tokenType == EOS then pr.fields
    else Run(text, go, Step(text, t.state, t.end), Consume(text, go, t, pr))
  }

  /** What `parse(text)` returns with the configured target language. */
  function Fields(text: string, targetLanguage: string): seq<Field> {
    Run(text, targetLanguage == "go", Step(text, WithinContent, 0), Progress(None, []))
  }

  /** One turn of the loop of `parse`: the `switch` on the token. */
  method Handle(text: string, go: bool, t: Token, pending: Option<Pending>, types: seq<Field>)
    returns (pending': Option<Pending>, types': seq<Field>)
    requires PendingWf(Progress(pending, types))
    ensures Progress(pending', types') == Consume(text, go, t, Progress(pending, types))
  {
    pending', types' := pending, types;
    var tokenText := Substring(text, t.offset, t.end);
    match t.tokenType
    case SemiColon =>
      if pending.Some? {
        var pd := pending.value;
        var rest := pd.types;
        var name;
        if go {
          name := rest[0];
          rest := rest[1..];
        } else {
          name := rest[|rest| - 1];
          rest := rest[..|rest| - 1];
        }
        var info := UnIndent(Substring(text, pd.start, t.end));
        types' := types + [Field(rest, name, info, Span(pd.start, t.end))];
        pending' := None;
      }
    case Word =>
      if pending.Some? {
        var pd := pending.value;
        var ts := pd.types + [tokenText];
        if go && |ts| == 2 {
          var info := UnIndent(Substring(text, pd.start, t.end));
          types' := types + [Field(ts[1..], ts[0], info, Span(pd.start, t.end))];
          pending' := None;
        } else {
          pending' := Some(Pending(ts, pd.start));
        }
      } else {
        pending' := Some(Pending([tokenText], t.offset));
      }
    case Asterisk | Ampersand | StartDefinition | EndDefinition =>
      if pending.Some? {
        pending' := Some(Pending(pending.value.types + [tokenText], pending.value.start));
      }
    case _ =>
  }

  /** `parse(text)`, with the configuration value `TargetLanguage` as a parameter. */
  method Parse(text: string, targetLanguage: string) returns (types: seq<Field>)
    ensures types == Fields(text, targetLanguage)
  {
    var scanner := new Scanner(text, 0, WithinContent);
    var go := targetLanguage == "go";
    var token := scanner.Scan();
    var pending: Option<Pending> := None;
    types := [];
    while token != EOS
      invariant scanner.stream.source == text && token == scanner.tokenType
      invariant scanner.stream.position <= |text| + 3 && PendingWf(Progress(pending, types))
      invariant Run(text, go, scanner.Current(), Progress(pending, types)) == Fields(text, targetLanguage)
      decreases |text| + 4 - scanner.stream.position, if token == EOS then 0 else 1
    {
      pending, types := Handle(text, go, scanner.Current(), pending, types);
      token := scanner.Scan();
    }
  }
}

/** What the `%union` field extractor promises. */
module UnionParserFacts {
  import opened Wrappers
  import opened Chars
  import opened Patterns
  import opened UnionScanner
  import opened UnionScannerFacts
  import opened UnionParser

  // ---------------------------------------------------------------------
  // Lines and unIndent

  /** Splitting a line-break-free prefix off: it becomes the head of the first piece. */
  lemma {:induction false} LinesOfBreakFree(l: string, rest: string)
    requires NoBreak(l)
    ensures Lines(l + rest) == [l + Lines(rest)[0]] + Lines(rest)[1..]
    decreases |l|
  {
    if l == [] {
      assert l + rest == rest;
      assert l + Lines(rest)[0] == Lines(rest)[0];
      assert Lines(rest) == [Lines(rest)[0]] + Lines(rest)[1..];
    } else {
      assert (l + rest)[0] == l[0] && (l + rest)[1..] == l[1..] + rest;
      LinesOfBreakFree(l[1..], rest);
      assert [l[0]] + (l[1..] + Lines(rest)[0]) == l + Lines(rest)[0];
    }
  }

  /** Splitting joined break-free lines gives the lines back. */
  lemma {:induction false} LinesOfJoin(ls: seq<string>)
    requires |ls| >= 1 && forall i :: 0 <= i < |ls| ==> NoBreak(ls[i])
    ensures Lines(Join(ls)) == ls
    decreases |ls|
  {
    if |ls| == 1 {
      LinesOfBreakFree(ls[0], "");
      assert ls[0] + "" == ls[0];
    } else {
      var rest := "\n" + Join(ls[1..]);
      assert Join(ls) == ls[0] + rest;
      LinesOfBreakFree(ls[0], rest);
      assert rest[1..] == Join(ls[1..]);
      LinesOfJoin(ls[1..]);
      assert Lines(rest) == [""] + ls[1..];
      assert ls[0] + "" == ls[0];
    }
  }

  /** Leading spaces in front of a trimmed line are all that `trimStart` removes. */
  lemma {:induction false} TrimStartIndented(n: nat, l: string)
    requires l == [] || !IsJsSpace(l[0])
    ensures TrimStart(Spaces(n) + l) == l
    decreases n
  {
    if n > 0 {
      assert Spaces(n) + l == [' '] + (Spaces(n - 1) + l);
      TrimStartIndented(n - 1, l);
    } else {
      assert Spaces(n) + l == l;
    }
  }

  /** No re-indented line holds a line break. */
  lemma IndentedBreakFree(text: string)
    ensures forall i :: 0 <= i < |Lines(text)| ==> NoBreak(Indented(Trimmed(text))[i])
  {
    var ls := Trimmed(text);
    forall i | 0 <= i < |ls|
      ensures NoBreak(Indented(ls)[i])
    {
      var l := Lines(text)[i];
      assert NoBreak(l);
      assert ls[i] == Trim(l);
      var line := Indented(ls)[i];
      assert line == Spaces(IndentAt(ls, i)) + ls[i];
      forall k | 0 <= k < |line|
        ensures !IsBreak(line[k])
      {
        if k >= |Spaces(IndentAt(ls, i))| {
          assert line[k] in Trim(l);
        }
      }
    }
  }

  /** Splitting the output of `unIndent` gives back its re-indented lines. */
  lemma UnIndentLines(text: string)
    ensures Lines(UnIndented(text)) == Indented(Trimmed(text))
  {
    IndentedBreakFree(text);
    LinesOfJoin(Indented(Trimmed(text)));
  }

  /**
   * `unIndent` keeps the number of lines, and each output line is the
   * trimmed input line behind as many spaces as its indentation (none
   * when that is negative).
   */
  lemma UnIndentKeepsLines(text: string)
    ensures |Lines(UnIndented(text))| == |Lines(text)|
    ensures forall i :: 0 <= i < |Lines(text)| ==>
      Lines(UnIndented(text))[i] == Spaces(IndentAt(Trimmed(text), i)) + Trim(Lines(text)[i])
    ensures forall i :: 0 <= i < |Lines(text)| ==>
      TrimStart(Lines(UnIndented(text))[i]) == Trim(Lines(text)[i])
  {
    UnIndentLines(text);
    forall i | 0 <= i < |Lines(text)|
      ensures Indented(Trimmed(text))[i] == Spaces(IndentAt(Trimmed(text), i)) + Trim(Lines(text)[i])
      ensures TrimStart(Indented(Trimmed(text))[i]) == Trim(Lines(text)[i])
    {
      IndentedLineTrims(Trimmed(text), i, Lines(text)[i]);
    }
  }

  /** Line `i` re-indented is the trimmed line `l` behind spaces only. */
  lemma IndentedLineTrims(ls: seq<string>, i: nat, l: string)
    requires i < |ls| && ls[i] == Trim(l)
    ensures Indented(ls)[i] == Spaces(IndentAt(ls, i)) + Trim(l)
    ensures TrimStart(Indented(ls)[i]) == Trim(l)
  {
    var n := IndentAt(ls, i);
    assert Indented(ls)[i] == IndentedLine(ls, i);
    TrimStartIndented(if n > 0 then n else 0, ls[i]);
    assert Spaces(n) == Spaces(if n > 0 then n else 0);
  }

  /** No line from `i` on gets a negative indentation. */
  predicate NeverNegativeFrom(ls: seq<string>, i: nat) {
    forall k :: i <= k < |ls| ==> IndentAt(ls, k) >= 0
  }

  lemma {:induction false} IndentFromAgrees(ls: seq<string>, i: nat)
    requires i <= |ls|
    ensures IndentFromAsWritten(ls, i, Level(ls, i)) ==
      if NeverNegativeFrom(ls, i) then Some(Indented(ls)[i..]) else None
    decreases |ls| - i
  {
    if i == |ls| {
      assert Indented(ls)[i..] == [];
    } else {
      IndentFromAgrees(ls, i + 1);
      assert Level(ls, i + 1) == IndentAt(ls, i) + Opening(ls[i]);
      var before := Level(ls, i) - Closing(ls[i]);
      assert before == IndentAt(ls, i);
      if before >= 0 {
        assert Repeat(before) == Some(Spaces(before));
        if NeverNegativeFrom(ls, i + 1) {
          assert Indented(ls)[i..] == [Spaces(before) + ls[i]] + Indented(ls)[i + 1..];
        } else {
          assert !NeverNegativeFrom(ls, i);
        }
      } else {
        assert !NeverNegativeFrom(ls, i);
      }
    }
  }

  /**
   * `unIndent` as written throws exactly when some line's indentation is
   * negative, and otherwise returns what the corrected `UnIndented` does.
   */
  lemma UnIndentAsWrittenAgrees(text: string)
    ensures UnIndentAsWritten(text) ==
      if NeverNegativeFrom(Trimmed(text), 0) then Some(UnIndented(text)) else None
  {
    IndentFromAgrees(Trimmed(text), 0);
    assert Indented(Trimmed(text))[0..] == Indented(Trimmed(text));
  }

  /**
   * A declaration on one line holding a nested `{ ... }`, such as
   * `s{}x;`, lowers the indentation below zero before its only line, and
   * `' '.repeat(-4)` throws.
   */
  lemma UnIndentNestedOneLine()
    ensures UnIndentAsWritten("s{}x;") == None
  {
    var t := "s{}x;";
    OneLine(t);
    assert t[2] == '}';
    assert Closing(t) == 4;
    assert IndentFromAsWritten([t], 0, 0) == None;
  }

  /** The corrected `unIndent` leaves the same declaration as it is. */
  lemma UnIndentNestedOneLineCorrected()
    ensures UnIndented("s{}x;") == "s{}x;"
  {
    var t := "s{}x;";
    OneLine(t);
    assert t[2] == '}';
    ClosingLineKept(t);
  }

  /** A single line that closes a bracket gets no indentation at all. */
  lemma ClosingLineKept(t: string)
    requires '}' in t
    ensures Indented([t]) == [t]
    ensures Join([t]) == t
  {
    assert IndentAt([t], 0) == -4;
    assert Spaces(-4) + t == t;
    assert Indented([t])[0] == IndentedLine([t], 0);
  }

  /** A text of one line with no white space at its ends is its own trimmed line. */
  lemma OneLine(t: string)
    requires t != [] && NoBreak(t) && !IsJsSpace(t[0]) && !IsJsSpace(t[|t| - 1])
    ensures Trimmed(t) == [t]
  {
    LinesOfBreakFree(t, "");
    assert t + "" == t;
    assert Lines(t) == [t];
    assert TrimStart(t) == t;
    assert TrimEnd(t) == t;
  }

  // ---------------------------------------------------------------------
  // One turn of the parse loop

  /**
   * A `;` with nothing pending is ignored; otherwise it completes exactly
   * one field, ending at the `;`, and nothing is pending afterwards. The
   * field name is the last token (the first under the Go convention) and
   * the other tokens, in order, are its type.
   */
  lemma SemicolonCompletes(text: string, go: bool, t: Token, pr: Progress)
    requires t.tokenType == SemiColon && PendingWf(pr)
    ensures pr.pending.None? ==> Consume(text, go, t, pr) == pr
    ensures pr.pending.Some? ==>
      var r := Consume(text, go, t, pr);
      var pd := pr.pending.value;
      && r.pending == None && |r.fields| == |pr.fields| + 1 && r.fields[..|pr.fields|] == pr.fields
      && var f := r.fields[|pr.fields|];
      && f.location == Span(pd.start, t.end)
      && (if go then [f.name] + f.types == pd.types else f.types + [f.name] == pd.types)
  {
    if pr.pending.Some? {
      var pd := pr.pending.value;
      var n := |pd.types|;
      var f :=
        if go then Complete(text, pd, pd.types[0], pd.types[1..], t.end)
        else Complete(text, pd, pd.types[n - 1], pd.types[..n - 1], t.end);
      assert Consume(text, go, t, pr) == Progress(None, pr.fields + [f]);
      assert (pr.fields + [f])[..|pr.fields|] == pr.fields;
      if go {
        assert [pd.types[0]] + pd.types[1..] == pd.types;
      } else {
        assert pd.types[..n - 1] + [pd.types[n - 1]] == pd.types;
      }
    }
  }

  /**
   * Under the Go convention a field is complete as soon as its second
   * word arrives: the first word is its name and the second its type. The
   * default convention keeps accumulating.
   */
  lemma SecondWord(text: string, go: bool, t: Token, pr: Progress)
    requires t.tokenType == Word && pr.pending.Some? && |pr.pending.value.types| == 1
    ensures var r := Consume(text, go, t, pr);
      var pd := pr.pending.value;
      var word := Substring(text, t.offset, t.end);
      if go then
        r == Progress(None, pr.fields + [Field([word], pd.types[0], UnIndented(Substring(text, pd.start, t.end)), Span(pd.start, t.end))])
      else
        r == Progress(Some(Pending(pd.types + [word], pd.start)), pr.fields)
  {
    var pd := pr.pending.value;
    var word := Substring(text, t.offset, t.end);
    assert (pd.types + [word])[1..] == [word];
  }

  /** `*`, `&` and the braces of a nested definition join the pending declaration, and only that. */
  lemma ModifiersJoinPending(text: string, go: bool, t: Token, pr: Progress)
    requires t.tokenType in {Asterisk, Ampersand, StartDefinition, EndDefinition} && PendingWf(pr)
    ensures var r := Consume(text, go, t, pr);
      && r.fields == pr.fields
      && (pr.pending.None? ==> r.pending == None)
      && (pr.pending.Some? ==>
            r.pending == Some(Pending(pr.pending.value.types + [Substring(text, t.offset, t.end)], pr.pending.value.start)))
  {
  }

  // ---------------------------------------------------------------------
  // The fields of a whole parse

  /** The text holds the name `w` at `k`. */
  predicate WordAt(text: string, k: nat, w: string) {
    Matches(Component, w) && MatchesAt(text, k, w)
  }

  /** The first token of a field's declaration: its name under the Go convention, else its first type token. */
  function FirstWord(f: Field, go: bool): string {
    if go then f.name else (f.types + [f.name])[0]
  }

  /**
   * A field's range is a non-empty range of the text that starts with the
   * declaration's first word, and its `info` is that range re-indented.
   */
  predicate FieldOk(text: string, go: bool, f: Field) {
    && f.location.start < f.location.end <= |text|
    && WordAt(text, f.location.start, FirstWord(f, go))
    && f.info == UnIndented(text[f.location.start..f.location.end])
  }

  /** Every field is well formed, and the fields come in source order without overlapping. */
  predicate FieldsOk(text: string, go: bool, fs: seq<Field>) {
    && (forall i :: 0 <= i < |fs| ==> FieldOk(text, go, fs[i]))
    && (forall i, j :: 0 <= i < j < |fs| ==> fs[i].location.end <= fs[j].location.start)
  }

  /** What holds before the loop consumes token `t`. */
  predicate LoopInv(text: string, go: bool, t: Token, pr: Progress) {
    && PendingWf(pr) && FieldsOk(text, go, pr.fields)
    && (forall i :: 0 <= i < |pr.fields| ==> pr.fields[i].location.end <= t.offset)
    && (pr.pending.Some? ==>
          var pd := pr.pending.value;
          && pd.start < t.offset && WordAt(text, pd.start, pd.types[0])
          && forall i :: 0 <= i < |pr.fields| ==> pr.fields[i].location.end <= pd.start)
  }

  /** A field completed by the token `t` that follows the pending declaration keeps the fields in order. */
  lemma CompleteOk(text: string, go: bool, t: Token, pr: Progress, f: Field, next: Token)
    requires LoopInv(text, go, t, pr) && pr.pending.Some?
    requires t.offset < t.end <= |text| && t.end <= next.offset
    requires f.location == Span(pr.pending.value.start, t.end)
    requires FirstWord(f, go) == pr.pending.value.types[0]
    requires f.info == UnIndented(Substring(text, pr.pending.value.start, t.end))
    ensures LoopInv(text, go, next, Progress(None, pr.fields + [f]))
  {
    var pd := pr.pending.value;
    var fs := pr.fields + [f];
    var m := |pr.fields|;
    assert FieldOk(text, go, f);
    forall i | 0 <= i < |fs|
      ensures FieldOk(text, go, fs[i]) && fs[i].location.end <= next.offset
    {
      if i < m {
        assert fs[i] == pr.fields[i];
      }
    }
    forall i, j | 0 <= i < j < |fs|
      ensures fs[i].location.end <= fs[j].location.start
    {
      assert fs[i] == pr.fields[i];
      if j < m {
        assert fs[j] == pr.fields[j];
      }
    }
  }

  lemma SemicolonKeepsInv(text: string, go: bool, st: ScannerState, p: nat, pr: Progress)
    requires p <= |text| + 3
    requires var t := Step(text, st, p); t.tokenType == SemiColon && LoopInv(text, go, t, pr)
    ensures var t := Step(text, st, p);
      LoopInv(text, go, Step(text, t.state, t.end), Consume(text, go, t, pr))
  {
    var t := Step(text, st, p);
    var next := Step(text, t.state, t.end);
    assert t.end == t.offset + 1 <= |text|;
    if pr.pending.Some? {
      var pd := pr.pending.value;
      var n := |pd.types|;
      var r := Consume(text, go, t, pr);
      var f := r.fields[|pr.fields|];
      SemicolonCompletes(text, go, t, pr);
      assert r.fields == pr.fields + [f];
      if !go {
        assert f.types + [f.name] == pd.types;
        assert FirstWord(f, go) == pd.types[0];
      }
      CompleteOk(text, go, t, pr, f, next);
    }
  }

  lemma WordKeepsInv(text: string, go: bool, st: ScannerState, p: nat, pr: Progress)
    requires p <= |text| + 3
    requires var t := Step(text, st, p); t.tokenType == Word && LoopInv(text, go, t, pr)
    ensures var t := Step(text, st, p);
      LoopInv(text, go, Step(text, t.state, t.end), Consume(text, go, t, pr))
  {
    var t := Step(text, st, p);
    var next := Step(text, t.state, t.end);
    WordIsComponent(text, st, p);
    var word := Substring(text, t.offset, t.end);
    assert word == text[t.offset..t.end];
    assert WordAt(text, t.offset, word);
    if pr.pending.Some? {
      var pd := pr.pending.value;
      var ts := pd.types + [word];
      if go && |ts| == 2 {
        var f := Field(ts[1..], ts[0], UnIndented(Substring(text, pd.start, t.end)), Span(pd.start, t.end));
        assert Consume(text, go, t, pr) == Progress(None, pr.fields + [f]);
        CompleteOk(text, go, t, pr, f, next);
      }
    }
  }

  lemma OtherKeepsInv(text: string, go: bool, st: ScannerState, p: nat, pr: Progress)
    requires p <= |text| + 3
    requires var t := Step(text, st, p);
      t.tokenType != EOS && t.tokenType != Word && t.tokenType != SemiColon && LoopInv(text, go, t, pr)
    ensures var t := Step(text, st, p);
      LoopInv(text, go, Step(text, t.state, t.end), Consume(text, go, t, pr))
  {
  }

  lemma {:induction false} RunOk(text: string, go: bool, st: ScannerState, p: nat, pr: Progress)
    requires p <= |text| + 3 && LoopInv(text, go, Step(text, st, p), pr)
    ensures Step(text, st, p).end <= |text| + 3
    ensures FieldsOk(text, go, Run(text, go, Step(text, st, p), pr))
    decreases |text| + 4 - Step(text, st, p).end, if Step(text, st, p).tokenType == EOS then 0 else 1
  {
    var t := Step(text, st, p);
    if t.tokenType != EOS {
      if t.tokenType == SemiColon {
        SemicolonKeepsInv(text, go, st, p, pr);
      } else if t.tokenType == Word {
        WordKeepsInv(text, go, st, p, pr);
      } else {
        OtherKeepsInv(text, go, st, p, pr);
      }
      RunOk(text, go, t.state, t.end, Consume(text, go, t, pr));
    }
  }

  /**
   * Every field `parse` returns spans a non-empty range of the text that
   * starts at its declaration's first word; its `info` is that range
   * re-indented; and the fields come in source order without overlapping.
   */
  lemma FieldsWellFormed(text: string, targetLanguage: string)
    ensures FieldsOk(text, targetLanguage == "go", Fields(text, targetLanguage))
  {
    RunOk(text, targetLanguage == "go", WithinContent, 0, Progress(None, []));
  }
}
