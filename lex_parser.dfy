/**
 * The parser for Lex/Flex files: one pass over the tokens of the Lex
 * scanner that collects the definitions, the start conditions, the names
 * used in the rules and the embedded C code, then the resolution of those
 * names and the warnings for what is declared and never used.
 *
 * As for the Yacc parser, the functions below give the meaning of the
 * main loop and of the passes on a value `Doc`; the class `LexDocument`
 * holds the same fields, and the methods that update it are proved to
 * leave it as those functions say.
 */
module LexParser {
  import opened Wrappers
  import opened Chars
  import opened Common
  import S = LexScanner
  import LexScannerFacts
  import Utils

  /** `ParserState`; the last two are declared and never entered. */
  datatype ParserState = WaitingDecl | WaitingDef | WaitingOptionParams | WaitingRule | WaitingAction | WithinRules | WithinCode

  /** `ISymbol` */
  datatype Sym = Sym(offset: int, length: int, end: int, name: string, used: bool, definition: Range, references: seq<Range>)

  /** `Code`: a region of embedded C code. */
  datatype Code = Code(offset: int, length: int, end: int)

  /** The fields of `LexDocument`. */
  datatype Doc = Doc(embedded: seq<Code>, rulesRange: Range, defines: Table<Sym>, states: Table<Sym>,
                     components: seq<Sym>, problems: seq<Problem>)

  /**
   * The variables of the main loop that outlive one iteration, and the
   * scanner's multi-line-brackets flag, which the loop switches.
   */
  datatype Locals = Locals(end: int, state: ParserState, codeOffset: int, acceptingStates: bool,
                           lastToken: S.TokenType, isConditionScope: bool, multi: bool)

  /** The document and the loop variables between two iterations. */
  datatype Parsing = Parsing(doc: Doc, loc: Locals)

  /** The two symbol tables `addSymbol` is called on. */
  datatype TableName = DefinesTable | StatesTable

  const AlreadyDeclared := "Symbol was already declared."
  const DeclaredHere := "Was declared here."
  const SpaceAtLineStart := "No white spaces are allowed at the beginning of the line."
  const InvalidPattern := "Invalid definition pattern."
  const NotDeclared := "Symbol not declared."
  const NeverUsed := "Definition declared but never used."

  /** The document before the first token: no rules range yet, everything empty. */
  function Initial(): Doc {
    Doc([], Range(-1, -1), EmptyTable(), EmptyTable(), [], [])
  }

  /** Both tables list their keys once each. */
  ghost predicate TablesValid(d: Doc) {
    d.defines.Valid() && d.states.Valid()
  }

  function TableOf(d: Doc, which: TableName): Table<Sym> {
    match which
    case DefinesTable => d.defines
    case StatesTable => d.states
  }

  function WithTable(d: Doc, which: TableName, t: Table<Sym>): (r: Doc)
    ensures TableOf(r, which) == t
  {
    match which
    case DefinesTable => d.(defines := t)
    case StatesTable => d.(states := t)
  }

  /** `addProblem` */
  function WithProblem(d: Doc, message: string, offset: int, end: int, severity: ProblemType,
                       related: Option<Related>): (r: Doc)
    ensures r.problems == d.problems + [Problem(message, offset, end, severity, related)]
  {
    d.(problems := d.problems + [Problem(message, offset, end, severity, related)])
  }

  /** A name declared at `offset`..`end`: not used yet, referenced at its own range. */
  function NewSym(name: string, offset: int, end: int): Sym {
    Sym(offset, end - offset, end, name, false, Range(offset, end), [Range(offset, end)])
  }

  /** A name used at `offset`..`end`, with no definition until it is resolved. */
  function Occurrence(name: string, offset: int, end: int): Sym {
    Sym(offset, end - offset, end, name, true, Range(-1, -1), [Range(offset, end)])
  }

  /**
   * `addSymbol`: a name already in the table gets an Error pointing at its
   * first declaration, which is kept; a new name is stored, last in key order.
   */
  function SymbolAdded(d: Doc, which: TableName, name: string, offset: int, end: int): (r: Doc)
    ensures var t := TableOf(d, which);
      && (name in t.entries ==>
            r == WithProblem(d, AlreadyDeclared, offset, end, Error,
                             Some(Related(DeclaredHere, t.entries[name].offset, t.entries[name].end))))
      && (name !in t.entries ==>
            && r.problems == d.problems
            && TableOf(r, which).entries == t.entries[name := NewSym(name, offset, end)]
            && TableOf(r, which).keys == t.keys + [name]
            && r == WithTable(d, which, TableOf(r, which)))
    ensures TablesValid(d) ==> TablesValid(r)
  {
    var t := TableOf(d, which);
    if name in t.entries then
      var first := t.entries[name];
      WithProblem(d, AlreadyDeclared, offset, end, Error, Some(Related(DeclaredHere, first.offset, first.end)))
    else WithTable(d, which, t.Set(name, NewSym(name, offset, end)))
  }

  /**
   * `addSymbol` as the code evaluates it: `symbols[name]` on a plain
   * object also finds the members every object inherits, so such a name is
   * reported as already declared and never stored. The related range of
   * that Error has `undefined` offsets; it is modelled as absent.
   */
  function SymbolAddedAsWritten(d: Doc, which: TableName, name: string, offset: int, end: int): (r: Doc)
    ensures name !in TableOf(d, which).entries && name in InheritedMembers ==>
      && TableOf(r, which) == TableOf(d, which)
      && r.problems == d.problems + [Problem(AlreadyDeclared, offset, end, Error, None)]
    ensures name !in InheritedMembers ==> r == SymbolAdded(d, which, name, offset, end)
  {
    if name !in TableOf(d, which).entries && name in InheritedMembers then
      WithProblem(d, AlreadyDeclared, offset, end, Error, None)
    else SymbolAdded(d, which, name, offset, end)
  }

  /** `scanner.getTokenText()` for the token `t`. */
  function TokenText(text: string, t: S.Token): string {
    Substring(text, t.offset, t.end)
  }

  /** `/^[a-zA-Z]\w*$/`: what may name a definition. */
  predicate IsName(s: string) {
    |s| > 0 && IsLetter(s[0]) && forall k :: 1 <= k < |s| ==> IsWordChar(s[k])
  }

  /** `/^\w+$/` */
  predicate IsWord(s: string) {
    |s| > 0 && forall k :: 0 <= k < |s| ==> IsWordChar(s[k])
  }

  /** The embedded code region from the last opening at `codeOffset` to the end of `t`. */
  function CodeUpTo(l: Locals, t: S.Token): Code {
    Code(l.codeOffset, t.end - l.codeOffset, t.end)
  }

  /**
   * The occurrences in the text `s` of a `<...>` list, from `i` on: each
   * maximal run of word characters (a match of `/\w+/g`), placed at
   * `offset` plus its index.
   */
  function StatesOccurrences(s: string, offset: int, i: nat): seq<Sym>
    decreases |s| - i
  {
    if i >= |s| then []
    else if !IsWordChar(s[i]) then StatesOccurrences(s, offset, i + 1)
    else
      var j := SkipWhile(s, i, IsWordChar);
      [Occurrence(s[i..j], offset + i, offset + j)] + StatesOccurrences(s, offset, j)
  }

  /**
   * An occurrence found by a nested parse moved by `k`: its range and its
   * first reference (every occurrence is created with exactly one).
   */
  function Shifted(c: Sym, k: int): Sym {
    c.(offset := c.offset + k, end := c.end + k,
       references := if c.references == [] then [] else [Range(c.references[0].start + k, c.references[0].end + k)] + c.references[1..])
  }

  function ShiftedAll(cs: seq<Sym>, k: int): (r: seq<Sym>)
    ensures |r| == |cs| && forall i :: 0 <= i < |cs| ==> r[i] == Shifted(cs[i], k)
  {
    seq(|cs|, i requires 0 <= i < |cs| => Shifted(cs[i], k))
  }

  /** A code region found by a nested parse moved by `k` (its length is not touched). */
  function ShiftedCode(c: Code, k: int): Code {
    c.(offset := c.offset + k, end := c.end + k)
  }

  function ShiftedCodes(cs: seq<Code>, k: int): (r: seq<Code>)
    ensures |r| == |cs| && forall i :: 0 <= i < |cs| ==> r[i] == ShiftedCode(cs[i], k)
  {
    seq(|cs|, i requires 0 <= i < |cs| => ShiftedCode(cs[i], k))
  }

  /** An `Action` token lies inside the text and does not start it. */
  predicate Inside(text: string, t: S.Token) {
    t.tokenType == S.Action ==> 0 < t.offset <= t.end <= |text|
  }

  // ---------------------------------------------------------------------
  // The main loop

  /**
   * `case ParserState.WaitingDecl`: a word declares a definition and
   * turns multi-line brackets off for its pattern; an option may open a
   * list of start conditions; `%%` starts the rules; blanks at the start
   * of a line are an Error.
   */
  function DeclTurn(text: string, t: S.Token, p: Parsing): (r: Parsing)
    ensures TablesValid(p.doc) ==> TablesValid(r.doc)
    ensures r.doc.components == p.doc.components
    ensures t.tokenType != S.RulesTag ==> r.doc.rulesRange == p.doc.rulesRange && r.loc.end == p.loc.end
  {
    var d, l := p.doc, p.loc;
    match t.tokenType
    case Word =>
      Parsing(SymbolAdded(d, DefinesTable, TokenText(text, t), t.offset, t.end), l.(multi := false, state := WaitingDef))
    case Option =>
      var ch := CharAt(TokenText(text, t), 1);
      Parsing(d, l.(state := WaitingOptionParams, acceptingStates := l.acceptingStates || ch == 's' || ch == 'x'))
    case RulesTag =>
      Parsing(d.(rulesRange := d.rulesRange.(start := t.offset)), l.(state := WaitingRule, end := l.end + 1))
    case Divider =>
      Parsing(WithProblem(d, SpaceAtLineStart, t.offset, t.end, Error, None), l)
    case _ => p
  }

  /**
   * `case ParserState.WaitingDef`: the end of the line ends the pattern
   * and turns multi-line brackets back on; a `{name}` in it is an occurrence.
   */
  function DefTurn(text: string, t: S.Token, p: Parsing): (r: Parsing)
    ensures r.doc.defines == p.doc.defines && r.doc.states == p.doc.states
    ensures r.doc.rulesRange == p.doc.rulesRange && r.loc.end == p.loc.end
  {
    var d, l := p.doc, p.loc;
    match t.tokenType
    case EOL => Parsing(d, l.(state := WaitingDecl, multi := true))
    case Action =>
      var w := TokenText(text, t);
      if IsName(w) then Parsing(d.(components := d.components + [Occurrence(w, t.offset, t.end)]), l) else p
    case _ => p
  }

  /** `case ParserState.WaitingOptionParams`: words are start conditions when the option declares them. */
  function OptionParamsTurn(text: string, t: S.Token, p: Parsing): (r: Parsing)
    ensures TablesValid(p.doc) ==> TablesValid(r.doc)
    ensures r.doc.components == p.doc.components
    ensures r.doc.rulesRange == p.doc.rulesRange && r.loc.end == p.loc.end
  {
    var d, l := p.doc, p.loc;
    match t.tokenType
    case EOL => Parsing(d, l.(state := WaitingDecl, acceptingStates := false))
    case Word =>
      if l.acceptingStates then Parsing(SymbolAdded(d, StatesTable, TokenText(text, t), t.offset, t.end), l) else p
    case _ => p
  }

  /**
   * `case ParserState.WaitingRule`: the names in a `<...>` list are
   * occurrences; a `{` right after a `>` opens a block of rules for those
   * start conditions; blanks lead to the action; `%%` ends the rules.
   */
  function RuleTurn(text: string, t: S.Token, p: Parsing): (r: Parsing)
    requires Inside(text, t)
    ensures r.doc.defines == p.doc.defines && r.doc.states == p.doc.states
    ensures t.tokenType != S.RulesTag ==> r.doc.rulesRange == p.doc.rulesRange && r.loc.end == p.loc.end
    decreases |text|, 1, 0, 0
  {
    var d, l := p.doc, p.loc;
    match t.tokenType
    case States =>
      Parsing(d.(components := d.components + StatesOccurrences(TokenText(text, t), t.offset, 0)), l)
    case StartAction => Parsing(d, l.(isConditionScope := l.lastToken == S.EndStates))
    case Action => RuleActionTurn(text, t, p)
    case Divider => Parsing(d, l.(state := WaitingAction))
    case RulesTag => Parsing(d.(rulesRange := d.rulesRange.(end := t.offset)), l.(end := l.end + 1))
    case _ => p
  }

  /**
   * An action in the rules section: `{word}` is an occurrence; the block
   * of a start-condition scope is parsed again on its own as rules, and its
   * occurrences and code regions, moved to where the block starts, are
   * added (its problems are dropped); anything else is an Error.
   */
  function RuleActionTurn(text: string, t: S.Token, p: Parsing): (r: Parsing)
    requires t.tokenType == S.Action && Inside(text, t)
    ensures r.loc == p.loc && r.doc.rulesRange == p.doc.rulesRange
    ensures r.doc.defines == p.doc.defines && r.doc.states == p.doc.states
    decreases |text|, 0, 0, 0
  {
    var d, l := p.doc, p.loc;
    var w := TokenText(text, t);
    if IsWord(w) then Parsing(d.(components := d.components + [Occurrence(w, t.offset, t.end)]), l)
    else if l.isConditionScope then
      assert |w| < |text|;
      var sub := Parsed(w, WaitingRule);
      Parsing(d.(components := d.components + ShiftedAll(sub.components, t.offset),
                 embedded := d.embedded + ShiftedCodes(sub.embedded, t.offset)), l)
    else Parsing(WithProblem(d, InvalidPattern, t.offset, t.end, Error, None), l)
  }

  /** `case ParserState.WaitingAction`: the action's code regions, until the end of the line or a `|`. */
  function ActionTurn(t: S.Token, p: Parsing): (r: Parsing)
    ensures r.doc.defines == p.doc.defines && r.doc.states == p.doc.states && r.doc.components == p.doc.components
    ensures r.doc.rulesRange == p.doc.rulesRange && r.loc.end == p.loc.end
  {
    var d, l := p.doc, p.loc;
    match t.tokenType
    case EOL | Bar => Parsing(d, l.(state := WaitingRule))
    case StartAction => Parsing(d, l.(codeOffset := t.offset))
    case EndAction => Parsing(d.(embedded := d.embedded + [CodeUpTo(l, t)]), l)
    case _ => p
  }

  /** The `switch (state)`. */
  function Switch(text: string, t: S.Token, p: Parsing): (r: Parsing)
    requires Inside(text, t)
    ensures TablesValid(p.doc) ==> TablesValid(r.doc)
    ensures t.tokenType != S.RulesTag ==> r.doc.rulesRange == p.doc.rulesRange && r.loc.end == p.loc.end
    decreases |text|, 2, 0, 0
  {
    match p.loc.state
    case WaitingDecl => DeclTurn(text, t, p)
    case WaitingDef => DefTurn(text, t, p)
    case WaitingOptionParams => OptionParamsTurn(text, t, p)
    case WaitingRule => RuleTurn(text, t, p)
    case WaitingAction => ActionTurn(t, p)
    case WithinRules | WithinCode => p
  }

  /** The tokens the main loop passes over before looking at the state: code text and comments. */
  predicate Passed(tt: S.TokenType) {
    tt == S.Code || tt == S.StartComment || tt == S.EndComment || tt == S.Comment
  }

  /**
   * One iteration of the main loop: `%{ ... %}` code is recorded whatever
   * the state, comments and code text are passed over, and every other
   * token goes through the state switch and becomes the last token.
   */
  function Turn(text: string, t: S.Token, p: Parsing): (r: Parsing)
    requires Inside(text, t)
    ensures TablesValid(p.doc) ==> TablesValid(r.doc)
    ensures t.tokenType != S.RulesTag ==> r.doc.rulesRange == p.doc.rulesRange && r.loc.end == p.loc.end
    decreases |text|, 3, 0, 0
  {
    if t.tokenType == S.StartCode then Parsing(p.doc, p.loc.(codeOffset := t.offset))
    else if t.tokenType == S.EndCode then Parsing(p.doc.(embedded := p.doc.embedded + [CodeUpTo(p.loc, t)]), p.loc)
    else if Passed(t.tokenType) then p
    else
      var r := Switch(text, t, p);
      Parsing(r.doc, r.loc.(lastToken := t.tokenType))
  }

  /** The main loop from the token `t` on: it stops at the end of the text or at the second `%%`. */
  function Run(text: string, t: S.Token, p: Parsing): Parsing
    requires t.end <= |text| + 3 && Inside(text, t) && (t.tokenType != S.EOS ==> 0 < t.end)
    decreases |text|, 4, |text| + 4 - t.end, if t.tokenType == S.EOS then 0 else 1
  {
    if p.loc.end >= 0 || t.tokenType == S.EOS then p
    else
      var q := Turn(text, t, p);
      LexScannerFacts.StepBounds(text, t.state, q.loc.multi, t.end);
      Run(text, S.Step(text, t.state, q.loc.multi, t.end), q)
  }

  /** The loop variables before the first iteration, `first` being the first token. */
  function Start(state: ParserState, first: S.TokenType): Locals {
    Locals(-2, state, 0, false, first, false, true)
  }

  /** The document and loop variables after the main loop of `parse(text, state)`. */
  function MainLoop(text: string, state: ParserState): Parsing
    decreases |text|, 5, 0, 0
  {
    var first := S.Step(text, S.WithinContent, true, 0);
    LexScannerFacts.StepBounds(text, S.WithinContent, true, 0);
    Run(text, first, Parsing(Initial(), Start(state, first.tokenType)))
  }

  /** `parse(text, state)` */
  function Parsed(text: string, state: ParserState): Doc
    decreases |text|, 6, 0, 0
  {
    Checked(MainLoop(text, state).doc)
  }

  // ---------------------------------------------------------------------
  // The passes after the main loop

  /**
   * Component `i` takes the definition and the references of the entry of
   * `which` with its name; the entry is used and gains the component's range.
   */
  function AsDeclared(d: Doc, i: nat, which: TableName): (r: Doc)
    requires i < |d.components| && d.components[i].name in TableOf(d, which).entries
    ensures |r.components| == |d.components| && r.components == d.components[i := r.components[i]]
    ensures r.problems == d.problems && r.embedded == d.embedded && r.rulesRange == d.rulesRange
    ensures r.defines.entries.Keys == d.defines.entries.Keys && r.states.entries.Keys == d.states.entries.Keys
    ensures TablesValid(d) ==> TablesValid(r)
  {
    var c := d.components[i];
    var t := TableOf(d, which);
    var s := t.entries[c.name];
    var refs := s.references + [Range(c.offset, c.end)];
    WithTable(d.(components := d.components[i := c.(definition := s.definition, references := refs)]),
              which, t.Set(c.name, s.(references := refs, used := true)))
  }

  /** Component `i` resolved against the definitions, else the start conditions, else reported. */
  function ResolveOne(d: Doc, i: nat): (r: Doc)
    requires i < |d.components|
    ensures r.embedded == d.embedded && r.rulesRange == d.rulesRange
    ensures |r.components| == |d.components| && r.components == d.components[i := r.components[i]]
    ensures r.defines.entries.Keys == d.defines.entries.Keys && r.states.entries.Keys == d.states.entries.Keys
    ensures TablesValid(d) ==> TablesValid(r)
  {
    var c := d.components[i];
    if c.name in d.defines.entries then AsDeclared(d, i, DefinesTable)
    else if c.name in d.states.entries then AsDeclared(d, i, StatesTable)
    else WithProblem(d, NotDeclared, c.offset, c.end, Error, None)
  }

  /**
   * The lookup as the code evaluates it: a name only inherited by plain
   * objects is found, and reading `references` of what is found throws a
   * TypeError (none here).
   */
  function ResolveOneAsWritten(d: Doc, i: nat): (r: Option<Doc>)
    requires i < |d.components|
    ensures r.None? <==> d.components[i].name !in d.defines.entries && d.components[i].name in InheritedMembers
    ensures r.Some? ==> r.value == ResolveOne(d, i) || d.components[i].name in InheritedMembers
  {
    var c := d.components[i];
    if c.name !in d.defines.entries && c.name in InheritedMembers then None
    else Some(ResolveOne(d, i))
  }

  /** The first `n` components resolved in order. */
  function ResolveUpTo(d: Doc, n: nat): (r: Doc)
    requires n <= |d.components|
    ensures r.embedded == d.embedded && r.rulesRange == d.rulesRange
    ensures |r.components| == |d.components| && forall j :: n <= j < |d.components| ==> r.components[j] == d.components[j]
    ensures r.defines.entries.Keys == d.defines.entries.Keys && r.states.entries.Keys == d.states.entries.Keys
    ensures TablesValid(d) ==> TablesValid(r)
  {
    if n == 0 then d else ResolveOne(ResolveUpTo(d, n - 1), n - 1)
  }

  /** The Warning for a declaration never used. */
  function UnusedWarning(s: Sym): Problem {
    Problem(NeverUsed, s.offset, s.end, Warning, None)
  }

  /** The Warnings for the unused entries among the first `n` keys of `t`, in key order. */
  function UnusedWarnings(t: Table<Sym>, n: nat): seq<Problem>
    requires n <= |t.keys|
  {
    if n == 0 then []
    else
      var k := t.keys[n - 1];
      UnusedWarnings(t, n - 1) + (if k in t.entries && !t.entries[k].used then [UnusedWarning(t.entries[k])] else [])
  }

  function Resolved(d: Doc): Doc {
    ResolveUpTo(d, |d.components|)
  }

  /** The unused definitions, then the unused start conditions, reported. */
  function UnusedReported(d: Doc): Doc {
    d.(problems := d.problems + UnusedWarnings(d.defines, |d.defines.keys|) + UnusedWarnings(d.states, |d.states.keys|))
  }

  /** The two passes after the main loop. */
  function Checked(d: Doc): Doc {
    UnusedReported(Resolved(d))
  }

  // ---------------------------------------------------------------------
  // The document

  /** The comparator `getEmbeddedCode` hands to `binarySearch`. */
  function CompareCode(c: Code, offset: int): int {
    if offset < c.offset then 1 else if offset > c.end then -1 else 0
  }

  /** `LexDocument`, whose fields the parse fills in place. */
  class LexDocument {
    var embedded: seq<Code>
    var rulesRange: Range
    var defines: Table<Sym>
    var states: Table<Sym>
    var components: seq<Sym>
    var problems: seq<Problem>

    /** The document's fields as a value. */
    function Snapshot(): Doc
      reads this
    {
      Doc(embedded, rulesRange, defines, states, components, problems)
    }

    constructor ()
      ensures Snapshot() == Initial()
    {
      embedded, components, problems := [], [], [];
      rulesRange := Range(-1, -1);
      defines, states := EmptyTable(), EmptyTable();
    }

    /** `addProblem` */
    method AddProblem(message: string, offset: int, end: int, severity: ProblemType, related: Option<Related>)
      modifies this
      ensures Snapshot() == WithProblem(old(Snapshot()), message, offset, end, severity, related)
    {
      problems := problems + [Problem(message, offset, end, severity, related)];
    }

    /** `addSymbol` on the table `which`. */
    method AddSymbol(which: TableName, name: string, offset: int, end: int)
      modifies this
      ensures Snapshot() == SymbolAdded(old(Snapshot()), which, name, offset, end)
    {
      var table := if which == DefinesTable then defines else states;
      if name in table.entries {
        var first := table.entries[name];
        AddProblem(AlreadyDeclared, offset, end, Error, Some(Related(DeclaredHere, first.offset, first.end)));
      } else if which == DefinesTable {
        defines := defines.Set(name, NewSym(name, offset, end));
      } else {
        states := states.Set(name, NewSym(name, offset, end));
      }
    }

    /** `getEmbeddedCode`: a code region containing `offset`, found by binary search. */
    method GetEmbeddedCode(offset: int) returns (r: Option<Code>)
      ensures r.Some? ==> r.value in embedded && r.value.offset <= offset <= r.value.end
      ensures r.None? && Utils.OrderedFor(embedded, offset, CompareCode) ==>
        forall c :: c in embedded ==> !(c.offset <= offset <= c.end)
    {
      r := Utils.BinarySearch(embedded, offset, CompareCode);
    }
  }

  // ---------------------------------------------------------------------
  // `parse`

  /** `parse(text, state)`: the main loop, then the passes, on a new document. */
  method Parse(text: string, state: ParserState) returns (doc: LexDocument)
    ensures doc.Snapshot() == Parsed(text, state)
    decreases |text|, 6, 0, 0
  {
    doc := new LexDocument();
    MainLoopOver(doc, text, state);
    MainLoopKeepsTables(text, state);
    CheckDocument(doc);
  }

  /** The passes after the main loop, in the order `parse` runs them. */
  method CheckDocument(doc: LexDocument)
    requires TablesValid(doc.Snapshot())
    modifies doc
    ensures doc.Snapshot() == Checked(old(doc.Snapshot()))
  {
    ResolveComponents(doc);
    ghost var d1 := doc.Snapshot();
    ReportUnused(doc, DefinesTable);
    ghost var d2 := doc.Snapshot();
    ReportUnused(doc, StatesTable);
    assert d1.problems + UnusedWarnings(d1.defines, |d1.defines.keys|) + UnusedWarnings(d1.states, |d1.states.keys|)
        == d2.problems + UnusedWarnings(d1.states, |d1.states.keys|);
  }


  /** The main loop of `parse`: scan, and handle each token, until the end or the second `%%`. */
  method MainLoopOver(doc: LexDocument, text: string, state: ParserState)
    requires doc.Snapshot() == Initial()
    modifies doc
    ensures doc.Snapshot() == MainLoop(text, state).doc
    decreases |text|, 5, 0, 0
  {
    var scanner := new S.Scanner(text, 0, S.WithinContent);
    var token := scanner.Scan();
    LexScannerFacts.StepBounds(text, S.WithinContent, true, 0);
    var loc := Start(state, token);
    while loc.end < 0 && token != S.EOS
      invariant scanner.stream.source == text && token == scanner.tokenType
      invariant scanner.multiLineBracket == loc.multi
      invariant scanner.stream.position <= |text| + 3 && Inside(text, scanner.Current())
      invariant token != S.EOS ==> 0 < scanner.stream.position
      invariant Run(text, scanner.Current(), Parsing(doc.Snapshot(), loc)) == MainLoop(text, state)
      decreases |text| + 4 - scanner.stream.position, if token == S.EOS then 0 else 1
    {
      loc := Handle(doc, scanner, text, scanner.Current(), loc);
      LexScannerFacts.StepBounds(text, scanner.state, scanner.multiLineBracket, scanner.stream.position);
      token := scanner.Scan();
    }
  }

  /**
   * One iteration of the main loop on the token `t`. The scanner is
   * passed for its multi-line-brackets flag, the only part of it a turn
   * changes.
   */
  method Handle(doc: LexDocument, scanner: S.Scanner, text: string, t: S.Token, loc: Locals) returns (loc': Locals)
    requires Inside(text, t) && scanner.multiLineBracket == loc.multi
    modifies doc, scanner
    ensures Parsing(doc.Snapshot(), loc') == Turn(text, t, Parsing(old(doc.Snapshot()), loc))
    ensures scanner.Current() == old(scanner.Current()) && scanner.multiLineBracket == loc'.multi
    decreases |text|, 4, 0, 0
  {
    if t.tokenType == S.StartCode {
      loc' := loc.(codeOffset := t.offset);
    } else if t.tokenType == S.EndCode {
      doc.embedded := doc.embedded + [CodeUpTo(loc, t)];
      loc' := loc;
    } else if Passed(t.tokenType) {
      loc' := loc;
    } else {
      loc' := HandleSwitch(doc, scanner, text, t, loc);
      loc' := loc'.(lastToken := t.tokenType);
    }
  }

  /** The `switch (state)`. */
  method HandleSwitch(doc: LexDocument, scanner: S.Scanner, text: string, t: S.Token, loc: Locals) returns (loc': Locals)
    requires Inside(text, t) && scanner.multiLineBracket == loc.multi
    modifies doc, scanner
    ensures Parsing(doc.Snapshot(), loc') == Switch(text, t, Parsing(old(doc.Snapshot()), loc))
    ensures scanner.Current() == old(scanner.Current()) && scanner.multiLineBracket == loc'.multi
    decreases |text|, 3, 0, 0
  {
    match loc.state {
      case WaitingDecl => loc' := HandleDecl(doc, scanner, text, t, loc);
      case WaitingDef => loc' := HandleDef(doc, scanner, text, t, loc);
      case WaitingOptionParams => loc' := HandleOptionParams(doc, text, t, loc);
      case WaitingRule => loc' := HandleRule(doc, text, t, loc);
      case WaitingAction => loc' := HandleAction(doc, t, loc);
      case WithinRules | WithinCode => loc' := loc;
    }
  }

  /** `case ParserState.WaitingDecl` */
  method HandleDecl(doc: LexDocument, scanner: S.Scanner, text: string, t: S.Token, loc: Locals) returns (loc': Locals)
    requires scanner.multiLineBracket == loc.multi
    modifies doc, scanner
    ensures Parsing(doc.Snapshot(), loc') == DeclTurn(text, t, Parsing(old(doc.Snapshot()), loc))
    ensures scanner.Current() == old(scanner.Current()) && scanner.multiLineBracket == loc'.multi
  {
    loc' := loc;
    match t.tokenType {
      case Word =>
        doc.AddSymbol(DefinesTable, TokenText(text, t), t.offset, t.end);
        scanner.DisableMultiLineBrackets();
        loc' := loc.(multi := false, state := WaitingDef);
      case Option =>
        var ch := CharAt(TokenText(text, t), 1);
        loc' := loc.(state := WaitingOptionParams, acceptingStates := loc.acceptingStates || ch == 's' || ch == 'x');
      case RulesTag =>
        loc' := loc.(state := WaitingRule, end := loc.end + 1);
        doc.rulesRange := doc.rulesRange.(start := t.offset);
      case Divider =>
        doc.AddProblem(SpaceAtLineStart, t.offset, t.end, Error, None);
      case _ =>
    }
  }

  /** `case ParserState.WaitingDef` */
  method HandleDef(doc: LexDocument, scanner: S.Scanner, text: string, t: S.Token, loc: Locals) returns (loc': Locals)
    requires scanner.multiLineBracket == loc.multi
    modifies doc, scanner
    ensures Parsing(doc.Snapshot(), loc') == DefTurn(text, t, Parsing(old(doc.Snapshot()), loc))
    ensures scanner.Current() == old(scanner.Current()) && scanner.multiLineBracket == loc'.multi
  {
    loc' := loc;
    match t.tokenType {
      case EOL =>
        loc' := loc.(state := WaitingDecl, multi := true);
        scanner.EnableMultiLineBrackets();
      case Action =>
        var tokenText := TokenText(text, t);
        if IsName(tokenText) {
          doc.components := doc.components + [Occurrence(tokenText, t.offset, t.end)];
        }
      case _ =>
    }
  }

  /** `case ParserState.WaitingOptionParams` */
  method HandleOptionParams(doc: LexDocument, text: string, t: S.Token, loc: Locals) returns (loc': Locals)
    modifies doc
    ensures Parsing(doc.Snapshot(), loc') == OptionParamsTurn(text, t, Parsing(old(doc.Snapshot()), loc))
  {
    loc' := loc;
    match t.tokenType {
      case EOL =>
        loc' := loc.(state := WaitingDecl, acceptingStates := false);
      case Word =>
        if loc.acceptingStates {
          doc.AddSymbol(StatesTable, TokenText(text, t), t.offset, t.end);
        }
      case _ =>
    }
  }

  /** `case ParserState.WaitingRule` */
  method HandleRule(doc: LexDocument, text: string, t: S.Token, loc: Locals) returns (loc': Locals)
    requires Inside(text, t)
    modifies doc
    ensures Parsing(doc.Snapshot(), loc') == RuleTurn(text, t, Parsing(old(doc.Snapshot()), loc))
    decreases |text|, 2, 0, 0
  {
    loc' := loc;
    match t.tokenType {
      case States =>
        PushStatesOccurrences(doc, TokenText(text, t), t.offset);
      case StartAction =>
        loc' := loc.(isConditionScope := loc.lastToken == S.EndStates);
      case Action =>
        HandleRuleAction(doc, text, t, loc);
      case Divider =>
        loc' := loc.(state := WaitingAction);
      case RulesTag =>
        loc' := loc.(end := loc.end + 1);
        doc.rulesRange := doc.rulesRange.(end := t.offset);
      case _ =>
    }
  }

  /** The `while` over the matches of `/\w+/g` in the text `s` of a `<...>` list, each pushed as a component. */
  method PushStatesOccurrences(doc: LexDocument, s: string, offset: int)
    modifies doc
    ensures doc.Snapshot() == old(doc.Snapshot()).(components := old(doc.components) + StatesOccurrences(s, offset, 0))
  {
    ghost var d0 := doc.Snapshot();
    var i := 0;
    while i < |s|
      invariant i <= |s|
      invariant doc.Snapshot() == d0.(components := doc.components)
      invariant doc.components + StatesOccurrences(s, offset, i) == d0.components + StatesOccurrences(s, offset, 0)
      decreases |s| - i
    {
      if IsWordChar(s[i]) {
        var j := i;
        while j < |s| && IsWordChar(s[j])
          invariant i <= j <= |s|
          invariant SkipWhile(s, j, IsWordChar) == SkipWhile(s, i, IsWordChar)
          decreases |s| - j
        {
          j := j + 1;
        }
        var found := Occurrence(s[i..j], offset + i, offset + j);
        assert StatesOccurrences(s, offset, i) == [found] + StatesOccurrences(s, offset, j);
        doc.components := doc.components + [found];
        i := j;
      } else {
        i := i + 1;
      }
    }
  }

  /** An action in the rules section. */
  method HandleRuleAction(doc: LexDocument, text: string, t: S.Token, loc: Locals)
    requires t.tokenType == S.Action && Inside(text, t)
    modifies doc
    ensures Parsing(doc.Snapshot(), loc) == RuleActionTurn(text, t, Parsing(old(doc.Snapshot()), loc))
    decreases |text|, 1, 0, 0
  {
    var tokenText := TokenText(text, t);
    if IsWord(tokenText) {
      doc.components := doc.components + [Occurrence(tokenText, t.offset, t.end)];
    } else if loc.isConditionScope {
      assert |tokenText| < |text|;
      var recursive := Parse(tokenText, WaitingRule);
      var components, embedded := recursive.components, recursive.embedded;
      PushShifted(doc, components, t.offset);
      PushShiftedCodes(doc, embedded, t.offset);
    } else {
      doc.AddProblem(InvalidPattern, t.offset, t.end, Error, None);
    }
  }

  /** The `forEach` over the nested parse's components: each moved by `k` and pushed. */
  method PushShifted(doc: LexDocument, cs: seq<Sym>, k: int)
    modifies doc
    ensures doc.Snapshot() == old(doc.Snapshot()).(components := old(doc.components) + ShiftedAll(cs, k))
  {
    ghost var d0 := doc.Snapshot();
    for i := 0 to |cs|
      invariant doc.Snapshot() == d0.(components := d0.components + ShiftedAll(cs[..i], k))
    {
      var c := cs[i];
      var refs := c.references;
      if refs != [] {
        refs := [Range(refs[0].start + k, refs[0].end + k)] + refs[1..];
      }
      doc.components := doc.components + [c.(offset := c.offset + k, end := c.end + k, references := refs)];
      assert ShiftedAll(cs[..i + 1], k) == ShiftedAll(cs[..i], k) + [Shifted(cs[i], k)];
    }
    assert cs[..|cs|] == cs;
  }

  /** The `forEach` over the nested parse's code regions: each moved by `k` and pushed. */
  method PushShiftedCodes(doc: LexDocument, cs: seq<Code>, k: int)
    modifies doc
    ensures doc.Snapshot() == old(doc.Snapshot()).(embedded := old(doc.embedded) + ShiftedCodes(cs, k))
  {
    ghost var d0 := doc.Snapshot();
    for i := 0 to |cs|
      invariant doc.Snapshot() == d0.(embedded := d0.embedded + ShiftedCodes(cs[..i], k))
    {
      var code := cs[i];
      doc.embedded := doc.embedded + [code.(offset := code.offset + k, end := code.end + k)];
      assert ShiftedCodes(cs[..i + 1], k) == ShiftedCodes(cs[..i], k) + [ShiftedCode(cs[i], k)];
    }
    assert cs[..|cs|] == cs;
  }

  /** `case ParserState.WaitingAction` */
  method HandleAction(doc: LexDocument, t: S.Token, loc: Locals) returns (loc': Locals)
    modifies doc
    ensures Parsing(doc.Snapshot(), loc') == ActionTurn(t, Parsing(old(doc.Snapshot()), loc))
  {
    loc' := loc;
    match t.tokenType {
      case EOL | Bar =>
        loc' := loc.(state := WaitingRule);
      case StartAction =>
        loc' := loc.(codeOffset := t.offset);
      case EndAction =>
        doc.embedded := doc.embedded + [CodeUpTo(loc, t)];
      case _ =>
    }
  }

  /** The resolution loop over the components. */
  method ResolveComponents(doc: LexDocument)
    modifies doc
    ensures doc.Snapshot() == Resolved(old(doc.Snapshot()))
  {
    ghost var d0 := doc.Snapshot();
    for i := 0 to |doc.components|
      invariant doc.Snapshot() == ResolveUpTo(d0, i)
    {
      ResolveComponent(doc, i);
    }
  }

  /** Component `i` looked up in the definitions, then in the start conditions. */
  method ResolveComponent(doc: LexDocument, i: nat)
    requires i < |doc.components|
    modifies doc
    ensures doc.Snapshot() == ResolveOne(old(doc.Snapshot()), i)
  {
    var component := doc.components[i];
    var here := Range(component.offset, component.end);
    if component.name in doc.defines.entries {
      var symbol := doc.defines.entries[component.name];
      var refs := symbol.references + [here];
      doc.components := doc.components[i := component.(definition := symbol.definition, references := refs)];
      doc.defines := doc.defines.Set(component.name, symbol.(references := refs, used := true));
    } else if component.name in doc.states.entries {
      var symbol := doc.states.entries[component.name];
      var refs := symbol.references + [here];
      doc.components := doc.components[i := component.(definition := symbol.definition, references := refs)];
      doc.states := doc.states.Set(component.name, symbol.(references := refs, used := true));
    } else {
      doc.AddProblem(NotDeclared, component.offset, component.end, Error, None);
    }
  }

  /** The `forEach` over the keys of `which` reporting the entries never used. */
  method ReportUnused(doc: LexDocument, which: TableName)
    requires TableOf(doc.Snapshot(), which).Valid()
    modifies doc
    ensures var d0 := old(doc.Snapshot());
      doc.Snapshot() == d0.(problems := d0.problems + UnusedWarnings(TableOf(d0, which), |TableOf(d0, which).keys|))
  {
    var table := if which == DefinesTable then doc.defines else doc.states;
    ghost var d0 := doc.Snapshot();
    assert table == TableOf(d0, which);
    for i := 0 to |table.keys|
      invariant doc.Snapshot() == d0.(problems := d0.problems + UnusedWarnings(table, i))
    {
      var component := table.entries[table.keys[i]];
      if !component.used {
        doc.AddProblem(NeverUsed, component.offset, component.end, Warning, None);
      }
    }
  }

  /** The main loop keeps the tables well formed. */
  lemma {:induction false} RunKeepsTables(text: string, t: S.Token, p: Parsing)
    requires t.end <= |text| + 3 && Inside(text, t) && (t.tokenType != S.EOS ==> 0 < t.end)
    requires TablesValid(p.doc)
    ensures TablesValid(Run(text, t, p).doc)
    decreases |text| + 4 - t.end, if t.tokenType == S.EOS then 0 else 1
  {
    if p.loc.end < 0 && t.tokenType != S.EOS {
      var q := Turn(text, t, p);
      LexScannerFacts.StepBounds(text, t.state, q.loc.multi, t.end);
      RunKeepsTables(text, S.Step(text, t.state, q.loc.multi, t.end), q);
    }
  }

  /** The tables `parse` builds list each name once. */
  lemma MainLoopKeepsTables(text: string, state: ParserState)
    ensures TablesValid(MainLoop(text, state).doc)
  {
    var first := S.Step(text, S.WithinContent, true, 0);
    LexScannerFacts.StepBounds(text, S.WithinContent, true, 0);
    RunKeepsTables(text, first, Parsing(Initial(), Start(state, first.tokenType)));
  }
}
