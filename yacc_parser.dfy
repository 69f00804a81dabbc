/**
 * The Yacc/Bison grammar parser.
 *
 * `parse` runs the Yacc scanner over the text and, token by token, fills
 * the tables of a `YACCDocument`: `%union` field types, `%token`s, their
 * string aliases, `%type`d and rule-defined non-terminals, `%define`s, the
 * named references `[name]`, the declaration and rule nodes, the embedded
 * code regions and the rule components. Four passes follow the main loop:
 * every component is resolved against the tables, unused tokens are
 * reported, `%type` entries never defined by a rule are reported and
 * removed, and rules whose actions use `$$` without a type are reported.
 *
 * The reference definitions are value functions: `Turn` is one iteration
 * of the main loop, `Run` the loop, `Parsed` the whole of `parse`. The
 * class `YaccDocument` is the document the original mutates; `Parse` and
 * the passes update it in place and are proved to agree with the
 * functions. The configuration values `yash.TargetLanguage` (read by the
 * `%union` parser) and `yash.YYTYPE` are parameters.
 */
module YaccParser {
  import opened Wrappers
  import opened Chars
  import opened Common
  import opened YaccScanner
  import YaccScannerFacts
  import UnionParser
  import Utils

  /** `predefined`: the one name the grammar reserves. */
  predicate Reserved(name: string) {
    name == "error"
  }

  /** What `predefined[name]` is set to. */
  function PredefinedDescription(name: string): (r: Option<string>)
    ensures r.Some? <==> Reserved(name)
  {
    if name == "error" then Some("Predefined syntax error token.") else None
  }

  /**
   * `predefined[name]` as the code evaluates it: `predefined` is a plain
   * object, so the members every object inherits are found as well.
   */
  predicate ReservedAsWritten(name: string) {
    Reserved(name) || name in InheritedMembers
  }

  datatype ParserState = WaitingToken | WaitingSymbol | WaitingPrecedence | WaitingRule | WaitingUnion | Normal

  datatype NodeType = TokenNode | TypeNode | PrecedenceNode | RuleNode | DefineNode | EmbeddedNode

  /** `ISymbol`; `type` is spelt `symType`, and the alias is the name of the partner symbol. */
  datatype Sym = Sym(terminal: bool, offset: int, end: int, name: string, symType: string, used: bool,
                     definition: Range, references: seq<Range>, alias: Option<string>, value: Option<string>)
  {
    function Length(): int { end - offset }
  }

  /** `INamedReference` */
  datatype NamedRef = NamedRef(name: string, offset: int, length: int, end: int, symbol: Option<string>)

  /** `Node` */
  datatype Node = Node(nodeType: NodeType, offset: int, length: int, end: int, name: Option<string>,
                       typeOffset: Option<int>, typeEnd: Option<int>, actions: Option<seq<string>>)

  /** The contents of a `YACCDocument` at one moment. */
  datatype Doc = Doc(embedded: seq<Node>, nodes: seq<Node>, types: Table<Sym>, tokens: Table<Sym>,
                     aliases: Table<Sym>, symbols: Table<Sym>, components: seq<Sym>,
                     namedReferences: Table<NamedRef>, rulesRange: Range, problems: seq<Problem>,
                     defines: Table<Sym>)

  /** The tables `addSymbolToMap` is called on. */
  datatype TableName = TypesTable | TokensTable | AliasesTable | SymbolsTable | DefinesTable

  /** The local variables of the main loop that outlive one iteration. */
  datatype Locals = Locals(end: int, state: ParserState, typeName: string, actionOffset: int,
                           lastNode: Option<Node>, lastToken: TokenType, lastText: string,
                           lastTokenSymbol: Option<string>)

  /** The document and the loop variables together. */
  datatype Parsing = Parsing(doc: Doc, loc: Locals)

  /** What `addSymbolToMap` leaves: the document, and whether the symbol was added. */
  datatype Addition = Addition(doc: Doc, added: bool)

  /** `%define` split into its key and the rest of the line. */
  datatype DefineLine = DefineLine(key: string, value: string)

  const AlreadyDeclared := "Symbol was already declared/defined."
  const DeclaredHere := "Was declared/defined here."
  const InvalidDefine := "Invalid %define line"
  const TypeNotDeclared := "Type was not declared in the %union."
  const ColonNeedsWord := "Unexpected ':' you can only declare a non-terminal with a word."
  const NonTerminalRedeclared := "Non-terminal symbol was already declared."
  const WasDeclaredHere := "Was declared here."
  const DeclaredAsToken := "Symbol was already declared as a token."
  const UnexpectedColon := "Unexpected : character"
  const MisplacedReference := "Named reference to either non terminal or middle rule action"
  const AliasWithoutToken := "Alias not associated with an token."
  const UnexpectedBar := "Unexpected | symbol."
  const NotDeclared := "Symbol was not declared."
  const UnusedToken := "Token declared but never used."
  const StaleSymbol := "Non-terminal symbol type defined but never declared."
  const UntypedValue := "Semantic value used inside actions but has not declared the type."

  function ReservedToken(word: string): string {
    "You cannot declare the preserved keyword \"" + word + "\" as a token!"
  }

  function ReservedNonTerminal(name: string): string {
    "You cannot declare the preserved keyword \"" + name + "\" as a non-terminal!"
  }

  function UnexpectedSymbol(word: string): string {
    "Unexpected symbol " + word
  }

  function UnknownSymbol(text: string): string {
    "Unknown symbol " + text + "."
  }

  // ---------------------------------------------------------------------
  // The document and its tables

  /** The empty document `parse` starts from; `rulesRange` covers the whole text. */
  function Initial(textLength: nat): Doc {
    Doc([], [], EmptyTable(), EmptyTable(), EmptyTable(), EmptyTable(), [], EmptyTable(),
        Range(0, textLength), [], EmptyTable())
  }

  /** All six tables list their keys once each. */
  ghost predicate TablesValid(d: Doc) {
    d.types.Valid() && d.tokens.Valid() && d.aliases.Valid() && d.symbols.Valid()
    && d.namedReferences.Valid() && d.defines.Valid()
  }

  function TableOf(d: Doc, which: TableName): Table<Sym> {
    match which
    case TypesTable => d.types
    case TokensTable => d.tokens
    case AliasesTable => d.aliases
    case SymbolsTable => d.symbols
    case DefinesTable => d.defines
  }

  function WithTable(d: Doc, which: TableName, t: Table<Sym>): (r: Doc)
    ensures TableOf(r, which) == t
  {
    match which
    case TypesTable => d.(types := t)
    case TokensTable => d.(tokens := t)
    case AliasesTable => d.(aliases := t)
    case SymbolsTable => d.(symbols := t)
    case DefinesTable => d.(defines := t)
  }

  /** `addProblem` */
  function WithProblem(d: Doc, message: string, offset: int, end: int, severity: ProblemType,
                       related: Option<Related>): (r: Doc)
    ensures r.problems == d.problems + [Problem(message, offset, end, severity, related)]
  {
    d.(problems := d.problems + [Problem(message, offset, end, severity, related)])
  }

  /** The symbol `addSymbolToMap` creates: unused, defined and referenced at its own range. */
  function NewSym(terminal: bool, offset: int, end: int, name: string, symType: string, value: Option<string>): Sym {
    Sym(terminal, offset, end, name, symType, false, Range(offset, end), [Range(offset, end)], None, value)
  }

  /** A name used in a rule: a terminal until resolved, with no definition yet. */
  function Occurrence(offset: int, end: int, name: string): Sym {
    Sym(true, offset, end, name, "", true, Range(-1, -1), [Range(offset, end)], None, None)
  }

  /**
   * `addSymbolToMap`: a name already in the table gets an Error pointing
   * at its first declaration and the table is left as it is; a new name
   * is added at the end of the table.
   */
  function AddSymbol(d: Doc, which: TableName, terminal: bool, offset: int, end: int, name: string,
                          symType: string, value: Option<string>): (r: Addition)
    ensures var t := TableOf(d, which);
      && (name in t.entries ==>
            && !r.added && r.doc == WithProblem(d, AlreadyDeclared, offset, end, Error,
                                                 Some(Related(DeclaredHere, t.entries[name].offset, t.entries[name].end))))
      && (name !in t.entries ==>
            && r.added && r.doc.problems == d.problems
            && TableOf(r.doc, which).entries == t.entries[name := NewSym(terminal, offset, end, name, symType, value)]
            && TableOf(r.doc, which).keys == t.keys + [name]
            && r.doc == WithTable(d, which, TableOf(r.doc, which)))
    ensures TablesValid(d) ==> TablesValid(r.doc)
  {
    var t := TableOf(d, which);
    if name in t.entries then
      var first := t.entries[name];
      Addition(WithProblem(d, AlreadyDeclared, offset, end, Error, Some(Related(DeclaredHere, first.offset, first.end))), false)
    else
      Addition(WithTable(d, which, t.Set(name, NewSym(terminal, offset, end, name, symType, value))), true)
  }

  /** A node closed at `at`: its end and length set. */
  function Closed(n: Node, at: int): Node {
    n.(end := at, length := at - n.offset)
  }

  /** A `%token`, `%type` or precedence node opened at `offset`. */
  function OpenNode(nodeType: NodeType, offset: int): Node {
    Node(nodeType, offset, -1, -1, None, None, None, None)
  }

  /** The text of token `t`: `getTokenText`. */
  function TokenText(text: string, t: Token): string {
    Substring(text, t.offset, t.end)
  }

  // ---------------------------------------------------------------------
  // `%define <key> [value]`: the expression `^\s*%define\s+(\S+)\s*(.*)`

  predicate IsNotJsSpace(c: char) {
    !IsJsSpace(c)
  }

  predicate IsNotLineTerminator(c: char) {
    !IsLineTerminator(c)
  }

  /**
   * The match of `^\s*%define\s+(\S+)\s*(.*)` on `line`: the key is the
   * run of non-space characters after `%define` and at least one space,
   * the value the rest of the line after the spaces that follow the key,
   * up to the first line terminator.
   */
  function MatchDefine(line: string): (r: Option<DefineLine>)
    ensures r.Some? ==> r.value.key != [] && forall c :: c in r.value.key ==> !IsJsSpace(c)
    ensures r.Some? ==> forall c :: c in r.value.value ==> !IsLineTerminator(c)
  {
    var i0 := SkipWhile(line, 0, IsJsSpace);
    if !MatchesAt(line, i0, "%define") then None
    else
      var i1 := i0 + 7;
      var i2 := SkipWhile(line, i1, IsJsSpace);
      var i3 := SkipWhile(line, i2, IsNotJsSpace);
      if i2 == i1 || i3 == i2 then None
      else
        var i4 := SkipWhile(line, i3, IsJsSpace);
        var i5 := SkipWhile(line, i4, IsNotLineTerminator);
        SkipWhileSpan(line, i2, IsNotJsSpace);
        SkipWhileSpan(line, i4, IsNotLineTerminator);
        Some(DefineLine(line[i2..i3], line[i4..i5]))
  }

  // ---------------------------------------------------------------------
  // One iteration of the main loop, case by case

  /** `case TokenType.Action`: `%union` fields become types; rule actions are collected. */
  function ActionTurn(text: string, targetLanguage: string, t: Token, p: Parsing): (r: Parsing)
    ensures TablesValid(p.doc) ==> TablesValid(r.doc)
    ensures r.doc.rulesRange == p.doc.rulesRange && r.loc.end == p.loc.end
  {
    var w := TokenText(text, t);
    match p.loc.state
    case WaitingUnion =>
      Parsing(AddUnionTypes(p.doc, UnionParser.Fields(w, targetLanguage), t.offset), p.loc.(state := Normal))
    case WaitingRule =>
      if p.loc.lastNode.Some? && p.loc.lastNode.value.actions.Some? then
        var n := p.loc.lastNode.value;
        Parsing(p.doc, p.loc.(lastNode := Some(n.(actions := Some(n.actions.value + [w])))))
      else p
    case _ => p
  }

  /** The union fields `fields[..n]` with a name, added to the types at `offset` plus their range. */
  function AddUnionTypesUpTo(d: Doc, fields: seq<UnionParser.Field>, offset: int, n: nat): (r: Doc)
    requires n <= |fields|
    ensures r == d.(types := r.types, problems := r.problems)
    ensures TablesValid(d) ==> TablesValid(r)
  {
    if n == 0 then d
    else
      var d' := AddUnionTypesUpTo(d, fields, offset, n - 1);
      var f := fields[n - 1];
      if f.name != [] then
        AddSymbol(d', TypesTable, true, offset + f.location.start, offset + f.location.end, f.name, f.info, None).doc
      else d'
  }

  function AddUnionTypes(d: Doc, fields: seq<UnionParser.Field>, offset: int): Doc {
    AddUnionTypesUpTo(d, fields, offset, |fields|)
  }

  /** `case TokenType.Definition`: a `%define` line, or an Error when it does not match. */
  function DefineTurn(text: string, t: Token, d: Doc): (r: Doc)
    ensures TablesValid(d) ==> TablesValid(r)
    ensures r.rulesRange == d.rulesRange
  {
    DefineMatched(t, MatchDefine(Trim(TokenText(text, t))), d)
  }

  /** The outcome of matching the `%define` line of token `t`. */
  function DefineMatched(t: Token, m: Option<DefineLine>, d: Doc): (r: Doc)
    ensures TablesValid(d) ==> TablesValid(r)
    ensures r.rulesRange == d.rulesRange
  {
    match m
    case Some(line) =>
      var value := Trim(line.value);
      AddSymbol(d, DefinesTable, true, t.offset, t.end, Trim(line.key), value, Some(value)).doc
    case None =>
      WithProblem(d, InvalidDefine, t.offset, t.end, Error, None)
  }

  /**
   * `case TokenType.Option`: outside the rules the node being built is
   * closed here; `%union`, `%token`, `%type` and the precedence options
   * open the next one.
   */
  function OptionTurn(text: string, t: Token, p: Parsing): (r: Parsing)
    ensures TablesValid(p.doc) ==> TablesValid(r.doc)
    ensures r.doc.rulesRange == p.doc.rulesRange && r.loc.end == p.loc.end
  {
    var q :=
      if p.loc.state != WaitingRule && p.loc.lastNode.Some? then
        Parsing(p.doc.(nodes := p.doc.nodes + [Closed(p.loc.lastNode.value, t.offset)]),
                p.loc.(typeName := "", lastNode := None, state := Normal))
      else p;
    var w := TokenText(text, t);
    if w == "%union" then Parsing(q.doc, q.loc.(state := WaitingUnion))
    else if w == "%token" then Parsing(q.doc, q.loc.(lastNode := Some(OpenNode(TokenNode, t.offset)), state := WaitingToken))
    else if w == "%type" then Parsing(q.doc, q.loc.(lastNode := Some(OpenNode(TypeNode, t.offset)), state := WaitingSymbol))
    else if w == "%left" || w == "%right" || w == "%nonassoc" || w == "%precedence" then
      Parsing(q.doc, q.loc.(lastNode := Some(OpenNode(PrecedenceNode, t.offset)), state := WaitingPrecedence))
    else q
  }

  /** The value types are C++ variants: `%define api.value.type variant`. */
  predicate VariantTypes(d: Doc) {
    "api.value.type" in d.defines.entries && d.defines.entries["api.value.type"].value == Some("variant")
  }

  /** `case TokenType.TypeValue`: the `<type>` of the declarations that follow. */
  function TypeValueTurn(text: string, t: Token, p: Parsing): (r: Parsing)
    ensures TablesValid(p.doc) ==> TablesValid(r.doc)
    ensures r.doc.rulesRange == p.doc.rulesRange && r.loc.end == p.loc.end
  {
    var w := TokenText(text, t);
    var l := p.loc.(typeName := w);
    if w in p.doc.types.entries then
      var ty := p.doc.types.entries[w];
      Parsing(p.doc.(types := p.doc.types.Set(w, ty.(references := ty.references + [Range(t.offset, t.end)]))), l)
    else if !VariantTypes(p.doc) then
      Parsing(WithProblem(p.doc, TypeNotDeclared, t.offset, t.end, Error, None), l)
    else Parsing(p.doc, l)
  }

  /** `case TokenType.RulesTag`: the first `%%` starts the rules, the second ends them and the loop. */
  function RulesTagTurn(t: Token, p: Parsing): (r: Parsing)
    ensures TablesValid(p.doc) ==> TablesValid(r.doc)
  {
    var q :=
      if p.loc.lastNode.Some? then
        Parsing(p.doc.(nodes := p.doc.nodes + [Closed(p.loc.lastNode.value, t.offset)]),
                p.loc.(lastNode := None, typeName := ""))
      else p;
    var range :=
      if q.loc.end == -2 then q.doc.rulesRange.(start := t.offset) else q.doc.rulesRange.(end := t.offset);
    Parsing(q.doc.(rulesRange := range), q.loc.(end := q.loc.end + 1, state := WaitingRule))
  }

  /** `case TokenType.Word`: a declared name, or a component of a rule. */
  function WordTurn(text: string, t: Token, p: Parsing): (r: Parsing)
    ensures TablesValid(p.doc) ==> TablesValid(r.doc)
    ensures r.doc.rulesRange == p.doc.rulesRange && r.loc.end == p.loc.end
  {
    var w := TokenText(text, t);
    var d, l := p.doc, p.loc;
    match l.state
    case Normal => p
    case WaitingToken =>
      if Reserved(w) then Parsing(WithProblem(d, ReservedToken(w), t.offset, t.end, Error, None), l)
      else
        var a := AddSymbol(d, TokensTable, true, t.offset, t.end, w, l.typeName, None);
        Parsing(a.doc, l.(lastTokenSymbol := if a.added then Some(w) else None))
    case WaitingSymbol =>
      Parsing(AddSymbol(d, SymbolsTable, true, t.offset, t.end, w, l.typeName, None).doc, l)
    case WaitingPrecedence =>
      if w in d.tokens.entries then p
      else Parsing(AddSymbol(d, TokensTable, true, t.offset, t.end, w, l.typeName, None).doc, l)
    case WaitingRule =>
      Parsing(d.(components := d.components + [Occurrence(t.offset, t.end, w)]), l)
    case WaitingUnion =>
      Parsing(WithProblem(d, UnexpectedSymbol(w), t.offset, t.end, Error, None), l)
  }

  /**
   * The `%token` case of `WordTurn` with `predefined[word]` evaluated as
   * the code does, so that inherited members count as reserved.
   */
  function TokenWordAsWritten(text: string, t: Token, p: Parsing): (r: Parsing)
    requires p.loc.state == WaitingToken
    ensures ReservedAsWritten(TokenText(text, t)) ==> r.doc.tokens == p.doc.tokens
  {
    var w := TokenText(text, t);
    if ReservedAsWritten(w) then Parsing(WithProblem(p.doc, ReservedToken(w), t.offset, t.end, Error, None), p.loc)
    else WordTurn(text, t, p)
  }

  /**
   * `case TokenType.Colon`: in the rules, the word before the `:` is not a
   * component but the head of a new rule.
   */
  function ColonTurn(t: Token, p: Parsing): (r: Parsing)
    ensures TablesValid(p.doc) ==> TablesValid(r.doc)
    ensures r.doc.rulesRange == p.doc.rulesRange && r.loc.end == p.loc.end
  {
    var d, l := p.doc, p.loc;
    if l.state != WaitingRule then Parsing(WithProblem(d, UnexpectedColon, t.offset, t.end, Error, None), l)
    else if l.lastToken != Word && l.lastToken != Param then
      Parsing(WithProblem(d, ColonNeedsWord, t.offset, t.end, Error, None), l)
    else if d.components == [] then p
    else HeadTurn(p)
  }

  /**
   * A `:` after a word: the last component is the head; the open rule is
   * closed at it, and a reserved head is refused, any other declared.
   */
  function HeadTurn(p: Parsing): (r: Parsing)
    requires p.doc.components != []
    ensures TablesValid(p.doc) ==> TablesValid(r.doc)
    ensures r.doc.rulesRange == p.doc.rulesRange && r.loc.end == p.loc.end
  {
    var d, l := p.doc, p.loc;
    var nt := d.components[|d.components| - 1];
    var d1 := d.(components := d.components[..|d.components| - 1]);
    var d2 := if l.lastNode.Some? then d1.(nodes := d1.nodes + [Closed(l.lastNode.value, nt.offset)]) else d1;
    var l2 := l.(lastNode := None);
    if Reserved(nt.name) then
      Parsing(WithProblem(d2, ReservedNonTerminal(nt.name), nt.offset, nt.end, Error, None), l2)
    else Parsing(DefineNonTerminal(d2, nt), l2.(lastNode := Some(RuleHead(nt))))
  }

  /** The Rule node a head opens. */
  function RuleHead(nt: Sym): Node {
    Node(RuleNode, nt.offset, -1, -1, Some(nt.name), None, None, Some([]))
  }

  /** The head `nt` as a non-terminal defined at its own range, with what `%type` said about it. */
  function NonTerminal(d: Doc, nt: Sym): (r: Sym)
    ensures r.name == nt.name && !r.terminal && r.definition == Range(nt.offset, nt.end)
  {
    var defined := nt.(terminal := false, definition := Range(nt.offset, nt.end));
    if nt.name in d.symbols.entries then
      var sym := d.symbols.entries[nt.name];
      defined.(references := defined.references + (if sym.references == [] then [] else [sym.references[0]]),
               symType := sym.symType)
    else defined
  }

  /** The Errors a head raises: a second rule for it, or a token of the same name. */
  function HeadProblems(d: Doc, nt: Sym): (r: Doc)
    ensures TablesValid(d) ==> TablesValid(r)
  {
    var d1 :=
      if nt.name in d.symbols.entries && !d.symbols.entries[nt.name].terminal then
        var sym := d.symbols.entries[nt.name];
        WithProblem(d, NonTerminalRedeclared, nt.offset, nt.end, Error, Some(Related(WasDeclaredHere, sym.offset, sym.end)))
      else d;
    if nt.name in d.tokens.entries then
      var tok := d.tokens.entries[nt.name];
      WithProblem(d1, DeclaredAsToken, nt.offset, nt.end, Error, Some(Related(WasDeclaredHere, tok.offset, tok.end)))
    else d1
  }

  /** The head registered as a non-terminal, replacing any `%type` entry. */
  function DefineNonTerminal(d: Doc, nt: Sym): (r: Doc)
    ensures TablesValid(d) ==> TablesValid(r)
  {
    var d1 := HeadProblems(d, nt);
    d1.(symbols := d1.symbols.Set(nt.name, NonTerminal(d, nt)))
  }

  /** `case TokenType.Param`: `[name]` after a word or an action is a named reference. */
  function ParamTurn(text: string, t: Token, d: Doc, l: Locals): (r: Doc)
    ensures TablesValid(d) ==> TablesValid(r)
    ensures r.rulesRange == d.rulesRange
  {
    var w := TokenText(text, t);
    if l.state != WaitingRule then d
    else if l.lastToken == Word || l.lastToken == EndAction then
      var symbol := if l.lastToken == Word then Some(l.lastText) else None;
      var r := NamedRef(w, t.offset, t.end - t.offset, t.end, symbol);
      d.(namedReferences := d.namedReferences.Set(w, r))
    else WithProblem(d, MisplacedReference, t.offset, t.end, Error, None)
  }

  /**
   * `case TokenType.Literal`: in a `%token` line a double-quoted literal
   * is the alias of the last token; in a rule it is a component. Single
   * quoted characters are passed over.
   */
  function LiteralTurn(text: string, t: Token, d: Doc, l: Locals): (r: Doc)
    ensures TablesValid(d) ==> TablesValid(r)
    ensures r.rulesRange == d.rulesRange
  {
    var w := TokenText(text, t);
    if w != [] && w[0] == '\'' then d
    else
      match l.state
      case WaitingToken => AliasTurn(t, w, d, l)
      case WaitingRule => d.(components := d.components + [Occurrence(t.offset, t.end, w)])
      case _ => d
  }

  /** The last token declared, while it has no alias yet. */
  predicate AwaitsAlias(d: Doc, l: Locals) {
    && l.lastTokenSymbol.Some?
    && l.lastTokenSymbol.value in d.tokens.entries
    && d.tokens.entries[l.lastTokenSymbol.value].alias.None?
  }

  /** The literal `w` as the alias of the last token declared. */
  function AliasTurn(t: Token, w: string, d: Doc, l: Locals): (r: Doc)
    ensures TablesValid(d) ==> TablesValid(r)
    ensures r.rulesRange == d.rulesRange
  {
    if AwaitsAlias(d, l) then
      var name := l.lastTokenSymbol.value;
      var tok := d.tokens.entries[name];
      var a := AddSymbol(d, AliasesTable, true, t.offset, t.end, w, tok.symType, None);
      if a.added then
        var d1 := a.doc;
        d1.(tokens := d1.tokens.Set(name, tok.(alias := Some(w))),
            aliases := d1.aliases.Set(w, d1.aliases.entries[w].(alias := Some(name))))
      else a.doc
    else WithProblem(d, AliasWithoutToken, t.offset, t.end, Error, None)
  }

  /** The `switch` of the main loop on one token. */
  function Switch(text: string, targetLanguage: string, t: Token, p: Parsing): (r: Parsing)
    ensures TablesValid(p.doc) ==> TablesValid(r.doc)
    ensures t.tokenType != RulesTag ==> r.loc.end == p.loc.end && r.doc.rulesRange == p.doc.rulesRange
  {
    var w := TokenText(text, t);
    match t.tokenType
    case StartAction => Parsing(p.doc, p.loc.(actionOffset := t.offset))
    case EndAction =>
      var n := Node(EmbeddedNode, p.loc.actionOffset, t.end - t.offset, t.end, None, None, None, None);
      Parsing(p.doc.(embedded := p.doc.embedded + [n]), p.loc)
    case Action => ActionTurn(text, targetLanguage, t, p)
    case Definition => Parsing(DefineTurn(text, t, p.doc), p.loc)
    case Option => OptionTurn(text, t, p)
    case StartType =>
      var l := p.loc.(typeName := "");
      if l.lastNode.Some? then Parsing(p.doc, l.(lastNode := Some(l.lastNode.value.(typeOffset := Some(t.offset)))))
      else Parsing(p.doc, l)
    case EndType =>
      if p.loc.lastNode.Some? then
        Parsing(p.doc, p.loc.(lastNode := Some(p.loc.lastNode.value.(typeEnd := Some(t.offset)))))
      else p
    case TypeValue => TypeValueTurn(text, t, p)
    case RulesTag => RulesTagTurn(t, p)
    case Word => WordTurn(text, t, p)
    case Colon => ColonTurn(t, p)
    case SemiColon | StartComment | EndComment | Comment => p
    case Param => Parsing(ParamTurn(text, t, p.doc, p.loc), p.loc)
    case Literal => Parsing(LiteralTurn(text, t, p.doc, p.loc), p.loc)
    case Bar =>
      if p.loc.state != WaitingRule then Parsing(WithProblem(p.doc, UnexpectedBar, t.offset, t.end, Error, None), p.loc)
      else p
    case _ =>
      if p.loc.state == WaitingRule then
        Parsing(WithProblem(p.doc, UnknownSymbol(w), t.offset, t.end, Error, None), p.loc)
      else p
  }

  /** One iteration of the main loop: the `switch`, then `lastToken` and `lastText`. */
  function Turn(text: string, targetLanguage: string, t: Token, p: Parsing): (r: Parsing)
    ensures r.loc.lastToken == t.tokenType && r.loc.lastText == TokenText(text, t)
    ensures TablesValid(p.doc) ==> TablesValid(r.doc)
  {
    var q := Switch(text, targetLanguage, t, p);
    Parsing(q.doc, q.loc.(lastToken := t.tokenType, lastText := TokenText(text, t)))
  }

  /** The main loop from token `t` on: it stops at the end of the text or at the second `%%`. */
  function Run(text: string, targetLanguage: string, t: Token, p: Parsing): Parsing
    requires t.end <= |text| + 3
    decreases |text| + 4 - t.end, if t.tokenType == EOS then 0 else 1
  {
    if p.loc.end >= 0 || t.tokenType == EOS then p
    else
      YaccScannerFacts.StepBounds(text, t.state, t.end);
      Run(text, targetLanguage, Step(text, t.state, t.end), Turn(text, targetLanguage, t, p))
  }

  /** The loop variables before the first iteration, `t` being the first token. */
  function Start(text: string, t: Token): Locals {
    Locals(-2, Normal, "", 0, None, t.tokenType, TokenText(text, t), None)
  }

  /** The document and loop variables after the main loop. */
  function MainLoop(text: string, targetLanguage: string): Parsing {
    var first := Step(text, WithinContent, 0);
    YaccScannerFacts.StepBounds(text, WithinContent, 0);
    Run(text, targetLanguage, first, Parsing(Initial(|text|), Start(text, first)))
  }

  // ---------------------------------------------------------------------
  // The passes after the main loop

  /**
   * Component `i` resolved: against the non-terminals, else the tokens,
   * else the aliases (which marks the aliased token used too), else it is
   * reported unless it is reserved.
   */
  function ResolveOne(d: Doc, i: nat): (r: Doc)
    requires i < |d.components|
    ensures |r.components| == |d.components|
    ensures forall j :: 0 <= j < |d.components| && j != i ==> r.components[j] == d.components[j]
    ensures r.symbols.entries.Keys == d.symbols.entries.Keys && r.tokens.entries.Keys == d.tokens.entries.Keys
    ensures r.aliases.entries.Keys == d.aliases.entries.Keys
    ensures TablesValid(d) ==> TablesValid(r)
  {
    var c := d.components[i];
    if c.name in d.symbols.entries then AsNonTerminal(d, i)
    else if c.name in d.tokens.entries then AsToken(d, i)
    else if c.name in d.aliases.entries then AsAlias(d, i)
    else if !Reserved(c.name) then WithProblem(d, NotDeclared, c.offset, c.end, Error, None)
    else d
  }

  /** Component `i` names a non-terminal: it takes its definition, type and references, and adds one. */
  function AsNonTerminal(d: Doc, i: nat): (r: Doc)
    requires i < |d.components| && d.components[i].name in d.symbols.entries
    ensures r == d.(components := r.components, symbols := r.symbols)
    ensures |r.components| == |d.components| && r.components == d.components[i := r.components[i]]
    ensures r.symbols.entries.Keys == d.symbols.entries.Keys
    ensures d.symbols.Valid() ==> r.symbols.Valid()
  {
    var c := d.components[i];
    var s := d.symbols.entries[c.name];
    var refs := s.references + [Range(c.offset, c.end)];
    d.(components := d.components[i := c.(terminal := false, definition := s.definition, symType := s.symType, references := refs)],
       symbols := d.symbols.Set(c.name, s.(references := refs)))
  }

  /** Component `i` names a token, which is now used. */
  function AsToken(d: Doc, i: nat): (r: Doc)
    requires i < |d.components| && d.components[i].name in d.tokens.entries
    ensures r == d.(components := r.components, tokens := r.tokens)
    ensures |r.components| == |d.components| && r.components == d.components[i := r.components[i]]
    ensures r.tokens.entries.Keys == d.tokens.entries.Keys
    ensures d.tokens.Valid() ==> r.tokens.Valid()
  {
    var c := d.components[i];
    var s := d.tokens.entries[c.name];
    var refs := s.references + [Range(c.offset, c.end)];
    d.(components := d.components[i := c.(definition := s.definition, symType := s.symType, references := refs)],
       tokens := d.tokens.Set(c.name, s.(references := refs, used := true)))
  }

  /** Component `i` names an alias, which is now used, and so is the token it stands for. */
  function AsAlias(d: Doc, i: nat): (r: Doc)
    requires i < |d.components| && d.components[i].name in d.aliases.entries
    ensures r == d.(components := r.components, tokens := r.tokens, aliases := r.aliases)
    ensures |r.components| == |d.components| && r.components == d.components[i := r.components[i]]
    ensures r.tokens.entries.Keys == d.tokens.entries.Keys && r.aliases.entries.Keys == d.aliases.entries.Keys
    ensures d.tokens.Valid() ==> r.tokens.Valid()
    ensures d.aliases.Valid() ==> r.aliases.Valid()
  {
    var c := d.components[i];
    var s := d.aliases.entries[c.name];
    var refs := s.references + [Range(c.offset, c.end)];
    var d1 := d.(components := d.components[i := c.(definition := s.definition, symType := s.symType, references := refs)],
                 aliases := d.aliases.Set(c.name, s.(references := refs, used := true)));
    if s.alias.Some? && s.alias.value in d1.tokens.entries then
      d1.(tokens := d1.tokens.Set(s.alias.value, d1.tokens.entries[s.alias.value].(used := true)))
    else d1
  }

  /** The first `n` components resolved in order. */
  function ResolveUpTo(d: Doc, n: nat): (r: Doc)
    requires n <= |d.components|
    ensures |r.components| == |d.components|
    ensures forall j :: n <= j < |d.components| ==> r.components[j] == d.components[j]
    ensures r.symbols.entries.Keys == d.symbols.entries.Keys && r.tokens.entries.Keys == d.tokens.entries.Keys
    ensures r.aliases.entries.Keys == d.aliases.entries.Keys
    ensures TablesValid(d) ==> TablesValid(r)
  {
    if n == 0 then d else ResolveOne(ResolveUpTo(d, n - 1), n - 1)
  }

  /** The Warning for a token never used. */
  function UnusedWarning(s: Sym): Problem {
    Problem(UnusedToken, s.offset, s.end, Warning, None)
  }

  /** The Warnings for the unused tokens among the first `n` keys, in key order. */
  function UnusedWarnings(tokens: Table<Sym>, n: nat): seq<Problem>
    requires n <= |tokens.keys|
  {
    if n == 0 then []
    else
      var k := tokens.keys[n - 1];
      UnusedWarnings(tokens, n - 1)
      + (if k in tokens.entries && !tokens.entries[k].used then [UnusedWarning(tokens.entries[k])] else [])
  }

  /** The key `k` of the symbol table, reported and removed when it precedes the rules. */
  function PruneOne(d: Doc, k: string): (r: Doc)
    ensures r.rulesRange == d.rulesRange
    ensures forall j :: j in d.symbols.entries && j != k ==> j in r.symbols.entries && r.symbols.entries[j] == d.symbols.entries[j]
    ensures TablesValid(d) ==> TablesValid(r)
  {
    if k in d.symbols.entries && d.symbols.entries[k].definition.start < d.rulesRange.start then
      var s := d.symbols.entries[k];
      WithProblem(d, StaleSymbol, s.offset, s.end, Warning, None).(symbols := d.symbols.Delete(k))
    else d
  }

  /** The first `n` of the keys `ks` pruned in order. */
  function PruneUpTo(d: Doc, ks: seq<string>, n: nat): (r: Doc)
    requires n <= |ks|
    ensures r.rulesRange == d.rulesRange
    ensures forall j :: j in d.symbols.entries && j !in ks[..n] ==> j in r.symbols.entries && r.symbols.entries[j] == d.symbols.entries[j]
    ensures TablesValid(d) ==> TablesValid(r)
  {
    if n == 0 then d else PruneOne(PruneUpTo(d, ks, n - 1), ks[n - 1])
  }

  /** `element.indexOf('$$') !== -1` */
  predicate UsesValue(action: string) {
    IndexOfSeq(action, 0, "$$") < |action|
  }

  /** Some action of the node uses `$$`. */
  predicate ActionsUseValue(actions: seq<string>) {
    exists i :: 0 <= i < |actions| && UsesValue(actions[i])
  }

  /**
   * The Error for node `n`: a rule whose actions use `$$` while its
   * non-terminal has no type and no default type is configured.
   */
  function ValueProblems(d: Doc, n: Node, yyType: string): seq<Problem> {
    if n.nodeType == RuleNode && n.actions.Some? && ActionsUseValue(n.actions.value)
       && n.name.Some? && n.name.value in d.symbols.entries
       && d.symbols.entries[n.name.value].symType == "" && yyType == ""
    then
      var s := d.symbols.entries[n.name.value];
      [Problem(UntypedValue, s.offset, s.end, Error, None)]
    else []
  }

  /** The Errors for the first `n` nodes, in order. */
  function ValueProblemsUpTo(d: Doc, yyType: string, n: nat): seq<Problem>
    requires n <= |d.nodes|
  {
    if n == 0 then [] else ValueProblemsUpTo(d, yyType, n - 1) + ValueProblems(d, d.nodes[n - 1], yyType)
  }

  function Resolved(d: Doc): Doc {
    ResolveUpTo(d, |d.components|)
  }

  function UnusedReported(d: Doc): Doc {
    d.(problems := d.problems + UnusedWarnings(d.tokens, |d.tokens.keys|))
  }

  function Pruned(d: Doc): Doc {
    PruneUpTo(d, d.symbols.keys, |d.symbols.keys|)
  }

  function ValueChecked(d: Doc, yyType: string): Doc {
    d.(problems := d.problems + ValueProblemsUpTo(d, yyType, |d.nodes|))
  }

  /** The four passes after the main loop. */
  function Checked(d: Doc, yyType: string): Doc {
    ValueChecked(Pruned(UnusedReported(Resolved(d))), yyType)
  }

  /** `parse(text)`, with `yash.TargetLanguage` and `yash.YYTYPE` as parameters. */
  function Parsed(text: string, targetLanguage: string, yyType: string): Doc {
    Checked(MainLoop(text, targetLanguage).doc, yyType)
  }

  /** The main loop keeps the tables well formed. */
  lemma {:induction false} RunKeepsTables(text: string, targetLanguage: string, t: Token, p: Parsing)
    requires t.end <= |text| + 3
    requires TablesValid(p.doc)
    ensures TablesValid(Run(text, targetLanguage, t, p).doc)
    decreases |text| + 4 - t.end, if t.tokenType == EOS then 0 else 1
  {
    if p.loc.end < 0 && t.tokenType != EOS {
      YaccScannerFacts.StepBounds(text, t.state, t.end);
      RunKeepsTables(text, targetLanguage, Step(text, t.state, t.end), Turn(text, targetLanguage, t, p));
    }
  }

  /** The tables `parse` builds list each name once. */
  lemma MainLoopKeepsTables(text: string, targetLanguage: string)
    ensures TablesValid(MainLoop(text, targetLanguage).doc)
  {
    var first := Step(text, WithinContent, 0);
    YaccScannerFacts.StepBounds(text, WithinContent, 0);
    RunKeepsTables(text, targetLanguage, first, Parsing(Initial(|text|), Start(text, first)));
  }

  // ---------------------------------------------------------------------
  // The document the parser fills in place

  /** `NodeType`-independent comparator of the offset lookups. */
  function CompareNode(n: Node, offset: int): int {
    if offset < n.offset then 1 else if offset > n.end then -1 else 0
  }

  /** `YACCDocument` */
  class YaccDocument {
    var embedded: seq<Node>
    var nodes: seq<Node>
    var types: Table<Sym>
    var tokens: Table<Sym>
    var aliases: Table<Sym>
    var symbols: Table<Sym>
    var components: seq<Sym>
    var namedReferences: Table<NamedRef>
    var rulesRange: Range
    var problems: seq<Problem>
    var defines: Table<Sym>

    /** The document's contents now. */
    function Snapshot(): Doc
      reads this
    {
      Doc(embedded, nodes, types, tokens, aliases, symbols, components, namedReferences, rulesRange, problems, defines)
    }

    /** The empty document for a text of `textLength` characters. */
    constructor (textLength: nat)
      ensures Snapshot() == Initial(textLength)
    {
      embedded, nodes, components, problems := [], [], [], [];
      types, tokens, aliases, symbols, defines := EmptyTable(), EmptyTable(), EmptyTable(), EmptyTable(), EmptyTable();
      namedReferences := EmptyTable();
      rulesRange := Range(0, textLength);
    }

    /** `addProblem` */
    method AddProblem(message: string, offset: int, end: int, severity: ProblemType, related: Option<Related>)
      modifies this
      ensures Snapshot() == WithProblem(old(Snapshot()), message, offset, end, severity, related)
    {
      problems := problems + [Problem(message, offset, end, severity, related)];
    }

    /** `addSymbolToMap` on the table `which`: the symbol added, or nothing for a duplicate. */
    method AddSymbolToMap(which: TableName, terminal: bool, offset: int, end: int, name: string,
                          symType: string, value: Option<string>) returns (added: bool)
      modifies this
      ensures var a := AddSymbol(old(Snapshot()), which, terminal, offset, end, name, symType, value);
        Snapshot() == a.doc && added == a.added
    {
      var table :=
        match which
        case TypesTable => types
        case TokensTable => tokens
        case AliasesTable => aliases
        case SymbolsTable => symbols
        case DefinesTable => defines;
      if name in table.entries {
        var first := table.entries[name];
        AddProblem(AlreadyDeclared, offset, end, Error, Some(Related(DeclaredHere, first.offset, first.end)));
        return false;
      }
      table := table.Set(name, NewSym(terminal, offset, end, name, symType, value));
      match which {
        case TypesTable => types := table;
        case TokensTable => tokens := table;
        case AliasesTable => aliases := table;
        case SymbolsTable => symbols := table;
        case DefinesTable => defines := table;
      }
      return true;
    }

    /** `getNodeByOffset`: a node whose range holds `offset`. */
    method GetNodeByOffset(offset: int) returns (r: Option<Node>)
      ensures r.Some? ==> r.value in nodes && r.value.offset <= offset <= r.value.end
      ensures r.None? && Utils.OrderedFor(nodes, offset, CompareNode) ==>
        forall n :: n in nodes ==> !(n.offset <= offset <= n.end)
    {
      r := Utils.BinarySearch(nodes, offset, CompareNode);
    }

    /** `getEmbeddedNode`: an embedded code region whose range holds `offset`. */
    method GetEmbeddedNode(offset: int) returns (r: Option<Node>)
      ensures r.Some? ==> r.value in embedded && r.value.offset <= offset <= r.value.end
      ensures r.None? && Utils.OrderedFor(embedded, offset, CompareNode) ==>
        forall n :: n in embedded ==> !(n.offset <= offset <= n.end)
    {
      r := Utils.BinarySearch(embedded, offset, CompareNode);
    }
  }

  // ---------------------------------------------------------------------
  // `parse`

  /** `parse(text)`: the main loop, then the four passes, all on the document in place. */
  method Parse(text: string, targetLanguage: string, yyType: string) returns (doc: YaccDocument)
    ensures doc.Snapshot() == Parsed(text, targetLanguage, yyType)
  {
    doc := new YaccDocument(|text|);
    MainLoopOver(doc, text, targetLanguage);
    MainLoopKeepsTables(text, targetLanguage);
    CheckDocument(doc, yyType);
  }

  /** The passes after the main loop, in the order `parse` runs them. */
  method CheckDocument(doc: YaccDocument, yyType: string)
    requires TablesValid(doc.Snapshot())
    modifies doc
    ensures doc.Snapshot() == Checked(old(doc.Snapshot()), yyType)
  {
    ResolveComponents(doc);
    ReportUnusedTokens(doc);
    PruneSymbols(doc);
    CheckValueTypes(doc, yyType);
  }

  /** The main loop of `parse`: scan, and handle each token, until the end or the second `%%`. */
  method MainLoopOver(doc: YaccDocument, text: string, targetLanguage: string)
    requires doc.Snapshot() == Initial(|text|)
    modifies doc
    ensures doc.Snapshot() == MainLoop(text, targetLanguage).doc
  {
    var scanner := new Scanner(text, 0, WithinContent);
    var token := scanner.Scan();
    YaccScannerFacts.StepBounds(text, WithinContent, 0);
    var loc := Locals(-2, Normal, "", 0, None, token, scanner.GetTokenText(), None);
    while loc.end < 0 && token != EOS
      invariant scanner.stream.source == text && token == scanner.tokenType
      invariant scanner.stream.position <= |text| + 3
      invariant Run(text, targetLanguage, scanner.Current(), Parsing(doc.Snapshot(), loc)) == MainLoop(text, targetLanguage)
      decreases |text| + 4 - scanner.stream.position, if token == EOS then 0 else 1
    {
      YaccScannerFacts.StepBounds(text, scanner.state, scanner.stream.position);
      loc := Handle(doc, text, targetLanguage, scanner.Current(), loc);
      token := scanner.Scan();
    }
  }

  /** One iteration of the main loop on the token `t`. */
  method Handle(doc: YaccDocument, text: string, targetLanguage: string, t: Token, loc: Locals) returns (loc': Locals)
    modifies doc
    ensures Parsing(doc.Snapshot(), loc') == Turn(text, targetLanguage, t, Parsing(old(doc.Snapshot()), loc))
  {
    loc' := HandleSwitch(doc, text, targetLanguage, t, loc);
    loc' := loc'.(lastToken := t.tokenType, lastText := TokenText(text, t));
  }

  /** The `switch` on the type of the token `t`. */
  method HandleSwitch(doc: YaccDocument, text: string, targetLanguage: string, t: Token, loc: Locals) returns (loc': Locals)
    modifies doc
    ensures Parsing(doc.Snapshot(), loc') == Switch(text, targetLanguage, t, Parsing(old(doc.Snapshot()), loc))
  {
    var tokenText := TokenText(text, t);
    loc' := loc;
    match t.tokenType
    case StartAction =>
      loc' := loc.(actionOffset := t.offset);
    case EndAction =>
      doc.embedded := doc.embedded + [Node(EmbeddedNode, loc.actionOffset, t.end - t.offset, t.end, None, None, None, None)];
    case Action =>
      loc' := HandleAction(doc, text, targetLanguage, t, loc);
    case Definition =>
      HandleDefine(doc, text, t);
    case Option =>
      loc' := HandleOption(doc, text, t, loc);
    case StartType =>
      loc' := loc.(typeName := "");
      if loc'.lastNode.Some? {
        loc' := loc'.(lastNode := Some(loc'.lastNode.value.(typeOffset := Some(t.offset))));
      }
    case EndType =>
      if loc.lastNode.Some? {
        loc' := loc.(lastNode := Some(loc.lastNode.value.(typeEnd := Some(t.offset))));
      }
    case TypeValue =>
      loc' := HandleTypeValue(doc, text, t, loc);
    case RulesTag =>
      loc' := HandleRulesTag(doc, t, loc);
    case Word =>
      loc' := HandleWord(doc, text, t, loc);
    case Colon =>
      loc' := HandleColon(doc, t, loc);
    case SemiColon | StartComment | EndComment | Comment =>
    case Param =>
      HandleParam(doc, text, t, loc);
    case Literal =>
      HandleLiteral(doc, text, t, loc);
    case Bar =>
      if loc.state != WaitingRule {
        doc.AddProblem(UnexpectedBar, t.offset, t.end, Error, None);
      }
    case _ =>
      if loc.state == WaitingRule {
        doc.AddProblem(UnknownSymbol(tokenText), t.offset, t.end, Error, None);
      }
  }

  /** `case TokenType.Action` */
  method HandleAction(doc: YaccDocument, text: string, targetLanguage: string, t: Token, loc: Locals) returns (loc': Locals)
    modifies doc
    ensures Parsing(doc.Snapshot(), loc') == ActionTurn(text, targetLanguage, t, Parsing(old(doc.Snapshot()), loc))
  {
    loc' := loc;
    var tokenText := TokenText(text, t);
    match loc.state
    case WaitingUnion =>
      var fields := UnionParser.Parse(tokenText, targetLanguage);
      AddUnionFields(doc, fields, t.offset);
      loc' := loc.(state := Normal);
    case WaitingRule =>
      if loc.lastNode.Some? && loc.lastNode.value.actions.Some? {
        var n := loc.lastNode.value;
        loc' := loc.(lastNode := Some(n.(actions := Some(n.actions.value + [tokenText]))));
      }
    case _ =>
  }

  /** The `forEach` over the `%union` fields. */
  method AddUnionFields(doc: YaccDocument, fields: seq<UnionParser.Field>, offset: int)
    modifies doc
    ensures doc.Snapshot() == AddUnionTypes(old(doc.Snapshot()), fields, offset)
  {
    for i := 0 to |fields|
      invariant doc.Snapshot() == AddUnionTypesUpTo(old(doc.Snapshot()), fields, offset, i)
    {
      var f := fields[i];
      if f.name != [] {
        var _ := doc.AddSymbolToMap(TypesTable, true, offset + f.location.start, offset + f.location.end, f.name, f.info, None);
      }
    }
  }

  /** `case TokenType.Definition` */
  method HandleDefine(doc: YaccDocument, text: string, t: Token)
    modifies doc
    ensures doc.Snapshot() == DefineTurn(text, t, old(doc.Snapshot()))
  {
    var line := Trim(TokenText(text, t));
    var m := MatchDefine(line);
    if m.Some? {
      var key := Trim(m.value.key);
      var value := Trim(m.value.value);
      var _ := doc.AddSymbolToMap(DefinesTable, true, t.offset, t.end, key, value, Some(value));
    } else {
      doc.AddProblem(InvalidDefine, t.offset, t.end, Error, None);
    }
  }

  /** `case TokenType.Option` */
  method HandleOption(doc: YaccDocument, text: string, t: Token, loc: Locals) returns (loc': Locals)
    modifies doc
    ensures Parsing(doc.Snapshot(), loc') == OptionTurn(text, t, Parsing(old(doc.Snapshot()), loc))
  {
    loc' := loc;
    if loc.state != WaitingRule && loc.lastNode.Some? {
      doc.nodes := doc.nodes + [Closed(loc.lastNode.value, t.offset)];
      loc' := loc'.(typeName := "", lastNode := None, state := Normal);
    }
    var tokenText := TokenText(text, t);
    if tokenText == "%union" {
      loc' := loc'.(state := WaitingUnion);
    } else if tokenText == "%token" {
      loc' := loc'.(lastNode := Some(OpenNode(TokenNode, t.offset)), state := WaitingToken);
    } else if tokenText == "%type" {
      loc' := loc'.(lastNode := Some(OpenNode(TypeNode, t.offset)), state := WaitingSymbol);
    } else if tokenText == "%left" || tokenText == "%right" || tokenText == "%nonassoc" || tokenText == "%precedence" {
      loc' := loc'.(lastNode := Some(OpenNode(PrecedenceNode, t.offset)), state := WaitingPrecedence);
    }
  }

  /** `case TokenType.TypeValue` */
  method HandleTypeValue(doc: YaccDocument, text: string, t: Token, loc: Locals) returns (loc': Locals)
    modifies doc
    ensures Parsing(doc.Snapshot(), loc') == TypeValueTurn(text, t, Parsing(old(doc.Snapshot()), loc))
  {
    var typeName := TokenText(text, t);
    loc' := loc.(typeName := typeName);
    if typeName in doc.types.entries {
      var ty := doc.types.entries[typeName];
      doc.types := doc.types.Set(typeName, ty.(references := ty.references + [Range(t.offset, t.end)]));
    } else if !VariantTypes(doc.Snapshot()) {
      doc.AddProblem(TypeNotDeclared, t.offset, t.end, Error, None);
    }
  }

  /** `case TokenType.RulesTag` */
  method HandleRulesTag(doc: YaccDocument, t: Token, loc: Locals) returns (loc': Locals)
    modifies doc
    ensures Parsing(doc.Snapshot(), loc') == RulesTagTurn(t, Parsing(old(doc.Snapshot()), loc))
  {
    loc' := loc;
    if loc.lastNode.Some? {
      doc.nodes := doc.nodes + [Closed(loc.lastNode.value, t.offset)];
      loc' := loc'.(lastNode := None, typeName := "");
    }
    if loc.end == -2 {
      doc.rulesRange := doc.rulesRange.(start := t.offset);
    } else {
      doc.rulesRange := doc.rulesRange.(end := t.offset);
    }
    loc' := loc'.(end := loc.end + 1, state := WaitingRule);
  }

  /** `case TokenType.Word` */
  method HandleWord(doc: YaccDocument, text: string, t: Token, loc: Locals) returns (loc': Locals)
    modifies doc
    ensures Parsing(doc.Snapshot(), loc') == WordTurn(text, t, Parsing(old(doc.Snapshot()), loc))
  {
    loc' := loc;
    var word := TokenText(text, t);
    match loc.state
    case Normal =>
    case WaitingToken =>
      if Reserved(word) {
        doc.AddProblem(ReservedToken(word), t.offset, t.end, Error, None);
      } else {
        var added := doc.AddSymbolToMap(TokensTable, true, t.offset, t.end, word, loc.typeName, None);
        loc' := loc.(lastTokenSymbol := if added then Some(word) else None);
      }
    case WaitingSymbol =>
      var _ := doc.AddSymbolToMap(SymbolsTable, true, t.offset, t.end, word, loc.typeName, None);
    case WaitingPrecedence =>
      if word !in doc.tokens.entries {
        var _ := doc.AddSymbolToMap(TokensTable, true, t.offset, t.end, word, loc.typeName, None);
      }
    case WaitingRule =>
      doc.components := doc.components + [Occurrence(t.offset, t.end, word)];
    case WaitingUnion =>
      doc.AddProblem(UnexpectedSymbol(word), t.offset, t.end, Error, None);
  }

  /** `case TokenType.Colon` */
  method HandleColon(doc: YaccDocument, t: Token, loc: Locals) returns (loc': Locals)
    modifies doc
    ensures Parsing(doc.Snapshot(), loc') == ColonTurn(t, Parsing(old(doc.Snapshot()), loc))
  {
    loc' := loc;
    if loc.state != WaitingRule {
      doc.AddProblem(UnexpectedColon, t.offset, t.end, Error, None);
      return;
    }
    if loc.lastToken != Word && loc.lastToken != Param {
      doc.AddProblem(ColonNeedsWord, t.offset, t.end, Error, None);
      return;
    }
    if doc.components == [] {
      return;
    }
    loc' := HandleHead(doc, loc);
  }

  /** The head of a rule: the last component, taken off the list. */
  method HandleHead(doc: YaccDocument, loc: Locals) returns (loc': Locals)
    requires doc.components != []
    modifies doc
    ensures Parsing(doc.Snapshot(), loc') == HeadTurn(Parsing(old(doc.Snapshot()), loc))
  {
    loc' := loc;
    var nonTerminal := doc.components[|doc.components| - 1];
    doc.components := doc.components[..|doc.components| - 1];
    if loc.lastNode.Some? {
      doc.nodes := doc.nodes + [Closed(loc.lastNode.value, nonTerminal.offset)];
      loc' := loc'.(lastNode := None);
    }
    if Reserved(nonTerminal.name) {
      doc.AddProblem(ReservedNonTerminal(nonTerminal.name), nonTerminal.offset, nonTerminal.end, Error, None);
      return;
    }
    DeclareNonTerminal(doc, nonTerminal);
    loc' := loc'.(lastNode := Some(RuleHead(nonTerminal)));
  }

  /** The head `nonTerminal` checked against earlier declarations and entered in the symbols. */
  method DeclareNonTerminal(doc: YaccDocument, nonTerminal: Sym)
    modifies doc
    ensures doc.Snapshot() == DefineNonTerminal(old(doc.Snapshot()), nonTerminal)
  {
    var nt := nonTerminal.(terminal := false, definition := Range(nonTerminal.offset, nonTerminal.end));
    if nt.name in doc.symbols.entries {
      var symbol := doc.symbols.entries[nt.name];
      if !symbol.terminal {
        doc.AddProblem(NonTerminalRedeclared, nt.offset, nt.end, Error, Some(Related(WasDeclaredHere, symbol.offset, symbol.end)));
      }
      var first := if symbol.references == [] then [] else [symbol.references[0]];
      nt := nt.(references := nt.references + first, symType := symbol.symType);
    }
    if nt.name in doc.tokens.entries {
      var token := doc.tokens.entries[nt.name];
      doc.AddProblem(DeclaredAsToken, nt.offset, nt.end, Error, Some(Related(WasDeclaredHere, token.offset, token.end)));
    }
    doc.symbols := doc.symbols.Set(nt.name, nt);
  }

  /** `case TokenType.Param` */
  method HandleParam(doc: YaccDocument, text: string, t: Token, loc: Locals)
    modifies doc
    ensures doc.Snapshot() == ParamTurn(text, t, old(doc.Snapshot()), loc)
  {
    if loc.state == WaitingRule {
      var symbol: Option<string> := None;
      match loc.lastToken
      case Word =>
        symbol := Some(loc.lastText);
        var name := TokenText(text, t);
        doc.namedReferences := doc.namedReferences.Set(name, NamedRef(name, t.offset, t.end - t.offset, t.end, symbol));
      case EndAction =>
        var name := TokenText(text, t);
        doc.namedReferences := doc.namedReferences.Set(name, NamedRef(name, t.offset, t.end - t.offset, t.end, symbol));
      case _ =>
        doc.AddProblem(MisplacedReference, t.offset, t.end, Error, None);
    }
  }

  /** `case TokenType.Literal` */
  method HandleLiteral(doc: YaccDocument, text: string, t: Token, loc: Locals)
    modifies doc
    ensures doc.Snapshot() == LiteralTurn(text, t, old(doc.Snapshot()), loc)
  {
    var word := TokenText(text, t);
    if word != [] && word[0] == '\'' {
      return;
    }
    match loc.state
    case WaitingToken =>
      AssignAlias(doc, t, word, loc);
    case WaitingRule =>
      doc.components := doc.components + [Occurrence(t.offset, t.end, word)];
    case _ =>
  }

  /** The literal `word` as the alias of `lastTokenSymbol`, the two pointing at each other. */
  method AssignAlias(doc: YaccDocument, t: Token, word: string, loc: Locals)
    modifies doc
    ensures doc.Snapshot() == AliasTurn(t, word, old(doc.Snapshot()), loc)
  {
    if AwaitsAlias(doc.Snapshot(), loc) {
      var name := loc.lastTokenSymbol.value;
      var token := doc.tokens.entries[name];
      var added := doc.AddSymbolToMap(AliasesTable, true, t.offset, t.end, word, token.symType, None);
      if added {
        doc.tokens := doc.tokens.Set(name, token.(alias := Some(word)));
        doc.aliases := doc.aliases.Set(word, doc.aliases.entries[word].(alias := Some(name)));
      }
    } else {
      doc.AddProblem(AliasWithoutToken, t.offset, t.end, Error, None);
    }
  }

  /** The resolution loop over the components. */
  method ResolveComponents(doc: YaccDocument)
    modifies doc
    ensures doc.Snapshot() == Resolved(old(doc.Snapshot()))
  {
    ghost var d0 := doc.Snapshot();
    for i := 0 to |doc.components|
      invariant doc.Snapshot() == ResolveUpTo(d0, i)
    {
      ResolveComponent(doc, i);
    }
  }

  /** Component `i` looked up in the symbols, tokens and aliases in that order. */
  method ResolveComponent(doc: YaccDocument, i: nat)
    requires i < |doc.components|
    modifies doc
    ensures doc.Snapshot() == ResolveOne(old(doc.Snapshot()), i)
  {
    var component := doc.components[i];
    var here := Range(component.offset, component.end);
    if component.name in doc.symbols.entries {
      var symbol := doc.symbols.entries[component.name];
      var refs := symbol.references + [here];
      doc.components := doc.components[i := component.(terminal := false, definition := symbol.definition, symType := symbol.symType, references := refs)];
      doc.symbols := doc.symbols.Set(component.name, symbol.(references := refs));
    } else if component.name in doc.tokens.entries {
      var symbol := doc.tokens.entries[component.name];
      var refs := symbol.references + [here];
      doc.components := doc.components[i := component.(definition := symbol.definition, symType := symbol.symType, references := refs)];
      doc.tokens := doc.tokens.Set(component.name, symbol.(references := refs, used := true));
    } else if component.name in doc.aliases.entries {
      var symbol := doc.aliases.entries[component.name];
      var refs := symbol.references + [here];
      doc.components := doc.components[i := component.(definition := symbol.definition, symType := symbol.symType, references := refs)];
      doc.aliases := doc.aliases.Set(component.name, symbol.(references := refs, used := true));
      if symbol.alias.Some? && symbol.alias.value in doc.tokens.entries {
        doc.tokens := doc.tokens.Set(symbol.alias.value, doc.tokens.entries[symbol.alias.value].(used := true));
      }
    } else if !Reserved(component.name) {
      doc.AddProblem(NotDeclared, component.offset, component.end, Error, None);
    }
  }

  /** The `forEach` over the token keys reporting the unused ones. */
  method ReportUnusedTokens(doc: YaccDocument)
    requires doc.tokens.Valid()
    modifies doc
    ensures doc.Snapshot() == UnusedReported(old(doc.Snapshot()))
  {
    var keys := doc.tokens.keys;
    ghost var d0 := doc.Snapshot();
    for i := 0 to |keys|
      invariant doc.Snapshot() == d0.(problems := d0.problems + UnusedWarnings(d0.tokens, i))
    {
      var component := doc.tokens.entries[keys[i]];
      if !component.used {
        doc.AddProblem(UnusedToken, component.offset, component.end, Warning, None);
      }
    }
  }

  /** The `forEach` over the symbol keys removing the entries declared before the rules. */
  method PruneSymbols(doc: YaccDocument)
    requires doc.symbols.Valid()
    modifies doc
    ensures doc.Snapshot() == Pruned(old(doc.Snapshot()))
  {
    var keys := doc.symbols.keys;
    ghost var d0 := doc.Snapshot();
    for i := 0 to |keys|
      invariant doc.Snapshot() == PruneUpTo(d0, keys, i)
    {
      assert keys[i] !in keys[..i];
      PruneSymbol(doc, keys[i]);
    }
  }

  /** One step of that `forEach`: the entry `key` removed when declared before the rules. */
  method PruneSymbol(doc: YaccDocument, key: string)
    requires key in doc.symbols.entries
    modifies doc
    ensures doc.Snapshot() == PruneOne(old(doc.Snapshot()), key)
  {
    var symbol := doc.symbols.entries[key];
    if symbol.definition.start < doc.rulesRange.start {
      doc.AddProblem(StaleSymbol, symbol.offset, symbol.end, Warning, None);
      doc.symbols := doc.symbols.Delete(key);
    }
  }

  /** The `$$` check over the Rule nodes. */
  method CheckValueTypes(doc: YaccDocument, yyType: string)
    modifies doc
    ensures doc.Snapshot() == ValueChecked(old(doc.Snapshot()), yyType)
  {
    ghost var d0 := doc.Snapshot();
    var nodes := doc.nodes;
    for i := 0 to |nodes|
      invariant doc.Snapshot() == d0.(problems := d0.problems + ValueProblemsUpTo(d0, yyType, i))
    {
      var node := nodes[i];
      if node.nodeType == RuleNode && node.actions.Some? {
        var uses := FindValueUse(node.actions.value);
        if uses && node.name.Some? && node.name.value in doc.symbols.entries {
          var symbol := doc.symbols.entries[node.name.value];
          if symbol.symType == "" && yyType == "" {
            doc.AddProblem(UntypedValue, symbol.offset, symbol.end, Error, None);
          }
        }
      }
    }
  }

  /** The inner loop over a rule's actions, stopping at the first that uses `$$`. */
  method FindValueUse(actions: seq<string>) returns (found: bool)
    ensures found <==> ActionsUseValue(actions)
  {
    for i := 0 to |actions|
      invariant forall j :: 0 <= j < i ==> !UsesValue(actions[j])
    {
      if UsesValue(actions[i]) {
        return true;
      }
    }
    return false;
  }
}
