/**
 * What the Yacc parser promises, proved about the reference definitions
 * of module YaccParser.
 */
module YaccParserFacts {
  import opened Wrappers
  import opened Chars
  import opened Common
  import opened YaccScanner
  import YaccScannerFacts
  import opened YaccParser
  import UnionParser

  // ---------------------------------------------------------------------
  // `%define`

  /** A run of `cond` characters from `p` to `q` followed by a non-`cond` one is what `SkipWhile` finds. */
  lemma {:induction false} SkipWhileStops(s: string, p: nat, q: nat, cond: char -> bool)
    requires p <= q <= |s|
    requires forall k :: p <= k < q ==> cond(s[k])
    requires q == |s| || !cond(s[q])
    ensures SkipWhile(s, p, cond) == q
    decreases q - p
  {
    if p < q {
      SkipWhileStops(s, p + 1, q, cond);
    }
  }

  /** The match of a line laid out as `%define`, one space, `key`, one space, `value`. */
  lemma DefineLineLaidOut(line: string, key: string, value: string)
    requires key != [] && forall c :: c in key ==> !IsJsSpace(c)
    requires forall c :: c in value ==> !IsLineTerminator(c)
    requires value == [] || !IsJsSpace(value[0])
    requires |line| == 9 + |key| + |value|
    requires line[..7] == "%define" && line[7] == ' ' && line[8 + |key|] == ' '
    requires line[8..8 + |key|] == key && line[9 + |key|..] == value
    ensures MatchDefine(line) == Some(DefineLine(key, value))
  {
    var n := |key|;
    assert line[0] == '%';
    SkipWhileStops(line, 0, 0, IsJsSpace);
    assert MatchesAt(line, 0, "%define");
    SkipWhileStops(line, 7, 8, IsJsSpace);
    forall k | 8 <= k < 8 + n
      ensures IsNotJsSpace(line[k])
    {
      assert line[k] == key[k - 8];
    }
    assert line[8] == key[0];
    SkipWhileStops(line, 8, 8 + n, IsNotJsSpace);
    SkipWhileStops(line, 8 + n, 9 + n, IsJsSpace);
    forall k | 9 + n <= k < |line|
      ensures IsNotLineTerminator(line[k])
    {
      assert line[k] == value[k - 9 - n];
    }
    SkipWhileStops(line, 9 + n, |line|, IsNotLineTerminator);
    assert SkipWhile(line, 0, IsJsSpace) == 0;
    assert SkipWhile(line, 7, IsJsSpace) == 8;
    assert SkipWhile(line, 8, IsNotJsSpace) == 8 + n;
    assert SkipWhile(line, 8 + n, IsJsSpace) == 9 + n;
    assert SkipWhile(line, 9 + n, IsNotLineTerminator) == |line|;
    assert MatchDefine(line) == Some(DefineLine(line[8..8 + n], line[9 + n..|line|]));
    assert line[8..8 + n] == key;
    assert line[9 + n..|line|] == value;
  }

  /** A `%define` line written out with one space after the directive and the key is read back as written. */
  lemma DefineLineRoundTrip(key: string, value: string)
    requires key != [] && forall c :: c in key ==> !IsJsSpace(c)
    requires forall c :: c in value ==> !IsLineTerminator(c)
    requires value == [] || !IsJsSpace(value[0])
    ensures MatchDefine("%define " + key + " " + value) == Some(DefineLine(key, value))
  {
    var line := "%define " + key + " " + value;
    assert line == "%define " + (key + (" " + value));
    assert line[8..8 + |key|] == key;
    assert line[9 + |key|..] == value;
    DefineLineLaidOut(line, key, value);
  }

  // ---------------------------------------------------------------------
  // Declarations

  /**
   * A word in a `%token` line: `error` is refused; a name already
   * declared keeps its first declaration and gets an Error pointing at
   * it; a new name is declared with the current `<type>`.
   */
  lemma TokenDeclaration(text: string, t: Token, p: Parsing)
    requires p.loc.state == WaitingToken
    ensures var w, r := TokenText(text, t), WordTurn(text, t, p);
      && (Reserved(w) ==>
            r.doc == p.doc.(problems := p.doc.problems + [Problem(ReservedToken(w), t.offset, t.end, Error, None)])
            && r.loc == p.loc)
      && (!Reserved(w) && w in p.doc.tokens.entries ==>
            && r.doc.tokens == p.doc.tokens
            && r.doc.problems == p.doc.problems + [Problem(AlreadyDeclared, t.offset, t.end, Error,
                 Some(Related(DeclaredHere, p.doc.tokens.entries[w].offset, p.doc.tokens.entries[w].end)))]
            && r.loc.lastTokenSymbol == None)
      && (!Reserved(w) && w !in p.doc.tokens.entries ==>
            && r.doc.tokens.entries == p.doc.tokens.entries[w := NewSym(true, t.offset, t.end, w, p.loc.typeName, None)]
            && r.doc.problems == p.doc.problems
            && r.loc.lastTokenSymbol == Some(w))
  {
  }

  /** A precedence declaration adds a name only when it is not a token yet, and never reports. */
  lemma PrecedenceDeclaration(text: string, t: Token, p: Parsing)
    requires p.loc.state == WaitingPrecedence
    ensures var w, r := TokenText(text, t), WordTurn(text, t, p);
      && (w in p.doc.tokens.entries ==> r == p)
      && (w !in p.doc.tokens.entries ==>
            && r.doc.tokens.entries == p.doc.tokens.entries[w := NewSym(true, t.offset, t.end, w, p.loc.typeName, None)]
            && r.doc.problems == p.doc.problems)
  {
  }

  /** `error` named as the head of a rule is reported and not entered in the symbols. */
  lemma ReservedRuleHead(t: Token, p: Parsing)
    requires p.loc.state == WaitingRule && (p.loc.lastToken == Word || p.loc.lastToken == Param)
    requires p.doc.components != [] && Reserved(p.doc.components[|p.doc.components| - 1].name)
    ensures var nt, r := p.doc.components[|p.doc.components| - 1], ColonTurn(t, p);
      && r.doc.symbols == p.doc.symbols
      && r.doc.components == p.doc.components[..|p.doc.components| - 1]
      && r.doc.problems == p.doc.problems + [Problem(ReservedNonTerminal("error"), nt.offset, nt.end, Error, None)]
  {
    assert ColonTurn(t, p) == HeadTurn(p);
  }

  /**
   * A `:` after a word in the rules makes that word the head of a rule:
   * it leaves the components, becomes a non-terminal defined at its own
   * range (keeping a `%type`'s type), the previous rule node is closed
   * where the head starts, and a new rule node with no actions is open.
   */
  lemma RuleHeadDefinition(t: Token, p: Parsing)
    requires p.loc.state == WaitingRule && (p.loc.lastToken == Word || p.loc.lastToken == Param)
    requires p.doc.components != [] && !Reserved(p.doc.components[|p.doc.components| - 1].name)
    ensures var nt, r := p.doc.components[|p.doc.components| - 1], ColonTurn(t, p);
      && r.doc.components == p.doc.components[..|p.doc.components| - 1]
      && nt.name in r.doc.symbols.entries
      && !r.doc.symbols.entries[nt.name].terminal
      && r.doc.symbols.entries[nt.name].definition == Range(nt.offset, nt.end)
      && (nt.name in p.doc.symbols.entries ==> r.doc.symbols.entries[nt.name].symType == p.doc.symbols.entries[nt.name].symType)
      && r.doc.nodes == p.doc.nodes + (if p.loc.lastNode.Some? then [Closed(p.loc.lastNode.value, nt.offset)] else [])
      && r.loc.lastNode == Some(Node(RuleNode, nt.offset, -1, -1, Some(nt.name), None, None, Some([])))
  {
    assert ColonTurn(t, p) == HeadTurn(p);
  }

  /** A rule head already defined by a rule, or declared as a token, is reported against the first declaration. */
  lemma RuleHeadConflicts(t: Token, p: Parsing)
    requires p.loc.state == WaitingRule && (p.loc.lastToken == Word || p.loc.lastToken == Param)
    requires p.doc.components != [] && !Reserved(p.doc.components[|p.doc.components| - 1].name)
    ensures var nt, r := p.doc.components[|p.doc.components| - 1], ColonTurn(t, p);
      var redefined := nt.name in p.doc.symbols.entries && !p.doc.symbols.entries[nt.name].terminal;
      var asToken := nt.name in p.doc.tokens.entries;
      && |r.doc.problems| == |p.doc.problems| + (if redefined then 1 else 0) + (if asToken then 1 else 0)
      && r.doc.problems[..|p.doc.problems|] == p.doc.problems
      && (redefined ==> r.doc.problems[|p.doc.problems|] == Problem(NonTerminalRedeclared, nt.offset, nt.end, Error,
            Some(Related(WasDeclaredHere, p.doc.symbols.entries[nt.name].offset, p.doc.symbols.entries[nt.name].end))))
      && (asToken ==> r.doc.problems[|r.doc.problems| - 1] == Problem(DeclaredAsToken, nt.offset, nt.end, Error,
            Some(Related(WasDeclaredHere, p.doc.tokens.entries[nt.name].offset, p.doc.tokens.entries[nt.name].end))))
  {
    assert ColonTurn(t, p) == HeadTurn(p);
  }

  /** A `:` outside the rules, or not after a word, is an Error and changes nothing else. */
  lemma MisplacedColon(t: Token, p: Parsing)
    requires p.loc.state != WaitingRule || (p.loc.lastToken != Word && p.loc.lastToken != Param)
    ensures var r := ColonTurn(t, p);
      && r.loc == p.loc
      && r.doc == p.doc.(problems := r.doc.problems)
      && r.doc.problems == p.doc.problems + [Problem(if p.loc.state != WaitingRule then UnexpectedColon else ColonNeedsWord,
                                                     t.offset, t.end, Error, None)]
  {
  }

  // ---------------------------------------------------------------------
  // Aliases

  /**
   * A double-quoted literal after a `%token` name that has no alias yet
   * becomes its alias, with the token's type, and the two name each other.
   */
  lemma AliasLinksBoth(t: Token, w: string, d: Doc, l: Locals)
    requires AwaitsAlias(d, l) && w !in d.aliases.entries
    ensures var name, r := l.lastTokenSymbol.value, AliasTurn(t, w, d, l);
      && r.tokens.entries[name].alias == Some(w)
      && r.aliases.entries[w].alias == Some(name)
      && r.aliases.entries[w].symType == d.tokens.entries[name].symType
      && r.problems == d.problems
  {
  }

  /** A literal with no token waiting for it, or one already used as an alias, is reported and nothing is linked. */
  lemma AliasRefused(t: Token, w: string, d: Doc, l: Locals)
    requires !AwaitsAlias(d, l) || w in d.aliases.entries
    ensures var r := AliasTurn(t, w, d, l);
      && r.tokens == d.tokens && r.aliases == d.aliases
      && |r.problems| == |d.problems| + 1
      && (!AwaitsAlias(d, l) ==> r.problems[|d.problems|] == Problem(AliasWithoutToken, t.offset, t.end, Error, None))
  {
  }

  /** Single-quoted character literals are passed over. */
  lemma SingleQuotedSkipped(text: string, t: Token, d: Doc, l: Locals)
    requires TokenText(text, t) != [] && TokenText(text, t)[0] == '\''
    ensures LiteralTurn(text, t, d, l) == d
  {
  }

  // ---------------------------------------------------------------------
  // `%union`

  /** One `%union` field: its name is declared unless it has none or is declared already. */
  lemma UnionStep(d: Doc, fields: seq<UnionParser.Field>, offset: int, n: nat)
    requires 0 < n <= |fields|
    ensures var before, after, f := AddUnionTypesUpTo(d, fields, offset, n - 1), AddUnionTypesUpTo(d, fields, offset, n), fields[n - 1];
      && (f.name == [] || f.name in before.types.entries ==> after.types.entries == before.types.entries)
      && (f.name != [] && f.name !in before.types.entries ==>
            after.types.entries == before.types.entries[f.name := NewSym(true, offset + f.location.start, offset + f.location.end, f.name, f.info, None)])
  {
  }

  /** Adding the `%union` fields never changes a type declared before. */
  lemma {:induction false} UnionTypesKeepEarlier(d: Doc, fields: seq<UnionParser.Field>, offset: int, n: nat)
    requires n <= |fields|
    ensures var r := AddUnionTypesUpTo(d, fields, offset, n);
      forall k :: k in d.types.entries ==> k in r.types.entries && r.types.entries[k] == d.types.entries[k]
  {
    if n > 0 {
      UnionTypesKeepEarlier(d, fields, offset, n - 1);
      UnionStep(d, fields, offset, n);
    }
  }

  /** Every `%union` field with a name ends up declared as a type. */
  lemma {:induction false} UnionTypesDeclared(d: Doc, fields: seq<UnionParser.Field>, offset: int, n: nat)
    requires n <= |fields|
    ensures forall j :: 0 <= j < n && fields[j].name != [] ==> fields[j].name in AddUnionTypesUpTo(d, fields, offset, n).types.entries
  {
    if n > 0 {
      UnionTypesDeclared(d, fields, offset, n - 1);
      UnionStep(d, fields, offset, n);
    }
  }

  /**
   * A `%union` field whose name is new is declared at its range shifted
   * by the offset of the action, with its declaration as type.
   */
  lemma {:induction false} UnionTypesAtShiftedRange(d: Doc, fields: seq<UnionParser.Field>, offset: int, n: nat)
    requires n <= |fields|
    ensures forall j :: 0 <= j < n && FirstNamed(d, fields, j) ==>
      var r := AddUnionTypesUpTo(d, fields, offset, n);
      fields[j].name in r.types.entries
      && r.types.entries[fields[j].name]
        == NewSym(true, offset + fields[j].location.start, offset + fields[j].location.end,
                  fields[j].name, fields[j].info, None)
  {
    if n > 0 {
      UnionTypesAtShiftedRange(d, fields, offset, n - 1);
      UnionStep(d, fields, offset, n);
      if FirstNamed(d, fields, n - 1) {
        UnionNamesBefore(d, fields, offset, n - 1);
      }
    }
  }

  /** Field `j` has a name the types did not hold and no earlier field has. */
  ghost predicate FirstNamed(d: Doc, fields: seq<UnionParser.Field>, j: int)
    requires 0 <= j < |fields|
  {
    fields[j].name != [] && fields[j].name !in d.types.entries
    && forall i :: 0 <= i < j ==> fields[i].name != fields[j].name
  }

  /** The names the types hold after `n` fields: those before, and the fields' names. */
  lemma {:induction false} UnionNamesBefore(d: Doc, fields: seq<UnionParser.Field>, offset: int, n: nat)
    requires n <= |fields|
    ensures forall k :: k in AddUnionTypesUpTo(d, fields, offset, n).types.entries ==>
      k in d.types.entries || exists i :: 0 <= i < n && fields[i].name == k
  {
    if n > 0 {
      UnionNamesBefore(d, fields, offset, n - 1);
    }
  }

  // ---------------------------------------------------------------------
  // `%%`

  /** Only a `%%` moves `end` (by one) or the rules range, whose start it sets first and whose end it sets second. */
  lemma TurnTracksTags(text: string, targetLanguage: string, t: Token, p: Parsing)
    ensures var r := Turn(text, targetLanguage, t, p);
      && r.loc.end == p.loc.end + (if t.tokenType == RulesTag then 1 else 0)
      && (t.tokenType != RulesTag ==> r.doc.rulesRange == p.doc.rulesRange)
      && (t.tokenType == RulesTag ==>
            r.doc.rulesRange == if p.loc.end == -2 then p.doc.rulesRange.(start := t.offset)
                                else p.doc.rulesRange.(end := t.offset))
  {
  }

  /**
   * Over the main loop `end` only grows and stays at most 0; the range
   * changes only if a `%%` was met, and after a single `%%` its end is
   * still the one it started with.
   */
  lemma {:induction false} RunTracksTags(text: string, targetLanguage: string, t: Token, p: Parsing)
    requires t.end <= |text| + 3
    requires -2 <= p.loc.end <= 0
    ensures var r := Run(text, targetLanguage, t, p);
      && p.loc.end <= r.loc.end <= 0
      && (r.loc.end == p.loc.end ==> r.doc.rulesRange == p.doc.rulesRange)
      && (p.loc.end == -2 && r.loc.end == -1 ==> r.doc.rulesRange.end == p.doc.rulesRange.end)
    decreases |text| + 4 - t.end, if t.tokenType == EOS then 0 else 1
  {
    if p.loc.end < 0 && t.tokenType != EOS {
      YaccScannerFacts.StepBounds(text, t.state, t.end);
      TurnTracksTags(text, targetLanguage, t, p);
      RunTracksTags(text, targetLanguage, Step(text, t.state, t.end), Turn(text, targetLanguage, t, p));
    }
  }

  /**
   * After the main loop: with no `%%` the rules range is still the whole
   * text; with one, only its start has moved; the loop stops at the second.
   */
  lemma MainLoopRulesRange(text: string, targetLanguage: string)
    ensures var r := MainLoop(text, targetLanguage);
      && -2 <= r.loc.end <= 0
      && (r.loc.end == -2 ==> r.doc.rulesRange == Range(0, |text|))
      && (r.loc.end == -1 ==> r.doc.rulesRange.end == |text|)
  {
    var first := Step(text, WithinContent, 0);
    YaccScannerFacts.StepBounds(text, WithinContent, 0);
    RunTracksTags(text, targetLanguage, first, Parsing(Initial(|text|), Start(text, first)));
  }

  // ---------------------------------------------------------------------
  // Resolution

  /**
   * A component is looked up in the non-terminals, then the tokens, then
   * the aliases; the first table that has it is marked and referenced;
   * if none has it, one Error is added unless the name is reserved.
   */
  lemma ResolutionOrder(d: Doc, i: nat)
    requires i < |d.components|
    ensures var c, r := d.components[i], ResolveOne(d, i);
      var here := Range(c.offset, c.end);
      && (c.name in d.symbols.entries ==>
            && !r.components[i].terminal
            && r.components[i].definition == d.symbols.entries[c.name].definition
            && r.symbols.entries[c.name].references == d.symbols.entries[c.name].references + [here]
            && r.problems == d.problems)
      && (c.name !in d.symbols.entries && c.name in d.tokens.entries ==>
            && r.tokens.entries[c.name].used
            && r.components[i].definition == d.tokens.entries[c.name].definition
            && r.tokens.entries[c.name].references == d.tokens.entries[c.name].references + [here]
            && r.problems == d.problems)
      && (c.name !in d.symbols.entries && c.name !in d.tokens.entries && c.name in d.aliases.entries ==>
            var a := d.aliases.entries[c.name];
            && r.aliases.entries[c.name].used
            && r.components[i].definition == a.definition
            && (a.alias.Some? && a.alias.value in d.tokens.entries ==> r.tokens.entries[a.alias.value].used)
            && r.problems == d.problems)
      && (c.name !in d.symbols.entries && c.name !in d.tokens.entries && c.name !in d.aliases.entries ==>
            r == if Reserved(c.name) then d else WithProblem(d, NotDeclared, c.offset, c.end, Error, None))
  {
  }

  /** The Error a component gets when no table declares it and it is not reserved. */
  function UndeclaredProblem(d: Doc, c: Sym): seq<Problem> {
    if c.name !in d.symbols.entries && c.name !in d.tokens.entries && c.name !in d.aliases.entries && !Reserved(c.name)
    then [Problem(NotDeclared, c.offset, c.end, Error, None)]
    else []
  }

  /** The Errors for the first `n` components, judged against the tables as the main loop left them. */
  function Undeclared(d: Doc, n: nat): seq<Problem>
    requires n <= |d.components|
  {
    if n == 0 then [] else Undeclared(d, n - 1) + UndeclaredProblem(d, d.components[n - 1])
  }

  /** Resolving one component adds its Error when it is undeclared, and nothing else. */
  lemma ResolveOneProblems(d: Doc, i: nat)
    requires i < |d.components|
    ensures ResolveOne(d, i).problems == d.problems + UndeclaredProblem(d, d.components[i])
  {
  }

  /** Component `n - 1` is judged against the tables as the main loop left them. */
  lemma ResolveStepProblems(d: Doc, n: nat)
    requires 0 < n <= |d.components|
    ensures ResolveUpTo(d, n).problems == ResolveUpTo(d, n - 1).problems + UndeclaredProblem(d, d.components[n - 1])
  {
    var before := ResolveUpTo(d, n - 1);
    ResolveOneProblems(before, n - 1);
    assert UndeclaredProblem(before, before.components[n - 1]) == UndeclaredProblem(d, d.components[n - 1]);
  }

  /**
   * The resolution pass adds exactly one Error per undeclared component,
   * in the order of the components, and nothing else.
   */
  lemma {:induction false} ResolveReportsUndeclared(d: Doc, n: nat)
    requires n <= |d.components|
    ensures ResolveUpTo(d, n).problems == d.problems + Undeclared(d, n)
  {
    if n > 0 {
      ResolveReportsUndeclared(d, n - 1);
      ResolveStepProblems(d, n);
    }
  }

  // ---------------------------------------------------------------------
  // Unused tokens, stale `%type`s, `$$`

  /** Every unused token among the first `n` keys gets its Warning. */
  lemma {:induction false} UnusedWarningsComplete(tokens: Table<Sym>, n: nat)
    requires n <= |tokens.keys|
    ensures forall j :: 0 <= j < n && tokens.keys[j] in tokens.entries && !tokens.entries[tokens.keys[j]].used ==>
      UnusedWarning(tokens.entries[tokens.keys[j]]) in UnusedWarnings(tokens, n)
  {
    if n > 0 {
      UnusedWarningsComplete(tokens, n - 1);
    }
  }

  /** Every Warning is that of an unused token among the first `n` keys. */
  lemma {:induction false} UnusedWarningsSound(tokens: Table<Sym>, n: nat)
    requires n <= |tokens.keys|
    ensures forall w :: w in UnusedWarnings(tokens, n) ==>
      exists j :: 0 <= j < n && tokens.keys[j] in tokens.entries && !tokens.entries[tokens.keys[j]].used
                  && w == UnusedWarning(tokens.entries[tokens.keys[j]])
  {
    if n > 0 {
      UnusedWarningsSound(tokens, n - 1);
    }
  }

  /** The unused-token pass warns about exactly the tokens never used. */
  lemma UnusedTokensReported(tokens: Table<Sym>)
    requires tokens.Valid()
    ensures var warnings := UnusedWarnings(tokens, |tokens.keys|);
      && (forall k :: k in tokens.entries && !tokens.entries[k].used ==> UnusedWarning(tokens.entries[k]) in warnings)
      && (forall w :: w in warnings ==> exists k :: k in tokens.entries && !tokens.entries[k].used && w == UnusedWarning(tokens.entries[k]))
  {
    UnusedWarningsComplete(tokens, |tokens.keys|);
    UnusedWarningsSound(tokens, |tokens.keys|);
    forall k | k in tokens.entries && !tokens.entries[k].used
      ensures UnusedWarning(tokens.entries[k]) in UnusedWarnings(tokens, |tokens.keys|)
    {
      var j :| 0 <= j < |tokens.keys| && tokens.keys[j] == k;
    }
  }

  /**
   * Pruning keeps only symbols, unchanged, and keeps every symbol whose
   * definition does not precede the rules; of the keys visited, none that
   * precedes the rules is left.
   */
  lemma {:induction false} PruneUpToFacts(d: Doc, ks: seq<string>, n: nat)
    requires n <= |ks|
    ensures var r := PruneUpTo(d, ks, n);
      && (forall k :: k in r.symbols.entries ==> k in d.symbols.entries && r.symbols.entries[k] == d.symbols.entries[k])
      && (forall k :: k in d.symbols.entries && d.symbols.entries[k].definition.start >= d.rulesRange.start ==> k in r.symbols.entries)
      && (forall j :: 0 <= j < n && ks[j] in r.symbols.entries ==> r.symbols.entries[ks[j]].definition.start >= d.rulesRange.start)
  {
    if n > 0 {
      var prev := PruneUpTo(d, ks, n - 1);
      PruneUpToFacts(d, ks, n - 1);
      PruneOneFacts(prev, ks[n - 1]);
      var r := PruneOne(prev, ks[n - 1]);
      assert r == PruneUpTo(d, ks, n);
      forall j | 0 <= j < n && ks[j] in r.symbols.entries
        ensures r.symbols.entries[ks[j]].definition.start >= d.rulesRange.start
      {
        if j < n - 1 {
          assert ks[j] in prev.symbols.entries;
        }
      }
    }
  }

  /** One pruning step removes at most `k`, and only when it precedes the rules. */
  lemma PruneOneFacts(d: Doc, k: string)
    ensures var r := PruneOne(d, k);
      && (forall j :: j in r.symbols.entries ==> j in d.symbols.entries && r.symbols.entries[j] == d.symbols.entries[j])
      && (forall j :: j in d.symbols.entries && d.symbols.entries[j].definition.start >= d.rulesRange.start ==> j in r.symbols.entries)
      && (k in r.symbols.entries ==> r.symbols.entries[k].definition.start >= d.rulesRange.start)
  {
  }

  /**
   * After pruning, every non-terminal is defined inside the rules, and
   * every one that was is still there, unchanged.
   */
  lemma PrunedSymbolsFollowRules(d: Doc)
    requires d.symbols.Valid()
    ensures var r := Pruned(d);
      && (forall k :: k in r.symbols.entries ==> r.symbols.entries[k].definition.start >= r.rulesRange.start)
      && (forall k :: k in d.symbols.entries && d.symbols.entries[k].definition.start >= d.rulesRange.start ==>
            k in r.symbols.entries && r.symbols.entries[k] == d.symbols.entries[k])
  {
    PruneUpToFacts(d, d.symbols.keys, |d.symbols.keys|);
    var r := Pruned(d);
    forall k | k in r.symbols.entries
      ensures r.symbols.entries[k].definition.start >= r.rulesRange.start
    {
      var j :| 0 <= j < |d.symbols.keys| && d.symbols.keys[j] == k;
    }
  }

  /**
   * The `$$` pass adds at most one Error per node, none when a default
   * type is configured, and each for a rule whose actions use `$$` while
   * its non-terminal has no type.
   */
  lemma {:induction false} ValueProblemsBounded(d: Doc, yyType: string, n: nat)
    requires n <= |d.nodes|
    ensures var ps := ValueProblemsUpTo(d, yyType, n);
      && |ps| <= n
      && (yyType != "" ==> ps == [])
      && (forall q :: q in ps ==>
            (exists j :: 0 <= j < n && UntypedRule(d, d.nodes[j], yyType)
              && q == Problem(UntypedValue, d.symbols.entries[d.nodes[j].name.value].offset,
                              d.symbols.entries[d.nodes[j].name.value].end, Error, None)))
  {
    if n > 0 {
      ValueProblemsBounded(d, yyType, n - 1);
    }
  }

  /** A rule node whose actions use `$$` while its non-terminal has no type and no default is set. */
  predicate UntypedRule(d: Doc, n: Node, yyType: string) {
    && n.nodeType == RuleNode && n.actions.Some? && ActionsUseValue(n.actions.value)
    && n.name.Some? && n.name.value in d.symbols.entries
    && d.symbols.entries[n.name.value].symType == "" && yyType == ""
  }

  // ---------------------------------------------------------------------
  // `predefined` looked up as written

  /** As written, `%token constructor` is refused as a reserved keyword and no token is declared. */
  lemma ConstructorTokenRefusedAsWritten(text: string, t: Token, p: Parsing)
    requires p.loc.state == WaitingToken && TokenText(text, t) == "constructor"
    ensures var r := TokenWordAsWritten(text, t, p);
      && r.doc.tokens == p.doc.tokens
      && r.doc.problems == p.doc.problems + [Problem(ReservedToken("constructor"), t.offset, t.end, Error, None)]
  {
  }

  /** With `error` as the only reserved name, `%token constructor` declares the token. */
  lemma ConstructorTokenDeclared(text: string, t: Token, p: Parsing)
    requires p.loc.state == WaitingToken && TokenText(text, t) == "constructor"
    requires "constructor" !in p.doc.tokens.entries
    ensures var r := WordTurn(text, t, p);
      && r.doc.tokens.entries["constructor"] == NewSym(true, t.offset, t.end, "constructor", p.loc.typeName, None)
      && r.doc.problems == p.doc.problems
  {
    assert "constructor"[0] != "error"[0];
  }
}
