/**
 * What the Lex parser promises, proved about the reference definitions
 * of module LexParser.
 */
module LexParserFacts {
  import opened Wrappers
  import opened Chars
  import opened Common
  import S = LexScanner
  import LexScannerFacts
  import opened LexParser

  // ---------------------------------------------------------------------
  // The definitions section

  /**
   * A word at the start of a line before the rules declares a definition,
   * or reports the duplicate, and turns multi-line brackets off for the
   * pattern that follows.
   */
  lemma DefinitionStarts(text: string, t: S.Token, p: Parsing)
    requires p.loc.state == WaitingDecl && t.tokenType == S.Word
    ensures var r := Turn(text, t, p);
      && r.doc == SymbolAdded(p.doc, DefinesTable, TokenText(text, t), t.offset, t.end)
      && r.loc.state == WaitingDef && !r.loc.multi
  {
  }

  /**
   * In a definition's pattern only the end of the line changes the state:
   * it turns multi-line brackets back on and waits for the next
   * declaration. A `{name}` in the pattern is an occurrence; nothing is
   * declared or reported.
   */
  lemma DefinitionPattern(text: string, t: S.Token, p: Parsing)
    requires p.loc.state == WaitingDef && Inside(text, t)
    ensures var r := Turn(text, t, p);
      && r.doc.defines == p.doc.defines && r.doc.states == p.doc.states && r.doc.problems == p.doc.problems
      && (t.tokenType == S.EOL ==> r.loc.state == WaitingDecl && r.loc.multi)
      && (t.tokenType != S.EOL ==> r.loc.state == WaitingDef && r.loc.multi == p.loc.multi)
      && (t.tokenType == S.Action && IsName(TokenText(text, t)) ==>
            r.doc.components == p.doc.components + [Occurrence(TokenText(text, t), t.offset, t.end)])
  {
  }

  /** Blanks at the start of a declaration line are one Error, and nothing else changes. */
  lemma DividerReported(text: string, t: S.Token, p: Parsing)
    requires p.loc.state == WaitingDecl && t.tokenType == S.Divider
    ensures Turn(text, t, p) == Parsing(WithProblem(p.doc, SpaceAtLineStart, t.offset, t.end, Error, None),
                                        p.loc.(lastToken := S.Divider))
  {
  }

  /**
   * The bookkeeping of the main loop from a declaration line on: the
   * option list accepts start conditions only in a declaration's own line.
   */
  ghost predicate DeclPhase(l: Locals) {
    (l.state == WaitingDecl || l.state == WaitingDef) ==> !l.acceptingStates
  }

  /** An option accepts start conditions exactly when its second character is `s` or `x`. */
  lemma OptionLine(text: string, t: S.Token, p: Parsing)
    requires p.loc.state == WaitingDecl && t.tokenType == S.Option && DeclPhase(p.loc)
    ensures var ch, r := CharAt(TokenText(text, t), 1), Turn(text, t, p);
      && r.doc == p.doc && r.loc.state == WaitingOptionParams
      && (r.loc.acceptingStates <==> ch == 's' || ch == 'x')
  {
  }

  /**
   * After an option, each word declares a start condition when the option
   * accepts them and is passed over otherwise; the end of the line closes
   * the list.
   */
  lemma OptionParams(text: string, t: S.Token, p: Parsing)
    requires p.loc.state == WaitingOptionParams && Inside(text, t)
    ensures var r := Turn(text, t, p);
      && (t.tokenType == S.EOL ==> r.doc == p.doc && r.loc.state == WaitingDecl && !r.loc.acceptingStates)
      && (t.tokenType == S.Word && p.loc.acceptingStates ==>
            r.doc == SymbolAdded(p.doc, StatesTable, TokenText(text, t), t.offset, t.end) && r.loc.state == WaitingOptionParams)
      && (t.tokenType == S.Word && !p.loc.acceptingStates ==> r.doc == p.doc && r.loc.state == WaitingOptionParams)
  {
  }

  /** `%{ ... %}` is recorded from the `%{` to the end of the `%}`, whatever the state, which it does not change. */
  lemma EmbeddedCodeAnyState(text: string, open: S.Token, close: S.Token, p: Parsing)
    requires open.tokenType == S.StartCode && close.tokenType == S.EndCode
    ensures var r := Turn(text, close, Turn(text, open, p));
      && r.doc == p.doc.(embedded := p.doc.embedded + [Code(open.offset, close.end - open.offset, close.end)])
      && r.loc == p.loc.(codeOffset := open.offset)
  {
  }

  // ---------------------------------------------------------------------
  // `%%`

  /**
   * Only a `%%` moves `end` (by one) or the rules range: in a declaration
   * line it sets the start, among the rules it sets the end.
   */
  lemma TurnTracksTags(text: string, t: S.Token, p: Parsing)
    requires Inside(text, t)
    ensures var r := Turn(text, t, p);
      var counted := t.tokenType == S.RulesTag && (p.loc.state == WaitingDecl || p.loc.state == WaitingRule);
      && r.loc.end == p.loc.end + (if counted then 1 else 0)
      && (!counted ==> r.doc.rulesRange == p.doc.rulesRange)
      && (counted ==>
            r.doc.rulesRange == if p.loc.state == WaitingDecl then p.doc.rulesRange.(start := t.offset)
                                else p.doc.rulesRange.(end := t.offset))
  {
    if t.tokenType == S.RulesTag && p.loc.state == WaitingRule {
      assert Turn(text, t, p).doc == RuleTurn(text, t, p).doc;
    }
  }

  /**
   * The phases of a parse from the declarations: before the first `%%`
   * the parser is in a declaration state and the rules range is unset;
   * after it, in a rule state with the start set; after the second, the
   * end is set too, not before the start.
   */
  ghost predicate Phase(p: Parsing) {
    var l, range := p.loc, p.doc.rulesRange;
    && -2 <= l.end <= 0
    && DeclPhase(l)
    && (l.end == -2 ==> (l.state == WaitingDecl || l.state == WaitingDef || l.state == WaitingOptionParams) && range == Range(-1, -1))
    && (l.end != -2 ==> (l.state == WaitingRule || l.state == WaitingAction) && 0 <= range.start)
    && (l.end == -1 ==> range.end == -1)
    && (l.end == 0 ==> range.start <= range.end)
  }

  /** Where the switch leads from a declaration line. */
  lemma DeclMoves(text: string, t: S.Token, p: Parsing)
    requires p.loc.state == WaitingDecl && Inside(text, t)
    ensures var q := Switch(text, t, p);
      && (q.loc.state == WaitingDecl || q.loc.state == WaitingDef || q.loc.state == WaitingOptionParams || q.loc.state == WaitingRule)
      && (q.loc.state == WaitingRule <==> t.tokenType == S.RulesTag)
      && (q.loc.state != WaitingOptionParams ==> q.loc.acceptingStates == p.loc.acceptingStates)
  {
    assert Switch(text, t, p) == DeclTurn(text, t, p);
  }

  /** Where the switch leads from a definition's pattern. */
  lemma DefMoves(text: string, t: S.Token, p: Parsing)
    requires p.loc.state == WaitingDef && Inside(text, t)
    ensures var q := Switch(text, t, p);
      && (q.loc.state == WaitingDecl || q.loc.state == WaitingDef)
      && q.loc.acceptingStates == p.loc.acceptingStates
  {
    assert Switch(text, t, p) == DefTurn(text, t, p);
  }

  /** Where the switch leads from an option's list. */
  lemma OptionParamsMoves(text: string, t: S.Token, p: Parsing)
    requires p.loc.state == WaitingOptionParams && Inside(text, t)
    ensures var q := Switch(text, t, p);
      && (q.loc.state == WaitingOptionParams || q.loc.state == WaitingDecl)
      && (q.loc.state == WaitingDecl ==> !q.loc.acceptingStates)
  {
    assert Switch(text, t, p) == OptionParamsTurn(text, t, p);
  }

  /** The rules section is never left. */
  lemma RulesMoves(text: string, t: S.Token, p: Parsing)
    requires (p.loc.state == WaitingRule || p.loc.state == WaitingAction) && Inside(text, t)
    ensures var q := Switch(text, t, p);
      && (q.loc.state == WaitingRule || q.loc.state == WaitingAction)
      && q.loc.acceptingStates == p.loc.acceptingStates
  {
    if p.loc.state == WaitingAction {
      assert Switch(text, t, p) == ActionTurn(t, p);
    } else {
      assert Switch(text, t, p) == RuleTurn(text, t, p);
    }
  }

  /** One turn keeps the phases, and a start set by it lies before the end of its token. */
  lemma TurnPhase(text: string, t: S.Token, p: Parsing)
    requires Inside(text, t) && t.offset <= t.end && p.loc.end < 0 && Phase(p)
    requires p.loc.end == -1 ==> p.doc.rulesRange.start <= t.offset
    ensures var r := Turn(text, t, p);
      Phase(r) && (r.loc.end == -1 ==> r.doc.rulesRange.start <= t.end)
  {
    TurnTracksTags(text, t, p);
    if !Passed(t.tokenType) && t.tokenType != S.StartCode && t.tokenType != S.EndCode {
      assert Turn(text, t, p).loc == Switch(text, t, p).loc.(lastToken := t.tokenType);
      match p.loc.state {
        case WaitingDecl => DeclMoves(text, t, p);
        case WaitingDef => DefMoves(text, t, p);
        case WaitingOptionParams => OptionParamsMoves(text, t, p);
        case WaitingRule => RulesMoves(text, t, p);
        case WaitingAction => RulesMoves(text, t, p);
        case WithinRules => assert false;
        case WithinCode => assert false;
      }
    }
  }

  /** The main loop from token `t` on keeps the phases. */
  lemma {:induction false} RunPhase(text: string, t: S.Token, p: Parsing)
    requires t.end <= |text| + 3 && Inside(text, t) && (t.tokenType != S.EOS ==> 0 < t.end) && t.offset <= t.end
    requires Phase(p) && (p.loc.end == -1 ==> p.doc.rulesRange.start <= t.offset)
    ensures Phase(Run(text, t, p))
    decreases |text| + 4 - t.end, if t.tokenType == S.EOS then 0 else 1
  {
    if p.loc.end < 0 && t.tokenType != S.EOS {
      var q := Turn(text, t, p);
      TurnPhase(text, t, p);
      LexScannerFacts.StepBounds(text, t.state, q.loc.multi, t.end);
      RunPhase(text, S.Step(text, t.state, q.loc.multi, t.end), q);
    }
  }

  /**
   * After the main loop of a whole file: with no `%%` the rules range is
   * still `[-1, -1]`; with one, only its start is set; with two, the loop
   * stopped at the second, which set the end, not before the start.
   */
  lemma MainLoopRulesRange(text: string)
    ensures var r := MainLoop(text, WaitingDecl);
      && -2 <= r.loc.end <= 0
      && (r.loc.end == -2 ==> r.doc.rulesRange == Range(-1, -1))
      && (r.loc.end == -1 ==> 0 <= r.doc.rulesRange.start && r.doc.rulesRange.end == -1)
      && (r.loc.end == 0 ==> 0 <= r.doc.rulesRange.start <= r.doc.rulesRange.end)
  {
    var first := S.Step(text, S.WithinContent, true, 0);
    LexScannerFacts.StepBounds(text, S.WithinContent, true, 0);
    RunPhase(text, first, Parsing(Initial(), Start(WaitingDecl, first.tokenType)));
  }

  // ---------------------------------------------------------------------
  // `<...>` lists

  /** `s[a..b]` is a run of word characters that cannot be extended within `s[i..]`. */
  ghost predicate MaximalRun(s: string, i: nat, a: int, b: int) {
    && i <= a < b <= |s|
    && (forall k :: a <= k < b ==> IsWordChar(s[k]))
    && (a == i || !IsWordChar(s[a - 1]))
    && (b == |s| || !IsWordChar(s[b]))
  }

  /** Every occurrence found from `i` on is a maximal run of word characters, named by its own text. */
  lemma {:induction false} StatesOccurrencesSound(s: string, offset: int, i: nat)
    ensures forall c :: c in StatesOccurrences(s, offset, i) ==>
      var a, b := c.offset - offset, c.end - offset;
      MaximalRun(s, i, a, b) && c == Occurrence(s[a..b], c.offset, c.end)
    decreases |s| - i
  {
    if i < |s| {
      if !IsWordChar(s[i]) {
        StatesOccurrencesSound(s, offset, i + 1);
      } else {
        var j := SkipWhile(s, i, IsWordChar);
        SkipWhileSpan(s, i, IsWordChar);
        StatesOccurrencesSound(s, offset, j);
        forall c | c in StatesOccurrences(s, offset, j)
          ensures MaximalRun(s, i, c.offset - offset, c.end - offset)
        {
          var a := c.offset - offset;
          assert IsWordChar(s[a]);
          assert a != j;
        }
      }
    }
  }

  /** Every word character from `i` on lies in one of the occurrences found. */
  lemma {:induction false} StatesOccurrencesComplete(s: string, offset: int, i: nat)
    ensures forall k :: i <= k < |s| && IsWordChar(s[k]) ==>
      exists c :: c in StatesOccurrences(s, offset, i) && c.offset <= offset + k < c.end
    decreases |s| - i
  {
    if i < |s| {
      if !IsWordChar(s[i]) {
        StatesOccurrencesComplete(s, offset, i + 1);
      } else {
        var j := SkipWhile(s, i, IsWordChar);
        StatesOccurrencesComplete(s, offset, j);
        var head := Occurrence(s[i..j], offset + i, offset + j);
        assert head in StatesOccurrences(s, offset, i);
        forall k | i <= k < |s| && IsWordChar(s[k])
          ensures exists c :: c in StatesOccurrences(s, offset, i) && c.offset <= offset + k < c.end
        {
          if k >= j {
            var c :| c in StatesOccurrences(s, offset, j) && c.offset <= offset + k < c.end;
            assert c in StatesOccurrences(s, offset, i);
          } else {
            assert head.offset <= offset + k < head.end;
          }
        }
      }
    }
  }

  /** The occurrences found from `i` on start at `i` or later. */
  lemma {:induction false} StatesOccurrencesFrom(s: string, offset: int, i: nat)
    ensures forall c :: c in StatesOccurrences(s, offset, i) ==> offset + i <= c.offset
    decreases |s| - i
  {
    if i < |s| {
      if !IsWordChar(s[i]) {
        StatesOccurrencesFrom(s, offset, i + 1);
      } else {
        StatesOccurrencesFrom(s, offset, SkipWhile(s, i, IsWordChar));
      }
    }
  }

  /** Each occurrence ends before the next begins. */
  ghost predicate InTextOrder(r: seq<Sym>) {
    forall x, y :: 0 <= x < y < |r| ==> r[x].end < r[y].offset
  }

  /** An occurrence ending before all of an ordered list begins keeps it ordered in front. */
  lemma ConsInTextOrder(head: Sym, tail: seq<Sym>)
    requires InTextOrder(tail) && forall c :: c in tail ==> head.end < c.offset
    ensures InTextOrder([head] + tail)
  {
    var r := [head] + tail;
    forall x, y | 0 <= x < y < |r|
      ensures r[x].end < r[y].offset
    {
      assert r[y] == tail[y - 1];
      if x > 0 {
        assert r[x] == tail[x - 1];
      }
    }
  }

  /** The occurrences come in the order of the text. */
  lemma {:induction false} StatesOccurrencesOrdered(s: string, offset: int, i: nat)
    ensures InTextOrder(StatesOccurrences(s, offset, i))
    decreases |s| - i
  {
    if i < |s| {
      if !IsWordChar(s[i]) {
        StatesOccurrencesOrdered(s, offset, i + 1);
      } else {
        var j := SkipWhile(s, i, IsWordChar);
        var tail := StatesOccurrences(s, offset, j);
        StatesOccurrencesOrdered(s, offset, j);
        if j < |s| {
          assert tail == StatesOccurrences(s, offset, j + 1);
          StatesOccurrencesFrom(s, offset, j + 1);
        }
        ConsInTextOrder(Occurrence(s[i..j], offset + i, offset + j), tail);
      }
    }
  }

  // ---------------------------------------------------------------------
  // Where the components lie

  /** A component as the main loop creates it: an occurrence whose range spells its name in `text`. */
  ghost predicate Anchored(text: string, c: Sym) {
    && c == Occurrence(c.name, c.offset, c.end)
    && 0 <= c.offset <= c.end <= |text| && text[c.offset..c.end] == c.name
  }

  ghost predicate AllAnchored(text: string, cs: seq<Sym>) {
    forall i :: 0 <= i < |cs| ==> Anchored(text, cs[i])
  }

  /** A slice of a slice is a slice of the whole. */
  lemma SliceOfSlice(s: string, i: nat, j: nat, a: nat, b: nat)
    requires i <= j <= |s| && a <= b <= j - i
    ensures s[i..j][a..b] == s[i + a..i + b]
  {
    forall m | 0 <= m < b - a ensures s[i..j][a..b][m] == s[i + a..i + b][m] {
      assert s[i..j][a..b][m] == s[i..j][a + m] == s[i + a + m];
    }
  }

  /** The names in a `<...>` token are anchored at their place in the text. */
  lemma StatesAnchored(text: string, t: S.Token)
    requires t.offset <= t.end
    ensures AllAnchored(text, StatesOccurrences(TokenText(text, t), t.offset, 0))
  {
    if t.offset <= |text| {
      var e := if t.end <= |text| then t.end else |text|;
      assert TokenText(text, t) == text[t.offset..e];
      StatesSliceAnchored(text, t.offset, e);
    } else {
      assert TokenText(text, t) == [];
    }
  }

  /** The names found in `text[k..e]`, placed at offset `k`, are anchored in `text`. */
  lemma StatesSliceAnchored(text: string, k: nat, e: nat)
    requires k <= e <= |text|
    ensures AllAnchored(text, StatesOccurrences(text[k..e], k, 0))
  {
    var s := text[k..e];
    var r := StatesOccurrences(s, k, 0);
    StatesOccurrencesSound(s, k, 0);
    forall i | 0 <= i < |r|
      ensures Anchored(text, r[i])
    {
      var c := r[i];
      assert c in r;
      SliceOfSlice(text, k, e, c.offset - k, c.end - k);
    }
  }

  /** An occurrence anchored in the text of an action, moved by its offset, is anchored in the whole text. */
  lemma ShiftedOneAnchored(text: string, t: S.Token, c: Sym)
    requires 0 <= t.offset <= t.end <= |text|
    requires Anchored(TokenText(text, t), c)
    ensures Anchored(text, Shifted(c, t.offset))
  {
    assert TokenText(text, t) == text[t.offset..t.end];
    SliceAnchored(text, t.offset, t.end, c);
  }

  /** An occurrence anchored in `text[k..e]`, moved by `k`, is anchored in `text`. */
  lemma SliceAnchored(text: string, k: nat, e: nat, c: Sym)
    requires k <= e <= |text| && Anchored(text[k..e], c)
    ensures Anchored(text, Shifted(c, k))
  {
    SliceOfSlice(text, k, e, c.offset, c.end);
    assert Shifted(c, k) == Occurrence(c.name, c.offset + k, c.end + k);
  }

  /** Occurrences anchored in the text of an action, moved by its offset, are anchored in the whole text. */
  lemma ShiftedAnchored(text: string, t: S.Token, cs: seq<Sym>)
    requires 0 <= t.offset <= t.end <= |text|
    requires AllAnchored(TokenText(text, t), cs)
    ensures AllAnchored(text, ShiftedAll(cs, t.offset))
  {
    forall i | 0 <= i < |cs|
      ensures Anchored(text, ShiftedAll(cs, t.offset)[i])
    {
      ShiftedOneAnchored(text, t, cs[i]);
    }
  }

  /** The main loop of any parse leaves only anchored components. */
  lemma {:induction false} MainLoopAnchored(text: string, state: ParserState)
    ensures AllAnchored(text, MainLoop(text, state).doc.components)
    decreases |text|, 3, 0, 0
  {
    var first := S.Step(text, S.WithinContent, true, 0);
    LexScannerFacts.StepBounds(text, S.WithinContent, true, 0);
    RunAnchored(text, first, Parsing(Initial(), Start(state, first.tokenType)));
  }

  lemma {:induction false} RunAnchored(text: string, t: S.Token, p: Parsing)
    requires t.end <= |text| + 3 && Inside(text, t) && (t.tokenType != S.EOS ==> 0 < t.end) && t.offset <= t.end
    requires AllAnchored(text, p.doc.components)
    ensures AllAnchored(text, Run(text, t, p).doc.components)
    decreases |text|, 2, |text| + 4 - t.end, if t.tokenType == S.EOS then 0 else 1
  {
    if p.loc.end < 0 && t.tokenType != S.EOS {
      var q := Turn(text, t, p);
      TurnAnchored(text, t, p);
      LexScannerFacts.StepBounds(text, t.state, q.loc.multi, t.end);
      RunAnchored(text, S.Step(text, t.state, q.loc.multi, t.end), q);
    }
  }

  lemma TurnAnchored(text: string, t: S.Token, p: Parsing)
    requires Inside(text, t) && t.offset <= t.end
    requires AllAnchored(text, p.doc.components)
    ensures AllAnchored(text, Turn(text, t, p).doc.components)
    decreases |text|, 1, 0, 0
  {
    if !Passed(t.tokenType) && t.tokenType != S.StartCode && t.tokenType != S.EndCode {
      var q := Switch(text, t, p);
      assert Turn(text, t, p).doc == q.doc;
      match p.loc.state {
        case WaitingDecl => assert q == DeclTurn(text, t, p);
        case WaitingDef => DefAnchored(text, t, p);
        case WaitingOptionParams => assert q == OptionParamsTurn(text, t, p);
        case WaitingRule => RuleAnchored(text, t, p);
        case WaitingAction => assert q == ActionTurn(t, p);
        case WithinRules =>
        case WithinCode =>
      }
    }
  }

  lemma DefAnchored(text: string, t: S.Token, p: Parsing)
    requires p.loc.state == WaitingDef && Inside(text, t)
    requires AllAnchored(text, p.doc.components)
    ensures AllAnchored(text, Switch(text, t, p).doc.components)
  {
    assert Switch(text, t, p) == DefTurn(text, t, p);
  }

  lemma RuleAnchored(text: string, t: S.Token, p: Parsing)
    requires p.loc.state == WaitingRule && Inside(text, t) && t.offset <= t.end
    requires AllAnchored(text, p.doc.components)
    ensures AllAnchored(text, Switch(text, t, p).doc.components)
    decreases |text|, 0, 0, 0
  {
    assert Switch(text, t, p) == RuleTurn(text, t, p);
    if t.tokenType == S.States {
      StatesAnchored(text, t);
    } else if t.tokenType == S.Action {
      var w := TokenText(text, t);
      assert RuleTurn(text, t, p) == RuleActionTurn(text, t, p);
      if !IsWord(w) && p.loc.isConditionScope {
        assert |w| < |text|;
        NestedParse(w);
        MainLoopAnchored(w, WaitingRule);
        ShiftedAnchored(text, t, Parsed(w, WaitingRule).components);
      }
    }
  }

  // ---------------------------------------------------------------------
  // The nested parse of a start-condition scope

  /** In the rules section with nothing declared. */
  ghost predicate InRules(p: Parsing) {
    && (p.loc.state == WaitingRule || p.loc.state == WaitingAction)
    && p.doc.defines.entries == map[] && p.doc.states.entries == map[]
  }

  lemma TurnInRules(text: string, t: S.Token, p: Parsing)
    requires Inside(text, t) && InRules(p)
    ensures InRules(Turn(text, t, p))
  {
    if !Passed(t.tokenType) && t.tokenType != S.StartCode && t.tokenType != S.EndCode {
      RulesMoves(text, t, p);
      if p.loc.state == WaitingAction {
        assert Switch(text, t, p) == ActionTurn(t, p);
      } else {
        assert Switch(text, t, p) == RuleTurn(text, t, p);
      }
    }
  }

  lemma {:induction false} RunInRules(text: string, t: S.Token, p: Parsing)
    requires t.end <= |text| + 3 && Inside(text, t) && (t.tokenType != S.EOS ==> 0 < t.end)
    requires InRules(p)
    ensures InRules(Run(text, t, p))
    decreases |text| + 4 - t.end, if t.tokenType == S.EOS then 0 else 1
  {
    if p.loc.end < 0 && t.tokenType != S.EOS {
      var q := Turn(text, t, p);
      TurnInRules(text, t, p);
      LexScannerFacts.StepBounds(text, t.state, q.loc.multi, t.end);
      RunInRules(text, S.Step(text, t.state, q.loc.multi, t.end), q);
    }
  }

  /** With no table to look in, resolution only reports: the components stay as they are. */
  lemma {:induction false} ResolveUndeclared(d: Doc, n: nat)
    requires n <= |d.components| && d.defines.entries == map[] && d.states.entries == map[]
    ensures ResolveUpTo(d, n).components == d.components
  {
    if n > 0 {
      ResolveUndeclared(d, n - 1);
      var e := ResolveUpTo(d, n - 1);
      assert e.components[n - 1].name !in e.defines.entries && e.components[n - 1].name !in e.states.entries;
    }
  }

  /**
   * The block of a start-condition scope, parsed on its own from the rules
   * state, declares nothing, so its components and code regions are those
   * its main loop collected, unresolved.
   */
  lemma NestedTablesEmpty(w: string)
    ensures InRules(MainLoop(w, WaitingRule))
  {
    var first := S.Step(w, S.WithinContent, true, 0);
    LexScannerFacts.StepBounds(w, S.WithinContent, true, 0);
    RunInRules(w, first, Parsing(Initial(), Start(WaitingRule, first.tokenType)));
  }

  lemma NestedParse(w: string)
    ensures var sub, m := Parsed(w, WaitingRule), MainLoop(w, WaitingRule).doc;
      sub.components == m.components && sub.embedded == m.embedded
  {
    var m := MainLoop(w, WaitingRule).doc;
    NestedTablesEmpty(w);
    ResolveUndeclared(m, |m.components|);
    var r := Resolved(m);
    assert r.components == m.components && r.embedded == m.embedded;
    assert Parsed(w, WaitingRule) == UnusedReported(r);
  }

  /**
   * An action among the rules: `{word}` is an occurrence; the block of a
   * start-condition scope adds the occurrences and code regions its own
   * main loop found, unresolved and moved to where the block starts, each
   * spelling its name in the whole text, and none of its problems; any
   * other action is an Error.
   */
  lemma RuleAction(text: string, t: S.Token, p: Parsing)
    requires p.loc.state == WaitingRule && t.tokenType == S.Action && Inside(text, t)
    ensures var w, r := TokenText(text, t), Turn(text, t, p);
      && r.loc == p.loc.(lastToken := S.Action)
      && r.doc.defines == p.doc.defines && r.doc.states == p.doc.states && r.doc.rulesRange == p.doc.rulesRange
      && (IsWord(w) ==> r.doc == p.doc.(components := p.doc.components + [Occurrence(w, t.offset, t.end)]))
      && (!IsWord(w) && p.loc.isConditionScope ==>
            var m := MainLoop(w, WaitingRule).doc;
            && r.doc.problems == p.doc.problems
            && r.doc.components == p.doc.components + ShiftedAll(m.components, t.offset)
            && r.doc.embedded == p.doc.embedded + ShiftedCodes(m.embedded, t.offset)
            && AllAnchored(text, ShiftedAll(m.components, t.offset)))
      && (!IsWord(w) && !p.loc.isConditionScope ==>
            r.doc == WithProblem(p.doc, InvalidPattern, t.offset, t.end, Error, None))
  {
    var w := TokenText(text, t);
    assert Turn(text, t, p) == Parsing(RuleActionTurn(text, t, p).doc, p.loc.(lastToken := S.Action)) by {
      assert Switch(text, t, p) == RuleTurn(text, t, p);
    }
    if !IsWord(w) && p.loc.isConditionScope {
      assert |w| < |text|;
      NestedParse(w);
      MainLoopAnchored(w, WaitingRule);
      ShiftedAnchored(text, t, MainLoop(w, WaitingRule).doc.components);
    }
  }

  // ---------------------------------------------------------------------
  // Resolution

  /** Resolution changes a component's definition and references, never its name or range. */
  lemma ResolveOneKeepsRange(d: Doc, i: nat)
    requires i < |d.components|
    ensures var c, r := d.components[i], ResolveOne(d, i).components[i];
      r.name == c.name && r.offset == c.offset && r.end == c.end
  {
  }

  lemma {:induction false} ResolveKeepsRanges(d: Doc, n: nat)
    requires n <= |d.components|
    ensures var r := ResolveUpTo(d, n);
      forall j :: 0 <= j < |d.components| ==>
        r.components[j].name == d.components[j].name && r.components[j].offset == d.components[j].offset
        && r.components[j].end == d.components[j].end
  {
    if n > 0 {
      var p := ResolveUpTo(d, n - 1);
      ResolveKeepsRanges(d, n - 1);
      ResolveOneSameRanges(p, n - 1);
      SameRangesTrans(d.components, p.components, ResolveOne(p, n - 1).components);
    }
  }

  /** `rs` has the names and ranges of `cs`, entry by entry. */
  ghost predicate SameRanges(cs: seq<Sym>, rs: seq<Sym>) {
    |rs| == |cs| && forall j :: 0 <= j < |cs| ==> rs[j].name == cs[j].name && rs[j].offset == cs[j].offset && rs[j].end == cs[j].end
  }

  lemma ResolveOneSameRanges(d: Doc, i: nat)
    requires i < |d.components|
    ensures SameRanges(d.components, ResolveOne(d, i).components)
  {
    var rs := ResolveOne(d, i).components;
    ResolveOneKeepsRange(d, i);
    forall j | 0 <= j < |rs| && j != i
      ensures rs[j] == d.components[j]
    {
    }
  }

  lemma SameRangesTrans(cs: seq<Sym>, ps: seq<Sym>, rs: seq<Sym>)
    requires |ps| == |cs| && (forall j :: 0 <= j < |cs| ==> ps[j].name == cs[j].name && ps[j].offset == cs[j].offset && ps[j].end == cs[j].end)
    requires SameRanges(ps, rs)
    ensures forall j :: 0 <= j < |cs| ==> rs[j].name == cs[j].name && rs[j].offset == cs[j].offset && rs[j].end == cs[j].end
  {
  }

  /**
   * Every component `parse` reports, including those of nested
   * start-condition scopes, lies inside the text and spells its own name
   * there.
   */
  lemma ParsedComponentsSpellNames(text: string, state: ParserState)
    ensures var cs := Parsed(text, state).components;
      forall i :: 0 <= i < |cs| ==>
        0 <= cs[i].offset <= cs[i].end <= |text| && text[cs[i].offset..cs[i].end] == cs[i].name
  {
    var m := MainLoop(text, state).doc;
    MainLoopAnchored(text, state);
    ResolveKeepsRanges(m, |m.components|);
    assert Parsed(text, state).components == Resolved(m).components;
  }

  /**
   * A component is looked up in the definitions, then in the start
   * conditions; the first that has it gives it its definition, is marked
   * used and gains the component's range; if neither has it, one Error.
   */
  lemma ResolutionOrder(d: Doc, i: nat)
    requires i < |d.components|
    ensures var c, r := d.components[i], ResolveOne(d, i);
      var here := Range(c.offset, c.end);
      && (c.name in d.defines.entries ==>
            var s := d.defines.entries[c.name];
            && r.components[i] == c.(definition := s.definition, references := s.references + [here])
            && r.defines.entries == d.defines.entries[c.name := s.(references := s.references + [here], used := true)]
            && r.states == d.states && r.problems == d.problems)
      && (c.name !in d.defines.entries && c.name in d.states.entries ==>
            var s := d.states.entries[c.name];
            && r.components[i] == c.(definition := s.definition, references := s.references + [here])
            && r.states.entries == d.states.entries[c.name := s.(references := s.references + [here], used := true)]
            && r.defines == d.defines && r.problems == d.problems)
      && (c.name !in d.defines.entries && c.name !in d.states.entries ==>
            r == WithProblem(d, NotDeclared, c.offset, c.end, Error, None))
  {
  }

  /** The Error a component gets when neither table declares it. */
  function UndeclaredProblem(d: Doc, c: Sym): seq<Problem> {
    if c.name !in d.defines.entries && c.name !in d.states.entries
    then [Problem(NotDeclared, c.offset, c.end, Error, None)]
    else []
  }

  /** The Errors for the first `n` components, judged against the tables as the main loop left them. */
  function Undeclared(d: Doc, n: nat): seq<Problem>
    requires n <= |d.components|
  {
    if n == 0 then [] else Undeclared(d, n - 1) + UndeclaredProblem(d, d.components[n - 1])
  }

  /** Component `n - 1` is judged against the tables as the main loop left them. */
  lemma ResolveStepProblems(d: Doc, n: nat)
    requires 0 < n <= |d.components|
    ensures ResolveUpTo(d, n).problems == ResolveUpTo(d, n - 1).problems + UndeclaredProblem(d, d.components[n - 1])
  {
    var before := ResolveUpTo(d, n - 1);
    ResolutionOrder(before, n - 1);
    assert UndeclaredProblem(before, before.components[n - 1]) == UndeclaredProblem(d, d.components[n - 1]);
  }

  /**
   * The resolution pass adds exactly one Error per undeclared component,
   * in the order of the components, and nothing else.
   */
  lemma {:induction false} ResolveReportsUndeclared(d: Doc, n: nat)
    requires n <= |d.components|
    ensures ResolveUpTo(d, n).problems == d.problems + Undeclared(d, n)
  {
    if n > 0 {
      ResolveReportsUndeclared(d, n - 1);
      ResolveStepProblems(d, n);
    }
  }

  // ---------------------------------------------------------------------
  // Used and unused declarations

  /** Some of the first `n` components has the name `k`. */
  ghost predicate Named(d: Doc, n: nat, k: string)
    requires n <= |d.components|
  {
    exists j :: 0 <= j < n && d.components[j].name == k
  }

  /** Resolving component `i` marks a definition used when the component names it, and changes no other mark. */
  lemma ResolveOneUsesDefine(d: Doc, i: nat, k: string)
    requires i < |d.components| && k in d.defines.entries
    ensures var r := ResolveOne(d, i);
      k in r.defines.entries && (r.defines.entries[k].used <==> d.defines.entries[k].used || d.components[i].name == k)
  {
    ResolutionOrder(d, i);
  }

  /**
   * Resolving component `i` marks a start condition used when the
   * component names it and no definition has that name, and changes no
   * other mark.
   */
  lemma ResolveOneUsesState(d: Doc, i: nat, k: string)
    requires i < |d.components| && k in d.states.entries
    ensures var r := ResolveOne(d, i);
      && k in r.states.entries
      && (r.states.entries[k].used <==> d.states.entries[k].used || (k !in d.defines.entries && d.components[i].name == k))
  {
    ResolutionOrder(d, i);
  }

  /** The first `n` components name `k` when the first `n - 1` do or the last of them does. */
  lemma NamedStep(d: Doc, n: nat, k: string)
    requires 0 < n <= |d.components|
    ensures Named(d, n, k) <==> Named(d, n - 1, k) || d.components[n - 1].name == k
  {
    if Named(d, n, k) && d.components[n - 1].name != k {
      var j :| 0 <= j < n && d.components[j].name == k;
      assert j < n - 1;
    }
  }

  /** One step of the resolution pass, in terms of the components resolved before it. */
  lemma ResolveUpToStep(d: Doc, n: nat)
    requires 0 < n <= |d.components|
    ensures var e := ResolveUpTo(d, n - 1);
      && ResolveUpTo(d, n) == ResolveOne(e, n - 1)
      && e.components[n - 1] == d.components[n - 1]
      && e.defines.entries.Keys == d.defines.entries.Keys && e.states.entries.Keys == d.states.entries.Keys
  {
  }

  /** The induction step for definitions, free of the resolution pass. */
  lemma UseStepDefine(d: Doc, n: nat, k: string, e: Doc, r: Doc)
    requires 0 < n <= |d.components| && n - 1 < |e.components| && e.components[n - 1] == d.components[n - 1]
    requires k in e.defines.entries && k in d.defines.entries && r == ResolveOne(e, n - 1)
    requires e.defines.entries[k].used <==> d.defines.entries[k].used || Named(d, n - 1, k)
    ensures k in r.defines.entries && (r.defines.entries[k].used <==> d.defines.entries[k].used || Named(d, n, k))
  {
    ResolveOneUsesDefine(e, n - 1, k);
    NamedStep(d, n, k);
  }

  /** The induction step for start conditions, free of the resolution pass. */
  lemma UseStepState(d: Doc, n: nat, k: string, e: Doc, r: Doc)
    requires 0 < n <= |d.components| && n - 1 < |e.components| && e.components[n - 1] == d.components[n - 1]
    requires k in e.states.entries && k in d.states.entries && r == ResolveOne(e, n - 1)
    requires e.defines.entries.Keys == d.defines.entries.Keys
    requires e.states.entries[k].used <==> d.states.entries[k].used || (k !in d.defines.entries && Named(d, n - 1, k))
    ensures k in r.states.entries
    ensures r.states.entries[k].used <==> d.states.entries[k].used || (k !in d.defines.entries && Named(d, n, k))
  {
    ResolveOneUsesState(e, n - 1, k);
    NamedStep(d, n, k);
  }

  /**
   * After resolving the first `n` components into `r`, a definition is
   * used when it was or some of them names it.
   */
  lemma {:induction false} ResolvedUseDefine(d: Doc, n: nat, k: string, r: Doc)
    requires n <= |d.components| && k in d.defines.entries && r == ResolveUpTo(d, n)
    ensures k in r.defines.entries && (r.defines.entries[k].used <==> d.defines.entries[k].used || Named(d, n, k))
  {
    if n > 0 {
      var e := ResolveUpTo(d, n - 1);
      ResolvedUseDefine(d, n - 1, k, e);
      ResolveUpToStep(d, n);
      UseStepDefine(d, n, k, e, r);
    }
  }

  /**
   * After resolving the first `n` components into `r`, a start condition
   * is used when it was or some of them names it and no definition has
   * that name.
   */
  lemma {:induction false} ResolvedUseState(d: Doc, n: nat, k: string, r: Doc)
    requires n <= |d.components| && k in d.states.entries && r == ResolveUpTo(d, n)
    ensures k in r.states.entries
    ensures r.states.entries[k].used <==> d.states.entries[k].used || (k !in d.defines.entries && Named(d, n, k))
  {
    if n > 0 {
      var e := ResolveUpTo(d, n - 1);
      ResolvedUseState(d, n - 1, k, e);
      ResolveUpToStep(d, n);
      UseStepState(d, n, k, e, r);
    }
  }

  /** No declaration is used yet. */
  ghost predicate NoneUsed(d: Doc) {
    && (forall k :: k in d.defines.entries ==> !d.defines.entries[k].used)
    && (forall k :: k in d.states.entries ==> !d.states.entries[k].used)
  }

  lemma SymbolAddedUnused(d: Doc, which: TableName, name: string, offset: int, end: int)
    requires NoneUsed(d)
    ensures NoneUsed(SymbolAdded(d, which, name, offset, end))
  {
  }

  lemma DeclKeepsUnused(text: string, t: S.Token, p: Parsing)
    requires p.loc.state == WaitingDecl && Inside(text, t) && NoneUsed(p.doc)
    ensures NoneUsed(Switch(text, t, p).doc)
  {
    assert Switch(text, t, p) == DeclTurn(text, t, p);
    SymbolAddedUnused(p.doc, DefinesTable, TokenText(text, t), t.offset, t.end);
  }

  lemma OptionParamsKeepsUnused(text: string, t: S.Token, p: Parsing)
    requires p.loc.state == WaitingOptionParams && Inside(text, t) && NoneUsed(p.doc)
    ensures NoneUsed(Switch(text, t, p).doc)
  {
    assert Switch(text, t, p) == OptionParamsTurn(text, t, p);
    SymbolAddedUnused(p.doc, StatesTable, TokenText(text, t), t.offset, t.end);
  }

  lemma TurnKeepsUnused(text: string, t: S.Token, p: Parsing)
    requires Inside(text, t) && NoneUsed(p.doc)
    ensures NoneUsed(Turn(text, t, p).doc)
  {
    if !Passed(t.tokenType) && t.tokenType != S.StartCode && t.tokenType != S.EndCode {
      var q := Switch(text, t, p);
      assert Turn(text, t, p).doc == q.doc;
      match p.loc.state {
        case WaitingDecl => DeclKeepsUnused(text, t, p);
        case WaitingDef => assert q == DefTurn(text, t, p);
        case WaitingOptionParams => OptionParamsKeepsUnused(text, t, p);
        case WaitingRule => assert q == RuleTurn(text, t, p);
        case WaitingAction => assert q == ActionTurn(t, p);
        case WithinRules =>
        case WithinCode =>
      }
    }
  }

  lemma {:induction false} RunKeepsUnused(text: string, t: S.Token, p: Parsing)
    requires t.end <= |text| + 3 && Inside(text, t) && (t.tokenType != S.EOS ==> 0 < t.end)
    requires NoneUsed(p.doc)
    ensures NoneUsed(Run(text, t, p).doc)
    decreases |text| + 4 - t.end, if t.tokenType == S.EOS then 0 else 1
  {
    if p.loc.end < 0 && t.tokenType != S.EOS {
      var q := Turn(text, t, p);
      TurnKeepsUnused(text, t, p);
      LexScannerFacts.StepBounds(text, t.state, q.loc.multi, t.end);
      RunKeepsUnused(text, S.Step(text, t.state, q.loc.multi, t.end), q);
    }
  }

  /** The main loop only declares: nothing is used before the resolution pass. */
  lemma MainLoopNoneUsed(text: string, state: ParserState)
    ensures NoneUsed(MainLoop(text, state).doc)
  {
    var first := S.Step(text, S.WithinContent, true, 0);
    LexScannerFacts.StepBounds(text, S.WithinContent, true, 0);
    RunKeepsUnused(text, first, Parsing(Initial(), Start(state, first.tokenType)));
  }

  /** Every unused entry among the first `n` keys gets its Warning. */
  lemma {:induction false} UnusedWarningsComplete(t: Table<Sym>, n: nat)
    requires n <= |t.keys|
    ensures forall j :: 0 <= j < n && t.keys[j] in t.entries && !t.entries[t.keys[j]].used ==>
      UnusedWarning(t.entries[t.keys[j]]) in UnusedWarnings(t, n)
  {
    if n > 0 {
      UnusedWarningsComplete(t, n - 1);
    }
  }

  /** Every Warning is that of an unused entry among the first `n` keys. */
  lemma {:induction false} UnusedWarningsSound(t: Table<Sym>, n: nat)
    requires n <= |t.keys|
    ensures forall w :: w in UnusedWarnings(t, n) ==>
      exists j :: 0 <= j < n && t.keys[j] in t.entries && !t.entries[t.keys[j]].used
                  && w == UnusedWarning(t.entries[t.keys[j]])
  {
    if n > 0 {
      UnusedWarningsSound(t, n - 1);
    }
  }

  /** The pass over a table warns about exactly the entries never used. */
  lemma UnusedEntriesReported(t: Table<Sym>)
    requires t.Valid()
    ensures var warnings := UnusedWarnings(t, |t.keys|);
      && (forall k :: k in t.entries && !t.entries[k].used ==> UnusedWarning(t.entries[k]) in warnings)
      && (forall w :: w in warnings ==> exists k :: k in t.entries && !t.entries[k].used && w == UnusedWarning(t.entries[k]))
  {
    UnusedWarningsComplete(t, |t.keys|);
    UnusedWarningsSound(t, |t.keys|);
    forall k | k in t.entries && !t.entries[k].used
      ensures UnusedWarning(t.entries[k]) in UnusedWarnings(t, |t.keys|)
    {
      var j :| 0 <= j < |t.keys| && t.keys[j] == k;
    }
  }

  /**
   * In a parse, the never-used Warnings follow the resolution's Errors:
   * first one for each definition no component names, then one for each
   * start condition no component names or whose name is also a
   * definition's (the lookup finds the definition first), and no others.
   */
  lemma NeverUsedReported(text: string, state: ParserState)
    ensures var m := MainLoop(text, state).doc;
      var r := Resolved(m);
      var n := |m.components|;
      var defineWarnings := UnusedWarnings(r.defines, |r.defines.keys|);
      var stateWarnings := UnusedWarnings(r.states, |r.states.keys|);
      && Parsed(text, state).problems == r.problems + defineWarnings + stateWarnings
      && (forall k :: k in r.defines.entries && !Named(m, n, k) ==> UnusedWarning(r.defines.entries[k]) in defineWarnings)
      && (forall w :: w in defineWarnings ==>
            exists k :: k in r.defines.entries && !Named(m, n, k) && w == UnusedWarning(r.defines.entries[k]))
      && (forall k :: k in r.states.entries && (k in m.defines.entries || !Named(m, n, k)) ==>
            UnusedWarning(r.states.entries[k]) in stateWarnings)
      && (forall w :: w in stateWarnings ==>
            exists k :: k in r.states.entries && (k in m.defines.entries || !Named(m, n, k)) && w == UnusedWarning(r.states.entries[k]))
  {
    var m := MainLoop(text, state).doc;
    var r := Resolved(m);
    MainLoopNoneUsed(text, state);
    MainLoopKeepsTables(text, state);
    forall k | k in m.defines.entries {
      ResolvedUseDefine(m, |m.components|, k, r);
    }
    forall k | k in m.states.entries {
      ResolvedUseState(m, |m.components|, k, r);
    }
    UnusedEntriesReported(r.defines);
    UnusedEntriesReported(r.states);
  }

  // ---------------------------------------------------------------------
  // Names every plain object inherits

  /** As written, a definition named `constructor` is reported as a duplicate and never stored. */
  lemma ConstructorDefinitionRefusedAsWritten(d: Doc, offset: int, end: int)
    requires "constructor" !in d.defines.entries
    ensures var r := SymbolAddedAsWritten(d, DefinesTable, "constructor", offset, end);
      && "constructor" !in r.defines.entries
      && r.problems == d.problems + [Problem(AlreadyDeclared, offset, end, Error, None)]
  {
  }

  /** Looked up as an own key, a definition named `constructor` is stored like any other. */
  lemma ConstructorDefinitionDeclared(d: Doc, offset: int, end: int)
    requires "constructor" !in d.defines.entries
    ensures var r := SymbolAdded(d, DefinesTable, "constructor", offset, end);
      && r.defines.entries["constructor"] == NewSym("constructor", offset, end)
      && r.problems == d.problems
  {
  }

  /** As written, resolving a component named `toString` that no definition declares throws. */
  lemma InheritedComponentThrowsAsWritten(d: Doc, i: nat)
    requires i < |d.components| && d.components[i].name == "toString"
    requires "toString" !in d.defines.entries
    ensures ResolveOneAsWritten(d, i).None?
  {
  }

  /** Looked up as an own key, such a component is reported as not declared. */
  lemma InheritedComponentReported(d: Doc, i: nat)
    requires i < |d.components| && d.components[i].name == "toString"
    requires "toString" !in d.defines.entries && "toString" !in d.states.entries
    ensures var c := d.components[i];
      ResolveOne(d, i) == WithProblem(d, NotDeclared, c.offset, c.end, Error, None)
  {
  }
}
