# Yacc and Lex parsing front end, modelled in Dafny

This project models the parsing front end of the yash editor extension for
Yacc/Bison grammars and Lex/Flex lexer files, and proves what it promises.
It covers:

- the character cursor `MultiLineStream` and `binarySearch`
  (`utils.dfy`, with the JavaScript string primitives in `chars.dfy`);
- the anchored regular expressions the scanners use, as hand-written
  matchers with declarative specifications (`patterns.dfy`);
- the Yacc scanner, the Lex scanner and the `%union` scanner
  (`yacc_scanner.dfy`, `lex_scanner.dfy`, `union_scanner.dfy`);
- the `%union` field extractor and its re-indenter `unIndent`
  (`union_parser.dfy`);
- the Yacc parser and the Lex parser: their main loops, the symbol tables
  they build and the passes after the loop (`yacc_parser.dfy`,
  `lex_parser.dfy`, with their properties in `yacc_parser_facts.dfy` and
  `lex_parser_facts.dfy`; the shared problem and table types are in
  `common.dfy`);
- the legend remapping of semantic tokens: `createMapping`,
  `applyTypesMapping` and `applyModifiersMapping`
  (`semantic_provider.dfy`, `semantic_provider_facts.dfy`).

The code changes state step by step, and the model keeps that form.
`MultiLineStream`, each scanner, each parsed document and the shared
legend are classes. Their methods change fields named in `modifies`
clauses, and every loop is a `while` or `for` loop with its invariants.

Every method is proved against a reference function of the inputs and the
old state:

- a scanner's `Scan` reports `Step(text, state, position)`;
- a parser's `Handle` leaves `Turn(text, token, before)`;
- `Parse` leaves `Parsed(text, ...)`;
- `CreateMapping` leaves `Merged(orig, legend, |orig|)`.

The properties the code promises are then proved about those functions as
lemmas. Examples: a scan always moves forward, `%` is classified by what
follows it, and an action ends at the `}` at which the count of braces
read since its `{` falls back to zero, comments and literals passed over. The parsers report exactly one Error per undeclared name and warn
about exactly the declarations never used. The first legend merged needs
no mapping exactly when it has no duplicates.

JavaScript dictionaries (`{ [name: string]: ISymbol }`) are `Table`s: a
map together with its keys in insertion order. That order is what
`Object.keys` gives, and it fixes the order of the unused-declaration
warnings.

The configuration values `yash.TargetLanguage` and `yash.YYTYPE` are
parameters (`targetLanguage`, `yyType`).

## Model

| member | source | states |
|---|---|---|
| Chars.SkipWhile | src/languages/parser/utils.ts:177-183 | the loop of `advanceWhileChar` stops at the first character failing the condition, or at the end; it never moves back, and never past the end when started inside the text |
| Chars.SkipWhileSpan | src/languages/parser/utils.ts:177-183 | every character `advanceWhileChar` consumes satisfies the condition and lies inside the text |
| Chars.IndexOfChar | src/languages/parser/utils.ts:139-147 | the first position at or after `from` holding `c`, or the end of the text; no earlier position from `from` on holds `c` |
| Chars.IndexOfSeq | src/languages/parser/utils.ts:149-161 | the first position at or after `from` where the sequence occurs, or the length of the text; it occurs at no earlier position |
| Chars.Substring | src/languages/parser/lexScanner.ts:217 | `substring` clamps both bounds to the text and swaps them when reversed: in-range bounds give the slice in either order, an end past the text gives the rest of the text, bounds around the whole text give the text |
| Chars.Trim | src/languages/parser/yaccParser.ts:230 | `trim` gives a result no longer than the input, made of the input's characters, which neither starts nor ends with white space |
| Chars.TrimIsSlice | src/languages/parser/yaccParser.ts:230 | the result of `trim` is a slice of the input, and every character of the input outside that slice is JavaScript white space |
| Patterns.LiteralBodyEndSound | src/languages/parser/yaccScanner.ts:48-50 | the greedy scan of a quoted literal's body passes over a body of the expression `(?:[^q\\\n]\|\\.)*` |
| Patterns.LiteralBodyEndUnique | src/languages/parser/yaccScanner.ts:48-50 | a body closed by its quote ends where the greedy scan ends, so the literal the scanner takes is the regular expression's match |
| Patterns.LiteralLengthCorrect | src/languages/parser/lexScanner.ts:16-18 | a nonzero literal length is a whole quoted literal, and no longer prefix is one |
| Patterns.ParamLengthCorrect | src/languages/parser/yaccScanner.ts:52-54 | a nonzero length is a whole `[name]` parameter, and no longer prefix is one |
| Patterns.ClassLengthCorrect | src/languages/parser/yaccScanner.ts:14-17 | a nonzero length is a longest match of the word, type-name, component or option pattern |
| Patterns.MatchLengthCorrect | src/languages/parser/utils.ts:117-125 | `advanceIfRegExp` with an anchored pattern takes a match starting at the position, the longest one, or nothing |
| Common.Table.Set | src/languages/parser/yaccParser.ts:168-179 | `table[name] = v`: a new key is appended to the key order, an existing key keeps its place; keys stay listed once each |
| Common.Table.Delete | src/languages/parser/yaccParser.ts:523 | `delete table[key]` removes exactly that entry and keeps the keys listed once each |
| Utils.BinarySearch | src/languages/parser/utils.ts:1-17 | a returned element compares equal to the key; on an array ordered consistently with the comparator, nothing is returned only when no element compares equal; the loop terminates as `high - low` decreases |
| Utils.MultiLineStream.constructor | src/languages/parser/utils.ts:53-57 | the stream holds the source and starts at the given position |
| Utils.MultiLineStream.Eos | src/languages/parser/utils.ts:59-61 | true exactly when the position is at or past the end |
| Utils.MultiLineStream.GetSource | src/languages/parser/utils.ts:63-65 | returns the source |
| Utils.MultiLineStream.Pos | src/languages/parser/utils.ts:67-69 | returns the position |
| Utils.MultiLineStream.GoBackTo | src/languages/parser/utils.ts:71-73 | the position becomes `pos` |
| Utils.MultiLineStream.GoBack | src/languages/parser/utils.ts:75-77 | the position moves back by `n` |
| Utils.MultiLineStream.Advance | src/languages/parser/utils.ts:79-81 | the position moves on by `n`, possibly past the end |
| Utils.MultiLineStream.GoToEnd | src/languages/parser/utils.ts:83-85 | the position becomes the length of the source |
| Utils.MultiLineStream.NextChar | src/languages/parser/utils.ts:87-89 | returns the character at the position, NUL past the end, and always moves on by one |
| Utils.MultiLineStream.PeekChar | src/languages/parser/utils.ts:91-93 | returns the character `n` ahead, NUL outside the text, and does not move |
| Utils.MultiLineStream.AdvanceIfChar | src/languages/parser/utils.ts:95-101 | moves on by exactly one if and only if the character at the position is `ch`; otherwise stays put |
| Utils.MultiLineStream.AdvanceIfChars | src/languages/parser/utils.ts:103-115 | moves on by `\|ch\|` if and only if the text continues with `ch` here, false when too short; otherwise stays put |
| Utils.MultiLineStream.AdvanceIfRegExp | src/languages/parser/utils.ts:117-125 | returns the anchored match and moves past it; with no match returns the empty string and stays put |
| Utils.MultiLineStream.AdvanceUntilChar | src/languages/parser/utils.ts:139-147 | stops at the first `ch` from the old position on and returns true, or at the end and returns false |
| Utils.MultiLineStream.AdvanceUntilChars | src/languages/parser/utils.ts:149-161 | stops at the first occurrence of `ch` from the old position on and returns true, or moves to the end and returns false |
| Utils.MultiLineStream.SkipWhitespace | src/languages/parser/utils.ts:163-168 | consumes spaces, tabs, line feeds, form feeds and carriage returns; true exactly when it consumed one |
| Utils.MultiLineStream.SkipWitheSpaceWithoutNewLine | src/languages/parser/utils.ts:170-175 | consumes spaces, tabs and form feeds only, never a line break; true exactly when it consumed one |
| Utils.MultiLineStream.AdvanceWhileChar | src/languages/parser/utils.ts:177-183 | moves to where the condition first fails and returns how many characters it consumed |
| LexScanner.ActionTick | src/languages/parser/lexScanner.ts:155-185 | one turn of the bracket loop moves on; the count changes by at most one, and drops only at a `}`; `exit` is set only at a line feed with multi-line brackets off |
| LexScanner.ActionLoop | src/languages/parser/lexScanner.ts:152-186 | the bracket loop ends just after a `}` that brings the count to zero, or at a line feed with multi-line brackets off, or after reading NUL past the end |
| LexScanner.Scanner.constructor | src/languages/parser/lexScanner.ts:4-10 | `createScanner`: a stream over the input at the initial offset, the initial state, an Unknown token at 0, multi-line brackets on |
| LexScanner.Scanner.EnableMultiLineBrackets | src/languages/parser/lexScanner.ts:31-33 | sets the flag and changes nothing else |
| LexScanner.Scanner.DisableMultiLineBrackets | src/languages/parser/lexScanner.ts:27-29 | clears the flag and changes nothing else |
| LexScanner.Scanner.NextComponent | src/languages/parser/lexScanner.ts:12-14 | consumes and returns the longest match of `[a-zA-Z]\w*`, or nothing |
| LexScanner.Scanner.NextLiteral | src/languages/parser/lexScanner.ts:16-18 | consumes and returns the quoted literal at the position, or nothing |
| LexScanner.Scanner.FinishToken | src/languages/parser/lexScanner.ts:20-25 | records the type, offset and error of the token and returns the type |
| LexScanner.Scanner.Scan | src/languages/parser/lexScanner.ts:35-45 | the scanner reports `Step` of the old state and position: `internalScan`, with one character forced as Unknown when it did not move |
| LexScanner.Scanner.InternalScan | src/languages/parser/lexScanner.ts:47-210 | the scanner reports `InternalStep`: blanks (or all white space in action, code and comment) skipped, then end of text, a Divider, or the state's token |
| LexScanner.Scanner.ScanContent | src/languages/parser/lexScanner.ts:69-132 | the WithinContent state's token at the first non-blank character |
| LexScanner.Scanner.ScanSlash | src/languages/parser/lexScanner.ts:72-81 | `/*` opens a comment, `//` is a comment to the end of the line, anything else falls back to a name |
| LexScanner.Scanner.ScanPercent | src/languages/parser/lexScanner.ts:82-95 | `%%`, `%{`, `%name` or a lone `%` |
| LexScanner.Scanner.ScanAngle | src/languages/parser/lexScanner.ts:96-102 | `<<` opens predefined text, `<` a list of start conditions |
| LexScanner.Scanner.ScanSingle | src/languages/parser/lexScanner.ts:103-112 | `\|`, `{` (entering the action), a space (the rest of the line Invalid) and a line feed |
| LexScanner.Scanner.ScanComponent | src/languages/parser/lexScanner.ts:124-132 | a name, or one unknown character |
| LexScanner.Scanner.ScanUntil | src/languages/parser/lexScanner.ts:133-146 | the closer of a comment, a code block or predefined text (lines 193-199) and back to WithinContent, or the text up to the closer |
| LexScanner.Scanner.ScanStates | src/languages/parser/lexScanner.ts:200-206 | `>` closes the list of start conditions, or the text up to it |
| LexScanner.Scanner.ActionChar | src/languages/parser/lexScanner.ts:155-185 | one turn of the bracket loop, as `ActionTick`; a line feed with multi-line brackets off leaves the action |
| LexScanner.Scanner.SkipActionComment | src/languages/parser/lexScanner.ts:163-171 | after a `/` in an action, a block comment or a line comment is passed over whole |
| LexScanner.Scanner.ScanAction | src/languages/parser/lexScanner.ts:147-192 | the closing `}`, or the action up to the balancing `}`, or an unclosed-code error |
| LexScannerFacts.InternalStepBounds | src/languages/parser/lexScanner.ts:47-62 | the token starts where skipping stopped and does not end before it |
| LexScannerFacts.ScanProgress | src/languages/parser/lexScanner.ts:35-45 | every scan but the one at the end of the text moves forward |
| LexScannerFacts.StepBounds | src/languages/parser/lexScanner.ts:35-45 | a scan stays within three characters past the end; an Action is only reported in the WithinAction state, inside the text |
| LexScannerFacts.EosIffNothingLeft | src/languages/parser/lexScanner.ts:47-62 | EOS exactly when nothing but characters the state skips is left |
| LexScannerFacts.DividerIffBlanks | src/languages/parser/lexScanner.ts:48-66 | outside action, code and comment, a run of blanks before a token is exactly a zero-length Divider at the token, never containing a line break; the next scan is not a Divider |
| LexScannerFacts.NeverInvalid | src/languages/parser/lexScanner.ts:108-110 | the Invalid branch for a space is unreachable |
| LexScannerFacts.LineFeedIsEol | src/languages/parser/lexScanner.ts:111-112 | a line feed in the WithinContent state is an EOL token of length one |
| LexScannerFacts.AngleOpens | src/languages/parser/lexScanner.ts:96-102 | `<<` gives StartPredefined, a single `<` gives StartStates, each entering its state |
| LexScannerFacts.PercentClassification | src/languages/parser/lexScanner.ts:82-95 | `%%` is RulesTag, `%{` is StartCode and enters WithinCode, `%` and an option name is Option covering a longest match of `[\w-]+`, a lone `%` is Percent |
| LexScannerFacts.WordIsComponent | src/languages/parser/lexScanner.ts:124-129 | a Word token is a longest match of `[a-zA-Z]\w*` |
| LexScannerFacts.LiteralIsQuoted | src/languages/parser/lexScanner.ts:113-119 | a Literal token is a whole quoted string |
| LexScannerFacts.StatesRunToClose | src/languages/parser/lexScanner.ts:200-206 | a States token holds no `>`, and the next scan gives EndStates and returns to WithinContent |
| LexScannerFacts.CodeRunsToClose | src/languages/parser/lexScanner.ts:140-146 | a Code token holds no `%}`, and the next scan gives EndCode and returns to WithinContent |
| LexScannerFacts.CommentRunsToClose | src/languages/parser/lexScanner.ts:133-139 | a Comment token holds no comment closer, and the next scan gives EndComment and returns to WithinContent |
| LexScannerFacts.PredefinedRunsToClose | src/languages/parser/lexScanner.ts:193-199 | a Predefined token holds no `>>`, and the next scan gives EndPredefined and returns to WithinContent |
| LexScannerFacts.ActionStopsBeforeBrace | src/languages/parser/lexScanner.ts:147-192 | an Action token ends just before a `}`, and the next scan gives EndAction there and returns to WithinContent |
| LexScannerFacts.ActionLineBreaks | src/languages/parser/lexScanner.ts:178-189 | with multi-line brackets on, the action state is left only by its `}`; with them off, an action open at a line feed is Unknown "Code not closed!" and back in WithinContent |
| LexScannerFacts.UnclosedAction | src/languages/parser/lexScanner.ts:187-189 | an action still open at the end of the text is Unknown "Code not closed!" |
| LexScannerFacts.ActionSkipsLiteral | src/languages/parser/lexScanner.ts:172-177 | a quoted literal inside an action is passed over whole, so a brace in it does not count |
| LexScannerFacts.ActionSkipsBlockComment | src/languages/parser/lexScanner.ts:163-166 | a block comment inside an action is passed over up to its closer |
| LexScannerFacts.ActionSkipsLineComment | src/languages/parser/lexScanner.ts:167-170 | a line comment inside an action is passed over up to and including its line feed |
| LexScannerFacts.ActionLoopCloses | src/languages/parser/lexScanner.ts:152-186 | over text with no comment, literal or NUL (and no line feed with brackets off), the loop stops just after the `}` at which the count of braces, `{` minus `}`, first falls to zero |
| LexScannerFacts.ActionLoopOpen | src/languages/parser/lexScanner.ts:152-186 | over such text, when that count never falls to zero the loop runs past the end with the count still open |
| LexScannerFacts.ActionLoopBreaks | src/languages/parser/lexScanner.ts:178-183 | with brackets off, the loop stops at the first line feed met while the count is still open, and sets `exit` |
| LexScannerFacts.ActionEndsAtBalancingBrace | src/languages/parser/lexScanner.ts:147-192 | an action is the text up to the `}` at which the brace count first falls to zero, and no further |
| LexScannerFacts.ActionUnbalanced | src/languages/parser/lexScanner.ts:187-189 | an action whose brace count never falls to zero before the end is Unknown "Code not closed!" and stays in the action |
| LexScannerFacts.ActionBreaksAtLineFeed | src/languages/parser/lexScanner.ts:178-189 | with brackets off, an action still open at a line feed is Unknown "Code not closed!" up to that line feed, back in WithinContent |
| LexScannerFacts.NestedBraceExample | src/languages/parser/lexScanner.ts:156-161 | in `a{b}c}` the action runs to the second `}` |
| UnionScanner.DefinitionTick | src/languages/parser/unionParser.ts:124-142 | one turn of the brace loop moves on; the count changes by at most one and drops only at a `}` |
| UnionScanner.DefinitionLoop | src/languages/parser/unionParser.ts:122-143 | the brace loop ends just after a `}` that brings the count to zero, or after reading NUL past the end |
| UnionScanner.Step | src/languages/parser/unionParser.ts:57-74 | EOS exactly when only white space is left; any other token starts at or after the position and is not empty |
| UnionScanner.Scanner.constructor | src/languages/parser/unionParser.ts:39-44 | a stream over the input at the initial offset, the initial state, an Unknown token at 0 |
| UnionScanner.Scanner.NextWord | src/languages/parser/unionParser.ts:46-48 | consumes and returns the longest match of `[a-zA-Z]\w*`, or nothing |
| UnionScanner.Scanner.FinishToken | src/languages/parser/unionParser.ts:50-55 | records the type, offset and error of the token and returns the type |
| UnionScanner.Scanner.Scan | src/languages/parser/unionParser.ts:57-67 | the scanner reports `Step` of the old state and position |
| UnionScanner.Scanner.InternalScan | src/languages/parser/unionParser.ts:69-152 | the scanner reports `InternalStep`: white space skipped, then end of text or the state's token |
| UnionScanner.Scanner.ScanContent | src/languages/parser/unionParser.ts:77-109 | `{`, `*`, `&`, `;`, a comment, a word, or one unknown character |
| UnionScanner.Scanner.ScanSlash | src/languages/parser/unionParser.ts:80-89 | `/*` opens a comment, `//` is a comment to the end of the line, anything else falls back to a word |
| UnionScanner.Scanner.ScanComment | src/languages/parser/unionParser.ts:110-116 | the comment closer and back to WithinContent, or the comment text up to it |
| UnionScanner.Scanner.DefinitionChar | src/languages/parser/unionParser.ts:124-142 | one turn of the brace loop, as `DefinitionTick` |
| UnionScanner.Scanner.ScanDefinition | src/languages/parser/unionParser.ts:117-148 | the closing `}`, or the nested text up to the balancing `}`, or "Definition not closed!" |
| UnionScannerFacts.BraceOpensDefinition | src/languages/parser/unionParser.ts:90-92 | `{` gives StartDefinition and enters WithinDefinition |
| UnionScannerFacts.DefinitionStopsBeforeBrace | src/languages/parser/unionParser.ts:117-148 | a Definition token ends just before a `}`, and the next scan gives EndDefinition there and returns to WithinContent |
| UnionScannerFacts.UnclosedDefinition | src/languages/parser/unionParser.ts:144-145 | a definition still open at the end is Unknown "Definition not closed!" |
| UnionScannerFacts.DefinitionSkipsBlockComment | src/languages/parser/unionParser.ts:132-135 | braces inside a block comment do not count |
| UnionScannerFacts.DefinitionSkipsLineComment | src/languages/parser/unionParser.ts:136-139 | braces inside a line comment do not count |
| UnionScannerFacts.DefinitionLoopCloses | src/languages/parser/unionParser.ts:122-143 | over text with no comment or NUL, the loop stops just after the `}` at which the count of braces, `{` minus `}`, first falls to zero |
| UnionScannerFacts.DefinitionLoopOpen | src/languages/parser/unionParser.ts:122-143 | over such text, when that count never falls to zero the loop runs past the end with the count still open |
| UnionScannerFacts.DefinitionEndsAtBalancingBrace | src/languages/parser/unionParser.ts:117-148 | a nested definition is the text up to the `}` at which the brace count first falls to zero, and no further |
| UnionScannerFacts.DefinitionUnbalanced | src/languages/parser/unionParser.ts:144-145 | a definition whose brace count never falls to zero before the end is Unknown "Definition not closed!" |
| UnionScannerFacts.NestedBraceExample | src/languages/parser/unionParser.ts:124-129 | in `a{b}c}` the definition runs to the second `}` |
| UnionScannerFacts.UnbalancedExample | src/languages/parser/unionParser.ts:144-145 | `a{b}` is never closed |
| UnionScannerFacts.WordIsComponent | src/languages/parser/unionParser.ts:101-106 | a Word token is a longest match of `[a-zA-Z]\w*` |
| UnionScannerFacts.Punctuation | src/languages/parser/unionParser.ts:93-98 | `*`, `&` and `;` are one-character tokens |
| UnionParser.Lines | src/languages/parser/unionParser.ts:166 | splitting on `\r\n`, `\r` or `\n` gives at least one piece, none holding a line break |
| UnionParser.Trimmed | src/languages/parser/unionParser.ts:167 | one trimmed line per line |
| UnionParser.Indented | src/languages/parser/unionParser.ts:170-178 | one re-indented line per line |
| UnionParser.Repeat | src/languages/parser/unionParser.ts:174 | `' '.repeat(n)` is `n` spaces when `n >= 0` and a RangeError otherwise |
| UnionParser.UnIndent | src/languages/parser/unionParser.ts:165-180 | returns the corrected re-indentation `UnIndented(text)` |
| UnionParser.IndentLines | src/languages/parser/unionParser.ts:170-178 | the `forEach` that updates `indent` gives each line its indentation |
| UnionParser.Consume | src/languages/parser/unionParser.ts:199-247 | one turn of the `switch` keeps a pending declaration non-empty |
| UnionParser.Handle | src/languages/parser/unionParser.ts:199-247 | the pending declaration and the fields after one token are `Consume`'s |
| UnionParser.Parse | src/languages/parser/unionParser.ts:189-252 | returns `Fields(text, targetLanguage)` |
| UnionParserFacts.LinesOfJoin | src/languages/parser/unionParser.ts:166-179 | splitting lines joined with `\n` gives the lines back when none holds a break |
| UnionParserFacts.UnIndentLines | src/languages/parser/unionParser.ts:165-180 | the lines of the output are the re-indented trimmed lines |
| UnionParserFacts.UnIndentKeepsLines | src/languages/parser/unionParser.ts:165-180 | `unIndent` keeps the number of lines; each output line is the trimmed input line behind its indentation in spaces |
| UnionParserFacts.IndentedLineTrims | src/languages/parser/unionParser.ts:174 | a re-indented line is spaces then the trimmed line, and trimming its start gives the trimmed line |
| UnionParserFacts.IndentFromAgrees | src/languages/parser/unionParser.ts:170-178 | while no line's indentation is negative, the code as written and the corrected model agree |
| UnionParserFacts.UnIndentAsWrittenAgrees | src/languages/parser/unionParser.ts:165-180 | the code as written returns the corrected result whenever no indentation turns negative, and throws otherwise |
| UnionParserFacts.UnIndentNestedOneLine | src/languages/parser/unionParser.ts:171-174 | as written, `s{}x;` throws a RangeError |
| UnionParserFacts.UnIndentNestedOneLineCorrected | src/languages/parser/unionParser.ts:171-174 | corrected, `s{}x;` is returned as it is |
| UnionParserFacts.SemicolonCompletes | src/languages/parser/unionParser.ts:200-215 | `;` with nothing pending changes nothing; with a declaration pending, it adds exactly one field, named by the last token (the first under the Go convention), ending at the `;`, and clears the pending declaration |
| UnionParserFacts.SecondWord | src/languages/parser/unionParser.ts:216-229 | a word starts a declaration, or joins the pending one; under the Go convention the second word completes the field, named by the first |
| UnionParserFacts.ModifiersJoinPending | src/languages/parser/unionParser.ts:231-241 | `*`, `&` and the braces of a nested definition join the pending declaration, and only that |
| UnionParserFacts.RunOk | src/languages/parser/unionParser.ts:197-249 | the loop from any token keeps every field well formed, with `location[0] < location[1]`, in source order without overlap |
| UnionParserFacts.FieldsWellFormed | src/languages/parser/unionParser.ts:189-252 | every field `parse` returns starts with its first word at `location[0]`, ends after it, and the fields come in source order |
| YaccScanner.TypeAt | src/languages/parser/yaccScanner.ts:19-45 | `nextType` never moves back nor past the end |
| YaccScanner.TypeArgsAt | src/languages/parser/yaccScanner.ts:30-36 | the `, type` loop never moves back nor past the end |
| YaccScanner.CodeLoop | src/languages/parser/yaccScanner.ts:192-219 | the bracket loop ends just after a `}` that brings the count to zero, or after reading NUL past the end |
| YaccScanner.CodeTick | src/languages/parser/yaccScanner.ts:194-218 | one turn of the bracket loop moves on; the count changes by at most one and drops only at a `}` |
| YaccScanner.Scanner.constructor | src/languages/parser/yaccScanner.ts:7-12 | a stream over the input at the initial offset, the initial state, an Unknown token at 0 |
| YaccScanner.Scanner.NextWord | src/languages/parser/yaccScanner.ts:14-17 | consumes and returns the longest match of `[a-zA-Z][\w.-]*`, or nothing |
| YaccScanner.Scanner.NextLiteral | src/languages/parser/yaccScanner.ts:48-50 | consumes and returns the quoted literal at the position, or nothing |
| YaccScanner.Scanner.NextParam | src/languages/parser/yaccScanner.ts:52-54 | consumes and returns the `[name]` at the position, or nothing |
| YaccScanner.Scanner.NextType | src/languages/parser/yaccScanner.ts:19-45 | returns and consumes `TypeAt`: a type name, then optionally `<`, types separated by `,`, and `>` |
| YaccScanner.Scanner.NextTypeOpen | src/languages/parser/yaccScanner.ts:25-41 | after `name <`: the first type, the list after it and the optional `>` |
| YaccScanner.Scanner.NextTypeClose | src/languages/parser/yaccScanner.ts:38-41 | the optional `>` after white space |
| YaccScanner.Scanner.SkipThenChar | src/languages/parser/yaccScanner.ts:31-32 | white space, then the character when it comes next |
| YaccScanner.Scanner.NextTypeArgs | src/languages/parser/yaccScanner.ts:30-36 | the `for (;;)` loop over `, type` gives `TypeArgsAt` |
| YaccScanner.Scanner.NextTypeArg | src/languages/parser/yaccScanner.ts:31-35 | one turn of that loop: a `,` and a type, or nothing more |
| YaccScanner.Scanner.FinishToken | src/languages/parser/yaccScanner.ts:60-65 | records the type, offset and error of the token and returns the type |
| YaccScanner.Scanner.Scan | src/languages/parser/yaccScanner.ts:67-77 | the scanner reports `Step` of the old state and position: `internalScan`, with one character forced when it did not move |
| YaccScanner.Scanner.InternalScan | src/languages/parser/yaccScanner.ts:79-228 | the scanner reports `InternalStep`: white space skipped, then end of text or the state's token |
| YaccScanner.Scanner.ScanContent | src/languages/parser/yaccScanner.ts:87-166 | the WithinContent state's token |
| YaccScanner.Scanner.ScanPunctuation | src/languages/parser/yaccScanner.ts:100-110 | `\|`, `:`, `{` (entering code), `}` and `.` |
| YaccScanner.Scanner.ScanSlash | src/languages/parser/yaccScanner.ts:90-99 | `/*` opens a comment, `//` is a comment to the end of the line, anything else falls back |
| YaccScanner.Scanner.ScanQuotedOrParam | src/languages/parser/yaccScanner.ts:132-148 | a literal or a parameter, else one unknown character |
| YaccScanner.Scanner.ScanOther | src/languages/parser/yaccScanner.ts:153-166 | a literal, a word, or one unknown character |
| YaccScanner.Scanner.ScanPercent | src/languages/parser/yaccScanner.ts:111-128 | `%%`, `%{`, `%define` with the rest of its line, another option, or a lone `%` |
| YaccScanner.Scanner.ScanOption | src/languages/parser/yaccScanner.ts:120-128 | `%define` in any case takes the rest of its line, any other name is an Option, else a lone `%` |
| YaccScanner.Scanner.ScanTypeValue | src/languages/parser/yaccScanner.ts:167-179 | `>` closes the type, a type is a TypeValue, else one unknown character and back to WithinContent |
| YaccScanner.Scanner.ScanComment | src/languages/parser/yaccScanner.ts:180-186 | the comment closer and back to WithinContent, or the comment text up to it |
| YaccScanner.Scanner.CodeChar | src/languages/parser/yaccScanner.ts:194-218 | one turn of the bracket loop, as `CodeTick` |
| YaccScanner.Scanner.CodeSlash | src/languages/parser/yaccScanner.ts:202-209 | after a `/` in code, a block or line comment is skipped whole |
| YaccScanner.Scanner.ScanCode | src/languages/parser/yaccScanner.ts:187-224 | the closing `}`, or the code up to the balancing `}`, or "Code not closed!" |
| YaccScannerFacts.ScanProgress | src/languages/parser/yaccScanner.ts:67-77 | every scan that does not return EOS moves the position forward by at least one |
| YaccScannerFacts.StepBounds | src/languages/parser/yaccScanner.ts:67-77 | a scan started near the end stays within three characters past it |
| YaccScannerFacts.TypeAtProgress | src/languages/parser/yaccScanner.ts:19-45 | `nextType` never moves backwards |
| YaccScannerFacts.EosIffOnlyWhitespace | src/languages/parser/yaccScanner.ts:79-84 | EOS is returned exactly when only white space remains |
| YaccScannerFacts.PercentIsStep | src/languages/parser/yaccScanner.ts:111-128 | at a `%` the scan makes the `%` decision, and its token is never empty |
| YaccScannerFacts.PercentClassification | src/languages/parser/yaccScanner.ts:111-128 | `%%` is RulesTag; `%{` is StartAction entering WithinCode; the token is one of RulesTag, StartAction, Definition, Option, Percent |
| YaccScannerFacts.PercentAlone | src/languages/parser/yaccScanner.ts:120-128 | a `%` starting neither `%%` nor `%{` is a lone Percent exactly when no option name follows |
| YaccScannerFacts.PercentDefinition | src/languages/parser/yaccScanner.ts:121-125 | `%define` in any letter case is a Definition running up to, not including, the next line feed |
| YaccScannerFacts.OptionNameInLine | src/languages/parser/yaccScanner.ts:120 | an option name holds no line feed |
| YaccScannerFacts.PercentOption | src/languages/parser/yaccScanner.ts:126 | any other `%word` is an Option covering exactly `%` and the name |
| YaccScannerFacts.DefineInAnyCase | src/languages/parser/yaccScanner.ts:121 | the lowered option is `%define` exactly when the text is `%` and the letters of `define`, each in either case |
| YaccScannerFacts.ActionStopsAtClosingBrace | src/languages/parser/yaccScanner.ts:187-224 | an Action token ends just before a `}`, and the next scan gives EndAction there and returns to WithinContent |
| YaccScannerFacts.UnclosedCode | src/languages/parser/yaccScanner.ts:218-222 | code still open at the end is Unknown "Code not closed!" |
| YaccScannerFacts.CodeLoopStaysOpen | src/languages/parser/yaccScanner.ts:193-219 | without a `}`, the depth never drops below its start |
| YaccScannerFacts.CodeSkipsLiteral | src/languages/parser/yaccScanner.ts:211-216 | braces inside a quoted literal do not change the depth |
| YaccScannerFacts.CodeSkipsBlockComment | src/languages/parser/yaccScanner.ts:202-205 | braces inside a block comment do not change the depth |
| YaccScannerFacts.CodeSkipsLineComment | src/languages/parser/yaccScanner.ts:206-209 | a line comment inside code is passed over up to and including its line feed |
| YaccScannerFacts.CodeLoopCloses | src/languages/parser/yaccScanner.ts:192-219 | over text with no comment, literal or NUL, the loop stops just after the `}` at which the count of brackets, `{` minus `}`, first falls to zero |
| YaccScannerFacts.CodeLoopOpen | src/languages/parser/yaccScanner.ts:192-219 | over such text, when that count never falls to zero the loop runs past the end with the count still open |
| YaccScannerFacts.ActionEndsAtBalancingBrace | src/languages/parser/yaccScanner.ts:187-224 | action code is the text up to the `}` at which the bracket count first falls to zero, and no further |
| YaccScannerFacts.ActionUnbalanced | src/languages/parser/yaccScanner.ts:220-222 | code whose bracket count never falls to zero before the end is Unknown "Code not closed!" |
| YaccScannerFacts.NestedBraceExample | src/languages/parser/yaccScanner.ts:196-201 | in `a{b}c}` the action runs to the second `}` |
| YaccScannerFacts.UnbalancedExample | src/languages/parser/yaccScanner.ts:220-222 | `x { }` is never closed |
| YaccScannerFacts.BraceInStringExample | src/languages/parser/yaccScanner.ts:211-216 | in `x = "}"; } y` the action runs to the second `}` |
| YaccScannerFacts.CommentRunsToCloser | src/languages/parser/yaccScanner.ts:180-186 | a Comment holds no closer and runs to the next one or the end; the next scan gives EndComment |
| YaccScannerFacts.LineCommentToEndOfLine | src/languages/parser/yaccScanner.ts:95-98 | a `//` comment runs to the end of its line, the line feed excluded |
| YaccScannerFacts.TypeIsConsumedTextStripped | src/languages/parser/yaccScanner.ts:19-45 | the TypeValue text is exactly the consumed text with white space removed |
| YaccScannerFacts.OpenTypeIsConsumedTextStripped | src/languages/parser/yaccScanner.ts:25-41 | the same for the part after `<` |
| YaccScannerFacts.ArgsAreConsumedTextStripped | src/languages/parser/yaccScanner.ts:30-36 | the same for the comma-separated arguments |
| YaccScannerFacts.TypeEmptyIffNoProgress | src/languages/parser/yaccScanner.ts:173-176 | `nextType` returns the empty string exactly when it consumed nothing |
| YaccParser.PredefinedDescription | src/languages/parser/yaccParser.ts:9-10 | `predefined[name]` is set exactly for `error` |
| YaccParser.AddSymbol | src/languages/parser/yaccParser.ts:158-182 | a name already in the table gets one Error whose related range is the first declaration, which is kept; a new name is stored last in key order, unused and referenced at its own range |
| YaccParser.MatchDefine | src/languages/parser/yaccParser.ts:231-234 | a match of `^\s*%define\s+(\S+)\s*(.*)` has a non-empty key without white space and a value without line terminator |
| YaccParser.TokenWordAsWritten | src/languages/parser/yaccParser.ts:315-319 | as written, a name reserved by an inherited member is refused like `error` |
| YaccParser.RunKeepsTables | src/languages/parser/yaccParser.ts:199-470 | the main loop keeps every table listing its keys once each |
| YaccParser.MainLoopKeepsTables | src/languages/parser/yaccParser.ts:188-470 | the tables `parse` builds list each name once |
| YaccParser.YaccDocument.constructor | src/languages/parser/yaccParser.ts:88-110 | the empty document, `rulesRange` covering the whole text |
| YaccParser.YaccDocument.AddProblem | src/languages/parser/yaccParser.ts:148-156 | appends one problem and changes nothing else |
| YaccParser.YaccDocument.AddSymbolToMap | src/languages/parser/yaccParser.ts:158-182 | the document becomes `AddSymbol`'s, and reports whether the symbol was added |
| YaccParser.YaccDocument.GetNodeByOffset | src/languages/parser/yaccParser.ts:111-113 | a returned node holds the offset; on ordered nodes, nothing is returned only when no node holds it |
| YaccParser.YaccDocument.GetEmbeddedNode | src/languages/parser/yaccParser.ts:114-116 | the same over the embedded code regions |
| YaccParser.Parse | src/languages/parser/yaccParser.ts:85-550 | the document is `Parsed(text, targetLanguage, yyType)` |
| YaccParser.CheckDocument | src/languages/parser/yaccParser.ts:472-547 | the four passes after the loop, in order |
| YaccParser.MainLoopOver | src/languages/parser/yaccParser.ts:188-470 | the document after the loop is `MainLoop(text, targetLanguage).doc` |
| YaccParser.Handle | src/languages/parser/yaccParser.ts:200-467 | one iteration: `Turn` |
| YaccParser.HandleSwitch | src/languages/parser/yaccParser.ts:201-465 | the `switch` on the token: `Switch` |
| YaccParser.HandleAction | src/languages/parser/yaccParser.ts:208-227 | `%union` fields become types; actions in the rules are added to the open rule node |
| YaccParser.AddUnionFields | src/languages/parser/yaccParser.ts:212-218 | the named fields added to the types at their shifted range |
| YaccParser.HandleDefine | src/languages/parser/yaccParser.ts:228-242 | a `%define` line enters the defines, or is an Error |
| YaccParser.HandleOption | src/languages/parser/yaccParser.ts:243-276 | closes the open declaration node, then opens the node of `%token`, `%type` or a precedence, or waits for the `%union` |
| YaccParser.HandleTypeValue | src/languages/parser/yaccParser.ts:286-295 | the type is referenced if declared, else an Error unless the value types are variants |
| YaccParser.HandleRulesTag | src/languages/parser/yaccParser.ts:296-308 | closes the open node, sets the start or the end of the rules, counts `end` up |
| YaccParser.HandleWord | src/languages/parser/yaccParser.ts:309-346 | a declared token, type symbol or precedence name, a rule component, or an Error |
| YaccParser.HandleColon | src/languages/parser/yaccParser.ts:347-398 | a rule head after a word or parameter in the rules; an Error otherwise |
| YaccParser.HandleHead | src/languages/parser/yaccParser.ts:354-392 | the last component becomes the head: previous rule closed, head declared, new rule opened |
| YaccParser.DeclareNonTerminal | src/languages/parser/yaccParser.ts:367-391 | the head checked against earlier rules and tokens, and entered in the symbols |
| YaccParser.HandleParam | src/languages/parser/yaccParser.ts:404-424 | `[name]` after a word or action is a named reference, otherwise an Error |
| YaccParser.HandleLiteral | src/languages/parser/yaccParser.ts:425-454 | single quotes skipped; an alias in a `%token` line; a component in the rules |
| YaccParser.AssignAlias | src/languages/parser/yaccParser.ts:430-437 | the literal becomes the alias of the last token, the two linked, or an Error |
| YaccParser.ResolveComponents | src/languages/parser/yaccParser.ts:472-503 | the resolution loop: `Resolved` |
| YaccParser.ResolveComponent | src/languages/parser/yaccParser.ts:473-502 | one component resolved: `ResolveOne` |
| YaccParser.ReportUnusedTokens | src/languages/parser/yaccParser.ts:505-514 | the unused-token Warnings in key order |
| YaccParser.PruneSymbols | src/languages/parser/yaccParser.ts:516-525 | the `forEach` over the symbol keys: `Pruned` |
| YaccParser.PruneSymbol | src/languages/parser/yaccParser.ts:517-524 | one key removed with a Warning when declared before the rules |
| YaccParser.CheckValueTypes | src/languages/parser/yaccParser.ts:527-547 | the `$$` check over the rule nodes: `ValueChecked` |
| YaccParser.FindValueUse | src/languages/parser/yaccParser.ts:531-546 | true exactly when some action holds `$$` |
| YaccParserFacts.DefineLineLaidOut | src/languages/parser/yaccParser.ts:231-234 | `%define key value` with single spaces matches with that key and value |
| YaccParserFacts.DefineLineRoundTrip | src/languages/parser/yaccParser.ts:228-237 | a `%define` line written from a key and a value is read back as written |
| YaccParserFacts.TokenDeclaration | src/languages/parser/yaccParser.ts:314-321 | `error` in a `%token` line is refused; a declared name keeps its first declaration and gets an Error pointing at it; a new name is declared with the current type |
| YaccParserFacts.PrecedenceDeclaration | src/languages/parser/yaccParser.ts:325-329 | a precedence name is added only when not a token yet, and never reports |
| YaccParserFacts.ReservedRuleHead | src/languages/parser/yaccParser.ts:362-366 | `error` as a rule head is an Error and is not entered in the symbols |
| YaccParserFacts.RuleHeadDefinition | src/languages/parser/yaccParser.ts:354-391 | the head leaves the components, becomes a non-terminal defined at its own range with its `%type` type, the previous rule closes at its offset and a new rule with no actions opens |
| YaccParserFacts.RuleHeadConflicts | src/languages/parser/yaccParser.ts:369-389 | a head already defined by a rule, or declared as a token, is reported against the first declaration |
| YaccParserFacts.MisplacedColon | src/languages/parser/yaccParser.ts:347-396 | a `:` outside the rules, or not after a word or parameter, is one Error and changes nothing else |
| YaccParserFacts.AliasLinksBoth | src/languages/parser/yaccParser.ts:430-434 | a double-quoted literal after a `%token` name with no alias becomes its alias with its type, and the two name each other |
| YaccParserFacts.AliasRefused | src/languages/parser/yaccParser.ts:435-437 | with no token waiting, or an alias already taken, one Error and nothing linked |
| YaccParserFacts.SingleQuotedSkipped | src/languages/parser/yaccParser.ts:426-428 | single-quoted literals change nothing |
| YaccParserFacts.UnionStep | src/languages/parser/yaccParser.ts:212-218 | one `%union` field is declared unless it has no name or is declared already |
| YaccParserFacts.UnionTypesKeepEarlier | src/languages/parser/yaccParser.ts:212-218 | the `%union` fields never change a type declared before |
| YaccParserFacts.UnionTypesDeclared | src/languages/parser/yaccParser.ts:212-218 | every named `%union` field ends up declared as a type |
| YaccParserFacts.UnionTypesAtShiftedRange | src/languages/parser/yaccParser.ts:214-216 | a new field is declared at its range shifted by the action's offset, with its declaration as type |
| YaccParserFacts.UnionNamesBefore | src/languages/parser/yaccParser.ts:212-218 | the type names after the fields are those before plus the fields' names |
| YaccParserFacts.TurnTracksTags | src/languages/parser/yaccParser.ts:296-308 | only `%%` moves `end`, by one, or the rules range: its start first, its end second |
| YaccParserFacts.RunTracksTags | src/languages/parser/yaccParser.ts:199-470 | over the loop `end` only grows and stays at most 0; the range moves only at a `%%` |
| YaccParserFacts.MainLoopRulesRange | src/languages/parser/yaccParser.ts:96-308 | with no `%%` the rules range is still `[0, text.length]`; with one only its start moved; the loop stops at the second |
| YaccParserFacts.ResolutionOrder | src/languages/parser/yaccParser.ts:472-503 | a component is looked up in the symbols, then the tokens, then the aliases; the first that has it gives its definition, type and references and is marked used (an alias marks its token too); otherwise one Error unless the name is reserved |
| YaccParserFacts.ResolveReportsUndeclared | src/languages/parser/yaccParser.ts:495-502 | the resolution pass adds exactly one "Symbol was not declared." per undeclared component, in order, and nothing else |
| YaccParserFacts.UnusedWarningsComplete | src/languages/parser/yaccParser.ts:505-514 | every unused token gets its Warning |
| YaccParserFacts.UnusedWarningsSound | src/languages/parser/yaccParser.ts:505-514 | every Warning is that of an unused token |
| YaccParserFacts.UnusedTokensReported | src/languages/parser/yaccParser.ts:505-514 | the pass warns about exactly the tokens never used |
| YaccParserFacts.PruneUpToFacts | src/languages/parser/yaccParser.ts:516-525 | pruning keeps only symbols, unchanged, keeps every symbol defined inside the rules, and leaves none of the visited keys that precede the rules |
| YaccParserFacts.PruneOneFacts | src/languages/parser/yaccParser.ts:517-524 | one step removes at most its key, and only when it precedes the rules |
| YaccParserFacts.PrunedSymbolsFollowRules | src/languages/parser/yaccParser.ts:516-525 | after pruning every non-terminal is defined inside the rules, and every one that was is still there |
| YaccParserFacts.ValueProblemsBounded | src/languages/parser/yaccParser.ts:527-547 | at most one Error per node, none with a default type, each for a rule using `$$` whose non-terminal has no type |
| YaccParserFacts.ConstructorTokenRefusedAsWritten | src/languages/parser/yaccParser.ts:315 | as written, `%token constructor` is refused and no token is declared |
| YaccParserFacts.ConstructorTokenDeclared | src/languages/parser/yaccParser.ts:315 | corrected, `%token constructor` declares the token |
| LexParser.SymbolAdded | src/languages/parser/lexParser.ts:85-104 | a name already in the table gets one Error whose related range is the first declaration, which is kept; a new name is stored last in key order |
| LexParser.SymbolAddedAsWritten | src/languages/parser/lexParser.ts:85-87 | as written, a name every object inherits is reported as declared and never stored; other names behave as `SymbolAdded` |
| LexParser.ResolveOneAsWritten | src/languages/parser/lexParser.ts:303-308 | as written, a component named by an inherited member and no definition throws; a name no object inherits is resolved as by `ResolveOne` |
| LexParser.RunKeepsTables | src/languages/parser/lexParser.ts:116-298 | the main loop keeps both tables listing their keys once each |
| LexParser.MainLoopKeepsTables | src/languages/parser/lexParser.ts:106-298 | the tables `parse` builds list each name once |
| LexParser.LexDocument.constructor | src/languages/parser/lexParser.ts:55-73 | the empty document, rules range `[-1, -1]` |
| LexParser.LexDocument.AddProblem | src/languages/parser/lexParser.ts:75-83 | appends one problem |
| LexParser.LexDocument.AddSymbol | src/languages/parser/lexParser.ts:85-104 | the document becomes `SymbolAdded`'s |
| LexParser.LexDocument.GetEmbeddedCode | src/languages/parser/lexParser.ts:70-72 | a returned region holds the offset; on ordered regions nothing is returned only when none holds it |
| LexParser.Parse | src/languages/parser/lexParser.ts:54-345 | the document is `Parsed(text, state)` |
| LexParser.CheckDocument | src/languages/parser/lexParser.ts:300-342 | resolution, then the unused definitions, then the unused start conditions |
| LexParser.MainLoopOver | src/languages/parser/lexParser.ts:106-298 | the document after the loop is `MainLoop(text, state).doc` |
| LexParser.Handle | src/languages/parser/lexParser.ts:117-297 | one iteration: `Turn`; the scanner's flag follows the loop's |
| LexParser.HandleSwitch | src/languages/parser/lexParser.ts:140-295 | the `switch (state)`: `Switch` |
| LexParser.HandleDecl | src/languages/parser/lexParser.ts:141-166 | a word declares a definition and turns multi-line brackets off; an option opens its list; `%%` starts the rules; blanks are an Error |
| LexParser.HandleDef | src/languages/parser/lexParser.ts:167-187 | the end of line ends the pattern and turns brackets back on; `{name}` is an occurrence |
| LexParser.HandleOptionParams | src/languages/parser/lexParser.ts:188-199 | words are start conditions when the option declares them; the end of line closes the list |
| LexParser.HandleRule | src/languages/parser/lexParser.ts:200-276 | the rules-section `switch`: `RuleTurn` |
| LexParser.PushStatesOccurrences | src/languages/parser/lexParser.ts:207-224 | the `while` over the matches of `/\w+/g` pushes `StatesOccurrences` |
| LexParser.HandleRuleAction | src/languages/parser/lexParser.ts:228-267 | `{word}`, a start-condition block parsed again, or "Invalid definition pattern." |
| LexParser.PushShifted | src/languages/parser/lexParser.ts:252-258 | the nested components moved and pushed |
| LexParser.PushShiftedCodes | src/languages/parser/lexParser.ts:259-263 | the nested code regions moved and pushed |
| LexParser.HandleAction | src/languages/parser/lexParser.ts:277-294 | an action's code regions, until the end of the line or a `\|` |
| LexParser.ResolveComponents | src/languages/parser/lexParser.ts:300-320 | the resolution loop: `Resolved` |
| LexParser.ResolveComponent | src/languages/parser/lexParser.ts:301-319 | one component resolved: `ResolveOne` |
| LexParser.ReportUnused | src/languages/parser/lexParser.ts:322-342 | the never-used Warnings of one table, in key order |
| LexParserFacts.DefinitionStarts | src/languages/parser/lexParser.ts:143-149 | a word before the rules declares a definition or reports the duplicate, and turns multi-line brackets off |
| LexParserFacts.DefinitionPattern | src/languages/parser/lexParser.ts:167-187 | in a pattern only the end of line changes state, turning brackets back on; `{name}` is an occurrence; nothing is declared or reported |
| LexParserFacts.DividerReported | src/languages/parser/lexParser.ts:162-164 | blanks at the start of a declaration line are one Error |
| LexParserFacts.OptionLine | src/languages/parser/lexParser.ts:150-156 | an option accepts start conditions exactly when its second character is `s` or `x` |
| LexParserFacts.OptionParams | src/languages/parser/lexParser.ts:188-198 | after an option, words declare start conditions only when it accepts them; the end of line closes the list |
| LexParserFacts.EmbeddedCodeAnyState | src/languages/parser/lexParser.ts:119-130 | `%{ ... %}` is recorded from `%{` to the end of `%}` in every state, which it does not change |
| LexParserFacts.TurnTracksTags | src/languages/parser/lexParser.ts:157-274 | only `%%` moves `end`, by one, or the rules range: in a declaration line the start, among the rules the end |
| LexParserFacts.DeclMoves | src/languages/parser/lexParser.ts:141-166 | where the switch leads from a declaration line |
| LexParserFacts.DefMoves | src/languages/parser/lexParser.ts:167-187 | where it leads from a pattern |
| LexParserFacts.OptionParamsMoves | src/languages/parser/lexParser.ts:188-199 | where it leads from an option list |
| LexParserFacts.RulesMoves | src/languages/parser/lexParser.ts:200-294 | the rules section is never left |
| LexParserFacts.TurnPhase | src/languages/parser/lexParser.ts:116-298 | one turn keeps the phases of the parse |
| LexParserFacts.RunPhase | src/languages/parser/lexParser.ts:116-298 | the loop keeps the phases of the parse |
| LexParserFacts.MainLoopRulesRange | src/languages/parser/lexParser.ts:57-298 | with no `%%` the rules range is `[-1, -1]`; with one only its start is set; with two the loop stopped at the second, which set the end, not before the start |
| LexParserFacts.StatesOccurrencesSound | src/languages/parser/lexParser.ts:207-224 | each occurrence of a `<...>` list is a maximal run of word characters at the token's offset plus its index, named by its text |
| LexParserFacts.StatesOccurrencesComplete | src/languages/parser/lexParser.ts:207-224 | every word character lies in one of the occurrences |
| LexParserFacts.StatesOccurrencesOrdered | src/languages/parser/lexParser.ts:207-224 | the occurrences come in text order |
| LexParserFacts.StatesAnchored | src/languages/parser/lexParser.ts:207-224 | the names of a `<...>` token spell themselves at their place in the text |
| LexParserFacts.ShiftedAnchored | src/languages/parser/lexParser.ts:251-258 | nested occurrences moved by the block's offset spell their names in the whole text |
| LexParserFacts.MainLoopAnchored | src/languages/parser/lexParser.ts:116-298 | every component the main loop leaves spells its name in the text |
| LexParserFacts.RunAnchored | src/languages/parser/lexParser.ts:116-298 | the loop keeps the components anchored |
| LexParserFacts.TurnAnchored | src/languages/parser/lexParser.ts:140-295 | one turn keeps the components anchored |
| LexParserFacts.RuleAnchored | src/languages/parser/lexParser.ts:200-267 | the rules-section turn keeps the components anchored |
| LexParserFacts.TurnInRules | src/languages/parser/lexParser.ts:200-294 | a nested parse of the rules declares nothing |
| LexParserFacts.RunInRules | src/languages/parser/lexParser.ts:200-294 | its loop declares nothing |
| LexParserFacts.ResolveUndeclared | src/languages/parser/lexParser.ts:313-319 | with empty tables the resolution only reports |
| LexParserFacts.NestedParse | src/languages/parser/lexParser.ts:251 | a block parsed on its own returns its main loop's components and code regions, unresolved |
| LexParserFacts.RuleAction | src/languages/parser/lexParser.ts:225-266 | `{word}` is an occurrence; a block after `>` adds its own occurrences and code regions, moved, each spelling its name, and none of its problems; anything else is "Invalid definition pattern." |
| LexParserFacts.ResolveKeepsRanges | src/languages/parser/lexParser.ts:300-320 | resolution changes no component's name or range |
| LexParserFacts.ParsedComponentsSpellNames | src/languages/parser/lexParser.ts:54-345 | every component `parse` reports, nested ones included, spells its name in the text |
| LexParserFacts.ResolutionOrder | src/languages/parser/lexParser.ts:300-320 | definitions first, then start conditions: the first that has the name gives its definition, is used and gains the range; else one Error |
| LexParserFacts.ResolveReportsUndeclared | src/languages/parser/lexParser.ts:313-319 | exactly one "Symbol not declared." per undeclared component, in order, and nothing else |
| LexParserFacts.ResolvedUseDefine | src/languages/parser/lexParser.ts:303-307 | after resolution a definition is used exactly when it was or some component names it |
| LexParserFacts.ResolvedUseState | src/languages/parser/lexParser.ts:308-312 | a start condition is used exactly when it was or some component names it and no definition has the name |
| LexParserFacts.MainLoopNoneUsed | src/languages/parser/lexParser.ts:94-102 | nothing is used before the resolution pass |
| LexParserFacts.UnusedWarningsComplete | src/languages/parser/lexParser.ts:322-331 | every unused entry gets its Warning |
| LexParserFacts.UnusedWarningsSound | src/languages/parser/lexParser.ts:322-331 | every Warning is that of an unused entry |
| LexParserFacts.UnusedEntriesReported | src/languages/parser/lexParser.ts:322-342 | a table's pass warns about exactly the entries never used |
| LexParserFacts.NeverUsedReported | src/languages/parser/lexParser.ts:300-342 | the Warnings follow the Errors: one per definition no component names, then one per start condition no component names or shadowed by a definition, and no others |
| LexParserFacts.ConstructorDefinitionRefusedAsWritten | src/languages/parser/lexParser.ts:85-92 | as written, a definition named `constructor` is reported and never stored |
| LexParserFacts.ConstructorDefinitionDeclared | src/languages/parser/lexParser.ts:93-103 | corrected, it is stored like any other |
| LexParserFacts.InheritedComponentThrowsAsWritten | src/languages/parser/lexParser.ts:303-306 | as written, resolving `{toString}` with no such definition throws |
| LexParserFacts.InheritedComponentReported | src/languages/parser/lexParser.ts:313-319 | corrected, it is reported as not declared |
| SemanticProvider.ToInt32 | src/modes/semanticProvider.ts:86-89 | the 32-bit value a bitwise operator sees: the one number in `[-2^31, 2^31)` equal to the input modulo `2^32`, the number itself when it fits |
| SemanticProvider.IndexOf | src/modes/semanticProvider.ts:58 | `indexOf`: -1 exactly when absent, otherwise the first index holding the entry |
| SemanticProvider.IdentityStep | src/modes/semanticProvider.ts:64 | `needsMapping` stays false exactly while each index maps to itself |
| SemanticProvider.Merged | src/modes/semanticProvider.ts:56-65 | one index per entry; the shared legend only grows, by at most one entry per entry |
| SemanticProvider.Legend.constructor | src/modes/semanticProvider.ts:23 | the shared legend array |
| SemanticProvider.CreateMapping | src/modes/semanticProvider.ts:53-67 | the shared legend becomes `Merged`'s and the result is its mapping, or nothing when the mapping is the identity |
| SemanticProvider.ApplyTypesMapping | src/modes/semanticProvider.ts:69-75 | with a mapping each type index becomes its image (`undefined` outside the mapping); without one nothing changes |
| SemanticProvider.RemapModifierSet | src/modes/semanticProvider.ts:82-91 | the bit loop computes `Remapped`; it terminates as the set is halved |
| SemanticProvider.ApplyModifiersMapping | src/modes/semanticProvider.ts:77-95 | with a mapping each non-zero set becomes its remapped bits; a zero set or no mapping changes nothing |
| SemanticProviderFacts.MergedLookup | src/modes/semanticProvider.ts:53-63 | every entry of the mode's legend lies in the shared legend at its mapped index, the first holding it |
| SemanticProviderFacts.MergedGrowth | src/modes/semanticProvider.ts:58-62 | the shared legend only grows by appending, only with entries absent so far; its entries are the old ones and the mode's |
| SemanticProviderFacts.MergedDistinct | src/modes/semanticProvider.ts:58-62 | merging keeps a duplicate-free shared legend duplicate-free |
| SemanticProviderFacts.MergedIdentity | src/modes/semanticProvider.ts:64-66 | no mapping is needed exactly when the mode's legend is duplicate-free and a prefix of the shared one |
| SemanticProviderFacts.FirstMergeNeedsNoMapping | src/modes/semanticProvider.ts:29 | the first legend merged needs no mapping exactly when it has no duplicates |
| SemanticProviderFacts.TypesMappingKeepsNames | src/modes/semanticProvider.ts:72 | a remapped type index names in the shared legend what it named in the mode's |
| SemanticProviderFacts.RemappedIsBitSum | src/modes/semanticProvider.ts:84-90 | for a set below `2^31` the loop's result is the sum over its set bits of the images' bits |
| SemanticProviderFacts.ModifierBitIsPower | src/modes/semanticProvider.ts:86 | an image below 31 shifts a one to exactly that power of two |
| SemanticProviderFacts.IdentityRemapped | src/modes/semanticProvider.ts:84-90 | with the identity mapping, the loop gives the set back |
| SemanticProviderFacts.IdentityKeepsToken | src/modes/semanticProvider.ts:69-95 | with the identity mapping both rewrites leave a token unchanged |

## Left out

- Own-key lookups: every table lookup in the corrected model asks for own keys only. The code as written also finds the members every object inherits. The model keeps that only for the lookups listed under Findings.
- Shared objects: a symbol and the components resolved to it share one `references` array in the code. The model gives each component a copy of the array as it stands when it is resolved. A reference added later to the table entry is not seen on components resolved earlier.
- The alias link between a token and its alias, and between a component and its symbol, is held as a name, not as a shared object.
- The lex scanner returns `TokenType.Component` for a name (lexScanner.ts:128). That value is not part of the enum the parser switches on, and the parser's `case TokenType.Word` expects names. The model returns `Word`.
- `_COM`, the comma code point `yaccScanner.ts` imports, is not defined in `utils.ts`. The model reads it as `,`, which is what the surrounding code builds the type text with.
- The yacc scanner's `TokenType.Definition` is not declared in the enum file, which is not part of this model. The model gives it its own constructor.
- `workspace.getConfiguration` (`yash.TargetLanguage` in unionParser.ts, `yash.YYTYPE` in yaccParser.ts) is read by the host. Both values are parameters.
- `console.log` (the scanners' `scan`, and lexParser.ts:250) is output with no effect on the result, and is left out.
- `getSemanticTokens` in yaccParser.ts needs the host's `Position`. `newSemanticTokenProvider` and the token builder in semanticProvider.ts need the host's language modes. All three are left out.
- `advanceUntilRegExp` and `nextMiddleRule` are never called, and are left out.
- Regular expressions in general are left out. Only the anchored patterns the scanners use are modelled, each by its own matcher.
- LexParser.SymbolAddedAsWritten: the related range of the Error for an inherited name has `undefined` offsets. It is modelled as absent.
- The yacc main loop never pushes the rule node still open when the text ends. The model does the same.
- The `$$` check reads the type of a rule's symbol. A symbol the pruning pass removed would throw there. The model skips such a rule.
- `for (let token of tokens)` updates token objects that callers may share. The model rewrites an array of token values in place.
- JavaScript numbers are modelled as unbounded integers. Floating point is left out. The 32-bit conversion of the bitwise operators is modelled explicitly (`ToInt32`, `OneShiftedBy`).
- SemanticProviderFacts.RemappedIsBitSum and SemanticProviderFacts.IdentityKeepsToken hold for modifier sets below `2^31`. Larger or negative sets are computed by `Remapped`, but these lemmas do not describe them.
- Text is a sequence of `char`, Unicode scalar values. JavaScript strings are sequences of UTF-16 code units. Offsets agree only on text inside the Basic Multilingual Plane: after a character outside it, JavaScript counts two units where the model counts one. Lone surrogates cannot be represented.
- Chars.ToLower lowers ASCII letters only. `toLowerCase` also lowers other letters, but its one use compares with `%define`, and no other character lowers to exactly one letter of `define`.
- LexScanner.ActionLoop bounds where its loop stops, but does not say which `}` it stops at. The balancing brace is stated by LexScannerFacts.ActionLoopCloses, ActionLoopOpen and ActionEndsAtBalancingBrace, over text without comments, literals, NUL, or a line feed when brackets are off. ActionSkipsLiteral, ActionSkipsBlockComment and ActionSkipsLineComment cover what is skipped.
- UnionScanner.DefinitionLoop bounds where its loop stops, but does not say which `}` it stops at. The balancing brace is stated by UnionScannerFacts.DefinitionLoopCloses, DefinitionLoopOpen and DefinitionEndsAtBalancingBrace, over text without `/` or NUL.
- YaccScanner.CodeLoop bounds where its loop stops, but does not say which `}` it stops at. The balancing brace is stated by YaccScannerFacts.CodeLoopCloses, CodeLoopOpen and ActionEndsAtBalancingBrace, over text without comments, literals or NUL. CodeSkipsLineComment covers `//`.
- LexScannerFacts.ActionStopsBeforeBrace holds for every text but names only some `}`. LexScannerFacts.ActionEndsAtBalancingBrace states that it is the balancing one, for text without comments, literals or NUL.
- UnionScannerFacts.DefinitionStopsBeforeBrace holds for every text but names only some `}`. UnionScannerFacts.DefinitionEndsAtBalancingBrace states that it is the balancing one, for text without `/` or NUL.
- YaccScannerFacts.ActionStopsAtClosingBrace holds for every text but names only some `}`. YaccScannerFacts.ActionEndsAtBalancingBrace states that it is the balancing one, for text without comments, literals or NUL.
- LexScannerFacts.UnclosedAction states what an Unknown token means, for every text. LexScannerFacts.ActionUnbalanced states that unbalanced text gives Unknown, for text without comments, literals or NUL.
- LexScannerFacts.ActionLineBreaks states what a break at a line feed means, for every text. LexScannerFacts.ActionBreaksAtLineFeed states that a line feed inside an open action, with brackets off, gives Unknown, for text before it without comments, literals or NUL.
- UnionScannerFacts.UnclosedDefinition states what an Unknown token means, for every text. UnionScannerFacts.DefinitionUnbalanced states that unbalanced text gives Unknown, for text without `/` or NUL.
- YaccScannerFacts.UnclosedCode covers only text with no `}` left. YaccScannerFacts.ActionUnbalanced covers unbalanced text in general, for text without comments, literals or NUL.
- The nested parse of a start-condition block recurses on a strictly shorter text. Its termination is proved on the length of the text; there is no depth bound.

## Findings

| source | as written | input that shows it | evidently intended | confidence | as-written member | corrected member |
|---|---|---|---|---|---|---|
| src/languages/parser/unionParser.ts:171-174 | a line with `}` lowers `indent` by 4 before it is written, and `' '.repeat` throws a RangeError on a negative count | a `%union` field declared on one line with a nested definition, `s{}x;` | the indentation stays at 0 or more and the declaration comes back as it is | high, not executed | UnionParserFacts.UnIndentNestedOneLine | UnionParserFacts.UnIndentNestedOneLineCorrected |
| src/languages/parser/yaccParser.ts:315 | `predefined[word]` on a plain object is truthy for `constructor`, so `%token constructor` is refused as a reserved keyword | `%token constructor` | only `error` is reserved | high, not executed | YaccParserFacts.ConstructorTokenRefusedAsWritten | YaccParserFacts.ConstructorTokenDeclared |
| src/languages/parser/lexParser.ts:85-92 | `symbols[name]` finds the inherited `constructor`, so the definition is reported as a duplicate and never stored | the definition line `constructor [a-z]` | a name is a duplicate only when it was declared before | high, not executed | LexParserFacts.ConstructorDefinitionRefusedAsWritten | LexParserFacts.ConstructorDefinitionDeclared |
| src/languages/parser/lexParser.ts:303-306 | `defines[name]` finds the inherited `toString`, and `symbol.references.push` throws a TypeError | the rule `{toString} x` | the name is reported as not declared | high, not executed | LexParserFacts.InheritedComponentThrowsAsWritten | LexParserFacts.InheritedComponentReported |
