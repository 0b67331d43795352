# js-bright in Dafny

Bright is a small language that compiles to asynchronous JavaScript. Its
statements (`argument`, `var`, `let`, `await`, `sleep`, `defer`,
`if`/`elseif`/`else`, `for`, `break`, `continue`, `return`, `throw`,
`function`, `javascript` and plain expressions; Tea and the prototype also have
`require`) become nested callbacks, and
the generated code calls a small runtime library as `$$_runtime`. This project
models the compiler's core and that runtime, and proves properties about them.
It covers three versions of the code:

- **Bright**: the current compiler, bundled in `build/bright.js`.
- **Tea**: the intermediate compiler, bundled in `build/tea.js`.
- **The prototype**: the older compiler, in `lib/compiler/token.js`,
  `lib/compiler/syntax.js` and `lib/runtime/core.js`.

The model has these parts:

- **Scanner** (`lexer.dfy`). It follows the character loop `_parse` of
  Bright and Tea. A token's kind is decided by a status machine: blank,
  number, name, symbol, string, line comment or block comment. The scanner
  tracks the line and column of each token. The one difference between the
  two dialects is that Tea drops whitespace runs.
- **Classifier** (`classifier.dfy`). This is the second lexing pass:
  - names become keywords or identifiers;
  - a `.` right before a number is merged into the number;
  - two- and three-character operators are merged;
  - the literal names become identifiers.

  It is a loop that rewrites the token list, proved against a recursive
  definition.
- **Statement parsers**. Each one is an imperative `Context` class (indent,
  code lines, declared names, defers, remaining tokens) with one method per
  statement.
  - Bright: `bright_parser.dfy` and `bright_compiler.dfy`.
  - Tea: `tea_parser.dfy` and `tea_compiler.dfy`.
  - The prototype: `legacy_parser.dfy`.

  Each method is proved against pure rule functions that say which line of
  JavaScript a statement becomes: `bright_rules.dfy`, `tea_rules.dfy` and
  `legacy_syntax.dfy`. These share the token-list helpers in
  `syntax_common.dfy` and the output template in `template.dfy`.
- **Prototype scanner** (`legacy_lexer.dfy`). It cuts the text into words
  `{type, start, word}`.
- **Runtime** (`runtime.dfy`, `legacy_runtime.dfy`):
  - `runDefers`, `ifCondition`, `conditionLoop`, `forEachLoop` and
    `parseArguments` for Bright and Tea;
  - the prototype's `runDefers`.

  Callbacks are modelled by how they hand control back. A run is modelled by
  the trace of calls it makes.

Failures:

- **Syntax errors** are `Failure.SyntaxError(message, line, column)`.
- **Host crashes** are `Failure.Crash`. These are the TypeErrors and
  ReferenceErrors that the JavaScript raises itself, for example when it reads
  a property of a missing token.

Slips in the code:

- For each slip listed under "## Findings", `Version.AsWritten` models that
  slip as the code has it, and `Version.Intended` models the evident
  correction. Both are proved about.
- Outside those slips, both versions share one repair of the prototype's
  parser, named under "## Left out" (`define.TOKEN`).

Other notes:

- The source files are cited relative to the repository root.

## Model

| member | source | states |
|---|---|---|
| Tokens.TokenKind.Code | build/bright.js:785-794 | each token kind's constant is one of the eight flag values, and it is 0 exactly for the blank kind |
| Tokens.NewToken | build/bright.js:1571-1573 | createNewToken builds a token with exactly the given kind, line, column and text, and no nested flag |
| Tokens.ErrorAt | build/bright.js:1509-1518 | throwError reports a syntax error at the token's line and column; an empty message becomes `Unexpected token <text>` |
| Tokens.Reported | build/bright.js:895-897 | the compiler entry point prefixes `SyntaxError: ` to a syntax error's message and keeps its position; a host error passes through unchanged |
| Tokens.Trim | build/bright.js:1103 | the trimmed text is no longer than the original and neither starts nor ends with JavaScript whitespace |
| Tokens.TrimIsSlice | build/bright.js:1103 | the trimmed text is the slice of the original between a whitespace prefix and a whitespace suffix, so with Trim's ends it is exactly `trim()` |
| Tokens.EscapeLineBreaks | build/bright.js:1118 | a string token's text has no raw CR or LF left, is at least as long, and keeps its first and last characters when they are not line breaks |
| Tokens.EscapeAppend | build/bright.js:1118 | escaping works character by character: the escape of a concatenation is the concatenation of the escapes |
| Tokens.EscapeChar | build/bright.js:1118 | an LF becomes backslash-n, a CR becomes backslash-r, and any other character is kept |
| Tokens.StripLineBreaks | build/bright.js:1107 | a blank's text loses every CR and LF and keeps every other character |
| Tokens.StripAppend | build/bright.js:1107 | stripping distributes over concatenation, so the characters that are kept stay in order and keep their count |
| Tokens.StripChar | build/bright.js:1107 | a CR or LF is dropped and any other character is kept |
| Tokens.Indentation | build/bright.js:1538-1544 | getIndentSpace gives two spaces per indentation level and nothing for a level of zero or less |
| Lexer.CodeAt | build/bright.js:1162 | charCodeAt gives the character's code inside the text and a non-character (NaN, modelled as -1) outside it |
| Lexer.NextChar | build/bright.js:1070-1084 | nextChar changes only the line number and the position in the line |
| LexerFacts.NextCharTracks | build/bright.js:1070-1084 | nextChar keeps the line and column equal to an independent count of the characters read: CR starts a line, LF starts one unless it follows a CR |
| Lexer.SetStatus | build/bright.js:1087-1093 | setStatus sets the status and records the current line and column minus one as the token's start |
| Lexer.Emit | build/bright.js:1096-1121 | the token pushToken makes from a slice: at most one, of the given kind and line; none for a blank in Tea; always one for another kind |
| Lexer.Push | build/bright.js:1096-1130 | pushToken appends the token of the slice from lastPos to pos (if the slice is not empty), sets lastPos to pos and clears the string and number flags |
| Lexer.Throw | build/bright.js:1150-1157 | a scan error carries `SyntaxError: ` plus its message, the current line and the column of the character just read |
| Lexer.Step | build/bright.js:1160-1337 | one turn of the scanner loop either halts with an error or moves the position forward inside the text (the loop terminates) |
| Lexer.Finish | build/bright.js:1338-1342 | after the loop the scan succeeds exactly when the status is blank, and then it returns the tokens collected |
| Lexer.Lex | build/bright.js:1045-1346 | the scanner loop over the text plus one blank returns the result of the recursive scan definition `Tokenize` |
| LexerFacts.TokenizeShaped | build/bright.js:1045-1346 | every token the scan returns has the shape of its kind: a number starts with a digit and has only number characters, a name starts with a letter, a string is quoted at both ends with its line breaks escaped, a comment starts with `//` or `/*`, a symbol is one character |
| LexerFacts.TeaDropsBlanks | build/tea.js:977-1005 | the Tea scanner never returns a whitespace token |
| LexerFacts.TokenizePlaced | build/bright.js:1045-1346 | every non-blank token carries the line and column of the character it starts at, and that character is its first one |
| LexerFacts.TokenizeErrorPlaced | build/bright.js:1150-1157 | a scan fails either with `Unexpected end of input` or with `Unexpected token c` for a character c of the text, reported at c's line and column |
| LexerFacts.NumberExponent | build/bright.js:1199-1210 | the first `e`/`E` of a number clears the dot and sign flags and keeps the number open; a second one is an error naming it |
| LexerFacts.NumberDot | build/bright.js:1216-1222 | a second `.` in a number (since its start or its exponent) is an error; the first sets the dot flag |
| LexerFacts.NumberSign | build/bright.js:1223-1234 | a `-` always belongs to the number and a `+` only after an exponent; a second sign is an error; a `+` before any exponent ends the number and starts a symbol |
| LexerFacts.StringRules | build/bright.js:1290-1304 | inside a string only its own quote, unescaped, closes it; a backslash flips the escape flag, any other character clears it, and no token is pushed until the close |
| LexerFacts.StringCloseStep | build/bright.js:1292-1297 | the closing quote's step pushes the string slice up to and including the quote as one string token and classifies the next character at once |
| LexerFacts.BlockCloseStep | build/bright.js:1318-1331 | the `*/` step pushes the comment slice up to and including both characters as one comment token, counts the slash and classifies the next character |
| Classifier.SymbolText | build/bright.js:1377-1378 | the neighbour's text is returned exactly when the neighbour exists and is a symbol |
| Classifier.NameKind | build/bright.js:1370-1388 | a name becomes a keyword or an identifier |
| Classifier.Visit | build/bright.js:1366-1445 | one turn of the loop never lengthens the list and leaves less of it to visit (the loop terminates) |
| Classifier.Retag | build/bright.js:1449-1454 | the final forEach changes only the kind, and only a keyword that is a literal name becomes an identifier |
| Classifier.RetagAll | build/bright.js:1449-1454 | the forEach retags each token in place, keeping the length |
| Classifier.Classify | build/bright.js:1359-1457 | the in-place rewriting loop, followed by the retagging, returns the recursive definition `ClassifyList` of the raw list |
| Classifier.RetagLiterals | build/bright.js:1449-1454 | the in-place forEach gives each token its retagged form and keeps the length |
| ClassifierFacts.ClassifyKeepsTexts | build/bright.js:1359-1457 | merging and retagging never change the program text: the token texts concatenate to the same string before and after |
| ClassifierFacts.SweepShrinks | build/bright.js:1366-1445 | the pass never makes the list longer |
| ClassifierFacts.ClassifyKeepsPositions | build/bright.js:1397-1432 | every output token stands at the line and column of an input token; a merged token keeps the position of its first part |
| ClassifierFacts.ClassifyKinds | build/bright.js:1366-1454 | after the corrected pass no name is left, and a keyword token is one of the dialect's keywords and not a literal name |
| ClassifierFacts.ParseKinds | build/bright.js:1359-1457 | for a whole program that scans, the corrected classification leaves no names, and every keyword is a real keyword of the dialect |
| ClassifierFacts.NameVisit | build/bright.js:1370-1389 | a keyword becomes an identifier exactly when it is next to a `.` or is a key `{k:` / `,k:`; every other name becomes an identifier; nothing else changes |
| ClassifierFacts.NumberVisit | build/bright.js:1391-1412 | a number absorbs the `.` before it exactly when the dot touches it on the same line and is not preceded by anything but a symbol; the merged number stands where the dot stood |
| ClassifierFacts.SymbolVisit | build/bright.js:1414-1444 | a symbol merges only with a token on its own line; the result is one of the ten operators and keeps the first character's position |
| ClassifierFacts.OperatorMerged | build/bright.js:1417-1432 | every pair the merge accepts, and every `===`/`!==` triple, is one of the ten operators |
| ClassifierFacts.SkipsAfterMerge | build/tea.js:1240-1286 | as written, the token after a merged number is never visited: in Tea `.5 if` leaves `if` as a bare name, which the corrected pass makes a keyword |
| ClassifierFacts.BrightSkipsAfterMerge | build/bright.js:1391-1412 | the same skip in Bright: as written `.5==1` keeps `=` `=` as two symbols, which the corrected pass merges into `==` |
| ClassifierFacts.InheritedKeyword | build/bright.js:1030-1032 | as written, `constructor` is found in the keyword object because every object inherits it; the corrected lookup makes it an identifier |
| ClassifierFacts.NotIdempotent | build/bright.js:1391-1411 | classifying a classified list can merge again: `..5` becomes `.` `.5`, and a second run gives `..5` |
| SyntaxCommon.ReadLine | build/bright.js:1486-1501 | readLine answers `false` exactly on an empty list; otherwise it splits the list into the maximal run of tokens on the first token's line and the rest |
| SyntaxCommon.SplitUnique | build/bright.js:1486-1501 | there is only one way to split off the first line, so the split readLine returns is the one |
| SyntaxCommon.NonBlankFrom | build/bright.js:1746-1754 | removing blanks keeps only tokens of the list, and none of them is blank |
| SyntaxCommon.NonBlankKeeps | build/bright.js:1746-1754 | a list without whitespace tokens passes through unchanged |
| SyntaxCommon.RemoveBlankTokens | build/bright.js:1746-1754 | the forEach loop returns the non-blank tokens of the list, in order |
| SyntaxCommon.CondTextPlain | build/bright.js:1605-1613 | a condition without a bare `=` is the tokens' text unchanged |
| SyntaxCommon.EqualsBecomesComparison | build/bright.js:1608-1609 | every bare `=` in a condition comes out as ` == ` and the text on either side is kept |
| SyntaxCommon.ParseCondition | build/bright.js:1598-1615 | an empty list is a host TypeError; a list not ending in `{` is an error at its last token; otherwise the rest, with `=` rewritten, is wrapped in parentheses (`ConditionOf`, which the else chains use) |
| SyntaxCommon.NoBracketsBalanced | build/bright.js:1636-1652 | a segment without brackets passes the bracket check |
| SyntaxCommon.Segment | build/bright.js:1632-1656 | push(i) turns a segment into one name, the concatenation of its tokens' texts, or fails with `brackets do not match` |
| SyntaxCommon.CheckSegment | build/bright.js:1632-1656 | the inner forEach with its bracket stack gives the segment rule: the joined text, a mismatch at the closing bracket, or an unclosed bracket at the token that ended the segment |
| SyntaxCommon.ArgumentsFromSuffix | build/bright.js:1657-1671 | what follows the `=` is a proper suffix of the tokens scanned, so the statement that uses it has less left to parse |
| SyntaxCommon.ParseMultiArgument | build/bright.js:1628-1672 | the loop over `,` and up to the first `=` gives the recursive definition of the targets and the remaining tokens |
| SyntaxCommon.MultiArgumentListed | build/bright.js:1628-1672 | for `s0, …, sn = rest` with plain items, the i-th target is the text of the i-th item, in order, and the rest is what follows the `=` |
| SyntaxCommon.ParseMultiValue | build/bright.js:1699-1738 | the loop over `,` and the final push give the recursive definition of the values |
| SyntaxCommon.MultiValueListed | build/bright.js:1699-1738 | for `s0, …, sn` with plain items, the values are the items' texts, in order |
| SyntaxCommon.OneValueWithoutCommas | build/bright.js:1699-1738 | without a comma the whole list is one value, the concatenation of its texts |
| SyntaxCommon.ArgSlotsDistinct | build/bright.js:1685-1688 | distinct positions get distinct callback parameters `$$_arg_i` |
| SyntaxCommon.MultiArgumentsCode | build/bright.js:1682-1690 | getMultiArgumentsCode gives one parameter `$$_arg_i` and one initialisation line `n = $$_arg_i;` per name, in order |
| SyntaxCommon.SpacedText | build/bright.js:2230-2241 | the expression loop of parseExpression builds the spaced text of the tokens |
| SyntaxCommon.SpacedPlain | build/bright.js:2232-2241 | without two adjacent names the expression is the tokens' text unchanged |
| SyntaxCommon.SpacedNames | build/bright.js:2233-2236 | two adjacent names (identifiers or keywords) are separated by exactly one space |
| SyntaxCommon.JoinTexts | build/bright.js:2280-2282 | the `call += t.text` loops give the concatenation of the tokens' texts |
| ParseContext.Context.PushCodeLine | build/bright.js:1527-1531 | pushCodeLine appends the line indented two spaces per level, and changes nothing else |
| ParseContext.NewContext | build/bright.js:1552-1560 | createNewContext makes a fresh context that shares the argument and variable lists, keeps the tokens and the depth, and starts with no code and no defers |
| ParseContext.Names.Push | build/bright.js:2083 | pushing a declared name appends it to the shared list |
| BrightRules.LineMarker | build/bright.js:1847-1849 | addLineNumber emits a comment line that opens with `/* LINE:` |
| BrightRules.ArgSlots | build/bright.js:1685-1688 | n callback parameters, the i-th being `$$_arg_i` |
| BrightRules.ReturnArguments | build/bright.js:2313-2318 | a return's argument list starts with `null` and the values follow in order, to `$$_callback` when nested and to `$$_callback_global` otherwise |
| BrightRules.IdentifierTexts | build/bright.js:2080-2084 | the declared names are at most the tokens given |
| BrightRules.ArgumentListAccepts | build/bright.js:2078-2090 | parseArgument accepts a list exactly when every token is an identifier or a comma not following a comma, and then declares the identifiers in order |
| BrightRules.VarStep | build/bright.js:2108-2160 | one step of parseVar's loop: a name is declared only outside an initialiser and only for an identifier; a `name = …;` line is produced only by a top-level comma inside an initialiser, which ends it and leaves the collected tokens, `;` included, in place until the next identifier |
| BrightRules.VarQuietAt | build/bright.js:2108-2160 | a token that neither declares nor completes a line only changes the loop's state |
| BrightRules.VarDeclareAt | build/bright.js:2142-2146 | an identifier outside an initialiser is declared before what the rest declares |
| BrightRules.VarLineAt | build/bright.js:2127-2134 | a top-level comma in an initialiser emits the assignment, with `;` at the comma's place, before the rest's lines; the rest starts outside the initialiser with that `;`-ended list still collected |
| BrightRules.VarDeclaresIdentifiers | build/bright.js:2101-2161 | every declared name is the text of an identifier of the statement |
| BrightRules.VarNames | build/bright.js:2108-2160 | a list of names and commas declares exactly its identifiers, in order, and emits nothing |
| BrightRules.VarDeclaresNames | build/bright.js:2101-2161 | `var a, b, c` declares exactly its names, in order, and emits no code |
| BrightRules.IdentifierTextsAppend | build/bright.js:2080-2084 | the names of two lists are the names of each, in order |
| BrightRules.VarCollects | build/bright.js:2137-2140 | tokens inside an initialiser that open, close or separate nothing are collected into it unchanged |
| BrightRules.VarInitLine | build/bright.js:2108-2140 | an initialiser without brackets or commas up to the final comma becomes one assignment of its tokens |
| BrightRules.VarLastLine | build/bright.js:2127-2134 | a top-level comma that is the last token ends the statement with exactly one assignment, the collected tokens followed by `;` |
| BrightRules.VarAssignedAfterName | build/bright.js:2127-2152 | after a declared name, `= e,` (e without brackets or commas) emits exactly `name = e;` and declares nothing more |
| BrightRules.VarAssigned | build/bright.js:2101-2160 | `x = e,` declares `x` and emits `x = e;` |
| BrightRules.VarInitialised | build/bright.js:2101-2161 | `var x = e` (e without brackets or commas) declares `x` and emits one assignment of e, ended by `;` after its last token |
| BrightRules.VarReuseTail | build/bright.js:2127-2152 | after `= 1` on a name, `, = 2,` emits `name = 1;` and then `name = 1;2;`: the closed initialiser is not cleared, so the second `=` collects after its `;` |
| BrightRules.VarReuseHead | build/bright.js:2142-2152 | `a = 1` declares `a` and starts collecting `1`, ahead of whatever the rest emits |
| BrightRules.VarReusesInitialiser | build/bright.js:2101-2161 | `var a = 1, = 2` declares `a` once and emits `a = 1;` followed by `a = 1;2;` |
| BrightRules.LetOperandShorter | build/bright.js:2173-2210 | the await call and the function header parseLet hands on are shorter than the statement |
| BrightRules.TupleNeedsAwait | build/bright.js:2197-2208 | a let that is accepted without await has at most one target |
| BrightRules.LetTargets | build/bright.js:2179-2208 | `a, b, … = await …` binds the targets' texts in order; several targets before a plain expression are refused with `Not support tuple assignment` at the expression |
| BrightRules.AwaitCall | build/bright.js:2256-2285 | an await of something that is not a name is an error; a bare name becomes a call opening `name(` |
| BrightRules.AwaitBindings | build/bright.js:2292-2296 | the i-th result is assigned from `$$_arg_i`, one line per name, in order |
| BrightRules.AwaitWithArguments | build/bright.js:2266-2278 | `f(a, …)` opens the call with its arguments and a comma, so the callback comes after them |
| BrightRules.DeferLine | build/bright.js:2333-2368 | a one-line defer is accepted only when it ends in a name or `)`; the block form is exactly the single token `{` |
| BrightRules.FunctionParams | build/bright.js:2555-2590 | a function header is accepted only when it ends in `{` |
| BrightRules.ParamsAlternate | build/bright.js:2576-2588 | accepted parameters alternate identifier and comma, starting with an identifier, and are the identifiers in order |
| BrightRules.BodyEnd | build/bright.js:2038-2045 | the end of parseBraceBody drops at most the last `}` and passes the rest of the input on |
| BrightRules.BraceBodyFrom | build/bright.js:1987-2050 | the body and the rest together are no longer than the input |
| BrightRules.BraceBodyPrefix | build/bright.js:1987-2050 | the body is a prefix of the tokens scanned |
| BrightRules.BraceBodyUnclosed | build/bright.js:1987-2050 | without a closing `}` the whole input is the body (less a dropped `}`) and nothing is left |
| BrightRules.BraceBodyCloses | build/bright.js:1998-2031 | a first line that starts with `}` (and, outside an if, does not end with `{`) ends the body there, and what follows the `}` is handed back |
| BrightRules.AddReturn | build/bright.js:1582-1590 | addReturnTokenToEnd keeps the list and appends one `return` keyword with the nesting flag, on a line of its own |
| BrightRules.ReturnOwnLine | build/bright.js:1582-1590 | after the appended return, the first line of the list does not reach it |
| BrightRules.ForCondition | build/bright.js:2502-2509 | a bare `{` loops on `true`; otherwise the loop condition must end in `{` |
| BrightRules.FunctionLine | build/bright.js:2599 | a named function is assigned to its name |
| BrightRules.JavascriptLines | build/bright.js:2633-2649 | a javascript block emits one line per source line, each spaced as an expression |
| BrightRules.VarsCode | build/bright.js:1764-1768 | the declaration line is empty exactly when there are no variables |
| BrightRules.DeferLines | build/bright.js:1773-1786 | the deferred-action block registers each action once, in order, between a fixed head and tail |
| BrightRules.DefersCode | build/bright.js:1771-1788 | the deferred-action block is empty exactly when nothing is deferred |
| BrightRules.WrapUnit | build/bright.js:1762-1793 | wrap keeps the parameters and the code, and includes a declaration block and a deferred-action block exactly when they are needed |
| BrightRules.WrapWithShape | build/bright.js:1794-1816 | the compiled function opens with its parameter list and is the header, declarations, deferred actions, code and the closing `catch`, in that order |
| BrightRules.StatementRefusal | build/bright.js:1862-1963 | syntax.parse refuses a line only when it starts with a keyword, which is then either unknown or needs an operand it lacks |
| BrightRules.SleepEnd | build/bright.js:2613-2615 | parseSleep ends the expression with `;` on its last token's line |
| BrightParser.AssignmentLines | build/bright.js:2127-2134 | one emitted line per initialisation of a var statement |
| BrightParser.AssignmentLineAt | build/bright.js:2127-2134 | the k-th emitted line is the k-th initialisation, `name = <expression>`, at the context's depth |
| BrightParser.ParseExpression | build/bright.js:2229-2244 | parseExpression appends exactly one line, the spaced expression with its optional `name = `, and changes nothing else |
| BrightParser.ParseArgument | build/bright.js:2078-2090 | parseArgument succeeds or fails as the argument rule does and appends the declared names to the shared argument list |
| BrightParser.VarToken | build/bright.js:2108-2160 | one pass of parseVar's forEach does what the step rule says: the same error, the same next state, the names it declares appended to the shared list and its assignments to the code |
| BrightParser.VarAdvance | build/bright.js:2108-2160 | after each token the declared names and emitted lines are those of the rule on the tokens read so far |
| BrightParser.ParseVar | build/bright.js:2101-2161 | parseVar fails exactly as the var rule does; on success it declares the rule's names in the shared list and emits its assignments, and changes nothing else |
| BrightParser.ParseReturn | build/bright.js:2313-2331 | a bare return calls the callback with `null`; otherwise the values are parsed as a comma list, and on success one return line with them is emitted, on failure nothing |
| BrightParser.ParseThrow | build/bright.js:2536-2543 | a bare throw hands a new Error to the global callback; otherwise the expression is stored in `$$_err` and handed to it |
| BrightParser.CountBraces | build/bright.js:1998-2023 | the brace counting of one line gives the brace-step rule |
| BrightParser.BraceBodyTurn | build/bright.js:1994-2036 | one round of parseBraceBody's loop: a line whose count goes negative ends the body (handing back what follows its `}`); any other is added to the body |
| BrightParser.ParseBraceBody | build/bright.js:1987-2050 | the while loop computes the brace-body rule: the body and the tokens after it |
| BrightParser.ParseJavascript | build/bright.js:2633-2650 | javascript must be followed by exactly `{`, else it is an error at the first token (a host TypeError without one); the block's lines are emitted spaced, and parsing resumes after the block |
| BrightParser.Parse | build/bright.js:1851-1970 | syntax.parse consumes every token when it succeeds; its code goes through one state per non-blank statement line, in order, each step being what `Statement` does for that line (`StatementSteps`) |
| BrightParser.Statement | build/bright.js:1860-1969 | a refused line fails with the refusal and emits nothing; a marked statement is bracketed by START and END line markers; a line without a keyword passes and is one expression between its markers (`StatementStep`) |
| BrightParser.StatementStepAt | build/bright.js:1851-1970 | in a parsed program, statement `i` takes the code from state `i` to state `i + 1` |
| BrightParser.Handle | build/bright.js:1873-1963 | the switch on the first keyword: a plain line is an expression, `break` and `continue` return through `$$_break` and `$$_continue` |
| BrightParser.HandleBlock | build/bright.js:1904-1958 | the block statements only append to the context |
| BrightParser.ParseNested | build/bright.js:2060-2068 | parseNested, with or without the appended return, resumes after the brace body |
| BrightParser.IfBody | build/bright.js:2386-2396 | parseBody emits nothing at the outer level, resumes after the if-body, and returns the branch function |
| BrightParser.ParseLet | build/bright.js:2173-2210 | let fails exactly as the let rule does, emitting nothing; otherwise it does what RunLet states for the rule's plan |
| BrightParser.RunLet | build/bright.js:2173-2210 | `x = e` emits one expression line; `a, b, c = await f(…)` fails as the await call rule does, or emits the call header with one callback parameter per target and binds the i-th target from `$$_arg_i`, in order, before the nested rest; `x = function (…)` fails as the parameter rule does, or emits the function's three lines and resumes after its body |
| BrightParser.AwaitCallText | build/bright.js:2256-2285 | the await call is built as the await rule says |
| BrightParser.ParseAwait | build/bright.js:2256-2303 | await of a non-name fails and emits nothing; on success the call header with its n callback parameters and the n bindings come first, the rest of the block is nested inside, and the callback is closed last |
| BrightParser.ParseSleep | build/bright.js:2613-2622 | sleep stores the duration expression, ended by `;`, in `$$_sleep_ms`, then nests the rest of the block inside the timer callback and closes it |
| BrightParser.ParseDefer | build/bright.js:2333-2368 | defer emits no code; a one-line defer adds exactly its action to the deferred list, a block adds the block function and resumes after it, and an error leaves the code unchanged |
| BrightParser.ElseChain | build/bright.js:2408-2434 | the scan emits nothing at the outer level; what it adds is the steps of its lines in order, each an `elseif` line with its condition (`ConditionOf` of the rest of the line) and branch or an `else` line with its branch, and at most one of them an `else` (`ElseSteps`, `OneElse`) |
| BrightParser.ElseLine | build/bright.js:2409-2433 | the line read has its blanks removed; an empty one is a host TypeError; `elseif` with a bad condition fails with that condition's error; a second `else` is an error at it; any other line stops the scan and is put back; otherwise the step is the condition and branch, or the branch, the branch being the compiled block after the line |
| BrightParser.IfBlocks | build/bright.js:2400-2442 | the branches and the continuation emit nothing at the outer level; after the first branch come the else chain's steps in order |
| BrightParser.ParseIf | build/bright.js:2380-2448 | if without a trailing `{` is an error at the last token; on success one ifCondition call is emitted whose first argument is the parenthesised condition, followed by the first branch, the else chain's steps in order, and the continuation |
| BrightParser.ForBlocks | build/bright.js:2489-2523 | the loop body and the continuation emit nothing at the outer level |
| BrightParser.ParseFor | build/bright.js:2466-2527 | `for k in o {` with a non-name key is an error at it; a condition loop fails as its condition does; on success one forEachLoop or conditionLoop call is emitted |
| BrightParser.FunctionParameters | build/bright.js:2555-2590 | the parameter loop gives the parameter rule |
| BrightParser.FunctionBody | build/bright.js:2589-2592 | the function body gets its own variables and leaves the outer code, defers and variables alone |
| BrightParser.PushFunction | build/bright.js:2598-2601 | the function is emitted between an empty line before and after it |
| BrightParser.ParseFunction | build/bright.js:2555-2603 | a bad header fails as the parameter rule says, emitting nothing; on success the wrapped function, with `$$_callback` as its last parameter, is emitted (assigned to its name when it has one) and parsing resumes after its body |
| BrightCompiler.Compile | build/bright.js:885-920 | for either classifier version (`AsWritten` classifies as the bundle does): a scanning error is reported with its own message and place; other reported errors are marked `SyntaxError: `; on success the output is the wrapped global context |
| TeaRules.TeaAddReturn | build/tea.js:1444-1459 | addReturnAtEnd leaves an empty list alone; otherwise it keeps the list and appends one `return` keyword with the nesting flag on the line after the last token |
| TeaRules.NestedFrom | build/tea.js:1779-1799 | the body and the rest of parseNested's scan are no longer than the input |
| TeaRules.NestedFromSplits | build/tea.js:1779-1799 | the scan either takes everything as the body, or stops at a `}` and hands back exactly what follows it |
| TeaRules.NestedBodySplits | build/tea.js:1774-1806 | the body of a nested block is a prefix of the input, ended by the input's end or by a `}` whose followers are the rest |
| TeaRules.ExpressionText | build/tea.js:1940-1951 | an expression is accepted exactly when every token is a name, number, string or symbol, and is then their concatenation; otherwise the error is at an offending token |
| TeaRules.ExpressionFirstError | build/tea.js:1940-1951 | the error is at the first offending token |
| TeaRules.Assigned | build/tea.js:1952 | the assignment prefix is empty exactly for an empty name |
| TeaRules.ExpressionCode | build/tea.js:1938-1954 | the emitted statement is `name = `, the trimmed text and `;`, and exists exactly when the expression is accepted |
| TeaRules.RequireCode | build/tea.js:1910-1919 | require accepts exactly one name or string, emitting `name = require(x);`; anything else is an error at the first token, and nothing at all a host TypeError |
| TeaRules.TeaLetOperandShorter | build/tea.js:1862-1899 | the await call and the required operand parseLet hands on are non-empty and shorter than the statement |
| TeaRules.TeaLetTargets | build/tea.js:1868-1897 | `a, b, … = await …` binds the targets in order; several targets before `require` or before a plain expression are refused with `Not support tuple assignment` |
| TeaRules.TeaAwaitCall | build/tea.js:1966-1996 | `await <number>` becomes a sleep of that many milliseconds; anything else is built as in bright |
| TeaRules.TeaAwaitParameters | build/tea.js:2001 | the callback's parameters are `$$_err` followed by one slot per target |
| TeaRules.AwaitNumberSleeps | build/tea.js:1968-1970 | `await 1000` calls the runtime's sleep with the callback that takes `$$_err` and the slots |
| TeaRules.TeaRefusal | build/tea.js:1636-1703 | syntax.parse refuses a line only when it starts with a keyword that is unknown or needs an operand it lacks |
| TeaRules.TeaDeferLines | build/tea.js:1721-1735 | the deferred-action block opens with the queue, registers each action once in order, then installs the draining callback |
| TeaRules.TeaDefersCode | build/tea.js:1721-1738 | the block is empty exactly when nothing is deferred |
| TeaRules.TeaUnit | build/tea.js:1712-1741 | the compiled function's parameters are the arguments followed by `$$_callback`; declarations and deferred actions appear exactly when needed |
| TeaRules.TeaWrapChecksArity | build/tea.js:1742-1752 | the function first checks that it got exactly as many arguments as it has parameters |
| TeaRules.TeaWrapArity | build/tea.js:1741-1761 | for n declared arguments the check compares against n + 1 |
| TeaParser.ExpressionTextOf | build/tea.js:1940-1951 | the forEach over the expression gives the expression rule: its text, or the error at the first token it refuses |
| TeaParser.ParseExpression | build/tea.js:1938-1954 | parseExpression fails exactly as the expression rule does and emits nothing on failure; on success it emits the one statement, and changes nothing else |
| TeaParser.ParseNameList | build/tea.js:1816-1850 | parseArgument and parseVar accept a list exactly when every token is an identifier or a comma not following a comma, and append the identifiers to the shared list in order |
| TeaParser.ParseRequire | build/tea.js:1910-1919 | parseRequire fails as the require rule does, emitting nothing, and emits the require statement on success |
| TeaParser.ParseReturn | build/tea.js:2025-2031 | a bare return calls the callback with `null`; otherwise the values are parsed as a comma list and one return line with them is emitted |
| TeaParser.Parse | build/tea.js:1636-1708 | syntax.parse consumes every token when it succeeds; the first statement is the first line; its code goes through one state per statement, in order, each step being what `Statement` does for that line (`StatementSteps`) |
| TeaParser.Statement | build/tea.js:1639-1707 | a refused line fails with the refusal and emits nothing; a plain line is an expression statement; `require x` emits the require; `break` and `continue` pass and return through `$$_break` and `$$_continue` (`StatementStep`) |
| TeaParser.StatementStepAt | build/tea.js:1636-1708 | in a parsed program, statement `i` takes the code from state `i` to state `i + 1` |
| TeaParser.StatementBlock | build/tea.js:1678-1691 | the block statements only append to the context |
| TeaParser.NestedTurn | build/tea.js:1779-1799 | one round of parseNested's loop: a line whose count goes negative ends the body, handing back what follows its `}`; any other line joins the body |
| TeaParser.NestedSplit | build/tea.js:1774-1799 | the while loop computes the nested-body rule |
| TeaParser.ParseNested | build/tea.js:1774-1806 | parsing resumes after the nested body |
| TeaParser.ParseLet | build/tea.js:1862-1899 | let fails exactly as the let rule does, emitting nothing; otherwise it does what RunLet states for the rule's plan |
| TeaParser.RunLet | build/tea.js:1862-1899 | `x = e` emits e's statement and `x = require y` the require, each failing as its rule does; `a, b = await f(…)` fails as the await call rule does, or emits the header, the error check and the i-th target bound from `$$_arg_i`, in order, before the nested rest |
| TeaParser.AwaitCallText | build/tea.js:1966-1996 | the await call is built as the Tea await rule says |
| TeaParser.OpenAwait | build/tea.js:1998-2009 | the await emits the header, then one level deeper the error check and one binding per target, and leaves the depth one deeper |
| TeaParser.ParseAwait | build/tea.js:1966-2013 | an await the rule refuses fails and emits nothing; on success the header, the error check and the bindings come first, the rest of the block is nested inside, and the callback is closed last |
| TeaParser.ParseDefer | build/tea.js:2045-2080 | defer emits no code; a one-line defer adds exactly its action, a block adds the block function and resumes after it, and an error changes nothing |
| TeaParser.IfBody | build/tea.js:2098-2108 | parseBody emits nothing at the outer level, resumes after the nested body, and returns the branch function |
| TeaParser.ElseChain | build/tea.js:2116-2142 | when the next token is not `else` or `elseif`, nothing is consumed and no branch is added; otherwise what it adds is the steps of its lines in order, each an `elseif` line with its condition and branch or an `else` line with its branch, any number of them `else` (`ElseSteps`) |
| TeaParser.ElseLine | build/tea.js:2119-2140 | the line read is the first line of the input; `elseif` with a bad condition fails with that condition's error; a line that is neither `elseif` nor `else` stops the scan and is put back; otherwise the step is the condition and a branch, or a branch, and the input resumes after the block that follows the line |
| TeaParser.IfBlocks | build/tea.js:2112-2149 | the branches and the continuation emit nothing at the outer level; after the first branch come the else chain's steps in order |
| TeaParser.ParseIf | build/tea.js:2092-2155 | if without a trailing `{` is an error at the last token; on success one ifCondition call is emitted with the parenthesised condition first, then the first branch and the else chain's steps in order |
| TeaParser.ForBlocks | build/tea.js:2195-2229 | the loop body and the continuation emit nothing at the outer level |
| TeaParser.ParseFor | build/tea.js:2173-2234 | `for k in o {` with a non-name key is an error at it; a condition loop fails as its condition does; on success one forEachLoop or conditionLoop call is emitted |
| TeaCompiler.Compile | build/tea.js:703-735 | for either classifier version (`AsWritten` classifies as the bundle does): a scanning error is reported with its own message and place, other errors are marked `SyntaxError: `, and the compiled function opens with its parameters and the argument-count check |
| LegacyLexer.Unquoted | lib/compiler/token.js:123-126 | a string word loses its first and last character |
| LegacyLexer.Made | lib/compiler/token.js:112-129 | pushWord drops blank words and otherwise makes one word at the slice's start, trimmed, with a string's quotes removed |
| LegacyLexer.Push | lib/compiler/token.js:108-137 | pushWord adds the slice's word (if the slice is not empty), starts the next word at the given end and resets every temporary flag, keeping the position and status |
| LegacyLexer.Advance | lib/compiler/token.js:149 | the loop moves one character on and changes nothing else |
| LegacyLexer.Throw | lib/compiler/token.js:140-146 | throwError gives the `SyntaxError: ` message at the current position |
| LegacyLexer.Step | lib/compiler/token.js:150-268 | one iteration of the scanning loop always moves forward and keeps the word start between the previous start and the new position |
| LegacyLexer.BlankStep | lib/compiler/token.js:157-178 | the blank state's branch moves forward |
| LegacyLexer.NumberStep | lib/compiler/token.js:181-211 | the number state's branch moves forward |
| LegacyLexer.WordStep | lib/compiler/token.js:214-231 | the word state's branch moves forward |
| LegacyLexer.SymbolStep | lib/compiler/token.js:234-248 | the symbol state's branch moves forward |
| LegacyLexer.StringStep | lib/compiler/token.js:251-263 | the string state's branch moves forward |
| LegacyLexer.Finish | lib/compiler/token.js:270-274 | the words are returned exactly when the text ended in the blank state, else `Unexpected end of input` |
| LegacyLexer.Lex | lib/compiler/token.js:87-278 | the for loop over the padded source computes the scanner's result |
| LegacyLexerFacts.LaidArranged | lib/compiler/token.js:108-137 | words laid down one after another are in order, do not overlap and lie inside the text |
| LegacyLexerFacts.NumberMade | lib/compiler/token.js:181-211 | a run of number characters starting with a digit becomes one number word equal to its slice |
| LegacyLexerFacts.NameMade | lib/compiler/token.js:214-231 | a run of letters, digits and underscores starting with a letter becomes one name word equal to its slice |
| LegacyLexerFacts.SymbolMade | lib/compiler/token.js:234-236 | every symbol character becomes a word of its own |
| LegacyLexerFacts.StringMade | lib/compiler/token.js:251-256 | a quoted run becomes one string word holding what lies between the quotes, ending after the closing quote |
| LegacyLexerFacts.StepShaped | lib/compiler/token.js:150-268 | every iteration keeps the words placed in the text, in order and of the kind their characters call for |
| LegacyLexerFacts.RunShaped | lib/compiler/token.js:149-274 | the loop keeps that invariant to the end |
| LegacyLexerFacts.PlacedInSource | lib/compiler/token.js:88 | the space appended to the source never ends up in a word |
| LegacyLexerFacts.TokenizeLaid | lib/compiler/token.js:87-278 | the words returned are in order, do not overlap, lie inside the source and are each a number, name, symbol or string slice |
| LegacyLexerFacts.TokenizeKinds | lib/compiler/token.js:119-128 | no blank word is returned, and with the corrected name type every word has a type |
| LegacyLexerFacts.NumberFirstExponent | lib/compiler/token.js:186-190 | the first `e` or `E` in a number continues it and resets the dot and sign flags |
| LegacyLexerFacts.NumberLetterFails | lib/compiler/token.js:184-194 | any other letter in a number is `Unexpected token` with that letter, at its position |
| LegacyLexerFacts.NumberSecondDotOrSign | lib/compiler/token.js:200-209 | a second dot, or a second sign, ends the number and starts a symbol |
| LegacyLexerFacts.StringStepCloses | lib/compiler/token.js:253-256 | a string ends exactly at its own quote not preceded by a backslash |
| LegacyLexerFacts.StringCloseWord | lib/compiler/token.js:255 | the closing quote is included in the string's slice |
| LegacyLexerFacts.StringCloseResumes | lib/compiler/token.js:108-111 | after a string the next word starts right after the quote; as written the loop then also skips that character |
| LegacyLexerFacts.StringCloses | lib/compiler/token.js:251-263 | the string state never fails, ends exactly at an unescaped matching quote, and then pushes the string word |
| LegacyLexerFacts.StringEscapes | lib/compiler/token.js:257-262 | inside a string a backslash toggles the escape flag and any other character clears it |
| LegacyLexerFacts.StepHalts | lib/compiler/token.js:184-194 | an iteration fails only on a letter in a number, with that letter's message |
| LegacyLexerFacts.RunErrors | lib/compiler/token.js:149-272 | the loop's failures are of that form or the unexpected end of input |
| LegacyLexerFacts.TokenizeErrors | lib/compiler/token.js:140-146 | an error is either an unexpected letter at its own position in the source, or `Unexpected end of input` one past the padded end |
| LegacyLexerFacts.StepCovered | lib/compiler/token.js:150-268 | with the corrected string close, every visible character read so far lies in some word |
| LegacyLexerFacts.RunCovered | lib/compiler/token.js:149-274 | that holds to the end of the loop |
| LegacyLexerFacts.TokenizeCovers | lib/compiler/token.js:87-278 | with the corrected string close, every visible character of the source lies inside some word |
| LegacyLexerExamples.SkipAfterQuote | lib/compiler/token.js:253-256 | as written, `'a'+b` scans to the string `a` and the name `b`: the `+` is skipped |
| LegacyLexerExamples.PlusLost | lib/compiler/token.js:108-111 | as written, the visible `+` of `'a'+b` lies in no word |
| LegacyLexerExamples.NameUntyped | lib/compiler/token.js:219 | as written, a name gets the type `WORD.WORD`, which the shared word types do not define, so it is untyped |
| LegacyLexerExamples.SecondExponent | lib/compiler/token.js:184-194 | `1e2e` fails with `Unexpected token e` at position 3 |
| LegacyRules.Thrown | lib/compiler/syntax.js:49-58 | throwWordError, as written, reads the undeclared `w` and so raises a host ReferenceError whatever the error was; corrected, it raises the syntax error it built |
| LegacyRules.Raised | lib/compiler/syntax.js:49-58 | a rule's error becomes a failure through throwWordError, and success passes |
| LegacyRules.WithReturn | lib/compiler/syntax.js:109-121 | addReturnAtEnd leaves an empty list alone; otherwise it keeps the list and appends one `return` keyword at column 0 of the line after the last token |
| LegacyRules.ReturnIsLastLine | lib/compiler/syntax.js:109-121 | the appended return is a line of its own, after all the list's lines |
| LegacyRules.FlattenLines | lib/compiler/syntax.js:175-177 | reading line after line loses and reorders no token |
| LegacyRules.NestedLinesSize | lib/compiler/syntax.js:308-328 | the body and the rest of parseNested's scan are no longer than the input |
| LegacyRules.NestedLinesRunOut | lib/compiler/syntax.js:308-328 | without a closing line the whole input is the body and nothing is left |
| LegacyRules.NestedLinesCloses | lib/compiler/syntax.js:313-324 | a scan that closes stops at a line starting with `}`: the body is the lines before it, and what follows the `}` comes back first |
| LegacyRules.NestStepIntended | lib/compiler/syntax.js:313-318 | with the corrected count a line ends the block exactly when it starts with `}` at depth 0; otherwise the depth moves by the line's net braces |
| LegacyRules.NestedLinesBalanced | lib/compiler/syntax.js:308-328 | with the corrected count, the lines of the body have as many `}` as `{` and never go below depth 0 |
| LegacyRules.NestedSize | lib/compiler/syntax.js:303-335 | the nested body and the rest are no longer than the token list |
| LegacyRules.NestedRunsOut | lib/compiler/syntax.js:303-335 | an unclosed block takes all the tokens |
| LegacyRules.NestedCloses | lib/compiler/syntax.js:303-335 | a closed block ends at a `}` line, and what follows it is handed back |
| LegacyRules.NestedBalanced | lib/compiler/syntax.js:303-335 | with the corrected count, a closed block's body is brace-balanced |
| LegacyRules.ElseClosesEarly | lib/compiler/syntax.js:313-317 | as written, `if … {` body `} else {` body `}` `}` ends the block at the else's `}`, so the outer `}` is left over |
| LegacyRules.ElseNet | lib/compiler/syntax.js:313-317 | the four lines of an if/else open one brace more than they close |
| LegacyRules.ElseKeepsDepth | lib/compiler/syntax.js:313-317 | with the corrected count the block takes the whole if/else and ends at the outer `}` |
| LegacyRules.LetTargets | lib/compiler/syntax.js:398-420 | the names scanned before `=` extend the names so far, and the rest is what follows it |
| LegacyRules.DeclareOnce | lib/compiler/syntax.js:405-408 | a let declares each new target once, keeps the variables it had, and keeps the variable list free of repeats |
| LegacyRules.DeclareSnoc | lib/compiler/syntax.js:406-408 | a name is added only when it is not yet declared |
| LegacyRules.LetTargetsAppend | lib/compiler/syntax.js:402-404 | an identifier joins the targets |
| LegacyRules.LetTargetsSkip | lib/compiler/syntax.js:409-411 | a comma after a name is skipped |
| LegacyRules.LetStatement | lib/compiler/syntax.js:392-452 | nothing at all is a host TypeError, fewer than three tokens an unexpected end of input; an accepted let has valid targets, their names joined by `, `, and more than one only for await |
| LegacyRules.LetOperandShorter | lib/compiler/syntax.js:421-451 | the operand handed on is shorter than the statement |
| LegacyRules.LetRestShorter | lib/compiler/syntax.js:400-427 | what follows the `=` leaves room for at least one target and the `=` |
| LegacyRules.RequireLine | lib/compiler/syntax.js:463-472 | require accepts exactly one name or string and emits `name = require(x);` |
| LegacyRules.ExpressionAccepts | lib/compiler/syntax.js:493-504 | an expression is accepted exactly when every token is a name, number, string or symbol |
| LegacyRules.ExpressionText | lib/compiler/syntax.js:491-507 | the accepted statement is `name = `, the trimmed concatenation and `;` |
| LegacyRules.ExpressionFirstError | lib/compiler/syntax.js:493-504 | the error is at the first refused token |
| LegacyRules.AwaitCall | lib/compiler/syntax.js:518-521 | nothing at all is a host TypeError, and a first token that is not a name is an error at it |
| LegacyRules.AwaitCallShapes | lib/compiler/syntax.js:522-543 | the callback ends the call: after the arguments and a comma, or as the only argument of `f()` and `f` |
| LegacyRules.ReturnValuesAccepts | lib/compiler/syntax.js:562-580 | return values are accepted exactly when they are names and numbers separated by single commas, and come out in order |
| LegacyRules.DeferLine | lib/compiler/syntax.js:594-629 | a one-line defer is accepted exactly when it ends in a name or in `)` after at least three tokens; the block form is exactly `{`; anything else is an error at the last token |
| LegacyRules.DeferLines | lib/compiler/syntax.js:260-274 | the deferred-action block opens the queue, registers each action once in order, and installs the callback that drains it |
| LegacyRules.DefersCode | lib/compiler/syntax.js:260-277 | the block is empty exactly when nothing is deferred |
| LegacyRules.VarsCode | lib/compiler/syntax.js:253-257 | the declaration is empty exactly when there are no variables |
| LegacyRules.WrapUnit | lib/compiler/syntax.js:280-286 | the parameters are the arguments followed by `$$_callback`, with declarations and deferred actions only when needed |
| LegacyRules.WrapShape | lib/compiler/syntax.js:280-293 | the compiled function is the parameter list, `use strict` and `try`, the declarations, the deferred actions, the code, and the `catch` that hands the error to the callback |
| LegacyParser.ParseExpression | lib/compiler/syntax.js:491-507 | parseExpression fails as the expression rule does, through throwWordError and emitting nothing, and emits the statement on success |
| LegacyParser.ParseIdentifiers | lib/compiler/syntax.js:345-379 | the argument and var loops refuse a list exactly as the argument rule does (at a token that is neither an identifier nor a comma, or at a comma right after a comma; names side by side and a leading or trailing comma pass), and append every name in order; a refused list keeps the names pushed before the refusal |
| LegacyParser.ParseRequire | lib/compiler/syntax.js:463-472 | parseRequire fails as the require rule does and emits the require statement on success |
| LegacyParser.ParseReturn | lib/compiler/syntax.js:562-580 | parseReturn fails as the return-value rule does and emits `return $$_callback(null, …);` on success |
| LegacyParser.ParseArgument | lib/compiler/syntax.js:345-357 | argument appends its names to the argument list and leaves the variables alone |
| LegacyParser.ParseVar | lib/compiler/syntax.js:367-379 | var appends its names to the variable list and leaves the arguments alone |
| LegacyParser.CountBrace | lib/compiler/syntax.js:313-317 | one line's brace counting gives the nesting step |
| LegacyParser.ScanKeeps | lib/compiler/syntax.js:325-327 | a line that keeps the depth at or above zero joins the body |
| LegacyParser.ScanStops | lib/compiler/syntax.js:318-324 | a line that takes the depth below zero ends the scan, handing back what follows its first token |
| LegacyParser.ScanNested | lib/compiler/syntax.js:304-328 | the while loop computes the nested-block rule |
| LegacyParser.LetTargetList | lib/compiler/syntax.js:398-420 | the target loop computes the target rule and declares exactly the targets not yet declared |
| LegacyParser.AwaitCallText | lib/compiler/syntax.js:518-541 | the await call is built as the await rule says |
| LegacyParser.Refusal | lib/compiler/syntax.js:180-242 | syntax.parse refuses a line only when it starts with an unknown keyword or a keyword that needs an operand it lacks |
| LegacyParser.Parse | lib/compiler/syntax.js:175-247 | syntax.parse consumes every token when it succeeds and changes nothing for an empty list; the first statement is the first line; its code goes through one state per statement, in order, each step being what `Statement` does for that line (`StatementSteps`) |
| LegacyParser.Statement | lib/compiler/syntax.js:176-246 | a refused line fails through throwWordError; plain lines, argument, var, require, return, break and continue do what their rules say (`StatementStep` for the code) |
| LegacyParser.StatementStepAt | lib/compiler/syntax.js:175-247 | in a parsed program, statement `i` takes the code from state `i` to state `i + 1` |
| LegacyParser.StatementBlock | lib/compiler/syntax.js:198-230 | the block statements only append to the context |
| LegacyParser.ParseNested | lib/compiler/syntax.js:303-335 | parsing resumes after the nested block |
| LegacyParser.ParseLet | lib/compiler/syntax.js:392-452 | let fails as the let rule does, emitting nothing; on success its targets are declared once, and `x = e` or `x = require y` emits one statement; `a, b = await f(…)` fails as the await call rule does, or opens a callback whose parameters after the error are the targets themselves, in order, before the nested rest |
| LegacyParser.OpenAwait | lib/compiler/syntax.js:542-546 | the await emits the header and, one level deeper, the error check, and leaves the depth one deeper |
| LegacyParser.ParseAwait | lib/compiler/syntax.js:518-550 | an await the rule refuses fails and emits nothing; on success the header and the error check come first, the rest of the block is nested inside, and the callback is closed last |
| LegacyParser.ParseDefer | lib/compiler/syntax.js:594-629 | defer emits no code; a one-line defer adds exactly its action, a block adds the block function and resumes after it, and an error fails through throwWordError |
| LegacyParser.IfBody | lib/compiler/syntax.js:647-657 | parseBody emits nothing at the outer level, resumes after the nested body and returns the branch function |
| LegacyParser.ElseChain | lib/compiler/syntax.js:665-691 | when the next token is not `else` or `elseif` nothing is consumed and no branch is added; otherwise what it adds is the steps of its lines in order, each an `elseif` line with its condition and branch or an `else` line with its branch (`ElseSteps`) |
| LegacyParser.ElseLine | lib/compiler/syntax.js:668-690 | the line read is the first line of the input; `elseif` with a bad condition fails through throwWordError with that condition's error; a line that is not `else` or `elseif` stops the scan and is put back; otherwise the step is the condition and a branch, or a branch, and the input resumes after the block that follows the line |
| LegacyParser.IfBlocks | lib/compiler/syntax.js:661-698 | the branches and the continuation emit nothing at the outer level; after the first branch come the else chain's steps in order |
| LegacyParser.ParseIf | lib/compiler/syntax.js:641-704 | if without a trailing `{` fails at its last token; on success one ifCondition call is emitted with the parenthesised condition first, then the first branch and the else chain's steps in order |
| LegacyParser.ForBlocks | lib/compiler/syntax.js:744-778 | the loop body and the continuation emit nothing at the outer level |
| LegacyParser.ParseFor | lib/compiler/syntax.js:722-783 | `for k in o {` with a non-name key fails at it; a condition loop fails as its condition does; on success one forEachLoop or conditionLoop call is emitted |
| LegacyParser.Compile | lib/compiler/syntax.js:156-295 | the top-level parse of a token list, with its return appended, is the wrapped context; no tokens compile to the empty function |
| Runtime.DeferQueue.constructor | build/bright.js:638 | the queue holds the deferred actions it is given |
| Runtime.StepEvents | build/bright.js:638-651 | calling an action with the error opens its events; a second event, the logged error, comes exactly when the action reported or threw a non-empty error; no action's events include the final callback |
| Runtime.Leftover | build/bright.js:643-646 | what remains of the queue after a drain is never longer than the queue |
| Runtime.DrainTurn | build/bright.js:639-652 | an action that calls `next` (with or without an error) or throws hands the drain on to the next position, and leaves the same remainder |
| Runtime.RunDefers | build/bright.js:638-654 | the loop's trace is the drain of the original queue with the error, and the queue is left as that drain leaves it |
| Runtime.DrainSkipsEmpty | build/bright.js:638-641 | an empty error is never logged, because `next` logs only a truthy error |
| Runtime.DrainLogsAt | build/bright.js:638-651 | a non-empty error that an action reports or throws is logged, when every action up to it goes on to `next` |
| Runtime.DrainRunsAll | build/bright.js:638-654 | when every element is an action that ends, every action is called once in queue order, the final callback comes last and the queue ends empty |
| Runtime.DrainEnds | build/bright.js:644-646 | when every action ends, the last event of the drain is the final callback |
| Runtime.DrainCalls | build/bright.js:643-651 | when every action ends, the actions called are exactly the positions from `k` to the end, and nothing is left |
| Runtime.DrainPassesError | build/bright.js:648 | every action is called with the error runDefers was given, never with the one an earlier action threw |
| Runtime.DrainCallbackOnce | build/bright.js:639-653 | the final callback is called at most once and only as the last event, and it is called exactly when the drain reaches a non-function or the end without an action that never calls `next` |
| Runtime.FinishesStep | build/bright.js:643-651 | the drain from an action reaches the final callback iff the action ends and the drain after it reaches the callback |
| Runtime.GroupArgs | build/bright.js:670-674 | the arguments are grouped two by two, with the last group holding one argument when their number is odd |
| Runtime.FirstTruthy | build/bright.js:690-703 | the first pair from `j` whose condition is truthy, every earlier condition being falsy; `m` if there is none |
| Runtime.PairsFacts | build/bright.js:669-675 | the last group is the else/done group; it holds two arguments exactly when the number of arguments is even |
| Runtime.IfDone | build/bright.js:677-689 | the final group calls the else branch and then the done callback, or only the done callback after a truthy branch, or its own single callback |
| Runtime.IfCondition | build/bright.js:669-706 | no arguments throw (`end` is undefined); for well-formed arguments the branches called are those of the dialect's reference definition |
| Runtime.Chosen | build/bright.js:690-703 | the argument position of the branch the first truthy condition selects, or the else branch |
| Runtime.BrightRunsOneBranch | build/bright.js:690-704 | the bright runtime calls exactly one branch, that of the first truthy condition or the else branch, followed only by the done callback |
| Runtime.TeaFalsyRest | build/tea.js:528-541 | with only falsy conditions left, the tea runtime goes straight to the final group |
| Runtime.TeaAgreesWithoutTruthyGuard | build/tea.js:528-541 | when no condition is truthy the two runtimes call the same branches, the else branch and then the done callback |
| Runtime.TeaRunsTwoBranches | build/tea.js:528-541 | with two truthy conditions, the tea runtime calls both branches and then the done callback, while the bright runtime calls only the first |
| Runtime.TeaElseAfterBranch | build/tea.js:528-541 | after a truthy branch followed by a falsy condition, the tea runtime runs the else branch too, while the bright runtime does not |
| Runtime.LoopTurn | build/bright.js:716-722 | a round whose test is true calls the body, which continues as its exit says |
| Runtime.ConditionLoop | build/bright.js:715-724 | the loop's trace is the reference trace of the rounds given |
| Runtime.FirstStop | build/bright.js:716-722 | the first round whose test is false or whose body does not call `next` |
| Runtime.LoopBodies | build/bright.js:715-724 | the bodies run are those of every round up to the first stop, plus that round's body if its test was true |
| Runtime.LoopFinishes | build/bright.js:716-722 | done() is called iff the loop stops at a false test or a body that calls `done`, and then once, as the last event |
| Runtime.LoopTestsFirst | build/bright.js:717-718 | every run of the body comes straight after a test of the same round that returned true |
| Runtime.ForEachLoop | build/bright.js:733-744 | the loop's trace is the reference trace over the keys given |
| Runtime.KeysOf | build/bright.js:734 | the keys of the object, in order |
| Runtime.FirstExit | build/bright.js:735-742 | the first key whose body does not call `next` |
| Runtime.EachVisits | build/bright.js:735-742 | the body runs on the keys in order up to and including the first one whose body does not call `next` |
| Runtime.EachFinishes | build/bright.js:735-742 | done() is called iff every body calls `next` or the first that does not calls `done`, and then once, as the last event |
| Runtime.ParseArguments | build/bright.js:766-773 | a non-empty argument list splits into the arguments and the last element as callback; an empty list gives no callback and no arguments |
| LegacyRuntime.LegacyQueue.constructor | lib/runtime/core.js:17 | the queue holds the functions it is given |
| LegacyRuntime.RunEvents | lib/runtime/core.js:23-27 | a call opens a function's events, followed by the logged error if it threw; the final callback is never among them |
| LegacyRuntime.FirstNonFunction | lib/runtime/core.js:19-22 | the position of the first element that is not a function, every earlier one being a function |
| LegacyRuntime.RunDefers | lib/runtime/core.js:17-31 | the trace is the reference drain of the original queue, and the queue is left after the first non-function |
| LegacyRuntime.LegacyRunsAll | lib/runtime/core.js:17-31 | every function before the first non-function is called, once each and in order, whether or not earlier ones threw |
| LegacyRuntime.LegacyFinishesOnce | lib/runtime/core.js:20-22 | the final callback is called exactly once, as the last event |
| LegacyRuntime.LegacyLogsAll | lib/runtime/core.js:25-27 | the error of every function that throws before the first non-function is logged |

## Left out

- The module loader and the bundled path/process shims in both bundles (`build/bright.js:1-392`) are not modelled: they are packaging glue.
- The entry points are not modelled: `lib/index.js`, the bundled `/lib/index.js`, `eval` of generated code, extension registration, file and XHR loading and DOM scanning. They are host I/O.
- Error display is not modelled: `showErrorLine`, `lib/compiler/parser.js`, and the `console.error`/`console.log` calls that report errors. Errors are only returned as values.
- The top-level test calls at `lib/compiler/token.js:283` and `lib/compiler/parser.js:80` are not modelled: they only produce console output.
- `runtime.sleep` (`build/bright.js:752-756`) is not modelled: it only hands its callback to `setTimeout`. The compiled `sleep` call that Tea's `await <number>` emits is modelled as text.
- `lib/compiler/define.js` is transcribed as constants, not modelled as a component.
- The meaning of the generated JavaScript is not modelled: it is treated as strings. This includes the `wrap` header templates, which are kept as fixed text.
- Concurrency is not modelled. Runtime callbacks run synchronously, and a run is the trace of the calls it makes. An action that hands control back later, or more than once, is outside the model.
- Callback outcomes are chosen in advance, as inputs: a loop body's exit, a round's test result, and how each deferred action ends. Nothing models these being computed by running code.
- Runtime.ConditionLoop: a loop that would go on forever is modelled only as far as the rounds supplied.
- Runtime.ForEachLoop: the key order of `Object.keys` is an input. The snapshot is simply the key list.
- Runtime.RunDefers: a reported or thrown error is modelled as a string, logged unless it is the empty string. Other falsy values (`0`, `null`, `false`) and non-string errors are not modelled.
- Runtime.RunDefers: an action that calls `next` and then throws, which would drain the queue twice, is not modelled.
- Runtime.IfCondition: argument lists that break the compiled calling convention (a guard where a function is expected) are pinned down only when they are empty.
- Characters are Dafny `char`s. JavaScript's UTF-16 code units, surrogate pairs and `charCodeAt` on them are not modelled beyond comparing code points.
- BrightParser.Parse: ties the code to the statements in order, but states the step of a keyword statement only as appending, between its line markers when it has them. The code of each kind of statement is stated by its own handler's row.
- TeaParser.Parse: ties the code to the statements in order, but its steps state the exact line only for single-line statements.
- LegacyParser.Parse: ties the code to the statements in order, but its steps state the exact line only for single-line statements.
- BrightParser.HandleBlock: promises only that the context grows.
- BrightParser.ForBlocks: promises only that the outer code is unchanged and the context grows. The loop body's code is not stated.
- TeaParser.StatementBlock: promises only that the context grows.
- TeaParser.ForBlocks: promises only that the outer code is unchanged and the context grows. The loop body's code is not stated.
- LegacyParser.StatementBlock: promises only that the context grows.
- LegacyParser.ForBlocks: promises only that the outer code is unchanged and the context grows. The loop body's code is not stated.
- BrightParser.ParseNested: promises the growth and the tokens left after the block. The code of the block body is not stated.
- TeaParser.ParseNested: promises the growth and the tokens left after the block. The code of the block body is not stated.
- LegacyParser.ParseNested: promises the growth and the tokens left after the block. The code of the block body is not stated.
- BrightParser.ParseAwait: states the header, the bindings and the closing line, but not the continuation lines between them.
- BrightParser.ParseSleep: states the stored duration and the closing line, but not the continuation lines between them.
- TeaParser.ParseAwait: states the header, the bindings and the closing line, but not the continuation lines between them.
- LegacyParser.ParseAwait: states the header, the error check and the closing line, but not the continuation lines between them.
- BrightParser.ParseIf: states the line emitted in terms of the branch and continuation code it returns. That code is not itself tied to a reference.
- TeaParser.ParseIf: states the line emitted in terms of the branch and continuation code it returns. That code is not itself tied to a reference.
- LegacyParser.ParseIf: states the line emitted in terms of the branch and continuation code it returns. That code is not itself tied to a reference.
- BrightParser.ParseFor: states the loop call emitted in terms of the body and continuation code it returns. That code is not itself tied to a reference.
- TeaParser.ParseFor: states the loop call emitted in terms of the body and continuation code it returns. That code is not itself tied to a reference.
- LegacyParser.ParseFor: states the loop call emitted in terms of the body and continuation code it returns. That code is not itself tied to a reference.
- BrightParser.ParseDefer: states the deferred action of a block defer in terms of the block function's code, which is not itself tied to a reference.
- TeaParser.ParseDefer: states the deferred action of a block defer in terms of the block function's code, which is not itself tied to a reference.
- LegacyParser.ParseDefer: states the deferred action of a block defer in terms of the block function's code, which is not itself tied to a reference.
- BrightParser.ParseFunction: states the wrapped function in terms of the body code it returns. That code is not itself tied to a reference.
- LegacyParser.ParseIdentifiers: on a refusal, states only that earlier names stay. It does not say which names were pushed before the failing token.
- TeaRules.NestedStep: keeps Tea's `} else {` count as written (the slip of the prototype's row under "## Findings"); the Tea model has no corrected count of its own.
- LegacyParser.Compile and LegacyParser.Parse: `lib/compiler/syntax.js:11` reads `define.TOKEN`, which its own `define.js` does not export, so as the file stands the first token-kind test (for example `TOKEN.KEYWORD` at `lib/compiler/syntax.js:113`) throws a TypeError on any non-empty token list. Both versions of the model read the token kinds as those of the current compiler's enum instead.
- BrightCompiler.Compile: states the wrapped output in terms of the declarations and code built, which come from BrightParser.Parse above.
- TeaCompiler.Compile: states the wrapped output in terms of the declarations and code built, which come from TeaParser.Parse above.
- LegacyParser.Compile: states the wrapped output in terms of the declarations and code built, which come from LegacyParser.Parse above.

## Findings

| source | as written | input that shows it | evidently intended | confidence | as-written member | corrected member |
|---|---|---|---|---|---|---|
| build/tea.js:1240-1286 | after `.` is merged into the following number, the index moves past the merged token, so the next token is never classified | Tea tokens `.` `5` `if` | `if` is classified like any other name, becoming a keyword | medium, not executed | ClassifierFacts.SkipsAfterMerge | ClassifierFacts.ClassifyKinds |
| build/bright.js:1391-1412 | the same `i--` on the loop's shadowed index: the token after a merged number is never classified | Bright tokens `.` `5` `=` `=` `1` (the text `.5==1`) | the two `=` merge into `==` | medium, not executed | ClassifierFacts.BrightSkipsAfterMerge | ClassifierFacts.ClassifyKinds |
| build/bright.js:1030-1032 | the keyword test is a property lookup on a plain object, so inherited names count as keywords | the name `constructor` | only the listed words are keywords | high, not executed | ClassifierFacts.InheritedKeyword | ClassifierFacts.ClassifyKinds |
| lib/compiler/token.js:253-256 | after a closing quote the loop does not read the next character again, so that character is skipped | `'a'+b` | every visible character lies in some word | high, not executed | LegacyLexerExamples.SkipAfterQuote | LegacyLexerFacts.TokenizeCovers |
| lib/compiler/token.js:219 | a name is typed `WORD.WORD`, which is not defined, so names carry no type | `ab` | names carry the name type | high, not executed | LegacyLexerExamples.NameUntyped | LegacyLexerFacts.TokenizeKinds |
| lib/compiler/syntax.js:49-58 | throwWordError reads the undeclared `w` (`err.token = w`), which raises a ReferenceError in place of the syntax error (in the file as it stands the `define.TOKEN` TypeError comes first; see "## Left out") | any token a rule refuses, for example a second comma in `var a,,b` | the syntax error that was built is raised | high, not executed | LegacyRules.Thrown | LegacyRules.Raised |
| lib/compiler/syntax.js:313-317 | a `} else {` line counts as closing and does not reopen, so the block ends one `}` early; Tea's parseNested (build/tea.js:1784-1788) counts the same way, and TeaRules.NestedStep keeps that count as written | `if a {`, a line, `} else {`, a line, `}`, `}` | `} else {` keeps the depth, and the block ends at the enclosing `}` | medium, not executed | LegacyRules.ElseClosesEarly | LegacyRules.ElseKeepsDepth |
| build/tea.js:528-541 | `next` stops only when the groups run out, so guards after a taken branch are still tested and more branches run | guards `true`, `true`, then else and done | one branch runs, then done; `build/bright.js:692` adds this stop | medium, not executed | Runtime.TeaRunsTwoBranches | Runtime.BrightRunsOneBranch |
