# klox core in Dafny

This project models the front end and evaluator of klox, a tree-walking interpreter for the Lox
scripting language written in Kotlin, and proves properties of that model. Source text flows
through four stages:

- **Scanner** (`scanner.dfy`, class `Scanning.Scanner`). A character cursor with line
  counting. It produces tokens and collects errors, and it never stops early. The class's
  methods are proved to move its fields exactly as the pure step function `Lexing.Step`
  says. Properties of a whole scan are proved about `Lexing.Scan` in `lexing.dfy`.
- **Parser** (`parser.dfy`, class `Parsing.Parser`). A token cursor with one method per
  precedence level: equality, comparison, term, factor, unary, primary. Each method is proved
  to return what the functions `ParsePrimary`, `ParseUnary` and `ParseLevel` compute, and to
  leave the cursor where they say. Those functions are proved to give a tree of the level
  that the consumed tokens spell exactly, position by position, or to stop at one of the
  source's `TODO()` calls.
- **Resolver** (`resolver.dfy`, class `Resolving.Resolver`). A stack of scope frames updated
  in place. It assigns each local a (depth, slot) address and reports:
  - redeclarations;
  - reads of a variable inside its own initialiser;
  - `return` at top level;
  - unused locals.

  Every method is proved to move the object's state exactly as the functions of
  `resolution.dfy` say. The properties of those functions are proved in
  `resolution_facts.dfy`.
- **Interpreter** (`interpreter.dfy`, with properties in `interpreter_facts.dfy`). Recursive
  evaluation of literals, grouping, unary and binary expressions. It covers dynamic type
  checks, truthiness, string-or-number `+` and division by zero. It also models running a
  statement list with `print`.
- **Values** (`values.dfy`). The `LoxValue` family: truthiness, display text, conversions
  from literals, binding a method to an instance, calling a class, and reading and writing
  instance properties.

`tokens.dfy` and `ast.dfy` hold the token and tree datatypes, shaped after `Token.kt` and
`Expression.kt`. `util.dfy` holds an option type and the decimal rendering of line numbers.

klox's own files disagree on some names. `Token.kt` lists `True`, `False` and `Nil` among the
members of `Keyword` and declares no `KeywordLiteral`, `BinaryOp`, `UnaryOp` or `Literal` type.
The scanner, the interpreter and the values use `TokenType.KeywordLiteral` (`Scanner.kt:138`,
`Interpreter.kt:42-53`, `LoxValue.kt:62-68`), and the parser uses `TokenType.BinaryOp` and
`TokenType.UnaryOp` (`Parser.kt:13-80`). Yet `Parser.kt:91-93` matches and builds
`TokenType.Keyword.False`, `Keyword.True` and `Keyword.Nil`, the `Token.kt` spelling, and
`Scanner.kt:137` searches `Keyword.values()` before `KeywordLiteral.values()`. Read literally,
these cannot all hold: either `primary()` never matches the scanner's `true`, `false` and `nil`,
or the truthiness test of `Interpreter.kt:42` never sees them.
`Expression.kt:3-11` gives `Binary` and `Unary` nodes no line, while `Interpreter.kt:62-133`
reads `expr.sourceLine` from them. The model follows the core files:
- Keyword literals (`true`, `false`, `nil`) are a kind of their own, `KwLit`, distinct from the
  keywords. The scanner emits them, and the parser's `Keyword.False`, `Keyword.True` and
  `Keyword.Nil` matches (`Parser.kt:91-93`) are read as matching these keyword literals.
- `Binary` and `Unary` nodes carry the source line that the interpreter's errors report
  (`expr.sourceLine`). The parser fills it in from the operator token.

Where the written specification and the code disagree, the model follows the code:
- Identifiers start and continue only on characters in `'A'..'z'` or `_`, so an identifier
  never contains a digit (`Scanner.kt:57, 134`), although the language description allows
  digits after the first character.

## Model

Functions that only compute have no contract of their own, and their rows name the lemmas
that state their properties. `Interpreting.Evaluate`, `BinaryOperator`, `UnaryOperator`,
`Plus`, `NumberOperator`, `IsTruthy`, `Stringify`, `Execute` and `Interpret` are stated by
the `EvaluationFacts` lemmas. `Lexing.Scan` and `Lexing.ScanFrom` are stated by the
`Lexing.ScanFrom…` lemmas and `Lexing.ScanShape`.

| member | source | states |
|---|---|---|
| Tokens.KeywordOrIdentifier | src/main/kotlin/Scanner.kt:136-139 | a text is a keyword if one is spelled so, else a keyword literal if one is spelled so, and an identifier exactly when neither table has it |
| Tokens.ReservedWordsRoundTrip | src/main/kotlin/Scanner.kt:136-139 | every keyword and keyword literal is classified back as itself |
| Util.NatToStringRoundTrip | src/main/kotlin/Resolver.kt:163 | the decimal text of a line number reads back as that number |
| Lexing.IdentifierEnd | src/main/kotlin/Scanner.kt:134 | the identifier loop stops at the first character outside `'A'..'z'` and `_`, and everything before it is inside |
| Lexing.Find | src/main/kotlin/Scanner.kt:98-101 | scanning to a delimiter stops at its first occurrence, or at the end of input |
| Lexing.ParseDecimal | src/main/kotlin/Scanner.kt:122-130 | a text has a number value exactly when it is digits, optionally followed by a dot and more digits |
| Lexing.Step | src/main/kotlin/Scanner.kt:21-82 | one step moves the cursor forward within the input, only adds lines, and adds a token whose lexeme is `source[start..current)` at the line reached, never an end-of-input token |
| Lexing.StepOperator | src/main/kotlin/Scanner.kt:33-55 | `!`, `=`, `<`, `>` followed by `=` give one two-character token, otherwise a one-character token, with no error |
| Lexing.OperatorKinds | src/main/kotlin/Scanner.kt:33-55 | the two-character and one-character operators chosen are the ones spelled by the characters consumed |
| Lexing.NumberLexemeScanned | src/main/kotlin/Scanner.kt:113-120 | the number loop consumes a number lexeme, is followed by no digit, and never ends on a dot |
| Lexing.StepNumber | src/main/kotlin/Scanner.kt:113-131 | a digit starts a number token whose value is the decimal value of its lexeme; the invalid-literal error never occurs |
| Lexing.StepString | src/main/kotlin/Scanner.kt:97-111 | a string token ends at the first `"` after the opening one and its value is exactly the characters between the two quotes; lines count the line feeds inside; with no `"` after the opening one the rest of the input is consumed, "Unterminated string." is recorded and no token is added |
| Lexing.StepIdentifier | src/main/kotlin/Scanner.kt:133-140 | an identifier-shaped run is consumed greedily and classified through the keyword tables |
| Lexing.StepWhitespace | src/main/kotlin/Scanner.kt:69-73 | a space, `\r` or `\t` produces nothing; a line feed only counts a line |
| Lexing.StepUnexpected | src/main/kotlin/Scanner.kt:75-78 | any other character records one "Unexpected character." at the current line and is skipped |
| Lexing.RenderReadsBack | src/test/kotlin/InterpreterTest.kt:373-377 | a printed scan error starts with `[line `, then digits that read back as the error's line, then `] Error: ` and the message |
| Lexing.OperatorStep | src/main/kotlin/Scanner.kt:33-55 | an operator step moves the cursor forward within the input, never lowers the line, and any token it adds is spelled by the characters consumed, sits at the line reached and is no end-of-input token |
| Lexing.IdentifierStep | src/main/kotlin/Scanner.kt:133-140 | an identifier step moves the cursor forward within the input, never lowers the line, and any token it adds is spelled by the characters consumed, sits at the line reached and is no end-of-input token |
| Lexing.NumberStep | src/main/kotlin/Scanner.kt:113-131 | a number step moves the cursor forward within the input, never lowers the line, and any token it adds is spelled by the characters consumed, sits at the line reached and is no end-of-input token |
| Lexing.StringStep | src/main/kotlin/Scanner.kt:97-111 | a string step moves the cursor forward within the input, never lowers the line, and any token it adds is spelled by the characters consumed, sits at the line reached and is no end-of-input token |
| Lexing.SlashStep | src/main/kotlin/Scanner.kt:60-67 | a slash step moves the cursor forward within the input, never lowers the line, and any token it adds is spelled by the characters consumed, sits at the line reached and is no end-of-input token |
| Lexing.BlockComment | src/main/kotlin/Scanner.kt:142-160 | a `blockComment` call never moves the cursor back or past the end and never lowers the line |
| Lexing.CommentBody | src/main/kotlin/Scanner.kt:145-157 | the loop of `blockComment` never moves the cursor back or past the end and never lowers the line |
| Lexing.BlockCommentNesting | src/main/kotlin/Scanner.kt:142-157 | counting each `/*` as +1 and each `*/` as -1 from the left, a comment ends exactly at the first point where the count taken from its starting nesting reaches -1: the consumed text reaches -1 and every shorter prefix stays at zero or above; an unterminated comment never takes the count below zero anywhere up to the end of input |
| Lexing.BlockCommentErrorLine | src/main/kotlin/Scanner.kt:142-160 | an unterminated comment is reported at the line where the innermost `blockComment` call began: the line after the last `/*` or `*/` consumed, or the comment's first line when it has none |
| Lexing.NestedCommentExamples | src/main/kotlin/Scanner.kt:142-160 | three unclosed openers on lines 1 to 3 give one error, at line 3; two openers and one closer are unterminated; two of each close the comment; `/**/ /* */` ends after its own `*/` at position 4 |
| Lexing.BlockCommentEnds | src/main/kotlin/Scanner.kt:142-160 | a nested block comment either ends right after a `*/` or reaches the end of input and reports one error at a line no earlier than where the comment began |
| Lexing.BlockCommentLines | src/main/kotlin/Scanner.kt:146-148 | a block comment counts every line feed it consumes |
| Lexing.StepBlockComment | src/main/kotlin/Scanner.kt:142-160 | `/*` produces no token and at most one "Unterminated block comment." error, and only at end of input; a closed comment ends at the first `*/` that brings the nesting count of its text to -1, every shorter prefix staying at zero or above; an unclosed one never drops below zero and is reported at the line of its innermost nesting step |
| Lexing.StepCountsLines | src/main/kotlin/Scanner.kt:21-82 | after every step, the line is the starting line plus the line feeds consumed |
| Lexing.ScanFromEndsWithEof | src/main/kotlin/Scanner.kt:9-19 | the token list ends with an end-of-input token carrying the final line count |
| Lexing.ScanFromSingleEof | src/main/kotlin/Scanner.kt:9-19 | no other token is an end-of-input token |
| Lexing.ScanFromLinesOrdered | src/main/kotlin/Scanner.kt:9-19 | token lines never decrease |
| Lexing.ScanShape | src/main/kotlin/Scanner.kt:9-19 | a scan from the start ends with exactly one end-of-input token at line 1 plus the input's line feeds, with non-decreasing token lines |
| Scanning.Scanner.constructor | src/main/kotlin/Scanner.kt:2-7 | a new scanner is at the start of the input, on line 1, with no tokens and no errors |
| Scanning.Scanner.Peek | src/main/kotlin/Scanner.kt:86 | the character under the cursor, or none past the end |
| Scanning.Scanner.PeekNext | src/main/kotlin/Scanner.kt:88 | the character after the cursor, or none past the end |
| Scanning.Scanner.Advance | src/main/kotlin/Scanner.kt:84 | returns what `peek` saw and moves the cursor by one, changing nothing else |
| Scanning.Scanner.Match | src/main/kotlin/Scanner.kt:90-95 | consumes one character exactly when it is the expected one |
| Scanning.Scanner.RecordError | src/main/kotlin/Scanner.kt:76 | appends one error at the current line |
| Scanning.Scanner.SkipStringBody | src/main/kotlin/Scanner.kt:98-101 | stops at the next quote or the end, counting the line feeds passed |
| Scanning.Scanner.StringLiteral | src/main/kotlin/Scanner.kt:97-111 | moves the scanner as the string step says and returns its token kind |
| Scanning.Scanner.SkipDigits | src/main/kotlin/Scanner.kt:114 | stops at the first non-digit |
| Scanning.Scanner.SkipNumber | src/main/kotlin/Scanner.kt:114-120 | consumes the digits, then a `.` and more digits only when a digit follows the `.` |
| Scanning.Scanner.NumberLiteral | src/main/kotlin/Scanner.kt:113-131 | moves the scanner as the number step says and returns its token kind |
| Scanning.Scanner.IdentifierOrKeyword | src/main/kotlin/Scanner.kt:133-140 | consumes the identifier run and classifies its text |
| Scanning.Scanner.BlockComment | src/main/kotlin/Scanner.kt:142-160 | moves the cursor and line as the nesting comment function says and records its one error if unterminated |
| Scanning.Scanner.AddToken | src/main/kotlin/Scanner.kt:81 | appends a token with lexeme `source[start..current)` at the current line |
| Scanning.Scanner.SkipLine | src/main/kotlin/Scanner.kt:61 | a `//` comment runs to the next line feed, which it leaves unconsumed |
| Scanning.Scanner.ScanSlash | src/main/kotlin/Scanner.kt:60-67 | `/` starts a line comment, a block comment or a slash token, as the slash step says |
| Scanning.Scanner.ScanToken | src/main/kotlin/Scanner.kt:21-82 | the fields change exactly as one step of the scan says |
| Scanning.Scanner.ScanTokens | src/main/kotlin/Scanner.kt:9-19 | a fresh scanner returns exactly the tokens and errors of a whole scan |
| Parsing.LevelKindsAreOperators | src/main/kotlin/Parser.kt:11-65 | each level's `match` list holds exactly the operators of that precedence |
| Parsing.OperatorsWithinLevel | src/main/kotlin/Parser.kt:4-76 | precedence is layered: a tree of a level holds no operator looser than that level, so `*` and `/` bind tighter than `+` and `-` |
| Parsing.FoldsLeft | src/main/kotlin/Parser.kt:8-76 | binary trees fold to the left: a right operand holds only tighter operators |
| Parsing.UnaryNests | src/main/kotlin/Parser.kt:78-88 | a level-0 tree read off the tokens is its prefix operators' tokens, in the written order and one `Unary` node each, followed by one literal |
| Parsing.AdvanceNeverReturns | src/main/kotlin/Parser.kt:119-126 | as written, `advance()` with a token left calls itself until the stack is exhausted |
| Parsing.AdvanceOverflowsOnTrue | src/main/kotlin/Parser.kt:119-126 | parsing `true` reaches that endless call, with `primary`'s matches read as matching the keyword literals |
| Parsing.AdvanceOverflowsOnMinus | src/main/kotlin/Parser.kt:77-81 | parsing `-1` reaches that endless call through `unary`'s `match`, whatever enum holds `true`, `false` and `nil` |
| Parsing.Parser.constructor | src/main/kotlin/Parser.kt:1-2 | a new parser is at the first token |
| Parsing.Parser.Peek | src/main/kotlin/Parser.kt:128 | the token under the cursor, or none at or past the end |
| Parsing.Parser.Check | src/main/kotlin/Parser.kt:115-117 | true exactly when a token is left and it has the given kind |
| Parsing.Parser.Advance | src/main/kotlin/Parser.kt:119-126 | moves past one token and returns it, or returns none at the end |
| Parsing.Parser.Match | src/main/kotlin/Parser.kt:104-113 | advances by exactly one when the next token has one of the kinds, otherwise leaves the cursor |
| Parsing.ParsePrimary | src/main/kotlin/Parser.kt:90-102 | `primary()` fails exactly when no token is left or the token is no literal, and then leaves the cursor; otherwise it gives that token's literal and consumes the token only for `false`, `true` and `nil` |
| Parsing.ParseUnary | src/main/kotlin/Parser.kt:78-88 | `unary()` never moves the cursor back or past the end |
| Parsing.ParseLevel | src/main/kotlin/Parser.kt:8-88 | a level's parse never moves the cursor back or past the end |
| Parsing.ParseLoop | src/main/kotlin/Parser.kt:8-76 | a level's loop never moves the cursor back or past the end |
| Parsing.LoopTurn | src/main/kotlin/Parser.kt:8-76 | one turn of a level's loop: an operator of the level is a binary operator; a right operand that reached a `TODO()` ends the level with it; a parsed one is folded in as the new left operand |
| Parsing.LoopStops | src/main/kotlin/Parser.kt:8-76 | a level's loop ends with the tree built so far where no operator of the level follows |
| Parsing.PrimaryProduces | src/main/kotlin/Parser.kt:90-102 | `primary()` gives a literal spelled by exactly the tokens it consumed, or a `TODO()` at the cursor |
| Parsing.UnaryProduces | src/main/kotlin/Parser.kt:78-88 | `unary()` gives a level-0 tree spelled by exactly the tokens it consumed, or a `TODO()` at the cursor where `primary()` found no literal |
| Parsing.ParseLevelProduces | src/main/kotlin/Parser.kt:8-88 | every level gives a tree of that level that the tokens spell from where it started to exactly where it stopped, followed by no operator of that level or a tighter one, or a `TODO()` at the cursor where `primary()` found no literal |
| Parsing.ParseLoopProduces | src/main/kotlin/Parser.kt:8-76 | a level's loop, started on a tree the tokens spell up to the cursor, ends as `ParseLevelProduces` says |
| Parsing.LiteralStopsTheParse | src/main/kotlin/Parser.kt:90-102 | at every level a number or string token yields its literal with the cursor unmoved, so nothing after it is parsed |
| Parsing.Parser.Previous | src/main/kotlin/Parser.kt:129 | the token just before the cursor |
| Parsing.Parser.Expr | src/main/kotlin/Parser.kt:4-6 | returns and moves the cursor exactly as the equality level's parse does: a tree of that level spelled by exactly the consumed tokens and followed by no binary operator, or a `TODO()` where `primary()` gave up |
| Parsing.Parser.Equality | src/main/kotlin/Parser.kt:8-22 | returns and moves the cursor exactly as `ParseLevel` at level 4 does: comparisons folded to the left while `==` or `!=` follows, stopping at the first `TODO()` |
| Parsing.Parser.Comparison | src/main/kotlin/Parser.kt:24-44 | returns and moves the cursor exactly as `ParseLevel` at level 3 does: terms folded to the left while a comparison operator follows, stopping at the first `TODO()` |
| Parsing.Parser.Term | src/main/kotlin/Parser.kt:46-60 | returns and moves the cursor exactly as `ParseLevel` at level 2 does: factors folded to the left while `-` or `+` follows, stopping at the first `TODO()` |
| Parsing.Parser.Factor | src/main/kotlin/Parser.kt:62-76 | returns and moves the cursor exactly as `ParseLevel` at level 1 does: unary trees folded to the left while `/` or `*` follows, stopping at the first `TODO()` |
| Parsing.Parser.Unary | src/main/kotlin/Parser.kt:78-88 | returns and moves the cursor exactly as `unary()`'s parse does: prefix operators nest around a primary, spelled by exactly the consumed tokens |
| Parsing.Parser.Primary | src/main/kotlin/Parser.kt:90-102 | returns and moves the cursor exactly as `primary()`'s parse does: `TODO()` exactly when no literal is under the cursor, with the cursor unmoved; otherwise that literal, consuming only `false`, `true` and `nil` |
| Resolution.Frame.Put | src/main/kotlin/Resolver.kt:135-147 | a new name goes last in the frame's order and an existing one keeps its place |
| Resolution.RecordError | src/main/kotlin/Resolver.kt:162-164 | appends one error and changes nothing else |
| Resolution.Declare | src/main/kotlin/Resolver.kt:129-137 | the name gets the innermost frame's next slot, uninitialised and unread; a name already there is reported as a redeclaration; the outer frames are untouched |
| Resolution.Define | src/main/kotlin/Resolver.kt:139-150 | a declared name becomes initialised; an undeclared one is reported and inserted as initialised at the next slot |
| Resolution.RenderReadsBack | src/main/kotlin/Resolver.kt:162-164 | a recorded error starts with `[line `, then digits that read back as the error's line, then `] Error at `, the lexeme and the message |
| Resolution.DeclareParameters | src/main/kotlin/Resolver.kt:103-107 | declaring the parameters keeps the stack height, the kind of code and the interpreter calls |
| Resolution.BeginScope | src/main/kotlin/Resolver.kt:152 | pushes an empty frame |
| Resolution.EndScope | src/main/kotlin/Resolver.kt:153-160 | pops the innermost frame and appends its unused-variable errors |
| Resolution.Innermost | src/main/kotlin/Resolver.kt:117-118 | the innermost frame that holds a name, or none when no frame does |
| Resolution.ResolveLocal | src/main/kotlin/Resolver.kt:116-127 | the innermost frame holding the name has it marked read, and the interpreter is told the depth (below the stack height) and that entry's slot; with no match nothing changes |
| Resolution.ResolveExpr | src/main/kotlin/Resolver.kt:58-97 | leaves the stack height and the kind of code unchanged |
| Resolution.ResolveFunction | src/main/kotlin/Resolver.kt:99-114 | the stack height is restored and the enclosing kind of code is restored |
| Resolution.ResolveStmt | src/main/kotlin/Resolver.kt:15-56 | leaves the stack height and the kind of code unchanged |
| Resolution.ResolveStmts | src/main/kotlin/Resolver.kt:10-13 | resolving a statement list leaves the stack height and the kind of code unchanged |
| ResolutionFacts.DeclareExtends | src/main/kotlin/Resolver.kt:129-137 | declaring keeps every error and every frame below the innermost, and keeps frames well formed |
| ResolutionFacts.DefineExtends | src/main/kotlin/Resolver.kt:139-150 | defining keeps every error and every frame below the innermost, and keeps frames well formed |
| ResolutionFacts.ResolveLocalExtends | src/main/kotlin/Resolver.kt:116-127 | resolving a name only marks entries read |
| ResolutionFacts.EndScopeExtends | src/main/kotlin/Resolver.kt:153-160 | popping keeps the errors and the remaining frames |
| ResolutionFacts.ResolveExprExtends | src/main/kotlin/Resolver.kt:58-97 | resolving an expression loses no error, and changes frames only by marking names read |
| ResolutionFacts.ResolveExprsExtends | src/main/kotlin/Resolver.kt:77 | the same for a list of call arguments |
| ResolutionFacts.ResolveFunctionExtends | src/main/kotlin/Resolver.kt:99-114 | a function body's frames are popped again and the enclosing frames change only by reads |
| ResolutionFacts.ResolveStmtExtends | src/main/kotlin/Resolver.kt:15-56 | a statement changes frames below the innermost only by reads; a block does so for every frame |
| ResolutionFacts.ResolveStmtsExtends | src/main/kotlin/Resolver.kt:10-13 | the same for a statement list |
| ResolutionFacts.ReachableWellFormed | src/main/kotlin/Resolver.kt:7-13 | every frame reachable from a fresh resolver lists each name once, in insertion order |
| ResolutionFacts.DeclareParameter | src/main/kotlin/Resolver.kt:104-107 | a fresh parameter gets the next slot, initialised, with no error |
| ResolutionFacts.ParameterSlots | src/main/kotlin/Resolver.kt:103-107 | distinct parameters get slots 0, 1, 2, … in order, initialised, with no error |
| ResolutionFacts.FreshLocalSlot | src/main/kotlin/Resolver.kt:45-49 | a fresh `var` takes the innermost frame's next slot, ends initialised at its line, and the outer frames change only by reads |
| ResolutionFacts.FunctionNameVisible | src/main/kotlin/Resolver.kt:25-30 | a function's name is declared and initialised in the enclosing frame before its body is resolved, and stays so after |
| ResolutionFacts.OwnInitialiserReported | src/main/kotlin/Resolver.kt:45-49 | `var a = a;` reports "Can't read local variable in its own initialiser." at the read, after any redeclaration error |
| ResolutionFacts.LocalReadResolved | src/main/kotlin/Resolver.kt:116-127 | reading an initialised innermost local adds no error, resolves it at depth 0 to its slot and marks it read |
| ResolutionFacts.ReturnAtTopLevelReported | src/main/kotlin/Resolver.kt:39-44 | `return` at top level records "Can't return from top-level code." at its line and then resolves its value, and nothing else; inside a function it only resolves the value |
| ResolutionFacts.UnusedErrorsSound | src/main/kotlin/Resolver.kt:155-159 | each unused-variable error names an unread entry of the frame, at that entry's declaration line |
| ResolutionFacts.UnusedErrorsComplete | src/main/kotlin/Resolver.kt:155-159 | every unread entry of a well-formed frame gets an unused-variable error |
| ResolutionFacts.UnusedErrorsDistinct | src/main/kotlin/Resolver.kt:155-159 | in a well-formed frame no name gets two unused-variable errors |
| ResolutionFacts.EndScopeReportsUnused | src/main/kotlin/Resolver.kt:153-160 | popping a frame reports exactly its never-read names, at their declaration lines |
| ResolutionFacts.DeclareThenDefine | src/main/kotlin/Resolver.kt:129-150 | `declare` then `define` of one name leaves it initialised and unread at the innermost frame's next slot, reports only a redeclaration, and leaves the outer frames and the interpreter calls alone |
| ResolutionFacts.DeclareLiteral | src/main/kotlin/Resolver.kt:45-49 | `var name = <literal>;` declares and defines the name at the innermost frame's next slot, initialised; a name already in that frame is reported as a redeclaration at the declaration's line |
| ResolutionFacts.TwoStatements | src/main/kotlin/Resolver.kt:10-13 | a list of two statements is resolved first statement first |
| ResolutionFacts.FirstDeclaration | src/main/kotlin/Resolver.kt:129-150 | `var name = <literal>;` in an empty frame leaves that frame holding just the name, initialised in slot 0, and changes nothing else |
| ResolutionFacts.SecondDeclaration | src/main/kotlin/Resolver.kt:129-137 | declaring again the one name a frame holds reports a redeclaration at the new line and moves the name to slot 1 |
| ResolutionFacts.Redeclaration | src/main/kotlin/Resolver.kt:129-137 | two `var` declarations of one name in an empty frame report "Already a variable with this name in this scope." once, at the second's line, and leave the name initialised in slot 1, the frame's size at the second declaration |
| ResolutionFacts.ReturnOutsideFunction | src/main/kotlin/Resolver.kt:39-44 | the program `return nil;` gives exactly the top-level return error, at its line |
| ResolutionFacts.UnusedLocal | src/main/kotlin/Resolver.kt:153-160 | a program that is one block holding one `var name = <literal>;` gives exactly one error, "Variable is never used." for that name at its line, and ends with the fresh resolver's frames |
| ResolutionFacts.BlockNamesDropped | src/main/kotlin/Resolver.kt:17-21 | after a block declaring a name, a `print` of that name outside the block resolves to nothing: the only error is the block's unused-variable error and no interpreter call is made |
| Resolving.Resolver.constructor | src/main/kotlin/Resolver.kt:5-8 | a new resolver holds one frame, no errors, at top level |
| Resolving.Resolver.RecordError | src/main/kotlin/Resolver.kt:162-164 | the object changes as `RecordError` says |
| Resolving.Resolver.Resolve | src/main/kotlin/Resolver.kt:10-13 | the object changes as resolving the list says, and the result is every error so far |
| Resolving.Resolver.ResolveStatement | src/main/kotlin/Resolver.kt:15-56 | the object changes as resolving the statement says |
| Resolving.Resolver.ResolveSimpleStatement | src/main/kotlin/Resolver.kt:23-54 | for the statement kinds other than blocks, functions and `if`, the object changes as resolving the statement says |
| Resolving.Resolver.ResolveExpression | src/main/kotlin/Resolver.kt:58-97 | the object changes as resolving the expression says |
| Resolving.Resolver.ResolveSingle | src/main/kotlin/Resolver.kt:81-95 | for groupings, literals, unary trees, variables and property access, the object changes as resolving the expression says |
| Resolving.Resolver.ResolveArguments | src/main/kotlin/Resolver.kt:77 | the loop over the call arguments changes the object as resolving them in order says |
| Resolving.Resolver.ResolveVariable | src/main/kotlin/Resolver.kt:89-95 | a read inside the name's own initialiser is reported before the name is resolved, as resolving a variable says |
| Resolving.Resolver.ResolveFunction | src/main/kotlin/Resolver.kt:99-114 | the object changes as resolving the function says |
| Resolving.Resolver.ResolveLocal | src/main/kotlin/Resolver.kt:116-127 | the loop over frames from the innermost changes the object as `ResolveLocal` says |
| Resolving.Resolver.Declare | src/main/kotlin/Resolver.kt:129-137 | the object changes as `Declare` says |
| Resolving.Resolver.Define | src/main/kotlin/Resolver.kt:139-150 | the object changes as `Define` says |
| Resolving.Resolver.BeginScope | src/main/kotlin/Resolver.kt:152 | the object changes as `BeginScope` says |
| Resolving.Resolver.EndScope | src/main/kotlin/Resolver.kt:153-160 | the loop over the popped frame appends its unused-variable errors in insertion order |
| Interpreting.LoxBoolean | src/main/kotlin/Interpreter.kt:47-53 | the Boolean literal whose truthiness is the given Boolean |
| Interpreting.ExecuteAll | src/main/kotlin/Interpreter.kt:4 | no more results than statements, and one per statement when none failed |
| EvaluationFacts.NotYieldsBoolean | src/main/kotlin/Interpreter.kt:40-67 | `!` yields only `true` or `false`, raises no error of its own, and yields `true` exactly for `nil` and `false` |
| EvaluationFacts.DoubleNegation | src/main/kotlin/Interpreter.kt:66 | `!!x` is the Boolean of `x`'s truthiness |
| EvaluationFacts.NumericOperandsChecked | src/main/kotlin/Interpreter.kt:30-150 | `-`, `*`, `/` and the comparisons fail with "Operand must be a number" at the operator exactly when an operand is not a number |
| EvaluationFacts.NegationChecked | src/main/kotlin/Interpreter.kt:30-63 | unary `-` fails with "Operand must be a number" exactly for a non-number and otherwise negates |
| EvaluationFacts.DivisionByZeroFails | src/main/kotlin/Interpreter.kt:83-95 | `/` yields a value only for a non-zero divisor, and a zero divisor gives "Division by zero" at the operator |
| EvaluationFacts.PlusCases | src/main/kotlin/Interpreter.kt:104-122 | `+` gives a string exactly when an operand is a string, joining both texts; a number exactly for two numbers, their sum; otherwise "Operand must be a string or a number" |
| EvaluationFacts.EqualityNegation | src/main/kotlin/Interpreter.kt:152-153 | `==` is `true` exactly for equal values of the same kind and never fails on its own; `!=` gives the opposite Boolean or the same error |
| EvaluationFacts.LeftOperandFirst | src/main/kotlin/Interpreter.kt:71-73 | an error in the left operand wins, and an error in the right one comes before any type check |
| EvaluationFacts.OperatorsFinish | src/main/kotlin/Interpreter.kt:75-154 | every binary operator on two values gives a value or a runtime error |
| EvaluationFacts.SupportedFinishes | src/main/kotlin/Interpreter.kt:55-71 | literals, groupings, unary and binary trees never reach a `TODO()` |
| EvaluationFacts.ParsedTreesSupported | src/main/kotlin/Interpreter.kt:55-71 | every tree the parser's levels build is one the evaluator finishes |
| EvaluationFacts.StatementResults | src/main/kotlin/Interpreter.kt:10-16 | an expression statement's result is its value's text; `print` prints that text and its result is empty |
| EvaluationFacts.StringifyQuotes | src/main/kotlin/Interpreter.kt:21-26 | a string is shown between double quotes, anything else as its text |
| EvaluationFacts.FirstIncomplete | src/main/kotlin/Interpreter.kt:4 | the position of the first statement that does not complete, all before it completing |
| EvaluationFacts.ExecuteAllStops | src/main/kotlin/Interpreter.kt:4 | statements run in order up to the first that does not complete, with their results and printed lines, and nothing after it runs |
| EvaluationFacts.InterpretStopsAtFirstIncomplete | src/main/kotlin/Interpreter.kt:2-8 | `interpret` returns the last result (none for no statements), or the first runtime error, and prints exactly the lines of the statements before it |
| EvaluationFacts.DivisionByZeroExample | src/main/kotlin/Interpreter.kt:83-95 | `1 / (1 - 1)` fails with "Division by zero" at the `/` |
| EvaluationFacts.DoubleNegationOfNil | src/main/kotlin/Interpreter.kt:66 | `!!nil` is `false` |
| EvaluationFacts.ArithmeticExample | src/main/kotlin/Interpreter.kt:76-152 | `1 + 2 * 3 == 7` is `true` |
| Values.Scope.constructor | src/main/kotlin/LoxValue.kt:22 | a new scope with the given builtins and enclosing scope and nothing defined |
| Values.Scope.Define | src/main/kotlin/LoxValue.kt:23 | the value takes the frame's next slot |
| Values.FromBoolean | src/main/kotlin/LoxValue.kt:56-60 | `True` or `False`, with the given truthiness |
| Values.FromLiteral | src/main/kotlin/LoxValue.kt:62-68 | a keyword literal becomes a constant, a string a string and a number a number |
| Values.Bind | src/main/kotlin/LoxValue.kt:21-25 | the same name, arity and body, closing over a new scope whose enclosing scope is the old closure and which defines the instance |
| Values.LoxClass.constructor | src/main/kotlin/LoxValue.kt:28 | a class with the given name and method tables |
| Values.LoxClass.Arity | src/main/kotlin/LoxValue.kt:37 | `init`'s arity, or 0 without an `init` |
| Values.LoxClass.Invoke | src/main/kotlin/LoxValue.kt:29-35 | a new instance of the class with no fields; `init`, when present, is bound to that instance, has the class's arity and is called with the arguments |
| Values.Lookup | src/main/kotlin/LoxValue.kt:42-48 | a field when one has the name, else a method when one has it, else nothing |
| Values.LoxInstance.constructor | src/main/kotlin/LoxValue.kt:40-41 | an instance of the class with the given fields |
| Values.LoxInstance.Get | src/main/kotlin/LoxValue.kt:42-48 | fields shadow methods; a method is returned bound to this instance; a missing name gives nothing |
| Values.LoxInstance.Set | src/main/kotlin/LoxValue.kt:50-52 | inserts or overwrites that one field and no other |
| ValueFacts.FromLiteralAgrees | src/main/kotlin/LoxValue.kt:2-13 | a literal's value displays as the interpreter's `stringify` shows the literal and has the same truthiness |
| ValueFacts.FromBooleanAgrees | src/main/kotlin/LoxValue.kt:56-60 | `from(Boolean)` is the value of the literal `loxBoolean` gives |
| ValueFacts.FromLiteralInjective | src/main/kotlin/LoxValue.kt:62-68 | distinct literals give distinct values |
| ValueFacts.SetThenGet | src/main/kotlin/LoxValue.kt:42-52 | after `set(name, v)`, `get(name)` finds `v`, even where a method has the name |
| ValueFacts.SetLeavesOthers | src/main/kotlin/LoxValue.kt:50-52 | `set` leaves what `get` finds for every other name unchanged |

## Left out

- Input and output: `Main.kt` and `IO.kt` are not part of this model. These are the file
  runner, the REPL, standard output and error, exit codes and the clock. Lines that `print`
  writes are collected in a sequence instead.
- Floating point: numbers are exact `real`s, so IEEE rounding, `NaN` and `-0.0` are not
  modelled. How a number is shown (`toString().removeSuffix(".0")`) is the parameter `fmt`.
- Lexing.ParseDecimal: stands for `toDoubleOrNull` as the exact decimal value of the lexeme,
  with no rounding to a double. The "Invalid numeric literal" error is kept and proved never
  to occur for what the number loop consumes.
- Parsing.Parser.Advance: as written, `advance()` calls itself and never returns (see
  Findings). The parser uses the step its call sites rely on: move on by one token while one
  is left.
- Parsing.Parser.Primary: follows the code and returns a number or string literal without
  consuming its token. Trees with such literals therefore spell fewer tokens than the parser
  saw, and `1 + 2` stops after `1`.
- `TODO()` calls: in the parser they end parsing with `NotImplemented` at the cursor. In the
  interpreter they give `Unfinished` (`Stopped` for a statement), which escapes `interpret`
  as `Crashed`. Expression kinds that `evaluate` has no branch for (variables, calls,
  assignments, `and`, `or`, functions, property access) and statements other than
  expression and `print` statements are treated the same way.
- Resolving.Resolver: the frames are values inside the object's `scopes` sequence. A frame
  updated in place is modelled as a sequence element replaced, and aliasing of frames is not
  modelled. The calls to the interpreter's `resolve(expr, depth, index)` are recorded in the
  `resolutions` log, which stores the name token in place of the expression's identity.
- Resolution.ResolveStmt: statement and expression kinds the resolver's `when` has no branch
  for (class declarations, property get and set) change nothing.
- Error text: scanner and resolver errors are kept as (line, lexeme, message) records.
  `Lexing.Render` and `Resolution.Render` give the `[line n] Error…` text. Beyond reading the
  line number, lexeme and message back (`RenderReadsBack`), nothing is proved about it.
- Values.Scope: `Scope` is not part of this model. A scope keeps only an opaque builtins
  identifier, its enclosing scope and the values defined in it, and `define` appends.
- Values.LoxClass.Invoke: the `call` lambdas of functions are not part of this model. `invoke`
  returns the bound `init` call with its arguments instead of running it, so what `init` does
  to the new instance's fields is not modelled.
- Values.IsTruthy and Values.AsString are stated by their definitions. They are tied to the
  interpreter's literals by `ValueFacts.FromLiteralAgrees`.
- Lexing.StepUnexpected: the model reads the input as a sequence of characters, whereas a
  Kotlin `String` is a sequence of UTF-16 code units. A character outside the Basic
  Multilingual Plane is one "Unexpected character." error in the model, but two in the source,
  one per surrogate half.
- Lexing.BlockCommentEnds: states only that a closed comment ends right after some `*/`. Which
  `*/` it is, the first at which the nesting drops below zero, is stated by
  `Lexing.BlockCommentNesting` and `Lexing.StepBlockComment`.
- Parsing.Parser.Equality: the contract equates the result and the cursor with `ParseLevel`.
  What that result means is proved once, about `ParseLevel`, by `Parsing.ParseLevelProduces`,
  and is restated only in the contract of `Parsing.Parser.Expr`.
- Parsing.Parser.Comparison: the same as for `Equality`.
- Parsing.Parser.Term: the same as for `Equality`.
- Parsing.Parser.Factor: the same as for `Equality`.
- Parsing: only the expression grammar of `Parser.kt` exists in the source, so there is no
  statement parser in the model.
- ResolutionFacts.Redeclaration: covers the two declarations of a block such as
  `{ var a = 1; var a = 2; print a; }`, with literal initialisers. The final `print a` is
  covered in general by `ResolutionFacts.LocalReadResolved`.

## Findings

| source | as written | input that shows it | evidently intended | confidence | as-written member | corrected member |
|---|---|---|---|---|---|---|
| src/main/kotlin/Parser.kt:119-126 | with a token left, `advance()` calls itself with nothing changed, so it never returns and exhausts the stack | the tokens of `-1`: `unary` matches `-` (`Parser.kt:78`), and `match` calls `advance()`; likewise `true` once `primary` matches it | move the cursor on by one and return the token passed | high (not executed) | Parsing.AdvanceNeverReturns | Parsing.Parser.Advance |
