# A verified model of the Portugol compiler

This project models, in Dafny, the compiler from Portugol (a teaching
language with Portuguese keywords: `inicio`, `fim`, `se … entao … senao …
fimse`, `enquanto … faca … fimenquanto`, `leia`, `escreva`) to Python, and
proves properties of the model. The compiler runs in stages. Each stage is
one module here, and one `.dfy` file:

| file | module | what it models |
|---|---|---|
| chars.dfy | `Chars` | the ASCII character classes and the decimal printing of numbers |
| errors.dfy | `Errors` | `CompiladorError` and its four kinds, with the `(linha L, coluna C)` message suffix |
| ast.dfy | `Ast` | `TipoToken` with the text of each kind, `Token`, and the syntax tree |
| lexer.dfy | `Lexing` | the `Lexer` class: skipping blanks and comments, identifiers and keywords, numbers, strings, operators, with line and column tracking |
| parser.dfy | `Parsing` | the recursive-descent `Parser` class over the token stream |
| parser_laws.dfy | `ParserLaws` | precedence, associativity and the printing–parsing round trip of expressions |
| parser_commands.dfy | `ParserCommandLaws` | declarations, conditionals and whole programs, and the loop that never ends at `fim` |
| semantic.dfy | `Semantic` | the flat symbol table and the semantic analyser |
| intermediate.dfy | `Intermediate` | three-address code, its text, and the generator with its `t`/`L` counters |
| optimizer.dfy | `Optimizer` | the multi-pass optimiser: folding, constant and copy propagation, algebraic identities, dead-code elimination |
| ir_run.dfy | `IrRun` | a meaning for straight-line three-address code, and which passes keep it |
| codegen.dfy | `CodeGen` | the Python emitter with its indentation level and table of declared types |
| automaton.dfy | `Automata` | the table-driven automata for identifiers, integers and reals, and the token classifier built on them |
| legacy_ast.dfy, legacy_parser.dfy, legacy_semantic.dfy | `LegacyAst`, `LegacyParsing`, `LegacySemantic` | the older single-file compiler `programa.py`: its factor parser and expression ladder, and its analyser over a stack of scopes |

Each stateful class of the source is a Dafny `class` with the same fields.
Its methods keep the source's loops and are proved equal to a pure
specification function. The properties are lemmas about those functions:

- the lexer counts lines exactly and gives tokens whose text is what they consumed;
- parsing the printed form of any expression gives the expression back;
- operator precedence and left associativity hold;
- an accepted program uses only the names it declares;
- every temporary in the intermediate code is assigned once;
- every jump in the intermediate code targets a label in the same code;
- folding, the corrected propagations and dead-code elimination keep what straight-line code computes;
- the optimiser stops within its pass budget;
- every emitted Python line is indented inside `main`, and operations are fully parenthesised;
- each automaton accepts exactly its language;
- the legacy analyser's scopes shadow and restore correctly.

Where the repository's own description disagrees with its code, the model
follows the code. The exceptions are the three defects under "## Findings":
there the model holds the code as written next to a corrected version. The
optimiser object and its pass loop run both propagations as written; the
theorems that propagation keeps what code computes are about the corrected
rules. The parser's command loops are modelled corrected, since as written
they never end at `fim` (see "## Left out"). The differences from the
description are:
- Keywords are looked up in lower case, so `SE` is the keyword `se`.
- The real-number automaton accepts `12.` (the state after the dot is final).
- The assignment check never raises a type error.
- Output is fully parenthesised.

Input and output (`input()`, `print`, files) do not occur in the modelled
code. The one outside input is the stream of values a `read` takes in
`IrRun`; it is a parameter of the machine.

## Model

| member | source | states |
|---|---|---|
| Chars.Lower | src/lexer.py:121 | `lexema.lower()`: same length, each ASCII capital replaced by its small letter and every other character kept |
| Chars.NatToDecimal | src/exceptions.py:23 | the decimal text of a line or column number: digits only, no leading zero |
| Chars.IntToDecimal | src/exceptions.py:23 | the decimal text of any int: digits, with a leading `-` exactly for negatives |
| Chars.DecimalRoundTrip | src/exceptions.py:23 | reading back the decimal text of a number gives the number |
| Chars.DecimalInjective | src/exceptions.py:23 | different numbers have different decimal texts |
| Chars.DecimalCanonical | src/exceptions.py:23 | every digit string without a leading zero is the text of its own value |
| Chars.DecimalPositive | src/exceptions.py:23 | a digit string that does not start with `0` denotes a number of at least 1 |
| Errors.Unlocated | src/exceptions.py:14-18 | an error built without a place has line 0 and column 0, with the given kind and message |
| Errors.FormattedMessage | src/exceptions.py:20-24 | the shown text starts with the message, equals it exactly when the line is not positive, and otherwise ends with the ` (linha L, coluna C)` suffix |
| Errors.LocationDetermined | src/exceptions.py:20-24 | two errors with the same message and positive lines whose shown texts agree are at the same line and column |
| Errors.IntDecimalInjective | src/exceptions.py:23 | two columns that print the same are the same |
| Lexing.LineCommentEnd | src/lexer.py:88-91 | a `//` comment runs to the next newline or the end, crossing no newline and leaving line and column as they were |
| Lexing.BlockCommentEnd | src/lexer.py:94-105 | a `/* */` comment ends inside the source and never moves backwards |
| Lexing.TriviaEnd | src/lexer.py:73-107 | skipping blanks and comments stops at the end or at a character that is not a blank |
| Lexing.IdentifierEnd | src/lexer.py:114-118 | the identifier run is the longest run of letters, digits and `_` |
| Lexing.NumberRunFrom | src/lexer.py:130-139 | the number run ends inside the source, or stops at a second dot |
| Lexing.NumberRunShape | src/lexer.py:124-142 | a number is the longest run of digits and dots with at most one dot, real exactly when it has one; a second dot is reported where it stands |
| Lexing.StringEnd | src/lexer.py:150-156 | a string runs to the next `"` or to the end, containing no `"` |
| Lexing.ReadToken | src/lexer.py:202-253 | reading a token moves forward and never yields EOF |
| Lexing.Scan | src/lexer.py:187-253 | `proximo_token`: moves forward for every token but EOF, and answers EOF only at the end of the source |
| Lexing.TokenizeFrom | src/lexer.py:187-200 | the tokens asked for in turn: no EOF before the end, the stream closed by EOF or by the lexical error |
| Lexing.Tokenize | src/lexer.py:24-29 | the same from the start of the source |
| Lexing.KeywordTableAgreesWithKinds | src/lexer.py:32-54 | every word of the keyword table is the text of the kind it maps to |
| Lexing.KeywordTableGivesKeywordKinds | src/lexer.py:32-54 | the keyword table maps only to keyword kinds |
| Lexing.KeywordTableComplete | src/lexer.py:32-54 | every keyword kind is found under its own text |
| Lexing.NoNewlines | src/lexer.py:89-90 | a stretch crossing no newline adds no line |
| Lexing.BlockCommentLines | src/lexer.py:96-105 | a block comment adds one line per newline it contains |
| Lexing.TriviaLines | src/lexer.py:73-107 | skipping blanks and comments adds one line per newline skipped |
| Lexing.TriviaSpaceLines | src/lexer.py:79-85 | the same when the first skipped character is a blank |
| Lexing.TriviaLineCommentLines | src/lexer.py:88-91 | the same when a `//` comment comes first |
| Lexing.TriviaBlockCommentLines | src/lexer.py:94-105 | the same when a `/*` comment comes first |
| Lexing.StringLines | src/lexer.py:150-156 | a string literal adds one line per newline inside it |
| Lexing.ReadTokenLines | src/lexer.py:202-253 | reading any token adds one line per newline it consumed |
| Lexing.NumberTokenLines | src/lexer.py:124-142 | a number adds no line beyond the newlines it consumed (none) |
| Lexing.OperatorTokenLines | src/lexer.py:164-233 | the same for operators |
| Lexing.SymbolTokenLines | src/lexer.py:236-253 | the same for single-character symbols and the unexpected-character error |
| Lexing.StringTokenLines | src/lexer.py:144-162 | the same for a whole string token |
| Lexing.ScanCountsLines | src/lexer.py:187-253 | after each token the line counter is the starting line plus the newlines consumed |
| Lexing.ReadTokenText | src/lexer.py:202-251 | each token's kind matches its text, its column is where it starts, and its text is the consumed source (for a string: the text between the quotes) |
| Lexing.IdentifierText | src/lexer.py:109-122 | an identifier or keyword token is the consumed word, with the kind the table gives its lower-case form |
| Lexing.NumberText | src/lexer.py:124-142 | a number token is the consumed digits and dot |
| Lexing.StringText | src/lexer.py:144-162 | a string token is the text between the quotes it consumed |
| Lexing.OperatorText | src/lexer.py:164-233 | a compound or simple operator token is the one or two characters consumed |
| Lexing.SymbolText | src/lexer.py:236-251 | a symbol token is the one character consumed |
| Lexing.ReadTokenErrors | src/lexer.py:187-253 | lexical errors are the second dot, the unclosed string, the lone `!` or the unexpected character, and the last happens exactly for a character that starts no token |
| Lexing.ScanEofRepeats | src/lexer.py:199-200 | at the end of the source, asking again gives EOF again |
| Lexing.Lexer.constructor | src/lexer.py:24-29 | a lexer starts at position 0, line 1, column 1 |
| Lexing.Lexer.Advance | src/lexer.py:56-59 | `_avancar` moves position and column by the same amount and keeps the line |
| Lexing.Lexer.CurrentChar | src/lexer.py:61-65 | the character at the position, none exactly at the end |
| Lexing.Lexer.NextChar | src/lexer.py:67-71 | the character after it, none when there is none |
| Lexing.Lexer.SkipLineComment | src/lexer.py:88-91 | the loop leaves the lexer where `LineCommentEnd` says |
| Lexing.Lexer.SkipBlockComment | src/lexer.py:94-105 | the loop leaves the lexer where `BlockCommentEnd` says |
| Lexing.Lexer.SkipWhitespaceAndComments | src/lexer.py:73-107 | `_ignorar_espacos_e_comentarios` leaves the lexer where `TriviaEnd` says |
| Lexing.Lexer.ReadIdentifierOrKeyword | src/lexer.py:109-122 | the token and the new state are those of the identifier scan |
| Lexing.Lexer.ReadNumber | src/lexer.py:124-142 | the token or error and the new state are those of the number scan |
| Lexing.Lexer.ReadString | src/lexer.py:144-162 | the token or error and the new state are those of the string scan |
| Lexing.Lexer.ReadCompoundOperator | src/lexer.py:164-185 | the two-character operator or none, and the new state, as the compound scan says |
| Lexing.Lexer.ReadOperator | src/lexer.py:218-233 | compound operator first, then `=`, `<`, `>` or the lone-`!` error |
| Lexing.Lexer.NextToken | src/lexer.py:187-253 | `proximo_token`: the token or error and the new state are those of `Scan` |
| Automata.DirectTarget | src/automaton.py:81-84 | a direct transition exists exactly when some key of the state's table is the symbol itself |
| Automata.PredicateTarget | src/automaton.py:86-92 | a category transition exists exactly when some `_`-method key of the state's table holds for the symbol |
| Automata.Automaton.constructor | src/automaton.py:50-59 | starts in `Q0` with the given final states and transition table |
| Automata.Automaton.Reset | src/automaton.py:61-63 | back to `Q0` |
| Automata.Automaton.Transit | src/automaton.py:65-96 | succeeds exactly when the transition function is defined on the current state and symbol, and then moves there; otherwise moves to `ERRO` |
| Automata.Automaton.Process | src/automaton.py:102-118 | accepts exactly the strings whose run from `Q0` ends in a final state, and leaves the automaton where the run stopped or in `ERRO` |
| Automata.IdentifierSteps | src/automaton.py:121-155 | from `Q0` a letter or `_` goes to `Q1`; from `Q1` a letter, digit or `_` stays there; nothing else moves |
| Automata.IdentifierTail | src/automaton.py:121-155 | from `Q1` the run survives exactly on letters, digits and `_` |
| Automata.IdentifierLanguage | src/automaton.py:121-155 | the identifier automaton accepts exactly a letter or `_` followed by letters, digits and `_` |
| Automata.IntegerSteps | src/automaton.py:158-187 | digits move `Q0` to `Q1` and keep `Q1`; nothing else moves |
| Automata.IntegerTail | src/automaton.py:158-187 | from `Q1` the run survives exactly on digits |
| Automata.IntegerLanguage | src/automaton.py:158-187 | the integer automaton accepts exactly the non-empty digit strings |
| Automata.RealSteps | src/automaton.py:190-226 | `Q0` takes a digit to `Q1`; `Q1` takes digits and one dot to `Q2`; `Q2` takes digits |
| Automata.RealFraction | src/automaton.py:190-226 | from `Q2` the run survives exactly on digits |
| Automata.DotFirst | src/automaton.py:190-226 | text starting with a dot is a dot and digits exactly when the rest is digits |
| Automata.DigitFirst | src/automaton.py:190-226 | a leading digit does not change whether the text is digits, a dot, digits |
| Automata.OtherFirst | src/automaton.py:190-226 | text starting with anything but a dot or a digit is not |
| Automata.RealWhole | src/automaton.py:190-226 | from `Q1` the run reaches `Q2` exactly on digits, a dot and digits |
| Automata.RealNumeralSplit | src/automaton.py:190-226 | a real numeral is a digit followed by digits, a dot and digits |
| Automata.RealLanguage | src/automaton.py:190-226 | the real automaton accepts exactly one or more digits, a dot, and any digits after it (none included) |
| Automata.TokenTypeExact | src/automaton.py:298-315 | the classification is `identificador`, `real`, `inteiro` or `desconhecido` exactly when the text is in the corresponding language, tried in that order |
| Automata.NoDotNoReal | src/automaton.py:190-226 | text without a dot is never a real |
| Automata.DigitsAreInteger | src/automaton.py:298-315 | a non-empty digit string is classified `inteiro` |
| Automata.DotMakesReal | src/automaton.py:298-315 | digits, a dot and digits are classified `real` and are not an integer |
| Automata.IdentifierExamples | src/automaton.py:298-315 | `soma` is an identifier; `123abc` is none and classified `desconhecido` |
| Automata.IntegerExamples | src/automaton.py:298-315 | `123` is classified `inteiro` |
| Automata.RealExamples | src/automaton.py:298-315 | `12.5` and `3.14` are classified `real` |
| Automata.TrailingDotIsReal | src/automaton.py:190-226 | `12.` is accepted as a real, since the state after the dot is final |
| Automata.Validator.constructor | src/automaton.py:236-239 | three fresh automata for identifiers, integers and reals |
| Automata.Validator.IsIdentifier | src/automaton.py:241-258 | true exactly for identifiers |
| Automata.Validator.IsInteger | src/automaton.py:260-277 | true exactly for integer numerals |
| Automata.Validator.IsReal | src/automaton.py:279-296 | true exactly for real numerals |
| Automata.Validator.Classify | src/automaton.py:298-315 | the classification of the text, as `TokenType` |
| LegacyAst.Negate | programa.py:502-504 | `-valor` on a literal's value: ints and floats change sign, and a truth value becomes the int 0 or -1 |
| LegacyAst.NegateIsZeroMinus | programa.py:499-507 | folding `-` into a literal gives the number `0 - x` would compute |
| LegacyAst.NegateTwice | programa.py:499-507 | negating twice gives back an int or a float, but turns a truth value into the int 0 or 1 |
| LegacyAst.DotIndex | programa.py:512 | the position of the first dot of a real lexeme, with no dot before it |
| LegacyParsing.Tok | programa.py:311-325 | the current token is EOF exactly at the end of the stream, and its text fits its kind |
| LegacyParsing.Next | programa.py:316-319 | moving on goes one token further, stays on EOF, and fails only when the lexer fails on the next token |
| LegacyParsing.SyntaxError | programa.py:320-325 | a syntax error is placed at the offending token |
| LegacyParsing.Consume | programa.py:316-325 | consuming the expected kind moves on; any other kind is the "Esperado X, mas encontrou Y em '…'" error at that token |
| LegacyParsing.LiteralNumber | programa.py:509-513 | an integer token gives an int and a real token gives a float |
| LegacyParsing.Expression | programa.py:454-455 | an expression, when it parses, consumes at least one token |
| LegacyParsing.Level | programa.py:457-493 | each precedence level, when it parses, consumes at least one token |
| LegacyParsing.LevelLoop | programa.py:457-493 | each level's operator loop never moves backwards |
| LegacyParsing.Factor | programa.py:495-530 | a factor, when it parses, consumes at least one token |
| LegacyParsing.NegatedMeaning | programa.py:499-507 | a negated factor is a literal exactly when the factor is, has a value exactly when it does, and that value is `0 - x` |
| LegacyParsing.MinusFactor | programa.py:499-507 | `-` followed by a factor is that factor negated, ending where it ends, or the factor's own error |
| LegacyParsing.MinusName | programa.py:499-507 | `-x` is the tree `0 - x` with the minus token's place |
| LegacyParsing.ParenthesesAddNothing | programa.py:522-526 | `( e )` is the tree of `e` itself |
| LegacyParsing.LevelStopsAtOther | programa.py:457-493 | every level's loop stops only at a token that is not one of its operators |
| LegacyParsing.LegacyParser.constructor | programa.py:311-314 | the parser starts at the first token |
| LegacyParsing.LegacyParser.Advance | programa.py:316-319 | moves as `Next` does or reports the lexer's error |
| LegacyParsing.LegacyParser.ConsumeToken | programa.py:316-325 | moves as `Consume` does or reports its error |
| LegacyParsing.LegacyParser.ParseExpression | programa.py:454-455 | gives the tree and the position of `Expression`, or its error |
| LegacyParsing.LegacyParser.ParseOperand | programa.py:457-493 | parses the operand of a level: a factor, or the next tighter level |
| LegacyParsing.LegacyParser.ParseLevel | programa.py:457-493 | gives the tree and the position of `Level`, or its error |
| LegacyParsing.LegacyParser.ParseFactor | programa.py:495-530 | gives the tree and the position of `Factor`, or its error |
| LegacySemantic.SemanticError | programa.py:34-36 | a semantic error carries no place: line 0 |
| LegacySemantic.Pushed | programa.py:554-555 | entering a scope adds one empty innermost scope and keeps the others |
| LegacySemantic.Popped | programa.py:557-559 | leaving drops the innermost scope, except that the outermost one is never dropped |
| LegacySemantic.Declared | programa.py:561-565 | adding fails exactly when the name is already in the innermost scope, with the "já declarada neste escopo" error |
| LegacySemantic.KeepsTransitive | programa.py:549-571 | keeping the enclosing scopes composes |
| LegacySemantic.KeepsThen | programa.py:549-571 | the same, for a step that may fail |
| LegacySemantic.KeepsReflexive | programa.py:549-571 | doing nothing keeps the scopes |
| LegacySemantic.FindInnermost | programa.py:567-571 | a lookup finds nothing exactly when no scope holds the name, and otherwise gives the entry of the innermost scope holding it |
| LegacySemantic.DeclaredShadows | programa.py:561-571 | after adding, the name is found with its new type and every other name is found as before |
| LegacySemantic.NestedRedeclaration | programa.py:554-565 | a name may always be declared again in a new inner scope |
| LegacySemantic.PushPop | programa.py:554-571 | a new empty scope changes no lookup, and leaving it restores the scopes |
| LegacySemantic.OutermostStays | programa.py:557-559 | leaving the outermost scope changes nothing |
| LegacySemantic.InferType | programa.py:618-637 | a truth-value literal is `LOGICO`, an int literal `INTEIRO` and a text literal `CARACTER`; a float literal is `REAL` exactly when Python's text of it holds a dot, and `INTEIRO` otherwise; a name's type is its lookup; comparisons and `e`/`ou` are `LOGICO`; other binary nodes and every other node have no type |
| LegacySemantic.OneSignificantDigitMeans | programa.py:623 | the digit test, computed by scaling by ten, holds exactly for one non-zero digit times a power of ten |
| LegacySemantic.FloatDotRule | programa.py:623 | `str` of a float lacks a dot exactly when its magnitude is one digit times a power of ten and lies below 1e-4 or at or above 1e16 (exponent notation with a one-digit mantissa) |
| LegacySemantic.FloatLiteralTypes | programa.py:620-623 | `0.000015` (`1.5e-05`) and `1.5e16` are `REAL`; `0.00001` (`1e-05`) and `-1e16` are `INTEIRO`; `0.0001` is `REAL` |
| LegacySemantic.DeclareNames | programa.py:595-597 | declaring names keeps the enclosing scopes and only adds to the innermost one |
| LegacySemantic.Analyze | programa.py:577-685 | visiting a node, when it succeeds, keeps the enclosing scopes and only adds to the innermost one |
| LegacySemantic.AnalyzeAll | programa.py:583-590 | the same for a list of nodes visited in order |
| LegacySemantic.AnalyzeAssignment | programa.py:599-616 | the same for an assignment |
| LegacySemantic.Closed | programa.py:653-667 | leaving a scope that was entered gives back the scopes as they were, unless the visit inside failed |
| LegacySemantic.AnalyzeIf | programa.py:653-661 | a successful `se` leaves the scopes exactly as it found them |
| LegacySemantic.AnalyzeWhile | programa.py:663-667 | a successful `enquanto` leaves the scopes exactly as it found them |
| LegacySemantic.FreshSplit | programa.py:595-597 | names are distinct and new exactly when the first is new and the rest are distinct and new after adding it |
| LegacySemantic.DeclarationAccepted | programa.py:595-597 | a declaration passes exactly when its names are pairwise distinct and none is in the innermost scope |
| LegacySemantic.DeclarationBinds | programa.py:595-597 | after a declaration, each of its names is found with the declared type |
| LegacySemantic.ReadArgumentRules | programa.py:639-648 | `leia` passes exactly when every argument is a declared name |
| LegacySemantic.CallRules | programa.py:639-651 | a call passes exactly when it is `escreva` (whose arguments are not visited) or a `leia` of declared names, and changes no scope |
| LegacySemantic.ExpressionRules | programa.py:669-685 | an expression passes exactly when every name in it is declared, and changes no scope |
| LegacySemantic.AssignmentUndeclared | programa.py:601-603 | assigning to an undeclared name is the "não declarada" error |
| LegacySemantic.AssignmentTypeRule | programa.py:605-616 | for a declared target, the assignment is the "Tipo incompatível" error exactly when the value has a type, it differs from the declared one and the pair is neither (`INTEIRO`, `REAL`) nor (`REAL`, `INTEIRO`); otherwise it only visits the value |
| LegacySemantic.AssignmentAccepted | programa.py:605-616 | instances of that rule: an untyped value, or a real value for an integer variable, is accepted and the value is just visited |
| LegacySemantic.AssignmentRefused | programa.py:605-614 | instances of that rule: text into an integer variable and an int into a truth-value variable are the "Tipo incompatível" error |
| LegacySemantic.SmallFloatIntoLogical | programa.py:605-623 | `logico x; x = 0.000015` is refused with the type `REAL`, since Python prints the value as `1.5e-05` |
| LegacySemantic.BranchDeclarationIsLocal | programa.py:653-661 | a name declared only inside a `se` is undeclared after it |
| LegacySemantic.SymbolTable.constructor | programa.py:551-552 | one empty outermost scope |
| LegacySemantic.SymbolTable.Enter | programa.py:554-555 | the scopes become `Pushed` of the old ones |
| LegacySemantic.SymbolTable.Exit | programa.py:557-559 | the scopes become `Popped` of the old ones |
| LegacySemantic.SymbolTable.Add | programa.py:561-565 | adds as `Declared` says, or leaves the scopes and reports its error |
| LegacySemantic.SymbolTable.Lookup | programa.py:567-571 | searches from the innermost scope outwards and gives `Find` |
| LegacySemantic.Analyzer.constructor | programa.py:574-575 | the analyser works on the given table |
| LegacySemantic.Analyzer.TypeOf | programa.py:618-637 | gives `InferType` on the current scopes, float dot rule included |
| LegacySemantic.Analyzer.CheckCallOf | programa.py:639-651 | gives `CheckCall` on the current scopes |
| LegacySemantic.Analyzer.Declare | programa.py:595-597 | reaches the outcome and scopes of `DeclareNames` |
| LegacySemantic.Analyzer.Visit | programa.py:577-590 | reaches the outcome and scopes of `Analyze` |
| LegacySemantic.Analyzer.VisitAll | programa.py:583-590 | reaches the outcome and scopes of `AnalyzeAll` |
| LegacySemantic.Analyzer.VisitAssignment | programa.py:599-616 | reaches the outcome and scopes of `AnalyzeAssignment` |
| LegacySemantic.Analyzer.VisitIf | programa.py:653-661 | reaches the outcome and scopes of `AnalyzeIf` |
| LegacySemantic.Analyzer.VisitWhile | programa.py:663-667 | reaches the outcome and scopes of `AnalyzeWhile` |
| Parsing.Tok | src/parser.py:28-34 | the current token is EOF exactly at the end of the stream |
| Parsing.Next | src/parser.py:32-34 | `_avancar` moves one token on, stays on EOF, and fails exactly when the lexer raises at the last token |
| Parsing.SyntaxError | src/parser.py:49-54 | a syntax error carries the message and the offending token's line and column |
| Parsing.Expect | src/parser.py:36-57 | `_esperar_token`: the expected kind gives the current token and the next position; any other kind raises `Esperado '<kind>', encontrado '<lexeme>'` at the current token |
| Parsing.Leaf | src/parser.py:298-335 | a name becomes a variable, a text `t` the literal `"t"`, and a number or truth value its own lexeme |
| Parsing.Expression | src/parser.py:211-224 | an expression consumes at least one token |
| Parsing.DisjunctionLoop | src/parser.py:218-222 | the `ou` loop never moves backwards |
| Parsing.Conjunction | src/parser.py:226-239 | a conjunction consumes at least one token |
| Parsing.ConjunctionLoop | src/parser.py:233-237 | the `e` loop never moves backwards |
| Parsing.Relation | src/parser.py:241-260 | a relation consumes at least one token |
| Parsing.Sum | src/parser.py:262-275 | a sum consumes at least one token |
| Parsing.SumLoop | src/parser.py:269-273 | the `+`/`-` loop never moves backwards |
| Parsing.Product | src/parser.py:277-290 | a product consumes at least one token |
| Parsing.ProductLoop | src/parser.py:284-288 | the `*`/`/` loop never moves backwards |
| Parsing.Factor | src/parser.py:292-360 | a factor consumes at least one token |
| Parsing.Present | src/parser.py:112-123 | a parsed command is returned as present, an error as the same error |
| Parsing.Command | src/parser.py:112-132 | `_analisar_comando`: `fim` gives no command and consumes nothing; a command starts with a name, `se`, `enquanto`, `leia` or `escreva` and consumes tokens; any other token raises `Comando inesperado` at that token |
| Parsing.Block | src/parser.py:101-110 | a command list stops at one of its closing keywords or at `fim`, keeping every command read before |
| Parsing.BlockStepAsWritten | src/parser.py:153-156 | the loop as written tests only its closing keywords |
| Parsing.AssignCmd | src/parser.py:134-144 | an assignment targets the name it starts with |
| Parsing.IfCmd | src/parser.py:146-167 | a conditional consumes tokens and builds a conditional |
| Parsing.ElsePart | src/parser.py:158-164 | with no `senao` the else branch is empty and nothing is consumed |
| Parsing.WhileCmd | src/parser.py:169-182 | a loop consumes tokens and builds a loop |
| Parsing.ReadCmd | src/parser.py:184-194 | `leia(x)` takes exactly four tokens and reads the name between the parentheses |
| Parsing.WriteCmd | src/parser.py:196-209 | `escreva` has at least one expression |
| Parsing.Arguments | src/parser.py:204-206 | the argument list keeps every earlier expression and stops at a token that is not a comma |
| Parsing.DeclsOf | src/parser.py:95-97 | one declaration per name, in order, all with the line's type |
| Parsing.Declarations | src/parser.py:74-99 | the declarations keep every earlier one and stop at a token that is not a type |
| Parsing.DeclarationLine | src/parser.py:82-97 | a declaration line consumes tokens |
| Parsing.Names | src/parser.py:86-91 | the name list stops at a token that is not a comma |
| Parsing.ParseProgram | src/parser.py:28-30 | a lexical error on the very first token is the parser's error |
| Parsing.Parser.constructor | src/parser.py:28-30 | a parser starts at the first token of its stream |
| Parsing.Parser.Advance | src/parser.py:32-34 | moves as `Next` says, or fails with the lexer's error |
| Parsing.Parser.ExpectToken | src/parser.py:36-57 | agrees with `Expect` |
| Parsing.Parser.ParseExpression | src/parser.py:211-224 | the `ou` loop agrees with `Expression` |
| Parsing.Parser.ParseConjunction | src/parser.py:226-239 | the `e` loop agrees with `Conjunction` |
| Parsing.Parser.ParseRelation | src/parser.py:241-260 | agrees with `Relation` |
| Parsing.Parser.ParseSum | src/parser.py:262-275 | the loop agrees with `Sum` |
| Parsing.Parser.ParseProduct | src/parser.py:277-290 | the loop agrees with `Product` |
| Parsing.Parser.ParseFactor | src/parser.py:292-360 | agrees with `Factor` |
| Parsing.Parser.ParseCommand | src/parser.py:112-132 | agrees with `Command` |
| Parsing.Parser.ParseBlock | src/parser.py:101-110 | the loop agrees with `Block` |
| Parsing.Parser.ParseAssign | src/parser.py:134-144 | agrees with `AssignCmd` |
| Parsing.Parser.ParseIf | src/parser.py:146-167 | agrees with `IfCmd` |
| Parsing.Parser.ParseWhile | src/parser.py:169-182 | agrees with `WhileCmd` |
| Parsing.Parser.ParseRead | src/parser.py:184-194 | agrees with `ReadCmd` |
| Parsing.Parser.ParseWrite | src/parser.py:196-209 | the loop agrees with `WriteCmd` |
| Parsing.Parser.ParseDeclarations | src/parser.py:74-99 | the loops agree with `Declarations` |
| Parsing.Parser.Analyze | src/parser.py:59-72 | `analisar` returns what `ProgramAt` computes |
| Parsing.Parse | src/parser.py:28-30 | building a parser on the stream and analysing gives `ParseProgram` |
| ParserLaws.ProductStarts | src/parser.py:282 | a product starts with its first factor |
| ParserLaws.ProductLoopStops | src/parser.py:284 | the `*`/`/` loop ends at any other token, with what it has built |
| ParserLaws.ProductLoopTakes | src/parser.py:284-288 | a `*` or `/` joins the product so far and the next factor, on the left |
| ParserLaws.SumStarts | src/parser.py:267 | a sum starts with its first product |
| ParserLaws.SumLoopStops | src/parser.py:269 | the `+`/`-` loop ends at any other token |
| ParserLaws.SumLoopTakes | src/parser.py:269-273 | a `+` or `-` joins the sum so far and the next product, on the left |
| ParserLaws.RelationStops | src/parser.py:254-260 | with no relational operator after it, a relation is its sum |
| ParserLaws.RelationTakes | src/parser.py:254-258 | a relational operator joins two sums, once |
| ParserLaws.ConjunctionStarts | src/parser.py:231 | a conjunction starts with its first relation |
| ParserLaws.ConjunctionLoopStops | src/parser.py:233 | the `e` loop ends at any other token |
| ParserLaws.ConjunctionLoopTakes | src/parser.py:233-237 | an `e` joins the conjunction so far and the next relation |
| ParserLaws.ExpressionStarts | src/parser.py:216 | an expression starts with its first conjunction |
| ParserLaws.DisjunctionLoopStops | src/parser.py:218 | the `ou` loop ends at any other token |
| ParserLaws.DisjunctionLoopTakes | src/parser.py:218-222 | an `ou` joins the expression so far and the next conjunction |
| ParserLaws.FactorIsProduct | src/parser.py:277-290 | a factor not followed by `*` or `/` is the whole product |
| ParserLaws.FactorIsSum | src/parser.py:262-275 | a factor followed by no arithmetic operator is the whole sum |
| ParserLaws.FactorIsRelation | src/parser.py:241-260 | a factor followed by no arithmetic or relational operator is the whole relation |
| ParserLaws.FactorIsConjunction | src/parser.py:226-239 | the same up to `e` |
| ParserLaws.FactorIsExpression | src/parser.py:211-224 | a factor followed by no operator is the whole expression |
| ParserLaws.ProductIsExpression | src/parser.py:211-290 | a product followed by no operator is the whole expression |
| ParserLaws.SumIsExpression | src/parser.py:211-275 | a sum followed by no operator is the whole expression |
| ParserLaws.RelationIsExpression | src/parser.py:211-260 | a relation followed by no operator is the whole expression |
| ParserLaws.ConjunctionIsExpression | src/parser.py:211-239 | a conjunction followed by no operator is the whole expression |
| ParserLaws.LeafFactor | src/parser.py:298-335 | a number, truth value, text or name is one factor of one token |
| ParserLaws.ProductOfTwo | src/parser.py:277-290 | `a * b` is one binary node |
| ParserLaws.SumOfTwo | src/parser.py:262-275 | `a + b` over products is one binary node |
| ParserLaws.ConjunctionOfTwo | src/parser.py:226-239 | `a e b` over relations is one binary node |
| ParserLaws.DisjunctionOfTwo | src/parser.py:211-224 | `a ou b` over conjunctions is one binary node |
| ParserLaws.OneOperator | src/parser.py:211-290 | two factors around any one binary operator make one binary node with that operator |
| ParserLaws.MultiplicativeOperator | src/parser.py:277-290 | the same for `*` and `/` |
| ParserLaws.AdditiveOperator | src/parser.py:262-275 | the same for `+` and `-` |
| ParserLaws.RelationalOperator | src/parser.py:241-260 | the same for the relational operators |
| ParserLaws.ConjunctiveOperator | src/parser.py:226-239 | the same for `e` |
| ParserLaws.DisjunctiveOperator | src/parser.py:211-224 | the same for `ou` |
| ParserLaws.FactorPlusProduct | src/parser.py:262-275 | a factor plus a product is one sum node |
| ParserLaws.FactorComparedToSum | src/parser.py:241-260 | a factor compared with a sum is one relation node |
| ParserLaws.FactorAndRelation | src/parser.py:226-239 | a factor `e` a relation is one conjunction node |
| ParserLaws.FactorPlusProductEnds | src/parser.py:211-275 | the same sum is the whole expression when no operator follows |
| ParserLaws.FactorComparedToSumEnds | src/parser.py:211-260 | the same relation is the whole expression when no operator follows |
| ParserLaws.FactorAndRelationEnds | src/parser.py:211-239 | the same conjunction is the whole expression when no operator follows |
| ParserLaws.FactorOrConjunction | src/parser.py:211-224 | a factor `ou` a conjunction is one disjunction node |
| ParserLaws.SumLoopEndsExpression | src/parser.py:211-275 | a finished sum followed by no operator is the expression |
| ParserLaws.SumStartsWithFactor | src/parser.py:262-290 | a sum whose first factor is not followed by `*` or `/` continues from that factor |
| ParserLaws.SumLoopTakesFactor | src/parser.py:269-273 | a `+` followed by a lone factor adds that factor |
| ParserLaws.SumIsLeftAssociative | src/parser.py:269-273 | `a - b + c` is `(a - b) + c` |
| ParserLaws.ProductBindsTighterThanSum | src/parser.py:262-290 | `a + b * c` is `a + (b * c)` |
| ParserLaws.SumBindsTighterThanComparison | src/parser.py:241-275 | `a < b + c` is `a < (b + c)` |
| ParserLaws.ComparisonBindsTighterThanConjunction | src/parser.py:226-260 | `a e b < c` is `a e (b < c)` |
| ParserLaws.ConjunctionBindsTighterThanDisjunction | src/parser.py:211-239 | `a ou b e c` is `a ou (b e c)` |
| ParserLaws.SumOfTwoFactors | src/parser.py:262-275 | two factors joined by `+` or `-` are one sum |
| ParserLaws.RelationOfTwoFactors | src/parser.py:241-260 | two factors joined by a relational operator are one relation |
| ParserLaws.ConjunctionOfTwoFactors | src/parser.py:226-239 | two factors joined by `e` are one conjunction |
| ParserLaws.RelationEndsExpression | src/parser.py:211-239 | a relation not followed by `e` or `ou` is the whole expression |
| ParserLaws.ComparisonsDoNotChain | src/parser.py:254-260 | in `a < b < c` the expression stops after `a < b`: a relational operator is taken once |
| ParserLaws.LiteralToken | src/parser.py:298-325 | a literal's token reads back as that literal |
| ParserLaws.Unparse | src/parser.py:292-360 | printing an expression as fully parenthesised tokens gives at least one token |
| ParserLaws.FactorReadsUnparse | src/parser.py:292-360 | the factor parser reads the printed tokens of an expression back as that expression |
| ParserLaws.LeafReadsUnparse | src/parser.py:298-335 | the same for a literal or a name |
| ParserLaws.ParenthesesReadUnparse | src/parser.py:338-342 | the same for a parenthesised binary expression |
| ParserLaws.NegationReadsUnparse | src/parser.py:345-353 | the same for a negation |
| ParserLaws.NegatedFactor | src/parser.py:345-353 | `-` before a factor is the negation of that factor |
| ParserLaws.BinaryReadsUnparse | src/parser.py:211-290 | inside its parentheses, a printed binary expression is read back by the expression parser |
| ParserLaws.BinaryLayout | src/parser.py:211-290 | where the operator and the operands of a printed binary expression stand |
| ParserLaws.ParenthesizedFactor | src/parser.py:338-342 | `( e )` is the factor `e` itself, with no node for the parentheses |
| ParserLaws.PrintedStream | src/parser.py:28-30 | the printed tokens of an expression, closed by EOF, are a well-formed stream |
| ParserLaws.ExpressionReadsUnparse | src/parser.py:211-224 | the printed tokens of an expression, followed by no operator, are read back as that expression |
| ParserLaws.ExpressionRoundTrip | src/parser.py:211-360 | parsing the printed form of any expression gives the expression back and consumes all its tokens |
| ParserCommandLaws.NamesStep | src/parser.py:90-92 | a comma followed by a name adds that name to the declared list and moves two tokens on |
| ParserCommandLaws.NamesReadCommaNames | src/parser.py:90-92 | the comma loop reads every `, name` pair in order and stops after the last |
| ParserCommandLaws.DeclarationLineStart | src/parser.py:83-89 | a declaration line starts with its type and its first name |
| ParserCommandLaws.AfterFirstNameReadsRest | src/parser.py:90-98 | after the first name, the rest of the names are read before the `;` |
| ParserCommandLaws.DeclarationLineNames | src/parser.py:83-98 | a declaration line collects its first name and every further name, in order |
| ParserCommandLaws.DeclarationLineDeclaresEveryName | src/parser.py:83-98 | `tipo a, b, c;` gives one declaration of that type per name, in order, and ends after the `;` |
| ParserCommandLaws.DeclarationLineNeedsSemicolon | src/parser.py:94 | a declaration line not closed by `;` is the "Esperado PONTO_E_VIRGULA" error at the offending token |
| ParserCommandLaws.IfWithoutElse | src/parser.py:146-167 | `se c entao … fimse` is a conditional with an empty else list, ending after `fimse` |
| ParserCommandLaws.IfWithElse | src/parser.py:146-167 | `se c entao … senao … fimse` is a conditional with both lists, ending after `fimse` |
| ParserCommandLaws.RunAsWritten | src/parser.py:152-156 | the command loop of a `se` as written, with a fuel bound: when it ends, it ends at one of its stop tokens |
| ParserCommandLaws.AsWrittenLoopNeverEndsAtFim | src/parser.py:152-156 | as written, the loop reaching `fim` inside a `se` never ends, for any fuel |
| ParserCommandLaws.BlockStopsAtFim | src/parser.py:101-110 | the corrected command loop stops at `fim` whatever its other stop tokens |
| ParserCommandLaws.IfBodyAtFimIsReported | src/parser.py:146-167 | a `se` whose body reaches `fim` is the "Esperado FIMSE" error at that `fim` |
| ParserCommandLaws.WhileBodyAtFimIsReported | src/parser.py:169-182 | an `enquanto` whose body reaches `fim` is the "Esperado FIMENQUANTO" error at that `fim` |
| ParserCommandLaws.UnclosedIf | src/parser.py:146-167 | the five tokens `inicio se verdadeiro entao fim` closed by EOF form a well-formed stream |
| ParserCommandLaws.UnclosedIfHangsAsWritten | src/parser.py:152-156 | as written, parsing the body of that unclosed `se` never ends |
| ParserCommandLaws.UnclosedIfCondition | src/parser.py:149 | its condition is the literal `verdadeiro` |
| ParserCommandLaws.UnclosedIfCommand | src/parser.py:146-167 | corrected, that `se` is the "Esperado FIMSE" error |
| ParserCommandLaws.UnclosedIfBody | src/parser.py:101-110 | corrected, the program body containing it fails with the same error |
| ParserCommandLaws.UnclosedIfIsRejected | src/parser.py:59-72 | corrected, the whole program is rejected with the error expecting `fimse`, at the `fim` on line 3, column 1 |
| ParserCommandLaws.ProgramBody | src/parser.py:68-72 | a program that parses keeps its declarations and its tokens end with `fim` and EOF |
| ParserCommandLaws.ProgramStartsWithDeclarations | src/parser.py:66-67 | after the declarations comes `inicio`, or the program is the "Esperado INICIO" error |
| ParserCommandLaws.ProgramBodyEndsAtLastFim | src/parser.py:68-72 | the body parses exactly when its commands end at the last token before EOF, and then the program holds those commands |
| ParserCommandLaws.ParsedProgramEndsWithFim | src/parser.py:59-72 | every parsed program keeps its declarations and came from tokens ending with `fim` |
| ParserCommandLaws.ProgramOfParts | src/parser.py:59-72 | declarations, `inicio`, a command block and the final `fim` make the program of those parts |
| Semantic.Undeclared | src/semantic.py:58-79 | an undeclared-name error is a semantic error placed at line 0, column 0 |
| Semantic.Declare | src/semantic.py:32-56 | declaring fails exactly when the name is already in the table, with the located "já declarada" error; otherwise adds the name with its type, not initialised, and changes no other entry |
| Semantic.Lookup | src/semantic.py:58-79 | a name is found exactly when declared, giving its type; otherwise the located "não declarada" error |
| Semantic.Initialized | src/semantic.py:81-84 | marking sets the flag of that name only, and the table keeps its names |
| Semantic.TypeOf | src/semantic.py:97-100 | a declared name's type, or "desconhecido" |
| Semantic.StripSpaces | src/semantic.py:319-323 | removing leading and trailing blanks, as `int()` does before reading a number |
| Semantic.LiteralType | src/semantic.py:306-325 | a literal's inferred type is always one of the four basic types |
| Semantic.BinaryType | src/semantic.py:250-287 | arithmetic accepts exactly two numeric operands and gives `real` exactly when one of them is real; comparisons and `e`/`ou` always give `logico`; every failure is semantic |
| Semantic.UnaryType | src/semantic.py:289-304 | unary minus is accepted exactly on a numeric operand and keeps its type; anything else fails semantically |
| Semantic.ExprType | src/semantic.py:215-248 | a typed name is declared and has its declared type; any other typed expression has a basic type |
| Semantic.OnlyFlagsSetTransitive | src/semantic.py:139-213 | changing only initialisation flags composes |
| Semantic.CheckCmdOnlySetsFlags | src/semantic.py:139-213 | a command never adds, removes or retypes a name: it can only mark names initialised |
| Semantic.CheckBlockOnlySetsFlags | src/semantic.py:171-197 | the same for a list of commands |
| Semantic.TypedExpressionsUseDeclaredNames | src/semantic.py:215-248 | an expression that gets a type mentions only declared names |
| Semantic.PassingExpressionsUseDeclaredNames | src/semantic.py:209-213 | the expressions of an `escreva` that pass mention only declared names |
| Semantic.PassingCommandsUseDeclaredNames | src/semantic.py:139-213 | a command that passes mentions only declared names |
| Semantic.PassingBlocksUseDeclaredNames | src/semantic.py:171-197 | a list of commands that passes mentions only declared names |
| Semantic.ProgramUsesOnlyItsDeclarations | src/semantic.py:116-129 | an accepted program's commands mention only names it declares |
| Semantic.DeclareAllKeys | src/semantic.py:124-125 | accepted declarations add exactly their names to the table |
| Semantic.AssignmentNeverRejectsATypeMismatch | src/semantic.py:152-169 | an assignment to a declared name of a typed expression always passes and marks the name, whatever the two types: the incompatibility error is never raised |
| Semantic.ConditionsOfAnyTypeAreAccepted | src/semantic.py:171-197 | a typed condition of any type is accepted; the loop and the conditional then check just their bodies |
| Semantic.ArithmeticTypes | src/semantic.py:257-268 | `+ - * /` on typed operands gives `real` or `inteiro` on numbers and the "Operação aritmética … incompatível" error otherwise |
| Semantic.LiteralTypesOfTokens | src/semantic.py:306-325 | digits are `inteiro`, digits with a dot are `real`, quoted text is `caracter`, `verdadeiro`/`falso` are `logico` |
| Semantic.DeclareAllPassesIffFresh | src/semantic.py:32-56 | the declarations pass exactly when their names are new and pairwise distinct, and then each is in the table with its type, uninitialised |
| Semantic.DeclareAllKeeps | src/semantic.py:32-56 | declaring never changes an existing entry |
| Semantic.SymbolTable.constructor | src/semantic.py:29-30 | a new table is empty |
| Semantic.SymbolTable.DeclareVariable | src/semantic.py:32-56 | updates the table as `Declare` says, or leaves it unchanged and reports the error |
| Semantic.SymbolTable.CheckDeclared | src/semantic.py:58-79 | the declared type of the name, or the "não declarada" error |
| Semantic.SymbolTable.MarkInitialized | src/semantic.py:81-84 | the table becomes `Initialized` of the old one |
| Semantic.SymbolTable.GetType | src/semantic.py:97-100 | the declared type, or "desconhecido" |
| Semantic.Analyzer.constructor | src/semantic.py:112-114 | a new analyser owns a fresh, empty table |
| Semantic.Analyzer.Analyze | src/semantic.py:116-129 | the outcome and the final table are those of `CheckProgram` on the old table |
| Semantic.Analyzer.AnalyzeBlock | src/semantic.py:171-197 | the outcome and final table are those of `CheckBlock` |
| Semantic.Analyzer.AnalyzeCommand | src/semantic.py:139-213 | the outcome and final table are those of `CheckCmd` |
| Intermediate.DefinitionText | src/intermediate.py:65-68 | a definition's text starts with `res = ` |
| Intermediate.JumpText | src/intermediate.py:73-76 | a jump's text ends with `goto` and its target |
| Intermediate.Render | src/intermediate.py:61-84 | assignments, unary operations, initialisations and binary operations with both operands render as `res = …`; the three jumps end with `goto` and their target; an `OP` missing its second operand renders as the unknown-instruction comment |
| Intermediate.NamesAreNeverReused | src/intermediate.py:102-110 | different counter values give different temporaries and different labels, and no temporary is named like a label |
| Intermediate.PrefixedDecimalInjective | src/intermediate.py:102-110 | one prefix letter followed by a decimal numeral names one number only |
| Intermediate.TempRange | src/intermediate.py:102-105 | the temporaries a counter hands out between two values, one per step |
| Intermediate.TempRangeAt | src/intermediate.py:102-105 | the k-th of them is `t(a+k+1)` |
| Intermediate.TempRangeSplit | src/intermediate.py:102-105 | consecutive ranges join into one |
| Intermediate.TempRangeDistinct | src/intermediate.py:102-105 | a range never repeats a temporary |
| Intermediate.TempDefsAppend | src/intermediate.py:112-114 | the temporaries defined by appended code are those of each part, in order |
| Intermediate.LabelsAppend | src/intermediate.py:112-114 | the same for defined labels and jump targets |
| Intermediate.WritesAppend | src/intermediate.py:112-114 | the same for `write` operands |
| Intermediate.OperationsOnlyHaveNoLabels | src/intermediate.py:312-380 | code made only of operations defines no label, jumps nowhere and writes nothing |
| Intermediate.LowerExpr | src/intermediate.py:312-380 | an expression's code has one instruction per operator and uses that many temporaries; a literal or a name is its own place, an operation's place is the last temporary |
| Intermediate.LowerExprShape | src/intermediate.py:312-380 | an expression's code is operations only, defining exactly the temporaries it took, in order |
| Intermediate.LowerExprOperationsOnly | src/intermediate.py:312-380 | an expression's code holds only `OP` and `UNARY` instructions |
| Intermediate.LowerExprTemps | src/intermediate.py:312-380 | an expression's code defines the temporaries it took, in order, each once |
| Intermediate.OperationTemps | src/intermediate.py:340-378 | appending one operation into the next temporary extends the range by one |
| Intermediate.ExprCodeHasNoLabels | src/intermediate.py:312-380 | expression code defines no label, jumps nowhere and writes nothing |
| Intermediate.NoTempDefs | src/intermediate.py:140-154 | code without operations defines no temporary |
| Intermediate.TempDefsOne | src/intermediate.py:340-378 | a single instruction defines its result exactly when it is an operation |
| Intermediate.LowerWrites | src/intermediate.py:303-310 | an `escreva` takes no labels and never gives temporaries back |
| Intermediate.LowerCmd | src/intermediate.py:156-310 | a command never gives temporaries or labels back |
| Intermediate.LowerBlock | src/intermediate.py:156-167 | the same for a list of commands |
| Intermediate.LowerDecls | src/intermediate.py:135-154 | one `INIT` per declaration, in order, with `0`, `0.0`, `""` or `false` by type and `0` for any other |
| Intermediate.LowerCmdTemps | src/intermediate.py:156-310 | a command's code defines exactly the temporaries it took, in order |
| Intermediate.LowerBlockTemps | src/intermediate.py:156-167 | the same for a list of commands |
| Intermediate.LowerWritesTemps | src/intermediate.py:303-310 | the same for an `escreva` |
| Intermediate.TempDefsGlue | src/intermediate.py:191-294 | a jump or a label between two pieces of code defines no temporary |
| Intermediate.IfThenTemps | src/intermediate.py:191-248 | a conditional without else defines its condition's then its body's temporaries |
| Intermediate.IfElseTemps | src/intermediate.py:191-248 | a conditional with else defines its condition's, then-branch's and else-branch's temporaries, in order |
| Intermediate.WhileTemps | src/intermediate.py:250-294 | a loop defines its condition's then its body's temporaries |
| Intermediate.ProgramTempsAreSingleAssignment | src/intermediate.py:116-138 | in the code of a whole program, no temporary is assigned twice |
| Intermediate.DeclsDefineNoTemps | src/intermediate.py:135-154 | the initialisations define no temporary |
| Intermediate.LowerCmdJumpsStayInside | src/intermediate.py:156-310 | every jump in a command's code targets a label defined in that same code |
| Intermediate.LowerBlockJumpsStayInside | src/intermediate.py:156-167 | the same for a list of commands |
| Intermediate.LowerWritesHaveNoLabels | src/intermediate.py:303-310 | an `escreva` jumps nowhere |
| Intermediate.GotoThenLabel | src/intermediate.py:191-294 | the targets and labels of a `goto` followed by a label |
| Intermediate.IfThenLabels | src/intermediate.py:191-248 | the layout of a conditional without else closes its jumps |
| Intermediate.IfElseLabels | src/intermediate.py:191-248 | the layout of a conditional with else closes its jumps |
| Intermediate.WhileLabels | src/intermediate.py:250-294 | the layout of a loop closes its jumps |
| Intermediate.OneWritePerExpression | src/intermediate.py:303-310 | an `escreva` of n expressions writes n places, the first being the first expression's place |
| Intermediate.LowerIfElse | src/intermediate.py:191-248 | the exact layout of a conditional with else: `ifFalse` to the else label, the then-branch, `goto` end, else label, else-branch, end label |
| Intermediate.LowerIfThen | src/intermediate.py:191-248 | the exact layout without else: `ifFalse` to the end label, the body, the end label |
| Intermediate.IRGenerator.constructor | src/intermediate.py:97-100 | no code and both counters at zero |
| Intermediate.IRGenerator.NewTemp | src/intermediate.py:102-105 | bumps the temporary counter and returns the temporary for its new value, changing nothing else |
| Intermediate.IRGenerator.NewLabel | src/intermediate.py:107-110 | bumps the label counter and returns the label for its new value, changing nothing else |
| Intermediate.IRGenerator.Emit | src/intermediate.py:112-114 | appends the instruction and leaves the counters alone |
| Intermediate.IRGenerator.Generate | src/intermediate.py:116-138 | resets the state and leaves (and returns) exactly `LowerProgram` of the program |
| Intermediate.IRGenerator.GenerateDecl | src/intermediate.py:140-154 | appends the declaration's `INIT` |
| Intermediate.IRGenerator.GenerateBlock | src/intermediate.py:156-167 | appends `LowerBlock`'s code and moves the counters as it says |
| Intermediate.IRGenerator.GenerateCommand | src/intermediate.py:156-167 | appends `LowerCmd`'s code and moves the counters as it says |
| Intermediate.IRGenerator.GenerateAssign | src/intermediate.py:169-189 | the same for an assignment |
| Intermediate.IRGenerator.GenerateIf | src/intermediate.py:191-248 | the same for a conditional |
| Intermediate.IRGenerator.GenerateWhile | src/intermediate.py:250-294 | the same for a loop |
| Intermediate.IRGenerator.GenerateWrites | src/intermediate.py:303-310 | the same for an `escreva` |
| Intermediate.IRGenerator.GenerateExpr | src/intermediate.py:312-380 | appends `LowerExpr`'s code and returns its place |
| Optimizer.FirstDot | src/optimizer.py:343-361 | the position of the first `.` of a text, or its length |
| Optimizer.Magnitude | src/optimizer.py:343-361 | a numeral without its sign is no longer than the numeral |
| Optimizer.IntegerNumeral | src/optimizer.py:363-406 | the decimal text of any integer is a numeral denoting that integer |
| Optimizer.DigitsHaveNoDot | src/optimizer.py:343-361 | a string of digits has no dot |
| Optimizer.IntegralText | src/optimizer.py:363-406 | when a result is printed as an integer, the text is a numeral with exactly that value |
| Optimizer.Evaluate | src/optimizer.py:363-406 | evaluation succeeds only on two numerals and a known operator; comparisons give `true`/`false` by the comparison of the two values; division by zero gives nothing; an arithmetic result is a numeral whose value is the exact result |
| Optimizer.Folded | src/optimizer.py:119-154 | folding turns an operation into an assignment of a constant to the same destination, or leaves it |
| Optimizer.Fold | src/optimizer.py:119-154 | constant folding rewrites each instruction on its own and keeps the length |
| Optimizer.PropagateConstants | src/optimizer.py:156-190 | constant propagation keeps the length and each instruction's kind and destination, and reports no change only when the code is unchanged |
| Optimizer.Forget | src/optimizer.py:264-300 | forgetting a redefined name drops exactly the copies of it and from it |
| Optimizer.PropagateCopies | src/optimizer.py:264-300 | copy propagation keeps the length and each instruction's kind and destination, and reports no change only when the code is unchanged |
| Optimizer.Simplified | src/optimizer.py:192-262 | algebraic simplification turns an operation into an assignment to the same destination, or leaves it |
| Optimizer.Simplify | src/optimizer.py:192-262 | simplification rewrites each instruction on its own and keeps the length |
| Optimizer.DeadCode | src/optimizer.py:302-341 | dead-code elimination keeps a subsequence of the input (instructions only left out, never added or reordered), keeps every `goto` and label in order, and reports a change exactly when it removed something |
| Optimizer.FoldReportsChange | src/optimizer.py:119-154 | folding reports a change exactly when the code changed |
| Optimizer.FoldIdempotent | src/optimizer.py:119-154 | folding folded code changes nothing and reports no change |
| Optimizer.SimplifyReportsChange | src/optimizer.py:192-262 | simplification reports a change exactly when the code changed |
| Optimizer.SimplifyIdempotent | src/optimizer.py:192-262 | simplifying simplified code changes nothing and reports no change |
| Optimizer.SimplificationAgreesWithArithmetic | src/optimizer.py:192-262 | on two numerals, every simplification (`x+0`, `0+x`, `x-0`, `x*1`, `1*x`, `x*0`, `0*x`, `x/1`) assigns a numeral equal to what the operation computes |
| Optimizer.ZeroAndOne | src/optimizer.py:343-361 | `0` and `1` are numerals for zero and one |
| Optimizer.NoJumpNoDeadRegion | src/optimizer.py:302-341 | without a `goto` no instruction is after an unconditional jump |
| Optimizer.DeadCodeKeepsWhatIsUsed | src/optimizer.py:302-341 | without a `goto`, every instruction that is not an unused temporary's definition survives |
| Optimizer.UsedNamesCover | src/optimizer.py:99-117 | the used set covers the names each instruction reads |
| Optimizer.PassWithoutChangeIsIdentity | src/optimizer.py:80-95 | a pass that reports no change returned its input |
| Optimizer.ChainedExtends | src/optimizer.py:80-95 | a changing pass extends the chain of intermediate codes |
| Optimizer.RunOfPasses | src/optimizer.py:80-95 | the loop's result is the last code of the chain: where a pass reported no change, or where the budget ran out |
| Optimizer.IterationStops | src/optimizer.py:80-95 | the loop runs at least one and at most `max_passadas` passes, and stopping early means the last pass changed nothing |
| Optimizer.OptimizerStops | src/optimizer.py:66-97 | the same for the optimiser's own pass, with both propagations as written |
| Optimizer.SelfCopyPass | src/optimizer.py:278-294 | as written, a pass over `x = x` hands the code back unchanged yet reports a modification, since the copy `x ↦ x` replaces `x` by itself |
| Optimizer.SelfCopySpendsBudget | src/optimizer.py:66-97 | so on `x = x` the loop runs all `max_passadas` passes and returns the code unchanged |
| Optimizer.ConstantStep | src/optimizer.py:156-190 | constant propagation over one more instruction substitutes it with the table after its own update, and learns from it |
| Optimizer.CopyStep | src/optimizer.py:264-300 | copy propagation over one more instruction substitutes it with the copy table after its own update, and learns from it |
| Optimizer.DeadCodeStep | src/optimizer.py:302-341 | one more instruction is kept or dropped by whether it is after a `goto` and whether it defines an unused temporary |
| Optimizer.UsedNamesStep | src/optimizer.py:99-117 | the used set over one more instruction adds what that instruction reads |
| Optimizer.NamesUsedBy | src/optimizer.py:103-117 | the names one instruction reads, by its kind |
| Optimizer.LearnConstant | src/optimizer.py:169-175 | the table after one instruction as the source updates it: an `ASSIGN` of a constant records it, `OP`, `UNARY` and `READ` forget their destination, anything else keeps the table |
| Optimizer.LearnCopy | src/optimizer.py:278-286 | the copy table after one instruction as the source updates it: an `ASSIGN` of a present non-constant records the copy (a self-copy included), `OP`, `UNARY` and `READ` forget their destination's copy, anything else keeps the table |
| Optimizer.SubstituteFrom | src/optimizer.py:178-188 | the instruction with its operands replaced from the table, and whether anything was replaced |
| Optimizer.CodeOptimizer.constructor | src/optimizer.py:60-64 | nothing used and no change |
| Optimizer.CodeOptimizer.AnalyzeUse | src/optimizer.py:99-117 | the used set becomes the names the code reads plus its non-temporary destinations |
| Optimizer.CodeOptimizer.ConstantFolding | src/optimizer.py:119-154 | returns `Fold`'s code and records its change |
| Optimizer.CodeOptimizer.ConstantPropagation | src/optimizer.py:156-190 | returns the as-written propagation's code and records its change |
| Optimizer.CodeOptimizer.AlgebraicSimplification | src/optimizer.py:192-262 | returns `Simplify`'s code and records its change |
| Optimizer.CodeOptimizer.CopyPropagation | src/optimizer.py:264-300 | returns the as-written copy propagation's code and records its change |
| Optimizer.CodeOptimizer.DeadCodeElimination | src/optimizer.py:302-341 | returns `DeadCode`'s code under the used set and records its change |
| Optimizer.CodeOptimizer.RunPass | src/optimizer.py:80-92 | one pass is `PassOnce`: the five rewrites in order, both propagations as written, with their combined change |
| Optimizer.CodeOptimizer.Optimize | src/optimizer.py:66-97 | the result is that of iterating the pass at most `max_passadas` times, stopping at the first pass without change |
| IrRun.RunAppend | src/intermediate.py:9-20 | running code then one more instruction is one more step |
| IrRun.SameDefinition | src/intermediate.py:9-20 | two definitions of the same destination producing the same value have the same effect |
| IrRun.BoolLiteral | src/optimizer.py:363-406 | the `true`/`false` text folding writes denotes that truth value |
| IrRun.EvaluateAgreesWithApply | src/optimizer.py:363-406 | whatever constant the folding evaluator produces denotes the value the operation computes at run time |
| IrRun.FoldedProduces | src/optimizer.py:119-154 | a folded instruction produces the value the operation would |
| IrRun.FoldKeepsStep | src/optimizer.py:119-154 | folding one instruction never changes its effect |
| IrRun.FoldKeepsRun | src/optimizer.py:119-154 | constant folding keeps the meaning of any code: the same variables, input and output |
| IrRun.SimplifiedProducesOnNumbers | src/optimizer.py:192-262 | on numeric operands, a simplified instruction produces the value the operation would |
| IrRun.SimplifyKeepsStepOnNumbers | src/optimizer.py:192-262 | on numeric operands, simplification keeps an instruction's effect |
| IrRun.SubstitutionKeepsStep | src/optimizer.py:178-188 | replacing operands by names or constants of equal value keeps an instruction's effect |
| IrRun.ConstantTableHoldsConstants | src/optimizer.py:169-176 | the constant table maps names to constants only |
| IrRun.ConstantTableSurvives | src/optimizer.py:169-176 | a table of constants stays true when a name it does not mention changes |
| IrRun.ConstantDropped | src/optimizer.py:172-175 | dropping the redefined name keeps the table true |
| IrRun.TableExtends | src/optimizer.py:169-171 | recording a name equal to a constant keeps the table true |
| IrRun.ConstantOperandsHold | src/optimizer.py:178-188 | the operands replaced by the corrected propagation hold their recorded values |
| IrRun.ConstantTableAfter | src/optimizer.py:169-176 | the corrected table update is true after the instruction runs |
| IrRun.ConstantUpdateKeepsStep | src/optimizer.py:156-190 | one step of the corrected constant propagation keeps the instruction's effect and the table true |
| IrRun.ConstantsKeepRun | src/optimizer.py:156-190 | the corrected constant propagation keeps the meaning of straight-line code |
| IrRun.ForgetSurvives | src/optimizer.py:264-300 | forgetting the redefined name keeps a copy table true |
| IrRun.CopyOperandsHold | src/optimizer.py:264-300 | the operands replaced by the corrected copy propagation hold their recorded values |
| IrRun.CopyTableAfter | src/optimizer.py:264-300 | the corrected copy-table update is true after the instruction runs |
| IrRun.CopyUpdateKeepsStep | src/optimizer.py:264-300 | one step of the corrected copy propagation keeps the instruction's effect and the table true |
| IrRun.CopiesKeepRun | src/optimizer.py:264-300 | the corrected copy propagation keeps the meaning of straight-line code |
| IrRun.ValAgrees | src/optimizer.py:302-341 | machines agreeing on the used names give used operands equal values |
| IrRun.KeptStepRelated | src/optimizer.py:302-341 | running a kept instruction on both machines keeps them agreeing |
| IrRun.RemovedStepRelated | src/optimizer.py:302-341 | an unused temporary's definition changes nothing visible |
| IrRun.DeadCodeKeepsRun | src/optimizer.py:302-341 | dead-code elimination keeps every used name, the input and the output of straight-line code |
| IrRun.DeadCodeKeepsOutput | src/optimizer.py:302-341 | with the used set of the code itself, the output is unchanged |
| IrRun.ConstantsAsWrittenPrefix | src/optimizer.py:169-176 | as written, `x = 5; x = y` leaves `x ↦ 5` in the table |
| IrRun.ConstantsAsWrittenExample | src/optimizer.py:156-190 | as written, `x = 5; x = y; write x` becomes `…; write 5` |
| IrRun.CopiesAsWrittenPrefix | src/optimizer.py:264-300 | as written, `x = y; y = 5` leaves `x ↦ y` in the copy table |
| IrRun.CopiesAsWrittenExample | src/optimizer.py:264-300 | as written, `x = y; y = 5; write x` becomes `…; write y` |
| IrRun.StaleConstantChangesOutput | src/optimizer.py:169-175 | with `y` = 7, `x = 5; x = y; write x` writes 7 but its propagated form as written writes 5 |
| IrRun.StaleCopyChangesOutput | src/optimizer.py:278-286 | with `y` = 7, `x = y; y = 5; write x` writes 7 but its propagated form as written writes 5 |
| CodeGen.LiteralText | src/codegen.py:229-244 | `verdadeiro` becomes `True`, `falso` becomes `False`, every other literal is copied as it is |
| CodeGen.OperatorText | src/codegen.py:246-269 | `e` becomes `and`, `ou` becomes `or`, every other operator is kept |
| CodeGen.BalanceAppend | src/codegen.py:208-279 | parenthesis balance adds up over concatenation |
| CodeGen.ParenFreeBalance | src/codegen.py:208-279 | text without parentheses is balanced |
| CodeGen.ParenthesisedBalance | src/codegen.py:246-279 | wrapping text in one pair of parentheses keeps its balance |
| CodeGen.OperatorParenFree | src/codegen.py:246-269 | translating an operator adds no parenthesis |
| CodeGen.BinaryBalanced | src/codegen.py:246-269 | `(l op r)` is balanced when its operands are |
| CodeGen.UnaryText | src/codegen.py:271-279 | a unary expression is printed as `(op x)` with no space |
| CodeGen.UnaryBalanced | src/codegen.py:271-279 | `(op x)` is balanced when its operand is |
| CodeGen.ExprTextBalanced | src/codegen.py:208-279 | the Python text of any expression whose literals, names and operators hold no parentheses has balanced parentheses |
| CodeGen.OperationParenthesised | src/codegen.py:246-279 | every binary or unary expression is printed inside one pair of parentheses, so Python's precedence cannot regroup it |
| CodeGen.Indent | src/codegen.py:281-284 | the indentation of a level is four spaces per level |
| CodeGen.DefaultValue | src/codegen.py:75-95 | `0`, `0.0`, `""` and `False` by declared type, and `None` for any other type |
| CodeGen.IndentGrows | src/codegen.py:286-288 | a deeper indentation starts with the shallower one |
| CodeGen.LineIndented | src/codegen.py:281-284 | a line emitted at a deeper level starts with the indentation of any shallower level |
| CodeGen.IndentedAppend | src/codegen.py:281-284 | lines indented at a level stay so when joined |
| CodeGen.NumberReadIndented | src/codegen.py:153-175 | the lines reading an integer or a real are indented at least at the current level |
| CodeGen.LogicalReadIndented | src/codegen.py:177-186 | the lines reading a truth value are too |
| CodeGen.TextReadIndented | src/codegen.py:187-196 | the lines reading text are too |
| CodeGen.ReadIndented | src/codegen.py:148-196 | every `leia` translation is indented at least at the current level |
| CodeGen.IndentedDeeper | src/codegen.py:286-293 | lines indented one level deeper are indented at the current level |
| CodeGen.CmdIndented | src/codegen.py:97-206 | every line a command produces is indented at least at the current level |
| CodeGen.IfIndented | src/codegen.py:115-133 | the same for a conditional, whose bodies are one level deeper |
| CodeGen.BlockIndented | src/codegen.py:97-108 | the same for a list of commands |
| CodeGen.BodyIndented | src/codegen.py:115-146 | a body, with `pass` when empty, is at least one line and indented at least at its level |
| CodeGen.CmdNotEmpty | src/codegen.py:97-206 | every command produces at least one line |
| CodeGen.DeclarationsIndented | src/codegen.py:75-95 | the declaration lines are indented at the current level |
| CodeGen.ProgramShape | src/codegen.py:35-73 | a generated program starts with the comment, a blank line and `def main():`, ends with a blank line and the `__main__` guard, and everything between is indented inside `main` |
| CodeGen.UndeclaredIsReadAsText | src/codegen.py:148-196 | `leia` of a name with no declared type reads it as text |
| CodeGen.LastDeclarationWins | src/codegen.py:75-95 | a name declared several times has the type of its last declaration |
| CodeGen.DeclarationStep | src/codegen.py:86-94 | one more declaration adds one line `name = default` |
| CodeGen.DeclaredTypesStep | src/codegen.py:86-94 | one more declaration records its type for its name |
| CodeGen.BlockStep | src/codegen.py:59-63 | one more command adds its lines |
| CodeGen.ArgumentsStep | src/codegen.py:198-206 | one more `escreva` argument is added after `, ` |
| CodeGen.CodeGenerator.constructor | src/codegen.py:24-33 | no lines, level 0, no known types |
| CodeGen.CodeGenerator.AddLine | src/codegen.py:281-284 | appends the text indented at the current level |
| CodeGen.CodeGenerator.IndentMore | src/codegen.py:286-288 | one level deeper, nothing else changes |
| CodeGen.CodeGenerator.IndentLess | src/codegen.py:290-293 | one level shallower, never below zero |
| CodeGen.CodeGenerator.DeclareAll | src/codegen.py:86-94 | appends one default line per declaration and records their types |
| CodeGen.CodeGenerator.GenerateDeclarations | src/codegen.py:75-95 | the same, between a comment line and a blank line when there are declarations |
| CodeGen.CodeGenerator.AddNested | src/codegen.py:148-196 | appends one line one level deeper and restores the level |
| CodeGen.CodeGenerator.ReadNumber | src/codegen.py:153-175 | appends the `try`/`except ValueError` lines reading a number with its fallback |
| CodeGen.CodeGenerator.ReadLogical | src/codegen.py:177-186 | appends the lines reading a truth value |
| CodeGen.CodeGenerator.ReadText | src/codegen.py:187-196 | appends the line reading text |
| CodeGen.CodeGenerator.GenerateRead | src/codegen.py:148-196 | appends the lines chosen by the name's declared type |
| CodeGen.CodeGenerator.GenerateWrite | src/codegen.py:198-206 | appends one `print(…)` line with the arguments separated by `, ` |
| CodeGen.CodeGenerator.GenerateCmd | src/codegen.py:97-108 | appends exactly `CmdLines` of the command |
| CodeGen.CodeGenerator.GenerateIf | src/codegen.py:115-133 | appends exactly the conditional's lines |
| CodeGen.CodeGenerator.GenerateWhile | src/codegen.py:135-146 | appends exactly the loop's lines |
| CodeGen.CodeGenerator.GenerateBlock | src/codegen.py:59-63 | appends the lines of each command in order |
| CodeGen.CodeGenerator.GenerateBody | src/codegen.py:120-131 | appends a body's lines, or `pass` for an empty body |
| CodeGen.CodeGenerator.Generate | src/codegen.py:35-73 | leaves exactly `ProgramLines` and returns them joined by newlines, with the declared types recorded and the level back at 0 |

## Left out

- src/main.py, compilar.py and `compilar_e_executar` in programa.py are not part of this model. They hold file input and output, tracing with `print`, and `exec` of the generated program.
- The optimiser's `relatorio_otimizacoes` and the generator's `imprimir_codigo` are not modelled. They format reports, with float percentages.
- `demonstrar_afd` is not modelled: it only prints.
- Character classes are ASCII. Python's `isalpha`, `isalnum`, `isdigit` and `isspace` also accept other Unicode letters, digits and blanks. Blanks include `\x1c`–`\x1f`, as in Python.
- The parser is given the whole token stream the lexer produces: the tokens in order, closed by EOF or by the lexer's error. The source pulls tokens one at a time. The two agree because the lexer is deterministic and repeats EOF (`Lexing.ScanEofRepeats`).
- Optimizer.Evaluate: arithmetic is exact on the decimal value of the operands. A result that is not an integer is not folded, so the model keeps the `OP` where Python would print a float such as `3.5`. The same holds for an operand that is an infinity or not-a-number, and for exponent and underscore spellings of numbers.
- Optimizer.DeadCode: an `ASSIGN`, `OP` or `UNARY` without a destination would make the source raise. The generator never emits one, and the model keeps such an instruction.
- IrRun: jumps have no meaning. The preservation theorems for propagation and dead-code elimination cover code without `goto`, `if` and `ifFalse`. Folding is covered for any code.
- IrRun: infinities and not-a-number have no value in the machine. `_eh_constante` treats the names `inf` and `nan` as constants, and the theorems say nothing about programs using them as variables.
- IrRun.SimplifyKeepsStepOnNumbers: simplification keeps an instruction's effect only when both operands are numbers. On text, `x + 0` would fail in Python while `x` would not.
- The lowering to three-address code is not related to a meaning of the source program. In particular a user variable named like a temporary (`t1`) is overwritten by the temporaries.
- `verificar_inicializada` (src/semantic.py:86-95) does nothing, and the model leaves it out.
- The "Tipo de expressão não reconhecido" and "Operador unário … não reconhecido" branches of the semantic analyser cannot be reached: the syntax tree has no other expression and the parser builds only unary `-`. Only the second is modelled (`Semantic.UnaryType`). The emitter's `# Expressão não reconhecida` fallback (src/codegen.py:226-227) is left out for the same reason.
- LegacySemantic.InferType: whether Python's text of a float holds a dot is decided on the exact decimal value of the literal. Zero and magnitudes from 1e-4 up to, not including, 1e16 are written positionally, with a dot; other values in exponent notation, with a dot unless the value is one digit times a power of ten. Python prints the shortest text that reads back as the same double, so a literal with more significant digits than a double holds, one that rounds across a boundary (`9999999999999999.0` prints as `1e+16`) or one that overflows to `inf` can be typed differently.
- LegacySemantic.Analyzer.TypeOf: follows `InferType`, with the same gap for floats that round.
- Parsing.Block: at `fim` inside a `se` or `enquanto` body the model's command loop stops, and the caller reports the missing `fimse` or `fimenquanto`. The source's loops (src/parser.py:152-156, 175-179) never end there (see "## Findings"). On every input on which the source ends, the two agree.
- Parsing.IfCmd: reports the `Esperado` error for `fimse` where the source's `se` loops forever on a body that reaches `fim`.
- Parsing.WhileCmd: reports the `Esperado` error for `fimenquanto` where the source's `enquanto` loops forever on a body that reaches `fim`.
- Parsing.Parser.ParseBlock: the same corrected stop at `fim` as `Parsing.Block`.
- Parsing.Parser.ParseIf: the same corrected error as `Parsing.IfCmd`.
- Parsing.Parser.ParseWhile: the same corrected error as `Parsing.WhileCmd`.
- LegacyParsing.LiteralNumber: `float(valor)` is read as the exact decimal value, without rounding to a double.
- programa.py's `Lexer`, `GeradorDeCodigo`, `parse_programa`, `parse_declaracao`, `parse_comando`, `parse_se`, `parse_enquanto`, `parse_bloco`, `parse_expressao` and `parse_argumentos_funcao` are not part of this model. The model covers its factor parser and expression ladder, its symbol table and its analyser. The analyser is modelled on any tree of its node types.
- LegacySemantic.Analyzer.Visit: the string that `visitar` returns (`str(resultado)`) is not modelled, since no caller in the analyser uses it.
- When a legacy visit of `se` or `enquanto` fails, the model does not say which scopes are left on the stack. The source leaves its pushed scope behind on the error path.
- Repetition with `para`, the `%` and `^` operators, warnings for reads of uninitialised variables, and escaped quotes in strings do not exist in the code. They are not modelled.

## Findings

| source | as written | input that shows it | evidently intended | confidence | as-written member | corrected member |
|---|---|---|---|---|---|---|
| src/parser.py:152-156 | the command loops of `se` (and `enquanto`, src/parser.py:175-179) call `_analisar_comando`, which returns `None` at `fim` without consuming it, so the loop never ends | `inicio se verdadeiro entao fim` | report `Esperado 'fimse', encontrado 'fim'` at the `fim` | high; not executed | ParserCommandLaws.AsWrittenLoopNeverEndsAtFim | ParserCommandLaws.IfBodyAtFimIsReported |
| src/optimizer.py:169-175 | constant propagation forgets a constant only when `OP`, `UNARY` or `READ` redefines the name, so `x = y` keeps the old constant of `x` | `x = 5; x = y; write x` with `y` = 7 writes 5 after propagation, 7 before | an assignment of a non-constant also drops the name from the table | high; not executed | IrRun.StaleConstantChangesOutput | IrRun.ConstantsKeepRun |
| src/optimizer.py:278-286 | copy propagation forgets a copy only when `OP`, `UNARY` or `READ` redefines its key, so changing the copied variable, or assigning a constant to the key, keeps `x ↦ y` | `x = y; y = 5; write x` with `y` = 7 writes 5 after propagation, 7 before | a redefinition of either name drops the copies that mention it | high; not executed | IrRun.StaleCopyChangesOutput | IrRun.CopiesKeepRun |
