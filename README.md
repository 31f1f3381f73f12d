# Shunting-yard visualizer, modelled in Dafny

The program lexes a small expression language and turns the tokens into postfix
(reverse Polish) order with Dijkstra's shunting-yard algorithm. This project models
its three core files:

- **Token tables** (`src/token.rs`). The `TokenValue` variants, the keyword table and
  the tables `precedence`, `assoc`, `is_op`, `is_func` and `is_binding`, in module
  `Tokens` (token.dfy). The lemmas there state each table's shape family by family.
- **Lexer** (`src/lexer.rs`). A cursor over the source text. It holds a start and a
  current index, each with its (line, column) location, and a vector of tokens that
  grows as lexemes are scanned.
  - `Lexing.Lexer` (lexer.dfy) is a class with those fields. Its methods
    (`IncrementPosition`, `Next`, `MatchChar`, the `Scan*` family, `ScanTokens`)
    update the fields in place, as the Rust methods do. `Peek`, `PeekNext` and
    `IsAtEnd` only read them, so they are functions.
  - Each method is proved against a pure specification in `LexerSpec`
    (lexer_spec.dfy):
    - `ScanAt(src, i)` is one call of `scan_token` at index `i`.
    - `Lexemes(src, i)` is the loop of `scan_tokens`.
    - `Tokenize(src)` is the token vector, or the first error.
  - `LexerProperties` (lexer_props.dfy) proves what the lexer promises about that
    specification: locations, maximal munch of symbols, literals, comments, errors
    and concrete inputs.
- **Parser** (`src/parser.rs`). A shunting-yard parser with an input queue, an
  operator stack and an output queue, all `VecDeque`s.
  - `Parsing.ShuntingYardParser` (parser.dfy) is a class with those three fields
    as sequences. Index 0 of the stack is the deque's front.
  - Its methods are proved against `ParserSpec` (parser_spec.dfy):
    - `Step` is one iteration of the main loop.
    - `Run` is the loop.
    - `Drain` is the final emptying of the stack.
    - `Parse` is the output queue left by `ShuntingYardParser::new`.
  - `ParserProperties` (parser_props.dfy) proves what the algorithm keeps:
    - the stack stays well formed;
    - every token other than parentheses and commas reaches the output exactly once;
    - operands keep their order;
    - parentheses balance;
    - the arms pop exactly the right prefix of the stack.
  - `ParserExamples` (parser_examples.dfy) works through inputs, including the
    program's own demo expression.

The code is followed as written where it departs from the textbook algorithm:

- `is_op` includes `(`, and `(` has no precedence. Rust orders `None` below every
  `Some`, so an incoming `(` first pops every ranked operator off the stack, and the
  separate `(` arm of `parse` is never reached. So `3 * (4 + 5)` parses to
  `3 * 4 5 +` (`ParserExamples.OpenFlushExample`).
- The lexer never emits the `EOF` token: its push is commented out.
- A digit run followed by `.` and no digit lexes as an integer followed by a `Dot`.

Errors become values in the model. The Rust code panics through `error`, the
`unwrap` of `parse::<i64>`, `panic!`, `assert!` and `todo!`. Here each of these is
a `Failure` carrying a `LexError` or a `ParseError`, and the proofs cover those
paths too.

## Model

| member | source | states |
|---|---|---|
| Tokens.Precedence | src/token.rs:104-131 | The binding strength of each variant, level by level as `precedence` lists it, and none for the others; the family lemmas below state its shape |
| Tokens.Associativity | src/token.rs:133-169 | The associativity of each variant as `assoc` lists it, and none for the others |
| Tokens.IsOp | src/token.rs:178-215 | Whether a variant is one `is_op` lists: `(`, the assignments, the unary and the binary operators, and not the comma |
| Tokens.IsFunc | src/token.rs:171-176 | True exactly for an identifier whose name is in the known-functions list; such a token is not an operator and has no precedence |
| Tokens.IsBinding | src/token.rs:217-222 | True exactly for an identifier whose name is in the known-bindings list; such a token is not an operator and has no precedence |
| Tokens.PrecedenceDomain | src/token.rs:104-131 | A token has a precedence exactly when it is the comma, an assignment, a unary or a binary operator |
| Tokens.OnlyOperatorsRanked | src/token.rs:104-131 | Every ranked token is the comma, an assignment, a unary or a binary operator |
| Tokens.CommaPrecedence | src/token.rs:106 | Precedence 0 belongs to the comma and to nothing else |
| Tokens.AssignmentPrecedence | src/token.rs:107-117 | Precedence 1 belongs exactly to the eleven assignment operators |
| Tokens.UnaryPrecedence | src/token.rs:128 | Precedence 13 belongs exactly to `!` and `~` |
| Tokens.BinaryPrecedence | src/token.rs:118-127 | Every binary operator is ranked between 3 and 12 |
| Tokens.AssociativityByFamily | src/token.rs:133-169 | Assignments and unary operators are right-associative; the comma and binary operators are left-associative; a token has an associativity exactly when it has a precedence, and it is right-associative exactly at precedences 1 and 13 |
| Tokens.IsOpByFamily | src/token.rs:178-215 | The operators are exactly `(`, the assignments, the unary and the binary operators; the comma is not one |
| Tokens.OperatorsAreRanked | src/token.rs:104-215 | Every operator but `(` has a precedence and an associativity; these operators are exactly the ranked tokens other than the comma; `(` is an operator with neither |
| Tokens.KeywordTableComplete | src/token.rs:242-263 | Every keyword variant is in the keyword table under its spelling |
| Tokens.KeywordTableSound | src/token.rs:242-263 | Every entry of the keyword table maps a keyword's spelling to that keyword |
| Tokens.KeywordTableInjective | src/token.rs:242-263 | Distinct keyword spellings map to distinct keywords |
| LexerSpec.IsDigit | src/lexer.rs:101-106 | The characters `0` to `9` |
| LexerSpec.IsAlpha | src/lexer.rs:107-112 | The ASCII letters and `_` |
| LexerSpec.IsAlphanumeric | src/lexer.rs:113-115 | A digit or a letter or `_` |
| LexerSpec.Advance | src/lexer.rs:61-70 | The cursor step: a newline moves to column 1 of the next line, any other character one column right |
| LexerSpec.LocAt | src/lexer.rs:61-70 | The location of an index: the cursor after consuming every character before it, starting from line 1, column 1; `LocAtCounts` states it as a line and column count |
| LexerSpec.CharAt | src/lexer.rs:42-59 | The character at an index, or NUL at or past the end, as `peek` and `peek_next` return |
| LexerSpec.Matches | src/lexer.rs:78-87 | The test of `match_char`: not at the end, and the expected character is next |
| LexerSpec.Either | src/lexer.rs:158-168 | A two-character token when the second character matches, else the one-character token |
| LexerSpec.Unescape | src/lexer.rs:369-386 | The character each of the escapes `0 n r t \ "` stands for, and none for any other character |
| LexerSpec.RunEnd | src/lexer.rs:410-412 | The end of the maximal run of digits, identifier characters or non-newlines from an index: every character before it is in the run, and the character at it (if any) is not |
| LexerSpec.StringBody | src/lexer.rs:364-407 | A string body that succeeds ends just after a closing `"`; it fails only with an unterminated-string or invalid-escape error |
| LexerSpec.StringAt | src/lexer.rs:364-407 | A string literal gives a `String` token of its decoded body ending after the closing quote, or the body's error; `StringLexes`, `EscapeRejected` and `Unterminated` state its cases for all inputs |
| LexerSpec.ParseI64 | src/lexer.rs:417-422 | The value of a digit string, defined only within the `i64` range |
| LexerSpec.NumberAt | src/lexer.rs:409-442 | `scan_number`: the digit run, then an integer or its overflow error, or a float through the fraction digits; `NumberLexeme` states it for all inputs |
| LexerSpec.IdentifierAt | src/lexer.rs:444-467 | `scan_identifier`: the maximal identifier run, as the keyword the table gives for it or as an `Identifier`; `IdentifierText` and `WordLexes` state it for all inputs |
| LexerSpec.ScanAt | src/lexer.rs:117-362 | One `scan_token` call that succeeds consumes at least one character and stays inside the source |
| LexerSpec.PunctuationAt | src/lexer.rs:120-157 | The bracket, comma, dot, semicolon and colon arms consume at least one character and stay inside the source |
| LexerSpec.ArithmeticAt | src/lexer.rs:158-216 | The `+ - * / %` arms, comments included, consume at least one character and stay inside the source |
| LexerSpec.OperatorAt | src/lexer.rs:217-350 | The `=`, `!`, `<`, `>`, `&`, bar, `~` and `^` arms consume at least one character and stay inside the source |
| LexerSpec.Lexemes | src/lexer.rs:89-99 | The lexemes found from an index lie in the rest of the source, non-empty, in order and without overlap |
| LexerSpec.ExtendTokens | src/lexer.rs:89-94 | Appending one scan's token to the vector built so far gives the tokens of the lexemes so far plus that scan |
| LexerSpec.Tokenize | src/lexer.rs:15-26 | The tokens `Lexer::new` collects, each located at its lexeme's start and end, or the first scan error |
| Lexing.Lexer.constructor | src/lexer.rs:15-23 | A new lexer holds the source, no tokens, both indices at 0 and both locations at line 1, column 1 |
| Lexing.Lexer.IsAtEnd | src/lexer.rs:38-40 | The current index is at or past the end of the source |
| Lexing.Lexer.Peek | src/lexer.rs:42-48 | The character at the current index, or NUL at the end |
| Lexing.Lexer.PeekNext | src/lexer.rs:50-59 | The character after the current one, or NUL past the end |
| Lexing.Lexer.IncrementPosition | src/lexer.rs:61-70 | Advances the index by one; a newline moves to column 1 of the next line, any other character one column right |
| Lexing.Lexer.Next | src/lexer.rs:72-76 | Returns the current character and advances past it |
| Lexing.Lexer.MatchChar | src/lexer.rs:78-87 | Consumes the expected character exactly when it is next, and reports whether it did |
| Lexing.Lexer.SkipRun | src/lexer.rs:410-412 | Moves the cursor to the end of the maximal run from the current index |
| Lexing.Lexer.AddToken | src/lexer.rs:469-471 | Appends the token to the token vector |
| Lexing.Lexer.AddCurrent | src/lexer.rs:120-124 | Appends a token spanning from the start location to the current location |
| Lexing.Lexer.ScanEither | src/lexer.rs:158-168 | Emits the two-character token when the second character matches and the one-character token otherwise, as the specification's `Either` says |
| Lexing.Lexer.ScanToken | src/lexer.rs:117-362 | One scan does what `ScanAt` says: the same error, or the same end index and the same appended token, if any |
| Lexing.Lexer.ScanPunctuation | src/lexer.rs:120-157 | The punctuation arms do what `PunctuationAt` says |
| Lexing.Lexer.ScanArithmetic | src/lexer.rs:158-216 | The arithmetic and comment arms do what `ArithmeticAt` says |
| Lexing.Lexer.ScanOperator | src/lexer.rs:217-350 | The comparison, logical, bitwise and assignment arms do what `OperatorAt` says |
| Lexing.Lexer.ScanString | src/lexer.rs:364-407 | A string literal is scanned as `StringAt` says: the decoded text as a `String` token, or the unterminated-string or invalid-escape error at the cursor's location |
| Lexing.Lexer.ScanEscape | src/lexer.rs:369-386 | Consumes an escape letter exactly when it is one of `0 n r t \ "`, and returns the character it stands for |
| Lexing.Lexer.ScanNumber | src/lexer.rs:409-442 | A number is scanned as `NumberAt` says |
| Lexing.Lexer.AddInteger | src/lexer.rs:413-424 | Appends the `Integer` token of the digit text, or reports an integer overflow when the text exceeds the `i64` range |
| Lexing.Lexer.AddFraction | src/lexer.rs:425-441 | Consumes the `.` and the fraction digits and appends a `Float` token of the whole text |
| Lexing.Lexer.ScanIdentifier | src/lexer.rs:444-467 | A word is scanned as `IdentifierAt` says: a keyword token if the keyword table has it, an `Identifier` otherwise |
| Lexing.Lexer.ScanTokens | src/lexer.rs:89-99 | The loop appends exactly the tokens `Lexemes` describes and stops at the end of the source, or stops with the first scan error |
| Lexing.Lex | src/lexer.rs:15-26 | Building a lexer yields exactly `Tokenize(source)` |
| LexerProperties.LocAtCounts | src/lexer.rs:61-70 | The line of an index is one more than the newlines before it, and its column is one more than its distance from the line's start |
| LexerProperties.LocAtIncreasing | src/lexer.rs:61-70 | Consuming characters moves the location strictly forward in (line, column) order |
| LexerProperties.LocAtMonotone | src/lexer.rs:61-70 | A later index never has an earlier location |
| LexerProperties.ToTokensAt | src/lexer.rs:89-94 | Each token carries its lexeme's value, and the locations of its start and end indices |
| LexerProperties.LexemesAreScans | src/lexer.rs:89-94 | Every lexeme found is exactly what one `scan_token` call emits at its start index |
| LexerProperties.TokensInSourceOrder | src/lexer.rs:89-99 | Each token is what a scan emits at its lexeme; it starts strictly before it ends; and each token ends at or before the next one starts |
| LexerProperties.LineComment | src/lexer.rs:191-205 | A `//` comment is skipped up to the next newline or the end, and emits nothing |
| LexerProperties.SkipsAreBlanks | src/lexer.rs:352 | A scan emits nothing exactly on whitespace or a `//` comment; whitespace is skipped one character at a time |
| LexerProperties.UnexpectedCharacterOnly | src/lexer.rs:356-360 | The unexpected-character error comes exactly from characters that no arm accepts, and reports the character's location |
| LexerProperties.MunchSound | src/lexer.rs:120-350 | A symbol token is emitted only where its spelling occurs, and the scan consumes exactly that spelling |
| LexerProperties.MunchLongest | src/lexer.rs:120-350 | No symbol that occurs at the scan's start is longer than the one emitted (maximal munch) |
| LexerProperties.MunchComplete | src/lexer.rs:120-350 | Wherever some symbol occurs and no comment starts, the scan emits a symbol token |
| LexerProperties.LocAtOneLine | src/lexer.rs:61-70 | On a line without newlines, index `k` is at column `k + 1` of line 1 |
| LexerProperties.SingleToken | src/lexer.rs:89-99 | A one-line source that one scan consumes whole lexes to that one token, from column 1 to one past its end |
| LexerProperties.DecimalRoundTrip | src/lexer.rs:417-422 | Reading back the decimal text of a number gives the number |
| LexerProperties.IntegerLexes | src/lexer.rs:413-424 | The decimal text of any number within the `i64` range lexes to one `Integer` token of that number |
| LexerProperties.IntegerOverflows | src/lexer.rs:417-422 | The decimal text of any number above the `i64` range is rejected as an overflow |
| LexerProperties.NumberLexeme | src/lexer.rs:409-442 | A scan at a digit reads the maximal digit run; unless a `.` and a digit follow, it emits an `Integer` of the run's decimal value, ending at the run's end, within the `i64` range and an overflow error beyond it; otherwise it emits a `Float` whose text runs through the maximal digit run after the `.` |
| LexerProperties.EscapeChar | src/lexer.rs:368-390 | Writing a character inside a literal takes one plain character, or a backslash followed by the letter that decodes back to it, and never a newline |
| LexerProperties.StringBodyReads | src/lexer.rs:366-391 | Reading an escaped text up to a closing quote decodes it back to the original text |
| LexerProperties.StringLexes | src/lexer.rs:364-407 | Any text, quoted and escaped, lexes to one `String` token of that text (round trip) |
| LexerProperties.EscapeRejected | src/lexer.rs:381-386 | After any well-formed string text, a backslash followed by a character with no escape, or by nothing, is an invalid-escape error at the location just after the backslash |
| LexerProperties.Unterminated | src/lexer.rs:393-398 | Any well-formed string text with no closing quote is an unterminated-string error at the end of the input, one column past the text |
| LexerProperties.WordLexes | src/lexer.rs:444-467 | A word lexes to its keyword if the keyword table has it, and to an `Identifier` of itself otherwise |
| LexerProperties.KeywordLexes | src/lexer.rs:456-461 | Every keyword's spelling lexes to that keyword |
| LexerProperties.IdentifierText | src/lexer.rs:444-467 | An `Identifier` token names the maximal run of identifier characters at its start, which begins with a letter or `_` and is not a keyword |
| LexerProperties.PunctuationIdentifierFree | src/lexer.rs:120-350 | The symbol arms never emit an identifier |
| LexerProperties.IntegerThenDot | src/lexer.rs:413 | `123.` lexes to `Integer(123)` and then `Dot` |
| LexerProperties.LogAndThenEqual | src/lexer.rs:297-317 | `&&=` lexes to `&&` and then `=` |
| LexerProperties.ShiftAssignment | src/lexer.rs:243-267 | `<<=` lexes to one `<<=` token |
| LexerProperties.BadEscape | src/lexer.rs:381-386 | An unknown escape is an invalid-escape error at the location after the backslash |
| LexerProperties.CutOffString | src/lexer.rs:393-398 | A string that reaches the end is an unterminated-string error at the end's location |
| LexerProperties.StrayCharacter | src/lexer.rs:356-360 | A stray `@` is reported at its own line and column |
| LexerProperties.CommentToEndOfLine | src/lexer.rs:191-205 | A comment hides the rest of its line but not the next line |
| LexerProperties.CommentExampleScans | src/lexer.rs:117-362 | The scans and locations of `a // b` followed by a newline and `c`, one by one |
| ParserSpec.OptionGreater | src/parser.rs:41 | Rust's `>` on optional precedences: `None` is below every `Some` |
| ParserSpec.Outranks | src/parser.rs:39-43 | The operator arm's test: the top is an operator other than `(`, and it has a greater precedence than the incoming token, or the same precedence with the incoming token left-associative |
| ParserSpec.IsStackOperator | src/parser.rs:55 | The comma and `)` arms' test: an operator other than `(` |
| ParserSpec.PopToOutput | src/parser.rs:38-50 | A popping loop moves a prefix of the stack, in stack order, to the back of the output; the new top, if any, is one the test rejects |
| ParserSpec.CloseGroup | src/parser.rs:75-88 | The end of the `)` arm: an error on an empty stack or when `(` is not on top; otherwise the `(` is dropped and a known function under it moves to the output |
| ParserSpec.Step | src/parser.rs:33-91 | One iteration of the main loop, arm by arm in source order, ending in the unsupported-token error |
| ParserSpec.Run | src/parser.rs:31-92 | The main loop over the input queue, stopping at the first error |
| ParserSpec.Drain | src/parser.rs:93-102 | The final loop: the stack moves to the output top first, with an error at a leftover `(` |
| ParserSpec.Finish | src/parser.rs:31-102 | The main loop followed by the final loop |
| ParserSpec.Parse | src/parser.rs:27-103 | The output `parse` leaves from an empty stack and output |
| ParserProperties.NoOperandsStacked | src/parser.rs:34-36 | The stack never holds an operand |
| ParserProperties.PoppedByTest | src/parser.rs:38-50 | The test accepts every token a popping loop moves |
| ParserProperties.Popped | src/parser.rs:54-61 | A loop that pops only operators other than `(` moves no parenthesis or comma to the output |
| ParserProperties.PopsLongestPrefix | src/parser.rs:38-50 | A popping loop moves exactly the longest prefix of the stack that its test accepts |
| ParserProperties.StepEffect | src/parser.rs:31-91 | One step keeps the pending tokens (output then stack) except that it inserts the token, unless the token is a comma or `)`, and that a `)` removes one `(`; it appends no parenthesis or comma to the output |
| ParserProperties.StepKeepsStack | src/parser.rs:31-91 | One step keeps the stack well formed: only operators, `(` and functions, and no operator sits on one that outranks it |
| ParserProperties.StepConserves | src/parser.rs:31-91 | One step adds the token to the pending non-parenthesis, non-comma tokens, as a multiset, and loses none |
| ParserProperties.StepBalance | src/parser.rs:66-89 | One step keeps the open `(` count plus the `)` seen equal to the `(` seen |
| ParserProperties.StepKeepsOperandOrder | src/parser.rs:34-35 | One step appends an operand after the pending operands and keeps their order |
| ParserProperties.StepRejects | src/parser.rs:90 | A step fails as unsupported exactly on a token no arm accepts; apart from that it fails only on `)` |
| ParserProperties.RunKeepsStack | src/parser.rs:31-91 | The main loop keeps the stack well formed |
| ParserProperties.RunAppends | src/parser.rs:31-91 | The main loop only appends to the output, and nothing it appends is a parenthesis or comma |
| ParserProperties.RunConserves | src/parser.rs:31-91 | The main loop adds every input token that is not a parenthesis or comma to the pending tokens, as a multiset |
| ParserProperties.RunKeepsOperandOrder | src/parser.rs:31-91 | The main loop keeps operands in input order |
| ParserProperties.RunBalance | src/parser.rs:63-89 | The open `(` count after the main loop is the `(` seen minus the `)` seen |
| ParserProperties.RunPrefix | src/parser.rs:31-91 | If the loop succeeds on an input, it succeeds on every prefix of it |
| ParserProperties.RunSupported | src/parser.rs:90 | The loop succeeds only on inputs every token of which some arm accepts |
| ParserProperties.DrainEmitsPending | src/parser.rs:93-102 | The drain fails exactly when a `(` is left on the stack; otherwise the output is the old output followed by the stack, top first |
| ParserProperties.Finished | src/parser.rs:27-103 | A successful parse outputs the pending tokens of the main loop's final state, none of them a parenthesis or comma, with a well-formed stack |
| ParserProperties.ParseConserves | src/parser.rs:27-103 | The output of a successful parse is a permutation of the input's tokens other than parentheses and commas |
| ParserProperties.ParseKeepsOperandOrder | src/parser.rs:34-35 | The output lists the operands in input order |
| ParserProperties.ParseBalanced | src/parser.rs:63-102 | A successful parse has balanced parentheses: as many `(` as `)`, and no prefix with more `)` than `(` |
| ParserProperties.ParseSupported | src/parser.rs:90 | A successful parse has only tokens some arm accepts |
| ParserProperties.OperatorStep | src/parser.rs:37-52 | An operator pops exactly the longest run of stack tokens that outrank it, in order, and lands on top |
| ParserProperties.CommaStep | src/parser.rs:53-62 | A comma pops exactly the operators above the nearest `(`, function or bottom, and is dropped |
| ParserProperties.OpenOutranked | src/parser.rs:39-43 | Against an incoming `(`, every operator on the stack other than `(` outranks it |
| ParserProperties.OpenStep | src/parser.rs:37-52 | An incoming `(` pops every operator down to the nearest `(`, function or bottom before it is pushed |
| Parsing.ShuntingYardParser.constructor | src/parser.rs:11-16 | A new parser holds the input queue, an empty stack and an empty output queue |
| Parsing.ShuntingYardParser.PopWhile | src/parser.rs:38-50 | The popping loop leaves the stack and output `PopToOutput` describes |
| Parsing.ShuntingYardParser.CloseGroup | src/parser.rs:75-88 | After its popping loop, `)` fails on an empty stack, fails unless `(` is on top, pops the `(`, and moves a function under it to the output |
| Parsing.ShuntingYardParser.Parse | src/parser.rs:27-103 | Parsing empties the input and the stack and leaves the output `Finish` describes, or stops with its error |
| Parsing.ShuntingYard | src/parser.rs:11-19 | Building a parser yields exactly `Parse(input)` |
| ParserExamples.PrecedenceExample | src/parser.rs:37-52 | `3 + 4 * 2` becomes `3 4 2 * +` |
| ParserExamples.LeftAssociativeExample | src/parser.rs:39-43 | `3 - 4 - 2` becomes `3 4 - 2 -` |
| ParserExamples.RightAssociativeExample | src/parser.rs:39-43 | `x = y = 3` becomes `x y 3 = =` |
| ParserExamples.GroupExample | src/parser.rs:66-89 | `(3 + 4) * 2` becomes `3 4 + 2 *` |
| ParserExamples.DemoExample | src/main.rs:21-28 | The demo `x = max(10, 1309, x * 2 + y)` becomes `x 10 1309 x 2 * y + max =` |
| ParserExamples.OpenFlushExample | src/parser.rs:37-65 | `3 * (4 + 5)` becomes `3 * 4 5 +`, because `(` takes the operator arm and pops the `*` |
| ParserExamples.UnopenedExample | src/parser.rs:75-77 | A `)` with nothing open is a mismatched-parentheses error |
| ParserExamples.UnclosedExample | src/parser.rs:93-97 | A `(` still open at the end is a mismatched-parentheses error |
| ParserExamples.CallWithoutParenExample | src/parser.rs:78-81 | A `)` right after a function name fails the check that `(` is on top |
| ParserExamples.StringExample | src/parser.rs:90 | A string literal is unsupported |
| ParserExamples.UnknownNameExample | src/parser.rs:90 | An identifier that is neither a known function nor a known binding is unsupported |

## Left out

- `main` (src/main.rs) runs the demo and prints, and is not modelled. Its demo
  expression is `ParserExamples.DemoExample`, with hand-built tokens.
- `Lexer::emit`, `ShuntingYardParser::emit` and `debug_stack` only print.
- Panics are not modelled as aborts. `error`, the `unwrap`s, `panic!`, `assert!`
  and `todo!` become `Failure` values that stop the loop, and no later state is
  promised.
- Floats are not parsed into `f64`. A `Float` token holds the digit text it was
  scanned from.
- Indices are indices into a `seq<char>`. The Rust code mixes byte slicing with
  `chars().nth`; the two agree on ASCII text.
- Line, column and index counters are unbounded. The `u32` overflow of the Rust
  counters is not modelled.
- `KEYWORD_TABLE` is a constant map, not a lazily built `HashMap`.
- `scan_token` is split by arm group (`ScanPunctuation`, `ScanArithmetic`,
  `ScanOperator`). The number arm is split into `AddInteger` and `AddFraction`.
  Inside each group the arms keep the source's order. At the top level the order
  differs: `ScanAt` and `ScanToken` test for `"`, whitespace, a digit and a letter
  first, and only then try the symbol arms, which the source lists first. The result
  is the same because these character classes are disjoint.
- Parsing.ShuntingYardParser.Parse: the `(` arm (src/parser.rs:63-65) has no branch
  of its own, because `(` always takes the operator arm before it.
- Parsing.ShuntingYardParser.constructor: the known function and binding lists are
  parameters. `parse` builds them as constants (`max`, `sin`; `x`, `y`), and the
  examples pass those values.
- The parser's tokens in `ParserExamples` are built by hand rather than by lexing,
  so their locations are illustrative.
- Tokens.BinaryPrecedence: states the 3 to 12 range rather than each operator's
  level. The levels are the table itself, and the examples use the ones they need.
