# Assembly front end: lexer and parser

This project models the two front-end stages of a small assembly emulator:

- the lexer (`src/lexer.rs`), which turns a program text into tokens;
- the parser (`src/parser.rs`), which groups those tokens into productions.

The lexer produces four kinds of token:

- operators `add`, `sub` and `mov`, in any letter case;
- registers such as `%r1`;
- immediates such as `12`;
- labels such as `.main`.

Each token records the row and column the lexer reached once the token was
consumed. The parser pulls tokens one at a time and counts every pull. A label
becomes a `Label` production that remembers the pull number of its identifier.
An operator becomes an `Expr` holding up to two register operands.

Each stage has two layers:

- Pure specification functions on a `Cursor` over the whole input, in modules
  `Lexing` and `Parsing`. `ScanToken` specifies one call of `parse_token`,
  `Pull` one call of `_next_token`, `BuildExpression` one call of
  `handle_expression`, and `ParseFrom` the loop of `parse`.
- Classes with the source's mutable state: `Lexing.Lexer` and
  `Parsing.Parser`. `Lexing.Lexer` has the fields `pos`, `row` and `col`.
  `pos` is the index of the current character in the input, so it stands
  for the source's `cur` and `file_pos` together; `cur` itself is the
  function `Cur()`. `Parsing.Parser` holds the owned lexer and the pull
  counter `position`. Each method is proved to return exactly what the matching
  function returns and to leave the state the function describes.

Every panic that an input can trigger is an error value: `LexError` for the
lexer, `ParseError` for the parser. The cursor that the panicking call would
leave is still modelled. The one exception is the `Unreachable` panic of
`handle_expression`, which is a precondition instead (see "Left out").

The properties are proved in the modules `LexingFacts` and `ParsingFacts`.

- For the lexer, they characterise each token kind completely, stating both
  when it is accepted and what it holds.
- For the parser, they relate `parse` to an independent grammar `Group` over
  the lexer's token list. Parsing succeeds exactly when the tokens lex and
  group, with the same productions. When the input does not lex, `parse`
  reports the lexer's error exactly when the tokens before it group;
  otherwise it fails on the grammar first. `Group` and `Flatten` are proved inverse
  on the well-formed productions.

Every unit test of both files is restated as a lemma or method in `LexingExamples` or
`ParsingExamples`.

## Model

| member | source | states |
|---|---|---|
| Lexing.FromStr | src/lexer.rs:17-27 | `from_str`: only `add`, `sub` and `mov` are ever produced, and a refused word is reported in lowercase; the full characterisation is `FromStrAccepts` |
| Lexing.Consumed | src/lexer.rs:56-59 | `consume`: one more column, the same row, and the position moves to the next character or stays at the end |
| Lexing.FromStrAccepts | src/lexer.rs:14-28 | `from_str` accepts exactly the words whose lowercase spelling is `add`, `sub` or `mov`, mapping each to its operator; `EQ`, `NEQ`, `JMP` are never produced; a rejected word is reported in its lowercased form |
| Lexing.LookupMnemonics | src/lexer.rs:18-26 | the arms of the match are tried in source order |
| Lexing.WordEnd | src/lexer.rs:157-163 | the end of a word is the first whitespace at or after the start, or the end of input |
| Lexing.DigitsEnd | src/lexer.rs:87-98 | the end of a digit run is the first non-digit at or after the start, or the end of input |
| Lexing.SkipSpace | src/lexer.rs:63-71 | the skipping loop, one `SkipStep` per whitespace character, never moves backwards nor past the input; what it skips is proved in `SkipSpaceStops`, `SkipSpaceRow` and `SkipSpaceCol` |
| Lexing.ScanImmediate | src/lexer.rs:86-100 | `intermediate`: the cursor stays in bounds; a token holds the dispatch digit and then digits only, with the row and column after its delimiter; an error names a character that is neither digit nor whitespace; the full characterisation is `ImmediateBody` and `ImmediateScan` |
| Lexing.ScanRegister | src/lexer.rs:101-137 | `register`: at most two characters are consumed; a token is the sigil, a letter and a digit, and ends two characters on; the full characterisation is `RegisterBody`, `RegisterScan` and `RegisterErrors` |
| Lexing.ScanIdent | src/lexer.rs:138-155 | `ident`: refused exactly when whitespace follows the marker, and then nothing is consumed; a token is the marker followed by non-whitespace only; the full characterisation is `IdentBody` and `IdentScan` |
| Lexing.ScanOp | src/lexer.rs:156-166 | `op`: a token is one of `add`, `sub` or `mov` with the row and column after its delimiter, and every error is an unsupported operation; the full characterisation is `OpBody`, `OpScan` and `OpAccepted` |
| Lexing.Dispatch | src/lexer.rs:74-81 | the first significant character alone decides the kind of token: a digit gives an immediate, `%` a register, `.` a label, anything else an operator; `EOF` is never returned |
| Lexing.ScanToken | src/lexer.rs:61-84 | `parse_token` never moves backwards, returns `EOF` exactly when only whitespace is left, and any other token consumes input |
| Lexing.TokensBefore | src/lexer.rs:61-84 | the tokens repeated calls of `parse_token` return before the first error or `EOF`: the whole token list when the input lexes, and never `EOF` itself |
| LexingFacts.TokensAfter | src/lexer.rs:61-84 | a scanned token other than `EOF` goes in front of the tokens that follow it, both in the token list and in the tokens before an error |
| Lexing.Lexer.constructor | src/lexer.rs:47-54 | a new lexer starts at row 0, column 0 with `cur` the first character |
| Lexing.Lexer.Consume | src/lexer.rs:56-59 | `consume` adds one column, keeps the row, and moves `cur` to the next character or leaves it absent |
| Lexing.Lexer.ParseToken | src/lexer.rs:61-84 | the loop returns what `ScanToken` returns and leaves the cursor where `ScanToken` says |
| Lexing.Lexer.LexImmediate | src/lexer.rs:86-100 | `intermediate` returns what `ScanImmediate` returns, cursor included |
| Lexing.Lexer.LexRegister | src/lexer.rs:101-137 | `register` returns what `ScanRegister` returns, cursor included |
| Lexing.Lexer.LexIdent | src/lexer.rs:138-155 | `ident` returns what `ScanIdent` returns, cursor included |
| Lexing.Lexer.LexOp | src/lexer.rs:156-166 | `op` returns what `ScanOp` returns, cursor included |
| LexingFacts.SkipSpaceStops | src/lexer.rs:63-71 | skipping stops at the first non-whitespace character or at the end, and everything skipped is whitespace |
| LexingFacts.SkipSpaceRow | src/lexer.rs:65-69 | the row grows by the number of skipped newlines |
| LexingFacts.SkipSpaceCol | src/lexer.rs:56-71 | without a newline the column grows by the number of skipped characters; after one it counts the characters skipped since the last newline |
| LexingFacts.WordEndIs | src/lexer.rs:157-163 | the end of a word is unique |
| LexingFacts.DigitsEndIs | src/lexer.rs:87-98 | the end of a digit run is unique |
| LexingFacts.SkipSpaces | src/lexer.rs:63-71 | skipping a run of spaces moves the column by its length |
| LexingFacts.TokensChain | src/lexer.rs:61-84 | successive calls of `parse_token` that end in `EOF` produce exactly their tokens |
| LexingFacts.EofExactlyWhenBlank | src/lexer.rs:63-83 | `EOF` is returned exactly when the rest of the input is whitespace |
| LexingFacts.EofIsStable | src/lexer.rs:63-83 | at the end of input `EOF` is returned and the cursor stays; after an `EOF` every further call returns `EOF` |
| LexingFacts.TokensNil | src/lexer.rs:63-71 | a scan that returns `EOF` ends the token list with nothing more |
| LexingFacts.RegisterBody | src/lexer.rs:101-137 | once the sigil is consumed, `register` accepts exactly a letter then a digit, reports each panic case, and stops right after the digit |
| LexingFacts.ImmediateBody | src/lexer.rs:86-100 | once the first digit is consumed, `intermediate` keeps the digit run, stops after its delimiter, and reports the first non-digit |
| LexingFacts.IdentWord | src/lexer.rs:138-155 | a marker followed by a non-whitespace character gives the whole word up to the next whitespace |
| LexingFacts.IdentLone | src/lexer.rs:138-147 | a marker at the very end gives the label `.` and two columns |
| LexingFacts.IdentBody | src/lexer.rs:138-155 | once the marker is consumed, `ident` refuses exactly a following whitespace and otherwise returns the word |
| LexingFacts.OpBody | src/lexer.rs:156-166 | once the first character is consumed, `op` reads the word to the next whitespace, consumes the delimiter, and resolves the word with `from_str` |
| LexingFacts.RegisterScan | src/lexer.rs:101-137 | a register is accepted exactly when a letter and then a digit follow the sigil; it holds those three characters and ends right after the digit |
| LexingFacts.RegisterErrors | src/lexer.rs:102-132 | each panic of `register`: missing character, whitespace, or wrong character class in either slot |
| LexingFacts.ImmediateScan | src/lexer.rs:86-100 | an immediate is accepted exactly when its digit run ends at whitespace or at the end of input; otherwise the first non-digit is reported |
| LexingFacts.IdentScan | src/lexer.rs:138-155 | a label is refused exactly when whitespace follows the marker; otherwise it is the marker and the rest of the word; a lone `.` at the end gives `.` with two columns consumed |
| LexingFacts.OpScan | src/lexer.rs:156-166 | an operator word runs up to whitespace and is resolved by `from_str`; the delimiter is consumed |
| LexingFacts.OpAccepted | src/lexer.rs:156-166 | an operator token is accepted exactly when its word lowercases to `add`, `sub` or `mov` |
| LexingFacts.TokenPosition | src/lexer.rs:86-166 | every token carries the row and column of the cursor after it; the column is the skip point's column plus the characters consumed |
| LexingExamples.ConsumeTest | src/lexer.rs:173-192 | on a fresh lexer over `A String`, `cur` is `A`, and after each of seven calls of `consume` it is the next character, ending at `g` |
| LexingExamples.IdentExampleBare | src/lexer.rs:194-198 | `.label` lexes as `Ident(".label", 0, 6)` |
| LexingExamples.IdentExamplePadded | src/lexer.rs:199-201 | ` .label ` lexes as `Ident(".label", 0, 8)` |
| LexingExamples.IdentExampleLetter | src/lexer.rs:202-204 | `.l` lexes as `Ident(".l", 0, 2)` |
| LexingExamples.IdentExampleDigit | src/lexer.rs:205-207 | `.1` lexes as `Ident(".1", 0, 2)` |
| LexingExamples.IdentExampleDigitPadded | src/lexer.rs:208-210 | ` .1 ` lexes as `Ident(".1", 0, 4)` |
| LexingExamples.RegisterExamples | src/lexer.rs:213-222 | `%r1` lexes as `Register("%r1", 0, 3)`; `register` on `r1` with `%` already read gives `Register("%r1", 0, 2)` |
| LexingExamples.LoneMarkerExamples | src/lexer.rs:138-155 | a lone `.` gives `Ident(".", 0, 2)`; `. x` is refused as an empty label |
| LexingExamples.FromStrIgnoresCase | src/lexer.rs:17-21 | `ADD`, `add`, `Sub`, `SUB` and `mov` are accepted as their operators |
| LexingExamples.FromStrRejectsControl | src/lexer.rs:17-25 | `EQ`, `NEQ` and `JMP` are rejected, reported in lowercase |
| LexingExamples.SampleTokens | src/lexer.rs:224-248 | the multi-line program lexes to the seven tokens the test lists, with their rows and columns |
| Parsing.Pull | src/parser.rs:82-88 | each pull adds one to the counter, never moves the cursor backwards, and gives `None` exactly when the lexer returns `EOF` |
| Parsing.BuildExpression | src/parser.rs:60-80 | `handle_expression`, starting from `NewExpression` (`Expression::new`, src/parser.rs:13-19): the cursor never moves backwards and a success is always an `Expr`; its full behaviour is `BuildExpressionResult` and `BuildSteps` |
| Parsing.ParseFrom | src/parser.rs:44-58 | the loop of `parse` from any state: the productions already built are kept as a prefix, no `EOF` production is ever added, the counter grows, and success means the lexer has reached `EOF`; the full characterisation is `ParseIsGrouping` |
| Parsing.Parse | src/parser.rs:36-58 | `Parser::new(code).parse()` never returns the `EOF` production; its soundness and completeness against the grammar are `ParseSound` and `ParseComplete` |
| Parsing.Parser.constructor | src/parser.rs:36-42 | a new parser owns a fresh lexer at the start of the code, with the counter at 0 |
| Parsing.Parser.NextToken | src/parser.rs:82-88 | `_next_token` returns what `Pull` returns and leaves the counter one higher |
| Parsing.Parser.HandleExpression | src/parser.rs:60-80 | `handle_expression` returns what `BuildExpression` returns, state included |
| Parsing.Parser.Parse | src/parser.rs:44-58 | the loop of `parse` returns what `ParseFrom` returns, state included |
| ParsingFacts.ParseIsGrouping | src/parser.rs:44-88 | from any state, `parse` succeeds exactly when the remaining tokens lex and group, and then returns their productions; when the tokens do not lex, the error is the lexer's first error exactly when the tokens scanned before it group, and a grammatical error otherwise |
| ParsingFacts.GroupFlattens | src/parser.rs:44-80 | grouping keeps every token in order, builds only well-formed productions, lets only the last expression run short, and numbers each label by its pull |
| ParsingFacts.FlattenGroups | src/parser.rs:44-80 | the tokens of any well-formed, numbered production list group back into exactly that list |
| ParsingFacts.GroupLabels | src/parser.rs:44-58 | a label's position is the pull number of its own identifier |
| ParsingFacts.ParseSound | src/parser.rs:44-88 | whatever `parse` returns is the token list cut into well-formed productions whose labels carry the one-based pull number of their identifier |
| ParsingFacts.ParseComplete | src/parser.rs:44-88 | a program whose tokens are those of well-formed, numbered productions parses to exactly them |
| ParsingFacts.ParseLexicalErrors | src/parser.rs:44-88 | a lexical error from `parse` is the lexer's first error, and a program that does not lex is refused |
| ParsingFacts.BuildExpressionResult | src/parser.rs:60-80 | an expression keeps its operator and is well formed; it is short only when the input is used up; a refused operand is a real non-register token |
| ParsingFacts.PullAtEnd | src/parser.rs:82-88 | at the end of input every pull gives `None`, still counts, and leaves the cursor where it is |
| ParsingExamples.AddPulls | src/parser.rs:110-124 | on `add %r1 %r2` the first three pulls give the operator and the two registers, and the fourth gives `None` |
| ParsingExamples.NextTokenTest | src/parser.rs:110-124 | the same four calls on a `Parser` object |
| ParsingExamples.AddParses | src/parser.rs:96-108 | `add %r1 %r2` parses to one expression holding both registers |
| ParsingExamples.ParseTest | src/parser.rs:96-108 | the same on a `Parser` object |
| ParsingExamples.GrammarBeforeLexing | src/parser.rs:44-58 | `7 %` does not lex, yet `parse` refuses the immediate `7` before it pulls the bare `%` |
| ParsingExamples.LexingAfterExpression | src/parser.rs:44-58 | `add %r1 %r2 %` is refused with the lexer's error for the bare `%`, because the expression before it is complete |
| ParsingExamples.SampleParse | src/parser.rs:67-78 | the multi-line program is refused at the immediate `1`, where `SUB` expects a register |

## Left out

- `src/main.rs` is not part of this model. It reads the file and drives the stages, which is I/O.
- Character classes: `char::is_whitespace`, `is_numeric` and `is_alphabetic` are modelled on ASCII (whitespace is space and `'\t'`..`'\r'`). `to_lowercase` is modelled on ASCII letters only, so Unicode text is not captured.
- Token rows and columns are `u32` and the parser's `position` is `u64`; the model uses unbounded naturals and does not model overflow.
- Panics become error values. Their message text, the partially built token and the unwinding are not modelled.
- The `tokens` field of `Parser` is never read or written after `new`, so it is omitted.
- `handle_expression`'s `operator` parameter is never used, so it is omitted.
- `handle_expression`'s `Unreachable` panic (src/parser.rs:64) is a precondition `token.Op?` on `Parsing.Parser.HandleExpression`, and `BuildExpression` does not check its operator. `parse` only calls it with an `Op` token, so no input reaches that panic.
- The `Cell`/`RefCell` interior mutability of `Parser` becomes ordinary fields changed by methods with `modifies` clauses.
- `from_str`'s table lists `"EQ"`, `"NEQ"` and `"JMP"` after lowercasing the word, so those arms cannot match. The model follows the code: those three operators are never produced, and `FromStrAccepts` proves it.
- The multi-line program of the lexer test is parsed as written. `SUB %r1 1` is refused because the second operand of an expression must be a register.
