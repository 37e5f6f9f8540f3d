# A simple-precedence recognizer, modelled in Dafny

The Go program reads lines of a small imperative language. The language has
nested blocks `{ … }`, assignment `:=`, the operators `#`, `!` and `&`, and
`while` loops, and every input ends with `$`. For each line the program decides
whether it belongs to the language. It works in two stages.

- **Tokenizer** (`lexer.go`). A byte-by-byte scanner (`ReadChar`,
  `SkipWhitespace`, `ReadIdentifier`, `ReadNumber`, `NextToken`) feeds
  `StackOfTokens`. That function collects the token types up to the EOF token
  that `$` produces, and returns them on a stack with the first token on top.
- **Engine** (`main.go`). `algorithm` runs a shift/reduce loop over two stacks.
  The work stack holds (symbol, relation) entries above an `(EOF, 0)` sentinel.
  The other stack holds the remaining input symbols. The loop is driven by two
  fixed tables:
  - `parsing_table` gives the precedence relation `<`, `=` or `>` between the
    top of the work stack and the next input symbol.
  - `reduce_table` gives the nonterminal that a handle reduces to.

The Dafny project follows that structure, one module per concern:

| file | module | contents |
|---|---|---|
| `wrappers.dfy` | `Wrappers` | `Option` and `Result` |
| `stacks.dfy` | `Stacks` | stacks as sequences whose top is the last element |
| `lexer.dfy` | `Lexer` | the scanner and `StackOfTokens` |
| `grammar.dfy` | `Grammar` | the nonterminals, `parsing_table` as `Precedence`, `reduce_table` as `Reduction` |
| `parser.dfy` | `Parser` | the loop of `algorithm` as a total `Step` and a terminating `Run`, with explicit rejections |
| `source_loop.dfy` | `SourceLoop` | the loop exactly as the Go code runs it, and lemmas relating it to `Parser` |
| `examples_lexer.dfy` | `LexerExamples` | concrete scans |
| `examples_parser.dfy` | `ParserExamples` | concrete runs of the loop, configuration by configuration |

## How the model reads the Go code

**Input and position.**
- Input is a sequence of bytes, because Go indexes strings bytewise.
- The Go lexer keeps `position` one past the byte in `current` (`ReadChar`,
  lexer.go:50-57). The model keeps only the index of the current byte.
- `Current(s, i)` is the byte Go holds in `current`. It is the NUL byte when
  `i == |s|`, as `ReadChar` sets it at the end of the input.

**Character classes.**
- `IsLetter` is `unicode.IsLetter` applied to a byte read as a Latin-1 code
  point: the ASCII letters plus 0xAA, 0xB5, 0xBA, 0xC0-0xD6, 0xD8-0xF6 and
  0xF8-0xFF.
- `IsDigit` is `unicode.IsDigit`, which on bytes is exactly the ASCII digits.

**Stacks.**
- Stacks are sequences whose top is the last element.
- `StackOfTokens` reverses the collected types and then pushes them in that
  order. So the stack it returns has the EOF at index 0 and the first token
  on top.

**Termination.** `Run` needs no fuel. Every step lowers a measure:
- Each nonterminal has a rank. Every reduction yields a symbol of higher rank
  than the symbol on top of the handle.
- Input symbols weigh `2 * (9 - rank) + 1`; work-stack symbols weigh
  `2 * (9 - rank)`.
- A stack of n tokens therefore finishes within `19 * n + 18` steps.

### Where the model departs from the Go code

The Go loop has no defined outcome in four places. `Parser.Step` turns each
into an explicit rejection:

| situation | what the Go code does | what the model returns |
|---|---|---|
| no `parsing_table` entry for the pair (main.go:218) | changes nothing, so the loop never ends | `Reject(UnexpectedSymbol(top, next))` |
| `>` with no `reduce_table` entry (main.go:225-227) | pops the handle anyway | `Reject(NoReduction(next, top))` |
| the handle search meets no `<` (main.go:228-234) | pops the sentinel, then fails a type assertion on the nil that `Peek` returns | `Reject(MalformedHandle)` |
| an Error token (lexer.go:160-165) | returns an empty token stack; the test at main.go:212 fails on the sentinel before it reaches the token stack, and at main.go:217 `Peek` on that empty stack returns nil, whose `.(string)` assertion panics | `Rejected(LexicalError(BadCharacter(offset, byte)))` |

The same goes for a `:` as the last byte. lexer.go:103 indexes past the end of
the input and panics; the model returns `LexicalError(ColonAtEnd(offset))`.

`Parser.StepKeepsInvariant` and `Parser.RunKeepsInvariant` show that the
second and third rows never happen from a token stack that `StackOfTokens`
builds. `SourceLoop` models the loop without these departures and relates the
two.

### Tokenizer behaviour modelled as written

These are kept as the Go code has them, not as a reader of the grammar might
expect:
- **No word boundary after `while`.** A `w` that starts `while` is the keyword
  even when letters follow it, so `whilex$` scans as While, Identifier, EOF
  (`LexerExamples.ScanWhileWithoutBoundary`). A reader of the grammar would
  expect a word boundary; the model follows the code.
- **A lone `w`.** A `w` that does not start `while` leaves the token at its zero
  value: type `""`, here `Untyped`, with empty text. One byte is consumed, so
  `wx$` scans as Untyped, Identifier, EOF (`LexerExamples.ScanLoneW`). An
  identifier can therefore never start with `w`. No relation of
  `parsing_table` involves `Untyped`.
- **Runs at the end of the input.** An identifier or number run that reaches
  the end of the input loses its last byte: Go's `position` stops at
  `len(input)` and the text is `input[start:position-1]`. This never shows in
  a successful scan, which ends at a `$`.
- **Input without `$`.** The scan fails, at the latest on the NUL past the
  end, which is an Error token (`Lexer.Tokenize`). Every example text that
  scans successfully therefore ends in `$`, among them `{while a{b:=1}}$`, a loop whose body
  assigns a number.

## Model

| member | source | states |
|---|---|---|
| `Stacks.PushAll` | lexer.go:172-174 | pushing a sequence in order leaves the stack below unchanged and puts the sequence's last element on top |
| `Stacks.PushAllOntoEmpty` | lexer.go:172-174 | pushing onto the empty stack gives a stack equal to the pushed sequence |
| `Lexer.SkipWhitespace` | lexer.go:60-64 | the result is the first index at or after i whose byte is not space, tab, newline or carriage return; everything skipped is whitespace |
| `Lexer.RunEnd` | lexer.go:67-82 | the loops of ReadIdentifier and ReadNumber stop at the first byte outside the run, or at the end of the input |
| `Lexer.RunEndIsMaximal` | lexer.go:67-82 | a run started on a byte of the run is non-empty and cannot be extended |
| `Lexer.TokenAt` | lexer.go:88-137 | only a `:` as the last byte fails; the six punctuation bytes give their own types, `$` gives EOF, `while` gives While, a `w` not starting `while` gives the zero-value type, `:=` gives Assign, a letter other than `w` an Identifier, a digit a Number, and each exactly in those cases |
| `Lexer.TokenAtSpan` | lexer.go:95-136 | fixed tokens consume exactly their spelling (`while` five bytes, `:=` two), EOF consumes nothing and an Error at most one byte, a lone `w` one byte, and no token other than EOF and Error spans a `$` |
| `Lexer.TokenAtText` | lexer.go:91-133 | fixed tokens carry their spelling, Error carries the offending byte (NUL past the end), a lone `w` carries empty text, and no token other than Error holds whitespace |
| `Lexer.TokenAtRun` | lexer.go:67-82 | an identifier is a maximal letter/digit run and a number a maximal digit run; its text is the run, minus the last byte when the run reaches the end of the input |
| `Lexer.TokenAtDollarFree` | lexer.go:95-129 | a token other than EOF and Error contains no `$` |
| `Lexer.TokenAtInInput` | lexer.go:91-133 | the text of a token read inside the input is the input at the token's offset |
| `Lexer.NextToken` | lexer.go:85-138 | NextToken fails exactly when the first byte after the whitespace is a `:` that ends the input; otherwise the token starts after whitespace only, on a non-whitespace byte, and every token but EOF and Error consumes input |
| `Lexer.ScanFrom` | lexer.go:154-166 | a successful scan ends with exactly one EOF and holds no Error |
| `Lexer.ScanLaid` | lexer.go:154-166 | the lexemes of a successful scan lie in the input in order, separated by whitespace only; each one's text is the input at its offset, and each is what NextToken finds there |
| `Lexer.ScanFailure` | lexer.go:102-166 | a failed scan reports either a `:` as the last byte, or the offset and byte of an Error: a `:` followed by something other than `=`, or a byte no token starts with (the NUL past the end included); the scan reaches that offset through tokens other than EOF and Error, the token there stops it, and no `$` lies before it |
| `Lexer.ReadsUpToUnique` | lexer.go:154-166 | the path of the scan from a given index is determined: two runs of non-stopping lexemes that each end at a stopping token are the same run and end at the same offset |
| `Lexer.ScanFailsAtFirstStop` | lexer.go:154-166 | a failed scan reports the offset of the first token that stops the loop, not of a later one |
| `Lexer.ScanEndsAtFirstDollar` | lexer.go:118-120 | a successful scan ends at the first `$` of the input |
| `Lexer.ScanRunsComplete` | lexer.go:121-129 | in a successful scan every identifier and number is a maximal run, and its text is exactly that run |
| `Lexer.ScanTokensHaveNoSpace` | lexer.go:60-64 | no token of a successful scan holds a space, tab, newline or carriage return |
| `Lexer.Tokenize` | lexer.go:150-166 | the collected types end with exactly one EOF and hold no Error; an input without `$` always fails |
| `Lexer.Reverse` | lexer.go:168-170 | the in-place swap loop puts element k at position n - 1 - k |
| `Lexer.ReverseUndone` | lexer.go:168-170 | popping every element of the reversal gives back the original order |
| `Lexer.BuildStack` | lexer.go:168-174 | the stack holds the types in reverse order, so repeated pops give them back in input order |
| `Lexer.StackOfTokens` | lexer.go:150-177 | on success the EOF is at the bottom and nowhere else, no Error is on the stack, and popping everything gives the tokens in input order; a failure is exactly a failed scan |
| `Grammar.Reduction` | main.go:144-186 | every reduce_table key in the lookahead column is a token type; every reduction yields a nonterminal of higher rank than the handle's top; Program is produced only from `}` in front of EOF |
| `Grammar.Precedence` | main.go:31-142 | every `>` has a token type in the lookahead column and a reduce_table entry; the finish entry is exactly (Program, EOF); EOF is never shifted; over the sentinel only `<` is defined; Program is shifted only onto the sentinel; the zero-value type relates to nothing |
| `Parser.Initial` | main.go:205-208 | the work stack starts as the sentinel alone, whose relation is not `<`; the input is the token stack, symbol for symbol |
| `Parser.HandleStart` | main.go:228-234 | the handle starts at the topmost `<`-marked entry above the sentinel; when there is none, no entry above the sentinel is marked `<` |
| `Parser.Step` | main.go:210-237 | accepts exactly on Program over EOF; rejects with UnexpectedSymbol exactly when no relation holds; `<` and `=` move the next symbol onto the work stack, marked with the relation, and change nothing else; `>` with a reduce_table entry and a `<` above the sentinel always goes on: it pushes the reduced nonterminal onto the input and pops down to and including the topmost `<`, leaving everything below untouched; NoReduction and MalformedHandle happen exactly when reduce_table has no entry or no `<` is found, and no step rejects for any other reason or about any other pair |
| `Parser.Shift` | main.go:219-222 | a shift lowers the termination measure |
| `Parser.Reduce` | main.go:223-235 | a reduction lowers the termination measure |
| `Parser.Run` | main.go:210-237 | the loop stops exactly where a step accepts or rejects, for that step's reason, within as many steps as the start measure |
| `Parser.StepKeepsInvariant` | main.go:210-237 | from a reachable configuration a step never lacks a reduction or a handle start, accepts only in the final configuration, and leads to a reachable configuration |
| `Parser.RunKeepsInvariant` | main.go:210-237 | from a reachable configuration the loop rejects only for a missing precedence relation, and accepts only with Program over the sentinel and EOF left |
| `Parser.InitialFacts` | main.go:205-208 | the start configuration's measure is linear in the number of tokens, and the configuration is reachable when EOF is only at the bottom |
| `Parser.Parse` | main.go:204-237 | the loop on a token stack ends within 19n + 18 steps; on a stack StackOfTokens builds, only a missing relation rejects, and acceptance leaves Program over the sentinel and EOF |
| `Parser.Algorithm` | main.go:204-238 | a lexical error is the verdict exactly when StackOfTokens fails, carrying its offset and byte; otherwise only a missing relation rejects; an input without `$` is never accepted |
| `SourceLoop.PopHandle` | main.go:228-234 | the Go pop loop stops right after popping the topmost `<`-marked entry and leaves every entry below it untouched; it panics exactly when no entry is marked `<` |
| `SourceLoop.StepAgrees` | main.go:210-237 | on anchored stacks the Go pass and Step agree where Step goes on or accepts; where Step rejects for want of a relation the Go pass leaves the configuration unchanged; where Step finds no handle start the Go pass panics |
| `SourceLoop.SpinFrom` | main.go:210-237 | once the Go loop reaches a configuration that its next pass leaves unchanged, it stays there for every further pass |
| `SourceLoop.SourceAcceptsLikeRun` | main.go:210-215 | whenever the model accepts, the Go loop reaches the same configuration after the same number of passes and breaks there |
| `SourceLoop.SourceReachesRejection` | main.go:210-237 | whenever the model rejects for want of a relation, the Go loop reaches the configuration the model stops in, after as many passes, and its next pass leaves it unchanged |
| `SourceLoop.SourceSpinsOnUnexpectedSymbol` | main.go:218 | wherever the model rejects for want of a relation, the Go loop never returns: it is still in that configuration after any number of further passes |
| `LexerExamples.ScanWhileLoop` | lexer.go:85-166 | `{while a{b:=1}}$` scans as `{`, While, Identifier, `{`, Identifier, Assign, Number, `}`, `}`, EOF |
| `LexerExamples.ScanTrailingSemicolon` | lexer.go:85-166 | `{a:=1;}$` scans as `{`, Identifier, Assign, Number, `;`, `}`, EOF |
| `LexerExamples.ScanWhileWithoutBoundary` | lexer.go:95-99 | `whilex$` scans as While, Identifier, EOF |
| `LexerExamples.ScanLoneW` | lexer.go:95-99 | `wx$` scans as the zero-value type, Identifier, EOF |
| `LexerExamples.ScanColonAtEnd` | lexer.go:102-103 | `a:` fails at the `:` at offset 1, which is the last byte |
| `LexerExamples.ScanColonBeforeLetter` | lexer.go:102-111 | `a:b$` fails with an Error at offset 1 carrying the `:` |
| `ParserExamples.WhileLoopStack` | lexer.go:150-177 | the token stack of `{while a{b:=1}}$` has `{` on top and EOF at the bottom |
| `ParserExamples.WhileLoopRun` | main.go:210-237 | the loop accepts `{while a{b:=1}}$` after 35 steps |
| `ParserExamples.WhileLoopVerdict` | main.go:204-238 | `{while a{b:=1}}$` is accepted after 35 steps, with Program over the sentinel and EOF left |
| `ParserExamples.TrailingSemicolonStack` | lexer.go:150-177 | the token stack of `{a:=1;}$` |
| `ParserExamples.TrailingSemicolonRun` | main.go:210-237 | the loop on `{a:=1;}$` stops after 19 steps with `;` on the work stack and `}` next |
| `ParserExamples.TrailingSemicolonVerdict` | main.go:218 | `{a:=1;}$` is rejected after 19 steps: no relation holds between `;` and `}` |
| `ParserExamples.WhileLoopSourceAccepts` | main.go:210-215 | the Go loop on `{while a{b:=1}}$` reaches the final configuration after 35 passes and breaks there |
| `ParserExamples.TrailingSemicolonSourceSpins` | main.go:218 | the Go loop on `{a:=1;}$` is in the rejected configuration after 19 + n passes, for every n |
| `ParserExamples.ColonBeforeLetterVerdict` | lexer.go:160-165 | `a:b$` is rejected with the lexical error at offset 1 |
| `ParserExamples.ColonAtEndVerdict` | lexer.go:102-103 | `a:` is rejected with the lexical error of the `:` at the end |

Each step of the two concrete runs is a lemma of its own,
`ParserExamples.WhileLoopStep0` to `WhileLoopStep34` and
`TrailingSemicolonStep0` to `TrailingSemicolonStep18`. The same holds for each
lexeme of the concrete scans, `LexerExamples.<Name>Lexeme<k>`, and each group
of lexemes, `LexerExamples.<Name>From<k>`. These, and the helper lemmas
about the termination measure, the composition of passes and the layout of
lexemes, are stepping stones of the rows above and have no rows of their own.

## Left out

- `readLines`, `main`, the pause on standard input and `examples.txt` (main.go:188-263): file and console input/output.
- Every `fmt.Println` trace, and the caret and position that `StackOfTokens` prints on an Error (lexer.go:161-163). The model returns the Error's offset and byte as data instead.
- `Lexer.ScanFrom`: the offset in `BadCharacter(offset, byte)` is the 0-based index where the Error token starts, not the 1-based `position` that lexer.go:163 prints, and it does not always point at the byte the caret of lexer.go:162 marks. For a byte no token starts with, Go prints offset + 1 and the caret is under that byte. For a `:` not followed by `=`, the `ReadChar` at lexer.go:136 runs before the print, so Go prints offset + 2 with the caret under the byte after the `:` (`a:b$`: the model says offset 1; Go prints 3 and marks `b`). For the NUL past the end, `position` stays at `len(input)` (lexer.go:51-56), so Go prints the length with the caret under the last byte, while the model says offset `|s|` (`ab`: offset 2, caret under `b`). `strings.Repeat` at lexer.go:162 panics on a negative count, and the model reports these errors like any other: a byte no token starts with at offset 0 gives a count of -1, and the NUL past the end of an input shorter than two bytes gives `len(input) - 2`, which is -2 for the empty input and -1 for a one-byte input.
- The `github.com/golang-collections/collections/stack` library: stacks are sequences, and `Peek` on an empty stack, which returns nil, appears only where the Go code would then panic.
- The string-keyed maps of `parsing_table` and `reduce_table`: they are total functions over a closed symbol type that answer None where the Go map has no entry. That every reduce_table result is a nonterminal holds by the function's type.
- The `'#'` relation of (Program, EOF) at main.go:33 is modelled as `Finish`, but the acceptance test of main.go:212 always fires first, so no step ever uses it.
- `string(l.current)` turns an Error byte of 0x80 or more into the UTF-8 encoding of the Latin-1 code point; the model keeps the raw byte as the Error's value.
- The endless loop, the pop without a reduction and the panics listed under "Where the model departs from the Go code" are modelled as rejections. The model has no crash and no divergence of its own.

## Findings

| source | as written | input that shows it | evidently intended | confidence | as-written member | corrected member |
|---|---|---|---|---|---|---|
| main.go:218 | when `parsing_table` has no entry for the pair, the pass changes neither stack, and the loop has no other exit than acceptance, so `algorithm` never returns | `{a:=1;}$`: after 19 passes `;` is on top and `}` is next, a pair with no relation | report a syntax error and stop | not executed | `ParserExamples.TrailingSemicolonSourceSpins` | `Parser.Step` |

The model's `Step` rejects such a pair with `UnexpectedSymbol`. `Parser.Parse`
proves that the corrected loop always ends, within 19n + 18 steps for n tokens.
`ParserExamples.TrailingSemicolonVerdict` shows the rejection on the input
above, and `ParserExamples.TrailingSemicolonSourceSpins` shows the Go loop
stuck there. `SourceLoop.SourceSpinsOnUnexpectedSymbol` states the same for
every input that the model rejects for want of a relation.
