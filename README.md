# A verified model of the Lansha-Shamush lexer

The lexer of Lansha-Shamush (`src/lexer.ts`) turns one input string into a
list of `Token(value, type)` in a single forward pass. Each position is
classified by fixed character tables, tested in this order: quote,
whitespace, letter (`A`–`Z`, `a`–`z`, `_`), digit, the 29-character symbol
set, and finally "unknown". The lexer then does one of these:

- reads a string literal up to the next quote or the end of the input;
- skips a whitespace run;
- reads an identifier (letters and digits) or a number (digits and dots),
  each as long as possible;
- reads a two-character symbol when the first character is one of `!=<>*`
  and the second is any symbol, and a one-character symbol otherwise;
- emits an unknown character on its own, with the sentinel kind `Error`.

The pending buffer is flushed by the nested `resetBuff`. It skips an empty
buffer, except for string literals, which are flushed even when empty.

The project has six modules:

- `CharClasses` (`char_classes.dfy`): the character tables, and `Classify`,
  the class that the lexer's tests select; its contract proves the tables
  disjoint.
- `Tokens` (`tokens.dfy`): `TokenType` and `Token`. A token is never changed
  after it is made, so both are datatypes.
- `Reference` (`reference.dfy`): declarative descriptions that say nothing
  about how scanning works. `Lexes(s, p, q, t)` says `t` is the token the
  lexer must read from `s[p..q]`, including maximal munch and the rule for
  two-character symbols. `Tiles(s, i, ts)` says `ts` is a lexing of the
  whole input: whitespace is skipped, and every other position starts a
  `Lexes` token. `WellFormed(t)` gives the shape of each token kind.
  `Visible(s, false)` is the input with every quote removed and every
  whitespace character outside string literals removed.
- `Scanning` (`scanning.dfy`): the pass as functions. `ScanAt` is one
  iteration of the main loop, `Scan` the whole pass, and `RunEnd` the end
  of a maximal run.
- `ScanProperties` (`properties.dfy`): what is proved about `Scan`.
- `Lexer` (`lexer.dfy`): `tokenize` in imperative form. Class `Scanner`
  holds the three locals that the `resetBuff` closure updates (`out`,
  `buff`, `typeBuff`). Its methods are `resetBuff`, the inner loops and the
  branches of the main loop. `Tokenize` is the main loop, with the cursor
  invariant `i <= |str| + 1`: after an unterminated string, the extra `i++`
  in the quote branch takes the cursor to `|str|` before the loop's own
  increment.
- `Scenarios` (`scenarios.dfy`): concrete inputs worked through the model.

The main loop's body, and the string, identifier and number branches, are
their own `Scanner` methods (`ReadNext`, `ReadString`, `ReadIdentifier`,
`ReadNumber`). In the code they are written inline. The statements and the
order of the tests are the same. The source's four inner `while` loops are
`Scanner.Extend` (the three that append to the buffer) and `SkipWhitespace`.
The letter and digit tables are written as character ranges, which hold
exactly the listed characters. The symbol tables are set displays of the
listed characters.

## Model

| member | source | states |
|---|---|---|
| CharClasses.Classify | src/lexer.ts:1-6 | the tables are pairwise disjoint: each class is chosen exactly when the character is in that table, so every character falls in exactly one class, and every `!=<>*` is a symbol |
| Scanning.RunEnd | src/lexer.ts:49-78 | the stopping point of the four inner loops (lines 49, 58, 65-68 and 76-78): every character before it belongs to the run, and the character at it (if any) does not, so the run is as long as possible |
| Scanning.ScanAt | src/lexer.ts:43-101 | one iteration moves the cursor strictly forward, emits at most one token, and emits nothing exactly when the character is whitespace |
| ScanProperties.ScanAtLexes | src/lexer.ts:45-101 | one iteration skips a maximal whitespace run, or emits the token that `Lexes` describes at that position (string up to the next quote or the end, maximal identifier or number, two-character symbol exactly when allowed, unknown character as `Error`) |
| ScanProperties.LexesUnique | src/lexer.ts:60-96 | maximal munch leaves no choice: at most one token, with one end position, can start at a given position |
| ScanProperties.ScanAtExactly | src/lexer.ts:45-101 | one iteration emits token `t` and resumes at `q` if and only if `Lexes(s, i, q, t)`; in particular a symbol is read as two characters exactly when the first is in `!=<>*` and the second is a symbol, and an unknown character is emitted alone with kind `Error` |
| ScanProperties.ScanSkipsSpace | src/lexer.ts:55-59 | a whitespace character emits nothing: scanning from it gives the same tokens as scanning from the next position |
| ScanProperties.ScanTiles | src/lexer.ts:42-102 | the tokens of the pass are a lexing of the input in the sense of `Tiles` |
| ScanProperties.TilesUnique | src/lexer.ts:42-102 | any lexing of the input in the sense of `Tiles` is the token list of the pass |
| ScanProperties.ScanCharacterization | src/lexer.ts:42-102 | a token list is a lexing of the input if and only if it is the list the pass produces |
| ScanProperties.LexesWellFormed | src/lexer.ts:45-101 | a token read at any position has the shape of its kind |
| ScanProperties.ScanWellFormed | src/lexer.ts:34-40 | every emitted token has the shape of its kind: a string literal has no quote; an identifier is a letter then letters and digits; a number is a digit then digits and dots; a symbol is one symbol or an allowed pair; an `Error` token is one unknown character; only a string literal can be empty |
| Scanning.Scan | src/lexer.ts:42-102 | the whole main loop from position `i`: its contract bounds the result to at most one token per remaining character, because the cursor moves forward on every iteration; what the tokens are is stated by `ScanCharacterization` (the unique lexing), `ScanWellFormed` (the shape of each token) and `ScanReconstructs` (the text they spell out) |
| ScanProperties.EmptyInput | src/lexer.ts:42 | the empty input yields no tokens |
| ScanProperties.ScanAtVisible | src/lexer.ts:45-101 | one iteration emits exactly the visible text of the characters it consumes: the string contents without the quotes, nothing for whitespace, the characters themselves otherwise |
| ScanProperties.ScanReconstructs | src/lexer.ts:45-101 | the token texts, concatenated in order, are the input with every quote removed and every whitespace character outside string literals removed |
| ScanProperties.ScanGuarantees | src/lexer.ts:29-109 | for a whole input: the tokens are its lexing, there are at most `|s|` of them, every one is well formed, and together they spell out its visible text |
| Lexer.Scanner.constructor | src/lexer.ts:30-32 | the output list starts empty, the buffer empty and the pending kind `Error` |
| Lexer.Scanner.ResetBuff | src/lexer.ts:34-40 | a non-empty buffer, or any buffer when `allowEmpty`, is appended to the output as one token with the pending kind, and the buffer and kind are reset; otherwise nothing changes |
| Lexer.Scanner.Extend | src/lexer.ts:49-78 | the three buffering inner loops (lines 49-51, 65-68 and 76-78): appends to the buffer exactly the rest of the maximal run after position `i`, returning its last position; the output and the pending kind are unchanged |
| Lexer.SkipWhitespace | src/lexer.ts:58 | returns the last position of the maximal whitespace run that starts at `i` |
| Lexer.Scanner.ReadString | src/lexer.ts:45-54 | the quote branch appends the token of one iteration, which holds everything up to the next quote or the end even when empty, and leaves the buffer empty and the kind `Error`; the cursor ends on the closing quote, or on the end of the input when there is none |
| Lexer.Scanner.ReadIdentifier | src/lexer.ts:60-70 | the letter branch appends the token of one iteration and leaves the buffer empty and the kind `Error`; the cursor ends on the identifier's last character |
| Lexer.Scanner.ReadNumber | src/lexer.ts:71-80 | the digit branch appends the token of one iteration and leaves the buffer empty and the kind `Error`; the cursor ends on the number's last character |
| Lexer.Scanner.ReadNext | src/lexer.ts:43-101 | one iteration of the main loop, with an empty buffer and kind `Error` at the top, appends what `ScanAt` emits and restores that state; the cursor ends on the end of the input exactly when the character is a quote with no closing quote after it, and otherwise just before where `ScanAt` resumes |
| Lexer.Tokenize | src/lexer.ts:29-109 | the result is the pass `Scan(str, 0)`, the unique lexing of `str`, with at most `|str|` tokens, each well formed, whose texts spell out the input without quotes and without whitespace outside string literals; the loop keeps the buffer empty and the pending kind `Error` at the top of every iteration |
| Scenarios.EmptyStringLiteral | src/lexer.ts:45-54 | the input `""` yields exactly one empty `StringLit` |
| Scenarios.UnterminatedString | src/lexer.ts:49-53 | a string literal without a closing quote yields its contents up to the end of the input, with no error |
| Scenarios.QuotedWords | src/lexer.ts:45-54 | quotes are stripped and whitespace inside a string literal is kept |
| Scenarios.DoubleEquals | src/lexer.ts:81-89 | `x == y` yields `x`, the symbol `==` and `y` |
| Scenarios.IdentifierWithDigits | src/lexer.ts:60-70 | `abc123 def` yields the identifiers `abc123` and `def` |
| Scenarios.NumbersAndPlus | src/lexer.ts:71-96 | `3.14 + 2` yields the number `3.14`, the symbol `+` and the number `2` |
| Scenarios.DottedNumber | src/lexer.ts:76-78 | `1.2.3` is one number |
| Scenarios.WhitespaceRun | src/lexer.ts:55-59 | a mixed run of spaces, tabs and newlines between two identifiers emits nothing |
| Scenarios.UnknownCharacter | src/lexer.ts:97-101 | a backquote, which is in no table, becomes a one-character token of kind `Error` |
| Scenarios.AnyPairAfterMultiStart | src/lexer.ts:81-89 | `*(` is one symbol: after a character of `!=<>*`, any symbol completes a pair |

## Left out

- `src/main.ts`, the REPL that reads lines until `exit` and prints their tokens. It is input and output only.
- The `debugLogs` parameter of `tokenize`, the printing loop at its end and `Token.log`. They only write to the console and do not change the returned list.
- The numeric values of `TokenType` (0 to 4), which only show up in that console output.
- JavaScript's UTF-16 code units. The input is a `seq<char>`, so a character outside the basic multilingual plane is one character here, not two code units; any non-ASCII character is in the unknown class, as in the code.
