# lamonz lexer, modelled in Dafny

The lamonz repository holds a lexer for a small Monkey-style language. The
lexer is written in Rust. `Lexer::next_token` reads the input one token at a time. Each
token pairs a `TokenType` with its literal text. The lexer recognises:

- nine one-character punctuators: `= + - ( ) { } ; ,`;
- runs of ASCII letters, which are looked up in a keyword table (`let`, `fn`);
- runs of ASCII digits;
- any other character, reported as `Invalid`;
- end of input, reported as `Eof`.

The Rust lexer keeps a `Peekable<Chars>` iterator over its input. The model
replaces it with the input as a `string` plus a `nat` cursor, so `NextToken`
is a pure function from `(input, pos)` to a `Step`, which holds the token
and the new cursor.

The model follows the code as written, including three behaviours that a
reader might not expect:

- `skip_whitespace` removes at most one whitespace character. A second
  whitespace character in a row is reported as `Invalid` on the next call.
- `parse_identifier` and `parse_number` call `take_while` on `by_ref()`. This
  also consumes the first character that fails the test, and that character
  is lost. So `"5;"` yields `Int("5")` and then `Eof`.
- The `Invalid` arm does not advance the iterator. An unrecognised character
  that is not whitespace therefore yields `Invalid` on every later call. A
  lone `@` yields `Invalid` forever, never `Invalid` and then `Eof`.

Whitespace is what Rust's `char::is_ascii_whitespace` accepts: space, tab,
line feed, form feed and carriage return. Form feed is included because the
code uses that method.

Files:

- `tokens.dfy` (module `Tokens`): `TokenType` and `Token`, from `src/lamonz/token.rs`.
- `lexer.dfy` (module `Lexer`): the lexer, from `src/lamonz/lexer.rs`.
- `lexer_properties.dfy` (module `LexerProperties`): what one call does for
  each kind of character, and how repeated calls behave.
- `lexer_examples.dfy` (module `LexerExamples`): the two unit tests of
  `src/lamonz/token.rs` and other concrete inputs, plus the loop that drives
  the tests.
- `corrected_lexer.dfy` (module `CorrectedLexer`): the scanner that keeps the
  terminating character, used only for the finding below.

## Model

| member | source | states |
|---|---|---|
| Tokens.KindIndex | src/lamonz/token.rs:3-19 | every token kind has a position among the fifteen declared kinds, and that position holds that kind |
| Tokens.KindsAreClosed | src/lamonz/token.rs:3-19 | `TokenType` has exactly fifteen kinds: the list has no repeats and contains every kind |
| Lexer.New | src/lamonz/lexer.rs:13-17 | a new lexer is over the given input, has consumed nothing, and its cursor is valid |
| Lexer.SkipWhitespace | src/lamonz/lexer.rs:116-122 | the cursor moves by one exactly when the next character is ASCII whitespace, and otherwise stays put; it never passes the end of input |
| Lexer.RunEnd | src/lamonz/lexer.rs:125-139 | the end of the maximal run of class characters: every character before it is in the class, and the character at it is not |
| Lexer.TakeWhile | src/lamonz/lexer.rs:125-139 | the collected text is the maximal run of class characters at the cursor, taken from the input; the cursor ends one past the run when another character follows it (that character is dropped) and at end of input otherwise |
| Lexer.LookupIdentifier | src/lamonz/lexer.rs:142-150 | the result is `Let` iff the text is exactly `let`, `Function` iff it is exactly `fn`, and nothing otherwise |
| Lexer.PunctuatorKind | src/lamonz/lexer.rs:22-84 | a kind returned for a character is one of the nine punctuator kinds |
| Lexer.NextToken | src/lamonz/lexer.rs:19-112 | every call yields a token; the cursor never moves back or past the end of input; the literal is a slice of the input starting at the cursor after the whitespace skip |
| Lexer.Next | src/lamonz/lexer.rs:19-20 | a call on a lexer state keeps the input and yields a valid state whose cursor has not moved back |
| Lexer.Scan | src/lamonz/token.rs:79-83 | `n` calls always yield `n` tokens, so `next_token` never runs out of tokens (it never returns `None`) |
| LexerProperties.SkipNeverSkipsRun | src/lamonz/lexer.rs:116-122 | with two whitespace characters in a row only the first is skipped; the second is then reported as `Invalid` without being consumed, and only the following call skips it |
| LexerProperties.KindByCharacter | src/lamonz/lexer.rs:19-112 | the kind is decided by the character after the skip: `Eof` iff none is left, a punctuator kind iff it is one of the nine, `Ident`/`Let`/`Function` iff it is an ASCII letter, `Int` iff an ASCII digit, `Invalid` iff anything else |
| LexerProperties.NextTokenAtEnd | src/lamonz/lexer.rs:106-111 | with nothing left after the skip the call yields `Eof` with an empty literal and leaves the cursor at the end |
| LexerProperties.NextTokenOnPunctuator | src/lamonz/lexer.rs:22-84 | each of `= + - ( ) { } ; ,` yields Assign, Plus, Minus, Lparen, Rparen, Lbrace, Rbrace, Semicolon, Comma respectively; the literal is that character and the cursor moves exactly one past it |
| LexerProperties.NextTokenOnLetter | src/lamonz/lexer.rs:86-92 | on a letter the literal is the maximal non-empty run of ASCII letters at the cursor; the cursor ends one past the run when a character follows (that character is lost); the kind is `Let` iff the literal is `let`, `Function` iff `fn`, `Ident` otherwise |
| LexerProperties.NextTokenOnDigit | src/lamonz/lexer.rs:93-98 | on a digit the kind is `Int`, the literal is the maximal non-empty run of ASCII digits at the cursor, and the character ending the run is consumed and lost |
| LexerProperties.NextTokenOnOther | src/lamonz/lexer.rs:99-104 | any other character, non-ASCII letters included, yields `Invalid` with an empty literal and leaves the cursor on that character |
| LexerProperties.FixedPointRepeats | src/lamonz/lexer.rs:19-21 | when a call leaves the cursor where it was, every later call yields the same token |
| LexerProperties.EofIsStable | src/lamonz/lexer.rs:106-111 | once a call yields `Eof`, the cursor is at the end and every later call yields `Eof` with an empty literal |
| LexerProperties.InvalidStalls | src/lamonz/lexer.rs:99-104 | when `Invalid` is yielded on a character that is not whitespace, the next call yields the same token at the same cursor, and so does every later call |
| LexerExamples.Collect | src/lamonz/token.rs:77-83 | the test loop, which calls `next_token` `n` times on a fresh lexer, collects exactly the tokens of `n` successive calls from the start of the input |
| LexerExamples.ParseSymbols | src/lamonz/token.rs:35-84 | scanning `=+(){},;` yields Assign, Plus, Lparen, Rparen, Lbrace, Rbrace, Comma, Semicolon, each with its own character as literal, then `Eof` with `""` |
| LexerExamples.ParseIdentAndInts | src/lamonz/token.rs:86-122 | scanning `let five = 5;` yields Let, Ident, Assign, Int as its first four kinds, but the fifth call yields `Eof`, not the `Semicolon` the test expects at token.rs:107-110 |
| LexerExamples.EmptyInputYieldsEof | src/lamonz/lexer.rs:106-111 | a new lexer over the empty input yields `Eof` with an empty literal on every call |
| LexerExamples.MaximalMunch | src/lamonz/lexer.rs:125-139 | `foobar` is one `Ident` token and `12345` is one `Int` token, each followed by `Eof` |
| LexerExamples.KeywordsAreRecognised | src/lamonz/lexer.rs:142-150 | `let` yields a `Let` token and `fn` a `Function` token, each with the word as literal |
| LexerExamples.KeywordMatchIsExact | src/lamonz/lexer.rs:142-150 | `letx` and `Let` yield `Ident` tokens: the keyword match is exact and case-sensitive, never a prefix match |
| LexerExamples.LoneSymbolStalls | src/lamonz/lexer.rs:99-104 | `@` yields `Invalid` on every call, never `Eof` |
| LexerExamples.DoubleSpace | src/lamonz/lexer.rs:116-122 | `=  x` (two spaces) yields Assign, then `Invalid` for the second space, then Ident `x`, then `Eof` |
| CorrectedLexer.NextTokenKeepingTerminator | src/lamonz/lexer.rs:125-139 | with the run scan corrected to peek at its terminator, each call consumes only the skipped whitespace and the characters of its literal; nothing is dropped |
| CorrectedLexer.SameTokenAsWritten | src/lamonz/lexer.rs:125-139 | the corrected scanner yields the same token as the code; the code ends one character further on iff a letter or digit run is followed by another character |
| CorrectedLexer.CorrectedParseIdentAndInts | src/lamonz/token.rs:86-122 | the corrected scanner yields exactly what the test expects for `let five = 5;`: Let, Ident, Assign, Int, Semicolon, Eof |

## Findings

| source | as written | input that shows it | evidently intended | confidence | as-written member | corrected member |
|---|---|---|---|---|---|---|
| src/lamonz/lexer.rs:133-139 | `take_while` on `by_ref()` consumes and drops the character that ends a digit run (and, at lines 125-130, a letter run) | `let five = 5;`: the `;` ends the run `5` and is lost, so the fifth token is `Eof` | the character after a run is left for the next call, so the fifth token is `Semicolon` as the test at src/lamonz/token.rs:107-110 expects | high; not executed | LexerExamples.ParseIdentAndInts | CorrectedLexer.CorrectedParseIdentAndInts |

The corrected scanner appears only in `CorrectedLexer`. The rest of the model
describes the code as it is written, so `Lexer.NextToken` keeps the dropping
behaviour.

## Left out

- The `dbg!` call at src/lamonz/lexer.rs:107 only writes to standard error. It does not change the result.
- The `Option<Token>` return type of `next_token` is dropped, because every arm returns `Some`. `Lexer.NextToken` returns the token itself.
- The `Peekable<Chars>` iterator and `String` allocation are replaced by a cursor into a `string`.
- The borrow of the input for the lexer's lifetime is not modelled. Dafny values are immutable, so the input cannot change.
- The `Debug`, `Eq` and `PartialEq` derives are left out. Dafny datatypes already have structural equality.
- The `#[test]` plumbing is left out. The two tests appear as lemmas about concrete inputs, plus the `Collect` loop.
- Characters are Dafny `char` values, which are Unicode scalar values, as Rust `char`s are. Nothing here depends on UTF-8 encoding.
- Lexer.PunctuatorKind: its contract says only that the returned kind is a punctuator kind. The character-to-kind mapping is stated and proved in `LexerProperties.NextTokenOnPunctuator`.
- Lexer.Scan: its contract states only the number of tokens. What each token is follows from the `LexerProperties` lemmas about `NextToken`.
