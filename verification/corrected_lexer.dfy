/**
 The scanner with the behaviour the repository's own test expects: a run of
 letters or digits ends at the first character outside the class, and that
 character is left for the next call instead of being dropped. Everything
 else (the one-character whitespace skip, `Invalid` not advancing) is as in
 `Lexer`. This module exists to state the discrepancy between
 `src/lamonz/lexer.rs` and its test; the model of the code itself is `Lexer`.
 */
module CorrectedLexer {
  import opened Tokens
  import opened Lexer

  /** `next_token` with a run scan that peeks at the character ending the run
      rather than consuming it. Every call consumes the skipped whitespace
      and exactly the characters of its literal. */
  function NextTokenKeepingTerminator(input: string, pos: nat): (r: Step)
    requires pos <= |input|
    ensures r.pos == SkipWhitespace(input, pos) + |r.token.literal| <= |input|
    ensures r.token.literal == input[SkipWhitespace(input, pos)..r.pos]
  {
    var q := SkipWhitespace(input, pos);
    if q == |input| then
      Step(Token(Eof, ""), q)
    else
      var c := input[q];
      match PunctuatorKind(c)
      case Some(k) => Step(Token(k, [c]), q + 1)
      case None =>
        if IsAsciiAlphabetic(c) then
          var e := RunEnd(input, q, Alphabetic);
          var ident := input[q..e];
          Step(Token(LookupIdentifier(ident).GetOr(Ident), ident), e)
        else if IsAsciiDigit(c) then
          var e := RunEnd(input, q, Digit);
          Step(Token(Int, input[q..e]), e)
        else
          Step(Token(Invalid, ""), q)
  }

  /** The tokens of `n` successive calls of the corrected scanner. */
  function ScanKeepingTerminator(input: string, pos: nat, n: nat): (toks: seq<Token>)
    requires pos <= |input|
    ensures |toks| == n
    decreases n
  {
    if n == 0 then []
    else
      var step := NextTokenKeepingTerminator(input, pos);
      [step.token] + ScanKeepingTerminator(input, step.pos, n - 1)
  }

  /** The correction changes only the cursor: both scanners yield the same
      token from the same state, and the code as written ends one character
      further on exactly when a letter or digit run is followed by another
      character, which it drops. */
  lemma SameTokenAsWritten(input: string, pos: nat)
    requires pos <= |input|
    ensures NextTokenKeepingTerminator(input, pos).token == NextToken(input, pos).token
    ensures var fixed := NextTokenKeepingTerminator(input, pos);
      var asWritten := NextToken(input, pos);
      && (asWritten.pos == fixed.pos + 1 <==>
            (IsWordKind(fixed.token.kind) || fixed.token.kind == Int) && fixed.pos < |input|)
      && (asWritten.pos != fixed.pos + 1 ==> asWritten.pos == fixed.pos)
  {
  }

  // The calls of the corrected scanner on `let five = 5;`, one lemma per
  // call that scans a run.

  lemma LetFiveLetKeepingTerminator()
    ensures NextTokenKeepingTerminator("let five = 5;", 0) == Step(Token(Let, "let"), 3)
  {
    assert RunEnd("let five = 5;", 0, Alphabetic) == 3;
  }

  lemma LetFiveIdentKeepingTerminator()
    ensures NextTokenKeepingTerminator("let five = 5;", 3) == Step(Token(Ident, "five"), 8)
  {
    assert RunEnd("let five = 5;", 4, Alphabetic) == 8;
  }

  lemma LetFiveIntKeepingTerminator()
    ensures NextTokenKeepingTerminator("let five = 5;", 10) == Step(Token(Int, "5"), 12)
  {
    assert RunEnd("let five = 5;", 11, Digit) == 12;
  }

  /** `parse_ident_and_ints` holds of the corrected scanner: the kinds are
      Let, Ident, Assign, Int, Semicolon and then Eof. */
  lemma CorrectedParseIdentAndInts()
    ensures ScanKeepingTerminator("let five = 5;", 0, 6) ==
      [ Token(Let, "let"), Token(Ident, "five"), Token(Assign, "="), Token(Int, "5"),
        Token(Semicolon, ";"), Token(Eof, "") ]
  {
    var s := "let five = 5;";
    LetFiveLetKeepingTerminator();
    LetFiveIdentKeepingTerminator();
    assert NextTokenKeepingTerminator(s, 8) == Step(Token(Assign, "="), 10);
    LetFiveIntKeepingTerminator();
    assert NextTokenKeepingTerminator(s, 12) == Step(Token(Semicolon, ";"), 13);
    assert NextTokenKeepingTerminator(s, 13) == Step(Token(Eof, ""), 13);
    var tail := [Token(Eof, "")];
    assert ScanKeepingTerminator(s, 13, 1) == tail;
    tail := [Token(Semicolon, ";")] + tail;
    assert ScanKeepingTerminator(s, 12, 2) == tail;
    tail := [Token(Int, "5")] + tail;
    assert ScanKeepingTerminator(s, 10, 3) == tail;
    tail := [Token(Assign, "=")] + tail;
    assert ScanKeepingTerminator(s, 8, 4) == tail;
    tail := [Token(Ident, "five")] + tail;
    assert ScanKeepingTerminator(s, 3, 5) == tail;
  }
}
