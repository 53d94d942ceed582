/**
 The lexer driven over concrete inputs: the repository's two unit tests and
 the boundary cases of the scanner's documented behaviour.
 */
module LexerExamples {
  import opened Tokens
  import opened Lexer
  import LexerProperties

  /** The kinds of a token sequence, in order. */
  function Kinds(toks: seq<Token>): (ks: seq<TokenType>)
    ensures |ks| == |toks|
    ensures forall i :: 0 <= i < |toks| ==> ks[i] == toks[i].kind
  {
    seq(|toks|, i requires 0 <= i < |toks| => toks[i].kind)
  }

  /** The test driver: calls the lexer `n` times on a fresh lexer over
      `input` and collects the tokens. */
  method Collect(input: string, n: nat) returns (toks: seq<Token>)
    ensures toks == Scan(input, 0, n)
  {
    var s := New(input);
    toks := [];
    var k := 0;
    while k < n
      invariant k <= n
      invariant s.Valid() && s.input == input
      invariant toks + Scan(input, s.pos, n - k) == Scan(input, 0, n)
    {
      var r := Next(s);
      toks := toks + [r.0];
      s := r.1;
      k := k + 1;
    }
  }

  // The calls of `next_token` on `=+(){},;`, in two halves.

  lemma SymbolsOpening()
    ensures NextToken("=+(){},;", 0) == Step(Token(Assign, "="), 1)
    ensures NextToken("=+(){},;", 1) == Step(Token(Plus, "+"), 2)
    ensures NextToken("=+(){},;", 2) == Step(Token(Lparen, "("), 3)
    ensures NextToken("=+(){},;", 3) == Step(Token(Rparen, ")"), 4)
  {
  }

  lemma SymbolsClosing()
    ensures NextToken("=+(){},;", 4) == Step(Token(Lbrace, "{"), 5)
    ensures NextToken("=+(){},;", 5) == Step(Token(Rbrace, "}"), 6)
    ensures NextToken("=+(){},;", 6) == Step(Token(Comma, ","), 7)
    ensures NextToken("=+(){},;", 7) == Step(Token(Semicolon, ";"), 8)
    ensures NextToken("=+(){},;", 8) == Step(Token(Eof, ""), 8)
  {
  }

  /** `parse_symbols`: the eight punctuators, each with its own character as
      the literal, and then `Eof` with an empty literal. */
  lemma ParseSymbols()
    ensures Scan("=+(){},;", 0, 9) ==
      [ Token(Assign, "="), Token(Plus, "+"), Token(Lparen, "("), Token(Rparen, ")"),
        Token(Lbrace, "{"), Token(Rbrace, "}"), Token(Comma, ","), Token(Semicolon, ";"),
        Token(Eof, "") ]
  {
    var s := "=+(){},;";
    SymbolsOpening();
    SymbolsClosing();
    var tail := [Token(Eof, "")];
    assert Scan(s, 8, 1) == tail;
    tail := [Token(Semicolon, ";")] + tail;
    assert Scan(s, 7, 2) == tail;
    tail := [Token(Comma, ",")] + tail;
    assert Scan(s, 6, 3) == tail;
    tail := [Token(Rbrace, "}")] + tail;
    assert Scan(s, 5, 4) == tail;
    tail := [Token(Lbrace, "{")] + tail;
    assert Scan(s, 4, 5) == tail;
    tail := [Token(Rparen, ")")] + tail;
    assert Scan(s, 3, 6) == tail;
    tail := [Token(Lparen, "(")] + tail;
    assert Scan(s, 2, 7) == tail;
    tail := [Token(Plus, "+")] + tail;
    assert Scan(s, 1, 8) == tail;
  }

  // The calls of `next_token` on `let five = 5;`, one lemma per call.

  lemma LetFiveLet()
    ensures NextToken("let five = 5;", 0) == Step(Token(Let, "let"), 4)
  {
    assert RunEnd("let five = 5;", 0, Alphabetic) == 3;
  }

  lemma LetFiveIdent()
    ensures NextToken("let five = 5;", 4) == Step(Token(Ident, "five"), 9)
  {
    assert RunEnd("let five = 5;", 4, Alphabetic) == 8;
  }

  lemma LetFiveInt()
    ensures NextToken("let five = 5;", 10) == Step(Token(Int, "5"), 13)
  {
    assert RunEnd("let five = 5;", 11, Digit) == 12;
  }

  /** `parse_ident_and_ints` as the code behaves: the first four kinds are
      the expected ones, but the `;` is swallowed as the end of the number
      `5`, so the fifth call yields `Eof` where the test expects `Semicolon`. */
  lemma ParseIdentAndInts()
    ensures Scan("let five = 5;", 0, 6) ==
      [ Token(Let, "let"), Token(Ident, "five"), Token(Assign, "="), Token(Int, "5"),
        Token(Eof, ""), Token(Eof, "") ]
    ensures Kinds(Scan("let five = 5;", 0, 6))[..4] == [Let, Ident, Assign, Int]
    ensures Kinds(Scan("let five = 5;", 0, 6))[4] != Semicolon
  {
    var s := "let five = 5;";
    LetFiveLet();
    LetFiveIdent();
    assert NextToken(s, 9) == Step(Token(Assign, "="), 10);
    LetFiveInt();
    assert NextToken(s, 13) == Step(Token(Eof, ""), 13);
    var tail := [Token(Eof, ""), Token(Eof, "")];
    assert Scan(s, 13, 2) == tail;
    tail := [Token(Int, "5")] + tail;
    assert Scan(s, 10, 3) == tail;
    tail := [Token(Assign, "=")] + tail;
    assert Scan(s, 9, 4) == tail;
    tail := [Token(Ident, "five")] + tail;
    assert Scan(s, 4, 5) == tail;
  }

  /** An empty input yields `Eof` with an empty literal on every call. */
  lemma EmptyInputYieldsEof(n: nat)
    ensures forall i :: 0 <= i < n ==> Scan(New("").input, New("").pos, n)[i] == Token(Eof, "")
  {
    LexerProperties.EofIsStable("", 0, n);
  }

  /** Maximal munch: a run of letters or of digits is one token. */
  lemma MaximalMunch()
    ensures Scan("foobar", 0, 2) == [Token(Ident, "foobar"), Token(Eof, "")]
    ensures Scan("12345", 0, 2) == [Token(Int, "12345"), Token(Eof, "")]
  {
    assert RunEnd("foobar", 0, Alphabetic) == 6;
    assert NextToken("foobar", 0) == Step(Token(Ident, "foobar"), 6);
    assert RunEnd("12345", 0, Digit) == 5;
    assert NextToken("12345", 0) == Step(Token(Int, "12345"), 5);
  }

  /** `let` and `fn` are keywords. */
  lemma KeywordsAreRecognised()
    ensures NextToken("let", 0).token == Token(Let, "let")
    ensures NextToken("fn", 0).token == Token(Function, "fn")
  {
    assert RunEnd("let", 0, Alphabetic) == 3;
    assert RunEnd("fn", 0, Alphabetic) == 2;
  }

  /** Keywords match exactly and case-sensitively, never as a prefix. */
  lemma KeywordMatchIsExact()
    ensures NextToken("letx", 0).token == Token(Ident, "letx")
    ensures NextToken("Let", 0).token == Token(Ident, "Let")
  {
    assert RunEnd("letx", 0, Alphabetic) == 4;
    assert RunEnd("Let", 0, Alphabetic) == 3;
  }

  /** A lone unsupported symbol is reported as `Invalid` on every call. */
  lemma LoneSymbolStalls()
    ensures Scan("@", 0, 3) == [Token(Invalid, ""), Token(Invalid, ""), Token(Invalid, "")]
  {
    assert NextToken("@", 0) == Step(Token(Invalid, ""), 0);
  }

  /** Two spaces in a row produce an `Invalid` token between `=` and `x`. */
  lemma DoubleSpace()
    ensures Scan("=  x", 0, 4) == [Token(Assign, "="), Token(Invalid, ""), Token(Ident, "x"), Token(Eof, "")]
  {
    var s := "=  x";
    assert NextToken(s, 0) == Step(Token(Assign, "="), 1);
    assert NextToken(s, 1) == Step(Token(Invalid, ""), 2);
    assert RunEnd(s, 3, Alphabetic) == 4;
    assert NextToken(s, 2) == Step(Token(Ident, "x"), 4);
    assert NextToken(s, 4) == Step(Token(Eof, ""), 4);
  }
}
