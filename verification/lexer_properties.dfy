/**
 Properties of one call of `NextToken` and of repeated calls, each stated
 independently of how `NextToken` dispatches.
 */
module LexerProperties {
  import opened Tokens
  import opened Lexer

  /** The nine punctuator characters. */
  const Punctuators: string := "=+-(){};,"

  /** The whitespace skip never skips a run: with two whitespace characters in
      a row only the first is skipped, the second is then not recognised and
      is reported as `Invalid` without being consumed. */
  lemma SkipNeverSkipsRun(input: string, pos: nat)
    requires pos + 1 < |input|
    requires IsAsciiWhitespace(input[pos]) && IsAsciiWhitespace(input[pos + 1])
    ensures SkipWhitespace(input, pos) == pos + 1
    ensures IsAsciiWhitespace(input[SkipWhitespace(input, pos)])
    ensures NextToken(input, pos) == Step(Token(Invalid, ""), pos + 1)
    ensures NextToken(input, pos + 1).pos >= pos + 2
  {
  }

  /** Which kind of token a call yields is decided by the character at the
      cursor after the whitespace skip, and by nothing else. */
  lemma KindByCharacter(input: string, pos: nat, q: nat)
    requires pos <= |input| && q == SkipWhitespace(input, pos)
    ensures var k := NextToken(input, pos).token.kind;
      && (k == Eof <==> q == |input|)
      && (IsPunctuatorKind(k) <==> q < |input| && input[q] in Punctuators)
      && (IsWordKind(k) <==> q < |input| && IsAsciiAlphabetic(input[q]))
      && (k == Int <==> q < |input| && IsAsciiDigit(input[q]))
      && (k == Invalid <==>
            q < |input| && input[q] !in Punctuators
            && !IsAsciiAlphabetic(input[q]) && !IsAsciiDigit(input[q]))
  {
  }

  /** End of input: when nothing is left after the skip the call yields `Eof`
      with an empty literal and leaves the cursor at the end. */
  lemma NextTokenAtEnd(input: string, pos: nat)
    requires pos <= |input| && SkipWhitespace(input, pos) == |input|
    ensures NextToken(input, pos) == Step(Token(Eof, ""), |input|)
  {
  }

  /** Each punctuator yields its own kind, with the character itself as the
      literal, and the cursor moves exactly one past it. */
  lemma NextTokenOnPunctuator(input: string, pos: nat, q: nat)
    requires pos <= |input| && q == SkipWhitespace(input, pos)
    requires q < |input| && input[q] in Punctuators
    ensures var r := NextToken(input, pos);
      && r.pos == q + 1
      && r.token.literal == [input[q]]
      && (input[q] == '=' ==> r.token.kind == Assign)
      && (input[q] == '+' ==> r.token.kind == Plus)
      && (input[q] == '-' ==> r.token.kind == Minus)
      && (input[q] == '(' ==> r.token.kind == Lparen)
      && (input[q] == ')' ==> r.token.kind == Rparen)
      && (input[q] == '{' ==> r.token.kind == Lbrace)
      && (input[q] == '}' ==> r.token.kind == Rbrace)
      && (input[q] == ';' ==> r.token.kind == Semicolon)
      && (input[q] == ',' ==> r.token.kind == Comma)
  {
  }

  /** A letter starts an identifier or keyword: the literal is the maximal
      non-empty run of ASCII letters at the cursor, the character that ends
      the run is consumed as well, and the kind is a keyword exactly when the
      literal is `let` or `fn`. */
  lemma NextTokenOnLetter(input: string, pos: nat, q: nat)
    requires pos <= |input| && q == SkipWhitespace(input, pos)
    requires q < |input| && IsAsciiAlphabetic(input[q])
    ensures var r := NextToken(input, pos);
      var lit := r.token.literal;
      && 0 < |lit| && q + |lit| <= |input| && lit == input[q..q + |lit|]
      && (forall i :: 0 <= i < |lit| ==> IsAsciiAlphabetic(lit[i]))
      && (q + |lit| < |input| ==> !IsAsciiAlphabetic(input[q + |lit|]) && r.pos == q + |lit| + 1)
      && (q + |lit| == |input| ==> r.pos == |input|)
      && (r.token.kind == Let <==> lit == "let")
      && (r.token.kind == Function <==> lit == "fn")
      && (r.token.kind == Ident <==> lit != "let" && lit != "fn")
  {
  }

  /** A digit starts an integer literal: the literal is the maximal non-empty
      run of ASCII digits at the cursor, and the character that ends the run
      is consumed as well. */
  lemma NextTokenOnDigit(input: string, pos: nat, q: nat)
    requires pos <= |input| && q == SkipWhitespace(input, pos)
    requires q < |input| && IsAsciiDigit(input[q])
    ensures var r := NextToken(input, pos);
      var lit := r.token.literal;
      && r.token.kind == Int
      && 0 < |lit| && q + |lit| <= |input| && lit == input[q..q + |lit|]
      && (forall i :: 0 <= i < |lit| ==> IsAsciiDigit(lit[i]))
      && (q + |lit| < |input| ==> !IsAsciiDigit(input[q + |lit|]) && r.pos == q + |lit| + 1)
      && (q + |lit| == |input| ==> r.pos == |input|)
  {
  }

  /** Any other character, including non-ASCII letters, yields `Invalid` with
      an empty literal, and the cursor stays on that character. */
  lemma NextTokenOnOther(input: string, pos: nat, q: nat)
    requires pos <= |input| && q == SkipWhitespace(input, pos)
    requires q < |input| && input[q] !in Punctuators
    requires !IsAsciiAlphabetic(input[q]) && !IsAsciiDigit(input[q])
    ensures NextToken(input, pos) == Step(Token(Invalid, ""), q)
  {
  }

  /** A cursor that a call does not move yields the same token on every
      later call. */
  lemma {:induction false} FixedPointRepeats(input: string, p: nat, n: nat)
    requires p <= |input| && NextToken(input, p).pos == p
    ensures forall i :: 0 <= i < n ==> Scan(input, p, n)[i] == NextToken(input, p).token
    decreases n
  {
    if n > 0 {
      FixedPointRepeats(input, p, n - 1);
    }
  }

  /** Once a call yields `Eof`, so does every later call. */
  lemma {:induction false} EofIsStable(input: string, pos: nat, n: nat)
    requires pos <= |input| && NextToken(input, pos).token.kind == Eof
    ensures NextToken(input, pos).pos == |input|
    ensures forall i :: 0 <= i < n ==> Scan(input, pos, n)[i] == Token(Eof, "")
  {
    if n > 0 {
      NextTokenAtEnd(input, |input|);
      FixedPointRepeats(input, |input|, n - 1);
    }
  }

  /** An unrecognised character that is not whitespace stalls the lexer:
      `Invalid` is yielded on this call and on every later one. */
  lemma {:induction false} InvalidStalls(input: string, pos: nat, n: nat)
    requires pos <= |input|
    requires var r := NextToken(input, pos);
      r.token.kind == Invalid && r.pos < |input| && !IsAsciiWhitespace(input[r.pos])
    ensures NextToken(input, NextToken(input, pos).pos) == NextToken(input, pos)
    ensures forall i :: 0 <= i < n ==> Scan(input, pos, n)[i] == Token(Invalid, "")
  {
    var r := NextToken(input, pos);
    assert NextToken(input, r.pos) == r;
    if n > 0 {
      FixedPointRepeats(input, r.pos, n - 1);
    }
  }
}
