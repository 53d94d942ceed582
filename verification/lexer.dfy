/**
 The lexer: a cursor over an immutable input text that yields one token per
 call. The source's `Peekable<Chars>` iterator is modelled as an index `pos`
 into the input; peeking reads `input[pos]` and consuming a character moves
 `pos` forward by one. Every call is a pure function from `(input, pos)` to
 the token and the new cursor.

 The model keeps three behaviours of the code as written:
 - the whitespace skip removes at most one character;
 - identifier and number scanning also consume, and drop, the first character
   that ends the run;
 - an unrecognised character is reported as `Invalid` without being consumed.
 */
module Lexer {
  import opened Tokens

  datatype Option<T> = None | Some(value: T) {
    function GetOr(default: T): T
    {
      match this
      case Some(v) => v
      case None => default
    }
  }

  /** The lexer state: the input text and the cursor into it. */
  datatype State = State(input: string, pos: nat) {
    ghost predicate Valid()
    {
      pos <= |input|
    }
  }

  /** The result of one call: the token and the cursor after it. */
  datatype Step = Step(token: Token, pos: nat)

  // Character classes, as Rust's `char` methods define them.

  /** `char::is_ascii_whitespace`: space, tab, line feed, form feed, carriage return. */
  predicate IsAsciiWhitespace(c: char)
  {
    c == ' ' || c == '\t' || c == '\n' || c == '\U{000C}' || c == '\r'
  }

  /** `char::is_ascii_alphabetic`. */
  predicate IsAsciiAlphabetic(c: char)
  {
    ('a' <= c <= 'z') || ('A' <= c <= 'Z')
  }

  /** `char::is_ascii_digit`. */
  predicate IsAsciiDigit(c: char)
  {
    '0' <= c <= '9'
  }

  /** The two character classes a run can be scanned over. */
  datatype CharClass = Alphabetic | Digit

  predicate InClass(c: char, cls: CharClass)
  {
    match cls
    case Alphabetic => IsAsciiAlphabetic(c)
    case Digit => IsAsciiDigit(c)
  }

  /** A fresh lexer stands at the start of its input. */
  function New(input: string): (s: State)
    ensures s.Valid()
    ensures s.input == input && s.pos == 0
  {
    State(input, 0)
  }

  /** Consumes the next character if it is ASCII whitespace, and nothing else. */
  function SkipWhitespace(input: string, pos: nat): (p: nat)
    requires pos <= |input|
    ensures pos <= p <= |input|
    ensures p == pos + 1 <==> pos < |input| && IsAsciiWhitespace(input[pos])
    ensures p != pos + 1 ==> p == pos
  {
    if pos < |input| && IsAsciiWhitespace(input[pos]) then pos + 1 else pos
  }

  /** The end of the maximal run of `cls` characters starting at `pos`. */
  function RunEnd(input: string, pos: nat, cls: CharClass): (e: nat)
    requires pos <= |input|
    ensures pos <= e <= |input|
    ensures forall i :: pos <= i < e ==> InClass(input[i], cls)
    ensures e < |input| ==> !InClass(input[e], cls)
    decreases |input| - pos
  {
    if pos < |input| && InClass(input[pos], cls) then RunEnd(input, pos + 1, cls) else pos
  }

  /** `by_ref().take_while(..).collect()`: collects the maximal run of `cls`
      characters at `pos` and leaves the cursor one past the first character
      that failed the test, which is consumed and dropped. */
  function TakeWhile(input: string, pos: nat, cls: CharClass): (r: (string, nat))
    requires pos <= |input|
    ensures pos + |r.0| <= |input| && r.0 == input[pos..pos + |r.0|]
    ensures forall i :: 0 <= i < |r.0| ==> InClass(r.0[i], cls)
    ensures pos + |r.0| < |input| ==> !InClass(input[pos + |r.0|], cls)
    ensures r.1 == if pos + |r.0| < |input| then pos + |r.0| + 1 else |input|
  {
    var e := RunEnd(input, pos, cls);
    (input[pos..e], if e < |input| then e + 1 else e)
  }

  /** The keyword table: exactly `let` and `fn`, matched case-sensitively. */
  function LookupIdentifier(ident: string): (r: Option<TokenType>)
    ensures r == Some(Let) <==> ident == "let"
    ensures r == Some(Function) <==> ident == "fn"
    ensures r.None? <==> ident != "let" && ident != "fn"
  {
    if ident == "let" then Some(Let)
    else if ident == "fn" then Some(Function)
    else None
  }

  /** The kind of a one-character punctuator, if `c` is one. */
  function PunctuatorKind(c: char): (r: Option<TokenType>)
    ensures r.Some? ==> IsPunctuatorKind(r.value)
  {
    match c
    case '=' => Some(Assign)
    case '+' => Some(Plus)
    case '-' => Some(Minus)
    case '(' => Some(Lparen)
    case ')' => Some(Rparen)
    case '{' => Some(Lbrace)
    case '}' => Some(Rbrace)
    case ';' => Some(Semicolon)
    case ',' => Some(Comma)
    case _ => None
  }

  /** `Lexer::next_token`: skips at most one whitespace character, then
      classifies the next character. The literal of every token is the slice
      of the input that starts at the cursor after the skip. */
  function NextToken(input: string, pos: nat): (r: Step)
    requires pos <= |input|
    ensures pos <= r.pos <= |input|
    ensures var q := SkipWhitespace(input, pos);
      && q + |r.token.literal| <= |input|
      && r.token.literal == input[q..q + |r.token.literal|]
  {
    var q := SkipWhitespace(input, pos);
    if q == |input| then
      Step(Token(Eof, ""), q)
    else
      var c := input[q];
      match PunctuatorKind(c)
      case Some(k) => Step(Token(k, [c]), q + 1)
      case None =>
        if IsAsciiAlphabetic(c) then
          var (ident, p) := TakeWhile(input, q, Alphabetic);
          Step(Token(LookupIdentifier(ident).GetOr(Ident), ident), p)
        else if IsAsciiDigit(c) then
          var (number, p) := TakeWhile(input, q, Digit);
          Step(Token(Int, number), p)
        else
          Step(Token(Invalid, ""), q)
  }

  /** Advances a lexer state by one call. */
  function Next(s: State): (r: (Token, State))
    requires s.Valid()
    ensures r.1.Valid() && r.1.input == s.input && s.pos <= r.1.pos
  {
    var step := NextToken(s.input, s.pos);
    (step.token, State(s.input, step.pos))
  }

  /** The tokens of `n` successive calls starting at cursor `pos`. */
  function Scan(input: string, pos: nat, n: nat): (toks: seq<Token>)
    requires pos <= |input|
    ensures |toks| == n
    decreases n
  {
    if n == 0 then []
    else
      var step := NextToken(input, pos);
      [step.token] + Scan(input, step.pos, n - 1)
  }
}
