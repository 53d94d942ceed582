/**
 Token kinds and tokens of the Monkey-style toy language scanned by the lexer.
 */
module Tokens {

  /** The closed set of token kinds the lexer can produce. */
  datatype TokenType =
    | Assign
    | Plus
    | Minus
    | Lparen
    | Rparen
    | Lbrace
    | Rbrace
    | Comma
    | Semicolon
    | Ident
    | Let
    | Int
    | Function
    | Invalid
    | Eof

  /** A token is a kind paired with the literal text that produced it. */
  datatype Token = Token(kind: TokenType, literal: string)

  /** Every token kind, in declaration order. */
  function AllKinds(): seq<TokenType>
  {
    [Assign, Plus, Minus, Lparen, Rparen, Lbrace, Rbrace, Comma, Semicolon,
     Ident, Let, Int, Function, Invalid, Eof]
  }

  /** The position of a kind in declaration order. */
  function KindIndex(k: TokenType): (i: nat)
    ensures i < |AllKinds()|
    ensures AllKinds()[i] == k
  {
    match k
    case Assign => 0
    case Plus => 1
    case Minus => 2
    case Lparen => 3
    case Rparen => 4
    case Lbrace => 5
    case Rbrace => 6
    case Comma => 7
    case Semicolon => 8
    case Ident => 9
    case Let => 10
    case Int => 11
    case Function => 12
    case Invalid => 13
    case Eof => 14
  }

  /** There are exactly fifteen token kinds: the enumeration lists each kind
      once and misses none. */
  lemma KindsAreClosed()
    ensures |AllKinds()| == 15
    ensures forall i, j :: 0 <= i < j < |AllKinds()| ==> AllKinds()[i] != AllKinds()[j]
    ensures forall k: TokenType :: AllKinds()[KindIndex(k)] == k
  {
    forall i, j | 0 <= i < j < |AllKinds()|
      ensures AllKinds()[i] != AllKinds()[j]
    {
      assert KindIndex(AllKinds()[i]) == i;
      assert KindIndex(AllKinds()[j]) == j;
    }
  }

  /** The one-character punctuator kinds. */
  predicate IsPunctuatorKind(k: TokenType)
  {
    k in {Assign, Plus, Minus, Lparen, Rparen, Lbrace, Rbrace, Comma, Semicolon}
  }

  /** The kinds produced from a run of ASCII letters. */
  predicate IsWordKind(k: TokenType)
  {
    k in {Ident, Let, Function}
  }
}
