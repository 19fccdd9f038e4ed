/**
 * Token kinds and token values (src/token/types.rs).
 * Both are passive data: a closed enumeration and a record with
 * structural equality.
 */
module Types {

  /** The closed set of token kinds; none of them carries a payload. */
  datatype TokenType =
    | Illegal
    | Eof
    | Ident
    | Int
    | Assign
    | Plus
    | Comma
    | Semicolon
    | LParen
    | RParen
    | LBrace
    | RBrace
    | Function
    | Let

  /** A token is its kind together with the exact text it was scanned from. */
  datatype Token = Token(ttype: TokenType, literal: string)

  /** Every kind, once, in declaration order. */
  const ALL_TOKEN_TYPES: seq<TokenType> :=
    [Illegal, Eof, Ident, Int, Assign, Plus, Comma, Semicolon,
     LParen, RParen, LBrace, RBrace, Function, Let]

  /**
   * Builds a token. The kind is kept as given and the literal is copied
   * verbatim: nothing checks that the text fits the kind.
   */
  function NewToken(ttype: TokenType, literal: string): (t: Token)
    ensures t.ttype == ttype
    ensures t.literal == literal
  {
    Token(ttype, literal)
  }

  /** There are exactly fourteen kinds. */
  lemma TokenTypeIsClosed()
    ensures |ALL_TOKEN_TYPES| == 14
    ensures forall k: TokenType :: k in ALL_TOKEN_TYPES
    ensures forall i, j :: 0 <= i < j < |ALL_TOKEN_TYPES| ==> ALL_TOKEN_TYPES[i] != ALL_TOKEN_TYPES[j]
  {
    forall k: TokenType
      ensures k in ALL_TOKEN_TYPES
    {
      match k
      case Illegal =>   case Eof =>       case Ident =>    case Int =>
      case Assign =>    case Plus =>      case Comma =>    case Semicolon =>
      case LParen =>    case RParen =>    case LBrace =>   case RBrace =>
      case Function =>  case Let =>
    }
  }

  /** Two tokens are equal exactly when their kinds and their literals are. */
  lemma TokenEquality(a: Token, b: Token)
    ensures a == b <==> (a.ttype == b.ttype && a.literal == b.literal)
  {
  }

  /** Any kind can be paired with any text, even text that does not fit it. */
  lemma NewTokenDoesNotValidate()
    ensures NewToken(Int, "x").ttype == Int && NewToken(Int, "x").literal == "x"
  {
  }
}
