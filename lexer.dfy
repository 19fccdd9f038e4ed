/**
 * The byte-level lexer of src/token/lexer.rs.
 *
 * The first half gives the reference semantics as pure functions over the
 * input bytes and a cursor position: SkipEnd (the whitespace loop), SpanEnd
 * (the identifier and integer loops), Classify (the dispatch table),
 * ResolveKeyword (the keyword remap), Step (one call of `next`) and Lex
 * (the whole token stream). The second half is the stateful `Lexer` whose
 * methods follow the source loop by loop and are proved against Step.
 */
module Lexer {
  import opened Wrappers
  import opened Types

  newtype byte = b: int | 0 <= b < 256

  /** The IDENTIFIER table: `a`-`z`, `A`-`Z` and `_`; no digits. */
  predicate IsIdentifierByte(b: byte)
  {
    ('a' as byte <= b <= 'z' as byte) || ('A' as byte <= b <= 'Z' as byte) || b == '_' as byte
  }

  /** The INTEGERS table: `0`-`9`. */
  predicate IsIntegerByte(b: byte)
  {
    '0' as byte <= b <= '9' as byte
  }

  /** The bytes the skip loop steps over: space, newline and NUL. */
  predicate IsSkippable(b: byte)
  {
    b == ' ' as byte || b == '\n' as byte || b == 0
  }

  /** The eight single-byte punctuation tokens. */
  predicate IsPunctuation(b: byte)
  {
    b == '=' as byte || b == '+' as byte || b == '(' as byte || b == ')' as byte ||
    b == '{' as byte || b == '}' as byte || b == ',' as byte || b == ';' as byte
  }

  /** The KEYWORDS table. */
  const KEYWORDS: seq<string> := ["let", "fn"]

  /** The bytes `lo` to `hi`, both included, in increasing order. */
  function ByteRange(lo: byte, hi: byte): (r: seq<byte>)
    requires lo <= hi
    ensures |r| == hi as int - lo as int + 1
  {
    seq(hi as int - lo as int + 1, i requires 0 <= i <= hi as int - lo as int => (lo as int + i) as byte)
  }

  /** The IDENTIFIER table as the source builds it: three ranges put together. */
  const IDENTIFIER: seq<byte> :=
    ByteRange('a' as byte, 'z' as byte) + ByteRange('A' as byte, 'Z' as byte) + ByteRange('_' as byte, '_' as byte)

  /** The INTEGERS table. */
  const INTEGERS: seq<byte> := ByteRange('0' as byte, '9' as byte)

  /**
   * The text of a run of bytes: one character per byte, with the byte's
   * code. The characters are Latin-1, so every byte has one.
   */
  function Literal(bs: seq<byte>): (r: string)
    ensures |r| == |bs|
  {
    seq(|bs|, i requires 0 <= i < |bs| => bs[i] as char)
  }

  /**
   * Where the skip loop stops when started at `i`: the end of the maximal
   * run of space, newline and NUL bytes beginning there.
   */
  function SkipEnd(s: seq<byte>, i: nat): (j: nat)
    requires i <= |s|
    ensures i <= j <= |s|
    ensures j == |s| || !IsSkippable(s[j])
    decreases |s| - i
  {
    if i < |s| && IsSkippable(s[i]) then SkipEnd(s, i + 1) else i
  }

  /** Every byte the skip loop passes over is a space, newline or NUL. */
  lemma {:induction false} SkipEndSkips(s: seq<byte>, i: nat)
    requires i <= |s|
    ensures forall k :: i <= k < SkipEnd(s, i) ==> IsSkippable(s[k])
    decreases |s| - i
  {
    if i < |s| && IsSkippable(s[i]) {
      SkipEndSkips(s, i + 1);
    }
  }

  /**
   * Where a collecting loop over the byte class `p` stops when started at
   * `i`: the end of the maximal run of `p` bytes beginning there.
   */
  function SpanEnd(s: seq<byte>, i: nat, p: byte -> bool): (j: nat)
    requires i <= |s|
    ensures i <= j <= |s|
    ensures j == |s| || !p(s[j])
    decreases |s| - i
  {
    if i < |s| && p(s[i]) then SpanEnd(s, i + 1, p) else i
  }

  /** Every byte a collecting loop passes over belongs to its class. */
  lemma {:induction false} SpanEndSpans(s: seq<byte>, i: nat, p: byte -> bool)
    requires i <= |s|
    ensures forall k :: i <= k < SpanEnd(s, i, p) ==> p(s[k])
    decreases |s| - i
  {
    if i < |s| && p(s[i]) {
      SpanEndSpans(s, i + 1, p);
    }
  }

  /**
   * The dispatch table applied to the byte under the cursor. The NUL arm
   * is part of the table even though the skip loop never lets a NUL reach it.
   */
  function Classify(b: byte): (k: TokenType)
    ensures k == Eof <==> b == 0
    ensures k == Int <==> IsIntegerByte(b)
    ensures k == Ident <==> IsIdentifierByte(b)
    ensures k == Illegal <==> !(IsPunctuation(b) || b == 0 || IsIntegerByte(b) || IsIdentifierByte(b))
    ensures IsPunctuation(b) <==> k in {Assign, Plus, LParen, RParen, LBrace, RBrace, Comma, Semicolon}
    ensures k != Let && k != Function
  {
    if b == '=' as byte then Assign
    else if b == '+' as byte then Plus
    else if b == '(' as byte then LParen
    else if b == ')' as byte then RParen
    else if b == '{' as byte then LBrace
    else if b == '}' as byte then RBrace
    else if b == ',' as byte then Comma
    else if b == ';' as byte then Semicolon
    else if b == 0 then Eof
    else if IsIntegerByte(b) then Int
    else if IsIdentifierByte(b) then Ident
    else Illegal
  }

  /**
   * The keyword remap: an `Ident` whose text is exactly `let` or `fn`
   * becomes `Let` or `Function`; every other kind and text is left alone.
   */
  function ResolveKeyword(ttype: TokenType, literal: string): (r: TokenType)
    ensures ttype != Ident ==> r == ttype
    ensures ttype == Ident ==> (r == Let <==> literal == "let")
    ensures ttype == Ident ==> (r == Function <==> literal == "fn")
    ensures ttype == Ident ==> (r == Ident <==> literal !in KEYWORDS)
  {
    if ttype == Ident && literal in KEYWORDS then
      match literal
      case "let" => Let
      case "fn" => Function
      case _ => Ident
    else
      ttype
  }

  /**
   * Where the literal of a token that starts at `start` ends: after the
   * maximal identifier or integer run, or after the one byte otherwise.
   */
  function TokenEnd(s: seq<byte>, start: nat): (j: nat)
    requires start < |s|
    ensures start < j <= |s|
  {
    var kind := Classify(s[start]);
    if kind == Ident then SpanEnd(s, start, IsIdentifierByte)
    else if kind == Int then SpanEnd(s, start, IsIntegerByte)
    else start + 1
  }

  /**
   * One call of `next` with the cursor at `pos`: the token it returns, or
   * None, and where the cursor is afterwards.
   */
  function Step(s: seq<byte>, pos: nat): (r: (Option<Token>, nat))
    requires pos <= |s|
    ensures pos <= r.1 <= |s|
    ensures r.0.None? <==> SkipEnd(s, pos) == |s|
    ensures r.0.None? ==> r.1 == |s|
    ensures r.0.Some? ==> SkipEnd(s, pos) < r.1
  {
    var start := SkipEnd(s, pos);
    if start == |s| then
      (None, start)
    else
      var end := TokenEnd(s, start);
      var literal := Literal(s[start..end]);
      (Some(NewToken(ResolveKeyword(Classify(s[start]), literal), literal)), end)
  }

  /** Every token a lexer whose cursor is at `pos` yields until it returns None. */
  function Lex(s: seq<byte>, pos: nat): (ts: seq<Token>)
    requires pos <= |s|
    ensures |ts| <= |s| - pos
    decreases |s| - pos
  {
    var (t, next) := Step(s, pos);
    match t
    case None => []
    case Some(token) => [token] + Lex(s, next)
  }

  /** The token stream of a whole input: at most one token per byte. */
  function Tokenize(s: seq<byte>): (ts: seq<Token>)
    ensures |ts| <= |s|
  {
    Lex(s, 0)
  }

  /**
   * The lexer: a forward-only cursor over an input buffer that is never
   * modified. `input[pos]` is the byte the source's `peek` would return.
   */
  class Lexer {
    const input: seq<byte>
    var pos: nat

    ghost predicate Valid()
      reads this
    {
      pos <= |input|
    }

    /** `Lexer::new`: the cursor starts before the first byte. */
    constructor (input: seq<byte>)
      ensures Valid()
      ensures this.input == input && pos == 0
    {
      this.input := input;
      pos := 0;
    }

    /** Collects and consumes the maximal run of identifier bytes at the cursor. */
    method ReadIdentifier() returns (literal: string)
      requires Valid()
      modifies this`pos
      ensures Valid()
      ensures pos == SpanEnd(input, old(pos), IsIdentifierByte)
      ensures literal == Literal(input[old(pos)..pos])
    {
      var result: seq<byte> := [];
      while pos < |input| && IsIdentifierByte(input[pos])
        invariant old(pos) <= pos <= |input|
        invariant result == input[old(pos)..pos]
        invariant SpanEnd(input, pos, IsIdentifierByte) == SpanEnd(input, old(pos), IsIdentifierByte)
        decreases |input| - pos
      {
        result := result + [input[pos]];
        pos := pos + 1;
      }
      literal := Literal(result);
    }

    /** Collects and consumes the maximal run of digit bytes at the cursor. */
    method ReadInt() returns (literal: string)
      requires Valid()
      modifies this`pos
      ensures Valid()
      ensures pos == SpanEnd(input, old(pos), IsIntegerByte)
      ensures literal == Literal(input[old(pos)..pos])
    {
      var result: seq<byte> := [];
      while pos < |input| && IsIntegerByte(input[pos])
        invariant old(pos) <= pos <= |input|
        invariant result == input[old(pos)..pos]
        invariant SpanEnd(input, pos, IsIntegerByte) == SpanEnd(input, old(pos), IsIntegerByte)
        decreases |input| - pos
      {
        result := result + [input[pos]];
        pos := pos + 1;
      }
      literal := Literal(result);
    }

    /**
     * `Iterator::next`: skip space, newline and NUL; give up with None at the
     * end of the input; otherwise classify, collect the literal and remap
     * keywords.
     */
    method Next() returns (token: Option<Token>)
      requires Valid()
      modifies this`pos
      ensures Valid()
      ensures (token, pos) == Step(input, old(pos))
    {
      while pos < |input| && IsSkippable(input[pos])
        invariant old(pos) <= pos <= |input|
        invariant SkipEnd(input, pos) == SkipEnd(input, old(pos))
        decreases |input| - pos
      {
        pos := pos + 1;
      }
      if pos == |input| {
        return None;
      }
      var ttype := Classify(input[pos]);
      var literal: string;
      if ttype == Ident {
        literal := ReadIdentifier();
      } else if ttype == Int {
        literal := ReadInt();
      } else {
        literal := [input[pos] as char];
        assert literal == Literal(input[pos..pos + 1]);
        pos := pos + 1;
      }
      ttype := ResolveKeyword(ttype, literal);
      token := Some(NewToken(ttype, literal));
    }
  }

  /**
   * Pulls tokens from a fresh lexer until it returns None, as a consumer
   * iterating over `Lexer::new(input)` does.
   */
  method LexAll(input: seq<byte>) returns (tokens: seq<Token>)
    ensures tokens == Tokenize(input)
  {
    var lexer := new Lexer(input);
    tokens := [];
    while true
      invariant lexer.Valid() && lexer.input == input
      invariant tokens + Lex(input, lexer.pos) == Lex(input, 0)
      decreases |input| - lexer.pos
    {
      var t := lexer.Next();
      match t
      case None =>
        break;
      case Some(token) =>
        tokens := tokens + [token];
    }
  }
}
