/**
 * Concrete inputs and the token streams the lexer yields for them. Each
 * lemma holds for the one byte input whose text is the given string.
 * Its proof reads the bytes off the text (`<Example>Text`), then walks the
 * stream by hand: `<Example>Pull<k>` states what the k-th call of `next`
 * returns and where it leaves the cursor, and `<Example>From<k>` gathers
 * the stream from that call to the end.
 */
module LexerExamples {
  import opened Types
  import opened Lexer
  import opened LexerProperties

  /** The bytes of the input of `LetStatement`, one by one. */
  ghost predicate LetStatementBytes(s: seq<byte>)
  {
    |s| == 13 && s[0] == 108 && s[1] == 101 && s[2] == 116 && s[3] == 32 && s[4] == 102 &&
    s[5] == 105 && s[6] == 118 && s[7] == 101 && s[8] == 32 && s[9] == 61 && s[10] == 32 &&
    s[11] == 53 && s[12] == 59
  }

  /** The only input whose text is that of `LetStatement`. */
  lemma LetStatementCodes(s: seq<byte>)
    requires Literal(s) == "let five = 5;"
    ensures s == [108, 101, 116, 32, 102, 105, 118, 101, 32, 61, 32, 53, 59]
  {
    var codes: seq<byte> := [108, 101, 116, 32, 102, 105, 118, 101, 32, 61, 32, 53, 59];
    assert Literal(codes) == "let five = 5;";
    LiteralInjective(s, codes);
  }

  /** The bytes of that input, one by one. */
  lemma LetStatementText(s: seq<byte>)
    requires Literal(s) == "let five = 5;"
    ensures LetStatementBytes(s)
  {
    LetStatementCodes(s);
  }

  lemma LetStatementPull1(s: seq<byte>)
    requires LetStatementBytes(s)
    ensures Lex(s, 0) == [Token(Let, "let")] + Lex(s, 3)
  {
    assert Literal(s)[0..3] == "let";
    LexIdentifierAt(s, 0, 3);
  }

  lemma LetStatementPull2(s: seq<byte>)
    requires LetStatementBytes(s)
    ensures Lex(s, 3) == [Token(Ident, "five")] + Lex(s, 8)
  {
    SkippableByteIsIgnored(s, 3);
    assert Literal(s)[4..8] == "five";
    LexIdentifierAt(s, 4, 8);
  }

  lemma LetStatementPull3(s: seq<byte>)
    requires LetStatementBytes(s)
    ensures Lex(s, 8) == [Token(Assign, "=")] + Lex(s, 10)
  {
    SkippableByteIsIgnored(s, 8);
    LexSingleAt(s, 9);
  }

  lemma LetStatementPull4(s: seq<byte>)
    requires LetStatementBytes(s)
    ensures Lex(s, 10) == [Token(Int, "5")] + Lex(s, 12)
  {
    SkippableByteIsIgnored(s, 10);
    assert Literal(s)[11..12] == "5";
    LexIntegerAt(s, 11, 12);
  }

  lemma LetStatementPull5(s: seq<byte>)
    requires LetStatementBytes(s)
    ensures Lex(s, 12) == [Token(Semicolon, ";")]
  {
    LexSingleAt(s, 12);
    assert Lex(s, 13) == [];
  }

  lemma LetStatementFrom4(s: seq<byte>)
    requires LetStatementBytes(s)
    ensures Lex(s, 10) ==
      [Token(Int, "5"), Token(Semicolon, ";")]
  {
    LetStatementPull4(s);
    LetStatementPull5(s);
  }

  lemma LetStatementFrom3(s: seq<byte>)
    requires LetStatementBytes(s)
    ensures Lex(s, 8) ==
      [Token(Assign, "="), Token(Int, "5"), Token(Semicolon, ";")]
  {
    LetStatementPull3(s);
    LetStatementFrom4(s);
  }

  lemma LetStatementFrom2(s: seq<byte>)
    requires LetStatementBytes(s)
    ensures Lex(s, 3) ==
      [Token(Ident, "five"), Token(Assign, "="), Token(Int, "5"), Token(Semicolon, ";")]
  {
    LetStatementPull2(s);
    LetStatementFrom3(s);
  }

  /** A binding: keyword, identifier, `=`, integer, `;`. */
  lemma LetStatement(s: seq<byte>)
    requires Literal(s) == "let five = 5;"
    ensures Tokenize(s) ==
      [Token(Let, "let"), Token(Ident, "five"), Token(Assign, "="), Token(Int, "5"),
       Token(Semicolon, ";")]
  {
    LetStatementText(s);
    LetStatementPull1(s);
    LetStatementFrom2(s);
  }

  /** The bytes of the input of `FunctionLiteral`, one by one. */
  ghost predicate FunctionLiteralBytes(s: seq<byte>)
  {
    |s| == 19 && s[0] == 102 && s[1] == 110 && s[2] == 40 && s[3] == 120 && s[4] == 44 &&
    s[5] == 32 && s[6] == 121 && s[7] == 41 && s[8] == 32 && s[9] == 123 && s[10] == 32 &&
    s[11] == 120 && s[12] == 32 && s[13] == 43 && s[14] == 32 && s[15] == 121 && s[16] == 59 &&
    s[17] == 32 && s[18] == 125
  }

  /** The only input whose text is that of `FunctionLiteral`. */
  lemma FunctionLiteralCodes(s: seq<byte>)
    requires Literal(s) == "fn(x, y) { x + y; }"
    ensures s == [102, 110, 40, 120, 44, 32, 121, 41, 32, 123, 32, 120, 32, 43, 32, 121, 59, 32, 125]
  {
    var codes: seq<byte> := [102, 110, 40, 120, 44, 32, 121, 41, 32, 123, 32, 120, 32, 43, 32, 121, 59, 32, 125];
    assert Literal(codes) == "fn(x, y) { x + y; }";
    LiteralInjective(s, codes);
  }

  /** The bytes of that input, one by one. */
  lemma FunctionLiteralText(s: seq<byte>)
    requires Literal(s) == "fn(x, y) { x + y; }"
    ensures FunctionLiteralBytes(s)
  {
    FunctionLiteralCodes(s);
  }

  lemma FunctionLiteralPull1(s: seq<byte>)
    requires FunctionLiteralBytes(s)
    ensures Lex(s, 0) == [Token(Function, "fn")] + Lex(s, 2)
  {
    assert Literal(s)[0..2] == "fn";
    LexIdentifierAt(s, 0, 2);
  }

  lemma FunctionLiteralPull2(s: seq<byte>)
    requires FunctionLiteralBytes(s)
    ensures Lex(s, 2) == [Token(LParen, "(")] + Lex(s, 3)
  {
    LexSingleAt(s, 2);
  }

  lemma FunctionLiteralPull3(s: seq<byte>)
    requires FunctionLiteralBytes(s)
    ensures Lex(s, 3) == [Token(Ident, "x")] + Lex(s, 4)
  {
    assert Literal(s)[3..4] == "x";
    LexIdentifierAt(s, 3, 4);
  }

  lemma FunctionLiteralPull4(s: seq<byte>)
    requires FunctionLiteralBytes(s)
    ensures Lex(s, 4) == [Token(Comma, ",")] + Lex(s, 5)
  {
    LexSingleAt(s, 4);
  }

  lemma FunctionLiteralPull5(s: seq<byte>)
    requires FunctionLiteralBytes(s)
    ensures Lex(s, 5) == [Token(Ident, "y")] + Lex(s, 7)
  {
    SkippableByteIsIgnored(s, 5);
    assert Literal(s)[6..7] == "y";
    LexIdentifierAt(s, 6, 7);
  }

  lemma FunctionLiteralPull6(s: seq<byte>)
    requires FunctionLiteralBytes(s)
    ensures Lex(s, 7) == [Token(RParen, ")")] + Lex(s, 8)
  {
    LexSingleAt(s, 7);
  }

  lemma FunctionLiteralPull7(s: seq<byte>)
    requires FunctionLiteralBytes(s)
    ensures Lex(s, 8) == [Token(LBrace, "{")] + Lex(s, 10)
  {
    SkippableByteIsIgnored(s, 8);
    LexSingleAt(s, 9);
  }

  lemma FunctionLiteralPull8(s: seq<byte>)
    requires FunctionLiteralBytes(s)
    ensures Lex(s, 10) == [Token(Ident, "x")] + Lex(s, 12)
  {
    SkippableByteIsIgnored(s, 10);
    assert Literal(s)[11..12] == "x";
    LexIdentifierAt(s, 11, 12);
  }

  lemma FunctionLiteralPull9(s: seq<byte>)
    requires FunctionLiteralBytes(s)
    ensures Lex(s, 12) == [Token(Plus, "+")] + Lex(s, 14)
  {
    SkippableByteIsIgnored(s, 12);
    LexSingleAt(s, 13);
  }

  lemma FunctionLiteralPull10(s: seq<byte>)
    requires FunctionLiteralBytes(s)
    ensures Lex(s, 14) == [Token(Ident, "y")] + Lex(s, 16)
  {
    SkippableByteIsIgnored(s, 14);
    assert Literal(s)[15..16] == "y";
    LexIdentifierAt(s, 15, 16);
  }

  lemma FunctionLiteralPull11(s: seq<byte>)
    requires FunctionLiteralBytes(s)
    ensures Lex(s, 16) == [Token(Semicolon, ";")] + Lex(s, 17)
  {
    LexSingleAt(s, 16);
  }

  lemma FunctionLiteralPull12(s: seq<byte>)
    requires FunctionLiteralBytes(s)
    ensures Lex(s, 17) == [Token(RBrace, "}")]
  {
    SkippableByteIsIgnored(s, 17);
    LexSingleAt(s, 18);
    assert Lex(s, 19) == [];
  }

  lemma FunctionLiteralFrom11(s: seq<byte>)
    requires FunctionLiteralBytes(s)
    ensures Lex(s, 16) ==
      [Token(Semicolon, ";"), Token(RBrace, "}")]
  {
    FunctionLiteralPull11(s);
    FunctionLiteralPull12(s);
  }

  lemma FunctionLiteralFrom10(s: seq<byte>)
    requires FunctionLiteralBytes(s)
    ensures Lex(s, 14) ==
      [Token(Ident, "y"), Token(Semicolon, ";"), Token(RBrace, "}")]
  {
    FunctionLiteralPull10(s);
    FunctionLiteralFrom11(s);
  }

  lemma FunctionLiteralFrom9(s: seq<byte>)
    requires FunctionLiteralBytes(s)
    ensures Lex(s, 12) ==
      [Token(Plus, "+"), Token(Ident, "y"), Token(Semicolon, ";"), Token(RBrace, "}")]
  {
    FunctionLiteralPull9(s);
    FunctionLiteralFrom10(s);
  }

  lemma FunctionLiteralFrom8(s: seq<byte>)
    requires FunctionLiteralBytes(s)
    ensures Lex(s, 10) ==
      [Token(Ident, "x"), Token(Plus, "+"), Token(Ident, "y"), Token(Semicolon, ";"),
       Token(RBrace, "}")]
  {
    FunctionLiteralPull8(s);
    FunctionLiteralFrom9(s);
  }

  lemma FunctionLiteralFrom7(s: seq<byte>)
    requires FunctionLiteralBytes(s)
    ensures Lex(s, 8) ==
      [Token(LBrace, "{"), Token(Ident, "x"), Token(Plus, "+"), Token(Ident, "y"),
       Token(Semicolon, ";"), Token(RBrace, "}")]
  {
    FunctionLiteralPull7(s);
    FunctionLiteralFrom8(s);
  }

  lemma FunctionLiteralFrom6(s: seq<byte>)
    requires FunctionLiteralBytes(s)
    ensures Lex(s, 7) ==
      [Token(RParen, ")"), Token(LBrace, "{"), Token(Ident, "x"), Token(Plus, "+"),
       Token(Ident, "y"), Token(Semicolon, ";"), Token(RBrace, "}")]
  {
    FunctionLiteralPull6(s);
    FunctionLiteralFrom7(s);
  }

  lemma FunctionLiteralFrom5(s: seq<byte>)
    requires FunctionLiteralBytes(s)
    ensures Lex(s, 5) ==
      [Token(Ident, "y"), Token(RParen, ")"), Token(LBrace, "{"), Token(Ident, "x"),
       Token(Plus, "+"), Token(Ident, "y"), Token(Semicolon, ";"), Token(RBrace, "}")]
  {
    FunctionLiteralPull5(s);
    FunctionLiteralFrom6(s);
  }

  lemma FunctionLiteralFrom4(s: seq<byte>)
    requires FunctionLiteralBytes(s)
    ensures Lex(s, 4) ==
      [Token(Comma, ","), Token(Ident, "y"), Token(RParen, ")"), Token(LBrace, "{"),
       Token(Ident, "x"), Token(Plus, "+"), Token(Ident, "y"), Token(Semicolon, ";"),
       Token(RBrace, "}")]
  {
    FunctionLiteralPull4(s);
    FunctionLiteralFrom5(s);
  }

  lemma FunctionLiteralFrom3(s: seq<byte>)
    requires FunctionLiteralBytes(s)
    ensures Lex(s, 3) ==
      [Token(Ident, "x"), Token(Comma, ","), Token(Ident, "y"), Token(RParen, ")"),
       Token(LBrace, "{"), Token(Ident, "x"), Token(Plus, "+"), Token(Ident, "y"),
       Token(Semicolon, ";"), Token(RBrace, "}")]
  {
    FunctionLiteralPull3(s);
    FunctionLiteralFrom4(s);
  }

  lemma FunctionLiteralFrom2(s: seq<byte>)
    requires FunctionLiteralBytes(s)
    ensures Lex(s, 2) ==
      [Token(LParen, "("), Token(Ident, "x"), Token(Comma, ","), Token(Ident, "y"),
       Token(RParen, ")"), Token(LBrace, "{"), Token(Ident, "x"), Token(Plus, "+"),
       Token(Ident, "y"), Token(Semicolon, ";"), Token(RBrace, "}")]
  {
    FunctionLiteralPull2(s);
    FunctionLiteralFrom3(s);
  }

  /** A function literal: `fn` becomes FUNCTION and each punctuation byte is a token of its own. */
  lemma FunctionLiteral(s: seq<byte>)
    requires Literal(s) == "fn(x, y) { x + y; }"
    ensures Tokenize(s) ==
      [Token(Function, "fn"), Token(LParen, "("), Token(Ident, "x"), Token(Comma, ","),
       Token(Ident, "y"), Token(RParen, ")"), Token(LBrace, "{"), Token(Ident, "x"),
       Token(Plus, "+"), Token(Ident, "y"), Token(Semicolon, ";"), Token(RBrace, "}")]
  {
    FunctionLiteralText(s);
    FunctionLiteralPull1(s);
    FunctionLiteralFrom2(s);
  }

  /** The bytes of the input of `IllegalByte`, one by one. */
  ghost predicate IllegalByteBytes(s: seq<byte>)
  {
    |s| == 2 && s[0] == 64 && s[1] == 120
  }

  /** The only input whose text is that of `IllegalByte`. */
  lemma IllegalByteCodes(s: seq<byte>)
    requires Literal(s) == "@x"
    ensures s == [64, 120]
  {
    var codes: seq<byte> := [64, 120];
    assert Literal(codes) == "@x";
    LiteralInjective(s, codes);
  }

  /** The bytes of that input, one by one. */
  lemma IllegalByteText(s: seq<byte>)
    requires Literal(s) == "@x"
    ensures IllegalByteBytes(s)
  {
    IllegalByteCodes(s);
  }

  /** A byte outside every class is an ILLEGAL token holding just that byte, and lexing goes on after it. */
  lemma IllegalByte(s: seq<byte>)
    requires Literal(s) == "@x"
    ensures Tokenize(s) ==
      [Token(Illegal, "@"), Token(Ident, "x")]
  {
    IllegalByteText(s);
    LexSingleAt(s, 0);
    assert Literal(s)[1..2] == "x";
    LexIdentifierAt(s, 1, 2);
    assert Lex(s, 2) == [];
  }

  /** The bytes of the input of `DigitEndsIdentifier`, one by one. */
  ghost predicate DigitEndsIdentifierBytes(s: seq<byte>)
  {
    |s| == 2 && s[0] == 120 && s[1] == 49
  }

  /** The only input whose text is that of `DigitEndsIdentifier`. */
  lemma DigitEndsIdentifierCodes(s: seq<byte>)
    requires Literal(s) == "x1"
    ensures s == [120, 49]
  {
    var codes: seq<byte> := [120, 49];
    assert Literal(codes) == "x1";
    LiteralInjective(s, codes);
  }

  /** The bytes of that input, one by one. */
  lemma DigitEndsIdentifierText(s: seq<byte>)
    requires Literal(s) == "x1"
    ensures DigitEndsIdentifierBytes(s)
  {
    DigitEndsIdentifierCodes(s);
  }

  /** Identifiers hold no digits: `x1` is an identifier followed by an integer. */
  lemma DigitEndsIdentifier(s: seq<byte>)
    requires Literal(s) == "x1"
    ensures Tokenize(s) ==
      [Token(Ident, "x"), Token(Int, "1")]
  {
    DigitEndsIdentifierText(s);
    assert Literal(s)[0..1] == "x";
    LexIdentifierAt(s, 0, 1);
    assert Literal(s)[1..2] == "1";
    LexIntegerAt(s, 1, 2);
    assert Lex(s, 2) == [];
  }

  /** The bytes of the input of `KeywordsAreExact`, one by one. */
  ghost predicate KeywordsAreExactBytes(s: seq<byte>)
  {
    |s| == 15 && s[0] == 108 && s[1] == 101 && s[2] == 116 && s[3] == 115 && s[4] == 32 &&
    s[5] == 76 && s[6] == 101 && s[7] == 116 && s[8] == 32 && s[9] == 102 && s[10] == 110 &&
    s[11] == 95 && s[12] == 32 && s[13] == 102 && s[14] == 110
  }

  /** The only input whose text is that of `KeywordsAreExact`. */
  lemma KeywordsAreExactCodes(s: seq<byte>)
    requires Literal(s) == "lets Let fn_ fn"
    ensures s == [108, 101, 116, 115, 32, 76, 101, 116, 32, 102, 110, 95, 32, 102, 110]
  {
    var codes: seq<byte> := [108, 101, 116, 115, 32, 76, 101, 116, 32, 102, 110, 95, 32, 102, 110];
    assert Literal(codes) == "lets Let fn_ fn";
    LiteralInjective(s, codes);
  }

  /** The bytes of that input, one by one. */
  lemma KeywordsAreExactText(s: seq<byte>)
    requires Literal(s) == "lets Let fn_ fn"
    ensures KeywordsAreExactBytes(s)
  {
    KeywordsAreExactCodes(s);
  }

  lemma KeywordsAreExactPull1(s: seq<byte>)
    requires KeywordsAreExactBytes(s)
    ensures Lex(s, 0) == [Token(Ident, "lets")] + Lex(s, 4)
  {
    assert Literal(s)[0..4] == "lets";
    LexIdentifierAt(s, 0, 4);
  }

  lemma KeywordsAreExactPull2(s: seq<byte>)
    requires KeywordsAreExactBytes(s)
    ensures Lex(s, 4) == [Token(Ident, "Let")] + Lex(s, 8)
  {
    SkippableByteIsIgnored(s, 4);
    assert Literal(s)[5..8] == "Let";
    LexIdentifierAt(s, 5, 8);
  }

  lemma KeywordsAreExactPull3(s: seq<byte>)
    requires KeywordsAreExactBytes(s)
    ensures Lex(s, 8) == [Token(Ident, "fn_")] + Lex(s, 12)
  {
    SkippableByteIsIgnored(s, 8);
    assert Literal(s)[9..12] == "fn_";
    LexIdentifierAt(s, 9, 12);
  }

  lemma KeywordsAreExactPull4(s: seq<byte>)
    requires KeywordsAreExactBytes(s)
    ensures Lex(s, 12) == [Token(Function, "fn")]
  {
    SkippableByteIsIgnored(s, 12);
    assert Literal(s)[13..15] == "fn";
    LexIdentifierAt(s, 13, 15);
    assert Lex(s, 15) == [];
  }

  lemma KeywordsAreExactFrom3(s: seq<byte>)
    requires KeywordsAreExactBytes(s)
    ensures Lex(s, 8) ==
      [Token(Ident, "fn_"), Token(Function, "fn")]
  {
    KeywordsAreExactPull3(s);
    KeywordsAreExactPull4(s);
  }

  lemma KeywordsAreExactFrom2(s: seq<byte>)
    requires KeywordsAreExactBytes(s)
    ensures Lex(s, 4) ==
      [Token(Ident, "Let"), Token(Ident, "fn_"), Token(Function, "fn")]
  {
    KeywordsAreExactPull2(s);
    KeywordsAreExactFrom3(s);
  }

  /** Only the exact words `let` and `fn` are keywords; a longer word or another case is an identifier. */
  lemma KeywordsAreExact(s: seq<byte>)
    requires Literal(s) == "lets Let fn_ fn"
    ensures Tokenize(s) ==
      [Token(Ident, "lets"), Token(Ident, "Let"), Token(Ident, "fn_"), Token(Function, "fn")]
  {
    KeywordsAreExactText(s);
    KeywordsAreExactPull1(s);
    KeywordsAreExactFrom2(s);
  }

  /** The bytes of the input of `NulSkippedTabIllegal`, one by one. */
  ghost predicate NulSkippedTabIllegalBytes(s: seq<byte>)
  {
    |s| == 5 && s[0] == 0 && s[1] == 9 && s[2] == 32 && s[3] == 13 && s[4] == 10
  }

  /** The only input whose text is that of `NulSkippedTabIllegal`. */
  lemma NulSkippedTabIllegalCodes(s: seq<byte>)
    requires Literal(s) == "\0\t \r\n"
    ensures s == [0, 9, 32, 13, 10]
  {
    var codes: seq<byte> := [0, 9, 32, 13, 10];
    assert Literal(codes) == "\0\t \r\n";
    LiteralInjective(s, codes);
  }

  /** The bytes of that input, one by one. */
  lemma NulSkippedTabIllegalText(s: seq<byte>)
    requires Literal(s) == "\0\t \r\n"
    ensures NulSkippedTabIllegalBytes(s)
  {
    NulSkippedTabIllegalCodes(s);
  }

  /** NUL, space and newline are skipped; tab and carriage return are ILLEGAL. */
  lemma NulSkippedTabIllegal(s: seq<byte>)
    requires Literal(s) == "\0\t \r\n"
    ensures Tokenize(s) ==
      [Token(Illegal, "\t"), Token(Illegal, "\r")]
  {
    NulSkippedTabIllegalText(s);
    SkippableByteIsIgnored(s, 0);
    LexSingleAt(s, 1);
    SkippableByteIsIgnored(s, 2);
    LexSingleAt(s, 3);
    LexSkipsAhead(s, 4, 5);
    assert Lex(s, 5) == [];
  }

  /** The bytes of the input of `SampleLine1`, one by one. */
  ghost predicate SampleLine1Bytes(s: seq<byte>)
  {
    |s| == 14 && s[0] == 108 && s[1] == 101 && s[2] == 116 && s[3] == 32 && s[4] == 102 &&
    s[5] == 105 && s[6] == 118 && s[7] == 101 && s[8] == 32 && s[9] == 61 && s[10] == 32 &&
    s[11] == 53 && s[12] == 59 && s[13] == 10
  }

  /** The only input whose text is that of `SampleLine1`. */
  lemma SampleLine1Codes(s: seq<byte>)
    requires Literal(s) == "let five = 5;\n"
    ensures s == [108, 101, 116, 32, 102, 105, 118, 101, 32, 61, 32, 53, 59, 10]
  {
    var codes: seq<byte> := [108, 101, 116, 32, 102, 105, 118, 101, 32, 61, 32, 53, 59, 10];
    assert Literal(codes) == "let five = 5;\n";
    LiteralInjective(s, codes);
  }

  /** The bytes of that input, one by one. */
  lemma SampleLine1Text(s: seq<byte>)
    requires Literal(s) == "let five = 5;\n"
    ensures SampleLine1Bytes(s)
  {
    SampleLine1Codes(s);
  }

  lemma SampleLine1Pull1(s: seq<byte>)
    requires SampleLine1Bytes(s)
    ensures Lex(s, 0) == [Token(Let, "let")] + Lex(s, 3)
  {
    assert Literal(s)[0..3] == "let";
    LexIdentifierAt(s, 0, 3);
  }

  lemma SampleLine1Pull2(s: seq<byte>)
    requires SampleLine1Bytes(s)
    ensures Lex(s, 3) == [Token(Ident, "five")] + Lex(s, 8)
  {
    SkippableByteIsIgnored(s, 3);
    assert Literal(s)[4..8] == "five";
    LexIdentifierAt(s, 4, 8);
  }

  lemma SampleLine1Pull3(s: seq<byte>)
    requires SampleLine1Bytes(s)
    ensures Lex(s, 8) == [Token(Assign, "=")] + Lex(s, 10)
  {
    SkippableByteIsIgnored(s, 8);
    LexSingleAt(s, 9);
  }

  lemma SampleLine1Pull4(s: seq<byte>)
    requires SampleLine1Bytes(s)
    ensures Lex(s, 10) == [Token(Int, "5")] + Lex(s, 12)
  {
    SkippableByteIsIgnored(s, 10);
    assert Literal(s)[11..12] == "5";
    LexIntegerAt(s, 11, 12);
  }

  lemma SampleLine1Pull5(s: seq<byte>)
    requires SampleLine1Bytes(s)
    ensures Lex(s, 12) == [Token(Semicolon, ";")]
  {
    LexSingleAt(s, 12);
    LexSkipsAhead(s, 13, 14);
    assert Lex(s, 14) == [];
  }

  lemma SampleLine1From4(s: seq<byte>)
    requires SampleLine1Bytes(s)
    ensures Lex(s, 10) ==
      [Token(Int, "5"), Token(Semicolon, ";")]
  {
    SampleLine1Pull4(s);
    SampleLine1Pull5(s);
  }

  lemma SampleLine1From3(s: seq<byte>)
    requires SampleLine1Bytes(s)
    ensures Lex(s, 8) ==
      [Token(Assign, "="), Token(Int, "5"), Token(Semicolon, ";")]
  {
    SampleLine1Pull3(s);
    SampleLine1From4(s);
  }

  lemma SampleLine1From2(s: seq<byte>)
    requires SampleLine1Bytes(s)
    ensures Lex(s, 3) ==
      [Token(Ident, "five"), Token(Assign, "="), Token(Int, "5"), Token(Semicolon, ";")]
  {
    SampleLine1Pull2(s);
    SampleLine1From3(s);
  }

  /** The first line of the sample program. */
  lemma SampleLine1(s: seq<byte>)
    requires Literal(s) == "let five = 5;\n"
    ensures Tokenize(s) ==
      [Token(Let, "let"), Token(Ident, "five"), Token(Assign, "="), Token(Int, "5"),
       Token(Semicolon, ";")]
  {
    SampleLine1Text(s);
    SampleLine1Pull1(s);
    SampleLine1From2(s);
  }

  /** The bytes of the input of `SampleLine2`, one by one. */
  ghost predicate SampleLine2Bytes(s: seq<byte>)
  {
    |s| == 14 && s[0] == 108 && s[1] == 101 && s[2] == 116 && s[3] == 32 && s[4] == 116 &&
    s[5] == 101 && s[6] == 110 && s[7] == 32 && s[8] == 61 && s[9] == 32 && s[10] == 49 &&
    s[11] == 48 && s[12] == 59 && s[13] == 10
  }

  /** The only input whose text is that of `SampleLine2`. */
  lemma SampleLine2Codes(s: seq<byte>)
    requires Literal(s) == "let ten = 10;\n"
    ensures s == [108, 101, 116, 32, 116, 101, 110, 32, 61, 32, 49, 48, 59, 10]
  {
    var codes: seq<byte> := [108, 101, 116, 32, 116, 101, 110, 32, 61, 32, 49, 48, 59, 10];
    assert Literal(codes) == "let ten = 10;\n";
    LiteralInjective(s, codes);
  }

  /** The bytes of that input, one by one. */
  lemma SampleLine2Text(s: seq<byte>)
    requires Literal(s) == "let ten = 10;\n"
    ensures SampleLine2Bytes(s)
  {
    SampleLine2Codes(s);
  }

  lemma SampleLine2Pull1(s: seq<byte>)
    requires SampleLine2Bytes(s)
    ensures Lex(s, 0) == [Token(Let, "let")] + Lex(s, 3)
  {
    assert Literal(s)[0..3] == "let";
    LexIdentifierAt(s, 0, 3);
  }

  lemma SampleLine2Pull2(s: seq<byte>)
    requires SampleLine2Bytes(s)
    ensures Lex(s, 3) == [Token(Ident, "ten")] + Lex(s, 7)
  {
    SkippableByteIsIgnored(s, 3);
    assert Literal(s)[4..7] == "ten";
    LexIdentifierAt(s, 4, 7);
  }

  lemma SampleLine2Pull3(s: seq<byte>)
    requires SampleLine2Bytes(s)
    ensures Lex(s, 7) == [Token(Assign, "=")] + Lex(s, 9)
  {
    SkippableByteIsIgnored(s, 7);
    LexSingleAt(s, 8);
  }

  lemma SampleLine2Pull4(s: seq<byte>)
    requires SampleLine2Bytes(s)
    ensures Lex(s, 9) == [Token(Int, "10")] + Lex(s, 12)
  {
    SkippableByteIsIgnored(s, 9);
    assert Literal(s)[10..12] == "10";
    LexIntegerAt(s, 10, 12);
  }

  lemma SampleLine2Pull5(s: seq<byte>)
    requires SampleLine2Bytes(s)
    ensures Lex(s, 12) == [Token(Semicolon, ";")]
  {
    LexSingleAt(s, 12);
    LexSkipsAhead(s, 13, 14);
    assert Lex(s, 14) == [];
  }

  lemma SampleLine2From4(s: seq<byte>)
    requires SampleLine2Bytes(s)
    ensures Lex(s, 9) ==
      [Token(Int, "10"), Token(Semicolon, ";")]
  {
    SampleLine2Pull4(s);
    SampleLine2Pull5(s);
  }

  lemma SampleLine2From3(s: seq<byte>)
    requires SampleLine2Bytes(s)
    ensures Lex(s, 7) ==
      [Token(Assign, "="), Token(Int, "10"), Token(Semicolon, ";")]
  {
    SampleLine2Pull3(s);
    SampleLine2From4(s);
  }

  lemma SampleLine2From2(s: seq<byte>)
    requires SampleLine2Bytes(s)
    ensures Lex(s, 3) ==
      [Token(Ident, "ten"), Token(Assign, "="), Token(Int, "10"), Token(Semicolon, ";")]
  {
    SampleLine2Pull2(s);
    SampleLine2From3(s);
  }

  /** The second line of the sample program. */
  lemma SampleLine2(s: seq<byte>)
    requires Literal(s) == "let ten = 10;\n"
    ensures Tokenize(s) ==
      [Token(Let, "let"), Token(Ident, "ten"), Token(Assign, "="), Token(Int, "10"),
       Token(Semicolon, ";")]
  {
    SampleLine2Text(s);
    SampleLine2Pull1(s);
    SampleLine2From2(s);
  }

  /** The bytes of the input of `BlankLine`, one by one. */
  ghost predicate BlankLineBytes(s: seq<byte>)
  {
    |s| == 1 && s[0] == 10
  }

  /** The only input whose text is that of `BlankLine`. */
  lemma BlankLineCodes(s: seq<byte>)
    requires Literal(s) == "\n"
    ensures s == [10]
  {
    var codes: seq<byte> := [10];
    assert Literal(codes) == "\n";
    LiteralInjective(s, codes);
  }

  /** The bytes of that input, one by one. */
  lemma BlankLineText(s: seq<byte>)
    requires Literal(s) == "\n"
    ensures BlankLineBytes(s)
  {
    BlankLineCodes(s);
  }

  /** A blank line. */
  lemma BlankLine(s: seq<byte>)
    requires Literal(s) == "\n"
    ensures Tokenize(s) == []
  {
    BlankLineText(s);
    LexSkipsAhead(s, 0, 1);
    assert Lex(s, 1) == [];
  }

  /** The bytes of the input of `SampleLine4`, one by one. */
  ghost predicate SampleLine4Bytes(s: seq<byte>)
  {
    |s| == 21 && s[0] == 108 && s[1] == 101 && s[2] == 116 && s[3] == 32 && s[4] == 97 &&
    s[5] == 100 && s[6] == 100 && s[7] == 32 && s[8] == 61 && s[9] == 32 && s[10] == 102 &&
    s[11] == 110 && s[12] == 40 && s[13] == 120 && s[14] == 44 && s[15] == 32 &&
    s[16] == 121 && s[17] == 41 && s[18] == 32 && s[19] == 123 && s[20] == 10
  }

  /** The only input whose text is that of `SampleLine4`. */
  lemma SampleLine4Codes(s: seq<byte>)
    requires Literal(s) == "let add = fn(x, y) {\n"
    ensures s == [108, 101, 116, 32, 97, 100, 100, 32, 61, 32, 102, 110, 40, 120, 44, 32, 121, 41, 32, 123, 10]
  {
    var codes: seq<byte> := [108, 101, 116, 32, 97, 100, 100, 32, 61, 32, 102, 110, 40, 120, 44, 32, 121, 41, 32, 123, 10];
    assert Literal(codes) == "let add = fn(x, y) {\n";
    LiteralInjective(s, codes);
  }

  /** The bytes of that input, one by one. */
  lemma SampleLine4Text(s: seq<byte>)
    requires Literal(s) == "let add = fn(x, y) {\n"
    ensures SampleLine4Bytes(s)
  {
    SampleLine4Codes(s);
  }

  lemma SampleLine4Pull1(s: seq<byte>)
    requires SampleLine4Bytes(s)
    ensures Lex(s, 0) == [Token(Let, "let")] + Lex(s, 3)
  {
    assert Literal(s)[0..3] == "let";
    LexIdentifierAt(s, 0, 3);
  }

  lemma SampleLine4Pull2(s: seq<byte>)
    requires SampleLine4Bytes(s)
    ensures Lex(s, 3) == [Token(Ident, "add")] + Lex(s, 7)
  {
    SkippableByteIsIgnored(s, 3);
    assert Literal(s)[4..7] == "add";
    LexIdentifierAt(s, 4, 7);
  }

  lemma SampleLine4Pull3(s: seq<byte>)
    requires SampleLine4Bytes(s)
    ensures Lex(s, 7) == [Token(Assign, "=")] + Lex(s, 9)
  {
    SkippableByteIsIgnored(s, 7);
    LexSingleAt(s, 8);
  }

  lemma SampleLine4Pull4(s: seq<byte>)
    requires SampleLine4Bytes(s)
    ensures Lex(s, 9) == [Token(Function, "fn")] + Lex(s, 12)
  {
    SkippableByteIsIgnored(s, 9);
    assert Literal(s)[10..12] == "fn";
    LexIdentifierAt(s, 10, 12);
  }

  lemma SampleLine4Pull5(s: seq<byte>)
    requires SampleLine4Bytes(s)
    ensures Lex(s, 12) == [Token(LParen, "(")] + Lex(s, 13)
  {
    LexSingleAt(s, 12);
  }

  lemma SampleLine4Pull6(s: seq<byte>)
    requires SampleLine4Bytes(s)
    ensures Lex(s, 13) == [Token(Ident, "x")] + Lex(s, 14)
  {
    assert Literal(s)[13..14] == "x";
    LexIdentifierAt(s, 13, 14);
  }

  lemma SampleLine4Pull7(s: seq<byte>)
    requires SampleLine4Bytes(s)
    ensures Lex(s, 14) == [Token(Comma, ",")] + Lex(s, 15)
  {
    LexSingleAt(s, 14);
  }

  lemma SampleLine4Pull8(s: seq<byte>)
    requires SampleLine4Bytes(s)
    ensures Lex(s, 15) == [Token(Ident, "y")] + Lex(s, 17)
  {
    SkippableByteIsIgnored(s, 15);
    assert Literal(s)[16..17] == "y";
    LexIdentifierAt(s, 16, 17);
  }

  lemma SampleLine4Pull9(s: seq<byte>)
    requires SampleLine4Bytes(s)
    ensures Lex(s, 17) == [Token(RParen, ")")] + Lex(s, 18)
  {
    LexSingleAt(s, 17);
  }

  lemma SampleLine4Pull10(s: seq<byte>)
    requires SampleLine4Bytes(s)
    ensures Lex(s, 18) == [Token(LBrace, "{")]
  {
    SkippableByteIsIgnored(s, 18);
    LexSingleAt(s, 19);
    LexSkipsAhead(s, 20, 21);
    assert Lex(s, 21) == [];
  }

  lemma SampleLine4From9(s: seq<byte>)
    requires SampleLine4Bytes(s)
    ensures Lex(s, 17) ==
      [Token(RParen, ")"), Token(LBrace, "{")]
  {
    SampleLine4Pull9(s);
    SampleLine4Pull10(s);
  }

  lemma SampleLine4From8(s: seq<byte>)
    requires SampleLine4Bytes(s)
    ensures Lex(s, 15) ==
      [Token(Ident, "y"), Token(RParen, ")"), Token(LBrace, "{")]
  {
    SampleLine4Pull8(s);
    SampleLine4From9(s);
  }

  lemma SampleLine4From7(s: seq<byte>)
    requires SampleLine4Bytes(s)
    ensures Lex(s, 14) ==
      [Token(Comma, ","), Token(Ident, "y"), Token(RParen, ")"), Token(LBrace, "{")]
  {
    SampleLine4Pull7(s);
    SampleLine4From8(s);
  }

  lemma SampleLine4From6(s: seq<byte>)
    requires SampleLine4Bytes(s)
    ensures Lex(s, 13) ==
      [Token(Ident, "x"), Token(Comma, ","), Token(Ident, "y"), Token(RParen, ")"),
       Token(LBrace, "{")]
  {
    SampleLine4Pull6(s);
    SampleLine4From7(s);
  }

  lemma SampleLine4From5(s: seq<byte>)
    requires SampleLine4Bytes(s)
    ensures Lex(s, 12) ==
      [Token(LParen, "("), Token(Ident, "x"), Token(Comma, ","), Token(Ident, "y"),
       Token(RParen, ")"), Token(LBrace, "{")]
  {
    SampleLine4Pull5(s);
    SampleLine4From6(s);
  }

  lemma SampleLine4From4(s: seq<byte>)
    requires SampleLine4Bytes(s)
    ensures Lex(s, 9) ==
      [Token(Function, "fn"), Token(LParen, "("), Token(Ident, "x"), Token(Comma, ","),
       Token(Ident, "y"), Token(RParen, ")"), Token(LBrace, "{")]
  {
    SampleLine4Pull4(s);
    SampleLine4From5(s);
  }

  lemma SampleLine4From3(s: seq<byte>)
    requires SampleLine4Bytes(s)
    ensures Lex(s, 7) ==
      [Token(Assign, "="), Token(Function, "fn"), Token(LParen, "("), Token(Ident, "x"),
       Token(Comma, ","), Token(Ident, "y"), Token(RParen, ")"), Token(LBrace, "{")]
  {
    SampleLine4Pull3(s);
    SampleLine4From4(s);
  }

  lemma SampleLine4From2(s: seq<byte>)
    requires SampleLine4Bytes(s)
    ensures Lex(s, 3) ==
      [Token(Ident, "add"), Token(Assign, "="), Token(Function, "fn"), Token(LParen, "("),
       Token(Ident, "x"), Token(Comma, ","), Token(Ident, "y"), Token(RParen, ")"),
       Token(LBrace, "{")]
  {
    SampleLine4Pull2(s);
    SampleLine4From3(s);
  }

  /** The head of the function literal in the sample program. */
  lemma SampleLine4(s: seq<byte>)
    requires Literal(s) == "let add = fn(x, y) {\n"
    ensures Tokenize(s) ==
      [Token(Let, "let"), Token(Ident, "add"), Token(Assign, "="), Token(Function, "fn"),
       Token(LParen, "("), Token(Ident, "x"), Token(Comma, ","), Token(Ident, "y"),
       Token(RParen, ")"), Token(LBrace, "{")]
  {
    SampleLine4Text(s);
    SampleLine4Pull1(s);
    SampleLine4From2(s);
  }

  /** The bytes of the input of `SampleLine5`, one by one. */
  ghost predicate SampleLine5Bytes(s: seq<byte>)
  {
    |s| == 11 && s[0] == 32 && s[1] == 32 && s[2] == 32 && s[3] == 32 && s[4] == 120 &&
    s[5] == 32 && s[6] == 43 && s[7] == 32 && s[8] == 121 && s[9] == 59 && s[10] == 10
  }

  /** The only input whose text is that of `SampleLine5`. */
  lemma SampleLine5Codes(s: seq<byte>)
    requires Literal(s) == "    x + y;\n"
    ensures s == [32, 32, 32, 32, 120, 32, 43, 32, 121, 59, 10]
  {
    var codes: seq<byte> := [32, 32, 32, 32, 120, 32, 43, 32, 121, 59, 10];
    assert Literal(codes) == "    x + y;\n";
    LiteralInjective(s, codes);
  }

  /** The bytes of that input, one by one. */
  lemma SampleLine5Text(s: seq<byte>)
    requires Literal(s) == "    x + y;\n"
    ensures SampleLine5Bytes(s)
  {
    SampleLine5Codes(s);
  }

  lemma SampleLine5Pull1(s: seq<byte>)
    requires SampleLine5Bytes(s)
    ensures Lex(s, 0) == [Token(Ident, "x")] + Lex(s, 5)
  {
    LexSkipsAhead(s, 0, 4);
    assert Literal(s)[4..5] == "x";
    LexIdentifierAt(s, 4, 5);
  }

  lemma SampleLine5Pull2(s: seq<byte>)
    requires SampleLine5Bytes(s)
    ensures Lex(s, 5) == [Token(Plus, "+")] + Lex(s, 7)
  {
    SkippableByteIsIgnored(s, 5);
    LexSingleAt(s, 6);
  }

  lemma SampleLine5Pull3(s: seq<byte>)
    requires SampleLine5Bytes(s)
    ensures Lex(s, 7) == [Token(Ident, "y")] + Lex(s, 9)
  {
    SkippableByteIsIgnored(s, 7);
    assert Literal(s)[8..9] == "y";
    LexIdentifierAt(s, 8, 9);
  }

  lemma SampleLine5Pull4(s: seq<byte>)
    requires SampleLine5Bytes(s)
    ensures Lex(s, 9) == [Token(Semicolon, ";")]
  {
    LexSingleAt(s, 9);
    LexSkipsAhead(s, 10, 11);
    assert Lex(s, 11) == [];
  }

  lemma SampleLine5From3(s: seq<byte>)
    requires SampleLine5Bytes(s)
    ensures Lex(s, 7) ==
      [Token(Ident, "y"), Token(Semicolon, ";")]
  {
    SampleLine5Pull3(s);
    SampleLine5Pull4(s);
  }

  lemma SampleLine5From2(s: seq<byte>)
    requires SampleLine5Bytes(s)
    ensures Lex(s, 5) ==
      [Token(Plus, "+"), Token(Ident, "y"), Token(Semicolon, ";")]
  {
    SampleLine5Pull2(s);
    SampleLine5From3(s);
  }

  /** The body of the function literal. */
  lemma SampleLine5(s: seq<byte>)
    requires Literal(s) == "    x + y;\n"
    ensures Tokenize(s) ==
      [Token(Ident, "x"), Token(Plus, "+"), Token(Ident, "y"), Token(Semicolon, ";")]
  {
    SampleLine5Text(s);
    SampleLine5Pull1(s);
    SampleLine5From2(s);
  }

  /** The bytes of the input of `SampleLine6`, one by one. */
  ghost predicate SampleLine6Bytes(s: seq<byte>)
  {
    |s| == 3 && s[0] == 125 && s[1] == 59 && s[2] == 10
  }

  /** The only input whose text is that of `SampleLine6`. */
  lemma SampleLine6Codes(s: seq<byte>)
    requires Literal(s) == "};\n"
    ensures s == [125, 59, 10]
  {
    var codes: seq<byte> := [125, 59, 10];
    assert Literal(codes) == "};\n";
    LiteralInjective(s, codes);
  }

  /** The bytes of that input, one by one. */
  lemma SampleLine6Text(s: seq<byte>)
    requires Literal(s) == "};\n"
    ensures SampleLine6Bytes(s)
  {
    SampleLine6Codes(s);
  }

  /** The end of the function literal. */
  lemma SampleLine6(s: seq<byte>)
    requires Literal(s) == "};\n"
    ensures Tokenize(s) ==
      [Token(RBrace, "}"), Token(Semicolon, ";")]
  {
    SampleLine6Text(s);
    LexSingleAt(s, 0);
    LexSingleAt(s, 1);
    LexSkipsAhead(s, 2, 3);
    assert Lex(s, 3) == [];
  }

  /** The bytes of the input of `SampleLine8`, one by one. */
  ghost predicate SampleLine8Bytes(s: seq<byte>)
  {
    |s| == 28 && s[0] == 108 && s[1] == 101 && s[2] == 116 && s[3] == 32 && s[4] == 114 &&
    s[5] == 101 && s[6] == 115 && s[7] == 117 && s[8] == 108 && s[9] == 116 && s[10] == 32 &&
    s[11] == 61 && s[12] == 32 && s[13] == 97 && s[14] == 100 && s[15] == 100 && s[16] == 40 &&
    s[17] == 102 && s[18] == 105 && s[19] == 118 && s[20] == 101 && s[21] == 44 &&
    s[22] == 32 && s[23] == 116 && s[24] == 101 && s[25] == 110 && s[26] == 41 && s[27] == 59
  }

  /** The only input whose text is that of `SampleLine8`. */
  lemma SampleLine8Codes(s: seq<byte>)
    requires Literal(s) == "let result = add(five, ten);"
    ensures s == [108, 101, 116, 32, 114, 101, 115, 117, 108, 116, 32, 61, 32, 97, 100, 100, 40, 102, 105, 118, 101, 44, 32, 116, 101, 110, 41, 59]
  {
    var codes: seq<byte> := [108, 101, 116, 32, 114, 101, 115, 117, 108, 116, 32, 61, 32, 97, 100, 100, 40, 102, 105, 118, 101, 44, 32, 116, 101, 110, 41, 59];
    assert Literal(codes) == "let result = add(five, ten);";
    LiteralInjective(s, codes);
  }

  /** The bytes of that input, one by one. */
  lemma SampleLine8Text(s: seq<byte>)
    requires Literal(s) == "let result = add(five, ten);"
    ensures SampleLine8Bytes(s)
  {
    SampleLine8Codes(s);
  }

  lemma SampleLine8Pull1(s: seq<byte>)
    requires SampleLine8Bytes(s)
    ensures Lex(s, 0) == [Token(Let, "let")] + Lex(s, 3)
  {
    assert Literal(s)[0..3] == "let";
    LexIdentifierAt(s, 0, 3);
  }

  lemma SampleLine8Pull2(s: seq<byte>)
    requires SampleLine8Bytes(s)
    ensures Lex(s, 3) == [Token(Ident, "result")] + Lex(s, 10)
  {
    SkippableByteIsIgnored(s, 3);
    assert Literal(s)[4..10] == "result";
    LexIdentifierAt(s, 4, 10);
  }

  lemma SampleLine8Pull3(s: seq<byte>)
    requires SampleLine8Bytes(s)
    ensures Lex(s, 10) == [Token(Assign, "=")] + Lex(s, 12)
  {
    SkippableByteIsIgnored(s, 10);
    LexSingleAt(s, 11);
  }

  lemma SampleLine8Pull4(s: seq<byte>)
    requires SampleLine8Bytes(s)
    ensures Lex(s, 12) == [Token(Ident, "add")] + Lex(s, 16)
  {
    SkippableByteIsIgnored(s, 12);
    assert Literal(s)[13..16] == "add";
    LexIdentifierAt(s, 13, 16);
  }

  lemma SampleLine8Pull5(s: seq<byte>)
    requires SampleLine8Bytes(s)
    ensures Lex(s, 16) == [Token(LParen, "(")] + Lex(s, 17)
  {
    LexSingleAt(s, 16);
  }

  lemma SampleLine8Pull6(s: seq<byte>)
    requires SampleLine8Bytes(s)
    ensures Lex(s, 17) == [Token(Ident, "five")] + Lex(s, 21)
  {
    assert Literal(s)[17..21] == "five";
    LexIdentifierAt(s, 17, 21);
  }

  lemma SampleLine8Pull7(s: seq<byte>)
    requires SampleLine8Bytes(s)
    ensures Lex(s, 21) == [Token(Comma, ",")] + Lex(s, 22)
  {
    LexSingleAt(s, 21);
  }

  lemma SampleLine8Pull8(s: seq<byte>)
    requires SampleLine8Bytes(s)
    ensures Lex(s, 22) == [Token(Ident, "ten")] + Lex(s, 26)
  {
    SkippableByteIsIgnored(s, 22);
    assert Literal(s)[23..26] == "ten";
    LexIdentifierAt(s, 23, 26);
  }

  lemma SampleLine8Pull9(s: seq<byte>)
    requires SampleLine8Bytes(s)
    ensures Lex(s, 26) == [Token(RParen, ")")] + Lex(s, 27)
  {
    LexSingleAt(s, 26);
  }

  lemma SampleLine8Pull10(s: seq<byte>)
    requires SampleLine8Bytes(s)
    ensures Lex(s, 27) == [Token(Semicolon, ";")]
  {
    LexSingleAt(s, 27);
    assert Lex(s, 28) == [];
  }

  lemma SampleLine8From9(s: seq<byte>)
    requires SampleLine8Bytes(s)
    ensures Lex(s, 26) ==
      [Token(RParen, ")"), Token(Semicolon, ";")]
  {
    SampleLine8Pull9(s);
    SampleLine8Pull10(s);
  }

  lemma SampleLine8From8(s: seq<byte>)
    requires SampleLine8Bytes(s)
    ensures Lex(s, 22) ==
      [Token(Ident, "ten"), Token(RParen, ")"), Token(Semicolon, ";")]
  {
    SampleLine8Pull8(s);
    SampleLine8From9(s);
  }

  lemma SampleLine8From7(s: seq<byte>)
    requires SampleLine8Bytes(s)
    ensures Lex(s, 21) ==
      [Token(Comma, ","), Token(Ident, "ten"), Token(RParen, ")"), Token(Semicolon, ";")]
  {
    SampleLine8Pull7(s);
    SampleLine8From8(s);
  }

  lemma SampleLine8From6(s: seq<byte>)
    requires SampleLine8Bytes(s)
    ensures Lex(s, 17) ==
      [Token(Ident, "five"), Token(Comma, ","), Token(Ident, "ten"), Token(RParen, ")"),
       Token(Semicolon, ";")]
  {
    SampleLine8Pull6(s);
    SampleLine8From7(s);
  }

  lemma SampleLine8From5(s: seq<byte>)
    requires SampleLine8Bytes(s)
    ensures Lex(s, 16) ==
      [Token(LParen, "("), Token(Ident, "five"), Token(Comma, ","), Token(Ident, "ten"),
       Token(RParen, ")"), Token(Semicolon, ";")]
  {
    SampleLine8Pull5(s);
    SampleLine8From6(s);
  }

  lemma SampleLine8From4(s: seq<byte>)
    requires SampleLine8Bytes(s)
    ensures Lex(s, 12) ==
      [Token(Ident, "add"), Token(LParen, "("), Token(Ident, "five"), Token(Comma, ","),
       Token(Ident, "ten"), Token(RParen, ")"), Token(Semicolon, ";")]
  {
    SampleLine8Pull4(s);
    SampleLine8From5(s);
  }

  lemma SampleLine8From3(s: seq<byte>)
    requires SampleLine8Bytes(s)
    ensures Lex(s, 10) ==
      [Token(Assign, "="), Token(Ident, "add"), Token(LParen, "("), Token(Ident, "five"),
       Token(Comma, ","), Token(Ident, "ten"), Token(RParen, ")"), Token(Semicolon, ";")]
  {
    SampleLine8Pull3(s);
    SampleLine8From4(s);
  }

  lemma SampleLine8From2(s: seq<byte>)
    requires SampleLine8Bytes(s)
    ensures Lex(s, 3) ==
      [Token(Ident, "result"), Token(Assign, "="), Token(Ident, "add"), Token(LParen, "("),
       Token(Ident, "five"), Token(Comma, ","), Token(Ident, "ten"), Token(RParen, ")"),
       Token(Semicolon, ";")]
  {
    SampleLine8Pull2(s);
    SampleLine8From3(s);
  }

  /** The last line of the sample program: a call. */
  lemma SampleLine8(s: seq<byte>)
    requires Literal(s) == "let result = add(five, ten);"
    ensures Tokenize(s) ==
      [Token(Let, "let"), Token(Ident, "result"), Token(Assign, "="), Token(Ident, "add"),
       Token(LParen, "("), Token(Ident, "five"), Token(Comma, ","), Token(Ident, "ten"),
       Token(RParen, ")"), Token(Semicolon, ";")]
  {
    SampleLine8Text(s);
    SampleLine8Pull1(s);
    SampleLine8From2(s);
  }

  /**
   * The first two lines of the sample program and the blank line after them.
   */
  lemma SampleLines1To3(l1: seq<byte>, l2: seq<byte>, l3: seq<byte>)
    requires Literal(l1) == "let five = 5;\n"
    requires Literal(l2) == "let ten = 10;\n"
    requires Literal(l3) == "\n"
    ensures Tokenize(l1 + l2 + l3) ==
      [Token(Let, "let"), Token(Ident, "five"), Token(Assign, "="), Token(Int, "5"),
       Token(Semicolon, ";"), Token(Let, "let"), Token(Ident, "ten"), Token(Assign, "="),
       Token(Int, "10"), Token(Semicolon, ";")]
  {
    SampleLine1(l1);
    SampleLine2(l2);
    BlankLine(l3);
    LiteralByte(l1, |l1| - 1);
    LexAppend(l1, l2);
    LiteralByte(l2, |l2| - 1);
    assert (l1 + l2)[|l1 + l2| - 1] == l2[|l2| - 1];
    LexAppend(l1 + l2, l3);
  }

  /**
   * The first 4 lines of the sample program.
   */
  lemma SampleLines1To4(l1: seq<byte>, l2: seq<byte>, l3: seq<byte>, l4: seq<byte>)
    requires Literal(l1) == "let five = 5;\n"
    requires Literal(l2) == "let ten = 10;\n"
    requires Literal(l3) == "\n"
    requires Literal(l4) == "let add = fn(x, y) {\n"
    ensures Tokenize(l1 + l2 + l3 + l4) ==
      [Token(Let, "let"), Token(Ident, "five"), Token(Assign, "="), Token(Int, "5"),
       Token(Semicolon, ";"), Token(Let, "let"), Token(Ident, "ten"), Token(Assign, "="),
       Token(Int, "10"), Token(Semicolon, ";"), Token(Let, "let"), Token(Ident, "add"),
       Token(Assign, "="), Token(Function, "fn"), Token(LParen, "("), Token(Ident, "x"),
       Token(Comma, ","), Token(Ident, "y"), Token(RParen, ")"), Token(LBrace, "{")]
  {
    SampleLines1To3(l1, l2, l3);
    SampleLine4(l4);
    LiteralByte(l3, |l3| - 1);
    assert (l1 + l2 + l3)[|l1 + l2 + l3| - 1] == l3[|l3| - 1];
    LexAppend(l1 + l2 + l3, l4);
  }

  /**
   * The first 5 lines of the sample program.
   */
  lemma SampleLines1To5(l1: seq<byte>, l2: seq<byte>, l3: seq<byte>, l4: seq<byte>, l5: seq<byte>)
    requires Literal(l1) == "let five = 5;\n"
    requires Literal(l2) == "let ten = 10;\n"
    requires Literal(l3) == "\n"
    requires Literal(l4) == "let add = fn(x, y) {\n"
    requires Literal(l5) == "    x + y;\n"
    ensures Tokenize(l1 + l2 + l3 + l4 + l5) ==
      [Token(Let, "let"), Token(Ident, "five"), Token(Assign, "="), Token(Int, "5"),
       Token(Semicolon, ";"), Token(Let, "let"), Token(Ident, "ten"), Token(Assign, "="),
       Token(Int, "10"), Token(Semicolon, ";"), Token(Let, "let"), Token(Ident, "add"),
       Token(Assign, "="), Token(Function, "fn"), Token(LParen, "("), Token(Ident, "x"),
       Token(Comma, ","), Token(Ident, "y"), Token(RParen, ")"), Token(LBrace, "{"),
       Token(Ident, "x"), Token(Plus, "+"), Token(Ident, "y"), Token(Semicolon, ";")]
  {
    SampleLines1To4(l1, l2, l3, l4);
    SampleLine5(l5);
    LiteralByte(l4, |l4| - 1);
    assert (l1 + l2 + l3 + l4)[|l1 + l2 + l3 + l4| - 1] == l4[|l4| - 1];
    LexAppend(l1 + l2 + l3 + l4, l5);
  }

  /**
   * The first 6 lines of the sample program.
   */
  lemma SampleLines1To6(l1: seq<byte>, l2: seq<byte>, l3: seq<byte>, l4: seq<byte>, l5: seq<byte>, l6: seq<byte>)
    requires Literal(l1) == "let five = 5;\n"
    requires Literal(l2) == "let ten = 10;\n"
    requires Literal(l3) == "\n"
    requires Literal(l4) == "let add = fn(x, y) {\n"
    requires Literal(l5) == "    x + y;\n"
    requires Literal(l6) == "};\n"
    ensures Tokenize(l1 + l2 + l3 + l4 + l5 + l6) ==
      [Token(Let, "let"), Token(Ident, "five"), Token(Assign, "="), Token(Int, "5"),
       Token(Semicolon, ";"), Token(Let, "let"), Token(Ident, "ten"), Token(Assign, "="),
       Token(Int, "10"), Token(Semicolon, ";"), Token(Let, "let"), Token(Ident, "add"),
       Token(Assign, "="), Token(Function, "fn"), Token(LParen, "("), Token(Ident, "x"),
       Token(Comma, ","), Token(Ident, "y"), Token(RParen, ")"), Token(LBrace, "{"),
       Token(Ident, "x"), Token(Plus, "+"), Token(Ident, "y"), Token(Semicolon, ";"),
       Token(RBrace, "}"), Token(Semicolon, ";")]
  {
    SampleLines1To5(l1, l2, l3, l4, l5);
    SampleLine6(l6);
    LiteralByte(l5, |l5| - 1);
    assert (l1 + l2 + l3 + l4 + l5)[|l1 + l2 + l3 + l4 + l5| - 1] == l5[|l5| - 1];
    LexAppend(l1 + l2 + l3 + l4 + l5, l6);
  }

  /**
   * The first 7 lines of the sample program.
   */
  lemma SampleLines1To7(l1: seq<byte>, l2: seq<byte>, l3: seq<byte>, l4: seq<byte>, l5: seq<byte>, l6: seq<byte>, l7: seq<byte>)
    requires Literal(l1) == "let five = 5;\n"
    requires Literal(l2) == "let ten = 10;\n"
    requires Literal(l3) == "\n"
    requires Literal(l4) == "let add = fn(x, y) {\n"
    requires Literal(l5) == "    x + y;\n"
    requires Literal(l6) == "};\n"
    requires Literal(l7) == "\n"
    ensures Tokenize(l1 + l2 + l3 + l4 + l5 + l6 + l7) ==
      [Token(Let, "let"), Token(Ident, "five"), Token(Assign, "="), Token(Int, "5"),
       Token(Semicolon, ";"), Token(Let, "let"), Token(Ident, "ten"), Token(Assign, "="),
       Token(Int, "10"), Token(Semicolon, ";"), Token(Let, "let"), Token(Ident, "add"),
       Token(Assign, "="), Token(Function, "fn"), Token(LParen, "("), Token(Ident, "x"),
       Token(Comma, ","), Token(Ident, "y"), Token(RParen, ")"), Token(LBrace, "{"),
       Token(Ident, "x"), Token(Plus, "+"), Token(Ident, "y"), Token(Semicolon, ";"),
       Token(RBrace, "}"), Token(Semicolon, ";")]
  {
    SampleLines1To6(l1, l2, l3, l4, l5, l6);
    BlankLine(l7);
    LiteralByte(l6, |l6| - 1);
    assert (l1 + l2 + l3 + l4 + l5 + l6)[|l1 + l2 + l3 + l4 + l5 + l6| - 1] == l6[|l6| - 1];
    LexAppend(l1 + l2 + l3 + l4 + l5 + l6, l7);
  }

  /**
   * All eight lines of the sample program.
   */
  lemma SampleLines1To8(l1: seq<byte>, l2: seq<byte>, l3: seq<byte>, l4: seq<byte>, l5: seq<byte>, l6: seq<byte>, l7: seq<byte>, l8: seq<byte>)
    requires Literal(l1) == "let five = 5;\n"
    requires Literal(l2) == "let ten = 10;\n"
    requires Literal(l3) == "\n"
    requires Literal(l4) == "let add = fn(x, y) {\n"
    requires Literal(l5) == "    x + y;\n"
    requires Literal(l6) == "};\n"
    requires Literal(l7) == "\n"
    requires Literal(l8) == "let result = add(five, ten);"
    ensures Tokenize(l1 + l2 + l3 + l4 + l5 + l6 + l7 + l8) ==
      [Token(Let, "let"), Token(Ident, "five"), Token(Assign, "="), Token(Int, "5"),
       Token(Semicolon, ";"), Token(Let, "let"), Token(Ident, "ten"), Token(Assign, "="),
       Token(Int, "10"), Token(Semicolon, ";"), Token(Let, "let"), Token(Ident, "add"),
       Token(Assign, "="), Token(Function, "fn"), Token(LParen, "("), Token(Ident, "x"),
       Token(Comma, ","), Token(Ident, "y"), Token(RParen, ")"), Token(LBrace, "{"),
       Token(Ident, "x"), Token(Plus, "+"), Token(Ident, "y"), Token(Semicolon, ";"),
       Token(RBrace, "}"), Token(Semicolon, ";"), Token(Let, "let"), Token(Ident, "result"),
       Token(Assign, "="), Token(Ident, "add"), Token(LParen, "("), Token(Ident, "five"),
       Token(Comma, ","), Token(Ident, "ten"), Token(RParen, ")"), Token(Semicolon, ";")]
  {
    SampleLines1To7(l1, l2, l3, l4, l5, l6, l7);
    SampleLine8(l8);
    LiteralByte(l7, |l7| - 1);
    assert (l1 + l2 + l3 + l4 + l5 + l6 + l7)[|l1 + l2 + l3 + l4 + l5 + l6 + l7| - 1] == l7[|l7| - 1];
    LexAppend(l1 + l2 + l3 + l4 + l5 + l6 + l7, l8);
  }

  /** The input of the lexer test, line by line as written there. */
  const SAMPLE_INPUT: string :=
    "let five = 5;\n"
    + "let ten = 10;\n"
    + "\n"
    + "let add = fn(x, y) {\n"
    + "    x + y;\n"
    + "};\n"
    + "\n"
    + "let result = add(five, ten);"

  /**
   * The sample program of the lexer test yields exactly the 36 tokens the
   * test expects, in order, and nothing after them.
   */
  lemma SampleProgram(s: seq<byte>)
    requires Literal(s) == SAMPLE_INPUT
    ensures Tokenize(s) ==
      [Token(Let, "let"), Token(Ident, "five"), Token(Assign, "="), Token(Int, "5"),
       Token(Semicolon, ";"), Token(Let, "let"), Token(Ident, "ten"), Token(Assign, "="),
       Token(Int, "10"), Token(Semicolon, ";"), Token(Let, "let"), Token(Ident, "add"),
       Token(Assign, "="), Token(Function, "fn"), Token(LParen, "("), Token(Ident, "x"),
       Token(Comma, ","), Token(Ident, "y"), Token(RParen, ")"), Token(LBrace, "{"),
       Token(Ident, "x"), Token(Plus, "+"), Token(Ident, "y"), Token(Semicolon, ";"),
       Token(RBrace, "}"), Token(Semicolon, ";"), Token(Let, "let"), Token(Ident, "result"),
       Token(Assign, "="), Token(Ident, "add"), Token(LParen, "("), Token(Ident, "five"),
       Token(Comma, ","), Token(Ident, "ten"), Token(RParen, ")"), Token(Semicolon, ";")]
  {
    LiteralSplit(s, "let five = 5;\n" + "let ten = 10;\n" + "\n" + "let add = fn(x, y) {\n" + "    x + y;\n" + "};\n" + "\n", "let result = add(five, ten);");
    var p7, l8 := s[..|s| - 28], s[|s| - 28..];
    LiteralSplit(p7, "let five = 5;\n" + "let ten = 10;\n" + "\n" + "let add = fn(x, y) {\n" + "    x + y;\n" + "};\n", "\n");
    var p6, l7 := p7[..|p7| - 1], p7[|p7| - 1..];
    LiteralSplit(p6, "let five = 5;\n" + "let ten = 10;\n" + "\n" + "let add = fn(x, y) {\n" + "    x + y;\n", "};\n");
    var p5, l6 := p6[..|p6| - 3], p6[|p6| - 3..];
    LiteralSplit(p5, "let five = 5;\n" + "let ten = 10;\n" + "\n" + "let add = fn(x, y) {\n", "    x + y;\n");
    var p4, l5 := p5[..|p5| - 11], p5[|p5| - 11..];
    LiteralSplit(p4, "let five = 5;\n" + "let ten = 10;\n" + "\n", "let add = fn(x, y) {\n");
    var p3, l4 := p4[..|p4| - 21], p4[|p4| - 21..];
    LiteralSplit(p3, "let five = 5;\n" + "let ten = 10;\n", "\n");
    var p2, l3 := p3[..|p3| - 1], p3[|p3| - 1..];
    LiteralSplit(p2, "let five = 5;\n", "let ten = 10;\n");
    var l1, l2 := p2[..|p2| - 14], p2[|p2| - 14..];
    SampleLines1To8(l1, l2, l3, l4, l5, l6, l7, l8);
  }
}
