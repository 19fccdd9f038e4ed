# A verified model of the xatu byte lexer

This project models the lexer of the repository, in `src/token/lexer.rs`,
together with the token types it produces, in `src/token/types.rs`.

The lexer is a pull-based iterator over the bytes of its input. Each call of
`next` does four things:

- it skips space, newline and NUL bytes;
- it classifies the byte under the cursor with a fixed dispatch table;
- it collects the literal: a maximal run of `[A-Za-z_]` for an identifier, a
  maximal run of `[0-9]` for an integer, and the one byte otherwise;
- it turns the identifiers `let` and `fn` into the keywords LET and FUNCTION.

Once nothing but skippable bytes is left, `next` returns `None`.

The project has five files:

- `wrappers.dfy`: the `Option` datatype.
- `types.dfy` (module `Types`): the fourteen token kinds, the token record and
  its constructor `Token::new`.
- `lexer.dfy` (module `Lexer`):
  - the byte classes `IDENTIFIER` and `INTEGERS`, the skippable bytes and the
    `KEYWORDS` table;
  - a reference semantics as pure functions of the input bytes and a cursor
    position. `SkipEnd` is the skip loop, `SpanEnd` a collecting loop,
    `Classify` the dispatch table and `ResolveKeyword` the keyword remap.
    `Step` is one call of `next` and `Lex` the whole stream;
  - the stateful `Lexer` class. Its field `input` is the byte buffer and its
    field `pos` the cursor, which stands for the `Peekable` iterator: `peek`
    is `input[pos]` and `next` is `pos := pos + 1`. `ReadIdentifier`,
    `ReadInt` and `Next` follow the source loop by loop and are proved
    against `SpanEnd` and `Step`;
  - `LexAll`, which drains a fresh lexer and is proved to yield `Tokenize`.
- `lexer_properties.dfy` (module `LexerProperties`): what one call of `next`
  skips, classifies and consumes, and what the whole stream is made of:
  - at most one token per byte;
  - no EOF token ever;
  - the literals put together are the input minus its space, newline and NUL
    bytes;
  - lexing is compositional across a join that splits no identifier or integer;
  - the literal of any token lexes back to that token.
- `lexer_examples.dfy` (module `LexerExamples`): concrete inputs and their
  exact token streams. They include the sample program of the lexer's test.

The code itself hints that its authors meant something else for NUL bytes.
The flag `skippable` in the skip loop (`src/token/lexer.rs:85-93`) is named
backwards: it is true when the byte under the cursor must NOT be skipped, and
the loop stops then. The byte test at line 87 lists NUL among the bytes that
are skipped, so the `0_u8 => EOF` arm at line 109 is never reached. An exhausted
lexer returns `None` (line 100) and never an EOF token. The model follows the
code as written. `Classify` keeps the NUL arm, and `StepNeverEof` and
`LexNeverEof` prove it unreachable from `Step`.

The test in `src/token/lexer.rs` zips the stream with the expected list, so it
compares only their common prefix. `LexerExamples.SampleProgram` states that
the stream equals the expected list of 36 tokens exactly.

## Model

| member | source | states |
|---|---|---|
| Types.NewToken | src/token/types.rs:31-37 | the kind is stored unchanged and the literal is exactly the given text |
| Types.TokenTypeIsClosed | src/token/types.rs:2-23 | there are exactly fourteen kinds, each listed once, and every kind is among them |
| Types.TokenEquality | src/token/types.rs:25-29 | two tokens are equal if and only if their kinds and their literals are equal |
| Types.NewTokenDoesNotValidate | src/token/types.rs:31-37 | the constructor accepts text that does not fit the kind (an INT whose literal is `x`) |
| Lexer.IsIdentifierByte | src/token/lexer.rs:21 | the IDENTIFIER class as a range test; a table definition with no contract of its own, proved equal to membership in `IDENTIFIER` by `LexerProperties.IdentifierTable` |
| Lexer.IsIntegerByte | src/token/lexer.rs:22 | the INTEGERS class as a range test; a table definition with no contract of its own, proved equal to membership in `INTEGERS` by `LexerProperties.IntegerTable` |
| Lexer.IsSkippable | src/token/lexer.rs:87 | the bytes the skip loop steps over, space, newline and NUL; a table definition with no contract of its own |
| Lexer.IsPunctuation | src/token/lexer.rs:101-108 | the eight bytes with an arm of their own in the dispatch; a table definition with no contract of its own |
| Lexer.ByteRange | src/token/lexer.rs:21-22 | an inclusive byte range `lo..=hi` has `hi - lo + 1` elements; `LexerProperties.ByteRangeMembers` gives its members |
| Lexer.Literal | src/token/lexer.rs:125 | the text of a byte run has one character per byte; `LexerProperties.LiteralByte` gives each character's code as that byte, as `char::from` does and as `String::from_utf8` does on the ASCII runs at lines 56 and 76 |
| Lexer.Tokenize | src/token/lexer.rs:198-200 | the stream of a fresh lexer over a whole input has at most one token per byte |
| Lexer.SkipEnd | src/token/lexer.rs:84-98 | the skip loop stops inside the input, at the end or at a byte that is not space, newline or NUL |
| Lexer.SkipEndSkips | src/token/lexer.rs:84-98 | every byte the skip loop passes over is a space, newline or NUL |
| Lexer.SpanEnd | src/token/lexer.rs:42-54 | a collecting loop stops inside the input, at the end or at the first byte outside its class |
| Lexer.SpanEndSpans | src/token/lexer.rs:42-54 | every byte a collecting loop passes over belongs to its class |
| Lexer.Classify | src/token/lexer.rs:100-118 | NUL is EOF, digits are INT, letters and `_` are IDENT, the eight punctuation bytes are the eight punctuation kinds, everything else is ILLEGAL, and no byte is a keyword kind |
| Lexer.ResolveKeyword | src/token/lexer.rs:128-136 | only IDENT is remapped; it becomes LET exactly for `let`, FUNCTION exactly for `fn`, and stays IDENT exactly for text outside KEYWORDS |
| Lexer.TokenEnd | src/token/lexer.rs:120-126 | a literal holds at least one byte and ends inside the input |
| Lexer.Step | src/token/lexer.rs:83-139 | the cursor never moves back; the result is None exactly when skipping reaches the end, and then the cursor is at the end; a token always consumes a byte past the skipped ones |
| Lexer.Lex | src/token/lexer.rs:83-139 | lexing from a position yields at most one token per remaining byte |
| Lexer.Lexer.constructor | src/token/lexer.rs:31-35 | the new lexer holds the input with the cursor before its first byte |
| Lexer.Lexer.ReadIdentifier | src/token/lexer.rs:39-57 | the cursor moves to the end of the maximal identifier run and the result is the text of the bytes passed |
| Lexer.Lexer.ReadInt | src/token/lexer.rs:59-77 | the cursor moves to the end of the maximal digit run and the result is the text of the bytes passed |
| Lexer.Lexer.Next | src/token/lexer.rs:83-139 | the token returned and the new cursor are those of `Step` at the old cursor |
| Lexer.LexAll | src/token/lexer.rs:198-200 | pulling tokens from a fresh lexer until None yields exactly the stream of the whole input |
| LexerProperties.ByteRangeMembers | src/token/lexer.rs:21-22 | a byte is in the range `lo..=hi` exactly when it lies between the ends |
| LexerProperties.IdentifierTable | src/token/lexer.rs:21 | IDENTIFIER, built as in the source from `a..=z`, `A..=Z` and `_..=_`, has 53 bytes, and a byte is in it exactly when `IsIdentifierByte` holds |
| LexerProperties.IntegerTable | src/token/lexer.rs:22 | INTEGERS, `0..=9`, has 10 bytes, and a byte is in it exactly when `IsIntegerByte` holds |
| LexerProperties.KeywordTable | src/token/lexer.rs:23 | KEYWORDS holds exactly `let` and `fn`, each once |
| LexerProperties.LiteralByte | src/token/lexer.rs:125 | each character of a literal has the code of its byte |
| LexerProperties.SkippableByteIsIgnored | src/token/lexer.rs:84-98 | a space, newline or NUL under the cursor makes no difference to what `next` returns |
| LexerProperties.TabAndCarriageReturnAreIllegal | src/token/lexer.rs:84-118 | tab and carriage return are not skipped; each is one ILLEGAL token holding that byte |
| LexerProperties.StepNoneIff | src/token/lexer.rs:84-100 | `next` returns None if and only if every byte left is a space, newline or NUL |
| LexerProperties.NoneIsFinal | src/token/lexer.rs:84-100 | after a None, the next call returns None again and leaves the cursor at the end |
| LexerProperties.StepNeverEof | src/token/lexer.rs:87-109 | no token `next` returns has kind EOF |
| LexerProperties.LexNeverEof | src/token/lexer.rs:83-139 | no token anywhere in the stream has kind EOF |
| LexerProperties.StepIdentifier | src/token/lexer.rs:111-121 | a token is IDENT, LET or FUNCTION exactly when the first unskipped byte is a letter or `_`; its literal is then the maximal such run and the cursor stops after it |
| LexerProperties.StepInteger | src/token/lexer.rs:110-123 | a token is INT exactly when the first unskipped byte is a digit; its literal is then the maximal digit run and the cursor stops after it |
| LexerProperties.StepSingleByte | src/token/lexer.rs:100-125 | any other unskipped byte is consumed alone into a token of its dispatch kind, holding that byte; a byte that is not punctuation gives ILLEGAL |
| LexerProperties.PunctuationTable | src/token/lexer.rs:101-108 | the fixed kind of each of `= + ( ) { } , ;` |
| LexerProperties.TokenBytesAreNotSkippable | src/token/lexer.rs:120-126 | no byte a token consumes is a space, newline or NUL |
| LexerProperties.LexLiterals | src/token/lexer.rs:84-126 | the literals of the stream from a position, concatenated, are the rest of the input without its space, newline and NUL bytes |
| LexerProperties.TokenizeLiterals | src/token/lexer.rs:84-126 | the literals of a whole input's stream are the input without its space, newline and NUL bytes |
| LexerProperties.LexShift | src/token/lexer.rs:83-139 | the stream from a position depends only on the bytes from there on |
| LexerProperties.LexSkipsAhead | src/token/lexer.rs:84-98 | a run of space, newline and NUL bytes at the cursor can be skipped without changing the stream |
| LexerProperties.StepExtend | src/token/lexer.rs:39-77 | a token inside `a` is scanned the same in `a + b` when no identifier or integer run spans the join |
| LexerProperties.LexAppend | src/token/lexer.rs:83-139 | when no identifier or integer run spans the join, the stream of `a + b` is that of `a` followed by that of `b` |
| LexerProperties.LiteralInjective | src/token/lexer.rs:125 | distinct byte runs have distinct literals: each character's code is its byte |
| LexerProperties.RelexToken | src/token/lexer.rs:120-126 | the literal of any token, lexed on its own, gives back exactly that token |
| LexerProperties.LexIdentifierAt | src/token/lexer.rs:39-57 | a maximal identifier run at the cursor is one IDENT or keyword token holding its text |
| LexerProperties.LexIntegerAt | src/token/lexer.rs:59-77 | a maximal digit run at the cursor is one INT token holding its text |
| LexerProperties.LexSingleAt | src/token/lexer.rs:125 | any other unskipped byte at the cursor is one token holding that byte, and lexing goes on after it |
| LexerProperties.TokenizeIdentifierRun | src/token/lexer.rs:120-136 | an input of one identifier run lexes to one token, a keyword exactly for `let` or `fn` |
| LexerProperties.TokenizeIntegerRun | src/token/lexer.rs:59-77 | an input of one digit run lexes to one INT token |
| LexerProperties.TokenizeSingleByte | src/token/lexer.rs:100-125 | a one-byte input that starts no run lexes to one token holding that byte |
| LexerProperties.TokenizeSkippableRun | src/token/lexer.rs:84-100 | an input of spaces, newlines and NULs only lexes to no token |
| LexerExamples.LetStatement | src/token/lexer.rs:148 | `let five = 5;` lexes to LET, IDENT, ASSIGN, INT, SEMICOLON |
| LexerExamples.FunctionLiteral | src/token/lexer.rs:151-153 | `fn(x, y) { x + y; }` lexes to FUNCTION and one token per punctuation byte |
| LexerExamples.IllegalByte | src/token/lexer.rs:111-117 | `@x` lexes to ILLEGAL `@` and then IDENT `x` |
| LexerExamples.DigitEndsIdentifier | src/token/lexer.rs:21 | `x1` lexes to IDENT `x` and then INT `1` |
| LexerExamples.KeywordsAreExact | src/token/lexer.rs:128-136 | `lets`, `Let` and `fn_` stay IDENT; only `fn` becomes FUNCTION |
| LexerExamples.NulSkippedTabIllegal | src/token/lexer.rs:84-98 | NUL, space and newline give no token; tab and carriage return give ILLEGAL |
| LexerExamples.SampleLine1 | src/token/lexer.rs:148 | the first line of the test input yields its five tokens |
| LexerExamples.SampleLine2 | src/token/lexer.rs:149 | the second line of the test input yields its five tokens |
| LexerExamples.BlankLine | src/token/lexer.rs:150 | a blank line yields no token |
| LexerExamples.SampleLine4 | src/token/lexer.rs:151 | the head of the function literal yields its ten tokens |
| LexerExamples.SampleLine5 | src/token/lexer.rs:152 | the body of the function literal yields its four tokens |
| LexerExamples.SampleLine6 | src/token/lexer.rs:153 | the end of the function literal yields `}` and `;` |
| LexerExamples.SampleLine8 | src/token/lexer.rs:155 | the last line of the test input yields its ten tokens |
| LexerExamples.SampleLines1To3 | src/token/lexer.rs:148-150 | the first three lines of the test input yield the first ten expected tokens |
| LexerExamples.SampleLines1To4 | src/token/lexer.rs:148-151 | the first four lines yield the expected tokens up to `{` |
| LexerExamples.SampleLines1To5 | src/token/lexer.rs:148-152 | the first five lines yield the expected tokens up to `y;` |
| LexerExamples.SampleLines1To6 | src/token/lexer.rs:148-153 | the first six lines yield the expected tokens up to `};` |
| LexerExamples.SampleLines1To7 | src/token/lexer.rs:148-154 | the first seven lines yield the same tokens as the first six |
| LexerExamples.SampleLines1To8 | src/token/lexer.rs:148-155 | the eight lines of the test input, joined, yield exactly the 36 expected tokens |
| LexerExamples.SampleProgram | src/token/lexer.rs:147-196 | the test input, given in one piece as `SAMPLE_INPUT`, yields exactly the 36 expected tokens, in order and with nothing after them |

## Left out

- UTF-8: the input is any byte sequence instead of the bytes of a Rust `String`, which is a superset. `String::from_utf8` at `src/token/lexer.rs:56` and `:76` cannot fail there, because only ASCII bytes are collected, so those literals are always present and are modelled as such.
- The widening by `char::from` at `src/token/lexer.rs:125` is modelled only as one character whose code equals the byte; Unicode is out of scope.
- The `Peekable` and `Iterator` machinery is replaced by the explicit cursor `pos`, with `input[pos]` as the lookahead.
- `lazy_static!` and the `combine!` macro (`src/token/lexer.rs:10-24`) become the constants `IDENTIFIER`, `INTEGERS` and `KEYWORDS`. The lexer tests bytes through the range predicates, which `LexerProperties.IdentifierTable` and `LexerProperties.IntegerTable` prove equal to table membership.
- Types.NewToken: `Token::new` accepts any `I: ToString` and stores `literal.to_string()`. The model takes a `string` only. The lexer always passes a `String`, so no behaviour of the core is lost.
- The `println!` in the test (`src/token/lexer.rs:202`) is left out because it is output only. The zipped comparison is replaced by the exact-equality lemma `LexerExamples.SampleProgram`.
- The `0_u8 => EOF` arm is kept in `Classify` but no end-of-input token is modelled as produced, because the code never reaches that arm.
- Borrowing and lifetimes (`Lexer<'a>`) are left out: the buffer is an immutable `seq`, which rules out aliasing.
