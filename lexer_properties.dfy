/**
 * Properties of the lexer's reference semantics (module Lexer): what one
 * call of `next` skips, classifies and consumes, and what the whole token
 * stream of an input is made of.
 */
module LexerProperties {
  import opened Wrappers
  import opened Types
  import opened Lexer

  /** `s[start..end]` is a non-empty run of `p` bytes that cannot be extended. */
  ghost predicate MaximalRun(s: seq<byte>, start: nat, end: nat, p: byte -> bool)
  {
    start < end <= |s| &&
    (forall k :: start <= k < end ==> p(s[k])) &&
    (end == |s| || !p(s[end]))
  }

  /** The input with every space, newline and NUL removed. */
  function Strip(bs: seq<byte>): (r: seq<byte>)
    ensures |r| <= |bs|
  {
    if bs == [] then []
    else (if IsSkippable(bs[0]) then [] else [bs[0]]) + Strip(bs[1..])
  }

  /** The literals of a token list, concatenated. */
  function Literals(ts: seq<Token>): (r: string)
  {
    if ts == [] then "" else ts[0].literal + Literals(ts[1..])
  }

  // ---------------------------------------------------------------------
  // Skipping

  /** A leading space, newline or NUL byte makes no difference to `next`. */
  lemma SkippableByteIsIgnored(s: seq<byte>, pos: nat)
    requires pos < |s| && IsSkippable(s[pos])
    ensures Step(s, pos) == Step(s, pos + 1)
  {
  }

  /** Tab and carriage return are not skipped: each is one Illegal token. */
  lemma TabAndCarriageReturnAreIllegal(s: seq<byte>, pos: nat)
    requires pos < |s| && (s[pos] == 9 || s[pos] == 13)
    ensures Step(s, pos) == (Some(Token(Illegal, [s[pos] as char])), pos + 1)
  {
    assert SkipEnd(s, pos) == pos;
    assert TokenEnd(s, pos) == pos + 1;
    assert Literal(s[pos..pos + 1]) == [s[pos] as char];
  }

  // ---------------------------------------------------------------------
  // Exhaustion

  /** `next` returns None exactly when only space, newline and NUL bytes are left. */
  lemma StepNoneIff(s: seq<byte>, pos: nat)
    requires pos <= |s|
    ensures Step(s, pos).0.None? <==> forall k :: pos <= k < |s| ==> IsSkippable(s[k])
  {
    SkipEndSkips(s, pos);
  }

  /** Once `next` has returned None, every further call returns None as well. */
  lemma NoneIsFinal(s: seq<byte>, pos: nat)
    requires pos <= |s| && Step(s, pos).0.None?
    ensures Step(s, Step(s, pos).1) == (None, |s|)
  {
  }

  // ---------------------------------------------------------------------
  // No end-of-input token

  /** No token that `next` returns has kind Eof: the skip loop eats every NUL. */
  lemma StepNeverEof(s: seq<byte>, pos: nat)
    requires pos <= |s| && Step(s, pos).0.Some?
    ensures Step(s, pos).0.value.ttype != Eof
  {
  }

  /** The whole token stream holds no Eof token. */
  lemma {:induction false} LexNeverEof(s: seq<byte>, pos: nat)
    requires pos <= |s|
    ensures forall i :: 0 <= i < |Lex(s, pos)| ==> Lex(s, pos)[i].ttype != Eof
    decreases |s| - pos
  {
    var (t, next) := Step(s, pos);
    if t.Some? {
      StepNeverEof(s, pos);
      LexNeverEof(s, next);
      assert Lex(s, pos) == [t.value] + Lex(s, next);
    }
  }

  // ---------------------------------------------------------------------
  // Identifiers, integers and single bytes

  /**
   * A token is an identifier or a keyword exactly when the first byte left
   * after skipping is a letter or `_`; its literal is then the maximal run
   * of letters and `_` there, so a digit ends it.
   */
  lemma StepIdentifier(s: seq<byte>, pos: nat)
    requires pos <= |s| && Step(s, pos).0.Some?
    ensures var start, t, end := SkipEnd(s, pos), Step(s, pos).0.value, Step(s, pos).1;
      (t.ttype in {Ident, Let, Function} <==> IsIdentifierByte(s[start])) &&
      (IsIdentifierByte(s[start]) ==>
         MaximalRun(s, start, end, IsIdentifierByte) && t.literal == Literal(s[start..end]))
  {
    SpanEndSpans(s, SkipEnd(s, pos), IsIdentifierByte);
  }

  /**
   * A token is an integer exactly when the first byte left after skipping is
   * a digit; its literal is then the maximal run of digits there.
   */
  lemma StepInteger(s: seq<byte>, pos: nat)
    requires pos <= |s| && Step(s, pos).0.Some?
    ensures var start, t, end := SkipEnd(s, pos), Step(s, pos).0.value, Step(s, pos).1;
      (t.ttype == Int <==> IsIntegerByte(s[start])) &&
      (IsIntegerByte(s[start]) ==>
         MaximalRun(s, start, end, IsIntegerByte) && t.literal == Literal(s[start..end]))
  {
    SpanEndSpans(s, SkipEnd(s, pos), IsIntegerByte);
  }

  /**
   * Any other byte left after skipping is consumed alone and becomes a token
   * whose literal is that one byte: one of the eight punctuation kinds, or
   * Illegal for a byte outside every class.
   */
  lemma StepSingleByte(s: seq<byte>, pos: nat)
    requires pos <= |s|
    requires var start := SkipEnd(s, pos);
      start < |s| && !IsIdentifierByte(s[start]) && !IsIntegerByte(s[start])
    ensures var start := SkipEnd(s, pos);
      Step(s, pos) == (Some(Token(Classify(s[start]), [s[start] as char])), start + 1)
    ensures var b := s[SkipEnd(s, pos)];
      !IsPunctuation(b) ==> Classify(b) == Illegal
  {
    var start := SkipEnd(s, pos);
    assert TokenEnd(s, start) == start + 1;
    assert Literal(s[start..start + 1]) == [s[start] as char];
  }

  /** The fixed kind of each punctuation byte. */
  lemma PunctuationTable()
    ensures Classify('=' as byte) == Assign && Classify('+' as byte) == Plus
    ensures Classify('(' as byte) == LParen && Classify(')' as byte) == RParen
    ensures Classify('{' as byte) == LBrace && Classify('}' as byte) == RBrace
    ensures Classify(',' as byte) == Comma && Classify(';' as byte) == Semicolon
  {
  }

  // ---------------------------------------------------------------------
  // The whole stream

  lemma {:induction false} StripAppend(a: seq<byte>, b: seq<byte>)
    ensures Strip(a + b) == Strip(a) + Strip(b)
    decreases |a|
  {
    if a != [] {
      assert (a + b)[1..] == a[1..] + b;
      StripAppend(a[1..], b);
    } else {
      assert a + b == b;
    }
  }

  lemma {:induction false} StripAllSkippable(a: seq<byte>)
    requires forall k :: 0 <= k < |a| ==> IsSkippable(a[k])
    ensures Strip(a) == []
    decreases |a|
  {
    if a != [] {
      StripAllSkippable(a[1..]);
    }
  }

  lemma {:induction false} StripNoneSkippable(a: seq<byte>)
    requires forall k :: 0 <= k < |a| ==> !IsSkippable(a[k])
    ensures Strip(a) == a
    decreases |a|
  {
    if a != [] {
      StripNoneSkippable(a[1..]);
      assert a == [a[0]] + a[1..];
    }
  }

  lemma LiteralAppend(a: seq<byte>, b: seq<byte>)
    ensures Literal(a + b) == Literal(a) + Literal(b)
  {
  }

  /** An input whose text is `a + b` splits into the runs whose texts are `a` and `b`. */
  lemma LiteralSplit(s: seq<byte>, a: string, b: string)
    requires Literal(s) == a + b
    ensures |s| == |a| + |b|
    ensures Literal(s[..|s| - |b|]) == a && Literal(s[|s| - |b|..]) == b
    ensures s == s[..|s| - |b|] + s[|s| - |b|..]
  {
    assert Literal(s[..|s| - |b|]) == Literal(s)[..|a|];
    assert Literal(s[|s| - |b|..]) == Literal(s)[|a|..];
  }

  /** The bytes a token consumes after skipping are never space, newline or NUL. */
  lemma TokenBytesAreNotSkippable(s: seq<byte>, pos: nat)
    requires pos <= |s| && Step(s, pos).0.Some?
    ensures forall k :: SkipEnd(s, pos) <= k < Step(s, pos).1 ==> !IsSkippable(s[k])
  {
    var start := SkipEnd(s, pos);
    var kind := Classify(s[start]);
    var end := Step(s, pos).1;
    SpanEndSpans(s, start, IsIdentifierByte);
    SpanEndSpans(s, start, IsIntegerByte);
    forall k | start <= k < end
      ensures !IsSkippable(s[k])
    {
      if kind == Ident {
        assert IsIdentifierByte(s[k]);
      } else if kind == Int {
        assert IsIntegerByte(s[k]);
      } else {
        assert k == start;
      }
    }
  }

  /**
   * Lexing from `pos` yields tokens whose literals, put together, are the
   * rest of the input with every space, newline and NUL removed.
   */
  lemma {:induction false} LexLiterals(s: seq<byte>, pos: nat)
    requires pos <= |s|
    ensures Literals(Lex(s, pos)) == Literal(Strip(s[pos..]))
    decreases |s| - pos
  {
    var (t, end) := Step(s, pos);
    if t.None? {
      SkipEndSkips(s, pos);
      StripAllSkippable(s[pos..]);
    } else {
      var start := SkipEnd(s, pos);
      assert t.value.literal == Literal(s[start..end]);
      StripStep(s, pos, start, end);
      LexLiterals(s, end);
      LexSome(s, pos, t.value, end);
    }
  }

  /**
   * One call of `next` that yields a token consumes, after stripping, exactly
   * the bytes of that token.
   */
  lemma StripStep(s: seq<byte>, pos: nat, start: nat, end: nat)
    requires pos <= |s| && Step(s, pos).0.Some?
    requires start == SkipEnd(s, pos) && end == Step(s, pos).1
    ensures Literal(Strip(s[pos..])) == Literal(s[start..end]) + Literal(Strip(s[end..]))
  {
    SkipEndSkips(s, pos);
    TokenBytesAreNotSkippable(s, pos);
    StripAround(s, pos, start, end);
  }

  /**
   * Stripping a stretch of skippable bytes, then a stretch with none, then
   * the rest.
   */
  lemma StripAround(s: seq<byte>, i: nat, j: nat, k: nat)
    requires i <= j <= k <= |s|
    requires forall m :: i <= m < j ==> IsSkippable(s[m])
    requires forall m :: j <= m < k ==> !IsSkippable(s[m])
    ensures Literal(Strip(s[i..])) == Literal(s[j..k]) + Literal(Strip(s[k..]))
  {
    var x, y, z := s[i..j], s[j..k], s[k..];
    SliceSplit(s, i, j, k);
    forall m | 0 <= m < |x|
      ensures IsSkippable(x[m])
    {
      assert x[m] == s[i + m];
    }
    forall m | 0 <= m < |y|
      ensures !IsSkippable(y[m])
    {
      assert y[m] == s[j + m];
    }
    StripThree(x, y, z);
  }

  lemma SliceSplit(s: seq<byte>, i: nat, j: nat, k: nat)
    requires i <= j <= k <= |s|
    ensures s[i..] == s[i..j] + s[j..k] + s[k..]
  {
  }

  /** Stripping skippable bytes, then bytes none of which is, then anything. */
  lemma StripThree(x: seq<byte>, y: seq<byte>, z: seq<byte>)
    requires forall k :: 0 <= k < |x| ==> IsSkippable(x[k])
    requires forall k :: 0 <= k < |y| ==> !IsSkippable(y[k])
    ensures Literal(Strip(x + y + z)) == Literal(y) + Literal(Strip(z))
  {
    StripThreeBytes(x, y, z);
    LiteralAppend(y, Strip(z));
  }

  lemma StripThreeBytes(x: seq<byte>, y: seq<byte>, z: seq<byte>)
    requires forall k :: 0 <= k < |x| ==> IsSkippable(x[k])
    requires forall k :: 0 <= k < |y| ==> !IsSkippable(y[k])
    ensures Strip(x + y + z) == y + Strip(z)
  {
    StripAppend(x + y, z);
    StripAppend(x, y);
    StripAllSkippable(x);
    StripNoneSkippable(y);
    assert Strip(x) + Strip(y) == y;
  }

  /**
   * Walking the stream by hand: a maximal run of letters and `_` at `pos`
   * is one IDENT or keyword token whose literal is the text of that run.
   */
  lemma LexIdentifierAt(s: seq<byte>, pos: nat, end: nat)
    requires pos < end <= |s|
    requires forall k :: pos <= k < end ==> IsIdentifierByte(s[k])
    requires end == |s| || !IsIdentifierByte(s[end])
    ensures var text := Literal(s)[pos..end];
      Lex(s, pos) == [Token(ResolveKeyword(Ident, text), text)] + Lex(s, end)
  {
    assert Literal(s[pos..end]) == Literal(s)[pos..end];
    SkipEndUnique(s, pos, pos);
    SpanEndUnique(s, pos, end, IsIdentifierByte);
    var text := Literal(s)[pos..end];
    LexSome(s, pos, Token(ResolveKeyword(Ident, text), text), end);
  }

  /** A maximal run of digits at `pos` is one INT token holding that run. */
  lemma LexIntegerAt(s: seq<byte>, pos: nat, end: nat)
    requires pos < end <= |s|
    requires forall k :: pos <= k < end ==> IsIntegerByte(s[k])
    requires end == |s| || !IsIntegerByte(s[end])
    ensures Lex(s, pos) == [Token(Int, Literal(s)[pos..end])] + Lex(s, end)
  {
    assert Literal(s[pos..end]) == Literal(s)[pos..end];
    SkipEndUnique(s, pos, pos);
    SpanEndUnique(s, pos, end, IsIntegerByte);
    LexSome(s, pos, Token(Int, Literal(s)[pos..end]), end);
  }

  /** Any other byte that is not skipped at `pos` is a one-byte token. */
  lemma LexSingleAt(s: seq<byte>, pos: nat)
    requires pos < |s| && !IsSkippable(s[pos]) && !IsIdentifierByte(s[pos]) && !IsIntegerByte(s[pos])
    ensures Lex(s, pos) == [Token(Classify(s[pos]), [Literal(s)[pos]])] + Lex(s, pos + 1)
  {
    SkipEndUnique(s, pos, pos);
    StepSingleByte(s, pos);
    LexSome(s, pos, Token(Classify(s[pos]), [s[pos] as char]), pos + 1);
  }

  /** Each character of the text of an input is the code of its byte. */
  lemma LiteralByte(s: seq<byte>, k: nat)
    requires k < |s|
    ensures s[k] as int == Literal(s)[k] as int
  {
  }

  /** The literals of a whole input's tokens are its bytes minus space, newline and NUL. */
  lemma TokenizeLiterals(s: seq<byte>)
    ensures Literals(Tokenize(s)) == Literal(Strip(s))
  {
    LexLiterals(s, 0);
    assert s[0..] == s;
  }

  // ---------------------------------------------------------------------
  // One pull at a time

  /** The stream is empty after a None and one token longer after a Some. */
  lemma LexCases(s: seq<byte>, pos: nat)
    requires pos <= |s|
    ensures Step(s, pos).0.None? ==> Lex(s, pos) == []
    ensures Step(s, pos).0.Some? ==> Lex(s, pos) == [Step(s, pos).0.value] + Lex(s, Step(s, pos).1)
  {
  }

  // ---------------------------------------------------------------------
  // Where the loops stop, characterised

  /** The skip loop stops at the one place its two postconditions allow. */
  lemma {:induction false} SkipEndUnique(s: seq<byte>, i: nat, j: nat)
    requires i <= j <= |s|
    requires forall k :: i <= k < j ==> IsSkippable(s[k])
    requires j == |s| || !IsSkippable(s[j])
    ensures SkipEnd(s, i) == j
    decreases j - i
  {
    if i < j {
      SkipEndUnique(s, i + 1, j);
    }
  }

  /** A collecting loop stops at the one place its two postconditions allow. */
  lemma {:induction false} SpanEndUnique(s: seq<byte>, i: nat, j: nat, p: byte -> bool)
    requires i <= j <= |s|
    requires forall k :: i <= k < j ==> p(s[k])
    requires j == |s| || !p(s[j])
    ensures SpanEnd(s, i, p) == j
    decreases j - i
  {
    if i < j {
      SpanEndUnique(s, i + 1, j, p);
    }
  }

  // ---------------------------------------------------------------------
  // Context independence

  lemma SkipEndShift(u: seq<byte>, d: nat, q: nat)
    requires d + q <= |u|
    ensures SkipEnd(u, d + q) == d + SkipEnd(u[d..], q)
  {
    var s := u[d..];
    var j := SkipEnd(s, q);
    SkipEndSkips(s, q);
    assert forall k :: d + q <= k < d + j ==> u[k] == s[k - d];
    SkipEndUnique(u, d + q, d + j);
  }

  lemma SpanEndShift(u: seq<byte>, d: nat, i: nat, p: byte -> bool)
    requires d + i <= |u|
    ensures SpanEnd(u, d + i, p) == d + SpanEnd(u[d..], i, p)
  {
    var s := u[d..];
    var j := SpanEnd(s, i, p);
    SpanEndSpans(s, i, p);
    assert forall k :: d + i <= k < d + j ==> u[k] == s[k - d];
    SpanEndUnique(u, d + i, d + j, p);
  }

  lemma TokenEndShift(u: seq<byte>, d: nat, start: nat)
    requires d + start < |u|
    ensures u[d + start] == u[d..][start]
    ensures TokenEnd(u, d + start) == d + TokenEnd(u[d..], start)
  {
    var kind := Classify(u[d..][start]);
    if kind == Ident {
      SpanEndShift(u, d, start, IsIdentifierByte);
    } else if kind == Int {
      SpanEndShift(u, d, start, IsIntegerByte);
    }
  }

  /** Bytes before the cursor play no part in what `next` does. */
  lemma StepShift(u: seq<byte>, d: nat, q: nat)
    requires d + q <= |u|
    ensures Step(u, d + q).0 == Step(u[d..], q).0
    ensures Step(u, d + q).1 == d + Step(u[d..], q).1
  {
    var s := u[d..];
    var start := SkipEnd(s, q);
    SkipEndShift(u, d, q);
    if start < |s| {
      TokenEndShift(u, d, start);
      var end := TokenEnd(s, start);
      DropSlice(u, d, start, end);
    }
  }

  lemma DropSlice(u: seq<byte>, d: nat, i: nat, j: nat)
    requires i <= j && d + j <= |u|
    ensures u[d + i..d + j] == u[d..][i..j]
  {
  }

  /**
   * Two inputs whose `next` steps agree, position for position up to an
   * offset `d`, yield the same stream.
   */
  lemma {:induction false} LexSimulate(s1: seq<byte>, s2: seq<byte>, d: nat, q: nat)
    requires q <= |s2| && d + |s2| <= |s1|
    requires forall r :: q <= r <= |s2| ==> StepsAgree(s1, s2, d, r)
    ensures Lex(s1, d + q) == Lex(s2, q)
    decreases |s2| - q
  {
    var end := Step(s2, q).1;
    if Step(s2, q).0.Some? {
      LexSimulate(s1, s2, d, end);
      SimulateSome(s1, s2, d, q, end);
    } else {
      SimulateNone(s1, s2, d, q);
    }
  }

  lemma SimulateSome(s1: seq<byte>, s2: seq<byte>, d: nat, q: nat, end: nat)
    requires q <= |s2| && d + |s2| <= |s1| && StepsAgree(s1, s2, d, q)
    requires Step(s2, q).0.Some? && Step(s2, q).1 == end
    requires Lex(s1, d + end) == Lex(s2, end)
    ensures Lex(s1, d + q) == Lex(s2, q)
  {
    LexSameStep(s1, d + q, d + end, s2, q, end);
  }

  lemma SimulateNone(s1: seq<byte>, s2: seq<byte>, d: nat, q: nat)
    requires q <= |s2| && d + |s2| <= |s1| && StepsAgree(s1, s2, d, q)
    requires Step(s2, q).0.None?
    ensures Lex(s1, d + q) == Lex(s2, q)
  {
    LexCases(s1, d + q);
    LexCases(s2, q);
  }

  /** The `next` step of `s1` at `d + r` is that of `s2` at `r`, moved by `d`. */
  ghost predicate StepsAgree(s1: seq<byte>, s2: seq<byte>, d: nat, r: nat)
    requires r <= |s2| && d + |s2| <= |s1|
  {
    Step(s1, d + r).0 == Step(s2, r).0 && Step(s1, d + r).1 == d + Step(s2, r).1
  }

  /**
   * Two cursors whose next calls yield the same token, and whose streams agree
   * after that, yield the same stream.
   */
  lemma LexSameStep(s1: seq<byte>, pos1: nat, end1: nat, s2: seq<byte>, pos2: nat, end2: nat)
    requires pos1 <= |s1| && pos2 <= |s2|
    requires Step(s1, pos1).0.Some? && Step(s1, pos1).0 == Step(s2, pos2).0
    requires Step(s1, pos1).1 == end1 && Step(s2, pos2).1 == end2
    requires Lex(s1, end1) == Lex(s2, end2)
    ensures Lex(s1, pos1) == Lex(s2, pos2)
  {
    var t := Step(s1, pos1).0.value;
    LexSome(s1, pos1, t, end1);
    LexSome(s2, pos2, t, end2);
  }

  /**
   * The token stream from a cursor does not depend on the bytes before it:
   * lexing `u` from `d + q` is lexing the suffix of `u` from `d` at `q`.
   */
  lemma LexShift(u: seq<byte>, d: nat, q: nat)
    requires d + q <= |u|
    ensures Lex(u, d + q) == Lex(u[d..], q)
  {
    forall r | q <= r <= |u[d..]|
      ensures StepsAgree(u, u[d..], d, r)
    {
      StepShift(u, d, r);
    }
    LexSimulate(u, u[d..], d, q);
  }

  /** Skipping over bytes that would be skipped anyway changes nothing. */
  lemma LexSkipsAhead(s: seq<byte>, pos: nat, mid: nat)
    requires pos <= mid <= |s|
    requires forall k :: pos <= k < mid ==> IsSkippable(s[k])
    ensures Lex(s, pos) == Lex(s, mid)
  {
    var j := SkipEnd(s, mid);
    SkipEndSkips(s, mid);
    SkipEndUnique(s, pos, j);
    assert Step(s, pos) == Step(s, mid);
  }

  /**
   * Two adjacent bytes that the lexer reads into one token: both letters or
   * `_`, or both digits.
   */
  predicate Glued(x: byte, y: byte)
  {
    (IsIdentifierByte(x) && IsIdentifierByte(y)) || (IsIntegerByte(x) && IsIntegerByte(y))
  }

  /** No identifier or integer run spans the join of `a` and `b`. */
  predicate Separated(a: seq<byte>, b: seq<byte>)
  {
    a == [] || b == [] || !Glued(a[|a| - 1], b[0])
  }

  /**
   * A token that starts inside `a` is scanned the same whatever follows
   * `a`, as long as no run spans the join.
   */
  lemma StepExtend(a: seq<byte>, b: seq<byte>, pos: nat)
    requires pos <= |a| && Step(a, pos).0.Some? && Separated(a, b)
    ensures Step(a + b, pos) == Step(a, pos)
  {
    var ab := a + b;
    var start := SkipEnd(a, pos);
    var end := Step(a, pos).1;
    SkipEndSkips(a, pos);
    SkipEndUnique(ab, pos, start);
    var kind := Classify(a[start]);
    if kind == Ident {
      SpanEndSpans(a, start, IsIdentifierByte);
      assert IsIdentifierByte(a[end - 1]);
      SpanEndUnique(ab, start, end, IsIdentifierByte);
    } else if kind == Int {
      SpanEndSpans(a, start, IsIntegerByte);
      assert IsIntegerByte(a[end - 1]);
      SpanEndUnique(ab, start, end, IsIntegerByte);
    }
    assert TokenEnd(ab, start) == end;
    assert ab[start..end] == a[start..end];
  }

  lemma LexAppendRest(a: seq<byte>, b: seq<byte>, pos: nat)
    requires pos <= |a| && SkipEnd(a, pos) == |a|
    ensures Lex(a + b, pos) == Lex(a, pos) + Lex(b, 0)
  {
    LexAppendSkip(a, b, pos);
    LexAfter(a, b);
    LexCases(a, pos);
  }

  /** Trailing space, newline and NUL bytes of `a` are skipped in `a + b` too. */
  lemma LexAppendSkip(a: seq<byte>, b: seq<byte>, pos: nat)
    requires pos <= |a| && SkipEnd(a, pos) == |a|
    ensures Lex(a + b, pos) == Lex(a + b, |a|)
  {
    var ab := a + b;
    SkipEndSkips(a, pos);
    assert forall k :: pos <= k < |a| ==> ab[k] == a[k];
    LexSkipsAhead(ab, pos, |a|);
  }

  /** From the join on, `a + b` is lexed as `b` alone. */
  lemma LexAfter(a: seq<byte>, b: seq<byte>)
    ensures Lex(a + b, |a|) == Lex(b, 0)
  {
    LexShift(a + b, |a|, 0);
    assert (a + b)[|a|..] == b;
  }

  /** One `next` step that yields `t` and moves to `end`. */
  lemma LexSome(s: seq<byte>, pos: nat, t: Token, end: nat)
    requires pos <= |s| && Step(s, pos).0 == Some(t) && Step(s, pos).1 == end
    ensures Lex(s, pos) == [t] + Lex(s, end)
  {
  }

  lemma AppendAssociates(x: seq<Token>, y: seq<Token>, z: seq<Token>)
    ensures x + (y + z) == (x + y) + z
  {
  }

  /** One token of `a` is also the next token of `s`, and the rest follows. */
  lemma LexAppendStep(s: seq<byte>, a: seq<byte>, pos: nat, t: Token, end: nat, tail: seq<Token>)
    requires pos <= |a| && pos <= |s| && Step(a, pos) == (Some(t), end)
    requires Step(s, pos) == Step(a, pos)
    requires Lex(s, end) == Lex(a, end) + tail
    ensures Lex(s, pos) == Lex(a, pos) + tail
  {
    LexSome(s, pos, t, end);
    LexSome(a, pos, t, end);
    AppendAssociates([t], Lex(a, end), tail);
  }

  lemma {:induction false} LexAppendFrom(a: seq<byte>, b: seq<byte>, pos: nat)
    requires pos <= |a| && Separated(a, b)
    ensures Lex(a + b, pos) == Lex(a, pos) + Lex(b, 0)
    decreases |a| - pos
  {
    if SkipEnd(a, pos) == |a| {
      LexAppendRest(a, b, pos);
    } else {
      LexAppendFrom(a, b, Step(a, pos).1);
      StepExtend(a, b, pos);
      LexAppendStep(a + b, a, pos, Step(a, pos).0.value, Step(a, pos).1, Lex(b, 0));
    }
  }

  /**
   * Lexing is compositional wherever the join does not fall inside an
   * identifier or an integer: the stream of `a + b` is then that of `a`
   * followed by that of `b`. In particular this holds whenever `a` ends
   * with a space, newline or NUL, or `b` starts with one.
   */
  lemma LexAppend(a: seq<byte>, b: seq<byte>)
    requires Separated(a, b)
    ensures Tokenize(a + b) == Tokenize(a) + Tokenize(b)
  {
    LexAppendFrom(a, b, 0);
  }

  // ---------------------------------------------------------------------
  // Re-lexing a literal

  /** Distinct byte runs have distinct texts. */
  lemma LiteralInjective(x: seq<byte>, y: seq<byte>)
    requires Literal(x) == Literal(y)
    ensures x == y
  {
    assert |x| == |Literal(x)|;
    forall i | 0 <= i < |x|
      ensures x[i] == y[i]
    {
      assert Literal(x)[i] == Literal(y)[i];
    }
  }

  lemma {:induction false} SpanEndOfRun(s: seq<byte>, i: nat, p: byte -> bool)
    requires i <= |s|
    requires forall k :: i <= k < |s| ==> p(s[k])
    ensures SpanEnd(s, i, p) == |s|
    decreases |s| - i
  {
    if i < |s| {
      SpanEndOfRun(s, i + 1, p);
    }
  }

  /**
   * Lexing the literal of any token on its own gives back exactly that
   * token: the literal is a complete token, not a fragment of one.
   */
  lemma RelexToken(s: seq<byte>, pos: nat, x: seq<byte>)
    requires pos <= |s| && Step(s, pos).0.Some?
    requires Literal(x) == Step(s, pos).0.value.literal
    ensures Tokenize(x) == [Step(s, pos).0.value]
  {
    var start := SkipEnd(s, pos);
    var (t, end) := Step(s, pos);
    LiteralInjective(x, s[start..end]);
    SpanEndSpans(s, start, IsIdentifierByte);
    SpanEndSpans(s, start, IsIntegerByte);
    assert SkipEnd(x, 0) == 0;
    var kind := Classify(x[0]);
    if kind == Ident {
      SpanEndOfRun(x, 0, IsIdentifierByte);
    } else if kind == Int {
      SpanEndOfRun(x, 0, IsIntegerByte);
    }
    assert TokenEnd(x, 0) == |x|;
    assert x[0..|x|] == x;
    assert Step(x, 0) == (t, |x|);
    assert Lex(x, |x|) == [];
  }

  // ---------------------------------------------------------------------
  // Inputs of one token

  /** An input that is one run of letters and `_` lexes to one IDENT or keyword token. */
  lemma TokenizeIdentifierRun(w: seq<byte>)
    requires 0 < |w| && forall k :: 0 <= k < |w| ==> IsIdentifierByte(w[k])
    ensures Tokenize(w) == [Token(ResolveKeyword(Ident, Literal(w)), Literal(w))]
  {
    SpanEndOfRun(w, 0, IsIdentifierByte);
    assert w[0..|w|] == w;
    LexSome(w, 0, Token(ResolveKeyword(Ident, Literal(w)), Literal(w)), |w|);
  }

  /** An input that is one run of digits lexes to one INT token. */
  lemma TokenizeIntegerRun(w: seq<byte>)
    requires 0 < |w| && forall k :: 0 <= k < |w| ==> IsIntegerByte(w[k])
    ensures Tokenize(w) == [Token(Int, Literal(w))]
  {
    SpanEndOfRun(w, 0, IsIntegerByte);
    assert w[0..|w|] == w;
    LexSome(w, 0, Token(Int, Literal(w)), |w|);
  }

  /** A single byte that starts no run lexes to one token holding that byte. */
  lemma TokenizeSingleByte(b: byte)
    requires !IsSkippable(b) && !IsIdentifierByte(b) && !IsIntegerByte(b)
    ensures Tokenize([b]) == [Token(Classify(b), [b as char])]
  {
    StepSingleByte([b], 0);
    LexSome([b], 0, Token(Classify(b), [b as char]), 1);
  }

  /** An input of spaces, newlines and NULs only lexes to no token at all. */
  lemma TokenizeSkippableRun(w: seq<byte>)
    requires forall k :: 0 <= k < |w| ==> IsSkippable(w[k])
    ensures Tokenize(w) == []
  {
    SkipEndUnique(w, 0, |w|);
  }

  // ---------------------------------------------------------------------
  // The byte tables

  /** A byte range holds exactly the bytes between its two ends. */
  lemma ByteRangeMembers(lo: byte, hi: byte)
    requires lo <= hi
    ensures forall b :: b in ByteRange(lo, hi) <==> lo <= b <= hi
  {
    forall b | lo <= b <= hi
      ensures b in ByteRange(lo, hi)
    {
      assert ByteRange(lo, hi)[b as int - lo as int] == b;
    }
  }

  /** The identifier predicate is membership in the IDENTIFIER table, of 53 bytes. */
  lemma IdentifierTable()
    ensures |IDENTIFIER| == 53
    ensures forall b :: IsIdentifierByte(b) <==> b in IDENTIFIER
  {
    ByteRangeMembers('a' as byte, 'z' as byte);
    ByteRangeMembers('A' as byte, 'Z' as byte);
    ByteRangeMembers('_' as byte, '_' as byte);
  }

  /** The digit predicate is membership in the INTEGERS table, of 10 bytes. */
  lemma IntegerTable()
    ensures |INTEGERS| == 10
    ensures forall b :: IsIntegerByte(b) <==> b in INTEGERS
  {
    ByteRangeMembers('0' as byte, '9' as byte);
  }

  /** KEYWORDS holds exactly `let` and `fn`, each once. */
  lemma KeywordTable()
    ensures forall w :: w in KEYWORDS <==> w == "let" || w == "fn"
    ensures |KEYWORDS| == 2 && KEYWORDS[0] != KEYWORDS[1]
  {
  }
}
