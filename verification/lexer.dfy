/** Model of lexer.go: a byte-by-byte scanner that turns an input string into
    typed tokens, and StackOfTokens, which turns them into a LIFO of token kinds.

    The Go lexer keeps `position` (one past the current byte) and `current` (the
    byte itself, or 0 once the input is exhausted). The model keeps a single index
    `i` of the current byte instead: `i < |s|` stands for `current == s[i]`,
    `position == i + 1`, and `i == |s|` for `current == 0`, `position == len(s)`. */
module Lexer {
  import opened Wrappers
  import opened Stacks

  /** Go strings are indexed by bytes. */
  type byte = b: int | 0 <= b < 256

  /** The bytes of a string literal whose characters are all Latin-1. */
  function Bytes(s: string): seq<byte>
    requires forall k | 0 <= k < |s| :: s[k] as int < 256
  {
    seq(|s|, k requires 0 <= k < |s| => s[k] as int)
  }

  /** The value of `current` once ReadChar has run past the end of the input. */
  const NUL: byte := 0

  // The ASCII bytes the scanner dispatches on.
  const TAB: byte := 0x09
  const LF: byte := 0x0A
  const CR: byte := 0x0D
  const SPACE: byte := 0x20
  const BANG: byte := 0x21     // '!'
  const HASH: byte := 0x23     // '#'
  const DOLLAR: byte := 0x24   // '$'
  const AMP: byte := 0x26      // '&'
  const DIGIT_0: byte := 0x30
  const DIGIT_9: byte := 0x39
  const COLON: byte := 0x3A
  const SEMI: byte := 0x3B
  const EQUALS: byte := 0x3D
  const UPPER_A: byte := 0x41
  const UPPER_Z: byte := 0x5A
  const LOWER_A: byte := 0x61
  const LOWER_W: byte := 0x77
  const LOWER_Z: byte := 0x7A
  const LBRACE: byte := 0x7B   // '{'
  const RBRACE: byte := 0x7D   // '}'

  const WhileWord: seq<byte> := [0x77, 0x68, 0x69, 0x6C, 0x65]  // "while"
  const AssignWord: seq<byte> := [0x3A, 0x3D]                  // ":="

  datatype TokenKind =
    | Identifier | Number | Semicolon | Assign | Hash | Not | Ampersand | While
    | LeftCurlyBracket | RightCurlyBracket | EOF | Error
      /** The zero value "" of Go's TokenType, produced by a `w` that does not
          start `while`. */
    | Untyped

  datatype Token = Token(kind: TokenKind, value: seq<byte>)

  /** A token together with the offset of its first byte and the index of the
      current byte once NextToken has returned. */
  datatype Lexeme = Lexeme(token: Token, start: nat, next: nat)

  datatype LexError =
      /** An Error token: the byte matches no token rule (the NUL after the end of
          the input included), or a `:` is not followed by `=`. */
    | BadCharacter(offset: nat, ch: byte)
      /** A `:` as the last byte: Go indexes past the end of the input and panics. */
    | ColonAtEnd(offset: nat)

  /** The byte Go holds in `current` when the model's index is i. */
  function Current(s: seq<byte>, i: nat): byte {
    if i < |s| then s[i] else NUL
  }

  predicate IsSpace(c: byte) {
    c == SPACE || c == TAB || c == LF || c == CR
  }

  /** unicode.IsLetter applied to a byte read as a Latin-1 code point. */
  predicate IsLetter(c: byte) {
    || UPPER_A <= c <= UPPER_Z
    || LOWER_A <= c <= LOWER_Z
    || c == 0xAA || c == 0xB5 || c == 0xBA
    || 0xC0 <= c <= 0xD6 || 0xD8 <= c <= 0xF6 || 0xF8 <= c <= 0xFF
  }

  /** unicode.IsDigit applied to a byte: exactly the ASCII digits. */
  predicate IsDigit(c: byte) {
    DIGIT_0 <= c <= DIGIT_9
  }

  predicate IsAlnum(c: byte) {
    IsLetter(c) || IsDigit(c)
  }

  /** w occurs in s at offset j. */
  predicate StartsWith(s: seq<byte>, j: nat, w: seq<byte>) {
    j + |w| <= |s| && s[j..j + |w|] == w
  }

  predicate AllSpace(s: seq<byte>, a: nat, b: nat)
    requires a <= b <= |s|
  {
    forall k | a <= k < b :: IsSpace(s[k])
  }

  /** s[a..b] is a non-empty run of bytes satisfying inRun that cannot be extended. */
  predicate MaximalRun(s: seq<byte>, a: nat, b: nat, inRun: byte -> bool) {
    && a < b <= |s|
    && (forall k | a <= k < b :: inRun(s[k]))
    && (b == |s| || !inRun(s[b]))
  }

  /** The fixed text of every token kind that has one. */
  function Spelling(k: TokenKind): Option<seq<byte>> {
    match k
    case LeftCurlyBracket => Some([LBRACE])
    case RightCurlyBracket => Some([RBRACE])
    case Semicolon => Some([SEMI])
    case Hash => Some([HASH])
    case Not => Some([BANG])
    case Ampersand => Some([AMP])
    case Assign => Some(AssignWord)
    case While => Some(WhileWord)
    case EOF => Some([DOLLAR])
    case _ => None
  }

  /** SkipWhitespace (lexer.go:60-64): the index of the first byte at or after i
      that is not a space, tab, newline or carriage return. */
  function SkipWhitespace(s: seq<byte>, i: nat): (j: nat)
    requires i <= |s|
    ensures i <= j <= |s|
    ensures AllSpace(s, i, j)
    ensures !IsSpace(Current(s, j))
    decreases |s| - i
  {
    if i < |s| && IsSpace(s[i]) then SkipWhitespace(s, i + 1) else i
  }

  /** The loop of ReadIdentifier / ReadNumber (lexer.go:69-71, 78-80): the index
      that ends the run of bytes satisfying inRun which starts at i. */
  function RunEnd(s: seq<byte>, i: nat, inRun: byte -> bool): (j: nat)
    requires i <= |s|
    ensures i <= j <= |s|
    ensures forall k | i <= k < j :: inRun(s[k])
    ensures j == |s| || !inRun(s[j])
    decreases |s| - i
  {
    if i < |s| && inRun(s[i]) then RunEnd(s, i + 1, inRun) else i
  }

  /** ReadIdentifier / ReadNumber (lexer.go:67-82): the run starting at the
      current byte and the index after it. The text is input[start:position-1];
      when the run reaches the end of the input Go's position stays at len(input),
      so that text loses the run's last byte. */
  function ReadRun(s: seq<byte>, i: nat, inRun: byte -> bool): (seq<byte>, nat)
    requires i < |s|
  {
    var j := RunEnd(s, i, inRun);
    (if j < |s| then s[i..j] else s[i..|s| - 1], j)
  }

  /** The single-byte tokens of the switch in NextToken (lexer.go:91-94, 100-101,
      112-117), by the byte that spells them. */
  function Punctuation(c: byte): Option<TokenKind> {
    if c == LBRACE then Some(LeftCurlyBracket)
    else if c == RBRACE then Some(RightCurlyBracket)
    else if c == SEMI then Some(Semicolon)
    else if c == HASH then Some(Hash)
    else if c == BANG then Some(Not)
    else if c == AMP then Some(Ampersand)
    else None
  }

  /** The switch of NextToken (lexer.go:88-137), entered with the current byte at
      index j, whitespace already skipped. */
  function TokenAt(s: seq<byte>, j: nat): (r: Result<Lexeme, LexError>)
    requires j <= |s|
    // a `:` as the last byte is the only failure
    ensures r.Failure? <==> j + 1 == |s| && s[j] == COLON
    ensures r.Failure? ==> r.error == ColonAtEnd(j)
    // which bytes start which kind of token
    ensures r.Success? ==>
      var c := Current(s, j);
      var k := r.value.token.kind;
      && r.value.start == j
      && (Punctuation(c).Some? <==> k in {LeftCurlyBracket, RightCurlyBracket, Semicolon, Hash, Not, Ampersand})
      && (Punctuation(c).Some? ==> k == Punctuation(c).value)
      && (k == EOF <==> c == DOLLAR)
      && (k == While <==> StartsWith(s, j, WhileWord))
      && (k == Untyped <==> c == LOWER_W && !StartsWith(s, j, WhileWord))
      && (k == Assign <==> StartsWith(s, j, AssignWord))
      && (k == Identifier <==> IsLetter(c) && c != LOWER_W)
      && (k == Number <==> IsDigit(c))
  {
    var c := Current(s, j);
    if Punctuation(c).Some? then
      Success(Lexeme(Token(Punctuation(c).value, [c]), j, j + 1))
    else if c == LOWER_W then
      if StartsWith(s, j, WhileWord) then
        // position += 4, then the ReadChar after the switch
        Success(Lexeme(Token(While, WhileWord), j, j + 5))
      else
        // the token keeps its zero value; the ReadChar after the switch still runs
        Success(Lexeme(Token(Untyped, []), j, j + 1))
    else if c == COLON then
      if j + 1 == |s| then
        Failure(ColonAtEnd(j))
      else if s[j + 1] == EQUALS then
        Success(Lexeme(Token(Assign, AssignWord), j, j + 2))
      else
        Success(Lexeme(Token(Error, [c]), j, j + 1))
    else if c == DOLLAR then
      // returns before the ReadChar
      Success(Lexeme(Token(EOF, [c]), j, j))
    else if IsLetter(c) then
      var (v, n) := ReadRun(s, j, IsAlnum);
      Success(Lexeme(Token(Identifier, v), j, n))
    else if IsDigit(c) then
      var (v, n) := ReadRun(s, j, IsDigit);
      Success(Lexeme(Token(Number, v), j, n))
    else
      Success(Lexeme(Token(Error, [c]), j, j))
  }

  /** How far TokenAt moves the scan position, for each kind. */
  lemma TokenAtSpan(s: seq<byte>, j: nat)
    requires j <= |s|
    requires TokenAt(s, j).Success?
    ensures
      var lx := TokenAt(s, j).value;
      var k := lx.token.kind;
      && j <= lx.next <= |s|
      && (Spelling(k).Some? && k != EOF ==> lx.next == j + |Spelling(k).value|)
      && (k == EOF || k == Error ==> lx.next <= j + 1)
      && (k == EOF ==> lx.next == j)
      && (k == Untyped ==> lx.next == j + 1)
      && (k != EOF && k != Error ==> j < lx.next)
      && (k != EOF && k != Error ==> forall m | j <= m < lx.next :: s[m] != DOLLAR)
  {
    TokenAtDollarFree(s, j);
  }

  /** A token other than EOF and Error spans no `$`. */
  lemma TokenAtDollarFree(s: seq<byte>, j: nat)
    requires j <= |s|
    requires TokenAt(s, j).Success?
    ensures
      var lx := TokenAt(s, j).value;
      lx.token.kind != EOF && lx.token.kind != Error ==> forall m | j <= m < lx.next :: s[m] != DOLLAR
  {
    var c := Current(s, j);
    if c == LOWER_W && StartsWith(s, j, WhileWord) {
      assert forall m | j <= m < j + 5 :: s[m] == WhileWord[m - j];
    } else if c == COLON && j + 1 < |s| && s[j + 1] == EQUALS {
      assert s[j] == COLON;
    } else if Punctuation(c).None? && c != LOWER_W && c != COLON && c != DOLLAR {
      if IsLetter(c) {
        var n := RunEnd(s, j, IsAlnum);
        assert forall m | j <= m < n :: IsAlnum(s[m]);
      } else if IsDigit(c) {
        var n := RunEnd(s, j, IsDigit);
        assert forall m | j <= m < n :: IsDigit(s[m]);
      }
    }
  }

  /** Which text TokenAt returns, for each kind: the spelling of a fixed token,
      the maximal run of an identifier or a number, the offending byte of an
      Error. */
  lemma TokenAtText(s: seq<byte>, j: nat)
    requires j <= |s|
    requires TokenAt(s, j).Success?
    ensures
      var lx := TokenAt(s, j).value;
      var k := lx.token.kind;
      && (Spelling(k).Some? ==> lx.token.value == Spelling(k).value)
      && (k == Untyped ==> lx.token.value == [])
      && (k == Error && j < |s| ==> lx.token.value == [s[j]])
      && (j == |s| ==> lx.token == Token(Error, [NUL]))
      && (k != Error ==> forall m | 0 <= m < |lx.token.value| :: !IsSpace(lx.token.value[m]))
  {
  }

  /** The text of every token read inside the input is the input at its offset. */
  lemma TokenAtInInput(s: seq<byte>, j: nat)
    requires j < |s|
    requires TokenAt(s, j).Success?
    ensures StartsWith(s, j, TokenAt(s, j).value.token.value)
  {
    // every single-byte token is the input at its offset
    assert s[j..j + 1] == [s[j]];
  }

  /** An identifier or a number is a maximal run of its bytes; its value is that
      run unless the run reaches the end of the input, where ReadIdentifier and
      ReadNumber drop the last byte. */
  lemma TokenAtRun(s: seq<byte>, j: nat)
    requires j <= |s|
    requires TokenAt(s, j).Success?
    ensures
      var lx := TokenAt(s, j).value;
      var k := lx.token.kind;
      && (k == Identifier ==> MaximalRun(s, j, lx.next, IsAlnum))
      && (k == Number ==> MaximalRun(s, j, lx.next, IsDigit))
      && (k in {Identifier, Number} && lx.next < |s| ==> lx.token.value == s[j..lx.next])
      && (k in {Identifier, Number} && lx.next == |s| ==> lx.token.value == s[j..lx.next - 1])
  {
    var c := Current(s, j);
    if IsLetter(c) && c != LOWER_W {
      RunEndIsMaximal(s, j, IsAlnum);
    } else if IsDigit(c) {
      RunEndIsMaximal(s, j, IsDigit);
    }
  }

  /** A run that starts with a byte of the run is a maximal one. */
  lemma RunEndIsMaximal(s: seq<byte>, i: nat, inRun: byte -> bool)
    requires i < |s| && inRun(s[i])
    ensures MaximalRun(s, i, RunEnd(s, i, inRun), inRun)
  {
  }

  /** NextToken (lexer.go:85-138): skip whitespace, then scan one token. */
  function NextToken(s: seq<byte>, i: nat): (r: Result<Lexeme, LexError>)
    requires i <= |s|
    ensures r.Failure? <==> var j := SkipWhitespace(s, i); j + 1 == |s| && s[j] == COLON
    ensures r.Success? ==>
      && i <= r.value.start <= r.value.next <= |s|
      && AllSpace(s, i, r.value.start)
      && !IsSpace(Current(s, r.value.start))
      && (r.value.token.kind != EOF && r.value.token.kind != Error ==> r.value.start < r.value.next)
  {
    var j := SkipWhitespace(s, i);
    if TokenAt(s, j).Success? then TokenAtSpan(s, j); TokenAt(s, j) else TokenAt(s, j)
  }

  /** A successful scan ends with exactly one EOF and holds no Error. */
  predicate Terminated(ls: seq<Lexeme>) {
    && |ls| >= 1
    && ls[|ls| - 1].token.kind == EOF
    && forall k | 0 <= k < |ls| - 1 :: ls[k].token.kind != EOF && ls[k].token.kind != Error
  }

  /** The lexemes lie in s in order from index i on, separated by whitespace only,
      and each token's text is the input at its offset. */
  predicate Laid(s: seq<byte>, i: nat, ls: seq<Lexeme>) {
    && (|ls| >= 1 ==> i <= ls[0].start <= |s| && AllSpace(s, i, ls[0].start))
    && (forall k | 0 <= k < |ls| ::
          && ls[k].start <= ls[k].next < |s|
          && StartsWith(s, ls[k].start, ls[k].token.value))
    && (forall k | 0 <= k < |ls| - 1 :: Adjacent(s, ls, k))
  }

  /** Only whitespace lies between lexeme k and lexeme k + 1. */
  predicate Adjacent(s: seq<byte>, ls: seq<Lexeme>, k: nat)
    requires k + 1 < |ls|
  {
    ls[k].next <= ls[k + 1].start < |s| && AllSpace(s, ls[k].next, ls[k + 1].start)
  }

  /** The loop of StackOfTokens (lexer.go:154-166): NextToken until EOF, stopping
      at the first Error. */
  function ScanFrom(s: seq<byte>, i: nat): (r: Result<seq<Lexeme>, LexError>)
    requires i <= |s|
    ensures r.Success? ==> Terminated(r.value)
    decreases |s| - i
  {
    match NextToken(s, i)
    case Failure(e) => Failure(e)
    case Success(lx) =>
      if lx.token.kind == EOF then
        Success([lx])
      else if lx.token.kind == Error then
        Failure(BadCharacter(lx.start, Current(s, lx.start)))
      else
        match ScanFrom(s, lx.next)
        case Failure(e) => Failure(e)
        case Success(rest) => TerminatedCons(lx, rest); Success([lx] + rest)
  }

  /** No token of a successful scan holds a space, tab, newline or carriage
      return: whitespace only separates tokens. */
  lemma {:induction false} ScanTokensHaveNoSpace(s: seq<byte>, i: nat)
    requires i <= |s|
    requires ScanFrom(s, i).Success?
    ensures
      var ls := ScanFrom(s, i).value;
      forall k, m | 0 <= k < |ls| && 0 <= m < |ls[k].token.value| :: !IsSpace(ls[k].token.value[m])
    decreases |s| - i
  {
    var lx := NextToken(s, i).value;
    TokenAtText(s, lx.start);
    if lx.token.kind != EOF {
      var rest := ScanFrom(s, lx.next).value;
      ScanTokensHaveNoSpace(s, lx.next);
      var ls := [lx] + rest;
      assert ScanFrom(s, i).value == ls;
      forall k, m | 0 <= k < |ls| && 0 <= m < |ls[k].token.value| ensures !IsSpace(ls[k].token.value[m]) {
        if k > 0 {
          assert ls[k] == rest[k - 1];
        }
      }
    }
  }

  /** A token other than EOF and Error in front of a terminated scan. */
  lemma TerminatedCons(lx: Lexeme, rest: seq<Lexeme>)
    requires lx.token.kind != EOF && lx.token.kind != Error
    requires Terminated(rest)
    ensures Terminated([lx] + rest)
  {
    var ls := [lx] + rest;
    forall k | 0 <= k < |ls| - 1 ensures ls[k].token.kind != EOF && ls[k].token.kind != Error {
      if k > 0 {
        assert ls[k] == rest[k - 1];
      }
    }
  }

  /** The lexemes of a successful scan lie in the input in order, separated by
      whitespace only, and each is the token NextToken finds at its offset. */
  lemma {:induction false} ScanLaid(s: seq<byte>, i: nat)
    requires i <= |s|
    requires ScanFrom(s, i).Success?
    ensures
      var ls := ScanFrom(s, i).value;
      && Laid(s, i, ls)
      && (forall k | 0 <= k < |ls| :: TokenAt(s, ls[k].start) == Success(ls[k]))
    decreases |s| - i
  {
    var lx := NextToken(s, i).value;
    TokenAtSpan(s, lx.start);
    if lx.start < |s| {
      TokenAtInInput(s, lx.start);
    }
    if lx.token.kind != EOF {
      var rest := ScanFrom(s, lx.next).value;
      ScanLaid(s, lx.next);
      LaidCons(s, i, lx, rest);
      var ls := [lx] + rest;
      assert ScanFrom(s, i).value == ls;
      forall k | 0 <= k < |ls| ensures TokenAt(s, ls[k].start) == Success(ls[k]) {
        if k > 0 {
          assert ls[k] == rest[k - 1];
        }
      }
    }
  }

  /** From i the scan reads the lexemes ls one after another, none of them EOF or
      Error, and its next token starts at o. */
  predicate ReadsUpTo(s: seq<byte>, i: nat, ls: seq<Lexeme>, o: nat)
    decreases |ls|
  {
    && i <= |s|
    && if |ls| == 0 then
         o == SkipWhitespace(s, i)
       else
         && NextToken(s, i) == Success(ls[0])
         && ls[0].token.kind != EOF && ls[0].token.kind != Error
         && ReadsUpTo(s, ls[0].next, ls[1..], o)
  }

  /** The token that starts at o ends the scan: EOF, Error, or the `:` at the end. */
  predicate Stops(s: seq<byte>, o: nat) {
    o <= |s| && (TokenAt(s, o).Failure? || TokenAt(s, o).value.token.kind in {EOF, Error})
  }

  /** What a failed scan reports: a `:` as the last byte, or the offset and byte of
      an Error token, which is a `:` not followed by `=` or a byte no token starts
      with (the NUL past the end of the input included). The scan reaches that
      offset through tokens that do not stop it, and no `$` lies before it. */
  lemma {:induction false} ScanFailure(s: seq<byte>, i: nat)
    requires i <= |s|
    requires ScanFrom(s, i).Failure?
    ensures
      match ScanFrom(s, i).error
      case ColonAtEnd(o) => i <= o == |s| - 1 && s[o] == COLON
      case BadCharacter(o, ch) =>
        && i <= o <= |s|
        && ch == Current(s, o)
        && (ch == COLON ==> o + 1 < |s| && s[o + 1] != EQUALS)
        && (ch != COLON ==>
              Punctuation(ch).None? && ch != LOWER_W && ch != DOLLAR && !IsAlnum(ch) && !IsSpace(ch))
    ensures
      var o := ScanFrom(s, i).error.offset;
      && Stops(s, o)
      && (exists ls :: ReadsUpTo(s, i, ls, o))
      && (forall m | i <= m < o :: s[m] != DOLLAR)
    decreases |s| - i
  {
    ScanFailureReached(s, i);
    var r := NextToken(s, i);
    if r.Success? {
      var lx := r.value;
      if lx.token.kind != EOF && lx.token.kind != Error {
        ScanFailure(s, lx.next);
      }
    }
  }

  /** The path of a failed scan up to the reported offset. */
  lemma {:induction false} ScanFailureReached(s: seq<byte>, i: nat)
    requires i <= |s|
    requires ScanFrom(s, i).Failure?
    ensures
      var o := ScanFrom(s, i).error.offset;
      && Stops(s, o)
      && (exists ls :: ReadsUpTo(s, i, ls, o))
      && (forall m | i <= m < o :: s[m] != DOLLAR)
    decreases |s| - i
  {
    var o := ScanFrom(s, i).error.offset;
    var r := NextToken(s, i);
    if r.Failure? || r.value.token.kind == Error {
      assert ReadsUpTo(s, i, [], o);
    } else {
      var lx := r.value;
      assert ScanFrom(s, i) == ScanFrom(s, lx.next);
      ScanFailureReached(s, lx.next);
      var rest :| ReadsUpTo(s, lx.next, rest, o);
      assert ([lx] + rest)[1..] == rest;
      assert ReadsUpTo(s, i, [lx] + rest, o);
      TokenAtSpan(s, lx.start);
      forall m | i <= m < o ensures s[m] != DOLLAR {
        if m < lx.start {
          assert IsSpace(s[m]);
        }
      }
    }
  }

  /** The scan's path is determined: two runs of lexemes read from i that both end
      at a token which stops the scan are the same run, ending at the same offset. */
  lemma {:induction false} ReadsUpToUnique(s: seq<byte>, i: nat, ls: seq<Lexeme>, o: nat, ls': seq<Lexeme>, o': nat)
    requires ReadsUpTo(s, i, ls, o) && Stops(s, o)
    requires ReadsUpTo(s, i, ls', o') && Stops(s, o')
    ensures ls == ls' && o == o'
    decreases |ls|
  {
    if |ls| > 0 && |ls'| > 0 {
      ReadsUpToUnique(s, ls[0].next, ls[1..], o, ls'[1..], o');
      assert ls == [ls[0]] + ls[1..];
      assert ls' == [ls'[0]] + ls'[1..];
    } else {
      // where one run stops, the other would have to read a token that stops it
      assert NextToken(s, i) == TokenAt(s, SkipWhitespace(s, i));
    }
  }

  /** A failed scan stops at the first token that stops it: any other run of
      lexemes read from i up to such a token ends at the reported offset. */
  lemma ScanFailsAtFirstStop(s: seq<byte>, i: nat, ls: seq<Lexeme>, o: nat)
    requires i <= |s|
    requires ScanFrom(s, i).Failure?
    requires ReadsUpTo(s, i, ls, o) && Stops(s, o)
    ensures o == ScanFrom(s, i).error.offset
  {
    ScanFailure(s, i);
    var e := ScanFrom(s, i).error.offset;
    var ls' :| ReadsUpTo(s, i, ls', e);
    ReadsUpToUnique(s, i, ls, o, ls', e);
  }

  /** A successful scan ends at the first `$` from i on. */
  lemma {:induction false} ScanEndsAtFirstDollar(s: seq<byte>, i: nat)
    requires i <= |s|
    requires ScanFrom(s, i).Success?
    ensures
      var e := ScanFrom(s, i).value[|ScanFrom(s, i).value| - 1].start;
      && e < |s|
      && s[e] == DOLLAR
      && (forall m | i <= m < e :: s[m] != DOLLAR)
    decreases |s| - i
  {
    var lx := NextToken(s, i).value;
    TokenAtSpan(s, lx.start);
    if lx.token.kind != EOF {
      var rest := ScanFrom(s, lx.next).value;
      ScanEndsAtFirstDollar(s, lx.next);
      var ls := [lx] + rest;
      assert ScanFrom(s, i).value == ls;
      assert ls[|ls| - 1] == rest[|rest| - 1];
      var e := rest[|rest| - 1].start;
      forall m | i <= m < e ensures s[m] != DOLLAR {
        if m < lx.start {
          assert IsSpace(s[m]);
        }
      }
    }
  }

  /** In a successful scan every identifier and number is a complete maximal run,
      and its value is exactly that run. */
  lemma ScanRunsComplete(s: seq<byte>, i: nat)
    requires i <= |s|
    requires ScanFrom(s, i).Success?
    ensures
      var ls := ScanFrom(s, i).value;
      forall k | 0 <= k < |ls| ::
        && (ls[k].token.kind == Identifier ==>
              MaximalRun(s, ls[k].start, ls[k].next, IsAlnum) && ls[k].token.value == s[ls[k].start..ls[k].next])
        && (ls[k].token.kind == Number ==>
              MaximalRun(s, ls[k].start, ls[k].next, IsDigit) && ls[k].token.value == s[ls[k].start..ls[k].next])
  {
    var ls := ScanFrom(s, i).value;
    ScanLaid(s, i);
    forall k | 0 <= k < |ls| {
      TokenAtRun(s, ls[k].start);
    }
  }

  /** A lexeme found from i followed by lexemes laid from its end are laid from i. */
  lemma LaidCons(s: seq<byte>, i: nat, lx: Lexeme, rest: seq<Lexeme>)
    requires i <= lx.start <= lx.next < |s| && AllSpace(s, i, lx.start)
    requires StartsWith(s, lx.start, lx.token.value)
    requires |rest| >= 1 && Laid(s, lx.next, rest)
    ensures Laid(s, i, [lx] + rest)
  {
    var ls := [lx] + rest;
    forall k | 0 <= k < |ls| - 1
      ensures Adjacent(s, ls, k)
    {
      if k > 0 {
        assert Adjacent(s, rest, k - 1);
      }
    }
  }

  /** The token types StackOfTokens collects, in input order. */
  function Tokenize(s: seq<byte>): (r: Result<seq<TokenKind>, LexError>)
    ensures r.Success? ==>
      && |r.value| >= 1
      && r.value[|r.value| - 1] == EOF
      && forall k | 0 <= k < |r.value| - 1 :: r.value[k] != EOF && r.value[k] != Error
    // an input without `$` runs into the NUL past its end, an Error
    ensures (forall m | 0 <= m < |s| :: s[m] != DOLLAR) ==> r.Failure?
  {
    match ScanFrom(s, 0)
    case Failure(e) => Failure(e)
    case Success(ls) =>
      ScanEndsAtFirstDollar(s, 0);
      Success(seq(|ls|, k requires 0 <= k < |ls| => ls[k].token.kind))
  }

  /** The in-place reversal of StackOfTokens (lexer.go:168-170). */
  function Reverse<T>(xs: seq<T>): (r: seq<T>)
    ensures |r| == |xs|
    ensures forall k | 0 <= k < |xs| :: r[k] == xs[|xs| - 1 - k]
  {
    if |xs| == 0 then [] else [xs[|xs| - 1]] + Reverse(xs[..|xs| - 1])
  }

  /** Popping every element of the reversal gives the original order back. */
  lemma ReverseUndone<T>(xs: seq<T>)
    ensures PopAll(Reverse(xs)) == xs
  {
    var popped := PopAll(Reverse(xs));
    forall k | 0 <= k < |xs| ensures popped[k] == xs[k] {
      assert popped[k] == Reverse(xs)[|xs| - 1 - k];
    }
  }

  /** The end of StackOfTokens (lexer.go:168-174): reverse the collected token
      types, then push them in that order onto an empty stack. */
  function BuildStack(ks: seq<TokenKind>): (st: seq<TokenKind>)
    ensures |st| == |ks|
    ensures forall k | 0 <= k < |ks| :: st[k] == ks[|ks| - 1 - k]
    ensures PopAll(st) == ks
  {
    var rev := Reverse(ks);
    PushAllOntoEmpty(rev);
    ReverseUndone(ks);
    PushAll([], rev)
  }

  /** StackOfTokens (lexer.go:150-177): the token types with the first token on
      top and the EOF at the bottom. An Error leaves the caller an empty stack; the
      model returns the Error's offset and byte instead. */
  function StackOfTokens(s: seq<byte>): (r: Result<seq<TokenKind>, LexError>)
    ensures r.Success? <==> Tokenize(s).Success?
    ensures r.Success? ==>
      && |r.value| >= 1
      && r.value[0] == EOF
      && (forall k | 1 <= k < |r.value| :: r.value[k] != EOF && r.value[k] != Error)
      && PopAll(r.value) == Tokenize(s).value
  {
    match Tokenize(s)
    case Failure(e) => Failure(e)
    case Success(ks) => Success(BuildStack(ks))
  }
}
