/** Concrete runs of the tokenizer: a loop whose body assigns a number, a block
    with a `;` before its closing brace, and the inputs on which the Go lexer does
    something other than a reader of the grammar would expect (no word boundary
    after `while`, a lone `w`, a `:` at the end or before anything but `=`).
    ExampleTexts ties every byte sequence to the text in its comment. */
module LexerExamples {
  import opened Wrappers
  import opened Lexer

  /** A scan that starts with lexeme lx and goes on with r. */
  function Then(lx: Lexeme, r: Result<seq<Lexeme>, LexError>): Result<seq<Lexeme>, LexError> {
    match r
    case Success(rest) => Success([lx] + rest)
    case Failure(e) => Failure(e)
  }

  /** Tokenize reads off the kinds of a scan's lexemes. */
  lemma TokenizeKinds(s: seq<byte>, ls: seq<Lexeme>, ks: seq<TokenKind>)
    requires ScanFrom(s, 0) == Success(ls)
    requires |ls| == |ks| && forall k | 0 <= k < |ls| :: ls[k].token.kind == ks[k]
    ensures Tokenize(s) == Success(ks)
  {
    var r := Tokenize(s);
    assert r.Success? && |r.value| == |ks|;
    forall k | 0 <= k < |ks| ensures r.value[k] == ks[k] {
    }
    assert r.value == ks;
  }

  /** `{while a{b:=1}}$` */
  const WhileLoopText: seq<byte> := [0x7B, 0x77, 0x68, 0x69, 0x6C, 0x65, 0x20, 0x61, 0x7B, 0x62, 0x3A, 0x3D, 0x31, 0x7D, 0x7D, 0x24]

  /** `{a:=1;}$` */
  const SemicolonText: seq<byte> := [0x7B, 0x61, 0x3A, 0x3D, 0x31, 0x3B, 0x7D, 0x24]

  /** `whilex$` */
  const WhileXText: seq<byte> := [0x77, 0x68, 0x69, 0x6C, 0x65, 0x78, 0x24]

  /** `wx$` */
  const LoneWText: seq<byte> := [0x77, 0x78, 0x24]

  /** `a:` */
  const ColonAtEndText: seq<byte> := [0x61, 0x3A]

  /** `a:b$` */
  const ColonLetterText: seq<byte> := [0x61, 0x3A, 0x62, 0x24]

  /** Each example text is the bytes of the string in its comment. */
  lemma ExampleTexts()
    ensures WhileLoopText == Bytes("{while a{b:=1}}$")
    ensures SemicolonText == Bytes("{a:=1;}$")
    ensures WhileXText == Bytes("whilex$")
    ensures LoneWText == Bytes("wx$")
    ensures ColonAtEndText == Bytes("a:")
    ensures ColonLetterText == Bytes("a:b$")
  {
  }

  lemma WhileLoopLexeme0()
    ensures ScanFrom(WhileLoopText, 0) == Then(Lexeme(Token(LeftCurlyBracket, [0x7B]), 0, 1), ScanFrom(WhileLoopText, 1))
  {
    var s := WhileLoopText;
    assert NextToken(s, 0) == Success(Lexeme(Token(LeftCurlyBracket, [0x7B]), 0, 1));
  }

  lemma WhileLoopLexeme1()
    ensures ScanFrom(WhileLoopText, 1) == Then(Lexeme(Token(While, WhileWord), 1, 6), ScanFrom(WhileLoopText, 6))
  {
    var s := WhileLoopText;
    assert StartsWith(s, 1, WhileWord);
    assert NextToken(s, 1) == Success(Lexeme(Token(While, WhileWord), 1, 6));
  }

  lemma WhileLoopLexeme2()
    ensures ScanFrom(WhileLoopText, 6) == Then(Lexeme(Token(Identifier, [0x61]), 7, 8), ScanFrom(WhileLoopText, 8))
  {
    var s := WhileLoopText;
    assert s[7..8] == [0x61];
    assert NextToken(s, 6) == Success(Lexeme(Token(Identifier, [0x61]), 7, 8));
  }

  lemma WhileLoopLexeme3()
    ensures ScanFrom(WhileLoopText, 8) == Then(Lexeme(Token(LeftCurlyBracket, [0x7B]), 8, 9), ScanFrom(WhileLoopText, 9))
  {
    var s := WhileLoopText;
    assert NextToken(s, 8) == Success(Lexeme(Token(LeftCurlyBracket, [0x7B]), 8, 9));
  }

  lemma WhileLoopLexeme4()
    ensures ScanFrom(WhileLoopText, 9) == Then(Lexeme(Token(Identifier, [0x62]), 9, 10), ScanFrom(WhileLoopText, 10))
  {
    var s := WhileLoopText;
    assert s[9..10] == [0x62];
    assert NextToken(s, 9) == Success(Lexeme(Token(Identifier, [0x62]), 9, 10));
  }

  lemma WhileLoopLexeme5()
    ensures ScanFrom(WhileLoopText, 10) == Then(Lexeme(Token(Assign, AssignWord), 10, 12), ScanFrom(WhileLoopText, 12))
  {
    var s := WhileLoopText;
    assert StartsWith(s, 10, AssignWord);
    assert NextToken(s, 10) == Success(Lexeme(Token(Assign, AssignWord), 10, 12));
  }

  lemma WhileLoopLexeme6()
    ensures ScanFrom(WhileLoopText, 12) == Then(Lexeme(Token(Number, [0x31]), 12, 13), ScanFrom(WhileLoopText, 13))
  {
    var s := WhileLoopText;
    assert s[12..13] == [0x31];
    assert NextToken(s, 12) == Success(Lexeme(Token(Number, [0x31]), 12, 13));
  }

  lemma WhileLoopLexeme7()
    ensures ScanFrom(WhileLoopText, 13) == Then(Lexeme(Token(RightCurlyBracket, [0x7D]), 13, 14), ScanFrom(WhileLoopText, 14))
  {
    var s := WhileLoopText;
    assert NextToken(s, 13) == Success(Lexeme(Token(RightCurlyBracket, [0x7D]), 13, 14));
  }

  lemma WhileLoopLexeme8()
    ensures ScanFrom(WhileLoopText, 14) == Then(Lexeme(Token(RightCurlyBracket, [0x7D]), 14, 15), ScanFrom(WhileLoopText, 15))
  {
    var s := WhileLoopText;
    assert NextToken(s, 14) == Success(Lexeme(Token(RightCurlyBracket, [0x7D]), 14, 15));
  }

  lemma WhileLoopLexeme9()
    ensures ScanFrom(WhileLoopText, 15) == Success([Lexeme(Token(EOF, [0x24]), 15, 15)])
  {
    var s := WhileLoopText;
    assert NextToken(s, 15) == Success(Lexeme(Token(EOF, [0x24]), 15, 15));
  }

  lemma WhileLoopFrom7()
    ensures ScanFrom(WhileLoopText, 13) == Success([Lexeme(Token(RightCurlyBracket, [0x7D]), 13, 14), Lexeme(Token(RightCurlyBracket, [0x7D]), 14, 15), Lexeme(Token(EOF, [0x24]), 15, 15)])
  {
    var l7 := Lexeme(Token(RightCurlyBracket, [0x7D]), 13, 14);
    var l8 := Lexeme(Token(RightCurlyBracket, [0x7D]), 14, 15);
    var l9 := Lexeme(Token(EOF, [0x24]), 15, 15);
    assert [l8] + [l9] == [l8, l9];
    assert [l7] + [l8, l9] == [l7, l8, l9];
    WhileLoopLexeme9();
    WhileLoopLexeme8();
    WhileLoopLexeme7();
  }

  lemma WhileLoopFrom4()
    ensures ScanFrom(WhileLoopText, 9) == Success([Lexeme(Token(Identifier, [0x62]), 9, 10), Lexeme(Token(Assign, AssignWord), 10, 12), Lexeme(Token(Number, [0x31]), 12, 13), Lexeme(Token(RightCurlyBracket, [0x7D]), 13, 14), Lexeme(Token(RightCurlyBracket, [0x7D]), 14, 15), Lexeme(Token(EOF, [0x24]), 15, 15)])
  {
    var l4 := Lexeme(Token(Identifier, [0x62]), 9, 10);
    var l5 := Lexeme(Token(Assign, AssignWord), 10, 12);
    var l6 := Lexeme(Token(Number, [0x31]), 12, 13);
    var l7 := Lexeme(Token(RightCurlyBracket, [0x7D]), 13, 14);
    var l8 := Lexeme(Token(RightCurlyBracket, [0x7D]), 14, 15);
    var l9 := Lexeme(Token(EOF, [0x24]), 15, 15);
    assert [l6] + [l7, l8, l9] == [l6, l7, l8, l9];
    assert [l5] + [l6, l7, l8, l9] == [l5, l6, l7, l8, l9];
    assert [l4] + [l5, l6, l7, l8, l9] == [l4, l5, l6, l7, l8, l9];
    WhileLoopFrom7();
    WhileLoopLexeme6();
    WhileLoopLexeme5();
    WhileLoopLexeme4();
  }

  lemma WhileLoopFrom1()
    ensures ScanFrom(WhileLoopText, 1) == Success([Lexeme(Token(While, WhileWord), 1, 6), Lexeme(Token(Identifier, [0x61]), 7, 8), Lexeme(Token(LeftCurlyBracket, [0x7B]), 8, 9), Lexeme(Token(Identifier, [0x62]), 9, 10), Lexeme(Token(Assign, AssignWord), 10, 12), Lexeme(Token(Number, [0x31]), 12, 13), Lexeme(Token(RightCurlyBracket, [0x7D]), 13, 14), Lexeme(Token(RightCurlyBracket, [0x7D]), 14, 15), Lexeme(Token(EOF, [0x24]), 15, 15)])
  {
    var l1 := Lexeme(Token(While, WhileWord), 1, 6);
    var l2 := Lexeme(Token(Identifier, [0x61]), 7, 8);
    var l3 := Lexeme(Token(LeftCurlyBracket, [0x7B]), 8, 9);
    var l4 := Lexeme(Token(Identifier, [0x62]), 9, 10);
    var l5 := Lexeme(Token(Assign, AssignWord), 10, 12);
    var l6 := Lexeme(Token(Number, [0x31]), 12, 13);
    var l7 := Lexeme(Token(RightCurlyBracket, [0x7D]), 13, 14);
    var l8 := Lexeme(Token(RightCurlyBracket, [0x7D]), 14, 15);
    var l9 := Lexeme(Token(EOF, [0x24]), 15, 15);
    assert [l3] + [l4, l5, l6, l7, l8, l9] == [l3, l4, l5, l6, l7, l8, l9];
    assert [l2] + [l3, l4, l5, l6, l7, l8, l9] == [l2, l3, l4, l5, l6, l7, l8, l9];
    assert [l1] + [l2, l3, l4, l5, l6, l7, l8, l9] == [l1, l2, l3, l4, l5, l6, l7, l8, l9];
    WhileLoopFrom4();
    WhileLoopLexeme3();
    WhileLoopLexeme2();
    WhileLoopLexeme1();
  }

  lemma WhileLoopFrom0()
    ensures ScanFrom(WhileLoopText, 0) == Success([Lexeme(Token(LeftCurlyBracket, [0x7B]), 0, 1), Lexeme(Token(While, WhileWord), 1, 6), Lexeme(Token(Identifier, [0x61]), 7, 8), Lexeme(Token(LeftCurlyBracket, [0x7B]), 8, 9), Lexeme(Token(Identifier, [0x62]), 9, 10), Lexeme(Token(Assign, AssignWord), 10, 12), Lexeme(Token(Number, [0x31]), 12, 13), Lexeme(Token(RightCurlyBracket, [0x7D]), 13, 14), Lexeme(Token(RightCurlyBracket, [0x7D]), 14, 15), Lexeme(Token(EOF, [0x24]), 15, 15)])
  {
    var l0 := Lexeme(Token(LeftCurlyBracket, [0x7B]), 0, 1);
    var l1 := Lexeme(Token(While, WhileWord), 1, 6);
    var l2 := Lexeme(Token(Identifier, [0x61]), 7, 8);
    var l3 := Lexeme(Token(LeftCurlyBracket, [0x7B]), 8, 9);
    var l4 := Lexeme(Token(Identifier, [0x62]), 9, 10);
    var l5 := Lexeme(Token(Assign, AssignWord), 10, 12);
    var l6 := Lexeme(Token(Number, [0x31]), 12, 13);
    var l7 := Lexeme(Token(RightCurlyBracket, [0x7D]), 13, 14);
    var l8 := Lexeme(Token(RightCurlyBracket, [0x7D]), 14, 15);
    var l9 := Lexeme(Token(EOF, [0x24]), 15, 15);
    assert [l0] + [l1, l2, l3, l4, l5, l6, l7, l8, l9] == [l0, l1, l2, l3, l4, l5, l6, l7, l8, l9];
    WhileLoopFrom1();
    WhileLoopLexeme0();
  }

  /** `{while a{b:=1}}$`: a loop whose body assigns a number. */
  lemma ScanWhileLoop()
    ensures Tokenize(WhileLoopText) == Success([LeftCurlyBracket, While, Identifier, LeftCurlyBracket, Identifier, Assign, Number, RightCurlyBracket, RightCurlyBracket, EOF])
  {
    var ls := [Lexeme(Token(LeftCurlyBracket, [0x7B]), 0, 1), Lexeme(Token(While, WhileWord), 1, 6), Lexeme(Token(Identifier, [0x61]), 7, 8), Lexeme(Token(LeftCurlyBracket, [0x7B]), 8, 9), Lexeme(Token(Identifier, [0x62]), 9, 10), Lexeme(Token(Assign, AssignWord), 10, 12), Lexeme(Token(Number, [0x31]), 12, 13), Lexeme(Token(RightCurlyBracket, [0x7D]), 13, 14), Lexeme(Token(RightCurlyBracket, [0x7D]), 14, 15), Lexeme(Token(EOF, [0x24]), 15, 15)];
    var ks := [LeftCurlyBracket, While, Identifier, LeftCurlyBracket, Identifier, Assign, Number, RightCurlyBracket, RightCurlyBracket, EOF];
    assert |ls| == |ks| && forall k | 0 <= k < |ls| :: ls[k].token.kind == ks[k];
    WhileLoopFrom0();
    TokenizeKinds(WhileLoopText, ls, ks);
  }

  lemma TrailingSemicolonLexeme0()
    ensures ScanFrom(SemicolonText, 0) == Then(Lexeme(Token(LeftCurlyBracket, [0x7B]), 0, 1), ScanFrom(SemicolonText, 1))
  {
    var s := SemicolonText;
    assert NextToken(s, 0) == Success(Lexeme(Token(LeftCurlyBracket, [0x7B]), 0, 1));
  }

  lemma TrailingSemicolonLexeme1()
    ensures ScanFrom(SemicolonText, 1) == Then(Lexeme(Token(Identifier, [0x61]), 1, 2), ScanFrom(SemicolonText, 2))
  {
    var s := SemicolonText;
    assert s[1..2] == [0x61];
    assert NextToken(s, 1) == Success(Lexeme(Token(Identifier, [0x61]), 1, 2));
  }

  lemma TrailingSemicolonLexeme2()
    ensures ScanFrom(SemicolonText, 2) == Then(Lexeme(Token(Assign, AssignWord), 2, 4), ScanFrom(SemicolonText, 4))
  {
    var s := SemicolonText;
    assert StartsWith(s, 2, AssignWord);
    assert NextToken(s, 2) == Success(Lexeme(Token(Assign, AssignWord), 2, 4));
  }

  lemma TrailingSemicolonLexeme3()
    ensures ScanFrom(SemicolonText, 4) == Then(Lexeme(Token(Number, [0x31]), 4, 5), ScanFrom(SemicolonText, 5))
  {
    var s := SemicolonText;
    assert s[4..5] == [0x31];
    assert NextToken(s, 4) == Success(Lexeme(Token(Number, [0x31]), 4, 5));
  }

  lemma TrailingSemicolonLexeme4()
    ensures ScanFrom(SemicolonText, 5) == Then(Lexeme(Token(Semicolon, [0x3B]), 5, 6), ScanFrom(SemicolonText, 6))
  {
    var s := SemicolonText;
    assert NextToken(s, 5) == Success(Lexeme(Token(Semicolon, [0x3B]), 5, 6));
  }

  lemma TrailingSemicolonLexeme5()
    ensures ScanFrom(SemicolonText, 6) == Then(Lexeme(Token(RightCurlyBracket, [0x7D]), 6, 7), ScanFrom(SemicolonText, 7))
  {
    var s := SemicolonText;
    assert NextToken(s, 6) == Success(Lexeme(Token(RightCurlyBracket, [0x7D]), 6, 7));
  }

  lemma TrailingSemicolonLexeme6()
    ensures ScanFrom(SemicolonText, 7) == Success([Lexeme(Token(EOF, [0x24]), 7, 7)])
  {
    var s := SemicolonText;
    assert NextToken(s, 7) == Success(Lexeme(Token(EOF, [0x24]), 7, 7));
  }

  lemma TrailingSemicolonFrom4()
    ensures ScanFrom(SemicolonText, 5) == Success([Lexeme(Token(Semicolon, [0x3B]), 5, 6), Lexeme(Token(RightCurlyBracket, [0x7D]), 6, 7), Lexeme(Token(EOF, [0x24]), 7, 7)])
  {
    var l4 := Lexeme(Token(Semicolon, [0x3B]), 5, 6);
    var l5 := Lexeme(Token(RightCurlyBracket, [0x7D]), 6, 7);
    var l6 := Lexeme(Token(EOF, [0x24]), 7, 7);
    assert [l5] + [l6] == [l5, l6];
    assert [l4] + [l5, l6] == [l4, l5, l6];
    TrailingSemicolonLexeme6();
    TrailingSemicolonLexeme5();
    TrailingSemicolonLexeme4();
  }

  lemma TrailingSemicolonFrom1()
    ensures ScanFrom(SemicolonText, 1) == Success([Lexeme(Token(Identifier, [0x61]), 1, 2), Lexeme(Token(Assign, AssignWord), 2, 4), Lexeme(Token(Number, [0x31]), 4, 5), Lexeme(Token(Semicolon, [0x3B]), 5, 6), Lexeme(Token(RightCurlyBracket, [0x7D]), 6, 7), Lexeme(Token(EOF, [0x24]), 7, 7)])
  {
    var l1 := Lexeme(Token(Identifier, [0x61]), 1, 2);
    var l2 := Lexeme(Token(Assign, AssignWord), 2, 4);
    var l3 := Lexeme(Token(Number, [0x31]), 4, 5);
    var l4 := Lexeme(Token(Semicolon, [0x3B]), 5, 6);
    var l5 := Lexeme(Token(RightCurlyBracket, [0x7D]), 6, 7);
    var l6 := Lexeme(Token(EOF, [0x24]), 7, 7);
    assert [l3] + [l4, l5, l6] == [l3, l4, l5, l6];
    assert [l2] + [l3, l4, l5, l6] == [l2, l3, l4, l5, l6];
    assert [l1] + [l2, l3, l4, l5, l6] == [l1, l2, l3, l4, l5, l6];
    TrailingSemicolonFrom4();
    TrailingSemicolonLexeme3();
    TrailingSemicolonLexeme2();
    TrailingSemicolonLexeme1();
  }

  lemma TrailingSemicolonFrom0()
    ensures ScanFrom(SemicolonText, 0) == Success([Lexeme(Token(LeftCurlyBracket, [0x7B]), 0, 1), Lexeme(Token(Identifier, [0x61]), 1, 2), Lexeme(Token(Assign, AssignWord), 2, 4), Lexeme(Token(Number, [0x31]), 4, 5), Lexeme(Token(Semicolon, [0x3B]), 5, 6), Lexeme(Token(RightCurlyBracket, [0x7D]), 6, 7), Lexeme(Token(EOF, [0x24]), 7, 7)])
  {
    var l0 := Lexeme(Token(LeftCurlyBracket, [0x7B]), 0, 1);
    var l1 := Lexeme(Token(Identifier, [0x61]), 1, 2);
    var l2 := Lexeme(Token(Assign, AssignWord), 2, 4);
    var l3 := Lexeme(Token(Number, [0x31]), 4, 5);
    var l4 := Lexeme(Token(Semicolon, [0x3B]), 5, 6);
    var l5 := Lexeme(Token(RightCurlyBracket, [0x7D]), 6, 7);
    var l6 := Lexeme(Token(EOF, [0x24]), 7, 7);
    assert [l0] + [l1, l2, l3, l4, l5, l6] == [l0, l1, l2, l3, l4, l5, l6];
    TrailingSemicolonFrom1();
    TrailingSemicolonLexeme0();
  }

  /** `{a:=1;}$`: a block whose last statement is followed by `;`. */
  lemma ScanTrailingSemicolon()
    ensures Tokenize(SemicolonText) == Success([LeftCurlyBracket, Identifier, Assign, Number, Semicolon, RightCurlyBracket, EOF])
  {
    var ls := [Lexeme(Token(LeftCurlyBracket, [0x7B]), 0, 1), Lexeme(Token(Identifier, [0x61]), 1, 2), Lexeme(Token(Assign, AssignWord), 2, 4), Lexeme(Token(Number, [0x31]), 4, 5), Lexeme(Token(Semicolon, [0x3B]), 5, 6), Lexeme(Token(RightCurlyBracket, [0x7D]), 6, 7), Lexeme(Token(EOF, [0x24]), 7, 7)];
    var ks := [LeftCurlyBracket, Identifier, Assign, Number, Semicolon, RightCurlyBracket, EOF];
    assert |ls| == |ks| && forall k | 0 <= k < |ls| :: ls[k].token.kind == ks[k];
    TrailingSemicolonFrom0();
    TokenizeKinds(SemicolonText, ls, ks);
  }

  lemma WhileWithoutBoundaryLexeme0()
    ensures ScanFrom(WhileXText, 0) == Then(Lexeme(Token(While, WhileWord), 0, 5), ScanFrom(WhileXText, 5))
  {
    var s := WhileXText;
    assert StartsWith(s, 0, WhileWord);
    assert NextToken(s, 0) == Success(Lexeme(Token(While, WhileWord), 0, 5));
  }

  lemma WhileWithoutBoundaryLexeme1()
    ensures ScanFrom(WhileXText, 5) == Then(Lexeme(Token(Identifier, [0x78]), 5, 6), ScanFrom(WhileXText, 6))
  {
    var s := WhileXText;
    assert s[5..6] == [0x78];
    assert NextToken(s, 5) == Success(Lexeme(Token(Identifier, [0x78]), 5, 6));
  }

  lemma WhileWithoutBoundaryLexeme2()
    ensures ScanFrom(WhileXText, 6) == Success([Lexeme(Token(EOF, [0x24]), 6, 6)])
  {
    var s := WhileXText;
    assert NextToken(s, 6) == Success(Lexeme(Token(EOF, [0x24]), 6, 6));
  }

  lemma WhileWithoutBoundaryFrom0()
    ensures ScanFrom(WhileXText, 0) == Success([Lexeme(Token(While, WhileWord), 0, 5), Lexeme(Token(Identifier, [0x78]), 5, 6), Lexeme(Token(EOF, [0x24]), 6, 6)])
  {
    var l0 := Lexeme(Token(While, WhileWord), 0, 5);
    var l1 := Lexeme(Token(Identifier, [0x78]), 5, 6);
    var l2 := Lexeme(Token(EOF, [0x24]), 6, 6);
    assert [l1] + [l2] == [l1, l2];
    assert [l0] + [l1, l2] == [l0, l1, l2];
    WhileWithoutBoundaryLexeme2();
    WhileWithoutBoundaryLexeme1();
    WhileWithoutBoundaryLexeme0();
  }

  /** `whilex$`: `while` followed directly by a letter is the keyword and then an identifier. */
  lemma ScanWhileWithoutBoundary()
    ensures Tokenize(WhileXText) == Success([While, Identifier, EOF])
  {
    var ls := [Lexeme(Token(While, WhileWord), 0, 5), Lexeme(Token(Identifier, [0x78]), 5, 6), Lexeme(Token(EOF, [0x24]), 6, 6)];
    var ks := [While, Identifier, EOF];
    assert |ls| == |ks| && forall k | 0 <= k < |ls| :: ls[k].token.kind == ks[k];
    WhileWithoutBoundaryFrom0();
    TokenizeKinds(WhileXText, ls, ks);
  }

  lemma LoneWLexeme0()
    ensures ScanFrom(LoneWText, 0) == Then(Lexeme(Token(Untyped, []), 0, 1), ScanFrom(LoneWText, 1))
  {
    var s := LoneWText;
    assert NextToken(s, 0) == Success(Lexeme(Token(Untyped, []), 0, 1));
  }

  lemma LoneWLexeme1()
    ensures ScanFrom(LoneWText, 1) == Then(Lexeme(Token(Identifier, [0x78]), 1, 2), ScanFrom(LoneWText, 2))
  {
    var s := LoneWText;
    assert s[1..2] == [0x78];
    assert NextToken(s, 1) == Success(Lexeme(Token(Identifier, [0x78]), 1, 2));
  }

  lemma LoneWLexeme2()
    ensures ScanFrom(LoneWText, 2) == Success([Lexeme(Token(EOF, [0x24]), 2, 2)])
  {
    var s := LoneWText;
    assert NextToken(s, 2) == Success(Lexeme(Token(EOF, [0x24]), 2, 2));
  }

  lemma LoneWFrom0()
    ensures ScanFrom(LoneWText, 0) == Success([Lexeme(Token(Untyped, []), 0, 1), Lexeme(Token(Identifier, [0x78]), 1, 2), Lexeme(Token(EOF, [0x24]), 2, 2)])
  {
    var l0 := Lexeme(Token(Untyped, []), 0, 1);
    var l1 := Lexeme(Token(Identifier, [0x78]), 1, 2);
    var l2 := Lexeme(Token(EOF, [0x24]), 2, 2);
    assert [l1] + [l2] == [l1, l2];
    assert [l0] + [l1, l2] == [l0, l1, l2];
    LoneWLexeme2();
    LoneWLexeme1();
    LoneWLexeme0();
  }

  /** `wx$`: a `w` that does not start `while` is a token of no type, and the identifier starts after it. */
  lemma ScanLoneW()
    ensures Tokenize(LoneWText) == Success([Untyped, Identifier, EOF])
  {
    var ls := [Lexeme(Token(Untyped, []), 0, 1), Lexeme(Token(Identifier, [0x78]), 1, 2), Lexeme(Token(EOF, [0x24]), 2, 2)];
    var ks := [Untyped, Identifier, EOF];
    assert |ls| == |ks| && forall k | 0 <= k < |ls| :: ls[k].token.kind == ks[k];
    LoneWFrom0();
    TokenizeKinds(LoneWText, ls, ks);
  }

  /** `a:`: a `:` as the last byte is read past the end of the input. */
  lemma ScanColonAtEnd()
    ensures Tokenize(ColonAtEndText) == Failure(ColonAtEnd(1))
  {
    var s := ColonAtEndText;
    assert NextToken(s, 1) == Failure(ColonAtEnd(1));
    assert s[0..1] == [0x61];
    assert NextToken(s, 0) == Success(Lexeme(Token(Identifier, [0x61]), 0, 1));
  }

  /** `a:b$`: a `:` before anything but `=` is an error token at the `:`. */
  lemma ScanColonBeforeLetter()
    ensures Tokenize(ColonLetterText) == Failure(BadCharacter(1, 0x3A))
  {
    var s := ColonLetterText;
    assert NextToken(s, 1) == Success(Lexeme(Token(Error, [0x3A]), 1, 2));
    assert s[0..1] == [0x61];
    assert NextToken(s, 0) == Success(Lexeme(Token(Identifier, [0x61]), 0, 1));
  }

}
