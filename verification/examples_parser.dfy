/** Concrete runs of `algorithm` (main.go:204-238) on the inputs of the tokenizer
    examples: every configuration the loop passes through, one step at a time. */
module ParserExamples {
  import opened Wrappers
  import opened Stacks
  import opened Lexer
  import opened Grammar
  import opened Parser
  import opened SourceLoop
  import opened LexerExamples

  /** The handle search stops at the topmost '<' above the sentinel. */
  lemma HandleStartAt(w: seq<Entry>, k: nat)
    requires 1 <= k < |w| && w[k].mark == Some(Yields)
    requires forall j | k < j < |w| :: w[j].mark != Some(Yields)
    ensures HandleStart(w) == Some(k)
  {
  }

  /** A step that goes on adds one to the run that follows it. */
  lemma RunContinue(c: Config, c': Config)
    requires WellFormed(c) && Step(c) == Continue(c')
    ensures Run(c) == Outcome(Run(c').verdict, Run(c').steps + 1, Run(c').last)
  {
  }

  /** A shift, '<' or '=', followed by the rest of the run. */
  lemma ShiftTo(c: Config, rel: Relation, c': Config)
    requires WellFormed(c)
    requires rel == Yields || rel == SameLevel
    requires Precedence(Top(c.work).sym, Top(c.input)) == Some(rel)
    requires c' == Config(Push(c.work, Entry(Top(c.input), Some(rel))), Pop(c.input))
    ensures Run(c) == Outcome(Run(c').verdict, Run(c').steps + 1, Run(c').last)
  {
    RunContinue(c, c');
  }

  /** A reduction to n of the handle that starts at k, followed by the rest of
      the run. */
  lemma ReduceTo(c: Config, k: nat, n: NonTerminal, c': Config)
    requires WellFormed(c)
    requires Precedence(Top(c.work).sym, Top(c.input)) == Some(Takes)
    requires Reduction(Top(c.input), Top(c.work).sym) == Some(n)
    requires HandleStart(c.work) == Some(k)
    requires c' == Config(c.work[..k], Push(c.input, N(n)))
    ensures Run(c) == Outcome(Run(c').verdict, Run(c').steps + 1, Run(c').last)
  {
    assert Step(c) == Continue(c');
    RunContinue(c, c');
  }

  /** StackOfTokens is the token types of a successful scan, first token on top. */
  lemma StackIs(s: seq<byte>, ks: seq<TokenKind>, st: seq<TokenKind>)
    requires Tokenize(s) == Success(ks)
    requires |st| == |ks| && forall k | 0 <= k < |ks| :: st[k] == ks[|ks| - 1 - k]
    ensures StackOfTokens(s) == Success(st)
  {
    var b := BuildStack(ks);
    assert b == st by {
      forall k | 0 <= k < |st| ensures b[k] == st[k] {
      }
    }
    assert StackOfTokens(s) == Success(b);
  }

  /** The start configuration of a token stack. */
  lemma InitialIs(st: seq<TokenKind>, c: Config)
    requires c.work == [Sentinel]
    requires |c.input| == |st| && forall k | 0 <= k < |st| :: c.input[k] == T(st[k])
    ensures Initial(st) == c
  {
    assert Initial(st).input == c.input;
  }

  const WhileLoopState0: Config := Config([Entry(T(EOF), None)], [T(EOF), T(RightCurlyBracket), T(RightCurlyBracket), T(Number), T(Assign), T(Identifier), T(LeftCurlyBracket), T(Identifier), T(While), T(LeftCurlyBracket)])
  const WhileLoopState1: Config := Config([Entry(T(EOF), None), Entry(T(LeftCurlyBracket), Some(Yields))], [T(EOF), T(RightCurlyBracket), T(RightCurlyBracket), T(Number), T(Assign), T(Identifier), T(LeftCurlyBracket), T(Identifier), T(While)])
  const WhileLoopState2: Config := Config([Entry(T(EOF), None), Entry(T(LeftCurlyBracket), Some(Yields)), Entry(T(While), Some(Yields))], [T(EOF), T(RightCurlyBracket), T(RightCurlyBracket), T(Number), T(Assign), T(Identifier), T(LeftCurlyBracket), T(Identifier)])
  const WhileLoopState3: Config := Config([Entry(T(EOF), None), Entry(T(LeftCurlyBracket), Some(Yields)), Entry(T(While), Some(Yields)), Entry(T(Identifier), Some(Yields))], [T(EOF), T(RightCurlyBracket), T(RightCurlyBracket), T(Number), T(Assign), T(Identifier), T(LeftCurlyBracket)])
  const WhileLoopState4: Config := Config([Entry(T(EOF), None), Entry(T(LeftCurlyBracket), Some(Yields)), Entry(T(While), Some(Yields))], [T(EOF), T(RightCurlyBracket), T(RightCurlyBracket), T(Number), T(Assign), T(Identifier), T(LeftCurlyBracket), N(Variable)])
  const WhileLoopState5: Config := Config([Entry(T(EOF), None), Entry(T(LeftCurlyBracket), Some(Yields)), Entry(T(While), Some(Yields)), Entry(N(Variable), Some(SameLevel))], [T(EOF), T(RightCurlyBracket), T(RightCurlyBracket), T(Number), T(Assign), T(Identifier), T(LeftCurlyBracket)])
  const WhileLoopState6: Config := Config([Entry(T(EOF), None), Entry(T(LeftCurlyBracket), Some(Yields)), Entry(T(While), Some(Yields)), Entry(N(Variable), Some(SameLevel)), Entry(T(LeftCurlyBracket), Some(SameLevel))], [T(EOF), T(RightCurlyBracket), T(RightCurlyBracket), T(Number), T(Assign), T(Identifier)])
  const WhileLoopState7: Config := Config([Entry(T(EOF), None), Entry(T(LeftCurlyBracket), Some(Yields)), Entry(T(While), Some(Yields)), Entry(N(Variable), Some(SameLevel)), Entry(T(LeftCurlyBracket), Some(SameLevel)), Entry(T(Identifier), Some(Yields))], [T(EOF), T(RightCurlyBracket), T(RightCurlyBracket), T(Number), T(Assign)])
  const WhileLoopState8: Config := Config([Entry(T(EOF), None), Entry(T(LeftCurlyBracket), Some(Yields)), Entry(T(While), Some(Yields)), Entry(N(Variable), Some(SameLevel)), Entry(T(LeftCurlyBracket), Some(SameLevel))], [T(EOF), T(RightCurlyBracket), T(RightCurlyBracket), T(Number), T(Assign), N(Variable)])
  const WhileLoopState9: Config := Config([Entry(T(EOF), None), Entry(T(LeftCurlyBracket), Some(Yields)), Entry(T(While), Some(Yields)), Entry(N(Variable), Some(SameLevel)), Entry(T(LeftCurlyBracket), Some(SameLevel)), Entry(N(Variable), Some(Yields))], [T(EOF), T(RightCurlyBracket), T(RightCurlyBracket), T(Number), T(Assign)])
  const WhileLoopState10: Config := Config([Entry(T(EOF), None), Entry(T(LeftCurlyBracket), Some(Yields)), Entry(T(While), Some(Yields)), Entry(N(Variable), Some(SameLevel)), Entry(T(LeftCurlyBracket), Some(SameLevel)), Entry(N(Variable), Some(Yields)), Entry(T(Assign), Some(SameLevel))], [T(EOF), T(RightCurlyBracket), T(RightCurlyBracket), T(Number)])
  const WhileLoopState11: Config := Config([Entry(T(EOF), None), Entry(T(LeftCurlyBracket), Some(Yields)), Entry(T(While), Some(Yields)), Entry(N(Variable), Some(SameLevel)), Entry(T(LeftCurlyBracket), Some(SameLevel)), Entry(N(Variable), Some(Yields)), Entry(T(Assign), Some(SameLevel)), Entry(T(Number), Some(Yields))], [T(EOF), T(RightCurlyBracket), T(RightCurlyBracket)])
  const WhileLoopState12: Config := Config([Entry(T(EOF), None), Entry(T(LeftCurlyBracket), Some(Yields)), Entry(T(While), Some(Yields)), Entry(N(Variable), Some(SameLevel)), Entry(T(LeftCurlyBracket), Some(SameLevel)), Entry(N(Variable), Some(Yields)), Entry(T(Assign), Some(SameLevel))], [T(EOF), T(RightCurlyBracket), T(RightCurlyBracket), N(Primary)])
  const WhileLoopState13: Config := Config([Entry(T(EOF), None), Entry(T(LeftCurlyBracket), Some(Yields)), Entry(T(While), Some(Yields)), Entry(N(Variable), Some(SameLevel)), Entry(T(LeftCurlyBracket), Some(SameLevel)), Entry(N(Variable), Some(Yields)), Entry(T(Assign), Some(SameLevel)), Entry(N(Primary), Some(Yields))], [T(EOF), T(RightCurlyBracket), T(RightCurlyBracket)])
  const WhileLoopState14: Config := Config([Entry(T(EOF), None), Entry(T(LeftCurlyBracket), Some(Yields)), Entry(T(While), Some(Yields)), Entry(N(Variable), Some(SameLevel)), Entry(T(LeftCurlyBracket), Some(SameLevel)), Entry(N(Variable), Some(Yields)), Entry(T(Assign), Some(SameLevel))], [T(EOF), T(RightCurlyBracket), T(RightCurlyBracket), N(Factor)])
  const WhileLoopState15: Config := Config([Entry(T(EOF), None), Entry(T(LeftCurlyBracket), Some(Yields)), Entry(T(While), Some(Yields)), Entry(N(Variable), Some(SameLevel)), Entry(T(LeftCurlyBracket), Some(SameLevel)), Entry(N(Variable), Some(Yields)), Entry(T(Assign), Some(SameLevel)), Entry(N(Factor), Some(Yields))], [T(EOF), T(RightCurlyBracket), T(RightCurlyBracket)])
  const WhileLoopState16: Config := Config([Entry(T(EOF), None), Entry(T(LeftCurlyBracket), Some(Yields)), Entry(T(While), Some(Yields)), Entry(N(Variable), Some(SameLevel)), Entry(T(LeftCurlyBracket), Some(SameLevel)), Entry(N(Variable), Some(Yields)), Entry(T(Assign), Some(SameLevel))], [T(EOF), T(RightCurlyBracket), T(RightCurlyBracket), N(ExpressionTail)])
  const WhileLoopState17: Config := Config([Entry(T(EOF), None), Entry(T(LeftCurlyBracket), Some(Yields)), Entry(T(While), Some(Yields)), Entry(N(Variable), Some(SameLevel)), Entry(T(LeftCurlyBracket), Some(SameLevel)), Entry(N(Variable), Some(Yields)), Entry(T(Assign), Some(SameLevel)), Entry(N(ExpressionTail), Some(Yields))], [T(EOF), T(RightCurlyBracket), T(RightCurlyBracket)])
  const WhileLoopState18: Config := Config([Entry(T(EOF), None), Entry(T(LeftCurlyBracket), Some(Yields)), Entry(T(While), Some(Yields)), Entry(N(Variable), Some(SameLevel)), Entry(T(LeftCurlyBracket), Some(SameLevel)), Entry(N(Variable), Some(Yields)), Entry(T(Assign), Some(SameLevel))], [T(EOF), T(RightCurlyBracket), T(RightCurlyBracket), N(Expression)])
  const WhileLoopState19: Config := Config([Entry(T(EOF), None), Entry(T(LeftCurlyBracket), Some(Yields)), Entry(T(While), Some(Yields)), Entry(N(Variable), Some(SameLevel)), Entry(T(LeftCurlyBracket), Some(SameLevel)), Entry(N(Variable), Some(Yields)), Entry(T(Assign), Some(SameLevel)), Entry(N(Expression), Some(SameLevel))], [T(EOF), T(RightCurlyBracket), T(RightCurlyBracket)])
  const WhileLoopState20: Config := Config([Entry(T(EOF), None), Entry(T(LeftCurlyBracket), Some(Yields)), Entry(T(While), Some(Yields)), Entry(N(Variable), Some(SameLevel)), Entry(T(LeftCurlyBracket), Some(SameLevel))], [T(EOF), T(RightCurlyBracket), T(RightCurlyBracket), N(Operator)])
  const WhileLoopState21: Config := Config([Entry(T(EOF), None), Entry(T(LeftCurlyBracket), Some(Yields)), Entry(T(While), Some(Yields)), Entry(N(Variable), Some(SameLevel)), Entry(T(LeftCurlyBracket), Some(SameLevel)), Entry(N(Operator), Some(Yields))], [T(EOF), T(RightCurlyBracket), T(RightCurlyBracket)])
  const WhileLoopState22: Config := Config([Entry(T(EOF), None), Entry(T(LeftCurlyBracket), Some(Yields)), Entry(T(While), Some(Yields)), Entry(N(Variable), Some(SameLevel)), Entry(T(LeftCurlyBracket), Some(SameLevel))], [T(EOF), T(RightCurlyBracket), T(RightCurlyBracket), N(BlockTail)])
  const WhileLoopState23: Config := Config([Entry(T(EOF), None), Entry(T(LeftCurlyBracket), Some(Yields)), Entry(T(While), Some(Yields)), Entry(N(Variable), Some(SameLevel)), Entry(T(LeftCurlyBracket), Some(SameLevel)), Entry(N(BlockTail), Some(Yields))], [T(EOF), T(RightCurlyBracket), T(RightCurlyBracket)])
  const WhileLoopState24: Config := Config([Entry(T(EOF), None), Entry(T(LeftCurlyBracket), Some(Yields)), Entry(T(While), Some(Yields)), Entry(N(Variable), Some(SameLevel)), Entry(T(LeftCurlyBracket), Some(SameLevel))], [T(EOF), T(RightCurlyBracket), T(RightCurlyBracket), N(Block)])
  const WhileLoopState25: Config := Config([Entry(T(EOF), None), Entry(T(LeftCurlyBracket), Some(Yields)), Entry(T(While), Some(Yields)), Entry(N(Variable), Some(SameLevel)), Entry(T(LeftCurlyBracket), Some(SameLevel)), Entry(N(Block), Some(SameLevel))], [T(EOF), T(RightCurlyBracket), T(RightCurlyBracket)])
  const WhileLoopState26: Config := Config([Entry(T(EOF), None), Entry(T(LeftCurlyBracket), Some(Yields)), Entry(T(While), Some(Yields)), Entry(N(Variable), Some(SameLevel)), Entry(T(LeftCurlyBracket), Some(SameLevel)), Entry(N(Block), Some(SameLevel)), Entry(T(RightCurlyBracket), Some(SameLevel))], [T(EOF), T(RightCurlyBracket)])
  const WhileLoopState27: Config := Config([Entry(T(EOF), None), Entry(T(LeftCurlyBracket), Some(Yields))], [T(EOF), T(RightCurlyBracket), N(Operator)])
  const WhileLoopState28: Config := Config([Entry(T(EOF), None), Entry(T(LeftCurlyBracket), Some(Yields)), Entry(N(Operator), Some(Yields))], [T(EOF), T(RightCurlyBracket)])
  const WhileLoopState29: Config := Config([Entry(T(EOF), None), Entry(T(LeftCurlyBracket), Some(Yields))], [T(EOF), T(RightCurlyBracket), N(BlockTail)])
  const WhileLoopState30: Config := Config([Entry(T(EOF), None), Entry(T(LeftCurlyBracket), Some(Yields)), Entry(N(BlockTail), Some(Yields))], [T(EOF), T(RightCurlyBracket)])
  const WhileLoopState31: Config := Config([Entry(T(EOF), None), Entry(T(LeftCurlyBracket), Some(Yields))], [T(EOF), T(RightCurlyBracket), N(Block)])
  const WhileLoopState32: Config := Config([Entry(T(EOF), None), Entry(T(LeftCurlyBracket), Some(Yields)), Entry(N(Block), Some(SameLevel))], [T(EOF), T(RightCurlyBracket)])
  const WhileLoopState33: Config := Config([Entry(T(EOF), None), Entry(T(LeftCurlyBracket), Some(Yields)), Entry(N(Block), Some(SameLevel)), Entry(T(RightCurlyBracket), Some(SameLevel))], [T(EOF)])
  const WhileLoopState34: Config := Config([Entry(T(EOF), None)], [T(EOF), N(Program)])
  const WhileLoopState35: Config := Config([Entry(T(EOF), None), Entry(N(Program), Some(Yields))], [T(EOF)])

  lemma WhileLoopStep0()
    ensures Run(WhileLoopState0) == Outcome(Run(WhileLoopState1).verdict, Run(WhileLoopState1).steps + 1, Run(WhileLoopState1).last)
  {
    assert Pop(WhileLoopState0.input) == WhileLoopState1.input;
    assert Push(WhileLoopState0.work, Entry(Top(WhileLoopState0.input), Some(Yields))) == WhileLoopState1.work;
    ShiftTo(WhileLoopState0, Yields, WhileLoopState1);
  }

  lemma WhileLoopStep1()
    ensures Run(WhileLoopState1) == Outcome(Run(WhileLoopState2).verdict, Run(WhileLoopState2).steps + 1, Run(WhileLoopState2).last)
  {
    assert Pop(WhileLoopState1.input) == WhileLoopState2.input;
    assert Push(WhileLoopState1.work, Entry(Top(WhileLoopState1.input), Some(Yields))) == WhileLoopState2.work;
    ShiftTo(WhileLoopState1, Yields, WhileLoopState2);
  }

  lemma WhileLoopStep2()
    ensures Run(WhileLoopState2) == Outcome(Run(WhileLoopState3).verdict, Run(WhileLoopState3).steps + 1, Run(WhileLoopState3).last)
  {
    assert Pop(WhileLoopState2.input) == WhileLoopState3.input;
    assert Push(WhileLoopState2.work, Entry(Top(WhileLoopState2.input), Some(Yields))) == WhileLoopState3.work;
    ShiftTo(WhileLoopState2, Yields, WhileLoopState3);
  }

  lemma WhileLoopStep3()
    ensures Run(WhileLoopState3) == Outcome(Run(WhileLoopState4).verdict, Run(WhileLoopState4).steps + 1, Run(WhileLoopState4).last)
  {
    assert WhileLoopState3.work[..3] == WhileLoopState4.work;
    assert Push(WhileLoopState3.input, N(Variable)) == WhileLoopState4.input;
    HandleStartAt(WhileLoopState3.work, 3);
    ReduceTo(WhileLoopState3, 3, Variable, WhileLoopState4);
  }

  lemma WhileLoopStep4()
    ensures Run(WhileLoopState4) == Outcome(Run(WhileLoopState5).verdict, Run(WhileLoopState5).steps + 1, Run(WhileLoopState5).last)
  {
    assert Pop(WhileLoopState4.input) == WhileLoopState5.input;
    assert Push(WhileLoopState4.work, Entry(Top(WhileLoopState4.input), Some(SameLevel))) == WhileLoopState5.work;
    ShiftTo(WhileLoopState4, SameLevel, WhileLoopState5);
  }

  lemma WhileLoopStep5()
    ensures Run(WhileLoopState5) == Outcome(Run(WhileLoopState6).verdict, Run(WhileLoopState6).steps + 1, Run(WhileLoopState6).last)
  {
    assert Pop(WhileLoopState5.input) == WhileLoopState6.input;
    assert Push(WhileLoopState5.work, Entry(Top(WhileLoopState5.input), Some(SameLevel))) == WhileLoopState6.work;
    ShiftTo(WhileLoopState5, SameLevel, WhileLoopState6);
  }

  lemma WhileLoopStep6()
    ensures Run(WhileLoopState6) == Outcome(Run(WhileLoopState7).verdict, Run(WhileLoopState7).steps + 1, Run(WhileLoopState7).last)
  {
    assert Pop(WhileLoopState6.input) == WhileLoopState7.input;
    assert Push(WhileLoopState6.work, Entry(Top(WhileLoopState6.input), Some(Yields))) == WhileLoopState7.work;
    ShiftTo(WhileLoopState6, Yields, WhileLoopState7);
  }

  lemma WhileLoopStep7()
    ensures Run(WhileLoopState7) == Outcome(Run(WhileLoopState8).verdict, Run(WhileLoopState8).steps + 1, Run(WhileLoopState8).last)
  {
    assert WhileLoopState7.work[..5] == WhileLoopState8.work;
    assert Push(WhileLoopState7.input, N(Variable)) == WhileLoopState8.input;
    HandleStartAt(WhileLoopState7.work, 5);
    ReduceTo(WhileLoopState7, 5, Variable, WhileLoopState8);
  }

  lemma WhileLoopStep8()
    ensures Run(WhileLoopState8) == Outcome(Run(WhileLoopState9).verdict, Run(WhileLoopState9).steps + 1, Run(WhileLoopState9).last)
  {
    assert Pop(WhileLoopState8.input) == WhileLoopState9.input;
    assert Push(WhileLoopState8.work, Entry(Top(WhileLoopState8.input), Some(Yields))) == WhileLoopState9.work;
    ShiftTo(WhileLoopState8, Yields, WhileLoopState9);
  }

  lemma WhileLoopStep9()
    ensures Run(WhileLoopState9) == Outcome(Run(WhileLoopState10).verdict, Run(WhileLoopState10).steps + 1, Run(WhileLoopState10).last)
  {
    assert Pop(WhileLoopState9.input) == WhileLoopState10.input;
    assert Push(WhileLoopState9.work, Entry(Top(WhileLoopState9.input), Some(SameLevel))) == WhileLoopState10.work;
    ShiftTo(WhileLoopState9, SameLevel, WhileLoopState10);
  }

  lemma WhileLoopStep10()
    ensures Run(WhileLoopState10) == Outcome(Run(WhileLoopState11).verdict, Run(WhileLoopState11).steps + 1, Run(WhileLoopState11).last)
  {
    assert Pop(WhileLoopState10.input) == WhileLoopState11.input;
    assert Push(WhileLoopState10.work, Entry(Top(WhileLoopState10.input), Some(Yields))) == WhileLoopState11.work;
    ShiftTo(WhileLoopState10, Yields, WhileLoopState11);
  }

  lemma WhileLoopStep11()
    ensures Run(WhileLoopState11) == Outcome(Run(WhileLoopState12).verdict, Run(WhileLoopState12).steps + 1, Run(WhileLoopState12).last)
  {
    assert WhileLoopState11.work[..7] == WhileLoopState12.work;
    assert Push(WhileLoopState11.input, N(Primary)) == WhileLoopState12.input;
    HandleStartAt(WhileLoopState11.work, 7);
    ReduceTo(WhileLoopState11, 7, Primary, WhileLoopState12);
  }

  lemma WhileLoopStep12()
    ensures Run(WhileLoopState12) == Outcome(Run(WhileLoopState13).verdict, Run(WhileLoopState13).steps + 1, Run(WhileLoopState13).last)
  {
    assert Pop(WhileLoopState12.input) == WhileLoopState13.input;
    assert Push(WhileLoopState12.work, Entry(Top(WhileLoopState12.input), Some(Yields))) == WhileLoopState13.work;
    ShiftTo(WhileLoopState12, Yields, WhileLoopState13);
  }

  lemma WhileLoopStep13()
    ensures Run(WhileLoopState13) == Outcome(Run(WhileLoopState14).verdict, Run(WhileLoopState14).steps + 1, Run(WhileLoopState14).last)
  {
    assert WhileLoopState13.work[..7] == WhileLoopState14.work;
    assert Push(WhileLoopState13.input, N(Factor)) == WhileLoopState14.input;
    HandleStartAt(WhileLoopState13.work, 7);
    ReduceTo(WhileLoopState13, 7, Factor, WhileLoopState14);
  }

  lemma WhileLoopStep14()
    ensures Run(WhileLoopState14) == Outcome(Run(WhileLoopState15).verdict, Run(WhileLoopState15).steps + 1, Run(WhileLoopState15).last)
  {
    assert Pop(WhileLoopState14.input) == WhileLoopState15.input;
    assert Push(WhileLoopState14.work, Entry(Top(WhileLoopState14.input), Some(Yields))) == WhileLoopState15.work;
    ShiftTo(WhileLoopState14, Yields, WhileLoopState15);
  }

  lemma WhileLoopStep15()
    ensures Run(WhileLoopState15) == Outcome(Run(WhileLoopState16).verdict, Run(WhileLoopState16).steps + 1, Run(WhileLoopState16).last)
  {
    assert WhileLoopState15.work[..7] == WhileLoopState16.work;
    assert Push(WhileLoopState15.input, N(ExpressionTail)) == WhileLoopState16.input;
    HandleStartAt(WhileLoopState15.work, 7);
    ReduceTo(WhileLoopState15, 7, ExpressionTail, WhileLoopState16);
  }

  lemma WhileLoopStep16()
    ensures Run(WhileLoopState16) == Outcome(Run(WhileLoopState17).verdict, Run(WhileLoopState17).steps + 1, Run(WhileLoopState17).last)
  {
    assert Pop(WhileLoopState16.input) == WhileLoopState17.input;
    assert Push(WhileLoopState16.work, Entry(Top(WhileLoopState16.input), Some(Yields))) == WhileLoopState17.work;
    ShiftTo(WhileLoopState16, Yields, WhileLoopState17);
  }

  lemma WhileLoopStep17()
    ensures Run(WhileLoopState17) == Outcome(Run(WhileLoopState18).verdict, Run(WhileLoopState18).steps + 1, Run(WhileLoopState18).last)
  {
    assert WhileLoopState17.work[..7] == WhileLoopState18.work;
    assert Push(WhileLoopState17.input, N(Expression)) == WhileLoopState18.input;
    HandleStartAt(WhileLoopState17.work, 7);
    ReduceTo(WhileLoopState17, 7, Expression, WhileLoopState18);
  }

  lemma WhileLoopStep18()
    ensures Run(WhileLoopState18) == Outcome(Run(WhileLoopState19).verdict, Run(WhileLoopState19).steps + 1, Run(WhileLoopState19).last)
  {
    assert Pop(WhileLoopState18.input) == WhileLoopState19.input;
    assert Push(WhileLoopState18.work, Entry(Top(WhileLoopState18.input), Some(SameLevel))) == WhileLoopState19.work;
    ShiftTo(WhileLoopState18, SameLevel, WhileLoopState19);
  }

  lemma WhileLoopStep19()
    ensures Run(WhileLoopState19) == Outcome(Run(WhileLoopState20).verdict, Run(WhileLoopState20).steps + 1, Run(WhileLoopState20).last)
  {
    assert WhileLoopState19.work[..5] == WhileLoopState20.work;
    assert Push(WhileLoopState19.input, N(Operator)) == WhileLoopState20.input;
    HandleStartAt(WhileLoopState19.work, 5);
    ReduceTo(WhileLoopState19, 5, Operator, WhileLoopState20);
  }

  lemma WhileLoopStep20()
    ensures Run(WhileLoopState20) == Outcome(Run(WhileLoopState21).verdict, Run(WhileLoopState21).steps + 1, Run(WhileLoopState21).last)
  {
    assert Pop(WhileLoopState20.input) == WhileLoopState21.input;
    assert Push(WhileLoopState20.work, Entry(Top(WhileLoopState20.input), Some(Yields))) == WhileLoopState21.work;
    ShiftTo(WhileLoopState20, Yields, WhileLoopState21);
  }

  lemma WhileLoopStep21()
    ensures Run(WhileLoopState21) == Outcome(Run(WhileLoopState22).verdict, Run(WhileLoopState22).steps + 1, Run(WhileLoopState22).last)
  {
    assert WhileLoopState21.work[..5] == WhileLoopState22.work;
    assert Push(WhileLoopState21.input, N(BlockTail)) == WhileLoopState22.input;
    HandleStartAt(WhileLoopState21.work, 5);
    ReduceTo(WhileLoopState21, 5, BlockTail, WhileLoopState22);
  }

  lemma WhileLoopStep22()
    ensures Run(WhileLoopState22) == Outcome(Run(WhileLoopState23).verdict, Run(WhileLoopState23).steps + 1, Run(WhileLoopState23).last)
  {
    assert Pop(WhileLoopState22.input) == WhileLoopState23.input;
    assert Push(WhileLoopState22.work, Entry(Top(WhileLoopState22.input), Some(Yields))) == WhileLoopState23.work;
    ShiftTo(WhileLoopState22, Yields, WhileLoopState23);
  }

  lemma WhileLoopStep23()
    ensures Run(WhileLoopState23) == Outcome(Run(WhileLoopState24).verdict, Run(WhileLoopState24).steps + 1, Run(WhileLoopState24).last)
  {
    assert WhileLoopState23.work[..5] == WhileLoopState24.work;
    assert Push(WhileLoopState23.input, N(Block)) == WhileLoopState24.input;
    HandleStartAt(WhileLoopState23.work, 5);
    ReduceTo(WhileLoopState23, 5, Block, WhileLoopState24);
  }

  lemma WhileLoopStep24()
    ensures Run(WhileLoopState24) == Outcome(Run(WhileLoopState25).verdict, Run(WhileLoopState25).steps + 1, Run(WhileLoopState25).last)
  {
    assert Pop(WhileLoopState24.input) == WhileLoopState25.input;
    assert Push(WhileLoopState24.work, Entry(Top(WhileLoopState24.input), Some(SameLevel))) == WhileLoopState25.work;
    ShiftTo(WhileLoopState24, SameLevel, WhileLoopState25);
  }

  lemma WhileLoopStep25()
    ensures Run(WhileLoopState25) == Outcome(Run(WhileLoopState26).verdict, Run(WhileLoopState26).steps + 1, Run(WhileLoopState26).last)
  {
    assert Pop(WhileLoopState25.input) == WhileLoopState26.input;
    assert Push(WhileLoopState25.work, Entry(Top(WhileLoopState25.input), Some(SameLevel))) == WhileLoopState26.work;
    ShiftTo(WhileLoopState25, SameLevel, WhileLoopState26);
  }

  lemma WhileLoopStep26()
    ensures Run(WhileLoopState26) == Outcome(Run(WhileLoopState27).verdict, Run(WhileLoopState27).steps + 1, Run(WhileLoopState27).last)
  {
    assert WhileLoopState26.work[..2] == WhileLoopState27.work;
    assert Push(WhileLoopState26.input, N(Operator)) == WhileLoopState27.input;
    HandleStartAt(WhileLoopState26.work, 2);
    ReduceTo(WhileLoopState26, 2, Operator, WhileLoopState27);
  }

  lemma WhileLoopStep27()
    ensures Run(WhileLoopState27) == Outcome(Run(WhileLoopState28).verdict, Run(WhileLoopState28).steps + 1, Run(WhileLoopState28).last)
  {
    assert Pop(WhileLoopState27.input) == WhileLoopState28.input;
    assert Push(WhileLoopState27.work, Entry(Top(WhileLoopState27.input), Some(Yields))) == WhileLoopState28.work;
    ShiftTo(WhileLoopState27, Yields, WhileLoopState28);
  }

  lemma WhileLoopStep28()
    ensures Run(WhileLoopState28) == Outcome(Run(WhileLoopState29).verdict, Run(WhileLoopState29).steps + 1, Run(WhileLoopState29).last)
  {
    assert WhileLoopState28.work[..2] == WhileLoopState29.work;
    assert Push(WhileLoopState28.input, N(BlockTail)) == WhileLoopState29.input;
    HandleStartAt(WhileLoopState28.work, 2);
    ReduceTo(WhileLoopState28, 2, BlockTail, WhileLoopState29);
  }

  lemma WhileLoopStep29()
    ensures Run(WhileLoopState29) == Outcome(Run(WhileLoopState30).verdict, Run(WhileLoopState30).steps + 1, Run(WhileLoopState30).last)
  {
    assert Pop(WhileLoopState29.input) == WhileLoopState30.input;
    assert Push(WhileLoopState29.work, Entry(Top(WhileLoopState29.input), Some(Yields))) == WhileLoopState30.work;
    ShiftTo(WhileLoopState29, Yields, WhileLoopState30);
  }

  lemma WhileLoopStep30()
    ensures Run(WhileLoopState30) == Outcome(Run(WhileLoopState31).verdict, Run(WhileLoopState31).steps + 1, Run(WhileLoopState31).last)
  {
    assert WhileLoopState30.work[..2] == WhileLoopState31.work;
    assert Push(WhileLoopState30.input, N(Block)) == WhileLoopState31.input;
    HandleStartAt(WhileLoopState30.work, 2);
    ReduceTo(WhileLoopState30, 2, Block, WhileLoopState31);
  }

  lemma WhileLoopStep31()
    ensures Run(WhileLoopState31) == Outcome(Run(WhileLoopState32).verdict, Run(WhileLoopState32).steps + 1, Run(WhileLoopState32).last)
  {
    assert Pop(WhileLoopState31.input) == WhileLoopState32.input;
    assert Push(WhileLoopState31.work, Entry(Top(WhileLoopState31.input), Some(SameLevel))) == WhileLoopState32.work;
    ShiftTo(WhileLoopState31, SameLevel, WhileLoopState32);
  }

  lemma WhileLoopStep32()
    ensures Run(WhileLoopState32) == Outcome(Run(WhileLoopState33).verdict, Run(WhileLoopState33).steps + 1, Run(WhileLoopState33).last)
  {
    assert Pop(WhileLoopState32.input) == WhileLoopState33.input;
    assert Push(WhileLoopState32.work, Entry(Top(WhileLoopState32.input), Some(SameLevel))) == WhileLoopState33.work;
    ShiftTo(WhileLoopState32, SameLevel, WhileLoopState33);
  }

  lemma WhileLoopStep33()
    ensures Run(WhileLoopState33) == Outcome(Run(WhileLoopState34).verdict, Run(WhileLoopState34).steps + 1, Run(WhileLoopState34).last)
  {
    assert WhileLoopState33.work[..1] == WhileLoopState34.work;
    assert Push(WhileLoopState33.input, N(Program)) == WhileLoopState34.input;
    HandleStartAt(WhileLoopState33.work, 1);
    ReduceTo(WhileLoopState33, 1, Program, WhileLoopState34);
  }

  lemma WhileLoopStep34()
    ensures Run(WhileLoopState34) == Outcome(Run(WhileLoopState35).verdict, Run(WhileLoopState35).steps + 1, Run(WhileLoopState35).last)
  {
    assert Pop(WhileLoopState34.input) == WhileLoopState35.input;
    assert Push(WhileLoopState34.work, Entry(Top(WhileLoopState34.input), Some(Yields))) == WhileLoopState35.work;
    ShiftTo(WhileLoopState34, Yields, WhileLoopState35);
  }

  /** The token stack of `{while a{b:=1}}$`. */
  lemma WhileLoopStack()
    ensures StackOfTokens(WhileLoopText) == Success([EOF, RightCurlyBracket, RightCurlyBracket, Number, Assign, Identifier, LeftCurlyBracket, Identifier, While, LeftCurlyBracket])
  {
    var ks := [LeftCurlyBracket, While, Identifier, LeftCurlyBracket, Identifier, Assign, Number, RightCurlyBracket, RightCurlyBracket, EOF];
    var st := [EOF, RightCurlyBracket, RightCurlyBracket, Number, Assign, Identifier, LeftCurlyBracket, Identifier, While, LeftCurlyBracket];
    assert forall k | 0 <= k < |ks| :: st[k] == ks[|ks| - 1 - k];
    ScanWhileLoop();
    StackIs(WhileLoopText, ks, st);
  }

  /** The loop run on the token stack of `{while a{b:=1}}$`. */
  lemma WhileLoopRun()
    ensures Run(WhileLoopState0) == Outcome(Accepted, 35, WhileLoopState35)
  {
    assert Step(WhileLoopState35) == Accept;
    WhileLoopStep34();
    WhileLoopStep33();
    WhileLoopStep32();
    WhileLoopStep31();
    WhileLoopStep30();
    WhileLoopStep29();
    WhileLoopStep28();
    WhileLoopStep27();
    WhileLoopStep26();
    WhileLoopStep25();
    WhileLoopStep24();
    WhileLoopStep23();
    WhileLoopStep22();
    WhileLoopStep21();
    WhileLoopStep20();
    WhileLoopStep19();
    WhileLoopStep18();
    WhileLoopStep17();
    WhileLoopStep16();
    WhileLoopStep15();
    WhileLoopStep14();
    WhileLoopStep13();
    WhileLoopStep12();
    WhileLoopStep11();
    WhileLoopStep10();
    WhileLoopStep9();
    WhileLoopStep8();
    WhileLoopStep7();
    WhileLoopStep6();
    WhileLoopStep5();
    WhileLoopStep4();
    WhileLoopStep3();
    WhileLoopStep2();
    WhileLoopStep1();
    WhileLoopStep0();
  }

  /** `{while a{b:=1}}$` is accepted after 35 steps, with Program over the sentinel. */
  lemma WhileLoopVerdict()
    ensures Parse([EOF, RightCurlyBracket, RightCurlyBracket, Number, Assign, Identifier, LeftCurlyBracket, Identifier, While, LeftCurlyBracket]) == Outcome(Accepted, 35, WhileLoopState35)
    ensures Algorithm(WhileLoopText) == Accepted
  {
    var st := [EOF, RightCurlyBracket, RightCurlyBracket, Number, Assign, Identifier, LeftCurlyBracket, Identifier, While, LeftCurlyBracket];
    assert forall k | 0 <= k < |st| :: WhileLoopState0.input[k] == T(st[k]);
    InitialIs(st, WhileLoopState0);
    WhileLoopRun();
    WhileLoopStack();
  }

  const TrailingSemicolonState0: Config := Config([Entry(T(EOF), None)], [T(EOF), T(RightCurlyBracket), T(Semicolon), T(Number), T(Assign), T(Identifier), T(LeftCurlyBracket)])
  const TrailingSemicolonState1: Config := Config([Entry(T(EOF), None), Entry(T(LeftCurlyBracket), Some(Yields))], [T(EOF), T(RightCurlyBracket), T(Semicolon), T(Number), T(Assign), T(Identifier)])
  const TrailingSemicolonState2: Config := Config([Entry(T(EOF), None), Entry(T(LeftCurlyBracket), Some(Yields)), Entry(T(Identifier), Some(Yields))], [T(EOF), T(RightCurlyBracket), T(Semicolon), T(Number), T(Assign)])
  const TrailingSemicolonState3: Config := Config([Entry(T(EOF), None), Entry(T(LeftCurlyBracket), Some(Yields))], [T(EOF), T(RightCurlyBracket), T(Semicolon), T(Number), T(Assign), N(Variable)])
  const TrailingSemicolonState4: Config := Config([Entry(T(EOF), None), Entry(T(LeftCurlyBracket), Some(Yields)), Entry(N(Variable), Some(Yields))], [T(EOF), T(RightCurlyBracket), T(Semicolon), T(Number), T(Assign)])
  const TrailingSemicolonState5: Config := Config([Entry(T(EOF), None), Entry(T(LeftCurlyBracket), Some(Yields)), Entry(N(Variable), Some(Yields)), Entry(T(Assign), Some(SameLevel))], [T(EOF), T(RightCurlyBracket), T(Semicolon), T(Number)])
  const TrailingSemicolonState6: Config := Config([Entry(T(EOF), None), Entry(T(LeftCurlyBracket), Some(Yields)), Entry(N(Variable), Some(Yields)), Entry(T(Assign), Some(SameLevel)), Entry(T(Number), Some(Yields))], [T(EOF), T(RightCurlyBracket), T(Semicolon)])
  const TrailingSemicolonState7: Config := Config([Entry(T(EOF), None), Entry(T(LeftCurlyBracket), Some(Yields)), Entry(N(Variable), Some(Yields)), Entry(T(Assign), Some(SameLevel))], [T(EOF), T(RightCurlyBracket), T(Semicolon), N(Primary)])
  const TrailingSemicolonState8: Config := Config([Entry(T(EOF), None), Entry(T(LeftCurlyBracket), Some(Yields)), Entry(N(Variable), Some(Yields)), Entry(T(Assign), Some(SameLevel)), Entry(N(Primary), Some(Yields))], [T(EOF), T(RightCurlyBracket), T(Semicolon)])
  const TrailingSemicolonState9: Config := Config([Entry(T(EOF), None), Entry(T(LeftCurlyBracket), Some(Yields)), Entry(N(Variable), Some(Yields)), Entry(T(Assign), Some(SameLevel))], [T(EOF), T(RightCurlyBracket), T(Semicolon), N(Factor)])
  const TrailingSemicolonState10: Config := Config([Entry(T(EOF), None), Entry(T(LeftCurlyBracket), Some(Yields)), Entry(N(Variable), Some(Yields)), Entry(T(Assign), Some(SameLevel)), Entry(N(Factor), Some(Yields))], [T(EOF), T(RightCurlyBracket), T(Semicolon)])
  const TrailingSemicolonState11: Config := Config([Entry(T(EOF), None), Entry(T(LeftCurlyBracket), Some(Yields)), Entry(N(Variable), Some(Yields)), Entry(T(Assign), Some(SameLevel))], [T(EOF), T(RightCurlyBracket), T(Semicolon), N(ExpressionTail)])
  const TrailingSemicolonState12: Config := Config([Entry(T(EOF), None), Entry(T(LeftCurlyBracket), Some(Yields)), Entry(N(Variable), Some(Yields)), Entry(T(Assign), Some(SameLevel)), Entry(N(ExpressionTail), Some(Yields))], [T(EOF), T(RightCurlyBracket), T(Semicolon)])
  const TrailingSemicolonState13: Config := Config([Entry(T(EOF), None), Entry(T(LeftCurlyBracket), Some(Yields)), Entry(N(Variable), Some(Yields)), Entry(T(Assign), Some(SameLevel))], [T(EOF), T(RightCurlyBracket), T(Semicolon), N(Expression)])
  const TrailingSemicolonState14: Config := Config([Entry(T(EOF), None), Entry(T(LeftCurlyBracket), Some(Yields)), Entry(N(Variable), Some(Yields)), Entry(T(Assign), Some(SameLevel)), Entry(N(Expression), Some(SameLevel))], [T(EOF), T(RightCurlyBracket), T(Semicolon)])
  const TrailingSemicolonState15: Config := Config([Entry(T(EOF), None), Entry(T(LeftCurlyBracket), Some(Yields))], [T(EOF), T(RightCurlyBracket), T(Semicolon), N(Operator)])
  const TrailingSemicolonState16: Config := Config([Entry(T(EOF), None), Entry(T(LeftCurlyBracket), Some(Yields)), Entry(N(Operator), Some(Yields))], [T(EOF), T(RightCurlyBracket), T(Semicolon)])
  const TrailingSemicolonState17: Config := Config([Entry(T(EOF), None), Entry(T(LeftCurlyBracket), Some(Yields))], [T(EOF), T(RightCurlyBracket), T(Semicolon), N(BlockTail)])
  const TrailingSemicolonState18: Config := Config([Entry(T(EOF), None), Entry(T(LeftCurlyBracket), Some(Yields)), Entry(N(BlockTail), Some(Yields))], [T(EOF), T(RightCurlyBracket), T(Semicolon)])
  const TrailingSemicolonState19: Config := Config([Entry(T(EOF), None), Entry(T(LeftCurlyBracket), Some(Yields)), Entry(N(BlockTail), Some(Yields)), Entry(T(Semicolon), Some(SameLevel))], [T(EOF), T(RightCurlyBracket)])

  lemma TrailingSemicolonStep0()
    ensures Run(TrailingSemicolonState0) == Outcome(Run(TrailingSemicolonState1).verdict, Run(TrailingSemicolonState1).steps + 1, Run(TrailingSemicolonState1).last)
  {
    assert Pop(TrailingSemicolonState0.input) == TrailingSemicolonState1.input;
    assert Push(TrailingSemicolonState0.work, Entry(Top(TrailingSemicolonState0.input), Some(Yields))) == TrailingSemicolonState1.work;
    ShiftTo(TrailingSemicolonState0, Yields, TrailingSemicolonState1);
  }

  lemma TrailingSemicolonStep1()
    ensures Run(TrailingSemicolonState1) == Outcome(Run(TrailingSemicolonState2).verdict, Run(TrailingSemicolonState2).steps + 1, Run(TrailingSemicolonState2).last)
  {
    assert Pop(TrailingSemicolonState1.input) == TrailingSemicolonState2.input;
    assert Push(TrailingSemicolonState1.work, Entry(Top(TrailingSemicolonState1.input), Some(Yields))) == TrailingSemicolonState2.work;
    ShiftTo(TrailingSemicolonState1, Yields, TrailingSemicolonState2);
  }

  lemma TrailingSemicolonStep2()
    ensures Run(TrailingSemicolonState2) == Outcome(Run(TrailingSemicolonState3).verdict, Run(TrailingSemicolonState3).steps + 1, Run(TrailingSemicolonState3).last)
  {
    assert TrailingSemicolonState2.work[..2] == TrailingSemicolonState3.work;
    assert Push(TrailingSemicolonState2.input, N(Variable)) == TrailingSemicolonState3.input;
    HandleStartAt(TrailingSemicolonState2.work, 2);
    ReduceTo(TrailingSemicolonState2, 2, Variable, TrailingSemicolonState3);
  }

  lemma TrailingSemicolonStep3()
    ensures Run(TrailingSemicolonState3) == Outcome(Run(TrailingSemicolonState4).verdict, Run(TrailingSemicolonState4).steps + 1, Run(TrailingSemicolonState4).last)
  {
    assert Pop(TrailingSemicolonState3.input) == TrailingSemicolonState4.input;
    assert Push(TrailingSemicolonState3.work, Entry(Top(TrailingSemicolonState3.input), Some(Yields))) == TrailingSemicolonState4.work;
    ShiftTo(TrailingSemicolonState3, Yields, TrailingSemicolonState4);
  }

  lemma TrailingSemicolonStep4()
    ensures Run(TrailingSemicolonState4) == Outcome(Run(TrailingSemicolonState5).verdict, Run(TrailingSemicolonState5).steps + 1, Run(TrailingSemicolonState5).last)
  {
    assert Pop(TrailingSemicolonState4.input) == TrailingSemicolonState5.input;
    assert Push(TrailingSemicolonState4.work, Entry(Top(TrailingSemicolonState4.input), Some(SameLevel))) == TrailingSemicolonState5.work;
    ShiftTo(TrailingSemicolonState4, SameLevel, TrailingSemicolonState5);
  }

  lemma TrailingSemicolonStep5()
    ensures Run(TrailingSemicolonState5) == Outcome(Run(TrailingSemicolonState6).verdict, Run(TrailingSemicolonState6).steps + 1, Run(TrailingSemicolonState6).last)
  {
    assert Pop(TrailingSemicolonState5.input) == TrailingSemicolonState6.input;
    assert Push(TrailingSemicolonState5.work, Entry(Top(TrailingSemicolonState5.input), Some(Yields))) == TrailingSemicolonState6.work;
    ShiftTo(TrailingSemicolonState5, Yields, TrailingSemicolonState6);
  }

  lemma TrailingSemicolonStep6()
    ensures Run(TrailingSemicolonState6) == Outcome(Run(TrailingSemicolonState7).verdict, Run(TrailingSemicolonState7).steps + 1, Run(TrailingSemicolonState7).last)
  {
    assert TrailingSemicolonState6.work[..4] == TrailingSemicolonState7.work;
    assert Push(TrailingSemicolonState6.input, N(Primary)) == TrailingSemicolonState7.input;
    HandleStartAt(TrailingSemicolonState6.work, 4);
    ReduceTo(TrailingSemicolonState6, 4, Primary, TrailingSemicolonState7);
  }

  lemma TrailingSemicolonStep7()
    ensures Run(TrailingSemicolonState7) == Outcome(Run(TrailingSemicolonState8).verdict, Run(TrailingSemicolonState8).steps + 1, Run(TrailingSemicolonState8).last)
  {
    assert Pop(TrailingSemicolonState7.input) == TrailingSemicolonState8.input;
    assert Push(TrailingSemicolonState7.work, Entry(Top(TrailingSemicolonState7.input), Some(Yields))) == TrailingSemicolonState8.work;
    ShiftTo(TrailingSemicolonState7, Yields, TrailingSemicolonState8);
  }

  lemma TrailingSemicolonStep8()
    ensures Run(TrailingSemicolonState8) == Outcome(Run(TrailingSemicolonState9).verdict, Run(TrailingSemicolonState9).steps + 1, Run(TrailingSemicolonState9).last)
  {
    assert TrailingSemicolonState8.work[..4] == TrailingSemicolonState9.work;
    assert Push(TrailingSemicolonState8.input, N(Factor)) == TrailingSemicolonState9.input;
    HandleStartAt(TrailingSemicolonState8.work, 4);
    ReduceTo(TrailingSemicolonState8, 4, Factor, TrailingSemicolonState9);
  }

  lemma TrailingSemicolonStep9()
    ensures Run(TrailingSemicolonState9) == Outcome(Run(TrailingSemicolonState10).verdict, Run(TrailingSemicolonState10).steps + 1, Run(TrailingSemicolonState10).last)
  {
    assert Pop(TrailingSemicolonState9.input) == TrailingSemicolonState10.input;
    assert Push(TrailingSemicolonState9.work, Entry(Top(TrailingSemicolonState9.input), Some(Yields))) == TrailingSemicolonState10.work;
    ShiftTo(TrailingSemicolonState9, Yields, TrailingSemicolonState10);
  }

  lemma TrailingSemicolonStep10()
    ensures Run(TrailingSemicolonState10) == Outcome(Run(TrailingSemicolonState11).verdict, Run(TrailingSemicolonState11).steps + 1, Run(TrailingSemicolonState11).last)
  {
    assert TrailingSemicolonState10.work[..4] == TrailingSemicolonState11.work;
    assert Push(TrailingSemicolonState10.input, N(ExpressionTail)) == TrailingSemicolonState11.input;
    HandleStartAt(TrailingSemicolonState10.work, 4);
    ReduceTo(TrailingSemicolonState10, 4, ExpressionTail, TrailingSemicolonState11);
  }

  lemma TrailingSemicolonStep11()
    ensures Run(TrailingSemicolonState11) == Outcome(Run(TrailingSemicolonState12).verdict, Run(TrailingSemicolonState12).steps + 1, Run(TrailingSemicolonState12).last)
  {
    assert Pop(TrailingSemicolonState11.input) == TrailingSemicolonState12.input;
    assert Push(TrailingSemicolonState11.work, Entry(Top(TrailingSemicolonState11.input), Some(Yields))) == TrailingSemicolonState12.work;
    ShiftTo(TrailingSemicolonState11, Yields, TrailingSemicolonState12);
  }

  lemma TrailingSemicolonStep12()
    ensures Run(TrailingSemicolonState12) == Outcome(Run(TrailingSemicolonState13).verdict, Run(TrailingSemicolonState13).steps + 1, Run(TrailingSemicolonState13).last)
  {
    assert TrailingSemicolonState12.work[..4] == TrailingSemicolonState13.work;
    assert Push(TrailingSemicolonState12.input, N(Expression)) == TrailingSemicolonState13.input;
    HandleStartAt(TrailingSemicolonState12.work, 4);
    ReduceTo(TrailingSemicolonState12, 4, Expression, TrailingSemicolonState13);
  }

  lemma TrailingSemicolonStep13()
    ensures Run(TrailingSemicolonState13) == Outcome(Run(TrailingSemicolonState14).verdict, Run(TrailingSemicolonState14).steps + 1, Run(TrailingSemicolonState14).last)
  {
    assert Pop(TrailingSemicolonState13.input) == TrailingSemicolonState14.input;
    assert Push(TrailingSemicolonState13.work, Entry(Top(TrailingSemicolonState13.input), Some(SameLevel))) == TrailingSemicolonState14.work;
    ShiftTo(TrailingSemicolonState13, SameLevel, TrailingSemicolonState14);
  }

  lemma TrailingSemicolonStep14()
    ensures Run(TrailingSemicolonState14) == Outcome(Run(TrailingSemicolonState15).verdict, Run(TrailingSemicolonState15).steps + 1, Run(TrailingSemicolonState15).last)
  {
    assert TrailingSemicolonState14.work[..2] == TrailingSemicolonState15.work;
    assert Push(TrailingSemicolonState14.input, N(Operator)) == TrailingSemicolonState15.input;
    HandleStartAt(TrailingSemicolonState14.work, 2);
    ReduceTo(TrailingSemicolonState14, 2, Operator, TrailingSemicolonState15);
  }

  lemma TrailingSemicolonStep15()
    ensures Run(TrailingSemicolonState15) == Outcome(Run(TrailingSemicolonState16).verdict, Run(TrailingSemicolonState16).steps + 1, Run(TrailingSemicolonState16).last)
  {
    assert Pop(TrailingSemicolonState15.input) == TrailingSemicolonState16.input;
    assert Push(TrailingSemicolonState15.work, Entry(Top(TrailingSemicolonState15.input), Some(Yields))) == TrailingSemicolonState16.work;
    ShiftTo(TrailingSemicolonState15, Yields, TrailingSemicolonState16);
  }

  lemma TrailingSemicolonStep16()
    ensures Run(TrailingSemicolonState16) == Outcome(Run(TrailingSemicolonState17).verdict, Run(TrailingSemicolonState17).steps + 1, Run(TrailingSemicolonState17).last)
  {
    assert TrailingSemicolonState16.work[..2] == TrailingSemicolonState17.work;
    assert Push(TrailingSemicolonState16.input, N(BlockTail)) == TrailingSemicolonState17.input;
    HandleStartAt(TrailingSemicolonState16.work, 2);
    ReduceTo(TrailingSemicolonState16, 2, BlockTail, TrailingSemicolonState17);
  }

  lemma TrailingSemicolonStep17()
    ensures Run(TrailingSemicolonState17) == Outcome(Run(TrailingSemicolonState18).verdict, Run(TrailingSemicolonState18).steps + 1, Run(TrailingSemicolonState18).last)
  {
    assert Pop(TrailingSemicolonState17.input) == TrailingSemicolonState18.input;
    assert Push(TrailingSemicolonState17.work, Entry(Top(TrailingSemicolonState17.input), Some(Yields))) == TrailingSemicolonState18.work;
    ShiftTo(TrailingSemicolonState17, Yields, TrailingSemicolonState18);
  }

  lemma TrailingSemicolonStep18()
    ensures Run(TrailingSemicolonState18) == Outcome(Run(TrailingSemicolonState19).verdict, Run(TrailingSemicolonState19).steps + 1, Run(TrailingSemicolonState19).last)
  {
    assert Pop(TrailingSemicolonState18.input) == TrailingSemicolonState19.input;
    assert Push(TrailingSemicolonState18.work, Entry(Top(TrailingSemicolonState18.input), Some(SameLevel))) == TrailingSemicolonState19.work;
    ShiftTo(TrailingSemicolonState18, SameLevel, TrailingSemicolonState19);
  }

  /** The token stack of `{a:=1;}$`. */
  lemma TrailingSemicolonStack()
    ensures StackOfTokens(SemicolonText) == Success([EOF, RightCurlyBracket, Semicolon, Number, Assign, Identifier, LeftCurlyBracket])
  {
    var ks := [LeftCurlyBracket, Identifier, Assign, Number, Semicolon, RightCurlyBracket, EOF];
    var st := [EOF, RightCurlyBracket, Semicolon, Number, Assign, Identifier, LeftCurlyBracket];
    assert forall k | 0 <= k < |ks| :: st[k] == ks[|ks| - 1 - k];
    ScanTrailingSemicolon();
    StackIs(SemicolonText, ks, st);
  }

  /** The loop run on the token stack of `{a:=1;}$`. */
  lemma TrailingSemicolonRun()
    ensures Run(TrailingSemicolonState0) == Outcome(Rejected(UnexpectedSymbol(T(Semicolon), T(RightCurlyBracket))), 19, TrailingSemicolonState19)
  {
    assert Step(TrailingSemicolonState19) == Reject(UnexpectedSymbol(T(Semicolon), T(RightCurlyBracket)));
    TrailingSemicolonStep18();
    TrailingSemicolonStep17();
    TrailingSemicolonStep16();
    TrailingSemicolonStep15();
    TrailingSemicolonStep14();
    TrailingSemicolonStep13();
    TrailingSemicolonStep12();
    TrailingSemicolonStep11();
    TrailingSemicolonStep10();
    TrailingSemicolonStep9();
    TrailingSemicolonStep8();
    TrailingSemicolonStep7();
    TrailingSemicolonStep6();
    TrailingSemicolonStep5();
    TrailingSemicolonStep4();
    TrailingSemicolonStep3();
    TrailingSemicolonStep2();
    TrailingSemicolonStep1();
    TrailingSemicolonStep0();
  }

  /** `{a:=1;}$` is rejected after 19 steps: no relation holds between `;` and `}`. */
  lemma TrailingSemicolonVerdict()
    ensures Parse([EOF, RightCurlyBracket, Semicolon, Number, Assign, Identifier, LeftCurlyBracket]) == Outcome(Rejected(UnexpectedSymbol(T(Semicolon), T(RightCurlyBracket))), 19, TrailingSemicolonState19)
    ensures Algorithm(SemicolonText) == Rejected(UnexpectedSymbol(T(Semicolon), T(RightCurlyBracket)))
  {
    var st := [EOF, RightCurlyBracket, Semicolon, Number, Assign, Identifier, LeftCurlyBracket];
    assert forall k | 0 <= k < |st| :: TrailingSemicolonState0.input[k] == T(st[k]);
    InitialIs(st, TrailingSemicolonState0);
    TrailingSemicolonRun();
    TrailingSemicolonStack();
  }

  /** The Go loop runs `{while a{b:=1}}$` through the same configurations and
      breaks where the model accepts. */
  lemma WhileLoopSourceAccepts()
    ensures Iterate(WhileLoopState0, 35) == Next(Final)
    ensures SourceStep(Final) == Done
  {
    WhileLoopRun();
    SourceAcceptsLikeRun(WhileLoopState0);
  }

  /** The Go loop on `{a:=1;}$`: after the 19 steps of the model it sits in the
      configuration the model rejects, and every further pass leaves it there. */
  lemma TrailingSemicolonSourceSpins(n: nat)
    ensures Iterate(TrailingSemicolonState0, 19 + n) == Next(TrailingSemicolonState19)
    ensures SourceStep(TrailingSemicolonState19) == Next(TrailingSemicolonState19)
  {
    TrailingSemicolonRun();
    SourceSpinsOnUnexpectedSymbol(TrailingSemicolonState0, 19, TrailingSemicolonState19, n);
  }

  /** `a:b$` never reaches the loop: the lexical error at the `:` is the verdict. */
  lemma ColonBeforeLetterVerdict()
    ensures Algorithm(ColonLetterText) == Rejected(LexicalError(BadCharacter(1, COLON)))
  {
    ScanColonBeforeLetter();
  }

  /** `a:` never reaches the loop: the `:` at the end is the verdict. */
  lemma ColonAtEndVerdict()
    ensures Algorithm(ColonAtEndText) == Rejected(LexicalError(ColonAtEnd(1)))
  {
    ScanColonAtEnd();
  }

}
