/** The loop of `algorithm` (main.go:210-237) exactly as the Go code runs it, next
    to the Parser model that the rest of the project uses. The Go loop has no exit
    besides acceptance: a pair of symbols without a precedence relation leaves both
    stacks as they are, so the next pass sees the same pair again; a handle search
    that runs past the sentinel peeks at an empty stack and panics. */
module SourceLoop {
  import opened Wrappers
  import opened Stacks
  import opened Lexer
  import opened Grammar
  import opened Parser

  /** What one pass of the Go loop does: leave the loop (the `break` of
      main.go:214), panic on a type assertion of an empty stack's nil, or go round
      again with a new configuration. */
  datatype Tick = Done | Panic | Next(config: Config)

  /** The pop loop of main.go:228-234: pop entries until one marked '<' has been
      popped. Peeking at an empty stack yields nil, whose type assertion panics:
      None. */
  function PopHandle(work: seq<Entry>): (r: Option<seq<Entry>>)
    ensures r.Some? ==>
      && |r.value| < |work|
      && r.value == work[..|r.value|]
      && work[|r.value|].mark == Some(Yields)
      && forall j | |r.value| < j < |work| :: work[j].mark != Some(Yields)
    ensures r.None? ==> forall j | 0 <= j < |work| :: work[j].mark != Some(Yields)
  {
    if |work| == 0 then None
    else if Top(work).mark == Some(Yields) then Some(Pop(work))
    else PopHandle(Pop(work))
  }

  /** One pass of the loop body of main.go:210-237 as written. */
  function SourceStep(c: Config): (t: Tick)
  {
    if |c.work| == 0 || |c.input| == 0 then Panic
    else
      var top := Top(c.work).sym;
      var next := Top(c.input);
      if top == N(Program) && next == T(EOF) then Done
      else
        match Precedence(top, next)
        case None => Next(c)
        case Some(Finish) => Next(c)
        case Some(Yields) => Next(Config(Push(c.work, Entry(next, Some(Yields))), Pop(c.input)))
        case Some(SameLevel) => Next(Config(Push(c.work, Entry(next, Some(SameLevel))), Pop(c.input)))
        case Some(Takes) =>
          // the reduced symbol is pushed only when reduce_table has an entry, and
          // the handle is popped in either case
          var input' := (match Reduction(next, top)
            case Some(n) => Push(c.input, N(n))
            case None => c.input);
          match PopHandle(c.work)
          case None => Panic
          case Some(w') => Next(Config(w', input'))
  }

  /** n passes of a loop whose body is `pass`, stopping early at a break or a
      panic. */
  function IterateWith(pass: Config -> Tick, c: Config, n: nat): Tick
    decreases n
  {
    if n == 0 then Next(c)
    else
      match pass(c)
      case Next(c') => IterateWith(pass, c', n - 1)
      case Done => Done
      case Panic => Panic
  }

  /** n passes of the Go loop. */
  function Iterate(c: Config, n: nat): Tick {
    IterateWith(SourceStep, c, n)
  }

  /** On anchored stacks the Go pass and the model's step agree wherever the model
      goes on or accepts; where the model rejects for want of a relation the Go
      pass changes nothing, and where it finds no handle start the Go pass panics. */
  lemma StepAgrees(c: Config)
    requires WellFormed(c)
    ensures Step(c) == Accept <==> SourceStep(c) == Done
    ensures Step(c).Continue? ==> SourceStep(c) == Next(Step(c).config)
    ensures Step(c).Reject? && Step(c).reason.UnexpectedSymbol? ==> SourceStep(c) == Next(c)
    ensures Step(c) == Reject(MalformedHandle) ==> SourceStep(c) == Panic
  {
    var top := Top(c.work).sym;
    var next := Top(c.input);
    if !(top == N(Program) && next == T(EOF)) && Precedence(top, next) == Some(Takes) {
      var p := PopHandle(c.work);
      var h := HandleStart(c.work);
      if p.Some? {
        assert |p.value| >= 1 by {
          assert c.work[0].mark == None;
        }
        assert h == Some(|p.value|);
      } else {
        assert h.None?;
      }
    }
  }

  /** One pass that goes on, followed by k more. */
  lemma IterateNext(pass: Config -> Tick, c: Config, c': Config, k: nat)
    requires pass(c) == Next(c')
    ensures IterateWith(pass, c, k + 1) == IterateWith(pass, c', k)
  {
  }

  /** A configuration the pass leaves unchanged is repeated forever. */
  lemma {:induction false} IterateStuck(pass: Config -> Tick, c: Config, n: nat)
    requires pass(c) == Next(c)
    ensures IterateWith(pass, c, n) == Next(c)
    decreases n
  {
    if n > 0 {
      IterateStuck(pass, c, n - 1);
    }
  }

  /** Passes compose: a passes that go on, then b more. */
  lemma {:induction false} IterateAdd(pass: Config -> Tick, c: Config, a: nat, b: nat)
    requires IterateWith(pass, c, a).Next?
    ensures IterateWith(pass, c, a + b) == IterateWith(pass, IterateWith(pass, c, a).config, b)
    decreases a
  {
    if a > 0 {
      var c' := pass(c).config;
      IterateNext(pass, c, c', a - 1);
      IterateNext(pass, c, c', a - 1 + b);
      IterateAdd(pass, c', a - 1, b);
    }
  }

  /** Passes that end in a configuration the next pass leaves unchanged stay
      there. */
  lemma StuckAfter(pass: Config -> Tick, c: Config, k: nat, d: Config, n: nat)
    requires IterateWith(pass, c, k) == Next(d) && pass(d) == Next(d)
    ensures IterateWith(pass, c, k + n) == Next(d)
  {
    IterateAdd(pass, c, k, n);
    IterateStuck(pass, d, n);
  }

  /** Whenever the model accepts, the Go loop reaches the same final configuration
      after the same number of passes and breaks there. */
  lemma {:induction false} SourceAcceptsLikeRun(c: Config)
    requires WellFormed(c)
    requires Run(c).verdict.Accepted?
    ensures Iterate(c, Run(c).steps) == Next(Run(c).last)
    ensures SourceStep(Run(c).last) == Done
    decreases Measure(c)
  {
    StepAgrees(c);
    RunUnfold(c);
    if Step(c).Continue? {
      var c' := Step(c).config;
      SourceAcceptsLikeRun(c');
      IterateNext(SourceStep, c, c', Run(c').steps);
    }
  }

  /** Whenever the model rejects for want of a precedence relation, the Go loop
      reaches, after as many passes as the model took, the configuration the model
      stops in, and the next pass leaves it unchanged. */
  lemma {:induction false} SourceReachesRejection(c: Config)
    requires WellFormed(c)
    requires Run(c).verdict.Rejected? && Run(c).verdict.reason.UnexpectedSymbol?
    ensures Iterate(c, Run(c).steps) == Next(Run(c).last)
    ensures SourceStep(Run(c).last) == Next(Run(c).last)
    decreases Measure(c)
  {
    StepAgrees(c);
    RunUnfold(c);
    if Step(c).Continue? {
      var c' := Step(c).config;
      SourceReachesRejection(c');
      IterateNext(SourceStep, c, c', Run(c').steps);
    }
  }

  /** So wherever the model rejects for want of a precedence relation, the Go
      loop never returns: the model stops after k steps in d, and after k + n
      passes, for every n, the Go loop is still in d. */
  lemma SourceSpinsOnUnexpectedSymbol(c: Config, k: nat, d: Config, n: nat)
    requires WellFormed(c)
    requires Run(c) == Outcome(Run(c).verdict, k, d)
    requires Run(c).verdict.Rejected? && Run(c).verdict.reason.UnexpectedSymbol?
    ensures Iterate(c, k + n) == Next(d)
  {
    SourceReachesRejection(c);
    SpinFrom(c, k, d, n);
  }

  /** Passes of the Go loop that reach a configuration the next pass leaves
      unchanged stay there. */
  lemma SpinFrom(c: Config, k: nat, d: Config, n: nat)
    requires Iterate(c, k) == Next(d) && SourceStep(d) == Next(d)
    ensures Iterate(c, k + n) == Next(d)
  {
    StuckAfter(SourceStep, c, k, d, n);
  }
}
