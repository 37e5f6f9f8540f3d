/** Model of `algorithm` (main.go:204-238): the simple-precedence shift/reduce
    loop over a work stack of (symbol, relation) entries and the stack of
    remaining input symbols that StackOfTokens builds.

    Where the Go loop has no defined outcome the model returns an explicit
    rejection: a missing precedence entry (the Go loop spins forever), a missing
    reduction (Go pops the handle anyway), a handle search that finds no '<'
    (Go pops the sentinel and panics) and a lexical error (Go peeks at an empty
    token stack and panics). */
module Parser {
  import opened Wrappers
  import opened Stacks
  import opened Lexer
  import opened Grammar

  /** A work-stack entry: the symbol and the relation it was shifted with. The
      sentinel carries Go's rune(0), here None. */
  datatype Entry = Entry(sym: Symbol, mark: Option<Relation>)

  /** The bottom of the work stack (main.go:206). */
  const Sentinel: Entry := Entry(T(EOF), None)

  /** The state of the loop: the work stack and the stack of input symbols
      (stack_of_tokens), both with their top at the end. */
  datatype Config = Config(work: seq<Entry>, input: seq<Symbol>)

  datatype Reason =
    | LexicalError(error: LexError)
    | UnexpectedSymbol(top: Symbol, next: Symbol)
    | NoReduction(next: Symbol, top: Symbol)
    | MalformedHandle

  datatype Verdict = Accepted | Rejected(reason: Reason)

  datatype StepResult = Accept | Reject(reason: Reason) | Continue(config: Config)

  /** Both stacks are anchored: the sentinel at the bottom of the work stack, the
      EOF at the bottom of the input. */
  predicate WellFormed(c: Config) {
    && |c.work| >= 1 && c.work[0] == Sentinel
    && |c.input| >= 1 && c.input[0] == T(EOF)
  }

  /** The configuration the loop stops in when it accepts. */
  const Final: Config := Config([Sentinel, Entry(N(Program), Some(Yields))], [T(EOF)])

  /** The start of the loop (main.go:205-208): the work stack holds only the
      sentinel; the input is the token stack. */
  function Initial(tokens: seq<TokenKind>): (c: Config)
    ensures c.work == [Sentinel] && c.work[0].mark != Some(Yields)
    ensures |c.input| == |tokens| && forall k | 0 <= k < |tokens| :: c.input[k] == T(tokens[k])
  {
    Config([Sentinel], seq(|tokens|, k requires 0 <= k < |tokens| => T(tokens[k])))
  }

  /** The handle search of main.go:228-234: the index of the topmost '<'-marked
      entry above the sentinel. Popping down to and including it leaves
      work[..k]. */
  function HandleStart(work: seq<Entry>): (r: Option<nat>)
    ensures r.Some? ==>
      && 1 <= r.value < |work|
      && work[r.value].mark == Some(Yields)
      && forall j | r.value < j < |work| :: work[j].mark != Some(Yields)
    ensures r.None? ==> forall j | 1 <= j < |work| :: work[j].mark != Some(Yields)
  {
    if |work| <= 1 then None
    else if Top(work).mark == Some(Yields) then Some(|work| - 1)
    else HandleStart(Pop(work))
  }

  /** w' is what popping the handle leaves of w: at least one entry is popped, the
      last one popped is the topmost '<'-marked entry, and every entry below it is
      untouched. */
  predicate HandlePopped(w: seq<Entry>, w': seq<Entry>) {
    && 1 <= |w'| < |w|
    && w' == w[..|w'|]
    && w[|w'|].mark == Some(Yields)
    && forall j | |w'| < j < |w| :: w[j].mark != Some(Yields)
  }

  // The termination measure. A shift moves a symbol from the input to the work
  // stack and a reduction replaces the handle by a symbol of higher rank on the
  // input; weighing input symbols at twice their weight plus one and work-stack
  // symbols at twice their weight makes every step cost at least one unit.

  function Weight(x: Symbol): nat {
    9 - Rank(x)
  }

  function InputCost(input: seq<Symbol>): nat {
    if |input| == 0 then 0 else InputCost(Pop(input)) + 2 * Weight(Top(input)) + 1
  }

  function WorkCost(work: seq<Entry>): nat {
    if |work| == 0 then 0 else WorkCost(Pop(work)) + 2 * Weight(Top(work).sym)
  }

  function Measure(c: Config): nat {
    InputCost(c.input) + WorkCost(c.work)
  }

  /** Dropping entries from the top never increases the work stack's cost. */
  lemma {:induction false} WorkCostPrefix(w: seq<Entry>, k: nat)
    requires k <= |w|
    ensures WorkCost(w[..k]) <= WorkCost(w)
    decreases |w|
  {
    if k < |w| {
      assert w[..k] == Pop(w)[..k];
      WorkCostPrefix(Pop(w), k);
    } else {
      assert w[..k] == w;
    }
  }

  /** Popping a handle of w removes at least the cost of w's top entry. */
  lemma WorkCostHandle(w: seq<Entry>, k: nat)
    requires k < |w|
    ensures WorkCost(w[..k]) + 2 * Weight(Top(w).sym) <= WorkCost(w)
  {
    assert w[..k] == Pop(w)[..k];
    WorkCostPrefix(Pop(w), k);
  }

  /** One pass of the loop body (main.go:210-237). */
  function Step(c: Config): (r: StepResult)
    requires |c.work| >= 1 && |c.input| >= 1
    // acceptance exactly when Program is on top of the work stack and EOF next
    ensures r.Accept? <==> Top(c.work).sym == N(Program) && Top(c.input) == T(EOF)
    // no relation between the top and the next symbol: a syntax error
    ensures
      var top := Top(c.work).sym;
      var next := Top(c.input);
      r == Reject(UnexpectedSymbol(top, next)) <==> !r.Accept? && Precedence(top, next).None?
    // '<' or '=': the next symbol moves to the work stack, marked with the relation
    ensures
      var top := Top(c.work).sym;
      var next := Top(c.input);
      var rel := Precedence(top, next);
      !r.Accept? && (rel == Some(Yields) || rel == Some(SameLevel)) ==>
        r == Continue(Config(Push(c.work, Entry(next, rel)), Pop(c.input)))
    // '>': the reduced nonterminal becomes the next symbol, the handle is popped
    ensures
      var top := Top(c.work).sym;
      var next := Top(c.input);
      !r.Accept? && Precedence(top, next) == Some(Takes) ==>
        && (Reduction(next, top).None? <==> r == Reject(NoReduction(next, top)))
        && (r == Reject(MalformedHandle) <==>
              Reduction(next, top).Some? && forall j | 1 <= j < |c.work| :: c.work[j].mark != Some(Yields))
        && (Reduction(next, top).Some? && (exists j | 1 <= j < |c.work| :: c.work[j].mark == Some(Yields)) ==>
              && r.Continue?
              && r.config.input == Push(c.input, N(Reduction(next, top).value))
              && HandlePopped(c.work, r.config.work))
    // a step rejects only for one of the three reasons above, about the current pair
    ensures
      var top := Top(c.work).sym;
      var next := Top(c.input);
      r.Reject? ==> r.reason in {UnexpectedSymbol(top, next), NoReduction(next, top), MalformedHandle}
    ensures r.Reject? && r.reason.NoReduction? ==> Precedence(Top(c.work).sym, Top(c.input)) == Some(Takes)
    ensures r.Reject? && r.reason.MalformedHandle? ==> Precedence(Top(c.work).sym, Top(c.input)) == Some(Takes)
    // every step that goes on makes progress and keeps both stacks anchored
    ensures r.Continue? ==> Measure(r.config) < Measure(c)
    ensures r.Continue? && WellFormed(c) ==> WellFormed(r.config)
  {
    var top := Top(c.work).sym;
    var next := Top(c.input);
    if top == N(Program) && next == T(EOF) then
      Accept
    else
      match Precedence(top, next)
      case None => Reject(UnexpectedSymbol(top, next))
      case Some(Yields) => Continue(Shift(c, Yields))
      case Some(SameLevel) => Continue(Shift(c, SameLevel))
      case Some(Takes) => Reduce(c)
      case Some(Finish) => assert false; Accept
  }

  /** The shift of main.go:219-222: the next symbol moves onto the work stack,
      marked with the relation. */
  function Shift(c: Config, rel: Relation): (c': Config)
    requires |c.work| >= 1 && |c.input| >= 1
    ensures Measure(c') < Measure(c)
  {
    var c' := Config(Push(c.work, Entry(Top(c.input), Some(rel))), Pop(c.input));
    assert Pop(c'.work) == c.work;
    c'
  }

  /** The reduction of main.go:223-235: the nonterminal reduce_table gives for the
      next symbol and the top becomes the next symbol, and the handle is popped. */
  function Reduce(c: Config): (r: StepResult)
    requires |c.work| >= 1 && |c.input| >= 1
    ensures r.Continue? ==> Measure(r.config) < Measure(c)
  {
    var top := Top(c.work).sym;
    var next := Top(c.input);
    match Reduction(next, top)
    case None => Reject(NoReduction(next, top))
    case Some(n) =>
      match HandleStart(c.work)
      case None => Reject(MalformedHandle)
      case Some(k) =>
        var c' := Config(c.work[..k], Push(c.input, N(n)));
        assert Pop(c'.input) == c.input;
        WorkCostHandle(c.work, k);
        Continue(c')
  }

  /** What the loop ends with: the verdict, the number of steps that went on, and
      the configuration in which it stopped. */
  datatype Outcome = Outcome(verdict: Verdict, steps: nat, last: Config)

  /** The loop of main.go:210-237, run until it accepts or a step rejects. */
  function Run(c: Config): (o: Outcome)
    requires WellFormed(c)
    ensures WellFormed(o.last)
    // the loop stops where a step accepts or rejects, and for that reason
    ensures o.verdict.Accepted? ==> Step(o.last) == Accept
    ensures o.verdict.Rejected? ==> Step(o.last) == Reject(o.verdict.reason)
    // the number of steps is bounded by the measure of the start configuration
    ensures o.steps <= Measure(c)
    ensures o.steps == 0 <==> !Step(c).Continue?
    decreases Measure(c)
  {
    match Step(c)
    case Accept => Outcome(Accepted, 0, c)
    case Reject(why) => Outcome(Rejected(why), 0, c)
    case Continue(c') =>
      var o := Run(c');
      Outcome(o.verdict, o.steps + 1, o.last)
  }

  /** One unfolding of Run: a step that goes on adds one to the run after it; any
      other step ends the run where it stands. */
  lemma RunUnfold(c: Config)
    requires WellFormed(c)
    ensures Step(c).Continue? ==>
      var o := Run(Step(c).config);
      Run(c) == Outcome(o.verdict, o.steps + 1, o.last)
    ensures !Step(c).Continue? ==> Run(c).steps == 0 && Run(c).last == c
  {
  }

  /** What holds of every configuration the loop reaches from a token stack: the
      EOF appears only at the bottoms, Program only right above the sentinel, and
      the entry right above the sentinel is '<'-marked. */
  predicate Invariant(c: Config) {
    && WellFormed(c)
    && (forall k | 1 <= k < |c.work| :: c.work[k].sym != T(EOF))
    && (forall k | 1 <= k < |c.work| :: c.work[k].sym == N(Program) ==> k == 1)
    && (|c.work| >= 2 ==> c.work[1].mark == Some(Yields))
    && (forall k | 1 <= k < |c.input| :: c.input[k] != T(EOF))
  }

  /** From a reachable configuration a step never fails for want of a reduction or
      of a handle start, accepts only in the final configuration, and leads to a
      reachable configuration. */
  lemma StepKeepsInvariant(c: Config)
    requires Invariant(c)
    ensures Step(c) != Reject(NoReduction(Top(c.input), Top(c.work).sym))
    ensures Step(c) != Reject(MalformedHandle)
    ensures Step(c).Accept? ==> c == Final
    ensures Step(c).Continue? ==> Invariant(Step(c).config)
  {
    var top := Top(c.work).sym;
    var next := Top(c.input);
    var r := Step(c);
    if r.Accept? {
      assert |c.work| == 2;
      assert |c.input| == 1;
      assert c.work == Final.work;
    } else if Precedence(top, next) == Some(Takes) {
      assert |c.work| >= 2;
      assert c.work[1].mark == Some(Yields);
    } else if r.Continue? {
      var c' := r.config;
      assert next != T(EOF);
      assert |c.input| >= 2;
      if next == N(Program) {
        assert |c.work| == 1;
      }
    }
  }

  /** Run from a reachable configuration rejects only with UnexpectedSymbol, and
      accepts only in the final configuration. */
  lemma {:induction false} RunKeepsInvariant(c: Config)
    requires Invariant(c)
    ensures Run(c).verdict.Rejected? ==> Run(c).verdict.reason.UnexpectedSymbol?
    ensures Run(c).verdict.Accepted? ==> Run(c).last == Final
    decreases Measure(c)
  {
    StepKeepsInvariant(c);
    match Step(c)
    case Accept =>
    case Reject(_) =>
    case Continue(c') => RunKeepsInvariant(c');
  }

  /** A stack of token types costs 19 per token. */
  lemma {:induction false} InputCostOfTokens(input: seq<Symbol>)
    requires forall k | 0 <= k < |input| :: input[k].T?
    ensures InputCost(input) == 19 * |input|
    decreases |input|
  {
    if |input| > 0 {
      InputCostOfTokens(Pop(input));
    }
  }

  /** The start configuration built from a token stack: its measure is linear in
      the number of tokens, and it is reachable when the EOF is only at the bottom. */
  lemma InitialFacts(stack: seq<TokenKind>)
    requires |stack| >= 1 && stack[0] == EOF
    ensures Measure(Initial(stack)) == 19 * |stack| + 18
    ensures (forall k | 1 <= k < |stack| :: stack[k] != EOF) ==> Invariant(Initial(stack))
  {
    var c := Initial(stack);
    InputCostOfTokens(c.input);
    assert WorkCost(c.work) == 18 by {
      assert Pop(c.work) == [];
    }
  }

  /** algorithm (main.go:204-238) once StackOfTokens has succeeded: the loop run
      from the sentinel and the token stack. */
  function Parse(stack: seq<TokenKind>): (o: Outcome)
    requires |stack| >= 1 && stack[0] == EOF
    // the loop ends within a number of steps linear in the number of tokens
    ensures o.steps <= 19 * |stack| + 18
    // on a stack StackOfTokens can build, only a syntax error can reject, and
    // acceptance leaves exactly Program over the sentinel and the EOF
    ensures (forall k | 1 <= k < |stack| :: stack[k] != EOF) ==>
      && (o.verdict.Rejected? ==> o.verdict.reason.UnexpectedSymbol?)
      && (o.verdict.Accepted? ==> o.last == Final)
  {
    InitialFacts(stack);
    if forall k | 1 <= k < |stack| :: stack[k] != EOF then
      RunKeepsInvariant(Initial(stack));
      Run(Initial(stack))
    else
      Run(Initial(stack))
  }

  /** algorithm (main.go:204-238): tokenize, then run the loop. */
  function Algorithm(text: seq<byte>): (v: Verdict)
    // a lexical error is reported as such, with its offset and byte
    ensures StackOfTokens(text).Failure? <==> v.Rejected? && v.reason.LexicalError?
    ensures StackOfTokens(text).Failure? ==> v == Rejected(LexicalError(StackOfTokens(text).error))
    // otherwise only a missing precedence relation can reject
    ensures v.Rejected? ==> v.reason.LexicalError? || v.reason.UnexpectedSymbol?
    // an input without `$` is never accepted
    ensures (forall m | 0 <= m < |text| :: text[m] != DOLLAR) ==> v.Rejected?
  {
    match StackOfTokens(text)
    case Failure(e) => Rejected(LexicalError(e))
    case Success(stack) => Parse(stack).verdict
  }
}
