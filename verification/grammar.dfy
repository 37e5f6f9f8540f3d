/** The grammar data of main.go: the nonterminals, the simple-precedence table
    `parsing_table` and the handle table `reduce_table`. The Go tables are maps
    keyed by the symbols' names; here they are total functions over a closed
    symbol type that answer None where the Go map has no entry. */
module Grammar {
  import opened Wrappers
  import opened Lexer

  /** The nonterminals of main.go:18-28; `_Block` and `_Expression` are
      BlockTail and ExpressionTail. */
  datatype NonTerminal =
    | Program | Block | BlockTail | Operator | Variable
    | Expression | ExpressionTail | Factor | Primary

  /** A grammar symbol: a token type (T) or a nonterminal (N). Both stacks of the
      parser hold symbols. */
  datatype Symbol = T(kind: TokenKind) | N(nt: NonTerminal)

  /** The runes of parsing_table: '<' Yields, '=' SameLevel, '>' Takes, and the
      '#' that marks the finish entry (Program, EOF). */
  datatype Relation = Yields | SameLevel | Takes | Finish

  /** How far a symbol is from the start symbol along the reductions of
      reduce_table: every reduction yields a symbol of higher rank than the handle's
      last symbol. Token types have rank 0. */
  function Rank(x: Symbol): nat {
    match x
    case T(_) => 0
    case N(Primary) => 1
    case N(Variable) => 1
    case N(Factor) => 2
    case N(ExpressionTail) => 3
    case N(Expression) => 4
    case N(Operator) => 5
    case N(BlockTail) => 6
    case N(Block) => 7
    case N(Program) => 8
  }

  /** reduce_table (main.go:144-186): the nonterminal that the handle ending in
      `top` reduces to when `next` follows it. */
  function Reduction(next: Symbol, top: Symbol): (r: Option<NonTerminal>)
    // keyed by the token type after the handle
    ensures r.Some? ==> next.T?
    // a reduction always climbs towards the start symbol
    ensures r.Some? ==> Rank(N(r.value)) > Rank(top)
    // the start symbol is produced only in front of the EOF
    ensures r == Some(Program) ==> next == T(EOF) && top == T(RightCurlyBracket)
  {
    match next
    case T(LeftCurlyBracket) =>
      if top == T(Identifier) then Some(Variable) else None
    case T(RightCurlyBracket) =>
      (match top
      case T(Identifier) => Some(Primary)
      case N(BlockTail) => Some(Block)
      case N(Operator) => Some(BlockTail)
      case N(Expression) => Some(Operator)
      case N(ExpressionTail) => Some(Expression)
      case N(Factor) => Some(ExpressionTail)
      case T(Number) => Some(Primary)
      case N(Primary) => Some(Factor)
      case T(RightCurlyBracket) => Some(Operator)
      case _ => None)
    case T(Semicolon) =>
      (match top
      case T(Identifier) => Some(Primary)
      case N(Operator) => Some(BlockTail)
      case N(Expression) => Some(Operator)
      case N(ExpressionTail) => Some(Expression)
      case N(Factor) => Some(ExpressionTail)
      case T(Number) => Some(Primary)
      case N(Primary) => Some(Factor)
      case T(RightCurlyBracket) => Some(Operator)
      case _ => None)
    case T(Assign) =>
      if top == T(Identifier) then Some(Variable) else None
    case T(Hash) =>
      (match top
      case T(Identifier) => Some(Primary)
      case N(Factor) => Some(ExpressionTail)
      case T(Number) => Some(Primary)
      case N(Primary) => Some(Factor)
      case _ => None)
    case T(Ampersand) =>
      (match top
      case T(Identifier) => Some(Primary)
      case T(Number) => Some(Primary)
      case N(Primary) => Some(Factor)
      case _ => None)
    case T(EOF) =>
      if top == T(RightCurlyBracket) then Some(Program) else None
    case _ => None
  }

  /** parsing_table (main.go:31-142): the relation between the symbol on top of
      the work stack and the next symbol of the input. */
  function Precedence(top: Symbol, next: Symbol): (r: Option<Relation>)
    // every '>' has a token type in the lookahead column, and a handle to reduce
    ensures r == Some(Takes) ==> next.T? && Reduction(next, top).Some?
    // the finish entry is exactly the accepting pair
    ensures r == Some(Finish) <==> top == N(Program) && next == T(EOF)
    // the EOF is never shifted
    ensures next == T(EOF) ==> r != Some(Yields) && r != Some(SameLevel)
    // on the EOF sentinel only '<' is defined
    ensures top == T(EOF) ==> r.None? || r == Some(Yields)
    // the start symbol can only be shifted onto the EOF sentinel
    ensures next == N(Program) && r.Some? ==> top == T(EOF)
    // the zero-value token type has no relation with anything
    ensures next == T(Untyped) ==> r.None?
  {
    match top
    case N(Program) =>
      if next == T(EOF) then Some(Finish) else None
    case T(Identifier) =>
      (match next
      case T(LeftCurlyBracket) | T(RightCurlyBracket) | T(Semicolon) | T(Assign) | T(Hash) | T(Ampersand) =>
        Some(Takes)
      case _ => None)
    case N(Block) =>
      if next == T(RightCurlyBracket) then Some(SameLevel) else None
    case N(BlockTail) =>
      (match next
      case T(RightCurlyBracket) => Some(Takes)
      case T(Semicolon) => Some(SameLevel)
      case _ => None)
    case N(Operator) =>
      (match next
      case T(RightCurlyBracket) | T(Semicolon) => Some(Takes)
      case _ => None)
    case N(Variable) =>
      (match next
      case T(LeftCurlyBracket) | T(Assign) => Some(SameLevel)
      case _ => None)
    case N(Expression) =>
      (match next
      case T(RightCurlyBracket) | T(Semicolon) => Some(Takes)
      case _ => None)
    case N(ExpressionTail) =>
      (match next
      case T(RightCurlyBracket) | T(Semicolon) => Some(Takes)
      case T(Hash) => Some(SameLevel)
      case _ => None)
    case N(Factor) =>
      (match next
      case T(RightCurlyBracket) | T(Semicolon) | T(Hash) => Some(Takes)
      case T(Ampersand) => Some(SameLevel)
      case _ => None)
    case T(Number) =>
      (match next
      case T(RightCurlyBracket) | T(Semicolon) | T(Hash) | T(Ampersand) => Some(Takes)
      case _ => None)
    case N(Primary) =>
      (match next
      case T(RightCurlyBracket) | T(Semicolon) | T(Hash) | T(Ampersand) => Some(Takes)
      case _ => None)
    case T(LeftCurlyBracket) =>
      (match next
      case T(Identifier) | N(BlockTail) | N(Operator) | N(Variable) | T(While) => Some(Yields)
      case N(Block) => Some(SameLevel)
      case _ => None)
    case T(RightCurlyBracket) =>
      (match next
      case T(RightCurlyBracket) | T(Semicolon) | T(EOF) => Some(Takes)
      case _ => None)
    case T(While) =>
      (match next
      case T(Identifier) => Some(Yields)
      case N(Variable) => Some(SameLevel)
      case _ => None)
    case T(Semicolon) =>
      (match next
      case T(Identifier) | N(Variable) | T(While) => Some(Yields)
      case N(Block) | N(BlockTail) | N(Operator) => Some(SameLevel)
      case _ => None)
    case T(Assign) =>
      (match next
      case T(Identifier) | N(ExpressionTail) | N(Factor) | T(Number) | N(Primary) | T(Not) => Some(Yields)
      case N(Expression) => Some(SameLevel)
      case _ => None)
    case T(Not) =>
      (match next
      case T(Identifier) | T(Number) | N(Primary) => Some(Yields)
      case N(Factor) => Some(SameLevel)
      case _ => None)
    case T(Hash) =>
      (match next
      case T(Identifier) | T(Number) | N(Primary) => Some(Yields)
      case N(Expression) | N(ExpressionTail) | N(Factor) => Some(SameLevel)
      case _ => None)
    case T(Ampersand) =>
      (match next
      case T(Identifier) | T(Number) => Some(Yields)
      case N(Primary) => Some(SameLevel)
      case _ => None)
    case T(EOF) =>
      (match next
      case N(Program) | T(LeftCurlyBracket) => Some(Yields)
      case _ => None)
    case _ => None
  }
}
