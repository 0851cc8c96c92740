/**
 * What the grammar rules of Syntax give for particular token lists:
 * precedence and associativity read off the tokens, the 255-entry limits
 * of parameter and argument lists, the `for(;;)` desugaring, compound
 * assignment, and how a declaration starting with `fun` is dispatched.
 */
module SyntaxLemmas {
  import opened Wrappers
  import opened Tokens
  import opened Ast
  import opened Syntax

  /** Token types that end an expression: no operator of any level, no call suffix and no assignment operator. */
  const EndTypes: set<TokenType> := {SEMICOLON, RIGHT_PAREN, RIGHT_BRACKET, RIGHT_BRACE, COMMA, EOF}

  /** The token at q continues no comparison, equality, and or or level. */
  predicate Quiet(ts: seq<Token>, q: nat)
    requires At(ts, q)
  {
    && !SeesAny(ts, q, ComparisonOperators) && !SeesAny(ts, q, EqualityOperators)
    && !SeesAny(ts, q, AndOperators) && !SeesAny(ts, q, OrOperators)
  }

  /** A token that ends expressions is no operator, no call suffix and no assignment operator. */
  lemma EndTypesEnd(t: TokenType)
    requires t in EndTypes
    ensures !(t in AssignOperators) && !(t in OrOperators) && !(t in AndOperators)
    ensures !(t in EqualityOperators) && !(t in ComparisonOperators)
    ensures !(t in TermOperators) && !(t in FactorOperators) && !(t in {LEFT_PAREN, DOT})
  {
  }

  /** The compound assignment operators are assignment operators and no operator of any level. */
  lemma CompoundTypes(t: TokenType)
    requires t in {PLUS_EQUAL, MINUS_EQUAL, STAR_EQUAL, SLASH_EQUAL, MODULO_EQUAL}
    ensures t in AssignOperators && CompoundOperator(t) != EQUAL
    ensures !(t in OrOperators) && !(t in AndOperators) && !(t in EqualityOperators) && !(t in ComparisonOperators)
    ensures !(t in TermOperators) && !(t in FactorOperators) && !(t in {LEFT_PAREN, DOT})
  {
  }

  /** A one-token primary not followed by `(` or `.` is the whole of the typeof level. */
  lemma AtomTypeof(ts: seq<Token>, p: nat)
    requires At(ts, p) && p + 1 < |ts| && ts[p].tokenType in AtomStarts
    requires !(ts[p + 1].tokenType in {LEFT_PAREN, DOT})
    ensures TypeofAt(ts, p) == Ok(Parsed(Atom(ts[p]), p + 1))
  {
    assert !SeesAny(ts, p, [TYPEOF]) && !SeesAny(ts, p, [BANG, MINUS]);
    assert PrimaryAt(ts, p) == Ok(Parsed(Atom(ts[p]), p + 1));
    assert CallSuffixAt(ts, Atom(ts[p]), p + 1) == Ok(None);
    assert CallAt(ts, p) == Ok(Parsed(Atom(ts[p]), p + 1));
    assert UnaryAt(ts, p) == CallAt(ts, p);
  }

  /** A one-token primary followed by neither a suffix nor a factor operator is the whole of the factor level. */
  lemma AtomFactor(ts: seq<Token>, p: nat)
    requires At(ts, p) && p + 1 < |ts| && ts[p].tokenType in AtomStarts
    requires !(ts[p + 1].tokenType in {LEFT_PAREN, DOT}) && !SeesAny(ts, p + 1, FactorOperators)
    ensures FactorAt(ts, p) == Ok(Parsed(Atom(ts[p]), p + 1))
  {
    AtomTypeof(ts, p);
  }

  /** A term-level expression followed by a quiet token is the whole of the or level. */
  lemma OrFromTerm(ts: seq<Token>, p: nat, e: Expr, q: nat)
    requires At(ts, p) && TermAt(ts, p) == Ok(Parsed(e, q)) && Quiet(ts, q)
    ensures OrAt(ts, p) == Ok(Parsed(e, q))
  {
    assert ComparisonAt(ts, p) == Ok(Parsed(e, q));
    assert EqualityAt(ts, p) == Ok(Parsed(e, q));
    assert AndAt(ts, p) == Ok(Parsed(e, q));
  }

  /** A term-level expression followed by a token that ends expressions is the whole expression. */
  lemma ExpressionFromTerm(ts: seq<Token>, p: nat, e: Expr, q: nat)
    requires At(ts, p) && TermAt(ts, p) == Ok(Parsed(e, q)) && ts[q].tokenType in EndTypes
    ensures ExpressionAt(ts, p) == Ok(Parsed(e, q))
  {
    EndTypesEnd(ts[q].tokenType);
    OrFromTerm(ts, p, e, q);
    assert AssignmentRest(ts, e, q) == Ok(Parsed(e, q));
  }

  /** A one-token primary followed by a token that ends expressions is a whole expression. */
  lemma AtomExpression(ts: seq<Token>, p: nat)
    requires At(ts, p) && p + 1 < |ts| && ts[p].tokenType in AtomStarts && ts[p + 1].tokenType in EndTypes
    ensures ExpressionAt(ts, p) == Ok(Parsed(Atom(ts[p]), p + 1))
  {
    EndTypesEnd(ts[p + 1].tokenType);
    AtomFactor(ts, p);
    assert TermAt(ts, p) == Ok(Parsed(Atom(ts[p]), p + 1));
    ExpressionFromTerm(ts, p, Atom(ts[p]), p + 1);
  }

  /** The five tokens from p are operand, operator, operand, operator, operand, and an ending token follows. */
  predicate FiveTokens(ts: seq<Token>, p: nat, op1: TokenType, op2: TokenType)
  {
    && Input(ts) && p + 5 < |ts|
    && ts[p].tokenType in AtomStarts && ts[p + 2].tokenType in AtomStarts && ts[p + 4].tokenType in AtomStarts
    && ts[p + 1].tokenType == op1 && ts[p + 3].tokenType == op2
    && ts[p + 5].tokenType in EndTypes
  }

  /** One turn of the factor loop: the operator at q and the typeof-level operand after it, joined onto left. */
  lemma FactorStep(ts: seq<Token>, left: Expr, q: nat, right: Expr, next: nat)
    requires At(ts, q) && WellGrouped(left) && Level(left) >= 6 && SeesAny(ts, q, FactorOperators)
    requires TypeofAt(ts, q + 1) == Ok(Parsed(right, next))
    ensures BinaryLevel(ts[q].tokenType) == 6
    ensures FactorRest(ts, left, q) == FactorRest(ts, JoinBinary(left, ts[q], right, 6), next)
  {
    OperatorLevels(ts[q].tokenType);
  }

  /** One turn of the term loop: the operator at q and the factor-level operand after it, joined onto left. */
  lemma TermStep(ts: seq<Token>, left: Expr, q: nat, right: Expr, next: nat)
    requires At(ts, q) && WellGrouped(left) && Level(left) >= 5 && SeesAny(ts, q, TermOperators)
    requires FactorAt(ts, q + 1) == Ok(Parsed(right, next))
    ensures BinaryLevel(ts[q].tokenType) == 5
    ensures TermRest(ts, left, q) == TermRest(ts, JoinBinary(left, ts[q], right, 5), next)
  {
    OperatorLevels(ts[q].tokenType);
  }

  /** `b * c` followed by a token that ends expressions is one product at the factor level. */
  lemma ProductAt(ts: seq<Token>, q: nat)
    requires Input(ts) && q + 3 < |ts|
    requires ts[q].tokenType in AtomStarts && ts[q + 1].tokenType == STAR && ts[q + 2].tokenType in AtomStarts
    requires ts[q + 3].tokenType in EndTypes
    ensures FactorAt(ts, q) == Ok(Parsed(Binary(Atom(ts[q]), ts[q + 1], Atom(ts[q + 2])), q + 3))
  {
    var b, c := Atom(ts[q]), Atom(ts[q + 2]);
    AtomTypeof(ts, q);
    EndTypesEnd(ts[q + 3].tokenType);
    AtomTypeof(ts, q + 2);
    FactorStep(ts, b, q + 1, c, q + 3);
  }

  /** `a + b * c`: the tokens parse as a sum whose right operand is the product. */
  lemma ProductBindsTighterAt(ts: seq<Token>, p: nat)
    requires FiveTokens(ts, p, PLUS, STAR)
    ensures ExpressionAt(ts, p)
         == Ok(Parsed(Binary(Atom(ts[p]), ts[p + 1], Binary(Atom(ts[p + 2]), ts[p + 3], Atom(ts[p + 4]))), p + 5))
  {
    var a := Atom(ts[p]);
    var product := Binary(Atom(ts[p + 2]), ts[p + 3], Atom(ts[p + 4]));
    AtomFactor(ts, p);
    ProductAt(ts, p + 2);
    TermStep(ts, a, p + 1, product, p + 5);
    EndTypesEnd(ts[p + 5].tokenType);
    assert TermAt(ts, p) == Ok(Parsed(Binary(a, ts[p + 1], product), p + 5));
    ExpressionFromTerm(ts, p, Binary(a, ts[p + 1], product), p + 5);
  }

  /** `a - b - c`: the tokens parse as a difference whose left operand is the first difference. */
  lemma SubtractionGroupsLeftAt(ts: seq<Token>, p: nat)
    requires FiveTokens(ts, p, MINUS, MINUS)
    ensures ExpressionAt(ts, p)
         == Ok(Parsed(Binary(Binary(Atom(ts[p]), ts[p + 1], Atom(ts[p + 2])), ts[p + 3], Atom(ts[p + 4])), p + 5))
  {
    var a, b, c := Atom(ts[p]), Atom(ts[p + 2]), Atom(ts[p + 4]);
    AtomFactor(ts, p);
    AtomFactor(ts, p + 2);
    EndTypesEnd(ts[p + 5].tokenType);
    AtomFactor(ts, p + 4);
    TermStep(ts, a, p + 1, b, p + 3);
    var first := Binary(a, ts[p + 1], b);
    TermStep(ts, first, p + 3, c, p + 5);
    assert TermAt(ts, p) == Ok(Parsed(Binary(first, ts[p + 3], c), p + 5));
    ExpressionFromTerm(ts, p, Binary(first, ts[p + 3], c), p + 5);
  }

  /** A variable followed by a compound assignment operator is the whole of the or level. */
  lemma CompoundTarget(ts: seq<Token>, p: nat)
    requires Input(ts) && p + 1 < |ts| && ts[p].tokenType == IDENTIFIER
    requires ts[p + 1].tokenType in {PLUS_EQUAL, MINUS_EQUAL, STAR_EQUAL, SLASH_EQUAL, MODULO_EQUAL}
    ensures OrAt(ts, p) == Ok(Parsed(Variable(ts[p]), p + 1))
  {
    CompoundTypes(ts[p + 1].tokenType);
    AtomFactor(ts, p);
    assert TermAt(ts, p) == Ok(Parsed(Variable(ts[p]), p + 1));
    OrFromTerm(ts, p, Variable(ts[p]), p + 1);
  }

  /** An assignment operator at q after target, and the assignment after it: the node AssignTo builds. */
  lemma AssignmentStep(ts: seq<Token>, target: Expr, q: nat, value: Expr, next: nat)
    requires At(ts, q) && WellGrouped(target) && SeesAny(ts, q, AssignOperators)
    requires AssignmentAt(ts, q + 1) == Ok(Parsed(value, next))
    requires target.Variable? || target.Get?
    ensures AssignmentRest(ts, target, q) == Ok(Parsed(AssignTo(target, ts[q], value).value, next))
  {
  }

  /** `x op= v`: a compound assignment of a one-token value parses as `x = x op v`, keeping the operator's place. */
  lemma CompoundAssignmentAt(ts: seq<Token>, p: nat)
    requires Input(ts) && p + 3 < |ts|
    requires ts[p].tokenType == IDENTIFIER && ts[p + 2].tokenType in AtomStarts && ts[p + 3].tokenType in EndTypes
    requires ts[p + 1].tokenType in {PLUS_EQUAL, MINUS_EQUAL, STAR_EQUAL, SLASH_EQUAL, MODULO_EQUAL}
    ensures var op := Token(CompoundOperator(ts[p + 1].tokenType), ts[p + 1].line, ts[p + 1].column, ts[p + 1].lexeme);
      ExpressionAt(ts, p) == Ok(Parsed(Assign(ts[p], Binary(Variable(ts[p]), op, Atom(ts[p + 2]))), p + 3))
  {
    CompoundTarget(ts, p);
    CompoundValue(ts, p);
  }

  /** After the variable of `x op= v`: the operator, the value and the node AssignTo builds from them. */
  lemma CompoundValue(ts: seq<Token>, p: nat)
    requires Input(ts) && p + 3 < |ts|
    requires ts[p].tokenType == IDENTIFIER && ts[p + 2].tokenType in AtomStarts && ts[p + 3].tokenType in EndTypes
    requires ts[p + 1].tokenType in {PLUS_EQUAL, MINUS_EQUAL, STAR_EQUAL, SLASH_EQUAL, MODULO_EQUAL}
    ensures var op := Token(CompoundOperator(ts[p + 1].tokenType), ts[p + 1].line, ts[p + 1].column, ts[p + 1].lexeme);
      AssignmentRest(ts, Variable(ts[p]), p + 1) == Ok(Parsed(Assign(ts[p], Binary(Variable(ts[p]), op, Atom(ts[p + 2]))), p + 3))
  {
    CompoundTypes(ts[p + 1].tokenType);
    AtomExpression(ts, p + 2);
    AssignmentStep(ts, Variable(ts[p]), p + 1, Atom(ts[p + 2]), p + 3);
  }

  /** `;;)`: no initializer, no condition and no increment. */
  lemma EmptyClauses(ts: seq<Token>, p: nat)
    requires Input(ts) && p + 3 < |ts|
    requires ts[p].tokenType == SEMICOLON && ts[p + 1].tokenType == SEMICOLON && ts[p + 2].tokenType == RIGHT_PAREN
    ensures ForClausesAt(ts, p) == Ok(Parsed((None, None, None), p + 3))
  {
    assert ForInitializerAt(ts, p) == Ok(Parsed(None, p + 1));
    assert ExpressionUnlessAt(ts, p + 1, SEMICOLON) == Ok(Parsed(None, p + 1));
    assert ExpressionUnlessAt(ts, p + 2, RIGHT_PAREN) == Ok(Parsed(None, p + 2));
  }

  /** `for (;;) body` parses as `while (true) body`. */
  lemma ForEverAt(ts: seq<Token>, p: nat)
    requires Input(ts) && p + 4 < |ts|
    requires ts[p].tokenType == LEFT_PAREN && ts[p + 1].tokenType == SEMICOLON
    requires ts[p + 2].tokenType == SEMICOLON && ts[p + 3].tokenType == RIGHT_PAREN
    requires StatementAt(ts, p + 4).Ok?
    ensures ForAt(ts, p) == Ok(Parsed(While(AlwaysTrue, StatementAt(ts, p + 4).value.value), StatementAt(ts, p + 4).value.next))
  {
    EmptyClauses(ts, p + 1);
    assert ForBodyAt(ts, p + 4, (None, None, None))
        == Ok(Parsed(DesugarFor(None, None, None, StatementAt(ts, p + 4).value.value), StatementAt(ts, p + 4).value.next));
  }

  /** `fun` followed by a name starts a function declaration; any other `fun` starts a statement. */
  lemma FunDispatch(ts: seq<Token>, p: nat)
    requires At(ts, p) && Sees(ts, p, FUN)
    ensures SeesNext(ts, p, IDENTIFIER) && DeclarationAt(ts, p).Ok? ==>
              DeclarationAt(ts, p).value.value.FunctionDecl? && DeclarationAt(ts, p).value.value.name == ts[p + 1]
    ensures SeesNext(ts, p, IDENTIFIER) ==> (DeclarationAt(ts, p).Ok? <==> FunctionDeclarationAt(ts, p + 1, FunctionKind).Ok?)
    ensures !SeesNext(ts, p, IDENTIFIER) ==> DeclarationAt(ts, p) == StatementAt(ts, p)
  {
  }

  /** From p, n entries whose first tokens have types in starts, each entry one token followed by a comma. */
  predicate CommaSeparated(ts: seq<Token>, p: nat, n: nat, starts: set<TokenType>)
    decreases n
  {
    p + 2 * n < |ts|
    && (n > 0 ==> ts[p].tokenType in starts && ts[p + 1].tokenType == COMMA && CommaSeparated(ts, p + 2, n - 1, starts))
  }

  lemma CommaSeparatedNext(ts: seq<Token>, p: nat, n: nat, starts: set<TokenType>)
    requires n > 0 && CommaSeparated(ts, p, n, starts)
    ensures ts[p].tokenType in starts && ts[p + 1].tokenType == COMMA && CommaSeparated(ts, p + 2, n - 1, starts)
  {
  }

  /**
   * With acc read and 255 - |acc| more parameters each followed by a
   * comma, the parameter list fails at the token where the 256th would
   * start.
   */
  lemma {:induction false} ParametersOverflow(ts: seq<Token>, p: nat, acc: seq<Token>)
    requires Input(ts) && |acc| <= 255 && Identifiers(acc)
    requires CommaSeparated(ts, p, 255 - |acc|, {IDENTIFIER})
    ensures ParametersRest(ts, p, acc) == Err(ErrorAt(ts, p + 2 * (255 - |acc|), TooManyParameters))
    decreases 255 - |acc|
  {
    if |acc| < 255 {
      var n, acc' := 255 - |acc|, acc + [ts[p]];
      CommaSeparatedNext(ts, p, n, {IDENTIFIER});
      assert 255 - |acc'| == n - 1;
      ParametersOverflow(ts, p + 2, acc');
      assert p + 2 + 2 * (n - 1) == p + 2 * n;
    }
  }

  /** 256 comma-separated names in a parameter list: the error is at the 256th. */
  lemma TooManyParametersAt(ts: seq<Token>, p: nat)
    requires Input(ts) && CommaSeparated(ts, p, 255, {IDENTIFIER})
    ensures ParametersAt(ts, p) == Err(ErrorAt(ts, p + 510, TooManyParameters))
  {
    ParametersOverflow(ts, p, []);
  }

  /** The names at p, p + 2, ..., in order. */
  function Names(ts: seq<Token>, p: nat, n: nat): (r: seq<Token>)
    requires p + 2 * n <= |ts|
    ensures |r| == n
    decreases n
  {
    if n == 0 then [] else [ts[p]] + Names(ts, p + 2, n - 1)
  }

  /**
   * With acc read, then n names each followed by a comma and a last name
   * followed by something else: as long as |acc| + n + 1 <= 255 the list
   * is accepted, and holds exactly those names.
   */
  lemma {:induction false} ParametersFit(ts: seq<Token>, p: nat, acc: seq<Token>, n: nat)
    requires Input(ts) && |acc| + n + 1 <= 255 && Identifiers(acc)
    requires CommaSeparated(ts, p, n, {IDENTIFIER})
    requires p + 2 * n + 1 < |ts| && ts[p + 2 * n].tokenType == IDENTIFIER && ts[p + 2 * n + 1].tokenType != COMMA
    ensures ParametersRest(ts, p, acc) == Ok(Parsed(acc + Names(ts, p, n + 1), p + 2 * n + 1))
    decreases n
  {
    assert ts[p].tokenType == IDENTIFIER;
    if n == 0 {
      assert Names(ts, p, 1) == [ts[p]];
    } else {
      assert p + 2 + 2 * (n - 1) == p + 2 * n;
      ParametersFit(ts, p + 2, acc + [ts[p]], n - 1);
      assert acc + [ts[p]] + Names(ts, p + 2, n) == acc + Names(ts, p, n + 1);
    }
  }

  /** Exactly 255 comma-separated names are accepted, in order. */
  lemma MostParametersAt(ts: seq<Token>, p: nat)
    requires Input(ts) && CommaSeparated(ts, p, 254, {IDENTIFIER})
    requires p + 509 < |ts| && ts[p + 508].tokenType == IDENTIFIER && ts[p + 509].tokenType == RIGHT_PAREN
    ensures ParametersAt(ts, p) == Ok(Parsed(Names(ts, p, 255), p + 509))
  {
    assert ts[p].tokenType == IDENTIFIER;
    ParametersFit(ts, p, [], 254);
    assert [] + Names(ts, p, 255) == Names(ts, p, 255);
  }

  /**
   * With acc read and 255 - |acc| more one-token arguments each followed by
   * a comma, the argument list fails at the token where the 256th would
   * start.
   */
  lemma {:induction false} ArgumentsOverflow(ts: seq<Token>, p: nat, acc: seq<Expr>)
    requires Input(ts) && |acc| <= 255 && ExprsWellGrouped(acc)
    requires CommaSeparated(ts, p, 255 - |acc|, AtomStarts)
    ensures ArgumentsRest(ts, p, acc) == Err(ErrorAt(ts, p + 2 * (255 - |acc|), TooManyArguments))
    decreases 255 - |acc|
  {
    if |acc| < 255 {
      var n, acc' := 255 - |acc|, acc + [Atom(ts[p])];
      CommaSeparatedNext(ts, p, n, AtomStarts);
      AtomExpression(ts, p);
      ArgumentsStep(ts, p, acc, Atom(ts[p]), p + 1, p + 2);
      assert 255 - |acc'| == n - 1;
      ArgumentsOverflow(ts, p + 2, acc');
      assert p + 2 + 2 * (n - 1) == p + 2 * n;
    }
  }

  /** One turn of the argument loop: the expression at p, then a comma. */
  lemma ArgumentsStep(ts: seq<Token>, p: nat, acc: seq<Expr>, a: Expr, comma: nat, after: nat)
    requires At(ts, p) && |acc| < 255 && ExprsWellGrouped(acc)
    requires ExpressionAt(ts, p) == Ok(Parsed(a, comma)) && SeesAny(ts, comma, CommaOperator) && after == comma + 1
    ensures ExprsWellGrouped(acc + [a])
    ensures ArgumentsRest(ts, p, acc) == ArgumentsRest(ts, after, acc + [a])
  {
  }

  /** 256 comma-separated one-token arguments in a call: the error is at the 256th. */
  lemma TooManyArgumentsAt(ts: seq<Token>, p: nat)
    requires Input(ts) && CommaSeparated(ts, p, 255, AtomStarts)
    ensures ArgumentsAt(ts, p) == Err(ErrorAt(ts, p + 510, TooManyArguments))
  {
    ArgumentsOverflow(ts, p, []);
  }

  /** The tokens at p, p + 2, ..., n of them, have types in starts. */
  predicate Starts(ts: seq<Token>, p: nat, n: nat, starts: set<TokenType>)
    decreases n
  {
    n == 0 || (p < |ts| && ts[p].tokenType in starts && Starts(ts, p + 2, n - 1, starts))
  }

  /** The one-token arguments at p, p + 2, ..., in order. */
  function Atoms(ts: seq<Token>, p: nat, n: nat): (r: seq<Expr>)
    requires Starts(ts, p, n, AtomStarts)
    ensures |r| == n && ExprsWellGrouped(r)
    decreases n
  {
    if n == 0 then [] else [Atom(ts[p])] + Atoms(ts, p + 2, n - 1)
  }

  lemma Associative<T>(a: seq<T>, b: seq<T>, c: seq<T>)
    ensures (a + b) + c == a + (b + c)
  {
  }

  lemma AtomsCons(ts: seq<Token>, p: nat, n: nat)
    requires p < |ts| && ts[p].tokenType in AtomStarts && Starts(ts, p + 2, n, AtomStarts)
    ensures Starts(ts, p, n + 1, AtomStarts) && Atoms(ts, p, n + 1) == [Atom(ts[p])] + Atoms(ts, p + 2, n)
  {
  }

  /** The last argument: a one-token argument followed by `)`. */
  lemma ArgumentsLast(ts: seq<Token>, p: nat, acc: seq<Expr>)
    requires Input(ts) && |acc| < 255 && ExprsWellGrouped(acc)
    requires p + 1 < |ts| && ts[p].tokenType in AtomStarts && ts[p + 1].tokenType == RIGHT_PAREN
    ensures Starts(ts, p, 1, AtomStarts) && Atoms(ts, p, 1) == [Atom(ts[p])]
    ensures ArgumentsRest(ts, p, acc) == Ok(Parsed(acc + [Atom(ts[p])], p + 1))
  {
    AtomExpression(ts, p);
    assert Starts(ts, p + 2, 0, AtomStarts);
  }

  /**
   * With acc read, then n one-token arguments each followed by a comma and
   * a last one, at last, followed by `)`: as long as |acc| + n + 1 <= 255
   * the list is accepted, and holds exactly those arguments.
   */
  lemma {:induction false} ArgumentsFit(ts: seq<Token>, p: nat, acc: seq<Expr>, n: nat, last: nat)
    requires Input(ts) && |acc| + n + 1 <= 255 && ExprsWellGrouped(acc)
    requires CommaSeparated(ts, p, n, AtomStarts) && last == p + 2 * n
    requires last + 1 < |ts| && ts[last].tokenType in AtomStarts && ts[last + 1].tokenType == RIGHT_PAREN
    ensures Starts(ts, p, n + 1, AtomStarts)
    ensures ArgumentsRest(ts, p, acc) == Ok(Parsed(acc + Atoms(ts, p, n + 1), last + 1))
    decreases n
  {
    if n == 0 {
      ArgumentsLast(ts, p, acc);
    } else {
      CommaSeparatedNext(ts, p, n, AtomStarts);
      AtomExpression(ts, p);
      ArgumentsStep(ts, p, acc, Atom(ts[p]), p + 1, p + 2);
      var acc' := acc + [Atom(ts[p])];
      ArgumentsFit(ts, p + 2, acc', n - 1, last);
      AtomsCons(ts, p, n);
      Associative(acc, [Atom(ts[p])], Atoms(ts, p + 2, n));
    }
  }

  /** Exactly 255 comma-separated one-token arguments are accepted, in order. */
  lemma MostArgumentsAt(ts: seq<Token>, p: nat)
    requires Input(ts) && CommaSeparated(ts, p, 254, AtomStarts)
    requires p + 509 < |ts| && ts[p + 508].tokenType in AtomStarts && ts[p + 509].tokenType == RIGHT_PAREN
    ensures Starts(ts, p, 255, AtomStarts)
    ensures ArgumentsAt(ts, p) == Ok(Parsed(Atoms(ts, p, 255), p + 509))
  {
    CommaSeparatedNext(ts, p, 254, AtomStarts);
    ArgumentsOpen(ts, p);
    ArgumentsFit(ts, p, [], 254, p + 508);
    EmptyPrefix(Atoms(ts, p, 255));
  }

  /** An argument list that does not start with `)` is read by ArgumentsRest. */
  lemma ArgumentsOpen(ts: seq<Token>, p: nat)
    requires At(ts, p) && ts[p].tokenType != RIGHT_PAREN
    ensures ArgumentsAt(ts, p) == ArgumentsRest(ts, p, [])
  {
  }

  lemma EmptyPrefix<T>(s: seq<T>)
    ensures [] + s == s
  {
  }
}
