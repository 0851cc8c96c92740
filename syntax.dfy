/**
 * The grammar the parser implements, as functions over the token list and
 * a position in it: one function per grammar rule, returning the tree the
 * rule builds and the position after it, or the ParseError it raises.  The
 * class `Parsing.Parser` runs the same rules with a cursor field and is
 * proved to agree with these functions.  Every rule that succeeds returns
 * a tree whose grouping agrees with the operator precedence table `Level`.
 */
module Syntax {
  import opened Wrappers
  import opened Tokens
  import opened Ast

  /** A parse error: the reason and the position of the offending token. */
  datatype ParseError = ParseError(reason: string, line: int, column: int)

  /* ---------- Precedence ---------- */

  /** The binding strength of a binary operator; 0 for a token that is not one. */
  function BinaryLevel(t: TokenType): (k: nat)
    ensures k <= 6
  {
    match t
    case BANG_EQUAL => 3
    case EQUAL_EQUAL => 3
    case GREATER => 4
    case GREATER_EQUAL => 4
    case LESS => 4
    case LESS_EQUAL => 4
    case MINUS => 5
    case PLUS => 5
    case SLASH => 6
    case STAR => 6
    case MODULO => 6
    case _ => 0
  }

  /** The binding strength of a logical operator; 0 for a token that is not one. */
  function LogicalLevel(t: TokenType): (k: nat)
    ensures k <= 2
  {
    match t
    case OR => 1
    case AND => 2
    case _ => 0
  }

  /**
   * The grammar level an expression was produced at, from loosest to
   * tightest: assignment 0, or 1, and 2, equality 3, comparison 4,
   * term 5, factor 6, typeof 7, unary 8, call 9, primary 10.
   */
  function Level(e: Expr): nat
  {
    match e
    case Assign(_, _) => 0
    case Set(_, _, _) => 0
    case Logical(_, op, _) => LogicalLevel(op.tokenType)
    case Binary(_, op, _) => BinaryLevel(op.tokenType)
    case Typeof(_) => 7
    case Unary(_, _) => 8
    case Call(_, _, _) => 9
    case Get(_, _) => 9
    case _ => 10
  }

  /**
   * A tree whose grouping respects precedence and associativity: a binary
   * or logical node at level k has a left operand at level k or tighter
   * and a right operand strictly tighter (left associativity); unary
   * operators apply to unary-level operands; calls, property reads and
   * writes apply to call-level receivers; parameter and argument lists
   * hold at most 255 entries.  The value of an assignment may itself be
   * an assignment (right associativity), or the binary node that a
   * compound assignment desugars to.
   */
  predicate WellGrouped(e: Expr)
    decreases e
  {
    match e
    case Assign(name, v) =>
      WellGrouped(v)
      || (v.Binary? && v.left == Variable(name) && BinaryLevel(v.operator.tokenType) >= 5 && WellGrouped(v.right))
    case Set(receiver, _, v) => Level(receiver) >= 9 && WellGrouped(receiver) && WellGrouped(v)
    case Logical(l, op, r) =>
      var k := LogicalLevel(op.tokenType);
      k > 0 && Level(l) >= k && Level(r) > k && WellGrouped(l) && WellGrouped(r)
    case Binary(l, op, r) =>
      var k := BinaryLevel(op.tokenType);
      k > 0 && Level(l) >= k && Level(r) > k && WellGrouped(l) && WellGrouped(r)
    case Typeof(x) => Level(x) >= 8 && WellGrouped(x)
    case Unary(op, x) => (op.tokenType == BANG || op.tokenType == MINUS) && Level(x) >= 8 && WellGrouped(x)
    case Call(callee, _, args) =>
      Level(callee) >= 9 && WellGrouped(callee) && |args| <= 255
      && forall i :: 0 <= i < |args| ==> WellGrouped(args[i])
    case Get(receiver, _) => Level(receiver) >= 9 && WellGrouped(receiver)
    case Grouping(x) => WellGrouped(x)
    case Array(elements) => forall i :: 0 <= i < |elements| ==> WellGrouped(elements[i])
    case Function(f) => FunctionWellGrouped(f)
    case _ => true
  }

  predicate FunctionWellGrouped(f: FunctionNode)
    decreases f
  {
    |f.parameters| <= 255 && forall i :: 0 <= i < |f.body| ==> StmtWellGrouped(f.body[i])
  }

  predicate StmtWellGrouped(s: Stmt)
    decreases s
  {
    match s
    case Expression(e) => WellGrouped(e)
    case Var(_, init) => init.None? || WellGrouped(init.value)
    case Block(ss) => forall i :: 0 <= i < |ss| ==> StmtWellGrouped(ss[i])
    case If(c, t, e) => WellGrouped(c) && StmtWellGrouped(t) && (e.None? || StmtWellGrouped(e.value))
    case While(c, b) => WellGrouped(c) && StmtWellGrouped(b)
    case Return(_, v) => v.None? || WellGrouped(v.value)
    case FunctionDecl(_, f) => FunctionWellGrouped(f)
    case Class(_, _, ms) => forall i :: 0 <= i < |ms| ==> MethodWellGrouped(ms[i])
  }

  predicate MethodWellGrouped(m: Method)
    decreases m
  {
    FunctionWellGrouped(m.declaration)
  }

  /** A binary node over operands of the right levels is well grouped, at its operator's level. */
  function JoinBinary(l: Expr, op: Token, r: Expr, k: nat): (e: Expr)
    requires BinaryLevel(op.tokenType) == k > 0 && Level(l) >= k && Level(r) > k
    requires WellGrouped(l) && WellGrouped(r)
    ensures e == Binary(l, op, r) && WellGrouped(e) && Level(e) == k
  {
    Binary(l, op, r)
  }

  /** A logical node over operands of the right levels is well grouped, at its operator's level. */
  function JoinLogical(l: Expr, op: Token, r: Expr, k: nat): (e: Expr)
    requires LogicalLevel(op.tokenType) == k > 0 && Level(l) >= k && Level(r) > k
    requires WellGrouped(l) && WellGrouped(r)
    ensures e == Logical(l, op, r) && WellGrouped(e) && Level(e) == k
  {
    Logical(l, op, r)
  }

  /** A call of a call-level callee with at most 255 well grouped arguments is well grouped. */
  function JoinCall(callee: Expr, paren: Token, arguments: seq<Expr>): (e: Expr)
    requires Level(callee) >= 9 && WellGrouped(callee) && |arguments| <= 255
    requires ExprsWellGrouped(arguments)
    ensures e == Call(callee, paren, arguments) && WellGrouped(e) && Level(e) == 9
  {
    Call(callee, paren, arguments)
  }

  /** typeof over a unary-level operand is well grouped, at the typeof level. */
  function JoinTypeof(x: Expr): (e: Expr)
    requires Level(x) >= 8 && WellGrouped(x)
    ensures e == Typeof(x) && WellGrouped(e) && Level(e) == 7
  {
    Typeof(x)
  }

  /** `!` or `-` over a unary-level operand is well grouped, at the unary level. */
  function JoinUnary(op: Token, x: Expr): (e: Expr)
    requires op.tokenType == BANG || op.tokenType == MINUS
    requires Level(x) >= 8 && WellGrouped(x)
    ensures e == Unary(op, x) && WellGrouped(e) && Level(e) == 8
  {
    Unary(op, x)
  }

  /** An array literal of well grouped items is well grouped, at the primary level. */
  function JoinArray(items: seq<Expr>): (e: Expr)
    requires ExprsWellGrouped(items)
    ensures e == Array(items) && WellGrouped(e) && Level(e) == 10
  {
    Array(items)
  }

  /** An anonymous function with a well grouped body is well grouped, at the primary level. */
  function JoinFunction(f: FunctionNode): (e: Expr)
    requires FunctionWellGrouped(f)
    ensures e == Function(f) && WellGrouped(e) && Level(e) == 10
  {
    Function(f)
  }

  /** A property read of a call-level receiver is well grouped, at the call level. */
  function JoinGet(receiver: Expr, name: Token): (e: Expr)
    requires Level(receiver) >= 9 && WellGrouped(receiver)
    ensures e == Get(receiver, name) && WellGrouped(e) && Level(e) == 9
  {
    Get(receiver, name)
  }

  predicate AllWellGrouped(ss: seq<Stmt>)
  {
    forall i :: 0 <= i < |ss| ==> StmtWellGrouped(ss[i])
  }

  predicate ExprsWellGrouped(es: seq<Expr>)
  {
    forall i :: 0 <= i < |es| ==> WellGrouped(es[i])
  }

  predicate MethodsWellGrouped(ms: seq<Method>)
  {
    forall i :: 0 <= i < |ms| ==> MethodWellGrouped(ms[i])
  }

  lemma AppendMethodWellGrouped(ms: seq<Method>, m: Method)
    requires MethodsWellGrouped(ms) && MethodWellGrouped(m)
    ensures MethodsWellGrouped(ms + [m])
  {
  }

  /** Every token of a parameter list is a name. */
  predicate Identifiers(ps: seq<Token>)
  {
    forall i :: 0 <= i < |ps| ==> ps[i].tokenType == IDENTIFIER
  }

  /* ---------- Desugarings ---------- */

  /** The operator tokens that start an assignment. */
  predicate IsAssignOperator(t: TokenType)
  {
    t == EQUAL || t == PLUS_EQUAL || t == MINUS_EQUAL || t == SLASH_EQUAL || t == STAR_EQUAL || t == MODULO_EQUAL
  }

  /** The arithmetic operator a compound assignment stands for; EQUAL for a plain one. */
  function CompoundOperator(t: TokenType): (r: TokenType)
    ensures r == EQUAL <==> !(t in {PLUS_EQUAL, MINUS_EQUAL, SLASH_EQUAL, STAR_EQUAL, MODULO_EQUAL})
    ensures r != EQUAL ==> BinaryLevel(r) >= 5
  {
    match t
    case PLUS_EQUAL => PLUS
    case MINUS_EQUAL => MINUS
    case SLASH_EQUAL => SLASH
    case STAR_EQUAL => STAR
    case MODULO_EQUAL => MODULO
    case _ => EQUAL
  }

  /**
   * The node an assignment `target operator value` builds.  A variable
   * target gives an Assign, whose value for a compound operator is the
   * binary node `target op value` carrying the operator's position; a
   * property target gives a Set and drops the operator; any other target
   * is an error at the operator.
   */
  function AssignTo(target: Expr, operator: Token, value: Expr): (r: Result<Expr, ParseError>)
    ensures r.Ok? <==> target.Variable? || target.Get?
    ensures r.Err? ==> r.error == ParseError("Invalid assignment target.", operator.line, operator.column)
    ensures target.Get? ==> r == Ok(Set(target.receiver, target.name, value))
    ensures target.Variable? ==> r.Ok? && r.value.Assign? && r.value.name == target.name
    ensures target.Variable? && CompoundOperator(operator.tokenType) == EQUAL ==> r.value.value == value
    ensures target.Variable? && CompoundOperator(operator.tokenType) != EQUAL ==>
              var b := r.value.value;
              b.Binary? && b.left == target && b.right == value
              && b.operator.tokenType == CompoundOperator(operator.tokenType)
              && b.operator.line == operator.line && b.operator.column == operator.column
              && b.operator.lexeme == operator.lexeme
    ensures r.Ok? && WellGrouped(target) && WellGrouped(value) ==> WellGrouped(r.value) && Level(r.value) == 0
  {
    match target
    case Variable(name) =>
      var t := CompoundOperator(operator.tokenType);
      if t == EQUAL then Ok(Assign(name, value))
      else Ok(Assign(name, Binary(target, Token(t, operator.line, operator.column, operator.lexeme), value)))
    case Get(receiver, name) => Ok(Set(receiver, name, value))
    case _ => Err(ParseError("Invalid assignment target.", operator.line, operator.column))
  }

  /** The condition a `for` loop without one runs on. */
  const AlwaysTrue: Expr := Literal(TRUE, LBool(true))

  /**
   * `for (init; cond; incr) body` as a while loop: the body followed by the
   * increment when there is one, guarded by the condition or by true, and
   * preceded by the initializer when there is one.
   */
  function DesugarFor(init: Option<Stmt>, cond: Option<Expr>, incr: Option<Expr>, body: Stmt): (r: Stmt)
    ensures init.Some? <==> r.Block?
    ensures init.Some? ==> |r.statements| == 2 && r.statements[0] == init.value
    ensures var loop := if init.Some? then r.statements[1] else r;
            loop.While?
            && loop.condition == (if cond.Some? then cond.value else AlwaysTrue)
            && loop.body == (if incr.Some? then Block([body, Expression(incr.value)]) else body)
    ensures (init.None? || StmtWellGrouped(init.value)) && (cond.None? || WellGrouped(cond.value))
            && (incr.None? || WellGrouped(incr.value)) && StmtWellGrouped(body)
            ==> StmtWellGrouped(r)
  {
    var inner := if incr.Some? then Block([body, Expression(incr.value)]) else body;
    var loop := While(if cond.Some? then cond.value else AlwaysTrue, inner);
    assert StmtWellGrouped(body) && (incr.None? || WellGrouped(incr.value)) ==> StmtWellGrouped(inner) by {
      if incr.Some? {
        var pair := [body, Expression(incr.value)];
        assert pair[0] == body && pair[1] == Expression(incr.value);
      }
    }
    if init.Some? then
      var pair := [init.value, loop];
      assert pair[0] == init.value && pair[1] == loop;
      Block(pair)
    else loop
  }

  /* ---------- The parser ---------- */

  /** The token types of the two logical levels. */
  const OrOperators: seq<TokenType> := [OR]
  const AndOperators: seq<TokenType> := [AND]
  /** The token types of each left-associative binary level. */
  const EqualityOperators: seq<TokenType> := [BANG_EQUAL, EQUAL_EQUAL]
  const ComparisonOperators: seq<TokenType> := [GREATER, GREATER_EQUAL, LESS, LESS_EQUAL]
  const TermOperators: seq<TokenType> := [MINUS, PLUS]
  const FactorOperators: seq<TokenType> := [SLASH, STAR, MODULO]
  /** The token types a primary expression can start with. */
  const PrimaryStarts: set<TokenType> :=
    {FALSE, TRUE, NIL, NUMBER, STRING, SUPER, THIS, IDENTIFIER, LEFT_PAREN, LEFT_BRACKET, FUN}
  /** The primary expressions made of their one token. */
  const AtomStarts: set<TokenType> := {FALSE, TRUE, NIL, NUMBER, STRING, THIS, IDENTIFIER}

  /** The expression a one-token primary stands for: a literal, `this` or a variable. */
  function Atom(token: Token): (e: Expr)
    requires token.tokenType in AtomStarts
    ensures WellGrouped(e) && Level(e) == 10
    ensures e.Literal? <==> token.tokenType in {FALSE, TRUE, NIL, NUMBER, STRING}
  {
    match token.tokenType
    case FALSE => Literal(FALSE, LBool(false))
    case TRUE => Literal(TRUE, LBool(true))
    case NIL => Literal(NIL, LNull)
    case NUMBER => Literal(NUMBER, LText(token.lexeme))
    case STRING => Literal(STRING, LText(token.lexeme))
    case THIS => This(token)
    case IDENTIFIER => Variable(token)
  }

  lemma OperatorLevels(t: TokenType)
    ensures t in EqualityOperators ==> BinaryLevel(t) == 3
    ensures t in ComparisonOperators ==> BinaryLevel(t) == 4
    ensures t in TermOperators ==> BinaryLevel(t) == 5
    ensures t in FactorOperators ==> BinaryLevel(t) == 6
    ensures t in OrOperators ==> LogicalLevel(t) == 1
    ensures t in AndOperators ==> LogicalLevel(t) == 2
  {
  }

  /** Messages of the class and call rules. */
  const ExpectClassName := "Expect class name."
  const ExpectSuperclassName := "Expect superclass name."
  const ExpectClassBody := "Expect '{' before class body."
  const ExpectClassEnd := "Expect '}' after body class.'"
  const ExpectArgumentsEnd := "Expect ')' after arguments."
  const ExpectPropertyName := "Expect property name after '.'."

  const AssignOperators: seq<TokenType> := [EQUAL, PLUS_EQUAL, MINUS_EQUAL, SLASH_EQUAL, STAR_EQUAL, MODULO_EQUAL]
  const ExpectParameterName := "Expect parameter name."
  const TooManyParameters := "Can't have more than 255 parameters."
  const TooManyArguments := "Can't have more than 255 arguments."
  const ExpressionExpected := "Expression expected."
  /** Messages of the statement and expression rules. */
  const ExpectVariableName := "Expect variable name."
  const ExpectVariableEnd := "Expect ';' after variable declaration."
  const ExpectIfOpen := "Expect '(' after 'if''."
  const ExpectIfClose := "Expect ')' after if condition."
  const ExpectReturnEnd := "Expect ';' after return value."
  const ExpectBlockEnd := "Expect '}' after block."
  const ExpectExpressionEnd := "Expect ';' after expression."
  const ExpectWhileOpen := "Expect '(' after while."
  const ExpectWhileClose := "Expect ')' after condition."
  const ExpectForOpen := "Expect '(' after for."
  const ExpectConditionEnd := "Expect ';' after loop condition."
  const ExpectForClose := "Expect ')' after for clauses."
  const ExpectArrayEnd := "Expect ']' after array items."
  const ExpectSuperDot := "Expect '.' after 'super'."
  const ExpectSuperMethod := "Expect superclass method name."
  const ExpectGroupingEnd := "Expect ')' after expression."

  /** What the function rules call the function they parse, in their messages. */
  const FunctionKind := "function"
  const MethodKind := "method"
  const AnonymousKind := "anonymous function"

  /** Messages of the function rules, which name the kind of function. */
  function ExpectName(kind: string): string { "Expect " + kind + " name." }
  function ExpectParametersOpen(kind: string): string { "Expect '(' after " + kind + " name'" }
  function ExpectParametersClose(kind: string): string { "Expect ')' after " + kind + " parameters." }
  function ExpectBodyOpen(kind: string): string { "Expect '{' before " + kind + " body." }
  const CommaOperator: seq<TokenType> := [COMMA]

  /* ---------- Positions in a token list ---------- */

  /** A token list as the scanner hands it over: it ends with EOF. */
  predicate Input(ts: seq<Token>) {
    |ts| > 0 && ts[|ts| - 1].tokenType == EOF
  }

  /** A position on a token of such a list. */
  predicate At(ts: seq<Token>, pos: nat) {
    Input(ts) && pos < |ts|
  }

  /** What a rule gives back: the tree it built and the position after it. */
  datatype Parsed<T> = Parsed(value: T, next: nat)

  type Parse<T> = Result<Parsed<T>, ParseError>

  /** A rule's outcome as a cursor method reports it: its result and where the cursor stopped. */
  function Outcome<T>(r: Result<T, ParseError>, next: nat): Parse<T> {
    match r
    case Ok(v) => Ok(Parsed(v, next))
    case Err(e) => Err(e)
  }

  /** A successful rule consumed at least one token and stopped on a token. */
  predicate Consumes<T>(ts: seq<Token>, pos: nat, r: Parse<T>) {
    r.Ok? ==> pos < r.value.next < |ts|
  }

  /** A successful rule stopped on a token at or after where it started. */
  predicate Stays<T>(ts: seq<Token>, pos: nat, r: Parse<T>) {
    r.Ok? ==> pos <= r.value.next < |ts|
  }

  predicate AtEnd(ts: seq<Token>, pos: nat)
    requires At(ts, pos)
  {
    ts[pos].tokenType == EOF
  }

  /** check: the token at pos has type t, and is not EOF. */
  predicate Sees(ts: seq<Token>, pos: nat, t: TokenType)
    requires At(ts, pos)
  {
    !AtEnd(ts, pos) && ts[pos].tokenType == t
  }

  /** match: the token at pos is not EOF and has one of the types. */
  predicate SeesAny(ts: seq<Token>, pos: nat, types: seq<TokenType>)
    requires At(ts, pos)
  {
    !AtEnd(ts, pos) && ts[pos].tokenType in types
  }

  /** checkNext: the token after pos exists, is not EOF and has type t, and the one at pos is not EOF. */
  predicate SeesNext(ts: seq<Token>, pos: nat, t: TokenType)
    requires At(ts, pos)
  {
    !AtEnd(ts, pos) && pos + 1 < |ts| && ts[pos + 1].tokenType != EOF && ts[pos + 1].tokenType == t
  }

  /** The error a rule raises at the token at pos. */
  function ErrorAt(ts: seq<Token>, pos: nat, reason: string): ParseError
    requires At(ts, pos)
  {
    ParseError(reason, ts[pos].line, ts[pos].column)
  }

  /** consume: the token at pos when it has type t, otherwise the error at it. */
  function Expect(ts: seq<Token>, pos: nat, t: TokenType, reason: string): (r: Parse<Token>)
    requires At(ts, pos)
    ensures r.Ok? <==> Sees(ts, pos, t)
    ensures r.Ok? ==> r.value == Parsed(ts[pos], pos + 1) && pos + 1 < |ts|
    ensures r.Err? ==> r.error == ErrorAt(ts, pos, reason)
  {
    if Sees(ts, pos, t) then Ok(Parsed(ts[pos], pos + 1)) else Err(ErrorAt(ts, pos, reason))
  }

  /* ---------- Declarations and statements ---------- */

  /** The declarations from pos up to EOF, after those already in acc. */
  function ProgramRest(ts: seq<Token>, pos: nat, acc: seq<Stmt>): (r: Parse<seq<Stmt>>)
    requires At(ts, pos) && AllWellGrouped(acc)
    ensures Stays(ts, pos, r)
    ensures r.Ok? ==> AtEnd(ts, r.value.next) && AllWellGrouped(r.value.value)
    ensures r.Ok? ==> |acc| <= |r.value.value|
    decreases |ts| - pos, 40
  {
    if AtEnd(ts, pos) then Ok(Parsed(acc, pos))
    else
      var d :- DeclarationAt(ts, pos);
      AppendWellGrouped(acc, d.value);
      ProgramRest(ts, d.next, acc + [d.value])
  }

  lemma AppendWellGrouped(ss: seq<Stmt>, s: Stmt)
    requires AllWellGrouped(ss) && StmtWellGrouped(s)
    ensures AllWellGrouped(ss + [s])
  {
  }

  function DeclarationAt(ts: seq<Token>, pos: nat): (r: Parse<Stmt>)
    requires At(ts, pos)
    ensures Consumes(ts, pos, r) && (r.Ok? ==> StmtWellGrouped(r.value.value))
    decreases |ts| - pos, 35
  {
    if SeesAny(ts, pos, [NEW_CLASS]) then ClassDeclarationAt(ts, pos + 1)
    else if Sees(ts, pos, FUN) && SeesNext(ts, pos, IDENTIFIER) then
      var m :- FunctionDeclarationAt(ts, pos + 1, FunctionKind);
      Ok(Parsed(FunctionDecl(m.value.name, m.value.declaration), m.next))
    else if SeesAny(ts, pos, [VAR]) then VariableDeclarationAt(ts, pos + 1)
    else StatementAt(ts, pos)
  }

  /** After `class`: the name, an optional `< superclass`, then the body in braces. */
  function ClassDeclarationAt(ts: seq<Token>, pos: nat): (r: Parse<Stmt>)
    requires At(ts, pos)
    ensures Consumes(ts, pos, r) && (r.Ok? ==> StmtWellGrouped(r.value.value))
    decreases |ts| - pos, 30
  {
    var name :- Expect(ts, pos, IDENTIFIER, ExpectClassName);
    var parent :- SuperclassAt(ts, name.next);
    var open :- Expect(ts, parent.next, LEFT_BRACE, ExpectClassBody);
    var methods :- ClassBodyRest(ts, open.next, []);
    Ok(Parsed(Class(name.value, parent.value, methods.value), methods.next))
  }

  /** `< name` when the token at pos is `<`; nothing otherwise. */
  function SuperclassAt(ts: seq<Token>, pos: nat): (r: Parse<Option<Token>>)
    requires At(ts, pos)
    ensures Stays(ts, pos, r)
    ensures r.Ok? && r.value.value.Some? ==> r.value.value.value.tokenType == IDENTIFIER
    ensures r.Ok? ==> (r.value.value.None? <==> !SeesAny(ts, pos, [LESS]))
  {
    if SeesAny(ts, pos, [LESS]) then
      var parent :- Expect(ts, pos + 1, IDENTIFIER, ExpectSuperclassName);
      Ok(Parsed(Some(parent.value), parent.next))
    else Ok(Parsed(None, pos))
  }

  /** The methods of a class body from pos, after those in acc, and the closing brace. */
  function ClassBodyRest(ts: seq<Token>, pos: nat, acc: seq<Method>): (r: Parse<seq<Method>>)
    requires At(ts, pos) && MethodsWellGrouped(acc)
    ensures Consumes(ts, pos, r)
    ensures r.Ok? ==> MethodsWellGrouped(r.value.value)
    decreases |ts| - pos, 3
  {
    if !Sees(ts, pos, RIGHT_BRACE) && !AtEnd(ts, pos) then
      var m :- FunctionDeclarationAt(ts, pos, MethodKind);
      AppendMethodWellGrouped(acc, m.value);
      ClassBodyRest(ts, m.next, acc + [m.value])
    else
      var close :- Expect(ts, pos, RIGHT_BRACE, ExpectClassEnd);
      Ok(Parsed(acc, close.next))
  }

  /** A named function or method: its name token, then its parameters and body. */
  function FunctionDeclarationAt(ts: seq<Token>, pos: nat, kind: string): (r: Parse<Method>)
    requires At(ts, pos)
    ensures Consumes(ts, pos, r) && (r.Ok? ==> MethodWellGrouped(r.value.value))
    ensures r.Ok? ==> r.value.value.name == ts[pos] && ts[pos].tokenType == IDENTIFIER
    decreases |ts| - pos, 2
  {
    var name :- Expect(ts, pos, IDENTIFIER, ExpectName(kind));
    var f :- FunctionBodyAt(ts, name.next, kind);
    Ok(Parsed(Method(name.value, f.value), f.next))
  }

  /** `(` parameters `)` `{` body `}`. */
  function FunctionBodyAt(ts: seq<Token>, pos: nat, kind: string): (r: Parse<FunctionNode>)
    requires At(ts, pos)
    ensures Consumes(ts, pos, r) && (r.Ok? ==> FunctionWellGrouped(r.value.value))
    ensures r.Ok? ==> Identifiers(r.value.value.parameters)
    decreases |ts| - pos, 1
  {
    var open :- Expect(ts, pos, LEFT_PAREN, ExpectParametersOpen(kind));
    var parameters :- ParametersAt(ts, open.next);
    var close :- Expect(ts, parameters.next, RIGHT_PAREN, ExpectParametersClose(kind));
    var brace :- Expect(ts, close.next, LEFT_BRACE, ExpectBodyOpen(kind));
    var body :- BlockRest(ts, brace.next, []);
    Ok(Parsed(FunctionNode(parameters.value, body.value), body.next))
  }

  /** The parameter names after `(`: none when `)` follows, otherwise a comma-separated list. */
  function ParametersAt(ts: seq<Token>, pos: nat): (r: Parse<seq<Token>>)
    requires At(ts, pos)
    ensures Stays(ts, pos, r)
    ensures r.Ok? ==> |r.value.value| <= 255
    ensures r.Ok? ==> Identifiers(r.value.value)
  {
    if Sees(ts, pos, RIGHT_PAREN) then Ok(Parsed([], pos)) else ParametersRest(ts, pos, [])
  }

  /**
   * The parameters from pos after those in acc: with 255 already read, the
   * error at the token where a 256th would start.
   */
  function ParametersRest(ts: seq<Token>, pos: nat, acc: seq<Token>): (r: Parse<seq<Token>>)
    requires At(ts, pos) && |acc| <= 255
    requires Identifiers(acc)
    ensures Consumes(ts, pos, r)
    ensures r.Ok? ==> |acc| < |r.value.value| <= 255
    ensures r.Ok? ==> Identifiers(r.value.value)
    decreases |ts| - pos
  {
    if |acc| >= 255 then Err(ErrorAt(ts, pos, TooManyParameters))
    else
      var p :- Expect(ts, pos, IDENTIFIER, ExpectParameterName);
      var acc' := acc + [p.value];
      if SeesAny(ts, p.next, CommaOperator) then ParametersRest(ts, p.next + 1, acc')
      else Ok(Parsed(acc', p.next))
  }

  /** After `var`: the name, an optional `= initializer`, then `;`. */
  function VariableDeclarationAt(ts: seq<Token>, pos: nat): (r: Parse<Stmt>)
    requires At(ts, pos)
    ensures Consumes(ts, pos, r) && (r.Ok? ==> StmtWellGrouped(r.value.value))
    ensures r.Ok? ==> r.value.value.Var? && r.value.value.name == ts[pos]
    decreases |ts| - pos, 26
  {
    var name :- Expect(ts, pos, IDENTIFIER, ExpectVariableName);
    var initializer :- InitializerAt(ts, name.next);
    var semicolon :- Expect(ts, initializer.next, SEMICOLON, ExpectVariableEnd);
    Ok(Parsed(Var(name.value, initializer.value), semicolon.next))
  }

  /** `= expression` when the token at pos is `=`; nothing otherwise. */
  function InitializerAt(ts: seq<Token>, pos: nat): (r: Parse<Option<Expr>>)
    requires At(ts, pos)
    ensures Stays(ts, pos, r)
    ensures r.Ok? ==> (r.value.value.None? <==> !SeesAny(ts, pos, [EQUAL]))
    ensures r.Ok? && r.value.value.Some? ==> WellGrouped(r.value.value.value)
    decreases |ts| - pos, 25
  {
    if SeesAny(ts, pos, [EQUAL]) then
      var e :- ExpressionAt(ts, pos + 1);
      Ok(Parsed(Some(e.value), e.next))
    else Ok(Parsed(None, pos))
  }

  function StatementAt(ts: seq<Token>, pos: nat): (r: Parse<Stmt>)
    requires At(ts, pos)
    ensures Consumes(ts, pos, r) && (r.Ok? ==> StmtWellGrouped(r.value.value))
    decreases |ts| - pos, 30
  {
    if SeesAny(ts, pos, [FOR]) then ForAt(ts, pos + 1)
    else if SeesAny(ts, pos, [IF]) then IfAt(ts, pos + 1)
    else if SeesAny(ts, pos, [RETURN]) then ReturnAt(ts, pos + 1)
    else if SeesAny(ts, pos, [WHILE]) then WhileAt(ts, pos + 1)
    else if SeesAny(ts, pos, [LEFT_BRACE]) then
      var body :- BlockRest(ts, pos + 1, []);
      Ok(Parsed(Block(body.value), body.next))
    else ExpressionStatementAt(ts, pos)
  }

  /** After `if`: `(` condition `)`, the then-branch, and an else-branch after `else`. */
  function IfAt(ts: seq<Token>, pos: nat): (r: Parse<Stmt>)
    requires At(ts, pos)
    ensures Consumes(ts, pos, r) && (r.Ok? ==> StmtWellGrouped(r.value.value))
    decreases |ts| - pos, 29
  {
    var open :- Expect(ts, pos, LEFT_PAREN, ExpectIfOpen);
    var condition :- ExpressionAt(ts, open.next);
    var close :- Expect(ts, condition.next, RIGHT_PAREN, ExpectIfClose);
    BranchesAt(ts, close.next, condition.value)
  }

  /** After `if (condition)`: the then-statement and the optional else-statement. */
  function BranchesAt(ts: seq<Token>, pos: nat, condition: Expr): (r: Parse<Stmt>)
    requires At(ts, pos) && WellGrouped(condition)
    ensures Consumes(ts, pos, r) && (r.Ok? ==> StmtWellGrouped(r.value.value))
    ensures r.Ok? ==> r.value.value.If? && r.value.value.condition == condition
    decreases |ts| - pos, 31
  {
    var thenBranch :- StatementAt(ts, pos);
    var elseBranch :- ElseAt(ts, thenBranch.next);
    Ok(Parsed(If(condition, thenBranch.value, elseBranch.value), elseBranch.next))
  }

  /** `else statement` when the token at pos is `else`; nothing otherwise. */
  function ElseAt(ts: seq<Token>, pos: nat): (r: Parse<Option<Stmt>>)
    requires At(ts, pos)
    ensures Stays(ts, pos, r)
    ensures r.Ok? ==> (r.value.value.None? <==> !SeesAny(ts, pos, [ELSE]))
    ensures r.Ok? && r.value.value.Some? ==> StmtWellGrouped(r.value.value.value)
    decreases |ts| - pos, 29
  {
    if SeesAny(ts, pos, [ELSE]) then
      var e :- StatementAt(ts, pos + 1);
      Ok(Parsed(Some(e.value), e.next))
    else Ok(Parsed(None, pos))
  }

  /** After `return` (the token before pos): a value unless `;` follows, then `;`. */
  function ReturnAt(ts: seq<Token>, pos: nat): (r: Parse<Stmt>)
    requires At(ts, pos) && pos > 0
    ensures Consumes(ts, pos, r) && (r.Ok? ==> StmtWellGrouped(r.value.value))
    ensures r.Ok? ==> r.value.value.Return? && r.value.value.keyword == ts[pos - 1]
    ensures r.Ok? ==> (r.value.value.value.None? <==> Sees(ts, pos, SEMICOLON))
    decreases |ts| - pos, 27
  {
    var value :- ExpressionUnlessAt(ts, pos, SEMICOLON);
    var semicolon :- Expect(ts, value.next, SEMICOLON, ExpectReturnEnd);
    Ok(Parsed(Return(ts[pos - 1], value.value), semicolon.next))
  }

  /** The declarations from pos after those in acc, up to and including the closing brace. */
  function BlockRest(ts: seq<Token>, pos: nat, acc: seq<Stmt>): (r: Parse<seq<Stmt>>)
    requires At(ts, pos) && AllWellGrouped(acc)
    ensures Consumes(ts, pos, r) && (r.Ok? ==> AllWellGrouped(r.value.value))
    ensures r.Ok? ==> |acc| <= |r.value.value|
    ensures r.Ok? ==> ts[r.value.next - 1].tokenType == RIGHT_BRACE
    decreases |ts| - pos, 38
  {
    if !Sees(ts, pos, RIGHT_BRACE) && !AtEnd(ts, pos) then
      var d :- DeclarationAt(ts, pos);
      AppendWellGrouped(acc, d.value);
      BlockRest(ts, d.next, acc + [d.value])
    else
      var close :- Expect(ts, pos, RIGHT_BRACE, ExpectBlockEnd);
      Ok(Parsed(acc, close.next))
  }

  function ExpressionStatementAt(ts: seq<Token>, pos: nat): (r: Parse<Stmt>)
    requires At(ts, pos)
    ensures Consumes(ts, pos, r) && (r.Ok? ==> StmtWellGrouped(r.value.value))
    ensures r.Ok? ==> r.value.value.Expression?
    decreases |ts| - pos, 25
  {
    var e :- ExpressionAt(ts, pos);
    var semicolon :- Expect(ts, e.next, SEMICOLON, ExpectExpressionEnd);
    Ok(Parsed(Stmt.Expression(e.value), semicolon.next))
  }

  /** After `while`: `(` condition `)` and the body. */
  function WhileAt(ts: seq<Token>, pos: nat): (r: Parse<Stmt>)
    requires At(ts, pos)
    ensures Consumes(ts, pos, r) && (r.Ok? ==> StmtWellGrouped(r.value.value))
    ensures r.Ok? ==> r.value.value.While?
    decreases |ts| - pos, 29
  {
    var open :- Expect(ts, pos, LEFT_PAREN, ExpectWhileOpen);
    var condition :- ExpressionAt(ts, open.next);
    var close :- Expect(ts, condition.next, RIGHT_PAREN, ExpectWhileClose);
    WhileBodyAt(ts, close.next, condition.value)
  }

  /** After `while (condition)`: the body statement. */
  function WhileBodyAt(ts: seq<Token>, pos: nat, condition: Expr): (r: Parse<Stmt>)
    requires At(ts, pos) && WellGrouped(condition)
    ensures Consumes(ts, pos, r) && (r.Ok? ==> StmtWellGrouped(r.value.value))
    ensures r.Ok? ==> r.value.value.While? && r.value.value.condition == condition
    decreases |ts| - pos, 31
  {
    var body :- StatementAt(ts, pos);
    Ok(Parsed(While(condition, body.value), body.next))
  }

  /** After `for`: the three clauses in parentheses and the body, assembled by DesugarFor. */
  function ForAt(ts: seq<Token>, pos: nat): (r: Parse<Stmt>)
    requires At(ts, pos)
    ensures Consumes(ts, pos, r) && (r.Ok? ==> StmtWellGrouped(r.value.value))
    decreases |ts| - pos, 29
  {
    var open :- Expect(ts, pos, LEFT_PAREN, ExpectForOpen);
    var clauses :- ForClausesAt(ts, open.next);
    ForBodyAt(ts, clauses.next, clauses.value)
  }

  /** The initializer, condition and increment of a `for` loop, each well grouped when present. */
  predicate ClausesWellGrouped(clauses: (Option<Stmt>, Option<Expr>, Option<Expr>))
  {
    (clauses.0.None? || StmtWellGrouped(clauses.0.value))
    && (clauses.1.None? || WellGrouped(clauses.1.value))
    && (clauses.2.None? || WellGrouped(clauses.2.value))
  }

  /** After the clauses of a `for` loop: the body, assembled with them by DesugarFor. */
  function ForBodyAt(ts: seq<Token>, pos: nat, clauses: (Option<Stmt>, Option<Expr>, Option<Expr>)): (r: Parse<Stmt>)
    requires At(ts, pos) && ClausesWellGrouped(clauses)
    ensures Consumes(ts, pos, r) && (r.Ok? ==> StmtWellGrouped(r.value.value))
    decreases |ts| - pos, 31
  {
    var body :- StatementAt(ts, pos);
    Ok(Parsed(DesugarFor(clauses.0, clauses.1, clauses.2, body.value), body.next))
  }

  /** The three clauses of a `for` loop and the closing parenthesis after them. */
  function ForClausesAt(ts: seq<Token>, pos: nat): (r: Parse<(Option<Stmt>, Option<Expr>, Option<Expr>)>)
    requires At(ts, pos)
    ensures Consumes(ts, pos, r)
    ensures r.Ok? ==> ClausesWellGrouped(r.value.value)
    decreases |ts| - pos, 28
  {
    var initializer :- ForInitializerAt(ts, pos);
    var condition :- ExpressionUnlessAt(ts, initializer.next, SEMICOLON);
    var semicolon :- Expect(ts, condition.next, SEMICOLON, ExpectConditionEnd);
    var increment :- ExpressionUnlessAt(ts, semicolon.next, RIGHT_PAREN);
    var close :- Expect(ts, increment.next, RIGHT_PAREN, ExpectForClose);
    Ok(Parsed((initializer.value, condition.value, increment.value), close.next))
  }

  /** A `for` initializer: nothing after a bare `;`, a variable declaration after `var`, or an expression statement. */
  function ForInitializerAt(ts: seq<Token>, pos: nat): (r: Parse<Option<Stmt>>)
    requires At(ts, pos)
    ensures Consumes(ts, pos, r)
    ensures r.Ok? ==> (r.value.value.None? <==> SeesAny(ts, pos, [SEMICOLON]))
    ensures r.Ok? && SeesAny(ts, pos, [VAR]) ==> r.value.value.Some? && r.value.value.value.Var?
    ensures r.Ok? && !SeesAny(ts, pos, [SEMICOLON, VAR]) ==> r.value.value.Some? && r.value.value.value.Expression?
    ensures r.Ok? && r.value.value.Some? ==> StmtWellGrouped(r.value.value.value)
    decreases |ts| - pos, 26
  {
    if SeesAny(ts, pos, [SEMICOLON]) then Ok(Parsed(None, pos + 1))
    else if SeesAny(ts, pos, [VAR]) then
      var s :- VariableDeclarationAt(ts, pos + 1);
      Ok(Parsed(Some(s.value), s.next))
    else
      var s :- ExpressionStatementAt(ts, pos);
      Ok(Parsed(Some(s.value), s.next))
  }

  /** An expression, unless the token at pos has type t, in which case nothing is consumed. */
  function ExpressionUnlessAt(ts: seq<Token>, pos: nat, t: TokenType): (r: Parse<Option<Expr>>)
    requires At(ts, pos)
    ensures Stays(ts, pos, r)
    ensures r.Ok? ==> (r.value.value.None? <==> Sees(ts, pos, t))
    ensures r.Ok? && r.value.value.None? ==> r.value.next == pos
    ensures r.Ok? && r.value.value.Some? ==> WellGrouped(r.value.value.value)
    decreases |ts| - pos, 21
  {
    if Sees(ts, pos, t) then Ok(Parsed(None, pos))
    else
      var e :- ExpressionAt(ts, pos);
      Ok(Parsed(Some(e.value), e.next))
  }

  /* ---------- Expressions ---------- */

  function ExpressionAt(ts: seq<Token>, pos: nat): (r: Parse<Expr>)
    requires At(ts, pos)
    ensures Consumes(ts, pos, r) && (r.Ok? ==> WellGrouped(r.value.value))
    decreases |ts| - pos, 20
  {
    AssignmentAt(ts, pos)
  }

  /** An or-level expression, and when an assignment operator follows, the assignment AssignTo builds. */
  function AssignmentAt(ts: seq<Token>, pos: nat): (r: Parse<Expr>)
    requires At(ts, pos)
    ensures Consumes(ts, pos, r) && (r.Ok? ==> WellGrouped(r.value.value))
    decreases |ts| - pos, 19
  {
    var target :- OrAt(ts, pos);
    AssignmentRest(ts, target.value, target.next)
  }

  /** After the or-level target: when an assignment operator is at pos, the assignment AssignTo builds; otherwise the target. */
  function AssignmentRest(ts: seq<Token>, target: Expr, pos: nat): (r: Parse<Expr>)
    requires At(ts, pos) && WellGrouped(target)
    ensures Stays(ts, pos, r) && (r.Ok? ==> WellGrouped(r.value.value))
    ensures !SeesAny(ts, pos, AssignOperators) ==> r == Ok(Parsed(target, pos))
    decreases |ts| - pos, 18
  {
    if SeesAny(ts, pos, AssignOperators) then
      var value :- AssignmentAt(ts, pos + 1);
      var e :- AssignTo(target, ts[pos], value.value);
      Ok(Parsed(e, value.next))
    else Ok(Parsed(target, pos))
  }

  /** The or level: an and-level operand, then each `or` operator with its right operand, grouped to the left. */
  function OrAt(ts: seq<Token>, pos: nat): (r: Parse<Expr>)
    requires At(ts, pos)
    ensures Consumes(ts, pos, r) && (r.Ok? ==> WellGrouped(r.value.value) && Level(r.value.value) >= 1)
    decreases |ts| - pos, 18
  {
    var left :- AndAt(ts, pos);
    OrRest(ts, left.value, left.next)
  }

  /** The rest of the or level after the operand left: while one of its operators is at pos, join the next operand. */
  function OrRest(ts: seq<Token>, left: Expr, pos: nat): (r: Parse<Expr>)
    requires At(ts, pos) && WellGrouped(left) && Level(left) >= 1
    ensures Stays(ts, pos, r) && (r.Ok? ==> WellGrouped(r.value.value) && Level(r.value.value) >= 1)
    ensures !SeesAny(ts, pos, OrOperators) ==> r == Ok(Parsed(left, pos))
    decreases |ts| - pos, 18
  {
    if SeesAny(ts, pos, OrOperators) then
      OperatorLevels(ts[pos].tokenType);
      var right :- AndAt(ts, pos + 1);
      OrRest(ts, JoinLogical(left, ts[pos], right.value, 1), right.next)
    else Ok(Parsed(left, pos))
  }

  /** The and level: an equality-level operand, then each `and` operator with its right operand, grouped to the left. */
  function AndAt(ts: seq<Token>, pos: nat): (r: Parse<Expr>)
    requires At(ts, pos)
    ensures Consumes(ts, pos, r) && (r.Ok? ==> WellGrouped(r.value.value) && Level(r.value.value) >= 2)
    decreases |ts| - pos, 17
  {
    var left :- EqualityAt(ts, pos);
    AndRest(ts, left.value, left.next)
  }

  /** The rest of the and level after the operand left: while one of its operators is at pos, join the next operand. */
  function AndRest(ts: seq<Token>, left: Expr, pos: nat): (r: Parse<Expr>)
    requires At(ts, pos) && WellGrouped(left) && Level(left) >= 2
    ensures Stays(ts, pos, r) && (r.Ok? ==> WellGrouped(r.value.value) && Level(r.value.value) >= 2)
    ensures !SeesAny(ts, pos, AndOperators) ==> r == Ok(Parsed(left, pos))
    decreases |ts| - pos, 17
  {
    if SeesAny(ts, pos, AndOperators) then
      OperatorLevels(ts[pos].tokenType);
      var right :- EqualityAt(ts, pos + 1);
      AndRest(ts, JoinLogical(left, ts[pos], right.value, 2), right.next)
    else Ok(Parsed(left, pos))
  }

  /** The equality level: a comparison-level operand, then each `equality` operator with its right operand, grouped to the left. */
  function EqualityAt(ts: seq<Token>, pos: nat): (r: Parse<Expr>)
    requires At(ts, pos)
    ensures Consumes(ts, pos, r) && (r.Ok? ==> WellGrouped(r.value.value) && Level(r.value.value) >= 3)
    decreases |ts| - pos, 16
  {
    var left :- ComparisonAt(ts, pos);
    EqualityRest(ts, left.value, left.next)
  }

  /** The rest of the equality level after the operand left: while one of its operators is at pos, join the next operand. */
  function EqualityRest(ts: seq<Token>, left: Expr, pos: nat): (r: Parse<Expr>)
    requires At(ts, pos) && WellGrouped(left) && Level(left) >= 3
    ensures Stays(ts, pos, r) && (r.Ok? ==> WellGrouped(r.value.value) && Level(r.value.value) >= 3)
    ensures !SeesAny(ts, pos, EqualityOperators) ==> r == Ok(Parsed(left, pos))
    decreases |ts| - pos, 16
  {
    if SeesAny(ts, pos, EqualityOperators) then
      OperatorLevels(ts[pos].tokenType);
      var right :- ComparisonAt(ts, pos + 1);
      EqualityRest(ts, JoinBinary(left, ts[pos], right.value, 3), right.next)
    else Ok(Parsed(left, pos))
  }

  /** The comparison level: a term-level operand, then each `comparison` operator with its right operand, grouped to the left. */
  function ComparisonAt(ts: seq<Token>, pos: nat): (r: Parse<Expr>)
    requires At(ts, pos)
    ensures Consumes(ts, pos, r) && (r.Ok? ==> WellGrouped(r.value.value) && Level(r.value.value) >= 4)
    decreases |ts| - pos, 15
  {
    var left :- TermAt(ts, pos);
    ComparisonRest(ts, left.value, left.next)
  }

  /** The rest of the comparison level after the operand left: while one of its operators is at pos, join the next operand. */
  function ComparisonRest(ts: seq<Token>, left: Expr, pos: nat): (r: Parse<Expr>)
    requires At(ts, pos) && WellGrouped(left) && Level(left) >= 4
    ensures Stays(ts, pos, r) && (r.Ok? ==> WellGrouped(r.value.value) && Level(r.value.value) >= 4)
    ensures !SeesAny(ts, pos, ComparisonOperators) ==> r == Ok(Parsed(left, pos))
    decreases |ts| - pos, 15
  {
    if SeesAny(ts, pos, ComparisonOperators) then
      OperatorLevels(ts[pos].tokenType);
      var right :- TermAt(ts, pos + 1);
      ComparisonRest(ts, JoinBinary(left, ts[pos], right.value, 4), right.next)
    else Ok(Parsed(left, pos))
  }

  /** The term level: a factor-level operand, then each `term` operator with its right operand, grouped to the left. */
  function TermAt(ts: seq<Token>, pos: nat): (r: Parse<Expr>)
    requires At(ts, pos)
    ensures Consumes(ts, pos, r) && (r.Ok? ==> WellGrouped(r.value.value) && Level(r.value.value) >= 5)
    decreases |ts| - pos, 14
  {
    var left :- FactorAt(ts, pos);
    TermRest(ts, left.value, left.next)
  }

  /** The rest of the term level after the operand left: while one of its operators is at pos, join the next operand. */
  function TermRest(ts: seq<Token>, left: Expr, pos: nat): (r: Parse<Expr>)
    requires At(ts, pos) && WellGrouped(left) && Level(left) >= 5
    ensures Stays(ts, pos, r) && (r.Ok? ==> WellGrouped(r.value.value) && Level(r.value.value) >= 5)
    ensures !SeesAny(ts, pos, TermOperators) ==> r == Ok(Parsed(left, pos))
    decreases |ts| - pos, 14
  {
    if SeesAny(ts, pos, TermOperators) then
      OperatorLevels(ts[pos].tokenType);
      var right :- FactorAt(ts, pos + 1);
      TermRest(ts, JoinBinary(left, ts[pos], right.value, 5), right.next)
    else Ok(Parsed(left, pos))
  }

  /** The factor level: a typeof-level operand, then each `factor` operator with its right operand, grouped to the left. */
  function FactorAt(ts: seq<Token>, pos: nat): (r: Parse<Expr>)
    requires At(ts, pos)
    ensures Consumes(ts, pos, r) && (r.Ok? ==> WellGrouped(r.value.value) && Level(r.value.value) >= 6)
    decreases |ts| - pos, 13
  {
    var left :- TypeofAt(ts, pos);
    FactorRest(ts, left.value, left.next)
  }

  /** The rest of the factor level after the operand left: while one of its operators is at pos, join the next operand. */
  function FactorRest(ts: seq<Token>, left: Expr, pos: nat): (r: Parse<Expr>)
    requires At(ts, pos) && WellGrouped(left) && Level(left) >= 6
    ensures Stays(ts, pos, r) && (r.Ok? ==> WellGrouped(r.value.value) && Level(r.value.value) >= 6)
    ensures !SeesAny(ts, pos, FactorOperators) ==> r == Ok(Parsed(left, pos))
    decreases |ts| - pos, 13
  {
    if SeesAny(ts, pos, FactorOperators) then
      OperatorLevels(ts[pos].tokenType);
      var right :- TypeofAt(ts, pos + 1);
      FactorRest(ts, JoinBinary(left, ts[pos], right.value, 6), right.next)
    else Ok(Parsed(left, pos))
  }

  function TypeofAt(ts: seq<Token>, pos: nat): (r: Parse<Expr>)
    requires At(ts, pos)
    ensures Consumes(ts, pos, r) && (r.Ok? ==> WellGrouped(r.value.value) && Level(r.value.value) >= 7)
    decreases |ts| - pos, 12
  {
    if SeesAny(ts, pos, [TYPEOF]) then
      var operand :- UnaryAt(ts, pos + 1);
      Ok(Parsed(JoinTypeof(operand.value), operand.next))
    else UnaryAt(ts, pos)
  }

  function UnaryAt(ts: seq<Token>, pos: nat): (r: Parse<Expr>)
    requires At(ts, pos)
    ensures Consumes(ts, pos, r) && (r.Ok? ==> WellGrouped(r.value.value) && Level(r.value.value) >= 8)
    decreases |ts| - pos, 11
  {
    if SeesAny(ts, pos, [BANG, MINUS]) then
      var operand :- UnaryAt(ts, pos + 1);
      Ok(Parsed(JoinUnary(ts[pos], operand.value), operand.next))
    else CallAt(ts, pos)
  }

  /** A primary followed by any number of argument lists and property reads, applied left to right. */
  function CallAt(ts: seq<Token>, pos: nat): (r: Parse<Expr>)
    requires At(ts, pos)
    ensures Consumes(ts, pos, r) && (r.Ok? ==> WellGrouped(r.value.value) && Level(r.value.value) >= 9)
    decreases |ts| - pos, 10
  {
    var callee :- PrimaryAt(ts, pos);
    CallRest(ts, callee.value, callee.next)
  }

  function CallRest(ts: seq<Token>, e: Expr, pos: nat): (r: Parse<Expr>)
    requires At(ts, pos) && WellGrouped(e) && Level(e) >= 9
    ensures Stays(ts, pos, r) && (r.Ok? ==> WellGrouped(r.value.value) && Level(r.value.value) >= 9)
    decreases |ts| - pos, 4
  {
    var step :- CallSuffixAt(ts, e, pos);
    match step
    case None => Ok(Parsed(e, pos))
    case Some(p) => CallRest(ts, p.value, p.next)
  }

  /**
   * One suffix of a call chain at pos: `(arguments)` gives a Call of e and
   * `.name` a Get of e; None, consuming nothing, when neither follows.
   */
  function CallSuffixAt(ts: seq<Token>, e: Expr, pos: nat): (r: Result<Option<Parsed<Expr>>, ParseError>)
    requires At(ts, pos) && WellGrouped(e) && Level(e) >= 9
    ensures r.Ok? && r.value.Some? ==> pos < r.value.value.next < |ts|
    ensures r.Ok? && r.value.Some? ==> WellGrouped(r.value.value.value) && Level(r.value.value.value) >= 9
    ensures r.Ok? && r.value.Some? ==> var x := r.value.value.value;
              (x.Call? && x.callee == e) || (x.Get? && x.receiver == e)
    ensures r.Ok? && r.value.None? <==> !SeesAny(ts, pos, [LEFT_PAREN, DOT])
    decreases |ts| - pos, 3
  {
    if SeesAny(ts, pos, [LEFT_PAREN]) then
      var arguments :- ArgumentsAt(ts, pos + 1);
      var paren :- Expect(ts, arguments.next, RIGHT_PAREN, ExpectArgumentsEnd);
      Ok(Some(Parsed(JoinCall(e, paren.value, arguments.value), paren.next)))
    else if SeesAny(ts, pos, [DOT]) then
      var name :- Expect(ts, pos + 1, IDENTIFIER, ExpectPropertyName);
      Ok(Some(Parsed(JoinGet(e, name.value), name.next)))
    else Ok(None)
  }

  /** Call arguments after `(`: none when `)` follows, otherwise a comma-separated list. */
  function ArgumentsAt(ts: seq<Token>, pos: nat): (r: Parse<seq<Expr>>)
    requires At(ts, pos)
    ensures Stays(ts, pos, r)
    ensures r.Ok? ==> |r.value.value| <= 255 && ExprsWellGrouped(r.value.value)
    decreases |ts| - pos, 23
  {
    if Sees(ts, pos, RIGHT_PAREN) then Ok(Parsed([], pos)) else ArgumentsRest(ts, pos, [])
  }

  /**
   * The arguments from pos after those in acc: with 255 already read, the
   * error at the token where a 256th would start.
   */
  function ArgumentsRest(ts: seq<Token>, pos: nat, acc: seq<Expr>): (r: Parse<seq<Expr>>)
    requires At(ts, pos) && |acc| <= 255 && ExprsWellGrouped(acc)
    ensures Consumes(ts, pos, r)
    ensures r.Ok? ==> |acc| < |r.value.value| <= 255
    ensures r.Ok? ==> ExprsWellGrouped(r.value.value)
    decreases |ts| - pos, 22
  {
    if |acc| >= 255 then Err(ErrorAt(ts, pos, TooManyArguments))
    else
      var a :- ExpressionAt(ts, pos);
      var acc' := acc + [a.value];
      if SeesAny(ts, a.next, CommaOperator) then ArgumentsRest(ts, a.next + 1, acc')
      else Ok(Parsed(acc', a.next))
  }

  /** Array items after `[`, up to and including the closing `]`. */
  function ArrayItemsAt(ts: seq<Token>, pos: nat): (r: Parse<seq<Expr>>)
    requires At(ts, pos)
    ensures Consumes(ts, pos, r)
    ensures r.Ok? ==> ExprsWellGrouped(r.value.value)
    decreases |ts| - pos, 23
  {
    var items :- if Sees(ts, pos, RIGHT_BRACKET) then Ok(Parsed([], pos)) else ItemsRest(ts, pos, []);
    var close :- Expect(ts, items.next, RIGHT_BRACKET, ExpectArrayEnd);
    Ok(Parsed(items.value, close.next))
  }

  /** The comma-separated items from pos after those in acc. */
  function ItemsRest(ts: seq<Token>, pos: nat, acc: seq<Expr>): (r: Parse<seq<Expr>>)
    requires At(ts, pos) && ExprsWellGrouped(acc)
    ensures Consumes(ts, pos, r)
    ensures r.Ok? ==> |acc| < |r.value.value|
    ensures r.Ok? ==> ExprsWellGrouped(r.value.value)
    decreases |ts| - pos, 22
  {
    var item :- ExpressionAt(ts, pos);
    var acc' := acc + [item.value];
    if SeesAny(ts, item.next, CommaOperator) then ItemsRest(ts, item.next + 1, acc')
    else Ok(Parsed(acc', item.next))
  }

  /** After `super`: a dot and the method name. */
  function SuperRestAt(ts: seq<Token>, pos: nat, keyword: Token): (r: Parse<Expr>)
    requires At(ts, pos)
    ensures Consumes(ts, pos, r)
    ensures r.Ok? ==> r.value.value == Super(keyword, ts[pos + 1]) && r.value.next == pos + 2
    ensures r.Ok? <==> Sees(ts, pos, DOT) && pos + 1 < |ts| && Sees(ts, pos + 1, IDENTIFIER)
  {
    var dot :- Expect(ts, pos, DOT, ExpectSuperDot);
    var name :- Expect(ts, dot.next, IDENTIFIER, ExpectSuperMethod);
    Ok(Parsed(Super(keyword, name.value), name.next))
  }

  /** After `(`: an expression and the closing parenthesis, kept as a grouping. */
  function GroupingRestAt(ts: seq<Token>, pos: nat): (r: Parse<Expr>)
    requires At(ts, pos)
    ensures Consumes(ts, pos, r) && (r.Ok? ==> r.value.value.Grouping? && WellGrouped(r.value.value))
    decreases |ts| - pos, 21
  {
    var e :- ExpressionAt(ts, pos);
    var close :- Expect(ts, e.next, RIGHT_PAREN, ExpectGroupingEnd);
    Ok(Parsed(Grouping(e.value), close.next))
  }

  /**
   * A primary: a one-token literal, `this` or variable; `super.name`; a
   * parenthesised expression; an array literal; an anonymous function; any
   * other token is "Expression expected." at it.
   */
  function PrimaryAt(ts: seq<Token>, pos: nat): (r: Parse<Expr>)
    requires At(ts, pos)
    ensures Consumes(ts, pos, r) && (r.Ok? ==> WellGrouped(r.value.value) && Level(r.value.value) == 10)
    ensures ts[pos].tokenType in AtomStarts ==> r == Ok(Parsed(Atom(ts[pos]), pos + 1))
    ensures !(ts[pos].tokenType in PrimaryStarts) ==> r == Err(ErrorAt(ts, pos, ExpressionExpected))
    decreases |ts| - pos, 9
  {
    var token := ts[pos];
    if AtEnd(ts, pos) || !(token.tokenType in PrimaryStarts) then Err(ErrorAt(ts, pos, ExpressionExpected))
    else if token.tokenType in AtomStarts then Ok(Parsed(Atom(token), pos + 1))
    else if token.tokenType == SUPER then SuperRestAt(ts, pos + 1, token)
    else if token.tokenType == LEFT_PAREN then GroupingRestAt(ts, pos + 1)
    else if token.tokenType == LEFT_BRACKET then
      var items :- ArrayItemsAt(ts, pos + 1);
      Ok(Parsed(JoinArray(items.value), items.next))
    else
      var f :- FunctionBodyAt(ts, pos + 1, AnonymousKind);
      Ok(Parsed(JoinFunction(f.value), f.next))
  }
}
