/**
 * The recursive-descent parser: a cursor over the scanned tokens and one
 * method per grammar rule.  Each method is proved to return what the
 * matching rule function of `Syntax` returns from the position the cursor
 * started at, and to leave the cursor where that function stops.
 */
module Parsing {
  import opened Wrappers
  import opened Tokens
  import opened Ast
  import opened Syntax

  class Parser {
    const tokens: seq<Token>
    var current: nat

    /** The cursor is on a token, and the token list ends with EOF. */
    ghost predicate Valid()
      reads this
    {
      At(tokens, current)
    }

    constructor (input: seq<Token>)
      ensures tokens == input && current == 0
    {
      tokens := input;
      current := 0;
    }

    /**
     * Parses declarations until the cursor reaches an EOF token.  The cursor
     * is not reset, so a parser is meant for a single token list.
     */
    method Parse() returns (r: Result<seq<Stmt>, ParseError>)
      requires Valid()
      modifies this`current
      ensures Valid() && Outcome(r, current) == ProgramRest(tokens, old(current), [])
    {
      ghost var goal := ProgramRest(tokens, current, []);
      var statements: seq<Stmt> := [];
      while !IsAtEnd()
        invariant Valid() && AllWellGrouped(statements)
        invariant ProgramRest(tokens, current, statements) == goal
        decreases |tokens| - current
      {
        var s :- Declaration();
        AppendWellGrouped(statements, s);
        statements := statements + [s];
      }
      return Ok(statements);
    }

    function IsAtEnd(): (r: bool)
      requires Valid()
      reads this
      ensures r <==> AtEnd(tokens, current)
    {
      tokens[current].tokenType == EOF
    }

    /** Whether the current token has type t; never at EOF. */
    function Check(t: TokenType): (r: bool)
      requires Valid()
      reads this
      ensures r ==> current + 1 < |tokens|
      ensures r <==> Sees(tokens, current, t)
    {
      if IsAtEnd() then false else tokens[current].tokenType == t
    }

    /** Whether the token after the current one has type t; never when either is EOF or missing. */
    function CheckNext(t: TokenType): (r: bool)
      requires Valid()
      reads this
      ensures r <==> SeesNext(tokens, current, t)
    {
      if IsAtEnd() || current + 1 >= |tokens| then false
      else if tokens[current + 1].tokenType == EOF then false
      else tokens[current + 1].tokenType == t
    }

    /** Moves past the current token unless it is EOF, and returns the token before the cursor. */
    method Advance() returns (token: Token)
      requires Valid() && (!IsAtEnd() || current > 0)
      modifies this`current
      ensures Valid()
      ensures current == if old(IsAtEnd()) then old(current) else old(current) + 1
      ensures current > 0 && token == tokens[current - 1]
    {
      if !IsAtEnd() {
        current := current + 1;
      }
      token := tokens[current - 1];
    }

    /** Advances over the current token when its type is one of types. */
    method Match(types: seq<TokenType>) returns (r: bool)
      requires Valid()
      modifies this`current
      ensures Valid()
      ensures r == old(SeesAny(tokens, current, types))
      ensures r ==> current == old(current) + 1
      ensures !r ==> current == old(current) && !SeesAny(tokens, current, types)
    {
      var i := 0;
      while i < |types|
        invariant 0 <= i <= |types|
        invariant !(tokens[current].tokenType in types[..i]) || IsAtEnd()
      {
        if Check(types[i]) {
          var _ := Advance();
          return true;
        }
        i := i + 1;
      }
      assert types[..i] == types;
      return false;
    }

    /** Advances over a token of type t, or fails at the current token without moving. */
    method Consume(t: TokenType, reason: string) returns (r: Result<Token, ParseError>)
      requires Valid()
      modifies this`current
      ensures Valid()
      ensures Outcome(r, current) == Expect(tokens, old(current), t, reason)
    {
      if Check(t) {
        var token := Advance();
        return Ok(token);
      }
      return Err(ErrorAt(tokens, current, reason));
    }

    /* ----- Declarations and statements ----- */

    method Declaration() returns (r: Result<Stmt, ParseError>)
      requires Valid()
      modifies this`current
      ensures Valid() && Outcome(r, current) == DeclarationAt(tokens, old(current))
      decreases |tokens| - current, 60
    {
      var isClass := Match([NEW_CLASS]);
      if isClass {
        r := ClassDeclaration();
        return;
      }
      if Check(FUN) && CheckNext(IDENTIFIER) {
        var _ := Advance();
        var m :- FunctionDeclaration(FunctionKind);
        return Ok(FunctionDecl(m.name, m.declaration));
      }
      var isVar := Match([VAR]);
      if isVar {
        r := VariableDeclaration();
        return;
      }
      r := Statement();
    }

    method ClassDeclaration() returns (r: Result<Stmt, ParseError>)
      requires Valid()
      modifies this`current
      ensures Valid() && Outcome(r, current) == ClassDeclarationAt(tokens, old(current))
      decreases |tokens| - current, 58
    {
      var name :- Consume(IDENTIFIER, ExpectClassName);
      var superclass: Option<Token> := None;
      var inherits := Match([LESS]);
      if inherits {
        var parent :- Consume(IDENTIFIER, ExpectSuperclassName);
        superclass := Some(parent);
      }
      var open :- Consume(LEFT_BRACE, ExpectClassBody);
      var methods :- ClassBody();
      return Ok(Class(name, superclass, methods));
    }

    /** The methods of a class body up to its closing brace. */
    method ClassBody() returns (r: Result<seq<Method>, ParseError>)
      requires Valid()
      modifies this`current
      ensures Valid() && Outcome(r, current) == ClassBodyRest(tokens, old(current), [])
      decreases |tokens| - current, 58
    {
      var methods: seq<Method> := [];
      ghost var goal := ClassBodyRest(tokens, current, []);
      while !Check(RIGHT_BRACE) && !IsAtEnd()
        invariant Valid() && MethodsWellGrouped(methods)
        invariant ClassBodyRest(tokens, current, methods) == goal
        decreases |tokens| - current
      {
        var m :- FunctionDeclaration(MethodKind);
        AppendMethodWellGrouped(methods, m);
        methods := methods + [m];
      }
      var close :- Consume(RIGHT_BRACE, ExpectClassEnd);
      return Ok(methods);
    }

    /** A named function or method: its name, then its parameter list and body. */
    method FunctionDeclaration(kind: string) returns (r: Result<Method, ParseError>)
      requires Valid()
      modifies this`current
      ensures Valid() && Outcome(r, current) == FunctionDeclarationAt(tokens, old(current), kind)
      decreases |tokens| - current, 56
    {
      var name :- Consume(IDENTIFIER, ExpectName(kind));
      var f :- FunctionBody(kind);
      return Ok(Method(name, f));
    }

    /** A parameter list of at most 255 names, then a block body. */
    method FunctionBody(kind: string) returns (r: Result<FunctionNode, ParseError>)
      requires Valid()
      modifies this`current
      ensures Valid() && Outcome(r, current) == FunctionBodyAt(tokens, old(current), kind)
      decreases |tokens| - current, 54
    {
      var open :- Consume(LEFT_PAREN, ExpectParametersOpen(kind));
      var parameters :- Parameters();
      var close :- Consume(RIGHT_PAREN, ExpectParametersClose(kind));
      var brace :- Consume(LEFT_BRACE, ExpectBodyOpen(kind));
      var body :- BlockStatement();
      return Ok(FunctionNode(parameters, body));
    }

    /** Parameter names after the opening parenthesis: at most 255, comma-separated; the closing parenthesis is left. */
    method Parameters() returns (r: Result<seq<Token>, ParseError>)
      requires Valid()
      modifies this`current
      ensures Valid() && Outcome(r, current) == ParametersAt(tokens, old(current))
    {
      var parameters: seq<Token> := [];
      if !Check(RIGHT_PAREN) {
        ghost var goal := ParametersRest(tokens, current, []);
        while true
          invariant Valid() && |parameters| <= 255 && Identifiers(parameters)
          invariant ParametersRest(tokens, current, parameters) == goal
          decreases |tokens| - current
        {
          if |parameters| >= 255 {
            return Err(ErrorAt(tokens, current, TooManyParameters));
          }
          var more;
          parameters, more :- NextParameter(parameters);
          if !more {
            return Ok(parameters);
          }
        }
      }
      return Ok(parameters);
    }

    /** One turn of the parameter loop: a name appended to parameters, then whether a comma follows it. */
    method NextParameter(parameters: seq<Token>) returns (r: Result<seq<Token>, ParseError>, more: bool)
      requires Valid() && |parameters| < 255 && Identifiers(parameters)
      modifies this`current
      ensures Valid()
      ensures r.Err? ==> ParametersRest(tokens, old(current), parameters) == Err(r.error)
      ensures r.Ok? ==> current > old(current) && |r.value| <= 255 && Identifiers(r.value)
      ensures r.Ok? && more ==> ParametersRest(tokens, current, r.value) == ParametersRest(tokens, old(current), parameters)
      ensures r.Ok? && !more ==> ParametersRest(tokens, old(current), parameters) == Ok(Parsed(r.value, current))
    {
      more := false;
      var p :- Consume(IDENTIFIER, ExpectParameterName);
      more := Match(CommaOperator);
      return Ok(parameters + [p]), more;
    }

    method VariableDeclaration() returns (r: Result<Stmt, ParseError>)
      requires Valid()
      modifies this`current
      ensures Valid() && Outcome(r, current) == VariableDeclarationAt(tokens, old(current))
      decreases |tokens| - current, 52
    {
      var name :- Consume(IDENTIFIER, ExpectVariableName);
      var initializer: Option<Expr> := None;
      var hasValue := Match([EQUAL]);
      if hasValue {
        var e :- Expression();
        initializer := Some(e);
      }
      var semicolon :- Consume(SEMICOLON, ExpectVariableEnd);
      return Ok(Var(name, initializer));
    }

    method Statement() returns (r: Result<Stmt, ParseError>)
      requires Valid()
      modifies this`current
      ensures Valid() && Outcome(r, current) == StatementAt(tokens, old(current))
      decreases |tokens| - current, 50
    {
      var found := Match([FOR]);
      if found {
        r := ForStatement();
        return;
      }
      found := Match([IF]);
      if found {
        r := IfStatement();
        return;
      }
      found := Match([RETURN]);
      if found {
        r := ReturnStatement();
        return;
      }
      found := Match([WHILE]);
      if found {
        r := WhileStatement();
        return;
      }
      found := Match([LEFT_BRACE]);
      if found {
        var body :- BlockStatement();
        return Ok(Block(body));
      }
      r := ExpressionStatement();
    }

    method IfStatement() returns (r: Result<Stmt, ParseError>)
      requires Valid()
      modifies this`current
      ensures Valid() && Outcome(r, current) == IfAt(tokens, old(current))
      decreases |tokens| - current, 48
    {
      var open :- Consume(LEFT_PAREN, ExpectIfOpen);
      var condition :- Expression();
      var close :- Consume(RIGHT_PAREN, ExpectIfClose);
      r := Branches(condition);
    }

    /** After `if (condition)`: the then-statement and the optional else-statement. */
    method Branches(condition: Expr) returns (r: Result<Stmt, ParseError>)
      requires Valid() && WellGrouped(condition)
      modifies this`current
      ensures Valid() && Outcome(r, current) == BranchesAt(tokens, old(current), condition)
      decreases |tokens| - current, 51
    {
      var thenBranch :- Statement();
      var elseBranch :- ElseBranch();
      return Ok(If(condition, thenBranch, elseBranch));
    }

    /** The statement after `else`, when the current token is `else`. */
    method ElseBranch() returns (r: Result<Option<Stmt>, ParseError>)
      requires Valid()
      modifies this`current
      ensures Valid() && Outcome(r, current) == ElseAt(tokens, old(current))
      decreases |tokens| - current, 46
    {
      var hasElse := Match([ELSE]);
      if hasElse {
        var e :- Statement();
        return Ok(Some(e));
      }
      return Ok(None);
    }

    /** Called just after the `return` keyword, which becomes the node's keyword. */
    method ReturnStatement() returns (r: Result<Stmt, ParseError>)
      requires Valid() && current > 0
      modifies this`current
      ensures Valid() && Outcome(r, current) == ReturnAt(tokens, old(current))
      decreases |tokens| - current, 46
    {
      var keyword := tokens[current - 1];
      var value: Option<Expr> := None;
      if !Check(SEMICOLON) {
        var e :- Expression();
        value := Some(e);
      }
      var semicolon :- Consume(SEMICOLON, ExpectReturnEnd);
      return Ok(Return(keyword, value));
    }

    /** Declarations up to the closing brace, which it consumes. */
    method BlockStatement() returns (r: Result<seq<Stmt>, ParseError>)
      requires Valid()
      modifies this`current
      ensures Valid() && Outcome(r, current) == BlockRest(tokens, old(current), [])
      decreases |tokens| - current, 62
    {
      var statements: seq<Stmt> := [];
      ghost var goal := BlockRest(tokens, current, []);
      while !Check(RIGHT_BRACE) && !IsAtEnd()
        invariant Valid() && AllWellGrouped(statements)
        invariant BlockRest(tokens, current, statements) == goal
        decreases |tokens| - current
      {
        var s :- Declaration();
        AppendWellGrouped(statements, s);
        statements := statements + [s];
      }
      var close :- Consume(RIGHT_BRACE, ExpectBlockEnd);
      return Ok(statements);
    }

    method ExpressionStatement() returns (r: Result<Stmt, ParseError>)
      requires Valid()
      modifies this`current
      ensures Valid() && Outcome(r, current) == ExpressionStatementAt(tokens, old(current))
      decreases |tokens| - current, 38
    {
      var e :- Expression();
      var semicolon :- Consume(SEMICOLON, ExpectExpressionEnd);
      return Ok(Stmt.Expression(e));
    }

    method WhileStatement() returns (r: Result<Stmt, ParseError>)
      requires Valid()
      modifies this`current
      ensures Valid() && Outcome(r, current) == WhileAt(tokens, old(current))
      decreases |tokens| - current, 42
    {
      var open :- Consume(LEFT_PAREN, ExpectWhileOpen);
      var condition :- Expression();
      var close :- Consume(RIGHT_PAREN, ExpectWhileClose);
      var body :- Statement();
      return Ok(While(condition, body));
    }

    /** The three clauses and the body, assembled by DesugarFor. */
    method ForStatement() returns (r: Result<Stmt, ParseError>)
      requires Valid()
      modifies this`current
      ensures Valid() && Outcome(r, current) == ForAt(tokens, old(current))
      decreases |tokens| - current, 40
    {
      var open :- Consume(LEFT_PAREN, ExpectForOpen);
      ghost var start := current;
      var initializer :- ForInitializer();
      var condition :- ExpressionUnless(SEMICOLON);
      var semicolon :- Consume(SEMICOLON, ExpectConditionEnd);
      var increment :- ExpressionUnless(RIGHT_PAREN);
      var close :- Consume(RIGHT_PAREN, ExpectForClose);
      assert ForClausesAt(tokens, start) == Ok(Parsed((initializer, condition, increment), current));
      r := ForBody((initializer, condition, increment));
    }

    /** After the clauses of a `for` loop: the body, assembled with them by DesugarFor. */
    method ForBody(clauses: (Option<Stmt>, Option<Expr>, Option<Expr>)) returns (r: Result<Stmt, ParseError>)
      requires Valid() && ClausesWellGrouped(clauses)
      modifies this`current
      ensures Valid() && Outcome(r, current) == ForBodyAt(tokens, old(current), clauses)
      decreases |tokens| - current, 51
    {
      var body :- Statement();
      return Ok(DesugarFor(clauses.0, clauses.1, clauses.2, body));
    }

    /** A `for` initializer: nothing after a bare `;`, a variable declaration, or an expression statement. */
    method ForInitializer() returns (r: Result<Option<Stmt>, ParseError>)
      requires Valid()
      modifies this`current
      ensures Valid() && Outcome(r, current) == ForInitializerAt(tokens, old(current))
      decreases |tokens| - current, 80
    {
      var empty := Match([SEMICOLON]);
      if empty {
        return Ok(None);
      }
      var isVar := Match([VAR]);
      if isVar {
        var s :- VariableDeclaration();
        return Ok(Some(s));
      }
      var s :- ExpressionStatement();
      return Ok(Some(s));
    }

    /** An expression, unless the current token has type t, in which case nothing is consumed. */
    method ExpressionUnless(t: TokenType) returns (r: Result<Option<Expr>, ParseError>)
      requires Valid()
      modifies this`current
      ensures Valid() && Outcome(r, current) == ExpressionUnlessAt(tokens, old(current), t)
      decreases |tokens| - current, 80
    {
      if Check(t) {
        return Ok(None);
      }
      var e :- Expression();
      return Ok(Some(e));
    }

    /* ----- Expressions ----- */

    method Expression() returns (r: Result<Expr, ParseError>)
      requires Valid()
      modifies this`current
      ensures Valid() && Outcome(r, current) == ExpressionAt(tokens, old(current))
      decreases |tokens| - current, 36
    {
      r := Assignment();
    }

    /** A right-associative assignment, or an or-level expression. */
    method Assignment() returns (r: Result<Expr, ParseError>)
      requires Valid()
      modifies this`current
      ensures Valid() && Outcome(r, current) == AssignmentAt(tokens, old(current))
      decreases |tokens| - current, 34
    {
      var e :- Or();
      r := AssignmentTail(e);
    }

    /** After the or-level target e: an assignment operator, then the value and the node AssignTo builds; otherwise e. */
    method AssignmentTail(e: Expr) returns (r: Result<Expr, ParseError>)
      requires Valid() && WellGrouped(e)
      modifies this`current
      ensures Valid() && Outcome(r, current) == AssignmentRest(tokens, e, old(current))
      decreases |tokens| - current, 33
    {
      var at := current;
      var isAssignment := Match(AssignOperators);
      if isAssignment {
        var operator := tokens[at];
        var value :- Assignment();
        var node :- AssignTo(e, operator, value);
        return Ok(node);
      }
      return Ok(e);
    }

    method Or() returns (r: Result<Expr, ParseError>)
      requires Valid()
      modifies this`current
      ensures Valid() && Outcome(r, current) == OrAt(tokens, old(current))
      decreases |tokens| - current, 32
    {
      ghost var goal := OrAt(tokens, current);
      var e :- And();
      while true
        invariant Valid() && WellGrouped(e) && Level(e) >= 1
        invariant OrRest(tokens, e, current) == goal
        decreases |tokens| - current
      {
        var more := Match(OrOperators);
        if !more {
          return Ok(e);
        }
        e :- OrOperand(e);
      }
    }

    /** One turn of the or loop: the operator just matched, then an and-level right operand, joined onto left. */
    method OrOperand(left: Expr) returns (r: Result<Expr, ParseError>)
      requires Valid() && WellGrouped(left) && Level(left) >= 1
      requires current > 0 && SeesAny(tokens, current - 1, OrOperators)
      modifies this`current
      ensures Valid()
      ensures r.Err? ==> OrRest(tokens, left, old(current) - 1) == Err(r.error)
      ensures r.Ok? ==> current > old(current) && WellGrouped(r.value) && Level(r.value) >= 1
      ensures r.Ok? ==> OrRest(tokens, r.value, current) == OrRest(tokens, left, old(current) - 1)
      decreases |tokens| - current, 31
    {
      var operator := tokens[current - 1];
      OperatorLevels(operator.tokenType);
      var right :- And();
      return Ok(JoinLogical(left, operator, right, 1));
    }

    method And() returns (r: Result<Expr, ParseError>)
      requires Valid()
      modifies this`current
      ensures Valid() && Outcome(r, current) == AndAt(tokens, old(current))
      decreases |tokens| - current, 30
    {
      ghost var goal := AndAt(tokens, current);
      var e :- Equality();
      while true
        invariant Valid() && WellGrouped(e) && Level(e) >= 2
        invariant AndRest(tokens, e, current) == goal
        decreases |tokens| - current
      {
        var more := Match(AndOperators);
        if !more {
          return Ok(e);
        }
        e :- AndOperand(e);
      }
    }

    /** One turn of the and loop: the operator just matched, then an equality-level right operand, joined onto left. */
    method AndOperand(left: Expr) returns (r: Result<Expr, ParseError>)
      requires Valid() && WellGrouped(left) && Level(left) >= 2
      requires current > 0 && SeesAny(tokens, current - 1, AndOperators)
      modifies this`current
      ensures Valid()
      ensures r.Err? ==> AndRest(tokens, left, old(current) - 1) == Err(r.error)
      ensures r.Ok? ==> current > old(current) && WellGrouped(r.value) && Level(r.value) >= 2
      ensures r.Ok? ==> AndRest(tokens, r.value, current) == AndRest(tokens, left, old(current) - 1)
      decreases |tokens| - current, 29
    {
      var operator := tokens[current - 1];
      OperatorLevels(operator.tokenType);
      var right :- Equality();
      return Ok(JoinLogical(left, operator, right, 2));
    }

    method Equality() returns (r: Result<Expr, ParseError>)
      requires Valid()
      modifies this`current
      ensures Valid() && Outcome(r, current) == EqualityAt(tokens, old(current))
      decreases |tokens| - current, 28
    {
      ghost var goal := EqualityAt(tokens, current);
      var e :- Comparison();
      while true
        invariant Valid() && WellGrouped(e) && Level(e) >= 3
        invariant EqualityRest(tokens, e, current) == goal
        decreases |tokens| - current
      {
        var more := Match(EqualityOperators);
        if !more {
          return Ok(e);
        }
        e :- EqualityOperand(e);
      }
    }

    /** One turn of the equality loop: the operator just matched, then a comparison-level right operand, joined onto left. */
    method EqualityOperand(left: Expr) returns (r: Result<Expr, ParseError>)
      requires Valid() && WellGrouped(left) && Level(left) >= 3
      requires current > 0 && SeesAny(tokens, current - 1, EqualityOperators)
      modifies this`current
      ensures Valid()
      ensures r.Err? ==> EqualityRest(tokens, left, old(current) - 1) == Err(r.error)
      ensures r.Ok? ==> current > old(current) && WellGrouped(r.value) && Level(r.value) >= 3
      ensures r.Ok? ==> EqualityRest(tokens, r.value, current) == EqualityRest(tokens, left, old(current) - 1)
      decreases |tokens| - current, 27
    {
      var operator := tokens[current - 1];
      OperatorLevels(operator.tokenType);
      var right :- Comparison();
      return Ok(JoinBinary(left, operator, right, 3));
    }

    method Comparison() returns (r: Result<Expr, ParseError>)
      requires Valid()
      modifies this`current
      ensures Valid() && Outcome(r, current) == ComparisonAt(tokens, old(current))
      decreases |tokens| - current, 26
    {
      ghost var goal := ComparisonAt(tokens, current);
      var e :- Term();
      while true
        invariant Valid() && WellGrouped(e) && Level(e) >= 4
        invariant ComparisonRest(tokens, e, current) == goal
        decreases |tokens| - current
      {
        var more := Match(ComparisonOperators);
        if !more {
          return Ok(e);
        }
        e :- ComparisonOperand(e);
      }
    }

    /** One turn of the comparison loop: the operator just matched, then a term-level right operand, joined onto left. */
    method ComparisonOperand(left: Expr) returns (r: Result<Expr, ParseError>)
      requires Valid() && WellGrouped(left) && Level(left) >= 4
      requires current > 0 && SeesAny(tokens, current - 1, ComparisonOperators)
      modifies this`current
      ensures Valid()
      ensures r.Err? ==> ComparisonRest(tokens, left, old(current) - 1) == Err(r.error)
      ensures r.Ok? ==> current > old(current) && WellGrouped(r.value) && Level(r.value) >= 4
      ensures r.Ok? ==> ComparisonRest(tokens, r.value, current) == ComparisonRest(tokens, left, old(current) - 1)
      decreases |tokens| - current, 25
    {
      var operator := tokens[current - 1];
      OperatorLevels(operator.tokenType);
      var right :- Term();
      return Ok(JoinBinary(left, operator, right, 4));
    }

    method Term() returns (r: Result<Expr, ParseError>)
      requires Valid()
      modifies this`current
      ensures Valid() && Outcome(r, current) == TermAt(tokens, old(current))
      decreases |tokens| - current, 24
    {
      ghost var goal := TermAt(tokens, current);
      var e :- Factor();
      while true
        invariant Valid() && WellGrouped(e) && Level(e) >= 5
        invariant TermRest(tokens, e, current) == goal
        decreases |tokens| - current
      {
        var more := Match(TermOperators);
        if !more {
          return Ok(e);
        }
        e :- TermOperand(e);
      }
    }

    /** One turn of the term loop: the operator just matched, then a factor-level right operand, joined onto left. */
    method TermOperand(left: Expr) returns (r: Result<Expr, ParseError>)
      requires Valid() && WellGrouped(left) && Level(left) >= 5
      requires current > 0 && SeesAny(tokens, current - 1, TermOperators)
      modifies this`current
      ensures Valid()
      ensures r.Err? ==> TermRest(tokens, left, old(current) - 1) == Err(r.error)
      ensures r.Ok? ==> current > old(current) && WellGrouped(r.value) && Level(r.value) >= 5
      ensures r.Ok? ==> TermRest(tokens, r.value, current) == TermRest(tokens, left, old(current) - 1)
      decreases |tokens| - current, 23
    {
      var operator := tokens[current - 1];
      OperatorLevels(operator.tokenType);
      var right :- Factor();
      return Ok(JoinBinary(left, operator, right, 5));
    }

    method Factor() returns (r: Result<Expr, ParseError>)
      requires Valid()
      modifies this`current
      ensures Valid() && Outcome(r, current) == FactorAt(tokens, old(current))
      decreases |tokens| - current, 22
    {
      ghost var goal := FactorAt(tokens, current);
      var e :- Typeof();
      while true
        invariant Valid() && WellGrouped(e) && Level(e) >= 6
        invariant FactorRest(tokens, e, current) == goal
        decreases |tokens| - current
      {
        var more := Match(FactorOperators);
        if !more {
          return Ok(e);
        }
        e :- FactorOperand(e);
      }
    }

    /** One turn of the factor loop: the operator just matched, then a typeof-level right operand, joined onto left. */
    method FactorOperand(left: Expr) returns (r: Result<Expr, ParseError>)
      requires Valid() && WellGrouped(left) && Level(left) >= 6
      requires current > 0 && SeesAny(tokens, current - 1, FactorOperators)
      modifies this`current
      ensures Valid()
      ensures r.Err? ==> FactorRest(tokens, left, old(current) - 1) == Err(r.error)
      ensures r.Ok? ==> current > old(current) && WellGrouped(r.value) && Level(r.value) >= 6
      ensures r.Ok? ==> FactorRest(tokens, r.value, current) == FactorRest(tokens, left, old(current) - 1)
      decreases |tokens| - current, 21
    {
      var operator := tokens[current - 1];
      OperatorLevels(operator.tokenType);
      var right :- Typeof();
      return Ok(JoinBinary(left, operator, right, 6));
    }

    method Typeof() returns (r: Result<Expr, ParseError>)
      requires Valid()
      modifies this`current
      ensures Valid() && Outcome(r, current) == TypeofAt(tokens, old(current))
      decreases |tokens| - current, 20
    {
      var isTypeof := Match([TYPEOF]);
      if isTypeof {
        var operand :- Unary();
        return Ok(JoinTypeof(operand));
      }
      r := Unary();
    }

    method Unary() returns (r: Result<Expr, ParseError>)
      requires Valid()
      modifies this`current
      ensures Valid() && Outcome(r, current) == UnaryAt(tokens, old(current))
      decreases |tokens| - current, 18
    {
      var at := current;
      var isUnary := Match([BANG, MINUS]);
      if isUnary {
        var operator := tokens[at];
        var operand :- Unary();
        return Ok(JoinUnary(operator, operand));
      }
      r := Call();
    }

    /** A primary followed by any number of argument lists and property reads. */
    method Call() returns (r: Result<Expr, ParseError>)
      requires Valid()
      modifies this`current
      ensures Valid() && Outcome(r, current) == CallAt(tokens, old(current))
      decreases |tokens| - current, 16
    {
      ghost var goal := CallAt(tokens, current);
      var e :- Primary();
      while true
        invariant Valid() && WellGrouped(e) && Level(e) >= 9
        invariant CallRest(tokens, e, current) == goal
        decreases |tokens| - current
      {
        var step, more := CallSuffix(e);
        if step.Err? {
          return Err(step.error);
        }
        if !more {
          break;
        }
        e := step.value;
      }
      return Ok(e);
    }

    /**
     * One suffix of a call chain: an argument list in parentheses or a
     * property name after a dot, joined onto e; more is false, and nothing
     * is consumed, when neither follows.
     */
    method CallSuffix(e: Expr) returns (r: Result<Expr, ParseError>, more: bool)
      requires Valid() && WellGrouped(e) && Level(e) >= 9
      modifies this`current
      ensures Valid()
      ensures r.Err? ==> CallSuffixAt(tokens, e, old(current)) == Err(r.error)
      ensures r.Ok? && more ==> CallSuffixAt(tokens, e, old(current)) == Ok(Some(Parsed(r.value, current)))
      ensures r.Ok? && !more ==> CallSuffixAt(tokens, e, old(current)) == Ok(None) && current == old(current)
      decreases |tokens| - current, 14
    {
      more := false;
      var isCall := Match([LEFT_PAREN]);
      if isCall {
        var arguments :- Arguments();
        var paren :- Consume(RIGHT_PAREN, ExpectArgumentsEnd);
        return Ok(JoinCall(e, paren, arguments)), true;
      }
      var isGet := Match([DOT]);
      if isGet {
        var name :- Consume(IDENTIFIER, ExpectPropertyName);
        return Ok(JoinGet(e, name)), true;
      }
      return Ok(e), false;
    }

    /** Call arguments after the opening parenthesis: at most 255 comma-separated expressions. */
    method Arguments() returns (r: Result<seq<Expr>, ParseError>)
      requires Valid()
      modifies this`current
      ensures Valid() && Outcome(r, current) == ArgumentsAt(tokens, old(current))
      decreases |tokens| - current, 80
    {
      var arguments: seq<Expr> := [];
      if !Check(RIGHT_PAREN) {
        ghost var goal := ArgumentsRest(tokens, current, []);
        while true
          invariant Valid() && |arguments| <= 255 && ExprsWellGrouped(arguments)
          invariant ArgumentsRest(tokens, current, arguments) == goal
          decreases |tokens| - current
        {
          if |arguments| >= 255 {
            return Err(ErrorAt(tokens, current, TooManyArguments));
          }
          var more;
          arguments, more :- NextArgument(arguments);
          if !more {
            return Ok(arguments);
          }
        }
      }
      return Ok(arguments);
    }

    /** One turn of the argument loop: an expression appended to arguments, then whether a comma follows it. */
    method NextArgument(arguments: seq<Expr>) returns (r: Result<seq<Expr>, ParseError>, more: bool)
      requires Valid() && |arguments| < 255 && ExprsWellGrouped(arguments)
      modifies this`current
      ensures Valid()
      ensures r.Err? ==> ArgumentsRest(tokens, old(current), arguments) == Err(r.error)
      ensures r.Ok? ==> current > old(current) && |r.value| <= 255 && ExprsWellGrouped(r.value)
      ensures r.Ok? && more ==> ArgumentsRest(tokens, current, r.value) == ArgumentsRest(tokens, old(current), arguments)
      ensures r.Ok? && !more ==> ArgumentsRest(tokens, old(current), arguments) == Ok(Parsed(r.value, current))
      decreases |tokens| - current, 79
    {
      more := false;
      var argument :- Expression();
      more := Match(CommaOperator);
      return Ok(arguments + [argument]), more;
    }

    /** Array items after the opening bracket, up to the closing bracket, which it consumes. */
    method ArrayItems() returns (r: Result<seq<Expr>, ParseError>)
      requires Valid()
      modifies this`current
      ensures Valid() && Outcome(r, current) == ArrayItemsAt(tokens, old(current))
      decreases |tokens| - current, 80
    {
      var items: seq<Expr> := [];
      if !Check(RIGHT_BRACKET) {
        items :- Items();
      }
      var close :- Consume(RIGHT_BRACKET, ExpectArrayEnd);
      return Ok(items);
    }

    /** One or more comma-separated array items. */
    method Items() returns (r: Result<seq<Expr>, ParseError>)
      requires Valid()
      modifies this`current
      ensures Valid() && Outcome(r, current) == ItemsRest(tokens, old(current), [])
      decreases |tokens| - current, 79
    {
      ghost var goal := ItemsRest(tokens, current, []);
      var items: seq<Expr> := [];
      while true
        invariant Valid() && ExprsWellGrouped(items)
        invariant ItemsRest(tokens, current, items) == goal
        decreases |tokens| - current
      {
        var more;
        items, more :- NextItem(items);
        if !more {
          return Ok(items);
        }
      }
    }

    /** One turn of the item loop: an expression appended to items, then whether a comma follows it. */
    method NextItem(items: seq<Expr>) returns (r: Result<seq<Expr>, ParseError>, more: bool)
      requires Valid() && ExprsWellGrouped(items)
      modifies this`current
      ensures Valid()
      ensures r.Err? ==> ItemsRest(tokens, old(current), items) == Err(r.error)
      ensures r.Ok? ==> current > old(current) && ExprsWellGrouped(r.value)
      ensures r.Ok? && more ==> ItemsRest(tokens, current, r.value) == ItemsRest(tokens, old(current), items)
      ensures r.Ok? && !more ==> ItemsRest(tokens, old(current), items) == Ok(Parsed(r.value, current))
      decreases |tokens| - current, 78
    {
      more := false;
      var item :- Expression();
      more := Match(CommaOperator);
      return Ok(items + [item]), more;
    }

    /** After `super`: a dot and the method name. */
    method SuperRest(keyword: Token) returns (r: Result<Expr, ParseError>)
      requires Valid()
      modifies this`current
      ensures Valid() && Outcome(r, current) == SuperRestAt(tokens, old(current), keyword)
    {
      var dot :- Consume(DOT, ExpectSuperDot);
      var name :- Consume(IDENTIFIER, ExpectSuperMethod);
      return Ok(Super(keyword, name));
    }

    /** After an opening parenthesis: an expression and the closing parenthesis, kept as a grouping. */
    method GroupingRest() returns (r: Result<Expr, ParseError>)
      requires Valid()
      modifies this`current
      ensures Valid() && Outcome(r, current) == GroupingRestAt(tokens, old(current))
      decreases |tokens| - current, 82
    {
      var e :- Expression();
      var close :- Consume(RIGHT_PAREN, ExpectGroupingEnd);
      return Ok(Grouping(e));
    }

    /**
     * The source tries each starting token type in turn with `match`; as the
     * types are distinct and `match` fails at EOF, that is a dispatch on the
     * current token's type.
     */
    method Primary() returns (r: Result<Expr, ParseError>)
      requires Valid()
      modifies this`current
      ensures Valid() && Outcome(r, current) == PrimaryAt(tokens, old(current))
      decreases |tokens| - current, 14
    {
      var token := tokens[current];
      if IsAtEnd() || !(token.tokenType in PrimaryStarts) {
        return Err(ErrorAt(tokens, current, ExpressionExpected));
      }
      current := current + 1;
      if token.tokenType in AtomStarts {
        r := Ok(Atom(token));
      } else if token.tokenType == SUPER {
        r := SuperRest(token);
      } else if token.tokenType == LEFT_PAREN {
        r := GroupingRest();
      } else if token.tokenType == LEFT_BRACKET {
        var items :- ArrayItems();
        r := Ok(JoinArray(items));
      } else {
        var f :- FunctionBody(AnonymousKind);
        r := Ok(JoinFunction(f));
      }
    }
  }
}
