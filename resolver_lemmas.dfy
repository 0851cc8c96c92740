/** The compile errors the resolver raises, and the programs it lets through. */
module ResolverLemmas {
  import opened Wrappers
  import opened Tokens
  import opened Ast
  import opened Resolving

  /** Declaring a name twice in one scope is rejected at the second declaration. */
  lemma RedeclarationRejected(c: Context, first: Token, second: Token)
    requires |c.scopes| > 0 && first.lexeme == second.lexeme
    requires Declared(c, first).status.Pass?
    ensures Declared(Declared(c, first).context, second).status
            == Fail(CompileError("Already a variable with this name in this scope.", second.line, second.column))
  {
  }

  /** `var a = a;` in any scope that does not yet hold `a` is rejected at the read. */
  lemma OwnInitializerRejected(c: Context, name: Token, read: Token)
    requires |c.scopes| > 0 && !(name.lexeme in c.scopes[|c.scopes| - 1])
    requires read.lexeme == name.lexeme
    ensures StmtOutcome(c, Var(name, Some(Variable(read)))).status
            == Fail(CompileError("Can't read local variable in its own initializer", read.line, read.column))
  {
    var d := Declared(c, name).context;
    assert ReadsOwnInitializer(d, read);
  }

  /** After a variable's declaration completes, reading it passes. */
  lemma ReadAfterDeclarationPasses(c: Context, name: Token, read: Token, init: Option<Expr>)
    requires read.lexeme == name.lexeme
    requires StmtOutcome(c, Var(name, init)).status.Pass?
    ensures ExprOutcome(StmtOutcome(c, Var(name, init)).context, Variable(read)).status.Pass?
  {
    var d := Declared(c, name);
    var i := if init.Some? then ExprOutcome(d.context, init.value) else d;
    assert StmtOutcome(c, Var(name, init)).context == Defined(i.context, name);
  }

  /** `return` outside any function is rejected at the keyword, with or without a value. */
  lemma TopLevelReturnRejected(c: Context, keyword: Token, value: Option<Expr>)
    requires c.currentFunction == FunctionType.NONE
    ensures StmtOutcome(c, Return(keyword, value)).status
            == Fail(CompileError("Can't return from top-level code.", keyword.line, keyword.column))
  {
  }

  /** `return <value>` inside an initializer is rejected; a bare `return` there passes. */
  lemma InitializerReturn(c: Context, keyword: Token, value: Expr)
    requires c.currentFunction == FunctionType.INITIALIZER
    ensures StmtOutcome(c, Return(keyword, Some(value))).status
            == Fail(CompileError("Can't return a value from an initializer.", keyword.line, keyword.column))
    ensures StmtOutcome(c, Return(keyword, None)) == Outcome(c, Pass)
  {
  }

  /** `this` is rejected only outside a class. */
  lemma ThisNeedsClass(c: Context, keyword: Token)
    ensures ExprOutcome(c, This(keyword)).status.Fail? <==> c.currentClass == ClassType.NONE
  {
  }

  /** `super` passes only inside a class that has a superclass. */
  lemma SuperNeedsSubclass(c: Context, keyword: Token, name: Token)
    ensures ExprOutcome(c, Super(keyword, name)).status.Pass? <==> c.currentClass == ClassType.SUBCLASS
    ensures c.currentClass == ClassType.INSTANCE ==>
              ExprOutcome(c, Super(keyword, name)).status
              == Fail(CompileError("Can't use 'super' in a class with no superclass.", name.line, name.column))
  {
  }

  /** A class named as its own superclass is rejected at the superclass name. */
  lemma SelfInheritanceRejected(c: Context, name: Token, parent: Token, methods: seq<Method>)
    requires parent.lexeme == name.lexeme
    requires !(|c.scopes| > 0 && name.lexeme in c.scopes[|c.scopes| - 1])
    ensures StmtOutcome(c, Class(name, Some(parent), methods)).status
            == Fail(CompileError("A class can't inherit from itself.", parent.line, parent.column))
  {
    var d := Declared(c.(currentClass := ClassType.INSTANCE), name);
    assert d.status.Pass?;
    assert SubclassOutcome(Defined(d.context, name), name, parent, methods).status
           == Fail(CompileError(InheritsItself, parent.line, parent.column));
  }

  /* ---------- Concrete programs ---------- */

  function Ident(text: string): Token
  {
    Token(IDENTIFIER, 1, 1, text)
  }

  const ReturnKeyword: Token := Token(RETURN, 1, 1, "return")
  const Paren: Token := Token(RIGHT_PAREN, 1, 1, ")")

  /** `fun f() { f(); }`: the body may call the function, whose name is ready before its body. */
  lemma RecursiveFunctionResolves()
    ensures ProgramOutcome([FunctionDecl(Ident("f"), FunctionNode([], [Expression(Call(Variable(Ident("f")), Paren, []))]))]).status.Pass?
  {
    var f := Ident("f");
    var node := FunctionNode([], [Expression(Call(Variable(f), Paren, []))]);
    var d := Declared(Initial(), f);
    assert d.status.Pass?;
    var c := Defined(d.context, f);
    assert "f" in c.scopes[0] && c.scopes[0]["f"];
    var inner := Pushed(c.(currentFunction := FunctionType.FUNCTION));
    assert inner.scopes[1] == map[];
    assert ParamsOutcome(inner, []) == Outcome(inner, Pass);
    assert ExprOutcome(inner, Variable(f)) == Outcome(inner, Pass);
    assert ExprOutcome(inner, Call(Variable(f), Paren, [])) == Outcome(inner, Pass);
    assert StmtsOutcome(inner, node.body) == Outcome(inner, Pass) by {
      assert node.body[1..] == [];
    }
    assert FunctionOutcome(c, node, FunctionType.FUNCTION).status.Pass?;
    var o := StmtOutcome(Initial(), FunctionDecl(f, node));
    assert o.status.Pass?;
    assert StmtsOutcome(Initial(), [FunctionDecl(f, node)]).status.Pass? by {
      assert [FunctionDecl(f, node)][1..] == [];
      assert StmtsOutcome(o.context, []).status.Pass?;
    }
  }

  /** The body of `class C { NAME() { return 1; } }`. */
  function ReturnOne(name: string): Stmt
  {
    Class(Ident("C"), None, [Method(Ident(name), FunctionNode([], [Return(ReturnKeyword, Some(Literal(NUMBER, LText("1"))))]))])
  }

  /** Resolving the method of ReturnOne(name): its kind decides whether `return 1;` is allowed. */
  lemma ReturnOneOutcome(name: string)
    ensures ProgramOutcome([ReturnOne(name)]).status.Fail? <==> name == "init"
    ensures name == "init" ==> ProgramOutcome([ReturnOne(name)]).status
                               == Fail(CompileError("Can't return a value from an initializer.", 1, 1))
  {
    var m := Method(Ident(name), FunctionNode([], [Return(ReturnKeyword, Some(Literal(NUMBER, LText("1"))))]));
    var c := Initial().(currentClass := ClassType.INSTANCE);
    var d := Declared(c, Ident("C"));
    assert d.status.Pass?;
    var defined := Defined(d.context, Ident("C"));
    var inner := SetTop(Pushed(defined), "this", true);
    assert |inner.scopes| == 2;
    var kind := MethodKind(m.name);
    var body := Pushed(inner.(currentFunction := kind));
    assert ParamsOutcome(body, []) == Outcome(body, Pass);
    var ret := StmtOutcome(body, m.declaration.body[0]);
    assert kind == FunctionType.INITIALIZER ==>
             ret == Outcome(body, Fail(CompileError("Can't return a value from an initializer.", 1, 1)));
    assert kind != FunctionType.INITIALIZER ==> ret == Outcome(body, Pass);
    assert StmtsOutcome(body, m.declaration.body) == ret by {
      assert m.declaration.body[1..] == [];
    }
    assert FunctionOutcome(inner, m.declaration, kind).status == ret.status;
    assert MethodOutcome(inner, m).status == ret.status;
    assert MethodsOutcome(inner, [m]).status == ret.status by {
      assert [m][1..] == [];
      assert MethodsOutcome(inner, []).status.Pass?;
    }
    assert ClassOutcome(Initial(), Ident("C"), None, [m]).status == ret.status;
    var o := StmtOutcome(Initial(), ReturnOne(name));
    assert o.status == ret.status;
    assert StmtsOutcome(Initial(), [ReturnOne(name)]).status == ret.status by {
      assert [ReturnOne(name)][1..] == [];
      assert StmtsOutcome(o.context, []).status.Pass?;
    }
  }
}
