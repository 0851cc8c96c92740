/**
 * The static resolver: a walk over the syntax tree that keeps a stack of
 * scopes (name to "ready" flag) and the kind of the enclosing function and
 * class, and rejects a fixed list of programs with a compile error.
 *
 * The walk is specified by pure functions from a Context to an Outcome
 * (the context reached and whether an error was raised); the Resolver
 * class below updates its fields in place and is proved to follow them.
 */
module Resolving {
  import opened Wrappers
  import opened Tokens
  import opened Ast

  datatype FunctionType = NONE | FUNCTION | METHOD | INITIALIZER
  datatype ClassType = NONE | INSTANCE | SUBCLASS

  datatype CompileError = CompileError(reason: string, line: int, column: int)

  const AlreadyDeclared := "Already a variable with this name in this scope."
  const OwnInitializer := "Can't read local variable in its own initializer"
  const SuperOutsideClass := "Can't use 'super' outside of a class."
  const SuperWithoutSuperclass := "Can't use 'super' in a class with no superclass."
  const ThisOutsideClass := "Can't use 'this' outside of a class."
  const TopLevelReturn := "Can't return from top-level code."
  const ReturnFromInitializer := "Can't return a value from an initializer."
  const InheritsItself := "A class can't inherit from itself."

  /** Whether resolution got through; a failure carries the compile error. */
  datatype Status = Pass | Fail(error: CompileError) {
    predicate IsFailure() {
      Fail?
    }

    function PropagateFailure(): Status
      requires Fail?
    {
      this
    }
  }

  /** A scope maps each declared name to whether its declaration is complete. */
  type Scope = map<string, bool>

  /** The resolver's fields: the scope stack (innermost last) and the two current kinds. */
  datatype Context = Context(scopes: seq<Scope>, currentFunction: FunctionType, currentClass: ClassType)

  datatype Outcome = Outcome(context: Context, status: Status)

  /** The state of a new resolver: one empty scope, so top-level names are tracked too. */
  function Initial(): (c: Context)
    ensures |c.scopes| == 1 && c.scopes[0] == map[]
    ensures c.currentFunction == FunctionType.NONE && c.currentClass == ClassType.NONE
  {
    Context([map[]], FunctionType.NONE, ClassType.NONE)
  }

  /**
   * d is c with the same kinds, the same depth, the same scopes below the
   * innermost one, and an innermost scope that declares at least the
   * names it declared before.
   */
  predicate KeepsFrame(c: Context, d: Context)
  {
    |d.scopes| == |c.scopes|
    && d.currentFunction == c.currentFunction
    && d.currentClass == c.currentClass
    && (forall i :: 0 <= i < |c.scopes| - 1 ==> d.scopes[i] == c.scopes[i])
    && (|c.scopes| > 0 ==> c.scopes[|c.scopes| - 1].Keys <= d.scopes[|c.scopes| - 1].Keys)
  }

  lemma KeepsFrameTransitive(c: Context, d: Context, e: Context)
    requires KeepsFrame(c, d) && KeepsFrame(d, e)
    ensures KeepsFrame(c, e)
  {
  }

  /* ---------- Scope operations ---------- */

  function Pushed(c: Context): (d: Context)
    ensures d.scopes == c.scopes + [map[]]
    ensures d.currentFunction == c.currentFunction && d.currentClass == c.currentClass
  {
    c.(scopes := c.scopes + [map[]])
  }

  function Popped(c: Context): (d: Context)
    requires |c.scopes| > 0
    ensures d.scopes == c.scopes[..|c.scopes| - 1]
    ensures d.currentFunction == c.currentFunction && d.currentClass == c.currentClass
  {
    c.(scopes := c.scopes[..|c.scopes| - 1])
  }

  /** Writes name := ready into the innermost scope, if there is one. */
  function SetTop(c: Context, name: string, ready: bool): (d: Context)
    ensures |c.scopes| > 0 ==> d.scopes == c.scopes[|c.scopes| - 1 := c.scopes[|c.scopes| - 1][name := ready]]
    ensures |c.scopes| == 0 ==> d == c
    ensures KeepsFrame(c, d)
  {
    if |c.scopes| == 0 then c
    else c.(scopes := c.scopes[|c.scopes| - 1 := c.scopes[|c.scopes| - 1][name := ready]])
  }

  /**
   * Declaring a name already in the innermost scope is an error at the
   * name; otherwise the name is recorded there as not ready.
   */
  function Declared(c: Context, name: Token): (o: Outcome)
    ensures o.status.Fail? <==> |c.scopes| > 0 && name.lexeme in c.scopes[|c.scopes| - 1]
    ensures o.status.Fail? ==>
              o.context == c
              && o.status.error == CompileError(AlreadyDeclared, name.line, name.column)
    ensures o.status.Pass? ==> o.context == SetTop(c, name.lexeme, false)
  {
    if |c.scopes| > 0 && name.lexeme in c.scopes[|c.scopes| - 1] then
      Outcome(c, Fail(CompileError(AlreadyDeclared, name.line, name.column)))
    else
      Outcome(SetTop(c, name.lexeme, false), Pass)
  }

  /** Marks a name ready in the innermost scope. */
  function Defined(c: Context, name: Token): (d: Context)
    ensures d == SetTop(c, name.lexeme, true)
  {
    SetTop(c, name.lexeme, true)
  }

  /** The kind a method resolves as: an initializer when it is named `init`. */
  function MethodKind(name: Token): (k: FunctionType)
    ensures k == FunctionType.INITIALIZER <==> name.lexeme == "init"
    ensures k != FunctionType.INITIALIZER ==> k == FunctionType.METHOD
  {
    if name.lexeme == "init" then FunctionType.INITIALIZER else FunctionType.METHOD
  }

  /* ---------- The walk ---------- */

  /** Reading a name whose declaration in the innermost scope is not yet complete. */
  predicate ReadsOwnInitializer(c: Context, name: Token)
  {
    |c.scopes| > 0 && name.lexeme in c.scopes[|c.scopes| - 1] && !c.scopes[|c.scopes| - 1][name.lexeme]
  }

  /** Resolving an expression declares nothing: when it passes, the context is unchanged. */
  function ExprOutcome(c: Context, e: Expr): (o: Outcome)
    ensures o.status.Pass? ==> o.context == c
    decreases e
  {
    match e
    case Array(elements) => ExprsOutcome(c, elements)
    case Assign(_, value) => ExprOutcome(c, value)
    case Binary(left, _, right) =>
      var o := ExprOutcome(c, left);
      if o.status.Fail? then o else ExprOutcome(c, right)
    case Logical(left, _, right) =>
      var o := ExprOutcome(c, left);
      if o.status.Fail? then o else ExprOutcome(c, right)
    case Call(callee, _, arguments) =>
      var o := ExprOutcome(c, callee);
      if o.status.Fail? then o else ExprsOutcome(c, arguments)
    case Function(f) => FunctionOutcome(c, f, FunctionType.METHOD)
    case Get(receiver, _) => ExprOutcome(c, receiver)
    case Grouping(inner) => ExprOutcome(c, inner)
    case Literal(_, _) => Outcome(c, Pass)
    case Set(receiver, _, value) =>
      var o := ExprOutcome(c, value);
      if o.status.Fail? then o else ExprOutcome(c, receiver)
    case Super(_, methodName) =>
      if c.currentClass == ClassType.NONE then
        Outcome(c, Fail(CompileError(SuperOutsideClass, methodName.line, methodName.column)))
      else if c.currentClass != ClassType.SUBCLASS then
        Outcome(c, Fail(CompileError(SuperWithoutSuperclass, methodName.line, methodName.column)))
      else Outcome(c, Pass)
    case This(keyword) =>
      if c.currentClass == ClassType.NONE then
        Outcome(c, Fail(CompileError(ThisOutsideClass, keyword.line, keyword.column)))
      else Outcome(c, Pass)
    case Typeof(operand) => ExprOutcome(c, operand)
    case Unary(_, operand) => ExprOutcome(c, operand)
    case Variable(name) =>
      if ReadsOwnInitializer(c, name) then
        Outcome(c, Fail(CompileError(OwnInitializer, name.line, name.column)))
      else Outcome(c, Pass)
  }

  /** A list of expressions, left to right, stopping at the first error. */
  function ExprsOutcome(c: Context, es: seq<Expr>): (o: Outcome)
    ensures o.status.Pass? ==> o.context == c
    decreases es
  {
    if |es| == 0 then Outcome(c, Pass)
    else
      var o := ExprOutcome(c, es[0]);
      if o.status.Fail? then o else ExprsOutcome(c, es[1..])
  }

  /**
   * A function body in a scope of its own holding the parameters, with the
   * current function kind set to kind for the duration; when it passes the
   * context is exactly the one before.
   */
  function FunctionOutcome(c: Context, f: FunctionNode, kind: FunctionType): (o: Outcome)
    ensures o.status.Pass? ==> o.context == c
    decreases f
  {
    var inner := Pushed(c.(currentFunction := kind));
    var p := ParamsOutcome(inner, f.parameters);
    if p.status.Fail? then p
    else
      var b := StmtsOutcome(p.context, f.body);
      if b.status.Fail? then b
      else Outcome(Popped(b.context).(currentFunction := c.currentFunction), Pass)
  }

  /** Each parameter is declared and then defined in the innermost scope. */
  function ParamsOutcome(c: Context, params: seq<Token>): (o: Outcome)
    ensures o.status.Pass? ==> KeepsFrame(c, o.context)
    decreases params
  {
    if |params| == 0 then Outcome(c, Pass)
    else
      var d := Declared(c, params[0]);
      if d.status.Fail? then d
      else ParamsOutcome(Defined(d.context, params[0]), params[1..])
  }

  /** Statements in order, stopping at the first error. */
  function StmtsOutcome(c: Context, ss: seq<Stmt>): (o: Outcome)
    ensures o.status.Pass? ==> KeepsFrame(c, o.context)
    decreases ss
  {
    if |ss| == 0 then Outcome(c, Pass)
    else
      var o := StmtOutcome(c, ss[0]);
      if o.status.Fail? then o
      else
        var rest := StmtsOutcome(o.context, ss[1..]);
        if rest.status.Pass? then KeepsFrameTransitive(c, o.context, rest.context); rest else rest
  }

  /**
   * Resolving a statement: when it passes, the kinds and the depth of the
   * scope stack are as before, every scope below the innermost is
   * unchanged, and the innermost one has only gained names.
   */
  function StmtOutcome(c: Context, s: Stmt): (o: Outcome)
    ensures o.status.Pass? ==> KeepsFrame(c, o.context)
    decreases s
  {
    match s
    case Block(statements) =>
      var b := StmtsOutcome(Pushed(c), statements);
      if b.status.Fail? then b else Outcome(Popped(b.context), Pass)
    case Class(name, superclass, methods) => ClassOutcome(c, name, superclass, methods)
    case Expression(e) => ExprOutcome(c, e)
    case FunctionDecl(name, f) =>
      var d := Declared(c, name);
      if d.status.Fail? then d
      else FunctionOutcome(Defined(d.context, name), f, FunctionType.FUNCTION)
    case If(condition, thenBranch, elseBranch) =>
      var o := ExprOutcome(c, condition);
      if o.status.Fail? then o
      else
        var t := StmtOutcome(c, thenBranch);
        if t.status.Fail? || elseBranch.None? then t
        else
          var u := StmtOutcome(t.context, elseBranch.value);
          if u.status.Pass? then KeepsFrameTransitive(c, t.context, u.context); u else u
    case Return(keyword, value) =>
      if c.currentFunction == FunctionType.NONE then
        Outcome(c, Fail(CompileError(TopLevelReturn, keyword.line, keyword.column)))
      else if value.Some? && c.currentFunction == FunctionType.INITIALIZER then
        Outcome(c, Fail(CompileError(ReturnFromInitializer, keyword.line, keyword.column)))
      else if value.Some? then ExprOutcome(c, value.value)
      else Outcome(c, Pass)
    case Var(name, initializer) =>
      var d := Declared(c, name);
      if d.status.Fail? then d
      else
        var i := if initializer.Some? then ExprOutcome(d.context, initializer.value) else d;
        if i.status.Fail? then i else Outcome(Defined(i.context, name), Pass)
    case While(condition, body) =>
      var o := ExprOutcome(c, condition);
      if o.status.Fail? then o else StmtOutcome(c, body)
  }

  /**
   * A class declaration: the class kind becomes INSTANCE (SUBCLASS with a
   * superclass) for its duration; its name is declared and defined; a
   * superclass of the same name is an error; the superclass reference is
   * resolved, and `super` and `this` get scopes of their own around the
   * methods, each of which resolves as METHOD or, when named init, as
   * INITIALIZER.
   */
  function ClassOutcome(c: Context, name: Token, superclass: Option<Token>, methods: seq<Method>): (o: Outcome)
    ensures o.status.Pass? ==> KeepsFrame(c, o.context)
    decreases methods, 3
  {
    var d := Declared(c.(currentClass := ClassType.INSTANCE), name);
    if d.status.Fail? then d
    else
      var defined := Defined(d.context, name);
      var b := if superclass.None? then ThisScopeOutcome(defined, methods)
               else SubclassOutcome(defined, name, superclass.value, methods);
      if b.status.Fail? then b
      else Outcome(b.context.(currentClass := c.currentClass), Pass)
  }

  /**
   * The part of a class declaration that a superclass adds: naming the
   * class itself is an error; otherwise the class kind becomes SUBCLASS,
   * the superclass reference is resolved as a variable expression, and
   * `super` gets a scope of its own around the methods.
   */
  function SubclassOutcome(c: Context, name: Token, parent: Token, methods: seq<Method>): (o: Outcome)
    ensures o.status.Pass? ==> o.context == c.(currentClass := ClassType.SUBCLASS)
    decreases methods, 2
  {
    if parent.lexeme == name.lexeme then
      Outcome(c, Fail(CompileError(InheritsItself, parent.line, parent.column)))
    else
      var sub := c.(currentClass := ClassType.SUBCLASS);
      if ReadsOwnInitializer(sub, parent) then
        Outcome(sub, Fail(CompileError(OwnInitializer, parent.line, parent.column)))
      else
        var m := ThisScopeOutcome(SetTop(Pushed(sub), "super", true), methods);
        if m.status.Fail? then m else Outcome(Popped(m.context), Pass)
  }

  /** The methods of a class, resolved in a scope of their own that binds `this`. */
  function ThisScopeOutcome(c: Context, methods: seq<Method>): (o: Outcome)
    ensures o.status.Pass? ==> o.context == c
    decreases methods, 1
  {
    var m := MethodsOutcome(SetTop(Pushed(c), "this", true), methods);
    if m.status.Fail? then m else Outcome(Popped(m.context), Pass)
  }

  /** Each method resolves as a function of kind MethodKind(name); the context is unchanged. */
  function MethodsOutcome(c: Context, methods: seq<Method>): (o: Outcome)
    ensures o.status.Pass? ==> o.context == c
    decreases methods, 0
  {
    if |methods| == 0 then Outcome(c, Pass)
    else
      var o := MethodOutcome(c, methods[0]);
      if o.status.Fail? then o else MethodsOutcome(c, methods[1..])
  }

  /** A method resolves as a function of kind MethodKind(name). */
  function MethodOutcome(c: Context, m: Method): (o: Outcome)
    ensures o.status.Pass? ==> o.context == c
    decreases m
  {
    FunctionOutcome(c, m.declaration, MethodKind(m.name))
  }

  /** A whole program from a new resolver. */
  function ProgramOutcome(program: seq<Stmt>): (o: Outcome)
    ensures o.status.Pass? ==> |o.context.scopes| == 1
                               && o.context.currentFunction == FunctionType.NONE
                               && o.context.currentClass == ClassType.NONE
  {
    StmtsOutcome(Initial(), program)
  }

  /* ---------- The resolver ---------- */

  class Resolver {
    var scopes: seq<Scope>
    var currentFunction: FunctionType
    var currentClass: ClassType

    function Snapshot(): Context
      reads this
    {
      Context(scopes, currentFunction, currentClass)
    }

    constructor ()
      ensures Snapshot() == Initial()
    {
      scopes := [map[]];
      currentFunction := FunctionType.NONE;
      currentClass := ClassType.NONE;
    }

    /** Resolves a program statement by statement, stopping at the first compile error. */
    method ResolveAll(statements: seq<Stmt>) returns (r: Status)
      modifies this
      ensures Outcome(Snapshot(), r) == StmtsOutcome(old(Snapshot()), statements)
      decreases statements, 1
    {
      var i := 0;
      while i < |statements|
        invariant 0 <= i <= |statements|
        invariant StmtsOutcome(old(Snapshot()), statements) == StmtsOutcome(Snapshot(), statements[i..])
      {
        assert statements[i..][1..] == statements[i + 1..];
        var status := Resolve(statements[i]);
        if status.Fail? {
          return status;
        }
        i := i + 1;
      }
      return Pass;
    }

    /** Resolves expressions left to right, stopping at the first compile error. */
    method ResolveExprs(es: seq<Expr>) returns (r: Status)
      modifies this
      ensures Outcome(Snapshot(), r) == ExprsOutcome(old(Snapshot()), es)
      decreases es, 1
    {
      var i := 0;
      while i < |es|
        invariant 0 <= i <= |es|
        invariant ExprsOutcome(old(Snapshot()), es) == ExprsOutcome(Snapshot(), es[i..])
      {
        assert es[i..][1..] == es[i + 1..];
        var status := ResolveExpr(es[i]);
        if status.Fail? {
          return status;
        }
        i := i + 1;
      }
      return Pass;
    }

    method Resolve(s: Stmt) returns (r: Status)
      modifies this
      ensures Outcome(Snapshot(), r) == StmtOutcome(old(Snapshot()), s)
      decreases s, 0
    {
      r := Pass;
      match s
      case Block(statements) =>
        BeginScope();
        :- ResolveAll(statements);
        EndScope();
      case Class(name, superclass, methods) =>
        r := ResolveClass(name, superclass, methods);
      case Expression(e) =>
        r := ResolveExpr(e);
      case FunctionDecl(name, f) =>
        :- Declare(name);
        Define(name);
        r := ResolveFunction(f, FunctionType.FUNCTION);
      case If(condition, thenBranch, elseBranch) =>
        :- ResolveExpr(condition);
        :- Resolve(thenBranch);
        if elseBranch.Some? {
          r := Resolve(elseBranch.value);
        }
      case Return(keyword, value) =>
        r := ResolveReturn(keyword, value);
      case Var(name, initializer) =>
        :- Declare(name);
        if initializer.Some? {
          :- ResolveExpr(initializer.value);
        }
        Define(name);
      case While(condition, body) =>
        :- ResolveExpr(condition);
        r := Resolve(body);
    }

    method ResolveReturn(keyword: Token, value: Option<Expr>) returns (r: Status)
      modifies this
      ensures Outcome(Snapshot(), r) == StmtOutcome(old(Snapshot()), Return(keyword, value))
      decreases value, 2
    {
      if currentFunction == FunctionType.NONE {
        return Fail(CompileError(TopLevelReturn, keyword.line, keyword.column));
      }
      if value.Some? {
        if currentFunction == FunctionType.INITIALIZER {
          return Fail(CompileError(ReturnFromInitializer, keyword.line, keyword.column));
        }
        r := ResolveExpr(value.value);
        return;
      }
      return Pass;
    }

    method ResolveClass(name: Token, superclass: Option<Token>, methods: seq<Method>) returns (r: Status)
      modifies this
      ensures Outcome(Snapshot(), r) == ClassOutcome(old(Snapshot()), name, superclass, methods)
      decreases methods, 4
    {
      var enclosingClass := currentClass;
      currentClass := ClassType.INSTANCE;
      :- Declare(name);
      Define(name);
      if superclass.Some? {
        :- ResolveSubclass(name, superclass.value, methods);
      } else {
        :- ResolveThisScope(methods);
      }
      currentClass := enclosingClass;
      return Pass;
    }

    /** Resolves the superclass reference and the methods inside a scope that binds `super`. */
    method ResolveSubclass(name: Token, parent: Token, methods: seq<Method>) returns (r: Status)
      modifies this
      ensures Outcome(Snapshot(), r) == SubclassOutcome(old(Snapshot()), name, parent, methods)
      decreases methods, 3
    {
      if name.lexeme == parent.lexeme {
        return Fail(CompileError(InheritsItself, parent.line, parent.column));
      }
      currentClass := ClassType.SUBCLASS;
      :- ResolveVariable(parent);
      BeginScope();
      scopes := scopes[|scopes| - 1 := scopes[|scopes| - 1]["super" := true]];
      :- ResolveThisScope(methods);
      EndScope();
      return Pass;
    }

    /** Resolves the methods in turn inside a new scope that binds `this`. */
    method ResolveThisScope(methods: seq<Method>) returns (r: Status)
      modifies this
      ensures Outcome(Snapshot(), r) == ThisScopeOutcome(old(Snapshot()), methods)
      decreases methods, 2
    {
      BeginScope();
      scopes := scopes[|scopes| - 1 := scopes[|scopes| - 1]["this" := true]];
      var i := 0;
      ghost var inner := Snapshot();
      while i < |methods|
        invariant 0 <= i <= |methods|
        invariant Snapshot() == inner
        invariant MethodsOutcome(inner, methods) == MethodsOutcome(inner, methods[i..])
      {
        assert methods[i..][1..] == methods[i + 1..];
        :- ResolveMethod(methods[i]);
        i := i + 1;
      }
      EndScope();
      return Pass;
    }

    /** A method resolves as a function of kind MethodKind(name). */
    method ResolveMethod(m: Method) returns (r: Status)
      modifies this
      ensures Outcome(Snapshot(), r) == MethodOutcome(old(Snapshot()), m)
      decreases m, 3
    {
      r := ResolveFunction(m.declaration, MethodKind(m.name));
    }

    /** Checks that a name is not read inside its own initializer. */
    method ResolveVariable(name: Token) returns (r: Status)
      ensures Outcome(Snapshot(), r) == ExprOutcome(Snapshot(), Variable(name))
    {
      if |scopes| > 0 && name.lexeme in scopes[|scopes| - 1] && !scopes[|scopes| - 1][name.lexeme] {
        return Fail(CompileError(OwnInitializer, name.line, name.column));
      }
      return Pass;
    }

    method ResolveExpr(e: Expr) returns (r: Status)
      modifies this
      ensures Outcome(Snapshot(), r) == ExprOutcome(old(Snapshot()), e)
      decreases e, 0
    {
      match e
      case Array(elements) =>
        r := ResolveExprs(elements);
      case Assign(_, value) =>
        r := ResolveExpr(value);
      case Binary(left, _, right) =>
        :- ResolveExpr(left);
        r := ResolveExpr(right);
      case Logical(left, _, right) =>
        :- ResolveExpr(left);
        r := ResolveExpr(right);
      case Call(callee, _, arguments) =>
        :- ResolveExpr(callee);
        r := ResolveExprs(arguments);
      case Function(f) =>
        r := ResolveFunction(f, FunctionType.METHOD);
      case Get(receiver, _) =>
        r := ResolveExpr(receiver);
      case Grouping(inner) =>
        r := ResolveExpr(inner);
      case Literal(_, _) =>
        r := Pass;
      case Set(receiver, _, value) =>
        :- ResolveExpr(value);
        r := ResolveExpr(receiver);
      case Super(keyword, methodName) =>
        r := ResolveSuper(keyword, methodName);
      case This(keyword) =>
        r := ResolveThis(keyword);
      case Typeof(operand) =>
        r := ResolveExpr(operand);
      case Unary(_, operand) =>
        r := ResolveExpr(operand);
      case Variable(name) =>
        r := ResolveVariable(name);
    }

    /** `super` needs an enclosing class that has a superclass. */
    method ResolveSuper(keyword: Token, methodName: Token) returns (r: Status)
      ensures Outcome(Snapshot(), r) == ExprOutcome(Snapshot(), Super(keyword, methodName))
    {
      if currentClass == ClassType.NONE {
        r := Fail(CompileError(SuperOutsideClass, methodName.line, methodName.column));
      } else if currentClass != ClassType.SUBCLASS {
        r := Fail(CompileError(SuperWithoutSuperclass, methodName.line, methodName.column));
      } else {
        r := Pass;
      }
    }

    /** `this` needs an enclosing class. */
    method ResolveThis(keyword: Token) returns (r: Status)
      ensures Outcome(Snapshot(), r) == ExprOutcome(Snapshot(), This(keyword))
    {
      if currentClass == ClassType.NONE {
        r := Fail(CompileError(ThisOutsideClass, keyword.line, keyword.column));
      } else {
        r := Pass;
      }
    }

    /** Resolves a function body as kind, in a new scope holding its parameters. */
    method ResolveFunction(f: FunctionNode, kind: FunctionType) returns (r: Status)
      modifies this
      ensures Outcome(Snapshot(), r) == FunctionOutcome(old(Snapshot()), f, kind)
      decreases f, 2
    {
      var enclosingFunction := currentFunction;
      currentFunction := kind;
      BeginScope();
      ghost var start := Snapshot();
      var i := 0;
      while i < |f.parameters|
        invariant 0 <= i <= |f.parameters|
        invariant ParamsOutcome(start, f.parameters) == ParamsOutcome(Snapshot(), f.parameters[i..])
      {
        assert f.parameters[i..][1..] == f.parameters[i + 1..];
        :- Declare(f.parameters[i]);
        Define(f.parameters[i]);
        i := i + 1;
      }
      :- ResolveAll(f.body);
      EndScope();
      currentFunction := enclosingFunction;
      return Pass;
    }

    method BeginScope()
      modifies this
      ensures Snapshot() == Pushed(old(Snapshot()))
    {
      scopes := scopes + [map[]];
    }

    /** Pops the innermost scope; callers pair it with an earlier BeginScope. */
    method EndScope()
      requires |scopes| > 0
      modifies this
      ensures Snapshot() == Popped(old(Snapshot()))
    {
      scopes := scopes[..|scopes| - 1];
    }

    method Declare(name: Token) returns (r: Status)
      modifies this
      ensures Outcome(Snapshot(), r) == Declared(old(Snapshot()), name)
    {
      if |scopes| > 0 {
        var scope := scopes[|scopes| - 1];
        if name.lexeme in scope {
          return Fail(CompileError(AlreadyDeclared, name.line, name.column));
        }
        scopes := scopes[|scopes| - 1 := scope[name.lexeme := false]];
      }
      return Pass;
    }

    method Define(name: Token)
      modifies this
      ensures Snapshot() == Defined(old(Snapshot()), name)
    {
      if |scopes| > 0 {
        scopes := scopes[|scopes| - 1 := scopes[|scopes| - 1][name.lexeme := true]];
      }
    }
  }
}
