/**
 * The tree-walking interpreter: it evaluates expressions and executes
 * statements against a current environment, calls user functions,
 * classes and the built-in functions of literals, and allocates
 * environments, instances and arrays as it goes.
 *
 * Every evaluation takes a fuel argument that bounds the depth of calls
 * and the number of loop iterations; running out is reported as OutOfFuel.
 */
module Interpreting {
  import opened Wrappers
  import opened Tokens
  import Ast
  import opened Runtime
  import opened PhpArrays
  import opened Conversions
  import opened Operators
  import opened Natives

  /** How a statement finishes: normally, by a `return` carrying a value, or by a fault. */
  datatype Completion = Normal | Returning(value: Value) | Abrupt(fault: Fault)

  /** A literal whose value `isTruthy` rejects: `false`, `nil`, 0, "" or "0". */
  predicate FalsyLiteral(e: Ast.Expr)
  {
    e.Literal? && LiteralRule(e.kind, e.payload).Ok? && !IsTruthy(LiteralRule(e.kind, e.payload).value)
  }

  /** A literal that does not evaluate, such as a NUMBER token that is no numeral. */
  predicate FailingLiteral(e: Ast.Expr)
  {
    e.Literal? && LiteralRule(e.kind, e.payload).Err?
  }

  /** The truth of each value, as `filter` tests what it keeps. */
  function Truths(vs: seq<Value>): (keep: seq<bool>)
    reads set i | 0 <= i < |vs| && vs[i].Arr? :: vs[i].arr
    ensures |keep| == |vs|
    ensures forall i :: 0 <= i < |vs| ==> keep[i] == IsTruthy(vs[i])
  {
    seq(|vs|, i requires 0 <= i < |vs| reads if 0 <= i < |vs| && vs[i].Arr? then {vs[i].arr} else {} => IsTruthy(vs[i]))
  }

  /** What `map` stores for each element: the callback's result, or the element where the host finds that result false. */
  function MapValues(elements: seq<Value>, results: seq<Value>): (vs: seq<Value>)
    requires |results| == |elements|
    ensures |vs| == |elements|
    ensures forall i :: 0 <= i < |vs| ==> vs[i] == if HostTruthy(results[i]) then results[i] else elements[i]
  {
    seq(|elements|, i requires 0 <= i < |elements| => if HostTruthy(results[i]) then results[i] else elements[i])
  }

  /** A statement that completes without returning whatever it does: none of return, block, if or while. */
  predicate NeverReturns(s: Ast.Stmt)
  {
    !s.Return? && !s.Block? && !s.If? && !s.While?
  }

  /** The truth of a literal condition, or the fault its token raises. */
  function LiteralTruth(e: Ast.Expr): (t: Result<bool, Fault>)
    requires e.Literal?
    ensures FalsyLiteral(e) ==> t == Ok(false)
    ensures FailingLiteral(e) <==> t.Err?
  {
    var v := LiteralRule(e.kind, e.payload);
    if v.Err? then Err(v.error) else Ok(IsTruthy(v.value))
  }

  /** A runtime error at a token. */
  function ErrorAt(message: string, t: Token): (f: Fault)
    ensures f == Thrown(RuntimeError(message, t.line, t.column))
  {
    Thrown(RuntimeError(message, t.line, t.column))
  }

  /** The values a call can be made on: user functions, classes and built-in functions. */
  predicate IsCallable(v: Value)
  {
    v.Fn? || v.Class? || v.Native?
  }

  /* ---------- What values refer to ---------- */

  /** The environments the methods of a class and of its superclasses close over. */
  function ClassEnvs(c: LoxClass): set<Env>
    decreases c
  {
    (set m | m in c.methods.Values :: m.closure) + (if c.superclass.Some? then ClassEnvs(c.superclass.value) else {})
  }

  /** A method found along a class chain closes over one of the chain's environments. */
  lemma {:induction false} FoundMethodClosure(c: LoxClass, name: string)
    requires FindMethod(c, name).Some?
    ensures FindMethod(c, name).value.closure in ClassEnvs(c)
    decreases c
  {
    if name in c.methods {
      assert c.methods[name] in c.methods.Values;
    } else {
      FoundMethodClosure(c.superclass.value, name);
    }
  }

  /** The arities a call checks before calling a callable. */
  method AritiesOf(callee: Value) returns (arities: seq<nat>)
    requires IsCallable(callee)
    ensures callee.Fn? ==> arities == FunctionArities(callee.fn)
    ensures callee.Class? ==> arities == ClassArities(callee.klass)
    ensures callee.Native? && callee.native.ArrayClosure? ==> arities == ArityRule(ClosureParams(callee.native.methodName))
    ensures callee.Native? && callee.native.ToStringOf? ==> arities == [0]
    ensures callee.Native? && callee.native.StringGet? ==> arities == [1]
    ensures callee.Native? && callee.native.StringExplode? ==> arities == [0, 1]
  {
    if callee.Fn? {
      arities := FunctionArities(callee.fn);
    } else if callee.Class? {
      arities := ClassArities(callee.klass);
    } else {
      match callee.native
      case ArrayClosure(name, _) =>
        arities := Arities(ClosureParams(name));
      case ToStringOf(_) =>
        arities := [0];
      case StringGet(_) =>
        arities := [1];
      case StringExplode(_) =>
        arities := [0, 1];
    }
  }

  /** The value a parameter receives: its argument, or nil when the argument is missing or null. */
  function ArgumentFor(arguments: seq<Value>, i: nat): (v: Value)
    ensures i < |arguments| && !arguments[i].Null? ==> v == arguments[i]
    ensures i >= |arguments| || arguments[i].Null? ==> v == Nil
  {
    if i < |arguments| then NullToNil(arguments[i]) else Nil
  }

  /** The bindings a call makes: each parameter in order, a later parameter replacing an earlier one of the same name. */
  function Bindings(parameters: seq<Token>, arguments: seq<Value>): (b: map<string, Value>)
    ensures b.Keys == set p | p in parameters :: p.lexeme
  {
    if |parameters| == 0 then map[]
    else
      var init := parameters[..|parameters| - 1];
      assert parameters == init + [parameters[|parameters| - 1]];
      Bindings(init, arguments)[parameters[|parameters| - 1].lexeme := ArgumentFor(arguments, |parameters| - 1)]
  }

  /** A parameter that no later parameter repeats is bound to its own argument. */
  lemma {:induction false} BindingsBindEach(parameters: seq<Token>, arguments: seq<Value>, i: nat)
    requires i < |parameters|
    requires forall j :: i < j < |parameters| ==> parameters[j].lexeme != parameters[i].lexeme
    ensures Bindings(parameters, arguments)[parameters[i].lexeme] == ArgumentFor(arguments, i)
    decreases |parameters|
  {
    if i < |parameters| - 1 {
      var init := parameters[..|parameters| - 1];
      assert init[i] == parameters[i];
      BindingsBindEach(init, arguments, i);
    }
  }

  /** No later method of the declaration has the same name as the i-th. */
  predicate LastOfName(methods: seq<Ast.Method>, i: nat)
    requires i < |methods|
  {
    forall j :: i < j < |methods| ==> methods[j].name.lexeme != methods[i].name.lexeme
  }

  /** m holds the first i methods of a declaration as the finished map holds them all. */
  ghost predicate MethodsSoFar(methods: seq<Ast.Method>, i: nat, m: map<string, LoxFunction>, closure: Env, className: Token)
    requires i <= |methods|
  {
    && m.Keys == (set d | d in methods[..i] :: d.name.lexeme)
    && (forall k :: k in m ==> m[k].closure == closure && m[k].isInitializer == (k == "init") && m[k].name == Some(className))
    && (forall j :: 0 <= j < i && LastOfName(methods[..i], j) ==> m[methods[j].name.lexeme].declaration == methods[j].declaration)
  }

  /** Adding the i-th method, by its name, extends the map for the first i methods to one for the first i + 1. */
  lemma MethodsStep(methods: seq<Ast.Method>, i: nat, m: map<string, LoxFunction>, closure: Env, className: Token)
    requires i < |methods| && MethodsSoFar(methods, i, m, closure, className)
    ensures MethodsSoFar(methods, i + 1,
              m[methods[i].name.lexeme := LoxFunction(methods[i].declaration, closure, methods[i].name.lexeme == "init", Some(className))],
              closure, className)
  {
    var name := methods[i].name.lexeme;
    var m' := m[name := LoxFunction(methods[i].declaration, closure, name == "init", Some(className))];
    PrefixSnoc(methods, i);
    assert methods[..i + 1][i] == methods[i];
    forall j | 0 <= j < i + 1 && LastOfName(methods[..i + 1], j)
      ensures m'[methods[j].name.lexeme].declaration == methods[j].declaration
    {
      if j < i {
        assert methods[..i + 1][j] == methods[j];
        assert LastOfName(methods[..i], j);
      }
    }
  }

  /**
   * The methods of a class declaration by name: each closes over the
   * given environment and carries the class's name token, and is an
   * initializer exactly when it is named `init`; a later method replaces
   * an earlier one of the same name.
   */
  method ClassMethods(methods: seq<Ast.Method>, closure: Env, className: Token) returns (m: map<string, LoxFunction>)
    ensures m.Keys == set d | d in methods :: d.name.lexeme
    ensures forall k :: k in m ==> m[k].closure == closure && m[k].isInitializer == (k == "init") && m[k].name == Some(className)
    ensures forall i :: 0 <= i < |methods| && LastOfName(methods, i) ==> m[methods[i].name.lexeme].declaration == methods[i].declaration
  {
    m := map[];
    var i := 0;
    while i < |methods|
      invariant 0 <= i <= |methods|
      invariant MethodsSoFar(methods, i, m, closure, className)
    {
      MethodsStep(methods, i, m, closure, className);
      var name := methods[i].name.lexeme;
      m := m[name := LoxFunction(methods[i].declaration, closure, name == "init", Some(className))];
      i := i + 1;
    }
    assert methods[..i] == methods;
  }

  /** A class whose own methods all close over one known environment, with a superclass whose do too, closes only over known environments. */
  lemma ClassEnvsWithin(klass: LoxClass, closure: Env, known: set<Env>)
    requires forall k :: k in klass.methods ==> klass.methods[k].closure == closure
    requires closure in known && (klass.superclass.Some? ==> ClassEnvs(klass.superclass.value) <= known)
    ensures ClassEnvs(klass) <= known
  {
  }

  class Interpreter {
    /** The environment statements run in and names are looked up in. */
    var environment: Env
    /** Every environment, instance and array the interpreter has made or been given. */
    ghost var envs: set<Env>
    ghost var instances: set<LoxInstance>
    ghost var arrays: set<LoxArray>

    /**
     * v refers only to objects the interpreter knows; an array closure
     * names one of the array functions and `toString` wraps a literal.
     */
    ghost predicate Owns(v: Value)
      reads this`envs, this`instances, this`arrays
    {
      match v
      case Arr(a) => a in arrays
      case Fn(f) => f.closure in envs
      case Class(c) => ClassEnvs(c) <= envs
      case Instance(i) => i in instances
      case Native(ArrayClosure(name, a)) => a in arrays && name in ArrayClosureNames
      case Native(ToStringOf(w)) => IsLiteral(w) && (w.Arr? ==> w.arr in arrays)
      case _ => true
    }

    ghost predicate AllOwned(vs: seq<Value>)
      reads this`envs, this`instances, this`arrays
    {
      forall i :: 0 <= i < |vs| ==> Owns(vs[i])
    }

    /** A known environment: well formed, its chain known, its values owned. */
    ghost predicate EnvOk(e: Env)
      reads this`envs, this`instances, this`arrays, e
    {
      e.Wf() && e.Chain() <= envs && forall k :: k in e.values ==> Owns(e.values[k])
    }

    /** A known instance: its class's methods close over known environments and its fields are owned. */
    ghost predicate InstanceOk(i: LoxInstance)
      reads this`envs, this`instances, this`arrays, i
    {
      (i.klass.Some? ==> ClassEnvs(i.klass.value) <= envs) && forall k :: k in i.properties ==> Owns(i.properties[k])
    }

    /** A known array: well formed, its elements owned. */
    ghost predicate ArrayOk(a: LoxArray)
      reads this`envs, this`instances, this`arrays, a
    {
      Wf(a.value) && forall j :: 0 <= j < |a.value.entries| ==> Owns(a.value.entries[j].1)
    }

    /**
     * The interpreter's invariant: the current environment is known, and
     * every known environment, instance and array is in order.
     */
    ghost predicate Valid()
      reads this, envs, instances, arrays
    {
      environment in envs && Sound()
    }

    /** Every known environment, instance and array is in order. */
    ghost predicate Sound()
      reads this`envs, this`instances, this`arrays, envs, instances, arrays
    {
      && (forall e :: e in envs ==> EnvOk(e))
      && (forall i :: i in instances ==> InstanceOk(i))
      && (forall a :: a in arrays ==> ArrayOk(a))
    }

    /** The known objects only grow, and what is added is newly allocated. */
    twostate predicate Grew()
      reads this`envs, this`instances, this`arrays
    {
      && old(envs) <= envs && old(instances) <= instances && old(arrays) <= arrays
      && (forall e :: e in envs && e !in old(envs) ==> fresh(e))
      && (forall i :: i in instances && i !in old(instances) ==> fresh(i))
      && (forall a :: a in arrays && a !in old(arrays) ==> fresh(a))
    }

    /** What was owned stays owned as the known objects grow. */
    twostate lemma StillOwned(vs: seq<Value>)
      requires old(AllOwned(vs)) && Grew()
      ensures AllOwned(vs)
    {
      forall i | 0 <= i < |vs|
        ensures Owns(vs[i])
      {
        assert old(Owns(vs[i]));
      }
    }

    twostate lemma StillOwnedValue(v: Value)
      requires old(Owns(v)) && Grew()
      ensures Owns(v)
    {
    }

    /**
     * Soundness survives growth: the known objects that were there keep
     * their contents, and each one added is in order.
     */
    twostate lemma Extended()
      requires old(Sound())
      requires old(envs) <= envs && old(instances) <= instances && old(arrays) <= arrays
      requires forall x :: x in old(envs) ==> x.values == old(x.values)
      requires forall i :: i in old(instances) ==> i.properties == old(i.properties)
      requires forall a :: a in old(arrays) ==> a.value == old(a.value)
      requires forall x :: x in envs && x !in old(envs) ==> EnvOk(x)
      requires forall i :: i in instances && i !in old(instances) ==> InstanceOk(i)
      requires forall a :: a in arrays && a !in old(arrays) ==> ArrayOk(a)
      ensures Sound()
    {
      forall x | x in old(envs)
        ensures EnvOk(x)
      {
        assert old(EnvOk(x));
        forall k | k in x.values
          ensures Owns(x.values[k])
        {
          assert old(Owns(x.values[k]));
        }
      }
      forall i | i in old(instances)
        ensures InstanceOk(i)
      {
        assert old(InstanceOk(i));
        forall k | k in i.properties
          ensures Owns(i.properties[k])
        {
          assert old(Owns(i.properties[k]));
        }
      }
      forall a | a in old(arrays)
        ensures ArrayOk(a)
      {
        assert old(ArrayOk(a));
        forall j | 0 <= j < |a.value.entries|
          ensures Owns(a.value.entries[j].1)
        {
          assert old(Owns(a.value.entries[j].1));
        }
      }
    }

    /** A new interpreter over a fresh, empty global environment. */
    constructor()
      ensures Valid()
      ensures fresh(environment) && environment.enclosing == null && !environment.copyOnDefine && environment.values == map[]
    {
      var globals := new Env(null, false, map[]);
      environment := globals;
      envs := {globals};
      instances := {};
      arrays := {};
    }

    /* ---------- Allocation and update, one subject at a time ---------- */

    method NewEnv(enclosing: Env) returns (e: Env)
      requires Valid() && enclosing in envs
      modifies this
      ensures Valid()
      ensures fresh(e) && e in envs && e.enclosing == enclosing && e.copyOnDefine && e.values == map[]
      ensures envs == old(envs) + {e} && instances == old(instances) && arrays == old(arrays)
      ensures environment == old(environment)
    {
      e := new Env(enclosing, true, map[]);
      envs := envs + {e};
      Extended();
    }

    method DefineIn(e: Env, name: string, v: Value) returns (e': Env)
      requires Valid() && e in envs && Owns(v)
      modifies this, if e.copyOnDefine then {} else {e}
      ensures Valid() && Grew()
      ensures e' in envs && e'.values == old(e.values)[name := v]
      ensures e'.enclosing == e.enclosing && e'.copyOnDefine == e.copyOnDefine
      ensures e.copyOnDefine ==> fresh(e') && e.values == old(e.values)
      ensures !e.copyOnDefine ==> e' == e
      ensures envs == old(envs) + {e'} && instances == old(instances) && arrays == old(arrays) && environment == old(environment)
    {
      if e.copyOnDefine {
        e' := DefineCopy(e, name, v);
      } else {
        DefineInPlace(e, name, v);
        e' := e;
      }
    }

    /** Defining in a local environment: a fresh copy with the new binding joins envs. */
    method DefineCopy(e: Env, name: string, v: Value) returns (e': Env)
      requires Valid() && e in envs && Owns(v) && e.copyOnDefine
      modifies this
      ensures Valid() && Grew()
      ensures fresh(e') && e'.values == e.values[name := v] && e'.enclosing == e.enclosing && e'.copyOnDefine
      ensures envs == old(envs) + {e'} && instances == old(instances) && arrays == old(arrays) && environment == old(environment)
    {
      e' := e.Define(name, v);
      envs := envs + {e'};
      Extended();
    }

    /** Defining in the global environment: its own map gains the binding. */
    method DefineInPlace(e: Env, name: string, v: Value)
      requires Valid() && e in envs && Owns(v) && !e.copyOnDefine
      modifies e
      ensures Valid() && unchanged(this)
      ensures e.values == old(e.values)[name := v] && !e.copyOnDefine
    {
      var e' := e.Define(name, v);
      forall x | x in envs
        ensures EnvOk(x)
      {
        if x != e {
          assert old(EnvOk(x));
        }
      }
    }

    method AssignIn(e: Env, name: Token, v: Value) returns (r: Result<(), RuntimeError>)
      requires Valid() && e in envs && Owns(v)
      modifies e.Chain()
      ensures Valid() && unchanged(this)
      ensures r.Ok? <==> old(e.Get(name.lexeme)).Ok?
      ensures r.Ok? ==> e.Get(name.lexeme) == Ok(v)
      ensures r.Err? ==> r.error == RuntimeError("Undefined variable '" + name.lexeme + "'.", name.line, name.column)
    {
      r := e.Assign(name, v);
      forall x | x in envs
        ensures EnvOk(x)
      {
        assert old(EnvOk(x));
      }
    }

    lemma GetOwned(e: Env, name: string)
      requires Valid() && e in envs && e.Get(name).Ok?
      ensures Owns(e.Get(name).value)
    {
      var x := e.Owner(name);
    }

    /** Looks name up from the current environment; an unbound name is an error at line 0, column 0. */
    method Lookup(name: string) returns (r: Result<Value, Fault>)
      requires Valid()
      ensures r.Ok? <==> environment.Get(name).Ok?
      ensures r.Ok? ==> r.value == environment.Get(name).value && Owns(r.value)
      ensures r.Err? ==> r.error == Thrown(RuntimeError("Undefined variable '" + name + "'.", 0, 0))
    {
      var got := environment.Get(name);
      if got.Err? {
        r := Err(Thrown(got.error));
      } else {
        GetOwned(environment, name);
        r := Ok(got.value);
      }
    }

    method NewInstance(klass: Option<LoxClass>) returns (i: LoxInstance)
      requires Valid() && (klass.Some? ==> ClassEnvs(klass.value) <= envs)
      modifies this
      ensures Valid() && Grew()
      ensures fresh(i) && i in instances && i.klass == klass && i.properties == map[]
      ensures environment == old(environment) && envs == old(envs) && arrays == old(arrays)
    {
      i := new LoxInstance(klass);
      instances := instances + {i};
      Extended();
    }

    method SetField(i: LoxInstance, name: Token, v: Value)
      requires Valid() && i in instances && Owns(v)
      modifies i
      ensures Valid()
      ensures i.properties == old(i.properties)[name.lexeme := v]
    {
      i.Set(name, v);
    }

    method NewArray(a: PhpArray<Value>) returns (arr: LoxArray)
      requires Valid() && Wf(a) && AllOwned(Values(a))
      modifies this
      ensures Valid() && Grew()
      ensures fresh(arr) && arr in arrays && arr.value == a
      ensures environment == old(environment)
    {
      arr := new LoxArray(a);
      arrays := arrays + {arr};
      Extended();
    }

    lemma ArrayOwned(a: LoxArray)
      requires Valid() && a in arrays
      ensures AllOwned(Values(a.value))
    {
    }

    method ArrayPush(a: LoxArray, v: Value) returns (count: nat)
      requires Valid() && a in arrays && Owns(v)
      modifies a
      ensures Valid()
      ensures a.value == Pushed(old(a.value), v) && count == Count(a.value)
    {
      count := a.Push(v);
    }

    method ArrayUnshift(a: LoxArray, v: Value) returns (count: nat)
      requires Valid() && a in arrays && Owns(v)
      modifies a
      ensures Valid()
      ensures a.value == Unshifted(old(a.value), v) && count == Count(a.value)
    {
      ArrayOwned(a);
      count := a.Unshift(v);
    }

    method ArrayPop(a: LoxArray) returns (v: Value)
      requires Valid() && a in arrays
      modifies a
      ensures Valid() && Owns(v)
      ensures a.value == Popped(old(a.value))
      ensures v == (if Count(old(a.value)) == 0 then Nil else NullToNil(Values(old(a.value))[Count(old(a.value)) - 1]))
    {
      v := a.Pop();
    }

    method ArrayShift(a: LoxArray) returns (v: Value)
      requires Valid() && a in arrays
      modifies a
      ensures Valid() && Owns(v)
      ensures a.value == Shifted(old(a.value))
      ensures v == (if Count(old(a.value)) == 0 then Nil else NullToNil(Values(old(a.value))[0]))
    {
      ArrayOwned(a);
      v := a.Shift();
    }

    /** Binds a method to an instance, the bound method's closure becoming known. */
    method Bound(f: LoxFunction, i: LoxInstance) returns (g: LoxFunction)
      requires Valid() && f.closure in envs && i in instances
      modifies this
      ensures Valid() && Grew() && Owns(Fn(g))
      ensures g.declaration == f.declaration && g.isInitializer == f.isInitializer && g.name == None
      ensures fresh(g.closure) && g.closure.enclosing == f.closure && g.closure.values == map["this" := Instance(i)]
      ensures environment == old(environment)
    {
      g := Bind(f, i);
      envs := envs + {g.closure};
      Extended();
    }

    /* ---------- Expressions ---------- */

    /**
     * Evaluates an expression.  An expression never changes the current
     * environment, even when it calls a function that fails.
     */
    method Evaluate(e: Ast.Expr, fuel: nat) returns (r: Result<Value, Fault>)
      requires Valid()
      modifies this, envs, instances, arrays
      decreases fuel, 1, e, 2
      ensures Valid() && Grew() && environment == old(environment)
      ensures r.Ok? ==> Owns(r.value)
      ensures e.Literal? ==> r == LiteralRule(e.kind, e.payload) && environment.values == old(environment.values)
      ensures e.Variable? ==> (r.Ok? <==> environment.Get(e.name.lexeme).Ok?)
      ensures e.Variable? && r.Ok? ==> r.value == environment.Get(e.name.lexeme).value
      ensures e.Variable? ==> (r.Ok? <==> old(environment.Get(e.name.lexeme)).Ok?)
      ensures e.Variable? && r.Ok? ==> r.value == old(environment.Get(e.name.lexeme)).value
      ensures e.Function? ==> r == Ok(Fn(LoxFunction(e.declaration, environment, false, None)))
    {
      match e
      case Literal(kind, payload) =>
        r := LiteralRule(kind, payload);
      case Variable(name) =>
        r := Lookup(name.lexeme);
      case Assign(name, value) =>
        r := EvaluateAssign(e, fuel);
      case Binary(_, _, _) =>
        r := EvaluateBinary(e, fuel);
      case Logical(_, _, _) =>
        r := EvaluateLogical(e, fuel);
      case Unary(_, _) =>
        r := EvaluateUnary(e, fuel);
      case Typeof(_) =>
        r := EvaluateUnary(e, fuel);
      case Grouping(inner) =>
        r := Evaluate(inner, fuel);
      case Call(_, _, _) =>
        r := EvaluateCall(e, fuel);
      case Get(_, _) =>
        r := EvaluateGet(e, fuel);
      case Set(_, _, _) =>
        r := EvaluateSet(e, fuel);
      case Super(keyword, methodName) =>
        r := EvaluateSuper(methodName);
      case This(keyword) =>
        r := Lookup(keyword.lexeme);
      case Array(_) =>
        r := EvaluateArray(e, fuel);
      case Function(declaration) =>
        r := Ok(Fn(LoxFunction(declaration, environment, false, None)));
    }

    /** `-`, `!` and `typeof` apply to the value of their operand. */
    method EvaluateUnary(e: Ast.Expr, fuel: nat) returns (r: Result<Value, Fault>)
      requires (e.Unary? || e.Typeof?) && Valid()
      modifies this, envs, instances, arrays
      decreases fuel, 1, e, 1
      ensures Valid() && Grew() && environment == old(environment)
      ensures r.Ok? ==> Owns(r.value)
      ensures e.Typeof? && r.Ok? ==> r.value.Str?
    {
      var v :- Evaluate(e.operand, fuel);
      if e.Unary? {
        r := UnaryRule(e.operator, v);
      } else {
        var name :- TypeName(v);
        r := Ok(Str(name));
      }
    }

    /** A property read: the receiver is evaluated, then the property looked up on its value. */
    method EvaluateGet(e: Ast.Expr, fuel: nat) returns (r: Result<Value, Fault>)
      requires e.Get? && Valid()
      modifies this, envs, instances, arrays
      decreases fuel, 1, e, 1
      ensures Valid() && Grew() && environment == old(environment)
      ensures r.Ok? ==> Owns(r.value)
    {
      var subject :- Evaluate(e.receiver, fuel);
      r := GetProperty(subject, e.name);
    }

    /** An array literal: a new array holding the elements' values in order, keyed from 0. */
    method EvaluateArray(e: Ast.Expr, fuel: nat) returns (r: Result<Value, Fault>)
      requires e.Array? && Valid()
      modifies this, envs, instances, arrays
      decreases fuel, 1, e, 1
      ensures Valid() && Grew() && environment == old(environment)
      ensures r.Ok? ==> Owns(r.value) && r.value.Arr? && fresh(r.value.arr) && Count(r.value.arr.value) == |e.elements|
                        && r.value.arr.value == List(Values(r.value.arr.value))
    {
      var values :- EvaluateAll(e.elements, fuel);
      var arr := NewArray(List(values));
      r := Ok(Arr(arr));
    }

    /** The value is evaluated, then assignment to the nearest binding of the name; the value is the result. */
    method EvaluateAssign(e: Ast.Expr, fuel: nat) returns (r: Result<Value, Fault>)
      requires e.Assign? && Valid()
      modifies this, envs, instances, arrays
      decreases fuel, 1, e, 1
      ensures Valid() && Grew() && environment == old(environment)
      ensures r.Ok? ==> Owns(r.value) && environment.Get(e.name.lexeme) == Ok(r.value)
    {
      var v :- Evaluate(e.value, fuel);
      var assignment := AssignIn(environment, e.name, v);
      if assignment.Err? {
        return Err(Thrown(assignment.error));
      }
      r := Ok(v);
    }


    /** Both operands are evaluated, left first, before the operator is applied; `+` on two arrays makes a new one. */
    method EvaluateBinary(e: Ast.Expr, fuel: nat) returns (r: Result<Value, Fault>)
      requires e.Binary? && Valid()
      modifies this, envs, instances, arrays
      decreases fuel, 1, e, 1
      ensures Valid() && Grew() && environment == old(environment)
      ensures r.Ok? ==> Owns(r.value)
    {
      var left :- Evaluate(e.left, fuel);
      var right :- Evaluate(e.right, fuel);
      r := ApplyBinary(e.operator, left, right);
    }

    /**
     * r is what the interpreter makes of a binary rule's outcome: its
     * fault, its plain value, or for a merge an array of the left
     * operand's elements followed by the right one's.
     */
    ghost predicate BinaryApplied(rule: Result<BinaryResult, Fault>, left: Value, right: Value, r: Result<Value, Fault>)
      reads if r.Ok? && r.value.Arr? then {r.value.arr} else {}
      reads if left.Arr? then {left.arr} else {}
      reads if right.Arr? then {right.arr} else {}
    {
      && (rule.Err? ==> r == Err(rule.error))
      && (rule.Ok? && rule.value.Plain? ==> r == Ok(rule.value.value))
      && (rule.Ok? && rule.value.Merge? && left.Arr? && right.Arr? ==>
            r.Ok? && r.value.Arr? && Values(r.value.arr.value) == Values(left.arr.value) + Values(right.arr.value))
    }

    /** Applies a binary operator to its operands' values; `+` on two arrays makes a new array of both arrays' elements. */
    method ApplyBinary(operator: Token, left: Value, right: Value) returns (r: Result<Value, Fault>)
      requires Valid() && Owns(left) && Owns(right)
      modifies this
      ensures Valid() && Grew() && environment == old(environment)
      ensures r.Ok? ==> Owns(r.value)
      ensures BinaryApplied(BinaryRule(operator, left, right), left, right, r)
      ensures r.Ok? && r.value.Arr? ==> fresh(r.value.arr)
    {
      var result :- BinaryRule(operator, left, right);
      match result
      case Plain(v) =>
        r := Ok(v);
      case Merge(a, b) =>
        ArrayOwned(a);
        ArrayOwned(b);
        var merged := NewArray(Merged(a.value, b.value));
        r := Ok(Arr(merged));
    }

    /**
     * The left operand is evaluated first and is the result when it
     * decides; otherwise the right operand is evaluated and its
     * truthiness, as a boolean literal, is the result.
     */
    method EvaluateLogical(e: Ast.Expr, fuel: nat) returns (r: Result<Value, Fault>)
      requires e.Logical? && Valid()
      modifies this, envs, instances, arrays
      decreases fuel, 1, e, 1
      ensures Valid() && Grew() && environment == old(environment)
      ensures r.Ok? ==> Owns(r.value)
      ensures e.left.Literal? && e.right.Literal? ==>
        var left, right := LiteralRule(e.left.kind, e.left.payload), LiteralRule(e.right.kind, e.right.payload);
        left.Ok? && right.Ok? ==> r == Ok(Logical(e.operator, left.value, right.value))
    {
      var left :- Evaluate(e.left, fuel);
      if ShortCircuits(e.operator, left) {
        return Ok(left);
      }
      var right :- Evaluate(e.right, fuel);
      r := Ok(Bool(IsTruthy(right)));
    }

    /** The receiver is checked before the value is evaluated; a literal refuses the write only after it. */
    method EvaluateSet(e: Ast.Expr, fuel: nat) returns (r: Result<Value, Fault>)
      requires e.Set? && Valid()
      modifies this, envs, instances, arrays
      decreases fuel, 1, e, 1
      ensures Valid() && Grew() && environment == old(environment)
      ensures r.Ok? ==> Owns(r.value)
    {
      var subject :- Evaluate(e.receiver, fuel);
      if !subject.Instance? && !IsLiteral(subject) {
        return Err(ErrorAt("Only instances have fields.", e.name));
      }
      var v :- Evaluate(e.value, fuel);
      if !subject.Instance? {
        return Err(ErrorAt("Can't add property to literal.", e.name));
      }
      SetField(subject.instance, e.name, v);
      r := Ok(v);
    }

    /**
     * A property read: a literal hands out its functions; an instance
     * gives its field, else its class's method bound to it, else an
     * undefined-property error; anything else has no properties.
     */
    method GetProperty(subject: Value, name: Token) returns (r: Result<Value, Fault>)
      requires Valid() && Owns(subject)
      modifies this
      ensures Valid() && Grew() && environment == old(environment)
      ensures r.Ok? ==> Owns(r.value)
      ensures IsLiteral(subject) ==> r == LiteralProperty(subject, name)
      ensures subject.Instance? && name.lexeme in subject.instance.properties ==> r == Ok(subject.instance.properties[name.lexeme])
      ensures subject.Instance? && subject.instance.Lookup(name.lexeme).Missing? ==>
                r == Err(ErrorAt("Undefined property '" + name.lexeme + "'.", name))
      ensures subject.Instance? && subject.instance.Lookup(name.lexeme).Method? ==>
                r.Ok? && r.value.Fn? && r.value.fn.declaration == subject.instance.Lookup(name.lexeme).fn.declaration
                && r.value.fn.closure.values == map["this" := subject]
      ensures !subject.Instance? && !IsLiteral(subject) ==> r == Err(ErrorAt("Only instances have properties.", name))
    {
      if IsLiteral(subject) {
        r := LiteralProperty(subject, name);
      } else if subject.Instance? {
        var i := subject.instance;
        match i.Lookup(name.lexeme)
        case Field(v) =>
          r := Ok(v);
        case Method(f) =>
          FoundMethodClosure(i.klass.value, name.lexeme);
          var g := Bound(f, i);
          r := Ok(Fn(g));
        case Missing =>
          r := Err(ErrorAt("Undefined property '" + name.lexeme + "'.", name));
      } else {
        r := Err(ErrorAt("Only instances have properties.", name));
      }
    }

    /**
     * `super.m`: reads `super` and `this` from the current environment,
     * finds m from the superclass up and binds it to `this`.
     */
    method EvaluateSuper(methodName: Token) returns (r: Result<Value, Fault>)
      requires Valid()
      modifies this
      ensures Valid() && Grew() && environment == old(environment)
      ensures r.Ok? ==> Owns(r.value)
      ensures environment.Get("super").Err? ==> r == Err(Thrown(environment.Get("super").error))
      ensures r.Ok? ==> SuperBinding(environment.Get("super"), environment.Get("this"), methodName.lexeme, r.value)
    {
      var superclass := Lookup("super");
      if superclass.Err? {
        return Err(superclass.error);
      }
      var subject := Lookup("this");
      if subject.Err? {
        return Err(subject.error);
      }
      ghost var found := environment.Get("super");
      ghost var self := environment.Get("this");
      r := BindSuper(superclass.value, subject.value, methodName);
      assert environment.Get("super") == found && environment.Get("this") == self;
    }

    /** v is `super.name` for the given lookups of `super` and `this`: the method found from the superclass up, bound to the instance. */
    ghost predicate SuperBinding(superclass: Result<Value, RuntimeError>, subject: Result<Value, RuntimeError>, name: string, v: Value)
      reads if v.Fn? then {v.fn.closure} else {}
    {
      && superclass.Ok? && superclass.value.Class? && subject.Ok? && subject.value.Instance?
      && FindMethod(superclass.value.klass, name).Some?
      && v.Fn? && v.fn.closure.values == map["this" := subject.value]
      && v.fn.declaration == FindMethod(superclass.value.klass, name).value.declaration
    }

    /** Finds the method from the superclass up and binds it to the instance; the host fails on a superclass that is not a class or an object that is not an instance. */
    method BindSuper(superclass: Value, subject: Value, methodName: Token) returns (r: Result<Value, Fault>)
      requires Valid() && Owns(superclass) && Owns(subject)
      modifies this
      ensures Valid() && Grew() && environment == old(environment)
      ensures r.Ok? ==> Owns(r.value)
      ensures !superclass.Class? ==> r == Err(HostFailure(None))
      ensures superclass.Class? && FindMethod(superclass.klass, methodName.lexeme).None? ==>
                r == Err(ErrorAt("Undefined property '" + methodName.lexeme + "'.", methodName))
      ensures r.Ok? <==> superclass.Class? && FindMethod(superclass.klass, methodName.lexeme).Some? && subject.Instance?
      ensures r.Ok? ==> SuperBinding(Ok(superclass), Ok(subject), methodName.lexeme, r.value)
    {
      if !superclass.Class? {
        return Err(HostFailure(None));
      }
      var found := FindMethod(superclass.klass, methodName.lexeme);
      if found.None? {
        return Err(ErrorAt("Undefined property '" + methodName.lexeme + "'.", methodName));
      }
      if !subject.Instance? {
        if IsLiteral(subject) {
          return Err(Unmodelled("a literal bound as this"));
        }
        return Err(HostFailure(None));
      }
      FoundMethodClosure(superclass.klass, methodName.lexeme);
      var g := Bound(found.value, subject.instance);
      r := Ok(Fn(g));
    }

    /** The expressions evaluated left to right; the first fault stops the rest. */
    method EvaluateAll(es: seq<Ast.Expr>, fuel: nat) returns (r: Result<seq<Value>, Fault>)
      requires Valid()
      modifies this, envs, instances, arrays
      decreases fuel, 1, es, 1
      ensures Valid() && Grew() && environment == old(environment)
      ensures r.Ok? ==> |r.value| == |es| && AllOwned(r.value)
    {
      var values: seq<Value> := [];
      var i := 0;
      while i < |es|
        invariant 0 <= i <= |es| && |values| == i
        invariant Valid() && Grew() && environment == old(environment)
        invariant AllOwned(values)
      {
        var v :- Evaluate(es[i], fuel);
        values := values + [v];
        i := i + 1;
      }
      r := Ok(values);
    }

    /**
     * A call: the callee is evaluated and must be callable, then the
     * arguments, then their count is checked against the callee's
     * arities; a fault raised by the call itself is re-raised at the
     * parenthesis.
     */
    method EvaluateCall(e: Ast.Expr, fuel: nat) returns (r: Result<Value, Fault>)
      requires e.Call? && Valid()
      modifies this, envs, instances, arrays
      decreases fuel, 1, e, 1
      ensures Valid() && Grew() && environment == old(environment)
      ensures r.Ok? ==> Owns(r.value)
      ensures e.callee.Literal? && LiteralRule(e.callee.kind, e.callee.payload).Ok? ==>
                r == Err(ErrorAt("Can only call functions and classes.", e.paren))
      ensures e.callee.Variable? && old(environment.Get(e.callee.name.lexeme)).Ok?
              && !IsCallable(old(environment.Get(e.callee.name.lexeme)).value) ==>
                r == Err(ErrorAt("Can only call functions and classes.", e.paren))
    {
      var callee :- Evaluate(e.callee, fuel);
      if !IsCallable(callee) {
        return Err(ErrorAt("Can only call functions and classes.", e.paren));
      }
      var arguments :- EvaluateAll(e.arguments, fuel);
      var arities := AritiesOf(callee);
      var accepted :- ArityCheck(arities, |arguments|, e.paren);
      var result := Invoke(callee, arguments, fuel);
      if result.Err? {
        return Err(Rewrapped(result.error, e.paren.line, e.paren.column));
      }
      r := Ok(result.value);
    }

    /* ---------- Calls ---------- */

    method Invoke(callee: Value, arguments: seq<Value>, fuel: nat) returns (r: Result<Value, Fault>)
      requires Valid() && IsCallable(callee) && Owns(callee) && AllOwned(arguments)
      modifies this, envs, instances, arrays
      decreases fuel, 0, 7
      ensures Valid() && Grew() && environment == old(environment)
      ensures r.Ok? ==> Owns(r.value)
      ensures callee.Class? && r.Ok? ==> r.value.Instance? && r.value.instance.klass == Some(callee.klass)
      ensures callee.Fn? && fuel == 0 ==> r == Err(OutOfFuel)
      ensures callee.Fn? && callee.fn.isInitializer && r.Ok? ==> callee.fn.closure.Get("this") == Ok(r.value)
      ensures callee.Native? && callee.native.ArrayClosure? && callee.native.methodName in ArrayQueries ==>
                r == ArrayQuery(callee.native.methodName, old(callee.native.target.value), First(arguments))
      ensures callee.Native? && callee.native.ArrayClosure? && callee.native.methodName in ArrayMutators ==>
                callee.native.target.value == Mutated(callee.native.methodName, old(callee.native.target.value), First(arguments))
      ensures callee.Native? && callee.native.ToStringOf? ==> r == ToStringResult(callee.native.wrapped)
      ensures callee.Native? && callee.native.StringGet? ==> (r.Ok? <==> ToIndex(First(arguments)).Ok?)
      ensures callee.Native? && callee.native.StringGet? && r.Ok? ==> r.value == CharAt(callee.native.text, ToIndex(First(arguments)).value)
      ensures callee.Native? && callee.native.StringExplode? ==> (r.Ok? <==> ExplodeSeparator(First(arguments)).Ok?)
      ensures callee.Native? && callee.native.StringExplode? && r.Ok? ==>
                r.value.Arr? && r.value.arr.value == List(ExplodePieces(ExplodeSeparator(First(arguments)).value, callee.native.text))
    {
      if callee.Fn? {
        r := CallFunction(callee.fn, arguments, fuel);
      } else if callee.Class? {
        r := CallClass(callee.klass, arguments, fuel);
      } else {
        r := CallNative(callee.native, arguments, fuel);
      }
    }

    /**
     * Calls a user function: a new local environment over the closure
     * binds each parameter to its argument (nil when missing or null),
     * the body runs in it, and the result is the returned value, null
     * when the body ends without return, or `this` of the closure for an
     * initializer whichever way it ends.
     */
    method CallFunction(f: LoxFunction, arguments: seq<Value>, fuel: nat) returns (r: Result<Value, Fault>)
      requires Valid() && f.closure in envs && AllOwned(arguments)
      modifies this, envs, instances, arrays
      decreases fuel, 0, 2
      ensures Valid() && Grew() && environment == old(environment)
      ensures r.Ok? ==> Owns(r.value)
      ensures fuel == 0 ==> r == Err(OutOfFuel)
      ensures f.isInitializer && r.Ok? ==> f.closure.Get("this") == Ok(r.value)
    {
      if fuel == 0 {
        return Err(OutOfFuel);
      }
      var env := BindParameters(f.closure, f.declaration.parameters, arguments);
      var completion := ExecuteBlock(f.declaration.body, env, fuel - 1);
      r := CallResult(f, completion);
    }

    /**
     * What a call of f gives once its body has run: the fault that stopped
     * it; for an initializer, `this` of its closure whichever way the body
     * ended; otherwise the returned value, or null without a return.
     */
    method CallResult(f: LoxFunction, completion: Completion) returns (r: Result<Value, Fault>)
      requires Valid() && f.closure in envs && (completion.Returning? ==> Owns(completion.value))
      ensures r.Ok? ==> Owns(r.value)
      ensures completion.Abrupt? ==> r == Err(completion.fault)
      ensures !completion.Abrupt? && f.isInitializer ==> (r.Ok? <==> f.closure.Get("this").Ok?)
      ensures f.isInitializer && r.Ok? ==> f.closure.Get("this") == Ok(r.value)
      ensures completion.Returning? && !f.isInitializer ==> r == Ok(completion.value)
      ensures completion.Normal? && !f.isInitializer ==> r == Ok(Null)
    {
      if completion.Abrupt? {
        return Err(completion.fault);
      }
      if f.isInitializer {
        var self := f.closure.Get("this");
        if self.Err? {
          return Err(Thrown(self.error));
        }
        GetOwned(f.closure, "this");
        r := Ok(self.value);
      } else if completion.Returning? {
        r := Ok(completion.value);
      } else {
        r := Ok(Null);
      }
    }

    /** A new local environment over the closure binding the parameters in order, each to its argument. */
    method BindParameters(closure: Env, parameters: seq<Token>, arguments: seq<Value>) returns (bound: Env)
      requires Valid() && closure in envs && AllOwned(arguments)
      modifies this
      ensures Valid() && Grew() && environment == old(environment)
      ensures bound in envs && fresh(bound) && bound.enclosing == closure && bound.copyOnDefine
      ensures bound.values == Bindings(parameters, arguments)
    {
      bound := NewEnv(closure);
      var i := 0;
      while i < |parameters|
        invariant 0 <= i <= |parameters|
        invariant Valid() && Grew() && environment == old(environment) && AllOwned(arguments)
        invariant bound in envs && fresh(bound) && bound.enclosing == closure && bound.copyOnDefine
        invariant bound.values == Bindings(parameters[..i], arguments)
      {
        PrefixSnoc(parameters, i);
        assert parameters[..i + 1][..i] == parameters[..i];
        label Before:
        bound := DefineIn(bound, parameters[i].lexeme, ArgumentFor(arguments, i));
        StillOwned@Before(arguments);
        i := i + 1;
      }
      assert parameters[..i] == parameters;
    }

    /** Calling a class makes a new instance, runs its initializer bound to it if the chain has one, and gives the instance. */

    method CallClass(k: LoxClass, arguments: seq<Value>, fuel: nat) returns (r: Result<Value, Fault>)
      requires Valid() && ClassEnvs(k) <= envs && AllOwned(arguments)
      modifies this, envs, instances, arrays
      decreases fuel, 0, 6
      ensures Valid() && Grew() && environment == old(environment)
      ensures r.Ok? ==> Owns(r.value)
      ensures r.Ok? ==> r.value.Instance? && fresh(r.value.instance) && r.value.instance.klass == Some(k)
      ensures FindMethod(k, "init").None? ==> r.Ok? && r.value.instance.properties == map[]
    {
      var instance := NewInstance(Some(k));
      StillOwned(arguments);
      var init := FindMethod(k, "init");
      if init.Some? {
        FoundMethodClosure(k, "init");
        var result := Initialize(init.value, instance, arguments, fuel);
        if result.Err? { return Err(result.error); }
      }
      r := Ok(Instance(instance));
    }

    /** Runs an initializer bound to a new instance; its result is dropped. */
    method Initialize(init: LoxFunction, instance: LoxInstance, arguments: seq<Value>, fuel: nat) returns (r: Result<Value, Fault>)
      requires Valid() && init.closure in envs && instance in instances && AllOwned(arguments)
      modifies this, envs, instances, arrays
      decreases fuel, 0, 4
      ensures Valid() && Grew() && environment == old(environment)
    {
      var bound := Bound(init, instance);
      r := CallFunction(bound, arguments, fuel);
    }

    /** The built-in functions of literals. */
    method CallNative(n: Native, arguments: seq<Value>, fuel: nat) returns (r: Result<Value, Fault>)
      requires Valid() && Owns(Native(n)) && AllOwned(arguments)
      modifies this, envs, instances, arrays
      decreases fuel, 0, 6
      ensures Valid() && Grew() && environment == old(environment)
      ensures r.Ok? ==> Owns(r.value)
      ensures n.ArrayClosure? && n.methodName in ArrayQueries ==> r == ArrayQuery(n.methodName, old(n.target.value), First(arguments))
      ensures n.ArrayClosure? && n.methodName in ArrayMutators ==>
                n.target.value == Mutated(n.methodName, old(n.target.value), First(arguments))
      ensures n.ToStringOf? ==> r == ToStringResult(n.wrapped)
      ensures n.StringGet? ==> (r.Ok? <==> ToIndex(First(arguments)).Ok?)
      ensures n.StringGet? && r.Ok? ==> r.value == CharAt(n.text, ToIndex(First(arguments)).value)
      ensures n.StringExplode? ==> (r.Ok? <==> ExplodeSeparator(First(arguments)).Ok?)
      ensures n.StringExplode? && r.Ok? ==>
                r.value.Arr? && fresh(r.value.arr) && r.value.arr.value == List(ExplodePieces(ExplodeSeparator(First(arguments)).value, n.text))
    {
      match n
      case ArrayClosure(name, target) =>
        r := CallArrayClosure(name, target, arguments, fuel);
      case ToStringOf(wrapped) =>
        r := ToStringResult(wrapped);
      case StringGet(text) =>
        var index :- ToIndex(First(arguments));
        r := Ok(CharAt(text, index));
      case StringExplode(text) =>
        var separator :- ExplodeSeparator(First(arguments));
        var pieces := ExplodePieces(separator, text);
        var arr := NewArray(List(pieces));
        r := Ok(Arr(arr));
    }

    /**
     * An array closure: the interpreter is spliced into the arguments
     * where the closure asks for it, then the closure reads its array,
     * calls back for each element, or changes or copies the array.
     */
    method CallArrayClosure(name: string, target: LoxArray, arguments: seq<Value>, fuel: nat) returns (r: Result<Value, Fault>)
      requires Valid() && target in arrays && name in ArrayClosureNames && AllOwned(arguments)
      modifies this, envs, instances, arrays
      decreases fuel, 0, 5
      ensures Valid() && Grew() && environment == old(environment)
      ensures r.Ok? ==> Owns(r.value)
      ensures name in ArrayQueries ==> r == ArrayQuery(name, old(target.value), First(arguments))
      ensures name in ArrayMutators ==> target.value == Mutated(name, old(target.value), First(arguments))
    {
      var first, second := UserArguments(name, arguments);
      ClosureKindsDisjoint();
      if name in ArrayQueries {
        r := Query(name, target, first);
      } else if name in CallbackClosures {
        ghost var kept, results;
        r, kept, results := CallbackClosure(name, target, first, fuel);
      } else {
        r := ArrayChange(name, target, first, second);
      }
    }

    /** The array closures that call back a user function for each element. */
    method CallbackClosure(name: string, target: LoxArray, callback: Value, fuel: nat) returns (r: Result<Value, Fault>, ghost kept: seq<bool>, ghost results: seq<Value>)
      requires Valid() && target in arrays && name in CallbackClosures && Owns(callback)
      modifies this, envs, instances, arrays
      decreases fuel, 0, 4
      ensures Valid() && Grew() && environment == old(environment)
      ensures r.Ok? ==> Owns(r.value)
      ensures name == "each" ==> (r.Ok? ==> r.value == Nil)
      ensures name != "each" ==> (r.Ok? ==> r.value.Arr? && fresh(r.value.arr))
      ensures name == "filter" && !callback.Fn? ==> r.Ok? && kept == old(Truths(Values(target.value)))
      ensures name == "filter" && r.Ok? ==>
                Wf(old(target.value)) && |kept| == Count(old(target.value))
                && r.value.arr.value == Filtered(old(target.value), kept)
      ensures name == "map" && !callback.Fn? ==> r.Ok? && r.value.arr.value == old(target.value)
      ensures name == "map" && callback.Fn? && r.Ok? ==>
                Wf(old(target.value)) && |results| == Count(old(target.value))
                && r.value.arr.value == Mapped(old(target.value), MapValues(Values(old(target.value)), results))
    {
      kept, results := [], [];
      if name == "each" {
        r := EachClosure(target, callback, fuel);
      } else if name == "filter" {
        r, kept := FilterClosure(target, callback, fuel);
      } else {
        r, results := MapClosure(target, callback, fuel);
      }
    }

    /** The reading closures of an array; what they return is owned because the array's elements are. */
    method Query(name: string, target: LoxArray, argument: Value) returns (r: Result<Value, Fault>)
      requires Valid() && target in arrays && name in ArrayQueries
      ensures r == ArrayQuery(name, target.value, argument)
      ensures r.Ok? ==> Owns(r.value)
    {
      r := ArrayQuery(name, target.value, argument);
      if r.Ok? && !IsScalar(r.value) {
        var j :| 0 <= j < |Values(target.value)| && Values(target.value)[j] == r.value;
        assert target.value.entries[j].1 == r.value;
      }
    }

    /** The array closures that change their array in place or build a new one from it. */
    method ArrayChange(name: string, target: LoxArray, first: Value, second: Value) returns (r: Result<Value, Fault>)
      requires Valid() && target in arrays && Owns(first) && Owns(second)
      requires name in {"pop", "push", "reverse", "shift", "slice", "unshift"}
      modifies this, target
      ensures Valid() && Grew() && environment == old(environment)
      ensures r.Ok? ==> Owns(r.value)
      ensures name in ArrayMutators ==> target.value == Mutated(name, old(target.value), first)
      ensures name == "push" || name == "unshift" ==> r == Ok(Num(Count(target.value) as real, true))
      ensures name == "pop" ==>
                r == Ok(if Count(old(target.value)) == 0 then Nil else NullToNil(Values(old(target.value))[Count(old(target.value)) - 1]))
      ensures name == "shift" ==>
                r == Ok(if Count(old(target.value)) == 0 then Nil else NullToNil(Values(old(target.value))[0]))
      ensures name == "reverse" || name == "slice" ==> target.value == old(target.value)
      ensures name == "reverse" ==> r.Ok? && r.value.Arr? && fresh(r.value.arr) && r.value.arr.value == Reversed(target.value)
      ensures name == "slice" ==> (r.Ok? <==> ToIndex(first).Ok? && SliceLength(second).Ok?)
      ensures name == "slice" && r.Ok? ==>
                r.value.Arr? && fresh(r.value.arr) && r.value.arr.value == Sliced(target.value, ToIndex(first).value, SliceLength(second).value)
    {
      if name in ArrayMutators {
        r := Mutate(name, target, first);
      } else {
        r := Copy(name, target, first, second);
      }
    }

    /** `pop`, `push`, `shift` and `unshift`: change the array; the new count, or the element taken off (nil when there is none). */
    method Mutate(name: string, target: LoxArray, first: Value) returns (r: Result<Value, Fault>)
      requires Valid() && target in arrays && Owns(first) && name in ArrayMutators
      modifies target
      ensures Valid() && r.Ok? && Owns(r.value)
      ensures target.value == Mutated(name, old(target.value), first)
      ensures name == "push" || name == "unshift" ==> r == Ok(Num(Count(target.value) as real, true))
      ensures name == "pop" ==>
                r == Ok(if Count(old(target.value)) == 0 then Nil else NullToNil(Values(old(target.value))[Count(old(target.value)) - 1]))
      ensures name == "shift" ==>
                r == Ok(if Count(old(target.value)) == 0 then Nil else NullToNil(Values(old(target.value))[0]))
    {
      if name == "pop" {
        var v := ArrayPop(target);
        r := Ok(v);
      } else if name == "push" {
        var count := ArrayPush(target, first);
        r := Ok(Num(count as real, true));
      } else if name == "shift" {
        var v := ArrayShift(target);
        r := Ok(v);
      } else {
        var count := ArrayUnshift(target, first);
        r := Ok(Num(count as real, true));
      }
    }

    /** `reverse` and `slice`: a new array; the old one is left as it was. */
    method Copy(name: string, target: LoxArray, first: Value, second: Value) returns (r: Result<Value, Fault>)
      requires Valid() && target in arrays && name in {"reverse", "slice"}
      modifies this
      ensures Valid() && Grew() && environment == old(environment)
      ensures r.Ok? ==> Owns(r.value) && r.value.Arr? && fresh(r.value.arr)
      ensures name == "reverse" ==> r.Ok? && r.value.arr.value == Reversed(target.value)
      ensures name == "slice" ==> (r.Ok? <==> ToIndex(first).Ok? && SliceLength(second).Ok?)
      ensures name == "slice" && r.Ok? ==> r.value.arr.value == Sliced(target.value, ToIndex(first).value, SliceLength(second).value)
    {
      ArrayOwned(target);
      if name == "reverse" {
        var reversed := NewArray(Reversed(target.value));
        r := Ok(Arr(reversed));
      } else {
        var start :- ToIndex(first);
        var length :- SliceLength(second);
        var sliced := NewArray(Sliced(target.value, start, length));
        r := Ok(Arr(sliced));
      }
    }

    /** `each(f)`: calls a user function f with each element and its key, over the elements as they were at the call; nil. */
    method EachClosure(target: LoxArray, callback: Value, fuel: nat) returns (r: Result<Value, Fault>)
      requires Valid() && target in arrays && Owns(callback)
      modifies this, envs, instances, arrays
      decreases fuel, 0, 3
      ensures Valid() && Grew() && environment == old(environment)
      ensures r.Ok? ==> r.value == Nil
      ensures !callback.Fn? ==> r == Ok(Nil) && unchanged(this)
    {
      if !callback.Fn? {
        return Ok(Nil);
      }
      var entries := target.value.entries;
      ArrayOwned(target);
      var i := 0;
      while i < |entries|
        invariant 0 <= i <= |entries|
        invariant Valid() && Grew() && environment == old(environment) && Owns(callback)
        invariant forall j :: 0 <= j < |entries| ==> Owns(entries[j].1)
      {
        var result := CallFunction(callback.fn, [entries[i].1, Num(entries[i].0 as real, true)], fuel);
        if result.Err? {
          return Err(result.error);
        }
        i := i + 1;
      }
      r := Ok(Nil);
    }

    /**
     * `filter(f)`: a new array of the entries, keys kept, for which f
     * returns a truthy value, or that are truthy themselves without f.
     */
    method FilterClosure(target: LoxArray, callback: Value, fuel: nat) returns (r: Result<Value, Fault>, ghost kept: seq<bool>)
      requires Valid() && target in arrays && Owns(callback)
      modifies this, envs, instances, arrays
      decreases fuel, 0, 3
      ensures Valid() && Grew() && environment == old(environment)
      ensures r.Ok? ==> Owns(r.value)
      ensures !callback.Fn? ==> r.Ok? && kept == old(Truths(Values(target.value)))
      ensures r.Ok? ==> Wf(old(target.value)) && |kept| == Count(old(target.value))
      ensures r.Ok? ==> r.value.Arr? && fresh(r.value.arr) && r.value.arr.value == Filtered(old(target.value), kept)
    {
      var a := target.value;
      ArrayOwned(target);
      var keep: seq<bool> := [];
      if !callback.Fn? {
        keep := Truths(Values(a));
      } else {
        var i := 0;
        while i < |a.entries|
          invariant 0 <= i <= |a.entries| && |keep| == i
          invariant Valid() && Grew() && environment == old(environment) && Owns(callback)
          invariant forall j :: 0 <= j < |a.entries| ==> Owns(a.entries[j].1)
        {
          var result := CallFunction(callback.fn, [a.entries[i].1], fuel);
          if result.Err? {
            return Err(result.error), keep;
          }
          keep := keep + [IsTruthy(result.value)];
          i := i + 1;
        }
      }
      kept := keep;
      var b := Filtered(a, keep);
      forall j | 0 <= j < |b.entries|
        ensures Owns(b.entries[j].1)
      {
        var x :| x in a.entries && x == b.entries[j];
      }
      var filtered := NewArray(b);
      r := Ok(Arr(filtered));
    }

    /**
     * `map(f)`: a new array with the same keys whose elements are what f
     * returns for each element, the element itself where that result is
     * false to the host; without a user function, a copy.
     */
    method MapClosure(target: LoxArray, callback: Value, fuel: nat) returns (r: Result<Value, Fault>, ghost results: seq<Value>)
      requires Valid() && target in arrays && Owns(callback)
      modifies this, envs, instances, arrays
      decreases fuel, 0, 3
      ensures Valid() && Grew() && environment == old(environment)
      ensures r.Ok? ==> Owns(r.value)
      ensures r.Ok? ==> r.value.Arr? && fresh(r.value.arr) && Keys(r.value.arr.value) == Keys(old(target.value))
      ensures !callback.Fn? ==> r.Ok? && r.value.arr.value == old(target.value)
      ensures callback.Fn? && r.Ok? ==> Wf(old(target.value)) && |results| == Count(old(target.value))
      ensures callback.Fn? && r.Ok? ==>
                r.value.arr.value == Mapped(old(target.value), MapValues(Values(old(target.value)), results))
    {
      var a := target.value;
      ArrayOwned(target);
      results := [];
      if !callback.Fn? {
        var copy := NewArray(a);
        return Ok(Arr(copy)), results;
      }
      var mapped: seq<Value> := [];
      var i := 0;
      while i < |a.entries|
        invariant 0 <= i <= |a.entries| && |mapped| == i && |results| == i
        invariant Valid() && Grew() && environment == old(environment) && Owns(callback)
        invariant AllOwned(Values(a)) && AllOwned(mapped)
        invariant mapped == MapValues(Values(a)[..i], results)
      {
        var element := a.entries[i].1;
        var result := CallFunction(callback.fn, [element], fuel);
        if result.Err? {
          return Err(result.error), results;
        }
        mapped := mapped + [if HostTruthy(result.value) then result.value else element];
        results := results + [result.value];
        i := i + 1;
      }
      assert Values(a)[..i] == Values(a);
      var m := NewArray(Mapped(a, mapped));
      r := Ok(Arr(m));
    }

    /* ---------- Statements ---------- */

    /**
     * Executes a statement.  A declaration binds its name in the current
     * environment (a copy of it, for a local one); the current
     * environment keeps its place in the chain.
     */
    method Execute(s: Ast.Stmt, fuel: nat) returns (c: Completion)
      requires Valid()
      modifies this, envs, instances, arrays
      decreases fuel, 1, s, 2
      ensures Valid() && Grew()
      ensures c.Returning? ==> Owns(c.value)
      ensures environment.enclosing == old(environment).enclosing
      ensures environment.copyOnDefine == old(environment).copyOnDefine
      ensures !old(environment).copyOnDefine ==> environment == old(environment)
      ensures NeverReturns(s) ==> !c.Returning?
      ensures s.Return? && s.value.None? ==> c == Returning(Null)
      ensures s.Var? && s.initializer.None? ==> c == Normal && environment.values == old(environment.values)[s.name.lexeme := Null]
      ensures s.FunctionDecl? ==> c == Normal
      ensures s.FunctionDecl? ==> environment.values == old(environment.values)[s.name.lexeme := Fn(LoxFunction(s.declaration, old(environment), false, Some(s.name)))]
    {
      match s
      case Expression(expression) =>
        var v := Evaluate(expression, fuel);
        c := if v.Err? then Abrupt(v.error) else Normal;
      case Var(_, _) =>
        c := ExecuteVar(s, fuel);
      case Block(statements) =>
        var local := NewEnv(environment);
        c := ExecuteBlock(statements, local, fuel);
      case If(_, _, _) =>
        ghost var test, taken;
        c, test, taken := ExecuteIf(s, fuel);
      case While(_, _) =>
        ghost var tests;
        c, tests := ExecuteWhile(s, fuel);
      case Return(keyword, value) =>
        var v := ValueOrNull(value, fuel);
        c := if v.Err? then Abrupt(v.error) else Returning(v.value);
      case FunctionDecl(name, declaration) =>
        var f := LoxFunction(declaration, environment, false, Some(name));
        Declare(name.lexeme, Fn(f));
        c := Normal;
      case Class(_, _, _) =>
        c := ExecuteClass(s, fuel);
    }

    /**
     * A while loop runs its body while the condition is truthy; a return
     * or a fault leaves it.  Each iteration spends one unit of fuel.
     */
    method ExecuteWhile(s: Ast.Stmt, fuel: nat) returns (c: Completion, ghost tests: seq<Result<bool, Fault>>)
      requires s.While? && Valid()
      modifies this, envs, instances, arrays
      decreases fuel, 1, s, 1
      ensures Valid() && Grew()
      ensures c.Returning? ==> Owns(c.value)
      ensures environment.enclosing == old(environment).enclosing
      ensures environment.copyOnDefine == old(environment).copyOnDefine
      ensures !old(environment).copyOnDefine ==> environment == old(environment)
      ensures FailingLiteral(s.condition) ==> c == Abrupt(LiteralRule(s.condition.kind, s.condition.payload).error)
      ensures FalsyLiteral(s.condition) ==> c == Normal && environment == old(environment)
      ensures 1 <= |tests| <= fuel + 1
      ensures forall k :: 0 <= k < |tests| - 1 ==> tests[k] == Ok(true)
      ensures tests[|tests| - 1].Err? ==> c == Abrupt(tests[|tests| - 1].error)
      ensures c.Normal? <==> tests[|tests| - 1] == Ok(false)
      ensures c.Returning? ==> tests[|tests| - 1] == Ok(true) && !NeverReturns(s.body)
      ensures s.condition.Literal? ==> forall k :: 0 <= k < |tests| ==> tests[k] == LiteralTruth(s.condition)
    {
      var budget: nat := fuel;
      tests := [];
      while true
        invariant Valid() && Grew()
        invariant environment.enclosing == old(environment).enclosing
        invariant environment.copyOnDefine == old(environment).copyOnDefine
        invariant !old(environment).copyOnDefine ==> environment == old(environment)
        invariant FalsyLiteral(s.condition) ==> environment == old(environment)
        invariant budget <= fuel && |tests| == fuel - budget
        invariant forall k :: 0 <= k < |tests| ==> tests[k] == Ok(true)
        invariant s.condition.Literal? ==> forall k :: 0 <= k < |tests| ==> tests[k] == LiteralTruth(s.condition)
        decreases budget
      {
        var test := Evaluate(s.condition, fuel);
        tests := tests + [if test.Err? then Err(test.error) else Ok(IsTruthy(test.value))];
        if test.Err? {
          return Abrupt(test.error), tests;
        }
        if !IsTruthy(test.value) {
          return Normal, tests;
        }
        var done := Execute(s.body, fuel);
        if !done.Normal? {
          return done, tests;
        }
        if budget == 0 {
          return Abrupt(OutOfFuel), tests;
        }
        budget := budget - 1;
      }
    }

    /**
     * A class declaration: the superclass variable must hold a class; the
     * name is bound to null first; with a superclass, the methods close
     * over a new environment binding `super`; the class is then assigned
     * to its name in the environment the declaration runs in.
     */
    method ExecuteClass(s: Ast.Stmt, fuel: nat) returns (c: Completion)
      requires s.Class? && Valid()
      modifies this, envs
      decreases fuel, 1, s, 1
      ensures Valid() && Grew()
      ensures !c.Returning?
      ensures environment.enclosing == old(environment).enclosing
      ensures environment.copyOnDefine == old(environment).copyOnDefine
      ensures !old(environment).copyOnDefine ==> environment == old(environment)
      ensures c.Normal? ==> environment.Get(s.name.lexeme).Ok? && environment.Get(s.name.lexeme).value.Class?
      ensures c.Normal? ==> environment.Get(s.name.lexeme).value.klass.name == s.name.lexeme
      ensures c.Normal? ==> environment.Get(s.name.lexeme).value.klass.methods.Keys == set m | m in s.methods :: m.name.lexeme
    {
      var found := SuperclassOf(s);
      if found.Err? {
        return Abrupt(found.error);
      }
      Declare(s.name.lexeme, Null);
      c := BindClass(s, found.value);
    }

    /**
     * Makes the class, its methods closing over the current environment
     * (or one binding `super`), and assigns it to its name, which the
     * declaration has just bound.
     */
    method BindClass(s: Ast.Stmt, superclass: Option<LoxClass>) returns (c: Completion)
      requires s.Class? && Valid() && (superclass.Some? ==> ClassEnvs(superclass.value) <= envs)
      modifies this, envs
      ensures Valid() && Grew()
      ensures environment.enclosing == old(environment).enclosing && environment.copyOnDefine == old(environment).copyOnDefine
      ensures !old(environment).copyOnDefine ==> environment == old(environment)
      ensures c.Normal? || c.Abrupt?
      ensures c.Normal? ==> environment.Get(s.name.lexeme).Ok? && environment.Get(s.name.lexeme).value.Class?
      ensures c.Normal? ==> environment.Get(s.name.lexeme).value.klass.name == s.name.lexeme
      ensures c.Normal? ==> environment.Get(s.name.lexeme).value.klass.superclass == superclass
      ensures c.Normal? ==> environment.Get(s.name.lexeme).value.klass.methods.Keys == set m | m in s.methods :: m.name.lexeme
    {
      var closure := MethodClosure(superclass);
      var methods := ClassMethods(s.methods, closure, s.name);
      var klass := LoxClass(s.name.lexeme, superclass, methods);
      ClassEnvsWithin(klass, closure, envs);
      var assignment := AssignIn(environment, s.name, Class(klass));
      if assignment.Err? {
        return Abrupt(Thrown(assignment.error));
      }
      c := Normal;
    }

    /** A variable declaration binds the initializer's value, null without one, in the current environment. */
    method ExecuteVar(s: Ast.Stmt, fuel: nat) returns (c: Completion)
      requires s.Var? && Valid()
      modifies this, envs, instances, arrays
      decreases fuel, 1, s, 1
      ensures Valid() && Grew() && !c.Returning?
      ensures environment.enclosing == old(environment).enclosing
      ensures environment.copyOnDefine == old(environment).copyOnDefine
      ensures !old(environment).copyOnDefine ==> environment == old(environment)
      ensures c.Normal? ==> s.name.lexeme in environment.values && Owns(environment.values[s.name.lexeme])
      ensures s.initializer.None? ==> c == Normal && environment.values == old(environment.values)[s.name.lexeme := Null]
      ensures s.initializer.Some? && s.initializer.value.Literal? ==>
        var v := LiteralRule(s.initializer.value.kind, s.initializer.value.payload);
        (v.Err? ==> c == Abrupt(v.error)) && (v.Ok? ==> c == Normal && environment.values == old(environment.values)[s.name.lexeme := v.value])
    {
      var v := ValueOrNull(s.initializer, fuel);
      if v.Err? {
        return Abrupt(v.error);
      }
      Declare(s.name.lexeme, v.value);
      c := Normal;
    }

    /** The branch the condition's truthiness selects runs; with no else branch, a false condition does nothing. */
    method ExecuteIf(s: Ast.Stmt, fuel: nat) returns (c: Completion, ghost test: Result<bool, Fault>, ghost taken: Option<Ast.Stmt>)
      requires s.If? && Valid()
      modifies this, envs, instances, arrays
      decreases fuel, 1, s, 1
      ensures Valid() && Grew()
      ensures c.Returning? ==> Owns(c.value)
      ensures environment.enclosing == old(environment).enclosing
      ensures environment.copyOnDefine == old(environment).copyOnDefine
      ensures !old(environment).copyOnDefine ==> environment == old(environment)
      ensures FailingLiteral(s.condition) ==> c == Abrupt(LiteralRule(s.condition.kind, s.condition.payload).error)
      ensures FalsyLiteral(s.condition) && s.elseBranch.None? ==> c == Normal && environment == old(environment)
      ensures s.condition.Literal? ==> test == LiteralTruth(s.condition)
      ensures test.Err? ==> c == Abrupt(test.error) && taken.None?
      ensures test == Ok(true) ==> taken == Some(s.thenBranch)
      ensures test == Ok(false) ==> taken == s.elseBranch
      ensures taken.None? && test.Ok? ==> c == Normal
      ensures taken.Some? && NeverReturns(taken.value) ==> !c.Returning?
    {
      var condition := Evaluate(s.condition, fuel);
      test := if condition.Err? then Err(condition.error) else Ok(IsTruthy(condition.value));
      if condition.Err? {
        return Abrupt(condition.error), test, None;
      }
      if IsTruthy(condition.value) {
        taken := Some(s.thenBranch);
        c := Execute(s.thenBranch, fuel);
      } else if s.elseBranch.Some? {
        taken := s.elseBranch;
        c := Execute(s.elseBranch.value, fuel);
      } else {
        taken := None;
        c := Normal;
      }
    }

    /** The value of an optional expression, null when it is absent. */
    method ValueOrNull(e: Option<Ast.Expr>, fuel: nat) returns (r: Result<Value, Fault>)
      requires Valid()
      modifies this, envs, instances, arrays
      decreases fuel, 1, e, 1
      ensures Valid() && Grew() && environment == old(environment)
      ensures r.Ok? ==> Owns(r.value)
      ensures e.None? ==> r == Ok(Null) && environment.values == old(environment.values)
      ensures e.Some? && e.value.Literal? ==>
        r == LiteralRule(e.value.kind, e.value.payload) && environment.values == old(environment.values)
    {
      if e.None? {
        return Ok(Null);
      }
      r := Evaluate(e.value, fuel);
    }

    /**
     * Binds name in the current environment: in place in a global one; a
     * local one is copied with the binding and the copy takes its place.
     */
    method Declare(name: string, v: Value)
      requires Valid() && Owns(v)
      modifies this, if environment.copyOnDefine then {} else {environment}
      ensures Valid() && Grew()
      ensures environment.enclosing == old(environment).enclosing && environment.copyOnDefine == old(environment).copyOnDefine
      ensures !old(environment).copyOnDefine ==> environment == old(environment)
      ensures old(environment).copyOnDefine ==> fresh(environment)
      ensures environment.values == old(environment.values)[name := v]
    {
      environment := DefineIn(environment, name, v);
    }

    /** The superclass a declaration names: the variable must hold a class, else the error is at the class's name. */
    method SuperclassOf(s: Ast.Stmt) returns (r: Result<Option<LoxClass>, Fault>)
      requires s.Class? && Valid()
      ensures s.superclass.None? ==> r == Ok(None)
      ensures r.Ok? && r.value.Some? ==> ClassEnvs(r.value.value) <= envs
      ensures s.superclass.Some? && environment.Get(s.superclass.value.lexeme).Ok? ==>
                (r.Ok? <==> environment.Get(s.superclass.value.lexeme).value.Class?)
      ensures s.superclass.Some? && r.Ok? ==>
                environment.Get(s.superclass.value.lexeme).Ok? && environment.Get(s.superclass.value.lexeme).value.Class?
                && r.value == Some(environment.Get(s.superclass.value.lexeme).value.klass)
      ensures s.superclass.Some? && environment.Get(s.superclass.value.lexeme).Ok? && r.Err? ==>
                r.error == ErrorAt("Superclass must be a class.", s.name)
    {
      if s.superclass.None? {
        return Ok(None);
      }
      var found :- Lookup(s.superclass.value.lexeme);
      if !found.Class? {
        return Err(ErrorAt("Superclass must be a class.", s.name));
      }
      r := Ok(Some(found.klass));
    }

    /** The environment a class's methods close over: the current one, or with a superclass a new one over it binding `super`. */
    method MethodClosure(superclass: Option<LoxClass>) returns (closure: Env)
      requires Valid() && (superclass.Some? ==> ClassEnvs(superclass.value) <= envs)
      modifies this
      ensures Valid() && Grew() && environment == old(environment) && closure in envs
      ensures superclass.None? ==> closure == environment
      ensures superclass.Some? ==> fresh(closure) && closure.enclosing == environment && closure.values == map["super" := Class(superclass.value)]
    {
      closure := environment;
      if superclass.Some? {
        var local := NewEnv(environment);
        closure := DefineIn(local, "super", Class(superclass.value));
      }
    }

    /** Runs statements in the given environment and puts the current environment back afterwards, whichever way they end. */
    method ExecuteBlock(statements: seq<Ast.Stmt>, env: Env, fuel: nat) returns (c: Completion)
      requires Valid() && env in envs
      modifies this, envs, instances, arrays
      decreases fuel, 1, statements, 1
      ensures Valid() && Grew() && environment == old(environment)
      ensures c.Returning? ==> Owns(c.value)
      ensures |statements| == 0 ==> c == Normal
      ensures (forall k :: 0 <= k < |statements| ==> NeverReturns(statements[k])) ==> !c.Returning?
    {
      var previous := environment;
      environment := env;
      ghost var ran;
      c, ran := ExecuteStatements(statements, fuel);
      environment := previous;
    }

    /** Runs statements in order until one returns or faults. */
    method ExecuteStatements(statements: seq<Ast.Stmt>, fuel: nat) returns (c: Completion, ghost ran: nat)
      requires Valid()
      modifies this, envs, instances, arrays
      decreases fuel, 1, statements, 0
      ensures Valid() && Grew()
      ensures c.Returning? ==> Owns(c.value)
      ensures ran <= |statements|
      ensures c.Normal? ==> ran == |statements|
      ensures !c.Normal? ==> 1 <= ran && (c.Returning? ==> !NeverReturns(statements[ran - 1]))
      ensures (forall k :: 0 <= k < |statements| ==> NeverReturns(statements[k])) ==> !c.Returning?
    {
      var i := 0;
      while i < |statements|
        invariant 0 <= i <= |statements|
        invariant Valid() && Grew()
      {
        var done := Execute(statements[i], fuel);
        if !done.Normal? {
          return done, i + 1;
        }
        i := i + 1;
      }
      c, ran := Normal, i;
    }
  }
}
