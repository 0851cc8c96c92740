/**
 * The runtime model the interpreter works on: values, the environment
 * chain, class instances, arrays, user functions and classes.
 *
 * Environments, instances and arrays are objects whose state changes in
 * place; functions and classes are read-only records once built.
 */
module Runtime {
  import opened Wrappers
  import opened Tokens
  import Ast
  import opened PhpArrays

  datatype RuntimeError = RuntimeError(message: string, line: int, column: int)

  /**
   * Why an evaluation stopped early: a runtime error of the language; a
   * host error (a method called on a non-object, a type error, a division
   * by the integer zero) whose message is the host's, positioned once a
   * call site re-raises it; a host behaviour this model does not describe;
   * or the evaluation budget running out.
   */
  datatype Fault =
    | Thrown(error: RuntimeError)
    | HostFailure(site: Option<(int, int)>)
    | Unmodelled(what: string)
    | OutOfFuel

  /** A call site turns every error raised inside the call into a runtime error with the same message at its own position. */
  function Rewrapped(f: Fault, line: int, column: int): (g: Fault)
    ensures f.Thrown? ==> g == Thrown(RuntimeError(f.error.message, line, column))
    ensures f.HostFailure? ==> g == HostFailure(Some((line, column)))
    ensures !f.Thrown? && !f.HostFailure? ==> g == f
  {
    match f
    case Thrown(e) => Thrown(RuntimeError(e.message, line, column))
    case HostFailure(_) => HostFailure(Some((line, column)))
    case _ => f
  }

  /**
   * A runtime value.  Nil, Bool, Num, Str and Arr are the literal
   * wrappers; Fn, Class and Instance the user functions, classes and
   * objects; Native a built-in callable a literal hands out.  A number
   * records whether the host holds it as an integer (counts, indexes,
   * the zero of a division by zero) rather than as a float.  Null,
   * HostBool and HostStr are raw host values that reach programs
   * unwrapped: the result of a function that falls off its end or of a
   * declaration without initializer, the result of `and` and `or`, and
   * the pieces `explode` returns.
   */
  datatype Value =
    | Nil
    | Bool(b: bool)
    | Num(n: real, hostInt: bool)
    | Str(s: string)
    | Arr(arr: LoxArray)
    | Fn(fn: LoxFunction)
    | Class(klass: LoxClass)
    | Instance(instance: LoxInstance)
    | Native(native: Native)
    | Null
    | HostBool(truth: bool)
    | HostStr(text: string)

  /** The literal wrappers; each of them is also an instance without class or fields. */
  predicate IsLiteral(v: Value)
  {
    v.Nil? || v.Bool? || v.Num? || v.Str? || v.Arr?
  }

  /** The literals that hold no object: nil, booleans, numbers and strings. */
  predicate IsScalar(v: Value)
  {
    v.Nil? || v.Bool? || v.Num? || v.Str?
  }

  /** A user function: its declaration, the environment it closes over, whether it is an initializer, and its name if it has one. */
  datatype LoxFunction = LoxFunction(declaration: Ast.FunctionNode, closure: Env, isInitializer: bool, name: Option<Token>)

  datatype LoxClass = LoxClass(name: string, superclass: Option<LoxClass>, methods: map<string, LoxFunction>)

  /**
   * The built-in callables a literal's property read returns: one of the
   * closures an array hands out (named by its method), the `toString`
   * function of any literal, and the `get` and `explode` functions of a
   * string.
   */
  datatype Native =
    | ArrayClosure(methodName: string, target: LoxArray)
    | ToStringOf(wrapped: Value)
    | StringGet(text: string)
    | StringExplode(text: string)

  /* ---------- Environments ---------- */

  /**
   * An environment: a map of bindings and a fixed enclosing environment.
   * A copy-on-define environment (a local one) leaves itself unchanged on
   * define and returns a copy with the new binding; the others (the
   * global one) define in place and return themselves.
   */
  class Env {
    const enclosing: Env?
    const copyOnDefine: bool
    var values: map<string, Value>
    /** The length of the chain beyond this environment; it shows the chain is finite. */
    ghost const depth: nat
    /** Every environment further out along the chain. */
    ghost const outer: set<Env>

    ghost function Chain(): set<Env>
    {
      {this} + outer
    }

    ghost predicate Wf()
      decreases depth
    {
      if enclosing == null then depth == 0 && outer == {}
      else
        && enclosing.depth < depth
        && outer == enclosing.Chain()
        && enclosing.Wf()
        && (forall e :: e in outer ==> e.depth < depth)
    }

    constructor(enclosing: Env?, copyOnDefine: bool, values: map<string, Value>)
      requires enclosing != null ==> enclosing.Wf()
      ensures Wf()
      ensures this.enclosing == enclosing && this.copyOnDefine == copyOnDefine && this.values == values
      ensures outer == if enclosing == null then {} else enclosing.Chain()
    {
      this.enclosing := enclosing;
      this.copyOnDefine := copyOnDefine;
      this.values := values;
      depth := if enclosing == null then 0 else enclosing.depth + 1;
      outer := if enclosing == null then {} else enclosing.Chain();
    }

    /**
     * The value bound to name in the nearest environment along the chain
     * that has the key, even when the value is null; an error naming the
     * variable, at line and column 0, when no environment has it.
     */
    function Get(name: string): (r: Result<Value, RuntimeError>)
      requires Wf()
      reads Chain()
      decreases depth
      ensures name in values ==> r == Ok(values[name])
      ensures r.Err? ==> r.error == RuntimeError("Undefined variable '" + name + "'.", 0, 0)
    {
      if name in values then Ok(values[name])
      else if enclosing == null then Err(RuntimeError("Undefined variable '" + name + "'.", 0, 0))
      else enclosing.Get(name)
    }

    /** A lookup succeeds exactly when some environment along the chain binds the name, and then gives a value bound there. */
    lemma {:induction false} Found(name: string)
      requires Wf()
      decreases depth
      ensures Get(name).Ok? <==> exists e :: e in Chain() && name in e.values
      ensures Get(name).Ok? ==> exists e :: e in Chain() && name in e.values && Get(name).value == e.values[name]
    {
      if name !in values && enclosing != null {
        enclosing.Found(name);
      }
    }

    /** The nearest environment along the chain that binds name. */
    ghost function Owner(name: string): (o: Env?)
      requires Wf()
      reads Chain()
      decreases depth
      ensures o != null ==> o in Chain() && name in o.values && Get(name) == Ok(o.values[name])
      ensures o == null <==> Get(name).Err?
    {
      if name in values then this
      else if enclosing == null then null
      else enclosing.Owner(name)
    }

    /** Binds name to value: in place for a global environment, in a fresh copy for a local one. */
    method Define(name: string, value: Value) returns (e: Env)
      requires Wf()
      modifies if copyOnDefine then {} else {this}
      ensures e.Wf() && e.enclosing == enclosing && e.copyOnDefine == copyOnDefine && e.outer == outer
      ensures e.values == old(values)[name := value]
      ensures e.Get(name) == Ok(value)
      ensures copyOnDefine ==> fresh(e) && values == old(values)
      ensures !copyOnDefine ==> e == this
    {
      if copyOnDefine {
        e := new Env(enclosing, true, values[name := value]);
      } else {
        values := values[name := value];
        e := this;
      }
    }

    /**
     * Rebinds name in the nearest environment that has it and changes no
     * other environment; when none has it, nothing changes and the error
     * is at the name's position.
     */
    method Assign(name: Token, value: Value) returns (r: Result<(), RuntimeError>)
      requires Wf()
      modifies Chain()
      decreases depth
      ensures r.Ok? <==> old(Get(name.lexeme)).Ok?
      ensures r.Err? ==> r.error == RuntimeError("Undefined variable '" + name.lexeme + "'.", name.line, name.column)
      ensures forall e :: e in Chain() ==>
                e.values == (if e == old(Owner(name.lexeme)) then old(e.values)[name.lexeme := value] else old(e.values))
      ensures r.Ok? ==> Get(name.lexeme) == Ok(value)
    {
      if name.lexeme in values {
        values := values[name.lexeme := value];
        r := Ok(());
      } else if enclosing != null {
        r := enclosing.Assign(name, value);
      } else {
        r := Err(RuntimeError("Undefined variable '" + name.lexeme + "'.", name.line, name.column));
      }
    }
  }

  /* ---------- Instances ---------- */

  /** What a property read on an instance finds: a field, a method of its class to bind, or nothing. */
  datatype Property = Field(value: Value) | Method(fn: LoxFunction) | Missing

  class LoxInstance {
    const klass: Option<LoxClass>
    var properties: map<string, Value>

    constructor(klass: Option<LoxClass>)
      ensures this.klass == klass && properties == map[]
    {
      this.klass := klass;
      properties := map[];
    }

    /** A field wins over a method of the same name, even when it holds null; then the class chain is searched. */
    function Lookup(name: string): (p: Property)
      reads this
      ensures p.Field? <==> name in properties
      ensures p.Field? ==> p.value == properties[name]
      ensures p.Method? <==> name !in properties && klass.Some? && FindMethod(klass.value, name).Some?
      ensures p.Method? ==> p.fn == FindMethod(klass.value, name).value
    {
      if name in properties then Field(properties[name])
      else if klass.Some? && FindMethod(klass.value, name).Some? then Method(FindMethod(klass.value, name).value)
      else Missing
    }

    /** Writes the field unconditionally; no other field changes. */
    method Set(name: Token, value: Value)
      modifies this
      ensures properties == old(properties)[name.lexeme := value]
    {
      properties := properties[name.lexeme := value];
    }
  }

  /* ---------- Arrays ---------- */

  /** What a host array read yields for a missing or null element: the literal nil. */
  function NullToNil(v: Value): (r: Value)
    ensures r.Null? == false
    ensures v != Null ==> r == v
  {
    if v.Null? then Nil else v
  }

  class LoxArray {
    var value: PhpArray<Value>

    constructor(value: PhpArray<Value>)
      ensures this.value == value
    {
      this.value := value;
    }

    /** `push(v)`: appends v and returns the new count. */
    method Push(v: Value) returns (count: nat)
      requires Wf(value)
      modifies this
      ensures value == Pushed(old(value), v)
      ensures count == Count(old(value)) + 1 == Count(value)
    {
      value := Pushed(value, v);
      count := Count(value);
    }

    /** `pop()`: removes and returns the last element, or nil when there is none. */
    method Pop() returns (r: Value)
      requires Wf(value)
      modifies this
      ensures value == Popped(old(value))
      ensures Count(old(value)) == 0 ==> r == Nil
      ensures Count(old(value)) > 0 ==> r == NullToNil(Values(old(value))[Count(old(value)) - 1])
    {
      r := if |value.entries| == 0 then Nil else NullToNil(value.entries[|value.entries| - 1].1);
      value := Popped(value);
    }

    /** `shift()`: removes and returns the first element, or nil when there is none. */
    method Shift() returns (r: Value)
      requires Wf(value)
      modifies this
      ensures value == Shifted(old(value))
      ensures Count(old(value)) == 0 ==> r == Nil
      ensures Count(old(value)) > 0 ==> r == NullToNil(Values(old(value))[0])
    {
      r := if |value.entries| == 0 then Nil else NullToNil(value.entries[0].1);
      value := Shifted(value);
    }

    /** `unshift(v)`: prepends v and returns the new count. */
    method Unshift(v: Value) returns (count: nat)
      modifies this
      ensures value == Unshifted(old(value), v)
      ensures count == Count(old(value)) + 1 == Count(value)
    {
      value := Unshifted(value, v);
      count := Count(value);
    }
  }

  /* ---------- Classes and functions ---------- */

  /** The class's own method when it has one, else the superclass's, else none. */
  function FindMethod(c: LoxClass, name: string): (r: Option<LoxFunction>)
    decreases c
    ensures name in c.methods ==> r == Some(c.methods[name])
    ensures name !in c.methods && c.superclass.None? ==> r == None
    ensures r.Some? ==> exists k :: k in ClassChain(c) && name in k.methods && r.value == k.methods[name]
  {
    if name in c.methods then Some(c.methods[name])
    else if c.superclass.Some? then FindMethod(c.superclass.value, name)
    else None
  }

  /** A class and its superclasses. */
  function ClassChain(c: LoxClass): (s: set<LoxClass>)
    decreases c
    ensures c in s
    ensures c.superclass.Some? ==> ClassChain(c.superclass.value) <= s
  {
    {c} + if c.superclass.Some? then ClassChain(c.superclass.value) else {}
  }

  /** A user function accepts exactly as many arguments as it has parameters. */
  function FunctionArities(f: LoxFunction): (r: seq<nat>)
    ensures r == [|f.declaration.parameters|]
  {
    [|f.declaration.parameters|]
  }

  /** A class accepts what its initializer, found anywhere in the chain, accepts, and no argument without one. */
  function ClassArities(c: LoxClass): (r: seq<nat>)
    ensures |r| == 1
    ensures FindMethod(c, "init").Some? ==> r == FunctionArities(FindMethod(c, "init").value)
    ensures FindMethod(c, "init").None? ==> r == [0]
  {
    var init := FindMethod(c, "init");
    if init.Some? then FunctionArities(init.value) else [0]
  }

  function FunctionText(f: LoxFunction): (s: string)
    ensures f.name.Some? ==> s == "<function " + f.name.value.lexeme + ">"
    ensures f.name.None? ==> s == "<fn>"
  {
    if f.name.Some? then "<function " + f.name.value.lexeme + ">" else "<fn>"
  }

  /**
   * A method bound to an instance: the same declaration and initializer
   * flag, no name, and a closure that is a new local environment over the
   * old closure holding only `this`; the old closure is untouched.
   */
  method Bind(f: LoxFunction, instance: LoxInstance) returns (g: LoxFunction)
    requires f.closure.Wf()
    ensures g.declaration == f.declaration && g.isInitializer == f.isInitializer && g.name == None
    ensures fresh(g.closure) && g.closure.Wf() && g.closure.copyOnDefine
    ensures g.closure.enclosing == f.closure && g.closure.outer == f.closure.Chain()
    ensures g.closure.values == map["this" := Instance(instance)]
  {
    var env := new Env(f.closure, true, map[]);
    var bound := env.Define("this", Instance(instance));
    g := LoxFunction(f.declaration, bound, f.isInitializer, None);
  }

  /* ---------- Truthiness ---------- */

  /**
   * Truthiness: a literal is the host's boolean cast of what it wraps, so
   * nil, false, 0, "", "0" and the empty array are false; every other
   * value, host null and host false included, is true.
   */
  function IsTruthy(v: Value): (t: bool)
    reads (if v.Arr? then {v.arr} else {})
    ensures !IsLiteral(v) ==> t
    ensures v.Nil? ==> !t
    ensures v.Bool? ==> t == v.b
    ensures v.Num? ==> (t <==> v.n != 0.0)
    ensures v.Str? ==> (t <==> v.s != "" && v.s != "0")
    ensures v.Arr? ==> (t <==> Count(v.arr.value) > 0)
  {
    match v
    case Nil => false
    case Bool(b) => b
    case Num(n, _) => n != 0.0
    case Str(s) => s != "" && s != "0"
    case Arr(a) => |a.value.entries| > 0
    case _ => true
  }

  /** The host's own boolean cast of a value: every object is true, host null, false, "" and "0" are false. */
  function HostTruthy(v: Value): (t: bool)
    ensures v.Null? ==> !t
    ensures v.HostBool? ==> t == v.truth
    ensures v.HostStr? ==> (t <==> v.text != "" && v.text != "0")
    ensures !v.Null? && !v.HostBool? && !v.HostStr? ==> t
  {
    match v
    case Null => false
    case HostBool(b) => b
    case HostStr(s) => s != "" && s != "0"
    case _ => true
  }
}
