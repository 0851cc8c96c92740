/**
 * The built-in functions literals hand out: how a host closure's
 * parameter list becomes the arities a call checks and how the
 * interpreter is spliced into its arguments, the string functions `get`
 * and `explode`, the element read shared by the array functions, and the
 * stand-alone array function objects.
 */
module Natives {
  import opened Wrappers
  import opened Tokens
  import opened Runtime
  import opened PhpArrays
  import opened HostText
  import opened Conversions

  /* ---------- Host closures wrapped as callables ---------- */

  /** A host closure parameter: the interpreter itself, a required, an optional or a variadic user parameter. */
  datatype Param = InterpreterParam | Required | Optional | Variadic

  /** The user-visible parameters, in order: every parameter but the interpreter. */
  function Visible(ps: seq<Param>): (vs: seq<Param>)
    ensures |vs| <= |ps|
  {
    if |ps| == 0 then []
    else Visible(ps[..|ps| - 1]) + (if ps[|ps| - 1] == InterpreterParam then [] else [ps[|ps| - 1]])
  }

  lemma VisibleSnoc(ps: seq<Param>, p: Param)
    ensures Visible(ps + [p]) == Visible(ps) + (if p == InterpreterParam then [] else [p])
  {
    assert (ps + [p])[..|ps|] == ps;
  }

  lemma {:induction false} VisibleAppend(a: seq<Param>, b: seq<Param>)
    ensures Visible(a + b) == Visible(a) + Visible(b)
    decreases |b|
  {
    if |b| > 0 {
      var b' := b[..|b| - 1];
      var p := b[|b| - 1];
      assert b == b' + [p];
      assert a + b == (a + b') + [p];
      VisibleAppend(a, b');
      VisibleSnoc(a + b', p);
      VisibleSnoc(b', p);
    } else {
      assert a + b == a;
    }
  }

  /** The positions of vs that hold an optional parameter, in increasing order. */
  function OptionalPositions(vs: seq<Param>): (r: seq<nat>)
    ensures forall k :: 0 <= k < |r| ==> r[k] < |vs| && vs[r[k]] == Optional
    ensures forall i :: 0 <= i < |vs| && vs[i] == Optional ==> i in r
    ensures forall j, k :: 0 <= j < k < |r| ==> r[j] < r[k]
  {
    if |vs| == 0 then []
    else
      var r := OptionalPositions(vs[..|vs| - 1]);
      if vs[|vs| - 1] == Optional then r + [|vs| - 1] else r
  }

  /**
   * The arities of a wrapped host closure: no check at all when a user
   * parameter is variadic; otherwise the number of user parameters before
   * each optional one, then the number of all of them.
   */
  function ArityRule(ps: seq<Param>): (r: seq<nat>)
  {
    var vs := Visible(ps);
    if Variadic in vs then [] else OptionalPositions(vs) + [|vs|]
  }

  lemma PrefixSnoc<T>(s: seq<T>, i: nat)
    requires i < |s|
    ensures s[..i + 1] == s[..i] + [s[i]]
  {
  }

  lemma OptionalSnoc(vs: seq<Param>, p: Param)
    ensures OptionalPositions(vs + [p]) == OptionalPositions(vs) + (if p == Optional then [|vs|] else [])
  {
    assert (vs + [p])[..|vs|] == vs;
  }

  /** The loop of LiteralFunction.arities: interpreter parameters are skipped, a variadic one ends it with no arities. */
  method Arities(params: seq<Param>) returns (arities: seq<nat>)
    ensures arities == ArityRule(params)
  {
    arities := [];
    var count: nat := 0;
    var i := 0;
    ghost var visible: seq<Param> := [];
    while i < |params|
      invariant 0 <= i <= |params|
      invariant visible == Visible(params[..i])
      invariant count == |visible| && Variadic !in visible
      invariant arities == OptionalPositions(visible)
    {
      var p := params[i];
      PrefixSnoc(params, i);
      VisibleSnoc(params[..i], p);
      if p == Variadic {
        VariadicAcceptsAnything(params);
        return [];
      }
      if p != InterpreterParam {
        OptionalSnoc(visible, p);
        if p == Optional {
          arities := arities + [count];
        }
        count := count + 1;
        visible := visible + [p];
      }
      i := i + 1;
    }
    assert params[..i] == params;
    arities := arities + [count];
  }

  /**
   * Without a variadic parameter the arities rise strictly, end with the
   * number of user parameters, and accept a count n exactly when n is
   * that number or the n-th user parameter is optional.
   */
  lemma ArityRuleShape(ps: seq<Param>, n: nat)
    requires Variadic !in Visible(ps)
    ensures |ArityRule(ps)| >= 1 && ArityRule(ps)[|ArityRule(ps)| - 1] == |Visible(ps)|
    ensures forall j, k :: 0 <= j < k < |ArityRule(ps)| ==> ArityRule(ps)[j] < ArityRule(ps)[k]
    ensures n in ArityRule(ps) <==> n == |Visible(ps)| || (n < |Visible(ps)| && Visible(ps)[n] == Optional)
  {
    var vs := Visible(ps);
    var r := OptionalPositions(vs);
    assert ArityRule(ps) == r + [|vs|];
    if n in ArityRule(ps) && n != |vs| {
      var k :| 0 <= k < |ArityRule(ps)| && ArityRule(ps)[k] == n;
      assert k < |r|;
    }
  }

  /** A variadic user parameter switches the arity check off. */
  lemma VariadicAcceptsAnything(ps: seq<Param>)
    requires Variadic in ps
    ensures ArityRule(ps) == []
  {
    var i :| 0 <= i < |ps| && ps[i] == Variadic;
    assert ps == ps[..i] + [Variadic] + ps[i + 1..];
    VisibleAppend(ps[..i] + [Variadic], ps[i + 1..]);
    VisibleSnoc(ps[..i], Variadic);
    assert Visible(ps)[|Visible(ps[..i])|] == Variadic;
  }

  /** An argument list entry once the interpreter is spliced in. */
  datatype Arg = Interp | Given(v: Value)

  function Wrapped(args: seq<Value>): (r: seq<Arg>)
    ensures |r| == |args|
    ensures forall i :: 0 <= i < |args| ==> r[i] == Given(args[i])
  {
    seq(|args|, i requires 0 <= i < |args| => Given(args[i]))
  }

  /** The user arguments of a spliced list, in order. */
  function Users(s: seq<Arg>): (r: seq<Value>)
    ensures |r| <= |s|
  {
    if |s| == 0 then [] else Users(s[..|s| - 1]) + (if s[|s| - 1].Given? then [s[|s| - 1].v] else [])
  }

  lemma {:induction false} UsersAppend(a: seq<Arg>, b: seq<Arg>)
    ensures Users(a + b) == Users(a) + Users(b)
    decreases |b|
  {
    if |b| > 0 {
      var ab := a + b;
      assert ab[..|ab| - 1] == a + b[..|b| - 1];
      UsersAppend(a, b[..|b| - 1]);
    } else {
      assert a + b == a;
    }
  }

  lemma {:induction false} UsersWrapped(args: seq<Value>)
    ensures Users(Wrapped(args)) == args
    decreases |args|
  {
    if |args| > 0 {
      assert Wrapped(args)[..|args| - 1] == Wrapped(args[..|args| - 1]);
      UsersWrapped(args[..|args| - 1]);
    }
  }

  /** array_splice inserting one element: at the offset, or at the end when the offset is past it. */
  function Inserted(s: seq<Arg>, at: nat): (r: seq<Arg>)
    ensures |r| == |s| + 1
    ensures Users(r) == Users(s)
  {
    var k := if at < |s| then at else |s|;
    assert s == s[..k] + s[k..];
    UsersAppend(s[..k], s[k..]);
    UsersAppend(s[..k] + [Interp], s[k..]);
    UsersAppend(s[..k], [Interp]);
    assert Users([Interp]) == [] by {
      assert [Interp][..0] == [];
    }
    s[..k] + [Interp] + s[k..]
  }

  function InterpCount(ps: seq<Param>): nat
  {
    |ps| - |Visible(ps)|
  }

  /**
   * LiteralFunction.call: for each interpreter-typed parameter, the
   * interpreter is inserted into the argument list at that parameter's
   * position.  The user arguments keep their order; when the interpreter
   * is only the first parameter it comes first, and when no parameter
   * takes it the arguments are passed as they are.
   */
  method Splice(params: seq<Param>, args: seq<Value>) returns (out: seq<Arg>)
    ensures Users(out) == args
    ensures |out| == |args| + |params| - |Visible(params)|
    ensures InterpreterParam !in params ==> out == Wrapped(args)
    ensures |params| > 0 && params[0] == InterpreterParam && InterpreterParam !in params[1..] ==> out == [Interp] + Wrapped(args)
  {
    out := Wrapped(args);
    UsersWrapped(args);
    var i := 0;
    while i < |params|
      invariant 0 <= i <= |params|
      invariant SplicedUpTo(params, args, i, out)
    {
      SpliceStep(params, args, i, out);
      if params[i] == InterpreterParam {
        out := Inserted(out, i);
      }
      i := i + 1;
    }
    assert params[..i] == params;
  }

  /** What Splice has built after the first i parameters. */
  ghost predicate SplicedUpTo(params: seq<Param>, args: seq<Value>, i: nat, out: seq<Arg>)
    requires i <= |params|
  {
    && Users(out) == args
    && |out| == |args| + i - |Visible(params[..i])|
    && (InterpreterParam !in params[..i] ==> out == Wrapped(args))
    && (i >= 1 && params[0] == InterpreterParam && InterpreterParam !in params[1..] ==> out == [Interp] + Wrapped(args))
  }

  /** One round of Splice keeps what it has built in order. */
  lemma SpliceStep(params: seq<Param>, args: seq<Value>, i: nat, out: seq<Arg>)
    requires i < |params| && SplicedUpTo(params, args, i, out)
    ensures SplicedUpTo(params, args, i + 1, if params[i] == InterpreterParam then Inserted(out, i) else out)
  {
    PrefixSnoc(params, i);
    VisibleSnoc(params[..i], params[i]);
    if params[i] == InterpreterParam {
      SpliceInsert(params, args, i, out);
    } else {
      assert InterpreterParam in params[..i + 1] ==> InterpreterParam in params[..i];
    }
  }

  lemma SpliceInsert(params: seq<Param>, args: seq<Value>, i: nat, out: seq<Arg>)
    requires i < |params| && SplicedUpTo(params, args, i, out) && params[i] == InterpreterParam
    requires params[..i + 1] == params[..i] + [params[i]]
    requires Visible(params[..i + 1]) == Visible(params[..i])
    ensures SplicedUpTo(params, args, i + 1, Inserted(out, i))
  {
    if i >= 1 {
      assert params[1..][i - 1] == InterpreterParam;
    }
    assert InterpreterParam in params[..i + 1];
  }

  /** The argument for the k-th parameter of a spliced list; a missing one is the host null an optional parameter defaults to. */
  function ArgAt(s: seq<Arg>, k: nat): (v: Value)
    ensures k < |s| && s[k].Given? ==> v == s[k].v
    ensures k >= |s| ==> v == Null
  {
    if k < |s| && s[k].Given? then s[k].v else Null
  }

  /** What ArgAt reads is the default null or one of the user arguments. */
  lemma {:induction false} ArgAtGiven(s: seq<Arg>, k: nat)
    ensures ArgAt(s, k) == Null || ArgAt(s, k) in Users(s)
    decreases |s|
  {
    if k < |s| && s[k].Given? && k < |s| - 1 {
      assert s[..|s| - 1][k] == s[k];
      ArgAtGiven(s[..|s| - 1], k);
    }
  }

  /** The first argument of a plain argument list, or the host null when there is none. */
  function First(args: seq<Value>): (v: Value)
    ensures |args| > 0 ==> v == args[0]
    ensures |args| == 0 ==> v == Null
  {
    if |args| > 0 then args[0] else Null
  }

  /** The second argument of a plain argument list, or the host null when there is none. */
  function Second(args: seq<Value>): (v: Value)
    ensures |args| > 1 ==> v == args[1]
    ensures |args| <= 1 ==> v == Null
  {
    if |args| > 1 then args[1] else Null
  }

  /** The parameter lists of the closures an array hands out. */
  function ClosureParams(name: string): seq<Param>
  {
    match name
    case "each" => [InterpreterParam, Required]
    case "filter" => [InterpreterParam, Optional]
    case "get" => [Optional]
    case "implode" => [Optional]
    case "map" => [InterpreterParam, Required]
    case "push" => [Required]
    case "slice" => [Required, Optional]
    case "unshift" => [Required]
    case _ => []
  }

  /** The names of the closures an array hands out. */
  const ArrayClosureNames: set<string> :=
    {"count", "each", "filter", "first", "get", "implode", "last", "map", "max", "min", "pop", "push", "reverse", "shift", "slice", "unshift"}

  /**
   * The host's parameter splicing seen from an array closure: once the
   * interpreter is inserted where the closure asks for it, the closure's
   * first and second own parameters receive the first and second user
   * arguments, or null when there are fewer.
   */
  method UserArguments(name: string, arguments: seq<Value>) returns (first: Value, second: Value)
    ensures first == First(arguments) && second == Second(arguments)
  {
    var params := ClosureParams(name);
    var spliced := Splice(params, arguments);
    var skip := if |params| > 0 && params[0] == InterpreterParam then 1 else 0;
    first := ArgAt(spliced, skip);
    second := ArgAt(spliced, skip + 1);
  }

  /* ---------- Strings ---------- */

  /** The host's read of string offset i: from the start when 0 <= i < |s|, from the end when -|s| <= i < 0. */
  function HostOffset(s: string, i: int): (c: Option<char>)
    ensures c.Some? <==> -|s| <= i < |s|
    ensures 0 <= i < |s| ==> c == Some(s[i])
    ensures -|s| <= i < 0 ==> c == Some(s[|s| + i])
  {
    if 0 <= i < |s| then Some(s[i])
    else if -|s| <= i < 0 then Some(s[|s| + i])
    else None
  }

  /**
   * `get(index)` on a string as written: a negative index is moved up by
   * the length, and the result is read through the host's offsets, which
   * count a still negative index from the end again.
   */
  function CharAtAsWritten(s: string, index: int): (r: Value)
    ensures r.Nil? || r.Str?
  {
    var i := if index < 0 then |s| - (-index) else index;
    match HostOffset(s, i)
    case Some(c) => Str([c])
    case None => Nil
  }

  /** `"abc".get(-4)` gives "c" as written, although -4 is before the start. */
  lemma NegativeIndexWrapsTwice()
    ensures CharAtAsWritten("abc", -4) == Str("c")
    ensures CharAtAsWritten("abc", -7) == Nil
  {
  }

  /**
   * `get(index)` on a string as evidently intended: the character at
   * index, counted from the end when negative, and nil outside the string.
   */
  function CharAt(s: string, index: int): (r: Value)
    ensures r.Str? <==> -|s| <= index < |s|
    ensures 0 <= index < |s| ==> r == Str([s[index]])
    ensures -|s| <= index < 0 ==> r == Str([s[|s| + index]])
    ensures !(-|s| <= index < |s|) ==> r == Nil
  {
    var i := if index < 0 then |s| + index else index;
    if 0 <= i < |s| then Str([s[i]]) else Nil
  }

  /** The two agree on every index from -|s| on; they differ only below it. */
  lemma CharAtAgrees(s: string, index: int)
    ensures -|s| <= index ==> CharAt(s, index) == CharAtAsWritten(s, index)
    ensures -2 * |s| <= index < -|s| ==> CharAtAsWritten(s, index) == Str([s[2 * |s| + index]])
  {
  }

  /** The separator explode uses: the argument's text, or a space when that is empty. */
  function ExplodeSeparator(arg: Value): (r: Result<string, Fault>)
    ensures r.Ok? ==> |r.value| > 0
    ensures StringOf(arg).Ok? && StringOf(arg).value != "" ==> r == Ok(StringOf(arg).value)
    ensures StringOf(arg) == Ok("") ==> r == Ok(" ")
  {
    var sep :- StringOf(arg);
    Ok(if sep == "" then " " else sep)
  }

  /** The pieces explode returns: raw host strings, not string literals. */
  function ExplodePieces(sep: string, s: string): (vs: seq<Value>)
    requires |sep| > 0
    ensures |vs| == |Explode(sep, s)|
    ensures forall i :: 0 <= i < |vs| ==> vs[i] == HostStr(Explode(sep, s)[i])
  {
    var pieces := Explode(sep, s);
    seq(|pieces|, i requires 0 <= i < |pieces| => HostStr(pieces[i]))
  }

  /** The texts of host strings, in order. */
  function Texts(vs: seq<Value>): (ts: seq<string>)
    ensures |ts| == |vs|
    ensures forall i :: 0 <= i < |vs| && vs[i].HostStr? ==> ts[i] == vs[i].text
  {
    seq(|vs|, i requires 0 <= i < |vs| => if vs[i].HostStr? then vs[i].text else "")
  }

  /** Joining the texts of the pieces with the separator gives back the string. */
  lemma ExplodePiecesJoin(sep: string, s: string)
    requires |sep| > 0
    ensures Join(sep, Texts(ExplodePieces(sep, s))) == s
  {
    assert Texts(ExplodePieces(sep, s)) == Explode(sep, s);
    JoinExplode(sep, s);
  }

  /* ---------- Arrays ---------- */

  /**
   * The element `get(index)` reads from an array: a negative index is
   * moved up by the count, the element is looked up by key, and a missing
   * or null element reads as nil.
   */
  function ElementAt(a: PhpArray<Value>, index: int): (v: Value)
    ensures !v.Null?
    ensures v == Nil || v in Values(a)
    ensures Wf(a) && 0 <= index && (forall i :: 0 <= i < Count(a) ==> a.entries[i].0 == i) ==>
              v == (if index < Count(a) then NullToNil(Values(a)[index]) else Nil)
  {
    var k := if index < 0 then Count(a) - (-index) else index;
    match Lookup(a, k)
    case Some(v) => NullToNil(v)
    case None => Nil
  }

  /** On a list, negative indexes count from the end. */
  lemma ElementAtFromEnd(vs: seq<Value>, index: int)
    requires -|vs| <= index < 0
    ensures ElementAt(List(vs), index) == NullToNil(vs[|vs| + index])
  {
    var a := List(vs);
    assert a.entries[|vs| + index].0 == |vs| + index;
  }

  /** The window `slice(start, length)` selects: the length counts only when given and not null. */
  function SliceLength(arg: Value): (r: Result<Option<int>, Fault>)
    ensures arg.Null? ==> r == Ok(None)
    ensures !arg.Null? && ToIndex(arg).Ok? ==> r == Ok(Some(ToIndex(arg).value))
  {
    if arg.Null? then Ok(None)
    else
      var n :- ToIndex(arg);
      Ok(Some(n))
  }

  /** The largest of a non-empty list of integers. */
  function MaxOf(xs: seq<int>): (m: int)
    requires |xs| > 0
    ensures m in xs && forall x :: x in xs ==> x <= m
  {
    if |xs| == 1 then xs[0]
    else
      var m := MaxOf(xs[1..]);
      assert forall x :: x in xs[1..] ==> x in xs;
      assert forall x :: x in xs ==> x == xs[0] || x in xs[1..];
      if xs[0] > m then xs[0] else m
  }

  /** The smallest of a non-empty list of integers. */
  function MinOf(xs: seq<int>): (m: int)
    requires |xs| > 0
    ensures m in xs && forall x :: x in xs ==> m <= x
  {
    if |xs| == 1 then xs[0]
    else
      var m := MinOf(xs[1..]);
      assert forall x :: x in xs[1..] ==> x in xs;
      assert forall x :: x in xs ==> x == xs[0] || x in xs[1..];
      if xs[0] < m then xs[0] else m
  }

  /**
   * `first()` as written: the element the host's internal pointer is on
   * after a reset, with a null element read as nil; on an empty array the
   * host reports false, which the null check lets through.
   */
  function FirstAsWritten(a: PhpArray<Value>): (v: Value)
    ensures Count(a) > 0 ==> v == NullToNil(Values(a)[0])
    ensures Count(a) == 0 ==> v == HostBool(false)
  {
    if |a.entries| == 0 then HostBool(false) else NullToNil(a.entries[0].1)
  }

  /** `last()` as written: like `first()`, from the other end. */
  function LastAsWritten(a: PhpArray<Value>): (v: Value)
    ensures Count(a) > 0 ==> v == NullToNil(Values(a)[Count(a) - 1])
    ensures Count(a) == 0 ==> v == HostBool(false)
  {
    if |a.entries| == 0 then HostBool(false) else NullToNil(a.entries[|a.entries| - 1].1)
  }

  /** On an empty array `first()` and `last()` give a raw false, which the language treats as true. */
  lemma EmptyFirstIsTruthy()
    ensures FirstAsWritten(List([])) == HostBool(false) && IsTruthy(FirstAsWritten(List([])))
    ensures LastAsWritten(List([])) == HostBool(false) && IsTruthy(LastAsWritten(List([])))
  {
  }

  /** `first()` as evidently intended: the first element, and nil when there is none. */
  function FirstElement(a: PhpArray<Value>): (v: Value)
    ensures Count(a) == 0 ==> v == Nil && !IsTruthy(v)
    ensures Count(a) > 0 ==> v == FirstAsWritten(a)
  {
    if |a.entries| == 0 then Nil else NullToNil(a.entries[0].1)
  }

  /** `last()` as evidently intended: the last element, and nil when there is none. */
  function LastElement(a: PhpArray<Value>): (v: Value)
    ensures Count(a) == 0 ==> v == Nil && !IsTruthy(v)
    ensures Count(a) > 0 ==> v == LastAsWritten(a)
  {
    if |a.entries| == 0 then Nil else NullToNil(a.entries[|a.entries| - 1].1)
  }

  /** The values of results taken in order, or the first failure among them. */
  function AllOk<T>(rs: seq<Result<T, Fault>>): (r: Result<seq<T>, Fault>)
    ensures r.Ok? <==> forall i :: 0 <= i < |rs| ==> rs[i].Ok?
    ensures r.Ok? ==> |r.value| == |rs| && forall i :: 0 <= i < |rs| ==> r.value[i] == rs[i].value
  {
    if |rs| == 0 then Ok([])
    else
      var prefix := rs[..|rs| - 1];
      assert forall i :: 0 <= i < |prefix| ==> prefix[i] == rs[i];
      var init :- AllOk(prefix);
      var last :- rs[|rs| - 1];
      Ok(init + [last])
  }

  /** The texts of values as the host casts them to strings, or the first failure. */
  function TextsOf(vs: seq<Value>): (r: Result<seq<string>, Fault>)
    ensures r.Ok? <==> forall i :: 0 <= i < |vs| ==> StringOf(vs[i]).Ok?
    ensures r.Ok? ==> |r.value| == |vs| && forall i :: 0 <= i < |vs| ==> r.value[i] == StringOf(vs[i]).value
  {
    var rs := seq(|vs|, i requires 0 <= i < |vs| => StringOf(vs[i]));
    assert forall i :: 0 <= i < |vs| ==> rs[i] == StringOf(vs[i]);
    AllOk(rs)
  }

  /** `implode(separator)`: the elements' texts joined with the separator's text, a missing separator being "". */
  function ImplodeText(separator: Value, vs: seq<Value>): (r: Result<string, Fault>)
    ensures separator.Null? && TextsOf(vs).Ok? ==> r == Ok(Join("", TextsOf(vs).value))
    ensures StringOf(separator).Ok? && TextsOf(vs).Ok? ==> r == Ok(Join(StringOf(separator).value, TextsOf(vs).value))
    ensures r.Ok? <==> StringOf(separator).Ok? && TextsOf(vs).Ok?
  {
    var sep :- StringOf(separator);
    var texts :- TextsOf(vs);
    Ok(Join(sep, texts))
  }

  /** Imploding what explode returned, with the same separator, gives back the string. */
  lemma ImplodeExplode(sep: string, s: string)
    requires |sep| > 0
    ensures ImplodeText(Str(sep), ExplodePieces(sep, s)) == Ok(s)
  {
    var vs := ExplodePieces(sep, s);
    assert TextsOf(vs).value == Explode(sep, s);
    JoinExplode(sep, s);
  }

  /** The integers `(int)(string)` reads from each value, or the first failure. */
  function IntsOf(vs: seq<Value>): (r: Result<seq<int>, Fault>)
    ensures r.Ok? <==> forall i :: 0 <= i < |vs| ==> ToIndex(vs[i]).Ok?
    ensures r.Ok? ==> |r.value| == |vs| && forall i :: 0 <= i < |vs| ==> r.value[i] == ToIndex(vs[i]).value
  {
    var rs := seq(|vs|, i requires 0 <= i < |vs| => ToIndex(vs[i]));
    assert forall i :: 0 <= i < |vs| ==> rs[i] == ToIndex(vs[i]);
    AllOk(rs)
  }

  /**
   * `max()` and `min()`: the largest or smallest of the elements' integer
   * readings as an integer number, or nil for an empty array.
   */
  function Extreme(vs: seq<Value>, largest: bool): (r: Result<Value, Fault>)
    ensures r.Ok? <==> IntsOf(vs).Ok?
    ensures r.Ok? && |vs| == 0 ==> r.value == Nil
    ensures r.Ok? && |vs| > 0 ==> r.value.Num? && r.value.hostInt && r.value.n.Floor as real == r.value.n
    ensures r.Ok? && |vs| > 0 && largest ==>
              (exists i :: 0 <= i < |vs| && r.value.n == ToIndex(vs[i]).value as real) &&
              forall i :: 0 <= i < |vs| ==> ToIndex(vs[i]).value as real <= r.value.n
    ensures r.Ok? && |vs| > 0 && !largest ==>
              (exists i :: 0 <= i < |vs| && r.value.n == ToIndex(vs[i]).value as real) &&
              forall i :: 0 <= i < |vs| ==> r.value.n <= ToIndex(vs[i]).value as real
  {
    var ints :- IntsOf(vs);
    if |ints| == 0 then Ok(Nil)
    else
      var m := if largest then MaxOf(ints) else MinOf(ints);
      assert forall i :: 0 <= i < |ints| ==> ints[i] in ints;
      Ok(Num(m as real, true))
  }

  /* ---------- Properties of literals ---------- */

  /** The array closures that only read their array. */
  const ArrayQueries: set<string> := {"count", "first", "get", "implode", "last", "max", "min"}

  /** The array closures that change their array in place. */
  const ArrayMutators: set<string> := {"pop", "push", "shift", "unshift"}

  /** No closure both reads and changes its array, or both calls back and changes it. */
  lemma ClosureKindsDisjoint()
    ensures ArrayMutators !! ArrayQueries && ArrayMutators !! CallbackClosures
  {
  }

  /** What a changing closure leaves in its array, given its first argument. */
  function Mutated(name: string, a: PhpArray<Value>, v: Value): PhpArray<Value>
    requires name in ArrayMutators && Wf(a)
  {
    match name
    case "pop" => Popped(a)
    case "push" => Pushed(a, v)
    case "shift" => Shifted(a)
    case "unshift" => Unshifted(a, v)
  }

  /** The array closures that call back a user function for each element. */
  const CallbackClosures: set<string> := {"each", "filter", "map"}

  /**
   * What a reading closure returns, given its first argument (null when
   * missing): the count, the first or last element, the element at an
   * index, the elements' texts joined, or the largest or smallest integer
   * reading.  A read never builds an object: the result is a scalar or
   * one of the array's own elements.
   */
  function ArrayQuery(name: string, a: PhpArray<Value>, argument: Value): (r: Result<Value, Fault>)
    requires name in ArrayQueries
    ensures r.Ok? ==> IsScalar(r.value) || r.value in Values(a)
    ensures name == "count" || name == "first" || name == "last" ==> r.Ok?
    ensures (name == "first" || name == "last") && Count(a) == 0 ==> r == Ok(Nil)
    ensures name == "get" ==> (r.Ok? <==> ToIndex(argument).Ok?)
    ensures name == "implode" ==> (r.Ok? <==> StringOf(argument).Ok? && TextsOf(Values(a)).Ok?)
    ensures name == "max" || name == "min" ==> (r.Ok? <==> IntsOf(Values(a)).Ok?)
  {
    match name
    case "count" => Ok(Num(Count(a) as real, true))
    case "first" => Ok(FirstElement(a))
    case "get" =>
      var index :- ToIndex(argument);
      Ok(ElementAt(a, index))
    case "implode" =>
      var text :- ImplodeText(argument, Values(a));
      Ok(Str(text))
    case "last" => Ok(LastElement(a))
    case "max" => Extreme(Values(a), true)
    case "min" => Extreme(Values(a), false)
  }

  /** The string functions whose host behaviour (regular expressions, byte-wise reversal, trimming) is beyond this model. */
  const StringFunctionsLeftOut: set<string> := {"length", "match", "matchAll", "replace", "reverse", "trim"}

  /** The number functions, which round floats, beyond this model. */
  const NumberFunctionsLeftOut: set<string> := {"abs", "ceil", "floor", "round"}

  /**
   * A property read on a literal: the kind's own functions first (an
   * array's closures, a string's `explode` and `get`), then `toString`,
   * which every literal has; a literal has no fields, so any other name is
   * an undefined property at the name.
   */
  function LiteralProperty(v: Value, name: Token): (r: Result<Value, Fault>)
    requires IsLiteral(v)
    ensures v.Arr? && name.lexeme in ArrayClosureNames ==> r == Ok(Native(ArrayClosure(name.lexeme, v.arr)))
    ensures v.Str? && name.lexeme == "explode" ==> r == Ok(Native(StringExplode(v.s)))
    ensures v.Str? && name.lexeme == "get" ==> r == Ok(Native(StringGet(v.s)))
    ensures name.lexeme == "toString" ==> r == Ok(Native(ToStringOf(v)))
    ensures r.Ok? ==> r.value.Native? && (r.value.native.ArrayClosure? ==> v.Arr? && r.value.native.target == v.arr)
    ensures r.Ok? && r.value.native.ToStringOf? ==> r.value.native.wrapped == v
    ensures r.Ok? && r.value.native.ArrayClosure? ==> r.value.native.methodName in ArrayClosureNames
    ensures (v.Nil? || v.Bool?) && name.lexeme != "toString" ==>
              r == Err(Thrown(RuntimeError("Undefined property '" + name.lexeme + "'.", name.line, name.column)))
  {
    var n := name.lexeme;
    if v.Arr? && n in ArrayClosureNames then Ok(Native(ArrayClosure(n, v.arr)))
    else if v.Str? && n == "explode" then Ok(Native(StringExplode(v.s)))
    else if v.Str? && n == "get" then Ok(Native(StringGet(v.s)))
    else if v.Str? && n in StringFunctionsLeftOut then Err(Unmodelled("string function " + n))
    else if v.Num? && n in NumberFunctionsLeftOut then Err(Unmodelled("number function " + n))
    else if n == "toString" then Ok(Native(ToStringOf(v)))
    else Err(Thrown(RuntimeError("Undefined property '" + n + "'.", name.line, name.column)))
  }

  /** `toString` on a literal: the host cast of what it wraps, as a string literal. */
  function ToStringResult(wrapped: Value): (r: Result<Value, Fault>)
    ensures r.Ok? <==> LiteralText(wrapped).Ok?
    ensures r.Ok? ==> r.value == Str(LiteralText(wrapped).value)
  {
    var text :- LiteralText(wrapped);
    Ok(Str(text))
  }

  /** Reading a string's characters one by one with `get` and concatenating them gives back the string. */
  lemma CharAtCovers(s: string, i: nat)
    requires i < |s|
    ensures CharAt(s, i) == Str([s[i]]) && CharAt(s, i - |s|) == Str([s[i]])
  {
  }

  /* ---------- Stand-alone array function objects ---------- */

  datatype ArrayFunctionKind = GetKind | SliceKind | PushKind | PopKind | ShiftKind | UnshiftKind

  /**
   * An array function object: it holds its own copy of an array, and
   * push, pop, shift and unshift change that copy, not the array it came
   * from.
   */
  class ArrayFunction {
    const kind: ArrayFunctionKind
    var value: PhpArray<Value>

    constructor(kind: ArrayFunctionKind, value: PhpArray<Value>)
      ensures this.kind == kind && this.value == value
    {
      this.kind := kind;
      this.value := value;
    }

    /** The argument counts each function object accepts. */
    function Arities(): (r: seq<nat>)
      ensures kind == SliceKind ==> r == [1, 2]
      ensures kind == GetKind || kind == PushKind || kind == UnshiftKind ==> r == [1]
      ensures kind == PopKind || kind == ShiftKind ==> r == [0]
    {
      match kind
      case GetKind => [1]
      case SliceKind => [1, 2]
      case PushKind => [1]
      case PopKind => [0]
      case ShiftKind => [0]
      case UnshiftKind => [1]
    }

    /**
     * Calls the function object: get reads an element, slice builds a new
     * array, push and unshift add the first argument and return the new
     * count, pop and shift remove and return an element.
     */
    method Call(args: seq<Value>) returns (r: Result<Value, Fault>)
      requires Wf(value)
      modifies this
      ensures kind == GetKind || kind == SliceKind ==> value == old(value)
      ensures kind == GetKind ==> (r.Ok? <==> ToIndex(First(args)).Ok?)
      ensures kind == GetKind && r.Ok? ==> r.value == ElementAt(value, ToIndex(First(args)).value)
      ensures kind == SliceKind ==> (r.Ok? <==> ToIndex(First(args)).Ok? && SliceLength(Second(args)).Ok?)
      ensures kind == SliceKind && r.Ok? ==>
                r.value.Arr? && fresh(r.value.arr) &&
                r.value.arr.value == Sliced(value, ToIndex(First(args)).value, SliceLength(Second(args)).value)
      ensures kind == PushKind ==> value == Pushed(old(value), First(args)) && r == Ok(Num(Count(value) as real, true))
      ensures kind == UnshiftKind ==> value == Unshifted(old(value), First(args)) && r == Ok(Num(Count(value) as real, true))
      ensures kind == PopKind ==> value == Popped(old(value))
      ensures kind == PopKind ==> r == Ok(if Count(old(value)) == 0 then Nil else NullToNil(Values(old(value))[Count(old(value)) - 1]))
      ensures kind == ShiftKind ==> value == Shifted(old(value))
      ensures kind == ShiftKind ==> r == Ok(if Count(old(value)) == 0 then Nil else NullToNil(Values(old(value))[0]))
    {
      match kind
      case GetKind =>
        var index := ToIndex(First(args));
        if index.Err? {
          r := Err(index.error);
        } else {
          r := Ok(ElementAt(value, index.value));
        }
      case SliceKind =>
        var start := ToIndex(First(args));
        var length := SliceLength(Second(args));
        if start.Err? {
          r := Err(start.error);
        } else if length.Err? {
          r := Err(length.error);
        } else {
          var sliced := new LoxArray(Sliced(value, start.value, length.value));
          r := Ok(Arr(sliced));
        }
      case PushKind =>
        value := Pushed(value, First(args));
        r := Ok(Num(|value.entries| as real, true));
      case PopKind =>
        r := Ok(if |value.entries| == 0 then Nil else NullToNil(value.entries[|value.entries| - 1].1));
        value := Popped(value);
      case ShiftKind =>
        r := Ok(if |value.entries| == 0 then Nil else NullToNil(value.entries[0].1));
        value := Shifted(value);
      case UnshiftKind =>
        value := Unshifted(value, First(args));
        r := Ok(Num(|value.entries| as real, true));
    }
  }
}
