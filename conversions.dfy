/**
 * The host's casts of runtime values: the string a value converts to,
 * the raw text of a literal, and the integer index `(int)(string)` reads
 * from an argument.
 */
module Conversions {
  import opened Wrappers
  import opened Runtime
  import opened HostText
  import opened Text

  /**
   * The text of a number: an integer the host holds prints in decimal; a
   * float prints in decimal only when it is whole and below 10^14 in
   * magnitude (the host switches to exponent form at 14 digits).  Other
   * floats are beyond this model.
   */
  function NumText(n: real, hostInt: bool): (r: Option<string>)
    ensures r.Some? ==> IsWhole(n) && r.value == IntText(n.Floor)
    ensures IsWhole(n) && hostInt ==> r.Some?
    ensures IsWhole(n) && -100000000000000.0 < n < 100000000000000.0 ==> r.Some?
  {
    if IsWhole(n) && (hostInt || -100000000000000.0 < n < 100000000000000.0) then Some(IntText(n.Floor)) else None
  }

  /**
   * The string a value converts to: literals and objects through their
   * own text (nil prints "nil", booleans "1" and "0"), raw host values
   * through the host cast (null and false print "").  A host closure has
   * no text; an array's text, built from its elements, is beyond this
   * model.
   */
  function StringOf(v: Value): (r: Result<string, Fault>)
    ensures v.Str? ==> r == Ok(v.s)
    ensures v.HostStr? ==> r == Ok(v.text)
    ensures v.Nil? ==> r == Ok("nil")
    ensures v.Bool? ==> r == Ok(if v.b then "1" else "0")
    ensures v.Null? ==> r == Ok("")
    ensures v.Native? && v.native.ArrayClosure? ==> r == Err(HostFailure(None))
    ensures r.Err? ==> v.Arr? || v.Native? || v.Num?
  {
    match v
    case Nil => Ok("nil")
    case Bool(b) => Ok(if b then "1" else "0")
    case Num(n, i) => if NumText(n, i).Some? then Ok(NumText(n, i).value) else Err(Unmodelled("text of a float"))
    case Str(s) => Ok(s)
    case Arr(_) => Err(Unmodelled("text of an array"))
    case Fn(f) => Ok(FunctionText(f))
    case Class(c) => Ok(c.name)
    case Instance(i) => Ok("<instance " + (if i.klass.Some? then i.klass.value.name else "") + ">")
    case Native(n) => if n.ArrayClosure? then Err(HostFailure(None)) else Ok("<function native>")
    case Null => Ok("")
    case HostBool(b) => Ok(if b then "1" else "")
    case HostStr(s) => Ok(s)
  }

  /** The host cast of what a literal wraps: nil and false give "", true "1", an array "Array". */
  function LiteralText(v: Value): (r: Result<string, Fault>)
    ensures v.Str? ==> r == Ok(v.s)
    ensures v.Nil? ==> r == Ok("")
    ensures v.Bool? ==> r == Ok(if v.b then "1" else "")
    ensures v.Arr? ==> r == Ok("Array")
    ensures v.Num? ==> (r.Ok? <==> NumText(v.n, v.hostInt).Some?)
    ensures !IsLiteral(v) ==> r.Err?
  {
    match v
    case Nil => Ok("")
    case Bool(b) => Ok(if b then "1" else "")
    case Num(n, i) => if NumText(n, i).Some? then Ok(NumText(n, i).value) else Err(Unmodelled("text of a float"))
    case Str(s) => Ok(s)
    case Arr(_) => Ok("Array")
    case _ => Err(Unmodelled("text of a non-literal"))
  }

  /** `(int)(string)v`: the integer an index or length argument stands for. */
  function ToIndex(v: Value): (r: Result<int, Fault>)
    ensures StringOf(v).Err? ==> r == Err(StringOf(v).error)
    ensures StringOf(v).Ok? && StringToInt(StringOf(v).value).Some? ==> r == Ok(StringToInt(StringOf(v).value).value)
  {
    var text :- StringOf(v);
    match StringToInt(text)
    case Some(i) => Ok(i)
    case None => Err(Unmodelled("numeric string"))
  }

  /** An integer the host holds, or a whole float below 10^14, reads back as itself; so does its decimal text. */
  lemma ToIndexOfNumber(k: int, hostInt: bool)
    requires hostInt || -100000000000000 < k < 100000000000000
    ensures ToIndex(Num(k as real, hostInt)) == Ok(k)
    ensures ToIndex(Str(IntText(k))) == Ok(k)
    ensures ToIndex(HostStr(IntText(k))) == Ok(k)
  {
    assert (k as real).Floor == k;
    IntTextRoundTrip(k);
  }

  /** Missing and empty arguments read as index 0; so do nil, false and every text that does not start like a number. */
  lemma ToIndexOfNothing(s: string)
    requires |s| > 0 && !IsDigit(s[0]) && !IsSpace(s[0]) && s[0] !in "+-."
    ensures ToIndex(Null) == Ok(0) && ToIndex(Nil) == Ok(0) && ToIndex(Bool(false)) == Ok(0)
    ensures ToIndex(Bool(true)) == Ok(1)
    ensures ToIndex(Str(s)) == Ok(0)
  {
    assert StringToInt("nil") == Some(0);
    assert StringToInt("1") == Some(1) by {
      assert "1" == NatText(1);
      IntTextRoundTrip(1);
    }
    assert StringToInt("0") == Some(0) by {
      assert "0" == NatText(0);
      IntTextRoundTrip(0);
    }
  }
}
