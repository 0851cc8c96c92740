/**
 * What the interpreter does with operand values once they are computed:
 * literal nodes, unary, binary and logical operators, `typeof`, and the
 * arity check a call performs before calling.
 */
module Operators {
  import opened Wrappers
  import opened Tokens
  import Ast
  import opened Runtime
  import opened HostText
  import opened Text

  /* ---------- Literals ---------- */

  /**
   * The value of a literal node: the payload cast to the node's kind —
   * true and false to a boolean, a string to its text, a number to the
   * value of its numeral — and nil for every other kind.
   */
  function LiteralRule(kind: TokenType, payload: Ast.LiteralValue): (r: Result<Value, Fault>)
    ensures r.Ok? ==> IsScalar(r.value)
    ensures kind == TRUE || kind == FALSE ==> r.Ok? && r.value.Bool?
    ensures (kind == TRUE || kind == FALSE) && payload.LBool? ==> r == Ok(Bool(payload.b))
    ensures kind == STRING && payload.LText? ==> r == Ok(Str(payload.text))
    ensures kind == NUMBER && payload.LText? ==> (r.Ok? <==> IsNumeral(payload.text))
    ensures kind == NUMBER && payload.LText? && IsNumeral(payload.text) ==> r == Ok(Num(NumeralValue(payload.text), false))
    ensures kind !in {TRUE, FALSE, STRING, NUMBER} ==> r == Ok(Nil)
  {
    match kind
    case TRUE => Ok(Bool(PayloadTruth(payload)))
    case FALSE => Ok(Bool(PayloadTruth(payload)))
    case STRING => Ok(Str(PayloadText(payload)))
    case NUMBER =>
      (match payload
       case LText(t) => if IsNumeral(t) then Ok(Num(NumeralValue(t), false)) else Err(Unmodelled("float cast of a non-numeral"))
       case LBool(b) => Ok(Num(if b then 1.0 else 0.0, false))
       case LNull => Ok(Num(0.0, false)))
    case _ => Ok(Nil)
  }

  /** The host's boolean cast of a payload. */
  function PayloadTruth(payload: Ast.LiteralValue): (b: bool)
    ensures payload.LNull? ==> !b
    ensures payload.LText? ==> (b <==> payload.text != "" && payload.text != "0")
  {
    match payload
    case LBool(b) => b
    case LNull => false
    case LText(t) => t != "" && t != "0"
  }

  /** The host's string cast of a payload. */
  function PayloadText(payload: Ast.LiteralValue): (s: string)
    ensures payload.LText? ==> s == payload.text
    ensures payload.LNull? ==> s == ""
  {
    match payload
    case LBool(b) => if b then "1" else ""
    case LNull => ""
    case LText(t) => t
  }

  /* ---------- Unary operators ---------- */

  function NumberOperand(op: Token, v: Value): (r: Result<real, Fault>)
    ensures r.Ok? <==> v.Num?
    ensures r.Ok? ==> r.value == v.n
    ensures r.Err? ==> r.error == Thrown(RuntimeError("Operand must be a number.", op.line, op.column))
  {
    if v.Num? then Ok(v.n) else Err(Thrown(RuntimeError("Operand must be a number.", op.line, op.column)))
  }

  /**
   * `!` gives the negated truthiness of any operand; `-` negates a number
   * and rejects everything else at the operator; any other operator gives
   * nil.  The result is always a literal.
   */
  function UnaryRule(op: Token, v: Value): (r: Result<Value, Fault>)
    reads (if v.Arr? then {v.arr} else {})
    ensures r.Ok? ==> IsScalar(r.value)
    ensures op.tokenType == BANG ==> r == Ok(Bool(!IsTruthy(v)))
    ensures op.tokenType == MINUS ==> (r.Ok? <==> v.Num?)
    ensures op.tokenType == MINUS && v.Num? ==> r == Ok(Num(-v.n, v.hostInt))
    ensures op.tokenType == MINUS && !v.Num? ==> r == Err(Thrown(RuntimeError("Operand must be a number.", op.line, op.column)))
    ensures op.tokenType != BANG && op.tokenType != MINUS ==> r == Ok(Nil)
  {
    match op.tokenType
    case BANG => Ok(Bool(!IsTruthy(v)))
    case MINUS =>
      var n :- NumberOperand(op, v);
      Ok(Num(-n, v.hostInt))
    case _ => Ok(Nil)
  }

  /** Negating a number twice gives the number back. */
  lemma NegationInvolutive(op: Token, v: Value)
    requires op.tokenType == MINUS && v.Num?
    ensures UnaryRule(op, UnaryRule(op, v).value) == Ok(v)
  {
  }

  /** `!!v` is the truthiness of v as a boolean. */
  lemma DoubleNot(op: Token, v: Value)
    requires op.tokenType == BANG
    ensures UnaryRule(op, UnaryRule(op, v).value) == Ok(Bool(IsTruthy(v)))
  {
  }

  /* ---------- Binary operators ---------- */

  /** What a binary operator yields before anything is allocated: a value, or the merge of two arrays into a new one. */
  datatype BinaryResult = Plain(value: Value) | Merge(left: LoxArray, right: LoxArray)

  function NumberOperands(op: Token, l: Value, r: Value): (res: Result<(real, real), Fault>)
    ensures res.Ok? <==> l.Num? && r.Num?
    ensures res.Ok? ==> res.value == (l.n, r.n)
    ensures res.Err? ==> res.error == Thrown(RuntimeError("Operands must be numbers.", op.line, op.column))
  {
    if l.Num? && r.Num? then Ok((l.n, r.n))
    else Err(Thrown(RuntimeError("Operands must be numbers.", op.line, op.column)))
  }

  /** The host keeps an integer result of integer operands as an integer. */
  function Arith(n: real, l: Value, r: Value): Value
    requires l.Num? && r.Num?
  {
    Num(n, l.hostInt && r.hostInt && IsWhole(n))
  }

  /**
   * Division as written: a float zero divisor gives the integer 0, but an
   * integer zero divisor (a count, an index, or the 0 an earlier division
   * by zero produced) fails in the host.
   */
  function QuotientAsWritten(l: Value, r: Value): (res: Result<Value, Fault>)
    requires l.Num? && r.Num?
    ensures r.n == 0.0 && !r.hostInt ==> res == Ok(Num(0.0, true))
    ensures r.n == 0.0 && r.hostInt ==> res == Err(HostFailure(None))
  {
    if r.n == 0.0 && !r.hostInt then Ok(Num(0.0, true))
    else if r.n == 0.0 then Err(HostFailure(None))
    else Ok(Arith(l.n / r.n, l, r))
  }

  /** `1 / (1 / 0)`: the zero the inner division yields makes the outer one fail. */
  lemma DivisionByItsOwnZero()
    ensures QuotientAsWritten(Num(1.0, false), Num(0.0, false)) == Ok(Num(0.0, true))
    ensures QuotientAsWritten(Num(1.0, false), QuotientAsWritten(Num(1.0, false), Num(0.0, false)).value) == Err(HostFailure(None))
  {
  }

  /** Division as evidently intended: every zero divisor gives 0; otherwise the quotient. */
  function Quotient(l: Value, r: Value): (res: Value)
    requires l.Num? && r.Num?
    ensures res.Num?
    ensures r.n == 0.0 ==> res == Num(0.0, true)
    ensures r.n != 0.0 ==> res.n * r.n == l.n
    ensures r.n != 0.0 || !r.hostInt ==> Ok(res) == QuotientAsWritten(l, r)
  {
    if r.n == 0.0 then Num(0.0, true) else Arith(l.n / r.n, l, r)
  }

  /**
   * PHP's loose `==` on the values of two literals: two values of one kind
   * compare by value; nil against a string compares "" with it; nil or a
   * boolean against any other scalar compares truth values; a number or
   * an array against a string without a digit, or an array against a
   * number, is unequal.  Operands that are not literals fail in the host.
   */
  function LooseEquals(l: Value, r: Value): (res: Result<bool, Fault>)
    ensures !IsLiteral(l) || !IsLiteral(r) ==> res == Err(HostFailure(None))
    ensures l.Nil? && r.Nil? ==> res == Ok(true)
    ensures l.Bool? && r.Bool? ==> res == Ok(l.b == r.b)
    ensures l.Num? && r.Num? ==> res == Ok(l.n == r.n)
    ensures l.Str? && r.Str? && l.s == r.s ==> res == Ok(true)
    ensures l.Str? && r.Str? && (!HasDigit(l.s) || !HasDigit(r.s)) ==> res == Ok(l.s == r.s)
    ensures l.Nil? && r.Str? ==> res == Ok(r.s == "")
    ensures l.Nil? && r.Num? ==> res == Ok(r.n == 0.0)
    ensures l.Bool? && IsScalar(r) ==> res == Ok(l.b == IsTruthy(r))
    ensures l.Num? && r.Str? && !HasDigit(r.s) ==> res == Ok(false)
    ensures l.Arr? && (r.Num? || r.Str?) ==> res == Ok(false)
    ensures res.Err? && IsLiteral(l) && IsLiteral(r) ==> res.error.Unmodelled?
  {
    if !IsLiteral(l) || !IsLiteral(r) then Err(HostFailure(None))
    else if l.Arr? && r.Arr? then Err(Unmodelled("comparison of two arrays"))
    else if l.Arr? || r.Arr? then
      var other := if l.Arr? then r else l;
      if other.Num? || other.Str? then Ok(false)
      else Err(Unmodelled("truth of an array"))
    else if l.Nil? && r.Nil? then Ok(true)
    else if l.Nil? && r.Str? then Ok(r.s == "")
    else if l.Str? && r.Nil? then Ok(l.s == "")
    else if l.Nil? || r.Nil? || l.Bool? || r.Bool? then Ok(IsTruthy(l) == IsTruthy(r))
    else if l.Num? && r.Num? then Ok(l.n == r.n)
    else if l.Str? && r.Str? then
      if l.s == r.s then Ok(true)
      else if !HasDigit(l.s) || !HasDigit(r.s) then Ok(false)
      else Err(Unmodelled("comparison of numeric strings"))
    else
      var text := if l.Str? then l.s else r.s;
      if HasDigit(text) then Err(Unmodelled("comparison of a number with a numeric string"))
      else Ok(false)
  }

  /** A string without digits is never numeric, so two such strings compare as text. */
  predicate HasDigit(s: string)
  {
    exists i :: 0 <= i < |s| && IsDigit(s[i])
  }

  /** Loose equality is symmetric. */
  lemma LooseEqualsSymmetric(l: Value, r: Value)
    ensures LooseEquals(l, r) == LooseEquals(r, l)
  {
  }

  /** Loose equality is not transitive: nil equals false and false equals "0", yet nil is unequal to "0". */
  lemma LooseEqualsNotTransitive()
    ensures LooseEquals(Nil, Bool(false)) == Ok(true)
    ensures LooseEquals(Bool(false), Str("0")) == Ok(true)
    ensures LooseEquals(Nil, Str("0")) == Ok(false)
  {
  }

  const ComparisonOps: set<TokenType> := {GREATER, GREATER_EQUAL, LESS, LESS_EQUAL}
  const NumericOps: set<TokenType> := {GREATER, GREATER_EQUAL, LESS, LESS_EQUAL, MINUS, SLASH, STAR, MODULO}

  /**
   * A binary operator applied to two evaluated operands.  Comparisons and
   * arithmetic other than `+` need two numbers; `+` adds numbers,
   * concatenates strings and merges arrays; `==` and `!=` compare
   * loosely; any other operator gives nil.
   */
  function BinaryRule(op: Token, l: Value, r: Value): (res: Result<BinaryResult, Fault>)
    ensures op.tokenType in NumericOps && !(l.Num? && r.Num?) ==>
              res == Err(Thrown(RuntimeError("Operands must be numbers.", op.line, op.column)))
    ensures op.tokenType in ComparisonOps && l.Num? && r.Num? ==> res.Ok? && res.value.Plain? && res.value.value.Bool?
    ensures op.tokenType == PLUS ==> (res.Ok? <==> (l.Num? && r.Num?) || (l.Str? && r.Str?) || (l.Arr? && r.Arr?))
    ensures op.tokenType == PLUS && l.Str? && r.Str? ==> res == Ok(Plain(Str(l.s + r.s)))
    ensures res.Ok? && res.value.Merge? <==> op.tokenType == PLUS && l.Arr? && r.Arr?
    ensures res.Ok? && res.value.Merge? ==> res.value.left == l.arr && res.value.right == r.arr
    ensures res.Ok? && res.value.Plain? ==> IsScalar(res.value.value)
    ensures res.Err? && res.error.Thrown? ==> res.error.error.line == op.line && res.error.error.column == op.column
    ensures op.tokenType == EQUAL_EQUAL ==> (res.Ok? <==> LooseEquals(l, r).Ok?)
    ensures op.tokenType == EQUAL_EQUAL && res.Ok? ==> res.value == Plain(Bool(LooseEquals(l, r).value))
    ensures op.tokenType == BANG_EQUAL ==> (res.Ok? <==> LooseEquals(l, r).Ok?)
    ensures op.tokenType == BANG_EQUAL && res.Ok? ==> LooseEquals(l, r).Ok? && res.value == Plain(Bool(!LooseEquals(l, r).value))
  {
    if op.tokenType in NumericOps then
      if l.Num? && r.Num? then NumericRule(op.tokenType, l, r)
      else Err(Thrown(RuntimeError("Operands must be numbers.", op.line, op.column)))
    else if op.tokenType == PLUS then PlusRule(op, l, r)
    else if op.tokenType == EQUAL_EQUAL || op.tokenType == BANG_EQUAL then
      var eq :- LooseEquals(l, r);
      Ok(Plain(Bool(if op.tokenType == EQUAL_EQUAL then eq else !eq)))
    else Ok(Plain(Nil))
  }

  /** Comparisons and arithmetic on two numbers; the remainder is computed by the host's fmod, which is beyond this model. */
  function NumericRule(kind: TokenType, l: Value, r: Value): (res: Result<BinaryResult, Fault>)
    requires kind in NumericOps && l.Num? && r.Num?
    ensures res.Ok? <==> kind != MODULO
    ensures res.Ok? ==> res.value.Plain? && IsScalar(res.value.value)
    ensures kind in ComparisonOps ==> res.Ok? && res.value.value.Bool?
    ensures kind == LESS ==> res == Ok(Plain(Bool(l.n < r.n)))
    ensures kind == GREATER ==> res == Ok(Plain(Bool(l.n > r.n)))
    ensures kind == GREATER_EQUAL ==> res == Ok(Plain(Bool(l.n >= r.n)))
    ensures kind == LESS_EQUAL ==> res == Ok(Plain(Bool(l.n <= r.n)))
    ensures kind == SLASH ==> res == Ok(Plain(Quotient(l, r)))
    ensures kind == MINUS || kind == STAR ==> res.Ok? && res.value.value.Num?
  {
    match kind
    case GREATER => Ok(Plain(Bool(l.n > r.n)))
    case GREATER_EQUAL => Ok(Plain(Bool(l.n >= r.n)))
    case LESS => Ok(Plain(Bool(l.n < r.n)))
    case LESS_EQUAL => Ok(Plain(Bool(l.n <= r.n)))
    case MINUS => Ok(Plain(Arith(l.n - r.n, l, r)))
    case SLASH => Ok(Plain(Quotient(l, r)))
    case STAR => Ok(Plain(Arith(l.n * r.n, l, r)))
    case MODULO => Err(Unmodelled("fmod"))
  }

  /** `+`: numbers add, strings concatenate, arrays merge into a new array; any other pair is an error at the operator. */
  function PlusRule(op: Token, l: Value, r: Value): (res: Result<BinaryResult, Fault>)
    ensures res.Ok? <==> (l.Num? && r.Num?) || (l.Str? && r.Str?) || (l.Arr? && r.Arr?)
    ensures l.Num? && r.Num? ==> res == Ok(Plain(Arith(l.n + r.n, l, r)))
    ensures l.Str? && r.Str? ==> res == Ok(Plain(Str(l.s + r.s)))
    ensures l.Arr? && r.Arr? ==> res == Ok(Merge(l.arr, r.arr))
    ensures res.Err? ==> res.error == Thrown(RuntimeError("Operands must be two numbers, strings or arrays.", op.line, op.column))
  {
    if l.Num? && r.Num? then Ok(Plain(Arith(l.n + r.n, l, r)))
    else if l.Str? && r.Str? then Ok(Plain(Str(l.s + r.s)))
    else if l.Arr? && r.Arr? then Ok(Merge(l.arr, r.arr))
    else Err(Thrown(RuntimeError("Operands must be two numbers, strings or arrays.", op.line, op.column)))
  }

  /** `!=` is the negation of `==` whenever the comparison succeeds. */
  lemma NotEqualNegatesEqual(eq: Token, ne: Token, l: Value, r: Value)
    requires eq.tokenType == EQUAL_EQUAL && ne.tokenType == BANG_EQUAL
    requires BinaryRule(eq, l, r).Ok?
    ensures BinaryRule(ne, l, r).Ok?
    ensures BinaryRule(ne, l, r).value.value.b == !BinaryRule(eq, l, r).value.value.b
  {
  }

  /** Every nil, boolean, number and string is equal to itself. */
  lemma EqualityReflexive(eq: Token, v: Value)
    requires eq.tokenType == EQUAL_EQUAL && (v.Nil? || v.Bool? || v.Num? || v.Str?)
    ensures BinaryRule(eq, v, v) == Ok(Plain(Bool(true)))
  {
  }

  /** `a < b` and `b > a` agree, and exactly one of `a < b`, `a >= b` holds. */
  lemma ComparisonsAgree(lt: Token, gt: Token, ge: Token, a: Value, b: Value)
    requires lt.tokenType == LESS && gt.tokenType == GREATER && ge.tokenType == GREATER_EQUAL
    requires a.Num? && b.Num?
    ensures BinaryRule(lt, a, b) == BinaryRule(gt, b, a)
    ensures BinaryRule(lt, a, b).value.value.b != BinaryRule(ge, a, b).value.value.b
  {
  }

  /* ---------- Logical operators ---------- */

  /** `or` stops at a truthy left operand, `and` (every other operator) at a falsy one. */
  predicate ShortCircuits(op: Token, left: Value)
    reads (if left.Arr? then {left.arr} else {})
  {
    if op.tokenType == OR then IsTruthy(left) else !IsTruthy(left)
  }

  /**
   * The value of a logical expression as written: the left operand when
   * it decides, otherwise the host boolean of the right operand's
   * truthiness, which is not a literal and so is always truthy.
   */
  function LogicalAsWritten(op: Token, left: Value, right: Value): (v: Value)
    reads (if left.Arr? then {left.arr} else {}), (if right.Arr? then {right.arr} else {})
    ensures ShortCircuits(op, left) ==> v == left
    ensures !ShortCircuits(op, left) ==> v == HostBool(IsTruthy(right))
  {
    if ShortCircuits(op, left) then left else HostBool(IsTruthy(right))
  }

  /** `false or false` is truthy as written. */
  lemma FalseOrFalseIsTruthy(or: Token)
    requires or.tokenType == OR
    ensures LogicalAsWritten(or, Bool(false), Bool(false)) == HostBool(false)
    ensures IsTruthy(LogicalAsWritten(or, Bool(false), Bool(false)))
  {
  }

  /** The value of a logical expression as evidently intended: the right operand's truthiness as a boolean literal. */
  function Logical(op: Token, left: Value, right: Value): (v: Value)
    reads (if left.Arr? then {left.arr} else {}), (if right.Arr? then {right.arr} else {})
    ensures ShortCircuits(op, left) ==> v == left
    ensures !ShortCircuits(op, left) ==> v == Bool(IsTruthy(right))
  {
    if ShortCircuits(op, left) then left else Bool(IsTruthy(right))
  }

  /** The truthiness of `a or b` is the disjunction of the operands' truthiness, that of `a and b` their conjunction. */
  lemma LogicalTruth(op: Token, left: Value, right: Value)
    requires op.tokenType == OR || op.tokenType == AND
    ensures op.tokenType == OR ==> IsTruthy(Logical(op, left, right)) == (IsTruthy(left) || IsTruthy(right))
    ensures op.tokenType == AND ==> IsTruthy(Logical(op, left, right)) == (IsTruthy(left) && IsTruthy(right))
  {
  }

  /* ---------- typeof ---------- */

  /**
   * The name `typeof` gives: the host class name without its "Lox"
   * prefix.  Raw null and booleans fail in the host; a raw string names a
   * host class to look up, which is beyond this model.
   */
  function TypeName(v: Value): (r: Result<string, Fault>)
    ensures IsLiteral(v) || v.Fn? || v.Class? || v.Instance? || v.Native? ==> r.Ok?
    ensures v.Null? || v.HostBool? ==> r == Err(HostFailure(None))
  {
    match v
    case Nil => Ok("Nil")
    case Bool(_) => Ok("Boolean")
    case Num(_, _) => Ok("Number")
    case Str(_) => Ok("String")
    case Arr(_) => Ok("Array")
    case Fn(_) => Ok("Function")
    case Class(_) => Ok("Class")
    case Instance(_) => Ok("Instance")
    case Native(n) =>
      Ok(match n
         case ArrayClosure(_, _) => "Closure"
         case ToStringOf(_) => "ToString"
         case StringGet(_) => "Get"
         case StringExplode(_) => "Explode")
    case Null => Err(HostFailure(None))
    case HostBool(_) => Err(HostFailure(None))
    case HostStr(_) => Err(Unmodelled("class lookup by name"))
  }

  /** Two literals have the same type name exactly when they are of the same kind. */
  lemma TypeNamesSeparateLiterals(a: Value, b: Value)
    requires IsLiteral(a) && IsLiteral(b)
    ensures TypeName(a) == TypeName(b) <==>
              (a.Nil? && b.Nil?) || (a.Bool? && b.Bool?) || (a.Num? && b.Num?) || (a.Str? && b.Str?) || (a.Arr? && b.Arr?)
  {
  }

  /* ---------- Arity ---------- */

  /** A call passes the arity check when the callee lists no arities or lists the argument count. */
  predicate ArityAccepts(arities: seq<nat>, count: nat)
  {
    |arities| == 0 || count in arities
  }

  /** The decimal texts of ns joined with ", ". */
  function NatList(ns: seq<nat>): (s: string)
  {
    Join(", ", seq(|ns|, i requires 0 <= i < |ns| => NatText(ns[i])))
  }

  /** The accepted counts as the error names them: "n", or "a, b or c". */
  function ExpectedText(arities: seq<nat>): (s: string)
    requires |arities| > 0
    ensures |arities| == 1 ==> s == NatText(arities[0])
    ensures |arities| > 1 ==> s == NatList(arities[..|arities| - 1]) + " or " + NatText(arities[|arities| - 1])
  {
    var last := arities[|arities| - 1];
    if |arities| == 1 then NatText(last) else NatList(arities[..|arities| - 1]) + " or " + NatText(last)
  }

  /** The error a call raises at its closing parenthesis when the argument count is not accepted. */
  function ArityCheck(arities: seq<nat>, count: nat, paren: Token): (r: Result<(), Fault>)
    ensures r.Ok? <==> ArityAccepts(arities, count)
    ensures r.Err? ==> r.error == Thrown(RuntimeError(
                          "Expected " + ExpectedText(arities) + " arguments but got " + NatText(count) + ".",
                          paren.line, paren.column))
  {
    if ArityAccepts(arities, count) then Ok(())
    else Err(Thrown(RuntimeError("Expected " + ExpectedText(arities) + " arguments but got " + NatText(count) + ".", paren.line, paren.column)))
  }

  /** Calling something that takes 0 or 1 arguments with 2 names both counts. */
  lemma ArityMessageExample(paren: Token)
    ensures ArityCheck([0, 1], 2, paren)
            == Err(Thrown(RuntimeError("Expected 0 or 1 arguments but got 2.", paren.line, paren.column)))
  {
    var a: seq<nat> := [0, 1];
    ExpectedZeroOrOne(a);
    assert NatText(2) == "2";
    assert !ArityAccepts(a, 2);
    assert "Expected " + "0 or 1" + " arguments but got " + "2" + "." == "Expected 0 or 1 arguments but got 2.";
  }

  lemma ExpectedZeroOrOne(a: seq<nat>)
    requires a == [0, 1]
    ensures ExpectedText(a) == "0 or 1"
  {
    assert a[..1] == [0];
    assert NatText(0) == "0" && NatText(1) == "1";
    assert NatList([0]) == "0" by {
      assert seq(1, i requires 0 <= i < 1 => NatText([0][i])) == ["0"];
    }
  }
}
