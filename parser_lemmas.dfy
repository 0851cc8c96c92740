/**
 * Precedence and associativity of the binary operators.  The parser's
 * results are WellGrouped; here it is shown that among WellGrouped trees
 * the sequence of operands and binary operators determines the grouping,
 * so a well-grouped tree over `a + b * c` can only be `a + (b * c)` and
 * one over `a - b - c` can only be `(a - b) - c`.
 */
module ParserLemmas {
  import opened Tokens
  import opened Ast
  import opened Syntax

  /** An element of the flattened form of an expression: an operand, or a binary operator between two. */
  datatype Piece = Atom(e: Expr) | Op(t: Token)

  /** The operands and binary operators of e from left to right; every non-binary node is one operand. */
  function Flat(e: Expr): (s: seq<Piece>)
    ensures |s| >= 1
    ensures !e.Binary? <==> |s| == 1
    ensures !e.Binary? ==> s == [Atom(e)]
  {
    if e.Binary? then Flat(e.left) + [Op(e.operator)] + Flat(e.right) else [Atom(e)]
  }

  /** Every operator in s binds at least as tightly as level k. */
  predicate OpsAtLeast(s: seq<Piece>, k: nat)
  {
    forall p :: 0 <= p < |s| && s[p].Op? ==> BinaryLevel(s[p].t.tokenType) >= k
  }

  /** No operator inside a well-grouped tree binds more loosely than the tree's own level. */
  lemma {:induction false} FlatOpsBound(e: Expr)
    requires WellGrouped(e)
    ensures OpsAtLeast(Flat(e), Level(e))
    decreases e
  {
    if e.Binary? {
      var k := Level(e);
      var l, r := Flat(e.left), Flat(e.right);
      FlatOpsBound(e.left);
      FlatOpsBound(e.right);
      forall p | 0 <= p < |Flat(e)| && Flat(e)[p].Op?
        ensures BinaryLevel(Flat(e)[p].t.tokenType) >= k
      {
        if p < |l| {
          assert Flat(e)[p] == l[p];
        } else if p > |l| {
          assert Flat(e)[p] == r[p - |l| - 1];
        }
      }
    }
  }

  /**
   * The root operator of a well-grouped binary tree sits at position
   * |Flat(left)|: every operator binds at least as tightly as it, and
   * every operator after it binds strictly more tightly.
   */
  lemma RootPosition(e: Expr)
    requires WellGrouped(e) && e.Binary?
    ensures |Flat(e.left)| < |Flat(e)| && Flat(e)[|Flat(e.left)|] == Op(e.operator)
    ensures BinaryLevel(e.operator.tokenType) == Level(e)
    ensures OpsAtLeast(Flat(e), Level(e))
    ensures forall p :: |Flat(e.left)| < p < |Flat(e)| && Flat(e)[p].Op? ==> BinaryLevel(Flat(e)[p].t.tokenType) > Level(e)
  {
    var l, r := Flat(e.left), Flat(e.right);
    assert Flat(e) == l + [Op(e.operator)] + r;
    FlatOpsBound(e);
    FlatOpsBound(e.right);
    OpsAboveAfter(l, Op(e.operator), r, Level(e.right), Level(e));
  }

  /** In l + [o] + r, every operator after o comes from r, so it binds as r's operators do. */
  lemma OpsAboveAfter(l: seq<Piece>, o: Piece, r: seq<Piece>, m: nat, k: nat)
    requires OpsAtLeast(r, m) && m > k
    ensures var s := l + [o] + r;
      forall p :: |l| < p < |s| && s[p].Op? ==> BinaryLevel(s[p].t.tokenType) > k
  {
    var s := l + [o] + r;
    forall p | |l| < p < |s| && s[p].Op?
      ensures BinaryLevel(s[p].t.tokenType) > k
    {
      assert s[p] == r[p - |l| - 1];
    }
  }

  /** Two well-grouped trees with the same operands and operators in the same order are the same tree. */
  lemma {:induction false} GroupingUnique(e1: Expr, e2: Expr)
    requires WellGrouped(e1) && WellGrouped(e2)
    requires Flat(e1) == Flat(e2)
    ensures e1 == e2
    decreases e1
  {
    if e1.Binary? && e2.Binary? {
      var s := Flat(e1);
      var i, j := |Flat(e1.left)|, |Flat(e2.left)|;
      RootPosition(e1);
      RootPosition(e2);
      assert Level(e1) == Level(e2) by {
        assert BinaryLevel(s[i].t.tokenType) >= Level(e2);
        assert BinaryLevel(s[j].t.tokenType) >= Level(e1);
      }
      assert i == j;
      assert Flat(e1.left) == s[..i] == Flat(e2.left);
      assert Flat(e1.right) == s[i + 1..] == Flat(e2.right);
      GroupingUnique(e1.left, e2.left);
      GroupingUnique(e1.right, e2.right);
    }
  }

  /** Operands that the parser produces at the primary level: literals, variables, groupings and the like. */
  predicate Primaries(a: Expr, b: Expr, c: Expr) {
    && Level(a) == 10 && WellGrouped(a)
    && Level(b) == 10 && WellGrouped(b)
    && Level(c) == 10 && WellGrouped(c)
  }

  /** `a + b * c`: multiplication binds more tightly than addition. */
  lemma ProductBindsTighter(e: Expr, a: Expr, plus: Token, b: Expr, times: Token, c: Expr)
    requires WellGrouped(e) && Primaries(a, b, c)
    requires plus.tokenType == PLUS && times.tokenType == STAR
    requires Flat(e) == [Atom(a), Op(plus), Atom(b), Op(times), Atom(c)]
    ensures e == Binary(a, plus, Binary(b, times, c))
  {
    var product := Binary(b, times, c);
    var expected := Binary(a, plus, product);
    assert Flat(product) == [Atom(b), Op(times), Atom(c)];
    assert Flat(expected) == Flat(e);
    GroupingUnique(e, expected);
  }

  /** `a - b - c`: operators of one level group to the left. */
  lemma SubtractionGroupsLeft(e: Expr, a: Expr, minus1: Token, b: Expr, minus2: Token, c: Expr)
    requires WellGrouped(e) && Primaries(a, b, c)
    requires minus1.tokenType == MINUS && minus2.tokenType == MINUS
    requires Flat(e) == [Atom(a), Op(minus1), Atom(b), Op(minus2), Atom(c)]
    ensures e == Binary(Binary(a, minus1, b), minus2, c)
  {
    var difference := Binary(a, minus1, b);
    var expected := Binary(difference, minus2, c);
    assert Flat(difference) == [Atom(a), Op(minus1), Atom(b)];
    assert Flat(expected) == Flat(e);
    GroupingUnique(e, expected);
  }
}
