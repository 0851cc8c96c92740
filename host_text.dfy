/**
 * The host's conversions between numbers and text that the runtime
 * relies on: decimal digits, the integer cast of a string, the value of a
 * numeric literal, and splitting and joining strings on a separator.
 * Characters stand for bytes.
 */
module HostText {
  import opened Wrappers
  import opened Text

  predicate AllDigits(s: string)
  {
    forall i :: 0 <= i < |s| ==> IsDigit(s[i])
  }

  function DigitValue(c: char): (d: nat)
    requires IsDigit(c)
    ensures d < 10
  {
    c as int - '0' as int
  }

  function DigitChar(d: nat): (c: char)
    requires d < 10
    ensures IsDigit(c) && DigitValue(c) == d
  {
    ('0' as int + d) as char
  }

  /** The value of a string of decimal digits, most significant first; 0 for the empty string. */
  function DigitsValue(s: string): (n: nat)
    requires AllDigits(s)
    decreases |s|
  {
    if |s| == 0 then 0 else DigitsValue(s[..|s| - 1]) * 10 + DigitValue(s[|s| - 1])
  }

  /** The decimal digits of n without leading zeros, "0" for zero. */
  function NatText(n: nat): (s: string)
    ensures AllDigits(s) && |s| >= 1
    ensures |s| > 1 ==> s[0] != '0'
    decreases n
  {
    if n < 10 then [DigitChar(n)] else NatText(n / 10) + [DigitChar(n % 10)]
  }

  /** Reading back the digits of n gives n. */
  lemma {:induction false} NatTextValue(n: nat)
    ensures DigitsValue(NatText(n)) == n
    decreases n
  {
    if n >= 10 {
      var s := NatText(n);
      assert s[..|s| - 1] == NatText(n / 10);
      NatTextValue(n / 10);
    }
  }

  /** An integer in decimal, with a leading minus sign when negative. */
  function IntText(i: int): (s: string)
    ensures |s| >= 1
    ensures i < 0 ==> s == "-" + NatText(-i)
    ensures i >= 0 ==> s == NatText(i)
  {
    if i < 0 then "-" + NatText(-i) else NatText(i)
  }

  /** The number of leading digits of s. */
  function DigitRun(s: string): (k: nat)
    ensures k <= |s| && AllDigits(s[..k])
    ensures k < |s| ==> !IsDigit(s[k])
    decreases |s|
  {
    if |s| == 0 || !IsDigit(s[0]) then 0
    else
      var k := 1 + DigitRun(s[1..]);
      assert s[..k] == [s[0]] + s[1..][..k - 1];
      k
  }

  predicate IsSpace(c: char)
  {
    c == ' ' || c == '\t' || c == '\n' || c == '\r' || c == 11 as char || c == 12 as char
  }

  /**
   * The magnitude the integer cast reads after an optional sign: the
   * leading digits, or 0 when s does not start with a digit.  When a
   * fraction or an exponent may follow the digits the host reads a float
   * first; those strings are beyond this model (None).
   */
  function UnsignedPrefix(s: string): (r: Option<nat>)
    ensures AllDigits(s) ==> r == Some(DigitsValue(s))
    ensures |s| > 0 && !IsDigit(s[0]) && s[0] != '.' ==> r == Some(0)
  {
    var k := DigitRun(s);
    if k == 0 then (if |s| > 0 && s[0] == '.' then None else Some(0))
    else if k < |s| && (s[k] == '.' || s[k] == 'e' || s[k] == 'E') then None
    else
      assert AllDigits(s) ==> k == |s| && s[..k] == s;
      Some(DigitsValue(s[..k]))
  }

  /**
   * The host's `(int)` cast of a string: an optional sign and the leading
   * digits; 0 when the string does not start like a number.  Leading
   * whitespace, fractions and exponents are beyond this model (None).
   */
  function StringToInt(s: string): (r: Option<int>)
    ensures |s| == 0 ==> r == Some(0)
    ensures |s| > 0 && !IsDigit(s[0]) && !IsSpace(s[0]) && s[0] !in "+-." ==> r == Some(0)
  {
    if |s| == 0 then Some(0)
    else if IsSpace(s[0]) then None
    else if s[0] == '-' then
      match UnsignedPrefix(s[1..])
      case Some(n) => Some(-(n as int))
      case None => None
    else if s[0] == '+' then
      match UnsignedPrefix(s[1..])
      case Some(n) => Some(n)
      case None => None
    else
      match UnsignedPrefix(s)
      case Some(n) => Some(n)
      case None => None
  }

  /** The integer cast reads back every integer's decimal text. */
  lemma IntTextRoundTrip(i: int)
    ensures StringToInt(IntText(i)) == Some(i)
  {
    var s := IntText(i);
    if i < 0 {
      NatTextValue(-i);
      assert s[1..] == NatText(-i);
    } else {
      NatTextValue(i);
    }
  }

  /** A numeral as the scanner reads one: digits, then optionally a dot and more digits. */
  predicate IsNumeral(t: string)
  {
    var k := DigitRun(t);
    k >= 1 && (k == |t| || (t[k] == '.' && |t| > k + 1 && AllDigits(t[k + 1..])))
  }

  function Pow10(n: nat): (p: real)
    ensures p >= 1.0
  {
    if n == 0 then 1.0 else 10.0 * Pow10(n - 1)
  }

  /** The exact value a numeral denotes. */
  function NumeralValue(t: string): (v: real)
    requires IsNumeral(t)
    ensures v >= 0.0
    ensures DigitRun(t) == |t| ==> v == DigitsValue(t) as real
  {
    var k := DigitRun(t);
    assert k == |t| ==> t[..k] == t;
    if k == |t| then DigitsValue(t) as real
    else DigitsValue(t[..k]) as real + DigitsValue(t[k + 1..]) as real / Pow10(|t| - k - 1)
  }

  /** Every natural number's decimal text is a numeral denoting it. */
  lemma NatNumeral(n: nat)
    ensures IsNumeral(NatText(n)) && NumeralValue(NatText(n)) == n as real
  {
    var s := NatText(n);
    assert s[..|s|] == s;
    assert DigitRun(s) == |s|;
    NatTextValue(n);
  }

  /** The integer truncation of r towards zero. */
  function Trunc(r: real): (i: int)
    ensures r >= 0.0 ==> 0.0 <= i as real <= r < i as real + 1.0
    ensures r < 0.0 ==> i as real - 1.0 < r && r <= i as real && i <= 0
  {
    if r >= 0.0 then r.Floor else -((-r).Floor)
  }

  predicate IsWhole(r: real)
  {
    r.Floor as real == r
  }

  /* ---------- Splitting and joining ---------- */

  predicate OccursAt(sep: string, s: string, i: nat)
  {
    i + |sep| <= |s| && s[i..i + |sep|] == sep
  }

  /** The first position at or after from where sep occurs in s. */
  function FindFrom(sep: string, s: string, from: nat): (r: Option<nat>)
    requires |sep| > 0
    decreases |s| - from
    ensures r.Some? ==> from <= r.value && OccursAt(sep, s, r.value)
    ensures r.Some? ==> forall j :: from <= j < r.value ==> !OccursAt(sep, s, j)
    ensures r.None? ==> forall j :: from <= j ==> !OccursAt(sep, s, j)
  {
    if from + |sep| > |s| then None
    else if s[from..from + |sep|] == sep then Some(from)
    else FindFrom(sep, s, from + 1)
  }

  /** explode: the pieces of s between the occurrences of sep, read left to right. */
  function Explode(sep: string, s: string): (pieces: seq<string>)
    requires |sep| > 0
    decreases |s|
    ensures |pieces| >= 1
  {
    match FindFrom(sep, s, 0)
    case None => [s]
    case Some(i) => [s[..i]] + Explode(sep, s[i + |sep|..])
  }

  /** implode: the pieces with sep between each two. */
  function Join(sep: string, pieces: seq<string>): (s: string)
    ensures |pieces| == 1 ==> s == pieces[0]
    ensures |pieces| == 0 ==> s == ""
  {
    if |pieces| == 0 then ""
    else if |pieces| == 1 then pieces[0]
    else pieces[0] + sep + Join(sep, pieces[1..])
  }

  /** Joining the pieces of an explode with the same separator restores the string. */
  lemma {:induction false} JoinExplode(sep: string, s: string)
    requires |sep| > 0
    ensures Join(sep, Explode(sep, s)) == s
    decreases |s|
  {
    var f := FindFrom(sep, s, 0);
    if f.Some? {
      var i := f.value;
      var rest := s[i + |sep|..];
      var tail := Explode(sep, rest);
      JoinExplode(sep, rest);
      var ps := Explode(sep, s);
      assert ps == [s[..i]] + tail;
      assert ps[1..] == tail;
      assert Join(sep, ps) == s[..i] + sep + Join(sep, tail);
      assert s == s[..i] + s[i..i + |sep|] + rest;
    }
  }

  /** No piece of an explode contains the separator. */
  lemma {:induction false} ExplodePiecesFree(sep: string, s: string)
    requires |sep| > 0
    ensures forall k: int, j: nat :: 0 <= k < |Explode(sep, s)| ==> !OccursAt(sep, Explode(sep, s)[k], j)
    decreases |s|
  {
    var f := FindFrom(sep, s, 0);
    if f.Some? {
      var i := f.value;
      var rest := s[i + |sep|..];
      var tail := Explode(sep, rest);
      ExplodePiecesFree(sep, rest);
      var ps := Explode(sep, s);
      assert ps == [s[..i]] + tail;
      forall k: int, j: nat | 0 <= k < |ps|
        ensures !OccursAt(sep, ps[k], j)
      {
        if k == 0 {
          if OccursAt(sep, s[..i], j) {
            assert s[..i][j..j + |sep|] == s[j..j + |sep|];
            assert OccursAt(sep, s, j);
          }
        } else {
          assert ps[k] == tail[k - 1];
        }
      }
    }
  }
}
