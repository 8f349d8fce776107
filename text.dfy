/** Decimal rendering of integers as C# string concatenation does it
    (`n + "/"`, `n.ToString()`), with the parser that inverts it, and the
    substring test behind `string.Contains`. */
module Text {
  import opened Common

  predicate IsDigit(c: char) {
    '0' <= c <= '9'
  }

  predicate AllDigits(s: string) {
    forall i :: 0 <= i < |s| ==> IsDigit(s[i])
  }

  function Digit(d: nat): (c: char)
    requires d < 10
    ensures IsDigit(c)
  {
    (48 + d) as char
  }

  function DigitValue(c: char): (d: nat)
    requires IsDigit(c)
    ensures d < 10 && Digit(d) == c
  {
    c as int - 48
  }

  /** The decimal digits of n, most significant first, without leading zeros. */
  function NatToDecimal(n: nat): (s: string)
    ensures |s| >= 1 && AllDigits(s)
    ensures (|s| == 1) == (n < 10)
    ensures n >= 10 ==> s[0] != '0'
    decreases n
  {
    if n < 10 then [Digit(n)] else NatToDecimal(n / 10) + [Digit(n % 10)]
  }

  /** Int32.ToString(): a minus sign for negative values, then the digits of the magnitude. */
  function IntToDecimal(i: int): (s: string)
  {
    if i < 0 then "-" + NatToDecimal(-i) else NatToDecimal(i)
  }

  /** The value of a string of decimal digits. */
  function DecimalValue(s: string): nat
    requires AllDigits(s)
  {
    if s == [] then 0 else DecimalValue(s[..|s| - 1]) * 10 + DigitValue(s[|s| - 1])
  }

  /** Parsing the rendered digits gives the number back. */
  lemma {:induction false} DecimalRoundTrip(n: nat)
    ensures DecimalValue(NatToDecimal(n)) == n
  {
    if n >= 10 {
      var s := NatToDecimal(n);
      DecimalRoundTrip(n / 10);
      assert s[..|s| - 1] == NatToDecimal(n / 10);
    }
  }

  /** Int32.Parse for what IntToDecimal produces: an optional minus sign, then digits. */
  function ParseInt(s: string): (r: Option<int>)
  {
    if |s| >= 2 && s[0] == '-' && AllDigits(s[1..]) then Some(-(DecimalValue(s[1..]) as int))
    else if |s| >= 1 && AllDigits(s) then Some(DecimalValue(s))
    else None
  }

  /** Rendering then parsing is the identity. */
  lemma IntRoundTrip(i: int)
    ensures ParseInt(IntToDecimal(i)) == Some(i)
  {
    var s := IntToDecimal(i);
    if i < 0 {
      var d := NatToDecimal(-i);
      assert s == "-" + d && s[1..] == d;
      DecimalRoundTrip(-i);
      assert |s| >= 2 && s[0] == '-' && AllDigits(s[1..]);
    } else {
      assert s == NatToDecimal(i);
      DecimalRoundTrip(i);
      assert IsDigit(s[0]);
    }
  }

  /** Distinct integers render differently. */
  lemma IntToDecimalInjective(a: int, b: int)
    ensures IntToDecimal(a) == IntToDecimal(b) <==> a == b
  {
    if IntToDecimal(a) == IntToDecimal(b) {
      IntRoundTrip(a);
      IntRoundTrip(b);
    }
  }

  /** The rendering of an integer holds only digits and possibly a leading minus sign. */
  lemma IntToDecimalChars(i: int)
    ensures forall k :: 0 <= k < |IntToDecimal(i)| ==> IsDigit(IntToDecimal(i)[k]) || IntToDecimal(i)[k] == '-'
  {
  }

  /** The first separator in `a + sep + b` sits right after a, when a holds none. */
  lemma FirstSeparator(a: string, b: string, sep: char)
    requires sep !in a
    ensures IndexOf(a + [sep] + b, sep) == |a|
  {
    var j := a + [sep] + b;
    assert j[|a|] == sep;
    assert forall i :: 0 <= i < |a| ==> j[i] == a[i];
  }

  /** A separator that occurs in neither left part splits two joined strings the same way. */
  lemma SplitAtSeparator(a1: string, b1: string, a2: string, b2: string, sep: char)
    requires sep !in a1 && sep !in a2
    requires a1 + [sep] + b1 == a2 + [sep] + b2
    ensures a1 == a2 && b1 == b2
  {
    var j := a1 + [sep] + b1;
    FirstSeparator(a1, b1, sep);
    FirstSeparator(a2, b2, sep);
    assert a1 == j[..|a1|] && a2 == j[..|a2|];
    assert b1 == j[|a1| + 1..] && b2 == j[|a2| + 1..];
  }

  /** `left + sep + right` with two integers and a separator that is neither a digit nor '-'
      determines both integers. */
  lemma JoinedIntsInjective(a: int, b: int, c: int, d: int, sep: char)
    requires !IsDigit(sep) && sep != '-'
    requires IntToDecimal(a) + [sep] + IntToDecimal(b) == IntToDecimal(c) + [sep] + IntToDecimal(d)
    ensures a == c && b == d
  {
    IntToDecimalChars(a);
    IntToDecimalChars(c);
    SplitAtSeparator(IntToDecimal(a), IntToDecimal(b), IntToDecimal(c), IntToDecimal(d), sep);
    IntToDecimalInjective(a, c);
    IntToDecimalInjective(b, d);
  }

  /** string.Contains: sub occurs in s at some position. */
  predicate Contains(s: string, sub: string) {
    exists k :: 0 <= k <= |s| - |sub| && OccursAt(s, sub, k)
  }

  predicate OccursAt(s: string, sub: string, k: int) {
    0 <= k <= |s| - |sub| && s[k..k + |sub|] == sub
  }

  /** Every string contains itself, so an exact name match is a substring match. */
  lemma ContainsSelf(s: string)
    ensures Contains(s, s)
  {
    assert OccursAt(s, s, 0);
  }
}
