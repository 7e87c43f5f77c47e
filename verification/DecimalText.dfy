/**
 The grammar of decimal strings: an optional plus, digits around an optional point, and an
 optional signed exponent. `Parse` takes a string apart the way the validator does.
 */
module DecimalText {
  import opened Common
  import opened DigitStrings

  datatype Sign = Unsigned | Plus | Minus
  datatype Exponent = Exponent(marker: char, sign: Sign, digits: string)
  datatype Numeral = Numeral(plus: bool, whole: string, point: bool, fraction: string, exponent: Option<Exponent>)

  predicate IsMarker(c: char) {
    c == 'e' || c == 'E'
  }

  predicate ValidExponent(x: Exponent) {
    IsMarker(x.marker) && x.digits != "" && AllDigits(x.digits)
  }

  predicate Valid(n: Numeral) {
    && AllDigits(n.whole) && AllDigits(n.fraction)
    && n.whole + n.fraction != ""
    && (!n.point ==> n.fraction == "")
    && (n.exponent.Some? ==> ValidExponent(n.exponent.value))
  }

  function PrintSign(s: Sign): string {
    match s
    case Unsigned => ""
    case Plus => "+"
    case Minus => "-"
  }

  function PrintMantissa(n: Numeral): string {
    n.whole + if n.point then "." + n.fraction else ""
  }

  function PrintExponent(x: Option<Exponent>): string {
    if x.None? then "" else [x.value.marker] + PrintSign(x.value.sign) + x.value.digits
  }

  function Print(n: Numeral): string {
    (if n.plus then "+" else "") + PrintMantissa(n) + PrintExponent(n.exponent)
  }

  // ---- Taking a string apart ------------------------------------------------

  function FindMarker(s: string): (k: nat)
    ensures k <= |s| && (k < |s| ==> IsMarker(s[k])) && forall i :: 0 <= i < k ==> !IsMarker(s[i])
  {
    if s == "" || IsMarker(s[0]) then 0
    else
      assert forall i :: 1 <= i < |s| ==> s[i] == s[1..][i - 1];
      1 + FindMarker(s[1..])
  }

  function FindPoint(s: string): (k: nat)
    ensures k <= |s| && (k < |s| ==> s[k] == '.') && forall i :: 0 <= i < k ==> s[i] != '.'
  {
    if s == "" || s[0] == '.' then 0
    else
      assert forall i :: 1 <= i < |s| ==> s[i] == s[1..][i - 1];
      1 + FindPoint(s[1..])
  }

  function Unsign(raw: string): string {
    if raw != "" && raw[0] == '+' then raw[1..] else raw
  }

  function MantissaOf(unsigned: string): string {
    unsigned[..FindMarker(unsigned)]
  }

  function SignOf(s: string): Sign {
    if s != "" && s[0] == '+' then Plus else if s != "" && s[0] == '-' then Minus else Unsigned
  }

  function ExponentOf(unsigned: string): Option<Exponent> {
    var k := FindMarker(unsigned);
    if k == |unsigned| then None
    else
      var s := unsigned[k + 1..];
      Some(Exponent(unsigned[k], SignOf(s), s[|PrintSign(SignOf(s))|..]))
  }

  function WholeOf(mantissa: string): string {
    mantissa[..FindPoint(mantissa)]
  }

  function FractionOf(mantissa: string): string {
    var d := FindPoint(mantissa);
    if d == |mantissa| then "" else mantissa[d + 1..]
  }

  function Split(raw: string): Numeral {
    var unsigned := Unsign(raw);
    var m := MantissaOf(unsigned);
    Numeral(raw != "" && raw[0] == '+', WholeOf(m), FindPoint(m) < |m|, FractionOf(m), ExponentOf(unsigned))
  }

  function Parse(raw: string): Option<Numeral> {
    if Valid(Split(raw)) then Some(Split(raw)) else None
  }

  // ---- The grammar is unambiguous ----------------------------------------------

  lemma {:induction false} MarkerAt(a: string, b: string)
    requires forall i :: 0 <= i < |a| ==> !IsMarker(a[i])
    requires b == "" || IsMarker(b[0])
    ensures FindMarker(a + b) == |a|
  {
    assert forall i :: 0 <= i < |a| ==> (a + b)[i] == a[i];
    assert b != "" ==> (a + b)[|a|] == b[0];
  }

  lemma {:induction false} PointAt(a: string, b: string)
    requires forall i :: 0 <= i < |a| ==> a[i] != '.'
    requires b == "" || b[0] == '.'
    ensures FindPoint(a + b) == |a|
  {
    assert forall i :: 0 <= i < |a| ==> (a + b)[i] == a[i];
    assert b != "" ==> (a + b)[|a|] == b[0];
  }

  lemma {:induction false} SplitExponent(m: string, x: Option<Exponent>)
    requires forall i :: 0 <= i < |m| ==> !IsMarker(m[i])
    requires x.Some? ==> ValidExponent(x.value)
    ensures MantissaOf(m + PrintExponent(x)) == m
    ensures ExponentOf(m + PrintExponent(x)) == x
  {
    var u := m + PrintExponent(x);
    MarkerAt(m, PrintExponent(x));
    if x.Some? {
      assert u[|m| + 1..] == PrintSign(x.value.sign) + x.value.digits;
    }
  }

  lemma {:induction false} SplitMantissa(n: Numeral)
    requires Valid(n)
    ensures var m := PrintMantissa(n);
      WholeOf(m) == n.whole && FractionOf(m) == n.fraction && (FindPoint(m) < |m| <==> n.point)
    ensures forall i :: 0 <= i < |PrintMantissa(n)| ==>
      IsDigit(PrintMantissa(n)[i]) || PrintMantissa(n)[i] == '.'
    ensures PrintMantissa(n) != "" && PrintMantissa(n)[0] != '+'
  {
    PointAt(n.whole, if n.point then "." + n.fraction else "");
  }

  lemma SplitSign(plus: bool, m: string, rest: string)
    requires m != "" && m[0] != '+'
    ensures var raw := (if plus then "+" else "") + m + rest;
      Unsign(raw) == m + rest && (raw != "" && raw[0] == '+' <==> plus)
  {
    var raw := (if plus then "+" else "") + m + rest;
    assert plus ==> raw[1..] == m + rest;
    assert !plus ==> raw == m + rest;
  }

  lemma {:induction false} SplitPrint(n: Numeral)
    requires Valid(n)
    ensures Split(Print(n)) == n
  {
    var m := PrintMantissa(n);
    SplitMantissa(n);
    SplitExponent(m, n.exponent);
    SplitSign(n.plus, m, PrintExponent(n.exponent));
    hide PrintMantissa, PrintExponent, ExponentOf, MantissaOf, WholeOf, FractionOf, FindPoint, Unsign, AllDigits;
  }

  lemma {:induction false} JoinExponent(unsigned: string)
    ensures PrintExponent(ExponentOf(unsigned)) == unsigned[FindMarker(unsigned)..]
  {
    var k := FindMarker(unsigned);
    if k < |unsigned| {
      var s := unsigned[k + 1..];
      assert s == PrintSign(SignOf(s)) + s[|PrintSign(SignOf(s))|..];
      assert unsigned[k..] == [unsigned[k]] + s;
    }
  }

  lemma {:induction false} JoinMantissa(m: string)
    ensures m == WholeOf(m) + if FindPoint(m) < |m| then "." + FractionOf(m) else ""
  {
    var d := FindPoint(m);
    if d < |m| { assert m[d..] == "." + m[d + 1..]; }
  }

  lemma JoinSign(raw: string)
    ensures raw == (if raw != "" && raw[0] == '+' then "+" else "") + Unsign(raw)
  {
  }

  lemma {:induction false} JoinUnsigned(unsigned: string)
    ensures unsigned == MantissaOf(unsigned) + unsigned[FindMarker(unsigned)..]
  {
  }

  lemma {:induction false} PrintSplit(raw: string)
    ensures Print(Split(raw)) == raw
  {
    var unsigned := Unsign(raw);
    var m := MantissaOf(unsigned);
    var tail := unsigned[FindMarker(unsigned)..];
    JoinMantissa(m);
    JoinExponent(unsigned);
    JoinUnsigned(unsigned);
    JoinSign(raw);
    hide WholeOf, FractionOf, FindPoint, FindMarker, ExponentOf, MantissaOf, PrintExponent, Unsign;
    var n := Split(raw);
    assert PrintMantissa(n) == m;
    assert PrintExponent(n.exponent) == tail;
    JoinThree(if n.plus then "+" else "", m, tail);
  }

  /** A string is accepted exactly when it is the printing of a valid numeral, and of only one. */
  lemma {:induction false} ParseIsUnique(raw: string, n: Numeral)
    ensures Parse(raw) == Some(n) <==> Valid(n) && Print(n) == raw
  {
    if Parse(raw) == Some(n) {
      PrintSplit(raw);
    }
    if Valid(n) && Print(n) == raw {
      SplitPrint(n);
    }
  }
}
