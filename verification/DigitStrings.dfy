/** Strings of decimal digits: the numbers they denote, and their order as text. */
module DigitStrings {

  predicate IsDigit(c: char) {
    '0' <= c <= '9'
  }

  predicate AllDigits(s: string) {
    forall i :: 0 <= i < |s| ==> IsDigit(s[i])
  }

  function DigitValue(c: char): nat
    requires IsDigit(c)
  {
    (c - '0') as nat
  }

  function Pow10(n: nat): (p: nat)
    ensures p > 0
  {
    if n == 0 then 1 else 10 * Pow10(n - 1)
  }

  /** The number a string of digits denotes. */
  function Number(s: string): nat
    requires AllDigits(s)
  {
    if s == "" then 0 else 10 * Number(s[..|s| - 1]) + DigitValue(s[|s| - 1])
  }

  function Zeros(n: nat): (s: string)
    ensures |s| == n && AllDigits(s)
  {
    if n == 0 then "" else Zeros(n - 1) + "0"
  }

  lemma Pow10Plus(m: nat, n: nat)
    ensures Pow10(m + n) == Pow10(m) * Pow10(n)
  {
    if m > 0 {
      Pow10Plus(m - 1, n);
      assert 10 * (Pow10(m - 1) * Pow10(n)) == (10 * Pow10(m - 1)) * Pow10(n);
    }
  }

  lemma {:induction false} NumberBound(s: string)
    requires AllDigits(s)
    ensures Number(s) < Pow10(|s|)
  {
    if s != "" { NumberBound(s[..|s| - 1]); }
  }

  lemma {:induction false} NumberConcat(a: string, b: string)
    requires AllDigits(a) && AllDigits(b)
    ensures AllDigits(a + b) && Number(a + b) == Number(a) * Pow10(|b|) + Number(b)
  {
    if b == "" {
      assert a + b == a;
    } else {
      var c := b[..|b| - 1];
      NumberConcat(a, c);
      assert (a + b)[..|a + b| - 1] == a + c;
      assert Pow10(|b|) == 10 * Pow10(|c|);
      assert 10 * (Number(a) * Pow10(|c|)) == Number(a) * Pow10(|b|);
    }
  }

  /** Reads off five digits at once. */
  lemma FiveDigits(s: string)
    requires AllDigits(s) && |s| == 5
    ensures Number(s) ==
      10000 * DigitValue(s[0]) + 1000 * DigitValue(s[1]) + 100 * DigitValue(s[2])
      + 10 * DigitValue(s[3]) + DigitValue(s[4])
  {
    assert s[..4][..3] == s[..3] && s[..3][..2] == s[..2] && s[..2][..1] == s[..1] && s[..1][..0] == "";
    assert Number(s[..1]) == 10 * Number("") + DigitValue(s[0]);
    assert Number(s[..2]) == 10 * Number(s[..1]) + DigitValue(s[1]);
    assert Number(s[..3]) == 10 * Number(s[..2]) + DigitValue(s[2]);
    assert Number(s[..4]) == 10 * Number(s[..3]) + DigitValue(s[3]);
  }

  lemma {:induction false} NumberZeros(n: nat)
    ensures Number(Zeros(n)) == 0
  {
    if n > 0 {
      NumberZeros(n - 1);
      assert Zeros(n)[..n - 1] == Zeros(n - 1);
    }
  }

  lemma NumberPadded(s: string, n: nat)
    requires AllDigits(s)
    ensures Number(s + Zeros(n)) == Number(s) * Pow10(n)
  {
    NumberConcat(s, Zeros(n));
    NumberZeros(n);
  }

  lemma FirstDigit(s: string)
    requires AllDigits(s) && s != ""
    ensures Number(s) == DigitValue(s[0]) * Pow10(|s| - 1) + Number(s[1..])
    ensures Number(s[1..]) < Pow10(|s| - 1)
  {
    assert s == s[..1] + s[1..];
    NumberConcat(s[..1], s[1..]);
    assert Number(s[..1]) == 10 * Number("") + DigitValue(s[0]);
    NumberBound(s[1..]);
  }

  /** A string that does not start with a zero denotes a number of exactly its length. */
  lemma LeadingDigit(s: string)
    requires AllDigits(s) && s != "" && s[0] != '0'
    ensures Number(s) >= Pow10(|s| - 1)
  {
    FirstDigit(s);
    MulStep(0, DigitValue(s[0]), Pow10(|s| - 1));
  }

  // ---- Order as text -------------------------------------------------------

  /** The order of strings by their first difference. */
  predicate Precedes(a: string, b: string) {
    if a == "" then b != ""
    else b != "" && (a[0] < b[0] || (a[0] == b[0] && Precedes(a[1..], b[1..])))
  }

  /** Digit strings of one length are ordered as text exactly as the numbers they denote. */
  lemma {:induction false} TextOrderIsNumberOrder(a: string, b: string)
    requires AllDigits(a) && AllDigits(b) && |a| == |b|
    ensures Precedes(a, b) <==> Number(a) < Number(b)
    ensures a == b <==> Number(a) == Number(b)
  {
    if a != "" {
      FirstDigit(a);
      FirstDigit(b);
      TextOrderIsNumberOrder(a[1..], b[1..]);
      hide Number, Pow10;
      var p := Pow10(|a| - 1);
      var x, y := DigitValue(a[0]), DigitValue(b[0]);
      if x < y {
        MulStep(x, y, p);
      } else if y < x {
        MulStep(y, x, p);
      } else {
        assert a == [a[0]] + a[1..] && b == [b[0]] + b[1..];
      }
    }
  }

  lemma MulStep(x: nat, y: nat, p: nat)
    requires x < y
    ensures x * p + p <= y * p
  {
    if y == x + 1 {
      assert (x + 1) * p == x * p + p;
    } else {
      MulStep(x, y - 1, p);
      assert y * p == (y - 1) * p + p;
    }
  }

  // ---- Zeros at either end ---------------------------------------------------

  function DropLeadingZeros(s: string): (r: string) {
    if s != "" && s[0] == '0' then DropLeadingZeros(s[1..]) else s
  }

  lemma {:induction false} LeadingZeros(s: string)
    requires AllDigits(s)
    ensures var r := DropLeadingZeros(s);
      AllDigits(r) && |r| <= |s| && Number(r) == Number(s) && (r != "" ==> r[0] != '0')
  {
    if s != "" && s[0] == '0' {
      LeadingZeros(s[1..]);
      FirstDigit(s);
    }
  }
}
