/** Decimal quantities: the comparable form, its exact value, and the order the validator uses. */
module DecimalModel {
  import opened Common
  import opened DigitStrings
  import opened DecimalText

  datatype Comparable = Comparable(digits: string, magnitude: int)

  const ZERO := Comparable("0", 0)
  const DECIMAL_MAX := Comparable("79228162514264337593543950335", 29)
  const TWO_TO_96 := 79228162514264337593543950336.0

  // ---- Powers of ten ---------------------------------------------------------

  function TenTo(e: int): (p: real)
    ensures p > 0.0
  {
    if e >= 0 then Pow10(e) as real else 1.0 / Pow10(-e) as real
  }

  lemma TenToStep(e: int)
    ensures TenTo(e + 1) == 10.0 * TenTo(e)
  {
    if e < 0 {
      var p, q := Pow10(-e) as real, Pow10(-e - 1) as real;
      assert p == 10.0 * q;
      assert 10.0 * (1.0 / p) == 1.0 / q;
    }
  }

  lemma Regroup(x: real, y: real, z: real)
    ensures x * (y * z) == y * (x * z) == (x * z) * y
  {
  }

  lemma {:induction false} TenToPlus(e: int, n: nat)
    ensures TenTo(e + n) == TenTo(e) * Pow10(n) as real
    decreases n
  {
    hide TenTo;
    if n > 0 {
      var p := Pow10(n - 1) as real;
      calc {
        TenTo(e + n);
        { TenToStep(e + (n - 1)); }
        10.0 * TenTo(e + (n - 1));
        { TenToPlus(e, n - 1); }
        10.0 * (TenTo(e) * p);
        { Regroup(10.0, TenTo(e), p); }
        TenTo(e) * (10.0 * p);
        { assert Pow10(n) as real == 10.0 * p; }
        TenTo(e) * Pow10(n) as real;
      }
    }
  }

  lemma TenToMonotone(d: int, e: int)
    requires d <= e
    ensures TenTo(d) <= TenTo(e)
    decreases e - d
  {
    if d < e {
      TenToMonotone(d, e - 1);
      TenToStep(e - 1);
    }
  }

  // ---- Values -----------------------------------------------------------------

  function Scaled(n: nat, e: int): real {
    n as real * TenTo(e)
  }

  function Value(c: Comparable): real
    requires AllDigits(c.digits)
  {
    Scaled(Number(c.digits), c.magnitude - |c.digits|)
  }

  function ExponentValue(x: Option<Exponent>): int
    requires x.Some? ==> ValidExponent(x.value)
  {
    if x.None? then 0
    else if x.value.sign.Minus? then 0 - Number(x.value.digits)
    else Number(x.value.digits)
  }

  /** The exact number a numeral denotes. */
  function Denotes(n: Numeral): real
    requires Valid(n)
  {
    Scaled(Number(n.whole + n.fraction), ExponentValue(n.exponent) - |n.fraction|)
  }

  /** Zero in its one form, or digits with no zero in front. */
  predicate Canonical(c: Comparable) {
    c == ZERO || (c.digits != "" && AllDigits(c.digits) && c.digits[0] != '0')
  }

  lemma RealProduct(m: nat, n: nat)
    ensures (m * n) as real == m as real * n as real
  {
  }

  lemma ScaledPadded(n: nat, k: nat, e: int)
    ensures Scaled(n * Pow10(k), e) == Scaled(n, e + k)
  {
    TenToPlus(e, k);
    var p := Pow10(k);
    RealProduct(n, p);
    Regroup(n as real, TenTo(e), p as real);
    hide TenTo, Pow10;
  }

  lemma ScaledMonotone(m: nat, n: nat, e: int)
    ensures m < n <==> Scaled(m, e) < Scaled(n, e)
    ensures m == n <==> Scaled(m, e) == Scaled(n, e)
  {
    var p := TenTo(e);
    if m < n {
      assert (n as real - m as real) * p > 0.0;
    } else if n < m {
      assert (m as real - n as real) * p > 0.0;
    }
  }

  // ---- Comparing -----------------------------------------------------------------

  function Padded(s: string, length: nat): string
    requires |s| <= length
  {
    s + Zeros(length - |s|)
  }

  function Compare(a: Comparable, b: Comparable): int {
    if a.digits == "0" then (if b.digits == "0" then 0 else -1)
    else if b.digits == "0" then 1
    else if a.magnitude != b.magnitude then (if a.magnitude < b.magnitude then -1 else 1)
    else
      var length := Max(|a.digits|, |b.digits|);
      var left, right := Padded(a.digits, length), Padded(b.digits, length);
      if left == right then 0 else if Precedes(left, right) then -1 else 1
  }

  lemma PaddedValue(c: Comparable, length: nat)
    requires AllDigits(c.digits) && |c.digits| <= length
    ensures AllDigits(Padded(c.digits, length))
    ensures Value(c) == Scaled(Number(Padded(c.digits, length)), c.magnitude - length)
  {
    var k := length - |c.digits|;
    NumberPadded(c.digits, k);
    ScaledPadded(Number(c.digits), k, c.magnitude - length);
  }

  /** The magnitude brackets the value between neighbouring powers of ten. */
  lemma MagnitudeBrackets(c: Comparable)
    requires Canonical(c) && c != ZERO
    ensures TenTo(c.magnitude - 1) <= Value(c) < TenTo(c.magnitude)
  {
    var n, l := Number(c.digits), |c.digits|;
    LeadingDigit(c.digits);
    NumberBound(c.digits);
    ScaledPadded(1, l - 1, c.magnitude - l);
    ScaledPadded(1, l, c.magnitude - l);
    ScaledMonotone(n, Pow10(l), c.magnitude - l);
    ScaledMonotone(n, Pow10(l - 1), c.magnitude - l);
  }

  function SignOfDifference(x: real, y: real): int {
    if x < y then -1 else if x == y then 0 else 1
  }

  /** Comparing magnitudes and then padded digits gives the sign of the exact difference. */
  lemma CompareIsExact(a: Comparable, b: Comparable)
    requires Canonical(a) && Canonical(b)
    ensures Compare(a, b) == SignOfDifference(Value(a), Value(b))
  {
    assert Value(ZERO) == 0.0;
    if a == ZERO || b == ZERO {
      if a != ZERO { MagnitudeBrackets(a); }
      if b != ZERO { MagnitudeBrackets(b); }
    } else if a.magnitude != b.magnitude {
      MagnitudeBrackets(a);
      MagnitudeBrackets(b);
      TenToMonotone(a.magnitude, if a.magnitude < b.magnitude then b.magnitude - 1 else a.magnitude);
      TenToMonotone(b.magnitude, if b.magnitude < a.magnitude then a.magnitude - 1 else b.magnitude);
    } else {
      SameMagnitude(a, b);
    }
  }

  lemma SameMagnitude(a: Comparable, b: Comparable)
    requires Canonical(a) && Canonical(b) && a != ZERO && b != ZERO && a.magnitude == b.magnitude
    ensures Compare(a, b) == SignOfDifference(Value(a), Value(b))
  {
    var length := Max(|a.digits|, |b.digits|);
    var left, right := Padded(a.digits, length), Padded(b.digits, length);
    PaddedValue(a, length);
    PaddedValue(b, length);
    TextOrderIsNumberOrder(left, right);
    ScaledMonotone(Number(left), Number(right), a.magnitude - length);
    hide Number, Padded, Scaled, Value;
  }
}
