/**
Non-negative decimals and the operations of the default decimal context: 28 significant
digits, ties to even, an error on overflow. A number is coeff * 10^exp. No exponent that
occurs here is small enough to underflow.
*/
module Decimals {
  import opened Wrappers

  const PRECISION: nat := 28
  const EMAX: int := 999_999

  datatype Dec = Dec(coeff: nat, exp: int)

  function Pow10(n: nat): (p: nat)
    ensures p > 0
  {
    if n == 0 then 1 else 10 * Pow10(n - 1)
  }

  lemma {:induction false} Pow10Adds(m: nat, n: nat)
    ensures Pow10(m + n) == Pow10(m) * Pow10(n)
  {
    if m > 0 {
      Pow10Adds(m - 1, n);
      assert 10 * (Pow10(m - 1) * Pow10(n)) == (10 * Pow10(m - 1)) * Pow10(n);
    }
  }

  lemma Pow10Monotone(m: nat, n: nat)
    requires m <= n
    ensures Pow10(m) <= Pow10(n)
  {
    Pow10Adds(m, n - m);
    ScaleUp(Pow10(m), Pow10(n - m));
  }

  lemma ScaleUp(x: nat, k: nat)
    requires k > 0
    ensures x <= x * k
  {
  }

  function Digits(n: nat): (d: nat)
    ensures d >= 1
  {
    if n < 10 then 1 else 1 + Digits(n / 10)
  }

  lemma {:induction false} DigitsBound(n: nat)
    requires n > 0
    ensures Pow10(Digits(n) - 1) <= n < Pow10(Digits(n))
  {
    if n >= 10 {
      DigitsBound(n / 10);
    }
  }

  /** Fewer than 10^d means at most d digits. */
  lemma FewDigits(n: nat, d: nat)
    requires n < Pow10(d) && d >= 1
    ensures Digits(n) <= d
  {
    var top: nat := Digits(n) - 1;
    if n > 0 {
      DigitsBound(n);
      if d <= top {
        Pow10Monotone(d, top);
      }
    }
  }

  // ---------------------------------------------------------------- division

  function Quotient(n: nat, d: nat): (q: nat)
    requires d > 0
    ensures d * q <= n < d * q + d
  {
    n / d
  }

  lemma CancelLess(d: nat, q: int, r: int)
    requires d * q < d * r
    ensures q < r
  {
    if q >= r {
      MultiplyMonotone(r, q, d);
    }
  }

  lemma MultiplyMonotone(x: int, y: int, k: nat)
    requires x <= y
    ensures x * k <= y * k
  {
  }

  lemma Distribute(d: int, x: int, y: int)
    ensures d * (x + y) == d * x + d * y
  {
  }

  function CeilDiv(n: nat, d: nat): (r: nat)
    requires d > 0
    ensures d * r - d < n <= d * r
  {
    Distribute(d, Quotient(n, d), 1);
    var q := Quotient(n, d);
    if d * q == n then q else q + 1
  }

  /** The ceiling is the one integer within a quantum above the quotient. */
  lemma CeilDivIs(n: nat, d: nat, r: nat)
    requires d > 0
    requires d * r - d < n <= d * r
    ensures CeilDiv(n, d) == r
  {
    var q: int := CeilDiv(n, d);
    Distribute(d, q, -1);
    Distribute(d, r, -1);
    CancelLess(d, q - 1, r);
    CancelLess(d, r - 1, q);
  }

  lemma CeilDivCancels(n: nat, d: nat, k: nat)
    requires d > 0 && k > 0
    ensures d * k > 0 && CeilDiv(n * k, d * k) == CeilDiv(n, d)
  {
    ScaleUp(d, k);
    var r := CeilDiv(n, d);
    var top := d * r;
    assert (d * k) * r == top * k;
    Scaled(n, top, d, k);
    CeilDivIs(n * k, d * k, r);
  }

  lemma Scaled(n: nat, top: nat, d: nat, k: nat)
    requires top - d < n <= top && k > 0
    ensures top * k - d * k < n * k <= top * k
  {
    MultiplyMonotone(n, top, k);
    MultiplyMonotone(top - d + 1, n, k);
    assert (top - d + 1) * k == top * k - d * k + k;
  }

  lemma CeilDivMonotone(m: nat, n: nat, d: nat)
    requires d > 0 && m <= n
    ensures CeilDiv(m, d) <= CeilDiv(n, d)
  {
    Distribute(d, CeilDiv(m, d), -1);
    CancelLess(d, CeilDiv(m, d) - 1, CeilDiv(n, d));
  }

  // ---------------------------------------------------------------- context rounding

  function RoundHalfEven(c: nat, drop: nat): nat {
    var q := Quotient(c, Pow10(drop));
    var r := c - Pow10(drop) * q;
    if 2 * r > Pow10(drop) || (2 * r == Pow10(drop) && q % 2 == 1) then q + 1 else q
  }

  /** Rounds to 28 digits, carrying if that makes a 29th; None stands for the overflow trap. */
  function Fix(d: Dec): Option<Dec> {
    var rounded :=
      if Digits(d.coeff) <= PRECISION then d
      else
        var drop := Digits(d.coeff) - PRECISION;
        var q := RoundHalfEven(d.coeff, drop);
        if q == Pow10(PRECISION) then Dec(Pow10(PRECISION - 1), d.exp + drop + 1) else Dec(q, d.exp + drop);
    if rounded.coeff > 0 && rounded.exp + Digits(rounded.coeff) - 1 > EMAX then None else Some(rounded)
  }

  /** The value is at least 10^k. */
  predicate AtLeast(d: Dec, k: int) {
    if d.exp >= k then d.coeff >= 1 else d.coeff >= Pow10(k - d.exp)
  }

  lemma FixIsExact(d: Dec)
    requires d.coeff < Pow10(PRECISION) && d.exp <= 0
    ensures Fix(d) == Some(d)
  {
    FewDigits(d.coeff, PRECISION);
  }

  lemma QuotientAtLeast(c: nat, drop: nat, m: nat)
    requires c >= Pow10(m) && drop <= m
    ensures Quotient(c, Pow10(drop)) >= Pow10(m - drop)
  {
    Pow10Adds(drop, m - drop);
    var q, d := Quotient(c, Pow10(drop)), Pow10(drop);
    Distribute(d, q, 1);
    CancelLess(d, Pow10(m - drop), q + 1);
  }

  /** Rounding never takes a value below a power of ten it had reached. */
  lemma FixKeepsAtLeast(d: Dec, k: int)
    requires AtLeast(d, k) && Fix(d).Some?
    ensures AtLeast(Fix(d).value, k)
  {
    if Digits(d.coeff) > PRECISION {
      var drop := Digits(d.coeff) - PRECISION;
      DigitsBound(d.coeff);
      QuotientAtLeast(d.coeff, drop, Digits(d.coeff) - 1);
      var q := RoundHalfEven(d.coeff, drop);
      assert q >= Pow10(PRECISION - 1) > 0;
      if d.exp + drop < k {
        QuotientAtLeast(d.coeff, drop, k - d.exp);
        assert q >= Pow10(k - (d.exp + drop));
      }
    }
  }

  // ---------------------------------------------------------------- operations

  function Multiply(a: Dec, b: Dec): Option<Dec> {
    Fix(Dec(a.coeff * b.coeff, a.exp + b.exp))
  }

  /** Division by 10^6. Its quotient may carry other trailing zeros, which nothing below observes. */
  function PerMillion(a: Dec): Option<Dec> {
    Fix(Dec(a.coeff, a.exp - 6))
  }

  function MinExp(a: Dec, b: Dec): int {
    if a.exp <= b.exp then a.exp else b.exp
  }

  /** The coefficient at a smaller exponent. */
  function Aligned(a: Dec, e: int): nat
    requires e <= a.exp
  {
    a.coeff * Pow10(a.exp - e)
  }

  function Add(a: Dec, b: Dec): Option<Dec> {
    var e := MinExp(a, b);
    Fix(Dec(Aligned(a, e) + Aligned(b, e), e))
  }

  /** a - b for a >= b. */
  function Subtract(a: Dec, b: Dec): Option<Dec>
    requires Aligned(a, MinExp(a, b)) >= Aligned(b, MinExp(a, b))
  {
    var e := MinExp(a, b);
    Fix(Dec(Aligned(a, e) - Aligned(b, e), e))
  }

  /** quantize(Decimal("0.000001"), ROUND_CEILING); an error if the result needs more than 28 digits. */
  function QuantizeCeiling(d: Dec): Option<Dec> {
    var c := if d.exp >= -6 then d.coeff * Pow10(d.exp + 6) else CeilDiv(d.coeff, Pow10(-6 - d.exp));
    if Digits(c) > PRECISION then None else Some(Dec(c, -6))
  }

  lemma AlignedAtLeast(a: Dec, e: int, k: int)
    requires e <= a.exp && AtLeast(a, k)
    ensures AtLeast(Dec(Aligned(a, e), e), k)
  {
    var c := Aligned(a, e);
    ScaleUp(a.coeff, Pow10(a.exp - e));
    if e < k <= a.exp {
      Pow10Monotone(k - e, a.exp - e);
      assert c >= 1 * Pow10(a.exp - e) by {
        assert a.coeff >= 1;
        MultiplyMonotone(1, a.coeff, Pow10(a.exp - e));
      }
    } else if e < k {
      Pow10Adds(k - a.exp, a.exp - e);
      MultiplyMonotone(Pow10(k - a.exp), a.coeff, Pow10(a.exp - e));
    }
  }

  lemma AddKeepsAtLeast(a: Dec, b: Dec, k: int)
    requires (AtLeast(a, k) || AtLeast(b, k)) && Add(a, b).Some?
    ensures AtLeast(Add(a, b).value, k)
  {
    var e := MinExp(a, b);
    if AtLeast(a, k) {
      AlignedAtLeast(a, e, k);
    } else {
      AlignedAtLeast(b, e, k);
    }
    FixKeepsAtLeast(Dec(Aligned(a, e) + Aligned(b, e), e), k);
  }

  /** What is at least a million dollars quantizes to at least 10^12 micro-dollars. */
  lemma QuantizeLarge(d: Dec)
    requires AtLeast(d, 6) && QuantizeCeiling(d).Some?
    ensures QuantizeCeiling(d).value.coeff >= 1_000_000_000_000
  {
    assert Pow10(12) == 1_000_000_000_000;
    if d.exp >= -6 {
      AlignedAtLeast(d, -6, 6);
    } else {
      var k := Pow10(-6 - d.exp);
      Pow10Adds(12, -6 - d.exp);
      var c := CeilDiv(d.coeff, k);
      Distribute(k, c, 1);
      CancelLess(k, Pow10(12), c + 1);
    }
  }
}
