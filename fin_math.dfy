/**
 * Arithmetic shared by the calculators: `Math.pow` with an integer exponent,
 * the geometric sum behind an annuity, and the fixed-instalment (EMI) formula
 * `P * r * (1 + r)^n / ((1 + r)^n - 1)` that both loan components evaluate.
 * Everything is over exact reals.
 */
module FinMath {

  lemma MulMonotone(c: real, a: real, b: real)
    requires c >= 0.0 && a >= b
    ensures c * a >= c * b
  {}

  lemma MulStrictMonotone(c: real, a: real, b: real)
    requires c > 0.0 && a > b
    ensures c * a > c * b
  {}

  /** `Math.pow(x, n)` for a non-negative integer exponent. */
  function Pow(x: real, n: nat): real
  {
    if n == 0 then 1.0 else x * Pow(x, n - 1)
  }

  /** `Math.pow(x, n)` for any integer exponent (a negative one divides). */
  function PowInt(x: real, n: int): real
    requires x != 0.0
  {
    if n >= 0 then Pow(x, n) else (PowNonZero(x, -n); 1.0 / Pow(x, -n))
  }

  lemma {:induction false} PowNonZero(x: real, n: nat)
    requires x != 0.0
    ensures Pow(x, n) != 0.0
  {
    if n > 0 {
      PowNonZero(x, n - 1);
    }
  }

  lemma {:induction false} PowPositive(x: real, n: nat)
    requires x > 0.0
    ensures Pow(x, n) > 0.0
  {
    if n > 0 {
      PowPositive(x, n - 1);
    }
  }

  /** A base above one raised to a positive power stays above one. */
  lemma {:induction false} PowAboveOne(x: real, n: nat)
    requires x > 1.0 && n >= 1
    ensures Pow(x, n) > 1.0
  {
    if n > 1 {
      PowAboveOne(x, n - 1);
    }
  }

  /** Bernoulli's inequality: compounding never yields less than simple interest. */
  lemma {:induction false} Bernoulli(x: real, n: nat)
    requires x >= -1.0
    ensures Pow(1.0 + x, n) >= 1.0 + (n as real) * x
  {
    if n > 0 {
      Bernoulli(x, n - 1);
      var p := Pow(1.0 + x, n - 1);
      var k := (n - 1) as real;
      MulMonotone(1.0 + x, p, 1.0 + k * x);
      assert (1.0 + x) * (1.0 + k * x) == 1.0 + (k + 1.0) * x + k * (x * x);
      MulMonotone(k, x * x, 0.0);
    }
  }

  /** Dividing by one factor less is dividing by all of them and multiplying the factor back. */
  lemma ReciprocalStep(x: real, q: real)
    requires x != 0.0 && q != 0.0
    ensures 1.0 / q == (1.0 / (x * q)) * x
  {
    var a := 1.0 / (x * q);
    assert a * (x * q) == 1.0;
    assert (a * x) * q == 1.0;
  }

  /** Each extra unit of a negative-or-positive exponent multiplies by the base. */
  lemma PowIntStep(x: real, n: int)
    requires x != 0.0
    ensures PowInt(x, n + 1) == PowInt(x, n) * x
  {
    if n >= 0 {
      assert PowInt(x, n + 1) == Pow(x, n + 1);
    } else if n == -1 {
      PowIntStepToZero(x);
    } else {
      PowIntStepNegative(x, -n - 1);
    }
  }

  lemma PowIntStepToZero(x: real)
    requires x != 0.0
    ensures PowInt(x, 0) == PowInt(x, -1) * x
  {
    assert Pow(x, 1) == x;
    assert PowInt(x, -1) == 1.0 / x;
  }

  lemma PowIntStepNegative(x: real, m: nat)
    requires x != 0.0 && m >= 1
    ensures PowInt(x, -(m as int)) == PowInt(x, -(m as int) - 1) * x
  {
    var q := Pow(x, m);
    PowNonZero(x, m);
    assert Pow(x, m + 1) == x * q;
    assert PowInt(x, -(m as int) - 1) == 1.0 / (x * q);
    assert PowInt(x, -(m as int)) == 1.0 / q;
    ReciprocalStep(x, q);
  }

  lemma {:induction false} PowIntPositive(x: real, n: int)
    requires x > 0.0
    ensures PowInt(x, n) > 0.0
  {
    PowPositive(x, if n >= 0 then n else -n);
  }

  /** For a base above one, `Math.pow(x, n)` strictly increases with the integer exponent. */
  lemma {:induction false} PowIntStrictlyIncreasing(x: real, m: int, n: int)
    requires x > 1.0 && m < n
    ensures PowInt(x, m) < PowInt(x, n)
    decreases n - m
  {
    PowIntStep(x, m);
    PowIntPositive(x, m);
    MulStrictMonotone(PowInt(x, m), x, 1.0);
    if m + 1 < n {
      PowIntStrictlyIncreasing(x, m + 1, n);
    }
  }

  /** `1 + q + ... + q^(k-1)`, written in Horner form. */
  function GeomSum(q: real, k: nat): real
  {
    if k == 0 then 0.0 else GeomSum(q, k - 1) * q + 1.0
  }

  lemma {:induction false} GeomSumClosedForm(r: real, k: nat)
    ensures GeomSum(1.0 + r, k) * r == Pow(1.0 + r, k) - 1.0
  {
    if k > 0 {
      GeomSumClosedForm(r, k - 1);
      var g := GeomSum(1.0 + r, k - 1);
      assert GeomSum(1.0 + r, k) * r == g * r * (1.0 + r) + r;
    }
  }

  lemma {:induction false} GeomSumBelow(q: real, k: nat)
    requires q > 1.0 && k >= 1
    ensures 0.0 < GeomSum(q, k) < (k as real) * Pow(q, k)
  {
    if k == 1 {
      assert GeomSum(q, 1) == 1.0;
      assert Pow(q, 1) == q;
    } else {
      GeomSumBelow(q, k - 1);
      PowAboveOne(q, k);
      var g := GeomSum(q, k - 1);
      var p := Pow(q, k - 1);
      assert g * q < ((k - 1) as real) * p * q;
      assert Pow(q, k) == q * p;
    }
  }

  /** The annuity formula `p * r * q / (q - 1)` for a growth factor `q = (1 + r)^n`. */
  function Annuity(p: real, r: real, q: real): real
    requires q > 1.0
  {
    p * r * q / (q - 1.0)
  }

  lemma AnnuityTimesGeomSum(p: real, r: real, q: real, g: real)
    requires q > 1.0 && r > 0.0 && g * r == q - 1.0
    ensures Annuity(p, r, q) * g == p * q
  {
    var a := Annuity(p, r, q);
    assert a * (q - 1.0) == p * r * q;
    assert (a * g) * r == (p * q) * r;
  }

  /** An instalment `a` with `a * g == p * q` and `g * r == q - 1` repays more than `p` and exceeds `p * r`. */
  lemma InstalmentBounds(a: real, p: real, r: real, q: real, g: real, n: real)
    requires q > 1.0 && r > 0.0 && p > 0.0 && g > 0.0 && g < n * q
    requires a * g == p * q && g * r == q - 1.0
    ensures a * n > p
    ensures a > p * r
  {
    assert p * q > 0.0;
    assert a > 0.0 by {
      if a <= 0.0 {
        MulMonotone(g, 0.0, a);
        assert false;
      }
    }
    MulStrictMonotone(a, n * q, g);
    assert (a * n) * q > p * q;
    assert a * (q - 1.0) == (a * g) * r;
    MulStrictMonotone(p * r, q, q - 1.0);
    assert a * (q - 1.0) > (p * r) * (q - 1.0);
  }

  /**
   * The fixed monthly instalment for principal `p` at periodic rate `r`
   * (a fraction, not a percentage) over `n` periods. The source rejects
   * `r <= 0` and `n <= 0` before evaluating it, so the denominator
   * `(1 + r)^n - 1` is never 0.
   */
  function Emi(p: real, r: real, n: nat): real
    requires r > 0.0 && n >= 1
  {
    PowAboveOne(1.0 + r, n);
    Annuity(p, r, Pow(1.0 + r, n))
  }

  /** The instalment in terms of the geometric sum: `emi * G(n) == p * (1 + r)^n`. */
  lemma EmiTimesGeomSum(p: real, r: real, n: nat)
    requires r > 0.0 && n >= 1
    ensures Emi(p, r, n) * GeomSum(1.0 + r, n) == p * Pow(1.0 + r, n)
  {
    PowAboveOne(1.0 + r, n);
    GeomSumClosedForm(r, n);
    AnnuityTimesGeomSum(p, r, Pow(1.0 + r, n), GeomSum(1.0 + r, n));
  }

  /**
   * A positive loan always costs interest: the instalments together repay
   * more than was borrowed, and each one exceeds the first month's interest.
   */
  lemma EmiRepaysMoreThanPrincipal(p: real, r: real, n: nat)
    requires p > 0.0 && r > 0.0 && n >= 1
    ensures Emi(p, r, n) * (n as real) > p
    ensures Emi(p, r, n) > p * r
  {
    var a, q, g := Emi(p, r, n), Pow(1.0 + r, n), GeomSum(1.0 + r, n);
    assert a * g == p * q by { EmiTimesGeomSum(p, r, n); }
    assert g * r == q - 1.0 by { GeomSumClosedForm(r, n); }
    assert q > 1.0 by { PowAboveOne(1.0 + r, n); }
    assert 0.0 < g < (n as real) * q by { GeomSumBelow(1.0 + r, n); }
    InstalmentBounds(a, p, r, q, g, n as real);
  }
}
