/** Exact real arithmetic shared by the samplers and the generators: linear interpolation,
    integer powers, and the C++ conversion of a floating-point value to an integer type. */
module RealArithmetic {

  /** The point that a straight line through (y0, x0) and (y1, x1) reaches at y. */
  function Interpolate(x0: real, x1: real, y0: real, y1: real, y: real): real
    requires y0 != y1
  {
    x0 + (x1 - x0) * (y - y0) / (y1 - y0)
  }

  /** Interpolation, with the quotient taken first; the shape the proofs below work on. */
  lemma InterpolateByRatio(x0: real, x1: real, y0: real, y1: real, y: real)
    requires y0 < y1
    ensures Interpolate(x0, x1, y0, y1, y) == x0 + (x1 - x0) * ((y - y0) / (y1 - y0))
    ensures (y - y0) / (y1 - y0) * (y1 - y0) == y - y0
  {
  }

  lemma MulMonotone(k: real, a: real, b: real)
    requires 0.0 <= k && a <= b
    ensures k * a <= k * b
  {
  }

  lemma MulStrict(k: real, a: real, b: real)
    requires 0.0 < k && a < b
    ensures k * a < k * b
  {
  }

  lemma MulEqual(k: real, a: real, b: real)
    requires a == b
    ensures k * a == k * b
  {
  }

  lemma Distribute(k: real, a: real, b: real)
    ensures k * (a - b) == k * a - k * b
  {
  }

  lemma Regroup(p: real, x: real, f: real)
    ensures f * p * x == p * (f * x) == p * (x * f)
  {
  }

  lemma RatioMonotone(y0: real, y1: real, y: real, y': real)
    requires y0 < y1
    ensures y <= y' ==> (y - y0) / (y1 - y0) <= (y' - y0) / (y1 - y0)
    ensures y < y' ==> (y - y0) / (y1 - y0) < (y' - y0) / (y1 - y0)
  {
    var d, r, r' := y1 - y0, (y - y0) / (y1 - y0), (y' - y0) / (y1 - y0);
    assert r * d == y - y0 && r' * d == y' - y0;
    if y < y' && r' <= r { MulMonotone(d, r', r); }
    if y <= y' && r' < r { MulStrict(d, r', r); }
  }

  lemma InterpolateMonotone(x0: real, x1: real, y0: real, y1: real, y: real, y': real)
    requires y0 < y1 && x0 <= x1 && y <= y'
    ensures Interpolate(x0, x1, y0, y1, y) <= Interpolate(x0, x1, y0, y1, y')
    ensures x0 < x1 && y < y' ==>
              Interpolate(x0, x1, y0, y1, y) < Interpolate(x0, x1, y0, y1, y')
  {
    InterpolateByRatio(x0, x1, y0, y1, y);
    InterpolateByRatio(x0, x1, y0, y1, y');
    RatioMonotone(y0, y1, y, y');
    var r, r' := (y - y0) / (y1 - y0), (y' - y0) / (y1 - y0);
    MulMonotone(x1 - x0, r, r');
    if x0 < x1 && y < y' { MulStrict(x1 - x0, r, r'); }
  }

  lemma InterpolateEnds(x0: real, x1: real, y0: real, y1: real)
    requires y0 < y1
    ensures Interpolate(x0, x1, y0, y1, y0) == x0
    ensures Interpolate(x0, x1, y0, y1, y1) == x1
  {
    InterpolateByRatio(x0, x1, y0, y1, y0);
    InterpolateByRatio(x0, x1, y0, y1, y1);
    assert (y1 - y0) / (y1 - y0) == 1.0;
    assert (y0 - y0) / (y1 - y0) == 0.0;
  }

  lemma InterpolateBetween(x0: real, x1: real, y0: real, y1: real, y: real)
    requires y0 < y1 && x0 <= x1 && y0 <= y <= y1
    ensures x0 <= Interpolate(x0, x1, y0, y1, y) <= x1
    ensures x0 < x1 && y < y1 ==> Interpolate(x0, x1, y0, y1, y) < x1
  {
    InterpolateEnds(x0, x1, y0, y1);
    InterpolateMonotone(x0, x1, y0, y1, y0, y);
    InterpolateMonotone(x0, x1, y0, y1, y, y1);
  }

  /** Swapping the axes of a strictly increasing line inverts it. */
  lemma InterpolateInverse(x0: real, x1: real, y0: real, y1: real, y: real)
    requires y0 < y1 && x0 < x1
    ensures Interpolate(y0, y1, x0, x1, Interpolate(x0, x1, y0, y1, y)) == y
  {
    var x := Interpolate(x0, x1, y0, y1, y);
    InterpolateByRatio(x0, x1, y0, y1, y);
    InterpolateByRatio(y0, y1, x0, x1, x);
    var r, q := (y - y0) / (y1 - y0), (x - x0) / (x1 - x0);
    assert x - x0 == (x1 - x0) * r;
    assert q == r by {
      assert q * (x1 - x0) == r * (x1 - x0);
      if q < r { MulStrict(x1 - x0, q, r); }
      if r < q { MulStrict(x1 - x0, r, q); }
    }
  }

  /** Dividing a product and multiplying by a quotient agree. */
  lemma SlopeForm(rise: real, run: real, x: real)
    requires 0.0 < run
    ensures rise * x / run == rise / run * x
  {
    var q, r := rise * x / run, rise / run * x;
    assert q * run == rise * x;
    assert rise / run * run == rise;
    assert r * run == rise * x by { assert r * run == (rise / run * run) * x; }
    if q < r { MulStrict(run, q, r); }
    if r < q { MulStrict(run, r, q); }
  }

  lemma PositiveQuotient(rise: real, run: real)
    requires 0.0 < rise && 0.0 < run
    ensures 0.0 < rise / run
  {
    assert rise / run * run == rise;
    if rise / run <= 0.0 { MulMonotone(run, rise / run, 0.0); }
  }

  /** The integer power x^n. */
  function Pow(x: real, n: nat): real {
    if n == 0 then 1.0 else x * Pow(x, n - 1)
  }

  lemma {:induction false} PowPositive(x: real, n: nat)
    requires 0.0 < x
    ensures 0.0 < Pow(x, n)
    ensures x <= 1.0 ==> Pow(x, n) <= 1.0
  {
    if n > 0 {
      PowPositive(x, n - 1);
      MulStrict(x, 0.0, Pow(x, n - 1));
      if x <= 1.0 { MulMonotone(Pow(x, n - 1), x, 1.0); }
    }
  }

  lemma {:induction false} PowStrictlyMonotone(x: real, y: real, n: nat)
    requires 0.0 < x < y && n > 0
    ensures Pow(x, n) < Pow(y, n)
  {
    var a, b := Pow(x, n - 1), Pow(y, n - 1);
    PowPositive(y, n - 1);
    if n > 1 { PowStrictlyMonotone(x, y, n - 1); }
    assert a <= b && 0.0 < b;
    MulMonotone(x, a, b);
    MulStrict(b, x, y);
    assert Pow(x, n) == x * a <= x * b < y * b == Pow(y, n);
  }

  /** A positive base is pinned, in value and in order, by any one of its positive powers. */
  lemma PowReflectsOrder(x: real, y: real, n: nat)
    requires 0.0 < x && 0.0 < y && n > 0
    ensures Pow(x, n) <= Pow(y, n) <==> x <= y
  {
    if x < y { PowStrictlyMonotone(x, y, n); }
    if y < x { PowStrictlyMonotone(y, x, n); }
  }

  /** Conversion of a floating-point value to an integer type: towards zero. */
  function Truncate(x: real): (n: int)
    ensures 0.0 <= x ==> n as real <= x < n as real + 1.0
    ensures x <= 0.0 ==> n as real - 1.0 < x <= n as real
  {
    if 0.0 <= x then x.Floor else -((-x).Floor)
  }

  lemma TruncateMonotone(x: real, y: real)
    requires x <= y
    ensures Truncate(x) <= Truncate(y)
  {
  }
}
