/** The activation kernel: the scalar formulas the network is built from.
    Values are modelled as reals. The logistic function needs `exp`, which is
    not available, so it is abstract: every member below is stated for an
    arbitrary function whose values lie strictly between 0 and 1. */
module Activation {

  /** A stand-in for `sigmoid`: any real function with range (0, 1). */
  type Logistic = f: real -> real | forall x :: 0.0 < f(x) < 1.0
    witness (x: real) => 0.5

  /** The largest value `std::rand()` returns (the value glibc uses). */
  const RAND_MAX: int := 2147483647

  function Abs(x: real): real { if x < 0.0 then -x else x }

  // ---------------------------------------------------------------------
  // dx_sigmoid

  /** `dx_sigmoid`: the logistic derivative written in terms of an already
      computed logistic output `y`. It vanishes at 0 and 1 and never exceeds
      one quarter. */
  function DxSigmoid(y: real): (r: real)
    ensures r <= 0.25
    ensures y == 0.0 || y == 1.0 ==> r == 0.0
  {
    assert 0.25 - y * (1.0 - y) == (y - 0.5) * (y - 0.5);
    y * (1.0 - y)
  }

  /** Strictly inside (0, 1) the logistic derivative is positive. */
  lemma DxSigmoidPositive(y: real)
    requires 0.0 < y < 1.0
    ensures 0.0 < DxSigmoid(y)
  {
    assert 0.0 < 1.0 - y;
  }

  // ---------------------------------------------------------------------
  // swish

  /** `swish`, the network's only activation: value times its logistic. */
  function Swish(sigma: Logistic, v: real): (r: real)
  {
    v * sigma(v)
  }

  /** Swish keeps the sign of its argument and moves it strictly towards 0. */
  lemma SwishShape(sigma: Logistic, v: real)
    ensures v == 0.0 ==> Swish(sigma, v) == 0.0
    ensures v > 0.0 ==> 0.0 < Swish(sigma, v) < v
    ensures v < 0.0 ==> v < Swish(sigma, v) < 0.0
    ensures v != 0.0 ==> Abs(Swish(sigma, v)) < Abs(v)
  {
    if v > 0.0 {
      SwishPositive(sigma, v);
      SwishBelow(sigma, v);
    } else if v < 0.0 {
      SwishNegative(sigma, v);
      SwishAbove(sigma, v);
    }
  }

  lemma SwishPositive(sigma: Logistic, v: real)
    requires v > 0.0
    ensures Swish(sigma, v) > 0.0
  {
    assert 0.0 < sigma(v);
  }

  lemma SwishBelow(sigma: Logistic, v: real)
    requires v > 0.0
    ensures Swish(sigma, v) < v
  {
    var s := sigma(v);
    assert s < 1.0;
    assert v - v * s == v * (1.0 - s);
  }

  lemma SwishNegative(sigma: Logistic, v: real)
    requires v < 0.0
    ensures Swish(sigma, v) < 0.0
  {
    assert 0.0 < sigma(v);
  }

  lemma SwishAbove(sigma: Logistic, v: real)
    requires v < 0.0
    ensures v < Swish(sigma, v)
  {
    var s := sigma(v);
    assert s < 1.0;
    assert v * s - v == (-v) * (1.0 - s);
  }

  // ---------------------------------------------------------------------
  // dx_swish

  /** `dx_swish`: the derivative of swish with respect to its input, evaluated
      at whatever value is passed (the network passes a swish OUTPUT). */
  function DxSwish(sigma: Logistic, v: real): (r: real)
  {
    var s := sigma(v);
    s + v * s * (1.0 - s)
  }

  /** At 0 the derivative is the logistic value itself; elsewhere it lies on
      the side of the logistic value given by the sign of the argument, at
      most a quarter of the argument away from it. */
  lemma DxSwishShape(sigma: Logistic, v: real)
    ensures v == 0.0 ==> DxSwish(sigma, v) == sigma(0.0)
    ensures v >= 0.0 ==> sigma(v) <= DxSwish(sigma, v)
    ensures v <= 0.0 ==> DxSwish(sigma, v) <= sigma(v)
    ensures Abs(DxSwish(sigma, v) - sigma(v)) <= Abs(v) * 0.25
  {
    var s := sigma(v);
    var q := DxSigmoid(s);
    DxSigmoidPositive(s);
    DxSwishSplit(sigma, v);
    SpreadBound(v, q);
    if v >= 0.0 {
      SpreadNonNegative(v, q);
    } else {
      SpreadNonPositive(v, q);
    }
  }

  /** `dx_swish(v)` is the logistic value plus `v` times its derivative. */
  lemma DxSwishSplit(sigma: Logistic, v: real)
    ensures DxSwish(sigma, v) - sigma(v) == v * DxSigmoid(sigma(v))
  {
    var s := sigma(v);
    assert v * s * (1.0 - s) == v * (s * (1.0 - s));
  }

  lemma SpreadNonNegative(v: real, q: real)
    requires v >= 0.0 && q > 0.0
    ensures v * q >= 0.0
  {
  }

  lemma SpreadNonPositive(v: real, q: real)
    requires v <= 0.0 && q > 0.0
    ensures v * q <= 0.0
  {
    assert v * q == -((-v) * q);
  }

  lemma SpreadBound(v: real, q: real)
    requires 0.0 < q <= 0.25
    ensures Abs(v * q) <= Abs(v) * 0.25
  {
    if v >= 0.0 {
      SpreadNonNegative(v, q);
      NonNegativeProduct(v, 0.25 - q);
      assert v * 0.25 - v * q == v * (0.25 - q);
    } else {
      SpreadNonPositive(v, q);
      NonNegativeProduct(-v, 0.25 - q);
      assert (-v) * 0.25 - (-(v * q)) == (-v) * (0.25 - q);
    }
  }

  lemma NonNegativeProduct(a: real, b: real)
    requires a >= 0.0 && b >= 0.0
    ensures a * b >= 0.0
  {
  }

  // ---------------------------------------------------------------------
  // genHe

  /** `genHe`: a draw `rand` from [0, RAND_MAX] mapped into [-1, 1] and
      multiplied by `scale`, the value of `sqrt(2.0 / qtyInputs)`. For a
      fan-in of 0 the source divides by zero; that value never reaches a
      weight, so `scale` is then unconstrained. */
  function GenHe(qtyInputs: int, rand: int, scale: real): (r: real)
    requires 0 <= rand <= RAND_MAX
    requires qtyInputs > 0 ==> 0.0 <= scale && scale * scale == 2.0 / qtyInputs as real
    ensures rand == 0 ==> r == -scale
    ensures rand == RAND_MAX ==> r == scale
  {
    UnitDraw(rand) * scale
  }

  /** The draw mapped into [-1, 1]. */
  function UnitDraw(rand: int): (u: real)
    requires 0 <= rand <= RAND_MAX
    ensures -1.0 <= u <= 1.0
  {
    (rand as real / RAND_MAX as real) * 2.0 - 1.0
  }

  /** For a positive fan-in the He value lies in [-c, c] with c * c == 2 / n. */
  lemma GenHeBound(qtyInputs: int, rand: int, scale: real)
    requires 0 <= rand <= RAND_MAX
    requires qtyInputs > 0 && 0.0 <= scale && scale * scale == 2.0 / qtyInputs as real
    ensures -scale <= GenHe(qtyInputs, rand, scale) <= scale
  {
    var u := UnitDraw(rand);
    UnitTimesScaleAbove(u, scale);
    UnitTimesScaleBelow(u, scale);
  }

  /** Hence the square of the He value is at most 2 / n. */
  lemma GenHeSquareBound(qtyInputs: int, rand: int, scale: real)
    requires 0 <= rand <= RAND_MAX
    requires qtyInputs > 0 && 0.0 <= scale && scale * scale == 2.0 / qtyInputs as real
    ensures GenHe(qtyInputs, rand, scale) * GenHe(qtyInputs, rand, scale) <= 2.0 / qtyInputs as real
  {
    var u := UnitDraw(rand);
    UnitSquare(u);
    SquareScaled(u, scale);
  }

  lemma UnitTimesScaleAbove(u: real, c: real)
    requires -1.0 <= u <= 1.0 && 0.0 <= c
    ensures u * c <= c
  {
    assert c - u * c == (1.0 - u) * c;
  }

  lemma UnitTimesScaleBelow(u: real, c: real)
    requires -1.0 <= u <= 1.0 && 0.0 <= c
    ensures -c <= u * c
  {
    assert u * c + c == (u + 1.0) * c;
  }

  lemma UnitSquare(u: real)
    requires -1.0 <= u <= 1.0
    ensures u * u <= 1.0
  {
    NonNegativeProduct(1.0 - u, 1.0 + u);
    assert 1.0 - u * u == (1.0 - u) * (1.0 + u);
  }

  lemma SquareScaled(u: real, c: real)
    requires u * u <= 1.0
    ensures (u * c) * (u * c) <= c * c
  {
    assert (u * c) * (u * c) == (u * u) * (c * c);
    SquareNonNegative(c);
    NonNegativeProduct(1.0 - u * u, c * c);
    assert c * c - (u * u) * (c * c) == (1.0 - u * u) * (c * c);
  }

  lemma SquareNonNegative(c: real)
    ensures c * c >= 0.0
  {
    if c < 0.0 {
      assert c * c == (-c) * (-c);
    }
  }
}
