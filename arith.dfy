/** Facts about integer multiplication and floor division that the layout
    and swatch geometry rest on, stated once for plain integers so that the
    nonlinear reasoning stays out of the larger proofs. */
module Arith {

  lemma MulMonotone(x: int, y: int, t: nat)
    requires x <= y
    ensures x * t <= y * t
  {
    assert y * t - x * t == (y - x) * t;
  }

  lemma DivMonotone(a: int, b: int, t: int)
    requires a <= b && t > 0
    ensures a / t <= b / t
  {
    var qa, qb := a / t, b / t;
    assert qa * t <= a && b < qb * t + t;
    assert (qb + 1) * t == qb * t + t;
    if qa > qb {
      MulMonotone(qb + 1, qa, t);
    }
  }

  lemma MulDivCancel(w: int, t: int)
    requires t > 0
    ensures (w * t) / t == w
  {
    var q, r := (w * t) / t, (w * t) % t;
    assert w * t == q * t + r && 0 <= r < t;
    assert (w - q) * t == r;
    if q < w {
      MulMonotone(1, w - q, t);
    } else if q > w {
      MulMonotone(w - q, -1, t);
    }
  }

  /** Rounding two shares down separately loses less than one pixel. */
  lemma FloorDifference(a: int, d: int, t: int)
    requires t > 0
    ensures -t < ((a + d) / t - a / t) * t - d < t
  {
    var qa, qb := a / t, (a + d) / t;
    assert qa * t <= a < qa * t + t;
    assert qb * t <= a + d < qb * t + t;
    assert (qb - qa) * t == qb * t - qa * t;
  }

  lemma Distribute(w: int, a: int, b: int)
    ensures w * (a + b) == w * a + w * b
  {
  }
}
