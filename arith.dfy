/** Facts about multiplying and dividing reals by a positive factor, which the solver's
    nonlinear arithmetic does not find on its own. */
module Arith {

  lemma MulMonotone(a: real, b: real, t: real)
    requires t > 0.0 && a < b
    ensures a * t < b * t
  {
    assert (b - a) * t > 0.0;
  }

  lemma CancelPositive(a: real, b: real, t: real)
    requires t > 0.0 && a * t == b * t
    ensures a == b
  {
    if a < b {
      MulMonotone(a, b, t);
    } else if b < a {
      MulMonotone(b, a, t);
    }
  }

  lemma FractionAtMostOne(v: real, t: real)
    requires 0.0 < v <= t
    ensures 0.0 < v / t <= 1.0
  {
    var q := v / t;
    assert q * t == v;
    if q > 1.0 {
      MulMonotone(1.0, q, t);
    }
  }
}
