/** Division and remainder by a variable, which the verifier does not do by itself. */
module Arithmetic {

  lemma {:induction false} ScaleMonotone(a: nat, b: nat, d: nat)
    requires a <= b
    ensures a * d <= b * d
  {
    assert (b - a) * d >= 0;
    assert b * d == a * d + (b - a) * d;
  }

  lemma {:induction false} QuotientIs(v: nat, d: nat, p: nat)
    requires d > 0 && p * d <= v < (p + 1) * d
    ensures v / d == p
  {
    var q := v / d;
    assert q * d <= v < (q + 1) * d;
    if q < p {
      ScaleMonotone(q + 1, p, d);
    } else if q > p {
      ScaleMonotone(p + 1, q, d);
    }
  }

  lemma {:induction false} SmallModulus(v: nat, m: nat)
    requires v < m
    ensures v % m == v
  {
    QuotientIs(v, m, 0);
    assert v == m * (v / m) + v % m;
  }

  lemma {:induction false} ModulusOnce(v: nat, m: nat)
    requires m <= v < 2 * m
    ensures v % m == v - m
  {
    QuotientIs(v, m, 1);
    assert v == m * (v / m) + v % m;
  }
}
