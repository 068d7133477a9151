/** Facts about Euclidean division that the models of the source's `%`, `//`
    and repeated-subtraction loops rely on. */
module Arith {

  lemma ModShift(x: int, k: int, p: int)
    requires p > 0
    ensures (x + k * p) % p == x % p
  {
    var q := x / p;
    var m := x % p;
    assert x + k * p == (q + k) * p + m by {
      assert x == q * p + m;
      assert (q + k) * p == q * p + k * p;
    }
    DivModUnique(x + k * p, p, q + k, m);
  }

  /** Euclidean division has one quotient and one remainder. */
  lemma DivModUnique(x: int, p: int, q: int, m: int)
    requires p > 0
    requires 0 <= m < p
    requires x == q * p + m
    ensures x % p == m && x / p == q
  {
    var q' := x / p;
    var m' := x % p;
    assert x == q' * p + m';
    assert (q - q') * p == m' - m by {
      assert (q - q') * p == q * p - q' * p;
    }
    if q' > q {
      MulAtLeast(q' - q, p);
    } else if q' < q {
      MulAtLeast(q - q', p);
    }
  }

  lemma MulAtLeast(a: int, p: int)
    requires a >= 1 && p > 0
    ensures a * p >= p
  {
    assert a * p == (a - 1) * p + p;
  }

  lemma MulMonotone(a: int, b: int, p: int)
    requires a <= b && p >= 0
    ensures a * p <= b * p
  {
    assert b * p - a * p == (b - a) * p;
  }

  /** Floor division by a positive divisor keeps the order. */
  lemma DivMonotone(x: int, y: int, d: int)
    requires d > 0 && x <= y
    ensures x / d <= y / d
  {
    var qx, qy := x / d, y / d;
    assert x == qx * d + x % d && y == qy * d + y % d;
    assert (qy + 1) * d == qy * d + d;
    if qx > qy {
      MulMonotone(qy + 1, qx, d);
    }
  }
}
