/**
 * Integer lemmas about products, quotients and remainders that the index
 * arithmetic of the resampler and the gcd reduction rest on.
 */
module Arith {

  /** Multiplying by a positive `d` moves a non-zero integer at least `d` away from zero. */
  lemma {:induction false} ProductBounds(d: int, k: int)
    requires d > 0
    ensures k >= 1 ==> d * k >= d
    ensures k <= -1 ==> d * k <= -d
    decreases if k < 0 then -k else k
  {
    if k > 1 {
      ProductBounds(d, k - 1);
      assert d * k == d * (k - 1) + d;
    } else if k < -1 {
      ProductBounds(d, k + 1);
      assert d * k == d * (k + 1) - d;
    }
  }

  /** Division of `q * d + r` by `d` with `0 <= r < d` gives back `q` and `r`. */
  lemma DivModOf(d: int, q: int, r: int)
    requires d > 0 && 0 <= r < d
    ensures (q * d + r) / d == q && (q * d + r) % d == r
  {
    var n := q * d + r;
    var q' := n / d;
    var r' := n % d;
    assert n == q' * d + r' && 0 <= r' < d;
    assert d * (q - q') == r' - r by {
      assert q * d - q' * d == d * (q - q');
    }
    ProductBounds(d, q - q');
  }

  /** A non-negative multiple of `d` is divisible by `d`, with the expected quotient. */
  lemma MultipleOf(d: int, t: int)
    requires d > 0 && d * t >= 0
    ensures t >= 0 && (d * t) % d == 0 && (d * t) / d == t
  {
    ProductBounds(d, t);
    DivModOf(d, t, 0);
    assert t * d == d * t;
  }

  lemma MulMonotone(a: int, b: int, c: int)
    requires a <= b && c >= 0
    ensures a * c <= b * c
  {
    if c > 0 {
      ProductBounds(c, b - a);
      assert b * c - a * c == c * (b - a);
    }
  }

  /** Floor division by a positive `y` stays below `bound` exactly when the dividend is below `bound * y`. */
  lemma DivBelow(x: int, y: int, bound: int)
    requires y > 0
    ensures x / y < bound <==> x < bound * y
  {
    var q := x / y;
    assert x == q * y + x % y;
    if q < bound {
      MulMonotone(q + 1, bound, y);
      assert (q + 1) * y == q * y + y;
    } else {
      MulMonotone(bound, q, y);
    }
  }

  /** `m` is below `ceil(a / b)` exactly when `m * b` is below `a`. */
  lemma BelowCeil(m: int, a: int, b: int)
    requires b > 0 && a >= 0
    ensures m < (a + b - 1) / b <==> m * b < a
  {
    DivBelow(a + b - 1, b, m + 1);
    assert (m + 1) * b == m * b + b;
  }

  lemma DivMonotone(x: int, y: int, d: int)
    requires x <= y && d > 0
    ensures x / d <= y / d
  {
    DivBelow(y, d, x / d);
    DivBelow(x, d, x / d);
  }

  /** Distributing a product over a sum, in the shape the index arithmetic needs. */
  lemma Distribute(a: int, b: int, c: int)
    ensures (a + b) * c == a * c + b * c
  {
  }
}
