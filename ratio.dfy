/**
 * The rate ratio of the rational resampler: Euclid's `gcd` and the
 * reduction of `outRate / inRate` to an interpolation/decimation pair.
 */
module Ratio {
  import opened Arith

  /** `gcd(a, b) = b === 0 ? a : gcd(b, a % b)` on non-negative integers. */
  function Gcd(a: nat, b: nat): nat
    decreases b
  {
    if b == 0 then a else Gcd(b, a % b)
  }

  ghost predicate Divides(d: nat, n: nat)
  {
    d > 0 && n % d == 0
  }

  /** `a` and `b` have no common divisor other than 1. */
  ghost predicate Coprime(a: nat, b: nat)
  {
    forall d: nat :: Divides(d, a) && Divides(d, b) ==> d == 1
  }

  lemma DividesSmall(d: nat, n: nat)
    requires Divides(d, n) && n > 0
    ensures d <= n
  {
    var k := n / d;
    assert n == d * k;
    ProductBounds(d, k);
  }

  /** A common divisor of `a` and `b` divides `a - q * b`. */
  lemma DividesDifference(d: nat, a: nat, b: nat, q: int)
    requires Divides(d, a) && Divides(d, b) && a - q * b >= 0
    ensures Divides(d, a - q * b)
  {
    var ka := a / d;
    var kb := b / d;
    assert a == d * ka && b == d * kb;
    assert q * b == d * (q * kb) by {
      assert q * (d * kb) == d * (q * kb);
    }
    assert a - q * b == d * (ka - q * kb);
    MultipleOf(d, ka - q * kb);
  }

  /** A common divisor of `b` and `r` divides `q * b + r`. */
  lemma DividesCombination(d: nat, b: nat, r: nat, q: nat)
    requires Divides(d, b) && Divides(d, r)
    ensures Divides(d, q * b + r)
  {
    var kb := b / d;
    var kr := r / d;
    assert b == d * kb && r == d * kr;
    assert q * b == d * (q * kb) by {
      assert q * (d * kb) == d * (q * kb);
    }
    assert q * b + r == d * (q * kb + kr);
    MultipleOf(d, q * kb + kr);
  }

  /** The gcd of two integers, not both zero, is positive and divides both. */
  lemma {:induction false} GcdDivides(a: nat, b: nat)
    requires a > 0 || b > 0
    ensures Gcd(a, b) > 0 && Divides(Gcd(a, b), a) && Divides(Gcd(a, b), b)
    decreases b
  {
    if b == 0 {
      MultipleOf(a, 1);
    } else {
      var r := a % b;
      GcdDivides(b, r);
      var g := Gcd(b, r);
      assert a == (a / b) * b + r;
      DividesCombination(g, b, r, a / b);
    }
  }

  /** Every common divisor of `a` and `b` divides their gcd. */
  lemma {:induction false} GcdGreatest(a: nat, b: nat, d: nat)
    requires Divides(d, a) && Divides(d, b)
    ensures Divides(d, Gcd(a, b))
    decreases b
  {
    if b != 0 {
      var r := a % b;
      assert r == a - (a / b) * b;
      DividesDifference(d, a, b, a / b);
      GcdGreatest(b, r, d);
    }
  }

  /** The reduced pair: `interp = out / gcd`, `decim = in / gcd`. */
  datatype Reduced = Reduced(interp: nat, decim: nat)

  /**
   * The rational resampler's ratio. Both parts are positive, they are
   * coprime, and `interp / decim` is exactly `outRate / inRate`.
   */
  function Reduce(inRate: nat, outRate: nat): (r: Reduced)
    requires inRate > 0 && outRate > 0
    ensures r.interp > 0 && r.decim > 0
    ensures r.interp * inRate == r.decim * outRate
    ensures Coprime(r.interp, r.decim)
    ensures r.interp * Gcd(inRate, outRate) == outRate && r.decim * Gcd(inRate, outRate) == inRate
  {
    GcdDivides(inRate, outRate);
    var g := Gcd(inRate, outRate);
    var red := Reduced(outRate / g, inRate / g);
    ReducedProperties(inRate, outRate, g, red.interp, red.decim);
    red
  }

  lemma ReducedProperties(inRate: nat, outRate: nat, g: nat, i: nat, d: nat)
    requires inRate > 0 && outRate > 0 && g == Gcd(inRate, outRate)
    requires g > 0 && Divides(g, inRate) && Divides(g, outRate)
    requires i == outRate / g && d == inRate / g
    ensures i > 0 && d > 0
    ensures i * inRate == d * outRate
    ensures Coprime(i, d)
    ensures i * g == outRate && d * g == inRate
  {
    assert outRate == g * i && inRate == g * d;
    CrossProduct(g, i, d);
    ReducedCoprime(inRate, outRate, g, i, d);
  }

  lemma CrossProduct(g: nat, i: nat, d: nat)
    ensures i * (g * d) == d * (g * i)
  {
  }

  lemma ReducedCoprime(inRate: nat, outRate: nat, g: nat, i: nat, d: nat)
    requires g == Gcd(inRate, outRate) && g > 0
    requires outRate == g * i && inRate == g * d
    ensures Coprime(i, d)
  {
    forall c: nat | Divides(c, i) && Divides(c, d)
      ensures c == 1
    {
      CommonDivisorOfReduced(inRate, outRate, g, i, d, c);
    }
  }

  lemma CommonDivisorOfReduced(inRate: nat, outRate: nat, g: nat, i: nat, d: nat, c: nat)
    requires g == Gcd(inRate, outRate) && g > 0
    requires outRate == g * i && inRate == g * d
    requires Divides(c, i) && Divides(c, d)
    ensures c == 1
  {
    var gc := g * c;
    ProductBounds(g, c);
    assert gc > 0;
    ScaledDivisor(g, c, i);
    ScaledDivisor(g, c, d);
    GcdGreatest(inRate, outRate, gc);
    DividesSmall(gc, g);
    ProductBounds(g, c - 1);
    assert gc == g * (c - 1) + g;
  }

  /** If `c` divides `n` then `g * c` divides `g * n`. */
  lemma ScaledDivisor(g: nat, c: nat, n: nat)
    requires g > 0 && Divides(c, n)
    ensures Divides(g * c, g * n)
  {
    var k := n / c;
    assert n == c * k;
    assert g * n == (g * c) * k by {
      assert g * (c * k) == (g * c) * k;
    }
    ProductBounds(g, c);
    MultipleOf(g * c, k);
  }

  /** The resampler used for audio at the 50 kHz NFM IF rate: 48 kHz / 50 kHz reduces to 24/25. */
  lemma NfmAudioRatio()
    ensures Reduce(50000, 48000) == Reduced(24, 25)
  {
    assert Gcd(50000, 48000) == 2000;
  }
}
