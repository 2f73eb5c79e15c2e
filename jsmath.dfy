/** The one piece of JavaScript arithmetic the app's displays rely on. */
module JsMath {

  /** `Math.round` over exact reals: the nearest integer, halves toward +infinity. */
  function Round(x: real): (r: int)
    ensures r as real <= x + 0.5 < r as real + 1.0
  {
    (x + 0.5).Floor
  }

  lemma RoundOfInteger(n: int)
    ensures Round(n as real) == n
  {
  }

  lemma RoundMonotone(x: real, y: real)
    requires x <= y
    ensures Round(x) <= Round(y)
  {
  }

  /** Rounding a value in [lo, hi] stays within [lo, hi] when the bounds are integers. */
  lemma RoundWithin(x: real, lo: int, hi: int)
    requires lo as real <= x <= hi as real
    ensures lo <= Round(x) <= hi
  {
    RoundMonotone(lo as real, x);
    RoundMonotone(x, hi as real);
    RoundOfInteger(lo);
    RoundOfInteger(hi);
  }

  /** Multiplying by a positive real keeps the order. */
  lemma MulMono(a: real, b: real, t: real)
    requires t > 0.0
    ensures a >= b <==> a * t >= b * t
  {
    if a >= b {
      assert (a - b) * t >= 0.0;
    } else {
      assert (b - a) * t > 0.0;
    }
  }

  lemma DivAtLeast(x: real, y: real, t: real)
    requires t > 0.0
    ensures x / t >= y <==> x >= y * t
  {
    var q := x / t;
    assert q * t == x;
    MulMono(q, y, t);
  }

  lemma DivAtMost(x: real, y: real, t: real)
    requires t > 0.0
    ensures x / t <= y <==> x <= y * t
  {
    var q := x / t;
    assert q * t == x;
    MulMono(y, q, t);
  }
}
