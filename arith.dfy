/**
 * Small facts of real arithmetic (division and scaling by a positive
 * factor, and the floor) used by the histogram binning.
 */
module RealArith {
  lemma DivAtMost(q: real, p: real, u: real)
    requires p > 0.0 && q <= p * u
    ensures q / p <= u
  {
  }

  lemma DivBelow(q: real, p: real, u: real)
    requires p > 0.0 && q < p * u
    ensures q / p < u
  {
  }

  /** d·k <= d·x < d·(k + 1) for d > 0 and k <= x < k + 1. */
  lemma ScaleBetween(d: real, kr: real, x: real, z: real)
    requires d > 0.0 && kr <= x < kr + 1.0 && d * x == z
    ensures d * kr <= z < d * (kr + 1.0)
  {
    var e := kr + 1.0 - x;
    assert d * e > 0.0;
    assert d * e == d * (kr + 1.0) - d * x;
    var f := x - kr;
    assert d * f >= 0.0;
    assert d * f == d * x - d * kr;
  }

  /** If d·k <= u·b < d·(k + 1) then d·k/b <= u < d·(k + 1)/b. */
  lemma ScaledFloor(u: real, d: real, b: real, kr: real)
    requires b > 0.0 && d * kr <= u * b < d * (kr + 1.0)
    ensures d * kr / b <= u < d * (kr + 1.0) / b
  {
    DivAtMost(d * kr, b, u);
    var hi := d * (kr + 1.0);
    assert u < hi / b by {
      assert u * b / b == u;
      DivBelow(u * b, b, hi / b);
    }
  }

  lemma FloorBracket(u: real, d: real, b: real, x: real)
    requires d > 0.0 && b > 0.0 && d * x == u * b
    ensures d * x.Floor as real / b <= u < d * (x.Floor as real + 1.0) / b
  {
    var kr := x.Floor as real;
    ScaleBetween(d, kr, x, u * b);
    ScaledFloor(u, d, b, kr);
  }

  lemma ScaleStrict(d: real, j: real, k: real)
    requires d > 0.0 && j < k
    ensures d * j < d * k
  {
    assert d * (k - j) > 0.0;
  }

  lemma DivStrict(p: real, q: real, b: real)
    requires b > 0.0 && p < q
    ensures p / b < q / b
  {
    assert (q - p) / b > 0.0;
  }

  /** Squaring is monotone on the non-negative reals. */
  lemma SquareMonotone(a: real, b: real)
    requires 0.0 <= a <= b
    ensures a * a <= b * b
    ensures a < b ==> a * a < b * b
  {
    assert a * (b - a) >= 0.0;
    assert a * (b - a) == a * b - a * a;
    assert (b - a) * b == b * b - a * b;
    if a < b {
      assert (b - a) * b > 0.0;
    }
  }
}
