/**
 * Plane geometry over the reals, stated without square roots: squared
 * lengths, comparison of non-negative numbers through their squares, and
 * the triangle inequality that bounds a neuron's distance from its origin.
 */
module Geometry {

  /** The absolute value: a non-negative number equal to `a` or to `-a`. */
  function Abs(a: real): (r: real)
    ensures 0.0 <= r && (r == a || r == -a)
  {
    if a < 0.0 then -a else a
  }

  /** A square is never negative. */
  lemma SquareSign(a: real)
    ensures 0.0 <= a * a
  {
    if a < 0.0 {
      assert a * a == (-a) * (-a);
    }
  }

  /** Multiplying by a non-negative number keeps an order. */
  lemma MulMonotonic(a: real, b: real, c: real)
    requires a <= b && 0.0 <= c
    ensures a * c <= b * c
  {
    assert b * c - a * c == (b - a) * c;
  }

  /** A product of positive numbers is positive. */
  lemma ProductPositive(p: real, q: real)
    requires 0.0 < p && 0.0 < q
    ensures 0.0 < p * q
  {
  }

  /** The absolute value of a product, and when a product is zero. */
  lemma AbsProduct(p: real, q: real)
    ensures Abs(p * q) == Abs(p) * Abs(q)
    ensures p * q == 0.0 <==> p == 0.0 || q == 0.0
  {
    if p < 0.0 && q < 0.0 {
      assert p * q == (-p) * (-q);
      ProductPositive(-p, -q);
    } else if p < 0.0 && 0.0 < q {
      assert p * q == -((-p) * q);
      ProductPositive(-p, q);
    } else if 0.0 < p && q < 0.0 {
      assert p * q == -(p * (-q));
      ProductPositive(p, -q);
    } else if 0.0 < p && 0.0 < q {
      ProductPositive(p, q);
    }
  }

  /** For non-negative numbers, comparing squares is comparing the numbers. */
  lemma SquareMonotonic(a: real, b: real)
    requires 0.0 <= a && 0.0 <= b
    ensures a <= b <==> a * a <= b * b
  {
    if a <= b {
      var p, q, r := a * a, a * b, b * b;
      assert p <= q by { assert q - p == (b - a) * a; }
      assert q <= r by { assert r - q == (b - a) * b; }
    } else {
      var p, q, r := b * b, a * b, a * a;
      assert p <= q by { assert q - p == (a - b) * b; }
      assert q < r by { assert r - q == (a - b) * a; }
    }
  }

  /** A number whose square is at most `y * y` lies in [-y, y]. */
  lemma AbsFromSquares(x: real, y: real)
    requires 0.0 <= y && x * x <= y * y
    ensures -y <= x <= y
  {
    assert Abs(x) * Abs(x) == x * x;
    SquareMonotonic(Abs(x), y);
  }

  /** The squared Euclidean length of the vector (dx, dy). */
  function SqDist(dx: real, dy: real): (r: real)
    ensures r >= 0.0
  {
    SquareSign(dx);
    SquareSign(dy);
    dx * dx + dy * dy
  }

  /** `d` is `Math.hypot(dx, dy)`: the non-negative number whose square is
      the squared length of (dx, dy). */
  ghost predicate IsHypot(d: real, dx: real, dy: real)
  {
    d >= 0.0 && d * d == SqDist(dx, dy)
  }

  /** The squared length of q - v, expanded. */
  lemma ExpandDifference(qx: real, qy: real, vx: real, vy: real)
    ensures SqDist(qx - vx, qy - vy) == SqDist(qx, qy) - 2.0 * (qx * vx + qy * vy) + SqDist(vx, vy)
  {
  }

  /** The Cauchy-Schwarz inequality in the plane, by Lagrange's identity. */
  lemma CauchySchwarz(qx: real, qy: real, vx: real, vy: real)
    ensures (qx * vx + qy * vy) * (qx * vx + qy * vy) <= SqDist(qx, qy) * SqDist(vx, vy)
  {
    var cross := qx * vy - qy * vx;
    assert SqDist(qx, qy) * SqDist(vx, vy) - (qx * vx + qy * vy) * (qx * vx + qy * vy) == cross * cross;
    SquareSign(cross);
  }

  lemma ScaledSquares(q2: real, limit: real, step: real)
    requires 0.0 <= q2 <= limit * limit
    ensures q2 * (step * step) <= (limit * step) * (limit * step)
  {
    SquareSign(step);
    MulMonotonic(q2, limit * limit, step * step);
    assert (limit * limit) * (step * step) == (limit * step) * (limit * step);
  }

  /** With |q| <= limit and |v| == step, the dot product of q and v is at
      least -limit * step. */
  lemma CrossTermBound(qx: real, qy: real, vx: real, vy: real, limit: real, step: real)
    requires 0.0 <= limit && SqDist(qx, qy) <= limit * limit
    requires 0.0 <= step && step * step == SqDist(vx, vy)
    ensures -(qx * vx + qy * vy) <= limit * step
  {
    var dot := qx * vx + qy * vy;
    CauchySchwarz(qx, qy, vx, vy);
    ScaledSquares(SqDist(qx, qy), limit, step);
    MulMonotonic(0.0, limit, step);
    AbsFromSquares(dot, limit * step);
  }

  /** The triangle inequality: with |q| <= limit and |v| == step, the
      length d of q - v is at most limit + step. */
  lemma TriangleBound(qx: real, qy: real, vx: real, vy: real, d: real, limit: real, step: real)
    requires 0.0 <= d && d * d == SqDist(qx - vx, qy - vy)
    requires 0.0 <= limit && SqDist(qx, qy) <= limit * limit
    requires 0.0 <= step && step * step == SqDist(vx, vy)
    ensures d <= limit + step
  {
    ExpandDifference(qx, qy, vx, vy);
    CrossTermBound(qx, qy, vx, vy, limit, step);
    assert (limit + step) * (limit + step) == limit * limit + 2.0 * (limit * step) + step * step;
    SquareMonotonic(d, limit + step);
  }
}
