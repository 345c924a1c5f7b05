/** Plane geometry shared by the capture pipeline, the analyser and the
    placement generator. Positions are pixels; `Math.sqrt` is not a Dafny
    function, so every member that takes a square root receives it as a
    parameter `sqrt` constrained by `IsSqrt`. */
module Geometry {

  datatype Vec2 = Vec2(x: real, y: real)

  /** Squared Euclidean distance; the source's distance tests can be
      read on squared quantities. */
  function SqDist(p: Vec2, q: Vec2): (d: real)
    ensures d >= 0.0
  {
    var dx, dy := p.x - q.x, p.y - q.y;
    Square(dx);
    Square(dy);
    dx * dx + dy * dy
  }

  /** `Math.min` and `Math.max` on two numbers. */
  function Min(x: real, y: real): real { if x <= y then x else y }
  function Max(x: real, y: real): real { if x >= y then x else y }

  /** `sqrt` behaves as the non-negative square root on non-negative reals. */
  ghost predicate IsSqrt(sqrt: real -> real)
  {
    forall x: real :: 0.0 <= x ==> 0.0 <= sqrt(x) && sqrt(x) * sqrt(x) == x
  }

  /** Length of the displacement (dx, dy): `Math.sqrt(dx*dx + dy*dy)`. */
  function Norm(sqrt: real -> real, dx: real, dy: real): (n: real)
    requires IsSqrt(sqrt)
    ensures n >= 0.0
    ensures n * n == dx * dx + dy * dy
  {
    Square(dx);
    Square(dy);
    sqrt(dx * dx + dy * dy)
  }

  /** Euclidean distance between two points. */
  function Dist(sqrt: real -> real, p: Vec2, q: Vec2): (d: real)
    requires IsSqrt(sqrt)
    ensures d >= 0.0
    ensures d * d == SqDist(p, q)
  {
    Norm(sqrt, p.x - q.x, p.y - q.y)
  }

  /** A strict threshold test on a square root is the same test on the
      square: the onset and capture-radius tests may compare squared
      distances instead. */
  lemma SqrtExceedsIff(sqrt: real -> real, d: real, c: real)
    requires IsSqrt(sqrt)
    requires 0.0 <= d && 0.0 <= c
    ensures sqrt(d) > c <==> d > c * c
  {
    var s := sqrt(d);
    assert 0.0 <= s && s * s == d;
    if s > c {
      SquareStrict(c, s);
    } else {
      SquareWeak(s, c);
    }
  }

  /** The same on a length: the length of (dx, dy) exceeds c exactly when
      dx² + dy² exceeds c². */
  lemma NormExceedsIff(sqrt: real -> real, dx: real, dy: real, c: real)
    requires IsSqrt(sqrt) && 0.0 <= c
    ensures Norm(sqrt, dx, dy) > c <==> dx * dx + dy * dy > c * c
  {
    Square(dx);
    Square(dy);
    SqrtExceedsIff(sqrt, dx * dx + dy * dy, c);
  }

  lemma SqrtBelowIff(sqrt: real -> real, d: real, c: real)
    requires IsSqrt(sqrt)
    requires 0.0 <= d && 0.0 <= c
    ensures sqrt(d) < c <==> d < c * c
  {
    var s := sqrt(d);
    assert 0.0 <= s && s * s == d;
    if s < c {
      SquareStrict(s, c);
    } else {
      SquareWeak(c, s);
    }
  }

  // Arithmetic helpers for non-linear steps the solver does not take alone.

  lemma ProductPositive(u: real, v: real)
    requires u > 0.0 && v > 0.0
    ensures u * v > 0.0
  {
  }

  lemma ProductNonNegative(u: real, v: real)
    requires u >= 0.0 && v >= 0.0
    ensures u * v >= 0.0
  {
  }

  lemma Square(a: real)
    ensures a * a >= 0.0
    ensures a != 0.0 ==> a * a > 0.0
  {
    if a > 0.0 {
      ProductPositive(a, a);
    } else if a < 0.0 {
      ProductPositive(-a, -a);
    }
  }

  /** Squaring is strictly monotone on non-negative reals. */
  lemma SquareStrict(a: real, b: real)
    requires 0.0 <= a < b
    ensures a * a < b * b
  {
    ProductPositive(b - a, b + a);
    assert (b - a) * (b + a) == b * b - a * a;
  }

  lemma SquareWeak(a: real, b: real)
    requires 0.0 <= a <= b
    ensures a * a <= b * b
  {
    ProductNonNegative(b - a, b + a);
    assert (b - a) * (b + a) == b * b - a * a;
  }
}
