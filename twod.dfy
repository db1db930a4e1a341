/**
 * The TwoD vector of the two-dimensional scripts. `mag` is `(x**2 + y**2) ** 0.5`;
 * it is modelled through a square-root function passed in by the caller and
 * required to be exact on non-negative reals, so every statement proved here
 * holds for the true Euclidean magnitude.
 */
module TwoD {
  datatype Vec2 = Vec2(x: real, y: real)

  const ZERO: Vec2 := Vec2(0.0, 0.0)

  /** `a + b` */
  function Add(a: Vec2, b: Vec2): Vec2
  {
    Vec2(a.x + b.x, a.y + b.y)
  }

  /** `a - b` */
  function Sub(a: Vec2, b: Vec2): Vec2
  {
    Vec2(a.x - b.x, a.y - b.y)
  }

  /** `a * k` */
  function Scale(a: Vec2, k: real): Vec2
  {
    Vec2(a.x * k, a.y * k)
  }

  /** `a / k`; Python raises ZeroDivisionError for k == 0, which no caller reaches. */
  function Div(a: Vec2, k: real): Vec2
    requires k != 0.0
  {
    Vec2(a.x / k, a.y / k)
  }

  /** Subtracting what was added gives back the original vector. */
  lemma AddSubInverse(a: Vec2, b: Vec2)
    ensures Sub(Add(a, b), b) == a
  {
  }

  /** Dividing by the factor a vector was scaled with gives it back. */
  lemma ScaleDivInverse(a: Vec2, k: real)
    requires k != 0.0
    ensures Div(Scale(a, k), k) == a
  {
    assert (a.x * k) / k == a.x && (a.y * k) / k == a.y;
  }

  /** `x ** 2 + y ** 2`, the square of `mag`. */
  function MagSq(v: Vec2): (r: real)
    ensures r >= 0.0
  {
    v.x * v.x + v.y * v.y
  }

  /** `root` is the exact square root on the non-negative reals. */
  ghost predicate IsSquareRoot(root: real -> real)
  {
    forall x :: 0.0 <= x ==> 0.0 <= root(x) && root(x) * root(x) == x
  }

  /** `mag()`: `(x ** 2 + y ** 2) ** 0.5`. */
  function Mag(v: Vec2, root: real -> real): real
  {
    root(MagSq(v))
  }

  /** `mag` squared is MagSq, and `mag` is never negative. */
  lemma MagSquared(v: Vec2, root: real -> real)
    requires IsSquareRoot(root)
    ensures Mag(v, root) >= 0.0 && Mag(v, root) * Mag(v, root) == MagSq(v)
  {
  }

  /** The product of two positive reals is positive. */
  lemma PositiveProduct(a: real, b: real)
    requires a > 0.0 && b > 0.0
    ensures a * b > 0.0
  {
  }

  /** A common non-zero factor cancels. */
  lemma Cancel(a: real, b: real, c: real)
    requires c != 0.0 && a * c == b * c
    ensures a == b
  {
    assert a == (a * c) / c && b == (b * c) / c;
  }

  /** Between non-negative reals, squaring keeps the order. */
  lemma SquareMonotone(a: real, b: real)
    requires 0.0 <= a && 0.0 <= b
    ensures a < b <==> a * a < b * b
  {
    assert (b - a) * (b + a) == b * b - a * a;
    if a < b {
      PositiveProduct(b - a, b + a);
    } else if a > b {
      PositiveProduct(a - b, a + b);
      assert (a - b) * (a + b) == a * a - b * b;
    }
  }

  /** Comparing `mag` with a non-negative bound is comparing squared distances. */
  lemma MagLess(v: Vec2, bound: real, root: real -> real)
    requires IsSquareRoot(root) && bound >= 0.0
    ensures Mag(v, root) < bound <==> MagSq(v) < bound * bound
    ensures Mag(v, root) > bound <==> MagSq(v) > bound * bound
  {
    MagSquared(v, root);
    SquareMonotone(Mag(v, root), bound);
    SquareMonotone(bound, Mag(v, root));
  }

  /** A coordinate is no larger in magnitude than the whole vector. */
  lemma CoordinatesWithinMag(v: Vec2, bound: real)
    requires bound >= 0.0 && MagSq(v) < bound * bound
    ensures -bound < v.x < bound && -bound < v.y < bound
  {
    var ax := if v.x < 0.0 then -v.x else v.x;
    var ay := if v.y < 0.0 then -v.y else v.y;
    assert ax * ax == v.x * v.x && ay * ay == v.y * v.y;
    assert v.x * v.x >= 0.0 && v.y * v.y >= 0.0;
    SquareMonotone(ax, bound);
    SquareMonotone(ay, bound);
  }
}
