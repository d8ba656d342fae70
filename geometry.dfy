/** Planar geometry of keypoints: the angle the skeleton makes at a joint. */
module Geometry {

  /** A keypoint position in image coordinates. */
  datatype Point = Point(x: real, y: real)

  /** `Math.pow(d, 2)`. */
  function Square(d: real): real
  {
    d * d
  }

  lemma SquareNegation(d: real)
    ensures Square(-d) == Square(d)
  {
  }

  /** The squared distance under the square root of `calculateAngle`. */
  function SqDist(p: Point, q: Point): real
  {
    Square(p.x - q.x) + Square(p.y - q.y)
  }

  /** The distance does not depend on the order of its end points. */
  lemma SqDistSymmetric(p: Point, q: Point)
    ensures SqDist(p, q) == SqDist(q, p)
  {
    SquareNegation(p.x - q.x);
    SquareNegation(p.y - q.y);
    assert q.x - p.x == -(p.x - q.x);
    assert q.y - p.y == -(p.y - q.y);
  }

  /**
   * The non-degenerate branch of `calculateAngle` as a function of the three
   * squared side lengths ab², bc² and ac²: square roots, the law-of-cosines
   * quotient, arccosine and conversion to degrees. Floating-point square
   * roots and trigonometry are not modelled; the caller supplies this branch
   * as an uninterpreted map.
   */
  type Trig = (real, real, real) -> real

  /**
   * The quotient (ab² + bc² - ac²) / (2·ab·bc) does not change when the two
   * ray lengths ab and bc swap; a branch computing it has this property.
   */
  ghost predicate RaySymmetric(trig: Trig)
  {
    forall ab2, bc2, ac2 :: trig(ab2, bc2, ac2) == trig(bc2, ab2, ac2)
  }

  /** The angle returned when a ray of the joint has zero length. */
  const StraightAngle: real := 180.0

  /**
   * Angle at vertex `b` between the rays to `a` and to `c`, in degrees. Over
   * the reals a ray has zero Euclidean length exactly when its two end points
   * coincide, so the zero-length guard of script.js is a test of point
   * equality here.
   */
  function CalculateAngle(trig: Trig, a: Point, b: Point, c: Point): (r: real)
    ensures a == b || c == b ==> r == StraightAngle
    ensures !(a == b || c == b) ==> r == trig(SqDist(b, a), SqDist(b, c), SqDist(c, a))
  {
    if a == b || c == b then StraightAngle else trig(SqDist(b, a), SqDist(b, c), SqDist(c, a))
  }

  /**
   * Swapping the two outer points swaps the two ray lengths and keeps the
   * opposite side, so with a branch that computes the symmetric quotient the
   * angle does not depend on the order of the outer points.
   */
  lemma AngleSymmetric(trig: Trig, a: Point, b: Point, c: Point)
    requires RaySymmetric(trig)
    ensures CalculateAngle(trig, a, b, c) == CalculateAngle(trig, c, b, a)
  {
    SqDistSymmetric(a, c);
  }
}
