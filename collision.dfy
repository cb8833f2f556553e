/** is_collided of Main.cpp: two circles touch when the distance between their positions
    is at most the sum of their radii; an object never collides with itself. */
module Collision {
  import opened Geometry

  /** A CircleShape as the collision test sees it: getPosition() and getRadius(). */
  datatype Disc = Disc(center: Vec, radius: real)

  /** Square of the distance between two points. */
  function Dist2(a: Vec, b: Vec): real
  {
    (b.x - a.x) * (b.x - a.x) + (b.y - a.y) * (b.y - a.y)
  }

  /** is_collided(obj1, obj2); `same` says the two pointers are one object, and `norm`
      stands for the floating-point sqrt(pow(x, 2) + pow(y, 2)) applied to the difference
      of the positions. */
  predicate IsCollided(one: Disc, two: Disc, same: bool, norm: Vec -> real)
  {
    !same && norm(Sub(two.center, one.center)) <= one.radius + two.radius
  }

  /** The length that exact arithmetic would compute: non-negative, squaring to x² + y². */
  ghost predicate IsEuclidean(norm: Vec -> real)
  {
    forall v: Vec :: 0.0 <= norm(v) && norm(v) * norm(v) == v.x * v.x + v.y * v.y
  }

  lemma ProductNonNegative(x: real, y: real)
    requires x >= 0.0 && y >= 0.0
    ensures x * y >= 0.0
  {
  }

  lemma ProductPositive(x: real, y: real)
    requires x > 0.0 && y > 0.0
    ensures x * y > 0.0
  {
  }

  lemma SquareMonotone(a: real, b: real)
    requires 0.0 <= a <= b
    ensures a * a <= b * b
  {
    ProductNonNegative(b - a, b + a);
    assert (b - a) * (b + a) == b * b - a * a;
  }

  lemma SquareStrict(a: real, b: real)
    requires 0.0 <= a < b
    ensures a * a < b * b
  {
    ProductPositive(b - a, b + a);
    assert (b - a) * (b + a) == b * b - a * a;
  }

  /** Two non-negative numbers with the same square are equal. */
  lemma SquareInjective(a: real, b: real)
    requires 0.0 <= a && 0.0 <= b && a * a == b * b
    ensures a == b
  {
    if a < b {
      SquareStrict(a, b);
    } else if b < a {
      SquareStrict(b, a);
    }
  }

  /** With an exact length, the test is the square-root-free comparison of the squared
      distance with the squared sum of the radii. */
  lemma AgreesWithSquares(one: Disc, two: Disc, same: bool, norm: Vec -> real)
    requires IsEuclidean(norm)
    ensures var reach := one.radius + two.radius;
      IsCollided(one, two, same, norm) <==> !same && 0.0 <= reach && Dist2(one.center, two.center) <= reach * reach
  {
    var reach := one.radius + two.radius;
    var d := norm(Sub(two.center, one.center));
    assert 0.0 <= d && d * d == Dist2(one.center, two.center);
    if d <= reach {
      SquareMonotone(d, reach);
    } else if 0.0 <= reach {
      SquareStrict(reach, d);
    }
  }

  /** With an exact length, collision does not depend on the order of the arguments. */
  lemma Symmetric(one: Disc, two: Disc, same: bool, norm: Vec -> real)
    requires IsEuclidean(norm)
    ensures IsCollided(one, two, same, norm) == IsCollided(two, one, same, norm)
  {
    var u := Sub(two.center, one.center);
    var v := Sub(one.center, two.center);
    assert v.x * v.x + v.y * v.y == u.x * u.x + u.y * u.y;
    SquareInjective(norm(u), norm(v));
  }

  /** With an exact length, two distinct objects at one position with non-negative radii
      always collide. */
  lemma Coincident(one: Disc, two: Disc, norm: Vec -> real)
    requires IsEuclidean(norm)
    requires one.center == two.center && one.radius >= 0.0 && two.radius >= 0.0
    ensures IsCollided(one, two, false, norm)
  {
    var d := norm(Sub(two.center, one.center));
    assert d * d == 0.0 * 0.0;
    SquareInjective(d, 0.0);
  }
}
