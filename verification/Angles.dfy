/**
  The order `Math.atan2` puts vectors in, without a transcendental: ascending angle over
  `(-pi, pi]`, the zero vector at angle 0. The y axis points down, so ascending is clockwise on screen.
 */
module Angles {

  datatype Vector = Vector(x: real, y: real)

  const ZERO := Vector(0.0, 0.0)

  function Plus(a: Vector, b: Vector): Vector {
    Vector(a.x + b.x, a.y + b.y)
  }

  function Cross(a: Vector, b: Vector): real {
    a.x * b.y - a.y * b.x
  }

  /** The four ranges of angle: (-pi, 0), exactly 0, (0, pi), exactly pi. */
  function Sector(v: Vector): int {
    if v.y < 0.0 then 0
    else if v.y > 0.0 then 2
    else if v.x >= 0.0 then 1
    else 3
  }

  /** `a` has a strictly smaller angle than `b`. */
  predicate Before(a: Vector, b: Vector) {
    || Sector(a) < Sector(b)
    || (Sector(a) == Sector(b) && Sector(a) in {0, 2} && Cross(a, b) > 0.0)
  }

  /** Neither comes first: the comparator answers zero. */
  predicate Tied(a: Vector, b: Vector) {
    !Before(a, b) && !Before(b, a)
  }

  /** `len` is what `Math.hypot(dx, dy)` answers. */
  predicate IsHypot(len: real, dx: real, dy: real) {
    len >= 0.0 && len * len == dx * dx + dy * dy
  }

  /** Angle pi, the end of the range. */
  predicate PointsBack(v: Vector) {
    v.y == 0.0 && v.x < 0.0
  }

  /** The tangent of half the angle of `v`, whose length is `len`: it ascends with the angle up to pi. */
  function HalfTangent(v: Vector, len: real): real
    requires IsHypot(len, v.x, v.y) && !PointsBack(v)
  {
    if v == ZERO then 0.0 else (PositiveDenominator(v, len); v.y / (len + v.x))
  }

  lemma PositiveDenominator(v: Vector, len: real)
    requires IsHypot(len, v.x, v.y) && !PointsBack(v) && v != ZERO
    ensures len + v.x > 0.0
  {
    if len + v.x <= 0.0 {
      assert Square(len) == Square(v.x) + Square(v.y) && Square(v.x) == Square(-v.x);
      ProductAtMost(len, -v.x);
      SquareOfNonZero(v.y);
    }
    hide Square;
  }

  lemma ProductAtMost(a: real, b: real)
    requires 0.0 <= a <= b
    ensures Square(a) <= Square(b)
  {
    SignOfProduct(b - a, b + a);
    assert (b - a) * (b + a) == Square(b) - Square(a);
  }

  function Square(a: real): real {
    a * a
  }

  lemma SquareIsPositive(a: real)
    requires a > 0.0
    ensures Square(a) > 0.0
  {
    SignOfProduct(a, a);
    assert Square(a) / a == a;
    assert Square(a) != 0.0;
  }

  lemma SquareOfNonZero(x: real)
    ensures Square(x) >= 0.0 && (x != 0.0 ==> Square(x) > 0.0)
  {
    assert Square(x) == Square(-x) && Square(0.0) == 0.0;
    if x > 0.0 {
      SquareIsPositive(x);
    } else if x < 0.0 {
      SquareIsPositive(-x);
    }
  }

  /** Comparing half-planes and cross products is comparing angles, read off the tangents of their halves. */
  lemma BeforeIffSmallerAngle(a: Vector, b: Vector, lenA: real, lenB: real)
    requires IsHypot(lenA, a.x, a.y) && IsHypot(lenB, b.x, b.y)
    ensures Before(a, b)
            <==> !PointsBack(a) && (PointsBack(b) || HalfTangent(a, lenA) < HalfTangent(b, lenB))
  {
    if a.y != 0.0 {
      HalfTangentAndCosine(a, lenA);
    }
    if b.y != 0.0 {
      HalfTangentAndCosine(b, lenB);
    }
    if a.y != 0.0 && b.y != 0.0 && (a.y > 0.0 <==> b.y > 0.0) {
      SameSideCompares(a, b, HalfTangent(a, lenA), HalfTangent(b, lenB));
    }
    FlatHasNoTangent(a, lenA);
    FlatHasNoTangent(b, lenB);
    hide HalfTangent, IsHypot, Cross;
  }

  lemma FlatHasNoTangent(v: Vector, len: real)
    requires IsHypot(len, v.x, v.y)
    ensures v.y == 0.0 && v.x >= 0.0 ==> HalfTangent(v, len) == 0.0
  {
  }

  lemma HalfTangentAndCosine(v: Vector, len: real)
    requires IsHypot(len, v.x, v.y) && v.y != 0.0
    ensures var t := HalfTangent(v, len);
            && (t > 0.0 <==> v.y > 0.0) && (t < 0.0 <==> v.y < 0.0)
            && 2.0 * (v.x * t) == v.y - v.y * (t * t)
  {
    PositiveDenominator(v, len);
    var x, y, p, t := v.x, v.y, len + v.x, HalfTangent(v, len);
    assert t * p == y;
    SignOfProduct(t, p);
    SignOfProduct(-t, p);
    assert (t * y) * p == (len - x) * p by {
      assert (t * y) * p == (t * p) * y == y * y;
    }
    EqualFactors(t * y, len - x, p);
    assert y * (t * t) == (t * y) * t == (len - x) * t;
    assert y == t * len + t * x;
  }

  lemma EqualFactors(a: real, b: real, k: real)
    requires k > 0.0 && a * k == b * k
    ensures a == b
  {
    SignOfProduct(a - b, k);
    SignOfProduct(b - a, k);
  }

  /** On one side of the axis the tangents of the halves stand in the order the cross product says. */
  lemma SameSideCompares(a: Vector, b: Vector, s: real, t: real)
    requires (a.y > 0.0 && b.y > 0.0 && s > 0.0 && t > 0.0) || (a.y < 0.0 && b.y < 0.0 && s < 0.0 && t < 0.0)
    requires 2.0 * (a.x * s) == a.y - a.y * (s * s) && 2.0 * (b.x * t) == b.y - b.y * (t * t)
    ensures Cross(a, b) > 0.0 <==> s < t
  {
    CrossByTangents(a, b, s, t);
    var cross, st, yy := Cross(a, b), s * t, a.y * b.y;
    SignOfProduct(s, t);
    SignOfProduct(a.y, b.y);
    hide Cross;
    SignOfProduct(cross, st);
    SignOfProduct(t - s, 1.0 + st);
    SignOfProduct((t - s) * (1.0 + st), yy);
  }

  lemma CrossByTangents(a: Vector, b: Vector, s: real, t: real)
    requires 2.0 * (a.x * s) == a.y - a.y * (s * s) && 2.0 * (b.x * t) == b.y - b.y * (t * t)
    ensures 2.0 * (Cross(a, b) * (s * t)) == ((t - s) * (1.0 + s * t)) * (a.y * b.y)
  {
    var st, yy := s * t, a.y * b.y;
    assert 2.0 * ((a.x * s) * (b.y * t)) == yy * (t - s * st) by { Expand(a.y, b.y, s, t); }
    assert 2.0 * ((b.x * t) * (a.y * s)) == yy * (s - t * st) by { Expand(b.y, a.y, t, s); }
    assert (a.x * s) * (b.y * t) == (a.x * b.y) * st && (b.x * t) * (a.y * s) == (a.y * b.x) * st;
  }

  lemma Expand(y: real, z: real, s: real, t: real)
    ensures (y - y * (s * s)) * (z * t) == (y * z) * (t - s * (s * t))
  {
    assert (y * (s * s)) * (z * t) == (y * z) * ((s * s) * t);
  }

  /** The identity every argument below turns on: in the plane, three vectors are always dependent. */
  lemma Dependence(a: Vector, b: Vector, c: Vector)
    ensures Cross(a, b) * c.y == Cross(a, c) * b.y - Cross(b, c) * a.y
    ensures Cross(a, b) * c.x == Cross(a, c) * b.x - Cross(b, c) * a.x
  {
  }

  lemma CrossIsAntisymmetric(a: Vector, b: Vector)
    ensures Cross(a, b) == -Cross(b, a)
    ensures Cross(a, a) == 0.0
  {
  }

  lemma SignOfProduct(a: real, b: real)
    ensures b > 0.0 ==> (a * b > 0.0 <==> a > 0.0) && (a * b >= 0.0 <==> a >= 0.0)
    ensures b < 0.0 ==> (a * b < 0.0 <==> a > 0.0) && (a * b <= 0.0 <==> a >= 0.0)
    ensures b == 0.0 ==> a * b == 0.0
  {
  }

  /**
    Inside one open half-plane, "turns clockwise or is parallel" is transitive, and strictly so if either step
    is strict.
   */
  lemma CrossChain(a: Vector, b: Vector, c: Vector)
    requires Sector(a) == Sector(b) == Sector(c) && Sector(a) in {0, 2}
    requires Cross(a, b) >= 0.0 && Cross(b, c) >= 0.0
    ensures Cross(a, c) >= 0.0
    ensures Cross(a, b) > 0.0 || Cross(b, c) > 0.0 ==> Cross(a, c) > 0.0
  {
    Dependence(a, b, c);
    var ab, bc, ac := Cross(a, b), Cross(b, c), Cross(a, c);
    hide Cross;
    assert ac * b.y == ab * c.y + bc * a.y;
    SignOfProduct(ab, c.y);
    SignOfProduct(bc, a.y);
    SignOfProduct(ac, b.y);
  }

  /** `Before` is a strict weak order, which is what makes sorting by it well defined. */
  lemma BeforeIsAStrictWeakOrder(a: Vector, b: Vector, c: Vector)
    ensures !Before(a, a)
    ensures Before(a, b) && Before(b, c) ==> Before(a, c)
    ensures Tied(a, b) && Tied(b, c) ==> Tied(a, c)
    ensures !Before(a, b) && !Before(b, c) ==> !Before(a, c)
  {
    CrossIsAntisymmetric(a, b);
    CrossIsAntisymmetric(b, c);
    CrossIsAntisymmetric(a, c);
    CrossIsAntisymmetric(a, a);
    if Sector(a) == Sector(b) == Sector(c) && Sector(a) in {0, 2} {
      if Cross(a, b) >= 0.0 && Cross(b, c) >= 0.0 { CrossChain(a, b, c); }
      if Cross(c, b) >= 0.0 && Cross(b, a) >= 0.0 { CrossChain(c, b, a); }
    }
  }

  predicate IsMultiple(b: Vector, a: Vector, t: real) {
    b.x == t * a.x && b.y == t * a.y
  }

  ghost predicate SameDirection(a: Vector, b: Vector) {
    exists t: real :: t > 0.0 && IsMultiple(b, a, t)
  }

  /** Two vectors tie iff they point the same way, where a zero vector counts as pointing along positive x. */
  lemma TiedIffSameDirection(a: Vector, b: Vector)
    ensures Tied(a, b) <==> (Sector(a) == 1 && Sector(b) == 1) || (a != ZERO && b != ZERO && SameDirection(a, b))
  {
    CrossIsAntisymmetric(a, b);
    if Tied(a, b) && Sector(a) != 1 {
      TiedVectorsAreMultiples(a, b);
    }
    if a != ZERO && b != ZERO && SameDirection(a, b) {
      var t :| t > 0.0 && IsMultiple(b, a, t);
      SignOfProduct(a.x, t);
      SignOfProduct(a.y, t);
      SignOfProduct(-a.y, t);
      assert Cross(a, b) == a.x * (t * a.y) - a.y * (t * a.x) == 0.0;
    }
  }

  lemma TiedVectorsAreMultiples(a: Vector, b: Vector)
    requires Tied(a, b) && Sector(a) != 1
    ensures a != ZERO && b != ZERO && SameDirection(a, b)
  {
    CrossIsAntisymmetric(a, b);
    if a.y == 0.0 {
      var t := b.x / a.x;
      assert t * a.x == b.x;
      SignOfProduct(t, a.x);
      assert t > 0.0 && IsMultiple(b, a, t);
    } else {
      var t := b.y / a.y;
      assert t * a.y == b.y;
      assert Cross(a, b) == 0.0;
      assert a.y * b.x == a.x * b.y;
      assert a.x * (t * a.y) == (t * a.x) * a.y;
      assert (b.x - t * a.x) * a.y == 0.0;
      SignOfProduct(b.x - t * a.x, a.y);
      SignOfProduct(t * a.x - b.x, a.y);
      SignOfProduct(t, a.y);
      assert t > 0.0 && IsMultiple(b, a, t);
    }
  }

  /**
    The step that rules out a gap wider than half a turn: if the angle from `b` up to `a` spans more than
    that, everything outside the gap lies clockwise of `a`.
   */
  lemma OutsideAWideGap(b: Vector, a: Vector, v: Vector)
    requires !Before(a, b) && Cross(a, b) > 0.0
    requires !Before(b, v) || !Before(v, a)
    ensures Cross(a, v) >= 0.0
  {
    CrossIsAntisymmetric(a, b);
    Dependence(a, b, v);
    CrossIsAntisymmetric(a, v);
    CrossIsAntisymmetric(b, v);
    WideGapSectors(b, a);
    if Sector(v) == 0 {
      var ab, bv, av := Cross(a, b), Cross(b, v), Cross(a, v);
      assert bv <= 0.0;
      hide Cross;
      assert av * b.y == ab * v.y + bv * a.y;
      SignOfProduct(v.y, ab);
      SignOfProduct(-v.y, ab);
      SignOfProduct(-bv, a.y);
      SignOfProduct(av, b.y);
    } else if Sector(v) == 3 {
      SignOfProduct(-v.x, a.y);
    } else if Sector(v) == 1 {
      assert false;
    }
  }

  lemma WideGapSectors(b: Vector, a: Vector)
    requires !Before(a, b) && Cross(a, b) > 0.0
    ensures Sector(b) == 0 && Sector(a) in {2, 3}
  {
    CrossIsAntisymmetric(a, b);
    SignOfProduct(a.x, b.y);
    SignOfProduct(-a.x, b.y);
    SignOfProduct(b.x, a.y);
    SignOfProduct(-b.x, a.y);
  }

  /** The same for the gap across the cut at pi: everything between `first` and `last` lies clockwise of `first`. */
  lemma InsideANarrowSpan(first: Vector, last: Vector, v: Vector)
    requires Cross(first, last) > 0.0
    requires !Before(v, first) && !Before(last, v)
    ensures Cross(first, v) >= 0.0
  {
    CrossIsAntisymmetric(first, last);
    CrossIsAntisymmetric(first, v);
    CrossIsAntisymmetric(v, last);
    Dependence(first, v, last);
    SignOfProduct(first.x, v.y);
    SignOfProduct(first.x, last.y);
    SignOfProduct(v.x, first.y);
    SignOfProduct(-v.x, first.y);
    SignOfProduct(last.x, first.y);
    SignOfProduct(-last.x, first.y);
    if Sector(first) == 0 && Sector(v) == 2 && Sector(last) == 2 {
      var fv, vl, fl := Cross(first, v), Cross(v, last), Cross(first, last);
      hide Cross;
      assert fv * last.y == fl * v.y - vl * first.y;
      SignOfProduct(fl, v.y);
      SignOfProduct(vl, first.y);
      SignOfProduct(fv, last.y);
    }
  }
}
