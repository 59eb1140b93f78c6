/** Boxes from drags, and centering ratios from two boxes or two quadrilaterals. */
module Centering {
  import opened Prelude
  import opened Angles
  import opened Viewport
  import Quads

  datatype Box = Box(x: real, y: real, width: real, height: real)

  datatype Axes = Axes(horizontal: bool, vertical: bool)

  datatype Reading = Reading(horizontal: Option<real>, vertical: Option<real>)

  // ----- Drags

  function BoxFrom(a: Fraction, b: Fraction): Option<Box> {
    var box := Box(Min(a.x, b.x), Min(a.y, b.y), Abs(a.x - b.x), Abs(a.y - b.y));
    if box.width <= 0.0 || box.height <= 0.0 then None else Some(box)
  }

  /** A drag is read the same in either direction, and its box has the two dragged points as opposite corners. */
  lemma BoxFromSpansTheDrag(a: Fraction, b: Fraction)
    ensures BoxFrom(a, b) == BoxFrom(b, a)
    ensures BoxFrom(a, b).None? <==> a.x == b.x || a.y == b.y
    ensures BoxFrom(a, b).Some? ==>
              var box := BoxFrom(a, b).value;
              && box.width > 0.0 && box.height > 0.0
              && {box.x, box.x + box.width} == {a.x, b.x}
              && {box.y, box.y + box.height} == {a.y, b.y}
  {
  }

  // ----- The ratios, from four borders

  /** The null rules both forms share: nothing to measure, or a measured axis with no border to divide by. */
  function Ratios(axes: Axes, left: real, right: real, top: real, bottom: real): Option<Reading> {
    if !axes.horizontal && !axes.vertical then None
    else if axes.horizontal && left + right <= 0.0 then None
    else if axes.vertical && top + bottom <= 0.0 then None
    else Some(Reading(if axes.horizontal then Some(left / (left + right)) else None,
                      if axes.vertical then Some(top / (top + bottom)) else None))
  }

  function Scaled(k: real, a: real): real {
    k * a
  }

  lemma ScaledShare(a: real, b: real, k: real)
    requires k > 0.0
    ensures k * a + k * b <= 0.0 <==> a + b <= 0.0
    ensures a + b > 0.0 ==> k * a / (k * a + k * b) == a / (a + b)
  {
    assert k * a + k * b == k * (a + b);
    SignOfProduct(a + b, k);
    if a + b > 0.0 {
      var share := a / (a + b);
      assert share * (a + b) == a;
      assert k * a == share * (k * (a + b));
    }
  }

  /** Only the proportions of the borders matter, axis by axis. */
  lemma RatiosIgnoreScale(axes: Axes, left: real, right: real, top: real, bottom: real, across: real, down: real)
    requires across > 0.0 && down > 0.0
    ensures Ratios(axes, Scaled(across, left), Scaled(across, right), Scaled(down, top), Scaled(down, bottom))
            == Ratios(axes, left, right, top, bottom)
  {
    ScaledShare(left, right, across);
    ScaledShare(top, bottom, down);
  }

  /**
    What a reading says of four borders: nothing when no axis is measured or a measured one has no border, and
    otherwise, of each measured axis, the left border as a share of left and right, the top of top and bottom.
   */
  predicate ReadsAs(reading: Option<Reading>, axes: Axes, left: real, right: real, top: real, bottom: real) {
    match reading
    case None =>
      || (!axes.horizontal && !axes.vertical)
      || (axes.horizontal && left == 0.0 && right == 0.0)
      || (axes.vertical && top == 0.0 && bottom == 0.0)
    case Some(r) =>
      && (axes.horizontal || axes.vertical)
      && (if axes.horizontal then left + right > 0.0 && r.horizontal == Some(left / (left + right))
          else r.horizontal == None)
      && (if axes.vertical then top + bottom > 0.0 && r.vertical == Some(top / (top + bottom)) else r.vertical == None)
  }

  lemma RatiosReadTheBorders(axes: Axes, left: real, right: real, top: real, bottom: real)
    requires left >= 0.0 && right >= 0.0 && top >= 0.0 && bottom >= 0.0
    ensures ReadsAs(Ratios(axes, left, right, top, bottom), axes, left, right, top, bottom)
  {
  }

  // ----- The box form

  function CenteringFrom(box: Box, axes: Axes, card: Box): Option<Reading> {
    Ratios(axes,
           Max(0.0, box.x - card.x), Max(0.0, card.x + card.width - (box.x + box.width)),
           Max(0.0, box.y - card.y), Max(0.0, card.y + card.height - (box.y + box.height)))
  }

  /** A border is how far the box keeps inside that side of the card, or 0 where it reaches past it. */
  lemma BoxReading(box: Box, axes: Axes, card: Box, left: real, right: real, top: real, bottom: real)
    requires left == if box.x > card.x then box.x - card.x else 0.0
    requires right == if box.x + box.width < card.x + card.width then card.x + card.width - (box.x + box.width) else 0.0
    requires top == if box.y > card.y then box.y - card.y else 0.0
    requires bottom
             == if box.y + box.height < card.y + card.height then card.y + card.height - (box.y + box.height) else 0.0
    ensures ReadsAs(CenteringFrom(box, axes, card), axes, left, right, top, bottom)
  {
    RatiosReadTheBorders(axes, left, right, top, bottom);
    hide Ratios, ReadsAs;
  }

  // ----- The quadrilateral form

  lemma SquareRootIsUnique(a: real, b: real)
    requires a >= 0.0 && b >= 0.0 && a * a == b * b
    ensures a == b
  {
    assert (a - b) * (a + b) == 0.0;
    if a < b {
      SignOfProduct(b - a, a + b);
    } else if a > b {
      SignOfProduct(a - b, a + b);
    }
  }

  function Pixel(point: Fraction, image: Size): Vector {
    Vector(point.x * image.width, point.y * image.height)
  }

  function SideMidpoint(quad: Quads.Quad, side: nat, image: Size): Vector {
    var a, b := quad[side % 4], quad[(side + 1) % 4];
    Vector((a.x + b.x) / 2.0 * image.width, (a.y + b.y) / 2.0 * image.height)
  }

  function Minus(a: Vector, b: Vector): Vector {
    Vector(a.x - b.x, a.y - b.y)
  }

  /** Distance from `point` to the line through `a` and `b`, whose distance apart is `len`. */
  function LineDistance(point: Vector, a: Vector, b: Vector, len: real): real {
    if len == 0.0 then 0.0
    else Abs(Cross(Minus(b, a), Minus(point, a))) / len
  }

  function SideDistance(point: Vector, quad: Quads.Quad, side: nat, image: Size, len: real): real {
    LineDistance(point, Pixel(quad[side % 4], image), Pixel(quad[(side + 1) % 4], image), len)
  }

  /** The four side lengths of `quad` in pixels, which the source takes from `Math.hypot`. */
  datatype Lengths = Lengths(top: real, right: real, bottom: real, left: real)

  predicate IsLength(len: real, a: Vector, b: Vector) {
    IsHypot(len, b.x - a.x, b.y - a.y)
  }

  predicate AreLengths(lengths: Lengths, quad: Quads.Quad, image: Size) {
    && IsLength(lengths.top, Pixel(quad[0], image), Pixel(quad[1], image))
    && IsLength(lengths.right, Pixel(quad[1], image), Pixel(quad[2], image))
    && IsLength(lengths.bottom, Pixel(quad[2], image), Pixel(quad[3], image))
    && IsLength(lengths.left, Pixel(quad[3], image), Pixel(quad[0], image))
  }

  function Border(inner: Quads.Quad, outer: Quads.Quad, side: nat, image: Size, len: real): real {
    SideDistance(SideMidpoint(inner, side, image), outer, side, image, len)
  }

  function CenteringFromQuads(inner: Quads.Quad, outer: Quads.Quad, axes: Axes, image: Size,
                              lengths: Lengths): Option<Reading>
    requires AreLengths(lengths, outer, image)
  {
    Ratios(axes,
           Border(inner, outer, 3, image, lengths.left), Border(inner, outer, 1, image, lengths.right),
           Border(inner, outer, 0, image, lengths.top), Border(inner, outer, 2, image, lengths.bottom))
  }

  // ----- What is measured: perpendicular distances

  /** The point of the line through `a` and `b` that lies `share` of the way from `a` to `b`. */
  function Along(a: Vector, b: Vector, share: real): Vector {
    Vector(a.x + share * (b.x - a.x), a.y + share * (b.y - a.y))
  }

  /** `foot` is where the perpendicular from `point` meets the line through `a` and `b`. */
  predicate IsFoot(foot: Vector, point: Vector, a: Vector, b: Vector) {
    (point.x - foot.x) * (b.x - a.x) + (point.y - foot.y) * (b.y - a.y) == 0.0
  }

  /** How far `point` stands from the line through `a` and `b`; a side of no length counts as no border. */
  ghost predicate IsDistance(distance: real, point: Vector, a: Vector, b: Vector) {
    if a == b then distance == 0.0
    else
      && distance >= 0.0
      && exists share: real ::
        IsFoot(Along(a, b, share), point, a, b) && IsLength(distance, Along(a, b, share), point)
  }

  function Dot(u: Vector, w: Vector): real {
    u.x * w.x + u.y * w.y
  }

  lemma LagrangeIdentity(u: Vector, w: Vector)
    ensures Square(Cross(u, w)) + Square(Dot(u, w)) == LengthSquared(u) * LengthSquared(w)
  {
    var ac, bd, ad, bc := u.x * w.x, u.y * w.y, u.x * w.y, u.y * w.x;
    assert ac * bd == ad * bc;
    assert ac * ac == Square(u.x) * Square(w.x) && bd * bd == Square(u.y) * Square(w.y);
    assert ad * ad == Square(u.x) * Square(w.y) && bc * bc == Square(u.y) * Square(w.x);
  }

  /** For `w` perpendicular to `u`, the cross product is the product of the lengths. */
  lemma PerpendicularCross(u: Vector, w: Vector, len: real, distance: real)
    requires Dot(u, w) == 0.0 && len >= 0.0 && distance >= 0.0
    requires Square(len) == LengthSquared(u) && Square(distance) == LengthSquared(w)
    ensures Abs(Cross(u, w)) == distance * len
  {
    LagrangeIdentity(u, w);
    assert Square(0.0) == 0.0;
    ProductOfSquares(len, distance);
    SignOfProduct(distance, len);
    AbsIsTheRoot(Cross(u, w), distance * len);
  }

  lemma ProductOfSquares(a: real, b: real)
    ensures Square(b * a) == Square(a) * Square(b)
  {
  }

  lemma CrossAlong(point: Vector, a: Vector, b: Vector, share: real)
    ensures Cross(Minus(b, a), Minus(point, Along(a, b, share))) == Cross(Minus(b, a), Minus(point, a))
  {
    var u, v := Minus(b, a), Minus(point, a);
    assert Minus(point, Along(a, b, share)) == Vector(v.x - share * u.x, v.y - share * u.y);
    assert u.x * (v.y - share * u.y) == u.x * v.y - share * (u.x * u.y);
    assert u.y * (v.x - share * u.x) == u.y * v.x - share * (u.x * u.y);
  }

  /** The cross product over the side's length is the distance, and the only one. */
  lemma LineDistanceIsTheDistance(point: Vector, a: Vector, b: Vector, len: real, distance: real)
    requires IsLength(len, a, b) && IsDistance(distance, point, a, b)
    ensures LineDistance(point, a, b, len) == distance
  {
    if a == b {
      NoLength(len, a);
    } else {
      PositiveLength(len, a, b);
      var share: real :| IsFoot(Along(a, b, share), point, a, b) && IsLength(distance, Along(a, b, share), point);
      var u, w := Minus(b, a), Minus(point, Along(a, b, share));
      CrossAlong(point, a, b, share);
      assert Dot(u, w) == 0.0;
      LengthMeansSquares(len, a, b);
      LengthMeansSquares(distance, Along(a, b, share), point);
      PerpendicularCross(u, w, len, distance);
      CancelFactor(distance, len);
    }
  }

  lemma NoLength(len: real, a: Vector)
    requires IsLength(len, a, a)
    ensures len == 0.0
  {
    assert Square(len) == Square(0.0) && len >= 0.0;
    if len > 0.0 {
      SquareIsPositive(len);
    }
    hide Square;
  }

  lemma PositiveLength(len: real, a: Vector, b: Vector)
    requires IsLength(len, a, b) && a != b
    ensures len > 0.0 && len * len > 0.0
  {
    var x, y := b.x - a.x, b.y - a.y;
    assert Square(len) == Square(x) + Square(y) && len * len == Square(len) && len >= 0.0;
    assert Square(0.0) == 0.0;
    SquareOfNonZero(x);
    SquareOfNonZero(y);
    SquareOfNonZero(len);
    hide Square;
  }

  lemma AbsIsTheRoot(x: real, root: real)
    requires root >= 0.0 && Square(x) == Square(root)
    ensures Abs(x) == root
  {
    SquareRootIsUnique(Abs(x), root);
  }

  lemma LengthMeansSquares(len: real, a: Vector, b: Vector)
    ensures IsLength(len, a, b) <==> len >= 0.0 && Square(len) == LengthSquared(Minus(b, a))
  {
  }

  /** There is such a distance. */
  lemma DistancesExist(point: Vector, a: Vector, b: Vector, len: real)
    requires IsLength(len, a, b)
    ensures IsDistance(LineDistance(point, a, b, len), point, a, b)
  {
    if a == b {
      NoLength(len, a);
    } else {
      PositiveLength(len, a, b);
      LengthMeansSquares(len, a, b);
      var u, v := Minus(b, a), Minus(point, a);
      var distance := LineDistance(point, a, b, len);
      SquareOfNonZero(len);
      var share := Dot(u, v) / Square(len);
      assert share * Square(len) == Dot(u, v);
      FootOfThePerpendicular(point, a, b, share);
      CrossAlong(point, a, b, share);
      assert distance * len == Abs(Cross(u, v));
      DistanceFromCross(u, Minus(point, Along(a, b, share)), len, distance);
      LengthMeansSquares(distance, Along(a, b, share), point);
      hide LineDistance, Along, IsFoot, IsLength, Square, Minus, Cross, Dot, LengthSquared;
    }
  }

  lemma FootOfThePerpendicular(point: Vector, a: Vector, b: Vector, share: real)
    requires share * LengthSquared(Minus(b, a)) == Dot(Minus(b, a), Minus(point, a))
    ensures IsFoot(Along(a, b, share), point, a, b)
    ensures Dot(Minus(b, a), Minus(point, Along(a, b, share))) == 0.0
  {
    var u, v := Minus(b, a), Minus(point, a);
    assert Minus(point, Along(a, b, share)) == Vector(v.x - share * u.x, v.y - share * u.y);
    assert u.x * (v.x - share * u.x) == u.x * v.x - share * Square(u.x);
    assert u.y * (v.y - share * u.y) == u.y * v.y - share * Square(u.y);
  }

  lemma DistanceFromCross(u: Vector, w: Vector, len: real, distance: real)
    requires Dot(u, w) == 0.0 && len > 0.0 && Square(len) == LengthSquared(u)
    requires distance * len == Abs(Cross(u, w))
    ensures distance >= 0.0 && Square(distance) == LengthSquared(w)
  {
    SignOfProduct(distance, len);
    SquareIsPositive(len);
    LagrangeIdentity(u, w);
    assert Square(0.0) == 0.0;
    ProductOfSquares(len, distance);
    assert Square(Abs(Cross(u, w))) == Square(Cross(u, w));
    hide Square, LengthSquared, Cross, Dot;
    CancelFactor(Square(distance), Square(len));
    CancelFactor(LengthSquared(w), Square(len));
  }

  /** `v` is the pixel at the fractions `x` and `y`. */
  predicate IsAt(v: Vector, x: real, y: real, image: Size) {
    v.x == x * image.width && v.y == y * image.height
  }

  /**
    Any corners at all: the borders that are read are the distances, in pixels, of the middles of the inner
    sides from the lines of the outer ones, the left of left and right, the top of top and bottom.
   */
  lemma ReadingIsOfDistances(inner: Quads.Quad, outer: Quads.Quad, axes: Axes, image: Size, lengths: Lengths,
                             corners: seq<Vector>, middles: seq<Vector>, distances: seq<real>)
    requires AreLengths(lengths, outer, image)
    requires |corners| == |middles| == |distances| == 4
    requires forall i :: 0 <= i < 4 ==> IsAt(corners[i], outer[i].x, outer[i].y, image)
    requires forall i :: 0 <= i < 4 ==>
               IsAt(middles[i], (inner[i].x + inner[(i + 1) % 4].x) / 2.0, (inner[i].y + inner[(i + 1) % 4].y) / 2.0,
                    image)
    requires forall i :: 0 <= i < 4 ==> IsDistance(distances[i], middles[i], corners[i], corners[(i + 1) % 4])
    ensures ReadsAs(CenteringFromQuads(inner, outer, axes, image, lengths), axes,
                    distances[3], distances[1], distances[0], distances[2])
  {
    assert distances[0] >= 0.0 && distances[1] >= 0.0 && distances[2] >= 0.0 && distances[3] >= 0.0;
    assert (0 + 1) % 4 == 1 && (1 + 1) % 4 == 2 && (2 + 1) % 4 == 3 && (3 + 1) % 4 == 0;
    BorderIsTheDistance(inner, outer, 0, image, lengths.top, corners, middles, distances);
    BorderIsTheDistance(inner, outer, 1, image, lengths.right, corners, middles, distances);
    BorderIsTheDistance(inner, outer, 2, image, lengths.bottom, corners, middles, distances);
    BorderIsTheDistance(inner, outer, 3, image, lengths.left, corners, middles, distances);
    RatiosReadTheBorders(axes, distances[3], distances[1], distances[0], distances[2]);
    hide Border, ReadsAs, Ratios, IsDistance, IsAt, IsLength, Pixel;
  }

  lemma BorderIsTheDistance(inner: Quads.Quad, outer: Quads.Quad, side: nat, image: Size, len: real,
                            corners: seq<Vector>, middles: seq<Vector>, distances: seq<real>)
    requires side < 4 && |corners| == |middles| == |distances| == 4
    requires forall i :: 0 <= i < 4 ==> IsAt(corners[i], outer[i].x, outer[i].y, image)
    requires forall i :: 0 <= i < 4 ==>
               IsAt(middles[i], (inner[i].x + inner[(i + 1) % 4].x) / 2.0, (inner[i].y + inner[(i + 1) % 4].y) / 2.0,
                    image)
    requires forall i :: 0 <= i < 4 ==> IsDistance(distances[i], middles[i], corners[i], corners[(i + 1) % 4])
    requires IsLength(len, Pixel(outer[side % 4], image), Pixel(outer[(side + 1) % 4], image))
    ensures Border(inner, outer, side, image, len) == distances[side]
  {
    var next := (side + 1) % 4;
    assert side % 4 == side;
    assert IsDistance(distances[side], middles[side], corners[side], corners[next]);
    AtIsPixel(corners[side], outer[side], image);
    AtIsPixel(corners[next], outer[next], image);
    MiddleIsSideMidpoint(middles[side], inner, side, image);
    hide IsAt, Pixel, SideMidpoint, IsDistance, LineDistance, IsLength;
    LineDistanceIsTheDistance(middles[side], corners[side], corners[next], len, distances[side]);
  }

  lemma AtIsPixel(v: Vector, point: Fraction, image: Size)
    requires IsAt(v, point.x, point.y, image)
    ensures v == Pixel(point, image)
  {
  }

  lemma MiddleIsSideMidpoint(v: Vector, inner: Quads.Quad, side: nat, image: Size)
    requires side < 4
    requires IsAt(v, (inner[side].x + inner[(side + 1) % 4].x) / 2.0, (inner[side].y + inner[(side + 1) % 4].y) / 2.0,
                  image)
    ensures v == SideMidpoint(inner, side, image)
  {
    assert side % 4 == side;
  }

  // ----- Rotating, moving and scaling the card

  /** A turn with a uniform scale, then a shift, in pixel space. */
  datatype Motion = Motion(a: real, b: real, dx: real, dy: real)

  function Turned(m: Motion, v: Vector): Vector {
    Vector(m.a * v.x - m.b * v.y, m.b * v.x + m.a * v.y)
  }

  function Moved(m: Motion, v: Vector): Vector {
    Vector(m.a * v.x - m.b * v.y + m.dx, m.b * v.x + m.a * v.y + m.dy)
  }

  /** The square of the scale factor. */
  function Norm(m: Motion): real {
    m.a * m.a + m.b * m.b
  }

  predicate QuadMoved(m: Motion, before: Quads.Quad, after: Quads.Quad, image: Size) {
    && Pixel(after[0], image) == Moved(m, Pixel(before[0], image))
    && Pixel(after[1], image) == Moved(m, Pixel(before[1], image))
    && Pixel(after[2], image) == Moved(m, Pixel(before[2], image))
    && Pixel(after[3], image) == Moved(m, Pixel(before[3], image))
  }

  function LengthSquared(v: Vector): real {
    Square(v.x) + Square(v.y)
  }

  lemma MovedDifference(m: Motion, a: Vector, b: Vector)
    ensures Minus(Moved(m, b), Moved(m, a)) == Turned(m, Minus(b, a))
  {
  }

  /** Turning multiplies every cross product and every squared length by the same number. */
  lemma TurnedCross(m: Motion, u: Vector, v: Vector)
    ensures Cross(Turned(m, u), Turned(m, v)) == Norm(m) * Cross(u, v)
  {
    var c, d, n := m.a * v.x - m.b * v.y, m.b * v.x + m.a * v.y, Norm(m);
    assert m.a * d - m.b * c == n * v.y && m.b * d + m.a * c == n * v.x by { TurnBack(m.a, m.b, v.x, v.y); }
    Regroup(m.a, m.b, c, d, u.x, u.y);
    CommonFactor(n, u.x, u.y, v.x, v.y);
  }

  lemma TurnBack(a: real, b: real, x: real, y: real)
    ensures a * (b * x + a * y) - b * (a * x - b * y) == (a * a + b * b) * y
    ensures b * (b * x + a * y) + a * (a * x - b * y) == (a * a + b * b) * x
  {
  }

  lemma Regroup(a: real, b: real, c: real, d: real, x: real, y: real)
    ensures (a * x - b * y) * d - (b * x + a * y) * c == x * (a * d - b * c) - y * (b * d + a * c)
  {
  }

  lemma CommonFactor(n: real, x: real, y: real, z: real, w: real)
    ensures x * (n * w) - y * (n * z) == n * (x * w - y * z)
  {
  }

  lemma TurnedLength(m: Motion, u: Vector)
    ensures LengthSquared(Turned(m, u)) == Norm(m) * LengthSquared(u)
  {
    var p, q := u.x * u.x, u.y * u.y;
    assert LengthSquared(Turned(m, u)) == (m.a * m.a) * p + (m.b * m.b) * q + (m.b * m.b) * p + (m.a * m.a) * q;
  }

  lemma MovedLength(m: Motion, a: Vector, b: Vector, len: real, len': real, sigma: real)
    requires IsLength(len, a, b) && IsLength(len', Moved(m, a), Moved(m, b))
    requires sigma > 0.0 && Square(sigma) == Norm(m)
    ensures len' == sigma * len
  {
    MovedSquares(m, a, b, len, len');
    assert Square(sigma * len) == Square(sigma) * Square(len);
    SignOfProduct(sigma, len);
    SquareRootIsUnique(len', sigma * len);
  }

  lemma MovedSquares(m: Motion, a: Vector, b: Vector, len: real, len': real)
    requires IsLength(len, a, b) && IsLength(len', Moved(m, a), Moved(m, b))
    ensures Square(len') == Norm(m) * Square(len)
  {
    MovedDifference(m, a, b);
    TurnedLength(m, Minus(b, a));
    assert Square(len) == LengthSquared(Minus(b, a));
    assert Square(len') == LengthSquared(Minus(Moved(m, b), Moved(m, a)));
  }

  /** A side with a length measures the scale factor. */
  lemma ScaleFromSide(m: Motion, a: Vector, b: Vector, len: real, len': real) returns (sigma: real)
    requires IsLength(len, a, b) && IsLength(len', Moved(m, a), Moved(m, b))
    requires len > 0.0 && Norm(m) > 0.0
    ensures sigma > 0.0 && Square(sigma) == Norm(m)
  {
    MovedSquares(m, a, b, len, len');
    assert Square(0.0) == 0.0 && len' >= 0.0;
    hide Norm, Square, IsHypot;
    SquareIsPositive(len);
    SignOfProduct(Norm(m), Square(len));
    assert len' > 0.0;
    sigma := len' / len;
    assert sigma * len == len';
    ProductOfSquares(len, sigma);
    SignOfProduct(sigma, len);
    CancelFactor(Square(sigma), Square(len));
    CancelFactor(Norm(m), Square(len));
  }

  lemma MovedLineDistance(m: Motion, point: Vector, a: Vector, b: Vector, len: real, len': real, sigma: real)
    requires IsLength(len, a, b) && len' == sigma * len
    requires sigma > 0.0 && Square(sigma) == Norm(m)
    ensures LineDistance(Moved(m, point), Moved(m, a), Moved(m, b), len')
            == Scaled(sigma, LineDistance(point, a, b, len))
  {
    if len != 0.0 {
      MovedDifference(m, a, b);
      MovedDifference(m, a, point);
      TurnedCross(m, Minus(b, a), Minus(point, a));
      DividedBySigma(Cross(Minus(b, a), Minus(point, a)), len, sigma);
      hide Cross, Minus, Moved, Turned, Square, Norm, Abs;
    }
  }

  lemma DividedBySigma(cross: real, len: real, sigma: real)
    requires sigma > 0.0 && len > 0.0
    ensures sigma * len != 0.0
    ensures Abs(Square(sigma) * cross) / (sigma * len) == Scaled(sigma, Abs(cross) / len)
  {
    SignOfProduct(sigma, len);
    SignOfProduct(sigma, sigma);
    SignOfProduct(cross, Square(sigma));
    var distance := Abs(cross) / len;
    assert distance * len == Abs(cross);
    assert Abs(Square(sigma) * cross) == Square(sigma) * Abs(cross);
    assert Square(sigma) * Abs(cross) == (sigma * distance) * (sigma * len);
    CancelFactor(sigma * distance, sigma * len);
  }

  function Middle(a: Vector, b: Vector): Vector {
    Vector((a.x + b.x) / 2.0, (a.y + b.y) / 2.0)
  }

  lemma MidpointOfPixels(quad: Quads.Quad, side: nat, image: Size)
    ensures SideMidpoint(quad, side, image) == Middle(Pixel(quad[side % 4], image), Pixel(quad[(side + 1) % 4], image))
  {
  }

  lemma MovedMiddle(m: Motion, a: Vector, b: Vector)
    ensures Middle(Moved(m, a), Moved(m, b)) == Moved(m, Middle(a, b))
  {
    var middle := Middle(a, b);
    TurnedSum(m.a, m.b, a, b, middle);
    TurnedSum(m.b, m.a, a, b, middle);
    hide Middle;
    var moved, expected := Middle(Moved(m, a), Moved(m, b)), Moved(m, middle);
    assert moved.x == expected.x && moved.y == expected.y by { MiddleIsHalf(Moved(m, a), Moved(m, b)); }
  }

  lemma MiddleIsHalf(a: Vector, b: Vector)
    ensures 2.0 * Middle(a, b).x == a.x + b.x && 2.0 * Middle(a, b).y == a.y + b.y
  {
  }

  lemma TurnedSum(k: real, l: real, a: Vector, b: Vector, middle: Vector)
    requires a.x + b.x == 2.0 * middle.x && a.y + b.y == 2.0 * middle.y
    ensures k * a.x + k * b.x == 2.0 * (k * middle.x) && l * a.y + l * b.y == 2.0 * (l * middle.y)
  {
    DoubleOf(k, a.x, b.x, middle.x);
    DoubleOf(l, a.y, b.y, middle.y);
  }

  lemma DoubleOf(k: real, p: real, q: real, half: real)
    requires p + q == 2.0 * half
    ensures k * p + k * q == 2.0 * (k * half)
  {
    assert k * p + k * q == k * (p + q);
  }

  lemma MovedMidpoint(m: Motion, before: Quads.Quad, after: Quads.Quad, side: nat, image: Size)
    requires side < 4 && QuadMoved(m, before, after, image)
    ensures SideMidpoint(after, side, image) == Moved(m, SideMidpoint(before, side, image))
  {
    hide Pixel, Moved, SideMidpoint, Middle;
    MidpointOfPixels(before, side, image);
    MidpointOfPixels(after, side, image);
    MovedMiddle(m, Pixel(before[side % 4], image), Pixel(before[(side + 1) % 4], image));
  }

  /** Every border of the moved card is the old one times the scale factor. */
  lemma MovedBorder(m: Motion, inner: Quads.Quad, outer: Quads.Quad, inner': Quads.Quad, outer': Quads.Quad,
                    side: nat, image: Size, len: real, len': real, sigma: real)
    requires side < 4 && QuadMoved(m, inner, inner', image) && QuadMoved(m, outer, outer', image)
    requires sigma > 0.0 && Square(sigma) == Norm(m)
    requires IsLength(len, Pixel(outer[side % 4], image), Pixel(outer[(side + 1) % 4], image))
    requires IsLength(len', Pixel(outer'[side % 4], image), Pixel(outer'[(side + 1) % 4], image))
    ensures Border(inner', outer', side, image, len') == Scaled(sigma, Border(inner, outer, side, image, len))
  {
    hide Pixel, Moved, SideMidpoint, LineDistance, IsLength, Square, Norm, Scaled;
    var a, b := Pixel(outer[side % 4], image), Pixel(outer[(side + 1) % 4], image);
    MovedMidpoint(m, inner, inner', side, image);
    MovedLength(m, a, b, len, len', sigma);
    MovedLineDistance(m, SideMidpoint(inner, side, image), a, b, len, len', sigma);
  }

  /** A degenerate quadrilateral has no sides, so no borders. */
  lemma NoLengthNoBorder(m: Motion, inner: Quads.Quad, inner': Quads.Quad, outer: Quads.Quad, outer': Quads.Quad,
                         side: nat, image: Size, len': real)
    requires side < 4 && QuadMoved(m, outer, outer', image)
    requires IsLength(0.0, Pixel(outer[side % 4], image), Pixel(outer[(side + 1) % 4], image))
    requires IsLength(len', Pixel(outer'[side % 4], image), Pixel(outer'[(side + 1) % 4], image))
    ensures Border(inner, outer, side, image, 0.0) == 0.0 == Border(inner', outer', side, image, len')
  {
    hide Pixel, Moved, SideMidpoint, Norm, IsLength;
    MovedSquares(m, Pixel(outer[side % 4], image), Pixel(outer[(side + 1) % 4], image), 0.0, len');
    assert Square(len') == 0.0;
    SignOfProduct(len', len');
    SignOfProduct(-len', len');
  }

  /**
    Turning, shifting and uniformly scaling the card and its frame together, in pixels, changes no reading:
    neither its ratios nor whether there is one.
   */
  lemma CenteringIgnoresTheTilt(inner: Quads.Quad, outer: Quads.Quad, inner': Quads.Quad, outer': Quads.Quad,
                                axes: Axes, image: Size, m: Motion, lengths: Lengths, lengths': Lengths)
    requires Norm(m) > 0.0 && QuadMoved(m, inner, inner', image) && QuadMoved(m, outer, outer', image)
    requires AreLengths(lengths, outer, image) && AreLengths(lengths', outer', image)
    ensures CenteringFromQuads(inner', outer', axes, image, lengths')
            == CenteringFromQuads(inner, outer, axes, image, lengths)
  {
    hide Pixel, Moved, Border, Norm, Square, Ratios, IsHypot, Scaled;
    var p0, p1 := Pixel(outer[0], image), Pixel(outer[1], image);
    var p2, p3 := Pixel(outer[2], image), Pixel(outer[3], image);
    if lengths == Lengths(0.0, 0.0, 0.0, 0.0) {
      NoLengthNoBorder(m, inner, inner', outer, outer', 0, image, lengths'.top);
      NoLengthNoBorder(m, inner, inner', outer, outer', 1, image, lengths'.right);
      NoLengthNoBorder(m, inner, inner', outer, outer', 2, image, lengths'.bottom);
      NoLengthNoBorder(m, inner, inner', outer, outer', 3, image, lengths'.left);
    } else {
      LengthsAreNonNegative(lengths, outer, image);
      var sigma;
      if lengths.top > 0.0 {
        sigma := ScaleFromSide(m, p0, p1, lengths.top, lengths'.top);
      } else if lengths.right > 0.0 {
        sigma := ScaleFromSide(m, p1, p2, lengths.right, lengths'.right);
      } else if lengths.bottom > 0.0 {
        sigma := ScaleFromSide(m, p2, p3, lengths.bottom, lengths'.bottom);
      } else {
        sigma := ScaleFromSide(m, p3, p0, lengths.left, lengths'.left);
      }
      MovedBorder(m, inner, outer, inner', outer', 0, image, lengths.top, lengths'.top, sigma);
      MovedBorder(m, inner, outer, inner', outer', 1, image, lengths.right, lengths'.right, sigma);
      MovedBorder(m, inner, outer, inner', outer', 2, image, lengths.bottom, lengths'.bottom, sigma);
      MovedBorder(m, inner, outer, inner', outer', 3, image, lengths.left, lengths'.left, sigma);
      RatiosIgnoreScale(axes, Border(inner, outer, 3, image, lengths.left),
                        Border(inner, outer, 1, image, lengths.right), Border(inner, outer, 0, image, lengths.top),
                        Border(inner, outer, 2, image, lengths.bottom),
                        sigma, sigma);
    }
  }

  lemma LengthsAreNonNegative(lengths: Lengths, quad: Quads.Quad, image: Size)
    requires AreLengths(lengths, quad, image)
    ensures lengths.top >= 0.0 && lengths.right >= 0.0 && lengths.bottom >= 0.0 && lengths.left >= 0.0
  {
  }

  // ----- The quadrilateral form generalises the box form

  /** A box as the quadrilateral of its corners, clockwise from the top left. */
  function QuadOf(box: Box): Quads.Quad {
    [Fraction(box.x, box.y), Fraction(box.x + box.width, box.y),
     Fraction(box.x + box.width, box.y + box.height), Fraction(box.x, box.y + box.height)]
  }

  lemma HorizontalLineDistance(point: Vector, a: Vector, b: Vector, len: real)
    requires a.y == b.y && a.x != b.x && IsLength(len, a, b)
    ensures LineDistance(point, a, b, len) == Abs(point.y - a.y)
  {
    SquareRootIsUnique(len, Abs(b.x - a.x));
    DistanceFromProduct(b.x - a.x, point.y - a.y);
  }

  lemma VerticalLineDistance(point: Vector, a: Vector, b: Vector, len: real)
    requires a.x == b.x && a.y != b.y && IsLength(len, a, b)
    ensures LineDistance(point, a, b, len) == Abs(point.x - a.x)
  {
    SquareRootIsUnique(len, Abs(b.y - a.y));
    DistanceFromProduct(b.y - a.y, point.x - a.x);
  }

  lemma DistanceFromProduct(side: real, distance: real)
    requires side != 0.0
    ensures Abs(side * distance) / Abs(side) == Abs(distance)
    ensures Abs(-(side * distance)) / Abs(side) == Abs(distance)
  {
    SignOfProduct(distance, side);
    SignOfProduct(-distance, side);
    assert Abs(side * distance) == Abs(distance) * Abs(side);
    CancelFactor(Abs(distance), Abs(side));
  }

  /** The signed borders of a box inside a card; negative where the box strays outside. */
  function Gaps(box: Box, card: Box): (gaps: (real, real, real, real)) {
    (box.x - card.x, card.x + card.width - (box.x + box.width),
     box.y - card.y, card.y + card.height - (box.y + box.height))
  }

  lemma AbsOfScaled(a: real, k: real)
    requires k > 0.0
    ensures Abs(Scaled(k, a)) == Scaled(k, Abs(a)) == Abs(Scaled(k, -a))
  {
    SignOfProduct(a, k);
    SignOfProduct(-a, k);
  }

  /** The signed distances of the middles of the inner sides from the card's own sides. */
  function MiddleGaps(inner: Quads.Quad, card: Box): (gaps: (real, real, real, real)) {
    ((inner[3].x + inner[0].x) / 2.0 - card.x, card.x + card.width - (inner[1].x + inner[2].x) / 2.0,
     (inner[0].y + inner[1].y) / 2.0 - card.y, card.y + card.height - (inner[2].y + inner[3].y) / 2.0)
  }

  lemma StraightBorders(inner: Quads.Quad, card: Box, image: Size, lengths: Lengths)
    requires Positive(image) && card.width > 0.0 && card.height > 0.0
    requires AreLengths(lengths, QuadOf(card), image)
    ensures var (left, right, top, bottom) := MiddleGaps(inner, card);
            && Border(inner, QuadOf(card), 3, image, lengths.left) == Scaled(image.width, Abs(left))
            && Border(inner, QuadOf(card), 1, image, lengths.right) == Scaled(image.width, Abs(right))
            && Border(inner, QuadOf(card), 0, image, lengths.top) == Scaled(image.height, Abs(top))
            && Border(inner, QuadOf(card), 2, image, lengths.bottom) == Scaled(image.height, Abs(bottom))
  {
    hide Scaled, Border, AreLengths, Abs;
    StraightSides(inner, card, image, lengths);
    var (left, right, top, bottom) := MiddleGaps(inner, card);
    AbsOfScaled(left, image.width);
    AbsOfScaled(right, image.width);
    AbsOfScaled(top, image.height);
    AbsOfScaled(bottom, image.height);
  }

  lemma StraightSides(inner: Quads.Quad, card: Box, image: Size, lengths: Lengths)
    requires Positive(image) && card.width > 0.0 && card.height > 0.0
    requires AreLengths(lengths, QuadOf(card), image)
    ensures var (left, right, top, bottom) := MiddleGaps(inner, card);
            && Border(inner, QuadOf(card), 3, image, lengths.left) == Abs(Scaled(image.width, left))
            && Border(inner, QuadOf(card), 1, image, lengths.right) == Abs(Scaled(image.width, -right))
            && Border(inner, QuadOf(card), 0, image, lengths.top) == Abs(Scaled(image.height, top))
            && Border(inner, QuadOf(card), 2, image, lengths.bottom) == Abs(Scaled(image.height, -bottom))
  {
    var outer := QuadOf(card);
    SignOfProduct(card.width, image.width);
    SignOfProduct(card.height, image.height);
    hide LineDistance, IsHypot;
    HorizontalLineDistance(SideMidpoint(inner, 0, image), Pixel(outer[0], image), Pixel(outer[1], image), lengths.top);
    HorizontalLineDistance(SideMidpoint(inner, 2, image), Pixel(outer[2], image), Pixel(outer[3], image),
                           lengths.bottom);
    VerticalLineDistance(SideMidpoint(inner, 1, image), Pixel(outer[1], image), Pixel(outer[2], image), lengths.right);
    VerticalLineDistance(SideMidpoint(inner, 3, image), Pixel(outer[3], image), Pixel(outer[0], image), lengths.left);
  }

  lemma GapsOfABox(box: Box, card: Box)
    ensures MiddleGaps(QuadOf(box), card) == Gaps(box, card)
  {
  }

  /**
    Any four inner corners on a straight card: each border is the distance of the middle of an inner side from
    the card's own side, in shares of the image.
   */
  lemma StraightCardReading(inner: Quads.Quad, outer: Quads.Quad, card: Box, axes: Axes, image: Size,
                            lengths: Lengths, left: real, right: real, top: real, bottom: real)
    requires Positive(image) && card.width > 0.0 && card.height > 0.0
    requires outer == [Fraction(card.x, card.y), Fraction(card.x + card.width, card.y),
                       Fraction(card.x + card.width, card.y + card.height), Fraction(card.x, card.y + card.height)]
    requires AreLengths(lengths, outer, image)
    requires left == Abs((inner[3].x + inner[0].x) / 2.0 - card.x)
    requires right == Abs(card.x + card.width - (inner[1].x + inner[2].x) / 2.0)
    requires top == Abs((inner[0].y + inner[1].y) / 2.0 - card.y)
    requires bottom == Abs(card.y + card.height - (inner[2].y + inner[3].y) / 2.0)
    ensures ReadsAs(CenteringFromQuads(inner, outer, axes, image, lengths), axes, left, right, top, bottom)
  {
    assert outer == QuadOf(card);
    StraightBorders(inner, card, image, lengths);
    RatiosReadTheBorders(axes, left, right, top, bottom);
    hide QuadOf, Scaled, Border, AreLengths, Abs, Ratios, ReadsAs;
    RatiosIgnoreScale(axes, left, right, top, bottom, image.width, image.height);
  }

  /** The same inside the card, where no sign is lost, and however the card and the clicks are turned together. */
  lemma TiltedCardReading(inner: Quads.Quad, outer: Quads.Quad, inner': Quads.Quad, outer': Quads.Quad, card: Box,
                          axes: Axes, image: Size, m: Motion, straight: Lengths, tilted: Lengths)
    requires Positive(image) && card.width > 0.0 && card.height > 0.0
    requires outer == [Fraction(card.x, card.y), Fraction(card.x + card.width, card.y),
                       Fraction(card.x + card.width, card.y + card.height), Fraction(card.x, card.y + card.height)]
    requires forall i :: 0 <= i < 4 ==> card.x <= inner[i].x <= card.x + card.width
    requires forall i :: 0 <= i < 4 ==> card.y <= inner[i].y <= card.y + card.height
    requires Norm(m) > 0.0 && QuadMoved(m, inner, inner', image) && QuadMoved(m, outer, outer', image)
    requires AreLengths(straight, outer, image) && AreLengths(tilted, outer', image)
    ensures ReadsAs(CenteringFromQuads(inner', outer', axes, image, tilted), axes,
                    (inner[3].x + inner[0].x) / 2.0 - card.x, card.x + card.width - (inner[1].x + inner[2].x) / 2.0,
                    (inner[0].y + inner[1].y) / 2.0 - card.y, card.y + card.height - (inner[2].y + inner[3].y) / 2.0)
  {
    var left, right := (inner[3].x + inner[0].x) / 2.0 - card.x, card.x + card.width - (inner[1].x + inner[2].x) / 2.0;
    var top, bottom := (inner[0].y + inner[1].y) / 2.0 - card.y, card.y + card.height - (inner[2].y + inner[3].y) / 2.0;
    assert left >= 0.0 && right >= 0.0 && top >= 0.0 && bottom >= 0.0;
    hide CenteringFromQuads, AreLengths, QuadMoved, Norm, ReadsAs;
    StraightCardReading(inner, outer, card, axes, image, straight, left, right, top, bottom);
    CenteringIgnoresTheTilt(inner, outer, inner', outer', axes, image, m, straight, tilted);
  }

  /** Along each measured axis the box keeps inside the card. */
  predicate InsideOn(axes: Axes, box: Box, card: Box) {
    var (left, right, top, bottom) := Gaps(box, card);
    (axes.horizontal ==> left >= 0.0 && right >= 0.0) && (axes.vertical ==> top >= 0.0 && bottom >= 0.0)
  }

  /** Some measured axis has no gap at either end, which makes both forms answer null. */
  predicate Flush(axes: Axes, box: Box, card: Box) {
    var (left, right, top, bottom) := Gaps(box, card);
    (axes.horizontal && left == 0.0 && right == 0.0) || (axes.vertical && top == 0.0 && bottom == 0.0)
  }

  /**
    On straight rectangles the quadrilateral form and the box form agree exactly when the inner box keeps
    inside the card along every measured axis, or both have nothing to divide by.
   */
  lemma StraightQuadsAgreeWithBoxesIff(box: Box, card: Box, axes: Axes, image: Size, lengths: Lengths)
    requires Positive(image) && card.width > 0.0 && card.height > 0.0
    requires AreLengths(lengths, QuadOf(card), image)
    ensures CenteringFromQuads(QuadOf(box), QuadOf(card), axes, image, lengths) == CenteringFrom(box, axes, card)
            <==> InsideOn(axes, box, card) || Flush(axes, box, card)
  {
    hide Scaled, Border, AreLengths, Abs, Max, Ratios;
    GapsOfABox(box, card);
    var (left, right, top, bottom) := Gaps(box, card);
    StraightBorders(QuadOf(box), card, image, lengths);
    RatiosIgnoreScale(axes, Abs(left), Abs(right), Abs(top), Abs(bottom), image.width, image.height);
    UnsignedAgreesIff(axes, left, right, top, bottom);
  }

  lemma UnsignedAgreesIff(axes: Axes, left: real, right: real, top: real, bottom: real)
    ensures Ratios(axes, Abs(left), Abs(right), Abs(top), Abs(bottom))
            == Ratios(axes, Max(0.0, left), Max(0.0, right), Max(0.0, top), Max(0.0, bottom))
            <==>
              || ((axes.horizontal ==> left >= 0.0 && right >= 0.0) && (axes.vertical ==> top >= 0.0 && bottom >= 0.0))
              || (axes.horizontal && left == 0.0 && right == 0.0)
              || (axes.vertical && top == 0.0 && bottom == 0.0)
  {
    UnsignedShare(left, right);
    UnsignedShare(top, bottom);
  }

  /** A share of unsigned borders is the share of clamped ones only if neither border is negative. */
  lemma UnsignedShare(a: real, b: real)
    ensures Abs(a) + Abs(b) > 0.0 && Max(0.0, a) + Max(0.0, b) > 0.0 ==>
              (Abs(a) / (Abs(a) + Abs(b)) == Max(0.0, a) / (Max(0.0, a) + Max(0.0, b)) <==> a >= 0.0 && b >= 0.0)
  {
    if Abs(a) + Abs(b) > 0.0 && Max(0.0, a) + Max(0.0, b) > 0.0 {
      if a < 0.0 {
        assert -a / (-a + b) * (-a + b) == -a;
        assert 0.0 / b == 0.0;
      } else if b < 0.0 {
        assert a / (a - b) * (a - b) == a;
        assert a / a == 1.0;
      }
    }
  }

  /** A straight card read by its boxes, then tilted and read by its corners: the same reading. */
  lemma TiltedCardReadsLikeAStraightOne(box: Box, card: Box, inner: Quads.Quad, outer: Quads.Quad,
                                        axes: Axes, image: Size, m: Motion, straight: Lengths, tilted: Lengths)
    requires Positive(image) && card.width > 0.0 && card.height > 0.0 && InsideOn(axes, box, card)
    requires Norm(m) > 0.0 && QuadMoved(m, QuadOf(box), inner, image) && QuadMoved(m, QuadOf(card), outer, image)
    requires AreLengths(straight, QuadOf(card), image) && AreLengths(tilted, outer, image)
    ensures CenteringFromQuads(inner, outer, axes, image, tilted) == CenteringFrom(box, axes, card)
  {
    hide AreLengths, CenteringFrom, CenteringFromQuads, QuadMoved, InsideOn, Flush, Norm;
    CenteringIgnoresTheTilt(QuadOf(box), QuadOf(card), inner, outer, axes, image, m, straight, tilted);
    StraightQuadsAgreeWithBoxesIff(box, card, axes, image, straight);
  }
}
