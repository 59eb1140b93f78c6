/**
  Centering as the tool reads it: eight clicks, put in order by `orderedQuad`, then measured. The order
  starts each quadrilateral afresh at the corner nearest the origin, so a card turned far enough is read
  from another corner.
 */
module TiltedCards {
  import opened Prelude
  import opened Angles
  import opened Viewport
  import opened Quads
  import opened Centering

  // ----- Parallelograms and the order of their corners

  function Edge(q: Quad, i: nat, j: nat): Vector
    requires i < 4 && j < 4
  {
    Vector(q[j].x - q[i].x, q[j].y - q[i].y)
  }

  /** A rectangle turned, shifted and scaled, seen in fractions: clockwise, opposite edges equal. */
  predicate IsParallelogram(q: Quad) {
    && q[0].x + q[2].x == q[1].x + q[3].x && q[0].y + q[2].y == q[1].y + q[3].y
    && Cross(Edge(q, 0, 1), Edge(q, 0, 3)) > 0.0
  }

  function Spoke(q: Quad, i: nat): Vector
    requires i < 4
  {
    From(Centroid(q), q[i])
  }

  predicate Opposite(a: Vector, b: Vector) {
    a.x == -b.x && a.y == -b.y
  }

  /** The corners stand opposite each other about the centroid, and turn clockwise. */
  lemma SpokesOfAParallelogram(q: Quad)
    requires IsParallelogram(q)
    ensures Opposite(Spoke(q, 2), Spoke(q, 0)) && Opposite(Spoke(q, 3), Spoke(q, 1))
    ensures Cross(Spoke(q, 0), Spoke(q, 1)) > 0.0
  {
    CentroidOfFour(q);
    var u, v := Edge(q, 0, 1), Edge(q, 0, 3);
    assert Spoke(q, 0) == Vector(-(u.x + v.x) / 2.0, -(u.y + v.y) / 2.0);
    assert Spoke(q, 1) == Vector((u.x - v.x) / 2.0, (u.y - v.y) / 2.0);
    HalfDiagonals(u, v);
  }

  lemma HalfDiagonals(u: Vector, v: Vector)
    ensures Cross(Vector(-(u.x + v.x) / 2.0, -(u.y + v.y) / 2.0), Vector((u.x - v.x) / 2.0, (u.y - v.y) / 2.0))
            == Cross(u, v) / 2.0
  {
  }

  lemma OppositeSectors(a: Vector, b: Vector)
    requires Opposite(a, b) && a != ZERO
    ensures Sector(a) < 2 <==> Sector(b) >= 2
  {
  }

  lemma CrossOfOpposites(a: Vector, b: Vector, a': Vector, b': Vector)
    requires Opposite(a', a) && Opposite(b', b)
    ensures Cross(b, a') == Cross(a, b) && Cross(a', b') == Cross(a, b) && Cross(b', a) == Cross(a, b)
  {
  }

  /** Turning clockwise within a half-plane is coming later in the order. */
  lemma ClockwiseIsLater(a: Vector, b: Vector)
    requires Cross(a, b) > 0.0 && (Sector(a) < 2 <==> Sector(b) < 2)
    ensures Before(a, b)
  {
    CrossIsAntisymmetric(a, b);
    SignOfProduct(a.x, b.y);
    SignOfProduct(-a.y, b.x);
    SignOfProduct(b.x, a.y);
  }

  lemma SpokesInTurn(q: Quad, k: nat)
    requires IsParallelogram(q) && k < 4
    ensures var a, b := Spoke(q, k), Spoke(q, Origin(k, 1, 4));
            var c, d := Spoke(q, Origin(k, 2, 4)), Spoke(q, Origin(k, 3, 4));
            && Opposite(c, a) && Opposite(d, b)
            && Cross(a, b) > 0.0 && Cross(b, c) > 0.0 && Cross(c, d) > 0.0 && Cross(d, a) > 0.0
            && a != ZERO && b != ZERO && c != ZERO && d != ZERO
  {
    SpokesOfAParallelogram(q);
    CrossOfOpposites(Spoke(q, 0), Spoke(q, 1), Spoke(q, 2), Spoke(q, 3));
    CrossWithZero(Spoke(q, 1));
    CrossWithZero(Spoke(q, 0));
    CrossIsAntisymmetric(Spoke(q, 0), Spoke(q, 1));
    hide Cross;
  }

  /** A corner from which the angles ascend: it and the next lie at angles up to 0, the other two past it. */
  predicate FirstInAngle(q: Quad, k: nat)
    requires k < 4
  {
    Sector(Spoke(q, k)) < 2 && Sector(Spoke(q, Origin(k, 1, 4))) < 2
  }

  lemma SortedFrom(q: Quad, k: nat)
    requires IsParallelogram(q) && k < 4 && FirstInAngle(q, k)
    ensures Sorted(Rotated(q, k), Centroid(q))
  {
    SpokesInTurn(q, k);
    var a, b, c, d := Spoke(q, k), Spoke(q, Origin(k, 1, 4)), Spoke(q, Origin(k, 2, 4)), Spoke(q, Origin(k, 3, 4));
    OppositeSectors(c, a);
    OppositeSectors(d, b);
    ClockwiseIsLater(a, b);
    ClockwiseIsLater(c, d);
    var r := Rotated(q, k);
    assert r == [q[k], q[Origin(k, 1, 4)], q[Origin(k, 2, 4)], q[Origin(k, 3, 4)]];
    BeforeIsAStrictWeakOrder(a, b, a);
    BeforeIsAStrictWeakOrder(c, d, c);
    assert Before(a, c) && Before(a, d) && Before(b, c) && Before(b, d);
    BeforeIsAStrictWeakOrder(a, c, a);
    BeforeIsAStrictWeakOrder(a, d, a);
    BeforeIsAStrictWeakOrder(b, c, b);
    BeforeIsAStrictWeakOrder(b, d, b);
    hide Before, Sector, Cross;
  }

  lemma SomeCornerIsFirst(q: Quad) returns (k: nat)
    requires IsParallelogram(q)
    ensures k < 4 && FirstInAngle(q, k)
  {
    SpokesInTurn(q, 0);
    OppositeSectors(Spoke(q, 2), Spoke(q, 0));
    OppositeSectors(Spoke(q, 3), Spoke(q, 1));
    k := if Sector(Spoke(q, 0)) < 2 then (if Sector(Spoke(q, 1)) < 2 then 0 else 3)
         else if Sector(Spoke(q, 1)) < 2 then 1 else 2;
  }

  lemma CornersNeverTie(q: Quad)
    requires IsParallelogram(q)
    ensures TiesAreEqual(q, Centroid(q))
  {
    SpokesInTurn(q, 0);
    var a, b, c, d := Spoke(q, 0), Spoke(q, 1), Spoke(q, 2), Spoke(q, 3);
    OppositeSectors(c, a);
    OppositeSectors(d, b);
    CrossedNeverTie(a, b);
    CrossedNeverTie(b, c);
    CrossedNeverTie(c, d);
    CrossedNeverTie(d, a);
    hide Cross;
  }

  lemma CrossedNeverTie(a: Vector, b: Vector)
    requires Cross(a, b) > 0.0
    ensures Before(a, b) || Before(b, a)
  {
    SignOfProduct(a.x, b.y);
    SignOfProduct(-a.y, b.x);
  }

  /** The cycle of a parallelogram, whatever the order of the clicks. */
  lemma CycleOfAParallelogram(q: Quad, clicks: seq<Fraction>, k: nat)
    requires IsParallelogram(q) && multiset(clicks) == multiset(q)
    requires k < 4 && FirstInAngle(q, k)
    ensures |clicks| == 4
    ensures OrderedCycle(clicks) == Rotated(q, Origin(k, FirstLeast(Rotated(q, k)), 4))
  {
    assert |clicks| == |multiset(clicks)| == |multiset(q)| == 4;
    CornersNeverTie(q);
    DistinctAnglesFixTheCycle(q, clicks);
    SortedFrom(q, k);
    SortByAngleIsAStableSort(q, Centroid(q), q[0]);
    RotatedIsAPermutation(q, k);
    var sorted := SortByAngle(q, Centroid(q));
    TiesInAPermutation(q, Rotated(q, k), Centroid(q));
    SortedIsUnique(Rotated(q, k), sorted, Centroid(q));
    hide Sorted, TiesAreEqual, SortByAngle, FirstInAngle, IsParallelogram, Centroid;
    RotatedTwice(q, k, FirstLeast(Rotated(q, k)));
  }

  lemma TiesInAPermutation(points: seq<Fraction>, others: seq<Fraction>, centre: Fraction)
    requires multiset(points) == multiset(others) && TiesAreEqual(points, centre)
    ensures TiesAreEqual(others, centre)
  {
    hide SameAngle;
    forall i | 0 <= i < |others| ensures others[i] in points {
      assert others[i] in multiset(others);
    }
  }

  lemma RotatedTwice(q: Quad, k: nat, j: nat)
    requires k < 4 && j < 4
    ensures Rotated(Rotated(q, k), j) == Rotated(q, Origin(k, j, 4))
  {
    var r := Rotated(q, k);
    assert r == [q[k], q[Origin(k, 1, 4)], q[Origin(k, 2, 4)], q[Origin(k, 3, 4)]];
    assert Rotated(r, j) == [r[j], r[Origin(j, 1, 4)], r[Origin(j, 2, 4)], r[Origin(j, 3, 4)]];
  }

  /** A single nearest corner is the first, wherever the angles begin. */
  lemma CycleStartsAtTheLeast(q: Quad, clicks: seq<Fraction>, s: nat)
    requires IsParallelogram(q) && multiset(clicks) == multiset(q) && s < 4
    requires forall i :: 0 <= i < 4 && i != s ==> Key(q[s]) < Key(q[i])
    ensures |clicks| == 4 && OrderedCycle(clicks) == Rotated(q, s)
  {
    var k := SomeCornerIsFirst(q);
    CycleOfAParallelogram(q, clicks, k);
    LeastOfRotated(q, k, s);
    hide IsParallelogram, FirstInAngle;
  }

  /** Where corner `i` stands when the cycle starts at corner `k`. */
  function Place(k: nat, i: nat): (j: nat)
    requires k < 4 && i < 4
    ensures j < 4 && Origin(k, j, 4) == i
  {
    if i >= k then i - k else i + 4 - k
  }

  lemma LeastOfRotated(q: Quad, k: nat, s: nat)
    requires k < 4 && s < 4
    requires forall i :: 0 <= i < 4 && i != s ==> Key(q[s]) < Key(q[i])
    ensures Origin(k, FirstLeast(Rotated(q, k)), 4) == s
  {
    var r := Rotated(q, k);
    RotatedAt(q, k, Place(k, s));
    RotatedAt(q, k, FirstLeast(r));
    hide Rotated, Key;
  }

  // ----- The corners of a moved box

  /** The fraction of the image a pixel lies at. */
  function At(v: Vector, image: Size): Fraction
    requires Positive(image)
  {
    Fraction(Over(v.x, image.width), Over(v.y, image.height))
  }

  /** The corners of a box as they lie on the image once the card is turned, scaled and shifted. */
  function MovedQuad(m: Motion, box: Box, image: Size): Quad
    requires Positive(image)
  {
    var q := QuadOf(box);
    [At(Moved(m, Pixel(q[0], image)), image), At(Moved(m, Pixel(q[1], image)), image),
     At(Moved(m, Pixel(q[2], image)), image), At(Moved(m, Pixel(q[3], image)), image)]
  }

  lemma PixelOfAt(v: Vector, image: Size)
    requires Positive(image)
    ensures Pixel(At(v, image), image) == v
  {
  }

  lemma MovedQuadIsMoved(m: Motion, box: Box, image: Size)
    requires Positive(image)
    ensures QuadMoved(m, QuadOf(box), MovedQuad(m, box, image), image)
  {
    var q := QuadOf(box);
    PixelOfAt(Moved(m, Pixel(q[0], image)), image);
    PixelOfAt(Moved(m, Pixel(q[1], image)), image);
    PixelOfAt(Moved(m, Pixel(q[2], image)), image);
    PixelOfAt(Moved(m, Pixel(q[3], image)), image);
    hide Pixel, At, Moved, QuadOf;
  }

  /** How fast `x + y` grows along the top edge of the card, in fractions per pixel of it. */
  function Across(m: Motion, image: Size): real
    requires Positive(image)
  {
    m.a / image.width + m.b / image.height
  }

  /** And down its left edge. */
  function Down(m: Motion, image: Size): real
    requires Positive(image)
  {
    m.a / image.height - m.b / image.width
  }

  function Over(x: real, d: real): real
    requires d > 0.0
  {
    x / d
  }

  lemma ProductIsPositive(x: real, y: real)
    requires x > 0.0 && y > 0.0
    ensures Scaled(x, y) > 0.0
  {
    SignOfProduct(x, y);
  }

  /** A box in pixels: its size across and down. */
  function PixelSize(box: Box, image: Size): Size {
    Size(Scaled(box.width, image.width), Scaled(box.height, image.height))
  }

  /** The edges of the moved box, in pixels. */
  function TopEdge(m: Motion, size: Size): Vector {
    Vector(Scaled(m.a, size.width), Scaled(m.b, size.width))
  }

  function LeftEdge(m: Motion, size: Size): Vector {
    Vector(-Scaled(m.b, size.height), Scaled(m.a, size.height))
  }

  lemma MovedCorners(m: Motion, box: Box, image: Size)
    ensures var q := QuadOf(box);
            var size := PixelSize(box, image);
            var corner := Moved(m, Pixel(q[0], image));
            && Moved(m, Pixel(q[1], image)) == Plus(corner, TopEdge(m, size))
            && Moved(m, Pixel(q[2], image)) == Plus(Plus(corner, TopEdge(m, size)), LeftEdge(m, size))
            && Moved(m, Pixel(q[3], image)) == Plus(corner, LeftEdge(m, size))
  {
    PixelsOfBox(box, image);
    var size := PixelSize(box, image);
    MovedSum(m, Scaled(box.x, image.width), Scaled(box.y, image.height), size.width, size.height);
    hide Pixel, QuadOf, Moved, TopEdge, LeftEdge, Scaled, Plus;
  }

  lemma PixelsOfBox(box: Box, image: Size)
    ensures var q := QuadOf(box);
            var x, y := Scaled(box.x, image.width), Scaled(box.y, image.height);
            var size := PixelSize(box, image);
            && Pixel(q[0], image) == Vector(x, y)
            && Pixel(q[1], image) == Vector(x + size.width, y)
            && Pixel(q[2], image) == Vector(x + size.width, y + size.height)
            && Pixel(q[3], image) == Vector(x, y + size.height)
  {
    SumTimes(box.x, box.width, image.width);
    SumTimes(box.y, box.height, image.height);
  }

  lemma SumTimes(x: real, y: real, d: real)
    ensures Scaled(x + y, d) == Scaled(x, d) + Scaled(y, d)
  {
  }

  lemma MovedSum(m: Motion, x: real, y: real, w: real, h: real)
    ensures var corner := Moved(m, Vector(x, y));
            && Moved(m, Vector(x + w, y)) == Plus(corner, TopEdge(m, Size(w, h)))
            && Moved(m, Vector(x + w, y + h)) == Plus(Plus(corner, TopEdge(m, Size(w, h))), LeftEdge(m, Size(w, h)))
            && Moved(m, Vector(x, y + h)) == Plus(corner, LeftEdge(m, Size(w, h)))
  {
    MovedInProducts(m, x, y);
    MovedInProducts(m, x + w, y);
    MovedInProducts(m, x + w, y + h);
    MovedInProducts(m, x, y + h);
    TimesSum(m.a, x, w);
    TimesSum(m.b, x, w);
    TimesSum(m.a, y, h);
    TimesSum(m.b, y, h);
    hide Moved, Scaled;
  }

  lemma MovedInProducts(m: Motion, x: real, y: real)
    ensures Moved(m, Vector(x, y))
            == Vector(Scaled(m.a, x) - Scaled(m.b, y) + m.dx, Scaled(m.b, x) + Scaled(m.a, y) + m.dy)
  {
    var v := Vector(x, y);
    var p, q, r, s := m.a * v.x, m.b * v.y, m.b * v.x, m.a * v.y;
    assert Scaled(m.a, x) == p && Scaled(m.b, y) == q && Scaled(m.b, x) == r && Scaled(m.a, y) == s;
    hide Scaled;
    assert Moved(m, v) == Vector(p - q + m.dx, r + s + m.dy);
  }

  lemma TimesSum(k: real, x: real, y: real)
    ensures Scaled(k, x + y) == Scaled(k, x) + Scaled(k, y)
  {
  }

  lemma AtOfSum(a: Vector, b: Vector, image: Size)
    requires Positive(image)
    ensures At(Plus(a, b), image).x == At(a, image).x + Over(b.x, image.width)
    ensures At(Plus(a, b), image).y == At(a, image).y + Over(b.y, image.height)
  {
    SumOver(a.x, b.x, image.width);
    SumOver(a.y, b.y, image.height);
    hide Over;
  }

  /** The edges of the moved box, in fractions. */
  lemma MovedEdges(m: Motion, box: Box, image: Size)
    requires Positive(image)
    ensures var q := MovedQuad(m, box, image);
            var u, v := TopEdge(m, PixelSize(box, image)), LeftEdge(m, PixelSize(box, image));
            && Edge(q, 0, 1) == Vector(Over(u.x, image.width), Over(u.y, image.height))
            && Edge(q, 0, 3) == Vector(Over(v.x, image.width), Over(v.y, image.height))
            && q[0].x + q[2].x == q[1].x + q[3].x && q[0].y + q[2].y == q[1].y + q[3].y
  {
    MovedCorners(m, box, image);
    var corner := Moved(m, Pixel(QuadOf(box)[0], image));
    var u, v := TopEdge(m, PixelSize(box, image)), LeftEdge(m, PixelSize(box, image));
    AtOfSum(corner, u, image);
    AtOfSum(corner, v, image);
    AtOfSum(Plus(corner, u), v, image);
    hide At, Over, TopEdge, LeftEdge, Pixel, Moved, QuadOf, PixelSize, Plus;
  }

  lemma OverOfProduct(a: real, w: real, d: real)
    requires d > 0.0
    ensures Over(Scaled(a, w), d) == Scaled(w, Over(a, d)) && Over(-Scaled(a, w), d) == -Scaled(w, Over(a, d))
  {
  }

  /** And again, with the turn apart from the size. */
  lemma EdgesOfMovedQuad(m: Motion, box: Box, image: Size)
    requires Positive(image)
    ensures var q := MovedQuad(m, box, image);
            var size := PixelSize(box, image);
            && Edge(q, 0, 1) == Vector(Scaled(size.width, Over(m.a, image.width)),
                                       Scaled(size.width, Over(m.b, image.height)))
            && Edge(q, 0, 3)
               == Vector(-Scaled(size.height, Over(m.b, image.width)), Scaled(size.height, Over(m.a, image.height)))
  {
    MovedEdges(m, box, image);
    var size := PixelSize(box, image);
    OverOfProduct(m.a, size.width, image.width);
    OverOfProduct(m.b, size.width, image.height);
    OverOfProduct(m.b, size.height, image.width);
    OverOfProduct(m.a, size.height, image.height);
    hide Scaled, Over, PixelSize, MovedQuad, Edge;
  }

  lemma PixelSizeIsPositive(box: Box, image: Size)
    requires Positive(image) && box.width > 0.0 && box.height > 0.0
    ensures Positive(PixelSize(box, image))
  {
    ProductIsPositive(box.width, image.width);
    ProductIsPositive(box.height, image.height);
  }

  /** A turned box with area is a parallelogram. */
  lemma MovedQuadIsAParallelogram(m: Motion, box: Box, image: Size)
    requires Positive(image) && Norm(m) > 0.0 && box.width > 0.0 && box.height > 0.0
    ensures IsParallelogram(MovedQuad(m, box, image))
  {
    MovedEdges(m, box, image);
    EdgesOfMovedQuad(m, box, image);
    PixelSizeIsPositive(box, image);
    DeterminantIsPositive(m, image);
    var size := PixelSize(box, image);
    CrossOfEdges(size.width, size.height, Over(m.a, image.width), Over(m.b, image.height), Over(m.b, image.width),
                 Over(m.a, image.height));
    ProductIsPositive(size.width, size.height);
    ProductIsPositive(Determinant(m, image), Scaled(size.width, size.height));
    hide Norm, Cross, Edge, Scaled, Over, MovedQuad, PixelSize, TopEdge, LeftEdge;
  }

  function Determinant(m: Motion, image: Size): real
    requires Positive(image)
  {
    Scaled(Over(m.a, image.width), Over(m.a, image.height)) + Scaled(Over(m.b, image.height), Over(m.b, image.width))
  }

  lemma CrossOfEdges(w: real, h: real, p: real, r: real, s: real, t: real)
    ensures Cross(Vector(Scaled(w, p), Scaled(w, r)), Vector(-Scaled(h, s), Scaled(h, t)))
            == Scaled(Scaled(p, t) + Scaled(r, s), Scaled(w, h))
  {
  }

  lemma DeterminantIsPositive(m: Motion, image: Size)
    requires Positive(image) && Norm(m) > 0.0
    ensures Determinant(m, image) > 0.0
  {
    var area := Scaled(image.width, image.height);
    ProductIsPositive(image.width, image.height);
    QuotientOfSquare(m.a, image.width, image.height);
    QuotientOfSquare(m.b, image.height, image.width);
    SumOver(m.a * m.a, m.b * m.b, area);
    var share := Over(Norm(m), area);
    assert share * area == Norm(m);
    SignOfProduct(share, area);
  }

  lemma SumOver(x: real, y: real, d: real)
    requires d > 0.0
    ensures Over(x, d) + Over(y, d) == Over(x + y, d)
  {
  }

  lemma QuotientOfSquare(a: real, c: real, d: real)
    requires c > 0.0 && d > 0.0
    ensures Scaled(c, d) > 0.0 && Scaled(Over(a, c), Over(a, d)) == Over(a * a, Scaled(c, d))
  {
    ProductIsPositive(c, d);
    var p, q := a / c, a / d;
    assert p * c == a && q * d == a;
    assert (p * q) * (c * d) == (p * c) * (q * d);
    CancelFactor(p * q, c * d);
  }

  /** How its corners lie to the origin depends on the turn alone. */
  lemma KeysOfMovedQuad(m: Motion, box: Box, image: Size)
    requires Positive(image) && box.width > 0.0 && box.height > 0.0
    ensures var q := MovedQuad(m, box, image);
            && (Key(q[1]) > Key(q[0]) <==> Across(m, image) > 0.0)
            && (Key(q[1]) < Key(q[0]) <==> Across(m, image) < 0.0)
            && (Key(q[3]) > Key(q[0]) <==> Down(m, image) > 0.0) && (Key(q[3]) < Key(q[0]) <==> Down(m, image) < 0.0)
            && Key(q[0]) + Key(q[2]) == Key(q[1]) + Key(q[3])
  {
    MovedEdges(m, box, image);
    EdgesOfMovedQuad(m, box, image);
    PixelSizeIsPositive(box, image);
    var size := PixelSize(box, image);
    SignOfSum(size.width, Over(m.a, image.width), Over(m.b, image.height));
    SignOfSum(size.height, Over(m.a, image.height), -Over(m.b, image.width));
    assert Across(m, image) == Over(m.a, image.width) + Over(m.b, image.height);
    assert Down(m, image) == Over(m.a, image.height) + -Over(m.b, image.width);
    NegatedProduct(size.height, Over(m.b, image.width));
    hide Scaled, Over, MovedQuad, PixelSize, Across, Down, TopEdge, LeftEdge;
  }

  lemma NegatedProduct(w: real, p: real)
    ensures Scaled(w, -p) == -Scaled(w, p)
  {
  }

  lemma SignOfSum(w: real, p: real, r: real)
    requires w > 0.0
    ensures Scaled(w, p) + Scaled(w, r) > 0.0 <==> p + r > 0.0
    ensures Scaled(w, p) + Scaled(w, r) < 0.0 <==> p + r < 0.0
  {
    SignOfProduct(p + r, w);
    SignOfProduct(-(p + r), w);
    assert Scaled(w, p) + Scaled(w, r) == (p + r) * w;
  }

  // ----- Reading from another corner

  function SwappedAxes(axes: Axes): Axes {
    Axes(axes.vertical, axes.horizontal)
  }

  /** A reading taken one corner further round: the axes trade places, and across runs backwards. */
  function Exchanged(reading: Option<Reading>): Option<Reading> {
    match reading
    case None => None
    case Some(Reading(horizontal, vertical)) =>
      Some(Reading(vertical, if horizontal.Some? then Some(1.0 - horizontal.value) else None))
  }

  function AxesFrom(corner: nat, axes: Axes): Axes {
    if corner == 0 then axes else SwappedAxes(AxesFrom(corner - 1, axes))
  }

  function ReadFrom(corner: nat, reading: Option<Reading>): Option<Reading> {
    if corner == 0 then reading else Exchanged(ReadFrom(corner - 1, reading))
  }

  lemma ShareOfTheRest(a: real, b: real)
    ensures a + b > 0.0 ==> b / (b + a) == 1.0 - a / (a + b)
  {
    if a + b > 0.0 {
      var p, q := a / (a + b), b / (a + b);
      assert p * (a + b) == a && q * (a + b) == b;
      assert (p + q) * (a + b) == 1.0 * (a + b);
      SameFactor(p + q, 1.0, a + b);
      assert b + a == a + b;
    }
  }

  lemma SameFactor(p: real, q: real, k: real)
    requires k != 0.0 && p * k == q * k
    ensures p == q
  {
    CancelFactor(p, k);
    CancelFactor(q, k);
  }

  lemma RatiosExchanged(axes: Axes, left: real, right: real, top: real, bottom: real)
    ensures Ratios(axes, top, bottom, right, left) == Exchanged(Ratios(SwappedAxes(axes), left, right, top, bottom))
  {
    ShareOfTheRest(left, right);
  }

  /** The side lengths of the card, given those of the same quadrilateral from the next corner. */
  function TurnedBack(lengths: Lengths): Lengths {
    Lengths(lengths.left, lengths.top, lengths.right, lengths.bottom)
  }

  lemma NextCornerReads(inner: Quad, outer: Quad, axes: Axes, image: Size, lengths: Lengths)
    requires AreLengths(lengths, Rotated(outer, 1), image)
    ensures AreLengths(TurnedBack(lengths), outer, image)
    ensures CenteringFromQuads(Rotated(inner, 1), Rotated(outer, 1), axes, image, lengths)
            == Exchanged(CenteringFromQuads(inner, outer, SwappedAxes(axes), image, TurnedBack(lengths)))
  {
    assert Rotated(inner, 1) == [inner[1], inner[2], inner[3], inner[0]];
    assert Rotated(outer, 1) == [outer[1], outer[2], outer[3], outer[0]];
    SameSide(Rotated(inner, 1), Rotated(outer, 1), 0, inner, outer, 1, image, lengths.top);
    SameSide(Rotated(inner, 1), Rotated(outer, 1), 1, inner, outer, 2, image, lengths.right);
    SameSide(Rotated(inner, 1), Rotated(outer, 1), 2, inner, outer, 3, image, lengths.bottom);
    SameSide(Rotated(inner, 1), Rotated(outer, 1), 3, inner, outer, 0, image, lengths.left);
    hide Rotated, IsLength, Border, Pixel, Ratios, Exchanged, SwappedAxes;
    RatiosExchanged(axes, Border(inner, outer, 3, image, lengths.bottom), Border(inner, outer, 1, image, lengths.top),
                    Border(inner, outer, 0, image, lengths.left), Border(inner, outer, 2, image, lengths.right));
  }

  /** A border depends on the two sides it lies between. */
  lemma SameSide(inner': Quad, outer': Quad, side': nat, inner: Quad, outer: Quad, side: nat, image: Size, len: real)
    requires inner'[side' % 4] == inner[side % 4] && inner'[(side' + 1) % 4] == inner[(side + 1) % 4]
    requires outer'[side' % 4] == outer[side % 4] && outer'[(side' + 1) % 4] == outer[(side + 1) % 4]
    ensures Border(inner', outer', side', image, len) == Border(inner, outer, side, image, len)
  {
    MidpointOfPixels(inner', side', image);
    MidpointOfPixels(inner, side, image);
    hide LineDistance, Pixel, SideMidpoint, Middle;
  }

  /** Read from corner `s`, the axes have traded places `s` times. */
  lemma {:induction false} CornerReads(inner: Quad, outer: Quad, s: nat, axes: Axes, image: Size, lengths: Lengths)
    returns (straight: Lengths)
    requires s < 4 && AreLengths(lengths, Rotated(outer, s), image)
    ensures AreLengths(straight, outer, image)
    ensures CenteringFromQuads(Rotated(inner, s), Rotated(outer, s), axes, image, lengths)
            == ReadFrom(s, CenteringFromQuads(inner, outer, AxesFrom(s, axes), image, straight))
  {
    hide AreLengths, CenteringFromQuads;
    if s == 0 {
      assert Rotated(inner, 0) == inner && Rotated(outer, 0) == outer;
      straight := lengths;
    } else {
      RotatedTwice(inner, s - 1, 1);
      RotatedTwice(outer, s - 1, 1);
      hide Rotated;
      NextCornerReads(Rotated(inner, s - 1), Rotated(outer, s - 1), axes, image, lengths);
      straight := CornerReads(inner, outer, s - 1, SwappedAxes(axes), image, TurnedBack(lengths));
      AxesCommute(s - 1, axes);
    }
  }

  lemma {:induction false} AxesCommute(s: nat, axes: Axes)
    ensures AxesFrom(s, SwappedAxes(axes)) == SwappedAxes(AxesFrom(s, axes))
  {
    if s > 0 { AxesCommute(s - 1, axes); }
  }

  // ----- Eight clicks on a tilted card

  /** The clicks are the corners of the turned box, in any order. */
  predicate ClickedCorners(clicks: seq<Fraction>, m: Motion, box: Box, image: Size)
    requires Positive(image)
  {
    multiset(clicks) == multiset(MovedQuad(m, box, image))
  }

  /** The corner of the card that the turn brings nearest the origin: 0 is its own top left. */
  function NearestCorner(m: Motion, image: Size): nat
    requires Positive(image)
  {
    if Across(m, image) > 0.0 then (if Down(m, image) > 0.0 then 0 else 3)
    else if Down(m, image) > 0.0 then 1 else 2
  }

  predicate IsSkew(m: Motion, image: Size)
    requires Positive(image)
  {
    Across(m, image) != 0.0 && Down(m, image) != 0.0
  }

  lemma ClicksStartAtTheNearestCorner(clicks: seq<Fraction>, m: Motion, box: Box, image: Size)
    requires Positive(image) && Norm(m) > 0.0 && box.width > 0.0 && box.height > 0.0
    requires IsSkew(m, image) && ClickedCorners(clicks, m, box, image)
    ensures |clicks| == 4 && OrderedCycle(clicks) == Rotated(MovedQuad(m, box, image), NearestCorner(m, image))
  {
    MovedQuadIsAParallelogram(m, box, image);
    KeysOfMovedQuad(m, box, image);
    hide MovedQuad, Norm, IsParallelogram, Across, Down;
    CycleStartsAtTheLeast(MovedQuad(m, box, image), clicks, NearestCorner(m, image));
  }

  /** Straight pixels of the card have plain lengths. */
  function StraightLengths(card: Box, image: Size): Lengths {
    var size := PixelSize(card, image);
    Lengths(size.width, size.height, size.width, size.height)
  }

  lemma StraightLengthsAreLengths(card: Box, image: Size)
    requires Positive(image) && card.width > 0.0 && card.height > 0.0
    ensures AreLengths(StraightLengths(card, image), QuadOf(card), image)
  {
    PixelsOfBox(card, image);
    PixelSizeIsPositive(card, image);
    hide Pixel, QuadOf, PixelSize;
  }

  /** If both quadrilaterals start at the same corner, the reading is the straight one taken from there. */
  lemma ReadingFromCorner(innerClicks: seq<Fraction>, outerClicks: seq<Fraction>, box: Box, card: Box, axes: Axes,
                          image: Size, m: Motion, lengths: Lengths, s: nat)
    requires Positive(image) && Norm(m) > 0.0 && s < 4
    requires card.width > 0.0 && card.height > 0.0 && InsideOn(AxesFrom(s, axes), box, card)
    requires |innerClicks| == |outerClicks| == 4 && AreLengths(lengths, OrderedCycle(outerClicks), image)
    requires OrderedCycle(innerClicks) == Rotated(MovedQuad(m, box, image), s)
    requires OrderedCycle(outerClicks) == Rotated(MovedQuad(m, card, image), s)
    ensures CenteringFromQuads(OrderedCycle(innerClicks), OrderedCycle(outerClicks), axes, image, lengths)
            == ReadFrom(s, CenteringFrom(box, AxesFrom(s, axes), card))
  {
    var inner, outer := MovedQuad(m, box, image), MovedQuad(m, card, image);
    hide AreLengths, CenteringFromQuads, CenteringFrom, InsideOn, ReadFrom, AxesFrom, MovedQuad, Norm, OrderedCycle,
      Rotated;
    var tilted := CornerReads(inner, outer, s, axes, image, lengths);
    MovedQuadIsMoved(m, box, image);
    MovedQuadIsMoved(m, card, image);
    StraightLengthsAreLengths(card, image);
    TiltedCardReadsLikeAStraightOne(box, card, inner, outer, AxesFrom(s, axes), image, m,
                                    StraightLengths(card, image), tilted);
  }

  /**
    What the tool reads off a tilted card and frame, whatever the order of the clicks: the straight reading,
    taken from the corner the tilt brings nearest the origin.
   */
  lemma ClickedReading(innerClicks: seq<Fraction>, outerClicks: seq<Fraction>, box: Box, card: Box, axes: Axes,
                       image: Size, m: Motion, lengths: Lengths)
    requires Positive(image) && Norm(m) > 0.0 && IsSkew(m, image)
    requires box.width > 0.0 && box.height > 0.0 && card.width > 0.0 && card.height > 0.0
    requires InsideOn(AxesFrom(NearestCorner(m, image), axes), box, card)
    requires ClickedCorners(innerClicks, m, box, image) && ClickedCorners(outerClicks, m, card, image)
    requires |innerClicks| == |outerClicks| == 4 && AreLengths(lengths, OrderedCycle(outerClicks), image)
    ensures var s := NearestCorner(m, image);
            CenteringFromQuads(OrderedCycle(innerClicks), OrderedCycle(outerClicks), axes, image, lengths)
            == ReadFrom(s, CenteringFrom(box, AxesFrom(s, axes), card))
  {
    var s := NearestCorner(m, image);
    ClicksStartAtTheNearestCorner(innerClicks, m, box, image);
    ClicksStartAtTheNearestCorner(outerClicks, m, card, image);
    hide AreLengths, CenteringFromQuads, CenteringFrom, InsideOn, ReadFrom, AxesFrom, Norm, OrderedCycle, Rotated;
    ReadingFromCorner(innerClicks, outerClicks, box, card, axes, image, m, lengths, s);
  }

  /** As long as the tilt keeps the card's own top left corner nearest, it makes no difference. */
  lemma SlightTiltsAreInvisible(innerClicks: seq<Fraction>, outerClicks: seq<Fraction>, box: Box, card: Box, axes: Axes,
                                image: Size, m: Motion, lengths: Lengths)
    requires Positive(image) && Norm(m) > 0.0 && Across(m, image) > 0.0 && Down(m, image) > 0.0
    requires box.width > 0.0 && box.height > 0.0 && card.width > 0.0 && card.height > 0.0 && InsideOn(axes, box, card)
    requires ClickedCorners(innerClicks, m, box, image) && ClickedCorners(outerClicks, m, card, image)
    requires |innerClicks| == |outerClicks| == 4 && AreLengths(lengths, OrderedCycle(outerClicks), image)
    ensures CenteringFromQuads(OrderedCycle(innerClicks), OrderedCycle(outerClicks), axes, image, lengths)
            == CenteringFrom(box, axes, card)
  {
    hide AreLengths, CenteringFromQuads, CenteringFrom, InsideOn, Norm, ClickedCorners;
    ClickedReading(innerClicks, outerClicks, box, card, axes, image, m, lengths);
  }

  // ----- Exactly which tilts are invisible

  const BOTH := Axes(true, true)

  /** Everything a reading of a tilted card supposes. */
  ghost predicate IsTaken(innerClicks: seq<Fraction>, outerClicks: seq<Fraction>, box: Box, card: Box, axes: Axes,
                          image: Size, m: Motion, lengths: Lengths)
    requires Positive(image)
  {
    && box.width > 0.0 && box.height > 0.0 && card.width > 0.0 && card.height > 0.0 && InsideOn(axes, box, card)
    && ClickedCorners(innerClicks, m, box, image) && ClickedCorners(outerClicks, m, card, image)
    && |innerClicks| == |outerClicks| == 4 && AreLengths(lengths, OrderedCycle(outerClicks), image)
  }

  /** No card, frame or click order betrays the tilt. */
  ghost predicate TiltIsInvisible(m: Motion, image: Size)
    requires Positive(image)
  {
    forall innerClicks: seq<Fraction>, outerClicks: seq<Fraction>, box: Box, card: Box, axes: Axes, lengths: Lengths ::
      IsTaken(innerClicks, outerClicks, box, card, axes, image, m, lengths) ==>
        CenteringFromQuads(OrderedCycle(innerClicks), OrderedCycle(outerClicks), axes, image, lengths)
        == CenteringFrom(box, axes, card)
  }

  /** A box of half the card's size, off centre across. */
  function HalfBox(card: Box): Box {
    Box(card.x + 0.2 * card.width, card.y + 0.25 * card.height, card.width / 2.0, card.height / 2.0)
  }

  lemma ReadingOfHalfBox(card: Box)
    requires card.width > 0.0 && card.height > 0.0
    ensures InsideOn(BOTH, HalfBox(card), card)
    ensures CenteringFrom(HalfBox(card), BOTH, card) == Some(Reading(Some(0.4), Some(0.5)))
  {
    var w, h := card.width, card.height;
    assert Gaps(HalfBox(card), card) == (0.2 * w, 0.3 * w, 0.25 * h, 0.25 * h);
    ScaledShare(0.2, 0.3, w);
    ScaledShare(0.25, 0.25, h);
    assert 0.2 * w == w * 0.2 && 0.3 * w == w * 0.3 && 0.25 * h == h * 0.25;
  }

  lemma OtherCornersReadOtherwise(s: nat)
    requires 0 < s < 4
    ensures ReadFrom(s, Some(Reading(Some(0.4), Some(0.5))))
            == Some(if s == 1 then Reading(Some(0.5), Some(0.6))
                    else if s == 2 then Reading(Some(0.6), Some(0.5))
                    else Reading(Some(0.5), Some(0.4)))
    ensures AxesFrom(s, BOTH) == BOTH
  {
    var r0 := Some(Reading(Some(0.4), Some(0.5)));
    var r1 := Some(Reading(Some(0.5), Some(0.6)));
    var r2 := Some(Reading(Some(0.6), Some(0.5)));
    assert ReadFrom(0, r0) == r0 && ReadFrom(1, r0) == Exchanged(r0) == r1;
    assert ReadFrom(2, r0) == Exchanged(r1) == r2;
    assert ReadFrom(3, r0) == Exchanged(r2) == Some(Reading(Some(0.5), Some(0.4)));
    assert SwappedAxes(BOTH) == BOTH;
    assert AxesFrom(0, BOTH) == BOTH && AxesFrom(1, BOTH) == BOTH && AxesFrom(2, BOTH) == BOTH
        && AxesFrom(3, BOTH) == BOTH;
  }

  /** A box of half the card's size is turned into a parallelogram of half the size. */
  lemma HalfSpokes(m: Motion, card: Box, image: Size)
    requires Positive(image)
    ensures var outer, inner := MovedQuad(m, card, image), MovedQuad(m, HalfBox(card), image);
            forall i :: 0 <= i < 4 ==>
              Spoke(outer, i).x == 2.0 * Spoke(inner, i).x && Spoke(outer, i).y == 2.0 * Spoke(inner, i).y
  {
    EdgesOfMovedQuad(m, card, image);
    EdgesOfMovedQuad(m, HalfBox(card), image);
    MovedEdges(m, card, image);
    MovedEdges(m, HalfBox(card), image);
    HalfProduct(card.width, image.width);
    HalfProduct(card.height, image.height);
    var size := PixelSize(card, image);
    HalfProduct(size.width, Over(m.a, image.width));
    HalfProduct(size.width, Over(m.b, image.height));
    HalfProduct(size.height, Over(m.b, image.width));
    HalfProduct(size.height, Over(m.a, image.height));
    CentroidOfFour(MovedQuad(m, card, image));
    CentroidOfFour(MovedQuad(m, HalfBox(card), image));
    hide Scaled, Over, MovedQuad, TopEdge, LeftEdge, Centroid;
  }

  lemma HalfProduct(x: real, y: real)
    ensures Scaled(x, y) == 2.0 * Scaled(x / 2.0, y)
  {
  }

  /** Half-size spokes lie in the same sectors, and their ends as far one way or the other. */
  lemma HalfStartsWhereWholeDoes(outer: Quad, inner: Quad, k: nat)
    requires k < 4
    requires forall i :: 0 <= i < 4 ==>
               Spoke(outer, i).x == 2.0 * Spoke(inner, i).x && Spoke(outer, i).y == 2.0 * Spoke(inner, i).y
    ensures FirstInAngle(outer, k) <==> FirstInAngle(inner, k)
    ensures FirstLeast(Rotated(outer, k)) == FirstLeast(Rotated(inner, k))
  {
    assert forall i :: 0 <= i < 4 ==> Sector(Spoke(outer, i)) == Sector(Spoke(inner, i));
    var f, g := FirstLeast(Rotated(outer, k)), FirstLeast(Rotated(inner, k));
    RotatedAt(outer, k, f);
    RotatedAt(outer, k, g);
    RotatedAt(inner, k, f);
    RotatedAt(inner, k, g);
    SpokesCompareKeys(outer, Origin(k, f, 4), Origin(k, g, 4));
    SpokesCompareKeys(inner, Origin(k, f, 4), Origin(k, g, 4));
    hide Sector, Rotated, Key, Spoke;
  }

  lemma SpokesCompareKeys(q: Quad, i: nat, j: nat)
    requires i < 4 && j < 4
    ensures Key(q[i]) - Key(q[j]) == Spoke(q, i).x + Spoke(q, i).y - (Spoke(q, j).x + Spoke(q, j).y)
  {
    hide Centroid;
  }

  /** A card and its half box start at the same corner, which is not the card's own if another lies nearer or first. */
  lemma StartTogether(m: Motion, card: Box, image: Size, k: nat) returns (s: nat)
    requires Positive(image) && Norm(m) > 0.0 && card.width > 0.0 && card.height > 0.0
    requires k < 4 && FirstInAngle(MovedQuad(m, card, image), k)
    ensures s == Origin(k, FirstLeast(Rotated(MovedQuad(m, card, image), k)), 4) < 4
    ensures OrderedCycle(MovedQuad(m, card, image)) == Rotated(MovedQuad(m, card, image), s)
    ensures OrderedCycle(MovedQuad(m, HalfBox(card), image)) == Rotated(MovedQuad(m, HalfBox(card), image), s)
  {
    var outer, inner := MovedQuad(m, card, image), MovedQuad(m, HalfBox(card), image);
    HalfSpokes(m, card, image);
    MovedQuadIsAParallelogram(m, card, image);
    MovedQuadIsAParallelogram(m, HalfBox(card), image);
    hide MovedQuad, Norm, IsParallelogram, FirstInAngle, Spoke, FirstLeast, OrderedCycle, Rotated, Origin;
    s := HalvesStartTogether(outer, inner, k);
  }

  lemma HalvesStartTogether(outer: Quad, inner: Quad, k: nat) returns (s: nat)
    requires IsParallelogram(outer) && IsParallelogram(inner) && k < 4 && FirstInAngle(outer, k)
    requires forall i :: 0 <= i < 4 ==>
               Spoke(outer, i).x == 2.0 * Spoke(inner, i).x && Spoke(outer, i).y == 2.0 * Spoke(inner, i).y
    ensures s == Origin(k, FirstLeast(Rotated(outer, k)), 4) < 4
    ensures OrderedCycle(outer) == Rotated(outer, s) && OrderedCycle(inner) == Rotated(inner, s)
  {
    HalfStartsWhereWholeDoes(outer, inner, k);
    hide IsParallelogram, FirstInAngle, Spoke, FirstLeast, OrderedCycle, Rotated;
    CycleOfAParallelogram(outer, outer, k);
    CycleOfAParallelogram(inner, inner, k);
    s := Origin(k, FirstLeast(Rotated(outer, k)), 4);
  }

  /** Scaled sides are as long as they should be. */
  lemma MovedIsLength(m: Motion, a: Vector, b: Vector, len: real, sigma: real, len': real)
    requires IsLength(len, a, b) && sigma > 0.0 && Square(sigma) == Norm(m) && len' == sigma * len
    ensures IsLength(len', Moved(m, a), Moved(m, b))
  {
    LengthMeansSquares(len, a, b);
    LengthMeansSquares(len', Moved(m, a), Moved(m, b));
    MovedDifference(m, a, b);
    TurnedLength(m, Minus(b, a));
    SignOfProduct(len, sigma);
    ProductOfSquares(len, sigma);
    hide Moved, Norm, Square, LengthSquared, Minus, IsHypot, Turned;
  }

  /** The side lengths of a rectangle, from any of its corners. */
  function SidesFrom(s: nat, across: real, down: real): Lengths {
    if s == 0 then Lengths(across, down, across, down) else SidesFrom(s - 1, down, across)
  }

  lemma MovedSides(m: Motion, card: Box, image: Size, sigma: real, across: real, down: real)
    requires Positive(image) && card.width > 0.0 && card.height > 0.0
    requires sigma > 0.0 && Square(sigma) == Norm(m)
    requires across == sigma * PixelSize(card, image).width && down == sigma * PixelSize(card, image).height
    ensures AreLengths(SidesFrom(0, across, down), MovedQuad(m, card, image), image)
  {
    hide QuadOf, MovedQuad, Pixel, Moved, Norm, Square, IsHypot, PixelSize;
    var q := QuadOf(card);
    StraightLengthsAreLengths(card, image);
    MovedQuadIsMoved(m, card, image);
    var size := PixelSize(card, image);
    var p0, p1, p2, p3 := Pixel(q[0], image), Pixel(q[1], image), Pixel(q[2], image), Pixel(q[3], image);
    MovedIsLength(m, p0, p1, size.width, sigma, across);
    MovedIsLength(m, p1, p2, size.height, sigma, down);
    MovedIsLength(m, p2, p3, size.width, sigma, across);
    MovedIsLength(m, p3, p0, size.height, sigma, down);
    hide IsLength;
  }

  lemma {:induction false} SidesFromCorner(q: Quad, s: nat, across: real, down: real, image: Size)
    requires s < 4 && AreLengths(SidesFrom(0, across, down), q, image)
    ensures AreLengths(SidesFrom(s, across, down), Rotated(q, s), image)
    decreases s
  {
    hide IsLength, Pixel;
    if s == 0 {
      assert Rotated(q, 0) == q;
    } else {
      assert Rotated(q, 1) == [q[1], q[2], q[3], q[0]];
      assert AreLengths(SidesFrom(0, down, across), Rotated(q, 1), image);
      SidesFromCorner(Rotated(q, 1), s - 1, down, across, image);
      RotatedTwice(q, 1, s - 1);
      hide Rotated;
    }
  }

  /** A card and its half box can be clicked, and start at the same corner. */
  lemma CardAndHalfBox(m: Motion, card: Box, image: Size, sigma: real, k: nat) returns (s: nat, lengths: Lengths)
    requires Positive(image) && sigma > 0.0 && Square(sigma) == Norm(m) > 0.0 && card.width > 0.0 && card.height > 0.0
    requires k < 4 && FirstInAngle(MovedQuad(m, card, image), k)
    ensures s == Origin(k, FirstLeast(Rotated(MovedQuad(m, card, image), k)), 4) < 4
    ensures var inner, outer := MovedQuad(m, HalfBox(card), image), MovedQuad(m, card, image);
            && IsTaken(inner, outer, HalfBox(card), card, BOTH, image, m, lengths)
            && OrderedCycle(inner) == Rotated(inner, s) && OrderedCycle(outer) == Rotated(outer, s)
  {
    s := StartTogether(m, card, image, k);
    var outer, inner := MovedQuad(m, card, image), MovedQuad(m, HalfBox(card), image);
    var across, down := sigma * PixelSize(card, image).width, sigma * PixelSize(card, image).height;
    MovedSides(m, card, image, sigma, across, down);
    SidesFromCorner(outer, s, across, down, image);
    lengths := SidesFrom(s, across, down);
    ReadingOfHalfBox(card);
    hide MovedQuad, Norm, Square, InsideOn, OrderedCycle, Rotated, SidesFrom, AreLengths, PixelSize, FirstInAngle,
      FirstLeast;
  }

  /** A card whose corners, so turned, start anywhere but at its own top left gives the tilt away. */
  lemma OtherStartBetrays(m: Motion, card: Box, image: Size, sigma: real, k: nat)
    requires Positive(image) && sigma > 0.0 && Square(sigma) == Norm(m) > 0.0 && card.width > 0.0 && card.height > 0.0
    requires k < 4 && FirstInAngle(MovedQuad(m, card, image), k)
    requires Origin(k, FirstLeast(Rotated(MovedQuad(m, card, image), k)), 4) != 0
    ensures !TiltIsInvisible(m, image)
  {
    var box := HalfBox(card);
    var outer, inner := MovedQuad(m, card, image), MovedQuad(m, box, image);
    var s, lengths := CardAndHalfBox(m, card, image, sigma, k);
    ReadingOfHalfBox(card);
    OtherCornersReadOtherwise(s);
    hide MovedQuad, Norm, Square, CenteringFrom, CenteringFromQuads, InsideOn, ReadFrom, AxesFrom, OrderedCycle,
      Rotated, AreLengths, ClickedCorners;
    ReadingFromCorner(inner, outer, box, card, BOTH, image, m, lengths, s);
  }

  /** If another corner lies nearer, any card will do. */
  lemma FarTurnsBetray(m: Motion, image: Size, sigma: real)
    requires Positive(image) && sigma > 0.0 && Square(sigma) == Norm(m) > 0.0
    requires Across(m, image) < 0.0 || Down(m, image) < 0.0
    ensures !TiltIsInvisible(m, image)
  {
    var card := Box(0.0, 0.0, 1.0, 1.0);
    var q := MovedQuad(m, card, image);
    MovedQuadIsAParallelogram(m, card, image);
    KeysOfMovedQuad(m, card, image);
    var k := SomeCornerIsFirst(q);
    var f := FirstLeast(Rotated(q, k));
    RotatedAt(q, k, f);
    var j: nat := if Across(m, image) < 0.0 then 1 else 3;
    RotatedAt(q, k, Place(k, j));
    hide MovedQuad, Norm, Square, Rotated, Across, Down, IsParallelogram, FirstInAngle, TiltIsInvisible;
    OtherStartBetrays(m, card, image, sigma, k);
  }

  /** A tilt that brings another corner just as near: a card of this shape starts there. */
  function TieBreaker(m: Motion, image: Size): Box
    requires Positive(image)
  {
    Box(0.0, 0.0, Over(2.0 * Abs(Over(m.a, image.height)), image.width),
        Over(Abs(Over(m.b, image.height)), image.height))
  }

  lemma TiesBetray(m: Motion, image: Size, sigma: real)
    requires Positive(image) && sigma > 0.0 && Square(sigma) == Norm(m) > 0.0
    requires (Across(m, image) == 0.0 && Down(m, image) > 0.0) || (Across(m, image) > 0.0 && Down(m, image) == 0.0)
    ensures !TiltIsInvisible(m, image)
  {
    var card := TieBreaker(m, image);
    var k := if Across(m, image) == 0.0 then 1 else 3;
    TieBreakerSpokes(m, image);
    var q := MovedQuad(m, card, image);
    KeysOfMovedQuad(m, card, image);
    RotatedAt(q, k, 0);
    RotatedAt(q, k, Place(k, 0));
    RotatedAt(q, k, FirstLeast(Rotated(q, k)));
    hide MovedQuad, Norm, Square, Rotated, Across, Down, FirstInAngle, TiltIsInvisible, TieBreaker;
    OtherStartBetrays(m, card, image, sigma, k);
  }

  lemma TieBreakerSpokes(m: Motion, image: Size)
    requires Positive(image)
    requires (Across(m, image) == 0.0 && Down(m, image) > 0.0) || (Across(m, image) > 0.0 && Down(m, image) == 0.0)
    ensures var card := TieBreaker(m, image);
            && card.width > 0.0 && card.height > 0.0
            && FirstInAngle(MovedQuad(m, card, image), if Across(m, image) == 0.0 then 1 else 3)
  {
    var card := TieBreaker(m, image);
    var r, t := Over(m.b, image.height), Over(m.a, image.height);
    SignsOfATie(m, image);
    SignOfOver(2.0 * t, image.width);
    SignOfOver(Abs(r), image.height);
    OverTimes(2.0 * t, image.width);
    OverTimes(Abs(r), image.height);
    var q := MovedQuad(m, card, image);
    MovedEdges(m, card, image);
    EdgesOfMovedQuad(m, card, image);
    assert PixelSize(card, image) == Size(2.0 * t, Abs(r));
    CentroidOfFour(q);
    ProductIsPositive(t, Abs(r));
    TieEdges(t, r);
    hide Scaled, Over, MovedQuad, TopEdge, LeftEdge, Centroid, PixelSize, TieBreaker, Across, Down;
  }

  lemma TieEdges(t: real, r: real)
    ensures Scaled(Abs(r), t) == Scaled(t, Abs(r))
    ensures Scaled(2.0 * t, r) == if r >= 0.0 then 2.0 * Scaled(t, Abs(r)) else -2.0 * Scaled(t, Abs(r))
  {
  }

  lemma SignOfOver(x: real, d: real)
    requires d > 0.0
    ensures Over(x, d) > 0.0 <==> x > 0.0
    ensures Over(x, d) < 0.0 <==> x < 0.0
  {
    var y := Over(x, d);
    assert y * d == x;
    SignOfProduct(y, d);
    SignOfProduct(-y, d);
  }

  lemma OverTimes(x: real, d: real)
    requires d > 0.0
    ensures Scaled(Over(x, d), d) == x
  {
  }

  lemma SignsOfATie(m: Motion, image: Size)
    requires Positive(image)
    ensures Across(m, image) == 0.0 && Down(m, image) > 0.0
            ==> m.a > 0.0 > m.b && Over(m.a, image.height) > 0.0 > Over(m.b, image.height)
    ensures Across(m, image) > 0.0 && Down(m, image) == 0.0
            ==> m.a > 0.0 && m.b > 0.0 && Over(m.a, image.height) > 0.0 && Over(m.b, image.height) > 0.0
    ensures Across(m, image) == 0.0 && Down(m, image) == 0.0 ==> m.a == 0.0 && m.b == 0.0
  {
    assert Across(m, image) == Over(m.a, image.width) + Over(m.b, image.height);
    assert Down(m, image) == Over(m.a, image.height) - Over(m.b, image.width);
    SignOfOver(m.a, image.width);
    SignOfOver(m.b, image.height);
    SignOfOver(m.a, image.height);
    SignOfOver(m.b, image.width);
    hide Over, Across, Down;
  }

  /**
    A tilt makes no difference to any card, frame or click order exactly when it leaves the card's top left
    corner strictly nearest the origin, along both of its edges.
   */
  lemma TiltIsInvisibleIff(m: Motion, image: Size, sigma: real)
    requires Positive(image) && sigma > 0.0 && IsHypot(sigma, m.a, m.b)
    ensures TiltIsInvisible(m, image) <==> Across(m, image) > 0.0 && Down(m, image) > 0.0
  {
    SquareIsPositive(sigma);
    assert Square(sigma) == Norm(m) > 0.0;
    SignsOfATie(m, image);
    assert Across(m, image) == 0.0 && Down(m, image) == 0.0 ==> Norm(m) == 0.0;
    hide Across, Down, Norm, Square;
    if Across(m, image) > 0.0 && Down(m, image) > 0.0 {
      SlightTilts(m, image);
    } else if Across(m, image) < 0.0 || Down(m, image) < 0.0 {
      FarTurnsBetray(m, image, sigma);
    } else {
      TiesBetray(m, image, sigma);
    }
  }

  lemma SlightTilts(m: Motion, image: Size)
    requires Positive(image) && Norm(m) > 0.0 && Across(m, image) > 0.0 && Down(m, image) > 0.0
    ensures TiltIsInvisible(m, image)
  {
    hide Across, Down, Norm, AreLengths, CenteringFromQuads, CenteringFrom, InsideOn, OrderedCycle, ClickedCorners;
    forall innerClicks: seq<Fraction>, outerClicks: seq<Fraction>, box: Box, card: Box, axes: Axes, lengths: Lengths |
      IsTaken(innerClicks, outerClicks, box, card, axes, image, m, lengths)
      ensures CenteringFromQuads(OrderedCycle(innerClicks), OrderedCycle(outerClicks), axes, image, lengths)
              == CenteringFrom(box, axes, card)
    {
      SlightTiltsAreInvisible(innerClicks, outerClicks, box, card, axes, image, m, lengths);
    }
  }

  // ----- A quarter turn, in figures

  lemma QuarterTurnStartsElsewhere(m: Motion, image: Size)
    requires Positive(image) && m.a == 0.0 < m.b
    ensures Square(m.b) == Norm(m) > 0.0 && IsSkew(m, image) && NearestCorner(m, image) == 3
  {
    SquareIsPositive(m.b);
    SignOfOver(m.b, image.height);
    SignOfOver(m.b, image.width);
    OverOfZero(image.width);
    OverOfZero(image.height);
    assert Across(m, image) == Over(m.a, image.width) + Over(m.b, image.height) > 0.0;
    assert Down(m, image) == Over(m.a, image.height) - Over(m.b, image.width) < 0.0;
    hide Across, Down;
  }

  lemma OverOfZero(d: real)
    requires d > 0.0
    ensures Over(0.0, d) == 0.0
  {
  }

  /**
    Any card at all, on any image, in any order of clicks: a frame that reads 0.4 across and 0.5 down on the
    straight card reads 0.5 across and 0.4 down once both are turned a quarter turn.
   */
  lemma QuarterTurnExchangesTheAxes(innerClicks: seq<Fraction>, outerClicks: seq<Fraction>, card: Box, m: Motion,
                                    image: Size, lengths: Lengths)
    requires Positive(image) && m.a == 0.0 < m.b
    requires IsTaken(innerClicks, outerClicks, HalfBox(card), card, BOTH, image, m, lengths)
    ensures CenteringFrom(HalfBox(card), BOTH, card) == Some(Reading(Some(0.4), Some(0.5)))
    ensures CenteringFromQuads(OrderedCycle(innerClicks), OrderedCycle(outerClicks), BOTH, image, lengths)
            == Some(Reading(Some(0.5), Some(0.4)))
  {
    QuarterTurnStartsElsewhere(m, image);
    ReadingOfHalfBox(card);
    OtherCornersReadOtherwise(3);
    hide ClickedCorners, OrderedCycle, AreLengths, Norm, Square, IsSkew, NearestCorner, ReadFrom, AxesFrom,
      CenteringFrom, CenteringFromQuads, InsideOn;
    ClickedReading(innerClicks, outerClicks, HalfBox(card), card, BOTH, image, m, lengths);
  }

  /** And every card can be so clicked. */
  lemma EveryCardCanBeClicked(card: Box, m: Motion, image: Size, sigma: real)
    returns (innerClicks: seq<Fraction>, outerClicks: seq<Fraction>, lengths: Lengths)
    requires Positive(image) && sigma > 0.0 && IsHypot(sigma, m.a, m.b) && card.width > 0.0 && card.height > 0.0
    ensures IsTaken(innerClicks, outerClicks, HalfBox(card), card, BOTH, image, m, lengths)
  {
    SquareIsPositive(sigma);
    assert Square(sigma) == Norm(m) > 0.0;
    innerClicks, outerClicks := MovedQuad(m, HalfBox(card), image), MovedQuad(m, card, image);
    MovedQuadIsAParallelogram(m, card, image);
    var k := SomeCornerIsFirst(outerClicks);
    hide MovedQuad, Norm, Square, IsTaken, IsParallelogram, FirstInAngle, OrderedCycle, Rotated;
    var s;
    s, lengths := CardAndHalfBox(m, card, image, sigma, k);
  }
}
