/** Four clicked points as a deterministic clockwise cycle starting nearest the origin. */
module Quads {
  import opened Angles
  import opened Viewport

  // ----- Vectors from the centroid

  function SumX(points: seq<Fraction>): real {
    if points == [] then 0.0 else SumX(points[..|points| - 1]) + points[|points| - 1].x
  }

  function SumY(points: seq<Fraction>): real {
    if points == [] then 0.0 else SumY(points[..|points| - 1]) + points[|points| - 1].y
  }

  function Centroid(points: seq<Fraction>): Fraction
    requires |points| > 0
  {
    Fraction(SumX(points) / (|points| as real), SumY(points) / (|points| as real))
  }

  function From(centre: Fraction, point: Fraction): Vector {
    Vector(point.x - centre.x, point.y - centre.y)
  }

  predicate Earlier(a: Fraction, b: Fraction, centre: Fraction) {
    Before(From(centre, a), From(centre, b))
  }

  predicate SameAngle(a: Fraction, b: Fraction, centre: Fraction) {
    !Earlier(a, b, centre) && !Earlier(b, a, centre)
  }

  ghost predicate Sorted(points: seq<Fraction>, centre: Fraction) {
    forall i, j :: 0 <= i < j < |points| ==> !Earlier(points[j], points[i], centre)
  }

  // ----- The stable sort

  /** Puts `point` after everything it does not precede. */
  function Insert(sorted: seq<Fraction>, point: Fraction, centre: Fraction): seq<Fraction> {
    if sorted != [] && Earlier(point, sorted[|sorted| - 1], centre) then
      Insert(sorted[..|sorted| - 1], point, centre) + [sorted[|sorted| - 1]]
    else
      sorted + [point]
  }

  function SortByAngle(points: seq<Fraction>, centre: Fraction): seq<Fraction> {
    if points == [] then []
    else Insert(SortByAngle(points[..|points| - 1], centre), points[|points| - 1], centre)
  }

  /** The points that tie with `key`, in the order they stand. */
  function TiedWith(points: seq<Fraction>, key: Fraction, centre: Fraction): seq<Fraction> {
    if points == [] then []
    else
      var rest := TiedWith(points[..|points| - 1], key, centre);
      if SameAngle(points[|points| - 1], key, centre) then rest + [points[|points| - 1]] else rest
  }

  lemma WeakOrder(a: Fraction, b: Fraction, c: Fraction, centre: Fraction)
    ensures !Earlier(a, a, centre)
    ensures Earlier(a, b, centre) ==> !Earlier(b, a, centre)
    ensures !Earlier(a, b, centre) && !Earlier(b, c, centre) ==> !Earlier(a, c, centre)
    ensures SameAngle(a, b, centre) && SameAngle(c, b, centre) ==> !Earlier(a, c, centre)
  {
    BeforeIsAStrictWeakOrder(From(centre, a), From(centre, b), From(centre, c));
    BeforeIsAStrictWeakOrder(From(centre, a), From(centre, b), From(centre, a));
  }

  lemma {:induction false} InsertSorts(sorted: seq<Fraction>, point: Fraction, centre: Fraction)
    requires Sorted(sorted, centre)
    ensures var s := Insert(sorted, point, centre);
            Sorted(s, centre) && |s| == |sorted| + 1 && multiset(s) == multiset(sorted) + multiset{point}
  {
    hide Earlier;
    if sorted != [] && Earlier(point, sorted[|sorted| - 1], centre) {
      var init, last := sorted[..|sorted| - 1], sorted[|sorted| - 1];
      assert sorted == init + [last];
      InsertSorts(init, point, centre);
      var inner := Insert(init, point, centre);
      forall i | 0 <= i < |inner| ensures !Earlier(last, inner[i], centre) {
        WeakOrder(point, last, point, centre);
        assert inner[i] in multiset(inner);
        assert inner[i] == point || inner[i] in init;
      }
    } else if sorted != [] {
      forall i | 0 <= i < |sorted| ensures !Earlier(point, sorted[i], centre) {
        WeakOrder(point, sorted[|sorted| - 1], sorted[i], centre);
        WeakOrder(sorted[i], point, point, centre);
      }
    }
  }

  lemma {:induction false} InsertIsStable(sorted: seq<Fraction>, point: Fraction, centre: Fraction, key: Fraction)
    ensures TiedWith(Insert(sorted, point, centre), key, centre) == TiedWith(sorted + [point], key, centre)
  {
    hide Earlier, SameAngle;
    if sorted != [] && Earlier(point, sorted[|sorted| - 1], centre) {
      var init, last := sorted[..|sorted| - 1], sorted[|sorted| - 1];
      InsertIsStable(init, point, centre, key);
      WeakOrder(point, key, last, centre);
      TiedWithSnoc(Insert(init, point, centre), last, key, centre);
      TiedWithSnoc(init, point, key, centre);
      TiedWithSnoc(init, last, key, centre);
      TiedWithSnoc(sorted, point, key, centre);
      assert sorted == init + [last];
    }
  }

  lemma TiedWithSnoc(points: seq<Fraction>, last: Fraction, key: Fraction, centre: Fraction)
    ensures TiedWith(points + [last], key, centre)
            == TiedWith(points, key, centre) + (if SameAngle(last, key, centre) then [last] else [])
  {
    assert (points + [last])[..|points|] == points;
  }

  lemma SortedNothing(centre: Fraction)
    ensures Sorted([], centre)
  {
  }

  /** The sort is a sort, loses nothing, and leaves equal angles in click order. */
  lemma {:induction false} SortByAngleIsAStableSort(points: seq<Fraction>, centre: Fraction, key: Fraction)
    ensures var s := SortByAngle(points, centre);
            && Sorted(s, centre)
            && |s| == |points|
            && multiset(s) == multiset(points)
            && TiedWith(s, key, centre) == TiedWith(points, key, centre)
  {
    hide Earlier, SameAngle, Sorted, Insert;
    if points == [] {
      SortedNothing(centre);
    } else {
      var init, last := points[..|points| - 1], points[|points| - 1];
      SortByAngleIsAStableSort(init, centre, key);
      InsertSorts(SortByAngle(init, centre), last, centre);
      InsertIsStable(SortByAngle(init, centre), last, centre, key);
      TiedWithSnoc(init, last, key, centre);
      TiedWithSnoc(SortByAngle(init, centre), last, key, centre);
      assert points == init + [last];
    }
  }

  lemma {:induction false} TiedWithTail(points: seq<Fraction>, key: Fraction, centre: Fraction)
    requires points != []
    ensures TiedWith(points, key, centre)
            == (if SameAngle(points[0], key, centre) then [points[0]] else []) + TiedWith(points[1..], key, centre)
  {
    if |points| > 1 {
      var init := points[..|points| - 1];
      TiedWithTail(init, key, centre);
      assert points[1..][..|points| - 2] == init[1..];
    }
  }

  lemma {:induction false} TiedWithFinds(points: seq<Fraction>, key: Fraction, centre: Fraction)
    requires TiedWith(points, key, centre) != []
    ensures exists i :: 0 <= i < |points| && SameAngle(points[i], key, centre)
  {
    if SameAngle(points[|points| - 1], key, centre) {
    } else {
      TiedWithFinds(points[..|points| - 1], key, centre);
    }
  }

  /** Whatever stable sorting algorithm the engine runs, this is what it returns. */
  lemma {:induction false} StableSortIsUnique(a: seq<Fraction>, b: seq<Fraction>, centre: Fraction)
    requires Sorted(a, centre) && Sorted(b, centre) && |a| == |b|
    requires forall key :: TiedWith(a, key, centre) == TiedWith(b, key, centre)
    ensures a == b
  {
    if a != [] {
      HeadsTie(a, b, centre);
      HeadsTie(b, a, centre);
      assert SameAngle(a[0], b[0], centre) && SameAngle(b[0], a[0], centre);
      BeforeIsAStrictWeakOrder(From(centre, a[0]), From(centre, a[0]), From(centre, a[0]));
      TiedWithTail(a, a[0], centre);
      TiedWithTail(b, a[0], centre);
      assert a[0] == TiedWith(a, a[0], centre)[0] == TiedWith(b, a[0], centre)[0] == b[0];
      forall key ensures TiedWith(a[1..], key, centre) == TiedWith(b[1..], key, centre) {
        TiedWithTail(a, key, centre);
        TiedWithTail(b, key, centre);
        var head := if SameAngle(a[0], key, centre) then [a[0]] else [];
        assert TiedWith(a[1..], key, centre) == TiedWith(a, key, centre)[|head|..];
        assert TiedWith(b[1..], key, centre) == TiedWith(b, key, centre)[|head|..];
      }
      StableSortIsUnique(a[1..], b[1..], centre);
      assert a == [a[0]] + a[1..] && b == [b[0]] + b[1..];
    }
  }

  lemma HeadsTie(a: seq<Fraction>, b: seq<Fraction>, centre: Fraction)
    requires |a| == |b| > 0 && Sorted(a, centre) && Sorted(b, centre)
    requires TiedWith(a, b[0], centre) == TiedWith(b, b[0], centre)
    ensures !Earlier(b[0], a[0], centre)
  {
    BeforeIsAStrictWeakOrder(From(centre, b[0]), From(centre, b[0]), From(centre, b[0]));
    TiedWithTail(b, b[0], centre);
    TiedWithFinds(a, b[0], centre);
    var i :| 0 <= i < |a| && SameAngle(a[i], b[0], centre);
    BeforeIsAStrictWeakOrder(From(centre, b[0]), From(centre, a[i]), From(centre, a[0]));
    BeforeIsAStrictWeakOrder(From(centre, a[0]), From(centre, a[0]), From(centre, a[0]));
  }

  // ----- No turn against the clock

  function SumOf(vs: seq<Vector>): Vector {
    if vs == [] then ZERO else Plus(SumOf(vs[..|vs| - 1]), vs[|vs| - 1])
  }

  lemma {:induction false} CrossOfSum(a: Vector, vs: seq<Vector>)
    requires forall i :: 0 <= i < |vs| ==> Cross(a, vs[i]) >= 0.0
    ensures Cross(a, SumOf(vs)) >= 0.0
    ensures (exists i :: 0 <= i < |vs| && Cross(a, vs[i]) > 0.0) ==> Cross(a, SumOf(vs)) > 0.0
  {
    if vs != [] {
      CrossOfSum(a, vs[..|vs| - 1]);
      CrossOfPlus(a, SumOf(vs[..|vs| - 1]), vs[|vs| - 1]);
      if i :| 0 <= i < |vs| - 1 && Cross(a, vs[i]) > 0.0 {
        assert vs[..|vs| - 1][i] == vs[i];
      }
    }
  }

  lemma CrossOfPlus(a: Vector, b: Vector, c: Vector)
    ensures Cross(a, Plus(b, c)) == Cross(a, b) + Cross(a, c)
  {
  }

  lemma CrossWithZero(a: Vector)
    ensures Cross(a, ZERO) == 0.0
  {
  }

  ghost predicate SortedVectors(vs: seq<Vector>) {
    forall i, j :: 0 <= i < j < |vs| ==> !Before(vs[j], vs[i])
  }

  /** The index after `i` going round a cycle of `n`. */
  function Next(i: nat, n: nat): nat {
    if i + 1 < n then i + 1 else 0
  }

  /**
    Vectors in ascending angle that sum to zero leave no gap wider than half a turn, the one across the cut
    included.
   */
  lemma BalancedCycleNeverTurnsBack(vs: seq<Vector>, i: nat)
    requires SortedVectors(vs) && SumOf(vs) == ZERO && i < |vs|
    ensures Cross(vs[i], vs[Next(i, |vs|)]) >= 0.0
  {
    hide Before, Cross;
    var next := Next(i, |vs|);
    CrossIsAntisymmetric(vs[i], vs[next]);
    if Cross(vs[i], vs[next]) < 0.0 {
      assert Cross(vs[next], vs[i]) > 0.0;
      forall j | 0 <= j < |vs| ensures Cross(vs[next], vs[j]) >= 0.0 {
        BeforeIsAStrictWeakOrder(vs[j], vs[j], vs[j]);
        if i + 1 < |vs| {
          assert !Before(vs[i], vs[j]) || !Before(vs[j], vs[next]);
          OutsideAWideGap(vs[i], vs[next], vs[j]);
        } else {
          assert next == 0 && i == |vs| - 1;
          assert !Before(vs[j], vs[next]) && !Before(vs[i], vs[j]);
          InsideANarrowSpan(vs[next], vs[i], vs[j]);
        }
      }
      CrossOfSum(vs[next], vs);
      CrossWithZero(vs[next]);
      assert false;
    }
  }

  // ----- The cycle

  function Key(point: Fraction): real {
    point.x + point.y
  }

  /** The first index with the least `x + y`. */
  function FirstLeast(points: seq<Fraction>): (start: nat)
    requires |points| > 0
    ensures start < |points|
    ensures forall j :: 0 <= j < |points| ==> Key(points[start]) <= Key(points[j])
    ensures forall j :: 0 <= j < start ==> Key(points[start]) < Key(points[j])
  {
    var last := |points| - 1;
    if last == 0 then 0
    else
      var best := FirstLeast(points[..last]);
      assert forall j :: 0 <= j < last ==> points[..last][j] == points[j];
      if Key(points[last]) < Key(points[best]) then last else best
  }

  function Rotated(points: seq<Fraction>, start: nat): seq<Fraction>
    requires start <= |points|
  {
    points[start..] + points[..start]
  }

  function OrderedCycle(points: seq<Fraction>): (cycle: seq<Fraction>)
    requires |points| > 0
    ensures |cycle| == |points|
  {
    SortByAngleIsAStableSort(points, Centroid(points), points[0]);
    var cycle := SortByAngle(points, Centroid(points));
    Rotated(cycle, FirstLeast(cycle))
  }

  type Quad = q: seq<Fraction> | |q| == 4 witness seq(4, _ => Fraction(0.0, 0.0))

  method OrderedQuad(points: seq<Fraction>) returns (quad: Quad)
    requires |points| == 4
    ensures quad == OrderedCycle(points)
  {
    hide SortByAngle, TiedWith, Sorted, Key, Centroid;
    var centre := Centroid(points);
    var cycle := SortByAngle(points, centre);
    SortByAngleIsAStableSort(points, centre, points[0]);
    var start := 0;
    for index := 1 to |cycle|
      invariant 0 <= start < index
      invariant start == FirstLeast(cycle[..index])
    {
      assert cycle[..index + 1][..index] == cycle[..index];
      if Key(cycle[index]) < Key(cycle[start]) {
        start := index;
      }
    }
    assert cycle[..|cycle|] == cycle;
    var rotated := cycle[start..] + cycle[..start];
    quad := [rotated[0], rotated[1], rotated[2], rotated[3]];
  }

  lemma CentroidOfFour(q: Quad)
    ensures Centroid(q)
            == Fraction((q[0].x + q[1].x + q[2].x + q[3].x) / 4.0, (q[0].y + q[1].y + q[2].y + q[3].y) / 4.0)
  {
    var q3, q2, q1 := q[..3], q[..2], q[..1];
    assert q3[..2] == q2 && q2[..1] == q1 && q1[..0] == [];
    assert SumX(q1) == q[0].x && SumY(q1) == q[0].y;
    assert SumX(q2) == q[0].x + q[1].x && SumY(q2) == q[0].y + q[1].y;
    assert SumX(q3) == q[0].x + q[1].x + q[2].x && SumY(q3) == q[0].y + q[1].y + q[2].y;
  }

  /**
    The ordered corners, by any means of finding them: sort the clicks by angle about their mean, keeping ties
    in click order, and start at the first corner of least x + y.
   */
  lemma OrderedQuadStartsAtTheFirstLeast(points: seq<Fraction>, sorted: seq<Fraction>, centre: Fraction, start: nat)
    requires |points| == |sorted| == 4 && start < 4
    requires centre == Fraction((points[0].x + points[1].x + points[2].x + points[3].x) / 4.0,
                                (points[0].y + points[1].y + points[2].y + points[3].y) / 4.0)
    requires Sorted(sorted, centre)
    requires forall key :: TiedWith(sorted, key, centre) == TiedWith(points, key, centre)
    requires forall j :: 0 <= j < 4 ==> sorted[start].x + sorted[start].y <= sorted[j].x + sorted[j].y
    requires forall j :: 0 <= j < start ==> sorted[start].x + sorted[start].y < sorted[j].x + sorted[j].y
    ensures OrderedCycle(points) == sorted[start..] + sorted[..start]
  {
    CentroidOfFour(points);
    forall key ensures TiedWith(SortByAngle(points, centre), key, centre) == TiedWith(sorted, key, centre) {
      SortByAngleIsAStableSort(points, centre, key);
    }
    SortByAngleIsAStableSort(points, centre, points[0]);
    StableSortIsUnique(sorted, SortByAngle(points, centre), centre);
    FirstLeastIsTheFirst(sorted, start);
    hide SortByAngle, FirstLeast, Sorted, TiedWith, Centroid;
  }

  lemma FirstLeastIsTheFirst(points: seq<Fraction>, start: nat)
    requires start < |points|
    requires forall j :: 0 <= j < |points| ==> points[start].x + points[start].y <= points[j].x + points[j].y
    requires forall j :: 0 <= j < start ==> points[start].x + points[start].y < points[j].x + points[j].y
    ensures FirstLeast(points) == start
  {
  }

  // ----- What the cycle is

  lemma {:induction false} SumsWithout(points: seq<Fraction>, k: nat)
    requires k < |points|
    ensures var rest := points[..k] + points[k + 1..];
            SumX(points) == SumX(rest) + points[k].x && SumY(points) == SumY(rest) + points[k].y
  {
    var last := |points| - 1;
    var rest := points[..k] + points[k + 1..];
    if k < last {
      SumsWithout(points[..last], k);
      assert rest[..last - 1] == points[..last][..k] + points[..last][k + 1..];
    } else {
      assert rest == points[..last];
    }
  }

  lemma MultisetWithout(points: seq<Fraction>, k: nat)
    requires k < |points|
    ensures multiset(points[..k] + points[k + 1..]) == multiset(points) - multiset{points[k]}
  {
    var rest := points[..k] + points[k + 1..];
    assert points == points[..k] + [points[k]] + points[k + 1..];
    assert multiset(points) == multiset(rest) + multiset{points[k]};
    assert multiset(rest) == multiset(rest) + multiset{points[k]} - multiset{points[k]};
  }

  /** The centroid does not depend on the order of the clicks. */
  lemma {:induction false} SumsIgnoreOrder(a: seq<Fraction>, b: seq<Fraction>)
    requires multiset(a) == multiset(b)
    ensures |a| == |b| && SumX(a) == SumX(b) && SumY(a) == SumY(b)
  {
    hide Earlier;
    assert |a| == |multiset(a)| == |multiset(b)| == |b|;
    if a != [] {
      var init, last := a[..|a| - 1], a[|a| - 1];
      assert a == init + [last];
      assert last in multiset(b);
      var k :| 0 <= k < |b| && b[k] == last;
      var rest := b[..k] + b[k + 1..];
      MultisetWithout(b, k);
      MultisetWithout(a, |init|);
      assert a[..|init|] + a[|init| + 1..] == init;
      SumsIgnoreOrder(init, rest);
      SumsWithout(b, k);
    }
  }

  function Spokes(points: seq<Fraction>, centre: Fraction): (vs: seq<Vector>)
    ensures |vs| == |points|
    ensures forall i :: 0 <= i < |points| ==> vs[i] == From(centre, points[i])
  {
    seq(|points|, i requires 0 <= i < |points| => From(centre, points[i]))
  }

  lemma {:induction false} SumOfSpokes(points: seq<Fraction>, centre: Fraction)
    ensures SumOf(Spokes(points, centre))
            == Vector(SumX(points) - |points| as real * centre.x, SumY(points) - |points| as real * centre.y)
  {
    if points != [] {
      var init := points[..|points| - 1];
      SumOfSpokes(init, centre);
      assert Spokes(points, centre)[..|points| - 1] == Spokes(init, centre);
      assert |points| as real * centre.x == |init| as real * centre.x + centre.x;
      assert |points| as real * centre.y == |init| as real * centre.y + centre.y;
    }
  }

  /** The vectors from the centroid cancel out. */
  lemma SpokesBalance(points: seq<Fraction>, clicks: seq<Fraction>)
    requires clicks != [] && multiset(points) == multiset(clicks)
    ensures SumOf(Spokes(points, Centroid(clicks))) == ZERO
  {
    SumsIgnoreOrder(points, clicks);
    var n := |clicks| as real;
    SumOfSpokes(points, Centroid(clicks));
    assert n * (SumX(clicks) / n) == SumX(clicks) && n * (SumY(clicks) / n) == SumY(clicks);
  }

  /** Where the `i`th point of a rotation stood before. */
  function Origin(start: nat, i: nat, n: nat): nat {
    if start + i < n then start + i else start + i - n
  }

  lemma RotatedAt(points: seq<Fraction>, start: nat, i: nat)
    requires start < |points| && i < |points|
    ensures var n := |points|;
            && Origin(start, i, n) < n
            && Rotated(points, start)[i] == points[Origin(start, i, n)]
            && Origin(start, Next(i, n), n) == Next(Origin(start, i, n), n)
  {
  }

  lemma RotatedIsAPermutation(points: seq<Fraction>, start: nat)
    requires start <= |points|
    ensures multiset(Rotated(points, start)) == multiset(points)
  {
    assert points == points[..start] + points[start..];
  }

  /** How far the cycle turns about the centre at one step: positive is clockwise on screen. */
  function Turn(cycle: seq<Fraction>, i: nat, centre: Fraction): real
    requires i < |cycle|
  {
    Cross(From(centre, cycle[i]), From(centre, cycle[Next(i, |cycle|)]))
  }

  /**
    The cycle has the clicked points and no others, starts at one nearest the origin, and never turns
    counter-clockwise about the centroid, the step from the last corner back to the first included.
   */
  lemma OrderedCycleIsClockwise(points: seq<Fraction>)
    requires points != []
    ensures var cycle := OrderedCycle(points);
            var centre := Centroid(points);
            && multiset(cycle) == multiset(points)
            && (forall j :: 0 <= j < |cycle| ==> Key(cycle[0]) <= Key(cycle[j]))
            && (forall i :: 0 <= i < |cycle| ==> Turn(cycle, i, centre) >= 0.0)
  {
    hide Centroid, SortByAngle, TiedWith, Key, Turn, Sorted;
    var sorted := SortByAngle(points, Centroid(points));
    SortByAngleIsAStableSort(points, Centroid(points), points[0]);
    var start := FirstLeast(sorted);
    RotatedIsAPermutation(sorted, start);
    forall i | 0 <= i < |sorted| ensures Turn(Rotated(sorted, start), i, Centroid(points)) >= 0.0 {
      RotationOfBalancedTurnsClockwise(sorted, points, start, i);
    }
    RotatedAt(sorted, start, 0);
    forall j | 0 <= j < |sorted| ensures Key(Rotated(sorted, start)[0]) <= Key(Rotated(sorted, start)[j]) {
      RotatedAt(sorted, start, j);
    }
  }

  lemma RotationOfBalancedTurnsClockwise(sorted: seq<Fraction>, clicks: seq<Fraction>, start: nat, i: nat)
    requires clicks != [] && multiset(sorted) == multiset(clicks) && Sorted(sorted, Centroid(clicks))
    requires start < |sorted| && i < |sorted|
    ensures Turn(Rotated(sorted, start), i, Centroid(clicks)) >= 0.0
  {
    hide Centroid, Cross, Sorted;
    var centre := Centroid(clicks);
    SpokesBalance(sorted, clicks);
    SortedSpokes(sorted, centre);
    RotatedAt(sorted, start, i);
    RotatedAt(sorted, start, Next(i, |sorted|));
    BalancedCycleNeverTurnsBack(Spokes(sorted, centre), Origin(start, i, |sorted|));
  }

  lemma SortedSpokes(points: seq<Fraction>, centre: Fraction)
    requires Sorted(points, centre)
    ensures SortedVectors(Spokes(points, centre))
  {
    hide Before;
    forall i, j | 0 <= i < j < |points| ensures !Before(Spokes(points, centre)[j], Spokes(points, centre)[i]) {
      assert !Earlier(points[j], points[i], centre);
    }
  }

  // ----- When the order of the clicks does not matter

  /** Any two points at one angle are the same point. */
  ghost predicate TiesAreEqual(points: seq<Fraction>, centre: Fraction) {
    forall i, j :: 0 <= i < |points| && 0 <= j < |points| && SameAngle(points[i], points[j], centre)
        ==> points[i] == points[j]
  }

  lemma {:induction false} SortedIsUnique(a: seq<Fraction>, b: seq<Fraction>, centre: Fraction)
    requires Sorted(a, centre) && Sorted(b, centre) && multiset(a) == multiset(b) && TiesAreEqual(a, centre)
    ensures a == b
  {
    hide Sorted, TiesAreEqual;
    assert |a| == |multiset(a)| == |multiset(b)| == |b|;
    if a != [] {
      SortedHeadsAgree(a, b, centre);
      SortedTail(a, centre);
      SortedTail(b, centre);
      TiesAreEqualTail(a, centre);
      MultisetTail(a);
      MultisetTail(b);
      SortedIsUnique(a[1..], b[1..], centre);
      assert a == [a[0]] + a[1..] && b == [b[0]] + b[1..];
    }
  }

  lemma SortedTail(points: seq<Fraction>, centre: Fraction)
    requires points != [] && Sorted(points, centre)
    ensures Sorted(points[1..], centre)
  {
    hide Earlier;
  }

  lemma TiesAreEqualTail(points: seq<Fraction>, centre: Fraction)
    requires points != [] && TiesAreEqual(points, centre)
    ensures TiesAreEqual(points[1..], centre)
  {
    hide SameAngle;
  }

  lemma MultisetTail(points: seq<Fraction>)
    requires points != []
    ensures multiset(points[1..]) == multiset(points) - multiset{points[0]}
  {
    MultisetWithout(points, 0);
    assert points[..0] + points[1..] == points[1..];
  }

  lemma SortedHeadsAgree(a: seq<Fraction>, b: seq<Fraction>, centre: Fraction)
    requires |a| == |b| > 0
    requires Sorted(a, centre) && Sorted(b, centre) && multiset(a) == multiset(b) && TiesAreEqual(a, centre)
    ensures a[0] == b[0]
  {
    hide Earlier;
    assert a[0] in multiset(b) && b[0] in multiset(a);
    var i :| 0 <= i < |b| && b[i] == a[0];
    var j :| 0 <= j < |a| && a[j] == b[0];
    WeakOrder(a[0], a[0], a[0], centre);
    WeakOrder(b[0], b[0], b[0], centre);
    assert SameAngle(a[0], a[j], centre);
  }

  lemma {:induction false} SortedIsFixed(points: seq<Fraction>, centre: Fraction)
    requires Sorted(points, centre)
    ensures SortByAngle(points, centre) == points
  {
    if points != [] {
      SortedIsFixed(points[..|points| - 1], centre);
    }
  }

  function Swapped(points: seq<Fraction>, k: nat): seq<Fraction>
    requires k + 1 < |points|
  {
    points[k := points[k + 1]][k + 1 := points[k]]
  }

  lemma SwappingATieKeepsItSorted(points: seq<Fraction>, k: nat, centre: Fraction)
    requires k + 1 < |points| && Sorted(points, centre) && SameAngle(points[k], points[k + 1], centre)
    ensures Sorted(Swapped(points, k), centre) && multiset(Swapped(points, k)) == multiset(points)
  {
  }

  /** Two different points at one angle stand next to each other somewhere in the sorted order. */
  lemma {:induction false} AdjacentTie(points: seq<Fraction>, i: nat, j: nat, centre: Fraction) returns (k: nat)
    requires i < j < |points| && Sorted(points, centre)
    requires SameAngle(points[i], points[j], centre) && points[i] != points[j]
    ensures k + 1 < |points| && SameAngle(points[k], points[k + 1], centre) && points[k] != points[k + 1]
    decreases j - i
  {
    WeakOrder(points[j], points[i], points[i + 1], centre);
    WeakOrder(points[i + 1], points[j], points[i], centre);
    if points[i] != points[i + 1] {
      assert !Earlier(points[i], points[i + 1], centre) by {
        if i + 1 < j {
          WeakOrder(points[i], points[j], points[i + 1], centre);
        }
      }
      k := i;
    } else {
      k := AdjacentTie(points, i + 1, j, centre);
    }
  }

  lemma {:induction false} SameSectorSum(vs: seq<Vector>, sector: int)
    requires vs != [] && forall i :: 0 <= i < |vs| ==> Sector(vs[i]) == sector
    ensures Sector(SumOf(vs)) == sector
    ensures sector == 1 ==> forall i :: 0 <= i < |vs| ==> 0.0 <= vs[i].x <= SumOf(vs).x
  {
    if |vs| > 1 {
      SameSectorSum(vs[..|vs| - 1], sector);
      forall i | 0 <= i < |vs| && sector == 1 ensures 0.0 <= vs[i].x <= SumOf(vs).x {
        if i < |vs| - 1 { assert vs[..|vs| - 1][i] == vs[i]; }
      }
    } else {
      assert SumOf(vs[..0]) == ZERO;
    }
  }

  /** Balanced points cannot all lie at one angle unless they are one point. */
  lemma AllTiedAreAllEqual(points: seq<Fraction>, centre: Fraction)
    requires points != [] && Sorted(points, centre) && SumOf(Spokes(points, centre)) == ZERO
    requires SameAngle(points[0], points[|points| - 1], centre)
    ensures forall i :: 0 <= i < |points| ==> points[i] == centre
  {
    hide Earlier, Cross, Spokes, SumOf, Sorted, SameAngle;
    var vs := Spokes(points, centre);
    forall i | 0 <= i < |points| ensures Sector(vs[i]) == Sector(vs[0]) {
      SortedBetweenTies(points, i, centre);
      TiedShareASector(points[i], points[0], centre);
    }
    SameSectorSum(vs, Sector(vs[0]));
    forall i | 0 <= i < |points| ensures points[i] == centre {
      assert vs[i] == From(centre, points[i]) == ZERO;
    }
  }

  lemma SortedBetweenTies(points: seq<Fraction>, i: nat, centre: Fraction)
    requires i < |points| && Sorted(points, centre) && SameAngle(points[0], points[|points| - 1], centre)
    ensures SameAngle(points[i], points[0], centre)
  {
    hide Earlier;
    var last := |points| - 1;
    WeakOrder(points[0], points[0], points[0], centre);
    if 0 < i < last {
      WeakOrder(points[0], points[last], points[i], centre);
    }
  }

  lemma TiedShareASector(a: Fraction, b: Fraction, centre: Fraction)
    requires SameAngle(a, b, centre)
    ensures Sector(From(centre, a)) == Sector(From(centre, b))
  {
  }

  /** If swapping two neighbours of four yields a rotation of the original, the first and last corner tie already. */
  lemma SwapThatRotates(p: seq<Fraction>, k: nat, s: nat, t: nat)
    requires |p| == 4 && k < 3 && s < 4 && t < 4 && p[k] != p[k + 1]
    requires Rotated(p, s) == Rotated(Swapped(p, k), t)
    ensures p[0] == p[3] || (p[1] == p[2] == p[3] && k == 0) || (p[0] == p[1] == p[2] && k == 2)
  {
    var q := Swapped(p, k);
    forall i: nat | i < 4 ensures p[Origin(s, i, 4)] == q[Origin(t, i, 4)] {
      RotatedAt(p, s, i);
      RotatedAt(q, t, i);
    }
    assert p[Origin(s, 0, 4)] == q[Origin(t, 0, 4)];
    assert p[Origin(s, 1, 4)] == q[Origin(t, 1, 4)];
    assert p[Origin(s, 2, 4)] == q[Origin(t, 2, 4)];
    assert p[Origin(s, 3, 4)] == q[Origin(t, 3, 4)];
  }

  /** The four corners come out the same whatever order they are clicked in iff no two different ones share an angle. */
  lemma ClickOrderIsIrrelevantIff(points: seq<Fraction>)
    requires |points| == 4
    ensures (forall clicks: seq<Fraction> :: multiset(clicks) == multiset(points) && clicks != []
               ==> OrderedCycle(clicks) == OrderedCycle(points))
            <==> TiesAreEqual(points, Centroid(points))
  {
    if TiesAreEqual(points, Centroid(points)) {
      forall clicks: seq<Fraction> | multiset(clicks) == multiset(points) && clicks != []
        ensures OrderedCycle(clicks) == OrderedCycle(points)
      {
        DistinctAnglesFixTheCycle(points, clicks);
      }
    } else {
      var clicks, clicks' := TiesLeakTheClickOrder(points);
    }
  }

  lemma DistinctAnglesFixTheCycle(points: seq<Fraction>, clicks: seq<Fraction>)
    requires points != [] && multiset(clicks) == multiset(points) && clicks != []
    requires TiesAreEqual(points, Centroid(points))
    ensures OrderedCycle(clicks) == OrderedCycle(points)
  {
    var centre := Centroid(points);
    SumsIgnoreOrder(points, clicks);
    SortByAngleIsAStableSort(points, centre, points[0]);
    SortByAngleIsAStableSort(clicks, centre, points[0]);
    var sorted := SortByAngle(points, centre);
    hide SameAngle, Earlier, SortByAngle;
    assert TiesAreEqual(sorted, centre) by {
      forall i | 0 <= i < |sorted| ensures sorted[i] in points {
        assert sorted[i] in multiset(sorted);
      }
    }
    SortedIsUnique(sorted, SortByAngle(clicks, centre), centre);
  }

  lemma TiesLeakTheClickOrder(points: seq<Fraction>) returns (clicks: seq<Fraction>, clicks': seq<Fraction>)
    requires |points| == 4 && !TiesAreEqual(points, Centroid(points))
    ensures |clicks| == |clicks'| == 4 && multiset(clicks) == multiset(points) == multiset(clicks')
    ensures OrderedCycle(clicks) != OrderedCycle(clicks')
  {
    var centre := Centroid(points);
    SortByAngleIsAStableSort(points, centre, points[0]);
    clicks := SortByAngle(points, centre);
    var k := SomeAdjacentTie(points);
    clicks' := Swapped(clicks, k);
    SwappingATieKeepsItSorted(clicks, k, centre);
    SumsIgnoreOrder(clicks, points);
    SumsIgnoreOrder(clicks', points);
    SortedIsFixed(clicks, centre);
    SortedIsFixed(clicks', centre);
    hide SortByAngle, Centroid, Earlier;
    assert Centroid(clicks) == Centroid(clicks') == centre by {
      CentroidFromSums(clicks, points);
      CentroidFromSums(clicks', points);
    }
    if OrderedCycle(clicks) == OrderedCycle(clicks') {
      SwapThatRotates(clicks, k, FirstLeast(clicks), FirstLeast(clicks'));
      SpokesBalance(clicks, points);
      assert SameAngle(clicks[0], clicks[3], centre) by { WeakOrder(clicks[0], clicks[0], clicks[0], centre); }
      AllTiedAreAllEqual(clicks, centre);
      assert false;
    }
  }

  /** Two corners at one angle, all four well inside the image: the order they are clicked in shows. */
  lemma ClickOrderCanShow(points: seq<Fraction>) returns (clicks: seq<Fraction>, clicks': seq<Fraction>)
    requires points == [Fraction(0.6, 0.5), Fraction(0.7, 0.5), Fraction(0.2, 0.6), Fraction(0.5, 0.4)]
    ensures !TiesAreEqual(points, Centroid(points))
    ensures multiset(clicks) == multiset(points) == multiset(clicks') && |clicks| == |clicks'| == 4
    ensures OrderedCycle(clicks) != OrderedCycle(clicks')
  {
    var p3, p2, p1 := points[..3], points[..2], points[..1];
    assert p3[..2] == p2 && p2[..1] == p1 && p1[..0] == [];
    assert SumX(p1) == 0.6 && SumY(p1) == 0.5;
    assert SumX(p2) == 1.3 && SumY(p2) == 1.0;
    assert SumX(p3) == 1.5 && SumY(p3) == 1.6;
    assert Centroid(points) == Fraction(0.5, 0.5);
    hide Centroid, OrderedCycle;
    assert SameAngle(points[0], points[1], Fraction(0.5, 0.5));
    clicks, clicks' := TiesLeakTheClickOrder(points);
  }

  lemma CentroidFromSums(a: seq<Fraction>, b: seq<Fraction>)
    requires |a| == |b| > 0 && SumX(a) == SumX(b) && SumY(a) == SumY(b)
    ensures Centroid(a) == Centroid(b)
  {
  }

  lemma SomeAdjacentTie(points: seq<Fraction>) returns (k: nat)
    requires points != [] && !TiesAreEqual(points, Centroid(points))
    ensures var centre := Centroid(points);
            var sorted := SortByAngle(points, centre);
            k + 1 < |sorted| && SameAngle(sorted[k], sorted[k + 1], centre) && sorted[k] != sorted[k + 1]
  {
    hide SortByAngle, Earlier, Centroid, TiedWith;
    var centre := Centroid(points);
    SortByAngleIsAStableSort(points, centre, points[0]);
    var sorted := SortByAngle(points, centre);
    var i, j :| 0 <= i < |points| && 0 <= j < |points| && SameAngle(points[i], points[j], centre)
        && points[i] != points[j];
    assert points[i] in multiset(sorted) && points[j] in multiset(sorted);
    var i' :| 0 <= i' < |sorted| && sorted[i'] == points[i];
    var j' :| 0 <= j' < |sorted| && sorted[j'] == points[j];
    if i' < j' {
      k := AdjacentTie(sorted, i', j', centre);
    } else {
      k := AdjacentTie(sorted, j', i', centre);
    }
  }
}
