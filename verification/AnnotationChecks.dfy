/** The CHECK constraints on `image_annotations` and `centering_measurements`, evaluated as PostgreSQL does. */
module AnnotationChecks {
  import opened Prelude
  import opened Sql
  import opened Viewport
  import opened Centering
  import Angles
  import Quads

  const CORNERS: set<string> := {"bottom_left", "bottom_right", "top_left", "top_right"}

  const EDGES: set<string> := {"bottom", "left", "right", "top"}

  const CORNER_LABELS: set<string> :=
    {"chipping", "clean", "crease", "dent", "layering", "rounding", "unknown", "whitening"}

  const EDGE_LABELS: set<string> :=
    {"chipping", "clean", "dent", "layering", "notching", "rough_cut", "unknown", "whitening"}

  const SURFACE_LABELS: set<string> :=
    {"color_issue", "dent", "factory_defect", "gloss_issue", "indentation", "print_dot", "print_line",
     "registration_issue", "scratch", "scuff", "stain", "unknown"}

  const NO_DEFECT_LABELS: set<string> := {"clean", "unknown"}

  const SEVERITIES: set<string> := {"minor", "moderate", "severe"}

  const REPRESENTATIONS: set<string> := {"normalized", "original"}

  /**
    A marker as it is offered for storage; `finding` is the column `label`. NOT NULL columns are plain; `None`
    is NULL.
   */
  datatype Marker = Marker(
    kind: string, region: Option<string>, finding: string, severity: Option<string>, confidence: real,
    boxX: Option<real>, boxY: Option<real>, boxWidth: Option<real>, boxHeight: Option<real>,
    annotator: string, representation: string)

  // ----- The CHECKs, clause by clause

  function KindRegionAndLabel(m: Marker): Tri {
    var kind, finding := Some(m.kind), Some(m.finding);
    Or(Or(And(And(Equals(kind, "corner"), In(m.region, CORNERS)), In(finding, CORNER_LABELS)),
          And(And(Equals(kind, "edge"), In(m.region, EDGES)), In(finding, EDGE_LABELS))),
       And(And(Equals(kind, "surface"), IsNull(m.region)), In(finding, SURFACE_LABELS)))
  }

  function SeverityPairing(m: Marker): Tri {
    Same(In(Some(m.finding), NO_DEFECT_LABELS), IsNull(m.severity))
  }

  function SeverityIsKnown(m: Marker): Tri {
    Or(IsNull(m.severity), In(m.severity, SEVERITIES))
  }

  function UnitIntervalCheck(column: Option<real>): Tri {
    And(AtLeast(column, Some(0.0)), AtLeast(Some(1.0), column))
  }

  function NumNulls(m: Marker): nat {
    (if m.boxX.None? then 1 else 0) + (if m.boxY.None? then 1 else 0)
    + (if m.boxWidth.None? then 1 else 0) + (if m.boxHeight.None? then 1 else 0)
  }

  function BoxIsWholeOrAbsent(m: Marker): Tri {
    Of(NumNulls(m) in {0, 4})
  }

  function Extent(start: Option<real>, length: Option<real>): Tri {
    And(And(AtLeast(start, Some(0.0)), GreaterThan(length, Some(0.0))), AtLeast(Some(1.0), Sum(start, length)))
  }

  function BoxLiesInside(m: Marker): Tri {
    Or(IsNull(m.boxX), And(Extent(m.boxX, m.boxWidth), Extent(m.boxY, m.boxHeight)))
  }

  /** The grammar `^[a-z0-9][a-z0-9_-]*$`. */
  predicate IsOpaque(annotator: string) {
    && annotator != []
    && annotator[0] !in {'_', '-'}
    && forall i :: 0 <= i < |annotator|
         ==> 'a' <= annotator[i] <= 'z' || '0' <= annotator[i] <= '9' || annotator[i] in {'_', '-'}
  }

  function RepresentationIsKnown(m: Marker): Tri {
    In(Some(m.representation), REPRESENTATIONS)
  }

  function OnlyASurfaceMarksTheOriginal(m: Marker): Tri {
    Or(Equals(Some(m.kind), "surface"), Equals(Some(m.representation), "normalized"))
  }

  /** Every CHECK but the two whose wording the revisions call load-bearing. */
  predicate OtherChecks(m: Marker) {
    && Passes(SeverityPairing(m))
    && Passes(SeverityIsKnown(m))
    && Passes(UnitIntervalCheck(Some(m.confidence)))
    && Passes(BoxLiesInside(m))
    && Passes(Of(IsOpaque(m.annotator)))
    && Passes(RepresentationIsKnown(m))
    && Passes(OnlyASurfaceMarksTheOriginal(m))
  }

  predicate Admitted(m: Marker) {
    Passes(IsTrue(KindRegionAndLabel(m))) && Passes(BoxIsWholeOrAbsent(m)) && OtherChecks(m)
  }

  // ----- What the product means by a marker, with no NULL logic in it

  // The words are spelled out again here, so that a CHECK that lost or gained one would not agree.

  predicate AssertsADefect(finding: string) {
    finding != "clean" && finding != "unknown"
  }

  predicate IsSeverity(severity: string) {
    severity == "minor" || severity == "moderate" || severity == "severe"
  }

  /** Where a corner is and what may be wrong with it. */
  predicate CornerAgrees(region: Option<string>, finding: string) {
    && (region == Some("top_left") || region == Some("top_right")
        || region == Some("bottom_left") || region == Some("bottom_right"))
    && (finding == "clean" || finding == "unknown" || finding == "chipping" || finding == "crease" || finding == "dent"
        || finding == "layering" || finding == "rounding" || finding == "whitening")
  }

  predicate EdgeAgrees(region: Option<string>, finding: string) {
    && (region == Some("top") || region == Some("right") || region == Some("bottom") || region == Some("left"))
    && (finding == "clean" || finding == "unknown" || finding == "chipping" || finding == "dent"
        || finding == "layering"
        || finding == "notching" || finding == "rough_cut" || finding == "whitening")
  }

  /** A surface has no region, and nothing there is ever called clean. */
  predicate SurfaceAgrees(region: Option<string>, finding: string) {
    && region == None
    && (finding == "unknown" || finding == "color_issue" || finding == "dent" || finding == "factory_defect"
        || finding == "gloss_issue" || finding == "indentation" || finding == "print_dot" || finding == "print_line"
        || finding == "registration_issue" || finding == "scratch" || finding == "scuff" || finding == "stain")
  }

  predicate Agrees(kind: string, region: Option<string>, finding: string) {
    || (kind == "corner" && CornerAgrees(region, finding))
    || (kind == "edge" && EdgeAgrees(region, finding))
    || (kind == "surface" && SurfaceAgrees(region, finding))
  }

  predicate IsLowerOrDigit(c: char) {
    'a' <= c <= 'z' || '0' <= c <= '9'
  }

  /** A pseudonym: nothing an address or a full name could be written with. */
  predicate IsPseudonym(annotator: string) {
    && annotator != "" && IsLowerOrDigit(annotator[0])
    && forall c :: c in annotator ==> IsLowerOrDigit(c) || c == '_' || c == '-'
  }

  predicate HasBox(m: Marker, box: Box) {
    m.boxX == Some(box.x) && m.boxY == Some(box.y) && m.boxWidth == Some(box.width) && m.boxHeight == Some(box.height)
  }

  predicate HasNoBox(m: Marker) {
    m.boxX.None? && m.boxY.None? && m.boxWidth.None? && m.boxHeight.None?
  }

  /** A box with area inside the unit square. */
  predicate InUnitSquare(box: Box) {
    && box.x >= 0.0 && box.width > 0.0 && box.x + box.width <= 1.0
    && box.y >= 0.0 && box.height > 0.0 && box.y + box.height <= 1.0
  }

  ghost predicate BoxWellFormed(m: Marker) {
    HasNoBox(m) || exists box: Box :: HasBox(m, box) && InUnitSquare(box)
  }

  predicate RestWellFormed(m: Marker) {
    && (if AssertsADefect(m.finding) then m.severity.Some? && IsSeverity(m.severity.value) else m.severity.None?)
    && 0.0 <= m.confidence <= 1.0
    && IsPseudonym(m.annotator)
    && (m.representation == "normalized" || (m.representation == "original" && m.kind == "surface"))
  }

  ghost predicate WellFormed(m: Marker) {
    Agrees(m.kind, m.region, m.finding) && BoxWellFormed(m) && RestWellFormed(m)
  }

  // ----- The two agree

  lemma KindsDiffer()
    ensures "corner" != "edge" && "corner" != "surface" && "edge" != "surface" && "normalized" != "original"
  {
    assert |"corner"| == 6 && |"edge"| == 4 && |"surface"| == 7 && |"normalized"| == 10 && |"original"| == 8;
  }

  lemma BoxChecksMeanABox(m: Marker)
    ensures Passes(BoxIsWholeOrAbsent(m)) && Passes(BoxLiesInside(m)) <==> BoxWellFormed(m)
  {
    if m.boxX.Some? && m.boxY.Some? && m.boxWidth.Some? && m.boxHeight.Some? {
      var box := Box(m.boxX.value, m.boxY.value, m.boxWidth.value, m.boxHeight.value);
      assert HasBox(m, box);
      assert Passes(BoxLiesInside(m)) <==> InUnitSquare(box);
    }
  }

  lemma KindCheckMeansAgreement(m: Marker)
    ensures Passes(IsTrue(KindRegionAndLabel(m))) <==> Agrees(m.kind, m.region, m.finding)
  {
    KindsDiffer();
    VocabulariesAgree(m.region, m.finding);
    hide CORNERS, EDGES, CORNER_LABELS, EDGE_LABELS, SURFACE_LABELS, CornerAgrees, EdgeAgrees, SurfaceAgrees;
  }

  lemma VocabulariesAgree(region: Option<string>, finding: string)
    ensures CornerAgrees(region, finding) <==> region.Some? && region.value in CORNERS && finding in CORNER_LABELS
    ensures EdgeAgrees(region, finding) <==> region.Some? && region.value in EDGES && finding in EDGE_LABELS
    ensures SurfaceAgrees(region, finding) <==> region == None && finding in SURFACE_LABELS
  {
  }

  lemma OpaqueMeansPseudonym(annotator: string)
    ensures IsOpaque(annotator) <==> IsPseudonym(annotator)
  {
    if IsPseudonym(annotator) {
      forall i | 0 <= i < |annotator| ensures annotator[i] in annotator { }
    }
  }

  /** The conjunction of the CHECKs admits exactly the well-formed markers. */
  lemma ChecksAdmitExactlyTheWellFormed(m: Marker)
    ensures Admitted(m) <==> WellFormed(m)
  {
    KindsDiffer();
    KindCheckMeansAgreement(m);
    BoxChecksMeanABox(m);
    OpaqueMeansPseudonym(m.annotator);
    hide KindRegionAndLabel, Agrees, BoxLiesInside, BoxIsWholeOrAbsent, BoxWellFormed, IsOpaque, IsPseudonym;
  }

  // ----- Why the wording is load-bearing

  /** Without the trailing `IS TRUE`, the kind check admits, besides, the corners and edges that name no region. */
  lemma WithoutIsTrueARegionMayBeMissing(m: Marker)
    ensures Passes(KindRegionAndLabel(m)) <==>
              || Agrees(m.kind, m.region, m.finding)
              || (m.kind == "corner" && m.region.None? && CornerAgrees(Some("top_left"), m.finding))
              || (m.kind == "edge" && m.region.None? && EdgeAgrees(Some("top"), m.finding))
  {
    KindsDiffer();
    VocabulariesAgree(m.region, m.finding);
    VocabulariesAgree(Some("top_left"), m.finding);
    VocabulariesAgree(Some("top"), m.finding);
    assert "top_left" in CORNERS && "top" in EDGES;
    hide CORNERS, EDGES, CORNER_LABELS, EDGE_LABELS, SURFACE_LABELS, CornerAgrees, EdgeAgrees, SurfaceAgrees;
  }

  lemma IsTrueRefusesMore() returns (m: Marker)
    ensures Passes(KindRegionAndLabel(m)) && Passes(BoxIsWholeOrAbsent(m)) && OtherChecks(m)
    ensures !Admitted(m)
  {
    KindsDiffer();
    m := Marker("corner", None, "clean", None, 0.9, None, None, None, None, "a1", "normalized");
    assert "clean" in CORNER_LABELS && "clean" in NO_DEFECT_LABELS;
    assert IsOpaque("a1");
    hide IsOpaque, CORNER_LABELS, EDGE_LABELS, SURFACE_LABELS;
    assert KindRegionAndLabel(m) == Unknown;
  }

  /** No comparison between two present values is false: what the inside check asks of a partly NULL box. */
  predicate NothingRefutes(m: Marker) {
    && (m.boxX.Some? ==> m.boxX.value >= 0.0)
    && (m.boxY.Some? ==> m.boxY.value >= 0.0)
    && (m.boxWidth.Some? ==> m.boxWidth.value > 0.0)
    && (m.boxHeight.Some? ==> m.boxHeight.value > 0.0)
    && (m.boxX.Some? && m.boxWidth.Some? ==> m.boxX.value + m.boxWidth.value <= 1.0)
    && (m.boxY.Some? && m.boxHeight.Some? ==> m.boxY.value + m.boxHeight.value <= 1.0)
  }

  /**
    Without the `num_nulls` CHECK, a box without `bbox_x` may hold anything and one with it only what nothing
    refutes.
   */
  lemma WithoutNumNullsABoxMayBePartial(m: Marker)
    ensures Passes(BoxLiesInside(m)) <==> m.boxX.None? || NothingRefutes(m)
  {
  }

  lemma NumNullsRefusesMore() returns (m: Marker)
    ensures Passes(IsTrue(KindRegionAndLabel(m))) && OtherChecks(m)
    ensures !Admitted(m)
  {
    KindsDiffer();
    m := Marker("surface", None, "unknown", None, 0.9, None, Some(7.0), Some(-1.0), None, "a1", "normalized");
    assert "unknown" in SURFACE_LABELS && "unknown" in NO_DEFECT_LABELS;
    assert IsOpaque("a1");
    hide IsOpaque, CORNER_LABELS, EDGE_LABELS, SURFACE_LABELS;
  }

  // ----- Measurements

  datatype Measurement = Measurement(horizontal: Option<real>, vertical: Option<real>, confidence: real,
                                     annotator: string)

  function MeasuresSomething(m: Measurement): Tri {
    Or(Not(IsNull(m.horizontal)), Not(IsNull(m.vertical)))
  }

  function RatiosAreUnitIntervals(m: Measurement): Tri {
    And(Or(IsNull(m.horizontal), UnitIntervalCheck(m.horizontal)),
        Or(IsNull(m.vertical), UnitIntervalCheck(m.vertical)))
  }

  predicate MeasurementAdmitted(m: Measurement) {
    && Passes(MeasuresSomething(m)) && Passes(RatiosAreUnitIntervals(m))
    && Passes(UnitIntervalCheck(Some(m.confidence))) && Passes(Of(IsOpaque(m.annotator)))
  }

  /** The measurements the CHECKs admit, with no NULL logic: at least one axis, and every figure a share. */
  lemma AdmittedMeasurementsAreShares(m: Measurement)
    ensures MeasurementAdmitted(m) <==>
              && (m.horizontal.Some? || m.vertical.Some?)
              && (m.horizontal.Some? ==> 0.0 <= m.horizontal.value <= 1.0)
              && (m.vertical.Some? ==> 0.0 <= m.vertical.value <= 1.0)
              && 0.0 <= m.confidence <= 1.0 && IsPseudonym(m.annotator)
  {
    OpaqueMeansPseudonym(m.annotator);
    hide IsOpaque, IsPseudonym;
  }

  predicate ReadingAdmitted(reading: Reading, confidence: real, annotator: string) {
    MeasurementAdmitted(Measurement(reading.horizontal, reading.vertical, confidence, annotator))
  }

  // ----- End to end: what the tool makes, the schema takes

  /** The box of a marker drawn on screen. */
  function WithBox(m: Marker, box: Option<Box>): Marker {
    match box
    case None => m.(boxX := None, boxY := None, boxWidth := None, boxHeight := None)
    case Some(b) => m.(boxX := Some(b.x), boxY := Some(b.y), boxWidth := Some(b.width), boxHeight := Some(b.height))
  }

  /**
    After any gestures, a drag between any two points of the screen, on the image or off it, gives a
    box the schema accepts, or none.
   */
  lemma EveryDragIsStorable(gestures: seq<Gesture>, frame: Size, image: Size, from: Size, to: Size, m: Marker)
    requires Positive(frame) && Positive(image)
    ensures var view := Run(gestures, frame, image);
            var drawn := WithBox(m, BoxFrom(FractionAt(view, image, from), FractionAt(view, image, to)));
            Passes(BoxIsWholeOrAbsent(drawn)) && Passes(BoxLiesInside(drawn))
  {
    var view := Run(gestures, frame, image);
    var a, b := FractionAt(view, image, from), FractionAt(view, image, to);
    FractionAtStaysInTheUnitSquare(view, image, from);
    FractionAtStaysInTheUnitSquare(view, image, to);
    hide Run, FractionAt;
    BoxFromSpansTheDrag(a, b);
    var drawn := WithBox(m, BoxFrom(a, b));
    if BoxFrom(a, b).Some? {
      var box := BoxFrom(a, b).value;
      assert HasBox(drawn, box) && InUnitSquare(box);
    }
    BoxChecksMeanABox(drawn);
  }

  /** The boxes the schema accepts are exactly those some drag inside the unit square makes. */
  lemma StorableBoxesAreDrags(box: Box)
    ensures InUnitSquare(box) <==>
              exists a: Fraction, b: Fraction ::
                0.0 <= a.x <= 1.0 && 0.0 <= a.y <= 1.0 && 0.0 <= b.x <= 1.0 && 0.0 <= b.y <= 1.0
                    && BoxFrom(a, b) == Some(box)
  {
    if InUnitSquare(box) {
      assert BoxFrom(Fraction(box.x, box.y), Fraction(box.x + box.width, box.y + box.height)) == Some(box);
    }
  }

  lemma SharesAreStorable(axes: Axes, left: real, right: real, top: real, bottom: real, confidence: real,
                          annotator: string)
    requires left >= 0.0 && right >= 0.0 && top >= 0.0 && bottom >= 0.0
    requires 0.0 <= confidence <= 1.0 && IsOpaque(annotator)
    ensures Ratios(axes, left, right, top, bottom).Some? ==>
              ReadingAdmitted(Ratios(axes, left, right, top, bottom).value, confidence, annotator)
  {
    ShareIsAUnitInterval(left, right);
    ShareIsAUnitInterval(top, bottom);
  }

  lemma ShareIsAUnitInterval(a: real, b: real)
    requires a >= 0.0 && b >= 0.0
    ensures a + b > 0.0 ==> 0.0 <= a / (a + b) <= 1.0
  {
    if a + b > 0.0 {
      var share := a / (a + b);
      assert share * (a + b) == a;
      Angles.SignOfProduct(share, a + b);
      Angles.SignOfProduct(1.0 - share, a + b);
    }
  }

  /** Every reading the box form gives is stored. */
  lemma EveryBoxReadingIsStorable(box: Box, axes: Axes, card: Box, confidence: real, annotator: string)
    requires 0.0 <= confidence <= 1.0 && IsOpaque(annotator)
    ensures CenteringFrom(box, axes, card).Some? ==>
              ReadingAdmitted(CenteringFrom(box, axes, card).value, confidence, annotator)
  {
    SharesAreStorable(axes,
                      Max(0.0, box.x - card.x), Max(0.0, card.x + card.width - (box.x + box.width)),
                      Max(0.0, box.y - card.y), Max(0.0, card.y + card.height - (box.y + box.height)), confidence,
                      annotator);
  }

  /** Every reading the quadrilateral form gives is stored, however the corners were clicked. */
  lemma EveryQuadReadingIsStorable(inner: Quads.Quad, outer: Quads.Quad, axes: Axes, image: Size, lengths: Lengths,
                                   confidence: real, annotator: string)
    requires AreLengths(lengths, outer, image) && 0.0 <= confidence <= 1.0 && IsOpaque(annotator)
    ensures CenteringFromQuads(inner, outer, axes, image, lengths).Some? ==>
              ReadingAdmitted(CenteringFromQuads(inner, outer, axes, image, lengths).value, confidence, annotator)
  {
    LengthsAreNonNegative(lengths, outer, image);
    BorderIsNonNegative(inner, outer, 0, image, lengths.top);
    BorderIsNonNegative(inner, outer, 1, image, lengths.right);
    BorderIsNonNegative(inner, outer, 2, image, lengths.bottom);
    BorderIsNonNegative(inner, outer, 3, image, lengths.left);
    hide Border, Ratios, AreLengths, IsOpaque, ReadingAdmitted;
    SharesAreStorable(axes, Border(inner, outer, 3, image, lengths.left), Border(inner, outer, 1, image, lengths.right),
                      Border(inner, outer, 0, image, lengths.top), Border(inner, outer, 2, image, lengths.bottom),
                      confidence, annotator);
  }

  lemma BorderIsNonNegative(inner: Quads.Quad, outer: Quads.Quad, side: nat, image: Size, len: real)
    requires len >= 0.0
    ensures Border(inner, outer, side, image, len) >= 0.0
  {
    var distance := Border(inner, outer, side, image, len);
    if len > 0.0 {
      assert distance * len >= 0.0;
      Angles.SignOfProduct(distance, len);
    }
  }

  /** And nothing else is storable: each admitted pair of ratios is the reading of some box in the whole artifact. */
  lemma StorableReadingsAreBoxReadings(reading: Reading, confidence: real, annotator: string)
    returns (box: Box, axes: Axes)
    requires ReadingAdmitted(reading, confidence, annotator)
    ensures CenteringFrom(box, axes, Box(0.0, 0.0, 1.0, 1.0)) == Some(reading)
  {
    var h := if reading.horizontal.Some? then reading.horizontal.value else 0.5;
    var v := if reading.vertical.Some? then reading.vertical.value else 0.5;
    box, axes := Box(h / 2.0, v / 2.0, 0.5, 0.5), Axes(reading.horizontal.Some?, reading.vertical.Some?);
    assert 0.0 <= h <= 1.0 && 0.0 <= v <= 1.0;
    HalfShare(h, box.x, 0.5 - h / 2.0);
    HalfShare(v, box.y, 0.5 - v / 2.0);
    assert CenteringFrom(box, axes, Box(0.0, 0.0, 1.0, 1.0))
        == Ratios(axes, box.x, 0.5 - h / 2.0, box.y, 0.5 - v / 2.0);
  }

  lemma HalfShare(h: real, before: real, after: real)
    requires before == h / 2.0 && after == 0.5 - before
    ensures before + after == 0.5 && before / (before + after) == h
  {
    var share := before / (before + after);
    assert share * (before + after) == before;
  }
}
