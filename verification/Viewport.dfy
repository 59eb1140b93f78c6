/** Pan and zoom as arithmetic: a view is the affine map `frame = image * scale + offset`. */
module Viewport {

  const MAX_SCALE: real := 8.0

  datatype Size = Size(width: real, height: real)

  datatype View = View(scale: real, x: real, y: real)

  /** A position measured in image widths and image heights, so that (1, 1) is the far corner. */
  datatype Fraction = Fraction(x: real, y: real)

  function Min(a: real, b: real): real { if a <= b then a else b }

  function Max(a: real, b: real): real { if a >= b then a else b }

  function Abs(a: real): real { if a >= 0.0 then a else -a }

  predicate Positive(size: Size) {
    size.width > 0.0 && size.height > 0.0
  }

  // ----- The source's functions

  function FitScale(frame: Size, image: Size): real {
    if image.width <= 0.0 || image.height <= 0.0 || frame.width <= 0.0 || frame.height <= 0.0 then 1.0
    else Min(frame.width / image.width, frame.height / image.height)
  }

  function ClampScale(scale: real, frame: Size, image: Size): real {
    Min(MAX_SCALE, Max(FitScale(frame, image), scale))
  }

  function ClampAxis(offset: real, frameLength: real, contentLength: real): real {
    if contentLength <= frameLength then (frameLength - contentLength) / 2.0
    else Min(0.0, Max(frameLength - contentLength, offset))
  }

  /** How long the scaled image is along one axis, in frame pixels. */
  function Content(length: real, scale: real): real {
    length * scale
  }

  /** The scale a factor asks for, before any limit. */
  function Magnified(scale: real, factor: real): real {
    scale * factor
  }

  function Ratio(scale': real, scale: real): real
    requires scale != 0.0
  {
    scale' / scale
  }

  function Clamp(view: View, frame: Size, image: Size): View {
    var scale := ClampScale(view.scale, frame, image);
    View(scale,
         ClampAxis(view.x, frame.width, Content(image.width, scale)),
         ClampAxis(view.y, frame.height, Content(image.height, scale)))
  }

  function Fitted(frame: Size, image: Size): View {
    Clamp(View(FitScale(frame, image), 0.0, 0.0), frame, image)
  }

  /** Where an offset has to go for the point under `focus` to stay there. */
  function Pinned(offset: real, focus: real, ratio: real): real {
    focus - (focus - offset) * ratio
  }

  function ZoomAt(view: View, factor: real, focus: Size, frame: Size, image: Size): View
    requires view.scale > 0.0
  {
    var scale := ClampScale(Magnified(view.scale, factor), frame, image);
    var ratio := Ratio(scale, view.scale);
    Clamp(View(scale, Pinned(view.x, focus.width, ratio), Pinned(view.y, focus.height, ratio)), frame, image)
  }

  function Zoom(view: View, factor: real, frame: Size, image: Size): View
    requires view.scale > 0.0
  {
    ZoomAt(view, factor, Size(frame.width / 2.0, frame.height / 2.0), frame, image)
  }

  function Pan(view: View, dx: real, dy: real, frame: Size, image: Size): View {
    Clamp(View(view.scale, view.x + dx, view.y + dy), frame, image)
  }

  function ActualSize(view: View, frame: Size, image: Size): View
    requires view.scale > 0.0
  {
    Zoom(view, 1.0 / view.scale, frame, image)
  }

  function UnitInterval(value: real): real {
    Min(1.0, Max(0.0, value))
  }

  /** The image coordinate, in pixels along one axis, that lies under a frame coordinate. */
  function ImageAt(offset: real, scale: real, point: real): real
    requires scale > 0.0
  {
    (point - offset) / scale
  }

  function FractionAt(view: View, image: Size, point: Size): Fraction
    requires view.scale > 0.0 && Positive(image)
  {
    Fraction(UnitInterval(ImageAt(view.x, view.scale, point.width) / image.width),
             UnitInterval(ImageAt(view.y, view.scale, point.height) / image.height))
  }

  // ----- What a view may be

  /** Centred when the content fits the frame, otherwise covering the frame entirely. */
  predicate Placed(offset: real, frameLength: real, contentLength: real) {
    if contentLength <= frameLength then offset == (frameLength - contentLength) / 2.0
    else frameLength - contentLength <= offset <= 0.0
  }

  predicate Legal(view: View, frame: Size, image: Size) {
    && Min(FitScale(frame, image), MAX_SCALE) <= view.scale <= MAX_SCALE
    && Placed(view.x, frame.width, Content(image.width, view.scale))
    && Placed(view.y, frame.height, Content(image.height, view.scale))
  }

  // ----- Gestures and runs

  datatype Gesture =
    | FitToFrame
    | WheelZoom(factor: real, focus: Size)
    | KeyZoom(factor: real)
    | Drag(dx: real, dy: real)
    | OneToOne

  function Apply(view: View, gesture: Gesture, frame: Size, image: Size): View
    requires view.scale > 0.0
  {
    match gesture
    case FitToFrame => Fitted(frame, image)
    case WheelZoom(factor, focus) => ZoomAt(view, factor, focus, frame, image)
    case KeyZoom(factor) => Zoom(view, factor, frame, image)
    case Drag(dx, dy) => Pan(view, dx, dy, frame, image)
    case OneToOne => ActualSize(view, frame, image)
  }

  /** Whatever the view was, one gesture makes it legal. */
  lemma ApplyIsLegal(view: View, gesture: Gesture, frame: Size, image: Size)
    requires view.scale > 0.0 && Positive(frame) && Positive(image)
    ensures Legal(Apply(view, gesture, frame, image), frame, image)
    ensures Apply(view, gesture, frame, image).scale > 0.0
  {
    var after := Apply(view, gesture, frame, image);
    assert exists v: View :: after == Clamp(v, frame, image) by {
      if gesture.FitToFrame? {
        assert after == Clamp(View(FitScale(frame, image), 0.0, 0.0), frame, image);
      }
    }
    var v: View :| after == Clamp(v, frame, image);
    ClampIsLegal(v, frame, image);
  }

  lemma FitScalePositive(frame: Size, image: Size)
    ensures FitScale(frame, image) > 0.0
  {
  }

  lemma ClampIsLegal(view: View, frame: Size, image: Size)
    ensures Legal(Clamp(view, frame, image), frame, image)
    ensures Clamp(view, frame, image).scale > 0.0
  {
    FitScalePositive(frame, image);
  }

  /** The views reachable from the fitted one, gesture after gesture. */
  function Run(gestures: seq<Gesture>, frame: Size, image: Size): (view: View)
    requires Positive(frame) && Positive(image)
    ensures view.scale > 0.0 && Legal(view, frame, image)
    decreases |gestures|
  {
    if gestures == [] then
      ClampIsLegal(View(FitScale(frame, image), 0.0, 0.0), frame, image);
      Fitted(frame, image)
    else
      var before := Run(gestures[..|gestures| - 1], frame, image);
      ApplyIsLegal(before, gestures[|gestures| - 1], frame, image);
      Apply(before, gestures[|gestures| - 1], frame, image)
  }

  // ----- The clamp

  lemma AxisPlacedIffFixed(offset: real, frameLength: real, contentLength: real)
    ensures Placed(offset, frameLength, contentLength) <==> ClampAxis(offset, frameLength, contentLength) == offset
  {
  }

  lemma ScaleInRangeIffFixed(scale: real, frame: Size, image: Size)
    ensures ClampScale(scale, frame, image) == scale <==> Min(FitScale(frame, image), MAX_SCALE) <= scale <= MAX_SCALE
  {
  }

  /** The legal views are exactly the fixed points of the clamp. */
  lemma LegalIffClampFixesIt(view: View, frame: Size, image: Size)
    ensures Legal(view, frame, image) <==> Clamp(view, frame, image) == view
  {
    hide FitScale;
    ScaleInRangeIffFixed(view.scale, frame, image);
    AxisPlacedIffFixed(view.x, frame.width, Content(image.width, view.scale));
    AxisPlacedIffFixed(view.y, frame.height, Content(image.height, view.scale));
  }

  lemma ClampIsIdempotent(view: View, frame: Size, image: Size)
    ensures Clamp(Clamp(view, frame, image), frame, image) == Clamp(view, frame, image)
  {
    ClampIsLegal(view, frame, image);
    LegalIffClampFixesIt(Clamp(view, frame, image), frame, image);
  }

  /** On each axis the clamp moves an offset no further than any legal offset is away. */
  lemma ClampIsTheNearestLegalOffset(offset: real, legal: real, frameLength: real, contentLength: real)
    requires Placed(legal, frameLength, contentLength)
    ensures Placed(ClampAxis(offset, frameLength, contentLength), frameLength, contentLength)
    ensures Abs(ClampAxis(offset, frameLength, contentLength) - offset) <= Abs(legal - offset)
    ensures Abs(ClampAxis(offset, frameLength, contentLength) - offset) == Abs(legal - offset)
            ==> ClampAxis(offset, frameLength, contentLength) == legal
  {
  }

  /** `actualSize` reaches one artifact pixel per CSS pixel iff the image is no smaller than that when fitted. */
  lemma ActualSizeIsOneToOneIff(view: View, frame: Size, image: Size)
    requires view.scale > 0.0
    ensures ActualSize(view, frame, image).scale == 1.0 <==> FitScale(frame, image) <= 1.0
  {
    assert view.scale * (1.0 / view.scale) == 1.0;
  }

  // ----- Zooming about a point

  /** An image smaller than its frame stays at the fitted scale, here twice its size. */
  lemma ActualSizeMissesASmallImage(frame: Size, image: Size)
    requires frame == Size(100.0, 100.0) && image == Size(50.0, 50.0)
    ensures Run([OneToOne], frame, image).scale == 2.0
  {
    assert FitScale(frame, image) == 2.0;
    assert [OneToOne][..0] == [];
  }

  lemma MulMonotone(a: real, b: real, k: real)
    requires a <= b && k >= 0.0
    ensures a * k <= b * k
  {
  }

  /** On a covered axis, zooming in about a point of the frame leaves the frame covered. */
  lemma PinnedStaysPlaced(offset: real, focus: real, frameLength: real, contentLength: real, ratio: real)
    requires contentLength > frameLength && Placed(offset, frameLength, contentLength)
    requires 0.0 <= focus <= frameLength && ratio >= 1.0
    ensures contentLength * ratio > frameLength
    ensures Placed(Pinned(offset, focus, ratio), frameLength, contentLength * ratio)
  {
    MulMonotone(frameLength - contentLength, offset, ratio);
    MulMonotone(offset, 0.0, ratio);
    MulMonotone(1.0, ratio, focus);
    MulMonotone(1.0, ratio, frameLength - focus);
    MulMonotone(1.0, ratio, contentLength);
    assert contentLength * ratio >= contentLength;
    calc {
      Pinned(offset, focus, ratio);
      focus - focus * ratio + offset * ratio;
    >= focus - focus * ratio + (frameLength - contentLength) * ratio;
      focus + (frameLength - focus) * ratio - contentLength * ratio;
    }
  }

  /** The scale a zoom ends at: always in range, and never smaller when zooming in. */
  lemma ZoomScale(scale: real, factor: real, frame: Size, image: Size)
    requires scale > 0.0 && Min(FitScale(frame, image), MAX_SCALE) <= scale <= MAX_SCALE
    ensures var scale' := ClampScale(Magnified(scale, factor), frame, image);
            && scale' > 0.0
            && ClampScale(scale', frame, image) == scale'
            && (factor >= 1.0 ==> scale' >= scale && scale' == Min(MAX_SCALE, Magnified(scale, factor)))
  {
    FitScalePositive(frame, image);
    hide FitScale;
    if factor >= 1.0 {
      MulMonotone(1.0, factor, scale);
    }
  }

  lemma RatioScalesContent(length: real, scale: real, scale': real)
    requires scale > 0.0 && scale' > 0.0
    ensures Content(length, scale) * Ratio(scale', scale) == Content(length, scale')
    ensures scale' >= scale ==> Ratio(scale', scale) >= 1.0
  {
    var ratio := Ratio(scale', scale);
    assert ratio * scale == scale';
    assert length * scale * ratio == length * (scale * ratio);
    assert scale' >= scale ==> !(ratio * scale < 1.0 * scale);
  }

  lemma ClampInRange(view: View, frame: Size, image: Size)
    requires ClampScale(view.scale, frame, image) == view.scale
    ensures Clamp(view, frame, image)
            == View(view.scale,
                    ClampAxis(view.x, frame.width, Content(image.width, view.scale)),
                    ClampAxis(view.y, frame.height, Content(image.height, view.scale)))
  {
    hide FitScale, ClampScale, ClampAxis;
  }

  /** Where each axis ends up: the pinned offset put through the clamp for the new content length. */
  lemma ZoomAxes(view: View, factor: real, focus: Size, frame: Size, image: Size)
    requires view.scale > 0.0
    ensures var scale := ClampScale(Magnified(view.scale, factor), frame, image);
            ZoomAt(view, factor, focus, frame, image)
            == View(scale,
                    ClampAxis(Pinned(view.x, focus.width, Ratio(scale, view.scale)), frame.width,
                              Content(image.width, scale)),
                    ClampAxis(Pinned(view.y, focus.height, Ratio(scale, view.scale)), frame.height,
                              Content(image.height, scale)))
  {
    hide FitScale, ClampAxis, Content, Pinned, Magnified, Ratio;
    var scale := ClampScale(Magnified(view.scale, factor), frame, image);
    assert ClampScale(scale, frame, image) == scale;
    hide ClampScale;
    ClampInRange(View(scale, Pinned(view.x, focus.width, Ratio(scale, view.scale)),
                      Pinned(view.y, focus.height, Ratio(scale, view.scale))),
                 frame, image);
  }

  lemma DivideBySame(a: real, b: real, k: real)
    requires k != 0.0
    ensures a / k == b / k <==> a == b
  {
    assert a / k * k == a && b / k * k == b;
  }

  /** The pixel under the focus stays there iff the new offset is the pinned one. */
  lemma KeptIffPinned(offset: real, scale: real, offset': real, scale': real, focus: real)
    requires scale > 0.0 && scale' > 0.0
    ensures ImageAt(offset', scale', focus) == ImageAt(offset, scale, focus)
            <==> offset' == Pinned(offset, focus, Ratio(scale', scale))
  {
    var ratio := Ratio(scale', scale);
    assert ratio * scale == scale';
    assert ratio > 0.0 by {
      if ratio <= 0.0 { MulMonotone(ratio, 0.0, scale); }
    }
    calc {
      (focus - offset) / scale;
      (focus - offset) * ratio / (scale * ratio);
      (focus - offset) * ratio / scale';
    }
    DivideBySame(focus - offset', (focus - offset) * ratio, scale');
  }

  /** Zooming keeps the pixel under the pointer under it exactly when the pinned offset needs no clamping. */
  lemma ZoomKeepsThePointerIff(view: View, factor: real, focus: Size, frame: Size, image: Size)
    requires Positive(frame) && Positive(image) && Legal(view, frame, image) && view.scale > 0.0
    ensures var scale := ClampScale(Magnified(view.scale, factor), frame, image);
            var after := ZoomAt(view, factor, focus, frame, image);
            && scale > 0.0 && after.scale == scale
            && (ImageAt(after.x, scale, focus.width) == ImageAt(view.x, view.scale, focus.width)
                <==> Placed(Pinned(view.x, focus.width, Ratio(scale, view.scale)), frame.width,
                            Content(image.width, scale)))
            && (ImageAt(after.y, scale, focus.height) == ImageAt(view.y, view.scale, focus.height)
                <==> Placed(Pinned(view.y, focus.height, Ratio(scale, view.scale)), frame.height,
                            Content(image.height, scale)))
  {
    hide FitScale, ClampScale, ClampAxis, Placed, Pinned, ZoomAt, Content, Magnified, Ratio, ImageAt;
    ZoomScale(view.scale, factor, frame, image);
    ZoomAxes(view, factor, focus, frame, image);
    var after := ZoomAt(view, factor, focus, frame, image);
    var ratio := Ratio(after.scale, view.scale);
    KeptIffPinned(view.x, view.scale, after.x, after.scale, focus.width);
    KeptIffPinned(view.y, view.scale, after.y, after.scale, focus.height);
    AxisPlacedIffFixed(Pinned(view.x, focus.width, ratio), frame.width, Content(image.width, after.scale));
    AxisPlacedIffFixed(Pinned(view.y, focus.height, ratio), frame.height, Content(image.height, after.scale));
  }

  /** A zoom from the fitted view that does move it: the image is tall, and the pointer off its middle. */
  lemma ZoomCanMoveThePointer(frame: Size, image: Size, focus: Size)
    requires frame == Size(100.0, 100.0) && image == Size(100.0, 200.0) && focus == Size(30.0, 50.0)
    ensures var view := Run([], frame, image);
            var after := ZoomAt(view, 2.0, focus, frame, image);
            && after == Run([WheelZoom(2.0, focus)], frame, image)
            && ImageAt(view.x, view.scale, focus.width) == 10.0
            && after.scale > 0.0 && ImageAt(after.x, after.scale, focus.width) == 30.0
  {
    assert FitScale(frame, image) == 0.5;
    assert Run([], frame, image) == View(0.5, 25.0, 0.0);
    assert ZoomAt(View(0.5, 25.0, 0.0), 2.0, focus, frame, image) == View(1.0, 0.0, -50.0);
  }

  /** Zooming in about a point of the frame never moves the pixel under it, along any axis the image covers. */
  lemma ZoomInIsAMagnifier(view: View, factor: real, focus: Size, frame: Size, image: Size)
    requires Positive(frame) && Positive(image) && Legal(view, frame, image) && view.scale > 0.0
    requires factor >= 1.0
    ensures var after := ZoomAt(view, factor, focus, frame, image);
            && after.scale > 0.0
            && (frame.width < Content(image.width, view.scale) && 0.0 <= focus.width <= frame.width
                ==> && frame.width < Content(image.width, after.scale)
                    && ImageAt(after.x, after.scale, focus.width) == ImageAt(view.x, view.scale, focus.width)
                    && FractionAt(after, image, focus).x == FractionAt(view, image, focus).x)
            && (frame.height < Content(image.height, view.scale) && 0.0 <= focus.height <= frame.height
                ==> && frame.height < Content(image.height, after.scale)
                    && ImageAt(after.y, after.scale, focus.height) == ImageAt(view.y, view.scale, focus.height)
                    && FractionAt(after, image, focus).y == FractionAt(view, image, focus).y)
  {
    hide FitScale, ClampScale, ClampAxis, Placed, Pinned, ZoomAt, Content, Magnified, Ratio, ImageAt, FractionAt;
    ZoomScale(view.scale, factor, frame, image);
    var after := ZoomAt(view, factor, focus, frame, image);
    ZoomKeepsThePointerIff(view, factor, focus, frame, image);
    if frame.width < Content(image.width, view.scale) && 0.0 <= focus.width <= frame.width {
      CoveredAxisZoomIn(image.width, view.scale, after.scale, view.x, focus.width, frame.width);
      FractionFromImageAt(view, after, image, focus);
    }
    if frame.height < Content(image.height, view.scale) && 0.0 <= focus.height <= frame.height {
      CoveredAxisZoomIn(image.height, view.scale, after.scale, view.y, focus.height, frame.height);
      FractionFromImageAt(view, after, image, focus);
    }
  }

  lemma FractionFromImageAt(view: View, after: View, image: Size, focus: Size)
    requires view.scale > 0.0 && after.scale > 0.0 && Positive(image)
    ensures ImageAt(after.x, after.scale, focus.width) == ImageAt(view.x, view.scale, focus.width)
            ==> FractionAt(after, image, focus).x == FractionAt(view, image, focus).x
    ensures ImageAt(after.y, after.scale, focus.height) == ImageAt(view.y, view.scale, focus.height)
            ==> FractionAt(after, image, focus).y == FractionAt(view, image, focus).y
  {
  }

  /**
    The frame is exactly the set of points that can be zoomed into from anywhere: magnifying a covered
    axis keeps every legal offset's pixel in place iff the focus lies inside the frame on that axis.
   */
  lemma MagnifierIffFocusInFrame(focus: real, frameLength: real, contentLength: real, ratio: real)
    requires 0.0 < frameLength < contentLength && ratio > 1.0
    ensures (forall offset: real :: Placed(offset, frameLength, contentLength)
               ==> Placed(Pinned(offset, focus, ratio), frameLength, contentLength * ratio))
            <==> 0.0 <= focus <= frameLength
  {
    if 0.0 <= focus <= frameLength {
      forall offset: real | Placed(offset, frameLength, contentLength)
        ensures Placed(Pinned(offset, focus, ratio), frameLength, contentLength * ratio)
      {
        PinnedStaysPlaced(offset, focus, frameLength, contentLength, ratio);
      }
    } else {
      var worst := if focus < 0.0 then 0.0 else frameLength - contentLength;
      assert Placed(worst, frameLength, contentLength);
      MulMonotone(1.0, ratio, contentLength);
      PinnedEdge(focus, frameLength, contentLength, ratio);
      hide Pinned;
      assert !Placed(Pinned(worst, focus, ratio), frameLength, contentLength * ratio);
    }
  }

  /** Where the edge nearest a focus outside the frame is sent: into the frame. */
  lemma PinnedEdge(focus: real, frameLength: real, contentLength: real, ratio: real)
    requires ratio > 1.0
    ensures focus < 0.0 ==> Pinned(0.0, focus, ratio) > 0.0
    ensures focus > frameLength
            ==> Pinned(frameLength - contentLength, focus, ratio) < frameLength - contentLength * ratio
  {
    if focus < 0.0 {
      NegativeTimesPositive(focus, ratio - 1.0);
      assert Pinned(0.0, focus, ratio) == -(focus * (ratio - 1.0));
    }
    if focus > frameLength {
      NegativeTimesPositive(frameLength - focus, ratio - 1.0);
      assert Pinned(frameLength - contentLength, focus, ratio) - (frameLength - contentLength * ratio)
          == (frameLength - focus) * (ratio - 1.0);
    }
  }

  lemma NegativeTimesPositive(a: real, b: real)
    requires a < 0.0 < b
    ensures a * b < 0.0
  {
  }

  lemma ProductIsZeroIff(a: real, b: real)
    ensures a * b == 0.0 <==> a == 0.0 || b == 0.0
  {
    if a != 0.0 && b != 0.0 {
      assert a * b / b == a;
    }
  }

  /** Where the image stays inside the frame, only the middle of the frame is a fixed point of a zoom. */
  lemma CentredZoomKeepsOnlyTheMiddle(focus: real, frameLength: real, contentLength: real, ratio: real)
    requires contentLength <= frameLength && contentLength * ratio <= frameLength
    ensures Placed(Pinned((frameLength - contentLength) / 2.0, focus, ratio), frameLength, contentLength * ratio)
            <==> (ratio == 1.0 || focus == frameLength / 2.0)
  {
    var pinned := Pinned((frameLength - contentLength) / 2.0, focus, ratio);
    assert pinned - (frameLength - contentLength * ratio) / 2.0 == (focus - frameLength / 2.0) * (1.0 - ratio);
    ProductIsZeroIff(focus - frameLength / 2.0, 1.0 - ratio);
  }

  lemma PinnedTwice(offset: real, focus: real, first: real, second: real)
    ensures Pinned(Pinned(offset, focus, first), focus, second) == Pinned(offset, focus, first * second)
  {
    assert (focus - offset) * first * second == (focus - offset) * (first * second);
  }

  lemma RatiosMultiply(a: real, b: real, c: real)
    requires a > 0.0 && b > 0.0
    ensures Ratio(b, a) * Ratio(c, b) == Ratio(c, a)
  {
    assert b / a * a == b && c / b * b == c;
    calc {
      (b / a) * (c / b) * a;
      (b / a * a) * (c / b);
      b * (c / b);
      c;
    }
    assert c / a * a == c;
    if (b / a) * (c / b) != c / a {
      DivideBySame(((b / a) * (c / b)) * a, c, a);
    }
  }

  /** One covered axis, zoomed in about a frame point: the clamp does nothing. */
  lemma CoveredAxisZoomIn(length: real, scale: real, scale': real, offset: real, focus: real, frameLength: real)
    requires 0.0 < scale <= scale' && 0.0 <= focus <= frameLength < Content(length, scale)
    requires Placed(offset, frameLength, Content(length, scale))
    ensures frameLength < Content(length, scale')
    ensures var pinned := Pinned(offset, focus, Ratio(scale', scale));
            Placed(pinned, frameLength, Content(length, scale'))
            && ClampAxis(pinned, frameLength, Content(length, scale')) == pinned
  {
    hide Content, Pinned, Ratio;
    RatioScalesContent(length, scale, scale');
    PinnedStaysPlaced(offset, focus, frameLength, Content(length, scale), Ratio(scale', scale));
    AxisPlacedIffFixed(Pinned(offset, focus, Ratio(scale', scale)), frameLength, Content(length, scale'));
  }

  /** The offset after two zooms in is the offset after one, along a covered axis. */
  lemma CoveredAxisComposes(length: real, scale: real, scale1: real, scale2: real, offset: real, focus: real,
                            frameLength: real)
    requires 0.0 < scale <= scale1 <= scale2 && 0.0 <= focus <= frameLength < Content(length, scale)
    requires Placed(offset, frameLength, Content(length, scale))
    ensures var first := ClampAxis(Pinned(offset, focus, Ratio(scale1, scale)), frameLength, Content(length, scale1));
            ClampAxis(Pinned(first, focus, Ratio(scale2, scale1)), frameLength, Content(length, scale2))
            == ClampAxis(Pinned(offset, focus, Ratio(scale2, scale)), frameLength, Content(length, scale2))
  {
    CoveredAxisZoomIn(length, scale, scale1, offset, focus, frameLength);
    hide Content, Pinned, Placed, ClampAxis, Ratio;
    PinnedTwice(offset, focus, Ratio(scale1, scale), Ratio(scale2, scale1));
    RatiosMultiply(scale, scale1, scale2);
  }

  /** Two saturating zooms in saturate where their product does. */
  lemma ZoomInScalesCompose(scale: real, first: real, second: real, frame: Size, image: Size)
    requires Min(FitScale(frame, image), MAX_SCALE) <= scale <= MAX_SCALE && scale > 0.0
    requires first >= 1.0 && second >= 1.0
    ensures first * second >= 1.0
    ensures ClampScale(Magnified(ClampScale(Magnified(scale, first), frame, image), second), frame, image)
            == ClampScale(Magnified(scale, first * second), frame, image)
  {
    hide FitScale, ClampScale, Magnified;
    ProductOfZoomsIn(scale, first, second);
    ZoomScale(scale, first, frame, image);
    var once := ClampScale(Magnified(scale, first), frame, image);
    ScaleInRangeIffFixed(once, frame, image);
    ZoomScale(once, second, frame, image);
    ZoomScale(scale, first * second, frame, image);
  }

  lemma ProductOfZoomsIn(scale: real, first: real, second: real)
    requires scale > 0.0 && first >= 1.0 && second >= 1.0
    ensures first * second >= 1.0
    ensures Min(MAX_SCALE, Magnified(Min(MAX_SCALE, Magnified(scale, first)), second))
            == Min(MAX_SCALE, Magnified(scale, first * second))
  {
    MulMonotone(1.0, first, second);
    assert Magnified(scale, first * second) == Magnified(Magnified(scale, first), second);
    MulMonotone(1.0, second, MAX_SCALE);
    if Magnified(scale, first) > MAX_SCALE {
      MulMonotone(MAX_SCALE, Magnified(scale, first), second);
      assert MAX_SCALE <= Magnified(MAX_SCALE, second) <= Magnified(Magnified(scale, first), second);
    }
  }

  /** Two zooms in about one frame point are one zoom by the product, wherever the image covers the frame. */
  lemma ZoomInComposes(view: View, first: real, second: real, focus: Size, frame: Size, image: Size)
    requires Positive(frame) && Positive(image) && Legal(view, frame, image) && view.scale > 0.0
    requires first >= 1.0 && second >= 1.0
    ensures var once := ZoomAt(view, first, focus, frame, image);
            && once.scale > 0.0
            && var twice := ZoomAt(once, second, focus, frame, image);
               var direct := ZoomAt(view, first * second, focus, frame, image);
               && twice.scale == direct.scale
               && (frame.width < Content(image.width, view.scale) && 0.0 <= focus.width <= frame.width
                   ==> twice.x == direct.x)
               && (frame.height < Content(image.height, view.scale) && 0.0 <= focus.height <= frame.height
                   ==> twice.y == direct.y)
  {
    hide FitScale, ClampScale, ClampAxis, Placed, Pinned, ZoomAt, Content, Magnified, Ratio;
    var scale1 := ClampScale(Magnified(view.scale, first), frame, image);
    var scale2 := ClampScale(Magnified(scale1, second), frame, image);
    ZoomScale(view.scale, first, frame, image);
    ScaleInRangeIffFixed(scale1, frame, image);
    ZoomScale(scale1, second, frame, image);
    ZoomInScalesCompose(view.scale, first, second, frame, image);
    ZoomAxes(view, first, focus, frame, image);
    ZoomAxes(ZoomAt(view, first, focus, frame, image), second, focus, frame, image);
    ZoomAxes(view, first * second, focus, frame, image);
    if frame.width < Content(image.width, view.scale) && 0.0 <= focus.width <= frame.width {
      CoveredAxisComposes(image.width, view.scale, scale1, scale2, view.x, focus.width, frame.width);
    }
    if frame.height < Content(image.height, view.scale) && 0.0 <= focus.height <= frame.height {
      CoveredAxisComposes(image.height, view.scale, scale1, scale2, view.y, focus.height, frame.height);
    }
  }

  /** Zooming one axis from `scale` to `scale'` and back again. */
  lemma AxisThereAndBack(length: real, scale: real, scale': real, offset: real, focus: real, frameLength: real)
    requires 0.0 < scale <= scale' && Placed(offset, frameLength, Content(length, scale))
    requires frameLength < Content(length, scale) ==> 0.0 <= focus <= frameLength
    ensures var there := ClampAxis(Pinned(offset, focus, Ratio(scale', scale)), frameLength, Content(length, scale'));
            ClampAxis(Pinned(there, focus, Ratio(scale, scale')), frameLength, Content(length, scale)) == offset
  {
    if frameLength < Content(length, scale) {
      CoveredAxisZoomIn(length, scale, scale', offset, focus, frameLength);
      AxisPlacedIffFixed(offset, frameLength, Content(length, scale));
      assert Pinned(offset, focus, 1.0) == offset;
      assert Ratio(scale, scale) == 1.0;
      hide Content, Pinned, Placed, ClampAxis, Ratio;
      PinnedTwice(offset, focus, Ratio(scale', scale), Ratio(scale, scale'));
      RatiosMultiply(scale, scale', scale);
    }
  }

  lemma MagnifyBack(scale: real, k: real)
    requires k > 0.0
    ensures Magnified(Magnified(scale, k), 1.0 / k) == scale
  {
    var back := 1.0 / k;
    assert k * back == 1.0;
    assert scale * k * back == scale * (k * back);
  }

  /**
    Zooming in by `k` and back out by `1 / k` about one frame point restores the view, unless the maximum cut
    it short.
   */
  lemma ZoomThereAndBack(view: View, k: real, focus: Size, frame: Size, image: Size)
    requires Positive(frame) && Positive(image) && Legal(view, frame, image) && view.scale > 0.0
    requires k >= 1.0 && Magnified(view.scale, k) <= MAX_SCALE
    requires frame.width < Content(image.width, view.scale) ==> 0.0 <= focus.width <= frame.width
    requires frame.height < Content(image.height, view.scale) ==> 0.0 <= focus.height <= frame.height
    ensures ZoomAt(view, k, focus, frame, image).scale == Magnified(view.scale, k) > 0.0
    ensures ZoomAt(ZoomAt(view, k, focus, frame, image), 1.0 / k, focus, frame, image) == view
  {
    hide FitScale, ClampScale, ClampAxis, Placed, Pinned, ZoomAt, Content, Magnified, Ratio;
    var scale' := Magnified(view.scale, k);
    ZoomScale(view.scale, k, frame, image);
    ScaleInRangeIffFixed(view.scale, frame, image);
    MagnifyBack(view.scale, k);
    ZoomAxes(view, k, focus, frame, image);
    ZoomAxes(ZoomAt(view, k, focus, frame, image), 1.0 / k, focus, frame, image);
    AxisThereAndBack(image.width, view.scale, scale', view.x, focus.width, frame.width);
    AxisThereAndBack(image.height, view.scale, scale', view.y, focus.height, frame.height);
  }

  /** Past the maximum the way back is shorter than the way in: the round trip ends at a smaller scale. */
  lemma ZoomThereAndBackOnlyBelowTheMaximum(view: View, k: real, focus: Size, frame: Size, image: Size)
    requires Positive(frame) && Positive(image) && Legal(view, frame, image) && view.scale > 0.0
    requires k >= 1.0 && Magnified(view.scale, k) > MAX_SCALE && FitScale(frame, image) < view.scale
    ensures ZoomAt(view, k, focus, frame, image).scale == MAX_SCALE
    ensures ZoomAt(ZoomAt(view, k, focus, frame, image), 1.0 / k, focus, frame, image).scale < view.scale
  {
    hide FitScale, ClampAxis, Placed, Pinned, ZoomAt, Content, Magnified, Ratio;
    ZoomScale(view.scale, k, frame, image);
    ZoomAxes(view, k, focus, frame, image);
    ZoomAxes(ZoomAt(view, k, focus, frame, image), 1.0 / k, focus, frame, image);
    BackFromTheMaximum(view.scale, k);
  }

  /** At the fitted scale, or kept under it by the maximum, nothing is covered and there is one place to be. */
  lemma FittedViewsAreCentred(view: View, other: View, frame: Size, image: Size)
    requires Positive(frame) && Positive(image) && view.scale == other.scale <= FitScale(frame, image)
    requires Legal(view, frame, image) && Legal(other, frame, image)
    ensures view == other
  {
    FitsAtTheFittedScale(view.scale, frame.width, image.width);
    FitsAtTheFittedScale(view.scale, frame.height, image.height);
    hide Content;
  }

  lemma FitsAtTheFittedScale(scale: real, frameLength: real, length: real)
    requires length > 0.0
    ensures scale <= frameLength / length ==> Content(length, scale) <= frameLength
  {
    var fit := frameLength / length;
    assert fit * length == frameLength;
    if scale <= fit {
      MulMonotone(scale, fit, length);
    }
  }

  /**
    The round trip exactly: it restores the view iff the maximum did not cut it short, or there was no way
    further out.
   */
  lemma ZoomThereAndBackIff(view: View, k: real, focus: Size, frame: Size, image: Size)
    requires Positive(frame) && Positive(image) && Legal(view, frame, image) && view.scale > 0.0 && k >= 1.0
    requires frame.width < Content(image.width, view.scale) ==> 0.0 <= focus.width <= frame.width
    requires frame.height < Content(image.height, view.scale) ==> 0.0 <= focus.height <= frame.height
    ensures ZoomAt(view, k, focus, frame, image).scale > 0.0
    ensures ZoomAt(ZoomAt(view, k, focus, frame, image), 1.0 / k, focus, frame, image) == view
            <==> Magnified(view.scale, k) <= MAX_SCALE || view.scale <= FitScale(frame, image)
  {
    ApplyIsLegal(view, WheelZoom(k, focus), frame, image);
    if Magnified(view.scale, k) <= MAX_SCALE {
      ZoomThereAndBack(view, k, focus, frame, image);
    } else if FitScale(frame, image) < view.scale {
      ZoomThereAndBackOnlyBelowTheMaximum(view, k, focus, frame, image);
    } else {
      BackToTheFittedScale(view, k, focus, frame, image);
      ApplyIsLegal(ZoomAt(view, k, focus, frame, image), WheelZoom(1.0 / k, focus), frame, image);
      hide ZoomAt, Legal, FitScale;
      FittedViewsAreCentred(ZoomAt(ZoomAt(view, k, focus, frame, image), 1.0 / k, focus, frame, image), view, frame,
                            image);
    }
  }

  lemma BackToTheFittedScale(view: View, k: real, focus: Size, frame: Size, image: Size)
    requires Positive(frame) && Positive(image) && Legal(view, frame, image) && view.scale > 0.0 && k >= 1.0
    requires Magnified(view.scale, k) > MAX_SCALE && view.scale <= FitScale(frame, image)
    ensures ZoomAt(view, k, focus, frame, image).scale > 0.0
    ensures ZoomAt(ZoomAt(view, k, focus, frame, image), 1.0 / k, focus, frame, image).scale == view.scale
  {
    hide FitScale, ClampAxis, Placed, Pinned, ZoomAt, Content, Magnified, Ratio;
    ZoomScale(view.scale, k, frame, image);
    ZoomAxes(view, k, focus, frame, image);
    ZoomAxes(ZoomAt(view, k, focus, frame, image), 1.0 / k, focus, frame, image);
    BackFromTheMaximum(view.scale, k);
  }

  lemma BackFromTheMaximum(scale: real, k: real)
    requires k > 0.0 && Magnified(scale, k) > MAX_SCALE
    ensures Magnified(MAX_SCALE, 1.0 / k) < scale
  {
    var back := 1.0 / k;
    assert back * k == 1.0 && back > 0.0;
    assert scale * k * back == scale * (k * back);
    if MAX_SCALE * back >= scale {
      MulMonotone(scale, MAX_SCALE * back, k);
      assert MAX_SCALE * back * k == MAX_SCALE * (back * k);
    }
  }

  // ----- Where each gesture lands

  predicate InScaleRange(scale: real, frame: Size, image: Size) {
    Min(FitScale(frame, image), 8.0) <= scale <= 8.0
  }

  /** Of the scales there are, the one nearest to what was asked for. */
  ghost predicate IsNearestScale(scale: real, wanted: real, frame: Size, image: Size) {
    && InScaleRange(scale, frame, image)
    && forall s: real :: InScaleRange(s, frame, image) ==> Abs(scale - wanted) <= Abs(s - wanted)
  }

  /** Of the offsets that are legal, the one nearest to what was asked for. */
  ghost predicate IsNearestOffset(offset: real, wanted: real, frameLength: real, contentLength: real) {
    && Placed(offset, frameLength, contentLength)
    && forall o: real :: Placed(o, frameLength, contentLength) ==> Abs(offset - wanted) <= Abs(o - wanted)
  }

  lemma ClampedOffsetIsNearest(wanted: real, frameLength: real, contentLength: real)
    ensures IsNearestOffset(ClampAxis(wanted, frameLength, contentLength), wanted, frameLength, contentLength)
  {
  }

  lemma ClampedScaleIsNearest(wanted: real, frame: Size, image: Size)
    ensures IsNearestScale(ClampScale(wanted, frame, image), wanted, frame, image)
  {
    hide FitScale;
  }

  /** The fitted scale is the largest at which both sides of the image fit in the frame. */
  lemma FitScaleIsTheLargestThatFits(scale: real, frame: Size, image: Size)
    requires Positive(frame) && Positive(image)
    ensures scale <= FitScale(frame, image)
            <==> Content(image.width, scale) <= frame.width && Content(image.height, scale) <= frame.height
  {
    FitsIff(scale, frame.width, image.width);
    FitsIff(scale, frame.height, image.height);
  }

  lemma FitsIff(scale: real, frameLength: real, length: real)
    requires length > 0.0
    ensures scale <= frameLength / length <==> Content(length, scale) <= frameLength
  {
    var fit := frameLength / length;
    assert fit * length == frameLength;
    MulMonotoneIff(scale, fit, length);
  }

  lemma MulMonotoneIff(a: real, b: real, k: real)
    requires k > 0.0
    ensures a * k <= b * k <==> a <= b
  {
    if a > b { DivideBySame(a, b, k); MulMonotone(b, a, k); }
    if a <= b { MulMonotone(a, b, k); }
  }

  lemma FitScaleFallsBackToOne(frame: Size, image: Size)
    ensures !(Positive(frame) && Positive(image)) ==> FitScale(frame, image) == 1.0
  {
  }

  /** Two names for a product, kept apart because each means something of its own. */
  lemma ContentAndMagnifiedAreProducts(a: real, b: real)
    ensures Content(a, b) == Magnified(a, b) == a * b
  {
  }

  /** Fitting shows the whole image, centred both ways, at the fitted scale or the maximum. */
  lemma FittingShowsTheWholeImage(view: View, frame: Size, image: Size)
    requires Positive(frame) && Positive(image) && view.scale > 0.0
    ensures var after := Apply(view, FitToFrame, frame, image);
            && after == Run([], frame, image)
            && after.scale == Min(FitScale(frame, image), 8.0)
            && Content(image.width, after.scale) <= frame.width && Content(image.height, after.scale) <= frame.height
            && after.x == (frame.width - Content(image.width, after.scale)) / 2.0
            && after.y == (frame.height - Content(image.height, after.scale)) / 2.0
  {
    var scale := Min(FitScale(frame, image), 8.0);
    assert ClampScale(FitScale(frame, image), frame, image) == scale;
    FitScaleIsTheLargestThatFits(scale, frame, image);
    hide FitScale, ClampScale, Content;
  }

  /**
    A drag moves the image with the hand: the scale stays, and on each axis the offset is the legal one nearest
    to where the hand took it. The pixel that lay under p lies under p + dx exactly when that needs no clamping.
   */
  lemma DragFollowsTheHand(view: View, dx: real, dy: real, p: Size, frame: Size, image: Size)
    requires Positive(frame) && Positive(image) && Legal(view, frame, image) && view.scale > 0.0
    ensures var after := Apply(view, Drag(dx, dy), frame, image);
            && after.scale == view.scale
            && IsNearestOffset(after.x, view.x + dx, frame.width, Content(image.width, view.scale))
            && IsNearestOffset(after.y, view.y + dy, frame.height, Content(image.height, view.scale))
            && (ImageAt(after.x, after.scale, p.width + dx) == ImageAt(view.x, view.scale, p.width)
                <==> Placed(view.x + dx, frame.width, Content(image.width, view.scale)))
            && (ImageAt(after.y, after.scale, p.height + dy) == ImageAt(view.y, view.scale, p.height)
                <==> Placed(view.y + dy, frame.height, Content(image.height, view.scale)))
  {
    ScaleInRangeIffFixed(view.scale, frame, image);
    var w, h := Content(image.width, view.scale), Content(image.height, view.scale);
    var x, y := ClampAxis(view.x + dx, frame.width, w), ClampAxis(view.y + dy, frame.height, h);
    hide FitScale, ClampScale, ClampAxis;
    assert Apply(view, Drag(dx, dy), frame, image) == View(view.scale, x, y);
    ClampedOffsetIsNearest(view.x + dx, frame.width, w);
    ClampedOffsetIsNearest(view.y + dy, frame.height, h);
    AxisPlacedIffFixed(view.x + dx, frame.width, w);
    AxisPlacedIffFixed(view.y + dy, frame.height, h);
    DraggedPixel(view.x, x, dx, view.scale, p.width);
    DraggedPixel(view.y, y, dy, view.scale, p.height);
    hide Placed, IsNearestOffset, Apply, ImageAt;
  }

  lemma DraggedPixel(offset: real, offset': real, d: real, scale: real, p: real)
    requires scale > 0.0
    ensures ImageAt(offset', scale, p + d) == ImageAt(offset, scale, p) <==> offset' == offset + d
  {
    DivideBySame(p + d - offset', p - offset, scale);
  }

  /** The offset that keeps the pixel under `focus` where it is, from one scale to another. */
  predicate Keeps(offset': real, scale': real, offset: real, scale: real, focus: real)
    requires scale' > 0.0 && scale > 0.0
  {
    ImageAt(offset', scale', focus) == ImageAt(offset, scale, focus)
  }

  /**
    Every zoom lands at the scale nearest to the one asked for, and on each axis at the legal offset nearest to
    the one that keeps the pixel under the focus.
   */
  lemma ZoomLandsNearest(view: View, factor: real, focus: Size, frame: Size, image: Size)
    returns (keepX: real, keepY: real)
    requires Positive(frame) && Positive(image) && Legal(view, frame, image) && view.scale > 0.0
    ensures var after := Apply(view, WheelZoom(factor, focus), frame, image);
            && after.scale > 0.0 && IsNearestScale(after.scale, Magnified(view.scale, factor), frame, image)
            && Keeps(keepX, after.scale, view.x, view.scale, focus.width)
            && Keeps(keepY, after.scale, view.y, view.scale, focus.height)
            && IsNearestOffset(after.x, keepX, frame.width, Content(image.width, after.scale))
            && IsNearestOffset(after.y, keepY, frame.height, Content(image.height, after.scale))
  {
    hide FitScale, ClampScale, ClampAxis, Placed, IsNearestOffset, IsNearestScale, ZoomAt, Pinned, ImageAt, Ratio,
      Content, Magnified;
    var after := ZoomAt(view, factor, focus, frame, image);
    ZoomScale(view.scale, factor, frame, image);
    ZoomAxes(view, factor, focus, frame, image);
    ClampedScaleIsNearest(Magnified(view.scale, factor), frame, image);
    keepX := Pinned(view.x, focus.width, Ratio(after.scale, view.scale));
    keepY := Pinned(view.y, focus.height, Ratio(after.scale, view.scale));
    KeptIffPinned(view.x, view.scale, keepX, after.scale, focus.width);
    KeptIffPinned(view.y, view.scale, keepY, after.scale, focus.height);
    ClampedOffsetIsNearest(keepX, frame.width, Content(image.width, after.scale));
    ClampedOffsetIsNearest(keepY, frame.height, Content(image.height, after.scale));
  }

  /** The keyboard's zoom is about the middle of the frame. */
  lemma KeyZoomLandsNearest(view: View, factor: real, frame: Size, image: Size)
    returns (keepX: real, keepY: real)
    requires Positive(frame) && Positive(image) && Legal(view, frame, image) && view.scale > 0.0
    ensures var after := Apply(view, KeyZoom(factor), frame, image);
            && after.scale > 0.0 && IsNearestScale(after.scale, Magnified(view.scale, factor), frame, image)
            && Keeps(keepX, after.scale, view.x, view.scale, frame.width / 2.0)
            && Keeps(keepY, after.scale, view.y, view.scale, frame.height / 2.0)
            && IsNearestOffset(after.x, keepX, frame.width, Content(image.width, after.scale))
            && IsNearestOffset(after.y, keepY, frame.height, Content(image.height, after.scale))
  {
    hide FitScale, ZoomAt, IsNearestOffset, IsNearestScale, Keeps, Legal, Content, Magnified;
    var focus := Size(frame.width / 2.0, frame.height / 2.0);
    assert Apply(view, KeyZoom(factor), frame, image) == Apply(view, WheelZoom(factor, focus), frame, image);
    hide Apply;
    keepX, keepY := ZoomLandsNearest(view, factor, focus, frame, image);
  }

  /** One artifact pixel per CSS pixel, or as near as may be, about the middle of the frame. */
  lemma OneToOneLandsNearest(view: View, frame: Size, image: Size)
    returns (keepX: real, keepY: real)
    requires Positive(frame) && Positive(image) && Legal(view, frame, image) && view.scale > 0.0
    ensures var after := Apply(view, OneToOne, frame, image);
            && after.scale > 0.0 && IsNearestScale(after.scale, 1.0, frame, image)
            && Keeps(keepX, after.scale, view.x, view.scale, frame.width / 2.0)
            && Keeps(keepY, after.scale, view.y, view.scale, frame.height / 2.0)
            && IsNearestOffset(after.x, keepX, frame.width, Content(image.width, after.scale))
            && IsNearestOffset(after.y, keepY, frame.height, Content(image.height, after.scale))
  {
    assert Magnified(view.scale, 1.0 / view.scale) == 1.0;
    hide Content, Magnified, FitScale, Zoom, IsNearestOffset, IsNearestScale, Keeps, Legal;
    var factor := 1.0 / view.scale;
    assert Apply(view, OneToOne, frame, image) == Apply(view, KeyZoom(factor), frame, image);
    hide Apply;
    keepX, keepY := KeyZoomLandsNearest(view, factor, frame, image);
  }

  /** Zooming in from the keyboard always keeps the middle of the frame, on covered and centred axes alike. */
  lemma KeyZoomInKeepsTheMiddle(view: View, factor: real, frame: Size, image: Size)
    requires Positive(frame) && Positive(image) && Legal(view, frame, image) && view.scale > 0.0 && factor >= 1.0
    ensures var after := Apply(view, KeyZoom(factor), frame, image);
            && after.scale > 0.0
            && Keeps(after.x, after.scale, view.x, view.scale, frame.width / 2.0)
            && Keeps(after.y, after.scale, view.y, view.scale, frame.height / 2.0)
  {
    var focus := Size(frame.width / 2.0, frame.height / 2.0);
    var after := ZoomAt(view, factor, focus, frame, image);
    ZoomScale(view.scale, factor, frame, image);
    ZoomKeepsThePointerIff(view, factor, focus, frame, image);
    MiddleStaysPlaced(image.width, view.scale, after.scale, view.x, frame.width);
    MiddleStaysPlaced(image.height, view.scale, after.scale, view.y, frame.height);
    hide FitScale, ClampScale, ZoomAt, Placed, Pinned, Ratio, ImageAt;
  }

  lemma MiddleStaysPlaced(length: real, scale: real, scale': real, offset: real, frameLength: real)
    requires 0.0 < scale <= scale' && frameLength > 0.0 && Placed(offset, frameLength, Content(length, scale))
    ensures Placed(Pinned(offset, frameLength / 2.0, Ratio(scale', scale)), frameLength, Content(length, scale'))
  {
    RatioScalesContent(length, scale, scale');
    var ratio, content := Ratio(scale', scale), Content(length, scale);
    hide Content, Ratio;
    if content > frameLength {
      PinnedStaysPlaced(offset, frameLength / 2.0, frameLength, content, ratio);
    } else {
      assert frameLength / 2.0 - offset == content / 2.0;
      assert content / 2.0 * ratio == content * ratio / 2.0;
    }
  }

  // ----- From the screen to the artifact

  /** The forward map: where a fraction of the artifact is drawn in the frame. */
  function FrameAt(offset: real, scale: real, length: real, fraction: real): real {
    fraction * length * scale + offset
  }

  /** On the image, `fractionAt` inverts the forward map. */
  lemma FractionAtInvertsTheMap(view: View, image: Size, at: Fraction)
    requires view.scale > 0.0 && Positive(image)
    requires 0.0 <= at.x <= 1.0 && 0.0 <= at.y <= 1.0
    ensures FractionAt(view, image, Size(FrameAt(view.x, view.scale, image.width, at.x),
                                         FrameAt(view.y, view.scale, image.height, at.y))) == at
  {
    hide FrameAt, ImageAt;
    InvertAxis(view.x, view.scale, image.width, at.x);
    InvertAxis(view.y, view.scale, image.height, at.y);
  }

  lemma InvertAxis(offset: real, scale: real, length: real, fraction: real)
    requires scale > 0.0 && length > 0.0
    ensures ImageAt(offset, scale, FrameAt(offset, scale, length, fraction)) / length == fraction
  {
    var pixels := fraction * length;
    assert FrameAt(offset, scale, length, fraction) - offset == pixels * scale;
    CancelFactor(pixels, scale);
    CancelFactor(fraction, length);
  }

  lemma CancelFactor(a: real, k: real)
    requires k != 0.0
    ensures a * k / k == a
  {
  }

  /** Every point of the screen, on the image or not, is read as a point of the unit square. */
  lemma FractionAtStaysInTheUnitSquare(view: View, image: Size, point: Size)
    requires view.scale > 0.0 && Positive(image)
    ensures var at := FractionAt(view, image, point); 0.0 <= at.x <= 1.0 && 0.0 <= at.y <= 1.0
  {
  }

  /** A point off the image is read as the nearest point on it. */
  lemma FractionAtIsTheNearestPoint(view: View, image: Size, point: Size, exact: Fraction, other: Fraction)
    requires view.scale > 0.0 && Positive(image)
    requires FrameAt(view.x, view.scale, image.width, exact.x) == point.width
    requires FrameAt(view.y, view.scale, image.height, exact.y) == point.height
    requires 0.0 <= other.x <= 1.0 && 0.0 <= other.y <= 1.0
    ensures var at := FractionAt(view, image, point);
            Abs(at.x - exact.x) <= Abs(other.x - exact.x) && Abs(at.y - exact.y) <= Abs(other.y - exact.y)
  {
    InvertAxis(view.x, view.scale, image.width, exact.x);
    InvertAxis(view.y, view.scale, image.height, exact.y);
    hide ImageAt, FrameAt;
  }
}
