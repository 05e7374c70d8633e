/**
 * ImageSnapView: the crop view. It owns the view model, computes the content
 * bounds the crop box must stay in, admits or corrects the box a drag asks
 * for, routes touches, and lays the box out again on reset and quarter turns.
 *
 * The collaborators the view calls but does not define are parameters:
 * `edgeOf` is GeometryHelper.getImageSnapEdge, `inscribe` is
 * GeometryHelper.getInscribeRect, `contains` is imageContainer.contains(rect:
 * fromView:), and `Orientation` carries the three answers the device
 * orientation helper gives. The grid overlay's frame always equals the view
 * model's crop box (the key-value observer copies it), so the overlay frame
 * is read as `viewModel.imageSnapBoxFrame`.
 */
module SnapView {

  import opened Geometry
  import W = Wrappers
  import LockedAspect
  import opened ViewModel

  /** The answers of the device orientation helper, in the order the view asks them. */
  datatype Orientation = Orientation(isPortrait: bool, isLandscape: bool, isLandscapeLeft: bool)

  // ---------------------------------------------------------------------
  // Content bounds
  // ---------------------------------------------------------------------

  /**
   * `getContentBounds()`: the view bounds less the padding on every side and
   * less the rotation dial's height on the side the dial sits (below in
   * portrait, right in landscape-left, left in the other landscape); the zero
   * rect when the orientation is neither portrait nor landscape.
   */
  function ContentBounds(bounds: Rect, orientation: Orientation, angleDashboardHeight: real): Rect
  {
    if orientation.isPortrait then
      Rect(bounds.x + ImageSnapViewPadding, bounds.y + ImageSnapViewPadding,
           Width(bounds) - 2.0 * ImageSnapViewPadding,
           Height(bounds) - 2.0 * ImageSnapViewPadding - angleDashboardHeight)
    else if orientation.isLandscape then
      Rect(if orientation.isLandscapeLeft then bounds.x + ImageSnapViewPadding
           else bounds.x + ImageSnapViewPadding + angleDashboardHeight,
           bounds.y + ImageSnapViewPadding,
           Width(bounds) - 2.0 * ImageSnapViewPadding - angleDashboardHeight,
           Height(bounds) - 2.0 * ImageSnapViewPadding)
    else ZeroRect
  }

  /**
   * For a view large enough to hold the padding and the dial, the content
   * bounds lie inside the view with a gap of exactly the padding on three
   * sides and the padding plus the dial height on the dial's side.
   */
  lemma ContentBoundsMargins(bounds: Rect, orientation: Orientation, angleDashboardHeight: real)
    requires IsStandard(bounds) && angleDashboardHeight >= 0.0
    requires bounds.width >= 2.0 * ImageSnapViewPadding + angleDashboardHeight
    requires bounds.height >= 2.0 * ImageSnapViewPadding + angleDashboardHeight
    requires orientation.isPortrait || orientation.isLandscape
    ensures var c := ContentBounds(bounds, orientation, angleDashboardHeight);
            var dialBelow := orientation.isPortrait;
            var dialRight := !orientation.isPortrait && orientation.isLandscapeLeft;
            var dialLeft := !orientation.isPortrait && !orientation.isLandscapeLeft;
            IsStandard(c) && InsideRect(c, bounds)
            && MinX(c) - MinX(bounds) == ImageSnapViewPadding + (if dialLeft then angleDashboardHeight else 0.0)
            && MaxX(bounds) - MaxX(c) == ImageSnapViewPadding + (if dialRight then angleDashboardHeight else 0.0)
            && MinY(c) - MinY(bounds) == ImageSnapViewPadding
            && MaxY(bounds) - MaxY(c) == ImageSnapViewPadding + (if dialBelow then angleDashboardHeight else 0.0)
  {
  }

  // ---------------------------------------------------------------------
  // The containment resolver
  // ---------------------------------------------------------------------

  /** The guard of `updateImageSnapBoxFrame(with:)`: at least the minimum size and inside the content bounds. */
  predicate Admissible(candidate: Rect, contentBounds: Rect)
  {
    Width(candidate) >= ImageSnapViewMinimumBoxSize
    && MinX(candidate) >= MinX(contentBounds) && MaxX(candidate) <= MaxX(contentBounds)
    && Height(candidate) >= ImageSnapViewMinimumBoxSize
    && MinY(candidate) >= MinY(contentBounds) && MaxY(candidate) <= MaxY(contentBounds)
  }

  /** The overlap of the current box and the candidate (its size is negative when they are apart). */
  function Intersection(current: Rect, candidate: Rect): (q: Rect)
    ensures q.x == Max(MinX(current), MinX(candidate)) && q.y == Max(MinY(current), MinY(candidate))
    ensures q.x + q.width == Min(MaxX(current), MaxX(candidate))
    ensures q.y + q.height == Min(MaxY(current), MaxY(candidate))
  {
    var minX := Max(MinX(current), MinX(candidate));
    var minY := Max(MinY(current), MinY(candidate));
    var maxX := Min(MaxX(current), MaxX(candidate));
    var maxY := Min(MaxY(current), MaxY(candidate));
    Rect(minX, minY, maxX - minX, maxY - minY)
  }

  /**
   * The four corrective rects, in the order they are tried: each keeps one or
   * both of the candidate's extents and clips the rest to the overlap.
   */
  function CorrectiveRects(current: Rect, candidate: Rect): (rs: seq<Rect>)
    ensures |rs| == 4
  {
    var i := Intersection(current, candidate);
    [Rect(i.x, i.y, Width(candidate), i.height),
     Rect(i.x, i.y, i.width, Height(candidate)),
     Rect(MinX(candidate), i.y, Width(candidate), i.height),
     Rect(i.x, MinY(candidate), i.width, Height(candidate))]
  }

  /** The index of the first rect the image contains, or the length when there is none. */
  function FirstContained(rects: seq<Rect>, contains: Rect -> bool): (i: nat)
    ensures i <= |rects|
    ensures i < |rects| ==> contains(rects[i])
    ensures forall j :: 0 <= j < i ==> !contains(rects[j])
  {
    if rects == [] then 0
    else if contains(rects[0]) then 0
    else 1 + FirstContained(rects[1..], contains)
  }

  /**
   * The crop box after a drag asked for `candidate`: unchanged when the
   * candidate fails the guard, the candidate when the image contains it,
   * otherwise the first corrective rect the image contains, and the overlap
   * of the old and new boxes when it contains none of them.
   */
  function ResolvedBoxFrame(current: Rect, candidate: Rect, contentBounds: Rect, contains: Rect -> bool): Rect
  {
    if !Admissible(candidate, contentBounds) then current
    else if contains(candidate) then candidate
    else
      var rs := CorrectiveRects(current, candidate);
      var i := FirstContained(rs, contains);
      if i < |rs| then rs[i] else Intersection(current, candidate)
  }

  /**
   * The resolver keeps the old box or stores a rect the image holds, except
   * as a last resort, when it stores the overlap; for an old box that
   * overlaps the candidate, that overlap lies inside both of them.
   */
  lemma ResolverOutcome(current: Rect, candidate: Rect, contentBounds: Rect, contains: Rect -> bool)
    ensures var r := ResolvedBoxFrame(current, candidate, contentBounds, contains);
            r == current || contains(r)
            || (!contains(candidate) && forall k :: 0 <= k < 4 ==> !contains(CorrectiveRects(current, candidate)[k]))
    ensures var r := ResolvedBoxFrame(current, candidate, contentBounds, contains);
            MinX(current) <= MaxX(candidate) && MinX(candidate) <= MaxX(current)
            && MinY(current) <= MaxY(candidate) && MinY(candidate) <= MaxY(current) ==>
              r == current || contains(r) || (InsideRect(r, current) && InsideRect(r, candidate))
  {
    var rs := CorrectiveRects(current, candidate);
    var i := FirstContained(rs, contains);
    if Admissible(candidate, contentBounds) && !contains(candidate) && i < 4 {
      assert ResolvedBoxFrame(current, candidate, contentBounds, contains) == rs[i];
    }
  }

  /**
   * When the old box lies in the content bounds and overlaps the admitted
   * candidate, the third and fourth corrective rects and the overlap stay in
   * the content bounds: each takes every extent from the candidate or from
   * the overlap.
   */
  lemma LaterFallbacksStayInBounds(current: Rect, candidate: Rect, contentBounds: Rect, contains: Rect -> bool)
    requires Admissible(candidate, contentBounds) && InsideRect(current, contentBounds)
    requires MinX(current) <= MaxX(candidate) && MinX(candidate) <= MaxX(current)
    requires MinY(current) <= MaxY(candidate) && MinY(candidate) <= MaxY(current)
    ensures var rs := CorrectiveRects(current, candidate);
            InsideRect(rs[2], contentBounds) && InsideRect(rs[3], contentBounds)
            && IsStandard(Intersection(current, candidate))
            && InsideRect(Intersection(current, candidate), current)
            && InsideRect(Intersection(current, candidate), candidate)
  {
  }

  /**
   * The first corrective rect keeps the candidate's width but starts at the
   * overlap's left edge, so when the old box starts right of the candidate it
   * reaches past the candidate's right edge by the difference. When the
   * candidate touches the right edge of the content bounds and the image holds
   * that rect, the resolver stores a box that leaves the content bounds.
   */
  lemma FirstFallbackCanLeaveBounds(current: Rect, candidate: Rect, contentBounds: Rect, contains: Rect -> bool)
    requires Admissible(candidate, contentBounds) && IsStandard(candidate)
    requires MinX(current) > MinX(candidate) && MaxX(candidate) == MaxX(contentBounds)
    requires !contains(candidate) && contains(CorrectiveRects(current, candidate)[0])
    ensures var r := ResolvedBoxFrame(current, candidate, contentBounds, contains);
            r == CorrectiveRects(current, candidate)[0]
            && MaxX(r) == MaxX(candidate) + (MinX(current) - MinX(candidate))
            && !InsideRect(r, contentBounds)
  {
  }

  // ---------------------------------------------------------------------
  // Initial box and image ratio
  // ---------------------------------------------------------------------

  /** The image's rect as displayed: its size, with the sides swapped when the image lies on its side. */
  function ImageRectAsShown(imageSize: Size, rotation: ImageRotationType): Rect
  {
    if rotation.IsUpOrUpsideDown() then Rect(0.0, 0.0, imageSize.width, imageSize.height)
    else Rect(0.0, 0.0, imageSize.height, imageSize.width)
  }

  /** `getInitialImageSnapBoxRect()`: the image as shown inscribed in the content bounds; zero for an empty image. */
  function InitialImageSnapBoxRect(imageSize: Size, rotation: ImageRotationType, contentBounds: Rect,
                                   inscribe: (Rect, Rect) -> Rect): (r: Rect)
    ensures !(imageSize.width > 0.0 && imageSize.height > 0.0) ==> r == ZeroRect
  {
    if !(imageSize.width > 0.0 && imageSize.height > 0.0) then ZeroRect
    else inscribe(contentBounds, ImageRectAsShown(imageSize, rotation))
  }

  /** A quarter turn in either direction swaps the displayed image's width and height. */
  lemma QuarterTurnTransposesImage(imageSize: Size, rotation: ImageRotationType)
    ensures var shown := ImageRectAsShown(imageSize, rotation);
            var turned := ImageRectAsShown(imageSize, rotation.CounterclockwiseRotated90());
            turned == ImageRectAsShown(imageSize, rotation.ClockwiseRotated90())
            && turned.width == shown.height && turned.height == shown.width
  {
    QuarterTurnSwapsOrientation(rotation, true);
  }

  /** `getImageRatioH()`: the image's ratio when upright or upside down, its reciprocal on its side. */
  function ImageRatioH(ratioH: real, rotation: ImageRotationType): (r: real)
    requires ratioH != 0.0
    ensures rotation.IsUpOrUpsideDown() ==> r == ratioH
    ensures !rotation.IsUpOrUpsideDown() ==> r * ratioH == 1.0
  {
    if rotation == NoRotation || rotation == Counterclockwise180 then ratioH
    else 1.0 / ratioH
  }

  /** Ratios seen before and after a quarter turn are reciprocal. */
  lemma QuarterTurnInvertsImageRatio(ratioH: real, rotation: ImageRotationType)
    requires ratioH != 0.0
    ensures ImageRatioH(ratioH, rotation.CounterclockwiseRotated90()) * ImageRatioH(ratioH, rotation) == 1.0
    ensures ImageRatioH(ratioH, rotation.ClockwiseRotated90()) * ImageRatioH(ratioH, rotation) == 1.0
  {
    QuarterTurnSwapsOrientation(rotation, true);
  }

  // ---------------------------------------------------------------------
  // Hit testing
  // ---------------------------------------------------------------------

  datatype HitView = RotationDial | CropView | ScrollView | NoView

  /**
   * `hitTest(_:with:)`: the dial first; then the handle ring, the overlay
   * grown by half a hot area unit minus the overlay shrunk by as much; then
   * the scroll view for the rest of the bounds.
   */
  function HitTarget(p: Point, dialFrame: W.Option<Rect>, overlayFrame: Rect, bounds: Rect): HitView
  {
    if dialFrame.Some? && ContainsPoint(dialFrame.value, p) then RotationDial
    else if ContainsPoint(TouchRect(overlayFrame), p)
            && !InsetContainsPoint(overlayFrame, HotAreaUnit / 2.0, p) then CropView
    else if ContainsPoint(bounds, p) then ScrollView
    else NoView
  }

  /**
   * The dial takes every point in its frame, whatever lies below it. Away
   * from the dial, the view takes exactly the points within 16 of the
   * overlay's edges (all of the grown overlay when a side is shorter than
   * 32); other points in the bounds go to the scroll view, the rest nowhere.
   */
  lemma HandleRingHit(p: Point, dialFrame: W.Option<Rect>, overlayFrame: Rect, bounds: Rect)
    ensures var onDial := dialFrame.Some? && ContainsPoint(dialFrame.value, p);
            HitTarget(p, dialFrame, overlayFrame, bounds) == RotationDial <==> onDial
    ensures var o := overlayFrame;
            var onDial := dialFrame.Some? && ContainsPoint(dialFrame.value, p);
            var outer := MinX(o) - 16.0 <= p.x < MaxX(o) + 16.0 && MinY(o) - 16.0 <= p.y < MaxY(o) + 16.0;
            var inner := Width(o) >= 32.0 && Height(o) >= 32.0
                         && MinX(o) + 16.0 <= p.x < MaxX(o) - 16.0 && MinY(o) + 16.0 <= p.y < MaxY(o) - 16.0;
            var t := HitTarget(p, dialFrame, overlayFrame, bounds);
            !onDial ==>
              (t == CropView <==> outer && !inner)
              && (t == ScrollView <==> !(outer && !inner) && ContainsPoint(bounds, p))
              && (t == NoView <==> !(outer && !inner) && !ContainsPoint(bounds, p))
  {
    var q := InsetBy(overlayFrame, HotAreaUnit / 2.0);
    if q.Some? {
      assert MinX(q.value) == MinX(overlayFrame) + 16.0 && MaxX(q.value) == MaxX(overlayFrame) - 16.0;
      assert MinY(q.value) == MinY(overlayFrame) + 16.0 && MaxY(q.value) == MaxY(overlayFrame) - 16.0;
    }
  }

  // ---------------------------------------------------------------------
  // The view
  // ---------------------------------------------------------------------

  class ImageSnapView {
    const viewModel: ImageSnapViewModel
    var bounds: Rect
    var angleDashboardHeight: real
    var aspectRatioLockEnabled: bool
    var forceFixedRatio: bool
    var imageStatusChangedCheckForForceFixedRatio: bool
    var manualZoomed: bool
    /** `image.size`. */
    var imageSize: Size
    /** `image.ratioH()`, which the image computes. */
    var imageRatioH: real
    /** The rotation dial's frame, when the view has a dial. */
    var dialFrame: W.Option<Rect>

    constructor (viewModel: ImageSnapViewModel, imageSize: Size, imageRatioH: real)
      ensures this.viewModel == viewModel && this.imageSize == imageSize && this.imageRatioH == imageRatioH
      ensures bounds == ZeroRect && angleDashboardHeight == 60.0 && dialFrame == W.None
      ensures !aspectRatioLockEnabled && !forceFixedRatio
      ensures !imageStatusChangedCheckForForceFixedRatio && !manualZoomed
    {
      this.viewModel := viewModel;
      bounds := ZeroRect;
      angleDashboardHeight := 60.0;
      aspectRatioLockEnabled := false;
      forceFixedRatio := false;
      imageStatusChangedCheckForForceFixedRatio := false;
      manualZoomed := false;
      this.imageSize := imageSize;
      this.imageRatioH := imageRatioH;
      dialFrame := W.None;
    }

    method GetContentBounds(orientation: Orientation) returns (contentRect: Rect)
      ensures contentRect == ContentBounds(bounds, orientation, angleDashboardHeight)
    {
      var rect := bounds;
      contentRect := ZeroRect;
      if orientation.isPortrait {
        contentRect := contentRect.(x := rect.x + ImageSnapViewPadding);
        contentRect := contentRect.(y := rect.y + ImageSnapViewPadding);
        contentRect := contentRect.(width := Width(rect) - 2.0 * ImageSnapViewPadding);
        contentRect := contentRect.(height := Height(rect) - 2.0 * ImageSnapViewPadding - angleDashboardHeight);
      } else if orientation.isLandscape {
        contentRect := contentRect.(width := Width(rect) - 2.0 * ImageSnapViewPadding - angleDashboardHeight);
        contentRect := contentRect.(height := Height(rect) - 2.0 * ImageSnapViewPadding);
        contentRect := contentRect.(y := rect.y + ImageSnapViewPadding);
        if orientation.isLandscapeLeft {
          contentRect := contentRect.(x := rect.x + ImageSnapViewPadding);
        } else {
          contentRect := contentRect.(x := rect.x + ImageSnapViewPadding + angleDashboardHeight);
        }
      }
    }

    method GetInitialImageSnapBoxRect(orientation: Orientation, inscribe: (Rect, Rect) -> Rect)
      returns (r: Rect)
      ensures r == InitialImageSnapBoxRect(imageSize, viewModel.rotationType,
                                           ContentBounds(bounds, orientation, angleDashboardHeight), inscribe)
    {
      if !(imageSize.width > 0.0 && imageSize.height > 0.0) {
        return ZeroRect;
      }
      var outsideRect := GetContentBounds(orientation);
      var insideRect: Rect;
      if viewModel.rotationType.IsUpOrUpsideDown() {
        insideRect := Rect(0.0, 0.0, imageSize.width, imageSize.height);
      } else {
        insideRect := Rect(0.0, 0.0, imageSize.height, imageSize.width);
      }
      r := inscribe(outsideRect, insideRect);
    }

    /**
     * `getTotalRadians()` in degrees: with a forced ratio only the dial's
     * angle, otherwise the dial's angle plus the quadrant angle.
     */
    function TotalDegrees(): (t: real)
      reads this, viewModel
      ensures forceFixedRatio ==> t == viewModel.degrees
      ensures !forceFixedRatio ==> -270.0 <= t - viewModel.degrees <= 0.0
    {
      if forceFixedRatio then viewModel.degrees else viewModel.TotalDegrees()
    }

    /** `updateImageSnapBoxFrame(with:)`: asks the view model for the dragged box and admits or corrects it. */
    method UpdateImageSnapBoxFrame(point: Point, orientation: Orientation, contains: Rect -> bool)
      requires aspectRatioLockEnabled ==> LockedAspect.Divisible(viewModel.imageSnapOriginFrame)
      modifies viewModel`imageSnapBoxFrame
      ensures var contentBounds := ContentBounds(bounds, orientation, angleDashboardHeight);
              var candidate := NewImageSnapBoxFrame(viewModel.tappedEdge, viewModel.panOriginPoint,
                                                    viewModel.imageSnapOriginFrame, old(viewModel.imageSnapBoxFrame),
                                                    point, contentBounds, aspectRatioLockEnabled);
              viewModel.imageSnapBoxFrame
              == ResolvedBoxFrame(old(viewModel.imageSnapBoxFrame), candidate, contentBounds, contains)
    {
      var contentFrame := GetContentBounds(orientation);
      var newFrame := viewModel.GetNewImageSnapBoxFrame(point, contentFrame, aspectRatioLockEnabled);
      var contentBounds := GetContentBounds(orientation);
      StoreAdmittedFrame(newFrame, contentBounds, contains);
    }

    /** The guard and the fallback cascade of `updateImageSnapBoxFrame(with:)`, on a candidate already computed. */
    method StoreAdmittedFrame(newFrame: Rect, contentBounds: Rect, contains: Rect -> bool)
      modifies viewModel`imageSnapBoxFrame
      ensures viewModel.imageSnapBoxFrame
              == ResolvedBoxFrame(old(viewModel.imageSnapBoxFrame), newFrame, contentBounds, contains)
    {
      if !(Width(newFrame) >= ImageSnapViewMinimumBoxSize
           && MinX(newFrame) >= MinX(contentBounds) && MaxX(newFrame) <= MaxX(contentBounds)
           && Height(newFrame) >= ImageSnapViewMinimumBoxSize
           && MinY(newFrame) >= MinY(contentBounds) && MaxY(newFrame) <= MaxY(contentBounds)) {
        return;
      }
      if contains(newFrame) {
        viewModel.imageSnapBoxFrame := newFrame;
        return;
      }
      var current := viewModel.imageSnapBoxFrame;
      var minX := Max(MinX(current), MinX(newFrame));
      var minY := Max(MinY(current), MinY(newFrame));
      var maxX := Min(MaxX(current), MaxX(newFrame));
      var maxY := Min(MaxY(current), MaxY(newFrame));
      ghost var rs := CorrectiveRects(current, newFrame);

      var rect := Rect(minX, minY, Width(newFrame), maxY - minY);
      assert rect == rs[0];
      if contains(rect) {
        viewModel.imageSnapBoxFrame := rect;
        return;
      }
      rect := Rect(minX, minY, maxX - minX, Height(newFrame));
      assert rect == rs[1];
      if contains(rect) {
        viewModel.imageSnapBoxFrame := rect;
        return;
      }
      rect := Rect(MinX(newFrame), minY, Width(newFrame), maxY - minY);
      assert rect == rs[2];
      if contains(rect) {
        viewModel.imageSnapBoxFrame := rect;
        return;
      }
      rect := Rect(minX, MinY(newFrame), maxX - minX, Height(newFrame));
      assert rect == rs[3];
      if contains(rect) {
        viewModel.imageSnapBoxFrame := rect;
        return;
      }
      assert FirstContained(rs, contains) == 4;
      viewModel.imageSnapBoxFrame := Rect(minX, minY, maxX - minX, maxY - minY);
    }

    /**
     * The state change of `checkImageStatusChanged()`, which the rendering of
     * the initial and between-operation statuses runs: at a zero total angle
     * of the view model, `imageStatusChanged()` consumes a pending
     * forced-ratio check. What it reports to the delegate is not modelled.
     */
    method CheckImageStatusChanged()
      modifies this`imageStatusChangedCheckForForceFixedRatio
      ensures imageStatusChangedCheckForForceFixedRatio
              == (old(imageStatusChangedCheckForForceFixedRatio) && !(forceFixedRatio && viewModel.TotalDegrees() == 0.0))
    {
      if viewModel.TotalDegrees() != 0.0 {
        return;
      }
      if forceFixedRatio && imageStatusChangedCheckForForceFixedRatio {
        imageStatusChangedCheckForForceFixedRatio := false;
      }
    }

    /**
     * `viewModel.setBetweenOperationStatus()` together with the view's
     * synchronous rendering of that status, which checks the image status.
     */
    method SetBetweenOperationStatus()
      requires viewModel.Valid()
      modifies this`imageStatusChangedCheckForForceFixedRatio, viewModel`viewStatus, viewModel`statusNotifications
      ensures viewModel.Valid()
      ensures viewModel.viewStatus == BetweenOperation
      ensures viewModel.statusNotifications == old(viewModel.statusNotifications) + [BetweenOperation]
      ensures imageStatusChangedCheckForForceFixedRatio
              == (old(imageStatusChangedCheckForForceFixedRatio) && !(forceFixedRatio && viewModel.TotalDegrees() == 0.0))
    {
      viewModel.SetBetweenOperationStatus();
      CheckImageStatusChanged();
    }

    /**
     * `viewModel.setRotatingStatus(by:)` together with the view's synchronous
     * rendering of that status: the angle is stored in `degrees`, and
     * `rotateScrollView`, through `updatePosition`, drops the manual zoom
     * unless the view was zoomed by hand and the scroll view need not scale.
     * `shouldScale` is the scroll view's `shouldScale()` once it is laid out
     * for a total angle.
     */
    method SetRotatingStatus(angle: real, shouldScale: real -> bool)
      requires viewModel.Valid()
      modifies this`manualZoomed, viewModel`viewStatus, viewModel`statusNotifications, viewModel`degrees
      ensures viewModel.Valid()
      ensures viewModel.viewStatus == Rotating(angle)
      ensures viewModel.statusNotifications == old(viewModel.statusNotifications) + [Rotating(angle)]
      ensures viewModel.degrees == angle
      ensures manualZoomed == (old(manualZoomed) && !shouldScale(TotalDegrees()))
    {
      viewModel.SetRotatingStatus(angle);
      viewModel.degrees := angle;
      if !manualZoomed || shouldScale(TotalDegrees()) {
        manualZoomed := false;
      }
    }

    /**
     * The view-model effect of `adjustUIForNewImageSnap`: the crop box is
     * inscribed in the content rect and the view counts as zoomed by hand.
     * The completion is run by the caller.
     */
    method AdjustUIForNewImageSnap(contentRect: Rect, inscribe: (Rect, Rect) -> Rect)
      modifies this`manualZoomed, viewModel`imageSnapBoxFrame
      ensures viewModel.imageSnapBoxFrame == inscribe(contentRect, old(viewModel.imageSnapBoxFrame))
      ensures manualZoomed
    {
      var newImageSnapBoxFrame := inscribe(contentRect, viewModel.imageSnapBoxFrame);
      viewModel.imageSnapBoxFrame := newImageSnapBoxFrame;
      manualZoomed := true;
    }

    /**
     * `setFixedRatioImageSnapBox(zoom:imageSnapBox:)`: fits the given box (or
     * the initial one) to the fixed ratio, inscribes it in the content bounds
     * without animation, and ends in the between-operation status. With a
     * forced ratio the completion arms the forced-ratio check, which the
     * rendering of that status consumes again at once when the total angle
     * is zero.
     */
    method SetFixedRatioImageSnapBox(imageSnapBox: W.Option<Rect>, orientation: Orientation,
                                     inscribe: (Rect, Rect) -> Rect)
      requires viewModel.Valid() && imageRatioH != 0.0
      requires viewModel.aspectRatio > ImageRatioH(imageRatioH, viewModel.rotationType) ==> viewModel.aspectRatio != 0.0
      modifies this`manualZoomed, this`imageStatusChangedCheckForForceFixedRatio
      modifies viewModel`imageSnapBoxFrame, viewModel`viewStatus, viewModel`statusNotifications
      ensures viewModel.Valid()
      ensures imageSnapBox.Some? ==>
                viewModel.imageSnapBoxFrame
                == inscribe(ContentBounds(bounds, orientation, angleDashboardHeight),
                            AspectFitFrame(imageSnapBox.value, viewModel.aspectRatio,
                                           ImageRatioH(imageRatioH, viewModel.rotationType)))
      ensures imageSnapBox.None? ==>
                var contentBounds := ContentBounds(bounds, orientation, angleDashboardHeight);
                viewModel.imageSnapBoxFrame
                == inscribe(contentBounds,
                            AspectFitFrame(InitialImageSnapBoxRect(imageSize, viewModel.rotationType, contentBounds, inscribe),
                                           viewModel.aspectRatio, ImageRatioH(imageRatioH, viewModel.rotationType)))
      ensures manualZoomed
      ensures imageStatusChangedCheckForForceFixedRatio
              == if forceFixedRatio then viewModel.TotalDegrees() != 0.0
                 else old(imageStatusChangedCheckForForceFixedRatio)
      ensures viewModel.viewStatus == BetweenOperation
      ensures viewModel.statusNotifications == old(viewModel.statusNotifications) + [BetweenOperation]
    {
      ghost var initial := InitialImageSnapBoxRect(imageSize, viewModel.rotationType,
                                                   ContentBounds(bounds, orientation, angleDashboardHeight), inscribe);
      var refImageSnapBox: Rect;
      if imageSnapBox.Some? {
        refImageSnapBox := imageSnapBox.value;
      } else {
        refImageSnapBox := GetInitialImageSnapBoxRect(orientation, inscribe);
        assert refImageSnapBox == initial;
      }
      viewModel.SetImageSnapBoxFrame(refImageSnapBox, ImageRatioH(imageRatioH, viewModel.rotationType));
      var contentRect := GetContentBounds(orientation);
      AdjustUIForNewImageSnap(contentRect, inscribe);
      if forceFixedRatio {
        imageStatusChangedCheckForForceFixedRatio := true;
      }
      SetBetweenOperationStatus();
      assert initial == InitialImageSnapBoxRect(imageSize, viewModel.rotationType, contentRect, inscribe);
    }

    /**
     * The view-model effect of `resetUIFrame()`: both frames become the
     * initial box, which is then fitted to the fixed ratio when the lock is on.
     */
    method ResetUIFrame(orientation: Orientation, inscribe: (Rect, Rect) -> Rect)
      requires viewModel.Valid() && imageRatioH != 0.0
      requires aspectRatioLockEnabled && viewModel.aspectRatio > ImageRatioH(imageRatioH, viewModel.rotationType)
               ==> viewModel.aspectRatio != 0.0
      modifies this`manualZoomed, this`imageStatusChangedCheckForForceFixedRatio
      modifies viewModel`imageSnapBoxFrame, viewModel`imageSnapOriginFrame
      modifies viewModel`viewStatus, viewModel`statusNotifications
      ensures viewModel.Valid()
      ensures var contentBounds := ContentBounds(bounds, orientation, angleDashboardHeight);
              var initial := InitialImageSnapBoxRect(imageSize, viewModel.rotationType, contentBounds, inscribe);
              viewModel.imageSnapOriginFrame == initial
              && (!aspectRatioLockEnabled ==> viewModel.imageSnapBoxFrame == initial && !viewModel.NeedImageSnap())
              && (aspectRatioLockEnabled ==>
                    viewModel.imageSnapBoxFrame
                    == inscribe(contentBounds, AspectFitFrame(initial, viewModel.aspectRatio,
                                                              ImageRatioH(imageRatioH, viewModel.rotationType))))
      ensures viewModel.statusNotifications
              == old(viewModel.statusNotifications) + (if aspectRatioLockEnabled then [BetweenOperation] else [])
      ensures aspectRatioLockEnabled ==>
                imageStatusChangedCheckForForceFixedRatio
                == if forceFixedRatio then viewModel.TotalDegrees() != 0.0
                   else old(imageStatusChangedCheckForForceFixedRatio)
      ensures !aspectRatioLockEnabled ==> unchanged(this`imageStatusChangedCheckForForceFixedRatio)
      ensures manualZoomed == (aspectRatioLockEnabled || old(manualZoomed))
    {
      var initial := GetInitialImageSnapBoxRect(orientation, inscribe);
      viewModel.ResetImageSnapFrame(initial);
      if aspectRatioLockEnabled {
        SetFixedRatioImageSnapBox(W.None, orientation, inscribe);
      }
    }

    /**
     * `reset()`: the lock follows the forced-ratio flag, the view model is
     * reset with the same flag (the ratio survives only when forced), and the
     * frames are laid out again. A forced ratio of 0 is reachable and needs
     * no division, since the fit then keeps the height. The rendering of the
     * initial status and the relayout both run at a zero angle, so a pending
     * forced-ratio check is consumed.
     */
    method Reset(orientation: Orientation, inscribe: (Rect, Rect) -> Rect)
      requires viewModel.Valid() && imageRatioH != 0.0
      requires forceFixedRatio && viewModel.aspectRatio > imageRatioH ==> viewModel.aspectRatio != 0.0
      modifies this`aspectRatioLockEnabled, this`manualZoomed, this`imageStatusChangedCheckForForceFixedRatio
      modifies viewModel
      ensures viewModel.Valid()
      ensures aspectRatioLockEnabled == forceFixedRatio
      ensures viewModel.aspectRatio == (if forceFixedRatio then old(viewModel.aspectRatio) else -1.0)
      ensures viewModel.degrees == 0.0 && viewModel.rotationType == NoRotation
      ensures viewModel.imageSnapLeftTopOnImage == ZeroPoint
      ensures viewModel.imageSnapRightBottomOnImage == Point(1.0, 1.0)
      ensures var contentBounds := ContentBounds(bounds, orientation, angleDashboardHeight);
              var initial := InitialImageSnapBoxRect(imageSize, NoRotation, contentBounds, inscribe);
              viewModel.imageSnapOriginFrame == initial
              && (!forceFixedRatio ==> viewModel.imageSnapBoxFrame == initial)
              && (forceFixedRatio ==>
                    viewModel.imageSnapBoxFrame
                    == inscribe(contentBounds, AspectFitFrame(initial, viewModel.aspectRatio, imageRatioH)))
      ensures viewModel.statusNotifications
              == old(viewModel.statusNotifications) + [Initial]
                 + (if forceFixedRatio then [BetweenOperation] else [])
      ensures imageStatusChangedCheckForForceFixedRatio
              == (!forceFixedRatio && old(imageStatusChangedCheckForForceFixedRatio))
      ensures manualZoomed == (forceFixedRatio || old(manualZoomed))
      ensures viewModel.panOriginPoint == old(viewModel.panOriginPoint) && viewModel.tappedEdge == old(viewModel.tappedEdge)
    {
      aspectRatioLockEnabled := forceFixedRatio;
      viewModel.Reset(forceFixedRatio);
      CheckImageStatusChanged();
      ResetUIFrame(orientation, inscribe);
    }

    /**
     * The state a quarter turn by `rotateAngle` leaves, given the box, angle,
     * quadrant, notifications, forced-ratio check and manual zoom before it.
     * With a forced ratio the dial angle turns by `rotateAngle` (the rendering
     * of each rotating status stores its angle in the view model and may drop
     * the manual zoom, as `SetRotatingStatus` states) and the box stays; otherwise
     * the box, transposed, is inscribed in the content bounds. Either way the
     * quadrant turns, and the view ends between operations, whose rendering
     * consumes a pending forced-ratio check at a zero total angle.
     */
    predicate QuarterTurned(rotateAngle: real, orientation: Orientation, inscribe: (Rect, Rect) -> Rect,
                            oldBox: Rect, oldDegrees: real, oldRotation: ImageRotationType,
                            oldNotes: seq<ImageSnapViewStatus>, oldCheck: bool, oldZoomed: bool,
                            shouldScale: real -> bool)
      reads this, viewModel
    {
      viewModel.rotationType == (if rotateAngle < 0.0 then oldRotation.CounterclockwiseRotated90()
                                 else oldRotation.ClockwiseRotated90())
      && (forceFixedRatio ==>
            viewModel.degrees == oldDegrees + rotateAngle
            && viewModel.imageSnapBoxFrame == oldBox
            && viewModel.statusNotifications
               == oldNotes + [Degree90Rotating, Rotating(oldDegrees), Rotating(oldDegrees + rotateAngle), BetweenOperation])
      && (!forceFixedRatio ==>
            viewModel.degrees == oldDegrees
            && viewModel.imageSnapBoxFrame
               == inscribe(ContentBounds(bounds, orientation, angleDashboardHeight),
                           Rect(oldBox.x, oldBox.y, Height(oldBox), Width(oldBox)))
            && viewModel.statusNotifications == oldNotes + [Degree90Rotating, BetweenOperation])
      && imageStatusChangedCheckForForceFixedRatio
         == (oldCheck && !(forceFixedRatio && viewModel.TotalDegrees() == 0.0))
      && manualZoomed
         == if forceFixedRatio then oldZoomed && !shouldScale(oldDegrees) && !shouldScale(oldDegrees + rotateAngle)
            else oldZoomed
    }

    /** `RotateBy90(rotateAngle:completion:)` with its animation run to the end. */
    method RotateBy90(rotateAngle: real, orientation: Orientation, inscribe: (Rect, Rect) -> Rect,
                      shouldScale: real -> bool)
      requires viewModel.Valid()
      modifies this`imageStatusChangedCheckForForceFixedRatio, this`manualZoomed
      modifies viewModel`imageSnapBoxFrame, viewModel`degrees, viewModel`rotationType
      modifies viewModel`viewStatus, viewModel`statusNotifications
      ensures viewModel.Valid()
      ensures QuarterTurned(rotateAngle, orientation, inscribe, old(viewModel.imageSnapBoxFrame), old(viewModel.degrees),
                            old(viewModel.rotationType), old(viewModel.statusNotifications),
                            old(imageStatusChangedCheckForForceFixedRatio), old(manualZoomed), shouldScale)
      ensures forceFixedRatio ==> TotalDegrees() == old(TotalDegrees()) + rotateAngle
    {
      viewModel.SetDegree90RotatingStatus();
      if forceFixedRatio {
        var start := viewModel.degrees;
        SetRotatingStatus(start, shouldScale);
        var angle := rotateAngle + start;
        SetRotatingStatus(angle, shouldScale);
        viewModel.RotateBy90(rotateAngle);
        SetBetweenOperationStatus();
        return;
      }
      var box := viewModel.imageSnapBoxFrame;
      var rect := box.(width := Height(box), height := Width(box));
      var contentBounds := GetContentBounds(orientation);
      var newRect := inscribe(contentBounds, rect);
      viewModel.imageSnapBoxFrame := newRect;
      viewModel.RotateBy90(rotateAngle);
      SetBetweenOperationStatus();
    }

    /** `hitTest(_:with:)` on this view's dial, overlay and bounds. */
    function HitTest(p: Point): (t: HitView)
      reads this, viewModel
    {
      HitTarget(p, dialFrame, viewModel.imageSnapBoxFrame, bounds)
    }

    /**
     * `touchesBegan`: only single touches count. A touch on the dial enters
     * the rotation-board status; any other takes the gesture snapshot.
     */
    method TouchesBegan(touchCount: nat, touchOnDial: bool, point: Point, edgeOf: (Point, Rect) -> Edge)
      requires viewModel.Valid()
      modifies viewModel`panOriginPoint, viewModel`imageSnapOriginFrame, viewModel`tappedEdge
      modifies viewModel`viewStatus, viewModel`statusNotifications
      ensures viewModel.Valid()
      ensures touchCount != 1 ==>
                unchanged(viewModel`panOriginPoint, viewModel`imageSnapOriginFrame, viewModel`tappedEdge)
                && unchanged(viewModel`viewStatus, viewModel`statusNotifications)
      ensures touchCount == 1 && touchOnDial ==>
                unchanged(viewModel`panOriginPoint, viewModel`imageSnapOriginFrame, viewModel`tappedEdge)
                && viewModel.viewStatus == TouchRotationBoard
                && viewModel.statusNotifications == old(viewModel.statusNotifications) + [TouchRotationBoard]
      ensures touchCount == 1 && !touchOnDial ==>
                viewModel.panOriginPoint == point
                && viewModel.imageSnapOriginFrame == viewModel.imageSnapBoxFrame
                && viewModel.tappedEdge == edgeOf(point, TouchRect(viewModel.imageSnapBoxFrame))
                && viewModel.viewStatus == (if viewModel.tappedEdge == None then TouchImage
                                            else TouchImageSnapboxHandle(viewModel.tappedEdge))
                && viewModel.statusNotifications == old(viewModel.statusNotifications) + [viewModel.viewStatus]
    {
      if touchCount != 1 {
        return;
      }
      if touchOnDial {
        viewModel.SetTouchRotationBoardStatus();
        return;
      }
      viewModel.PrepareForImageSnap(point, edgeOf);
    }

    /** `touchesMoved`: a single touch off the dial drags the crop box. */
    method TouchesMoved(touchCount: nat, touchOnDial: bool, point: Point, orientation: Orientation,
                        contains: Rect -> bool)
      requires touchCount == 1 && !touchOnDial && aspectRatioLockEnabled
               ==> LockedAspect.Divisible(viewModel.imageSnapOriginFrame)
      modifies viewModel`imageSnapBoxFrame
      ensures touchCount != 1 || touchOnDial ==> unchanged(viewModel`imageSnapBoxFrame)
      ensures touchCount == 1 && !touchOnDial ==>
                var contentBounds := ContentBounds(bounds, orientation, angleDashboardHeight);
                var candidate := NewImageSnapBoxFrame(viewModel.tappedEdge, viewModel.panOriginPoint,
                                                      viewModel.imageSnapOriginFrame,
                                                      old(viewModel.imageSnapBoxFrame),
                                                      point, contentBounds, aspectRatioLockEnabled);
                viewModel.imageSnapBoxFrame
                == ResolvedBoxFrame(old(viewModel.imageSnapBoxFrame), candidate, contentBounds, contains)
    {
      if touchCount != 1 {
        return;
      }
      if touchOnDial {
        return;
      }
      UpdateImageSnapBoxFrame(point, orientation, contains);
    }

    /**
     * `touchesEnded`: when the box moved during the gesture it is inscribed
     * in the content bounds, the animation's completion run to the end;
     * either way the view ends between operations.
     */
    method TouchesEnded(orientation: Orientation, inscribe: (Rect, Rect) -> Rect)
      requires viewModel.Valid()
      modifies this`manualZoomed, this`imageStatusChangedCheckForForceFixedRatio, viewModel`imageSnapBoxFrame
      modifies viewModel`viewStatus, viewModel`statusNotifications
      ensures viewModel.Valid()
      ensures old(viewModel.NeedImageSnap()) ==>
                viewModel.imageSnapBoxFrame
                == inscribe(ContentBounds(bounds, orientation, angleDashboardHeight), old(viewModel.imageSnapBoxFrame))
                && manualZoomed
      ensures !old(viewModel.NeedImageSnap()) ==> unchanged(viewModel`imageSnapBoxFrame, this`manualZoomed)
      ensures viewModel.viewStatus == BetweenOperation
      ensures viewModel.statusNotifications == old(viewModel.statusNotifications) + [BetweenOperation]
      ensures imageStatusChangedCheckForForceFixedRatio
              == (old(imageStatusChangedCheckForForceFixedRatio) && !(forceFixedRatio && viewModel.TotalDegrees() == 0.0))
    {
      if viewModel.NeedImageSnap() {
        var contentRect := GetContentBounds(orientation);
        AdjustUIForNewImageSnap(contentRect, inscribe);
        SetBetweenOperationStatus();
      } else {
        SetBetweenOperationStatus();
      }
    }
  }
}
