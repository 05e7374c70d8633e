/**
 * ImageSnapViewModel: the state the crop view keeps between touches — the
 * status machine, the crop box and its gesture-start snapshot, the quarter
 * turn quadrant and the fixed aspect ratio — and the per-touch computations
 * that read it.
 *
 * Angles are in degrees: every radian value ImageSnap computes is the degree
 * value times pi/180, so `GetTotalDegrees` is `getTotalRadias` scaled.
 */
module ViewModel {

  import opened Geometry
  import W = Wrappers
  import FreeAspect
  import LockedAspect

  /** The rotation quadrant; the raw values are the angle of the image in degrees. */
  datatype ImageRotationType = NoRotation | Counterclockwise90 | Counterclockwise180 | Counterclockwise270
  {
    function RawValue(): real
    {
      match this
      case NoRotation => 0.0
      case Counterclockwise90 => -90.0
      case Counterclockwise180 => -180.0
      case Counterclockwise270 => -270.0
    }

    /** The failable `init(rawValue:)` of the enum. */
    static function FromRawValue(raw: real): (r: W.Option<ImageRotationType>)
      ensures r.Some? ==> r.value.RawValue() == raw
    {
      if raw == 0.0 then W.Some(NoRotation)
      else if raw == -90.0 then W.Some(Counterclockwise90)
      else if raw == -180.0 then W.Some(Counterclockwise180)
      else if raw == -270.0 then W.Some(Counterclockwise270)
      else W.None
    }

    /** `counterclockwiseRotate90`: the next raw value 90 lower, with -270 wrapping to none. */
    function CounterclockwiseRotated90(): ImageRotationType
    {
      if this == Counterclockwise270 then NoRotation
      else
        match FromRawValue(RawValue() - 90.0)
        case Some(r) => r
        case None => NoRotation
    }

    /** `clockwiseRotate90`: the explicit table of the switch. */
    function ClockwiseRotated90(): ImageRotationType
    {
      match this
      case Counterclockwise90 => NoRotation
      case Counterclockwise180 => Counterclockwise90
      case Counterclockwise270 => Counterclockwise180
      case NoRotation => Counterclockwise270
    }

    /** The image shows its original orientation or upside down. */
    predicate IsUpOrUpsideDown()
    {
      this == NoRotation || this == Counterclockwise180
    }

    /**
     * `getRatioType(byImageIsOriginalHorizontal:)`: the ratio type of the image
     * as displayed; a quarter turn swaps horizontal and vertical.
     */
    function GetRatioType(isHorizontal: bool): (t: RatioType)
      ensures t == Horizontal <==> (isHorizontal <==> IsUpOrUpsideDown())
    {
      if IsUpOrUpsideDown() then (if isHorizontal then Horizontal else Vertical)
      else (if isHorizontal then Vertical else Horizontal)
    }
  }

  datatype RatioType = Horizontal | Vertical

  /** The states of the crop view; `angle` is in degrees. */
  datatype ImageSnapViewStatus =
    | Initial
    | Rotating(angle: real)
    | Degree90Rotating
    | TouchImage
    | TouchRotationBoard
    | TouchImageSnapboxHandle(tappedEdge: Edge)
    | BetweenOperation

  /** The hot area around the crop box in which a touch grabs a handle: the box grown by half a hot area unit. */
  function TouchRect(box: Rect): (q: Rect)
    ensures IsStandard(q)
    ensures MinX(q) == MinX(box) - 16.0 && MaxX(q) == MaxX(box) + 16.0
    ensures MinY(q) == MinY(box) - 16.0 && MaxY(q) == MaxY(box) + 16.0
  {
    Outset(box, HotAreaUnit / 2.0)
  }

  /**
   * The touch point of a drag, moved right/down so that it is never more than
   * the view padding left of or above the content frame.
   */
  function ClampedTouchPoint(point: Point, contentFrame: Rect): (p: Point)
    ensures p.x >= contentFrame.x - ImageSnapViewPadding && p.x >= point.x
    ensures p.x == point.x || p.x == contentFrame.x - ImageSnapViewPadding
    ensures p.y >= contentFrame.y - ImageSnapViewPadding && p.y >= point.y
    ensures p.y == point.y || p.y == contentFrame.y - ImageSnapViewPadding
  {
    Point(Max(contentFrame.x - ImageSnapViewPadding, point.x),
          Max(contentFrame.y - ImageSnapViewPadding, point.y))
  }

  /** The drag distance from the pan origin, each axis rounded up to a whole number. */
  function DragDelta(panOriginPoint: Point, point: Point): (d: Point)
    ensures d.x - 1.0 < point.x - panOriginPoint.x <= d.x
    ensures d.y - 1.0 < point.y - panOriginPoint.y <= d.y
    ensures d.x == d.x.Floor as real && d.y == d.y.Floor as real
  {
    Point(Ceil(point.x - panOriginPoint.x), Ceil(point.y - panOriginPoint.y))
  }

  /**
   * The crop box a drag to `point` asks for: the clamped, rounded delta from
   * the pan origin handed to the locked-aspect updater when the lock is on and
   * to the free-aspect updater otherwise, both starting from the snapshot.
   */
  function NewImageSnapBoxFrame(edge: Edge, panOriginPoint: Point, originFrame: Rect, boxFrame: Rect,
                                point: Point, contentFrame: Rect, aspectRatioLockEnabled: bool): Rect
    requires aspectRatioLockEnabled ==> LockedAspect.Divisible(originFrame)
  {
    var d := DragDelta(panOriginPoint, ClampedTouchPoint(point, contentFrame));
    if aspectRatioLockEnabled then
      LockedAspect.LockedAspectFrame(edge, contentFrame, originFrame, boxFrame, d.x, d.y)
    else
      FreeAspect.FreeAspectFrame(edge, originFrame, boxFrame, MinimumAspectRatio, d.x, d.y)
  }

  /**
   * `setImageSnapBoxFrame(by:and:)`: the reference box given the fixed aspect
   * ratio, keeping its width when the ratio is wider than the image's and its
   * height otherwise, and re-centred on the reference box's centre.
   */
  function AspectFitFrame(ref: Rect, aspectRatio: real, imageRatioH: real): Rect
    requires aspectRatio > imageRatioH ==> aspectRatio != 0.0
  {
    var sized := if aspectRatio > imageRatioH then ref.(height := Width(ref) / aspectRatio)
                 else ref.(width := Height(ref) * aspectRatio);
    sized.(x := MidX(ref) - Width(sized) / 2.0, y := MidY(ref) - Height(sized) / 2.0)
  }

  class ImageSnapViewModel {
    var viewStatus: ImageSnapViewStatus
    /** Every status handed to the `statusChanged` observer, oldest first. */
    var statusNotifications: seq<ImageSnapViewStatus>
    var imageSnapBoxFrame: Rect
    /** The crop box captured when the current gesture began (`imageSnapOrignFrame`). */
    var imageSnapOriginFrame: Rect
    var panOriginPoint: Point
    var tappedEdge: Edge
    var degrees: real
    var rotationType: ImageRotationType
    /** The fixed aspect ratio; -1 when none is set. */
    var aspectRatio: real
    var imageSnapLeftTopOnImage: Point
    var imageSnapRightBottomOnImage: Point

    /** The observer has seen the current status last (or nothing yet). */
    predicate Valid()
      reads this
    {
      statusNotifications == [] || statusNotifications[|statusNotifications| - 1] == viewStatus
    }

    constructor ()
      ensures Valid()
      ensures viewStatus == Initial && statusNotifications == []
      ensures imageSnapBoxFrame == ZeroRect && imageSnapOriginFrame == ZeroRect
      ensures panOriginPoint == ZeroPoint && tappedEdge == None
      ensures degrees == 0.0 && rotationType == NoRotation && aspectRatio == -1.0
      ensures imageSnapLeftTopOnImage == ZeroPoint && imageSnapRightBottomOnImage == Point(1.0, 1.0)
    {
      viewStatus := Initial;
      statusNotifications := [];
      imageSnapBoxFrame := ZeroRect;
      imageSnapOriginFrame := ZeroRect;
      panOriginPoint := ZeroPoint;
      tappedEdge := None;
      degrees := 0.0;
      rotationType := NoRotation;
      aspectRatio := -1.0;
      imageSnapLeftTopOnImage := ZeroPoint;
      imageSnapRightBottomOnImage := Point(1.0, 1.0);
    }

    /** The `didSet` of `viewStatus`: store the status and tell the observer. */
    method SetViewStatus(status: ImageSnapViewStatus)
      modifies this`viewStatus, this`statusNotifications
      ensures Valid()
      ensures viewStatus == status && statusNotifications == old(statusNotifications) + [status]
    {
      viewStatus := status;
      statusNotifications := statusNotifications + [status];
    }

    method SetInitialStatus()
      modifies this`viewStatus, this`statusNotifications
      ensures Valid()
      ensures viewStatus == Initial && statusNotifications == old(statusNotifications) + [Initial]
    {
      SetViewStatus(Initial);
    }

    method SetRotatingStatus(angle: real)
      modifies this`viewStatus, this`statusNotifications
      ensures Valid()
      ensures viewStatus == Rotating(angle) && statusNotifications == old(statusNotifications) + [Rotating(angle)]
    {
      SetViewStatus(Rotating(angle));
    }

    method SetDegree90RotatingStatus()
      modifies this`viewStatus, this`statusNotifications
      ensures Valid()
      ensures viewStatus == Degree90Rotating
      ensures statusNotifications == old(statusNotifications) + [Degree90Rotating]
    {
      SetViewStatus(Degree90Rotating);
    }

    method SetTouchImageStatus()
      modifies this`viewStatus, this`statusNotifications
      ensures Valid()
      ensures viewStatus == TouchImage && statusNotifications == old(statusNotifications) + [TouchImage]
    {
      SetViewStatus(TouchImage);
    }

    method SetTouchRotationBoardStatus()
      modifies this`viewStatus, this`statusNotifications
      ensures Valid()
      ensures viewStatus == TouchRotationBoard
      ensures statusNotifications == old(statusNotifications) + [TouchRotationBoard]
    {
      SetViewStatus(TouchRotationBoard);
    }

    /** The handle status carries the edge stored by the last `PrepareForImageSnap`. */
    method SetTouchImageSnapboxHandleStatus()
      modifies this`viewStatus, this`statusNotifications
      ensures Valid()
      ensures viewStatus == TouchImageSnapboxHandle(tappedEdge)
      ensures statusNotifications == old(statusNotifications) + [TouchImageSnapboxHandle(tappedEdge)]
    {
      SetViewStatus(TouchImageSnapboxHandle(tappedEdge));
    }

    method SetBetweenOperationStatus()
      modifies this`viewStatus, this`statusNotifications
      ensures Valid()
      ensures viewStatus == BetweenOperation
      ensures statusNotifications == old(statusNotifications) + [BetweenOperation]
    {
      SetViewStatus(BetweenOperation);
    }

    /**
     * Clears the crop box, the rotation and the anchors and returns to the
     * initial status; the fixed ratio survives only when it is forced. The
     * gesture snapshot, pan origin and tapped edge are left as they were.
     */
    method Reset(forceFixedRatio: bool)
      modifies this
      ensures Valid()
      ensures imageSnapBoxFrame == ZeroRect && degrees == 0.0 && rotationType == NoRotation
      ensures aspectRatio == (if forceFixedRatio then old(aspectRatio) else -1.0)
      ensures imageSnapLeftTopOnImage == ZeroPoint && imageSnapRightBottomOnImage == Point(1.0, 1.0)
      ensures viewStatus == Initial && statusNotifications == old(statusNotifications) + [Initial]
      ensures imageSnapOriginFrame == old(imageSnapOriginFrame) && panOriginPoint == old(panOriginPoint)
      ensures tappedEdge == old(tappedEdge)
    {
      imageSnapBoxFrame := ZeroRect;
      degrees := 0.0;
      rotationType := NoRotation;
      if !forceFixedRatio {
        aspectRatio := -1.0;
      }
      imageSnapLeftTopOnImage := ZeroPoint;
      imageSnapRightBottomOnImage := Point(1.0, 1.0);
      SetInitialStatus();
    }

    /** A negative angle turns counterclockwise; zero and positive angles turn clockwise. */
    method RotateBy90(rotateAngle: real)
      modifies this`rotationType
      ensures rotationType == (if rotateAngle < 0.0 then old(rotationType).CounterclockwiseRotated90()
                               else old(rotationType).ClockwiseRotated90())
    {
      if rotateAngle < 0.0 {
        CounterclockwiseRotateBy90();
      } else {
        ClockwiseRotateBy90();
      }
    }

    method CounterclockwiseRotateBy90()
      modifies this`rotationType
      ensures rotationType == old(rotationType).CounterclockwiseRotated90()
    {
      rotationType := rotationType.CounterclockwiseRotated90();
    }

    method ClockwiseRotateBy90()
      modifies this`rotationType
      ensures rotationType == old(rotationType).ClockwiseRotated90()
    {
      rotationType := rotationType.ClockwiseRotated90();
    }

    /**
     * `getTotalRadias(by:)` in degrees: the given angle plus the quadrant
     * angle, which is a whole number of quarter turns between -270 and 0.
     */
    function GetTotalDegrees(angle: real): (t: real)
      reads this
      ensures -270.0 <= t - angle <= 0.0
      ensures t - angle == 0.0 || t - angle == -90.0 || t - angle == -180.0 || t - angle == -270.0
      ensures t - angle == 0.0 || t - angle == -180.0 <==> rotationType.IsUpOrUpsideDown()
    {
      angle + rotationType.RawValue()
    }

    /** `getTotalRadians()` in degrees: the dial's angle plus the quadrant angle. */
    function TotalDegrees(): real
      reads this
    {
      GetTotalDegrees(degrees)
    }

    /** The handle under `point`, found in the crop box grown into its touch rect. */
    function ImageSnapEdge(point: Point, edgeOf: (Point, Rect) -> Edge): Edge
      reads this
    {
      edgeOf(point, TouchRect(imageSnapBoxFrame))
    }

    /**
     * Takes the gesture snapshot (pan origin and the current box as origin
     * frame), records the handle hit, and enters the matching touch status.
     */
    method PrepareForImageSnap(point: Point, edgeOf: (Point, Rect) -> Edge)
      modifies this`panOriginPoint, this`imageSnapOriginFrame, this`tappedEdge
      modifies this`viewStatus, this`statusNotifications
      ensures Valid()
      ensures panOriginPoint == point && imageSnapOriginFrame == imageSnapBoxFrame
      ensures tappedEdge == edgeOf(point, TouchRect(imageSnapBoxFrame))
      ensures viewStatus == (if tappedEdge == None then TouchImage else TouchImageSnapboxHandle(tappedEdge))
      ensures statusNotifications == old(statusNotifications) + [viewStatus]
    {
      panOriginPoint := point;
      imageSnapOriginFrame := imageSnapBoxFrame;
      tappedEdge := ImageSnapEdge(point, edgeOf);
      if tappedEdge == None {
        SetTouchImageStatus();
      } else {
        SetTouchImageSnapboxHandleStatus();
      }
    }

    method ResetImageSnapFrame(frame: Rect)
      modifies this`imageSnapBoxFrame, this`imageSnapOriginFrame
      ensures imageSnapBoxFrame == frame && imageSnapOriginFrame == frame
      ensures !NeedImageSnap()
    {
      imageSnapBoxFrame := frame;
      imageSnapOriginFrame := frame;
    }

    /** `needImageSnap()`: the box, compared by `equalTo`, moved away from the gesture snapshot. */
    predicate NeedImageSnap()
      reads this
    {
      !EqualTo(imageSnapOriginFrame, imageSnapBoxFrame)
    }

    /** Runs the updater the lock selects on a copy of the snapshot and returns its box. */
    method GetNewImageSnapBoxFrame(point: Point, contentFrame: Rect, aspectRatioLockEnabled: bool)
      returns (r: Rect)
      requires aspectRatioLockEnabled ==> LockedAspect.Divisible(imageSnapOriginFrame)
      ensures r == NewImageSnapBoxFrame(tappedEdge, panOriginPoint, imageSnapOriginFrame, imageSnapBoxFrame,
                                        point, contentFrame, aspectRatioLockEnabled)
    {
      var p := point;
      p := p.(x := Max(contentFrame.x - ImageSnapViewPadding, p.x));
      p := p.(y := Max(contentFrame.y - ImageSnapViewPadding, p.y));
      var xDelta := Ceil(p.x - panOriginPoint.x);
      var yDelta := Ceil(p.y - panOriginPoint.y);
      if aspectRatioLockEnabled {
        var updater := new LockedAspect.LockedAspectFrameUpdater(tappedEdge, contentFrame,
                                                                 imageSnapOriginFrame, imageSnapBoxFrame);
        updater.UpdateImageSnapBoxFrame(xDelta, yDelta);
        r := updater.imageSnapBoxFrame;
      } else {
        var updater := new FreeAspect.FreeAspectFrameUpdater(tappedEdge, contentFrame,
                                                             imageSnapOriginFrame, imageSnapBoxFrame);
        updater.UpdateImageSnapBoxFrame(xDelta, yDelta);
        r := updater.imageSnapBoxFrame;
      }
    }

    method SetImageSnapBoxFrame(ref: Rect, imageRatioH: real)
      requires aspectRatio > imageRatioH ==> aspectRatio != 0.0
      modifies this`imageSnapBoxFrame
      ensures imageSnapBoxFrame == AspectFitFrame(ref, aspectRatio, imageRatioH)
    {
      var frame := ref;
      var centerX, centerY := MidX(frame), MidY(frame);
      if aspectRatio > imageRatioH {
        frame := frame.(height := Width(frame) / aspectRatio);
      } else {
        frame := frame.(width := Height(frame) * aspectRatio);
      }
      frame := frame.(x := centerX - Width(frame) / 2.0);
      frame := frame.(y := centerY - Height(frame) / 2.0);
      imageSnapBoxFrame := frame;
    }
  }

  // ---------------------------------------------------------------------
  // Properties of the quadrant enum
  // ---------------------------------------------------------------------

  lemma RawValueRoundTrip(r: ImageRotationType)
    ensures ImageRotationType.FromRawValue(r.RawValue()) == W.Some(r)
  {
  }

  /** Counterclockwise: none -> -90 -> -180 -> -270 -> none; the angle drops by 90 modulo 360. */
  lemma CounterclockwiseCycle(r: ImageRotationType)
    ensures r.CounterclockwiseRotated90().RawValue() ==
            (if r == Counterclockwise270 then 0.0 else r.RawValue() - 90.0)
    ensures r.CounterclockwiseRotated90().CounterclockwiseRotated90()
             .CounterclockwiseRotated90().CounterclockwiseRotated90() == r
  {
    match r
    case NoRotation =>
      assert ImageRotationType.FromRawValue(-90.0) == W.Some(Counterclockwise90);
    case Counterclockwise90 =>
      assert ImageRotationType.FromRawValue(-180.0) == W.Some(Counterclockwise180);
    case Counterclockwise180 =>
      assert ImageRotationType.FromRawValue(-270.0) == W.Some(Counterclockwise270);
    case Counterclockwise270 =>
  }

  /** Clockwise: none -> -270 -> -180 -> -90 -> none; the angle rises by 90 modulo 360. */
  lemma ClockwiseCycle(r: ImageRotationType)
    ensures r.ClockwiseRotated90().RawValue() ==
            (if r == NoRotation then -270.0 else r.RawValue() + 90.0)
    ensures r.ClockwiseRotated90().ClockwiseRotated90().ClockwiseRotated90().ClockwiseRotated90() == r
  {
  }

  lemma RotationsAreInverse(r: ImageRotationType)
    ensures r.ClockwiseRotated90().CounterclockwiseRotated90() == r
    ensures r.CounterclockwiseRotated90().ClockwiseRotated90() == r
  {
    CounterclockwiseCycle(r);
    CounterclockwiseCycle(r.ClockwiseRotated90());
  }

  /** Every quarter turn, in either direction, swaps upright and sideways. */
  lemma QuarterTurnSwapsOrientation(r: ImageRotationType, isHorizontal: bool)
    ensures r.CounterclockwiseRotated90().IsUpOrUpsideDown() == !r.IsUpOrUpsideDown()
    ensures r.ClockwiseRotated90().IsUpOrUpsideDown() == !r.IsUpOrUpsideDown()
    ensures r.CounterclockwiseRotated90().GetRatioType(isHorizontal) != r.GetRatioType(isHorizontal)
  {
    CounterclockwiseCycle(r);
  }

  // ---------------------------------------------------------------------
  // Properties of a drag
  // ---------------------------------------------------------------------

  /** Without a handle the box is returned as it was, lock or no lock. */
  lemma NoHandleKeepsBox(panOriginPoint: Point, originFrame: Rect, boxFrame: Rect, point: Point,
                         contentFrame: Rect, aspectRatioLockEnabled: bool)
    requires aspectRatioLockEnabled ==> LockedAspect.Divisible(originFrame)
    ensures NewImageSnapBoxFrame(None, panOriginPoint, originFrame, boxFrame, point, contentFrame,
                                 aspectRatioLockEnabled) == boxFrame
  {
    var d := DragDelta(panOriginPoint, ClampedTouchPoint(point, contentFrame));
    if aspectRatioLockEnabled {
      LockedAspect.NoEdgeLeavesFrame(contentFrame, originFrame, boxFrame, d.x, d.y);
    } else {
      FreeAspect.NoEdgeLeavesFrame(originFrame, boxFrame, MinimumAspectRatio, d.x, d.y);
    }
  }

  /**
   * Without the lock, a corner handle released where it was grabbed (inside
   * the clamp) restores the snapshot's size, whatever the box had become
   * meanwhile; the top-left handle, which also moves the origin, restores the
   * whole snapshot.
   */
  lemma FreeCornerReturnsToSnapshot(edge: Edge, panOriginPoint: Point, originFrame: Rect, boxFrame: Rect,
                                    contentFrame: Rect)
    requires edge.IsCorner() && IsStandard(originFrame)
    requires panOriginPoint.x >= contentFrame.x - ImageSnapViewPadding
    requires panOriginPoint.y >= contentFrame.y - ImageSnapViewPadding
    requires FreeAspect.AspectRatioValid(Size(originFrame.width, originFrame.height), MinimumAspectRatio)
    ensures var r := NewImageSnapBoxFrame(edge, panOriginPoint, originFrame, boxFrame, panOriginPoint,
                                          contentFrame, false);
            r.width == originFrame.width && r.height == originFrame.height
            && (edge == TopLeft ==> r == originFrame)
  {
    var d := DragDelta(panOriginPoint, ClampedTouchPoint(panOriginPoint, contentFrame));
    assert d == Point(0.0, 0.0);
    var s := FreeAspect.NewFrameSize(edge, originFrame, 0.0, 0.0);
    assert s == Size(originFrame.width, originFrame.height);
  }

  /** Touches beyond the padding left of or above the content drag exactly like touches on the padding line. */
  lemma ClampedTouchesDragAlike(edge: Edge, panOriginPoint: Point, originFrame: Rect, boxFrame: Rect,
                                point: Point, contentFrame: Rect, aspectRatioLockEnabled: bool)
    requires aspectRatioLockEnabled ==> LockedAspect.Divisible(originFrame)
    requires point.x <= contentFrame.x - ImageSnapViewPadding
    requires point.y <= contentFrame.y - ImageSnapViewPadding
    ensures var corner := Point(contentFrame.x - ImageSnapViewPadding, contentFrame.y - ImageSnapViewPadding);
            NewImageSnapBoxFrame(edge, panOriginPoint, originFrame, boxFrame, point, contentFrame,
                                 aspectRatioLockEnabled)
            == NewImageSnapBoxFrame(edge, panOriginPoint, originFrame, boxFrame, corner, contentFrame,
                                    aspectRatioLockEnabled)
  {
    var corner := Point(contentFrame.x - ImageSnapViewPadding, contentFrame.y - ImageSnapViewPadding);
    assert ClampedTouchPoint(point, contentFrame) == ClampedTouchPoint(corner, contentFrame);
  }

  // ---------------------------------------------------------------------
  // Properties of the aspect fit
  // ---------------------------------------------------------------------

  /** For a positive ratio the fit keeps the side the comparison names and has the fixed ratio. */
  lemma AspectFitHasRatio(ref: Rect, aspectRatio: real, imageRatioH: real)
    requires IsStandard(ref) && aspectRatio > 0.0
    ensures var r := AspectFitFrame(ref, aspectRatio, imageRatioH);
            r.width == r.height * aspectRatio
            && (aspectRatio > imageRatioH ==> r.width == ref.width)
            && (aspectRatio <= imageRatioH ==> r.height == ref.height)
  {
    var r := AspectFitFrame(ref, aspectRatio, imageRatioH);
    if aspectRatio > imageRatioH {
      LockedAspect.MulDivCancel(ref.width, aspectRatio);
    }
  }

  /** For a standard reference box and a positive ratio the fit is centred on the reference box. */
  lemma AspectFitKeepsCenter(ref: Rect, aspectRatio: real, imageRatioH: real)
    requires IsStandard(ref) && aspectRatio > 0.0
    ensures var r := AspectFitFrame(ref, aspectRatio, imageRatioH);
            IsStandard(r) && MidX(r) == MidX(ref) && MidY(r) == MidY(ref)
  {
    if aspectRatio > imageRatioH {
      LockedAspect.DivNonNegative(ref.width, aspectRatio);
    } else {
      if ref.height > 0.0 {
        LockedAspect.MulPositive(ref.height, aspectRatio);
      }
    }
  }

  /**
   * When the reference box already has the image's ratio, the fitted box lies
   * inside it: the side the fit recomputes can only shrink.
   */
  lemma AspectFitStaysInside(ref: Rect, aspectRatio: real, imageRatioH: real)
    requires IsStandard(ref) && aspectRatio > 0.0 && imageRatioH > 0.0
    requires ref.width == ref.height * imageRatioH
    ensures InsideRect(AspectFitFrame(ref, aspectRatio, imageRatioH), ref)
  {
    var r := AspectFitFrame(ref, aspectRatio, imageRatioH);
    AspectFitKeepsCenter(ref, aspectRatio, imageRatioH);
    AspectFitHasRatio(ref, aspectRatio, imageRatioH);
    if ref.height > 0.0 {
      if aspectRatio > imageRatioH {
        LockedAspect.MulMonotone(imageRatioH, aspectRatio, ref.height);
        calc {
          r.height * aspectRatio;
          r.width;
          ref.width;
          ref.height * imageRatioH;
        <=
          ref.height * aspectRatio;
        }
        if r.height > ref.height {
          LockedAspect.MulPositive(r.height - ref.height, aspectRatio);
        }
      } else {
        LockedAspect.MulMonotone(aspectRatio, imageRatioH, ref.height);
      }
    }
  }
}
