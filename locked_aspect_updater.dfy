/**
 * ImageSnapBoxLockedAspectFrameUpdater: resizes the crop box from the frame
 * captured when the drag began while keeping that frame's width/height
 * ratio. A straight handle moves one side and re-derives the other; a corner
 * handle scales both sides by one averaged factor.
 */
module LockedAspect {

  import opened Geometry
  import W = Wrappers

  /** The ratio the update keeps, from the origin frame's raw size. */
  function AspectRatio(origin: Rect): real
    requires origin.height != 0.0
  {
    origin.width / origin.height
  }

  /** The origin frames a locked drag can divide by. */
  predicate Divisible(origin: Rect)
  {
    Width(origin) > 0.0 && Height(origin) > 0.0
  }

  /**
   * The corner table, built from the deltas as they are passed in: a corner
   * on the left (top) side shrinks by the x (y) delta, one on the right
   * (bottom) side grows by it. Straight handles and `.none` have no entry.
   */
  function CornerDeltaRule(edge: Edge, xDelta: real, yDelta: real): W.Option<Point>
  {
    match edge
    case TopLeft => W.Some(Point(xDelta, yDelta))
    case TopRight => W.Some(Point(-xDelta, yDelta))
    case BottomLeft => W.Some(Point(xDelta, -yDelta))
    case BottomRight => W.Some(Point(-xDelta, -yDelta))
    case _ => W.None
  }

  /** The averaged scale of a corner drag: the mean of the two fractional sizes 1 - delta/side. */
  function CornerScale(origin: Rect, delta: Point): real
    requires Divisible(origin)
  {
    ((1.0 - delta.x / Width(origin)) + (1.0 - delta.y / Height(origin))) * 0.5
  }

  /** Left handle: the delta is clamped to >= 0; y comes from the incoming width, centred on the origin. */
  function LeftDragFrame(origin: Rect, frame: Rect, xDelta: real): Rect
    requires Divisible(origin)
  {
    var ar := AspectRatio(origin);
    var dx := Max(0.0, xDelta);
    Rect(origin.x + dx, MidY(origin) - Abs(Width(frame) / ar) * 0.5, Width(origin) - dx, (Width(origin) - dx) / ar)
  }

  /** Right handle: the width grows by the delta, capped by the content height times the ratio. */
  function RightDragFrame(content: Rect, origin: Rect, frame: Rect, xDelta: real): Rect
    requires Divisible(origin)
  {
    var ar := AspectRatio(origin);
    var w := Min(Width(origin) + xDelta, Height(content) * ar);
    Rect(frame.x, MidY(origin) - Abs(Width(frame) / ar) * 0.5, w, w / ar)
  }

  /** Top handle: the delta is clamped to >= 0; the width is the origin height times the ratio. */
  function TopDragFrame(origin: Rect, frame: Rect, yDelta: real): Rect
    requires Divisible(origin)
  {
    var ar := AspectRatio(origin);
    var dy := Max(0.0, yDelta);
    Rect(MidX(origin) - Abs(Height(frame) * ar) * 0.5, origin.y + dy, origin.height * ar, Height(origin) - dy)
  }

  /** Bottom handle: the height grows by the delta, capped by the content width over the ratio. */
  function BottomDragFrame(content: Rect, origin: Rect, frame: Rect, yDelta: real): Rect
    requires Divisible(origin)
  {
    var ar := AspectRatio(origin);
    var h := Min(Height(origin) + yDelta, Width(content) / ar);
    Rect(MidX(origin) - Abs(Height(frame) * ar) * 0.5, frame.y, h * ar, h)
  }

  /**
   * The size a corner drag gives: the fractional distances 1 - dx/width and
   * 1 - dy/height are averaged into one scale, and both origin sides are
   * scaled by it and rounded up.
   */
  function CornerSize(origin: Rect, delta: Point): Size
    requires Divisible(origin)
  {
    Size(Ceil(Width(origin) * CornerScale(origin, delta)), Ceil(Height(origin) * CornerScale(origin, delta)))
  }

  /** Corner handles: the corner size, then the corner opposite the handle re-anchored. */
  function CornerDragFrame(edge: Edge, origin: Rect, frame: Rect, delta: Point): Rect
    requires Divisible(origin) && edge.IsCorner()
  {
    var size := CornerSize(origin, delta);
    var w, h := size.width, size.height;
    match edge
    case TopLeft => Rect(origin.x + (Width(origin) - Abs(w)), origin.y + (Height(origin) - Abs(h)), w, h)
    case TopRight => Rect(frame.x, origin.y + (Height(origin) - Abs(h)), w, h)
    case BottomLeft => Rect(MaxX(origin) - Abs(w), frame.y, w, h)
    case BottomRight => Rect(frame.x, frame.y, w, h)
  }

  /** The frame a locked-aspect drag produces, handle by handle. */
  function LockedAspectFrame(edge: Edge, content: Rect, origin: Rect, frame: Rect,
                             xDelta: real, yDelta: real): Rect
    requires Divisible(origin)
  {
    match edge
    case Left => LeftDragFrame(origin, frame, xDelta)
    case Right => RightDragFrame(content, origin, frame, xDelta)
    case Top => TopDragFrame(origin, frame, yDelta)
    case Bottom => BottomDragFrame(content, origin, frame, yDelta)
    case None => frame
    case _ => CornerDragFrame(edge, origin, frame, CornerDeltaRule(edge, xDelta, yDelta).value)
  }

  class LockedAspectFrameUpdater {
    var contentFrame: Rect
    var imageSnapOriginFrame: Rect
    var imageSnapBoxFrame: Rect
    var tappedEdge: Edge

    constructor (tappedEdge: Edge, contentFrame: Rect, imageSnapOriginFrame: Rect, imageSnapBoxFrame: Rect)
      ensures this.tappedEdge == tappedEdge && this.contentFrame == contentFrame
      ensures this.imageSnapOriginFrame == imageSnapOriginFrame && this.imageSnapBoxFrame == imageSnapBoxFrame
    {
      this.tappedEdge := tappedEdge;
      this.contentFrame := contentFrame;
      this.imageSnapOriginFrame := imageSnapOriginFrame;
      this.imageSnapBoxFrame := imageSnapBoxFrame;
    }

    /**
     * Dispatches on the tapped edge. The corner table is built from the
     * deltas before any handler runs, so the clamps of the top corners do
     * not reach it.
     */
    method UpdateImageSnapBoxFrame(xDelta: real, yDelta: real)
      requires Divisible(imageSnapOriginFrame)
      modifies this`imageSnapBoxFrame
      ensures imageSnapBoxFrame == LockedAspectFrame(tappedEdge, contentFrame, imageSnapOriginFrame,
                                                     old(imageSnapBoxFrame), xDelta, yDelta)
    {
      var dx, dy := xDelta, yDelta;
      var aspectRatio := imageSnapOriginFrame.width / imageSnapOriginFrame.height;
      var rule := CornerDeltaRule(tappedEdge, dx, dy);
      match tappedEdge {
        case Left => HandleLeftEdgeFrameUpdate(aspectRatio, dx);
        case Right => HandleRightEdgeFrameUpdate(aspectRatio, dx);
        case Top => HandleTopEdgeFrameUpdate(aspectRatio, dy);
        case Bottom => HandleBottomEdgeFrameUpdate(aspectRatio, dy);
        case TopLeft =>
          dx, dy := Max(0.0, dx), Max(0.0, dy);
          HandleTopLeftEdgeFrameUpdate(rule.value);
        case TopRight =>
          dx, dy := Max(0.0, dx), Max(0.0, dy);
          HandleTopRightEdgeFrameUpdate(rule.value);
        case BottomLeft => HandleBottomLeftEdgeFrameUpdate(rule.value);
        case BottomRight => SetImageSnapBoxSize(rule);
        case None =>
      }
    }

    /** Height from the current width, centred vertically on the origin frame. */
    method UpdateHeightFromBothSides(aspectRatio: real)
      requires Divisible(imageSnapOriginFrame) && aspectRatio == AspectRatio(imageSnapOriginFrame)
      modifies this`imageSnapBoxFrame
      ensures imageSnapBoxFrame == old(imageSnapBoxFrame).(
        y := MidY(imageSnapOriginFrame) - Abs(Width(old(imageSnapBoxFrame)) / aspectRatio) * 0.5,
        height := Width(old(imageSnapBoxFrame)) / aspectRatio)
    {
      imageSnapBoxFrame := imageSnapBoxFrame.(height := Width(imageSnapBoxFrame) / aspectRatio);
      imageSnapBoxFrame := imageSnapBoxFrame.(y := MidY(imageSnapOriginFrame) - Height(imageSnapBoxFrame) * 0.5);
    }

    /** Width from the current height, centred horizontally on the origin frame. */
    method UpdateWidthFromBothSides(aspectRatio: real)
      requires Divisible(imageSnapOriginFrame) && aspectRatio == AspectRatio(imageSnapOriginFrame)
      modifies this`imageSnapBoxFrame
      ensures imageSnapBoxFrame == old(imageSnapBoxFrame).(
        x := MidX(imageSnapOriginFrame) - Abs(Height(old(imageSnapBoxFrame)) * aspectRatio) * 0.5,
        width := Height(old(imageSnapBoxFrame)) * aspectRatio)
    {
      imageSnapBoxFrame := imageSnapBoxFrame.(width := Height(imageSnapBoxFrame) * aspectRatio);
      imageSnapBoxFrame := imageSnapBoxFrame.(x := MidX(imageSnapOriginFrame) - Width(imageSnapBoxFrame) * 0.5);
    }

    method HandleLeftEdgeFrameUpdate(aspectRatio: real, xDelta: real)
      requires Divisible(imageSnapOriginFrame) && aspectRatio == AspectRatio(imageSnapOriginFrame)
      modifies this`imageSnapBoxFrame
      ensures imageSnapBoxFrame == LeftDragFrame(imageSnapOriginFrame, old(imageSnapBoxFrame), xDelta)
    {
      UpdateHeightFromBothSides(aspectRatio);
      var dx := Max(0.0, xDelta);
      imageSnapBoxFrame := imageSnapBoxFrame.(x := imageSnapOriginFrame.x + dx);
      imageSnapBoxFrame := imageSnapBoxFrame.(width := Width(imageSnapOriginFrame) - dx);
      imageSnapBoxFrame := imageSnapBoxFrame.(height := imageSnapBoxFrame.width / aspectRatio);
    }

    method HandleRightEdgeFrameUpdate(aspectRatio: real, xDelta: real)
      requires Divisible(imageSnapOriginFrame) && aspectRatio == AspectRatio(imageSnapOriginFrame)
      modifies this`imageSnapBoxFrame
      ensures imageSnapBoxFrame == RightDragFrame(contentFrame, imageSnapOriginFrame, old(imageSnapBoxFrame), xDelta)
    {
      assert Height(contentFrame) * aspectRatio == Height(contentFrame) * AspectRatio(imageSnapOriginFrame);
      UpdateHeightFromBothSides(aspectRatio);
      imageSnapBoxFrame := imageSnapBoxFrame.(width := Min(Width(imageSnapOriginFrame) + xDelta,
                                                           Height(contentFrame) * aspectRatio));
      imageSnapBoxFrame := imageSnapBoxFrame.(height := imageSnapBoxFrame.width / aspectRatio);
    }

    method HandleTopEdgeFrameUpdate(aspectRatio: real, yDelta: real)
      requires Divisible(imageSnapOriginFrame) && aspectRatio == AspectRatio(imageSnapOriginFrame)
      modifies this`imageSnapBoxFrame
      ensures imageSnapBoxFrame == TopDragFrame(imageSnapOriginFrame, old(imageSnapBoxFrame), yDelta)
    {
      UpdateWidthFromBothSides(aspectRatio);
      var dy := Max(0.0, yDelta);
      imageSnapBoxFrame := imageSnapBoxFrame.(y := imageSnapOriginFrame.y + dy);
      imageSnapBoxFrame := imageSnapBoxFrame.(height := Height(imageSnapOriginFrame) - dy);
      imageSnapBoxFrame := imageSnapBoxFrame.(width := imageSnapOriginFrame.height * aspectRatio);
    }

    method HandleBottomEdgeFrameUpdate(aspectRatio: real, yDelta: real)
      requires Divisible(imageSnapOriginFrame) && aspectRatio == AspectRatio(imageSnapOriginFrame)
      modifies this`imageSnapBoxFrame
      ensures imageSnapBoxFrame == BottomDragFrame(contentFrame, imageSnapOriginFrame, old(imageSnapBoxFrame), yDelta)
    {
      UpdateWidthFromBothSides(aspectRatio);
      imageSnapBoxFrame := imageSnapBoxFrame.(height := Min(Height(imageSnapOriginFrame) + yDelta,
                                                            Width(contentFrame) / aspectRatio));
      imageSnapBoxFrame := imageSnapBoxFrame.(width := imageSnapBoxFrame.height * aspectRatio);
    }

    /** Both sides scaled by the averaged corner factor and rounded up; nothing happens without a table entry. */
    method SetImageSnapBoxSize(rule: W.Option<Point>)
      requires Divisible(imageSnapOriginFrame)
      modifies this`imageSnapBoxFrame
      ensures rule.None? ==> imageSnapBoxFrame == old(imageSnapBoxFrame)
      ensures rule.Some? ==>
        var size := CornerSize(imageSnapOriginFrame, rule.value);
        imageSnapBoxFrame == old(imageSnapBoxFrame).(width := size.width, height := size.height)
    {
      if rule.None? {
        return;
      }
      var size := CornerSize(imageSnapOriginFrame, rule.value);
      imageSnapBoxFrame := imageSnapBoxFrame.(width := size.width);
      imageSnapBoxFrame := imageSnapBoxFrame.(height := size.height);
    }

    method HandleTopLeftEdgeFrameUpdate(delta: Point)
      requires Divisible(imageSnapOriginFrame)
      modifies this`imageSnapBoxFrame
      ensures imageSnapBoxFrame == CornerDragFrame(TopLeft, imageSnapOriginFrame, old(imageSnapBoxFrame), delta)
    {
      SetImageSnapBoxSize(W.Some(delta));
      imageSnapBoxFrame := imageSnapBoxFrame.(x := imageSnapOriginFrame.x
                                                    + (Width(imageSnapOriginFrame) - Width(imageSnapBoxFrame)));
      imageSnapBoxFrame := imageSnapBoxFrame.(y := imageSnapOriginFrame.y
                                                    + (Height(imageSnapOriginFrame) - Height(imageSnapBoxFrame)));
    }

    method HandleTopRightEdgeFrameUpdate(delta: Point)
      requires Divisible(imageSnapOriginFrame)
      modifies this`imageSnapBoxFrame
      ensures imageSnapBoxFrame == CornerDragFrame(TopRight, imageSnapOriginFrame, old(imageSnapBoxFrame), delta)
    {
      SetImageSnapBoxSize(W.Some(delta));
      imageSnapBoxFrame := imageSnapBoxFrame.(y := imageSnapOriginFrame.y
                                                    + (Height(imageSnapOriginFrame) - Height(imageSnapBoxFrame)));
    }

    method HandleBottomLeftEdgeFrameUpdate(delta: Point)
      requires Divisible(imageSnapOriginFrame)
      modifies this`imageSnapBoxFrame
      ensures imageSnapBoxFrame == CornerDragFrame(BottomLeft, imageSnapOriginFrame, old(imageSnapBoxFrame), delta)
    {
      SetImageSnapBoxSize(W.Some(delta));
      imageSnapBoxFrame := imageSnapBoxFrame.(x := MaxX(imageSnapOriginFrame) - Width(imageSnapBoxFrame));
    }
  }

  // ---------------------------------------------------------------------
  // Arithmetic helpers
  // ---------------------------------------------------------------------

  lemma MulDivCancel(a: real, b: real)
    requires b != 0.0
    ensures (a / b) * b == a && (a * b) / b == a
  {
  }

  lemma MulPositive(a: real, b: real)
    requires a > 0.0 && b > 0.0
    ensures a * b > 0.0
  {
  }

  /** h in [hs, hs + 1) scales to h * ar in [hs * ar, hs * ar + ar). */
  lemma ScaleBracket(hs: real, h: real, ar: real)
    requires hs <= h < hs + 1.0 && ar > 0.0
    ensures hs * ar <= h * ar < hs * ar + ar
  {
    MulPositive(1.0 - (h - hs), ar);
    if hs < h { MulPositive(h - hs, ar); }
  }

  /** Scaling the origin height by s and then by width/height gives the origin width scaled by s. */
  lemma ScaledRatio(wo: real, ho: real, s: real, ar: real)
    requires ho != 0.0 && ar == wo / ho
    ensures (ho * s) * ar == wo * s
  {
    assert ho * ar == wo;
    assert (ho * s) * ar == s * (ho * ar);
  }

  lemma MulMonotone(a: real, b: real, c: real)
    requires a <= b && c > 0.0
    ensures a * c <= b * c
  {
    if a < b { MulPositive(b - a, c); }
  }

  lemma DivNonNegative(a: real, b: real)
    requires a >= 0.0 && b > 0.0
    ensures a / b >= 0.0
  {
  }

  lemma DivMonotone(a: real, b: real, c: real)
    requires a <= b && c > 0.0
    ensures a / c <= b / c
  {
    DivNonNegative(b - a, c);
    assert (b - a) / c == b / c - a / c;
  }

  /** A standard origin frame has a positive ratio. */
  lemma RatioPositive(origin: Rect)
    requires Divisible(origin) && IsStandard(origin)
    ensures AspectRatio(origin) > 0.0
  {
  }

  // ---------------------------------------------------------------------
  // Properties of the locked-aspect update
  // ---------------------------------------------------------------------

  /** Left, right and bottom drags keep width = height * ratio exactly. */
  lemma StraightEdgesKeepAspect(edge: Edge, content: Rect, origin: Rect, frame: Rect, xDelta: real, yDelta: real)
    requires Divisible(origin)
    requires edge == Left || edge == Right || edge == Bottom
    ensures var r := LockedAspectFrame(edge, content, origin, frame, xDelta, yDelta);
      r.width == r.height * AspectRatio(origin)
  {
    var r := LockedAspectFrame(edge, content, origin, frame, xDelta, yDelta);
    if edge != Bottom {
      MulDivCancel(r.width, AspectRatio(origin));
    }
  }

  /**
   * A top drag sets the width to origin height times ratio, which is the
   * origin width whatever the drag, so the ratio survives exactly when the
   * clamped delta is zero.
   */
  lemma TopDragKeepsOriginWidth(content: Rect, origin: Rect, frame: Rect, xDelta: real, yDelta: real)
    requires Divisible(origin) && IsStandard(origin)
    ensures var r := LockedAspectFrame(Top, content, origin, frame, xDelta, yDelta);
      r.width == Width(origin)
      && (r.width == r.height * AspectRatio(origin) <==> yDelta <= 0.0)
  {
    var ar := AspectRatio(origin);
    var r := LockedAspectFrame(Top, content, origin, frame, xDelta, yDelta);
    var dy := Max(0.0, yDelta);
    MulDivCancel(origin.width, origin.height);
    assert r.width == Width(origin);
    RatioPositive(origin);
    assert r.height * ar == Width(origin) - dy * ar;
    if dy > 0.0 {
      MulPositive(dy, ar);
    }
  }

  /** A left drag clamps its delta to >= 0, keeps the right side where the origin had it and never widens the box. */
  lemma LeftDragKeepsRightSide(content: Rect, origin: Rect, frame: Rect, xDelta: real, yDelta: real)
    requires Divisible(origin)
    ensures var r := LockedAspectFrame(Left, content, origin, frame, xDelta, yDelta);
      r.x == origin.x + Max(0.0, xDelta) && r.width == Width(origin) - Max(0.0, xDelta)
      && r.width <= Width(origin) && r.x + r.width == origin.x + Width(origin)
  {
  }

  /**
   * A left drag centres the box vertically on the origin frame only when the
   * incoming frame already had the new width: the y offset is taken from the
   * incoming width, before the new width is written.
   */
  lemma LeftDragCentresOnIncomingWidth(content: Rect, origin: Rect, frame: Rect, xDelta: real, yDelta: real)
    requires Divisible(origin) && IsStandard(origin)
    ensures var r := LockedAspectFrame(Left, content, origin, frame, xDelta, yDelta);
      MidY(r) == MidY(origin) <==> r.height == Width(frame) / AspectRatio(origin)
  {
    RatioPositive(origin);
    DivNonNegative(Width(frame), AspectRatio(origin));
  }

  /** A right drag caps the width at content height times ratio, so the height never exceeds the content height. */
  lemma RightDragStaysWithinContentHeight(content: Rect, origin: Rect, frame: Rect, xDelta: real, yDelta: real)
    requires Divisible(origin) && IsStandard(origin)
    ensures var r := LockedAspectFrame(Right, content, origin, frame, xDelta, yDelta);
      r.x == frame.x && r.width <= Width(origin) + xDelta
      && r.width <= Height(content) * AspectRatio(origin) && r.height <= Height(content)
  {
    var ar := AspectRatio(origin);
    var r := LockedAspectFrame(Right, content, origin, frame, xDelta, yDelta);
    RatioPositive(origin);
    DivMonotone(r.width, Height(content) * ar, ar);
    MulDivCancel(Height(content), ar);
  }

  /** A bottom drag caps the height at content width over ratio, so the width never exceeds the content width. */
  lemma BottomDragStaysWithinContentWidth(content: Rect, origin: Rect, frame: Rect, xDelta: real, yDelta: real)
    requires Divisible(origin) && IsStandard(origin)
    ensures var r := LockedAspectFrame(Bottom, content, origin, frame, xDelta, yDelta);
      r.y == frame.y && r.height <= Height(origin) + yDelta
      && r.height <= Width(content) / AspectRatio(origin) && r.width <= Width(content)
  {
    var ar := AspectRatio(origin);
    var r := LockedAspectFrame(Bottom, content, origin, frame, xDelta, yDelta);
    RatioPositive(origin);
    MulMonotone(r.height, Width(content) / ar, ar);
    MulDivCancel(Width(content), ar);
  }

  /** A top drag clamps its delta to >= 0 and keeps the bottom side where the origin had it. */
  lemma TopDragKeepsBottomSide(content: Rect, origin: Rect, frame: Rect, xDelta: real, yDelta: real)
    requires Divisible(origin)
    ensures var r := LockedAspectFrame(Top, content, origin, frame, xDelta, yDelta);
      r.y == origin.y + Max(0.0, yDelta) && r.height == Height(origin) - Max(0.0, yDelta)
      && r.height <= Height(origin) && r.y + r.height == origin.y + Height(origin)
  {
  }

  /**
   * The corner table gives each corner its own signs: the scale is the mean
   * of 1 - dx/width and 1 - dy/height, with dx negated for the right-hand
   * corners and dy negated for the bottom corners.
   */
  lemma CornerScaleFollowsTable(edge: Edge, origin: Rect, xDelta: real, yDelta: real)
    requires Divisible(origin) && edge.IsCorner()
    ensures var sx := if edge.DragsLeftSide() then xDelta else -xDelta;
      var sy := if edge.DragsTopSide() then yDelta else -yDelta;
      CornerScale(origin, CornerDeltaRule(edge, xDelta, yDelta).value)
        == ((1.0 - sx / Width(origin)) + (1.0 - sy / Height(origin))) / 2.0
  {
  }

  /** Each side of a corner drag is the origin side times the corner scale, rounded up. */
  lemma CornerSidesRoundUp(edge: Edge, content: Rect, origin: Rect, frame: Rect, xDelta: real, yDelta: real)
    requires Divisible(origin) && edge.IsCorner()
    ensures var r := LockedAspectFrame(edge, content, origin, frame, xDelta, yDelta);
      var s := CornerScale(origin, CornerDeltaRule(edge, xDelta, yDelta).value);
      Width(origin) * s <= r.width < Width(origin) * s + 1.0
      && Height(origin) * s <= r.height < Height(origin) * s + 1.0
  {
    CornerFrameHasCornerSize(edge, content, origin, frame, xDelta, yDelta);
  }

  /** A corner drag's size is the corner size of its table entry. */
  lemma CornerFrameHasCornerSize(edge: Edge, content: Rect, origin: Rect, frame: Rect, xDelta: real, yDelta: real)
    requires Divisible(origin) && edge.IsCorner()
    ensures var r := LockedAspectFrame(edge, content, origin, frame, xDelta, yDelta);
      var size := CornerSize(origin, CornerDeltaRule(edge, xDelta, yDelta).value);
      r.width == size.width && r.height == size.height
  {
  }

  /** Rounding both sides up keeps a corner result within the ratio up to rounding: -ratio < w - h * ratio < 1. */
  lemma CornerKeepsAspectUpToRounding(edge: Edge, content: Rect, origin: Rect, frame: Rect, xDelta: real, yDelta: real)
    requires Divisible(origin) && IsStandard(origin) && edge.IsCorner()
    ensures var r := LockedAspectFrame(edge, content, origin, frame, xDelta, yDelta);
      var ar := AspectRatio(origin);
      -ar < r.width - r.height * ar < 1.0
  {
    var ar := AspectRatio(origin);
    var size := CornerSize(origin, CornerDeltaRule(edge, xDelta, yDelta).value);
    var r := LockedAspectFrame(edge, content, origin, frame, xDelta, yDelta);
    assert r.width == size.width && r.height == size.height;
    RatioPositive(origin);
    var cs := CornerScale(origin, CornerDeltaRule(edge, xDelta, yDelta).value);
    ScaledRatio(Width(origin), Height(origin), cs, ar);
    RoundingBracket(Width(origin) * cs, Height(origin) * cs, ar, size.width, size.height);
  }

  /** Sides w in [ws, ws + 1) and h in [hs, hs + 1) with hs * ratio = ws differ from the ratio by less than one unit either way. */
  lemma RoundingBracket(ws: real, hs: real, ar: real, w: real, h: real)
    requires ar > 0.0 && hs * ar == ws
    requires ws <= w < ws + 1.0 && hs <= h < hs + 1.0
    ensures -ar < w - h * ar < 1.0
  {
    ScaleBracket(hs, h, ar);
    calc {
      h * ar;
    <
      hs * ar + ar;
    ==
      ws + ar;
    <=
      w + ar;
    }
    calc {
      h * ar;
    >=
      hs * ar;
    ==
      ws;
    >
      w - 1.0;
    }
  }

  /**
   * The corner table is built before the clamps of the top corners run, so
   * a top-left drag outwards (negative x delta) still widens the box.
   */
  lemma TopLeftDragCanGrow(content: Rect, origin: Rect, frame: Rect, xDelta: real)
    requires Divisible(origin) && xDelta < 0.0
    ensures LockedAspectFrame(TopLeft, content, origin, frame, xDelta, 0.0).width > Width(origin)
  {
    var s := CornerScale(origin, Point(xDelta, 0.0));
    DivNonNegative(-xDelta, Width(origin));
    assert -xDelta / Width(origin) == -(xDelta / Width(origin));
    if -xDelta / Width(origin) == 0.0 {
      MulDivCancel(-xDelta, Width(origin));
    }
    assert s > 1.0;
    MulPositive(s - 1.0, Width(origin));
  }

  /** Each corner drag keeps the corner opposite its handle where the origin frame (or the incoming frame) had it. */
  lemma CornerKeepsOppositeCorner(edge: Edge, content: Rect, origin: Rect, frame: Rect, xDelta: real, yDelta: real)
    requires Divisible(origin) && edge.IsCorner()
    ensures var r := LockedAspectFrame(edge, content, origin, frame, xDelta, yDelta);
      match edge
      case TopLeft => r.x + Width(r) == origin.x + Width(origin) && r.y + Height(r) == origin.y + Height(origin)
      case TopRight => r.x == frame.x && r.y + Height(r) == origin.y + Height(origin)
      case BottomLeft => r.x + Width(r) == MaxX(origin) && r.y == frame.y
      case BottomRight => r.x == frame.x && r.y == frame.y
      case _ => false
  {
  }

  /** With no handle the frame is unchanged. */
  lemma NoEdgeLeavesFrame(content: Rect, origin: Rect, frame: Rect, xDelta: real, yDelta: real)
    requires Divisible(origin)
    ensures LockedAspectFrame(None, content, origin, frame, xDelta, yDelta) == frame
  {
  }

  /**
   * Bottom-right drag of 50 on (0, 0, 200, 100): the scale is 1.125 and
   * rounding the height 112.5 up gives (0, 0, 225, 113), not exactly 2:1.
   */
  lemma BottomRightScenario()
    ensures var o := Rect(0.0, 0.0, 200.0, 100.0);
      LockedAspectFrame(BottomRight, o, o, o, 50.0, 0.0) == Rect(0.0, 0.0, 225.0, 113.0)
  {
    var o := Rect(0.0, 0.0, 200.0, 100.0);
    assert CornerScale(o, Point(-50.0, -0.0)) == 1.125;
    assert CeilInt(225.0) == 225;
    assert CeilInt(112.5) == 113;
  }
}
