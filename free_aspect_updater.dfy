/**
 * ImageSnapBoxFreeAspectFrameUpdater: resizes the crop box from the frame
 * captured when the drag began, with no coupling between width and height.
 */
module FreeAspect {

  import opened Geometry
  import W = Wrappers

  /**
   * The fixed sign table of the updater: the change in (width, height) that a
   * drag of (xDelta, yDelta) on each handle makes; `.none` has no entry.
   */
  function SizeDeltaRule(edge: Edge, xDelta: real, yDelta: real): W.Option<Size>
  {
    match edge
    case Left => W.Some(Size(-xDelta, 0.0))
    case Right => W.Some(Size(xDelta, 0.0))
    case Top => W.Some(Size(0.0, -yDelta))
    case Bottom => W.Some(Size(0.0, yDelta))
    case TopLeft => W.Some(Size(-xDelta, -yDelta))
    case TopRight => W.Some(Size(xDelta, -yDelta))
    case BottomLeft => W.Some(Size(-xDelta, yDelta))
    case BottomRight => W.Some(Size(xDelta, yDelta))
    case None => W.None
  }

  /**
   * The size a drag asks for: the origin frame's size changed by the table
   * entry. A handle on the left (top) side shrinks the width (height) by the
   * delta, one on the right (bottom) side grows it.
   */
  function NewFrameSize(edge: Edge, origin: Rect, xDelta: real, yDelta: real): (s: Size)
    ensures edge == None ==> s == Size(origin.width, origin.height)
    ensures edge != None ==>
      s.width == Width(origin) + (if edge.DragsLeftSide() then -xDelta
                                  else if edge.DragsRightSide() then xDelta else 0.0)
    ensures edge != None ==>
      s.height == Height(origin) + (if edge.DragsTopSide() then -yDelta
                                    else if edge.DragsBottomSide() then yDelta else 0.0)
  {
    match SizeDeltaRule(edge, xDelta, yDelta)
    case None => Size(origin.width, origin.height)
    case Some(d) => Size(Width(origin) + d.width, Height(origin) + d.height)
  }

  /**
   * The aspect floor: min(w, h) / max(w, h) >= minimumAspectRatio. When the
   * larger side is 0 the quotient is NaN or -infinity in floating point and
   * the comparison is false.
   */
  predicate AspectRatioValid(s: Size, minimumAspectRatio: real)
  {
    var lo := Min(s.width, s.height);
    var hi := Max(s.width, s.height);
    hi != 0.0 && lo / hi >= minimumAspectRatio
  }

  /**
   * The frame a drag produces, stated per axis: when the handle has a table
   * entry and the new size passes the aspect floor, each side the handle
   * touches takes the new extent, and a left (top) side also moves the origin
   * by the delta; everything else is the incoming frame.
   */
  function FreeAspectFrame(edge: Edge, origin: Rect, frame: Rect, minimumAspectRatio: real,
                           xDelta: real, yDelta: real): Rect
  {
    var s := NewFrameSize(edge, origin, xDelta, yDelta);
    if edge == None || !AspectRatioValid(s, minimumAspectRatio) then frame
    else Rect(if edge.DragsLeftSide() then origin.x + xDelta else frame.x,
              if edge.DragsTopSide() then origin.y + yDelta else frame.y,
              if edge.DragsLeftSide() || edge.DragsRightSide() then s.width else frame.width,
              if edge.DragsTopSide() || edge.DragsBottomSide() then s.height else frame.height)
  }

  class FreeAspectFrameUpdater {
    var minimumAspectRatio: real
    var contentFrame: Rect
    var imageSnapOriginFrame: Rect
    var imageSnapBoxFrame: Rect
    var tappedEdge: Edge

    constructor (tappedEdge: Edge, contentFrame: Rect, imageSnapOriginFrame: Rect, imageSnapBoxFrame: Rect)
      ensures this.tappedEdge == tappedEdge && this.contentFrame == contentFrame
      ensures this.imageSnapOriginFrame == imageSnapOriginFrame && this.imageSnapBoxFrame == imageSnapBoxFrame
      ensures minimumAspectRatio == 0.0
    {
      minimumAspectRatio := 0.0;
      this.tappedEdge := tappedEdge;
      this.contentFrame := contentFrame;
      this.imageSnapOriginFrame := imageSnapOriginFrame;
      this.imageSnapBoxFrame := imageSnapBoxFrame;
    }

    /** Runs the handler(s) of the tapped edge, one after another, on the box frame. */
    method UpdateImageSnapBoxFrame(xDelta: real, yDelta: real)
      modifies this`imageSnapBoxFrame
      ensures imageSnapBoxFrame == FreeAspectFrame(tappedEdge, imageSnapOriginFrame, old(imageSnapBoxFrame),
                                                   minimumAspectRatio, xDelta, yDelta)
    {
      var newSize := NewFrameSize(tappedEdge, imageSnapOriginFrame, xDelta, yDelta);
      match tappedEdge {
        case Left =>
          HandleLeftEdgeFrameUpdate(newSize, xDelta);
        case Right =>
          HandleRightEdgeFrameUpdate(newSize);
        case Top =>
          HandleTopEdgeFrameUpdate(newSize, yDelta);
        case Bottom =>
          HandleBottomEdgeFrameUpdate(newSize);
        case TopLeft =>
          HandleTopEdgeFrameUpdate(newSize, yDelta);
          HandleLeftEdgeFrameUpdate(newSize, xDelta);
        case TopRight =>
          HandleTopEdgeFrameUpdate(newSize, yDelta);
          HandleRightEdgeFrameUpdate(newSize);
        case BottomLeft =>
          HandleBottomEdgeFrameUpdate(newSize);
          HandleLeftEdgeFrameUpdate(newSize, xDelta);
        case BottomRight =>
          HandleBottomEdgeFrameUpdate(newSize);
          HandleRightEdgeFrameUpdate(newSize);
        case None =>
          return;
      }
    }

    method HandleLeftEdgeFrameUpdate(newSize: Size, xDelta: real)
      modifies this`imageSnapBoxFrame
      ensures imageSnapBoxFrame ==
        if AspectRatioValid(newSize, minimumAspectRatio)
        then old(imageSnapBoxFrame).(x := imageSnapOriginFrame.x + xDelta, width := newSize.width)
        else old(imageSnapBoxFrame)
    {
      if AspectRatioValid(newSize, minimumAspectRatio) {
        imageSnapBoxFrame := imageSnapBoxFrame.(x := imageSnapOriginFrame.x + xDelta);
        imageSnapBoxFrame := imageSnapBoxFrame.(width := newSize.width);
      }
    }

    method HandleRightEdgeFrameUpdate(newSize: Size)
      modifies this`imageSnapBoxFrame
      ensures imageSnapBoxFrame ==
        if AspectRatioValid(newSize, minimumAspectRatio)
        then old(imageSnapBoxFrame).(width := newSize.width)
        else old(imageSnapBoxFrame)
    {
      if AspectRatioValid(newSize, minimumAspectRatio) {
        imageSnapBoxFrame := imageSnapBoxFrame.(width := newSize.width);
      }
    }

    method HandleTopEdgeFrameUpdate(newSize: Size, yDelta: real)
      modifies this`imageSnapBoxFrame
      ensures imageSnapBoxFrame ==
        if AspectRatioValid(newSize, minimumAspectRatio)
        then old(imageSnapBoxFrame).(y := imageSnapOriginFrame.y + yDelta, height := newSize.height)
        else old(imageSnapBoxFrame)
    {
      if AspectRatioValid(newSize, minimumAspectRatio) {
        imageSnapBoxFrame := imageSnapBoxFrame.(y := imageSnapOriginFrame.y + yDelta);
        imageSnapBoxFrame := imageSnapBoxFrame.(height := newSize.height);
      }
    }

    method HandleBottomEdgeFrameUpdate(newSize: Size)
      modifies this`imageSnapBoxFrame
      ensures imageSnapBoxFrame ==
        if AspectRatioValid(newSize, minimumAspectRatio)
        then old(imageSnapBoxFrame).(height := newSize.height)
        else old(imageSnapBoxFrame)
    {
      if AspectRatioValid(newSize, minimumAspectRatio) {
        imageSnapBoxFrame := imageSnapBoxFrame.(height := newSize.height);
      }
    }
  }

  // ---------------------------------------------------------------------
  // Properties of the free-aspect update
  // ---------------------------------------------------------------------

  /** With the default floor of 0 the check is passed exactly when both sides share a sign and one is non-zero. */
  lemma AspectRatioValidAtZero(s: Size)
    ensures AspectRatioValid(s, 0.0) <==>
      (s.width >= 0.0 && s.height >= 0.0 && (s.width > 0.0 || s.height > 0.0))
      || (s.width < 0.0 && s.height < 0.0)
  {
    var lo := Min(s.width, s.height);
    var hi := Max(s.width, s.height);
    if hi > 0.0 {
      assert lo / hi >= 0.0 <==> lo >= 0.0 by { DivSign(lo, hi); }
    } else if hi < 0.0 {
      assert lo < 0.0;
      assert lo / hi > 0.0 by { DivSign(-lo, -hi); assert lo / hi == (-lo) / (-hi); }
    }
  }

  lemma DivSign(a: real, b: real)
    requires b > 0.0
    ensures a / b >= 0.0 <==> a >= 0.0
    ensures a > 0.0 ==> a / b > 0.0
  {
    assert (a / b) * b == a;
  }

  /** With the default floor and two positive new sides, an update is never skipped. */
  lemma DefaultFloorAlwaysApplies(edge: Edge, origin: Rect, frame: Rect, xDelta: real, yDelta: real)
    requires edge != None
    requires NewFrameSize(edge, origin, xDelta, yDelta).width > 0.0
    requires NewFrameSize(edge, origin, xDelta, yDelta).height > 0.0
    ensures var s := NewFrameSize(edge, origin, xDelta, yDelta);
      FreeAspectFrame(edge, origin, frame, MinimumAspectRatio, xDelta, yDelta)
      == Rect(if edge.DragsLeftSide() then origin.x + xDelta else frame.x,
              if edge.DragsTopSide() then origin.y + yDelta else frame.y,
              if edge.DragsLeftSide() || edge.DragsRightSide() then s.width else frame.width,
              if edge.DragsTopSide() || edge.DragsBottomSide() then s.height else frame.height)
  {
    AspectRatioValidAtZero(NewFrameSize(edge, origin, xDelta, yDelta));
  }

  /** With no handle the frame comes back unchanged. */
  lemma NoEdgeLeavesFrame(origin: Rect, frame: Rect, minimumAspectRatio: real, xDelta: real, yDelta: real)
    ensures FreeAspectFrame(None, origin, frame, minimumAspectRatio, xDelta, yDelta) == frame
  {
  }

  /** A left drag that passes the check moves the left side and keeps the origin's right side; y and height are the incoming ones. */
  lemma LeftDragKeepsRightSide(origin: Rect, frame: Rect, minimumAspectRatio: real, xDelta: real, yDelta: real)
    requires AspectRatioValid(NewFrameSize(Left, origin, xDelta, yDelta), minimumAspectRatio)
    ensures var r := FreeAspectFrame(Left, origin, frame, minimumAspectRatio, xDelta, yDelta);
      r.x == origin.x + xDelta && r.width == Width(origin) - xDelta
      && r.x + r.width == origin.x + Width(origin)
      && r.y == frame.y && r.height == frame.height
  {
  }

  /** A right drag that passes the check changes the width only. */
  lemma RightDragChangesWidthOnly(origin: Rect, frame: Rect, minimumAspectRatio: real, xDelta: real, yDelta: real)
    requires AspectRatioValid(NewFrameSize(Right, origin, xDelta, yDelta), minimumAspectRatio)
    ensures FreeAspectFrame(Right, origin, frame, minimumAspectRatio, xDelta, yDelta)
         == frame.(width := Width(origin) + xDelta)
  {
  }

  /** A top drag that passes the check moves the top side and keeps the origin's bottom side. */
  lemma TopDragKeepsBottomSide(origin: Rect, frame: Rect, minimumAspectRatio: real, xDelta: real, yDelta: real)
    requires AspectRatioValid(NewFrameSize(Top, origin, xDelta, yDelta), minimumAspectRatio)
    ensures var r := FreeAspectFrame(Top, origin, frame, minimumAspectRatio, xDelta, yDelta);
      r.y == origin.y + yDelta && r.height == Height(origin) - yDelta
      && r.y + r.height == origin.y + Height(origin)
      && r.x == frame.x && r.width == frame.width
  {
  }

  /** A bottom drag that passes the check changes the height only. */
  lemma BottomDragChangesHeightOnly(origin: Rect, frame: Rect, minimumAspectRatio: real, xDelta: real, yDelta: real)
    requires AspectRatioValid(NewFrameSize(Bottom, origin, xDelta, yDelta), minimumAspectRatio)
    ensures FreeAspectFrame(Bottom, origin, frame, minimumAspectRatio, xDelta, yDelta)
         == frame.(height := Height(origin) + yDelta)
  {
  }

  /** A corner drag runs both side handlers on the same new size, so both axes change or neither does. */
  lemma CornerAppliesBothOrNeither(edge: Edge, origin: Rect, frame: Rect, minimumAspectRatio: real,
                                   xDelta: real, yDelta: real)
    requires edge.IsCorner()
    ensures var r := FreeAspectFrame(edge, origin, frame, minimumAspectRatio, xDelta, yDelta);
      var s := NewFrameSize(edge, origin, xDelta, yDelta);
      if AspectRatioValid(s, minimumAspectRatio)
      then r.width == s.width && r.height == s.height
      else r == frame
  {
  }

  /**
   * The update writes only values computed from the origin frame and the
   * deltas, so feeding its output back in with the same inputs changes
   * nothing: moves never accumulate.
   */
  lemma UpdateIsIdempotent(edge: Edge, origin: Rect, frame: Rect, minimumAspectRatio: real,
                           xDelta: real, yDelta: real)
    ensures var r := FreeAspectFrame(edge, origin, frame, minimumAspectRatio, xDelta, yDelta);
      FreeAspectFrame(edge, origin, r, minimumAspectRatio, xDelta, yDelta) == r
  {
  }

  /** Whatever the incoming frame, the fields the update writes come out the same. */
  lemma WrittenFieldsIgnoreIncomingFrame(edge: Edge, origin: Rect, frame1: Rect, frame2: Rect,
                                         minimumAspectRatio: real, xDelta: real, yDelta: real)
    requires edge != None
    requires AspectRatioValid(NewFrameSize(edge, origin, xDelta, yDelta), minimumAspectRatio)
    ensures var r1 := FreeAspectFrame(edge, origin, frame1, minimumAspectRatio, xDelta, yDelta);
      var r2 := FreeAspectFrame(edge, origin, frame2, minimumAspectRatio, xDelta, yDelta);
      (edge.DragsLeftSide() ==> r1.x == r2.x)
      && (edge.DragsTopSide() ==> r1.y == r2.y)
      && (edge.DragsLeftSide() || edge.DragsRightSide() ==> r1.width == r2.width)
      && (edge.DragsTopSide() || edge.DragsBottomSide() ==> r1.height == r2.height)
  {
  }

  /** A left-edge drag of 20 on the box (50, 50, 200, 100) gives (70, 50, 180, 100). */
  lemma LeftDragScenario()
    ensures var o := Rect(50.0, 50.0, 200.0, 100.0);
      FreeAspectFrame(Left, o, o, MinimumAspectRatio, 20.0, 0.0) == Rect(70.0, 50.0, 180.0, 100.0)
  {
    AspectRatioValidAtZero(Size(180.0, 100.0));
  }
}
