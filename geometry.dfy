/**
 * CoreGraphics geometry as the crop-box engine uses it, with CGFloat taken as
 * `real`, plus the handle enumeration and the layout constants shared by the
 * view and its view model.
 *
 * A `Rect` keeps the raw origin and size of a CGRect, so its size may be
 * negative. The accessors `Width`, `Height`, `MinX`, `MaxX`, `MinY` and `MaxY`
 * are the standardized ones CoreGraphics uses for `rect.width`, `rect.minX`,
 * and so on; `MidX`/`MidY` do not depend on the sign of the size.
 */
module Geometry {

  import W = Wrappers

  datatype Point = Point(x: real, y: real)

  datatype Size = Size(width: real, height: real)

  datatype Rect = Rect(x: real, y: real, width: real, height: real)

  const ZeroPoint := Point(0.0, 0.0)
  const ZeroRect := Rect(0.0, 0.0, 0.0, 0.0)

  /** Layout constants declared at the top of ImageSnapView.swift. */
  const ImageSnapViewMinimumBoxSize: real := 42.0
  const MinimumAspectRatio: real := 0.0
  const HotAreaUnit: real := 32.0
  const ImageSnapViewPadding: real := 14.0

  /** The nine zones a touch can hit on the crop box overlay. */
  datatype Edge = None | Left | Right | Top | Bottom | TopLeft | TopRight | BottomLeft | BottomRight
  {
    predicate IsCorner() { TopLeft? || TopRight? || BottomLeft? || BottomRight? }
    predicate DragsLeftSide() { Left? || TopLeft? || BottomLeft? }
    predicate DragsRightSide() { Right? || TopRight? || BottomRight? }
    predicate DragsTopSide() { Top? || TopLeft? || TopRight? }
    predicate DragsBottomSide() { Bottom? || BottomLeft? || BottomRight? }
  }

  function Abs(v: real): real { if v < 0.0 then -v else v }

  /** Swift's `min` and `max` (they agree on equal arguments). */
  function Min(a: real, b: real): real { if b < a then b else a }
  function Max(a: real, b: real): real { if b >= a then b else a }

  /** Foundation's `ceil`: the least integral value not below `v`. */
  function Ceil(v: real): (c: real)
    ensures c - 1.0 < v <= c
    ensures c == CeilInt(v) as real
  {
    CeilInt(v) as real
  }

  function CeilInt(v: real): (n: int)
    ensures n as real - 1.0 < v <= n as real
  {
    -((-v).Floor)
  }

  function Width(r: Rect): real { Abs(r.width) }
  function Height(r: Rect): real { Abs(r.height) }
  function MinX(r: Rect): real { Min(r.x, r.x + r.width) }
  function MaxX(r: Rect): real { Max(r.x, r.x + r.width) }
  function MinY(r: Rect): real { Min(r.y, r.y + r.height) }
  function MaxY(r: Rect): real { Max(r.y, r.y + r.height) }
  function MidX(r: Rect): real { r.x + r.width / 2.0 }
  function MidY(r: Rect): real { r.y + r.height / 2.0 }

  /** A rectangle whose raw size is not negative, as every crop box the UI draws. */
  predicate IsStandard(r: Rect) { r.width >= 0.0 && r.height >= 0.0 }

  /** `CGRect.standardized`: the same rectangle with a non-negative size. */
  function Standardized(r: Rect): (s: Rect)
    ensures IsStandard(s)
    ensures MinX(s) == MinX(r) && MaxX(s) == MaxX(r) && MinY(s) == MinY(r) && MaxY(s) == MaxY(r)
  {
    Rect(MinX(r), MinY(r), Width(r), Height(r))
  }

  /** `CGRect.equalTo(_:)`: the two rectangles are equal once standardized. */
  predicate EqualTo(a: Rect, b: Rect)
  {
    Standardized(a) == Standardized(b)
  }

  /** Two rectangles are `equalTo` each other exactly when their four edges coincide. */
  lemma EqualToMeansSameEdges(a: Rect, b: Rect)
    ensures EqualTo(a, b) <==> MinX(a) == MinX(b) && MaxX(a) == MaxX(b) && MinY(a) == MinY(b) && MaxY(a) == MaxY(b)
  {
  }

  /**
   * `equalTo` ignores the sign of the size: a rectangle equals its mirror,
   * spanned from the opposite corner, which is a different raw value unless
   * the rectangle is empty.
   */
  lemma EqualToIgnoresSizeSign(r: Rect)
    ensures var mirrored := Rect(r.x + r.width, r.y + r.height, -r.width, -r.height);
            EqualTo(r, mirrored) && (r.width != 0.0 || r.height != 0.0 <==> mirrored != r)
  {
  }

  /** `CGRect.contains(_: CGPoint)`: the minimum edges are inside, the maximum edges are not. */
  predicate ContainsPoint(r: Rect, p: Point)
  {
    MinX(r) <= p.x < MaxX(r) && MinY(r) <= p.y < MaxY(r)
  }

  /** `inner` lies within `outer`, edges included. */
  predicate InsideRect(inner: Rect, outer: Rect)
  {
    MinX(outer) <= MinX(inner) && MaxX(inner) <= MaxX(outer)
    && MinY(outer) <= MinY(inner) && MaxY(inner) <= MaxY(outer)
  }

  /**
   * `CGRect.insetBy(dx:dy:)` with equal insets: the rectangle is standardized
   * and shrunk by `d` on every side; a negative resulting size gives the null
   * rectangle, modelled as `None`.
   */
  function InsetBy(r: Rect, d: real): (q: W.Option<Rect>)
    ensures q.Some? ==> IsStandard(q.value)
    ensures q.Some? <==> Width(r) - 2.0 * d >= 0.0 && Height(r) - 2.0 * d >= 0.0
  {
    var w := Width(r) - 2.0 * d;
    var h := Height(r) - 2.0 * d;
    if w < 0.0 || h < 0.0 then W.None
    else W.Some(Rect(MinX(r) + d, MinY(r) + d, w, h))
  }

  /** `r.insetBy(dx: -d, dy: -d)` for `d >= 0`, which is never null. */
  function Outset(r: Rect, d: real): (q: Rect)
    requires d >= 0.0
    ensures IsStandard(q)
    ensures MinX(q) == MinX(r) - d && MaxX(q) == MaxX(r) + d
    ensures MinY(q) == MinY(r) - d && MaxY(q) == MaxY(r) + d
  {
    InsetBy(r, -d).value
  }

  /** `CGRect.contains(_: CGPoint)` on the result of `insetBy`; the null rectangle contains nothing. */
  predicate InsetContainsPoint(r: Rect, d: real, p: Point)
  {
    var q := InsetBy(r, d);
    q.Some? && ContainsPoint(q.value, p)
  }
}
