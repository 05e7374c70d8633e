/**
 * ImageSnapViewController: owns a copy of the configuration and the crop
 * view, applies the shape rule to the fixed-ratio preset, wires the
 * configuration into the view, answers the toolbar's ratio, reset and
 * rotate buttons, and turns a preset transformation into the one the view
 * applies.
 *
 * The image is represented by its size, its `ratioH()` and its
 * `isHorizontal()` answer. The fixed-ratio manager, which builds the ratio
 * list from the configured options, is not part of this model: its list is
 * a parameter of `HandleSetRatio`. The toolbar's button-state callbacks
 * have no effect on the crop state and are left out.
 */
module Controller {

  import opened Geometry
  import W = Wrappers
  import opened ViewModel
  import opened SnapView
  import C = ImageSnapConfig

  datatype ImageSnapViewControllerMode = Normal | Customizable

  // ---------------------------------------------------------------------
  // The shape rule of `init`
  // ---------------------------------------------------------------------

  /** The fixed-ratio preset after `init`: a circle or a square always uses the one ratio 1. */
  function EffectiveFixedRatioType(shape: C.ImageSnapShapeType, preset: C.PresetFixedRatioType)
    : C.PresetFixedRatioType
  {
    if C.ForcesSquareRatio(shape) then C.AlwaysUsingOnePresetFixedRatio(1.0) else preset
  }

  /**
   * The preset after the rule uses one ratio exactly when the shape is a
   * circle or a square or the preset already did, and applying the rule a
   * second time changes nothing.
   */
  lemma ShapeRuleForcesOneRatio(shape: C.ImageSnapShapeType, preset: C.PresetFixedRatioType)
    ensures var p := EffectiveFixedRatioType(shape, preset);
            (p.AlwaysUsingOnePresetFixedRatio? <==> C.ForcesSquareRatio(shape) || preset.AlwaysUsingOnePresetFixedRatio?)
            && (C.ForcesSquareRatio(shape) ==> p.ratio == 1.0)
            && EffectiveFixedRatioType(shape, p) == p
  {
  }

  // ---------------------------------------------------------------------
  // getTransformInfo(byTransformInfo:)
  // ---------------------------------------------------------------------

  /** The preset mask is at least as tall, relative to its width, as the content bounds. */
  predicate MaskIsTaller(mask: Rect, contentBound: Rect)
    requires Width(mask) != 0.0 && Width(contentBound) != 0.0
  {
    Height(mask) / Width(mask) >= Height(contentBound) / Width(contentBound)
  }

  /** The factor that carries the preset mask onto the content bounds. */
  function AdjustScale(mask: Rect, contentBound: Rect): real
    requires Width(mask) != 0.0 && Height(mask) != 0.0 && Width(contentBound) != 0.0
  {
    if MaskIsTaller(mask, contentBound) then Height(contentBound) / Height(mask)
    else Width(contentBound) / Width(mask)
  }

  /** The mask size the preset is fitted to: full content height for a taller mask, full width otherwise. */
  function FittedMaskSize(mask: Rect, contentBound: Rect): Size
    requires Width(mask) != 0.0 && Height(mask) != 0.0 && Width(contentBound) != 0.0
  {
    if MaskIsTaller(mask, contentBound) then
      var h := Height(contentBound);
      Size(Width(mask) / Height(mask) * h, h)
    else
      var w := Width(contentBound);
      Size(w, Height(mask) / Width(mask) * w)
  }

  /** A point with both coordinates multiplied by k. */
  function ScaledPoint(p: Point, k: real): Point
  {
    Point(p.x * k, p.y * k)
  }

  /** A rect with its origin and its (standardized) size multiplied by k. */
  function ScaledBy(r: Rect, k: real): (s: Rect)
    ensures Width(s) == Width(r) * Abs(k) && Height(s) == Height(r) * Abs(k)
  {
    AbsOfProduct(Width(r), k);
    AbsOfProduct(Height(r), k);
    Rect(r.x * k, r.y * k, Width(r) * k, Height(r) * k)
  }

  /**
   * `getTransformInfo(byTransformInfo:)`: the preset with its offset and
   * scroll bounds scaled by the adjust factor and its mask fitted to the
   * content bounds and centred in the crop box's original frame.
   */
  function TransformByTransformInfo(transformInfo: C.Transformation, imageSnapFrame: Rect, contentBound: Rect)
    : C.Transformation
    requires Width(transformInfo.maskFrame) != 0.0 && Height(transformInfo.maskFrame) != 0.0
    requires Width(contentBound) != 0.0
  {
    var k := AdjustScale(transformInfo.maskFrame, contentBound);
    var s := FittedMaskSize(transformInfo.maskFrame, contentBound);
    var sb := transformInfo.scrollBounds;
    transformInfo.(
      offset := ScaledPoint(transformInfo.offset, k),
      maskFrame := Rect(imageSnapFrame.x + (Width(imageSnapFrame) - s.width) / 2.0,
                        imageSnapFrame.y + (Height(imageSnapFrame) - s.height) / 2.0,
                        s.width, s.height),
      scrollBounds := ScaledBy(sb, k))
  }

  /**
   * The preset is scaled uniformly: both sides of the new mask are the
   * preset mask's sides times the adjust factor, and so is the offset.
   */
  lemma PresetMaskIsUniformScale(transformInfo: C.Transformation, imageSnapFrame: Rect, contentBound: Rect)
    requires Width(transformInfo.maskFrame) != 0.0 && Height(transformInfo.maskFrame) != 0.0
    requires Width(contentBound) != 0.0
    ensures var r := TransformByTransformInfo(transformInfo, imageSnapFrame, contentBound);
            var mask := transformInfo.maskFrame;
            var k := AdjustScale(mask, contentBound);
            r.maskFrame.width == Width(mask) * k && r.maskFrame.height == Height(mask) * k
            && r.offset == ScaledPoint(transformInfo.offset, k)
  {
    FittedSizeIsScaled(transformInfo.maskFrame, contentBound);
  }

  /** The scroll bounds are scaled by the same factor as the mask. */
  lemma PresetScrollBoundsAreScaled(transformInfo: C.Transformation, imageSnapFrame: Rect, contentBound: Rect)
    requires Width(transformInfo.maskFrame) != 0.0 && Height(transformInfo.maskFrame) != 0.0
    requires Width(contentBound) != 0.0
    ensures var r := TransformByTransformInfo(transformInfo, imageSnapFrame, contentBound);
            var k := AdjustScale(transformInfo.maskFrame, contentBound);
            r.scrollBounds == ScaledBy(transformInfo.scrollBounds, k)
  {
  }

  /** The rotation, the scale and the flags of the preset pass through unchanged. */
  lemma PresetKeepsRotationAndFlags(transformInfo: C.Transformation, imageSnapFrame: Rect, contentBound: Rect)
    requires Width(transformInfo.maskFrame) != 0.0 && Height(transformInfo.maskFrame) != 0.0
    requires Width(contentBound) != 0.0
    ensures var r := TransformByTransformInfo(transformInfo, imageSnapFrame, contentBound);
            r.rotation == transformInfo.rotation && r.scale == transformInfo.scale
            && r.manualZoomed == transformInfo.manualZoomed && r.intialMaskFrame == transformInfo.intialMaskFrame
  {
  }

  /** The fitted size is the mask's size times the adjust factor. */
  lemma FittedSizeIsScaled(mask: Rect, contentBound: Rect)
    requires Width(mask) != 0.0 && Height(mask) != 0.0 && Width(contentBound) != 0.0
    ensures var k := AdjustScale(mask, contentBound);
            FittedMaskSize(mask, contentBound) == Size(Width(mask) * k, Height(mask) * k)
  {
    if MaskIsTaller(mask, contentBound) {
      QuotientTimes(Width(mask), Height(mask), Height(contentBound));
    } else {
      QuotientTimes(Height(mask), Width(mask), Width(contentBound));
    }
  }

  lemma QuotientTimes(a: real, b: real, c: real)
    requires b != 0.0
    ensures a / b * c == a * (c / b)
    ensures b * (c / b) == c
  {
    var q := c / b;
    assert c == q * b;
    assert a / b * (q * b) == a * q;
  }

  lemma AbsOfProduct(a: real, k: real)
    requires a >= 0.0
    ensures Abs(a * k) == a * Abs(k)
  {
    if k < 0.0 {
      assert a * k == -(a * -k);
    }
  }

  /** The fitted mask has the preset mask's aspect ratio. */
  lemma {:induction false} PresetMaskKeepsAspect(mask: Rect, contentBound: Rect)
    requires Width(mask) != 0.0 && Height(mask) != 0.0 && Width(contentBound) != 0.0
    ensures var s := FittedMaskSize(mask, contentBound);
            SameAspect(s.width, s.height, Width(mask), Height(mask))
  {
    var s := FittedMaskSize(mask, contentBound);
    FittedSizeIsScaled(mask, contentBound);
    SameFactorSameAspect(s.width, s.height, Width(mask), Height(mask), AdjustScale(mask, contentBound));
  }

  /** A w-by-h rectangle has the aspect of an a-by-b one. */
  predicate SameAspect(w: real, h: real, a: real, b: real)
  {
    w * b == h * a
  }

  lemma SameFactorSameAspect(w: real, h: real, a: real, b: real, k: real)
    requires w == a * k && h == b * k
    ensures SameAspect(w, h, a, b)
  {
  }

  /**
   * With positive sizes the fitted mask fills the content bounds along one
   * side and stays within them along the other: the full height when the
   * preset mask is relatively taller, the full width otherwise.
   */
  lemma PresetMaskFitsContent(transformInfo: C.Transformation, imageSnapFrame: Rect, contentBound: Rect)
    requires Width(transformInfo.maskFrame) > 0.0 && Height(transformInfo.maskFrame) > 0.0
    requires Width(contentBound) > 0.0 && Height(contentBound) > 0.0
    ensures var r := TransformByTransformInfo(transformInfo, imageSnapFrame, contentBound);
            0.0 < r.maskFrame.width <= Width(contentBound) && 0.0 < r.maskFrame.height <= Height(contentBound)
            && (MaskIsTaller(transformInfo.maskFrame, contentBound) ==> r.maskFrame.height == Height(contentBound))
            && (!MaskIsTaller(transformInfo.maskFrame, contentBound) ==> r.maskFrame.width == Width(contentBound))
  {
    FittedMaskFitsContent(transformInfo.maskFrame, contentBound);
  }

  /** The fitted size is positive, within the content bounds, and fills them in one dimension. */
  lemma FittedMaskFitsContent(mask: Rect, contentBound: Rect)
    requires Width(mask) > 0.0 && Height(mask) > 0.0
    requires Width(contentBound) > 0.0 && Height(contentBound) > 0.0
    ensures var s := FittedMaskSize(mask, contentBound);
            0.0 < s.width <= Width(contentBound) && 0.0 < s.height <= Height(contentBound)
            && (MaskIsTaller(mask, contentBound) ==> s.height == Height(contentBound))
            && (!MaskIsTaller(mask, contentBound) ==> s.width == Width(contentBound))
  {
    var wm, hm, wc, hc := Width(mask), Height(mask), Width(contentBound), Height(contentBound);
    if MaskIsTaller(mask, contentBound) {
      CrossMultiply(hc, wc, hm, wm);
      ScaledSideFits(wm, hm, wc, hc);
    } else {
      CrossMultiply(hm, wm, hc, wc);
      ScaledSideFits(hm, wm, hc, wc);
    }
  }

  /** Side a of an a-by-b shape scaled so that b becomes d fits in c when a*d <= c*b. */
  lemma ScaledSideFits(a: real, b: real, c: real, d: real)
    requires a > 0.0 && b > 0.0 && c > 0.0 && d > 0.0 && a * d <= c * b
    ensures 0.0 < a / b * d <= c
  {
    var x := a / b * d;
    assert x * b == a * d;
    PositiveQuotientProduct(a, b, d);
    ScaledBound(x, b, c);
  }

  /** For positive denominators, a/b <= c/d is a*d <= c*b. */
  lemma CrossMultiply(a: real, b: real, c: real, d: real)
    requires b > 0.0 && d > 0.0 && a / b <= c / d
    ensures a * d <= c * b
  {
    var x, y := a / b, c / d;
    assert a == x * b && c == y * d;
    assert x * (b * d) <= y * (b * d);
  }

  lemma PositiveQuotientProduct(a: real, b: real, c: real)
    requires a > 0.0 && b > 0.0 && c > 0.0
    ensures a / b * c > 0.0
  {
  }

  /** Cancels a positive factor from both sides of an inequality. */
  lemma ScaledBound(x: real, b: real, c: real)
    requires b > 0.0 && x * b <= c * b
    ensures x <= c
  {
  }

  /** The fitted mask is centred on the crop box's original frame. */
  lemma PresetMaskIsCentred(transformInfo: C.Transformation, imageSnapFrame: Rect, contentBound: Rect)
    requires Width(transformInfo.maskFrame) != 0.0 && Height(transformInfo.maskFrame) != 0.0
    requires Width(contentBound) != 0.0
    requires IsStandard(imageSnapFrame)
    ensures var r := TransformByTransformInfo(transformInfo, imageSnapFrame, contentBound);
            MidX(r.maskFrame) == MidX(imageSnapFrame) && MidY(r.maskFrame) == MidY(imageSnapFrame)
  {
  }

  // ---------------------------------------------------------------------
  // getTransformInfo(byNormalizedInfo:)
  // ---------------------------------------------------------------------

  /** `min(1/w, 1/h)` of the normalised rect. */
  function NormalizedScale(normailizedInfo: Rect): real
    requires Width(normailizedInfo) != 0.0 && Height(normailizedInfo) != 0.0
  {
    Min(1.0 / Width(normailizedInfo), 1.0 / Height(normailizedInfo))
  }

  /**
   * The mask for a normalised preset: the crop box narrowed on its shorter
   * normalised side to the normalised aspect and re-centred on that axis.
   */
  function NormalizedMask(normailizedInfo: Rect, imageSnapFrame: Rect): Rect
    requires Width(normailizedInfo) != 0.0 && Height(normailizedInfo) != 0.0
  {
    var n, f := normailizedInfo, imageSnapFrame;
    if Width(n) > Height(n) then
      var m := f.(height := Height(n) * Height(f) * (1.0 / Width(n)));
      m.(y := m.y + (Height(f) - Height(m)) / 2.0)
    else if Width(n) < Height(n) then
      var m := f.(width := Width(n) * Width(f) * (1.0 / Height(n)));
      m.(x := m.x + (Width(f) - Width(m)) / 2.0)
    else
      f
  }

  /** `getTransformInfo(byNormalizedInfo:)`, read against the current crop box. */
  function TransformByNormalizedInfo(normailizedInfo: Rect, imageSnapFrame: Rect): C.Transformation
    requires Width(normailizedInfo) != 0.0 && Height(normailizedInfo) != 0.0
  {
    var scale := NormalizedScale(normailizedInfo);
    C.Transformation(
      Point(Width(imageSnapFrame) * normailizedInfo.x * scale, Height(imageSnapFrame) * normailizedInfo.y * scale),
      0.0, scale, scale != 1.0, ZeroRect, NormalizedMask(normailizedInfo, imageSnapFrame), ZeroRect)
  }

  /**
   * The zoom scale is the reciprocal of the longer normalised side, so the
   * view counts as manually zoomed exactly when that side is not the whole
   * image; the offset is the normalised origin in crop-box units, scaled by
   * it; rotation is zero and the initial mask and scroll bounds are empty.
   */
  lemma NormalizedScaleFitsLongerSide(normailizedInfo: Rect, imageSnapFrame: Rect)
    requires Width(normailizedInfo) > 0.0 && Height(normailizedInfo) > 0.0
    ensures var r := TransformByNormalizedInfo(normailizedInfo, imageSnapFrame);
            var longer := Max(Width(normailizedInfo), Height(normailizedInfo));
            r.scale * longer == 1.0
            && (r.manualZoomed <==> longer != 1.0)
            && r.offset.x * longer == Width(imageSnapFrame) * normailizedInfo.x
            && r.offset.y * longer == Height(imageSnapFrame) * normailizedInfo.y
            && r.rotation == 0.0 && r.intialMaskFrame == ZeroRect && r.scrollBounds == ZeroRect
  {
    var w, h := Width(normailizedInfo), Height(normailizedInfo);
    var longer := Max(w, h);
    var scale := NormalizedScale(normailizedInfo);
    if w < h {
      ReciprocalOrder(w, h);
    } else if h < w {
      ReciprocalOrder(h, w);
    }
    assert scale == 1.0 / longer;
    var fx, fy := Width(imageSnapFrame) * normailizedInfo.x, Height(imageSnapFrame) * normailizedInfo.y;
    assert fx * scale * longer == fx * (scale * longer);
    assert fy * scale * longer == fy * (scale * longer);
  }

  lemma ReciprocalOrder(a: real, b: real)
    requires 0.0 < a < b
    ensures 1.0 / b < 1.0 / a
  {
    assert (1.0 / b) * b == 1.0 && (1.0 / a) * a == 1.0;
  }

  /**
   * A wider normalised rect keeps the crop box's width and x, takes the
   * normalised aspect, and is centred vertically inside the crop box.
   */
  lemma WiderNormalizedMask(normailizedInfo: Rect, imageSnapFrame: Rect)
    requires Width(normailizedInfo) > 0.0 && Height(normailizedInfo) > 0.0
    requires Width(normailizedInfo) > Height(normailizedInfo) && IsStandard(imageSnapFrame)
    ensures var m := NormalizedMask(normailizedInfo, imageSnapFrame);
            m.x == imageSnapFrame.x && m.width == imageSnapFrame.width
            && m.height * Width(normailizedInfo) == Height(normailizedInfo) * imageSnapFrame.height
            && MidY(m) == MidY(imageSnapFrame) && InsideRect(m, imageSnapFrame)
  {
    var w, h, fh := Width(normailizedInfo), Height(normailizedInfo), imageSnapFrame.height;
    var mh := h * fh * (1.0 / w);
    assert mh * w == h * fh;
    assert 0.0 <= mh <= fh by {
      assert h / w < 1.0;
      assert mh == (h / w) * fh;
    }
  }

  /**
   * A taller normalised rect keeps the crop box's height and y, takes the
   * normalised aspect, and is centred horizontally inside the crop box.
   */
  lemma TallerNormalizedMask(normailizedInfo: Rect, imageSnapFrame: Rect)
    requires Width(normailizedInfo) > 0.0 && Height(normailizedInfo) > 0.0
    requires Width(normailizedInfo) < Height(normailizedInfo) && IsStandard(imageSnapFrame)
    ensures var m := NormalizedMask(normailizedInfo, imageSnapFrame);
            m.y == imageSnapFrame.y && m.height == imageSnapFrame.height
            && m.width * Height(normailizedInfo) == Width(normailizedInfo) * imageSnapFrame.width
            && MidX(m) == MidX(imageSnapFrame) && InsideRect(m, imageSnapFrame)
  {
    var w, h, fw := Width(normailizedInfo), Height(normailizedInfo), imageSnapFrame.width;
    var mw := w * fw * (1.0 / h);
    assert mw * h == w * fw;
    assert 0.0 <= mw <= fw by {
      assert w / h < 1.0;
      assert mw == (w / h) * fw;
    }
  }

  /** A square normalised rect leaves the crop box as the mask. */
  lemma SquareNormalizedMask(normailizedInfo: Rect, imageSnapFrame: Rect)
    requires Width(normailizedInfo) != 0.0 && Width(normailizedInfo) == Height(normailizedInfo)
    ensures NormalizedMask(normailizedInfo, imageSnapFrame) == imageSnapFrame
    ensures TransformByNormalizedInfo(normailizedInfo, imageSnapFrame).maskFrame == imageSnapFrame
  {
  }

  // ---------------------------------------------------------------------
  // The controller
  // ---------------------------------------------------------------------

  /** The ratio a single-item list applies: its horizontal ratio for a horizontal list, else its vertical one. */
  function ChosenRatio(item: C.RatioItem, ratioType: RatioType): real
  {
    if ratioType == Horizontal then item.ratioH else item.ratioV
  }

  class ImageSnapViewController {
    /** The controller's own copy of the configuration it was created with. */
    const config: C.Config
    var mode: ImageSnapViewControllerMode
    const imageSnapView: ImageSnapView
    var disableRotation: bool
    /** `image.isHorizontal()`. */
    const imageIsHorizontal: bool

    /** The configuration obeys the shape rule of `init`. */
    predicate ShapeRuleHolds()
      reads this, config
    {
      C.ForcesSquareRatio(config.imageSnapShapeType) ==> config.presetFixedRatioType == C.AlwaysUsingOnePresetFixedRatio(1.0)
    }

    /**
     * `init(image:config:mode:imageSnapToolbar:)`: copies the configuration,
     * forces the single ratio 1 for a circle or a square, and creates the
     * view over a new view model.
     */
    constructor (imageSize: Size, imageRatioH: real, imageIsHorizontal: bool, config: C.Config,
                 mode: ImageSnapViewControllerMode)
      ensures fresh(this.config) && fresh(imageSnapView) && fresh(imageSnapView.viewModel)
      ensures this.config.presetTransformationType == config.presetTransformationType
      ensures this.config.imageSnapShapeType == config.imageSnapShapeType
      ensures this.config.presetFixedRatioType
              == EffectiveFixedRatioType(config.imageSnapShapeType, config.presetFixedRatioType)
      ensures this.config.showRotationDial == config.showRotationDial
      ensures this.config.imageSnapToolbarConfig == config.imageSnapToolbarConfig
      ensures this.config.customRatios == config.customRatios
      ensures ShapeRuleHolds()
      ensures this.mode == mode && !disableRotation && this.imageIsHorizontal == imageIsHorizontal
      ensures imageSnapView.imageSize == imageSize && imageSnapView.imageRatioH == imageRatioH
      ensures imageSnapView.viewModel.Valid()
      ensures !imageSnapView.aspectRatioLockEnabled && !imageSnapView.forceFixedRatio
    {
      var copy := config.Copy();
      match copy.imageSnapShapeType {
        case Circle(_) | Square =>
          copy.presetFixedRatioType := C.AlwaysUsingOnePresetFixedRatio(1.0);
        case _ =>
      }
      this.config := copy;
      this.mode := mode;
      var viewModel := new ImageSnapViewModel();
      imageSnapView := new ImageSnapView(viewModel, imageSize, imageRatioH);
      disableRotation := false;
      this.imageIsHorizontal := imageIsHorizontal;
    }

    /**
     * `createImageSnapView()`: no dial means no room reserved for it, and
     * the view's ratio is forced exactly when the preset uses one ratio.
     */
    method CreateImageSnapView()
      modifies imageSnapView`angleDashboardHeight, imageSnapView`forceFixedRatio
      ensures imageSnapView.angleDashboardHeight
              == if config.showRotationDial then old(imageSnapView.angleDashboardHeight) else 0.0
      ensures imageSnapView.forceFixedRatio <==> config.presetFixedRatioType.AlwaysUsingOnePresetFixedRatio?
      ensures ShapeRuleHolds() && C.ForcesSquareRatio(config.imageSnapShapeType) ==> imageSnapView.forceFixedRatio
    {
      if !config.showRotationDial {
        imageSnapView.angleDashboardHeight := 0.0;
      }
      if config.presetFixedRatioType.AlwaysUsingOnePresetFixedRatio? {
        imageSnapView.forceFixedRatio := true;
      } else {
        imageSnapView.forceFixedRatio := false;
      }
    }

    /** `getRatioType()`: the configured orientation of the ratio list, or the image's as shown when adaptive. */
    function GetRatioType(): (t: RatioType)
      reads this, config, imageSnapView, imageSnapView.viewModel
      ensures config.imageSnapToolbarConfig.fixRatiosShowType == C.Adaptive ==>
                (t == Horizontal <==> (imageIsHorizontal <==> imageSnapView.viewModel.rotationType.IsUpOrUpsideDown()))
      ensures config.imageSnapToolbarConfig.fixRatiosShowType == C.Horizontal ==> t == Horizontal
      ensures config.imageSnapToolbarConfig.fixRatiosShowType == C.Vetical ==> t == Vertical
    {
      match config.imageSnapToolbarConfig.fixRatiosShowType
      case Adaptive => imageSnapView.viewModel.rotationType.GetRatioType(imageIsHorizontal)
      case Horizontal => Horizontal
      case Vetical => Vertical
    }

    /** The fit of the crop box to `ratio` is defined (the view divides by the ratio when it is the wider one). */
    predicate FitDefined(ratio: real)
      reads this, imageSnapView, imageSnapView.viewModel
      requires imageSnapView.imageRatioH != 0.0
    {
      ratio > ImageRatioH(imageSnapView.imageRatioH, imageSnapView.viewModel.rotationType) ==> ratio != 0.0
    }

    /**
     * The state `setFixedRatio` leaves, given the ratio, box, notifications
     * forced-ratio check and manual zoom before it: the lock is on; an
     * unchanged ratio leaves the box and the zoom alone; a new ratio is
     * stored, the initial box, fitted to it, is inscribed in the content
     * bounds, the view counts as manually zoomed, and with a forced ratio the
     * check stays armed exactly when the total angle is not zero.
     */
    predicate FixedRatioApplied(ratio: real, oldRatio: real, oldBox: Rect, oldNotes: seq<ImageSnapViewStatus>,
                                oldCheck: bool, oldZoomed: bool, orientation: Orientation,
                                inscribe: (Rect, Rect) -> Rect)
      reads this, imageSnapView, imageSnapView.viewModel
      requires imageSnapView.imageRatioH != 0.0
    {
      var view := imageSnapView;
      var viewModel := view.viewModel;
      var contentBounds := ContentBounds(view.bounds, orientation, view.angleDashboardHeight);
      var ratioH := ImageRatioH(view.imageRatioH, viewModel.rotationType);
      view.aspectRatioLockEnabled
      && (oldRatio == ratio ==>
            viewModel.aspectRatio == oldRatio && viewModel.imageSnapBoxFrame == oldBox
            && viewModel.statusNotifications == oldNotes
            && view.imageStatusChangedCheckForForceFixedRatio == oldCheck
            && view.manualZoomed == oldZoomed)
      && (oldRatio != ratio ==>
            viewModel.aspectRatio == ratio && FitDefined(ratio)
            && viewModel.imageSnapBoxFrame
               == inscribe(contentBounds,
                           AspectFitFrame(InitialImageSnapBoxRect(view.imageSize, viewModel.rotationType,
                                                                  contentBounds, inscribe),
                                          ratio, ratioH))
            && viewModel.statusNotifications == oldNotes + [BetweenOperation]
            && view.manualZoomed
            && view.imageStatusChangedCheckForForceFixedRatio
               == if view.forceFixedRatio then viewModel.TotalDegrees() != 0.0 else oldCheck)
    }

    /**
     * `setFixedRatio(_:zoom:)`: always locks the ratio, and changes the
     * ratio and lays the box out again only when the ratio is new.
     */
    method SetFixedRatio(ratio: real, orientation: Orientation, inscribe: (Rect, Rect) -> Rect)
      requires imageSnapView.viewModel.Valid() && imageSnapView.imageRatioH != 0.0
      requires FitDefined(ratio)
      modifies imageSnapView`aspectRatioLockEnabled, imageSnapView`manualZoomed
      modifies imageSnapView`imageStatusChangedCheckForForceFixedRatio
      modifies imageSnapView.viewModel`aspectRatio, imageSnapView.viewModel`imageSnapBoxFrame
      modifies imageSnapView.viewModel`viewStatus, imageSnapView.viewModel`statusNotifications
      ensures imageSnapView.viewModel.Valid()
      ensures FixedRatioApplied(ratio, old(imageSnapView.viewModel.aspectRatio),
                                old(imageSnapView.viewModel.imageSnapBoxFrame),
                                old(imageSnapView.viewModel.statusNotifications),
                                old(imageSnapView.imageStatusChangedCheckForForceFixedRatio),
                                  old(imageSnapView.manualZoomed), orientation, inscribe)
    {
      imageSnapView.aspectRatioLockEnabled := true;
      if imageSnapView.viewModel.aspectRatio != ratio {
        imageSnapView.viewModel.aspectRatio := ratio;
        imageSnapView.SetFixedRatioImageSnapBox(W.None, orientation, inscribe);
      }
    }

    /** `resetRatioButton()`: unlocks the ratio. */
    method ResetRatioButton()
      modifies imageSnapView`aspectRatioLockEnabled
      ensures !imageSnapView.aspectRatioLockEnabled
    {
      imageSnapView.aspectRatioLockEnabled := false;
    }

    /**
     * `handleSetRatio()`: a locked ratio is unlocked and nothing else
     * happens; without a place to present from, or with no ratio, nothing
     * happens; a single ratio is applied at once, oriented by the ratio
     * type; several ratios are presented for the user to choose from
     * (`presented`), the choice then going through `SetFixedRatio`.
     */
    method HandleSetRatio(hasPresentSourceView: bool, ratios: seq<C.RatioItem>, orientation: Orientation,
                          inscribe: (Rect, Rect) -> Rect)
      returns (presented: bool)
      requires imageSnapView.viewModel.Valid() && imageSnapView.imageRatioH != 0.0
      requires |ratios| == 1 ==> FitDefined(ChosenRatio(ratios[0], GetRatioType()))
      modifies imageSnapView`aspectRatioLockEnabled, imageSnapView`manualZoomed
      modifies imageSnapView`imageStatusChangedCheckForForceFixedRatio
      modifies imageSnapView.viewModel`aspectRatio, imageSnapView.viewModel`imageSnapBoxFrame
      modifies imageSnapView.viewModel`viewStatus, imageSnapView.viewModel`statusNotifications
      ensures imageSnapView.viewModel.Valid()
      ensures presented <==> !old(imageSnapView.aspectRatioLockEnabled) && hasPresentSourceView && |ratios| > 1
      ensures old(imageSnapView.aspectRatioLockEnabled) || !hasPresentSourceView || |ratios| != 1 ==>
                imageSnapView.aspectRatioLockEnabled == false
                && unchanged(imageSnapView.viewModel) && imageSnapView.manualZoomed == old(imageSnapView.manualZoomed)
                && imageSnapView.imageStatusChangedCheckForForceFixedRatio
                   == old(imageSnapView.imageStatusChangedCheckForForceFixedRatio)
      ensures !old(imageSnapView.aspectRatioLockEnabled) && hasPresentSourceView && |ratios| == 1 ==>
                FixedRatioApplied(ChosenRatio(ratios[0], old(GetRatioType())),
                                  old(imageSnapView.viewModel.aspectRatio),
                                  old(imageSnapView.viewModel.imageSnapBoxFrame),
                                  old(imageSnapView.viewModel.statusNotifications),
                                  old(imageSnapView.imageStatusChangedCheckForForceFixedRatio),
                                  old(imageSnapView.manualZoomed), orientation, inscribe)
    {
      presented := false;
      if imageSnapView.aspectRatioLockEnabled {
        ResetRatioButton();
        return;
      }
      if !hasPresentSourceView {
        return;
      }
      if |ratios| == 0 {
        return;
      }
      if |ratios| == 1 {
        var ratioValue := ChosenRatio(ratios[0], GetRatioType());
        SetFixedRatio(ratioValue, orientation, inscribe);
        return;
      }
      presented := true;
    }

    /**
     * `handleReset()`: unlocks, then resets the view, which locks again
     * exactly when the ratio is forced.
     */
    method HandleReset(orientation: Orientation, inscribe: (Rect, Rect) -> Rect)
      requires imageSnapView.viewModel.Valid() && imageSnapView.imageRatioH != 0.0
      requires imageSnapView.forceFixedRatio && imageSnapView.viewModel.aspectRatio > imageSnapView.imageRatioH
               ==> imageSnapView.viewModel.aspectRatio != 0.0
      modifies imageSnapView`aspectRatioLockEnabled, imageSnapView`manualZoomed
      modifies imageSnapView`imageStatusChangedCheckForForceFixedRatio
      modifies imageSnapView.viewModel
      ensures imageSnapView.viewModel.Valid()
      ensures imageSnapView.aspectRatioLockEnabled == imageSnapView.forceFixedRatio
      ensures imageSnapView.viewModel.aspectRatio
              == if imageSnapView.forceFixedRatio then old(imageSnapView.viewModel.aspectRatio) else -1.0
      ensures imageSnapView.viewModel.degrees == 0.0 && imageSnapView.viewModel.rotationType == NoRotation
      ensures var view := imageSnapView;
              var contentBounds := ContentBounds(view.bounds, orientation, view.angleDashboardHeight);
              view.viewModel.imageSnapOriginFrame
              == InitialImageSnapBoxRect(view.imageSize, NoRotation, contentBounds, inscribe)
      ensures imageSnapView.imageStatusChangedCheckForForceFixedRatio
              == (!imageSnapView.forceFixedRatio && old(imageSnapView.imageStatusChangedCheckForForceFixedRatio))
      ensures imageSnapView.manualZoomed == (imageSnapView.forceFixedRatio || old(imageSnapView.manualZoomed))
      ensures imageSnapView.viewModel.panOriginPoint == old(imageSnapView.viewModel.panOriginPoint)
              && imageSnapView.viewModel.tappedEdge == old(imageSnapView.viewModel.tappedEdge)
    {
      ResetRatioButton();
      imageSnapView.Reset(orientation, inscribe);
    }

    /**
     * `handleRotate(rotateAngle:)`: ignored while a rotation is under way;
     * otherwise it marks one under way and turns the view by a quarter
     * (box, angle, quadrant, notifications, forced-ratio check and manual
     * zoom as `QuarterTurned` states). The flag is cleared by `RotationCompleted`,
     * the animation's completion.
     */
    method HandleRotate(rotateAngle: real, orientation: Orientation, inscribe: (Rect, Rect) -> Rect,
                        shouldScale: real -> bool)
      requires imageSnapView.viewModel.Valid()
      modifies this`disableRotation, imageSnapView`imageStatusChangedCheckForForceFixedRatio
      modifies imageSnapView`manualZoomed
      modifies imageSnapView.viewModel`imageSnapBoxFrame, imageSnapView.viewModel`degrees
      modifies imageSnapView.viewModel`rotationType
      modifies imageSnapView.viewModel`viewStatus, imageSnapView.viewModel`statusNotifications
      ensures imageSnapView.viewModel.Valid()
      ensures disableRotation
      ensures old(disableRotation) ==>
                unchanged(imageSnapView.viewModel) && unchanged(imageSnapView`imageStatusChangedCheckForForceFixedRatio)
                && unchanged(imageSnapView`manualZoomed)
      ensures !old(disableRotation) ==>
                imageSnapView.QuarterTurned(rotateAngle, orientation, inscribe,
                                            old(imageSnapView.viewModel.imageSnapBoxFrame),
                                            old(imageSnapView.viewModel.degrees),
                                            old(imageSnapView.viewModel.rotationType),
                                            old(imageSnapView.viewModel.statusNotifications),
                                            old(imageSnapView.imageStatusChangedCheckForForceFixedRatio),
                                            old(imageSnapView.manualZoomed), shouldScale)
    {
      if !disableRotation {
        disableRotation := true;
        imageSnapView.RotateBy90(rotateAngle, orientation, inscribe, shouldScale);
      }
    }

    /** The completion of the quarter-turn animation: rotation requests are accepted again. */
    method RotationCompleted()
      modifies this`disableRotation
      ensures !disableRotation
    {
      disableRotation := false;
    }
  }
}
