/**
 * The public configuration of the image-snap controller: preset
 * transformations, the fixed-ratio preset, the shape, the toolbar settings
 * and the list of custom ratios a client adds before presenting the
 * controller.
 */
module ImageSnapConfig {
  import opened Geometry
  import T = ToolbarOptions

  /** The tuple a preset or a result transformation is exchanged as. */
  datatype Transformation = Transformation(
    offset: Point,
    rotation: real,
    scale: real,
    manualZoomed: bool,
    intialMaskFrame: Rect,
    maskFrame: Rect,
    scrollBounds: Rect)

  datatype PresetTransformationType =
    | NoPreset
    | PresetInfo(info: Transformation)
    | PresetNormalizedInfo(normailizedInfo: Rect)

  datatype PresetFixedRatioType =
    | AlwaysUsingOnePresetFixedRatio(ratio: real)
    | CanUseMultiplePresetFixedRatio(defaultRatio: real)

  datatype ImageSnapShapeType =
    | RectShape
    | Square
    | Ellipse(maskOnly: bool)
    | Circle(maskOnly: bool)
    | RoundedRect(radiusToShortSide: real, maskOnly: bool)
    | Diamond(maskOnly: bool)
    | Heart(maskOnly: bool)
    | Polygon(sides: int, polygonOffset: real, maskOnly: bool)
    | PathShape(points: seq<Point>, maskOnly: bool)

  datatype FixRatiosShowType = Adaptive | Horizontal | Vetical

  /** The toolbar settings the core reads; fonts and sizes are left out. */
  datatype ImageSnapToolbarConfig = ImageSnapToolbarConfig(
    fixRatiosShowType: FixRatiosShowType,
    toolbarButtonOptions: T.ToolbarButtonOptions,
    presetRatiosButtonSelected: bool,
    includeFixedRatioSettingButton: bool)

  const DefaultToolbarConfig := ImageSnapToolbarConfig(Adaptive, T.Default, false, true)

  /** One entry of the ratio list: the horizontal text and ratio, then the vertical ones. */
  datatype RatioItem = RatioItem(ratioHName: string, ratioH: real, ratioVName: string, ratioV: real)

  // ---------------------------------------------------------------------
  // Decimal rendering of an Int, as string interpolation writes it.
  // ---------------------------------------------------------------------

  predicate IsDigit(c: char)
  {
    '0' <= c <= '9'
  }

  function DigitChar(d: int): (c: char)
    requires 0 <= d < 10
    ensures IsDigit(c) && (c as int) - ('0' as int) == d
  {
    (('0' as int) + d) as char
  }

  function DigitValue(c: char): int
  {
    (c as int) - ('0' as int)
  }

  /** The decimal digits of a natural number, most significant first, with no leading zero:
      the rendering of its tens, then its last digit. */
  function NatToString(n: nat): (s: string)
    ensures |s| > 0
    ensures forall i :: 0 <= i < |s| ==> IsDigit(s[i])
    ensures |s| > 1 ==> s[0] != '0'
    decreases n, 0
  {
    if n < 10 then [DigitChar(n)] else IntToString(n / 10) + [DigitChar(n % 10)]
  }

  /** `"\(n)"` for an Int: a minus sign before the digits of a negative number. */
  function IntToString(n: int): (s: string)
    ensures |s| > 0
    ensures forall i :: 0 <= i < |s| ==> s[i] != ':'
    ensures n >= 0 ==> forall i :: 0 <= i < |s| ==> IsDigit(s[i])
    ensures n > 0 ==> s[0] != '0'
    decreases if n < 0 then -n else n, 1
  {
    if n < 0 then "-" + NatToString(-n) else NatToString(n)
  }

  /** The value of a string of decimal digits. */
  function ParseNat(s: string): nat
  {
    if s == [] then 0
    else
      var d := DigitValue(s[|s| - 1]);
      ParseNat(s[..|s| - 1]) * 10 + (if 0 <= d then d else 0)
  }

  function ParseInt(s: string): int
  {
    if |s| > 0 && s[0] == '-' then -(ParseNat(s[1..]) as int) else ParseNat(s)
  }

  lemma {:induction false} NatToStringRoundTrip(n: nat)
    ensures ParseNat(NatToString(n)) == n
  {
    if n >= 10 {
      var s := NatToString(n);
      assert s[..|s| - 1] == IntToString(n / 10) == NatToString(n / 10);
      NatToStringRoundTrip(n / 10);
    }
  }

  /** The rendering of an Int reads back as the same Int. */
  lemma IntToStringRoundTrip(n: int)
    ensures ParseInt(IntToString(n)) == n
  {
    if n < 0 {
      assert IntToString(n)[1..] == NatToString(-n);
      NatToStringRoundTrip(-n);
    } else {
      NatToStringRoundTrip(n);
    }
  }

  /** The text "w:h" of a pair. */
  function RatioLabel(first: int, second: int): string
  {
    IntToString(first) + ":" + IntToString(second)
  }

  /** The position of the first ':' in s, or |s| when there is none. */
  function ColonIndex(s: string): (k: nat)
    ensures k <= |s|
    ensures k < |s| ==> s[k] == ':'
    ensures forall i :: 0 <= i < k ==> s[i] != ':'
  {
    if s == [] then 0
    else if s[0] == ':' then 0
    else 1 + ColonIndex(s[1..])
  }

  /** Reads a text "a:b" back as the pair (a, b). */
  function ParseRatioLabel(text: string): (int, int)
  {
    var k := ColonIndex(text);
    if k < |text| then (ParseInt(text[..k]), ParseInt(text[k + 1..])) else (ParseInt(text), 0)
  }

  /** The text of a pair names that pair and no other. */
  lemma RatioLabelRoundTrip(first: int, second: int)
    ensures ParseRatioLabel(RatioLabel(first, second)) == (first, second)
  {
    var a, b := IntToString(first), IntToString(second);
    var text := RatioLabel(first, second);
    assert text[|a|] == ':';
    var k := ColonIndex(text);
    assert k == |a|;
    assert text[..k] == a;
    assert text[k + 1..] == b;
    IntToStringRoundTrip(first);
    IntToStringRoundTrip(second);
  }

  /** `Double(a) / Double(b)` for a non-zero divisor. */
  function Quotient(a: int, b: int): (q: real)
    requires b != 0
    ensures q * (b as real) == a as real
  {
    (a as real) / (b as real)
  }

  lemma QuotientsAreReciprocal(a: int, b: int)
    requires a != 0 && b != 0
    ensures Quotient(a, b) * Quotient(b, a) == 1.0
  {
    var x, y := a as real, b as real;
    assert (x / y) * (y / x) == 1.0;
  }

  /** The item of one stored pair: ("w:h", w/h, "h:w", h/w). */
  function RatioItemOf(pair: (int, int)): (item: RatioItem)
    requires pair.0 != 0 && pair.1 != 0
    ensures item.ratioH * (pair.1 as real) == pair.0 as real
    ensures item.ratioV * (pair.0 as real) == pair.1 as real
  {
    RatioItem(RatioLabel(pair.0, pair.1), Quotient(pair.0, pair.1), RatioLabel(pair.1, pair.0), Quotient(pair.1, pair.0))
  }

  /** The horizontal and the vertical ratio of an item are reciprocal. */
  lemma RatioItemIsReciprocal(pair: (int, int))
    requires pair.0 != 0 && pair.1 != 0
    ensures RatioItemOf(pair).ratioH * RatioItemOf(pair).ratioV == 1.0
  {
    QuotientsAreReciprocal(pair.0, pair.1);
  }

  /** The two labels of an item read back as the pair and as the swapped pair. */
  lemma RatioItemNamesItsPair(pair: (int, int))
    requires pair.0 != 0 && pair.1 != 0
    ensures ParseRatioLabel(RatioItemOf(pair).ratioHName) == pair
    ensures ParseRatioLabel(RatioItemOf(pair).ratioVName) == (pair.1, pair.0)
  {
    RatioLabelRoundTrip(pair.0, pair.1);
    RatioLabelRoundTrip(pair.1, pair.0);
  }

  /** Swapping a pair swaps the horizontal and the vertical halves of its item. */
  lemma SwappedPairSwapsItem(w: int, h: int)
    requires w != 0 && h != 0
    ensures var item := RatioItemOf((w, h));
            RatioItemOf((h, w)) == RatioItem(item.ratioVName, item.ratioV, item.ratioHName, item.ratioH)
  {
  }

  /** Every stored ratio has a non-zero width and height, so its two quotients exist. */
  predicate RatiosNonZero(ratios: seq<(int, int)>)
  {
    forall i :: 0 <= i < |ratios| ==> ratios[i].0 != 0 && ratios[i].1 != 0
  }

  /** The ratio list built from the stored pairs, one item per pair in order. */
  function RatioItems(ratios: seq<(int, int)>): (items: seq<RatioItem>)
    requires RatiosNonZero(ratios)
    ensures |items| == |ratios|
    ensures forall i :: 0 <= i < |ratios| ==> items[i].ratioH * (ratios[i].1 as real) == ratios[i].0 as real
  {
    seq(|ratios|, i requires 0 <= i < |ratios| => RatioItemOf(ratios[i]))
  }

  class Config {
    var presetTransformationType: PresetTransformationType
    var imageSnapShapeType: ImageSnapShapeType
    var presetFixedRatioType: PresetFixedRatioType
    var showRotationDial: bool
    var imageSnapToolbarConfig: ImageSnapToolbarConfig
    var customRatios: seq<(int, int)>

    /** `init()`: every property at its declared default. */
    constructor ()
      ensures presetTransformationType == NoPreset
      ensures imageSnapShapeType == RectShape
      ensures presetFixedRatioType == CanUseMultiplePresetFixedRatio(0.0)
      ensures showRotationDial
      ensures imageSnapToolbarConfig == DefaultToolbarConfig
      ensures customRatios == []
    {
      presetTransformationType := NoPreset;
      imageSnapShapeType := RectShape;
      presetFixedRatioType := CanUseMultiplePresetFixedRatio(0.0);
      showRotationDial := true;
      imageSnapToolbarConfig := DefaultToolbarConfig;
      customRatios := [];
    }

    /** A copy with the same values: Config is a value type, assigned by copying. */
    method Copy() returns (c: Config)
      ensures fresh(c)
      ensures c.presetTransformationType == presetTransformationType
      ensures c.imageSnapShapeType == imageSnapShapeType
      ensures c.presetFixedRatioType == presetFixedRatioType
      ensures c.showRotationDial == showRotationDial
      ensures c.imageSnapToolbarConfig == imageSnapToolbarConfig
      ensures c.customRatios == customRatios
    {
      c := new Config();
      c.presetTransformationType := presetTransformationType;
      c.imageSnapShapeType := imageSnapShapeType;
      c.presetFixedRatioType := presetFixedRatioType;
      c.showRotationDial := showRotationDial;
      c.imageSnapToolbarConfig := imageSnapToolbarConfig;
      c.customRatios := customRatios;
    }

    /** `addCustomRatio(byHorizontalWidth:andHorizontalHeight:)`: appends (width, height). */
    method AddCustomRatioByHorizontal(width: int, height: int)
      modifies this`customRatios
      ensures customRatios == old(customRatios) + [(width, height)]
      ensures HasCustomRatios()
    {
      customRatios := customRatios + [(width, height)];
    }

    /** `addCustomRatio(byVerticalWidth:andVerticalHeight:)`: appends the swapped pair (height, width). */
    method AddCustomRatioByVertical(width: int, height: int)
      modifies this`customRatios
      ensures customRatios == old(customRatios) + [(height, width)]
      ensures HasCustomRatios()
    {
      customRatios := customRatios + [(height, width)];
    }

    predicate HasCustomRatios()
      reads this
    {
      |customRatios| > 0
    }

    function GetCustomRatioItems(): (items: seq<RatioItem>)
      reads this
      requires RatiosNonZero(customRatios)
      ensures |items| == |customRatios|
      ensures forall i :: 0 <= i < |items| ==> items[i] == RatioItemOf(customRatios[i])
    {
      RatioItems(customRatios)
    }
  }

  /** `hasCustomRatios` holds exactly when the ratio list it guards has an item. */
  lemma HasCustomRatiosIffItems(c: Config)
    requires RatiosNonZero(c.customRatios)
    ensures c.HasCustomRatios() <==> |c.GetCustomRatioItems()| > 0
  {
  }

  /** Adding a horizontal ratio extends the ratio list by that ratio's item, after the earlier ones. */
  lemma AddedRatioIsLastItem(before: seq<(int, int)>, width: int, height: int)
    requires RatiosNonZero(before) && width != 0 && height != 0
    ensures RatiosNonZero(before + [(width, height)])
    ensures RatioItems(before + [(width, height)]) == RatioItems(before) + [RatioItemOf((width, height))]
  {
    var after := before + [(width, height)];
    assert forall i :: 0 <= i < |before| ==> after[i] == before[i];
  }

  /** A vertical ratio w:h lands in the list as the horizontal ratio h:w. */
  lemma VerticalRatioIsSwappedHorizontal(before: seq<(int, int)>, width: int, height: int)
    requires RatiosNonZero(before) && width != 0 && height != 0
    ensures RatiosNonZero(before + [(height, width)])
    ensures var item := RatioItemOf((width, height));
            RatioItems(before + [(height, width)])
              == RatioItems(before) + [RatioItem(item.ratioVName, item.ratioV, item.ratioHName, item.ratioH)]
  {
    AddedRatioIsLastItem(before, height, width);
    SwappedPairSwapsItem(width, height);
  }

  /** The two shapes whose ratio is fixed at 1:1. */
  predicate ForcesSquareRatio(shape: ImageSnapShapeType)
  {
    shape.Circle? || shape.Square?
  }
}
