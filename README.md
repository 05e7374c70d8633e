# ImageSnap crop-box engine in Dafny

This project models the crop-box geometry engine of ImageSnap, an iOS image
cropping component. The modelled parts are:

- **Frame updaters.** The free-aspect and locked-aspect frame updaters turn a
  drag of one of the eight crop-box handles into a new box frame.
- **View model.** Its rotation quadrant, gesture snapshot, drag deltas,
  aspect fit, reset and status state machine.
- **Crop view.** The content bounds, the bounds-containment resolver for a
  dragged box, the handle-ring hit rule, the touch dispatch, and the reset,
  90-degree rotation and fixed-ratio relayout steps.
- **View controller.** The shape rule of its initializer, the ratio and
  rotation guards, and the two preset-transformation conversions.
- **`Config`.** Its defaults and custom-ratio list.
- **`ToolbarButtonOptions`.** The bit set.

CGFloat is `real`. Angles are in degrees: every radian value in the program
is a degree value times π/180, so the model keeps the degree value.

A `Rect` keeps the raw origin and size of a CGRect. `Width`, `Height`,
`MinX`, `MaxX`, `MinY` and `MaxY` are the standardized accessors CoreGraphics
uses.

Objects whose fields the program mutates are classes: the two updaters, the
view model, the crop view, the view controller and `Config`. Their methods
are proved against specification functions:

- `FreeAspectFrame` and `LockedAspectFrame` for the updaters;
- `NewImageSnapBoxFrame`, `AspectFitFrame` and `GetTotalDegrees` for the view model;
- `ContentBounds`, `ResolvedBoxFrame` and `InitialImageSnapBoxRect` for the view;
- `TransformByTransformInfo`, `TransformByNormalizedInfo` and `EffectiveFixedRatioType` for the controller;
- `RatioItems` and `RatioItemOf` for the configuration.

The lemmas state what those functions promise.

Collaborators whose code is not part of this model are parameters:

- `GeometryHelper.getImageSnapEdge`: `edgeOf: (Point, Rect) -> Edge`.
- `GeometryHelper.getInscribeRect`: `inscribe: (Rect, Rect) -> Rect`.
- `imageContainer.contains(rect:fromView:)`: `contains: Rect -> bool`.
- The `Orientation` helper: an `Orientation` value with its three answers.
- `UIImage.ratioH()`: the `imageRatioH` real held by the view.
- `UIImage.isHorizontal()`: `imageIsHorizontal`.
- The ratio list of `FixedRatioManager`: a `seq<RatioItem>` parameter.
- The toolbar's ratio-list source view: `hasPresentSourceView`.
- `scrollView.shouldScale()` once the scroll view is laid out for a total
  angle: `shouldScale: real -> bool`.

The status observer (`statusChanged`, called from the `didSet` of
`viewStatus`) is modelled as the sequence `statusNotifications` of every
status assigned. The view renders each status synchronously, and the model
keeps the state changes of that rendering. A `rotating` status stores its
angle in `degrees`, and its `updatePosition` drops the manual zoom
(`manualZoomed`) unless the view was zoomed by hand and the scroll view need
not scale (`ImageSnapView.SetRotatingStatus`). The `initial` and
`betweenOperation` statuses run
`checkImageStatusChanged()`, which consumes a pending forced-ratio check
(`imageStatusChangedCheckForForceFixedRatio`) when the ratio is forced and
the view model's total angle is zero (`ImageSnapView.CheckImageStatusChanged`
and `ImageSnapView.SetBetweenOperationStatus`).

Behaviour of the code that a reader might not expect, all proved here:

- **Locked left and right drags re-centre.** They re-centre the box
  vertically on the gesture-start frame, using the height derived from the
  incoming box width (`LeftDragCentresOnIncomingWidth`).
- **A locked top drag does not keep the aspect ratio.** It sets the width to
  `origin.height × aspectRatio`, which is the origin width. It leaves the
  height at `origin.height − yDelta`, so the box keeps the aspect ratio only
  when the drag is clamped to zero (`TopDragKeepsOriginWidth`).
- **The corner clamps have no effect on the size.** The corner handlers clamp
  `xDelta`/`yDelta` to be non-negative only after the scale table has been
  built from the unclamped deltas. So a top-left drag outwards still grows
  the box (`TopLeftDragCanGrow`).
- **Corner rounding is not exact.** Both corner sides are rounded up with
  `ceil`. A 200×100 box dragged 50 to the right by its bottom-right handle
  becomes 225×113 (`BottomRightScenario`), so the ratio is kept only up to
  rounding (`CornerKeepsAspectUpToRounding`).
- **The first fallback rectangle can leave the content bounds.** The first
  two fallback rectangles of the resolver take the candidate's full width or
  height from a shifted origin, and can extend past the content bounds the
  guard checked (`FirstFallbackCanLeaveBounds`). The last two fallbacks and
  the intersection stay inside (`LaterFallbacksStayInBounds`).
- **A forced-ratio rotation turns the quadrant and the angle.** With a forced
  fixed ratio, the 90-degree rotation adds the angle to `degrees` (through
  the `rotating` status) and also turns `rotationType` in its completion
  (`ImageSnapView.RotateBy90`).
- **A forced-ratio relayout at a zero angle leaves no pending check.** The
  completion of `setFixedRatioImageSnapBox` arms the forced-ratio check, but
  the between-operation rendering it triggers consumes it again at once when
  the total angle is zero (`ImageSnapView.SetFixedRatioImageSnapBox`).

## Model

| member | source | states |
|---|---|---|
| Geometry.Standardized | Sources/ImageSnap/ImageSnapView/ImageSnapViewModel.swift:135-137 | the standardized rect has a non-negative size and the same four edges |
| Geometry.EqualToMeansSameEdges | Sources/ImageSnap/ImageSnapView/ImageSnapViewModel.swift:135-137 | `equalTo` holds exactly when the two rects have the same minimum and maximum x and y |
| Geometry.EqualToIgnoresSizeSign | Sources/ImageSnap/ImageSnapView/ImageSnapViewModel.swift:135-137 | a rect equals its mirrored form with origin at the opposite corner and negated size, which differs from it as raw values whenever the size is not zero |
| Geometry.Ceil | Sources/ImageSnap/ImageSnapView/ImageSnapViewModel.swift:150-151 | `ceil` gives the least integral value not below its argument |
| Geometry.Outset | Sources/ImageSnap/ImageSnapView/ImageSnapViewModel.swift:140 | `insetBy` with a negative inset grows each side of the standardized rect by the inset and is never null |
| Geometry.InsetBy | Sources/ImageSnap/ImageSnapView/ImageSnapView+Touches.swift:19-23 | `insetBy` gives a standardized rect exactly when both shrunk sides are non-negative, and the null rect otherwise |
| FreeAspect.NewFrameSize | Sources/ImageSnap/ImageSnapView/ImageSnapBoxFreeAspectFrameUpdater.swift:56-64 | the new size is the origin size plus the handle's table entry: −xDelta for left handles, +xDelta for right ones, −yDelta for top ones, +yDelta for bottom ones; with no handle it is the origin size |
| FreeAspect.FreeAspectFrameUpdater.constructor | Sources/ImageSnap/ImageSnapView/ImageSnapBoxFreeAspectFrameUpdater.swift:11-23 | stores the handle and the three frames; the minimum aspect ratio is 0 |
| FreeAspect.FreeAspectFrameUpdater.UpdateImageSnapBoxFrame | Sources/ImageSnap/ImageSnapView/ImageSnapBoxFreeAspectFrameUpdater.swift:25-95 | the box becomes `FreeAspectFrame` of the handle, the gesture-start frame, the incoming box and the deltas |
| FreeAspect.FreeAspectFrameUpdater.HandleLeftEdgeFrameUpdate | Sources/ImageSnap/ImageSnapView/ImageSnapBoxFreeAspectFrameUpdater.swift:30-35 | if the size passes the aspect check, x becomes origin.x + xDelta and the width the new width; otherwise nothing changes |
| FreeAspect.FreeAspectFrameUpdater.HandleRightEdgeFrameUpdate | Sources/ImageSnap/ImageSnapView/ImageSnapBoxFreeAspectFrameUpdater.swift:37-41 | if the size passes the aspect check, only the width changes |
| FreeAspect.FreeAspectFrameUpdater.HandleTopEdgeFrameUpdate | Sources/ImageSnap/ImageSnapView/ImageSnapBoxFreeAspectFrameUpdater.swift:43-48 | if the size passes the aspect check, y becomes origin.y + yDelta and the height the new height; otherwise nothing changes |
| FreeAspect.FreeAspectFrameUpdater.HandleBottomEdgeFrameUpdate | Sources/ImageSnap/ImageSnapView/ImageSnapBoxFreeAspectFrameUpdater.swift:50-54 | if the size passes the aspect check, only the height changes |
| FreeAspect.AspectRatioValidAtZero | Sources/ImageSnap/ImageSnapView/ImageSnapBoxFreeAspectFrameUpdater.swift:26-28 | with minimum 0 the check min/max ≥ 0 passes exactly for sizes with both sides non-negative and one positive, or both negative |
| FreeAspect.DefaultFloorAlwaysApplies | Sources/ImageSnap/ImageSnapView/ImageSnapBoxFreeAspectFrameUpdater.swift:11-93 | with the default minimum and both new sides positive every handle's update is applied: the dragged sides take the table's values and the others keep the incoming frame |
| FreeAspect.NoEdgeLeavesFrame | Sources/ImageSnap/ImageSnapView/ImageSnapBoxFreeAspectFrameUpdater.swift:56-93 | with no handle the frame is returned unchanged |
| FreeAspect.LeftDragKeepsRightSide | Sources/ImageSnap/ImageSnapView/ImageSnapBoxFreeAspectFrameUpdater.swift:30-35 | an admitted left drag moves x to origin.x + xDelta and sets width origin.width − xDelta, so the right side stays at the origin's; y and height keep the incoming values |
| FreeAspect.RightDragChangesWidthOnly | Sources/ImageSnap/ImageSnapView/ImageSnapBoxFreeAspectFrameUpdater.swift:37-41 | an admitted right drag changes only the width, to origin.width + xDelta |
| FreeAspect.TopDragKeepsBottomSide | Sources/ImageSnap/ImageSnapView/ImageSnapBoxFreeAspectFrameUpdater.swift:43-48 | an admitted top drag moves y to origin.y + yDelta and sets height origin.height − yDelta, keeping the bottom side; x and width keep the incoming values |
| FreeAspect.BottomDragChangesHeightOnly | Sources/ImageSnap/ImageSnapView/ImageSnapBoxFreeAspectFrameUpdater.swift:50-54 | an admitted bottom drag changes only the height, to origin.height + yDelta |
| FreeAspect.CornerAppliesBothOrNeither | Sources/ImageSnap/ImageSnapView/ImageSnapBoxFreeAspectFrameUpdater.swift:66-89 | a corner drag checks one size for both axes, so both sides take the new size or the frame is unchanged |
| FreeAspect.UpdateIsIdempotent | Sources/ImageSnap/ImageSnapView/ImageSnapBoxFreeAspectFrameUpdater.swift:25-95 | applying the update to its own output with the same inputs changes nothing |
| FreeAspect.WrittenFieldsIgnoreIncomingFrame | Sources/ImageSnap/ImageSnapView/ImageSnapBoxFreeAspectFrameUpdater.swift:25-95 | every field an admitted drag writes depends only on the gesture-start frame and the deltas, never on the incoming box |
| FreeAspect.LeftDragScenario | Sources/ImageSnap/ImageSnapView/ImageSnapBoxFreeAspectFrameUpdater.swift:30-35 | a 200×100 box at (50, 50) dragged 20 by its left handle becomes (70, 50, 180, 100) |
| LockedAspect.LockedAspectFrameUpdater.constructor | Sources/ImageSnap/ImageSnapView/ImageSnapBoxLockedAspectFrameUpdater.swift:17-22 | stores the handle and the three frames |
| LockedAspect.LockedAspectFrameUpdater.UpdateImageSnapBoxFrame | Sources/ImageSnap/ImageSnapView/ImageSnapBoxLockedAspectFrameUpdater.swift:24-131 | the box becomes `LockedAspectFrame` of the handle, content frame, gesture-start frame, incoming box and deltas (the bottom-right handle only resizes) |
| LockedAspect.LockedAspectFrameUpdater.UpdateHeightFromBothSides | Sources/ImageSnap/ImageSnapView/ImageSnapBoxLockedAspectFrameUpdater.swift:30-33 | the height becomes width / aspectRatio, centred vertically on the origin frame |
| LockedAspect.LockedAspectFrameUpdater.UpdateWidthFromBothSides | Sources/ImageSnap/ImageSnapView/ImageSnapBoxLockedAspectFrameUpdater.swift:35-38 | the width becomes height × aspectRatio, centred horizontally on the origin frame |
| LockedAspect.LockedAspectFrameUpdater.HandleLeftEdgeFrameUpdate | Sources/ImageSnap/ImageSnapView/ImageSnapBoxLockedAspectFrameUpdater.swift:40-46 | the box becomes `LeftDragFrame`, the left-drag rule |
| LockedAspect.LockedAspectFrameUpdater.HandleRightEdgeFrameUpdate | Sources/ImageSnap/ImageSnapView/ImageSnapBoxLockedAspectFrameUpdater.swift:48-52 | the box becomes `RightDragFrame`, the right-drag rule |
| LockedAspect.LockedAspectFrameUpdater.HandleTopEdgeFrameUpdate | Sources/ImageSnap/ImageSnapView/ImageSnapBoxLockedAspectFrameUpdater.swift:54-60 | the box becomes `TopDragFrame`, the top-drag rule |
| LockedAspect.LockedAspectFrameUpdater.HandleBottomEdgeFrameUpdate | Sources/ImageSnap/ImageSnapView/ImageSnapBoxLockedAspectFrameUpdater.swift:62-66 | the box becomes `BottomDragFrame`, the bottom-drag rule |
| LockedAspect.LockedAspectFrameUpdater.SetImageSnapBoxSize | Sources/ImageSnap/ImageSnapView/ImageSnapBoxLockedAspectFrameUpdater.swift:70-108 | with a corner's table entry the size becomes the corner size and the origin is kept; with no entry nothing changes |
| LockedAspect.LockedAspectFrameUpdater.HandleTopLeftEdgeFrameUpdate | Sources/ImageSnap/ImageSnapView/ImageSnapBoxLockedAspectFrameUpdater.swift:84-91 | the box becomes the top-left corner frame |
| LockedAspect.LockedAspectFrameUpdater.HandleTopRightEdgeFrameUpdate | Sources/ImageSnap/ImageSnapView/ImageSnapBoxLockedAspectFrameUpdater.swift:93-99 | the box becomes the top-right corner frame |
| LockedAspect.LockedAspectFrameUpdater.HandleBottomLeftEdgeFrameUpdate | Sources/ImageSnap/ImageSnapView/ImageSnapBoxLockedAspectFrameUpdater.swift:101-104 | the box becomes the bottom-left corner frame |
| LockedAspect.ScaleBracket | Sources/ImageSnap/ImageSnapView/ImageSnapBoxLockedAspectFrameUpdater.swift:75-81 | a rounded-up height scaled by the ratio stays within one ratio of the exact scaled height |
| LockedAspect.ScaledRatio | Sources/ImageSnap/ImageSnapView/ImageSnapBoxLockedAspectFrameUpdater.swift:28-81 | the scaled origin height times the aspect ratio is the scaled origin width |
| LockedAspect.StraightEdgesKeepAspect | Sources/ImageSnap/ImageSnapView/ImageSnapBoxLockedAspectFrameUpdater.swift:28-66 | left, right and bottom drags give width = height × origin.width / origin.height |
| LockedAspect.TopDragKeepsOriginWidth | Sources/ImageSnap/ImageSnapView/ImageSnapBoxLockedAspectFrameUpdater.swift:54-60 | a top drag sets the width to the origin width whatever the drag, and keeps the aspect ratio exactly when yDelta ≤ 0 |
| LockedAspect.LeftDragKeepsRightSide | Sources/ImageSnap/ImageSnapView/ImageSnapBoxLockedAspectFrameUpdater.swift:40-46 | a left drag clamps xDelta to ≥ 0, sets x = origin.x + xDelta and width = origin.width − xDelta ≤ origin.width, keeping the right side |
| LockedAspect.LeftDragCentresOnIncomingWidth | Sources/ImageSnap/ImageSnapView/ImageSnapBoxLockedAspectFrameUpdater.swift:30-46 | after a left drag the box is vertically centred on the origin exactly when its height equals the incoming box width over the ratio |
| LockedAspect.RightDragStaysWithinContentHeight | Sources/ImageSnap/ImageSnapView/ImageSnapBoxLockedAspectFrameUpdater.swift:48-52 | a right drag keeps x, and its width is at most both origin.width + xDelta and content height × ratio, so the height never exceeds the content height |
| LockedAspect.BottomDragStaysWithinContentWidth | Sources/ImageSnap/ImageSnapView/ImageSnapBoxLockedAspectFrameUpdater.swift:62-66 | a bottom drag keeps y, and its height is at most both origin.height + yDelta and content width / ratio, so the width never exceeds the content width |
| LockedAspect.TopDragKeepsBottomSide | Sources/ImageSnap/ImageSnapView/ImageSnapBoxLockedAspectFrameUpdater.swift:54-60 | a top drag clamps yDelta to ≥ 0, sets y = origin.y + yDelta and height = origin.height − yDelta, keeping the bottom side |
| LockedAspect.CornerScaleFollowsTable | Sources/ImageSnap/ImageSnapView/ImageSnapBoxLockedAspectFrameUpdater.swift:68-74 | the corner scale is the mean of 1 − dx/origin.width and 1 − dy/origin.height, with the deltas signed by the corner table |
| LockedAspect.CornerSidesRoundUp | Sources/ImageSnap/ImageSnapView/ImageSnapBoxLockedAspectFrameUpdater.swift:75-81 | each corner side is the scaled origin side rounded up: within [scaled, scaled + 1) |
| LockedAspect.CornerFrameHasCornerSize | Sources/ImageSnap/ImageSnapView/ImageSnapBoxLockedAspectFrameUpdater.swift:70-108 | every corner handle gives the box the size `setImageSnapBoxSize` computes |
| LockedAspect.CornerKeepsAspectUpToRounding | Sources/ImageSnap/ImageSnapView/ImageSnapBoxLockedAspectFrameUpdater.swift:75-81 | after a corner drag, width − height × ratio lies strictly between −ratio and 1 |
| LockedAspect.RoundingBracket | Sources/ImageSnap/ImageSnapView/ImageSnapBoxLockedAspectFrameUpdater.swift:75-81 | two sides each rounded up from an exact pair in the ratio differ from the ratio by less than one unit on either side |
| LockedAspect.TopLeftDragCanGrow | Sources/ImageSnap/ImageSnapView/ImageSnapBoxLockedAspectFrameUpdater.swift:68-91 | a top-left drag with negative xDelta makes the box wider than the origin, because the clamp runs after the scale is taken |
| LockedAspect.CornerKeepsOppositeCorner | Sources/ImageSnap/ImageSnapView/ImageSnapBoxLockedAspectFrameUpdater.swift:84-108 | top-left keeps the origin's right and bottom sides; top-right keeps x and the bottom side; bottom-left keeps the origin's right side and y; bottom-right keeps the origin |
| LockedAspect.NoEdgeLeavesFrame | Sources/ImageSnap/ImageSnapView/ImageSnapBoxLockedAspectFrameUpdater.swift:110-131 | with no handle the frame is unchanged |
| LockedAspect.BottomRightScenario | Sources/ImageSnap/ImageSnapView/ImageSnapBoxLockedAspectFrameUpdater.swift:68-108 | a 200×100 box dragged 50 by its bottom-right handle becomes 225×113 |
| ViewModel.ImageRotationType.FromRawValue | Sources/ImageSnap/ImageSnapView/ImageSnapViewModel.swift:10-14 | the failable initializer returns a case only for that case's raw value |
| ViewModel.ImageRotationType.GetRatioType | Sources/ImageSnap/ImageSnapView/ImageSnapViewModel.swift:105-115 | the displayed ratio type is horizontal exactly when "originally horizontal" agrees with "up or upside down" |
| ViewModel.TouchRect | Sources/ImageSnap/ImageSnapView/ImageSnapViewModel.swift:139-142 | the touch area is the box grown by half a hot area unit (16) on every side |
| ViewModel.ClampedTouchPoint | Sources/ImageSnap/ImageSnapView/ImageSnapViewModel.swift:145-147 | each coordinate is raised to at least the content origin minus the padding of 14, and is either that bound or the original coordinate |
| ViewModel.DragDelta | Sources/ImageSnap/ImageSnapView/ImageSnapViewModel.swift:149-151 | each delta is the least integer not below the pointer's offset from the pan origin |
| ViewModel.ImageSnapViewModel.constructor | Sources/ImageSnap/ImageSnapView/ImageSnapViewModel.swift:41-64 | the initial state: status initial, zero frames and pan origin, no handle, 0 degrees, no rotation, aspect ratio −1, anchors (0, 0) and (1, 1) |
| ViewModel.ImageSnapViewModel.SetViewStatus | Sources/ImageSnap/ImageSnapView/ImageSnapViewModel.swift:41-45 | assigning a status stores it and notifies the observer of it |
| ViewModel.ImageSnapViewModel.SetInitialStatus | Sources/ImageSnap/ImageSnapView/ImageSnapViewModel.swift:186-188 | the status becomes initial and is notified |
| ViewModel.ImageSnapViewModel.SetRotatingStatus | Sources/ImageSnap/ImageSnapView/ImageSnapViewModel.swift:190-192 | the status becomes rotating by the angle and is notified |
| ViewModel.ImageSnapViewModel.SetDegree90RotatingStatus | Sources/ImageSnap/ImageSnapView/ImageSnapViewModel.swift:194-196 | the status becomes 90-degree rotating and is notified |
| ViewModel.ImageSnapViewModel.SetTouchImageStatus | Sources/ImageSnap/ImageSnapView/ImageSnapViewModel.swift:198-200 | the status becomes touch-image and is notified |
| ViewModel.ImageSnapViewModel.SetTouchRotationBoardStatus | Sources/ImageSnap/ImageSnapView/ImageSnapViewModel.swift:202-204 | the status becomes touch-rotation-board and is notified |
| ViewModel.ImageSnapViewModel.SetTouchImageSnapboxHandleStatus | Sources/ImageSnap/ImageSnapView/ImageSnapViewModel.swift:206-208 | the status becomes touch-handle carrying the tapped handle, and is notified |
| ViewModel.ImageSnapViewModel.SetBetweenOperationStatus | Sources/ImageSnap/ImageSnapView/ImageSnapViewModel.swift:210-212 | the status becomes between-operation and is notified |
| ViewModel.ImageSnapViewModel.Reset | Sources/ImageSnap/ImageSnapView/ImageSnapViewModel.swift:66-79 | zero box, 0 degrees, no rotation, anchors (0, 0)/(1, 1), status initial; the aspect ratio becomes −1 only without a forced fixed ratio; the origin frame, pan origin and handle are kept |
| ViewModel.ImageSnapViewModel.RotateBy90 | Sources/ImageSnap/ImageSnapView/ImageSnapViewModel.swift:81-87 | the quadrant turns counterclockwise exactly when the angle is negative, clockwise otherwise (including 0) |
| ViewModel.ImageSnapViewModel.CounterclockwiseRotateBy90 | Sources/ImageSnap/ImageSnapView/ImageSnapViewModel.swift:89-91 | the quadrant turns one step counterclockwise |
| ViewModel.ImageSnapViewModel.ClockwiseRotateBy90 | Sources/ImageSnap/ImageSnapView/ImageSnapViewModel.swift:93-95 | the quadrant turns one step clockwise |
| ViewModel.ImageSnapViewModel.GetTotalDegrees | Sources/ImageSnap/ImageSnapView/ImageSnapViewModel.swift:55-103 | the total angle is the given angle plus one of 0, −90, −180, −270, and the added part is 0 or −180 exactly when the image is up or upside down |
| ViewModel.ImageSnapViewModel.PrepareForImageSnap | Sources/ImageSnap/ImageSnapView/ImageSnapViewModel.swift:117-142 | the pan origin becomes the point, the origin frame a copy of the box, the handle the one hit in the touch rect, and the status touch-image for no handle or touch-handle otherwise |
| ViewModel.ImageSnapViewModel.ResetImageSnapFrame | Sources/ImageSnap/ImageSnapView/ImageSnapViewModel.swift:130-137 | both frames become the given frame, so no crop is needed right after |
| ViewModel.ImageSnapViewModel.GetNewImageSnapBoxFrame | Sources/ImageSnap/ImageSnapView/ImageSnapViewModel.swift:144-165 | returns `NewImageSnapBoxFrame`: clamp the point, round the deltas up, then run the locked or the free updater as the lock flag says |
| ViewModel.ImageSnapViewModel.SetImageSnapBoxFrame | Sources/ImageSnap/ImageSnapView/ImageSnapViewModel.swift:167-181 | the box becomes `AspectFitFrame` of the reference box |
| ViewModel.RawValueRoundTrip | Sources/ImageSnap/ImageSnapView/ImageSnapViewModel.swift:10-14 | each quadrant is recovered from its raw value |
| ViewModel.CounterclockwiseCycle | Sources/ImageSnap/ImageSnapView/ImageSnapViewModel.swift:16-22 | a counterclockwise step lowers the raw value by 90, wrapping −270 to 0, and four steps return to the start |
| ViewModel.ClockwiseCycle | Sources/ImageSnap/ImageSnapView/ImageSnapViewModel.swift:24-35 | a clockwise step raises the raw value by 90, wrapping 0 to −270, and four steps return to the start |
| ViewModel.RotationsAreInverse | Sources/ImageSnap/ImageSnapView/ImageSnapViewModel.swift:16-35 | a clockwise and a counterclockwise step undo each other in either order |
| ViewModel.QuarterTurnSwapsOrientation | Sources/ImageSnap/ImageSnapView/ImageSnapViewModel.swift:105-115 | a quarter turn either way flips "up or upside down" and so swaps the displayed ratio type |
| ViewModel.NoHandleKeepsBox | Sources/ImageSnap/ImageSnapView/ImageSnapViewModel.swift:144-165 | when no handle was hit, the new box frame is the current one, locked or not |
| ViewModel.FreeCornerReturnsToSnapshot | Sources/ImageSnap/ImageSnapView/ImageSnapViewModel.swift:144-165 | a free corner drag back at the pan origin restores the snapshot size, and the whole snapshot for the top-left handle |
| ViewModel.ClampedTouchesDragAlike | Sources/ImageSnap/ImageSnapView/ImageSnapViewModel.swift:145-147 | every point beyond the top-left clamp corner gives the same box as the clamp corner itself |
| ViewModel.AspectFitHasRatio | Sources/ImageSnap/ImageSnapView/ImageSnapViewModel.swift:171-175 | the fitted box has width = height × aspectRatio, keeping the reference width when aspectRatio > imageRatioH and the reference height otherwise |
| ViewModel.AspectFitKeepsCenter | Sources/ImageSnap/ImageSnapView/ImageSnapViewModel.swift:168-179 | the fitted box is standardized and has the reference box's centre |
| ViewModel.AspectFitStaysInside | Sources/ImageSnap/ImageSnapView/ImageSnapViewModel.swift:167-181 | for a reference box in the image's own ratio, the fitted box lies inside it |
| SnapView.ContentBoundsMargins | Sources/ImageSnap/ImageSnapView/ImageSnapView.swift:357-380 | in portrait or landscape the content bounds lie inside the view, with a gap of 14 on three sides and 14 plus the dial height on the dial's side (bottom, right for landscape-left, left otherwise) |
| SnapView.Intersection | Sources/ImageSnap/ImageSnapView/ImageSnapView.swift:293-324 | the last fallback spans from the larger minimum to the smaller maximum of the two frames on each axis |
| SnapView.CorrectiveRects | Sources/ImageSnap/ImageSnapView/ImageSnapView.swift:298-322 | there are exactly four corrective rects |
| SnapView.FirstContained | Sources/ImageSnap/ImageSnapView/ImageSnapView.swift:298-322 | the index of the first rect the image contains, with none before it, or the length when there is none |
| SnapView.ResolverOutcome | Sources/ImageSnap/ImageSnapView/ImageSnapView.swift:281-325 | the stored box is the old box or a rect the image holds, unless the image holds neither the candidate nor any corrective rect; for an old box overlapping the candidate, a stored box the image does not hold lies inside both |
| SnapView.LaterFallbacksStayInBounds | Sources/ImageSnap/ImageSnapView/ImageSnapView.swift:312-324 | for overlapping frames inside the bounds, the third and fourth fallbacks stay inside the bounds and the intersection is inside both frames |
| SnapView.FirstFallbackCanLeaveBounds | Sources/ImageSnap/ImageSnapView/ImageSnapView.swift:293-303 | when the candidate reaches the right bound and the old box starts further right, the first fallback is stored and extends past the bounds |
| SnapView.InitialImageSnapBoxRect | Sources/ImageSnap/ImageSnapView/ImageSnapView.swift:339-342 | an image with a side ≤ 0 gives the zero rect |
| SnapView.QuarterTurnTransposesImage | Sources/ImageSnap/ImageSnapView/ImageSnapView.swift:348-352 | after a quarter turn either way the image rect to inscribe has its width and height swapped |
| SnapView.ImageRatioH | Sources/ImageSnap/ImageSnapView/ImageSnapView.swift:726-732 | the ratio is the image's for none or −180, and its reciprocal otherwise |
| SnapView.QuarterTurnInvertsImageRatio | Sources/ImageSnap/ImageSnapView/ImageSnapView.swift:726-732 | a quarter turn either way replaces the ratio by its reciprocal |
| SnapView.HandleRingHit | Sources/ImageSnap/ImageSnapView/ImageSnapView+Touches.swift:12-30 | the dial takes exactly the points in its frame; elsewhere the view takes exactly the ring within 16 of the overlay's sides, the scroll view the other points in the bounds, and nothing the rest |
| SnapView.ImageSnapView.constructor | Sources/ImageSnap/ImageSnapView/ImageSnapView.swift:25-67 | a new view has a dial height of 60, no dial, no lock and no forced ratio |
| SnapView.ImageSnapView.GetContentBounds | Sources/ImageSnap/ImageSnapView/ImageSnapView.swift:357-380 | returns `ContentBounds` of the view bounds, orientation and dial height |
| SnapView.ImageSnapView.GetInitialImageSnapBoxRect | Sources/ImageSnap/ImageSnapView/ImageSnapView.swift:339-355 | returns the image rect, transposed after a quarter turn, inscribed in the content bounds |
| SnapView.ImageSnapView.TotalDegrees | Sources/ImageSnap/ImageSnapView/ImageSnapView.swift:599-601 | with a forced ratio the total angle is the view model's degrees; otherwise the degrees plus a quadrant offset in [−270, 0] |
| SnapView.ImageSnapView.CheckImageStatusChanged | Sources/ImageSnap/ImageSnapView/ImageSnapView.swift:135-143 | at a zero total angle of the view model a pending forced-ratio check is consumed when the ratio is forced; otherwise the check is kept |
| SnapView.ImageSnapView.SetBetweenOperationStatus | Sources/ImageSnap/ImageSnapView/ImageSnapView.swift:119-124 | the between-operation status is stored and notified, and its rendering consumes a forced-ratio check at a zero total angle |
| SnapView.ImageSnapView.SetRotatingStatus | Sources/ImageSnap/ImageSnapView/ImageSnapView.swift:486-499 | the rotating status (rendered at lines 98-100) is stored and notified, its angle becomes the view model's degrees, and the manual zoom survives exactly when it was on and the scroll view need not scale at the total angle |
| SnapView.ImageSnapView.UpdateImageSnapBoxFrame | Sources/ImageSnap/ImageSnapView/ImageSnapView.swift:275-326 | the box becomes the resolver's choice for the candidate the view model computes from the point |
| SnapView.ImageSnapView.StoreAdmittedFrame | Sources/ImageSnap/ImageSnapView/ImageSnapView.swift:279-325 | the box becomes `ResolvedBoxFrame` of the old box and the candidate |
| SnapView.ImageSnapView.AdjustUIForNewImageSnap | Sources/ImageSnap/ImageSnapView/ImageSnapView.swift:407-478 | the box becomes the old box inscribed in the content rect, and the view counts as manually zoomed |
| SnapView.ImageSnapView.SetFixedRatioImageSnapBox | Sources/ImageSnap/ImageSnapView/ImageSnapView.swift:705-720 | the box becomes the aspect fit of the given or initial box, inscribed in the content bounds; with a forced ratio the completion arms the forced-ratio check and the between-operation rendering consumes it again at a zero total angle, so it ends armed exactly when that angle is not zero; the status becomes between-operation |
| SnapView.ImageSnapView.ResetUIFrame | Sources/ImageSnap/ImageSnapView/ImageSnapView.swift:174-192 | both frames become the initial box; with the lock on, the box is then fitted to the ratio, the view counts as manually zoomed, between-operation is notified and a forced ratio's check ends armed exactly at a non-zero total angle; otherwise the check and the manual zoom are untouched |
| SnapView.ImageSnapView.Reset | Sources/ImageSnap/ImageSnapView/ImageSnapView.swift:677-691 | the lock becomes the forced-ratio flag, the view model is reset with it, and the frames are re-laid out from an unrotated initial box; a forced ratio, 0 included, is kept; a forced ratio's pending check is consumed and the view ends manually zoomed, otherwise the manual zoom is kept; the pan origin and handle are kept |
| SnapView.ImageSnapView.RotateBy90 | Sources/ImageSnap/ImageSnapView/ImageSnapView.swift:635-675 | the quadrant turns by the angle's sign; with a forced ratio the degrees and total angle grow by the angle, the box stays, and the manual zoom survives only if neither rotating render (at the old and the new angle) needs scaling; otherwise the degrees and the zoom stay and the box becomes its transposition inscribed in the content bounds; the notifications of each branch; the forced-ratio check is consumed at a zero total angle |
| SnapView.ImageSnapView.TouchesBegan | Sources/ImageSnap/ImageSnapView/ImageSnapView+Touches.swift:32-48 | multi-touch changes nothing; a dial touch sets touch-rotation-board without a snapshot; any other single touch takes the gesture snapshot |
| SnapView.ImageSnapView.TouchesMoved | Sources/ImageSnap/ImageSnapView/ImageSnapView+Touches.swift:50-63 | multi-touch and dial touches leave the box; any other single touch feeds the point to the resolver |
| SnapView.ImageSnapView.TouchesEnded | Sources/ImageSnap/ImageSnapView/ImageSnapView+Touches.swift:65-80 | if the box, compared by `equalTo`, moved away from the gesture snapshot it is inscribed in the content bounds and the view counts as manually zoomed; otherwise both stay; the status becomes between-operation, whose rendering consumes a forced-ratio check at a zero total angle |
| ToolbarOptions.ToolbarButtonOptions.Union | Sources/ImageSnap/ToolbarButtonOptions.swift:22-29 | the union of two option sets contains both |
| ToolbarOptions.UnionIsLeast | Sources/ImageSnap/ToolbarButtonOptions.swift:22-29 | any set containing both operands contains their union |
| ToolbarOptions.SetOfContainsElements | Sources/ImageSnap/ToolbarButtonOptions.swift:22-29 | a set literal contains each of its elements |
| ToolbarOptions.OptionsAreDistinctBits | Sources/ImageSnap/ToolbarButtonOptions.swift:16-20 | the five options are the distinct single bits 1, 2, 4, 8 and 16 |
| ToolbarOptions.DefaultSet | Sources/ImageSnap/ToolbarButtonOptions.swift:22-24 | `default` is raw 13: counterclockwise rotate, reset and ratio, without clockwise rotate or the 90-degree flip |
| ToolbarOptions.AllSet | Sources/ImageSnap/ToolbarButtonOptions.swift:26-29 | `all` is raw 15: both rotations, reset and ratio, without the 90-degree flip |
| ToolbarOptions.DefaultIsSubsetOfAll | Sources/ImageSnap/ToolbarButtonOptions.swift:22-29 | `default` is a subset of `all` |
| ImageSnapConfig.DigitChar | Sources/ImageSnap/ImageSnap.swift:170 | a digit value is written as its decimal digit character |
| ImageSnapConfig.NatToString | Sources/ImageSnap/ImageSnap.swift:170 | string interpolation of a natural number gives non-empty decimal digits without a leading zero |
| ImageSnapConfig.IntToString | Sources/ImageSnap/ImageSnap.swift:170 | string interpolation of an integer is non-empty and has no colon; for a non-negative integer it is all digits, and for a positive one it does not start with 0 |
| ImageSnapConfig.NatToStringRoundTrip | Sources/ImageSnap/ImageSnap.swift:170 | reading the decimal digits back gives the number |
| ImageSnapConfig.IntToStringRoundTrip | Sources/ImageSnap/ImageSnap.swift:170 | reading an interpolated integer back, sign included, gives the integer |
| ImageSnapConfig.ColonIndex | Sources/ImageSnap/ImageSnap.swift:170 | the index of the first colon of a label, or its length |
| ImageSnapConfig.RatioLabelRoundTrip | Sources/ImageSnap/ImageSnap.swift:170 | a "first:second" label names its pair: splitting at the colon gives both integers back |
| ImageSnapConfig.Quotient | Sources/ImageSnap/ImageSnap.swift:170 | `Double(a) / Double(b)` times b is a |
| ImageSnapConfig.RatioItemOf | Sources/ImageSnap/ImageSnap.swift:168-172 | an item's horizontal ratio times the pair's height is the width, and its vertical ratio times the width is the height |
| ImageSnapConfig.RatioItemIsReciprocal | Sources/ImageSnap/ImageSnap.swift:170 | the horizontal and the vertical ratio of an item multiply to 1 |
| ImageSnapConfig.RatioItemNamesItsPair | Sources/ImageSnap/ImageSnap.swift:170 | the horizontal label reads back as (w, h) and the vertical label as (h, w) |
| ImageSnapConfig.SwappedPairSwapsItem | Sources/ImageSnap/ImageSnap.swift:160-172 | the item of (h, w) is the item of (w, h) with its horizontal and vertical halves swapped |
| ImageSnapConfig.RatioItems | Sources/ImageSnap/ImageSnap.swift:168-172 | one item per stored pair, in order, each with its pair's width-over-height ratio |
| ImageSnapConfig.Config.constructor | Sources/ImageSnap/ImageSnap.swift:112-154 | the defaults: no preset transformation, rect shape, several preset ratios with default 0, the rotation dial shown, the default toolbar (adaptive, default buttons, fixed-ratio setting button included), no custom ratios |
| ImageSnapConfig.Config.Copy | Sources/ImageSnap/ImageSnap.swift:126-173 | a struct copy: a fresh configuration with every field equal |
| ImageSnapConfig.Config.AddCustomRatioByHorizontal | Sources/ImageSnap/ImageSnap.swift:156-158 | appends (width, height) at the end, after which there are custom ratios |
| ImageSnapConfig.Config.AddCustomRatioByVertical | Sources/ImageSnap/ImageSnap.swift:160-162 | appends the swapped pair (height, width) at the end |
| ImageSnapConfig.Config.GetCustomRatioItems | Sources/ImageSnap/ImageSnap.swift:168-172 | one item per stored pair, in order, each the pair's item ("w:h", w/h, "h:w", h/w) |
| ImageSnapConfig.HasCustomRatiosIffItems | Sources/ImageSnap/ImageSnap.swift:164-172 | there are custom ratios exactly when the item list is non-empty |
| ImageSnapConfig.AddedRatioIsLastItem | Sources/ImageSnap/ImageSnap.swift:156-172 | after a horizontal add the items are the old items followed by the new pair's item |
| ImageSnapConfig.VerticalRatioIsSwappedHorizontal | Sources/ImageSnap/ImageSnap.swift:160-172 | after a vertical add the last item is the horizontal pair's item with its halves swapped |
| Controller.ShapeRuleForcesOneRatio | Sources/ImageSnap/ImageSnapViewController/ImageSnapViewController.swift:66-71 | the preset becomes a single fixed ratio exactly when the shape is a circle or square or it already was one; for those shapes the ratio is 1; applying the rule twice changes nothing |
| Controller.PresetMaskIsUniformScale | Sources/ImageSnap/ImageSnapViewController/ImageSnapViewController.swift:280-302 | both sides of the fitted mask and the offset are the preset's times the same adjust factor |
| Controller.ScaledBy | Sources/ImageSnap/ImageSnapViewController/ImageSnapViewController.swift:307-310 | a rect scaled by k has its standardized width and height multiplied by the absolute value of k |
| Controller.PresetScrollBoundsAreScaled | Sources/ImageSnap/ImageSnapViewController/ImageSnapViewController.swift:307-310 | the new scroll bounds are the preset's scroll bounds scaled by the same adjust factor as the mask |
| Controller.PresetKeepsRotationAndFlags | Sources/ImageSnap/ImageSnapViewController/ImageSnapViewController.swift:298-312 | rotation, scale, zoom flag and initial mask frame pass through unchanged |
| Controller.FittedSizeIsScaled | Sources/ImageSnap/ImageSnapViewController/ImageSnapViewController.swift:288-296 | the fitted mask size is the preset mask size times the adjust scale |
| Controller.PresetMaskKeepsAspect | Sources/ImageSnap/ImageSnapViewController/ImageSnapViewController.swift:288-296 | the fitted mask has the preset mask's aspect ratio |
| Controller.PresetMaskFitsContent | Sources/ImageSnap/ImageSnapViewController/ImageSnapViewController.swift:288-296 | the mask fits in the content bounds: the height equals the content height when the mask is relatively taller, the width equals the content width otherwise |
| Controller.FittedMaskFitsContent | Sources/ImageSnap/ImageSnapViewController/ImageSnapViewController.swift:288-296 | the fitted mask size is positive and within the content bounds, filling their height for a relatively taller mask and their width otherwise |
| Controller.PresetMaskIsCentred | Sources/ImageSnap/ImageSnapViewController/ImageSnapViewController.swift:303-306 | the mask has the same centre as the gesture-start frame |
| Controller.NormalizedScaleFitsLongerSide | Sources/ImageSnap/ImageSnapViewController/ImageSnapViewController.swift:315-345 | scale = min(1/w, 1/h) is the reciprocal of the longer normalised side; zoomed exactly when that side is not 1; offset = frame side × normalised origin × scale; rotation 0; zero initial mask and scroll bounds |
| Controller.WiderNormalizedMask | Sources/ImageSnap/ImageSnapViewController/ImageSnapViewController.swift:326-329 | a wider rect keeps the frame's x and width, scales the height by h/w, centres vertically and stays inside the frame |
| Controller.TallerNormalizedMask | Sources/ImageSnap/ImageSnapViewController/ImageSnapViewController.swift:330-333 | a taller rect keeps the frame's y and height, scales the width by w/h, centres horizontally and stays inside the frame |
| Controller.SquareNormalizedMask | Sources/ImageSnap/ImageSnapViewController/ImageSnapViewController.swift:324-334 | a square rect leaves the mask equal to the frame |
| Controller.ImageSnapViewController.constructor | Sources/ImageSnap/ImageSnapViewController/ImageSnapViewController.swift:58-77 | keeps its own copy of the configuration with the shape rule applied to the preset ratio type, and stores the mode; rotation is enabled |
| Controller.ImageSnapViewController.CreateImageSnapView | Sources/ImageSnap/ImageSnapViewController/ImageSnapViewController.swift:226-240 | the dial height becomes 0 without a rotation dial; the ratio is forced exactly when the preset is a single fixed ratio, so always for circles and squares |
| Controller.ImageSnapViewController.GetRatioType | Sources/ImageSnap/ImageSnapViewController/ImageSnapViewController.swift:124-133 | adaptive follows the displayed image; horizontal and vertical are fixed |
| Controller.ImageSnapViewController.SetFixedRatio | Sources/ImageSnap/ImageSnapViewController/ImageSnapViewController.swift:208-224 | the lock is always enabled; the ratio is stored, the box re-fitted and the view marked manually zoomed only when it differs from the current ratio, and only then can the forced-ratio check change |
| Controller.ImageSnapViewController.ResetRatioButton | Sources/ImageSnap/ImageSnapViewController/ImageSnapViewController.swift:351-354 | the lock is disabled |
| Controller.ImageSnapViewController.HandleSetRatio | Sources/ImageSnap/ImageSnapViewController/ImageSnapViewController.swift:356-385 | with the lock on it only unlocks; without a source view or with no ratios nothing changes; one ratio applies its horizontal or vertical value by the ratio type, with the box, zoom and check as `SetFixedRatio` leaves them; more ratios present the picker |
| Controller.ImageSnapViewController.HandleReset | Sources/ImageSnap/ImageSnapViewController/ImageSnapViewController.swift:387-392 | the lock ends equal to the forced-ratio flag, the aspect ratio becomes −1 unless forced (a forced 0 included), the rotation and frames are reset, a forced ratio's pending check is consumed and the view ends manually zoomed when forced; the pan origin and handle are kept |
| Controller.ImageSnapViewController.HandleRotate | Sources/ImageSnap/ImageSnapViewController/ImageSnapViewController.swift:394-403 | while a rotation is running a request changes nothing; otherwise further requests are blocked and the view is left quarter-turned: quadrant, angle, box, notifications, forced-ratio check and manual zoom as the view's quarter turn states |
| Controller.ImageSnapViewController.RotationCompleted | Sources/ImageSnap/ImageSnapViewController/ImageSnapViewController.swift:397-400 | the rotation completion enables rotation again |

## Left out

- **Division by zero.** The source divides floating-point values and relies
  on IEEE infinities and NaN for a zero side. The model requires the divisor
  to be non-zero instead: `LockedAspect.Divisible`, `imageRatioH != 0`, the
  aspect-fit guard, `RatiosNonZero` and the side guards of the two transform
  conversions. Those inputs are not modelled.
- **Config.GetCustomRatioItems** requires every stored pair to be non-zero,
  for the same reason.
- **Animation timing and completions.** The completions of the animated
  90-degree rotation (`ImageSnapView.RotateBy90`) and of the animated
  `adjustUIForNewImageSnap` that ends a gesture
  (`ImageSnapView.TouchesEnded`) run in the same step. The
  controller's completion that re-enables rotation is the separate
  `RotationCompleted`. The deferred `handleRotate` of the controller's layout
  pass is not modelled.
- **Trigonometric layout.** The scroll-view bounds, zoom and content offset
  in `adjustUIForNewImageSnap`, `updatePosition`, `updatePositionFor90Rotation`
  and `rotateScrollView` use cos/sin floating point and UIScrollView zooming.
  `AdjustUIForNewImageSnap` keeps only its effect on the box (the inscribed
  rect) and the manual-zoom flag. Its `zoom` and `animation` parameters do
  not change either. Of `rotateScrollView` and `updatePosition`, only the
  manual-zoom reset is kept, with the scroll view's scaling answer as the
  `shouldScale` parameter.
- **View-layer side effects.** Mask views, dimming and visual-effect
  backgrounds, the grid overlay, the rotation dial's rendering and the
  toolbar updates are left out, because they are UIKit presentation.
  `isTheSamePoint` is left out, because its ulp tolerance is specific to
  float representation.
- **Other view steps.** The KVO wiring is framework plumbing. The raster
  clipping and shape masks, and `getImageSnapInfo`, are UIKit and
  CoreGraphics work. All three are left out.
- **Toolbar and ratio presentation.** `FixedRatioManager`, `RatioPresenter`,
  `RatioSelector` and the toolbar classes are not part of this model. The
  ratio list is a parameter of `HandleSetRatio`, and presenting the picker
  is its boolean result.
- **Other controller steps.** `processPresetTransformation`, `viewDidAppear`,
  `transform(byTransformInfo:)`, `handleAlterImageSnapper90Degree` and
  `createImageSnapToolbar` apply their results through scroll-view and
  toolbar calls and are not modelled. Of `processPresetTransformation`, only
  the two pure conversions it calls are modelled: `TransformByTransformInfo`
  and `TransformByNormalizedInfo`.
- **Config fields outside the engine.** `imageSnapVisualEffectType`,
  `ratioOptions`, the toolbar mode and the localisation bundle are not
  modelled.
- **Abstract collaborators.** The edge finder, the inscribe helper, the
  image-container containment test, the orientation helper and `ratioH` are
  taken as parameters, and nothing is assumed about them.
- **SnapView.ImageSnapView.CheckImageStatusChanged** models only the update
  of the forced-ratio check. The resettable or unresettable answer it gives
  the delegate depends on the scroll view's zoom scale and the image anchor
  points, which come from the trigonometric layout left out above.
- **SnapView.InitialImageSnapBoxRect** states only the zero-size guard; the
  rest is `inscribe` applied to the image rect, which the model takes
  abstractly.
- **SnapView.CorrectiveRects** states only that there are four rectangles;
  their content is stated by `SnapView.LaterFallbacksStayInBounds` and
  `SnapView.FirstFallbackCanLeaveBounds`.
- **Controller.ImageSnapViewController.HandleReset** does not restate the box
  frame or the notifications; those are the contract of
  `SnapView.ImageSnapView.Reset`, which it calls.
