# MRLabel gesture and layout model

A Dafny model of the `MRLabel` widget: a text label that the user drags
to move it and resizes by dragging a handle in its bottom-right corner. It
draws a dashed selection border and stroked, coloured text.

The model is an immutable state record with one pure function per
callback:

- **frame**: `(x, y, width, height)` as a `Rect`;
- **handle**: the handle subview's centre and the circle drawn inside it;
- **isResizing**: the mode latched by touch-down;
- **translation**: the pan recognizer's pending translation;
- **needsDisplay**: the redraw request;
- **style**: text, colours, stroke width and font.

`CGFloat` is `real`. The main screen's size is a parameter (`Screen`).

- `geometry.dfy` (module `Geometry`) holds the constants `TEXT_MARGIN`,
  `HANDLE_WIDTH`, `MIN_FRAME_WIDTH` and `MIN_FRAME_HEIGHT`. It also holds
  the bottom-right hit zone and the three rectangles the drawing code
  derives from the bounds: the border, the text box and the handle's circle.
- `label.dfy` (module `Label`) holds the state and its callbacks:
  `touchesBegan`, `touchesEnded`, `panHandler` (split into its resize and
  move branches), the style setters, `setupSizeHandleView` and `draw`.
- `gesture.dfy` (module `Gesture`) holds an event type, a one-event
  `Step`, and `Run` over a sequence of events. It proves properties of
  whole gestures.

Points worth knowing about the behaviour as written:

- The pan handler picks resize or move from the location of the *current*
  event, not from the latched `isResizing`. The latched flag only blocks
  moving. So a resize drag that leaves the zone does nothing
  (`Gesture.EscapedResizeIsInert`). A move drag that enters the zone
  resizes (`Label.MoveModeCanResize`).
- The width and height guards are shaped differently.
  - The width guard refuses a step only if it pushes further past a bound
    the width has already reached.
  - The height guard accepts every growth, even above the ceiling. It
    accepts a shrink only while the height is strictly between the minimum
    and the ceiling.
  - So a height that has reached the ceiling never decreases again
    (`Gesture.HeightCeilingTrap`). The model keeps this asymmetry as
    written.
- Both guards are checked before the step. The result is never clamped,
  so one large step can land below the minimum.
- The handle subview's own frame is the square at the origin. Its circle
  is drawn at `(W - 20, H - 20)` inside it, for the size `W`, `H` at set-up
  time. `HandleAnchored` states that the circle, as seen in the label, is
  flush with the label's bottom-right corner. `SetupHandle` establishes
  this and every event of the model keeps it (`Gesture.Run`).

Behaviour a reader might expect but the code does not have, and the model
follows the code:

- No delta is rejected for being non-finite. Reals have no NaN.
- Only `touchesEnded` is overridden. A cancelled touch sequence leaves
  `isResizing` as it was, so the model has no cancel event.
- The resize branch never consults `isResizing`.
- The handle position is a stored subview centre that is kept in step by
  hand, not a derived value. The model stores it the same way and proves
  it stays in step.
- The border is pulled in by half a handle, not a whole one.
- The text box ends at the border's bottom edge.

## Model

| member | source | states |
|---|---|---|
| Geometry.HandleCircleRect | MRLabel.swift:203-204 | the handle circle is one handle square, flush with the bottom-right corner of the bounds |
| Geometry.BorderRect | MRLabel.swift:220-226 | the border starts at the origin and its far corner is exactly the centre of the handle circle |
| Geometry.TextRect | MRLabel.swift:262-267 | the text box is inset by the margin at left and top, ends where the handle's column begins and ends at the bottom on the border's bottom edge |
| Geometry.TextInsideBorder | MRLabel.swift:262-267 | the text box lies within the dashed border for every size |
| Geometry.TextClearOfHandle | MRLabel.swift:262-267 | no point is strictly inside both the text box and the handle circle |
| Geometry.HandleInsideZone | MRLabel.swift:173 | every point of the handle circle is in the hit zone, and the zone is strictly larger than the circle |
| Geometry.ZoneEdgesExcluded | MRLabel.swift:173 | the zone test is strict: points on the zone's left or top edge are move touches |
| Label.HandleOnLabel | MRLabel.swift:203-207 | a handle subview still centred where set-up placed it (half a handle from the origin) shows its circle exactly where the circle was drawn |
| Label.HandleFollowsCentre | MRLabel.swift:147-153 | moving the subview's centre by (dx, dy) moves the circle shown in the label by exactly (dx, dy), at the same size |
| Label.SetupHandle | MRLabel.swift:197-216 | a rebuilt handle subview occupies the square at the origin, its circle is anchored to the current corner, and nothing else changes |
| Label.TouchesBegan | MRLabel.swift:169-180 | with a first touch, isResizing becomes true iff x > width - 40 and y > height - 40, both strict, on the standardised (non-negative) width and height; with none, nothing changes; the frame, handle, translation and redraw flag are never touched |
| Label.ZoneUsesStandardisedSize | MRLabel.swift:173 | the zone test reads the standardised size: for a non-negative size it is the zone of the bounds, and for a negative width it uses the width's magnitude, unlike the guards, which read the signed width |
| Label.TouchesEnded | MRLabel.swift:182-185 | isResizing is false afterwards whatever it was, and nothing else changes |
| Label.WidthGuardRefusals | MRLabel.swift:146 | the width guard refuses a step iff (width <= 60 and dx <= 0) or (width >= screen width - 20 and dx >= 0) |
| Label.HeightGuardRefusals | MRLabel.swift:151 | the height guard refuses a step iff dy <= 0 and the height is at or below 40 or at or above screen height - 20 |
| Label.ResizeWidth | MRLabel.swift:146-149 | a width step applies the whole delta or none; for a nonzero delta, the width changes iff the guard holds |
| Label.ResizeHeight | MRLabel.swift:151-154 | a height step applies the whole delta or none; for a nonzero delta, the height changes iff the guard holds |
| Label.FloorBoundary | MRLabel.swift:146-149 | at width exactly 60, a shrink by 5 is refused and a growth by 5 gives 65 |
| Label.CeilingBoundary | MRLabel.swift:146-149 | at width exactly screen width - 20, a growth by 5 is refused and a shrink by 5 is accepted |
| Label.SingleStepCanUndershoot | MRLabel.swift:146-149 | width 100 with delta -50 becomes 50, below the minimum: the guard is not a clamp |
| Label.GuardAsymmetry | MRLabel.swift:146-154 | at the ceiling the width refuses growth but may shrink; the height accepts growth but refuses to shrink |
| Label.ResizeStep | MRLabel.swift:144-158 | a resize step keeps the origin, sets the width and height to the guarded results of the translation, keeps handle-centre minus size constant on both axes, zeroes the translation and raises the redraw flag |
| Label.MoveStep | MRLabel.swift:159-166 | a move step shifts the origin by the translation unless resizing is latched, in which case the frame is kept; it never changes the size, the handle, the mode or the redraw flag, and it zeroes the translation |
| Label.PanHandler | MRLabel.swift:136-167 | zero touches: the state is unchanged. Resize zone: origin kept, guarded size deltas applied, handle moved by the accepted deltas, redraw raised. Outside the zone: the origin shifts by the translation with no bound unless resizing is latched, in which case the frame is kept. Any handled event zeroes the translation |
| Label.PanKeepsHandleAnchored | MRLabel.swift:147-153 | a pan event keeps the handle circle flush with the label's corner |
| Label.PanIdempotent | MRLabel.swift:156-165 | repeating a pan event right away changes nothing more, because the first one consumed the translation |
| Label.MoveModeCanResize | MRLabel.swift:144-149 | with move mode latched, a pan inside the zone whose width guard passes still changes the width |
| Label.ResizeModeOutsideZoneIsInert | MRLabel.swift:159-166 | with resize mode latched, a pan outside the zone leaves the frame and the handle unchanged |
| Label.Restyle | MRLabel.swift:51-121 | a setter stores its value and raises the redraw flag without touching the frame, mode or translation; only the accent-colour setter rebuilds the handle, and the rebuilt handle is anchored |
| Label.TextStrokeAttribute | MRLabel.swift:254 | the stroke attribute is the negated stroke width, so a positive width gives a negative (stroke and fill) attribute |
| Label.Render | MRLabel.swift:236-272 | the border is the border rect of the current size, with corner radius 3, dash [4, 2], the accent colour and a transparent fill. The text is drawn in the text rect, centred, with line spacing 0, the negated stroke width, the stroke and fill colours and the font |
| Label.RenderDependsOnSizeAndStyle | MRLabel.swift:236-272 | two states with the same size and style draw identically, whatever their position, mode, handle or translation |
| Label.MoveKeepsDrawing | MRLabel.swift:159-166 | a pan outside the zone never changes what is drawn |
| Label.DrawingRespectsHandle | MRLabel.swift:262-267 | with the handle anchored, the drawn text stays clear of the handle circle and the border's far corner sits under the circle's centre |
| Gesture.Accumulate | MRLabel.swift:141-142 | finger movement adds exactly its delta to the pending translation and changes nothing else |
| Gesture.BeginPan | MRLabel.swift:141-142 | a recognized gesture starts with a zero translation and nothing else changes |
| Gesture.Step | MRLabel.swift:136-185 | every event keeps the handle anchored; only setters change the style; touch-up always leaves move mode |
| Gesture.Run | MRLabel.swift:144-154 | over any sequence of events, the handle circle stays flush with the label's corner |
| Gesture.EscapedResizeIsInert | MRLabel.swift:159-166 | with resize mode latched, while every pan lands outside the zone the frame and handle stay put and the mode stays latched |
| Gesture.MoveFollowsFinger | MRLabel.swift:159-166 | in move mode, while every pan lands outside the zone, origin plus pending translation advances by exactly the finger's total movement; size and handle stay put |
| Gesture.HeightCeilingTrap | MRLabel.swift:151-154 | once the height is at or above screen height - 20, no sequence of events lowers it |
| Gesture.GestureReset | MRLabel.swift:169-185 | after touch-up then touch-down at p, the mode is resize iff p is in the zone of the standardised size, whatever the previous gesture was |
| Gesture.StaleTranslationDiscarded | MRLabel.swift:159-166 | finger movement left over from one gesture does not move the label at the next gesture's first pan outside the zone |
| Gesture.NoTouchPanIsIgnored | MRLabel.swift:138-140 | a pan event with no active touch leaves the whole state unchanged |
| Gesture.ShrinkPastFloorScenario | MRLabel.swift:144-154 | a 100 by 80 label grabbed at (95, 75) and dragged by (-50, -50) in one event ends 50 by 30 |

## Left out

- UIKit and Core Animation objects are left out: `UIView`, `CAShapeLayer`, `UIBezierPath`, the gesture recognizer and `NSString.draw`. The model keeps only the numbers they are given; rendering is framework code.
- `draw(_:)` is modelled with the dirty rect equal to the full bounds, which is what a full redraw passes. Partial redraws are host behaviour.
- `bringSubview(toFront:)` (keeping the handle topmost) is view-hierarchy ordering and is not modelled.
- Redraw coalescing and clearing `needsDisplay` after a paint are host concerns. The model only raises the flag.
- The initialisers, `setup()`, the default style values and the force-unwrapped font load are framework lifecycle and are not modelled. `SetupHandle` models the geometric part of `setup()`.
- `@IBDesignable` and `@IBInspectable` are designer-tool wiring and are not modelled.
- Colours and fonts are opaque values: `Color` holds four reals and `Font` a name and a size.
- Floating point is modelled as `real`. No rounding, NaN or infinity is modelled.
- Negative sizes after an unclamped step are kept as plain numbers. The zone tests at MRLabel.swift:144 and 173 read the standardised width and height, and the model does the same (`Label.InZone`). The guards at 146 and 151 and the handle set-up read the signed size, and so does the model. How the framework lays out or draws a view of negative size is not modelled.
- `UIScreen.main.bounds` is the `Screen` parameter and is taken as constant.
- The pan recognizer is framework code. The model keeps two of its behaviours as events: it starts each recognized gesture with a zero translation (`Gesture.BeginPan`, `PanBegan`), and it adds finger movement to that translation (`Gesture.Accumulate`, `FingerMoved`). When and how often it fires is host behaviour, so the order of these events is left free.
- A frame set by the host, through layout or application code, is not an event of the model. The source does not re-anchor the handle then: `setupSizeHandleView` runs only from the accent-colour setter (MRLabel.swift:118) and from `setup()` (MRLabel.swift:191), and there is no `layoutSubviews` override. So the anchoring that `Gesture.Run` proves holds only for sequences of the model's events.
