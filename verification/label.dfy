/** The movable, resizable label widget as an immutable state record and one
    pure function per callback: touch-down, touch-end, a pan-gesture event,
    the style setters, the handle set-up and the drawing pass. The host's
    screen size is a parameter; drawing produces the numbers the framework's
    layers are given, not pixels.
 */
module Label {
  import opened Geometry

  datatype Option<T> = None | Some(value: T)

  datatype Color = Color(red: real, green: real, blue: real, alpha: real)

  datatype Font = Font(name: string, size: real)

  /** The presentational properties a host may set at any time. */
  datatype Style = Style(
    text: string,
    color: Color,
    stroke: Color,
    strokeWidth: real,
    font: Font,
    widgetColor: Color)

  /** The main screen's size, which bounds resizing. */
  datatype Screen = Screen(width: real, height: real)

  /** The resize handle's subview: `center` is the subview's centre in the
      label's coordinates (its frame is one handle square, so the centre
      starts at half a handle from the origin), and `circle` is where the
      circle was drawn inside the subview when it was set up. */
  datatype HandleView = HandleView(center: Point, circle: Rect)

  /** Everything the gesture logic reads or writes. `frame` is the label's
      frame in its superview; `translation` is the pan recognizer's pending
      translation, not yet consumed by the pan handler. */
  datatype State = State(
    frame: Rect,
    handle: HandleView,
    isResizing: bool,
    translation: Point,
    needsDisplay: bool,
    style: Style)

  /** Where the handle's circle appears in the label's own coordinates: the
      subview's origin (centre minus half a handle) offset by the circle's
      position inside the subview. */
  function HandleOnLabel(v: HandleView): (r: Rect)
    ensures r.width == v.circle.width && r.height == v.circle.height
    ensures r.x - v.circle.x == v.center.x - HANDLE_WIDTH / 2.0
    ensures r.y - v.circle.y == v.center.y - HANDLE_WIDTH / 2.0
    ensures v.center == Point(HANDLE_WIDTH / 2.0, HANDLE_WIDTH / 2.0) ==> r == v.circle
  {
    Rect(v.center.x - HANDLE_WIDTH / 2.0 + v.circle.x,
         v.center.y - HANDLE_WIDTH / 2.0 + v.circle.y,
         v.circle.width, v.circle.height)
  }

  /** Moving the subview's centre by (dx, dy) moves the circle shown in the
      label by exactly (dx, dy), at the same size. */
  lemma HandleFollowsCentre(v: HandleView, dx: real, dy: real)
    ensures var moved := HandleOnLabel(v.(center := Point(v.center.x + dx, v.center.y + dy)));
            && moved.x == HandleOnLabel(v).x + dx && moved.y == HandleOnLabel(v).y + dy
            && moved.width == HandleOnLabel(v).width && moved.height == HandleOnLabel(v).height
  {
  }

  /** The handle's circle sits flush in the label's bottom-right corner. */
  predicate HandleAnchored(s: State) {
    HandleOnLabel(s.handle) == HandleCircleRect(s.frame.width, s.frame.height)
  }

  // ---------------------------------------------------------------------
  // Handle set-up

  /** Replaces the handle subview with a fresh one whose frame is the square
      at the origin and whose circle is laid out for the current size. */
  function SetupHandle(s: State): (r: State)
    ensures r.frame == s.frame && r.isResizing == s.isResizing && r.style == s.style
    ensures r.translation == s.translation && r.needsDisplay == s.needsDisplay
    ensures HandleAnchored(r)
    ensures Rect(r.handle.center.x - HANDLE_WIDTH / 2.0, r.handle.center.y - HANDLE_WIDTH / 2.0,
                 HANDLE_WIDTH, HANDLE_WIDTH) == Rect(0.0, 0.0, HANDLE_WIDTH, HANDLE_WIDTH)
  {
    s.(handle := HandleView(Point(HANDLE_WIDTH / 2.0, HANDLE_WIDTH / 2.0),
                            HandleCircleRect(s.frame.width, s.frame.height)))
  }

  // ---------------------------------------------------------------------
  // Touches

  /** The resize zone as the callbacks test it: they read the frame's
      width and height, which the framework standardises. */
  predicate InZone(frame: Rect, p: Point) {
    InHandleZone(frame.StdWidth(), frame.StdHeight(), p)
  }

  /** For a frame of non-negative size the zone is the one laid out in the
      bounds; once a step has driven the width negative, the zone is taken
      from its magnitude instead of the signed width the guards read. */
  lemma ZoneUsesStandardisedSize(frame: Rect, p: Point)
    ensures frame.width >= 0.0 && frame.height >= 0.0 ==>
              (InZone(frame, p) <==> InHandleZone(frame.width, frame.height, p))
    ensures frame.width < 0.0 ==>
              (InZone(frame, p) <==> p.x > -frame.width - 40.0 && p.y > frame.StdHeight() - 40.0)
  {
  }

  /** A new touch sequence: the first touch, if there is one, latches resize
      mode exactly when it falls in the bottom-right zone, and move mode
      otherwise. With no touch nothing happens. */
  function TouchesBegan(s: State, first: Option<Point>): (r: State)
    ensures first.None? ==> r == s
    ensures first.Some? ==>
              (r.isResizing <==> first.value.x > s.frame.StdWidth() - 40.0 && first.value.y > s.frame.StdHeight() - 40.0)
    ensures r.frame == s.frame && r.handle == s.handle && r.style == s.style
    ensures r.translation == s.translation && r.needsDisplay == s.needsDisplay
  {
    match first
    case None => s
    case Some(p) => s.(isResizing := InZone(s.frame, p))
  }

  /** The end of a touch sequence clears resize mode, whatever it was. */
  function TouchesEnded(s: State): (r: State)
    ensures !r.isResizing
    ensures r.(isResizing := s.isResizing) == s
  {
    s.(isResizing := false)
  }

  // ---------------------------------------------------------------------
  // Pan gesture

  /** The width guard of a resize step: shrinking needs the width above the
      minimum, growing needs it below the screen-derived ceiling. */
  predicate WidthGuard(w: real, tx: real, screenWidth: real) {
    (w > MIN_FRAME_WIDTH || tx > 0.0) && (w < screenWidth - SCREEN_MARGIN || tx < 0.0)
  }

  /** The height guard of a resize step, shaped differently from the width
      guard: any growth passes, and a shrink passes only while the height is
      strictly between the minimum and the ceiling. */
  predicate HeightGuard(h: real, ty: real, screenHeight: real) {
    (h > MIN_FRAME_HEIGHT && h < screenHeight - SCREEN_MARGIN) || ty > 0.0
  }

  /** The width guard refuses a step exactly when it pushes further past a
      bound the width has already reached. */
  lemma WidthGuardRefusals(w: real, tx: real, screenWidth: real)
    ensures !WidthGuard(w, tx, screenWidth) <==>
              (w <= MIN_FRAME_WIDTH && tx <= 0.0) || (w >= screenWidth - SCREEN_MARGIN && tx >= 0.0)
  {
  }

  /** The height guard refuses a step exactly when it does not grow and the
      height is at or past either bound. */
  lemma HeightGuardRefusals(h: real, ty: real, screenHeight: real)
    ensures !HeightGuard(h, ty, screenHeight) <==>
              ty <= 0.0 && (h <= MIN_FRAME_HEIGHT || h >= screenHeight - SCREEN_MARGIN)
  {
  }

  /** The width after one resize step: the whole delta or nothing; the guard
      is checked before the step and the result is never clamped. */
  function ResizeWidth(w: real, tx: real, screenWidth: real): (r: real)
    ensures r == w || r == w + tx
    ensures tx != 0.0 ==> (r != w <==> WidthGuard(w, tx, screenWidth))
  {
    if WidthGuard(w, tx, screenWidth) then w + tx else w
  }

  /** The height after one resize step: the whole delta or nothing. */
  function ResizeHeight(h: real, ty: real, screenHeight: real): (r: real)
    ensures r == h || r == h + ty
    ensures ty != 0.0 ==> (r != h <==> HeightGuard(h, ty, screenHeight))
  {
    if HeightGuard(h, ty, screenHeight) then h + ty else h
  }

  /** At exactly the minimum width a shrink is refused and a growth accepted. */
  lemma FloorBoundary(screen: Screen)
    requires screen.width > 100.0
    ensures ResizeWidth(MIN_FRAME_WIDTH, -5.0, screen.width) == MIN_FRAME_WIDTH
    ensures ResizeWidth(MIN_FRAME_WIDTH, 5.0, screen.width) == 65.0
  {
  }

  /** At exactly the ceiling a growth is refused and a shrink accepted. */
  lemma CeilingBoundary(screen: Screen)
    requires screen.width > 100.0
    ensures ResizeWidth(screen.width - SCREEN_MARGIN, 5.0, screen.width) == screen.width - SCREEN_MARGIN
    ensures ResizeWidth(screen.width - SCREEN_MARGIN, -5.0, screen.width) == screen.width - 25.0
  {
  }

  /** One large step can land below the minimum: the guard looks only at the
      width before the step. */
  lemma SingleStepCanUndershoot(screen: Screen)
    requires screen.width > 120.0
    ensures ResizeWidth(100.0, -50.0, screen.width) == 50.0
    ensures ResizeWidth(100.0, -50.0, screen.width) < MIN_FRAME_WIDTH
  {
  }

  /** At the ceiling, width and height disagree: the width refuses to grow,
      the height grows; the width may shrink back, the height may not. */
  lemma GuardAsymmetry(screen: Screen, d: real)
    requires d > 0.0
    ensures ResizeWidth(screen.width - SCREEN_MARGIN, d, screen.width) == screen.width - SCREEN_MARGIN
    ensures ResizeHeight(screen.height - SCREEN_MARGIN, d, screen.height) == screen.height - SCREEN_MARGIN + d
    ensures screen.width - SCREEN_MARGIN > MIN_FRAME_WIDTH ==>
              ResizeWidth(screen.width - SCREEN_MARGIN, -d, screen.width) == screen.width - SCREEN_MARGIN - d
    ensures ResizeHeight(screen.height - SCREEN_MARGIN, -d, screen.height) == screen.height - SCREEN_MARGIN
  {
  }

  /** A resize step: apply the guarded deltas to the size, move the handle's
      centre by the same accepted deltas, consume the translation and ask
      for a redraw. */
  function ResizeStep(s: State, screen: Screen): (r: State)
    ensures r.frame.x == s.frame.x && r.frame.y == s.frame.y
    ensures r.frame.width == ResizeWidth(s.frame.width, s.translation.x, screen.width)
    ensures r.frame.height == ResizeHeight(s.frame.height, s.translation.y, screen.height)
    ensures r.translation == ZeroPoint && r.needsDisplay
    ensures r.isResizing == s.isResizing && r.style == s.style && r.handle.circle == s.handle.circle
    ensures r.handle.center.x - r.frame.width == s.handle.center.x - s.frame.width
    ensures r.handle.center.y - r.frame.height == s.handle.center.y - s.frame.height
  {
    var w' := ResizeWidth(s.frame.width, s.translation.x, screen.width);
    var h' := ResizeHeight(s.frame.height, s.translation.y, screen.height);
    s.(frame := s.frame.(width := w', height := h'),
       handle := s.handle.(center := Point(s.handle.center.x + (w' - s.frame.width),
                                           s.handle.center.y + (h' - s.frame.height))),
       translation := ZeroPoint,
       needsDisplay := true)
  }

  /** A move step: unless resize mode is latched, shift the frame's origin
      (equivalently its centre) by the translation, with no bound; either
      way consume the translation. */
  function MoveStep(s: State): (r: State)
    ensures r.frame.width == s.frame.width && r.frame.height == s.frame.height
    ensures r.handle == s.handle && r.needsDisplay == s.needsDisplay
    ensures !s.isResizing ==> r.frame.x == s.frame.x + s.translation.x && r.frame.y == s.frame.y + s.translation.y
    ensures s.isResizing ==> r.frame == s.frame
    ensures r.translation == ZeroPoint
    ensures r.isResizing == s.isResizing && r.style == s.style
  {
    if !s.isResizing then
      s.(frame := s.frame.(x := s.frame.x + s.translation.x, y := s.frame.y + s.translation.y),
         translation := ZeroPoint)
    else
      s.(translation := ZeroPoint)
  }

  /** One pan-gesture event with `touches` active touches, the first at
      `location`. The choice between resizing and moving is made from this
      event's location, not from the latched `isResizing`, which only
      blocks moving. */
  function PanHandler(s: State, screen: Screen, touches: int, location: Point): (r: State)
    ensures touches <= 0 ==> r == s
    ensures touches > 0 ==>
              && r.translation == ZeroPoint
              && r.isResizing == s.isResizing
              && r.style == s.style
              && r.handle.circle == s.handle.circle
    // resize branch
    ensures touches > 0 && InZone(s.frame, location) ==>
              && r.frame.x == s.frame.x && r.frame.y == s.frame.y
              && (WidthGuard(s.frame.width, s.translation.x, screen.width) ==>
                    r.frame.width == s.frame.width + s.translation.x)
              && (!WidthGuard(s.frame.width, s.translation.x, screen.width) ==>
                    r.frame.width == s.frame.width)
              && (HeightGuard(s.frame.height, s.translation.y, screen.height) ==>
                    r.frame.height == s.frame.height + s.translation.y)
              && (!HeightGuard(s.frame.height, s.translation.y, screen.height) ==>
                    r.frame.height == s.frame.height)
              && r.handle.center.x - s.handle.center.x == r.frame.width - s.frame.width
              && r.handle.center.y - s.handle.center.y == r.frame.height - s.frame.height
              && r.needsDisplay
    // move branch
    ensures touches > 0 && !InZone(s.frame, location) ==>
              && r.frame.width == s.frame.width && r.frame.height == s.frame.height
              && r.handle == s.handle
              && r.needsDisplay == s.needsDisplay
              && (!s.isResizing ==>
                    r.frame.x == s.frame.x + s.translation.x && r.frame.y == s.frame.y + s.translation.y)
              && (s.isResizing ==> r.frame == s.frame)
  {
    if touches <= 0 then s
    else if InZone(s.frame, location) then ResizeStep(s, screen)
    else MoveStep(s)
  }

  /** Every pan event keeps the handle's circle flush with the corner. */
  lemma PanKeepsHandleAnchored(s: State, screen: Screen, touches: int, location: Point)
    requires HandleAnchored(s)
    ensures HandleAnchored(PanHandler(s, screen, touches, location))
  {
  }

  /** A second identical pan event right after the first changes nothing:
      the first consumed the translation, so the second applies zero deltas,
      whichever branch its location now selects. */
  lemma PanIdempotent(s: State, screen: Screen, touches: int, location: Point)
    ensures PanHandler(PanHandler(s, screen, touches, location), screen, touches, location)
            == PanHandler(s, screen, touches, location)
  {
  }

  /** A move gesture whose finger wanders into the zone resizes anyway: the
      latched move mode does not block the resize branch. */
  lemma MoveModeCanResize(s: State, screen: Screen, touches: int, location: Point)
    requires !s.isResizing && touches > 0
    requires InZone(s.frame, location)
    requires s.translation.x != 0.0 && WidthGuard(s.frame.width, s.translation.x, screen.width)
    ensures PanHandler(s, screen, touches, location).frame.width != s.frame.width
  {
  }

  /** A resize gesture whose finger leaves the zone neither moves nor
      resizes the label on that event. */
  lemma ResizeModeOutsideZoneIsInert(s: State, screen: Screen, touches: int, location: Point)
    requires s.isResizing
    requires !InZone(s.frame, location)
    ensures PanHandler(s, screen, touches, location).frame == s.frame
    ensures PanHandler(s, screen, touches, location).handle == s.handle
  {
  }

  // ---------------------------------------------------------------------
  // Style setters

  /** One assignment to a presentational property. */
  datatype StyleEdit =
    | SetText(text: string)
    | SetColor(color: Color)
    | SetStroke(stroke: Color)
    | SetStrokeWidth(strokeWidth: real)
    | SetFont(font: Font)
    | SetWidgetColor(widgetColor: Color)

  /** The style with the one edited property replaced. */
  function ApplyEdit(st: Style, e: StyleEdit): (r: Style)
    ensures e.SetText? ==> r == st.(text := e.text)
    ensures e.SetColor? ==> r == st.(color := e.color)
    ensures e.SetStroke? ==> r == st.(stroke := e.stroke)
    ensures e.SetStrokeWidth? ==> r == st.(strokeWidth := e.strokeWidth)
    ensures e.SetFont? ==> r == st.(font := e.font)
    ensures e.SetWidgetColor? ==> r == st.(widgetColor := e.widgetColor)
  {
    match e
    case SetText(t) => st.(text := t)
    case SetColor(c) => st.(color := c)
    case SetStroke(c) => st.(stroke := c)
    case SetStrokeWidth(w) => st.(strokeWidth := w)
    case SetFont(f) => st.(font := f)
    case SetWidgetColor(c) => st.(widgetColor := c)
  }

  /** A style setter: store the value and ask for a redraw; the accent
      colour's setter also rebuilds the handle subview. Geometry and mode
      are untouched. */
  function Restyle(s: State, e: StyleEdit): (r: State)
    ensures r.style == ApplyEdit(s.style, e)
    ensures r.needsDisplay
    ensures r.frame == s.frame && r.isResizing == s.isResizing && r.translation == s.translation
    ensures !e.SetWidgetColor? ==> r.handle == s.handle
    ensures e.SetWidgetColor? ==> HandleAnchored(r)
  {
    var s' := if e.SetWidgetColor? then SetupHandle(s) else s;
    s'.(style := ApplyEdit(s.style, e), needsDisplay := true)
  }

  // ---------------------------------------------------------------------
  // Drawing

  datatype Alignment = Natural | Left | Center | Right | Justified

  /** The attributes the text is drawn with. */
  datatype TextAttributes = TextAttributes(
    strokeWidth: real,
    strokeColor: Color,
    foreground: Color,
    alignment: Alignment,
    lineSpacing: real,
    obliqueness: real,
    font: Font)

  /** The dashed border layer: a rounded rectangle path and its paint. */
  datatype BorderLayer = BorderLayer(
    path: Rect,
    cornerRadius: real,
    dash: seq<real>,
    strokeColor: Color,
    fillColor: Color)

  /** What one drawing pass hands to the framework. */
  datatype Drawing = Drawing(
    border: BorderLayer,
    text: string,
    textRect: Rect,
    attributes: TextAttributes)

  /** The transparent fill of the border layer. */
  const Clear: Color := Color(0.0, 0.0, 0.0, 0.0)

  /** The stroke-width attribute for a configured stroke width. The text
      attribute convention reads a negative width as "stroke and fill", so
      a positive configured width outlines filled glyphs. */
  function TextStrokeAttribute(strokeWidth: real): (a: real)
    ensures strokeWidth > 0.0 ==> a < 0.0
    ensures a + strokeWidth == 0.0
  {
    strokeWidth * -1.0
  }

  /** One drawing pass over the whole bounds: a fresh border layer and the
      text laid out in its box. */
  function Render(s: State): (d: Drawing)
    ensures d.border.path == BorderRect(s.frame.width, s.frame.height)
    ensures d.border.cornerRadius == 3.0 && d.border.dash == [4.0, 2.0]
    ensures d.border.strokeColor == s.style.widgetColor && d.border.fillColor.alpha == 0.0
    ensures d.text == s.style.text
    ensures d.textRect == TextRect(s.frame.width, s.frame.height)
    ensures d.attributes.strokeWidth == -s.style.strokeWidth
    ensures d.attributes.strokeColor == s.style.stroke && d.attributes.foreground == s.style.color
    ensures d.attributes.font == s.style.font
    ensures d.attributes.alignment == Center && d.attributes.lineSpacing == 0.0
  {
    var bounds := Bounds(s.frame.width, s.frame.height);
    Drawing(
      BorderLayer(BorderRect(bounds.width, bounds.height), BORDER_CORNER_RADIUS, BORDER_DASH,
                  s.style.widgetColor, Clear),
      s.style.text,
      TextRect(bounds.width, bounds.height),
      TextAttributes(TextStrokeAttribute(s.style.strokeWidth), s.style.stroke, s.style.color,
                     Center, 0.0, 0.0, s.style.font))
  }

  /** What is drawn depends only on the label's size and style: where the
      label sits, the gesture mode, the handle and the pending translation
      play no part. */
  lemma RenderDependsOnSizeAndStyle(s1: State, s2: State)
    requires s1.frame.width == s2.frame.width && s1.frame.height == s2.frame.height
    requires s1.style == s2.style
    ensures Render(s1) == Render(s2)
  {
  }

  /** Moving the label never changes what it draws. */
  lemma MoveKeepsDrawing(s: State, screen: Screen, touches: int, location: Point)
    requires !InZone(s.frame, location)
    ensures Render(PanHandler(s, screen, touches, location)) == Render(s)
  {
  }

  /** With the handle anchored, the drawn text stays clear of the handle's
      circle and the border's far corner sits under the circle's centre. */
  lemma DrawingRespectsHandle(s: State, p: Point)
    requires HandleAnchored(s)
    ensures !(Render(s).textRect.InteriorContains(p) && HandleOnLabel(s.handle).InteriorContains(p))
    ensures Render(s).border.path.MaxX() == HandleOnLabel(s.handle).x + HANDLE_WIDTH / 2.0
    ensures Render(s).border.path.MaxY() == HandleOnLabel(s.handle).y + HANDLE_WIDTH / 2.0
  {
    TextClearOfHandle(s.frame.width, s.frame.height, p);
  }
}
