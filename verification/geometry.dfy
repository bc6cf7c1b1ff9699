/** Fixed metrics of the label widget, points and rectangles over `real`, the
    bottom-right hit zone, and the three rectangles the drawing code derives
    from the view's bounds: the dashed border, the text box and the circle of
    the resize handle. All rectangles are in the label's own coordinate space,
    whose origin is the top-left corner of its bounds.
 */
module Geometry {

  /** Inset of the text box from the left and top edges. */
  const TEXT_MARGIN: real := 5.0
  /** Side of the square that holds the resize handle's circle. */
  const HANDLE_WIDTH: real := 20.0
  /** Width at or below which a resize step may no longer shrink the label. */
  const MIN_FRAME_WIDTH: real := 60.0
  /** Height at or below which a resize step may no longer shrink the label. */
  const MIN_FRAME_HEIGHT: real := 40.0
  /** Gap the resize guards keep between the label's size and the screen's. */
  const SCREEN_MARGIN: real := 20.0

  /** Corner radius of the dashed selection border. */
  const BORDER_CORNER_RADIUS: real := 3.0
  /** Dash pattern of the selection border: 4 units drawn, 2 units skipped. */
  const BORDER_DASH: seq<real> := [4.0, 2.0]

  datatype Point = Point(x: real, y: real)

  const ZeroPoint: Point := Point(0.0, 0.0)

  /** A rectangle given by its origin (top-left corner) and its size. */
  datatype Rect = Rect(x: real, y: real, width: real, height: real) {

    function MaxX(): real { x + width }

    function MaxY(): real { y + height }

    /** The width as the framework reports it: a rectangle is standardised
        before its width is read, so a negative stored width reads as its
        magnitude. */
    function StdWidth(): (r: real)
      ensures r >= 0.0 && (r == width || r == -width)
    {
      if width < 0.0 then -width else width
    }

    /** The height as the framework reports it, standardised like the width. */
    function StdHeight(): (r: real)
      ensures r >= 0.0 && (r == height || r == -height)
    {
      if height < 0.0 then -height else height
    }

    /** `other` lies within this rectangle, edges included. */
    predicate ContainsRect(other: Rect) {
      x <= other.x && y <= other.y && other.MaxX() <= MaxX() && other.MaxY() <= MaxY()
    }

    /** `p` lies within this rectangle, edges included. */
    predicate Contains(p: Point) {
      x <= p.x <= MaxX() && y <= p.y <= MaxY()
    }

    /** `p` lies strictly inside this rectangle. */
    predicate InteriorContains(p: Point) {
      x < p.x < MaxX() && y < p.y < MaxY()
    }
  }

  /** The bounds of a view of size `w` by `h`, in its own coordinates. */
  function Bounds(w: real, h: real): (r: Rect)
    ensures r.x == 0.0 && r.y == 0.0 && r.MaxX() == w && r.MaxY() == h
  {
    Rect(0.0, 0.0, w, h)
  }

  /** The bottom-right square where a touch means "resize": twice the
      handle's size on each side, both comparisons strict. */
  predicate InHandleZone(w: real, h: real, p: Point) {
    p.x > w - HANDLE_WIDTH * 2.0 && p.y > h - HANDLE_WIDTH * 2.0
  }

  /** The handle's circle as laid out for bounds of size `w` by `h`: a square
      of side HANDLE_WIDTH flush with the bottom-right corner. */
  function HandleCircleRect(w: real, h: real): (r: Rect)
    ensures r.MaxX() == w && r.MaxY() == h
    ensures r.width == HANDLE_WIDTH && r.height == HANDLE_WIDTH
  {
    Rect(w - HANDLE_WIDTH, h - HANDLE_WIDTH, HANDLE_WIDTH, HANDLE_WIDTH)
  }

  /** The centre of the handle's circle for bounds of size `w` by `h`. */
  function HandleCentre(w: real, h: real): (c: Point)
    ensures HandleCircleRect(w, h).InteriorContains(c)
    ensures c.x - HandleCircleRect(w, h).x == HandleCircleRect(w, h).MaxX() - c.x
    ensures c.y - HandleCircleRect(w, h).y == HandleCircleRect(w, h).MaxY() - c.y
  {
    Point(w - HANDLE_WIDTH / 2.0, h - HANDLE_WIDTH / 2.0)
  }

  /** The dashed border: anchored at the origin and pulled in on the right and
      bottom so that its far corner sits under the handle's centre. */
  function BorderRect(w: real, h: real): (r: Rect)
    ensures r.x == 0.0 && r.y == 0.0
    ensures Point(r.MaxX(), r.MaxY()) == HandleCentre(w, h)
  {
    Rect(0.0, 0.0, w - HANDLE_WIDTH / 2.0, h - HANDLE_WIDTH / 2.0)
  }

  /** The box the text is drawn into: inset by TEXT_MARGIN from the left and
      top, ending on the right where the handle's column begins and at the
      bottom on the border's bottom edge. */
  function TextRect(w: real, h: real): (r: Rect)
    ensures r.x == TEXT_MARGIN && r.y == TEXT_MARGIN
    ensures r.MaxX() == HandleCircleRect(w, h).x
    ensures r.MaxY() == BorderRect(w, h).MaxY()
  {
    Rect(TEXT_MARGIN, TEXT_MARGIN, w - HANDLE_WIDTH - TEXT_MARGIN, h - HANDLE_WIDTH / 2.0 - TEXT_MARGIN)
  }

  /** The text box lies within the dashed border for every size. */
  lemma TextInsideBorder(w: real, h: real)
    ensures BorderRect(w, h).ContainsRect(TextRect(w, h))
  {
  }

  /** No point lies strictly inside both the text box and the handle's circle:
      the text never runs under the handle. */
  lemma TextClearOfHandle(w: real, h: real, p: Point)
    ensures !(TextRect(w, h).InteriorContains(p) && HandleCircleRect(w, h).InteriorContains(p))
  {
  }

  /** Every point of the handle's circle, edges included, is in the hit zone;
      the zone is strictly larger than the circle. */
  lemma HandleInsideZone(w: real, h: real, p: Point)
    ensures HandleCircleRect(w, h).Contains(p) ==> InHandleZone(w, h, p)
    ensures InHandleZone(w, h, Point(w - HANDLE_WIDTH * 1.5, h - HANDLE_WIDTH * 1.5))
    ensures !HandleCircleRect(w, h).Contains(Point(w - HANDLE_WIDTH * 1.5, h - HANDLE_WIDTH * 1.5))
  {
  }

  /** The zone test is strict: the zone's own top-left corner, and any point on
      its left or top edge, is a "move" touch. */
  lemma ZoneEdgesExcluded(w: real, h: real, t: real)
    ensures !InHandleZone(w, h, Point(w - 2.0 * HANDLE_WIDTH, t))
    ensures !InHandleZone(w, h, Point(t, h - 2.0 * HANDLE_WIDTH))
    ensures InHandleZone(w, h, Point(w - 1.0, h - 1.0))
  {
  }
}
