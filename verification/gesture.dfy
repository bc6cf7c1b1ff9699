/** The label driven by a stream of events: the callbacks of the label
    itself (touch-down, touch-end, pan, style setters) and two things the
    host's pan recognizer does on its own: it starts each recognized
    gesture with a zero translation, and it accumulates finger movement into
    that translation between pan events.
 */
module Gesture {
  import opened Geometry
  import opened Label

  datatype Event =
    | TouchDown(first: Option<Point>)
    | TouchUp
    | PanBegan
    | FingerMoved(dx: real, dy: real)
    | PanFired(touches: int, location: Point)
    | StyleSet(edit: StyleEdit)

  /** The recognizer adds finger movement to its pending translation. */
  function Accumulate(s: State, dx: real, dy: real): (r: State)
    ensures r.translation.x - s.translation.x == dx && r.translation.y - s.translation.y == dy
    ensures r.(translation := s.translation) == s
  {
    s.(translation := Point(s.translation.x + dx, s.translation.y + dy))
  }

  /** The recognizer begins a new gesture: its translation starts at zero. */
  function BeginPan(s: State): (r: State)
    ensures r.translation == ZeroPoint
    ensures r.(translation := s.translation) == s
  {
    s.(translation := ZeroPoint)
  }

  /** The label's response to one event. */
  function Step(s: State, screen: Screen, e: Event): (r: State)
    ensures HandleAnchored(s) ==> HandleAnchored(r)
    ensures !e.StyleSet? ==> r.style == s.style
    ensures e.TouchUp? ==> !r.isResizing
  {
    match e
    case TouchDown(first) => TouchesBegan(s, first)
    case TouchUp => TouchesEnded(s)
    case PanBegan => BeginPan(s)
    case FingerMoved(dx, dy) => Accumulate(s, dx, dy)
    case PanFired(touches, location) => PanHandler(s, screen, touches, location)
    case StyleSet(edit) => Restyle(s, edit)
  }

  /** The state after a sequence of events, the first applied first. Every
      event keeps the handle's circle flush with the label's corner. */
  function Run(s: State, screen: Screen, events: seq<Event>): (r: State)
    ensures HandleAnchored(s) ==> HandleAnchored(r)
    decreases |events|
  {
    if |events| == 0 then s else Run(Step(s, screen, events[0]), screen, events[1..])
  }

  /** An event that neither resizes nor restyles the label given its frame:
      finger movement, or a pan whose location is outside the hit zone. */
  predicate OutsideZone(e: Event, frame: Rect) {
    e.FingerMoved? || (e.PanFired? && !InZone(frame, e.location))
  }

  /** Total horizontal finger movement in a sequence of events. */
  function SumDx(events: seq<Event>): real
    decreases |events|
  {
    if |events| == 0 then 0.0
    else (if events[0].FingerMoved? then events[0].dx else 0.0) + SumDx(events[1..])
  }

  /** Total vertical finger movement in a sequence of events. */
  function SumDy(events: seq<Event>): real
    decreases |events|
  {
    if |events| == 0 then 0.0
    else (if events[0].FingerMoved? then events[0].dy else 0.0) + SumDy(events[1..])
  }

  /** A resize gesture whose finger leaves the zone is inert: while every
      pan lands outside the zone, the frame and the handle stay put and
      resize mode stays latched. */
  lemma {:induction false} EscapedResizeIsInert(s: State, screen: Screen, events: seq<Event>)
    requires s.isResizing
    requires forall i :: 0 <= i < |events| ==> OutsideZone(events[i], s.frame)
    ensures Run(s, screen, events).frame == s.frame
    ensures Run(s, screen, events).handle == s.handle
    ensures Run(s, screen, events).isResizing
    decreases |events|
  {
    if |events| > 0 {
      var s' := Step(s, screen, events[0]);
      assert s'.frame == s.frame && s'.handle == s.handle && s'.isResizing;
      forall i | 0 <= i < |events[1..]|
        ensures OutsideZone(events[1..][i], s'.frame)
      {
        assert events[1..][i] == events[i + 1];
      }
      EscapedResizeIsInert(s', screen, events[1..]);
    }
  }

  /** In move mode the label follows the finger: while every pan lands
      outside the zone, the origin plus the pending translation advances by
      exactly the finger's total movement, and size and handle stay put. */
  lemma {:induction false} MoveFollowsFinger(s: State, screen: Screen, events: seq<Event>)
    requires !s.isResizing
    requires forall i :: 0 <= i < |events| ==> OutsideZone(events[i], s.frame)
    ensures Run(s, screen, events).frame.x + Run(s, screen, events).translation.x
            == s.frame.x + s.translation.x + SumDx(events)
    ensures Run(s, screen, events).frame.y + Run(s, screen, events).translation.y
            == s.frame.y + s.translation.y + SumDy(events)
    ensures Run(s, screen, events).frame.width == s.frame.width
    ensures Run(s, screen, events).frame.height == s.frame.height
    ensures Run(s, screen, events).handle == s.handle
    decreases |events|
  {
    if |events| > 0 {
      var s' := Step(s, screen, events[0]);
      assert s'.frame.width == s.frame.width && s'.frame.height == s.frame.height;
      assert !s'.isResizing;
      forall i | 0 <= i < |events[1..]|
        ensures OutsideZone(events[1..][i], s'.frame)
      {
        assert events[1..][i] == events[i + 1];
      }
      MoveFollowsFinger(s', screen, events[1..]);
    }
  }

  /** Once the height has reached the screen-derived ceiling it never
      decreases again: at the ceiling the height guard passes only growth. */
  lemma {:induction false} HeightCeilingTrap(s: State, screen: Screen, events: seq<Event>)
    requires s.frame.height >= screen.height - SCREEN_MARGIN
    ensures Run(s, screen, events).frame.height >= s.frame.height
    decreases |events|
  {
    if |events| > 0 {
      var s' := Step(s, screen, events[0]);
      assert s'.frame.height >= s.frame.height;
      HeightCeilingTrap(s', screen, events[1..]);
    }
  }

  /** Touch-up then touch-down classifies afresh: the mode after the new
      touch depends only on where it lands, never on the previous gesture. */
  lemma GestureReset(s: State, screen: Screen, p: Point)
    ensures Run(s, screen, [TouchUp, TouchDown(Some(p))]).isResizing
            <==> p.x > s.frame.StdWidth() - 40.0 && p.y > s.frame.StdHeight() - 40.0
    ensures Run(s, screen, [TouchUp, TouchDown(Some(p))]).frame == s.frame
  {
    var es := [TouchUp, TouchDown(Some(p))];
    var s1 := Step(s, screen, es[0]);
    var s2 := Step(s1, screen, es[1]);
    assert es[1..][1..] == [];
    assert Run(s, screen, es) == Run(s1, screen, es[1..]) == Run(s2, screen, es[1..][1..]) == s2;
  }

  /** Translation left unconsumed by one gesture does not leak into the
      next: once the recognizer begins the new gesture, a first pan outside
      the zone moves the label by nothing, whatever finger movement
      preceded the touch-up. */
  lemma StaleTranslationDiscarded(s: State, screen: Screen, dx: real, dy: real, p: Point)
    requires !InZone(s.frame, p)
    ensures Run(s, screen, [FingerMoved(dx, dy), TouchUp, TouchDown(Some(p)), PanBegan, PanFired(1, p)]).frame
            == s.frame
  {
    var es := [FingerMoved(dx, dy), TouchUp, TouchDown(Some(p)), PanBegan, PanFired(1, p)];
    var s1 := Step(s, screen, es[0]);
    var s2 := Step(s1, screen, es[1]);
    var s3 := Step(s2, screen, es[2]);
    var s4 := Step(s3, screen, es[3]);
    var s5 := Step(s4, screen, es[4]);
    assert s4.translation == ZeroPoint && s4.frame == s.frame;
    assert es[1..][1..][1..][1..][1..] == [];
    assert Run(s, screen, es) == Run(s1, screen, es[1..]) == Run(s2, screen, es[1..][1..]);
    assert Run(s2, screen, es[1..][1..]) == Run(s3, screen, es[1..][1..][1..]);
    assert Run(s3, screen, es[1..][1..][1..]) == Run(s4, screen, es[1..][1..][1..][1..]);
    assert Run(s4, screen, es[1..][1..][1..][1..]) == Run(s5, screen, []) == s5;
  }

  /** A pan event with no active touch changes nothing at all. */
  lemma NoTouchPanIsIgnored(s: State, screen: Screen, location: Point, touches: int)
    requires touches <= 0
    ensures Step(s, screen, PanFired(touches, location)) == s
  {
  }

  /** A 100 by 80 label grabbed at (95, 75) and dragged by (-50, -50) in one
      event ends 50 by 30: below both minimums, since the guards look only
      at the size before the step. */
  lemma ShrinkPastFloorScenario(s: State, screen: Screen)
    requires s.frame.width == 100.0 && s.frame.height == 80.0
    requires s.translation == ZeroPoint
    requires screen.width > 120.0 && screen.height > 100.0
    ensures Run(s, screen, [TouchDown(Some(Point(95.0, 75.0))), FingerMoved(-50.0, -50.0),
                            PanFired(1, Point(95.0, 75.0))]).frame.width == 50.0
    ensures Run(s, screen, [TouchDown(Some(Point(95.0, 75.0))), FingerMoved(-50.0, -50.0),
                            PanFired(1, Point(95.0, 75.0))]).frame.height == 30.0
  {
    var es := [TouchDown(Some(Point(95.0, 75.0))), FingerMoved(-50.0, -50.0), PanFired(1, Point(95.0, 75.0))];
    var s1 := Step(s, screen, es[0]);
    assert s1.isResizing;
    var s2 := Step(s1, screen, es[1]);
    var s3 := Step(s2, screen, es[2]);
    assert es[1..][1..][1..] == [];
    assert Run(s, screen, es) == Run(s1, screen, es[1..]) == Run(s2, screen, es[1..][1..]);
    assert Run(s2, screen, es[1..][1..]) == Run(s3, screen, []) == s3;
  }
}
