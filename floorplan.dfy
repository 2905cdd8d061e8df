/**
 * The floor-plan viewer of the product page: zoom buttons, mouse-drag and
 * one-finger panning, two-finger pinch zoom, and a reset when the image
 * changes. The scale stays within [1, 4]; panning only starts when zoomed in.
 * Touch-point distances (`Math.hypot` in the component) are inputs here.
 */
module FloorPlan {
  import opened JsMath

  const MinScale: real := 1.0
  const MaxScale: real := 4.0
  /** How much one press of a zoom button changes the scale. */
  const ZoomStep: real := 0.5

  datatype Point = Point(x: real, y: real)

  const Origin: Point := Point(0.0, 0.0)

  /** The gesture record the component keeps in a ref. */
  datatype Interaction = Interaction(
    isDragging: bool,
    startX: real,
    startY: real,
    startTranslateX: real,
    startTranslateY: real,
    startScale: real,
    initialDistance: real)

  /** Everything the viewer's handlers read and write. */
  datatype ViewState = ViewState(scale: real, translate: Point, interaction: Interaction)

  function Initial(): ViewState {
    ViewState(MinScale, Origin, Interaction(false, 0.0, 0.0, 0.0, 0.0, 1.0, 0.0))
  }

  /** The invariant the viewer keeps: the scale is within its bounds. */
  predicate Valid(s: ViewState) {
    MinScale <= s.scale <= MaxScale
  }

  /** Reaching scale 1 puts the image back in place; otherwise the translate is kept. */
  function TranslateAt(newScale: real, translate: Point): Point {
    if newScale == MinScale then Origin else translate
  }

  /** The effect that runs when the image changes: scale and translate go back to their defaults. */
  function ImageChanged(s: ViewState): ViewState {
    s.(scale := MinScale, translate := Origin)
  }

  function ZoomedIn(s: ViewState): ViewState {
    s.(scale := Min(s.scale + ZoomStep, MaxScale))
  }

  function ZoomedOut(s: ViewState): ViewState {
    var newScale := Max(s.scale - ZoomStep, MinScale);
    s.(scale := newScale, translate := TranslateAt(newScale, s.translate))
  }

  /** Start a pan at pointer `p`, with the current translate as the baseline. */
  function BeginPan(s: ViewState, p: Point): ViewState {
    s.(interaction := s.interaction.(
      isDragging := true,
      startX := p.x,
      startY := p.y,
      startTranslateX := s.translate.x,
      startTranslateY := s.translate.y))
  }

  /** The baseline translate moved by the pointer's displacement since the pan began. */
  function PanTo(s: ViewState, p: Point): ViewState {
    var i := s.interaction;
    s.(translate := Point(i.startTranslateX + (p.x - i.startX), i.startTranslateY + (p.y - i.startY)))
  }

  function StopPan(s: ViewState): ViewState {
    s.(interaction := s.interaction.(isDragging := false))
  }

  function MouseDown(s: ViewState, p: Point): ViewState {
    if s.scale <= 1.0 then s else BeginPan(s, p)
  }

  function MouseMove(s: ViewState, p: Point): ViewState {
    if !s.interaction.isDragging then s else PanTo(s, p)
  }

  /** Mouse up and mouse leave. */
  function MouseUp(s: ViewState): ViewState {
    StopPan(s)
  }

  /**
   * One finger on a zoomed plan starts a pan; two fingers cancel any pan and
   * record the pinch baseline (`dist` is the distance between the two touch
   * points); any other touch start changes nothing.
   */
  function TouchStart(s: ViewState, touches: seq<Point>, dist: real): ViewState {
    if |touches| == 1 && s.scale > 1.0 then
      BeginPan(s, touches[0])
    else if |touches| == 2 then
      s.(interaction := s.interaction.(isDragging := false, initialDistance := dist, startScale := s.scale))
    else
      s
  }

  /** The scale a pinch at distance `dist` asks for, proportional to the baseline and clamped. */
  function PinchScale(i: Interaction, dist: real): real
    requires i.initialDistance > 0.0
  {
    Clamp(i.startScale * (dist / i.initialDistance), MinScale, MaxScale)
  }

  /** The pinch baseline must be a positive distance; a zero one would divide by zero. */
  predicate CanPinch(s: ViewState) {
    s.interaction.initialDistance > 0.0
  }

  function TouchMove(s: ViewState, touches: seq<Point>, dist: real): ViewState
    requires |touches| == 2 ==> CanPinch(s)
  {
    if |touches| == 1 && s.interaction.isDragging then
      PanTo(s, touches[0])
    else if |touches| == 2 then
      var newScale := PinchScale(s.interaction, dist);
      s.(scale := newScale, translate := TranslateAt(newScale, s.translate))
    else
      s
  }

  function TouchEnd(s: ViewState): ViewState {
    StopPan(s)
  }

  /** The viewer's inputs: the image prop changing, the two buttons, mouse and touch events. */
  datatype ViewerEvent =
    | NewImage
    | ZoomInPressed
    | ZoomOutPressed
    | MouseDownAt(p: Point)
    | MouseMoveTo(p: Point)
    | MouseRelease
    | TouchesStart(touches: seq<Point>, dist: real)
    | TouchesMove(touches: seq<Point>, dist: real)
    | TouchesEnd

  /** The events the model handles: a two-finger move needs a positive pinch baseline. */
  predicate Allowed(s: ViewState, e: ViewerEvent) {
    e.TouchesMove? && |e.touches| == 2 ==> CanPinch(s)
  }

  function Step(s: ViewState, e: ViewerEvent): ViewState
    requires Allowed(s, e)
  {
    match e
    case NewImage => ImageChanged(s)
    case ZoomInPressed => ZoomedIn(s)
    case ZoomOutPressed => ZoomedOut(s)
    case MouseDownAt(p) => MouseDown(s, p)
    case MouseMoveTo(p) => MouseMove(s, p)
    case MouseRelease => MouseUp(s)
    case TouchesStart(t, d) => TouchStart(s, t, d)
    case TouchesMove(t, d) => TouchMove(s, t, d)
    case TouchesEnd => TouchEnd(s)
  }

  predicate Admissible(s: ViewState, events: seq<ViewerEvent>)
    decreases |events|
  {
    events == [] || (Allowed(s, events[0]) && Admissible(Step(s, events[0]), events[1..]))
  }

  function Run(s: ViewState, events: seq<ViewerEvent>): ViewState
    requires Admissible(s, events)
    decreases |events|
  {
    if events == [] then s else Run(Step(s, events[0]), events[1..])
  }

  /** Every handler keeps the scale within [1, 4]. */
  lemma StepKeepsScaleInRange(s: ViewState, e: ViewerEvent)
    requires Valid(s) && Allowed(s, e)
    ensures Valid(Step(s, e))
  {
  }

  /** The scale is within [1, 4] initially and after any admissible sequence of events. */
  lemma {:induction false} RunKeepsScaleInRange(s: ViewState, events: seq<ViewerEvent>)
    requires Valid(s) && Admissible(s, events)
    ensures Valid(Run(s, events))
    decreases |events|
  {
    if events != [] {
      StepKeepsScaleInRange(s, events[0]);
      RunKeepsScaleInRange(Step(s, events[0]), events[1..]);
    }
  }

  lemma InitialIsValid()
    ensures Valid(Initial()) && Initial().translate == Origin && !Initial().interaction.isDragging
  {
  }

  /** The image-change reset restores scale 1 and the origin, and leaves the gesture record alone. */
  lemma ImageChangeResets(s: ViewState)
    ensures Valid(ImageChanged(s))
    ensures ImageChanged(s).scale == MinScale && ImageChanged(s).translate == Origin
    ensures ImageChanged(s).interaction == s.interaction
  {
  }

  /** Zooming in never touches the translate or the gesture record. */
  lemma ZoomInKeepsTranslate(s: ViewState)
    ensures ZoomedIn(s).translate == s.translate && ZoomedIn(s).interaction == s.interaction
  {
  }

  /** Zooming out lands on 1 exactly from scales up to 1.5, and then the translate is reset. */
  lemma ZoomOutToOneResets(s: ViewState)
    requires Valid(s)
    ensures ZoomedOut(s).scale == MinScale <==> s.scale <= MinScale + ZoomStep
    ensures ZoomedOut(s).scale == MinScale ==> ZoomedOut(s).translate == Origin
    ensures ZoomedOut(s).scale != MinScale ==> ZoomedOut(s).translate == s.translate
  {
  }

  function Repeat(e: ViewerEvent, n: nat): (r: seq<ViewerEvent>)
    ensures |r| == n
    ensures forall k :: 0 <= k < n ==> r[k] == e
  {
    if n == 0 then [] else [e] + Repeat(e, n - 1)
  }

  /** Pressing zoom-in `n` times adds 0.5 per press but never passes 4. */
  lemma {:induction false} RepeatedZoomIn(s: ViewState, n: nat)
    requires Valid(s)
    ensures Admissible(s, Repeat(ZoomInPressed, n))
    ensures Run(s, Repeat(ZoomInPressed, n)) == s.(scale := Min(s.scale + ZoomStep * n as real, MaxScale))
    decreases n
  {
    if n > 0 {
      assert Repeat(ZoomInPressed, n)[1..] == Repeat(ZoomInPressed, n - 1);
      RepeatedZoomIn(ZoomedIn(s), n - 1);
    }
  }

  /** Pressing zoom-out `n` times removes 0.5 per press but never passes 1, where the translate resets. */
  lemma {:induction false} RepeatedZoomOut(s: ViewState, n: nat)
    requires Valid(s)
    ensures Admissible(s, Repeat(ZoomOutPressed, n))
    ensures Run(s, Repeat(ZoomOutPressed, n)).scale == Max(s.scale - ZoomStep * n as real, MinScale)
    ensures Run(s, Repeat(ZoomOutPressed, n)).interaction == s.interaction
    ensures n > 0 && Run(s, Repeat(ZoomOutPressed, n)).scale == MinScale ==> Run(s, Repeat(ZoomOutPressed, n)).translate == Origin
    ensures Run(s, Repeat(ZoomOutPressed, n)).scale != MinScale ==> Run(s, Repeat(ZoomOutPressed, n)).translate == s.translate
    decreases n
  {
    if n > 0 {
      assert Repeat(ZoomOutPressed, n)[1..] == Repeat(ZoomOutPressed, n - 1);
      RepeatedZoomOut(ZoomedOut(s), n - 1);

    }
  }

  /** A mouse press pans only on a zoomed plan; at scale 1 it changes nothing. */
  lemma PanStartsOnlyWhenZoomed(s: ViewState, p: Point, dist: real)
    ensures s.scale <= 1.0 ==> MouseDown(s, p) == s
    ensures s.scale > 1.0 ==> MouseDown(s, p).interaction.isDragging
    ensures MouseDown(s, p).scale == s.scale && MouseDown(s, p).translate == s.translate
    ensures s.scale <= 1.0 ==> TouchStart(s, [p], dist) == s
    ensures s.scale > 1.0 ==> TouchStart(s, [p], dist) == MouseDown(s, p)
  {
  }

  /** One finger moves like the mouse: it pans while a pan is on and otherwise changes nothing. */
  lemma OneFingerMovesLikeMouse(s: ViewState, p: Point, dist: real)
    ensures TouchMove(s, [p], dist) == MouseMove(s, p)
    ensures !s.interaction.isDragging ==> TouchMove(s, [p], dist) == s
    ensures TouchMove(s, [p], dist).scale == s.scale
  {
  }

  function MouseMoves(ps: seq<Point>): (evs: seq<ViewerEvent>)
    ensures |evs| == |ps|
    ensures forall k :: 0 <= k < |ps| ==> evs[k] == MouseMoveTo(ps[k])
  {
    if ps == [] then [] else [MouseMoveTo(ps[0])] + MouseMoves(ps[1..])
  }

  /** `base` moved by the displacement from `from` to `to`. */
  function Displaced(base: Point, from: Point, to: Point): Point {
    Point(base.x + (to.x - from.x), base.y + (to.y - from.y))
  }

  /**
   * A mouse press at `p0` on a zoomed plan followed by moves: the translate is the
   * translate at the press displaced by the pointer's total delta to the last
   * position, and panning never changes the scale.
   */
  lemma {:induction false} PanFollowsPointer(s: ViewState, p0: Point, ps: seq<Point>)
    requires s.scale > 1.0 && ps != []
    ensures Admissible(MouseDown(s, p0), MouseMoves(ps))
    ensures Run(MouseDown(s, p0), MouseMoves(ps)).translate == Displaced(s.translate, p0, ps[|ps| - 1])
    ensures Run(MouseDown(s, p0), MouseMoves(ps)).scale == s.scale
    ensures Run(MouseDown(s, p0), MouseMoves(ps)).interaction.isDragging
  {
    PanFollowsPointerFrom(MouseDown(s, p0), ps);
  }

  /** Underlying induction: while dragging, moves keep the baseline and reach the last displacement. */
  lemma {:induction false} PanFollowsPointerFrom(s: ViewState, ps: seq<Point>)
    requires s.interaction.isDragging && ps != []
    ensures Admissible(s, MouseMoves(ps))
    ensures Run(s, MouseMoves(ps)) == PanTo(s, ps[|ps| - 1])
    decreases |ps|
  {
    assert MouseMoves(ps)[1..] == MouseMoves(ps[1..]);
    if |ps| > 1 {
      PanFollowsPointerFrom(PanTo(s, ps[0]), ps[1..]);
    } else {
      assert MouseMoves(ps)[1..] == [];
    }
  }

  /** After mouse up (or leave) or touch end, no move pans until the next press. */
  lemma {:induction false} ReleaseStopsPanning(s: ViewState, ps: seq<Point>)
    ensures !MouseUp(s).interaction.isDragging && !TouchEnd(s).interaction.isDragging
    ensures Admissible(MouseUp(s), MouseMoves(ps))
    ensures Run(MouseUp(s), MouseMoves(ps)) == MouseUp(s)
    decreases |ps|
  {
    if ps != [] {
      assert MouseMoves(ps)[1..] == MouseMoves(ps[1..]);
      ReleaseStopsPanning(s, ps[1..]);
    }
  }

  /** A two-finger start cancels any pan and records the current scale and the finger distance. */
  lemma PinchStartRecordsBaseline(s: ViewState, a: Point, b: Point, dist: real)
    ensures !TouchStart(s, [a, b], dist).interaction.isDragging
    ensures TouchStart(s, [a, b], dist).interaction.startScale == s.scale
    ensures TouchStart(s, [a, b], dist).interaction.initialDistance == dist
    ensures TouchStart(s, [a, b], dist).scale == s.scale && TouchStart(s, [a, b], dist).translate == s.translate
  {
  }

  /**
   * A pinch from distance `d0` to `d1`: the scale becomes the scale at the
   * start times `d1 / d0`, clamped to [1, 4]; landing on 1 resets the
   * translate; an unchanged distance keeps the scale; spreading the fingers
   * never zooms out and bringing them together never zooms in.
   */
  lemma PinchScalesProportionally(s: ViewState, a: Point, b: Point, d0: real, c: Point, e: Point, d1: real)
    requires Valid(s) && d0 > 0.0 && d1 >= 0.0
    ensures CanPinch(TouchStart(s, [a, b], d0))
    ensures var t := TouchMove(TouchStart(s, [a, b], d0), [c, e], d1);
      && t.scale == Clamp(s.scale * (d1 / d0), MinScale, MaxScale)
      && (t.scale == MinScale ==> t.translate == Origin)
      && (d1 == d0 ==> t.scale == s.scale)
      && (d1 >= d0 ==> t.scale >= s.scale)
      && (d1 <= d0 ==> t.scale <= s.scale)
  {
    var started := TouchStart(s, [a, b], d0);
    assert started.interaction.startScale == s.scale && started.interaction.initialDistance == d0;
    assert started.scale == s.scale;
    var t := TouchMove(started, [c, e], d1);
    var x := s.scale * (d1 / d0);
    assert t.scale == Clamp(x, MinScale, MaxScale);
    ClampedRatio(s.scale, d1 / d0);
  }

  /** Scaling a valid scale by a ratio of at least (at most) 1 and clamping never goes below (above) it. */
  lemma ClampedRatio(scale: real, q: real)
    requires MinScale <= scale <= MaxScale && q >= 0.0
    ensures q == 1.0 ==> Clamp(scale * q, MinScale, MaxScale) == scale
    ensures q >= 1.0 ==> Clamp(scale * q, MinScale, MaxScale) >= scale
    ensures q <= 1.0 ==> Clamp(scale * q, MinScale, MaxScale) <= scale
  {
    if q >= 1.0 {
      ScaleLe(scale, 1.0, q);
    }
    if q <= 1.0 {
      ScaleLe(scale, q, 1.0);
      var x := scale * q;
      assert x <= scale;
      if x < MinScale {
        assert Clamp(x, MinScale, MaxScale) == MinScale;
      } else {
        assert Clamp(x, MinScale, MaxScale) == x;
      }
    }
  }

  /** The component, with its two state hooks and its gesture ref as fields. */
  class FloorPlanViewer {
    var scale: real
    var translate: Point
    var isDragging: bool
    var startX: real
    var startY: real
    var startTranslateX: real
    var startTranslateY: real
    var startScale: real
    var initialDistance: real

    function State(): ViewState
      reads this
    {
      ViewState(scale, translate,
        Interaction(isDragging, startX, startY, startTranslateX, startTranslateY, startScale, initialDistance))
    }

    predicate InvariantHolds()
      reads this
    {
      Valid(State())
    }

    constructor ()
      ensures State() == Initial() && InvariantHolds()
    {
      scale := MinScale;
      translate := Origin;
      isDragging := false;
      startX, startY := 0.0, 0.0;
      startTranslateX, startTranslateY := 0.0, 0.0;
      startScale := 1.0;
      initialDistance := 0.0;
    }

    method ResetForImage()
      requires InvariantHolds()
      modifies this
      ensures State() == ImageChanged(old(State())) && InvariantHolds()
    {
      scale := MinScale;
      translate := Origin;
    }

    method ZoomIn()
      requires InvariantHolds()
      modifies this
      ensures State() == ZoomedIn(old(State())) && InvariantHolds()
    {
      scale := Min(scale + ZoomStep, MaxScale);
    }

    method ZoomOut()
      requires InvariantHolds()
      modifies this
      ensures State() == ZoomedOut(old(State())) && InvariantHolds()
    {
      var newScale := Max(scale - ZoomStep, MinScale);
      if newScale == MinScale {
        translate := Origin;
      }
      scale := newScale;
    }

    method UpdateTranslate(x: real, y: real)
      modifies this
      ensures State() == old(State()).(translate := Point(x, y))
    {
      translate := Point(x, y);
    }

    method OnMouseDown(clientX: real, clientY: real)
      requires InvariantHolds()
      modifies this
      ensures State() == MouseDown(old(State()), Point(clientX, clientY)) && InvariantHolds()
    {
      if scale <= 1.0 {
        return;
      }
      isDragging := true;
      startX := clientX;
      startY := clientY;
      startTranslateX := translate.x;
      startTranslateY := translate.y;
    }

    method OnMouseMove(clientX: real, clientY: real)
      requires InvariantHolds()
      modifies this
      ensures State() == MouseMove(old(State()), Point(clientX, clientY)) && InvariantHolds()
    {
      if !isDragging {
        return;
      }
      var dx := clientX - startX;
      var dy := clientY - startY;
      UpdateTranslate(startTranslateX + dx, startTranslateY + dy);
    }

    method OnMouseUp()
      requires InvariantHolds()
      modifies this
      ensures State() == MouseUp(old(State())) && InvariantHolds()
    {
      isDragging := false;
    }

    method OnTouchStart(touches: seq<Point>, dist: real)
      requires InvariantHolds()
      modifies this
      ensures State() == TouchStart(old(State()), touches, dist) && InvariantHolds()
    {
      if |touches| == 1 && scale > 1.0 {
        isDragging := true;
        startX := touches[0].x;
        startY := touches[0].y;
        startTranslateX := translate.x;
        startTranslateY := translate.y;
      } else if |touches| == 2 {
        isDragging := false;
        initialDistance := dist;
        startScale := scale;
      }
    }

    method OnTouchMove(touches: seq<Point>, dist: real)
      requires InvariantHolds()
      requires |touches| == 2 ==> initialDistance > 0.0
      modifies this
      ensures State() == TouchMove(old(State()), touches, dist) && InvariantHolds()
    {
      if |touches| == 1 && isDragging {
        var dx := touches[0].x - startX;
        var dy := touches[0].y - startY;
        UpdateTranslate(startTranslateX + dx, startTranslateY + dy);
      } else if |touches| == 2 {
        var ratio := dist / initialDistance;
        var newScale := Min(Max(startScale * ratio, MinScale), MaxScale);
        scale := newScale;
        if newScale == MinScale {
          translate := Origin;
        }
      }
    }

    method OnTouchEnd()
      requires InvariantHolds()
      modifies this
      ensures State() == TouchEnd(old(State())) && InvariantHolds()
    {
      isDragging := false;
    }
  }
}
