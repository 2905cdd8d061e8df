/**
 * The pseudo-360° panorama viewer of the product page: dragging across the
 * image scrubs a background position (a percentage), which wraps around so
 * that the rotation appears endless. Mouse and touch input share the same
 * three handlers; leaving the element ends a drag like releasing it.
 */
module Panorama {
  import opened JsMath

  /** Percentage points of background position per pixel of drag. */
  const Sensitivity: real := 0.2

  /** The position shown before any drag. */
  const InitialPosition: real := 50.0

  /**
   * The wrap applied to a candidate position: above 100 it is reduced with
   * `% 100`; below 0 it becomes `100 + (p % 100)`. Both `%` truncate. The
   * result is in the CLOSED range [0, 100]: 100 itself skips both branches,
   * and a negative multiple of 100 comes out as `100 + (-0)`.
   */
  function WrapPosition(p: real): (r: real)
    ensures 0.0 <= r <= 100.0
    ensures Integral((p - r) / 100.0)
    ensures 0.0 <= p <= 100.0 ==> r == p
  {
    var once := if p > 100.0 then TruncRem(p, 100.0) else p;
    if once < 0.0 then
      NegativeWrap(once);
      100.0 + TruncRem(once, 100.0)
    else
      once
  }

  /** A negative candidate wraps into (0, 100], off by a whole multiple of 100. */
  lemma NegativeWrap(p: real)
    requires p < 0.0
    ensures 0.0 < 100.0 + TruncRem(p, 100.0) <= 100.0
    ensures Integral((p - (100.0 + TruncRem(p, 100.0))) / 100.0)
  {
    var t := TruncRem(p, 100.0);
    var q := (p - t) / 100.0;
    assert (p - (100.0 + t)) / 100.0 == q - 1.0;
    WholeMinusOne(q);
  }

  lemma WholeMinusOne(x: real)
    requires Integral(x)
    ensures Integral(x - 1.0)
  {
    assert x - 1.0 == (x.Floor - 1) as real;
  }

  /** The drag state: the shown position and the ref values of the handlers. */
  datatype PanoramaState = PanoramaState(pos: real, dragging: bool, startX: real, startPos: real)

  function Initial(): PanoramaState {
    PanoramaState(InitialPosition, false, 0.0, 0.0)
  }

  /** `handleStart`: remember the pointer and the current position as the baseline. */
  function Start(s: PanoramaState, clientX: real): PanoramaState {
    s.(dragging := true, startX := clientX, startPos := s.pos)
  }

  /** The position a drag to `clientX` asks for: the baseline minus the scaled total delta, wrapped. */
  function DragTarget(startPos: real, startX: real, clientX: real): real {
    WrapPosition(startPos - (clientX - startX) * Sensitivity)
  }

  /** `handleMove`: ignored unless dragging; otherwise the position follows the pointer. */
  function Move(s: PanoramaState, clientX: real): PanoramaState {
    if !s.dragging then s else s.(pos := DragTarget(s.startPos, s.startX, clientX))
  }

  /** `handleEnd` (mouse up, mouse leave, touch end). */
  function End(s: PanoramaState): PanoramaState {
    s.(dragging := false)
  }

  predicate InRange(s: PanoramaState) {
    0.0 <= s.pos <= 100.0
  }

  /** Pointer events as the element receives them; mouse and touch map to the same three. */
  datatype PointerEvent = Down(x: real) | MoveTo(x: real) | Up

  function Step(s: PanoramaState, e: PointerEvent): PanoramaState {
    match e
    case Down(x) => Start(s, x)
    case MoveTo(x) => Move(s, x)
    case Up => End(s)
  }

  function Run(s: PanoramaState, events: seq<PointerEvent>): PanoramaState
    decreases |events|
  {
    if events == [] then s else Run(Step(s, events[0]), events[1..])
  }

  /** A stretch of moves with no press or release in between. */
  function Moves(xs: seq<real>): (evs: seq<PointerEvent>)
    ensures |evs| == |xs|
    ensures forall k :: 0 <= k < |xs| ==> evs[k] == MoveTo(xs[k])
  {
    if xs == [] then [] else [MoveTo(xs[0])] + Moves(xs[1..])
  }

  /** The position is in [0, 100] initially and after any sequence of events. */
  lemma {:induction false} RunStaysInRange(s: PanoramaState, events: seq<PointerEvent>)
    requires InRange(s)
    ensures InRange(Run(s, events))
    decreases |events|
  {
    if events != [] {
      RunStaysInRange(Step(s, events[0]), events[1..]);
    }
  }

  lemma InitialInRange()
    ensures InRange(Initial()) && !Initial().dragging
  {
  }

  /** A move while not dragging changes nothing. */
  lemma IdleMoveChangesNothing(s: PanoramaState, clientX: real)
    requires !s.dragging
    ensures Move(s, clientX) == s
  {
  }

  /** A move overrides the previous one: earlier moves of the same drag leave no trace. */
  lemma MoveForgetsEarlierMoves(s: PanoramaState, x1: real, x2: real)
    ensures Move(Move(s, x1), x2) == Move(s, x2)
  {
  }

  /** Only the total delta from the drag's start counts, not where the drag began. */
  lemma MoveSeesOnlyDelta(s: PanoramaState, clientX: real, shift: real)
    requires s.dragging
    ensures Move(s.(startX := s.startX + shift), clientX + shift).pos == Move(s, clientX).pos
  {
    assert (clientX + shift) - (s.startX + shift) == clientX - s.startX;
  }

  /**
   * After pressing at `x0` and moving through `xs`, the position is the wrap
   * of the position at the press minus the scaled delta to the LAST pointer
   * position; the press itself moves nothing.
   */
  lemma {:induction false} DragFollowsLastPointer(s: PanoramaState, x0: real, xs: seq<real>)
    requires xs != []
    ensures Run(Start(s, x0), Moves(xs)).pos == DragTarget(s.pos, x0, xs[|xs| - 1])
    ensures Run(Start(s, x0), Moves(xs)).dragging
    decreases |xs|
  {
    if |xs| == 1 {
      assert Moves(xs)[1..] == [];
    } else {
      var s1 := Move(Start(s, x0), xs[0]);
      assert Moves(xs)[1..] == Moves(xs[1..]);
      assert s1 == Start(s, x0).(pos := DragTarget(s.pos, x0, xs[0]));
      DragFollowsLastPointerFrom(s1, xs[1..]);
    }
  }

  /** Underlying induction: once dragging, moves keep the baseline and reach the last target. */
  lemma {:induction false} DragFollowsLastPointerFrom(s: PanoramaState, xs: seq<real>)
    requires s.dragging && xs != []
    ensures Run(s, Moves(xs)) == s.(pos := DragTarget(s.startPos, s.startX, xs[|xs| - 1]))
    decreases |xs|
  {
    assert Moves(xs)[1..] == Moves(xs[1..]);
    if |xs| > 1 {
      DragFollowsLastPointerFrom(Move(s, xs[0]), xs[1..]);
    }
  }

  /** Once the drag has ended, moves change nothing. */
  lemma {:induction false} EndedDragIgnoresMoves(s: PanoramaState, xs: seq<real>)
    ensures Run(End(s), Moves(xs)) == End(s)
    decreases |xs|
  {
    if xs != [] {
      assert Moves(xs)[1..] == Moves(xs[1..]);
      EndedDragIgnoresMoves(s, xs[1..]);
    }
  }

  /** The wrapped position is exactly 100 for 100 itself and for every negative multiple of 100. */
  lemma {:induction false} WrapIsHundredIff(p: real)
    ensures WrapPosition(p) == 100.0 <==> p == 100.0 || (p < 0.0 && Integral(p / 100.0))
  {
    TruncRemZeroIff(p, 100.0);
    if p > 100.0 {
      assert WrapPosition(p) == TruncRem(p, 100.0) < 100.0;
    }
  }

  /** From the initial state, a drag can leave the position at exactly 100, both ways. */
  lemma HundredIsReachable()
    ensures Run(Initial(), [Down(0.0), MoveTo(-250.0)]).pos == 100.0
    ensures Run(Initial(), [Down(0.0), MoveTo(750.0)]).pos == 100.0
  {
    assert Run(Initial(), [Down(0.0), MoveTo(-250.0)]) == Move(Start(Initial(), 0.0), -250.0);
    assert Run(Initial(), [Down(0.0), MoveTo(750.0)]) == Move(Start(Initial(), 0.0), 750.0);
    WrapIsHundredIff(-100.0);
  }

  /** The component, with its state hook and refs as fields. */
  class PanoramaViewer {
    var bgPosition: real
    var isDragging: bool
    var startX: real
    var startPos: real

    function State(): PanoramaState
      reads this
    {
      PanoramaState(bgPosition, isDragging, startX, startPos)
    }

    constructor ()
      ensures State() == Initial()
    {
      bgPosition := InitialPosition;
      isDragging := false;
      startX := 0.0;
      startPos := 0.0;
    }

    method HandleStart(clientX: real)
      modifies this
      ensures State() == Start(old(State()), clientX)
    {
      isDragging := true;
      startX := clientX;
      startPos := bgPosition;
    }

    method HandleMove(clientX: real)
      modifies this
      ensures State() == Move(old(State()), clientX)
      ensures old(isDragging) ==> 0.0 <= bgPosition <= 100.0
    {
      if !isDragging {
        return;
      }
      var delta := clientX - startX;
      var newPos := startPos - delta * Sensitivity;
      if newPos > 100.0 {
        newPos := TruncRem(newPos, 100.0);
      }
      if newPos < 0.0 {
        newPos := 100.0 + TruncRem(newPos, 100.0);
      }
      bgPosition := newPos;
    }

    method HandleEnd()
      modifies this
      ensures State() == End(old(State()))
    {
      isDragging := false;
    }
  }
}
