/**
 * The pinch / pan / double-tap state machine of the zoomable photo view.
 *
 * The view keeps four pieces of state: the scale currently shown, the scale
 * committed at the end of the last gesture (the base that the next pinch
 * multiplies), the pan offset currently shown, and the pan offset committed at
 * the end of the last drag. Each gesture callback assigns some of them.
 *
 * The module defines the state as a value (`ZoomState`) with one transition
 * function per callback, the callbacks as an event type with a `Run` over
 * event sequences, and the `ZoomableModifier` class whose fields the callbacks
 * update in place. Each method of the class is specified by the matching
 * transition function.
 */
module Zoomable {

  /** A two-dimensional extent, the model of `CGSize`; `CGFloat` is modelled by exact reals. */
  datatype Size = Size(width: real, height: real)

  /** The zero extent, `CGSize.zero`. */
  const Zero: Size := Size(0.0, 0.0)

  /** Component-wise sum of two extents. */
  function Plus(a: Size, b: Size): Size {
    Size(a.width + b.width, a.height + b.height)
  }

  /** The scale of the unzoomed view. */
  const UnitScale: real := 1.0
  /** Scale below which a finished pinch snaps back to the unzoomed view. */
  const MinScale: real := 1.0
  /** Scale that caps a finished pinch. */
  const MaxScale: real := 3.0
  /** Scale that a double-tap on the unzoomed view zooms to. */
  const DoubleTapScale: real := 2.0

  /** The four state variables of the modifier. */
  datatype ZoomState = ZoomState(scale: real, lastScale: real, offset: Size, lastOffset: Size)

  /** The unzoomed, un-panned view: the initial state, and the state every reset returns to. */
  const Identity: ZoomState := ZoomState(UnitScale, UnitScale, Zero, Zero)

  /** The view is zoomed exactly when the shown scale exceeds 1; only then does a drag pan. */
  predicate IsZoomed(s: ZoomState) {
    s.scale > UnitScale
  }

  /**
   * The invariant every reachable state keeps: the committed scale lies in the
   * range a finished gesture allows.
   */
  predicate InRange(s: ZoomState) {
    MinScale <= s.lastScale <= MaxScale
  }

  /** Pinch changed: the shown scale is the committed scale times the gesture's magnification. */
  function MagnificationChanged(s: ZoomState, value: real): (r: ZoomState)
    ensures r.scale == s.lastScale * value
    ensures r.lastScale == s.lastScale && r.offset == s.offset && r.lastOffset == s.lastOffset
  {
    s.(scale := s.lastScale * value)
  }

  /**
   * Pinch ended: the shown scale is committed; a scale below 1 resets the whole
   * view to the identity, a scale above 3 is capped at 3.
   */
  function MagnificationEnded(s: ZoomState): (r: ZoomState)
    ensures MinScale <= r.scale <= MaxScale && r.lastScale == r.scale
    ensures s.scale < MinScale ==> r == Identity
    ensures s.scale >= MinScale ==> r.offset == s.offset && r.lastOffset == s.lastOffset
    ensures s.scale > MaxScale ==> r.scale == MaxScale
    ensures MinScale <= s.scale <= MaxScale ==> r.scale == s.scale
  {
    var committed := s.(lastScale := s.scale);
    if committed.scale < MinScale then
      Identity
    else if committed.scale > MaxScale then
      committed.(scale := MaxScale, lastScale := MaxScale)
    else
      committed
  }

  /**
   * Drag changed: while zoomed, the shown offset is the committed offset moved
   * by the drag's translation; while not zoomed, nothing changes.
   */
  function DragChanged(s: ZoomState, translation: Size): (r: ZoomState)
    ensures r.scale == s.scale && r.lastScale == s.lastScale && r.lastOffset == s.lastOffset
    ensures r != s ==> IsZoomed(s)
    ensures IsZoomed(s) ==>
              r.offset.width - s.lastOffset.width == translation.width &&
              r.offset.height - s.lastOffset.height == translation.height
  {
    if IsZoomed(s) then
      s.(offset := Plus(s.lastOffset, translation))
    else
      s
  }

  /** Drag ended: the shown offset is committed, nothing else changes. */
  function DragEnded(s: ZoomState): (r: ZoomState)
    ensures r.lastOffset == r.offset == s.offset
    ensures r.scale == s.scale && r.lastScale == s.lastScale
  {
    s.(lastOffset := s.offset)
  }

  /**
   * Double-tap: a zoomed view resets to the identity; an unzoomed one zooms to
   * 2 and keeps its offsets.
   */
  function DoubleTap(s: ZoomState): (r: ZoomState)
    ensures IsZoomed(s) ==> r == Identity
    ensures !IsZoomed(s) ==>
              r.scale == r.lastScale == DoubleTapScale && r.offset == s.offset && r.lastOffset == s.lastOffset
  {
    if IsZoomed(s) then
      Identity
    else
      s.(scale := DoubleTapScale, lastScale := DoubleTapScale)
  }

  /** One callback invocation. Pinch and drag callbacks are interleaved one at a time. */
  datatype Event =
    | PinchChanged(value: real)
    | PinchEnded
    | DragMoved(translation: Size)
    | DragFinished
    | DoubleTapped

  /** The state after one callback. */
  function Step(s: ZoomState, e: Event): ZoomState {
    match e
    case PinchChanged(v) => MagnificationChanged(s, v)
    case PinchEnded => MagnificationEnded(s)
    case DragMoved(t) => DragChanged(s, t)
    case DragFinished => DragEnded(s)
    case DoubleTapped => DoubleTap(s)
  }

  /** The state after a sequence of callbacks, in order. */
  function Run(s: ZoomState, events: seq<Event>): ZoomState
    decreases |events|
  {
    if events == [] then s else Run(Step(s, events[0]), events[1..])
  }

  /** A finished gesture or a double-tap leaves the view settled: committed and shown scale agree. */
  predicate Settles(e: Event) {
    e.PinchEnded? || e.DoubleTapped?
  }

  /** A drag callback, the only kind that touches the offsets without touching the scales. */
  predicate IsDrag(e: Event) {
    e.DragMoved? || e.DragFinished?
  }

  /** The identity satisfies the invariant. */
  lemma IdentityInRange()
    ensures InRange(Identity) && !IsZoomed(Identity)
  {
  }

  /** Every callback keeps the committed scale in range. */
  lemma StepInRange(s: ZoomState, e: Event)
    requires InRange(s)
    ensures InRange(Step(s, e))
  {
  }

  /** Any sequence of callbacks keeps the committed scale in range. */
  lemma {:induction false} RunInRange(s: ZoomState, events: seq<Event>)
    requires InRange(s)
    ensures InRange(Run(s, events))
    decreases |events|
  {
    if events != [] {
      StepInRange(s, events[0]);
      RunInRange(Step(s, events[0]), events[1..]);
    }
  }

  /** In every state reachable from the initial one, the committed scale lies in [1, 3]. */
  lemma ReachableInRange(events: seq<Event>)
    ensures MinScale <= Run(Identity, events).lastScale <= MaxScale
  {
    RunInRange(Identity, events);
  }

  /** Running two sequences one after the other is running their concatenation. */
  lemma {:induction false} RunAppend(s: ZoomState, a: seq<Event>, b: seq<Event>)
    ensures Run(s, a + b) == Run(Run(s, a), b)
    decreases |a|
  {
    if a == [] {
      assert a + b == b;
    } else {
      assert (a + b)[0] == a[0];
      assert (a + b)[1..] == a[1..] + b;
      RunAppend(Step(s, a[0]), a[1..], b);
    }
  }

  /**
   * Whatever happened before, once a pinch ends or a double-tap lands, the
   * scale shown is in [1, 3] and is the committed one.
   */
  lemma SettledScaleInRange(s: ZoomState, events: seq<Event>, last: Event)
    requires Settles(last)
    ensures var r := Run(s, events + [last]);
            MinScale <= r.scale <= MaxScale && r.scale == r.lastScale
  {
    RunAppend(s, events, [last]);
  }

  /** Drags on an unzoomed view never move it and never change its scales. */
  lemma {:induction false} DragsDoNotPanUnzoomed(s: ZoomState, events: seq<Event>)
    requires !IsZoomed(s)
    requires forall i :: 0 <= i < |events| ==> IsDrag(events[i])
    ensures var r := Run(s, events);
            r.offset == s.offset && r.scale == s.scale && r.lastScale == s.lastScale
    decreases |events|
  {
    if events != [] {
      assert IsDrag(events[0]);
      var next := Step(s, events[0]);
      assert next.offset == s.offset && next.scale == s.scale && next.lastScale == s.lastScale;
      assert forall i :: 0 <= i < |events[1..]| ==> IsDrag(events[1..][i]) by {
        forall i | 0 <= i < |events[1..]| ensures IsDrag(events[1..][i]) {
          assert events[1..][i] == events[i + 1];
        }
      }
      DragsDoNotPanUnzoomed(next, events[1..]);
    }
  }

  /**
   * With positive magnifications (a pinch reports the ratio of finger
   * distances), the shown scale stays positive in every reachable state.
   */
  lemma {:induction false} ScaleStaysPositive(s: ZoomState, events: seq<Event>)
    requires InRange(s) && s.scale > 0.0
    requires forall i :: 0 <= i < |events| && events[i].PinchChanged? ==> events[i].value > 0.0
    ensures Run(s, events).scale > 0.0
    decreases |events|
  {
    if events != [] {
      var next := Step(s, events[0]);
      if events[0].PinchChanged? {
        assert next.scale == s.lastScale * events[0].value;
      }
      StepInRange(s, events[0]);
      assert forall i :: 0 <= i < |events[1..]| && events[1..][i].PinchChanged? ==> events[1..][i].value > 0.0 by {
        forall i | 0 <= i < |events[1..]| && events[1..][i].PinchChanged?
          ensures events[1..][i].value > 0.0
        {
          assert events[1..][i] == events[i + 1];
        }
      }
      ScaleStaysPositive(next, events[1..]);
    }
  }

  /** Ending a pinch twice is ending it once. */
  lemma MagnificationEndedIdempotent(s: ZoomState)
    ensures MagnificationEnded(MagnificationEnded(s)) == MagnificationEnded(s)
  {
  }

  /** Ending a drag twice is ending it once. */
  lemma DragEndedIdempotent(s: ZoomState)
    ensures DragEnded(DragEnded(s)) == DragEnded(s)
  {
  }

  /** Two double-taps on the unzoomed, un-panned view return to it. */
  lemma DoubleTapTwiceFromIdentity()
    ensures DoubleTap(Identity).scale == DoubleTapScale
    ensures DoubleTap(DoubleTap(Identity)) == Identity
  {
  }

  /**
   * Two double-taps on any zoomed view leave it at 2x, centred; on any
   * unzoomed view they reset it to the identity.
   */
  lemma DoubleTapTwice(s: ZoomState)
    ensures IsZoomed(s) ==> DoubleTap(DoubleTap(s)) == Identity.(scale := DoubleTapScale, lastScale := DoubleTapScale)
    ensures !IsZoomed(s) ==> DoubleTap(DoubleTap(s)) == Identity
  {
  }

  /**
   * Committed pans accumulate: while zoomed, two complete drags move the view
   * by the sum of their translations, with no bound on the distance.
   */
  lemma PansAccumulate(s: ZoomState, t: Size, u: Size)
    requires IsZoomed(s)
    ensures Run(s, [DragMoved(t), DragFinished, DragMoved(u), DragFinished]).lastOffset
            == Plus(Plus(s.lastOffset, t), u)
  {
    var s1 := Step(s, DragMoved(t));
    var s2 := Step(s1, DragFinished);
    var s3 := Step(s2, DragMoved(u));
    var s4 := Step(s3, DragFinished);
    assert Run(s3, [DragFinished]) == s4;
    assert Run(s2, [DragMoved(u), DragFinished]) == s4;
    assert Run(s1, [DragFinished, DragMoved(u), DragFinished]) == s4;
  }

  /**
   * A pinch that ends exactly at scale 1 keeps a pan made while zoomed: the
   * view is then shown displaced at scale 1, and drags no longer move it.
   */
  lemma PanSurvivesPinchEndingAtOne(t: Size)
    requires t != Zero
    ensures var r := Run(Identity, [DoubleTapped, DragMoved(t), DragFinished, PinchChanged(0.5), PinchEnded]);
            r.scale == UnitScale && r.offset == t && !IsZoomed(r)
  {
    var s1 := Step(Identity, DoubleTapped);
    var s2 := Step(s1, DragMoved(t));
    var s3 := Step(s2, DragFinished);
    var s4 := Step(s3, PinchChanged(0.5));
    var s5 := Step(s4, PinchEnded);
    assert s2.offset == Plus(Zero, t) == t;
    assert Run(s4, [PinchEnded]) == s5;
    assert Run(s3, [PinchChanged(0.5), PinchEnded]) == s5;
    assert Run(s2, [DragFinished, PinchChanged(0.5), PinchEnded]) == s5;
    assert Run(s1, [DragMoved(t), DragFinished, PinchChanged(0.5), PinchEnded]) == s5;
  }

  /**
   * The view modifier itself: its four fields are updated in place by the
   * gesture callbacks.
   */
  class ZoomableModifier {
    var scale: real
    var lastScale: real
    var offset: Size
    var lastOffset: Size

    /** The fields as a value. */
    function State(): ZoomState
      reads this
    {
      ZoomState(scale, lastScale, offset, lastOffset)
    }

    /** The object invariant: the committed scale is in range. */
    ghost predicate Valid()
      reads this
    {
      InRange(State())
    }

    /** A fresh modifier shows the photo unzoomed and centred. */
    constructor ()
      ensures Valid()
      ensures scale == UnitScale && lastScale == UnitScale && offset == Zero && lastOffset == Zero
      ensures State() == Identity
    {
      scale := UnitScale;
      lastScale := UnitScale;
      offset := Zero;
      lastOffset := Zero;
    }

    /** The magnification gesture's change callback. */
    method OnMagnificationChanged(value: real)
      requires Valid()
      modifies this
      ensures Valid()
      ensures scale == old(lastScale) * value
      ensures lastScale == old(lastScale) && offset == old(offset) && lastOffset == old(lastOffset)
      ensures value > 0.0 ==> scale > 0.0
      ensures State() == MagnificationChanged(old(State()), value)
    {
      scale := lastScale * value;
    }

    /** The magnification gesture's end callback. */
    method OnMagnificationEnded()
      requires Valid()
      modifies this
      ensures Valid()
      ensures old(scale) < MinScale ==>
                scale == UnitScale && lastScale == UnitScale && offset == Zero && lastOffset == Zero
      ensures old(scale) > MaxScale ==>
                scale == MaxScale && lastScale == MaxScale && offset == old(offset) && lastOffset == old(lastOffset)
      ensures MinScale <= old(scale) <= MaxScale ==>
                scale == old(scale) && lastScale == old(scale) && offset == old(offset) && lastOffset == old(lastOffset)
      ensures State() == MagnificationEnded(old(State()))
    {
      lastScale := scale;
      if scale < MinScale {
        scale := UnitScale;
        lastScale := UnitScale;
        offset := Zero;
        lastOffset := Zero;
      } else if scale > MaxScale {
        scale := MaxScale;
        lastScale := MaxScale;
      }
    }

    /** The drag gesture's change callback. */
    method OnDragChanged(translation: Size)
      requires Valid()
      modifies this
      ensures Valid()
      ensures old(scale) > UnitScale ==> offset == Plus(old(lastOffset), translation)
      ensures old(scale) <= UnitScale ==> offset == old(offset)
      ensures scale == old(scale) && lastScale == old(lastScale) && lastOffset == old(lastOffset)
      ensures State() == DragChanged(old(State()), translation)
    {
      if scale > UnitScale {
        offset := Plus(lastOffset, translation);
      }
    }

    /** The drag gesture's end callback. */
    method OnDragEnded()
      requires Valid()
      modifies this
      ensures Valid()
      ensures lastOffset == old(offset)
      ensures scale == old(scale) && lastScale == old(lastScale) && offset == old(offset)
      ensures State() == DragEnded(old(State()))
    {
      lastOffset := offset;
    }

    /** The double-tap callback. */
    method OnDoubleTap()
      requires Valid()
      modifies this
      ensures Valid()
      ensures old(scale) > UnitScale ==>
                scale == UnitScale && lastScale == UnitScale && offset == Zero && lastOffset == Zero
      ensures old(scale) <= UnitScale ==>
                scale == DoubleTapScale && lastScale == DoubleTapScale &&
                offset == old(offset) && lastOffset == old(lastOffset)
      ensures State() == DoubleTap(old(State()))
    {
      if scale > UnitScale {
        scale := UnitScale;
        lastScale := UnitScale;
        offset := Zero;
        lastOffset := Zero;
      } else {
        scale := DoubleTapScale;
        lastScale := DoubleTapScale;
      }
    }
  }
}
