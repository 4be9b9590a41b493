/**
 * The swipe classifier of `MyGestureDetector`: a fling is a horizontal swipe
 * when it stays close to a horizontal line, travels far enough sideways and is
 * fast enough sideways. Touch coordinates and velocities are `float`s in the
 * source; they are exact reals here.
 */
module Gesture {
  import opened Wrappers
  import opened JavaInt

  /** `GestureListener.Direction`. */
  datatype Direction = Right | Left

  /** The position of a motion event. */
  datatype Point = Point(x: real, y: real)

  const SwipeMinDistance: real := 120.0
  const SwipeMaxOffPath: real := 250.0
  const SwipeThresholdVelocity: real := 200.0

  /**
   * What one call of `onFling` does: either it throws because no listener
   * was set, or it returns `consumed` after reporting at most one swipe to
   * the listener.
   */
  datatype FlingOutcome =
    | NullListener
    | Returned(swipe: Option<Direction>, consumed: bool)

  /** The fling moved far enough to the left, and fast enough. */
  predicate IsLeftSwipe(start: Point, end: Point, velocityX: real)
  {
    start.x - end.x > SwipeMinDistance && AbsReal(velocityX) > SwipeThresholdVelocity
  }

  /** The fling moved far enough to the right, and fast enough. */
  predicate IsRightSwipe(start: Point, end: Point, velocityX: real)
  {
    end.x - start.x > SwipeMinDistance && AbsReal(velocityX) > SwipeThresholdVelocity
  }

  /** The fling drifted too far vertically to be a horizontal swipe. */
  predicate OffPath(start: Point, end: Point)
  {
    AbsReal(start.y - end.y) > SwipeMaxOffPath
  }

  /**
   * `onFling(e1, e2, velocityX, velocityY)` with the detector's listener
   * present or not. The first event may be missing (`None`): reading it then
   * throws inside the handler's `try`, which swallows the exception, so no
   * swipe is reported.
   */
  function OnFling(hasListener: bool, e1: Option<Point>, e2: Point, velocityX: real, velocityY: real): (r: FlingOutcome)
    ensures r.NullListener? <==> !hasListener
    ensures r.Returned? ==> !r.consumed
    ensures r.Returned? && r.swipe == Some(Left) <==>
              hasListener && e1.Some? && !OffPath(e1.value, e2) && IsLeftSwipe(e1.value, e2, velocityX)
    ensures r.Returned? && r.swipe == Some(Right) <==>
              hasListener && e1.Some? && !OffPath(e1.value, e2) && IsRightSwipe(e1.value, e2, velocityX)
  {
    if !hasListener then NullListener
    else if e1.None? then Returned(None, false)
    else if OffPath(e1.value, e2) then Returned(None, false)
    else if IsLeftSwipe(e1.value, e2, velocityX) then Returned(Some(Left), false)
    else if IsRightSwipe(e1.value, e2, velocityX) then Returned(Some(Right), false)
    else Returned(None, false)
  }

  /** A fling cannot be both a left and a right swipe. */
  lemma SwipesExclusive(start: Point, end: Point, velocityX: real)
    ensures !(IsLeftSwipe(start, end, velocityX) && IsRightSwipe(start, end, velocityX))
  {
  }

  /** The vertical velocity never changes the outcome. */
  lemma VelocityYIgnored(hasListener: bool, e1: Option<Point>, e2: Point, velocityX: real, vy1: real, vy2: real)
    ensures OnFling(hasListener, e1, e2, velocityX, vy1) == OnFling(hasListener, e1, e2, velocityX, vy2)
  {
  }

  /** Reversing a fling (swapping its end points) turns a left swipe into a right one. */
  lemma ReversedFling(hasListener: bool, a: Point, b: Point, velocityX: real, velocityY: real)
    requires OnFling(hasListener, Some(a), b, velocityX, velocityY) == Returned(Some(Left), false)
    ensures OnFling(hasListener, Some(b), a, velocityX, velocityY) == Returned(Some(Right), false)
  {
  }

  /** `onDown` always claims the event, so that the fling that follows is delivered. */
  function OnDown(e: Point): (consumed: bool)
    ensures consumed
  {
    true
  }
}
