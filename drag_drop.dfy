/**
 * `DragDropTouchView`: lets a view be dragged inside its container. The
 * target view's own touch handler starts and ends a drag; the container's
 * handler, installed by `init`, moves the target while a drag is on by
 * rewriting the margins of a shared layout-parameters object, and notifies a
 * `DragListener`.
 *
 * Views are named by `ViewId`s; the target's frame, read by the container on
 * `ACTION_DOWN`, is an input. The layout parameters each call of
 * `setLayoutParams` hands to a view, the listener calls and the vibrations
 * requested are recorded in order. Raw touch coordinates are exact reals,
 * converted to `int` as Java's cast does.
 */
module DragDrop {
  import opened JavaInt
  import opened Wrappers

  /** `RelativeLayout.LayoutParams.WRAP_CONTENT`. */
  const WrapContent: int32 := -2

  /** The source's `START_DRAGGING` (0) and `STOP_DRAGGING` (1). */
  datatype DragStatus = StartDragging | StopDragging

  type ViewId = nat

  /** The fields of `RelativeLayout.LayoutParams` that the helper writes. */
  datatype Layout = Layout(
    width: int32,
    height: int32,
    leftMargin: int32,
    topMargin: int32,
    rightMargin: int32,
    bottomMargin: int32)

  /** The layout parameters `init` creates: wrap the content, no margins. */
  const FreshLayout := Layout(WrapContent, WrapContent, 0, 0, 0, 0)

  function SetMargins(lp: Layout, left: int32, top: int32, right: int32, bottom: int32): (r: Layout)
    ensures r.width == lp.width && r.height == lp.height
    ensures r.leftMargin == left && r.topMargin == top && r.rightMargin == right && r.bottomMargin == bottom
  {
    lp.(leftMargin := left, topMargin := top, rightMargin := right, bottomMargin := bottom)
  }

  /** A view's frame: `getLeft()`, `getTop()`, `getRight()`, `getBottom()`. */
  datatype Bounds = Bounds(left: int32, top: int32, right: int32, bottom: int32)

  /** What the container's handler captures in `init`: the target and its size, and whether horizontal moves are allowed. */
  datatype Binding = Binding(target: ViewId, height: int32, width: int32, allowHorizontal: bool)

  datatype Action = Down | Move | Up | Other

  /** A touch event: its masked action and its raw screen coordinates. */
  datatype TouchEvent = TouchEvent(action: Action, rawX: real, rawY: real)

  /** The calls made to the `DragListener`. */
  datatype DragCall = DragStart(x: int32, y: int32) | Dragging(x: int32, y: int32) | Drop(x: int32, y: int32)

  /** One call of `setLayoutParams`: the view and the layout it was given. */
  datatype Applied = Applied(view: ViewId, layout: Layout)

  /** The fields that only the setters change. */
  datatype Settings = Settings(
    screenHeight: int32,
    screenWidth: int32,
    marginTop: int32,
    vibrateDuration: int32,
    yOffset: int32,
    initialPosition: int32,
    canDrag: bool,
    hasListener: bool,
    hasVibrator: bool)

  /** A pair of `int` coordinates: `crashX`/`crashY`, `x`/`y` or `offset_x`/`offset_y`. */
  datatype Point = Point(x: int32, y: int32)

  /** What the helper did to the outside world, in order. */
  datatype Effects = Effects(calls: seq<DragCall>, applied: seq<Applied>, vibrations: seq<int32>)

  /**
   * The fields of `DragDropTouchView`: `frame` holds `leftX`, `topY`,
   * `rightX` and `bottomY`; `crash` the last raw position; `pos` the
   * computed `x` and `y`; `offset` the raw position of the DOWN that started
   * the drag.
   */
  datatype DragState = DragState(
    status: DragStatus,
    settings: Settings,
    frame: Bounds,
    crash: Point,
    pos: Point,
    offset: Point,
    lastPosition: int32,
    selectedItem: Option<ViewId>,
    lp: Layout,
    effects: Effects)

  /** A drag in progress always has a selected view to move. */
  predicate Valid(s: DragState)
  {
    s.status == StartDragging ==> s.selectedItem.Some?
  }

  /** The listener call, when a listener is set. */
  function Report(s: DragState, call: DragCall): (r: DragState)
    ensures r.effects.calls == if s.settings.hasListener then s.effects.calls + [call] else s.effects.calls
    ensures r == s.(effects := r.effects) && r.effects == s.effects.(calls := r.effects.calls)
  {
    if s.settings.hasListener then s.(effects := s.effects.(calls := s.effects.calls + [call])) else s
  }

  /** `setLayoutParams(lp)` on view `v`, after the layout became `lp`. */
  function Apply(s: DragState, v: ViewId, lp: Layout): (r: DragState)
    ensures r.lp == lp && r.effects.applied == s.effects.applied + [Applied(v, lp)]
    ensures r == s.(lp := lp, effects := s.effects.(applied := r.effects.applied))
  {
    s.(lp := lp, effects := s.effects.(applied := s.effects.applied + [Applied(v, lp)]))
  }

  /**
   * The layout a move to (`x`, `y`) asks for: the target's size, and either
   * both margins or, vertically only, the top margin with a matching
   * negative bottom margin when `y` is at or below the top delimiter less the
   * top margin.
   */
  function MoveLayout(b: Binding, lp: Layout, lastPosition: int32, marginTop: int32, x: int32, y: int32): (r: Layout)
    ensures r.height == b.height && r.width == b.width
    ensures b.allowHorizontal ==> r.leftMargin == x && r.topMargin == y && r.rightMargin == 0 && r.bottomMargin == 0
    ensures !b.allowHorizontal && y >= Wrap32(lastPosition - marginTop) ==>
              r.leftMargin == 0 && r.topMargin == y && r.rightMargin == 0 && r.bottomMargin == Wrap32(-(y as int))
    ensures !b.allowHorizontal && y < Wrap32(lastPosition - marginTop) ==>
              r == lp.(height := b.height, width := b.width)
  {
    var lp0 := lp.(height := b.height, width := b.width);
    if b.allowHorizontal then SetMargins(lp0, x, y, 0, 0)
    else if y >= Wrap32(lastPosition - marginTop) then SetMargins(lp0, 0, y, 0, Wrap32(-(y as int)))
    else lp0
  }

  function Min(a: int32, b: int32): (m: int32)
    ensures m <= a && m <= b && (m == a || m == b)
  {
    if a > b then b else a
  }

  /** The position of the target for the last raw position: how far the finger moved since DOWN. */
  function Displacement(s: DragState): (r: Point)
    ensures MinInt32 <= s.crash.x - s.offset.x <= MaxInt32 ==> r.x + s.offset.x == s.crash.x
    ensures MinInt32 <= s.crash.y - s.offset.y <= MaxInt32 ==> r.y + s.offset.y == s.crash.y
  {
    Point(Wrap32(s.crash.x - s.offset.x), Wrap32(s.crash.y - s.offset.y))
  }

  /**
   * `ACTION_MOVE` of the container's handler, the raw position already read.
   * At or below the top margin the position is clamped to the screen and the
   * selected view laid out there; above it nothing moves. Either way the
   * listener hears of the position.
   */
  function MoveSpec(b: Binding, s: DragState): (r: DragState)
    requires Valid(s) && s.status == StartDragging
    ensures var d := Displacement(s);
            d.y >= s.settings.marginTop ==>
              r.pos == Point(Min(d.x, s.settings.screenWidth), Min(d.y, s.settings.screenHeight))
              && r.lp == MoveLayout(b, s.lp, s.lastPosition, s.settings.marginTop, r.pos.x, r.pos.y)
              && r.effects.applied == s.effects.applied + [Applied(s.selectedItem.value, r.lp)]
    ensures var d := Displacement(s);
            d.y < s.settings.marginTop ==>
              r.pos == d && r.lp == s.lp && r.effects.applied == s.effects.applied
    ensures r.effects.calls == if s.settings.hasListener then s.effects.calls + [Dragging(r.pos.x, r.pos.y)] else s.effects.calls
    ensures r == s.(pos := r.pos, lp := r.lp, effects := r.effects)
  {
    var x := Wrap32(s.crash.x - s.offset.x);
    var y := Wrap32(s.crash.y - s.offset.y);
    if y >= s.settings.marginTop then
      var x1 := if x > s.settings.screenWidth then s.settings.screenWidth else x;
      var y1 := if y > s.settings.screenHeight then s.settings.screenHeight else y;
      var lp := MoveLayout(b, s.lp, s.lastPosition, s.settings.marginTop, x1, y1);
      Report(Apply(s.(pos := Point(x1, y1)), s.selectedItem.value, lp), Dragging(x1, y1))
    else
      Report(s.(pos := Point(x, y)), Dragging(x, y))
  }

  /**
   * `ACTION_UP` of the container's handler, the raw position already read.
   * The drop position is stored as the top delimiter before the restore test
   * compares against it, so the target is put back at its initial position
   * exactly when `y + marginTop` (in `int` arithmetic) is at least `y`.
   */
  function DropSpec(s: DragState): (r: DragState)
    requires Valid(s) && s.status == StartDragging
    ensures r.status == StopDragging
    ensures r.pos == Displacement(s) && r.lastPosition == r.pos.y
    ensures r.pos.y <= Wrap32(r.pos.y + s.settings.marginTop) ==>
              r.lp == SetMargins(s.lp, 0, s.settings.initialPosition, 0, 0)
              && r.effects.applied == s.effects.applied + [Applied(s.selectedItem.value, r.lp)]
    ensures r.pos.y > Wrap32(r.pos.y + s.settings.marginTop) ==> r.lp == s.lp && r.effects.applied == s.effects.applied
    ensures r.effects.calls == if s.settings.hasListener then s.effects.calls + [Drop(r.pos.x, r.pos.y)] else s.effects.calls
    ensures r == s.(status := r.status, pos := r.pos, lastPosition := r.lastPosition, lp := r.lp, effects := r.effects)
  {
    var x := Wrap32(s.crash.x - s.offset.x);
    var y := Wrap32(s.crash.y - s.offset.y);
    var s1 := s.(pos := Point(x, y), lastPosition := y, status := StopDragging);
    var s2 :=
      if s1.pos.y <= Wrap32(s1.lastPosition + s1.settings.marginTop) then
        Apply(s1, s1.selectedItem.value, SetMargins(s1.lp, 0, s1.settings.initialPosition, 0, 0))
      else s1;
    Report(s2, Drop(x, s2.lastPosition))
  }

  /**
   * Where the drop lands does not decide whether the target is put back:
   * without overflow, it is put back exactly when the top margin is not
   * negative.
   */
  lemma DropRestoreIgnoresPosition(s: DragState)
    requires Valid(s) && s.status == StartDragging
    requires MinInt32 <= Displacement(s).y + s.settings.marginTop <= MaxInt32
    ensures var r := DropSpec(s);
            (r.lp == SetMargins(s.lp, 0, s.settings.initialPosition, 0, 0) && |r.effects.applied| == |s.effects.applied| + 1)
            <==> s.settings.marginTop >= 0
  {
  }

  /**
   * The container's `onTouch`. Outside a drag it does nothing; during one it
   * records the raw position and handles DOWN (read the target's frame,
   * report the start), MOVE and UP. It always returns true.
   */
  function ContainerTouch(b: Binding, s: DragState, e: TouchEvent, target: Bounds): (r: DragState)
    requires Valid(s)
    ensures s.status == StopDragging ==> r == s
    ensures Valid(r)
    ensures r.selectedItem == s.selectedItem && r.settings == s.settings && r.offset == s.offset
    ensures r.status == StartDragging ==> s.status == StartDragging
    ensures s.status == StartDragging && e.action.Up? ==> r.status == StopDragging && r.lastPosition == r.pos.y
    ensures r.effects.vibrations == s.effects.vibrations
    // a layout is only ever applied to the selected view
    ensures r.effects.applied == s.effects.applied
            || (s.selectedItem.Some? && r.effects.applied == s.effects.applied + [Applied(s.selectedItem.value, r.lp)])
    // the target's top margin moves only into the band below the top margin, or back to the initial position
    ensures r.lp.topMargin == s.lp.topMargin || r.lp.topMargin == s.settings.initialPosition
            || (s.settings.marginTop <= s.settings.screenHeight ==>
                  s.settings.marginTop <= r.lp.topMargin <= s.settings.screenHeight)
    // vertically only, the left margin is never moved off 0
    ensures !b.allowHorizontal && s.lp.leftMargin == 0 ==> r.lp.leftMargin == 0
  {
    if s.status != StartDragging then s
    else
      var s1 := s.(crash := Point(FloatToInt(e.rawX), FloatToInt(e.rawY)));
      match e.action
      case Down => Report(s1.(frame := target), DragStart(s1.crash.x, s1.crash.y))
      case Move => MoveSpec(b, s1)
      case Up => DropSpec(s1)
      case Other => s1
  }

  /**
   * The target's `onTouch` (the helper's own), for a touch on view `v`:
   * DOWN starts a drag on `v`, vibrating if a vibrator is set, and records
   * the raw position as the offset; UP stops it; with dragging disabled any
   * event stops it. It always returns false, so that the event goes on to
   * the container.
   */
  function TargetTouch(s: DragState, v: ViewId, e: TouchEvent): (r: DragState)
    ensures !s.settings.canDrag ==> r == s.(status := StopDragging)
    ensures s.settings.canDrag && e.action.Down? ==>
              r.status == StartDragging && r.selectedItem == Some(v)
              && r.offset == Point(FloatToInt(e.rawX), FloatToInt(e.rawY))
              && r.effects.vibrations
                   == (if s.settings.hasVibrator then s.effects.vibrations + [s.settings.vibrateDuration] else s.effects.vibrations)
    ensures s.settings.canDrag && e.action.Up? ==> r == s.(status := StopDragging, selectedItem := None)
    ensures s.settings.canDrag && (e.action.Move? || e.action.Other?) ==> r == s
    ensures r.lp == s.lp && r.settings == s.settings
    ensures r.effects.applied == s.effects.applied && r.effects.calls == s.effects.calls
    ensures Valid(s) ==> Valid(r)
  {
    if s.settings.canDrag then
      match e.action
      case Down =>
        var s1 := s.(status := StartDragging);
        var s2 :=
          if s1.settings.hasVibrator then
            s1.(effects := s1.effects.(vibrations := s1.effects.vibrations + [s1.settings.vibrateDuration]))
          else s1;
        s2.(offset := Point(FloatToInt(e.rawX), FloatToInt(e.rawY)), selectedItem := Some(v))
      case Up => s.(status := StopDragging, selectedItem := None)
      case _ => s
    else s.(status := StopDragging)
  }

  /** One touch delivered either to the target view or to the container. */
  datatype Delivery =
    | ToTarget(view: ViewId, event: TouchEvent)
    | ToContainer(event: TouchEvent, frame: Bounds)

  function Deliver(b: Binding, s: DragState, t: Delivery): (r: DragState)
    requires Valid(s)
    ensures Valid(r) && r.settings == s.settings
  {
    match t
    case ToTarget(v, e) => TargetTouch(s, v, e)
    case ToContainer(e, frame) => ContainerTouch(b, s, e, frame)
  }

  /** A sequence of touches, delivered in order. */
  function Session(b: Binding, s: DragState, touches: seq<Delivery>): (r: DragState)
    requires Valid(s)
    ensures Valid(r)
    decreases |touches|
  {
    if touches == [] then s
    else Session(b, Deliver(b, s, touches[0]), touches[1..])
  }

  /** The top margin lies in the band the container's handler moves the target into, or at the initial position. */
  predicate TopInBand(s: DragState)
  {
    s.lp.topMargin == s.settings.initialPosition
    || s.settings.marginTop <= s.lp.topMargin <= s.settings.screenHeight
  }

  /**
   * However the touches are interleaved, a target whose top margin starts in
   * the band below the top margin (or at its initial position) stays there,
   * and in vertical-only mode its left margin stays 0.
   */
  lemma {:induction false} SessionKeepsTargetInBand(b: Binding, s: DragState, touches: seq<Delivery>)
    requires Valid(s) && TopInBand(s) && s.settings.marginTop <= s.settings.screenHeight
    ensures TopInBand(Session(b, s, touches))
    ensures !b.allowHorizontal && s.lp.leftMargin == 0 ==> Session(b, s, touches).lp.leftMargin == 0
    decreases |touches|
  {
    if touches != [] {
      SessionKeepsTargetInBand(b, Deliver(b, s, touches[0]), touches[1..]);
    }
  }

  /**
   * The helper object. Its fields are those of the source, grouped into the
   * records above: `settings` holds what only the setters change, `frame`
   * the target's frame read on DOWN, `crash`, `pos` and `offset` the raw,
   * computed and starting positions, and `effects` what was sent outside.
   */
  class DragDropTouchView {
    var status: DragStatus
    var settings: Settings
    var frame: Bounds
    var crash: Point
    var pos: Point
    var offset: Point
    var lastPosition: int32
    var selectedItem: Option<ViewId>
    var lp: Layout
    var effects: Effects
    /** The container handler installed by `init`, if any. */
    var binding: Option<Binding>

    function State(): DragState
      reads this
    {
      DragState(status, settings, frame, crash, pos, offset, lastPosition, selectedItem, lp, effects)
    }

    /** The field initialisers: not dragging, every `int` 0 but the 35 ms vibration, dragging allowed. */
    constructor ()
      ensures State() == DragState(StopDragging, Settings(0, 0, 0, 35, 0, 0, true, false, false),
                                   Bounds(0, 0, 0, 0), Point(0, 0), Point(0, 0), Point(0, 0), 0,
                                   None, FreshLayout, Effects([], [], []))
      ensures binding == None
    {
      status := StopDragging;
      settings := Settings(0, 0, 0, 35, 0, 0, true, false, false);
      frame := Bounds(0, 0, 0, 0);
      crash, pos, offset := Point(0, 0), Point(0, 0), Point(0, 0);
      lastPosition := 0;
      selectedItem := None;
      lp := FreshLayout;
      effects := Effects([], [], []);
      binding := None;
    }

    /**
     * `init(container, target, allowHorizontal)` for a target of the given
     * size: captures the target's height plus the vertical offset and its
     * width, and starts from fresh layout parameters. The view keeps one
     * container handler: a later `init` replaces the binding of an earlier one.
     */
    method Init(target: ViewId, targetHeight: int32, targetWidth: int32, allowHorizontal: bool)
      modifies this
      ensures binding == Some(Binding(target, Wrap32(targetHeight + settings.yOffset), targetWidth, allowHorizontal))
      ensures State() == old(State()).(lp := FreshLayout)
    {
      var height := Wrap32(targetHeight + settings.yOffset);
      var width := targetWidth;
      lp := FreshLayout;
      binding := Some(Binding(target, height, width, allowHorizontal));
    }

    /** The container's `onTouch`; `target` is the target's frame at the time of the event. */
    method ContainerOnTouch(e: TouchEvent, target: Bounds) returns (handled: bool)
      requires binding.Some? && Valid(State())
      modifies this
      ensures handled
      ensures binding == old(binding)
      ensures State() == ContainerTouch(binding.value, old(State()), e, target)
    {
      var b := binding.value;
      if status == StartDragging {
        crash := Point(FloatToInt(e.rawX), FloatToInt(e.rawY));
        match e.action {
          case Down =>
            frame := target;
            if settings.hasListener {
              effects := effects.(calls := effects.calls + [DragStart(crash.x, crash.y)]);
            }
          case Move =>
            ContainerMove(b);
          case Up =>
            ContainerDrop();
          case Other =>
        }
      }
      return true;
    }

    /** The `ACTION_MOVE` branch of the container's handler. */
    method ContainerMove(b: Binding)
      requires Valid(State()) && status == StartDragging
      modifies this
      ensures binding == old(binding)
      ensures State() == MoveSpec(b, old(State()))
    {
      pos := Point(Wrap32(crash.x - offset.x), Wrap32(crash.y - offset.y));
      if pos.y >= settings.marginTop {
        MoveTarget(b);
      }
      if settings.hasListener {
        effects := effects.(calls := effects.calls + [Dragging(pos.x, pos.y)]);
      }
    }

    /** The part of `ACTION_MOVE` that clamps the position and lays the selected view out there. */
    method MoveTarget(b: Binding)
      requires selectedItem.Some?
      modifies this
      ensures pos == Point(Min(old(pos).x, settings.screenWidth), Min(old(pos).y, settings.screenHeight))
      ensures lp == MoveLayout(b, old(lp), lastPosition, settings.marginTop, pos.x, pos.y)
      ensures State() == Apply(old(State()).(pos := pos), old(selectedItem).value, lp)
      ensures binding == old(binding)
    {
      if pos.x > settings.screenWidth {
        pos := pos.(x := settings.screenWidth);
      }
      if pos.y > settings.screenHeight {
        pos := pos.(y := settings.screenHeight);
      }
      LayOutTarget(b);
    }

    /** Give the layout the target's size and the margins for the current position, and apply it to the selected view. */
    method LayOutTarget(b: Binding)
      requires selectedItem.Some?
      modifies this
      ensures lp == MoveLayout(b, old(lp), lastPosition, settings.marginTop, pos.x, pos.y)
      ensures State() == Apply(old(State()), old(selectedItem).value, lp)
      ensures binding == old(binding)
    {
      lp := lp.(height := b.height, width := b.width);
      if b.allowHorizontal {
        lp := SetMargins(lp, pos.x, pos.y, 0, 0);
      } else {
        if pos.y >= Wrap32(lastPosition - settings.marginTop) {
          lp := SetMargins(lp, 0, pos.y, 0, Wrap32(-(pos.y as int)));
        }
      }
      effects := effects.(applied := effects.applied + [Applied(selectedItem.value, lp)]);
    }

    /** The `ACTION_UP` branch of the container's handler. */
    method ContainerDrop()
      requires Valid(State()) && status == StartDragging
      modifies this
      ensures binding == old(binding)
      ensures State() == DropSpec(old(State()))
    {
      pos := Point(Wrap32(crash.x - offset.x), Wrap32(crash.y - offset.y));
      lastPosition := pos.y;
      status := StopDragging;
      if pos.y <= Wrap32(lastPosition + settings.marginTop) {
        lp := SetMargins(lp, 0, settings.initialPosition, 0, 0);
        effects := effects.(applied := effects.applied + [Applied(selectedItem.value, lp)]);
      }
      if settings.hasListener {
        effects := effects.(calls := effects.calls + [Drop(pos.x, lastPosition)]);
      }
    }

    /** The target's `onTouch` for a touch on view `v`. */
    method OnTouch(v: ViewId, e: TouchEvent) returns (handled: bool)
      modifies this
      ensures !handled
      ensures binding == old(binding)
      ensures State() == TargetTouch(old(State()), v, e)
    {
      if settings.canDrag {
        match e.action {
          case Down =>
            status := StartDragging;
            if settings.hasVibrator {
              effects := effects.(vibrations := effects.vibrations + [settings.vibrateDuration]);
            }
            offset := Point(FloatToInt(e.rawX), FloatToInt(e.rawY));
            selectedItem := Some(v);
          case Up =>
            status := StopDragging;
            selectedItem := None;
          case _ =>
        }
      } else {
        status := StopDragging;
      }
      return false;
    }

    /** `setDragListener(dl)`: `present` says whether `dl` is non-null; a null listener clears it. */
    method SetDragListener(present: bool)
      modifies this
      ensures State() == old(State()).(settings := old(settings).(hasListener := present)) && binding == old(binding)
    {
      settings := settings.(hasListener := present);
    }

    method RemoveDragListener()
      modifies this
      ensures State() == old(State()).(settings := old(settings).(hasListener := false)) && binding == old(binding)
    {
      settings := settings.(hasListener := false);
    }

    method CanDrag(drag: bool)
      modifies this
      ensures State() == old(State()).(settings := old(settings).(canDrag := drag)) && binding == old(binding)
    {
      settings := settings.(canDrag := drag);
    }

    method SetTopMargin(margin: int32)
      modifies this
      ensures State() == old(State()).(settings := old(settings).(marginTop := margin)) && binding == old(binding)
    {
      settings := settings.(marginTop := margin);
    }

    method SetScreenSizes(width: int32, height: int32)
      modifies this
      ensures State() == old(State()).(settings := old(settings).(screenWidth := width, screenHeight := height))
      ensures binding == old(binding)
    {
      settings := settings.(screenWidth := width, screenHeight := height);
    }

    method SetYOffset(offset: int32)
      modifies this
      ensures State() == old(State()).(settings := old(settings).(yOffset := offset)) && binding == old(binding)
    {
      settings := settings.(yOffset := offset);
    }

    method SetVibrator(present: bool)
      modifies this
      ensures State() == old(State()).(settings := old(settings).(hasVibrator := present)) && binding == old(binding)
    {
      settings := settings.(hasVibrator := present);
    }

    method SetVibrationDuration(duration: int32)
      modifies this
      ensures State() == old(State()).(settings := old(settings).(vibrateDuration := duration)) && binding == old(binding)
    {
      settings := settings.(vibrateDuration := duration);
    }

    method SetTopDelimeter(top: int32)
      modifies this
      ensures State() == old(State()).(lastPosition := top) && binding == old(binding)
    {
      lastPosition := top;
    }

    method SetInitialPosition(position: int32)
      modifies this
      ensures State() == old(State()).(settings := old(settings).(initialPosition := position)) && binding == old(binding)
    {
      settings := settings.(initialPosition := position);
    }
  }
}
