/**
 * The shake detector (`ShakeEventListener`): a debounce state machine over
 * accelerometer samples. A sample counts as a movement when the change of the
 * summed axes exceeds a minimum force; movements that follow each other
 * closely enough are counted, and enough of them within a total duration make
 * a shake.
 *
 * The clock is the parameter `now` (milliseconds, a `long`); sensor values are
 * exact reals standing for the source's `float`s. The listener is either
 * present or null; calling it when it is null throws, and the model says
 * where.
 */
module Shake {
  import opened JavaInt

  /** The two callbacks of `OnShakeListener`. */
  datatype Callback = OnShake | OnStopShake

  /** The four tuning parameters, each with its own setter. */
  datatype Thresholds = Thresholds(
    minForce: int32,
    minDirectionChange: int32,
    maxPauseBetweenDirectionChange: int32,
    maxTotalDurationOfShake: int32)

  const DefaultThresholds := Thresholds(10, 3, 200, 400)

  /** The gesture in progress: its first and last movement times, the movement count and the last sample. */
  datatype Gesture = Gesture(
    firstDirectionChangeTime: int64,
    lastDirectionChangeTime: int64,
    directionChangeCount: int32,
    lastX: real,
    lastY: real,
    lastZ: real)

  /** The state `resetShakeParameters` leaves: everything zero. */
  const Idle := Gesture(0, 0, 0, 0.0, 0.0, 0.0)

  /** What one call does: the new gesture state, the callbacks made, in order, and whether a null listener was called. */
  datatype StepResult = StepResult(next: Gesture, fired: seq<Callback>, threw: bool)

  /** How far the summed axes moved since the last stored sample. */
  function Movement(g: Gesture, x: real, y: real, z: real): real
  {
    AbsReal(x + y + z - g.lastX - g.lastY - g.lastZ)
  }

  /** The sample moved more than the minimum force; the stored sample itself never does. */
  predicate Qualifies(t: Thresholds, g: Gesture, x: real, y: real, z: real)
    ensures t.minForce >= 0 && x == g.lastX && y == g.lastY && z == g.lastZ ==> !Qualifies(t, g, x, y, z)
  {
    Movement(g, x, y, z) > t.minForce as real
  }

  /** The first and last movement times once a qualifying sample at `now` has been seen. */
  function StartTime(g: Gesture, now: int64): int64
  {
    if g.firstDirectionChangeTime == 0 then now else g.firstDirectionChangeTime
  }

  function LastTime(g: Gesture, now: int64): int64
  {
    if g.firstDirectionChangeTime == 0 then now else g.lastDirectionChangeTime
  }

  /** The last movement was not long ago. */
  predicate WithinPause(t: Thresholds, g: Gesture, now: int64)
    // the first movement of a gesture is always within the pause
    ensures g.firstDirectionChangeTime == 0 && t.maxPauseBetweenDirectionChange > 0 ==> WithinPause(t, g, now)
  {
    Wrap64(now - LastTime(g, now)) < t.maxPauseBetweenDirectionChange
  }

  /** The gesture after counting a movement at `now`. */
  function Counted(g: Gesture, x: real, y: real, z: real, now: int64): (r: Gesture)
    ensures r.directionChangeCount == Wrap32(g.directionChangeCount + 1) && r.lastDirectionChangeTime == now
    ensures g.firstDirectionChangeTime != 0 ==> r.firstDirectionChangeTime == g.firstDirectionChangeTime
    // the sample just counted is no movement relative to the new gesture
    ensures Movement(r, x, y, z) == 0.0
  {
    Gesture(StartTime(g, now), now, Wrap32(g.directionChangeCount + 1), x, y, z)
  }

  /** Counting this movement completes a shake: enough movements, quickly enough. */
  predicate CompletesShake(t: Thresholds, g: Gesture, now: int64)
    // the first movement from idle completes a shake only when one movement is enough
    ensures g == Idle && t.maxTotalDurationOfShake > 0 ==> (CompletesShake(t, g, now) <==> t.minDirectionChange <= 1)
  {
    Wrap32(g.directionChangeCount + 1) >= t.minDirectionChange
    && Wrap64(now - StartTime(g, now)) < t.maxTotalDurationOfShake
  }

  /** `resetShakeParameters`: zero the gesture, then tell the listener the shake stopped. */
  function Reset(hasListener: bool): (r: StepResult)
    ensures r.next == Idle
    ensures r.fired == (if hasListener then [OnStopShake] else [])
    ensures r.threw == !hasListener
  {
    StepResult(Idle, if hasListener then [OnStopShake] else [], !hasListener)
  }

  /**
   * `onSensorChanged` for the sample (x, y, z) taken at `now`.
   * A quiet sample changes nothing. A movement soon enough after the last one
   * is counted and stored, and fires `onShake` (followed by a reset) when it
   * completes a shake; a movement after too long a pause resets the gesture.
   */
  function Step(t: Thresholds, g: Gesture, x: real, y: real, z: real, now: int64, hasListener: bool): (r: StepResult)
    // a sample that is not a movement changes nothing and calls nobody
    ensures !Qualifies(t, g, x, y, z) ==> r == StepResult(g, [], false)
    // a movement soon enough after the last one is counted: one more, last time `now`, sample stored,
    // and the first movement time set to `now` when the gesture was idle
    ensures Qualifies(t, g, x, y, z) && WithinPause(t, g, now) && !CompletesShake(t, g, now) ==>
              r == StepResult(Counted(g, x, y, z, now), [], false)
    // a movement after too long a pause resets the gesture and reports the stop
    ensures Qualifies(t, g, x, y, z) && !WithinPause(t, g, now) ==> r == Reset(hasListener)
    // a shake is reported exactly when a counted movement completes one, and it is followed by a reset
    ensures OnShake in r.fired <==>
              hasListener && Qualifies(t, g, x, y, z) && WithinPause(t, g, now) && CompletesShake(t, g, now)
    ensures OnShake in r.fired ==> r.fired == [OnShake, OnStopShake] && r.next == Idle
    // with no listener, the completing movement is stored before the call to `onShake` throws
    ensures !hasListener && Qualifies(t, g, x, y, z) && WithinPause(t, g, now) && CompletesShake(t, g, now) ==>
              r == StepResult(Counted(g, x, y, z, now), [], true)
    // the count either stays, grows by exactly one, or drops to 0
    ensures r.next.directionChangeCount in {g.directionChangeCount, Wrap32(g.directionChangeCount + 1), 0}
    // a null listener is called exactly when a callback is due
    ensures r.threw <==>
              !hasListener && Qualifies(t, g, x, y, z) && (!WithinPause(t, g, now) || CompletesShake(t, g, now))
  {
    if !Qualifies(t, g, x, y, z) then StepResult(g, [], false)
    else if WithinPause(t, g, now) then
      var counted := Counted(g, x, y, z, now);
      if CompletesShake(t, g, now) then
        if !hasListener then StepResult(counted, [], true)
        else
          var reset := Reset(hasListener);
          StepResult(reset.next, [OnShake] + reset.fired, reset.threw)
      else StepResult(counted, [], false)
    else Reset(hasListener)
  }

  /** One accelerometer sample and the time it was taken. */
  datatype Sample = Sample(x: real, y: real, z: real, now: int64)

  /** A listener-equipped detector fed `samples` in order: the final gesture and every callback made. */
  function Run(t: Thresholds, g: Gesture, samples: seq<Sample>): (Gesture, seq<Callback>)
    decreases |samples|
  {
    if samples == [] then (g, [])
    else
      var s := samples[0];
      var r := Step(t, g, s.x, s.y, s.z, s.now, true);
      var rest := Run(t, r.next, samples[1..]);
      (rest.0, r.fired + rest.1)
  }

  function Shakes(fired: seq<Callback>): nat
  {
    multiset(fired)[OnShake]
  }

  /** The part of the count that can still go toward a shake. */
  function Credit(g: Gesture): nat
  {
    if g.directionChangeCount < 0 then 0 else g.directionChangeCount
  }

  /** Each shake uses up at least `minDirectionChange` movements of credit, and a sample adds at most one. */
  lemma StepCredit(t: Thresholds, g: Gesture, s: Sample)
    requires t.minDirectionChange >= 1
    ensures var r := Step(t, g, s.x, s.y, s.z, s.now, true);
            Shakes(r.fired) * t.minDirectionChange + Credit(r.next) <= Credit(g) + 1
  {
    var r := Step(t, g, s.x, s.y, s.z, s.now, true);
    if OnShake in r.fired {
      assert r.fired == [OnShake, OnStopShake];
      assert Shakes(r.fired) == 1;
      assert Wrap32(g.directionChangeCount + 1) >= t.minDirectionChange;
    } else {
      assert Shakes(r.fired) == 0;
    }
  }

  /**
   * Over any run of samples with a listener set, the shakes reported times
   * `minDirectionChange` never exceed the credit at the start plus the number
   * of samples: a shake needs at least `minDirectionChange` movements.
   */
  lemma {:induction false} ShakesNeedMovements(t: Thresholds, g: Gesture, samples: seq<Sample>)
    requires t.minDirectionChange >= 1
    ensures Shakes(Run(t, g, samples).1) * t.minDirectionChange + Credit(Run(t, g, samples).0) <= Credit(g) + |samples|
    decreases |samples|
  {
    if samples != [] {
      var s := samples[0];
      var r := Step(t, g, s.x, s.y, s.z, s.now, true);
      var rest := Run(t, r.next, samples[1..]);
      StepCredit(t, g, s);
      ShakesNeedMovements(t, r.next, samples[1..]);
      assert Run(t, g, samples) == (rest.0, r.fired + rest.1);
      assert multiset(r.fired + rest.1) == multiset(r.fired) + multiset(rest.1);
      var a, b, m := Shakes(r.fired), Shakes(rest.1), t.minDirectionChange as int;
      assert Shakes(r.fired + rest.1) == a + b;
      Distribute(a, b, m);
    }
  }

  lemma Distribute(a: int, b: int, m: int)
    ensures (a + b) * m == a * m + b * m
  {
  }

  class ShakeEventListener {
    var minForce: int32
    var minDirectionChange: int32
    var maxPauseBetweenDirectionChange: int32
    var maxTotalDurationOfShake: int32

    var firstDirectionChangeTime: int64
    var lastDirectionChangeTime: int64
    var directionChangeCount: int32
    var lastX: real
    var lastY: real
    var lastZ: real

    /** Whether `mShakeListener` is non-null. */
    var hasListener: bool
    /** The calls made to the listener so far, oldest first. */
    var callbacks: seq<Callback>

    function CurrentThresholds(): Thresholds
      reads this
    {
      Thresholds(minForce, minDirectionChange, maxPauseBetweenDirectionChange, maxTotalDurationOfShake)
    }

    function CurrentGesture(): Gesture
      reads this
    {
      Gesture(firstDirectionChangeTime, lastDirectionChangeTime, directionChangeCount, lastX, lastY, lastZ)
    }

    constructor ()
      ensures CurrentThresholds() == DefaultThresholds
      ensures CurrentGesture() == Idle
      ensures !hasListener && callbacks == []
    {
      minForce := 10;
      minDirectionChange := 3;
      maxPauseBetweenDirectionChange := 200;
      maxTotalDurationOfShake := 400;
      firstDirectionChangeTime := 0;
      lastDirectionChangeTime := 0;
      directionChangeCount := 0;
      lastX, lastY, lastZ := 0.0, 0.0, 0.0;
      hasListener := false;
      callbacks := [];
    }

    method SetOnShakeListener(present: bool)
      modifies this
      ensures hasListener == present
      ensures CurrentThresholds() == old(CurrentThresholds()) && CurrentGesture() == old(CurrentGesture())
      ensures callbacks == old(callbacks)
    {
      hasListener := present;
    }

    /** `resetShakeParameters`. */
    method ResetShakeParameters() returns (threw: bool)
      modifies this
      ensures var r := Reset(old(hasListener));
              CurrentGesture() == r.next && callbacks == old(callbacks) + r.fired && threw == r.threw
      ensures CurrentThresholds() == old(CurrentThresholds()) && hasListener == old(hasListener)
    {
      firstDirectionChangeTime := 0;
      directionChangeCount := 0;
      lastDirectionChangeTime := 0;
      lastX := 0.0;
      lastY := 0.0;
      lastZ := 0.0;
      if !hasListener {
        return true;
      }
      callbacks := callbacks + [OnStopShake];
      threw := false;
    }

    /** `onSensorChanged` for the sample (x, y, z), taken at time `now`. */
    method OnSensorChanged(x: real, y: real, z: real, now: int64) returns (threw: bool)
      modifies this
      ensures var r := Step(old(CurrentThresholds()), old(CurrentGesture()), x, y, z, now, old(hasListener));
              CurrentGesture() == r.next && callbacks == old(callbacks) + r.fired && threw == r.threw
      ensures CurrentThresholds() == old(CurrentThresholds()) && hasListener == old(hasListener)
    {
      var totalMovement := AbsReal(x + y + z - lastX - lastY - lastZ);
      threw := false;
      if totalMovement > minForce as real {
        threw := OnMovement(x, y, z, now);
      }
    }

    /** The body of `onSensorChanged` once the sample is a movement. */
    method OnMovement(x: real, y: real, z: real, now: int64) returns (threw: bool)
      requires Qualifies(CurrentThresholds(), CurrentGesture(), x, y, z)
      modifies this
      ensures var r := Step(old(CurrentThresholds()), old(CurrentGesture()), x, y, z, now, old(hasListener));
              CurrentGesture() == r.next && callbacks == old(callbacks) + r.fired && threw == r.threw
      ensures CurrentThresholds() == old(CurrentThresholds()) && hasListener == old(hasListener)
    {
      ghost var t, g := CurrentThresholds(), CurrentGesture();
      threw := false;
      if firstDirectionChangeTime == 0 {
        firstDirectionChangeTime := now;
        lastDirectionChangeTime := now;
      }
      assert firstDirectionChangeTime == StartTime(g, now) && lastDirectionChangeTime == LastTime(g, now);
      var lastChangeWasAgo := Wrap64(now - lastDirectionChangeTime);
      if lastChangeWasAgo < maxPauseBetweenDirectionChange {
        assert WithinPause(t, g, now);
        threw := CountMovement(x, y, z, now, g);
      } else {
        assert !WithinPause(t, g, now);
        threw := ResetShakeParameters();
      }
    }

    /** A movement soon enough after the last one: count it, and report a shake when it completes one. */
    method CountMovement(x: real, y: real, z: real, now: int64, ghost g: Gesture) returns (threw: bool)
      requires firstDirectionChangeTime == StartTime(g, now) && lastDirectionChangeTime == LastTime(g, now)
      requires directionChangeCount == g.directionChangeCount
      modifies this
      ensures var r := if CompletesShake(old(CurrentThresholds()), g, now) then
                         (if old(hasListener) then StepResult(Idle, [OnShake, OnStopShake], false)
                          else StepResult(Counted(g, x, y, z, now), [], true))
                       else StepResult(Counted(g, x, y, z, now), [], false);
              CurrentGesture() == r.next && callbacks == old(callbacks) + r.fired && threw == r.threw
      ensures CurrentThresholds() == old(CurrentThresholds()) && hasListener == old(hasListener)
    {
      ghost var t := CurrentThresholds();
      threw := false;
      lastDirectionChangeTime := now;
      directionChangeCount := Wrap32(directionChangeCount + 1);
      lastX := x;
      lastY := y;
      lastZ := z;
      assert CurrentGesture() == Counted(g, x, y, z, now);
      if directionChangeCount >= minDirectionChange {
        var totalDuration := Wrap64(now - firstDirectionChangeTime);
        if totalDuration < maxTotalDurationOfShake {
          assert CompletesShake(t, g, now);
          if !hasListener {
            return true;
          }
          callbacks := callbacks + [OnShake];
          threw := ResetShakeParameters();
        }
      }
    }

    method SetMinForce(minForce: int32)
      modifies this
      ensures CurrentThresholds() == old(CurrentThresholds()).(minForce := minForce)
      ensures CurrentGesture() == old(CurrentGesture()) && hasListener == old(hasListener) && callbacks == old(callbacks)
    {
      this.minForce := minForce;
    }

    method SetMinDirectionChange(minDirectionChange: int32)
      modifies this
      ensures CurrentThresholds() == old(CurrentThresholds()).(minDirectionChange := minDirectionChange)
      ensures CurrentGesture() == old(CurrentGesture()) && hasListener == old(hasListener) && callbacks == old(callbacks)
    {
      this.minDirectionChange := minDirectionChange;
    }

    method SetMaxPauseBetweenDirectionChange(pause: int32)
      modifies this
      ensures CurrentThresholds() == old(CurrentThresholds()).(maxPauseBetweenDirectionChange := pause)
      ensures CurrentGesture() == old(CurrentGesture()) && hasListener == old(hasListener) && callbacks == old(callbacks)
    {
      maxPauseBetweenDirectionChange := pause;
    }

    method SetMaxTotalDurationOfShake(maxTotalDurationOfShake: int32)
      modifies this
      ensures CurrentThresholds() == old(CurrentThresholds()).(maxTotalDurationOfShake := maxTotalDurationOfShake)
      ensures CurrentGesture() == old(CurrentGesture()) && hasListener == old(hasListener) && callbacks == old(callbacks)
    {
      this.maxTotalDurationOfShake := maxTotalDurationOfShake;
    }

    /** `setmDirectionChangeCount`: overwrites the movement count and nothing else. */
    method SetDirectionChangeCount(count: int32)
      modifies this
      ensures CurrentGesture() == old(CurrentGesture()).(directionChangeCount := count)
      ensures CurrentThresholds() == old(CurrentThresholds()) && hasListener == old(hasListener) && callbacks == old(callbacks)
    {
      directionChangeCount := count;
    }
  }
}
