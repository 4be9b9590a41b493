# UberLib core, modelled in Dafny

A model of the core of UberLib, an Android helper library, with proofs about it.
It covers five classes:

- `RotNEncryption` (`rotn.dfy`): the ROT-N letter cipher. `encrpyt` is a loop over the text, proved against a
  recursive specification. Lemmas give the round trip (`n` then `26 - n`) and composition. Java's `char` and
  `int` arithmetic is written out, including the negative remainder.
- `MyGestureDetector` (`gesture.dfy`): the fling classifier. It throws on a null listener, swallows the
  exception of a missing first event, and reports a left or a right swipe.
- `ShakeEventListener` (`shake.dfy`): the debounce state machine over accelerometer samples. It is a class
  whose `onSensorChanged` is proved against the pure step function `Step`. A lemma bounds the number of shakes
  by the number of samples.
- `CircleSeekBar` (`circle_seek_bar.dfy`): the circular seek bar's state machine. It covers:
  - the mutually recursive `setProgress`/`setAngle`, with their integer percent arithmetic and `Math.round`;
  - `updatePointer`, `initPointerFromPosition` and `init`'s placement of the pointer;
  - the six-way latch transition of `onTouchEvent`'s `ACTION_MOVE`, with the pinning of the pointer.

  Each method of the class is proved against a pure specification function. Lemmas state that the two
  latches are never set together, and that the end latch holds the pointer at `max`.
- `DragDropTouchView` (`drag_drop.dfy`): the drag helper. It covers the target's `onTouch`, which starts and
  ends a drag, and the container's `onTouch`, installed by `init`, which moves the target by rewriting its
  margins. Lemmas cover the target staying in the band below the top margin, over any interleaving of touches.

Shared pieces:

- `java_int.dfy` writes out Java's integer semantics: the `int` and `long` ranges and wrap-around, division
  and remainder that truncate toward zero, and the saturating `(int)` cast of a `float`.
- `wrappers.dfy` holds the `Option` type.

Exceptions the source can raise are part of the model:

- a `NullPointerException` on a null listener;
- an `ArithmeticException` from `/ INTERVAL` or `/ max` when that value is 0.

Each appears as a status or flag in the result, never as a precondition. Outside effects are recorded as
sequences, in order: listener callbacks, `setLayoutParams` calls and vibrations. The clock (`now`), touch
coordinates, sensor values, a view's size and frame, and the angle `atan2` gives are parameters.

The three stateful classes (`ShakeEventListener`, `CircleSeekBar`, `DragDropTouchView`) are Dafny classes
with `modifies` clauses. Each method's postcondition states its whole new state through a specification
function of the old state. In `DragDropTouchView` the source's 23 instance fields (18 `int`, one `boolean` and four object references) are grouped into a few
record-valued fields: settings, target frame, raw, computed and offset positions, and effects. The methods
reassign those records in place.

## Model

| member | source | states |
|---|---|---|
| JavaInt.Abs | UberLib/src/cl/betomaluje/android/uberlib/components/CircleSeekBar.java:615-616 | the magnitude used to state Java's truncating `int` division: never negative, and equal to `x` or `-x` |
| JavaInt.AbsReal | UberLib/src/cl/betomaluje/android/uberlib/ShakeEventListener.java:114 | `Math.abs` of a `float`, on exact reals: never negative, and equal to `r` or `-r`; also used for the tests at MyGestureDetector.java:33-41 |
| JavaInt.Wrap32 | UberLib/src/cl/betomaluje/android/uberlib/ShakeEventListener.java:133 | 32-bit `int` arithmetic such as `mDirectionChangeCount++`: a result inside the `int` range is kept, and the wrapped result differs from the exact one by a multiple of 2^32 |
| JavaInt.Wrap64 | UberLib/src/cl/betomaluje/android/uberlib/ShakeEventListener.java:128 | 64-bit `long` arithmetic such as `now - mLastDirectionChangeTime`: a result inside the `long` range is kept, and the wrapped result differs from the exact one by a multiple of 2^64 |
| JavaInt.Quot | UberLib/src/cl/betomaluje/android/uberlib/components/CircleSeekBar.java:615-616 | Java's `/` on integers truncates toward zero: `|q|·|b| <= |a| < |q|·|b| + |b|`, and `q` is non-negative when `a` and `b` have the same sign and non-positive otherwise |
| JavaInt.Rem | UberLib/src/cl/betomaluje/android/uberlib/security/RotNEncryption.java:32 | Java's `%`: `a == Quot(a, b) * b + r`, `|r| < |b|`, and a non-zero remainder has the sign of the dividend |
| JavaInt.Div32 | UberLib/src/cl/betomaluje/android/uberlib/components/CircleSeekBar.java:615-616 | Java's `int` division equals the quotient truncated toward zero, except for the overflowing `MIN_VALUE / -1` |
| JavaInt.FloatToInt | UberLib/src/cl/betomaluje/android/uberlib/components/DragDropTouchView.java:56-57 | the `(int)` cast: for `v >= 0` the result lies in `0..floor(v)` and equals `floor(v)` inside the `int` range; for `v < 0` it is `<= 0` and, inside the range, within 1 of `v` toward zero |
| RotNEncryption.ToChar16 | UberLib/src/cl/betomaluje/android/uberlib/security/RotNEncryption.java:30-35 | the narrowing to `char` lands in `0..65535`, keeps values already there, and adds 65536 to negative values down to -65536 |
| RotNEncryption.ToLower | UberLib/src/cl/betomaluje/android/uberlib/security/RotNEncryption.java:29 | a letter becomes lower case with the same alphabet index; anything but an upper-case letter is unchanged |
| RotNEncryption.ToUpper | UberLib/src/cl/betomaluje/android/uberlib/security/RotNEncryption.java:36 | a lower-case letter becomes upper case with the same index; anything else, including the characters below 'a' a negative shift produces, is unchanged |
| RotNEncryption.Index | UberLib/src/cl/betomaluje/android/uberlib/security/RotNEncryption.java:29-30 | `letter - 'a'` after lowering the case: every letter maps to an alphabet index in `0..25` |
| RotNEncryption.Letter | UberLib/src/cl/betomaluje/android/uberlib/security/RotNEncryption.java:35-36 | `letter + 'a'` and the optional upper-casing: an index in `0..25` gives a letter of the requested case whose index is that index |
| RotNEncryption.LetterOfIndex | UberLib/src/cl/betomaluje/android/uberlib/security/RotNEncryption.java:28-36 | mapping a letter to its alphabet index and case and back gives the letter |
| RotNEncryption.RotN | UberLib/src/cl/betomaluje/android/uberlib/security/RotNEncryption.java:22-37 | a non-letter is returned unchanged; a letter and a displacement in `0..MAX_VALUE-25` give the letter `(index + displacement) mod 26`, in the original case |
| RotNEncryption.NegativeDisplacementLeavesLowerCase | UberLib/src/cl/betomaluje/android/uberlib/security/RotNEncryption.java:32-35 | when `index + displacement` is negative and not a multiple of 26, the result is 'a' plus Java's negative remainder: no longer a lower-case letter |
| RotNEncryption.Rotated | UberLib/src/cl/betomaluje/android/uberlib/security/RotNEncryption.java:14-20 | the cipher text as a function of the text; it has no contract of its own, and `RotatedAt` states its length and contents |
| RotNEncryption.Encrypt | UberLib/src/cl/betomaluje/android/uberlib/security/RotNEncryption.java:14-20 | the loop's result equals `Rotated(text)`: the same length, and position `i` holds the rotation of character `i` |
| RotNEncryption.RotatedAt | UberLib/src/cl/betomaluje/android/uberlib/security/RotNEncryption.java:14-20 | the cipher text has the text's length and rotates each character in place |
| RotNEncryption.RotNCompose | UberLib/src/cl/betomaluje/android/uberlib/security/RotNEncryption.java:22-37 | for non-negative `a`, `b` without overflow, rotating by `a` and then by `b` is rotating by `a + b` |
| RotNEncryption.RotNPeriodic | UberLib/src/cl/betomaluje/android/uberlib/security/RotNEncryption.java:32 | for non-negative displacements only the displacement modulo 26 matters |
| RotNEncryption.RotNIdentity | UberLib/src/cl/betomaluje/android/uberlib/security/RotNEncryption.java:22-37 | a displacement that is a non-negative multiple of 26 leaves every character as it was |
| RotNEncryption.RotNRoundTrip | UberLib/src/cl/betomaluje/android/uberlib/security/RotNEncryption.java:22-37 | for `0 <= n <= 26`, rotating by `n` and then by `26 - n` restores the character |
| RotNEncryption.RotatedRoundTrip | UberLib/src/cl/betomaluje/android/uberlib/security/RotNEncryption.java:14-20 | encrypting with `n` and then with `26 - n` restores the text |
| RotNEncryption.RotatedCompose | UberLib/src/cl/betomaluje/android/uberlib/security/RotNEncryption.java:14-20 | encrypting with `a` and then with `b` is encrypting with `a + b` |
| Gesture.OnFling | UberLib/src/cl/betomaluje/android/uberlib/MyGestureDetector.java:25-49 | the call throws exactly when no listener is set and otherwise returns false. A left swipe is reported iff the first event exists, the vertical drift is within 250, the finger moved more than 120 left and the x speed exceeds 200. A right swipe is the mirror image |
| Gesture.SwipesExclusive | UberLib/src/cl/betomaluje/android/uberlib/MyGestureDetector.java:36-44 | no fling is both a left and a right swipe |
| Gesture.VelocityYIgnored | UberLib/src/cl/betomaluje/android/uberlib/MyGestureDetector.java:25-49 | the vertical velocity never changes the outcome |
| Gesture.ReversedFling | UberLib/src/cl/betomaluje/android/uberlib/MyGestureDetector.java:33-44 | swapping the two events of a left swipe gives a right swipe |
| Gesture.OnDown | UberLib/src/cl/betomaluje/android/uberlib/MyGestureDetector.java:52-55 | `onDown` always consumes the event |
| Shake.Qualifies | UberLib/src/cl/betomaluje/android/uberlib/ShakeEventListener.java:114-116 | the sample moved more than `MIN_FORCE`; with a non-negative minimum force the stored sample itself never qualifies |
| Shake.WithinPause | UberLib/src/cl/betomaluje/android/uberlib/ShakeEventListener.java:121-129 | the last movement was less than `MAX_PAUSE_BETWEEN_DIRECTION_CHANGE` ago; the first movement of a gesture is always within a positive pause |
| Shake.Counted | UberLib/src/cl/betomaluje/android/uberlib/ShakeEventListener.java:121-138 | counting a movement adds one to the count (wrapping), sets the last time to `now`, keeps an already set start time, and stores the sample, which is then no movement |
| Shake.CompletesShake | UberLib/src/cl/betomaluje/android/uberlib/ShakeEventListener.java:141-145 | enough movements within the total duration; from an idle gesture and a positive duration, the first movement completes a shake iff `MIN_DIRECTION_CHANGE <= 1` |
| Shake.Reset | UberLib/src/cl/betomaluje/android/uberlib/ShakeEventListener.java:160-168 | the gesture becomes all zero; `onStopShake` is called when a listener is set, and the call throws when none is |
| Shake.Step | UberLib/src/cl/betomaluje/android/uberlib/ShakeEventListener.java:107-155 | a quiet sample changes nothing. A movement within the pause is counted and stored. A movement after the pause resets. `onShake` fires iff a counted movement completes a shake, and is then followed by `onStopShake` and a reset. The count stays, grows by one or drops to 0. A null listener throws iff a callback is due; a completing movement with no listener still stores the counted gesture before the throw |
| Shake.StepCredit | UberLib/src/cl/betomaluje/android/uberlib/ShakeEventListener.java:129-148 | on one sample, shakes times `MIN_DIRECTION_CHANGE` plus the remaining count is at most the old count plus one |
| Shake.ShakesNeedMovements | UberLib/src/cl/betomaluje/android/uberlib/ShakeEventListener.java:116-153 | over any run of samples, shakes times `MIN_DIRECTION_CHANGE` never exceeds the starting count plus the number of samples |
| Shake.ShakeEventListener.constructor | UberLib/src/cl/betomaluje/android/uberlib/ShakeEventListener.java:48-84 | thresholds 10, 3, 200 and 400 ms, an idle gesture, no listener |
| Shake.ShakeEventListener.SetOnShakeListener | UberLib/src/cl/betomaluje/android/uberlib/ShakeEventListener.java:102-104 | sets the listener and changes nothing else |
| Shake.ShakeEventListener.ResetShakeParameters | UberLib/src/cl/betomaluje/android/uberlib/ShakeEventListener.java:160-168 | the new gesture, the callbacks appended and the throw are those of `Reset` |
| Shake.ShakeEventListener.OnSensorChanged | UberLib/src/cl/betomaluje/android/uberlib/ShakeEventListener.java:107-155 | the new gesture, the callbacks appended and the throw are those of `Step` on the old state; the thresholds are unchanged |
| Shake.ShakeEventListener.OnMovement | UberLib/src/cl/betomaluje/android/uberlib/ShakeEventListener.java:116-153 | for a qualifying sample, the outcome is that of `Step` |
| Shake.ShakeEventListener.CountMovement | UberLib/src/cl/betomaluje/android/uberlib/ShakeEventListener.java:131-149 | the movement is counted; when that completes a shake the listener gets `onShake` then `onStopShake` and the gesture resets, or the null listener throws |
| Shake.ShakeEventListener.SetMinForce | UberLib/src/cl/betomaluje/android/uberlib/ShakeEventListener.java:182-184 | only the minimum force changes |
| Shake.ShakeEventListener.SetMinDirectionChange | UberLib/src/cl/betomaluje/android/uberlib/ShakeEventListener.java:195-197 | only the movement count for a shake changes |
| Shake.ShakeEventListener.SetMaxPauseBetweenDirectionChange | UberLib/src/cl/betomaluje/android/uberlib/ShakeEventListener.java:207-210 | only the maximum pause changes |
| Shake.ShakeEventListener.SetMaxTotalDurationOfShake | UberLib/src/cl/betomaluje/android/uberlib/ShakeEventListener.java:216-218 | only the maximum duration changes |
| Shake.ShakeEventListener.SetDirectionChangeCount | UberLib/src/cl/betomaluje/android/uberlib/ShakeEventListener.java:229-231 | only the movement count changes |
| CircleSeekBar.DoubleToInt | UberLib/src/cl/betomaluje/android/uberlib/components/CircleSeekBar.java:563 | the `(int)` cast of a `double`: negative infinity gives `MIN_VALUE`, a non-negative value inside the range gives its floor, and a negative value inside the range is truncated toward zero |
| CircleSeekBar.RoundToInt | UberLib/src/cl/betomaluje/android/uberlib/components/CircleSeekBar.java:765 | `Math.round` of a `float` inside the `int` range lies within one half of its argument |
| CircleSeekBar.InitialPosition | UberLib/src/cl/betomaluje/android/uberlib/components/CircleSeekBar.java:169-170 | an initial position at or after the start angle is kept. Before it, the position becomes `calculateTextFromStartAngle(start_angle)`: 0 for a start angle of 0, and, for a non-negative `max` and `0 < start_angle <= end_angle - start_angle`, a value from 0 to `max` |
| CircleSeekBar.FloorToInterval | UberLib/src/cl/betomaluje/android/uberlib/components/CircleSeekBar.java:629-630 | for a positive interval the result is a multiple of the interval lying between 0 and `p` and less than one interval away from `p`: it truncates toward zero for negative `p` as for positive |
| CircleSeekBar.FloorToIntervalIdempotent | UberLib/src/cl/betomaluje/android/uberlib/components/CircleSeekBar.java:987-988 | flooring an already floored progress changes nothing |
| CircleSeekBar.FloorToIntervalSymmetric | UberLib/src/cl/betomaluje/android/uberlib/components/CircleSeekBar.java:629-630 | for a positive interval, flooring `-p` gives minus the flooring of `p`: Java's division truncates toward zero, so a negative progress is floored toward 0, not down |
| CircleSeekBar.Quantise | UberLib/src/cl/betomaluje/android/uberlib/components/CircleSeekBar.java:944-947 | with no interval the value is unchanged, otherwise it is floored to the interval |
| CircleSeekBar.AngleFromText | UberLib/src/cl/betomaluje/android/uberlib/components/CircleSeekBar.java:790-802 | 90 for position 0 or at least `max`; otherwise `360 * position / max + 90`, which lies strictly between 90 and 450 for `0 < position < max` |
| CircleSeekBar.TextFromAngle | UberLib/src/cl/betomaluje/android/uberlib/components/CircleSeekBar.java:774-780 | `TextForOffset` at offset `angle - start_angle`: the start angle shows 0, and, for a non-negative `max` and a span `end_angle - start_angle` that fits in an `int`, an angle past the start up to the end shows a value from 0 to `max` |
| CircleSeekBar.TextFromStartAngle | UberLib/src/cl/betomaluje/android/uberlib/components/CircleSeekBar.java:782-788 | `TextForOffset` at offset `angle`: 0 shows 0, and, for a non-negative `max`, an offset in `1..end_angle - start_angle` shows a value from 0 to `max` |
| CircleSeekBar.TextForOffset | UberLib/src/cl/betomaluje/android/uberlib/components/CircleSeekBar.java:774-788 | an offset of 0 shows 0; for a non-negative `max`, an offset inside a non-empty arc whose span fits in an `int` shows a value from 0 to `max` |
| CircleSeekBar.SweepFromAngle | UberLib/src/cl/betomaluje/android/uberlib/components/CircleSeekBar.java:804-813 | every angle from -π to π gives a sweep from 0 to 359 degrees |
| CircleSeekBar.AngleFromSweep | UberLib/src/cl/betomaluje/android/uberlib/components/CircleSeekBar.java:815-817 | `calculateAngleFromRadians`; for a sweep from 0 up to `MAX_VALUE - 270`, `calculateRadiansFromAngle` gives the sweep back |
| CircleSeekBar.Notify | UberLib/src/cl/betomaluje/android/uberlib/components/CircleSeekBar.java:622-636 | with no listener nothing happens. With a listener and interval 0, `onProgressChanged` is reported and the division throws. Otherwise both callbacks are reported with the floored progress stored. Progress, angle and text are untouched |
| CircleSeekBar.SetProgressSpec | UberLib/src/cl/betomaluje/android/uberlib/components/CircleSeekBar.java:611-638 | the same progress is a no-op. A call from `setAngle` sets the progress, keeps angle and text and clears the flag. Only `max == 0` outside `setAngle`, or a listener with interval 0, throws, and the latter always does when the progress changes |
| CircleSeekBar.ProgressFromAngle | UberLib/src/cl/betomaluje/android/uberlib/components/CircleSeekBar.java:762-765 | the progress `setAngle` asks for: an angle from 0 to 360 and a non-negative `max` give a progress from 0 to `max` |
| CircleSeekBar.AngleOfProgress | UberLib/src/cl/betomaluje/android/uberlib/components/CircleSeekBar.java:615-616 | the angle an outside `setProgress` computes; it has no contract of its own, and `WholeTurnAngle` states it equals `(p / max) * 360` |
| CircleSeekBar.SetAngleSpec | UberLib/src/cl/betomaluje/android/uberlib/components/CircleSeekBar.java:760-766 | the angle becomes `a`, the text is kept, and the progress becomes `round(a / 360 * max)`. The from-angle flag stays raised exactly when that progress was already current. Only a listener with interval 0 can make it throw |
| CircleSeekBar.SetProgressKeepsWholeTurns | UberLib/src/cl/betomaluje/android/uberlib/components/CircleSeekBar.java:611-638 | an outside `setProgress(p)` to a new value, with `max > 0`, `0 <= p`, `p / max <= 5965232` (so the angle does not overflow), and no listener unless the interval is non-zero, completes with progress `(p / max) * max` and angle `360 * (p / max)`, so any `0 < p < max` leaves the progress at 0 |
| CircleSeekBar.SetProgressBelowMax | UberLib/src/cl/betomaluje/android/uberlib/components/CircleSeekBar.java:611-638 | as written, an outside `setProgress(p)` to a new `0 < p < max`, with a listener and an interval, ends with progress 0 and angle 0. It reports `onProgressChanged(0)` and `onIntervalProgressChanged(0)` twice: once from the nested call through `setAngle`, once from the outer call |
| CircleSeekBar.SetProgressRepeatsNotification | UberLib/src/cl/betomaluje/android/uberlib/components/CircleSeekBar.java:611-638 | as written, calling `setProgress(p)` twice with the same `0 < p < max` is not idempotent: the second call finds progress 0 and repeats both notifications |
| CircleSeekBar.SetProgressCorrected | UberLib/src/cl/betomaluje/android/uberlib/components/CircleSeekBar.java:611-638 | the corrected `setProgress`: same value is a no-op; it throws only for a listener with interval 0, or a zero `max` outside `setAngle` |
| CircleSeekBar.ExactAngleRoundTrip | UberLib/src/cl/betomaluje/android/uberlib/components/CircleSeekBar.java:760-766 | `setAngle` of the exact angle `p / max * 360` asks for progress `p` again |
| CircleSeekBar.CorrectedSetProgressNotifiesOnce | UberLib/src/cl/betomaluje/android/uberlib/components/CircleSeekBar.java:611-638 | the corrected outside `setProgress(p)` sets progress `p` and angle `p / max * 360` and notifies the listener once. A second call with the same `p` changes nothing and notifies nobody |
| CircleSeekBar.WholeTurnAngle | UberLib/src/cl/betomaluje/android/uberlib/components/CircleSeekBar.java:615-616 | for a non-negative progress without overflow, the percent and angle steps give `(p / max) * 360` |
| CircleSeekBar.RoundWholeTurn | UberLib/src/cl/betomaluje/android/uberlib/components/CircleSeekBar.java:762-765 | `setAngle` of `q` whole turns asks for progress `q * max` |
| CircleSeekBar.UpdatePointerSpec | UberLib/src/cl/betomaluje/android/uberlib/components/CircleSeekBar.java:982-999 | the angle becomes `a`; on completion the text is `texto` floored to the interval, and equals the interval progress when an interval is set; only a listener with interval 0 throws |
| CircleSeekBar.MoveLatches | UberLib/src/cl/betomaluje/android/uberlib/components/CircleSeekBar.java:887-911 | the latches never become both set, at most one changes per move, and each engages or releases only under the guard that names it |
| CircleSeekBar.PinnedSweep | UberLib/src/cl/betomaluje/android/uberlib/components/CircleSeekBar.java:913-935 | end-latched pins to `endAngle - 1`, start-latched to `startAngle`, otherwise the sweep follows the finger |
| CircleSeekBar.TouchNotify | UberLib/src/cl/betomaluje/android/uberlib/components/CircleSeekBar.java:937-953 | with a listener, the shown value and its quantised form are reported and stored; without one nothing changes |
| CircleSeekBar.Pin | UberLib/src/cl/betomaluje/android/uberlib/components/CircleSeekBar.java:885-935 | the latches are `MoveLatches` of the old pointer, the arc is pinned accordingly, nothing else of the pointer changes, and an end-latched move shows `max` |
| CircleSeekBar.MoveSpec | UberLib/src/cl/betomaluje/android/uberlib/components/CircleSeekBar.java:881-958 | a move outside a drag only records `lastX`. During a drag the latches follow `MoveLatches` and the arc `PinnedSweep`, and the drag goes on. On completion the sweep becomes `last_radians`, and an end-latched pointer with no interval shows `max` |
| CircleSeekBar.Touch | UberLib/src/cl/betomaluje/android/uberlib/components/CircleSeekBar.java:853-970 | the effect of each action: DOWN clears the latches, grabs and clamps, MOVE runs the latch transition and pinning, UP releases. The latches stay exclusive, `lastX` is recorded on completion, and only a listener with interval 0 throws |
| CircleSeekBar.LatchesStayExclusive | UberLib/src/cl/betomaluje/android/uberlib/components/CircleSeekBar.java:853-970 | over any sequence of touch events the two latches are never set together |
| CircleSeekBar.EndLatchHoldsAtMax | UberLib/src/cl/betomaluje/android/uberlib/components/CircleSeekBar.java:899-919 | with no interval set, once end-latched, any run of moves none of which meets the release guard (back below the end from past it) keeps the latch and holds the pointer one degree short of the end, showing `max` |
| CircleSeekBar.PlacedSweep | UberLib/src/cl/betomaluje/android/uberlib/components/CircleSeekBar.java:563-568 | the placed sweep never exceeds `endAngle`; for a position strictly between 0 and `max` and a non-negative end angle it lies in 0..359; position 0 or at least `max` gives 0, or `endAngle` when that is negative |
| CircleSeekBar.Place | UberLib/src/cl/betomaluje/android/uberlib/components/CircleSeekBar.java:286-294 | only the arc of the pointer changes, to `PlacedSweep`; the angle is that sweep's angle; only a listener with interval 0 throws |
| CircleSeekBar.InitPointerSpec | UberLib/src/cl/betomaluje/android/uberlib/components/CircleSeekBar.java:560-575 | position 0 or at least `max` changes nothing; otherwise the arc never passes `endAngle`, and lies in 0..359 when the end angle is non-negative |
| CircleSeekBar.CircleSeekBar.constructor | UberLib/src/cl/betomaluje/android/uberlib/components/CircleSeekBar.java:165-298 | the view starts with no interval and no listener, `last_radians` at the end angle, and a replaced initial position when it is below the start angle. The pointer is placed at that position. The latches are exclusive |
| CircleSeekBar.CircleSeekBar.SetOnSeekBarChangeListener | UberLib/src/cl/betomaluje/android/uberlib/components/CircleSeekBar.java:1049-1051 | only the listener changes |
| CircleSeekBar.CircleSeekBar.SetInterval | UberLib/src/cl/betomaluje/android/uberlib/components/CircleSeekBar.java:834-836 | only the interval changes |
| CircleSeekBar.CircleSeekBar.SetMaxProgress | UberLib/src/cl/betomaluje/android/uberlib/components/CircleSeekBar.java:592-594 | only `max` changes |
| CircleSeekBar.CircleSeekBar.SetStartAngle | UberLib/src/cl/betomaluje/android/uberlib/components/CircleSeekBar.java:703-705 | only the start angle changes |
| CircleSeekBar.CircleSeekBar.SetEndAngle | UberLib/src/cl/betomaluje/android/uberlib/components/CircleSeekBar.java:722-724 | only the end angle changes |
| CircleSeekBar.CircleSeekBar.SetInitPosition | UberLib/src/cl/betomaluje/android/uberlib/components/CircleSeekBar.java:684-686 | only the initial position changes |
| CircleSeekBar.CircleSeekBar.SetProgress | UberLib/src/cl/betomaluje/android/uberlib/components/CircleSeekBar.java:611-638 | the new progress state and status are `SetProgressSpec` of the old state; configuration and pointer are unchanged |
| CircleSeekBar.CircleSeekBar.NotifyProgress | UberLib/src/cl/betomaluje/android/uberlib/components/CircleSeekBar.java:622-636 | the new progress state and status are `Notify` of the old state |
| CircleSeekBar.CircleSeekBar.SetAngle | UberLib/src/cl/betomaluje/android/uberlib/components/CircleSeekBar.java:760-766 | the new progress state and status are `SetAngleSpec` of the old state |
| CircleSeekBar.CircleSeekBar.UpdatePointer | UberLib/src/cl/betomaluje/android/uberlib/components/CircleSeekBar.java:982-999 | the new progress state and status are `UpdatePointerSpec` of the old state |
| CircleSeekBar.CircleSeekBar.PlacePointer | UberLib/src/cl/betomaluje/android/uberlib/components/CircleSeekBar.java:563-571 | pointer, progress state and status are `Place` of the old state |
| CircleSeekBar.CircleSeekBar.InitPointerFromPosition | UberLib/src/cl/betomaluje/android/uberlib/components/CircleSeekBar.java:560-575 | pointer, progress state and status are `InitPointerSpec` of the old state |
| CircleSeekBar.CircleSeekBar.OnTouchEvent | UberLib/src/cl/betomaluje/android/uberlib/components/CircleSeekBar.java:853-970 | pointer, progress state and status are `Touch` of the old state; the event is consumed iff the handler completes; the latches stay exclusive |
| CircleSeekBar.CircleSeekBar.TouchDown | UberLib/src/cl/betomaluje/android/uberlib/components/CircleSeekBar.java:859-880 | the outcome of a DOWN event is that of `Touch` |
| CircleSeekBar.CircleSeekBar.GrabPointer | UberLib/src/cl/betomaluje/android/uberlib/components/CircleSeekBar.java:861-872 | both latches are cleared, then the end latch is set iff the sweep passes the end angle; the arc is clamped to the end; the drag starts |
| CircleSeekBar.CircleSeekBar.TouchMove | UberLib/src/cl/betomaluje/android/uberlib/components/CircleSeekBar.java:881-958 | the outcome of a MOVE event is that of `MoveSpec` |
| CircleSeekBar.CircleSeekBar.PinPointer | UberLib/src/cl/betomaluje/android/uberlib/components/CircleSeekBar.java:885-935 | pointer, drawn angle and shown value are those of `Pin` |
| CircleSeekBar.CircleSeekBar.PinArc | UberLib/src/cl/betomaluje/android/uberlib/components/CircleSeekBar.java:913-935 | the arc becomes `PinnedSweep` of the new latches; a latched pointer shows `max` at the end or the start angle's text |
| CircleSeekBar.CircleSeekBar.NotifyMove | UberLib/src/cl/betomaluje/android/uberlib/components/CircleSeekBar.java:937-953 | the new progress state is `TouchNotify` of the old one |
| DragDrop.SetMargins | UberLib/src/cl/betomaluje/android/uberlib/components/DragDropTouchView.java:88-92 | `setMargins` sets the four margins to the arguments and keeps the width and height |
| DragDrop.Apply | UberLib/src/cl/betomaluje/android/uberlib/components/DragDropTouchView.java:96 | `setLayoutParams` makes the given layout current and logs it for the given view; nothing else changes |
| DragDrop.Report | UberLib/src/cl/betomaluje/android/uberlib/components/DragDropTouchView.java:99-100 | a call to the drag listener is logged exactly when a listener is set; nothing else changes |
| DragDrop.Min | UberLib/src/cl/betomaluje/android/uberlib/components/DragDropTouchView.java:79-82 | the clamping of the position to the screen: the result is one of the two values and at most both |
| DragDrop.Displacement | UberLib/src/cl/betomaluje/android/uberlib/components/DragDropTouchView.java:75-76 | `crashX - offset_x`, `crashY - offset_y`: without overflow, adding the offset back gives the raw touch point |
| DragDrop.MoveLayout | UberLib/src/cl/betomaluje/android/uberlib/components/DragDropTouchView.java:84-94 | the layout gets the target's size. With horizontal moves allowed it gets margins `(x, y, 0, 0)`. Otherwise it gets `(0, y, 0, -y)` when `y` is at or below the top delimiter less the top margin, and keeps its margins when not |
| DragDrop.MoveSpec | UberLib/src/cl/betomaluje/android/uberlib/components/DragDropTouchView.java:73-102 | at or below the top margin the position is clamped to the screen and the selected view laid out there; above it nothing is laid out. `isDragging` is reported either way when a listener is set; nothing else changes |
| DragDrop.DropSpec | UberLib/src/cl/betomaluje/android/uberlib/components/DragDropTouchView.java:103-124 | the drag stops and the drop position becomes the top delimiter. The target is restored to the initial position exactly when `y <= y + marginTop` in `int` arithmetic, and `onDrop` is reported when a listener is set |
| DragDrop.DropRestoreIgnoresPosition | UberLib/src/cl/betomaluje/android/uberlib/components/DragDropTouchView.java:108-119 | without overflow, the target is restored exactly when the top margin is not negative, wherever the drop lands |
| DragDrop.ContainerTouch | UberLib/src/cl/betomaluje/android/uberlib/components/DragDropTouchView.java:53-130 | outside a drag nothing changes. It never starts a drag, stops one on UP, and keeps settings and selection. A layout is applied only to the selected view. The top margin moves only into the band or to the initial position. A vertical-only drag keeps the left margin at 0 |
| DragDrop.TargetTouch | UberLib/src/cl/betomaluje/android/uberlib/components/DragDropTouchView.java:137-167 | with dragging off the drag stops. DOWN starts a drag on the touched view, records the raw offset and vibrates when a vibrator is set. UP stops and clears the selection. Layouts and listener calls are untouched, and a drag always has a selected view |
| DragDrop.Deliver | UberLib/src/cl/betomaluje/android/uberlib/components/DragDropTouchView.java:51-167 | one touch, to the target or to the container, keeps the state well formed (a started drag has a selected view) and leaves the settings unchanged |
| DragDrop.Session | UberLib/src/cl/betomaluje/android/uberlib/components/DragDropTouchView.java:51-167 | any interleaving of target and container touches keeps a selected view whenever a drag is on |
| DragDrop.SessionKeepsTargetInBand | UberLib/src/cl/betomaluje/android/uberlib/components/DragDropTouchView.java:78-119 | over any interleaving of touches, a target whose top margin starts in the band stays in it. The band runs from the top margin to the screen height, or is the initial position. A vertical-only target keeps its left margin at 0 |
| DragDrop.DragDropTouchView.constructor | UberLib/src/cl/betomaluje/android/uberlib/components/DragDropTouchView.java:16-28 | not dragging, every `int` 0 but the 35 ms vibration, dragging allowed, no listener, vibrator or selection |
| DragDrop.DragDropTouchView.Init | UberLib/src/cl/betomaluje/android/uberlib/components/DragDropTouchView.java:41-50 | installs the container handler with the target's height plus `yOffset` and its width, and fresh wrap-content layout parameters |
| DragDrop.DragDropTouchView.ContainerOnTouch | UberLib/src/cl/betomaluje/android/uberlib/components/DragDropTouchView.java:53-130 | returns true; the new state is `ContainerTouch` of the old one |
| DragDrop.DragDropTouchView.ContainerMove | UberLib/src/cl/betomaluje/android/uberlib/components/DragDropTouchView.java:73-102 | the new state is `MoveSpec` of the old one |
| DragDrop.DragDropTouchView.MoveTarget | UberLib/src/cl/betomaluje/android/uberlib/components/DragDropTouchView.java:78-97 | the position is clamped to the screen and the selected view laid out with `MoveLayout` |
| DragDrop.DragDropTouchView.LayOutTarget | UberLib/src/cl/betomaluje/android/uberlib/components/DragDropTouchView.java:84-96 | the layout becomes `MoveLayout` of the current position and is applied to the selected view |
| DragDrop.DragDropTouchView.ContainerDrop | UberLib/src/cl/betomaluje/android/uberlib/components/DragDropTouchView.java:103-124 | the new state is `DropSpec` of the old one |
| DragDrop.DragDropTouchView.OnTouch | UberLib/src/cl/betomaluje/android/uberlib/components/DragDropTouchView.java:137-167 | returns false; the new state is `TargetTouch` of the old one |
| DragDrop.DragDropTouchView.SetDragListener | UberLib/src/cl/betomaluje/android/uberlib/components/DragDropTouchView.java:169-171 | only the listener changes: set when the argument is non-null, cleared when it is null |
| DragDrop.DragDropTouchView.RemoveDragListener | UberLib/src/cl/betomaluje/android/uberlib/components/DragDropTouchView.java:173-175 | only the listener changes, to absent |
| DragDrop.DragDropTouchView.CanDrag | UberLib/src/cl/betomaluje/android/uberlib/components/DragDropTouchView.java:177-179 | only the drag switch changes |
| DragDrop.DragDropTouchView.SetTopMargin | UberLib/src/cl/betomaluje/android/uberlib/components/DragDropTouchView.java:181-183 | only the top margin changes |
| DragDrop.DragDropTouchView.SetScreenSizes | UberLib/src/cl/betomaluje/android/uberlib/components/DragDropTouchView.java:185-188 | only the screen width and height change |
| DragDrop.DragDropTouchView.SetYOffset | UberLib/src/cl/betomaluje/android/uberlib/components/DragDropTouchView.java:190-192 | only the vertical offset changes |
| DragDrop.DragDropTouchView.SetVibrator | UberLib/src/cl/betomaluje/android/uberlib/components/DragDropTouchView.java:194-196 | only the vibrator's presence changes |
| DragDrop.DragDropTouchView.SetVibrationDuration | UberLib/src/cl/betomaluje/android/uberlib/components/DragDropTouchView.java:198-200 | only the vibration duration changes |
| DragDrop.DragDropTouchView.SetTopDelimeter | UberLib/src/cl/betomaluje/android/uberlib/components/DragDropTouchView.java:202-204 | only the top delimiter (`lastPosition`) changes |
| DragDrop.DragDropTouchView.SetInitialPosition | UberLib/src/cl/betomaluje/android/uberlib/components/DragDropTouchView.java:206-208 | only the initial position changes |

## Findings

| source | as written | input that shows it | evidently intended | confidence | as-written member | corrected member |
|---|---|---|---|---|---|---|
| UberLib/src/cl/betomaluje/android/uberlib/components/CircleSeekBar.java:611-638, 760-766 | `setProgress` computes the percentage as `(progress / max) * 100` in `int` arithmetic, so every `0 < progress < max` gives angle 0. `setAngle(0)` then sets the progress back to 0, and the listener is told about 0 twice | `max = 10`, interval 1, a listener, `setProgress(5)` twice: the progress ends at 0 and each call reports 0 twice | the angle is the exact share of a turn, `progress / max * 360`. `setAngle` then finds the progress already set, the listener is told once, and a repeated call is a no-op | high (not executed) | CircleSeekBar.SetProgressRepeatsNotification | CircleSeekBar.CorrectedSetProgressNotifiesOnce |

## Left out

- Floating point: `float` and `double` values are exact reals, so rounding of intermediate results is not modelled. This affects `setAngle`'s percentage, the text and angle conversions, the shake force and the fling distances. Only the conversions to `int` (`(int)` casts, `Math.round`) are written out.
- `Double` covers only finite values and negative infinity. The only non-finite value the modelled code can feed onward is `360 / -0.0` in `calculateAngleFromText` when `max` is 0. The NaN and infinite quotients of `calculateTextFromAngle` are folded into the value the `(int)` cast gives for them.
- `Character.isLetter`, `toLowerCase` and `toUpperCase` are modelled for the ASCII letters only; other Unicode letters are treated as non-letters.
- `Math.atan2`, the pointer geometry (`calculatePointerPosition`), drawing, measuring, colours, sizes and `invalidate`/`requestLayout` are not modelled. A touch event carries the angle `atan2` gives as an input.
- `CircleSeekBar`'s displayed text is a `String` holding the decimal form of an `int`; the model keeps that `int`, so `Integer.parseInt` never fails. Before `init` sets it the source's text is null; the model starts it at 0.
- `CircleSeekBar.CircleSeekBar.constructor` models the attribute constructor followed by `init`. The listener block of `init` (lines 268-284) never runs there, because no listener can be set before construction. `initAttributes` reads from a `TypedArray`; its values are parameters, with interval 0.
- Saving and restoring instance state (`onSaveInstanceState`, `onRestoreInstanceState`), `onDetachedFromWindow`, the getters and the colour and size setters of `CircleSeekBar` are not modelled.
- `requestDisallowInterceptTouchEvent` on the parent in `onTouchEvent` is not modelled.
- Listener callbacks are recorded, not run: a callback's own behaviour and exceptions are outside the model. That includes an exception thrown by `onSwipe` inside `onFling`'s `try`.
- `Gesture.OnFling`: the second motion event is always present; only the first may be missing.
- The clock (`System.currentTimeMillis`) and the sensor are parameters of `onSensorChanged`; `onAccuracyChanged` does nothing and is not modelled.
- `DragDropTouchView`: the layout parameters object is shared between calls and mutated in place. The model records a copy of it at each `setLayoutParams` call, so later mutation of an applied object is not visible in that record.
- `DragDropTouchView`: the vibrator hardware is reduced to whether one is set and a log of the requested durations.
- `DragDropTouchView`: views are identifiers, and a target's frame is an input to the container's handler.
- `DragDropTouchView`: the order in which Android delivers one gesture to the target and then to the container is not modelled. `Session` and its lemmas allow any interleaving, which includes the real one.
- `DragDrop.DragDropTouchView.ContainerOnTouch` requires `init` to have run, since the container handler exists only after it. It also requires a drag in progress to have a selected view, an invariant that `OnTouch` and `ContainerOnTouch` preserve.
- DragDrop.DragDropTouchView.Init: only the container handler installed by the last `init` is modelled. In the source, a handler installed by an earlier `init` on another container stays attached and shares the view's layout parameters and status.
- CircleSeekBar.SetProgressCorrected: the class's `SetProgress` and the rest of the model follow the code as written; the correction stands beside it. It changes only the angle computation for a non-zero `max`, keeps the failure for a zero `max`, and its round trip holds in exact reals, so a `float` rounding of the share is not covered.
- The other classes of the library (`GCM`, `CircleProgressBar`, `ParallaxScrollView`) are not part of this model.
