/**
 * The circular seek bar (`CircleSeekBar`): a pointer dragged around an arc
 * from `startAngle` to `endAngle` (degrees), whose position is reported as a
 * progress value between 0 and `max`, optionally floored to a multiple of an
 * interval.
 *
 * Not modelled: the drawing geometry. A touch event arrives with the angle
 * `atan2` gives for its coordinates, which is an input here. The source's
 * `float` and `double` arithmetic is exact real arithmetic, with Java's
 * conversions to `int` written out. `Math.PI` is the constant `Pi`.
 *
 * Three groups of state: the configuration (`Config`), the progress value
 * and what was reported about it (`Dial`), and the pointer with its two
 * boundary latches (`Pointer`).
 */
module CircleSeekBar {
  import opened JavaInt

  const Pi: real := 3.141592653589793

  /** How a call ends: normally, or with Java's `ArithmeticException` for an integer division by zero. */
  datatype Status = Completed | ArithmeticException

  /** The calls made to `OnCircleSeekBarChangeListener`; `fromUser` is always true in the source. */
  datatype SeekEvent = ProgressChanged(progress: int32) | IntervalProgressChanged(progressWithInterval: int32)

  /** A Java `double` as far as this model needs one: finite, or negative infinity. */
  datatype Double = Finite(value: real) | NegativeInfinity

  datatype Config = Config(
    startAngle: int32,
    endAngle: int32,
    max: int32,
    interval: int32,
    hasListener: bool)

  /**
   * `progress`, `mAngle`, `CALLED_FROM_ANGLE`, `newProgressWithInterval`,
   * the displayed text (always the decimal form of an `int`, kept as that
   * `int`) and the listener calls made so far.
   */
  datatype Dial = Dial(
    progress: int32,
    angle: real,
    calledFromAngle: bool,
    progressWithInterval: int32,
    text: int32,
    events: seq<SeekEvent>)

  /** `block_start`, `block_end`, `last_radians`, `lastX`, `arc_finish_radians` and `mUserIsMovingPointer`. */
  datatype Pointer = Pointer(
    blockStart: bool,
    blockEnd: bool,
    lastRadians: int32,
    lastX: real,
    arcFinishRadians: int32,
    userIsMovingPointer: bool)

  datatype DialResult = DialResult(dial: Dial, status: Status)

  datatype SeekResult = SeekResult(pointer: Pointer, dial: Dial, status: Status)

  datatype Action = Down | Move | Up | Other

  /**
   * A touch event: its action, its x coordinate in the view's centred frame,
   * and the angle `atan2` gives for its centred coordinates.
   */
  datatype TouchEvent = TouchEvent(action: Action, x: real, angle: real)
  {
    /** The sweep, in whole degrees, that the event's angle stands for. */
    function Sweep(): int32
    {
      SweepFromAngle(angle)
    }
  }

  // ---------------------------------------------------------------------
  // Integer and floating-point conversions
  // ---------------------------------------------------------------------

  function DoubleToInt(d: Double): (r: int32)
    ensures d.NegativeInfinity? ==> r == MinInt32
    ensures d.Finite? && 0.0 <= d.value < MaxInt32 as real + 1.0 ==> r == d.value.Floor
    ensures d.Finite? && MinInt32 as real <= d.value < 0.0 ==> d.value <= r as real < d.value + 1.0
  {
    match d
    case Finite(v) => FloatToInt(v)
    case NegativeInfinity => MinInt32
  }

  /** `Math.round` of a finite real: the nearest integer, halves rounded up, saturating. */
  function RoundToInt(v: real): (r: int32)
    ensures MinInt32 as real <= v <= MaxInt32 as real ==> v - 0.5 < r as real <= v + 0.5
  {
    var n := (v + 0.5).Floor;
    if n > MaxInt32 then MaxInt32 else if n < MinInt32 then MinInt32 else n
  }

  /**
   * `p / interval * interval` in Java `int` arithmetic: `p` rounded toward
   * zero to a multiple of the interval.
   */
  function FloorToInterval(p: int32, interval: int32): (q: int32)
    requires interval != 0
    ensures interval > 0 && p >= 0 ==> 0 <= q <= p && p - q < interval && q % interval == 0
    ensures interval > 0 && p < 0 ==> p <= q <= 0 && q - p < interval && q % interval == 0
  {
    FlooredMultiple(p, interval);
    Wrap32(Div32(p, interval) * interval)
  }

  lemma FlooredMultiple(p: int32, interval: int32)
    requires interval != 0
    ensures interval > 0 ==>
              var q := Div32(p, interval) * interval;
              MinInt32 <= q <= MaxInt32 && q % interval == 0
              && (p >= 0 ==> 0 <= q <= p && p - q < interval)
              && (p < 0 ==> p <= q <= 0 && q - p < interval)
  {
    if interval > 0 {
      var d := Quot(p, interval);
      assert Div32(p, interval) == d;
      var q := d * interval;
      if p >= 0 {
        assert Abs(d) * Abs(interval) == q;
      } else {
        assert Abs(d) * Abs(interval) == -q;
      }
      MultipleMod(d, interval);
    }
  }

  lemma MultipleMod(d: int, m: int)
    requires m > 0
    ensures (d * m) % m == 0
  {
    var a := d * m;
    var k := d - a / m;
    assert a == (a / m) * m + a % m;
    assert a % m == k * m;
    if k >= 1 {
      MulMono(m, 1, k);
    } else if k <= -1 {
      MulMono(m, 1, -k);
    }
  }

  /** The reported progress: floored to the interval when one is set, unchanged otherwise. */
  function Quantise(p: int32, interval: int32): (q: int32)
    ensures interval == 0 ==> q == p
    ensures interval != 0 ==> q == FloorToInterval(p, interval)
  {
    if interval != 0 then FloorToInterval(p, interval) else p
  }

  /** Flooring an already floored value changes nothing. */
  lemma FloorToIntervalIdempotent(p: int32, interval: int32)
    requires interval > 0 && p >= 0
    ensures FloorToInterval(FloorToInterval(p, interval), interval) == FloorToInterval(p, interval)
  {
    var q := FloorToInterval(p, interval);
    var k := q / interval;
    assert q == k * interval;
    QuotRem(q, interval);
    assert Quot(q, interval) == k;
  }

  /**
   * Java's division truncates toward zero, so flooring to the interval is
   * symmetric about 0: a negative progress is floored toward 0, not down.
   */
  lemma FloorToIntervalSymmetric(p: int32, interval: int32)
    requires interval > 0 && p > MinInt32
    ensures FloorToInterval(-p, interval) == -FloorToInterval(p, interval)
  {
    QuotNeg(p, interval);
    FloorIsQuotient(p, interval);
    FloorIsQuotient(-p, interval);
    NegMul(Quot(p, interval), interval);
  }

  lemma NegMul(k: int, m: int)
    ensures (-k) * m == -(k * m)
  {
  }

  lemma FloorIsQuotient(p: int32, interval: int32)
    requires interval > 0
    ensures FloorToInterval(p, interval) == Quot(p, interval) * interval
  {
    FlooredMultiple(p, interval);
  }

  // ---------------------------------------------------------------------
  // Angle, text and progress conversions
  // ---------------------------------------------------------------------

  /**
   * `calculateAngleFromText(position)`: 90 for the guard values, otherwise
   * `360 / (max / position) + 90`; for `max == 0` that is `360 / -0.0`,
   * negative infinity.
   */
  function AngleFromText(position: int32, max: int32): (r: Double)
    ensures position == 0 || position >= max ==> r == Finite(90.0)
    ensures position != 0 && position < max && max != 0 ==>
              r == Finite(360.0 * position as real / max as real + 90.0)
    ensures 0 < position < max ==> r.Finite? && 90.0 < r.value < 450.0
  {
    if position == 0 || position >= max then Finite(90.0)
    else if max == 0 then NegativeInfinity
    else
      ShareOfTurn(position, max);
      Finite(360.0 / (max as real / position as real) + 90.0)
  }

  lemma ShareOfTurn(position: int, max: int)
    requires position != 0 && max != 0
    ensures 360.0 / (max as real / position as real) == 360.0 * position as real / max as real
    ensures 0 < position < max ==> 0.0 < 360.0 * position as real / max as real < 360.0
  {
    var pos, m := position as real, max as real;
    var f := m / pos;
    assert f * pos == m;
    var g := 360.0 * pos / m;
    assert g * m == 360.0 * pos;
    assert (g * f) * pos == g * (f * pos);
    Cancel(g * f, 360.0, pos);
    var h := 360.0 / f;
    assert h * f == 360.0;
    Cancel(h, g, f);
    if 0 < position < max {
      assert pos / m < 1.0;
      assert g == 360.0 * (pos / m);
    }
  }

  lemma Cancel(x: real, y: real, z: real)
    requires z != 0.0 && x * z == y * z
    ensures x == y
  {
    assert (x - y) * z == 0.0;
  }

  /**
   * `(int) (max / ((endAngle - startAngle) / m))` in `float` arithmetic:
   * the share of `max` that an offset of `m` degrees into the arc stands for.
   * A zero `m` gives an infinite or NaN divisor and so 0; a zero span gives
   * an infinite quotient of the sign of `max * m`, or NaN and so 0 when `max`
   * is 0.
   */
  function TextForOffset(m: real, c: Config): (n: int32)
    ensures m == 0.0 ==> n == 0
    ensures 0.0 < m <= (c.endAngle - c.startAngle) as real && c.endAngle - c.startAngle <= MaxInt32 && 0 <= c.max ==>
              0 <= n <= c.max
  {
    var span := Wrap32(c.endAngle - c.startAngle) as real;
    if m == 0.0 then 0
    else if span == 0.0 then
      if c.max == 0 then 0
      else if (c.max > 0) == (m > 0.0) then MaxInt32 else MinInt32
    else
      var share := c.max as real / (span / m);
      ShareBounds(c.max as real, m, span);
      FloatToInt(share)
  }

  lemma ShareBounds(max: real, m: real, span: real)
    requires m != 0.0 && span != 0.0
    ensures 0.0 <= max && 0.0 < m <= span ==> 0.0 <= max / (span / m) <= max
  {
    var f := span / m;
    assert f * m == span;
    if 0.0 <= max && 0.0 < m <= span {
      assert f >= 1.0;
      assert max / f <= max;
    }
  }

  /** `calculateTextFromAngle(angle)`: the progress shown for a sweep of `angle` degrees. */
  function TextFromAngle(angle: int32, c: Config): (r: int32)
    ensures angle == c.startAngle ==> r == 0
    ensures c.startAngle < angle <= c.endAngle && c.endAngle - c.startAngle <= MaxInt32 && 0 <= c.max ==> 0 <= r <= c.max
  {
    TextForOffset(angle as real - c.startAngle as real, c)
  }

  /** `calculateTextFromStartAngle(angle)`. */
  function TextFromStartAngle(angle: int32, c: Config): (r: int32)
    ensures angle == 0 ==> r == 0
    ensures 0 < angle <= c.endAngle - c.startAngle <= MaxInt32 && 0 <= c.max ==> 0 <= r <= c.max
  {
    TextForOffset(angle as real, c)
  }

  /**
   * `calculateRadiansFromAngle`: an angle in radians (as `atan2` gives it)
   * as a sweep in whole degrees, measured clockwise from the top of the
   * circle. Every angle `atan2` can return gives a sweep from 0 to 359.
   */
  function SweepFromAngle(angle: real): (r: int32)
    ensures -Pi <= angle <= Pi ==> 0 <= r <= 359
  {
    var unit0 := angle / (2.0 * Pi);
    var unit := if unit0 < 0.0 then unit0 + 1.0 else unit0;
    var radians := FloatToInt(unit * 360.0 - ((360 / 4) * 3) as real);
    if radians < 0 then radians + 360 else radians
  }

  /**
   * `calculateAngleFromRadians`: a sweep in degrees back to the pointer's
   * angle in radians. `calculateRadiansFromAngle` takes it back to the sweep.
   */
  function AngleFromSweep(sweep: int32): (r: real)
    ensures 0 <= sweep <= MaxInt32 - 270 ==> SweepFromAngle(r) == sweep
  {
    SweepRoundTrip(sweep);
    Wrap32(sweep + 270) as real * (2.0 * Pi) / 360.0
  }

  lemma SweepRoundTrip(sweep: int32)
    ensures 0 <= sweep <= MaxInt32 - 270 ==>
              SweepFromAngle(Wrap32(sweep + 270) as real * (2.0 * Pi) / 360.0) == sweep
  {
    if 0 <= sweep <= MaxInt32 - 270 {
      var a := (sweep + 270) as real * (2.0 * Pi) / 360.0;
      var unit0 := a / (2.0 * Pi);
      assert unit0 == (sweep + 270) as real / 360.0;
      assert unit0 * 360.0 - ((360 / 4) * 3) as real == sweep as real;
    }
  }

  // ---------------------------------------------------------------------
  // setProgress and setAngle
  // ---------------------------------------------------------------------

  /** The listener block of `setProgress`: it divides by the interval without checking it. */
  function Notify(c: Config, d: Dial): (r: DialResult)
    ensures !c.hasListener ==> r == DialResult(d, Completed)
    ensures c.hasListener && c.interval == 0 ==>
              r == DialResult(d.(events := d.events + [ProgressChanged(d.progress)]), ArithmeticException)
    ensures c.hasListener && c.interval != 0 ==>
              r.status == Completed
              && r.dial.progressWithInterval == FloorToInterval(d.progress, c.interval)
              && r.dial.events == d.events + [ProgressChanged(d.progress), IntervalProgressChanged(r.dial.progressWithInterval)]
    ensures r.dial.progress == d.progress && r.dial.angle == d.angle && r.dial.text == d.text
    ensures r.dial.calledFromAngle == d.calledFromAngle
  {
    if !c.hasListener then DialResult(d, Completed)
    else
      var d1 := d.(events := d.events + [ProgressChanged(d.progress)]);
      if c.interval == 0 then DialResult(d1, ArithmeticException)
      else
        var q := FloorToInterval(d.progress, c.interval);
        DialResult(d1.(progressWithInterval := q, events := d1.events + [IntervalProgressChanged(q)]), Completed)
  }

  /**
   * `setProgress(p)`. Nothing happens when `p` is the current progress.
   * Otherwise the progress becomes `p`; unless the call comes from
   * `setAngle`, the angle is recomputed from it in integer arithmetic and
   * `setAngle` is called; then the listener is notified.
   */
  function SetProgressSpec(c: Config, d: Dial, p: int32): (r: DialResult)
    decreases if d.calledFromAngle then 0 else 2
    ensures d.progress == p ==> r == DialResult(d, Completed)
    ensures d.calledFromAngle ==> r.dial.angle == d.angle && r.dial.text == d.text
    ensures d.progress != p && d.calledFromAngle ==> r.dial.progress == p && !r.dial.calledFromAngle
    ensures r.status == ArithmeticException ==>
              (c.hasListener && c.interval == 0) || (!d.calledFromAngle && c.max == 0)
    ensures d.progress != p && c.hasListener && c.interval == 0 ==> r.status == ArithmeticException
  {
    if d.progress == p then DialResult(d, Completed)
    else
      var d1 := d.(progress := p);
      if !d.calledFromAngle then
        if c.max == 0 then DialResult(d1, ArithmeticException)
        else
          var inner := SetAngleSpec(c, d1, AngleOfProgress(p, c.max) as real);
          if inner.status == ArithmeticException then inner
          else Notify(c, inner.dial.(calledFromAngle := false))
      else Notify(c, d1.(calledFromAngle := false))
  }

  /** The angle `setProgress` computes, in `int` arithmetic: the percentage of `max`, then degrees. */
  function AngleOfProgress(p: int32, max: int32): int32
    requires max != 0
  {
    var newPercent := Wrap32(Div32(p, max) * 100);
    Wrap32(Div32(newPercent, 100) * 360)
  }

  /**
   * `setAngle(a)`: the angle becomes `a`, and the progress is set, as coming
   * from the angle, to `round(a / 360 * max)`.
   */
  function SetAngleSpec(c: Config, d: Dial, a: real): (r: DialResult)
    decreases 1
    ensures r.dial.angle == a
    ensures r.dial.text == d.text
    // the progress is the one the angle asks for
    ensures r.dial.progress == ProgressFromAngle(a, c.max)
    // the flag stays raised exactly when that progress was already current
    ensures r.dial.calledFromAngle <==> d.progress == ProgressFromAngle(a, c.max)
    ensures r.status == ArithmeticException ==> c.hasListener && c.interval == 0
  {
    SetProgressSpec(c, d.(angle := a, calledFromAngle := true), ProgressFromAngle(a, c.max))
  }

  /** The progress `setAngle` asks for: the share of a full turn as a percentage, times `max`, rounded. */
  function ProgressFromAngle(a: real, max: int32): (r: int32)
    ensures 0.0 <= a <= 360.0 && 0 <= max ==> 0 <= r <= max
  {
    ProgressInRange(a, max);
    RoundToInt(((a / 360.0) * 100.0 / 100.0) * max as real)
  }

  /** A product of two non-negative reals is non-negative. */
  lemma ProductNonNegative(x: real, y: real)
    requires 0.0 <= x && 0.0 <= y
    ensures 0.0 <= x * y
  {
  }

  /** The progress computed from an angle of the dial lies between 0 and `max`. */
  lemma ProgressInRange(a: real, max: int32)
    ensures 0.0 <= a <= 360.0 && 0 <= max ==> 0 <= RoundToInt(((a / 360.0) * 100.0 / 100.0) * max as real) <= max
  {
    if 0.0 <= a <= 360.0 && 0 <= max {
      var share := a / 360.0;
      assert share * 100.0 / 100.0 == share;
      var v := share * max as real;
      assert 0.0 <= v <= max as real by {
        var m := max as real;
        assert 0.0 <= share <= 1.0;
        var rest := 1.0 - share;
        ProductNonNegative(share, m);
        ProductNonNegative(rest, m);
        assert m - v == rest * m;
      }
      assert (v + 0.5).Floor <= max;
    }
  }

  /**
   * A `setProgress(p)` made from outside (not from `setAngle`) keeps only
   * the whole multiples of `max` in `p`: the progress ends at
   * `(p / max) * max` and the angle at `360 * (p / max)`. In particular a
   * value strictly between 0 and `max` leaves the progress at 0.
   */
  lemma SetProgressKeepsWholeTurns(c: Config, d: Dial, p: int32)
    requires !d.calledFromAngle && d.progress != p
    requires c.max > 0 && 0 <= p && p / c.max <= 5_965_232
    requires !c.hasListener || c.interval != 0
    ensures var r := SetProgressSpec(c, d, p);
            r.status == Completed
            && r.dial.progress == (p / c.max) * c.max
            && r.dial.angle == 360.0 * (p / c.max) as real
            && !r.dial.calledFromAngle
  {
    var q := p / c.max;
    var a := (q * 360) as real;
    var d1 := d.(progress := p);
    var inner := SetAngleSpec(c, d1, a);
    assert inner == SetProgressSpec(c, d1.(angle := a, calledFromAngle := true), q * c.max) by {
      RoundWholeTurn(p, c.max);
    }
    assert inner.dial.progress == q * c.max && inner.dial.angle == a && inner.status == Completed;
    assert SetProgressSpec(c, d, p) == Notify(c, inner.dial.(calledFromAngle := false)) by {
      WholeTurnAngle(p, c.max);
    }
  }

  /** The two notifications about progress 0 that an outside `setProgress(p)` with `0 < p < max` makes. */
  function TwiceZero(): seq<SeekEvent>
  {
    [ProgressChanged(0), IntervalProgressChanged(0), ProgressChanged(0), IntervalProgressChanged(0)]
  }

  /**
   * As written, an outside `setProgress(p)` with `0 < p < max` truncates the
   * percentage to 0: `setAngle(0)` sets the progress back to 0 and notifies,
   * then the outer call notifies again about the same 0.
   */
  lemma SetProgressBelowMax(c: Config, d: Dial, p: int32)
    requires c.hasListener && c.interval > 0 && 0 < p < c.max
    requires !d.calledFromAngle && d.progress != p
    ensures SetProgressSpec(c, d, p)
              == DialResult(d.(progress := 0, angle := 0.0, progressWithInterval := 0, events := d.events + TwiceZero()),
                            Completed)
  {
    assert p / c.max == 0;
    WholeTurnAngle(p, c.max);
    assert AngleOfProgress(p, c.max) == 0;
    RoundWhole(0);
    assert ProgressFromAngle(0.0, c.max) == 0;
    assert FloorToInterval(0, c.interval) == 0;
    var d1 := d.(progress := p);
    var d2 := d1.(angle := 0.0, calledFromAngle := true);
    var once := d2.(progress := 0, calledFromAngle := false, progressWithInterval := 0,
                    events := d.events + [ProgressChanged(0), IntervalProgressChanged(0)]);
    assert SetProgressSpec(c, d2, 0) == Notify(c, d2.(progress := 0, calledFromAngle := false));
    assert SetAngleSpec(c, d1, 0.0) == DialResult(once, Completed);
    assert SetProgressSpec(c, d, p) == Notify(c, once);
  }

  /**
   * Calling `setProgress(p)` twice with the same `0 < p < max` does not make
   * the second call a no-op: the progress is no longer `p`, so both
   * notifications are repeated.
   */
  lemma SetProgressRepeatsNotification(c: Config, d: Dial, p: int32)
    requires c.hasListener && c.interval > 0 && 0 < p < c.max
    requires !d.calledFromAngle && d.progress != p
    ensures var r1 := SetProgressSpec(c, d, p);
            var r2 := SetProgressSpec(c, r1.dial, p);
            r1.status == Completed && r1.dial.progress == 0 && r1.dial.events == d.events + TwiceZero()
            && r2.status == Completed && r2.dial.events == r1.dial.events + TwiceZero()
  {
    SetProgressBelowMax(c, d, p);
    SetProgressBelowMax(c, SetProgressSpec(c, d, p).dial, p);
  }

  /** The angle of progress `p` as the exact share of a full turn. */
  function ExactAngleOfProgress(p: int32, max: int32): real
    requires max != 0
  {
    p as real / max as real * 360.0
  }

  /**
   * `setProgress` as evidently intended: the angle is the exact share of a
   * full turn, so `setAngle` finds the progress already at `p`. The zero
   * `max` still fails, as the written division does.
   */
  function SetProgressCorrected(c: Config, d: Dial, p: int32): (r: DialResult)
    ensures d.progress == p ==> r == DialResult(d, Completed)
    ensures r.status == ArithmeticException ==>
              (c.hasListener && c.interval == 0) || (!d.calledFromAngle && c.max == 0)
  {
    if d.progress == p then DialResult(d, Completed)
    else
      var d1 := d.(progress := p);
      if !d.calledFromAngle then
        if c.max == 0 then DialResult(d1, ArithmeticException)
        else
          var inner := SetAngleSpec(c, d1, ExactAngleOfProgress(p, c.max));
          if inner.status == ArithmeticException then inner
          else Notify(c, inner.dial.(calledFromAngle := false))
      else Notify(c, d1.(calledFromAngle := false))
  }

  /** `setAngle` of the exact angle of `p` asks for `p` again. */
  lemma ExactAngleRoundTrip(p: int32, max: int32)
    requires max != 0
    ensures ProgressFromAngle(ExactAngleOfProgress(p, max), max) == p
  {
    var m := max as real;
    var share := p as real / m;
    assert ExactAngleOfProgress(p, max) / 360.0 == share;
    assert (share * 100.0) / 100.0 == share;
    assert share * m == p as real;
    RoundWhole(p);
  }

  /**
   * The corrected `setProgress(p)` from outside sets the progress to `p`
   * and the angle to its share of a turn, notifies the listener once, and
   * a second call with the same `p` changes nothing and notifies nobody.
   */
  lemma CorrectedSetProgressNotifiesOnce(c: Config, d: Dial, p: int32)
    requires !d.calledFromAngle && d.progress != p && c.max != 0
    requires !c.hasListener || c.interval != 0
    ensures var r1 := SetProgressCorrected(c, d, p);
            r1.status == Completed && r1.dial.progress == p
            && r1.dial.angle == p as real / c.max as real * 360.0
            && r1.dial.events
                 == d.events + (if c.hasListener then [ProgressChanged(p), IntervalProgressChanged(FloorToInterval(p, c.interval))] else [])
            && SetProgressCorrected(c, r1.dial, p) == DialResult(r1.dial, Completed)
  {
    ExactAngleRoundTrip(p, c.max);
  }

  /** The integer steps of `setProgress`: percent, then angle, for a non-negative progress. */
  lemma WholeTurnAngle(p: int32, max: int32)
    requires max > 0 && 0 <= p && p / max <= 5_965_232
    ensures Div32(p, max) == p / max
    ensures AngleOfProgress(p, max) == (p / max) * 360
  {
    var q := p / max;
    assert Quot(p, max) == q;
    assert Wrap32(q * 100) == q * 100;
    assert (q * 100) / 100 == q;
    assert Quot(q * 100, 100) == q;
  }

  /** `setAngle` of a whole number of turns asks for that many multiples of `max`. */
  lemma RoundWholeTurn(p: int32, max: int32)
    requires max > 0 && 0 <= p
    ensures var q := p / max;
            0 <= q * max <= p
            && ProgressFromAngle((q * 360) as real, max) == q * max
  {
    var q := p / max;
    NatDivBounds(p, max);
    var a := (q * 360) as real;
    assert a / 360.0 == q as real;
    assert (q as real * 100.0) / 100.0 == q as real;
    RealOfProduct(q, max);
    RoundWhole(q * max);
  }

  lemma {:induction false} RealOfProduct(x: nat, y: int)
    ensures (x * y) as real == x as real * y as real
  {
    if x > 0 {
      RealOfProduct(x - 1, y);
      assert x * y == (x - 1) * y + y;
    }
  }

  lemma RoundWhole(n: int32)
    ensures RoundToInt(n as real) == n
  {
    assert (n as real + 0.5).Floor == n;
  }

  /** `updatePointer(a, texto)`: set the angle, then show `texto`, floored to the interval when one is set. */
  function UpdatePointerSpec(c: Config, d: Dial, a: real, texto: int32): (r: DialResult)
    ensures r.dial.angle == a
    ensures r.status == ArithmeticException ==> c.hasListener && c.interval == 0
    ensures r.status == Completed ==> r.dial.text == Quantise(texto, c.interval)
    ensures r.status == Completed && c.interval != 0 ==> r.dial.progressWithInterval == r.dial.text
  {
    var moved := SetAngleSpec(c, d, a);
    if moved.status == ArithmeticException then moved
    else if c.interval != 0 then
      var q := FloorToInterval(texto, c.interval);
      DialResult(moved.dial.(progressWithInterval := q, text := q), Completed)
    else DialResult(moved.dial.(text := texto), Completed)
  }

  // ---------------------------------------------------------------------
  // The touch handler
  // ---------------------------------------------------------------------

  /**
   * The boundary latches after a move from sweep `lastRadians` (finger at
   * `lastX`) to sweep `radians` (finger at `x`): the first of six guarded
   * transitions that applies.
   */
  function MoveLatches(blockStart: bool, blockEnd: bool, lastRadians: int32, radians: int32,
                       lastX: real, x: real, startAngle: int32, endAngle: int32): (r: (bool, bool))
    // the latches never become both set unless they already were
    ensures r.0 && r.1 ==> blockStart && blockEnd
    // at most one latch changes
    ensures r.0 == blockStart || r.1 == blockEnd
    // the end latch engages only when the sweep wraps forward past 0 or runs past the end of the arc
    ensures r.1 && !blockEnd ==>
              (lastRadians > radians && radians < 60 && x > lastX && lastRadians > 60)
              || (radians >= endAngle && lastRadians < radians)
    // the start latch engages only when the sweep wraps backward past 0 or falls below the start of the arc
    ensures r.0 && !blockStart ==>
              (startAngle <= lastRadians <= 90 && 270 <= radians <= 359 && x < lastX)
              || (radians < startAngle && lastRadians > radians)
    // a latch is released only when the finger comes back into the arc from the latch's own side
    ensures blockEnd && !r.1 ==> radians < endAngle && lastRadians > endAngle
    ensures blockStart && !r.0 ==> lastRadians < radians && startAngle < radians < endAngle
  {
    if lastRadians > radians && radians < 360 / 6 && x > lastX && lastRadians > 360 / 6 then
      if !blockEnd && !blockStart then (blockStart, true) else (blockStart, blockEnd)
    else if lastRadians >= startAngle && lastRadians <= 360 / 4 && radians <= 360 - 1
         && radians >= (360 / 4) * 3 && x < lastX then
      if !blockStart && !blockEnd then (true, blockEnd) else (blockStart, blockEnd)
    else if radians >= endAngle && !blockStart && lastRadians < radians then (blockStart, true)
    else if radians < endAngle && blockEnd && lastRadians > endAngle then (blockStart, false)
    else if radians < startAngle && lastRadians > radians && !blockEnd then (true, blockEnd)
    else if blockStart && lastRadians < radians && radians > startAngle && radians < endAngle then (false, blockEnd)
    else (blockStart, blockEnd)
  }

  /** The sweep the pointer is drawn at: one degree short of the end when end-latched, the start when start-latched. */
  function PinnedSweep(blockStart: bool, blockEnd: bool, sweep: int32, c: Config): (arc: int32)
    ensures blockEnd ==> arc == Wrap32(c.endAngle - 1)
    ensures !blockEnd && blockStart ==> arc == c.startAngle
    ensures !blockEnd && !blockStart ==> arc == sweep
  {
    if blockEnd then Wrap32(c.endAngle - 1) else if blockStart then c.startAngle else sweep
  }

  /** The listener block of `ACTION_MOVE`: report the shown value, floored to the interval only when one is set. */
  function TouchNotify(c: Config, d: Dial): (r: Dial)
    ensures !c.hasListener ==> r == d
    ensures c.hasListener ==>
              r == d.(progressWithInterval := Quantise(d.text, c.interval),
                      events := d.events + [ProgressChanged(d.text), IntervalProgressChanged(Quantise(d.text, c.interval))])
  {
    if !c.hasListener then d
    else
      var progress := d.text;
      var q := if c.interval != 0 then FloorToInterval(progress, c.interval) else progress;
      d.(progressWithInterval := q, events := d.events + [ProgressChanged(progress), IntervalProgressChanged(q)])
  }

  /** Where a move during a drag leaves the pointer, the angle it is drawn at and the value to show. */
  datatype Pinned = Pinned(pointer: Pointer, angle: real, texto: int32)

  /** The latch transition of a move, and the pointer pinned to the arc's end or start while latched. */
  function Pin(c: Config, p: Pointer, e: TouchEvent): (r: Pinned)
    ensures (r.pointer.blockStart, r.pointer.blockEnd)
              == MoveLatches(p.blockStart, p.blockEnd, p.lastRadians, e.Sweep(), p.lastX, e.x, c.startAngle, c.endAngle)
    ensures r.pointer == p.(blockStart := r.pointer.blockStart, blockEnd := r.pointer.blockEnd,
                            arcFinishRadians := PinnedSweep(r.pointer.blockStart, r.pointer.blockEnd, e.Sweep(), c))
    ensures r.pointer.blockEnd ==> r.texto == c.max
  {
    var latches := MoveLatches(p.blockStart, p.blockEnd, p.lastRadians, e.Sweep(), p.lastX, e.x, c.startAngle, c.endAngle);
    var arc := PinnedSweep(latches.0, latches.1, e.Sweep(), c);
    var angle := if latches.0 || latches.1 then AngleFromSweep(arc) else e.angle;
    var texto := if latches.1 then c.max else TextFromAngle(arc, c);
    Pinned(p.(blockStart := latches.0, blockEnd := latches.1, arcFinishRadians := arc), angle, texto)
  }

  /** The `ACTION_MOVE` branch of `onTouchEvent`. */
  function MoveSpec(c: Config, p: Pointer, d: Dial, e: TouchEvent): (r: SeekResult)
    ensures !p.userIsMovingPointer ==> r == SeekResult(p.(lastX := e.x), d, Completed)
    ensures p.userIsMovingPointer ==>
              (r.pointer.blockStart, r.pointer.blockEnd)
                == MoveLatches(p.blockStart, p.blockEnd, p.lastRadians, e.Sweep(), p.lastX, e.x, c.startAngle, c.endAngle)
              && r.pointer.arcFinishRadians == PinnedSweep(r.pointer.blockStart, r.pointer.blockEnd, e.Sweep(), c)
              && r.pointer.userIsMovingPointer
              && (r.status == Completed ==> r.pointer.lastRadians == e.Sweep())
    ensures p.userIsMovingPointer && r.pointer.blockEnd && c.interval == 0 && r.status == Completed ==>
              r.dial.text == c.max
    ensures !(p.blockStart && p.blockEnd) ==> !(r.pointer.blockStart && r.pointer.blockEnd)
    ensures r.status == Completed ==> r.pointer.lastX == e.x
    ensures r.status == ArithmeticException ==> c.hasListener && c.interval == 0
  {
    if !p.userIsMovingPointer then SeekResult(p.(lastX := e.x), d, Completed)
    else
      var pin := Pin(c, p, e);
      var u := UpdatePointerSpec(c, d.(angle := pin.angle), pin.angle, pin.texto);
      if u.status == ArithmeticException then SeekResult(pin.pointer, u.dial, u.status)
      else SeekResult(pin.pointer.(lastRadians := e.Sweep(), lastX := e.x), TouchNotify(c, u.dial), Completed)
  }

  /** `onTouchEvent` for one event. */
  function Touch(c: Config, p: Pointer, d: Dial, e: TouchEvent): (r: SeekResult)
    // DOWN clears both latches, starts the drag and clamps the sweep to the end of the arc, latching there
    ensures e.action.Down? ==>
              !r.pointer.blockStart && r.pointer.blockEnd == (e.Sweep() > c.endAngle)
              && r.pointer.userIsMovingPointer
              && r.pointer.arcFinishRadians == (if e.Sweep() > c.endAngle then c.endAngle else e.Sweep())
              && r.pointer.lastRadians == p.lastRadians
    // a move outside a drag only records the finger's x
    ensures e.action.Move? && !p.userIsMovingPointer ==> r == SeekResult(p.(lastX := e.x), d, Completed)
    // a move during a drag runs the latch transition and pins the pointer accordingly
    ensures e.action.Move? && p.userIsMovingPointer ==>
              (r.pointer.blockStart, r.pointer.blockEnd)
                == MoveLatches(p.blockStart, p.blockEnd, p.lastRadians, e.Sweep(), p.lastX, e.x, c.startAngle, c.endAngle)
              && r.pointer.arcFinishRadians == PinnedSweep(r.pointer.blockStart, r.pointer.blockEnd, e.Sweep(), c)
              && r.pointer.userIsMovingPointer
              && (r.status == Completed ==> r.pointer.lastRadians == e.Sweep())
    // while end-latched without an interval the shown value is max
    ensures e.action.Move? && p.userIsMovingPointer && r.pointer.blockEnd && c.interval == 0 && r.status == Completed ==>
              r.dial.text == c.max
    ensures e.action.Up? ==> r == SeekResult(p.(userIsMovingPointer := false, lastX := e.x), d, Completed)
    ensures e.action.Other? ==> r == SeekResult(p.(lastX := e.x), d, Completed)
    // the latches stay mutually exclusive
    ensures !(p.blockStart && p.blockEnd) ==> !(r.pointer.blockStart && r.pointer.blockEnd)
    ensures r.status == Completed ==> r.pointer.lastX == e.x
    // only a listener combined with a zero interval can make the handler throw
    ensures r.status == ArithmeticException ==> c.hasListener && c.interval == 0
  {
    match e.action
    case Down =>
      var over := e.Sweep() > c.endAngle;
      var arc := if over then c.endAngle else e.Sweep();
      var p1 := p.(blockStart := false, blockEnd := over, userIsMovingPointer := true, arcFinishRadians := arc);
      if over then SeekResult(p1.(lastX := e.x), d.(angle := e.angle), Completed)
      else
        var u := UpdatePointerSpec(c, d.(angle := e.angle), e.angle, TextFromAngle(arc, c));
        if u.status == ArithmeticException then SeekResult(p1, u.dial, u.status)
        else SeekResult(p1.(lastX := e.x), u.dial, Completed)
    case Move => MoveSpec(c, p, d, e)
    case Up => SeekResult(p.(userIsMovingPointer := false, lastX := e.x), d, Completed)
    case Other => SeekResult(p.(lastX := e.x), d, Completed)
  }

  /** A sequence of touch events, stopping at the first one that throws. */
  function TouchRun(c: Config, p: Pointer, d: Dial, events: seq<TouchEvent>): SeekResult
    decreases |events|
  {
    if events == [] then SeekResult(p, d, Completed)
    else
      var r := Touch(c, p, d, events[0]);
      if r.status == ArithmeticException then r
      else TouchRun(c, r.pointer, r.dial, events[1..])
  }

  /** Over any sequence of touch events the two latches are never set together. */
  lemma {:induction false} LatchesStayExclusive(c: Config, p: Pointer, d: Dial, events: seq<TouchEvent>)
    requires !(p.blockStart && p.blockEnd)
    ensures var r := TouchRun(c, p, d, events); !(r.pointer.blockStart && r.pointer.blockEnd)
    decreases |events|
  {
    if events != [] {
      var r := Touch(c, p, d, events[0]);
      if r.status != ArithmeticException {
        LatchesStayExclusive(c, r.pointer, r.dial, events[1..]);
      }
    }
  }

  /**
   * No move of `moves` meets the end latch's release guard: coming back below
   * the end from past it. Each move's predecessor is the previous move's
   * sweep, the first one's the recorded `lastRadians`.
   */
  predicate NoEndRelease(c: Config, lastRadians: int32, moves: seq<TouchEvent>)
    decreases |moves|
  {
    moves == []
    || (!(moves[0].Sweep() < c.endAngle && lastRadians > c.endAngle)
        && NoEndRelease(c, moves[0].Sweep(), moves[1..]))
  }

  /**
   * Once the end latch is set, every further move that does not release it
   * keeps the pointer one degree short of the end, showing `max`.
   */
  lemma {:induction false} EndLatchHoldsAtMax(c: Config, p: Pointer, d: Dial, moves: seq<TouchEvent>)
    requires p.blockEnd && !p.blockStart && p.userIsMovingPointer && c.interval == 0
    requires forall i :: 0 <= i < |moves| ==> moves[i].action.Move?
    requires NoEndRelease(c, p.lastRadians, moves)
    ensures var r := TouchRun(c, p, d, moves);
            r.pointer.blockEnd && !r.pointer.blockStart
            && (moves != [] && r.status == Completed ==>
                  r.pointer.arcFinishRadians == Wrap32(c.endAngle - 1) && r.dial.text == c.max)
    decreases |moves|
  {
    if moves != [] {
      var r := Touch(c, p, d, moves[0]);
      if r.status != ArithmeticException {
        if |moves| > 1 {
          assert r.pointer.lastRadians == moves[0].Sweep();
          EndLatchHoldsAtMax(c, r.pointer, r.dial, moves[1..]);
        }
      }
    }
  }

  // ---------------------------------------------------------------------
  // Placing the pointer from a progress position
  // ---------------------------------------------------------------------

  /** The sweep `init` and `initPointerFromPosition` give the pointer for `position`: the angle less 90, clamped to the end. */
  function PlacedSweep(position: int32, c: Config): (arc: int32)
    ensures arc <= c.endAngle
    ensures 0 < position < c.max && 0 <= c.endAngle ==> 0 <= arc <= 359
    ensures (position == 0 || position >= c.max) ==> arc == if 0 > c.endAngle then c.endAngle else 0
  {
    var raw := Wrap32(DoubleToInt(AngleFromText(position, c.max)) - 90);
    if raw > c.endAngle then c.endAngle else raw
  }

  /** Lines shared by `init` and `initPointerFromPosition`: move the pointer to `position` and show its text. */
  function Place(c: Config, p: Pointer, d: Dial, position: int32): (r: SeekResult)
    ensures r.pointer == p.(arcFinishRadians := PlacedSweep(position, c))
    ensures r.dial.angle == AngleFromSweep(PlacedSweep(position, c))
    ensures r.status == ArithmeticException ==> c.hasListener && c.interval == 0
  {
    var arc := PlacedSweep(position, c);
    var angle := AngleFromSweep(arc);
    var u := UpdatePointerSpec(c, d.(angle := angle), angle, TextFromAngle(arc, c));
    SeekResult(p.(arcFinishRadians := arc), u.dial, u.status)
  }

  /** `initPointerFromPosition(position)`: nothing for the guard values, otherwise `Place`. */
  function InitPointerSpec(c: Config, p: Pointer, d: Dial, position: int32): (r: SeekResult)
    ensures position == 0 || position >= c.max ==> r == SeekResult(p, d, Completed)
    ensures 0 < position < c.max && 0 <= c.endAngle ==> 0 <= r.pointer.arcFinishRadians <= 359
    ensures r.pointer.arcFinishRadians <= c.endAngle || r.pointer == p
  {
    if position == 0 || position >= c.max then SeekResult(p, d, Completed)
    else Place(c, p, d, position)
  }

  /** The progress state of a newly built view, before `init` runs. */
  const FreshDial := Dial(0, 0.0, false, 0, 0, [])

  /** The pointer state of a newly built view, before `init` runs. */
  const FreshPointer := Pointer(false, false, 0, 0.0, 360, false)

  /** The initial position `init` uses: one below the start angle is replaced by the start angle's text. */
  function InitialPosition(initPosition: int32, c: Config): (r: int32)
    ensures c.startAngle <= initPosition ==> r == initPosition
    ensures initPosition < c.startAngle && c.startAngle == 0 ==> r == 0
    ensures initPosition < c.startAngle && 0 < c.startAngle <= c.endAngle - c.startAngle <= MaxInt32 && 0 <= c.max ==>
              0 <= r <= c.max
  {
    if initPosition < c.startAngle then TextFromStartAngle(c.startAngle, c) else initPosition
  }

  class CircleSeekBar {
    var startAngle: int32
    var endAngle: int32
    var max: int32
    var interval: int32
    var hasListener: bool
    var initPosition: int32

    var progress: int32
    var angle: real
    var calledFromAngle: bool
    var progressWithInterval: int32
    var text: int32
    var events: seq<SeekEvent>

    var blockStart: bool
    var blockEnd: bool
    var lastRadians: int32
    var lastX: real
    var arcFinishRadians: int32
    var userIsMovingPointer: bool

    function Settings(): Config
      reads this
    {
      Config(startAngle, endAngle, max, interval, hasListener)
    }

    function DialState(): Dial
      reads this
    {
      Dial(progress, angle, calledFromAngle, progressWithInterval, text, events)
    }

    function PointerState(): Pointer
      reads this
    {
      Pointer(blockStart, blockEnd, lastRadians, lastX, arcFinishRadians, userIsMovingPointer)
    }

    /** The two boundary latches are never set together. */
    ghost predicate Valid()
      reads this
    {
      !(blockStart && blockEnd)
    }

    /**
     * The constructor with the view's attributes, followed by `init`: the
     * last sweep starts at the end angle, an initial position below the
     * start angle is replaced, and the pointer is placed.
     */
    constructor (startAngle: int32, endAngle: int32, max: int32, initPosition: int32)
      ensures Valid()
      ensures Settings() == Config(startAngle, endAngle, max, 0, false)
      ensures this.initPosition == InitialPosition(initPosition, Settings())
      ensures var r := Place(Settings(), FreshPointer.(lastRadians := endAngle), FreshDial, this.initPosition);
              PointerState() == r.pointer && DialState() == r.dial
    {
      this.startAngle := startAngle;
      this.endAngle := endAngle;
      this.max := max;
      interval := 0;
      hasListener := false;
      this.initPosition := initPosition;
      progress := 0;
      angle := 0.0;
      calledFromAngle := false;
      progressWithInterval := 0;
      text := 0;
      events := [];
      blockStart := false;
      blockEnd := false;
      lastRadians := 0;
      lastX := 0.0;
      arcFinishRadians := 360;
      userIsMovingPointer := false;
      new;
      lastRadians := endAngle;
      if initPosition < startAngle {
        this.initPosition := TextFromStartAngle(startAngle, Settings());
      }
      var _ := PlacePointer(this.initPosition);
    }

    method SetOnSeekBarChangeListener(present: bool)
      modifies this
      ensures Settings() == old(Settings()).(hasListener := present)
      ensures DialState() == old(DialState()) && PointerState() == old(PointerState()) && initPosition == old(initPosition)
    {
      hasListener := present;
    }

    method SetInterval(interval: int32)
      modifies this
      ensures Settings() == old(Settings()).(interval := interval)
      ensures DialState() == old(DialState()) && PointerState() == old(PointerState()) && initPosition == old(initPosition)
    {
      this.interval := interval;
    }

    method SetMaxProgress(maxProgress: int32)
      modifies this
      ensures Settings() == old(Settings()).(max := maxProgress)
      ensures DialState() == old(DialState()) && PointerState() == old(PointerState()) && initPosition == old(initPosition)
    {
      max := maxProgress;
    }

    method SetStartAngle(startAngle: int32)
      modifies this
      ensures Settings() == old(Settings()).(startAngle := startAngle)
      ensures DialState() == old(DialState()) && PointerState() == old(PointerState()) && initPosition == old(initPosition)
    {
      this.startAngle := startAngle;
    }

    method SetEndAngle(endAngle: int32)
      modifies this
      ensures Settings() == old(Settings()).(endAngle := endAngle)
      ensures DialState() == old(DialState()) && PointerState() == old(PointerState()) && initPosition == old(initPosition)
    {
      this.endAngle := endAngle;
    }

    method SetInitPosition(initPosition: int32)
      modifies this
      ensures this.initPosition == initPosition
      ensures Settings() == old(Settings()) && DialState() == old(DialState()) && PointerState() == old(PointerState())
    {
      this.initPosition := initPosition;
    }

    /** `setProgress(p)`. */
    method SetProgress(p: int32) returns (status: Status)
      modifies this
      decreases if calledFromAngle then 0 else 2
      ensures DialResult(DialState(), status) == SetProgressSpec(old(Settings()), old(DialState()), p)
      ensures Settings() == old(Settings()) && PointerState() == old(PointerState()) && initPosition == old(initPosition)
    {
      status := Completed;
      if progress != p {
        progress := p;
        if !calledFromAngle {
          if max == 0 {
            return ArithmeticException;
          }
          status := SetAngle(AngleOfProgress(progress, max) as real);
          if status == ArithmeticException {
            return;
          }
        }
        calledFromAngle := false;
        status := NotifyProgress();
      }
    }

    /** The listener block of `setProgress`. */
    method NotifyProgress() returns (status: Status)
      modifies this
      ensures DialResult(DialState(), status) == Notify(old(Settings()), old(DialState()))
      ensures Settings() == old(Settings()) && PointerState() == old(PointerState()) && initPosition == old(initPosition)
    {
      status := Completed;
      if hasListener {
        var newProgress := progress;
        events := events + [ProgressChanged(newProgress)];
        if interval == 0 {
          return ArithmeticException;
        }
        newProgress := FloorToInterval(newProgress, interval);
        progressWithInterval := newProgress;
        events := events + [IntervalProgressChanged(progressWithInterval)];
      }
    }

    /** `setAngle(a)`. */
    method SetAngle(a: real) returns (status: Status)
      modifies this
      decreases 1
      ensures DialResult(DialState(), status) == SetAngleSpec(old(Settings()), old(DialState()), a)
      ensures Settings() == old(Settings()) && PointerState() == old(PointerState()) && initPosition == old(initPosition)
    {
      angle := a;
      calledFromAngle := true;
      status := SetProgress(ProgressFromAngle(angle, max));
    }

    /** `updatePointer(a, texto)`. */
    method UpdatePointer(a: real, texto: int32) returns (status: Status)
      modifies this
      ensures DialResult(DialState(), status) == UpdatePointerSpec(old(Settings()), old(DialState()), a, texto)
      ensures Settings() == old(Settings()) && PointerState() == old(PointerState()) && initPosition == old(initPosition)
    {
      status := SetAngle(a);
      if status == ArithmeticException {
        return;
      }
      if interval != 0 {
        var progress := texto;
        progress := FloorToInterval(progress, interval);
        progressWithInterval := progress;
        text := progressWithInterval;
      } else {
        text := texto;
      }
    }

    /** The lines `init` shares with `initPointerFromPosition`. */
    method PlacePointer(position: int32) returns (status: Status)
      modifies this
      ensures var r := Place(old(Settings()), old(PointerState()), old(DialState()), position);
              PointerState() == r.pointer && DialState() == r.dial && status == r.status
      ensures Settings() == old(Settings()) && initPosition == old(initPosition)
    {
      arcFinishRadians := Wrap32(DoubleToInt(AngleFromText(position, max)) - 90);
      if arcFinishRadians > endAngle {
        arcFinishRadians := endAngle;
      }
      angle := AngleFromSweep(arcFinishRadians);
      status := UpdatePointer(angle, TextFromAngle(arcFinishRadians, Settings()));
    }

    /** `initPointerFromPosition(position)`. */
    method InitPointerFromPosition(position: int32) returns (status: Status)
      modifies this
      ensures var r := InitPointerSpec(old(Settings()), old(PointerState()), old(DialState()), position);
              PointerState() == r.pointer && DialState() == r.dial && status == r.status
      ensures Settings() == old(Settings()) && initPosition == old(initPosition)
    {
      if position == 0 || position >= max {
        return Completed;
      }
      status := PlacePointer(position);
    }

    /** `onTouchEvent(e)`: returns true (the event is consumed) unless it throws. */
    method OnTouchEvent(e: TouchEvent) returns (status: Status, consumed: bool)
      requires Valid()
      modifies this
      ensures Valid()
      ensures var r := Touch(old(Settings()), old(PointerState()), old(DialState()), e);
              PointerState() == r.pointer && DialState() == r.dial && status == r.status
      ensures consumed <==> status == Completed
      ensures Settings() == old(Settings()) && initPosition == old(initPosition)
    {
      match e.action {
        case Down =>
          status := TouchDown(e);
        case Move =>
          status := TouchMove(e);
        case Up =>
          userIsMovingPointer := false;
          lastX := e.x;
          status := Completed;
        case Other =>
          lastX := e.x;
          status := Completed;
      }
      consumed := status == Completed;
    }

    /** The `ACTION_DOWN` branch of `onTouchEvent`, with the final update of `lastX`. */
    method TouchDown(e: TouchEvent) returns (status: Status)
      requires e.action.Down?
      modifies this
      ensures var r := Touch(old(Settings()), old(PointerState()), old(DialState()), e);
              PointerState() == r.pointer && DialState() == r.dial && status == r.status
      ensures Settings() == old(Settings()) && initPosition == old(initPosition)
    {
      GrabPointer(e);
      status := Completed;
      if !blockEnd && !blockStart {
        status := UpdatePointer(angle, TextFromAngle(arcFinishRadians, Settings()));
        if status == ArithmeticException {
          return;
        }
      }
      lastX := e.x;
    }

    /** The first lines of the `ACTION_DOWN` branch: release both latches and place the arc under the finger, pinned at the end angle. */
    method GrabPointer(e: TouchEvent)
      modifies this
      ensures PointerState() == old(PointerState()).(blockStart := false, blockEnd := e.Sweep() > endAngle,
                                                     arcFinishRadians := if e.Sweep() > endAngle then endAngle else e.Sweep(),
                                                     userIsMovingPointer := true)
      ensures DialState() == old(DialState()).(angle := e.angle)
      ensures Settings() == old(Settings()) && initPosition == old(initPosition)
    {
      angle := e.angle;
      blockEnd := false;
      blockStart := false;
      userIsMovingPointer := true;
      arcFinishRadians := e.Sweep();
      if arcFinishRadians > endAngle {
        arcFinishRadians := endAngle;
        blockEnd := true;
      }
    }

    /** The `ACTION_MOVE` branch of `onTouchEvent`, with the final update of `lastX`. */
    method TouchMove(e: TouchEvent) returns (status: Status)
      modifies this
      ensures var r := MoveSpec(old(Settings()), old(PointerState()), old(DialState()), e);
              PointerState() == r.pointer && DialState() == r.dial && status == r.status
      ensures Settings() == old(Settings()) && initPosition == old(initPosition)
    {
      var x := e.x;
      status := Completed;
      if userIsMovingPointer {
        angle := e.angle;
        var texto := PinPointer(e);
        status := UpdatePointer(angle, texto);
        if status == ArithmeticException {
          return;
        }
        NotifyMove();
        lastRadians := e.Sweep();
      }
      lastX := x;
    }

    /** The latch transition of `ACTION_MOVE` and the pinning of the pointer; returns the value to show. */
    method PinPointer(e: TouchEvent) returns (texto: int32)
      modifies this
      ensures var pin := Pin(old(Settings()), old(PointerState()), e);
              PointerState() == pin.pointer && texto == pin.texto
              && DialState() == old(DialState()).(angle := if pin.pointer.blockStart || pin.pointer.blockEnd then pin.angle else old(angle))
      ensures Settings() == old(Settings()) && initPosition == old(initPosition)
    {
      var radians := e.Sweep();
      var latches := MoveLatches(blockStart, blockEnd, lastRadians, radians, lastX, e.x, startAngle, endAngle);
      blockStart, blockEnd := latches.0, latches.1;
      texto := PinArc(radians);
    }

    /** Pin the arc to the end or the start while latched, or follow the finger; returns the value to show. */
    method PinArc(radians: int32) returns (texto: int32)
      modifies this
      ensures PointerState() == old(PointerState()).(arcFinishRadians := PinnedSweep(blockStart, blockEnd, radians, Settings()))
      ensures DialState() == old(DialState()).(angle := if blockStart || blockEnd then AngleFromSweep(arcFinishRadians) else old(angle))
      ensures texto == if blockEnd then max else TextFromAngle(arcFinishRadians, Settings())
      ensures Settings() == old(Settings()) && initPosition == old(initPosition)
    {
      if blockEnd {
        arcFinishRadians := Wrap32(endAngle - 1);
        angle := AngleFromSweep(arcFinishRadians);
        texto := max;
      } else if blockStart {
        arcFinishRadians := startAngle;
        angle := AngleFromSweep(arcFinishRadians);
        texto := TextFromAngle(arcFinishRadians, Settings());
      } else {
        arcFinishRadians := radians;
        texto := TextFromAngle(arcFinishRadians, Settings());
      }
    }

    /** The listener block of the `ACTION_MOVE` branch. */
    method NotifyMove()
      modifies this
      ensures DialState() == TouchNotify(old(Settings()), old(DialState()))
      ensures Settings() == old(Settings()) && PointerState() == old(PointerState()) && initPosition == old(initPosition)
    {
      if hasListener {
        var progress := text;
        events := events + [ProgressChanged(progress)];
        if interval != 0 {
          progress := FloorToInterval(progress, interval);
        }
        progressWithInterval := progress;
        events := events + [IntervalProgressChanged(progressWithInterval)];
      }
    }
  }
}
