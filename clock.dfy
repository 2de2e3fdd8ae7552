/** The animation clock of `DimoLogoView` as values: the wrap performed when
    `time` is assigned, the clamped `progress` read and write, and the fixed
    tick. The view classes hold the state and use these. */
module Clock {
  import opened Geometry

  /** Every tick (`fire`, or the legacy timer closure) adds this much time. */
  const TickStep: real := 0.05

  /** What an assignment to `time` leaves behind: a value past
      `duration + interval` snaps to 0 (no modulo), any other value stays. */
  function WrapTime(value: real, duration: real, interval: real): (t: real)
    ensures value > duration + interval ==> t == 0.0
    ensures value <= duration + interval ==> t == value
    ensures value >= 0.0 && duration + interval >= 0.0 ==> 0.0 <= t <= duration + interval
  {
    if value > duration + interval then 0.0 else value
  }

  /** The `progress` getter: 0 when the duration is not positive, otherwise the
      elapsed share of the duration clamped to [0, 1]. */
  function ProgressOf(time: real, duration: real): (p: real)
    ensures 0.0 <= p <= 1.0
    ensures duration <= 0.0 ==> p == 0.0
    ensures duration > 0.0 && 0.0 <= time <= duration ==> p * duration == time
    ensures duration > 0.0 && time >= duration ==> p == 1.0
    ensures duration > 0.0 && time <= 0.0 ==> p == 0.0
  {
    if duration > 0.0 then
      DivFacts(time, duration);
      Clamp01(time / duration)
    else
      0.0
  }

  /** The time the `progress` setter stores: the clamped progress times the
      duration, then the wrap of the `time` assignment. */
  function TimeForProgress(progress: real, duration: real, interval: real): (t: real)
    ensures duration >= 0.0 && interval >= 0.0 ==> 0.0 <= t <= duration
  {
    var c := Clamp01(progress);
    ScaleWithin(duration, c);
    WrapTime(duration * c, duration, interval)
  }

  /** Reading `progress` back after setting it gives the clamped value, for a
      positive duration and a non-negative pause. */
  lemma ProgressRoundTrip(progress: real, duration: real, interval: real)
    requires duration > 0.0 && interval >= 0.0
    ensures ProgressOf(TimeForProgress(progress, duration, interval), duration) == Clamp01(progress)
  {
    var c := Clamp01(progress);
    ScaleWithin(duration, c);
    MulDiv(c, duration);
    assert duration * c <= duration + interval;
    assert WrapTime(duration * c, duration, interval) == duration * c;
    assert TimeForProgress(progress, duration, interval) == duration * c;
    assert ProgressOf(duration * c, duration) == Clamp01(c);
  }

  /** One tick: the step is added and the result wrapped. */
  function Tick(time: real, duration: real, interval: real): (t: real)
    ensures time + TickStep <= duration + interval ==> t - time == TickStep
    ensures time + TickStep > duration + interval ==> t == 0.0
  {
    WrapTime(time + TickStep, duration, interval)
  }

  /** A tick from any non-negative time, or from a time just below 0, lands
      in [0, duration + interval] when that span is non-negative: the wrap
      restores the range even after the duration was shortened. */
  lemma TickLandsInCycle(time: real, duration: real, interval: real)
    requires time >= -TickStep && duration + interval >= 0.0
    ensures 0.0 <= Tick(time, duration, interval) <= duration + interval
  {
  }

  /** `n` ticks in a row. */
  function Ticks(time: real, duration: real, interval: real, n: nat): real {
    if n == 0 then time else Tick(Ticks(time, duration, interval, n - 1), duration, interval)
  }

  /** Ticking `a` times and then `b` times is ticking `a + b` times. */
  lemma {:induction false} TicksAdd(time: real, duration: real, interval: real, a: nat, b: nat)
    ensures Ticks(Ticks(time, duration, interval, a), duration, interval, b)
         == Ticks(time, duration, interval, a + b)
  {
    if b > 0 {
      TicksAdd(time, duration, interval, a, b - 1);
    }
  }

  /** From 0, as long as `n` steps fit in the cycle, `n` ticks add exactly
      `n` steps: no reset happens early. */
  lemma {:induction false} TicksRamp(duration: real, interval: real, n: nat)
    requires n as real * TickStep <= duration + interval
    ensures Ticks(0.0, duration, interval, n) == n as real * TickStep
  {
    if n > 0 {
      TicksRamp(duration, interval, n - 1);
    }
  }

  /** Over exact arithmetic, with the default duration 1.2 and pause 0.15, 27 ticks reach 1.35 and
      the 28th (1.40 > 1.35) snaps back to 0, so the clock repeats every 28
      ticks. */
  lemma {:induction false} DefaultCycle(n: nat)
    ensures Ticks(0.0, 1.2, 0.15, 27) == 1.35
    ensures Ticks(0.0, 1.2, 0.15, 28) == 0.0
    ensures Ticks(0.0, 1.2, 0.15, n + 28) == Ticks(0.0, 1.2, 0.15, n)
  {
    TicksRamp(1.2, 0.15, 27);
    TicksAdd(0.0, 1.2, 0.15, 28, n);
  }
}
