/** `updateTimes`: the phase boundaries derived from the animation duration,
    identical in both revisions of `DimoLogoView`, and the closed ranges the
    drawing code builds from them. */
module Schedule {
  import opened Geometry

  /** The eleven boundary fields that `updateTimes` writes. */
  datatype Schedule = Schedule(
    popAnimationFinishedTime: real,
    repopAnimationFinishedTime: real,
    moveAnimationFinishedTime: real,
    waterDropStretchBeginTime: real,
    waterDropStretchFinishedTime: real,
    fadeInBeginTime: real,
    fadeInFinishedTime: real,
    lineStretchBeginTime: real,
    lineStretchFinishedTime: real,
    lineStretch2FinishedTime: real,
    lineStretch3FinishedTime: real)

  /** The boundaries for a duration `d`, each a fixed fraction of it. */
  function ScheduleFor(d: real): (s: Schedule)
    ensures s.fadeInFinishedTime == d && s.lineStretch3FinishedTime == d
    ensures s.waterDropStretchBeginTime == s.lineStretchBeginTime
    ensures s.fadeInBeginTime == s.lineStretchFinishedTime
  {
    Schedule(
      d * 0.125, d * 0.15, d * 0.85, d * 0.5, d * 0.875, d * 0.8, d * 1.0,
      d * 0.5, d * 0.8, d * 0.9, d * 1.0)
  }

  /** Every range the drawing code builds from `s` is well formed, so none of
      Swift's `lo...hi` constructions traps. */
  predicate Ordered(s: Schedule) {
    && 0.0 <= s.popAnimationFinishedTime <= s.repopAnimationFinishedTime <= s.moveAnimationFinishedTime
    && 0.0 <= s.waterDropStretchBeginTime <= s.waterDropStretchFinishedTime
    && s.fadeInBeginTime <= s.fadeInFinishedTime
    && s.lineStretchBeginTime <= s.lineStretchFinishedTime <= s.lineStretch2FinishedTime <= s.lineStretch3FinishedTime
  }

  /** Every range the drawing code divides by has positive length. */
  predicate Spread(s: Schedule) {
    && 0.0 < s.popAnimationFinishedTime < s.repopAnimationFinishedTime < s.moveAnimationFinishedTime
    && 0.0 < s.waterDropStretchBeginTime < s.waterDropStretchFinishedTime
    && s.fadeInBeginTime < s.fadeInFinishedTime
    && s.lineStretchBeginTime < s.lineStretchFinishedTime < s.lineStretch2FinishedTime < s.lineStretch3FinishedTime
  }

  /** For a non-negative duration the boundaries come in the order
      0 <= 0.125d <= 0.15d <= 0.5d <= 0.8d <= 0.85d <= 0.875d <= d; a negative
      duration reverses them, so the ranges can be built exactly when d >= 0. */
  lemma ScheduleOrdered(d: real)
    ensures Ordered(ScheduleFor(d)) <==> d >= 0.0
    ensures d >= 0.0 ==>
      var s := ScheduleFor(d);
      && 0.0 <= s.popAnimationFinishedTime <= s.repopAnimationFinishedTime
      && s.repopAnimationFinishedTime <= s.waterDropStretchBeginTime <= s.fadeInBeginTime
      && s.fadeInBeginTime <= s.moveAnimationFinishedTime <= s.waterDropStretchFinishedTime
      && s.waterDropStretchFinishedTime <= s.fadeInFinishedTime == d
  {
  }

  /** The divided ranges have positive length exactly when d > 0. */
  lemma ScheduleSpread(d: real)
    ensures Spread(ScheduleFor(d)) <==> d > 0.0
  {
  }

  /** The three ranges of the line's ripples, in the order `drawLine` tries them. */
  function LineRanges(s: Schedule): (r: seq<ClosedRange>)
    requires Ordered(s)
    ensures |r| == 3
    ensures r[0].lo == s.lineStretchBeginTime && r[2].hi == s.lineStretch3FinishedTime
    ensures r[0].hi == r[1].lo && r[1].hi == r[2].lo
  {
    [Interval(s.lineStretchBeginTime, s.lineStretchFinishedTime),
     Interval(s.lineStretchFinishedTime, s.lineStretch2FinishedTime),
     Interval(s.lineStretch2FinishedTime, s.lineStretch3FinishedTime)]
  }

  /** The three ripple ranges tile [0.5d, d]: a time lies in one of them
      exactly when it lies in that span, and for d > 0 two of them share only
      an end. */
  lemma LineRangesTile(d: real, t: real)
    requires d >= 0.0
    ensures var r := LineRanges(ScheduleFor(d));
      && r[0].lo == 0.5 * d && r[2].hi == d
      && ((exists i | 0 <= i < 3 :: r[i].Contains(t)) <==> 0.5 * d <= t <= d)
      && (d > 0.0 ==> forall i, j | 0 <= i < j < 3 ::
            r[i].Contains(t) && r[j].Contains(t) ==> j == i + 1 && t == r[i].hi)
  {
    ScheduleOrdered(d);
    var r := LineRanges(ScheduleFor(d));
    if 0.5 * d <= t <= d {
      if t <= r[0].hi {
        assert r[0].Contains(t);
      } else if t <= r[1].hi {
        assert r[1].Contains(t);
      } else {
        assert r[2].Contains(t);
      }
    }
  }
}
