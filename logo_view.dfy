/** The current revision of `DimoLogoView`: sizes scaled from a reference
    length, the phase schedule kept in step with the duration, the clock
    (`time`, `progress`, `play`, `stop`, `fire`) and the two drawing routines. */
module LogoView {
  import opened Geometry
  import opened Element
  import opened Schedule
  import opened Line
  import opened Clock

  // The reference length and the size ratios relative to it.
  const BaseReference: real := 60.0
  const WaterDropArcRadiusRatio: real := 1.0 / 12.0
  const WaterDropControlPointOffsetYRatio: real := 1.0 / 15.0
  const WaterDropStretchLengthRatio: real := 1.0 / 15.0
  const WaterDropElemMaxIntervalRatio: real := 7.0 / 30.0
  const LineMarginHorizontalRatio: real := 1.0 / 12.0
  const LineWidthRatio: real := 1.0 / 20.0
  const BounceSizeRatio: real := 1.0 / 60.0
  const LineStretchLengthsRatio: seq<real> := [0.2, 2.0 / 15.0, 0.1]

  /** The eight size fields of the view. */
  datatype Sizes = Sizes(
    waterDropArcRadius: real,
    waterDropControlPointOffsetY: real,
    waterDropStretchLength: real,
    waterDropElemMaxInterval: real,
    lineMarginHorizontal: real,
    lineWidth: real,
    bounceSize: real,
    lineStretchLengths: seq<real>)

  /** The sizes a new view starts with, before its first layout. */
  const InitialSizes := Sizes(5.0, 4.0, 4.0, 14.0, 5.0, 3.0, 1.0, [12.0, -8.0, 6.0])

  /** The reference length of a layout: the shorter side, but never below 60. */
  function Reference(width: real, height: real): (r: real)
    ensures r >= BaseReference && r >= Min(width, height)
    ensures r == BaseReference || (r == width && width <= height) || (r == height && height <= width)
    ensures Min(width, height) >= BaseReference ==> r <= width && r <= height
  {
    Max(Min(width, height), BaseReference)
  }

  /** `map { $0 * k }` over a list of ratios. */
  function ScaledBy(ratios: seq<real>, k: real): (r: seq<real>)
    ensures |r| == |ratios|
    ensures forall i | 0 <= i < |r| :: r[i] == ratios[i] * k
  {
    seq(|ratios|, i requires 0 <= i < |ratios| => ratios[i] * k)
  }

  /** Every size is the reference length times its fixed ratio. */
  function SizesFor(reference: real): (z: Sizes)
    ensures |z.lineStretchLengths| == 3
    ensures reference >= 0.0 ==>
      && z.waterDropArcRadius >= 0.0 && z.waterDropControlPointOffsetY >= 0.0
      && z.waterDropStretchLength >= 0.0 && z.waterDropElemMaxInterval >= 0.0
      && z.lineMarginHorizontal >= 0.0 && z.lineWidth >= 0.0 && z.bounceSize >= 0.0
      && forall i | 0 <= i < 3 :: z.lineStretchLengths[i] >= 0.0
  {
    Sizes(
      reference * WaterDropArcRadiusRatio,
      reference * WaterDropControlPointOffsetYRatio,
      reference * WaterDropStretchLengthRatio,
      reference * WaterDropElemMaxIntervalRatio,
      reference * LineMarginHorizontalRatio,
      reference * LineWidthRatio,
      reference * BounceSizeRatio,
      ScaledBy(LineStretchLengthsRatio, reference))
  }

  /** Every size multiplied by `k`. */
  function Scaled(z: Sizes, k: real): Sizes
    requires |z.lineStretchLengths| == 3
  {
    Sizes(
      z.waterDropArcRadius * k, z.waterDropControlPointOffsetY * k, z.waterDropStretchLength * k,
      z.waterDropElemMaxInterval * k, z.lineMarginHorizontal * k, z.lineWidth * k, z.bounceSize * k,
      [z.lineStretchLengths[0] * k, z.lineStretchLengths[1] * k, z.lineStretchLengths[2] * k])
  }

  /** At the reference length 60 a layout reproduces the initial sizes
      (radius 5, stretch 4, margin 5, line width 3, bounce 1, gap 14, control
      offset 4) except for the second ripple, which becomes +8 where the
      initial value is -8: after the first layout all three ripples bulge the
      same way. Every other reference scales these values proportionally. */
  lemma SizesAtBaseReference(reference: real)
    ensures SizesFor(BaseReference) == InitialSizes.(lineStretchLengths := [12.0, 8.0, 6.0])
    ensures SizesFor(BaseReference) != InitialSizes
    ensures SizesFor(reference) == Scaled(SizesFor(BaseReference), reference / BaseReference)
  {
    var z := SizesFor(BaseReference);
    assert z.lineStretchLengths == [12.0, 8.0, 6.0];
    assert z.lineStretchLengths[1] != InitialSizes.lineStretchLengths[1];
    var w := SizesFor(reference);
    var v := Scaled(z, reference / BaseReference);
    assert w.lineStretchLengths == v.lineStretchLengths;
  }

  /** The ranges of the Core drop, built from the schedule as `drawWaterDrop`
      builds them, with the view's sizes: the struct `WaterDrop` of the later
      revision. */
  function DropFor(s: Schedule, z: Sizes): (drop: WaterDrop)
    requires Ordered(s)
    ensures drop.expandTimeRange.hi == drop.shrinkTimeRange.lo
    ensures drop.standingTimeRange == Interval(drop.expandTimeRange.lo, drop.shrinkTimeRange.hi)
    ensures drop.moveTimeRange.lo == drop.standingTimeRange.hi
    ensures drop.roundTimeRange.hi == drop.stretchTimeRange.lo
  {
    WaterDrop(
      z.bounceSize,
      Interval(s.fadeInBeginTime, s.fadeInFinishedTime),
      Interval(0.0, s.popAnimationFinishedTime),
      Interval(s.popAnimationFinishedTime, s.repopAnimationFinishedTime),
      Interval(0.0, s.repopAnimationFinishedTime),
      Interval(s.repopAnimationFinishedTime, s.moveAnimationFinishedTime),
      Interval(0.0, s.waterDropStretchBeginTime),
      Interval(s.waterDropStretchBeginTime, s.waterDropStretchFinishedTime),
      z.waterDropElemMaxInterval,
      z.waterDropArcRadius,
      z.waterDropStretchLength,
      z.waterDropControlPointOffsetY)
  }

  /** `waterDrop(process:arcCenter:)`: the teardrop outline for a stretch
      progress around a center, with the view's radius, stretch length and
      control-point offset. */
  function WaterDropPath(z: Sizes, process: real, arcCenter: Point): (p: Teardrop)
    ensures p.arcCenter == arcCenter && p.arcRadius == z.waterDropArcRadius
    ensures p.apex.x == arcCenter.x && arcCenter.y - p.apex.y == z.waterDropArcRadius + z.waterDropStretchLength * process
    ensures p.leftEnd.y == p.rightEnd.y == arcCenter.y
    ensures p.rightEnd.x - arcCenter.x == arcCenter.x - p.leftEnd.x == z.waterDropArcRadius
    ensures p.leftControl.y == p.rightControl.y == arcCenter.y - z.waterDropControlPointOffsetY
  {
    Teardrop(
      Offset(arcCenter, 0.0, -z.waterDropArcRadius - z.waterDropStretchLength * process),
      arcCenter,
      z.waterDropArcRadius,
      Offset(arcCenter, z.waterDropArcRadius, 0.0),
      Offset(arcCenter, z.waterDropArcRadius, -z.waterDropControlPointOffsetY),
      Offset(arcCenter, -z.waterDropArcRadius, 0.0),
      Offset(arcCenter, -z.waterDropArcRadius, -z.waterDropControlPointOffsetY))
  }

  /** The first step of `drawWaterDrop(time:context:)`: the drop's center,
      the base point while the no-move range holds the time, otherwise moved
      towards the mirror image by the elapsed share of the move range. */
  function WaterDropCenter(s: Schedule, z: Sizes, width: real, height: real, time: real): (c: Point)
    requires Ordered(s) && Spread(s)
    ensures c.x == width / 2.0
    ensures 0.0 <= time <= s.repopAnimationFinishedTime ==>
      c.y == height / 2.0 - z.waterDropElemMaxInterval - (z.waterDropArcRadius + z.lineWidth) / 2.0
  {
    var base := Point(width / 2.0, height / 2.0 - z.waterDropElemMaxInterval - (z.waterDropArcRadius + z.lineWidth) / 2.0);
    var noMoveRange: ClosedRange := Interval(0.0, s.repopAnimationFinishedTime);
    var moveRange: ClosedRange := Interval(s.repopAnimationFinishedTime, s.moveAnimationFinishedTime);
    if !noMoveRange.Contains(time) then
      var elapsed := time - moveRange.lo;
      var distance := 2.0 * (height / 2.0 - base.y);
      Point(base.x, base.y + distance * Min(1.0, elapsed / Length(moveRange)))
    else
      base
  }

  /** The second step of `drawWaterDrop(time:context:)`: the radius, ramped
      up over the pop range, back down over the repop range, and the plain
      arc radius otherwise. */
  function WaterDropRadius(s: Schedule, z: Sizes, time: real): (r: real)
    requires Ordered(s) && Spread(s)
    ensures time == 0.0 ==> r == 0.0
    ensures !(0.0 <= time <= s.repopAnimationFinishedTime) ==> r == z.waterDropArcRadius
  {
    var popRange: ClosedRange := Interval(0.0, s.popAnimationFinishedTime);
    var repopRange: ClosedRange := Interval(s.popAnimationFinishedTime, s.repopAnimationFinishedTime);
    if popRange.Contains(time) then
      (z.waterDropArcRadius + z.bounceSize) * (time - popRange.lo) / Length(popRange)
    else if repopRange.Contains(time) then
      z.waterDropArcRadius + z.bounceSize * (1.0 - (time - repopRange.lo) / Length(repopRange))
    else
      z.waterDropArcRadius
  }

  /** `drawWaterDrop(time:context:)`: the circle until the stretch begins,
      then the teardrop with its alpha. */
  function WaterDropGeometry(s: Schedule, z: Sizes, width: real, height: real, time: real): (g: DropGeometry)
    requires Ordered(s) && Spread(s)
    ensures g.Circle? <==> 0.0 <= time <= s.waterDropStretchBeginTime
    ensures g.Drop? ==>
      g.path.arcCenter == WaterDropCenter(s, z, width, height, time) && g.path.arcRadius == z.waterDropArcRadius
    ensures g.Drop? && time < s.fadeInBeginTime ==> g.alpha == 1.0
  {
    var arcCenter := WaterDropCenter(s, z, width, height, time);
    var radius := WaterDropRadius(s, z, time);
    var noStretchRange: ClosedRange := Interval(0.0, s.waterDropStretchBeginTime);
    var stretchRange: ClosedRange := Interval(s.waterDropStretchBeginTime, s.waterDropStretchFinishedTime);
    var alphaRange: ClosedRange := Interval(s.fadeInBeginTime, s.fadeInFinishedTime);
    if noStretchRange.Contains(time) then
      Circle(arcCenter, radius)
    else
      var alpha := if time >= alphaRange.lo then 1.0 - (time - alphaRange.lo) / Length(alphaRange) else 1.0;
      var elapsed := time - stretchRange.lo;
      Drop(WaterDropPath(z, Min(1.0, elapsed / Length(stretchRange)), arcCenter), alpha)
  }

  /** The center as `drawWaterDrop` computes it is `WaterDrop.center`. */
  lemma WaterDropCenterAgrees(s: Schedule, z: Sizes, width: real, height: real, time: real)
    requires Ordered(s) && Spread(s)
    ensures WaterDropCenter(s, z, width, height, time) == DropFor(s, z).Center(width, height, z.lineWidth, time)
  {
  }

  /** The radius as `drawWaterDrop` computes it is `WaterDrop.radius`. */
  lemma WaterDropRadiusAgrees(s: Schedule, z: Sizes, time: real)
    requires Ordered(s) && Spread(s)
    ensures WaterDropRadius(s, z, time) == DropFor(s, z).Radius(time)
  {
    var drop := DropFor(s, z);
    if drop.expandTimeRange.Contains(time) {
      MulDivAssoc(z.waterDropArcRadius + z.bounceSize, time - drop.expandTimeRange.lo, Length(drop.expandTimeRange));
    }
  }

  /** The later revision's `WaterDrop.draw`, given the ranges and sizes of
      this view, draws exactly what `drawWaterDrop` draws. */
  lemma DrawWaterDropIsElementDraw(s: Schedule, z: Sizes, width: real, height: real, time: real)
    requires Ordered(s) && Spread(s)
    ensures DropFor(s, z).Drawable(time)
    ensures WaterDropGeometry(s, z, width, height, time) == DropFor(s, z).Draw(width, height, z.lineWidth, time)
  {
    var drop := DropFor(s, z);
    PositiveLengthsDrawable(drop, time);
    WaterDropCenterAgrees(s, z, width, height, time);
    WaterDropRadiusAgrees(s, z, time);
  }

  /** With a zero duration every time divides by a zero-length range, which is
      why drawing needs a positive duration. */
  lemma ZeroDurationNeverDrawable(z: Sizes, time: real)
    ensures !DropFor(ScheduleFor(0.0), z).Drawable(time)
  {
  }

  /** The line that `drawLine(time:)` draws, with this view's sizes. */
  function LineGeometryFor(s: Schedule, z: Sizes, width: real, height: real, time: real): LineOutline
    requires Ordered(s) && Spread(s) && |z.lineStretchLengths| >= 3
  {
    LineGeometry(width, height, z.lineMarginHorizontal, z.lineWidth, LineRanges(s), z.lineStretchLengths, time)
  }

  /** At time 0 the drop is a circle of radius 0 at its base position: the
      start of the expand ramp. */
  lemma DropAtStart(d: real, z: Sizes, width: real, height: real)
    requires d > 0.0
    ensures WaterDropGeometry(ScheduleFor(d), z, width, height, 0.0)
         == Circle(DropFor(ScheduleFor(d), z).BaseCenter(width, height, z.lineWidth), 0.0)
  {
    DrawWaterDropIsElementDraw(ScheduleFor(d), z, width, height, 0.0);
  }

  /** The radius: a linear ramp from 0 at time 0 to `arcRadius + bounceSize`
      at 0.125d (the expand ramp wins at the shared end), a linear ramp back
      to `arcRadius` at 0.15d, and `arcRadius` at every later time up to 0.5d;
      up to 0.5d the drop is a circle of that radius. */
  lemma DropRadiusProfile(d: real, z: Sizes, width: real, height: real, time: real)
    requires d > 0.0 && 0.0 <= time <= 0.5 * d
    ensures var g := WaterDropGeometry(ScheduleFor(d), z, width, height, time);
      && g.Circle?
      && (time == 0.0 ==> g.radius == 0.0)
      && (time == 0.125 * d ==> g.radius == z.waterDropArcRadius + z.bounceSize)
      && (time <= 0.125 * d ==> g.radius == (z.waterDropArcRadius + z.bounceSize) * (time / (0.125 * d)))
      && (0.125 * d < time <= 0.15 * d ==>
            g.radius == z.waterDropArcRadius + z.bounceSize * (1.0 - (time - 0.125 * d) / (0.025 * d)))
      && (0.15 * d <= time ==> g.radius == z.waterDropArcRadius)
      && (z.waterDropArcRadius >= 0.0 && z.bounceSize >= 0.0 ==>
            0.0 <= g.radius <= z.waterDropArcRadius + z.bounceSize)
  {
    var s := ScheduleFor(d);
    DrawWaterDropIsElementDraw(s, z, width, height, time);
    assert s.repopAnimationFinishedTime - s.popAnimationFinishedTime == 0.025 * d;
  }

  /** The center: always at half the width; at its base position up to 0.15d;
      at the mirror image of the base about the middle of the view from 0.85d
      on; in between, never beyond either when the base is in the upper half. */
  lemma DropCenterPath(d: real, z: Sizes, width: real, height: real, time: real)
    requires d > 0.0 && time >= 0.0
    ensures var g := WaterDropGeometry(ScheduleFor(d), z, width, height, time);
      var c := if g.Circle? then g.center else g.path.arcCenter;
      var baseY := height / 2.0 - z.waterDropElemMaxInterval - (z.waterDropArcRadius + z.lineWidth) / 2.0;
      && c.x == width / 2.0
      && (time <= 0.15 * d ==> c.y == baseY)
      && (time >= 0.85 * d ==> c.y == height - baseY)
      && (time > 0.15 * d ==>
            c.y == baseY + 2.0 * (height / 2.0 - baseY) * Min(1.0, (time - 0.15 * d) / (0.7 * d)))
      && (baseY <= height / 2.0 ==> baseY <= c.y <= height - baseY)
  {
    var s := ScheduleFor(d);
    DrawWaterDropIsElementDraw(s, z, width, height, time);
    assert s.moveAnimationFinishedTime - s.repopAnimationFinishedTime == 0.7 * d;
  }

  /** After 0.5d the drop is a teardrop of the unbounced radius whose apex
      rises by `stretch * min(1, (t - 0.5d) / 0.375d)` above the arc, with
      alpha 1 before 0.8d and `1 - (t - 0.8d) / 0.2d` from 0.8d on: 0 at the
      end of the cycle and negative during the pause. */
  lemma DropTeardropPhase(d: real, z: Sizes, width: real, height: real, time: real)
    requires d > 0.0 && time > 0.5 * d
    ensures var g := WaterDropGeometry(ScheduleFor(d), z, width, height, time);
      && g.Drop?
      && g.path.arcRadius == z.waterDropArcRadius
      && g.path.rightEnd.x - g.path.arcCenter.x == z.waterDropArcRadius == g.path.arcCenter.x - g.path.leftEnd.x
      && g.path.arcCenter.y - g.path.apex.y
           == z.waterDropArcRadius + z.waterDropStretchLength * Min(1.0, (time - 0.5 * d) / (0.375 * d))
      && (time < 0.8 * d ==> g.alpha == 1.0)
      && (time >= 0.8 * d ==> g.alpha == 1.0 - (time - 0.8 * d) / (0.2 * d))
      && (time == d ==> g.alpha == 0.0)
      && (time > d ==> g.alpha < 0.0)
  {
    var s := ScheduleFor(d);
    ScheduleSpread(d);
    var g := WaterDropGeometry(s, z, width, height, time);
    assert s.waterDropStretchFinishedTime - s.waterDropStretchBeginTime == 0.375 * d;
    assert s.fadeInFinishedTime - s.fadeInBeginTime == 0.2 * d;
    if time >= 0.8 * d {
      DivFacts(time - 0.8 * d, 0.2 * d);
      ScaleCompare((time - 0.8 * d) / (0.2 * d), 1.0, 0.2 * d);
    }
  }

  /** At the end of the cycle the teardrop is fully stretched, fully faded
      and at the mirror position. */
  lemma DropAtCycleEnd(d: real, z: Sizes, width: real, height: real)
    requires d > 0.0
    ensures var g := WaterDropGeometry(ScheduleFor(d), z, width, height, d);
      var baseY := height / 2.0 - z.waterDropElemMaxInterval - (z.waterDropArcRadius + z.lineWidth) / 2.0;
      && g.Drop? && g.alpha == 0.0
      && g.path.arcCenter.y - g.path.apex.y == z.waterDropArcRadius + z.waterDropStretchLength
      && g.path.arcCenter == Point(width / 2.0, height - baseY)
  {
    DropTeardropPhase(d, z, width, height, d);
    DropCenterPath(d, z, width, height, d);
    var q := (d - 0.5 * d) / (0.375 * d);
    DivFacts(d - 0.5 * d, 0.375 * d);
    ScaleCompare(1.0, q, 0.375 * d);
    assert Min(1.0, q) == 1.0;
  }

  /** The ends of the line never move, the bottom contour is the top one a
      line width lower, and the middle point is moved by the ripple shift. */
  lemma LineShape(d: real, z: Sizes, width: real, height: real, time: real)
    requires d > 0.0 && |z.lineStretchLengths| >= 3
    ensures var o := LineGeometryFor(ScheduleFor(d), z, width, height, time);
      && o.top.left == Point(z.lineMarginHorizontal, height / 2.0 - z.lineWidth / 2.0)
      && o.top.right == Point(width - z.lineMarginHorizontal, height / 2.0 - z.lineWidth / 2.0)
      && o.bottom == o.top.Offsetting(z.lineWidth)
      && o.top.center == Point(width / 2.0, height / 2.0 - z.lineWidth / 2.0
                                 + RippleShift(d, z.lineStretchLengths, time))
  {
  }

  /** Which of three ranges `drawLine`'s loop stops at. */
  lemma FirstOfThree(r: seq<ClosedRange>, t: real)
    requires |r| == 3
    ensures FirstContaining(r, t)
         == if r[0].Contains(t) then 0 else if r[1].Contains(t) then 1 else if r[2].Contains(t) then 2 else 3
  {
    if !r[0].Contains(t) {
      assert r[1..][0] == r[1];
      if !r[1].Contains(t) {
        assert r[1..][1..][0] == r[2];
        assert |r[1..][1..][1..]| == 0;
      }
    }
  }

  /** The middle point's shift for duration `d` at `time`. */
  function RippleShift(d: real, offsets: seq<real>, time: real): real
    requires d > 0.0 && |offsets| >= 3
  {
    var r := LineRanges(ScheduleFor(d));
    FirstOfThree(r, time);
    CenterShift(r, offsets, time)
  }

  /** No ripple outside [0.5d, d] and none at any range end (0.5d, 0.8d,
      0.9d, d): the middle point is back in line whenever a ripple ends. */
  lemma LineStill(d: real, offsets: seq<real>, time: real)
    requires d > 0.0 && |offsets| >= 3
    requires time < 0.5 * d || time > d || time == 0.5 * d || time == 0.8 * d || time == 0.9 * d || time == d
    ensures RippleShift(d, offsets, time) == 0.0
  {
    var r := LineRanges(ScheduleFor(d));
    FirstOfThree(r, time);
  }

  /** In the first ripple, [0.5d, 0.8d], the shift is the first peak times
      the folded progress through that range. */
  lemma LineFirstRipple(d: real, offsets: seq<real>, time: real)
    requires d > 0.0 && |offsets| >= 3 && 0.5 * d <= time <= 0.8 * d
    ensures RippleShift(d, offsets, time) == offsets[0] * Fold((time - 0.5 * d) / (0.3 * d))
    ensures Abs(RippleShift(d, offsets, time)) <= Abs(offsets[0]) / 2.0
  {
    var r := LineRanges(ScheduleFor(d));
    FirstOfThree(r, time);
    assert Length(r[0]) == 0.3 * d;
  }

  /** In the second ripple, (0.8d, 0.9d], the second peak. */
  lemma LineSecondRipple(d: real, offsets: seq<real>, time: real)
    requires d > 0.0 && |offsets| >= 3 && 0.8 * d < time <= 0.9 * d
    ensures RippleShift(d, offsets, time) == offsets[1] * Fold((time - 0.8 * d) / (0.1 * d))
    ensures Abs(RippleShift(d, offsets, time)) <= Abs(offsets[1]) / 2.0
  {
    var r := LineRanges(ScheduleFor(d));
    FirstOfThree(r, time);
    assert Length(r[1]) == 0.1 * d;
  }

  /** In the third ripple, (0.9d, d], the third peak. */
  lemma LineThirdRipple(d: real, offsets: seq<real>, time: real)
    requires d > 0.0 && |offsets| >= 3 && 0.9 * d < time <= d
    ensures RippleShift(d, offsets, time) == offsets[2] * Fold((time - 0.9 * d) / (0.1 * d))
    ensures Abs(RippleShift(d, offsets, time)) <= Abs(offsets[2]) / 2.0
  {
    var r := LineRanges(ScheduleFor(d));
    FirstOfThree(r, time);
    assert Length(r[2]) == 0.1 * d;
  }

  /** The view. `running` stands for `displayLink != nil`; `needsDisplay`
      records a `setNeedsDisplay()` request; `boundsWidth` and `boundsHeight`
      are the bounds UIKit assigns. */
  class DimoLogoView {
    var waterDropArcRadius: real
    var waterDropControlPointOffsetY: real
    var waterDropStretchLength: real
    var waterDropElemMaxInterval: real
    var lineMarginHorizontal: real
    var lineWidth: real
    var bounceSize: real
    var lineStretchLengths: seq<real>

    var running: bool

    var popAnimationFinishedTime: real
    var repopAnimationFinishedTime: real
    var moveAnimationFinishedTime: real
    var waterDropStretchBeginTime: real
    var waterDropStretchFinishedTime: real
    var fadeInBeginTime: real
    var fadeInFinishedTime: real
    var lineStretchBeginTime: real
    var lineStretchFinishedTime: real
    var lineStretch2FinishedTime: real
    var lineStretch3FinishedTime: real

    var animationDuration: real
    var animationInterval: real
    var time: real
    var needsDisplay: bool
    var boundsWidth: real
    var boundsHeight: real

    /** The eight size fields as one value. */
    function CurrentSizes(): Sizes
      reads this
    {
      Sizes(waterDropArcRadius, waterDropControlPointOffsetY, waterDropStretchLength,
            waterDropElemMaxInterval, lineMarginHorizontal, lineWidth, bounceSize, lineStretchLengths)
    }

    /** The eleven schedule fields as one value. */
    function CurrentSchedule(): Schedule
      reads this
    {
      Schedule(popAnimationFinishedTime, repopAnimationFinishedTime, moveAnimationFinishedTime,
               waterDropStretchBeginTime, waterDropStretchFinishedTime, fadeInBeginTime,
               fadeInFinishedTime, lineStretchBeginTime, lineStretchFinishedTime,
               lineStretch2FinishedTime, lineStretch3FinishedTime)
    }

    /** The schedule always matches the current duration (it is recomputed on
        every assignment of the duration), and there are three ripple peaks. */
    ghost predicate Valid()
      reads this
    {
      CurrentSchedule() == ScheduleFor(animationDuration) && |lineStretchLengths| == 3
    }

    /** `init(frame:)`: the initial sizes, duration 1.2, pause 0.15, time 0,
        stopped, and the schedule for the initial duration. */
    constructor (width: real, height: real)
      ensures Valid()
      ensures CurrentSizes() == InitialSizes
      ensures animationDuration == 1.2 && animationInterval == 0.15 && time == 0.0
      ensures !running && !needsDisplay
      ensures boundsWidth == width && boundsHeight == height
    {
      waterDropArcRadius := 5.0;
      waterDropControlPointOffsetY := 4.0;
      waterDropStretchLength := 4.0;
      waterDropElemMaxInterval := 14.0;
      lineMarginHorizontal := 5.0;
      lineWidth := 3.0;
      bounceSize := 1.0;
      lineStretchLengths := [12.0, -8.0, 6.0];
      running := false;
      animationDuration := 1.2;
      animationInterval := 0.15;
      time := 0.0;
      needsDisplay := false;
      boundsWidth := width;
      boundsHeight := height;
      new;
      UpdateTimes();
    }

    /** `updateTimes()`: all eleven boundaries recomputed from the duration. */
    method UpdateTimes()
      modifies this`popAnimationFinishedTime, this`repopAnimationFinishedTime,
        this`moveAnimationFinishedTime, this`waterDropStretchBeginTime,
        this`waterDropStretchFinishedTime, this`fadeInBeginTime, this`fadeInFinishedTime,
        this`lineStretchBeginTime, this`lineStretchFinishedTime,
        this`lineStretch2FinishedTime, this`lineStretch3FinishedTime
      ensures CurrentSchedule() == ScheduleFor(animationDuration)
    {
      popAnimationFinishedTime := animationDuration * 0.125;
      repopAnimationFinishedTime := animationDuration * 0.15;
      moveAnimationFinishedTime := animationDuration * 0.85;
      waterDropStretchBeginTime := animationDuration * 0.5;
      waterDropStretchFinishedTime := animationDuration * 0.875;
      fadeInBeginTime := animationDuration * 0.8;
      fadeInFinishedTime := animationDuration * 1.0;

      lineStretchBeginTime := animationDuration * 0.5;
      lineStretchFinishedTime := animationDuration * 0.8;
      lineStretch2FinishedTime := animationDuration * 0.9;
      lineStretch3FinishedTime := animationDuration * 1.0;
    }

    /** Assigning `animationDuration`: its `didSet` recomputes the schedule,
        so the schedule never lags behind the duration. */
    method SetAnimationDuration(duration: real)
      requires Valid()
      modifies this`animationDuration, this`popAnimationFinishedTime, this`repopAnimationFinishedTime,
        this`moveAnimationFinishedTime, this`waterDropStretchBeginTime,
        this`waterDropStretchFinishedTime, this`fadeInBeginTime, this`fadeInFinishedTime,
        this`lineStretchBeginTime, this`lineStretchFinishedTime,
        this`lineStretch2FinishedTime, this`lineStretch3FinishedTime
      ensures Valid() && animationDuration == duration
    {
      animationDuration := duration;
      UpdateTimes();
    }

    /** The `progress` getter. */
    function Progress(): (p: real)
      reads this
      ensures 0.0 <= p <= 1.0
      ensures animationDuration <= 0.0 ==> p == 0.0
      ensures animationDuration > 0.0 && 0.0 <= time <= animationDuration ==> p * animationDuration == time
    {
      ProgressOf(time, animationDuration)
    }

    /** An assignment to `time` together with its `didSet`: a value past the
        end of the cycle and its pause is replaced by 0. */
    method SetTime(value: real)
      modifies this`time
      ensures time == WrapTime(value, animationDuration, animationInterval)
    {
      time := value;
      if time > animationDuration + animationInterval {
        time := 0.0;
      }
    }

    /** The `progress` setter: stops the clock, stores the clamped progress as
        a time and requests a redraw; reading `progress` back gives the clamped
        value when the duration is positive and the pause non-negative. */
    method SetProgress(newValue: real)
      modifies this`running, this`time, this`needsDisplay
      ensures !running && needsDisplay
      ensures time == TimeForProgress(newValue, animationDuration, animationInterval)
      ensures animationDuration > 0.0 && animationInterval >= 0.0 ==> Progress() == Clamp01(newValue)
      ensures animationDuration >= 0.0 && animationInterval >= 0.0 ==>
                0.0 <= time <= animationDuration + animationInterval
    {
      Stop();
      var progress := Max(0.0, Min(newValue, 1.0));
      assert progress == Clamp01(newValue);
      SetTime(animationDuration * progress);
      assert time == TimeForProgress(newValue, animationDuration, animationInterval);
      needsDisplay := true;
      if animationDuration > 0.0 && animationInterval >= 0.0 {
        ProgressRoundTrip(newValue, animationDuration, animationInterval);
      }
    }

    /** `play()`: starts the clock unless it is already running. */
    method Play()
      modifies this`running
      ensures running
    {
      if running {
        return;
      }
      running := true;
    }

    /** `stop()`: stops the clock; stopping a stopped clock changes nothing. */
    method Stop()
      modifies this`running
      ensures !running
    {
      running := false;
    }

    /** `fire()`, the display-link callback: one step forward, wrapped, and a
        redraw requested. Only the display link that `Play` creates and `Stop`
        invalidates calls it, so the clock must be running. A tick from a time
        of at least -0.05 keeps the time within [0, duration + interval]. */
    method Fire()
      requires running
      modifies this`time, this`needsDisplay
      ensures time == Tick(old(time), animationDuration, animationInterval)
      ensures needsDisplay
      ensures old(time) >= -TickStep && animationDuration + animationInterval >= 0.0 ==>
                0.0 <= time <= animationDuration + animationInterval
    {
      SetTime(time + TickStep);
      needsDisplay := true;
    }

    /** `layoutSubviews()`: every size recomputed from the reference length
        of the current bounds, and a redraw requested. */
    method LayoutSubviews()
      requires Valid()
      modifies this`waterDropArcRadius, this`waterDropControlPointOffsetY,
        this`waterDropStretchLength, this`waterDropElemMaxInterval, this`lineMarginHorizontal,
        this`lineWidth, this`bounceSize, this`lineStretchLengths, this`needsDisplay
      ensures Valid() && needsDisplay
      ensures CurrentSizes() == SizesFor(Reference(boundsWidth, boundsHeight))
    {
      var reference := Min(boundsWidth, boundsHeight);
      reference := Max(reference, BaseReference);
      assert reference == Reference(boundsWidth, boundsHeight);
      ghost var z := SizesFor(reference);

      waterDropArcRadius := reference * WaterDropArcRadiusRatio;
      waterDropStretchLength := reference * WaterDropStretchLengthRatio;
      lineMarginHorizontal := reference * LineMarginHorizontalRatio;
      lineWidth := reference * LineWidthRatio;
      bounceSize := reference * BounceSizeRatio;
      lineStretchLengths := ScaledBy(LineStretchLengthsRatio, reference);
      waterDropControlPointOffsetY := reference * WaterDropControlPointOffsetYRatio;
      waterDropElemMaxInterval := reference * WaterDropElemMaxIntervalRatio;
      assert CurrentSizes() == z;

      needsDisplay := true;
    }

    /** `drawLine(time:)`: the first ripple range that contains the time pushes
        the middle point, then the two contours are offset by half the line
        width. */
    method DrawLine() returns (line: LineOutline)
      requires Valid() && animationDuration > 0.0
      ensures line == LineGeometryFor(CurrentSchedule(), CurrentSizes(), boundsWidth, boundsHeight, time)
    {
      ScheduleOrdered(animationDuration);
      var centerX := boundsWidth / 2.0;
      var centerY := boundsHeight / 2.0;
      var lineLength := boundsWidth - 2.0 * lineMarginHorizontal;
      var startPoint := Point(centerX - lineLength / 2.0, centerY);
      var endPoint := Point(centerX + lineLength / 2.0, centerY);
      var maxOffsets := lineStretchLengths;
      var centerPoint := Point(centerX, centerY);

      var stretchRanges: seq<ClosedRange> := [
        Interval(lineStretchBeginTime, lineStretchFinishedTime),
        Interval(lineStretchFinishedTime, lineStretch2FinishedTime),
        Interval(lineStretch2FinishedTime, lineStretch3FinishedTime)];
      assert stretchRanges == LineRanges(CurrentSchedule());
      assert Divides(stretchRanges, time) by {
        ScheduleSpread(animationDuration);
      }

      for i := 0 to 3
        invariant centerPoint == Point(centerX, centerY)
        invariant forall j | 0 <= j < i :: !stretchRanges[j].Contains(time)
      {
        var range := stretchRanges[i];
        var maxOffset := maxOffsets[i];
        if range.Contains(time) {
          var elapsed := time - range.lo;
          var process := elapsed / Length(range);
          if process > 0.5 {
            process := Abs(1.0 - process);
          }
          centerPoint := Point(centerPoint.x, centerPoint.y + maxOffset * process);
          assert FirstContaining(stretchRanges, time) == i;
          assert centerPoint.y == centerY + CenterShift(stretchRanges, maxOffsets, time);
          break;
        }
      }
      assert centerPoint == Point(centerX, centerY + CenterShift(stretchRanges, maxOffsets, time));

      var lineWidth2 := lineWidth / 2.0;
      var top := LinePoints(Offset(startPoint, 0.0, -lineWidth2), Offset(centerPoint, 0.0, -lineWidth2),
                            Offset(endPoint, 0.0, -lineWidth2));
      var bottom := LinePoints(Offset(startPoint, 0.0, lineWidth2), Offset(centerPoint, 0.0, lineWidth2),
                               Offset(endPoint, 0.0, lineWidth2));
      line := LineOutline(top, bottom);
      assert line.top == LinePoints(startPoint, centerPoint, endPoint).Offsetting(-lineWidth / 2.0);
    }

    /** `draw(_:)`: the drop and the line for the current time. */
    method Draw() returns (drop: DropGeometry, line: LineOutline)
      requires Valid() && animationDuration > 0.0
      ensures drop == WaterDropGeometry(CurrentSchedule(), CurrentSizes(), boundsWidth, boundsHeight, time)
      ensures line == LineGeometryFor(CurrentSchedule(), CurrentSizes(), boundsWidth, boundsHeight, time)
    {
      ScheduleOrdered(animationDuration);
      ScheduleSpread(animationDuration);
      drop := WaterDropGeometry(CurrentSchedule(), CurrentSizes(), boundsWidth, boundsHeight, time);
      line := DrawLine();
    }
  }
}
