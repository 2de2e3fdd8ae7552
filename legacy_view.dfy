/** The first revision of `DimoLogoView`: fixed sizes (radius 5, stretch 4,
    line width 3, margin 5, control-point offset 4), a public gap, bounce and
    ripple list, and a repeating 50 ms timer that advances and wraps `time`. */
module LegacyView {
  import opened Geometry
  import opened Element
  import opened Schedule
  import opened Line
  import opened Clock
  import LogoView

  const WaterDropArcRadius: real := 5.0
  const WaterDropStretchLength: real := 4.0
  const LineWidth: real := 3.0
  const LineMarginHorizontal: real := 5.0
  /** The control points of the teardrop sit this far above the curve ends. */
  const ControlPointOffsetY: real := 4.0

  /** The first revision's sizes in the later revision's terms: the fixed
      constants plus the three public properties. */
  function LegacySizes(elemMaxInterval: real, bounceSize: real, lineStretchLengths: seq<real>): (z: LogoView.Sizes)
    ensures z.waterDropElemMaxInterval == elemMaxInterval && z.bounceSize == bounceSize
    ensures z.lineStretchLengths == lineStretchLengths
  {
    LogoView.Sizes(WaterDropArcRadius, ControlPointOffsetY, WaterDropStretchLength, elemMaxInterval,
                   LineMarginHorizontal, LineWidth, bounceSize, lineStretchLengths)
  }

  /** With its default gap, bounce and ripples, the first revision has exactly
      the sizes a new view of the later revision starts with. */
  lemma LegacyDefaultsAreInitialSizes()
    ensures LegacySizes(14.0, 1.0, [12.0, -8.0, 6.0]) == LogoView.InitialSizes
  {
  }

  /** `waterDrop(process:arcCenter:)` with the fixed sizes. */
  function WaterDropPath(process: real, arcCenter: Point): (p: Teardrop)
    ensures p.arcCenter == arcCenter && p.arcRadius == WaterDropArcRadius
    ensures p.apex.x == arcCenter.x && arcCenter.y - p.apex.y == WaterDropArcRadius + WaterDropStretchLength * process
    ensures p.leftEnd.y == p.rightEnd.y == arcCenter.y
    ensures p.rightEnd.x - arcCenter.x == arcCenter.x - p.leftEnd.x == WaterDropArcRadius
    ensures p.leftControl.y == p.rightControl.y == arcCenter.y - ControlPointOffsetY
  {
    Teardrop(
      Offset(arcCenter, 0.0, -WaterDropArcRadius - WaterDropStretchLength * process),
      arcCenter,
      WaterDropArcRadius,
      Offset(arcCenter, WaterDropArcRadius, 0.0),
      Offset(arcCenter, WaterDropArcRadius, -ControlPointOffsetY),
      Offset(arcCenter, -WaterDropArcRadius, 0.0),
      Offset(arcCenter, -WaterDropArcRadius, -ControlPointOffsetY))
  }

  /** The center step of `drawWaterDrop(time:context:)`. */
  function WaterDropCenter(s: Schedule, elemMaxInterval: real, width: real, height: real, time: real): (c: Point)
    requires Ordered(s) && Spread(s)
    ensures c.x == width / 2.0
    ensures 0.0 <= time <= s.repopAnimationFinishedTime ==>
      c.y == height / 2.0 - elemMaxInterval - (WaterDropArcRadius + LineWidth) / 2.0
  {
    var base := Point(width / 2.0, height / 2.0 - elemMaxInterval - (WaterDropArcRadius + LineWidth) / 2.0);
    var noMoveRange: ClosedRange := Interval(0.0, s.repopAnimationFinishedTime);
    var moveRange: ClosedRange := Interval(s.repopAnimationFinishedTime, s.moveAnimationFinishedTime);
    if !noMoveRange.Contains(time) then
      var elapsed := time - moveRange.lo;
      var distance := 2.0 * (height / 2.0 - base.y);
      Point(base.x, base.y + distance * Min(1.0, elapsed / Length(moveRange)))
    else
      base
  }

  /** The radius step of `drawWaterDrop(time:context:)`. */
  function WaterDropRadius(s: Schedule, bounceSize: real, time: real): (r: real)
    requires Ordered(s) && Spread(s)
    ensures time == 0.0 ==> r == 0.0
    ensures !(0.0 <= time <= s.repopAnimationFinishedTime) ==> r == WaterDropArcRadius
  {
    var popRange: ClosedRange := Interval(0.0, s.popAnimationFinishedTime);
    var repopRange: ClosedRange := Interval(s.popAnimationFinishedTime, s.repopAnimationFinishedTime);
    if popRange.Contains(time) then
      (WaterDropArcRadius + bounceSize) * (time - popRange.lo) / Length(popRange)
    else if repopRange.Contains(time) then
      WaterDropArcRadius + bounceSize * (1.0 - (time - repopRange.lo) / Length(repopRange))
    else
      WaterDropArcRadius
  }

  /** `drawWaterDrop(time:context:)` of the first revision. */
  function WaterDropGeometry(s: Schedule, elemMaxInterval: real, bounceSize: real,
                             width: real, height: real, time: real): (g: DropGeometry)
    requires Ordered(s) && Spread(s)
    ensures g.Circle? <==> 0.0 <= time <= s.waterDropStretchBeginTime
    ensures g.Drop? ==>
      g.path.arcCenter == WaterDropCenter(s, elemMaxInterval, width, height, time)
      && g.path.arcRadius == WaterDropArcRadius
    ensures g.Drop? && time < s.fadeInBeginTime ==> g.alpha == 1.0
  {
    var arcCenter := WaterDropCenter(s, elemMaxInterval, width, height, time);
    var radius := WaterDropRadius(s, bounceSize, time);
    var noStretchRange: ClosedRange := Interval(0.0, s.waterDropStretchBeginTime);
    var stretchRange: ClosedRange := Interval(s.waterDropStretchBeginTime, s.waterDropStretchFinishedTime);
    var alphaRange: ClosedRange := Interval(s.fadeInBeginTime, s.fadeInFinishedTime);
    if noStretchRange.Contains(time) then
      Circle(arcCenter, radius)
    else
      var alpha := if time >= alphaRange.lo then 1.0 - (time - alphaRange.lo) / Length(alphaRange) else 1.0;
      var elapsed := time - stretchRange.lo;
      Drop(WaterDropPath(Min(1.0, elapsed / Length(stretchRange)), arcCenter), alpha)
  }

  /** The first revision draws the drop the later one draws with the same
      sizes, and so (through `LogoView.DrawWaterDropIsElementDraw`) what
      `WaterDrop.draw` draws. */
  lemma LegacyDropIsCoreDrop(s: Schedule, elemMaxInterval: real, bounceSize: real, lineStretchLengths: seq<real>,
                             width: real, height: real, time: real)
    requires Ordered(s) && Spread(s)
    ensures var z := LegacySizes(elemMaxInterval, bounceSize, lineStretchLengths);
      && WaterDropGeometry(s, elemMaxInterval, bounceSize, width, height, time)
           == LogoView.WaterDropGeometry(s, z, width, height, time)
      && WaterDropGeometry(s, elemMaxInterval, bounceSize, width, height, time)
           == LogoView.DropFor(s, z).Draw(width, height, LineWidth, time)
  {
    var z := LegacySizes(elemMaxInterval, bounceSize, lineStretchLengths);
    assert WaterDropCenter(s, elemMaxInterval, width, height, time) == LogoView.WaterDropCenter(s, z, width, height, time);
    assert WaterDropRadius(s, bounceSize, time) == LogoView.WaterDropRadius(s, z, time);
    LogoView.DrawWaterDropIsElementDraw(s, z, width, height, time);
  }

  /** The first revision's drop for duration `d`: a radius ramping linearly
      from 0 at the start to `5 + bounceSize` at 0.125d, back to 5 at 0.15d,
      and 5 from there up to 0.5d; after 0.5d a
      teardrop whose apex is `5 + 4 * min(1, (t - 0.5d) / 0.375d)` above its
      center, with control points 4 above the curve ends and the unclamped
      alpha `1 - (t - 0.8d) / 0.2d` from 0.8d on. */
  lemma LegacyDropPhases(d: real, elemMaxInterval: real, bounceSize: real,
                         width: real, height: real, time: real)
    requires d > 0.0
    ensures var g := WaterDropGeometry(ScheduleFor(d), elemMaxInterval, bounceSize, width, height, time);
      && (0.0 <= time <= 0.5 * d ==>
            && g.Circle?
            && (time == 0.0 ==> g.radius == 0.0)
            && (time == 0.125 * d ==> g.radius == WaterDropArcRadius + bounceSize)
            && (time <= 0.125 * d ==> g.radius == (WaterDropArcRadius + bounceSize) * (time / (0.125 * d)))
            && (0.125 * d < time <= 0.15 * d ==>
                  g.radius == WaterDropArcRadius + bounceSize * (1.0 - (time - 0.125 * d) / (0.025 * d)))
            && (0.15 * d <= time ==> g.radius == WaterDropArcRadius))
      && (time > 0.5 * d ==>
            && g.Drop?
            && g.path.arcCenter.y - g.path.apex.y
                 == WaterDropArcRadius + WaterDropStretchLength * Min(1.0, (time - 0.5 * d) / (0.375 * d))
            && g.path.arcCenter.y - g.path.rightControl.y == ControlPointOffsetY
            && g.path.arcCenter.y - g.path.leftControl.y == ControlPointOffsetY
            && (time < 0.8 * d ==> g.alpha == 1.0)
            && (time >= 0.8 * d ==> g.alpha == 1.0 - (time - 0.8 * d) / (0.2 * d)))
  {
    var s := ScheduleFor(d);
    var z := LegacySizes(elemMaxInterval, bounceSize, []);
    LegacyDropIsCoreDrop(s, elemMaxInterval, bounceSize, [], width, height, time);
    if 0.0 <= time <= 0.5 * d {
      LogoView.DropRadiusProfile(d, z, width, height, time);
    } else if time > 0.5 * d {
      LogoView.DropTeardropPhase(d, z, width, height, time);
    }
  }

  /** The view. `needsDisplay` records a `setNeedsDisplay()` request;
      `boundsWidth` and `boundsHeight` are the bounds UIKit assigns. */
  class DimoLogoView {
    var popAnimationFinishedTime: real
    var repopAnimationFinishedTime: real
    var moveAnimationFinishedTime: real
    var waterDropStretchBeginTime: real
    var waterDropStretchFinishedTime: real
    var fadeInBeginTime: real
    var fadeInFinishedTime: real
    var lineStretchBeginTime: real
    var lineStretchFinishedTime: real
    var lineStretch2FinishedTime: real
    var lineStretch3FinishedTime: real

    var animationDuration: real
    var time: real
    var elemMaxInterval: real
    var bounceSize: real
    var lineStretchLengths: seq<real>
    var animationInterval: real
    var needsDisplay: bool
    var boundsWidth: real
    var boundsHeight: real

    /** The eleven schedule fields as one value. */
    function CurrentSchedule(): Schedule
      reads this
    {
      Schedule(popAnimationFinishedTime, repopAnimationFinishedTime, moveAnimationFinishedTime,
               waterDropStretchBeginTime, waterDropStretchFinishedTime, fadeInBeginTime,
               fadeInFinishedTime, lineStretchBeginTime, lineStretchFinishedTime,
               lineStretch2FinishedTime, lineStretch3FinishedTime)
    }

    /** The schedule always matches the current duration. */
    ghost predicate Valid()
      reads this
    {
      CurrentSchedule() == ScheduleFor(animationDuration)
    }

    /** `init(frame:)`: duration 1.2, time 0, gap 14, bounce 1, ripples
        12, -8, 6, pause 0.15, and the schedule for the duration. The timer it
        starts is `Tick`. */
    constructor (width: real, height: real)
      ensures Valid()
      ensures animationDuration == 1.2 && time == 0.0 && animationInterval == 0.15
      ensures elemMaxInterval == 14.0 && bounceSize == 1.0 && lineStretchLengths == [12.0, -8.0, 6.0]
      ensures !needsDisplay && boundsWidth == width && boundsHeight == height
    {
      animationDuration := 1.2;
      time := 0.0;
      elemMaxInterval := 14.0;
      bounceSize := 1.0;
      lineStretchLengths := [12.0, -8.0, 6.0];
      animationInterval := 0.15;
      needsDisplay := false;
      boundsWidth := width;
      boundsHeight := height;
      new;
      UpdateTimes();
    }

    /** `updateTimes()`: the eleven boundaries recomputed from the duration. */
    method UpdateTimes()
      modifies this`popAnimationFinishedTime, this`repopAnimationFinishedTime,
        this`moveAnimationFinishedTime, this`waterDropStretchBeginTime,
        this`waterDropStretchFinishedTime, this`fadeInBeginTime, this`fadeInFinishedTime,
        this`lineStretchBeginTime, this`lineStretchFinishedTime,
        this`lineStretch2FinishedTime, this`lineStretch3FinishedTime
      ensures CurrentSchedule() == ScheduleFor(animationDuration)
    {
      popAnimationFinishedTime := animationDuration * 0.125;
      repopAnimationFinishedTime := animationDuration * 0.15;
      moveAnimationFinishedTime := animationDuration * 0.85;
      waterDropStretchBeginTime := animationDuration * 0.5;
      waterDropStretchFinishedTime := animationDuration * 0.875;
      fadeInBeginTime := animationDuration * 0.8;
      fadeInFinishedTime := animationDuration * 1.0;

      lineStretchBeginTime := animationDuration * 0.5;
      lineStretchFinishedTime := animationDuration * 0.8;
      lineStretch2FinishedTime := animationDuration * 0.9;
      lineStretch3FinishedTime := animationDuration * 1.0;
    }

    /** Assigning `animationDuration`: its `didSet` recomputes the schedule. */
    method SetAnimationDuration(duration: real)
      requires Valid()
      modifies this`animationDuration, this`popAnimationFinishedTime, this`repopAnimationFinishedTime,
        this`moveAnimationFinishedTime, this`waterDropStretchBeginTime,
        this`waterDropStretchFinishedTime, this`fadeInBeginTime, this`fadeInFinishedTime,
        this`lineStretchBeginTime, this`lineStretchFinishedTime,
        this`lineStretch2FinishedTime, this`lineStretch3FinishedTime
      ensures Valid() && animationDuration == duration
    {
      animationDuration := duration;
      UpdateTimes();
    }

    /** One firing of the 50 ms timer: the step added, the time reset to 0
        once it passes the cycle and its pause, and a redraw requested. This
        is the same step as the later revision's `fire` followed by its wrap. */
    method Tick()
      modifies this`time, this`needsDisplay
      ensures time == Clock.Tick(old(time), animationDuration, animationInterval)
      ensures needsDisplay
      ensures old(time) >= -TickStep && animationDuration + animationInterval >= 0.0 ==>
                0.0 <= time <= animationDuration + animationInterval
    {
      time := time + TickStep;
      if time > animationDuration + animationInterval {
        time := 0.0;
      }
      needsDisplay := true;
    }

    /** `drawLine(time:)` with the fixed margin and line width; indexing the
        ripple list needs three entries. */
    method DrawLine() returns (line: LineOutline)
      requires Valid() && animationDuration > 0.0 && |lineStretchLengths| >= 3
      ensures line == LineGeometry(boundsWidth, boundsHeight, LineMarginHorizontal, LineWidth,
                                   LineRanges(CurrentSchedule()), lineStretchLengths, time)
    {
      ScheduleOrdered(animationDuration);
      var centerX := boundsWidth / 2.0;
      var centerY := boundsHeight / 2.0;
      var lineLength := boundsWidth - 2.0 * LineMarginHorizontal;
      var startPoint := Point(centerX - lineLength / 2.0, centerY);
      var endPoint := Point(centerX + lineLength / 2.0, centerY);
      var maxOffsets := lineStretchLengths;
      var centerPoint := Point(centerX, centerY);

      var stretchRanges: seq<ClosedRange> := [
        Interval(lineStretchBeginTime, lineStretchFinishedTime),
        Interval(lineStretchFinishedTime, lineStretch2FinishedTime),
        Interval(lineStretch2FinishedTime, lineStretch3FinishedTime)];
      assert stretchRanges == LineRanges(CurrentSchedule());
      assert Divides(stretchRanges, time) by {
        ScheduleSpread(animationDuration);
      }

      for i := 0 to 3
        invariant centerPoint == Point(centerX, centerY)
        invariant forall j | 0 <= j < i :: !stretchRanges[j].Contains(time)
      {
        var range := stretchRanges[i];
        var maxOffset := maxOffsets[i];
        if range.Contains(time) {
          var elapsed := time - range.lo;
          var process := elapsed / Length(range);
          if process > 0.5 {
            process := Abs(1.0 - process);
          }
          centerPoint := Point(centerPoint.x, centerPoint.y + maxOffset * process);
          assert FirstContaining(stretchRanges, time) == i;
          assert centerPoint.y == centerY + CenterShift(stretchRanges, maxOffsets, time);
          break;
        }
      }
      assert centerPoint == Point(centerX, centerY + CenterShift(stretchRanges, maxOffsets, time));

      var lineWith2 := LineWidth / 2.0;
      var top := LinePoints(Offset(startPoint, 0.0, -lineWith2), Offset(centerPoint, 0.0, -lineWith2),
                            Offset(endPoint, 0.0, -lineWith2));
      var bottom := LinePoints(Offset(startPoint, 0.0, lineWith2), Offset(centerPoint, 0.0, lineWith2),
                               Offset(endPoint, 0.0, lineWith2));
      line := LineOutline(top, bottom);
      assert line.top == LinePoints(startPoint, centerPoint, endPoint).Offsetting(-LineWidth / 2.0);
    }

    /** `draw(_:)`: the drop and the line for the current time, the same
        pictures the later revision draws with the same sizes. */
    method Draw() returns (drop: DropGeometry, line: LineOutline)
      requires Valid() && animationDuration > 0.0 && |lineStretchLengths| >= 3
      ensures drop == WaterDropGeometry(CurrentSchedule(), elemMaxInterval, bounceSize, boundsWidth, boundsHeight, time)
      ensures line == LineGeometry(boundsWidth, boundsHeight, LineMarginHorizontal, LineWidth,
                                   LineRanges(CurrentSchedule()), lineStretchLengths, time)
    {
      ScheduleOrdered(animationDuration);
      ScheduleSpread(animationDuration);
      drop := WaterDropGeometry(CurrentSchedule(), elemMaxInterval, bounceSize, boundsWidth, boundsHeight, time);
      line := DrawLine();
    }
  }
}
