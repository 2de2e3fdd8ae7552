/** The range-parameterised drawing values of `Element.swift`: the three points
    of the line and the water drop, whose `draw` turns one animation time into a
    circle or a fading teardrop. */
module Element {
  import opened Geometry

  /** The left end, the bulging middle and the right end of the line. */
  datatype LinePoints = LinePoints(left: Point, center: Point, right: Point) {

    /** `offsetting(y:)`: every point moved vertically by `dy`, every x kept. */
    function Offsetting(dy: real): (r: LinePoints)
      ensures r.left.x == left.x && r.center.x == center.x && r.right.x == right.x
      ensures r.left.y - left.y == dy && r.center.y - center.y == dy && r.right.y - right.y == dy
    {
      LinePoints(Offset(left, 0.0, dy), Offset(center, 0.0, dy), Offset(right, 0.0, dy))
    }
  }

  /** Offsetting by zero is the identity. */
  lemma OffsettingZero(p: LinePoints)
    ensures p.Offsetting(0.0) == p
  {
  }

  /** Two vertical offsets add up, so the top and bottom contours of the line
      are one line width apart and each is the other shifted. */
  lemma OffsettingCompose(p: LinePoints, a: real, b: real)
    ensures p.Offsetting(a).Offsetting(b) == p.Offsetting(a + b)
  {
  }

  /** The teardrop built by `path(progress:arcCenter:)`: from the apex a
      quadratic curve to each end of the lower half circle (center `arcCenter`,
      radius `arcRadius`), each curve pulled by its control point. */
  datatype Teardrop = Teardrop(
    apex: Point,
    arcCenter: Point,
    arcRadius: real,
    rightEnd: Point,
    rightControl: Point,
    leftEnd: Point,
    leftControl: Point)

  /** What one frame paints for the drop: a full circle, filled opaque, or a
      teardrop filled with `alpha`. */
  datatype DropGeometry =
    | Circle(center: Point, radius: real)
    | Drop(path: Teardrop, alpha: real)

  /** The struct `WaterDrop`: its phase ranges and sizes. */
  datatype WaterDrop = WaterDrop(
    bounceSize: real,
    fadeInTimeRange: ClosedRange,
    expandTimeRange: ClosedRange,
    shrinkTimeRange: ClosedRange,
    standingTimeRange: ClosedRange,
    moveTimeRange: ClosedRange,
    roundTimeRange: ClosedRange,
    stretchTimeRange: ClosedRange,
    elemMaxInterval: real,
    arcRadius: real,
    stretchLength: real,
    controlPointOffsetY: real)
  {
    /** Where the drop stands before it moves: centred horizontally, above the
        middle of the view by the gap and half of radius plus line width. */
    function BaseCenter(width: real, height: real, lineWidth: real): Point {
      Point(width / 2.0, height / 2.0 - elemMaxInterval - (arcRadius + lineWidth) / 2.0)
    }

    /** The drop's center at `time`: the base point while standing, otherwise
        moved down by the elapsed share of the move range (at most all of it)
        of twice its height above the middle, i.e. towards its mirror image. */
    function Center(width: real, height: real, lineWidth: real, time: real): (c: Point)
      requires !standingTimeRange.Contains(time) ==> Length(moveTimeRange) > 0.0
      ensures c.x == width / 2.0
      ensures standingTimeRange.Contains(time) ==> c == BaseCenter(width, height, lineWidth)
      ensures !standingTimeRange.Contains(time) && time >= moveTimeRange.hi ==>
                c.y == height - BaseCenter(width, height, lineWidth).y
      ensures !standingTimeRange.Contains(time) && time >= moveTimeRange.lo &&
              BaseCenter(width, height, lineWidth).y <= height / 2.0 ==>
                BaseCenter(width, height, lineWidth).y <= c.y <= height - BaseCenter(width, height, lineWidth).y
    {
      var base := BaseCenter(width, height, lineWidth);
      if standingTimeRange.Contains(time) then
        base
      else
        var distance := 2.0 * (height / 2.0 - base.y);
        var share := Min(1.0, Fraction(moveTimeRange, time));
        assert time >= moveTimeRange.lo ==> 0.0 <= share <= 1.0;
        assert time >= moveTimeRange.hi ==> share == 1.0;
        if time >= moveTimeRange.lo then
          ScaleWithin(distance, share);
          Point(base.x, base.y + distance * share)
        else
          Point(base.x, base.y + distance * share)
    }

    /** The radius at `time`: a ramp from 0 up to `arcRadius + bounceSize` over
        the expand range, back down to `arcRadius` over the shrink range, and
        `arcRadius` at every other time; at a time both ranges contain, the
        expand ramp wins. */
    function Radius(time: real): (r: real)
      requires expandTimeRange.Contains(time) ==> Length(expandTimeRange) > 0.0
      requires !expandTimeRange.Contains(time) && shrinkTimeRange.Contains(time) ==>
                 Length(shrinkTimeRange) > 0.0
      ensures time == expandTimeRange.lo ==> r == 0.0
      ensures time == expandTimeRange.hi ==> r == arcRadius + bounceSize
      ensures !expandTimeRange.Contains(time) && time == shrinkTimeRange.hi ==> r == arcRadius
      ensures !expandTimeRange.Contains(time) && !shrinkTimeRange.Contains(time) ==> r == arcRadius
      ensures arcRadius >= 0.0 && bounceSize >= 0.0 ==> 0.0 <= r <= arcRadius + bounceSize
      ensures !expandTimeRange.Contains(time) && bounceSize >= 0.0 ==> arcRadius <= r
    {
      if expandTimeRange.Contains(time) then
        Scale(arcRadius + bounceSize, Fraction(expandTimeRange, time))
      else if shrinkTimeRange.Contains(time) then
        arcRadius + Scale(bounceSize, 1.0 - Fraction(shrinkTimeRange, time))
      else
        arcRadius
    }

    /** The opacity of the teardrop: 1 until the fade range starts, then
        falling linearly to 0 at its end and below 0 after it (never clamped). */
    function Alpha(time: real): (a: real)
      requires time >= fadeInTimeRange.lo ==> Length(fadeInTimeRange) > 0.0
      ensures time <= fadeInTimeRange.lo ==> a == 1.0
      ensures fadeInTimeRange.Contains(time) ==> 0.0 <= a <= 1.0
      ensures time == fadeInTimeRange.hi ==> a == 0.0
      ensures time > fadeInTimeRange.hi ==> a < 0.0
    {
      if time >= fadeInTimeRange.lo then 1.0 - Fraction(fadeInTimeRange, time) else 1.0
    }

    /** How far the apex is stretched, `min(1, elapsed / length)` of the
        stretch range: 0 at its start, 1 from its end on. */
    function StretchProgress(time: real): (p: real)
      requires Length(stretchTimeRange) > 0.0
      ensures p <= 1.0
      ensures time >= stretchTimeRange.lo ==> 0.0 <= p
      ensures time == stretchTimeRange.lo ==> p == 0.0
      ensures time >= stretchTimeRange.hi ==> p == 1.0
    {
      Min(1.0, Fraction(stretchTimeRange, time))
    }

    /** `path(progress:arcCenter:)`: the apex straight above the center, raised
        by the radius plus the stretched share of `stretchLength`; the curve ends
        on the horizontal through the center at `arcRadius` either side, their
        control points `controlPointOffsetY` above them. */
    function Path(progress: real, arcCenter: Point): (d: Teardrop)
      ensures d.arcCenter == arcCenter && d.arcRadius == arcRadius
      ensures d.apex.x == arcCenter.x && arcCenter.y - d.apex.y == arcRadius + stretchLength * progress
      ensures d.rightEnd.y == arcCenter.y == d.leftEnd.y
      ensures d.rightEnd.x - arcCenter.x == arcRadius == arcCenter.x - d.leftEnd.x
      ensures d.rightControl.x == d.rightEnd.x && d.leftControl.x == d.leftEnd.x
      ensures arcCenter.y - d.rightControl.y == controlPointOffsetY == arcCenter.y - d.leftControl.y
    {
      Teardrop(
        Offset(arcCenter, 0.0, -arcRadius - stretchLength * progress),
        arcCenter,
        arcRadius,
        Offset(arcCenter, arcRadius, 0.0),
        Offset(arcCenter, arcRadius, -controlPointOffsetY),
        Offset(arcCenter, -arcRadius, 0.0),
        Offset(arcCenter, -arcRadius, -controlPointOffsetY))
    }

    /** The divisions `draw` performs at `time` all have a non-zero divisor. */
    predicate Drawable(time: real) {
      && (!standingTimeRange.Contains(time) ==> Length(moveTimeRange) > 0.0)
      && (expandTimeRange.Contains(time) ==> Length(expandTimeRange) > 0.0)
      && (!expandTimeRange.Contains(time) && shrinkTimeRange.Contains(time) ==>
            Length(shrinkTimeRange) > 0.0)
      && (!roundTimeRange.Contains(time) ==>
            && Length(stretchTimeRange) > 0.0
            && (time >= fadeInTimeRange.lo ==> Length(fadeInTimeRange) > 0.0))
    }

    /** `draw(bounds:lineWidth:time:context:)`: a circle of the current
        radius while the round range contains `time`, otherwise the teardrop
        (always of radius `arcRadius`) with its opacity; the opacity is
        computed only in the teardrop branch. */
    function Draw(width: real, height: real, lineWidth: real, time: real): (g: DropGeometry)
      requires Drawable(time)
      ensures g.Circle? <==> roundTimeRange.Contains(time)
      ensures g.Circle? ==> g.center == Center(width, height, lineWidth, time) && g.radius == Radius(time)
      ensures g.Drop? ==> g.path.arcCenter == Center(width, height, lineWidth, time)
      ensures g.Drop? ==> g.path == Path(StretchProgress(time), g.path.arcCenter) && g.alpha == Alpha(time)
    {
      var arcCenter := Center(width, height, lineWidth, time);
      var radius := Radius(time);
      if roundTimeRange.Contains(time) then
        Circle(arcCenter, radius)
      else
        Drop(Path(StretchProgress(time), arcCenter), Alpha(time))
    }
  }

  /** The struct's default values: every range `0...0`. */
  const DefaultWaterDrop := WaterDrop(
    1.0, Interval(0.0, 0.0), Interval(0.0, 0.0), Interval(0.0, 0.0), Interval(0.0, 0.0),
    Interval(0.0, 0.0), Interval(0.0, 0.0), Interval(0.0, 0.0), 14.0, 5.0, 4.0, 4.0)

  /** With the default ranges every time divides by a zero length: time 0 lies
      in the expand range, any other time outside the standing range. */
  lemma DefaultNeverDrawable(time: real)
    ensures !DefaultWaterDrop.Drawable(time)
  {
  }

  /** Ranges of positive length make every time drawable. */
  lemma PositiveLengthsDrawable(drop: WaterDrop, time: real)
    requires Length(drop.moveTimeRange) > 0.0 && Length(drop.expandTimeRange) > 0.0
    requires Length(drop.shrinkTimeRange) > 0.0 && Length(drop.stretchTimeRange) > 0.0
    requires Length(drop.fadeInTimeRange) > 0.0
    ensures drop.Drawable(time)
  {
  }

  /** The opacity never rises as time goes on. */
  lemma AlphaNonIncreasing(drop: WaterDrop, t1: real, t2: real)
    requires Length(drop.fadeInTimeRange) > 0.0
    requires t1 <= t2
    ensures drop.Alpha(t2) <= drop.Alpha(t1)
  {
    if t1 >= drop.fadeInTimeRange.lo {
      FractionMonotone(drop.fadeInTimeRange, t1, t2);
    }
  }

  /** The stretch never shrinks as time goes on. */
  lemma StretchNonDecreasing(drop: WaterDrop, t1: real, t2: real)
    requires Length(drop.stretchTimeRange) > 0.0
    requires t1 <= t2
    ensures drop.StretchProgress(t1) <= drop.StretchProgress(t2)
  {
    FractionMonotone(drop.stretchTimeRange, t1, t2);
  }

  /** The radius ramps: it never shrinks while the expand range holds the
      time, and never grows while only the shrink range holds it. */
  lemma RadiusRamps(drop: WaterDrop, t1: real, t2: real)
    requires Length(drop.expandTimeRange) > 0.0 && Length(drop.shrinkTimeRange) > 0.0
    requires drop.bounceSize >= 0.0 && drop.arcRadius + drop.bounceSize >= 0.0
    requires t1 <= t2
    ensures drop.expandTimeRange.Contains(t1) && drop.expandTimeRange.Contains(t2) ==>
              drop.Radius(t1) <= drop.Radius(t2)
    ensures drop.shrinkTimeRange.Contains(t1) && drop.shrinkTimeRange.Contains(t2) &&
            !drop.expandTimeRange.Contains(t1) && !drop.expandTimeRange.Contains(t2) ==>
              drop.Radius(t2) <= drop.Radius(t1)
  {
    if drop.expandTimeRange.Contains(t1) && drop.expandTimeRange.Contains(t2) {
      FractionMonotone(drop.expandTimeRange, t1, t2);
      var f1 := Fraction(drop.expandTimeRange, t1);
      var f2 := Fraction(drop.expandTimeRange, t2);
      ScaleMonotone(drop.Radius(t1), drop.Radius(t2), 0.0, drop.arcRadius + drop.bounceSize, f1, f2);
    }
    if drop.shrinkTimeRange.Contains(t1) && drop.shrinkTimeRange.Contains(t2) &&
       !drop.expandTimeRange.Contains(t1) && !drop.expandTimeRange.Contains(t2) {
      FractionMonotone(drop.shrinkTimeRange, t1, t2);
      var g1 := 1.0 - Fraction(drop.shrinkTimeRange, t1);
      var g2 := 1.0 - Fraction(drop.shrinkTimeRange, t2);
      ScaleMonotone(drop.Radius(t2), drop.Radius(t1), drop.arcRadius, drop.bounceSize, g2, g1);
    }
  }

  /** Once the move has begun, the drop only travels downwards while its base
      lies in the upper half of the view. */
  lemma CenterNonDecreasing(drop: WaterDrop, width: real, height: real, lineWidth: real, t1: real, t2: real)
    requires Length(drop.moveTimeRange) > 0.0
    requires drop.moveTimeRange.lo <= t1 <= t2
    requires !drop.standingTimeRange.Contains(t1) && !drop.standingTimeRange.Contains(t2)
    requires drop.BaseCenter(width, height, lineWidth).y <= height / 2.0
    ensures drop.Center(width, height, lineWidth, t1).y <= drop.Center(width, height, lineWidth, t2).y
  {
    var base := drop.BaseCenter(width, height, lineWidth);
    var distance := 2.0 * (height / 2.0 - base.y);
    FractionMonotone(drop.moveTimeRange, t1, t2);
    var share1 := Min(1.0, Fraction(drop.moveTimeRange, t1));
    var share2 := Min(1.0, Fraction(drop.moveTimeRange, t2));
    var y1 := drop.Center(width, height, lineWidth, t1).y;
    var y2 := drop.Center(width, height, lineWidth, t2).y;
    assert y1 == base.y + distance * share1;
    assert y2 == base.y + distance * share2;
    ScaleMonotone(y1, y2, base.y, distance, share1, share2);
  }

  /** The teardrop is symmetric about the vertical through its center, and
      with a non-negative stretch its apex is at or above the top of the arc. */
  lemma PathSymmetric(drop: WaterDrop, progress: real, arcCenter: Point)
    ensures var d := drop.Path(progress, arcCenter);
      && d.leftEnd == Point(2.0 * arcCenter.x - d.rightEnd.x, d.rightEnd.y)
      && d.leftControl == Point(2.0 * arcCenter.x - d.rightControl.x, d.rightControl.y)
    ensures drop.stretchLength >= 0.0 && progress >= 0.0 ==>
      drop.Path(progress, arcCenter).apex.y <= arcCenter.y - drop.arcRadius
  {
    if drop.stretchLength > 0.0 && progress > 0.0 {
      PositiveProduct(drop.stretchLength, progress);
    }
  }
}
