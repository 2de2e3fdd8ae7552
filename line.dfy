/** What `drawLine` computes in both revisions of `DimoLogoView`: a horizontal
    bar whose middle point alone is pushed up or down by the first ripple
    range that contains the current time, thickened into two contours. */
module Line {
  import opened Geometry
  import opened Element

  /** The top and bottom contours of the filled line. */
  datatype LineOutline = LineOutline(top: LinePoints, bottom: LinePoints)

  /** The index of the first range containing `t`, or `|ranges|` if none does:
      the range at which `drawLine`'s loop breaks. */
  function FirstContaining(ranges: seq<ClosedRange>, t: real): (k: nat)
    ensures k <= |ranges|
    ensures forall j | 0 <= j < k :: !ranges[j].Contains(t)
    ensures k < |ranges| ==> ranges[k].Contains(t)
  {
    if |ranges| == 0 then 0
    else if ranges[0].Contains(t) then 0
    else 1 + FirstContaining(ranges[1..], t)
  }

  /** The ripple's progress folded back after its midpoint, so that the bulge
      goes out and comes back: 0 at both ends of a range, 1/2 at its middle. */
  function Fold(process: real): (p: real)
    ensures 0.0 <= process <= 1.0 ==> 0.0 <= p <= 0.5
    ensures process == 0.0 || process == 1.0 ==> p == 0.0
    ensures process == 0.5 ==> p == 0.5
  {
    if process > 0.5 then Abs(1.0 - process) else process
  }

  /** Within a range the fold is symmetric: the way back mirrors the way out. */
  lemma FoldSymmetric(process: real)
    requires 0.0 <= process <= 1.0
    ensures Fold(1.0 - process) == Fold(process)
  {
  }

  /** The only division `drawLine` performs, by the length of the range it
      found, has a non-zero divisor. */
  predicate Divides(ranges: seq<ClosedRange>, t: real) {
    var k := FirstContaining(ranges, t);
    k < |ranges| ==> Length(ranges[k]) > 0.0
  }

  /** How far the middle point moves: the found range's peak times the folded
      progress, nothing when no range contains `t`; never more than half the
      peak, and nothing at either end of the found range. */
  function CenterShift(ranges: seq<ClosedRange>, offsets: seq<real>, t: real): (dy: real)
    requires |offsets| >= |ranges|
    requires Divides(ranges, t)
    ensures FirstContaining(ranges, t) == |ranges| ==> dy == 0.0
    ensures var k := FirstContaining(ranges, t);
      k < |ranges| ==> Abs(dy) <= Abs(offsets[k]) / 2.0
    ensures var k := FirstContaining(ranges, t);
      k < |ranges| && (t == ranges[k].lo || t == ranges[k].hi) ==> dy == 0.0
  {
    var k := FirstContaining(ranges, t);
    if k < |ranges| then
      var f := Fold(Fraction(ranges[k], t));
      HalfScaleBound(offsets[k], f);
      offsets[k] * f
    else
      0.0
  }

  /** A peak scaled by a folded progress stays within half the peak. */
  lemma HalfScaleBound(a: real, f: real)
    requires 0.0 <= f <= 0.5
    ensures Abs(a * f) <= Abs(a) / 2.0
  {
    var m := Abs(a) * f;
    var n := Abs(a);
    ScaleWithin(n, 2.0 * f);
    assert 0.0 <= n * (2.0 * f) <= n;
    assert n * (2.0 * f) == 2.0 * m;
    assert 0.0 <= m <= Abs(a) / 2.0;
    if a < 0.0 {
      assert a * f == -m;
    } else {
      assert a * f == m;
    }
  }

  /** The bar of length `width - 2 * margin` centred in the view, its middle
      point shifted by `CenterShift`, and its two contours half a line width
      above and below. */
  function LineGeometry(width: real, height: real, margin: real, lineWidth: real,
                        ranges: seq<ClosedRange>, offsets: seq<real>, t: real): (o: LineOutline)
    requires |offsets| >= |ranges|
    requires Divides(ranges, t)
    ensures o.bottom == o.top.Offsetting(lineWidth)
    ensures o.top.left == Point(margin, height / 2.0 - lineWidth / 2.0)
    ensures o.top.right == Point(width - margin, height / 2.0 - lineWidth / 2.0)
    ensures o.top.center.x == width / 2.0
    ensures o.top.center.y + lineWidth / 2.0 - height / 2.0 == CenterShift(ranges, offsets, t)
  {
    var centerX := width / 2.0;
    var centerY := height / 2.0;
    var lineLength := width - 2.0 * margin;
    var points := LinePoints(
      Point(centerX - lineLength / 2.0, centerY),
      Point(centerX, centerY + CenterShift(ranges, offsets, t)),
      Point(centerX + lineLength / 2.0, centerY));
    OffsettingCompose(points, -lineWidth / 2.0, lineWidth);
    LineOutline(points.Offsetting(-lineWidth / 2.0), points.Offsetting(lineWidth / 2.0))
  }
}
