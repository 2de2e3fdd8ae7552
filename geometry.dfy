/** Points, closed ranges and the small numeric helpers the logo's drawing code
    uses, with `real` standing in for `CGFloat`. */
module Geometry {

  /** A point in view coordinates; y grows downwards, as in UIKit. */
  datatype Point = Point(x: real, y: real)

  /** `CGPoint.offset(offsetX:offsetY:)`: the point moved by (dx, dy). */
  function Offset(p: Point, dx: real, dy: real): (q: Point)
    ensures q.x - p.x == dx && q.y - p.y == dy
  {
    Point(p.x + dx, p.y + dy)
  }

  /** Moving back by the opposite offset returns to the starting point. */
  lemma OffsetInverse(p: Point, dx: real, dy: real)
    ensures Offset(Offset(p, dx, dy), -dx, -dy) == p
  {
  }

  /** Two offsets add up. */
  lemma OffsetCompose(p: Point, dx1: real, dy1: real, dx2: real, dy2: real)
    ensures Offset(Offset(p, dx1, dy1), dx2, dy2) == Offset(p, dx1 + dx2, dy1 + dy2)
  {
  }

  /** A pair of bounds; `ClosedRange` below is the well-formed kind. */
  datatype Interval = Interval(lo: real, hi: real) {
    /** `ClosedRange.contains`: both ends are included. */
    predicate Contains(t: real) {
      lo <= t <= hi
    }
  }

  /** Swift's `lo...hi` traps unless `lo <= hi`, so every range the code can
      build has ordered bounds. */
  type ClosedRange = r: Interval | r.lo <= r.hi witness Interval(0.0, 0.0)

  /** `ClosedRange.length`: the distance from the lower to the upper bound. */
  function Length(r: ClosedRange): (n: real)
    ensures n >= 0.0
    ensures n == 0.0 <==> r.lo == r.hi
    ensures r.lo + n == r.hi
  {
    r.hi - r.lo
  }

  /** With a positive factor, comparing two products compares the other factors. */
  lemma ScaleCompare(a: real, b: real, n: real)
    requires n > 0.0
    ensures a <= b <==> a * n <= b * n
    ensures a == b <==> a * n == b * n
  {
    if a < b {
      PositiveProduct(b - a, n);
    } else if b < a {
      PositiveProduct(a - b, n);
    }
  }

  lemma PositiveProduct(a: real, n: real)
    requires a > 0.0 && n > 0.0
    ensures a * n > 0.0
  {
  }

  /** A non-negative amount scaled by a fraction in [0, 1] stays within [0, amount]. */
  lemma ScaleWithin(k: real, f: real)
    requires 0.0 <= f <= 1.0
    ensures k >= 0.0 ==> 0.0 <= k * f <= k
  {
    if k > 0.0 && f > 0.0 {
      PositiveProduct(k, f);
      if f < 1.0 {
        PositiveProduct(k, 1.0 - f);
      }
    }
  }

  /** Moving from a start point by a non-negative amount scaled by a larger
      fraction ends no nearer to the start. */
  lemma ScaleMonotone(y1: real, y2: real, b: real, k: real, f1: real, f2: real)
    requires y1 == b + k * f1 && y2 == b + k * f2
    requires k >= 0.0 && f1 <= f2
    ensures y1 <= y2
  {
    if k > 0.0 && f1 < f2 {
      PositiveProduct(k, f2 - f1);
    }
  }

  /** Dividing by a positive length: the quotient times the length gives
      back the dividend, and comparing the quotient with 0 or 1 compares the
      dividend with 0 or the length. */
  lemma DivFacts(a: real, n: real)
    requires n > 0.0
    ensures (a / n) * n == a
    ensures a / n >= 0.0 <==> a >= 0.0
    ensures a / n <= 1.0 <==> a <= n
    ensures a / n == 0.0 <==> a == 0.0
    ensures a / n == 1.0 <==> a == n
  {
    var q := a / n;
    assert q * n == a;
    ScaleCompare(q, 0.0, n);
    ScaleCompare(q, 1.0, n);
  }

  /** Scaling by a positive length and dividing by it again is the identity. */
  lemma MulDiv(c: real, n: real)
    requires n > 0.0
    ensures (n * c) / n == c
  {
    DivFacts(n * c, n);
    ScaleCompare((n * c) / n, c, n);
  }

  /** `k * e / n`, as Swift groups it, is `k` times the quotient `e / n`. */
  lemma MulDivAssoc(k: real, e: real, n: real)
    requires n > 0.0
    ensures k * e / n == k * (e / n)
  {
    DivFacts(e, n);
    DivFacts(k * e, n);
    assert (k * (e / n)) * n == k * e;
    ScaleCompare(k * e / n, k * (e / n), n);
  }

  /** Dividing by a positive length keeps the order. */
  lemma DivMonotone(a: real, b: real, n: real)
    requires n > 0.0 && a <= b
    ensures a / n <= b / n
  {
    DivFacts(a, n);
    DivFacts(b, n);
    ScaleCompare(a / n, b / n, n);
  }

  /** An amount scaled by a fraction in [0, 1]: nothing at 0, all of it at
      1, and in between for a non-negative amount. */
  function Scale(k: real, f: real): (r: real)
    requires 0.0 <= f <= 1.0
    ensures f == 0.0 ==> r == 0.0
    ensures f == 1.0 ==> r == k
    ensures k >= 0.0 ==> 0.0 <= r <= k
  {
    ScaleWithin(k, f);
    k * f
  }

  /** The elapsed fraction `(t - lowerBound) / length` that every phase of the
      animation computes; it runs from 0 at the lower bound to 1 at the upper. */
  function Fraction(r: ClosedRange, t: real): (f: real)
    requires Length(r) > 0.0
    ensures r.Contains(t) ==> 0.0 <= f <= 1.0
    ensures t < r.lo ==> f < 0.0
    ensures t > r.hi ==> f > 1.0
    ensures t == r.lo ==> f == 0.0
    ensures t == r.hi ==> f == 1.0
  {
    DivFacts(t - r.lo, Length(r));
    (t - r.lo) / Length(r)
  }

  /** A larger time never gives a smaller fraction. */
  lemma FractionMonotone(r: ClosedRange, t1: real, t2: real)
    requires Length(r) > 0.0
    requires t1 <= t2
    ensures Fraction(r, t1) <= Fraction(r, t2)
  {
    DivMonotone(t1 - r.lo, t2 - r.lo, Length(r));
  }

  /** Swift's `min` on two `CGFloat`s. */
  function Min(a: real, b: real): (m: real)
    ensures m <= a && m <= b
    ensures m == a || m == b
  {
    if a <= b then a else b
  }

  /** Swift's `max` on two `CGFloat`s. */
  function Max(a: real, b: real): (m: real)
    ensures m >= a && m >= b
    ensures m == a || m == b
  {
    if a >= b then a else b
  }

  /** Swift's `abs`. */
  function Abs(a: real): (m: real)
    ensures m >= 0.0
    ensures m == a || m == -a
  {
    if a < 0.0 then -a else a
  }

  /** `max(0, min(x, 1.0))`, the clamp used for progress values. */
  function Clamp01(x: real): (c: real)
    ensures 0.0 <= c <= 1.0
    ensures 0.0 <= x <= 1.0 ==> c == x
    ensures x < 0.0 ==> c == 0.0
    ensures x > 1.0 ==> c == 1.0
  {
    Max(0.0, Min(x, 1.0))
  }
}
