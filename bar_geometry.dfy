/**
 * The geometry `onDraw` derives from the current progress, the view's width and
 * height and the compensation flag: the pill-shaped track and the fill drawn on
 * top of it. Each is a round-capped horizontal line, given here as a Segment;
 * its thickness is the stroke width of the paint it is drawn with.
 */
module BarGeometry {
  import opened BarMath

  /** A horizontal round-capped line from (x1, y) to (x2, y). */
  datatype Segment = Segment(x1: real, x2: real, y: real, thickness: real)

  /** What one call of `onDraw` computes. */
  datatype Frame = Frame(radius: real, center: real, track: Segment, fill: Segment)

  /** `radius = min(width, height) / 2f`. */
  function Radius(width: Int32, height: Int32): (r: real)
    ensures 0 <= width && 0 <= height ==>
      0.0 <= r && 2.0 * r <= width as real && 2.0 * r <= height as real
    ensures 0 <= width && 0 <= height ==>
      2.0 * r == width as real || 2.0 * r == height as real
  {
    Min(width, height) as real / 2.0
  }

  /** `center = height / 2f`: the vertical middle of the view. */
  function Center(height: Int32): (c: real)
    ensures 0 <= height ==> 0.0 <= c <= height as real
    ensures height as real - c == c
  {
    height as real / 2.0
  }

  /**
   * The background track: from `radius` to `width - radius`, as thick as the
   * diameter. For a view of non-negative size it is as thick as the view's
   * smaller side, its start is not right of its end, and its round caps paint
   * exactly the view's width.
   */
  function Track(width: Int32, height: Int32): (t: Segment)
    ensures t.y == Center(height) && t.thickness == Min(width, height) as real
    ensures 0 <= width && 0 <= height ==>
      t.x1 <= t.x2 &&
      PaintedLeft(t) == 0.0 && PaintedRight(t) == width as real &&
      PaintedWithin(t, width, height)
  {
    var r := Radius(width, height);
    Segment(r, width as real - r, Center(height), 2.0 * r)
  }

  /** The part of `length` that `progress` percent covers: `length * (progress / 100f)`. */
  function Scaled(length: real, progress: real): real
  {
    length * (progress / 100.0)
  }

  /**
   * The fill without compensation: scaled over the straight part of the track.
   * It starts where the track starts and is as thick; for progress in [0, 100]
   * it ends within the track and paints inside the view.
   */
  function UncompensatedFill(width: Int32, height: Int32, progress: real): (f: Segment)
    ensures var t := Track(width, height);
      f.x1 == t.x1 && f.y == t.y && f.thickness == t.thickness
    ensures 0 <= width && 0 <= height && 0.0 <= progress <= 100.0 ==>
      f.x1 <= f.x2 <= Track(width, height).x2 && PaintedWithin(f, width, height)
  {
    var r := Radius(width, height);
    var f := Segment(r, r + Scaled(width as real - 2.0 * r, progress), Center(height), 2.0 * r);
    if 0 <= width && 0 <= height && 0.0 <= progress <= 100.0 then
      ScaledWithin(width as real - 2.0 * r, progress);
      f
    else
      f
  }

  /**
   * The end point the compensated fill is placed at: `(width - radius) * (progress / 100f)`.
   * For progress in [0, 100] it lies in [0, width - radius], the track's right end.
   */
  function CompensatedEndPoint(width: Int32, height: Int32, progress: real): (e: real)
    ensures 0 <= width && 0 <= height && 0.0 <= progress <= 100.0 ==>
      0.0 <= e <= Track(width, height).x2
  {
    var r := Radius(width, height);
    if 0 <= width && 0 <= height && 0.0 <= progress <= 100.0 then
      ScaledWithin(width as real - r, progress);
      Scaled(width as real - r, progress)
    else
      Scaled(width as real - r, progress)
  }

  /**
   * The fill with compensation: a full-thickness line once the end point is past
   * the compensation region (one radius), otherwise a dot at the end point whose
   * diameter is twice the end point. It always ends at the end point, and it is
   * a line of positive length exactly when the end point is past one radius.
   * For progress in [0, 100] it is one of two
   * shapes: a line as thick as the track from the track's start to a point
   * right of it, or a zero-length dot no thicker than the track whose diameter
   * is twice its position; either way it ends within the track and paints
   * inside the view.
   */
  function CompensatedFill(width: Int32, height: Int32, progress: real): (f: Segment)
    ensures f.y == Center(height)
    ensures f.x2 == CompensatedEndPoint(width, height, progress)
    ensures f.x1 < f.x2 <==> CompensatedEndPoint(width, height, progress) > Radius(width, height)
    ensures f.x1 == f.x2 ==> f.thickness == 2.0 * f.x2
    ensures 0 <= width && 0 <= height && 0.0 <= progress <= 100.0 ==>
      var t := Track(width, height);
      ((f.x1 == t.x1 < f.x2 && f.thickness == t.thickness) ||
       (f.x1 == f.x2 && f.thickness == 2.0 * f.x2 && 0.0 <= f.thickness <= t.thickness)) &&
      f.x2 <= t.x2 &&
      PaintedWithin(f, width, height)
  {
    var r := Radius(width, height);
    var compensationRegion := r;
    var endPoint := CompensatedEndPoint(width, height, progress);
    if endPoint > compensationRegion then
      Segment(r, endPoint, Center(height), 2.0 * r)
    else
      Segment(endPoint, endPoint, Center(height), 2.0 * endPoint)
  }

  /**
   * Everything `onDraw` computes for one frame. The track is `Track`; the
   * compensation flag picks the compensated fill, otherwise the uncompensated
   * one. The fill shares the track's centre line and is never thicker than it; at progress 100 it is exactly the
   * track; for progress in [0, 100] it ends within the track, and both lines
   * paint inside the view, in either mode.
   */
  function Render(width: Int32, height: Int32, progress: real, compensateLowProgress: bool): (f: Frame)
    ensures compensateLowProgress ==> f.fill == CompensatedFill(width, height, progress)
    ensures !compensateLowProgress ==> f.fill == UncompensatedFill(width, height, progress)
    ensures f.track == Track(width, height)
    ensures f.fill.y == f.track.y == f.center
    ensures 0 <= width && 0 <= height ==>
      2.0 * f.radius == f.track.thickness && (progress == 100.0 ==> f.fill == f.track)
    ensures 0 <= width && 0 <= height && 0.0 <= progress <= 100.0 ==>
      f.fill.x1 <= f.fill.x2 <= f.track.x2 &&
      0.0 <= f.fill.thickness <= f.track.thickness &&
      PaintedWithin(f.track, width, height) && PaintedWithin(f.fill, width, height)
  {
    var fill := if compensateLowProgress then CompensatedFill(width, height, progress)
                else UncompensatedFill(width, height, progress);
    if 0 <= width && 0 <= height && progress == 100.0 then
      UncompensatedFillEnds(width, height);
      CompensatedFillFull(width, height);
      Frame(Radius(width, height), Center(height), Track(width, height), fill)
    else
      Frame(Radius(width, height), Center(height), Track(width, height), fill)
  }

  // ---------------------------------------------------------------------
  // What a round-capped line paints
  // ---------------------------------------------------------------------

  /** The left-most x a segment paints: its left end minus the round cap. */
  function PaintedLeft(s: Segment): real
  {
    (if s.x1 <= s.x2 then s.x1 else s.x2) - s.thickness / 2.0
  }

  /** The right-most x a segment paints: its right end plus the round cap. */
  function PaintedRight(s: Segment): real
  {
    (if s.x1 <= s.x2 then s.x2 else s.x1) + s.thickness / 2.0
  }

  /** The segment paints inside the view's rectangle [0, width] x [0, height]. */
  predicate PaintedWithin(s: Segment, width: Int32, height: Int32)
  {
    0.0 <= s.thickness &&
    0.0 <= PaintedLeft(s) && PaintedRight(s) <= width as real &&
    0.0 <= s.y - s.thickness / 2.0 && s.y + s.thickness / 2.0 <= height as real
  }

  // ---------------------------------------------------------------------
  // Properties
  // ---------------------------------------------------------------------

  /** a <= b and 0 <= c give a * c <= b * c. */
  lemma MulMonotone(a: real, b: real, c: real)
    requires a <= b && 0.0 <= c
    ensures a * c <= b * c && c * a <= c * b
  {
    assert b * c - a * c == (b - a) * c;
  }

  /** A length scaled by a progress in [0, 100] stays within [0, length]. */
  lemma ScaledWithin(a: real, progress: real)
    requires 0.0 <= a && 0.0 <= progress <= 100.0
    ensures 0.0 <= Scaled(a, progress) <= a
  {
    MulMonotone(progress / 100.0, 1.0, a);
    MulMonotone(0.0, progress / 100.0, a);
  }

  /** A non-negative length scaled by a larger progress is no shorter. */
  lemma ScaledMonotone(a: real, p: real, q: real)
    requires 0.0 <= a && p <= q
    ensures Scaled(a, p) <= Scaled(a, q)
  {
    MulMonotone(p / 100.0, q / 100.0, a);
  }

  /** Without compensation, progress 0 is a zero-length fill and progress 100 covers the track. */
  lemma UncompensatedFillEnds(width: Int32, height: Int32)
    ensures UncompensatedFill(width, height, 0.0).x2 == Radius(width, height)
    ensures UncompensatedFill(width, height, 100.0) == Track(width, height)
  {
  }

  /** Without compensation the fill's end never moves left as progress grows. */
  lemma UncompensatedFillMonotone(width: Int32, height: Int32, p: real, q: real)
    requires 0 <= width && 0 <= height
    requires p <= q
    ensures UncompensatedFill(width, height, p).x2 <= UncompensatedFill(width, height, q).x2
  {
    var r := Radius(width, height);
    assert 0.0 <= r && 2.0 * r <= width as real;
    ScaledMonotone(width as real - 2.0 * r, p, q);
  }

  /** With compensation, progress 100 covers the track exactly, in either branch. */
  lemma CompensatedFillFull(width: Int32, height: Int32)
    requires 0 <= width && 0 <= height
    ensures CompensatedFill(width, height, 100.0) == Track(width, height)
  {
  }

  /**
   * With compensation the right edge the fill paints never moves left as
   * progress grows: the dot grows until its edge reaches 2 * radius, where the
   * line takes over with the same edge.
   */
  lemma CompensatedReachMonotone(width: Int32, height: Int32, p: real, q: real)
    requires 0 <= width && 0 <= height
    requires 0.0 <= p <= q
    ensures PaintedRight(CompensatedFill(width, height, p)) <= PaintedRight(CompensatedFill(width, height, q))
  {
    var r := Radius(width, height);
    assert 0.0 <= r && 2.0 * r <= width as real;
    ScaledMonotone(width as real - r, p, q);
    ScaledWithin(width as real - r, 0.0);
    ScaledMonotone(width as real - r, 0.0, p);
    var ep := CompensatedEndPoint(width, height, p);
    var eq := CompensatedEndPoint(width, height, q);
    assert 0.0 <= ep <= eq;
    // the dot paints up to 2 * e, the line up to e + r; both agree at e == r
    assert PaintedRight(CompensatedFill(width, height, p)) == if ep > r then ep + r else 2.0 * ep;
    assert PaintedRight(CompensatedFill(width, height, q)) == if eq > r then eq + r else 2.0 * eq;
  }

  /** Width 200, height 40, no compensation, progress 50: the fill ends at x = 100. */
  lemma ScenarioUncompensatedHalf()
    ensures Render(200, 40, 50.0, false).fill == Segment(20.0, 100.0, 20.0, 40.0)
  {
  }

  /** Width 200, height 40, compensation, progress 5: a dot at x = 9 of thickness 18. */
  lemma ScenarioCompensatedDot()
    ensures Render(200, 40, 5.0, true).fill == Segment(9.0, 9.0, 20.0, 18.0)
  {
  }

  /** Width 200, height 40, compensation, progress 50: a full-thickness line from 20 to 90. */
  lemma ScenarioCompensatedLine()
    ensures Render(200, 40, 50.0, true).fill == Segment(20.0, 90.0, 20.0, 40.0)
  {
  }

  /** At the boundary (end point exactly one radius) the dot branch is taken. */
  lemma CompensatedBoundaryIsDot(width: Int32, height: Int32, progress: real)
    requires CompensatedEndPoint(width, height, progress) == Radius(width, height)
    ensures var r := Radius(width, height);
      CompensatedFill(width, height, progress) == Segment(r, r, Center(height), 2.0 * r)
  {
  }
}
