/**
 * The line-segment types that the segment generator emits, and the
 * generator's enumeration of the variants it writes.
 *
 * Coordinates are exact reals: every emitted method is one expression over
 * the segment's Start, End and Delta, and the model states those expressions
 * without floating-point rounding. The tolerance that the emitted code passes
 * to `ApproxEquals`/`ApproxZero` is a parameter `eps`.
 */
module Segments {
  import opened Wrappers
  import opened DotNet

  // ---- vectors ----

  datatype Vec2 = Vec2(x: real, y: real)
  datatype Vec3 = Vec3(x: real, y: real, z: real)

  function Add2(a: Vec2, b: Vec2): Vec2 { Vec2(a.x + b.x, a.y + b.y) }
  function Sub2(a: Vec2, b: Vec2): Vec2 { Vec2(a.x - b.x, a.y - b.y) }
  function Scale2(a: Vec2, t: real): Vec2 { Vec2(a.x * t, a.y * t) }
  function Dot2(a: Vec2, b: Vec2): real { a.x * b.x + a.y * b.y }

  function Add3(a: Vec3, b: Vec3): Vec3 { Vec3(a.x + b.x, a.y + b.y, a.z + b.z) }
  function Sub3(a: Vec3, b: Vec3): Vec3 { Vec3(a.x - b.x, a.y - b.y, a.z - b.z) }
  function Scale3(a: Vec3, t: real): Vec3 { Vec3(a.x * t, a.y * t, a.z * t) }

  /** The `XY` projection of a 3D point. */
  function XY(p: Vec3): Vec2 { Vec2(p.x, p.y) }

  function Min(a: real, b: real): real { if a <= b then a else b }
  function Max(a: real, b: real): real { if a >= b then a else b }

  /** `ApproxEquals(target, epsilon)`: within epsilon, bounds included. */
  predicate ApproxEquals(a: real, b: real, eps: real) { b - eps <= a <= b + eps }

  /** `ApproxZero(epsilon)`: `ApproxEquals(0, epsilon)`. */
  predicate ApproxZero(a: real, eps: real) { ApproxEquals(a, 0.0, eps) }

  // ---- segments ----

  datatype Seg2 = Seg2(start: Vec2, end: Vec2)
  datatype Seg3 = Seg3(start: Vec3, end: Vec3)

  datatype Endpoint = Start | End

  datatype Box2 = Box2(min: Vec2, max: Vec2)
  datatype Box3 = Box3(min: Vec3, max: Vec3)

  /** `Delta => End - Start`. */
  function Delta(s: Seg2): Vec2 { Sub2(s.end, s.start) }
  function Delta3(s: Seg3): Vec3 { Sub3(s.end, s.start) }

  /** `Box`: the component-wise minimum and maximum of the two endpoints. */
  function Box(s: Seg2): (b: Box2)
    ensures b.min.x <= s.start.x <= b.max.x && b.min.x <= s.end.x <= b.max.x
    ensures b.min.y <= s.start.y <= b.max.y && b.min.y <= s.end.y <= b.max.y
    ensures b.min.x in {s.start.x, s.end.x} && b.max.x in {s.start.x, s.end.x}
    ensures b.min.y in {s.start.y, s.end.y} && b.max.y in {s.start.y, s.end.y}
  {
    Box2(Vec2(Min(s.start.x, s.end.x), Min(s.start.y, s.end.y)),
         Vec2(Max(s.start.x, s.end.x), Max(s.start.y, s.end.y)))
  }

  function Box3Of(s: Seg3): (b: Box3)
    ensures b.min.x <= s.start.x <= b.max.x && b.min.x <= s.end.x <= b.max.x
    ensures b.min.y <= s.start.y <= b.max.y && b.min.y <= s.end.y <= b.max.y
    ensures b.min.z <= s.start.z <= b.max.z && b.min.z <= s.end.z <= b.max.z
    ensures b.min.x in {s.start.x, s.end.x} && b.max.x in {s.start.x, s.end.x}
    ensures b.min.y in {s.start.y, s.end.y} && b.max.y in {s.start.y, s.end.y}
    ensures b.min.z in {s.start.z, s.end.z} && b.max.z in {s.start.z, s.end.z}
  {
    Box3(Vec3(Min(s.start.x, s.end.x), Min(s.start.y, s.end.y), Min(s.start.z, s.end.z)),
         Vec3(Max(s.start.x, s.end.x), Max(s.start.y, s.end.y), Max(s.start.z, s.end.z)))
  }

  /** `this[int index]`: index 0 is Start, every other index is End. */
  function Index(s: Seg2, index: int): (v: Vec2)
    ensures index == 0 ==> v == s.start
    ensures index != 0 ==> v == s.end
  {
    if index == 0 then s.start else s.end
  }

  /** `this[Endpoint endpoint]`: Start is the first vertex and End the second. */
  function At(s: Seg2, e: Endpoint): (r: Vec2)
    ensures r == Index(s, if e == Start then 0 else 1)
  {
    if e == Start then s.start else s.end
  }

  /** `Opposite(endpoint)`: the endpoint not named. */
  function Opposite(s: Seg2, e: Endpoint): (r: Vec2)
    ensures {At(s, e), r} == {s.start, s.end}
    ensures s.start != s.end ==> r != At(s, e)
  {
    if e == Start then s.end else s.start
  }

  /** `Vertices`: Start, then End. */
  function Vertices(s: Seg2): (vs: seq<Vec2>)
    ensures |vs| == 2
  {
    [s.start, s.end]
  }

  /** The endpoint indexer and `Opposite` name the two endpoints between them, in either order. */
  lemma EndpointsPartition(s: Seg2, e: Endpoint)
    ensures {At(s, e), Opposite(s, e)} == {s.start, s.end}
    ensures Opposite(s, e) == At(s, if e == Start then End else Start)
    ensures Vertices(s) == [Index(s, 0), Index(s, 1)] == [At(s, Start), At(s, End)]
  {
  }

  /** `segment + vector`: both endpoints moved by the vector. */
  function Plus(s: Seg2, v: Vec2): (r: Seg2)
    ensures Delta(r) == Delta(s)
    ensures Sub2(r.start, s.start) == v && Sub2(r.end, s.end) == v
  {
    Seg2(Add2(s.start, v), Add2(s.end, v))
  }

  /** `segment - vector`. */
  function Minus(s: Seg2, v: Vec2): (r: Seg2)
    ensures Delta(r) == Delta(s)
    ensures Sub2(s.start, r.start) == v && Sub2(s.end, r.end) == v
  {
    Seg2(Sub2(s.start, v), Sub2(s.end, v))
  }

  function Plus3(s: Seg3, v: Vec3): (r: Seg3)
    ensures Delta3(r) == Delta3(s)
    ensures Sub3(r.start, s.start) == v && Sub3(r.end, s.end) == v
  {
    Seg3(Add3(s.start, v), Add3(s.end, v))
  }

  function Minus3(s: Seg3, v: Vec3): (r: Seg3)
    ensures Delta3(r) == Delta3(s)
    ensures Sub3(s.start, r.start) == v && Sub3(s.end, r.end) == v
  {
    Seg3(Sub3(s.start, v), Sub3(s.end, v))
  }

  /** Translating by a vector and back is the identity, in either order. */
  lemma TranslationInverse(s: Seg2, v: Vec2)
    ensures Minus(Plus(s, v), v) == s && Plus(Minus(s, v), v) == s
  {
  }

  lemma TranslationInverse3(s: Seg3, v: Vec3)
    ensures Minus3(Plus3(s, v), v) == s && Plus3(Minus3(s, v), v) == s
  {
  }

  /** `WithStart(start)`: a new segment from `start` to the old End. */
  function WithStart(s: Seg2, start: Vec2): (r: Seg2)
    ensures At(r, Start) == start && At(r, End) == At(s, End)
  {
    Seg2(start, s.end)
  }

  /** `WithEnd(end)`: a new segment from the old Start to `end`. */
  function WithEnd(s: Seg2, end: Vec2): (r: Seg2)
    ensures At(r, Start) == At(s, Start) && At(r, End) == end
  {
    Seg2(s.start, end)
  }

  /** `FromTime(t) => Start + Delta * t`: every time gives a point of the segment's line. */
  function FromTime(s: Seg2, t: real): (r: Vec2)
    ensures PerpDot(s, r) == 0.0
  {
    var d := Delta(s);
    assert d.x * (d.y * t) == d.y * (d.x * t);
    Add2(s.start, Scale2(d, t))
  }

  function FromTime3(s: Seg3, t: real): Vec3 {
    Add3(s.start, Scale3(Delta3(s), t))
  }

  /** Time 0 is Start and time 1 is End. */
  lemma FromTimeEndpoints(s: Seg2)
    ensures FromTime(s, 0.0) == s.start && FromTime(s, 1.0) == s.end
  {
  }

  lemma FromTimeEndpoints3(s: Seg3)
    ensures FromTime3(s, 0.0) == s.start && FromTime3(s, 1.0) == s.end
  {
  }

  /** Moving a segment moves every point along it by the same vector. */
  lemma FromTimeTranslates(s: Seg2, v: Vec2, t: real)
    ensures FromTime(Plus(s, v), t) == Add2(FromTime(s, t), v)
  {
  }

  // ---- side tests ----

  /** `PerpDot(point)`: the cross product of Delta with the point's offset from Start. */
  function PerpDot(s: Seg2, p: Vec2): (r: real)
    ensures p == s.start || p == s.end ==> r == 0.0
  {
    (Delta(s).x * (p.y - s.start.y)) - (Delta(s).y * (p.x - s.start.x))
  }

  /** `PerpDot` of a 3D point: that of its XY projection. */
  function PerpDot3(s: Seg2, p: Vec3): real {
    PerpDot(s, XY(p))
  }

  /** Every point of the segment's line, the endpoints included, has a zero perp-dot. */
  lemma PerpDotOnLine(s: Seg2, t: real)
    ensures PerpDot(s, FromTime(s, t)) == 0.0
    ensures PerpDot(s, s.start) == 0.0 && PerpDot(s, s.end) == 0.0
  {
    var d := Delta(s);
    var p := FromTime(s, t);
    assert p.y - s.start.y == d.y * t && p.x - s.start.x == d.x * t;
    assert d.x * (d.y * t) == d.y * (d.x * t);
    FromTimeEndpoints(s);
  }

  /**
   * Reversing a segment negates every perp-dot, so the two directions of a
   * line see the same point on opposite sides.
   */
  lemma PerpDotReversed(s: Seg2, p: Vec2)
    ensures PerpDot(Seg2(s.end, s.start), p) == -PerpDot(s, p)
  {
    var d := Delta(s);
    assert PerpDot(Seg2(s.end, s.start), p)
        == -d.x * (p.y - s.start.y - d.y) + d.y * (p.x - s.start.x - d.x);
  }

  /** `OnRight(point) => PerpDot(point) <= 0`: points on the line count as right. */
  predicate OnRight(s: Seg2, p: Vec2)
    ensures p == s.start || p == s.end ==> OnRight(s, p)
  {
    PerpDot(s, p) <= 0.0
  }

  predicate OnRight3(s: Seg2, p: Vec3) {
    PerpDot3(s, p) <= 0.0
  }

  /** `OnRight(seg)`: both endpoints of `seg` on the right. */
  predicate OnRightSeg(s: Seg2, seg: Seg2) {
    OnRight(s, seg.start) && OnRight(s, seg.end)
  }

  /** `DifferentSides(first, second) => OnRight(first) != OnRight(second)`. */
  predicate DifferentSides(s: Seg2, first: Vec2, second: Vec2)
    ensures DifferentSides(s, first, second) ==> first != second
    ensures (first == s.start || first == s.end) && DifferentSides(s, first, second) ==> PerpDot(s, second) > 0.0
  {
    OnRight(s, first) != OnRight(s, second)
  }

  /** `DifferentSides(seg)`: the endpoints of `seg` on different sides. */
  predicate DifferentSidesSeg(s: Seg2, seg: Seg2) {
    DifferentSides(s, seg.start, seg.end)
  }

  /**
   * A segment lies on its own right, and so does every point of its line;
   * `DifferentSides` is symmetric and false for a repeated point.
   */
  lemma SideTests(s: Seg2, a: Vec2, b: Vec2, t: real)
    ensures OnRight(s, FromTime(s, t)) && OnRightSeg(s, s)
    ensures DifferentSides(s, a, b) == DifferentSides(s, b, a)
    ensures !DifferentSides(s, a, a)
    ensures DifferentSidesSeg(s, Seg2(a, b)) == DifferentSides(s, a, b)
    ensures OnRight3(s, Vec3(a.x, a.y, t)) == OnRight(s, a)
  {
    PerpDotOnLine(s, t);
  }

  /** A point strictly on one side of a segment is strictly on the other side of its reverse. */
  lemma ReversedSides(s: Seg2, p: Vec2)
    requires PerpDot(s, p) != 0.0
    ensures OnRight(s, p) != OnRight(Seg2(s.end, s.start), p)
  {
    PerpDotReversed(s, p);
  }

  datatype Rotation = Right | Left | On

  /**
   * `ToSide(point, epsilon)`: On when the perp-dot is within epsilon of zero,
   * otherwise Right for a negative and Left for a positive perp-dot.
   */
  function ToSide(s: Seg2, p: Vec2, eps: real): (r: Rotation)
    ensures r == On <==> -eps <= PerpDot(s, p) <= eps
    ensures r == Right <==> PerpDot(s, p) < 0.0 && !(-eps <= PerpDot(s, p) <= eps)
    ensures r == Left <==> PerpDot(s, p) >= 0.0 && !(-eps <= PerpDot(s, p) <= eps)
  {
    var value := PerpDot(s, p);
    if ApproxZero(value, eps) then On else if value < 0.0 then Right else Left
  }

  /**
   * With a non-negative epsilon, ToSide refines OnRight: Right implies on the
   * right, Left implies not, and the segment's own line is On.
   */
  lemma ToSideAgreesWithOnRight(s: Seg2, p: Vec2, eps: real, t: real)
    requires eps >= 0.0
    ensures ToSide(s, p, eps) == Right ==> OnRight(s, p)
    ensures ToSide(s, p, eps) == Left ==> !OnRight(s, p)
    ensures ToSide(s, FromTime(s, t), eps) == On
    ensures ToSide(s, p, 0.0) == On <==> PerpDot(s, p) == 0.0
  {
    PerpDotOnLine(s, t);
  }

  // ---- time along the segment ----

  /**
   * The coordinate `ToTime` divides by: Y when Start and End have
   * approximately equal X, otherwise X.
   */
  predicate UsesY(s: Seg2, eps: real) {
    ApproxEquals(s.start.x, s.end.x, eps)
  }

  /** The divisor of `ToTime`: End minus Start in the coordinate it uses. */
  function TimeSpan(s: Seg2, eps: real): real {
    if UsesY(s, eps) then s.end.y - s.start.y else s.end.x - s.start.x
  }

  /**
   * `ToTime(point)`: the point's offset from Start over the span, in Y for a
   * near-vertical segment and in X otherwise. A zero span gives None, where
   * the floating-point source produces an infinity or NaN.
   */
  function ToTime(s: Seg2, p: Vec2, eps: real): (r: Option<real>)
    ensures r.None? <==> TimeSpan(s, eps) == 0.0
  {
    if UsesY(s, eps) then
      if s.end.y - s.start.y == 0.0 then None else Some((p.y - s.start.y) / (s.end.y - s.start.y))
    else
      if s.end.x - s.start.x == 0.0 then None else Some((p.x - s.start.x) / (s.end.x - s.start.x))
  }

  /** `ToTime` inverts `FromTime` whenever its divisor is non-zero. */
  lemma ToTimeFromTime(s: Seg2, t: real, eps: real)
    requires TimeSpan(s, eps) != 0.0
    ensures ToTime(s, FromTime(s, t), eps) == Some(t)
    ensures ToTime(s, s.start, eps) == Some(0.0) && ToTime(s, s.end, eps) == Some(1.0)
  {
    var span := TimeSpan(s, eps);
    var p := FromTime(s, t);
    assert span * t / span == t;
    assert span / span == 1.0;
    if UsesY(s, eps) {
      assert p.y - s.start.y == span * t;
      assert ToTime(s, s.end, eps) == Some(span / span);
      assert ToTime(s, s.start, eps) == Some(0.0 / span);
    } else {
      assert p.x - s.start.x == span * t;
      assert ToTime(s, s.end, eps) == Some(span / span);
      assert ToTime(s, s.start, eps) == Some(0.0 / span);
    }
  }

  /**
   * With a non-negative epsilon, the span is usable unless the endpoints are
   * within epsilon in X and equal in Y; with a zero epsilon that is exactly
   * when the segment is not a single point.
   */
  lemma SpanOfProperSegment(s: Seg2, eps: real)
    requires eps >= 0.0
    ensures TimeSpan(s, eps) != 0.0 <==> !ApproxEquals(s.start.x, s.end.x, eps) || s.start.y != s.end.y
    ensures TimeSpan(s, 0.0) != 0.0 <==> s.start != s.end
  {
  }

  /** A flat segment shorter than epsilon counts as vertical and has no time at all. */
  lemma ShortFlatSegmentHasNoTime(p: Vec2)
    ensures ToTime(Seg2(Vec2(0.0, 0.0), Vec2(0.5, 0.0)), p, 1.0).None?
  {
  }

  // ---- lines ----

  /** `Parallel(seg, epsilon)`: the cross product of the two deltas within epsilon of zero. */
  predicate Parallel(s: Seg2, seg: Seg2, eps: real)
    ensures eps >= 0.0 && seg == s ==> Parallel(s, seg, eps)
    ensures eps < 0.0 ==> !Parallel(s, seg, eps)
  {
    var d, e := Delta(s), Delta(seg);
    assert seg == s ==> d.y * e.x == d.x * e.y by {
      if seg == s { assert e == d; assert d.y * d.x == d.x * d.y; }
    }
    ApproxEquals(d.y * e.x, d.x * e.y, eps)
  }

  /** `CollinearHelper(a, b, c)`: twice the signed area of the triangle a, b, c, near zero. */
  function TriangleArea2(a: Vec2, b: Vec2, c: Vec2): real {
    (a.x * (b.y - c.y)) + (b.x * (c.y - a.y)) + (c.x * (a.y - b.y))
  }

  /** `Collinear(seg)`: both endpoints of `seg` on this segment's line, within epsilon. */
  predicate Collinear(s: Seg2, seg: Seg2, eps: real)
    ensures eps >= 0.0 && seg == s ==> Collinear(s, seg, eps)
    ensures eps < 0.0 ==> !Collinear(s, seg, eps)
  {
    ApproxZero(TriangleArea2(seg.start, s.start, s.end), eps)
      && ApproxZero(TriangleArea2(seg.end, s.start, s.end), eps)
  }

  /** The collinearity test is the perp-dot side test: Collinear means both ends are On. */
  lemma CollinearIsOn(s: Seg2, seg: Seg2, eps: real)
    ensures TriangleArea2(seg.start, s.start, s.end) == PerpDot(s, seg.start)
    ensures Collinear(s, seg, eps) <==> ToSide(s, seg.start, eps) == On && ToSide(s, seg.end, eps) == On
  {
    assert TriangleArea2(seg.start, s.start, s.end) == PerpDot(s, seg.start);
    assert TriangleArea2(seg.end, s.start, s.end) == PerpDot(s, seg.end);
  }

  /** Parallel is symmetric, and a segment is parallel and collinear to itself. */
  lemma ParallelCollinearSelf(s: Seg2, seg: Seg2, eps: real)
    requires eps >= 0.0
    ensures Parallel(s, seg, eps) <==> Parallel(seg, s, eps)
    ensures Parallel(s, s, eps) && Collinear(s, s, eps)
  {
    CollinearIsOn(s, s, eps);
    PerpDotOnLine(s, 0.0);
  }

  /** The determinant `IntersectionAsLine` tests: the cross product of the two deltas. */
  function Determinant(s: Seg2, seg: Seg2): real {
    (-Delta(seg).x * Delta(s).y) + (Delta(s).x * Delta(seg).y)
  }

  /**
   * `IntersectionAsLine(seg, out tThis)`: the time along this segment where
   * the two infinite lines meet; None when the determinant is approximately zero.
   */
  function IntersectionAsLine(s: Seg2, seg: Seg2, eps: real): (r: Option<real>)
    requires eps >= 0.0
    ensures r.None? <==> ApproxZero(Determinant(s, seg), eps)
  {
    var determinant := Determinant(s, seg);
    if ApproxZero(determinant, eps) then None
    else
      var startDelta := Sub2(s.start, seg.start);
      Some(((Delta(seg).x * startDelta.y) - (Delta(seg).y * startDelta.x)) / determinant)
  }

  /**
   * `IntersectionAsLine(seg, out tThis, out tOther)`: the times along both
   * segments, computed with the inverse of the determinant.
   */
  function IntersectionAsLineTwo(s: Seg2, seg: Seg2, eps: real): (r: Option<(real, real)>)
    requires eps >= 0.0
    ensures r.None? <==> ApproxZero(Determinant(s, seg), eps)
    ensures r.Some? ==> IntersectionAsLine(s, seg, eps) == Some(r.value.0)
  {
    var determinant := Determinant(s, seg);
    if ApproxZero(determinant, eps) then None
    else
      var startDelta := Sub2(s.start, seg.start);
      var inverseDeterminant := 1.0 / determinant;
      var numerator := (Delta(seg).x * startDelta.y) - (Delta(seg).y * startDelta.x);
      assert numerator * inverseDeterminant == numerator / determinant;
      assert IntersectionAsLine(s, seg, eps).value == numerator / determinant;
      Some((numerator * inverseDeterminant,
            ((-Delta(s).y * startDelta.x) + (Delta(s).x * startDelta.y)) * inverseDeterminant))
  }

  /** The point at `tThis` lies on the other segment's line. */
  lemma IntersectionOnOtherLine(s: Seg2, seg: Seg2, eps: real)
    requires eps >= 0.0
    requires IntersectionAsLine(s, seg, eps).Some?
    ensures PerpDot(seg, FromTime(s, IntersectionAsLine(s, seg, eps).value)) == 0.0
  {
    var D := Determinant(s, seg);
    var d := Delta(s);
    var e := Delta(seg);
    var sd := Sub2(s.start, seg.start);
    var n := (e.x * sd.y) - (e.y * sd.x);
    var t := IntersectionAsLine(s, seg, eps).value;
    assert D != 0.0;
    assert t * D == n;
    var p := FromTime(s, t);
    calc {
      PerpDot(seg, p);
      e.x * (sd.y + d.y * t) - e.y * (sd.x + d.x * t);
      n + t * (e.x * d.y - e.y * d.x);
      n - t * D;
      0.0;
    }
  }

  /** Both times name the same point: the lines' crossing. */
  lemma IntersectionTimesAgree(s: Seg2, seg: Seg2, eps: real)
    requires eps >= 0.0
    requires IntersectionAsLineTwo(s, seg, eps).Some?
    ensures var (tThis, tOther) := IntersectionAsLineTwo(s, seg, eps).value;
      FromTime(s, tThis) == FromTime(seg, tOther)
  {
    var D := Determinant(s, seg);
    var d := Delta(s);
    var e := Delta(seg);
    var sd := Sub2(s.start, seg.start);
    var (tThis, tOther) := IntersectionAsLineTwo(s, seg, eps).value;
    assert D != 0.0;
    assert tThis * D == (e.x * sd.y) - (e.y * sd.x);
    assert tOther * D == (-d.y * sd.x) + (d.x * sd.y);
    // sd + d*tThis == e*tOther, component by component, after multiplying by D
    assert (sd.x + d.x * tThis) * D == e.x * tOther * D;
    assert (sd.y + d.y * tThis) * D == e.y * tOther * D;
  }

  // ---- closest point ----

  function DistanceSquared(a: Vec2, b: Vec2): real {
    Dot2(Sub2(a, b), Sub2(a, b))
  }

  /** Squares are non-negative, and positive for a non-zero base. */
  lemma Square(a: real)
    ensures a * a >= 0.0
    ensures a != 0.0 ==> a * a > 0.0
  {
    if a < 0.0 {
      assert a * a == (-a) * (-a);
    }
  }

  /** A sum of two squares, one of them of a non-zero base, is positive. */
  lemma SumOfSquares(a: real, b: real)
    requires a != 0.0 || b != 0.0
    ensures a * a + b * b > 0.0
  {
    Square(a);
    Square(b);
  }

  /** A product of three reals whose outer factors share a sign and whose middle one is non-negative. */
  lemma ProductSign(x: real, y: real, z: real)
    requires y >= 0.0
    requires (x >= 0.0 && z >= 0.0) || (x <= 0.0 && z <= 0.0)
    ensures x * y * z >= 0.0
  {
    if x <= 0.0 && z <= 0.0 {
      assert x * y * z == (-x) * y * (-z);
    }
  }

  /** A segment with distinct endpoints has a positive squared length. */
  lemma ProperLength(s: Seg2)
    requires s.start != s.end
    ensures Dot2(Delta(s), Delta(s)) > 0.0
  {
    var d := Delta(s);
    assert s.end == Vec2(s.start.x + d.x, s.start.y + d.y);
    SumOfSquares(d.x, d.y);
    calc {
      Dot2(Delta(s), Delta(s));
      d.x * d.x + d.y * d.y;
    > 0.0;
    }
  }

  /** The unclamped projection time `-Delta.Dot(Start - point) / Delta.Dot(Delta)`. */
  function ProjectionTime(s: Seg2, p: Vec2): real
    requires s.start != s.end
  {
    ProperLength(s);
    -Dot2(Delta(s), Sub2(s.start, p)) / Dot2(Delta(s), Delta(s))
  }

  /**
   * `ClosestPoint(point)`: Start when the projection time is at most 0,
   * End when it is at least 1, otherwise the point at that time.
   */
  function ClosestPoint(s: Seg2, p: Vec2): (r: Vec2)
    requires s.start != s.end
    ensures ProjectionTime(s, p) <= 0.0 ==> r == s.start
    ensures ProjectionTime(s, p) >= 1.0 ==> r == s.end
    ensures 0.0 < ProjectionTime(s, p) < 1.0 ==> r == FromTime(s, ProjectionTime(s, p))
  {
    var t := ProjectionTime(s, p);
    if t <= 0.0 then s.start
    else if t >= 1.0 then s.end
    else FromTime(s, t)
  }

  /** The clamped projection time: the time of the closest point. */
  function ClampedTime(s: Seg2, p: Vec2): (t: real)
    requires s.start != s.end
    ensures 0.0 <= t <= 1.0
    ensures FromTime(s, t) == ClosestPoint(s, p)
  {
    FromTimeEndpoints(s);
    var t := ProjectionTime(s, p);
    if t <= 0.0 then 0.0 else if t >= 1.0 then 1.0 else t
  }

  /**
   * The squared distance to the point at time u, as a quadratic in u:
   * |Delta|^2 u^2 + 2 (Delta . q) u + |q|^2 with q = Start - point.
   */
  lemma DistanceQuadratic(s: Seg2, p: Vec2, u: real, a: Vec2)
    requires a == Add2(s.start, Scale2(Delta(s), u))
    ensures var d := Delta(s); var q := Sub2(s.start, p);
      DistanceSquared(a, p) == Dot2(d, d) * u * u + 2.0 * Dot2(d, q) * u + Dot2(q, q)
  {
    var d := Delta(s);
    var q := Sub2(s.start, p);
    assert Sub2(a, p) == Vec2(q.x + d.x * u, q.y + d.y * u);
  }

  /** The difference of two values of a quadratic whose vertex is at `ts`. */
  lemma QuadraticDifference(du: real, dv: real, dd: real, b: real, c: real, ts: real, u: real, v: real)
    requires du == dd * u * u + 2.0 * b * u + c && dv == dd * v * v + 2.0 * b * v + c
    requires ts * dd == -b
    ensures du - dv == (u - v) * dd * (u + v - 2.0 * ts)
  {
    calc {
      du - dv;
      (dd * u * u + 2.0 * b * u + c) - (dd * v * v + 2.0 * b * v + c);
      (u - v) * (dd * (u + v) + 2.0 * b);
      (u - v) * (dd * (u + v) - 2.0 * ts * dd);
      (u - v) * dd * (u + v - 2.0 * ts);
    }
  }

  /**
   * The difference of two squared distances along the line factors as
   * (u - v) |Delta|^2 (u + v - 2 t*), with t* the projection time.
   */
  lemma DistanceDifference(s: Seg2, p: Vec2, u: real, v: real)
    requires s.start != s.end
    ensures DistanceSquared(FromTime(s, u), p) - DistanceSquared(FromTime(s, v), p)
         == (u - v) * Dot2(Delta(s), Delta(s)) * (u + v - 2.0 * ProjectionTime(s, p))
  {
    var d := Delta(s);
    var q := Sub2(s.start, p);
    var dd := Dot2(d, d);
    var b := Dot2(d, q);
    var c := Dot2(q, q);
    var ts := ProjectionTime(s, p);
    ProperLength(s);
    assert ts * dd == -b;
    var at, bt := FromTime(s, u), FromTime(s, v);
    DistanceQuadratic(s, p, u, at);
    DistanceQuadratic(s, p, v, bt);
    QuadraticDifference(DistanceSquared(at, p), DistanceSquared(bt, p), dd, b, c, ts, u, v);
  }


  /** Clamping `ts` to [0, 1] moves it towards any u in [0, 1]: the factors share a sign. */
  lemma ClampedSign(u: real, ts: real, v: real, dd: real)
    requires 0.0 <= u <= 1.0 && dd >= 0.0
    requires v == if ts <= 0.0 then 0.0 else if ts >= 1.0 then 1.0 else ts
    ensures (u - v) * dd * (u + v - 2.0 * ts) >= 0.0
  {
    ProductSign(u - v, dd, u + v - 2.0 * ts);
  }

  /** No point of the segment is nearer to `p` than `ClosestPoint(p)`. */
  lemma ClosestPointIsClosest(s: Seg2, p: Vec2, u: real)
    requires s.start != s.end
    requires 0.0 <= u <= 1.0
    ensures DistanceSquared(ClosestPoint(s, p), p) <= DistanceSquared(FromTime(s, u), p)
  {
    var ts := ProjectionTime(s, p);
    var v := ClampedTime(s, p);
    var dd := Dot2(Delta(s), Delta(s));
    ProperLength(s);
    assert v == if ts <= 0.0 then 0.0 else if ts >= 1.0 then 1.0 else ts;
    ClampedSign(u, ts, v, dd);
    DistanceDifference(s, p, u, v);
    assert FromTime(s, v) == ClosestPoint(s, p);
  }

  // ---- the generator ----

  datatype Types = Float | Double

  /** The type's shorthand in generated names. */
  function Shorthand(t: Types): string {
    match t
    case Float => "F"
    case Double => "D"
  }

  /** The constructor arguments of one `SegmentGenerator`. */
  datatype Variant = Variant(primitive: Types, dimension: int, isStruct: bool, hasStructVecs: bool)

  /** `ClassName`: the struct name, the struct-vector class name, or the generic class over `V`. */
  function ClassName(v: Variant): (r: string)
    ensures |r| > 3 && r[..3] == "Seg"
    ensures r[|r| - 1] == '>' <==> !v.isStruct && !v.hasStructVecs
  {
    var suffix := DecimalString(v.dimension) + Shorthand(v.primitive);
    assert suffix[|suffix| - 1] in "FD";
    if v.isStruct then "Seg" + suffix
    else if v.hasStructVecs then "Segment" + suffix
    else "SegmentT" + suffix + "<V>"
  }

  /** `ClassName.Replace("<V>", "")`: the class name without its type parameter. */
  function FileName(v: Variant): (name: string)
    ensures ClassName(v) == name || ClassName(v) == name + "<V>"
  {
    var suffix := DecimalString(v.dimension) + Shorthand(v.primitive);
    if v.isStruct then "Seg" + suffix
    else if v.hasStructVecs then "Segment" + suffix
    else "SegmentT" + suffix
  }

  /** The path `PerformGeneration` writes the variant to. */
  function FilePath(v: Variant): string {
    "Geometry/Segments/" + FileName(v) + ".cs"
  }

  /** The variants `Generate` constructs, in order: type, then dimension, then the three kinds. */
  predicate Generated(v: Variant) {
    v.dimension in {2, 3} && !(v.isStruct && v.hasStructVecs)
  }

  /** Variant number i of `Generate`'s nested loops. */
  function VariantAt(i: nat): (v: Variant)
    requires i < 12
    ensures Generated(v)
  {
    Variant(if i < 6 then Float else Double, if (i / 3) % 2 == 0 then 2 else 3, i % 3 == 0, i % 3 == 1)
  }

  /** Every variant of the two types, two dimensions and three kinds occurs among the twelve. */
  lemma VariantsCovered(v: Variant)
    requires Generated(v)
    ensures exists i :: 0 <= i < 12 && VariantAt(i) == v
  {
    var i := (if v.primitive == Float then 0 else 6) + (if v.dimension == 2 then 0 else 3)
           + (if v.isStruct then 0 else if v.hasStructVecs then 1 else 2);
    assert VariantAt(i) == v;
  }

  lemma DimensionName(d: int)
    requires d in {2, 3}
    ensures DecimalString(d) == [DigitChar(d)]
  {
  }

  /** Distinct variants are written to distinct files. */
  lemma FileNamesDistinct(v: Variant, w: Variant)
    requires Generated(v) && Generated(w)
    requires FileName(v) == FileName(w)
    ensures v == w
  {
    DimensionName(v.dimension);
    DimensionName(w.dimension);
    var a := FileName(v);
    var b := FileName(w);
    // the kind fixes the length, then the digit and the shorthand follow the prefix
    var n := |a| - 2;
    assert a[n] == DigitChar(v.dimension) && b[n] == DigitChar(w.dimension);
    assert a[n + 1] == Shorthand(v.primitive)[0] && b[n + 1] == Shorthand(w.primitive)[0];
    assert v.dimension == DigitValue(a[n]);
  }

  /** The variant a generation step of the nested loops constructs. */
  lemma VariantAtStep(ti: nat, di: nat, kind: nat)
    requires ti < 2 && di < 2 && kind < 3
    ensures VariantAt(6 * ti + 3 * di + kind)
         == Variant([Float, Double][ti], [2, 3][di], kind == 0, kind == 1)
  {
    var k := 6 * ti + 3 * di + kind;
    assert k / 3 == 2 * ti + di;
    assert k % 3 == kind;
  }

  /** Where a variant sits among the twelve. */
  function IndexOf(v: Variant): nat {
    (if v.primitive == Float then 0 else 6) + (if v.dimension == 2 then 0 else 3)
      + (if v.isStruct then 0 else if v.hasStructVecs then 1 else 2)
  }

  lemma IndexOfVariantAt(i: nat)
    requires i < 12
    ensures IndexOf(VariantAt(i)) == i
  {
  }

  /** The files of the first `n` generation steps. */
  predicate WrittenSoFar(paths: seq<string>) {
    |paths| <= 12 && forall k :: 0 <= k < |paths| ==> paths[k] == FilePath(VariantAt(k))
  }

  /** `PerformGeneration`: the class text is left out; the path it writes to is the result. */
  method PerformGeneration(v: Variant) returns (path: string)
    ensures path == FilePath(v)
  {
    path := "Geometry/Segments/" + FileName(v) + ".cs";
  }

  lemma WrittenStep(paths: seq<string>, path: string)
    requires WrittenSoFar(paths) && |paths| < 12
    requires path == FilePath(VariantAt(|paths|))
    ensures WrittenSoFar(paths + [path])
  {
  }

  /** The three kinds `Generate` writes for one type and dimension, appended to `paths`. */
  method GenerateKinds(ti: nat, di: nat, paths: seq<string>) returns (paths': seq<string>)
    requires ti < 2 && di < 2
    requires |paths| == 6 * ti + 3 * di && WrittenSoFar(paths)
    ensures |paths'| == |paths| + 3 && WrittenSoFar(paths')
  {
    var t := [Float, Double][ti];
    var d := [2, 3][di];
    paths' := paths;
    var path := PerformGeneration(Variant(t, d, true, false));
    VariantAtStep(ti, di, 0);
    WrittenStep(paths', path);
    paths' := paths' + [path];
    path := PerformGeneration(Variant(t, d, false, true));
    VariantAtStep(ti, di, 1);
    WrittenStep(paths', path);
    paths' := paths' + [path];
    path := PerformGeneration(Variant(t, d, false, false));
    VariantAtStep(ti, di, 2);
    WrittenStep(paths', path);
    paths' := paths' + [path];
  }

  /** `Generate`: one `PerformGeneration` per type, dimension and kind; the files written, in order. */
  method Generate() returns (paths: seq<string>)
    ensures |paths| == 12
    ensures forall i :: 0 <= i < 12 ==> paths[i] == FilePath(VariantAt(i))
  {
    paths := [];
    var types := [Float, Double];
    var dimensions := [2, 3];
    var ti := 0;
    while ti < |types|
      invariant 0 <= ti <= |types|
      invariant |paths| == 6 * ti
      invariant WrittenSoFar(paths)
    {
      var di := 0;
      while di < |dimensions|
        invariant 0 <= di <= |dimensions|
        invariant |paths| == 6 * ti + 3 * di
        invariant WrittenSoFar(paths)
      {
        paths := GenerateKinds(ti, di, paths);
        di := di + 1;
      }
      ti := ti + 1;
    }
  }

  /** A generated file's path determines its variant. */
  lemma FilePathInjective(v: Variant, w: Variant)
    requires Generated(v) && Generated(w)
    ensures FilePath(v) == FilePath(w) ==> v == w
  {
    if FilePath(v) == FilePath(w) {
      var pre := "Geometry/Segments/";
      var p := FilePath(v);
      assert FileName(v) == p[|pre|..|p| - 3];
      assert FileName(w) == p[|pre|..|p| - 3];
      FileNamesDistinct(v, w);
    }
  }

  /** The twelve files are pairwise distinct. */
  lemma GeneratedPathsDistinct(i: nat, j: nat)
    requires i < 12 && j < 12
    ensures FilePath(VariantAt(i)) == FilePath(VariantAt(j)) ==> i == j
  {
    FilePathInjective(VariantAt(i), VariantAt(j));
    IndexOfVariantAt(i);
    IndexOfVariantAt(j);
  }
}
