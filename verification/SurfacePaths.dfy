/** Planning a drag before any press: every point of the whole path is resolved first. */
module SurfacePaths {
  import opened Common
  import opened SurfaceModel
  import opened SurfaceRouting

  const STEPS := 20
  const MAX_WAYPOINTS := 64

  datatype Path = Path(surface: Option<Surface>, points: seq<Point>)

  /** The point a fraction `i / steps` of the way; a single step stays at the start. */
  function Sample(start: Point, end: Point, steps: nat, i: nat): Point
    requires i <= steps
  {
    var t := if steps == 0 then 0.0 else i as real / steps as real;
    Point(start.x + (end.x - start.x) * t, start.y + (end.y - start.y) * t)
  }

  /** The point resolves to the surface, which is one of the tree. */
  predicate Lands(nodes: seq<SurfaceNode>, hit: Point -> Option<Hit>, p: Point, s: Surface) {
    hit(p).Some? && hit(p).value.surface == s && s in Surfaces(nodes)
  }

  predicate SegmentLands(nodes: seq<SurfaceNode>, hit: Point -> Option<Hit>, start: Point, end: Point, steps: nat, s: Surface) {
    forall i: nat :: i <= steps ==> Lands(nodes, hit, Sample(start, end, steps, i), s)
  }

  lemma ProductSign(a: real, b: real)
    requires a >= 0.0 && b >= 0.0
    ensures a * b >= 0.0
  {
  }

  /** A fraction of a length is between nothing and the whole of it. */
  lemma Fraction(d: real, t: real) returns (p: real)
    requires d >= 0.0 && 0.0 <= t <= 1.0
    ensures p == d * t && 0.0 <= p <= d
  {
    p := d * t;
    var rest := d * (1.0 - t);
    ProductSign(d, t);
    ProductSign(d, 1.0 - t);
    assert rest == d - p;
  }

  lemma Opposite(d: real, t: real)
    ensures (-d) * t == -(d * t)
  {
  }

  /** A step of a fraction of the way from one point of an interval to another stays in it. */
  lemma Step(a: real, d: real, t: real, size: real)
    requires 0.0 <= a < size && 0.0 <= a + d < size && 0.0 <= t <= 1.0
    ensures 0.0 <= a + d * t < size
  {
    if d >= 0.0 {
      var p := Fraction(d, t);
    } else {
      var p := Fraction(-d, t);
      Opposite(d, t);
    }
  }

  /** A point between two ends of an interval is in the interval. */
  lemma Convex(a: real, b: real, t: real, size: real)
    requires 0.0 <= a < size && 0.0 <= b < size && 0.0 <= t <= 1.0
    ensures 0.0 <= a + (b - a) * t < size
  {
    Step(a, b - a, t, size);
  }

  /** Every interpolated point of a segment inside the bounds is inside the bounds. */
  lemma SamplesInside(start: Point, end: Point, steps: nat, i: nat, size: Point)
    requires PointInside(start, size) && PointInside(end, size) && i <= steps
    ensures PointInside(Sample(start, end, steps, i), size)
  {
    var t := if steps == 0 then 0.0 else i as real / steps as real;
    assert 0.0 <= t <= 1.0;
    Convex(start.x, end.x, t, size.x);
    Convex(start.y, end.y, t, size.y);
  }

  lemma SampleEnds(start: Point, end: Point, steps: nat)
    ensures Sample(start, end, steps, 0) == start
    ensures steps > 0 ==> Sample(start, end, steps, steps) == end
  {
  }

  /** The samples are evenly spaced from the start to the end. */
  lemma EvenlySpaced(start: Point, end: Point, steps: nat, i: nat)
    requires 0 < steps && i < steps
    ensures Sample(start, end, steps, i + 1).x - Sample(start, end, steps, i).x == (end.x - start.x) / steps as real
    ensures Sample(start, end, steps, i + 1).y - Sample(start, end, steps, i).y == (end.y - start.y) / steps as real
    ensures Sample(start, end, steps, 0) == start && Sample(start, end, steps, steps) == end
  {
    var n := steps as real;
    OneStep(start.x, end.x - start.x, i as real, n);
    OneStep(start.y, end.y - start.y, i as real, n);
    SampleEnds(start, end, steps);
  }

  lemma OneStep(a: real, d: real, i: real, n: real)
    requires n > 0.0
    ensures (a + d * ((i + 1.0) / n)) - (a + d * (i / n)) == d / n
  {
    var q := 1.0 / n;
    assert (i + 1.0) / n == i / n + q;
    assert d * (i / n + q) == d * (i / n) + d * q;
    assert d * q == d / n;
  }

  lemma OneSurface(nodes: seq<SurfaceNode>, hit: Point -> Option<Hit>, p: Point, q: Point)
    requires hit(p).Some? && hit(q).Some? && hit(p).value.surface != hit(q).value.surface
    ensures forall s :: Lands(nodes, hit, p, s) ==> !Lands(nodes, hit, q, s)
  {
  }

  method PlanSurfacePath(nodes: seq<SurfaceNode>, size: Point, start: Point, end: Point, drag: bool,
                         hit: Point -> Option<Hit>) returns (path: Option<Path>)
    ensures var steps := if drag then STEPS else 0;
      && (path.Some? ==>
            && PointInside(start, size) && PointInside(end, size)
            && 0.0 <= start.x < size.x && 0.0 <= start.y < size.y && 0.0 <= end.x < size.x && 0.0 <= end.y < size.y
            && path.value.surface.Some?
            && SegmentLands(nodes, hit, start, end, steps, path.value.surface.value)
            && |path.value.points| == steps + 1 == (if drag then 21 else 1)
            && forall i: nat :: i <= steps ==> path.value.points[i] == hit(Sample(start, end, steps, i)).value.local)
      && (path == None ==>
            !(PointInside(start, size) && PointInside(end, size)
              && exists s :: SegmentLands(nodes, hit, start, end, steps, s)))
  {
    if !PointInside(start, size) || !PointInside(end, size) {
      return None;
    }
    var result := Path(None, []);
    var steps: nat := if drag then STEPS else 0;
    for i := 0 to steps + 1
      invariant |result.points| == i
      invariant i > 0 <==> result.surface.Some?
      invariant result.surface.Some? ==>
        forall j: nat :: j < i ==> Lands(nodes, hit, Sample(start, end, steps, j), result.surface.value)
      invariant forall j: nat :: j < i ==>
        hit(Sample(start, end, steps, j)).Some? && result.points[j] == hit(Sample(start, end, steps, j)).value.local
    {
      var h := hit(Sample(start, end, steps, i));
      if h == None || h.value.surface !in Surfaces(nodes) {
        assert forall s :: !Lands(nodes, hit, Sample(start, end, steps, i), s);
        return None;
      }
      if result.surface.Some? && result.surface.value != h.value.surface {
        assert Lands(nodes, hit, Sample(start, end, steps, 0), result.surface.value);
        OneSurface(nodes, hit, Sample(start, end, steps, 0), Sample(start, end, steps, i));
        return None;
      }
      result := Path(Some(h.value.surface), result.points + [h.value.local]);
    }
    return Some(result);
  }

  predicate AllInside(points: seq<Point>, size: Point) {
    forall p :: p in points ==> PointInside(p, size)
  }

  /** Segment `i` of a polyline resolves to the surface throughout. */
  predicate SegmentOn(nodes: seq<SurfaceNode>, hit: Point -> Option<Hit>, points: seq<Point>, i: nat, s: Surface)
    requires i + 1 < |points|
  {
    SegmentLands(nodes, hit, points[i], points[i + 1], STEPS, s)
  }

  predicate PolylineLands(nodes: seq<SurfaceNode>, hit: Point -> Option<Hit>, points: seq<Point>, s: Surface) {
    forall i: nat :: i + 1 < |points| ==> SegmentOn(nodes, hit, points, i, s)
  }

  function SampleAt(points: seq<Point>, i: nat, j: nat): Point
    requires i + 1 < |points| && j <= STEPS
  {
    Sample(points[i], points[i + 1], STEPS, j)
  }

  /** Where the `j`-th sample of the `i`-th segment stands in the plan. */
  predicate ResolvedAt(hit: Point -> Option<Hit>, points: seq<Point>, resolved: seq<Point>, i: nat, j: nat)
    requires i + 1 < |points| && j <= STEPS
  {
    && STEPS * i + j < |resolved|
    && hit(SampleAt(points, i, j)).Some?
    && resolved[STEPS * i + j] == hit(SampleAt(points, i, j)).value.local
  }

  /** The plan holds every sample, and no joint of two segments twice. */
  predicate Resolves(hit: Point -> Option<Hit>, points: seq<Point>, resolved: seq<Point>) {
    && |resolved| == STEPS * (|points| - 1) + 1
    && forall i: nat, j: nat :: i + 1 < |points| && j <= STEPS ==> ResolvedAt(hit, points, resolved, i, j)
  }

  /** Appending a segment without its first point keeps the plan. */
  lemma ResolvesMore(nodes: seq<SurfaceNode>, hit: Point -> Option<Hit>, points: seq<Point>, next: Point,
                     resolved: seq<Point>, segment: seq<Point>, s: Surface)
    requires |points| >= 2 && Resolves(hit, points, resolved)
    requires SegmentLands(nodes, hit, points[|points| - 1], next, STEPS, s)
    requires |segment| == STEPS + 1
    requires forall j: nat :: j <= STEPS ==>
      segment[j] == hit(Sample(points[|points| - 1], next, STEPS, j)).value.local
    ensures Resolves(hit, points + [next], resolved + segment[1..])
  {
    var last := |points| - 1;
    var all := resolved + segment[1..];
    forall i: nat, j: nat | i + 1 < |points + [next]| && j <= STEPS
      ensures ResolvedAt(hit, points + [next], all, i, j)
    {
      if i < last {
        assert ResolvedAt(hit, points, resolved, i, j);
        assert (points + [next])[i] == points[i] && (points + [next])[i + 1] == points[i + 1];
      } else {
        assert Lands(nodes, hit, Sample(points[last], next, STEPS, j), s);
        if j == 0 {
          assert ResolvedAt(hit, points, resolved, last - 1, STEPS);
          SampleEnds(points[last - 1], points[last], STEPS);
          SampleEnds(points[last], next, STEPS);
        } else {
          assert all[STEPS * last + j] == segment[j];
        }
      }
    }
  }

  lemma ResolvesFirst(nodes: seq<SurfaceNode>, hit: Point -> Option<Hit>, first: Point, next: Point, segment: seq<Point>, s: Surface)
    requires SegmentLands(nodes, hit, first, next, STEPS, s)
    requires |segment| == STEPS + 1
    requires forall j: nat :: j <= STEPS ==> segment[j] == hit(Sample(first, next, STEPS, j)).value.local
    ensures Resolves(hit, [first, next], segment)
  {
    forall j: nat | j <= STEPS ensures ResolvedAt(hit, [first, next], segment, 0, j) {
      assert Lands(nodes, hit, Sample(first, next, STEPS, j), s);
    }
  }

  /** A plan, when there is one: within the bounds, on one surface of the tree, every
      sample in its place. */
  ghost predicate Plans(nodes: seq<SurfaceNode>, size: Point, points: seq<Point>, hit: Point -> Option<Hit>, path: Path) {
    && AllInside(points, size)
    && path.surface.Some? && path.surface.value in Surfaces(nodes)
    && PolylineLands(nodes, hit, points, path.surface.value)
    && Resolves(hit, points, path.points)
  }

  method PlanSurfacePolyline(nodes: seq<SurfaceNode>, size: Point, points: seq<Point>, hit: Point -> Option<Hit>)
    returns (path: Option<Path>)
    ensures path.Some? ==> 2 <= |points| <= 64 && Plans(nodes, size, points, hit, path.value)
    ensures path.Some? ==> |path.value.points| == 20 * (|points| - 1) + 1 <= 1261
    ensures path == None ==>
      !(2 <= |points| <= 64 && AllInside(points, size)
        && exists s :: PolylineLands(nodes, hit, points, s))
  {
    if |points| < 2 || |points| > MAX_WAYPOINTS {
      return None;
    }
    var result := Path(None, []);
    for i := 1 to |points|
      invariant if i == 1 then result == Path(None, []) else Plans(nodes, size, points[..i], hit, result)
    {
      var segment := PlanSurfacePath(nodes, size, points[i - 1], points[i], true, hit);
      if segment == None {
        SegmentNeeded(nodes, size, points, hit, i - 1);
        return None;
      }
      var s := segment.value.surface.value;
      if result.surface.Some? && result.surface != segment.value.surface {
        assert SegmentOn(nodes, hit, points[..i], 0, result.surface.value);
        assert SegmentOn(nodes, hit, points, 0, result.surface.value);
        assert SegmentOn(nodes, hit, points, i - 1, s);
        SameSurfaceNeeded(nodes, hit, points, 0, i - 1, result.surface.value, s);
        return None;
      }
      assert Lands(nodes, hit, Sample(points[i - 1], points[i], STEPS, 0), s);
      assert points[..i + 1] == points[..i] + [points[i]];
      if i == 1 {
        assert points[..2] == [points[0], points[1]];
        ResolvesFirst(nodes, hit, points[0], points[1], segment.value.points, s);
        assert segment.value.points[0..] == segment.value.points;
      } else {
        ResolvesMore(nodes, hit, points[..i], points[i], result.points, segment.value.points, s);
      }
      LandsMore(nodes, hit, points, i, s);
      result := Path(segment.value.surface, result.points + segment.value.points[if i > 1 then 1 else 0..]);
    }
    assert points[..|points|] == points;
    return Some(result);
  }

  lemma LandsMore(nodes: seq<SurfaceNode>, hit: Point -> Option<Hit>, points: seq<Point>, i: nat, s: Surface)
    requires 1 <= i < |points|
    requires i > 1 ==> PolylineLands(nodes, hit, points[..i], s)
    requires SegmentLands(nodes, hit, points[i - 1], points[i], STEPS, s)
    ensures PolylineLands(nodes, hit, points[..i + 1], s)
  {
    var longer := points[..i + 1];
    forall k: nat | k + 1 < |longer| ensures SegmentOn(nodes, hit, longer, k, s) {
      if k + 1 < i { assert SegmentOn(nodes, hit, points[..i], k, s); }
    }
  }

  lemma SegmentNeeded(nodes: seq<SurfaceNode>, size: Point, points: seq<Point>, hit: Point -> Option<Hit>, k: nat)
    requires k + 1 < |points|
    requires !(PointInside(points[k], size) && PointInside(points[k + 1], size)
               && exists s :: SegmentOn(nodes, hit, points, k, s))
    ensures !(AllInside(points, size) && exists s :: PolylineLands(nodes, hit, points, s))
  {
    forall s | PolylineLands(nodes, hit, points, s) ensures SegmentOn(nodes, hit, points, k, s) {
    }
  }

  lemma SameSurfaceNeeded(nodes: seq<SurfaceNode>, hit: Point -> Option<Hit>, points: seq<Point>, i: nat, k: nat, r: Surface, s: Surface)
    requires i + 1 < |points| && k + 1 < |points| && r != s
    requires SegmentOn(nodes, hit, points, i, r) && SegmentOn(nodes, hit, points, k, s)
    ensures !exists x :: PolylineLands(nodes, hit, points, x)
  {
    assert Lands(nodes, hit, Sample(points[i], points[i + 1], STEPS, 0), r);
    assert Lands(nodes, hit, Sample(points[k], points[k + 1], STEPS, 0), s);
    forall x ensures !PolylineLands(nodes, hit, points, x) {
      if SegmentOn(nodes, hit, points, i, x) {
        assert Lands(nodes, hit, Sample(points[i], points[i + 1], STEPS, 0), x);
      }
      if SegmentOn(nodes, hit, points, k, x) {
        assert Lands(nodes, hit, Sample(points[k], points[k + 1], STEPS, 0), x);
      }
    }
  }

  /** Waypoint `i` is resolved at index 20 * i, and every sampled point is inside the bounds. */
  lemma WaypointsInPlace(nodes: seq<SurfaceNode>, size: Point, points: seq<Point>, hit: Point -> Option<Hit>, path: Path, i: nat)
    requires 2 <= |points| && Plans(nodes, size, points, hit, path) && i < |points|
    ensures hit(points[i]).Some? && 20 * i < |path.points| && path.points[20 * i] == hit(points[i]).value.local
    ensures i + 1 < |points| ==> forall j: nat :: j <= STEPS ==> PointInside(SampleAt(points, i, j), size)
  {
    if i + 1 < |points| {
      assert ResolvedAt(hit, points, path.points, i, 0);
      SampleEnds(points[i], points[i + 1], STEPS);
      forall j: nat | j <= STEPS ensures PointInside(SampleAt(points, i, j), size) {
        SamplesInside(points[i], points[i + 1], STEPS, j, size);
      }
    } else {
      var k: nat := i - 1;
      assert ResolvedAt(hit, points, path.points, k, STEPS);
      SampleEnds(points[k], points[i], STEPS);
    }
  }
}
