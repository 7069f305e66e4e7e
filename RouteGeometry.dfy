/**
 * Route resampling: an authored waypoint list becomes the dotted polyline the
 * route animation reveals. Every pair of consecutive waypoints is split into
 * `max(floor(d / 20), 2)` equal segments, `d` being their distance, and all
 * `segments + 1` points of the pair, both ends included, are emitted.
 *
 * Waypoints are integers, so `floor(d / 20)` is computed exactly as
 * `ISqrt(dx² + dy²) / 20`; the interpolated points are exact reals.
 */
module RouteGeometry {
  import opened MapData

  /** An authored waypoint `{x, y}` of a navigation table. */
  datatype Waypoint = Waypoint(x: int, y: int)

  /** A point of the scene. */
  datatype Vec3 = Vec3(x: real, y: real, z: real)

  /** Routes float at this height above the floor. */
  const RouteHeight: real := 5.0
  /** The target spacing of the resampled dots. */
  const Spacing: nat := 20
  /** Every waypoint pair gets at least this many segments. */
  const MinSegments: nat := 2

  /** A waypoint moved into scene coordinates at route height. */
  function Corner(w: Waypoint): (c: Vec3)
    ensures c.x + OffsetX as real == w.x as real && c.z + OffsetY as real == w.y as real
    ensures c.y == RouteHeight
  {
    Vec3((w.x - OffsetX) as real, RouteHeight, (w.y - OffsetY) as real)
  }

  /** Doubling a number quadruples its square. */
  lemma SquareOfDouble(s: nat)
    ensures (2 * s) * (2 * s) == 4 * (s * s)
    ensures (2 * s + 2) * (2 * s + 2) == 4 * ((s + 1) * (s + 1))
  {
  }

  /** The integer square root: the largest `r` with `r * r <= n`. */
  function ISqrt(n: nat): (r: nat)
    ensures r * r <= n < (r + 1) * (r + 1)
  {
    if n < 4 then (if n == 0 then 0 else 1)
    else
      var q := n / 4;
      var s := ISqrt(q);
      var h := 2 * s;
      assert 4 * q <= n < 4 * q + 4;
      SquareOfDouble(s);
      if (h + 1) * (h + 1) <= n then h + 1 else h
  }

  /** Squaring is monotone on naturals. */
  lemma SquareMonotone(a: nat, b: nat)
    requires a <= b
    ensures a * a <= b * b
  {
    assert a * a <= a * b <= b * b;
  }

  /** The bracket `r * r <= n < (r + 1) * (r + 1)` determines `r`. */
  lemma ISqrtUnique(n: nat, r: nat)
    requires r * r <= n < (r + 1) * (r + 1)
    ensures ISqrt(n) == r
  {
    var s := ISqrt(n);
    if s < r {
      SquareMonotone(s + 1, r);
    } else if r < s {
      SquareMonotone(r + 1, s);
    }
  }

  /** The squared distance between two waypoints; their heights are equal, so only x and y count. */
  function SquaredDistance(a: Waypoint, b: Waypoint): nat {
    (b.x - a.x) * (b.x - a.x) + (b.y - a.y) * (b.y - a.y)
  }

  /**
   * `Math.max(Math.floor(distance / 20), 2)`. It is 2 exactly when the distance
   * is below 60; otherwise `20 * s <= distance < 20 * (s + 1)`, stated on squares.
   */
  function Segments(a: Waypoint, b: Waypoint): (s: nat)
    ensures s >= MinSegments
    ensures s == MinSegments <==> SquaredDistance(a, b) < 3600
    ensures s > MinSegments ==>
      400 * (s * s) <= SquaredDistance(a, b) < 400 * ((s + 1) * (s + 1))
  {
    var d2 := SquaredDistance(a, b);
    var d := ISqrt(d2);
    var k := d / Spacing;
    if k < 3 then
      SegmentsSmall(d2, d);
      MinSegments
    else
      SegmentsLarge(d2, d, k);
      k
  }

  lemma SegmentsSmall(d2: nat, d: nat)
    requires d * d <= d2 < (d + 1) * (d + 1)
    requires d / Spacing < 3
    ensures d2 < 3600
  {
    assert d + 1 <= 60;
    SquareMonotone(d + 1, 60);
  }

  lemma SegmentsLarge(d2: nat, d: nat, k: nat)
    requires d * d <= d2 < (d + 1) * (d + 1)
    requires k == d / Spacing && k >= 3
    ensures 3600 <= d2
    ensures 400 * (k * k) <= d2 < 400 * ((k + 1) * (k + 1))
  {
    assert 20 * k <= d < 20 * (k + 1);
    SquareMonotone(20 * k, d);
    SquareMonotone(d + 1, 20 * (k + 1));
    assert (20 * k) * (20 * k) == 400 * (k * k);
    assert (20 * (k + 1)) * (20 * (k + 1)) == 400 * ((k + 1) * (k + 1));
    SquareMonotone(60, 20 * k);
  }

  /** `lerpVectors(a, b, t)`: the point at fraction `t` of the way from `a` to `b`. */
  function Lerp(a: Vec3, b: Vec3, t: real): Vec3 {
    Vec3(a.x + (b.x - a.x) * t, a.y + (b.y - a.y) * t, a.z + (b.z - a.z) * t)
  }

  /** `s + 1` points from `a` to `b`, the `j`-th at fraction `j / s`. */
  function Lerps(a: Vec3, b: Vec3, s: nat): (r: seq<Vec3>)
    requires s > 0
    ensures |r| == s + 1
  {
    seq(s + 1, j requires 0 <= j <= s => Lerp(a, b, j as real / s as real))
  }

  /** The points emitted for one waypoint pair: `j / segments` for `j` in `0..segments`. */
  function Block(a: Waypoint, b: Waypoint): (r: seq<Vec3>)
    ensures |r| == Segments(a, b) + 1
  {
    Lerps(Corner(a), Corner(b), Segments(a, b))
  }

  /** One step of a block: `p + (b - a) / s`. */
  function Step(p: Vec3, a: Vec3, b: Vec3, s: nat): Vec3
    requires s > 0
  {
    var k := 1.0 / s as real;
    Vec3(p.x + (b.x - a.x) * k, p.y + (b.y - a.y) * k, p.z + (b.z - a.z) * k)
  }

  /** Multiplication distributes over a sum of fractions. */
  lemma Distributes(d: real, t: real, k: real)
    ensures d * (t + k) == d * t + d * k
  {
  }

  /** Moving the fraction on by `k` moves the point on by `k` times `b - a`. */
  lemma LerpStep(a: Vec3, b: Vec3, t: real, k: real)
    ensures Lerp(a, b, t + k) == Vec3(Lerp(a, b, t).x + (b.x - a.x) * k,
                                      Lerp(a, b, t).y + (b.y - a.y) * k,
                                      Lerp(a, b, t).z + (b.z - a.z) * k)
  {
    Distributes(b.x - a.x, t, k);
    Distributes(b.y - a.y, t, k);
    Distributes(b.z - a.z, t, k);
  }

  lemma FractionStep(j: nat, s: nat)
    requires s > 0
    ensures (j + 1) as real / s as real == j as real / s as real + 1.0 / s as real
  {
  }

  /** Point `j + 1` of a block is point `j` moved on by one step. */
  lemma LerpsStepAt(a: Vec3, b: Vec3, s: nat, j: nat)
    requires j < s
    ensures Lerps(a, b, s)[j + 1] == Step(Lerps(a, b, s)[j], a, b, s)
  {
    var t, k := j as real / s as real, 1.0 / s as real;
    FractionStep(j, s);
    LerpStep(a, b, t, k);
  }

  lemma LerpEnds(a: Vec3, b: Vec3)
    ensures Lerp(a, b, 0.0) == a && Lerp(a, b, 1.0) == b
  {
  }

  /** The interpolated points start at `a`, end at `b` and advance by equal steps. */
  lemma LerpsShape(a: Vec3, b: Vec3, s: nat)
    requires s > 0
    ensures Lerps(a, b, s)[0] == a && Lerps(a, b, s)[s] == b
    ensures forall j :: 0 <= j < s ==> Lerps(a, b, s)[j + 1] == Step(Lerps(a, b, s)[j], a, b, s)
  {
    var r := Lerps(a, b, s);
    LerpEnds(a, b);
    assert 0 as real / s as real == 0.0;
    assert s as real / s as real == 1.0;
    forall j | 0 <= j < s ensures r[j + 1] == Step(r[j], a, b, s) {
      LerpsStepAt(a, b, s, j);
    }
  }

  /**
   * Each pair's block starts exactly at its first waypoint, ends exactly at its
   * second, and consecutive points are one equal step `(b - a) / segments` apart.
   */
  lemma BlockShape(a: Waypoint, b: Waypoint)
    ensures Block(a, b)[0] == Corner(a)
    ensures Block(a, b)[Segments(a, b)] == Corner(b)
    ensures forall j :: 0 <= j < Segments(a, b) ==>
      Block(a, b)[j + 1] == Step(Block(a, b)[j], Corner(a), Corner(b), Segments(a, b))
  {
    LerpsShape(Corner(a), Corner(b), Segments(a, b));
  }

  /** A block's first and last points are the pair's corners. */
  lemma BlockEnds(a: Waypoint, b: Waypoint)
    ensures Block(a, b)[0] == Corner(a) && Block(a, b)[Segments(a, b)] == Corner(b)
  {
    BlockShape(a, b);
  }

  /** All resampled points of a waypoint list, pair after pair. */
  function Resample(path: seq<Waypoint>): seq<Vec3> {
    if |path| < 2 then []
    else Resample(path[..|path| - 1]) + Block(path[|path| - 2], path[|path| - 1])
  }

  /** The number of points a waypoint list yields: the sum of `segments + 1` over its pairs. */
  function PointCount(path: seq<Waypoint>): nat {
    if |path| < 2 then 0
    else PointCount(path[..|path| - 1]) + Segments(path[|path| - 2], path[|path| - 1]) + 1
  }

  /**
   * `totalPoints`: exactly the sum of `segments + 1` over the pairs, hence at
   * least three points per pair.
   */
  lemma {:induction false} ResampleLength(path: seq<Waypoint>)
    ensures |Resample(path)| == PointCount(path)
    ensures |path| >= 1 ==> PointCount(path) >= 3 * (|path| - 1)
  {
    if |path| >= 2 {
      ResampleLength(path[..|path| - 1]);
    }
  }

  /** A route of three waypoints has the points of its two pairs. */
  lemma PointCountOfThree(a: Waypoint, b: Waypoint, c: Waypoint)
    ensures PointCount([a, b, c]) == Segments(a, b) + Segments(b, c) + 2
  {
    var path, pair := [a, b, c], [a, b];
    assert path[..|path| - 1] == pair && path[|path| - 2] == b && path[|path| - 1] == c;
    assert PointCount(path) == PointCount(pair) + Segments(b, c) + 1;
    assert pair[..|pair| - 1] == [a] && pair[|pair| - 2] == a && pair[|pair| - 1] == b;
    assert PointCount(pair) == PointCount([a]) + Segments(a, b) + 1;
  }

  /** Extending the waypoint list only appends points: earlier blocks are kept as they are. */
  lemma {:induction false} ResamplePrefix(path: seq<Waypoint>, k: nat)
    requires 1 <= k <= |path|
    ensures Resample(path[..k]) <= Resample(path)
  {
    if k < |path| {
      var init := path[..|path| - 1];
      assert init[..k] == path[..k];
      ResamplePrefix(init, k);
      assert Resample(path) == Resample(init) + Block(path[|path| - 2], path[|path| - 1]);
    } else {
      assert path[..k] == path;
    }
  }

  /** The points up to waypoint `i + 1` are those up to waypoint `i` followed by pair `i`'s block. */
  lemma ResampleStep(path: seq<Waypoint>, i: nat)
    requires i + 1 < |path|
    ensures Resample(path[..i + 2]) == Resample(path[..i + 1]) + Block(path[i], path[i + 1])
  {
    var pre := path[..i + 2];
    assert pre[..|pre| - 1] == path[..i + 1];
    assert pre[|pre| - 2] == path[i] && pre[|pre| - 1] == path[i + 1];
  }

  /** When `a + b` begins `full`, `b` is the slice of `full` just after `a`. */
  lemma SliceOfPrefix<T>(full: seq<T>, a: seq<T>, b: seq<T>)
    requires a + b <= full
    ensures |a| + |b| <= |full| && full[|a|..|a| + |b|] == b
  {
    forall k | 0 <= k < |b| ensures full[|a|..|a| + |b|][k] == b[k] {
      assert full[|a| + k] == (a + b)[|a| + k];
    }
  }

  /**
   * The block of pair `i` sits right after the blocks of the earlier pairs, so
   * it starts at waypoint `i` and ends at waypoint `i + 1`.
   */
  lemma BlockAt(path: seq<Waypoint>, i: nat)
    requires i + 1 < |path|
    ensures var o, s := |Resample(path[..i + 1])|, Segments(path[i], path[i + 1]);
      o + s < |Resample(path)|
      && Resample(path)[o..o + s + 1] == Block(path[i], path[i + 1])
      && Resample(path)[o] == Corner(path[i])
      && Resample(path)[o + s] == Corner(path[i + 1])
  {
    var a, b, full := Resample(path[..i + 1]), Block(path[i], path[i + 1]), Resample(path);
    ResampleStep(path, i);
    ResamplePrefix(path, i + 2);
    SliceOfPrefix(full, a, b);
    BlockEnds(path[i], path[i + 1]);
    assert full[|a|] == b[0] && full[|a| + |b| - 1] == b[|b| - 1];
  }

  /** The loop of `drawDynamicRoute` that pushes every interpolated point into `straightPoints`. */
  method ResamplePoints(path: seq<Waypoint>) returns (points: seq<Vec3>)
    ensures points == Resample(path)
  {
    points := [];
    if |path| < 2 {
      return;
    }
    var i := 0;
    while i < |path| - 1
      invariant 0 <= i <= |path| - 1
      invariant points == Resample(path[..i + 1])
    {
      var start, end := Corner(path[i]), Corner(path[i + 1]);
      var segments := Segments(path[i], path[i + 1]);
      ghost var before := points;
      var j := 0;
      while j <= segments
        invariant 0 <= j <= segments + 1
        invariant points == before + Block(path[i], path[i + 1])[..j]
      {
        points := points + [Lerp(start, end, j as real / segments as real)];
        j := j + 1;
      }
      ghost var next := path[..i + 2];
      assert next[..|next| - 1] == path[..i + 1];
      assert Block(path[i], path[i + 1])[..j] == Block(path[i], path[i + 1]);
      i := i + 1;
    }
    assert path[..i + 1] == path;
  }
}
