/**
 * Detection post-processing (src/db_net.rs). The probability map is
 * binarised and split into contours; each contour is fitted with a rotated
 * rectangle, scored on the map, grown by the unclip offset and re-fitted, and
 * the surviving boxes are mapped back to source-image coordinates. The
 * OpenCV and Clipper primitives are the fields of `Cv`.
 */
module DbNet {
  import opened Common
  import opened Vision
  import opened OcrResults
  import opened ScaleParams

  /** `max_side_thresh`: the shorter fitted side a contour must reach. */
  const MAX_SIDE_THRESH: real := 3.0

  // ---------------------------------------------------------------------
  // Polygon accumulators
  // ---------------------------------------------------------------------

  /** What an accumulator adds up edge by edge. */
  datatype Measure = Area | Length(sqrt: real -> real)

  function Sq(v: real): real
  {
    v * v
  }

  /** One edge's term: `(b.x - a.x) * (b.y + a.y) / 2` for the area, the Euclidean length for the perimeter. */
  function EdgeValue(m: Measure, a: Point2f, b: Point2f): real
  {
    match m
    case Area => (b.x - a.x) * (b.y + a.y) / 2.0
    case Length(sqrt) => sqrt(Sq(b.x - a.x) + Sq(b.y - a.y))
  }

  /** The terms of the first `n` edges `q[i] -> q[i+1]` of a path. */
  function EdgeSum(q: seq<Point2f>, n: nat, m: Measure): real
    requires n < |q|
  {
    if n == 0 then 0.0 else EdgeSum(q, n - 1, m) + EdgeValue(m, q[n - 1], q[n])
  }

  /** The path of a closed polygon: its points followed by the first one again. */
  function Closed(p: seq<Point2f>): (q: seq<Point2f>)
    requires |p| > 0
    ensures |q| == |p| + 1 && q[|p|] == p[0]
    ensures forall k :: 0 <= k < |p| ==> q[k] == p[k]
  {
    p + [p[0]]
  }

  /** The terms of every edge of the closed polygon, the closing edge from last to first included. */
  function ClosedSum(p: seq<Point2f>, m: Measure): real
    requires |p| > 0
  {
    EdgeSum(Closed(p), |p|, m)
  }

  /** The shoelace sum of `signed_polygon_area`. */
  function SignedArea(p: seq<Point2f>): real
    requires |p| > 0
  {
    ClosedSum(p, Area)
  }

  /** The perimeter of `length_of_points`: 0 for no points. */
  function Perimeter(p: seq<Point2f>, sqrt: real -> real): real
  {
    if |p| == 0 then 0.0 else ClosedSum(p, Length(sqrt))
  }

  /** `signed_polygon_area` (lines 405-417); `points[0]` panics on an empty slice. */
  method SignedPolygonArea(points: seq<Point2f>) returns (area: real)
    requires |points| > 0
    ensures area == SignedArea(points)
  {
    var numPoints := |points|;
    var pts := points + [points[0]];
    area := 0.0;
    for i := 0 to numPoints
      invariant area == EdgeSum(pts, i, Area)
    {
      area := area + (pts[i + 1].x - pts[i].x) * (pts[i + 1].y + pts[i].y) / 2.0;
    }
  }

  /** `length_of_points` (lines 419-446). */
  method LengthOfPoints(boxPoints: seq<Point2f>, sqrt: real -> real) returns (length: real)
    ensures length == Perimeter(boxPoints, sqrt)
  {
    if |boxPoints| == 0 {
      return 0.0;
    }
    length := 0.0;
    var pt := boxPoints[0];
    var x0 := pt.x;
    var y0 := pt.y;
    var boxWithFirst := boxPoints + [pt];
    for idx := 1 to |boxWithFirst|
      invariant length == EdgeSum(boxWithFirst, idx - 1, Length(sqrt))
      invariant x0 == boxWithFirst[idx - 1].x && y0 == boxWithFirst[idx - 1].y
    {
      var pts := boxWithFirst[idx];
      var x1 := pts.x;
      var y1 := pts.y;
      var dx := x1 - x0;
      var dy := y1 - y0;
      length := length + sqrt(Sq(dx) + Sq(dy));
      x0 := x1;
      y0 := y1;
    }
  }

  lemma {:induction false} EdgeSumPrefix(s: seq<Point2f>, t: seq<Point2f>, n: nat, m: Measure)
    requires n < |s|
    ensures EdgeSum(s + t, n, m) == EdgeSum(s, n, m)
  {
    if n > 0 {
      EdgeSumPrefix(s, t, n - 1, m);
    }
  }

  lemma {:induction false} EdgeSumShift(a: Point2f, r: seq<Point2f>, n: nat, m: Measure)
    requires 0 < n <= |r|
    ensures EdgeSum([a] + r, n, m) == EdgeValue(m, a, r[0]) + EdgeSum(r, n - 1, m)
  {
    if n > 1 {
      EdgeSumShift(a, r, n - 1, m);
      assert ([a] + r)[n - 1] == r[n - 2] && ([a] + r)[n] == r[n - 1];
    }
  }

  /** Starting the closed polygon at its second point gives the same sum: every edge is counted once. */
  lemma ClosedSumRotate(p: seq<Point2f>, m: Measure)
    requires |p| > 0
    ensures ClosedSum(p[1..] + [p[0]], m) == ClosedSum(p, m)
  {
    var r := p[1..] + [p[0]];
    assert Closed(p) == [p[0]] + r;
    EdgeSumShift(p[0], r, |p|, m);
    assert Closed(r) == r + [r[0]];
    EdgeSumPrefix(r, [r[0]], |p| - 1, m);
  }

  // ---------------------------------------------------------------------
  // get_mini_box
  // ---------------------------------------------------------------------

  predicate SortedByX(t: seq<Point2f>)
  {
    forall i, j :: 0 <= i < j < |t| ==> t[i].x <= t[j].x
  }

  /** Inserting after every point whose x is not greater keeps equal keys in their order. */
  function InsertByX(t: seq<Point2f>, p: Point2f): (r: seq<Point2f>)
    requires SortedByX(t)
    ensures |r| == |t| + 1
    ensures SortedByX(r)
    ensures forall k :: 0 <= k < |r| ==> r[k] == p || r[k] in t
  {
    if t == [] || t[|t| - 1].x <= p.x then t + [p]
    else
      var init := t[..|t| - 1];
      var r := InsertByX(init, p);
      assert forall k :: 0 <= k < |r| ==> r[k].x <= t[|t| - 1].x;
      r + [t[|t| - 1]]
  }

  /**
   * `sort_by` on x (lines 247-255), a stable sort: the comparator calls
   * points with equal x equal, so they keep their order.
   */
  function SortByX(s: seq<Point2f>): (t: seq<Point2f>)
    ensures |t| == |s|
    ensures SortedByX(t)
  {
    if s == [] then [] else InsertByX(SortByX(s[..|s| - 1]), s[|s| - 1])
  }

  lemma {:induction false} InsertByXPermutes(t: seq<Point2f>, p: Point2f)
    requires SortedByX(t)
    ensures multiset(InsertByX(t, p)) == multiset(t) + multiset{p}
  {
    if !(t == [] || t[|t| - 1].x <= p.x) {
      var init := t[..|t| - 1];
      assert t == init + [t[|t| - 1]];
      InsertByXPermutes(init, p);
    }
  }

  /** The sort only reorders the points. */
  lemma {:induction false} SortByXPermutes(s: seq<Point2f>)
    ensures multiset(SortByX(s)) == multiset(s)
  {
    if s != [] {
      SortByXPermutes(s[..|s| - 1]);
      InsertByXPermutes(SortByX(s[..|s| - 1]), s[|s| - 1]);
      assert s == s[..|s| - 1] + [s[|s| - 1]];
    }
  }

  /** The four ordered corners and `min_edge_size`. */
  datatype MiniBox = MiniBox(points: seq<Point2f>, minEdgeSize: real)

  /** One of the pairs of lines 260-276: its two points, the one with the smaller y first. */
  function OrderPair(p: seq<Point2f>): (r: seq<Point2f>)
    requires |p| == 2
    ensures |r| == 2
    ensures (r[0] == p[0] && r[1] == p[1]) || (r[0] == p[1] && r[1] == p[0])
    ensures r[0].y <= r[1].y
  {
    if p[1].y > p[0].y then p else [p[1], p[0]]
  }

  lemma PairPermutes(p: seq<Point2f>, r: seq<Point2f>)
    requires |p| == 2 && |r| == 2
    requires (r[0] == p[0] && r[1] == p[1]) || (r[0] == p[1] && r[1] == p[0])
    ensures multiset(r) == multiset(p)
  {
    assert p == [p[0]] + [p[1]];
    assert r == [r[0]] + [r[1]];
  }

  lemma FramedPermutes(t: seq<Point2f>, left: seq<Point2f>, right: seq<Point2f>)
    requires |t| == 4 && |left| == 2 && |right| == 2
    requires multiset(left) == multiset(t[..2]) && multiset(right) == multiset(t[2..])
    ensures multiset([left[0]] + right + [left[1]]) == multiset(t)
  {
    assert t == t[..2] + t[2..];
    assert left == [left[0]] + [left[1]];
  }

  /**
   * Lines 257-281 on the sorted corners: the left pair goes to slots 0 and 3
   * and the right pair to slots 1 and 2, each pair with the smaller y first
   * (on equal y the second of the pair comes first).
   */
  function OrderCorners(t: seq<Point2f>): (r: seq<Point2f>)
    requires |t| == 4
    ensures |r| == 4
    ensures (r[0] == t[0] && r[3] == t[1]) || (r[0] == t[1] && r[3] == t[0])
    ensures (r[1] == t[2] && r[2] == t[3]) || (r[1] == t[3] && r[2] == t[2])
    ensures r[0].y <= r[3].y && r[1].y <= r[2].y
  {
    var left := OrderPair(t[..2]);
    var right := OrderPair(t[2..]);
    [left[0]] + right + [left[1]]
  }

  /**
   * `get_mini_box` (lines 235-284): the fitted rectangle's corners, sorted
   * by x and then ordered by `OrderCorners`.
   */
  function GetMiniBox(contour: seq<Point2f>, cv: Cv): (b: MiniBox)
    ensures |b.points| == 4
    ensures b.points[0].x <= b.points[1].x && b.points[0].x <= b.points[2].x
    ensures b.points[3].x <= b.points[1].x && b.points[3].x <= b.points[2].x
    ensures b.points[0].y <= b.points[3].y && b.points[1].y <= b.points[2].y
    ensures b.minEdgeSize == MinReal(cv.minAreaRect(contour).width, cv.minAreaRect(contour).height)
  {
    var rrect := cv.minAreaRect(contour);
    var thePoints := SortByX(rrect.corners);
    assert thePoints[0].x <= thePoints[2].x && thePoints[0].x <= thePoints[3].x;
    assert thePoints[1].x <= thePoints[2].x && thePoints[1].x <= thePoints[3].x;
    MiniBox(OrderCorners(thePoints), MinReal(rrect.width, rrect.height))
  }

  /** The ordered corners are a permutation of the fitted rectangle's corners. */
  lemma MiniBoxPermutesCorners(contour: seq<Point2f>, cv: Cv)
    ensures multiset(GetMiniBox(contour, cv).points) == multiset(cv.minAreaRect(contour).corners)
  {
    var thePoints := SortByX(cv.minAreaRect(contour).corners);
    SortByXPermutes(cv.minAreaRect(contour).corners);
    var left := OrderPair(thePoints[..2]);
    var right := OrderPair(thePoints[2..]);
    PairPermutes(thePoints[..2], left);
    PairPermutes(thePoints[2..], right);
    FramedPermutes(thePoints, left, right);
    assert OrderCorners(thePoints) == [left[0]] + right + [left[1]];
  }

  // ---------------------------------------------------------------------
  // get_score
  // ---------------------------------------------------------------------

  datatype Axis = X | Y

  function Coord(p: Point, a: Axis): int
  {
    match a
    case X => p.x
    case Y => p.y
  }

  /** The running minimum of lines 298-306, started at `i32::MAX`. */
  function Lowest(c: seq<Point>, a: Axis): (m: int)
    ensures m <= I32_MAX
    ensures forall k :: 0 <= k < |c| ==> m <= Coord(c[k], a)
  {
    if c == [] then I32_MAX else Min(Lowest(c[..|c| - 1], a), Coord(c[|c| - 1], a))
  }

  /** The running maximum of lines 301-309, started at `i32::MIN`. */
  function Highest(c: seq<Point>, a: Axis): (m: int)
    ensures m >= I32_MIN
    ensures forall k :: 0 <= k < |c| ==> Coord(c[k], a) <= m
  {
    if c == [] then I32_MIN else Max(Highest(c[..|c| - 1], a), Coord(c[|c| - 1], a))
  }

  predicate InI32(c: seq<Point>, a: Axis)
  {
    forall k :: 0 <= k < |c| ==> I32_MIN <= Coord(c[k], a) <= I32_MAX
  }

  /** For `i32` coordinates the running minimum of a non-empty contour is one of them. */
  lemma {:induction false} LowestAttained(c: seq<Point>, a: Axis) returns (k: nat)
    requires |c| > 0 && InI32(c, a)
    ensures k < |c| && Coord(c[k], a) == Lowest(c, a)
  {
    if |c| == 1 {
      k := 0;
    } else if Coord(c[|c| - 1], a) <= Lowest(c[..|c| - 1], a) {
      k := |c| - 1;
    } else {
      k := LowestAttained(c[..|c| - 1], a);
    }
  }

  /** For `i32` coordinates the running maximum of a non-empty contour is one of them. */
  lemma {:induction false} HighestAttained(c: seq<Point>, a: Axis) returns (k: nat)
    requires |c| > 0 && InI32(c, a)
    ensures k < |c| && Coord(c[k], a) == Highest(c, a)
  {
    if |c| == 1 {
      k := 0;
    } else if Coord(c[|c| - 1], a) >= Highest(c[..|c| - 1], a) {
      k := |c| - 1;
    } else {
      k := HighestAttained(c[..|c| - 1], a);
    }
  }

  lemma ExtremesStep(c: seq<Point>, i: nat)
    requires i < |c|
    ensures Lowest(c[..i + 1], X) == Min(Lowest(c[..i], X), c[i].x)
    ensures Highest(c[..i + 1], X) == Max(Highest(c[..i], X), c[i].x)
    ensures Lowest(c[..i + 1], Y) == Min(Lowest(c[..i], Y), c[i].y)
    ensures Highest(c[..i + 1], Y) == Max(Highest(c[..i], Y), c[i].y)
  {
    assert c[..i + 1][..i] == c[..i];
  }

  /** Lines 315-318: the bounds, clamped into the map. */
  datatype Bounds = Bounds(xmin: int, xmax: int, ymin: int, ymax: int)

  function ClampedBounds(contour: seq<Point>, width: int, height: int): Bounds
  {
    Bounds(
      Clamp(Lowest(contour, X), 0, width - 1),
      Clamp(Highest(contour, X), 0, width - 1),
      Clamp(Lowest(contour, Y), 0, height - 1),
      Clamp(Highest(contour, Y), 0, height - 1))
  }

  /** The region of interest and the shifted contour that `get_score` hands to the mask and the mean. */
  function ScoreRoi(contour: seq<Point>, fMap: Heatmap): Rect
  {
    var b := ClampedBounds(contour, fMap.cols, fMap.rows);
    Rect(b.xmin, b.ymin, b.xmax - b.xmin + 1, b.ymax - b.ymin + 1)
  }

  /** The value of `get_score`: 0 for an empty region, else the mean of the map under the filled contour. */
  function ScoreOf(contour: seq<Point>, fMap: Heatmap, cv: Cv): real
  {
    var roi := ScoreRoi(contour, fMap);
    if roi.width <= 0 || roi.height <= 0 then 0.0
    else cv.maskedMean(fMap, roi, Shifted(contour, roi.x, roi.y))
  }

  /** `get_score` (lines 286-357). */
  method GetScore(contour: seq<Point>, fMapMat: Heatmap, cv: Cv) returns (score: real)
    ensures score == ScoreOf(contour, fMapMat, cv)
  {
    var xmin, xmax, ymin, ymax := Extremes(contour);
    var width := fMapMat.cols;
    var height := fMapMat.rows;
    xmin := Clamp(xmin, 0, width - 1);
    xmax := Clamp(xmax, 0, width - 1);
    ymin := Clamp(ymin, 0, height - 1);
    ymax := Clamp(ymax, 0, height - 1);
    var roiWidth := xmax - xmin + 1;
    var roiHeight := ymax - ymin + 1;
    if roiWidth <= 0 || roiHeight <= 0 {
      return 0.0;
    }
    var pts := TranslatePoints(contour, xmin, ymin);
    var roi := Rect(xmin, ymin, roiWidth, roiHeight);
    score := cv.maskedMean(fMapMat, roi, pts);
  }

  /** Lines 288-310: one pass over the contour keeps the smallest and largest coordinates. */
  method Extremes(contour: seq<Point>) returns (xmin: int, xmax: int, ymin: int, ymax: int)
    ensures xmin == Lowest(contour, X) && xmax == Highest(contour, X)
    ensures ymin == Lowest(contour, Y) && ymax == Highest(contour, Y)
  {
    xmin, xmax, ymin, ymax := I32_MAX, I32_MIN, I32_MAX, I32_MIN;
    for i := 0 to |contour|
      invariant xmin == Lowest(contour[..i], X) && xmax == Highest(contour[..i], X)
      invariant ymin == Lowest(contour[..i], Y) && ymax == Highest(contour[..i], Y)
    {
      ExtremesStep(contour, i);
      var x := contour[i].x;
      var y := contour[i].y;
      if x < xmin {
        xmin := x;
      }
      if x > xmax {
        xmax := x;
      }
      if y < ymin {
        ymin := y;
      }
      if y > ymax {
        ymax := y;
      }
    }
    assert contour[..|contour|] == contour;
  }

  /** Lines 334-337: the loop that shifts every contour point into the region. */
  method TranslatePoints(contour: seq<Point>, dx: int, dy: int) returns (pts: seq<Point>)
    ensures pts == Shifted(contour, dx, dy)
  {
    pts := [];
    for i := 0 to |contour|
      invariant |pts| == i
      invariant forall k :: 0 <= k < i ==> pts[k] == Point(contour[k].x - dx, contour[k].y - dy)
    {
      pts := pts + [Point(contour[i].x - dx, contour[i].y - dy)];
    }
  }

  /**
   * For a non-empty contour on a non-empty map, the region lies inside the
   * map and is at least one pixel wide and high.
   */
  lemma RoiInsideMap(contour: seq<Point>, fMap: Heatmap)
    requires |contour| > 0 && fMap.cols >= 1 && fMap.rows >= 1
    ensures var roi := ScoreRoi(contour, fMap);
            0 <= roi.x && 0 <= roi.y && roi.width >= 1 && roi.height >= 1 &&
            roi.x + roi.width <= fMap.cols && roi.y + roi.height <= fMap.rows
  {
    assert Lowest(contour, X) <= Coord(contour[0], X) <= Highest(contour, X);
    assert Lowest(contour, Y) <= Coord(contour[0], Y) <= Highest(contour, Y);
    ClampMonotone(Lowest(contour, X), Highest(contour, X), 0, fMap.cols - 1);
    ClampMonotone(Lowest(contour, Y), Highest(contour, Y), 0, fMap.rows - 1);
  }

  /**
   * A non-empty contour inside the map gets its tight bounding box, and the
   * shifted contour lies inside that box with a point on its left and top edges.
   */
  lemma RoiIsTightBox(contour: seq<Point>, fMap: Heatmap)
    requires |contour| > 0 && fMap.cols <= I32_MAX && fMap.rows <= I32_MAX
    requires forall k :: 0 <= k < |contour| ==> 0 <= contour[k].x < fMap.cols && 0 <= contour[k].y < fMap.rows
    ensures var roi := ScoreRoi(contour, fMap);
            var pts := Shifted(contour, roi.x, roi.y);
            roi.x == Lowest(contour, X) && roi.y == Lowest(contour, Y) &&
            roi.x + roi.width - 1 == Highest(contour, X) && roi.y + roi.height - 1 == Highest(contour, Y) &&
            (forall k :: 0 <= k < |pts| ==> 0 <= pts[k].x < roi.width && 0 <= pts[k].y < roi.height) &&
            (exists k :: 0 <= k < |pts| && pts[k].x == 0) &&
            (exists k :: 0 <= k < |pts| && pts[k].y == 0)
  {
    assert forall k :: 0 <= k < |contour| ==> Coord(contour[k], X) == contour[k].x && Coord(contour[k], Y) == contour[k].y;
    var lx, hx, ly, hy := Lowest(contour, X), Highest(contour, X), Lowest(contour, Y), Highest(contour, Y);
    var kx := LowestAttained(contour, X);
    var ky := LowestAttained(contour, Y);
    var jx := HighestAttained(contour, X);
    var jy := HighestAttained(contour, Y);
    assert 0 <= lx && hx < fMap.cols && 0 <= ly && hy < fMap.rows;
    var roi := ScoreRoi(contour, fMap);
    var pts := Shifted(contour, roi.x, roi.y);
    assert pts[kx].x == 0 && pts[ky].y == 0;
  }

  // ---------------------------------------------------------------------
  // unclip
  // ---------------------------------------------------------------------

  /**
   * Line 381: `|area| * ratio / perimeter`. A zero perimeter gives an
   * infinity or NaN, which is no finite distance (`None`).
   */
  function UnclipDistance(boxPoints: seq<Point2f>, unclipRatio: real, sqrt: real -> real): (d: Option<real>)
    requires |boxPoints| > 0
    ensures d.None? <==> Perimeter(boxPoints, sqrt) == 0.0
    ensures d.Some? ==> d.value * Perimeter(boxPoints, sqrt) == AbsReal(SignedArea(boxPoints)) * unclipRatio
  {
    var area := AbsReal(SignedArea(boxPoints));
    var length := Perimeter(boxPoints, sqrt);
    if length == 0.0 then None else Some(area * unclipRatio / length)
  }

  /** Lines 398-400: the ring's points cast to `i32`. */
  function CastRing(ring: seq<Point2f>): (r: seq<Point>)
    ensures |r| == |ring|
    ensures forall k :: 0 <= k < |ring| ==> r[k] == Point(CastI32(ring[k].x), CastI32(ring[k].y))
  {
    seq(|ring|, k requires 0 <= k < |ring| => Point(CastI32(ring[k].x), CastI32(ring[k].y)))
  }

  /**
   * `unclip` (lines 359-403). The empty slice is excluded: `min_area_rect`
   * of no points is not modelled and `signed_polygon_area` would panic.
   */
  function Unclip(boxPoints: seq<Point2f>, unclipRatio: real, cv: Cv): (r: seq<Point>)
    requires |boxPoints| > 0
    ensures cv.minAreaRect(boxPoints).height < 1.001 && cv.minAreaRect(boxPoints).width < 1.001 ==> r == []
    ensures !(cv.minAreaRect(boxPoints).height < 1.001 && cv.minAreaRect(boxPoints).width < 1.001) ==>
              var solution := cv.offset(boxPoints, UnclipDistance(boxPoints, unclipRatio, cv.sqrt));
              (|solution| == 0 ==> r == []) &&
              (|solution| > 0 ==> r == CastRing(solution[0]))
  {
    var clipRect := cv.minAreaRect(boxPoints);
    if clipRect.height < 1.001 && clipRect.width < 1.001 then []
    else
      var distance := UnclipDistance(boxPoints, unclipRatio, cv.sqrt);
      var solution := cv.offset(boxPoints, distance);
      if |solution| == 0 then [] else CastRing(solution[0])
  }

  /** The corners of a `w` x `h` axis-aligned rectangle, counter-clockwise in image coordinates. */
  function RectCorners(w: real, h: real): seq<Point2f>
  {
    [Point2f(0.0, 0.0), Point2f(w, 0.0), Point2f(w, h), Point2f(0.0, h)]
  }

  /**
   * For a `w` x `h` rectangle (and a square root exact on its sides) the
   * distance `d` satisfies `d * 2*(w+h) == w*h*ratio`.
   */
  lemma RectangleUnclipDistance(w: real, h: real, unclipRatio: real, sqrt: real -> real)
    requires w > 0.0 && h > 0.0
    requires sqrt(w * w) == w && sqrt(h * h) == h
    ensures SignedArea(RectCorners(w, h)) == -(w * h)
    ensures Perimeter(RectCorners(w, h), sqrt) == 2.0 * (w + h)
    ensures var d := UnclipDistance(RectCorners(w, h), unclipRatio, sqrt);
            d.Some? && d.value * (2.0 * (w + h)) == w * h * unclipRatio
  {
    var a, b, c, d := Point2f(0.0, 0.0), Point2f(w, 0.0), Point2f(w, h), Point2f(0.0, h);
    var q := Closed(RectCorners(w, h));
    assert q == [a, b, c, d, a];
    var len := Length(sqrt);
    assert EdgeValue(len, a, b) == sqrt(w * w) by {
      assert Sq(w - 0.0) + Sq(0.0 - 0.0) == w * w;
    }
    assert EdgeValue(len, b, c) == sqrt(h * h) by {
      assert Sq(w - w) + Sq(h - 0.0) == h * h;
    }
    assert EdgeValue(len, c, d) == sqrt(w * w) by {
      assert Sq(0.0 - w) + Sq(h - h) == w * w;
    }
    assert EdgeValue(len, d, a) == sqrt(h * h) by {
      assert Sq(0.0 - 0.0) + Sq(0.0 - h) == h * h;
    }
    assert EdgeSum(q, 1, len) == w;
    assert EdgeSum(q, 2, len) == w + h;
    assert EdgeSum(q, 3, len) == w + h + w;
    assert EdgeSum(q, 4, len) == 2.0 * (w + h);
    assert EdgeValue(Area, a, b) == 0.0 && EdgeValue(Area, b, c) == 0.0 && EdgeValue(Area, d, a) == 0.0;
    assert EdgeValue(Area, c, d) == -(w * h);
    assert EdgeSum(q, 1, Area) == 0.0;
    assert EdgeSum(q, 2, Area) == 0.0;
    assert EdgeSum(q, 3, Area) == -(w * h);
    assert EdgeSum(q, 4, Area) == -(w * h);
    assert w * h > 0.0;
    assert AbsReal(-(w * h)) == w * h;
    var p := RectCorners(w, h);
    assert SignedArea(p) == -(w * h) && Perimeter(p, sqrt) == 2.0 * (w + h);

  }

  // ---------------------------------------------------------------------
  // get_text_boxes_core
  // ---------------------------------------------------------------------

  /** Lines 214-218: a detector-map coordinate mapped to the source image and clamped into it. */
  function ToSource(p: Point2f, s: ScaleParam): (q: Point)
    ensures 0 <= q.x <= s.srcWidth && 0 <= q.y <= s.srcHeight
    ensures s.scaleWidth != 0.0 && 0 <= CastI32(p.x / s.scaleWidth) <= s.srcWidth ==> q.x == CastI32(p.x / s.scaleWidth)
    ensures s.scaleHeight != 0.0 && 0 <= CastI32(p.y / s.scaleHeight) <= s.srcHeight ==> q.y == CastI32(p.y / s.scaleHeight)
    ensures DivToI32(p.x, s.scaleWidth) < 0 ==> q.x == 0
    ensures DivToI32(p.x, s.scaleWidth) > s.srcWidth ==> q.x == s.srcWidth
    ensures DivToI32(p.y, s.scaleHeight) < 0 ==> q.y == 0
    ensures DivToI32(p.y, s.scaleHeight) > s.srcHeight ==> q.y == s.srcHeight
  {
    Point(Clamp(DivToI32(p.x, s.scaleWidth), 0, s.srcWidth), Clamp(DivToI32(p.y, s.scaleHeight), 0, s.srcHeight))
  }

  function MapToSource(ps: seq<Point2f>, s: ScaleParam): (r: seq<Point>)
    ensures |r| == |ps|
    ensures forall k :: 0 <= k < |ps| ==> r[k] == ToSource(ps[k], s)
  {
    seq(|ps|, k requires 0 <= k < |ps| => ToSource(ps[k], s))
  }

  predicate InSource(p: Point, s: ScaleParam)
  {
    0 <= p.x <= s.srcWidth && 0 <= p.y <= s.srcHeight
  }

  /** An emitted box: four corners inside the source image and a score of at least the threshold. */
  predicate GoodBox(b: TextBox, s: ScaleParam, boxScoreThresh: real)
  {
    |b.points| == 4 && b.score >= boxScoreThresh && forall k :: 0 <= k < 4 ==> InSource(b.points[k], s)
  }

  /** The body of the loop of lines 179-229 for one contour: its box, or `None` when a gate skips it. */
  function ContourBox(contour: seq<Point>, predMat: Heatmap, s: ScaleParam, boxScoreThresh: real,
                      unclipRatio: real, cv: Cv): (r: Option<TextBox>)
    ensures r.Some? ==> |contour| > 2
    ensures r.Some? ==> GoodBox(r.value, s, boxScoreThresh)
  {
    if |contour| <= 2 then None
    else
      var minBox := GetMiniBox(ToPoint2f(contour), cv);
      if minBox.minEdgeSize < MAX_SIDE_THRESH then None
      else
        var score := ScoreOf(contour, predMat, cv);
        if score < boxScoreThresh then None
        else
          var clipBox := Unclip(minBox.points, unclipRatio, cv);
          if |clipBox| == 0 then None
          else
            var clipMinBox := GetMiniBox(ToPoint2f(clipBox), cv);
            if clipMinBox.minEdgeSize < MAX_SIDE_THRESH + 2.0 then None
            else Some(TextBox(MapToSource(clipMinBox.points, s), score))
  }

  /** The loop body with the map, the scales and the thresholds fixed. */
  function BoxOf(predMat: Heatmap, s: ScaleParam, boxScoreThresh: real, unclipRatio: real, cv: Cv)
    : seq<Point> -> Option<TextBox>
  {
    c => ContourBox(c, predMat, s, boxScoreThresh, unclipRatio, cv)
  }

  /** What the loop body `box` makes of each contour, in contour order. */
  function ContourBoxes(contours: seq<seq<Point>>, box: seq<Point> -> Option<TextBox>): (rs: seq<Option<TextBox>>)
    ensures |rs| == |contours|
    ensures forall k :: 0 <= k < |contours| ==> rs[k] == box(contours[k])
  {
    seq(|contours|, k requires 0 <= k < |contours| => box(contours[k]))
  }

  /**
   * What the contour loop and the final `reverse` (lines 179-231) return for
   * a loop body `box`: the boxes of the contours that pass, last contour first.
   */
  function KeptBoxes(contours: seq<seq<Point>>, box: seq<Point> -> Option<TextBox>): (bs: seq<TextBox>)
    ensures var kept := Somes(ContourBoxes(contours, box));
            |bs| == |kept| <= |contours| && forall k :: 0 <= k < |bs| ==> bs[k] == kept[|kept| - 1 - k]
  {
    SomesReversed(ContourBoxes(contours, box))
  }

  /** The value of `get_text_boxes_core` on the extracted map. */
  function TextBoxesOf(predMat: Heatmap, s: ScaleParam, boxScoreThresh: real, boxThresh: real,
                       unclipRatio: real, cv: Cv): seq<TextBox>
  {
    KeptBoxes(cv.findContours(predMat, boxThresh), BoxOf(predMat, s, boxScoreThresh, unclipRatio, cv))
  }

  /**
   * The body of the contour loop (lines 180-228): each gate that skips the
   * contour (`continue`) gives `None`, a contour that passes them all its box.
   */
  method ContourToBox(contour: seq<Point>, predMat: Heatmap, s: ScaleParam, boxScoreThresh: real,
                      unclipRatio: real, cv: Cv) returns (box: Option<TextBox>)
    ensures box == ContourBox(contour, predMat, s, boxScoreThresh, unclipRatio, cv)
    ensures box == BoxOf(predMat, s, boxScoreThresh, unclipRatio, cv)(contour)
  {
    if |contour| <= 2 {
      return None;
    }
    var minBox := GetMiniBox(ToPoint2f(contour), cv);
    if minBox.minEdgeSize < MAX_SIDE_THRESH {
      return None;
    }
    var score := GetScore(contour, predMat, cv);
    if score < boxScoreThresh {
      return None;
    }
    var clipBox := Unclip(minBox.points, unclipRatio, cv);
    if |clipBox| == 0 {
      return None;
    }
    var clipMinBox := GetMiniBox(ToPoint2f(clipBox), cv);
    if clipMinBox.minEdgeSize < MAX_SIDE_THRESH + 2.0 {
      return None;
    }
    var finalPoints := PointsToSource(clipMinBox.points, s);
    return Some(TextBox(finalPoints, score));
  }

  /** Lines 212-221: each corner mapped to the source image and clamped, in order. */
  method PointsToSource(clipMinBox: seq<Point2f>, s: ScaleParam) returns (finalPoints: seq<Point>)
    ensures finalPoints == MapToSource(clipMinBox, s)
  {
    finalPoints := [];
    for j := 0 to |clipMinBox|
      invariant |finalPoints| == j
      invariant forall k :: 0 <= k < j ==> finalPoints[k] == ToSource(clipMinBox[k], s)
    {
      var item := clipMinBox[j];
      var x := DivToI32(item.x, s.scaleWidth);
      var ptx := Min(Max(x, 0), s.srcWidth);
      var y := DivToI32(item.y, s.scaleHeight);
      var pty := Min(Max(y, 0), s.srcHeight);
      finalPoints := finalPoints + [Point(ptx, pty)];
    }
  }

  /**
   * `get_text_boxes_core` (lines 102-233). `predData` is the extracted
   * output tensor, or the extraction error; the map is `rows` x `cols`.
   */
  method GetTextBoxesCore(predData: Result<seq<real>>, rows: int, cols: int, s: ScaleParam,
                          boxScoreThresh: real, boxThresh: real, unclipRatio: real, cv: Cv)
    returns (r: Result<seq<TextBox>>)
    ensures predData.Err? ==> r == Err(predData.error)
    ensures predData.Ok? ==>
              r == Ok(TextBoxesOf(Heatmap(rows, cols, predData.value), s, boxScoreThresh, boxThresh, unclipRatio, cv))
  {
    if predData.Err? {
      return Err(predData.error);
    }
    var predMat := Heatmap(rows, cols, predData.value);
    var contours := cv.findContours(predMat, boxThresh);
    ghost var results := ContourBoxes(contours, BoxOf(predMat, s, boxScoreThresh, unclipRatio, cv));
    var rsBoxes: seq<TextBox> := [];
    for i := 0 to |contours|
      invariant rsBoxes == Somes(results[..i])
    {
      var box := ContourToBox(contours[i], predMat, s, boxScoreThresh, unclipRatio, cv);
      SomesStep(results, i);
      if box.Some? {
        rsBoxes := rsBoxes + [box.value];
      }
    }
    assert results[..|contours|] == results;
    return Ok(Reverse(rsBoxes));
  }

  /** A contour passes every gate exactly when it yields a box. */
  lemma ContourBoxGates(contour: seq<Point>, predMat: Heatmap, s: ScaleParam, boxScoreThresh: real,
                        unclipRatio: real, cv: Cv)
    requires |contour| > 2
    ensures var minBox := GetMiniBox(ToPoint2f(contour), cv);
            var clip := Unclip(minBox.points, unclipRatio, cv);
            ContourBox(contour, predMat, s, boxScoreThresh, unclipRatio, cv).Some? <==>
              minBox.minEdgeSize >= MAX_SIDE_THRESH &&
              ScoreOf(contour, predMat, cv) >= boxScoreThresh &&
              |clip| > 0 &&
              GetMiniBox(ToPoint2f(clip), cv).minEdgeSize >= MAX_SIDE_THRESH + 2.0
  {
  }

  /** Every box `get_text_boxes_core` returns has four corners inside the source image and a passing score. */
  lemma TextBoxesAreGood(predMat: Heatmap, s: ScaleParam, boxScoreThresh: real, boxThresh: real, unclipRatio: real, cv: Cv)
    ensures var bs := TextBoxesOf(predMat, s, boxScoreThresh, boxThresh, unclipRatio, cv);
            forall k :: 0 <= k < |bs| ==> GoodBox(bs[k], s, boxScoreThresh)
  {
    var contours := cv.findContours(predMat, boxThresh);
    var results := ContourBoxes(contours, BoxOf(predMat, s, boxScoreThresh, unclipRatio, cv));
    var kept := Somes(results);
    var bs := TextBoxesOf(predMat, s, boxScoreThresh, boxThresh, unclipRatio, cv);
    forall k | 0 <= k < |bs|
      ensures GoodBox(bs[k], s, boxScoreThresh)
    {
      var v := bs[k];
      assert v == kept[|kept| - 1 - k];
      assert Some(v) in results;
      var j :| 0 <= j < |results| && results[j] == Some(v);
      assert ContourBox(contours[j], predMat, s, boxScoreThresh, unclipRatio, cv) == Some(v);
    }
  }

  /** The box of every contour that passes is returned. */
  lemma KeptBoxesKeepPassing(contours: seq<seq<Point>>, box: seq<Point> -> Option<TextBox>, j: nat)
    requires j < |contours| && box(contours[j]).Some?
    ensures box(contours[j]).value in KeptBoxes(contours, box)
  {
    var rs := ContourBoxes(contours, box);
    assert rs[j] == box(contours[j]);
    SomesReversedAt(rs, j);
  }

  /** Of two contours that pass, the later one's box comes first. */
  lemma KeptBoxesInReverseOrder(contours: seq<seq<Point>>, box: seq<Point> -> Option<TextBox>, i: nat, j: nat)
    requires i < j < |contours| && box(contours[i]).Some? && box(contours[j]).Some?
    ensures var bs := KeptBoxes(contours, box);
            exists p, q :: 0 <= q < p < |bs| && bs[p] == box(contours[i]).value && bs[q] == box(contours[j]).value
  {
    var rs := ContourBoxes(contours, box);
    assert rs[i] == box(contours[i]) && rs[j] == box(contours[j]);
    SomesReversedOrder(rs, i, j);
    var r := SomesReversed(rs);
    var p, q :| 0 <= q < p < |r| && r[p] == rs[i].value && r[q] == rs[j].value;
    assert KeptBoxes(contours, box) == r;
  }

  /** When every contour yields a box, the output is all of them, last contour first. */
  lemma AllKept(contours: seq<seq<Point>>, box: seq<Point> -> Option<TextBox>)
    requires forall k :: 0 <= k < |contours| ==> box(contours[k]).Some?
    ensures var bs := KeptBoxes(contours, box);
            |bs| == |contours| &&
            forall k :: 0 <= k < |bs| ==> Some(bs[k]) == box(contours[|contours| - 1 - k])
  {
    var results := ContourBoxes(contours, box);
    SomesReversedAll(results);
    assert KeptBoxes(contours, box) == SomesReversed(results);
  }

  /**
   * With positive scales the mapping to the source is monotone, so an
   * emitted box keeps `get_mini_box`'s left pair (slots 0 and 3) at x no
   * greater than its right pair (slots 1 and 2).
   */
  lemma BoxKeepsCornerOrder(contour: seq<Point>, predMat: Heatmap, s: ScaleParam, boxScoreThresh: real,
                            unclipRatio: real, cv: Cv)
    requires s.scaleWidth > 0.0
    requires ContourBox(contour, predMat, s, boxScoreThresh, unclipRatio, cv).Some?
    ensures var ps := ContourBox(contour, predMat, s, boxScoreThresh, unclipRatio, cv).value.points;
            ps[0].x <= ps[1].x && ps[0].x <= ps[2].x && ps[3].x <= ps[1].x && ps[3].x <= ps[2].x
  {
    var minBox := GetMiniBox(ToPoint2f(contour), cv);
    var clip := Unclip(minBox.points, unclipRatio, cv);
    var q := GetMiniBox(ToPoint2f(clip), cv).points;
    forall a, b | a in {0, 3} && b in {1, 2}
      ensures ToSource(q[a], s).x <= ToSource(q[b], s).x
    {
      DivToI32Monotone(q[a].x, q[b].x, s.scaleWidth);
      ClampMonotone(DivToI32(q[a].x, s.scaleWidth), DivToI32(q[b].x, s.scaleWidth), 0, s.srcWidth);
    }
  }
}
