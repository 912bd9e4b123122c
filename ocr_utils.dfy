/**
 * Image and tensor layout helpers (src/ocr_utils.rs): the interleaved-to-planar
 * normalisation that builds every network input, the padding border, the
 * line thickness, and the perspective crop of each detected box.
 */
module OcrUtils {
  import opened Common
  import opened Vision
  import opened OcrResults

  // ---------------------------------------------------------------------
  // substract_mean_normalize
  // ---------------------------------------------------------------------

  /** Line 30: the position of sample `(r, c, ch)` in the interleaved row-major buffer. */
  function SampleIndex(r: nat, c: nat, ch: nat, cols: nat, channels: nat): nat
  {
    r * cols * channels + c * channels + ch
  }

  /** The buffer holds a sample for every pixel and channel (the raw read at line 31 is unchecked). */
  predicate Dense(m: Mat)
  {
    m.rows * m.cols * m.channels <= |m.data|
  }

  /** Every sample the triple loop reads lies inside the buffer. */
  lemma SampleIndexInRange(r: nat, c: nat, ch: nat, rows: nat, cols: nat, channels: nat)
    requires r < rows && c < cols && ch < channels
    ensures SampleIndex(r, c, ch, cols, channels) < rows * cols * channels
  {
    calc {
      SampleIndex(r, c, ch, cols, channels);
      (r * cols + c) * channels + ch;
    <  (r * cols + c) * channels + channels;
      (r * cols + c + 1) * channels;
    <= { MulMonotone(r * cols + c + 1, (r + 1) * cols, channels); }
      (r + 1) * cols * channels;
    <= { MulMonotone(r + 1, rows, cols); MulMonotone((r + 1) * cols, rows * cols, channels); }
      rows * cols * channels;
    }
  }

  /** Division by `d` undoes `q * d + m` for a remainder `m` below `d`. */
  lemma DivModOf(q: nat, m: nat, d: nat)
    requires m < d
    ensures (q * d + m) / d == q && (q * d + m) % d == m
  {
    var x := q * d + m;
    var q', m' := x / d, x % d;
    assert x == q' * d + m';
    if q' < q {
      MulMonotone(q' + 1, q, d);
      assert false;
    } else if q' > q {
      MulMonotone(q + 1, q', d);
      assert false;
    }
  }

  /**
   * Distinct cells of the tensor read distinct samples: the index decodes back
   * to its row, column and channel, so each sample is read exactly once.
   */
  lemma SampleIndexDecodes(r: nat, c: nat, ch: nat, cols: nat, channels: nat)
    requires c < cols && ch < channels
    ensures var i := SampleIndex(r, c, ch, cols, channels);
            i % channels == ch && (i / channels) % cols == c && i / channels / cols == r
  {
    assert SampleIndex(r, c, ch, cols, channels) == (r * cols + c) * channels + ch;
    DivModOf(r * cols + c, ch, channels);
    DivModOf(r, c, cols);
  }

  lemma SampleIndexInjective(r1: nat, c1: nat, ch1: nat, r2: nat, c2: nat, ch2: nat, cols: nat, channels: nat)
    requires c1 < cols && ch1 < channels && c2 < cols && ch2 < channels
    requires SampleIndex(r1, c1, ch1, cols, channels) == SampleIndex(r2, c2, ch2, cols, channels)
    ensures r1 == r2 && c1 == c2 && ch1 == ch2
  {
    SampleIndexDecodes(r1, c1, ch1, cols, channels);
    SampleIndexDecodes(r2, c2, ch2, cols, channels);
  }

  /** Line 31: the sample of channel `ch` at pixel `(r, c)`. */
  function Sample(src: Mat, r: nat, c: nat, ch: nat): int
    requires Dense(src) && r < src.rows && c < src.cols && ch < src.channels
  {
    SampleIndexInRange(r, c, ch, src.rows, src.cols, src.channels);
    src.data[SampleIndex(r, c, ch, src.cols, src.channels)]
  }

  /** Lines 30-33: cell `[ch, r, c]` of the tensor, `v * norm[ch] - mean[ch] * norm[ch]`. */
  function Normalized(src: Mat, meanVals: seq<real>, normVals: seq<real>, r: nat, c: nat, ch: nat): real
    requires Dense(src) && src.channels <= |meanVals| && src.channels <= |normVals|
    requires r < src.rows && c < src.cols && ch < src.channels
  {
    Sample(src, r, c, ch) as real * normVals[ch] - meanVals[ch] * normVals[ch]
  }

  /** The cells before `(r, c, ch)` in loop order hold their normalised sample. */
  ghost predicate Filled(t: array3<real>, src: Mat, meanVals: seq<real>, normVals: seq<real>, r: nat, c: nat, ch: nat)
    requires Dense(src) && src.channels <= |meanVals| && src.channels <= |normVals|
    requires t.Length0 == src.channels && t.Length1 == src.rows && t.Length2 == src.cols
    reads t
  {
    forall i, j, k :: 0 <= i < t.Length0 && 0 <= j < t.Length1 && 0 <= k < t.Length2 &&
                      (j < r || (j == r && (k < c || (k == c && i < ch)))) ==>
                        t[i, j, k] == Normalized(src, meanVals, normVals, j, k, i)
  }

  /**
   * `substract_mean_normalize` (lines 13-41): the planar `channels x rows x cols`
   * tensor whose cell `[ch, r, c]` is the normalised interleaved sample.
   */
  method SubstractMeanNormalize(src: Mat, meanVals: seq<real>, normVals: seq<real>) returns (t: array3<real>)
    requires Dense(src) && src.channels <= |meanVals| && src.channels <= |normVals|
    ensures fresh(t)
    ensures t.Length0 == src.channels && t.Length1 == src.rows && t.Length2 == src.cols
    ensures forall ch, r, c :: 0 <= ch < src.channels && 0 <= r < src.rows && 0 <= c < src.cols ==>
              t[ch, r, c] == Normalized(src, meanVals, normVals, r, c, ch)
  {
    t := new real[src.channels, src.rows, src.cols];
    for r := 0 to src.rows
      invariant Filled(t, src, meanVals, normVals, r, 0, 0)
    {
      for c := 0 to src.cols
        invariant Filled(t, src, meanVals, normVals, r, c, 0)
      {
        for ch := 0 to src.channels
          invariant Filled(t, src, meanVals, normVals, r, c, ch)
        {
          SampleIndexInRange(r, c, ch, src.rows, src.cols, src.channels);
          var value := src.data[SampleIndex(r, c, ch, src.cols, src.channels)];
          t[ch, r, c] := value as real * normVals[ch] - meanVals[ch] * normVals[ch];
        }
      }
    }
  }

  /** The classifier's and recogniser's `MEAN_VALUES` (src/angle_net.rs:8, src/crnn_net.rs:16). */
  const UNIT_MEAN_VALUES: seq<real> := [127.5, 127.5, 127.5]
  /** The classifier's and recogniser's `NORM_VALUES` (src/angle_net.rs:9, src/crnn_net.rs:17). */
  const UNIT_NORM_VALUES: seq<real> := [1.0 / 127.5, 1.0 / 127.5, 1.0 / 127.5]

  /** One byte sample under mean 127.5 and norm 1/127.5 lands in [-1, 1]. */
  lemma ByteNormalizesToUnitRange(v: int)
    requires 0 <= v <= 255
    ensures var n := v as real * (1.0 / 127.5) - 127.5 * (1.0 / 127.5);
            -1.0 <= n <= 1.0 && (v == 0 ==> n == -1.0) && (v == 255 ==> n == 1.0)
  {
  }

  /**
   * Every cell `substract_mean_normalize` writes for a byte image of at most
   * three channels, under the classifier's and recogniser's constants, lies in
   * [-1, 1]; a 0 sample becomes -1 and a 255 sample becomes 1.
   */
  lemma NormalizedBytesInUnitRange(src: Mat, r: nat, c: nat, ch: nat)
    requires Dense(src) && src.channels <= 3
    requires r < src.rows && c < src.cols && ch < src.channels
    requires forall i :: 0 <= i < |src.data| ==> 0 <= src.data[i] <= 255
    ensures var n := Normalized(src, UNIT_MEAN_VALUES, UNIT_NORM_VALUES, r, c, ch);
            -1.0 <= n <= 1.0 &&
            (Sample(src, r, c, ch) == 0 ==> n == -1.0) &&
            (Sample(src, r, c, ch) == 255 ==> n == 1.0)
  {
    SampleIndexInRange(r, c, ch, src.rows, src.cols, src.channels);
    var v := Sample(src, r, c, ch);
    assert UNIT_MEAN_VALUES[ch] == 127.5 && UNIT_NORM_VALUES[ch] == 1.0 / 127.5;
    ByteNormalizesToUnitRange(v);
  }


  // ---------------------------------------------------------------------
  // make_padding, get_thickness
  // ---------------------------------------------------------------------

  /** `make_padding` (lines 43-61): no border for a non-positive padding, else a white border on every side. */
  function MakePadding(src: Mat, padding: int, cv: Cv): (r: Mat)
    ensures padding <= 0 ==> r == src
    ensures padding > 0 ==> r == cv.copyMakeBorder(src, padding)
  {
    if padding <= 0 then src else cv.copyMakeBorder(src, padding)
  }

  /** `get_thickness` (lines 63-66): 2, plus 1 for every full 1000 pixels of the shorter side. */
  function GetThickness(boxImg: Mat): (t: int)
    ensures t >= 2
    ensures (t - 2) * 1000 <= Min(boxImg.cols, boxImg.rows) < (t - 1) * 1000
  {
    Quot(Min(boxImg.cols, boxImg.rows), 1000) + 2
  }

  // ---------------------------------------------------------------------
  // get_rotate_crop_image, get_part_images
  // ---------------------------------------------------------------------

  /** The x coordinates (line 107) or the y coordinates (line 108) of the points. */
  function Xs(ps: seq<Point>): (xs: seq<int>)
    ensures |xs| == |ps| && forall k :: 0 <= k < |ps| ==> xs[k] == ps[k].x
  {
    seq(|ps|, k requires 0 <= k < |ps| => ps[k].x)
  }

  function Ys(ps: seq<Point>): (ys: seq<int>)
    ensures |ys| == |ps| && forall k :: 0 <= k < |ps| ==> ys[k] == ps[k].y
  {
    seq(|ps|, k requires 0 <= k < |ps| => ps[k].y)
  }

  /** `iter().min().unwrap()`: the least element (the empty case panics). */
  function SeqMin(xs: seq<int>): (m: int)
    requires |xs| > 0
    ensures forall k :: 0 <= k < |xs| ==> m <= xs[k]
    ensures exists k :: 0 <= k < |xs| && xs[k] == m
  {
    if |xs| == 1 then xs[0]
    else
      var m := SeqMin(xs[..|xs| - 1]);
      assert forall k :: 0 <= k < |xs| - 1 ==> xs[..|xs| - 1][k] == xs[k];
      Min(m, xs[|xs| - 1])
  }

  /** `iter().max().unwrap()`: the greatest element. */
  function SeqMax(xs: seq<int>): (m: int)
    requires |xs| > 0
    ensures forall k :: 0 <= k < |xs| ==> xs[k] <= m
    ensures exists k :: 0 <= k < |xs| && xs[k] == m
  {
    if |xs| == 1 then xs[0]
    else
      var m := SeqMax(xs[..|xs| - 1]);
      assert forall k :: 0 <= k < |xs| - 1 ==> xs[..|xs| - 1][k] == xs[k];
      Max(m, xs[|xs| - 1])
  }

  /** Lines 109-115: the bounding rectangle `(left, top, right - left, bottom - top)`. */
  function CropRect(ps: seq<Point>): (r: Rect)
    requires |ps| > 0
    ensures r.width >= 0 && r.height >= 0
    ensures forall k :: 0 <= k < |ps| ==>
              r.x <= ps[k].x <= r.x + r.width && r.y <= ps[k].y <= r.y + r.height
  {
    var left, right := SeqMin(Xs(ps)), SeqMax(Xs(ps));
    var top, bottom := SeqMin(Ys(ps)), SeqMax(Ys(ps));
    Rect(left, top, right - left, bottom - top)
  }

  /** Lines 125-130: `sqrt(dx^2 + dy^2)` between two points, cast to `i32`. */
  function EdgeLength(a: Point, b: Point, sqrt: real -> real): (len: int)
    ensures I32_MIN <= len <= I32_MAX
  {
    var dx, dy := a.x - b.x, a.y - b.y;
    CastI32(sqrt((dx * dx) as real + (dy * dy) as real))
  }

  /** The edge length does not depend on the direction the edge is read in. */
  lemma EdgeLengthSymmetric(a: Point, b: Point, sqrt: real -> real)
    ensures EdgeLength(a, b, sqrt) == EdgeLength(b, a, sqrt)
  {
    assert (a.x - b.x) * (a.x - b.x) == (b.x - a.x) * (b.x - a.x);
    assert (a.y - b.y) * (a.y - b.y) == (b.y - a.y) * (b.y - a.y);
  }

  /** With an exact square root, an edge whose squared length is `n*n` measures `n`. */
  lemma EdgeLengthOfExactSide(a: Point, b: Point, sqrt: real -> real, n: nat)
    requires (a.x - b.x) * (a.x - b.x) + (a.y - b.y) * (a.y - b.y) == n * n
    requires sqrt((n * n) as real) == n as real && n <= I32_MAX
    ensures EdgeLength(a, b, sqrt) == n
  {
    var dx, dy := a.x - b.x, a.y - b.y;
    assert (dx * dx) as real + (dy * dy) as real == (n * n) as real;
    assert Trunc(n as real) == n;
  }

  function Corners2f(ps: seq<Point>): (r: seq<Point2f>)
    requires |ps| >= 4
    ensures |r| == 4 && forall k :: 0 <= k < 4 ==> r[k] == Point2f(ps[k].x as real, ps[k].y as real)
  {
    [Point2f(ps[0].x as real, ps[0].y as real), Point2f(ps[1].x as real, ps[1].y as real),
     Point2f(ps[2].x as real, ps[2].y as real), Point2f(ps[3].x as real, ps[3].y as real)]
  }

  /** Lines 146-155: the destination corners of a `w` x `h` crop, clockwise from the origin. */
  function DstCorners(w: int, h: int): (r: seq<Point2f>)
    ensures |r| == 4
    ensures r[0] == Point2f(0.0, 0.0)
    ensures r[1].y == r[0].y && r[2].x == r[1].x && r[3].y == r[2].y && r[3].x == r[0].x
    ensures r[1].x - r[0].x == w as real && r[3].y - r[0].y == h as real
  {
    [Point2f(0.0, 0.0), Point2f(w as real, 0.0), Point2f(w as real, h as real), Point2f(0.0, h as real)]
  }

  /** Line 177: the warped crop is a tall strip, compared with integer division. */
  function IsTallStrip(part: Mat): (b: bool)
    ensures b <==> 2 * part.rows + 1 >= 3 * part.cols
  {
    part.rows >= Quot(part.cols * 3, 2)
  }

  /** Lines 177-184: a tall strip is transposed and flipped, anything else is kept. */
  function Upright(part: Mat, cv: Cv): (r: Mat)
    ensures IsTallStrip(part) ==> r == cv.transposeFlip(part)
    ensures !IsTallStrip(part) ==> r == part
  {
    if IsTallStrip(part) then cv.transposeFlip(part) else part
  }

  /**
   * The value of `get_rotate_crop_image`: crop the bounding rectangle, warp
   * the quadrilateral (in crop coordinates) onto an upright rectangle whose
   * sides are the lengths of its first and last edges from corner 0, and
   * stand a tall strip up. Fewer than four points make the source panic.
   */
  function RotateCrop(src: Mat, boxPoints: seq<Point>, cv: Cv): Mat
    requires |boxPoints| >= 4
  {
    var rect := CropRect(boxPoints);
    var points := Shifted(boxPoints, rect.x, rect.y);
    var w := EdgeLength(points[0], points[1], cv.sqrt);
    var h := EdgeLength(points[0], points[3], cv.sqrt);
    var part := cv.warpPerspective(cv.roi(src, rect), Corners2f(points), DstCorners(w, h), w, h);
    Upright(part, cv)
  }

  /** `get_rotate_crop_image` (lines 103-185). */
  method GetRotateCropImage(src: Mat, boxPoints: seq<Point>, cv: Cv) returns (img: Mat)
    requires |boxPoints| >= 4
    ensures img == RotateCrop(src, boxPoints, cv)
  {
    var rect := CropRect(boxPoints);
    var imgCrop := cv.roi(src, rect);
    var points := ShiftPoints(boxPoints, rect.x, rect.y);
    var imgCropWidth := EdgeLength(points[0], points[1], cv.sqrt);
    var imgCropHeight := EdgeLength(points[0], points[3], cv.sqrt);
    var ptsSrc := Corners2f(points);
    var ptsDst := DstCorners(imgCropWidth, imgCropHeight);
    var partImg := cv.warpPerspective(imgCrop, ptsSrc, ptsDst, imgCropWidth, imgCropHeight);
    if partImg.rows >= Quot(partImg.cols * 3, 2) {
      img := cv.transposeFlip(partImg);
    } else {
      img := partImg;
    }
  }

  /** Lines 119-122: every point moved by `(-left, -top)`, in place. */
  method ShiftPoints(boxPoints: seq<Point>, left: int, top: int) returns (points: seq<Point>)
    ensures points == Shifted(boxPoints, left, top)
  {
    points := boxPoints;
    for k := 0 to |points|
      invariant |points| == |boxPoints|
      invariant forall j :: 0 <= j < k ==> points[j] == Point(boxPoints[j].x - left, boxPoints[j].y - top)
      invariant forall j :: k <= j < |points| ==> points[j] == boxPoints[j]
    {
      points := points[k := Point(points[k].x - left, points[k].y - top)];
    }
  }

  /**
   * After the shift to crop coordinates every point has non-negative
   * coordinates inside the crop rectangle, and some point touches each edge.
   */
  lemma ShiftedIntoCrop(boxPoints: seq<Point>)
    requires |boxPoints| > 0
    ensures var rect := CropRect(boxPoints);
            var ps := Shifted(boxPoints, rect.x, rect.y);
            (forall k :: 0 <= k < |ps| ==> 0 <= ps[k].x <= rect.width && 0 <= ps[k].y <= rect.height) &&
            (exists k :: 0 <= k < |ps| && ps[k].x == 0) &&
            (exists k :: 0 <= k < |ps| && ps[k].y == 0) &&
            (exists k :: 0 <= k < |ps| && ps[k].x == rect.width) &&
            (exists k :: 0 <= k < |ps| && ps[k].y == rect.height)
  {
    var rect := CropRect(boxPoints);
    var ps := Shifted(boxPoints, rect.x, rect.y);
    var xs, ys := Xs(boxPoints), Ys(boxPoints);
    assert rect.x == SeqMin(xs) && rect.y == SeqMin(ys);
    assert rect.x + rect.width == SeqMax(xs) && rect.y + rect.height == SeqMax(ys);
    var a :| 0 <= a < |xs| && xs[a] == SeqMin(xs);
    var b :| 0 <= b < |ys| && ys[b] == SeqMin(ys);
    var c :| 0 <= c < |xs| && xs[c] == SeqMax(xs);
    var d :| 0 <= d < |ys| && ys[d] == SeqMax(ys);
    assert ps[a].x == 0 && ps[b].y == 0 && ps[c].x == rect.width && ps[d].y == rect.height;
  }

  /** Whatever the crop, a tall strip is stood up and anything else is returned unrotated. */
  lemma CropIsUpright(src: Mat, boxPoints: seq<Point>, cv: Cv)
    requires |boxPoints| >= 4
    ensures var rect := CropRect(boxPoints);
            var ps := Shifted(boxPoints, rect.x, rect.y);
            var w := EdgeLength(ps[0], ps[1], cv.sqrt);
            var h := EdgeLength(ps[0], ps[3], cv.sqrt);
            var part := cv.warpPerspective(cv.roi(src, rect), Corners2f(ps), DstCorners(w, h), w, h);
            RotateCrop(src, boxPoints, cv) == (if 2 * part.rows + 1 >= 3 * part.cols then cv.transposeFlip(part) else part)
  {
  }

  /** Every box the crop map is given has the four corners the crop reads. */
  predicate Quads(textBoxes: seq<TextBox>)
  {
    forall k :: 0 <= k < |textBoxes| ==> |textBoxes[k].points| >= 4
  }

  /** `get_part_images` (lines 96-101): one crop per box, in box order. */
  function GetPartImages(src: Mat, textBoxes: seq<TextBox>, cv: Cv): (parts: seq<Mat>)
    requires Quads(textBoxes)
    ensures |parts| == |textBoxes|
    ensures forall k :: 0 <= k < |textBoxes| ==> parts[k] == RotateCrop(src, textBoxes[k].points, cv)
  {
    seq(|textBoxes|, k requires 0 <= k < |textBoxes| => RotateCrop(src, textBoxes[k].points, cv))
  }
}
