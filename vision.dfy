/**
 * The OpenCV and geo-clipper primitives the core calls. Their code is not
 * part of this model, so each one is a function-valued field: every operation
 * of the model receives them as a parameter and knows nothing about them
 * beyond their signature (and, where a lemma says so, a shape hypothesis).
 */
module Vision {
  import opened Common

  /** The four corners `RotatedRect::points` writes into its `[Point2f; 4]`. */
  type Quad = q: seq<Point2f> | |q| == 4
    witness [Point2f(0.0, 0.0), Point2f(0.0, 0.0), Point2f(0.0, 0.0), Point2f(0.0, 0.0)]

  /** `RotatedRect`: its corners and its `size`. */
  datatype RotatedRect = RotatedRect(corners: Quad, width: real, height: real)

  /** The detector's output tensor laid out as the `rows` x `cols` probability map. */
  datatype Heatmap = Heatmap(rows: int, cols: int, data: seq<real>)

  datatype Cv = Cv(
    /** `imgproc::min_area_rect` followed by `RotatedRect::points`. */
    minAreaRect: seq<Point2f> -> RotatedRect,
    /**
     * The u8 conversion of the map, `imgproc::threshold` at `box_thresh * 255`,
     * the 2x2 `imgproc::dilate` and `imgproc::find_contours` (list mode).
     */
    findContours: (Heatmap, real) -> seq<seq<Point>>,
    /**
     * `imgproc::fill_poly` of the translated contour into a mask of the
     * rectangle's size, then `core::mean` of the map's region under that mask.
     */
    maskedMean: (Heatmap, Rect, seq<Point>) -> real,
    /**
     * `Polygon::offset` by the given distance (round joins, closed polygon),
     * giving the exterior ring of each solution polygon; `None` stands for a
     * distance that is not a finite float.
     */
    offset: (seq<Point2f>, Option<real>) -> seq<seq<Point2f>>,
    /** `f32::sqrt` / `f64::sqrt`. */
    sqrt: real -> real,
    /** `Mat::roi` */
    roi: (Mat, Rect) -> Mat,
    /**
     * `get_perspective_transform` from the source corners to the destination
     * corners, then `warp_perspective` of the image into a `width` x `height` raster.
     */
    warpPerspective: (Mat, seq<Point2f>, seq<Point2f>, int, int) -> Mat,
    /** `core::transpose` followed by `core::flip` around the x axis. */
    transposeFlip: Mat -> Mat,
    /** `OcrUtils::mat_rotate_clock_wise_180`, a flip around both axes. */
    rotate180: Mat -> Mat,
    /** `core::copy_make_border` with a white border of the given width on every side. */
    copyMakeBorder: (Mat, int) -> Mat
  )
}
