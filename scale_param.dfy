/**
 * Detector input sizing (src/scale_param.rs): the longer side of the image is
 * resized to the requested size, the other side in proportion, and each side
 * is then snapped to a multiple of 32 (never below 32 unless it is already a
 * multiple). The scale factors map source coordinates to detector coordinates.
 */
module ScaleParams {
  import opened Common

  datatype ScaleParam = ScaleParam(
    srcWidth: nat,
    srcHeight: nat,
    dstWidth: int,
    dstHeight: int,
    scaleWidth: real,
    scaleHeight: real)

  /**
   * The shorter side resized in proportion to the longer one:
   * `(side as f32 * (dst_size as f32 / long as f32)) as i32`, the product
   * taken exactly. When both sides are 0 the float product is NaN and casts to 0.
   */
  function ScaleSide(side: nat, dstSize: int, long: nat): (r: int)
    ensures long > 0 && dstSize >= 0 ==> 0 <= r && r * long <= side * dstSize < (r + 1) * long
    ensures long == 0 ==> r == 0
  {
    if long == 0 then 0 else Quot(side * dstSize, long)
  }

  /**
   * Lines 58-65: a side that is not a multiple of 32 drops to one multiple
   * below its integral part in 32s, and then to no less than 32.
   */
  function SnapTo32(d: int): (r: int)
    ensures d % 32 == 0 ==> r == d
    ensures d % 32 != 0 ==> r % 32 == 0 && r >= 32
    ensures d % 32 != 0 && d >= 64 ==> d - 64 < r < d - 32
    ensures d % 32 != 0 && d < 64 ==> r == 32
  {
    if d % 32 != 0 then Max((Quot(d, 32) - 1) * 32, 32) else d
  }

  /** `ScaleParam::get_scale_param(src, dst_size)` */
  function GetScaleParam(src: Mat, dstSize: int): (p: ScaleParam)
    requires src.cols > 0 && src.rows > 0
    ensures p.srcWidth == src.cols && p.srcHeight == src.rows
    ensures src.cols > src.rows ==>
              p.dstWidth == SnapTo32(dstSize) && p.dstHeight == SnapTo32(ScaleSide(src.rows, dstSize, src.cols))
    ensures src.cols <= src.rows ==>
              p.dstHeight == SnapTo32(dstSize) && p.dstWidth == SnapTo32(ScaleSide(src.cols, dstSize, src.rows))
    ensures p.scaleWidth == p.dstWidth as real / src.cols as real
    ensures p.scaleHeight == p.dstHeight as real / src.rows as real
  {
    if src.cols > src.rows then
      Snapped(src, dstSize, ScaleSide(src.rows, dstSize, src.cols))
    else
      Snapped(src, ScaleSide(src.cols, dstSize, src.rows), dstSize)
  }

  /** Lines 58-77: snap both sides, then derive the scale factors from the snapped sides. */
  function Snapped(src: Mat, dstWidth: int, dstHeight: int): (p: ScaleParam)
    requires src.cols > 0 && src.rows > 0
    ensures p.srcWidth == src.cols && p.srcHeight == src.rows
    ensures p.dstWidth == SnapTo32(dstWidth) && p.dstHeight == SnapTo32(dstHeight)
    ensures p.scaleWidth == p.dstWidth as real / src.cols as real
    ensures p.scaleHeight == p.dstHeight as real / src.rows as real
  {
    var w := SnapTo32(dstWidth);
    var h := SnapTo32(dstHeight);
    ScaleParam(src.cols, src.rows, w, h, w as real / src.cols as real, h as real / src.rows as real)
  }

  /**
   * Both detector sides are multiples of 32 and at least 32 whenever the
   * requested size is at least 32 and the shorter side does not scale to 0.
   */
  lemma DstSidesAreMultiplesOf32(src: Mat, dstSize: int)
    requires src.cols > 0 && src.rows > 0 && dstSize >= 32
    requires Min(src.cols, src.rows) * dstSize >= Max(src.cols, src.rows)
    ensures GetScaleParam(src, dstSize).dstWidth % 32 == 0 && GetScaleParam(src, dstSize).dstWidth >= 32
    ensures GetScaleParam(src, dstSize).dstHeight % 32 == 0 && GetScaleParam(src, dstSize).dstHeight >= 32
  {
    var short, long := Min(src.cols, src.rows), Max(src.cols, src.rows);
    var t := ScaleSide(short, dstSize, long);
    assert t >= 1;
    if src.cols > src.rows {
      assert short == src.rows && long == src.cols;
    } else {
      assert short == src.cols && long == src.rows;
    }
  }

  /**
   * The floor of 32 does not hold for every image: a strip so thin that its
   * shorter side scales below one pixel keeps a detector side of 0.
   */
  lemma ThinStripKeepsZeroSide(src: Mat, dstSize: int)
    requires src.cols > src.rows > 0 && dstSize >= 0
    requires src.rows * dstSize < src.cols
    ensures GetScaleParam(src, dstSize).dstHeight == 0
  {
    var t := ScaleSide(src.rows, dstSize, src.cols);
    assert t * src.cols < src.cols;
    assert t == 0;
  }
}
