/**
 * The result records (src/ocr_result.rs), with the fields that the core
 * reads and writes. The timing fields and the drawn box image are not set by
 * the core and are not modelled.
 */
module OcrResults {
  import opened Common

  /** A detected box: its corners in source-image coordinates and its mean map score. */
  datatype TextBox = TextBox(points: seq<Point>, score: real)

  /** An orientation vote: index 1 means "upside down". */
  datatype Angle = Angle(index: int, score: real)

  /** `Angle::default()` */
  const DefaultAngle: Angle := Angle(0, 0.0)

  /**
   * A recognised line. `textScore` is the mean of the emitted maxima;
   * `None` stands for the NaN that 0.0 / 0 gives when nothing was emitted.
   */
  datatype TextLine = TextLine(text: string, textScore: Option<real>)

  /** A box corner after the padding is subtracted (`u32` coordinates). */
  datatype BlockPoint = BlockPoint(x: nat, y: nat)

  datatype TextBlock = TextBlock(
    boxPoints: seq<BlockPoint>,
    boxScore: real,
    angleIndex: int,
    angleScore: real,
    text: string,
    textScore: Option<real>)

  datatype OcrResult = OcrResult(textBlocks: seq<TextBlock>)
}
