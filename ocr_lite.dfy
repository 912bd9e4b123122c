/**
 * The pipeline (src/ocr_lite.rs): pad the image, size the detector input,
 * detect the text boxes, crop each box upright, vote on each crop's
 * orientation, turn the upside-down crops, recognise every crop and report one
 * block per recognised line, with the padding taken off its corners.
 */
module OcrLite {
  import opened Common
  import opened Vision
  import opened OcrResults
  import opened ScaleParams
  import DbNet
  import AngleNet
  import CrnnNet
  import OcrUtils

  /**
   * The three networks and the vocabulary. Each field stands for the
   * resize, the normalisation, the session run and the output extraction of
   * one model, and gives its output or the error.
   */
  datatype Nets = Nets(
    /** `DbNet::get_text_boxes` up to the extracted probability map. */
    detector: (Mat, ScaleParam) -> Result<Heatmap>,
    /** `AngleNet::get_angle` up to the extracted scores. */
    classifier: Mat -> Result<seq<real>>,
    /** `CrnnNet::get_text_line` up to the extracted output tensor. */
    recognizer: Mat -> Result<CrnnNet.RecOutput>,
    keys: seq<string>)

  /** Every recogniser output has its rows inside its data, as a tensor of its shape does. */
  ghost predicate Shaped(nets: Nets)
  {
    forall m :: CrnnNet.RecognizerShaped(nets.recognizer(m))
  }

  // ---------------------------------------------------------------------
  // detect
  // ---------------------------------------------------------------------

  /**
   * Lines 52-59: the detector works on the longer side, lowered to
   * `max_side_len` when that is set and smaller, plus the padding on both sides.
   */
  function ResizeTarget(width: nat, height: nat, padding: nat, maxSideLen: nat): (resize: int)
    ensures var side, target := Max(width, height), resize - 2 * padding;
            target <= side && (maxSideLen > 0 ==> target <= maxSideLen) &&
            (target == side || target == maxSideLen)
    ensures maxSideLen == 0 ==> resize == Max(width, height) + 2 * padding
  {
    var originMaxSide := Max(width, height);
    var resize := if maxSideLen <= 0 || maxSideLen > originMaxSide then originMaxSide else maxSideLen;
    resize + 2 * padding
  }

  // ---------------------------------------------------------------------
  // detect_once: pairing crops with angles
  // ---------------------------------------------------------------------

  /**
   * The images the reverse/pop loop of lines 129-137 builds: it pops the
   * crops in their original order while it walks the angles from the last
   * one down, so crop `k` is turned by the vote of crop `n - 1 - k`.
   */
  function PairWithAngles(parts: seq<Mat>, angles: seq<Angle>, rot: Mat -> Mat): seq<Mat>
  {
    seq(Min(|angles|, |parts|), k requires 0 <= k < Min(|angles|, |parts|) =>
      if angles[|angles| - 1 - k].index == 1 then rot(parts[k]) else parts[k])
  }

  /** Lines 127-137 as written: reverse the crops, then pop one per angle, last angle first. */
  method RotatePartsAsWritten(partImages: seq<Mat>, angles: seq<Angle>, rot: Mat -> Mat)
    returns (rotatedImages: seq<Mat>)
    ensures |rotatedImages| == Min(|angles|, |partImages|)
    ensures rotatedImages == PairWithAngles(partImages, angles, rot)
  {
    var stack := Reverse(partImages);
    rotatedImages := [];
    var i := |angles|;
    while i > 0
      invariant 0 <= i <= |angles|
      invariant |rotatedImages| == Min(|angles| - i, |partImages|)
      invariant stack == Reverse(partImages[|rotatedImages|..])
      invariant forall k :: 0 <= k < |rotatedImages| ==>
                  rotatedImages[k] == (if angles[|angles| - 1 - k].index == 1 then rot(partImages[k]) else partImages[k])
    {
      i := i - 1;
      if |stack| > 0 {
        var rest := partImages[|rotatedImages|..];
        assert stack == Reverse(rest[1..]) + [rest[0]];
        var img := stack[|stack| - 1];
        stack := stack[..|stack| - 1];
        assert rest[1..] == partImages[|rotatedImages| + 1..];
        if angles[i].index == 1 {
          img := rot(img);
        }
        rotatedImages := rotatedImages + [img];
      }
    }
  }

  /** Crop `k` turned by its own vote: the pairing the reported blocks assume. */
  function PairWithAnglesByIndex(parts: seq<Mat>, angles: seq<Angle>, rot: Mat -> Mat): seq<Mat>
  {
    seq(Min(|angles|, |parts|), k requires 0 <= k < Min(|angles|, |parts|) =>
      if angles[k].index == 1 then rot(parts[k]) else parts[k])
  }

  /** The pairing loop with each crop paired with its own vote. */
  method RotateParts(partImages: seq<Mat>, angles: seq<Angle>, rot: Mat -> Mat) returns (rotatedImages: seq<Mat>)
    ensures |rotatedImages| == Min(|angles|, |partImages|)
    ensures forall k :: 0 <= k < |rotatedImages| ==>
              rotatedImages[k] == (if angles[k].index == 1 then rot(partImages[k]) else partImages[k])
    ensures rotatedImages == PairWithAnglesByIndex(partImages, angles, rot)
  {
    rotatedImages := [];
    for k := 0 to Min(|angles|, |partImages|)
      invariant |rotatedImages| == k
      invariant forall j :: 0 <= j < k ==>
                  rotatedImages[j] == (if angles[j].index == 1 then rot(partImages[j]) else partImages[j])
    {
      var img := partImages[k];
      if angles[k].index == 1 {
        img := rot(img);
      }
      rotatedImages := rotatedImages + [img];
    }
  }

  /**
   * With two crops voted "upside down" and "upright", the loop as written
   * leaves crop 0 unturned although block 0 reports index 1, and turns crop 1
   * although block 1 reports index 0, whatever the boxes and lines are.
   */
  lemma PopLoopSwapsVotes(a: Mat, b: Mat, rot: Mat -> Mat, s0: real, s1: real,
                          boxes: seq<TextBox>, lines: seq<TextLine>, padding: nat)
    requires rot(a) != a && rot(b) != b
    requires |boxes| == 2 && |lines| == 2
    ensures var angles := [Angle(1, s0), Angle(0, s1)];
            var asWritten := PairWithAngles([a, b], angles, rot);
            var intended := PairWithAnglesByIndex([a, b], angles, rot);
            asWritten == [a, rot(b)] && intended == [rot(a), b] && asWritten[0] != intended[0]
    ensures var blocks := Blocks(boxes, [Angle(1, s0), Angle(0, s1)], lines, padding);
            blocks[0].angleIndex == 1 && blocks[1].angleIndex == 0
  {
    var angles := [Angle(1, s0), Angle(0, s1)];
    assert PairWithAngles([a, b], angles, rot) == [a, rot(b)];
    assert PairWithAnglesByIndex([a, b], angles, rot) == [rot(a), b];
  }

  /** With one vote per crop, the loop as written is the own-vote pairing over the reversed votes. */
  lemma PairWithAnglesReadsVotesBackwards(parts: seq<Mat>, angles: seq<Angle>, rot: Mat -> Mat)
    requires |angles| == |parts|
    ensures PairWithAngles(parts, angles, rot) == PairWithAnglesByIndex(parts, Reverse(angles), rot)
  {
    ReverseAll(angles);
  }

  /** With one vote per crop the two pairings agree when the votes read the same both ways. */
  lemma PairingsAgreeOnPalindromes(parts: seq<Mat>, angles: seq<Angle>, rot: Mat -> Mat)
    requires |angles| == |parts|
    requires forall k :: 0 <= k < |angles| ==> angles[k].index == angles[|angles| - 1 - k].index
    ensures PairWithAngles(parts, angles, rot) == PairWithAnglesByIndex(parts, angles, rot)
  {
  }

  /**
   * Conversely, with votes 0 or 1 and a rotation that moves every crop, the
   * two pairings agree only when the votes read the same both ways.
   */
  lemma PairingsAgreeOnlyOnPalindromes(parts: seq<Mat>, angles: seq<Angle>, rot: Mat -> Mat)
    requires |angles| == |parts|
    requires forall k :: 0 <= k < |angles| ==> angles[k].index == 0 || angles[k].index == 1
    requires forall k :: 0 <= k < |parts| ==> rot(parts[k]) != parts[k]
    requires PairWithAngles(parts, angles, rot) == PairWithAnglesByIndex(parts, angles, rot)
    ensures forall k :: 0 <= k < |angles| ==> angles[k].index == angles[|angles| - 1 - k].index
  {
    forall k | 0 <= k < |angles|
      ensures angles[k].index == angles[|angles| - 1 - k].index
    {
      assert PairWithAngles(parts, angles, rot)[k] == PairWithAnglesByIndex(parts, angles, rot)[k];
    }
  }

  // ---------------------------------------------------------------------
  // detect_once: block assembly
  // ---------------------------------------------------------------------

  /** Lines 147-150: `(coord as f32 - padding as f32) as u32` for both coordinates. */
  function Unpad(p: Point, padding: nat): (q: BlockPoint)
    ensures p.x <= padding ==> q.x == 0
    ensures p.y <= padding ==> q.y == 0
    ensures padding <= p.x <= padding + U32_MAX ==> q.x + padding == p.x
    ensures padding <= p.y <= padding + U32_MAX ==> q.y + padding == p.y
  {
    BlockPoint(CastU32(p.x as real - padding as real), CastU32(p.y as real - padding as real))
  }

  /** Taking the padding off undoes adding it. */
  lemma UnpadUndoesPadding(q: BlockPoint, padding: nat)
    requires q.x <= U32_MAX && q.y <= U32_MAX
    ensures Unpad(Point(q.x + padding, q.y + padding), padding) == q
  {
  }

  function UnpadAll(ps: seq<Point>, padding: nat): (r: seq<BlockPoint>)
    ensures |r| == |ps| && forall k :: 0 <= k < |ps| ==> r[k] == Unpad(ps[k], padding)
  {
    seq(|ps|, k requires 0 <= k < |ps| => Unpad(ps[k], padding))
  }

  /** Lines 143-157: a block from a box, its vote and its line. */
  function BlockOf(box: TextBox, angle: Angle, line: TextLine, padding: nat): TextBlock
  {
    TextBlock(UnpadAll(box.points, padding), box.score, angle.index, angle.score, line.text, line.textScore)
  }

  /** One block per line; block `i` takes box `i`, vote `i` and line `i` (fewer boxes or votes panic). */
  function Blocks(boxes: seq<TextBox>, angles: seq<Angle>, lines: seq<TextLine>, padding: nat): seq<TextBlock>
    requires |lines| <= |boxes| && |lines| <= |angles|
  {
    seq(|lines|, i requires 0 <= i < |lines| => BlockOf(boxes[i], angles[i], lines[i], padding))
  }

  /** Lines 141-158. */
  method AssembleBlocks(textBoxes: seq<TextBox>, angles: seq<Angle>, textLines: seq<TextLine>, padding: nat)
    returns (textBlocks: seq<TextBlock>)
    requires |textLines| <= |textBoxes| && |textLines| <= |angles|
    ensures |textBlocks| == |textLines|
    ensures forall i :: 0 <= i < |textLines| ==>
              textBlocks[i].boxPoints == UnpadAll(textBoxes[i].points, padding) &&
              textBlocks[i].boxScore == textBoxes[i].score &&
              textBlocks[i].angleIndex == angles[i].index && textBlocks[i].angleScore == angles[i].score &&
              textBlocks[i].text == textLines[i].text && textBlocks[i].textScore == textLines[i].textScore
    ensures textBlocks == Blocks(textBoxes, angles, textLines, padding)
  {
    textBlocks := [];
    for i := 0 to |textLines|
      invariant |textBlocks| == i
      invariant forall j :: 0 <= j < i ==> textBlocks[j] == BlockOf(textBoxes[j], angles[j], textLines[j], padding)
    {
      var boxPoints := UnpadAll(textBoxes[i].points, padding);
      textBlocks := textBlocks + [TextBlock(boxPoints, textBoxes[i].score, angles[i].index, angles[i].score,
                                            textLines[i].text, textLines[i].textScore)];
    }
  }

  // ---------------------------------------------------------------------
  // detect_once, detect
  // ---------------------------------------------------------------------

  /**
   * The value of `detect_once` (lines 102-161) with each crop turned by its
   * own vote. Any network error aborts the call.
   */
  function DetectOnceOf(nets: Nets, img: Mat, scale: ScaleParam, padding: nat, boxScoreThresh: real,
                        boxThresh: real, unclipRatio: real, doAngle: bool, mostAngle: bool, cv: Cv)
    : Result<OcrResult>
    requires Shaped(nets)
  {
    var det := nets.detector(img, scale);
    if det.Err? then Err(det.error)
    else
      var boxes := DbNet.TextBoxesOf(det.value, scale, boxScoreThresh, boxThresh, unclipRatio, cv);
      DbNet.TextBoxesAreGood(det.value, scale, boxScoreThresh, boxThresh, unclipRatio, cv);
      var parts := OcrUtils.GetPartImages(img, boxes, cv);
      var angles := AngleNet.AnglesOf(parts, doAngle, mostAngle, nets.classifier);
      if angles.Err? then Err(angles.error)
      else
        var rotated := PairWithAnglesByIndex(parts, angles.value, cv.rotate180);
        var lines := CrnnNet.TextLinesOf(rotated, nets.keys, nets.recognizer);
        if lines.Err? then Err(lines.error)
        else Ok(OcrResult(Blocks(boxes, angles.value, lines.value, padding)))
  }

  /** `detect_once` (lines 102-161), with the pairing of `RotateParts`. */
  method DetectOnce(nets: Nets, img: Mat, scale: ScaleParam, padding: nat, boxScoreThresh: real,
                    boxThresh: real, unclipRatio: real, doAngle: bool, mostAngle: bool, cv: Cv)
    returns (r: Result<OcrResult>)
    requires Shaped(nets)
    ensures r == DetectOnceOf(nets, img, scale, padding, boxScoreThresh, boxThresh, unclipRatio, doAngle, mostAngle, cv)
  {
    var det := nets.detector(img, scale);
    if det.Err? {
      return Err(det.error);
    }
    var predMap := det.value;
    var found := DbNet.GetTextBoxesCore(Ok(predMap.data), predMap.rows, predMap.cols, scale, boxScoreThresh, boxThresh, unclipRatio, cv);
    var textBoxes := found.value;
    DbNet.TextBoxesAreGood(predMap, scale, boxScoreThresh, boxThresh, unclipRatio, cv);
    var partImages := OcrUtils.GetPartImages(img, textBoxes, cv);
    var voted := AngleNet.GetAngles(partImages, doAngle, mostAngle, nets.classifier);
    if voted.Err? {
      return Err(voted.error);
    }
    var angles := voted.value;
    var rotatedImages := RotateParts(partImages, angles, cv.rotate180);
    var recognized := CrnnNet.GetTextLines(rotatedImages, nets.keys, nets.recognizer);
    if recognized.Err? {
      return Err(recognized.error);
    }
    var textBlocks := AssembleBlocks(textBoxes, angles, recognized.value, padding);
    return Ok(OcrResult(textBlocks));
  }

  /**
   * Every reported block carries its own box (less the padding) and score,
   * and its text and score are what the recogniser reads from that box's crop
   * turned exactly when the block reports index 1.
   */
  lemma BlocksReportTheirCrops(nets: Nets, img: Mat, scale: ScaleParam, padding: nat, boxScoreThresh: real,
                               boxThresh: real, unclipRatio: real, doAngle: bool, mostAngle: bool, cv: Cv)
    requires Shaped(nets)
    requires DetectOnceOf(nets, img, scale, padding, boxScoreThresh, boxThresh, unclipRatio, doAngle, mostAngle, cv).Ok?
    ensures var boxes := DbNet.TextBoxesOf(nets.detector(img, scale).value, scale, boxScoreThresh, boxThresh, unclipRatio, cv);
            var blocks := DetectOnceOf(nets, img, scale, padding, boxScoreThresh, boxThresh, unclipRatio, doAngle, mostAngle, cv).value.textBlocks;
            |blocks| == |boxes| &&
            forall k :: 0 <= k < |blocks| ==>
              |boxes[k].points| == 4 &&
              blocks[k].boxPoints == UnpadAll(boxes[k].points, padding) && blocks[k].boxScore == boxes[k].score &&
              var crop := OcrUtils.RotateCrop(img, boxes[k].points, cv);
              var o := nets.recognizer(if blocks[k].angleIndex == 1 then cv.rotate180(crop) else crop);
              CrnnNet.RecognizerShaped(o) && o.Ok? &&
              TextLine(blocks[k].text, blocks[k].textScore) == CrnnNet.DecodeLine(o.value, nets.keys)
  {
    var det := nets.detector(img, scale).value;
    var boxes := DbNet.TextBoxesOf(det, scale, boxScoreThresh, boxThresh, unclipRatio, cv);
    DbNet.TextBoxesAreGood(det, scale, boxScoreThresh, boxThresh, unclipRatio, cv);
    var parts := OcrUtils.GetPartImages(img, boxes, cv);
    var angles := AngleNet.AnglesOf(parts, doAngle, mostAngle, nets.classifier).value;
    CropsReadInOrder(boxes, parts, angles, nets.keys, nets.recognizer, padding, cv.rotate180);
  }

  /** `BlocksReportTheirCrops` once the boxes, their crops and the votes are fixed. */
  lemma CropsReadInOrder(boxes: seq<TextBox>, parts: seq<Mat>, angles: seq<Angle>, keys: seq<string>,
                         recognizer: Mat -> Result<CrnnNet.RecOutput>, padding: nat, rot: Mat -> Mat)
    requires |parts| == |boxes| && |angles| == |boxes|
    requires forall m :: CrnnNet.RecognizerShaped(recognizer(m))
    requires CrnnNet.TextLinesOf(PairWithAnglesByIndex(parts, angles, rot), keys, recognizer).Ok?
    ensures var lines := CrnnNet.TextLinesOf(PairWithAnglesByIndex(parts, angles, rot), keys, recognizer).value;
            var blocks := Blocks(boxes, angles, lines, padding);
            |blocks| == |boxes| &&
            forall k :: 0 <= k < |blocks| ==>
              blocks[k].boxPoints == UnpadAll(boxes[k].points, padding) && blocks[k].boxScore == boxes[k].score &&
              var o := recognizer(if blocks[k].angleIndex == 1 then rot(parts[k]) else parts[k]);
              CrnnNet.RecognizerShaped(o) && o.Ok? &&
              TextLine(blocks[k].text, blocks[k].textScore) == CrnnNet.DecodeLine(o.value, keys)
  {
    var rotated := PairWithAnglesByIndex(parts, angles, rot);
    var lines := CrnnNet.TextLinesOf(rotated, keys, recognizer).value;
    var blocks := Blocks(boxes, angles, lines, padding);
    forall k | 0 <= k < |blocks|
      ensures var o := recognizer(if blocks[k].angleIndex == 1 then rot(parts[k]) else parts[k]);
              CrnnNet.RecognizerShaped(o) && o.Ok? &&
              TextLine(blocks[k].text, blocks[k].textScore) == CrnnNet.DecodeLine(o.value, keys)
    {
      assert blocks[k] == BlockOf(boxes[k], angles[k], lines[k], padding);
      assert rotated[k] == (if angles[k].index == 1 then rot(parts[k]) else parts[k]);
    }
  }

  /** The padded image is not empty, as `get_scale_param` divides by its sides. */
  predicate PaddedNonEmpty(img: Mat, padding: nat, cv: Cv)
  {
    var p := OcrUtils.MakePadding(img, padding, cv);
    p.cols > 0 && p.rows > 0
  }

  /** The value of `detect` (lines 41-75): the scale is taken from the padded image. */
  function DetectOf(nets: Nets, img: Mat, padding: nat, maxSideLen: nat, boxScoreThresh: real, boxThresh: real,
                    unclipRatio: real, doAngle: bool, mostAngle: bool, cv: Cv): Result<OcrResult>
    requires Shaped(nets) && PaddedNonEmpty(img, padding, cv)
  {
    var resize := ResizeTarget(img.cols, img.rows, padding, maxSideLen);
    var paddingSrc := OcrUtils.MakePadding(img, padding, cv);
    var scale := GetScaleParam(paddingSrc, resize);
    DetectOnceOf(nets, paddingSrc, scale, padding, boxScoreThresh, boxThresh, unclipRatio, doAngle, mostAngle, cv)
  }

  /** `detect` (lines 41-75). */
  method Detect(nets: Nets, img: Mat, padding: nat, maxSideLen: nat, boxScoreThresh: real, boxThresh: real,
                unclipRatio: real, doAngle: bool, mostAngle: bool, cv: Cv) returns (r: Result<OcrResult>)
    requires Shaped(nets) && PaddedNonEmpty(img, padding, cv)
    ensures r == DetectOf(nets, img, padding, maxSideLen, boxScoreThresh, boxThresh, unclipRatio, doAngle, mostAngle, cv)
  {
    var resize := DetectorSide(img.cols, img.rows, padding, maxSideLen);
    var paddingSrc := OcrUtils.MakePadding(img, padding, cv);
    var scale := GetScaleParam(paddingSrc, resize);
    r := DetectOnce(nets, paddingSrc, scale, padding, boxScoreThresh, boxThresh, unclipRatio, doAngle, mostAngle, cv);
  }

  /** Lines 52-59: the side the detector input is scaled to. */
  method DetectorSide(width: nat, height: nat, padding: nat, maxSideLen: nat) returns (resize: int)
    ensures resize == ResizeTarget(width, height, padding, maxSideLen)
  {
    var originMaxSide := Max(width, height);
    if maxSideLen <= 0 || maxSideLen > originMaxSide {
      resize := originMaxSide;
    } else {
      resize := maxSideLen;
    }
    resize := resize + 2 * padding;
  }

  /**
   * The scale factors map the padded image to the detector input, so the
   * boxes come back in padded coordinates: the scale records the padded
   * image's sides, and with no padding the image itself.
   */
  lemma ScaleUsesPaddedImage(img: Mat, padding: nat, maxSideLen: nat, cv: Cv)
    requires PaddedNonEmpty(img, padding, cv)
    ensures var p := OcrUtils.MakePadding(img, padding, cv);
            var scale := GetScaleParam(p, ResizeTarget(img.cols, img.rows, padding, maxSideLen));
            scale.srcWidth == p.cols && scale.srcHeight == p.rows &&
            (padding == 0 ==> scale.srcWidth == img.cols && scale.srcHeight == img.rows)
  {
  }
}
