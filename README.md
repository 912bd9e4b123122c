# paddle-ocr-rs: a Dafny model of the classical OCR pipeline

This project models the non-neural core of the paddle-ocr-rs crate. That is everything the
pipeline does around its three ONNX networks: detector, orientation classifier and recogniser.

- **Detector-input sizing** (`ScaleParams`). The longer image side becomes the requested
  size and the other side follows in proportion. Each side is then snapped to a multiple
  of 32, and the scale factors are derived from the snapped sides.
- **Detection post-processing** (`DbNet`). Each contour of the binarised probability map
  passes through four gates: point count, fitted shorter side, mean map score, and re-fitted
  side after the unclip offset. Every survivor's corners are ordered, mapped back to the
  source image and clamped into it. The list of boxes is then reversed. Also modelled here:
  the shoelace area and perimeter accumulators, the unclip distance, and the
  region-of-interest clamp of the score.
- **Orientation voting** (`AngleNet`). The vote is the first maximum over the first two
  classifier scores. An optional override forces the whole batch to its majority.
- **Greedy CTC decoding** (`CrnnNet`). Each timestep takes its argmax. A symbol is emitted
  only when it is not the blank, is inside the vocabulary, and differs from the previous
  timestep's maximum. The text score is the mean of the emitted maxima. The vocabulary is
  the key file framed by `#` and `" "`.
- **Layout helpers** (`OcrUtils`). The interleaved-to-planar normalisation of network
  inputs, the padding border, the line thickness, and the perspective crop of each box
  (bounding rectangle, shift, destination corners, tall-strip rotation).
- **Orchestration** (`OcrLite`). The resize target, the pairing of crops with their votes,
  and block assembly, where the padding is taken off each corner with `u32` saturation.

Modules follow the source files. `Common` holds the Rust numeric semantics written out:
- truncating integer division;
- saturating float-to-`i32`/`u32` casts;
- float division by zero;
- the `?` first-error abort of a loop.

`Vision` holds the OpenCV and geo-clipper primitives. They are function-valued fields of a
`Cv` value that every operation takes as a parameter. The networks are `Nets`: function
parameters that give their output or an `OcrError`.

Floats are modelled as mathematical reals. The NaN that `0.0 / 0` gives for an empty
line's score is `None`.

The loops of the source are methods, each proved equal to a specification function. The
properties the source promises are proved as ensures clauses of those functions and as
lemmas relating them.

Where the code and its description disagree, the model follows the code:
- **Snapping.** A side that is not a multiple of 32 is snapped to `(d/32 - 1)*32`, one
  multiple *below* the largest multiple not above `d`, with a floor of 32.
- **Right pair in `get_mini_box`.** The right pair goes to slots 1 and 2 with the smaller
  y in slot 1.

## Model

| member | source | states |
|---|---|---|
| Common.Quot | src/scale_param.rs:59 | Integer `/` truncates toward zero: `q*b <= a < (q+1)*b` for `a >= 0`, the mirror bound for `a < 0` |
| Common.Clamp | src/db_net.rs:315-318 | `v.max(lo).min(hi)` lies in `[lo, hi]`, is `v` when `v` is inside, the lower bound when `v` is below, and the upper bound when `v` is above |
| Common.CastI32 | src/db_net.rs:214-218 | A float cast to `i32` stays within the `i32` bounds and is the truncation of every value in range |
| Common.CastU32 | src/ocr_lite.rs:148-149 | A float cast to `u32` is 0 for negatives, within `[0, u32::MAX]`, and the truncation of every value in range |
| Common.DivToI32 | src/db_net.rs:214-217 | `(v / d) as i32` is the cast of the quotient for `d != 0`, and within the `i32` bounds even when `d == 0` |
| Common.Collect | src/crnn_net.rs:81-86 | A loop with `?` gives every value in order when all steps succeed. Otherwise it gives the error of the first failing step, and every step before it succeeded |
| Common.CollectFirstErr | src/angle_net.rs:56-59 | The error reported is exactly the one at the first failing position |
| Common.Shifted | src/ocr_utils.rs:119-122 | Every point is moved by `(-dx, -dy)`, in order: the crop shift of `get_rotate_crop_image` and the region shift of `get_score` (src/db_net.rs:334-337) |
| Common.Reverse | src/db_net.rs:231 | `reverse` keeps the length |
| Common.ReverseAt | src/db_net.rs:231 | `reverse` puts element `n-1-k` at position `k` |
| Common.ReverseAll | src/db_net.rs:231 | Every position `k` of the reversal holds element `n-1-k` |
| Common.SomesGrows | src/db_net.rs:179-229 | A longer prefix of the contours never keeps fewer passing outcomes |
| Common.SomesAt | src/db_net.rs:179-229 | A passing outcome at `j` is kept, right after the values kept before `j` |
| Common.SomesCountsBefore | src/db_net.rs:179-229 | A passing outcome before `j` is one more value kept by the contours up to `j` |
| Common.SomesReversedAt | src/db_net.rs:179-231 | After the final `reverse`, a passing outcome at `j` sits behind the values of the passing outcomes after it |
| Common.SomesReversedOrder | src/db_net.rs:179-231 | After the final `reverse`, of two passing outcomes the later one's value comes first |
| ScaleParams.ScaleSide | src/scale_param.rs:48-56 | The shorter side scales to `t` with `t*long <= side*dst < (t+1)*long` (truncation), or to 0 when both sides are 0 |
| ScaleParams.SnapTo32 | src/scale_param.rs:58-65 | A multiple of 32 is unchanged. Any other side becomes a multiple of 32 of at least 32, strictly between `d-64` and `d-32` for `d >= 64`, and 32 below 64 |
| ScaleParams.GetScaleParam | src/scale_param.rs:41-78 | Source sides are copied unchanged. A wider image gives `dst_width` the requested size and scales the height; otherwise (square images too) the height gets the size. Both sides are snapped, and each scale factor is the snapped side over the source side |
| ScaleParams.Snapped | src/scale_param.rs:58-77 | Snaps both sides and derives the scale factors from the snapped values, never the unsnapped ones |
| ScaleParams.DstSidesAreMultiplesOf32 | src/scale_param.rs:58-65 | For a requested size of at least 32, where the shorter side does not scale to 0, both detector sides are multiples of 32 and at least 32 |
| ScaleParams.ThinStripKeepsZeroSide | src/scale_param.rs:48-65 | The floor of 32 does not always hold: a strip whose shorter side scales below one pixel keeps a detector side of 0 |
| CrnnNet.GetKeys | src/crnn_net.rs:61-75 | The vocabulary is `["#"] + lines + [" "]`: length `lines+2`, the blank at 0, the space last, and line `k` at `k+1` |
| CrnnNet.RowArgmax | src/crnn_net.rs:141-151 | The fold gives a value no row entry exceeds. When that value beats `f32::MIN`, its index is the first position holding it; otherwise the index is 0 |
| CrnnNet.RowStartInBounds | src/crnn_net.rs:137-139 | When every row start lies inside the data, row `i`'s start `i*width` is within it |
| CrnnNet.Row | src/crnn_net.rs:137-139 | Row `i` is at most `width` long and reads `data[i*width + j]`, clipped at the data's end |
| CrnnNet.RowMaxesAt | src/crnn_net.rs:136-151 | The maximum of timestep `i` is the fold over row `i` |
| CrnnNet.Emitted | src/crnn_net.rs:153-158 | At most one symbol per timestep is emitted, and every emitted index is non-blank and inside the vocabulary |
| CrnnNet.MeanScore | src/crnn_net.rs:161 | The text score is `sum / count`, and NaN (`None`) exactly when nothing was emitted |
| CrnnNet.ScoreToTextLine | src/crnn_net.rs:125-163 | The loop yields the keys of the emitted maxima, concatenated, and the mean of those maxima: the value `DecodeLine` |
| CrnnNet.TimestepMax | src/crnn_net.rs:137-151 | One timestep's slice and fold give that row's maximum |
| CrnnNet.DecodeStep | src/crnn_net.rs:137-158 | One timestep turns the text, sum and count of the timesteps before it into those of the timesteps up to it, and records its maximum's index as `last_index` |
| CrnnNet.EmitStep | src/crnn_net.rs:153-157 | An emitting timestep appends its maximum, its key and its value to the line, the sum and the count |
| CrnnNet.SkipStep | src/crnn_net.rs:153-158 | A timestep that does not emit leaves the line, the sum and the count unchanged |
| CrnnNet.TextLinesOf | src/crnn_net.rs:78-87 | One line per image, in image order, each decoded from that image's output. The first failing image aborts with its error |
| CrnnNet.GetTextLines | src/crnn_net.rs:78-87 | The loop gives exactly `TextLinesOf` |
| CrnnNet.RunEmitsAtMostOnce | src/crnn_net.rs:153-158 | A run of timesteps with the same maximum emits at most one symbol |
| CrnnNet.BlankSeparatesRepeats | src/crnn_net.rs:153-158 | `last_index` follows every timestep, so a blank between two equal symbols lets the second be emitted again |
| CrnnNet.AllBlankEmitsNothing | src/crnn_net.rs:153-157 | Timesteps that all peak at the blank emit nothing |
| CrnnNet.AllBlankLineIsEmpty | src/crnn_net.rs:131-162 | An output whose every row peaks at the blank decodes to the empty text with a NaN score |
| CrnnNet.EmittedEmptyIffSilent | src/crnn_net.rs:153-158 | Nothing is emitted exactly when no timestep passes the emit test |
| CrnnNet.NaNScoreExactlyWhenSilent | src/crnn_net.rs:131-162 | A decoded line's score is NaN exactly when no timestep emits, and then its text is empty |
| AngleNet.FirstMax | src/angle_net.rs:114-126 | The vote is the first position of the maximum, and its score is that maximum. With no values it is index 0 and score `f32::MIN` |
| AngleNet.ScoreToAngle | src/angle_net.rs:101-128 | The loop gives the first maximum over the first `angle_cols` values only |
| AngleNet.AngleOf | src/angle_net.rs:77-99 | A crop's vote fails exactly when its inference fails, with the same error; otherwise its index is 0 or 1 |
| AngleNet.Votes | src/angle_net.rs:55-59 | One vote per crop, in order, when every crop succeeds. Otherwise the error of the first failing crop |
| AngleNet.MajorityIndex | src/angle_net.rs:65-67 | The override index is 0 exactly when `2*sum < len`, and 1 otherwise |
| AngleNet.WithIndex | src/angle_net.rs:69-71 | The override sets every index and keeps every score and the count |
| AngleNet.AnglesOf | src/angle_net.rs:47-75 | With `do_angle` off: one default angle per crop. With it on: the votes, or the first error, under the majority override when `most_angle` is set. The length always equals the crop count |
| AngleNet.GetAngles | src/angle_net.rs:47-75 | The method gives exactly `AnglesOf` |
| AngleNet.ClassifyAll | src/angle_net.rs:55-59 | The push loop with `?` gives exactly `Votes` |
| AngleNet.SumIndices | src/angle_net.rs:65 | The sum of the voted indices |
| AngleNet.SetIndices | src/angle_net.rs:69-71 | The `iter_mut` loop gives exactly `WithIndex` |
| AngleNet.MostAngleNeedsDoAngle | src/angle_net.rs:64 | `most_angle` changes nothing unless `do_angle` is set |
| AngleNet.MajorityKeepsScores | src/angle_net.rs:64-71 | Under the override all indices agree and are 0 or 1, every score is its own crop's, and the count is kept |
| DbNet.Closed | src/db_net.rs:407-409 | The closed path is the points followed by the first point again |
| DbNet.SignedPolygonArea | src/db_net.rs:405-417 | The accumulator loop gives the shoelace sum over every edge, the closing edge included (`SignedArea`, an `EdgeSum` over the closed path) |
| DbNet.LengthOfPoints | src/db_net.rs:419-446 | The accumulator loop gives the sum of the edge lengths of the closed polygon (`Perimeter`), and 0 for no points |
| DbNet.ClosedSumRotate | src/db_net.rs:405-446 | Starting the closed polygon at its second point gives the same area and length sums |
| DbNet.InsertByX | src/db_net.rs:247-255 | Inserting into an x-sorted list keeps it sorted, adds one point and keeps every other |
| DbNet.SortByX | src/db_net.rs:246-255 | The sort gives a list of the same length, sorted by x |
| DbNet.SortByXPermutes | src/db_net.rs:246-255 | The sort only reorders the points (same multiset) |
| DbNet.OrderPair | src/db_net.rs:260-276 | A pair keeps its two points, with the smaller y first |
| DbNet.OrderCorners | src/db_net.rs:257-281 | Slots 0 and 3 hold the two smallest-x points and slots 1 and 2 the two largest-x points, with `slot0.y <= slot3.y` and `slot1.y <= slot2.y` |
| DbNet.GetMiniBox | src/db_net.rs:235-284 | Four corners with the x and y order above, and `min_edge_size` equal to the smaller side of the fitted rectangle |
| DbNet.MiniBoxPermutesCorners | src/db_net.rs:239-281 | The ordered corners are a permutation of the fitted rectangle's four corners |
| DbNet.Lowest | src/db_net.rs:288-310 | The running minimum started at `i32::MAX` is no greater than any coordinate |
| DbNet.Highest | src/db_net.rs:288-310 | The running maximum started at `i32::MIN` is no less than any coordinate |
| DbNet.LowestAttained | src/db_net.rs:288-310 | For `i32` coordinates, a non-empty contour's minimum is one of its coordinates |
| DbNet.HighestAttained | src/db_net.rs:288-310 | For `i32` coordinates, a non-empty contour's maximum is one of its coordinates |
| DbNet.ExtremesStep | src/db_net.rs:294-310 | Each point updates the four extremes to the min or max with its coordinates |
| DbNet.Extremes | src/db_net.rs:288-310 | The extremes loop gives the minimum and maximum x and y of the contour |
| DbNet.TranslatePoints | src/db_net.rs:334-337 | The push loop gives exactly the shifted contour |
| DbNet.GetScore | src/db_net.rs:286-357 | The score is 0 for an empty region. Otherwise it is the masked mean over the clamped region of interest, with the contour shifted into it: the value `ScoreOf` |
| DbNet.RoiInsideMap | src/db_net.rs:312-325 | For a non-empty contour on a non-empty map, the region lies inside the map and is at least one pixel wide and high |
| DbNet.RoiIsTightBox | src/db_net.rs:288-337 | For a contour inside the map, the region is its tight bounding box. The shifted points lie inside it, and some point touches its left edge and its top edge |
| DbNet.UnclipDistance | src/db_net.rs:379-381 | The distance is `|area| * ratio / perimeter`, with no finite value exactly when the perimeter is 0 |
| DbNet.CastRing | src/db_net.rs:397-400 | Every ring point is cast to `i32` coordinates, in order |
| DbNet.Unclip | src/db_net.rs:359-403 | Empty when both fitted sides are below 1.001 or when the offset has no solution. Otherwise the first solution's exterior, cast to integers |
| DbNet.RectangleUnclipDistance | src/db_net.rs:379-381 | For a `w` x `h` rectangle: area `-(w*h)`, perimeter `2(w+h)`, and a distance `d` with `d * 2(w+h) == w*h*ratio` |
| DbNet.ToSource | src/db_net.rs:214-218 | A corner maps into `[0, src_width] x [0, src_height]`. Each coordinate is the truncated quotient `(v / scale) as i32` when that is in range, 0 when it is negative, and the source side when it is above it (a zero scale included) |
| DbNet.MapToSource | src/db_net.rs:212-221 | Every corner is mapped, in order |
| DbNet.PointsToSource | src/db_net.rs:212-221 | The push loop gives exactly the mapped corners |
| DbNet.ContourBox | src/db_net.rs:179-229 | A contour yields a box only if it has more than two points. Every box it yields has four corners inside the source image and a score of at least the threshold |
| DbNet.ContourToBox | src/db_net.rs:180-228 | The loop body with its `continue` gates gives exactly `ContourBox` |
| DbNet.ContourBoxes | src/db_net.rs:179-229 | One outcome per contour |
| DbNet.KeptBoxes | src/db_net.rs:179-231 | The boxes of the passing contours, last contour first, never more than the contours |
| DbNet.GetTextBoxesCore | src/db_net.rs:102-233 | The tensor extraction error is passed on. Otherwise the contour loop and the `reverse` give exactly the kept boxes (`TextBoxesOf`) |
| DbNet.ContourBoxGates | src/db_net.rs:181-210 | A contour with more than two points yields a box exactly when it passes all four gates: side at least 3, score not below the threshold, non-empty unclip, re-fitted side at least 5 |
| DbNet.TextBoxesAreGood | src/db_net.rs:179-231 | Every returned box has four corners inside the source image and a passing score |
| DbNet.AllKept | src/db_net.rs:179-231 | When every contour yields a box, the output is all of them in reverse contour order |
| DbNet.KeptBoxesKeepPassing | src/db_net.rs:179-231 | The box of every contour that passes all gates is returned |
| DbNet.KeptBoxesInReverseOrder | src/db_net.rs:179-231 | Of two passing contours, the later one's box comes first in the output |
| DbNet.BoxKeepsCornerOrder | src/db_net.rs:212-218 | With a positive scale, an emitted box keeps its left pair (slots 0 and 3) at x no greater than its right pair (slots 1 and 2) |
| OcrUtils.SampleIndexInRange | src/ocr_utils.rs:27-31 | Every sample index the triple loop reads is below `rows*cols*channels` |
| OcrUtils.SampleIndexDecodes | src/ocr_utils.rs:30 | The interleaved index determines its channel, column and row |
| OcrUtils.SampleIndexInjective | src/ocr_utils.rs:27-34 | Distinct cells read distinct samples, so each output cell is written from its own sample |
| OcrUtils.SubstractMeanNormalize | src/ocr_utils.rs:13-41 | The output has shape `(channels, rows, cols)`, and cell `[ch,r,c]` is `data[r*cols*channels + c*channels + ch] * norm[ch] - mean[ch]*norm[ch]` (`Normalized`) |
| OcrUtils.ByteNormalizesToUnitRange | src/angle_net.rs:8-9 | With mean 127.5 and norm 1/127.5, a byte normalises into `[-1, 1]`, and 0 and 255 hit the ends |
| OcrUtils.NormalizedBytesInUnitRange | src/ocr_utils.rs:30-33 | Under the classifier's and recogniser's constants (src/angle_net.rs:8-9, src/crnn_net.rs:16-17), every tensor cell of a byte image with at most three channels lies in `[-1, 1]`; a 0 sample gives -1 and a 255 sample gives 1 |
| OcrUtils.MakePadding | src/ocr_utils.rs:43-61 | A non-positive padding returns the image unchanged. Otherwise the image gets a border of that width |
| OcrUtils.GetThickness | src/ocr_utils.rs:63-66 | The thickness is at least 2 and grows by one for every full 1000 pixels of the shorter side |
| OcrUtils.Xs | src/ocr_utils.rs:107 | The x coordinates, in order |
| OcrUtils.Ys | src/ocr_utils.rs:108 | The y coordinates, in order |
| OcrUtils.SeqMin | src/ocr_utils.rs:109-111 | `min().unwrap()` is a lower bound that some element attains |
| OcrUtils.SeqMax | src/ocr_utils.rs:110-112 | `max().unwrap()` is an upper bound that some element attains |
| OcrUtils.CropRect | src/ocr_utils.rs:107-115 | The rectangle has non-negative sides and contains every box point |
| OcrUtils.ShiftPoints | src/ocr_utils.rs:119-122 | The in-place update loop gives exactly the shifted points |
| OcrUtils.ShiftedIntoCrop | src/ocr_utils.rs:107-122 | After the shift, every point lies in `[0, width] x [0, height]` of the crop, and some point touches each of the four edges (the minimum x and y become 0) |
| OcrUtils.Corners2f | src/ocr_utils.rs:133-144 | The first four points as float corners, in order |
| OcrUtils.EdgeLength | src/ocr_utils.rs:125-130 | The side length `sqrt(dx^2 + dy^2) as i32` stays within the `i32` bounds |
| OcrUtils.EdgeLengthSymmetric | src/ocr_utils.rs:125-130 | The side length does not depend on which corner is read first |
| OcrUtils.EdgeLengthOfExactSide | src/ocr_utils.rs:125-130 | With an exact square root, a side whose squared length is `n*n` measures `n` |
| OcrUtils.DstCorners | src/ocr_utils.rs:146-155 | The destination corners are `(0,0), (w,0), (w,h), (0,h)` in that order |
| OcrUtils.IsTallStrip | src/ocr_utils.rs:177 | `rows >= cols*3/2` with integer division holds exactly when `2*rows + 1 >= 3*cols` |
| OcrUtils.Upright | src/ocr_utils.rs:177-184 | A tall strip is transposed and flipped; anything else is returned as is |
| OcrUtils.GetRotateCropImage | src/ocr_utils.rs:103-185 | The method gives exactly the crop of `RotateCrop` |
| OcrUtils.CropIsUpright | src/ocr_utils.rs:103-185 | The crop is the warped region, transposed and flipped exactly when the integer tall-strip condition holds |
| OcrUtils.GetPartImages | src/ocr_utils.rs:96-101 | Exactly one crop per box, in box order |
| OcrLite.ResizeTarget | src/ocr_lite.rs:52-59 | Before the padding, the target is the longer side, lowered to `max_side_len` when that is set and smaller. A zero `max_side_len` gives the longer side plus `2*padding` |
| OcrLite.DetectorSide | src/ocr_lite.rs:52-59 | The branch on locals gives exactly `ResizeTarget` |
| OcrLite.RotatePartsAsWritten | src/ocr_lite.rs:127-137 | The reverse/pop loop pushes `min(angles, crops)` images. Image `k` is crop `k`, turned exactly when `angles[n-1-k]` has index 1: the value `PairWithAngles` |
| OcrLite.PopLoopSwapsVotes | src/ocr_lite.rs:127-157 | With votes `[1, 0]` on two crops, the loop turns the second crop instead of the first, while the assembled blocks report index 1 for block 0 and index 0 for block 1, whatever the boxes and lines |
| OcrLite.RotateParts | src/ocr_lite.rs:127-137 | The corrected loop: image `k` is crop `k`, turned exactly when its own vote `angles[k]` has index 1: the value `PairWithAnglesByIndex` |
| OcrLite.PairWithAnglesReadsVotesBackwards | src/ocr_lite.rs:127-137 | With one vote per crop, the loop as written (`PairWithAngles`) is the own-vote pairing (`PairWithAnglesByIndex`) applied to the reversed votes |
| OcrLite.PairingsAgreeOnPalindromes | src/ocr_lite.rs:129-137 | The two pairings agree when the votes read the same both ways |
| OcrLite.PairingsAgreeOnlyOnPalindromes | src/ocr_lite.rs:129-137 | Conversely, with votes 0 or 1 and a rotation that moves every crop, the two pairings agree only when the votes read the same both ways |
| OcrLite.Unpad | src/ocr_lite.rs:147-150 | A corner at or below the padding saturates to 0. Otherwise, within `u32`, the padding is subtracted exactly |
| OcrLite.UnpadUndoesPadding | src/ocr_lite.rs:147-150 | Taking the padding off a padded `u32` corner gives it back |
| OcrLite.UnpadAll | src/ocr_lite.rs:144-151 | Every corner is unpadded, in order |
| OcrLite.AssembleBlocks | src/ocr_lite.rs:141-158 | One block per text line. Block `i` takes box `i` unpadded, its score, angle `i` and line `i`: the value `Blocks`, one `BlockOf` per line |
| OcrLite.DetectOnce | src/ocr_lite.rs:102-161 | The pipeline of one pass gives exactly `DetectOnceOf`: detect, crop, vote, turn, recognise, assemble, each error passed on |
| OcrLite.CropsReadInOrder | src/ocr_lite.rs:139-157 | With the corrected pairing, block `k`'s text is the recogniser's reading of crop `k`, turned exactly when the block reports index 1 |
| OcrLite.BlocksReportTheirCrops | src/ocr_lite.rs:113-160 | Every block carries its own box (four corners, unpadded) and score. Its text and score are the recogniser's reading of that box's crop, turned exactly when the block reports index 1 |
| OcrLite.Detect | src/ocr_lite.rs:41-75 | Resize target, padding, scale from the padded image, then one pass: the value `DetectOf` |
| OcrLite.ScaleUsesPaddedImage | src/ocr_lite.rs:61-63 | The scale records the padded image's sides, and with no padding the image's own |

## Left out

- **Inference.** The ONNX sessions (every `init_model` and every inference call) are not modelled. Neither are the resize and normalisation that `get_text_boxes`, `get_angle` and `get_text_line` apply before inference. Each network is a function parameter (`OcrLite.Nets`) giving its extracted output or an error. A missing session (`SessionNotInitialized`) is one of those errors.
- **OpenCV and geo-clipper primitives** are opaque fields of `Vision.Cv` with no properties: `resize`, `threshold`, `dilate`, `find_contours`, `min_area_rect`/`points`, `fill_poly` with `mean`, `offset`, `roi`, `get_perspective_transform` with `warp_perspective`, `transpose`/`flip`, and `copy_make_border`. Their own error returns (`?` on OpenCV calls) and the panics of their `unwrap`/`expect` (an out-of-bounds `roi`, for one) are not modelled.
- **f32→u8 binarisation** in `get_text_boxes_core` (the `pixel * 255.0 as u8` buffer) is folded into `Cv.findContours`.
- **Floating point.** Arithmetic is exact on reals, with no rounding, infinities or IEEE rules. Only the NaN of an empty line's score is represented (`None`); `sqrt` is a parameter.
- **ScaleParams.GetScaleParam:** requires both image sides to be positive. The f32 infinity and NaN an empty image produces are not modelled, and the product `side * (dst / long)` is taken as the exact quotient `side * dst / long`.
- **Integer overflow.** `resize += 2 * padding` (u32) and the `pow(2)` and index arithmetic of `get_rotate_crop_image` (i32) are unbounded integers in the model.
- **DbNet.Unclip:** requires a non-empty box. `get_text_boxes_core` always passes the four fitted corners.
- **DbNet.SortByX:** the std `sort_by` is modelled by its value, as a stable insertion sort whose output is sorted and a permutation. The comparator calls equal-x points equal, and a stable sort keeps them in input order.
- **CrnnNet.ScoreToTextLine:** requires every row start to lie inside the data, which is where the source's slice would panic.
- **OcrUtils.SubstractMeanNormalize:** requires the buffer to hold every sample, because the source's unchecked raw read is undefined outside it. The leading batch dimension of the `Array4` is dropped, so the array is `array3`.
- **OcrUtils.GetRotateCropImage:** requires at least four points, because the source indexes `points[3]`.
- **OcrLite.Detect:** requires a non-empty padded image and recogniser outputs whose rows lie inside their data (`OcrLite.Shaped`). These are where the source would divide by zero or panic. `make_padding` is applied with `?` in `detect` although it returns a plain `Mat`; the model treats padding as total.
- **OcrLite.DetectOnce:** uses the corrected pairing `RotateParts` (see Findings); the loop as written is `RotatePartsAsWritten`.
- **Timing and extra result fields.** Timing fields and `char_scores` are never set by the core. As in the source version of `ocr_lite.rs`, `TextLine` and `TextBlock` carry a text score.
- **File and image I/O.** Reading the key file (`get_keys` receives its lines), `image::open`, `detect_from_path` and `save_pred_data_to_image`.
- **Drawing and formatting.** `draw_text_box`/`draw_text_boxes` (the callers of `get_thickness`) and every `Display` impl.
- **Unused helpers.** `mat_rotate_clock_wise_90` is not modelled; it is never called by the core. `mat_rotate_clock_wise_180` is `Cv.rotate180`.
- **Error messages.** `ocr_error.rs` has the messages of `ImageError` and `SessionNotInitialized` swapped. The model carries the variants only, so the swap has no counterpart.
- **Not part of this model.** The CLI (`main.rs`), the tests in `lib.rs` and `init_models`.

## Findings

| source | as written | input that shows it | evidently intended | confidence | as-written member | corrected member |
|---|---|---|---|---|---|---|
| src/ocr_lite.rs:127-157 | The reverse/pop loop turns crop `k` by the vote `angles[n-1-k]`, while block `k` reports `angles[k]` as its orientation | Two crops with votes `[Angle(1, s0), Angle(0, s1)]`: the second crop is turned and the first is not, yet block 0 reports index 1 | Crop `k` is turned exactly when its own vote says so, and block `k` reports that vote | not executed | OcrLite.RotatePartsAsWritten, OcrLite.PopLoopSwapsVotes | OcrLite.RotateParts, OcrLite.BlocksReportTheirCrops |
