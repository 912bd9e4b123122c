/**
 * Orientation voting (src/angle_net.rs). The classifier scores each crop
 * over `ANGLE_COLS` classes; the vote is the first position of the maximum
 * among the first `ANGLE_COLS` scores. Optionally the whole batch is then
 * forced to its majority orientation.
 */
module AngleNet {
  import opened Common
  import opened OcrResults

  /** Number of orientation classes read from each output. */
  const ANGLE_COLS: nat := 2

  /**
   * The loop of lines 118-123 over a prefix of the scores: position 0 is
   * always taken, a later position only on a strictly greater value; with no
   * values the vote stays at index 0 with score f32::MIN.
   */
  function FirstMax(vals: seq<real>): (a: Angle)
    ensures |vals| == 0 ==> a == Angle(0, F32_MIN)
    ensures |vals| > 0 ==> 0 <= a.index < |vals| && vals[a.index] == a.score
    ensures forall j :: 0 <= j < |vals| ==> vals[j] <= a.score
    ensures forall j :: 0 <= j < a.index && j < |vals| ==> vals[j] < a.score
  {
    if |vals| == 0 then Angle(0, F32_MIN)
    else
      var a := FirstMax(vals[..|vals| - 1]);
      if |vals| - 1 == 0 || vals[|vals| - 1] > a.score then Angle(|vals| - 1, vals[|vals| - 1]) else a
  }

  /** `score_to_angle` (lines 101-128) on the extracted output data. */
  method ScoreToAngle(srcData: seq<real>, angleCols: nat) returns (angle: Angle)
    ensures angle == FirstMax(srcData[..Min(|srcData|, angleCols)])
  {
    var maxValue := F32_MIN;
    var angleIndex := 0;
    var n := Min(|srcData|, angleCols);
    for i := 0 to n
      invariant Angle(angleIndex, maxValue) == FirstMax(srcData[..i])
    {
      assert srcData[..i + 1][..i] == srcData[..i];
      if i == 0 || srcData[i] > maxValue {
        maxValue := srcData[i];
        angleIndex := i;
      }
    }
    assert srcData[..n] == srcData[..Min(|srcData|, angleCols)];
    angle := Angle(angleIndex, maxValue);
  }

  /**
   * `get_angle`: `classify` stands for the resize, the normalisation and the
   * inference, and gives the output data or the error.
   */
  function AngleOf(out: Result<seq<real>>): (r: Result<Angle>)
    ensures r.Ok? <==> out.Ok?
    ensures r.Err? ==> r.error == out.error
    ensures r.Ok? ==> 0 <= r.value.index < ANGLE_COLS
  {
    if out.Err? then Err(out.error) else Ok(FirstMax(out.value[..Min(|out.value|, ANGLE_COLS)]))
  }

  /** The votes of the `do_angle` loop (lines 56-59): the first failing crop aborts. */
  function Votes(imgs: seq<Mat>, classify: Mat -> Result<seq<real>>): (r: Result<seq<Angle>>)
    ensures r.Ok? <==> forall k :: 0 <= k < |imgs| ==> classify(imgs[k]).Ok?
    ensures r.Ok? ==> |r.value| == |imgs| &&
                      forall k :: 0 <= k < |imgs| ==> Ok(r.value[k]) == AngleOf(classify(imgs[k]))
    ensures r.Err? ==> exists k :: 0 <= k < |imgs| && classify(imgs[k]).Err? && r.error == classify(imgs[k]).error
                                && forall j :: 0 <= j < k ==> classify(imgs[j]).Ok?
  {
    var outs := seq(|imgs|, k requires 0 <= k < |imgs| => AngleOf(classify(imgs[k])));
    assert forall k :: 0 <= k < |imgs| ==> (outs[k].Ok? <==> classify(imgs[k]).Ok?);
    Collect(outs)
  }

  function IndexSum(angles: seq<Angle>): int
  {
    if angles == [] then 0 else IndexSum(angles[..|angles| - 1]) + angles[|angles| - 1].index
  }

  /** Lines 65-67: 0 when the index sum is below half the count (compared as floats), else 1. */
  function MajorityIndex(angles: seq<Angle>): (m: int)
    ensures m == 0 <==> 2 * IndexSum(angles) < |angles|
    ensures m == 0 || m == 1
  {
    if (IndexSum(angles) as real) < (|angles| as real) / 2.0 then 0 else 1
  }

  /** Lines 69-71: every vote gets the same index; its score stays. */
  function WithIndex(angles: seq<Angle>, index: int): (r: seq<Angle>)
    ensures |r| == |angles|
    ensures forall k :: 0 <= k < |r| ==> r[k] == Angle(index, angles[k].score)
  {
    seq(|angles|, k requires 0 <= k < |angles| => Angle(index, angles[k].score))
  }

  /** The value of `get_angles`. */
  function AnglesOf(imgs: seq<Mat>, doAngle: bool, mostAngle: bool, classify: Mat -> Result<seq<real>>)
    : (r: Result<seq<Angle>>)
    ensures r.Ok? ==> |r.value| == |imgs|
    ensures !doAngle ==> r.Ok? && forall k :: 0 <= k < |imgs| ==> r.value[k] == DefaultAngle
    ensures doAngle ==> (r.Ok? <==> Votes(imgs, classify).Ok?)
    ensures doAngle && r.Err? ==> r == Votes(imgs, classify)
    ensures doAngle && !mostAngle ==> r == Votes(imgs, classify)
    ensures doAngle && mostAngle && r.Ok? ==>
              var votes := Votes(imgs, classify).value;
              forall k :: 0 <= k < |imgs| ==> r.value[k] == Angle(MajorityIndex(votes), votes[k].score)
  {
    if !doAngle then Ok(seq(|imgs|, k => DefaultAngle))
    else
      var votes := Votes(imgs, classify);
      if votes.Err? || !mostAngle then votes
      else Ok(WithIndex(votes.value, MajorityIndex(votes.value)))
  }

  /** `get_angles` (lines 47-75). */
  method GetAngles(partImgs: seq<Mat>, doAngle: bool, mostAngle: bool, classify: Mat -> Result<seq<real>>)
    returns (r: Result<seq<Angle>>)
    ensures r == AnglesOf(partImgs, doAngle, mostAngle, classify)
  {
    var angles: seq<Angle>;
    if doAngle {
      var votes := ClassifyAll(partImgs, classify);
      if votes.Err? {
        return votes;
      }
      angles := votes.value;
    } else {
      angles := seq(|partImgs|, _ => DefaultAngle);
    }
    if doAngle && mostAngle {
      var sum := SumIndices(angles);
      var halfPercent := (|angles| as real) / 2.0;
      var mostAngleIndex := if (sum as real) < halfPercent then 0 else 1;
      angles := SetIndices(angles, mostAngleIndex);
    }
    return Ok(angles);
  }

  /** Lines 56-59: one vote per crop, in order; the first failing crop aborts. */
  method ClassifyAll(partImgs: seq<Mat>, classify: Mat -> Result<seq<real>>) returns (r: Result<seq<Angle>>)
    ensures r == Votes(partImgs, classify)
  {
    var angles: seq<Angle> := [];
    ghost var outs := seq(|partImgs|, k requires 0 <= k < |partImgs| => AngleOf(classify(partImgs[k])));
    for k := 0 to |partImgs|
      invariant |angles| == k
      invariant forall j :: 0 <= j < k ==> outs[j].Ok? && angles[j] == outs[j].value
    {
      var out := classify(partImgs[k]);
      if out.Err? {
        CollectFirstErr(outs, k);
        return Err(out.error);
      }
      var angle := ScoreToAngle(out.value, ANGLE_COLS);
      angles := angles + [angle];
    }
    assert angles == Votes(partImgs, classify).value;
    return Ok(angles);
  }

  /** Lines 65-66: the sum of the voted indices. */
  method SumIndices(angles: seq<Angle>) returns (sum: int)
    ensures sum == IndexSum(angles)
  {
    sum := 0;
    for k := 0 to |angles|
      invariant sum == IndexSum(angles[..k])
    {
      assert angles[..k + 1][..k] == angles[..k];
      sum := sum + angles[k].index;
    }
    assert angles[..|angles|] == angles;
  }

  /** Lines 69-71: the `iter_mut` loop that overwrites every index. */
  method SetIndices(votes: seq<Angle>, mostAngleIndex: int) returns (angles: seq<Angle>)
    ensures angles == WithIndex(votes, mostAngleIndex)
  {
    angles := votes;
    for k := 0 to |angles|
      invariant |angles| == |votes|
      invariant forall j :: 0 <= j < k ==> angles[j] == Angle(mostAngleIndex, votes[j].score)
      invariant forall j :: k <= j < |angles| ==> angles[j] == votes[j]
    {
      angles := angles[k := angles[k].(index := mostAngleIndex)];
    }
  }

  /** `most_angle` changes nothing unless `do_angle` is set. */
  lemma MostAngleNeedsDoAngle(imgs: seq<Mat>, classify: Mat -> Result<seq<real>>)
    ensures AnglesOf(imgs, false, true, classify) == AnglesOf(imgs, false, false, classify)
  {
  }

  /** Under the override every vote agrees, each score is its crop's own, and the count is kept. */
  lemma MajorityKeepsScores(imgs: seq<Mat>, classify: Mat -> Result<seq<real>>)
    requires forall k :: 0 <= k < |imgs| ==> classify(imgs[k]).Ok?
    ensures var r := AnglesOf(imgs, true, true, classify);
            r.Ok? && |r.value| == |imgs| &&
            forall k :: 0 <= k < |imgs| ==>
              r.value[k].index == r.value[0].index &&
              (r.value[k].index == 0 || r.value[k].index == 1) &&
              Ok(r.value[k].score) == ScoreOf(AngleOf(classify(imgs[k])))
  {
  }

  function ScoreOf(a: Result<Angle>): Result<real>
  {
    if a.Err? then Err(a.error) else Ok(a.value.score)
  }
}
