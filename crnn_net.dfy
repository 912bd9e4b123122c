/**
 * Greedy decoding of the recogniser's output (src/crnn_net.rs). The model
 * gives a `height` x `width` score matrix (timesteps x classes); each row is
 * reduced to its first maximum, and a symbol is emitted for a row whose
 * maximum is not the blank, is a valid vocabulary index and differs from the
 * previous row's maximum. The line's confidence is the mean of the emitted
 * maxima.
 */
module CrnnNet {
  import opened Common
  import opened OcrResults

  /**
   * `get_keys`: the vocabulary is the key file's lines, framed by the blank
   * `#` at index 0 and the space at the last index. Reading the file is I/O,
   * so the lines are the parameter.
   */
  method GetKeys(lines: seq<string>) returns (keys: seq<string>)
    ensures |keys| == |lines| + 2
    ensures keys[0] == "#" && keys[|keys| - 1] == " "
    ensures forall k :: 0 <= k < |lines| ==> keys[k + 1] == lines[k]
  {
    keys := ["#"];
    for i := 0 to |lines|
      invariant keys == ["#"] + lines[..i]
    {
      keys := keys + [lines[i]];
    }
    keys := keys + [" "];
  }

  /** The result of the argmax fold over one row. */
  datatype RowMax = RowMax(index: nat, value: real)

  /**
   * Lines 141-151: the fold starts from `(0, f32::MIN)` and moves to a later
   * position only on a strictly greater value, so it finds the first
   * position of the maximum (and stays at 0 when no value beats f32::MIN).
   */
  function RowArgmax(row: seq<real>): (m: RowMax)
    ensures m.value >= F32_MIN
    ensures forall j :: 0 <= j < |row| ==> row[j] <= m.value
    ensures m.value == F32_MIN ==> m.index == 0
    ensures m.value > F32_MIN ==>
              m.index < |row| && row[m.index] == m.value && forall j :: 0 <= j < m.index ==> row[j] < m.value
  {
    if |row| == 0 then RowMax(0, F32_MIN)
    else
      var m := RowArgmax(row[..|row| - 1]);
      if row[|row| - 1] > m.value then RowMax(|row| - 1, row[|row| - 1]) else m
  }

  /** Every row that `score_to_text_line` slices starts inside the data (else the slice panics). */
  predicate RowsInBounds(data: seq<real>, height: nat, width: nat)
  {
    height == 0 || (height - 1) * width <= |data|
  }

  lemma RowStartInBounds(data: seq<real>, height: nat, width: nat, i: nat)
    requires RowsInBounds(data, height, width) && i < height
    ensures i * width <= |data|
  {
    MulMonotone(i, height - 1, width);
  }

  lemma RowsInBoundsPrefix(data: seq<real>, n: nat, width: nat)
    requires RowsInBounds(data, n, width) && n > 0
    ensures RowsInBounds(data, n - 1, width)
  {
    if n > 1 {
      MulMonotone(n - 2, n - 1, width);
    }
  }

  /** Lines 137-139: row `i` is `data[i*width .. min((i+1)*width, len)]`. */
  function Row(data: seq<real>, i: nat, width: nat): (r: seq<real>)
    requires i * width <= |data|
    ensures |r| <= width && i * width + |r| <= |data|
    ensures forall j :: 0 <= j < |r| ==> r[j] == data[i * width + j]
  {
    assert (i + 1) * width == i * width + width;
    data[i * width .. Min((i + 1) * width, |data|)]
  }

  /** The argmax of each of the first `n` rows. */
  function RowMaxes(data: seq<real>, n: nat, width: nat): (rows: seq<RowMax>)
    requires RowsInBounds(data, n, width)
    ensures |rows| == n
  {
    if n == 0 then []
    else
      RowsInBoundsPrefix(data, n, width);
      RowStartInBounds(data, n, width, n - 1);
      RowMaxes(data, n - 1, width) + [RowArgmax(Row(data, n - 1, width))]
  }

  lemma {:induction false} RowMaxesAt(data: seq<real>, n: nat, width: nat, i: nat)
    requires RowsInBounds(data, n, width) && i < n
    ensures i * width <= |data|
    ensures RowMaxes(data, n, width)[i] == RowArgmax(Row(data, i, width))
  {
    RowStartInBounds(data, n, width, i);
    if i < n - 1 {
      RowsInBoundsPrefix(data, n, width);
      RowMaxesAt(data, n - 1, width, i);
    }
  }

  /**
   * Line 153: timestep `i` emits when its maximum is not the blank, indexes
   * the vocabulary, and (after the first timestep) differs from the previous
   * timestep's maximum. `last_index` is updated on every timestep (line 158),
   * so "previous" means the row just before, emitted or not.
   */
  predicate Emits(rows: seq<RowMax>, i: nat, keyCount: nat)
    requires i < |rows|
  {
    rows[i].index > 0 && rows[i].index < keyCount && !(i > 0 && rows[i].index == rows[i - 1].index)
  }

  /** The maxima emitted over the first `n` timesteps, in order. */
  function Emitted(rows: seq<RowMax>, n: nat, keyCount: nat): (es: seq<RowMax>)
    requires n <= |rows|
    ensures |es| <= n
    ensures forall k :: 0 <= k < |es| ==> 0 < es[k].index < keyCount
  {
    if n == 0 then []
    else Emitted(rows, n - 1, keyCount) + (if Emits(rows, n - 1, keyCount) then [rows[n - 1]] else [])
  }

  /** The emitted symbols, concatenated. */
  function Spell(keys: seq<string>, es: seq<RowMax>): string
    requires forall k :: 0 <= k < |es| ==> es[k].index < |keys|
  {
    if es == [] then "" else Spell(keys, es[..|es| - 1]) + keys[es[|es| - 1].index]
  }

  function SumValues(es: seq<RowMax>): real
  {
    if es == [] then 0.0 else SumValues(es[..|es| - 1]) + es[|es| - 1].value
  }

  /** `sum / count as f32`; with nothing emitted this is 0.0 / 0.0, a NaN (`None`). */
  function MeanScore(sum: real, count: nat): (r: Option<real>)
    ensures r.None? <==> count == 0
    ensures r.Some? ==> r.value * count as real == sum
  {
    if count == 0 then None else Some(sum / count as real)
  }

  /** The recogniser's output tensor: its data and its two trailing dimensions. */
  datatype RecOutput = RecOutput(data: seq<real>, height: nat, width: nat)

  predicate WellShaped(o: RecOutput)
  {
    RowsInBounds(o.data, o.height, o.width)
  }

  /** The line `score_to_text_line` builds from an output tensor. */
  function DecodeLine(o: RecOutput, keys: seq<string>): (line: TextLine)
    requires WellShaped(o)
  {
    var es := Emitted(RowMaxes(o.data, o.height, o.width), o.height, |keys|);
    TextLine(Spell(keys, es), MeanScore(SumValues(es), |es|))
  }

  /** `score_to_text_line` (lines 125-163). */
  method ScoreToTextLine(outputData: seq<real>, height: nat, width: nat, keys: seq<string>) returns (line: TextLine)
    requires RowsInBounds(outputData, height, width)
    ensures line == DecodeLine(RecOutput(outputData, height, width), keys)
  {
    ghost var rows := RowMaxes(outputData, height, width);
    var text: string := "";
    var lastIndex: nat := 0;
    var textScoreSum: real := 0.0;
    var textScoreCount: nat := 0;
    for i := 0 to height
      invariant text == Spell(keys, Emitted(rows, i, |keys|))
      invariant textScoreSum == SumValues(Emitted(rows, i, |keys|))
      invariant textScoreCount == |Emitted(rows, i, |keys|)|
      invariant i > 0 ==> lastIndex == rows[i - 1].index
    {
      text, textScoreSum, textScoreCount, lastIndex :=
        DecodeStep(outputData, height, width, keys, i, text, textScoreSum, textScoreCount, lastIndex);
    }
    line := TextLine(text, MeanScore(textScoreSum, textScoreCount));
  }

  /**
   * Lines 137-158, one timestep: append the key and the maximum when the
   * timestep emits, and remember its index as `last_index`.
   */
  method DecodeStep(outputData: seq<real>, height: nat, width: nat, keys: seq<string>, i: nat,
                    text: string, textScoreSum: real, textScoreCount: nat, lastIndex: nat)
    returns (text': string, textScoreSum': real, textScoreCount': nat, lastIndex': nat)
    requires RowsInBounds(outputData, height, width) && i < height
    requires var rows := RowMaxes(outputData, height, width);
             var es := Emitted(rows, i, |keys|);
             text == Spell(keys, es) && textScoreSum == SumValues(es) && textScoreCount == |es| &&
             (i > 0 ==> lastIndex == rows[i - 1].index)
    ensures var rows := RowMaxes(outputData, height, width);
            var es := Emitted(rows, i + 1, |keys|);
            text' == Spell(keys, es) && textScoreSum' == SumValues(es) && textScoreCount' == |es| &&
            lastIndex' == rows[i].index
  {
    ghost var rows := RowMaxes(outputData, height, width);
    var m := TimestepMax(outputData, height, width, i);
    if m.index > 0 && m.index < |keys| && !(i > 0 && m.index == lastIndex) {
      assert Emits(rows, i, |keys|);
      EmitStep(keys, rows, i);
      text', textScoreSum', textScoreCount' := text + keys[m.index], textScoreSum + m.value, textScoreCount + 1;
    } else {
      assert !Emits(rows, i, |keys|);
      SkipStep(rows, i, |keys|);
      text', textScoreSum', textScoreCount' := text, textScoreSum, textScoreCount;
    }
    lastIndex' := m.index;
  }


  /** Lines 137-148: the maximum of timestep `i`, over the row slice clipped to the data. */
  method TimestepMax(outputData: seq<real>, height: nat, width: nat, i: nat) returns (m: RowMax)
    requires RowsInBounds(outputData, height, width) && i < height
    ensures m == RowMaxes(outputData, height, width)[i]
  {
    RowMaxesAt(outputData, height, width, i);
    var start := i * width;
    var stop := (i + 1) * width;
    assert stop == start + width;
    MulMonotone(0, i, width);
    var slice := outputData[start .. Min(stop, |outputData|)];
    assert slice == Row(outputData, i, width);
    m := RowArgmax(slice);
  }

  lemma EmitStep(keys: seq<string>, rows: seq<RowMax>, i: nat)
    requires i < |rows| && Emits(rows, i, |keys|)
    ensures var es := Emitted(rows, i, |keys|);
            Emitted(rows, i + 1, |keys|) == es + [rows[i]] &&
            Spell(keys, es + [rows[i]]) == Spell(keys, es) + keys[rows[i].index] &&
            SumValues(es + [rows[i]]) == SumValues(es) + rows[i].value
  {
    var es := Emitted(rows, i, |keys|);
    assert (es + [rows[i]])[..|es|] == es;
  }

  /** A timestep that does not emit leaves the emitted maxima as they were. */
  lemma SkipStep(rows: seq<RowMax>, i: nat, keyCount: nat)
    requires i < |rows| && !Emits(rows, i, keyCount)
    ensures Emitted(rows, i + 1, keyCount) == Emitted(rows, i, keyCount)
  {
    assert Emitted(rows, i, keyCount) + [] == Emitted(rows, i, keyCount);
  }

  /** What reading one image through the recogniser gives: its line, or the inference error. */
  function RecognizeLine(o: Result<RecOutput>, keys: seq<string>): Result<TextLine>
    requires RecognizerShaped(o)
  {
    if o.Err? then Err(o.error) else Ok(DecodeLine(o.value, keys))
  }

  predicate RecognizerShaped(o: Result<RecOutput>)
  {
    o.Ok? ==> WellShaped(o.value)
  }

  /**
   * The value of `get_text_lines`: one line per image, in image order; the
   * first image whose inference fails aborts the whole call with its error.
   */
  function TextLinesOf(imgs: seq<Mat>, keys: seq<string>, recognize: Mat -> Result<RecOutput>): (r: Result<seq<TextLine>>)
    requires forall k :: 0 <= k < |imgs| ==> RecognizerShaped(recognize(imgs[k]))
    ensures r.Ok? <==> forall k :: 0 <= k < |imgs| ==> recognize(imgs[k]).Ok?
    ensures r.Ok? ==> |r.value| == |imgs| &&
                      forall k :: 0 <= k < |imgs| ==> var o := recognize(imgs[k]);
                        RecognizerShaped(o) && o.Ok? && r.value[k] == DecodeLine(o.value, keys)
    ensures r.Err? ==> exists k :: 0 <= k < |imgs| && recognize(imgs[k]).Err? && r.error == recognize(imgs[k]).error
                                && forall j :: 0 <= j < k ==> recognize(imgs[j]).Ok?
  {
    var outs := seq(|imgs|, k requires 0 <= k < |imgs| => RecognizeLine(recognize(imgs[k]), keys));
    assert forall k :: 0 <= k < |imgs| ==> (outs[k].Ok? <==> recognize(imgs[k]).Ok?);
    Collect(outs)
  }

  /**
   * `get_text_lines` (lines 78-87). `recognize` stands for `get_text_line`'s
   * resize, normalisation and inference: it gives the output tensor or the
   * error (`SessionNotInitialized` or an inference error).
   */
  method GetTextLines(partImgs: seq<Mat>, keys: seq<string>, recognize: Mat -> Result<RecOutput>)
    returns (r: Result<seq<TextLine>>)
    requires forall k :: 0 <= k < |partImgs| ==> RecognizerShaped(recognize(partImgs[k]))
    ensures r == TextLinesOf(partImgs, keys, recognize)
  {
    ghost var outs := seq(|partImgs|, k requires 0 <= k < |partImgs| => RecognizeLine(recognize(partImgs[k]), keys));
    var textLines: seq<TextLine> := [];
    for k := 0 to |partImgs|
      invariant |textLines| == k
      invariant forall j :: 0 <= j < k ==> outs[j].Ok? && textLines[j] == outs[j].value
    {
      var out := recognize(partImgs[k]);
      if out.Err? {
        CollectFirstErr(outs, k);
        return Err(out.error);
      }
      var line := ScoreToTextLine(out.value.data, out.value.height, out.value.width, keys);
      textLines := textLines + [line];
    }
    var all := Collect(outs);
    assert all.Ok? && all.value == textLines;
    return Ok(textLines);
  }

  /** A run of timesteps with the same maximum emits at most one symbol. */
  lemma {:induction false} RunEmitsAtMostOnce(rows: seq<RowMax>, a: nat, b: nat, keyCount: nat)
    requires a < b <= |rows|
    requires forall i :: a <= i < b ==> rows[i].index == rows[a].index
    ensures |Emitted(rows, b, keyCount)| <= |Emitted(rows, a, keyCount)| + 1
  {
    if b == a + 1 {
    } else {
      RunEmitsAtMostOnce(rows, a, b - 1, keyCount);
      assert rows[b - 1].index == rows[b - 2].index;
      assert !Emits(rows, b - 1, keyCount);
    }
  }

  /** A blank between two equal maxima lets the second one be emitted again. */
  lemma BlankSeparatesRepeats(rows: seq<RowMax>, i: nat, keyCount: nat)
    requires i + 2 < |rows|
    requires 0 < rows[i].index < keyCount && rows[i + 1].index == 0 && rows[i + 2].index == rows[i].index
    ensures Emits(rows, i + 2, keyCount)
  {
  }

  /** Timesteps whose maximum is always the blank emit nothing. */
  lemma {:induction false} AllBlankEmitsNothing(rows: seq<RowMax>, n: nat, keyCount: nat)
    requires n <= |rows|
    requires forall i :: 0 <= i < n ==> rows[i].index == 0
    ensures Emitted(rows, n, keyCount) == []
  {
    if n > 0 {
      AllBlankEmitsNothing(rows, n - 1, keyCount);
    }
  }

  /** Nothing is emitted exactly when no timestep emits. */
  lemma {:induction false} EmittedEmptyIffSilent(rows: seq<RowMax>, n: nat, keyCount: nat)
    requires n <= |rows|
    ensures Emitted(rows, n, keyCount) == [] <==> forall i :: 0 <= i < n ==> !Emits(rows, i, keyCount)
  {
    if n > 0 {
      EmittedEmptyIffSilent(rows, n - 1, keyCount);
    }
  }

  /**
   * A line's score is NaN exactly when no timestep emits a symbol, and then
   * its text is empty.
   */
  lemma NaNScoreExactlyWhenSilent(o: RecOutput, keys: seq<string>)
    requires WellShaped(o)
    ensures var rows := RowMaxes(o.data, o.height, o.width);
            var silent := forall i :: 0 <= i < o.height ==> !Emits(rows, i, |keys|);
            (DecodeLine(o, keys).textScore.None? <==> silent) && (silent ==> DecodeLine(o, keys).text == "")
  {
    var es := Emitted(RowMaxes(o.data, o.height, o.width), o.height, |keys|);
    EmittedEmptyIffSilent(RowMaxes(o.data, o.height, o.width), o.height, |keys|);
    assert DecodeLine(o, keys).textScore.None? <==> es == [];
  }

  /** A matrix whose every row peaks at the blank decodes to the empty text with a NaN score. */
  lemma AllBlankLineIsEmpty(o: RecOutput, keys: seq<string>)
    requires WellShaped(o)
    requires forall i :: 0 <= i < o.height ==> RowMaxes(o.data, o.height, o.width)[i].index == 0
    ensures DecodeLine(o, keys) == TextLine("", None)
  {
    AllBlankEmitsNothing(RowMaxes(o.data, o.height, o.width), o.height, |keys|);
  }
}
