/**
 * Shared vocabulary of the model: the error kinds, the integer and float
 * conventions of Rust (truncating casts, saturation, the f32 and i32 limits),
 * points in pixel and sub-pixel coordinates, and the raster matrix.
 */
module Common {

  datatype Option<T> = None | Some(value: T)

  /** The crate's error enum (src/ocr_error.rs). */
  datatype OcrError = Ort | Io | ImageError | SessionNotInitialized

  /** `Result<T, OcrError>` */
  datatype Result<T> = Ok(value: T) | Err(error: OcrError)

  const I32_MAX: int := 0x7fff_ffff
  const I32_MIN: int := -0x8000_0000
  const U32_MAX: int := 0xffff_ffff
  /** `f32::MIN`, the most negative finite f32. */
  const F32_MIN: real := -340282346638528859811704183484516925440.0

  /** `ocr_result::Point` and OpenCV's integer `Point`. */
  datatype Point = Point(x: int, y: int)

  /** OpenCV's `Point2f`. */
  datatype Point2f = Point2f(x: real, y: real)

  /** OpenCV's `Rect`: origin, width and height. */
  datatype Rect = Rect(x: int, y: int, width: int, height: int)

  /** A raster image (`Mat` or `RgbImage`): interleaved row-major samples. */
  datatype Mat = Mat(rows: nat, cols: nat, channels: nat, data: seq<int>)

  function Min(a: int, b: int): int { if a <= b then a else b }

  function Max(a: int, b: int): int { if a >= b then a else b }

  function MinReal(a: real, b: real): real { if a <= b then a else b }

  function AbsReal(a: real): (r: real)
    ensures r >= 0.0 && (r == a || r == -a)
  {
    if a < 0.0 then -a else a
  }

  /** `v.max(lo).min(hi)` */
  function Clamp(v: int, lo: int, hi: int): (r: int)
    ensures lo <= hi ==> lo <= r <= hi
    ensures lo <= v <= hi ==> r == v
    ensures v < lo ==> r == Min(lo, hi)
    ensures v > hi ==> r == hi
  {
    Min(Max(v, lo), hi)
  }

  lemma ClampMonotone(a: int, b: int, lo: int, hi: int)
    requires a <= b
    ensures Clamp(a, lo, hi) <= Clamp(b, lo, hi)
  {
  }

  /** Rust's integer `/` for a positive divisor: the quotient truncated toward zero. */
  function Quot(a: int, b: int): (q: int)
    requires b > 0
    ensures a >= 0 ==> q * b <= a < (q + 1) * b
    ensures a < 0 ==> (q - 1) * b < a <= q * b
  {
    if a >= 0 then a / b else -((-a) / b)
  }

  /** A real truncated toward zero (the integral part of a float cast). */
  function Trunc(r: real): (t: int)
    ensures r >= 0.0 ==> 0 <= t && t as real <= r < t as real + 1.0
    ensures r < 0.0 ==> t <= 0 && t as real - 1.0 < r <= t as real
  {
    if r >= 0.0 then r.Floor else -((-r).Floor)
  }

  lemma TruncMonotone(a: real, b: real)
    requires a <= b
    ensures Trunc(a) <= Trunc(b)
  {
    if a < 0.0 && b >= 0.0 {
    } else if a >= 0.0 {
      assert Trunc(a) as real <= a <= b < Trunc(b) as real + 1.0;
    } else {
      assert Trunc(a) as real - 1.0 < a <= b <= Trunc(b) as real;
    }
  }

  /** A float cast to `i32`: truncation toward zero, saturating at the i32 bounds. */
  function CastI32(r: real): (v: int)
    ensures I32_MIN <= v <= I32_MAX
    ensures I32_MIN as real <= r < I32_MAX as real + 1.0 ==> v == Trunc(r)
  {
    Clamp(Trunc(r), I32_MIN, I32_MAX)
  }

  /**
   * A float cast to `u32`: negatives saturate to 0, large values to u32::MAX,
   * everything else is truncated.
   */
  function CastU32(r: real): (v: int)
    ensures 0 <= v <= U32_MAX
    ensures r <= 0.0 ==> v == 0
    ensures 0.0 <= r < U32_MAX as real + 1.0 ==> v == Trunc(r)
  {
    Clamp(Trunc(r), 0, U32_MAX)
  }

  /**
   * `(v / d) as i32` on floats. Division by zero gives an infinity (saturated
   * to the matching i32 bound) or, for 0/0, NaN (cast to 0).
   */
  function DivToI32(v: real, d: real): (q: int)
    ensures I32_MIN <= q <= I32_MAX
    ensures d != 0.0 ==> q == CastI32(v / d)
  {
    if d == 0.0 then (if v > 0.0 then I32_MAX else if v < 0.0 then I32_MIN else 0)
    else CastI32(v / d)
  }

  lemma DivToI32Monotone(a: real, b: real, d: real)
    requires a <= b && d > 0.0
    ensures DivToI32(a, d) <= DivToI32(b, d)
  {
    assert a / d <= b / d;
    TruncMonotone(a / d, b / d);
    ClampMonotone(Trunc(a / d), Trunc(b / d), I32_MIN, I32_MAX);
  }

  /** `Vec::reverse` */
  function Reverse<T>(s: seq<T>): (r: seq<T>)
    ensures |r| == |s|
  {
    if s == [] then [] else Reverse(s[1..]) + [s[0]]
  }

  lemma {:induction false} ReverseAt<T>(s: seq<T>, k: nat)
    requires k < |s|
    ensures Reverse(s)[k] == s[|s| - 1 - k]
  {
    if k < |s| - 1 {
      ReverseAt(s[1..], k);
    }
  }

  lemma ReverseAll<T>(s: seq<T>)
    ensures forall k :: 0 <= k < |s| ==> Reverse(s)[k] == s[|s| - 1 - k]
  {
    forall k | 0 <= k < |s| {
      ReverseAt(s, k);
    }
  }

  /** The values of the `Some` entries, in order. */
  function Somes<T>(rs: seq<Option<T>>): (r: seq<T>)
    ensures |r| <= |rs|
    ensures forall v :: v in r ==> Some(v) in rs
  {
    if rs == [] then []
    else
      var init := Somes(rs[..|rs| - 1]);
      assert forall o :: o in rs[..|rs| - 1] ==> o in rs;
      if rs[|rs| - 1].Some? then init + [rs[|rs| - 1].value] else init
  }

  lemma SomesStep<T>(rs: seq<Option<T>>, i: nat)
    requires i < |rs|
    ensures Somes(rs[..i + 1]) == Somes(rs[..i]) + (if rs[i].Some? then [rs[i].value] else [])
  {
    assert rs[..i + 1][..i] == rs[..i];
  }

  /** A longer prefix keeps at least as many values. */
  lemma {:induction false} SomesGrows<T>(rs: seq<Option<T>>, i: nat, j: nat)
    requires i <= j <= |rs|
    ensures |Somes(rs[..i])| <= |Somes(rs[..j])|
    decreases j - i
  {
    if i < j {
      SomesGrows(rs, i, j - 1);
      SomesStep(rs, j - 1);
    }
  }

  /** A `Some` entry before `j` is one more value kept by the prefix up to `j`. */
  lemma SomesCountsBefore<T>(rs: seq<Option<T>>, i: nat, j: nat)
    requires i < j <= |rs| && rs[i].Some?
    ensures |Somes(rs[..i])| < |Somes(rs[..j])|
  {
    SomesStep(rs, i);
    SomesGrows(rs, i + 1, j);
  }

  /** A `Some` entry at `j` is kept, right after the values of the entries before it. */
  lemma {:induction false} SomesAt<T>(rs: seq<Option<T>>, j: nat)
    requires j < |rs| && rs[j].Some?
    ensures var n := |Somes(rs[..j])|; n < |Somes(rs)| && Somes(rs)[n] == rs[j].value
    decreases |rs|
  {
    var init := rs[..|rs| - 1];
    if j == |rs| - 1 {
      assert Somes(rs) == Somes(init) + [rs[j].value];
    } else {
      SomesAt(init, j);
      assert init[..j] == rs[..j];
      assert Somes(rs) == Somes(init) + (if rs[|rs| - 1].Some? then [rs[|rs| - 1].value] else []);
    }
  }

  /** The values of the `Some` entries, last entry first. */
  function SomesReversed<T>(rs: seq<Option<T>>): (r: seq<T>)
    ensures |r| == |Somes(rs)| <= |rs|
    ensures forall k :: 0 <= k < |r| ==> r[k] == Somes(rs)[|r| - 1 - k]
  {
    ReverseAll(Somes(rs));
    Reverse(Somes(rs))
  }

  /** A `Some` entry at `j` is kept, behind the values of the `Some` entries after it. */
  lemma SomesReversedAt<T>(rs: seq<Option<T>>, j: nat)
    requires j < |rs| && rs[j].Some?
    ensures var r, n := SomesReversed(rs), |Somes(rs[..j])|; n < |r| && r[|r| - 1 - n] == rs[j].value
  {
    SomesAt(rs, j);
  }

  /** Of two `Some` entries, the later one's value comes first. */
  lemma SomesReversedOrder<T>(rs: seq<Option<T>>, i: nat, j: nat)
    requires i < j < |rs| && rs[i].Some? && rs[j].Some?
    ensures var r := SomesReversed(rs);
            exists p, q :: 0 <= q < p < |r| && r[p] == rs[i].value && r[q] == rs[j].value
  {
    SomesCountsBefore(rs, i, j);
    SomesReversedAt(rs, i);
    SomesReversedAt(rs, j);
    var r := SomesReversed(rs);
    var p, q := |r| - 1 - |Somes(rs[..i])|, |r| - 1 - |Somes(rs[..j])|;
    assert 0 <= q < p < |r| && r[p] == rs[i].value && r[q] == rs[j].value;
  }

  /** With no `None` entry nothing is dropped, and the order is exactly reversed. */
  lemma SomesReversedAll<T>(rs: seq<Option<T>>)
    requires forall k :: 0 <= k < |rs| ==> rs[k].Some?
    ensures |SomesReversed(rs)| == |rs|
    ensures forall k :: 0 <= k < |rs| ==> Some(SomesReversed(rs)[k]) == rs[|rs| - 1 - k]
  {
    SomesAll(rs);
  }

  /** With no `None` entry nothing is dropped. */
  lemma {:induction false} SomesAll<T>(rs: seq<Option<T>>)
    requires forall k :: 0 <= k < |rs| ==> rs[k].Some?
    ensures |Somes(rs)| == |rs|
    ensures forall k :: 0 <= k < |rs| ==> Some(Somes(rs)[k]) == rs[k]
  {
    if rs != [] {
      var init := rs[..|rs| - 1];
      assert forall k :: 0 <= k < |init| ==> init[k] == rs[k];
      SomesAll(init);
      assert Somes(rs) == Somes(init) + [rs[|rs| - 1].value];
    }
  }

  /** Integer points as sub-pixel points. */
  function ToPoint2f(ps: seq<Point>): (r: seq<Point2f>)
    ensures |r| == |ps|
    ensures forall k :: 0 <= k < |ps| ==> r[k] == Point2f(ps[k].x as real, ps[k].y as real)
  {
    seq(|ps|, k requires 0 <= k < |ps| => Point2f(ps[k].x as real, ps[k].y as real))
  }

  /** The points shifted by `(-dx, -dy)`, in order: `point.x -= dx; point.y -= dy` over the list. */
  function Shifted(ps: seq<Point>, dx: int, dy: int): (r: seq<Point>)
    ensures |r| == |ps|
    ensures forall k :: 0 <= k < |ps| ==> r[k] == Point(ps[k].x - dx, ps[k].y - dy)
  {
    seq(|ps|, k requires 0 <= k < |ps| => Point(ps[k].x - dx, ps[k].y - dy))
  }

  /** Multiplication by a natural number keeps the order of naturals. */
  lemma MulMonotone(a: nat, b: nat, c: nat)
    requires a <= b
    ensures a * c <= b * c
  {
  }

  /**
   * What a loop that applies `?` to each step does: the first error aborts,
   * otherwise every value is kept in order.
   */
  function Collect<T>(rs: seq<Result<T>>): (r: Result<seq<T>>)
    ensures r.Ok? <==> forall k :: 0 <= k < |rs| ==> rs[k].Ok?
    ensures r.Ok? ==> |r.value| == |rs| && forall k :: 0 <= k < |rs| ==> r.value[k] == rs[k].value
    ensures r.Err? ==> exists k :: 0 <= k < |rs| && rs[k].Err? && r.error == rs[k].error
                                && forall j :: 0 <= j < k ==> rs[j].Ok?
  {
    if |rs| == 0 then Ok([])
    else if rs[0].Err? then Err(rs[0].error)
    else
      var rest := Collect(rs[1..]);
      if rest.Err? then
        assert forall k :: 1 <= k < |rs| ==> rs[k] == rs[1..][k - 1];
        Err(rest.error)
      else
        Ok([rs[0].value] + rest.value)
  }

  /** The error `Collect` reports is the one at the first failing position. */
  lemma {:induction false} CollectFirstErr<T>(rs: seq<Result<T>>, k: nat)
    requires k < |rs| && rs[k].Err?
    requires forall j :: 0 <= j < k ==> rs[j].Ok?
    ensures Collect(rs) == Err(rs[k].error)
  {
    if k > 0 {
      assert rs[1..][k - 1] == rs[k];
      CollectFirstErr(rs[1..], k - 1);
    }
  }
}
