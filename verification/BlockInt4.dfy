/** Block-wise symmetric INT4 quantization of a weight matrix, and its packed storage. */
module BlockInt4 {

  type Matrix = seq<seq<real>>
  type Codes = seq<seq<int>>

  ghost predicate Shape<T>(m: seq<seq<T>>, rows: nat, cols: nat) {
    |m| == rows && forall i :: 0 <= i < rows ==> |m[i]| == cols
  }

  function Abs(x: real): real { if x < 0.0 then -x else x }

  // --- Rounding --------------------------------------------------------------------

  function RoundHalfToEven(v: real): int {
    var f := v.Floor;
    var d := v - f as real;
    if d < 0.5 then f
    else if d > 0.5 then f + 1
    else
      var half := f as real / 2.0;
      if half == half.Floor as real then f else f + 1
  }

  /** roundTiesToEven: the nearest integer, and on a tie the even one. */
  lemma RoundIsTiesToEven(v: real, z: int)
    ensures z == RoundHalfToEven(v)
       <==> Abs(v - z as real) < 0.5 || (Abs(v - z as real) == 0.5 && z % 2 == 0)
  {
    var f := v.Floor;
    HalfIsIntegral(f);
    NearestEven(v, f, RoundHalfToEven(v), z);
  }

  lemma NearestEven(v: real, f: int, r: int, z: int)
    requires f as real <= v < f as real + 1.0
    requires r == if v - f as real < 0.5 || (v - f as real == 0.5 && f % 2 == 0) then f else f + 1
    ensures z == r <==> Abs(v - z as real) < 0.5 || (Abs(v - z as real) == 0.5 && z % 2 == 0)
  {
    var d := v - f as real;
    var gap := (z - f) as real;
    assert v - z as real == d - gap;
    if z < f {
      assert gap <= -1.0;
    } else if z > f + 1 {
      assert gap >= 2.0;
    }
  }

  lemma HalfIsIntegral(f: int)
    ensures var half := f as real / 2.0;
            half == half.Floor as real <==> f % 2 == 0
  {
    var half := f as real / 2.0;
    assert f % 2 == 0 ==> half == (f / 2) as real;
    assert half == half.Floor as real ==> f == 2 * half.Floor;
  }

  lemma RoundStaysInside(v: real, bound: int)
    requires Abs(v) <= bound as real
    ensures -bound <= RoundHalfToEven(v) <= bound
  {
    RoundIsTiesToEven(v, RoundHalfToEven(v));
  }

  // --- Quantization ------------------------------------------------------------------

  const EPSILON: real := 0.000000000001
  const CODE_MAX: int := 7

  function Max(x: real, y: real): real { if x < y then y else x }

  function Clamp(x: int, lo: int, hi: int): int {
    if x < lo then lo else if x > hi then hi else x
  }

  /** The scale of a block whose largest magnitude is maxAbs. */
  function ScaleOf(maxAbs: real, clip: real): real { Max(maxAbs * clip, EPSILON) / 7.0 }

  function CodeOf(w: real, scale: real): int
    requires scale != 0.0
  {
    Clamp(RoundHalfToEven(w / scale), -CODE_MAX, CODE_MAX)
  }

  /** m is the largest magnitude of row[lo..hi], zero when there is none. */
  ghost predicate IsAbsMax(m: real, row: seq<real>, lo: int, hi: int) {
    && 0 <= lo <= hi <= |row|
    && 0.0 <= m
    && (forall j :: lo <= j < hi ==> Abs(row[j]) <= m)
    && (m == 0.0 || exists j :: lo <= j < hi && Abs(row[j]) == m)
  }

  /** The block an element belongs to. */
  function BlockOf(j: int, blockSize: int): int
    requires blockSize > 0
  {
    j / blockSize
  }

  function BlockStart(b: int, blockSize: int): int { b * blockSize }

  lemma BlockInside(b: int, blockSize: int, blocks: int, len: int)
    requires blockSize > 0 && 0 <= b < blocks && len == blocks * blockSize
    ensures 0 <= BlockStart(b, blockSize) && BlockStart(b, blockSize) + blockSize <= len
  {
    assert (b + 1) * blockSize <= blocks * blockSize;
  }

  lemma ElementInside(j: int, blockSize: int, blocks: int, len: int)
    requires blockSize > 0 && 0 <= j < len && len == blocks * blockSize
    ensures var b := BlockOf(j, blockSize);
            0 <= b < blocks && BlockStart(b, blockSize) <= j < BlockStart(b, blockSize) + blockSize
  {
    var b := BlockOf(j, blockSize);
    assert j == b * blockSize + j % blockSize;
    assert b >= blocks ==> b * blockSize >= blocks * blockSize;
  }

  /** scale is that of block b of the row, whatever its largest magnitude is. */
  ghost predicate IsBlockScale(scale: real, row: seq<real>, blockSize: int, clip: real, b: int) {
    exists m :: IsAbsMax(m, row, BlockStart(b, blockSize), BlockStart(b, blockSize) + blockSize)
      && scale == ScaleOf(m, clip)
  }

  /** codes and scales quantize one row of whole blocks under a clip ratio. */
  ghost predicate QuantizesRow(row: seq<real>, blockSize: nat, clip: real, codes: seq<int>, scales: seq<real>) {
    && blockSize > 0
    && |codes| == |row| == |scales| * blockSize
    && (forall b :: 0 <= b < |scales| ==> scales[b] > 0.0 && IsBlockScale(scales[b], row, blockSize, clip, b))
    && (forall j :: 0 <= j < |row| ==>
         && 0 <= BlockOf(j, blockSize) < |scales|
         && scales[BlockOf(j, blockSize)] > 0.0
         && codes[j] == CodeOf(row[j], scales[BlockOf(j, blockSize)]))
  }

  method BlockScale(row: seq<real>, blockSize: nat, clip: real, b: nat) returns (scale: real)
    requires 0 <= BlockStart(b, blockSize) && BlockStart(b, blockSize) + blockSize <= |row|
    ensures 0.0 < scale && IsBlockScale(scale, row, blockSize, clip, b)
  {
    var maxAbs := 0.0;
    var lo := BlockStart(b, blockSize);
    for j := 0 to blockSize
      invariant IsAbsMax(maxAbs, row, lo, lo + j)
    {
      var v := Abs(row[lo + j]);
      if v > maxAbs {
        maxAbs := v;
      }
    }
    scale := ScaleOf(maxAbs, clip);
    ScalePositive(maxAbs, clip);
  }

  lemma ScalePositive(m: real, clip: real)
    ensures ScaleOf(m, clip) > 0.0
  {
  }

  method QuantizeRow(row: seq<real>, blockSize: nat, blocks: nat, clip: real)
    returns (codes: seq<int>, scales: seq<real>)
    requires blockSize > 0 && |row| == blocks * blockSize
    ensures |scales| == blocks && QuantizesRow(row, blockSize, clip, codes, scales)
  {
    hide BlockOf, BlockStart, IsBlockScale, CodeOf;
    scales := [];
    for b := 0 to blocks
      invariant |scales| == b
      invariant forall x :: 0 <= x < b ==> scales[x] > 0.0 && IsBlockScale(scales[x], row, blockSize, clip, x)
    {
      BlockInside(b, blockSize, blocks, |row|);
      var scale := BlockScale(row, blockSize, clip, b);
      scales := scales + [scale];
    }
    codes := [];
    for j := 0 to |row|
      invariant |codes| == j
      invariant forall x :: 0 <= x < j ==>
                  0 <= BlockOf(x, blockSize) < blocks && codes[x] == CodeOf(row[x], scales[BlockOf(x, blockSize)])
    {
      ElementInside(j, blockSize, blocks, |row|);
      codes := codes + [CodeOf(row[j], scales[BlockOf(j, blockSize)])];
    }
  }

  /** Every row of w quantized on its own. */
  ghost predicate Quantizes(w: Matrix, blockSize: nat, clip: real, codes: Codes, scales: Matrix) {
    |codes| == |w| && |scales| == |w|
    && forall i :: 0 <= i < |w| ==> QuantizesRow(w[i], blockSize, clip, codes[i], scales[i])
  }

  lemma AbsMaxUnique(m: real, m': real, row: seq<real>, lo: int, hi: int)
    requires IsAbsMax(m, row, lo, hi) && IsAbsMax(m', row, lo, hi)
    ensures m == m'
  {
  }

  lemma BlockScaleUnique(scale: real, scale': real, row: seq<real>, blockSize: int, clip: real, b: int)
    requires IsBlockScale(scale, row, blockSize, clip, b) && IsBlockScale(scale', row, blockSize, clip, b)
    ensures scale == scale'
  {
    var lo := BlockStart(b, blockSize);
    var m :| IsAbsMax(m, row, lo, lo + blockSize) && scale == ScaleOf(m, clip);
    var m' :| IsAbsMax(m', row, lo, lo + blockSize) && scale' == ScaleOf(m', clip);
    AbsMaxUnique(m, m', row, lo, lo + blockSize);
  }

  lemma SameCount(a: nat, b: nat, size: nat)
    requires size > 0 && a * size == b * size
    ensures a == b
  {
    assert (a - b) * size == 0;
  }

  lemma RowUnique(row: seq<real>, blockSize: nat, clip: real, codes: seq<int>, scales: seq<real>, codes': seq<int>,
                  scales': seq<real>)
    requires QuantizesRow(row, blockSize, clip, codes, scales) && QuantizesRow(row, blockSize, clip, codes', scales')
    ensures codes == codes' && scales == scales'
  {
    hide IsBlockScale, CodeOf, BlockOf;
    SameCount(|scales|, |scales'|, blockSize);
    forall b | 0 <= b < |scales| ensures scales[b] == scales'[b] {
      BlockScaleUnique(scales[b], scales'[b], row, blockSize, clip, b);
    }
  }

  /** A weight, a block size and a clip ratio determine the codes and the scales. */
  lemma QuantizesUnique(w: Matrix, blockSize: nat, clip: real, codes: Codes, scales: Matrix, codes': Codes,
                        scales': Matrix)
    requires Quantizes(w, blockSize, clip, codes, scales) && Quantizes(w, blockSize, clip, codes', scales')
    ensures codes == codes' && scales == scales'
  {
    hide QuantizesRow;
    forall i | 0 <= i < |w| ensures codes[i] == codes'[i] && scales[i] == scales'[i] {
      RowUnique(w[i], blockSize, clip, codes[i], scales[i], codes'[i], scales'[i]);
    }
  }

  method QuantizeBlockwiseInt4WithClip(w: Matrix, blockSize: nat, blocks: nat, clip: real)
    returns (codes: Codes, scales: Matrix)
    requires blockSize > 0 && Shape(w, |w|, blocks * blockSize)
    ensures Shape(scales, |w|, blocks) && Quantizes(w, blockSize, clip, codes, scales)
  {
    codes, scales := [], [];
    for i := 0 to |w|
      invariant |codes| == i && Shape(scales, i, blocks)
      invariant forall x :: 0 <= x < i ==> QuantizesRow(w[x], blockSize, clip, codes[x], scales[x])
    {
      var c, s := QuantizeRow(w[i], blockSize, blocks, clip);
      codes, scales := codes + [c], scales + [s];
    }
  }

  // --- Reconstruction ------------------------------------------------------------------

  /** w holds the weights the codes stand for. */
  ghost predicate Expands(codes: Codes, scales: Matrix, blockSize: nat, k: nat, w: Matrix) {
    && blockSize > 0
    && Shape(codes, |codes|, k) && |scales| == |codes| && Shape(w, |codes|, k)
    && forall i :: 0 <= i < |codes| ==> ExpandsRow(codes[i], scales[i], blockSize, w[i])
  }

  ghost predicate ExpandsRow(codes: seq<int>, scales: seq<real>, blockSize: nat, row: seq<real>) {
    && blockSize > 0
    && |row| == |codes|
    && forall j :: 0 <= j < |codes| ==>
         0 <= BlockOf(j, blockSize) < |scales| && row[j] == codes[j] as real * scales[BlockOf(j, blockSize)]
  }

  method ExpandAndMultiply(codes: Codes, scales: Matrix, blockSize: nat, blocks: nat) returns (w: Matrix)
    requires blockSize > 0
    requires Shape(codes, |codes|, blocks * blockSize) && Shape(scales, |codes|, blocks)
    ensures Expands(codes, scales, blockSize, blocks * blockSize, w)
  {
    hide BlockOf, BlockStart;
    w := [];
    for i := 0 to |codes|
      invariant Shape(w, i, blocks * blockSize)
      invariant forall x :: 0 <= x < i ==> ExpandsRow(codes[x], scales[x], blockSize, w[x])
    {
      var row := [];
      for j := 0 to |codes[i]|
        invariant |row| == j
        invariant forall y :: 0 <= y < j ==>
            0 <= BlockOf(y, blockSize) < blocks && row[y] == codes[i][y] as real * scales[i][BlockOf(y, blockSize)]
      {
        ElementInside(j, blockSize, blocks, |codes[i]|);
        row := row + [codes[i][j] as real * scales[i][BlockOf(j, blockSize)]];
      }
      w := w + [row];
    }
  }

  /** How far a weight is from what its code stands for. */
  function Deviation(w: real, code: int, s: real): real { Abs(w - code as real * s) }

  /** One weight's error, without clipping: the code never saturates and half a step bounds it. */
  lemma UnclippedError(w: real, m: real)
    requires Abs(w) <= m
    ensures var s := ScaleOf(m, 1.0);
            && CodeOf(w, s) == RoundHalfToEven(w / s)
            && Deviation(w, CodeOf(w, s), s) <= s / 2.0
  {
    var s := ScaleOf(m, 1.0);
    ScalePositive(m, 1.0);
    assert Abs(w) <= 7.0 * s;
    hide ScaleOf, RoundHalfToEven;
    Quotient(w, s);
    UnclippedStep(w, s, w / s);
  }

  lemma UnclippedStep(w: real, s: real, v: real)
    requires s > 0.0 && v * s == w && Abs(w) <= 7.0 * s
    ensures var r := RoundHalfToEven(v);
            -7 <= r <= 7 && Deviation(w, r, s) <= s / 2.0
  {
    hide RoundHalfToEven;
    Bounded(v, s, w, 7.0);
    RoundStaysInside(v, 7);
    HalfStep(v, s);
  }

  lemma ClippedStep(w: real, s: real, v: real)
    requires s > 0.0 && v * s == w
    ensures var r := RoundHalfToEven(v);
            && (-7 <= r <= 7 ==> Deviation(w, r, s) <= s / 2.0)
            && (r > 7 ==> w >= 7.0 * s)
            && (r < -7 ==> -w >= 7.0 * s)
  {
    hide RoundHalfToEven;
    Bounded(v, s, w, 7.0);
    RoundIsTiesToEven(v, RoundHalfToEven(v));
    HalfStep(v, s);
  }

  lemma Quotient(w: real, s: real)
    requires s > 0.0
    ensures w / s * s == w
  {
  }

  lemma Bounded(v: real, s: real, w: real, bound: real)
    requires s > 0.0 && v * s == w
    ensures Abs(w) <= bound * s ==> Abs(v) <= bound
    ensures v >= bound ==> w >= bound * s
    ensures v <= -bound ==> -w >= bound * s
  {
    MulMonotone(v, bound, s);
    MulMonotone(bound, v, s);
    MulMonotone(v, -bound, s);
    MulMonotone(-bound, v, s);
  }

  lemma MulMonotone(x: real, y: real, s: real)
    requires s > 0.0
    ensures x <= y ==> x * s <= y * s
    ensures x < y ==> x * s < y * s
  {
  }

  lemma HalfStep(v: real, s: real)
    requires s > 0.0
    ensures Abs(v * s - RoundHalfToEven(v) as real * s) <= s / 2.0
  {
    var r := RoundHalfToEven(v);
    RoundIsTiesToEven(v, r);
    hide RoundHalfToEven;
    var e := v - r as real;
    MulMonotone(e, 0.5, s);
    MulMonotone(-0.5, e, s);
    assert e * s == v * s - r as real * s;
  }

  /** With any clip ratio, what the half step does not bound is the distance past the last code. */
  lemma ClippedError(w: real, m: real, clip: real)
    ensures var s := ScaleOf(m, clip);
            Deviation(w, CodeOf(w, s), s) <= Max(s / 2.0, Abs(w) - 7.0 * s)
  {
    var s := ScaleOf(m, clip);
    ScalePositive(m, clip);
    hide ScaleOf, RoundHalfToEven;
    Quotient(w, s);
    ClippedStep(w, s, w / s);
  }

  /** The error of one code under its scale. */
  ghost predicate WithinError(w: real, code: int, s: real, clip: real) {
    && -7 <= code <= 7
    && 0.0 < s
    && Deviation(w, code, s) <= Max(s / 2.0, Abs(w) - 7.0 * s)
    && (clip == 1.0 ==> Deviation(w, code, s) <= s / 2.0)
  }

  lemma CodeError(w: real, code: int, s: real, m: real, clip: real)
    requires Abs(w) <= m && s == ScaleOf(m, clip) && 0.0 < s && code == CodeOf(w, s)
    ensures WithinError(w, code, s, clip)
  {
    hide ScaleOf, Deviation;
    assert -7 <= code <= 7;
    hide CodeOf;
    ClippedError(w, m, clip);
    if clip == 1.0 {
      UnclippedError(w, m);
    }
  }

  /** Every weight of a quantized row, through its block's own maximum. */
  lemma RowError(row: seq<real>, blockSize: nat, clip: real, codes: seq<int>, scales: seq<real>, j: int)
    requires QuantizesRow(row, blockSize, clip, codes, scales)
    requires 0 <= j < |row|
    ensures 0 <= BlockOf(j, blockSize) < |scales| && |codes| == |row|
    ensures WithinError(row[j], codes[j], scales[BlockOf(j, blockSize)], clip)
  {
    var m := BlockMaxOf(row, blockSize, clip, codes, scales, j);
    CodeError(row[j], codes[j], scales[BlockOf(j, blockSize)], m, clip);
    hide WithinError, CodeOf;
  }

  /** In numbers: up to seven scales the error is within half a scale, past them it is the distance past them, and
      without clipping it is always within half a scale. */
  lemma RowErrorIs(row: seq<real>, blockSize: nat, clip: real, codes: seq<int>, scales: seq<real>, j: nat)
    requires QuantizesRow(row, blockSize, clip, codes, scales) && j < |row|
    ensures blockSize > 0 && 0 <= j / blockSize < |scales| && |codes| == |row|
    ensures var s, w := scales[j / blockSize], row[j];
            var e := w - codes[j] as real * s;
            && (clip == 1.0 ==> -s <= 2.0 * e <= s)
            && (-7.0 * s <= w <= 7.0 * s ==> -s <= 2.0 * e <= s)
            && (w > 7.0 * s ==> e == w - 7.0 * s)
            && (w < -7.0 * s ==> e == w + 7.0 * s)
  {
    hide *;
    CodeIsNearest(row, blockSize, clip, codes, scales, j);
    RowErrorAt(row, blockSize, clip, codes, scales, j);
    ErrorIs(row[j], scales[j / blockSize], codes[j], clip);
  }

  lemma RowErrorAt(row: seq<real>, blockSize: nat, clip: real, codes: seq<int>, scales: seq<real>, j: nat)
    requires QuantizesRow(row, blockSize, clip, codes, scales) && j < |row|
    ensures blockSize > 0 && 0 <= j / blockSize < |scales| && |codes| == |row|
    ensures WithinError(row[j], codes[j], scales[j / blockSize], clip)
  {
    hide WithinError, IsBlockScale, CodeOf;
    RowError(row, blockSize, clip, codes, scales, j);
  }

  lemma ErrorIs(w: real, s: real, c: int, clip: real)
    requires 0.0 < s && WithinError(w, c, s, clip) && IsNearestCode(w, s, c)
    ensures var e := w - c as real * s;
            && (clip == 1.0 ==> -s <= 2.0 * e <= s)
            && (-7.0 * s <= w <= 7.0 * s ==> -s <= 2.0 * e <= s)
            && (w > 7.0 * s ==> e == w - 7.0 * s)
            && (w < -7.0 * s ==> e == w + 7.0 * s)
  {
    var product := c as real * s;
    assert c == 7 ==> product == 7.0 * s;
    assert c == -7 ==> product == -7.0 * s;
  }

  lemma BlockMaxOf(row: seq<real>, blockSize: nat, clip: real, codes: seq<int>, scales: seq<real>, j: int)
    returns (m: real)
    requires QuantizesRow(row, blockSize, clip, codes, scales)
    requires 0 <= j < |row|
    ensures Abs(row[j]) <= m
    ensures 0 <= BlockOf(j, blockSize) < |scales| && scales[BlockOf(j, blockSize)] > 0.0
    ensures scales[BlockOf(j, blockSize)] == ScaleOf(m, clip)
    ensures codes[j] == CodeOf(row[j], scales[BlockOf(j, blockSize)])
  {
    hide BlockOf, BlockStart, ScaleOf, CodeOf, Abs, IsBlockScale, IsAbsMax;
    var b := BlockOf(j, blockSize);
    ElementInside(j, blockSize, |scales|, |row|);
    m := MaxOfScale(scales[b], row, blockSize, clip, b);
    WithinMax(m, row, BlockStart(b, blockSize), BlockStart(b, blockSize) + blockSize, j);
  }

  lemma MaxOfScale(scale: real, row: seq<real>, blockSize: int, clip: real, b: int) returns (m: real)
    requires IsBlockScale(scale, row, blockSize, clip, b)
    ensures IsAbsMax(m, row, BlockStart(b, blockSize), BlockStart(b, blockSize) + blockSize)
    ensures scale == ScaleOf(m, clip)
  {
    m :| IsAbsMax(m, row, BlockStart(b, blockSize), BlockStart(b, blockSize) + blockSize) && scale == ScaleOf(m, clip);
  }

  lemma WithinMax(m: real, row: seq<real>, lo: int, hi: int, j: int)
    requires IsAbsMax(m, row, lo, hi) && lo <= j < hi
    ensures 0 <= j < |row| && Abs(row[j]) <= m
  {
  }

  // --- The quantized row, from its weights alone ----------------------------------------

  /** m is the largest magnitude among row[lo..hi]. */
  ghost predicate IsLargest(m: real, row: seq<real>, lo: int, hi: int)
    requires 0 <= lo <= hi <= |row|
  {
    && (forall j :: lo <= j < hi ==> -m <= row[j] <= m)
    && (exists j :: lo <= j < hi && (row[j] == m || row[j] == -m))
  }

  lemma LargestIsAbsMax(m: real, row: seq<real>, lo: int, hi: int)
    requires 0 <= lo <= hi <= |row| && IsLargest(m, row, lo, hi)
    ensures IsAbsMax(m, row, lo, hi)
  {
  }

  lemma SevenScales(m: real, clip: real)
    ensures 0.000000000001 <= m * clip ==> 7.0 * ScaleOf(m, clip) == m * clip
    ensures m * clip < 0.000000000001 ==> 7.0 * ScaleOf(m, clip) == 0.000000000001
  {
  }

  /** Seven scales are the clipped maximum of the block, or the floor where that is larger. */
  lemma ScaleIsClippedMax(row: seq<real>, blockSize: nat, clip: real, codes: seq<int>, scales: seq<real>, b: nat,
                          m: real)
    requires QuantizesRow(row, blockSize, clip, codes, scales) && b < |scales|
    requires 0 <= b * blockSize && b * blockSize + blockSize <= |row|
    requires IsLargest(m, row, b * blockSize, b * blockSize + blockSize)
    ensures 0.000000000001 <= m * clip ==> 7.0 * scales[b] == m * clip
    ensures m * clip < 0.000000000001 ==> 7.0 * scales[b] == 0.000000000001
  {
    assert IsBlockScale(scales[b], row, blockSize, clip, b);
    hide QuantizesRow, IsBlockScale, IsAbsMax, IsLargest, ScaleOf;
    var lo, hi := b * blockSize, b * blockSize + blockSize;
    var m' := MaxOfScale(scales[b], row, blockSize, clip, b);
    LargestIsAbsMax(m, row, lo, hi);
    AbsMaxUnique(m, m', row, lo, hi);
    SevenScales(m, clip);
  }

  /** c is w over s: the nearest integer, the even one on a tie, stopped at seven on either side. */
  ghost predicate IsNearestCode(w: real, s: real, c: int) {
    && -7 <= c <= 7
    && (w >= 7.0 * s ==> c == 7) && (w <= -7.0 * s ==> c == -7)
    && (-7.0 * s < w < 7.0 * s ==>
          && -s <= 2.0 * (w - c as real * s) <= s
          && (2.0 * (w - c as real * s) == s || 2.0 * (w - c as real * s) == -s ==> c % 2 == 0))
  }

  /** Each code is that of its weight over its own block's scale. */
  lemma CodeIsNearest(row: seq<real>, blockSize: nat, clip: real, codes: seq<int>, scales: seq<real>, j: nat)
    requires QuantizesRow(row, blockSize, clip, codes, scales) && j < |row|
    ensures 0 <= j / blockSize < |scales| && |codes| == |row|
    ensures 0.0 < scales[j / blockSize] && IsNearestCode(row[j], scales[j / blockSize], codes[j])
  {
    hide IsBlockScale, CodeOf, IsNearestCode;
    assert 0 <= BlockOf(j, blockSize) < |scales| && codes[j] == CodeOf(row[j], scales[BlockOf(j, blockSize)]);
    NearestCode(row[j], scales[BlockOf(j, blockSize)]);
  }

  lemma NearestCode(w: real, s: real)
    requires 0.0 < s
    ensures IsNearestCode(w, s, CodeOf(w, s))
  {
    hide RoundHalfToEven;
    var v := w / s;
    var z := RoundHalfToEven(v);
    Quotient(w, s);
    RoundFacts(v);
    if w >= 7.0 * s || w <= -7.0 * s {
      MulMonotone(v, 7.0, s);
      MulMonotone(-7.0, v, s);
    } else {
      StrictlyInside(v, s);
      assert -7 <= z <= 7;
      NearTie(w, s, v, z);
    }
  }

  lemma RoundFacts(v: real)
    ensures var e := v - RoundHalfToEven(v) as real;
            -0.5 <= e <= 0.5 && (e == 0.5 || e == -0.5 ==> RoundHalfToEven(v) % 2 == 0)
  {
    RoundIsTiesToEven(v, RoundHalfToEven(v));
    hide RoundHalfToEven;
  }

  lemma NearTie(w: real, s: real, v: real, z: int)
    requires 0.0 < s && v * s == w && -0.5 <= v - z as real <= 0.5
    requires v - z as real == 0.5 || v - z as real == -0.5 ==> z % 2 == 0
    ensures -s <= 2.0 * (w - z as real * s) <= s
    ensures 2.0 * (w - z as real * s) == s || 2.0 * (w - z as real * s) == -s ==> z % 2 == 0
  {
    var e := v - z as real;
    assert e * s == w - z as real * s;
    MulMonotone(e, 0.5, s);
    MulMonotone(-0.5, e, s);
    TieOnly(e, s);
  }

  lemma StrictlyInside(v: real, s: real)
    requires 0.0 < s && -7.0 * s < v * s < 7.0 * s
    ensures -7.0 < v < 7.0
  {
    MulMonotone(7.0, v, s);
    MulMonotone(v, -7.0, s);
  }

  lemma TieOnly(e: real, s: real)
    requires 0.0 < s
    ensures 2.0 * (e * s) == s ==> e == 0.5
    ensures 2.0 * (e * s) == -s ==> e == -0.5
  {
    MulMonotone(e, 0.5, s);
    MulMonotone(0.5, e, s);
    MulMonotone(e, -0.5, s);
    MulMonotone(-0.5, e, s);
  }

  // --- Storage ---------------------------------------------------------------------------

  type Byte = x: int | 0 <= x < 256

  /** A signed code truncated to eight bits. */
  function ToByte(code: int): Byte { code % 256 }

  function LowNibble(b: Byte): Byte { b % 16 }

  /** The low nibble of lo, and that of hi above it. */
  function PackPair(lo: int, hi: int): Byte { LowNibble(ToByte(lo)) + 16 * LowNibble(ToByte(hi)) }

  /** The signed four-bit value of a nibble. */
  function SignExtend(nibble: Byte): int { if nibble < 8 then nibble else nibble - 16 }

  /** Element i of a packed signed INT4 tensor, low nibble first. */
  function Unpack(packed: seq<Byte>, i: nat): int
    requires i / 2 < |packed|
  {
    SignExtend(if i % 2 == 0 then packed[i / 2] % 16 else packed[i / 2] / 16)
  }

  method PackInt4(codes: seq<int>) returns (packed: seq<Byte>)
    ensures |packed| == |codes| / 2
    ensures forall i :: 0 <= i < |packed| ==> packed[i] == PackPair(codes[2 * i], codes[2 * i + 1])
  {
    packed := [];
    for i := 0 to |codes| / 2
      invariant |packed| == i
      invariant forall x :: 0 <= x < i ==> packed[x] == PackPair(codes[2 * x], codes[2 * x + 1])
    {
      packed := packed + [PackPair(codes[2 * i], codes[2 * i + 1])];
    }
  }

  /** Packing loses a code exactly when it does not fit four signed bits. */
  lemma PackedPairReadsBack(lo: int, hi: int)
    ensures SignExtend(PackPair(lo, hi) % 16) == lo <==> -8 <= lo < 8
    ensures SignExtend(PackPair(lo, hi) / 16) == hi <==> -8 <= hi < 8
  {
    var l, h := LowNibble(ToByte(lo)), LowNibble(ToByte(hi));
    assert PackPair(lo, hi) % 16 == l && PackPair(lo, hi) / 16 == h;
    NibbleReadsBack(lo);
    NibbleReadsBack(hi);
  }

  lemma NibbleReadsBack(code: int)
    ensures SignExtend(LowNibble(ToByte(code))) == code <==> -8 <= code < 8
  {
    var q, r := code / 256, code % 256;
    assert code == 16 * (16 * q + r / 16) + r % 16;
    assert -8 <= code < 0 ==> r == code + 256 && r / 16 == 15;
    assert 0 <= code < 8 ==> r == code;
  }

  lemma PackedReadsBack(codes: seq<int>, packed: seq<Byte>, i: nat)
    requires |packed| == |codes| / 2
    requires forall x :: 0 <= x < |packed| ==> packed[x] == PackPair(codes[2 * x], codes[2 * x + 1])
    requires i < 2 * |packed|
    ensures Unpack(packed, i) == codes[i] <==> -8 <= codes[i] < 8
  {
    PackedPairReadsBack(codes[2 * (i / 2)], codes[2 * (i / 2) + 1]);
    assert i == 2 * (i / 2) + i % 2;
  }

  /** Codes [N, K] in the orientation the weight is stored in: [N, K] itself or [K, N]. */
  function Stored(codes: Codes, n: nat, k: nat, transposed: bool): Codes
    requires Shape(codes, n, k)
  {
    if transposed then codes
    else seq(k, i requires 0 <= i < k => seq(n, j requires 0 <= j < n => codes[j][i]))
  }

  function Flatten(m: Codes): seq<int> {
    if m == [] then [] else Flatten(m[..|m| - 1]) + m[|m| - 1]
  }

  lemma {:induction false} FlattenAt(m: Codes, rows: nat, cols: nat, i: int, j: int)
    requires Shape(m, rows, cols) && 0 <= i < rows && 0 <= j < cols
    ensures |Flatten(m)| == rows * cols && 0 <= i * cols + j < rows * cols
    ensures Flatten(m)[i * cols + j] == m[i][j]
  {
    FlattenLength(m, rows, cols);
    FlattenLength(m[..rows - 1], rows - 1, cols);
    assert (rows - 1) * cols + cols == rows * cols;
    if i < rows - 1 {
      FlattenAt(m[..rows - 1], rows - 1, cols, i, j);
    }
  }

  lemma {:induction false} FlattenLength(m: Codes, rows: nat, cols: nat)
    requires Shape(m, rows, cols)
    ensures |Flatten(m)| == rows * cols
  {
    if rows > 0 {
      FlattenLength(m[..rows - 1], rows - 1, cols);
      assert (rows - 1) * cols + cols == rows * cols;
    }
  }

  method FlattenCodes(codes: Codes, n: nat, k: nat, transposed: bool) returns (flat: seq<int>)
    requires Shape(codes, n, k)
    ensures flat == Flatten(Stored(codes, n, k, transposed))
  {
    ghost var m := Stored(codes, n, k, transposed);
    var dim0, dim1 := if transposed then n else k, if transposed then k else n;
    flat := [];
    for i := 0 to dim0
      invariant flat == Flatten(m[..i])
    {
      for j := 0 to dim1
        invariant flat == Flatten(m[..i]) + m[i][..j]
      {
        flat := flat + [if transposed then codes[i][j] else codes[j][i]];
        assert m[i][..j + 1] == m[i][..j] + [m[i][j]];
      }
      assert m[..i + 1][..i] == m[..i] && m[i][..dim1] == m[i];
    }
    assert m[..dim0] == m;
  }

  /** What a reader of the packed tensor finds at stored position (i, j) is that weight's code. */
  lemma StoredCodeReadsBack(codes: Codes, n: nat, k: nat, transposed: bool, packed: seq<Byte>, i: int, j: int)
    requires Shape(codes, n, k)
    requires forall x, y :: 0 <= x < n && 0 <= y < k ==> -8 <= codes[x][y] < 8
    requires var flat := Flatten(Stored(codes, n, k, transposed));
             && |flat| % 2 == 0 && |packed| == |flat| / 2
             && forall x :: 0 <= x < |packed| ==> packed[x] == PackPair(flat[2 * x], flat[2 * x + 1])
    requires if transposed then 0 <= i < n && 0 <= j < k else 0 <= i < k && 0 <= j < n
    ensures var at := i * (if transposed then k else n) + j;
            && 0 <= at / 2 < |packed|
            && Unpack(packed, at) == if transposed then codes[i][j] else codes[j][i]
  {
    var m := Stored(codes, n, k, transposed);
    var dim0, dim1 := if transposed then n else k, if transposed then k else n;
    FlattenAt(m, dim0, dim1, i, j);
    PackedReadsBack(Flatten(m), packed, i * dim1 + j);
  }
}
