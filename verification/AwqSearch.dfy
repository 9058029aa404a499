/** The activation-aware scale search of one layer, and what is written back of its result. */
module AwqSearch {
  import opened Common
  import opened Sums
  import opened JacobiTheory
  import opened Jacobi
  import opened BlockInt4
  import opened BlockAffine
  import opened AffineSearch

  function Zeros(n: nat): seq<real> { seq(n, _ => 0.0) }

  /** Scaling alone: the activations divided by the scale, no centering, rotation or bias. */
  function Scaled(scale: seq<real>, rows: nat): Deployment { Chained(scale, Zeros(|scale|), None, Zeros(rows)) }

  lemma ScaledIsSound(k: nat, w: Matrix, scale: seq<real>)
    requires |scale| == k && Positive(scale)
    ensures Sound(k, w, Scaled(scale, |w|))
  {
    forall n | 0 <= n < |w| ensures Zeros(|w|)[n] == Dot(k, RowVec(w, n), SeqVec(Zeros(k))) {
      SumZero(k, Mul(RowVec(w, n), SeqVec(Zeros(k))));
    }
  }

  lemma ScaledBase(k: nat, x: Matrix, scale: seq<real>, rows: nat)
    requires Shape(x, |x|, k) && |scale| == k
    ensures IsBase(k, x, x, Scaled(scale, rows))
  {
  }

  lemma ScaledTarget(k: nat, w: Matrix, t: Matrix, scale: seq<real>)
    requires Shape(w, |w|, k) && Shape(t, |w|, k) && |scale| == k
    requires forall n, j :: 0 <= n < |w| && 0 <= j < k ==> t[n][j] == Mul(RowVec(w, n), SeqVec(scale))(j)
    ensures IsTarget(k, w, Scaled(scale, |w|), t)
  {
  }

  /** pow(act, alpha) per channel, normalized to geometric mean one. */
  method ChannelScale(actMean: seq<real>, alpha: real, k: nat, exp: real -> real, log: real -> real,
                      pow: (real, real) -> real)
    returns (scale: seq<real>)
    requires |actMean| == k && Positive(actMean) && k > 0 && IsExpLog(exp, log, pow)
    ensures |scale| == k && Positive(scale) && Sum(k, Logs(scale, log)) == 0.0
    ensures forall i, j :: 0 <= i < k && 0 <= j < k ==>
              scale[i] * pow(actMean[j], alpha) == scale[j] * pow(actMean[i], alpha)
  {
    hide Sum, IsExpLog;
    var raw: seq<real> := [];
    var logSum := 0.0;
    SumZero(0, Logs(raw, log));
    for j := 0 to k
      invariant |raw| == j && Positive(raw) && logSum == Sum(j, Logs(raw, log))
      invariant forall i :: 0 <= i < j ==> raw[i] == pow(actMean[i], alpha)
    {
      var r := Power(actMean[j], alpha, exp, log, pow);
      SumCong(j, Logs(raw, log), Logs(raw + [r], log));
      raw := raw + [r];
      SumStep(j, Logs(raw, log));
      logSum := logSum + log(r);
    }
    scale := Normalize(raw, exp(logSum / k as real), logSum, exp, log, pow);
  }

  function Power(a: real, alpha: real, exp: real -> real, log: real -> real, pow: (real, real) -> real): (r: real)
    requires 0.0 < a && IsExpLog(exp, log, pow)
    ensures 0.0 < r
  {
    pow(a, alpha)
  }

  /** The mean size of an activation column, floored. */
  ghost function MeanSize(x: Matrix, j: int): real
    requires |x| > 0
  {
    Max(Sum(|x|, Magnitudes(ColVec(x, j))) / |x| as real, EPSILON)
  }

  /** Equal steps that reach one at the last. */
  function AlphaAt(step: nat, steps: nat): (alpha: real)
    requires steps > 1
    ensures alpha * (steps - 1) as real == step as real && (step == steps - 1 ==> alpha == 1.0)
  {
    step as real / (steps - 1) as real
  }

  /** The scale of one grid point: in the ratios of act^alpha, and of geometric mean one. */
  ghost predicate GridScale(k: nat, x: Matrix, alpha: real, log: real -> real, pow: (real, real) -> real,
                            scale: seq<real>)
    requires |x| > 0
  {
    && |scale| == k && Sum(k, Logs(scale, log)) == 0.0
    && forall i, j :: 0 <= i < k && 0 <= j < k ==>
         scale[i] * pow(MeanSize(x, j), alpha) == scale[j] * pow(MeanSize(x, i), alpha)
  }

  /** The record of one grid point. */
  ghost predicate ScalePoint(k: nat, x: Matrix, w: Matrix, blockSize: nat, alpha: real, log: real -> real,
                             pow: (real, real) -> real, b: Best)
    requires |x| > 0
  {
    && Honest(k, x, w, blockSize, b) && b.clip == 1.0
    && b.deployment.Chained? && b.deployment == Scaled(b.deployment.scale, |w|)
    && GridScale(k, x, alpha, log, pow, b.deployment.scale)
  }

  lemma ScaleIsPoint(k: nat, x: Matrix, w: Matrix, blockSize: nat, alpha: real, log: real -> real,
                     pow: (real, real) -> real, act: seq<real>, scale: seq<real>, b: Best)
    requires |x| > 0 && |act| == k && |scale| == k && Sum(k, Logs(scale, log)) == 0.0
    requires forall j :: 0 <= j < k ==> act[j] == Max(Sum(|x|, Magnitudes(ColVec(x, j))) / |x| as real, EPSILON)
    requires forall i, j :: 0 <= i < k && 0 <= j < k ==>
               scale[i] * pow(act[j], alpha) == scale[j] * pow(act[i], alpha)
    requires Honest(k, x, w, blockSize, b) && b.clip == 1.0 && b.deployment == Scaled(scale, |w|)
    ensures b.deployment.Chained? && b.deployment.scale == scale
    ensures ScalePoint(k, x, w, blockSize, alpha, log, pow, b)
  {
    hide Sum, Honest;
    assert forall j :: 0 <= j < k ==> act[j] == MeanSize(x, j);
  }

  /** The whole grid: plain round-to-nearest, then one record per further alpha. */
  ghost predicate TriesGrid(k: nat, x: Matrix, w: Matrix, blockSize: nat, steps: nat, log: real -> real,
                            pow: (real, real) -> real, tried: seq<Best>)
    requires |x| > 0
  {
    && |tried| == (if steps == 0 then 1 else steps)
    && ClipPoint(k, x, w, blockSize, 1.0, tried[0])
    && forall s :: 1 <= s < |tried| ==> ScalePoint(k, x, w, blockSize, AlphaAt(s, steps), log, pow, tried[s])
  }

  /** The grid: plain round-to-nearest first, then one scale per further alpha; the first strictly best is kept. */
  method SearchScale(k: nat, x: Matrix, w: Matrix, blockSize: nat, blocks: nat, steps: nat,
                     exp: real -> real, log: real -> real, pow: (real, real) -> real)
    returns (best: Best, ghost rtn: Best, ghost tried: seq<Best>)
    requires blockSize > 0 && k == blocks * blockSize && k > 0 && |x| > 0
    requires Shape(x, |x|, k) && Shape(w, |w|, k) && IsExpLog(exp, log, pow)
    ensures TriesGrid(k, x, w, blockSize, steps, log, pow, tried) && FirstLeast(tried, best)
    ensures rtn == tried[0] && best.clip == 1.0
    ensures rtn.deployment == Direct && rtn.clip == 1.0 && Honest(k, x, w, blockSize, rtn)
    ensures Honest(k, x, w, blockSize, best) && best.err <= rtn.err
    ensures best == rtn || (best.deployment.Chained? && best.err < rtn.err)
  {
    hide Turned, FloatOutput, LayerInput, Honest, IsExpLog, Sound, IsBase, IsTarget, FirstLeast, Sum, GridScale,
         Scaled, AlphaAt;
    var y := YFromXWt(x, w, k);
    FloatOutputIs(k, x, w, y);
    DirectIsTarget(k, w);
    best := Try(k, x, y, w, w, [], Direct, blockSize, blocks, 1.0);
    rtn, tried := best, [best];
    OnlyCandidate(best);
    var act := ColumnMeanAbs(x, k);
    var step := 1;
    while step < steps
      invariant Honest(k, x, w, blockSize, best) && best.err <= rtn.err
      invariant best == rtn || (best.deployment.Chained? && best.err < rtn.err)
      invariant |tried| == step <= (if steps == 0 then 1 else steps) && tried[0] == rtn
      invariant FirstLeast(tried, best) && best.clip == 1.0
      invariant forall s :: 1 <= s < step ==> ScalePoint(k, x, w, blockSize, AlphaAt(s, steps), log, pow, tried[s])
    {
      var alpha := AlphaAt(step, steps);
      var scale := ChannelScale(act, alpha, k, exp, log, pow);
      var t := ScaleColumns(w, k, scale);
      ScaledIsSound(k, w, scale);
      ScaledBase(k, x, scale, |w|);
      ScaledTarget(k, w, t, scale);
      var b := Try(k, x, y, w, t, x, Scaled(scale, |w|), blockSize, blocks, 1.0);
      ScaleIsPoint(k, x, w, blockSize, alpha, log, pow, act, scale, b);
      Challenged(tried, best, b);
      tried := tried + [b];
      if b.err < best.err {
        best := b;
      }
      step := step + 1;
    }
  }

  // --- Writing back --------------------------------------------------------------------------------

  /** The codes and block scales a layer stores. */
  datatype Stored = Stored(codes: Codes, scales: Matrix)

  /** The codes are always replaced; the scales only when a scale won. */
  function Commit(best: Best, incoming: Stored): Stored {
    Stored(best.codes, if best.deployment.Chained? then best.scales else incoming.scales)
  }

  /** The weight a layer stores at an element. */
  function WeightAt(s: Stored, blockSize: nat, n: int, j: int): real { Dequantized(s.codes, s.scales, blockSize)(n)(j) }

  ghost predicate InLayer(s: Stored, blockSize: nat, n: int, j: int) {
    && blockSize > 0 && 0 <= n < |s.codes| && n < |s.scales| && 0 <= j < |s.codes[n]|
    && 0 <= BlockOf(j, blockSize) < |s.scales[n]|
  }

  /** An honest record without a chain or clipping holds the round-to-nearest codes and scales of the weight. */
  lemma DirectIsRoundToNearest(k: nat, x: Matrix, w: Matrix, blockSize: nat, b: Best)
    requires Shape(w, |w|, k) && ClipPoint(k, x, w, blockSize, 1.0, b)
    ensures Quantizes(w, blockSize, 1.0, b.codes, b.scales)
  {
    hide Quantizes, Loss, FloatOutput, Dequantized;
    var t :| IsTarget(k, w, Direct, t) && Quantizes(t, blockSize, 1.0, b.codes, b.scales);
    DirectIsTarget(k, w);
    TargetUnique(k, w, Direct, t, w);
  }

  /** When no scale wins, the layer is left as it was exactly when it came in with the codes of rounding its
      float weight to nearest. */
  lemma UntouchedExactlyWhenRoundToNearest(k: nat, x: Matrix, w: Matrix, blockSize: nat, best: Best, incoming: Stored,
                                           codes: Codes, scales: Matrix)
    requires Shape(w, |w|, k) && ClipPoint(k, x, w, blockSize, 1.0, best) && Quantizes(w, blockSize, 1.0, codes, scales)
    ensures Commit(best, incoming) == incoming <==> incoming.codes == codes
  {
    hide Quantizes, Honest;
    DirectIsRoundToNearest(k, x, w, blockSize, best);
    QuantizesUnique(w, blockSize, 1.0, best.codes, best.scales, codes, scales);
  }

  /** When no scale wins, an element keeps the weight it came in with exactly when its incoming code is the
      round-to-nearest one or its stored scale is zero. */
  lemma KeptExactlyWhen(k: nat, x: Matrix, w: Matrix, blockSize: nat, best: Best, incoming: Stored,
                        codes: Codes, scales: Matrix, n: int, j: int)
    requires Shape(w, |w|, k) && ClipPoint(k, x, w, blockSize, 1.0, best) && Quantizes(w, blockSize, 1.0, codes, scales)
    requires InLayer(incoming, blockSize, n, j) && InLayer(Stored(codes, incoming.scales), blockSize, n, j)
    ensures WeightAt(Commit(best, incoming), blockSize, n, j) == WeightAt(incoming, blockSize, n, j)
         <==> incoming.codes[n][j] == codes[n][j] || incoming.scales[n][BlockOf(j, blockSize)] == 0.0
  {
    hide Quantizes, Honest;
    DirectIsRoundToNearest(k, x, w, blockSize, best);
    QuantizesUnique(w, blockSize, 1.0, best.codes, best.scales, codes, scales);
    var s := incoming.scales[n][BlockOf(j, blockSize)];
    assert WeightAt(Stored(codes, incoming.scales), blockSize, n, j) == codes[n][j] as real * s;
    assert WeightAt(incoming, blockSize, n, j) == incoming.codes[n][j] as real * s;
    SameProduct(s, codes[n][j] as real, incoming.codes[n][j] as real);
  }

  /** What is stored at an element is what the search scored there: always when a scale wins, and otherwise exactly
      when the round-to-nearest code is zero or the incoming scale is the round-to-nearest one. */
  lemma CommitMatchesScore(k: nat, x: Matrix, w: Matrix, blockSize: nat, best: Best, incoming: Stored,
                           codes: Codes, scales: Matrix, n: int, j: int)
    requires Shape(w, |w|, k) && Honest(k, x, w, blockSize, best) && best.clip == 1.0
    requires Quantizes(w, blockSize, 1.0, codes, scales)
    requires InLayer(Stored(codes, scales), blockSize, n, j) && InLayer(Stored(codes, incoming.scales), blockSize, n, j)
    ensures WeightAt(Commit(best, incoming), blockSize, n, j) == Dequantized(best.codes, best.scales, blockSize)(n)(j)
         <==> best.deployment.Chained? || codes[n][j] == 0
              || incoming.scales[n][BlockOf(j, blockSize)] == scales[n][BlockOf(j, blockSize)]
  {
    hide Quantizes, Honest;
    if best.deployment.Direct? {
      DirectIsRoundToNearest(k, x, w, blockSize, best);
      QuantizesUnique(w, blockSize, 1.0, best.codes, best.scales, codes, scales);
      var c, a, b := codes[n][j] as real, incoming.scales[n][BlockOf(j, blockSize)], scales[n][BlockOf(j, blockSize)];
      assert WeightAt(Stored(codes, incoming.scales), blockSize, n, j) == c * a;
      assert WeightAt(Stored(codes, scales), blockSize, n, j) == c * b;
      SameProduct(c, a, b);
    }
  }

  lemma SameProduct(c: real, a: real, b: real)
    ensures c * a == c * b <==> c == 0.0 || a == b
    ensures a * c == b * c <==> c == 0.0 || a == b
  {
    if c * a == c * b {
      assert c * (a - b) == 0.0;
    }
  }

  // --- A layer that comes out wrong ---------------------------------------------------------------------

  lemma LossNonnegative(k: nat, x: Matrix, y: Mat, rows: nat, w: int -> Vec, d: Deployment)
    ensures 0.0 <= Loss(k, x, y, rows, w, d)
  {
    hide LayerOutput, Sum, Sq;
    var F := SquaredError(k, x, y, w, d);
    var zero := i => 0.0;
    forall s | 0 <= s < |x| ensures 0.0 <= RowSum(rows, F)(s) {
      var cell := n => F(s, n);
      forall n | 0 <= n < rows ensures zero(n) <= cell(n) {
        SquareNonneg(y(s, n) - LayerOutput(k, RowVec(x, s), w(n), d, n));
      }
      SumLe(rows, zero, cell);
      SumZero(rows, zero);
      SumCong(rows, cell, n => F(s, n));
    }
    SumLe(|x|, zero, RowSum(rows, F));
    SumZero(|x|, zero);
    ShareNonnegative(Sum(|x|, RowSum(rows, F)), |x| * rows);
  }

  lemma ShareNonnegative(a: real, n: int)
    requires 0.0 <= a
    ensures n > 0 ==> 0.0 <= a / n as real
  {
  }

  /** A weight its codes and scales stand for exactly has no error. */
  lemma ExactHasNoError(k: nat, x: Matrix, w: Matrix, q: int -> Vec)
    requires Shape(w, |w|, k) && forall n, j :: 0 <= n < |w| && 0 <= j < k ==> q(n)(j) == w[n][j]
    ensures Loss(k, x, FloatOutput(k, x, w), |w|, q, Direct) == 0.0
  {
    hide Sum, Sq;
    var F := SquaredError(k, x, FloatOutput(k, x, w), q, Direct);
    forall s | 0 <= s < |x| ensures RowSum(|w|, F)(s) == 0.0 {
      var cell := n => F(s, n);
      forall n | 0 <= n < |w| ensures cell(n) == 0.0 {
        DotCong(k, RowVec(x, s), q(n), RowVec(x, s), RowVec(w, n));
        assert F(s, n) == Sq(FloatOutput(k, x, w)(s, n) - LayerOutput(k, RowVec(x, s), q(n), Direct, n));
        ZeroSquare(FloatOutput(k, x, w)(s, n) - LayerOutput(k, RowVec(x, s), q(n), Direct, n));
      }
      SumZero(|w|, cell);
      SumCong(|w|, cell, n => F(s, n));
    }
    SumZero(|x|, RowSum(|w|, F));
  }

  lemma ZeroSquare(x: real)
    ensures x == 0.0 ==> Sq(x) == 0.0
  {
  }

  /** A starting point without error is never beaten. */
  lemma PerfectStartWins(k: nat, x: Matrix, w: Matrix, blockSize: nat, steps: nat, log: real -> real,
                         pow: (real, real) -> real, tried: seq<Best>, best: Best)
    requires |x| > 0 && TriesGrid(k, x, w, blockSize, steps, log, pow, tried) && FirstLeast(tried, best)
    requires tried[0].err == 0.0
    ensures best == tried[0]
  {
    var i :| 0 <= i < |tried| && FirstLeastAt(tried, i) && tried[i] == best;
    if i > 0 {
      assert ScalePoint(k, x, w, blockSize, AlphaAt(i, steps), log, pow, best);
      hide GridScale, Sound, Loss, Quantizes, FloatOutput, IsTarget;
      LossNonnegative(k, x, FloatOutput(k, x, w), |w|, Dequantized(best.codes, best.scales, blockSize),
                      best.deployment);
    }
  }

  const SEVENS: Matrix := [[7.0, 7.0]]
  const FIVES: Stored := Stored([[5, 5]], [[1.4]])

  lemma SevensQuantized()
    ensures Quantizes(SEVENS, 2, 1.0, [[7, 7]], [[1.0]])
  {
    var row: seq<real> := [7.0, 7.0];
    assert IsAbsMax(7.0, row, BlockStart(0, 2), BlockStart(0, 2) + 2) by {
      assert Abs(row[0]) == 7.0;
    }
    assert ScaleOf(7.0, 1.0) == 1.0;
    assert IsBlockScale(1.0, row, 2, 1.0, 0);
    assert BlockOf(0, 2) == 0 && BlockOf(1, 2) == 0;
    assert CodeOf(7.0, 1.0) == 7;
    hide IsBlockScale, CodeOf;
    assert QuantizesRow(row, 2, 1.0, [7, 7], [1.0]);
  }

  lemma SevensStored(s: Stored)
    ensures s == FIVES ==> forall j :: 0 <= j < 2 ==> WeightAt(s, 2, 0, j) == 7.0
    ensures s == Stored([[7, 7]], FIVES.scales) ==> forall j :: 0 <= j < 2 ==> WeightAt(s, 2, 0, j) == 9.8
    ensures s == Stored([[7, 7]], [[1.0]]) ==> forall j :: 0 <= j < 2 ==> WeightAt(s, 2, 0, j) == 7.0
  {
    assert BlockOf(0, 2) == 0 && BlockOf(1, 2) == 0;
  }

  /** The float weights 7 and 7 come in exactly stored, as the code 5 of scale 1.4. Whatever the activations and
      the grid, no scale wins, the codes 7 of scale 1 are written over the stored scale, and both come out as 9.8. */
  lemma ExactLayerBreaks(x: Matrix, steps: nat, log: real -> real, pow: (real, real) -> real, tried: seq<Best>,
                         best: Best)
    requires |x| > 0 && TriesGrid(2, x, SEVENS, 2, steps, log, pow, tried) && FirstLeast(tried, best)
    ensures forall j :: 0 <= j < 2 ==> WeightAt(FIVES, 2, 0, j) == SEVENS[0][j] == 7.0
    ensures forall j :: 0 <= j < 2 ==> WeightAt(Commit(best, FIVES), 2, 0, j) == 9.8
  {
    hide Quantizes, Honest, WeightAt, FirstLeast, ScalePoint;
    SevensQuantized();
    SevensStored(FIVES);
    SevensStored(Stored([[7, 7]], FIVES.scales));
    DirectIsRoundToNearest(2, x, SEVENS, 2, tried[0]);
    QuantizesUnique(SEVENS, 2, 1.0, tried[0].codes, tried[0].scales, [[7, 7]], [[1.0]]);
    NoError(x, tried[0]);
    PerfectStartWins(2, x, SEVENS, 2, steps, log, pow, tried, best);
  }

  lemma NoError(x: Matrix, b: Best)
    requires ClipPoint(2, x, SEVENS, 2, 1.0, b) && b.codes == [[7, 7]] && b.scales == [[1.0]]
    ensures b.err == 0.0
  {
    hide Loss, Quantizes, FloatOutput, Sound;
    SevensStored(Stored([[7, 7]], [[1.0]]));
    assert forall n, j :: 0 <= n < |SEVENS| && 0 <= j < 2 ==> Dequantized(b.codes, b.scales, 2)(n)(j) == SEVENS[n][j];
    ExactHasNoError(2, x, SEVENS, Dequantized(b.codes, b.scales, 2));
  }
}
