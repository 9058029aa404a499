/** The three-stage search for one layer: clip ratio, then per-channel scale, then block rotation; what it
    scores is the error of the graph it deploys. */
module AffineSearch {
  import opened Common
  import opened Sums
  import opened JacobiTheory
  import opened Jacobi
  import opened BlockInt4
  import opened BlockAffine

  // --- The deployed layer --------------------------------------------------------------

  /** How a layer is deployed: as it was, or inside the chain Sub, optional MatMul, Mul before it and
      Add after it. */
  datatype Deployment =
    | Direct
    | Chained(scale: seq<real>, shift: seq<real>, rotation: Option<Matrix>, bias: seq<real>)

  function MatOf(m: Matrix): Mat { (i, j) => if 0 <= i < |m| && 0 <= j < |m[i]| then m[i][j] else 0.0 }

  function Centered(x: Vec, shift: Vec): Vec { j => x(j) - shift(j) }

  function Turned(k: nat, u: Vec, rotation: Option<Matrix>): Vec {
    match rotation
    case None => u
    case Some(R) => Coords(k, u, MatOf(R))
  }

  function Inverse(s: Vec): Vec { j => if s(j) == 0.0 then 0.0 else 1.0 / s(j) }

  /** What reaches the layer for activation row x. */
  function LayerInput(k: nat, x: Vec, d: Deployment): Vec {
    match d
    case Direct => x
    case Chained(scale, shift, rotation, _) =>
      Mul(Turned(k, Centered(x, SeqVec(shift)), rotation), Inverse(SeqVec(scale)))
  }

  /** Output channel n of the deployed layer on activation row x, with weight row w. */
  function LayerOutput(k: nat, x: Vec, w: Vec, d: Deployment, n: int): real {
    Dot(k, LayerInput(k, x, d), w) + (if d.Chained? then SeqVec(d.bias)(n) else 0.0)
  }

  /** The weight row the deployed layer has to hold for the float row w. */
  function TargetWeight(k: nat, w: Vec, d: Deployment): Vec {
    match d
    case Direct => w
    case Chained(scale, _, rotation, _) => Mul(Turned(k, w, rotation), SeqVec(scale))
  }

  ghost predicate Positive(s: seq<real>) { forall j :: 0 <= j < |s| ==> 0.0 < s[j] }

  /** Scales are positive, the rotation is orthogonal, and the bias is the weight times the shift. */
  ghost predicate Sound(k: nat, w: Matrix, d: Deployment) {
    d.Chained? ==>
      && |d.scale| == k && |d.shift| == k && Positive(d.scale)
      && (d.rotation.Some? ==> OrthonormalRows(k, MatOf(d.rotation.value)))
      && |d.bias| == |w|
      && forall n :: 0 <= n < |w| ==> d.bias[n] == Dot(k, RowVec(w, n), SeqVec(d.shift))
  }

  /** With an unquantized weight, the chain computes the float layer. */
  lemma ChainIsExact(k: nat, x: Vec, w: Matrix, n: int, d: Deployment)
    requires Sound(k, w, d) && 0 <= n < |w|
    ensures LayerOutput(k, x, TargetWeight(k, RowVec(w, n), d), d, n) == Dot(k, x, RowVec(w, n))
  {
    if d.Chained? {
      hide Sum;
      var wn, shift, scale := RowVec(w, n), SeqVec(d.shift), SeqVec(d.scale);
      var u, t := Turned(k, Centered(x, shift), d.rotation), Turned(k, wn, d.rotation);
      ScalesCancel(k, u, t, scale);
      if d.rotation.Some? {
        Parseval(k, MatOf(d.rotation.value), Centered(x, shift), wn);
      }
      DotLinear(k, 1.0, x, -1.0, shift, Centered(x, shift), wn);
      DotSymmetric(k, wn, shift);
      assert d.bias[n] == Dot(k, wn, shift);
    }
  }

  lemma ScalesCancel(k: nat, u: Vec, t: Vec, s: Vec)
    requires forall j :: 0 <= j < k ==> 0.0 < s(j)
    ensures Dot(k, Mul(u, Inverse(s)), Mul(t, s)) == Dot(k, u, t)
  {
    var f, g := Mul(Mul(u, Inverse(s)), Mul(t, s)), Mul(u, t);
    forall j | 0 <= j < k ensures f(j) == g(j) {
      ScaleCancels(u(j), t(j), s(j));
      assert f(j) == (u(j) * Inverse(s)(j)) * (t(j) * s(j));
    }
    SumCong(k, f, g);
  }

  lemma ScaleCancels(u: real, t: real, s: real)
    requires 0.0 < s
    ensures (u * (1.0 / s)) * (t * s) == u * t
  {
    var i := 1.0 / s;
    assert i * s == 1.0;
    calc {
      (u * i) * (t * s);
      (u * t) * (i * s);
      u * t;
    }
  }

  // --- The score ---------------------------------------------------------------------------

  /** Squared error of output channel n on activation row s. */
  function SquaredError(k: nat, x: Matrix, y: Mat, w: int -> Vec, d: Deployment): Mat {
    (s, n) => Sq(y(s, n) - LayerOutput(k, RowVec(x, s), w(n), d, n))
  }

  /** The mean squared error of the deployed layer over all rows and channels. */
  function Loss(k: nat, x: Matrix, y: Mat, rows: nat, w: int -> Vec, d: Deployment): real {
    if |x| == 0 || rows == 0 then 0.0
    else Sum(|x|, RowSum(rows, SquaredError(k, x, y, w, d))) / (|x| * rows) as real
  }

  function FloatOutput(k: nat, x: Matrix, w: Matrix): Mat { (s, n) => Dot(k, RowVec(x, s), RowVec(w, n)) }

  function Rows(w: Matrix): int -> Vec { n => RowVec(w, n) }

  /** base holds every centered, and possibly rotated, activation row. */
  ghost predicate IsBase(k: nat, x: Matrix, base: Matrix, d: Deployment) {
    && d.Chained?
    && Shape(base, |x|, k)
    && forall s, j :: 0 <= s < |x| && 0 <= j < k ==>
         base[s][j] == Turned(k, Centered(RowVec(x, s), SeqVec(d.shift)), d.rotation)(j)
  }

  method ReconstructionError(k: nat, x: Matrix, y: Matrix, wHat: Matrix, base: Matrix, d: Deployment, ghost Y: Mat)
    returns (err: real)
    requires Shape(x, |x|, k) && Shape(y, |x|, |wHat|) && Shape(wHat, |wHat|, k)
    requires forall s, n :: 0 <= s < |x| && 0 <= n < |wHat| ==> y[s][n] == Y(s, n)
    requires d.Chained? ==> IsBase(k, x, base, d) && |d.scale| == k && Positive(d.scale) && |d.bias| == |wHat|
    ensures err == Loss(k, x, Y, |wHat|, Rows(wHat), d)
  {
    hide Sum, LayerOutput, Sq;
    ghost var F := SquaredError(k, x, Y, Rows(wHat), d);
    var sqSum := 0.0;
    SumZero(0, RowSum(|wHat|, F));
    for s := 0 to |x|
      invariant sqSum == Sum(s, RowSum(|wHat|, F))
    {
      var xRow := if d.Direct? then x[s] else ScaledRow(k, x, base, d, s);
      ghost var cell := n => F(s, n);
      SumZero(0, cell);
      for n := 0 to |wHat|
        invariant sqSum == Sum(s, RowSum(|wHat|, F)) + Sum(n, cell)
      {
        var acc := Accumulate(k, x, xRow, wHat, d, s, n);
        var diff := y[s][n] - acc;
        assert cell(n) == Sq(Y(s, n) - LayerOutput(k, RowVec(x, s), RowVec(wHat, n), d, n)) == diff * diff by {
          assert Rows(wHat)(n) == RowVec(wHat, n);
          SqIs(diff);
        }
        SumStep(n, cell);
        sqSum := sqSum + diff * diff;
      }
      assert RowSum(|wHat|, F)(s) == Sum(|wHat|, cell);
      SumStep(s, RowSum(|wHat|, F));
    }
    var count := |x| * |wHat|;
    assert count == 0 <==> |x| == 0 || |wHat| == 0;
    err := if count == 0 then 0.0 else sqSum / count as real;
  }

  lemma SqIs(x: real)
    ensures Sq(x) == x * x
  {
  }

  function ScaledRow(k: nat, x: Matrix, base: Matrix, d: Deployment, s: nat): (row: seq<real>)
    requires d.Chained? && IsBase(k, x, base, d) && |d.scale| == k && Positive(d.scale) && s < |x|
    ensures |row| == k && forall j :: 0 <= j < k ==> row[j] == LayerInput(k, RowVec(x, s), d)(j)
  {
    var u := Turned(k, Centered(RowVec(x, s), SeqVec(d.shift)), d.rotation);
    assert forall j :: 0 <= j < k ==> LayerInput(k, RowVec(x, s), d)(j) == u(j) * (1.0 / d.scale[j]);
    assert forall j :: 0 <= j < k ==> base[s][j] == u(j);
    DivideIsMultiply(base[s], d.scale);
    seq(k, j requires 0 <= j < k => base[s][j] / d.scale[j])
  }

  method Accumulate(k: nat, x: Matrix, xRow: seq<real>, wHat: Matrix, d: Deployment, s: nat, n: nat) returns (acc: real)
    requires Shape(x, |x|, k) && Shape(wHat, |wHat|, k) && s < |x| && n < |wHat|
    requires d.Chained? ==> |d.bias| == |wHat|
    requires |xRow| == k && forall j :: 0 <= j < k ==> xRow[j] == LayerInput(k, RowVec(x, s), d)(j)
    ensures acc == LayerOutput(k, RowVec(x, s), RowVec(wHat, n), d, n)
  {
    hide LayerInput;
    acc := 0.0;
    ghost var f := Mul(LayerInput(k, RowVec(x, s), d), RowVec(wHat, n));
    for j := 0 to k
      invariant acc == Sum(j, f)
    {
      acc := acc + xRow[j] * wHat[n][j];
    }
    if d.Chained? {
      acc := acc + d.bias[n];
    }
  }

  lemma DivideIsMultiply(b: seq<real>, s: seq<real>)
    requires Positive(s) && |b| == |s|
    ensures forall j :: 0 <= j < |s| ==> b[j] / s[j] == b[j] * (1.0 / s[j])
  {
  }

  // --- The stages ----------------------------------------------------------------------------

  /** The weight row its codes and scales stand for. */
  function DequantizedRow(codes: Codes, scales: Matrix, blockSize: nat, n: int): Vec {
    j =>
      if 0 <= n < |codes| && n < |scales| && blockSize > 0 && 0 <= j < |codes[n]|
        && 0 <= BlockOf(j, blockSize) < |scales[n]|
      then codes[n][j] as real * scales[n][BlockOf(j, blockSize)] else 0.0
  }

  function Dequantized(codes: Codes, scales: Matrix, blockSize: nat): int -> Vec {
    n => DequantizedRow(codes, scales, blockSize, n)
  }

  /** What a stage keeps: the codes, their scales, and the deployment they were scored under. */
  datatype Best = Best(codes: Codes, scales: Matrix, deployment: Deployment, clip: real, err: real)

  /** t holds, row by row, the weights deployment d needs. */
  ghost predicate IsTarget(k: nat, w: Matrix, d: Deployment, t: Matrix) {
    && Shape(t, |w|, k)
    && forall n, j :: 0 <= n < |w| && 0 <= j < k ==> t[n][j] == TargetWeight(k, RowVec(w, n), d)(j)
  }

  /** The kept choice is deployable, quantizes the weights its chain needs, and its score is the mean
      squared error of the deployed layer against the float one. */
  ghost predicate Honest(k: nat, x: Matrix, w: Matrix, blockSize: nat, b: Best) {
    && Sound(k, w, b.deployment)
    && (exists t :: IsTarget(k, w, b.deployment, t) && Quantizes(t, blockSize, b.clip, b.codes, b.scales))
    && b.err == Loss(k, x, FloatOutput(k, x, w), |w|, Dequantized(b.codes, b.scales, blockSize), b.deployment)
  }

  lemma TargetUnique(k: nat, w: Matrix, d: Deployment, t: Matrix, t': Matrix)
    requires IsTarget(k, w, d, t) && IsTarget(k, w, d, t')
    ensures t == t'
  {
    forall n | 0 <= n < |w| ensures t[n] == t'[n] {
      assert forall j :: 0 <= j < k ==> t[n][j] == t'[n][j];
    }
  }

  /** A deployment and a clip ratio leave nothing open: they have one honest record, and one error. */
  lemma HonestUnique(k: nat, x: Matrix, w: Matrix, blockSize: nat, b: Best, b': Best)
    requires Honest(k, x, w, blockSize, b) && Honest(k, x, w, blockSize, b')
    requires b.deployment == b'.deployment && b.clip == b'.clip
    ensures b == b'
  {
    hide IsTarget, Quantizes, Loss, FloatOutput, Dequantized, Sound;
    var t :| IsTarget(k, w, b.deployment, t) && Quantizes(t, blockSize, b.clip, b.codes, b.scales);
    var t' :| IsTarget(k, w, b'.deployment, t') && Quantizes(t', blockSize, b'.clip, b'.codes, b'.scales);
    TargetUnique(k, w, b.deployment, t, t');
    QuantizesUnique(t, blockSize, b.clip, b.codes, b.scales, b'.codes, b'.scales);
  }

  // --- The winner -------------------------------------------------------------------------------

  /** b is the earliest of the tried candidates that none beats. */
  ghost predicate FirstLeast(tried: seq<Best>, b: Best) {
    exists i :: 0 <= i < |tried| && FirstLeastAt(tried, i) && tried[i] == b
  }

  ghost predicate FirstLeastAt(tried: seq<Best>, i: nat)
    requires i < |tried|
  {
    && (forall j :: 0 <= j < |tried| ==> tried[i].err <= tried[j].err)
    && (forall j :: 0 <= j < i ==> tried[i].err < tried[j].err)
  }

  lemma OnlyCandidate(b: Best)
    ensures FirstLeast([b], b)
  {
    assert FirstLeastAt([b], 0);
  }

  /** A challenger wins only when it is strictly better. */
  lemma Challenged(tried: seq<Best>, b: Best, c: Best)
    requires FirstLeast(tried, b)
    ensures FirstLeast(tried + [c], if c.err < b.err then c else b)
  {
    var i :| 0 <= i < |tried| && FirstLeastAt(tried, i) && tried[i] == b;
    var more := tried + [c];
    assert FirstLeastAt(more, if c.err < b.err then |tried| else i);
  }

  /** Stages chain: each starts from the winner of those before. */
  lemma WinnerCarries(first: seq<Best>, start: Best, more: seq<Best>, b: Best)
    requires FirstLeast(first, start) && FirstLeast([start] + more, b)
    ensures FirstLeast(first + more, b)
  {
    var i :| 0 <= i < |first| && FirstLeastAt(first, i) && first[i] == start;
    var s := [start] + more;
    var k :| 0 <= k < |s| && FirstLeastAt(s, k) && s[k] == b;
    LeastOfBoth(first, i, more, k);
  }

  lemma LeastOfBoth(first: seq<Best>, i: nat, more: seq<Best>, k: nat)
    requires i < |first| && FirstLeastAt(first, i) && k <= |more| && FirstLeastAt([first[i]] + more, k)
    ensures var at, all := if k == 0 then i else |first| + k - 1, first + more;
            FirstLeastAt(all, at) && all[at] == ([first[i]] + more)[k]
  {
    var s, all := [first[i]] + more, first + more;
    var at := if k == 0 then i else |first| + k - 1;
    assert all[at] == s[k] && s[k].err <= s[0].err;
    forall j | 0 <= j < |all| ensures all[at].err <= all[j].err && (j < at ==> all[at].err < all[j].err) {
      assert j >= |first| ==> all[j] == s[j - |first| + 1];
    }
  }

  lemma LossCong(k: nat, x: Matrix, y: Mat, rows: nat, w: int -> Vec, w': int -> Vec, d: Deployment)
    requires forall n, j :: 0 <= n < rows && 0 <= j < k ==> w(n)(j) == w'(n)(j)
    ensures Loss(k, x, y, rows, w, d) == Loss(k, x, y, rows, w', d)
  {
    hide Sum, LayerInput, Sq;
    var F, F' := SquaredError(k, x, y, w, d), SquaredError(k, x, y, w', d);
    forall s | 0 <= s < |x| ensures RowSum(rows, F)(s) == RowSum(rows, F')(s) {
      var f, f' := n => F(s, n), n => F'(s, n);
      forall n | 0 <= n < rows ensures f(n) == f'(n) {
        DotCong(k, LayerInput(k, RowVec(x, s), d), w(n), LayerInput(k, RowVec(x, s), d), w'(n));
        assert f(n) == Sq(y(s, n) - LayerOutput(k, RowVec(x, s), w(n), d, n));
        assert f'(n) == Sq(y(s, n) - LayerOutput(k, RowVec(x, s), w'(n), d, n));
      }
      SumCong(rows, f, f');
      assert RowSum(rows, F)(s) == Sum(rows, f) && RowSum(rows, F')(s) == Sum(rows, f');
    }
    SumCong(|x|, RowSum(rows, F), RowSum(rows, F'));
  }

  /** Quantize the weights a deployment needs, and score the result. */
  method Try(k: nat, x: Matrix, y: Matrix, w: Matrix, t: Matrix, base: Matrix, d: Deployment, blockSize: nat,
             blocks: nat, clip: real)
    returns (b: Best)
    requires blockSize > 0 && k == blocks * blockSize
    requires Shape(x, |x|, k) && Shape(w, |w|, k) && Shape(y, |x|, |w|)
    requires forall s, n :: 0 <= s < |x| && 0 <= n < |w| ==> y[s][n] == FloatOutput(k, x, w)(s, n)
    requires Sound(k, w, d) && IsTarget(k, w, d, t) && (d.Chained? ==> IsBase(k, x, base, d))
    ensures Honest(k, x, w, blockSize, b) && b.deployment == d && b.clip == clip
  {
    hide LayerInput, Turned, FloatOutput;
    var codes, scales := QuantizeBlockwiseInt4WithClip(t, blockSize, blocks, clip);
    QuantizedShape(t, k, blockSize, clip, codes, scales);
    var wHat := ExpandAndMultiply(codes, scales, blockSize, blocks);
    var err := ReconstructionError(k, x, y, wHat, base, d, FloatOutput(k, x, w));
    DequantizedIsExpanded(k, codes, scales, blockSize, wHat);
    LossCong(k, x, FloatOutput(k, x, w), |w|, Rows(wHat), Dequantized(codes, scales, blockSize), d);
    b := Best(codes, scales, d, clip, err);
  }

  lemma QuantizedShape(t: Matrix, k: nat, blockSize: nat, clip: real, codes: Codes, scales: Matrix)
    requires Shape(t, |t|, k) && Quantizes(t, blockSize, clip, codes, scales)
    ensures Shape(codes, |t|, k)
  {
    hide CodeOf, BlockOf, IsBlockScale;
    assert forall i :: 0 <= i < |t| ==> QuantizesRow(t[i], blockSize, clip, codes[i], scales[i]);
  }

  lemma DequantizedIsExpanded(k: nat, codes: Codes, scales: Matrix, blockSize: nat, wHat: Matrix)
    requires Expands(codes, scales, blockSize, k, wHat)
    ensures forall n, j :: 0 <= n < |codes| && 0 <= j < k ==>
              Rows(wHat)(n)(j) == Dequantized(codes, scales, blockSize)(n)(j)
  {
    forall n, j | 0 <= n < |codes| && 0 <= j < k
      ensures Rows(wHat)(n)(j) == Dequantized(codes, scales, blockSize)(n)(j)
    {
      assert ExpandsRow(codes[n], scales[n], blockSize, wHat[n]);
      assert Rows(wHat)(n) == RowVec(wHat, n);
      assert Dequantized(codes, scales, blockSize)(n) == DequantizedRow(codes, scales, blockSize, n);
      var b := BlockOf(j, blockSize);
      assert 0 <= b < |scales[n]|;
    }
  }

  // --- Channel scales ------------------------------------------------------------------------

  /** Positivity and the logarithm laws, all the search needs of exp, log and pow. */
  ghost predicate IsExpLog(exp: real -> real, log: real -> real, pow: (real, real) -> real) {
    && (forall a :: 0.0 < exp(a))
    && (forall a :: log(exp(a)) == a)
    && (forall a, b :: DividesToDifference(log, a, b))
    && (forall a, b :: 0.0 < a ==> 0.0 < pow(a, b))
  }

  ghost predicate DividesToDifference(log: real -> real, a: real, b: real) {
    0.0 < a && 0.0 < b ==> log(a / b) == log(a) - log(b)
  }

  function Logs(s: seq<real>, log: real -> real): Vec { i => if 0 <= i < |s| then log(s[i]) else 0.0 }

  /** pow(act, alpha) * pow(weight, alpha - 1) per channel, normalized to geometric mean one. */
  method ChannelScaleForAlpha(weightMax: seq<real>, actMean: seq<real>, alpha: real, k: nat,
                              exp: real -> real, log: real -> real, pow: (real, real) -> real)
    returns (scale: seq<real>)
    requires |weightMax| == k && |actMean| == k && Positive(weightMax) && Positive(actMean) && k > 0
    requires IsExpLog(exp, log, pow)
    ensures |scale| == k && Positive(scale)
    ensures InRatio(scale, weightMax, actMean, alpha, pow)
    ensures Sum(k, Logs(scale, log)) == 0.0
  {
    hide Sum, IsExpLog, RawRatio, InRatio;
    var raw := [];
    var logSum := 0.0;
    SumZero(0, Logs(raw, log));
    for j := 0 to k
      invariant |raw| == j && Positive(raw)
      invariant forall i :: 0 <= i < j ==> raw[i] == RawRatio(weightMax[i], actMean[i], alpha, pow)
      invariant logSum == Sum(j, Logs(raw, log))
    {
      var r := RawScale(weightMax[j], actMean[j], alpha, exp, log, pow);
      SumCong(j, Logs(raw, log), Logs(raw + [r], log));
      raw := raw + [r];
      SumStep(j, Logs(raw, log));
      logSum := logSum + log(r);
    }
    var denom := exp(logSum / k as real);
    scale := Normalize(raw, denom, logSum, exp, log, pow);
    SameRatio(scale, raw, weightMax, actMean, alpha, pow);
  }

  function RawScale(weightMax: real, actMean: real, alpha: real, exp: real -> real, log: real -> real,
                    pow: (real, real) -> real): (r: real)
    requires 0.0 < weightMax && 0.0 < actMean && IsExpLog(exp, log, pow)
    ensures 0.0 < r && r == RawRatio(weightMax, actMean, alpha, pow)
  {
    RawRatio(weightMax, actMean, alpha, pow)
  }

  function RawRatio(weightMax: real, actMean: real, alpha: real, pow: (real, real) -> real): real {
    pow(actMean, alpha) * pow(weightMax, -(1.0 - alpha))
  }

  lemma RatioIs(weightMax: real, actMean: real, alpha: real, pow: (real, real) -> real)
    ensures RawRatio(weightMax, actMean, alpha, pow) == pow(actMean, alpha) * pow(weightMax, alpha - 1.0)
  {
    assert -(1.0 - alpha) == alpha - 1.0;
  }

  /** The scales stand to each other as the raw ones do. */
  ghost predicate InRatio(scale: seq<real>, weightMax: seq<real>, actMean: seq<real>, alpha: real,
                          pow: (real, real) -> real) {
    && |scale| == |weightMax| == |actMean|
    && forall i, j :: 0 <= i < |scale| && 0 <= j < |scale| ==>
         scale[i] * RawRatio(weightMax[j], actMean[j], alpha, pow)
           == scale[j] * RawRatio(weightMax[i], actMean[i], alpha, pow)
  }

  lemma SameRatio(scale: seq<real>, raw: seq<real>, weightMax: seq<real>, actMean: seq<real>, alpha: real,
                  pow: (real, real) -> real)
    requires |scale| == |raw| == |weightMax| == |actMean|
    requires forall i :: 0 <= i < |raw| ==> raw[i] == RawRatio(weightMax[i], actMean[i], alpha, pow)
    requires forall i, j :: 0 <= i < |raw| && 0 <= j < |raw| ==> scale[i] * raw[j] == scale[j] * raw[i]
    ensures InRatio(scale, weightMax, actMean, alpha, pow)
  {
    hide RawRatio;
    forall i, j | 0 <= i < |scale| && 0 <= j < |scale|
      ensures scale[i] * RawRatio(weightMax[j], actMean[j], alpha, pow)
           == scale[j] * RawRatio(weightMax[i], actMean[i], alpha, pow)
    {
      assert scale[i] * raw[j] == scale[j] * raw[i];
    }
  }

  /** In numbers: scales stand to each other as act^alpha * weight^(alpha - 1). */
  lemma RatiosAre(scale: seq<real>, weightMax: seq<real>, actMean: seq<real>, alpha: real, pow: (real, real) -> real)
    requires InRatio(scale, weightMax, actMean, alpha, pow)
    ensures forall i, j :: 0 <= i < |scale| && 0 <= j < |scale| ==>
              scale[i] * (pow(actMean[j], alpha) * pow(weightMax[j], alpha - 1.0))
                == scale[j] * (pow(actMean[i], alpha) * pow(weightMax[i], alpha - 1.0))
  {
    forall i, j | 0 <= i < |scale| && 0 <= j < |scale|
      ensures scale[i] * (pow(actMean[j], alpha) * pow(weightMax[j], alpha - 1.0))
           == scale[j] * (pow(actMean[i], alpha) * pow(weightMax[i], alpha - 1.0))
    {
      RatioIs(weightMax[i], actMean[i], alpha, pow);
      RatioIs(weightMax[j], actMean[j], alpha, pow);
      hide RawRatio;
    }
  }

  function Normalize(raw: seq<real>, denom: real, logSum: real, exp: real -> real, log: real -> real,
                     pow: (real, real) -> real): (scale: seq<real>)
    requires |raw| > 0 && Positive(raw) && IsExpLog(exp, log, pow)
    requires logSum == Sum(|raw|, Logs(raw, log)) && denom == exp(logSum / |raw| as real)
    ensures |scale| == |raw| && Positive(scale)
    ensures forall i, j :: 0 <= i < |raw| && 0 <= j < |raw| ==> scale[i] * raw[j] == scale[j] * raw[i]
    ensures Sum(|raw|, Logs(scale, log)) == 0.0
  {
    assert 0.0 < denom;
    SharesAreNormal(raw, denom, logSum, exp, log, pow);
    Shares(raw, denom)
  }

  function Shares(raw: seq<real>, denom: real): seq<real>
    requires denom != 0.0
  {
    seq(|raw|, j requires 0 <= j < |raw| => raw[j] / denom)
  }

  lemma SharesAreNormal(raw: seq<real>, denom: real, logSum: real, exp: real -> real, log: real -> real,
                        pow: (real, real) -> real)
    requires |raw| > 0 && Positive(raw) && IsExpLog(exp, log, pow) && 0.0 < denom
    requires logSum == Sum(|raw|, Logs(raw, log)) && denom == exp(logSum / |raw| as real)
    ensures var scale := Shares(raw, denom);
            && Positive(scale) && Sum(|raw|, Logs(scale, log)) == 0.0
            && forall i, j :: 0 <= i < |raw| && 0 <= j < |raw| ==> scale[i] * raw[j] == scale[j] * raw[i]
  {
    hide Sum, Logs, IsExpLog;
    var scale := Shares(raw, denom);
    forall j | 0 <= j < |raw| ensures 0.0 < scale[j] && log(scale[j]) == log(raw[j]) - log(denom) {
      QuotientLog(raw[j], denom, exp, log, pow);
    }
    LogOfExp(logSum / |raw| as real, exp, log, pow);
    LogsNormalize(raw, scale, log(denom), logSum, log);
    forall i, j | 0 <= i < |raw| && 0 <= j < |raw| ensures scale[i] * raw[j] == scale[j] * raw[i] {
      SameShare(raw[i], raw[j], denom);
    }
  }

  lemma LogOfExp(a: real, exp: real -> real, log: real -> real, pow: (real, real) -> real)
    requires IsExpLog(exp, log, pow)
    ensures log(exp(a)) == a
  {
  }

  lemma SameShare(a: real, b: real, d: real)
    requires d != 0.0
    ensures (a / d) * b == (b / d) * a
  {
  }

  lemma LogsNormalize(raw: seq<real>, scale: seq<real>, l: real, logSum: real, log: real -> real)
    requires |raw| > 0 && |scale| == |raw|
    requires forall j :: 0 <= j < |raw| ==> log(scale[j]) == log(raw[j]) - l
    requires l == logSum / |raw| as real && logSum == Sum(|raw|, Logs(raw, log))
    ensures Sum(|raw|, Logs(scale, log)) == 0.0
  {
    hide Sum;
    var n := |raw|;
    var f, one, g := Logs(raw, log), i => 1.0, Logs(scale, log);
    assert forall j :: 0 <= j < n ==> g(j) == 1.0 * f(j) + (-l) * one(j);
    SumLinear(n, 1.0, f, -l, one, g);
    SumOnes(n, one);
    ShareTimesCount(logSum, n as real);
  }

  lemma QuotientLog(a: real, b: real, exp: real -> real, log: real -> real, pow: (real, real) -> real)
    requires IsExpLog(exp, log, pow) && 0.0 < a && 0.0 < b
    ensures 0.0 < a / b && log(a / b) == log(a) - log(b)
  {
    assert DividesToDifference(log, a, b);
  }

  lemma ShareTimesCount(a: real, n: real)
    requires n != 0.0
    ensures (-(a / n)) * n == -a
  {
  }

  lemma {:induction false} SumOnes(n: nat, f: int -> real)
    requires forall i :: 0 <= i < n ==> f(i) == 1.0
    ensures Sum(n, f) == n as real
  {
    if n > 0 {
      SumOnes(n - 1, f);
    }
  }

  /** The largest magnitude in column j, or the floor if that is larger. */
  ghost predicate IsColumnMax(w: Matrix, j: nat, m: real)
    requires forall i :: 0 <= i < |w| ==> j < |w[i]|
  {
    && EPSILON <= m
    && (forall i :: 0 <= i < |w| ==> Abs(w[i][j]) <= m)
    && (m == EPSILON || exists i :: 0 <= i < |w| && Abs(w[i][j]) == m)
  }

  method ColumnMaxAbs(w: Matrix, k: nat) returns (m: seq<real>)
    requires Shape(w, |w|, k)
    ensures |m| == k && Positive(m)
    ensures forall j :: 0 <= j < k ==> IsColumnMax(w, j, m[j])
  {
    m := [];
    for j := 0 to k
      invariant |m| == j && Positive(m)
      invariant forall c :: 0 <= c < j ==> IsColumnMax(w, c, m[c])
    {
      var wmax := 0.0;
      for i := 0 to |w|
        invariant wmax >= 0.0 && forall r :: 0 <= r < i ==> Abs(w[r][j]) <= wmax
        invariant wmax == 0.0 || exists r :: 0 <= r < i && Abs(w[r][j]) == wmax
      {
        wmax := Max(wmax, Abs(w[i][j]));
      }
      assert IsColumnMax(w, j, Max(wmax, EPSILON));
      m := m + [Max(wmax, EPSILON)];
    }
  }

  function Magnitudes(u: Vec): Vec { i => if u(i) < 0.0 then -u(i) else u(i) }

  /** The mean magnitude of every column, never below the floor. */
  method ColumnMeanAbs(x: Matrix, k: nat) returns (m: seq<real>)
    requires Shape(x, |x|, k) && |x| > 0
    ensures |m| == k && Positive(m)
    ensures forall j :: 0 <= j < k ==> m[j] == Max(Sum(|x|, Magnitudes(ColVec(x, j))) / |x| as real, EPSILON)
  {
    m := [];
    for j := 0 to k
      invariant |m| == j && Positive(m)
      invariant forall c :: 0 <= c < j ==> m[c] == Max(Sum(|x|, Magnitudes(ColVec(x, c))) / |x| as real, EPSILON)
    {
      var sum := 0.0;
      for i := 0 to |x|
        invariant sum == Sum(i, Magnitudes(ColVec(x, j)))
      {
        sum := sum + Abs(x[i][j]);
      }
      m := m + [Max(sum / |x| as real, EPSILON)];
    }
  }

  ghost function ColumnMeans(x: Matrix, k: nat): seq<real>
    requires |x| > 0
  {
    seq(k, j requires 0 <= j < k => Sum(|x|, ColVec(x, j)) / |x| as real)
  }

  method ColumnMean(x: Matrix, k: nat) returns (shift: seq<real>)
    requires Shape(x, |x|, k) && |x| > 0
    ensures shift == ColumnMeans(x, k)
  {
    shift := [];
    for j := 0 to k
      invariant |shift| == j
      invariant forall c :: 0 <= c < j ==> shift[c] == Sum(|x|, ColVec(x, c)) / |x| as real
    {
      var sum := 0.0;
      for i := 0 to |x|
        invariant sum == Sum(i, ColVec(x, j))
      {
        sum := sum + x[i][j];
      }
      shift := shift + [sum / |x| as real];
    }
  }

  method CenterRows(x: Matrix, k: nat, shift: seq<real>) returns (c: Matrix)
    requires Shape(x, |x|, k) && |shift| == k
    ensures Shape(c, |x|, k)
    ensures forall s, j :: 0 <= s < |x| && 0 <= j < k ==> RowVec(c, s)(j) == Centered(RowVec(x, s), SeqVec(shift))(j)
  {
    c := [];
    for s := 0 to |x|
      invariant Shape(c, s, k)
      invariant forall i, j :: 0 <= i < s && 0 <= j < k ==> c[i][j] == x[i][j] - shift[j]
    {
      c := c + [seq(k, j requires 0 <= j < k => x[s][j] - shift[j])];
    }
  }

  method WeightTimesShift(w: Matrix, k: nat, shift: seq<real>) returns (bias: seq<real>)
    requires Shape(w, |w|, k) && |shift| == k
    ensures |bias| == |w|
    ensures forall n :: 0 <= n < |w| ==> bias[n] == Dot(k, RowVec(w, n), SeqVec(shift))
  {
    bias := [];
    for n := 0 to |w|
      invariant |bias| == n
      invariant forall i :: 0 <= i < n ==> bias[i] == Dot(k, RowVec(w, i), SeqVec(shift))
    {
      var acc := 0.0;
      ghost var f := Mul(RowVec(w, n), SeqVec(shift));
      for j := 0 to k
        invariant acc == Sum(j, f)
      {
        acc := acc + w[n][j] * shift[j];
      }
      bias := bias + [acc];
    }
  }

  method ScaleColumns(t: Matrix, k: nat, scale: seq<real>) returns (r: Matrix)
    requires Shape(t, |t|, k) && |scale| == k
    ensures Shape(r, |t|, k)
    ensures forall n, j :: 0 <= n < |t| && 0 <= j < k ==> r[n][j] == Mul(RowVec(t, n), SeqVec(scale))(j)
  {
    r := [];
    for n := 0 to |t|
      invariant Shape(r, n, k)
      invariant forall i, j :: 0 <= i < n && 0 <= j < k ==> r[i][j] == t[i][j] * scale[j]
    {
      r := r + [seq(k, j requires 0 <= j < k => t[n][j] * scale[j])];
    }
  }

  method YFromXWt(x: Matrix, w: Matrix, k: nat) returns (y: Matrix)
    requires Shape(x, |x|, k) && Shape(w, |w|, k)
    ensures Shape(y, |x|, |w|)
    ensures forall s, n :: 0 <= s < |x| && 0 <= n < |w| ==> y[s][n] == Dot(k, RowVec(x, s), RowVec(w, n))
  {
    y := [];
    for s := 0 to |x|
      invariant Shape(y, s, |w|)
      invariant forall i, n :: 0 <= i < s && 0 <= n < |w| ==> y[i][n] == Dot(k, RowVec(x, i), RowVec(w, n))
    {
      var row := [];
      for n := 0 to |w|
        invariant |row| == n
        invariant forall i :: 0 <= i < n ==> row[i] == Dot(k, RowVec(x, s), RowVec(w, i))
      {
        ghost var f := Mul(RowVec(x, s), RowVec(w, n));
        var acc := 0.0;
        for c := 0 to k
          invariant acc == Sum(c, f)
        {
          acc := acc + x[s][c] * w[n][c];
        }
        row := row + [acc];
      }
      y := y + [row];
    }
  }

  // --- The search -------------------------------------------------------------------------------

  /** Column j of the turned weights and of the turned activations. */
  function TurnedWeight(k: nat, w: Matrix, rotation: Option<Matrix>, n: int, j: int): real {
    Turned(k, RowVec(w, n), rotation)(j)
  }

  function TurnedColumn(k: nat, x: Matrix, shift: seq<real>, rotation: Option<Matrix>, j: int): Vec {
    i => Turned(k, Centered(RowVec(x, i), SeqVec(shift)), rotation)(j)
  }

  /** The largest turned weight of each column and the mean size of its turned activations, both floored. */
  ghost predicate ColumnSizes(k: nat, x: Matrix, w: Matrix, shift: seq<real>, rotation: Option<Matrix>,
                              weightMax: seq<real>, actMean: seq<real>)
    requires |x| > 0
  {
    && |weightMax| == |actMean| == k
    && (forall j :: 0 <= j < k ==> IsTurnedMax(k, w, rotation, j, weightMax[j]))
    && (forall j :: 0 <= j < k ==>
          actMean[j] == Max(Sum(|x|, Magnitudes(TurnedColumn(k, x, shift, rotation, j))) / |x| as real, EPSILON))
  }

  ghost predicate IsTurnedMax(k: nat, w: Matrix, rotation: Option<Matrix>, j: int, m: real) {
    && EPSILON <= m
    && (forall n :: 0 <= n < |w| ==> Abs(TurnedWeight(k, w, rotation, n, j)) <= m)
    && (m == EPSILON || exists n :: 0 <= n < |w| && Abs(TurnedWeight(k, w, rotation, n, j)) == m)
  }

  /** The scale of one grid point: in the ratios its column sizes ask for, and of geometric mean one. */
  ghost predicate GridScale(k: nat, x: Matrix, w: Matrix, shift: seq<real>, rotation: Option<Matrix>, alpha: real,
                            log: real -> real, pow: (real, real) -> real, scale: seq<real>)
    requires |x| > 0
  {
    && |scale| == k && Sum(k, Logs(scale, log)) == 0.0
    && exists weightMax, actMean ::
         && ColumnSizes(k, x, w, shift, rotation, weightMax, actMean)
         && InRatio(scale, weightMax, actMean, alpha, pow)
  }

  /** The grid point of stage 1: a clip ratio and nothing else. */
  ghost predicate ClipPoint(k: nat, x: Matrix, w: Matrix, blockSize: nat, clip: real, b: Best) {
    Honest(k, x, w, blockSize, b) && b.deployment == Direct && b.clip == clip
  }

  /** A grid point of stages 2 and 3. */
  ghost predicate AlphaPoint(k: nat, x: Matrix, w: Matrix, blockSize: nat, clip: real, shift: seq<real>,
                             rotation: Option<Matrix>, alpha: real, log: real -> real, pow: (real, real) -> real,
                             b: Best)
    requires |x| > 0
  {
    && Honest(k, x, w, blockSize, b) && b.clip == clip
    && b.deployment.Chained? && b.deployment.shift == shift && b.deployment.rotation == rotation
    && GridScale(k, x, w, shift, rotation, alpha, log, pow, b.deployment.scale)
  }

  /** One grid point per alpha after the first, in order. */
  ghost predicate AlphaStage(k: nat, x: Matrix, w: Matrix, blockSize: nat, clip: real, shift: seq<real>,
                             rotation: Option<Matrix>, alphas: seq<real>, log: real -> real,
                             pow: (real, real) -> real, tried: seq<Best>)
    requires |x| > 0
  {
    && |tried| == (if alphas == [] then 0 else |alphas| - 1)
    && forall i :: 0 <= i < |tried| ==>
         AlphaPoint(k, x, w, blockSize, clip, shift, rotation, alphas[i + 1], log, pow, tried[i])
  }

  lemma ColumnsAreTurned(k: nat, x: Matrix, w: Matrix, turnedX: Matrix, turnedW: Matrix, shift: seq<real>,
                         rotation: Option<Matrix>, weightMax: seq<real>, actMean: seq<real>)
    requires |x| > 0 && Shape(turnedX, |x|, k) && Shape(turnedW, |w|, k) && |weightMax| == |actMean| == k
    requires forall s, j :: 0 <= s < |x| && 0 <= j < k ==> turnedX[s][j] == TurnedColumn(k, x, shift, rotation, j)(s)
    requires forall n, j :: 0 <= n < |w| && 0 <= j < k ==> turnedW[n][j] == TurnedWeight(k, w, rotation, n, j)
    requires forall j :: 0 <= j < k ==> IsColumnMax(turnedW, j, weightMax[j])
    requires forall j :: 0 <= j < k ==>
               actMean[j] == Max(Sum(|x|, Magnitudes(ColVec(turnedX, j))) / |x| as real, EPSILON)
    ensures ColumnSizes(k, x, w, shift, rotation, weightMax, actMean)
  {
    hide Sum, TurnedColumn, TurnedWeight;
    forall j | 0 <= j < k ensures IsTurnedMax(k, w, rotation, j, weightMax[j]) {
      assert IsColumnMax(turnedW, j, weightMax[j]);
      assert forall n :: 0 <= n < |w| ==> turnedW[n][j] == TurnedWeight(k, w, rotation, n, j);
    }
    forall j | 0 <= j < k
      ensures Sum(|x|, Magnitudes(ColVec(turnedX, j))) == Sum(|x|, Magnitudes(TurnedColumn(k, x, shift, rotation, j)))
    {
      SumCong(|x|, Magnitudes(ColVec(turnedX, j)), Magnitudes(TurnedColumn(k, x, shift, rotation, j)));
    }
  }

  /** Stages 2 and 3: one deployment per alpha, over activations and weights in the same coordinates. */
  method TryAlphas(k: nat, x: Matrix, y: Matrix, w: Matrix, turnedX: Matrix, turnedW: Matrix, shift: seq<real>,
                   rotation: Option<Matrix>, bias: seq<real>, blockSize: nat, blocks: nat, alphas: seq<real>,
                   start: Best, exp: real -> real, log: real -> real, pow: (real, real) -> real)
    returns (best: Best, ghost tried: seq<Best>)
    requires blockSize > 0 && k == blocks * blockSize && k > 0 && |x| > 0 && IsExpLog(exp, log, pow)
    requires Shape(x, |x|, k) && Shape(w, |w|, k) && Shape(y, |x|, |w|)
    requires forall s, n :: 0 <= s < |x| && 0 <= n < |w| ==> y[s][n] == FloatOutput(k, x, w)(s, n)
    requires |shift| == k && |bias| == |w| && (rotation.Some? ==> OrthonormalRows(k, MatOf(rotation.value)))
    requires forall n :: 0 <= n < |w| ==> bias[n] == Dot(k, RowVec(w, n), SeqVec(shift))
    requires Shape(turnedX, |x|, k) && Shape(turnedW, |w|, k)
    requires forall s, j :: 0 <= s < |x| && 0 <= j < k ==>
        turnedX[s][j] == Turned(k, Centered(RowVec(x, s), SeqVec(shift)), rotation)(j)
    requires forall n, j :: 0 <= n < |w| && 0 <= j < k ==> turnedW[n][j] == Turned(k, RowVec(w, n), rotation)(j)
    requires Honest(k, x, w, blockSize, start)
    ensures AlphaStage(k, x, w, blockSize, start.clip, shift, rotation, alphas, log, pow, tried)
    ensures FirstLeast([start] + tried, best) && best.clip == start.clip
    ensures Honest(k, x, w, blockSize, best) && best.err <= start.err
    ensures best == start || (best.err < start.err && best.deployment.Chained? && best.deployment.rotation == rotation)
  {
    hide Turned, FloatOutput, LayerInput, Honest, IsExpLog, OrthonormalRows, FirstLeast, ColumnSizes, InRatio, Sum,
         IsColumnMax;
    var weightMax := ColumnMaxAbs(turnedW, k);
    var actMean := ColumnMeanAbs(turnedX, k);
    ColumnsAreTurned(k, x, w, turnedX, turnedW, shift, rotation, weightMax, actMean);
    best, tried := start, [];
    OnlyCandidate(start);
    assert [start] + tried == [start];
    var i := 1;
    while i < |alphas|
      invariant Honest(k, x, w, blockSize, best) && best.err <= start.err
      invariant best == start || (best.err < start.err && best.deployment.Chained?
                                  && best.deployment.rotation == rotation)
      invariant |tried| == i - 1 && FirstLeast([start] + tried, best) && best.clip == start.clip
      invariant i <= (if alphas == [] then 1 else |alphas|)
      invariant forall a :: 0 <= a < |tried| ==>
          AlphaPoint(k, x, w, blockSize, start.clip, shift, rotation, alphas[a + 1], log, pow, tried[a])
    {
      var scale := ChannelScaleForAlpha(weightMax, actMean, alphas[i], k, exp, log, pow);
      assert GridScale(k, x, w, shift, rotation, alphas[i], log, pow, scale);
      var d := Chained(scale, shift, rotation, bias);
      var t := ScaleColumns(turnedW, k, scale);
      ScaledIsTarget(k, w, turnedW, t, d);
      var b := Try(k, x, y, w, t, turnedX, d, blockSize, blocks, start.clip);
      Challenged([start] + tried, best, b);
      assert [start] + (tried + [b]) == [start] + tried + [b];
      tried := tried + [b];
      if b.err < best.err {
        best := b;
      }
      i := i + 1;
    }
  }

  lemma ScaledIsTarget(k: nat, w: Matrix, turnedW: Matrix, t: Matrix, d: Deployment)
    requires d.Chained? && Shape(turnedW, |w|, k) && Shape(t, |w|, k)
    requires forall n, j :: 0 <= n < |w| && 0 <= j < k ==> turnedW[n][j] == Turned(k, RowVec(w, n), d.rotation)(j)
    requires forall n, j :: 0 <= n < |w| && 0 <= j < k ==> t[n][j] == Mul(RowVec(turnedW, n), SeqVec(d.scale))(j)
    ensures IsTarget(k, w, d, t)
  {
    hide Turned;
    forall n, j | 0 <= n < |w| && 0 <= j < k ensures t[n][j] == TargetWeight(k, RowVec(w, n), d)(j) {
      assert RowVec(turnedW, n)(j) == Turned(k, RowVec(w, n), d.rotation)(j);
    }
  }

  /** Everything the search of one layer tries: the clip ratios, the winner among them, one scale per alpha on
      top of it, the rotation where the width allows one, and one scale per alpha in its coordinates. */
  datatype Trials = Trials(clipped: seq<Best>, lwc: Best, scaled: seq<Best>, rotation: Option<Matrix>,
                           turned: seq<Best>)

  ghost predicate ClipStage(k: nat, x: Matrix, w: Matrix, blockSize: nat, clips: seq<real>, tried: seq<Best>) {
    && |tried| == (if clips == [] then 1 else |clips|)
    && ClipPoint(k, x, w, blockSize, 1.0, tried[0])
    && forall i :: 1 <= i < |tried| ==> ClipPoint(k, x, w, blockSize, clips[i], tried[i])
  }

  /** The entries of R are those of the blocks of eigenvectors of the centered activations' covariance. */
  ghost predicate IsEigenRotation(k: nat, x: Matrix, shift: seq<real>, size: nat, R: Matrix) {
    exists c, blocks ::
      && IsCentered(k, x, shift, c) && TotalWidth(blocks) == k && DiagonalizesCovariance(c, k, size, blocks)
      && forall i, j :: 0 <= i < k && 0 <= j < k ==> MatOf(R)(i, j) == Assemble(blocks)(i, j)
  }

  ghost predicate IsCentered(k: nat, x: Matrix, shift: seq<real>, c: Matrix) {
    Shape(c, |x|, k) && forall s, j :: 0 <= s < |x| && 0 <= j < k ==>
         RowVec(c, s)(j) == Centered(RowVec(x, s), SeqVec(shift))(j)
  }

  /** The trials are exactly those the clip ratios and alphas ask for. */
  ghost predicate TriesAll(k: nat, x: Matrix, w: Matrix, blockSize: nat, affineBlockSize: int, clips: seq<real>,
                           alphas: seq<real>, log: real -> real, pow: (real, real) -> real, t: Trials)
    requires |x| > 0
  {
    var shift := ColumnMeans(x, k);
    && ClipStage(k, x, w, blockSize, clips, t.clipped) && FirstLeast(t.clipped, t.lwc)
    && AlphaStage(k, x, w, blockSize, t.lwc.clip, shift, None, alphas, log, pow, t.scaled)
    && (t.rotation.Some? <==> affineBlockSize >= 1 && k % affineBlockSize == 0)
    && (t.rotation.None? ==> t.turned == [])
    && (t.rotation.Some? ==>
          && IsEigenRotation(k, x, shift, affineBlockSize, t.rotation.value)
          && OrthonormalRows(k, MatOf(t.rotation.value))
          && AlphaStage(k, x, w, blockSize, t.lwc.clip, shift, t.rotation, alphas, log, pow, t.turned))
  }

  /** The whole search for one layer. rtn is its starting point, plain round-to-nearest. */
  method SearchLayer(k: nat, x: Matrix, w: Matrix, blockSize: nat, blocks: nat, affineBlockSize: int,
                     clips: seq<real>, alphas: seq<real>, sqrt: real -> real,
                     exp: real -> real, log: real -> real, pow: (real, real) -> real)
    returns (best: Best, ghost rtn: Best, ghost t: Trials)
    requires blockSize > 0 && k == blocks * blockSize && k > 0 && |x| > 0
    requires Shape(x, |x|, k) && Shape(w, |w|, k) && IsSqrt(sqrt) && IsExpLog(exp, log, pow)
    ensures TriesAll(k, x, w, blockSize, affineBlockSize, clips, alphas, log, pow, t)
    ensures FirstLeast(t.clipped + t.scaled + t.turned, best)
    ensures t.clipped != [] && rtn == t.clipped[0]
    ensures rtn.deployment == Direct && rtn.clip == 1.0 && Honest(k, x, w, blockSize, rtn)
    ensures Honest(k, x, w, blockSize, best) && best.err <= rtn.err
    ensures best.deployment.Direct? || best.err < rtn.err
  {
    hide Turned, FloatOutput, LayerInput, Honest, IsExpLog, IsSqrt, FirstLeast, AlphaStage, IsEigenRotation,
         OrthonormalRows, Sum;
    var y := YFromXWt(x, w, k);
    FloatOutputIs(k, x, w, y);
    ghost var clipped;
    best, clipped := TryClips(k, x, y, w, blockSize, blocks, clips);
    rtn := clipped[0];
    ghost var lwc := best;
    var shift := ColumnMean(x, k);
    var centered := CenterRows(x, k, shift);
    var bias := WeightTimesShift(w, k, shift);
    UnturnedIs(k, x, w, centered, shift);
    ghost var scaled;
    best, scaled := TryAlphas(k, x, y, w, centered, w, shift, None, bias, blockSize, blocks, alphas, best,
                              exp, log, pow);
    WinnerCarries(clipped, lwc, scaled, best);
    t := Trials(clipped, lwc, scaled, None, []);
    assert clipped + scaled + [] == clipped + scaled;
    if affineBlockSize >= 1 && k % affineBlockSize == 0 {
      var turned, turnedW, rotation := TurnLayer(k, x, w, centered, shift, affineBlockSize, sqrt);
      ghost var again, start := [], best;
      best, again := TryAlphas(k, x, y, w, turned, turnedW, shift, Some(rotation), bias, blockSize, blocks, alphas,
                               best, exp, log, pow);
      WinnerCarries(clipped + scaled, start, again, best);
      t := Trials(clipped, lwc, scaled, Some(rotation), again);
    }
  }

  /** Stage 1: clip ratio 1 first, then the others in order. */
  method TryClips(k: nat, x: Matrix, y: Matrix, w: Matrix, blockSize: nat, blocks: nat, clips: seq<real>)
    returns (best: Best, ghost tried: seq<Best>)
    requires blockSize > 0 && k == blocks * blockSize
    requires Shape(x, |x|, k) && Shape(w, |w|, k) && Shape(y, |x|, |w|)
    requires forall s, n :: 0 <= s < |x| && 0 <= n < |w| ==> y[s][n] == FloatOutput(k, x, w)(s, n)
    ensures ClipStage(k, x, w, blockSize, clips, tried) && FirstLeast(tried, best)
    ensures Honest(k, x, w, blockSize, best) && best.deployment == Direct && best.err <= tried[0].err
  {
    hide FloatOutput, LayerInput, Honest, FirstLeast;
    DirectIsTarget(k, w);
    best := Try(k, x, y, w, w, [], Direct, blockSize, blocks, 1.0);
    tried := [best];
    OnlyCandidate(best);
    var i := 1;
    while i < |clips|
      invariant |tried| == i <= (if clips == [] then 1 else |clips|) && ClipPoint(k, x, w, blockSize, 1.0, tried[0])
      invariant forall c :: 1 <= c < i ==> ClipPoint(k, x, w, blockSize, clips[c], tried[c])
      invariant FirstLeast(tried, best) && best.err <= tried[0].err
      invariant Honest(k, x, w, blockSize, best) && best.deployment == Direct
    {
      var b := Try(k, x, y, w, w, [], Direct, blockSize, blocks, clips[i]);
      Challenged(tried, best, b);
      tried := tried + [b];
      if b.err < best.err {
        best := b;
      }
      i := i + 1;
    }
  }

  /** The rotation of the centered activations, and both operands of the layer in its coordinates. */
  method TurnLayer(k: nat, x: Matrix, w: Matrix, centered: Matrix, shift: seq<real>, affineBlockSize: nat,
                   sqrt: real -> real)
    returns (turnedX: Matrix, turnedW: Matrix, rotation: Matrix)
    requires Shape(x, |x|, k) && Shape(w, |w|, k) && IsCentered(k, x, shift, centered)
    requires affineBlockSize > 0 && IsSqrt(sqrt)
    ensures OrthonormalRows(k, MatOf(rotation)) && IsEigenRotation(k, x, shift, affineBlockSize, rotation)
    ensures Shape(turnedX, |x|, k) && Shape(turnedW, |w|, k)
    ensures forall s, j :: 0 <= s < |x| && 0 <= j < k ==>
        turnedX[s][j] == Turned(k, Centered(RowVec(x, s), SeqVec(shift)), Some(rotation))(j)
    ensures forall n, j :: 0 <= n < |w| && 0 <= j < k ==> turnedW[n][j] == Turned(k, RowVec(w, n), Some(rotation))(j)
  {
    hide IsSqrt, OrthonormalRows, DiagonalizesCovariance, Assemble, TotalWidth;
    var a;
    ghost var blks;
    a, blks := BlockDiagonalRotation(centered, k, affineBlockSize, sqrt);
    rotation := Snapshot(a, k);
    OrthonormalCong(k, Assemble(blks), MatOf(rotation));
    turnedX := ApplyRotation(centered, a, k, MatOf(rotation));
    turnedW := ApplyRotation(w, a, k, MatOf(rotation));
    forall s, j | 0 <= s < |x| && 0 <= j < k
      ensures turnedX[s][j] == Turned(k, Centered(RowVec(x, s), SeqVec(shift)), Some(rotation))(j)
    {
      CoordsCong(k, RowVec(centered, s), Centered(RowVec(x, s), SeqVec(shift)), MatOf(rotation), j);
    }
  }

  method Snapshot(a: array2<real>, k: nat) returns (m: Matrix)
    requires a.Length0 == k && a.Length1 == k
    ensures Shape(m, k, k) && Holds(a, k, MatOf(m))
  {
    m := [];
    for i := 0 to k
      invariant Shape(m, i, k)
      invariant forall r, c :: 0 <= r < i && 0 <= c < k ==> m[r][c] == a[r, c]
    {
      var row := [];
      for j := 0 to k
        invariant |row| == j
        invariant forall c :: 0 <= c < j ==> row[c] == a[i, c]
      {
        row := row + [a[i, j]];
      }
      m := m + [row];
    }
  }

  lemma OrthonormalCong(k: nat, R: Mat, S: Mat)
    requires OrthonormalRows(k, R)
    requires forall i, j :: 0 <= i < k && 0 <= j < k ==> R(i, j) == S(i, j)
    ensures OrthonormalRows(k, S)
  {
    forall i, j | 0 <= i < k && 0 <= j < k ensures Dot(k, Row(S, i), Row(S, j)) == Identity(i, j) {
      DotCong(k, Row(R, i), Row(R, j), Row(S, i), Row(S, j));
      assert Dot(k, Row(R, i), Row(R, j)) == Identity(i, j);
    }
  }

  lemma CoordsCong(k: nat, u: Vec, u': Vec, R: Mat, j: int)
    requires forall i :: 0 <= i < k ==> u(i) == u'(i)
    ensures Coords(k, u, R)(j) == Coords(k, u', R)(j)
  {
    DotCong(k, u, Col(R, j), u', Col(R, j));
    assert Coords(k, u, R)(j) == Dot(k, u, Col(R, j)) && Coords(k, u', R)(j) == Dot(k, u', Col(R, j));
  }

  lemma FloatOutputIs(k: nat, x: Matrix, w: Matrix, y: Matrix)
    requires Shape(y, |x|, |w|)
    requires forall s, n :: 0 <= s < |x| && 0 <= n < |w| ==> y[s][n] == Dot(k, RowVec(x, s), RowVec(w, n))
    ensures forall s, n :: 0 <= s < |x| && 0 <= n < |w| ==> y[s][n] == FloatOutput(k, x, w)(s, n)
  {
  }

  lemma DirectIsTarget(k: nat, w: Matrix)
    requires Shape(w, |w|, k)
    ensures IsTarget(k, w, Direct, w) && Sound(k, w, Direct)
  {
  }

  lemma UnturnedIs(k: nat, x: Matrix, w: Matrix, centered: Matrix, shift: seq<real>)
    requires Shape(x, |x|, k) && Shape(w, |w|, k) && Shape(centered, |x|, k)
    requires forall s, j :: 0 <= s < |x| && 0 <= j < k ==>
               RowVec(centered, s)(j) == Centered(RowVec(x, s), SeqVec(shift))(j)
    ensures forall s, j :: 0 <= s < |x| && 0 <= j < k ==>
              centered[s][j] == Turned(k, Centered(RowVec(x, s), SeqVec(shift)), None)(j)
    ensures forall n, j :: 0 <= n < |w| && 0 <= j < k ==> w[n][j] == Turned(k, RowVec(w, n), None)(j)
  {
    forall s, j | 0 <= s < |x| && 0 <= j < k
      ensures centered[s][j] == Turned(k, Centered(RowVec(x, s), SeqVec(shift)), None)(j)
    {
      assert centered[s][j] == RowVec(centered, s)(j);
    }
  }
}
