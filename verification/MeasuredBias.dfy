/** The per-channel correction: the mean error measured over the calibration batches. */
module MeasuredBias {
  import opened Common
  import opened BitPlane
  import BlockInt4

  /** One layer's float and quantized outputs on a batch, channel by channel, positions in order. */
  datatype Batch = Batch(f: seq<seq<real>>, q: seq<seq<real>>)

  /** Some channels, all with as many positions, at least one. */
  ghost predicate Even(t: seq<seq<real>>, channels: nat) {
    |t| == channels && forall c :: 0 <= c < channels ==> 0 < |t[c]| == |t[0]|
  }

  predicate SameShape(b: Batch) { |b.f| == |b.q| && forall c :: 0 <= c < |b.f| ==> |b.f[c]| == |b.q[c]| }

  function Diff(b: Batch, c: nat): seq<real>
    requires SameShape(b) && c < |b.f|
  {
    seq(|b.f[c]|, i requires 0 <= i < |b.f[c]| => b.f[c][i] - b.q[c][i])
  }

  /** All errors of a channel in the first n batches whose shapes agree. */
  function Diffs(batches: seq<Batch>, c: nat, n: nat): seq<real>
    requires n <= |batches|
  {
    if n == 0 then []
    else
      var b := batches[n - 1];
      Diffs(batches, c, n - 1) + if SameShape(b) && c < |b.f| then Diff(b, c) else []
  }

  lemma {:induction false} TotalConcat(a: seq<real>, b: seq<real>)
    ensures Total(a + b) == Total(a) + Total(b)
    decreases |b|
  {
    if b == [] {
      assert a + b == a;
    } else {
      assert (a + b)[..|a + b| - 1] == a + b[..|b| - 1];
      TotalConcat(a, b[..|b| - 1]);
    }
  }

  method ChannelSum(d: seq<real>) returns (sum: real)
    ensures sum == Total(d)
  {
    sum := 0.0;
    for i := 0 to |d|
      invariant sum == Total(d[..i])
    {
      assert d[..i + 1][..i] == d[..i];
      sum := sum + d[i];
    }
    assert d[..|d|] == d;
  }

  /** Sums and counts over the batches; a batch whose shapes differ is skipped. */
  method Accumulate(batches: seq<Batch>, channels: nat) returns (sums: seq<real>, count: nat)
    requires channels > 0 && forall i :: 0 <= i < |batches| ==> Even(batches[i].f, channels)
    ensures |sums| == channels
    ensures forall c :: 0 <= c < channels ==>
              sums[c] == Total(Diffs(batches, c, |batches|)) && count == |Diffs(batches, c, |batches|)|
  {
    NothingYet(batches);
    hide Total, Diffs, Diff;
    sums, count := seq(channels, _ => 0.0), 0;
    for i := 0 to |batches|
      invariant |sums| == channels
      invariant forall c :: 0 <= c < channels ==>
                  sums[c] == Total(Diffs(batches, c, i)) && count == |Diffs(batches, c, i)|
    {
      var b := batches[i];
      if SameShape(b) {
        var added := BatchSums(b, channels);
        Counted(batches, channels, i);
        sums := seq(channels, c requires 0 <= c < channels => sums[c] + added[c]);
        count := count + |b.f[0]|;
      } else {
        Skipped(batches, channels, i);
      }
    }
  }

  lemma NothingYet(batches: seq<Batch>)
    ensures forall c: nat :: Diffs(batches, c, 0) == []
    ensures Total([]) == 0.0
  {
  }

  lemma Counted(batches: seq<Batch>, channels: nat, i: nat)
    requires i < |batches| && SameShape(batches[i]) && Even(batches[i].f, channels) && channels > 0
    ensures forall c :: 0 <= c < channels ==>
              Total(Diffs(batches, c, i + 1)) == Total(Diffs(batches, c, i)) + Total(Diff(batches[i], c))
    ensures forall c :: 0 <= c < channels ==> |Diffs(batches, c, i + 1)| == |Diffs(batches, c, i)| + |batches[i].f[0]|
  {
    forall c | 0 <= c < channels ensures Diffs(batches, c, i + 1) == Diffs(batches, c, i) + Diff(batches[i], c)
                                      && Total(Diffs(batches, c, i + 1))
                                        == Total(Diffs(batches, c, i)) + Total(Diff(batches[i], c))
    {
      TotalConcat(Diffs(batches, c, i), Diff(batches[i], c));
      hide Total, Diff;
    }
  }

  lemma Skipped(batches: seq<Batch>, channels: nat, i: nat)
    requires i < |batches| && !SameShape(batches[i]) && forall k :: 0 <= k < |batches| ==> |batches[k].f| == channels
    ensures forall c :: 0 <= c < channels ==> Diffs(batches, c, i + 1) == Diffs(batches, c, i)
  {
  }

  method BatchSums(b: Batch, channels: nat) returns (sums: seq<real>)
    requires SameShape(b) && |b.f| == channels
    ensures |sums| == channels && forall c :: 0 <= c < channels ==> sums[c] == Total(Diff(b, c))
  {
    sums := [];
    for c := 0 to channels
      invariant |sums| == c && forall k :: 0 <= k < c ==> sums[k] == Total(Diff(b, k))
    {
      var s := ChannelSum(Diff(b, c));
      sums := sums + [s];
    }
  }

  /** No batch of the first n has outputs of one shape. */
  ghost predicate NoneAgree(batches: seq<Batch>, n: nat)
    requires n <= |batches|
  {
    forall i :: 0 <= i < n ==> !SameShape(batches[i])
  }

  /** The correction, or none when no batch agrees in shape or no channel's mean error exceeds the threshold. */
  method MeasureCorrection(batches: seq<Batch>, channels: nat, threshold: real) returns (correction: Option<seq<real>>)
    requires channels > 0 && forall i :: 0 <= i < |batches| ==> Even(batches[i].f, channels)
    ensures forall c :: 0 <= c < channels ==> (Diffs(batches, c, |batches|) == [] <==> NoneAgree(batches, |batches|))
    ensures correction.Some? ==>
              (|correction.value| == channels && forall c :: 0 <= c < channels && Diffs(batches, c, |batches|) != [] ==>
                 correction.value[c] == Mean(Diffs(batches, c, |batches|)))
    ensures correction.None? <==>
              (NoneAgree(batches, |batches|)
               || forall c :: 0 <= c < channels && Diffs(batches, c, |batches|) != [] ==>
                    BlockInt4.Abs(Mean(Diffs(batches, c, |batches|))) <= threshold)
    ensures correction.Some? ==> forall c :: 0 <= c < channels ==>
              Total(FloatOutputs(batches, c, |batches|))
                == Total(AddedOutputs(batches, c, |batches|, correction.value[c]))
    ensures correction.None? <==> forall c :: 0 <= c < channels ==> WithinThreshold(batches, c, threshold)
  {
    hide WithinThreshold, FloatOutputs, AddedOutputs;
    var sums, count := Accumulate(batches, channels);
    ErrorsExactlyWhen(batches, channels, |batches|);
    assert count == |Diffs(batches, 0, |batches|)|;
    forall c | 0 <= c < channels
      ensures Diffs(batches, c, |batches|) == [] ==> WithinThreshold(batches, c, threshold)
      ensures Diffs(batches, c, |batches|) != [] ==>
                (WithinThreshold(batches, c, threshold)
                 <==> BlockInt4.Abs(Mean(Diffs(batches, c, |batches|))) <= threshold)
    {
      ThresholdIsOnMean(batches, c, threshold);
    }
    if count == 0 {
      return None;
    }
    var means := seq(channels, c requires 0 <= c < channels => sums[c] / count as real);
    hide Total, Diffs;
    if forall c :: 0 <= c < channels ==> BlockInt4.Abs(means[c]) <= threshold {
      correction := None;
    } else {
      correction := Some(means);
    }
    forall c | 0 <= c < channels
      ensures means[c] == Mean(Diffs(batches, c, |batches|))
      ensures Total(FloatOutputs(batches, c, |batches|)) == Total(AddedOutputs(batches, c, |batches|, means[c]))
    {
      CorrectionFitsOutputs(batches, c, |batches|);
    }
  }

  lemma {:induction false} ErrorsExactlyWhen(batches: seq<Batch>, channels: nat, n: nat)
    requires channels > 0 && n <= |batches| && forall i :: 0 <= i < |batches| ==> Even(batches[i].f, channels)
    ensures forall c :: 0 <= c < channels ==> (Diffs(batches, c, n) == [] <==> NoneAgree(batches, n))
  {
    if n > 0 {
      ErrorsExactlyWhen(batches, channels, n - 1);
      forall c | 0 <= c < channels ensures Diffs(batches, c, n) == [] <==> NoneAgree(batches, n) {
        assert SameShape(batches[n - 1]) ==> |Diff(batches[n - 1], c)| > 0;
      }
    }
  }

  // --- What the correction does ----------------------------------------------------------------------

  /** The errors left once c is added to the quantized output. */
  function Left(d: seq<real>, c: real): seq<real> { seq(|d|, i requires 0 <= i < |d| => d[i] - c) }

  function SquareSum(d: seq<real>): real { if d == [] then 0.0 else SquareSum(d[..|d| - 1]) + d[|d| - 1] * d[|d| - 1] }

  lemma {:induction false} LeftTotal(d: seq<real>, c: real)
    ensures Total(Left(d, c)) == Total(d) - |d| as real * c
    decreases |d|
  {
    if d != [] {
      var init := d[..|d| - 1];
      LeftTotal(init, c);
      assert Left(d, c)[..|d| - 1] == Left(init, c);
      assert |d| as real * c == |init| as real * c + c;
    }
  }

  /** The corrected layer's mean error over the calibration data is exactly zero. */
  lemma CorrectionCentres(d: seq<real>)
    requires d != []
    ensures Total(Left(d, Mean(d))) == 0.0
  {
    LeftTotal(d, Mean(d));
    assert |d| as real * Mean(d) == Total(d);
  }

  lemma {:induction false} SquareSumMoves(d: seq<real>, c: real)
    ensures SquareSum(Left(d, c)) == SquareSum(d) - 2.0 * c * Total(d) + |d| as real * (c * c)
    decreases |d|
  {
    if d != [] {
      var init, x := d[..|d| - 1], d[|d| - 1];
      SquareSumMoves(init, c);
      assert Left(d, c)[..|d| - 1] == Left(init, c);
      assert (x - c) * (x - c) == x * x - 2.0 * c * x + c * c;
      assert |d| as real * (c * c) == |init| as real * (c * c) + c * c;
      assert 2.0 * c * Total(d) == 2.0 * c * Total(init) + 2.0 * c * x;
    }
  }

  /** No other constant leaves less squared error: any c is worse by its squared distance, once per entry. */
  lemma CorrectionIsLeastSquares(d: seq<real>, c: real)
    requires d != []
    ensures SquareSum(Left(d, c)) == SquareSum(Left(d, Mean(d))) + |d| as real * ((c - Mean(d)) * (c - Mean(d)))
  {
    hide *;
    var m, n := Mean(d), |d| as real;
    SquareSumMoves(d, c);
    SquareSumMoves(d, m);
    MeanTimesLength(d);
    ShiftFromMean(n, m, c, Total(d));
    ShiftToMean(n, m, Total(d));
  }

  lemma MeanTimesLength(d: seq<real>)
    requires d != []
    ensures Total(d) == |d| as real * Mean(d)
  {
  }

  lemma ShiftToMean(n: real, m: real, total: real)
    requires total == n * m
    ensures n * (m * m) - 2.0 * m * total == -(n * (m * m))
  {
    assert 2.0 * m * total == 2.0 * (n * (m * m));
  }

  lemma ShiftFromMean(n: real, m: real, c: real, total: real)
    requires total == n * m
    ensures n * (c * c) - 2.0 * c * total == n * ((c - m) * (c - m)) - n * (m * m)
  {
    assert (c - m) * (c - m) == c * c - 2.0 * (c * m) + m * m;
    assert 2.0 * c * total == n * (2.0 * (c * m));
  }

  // --- What it does to the outputs themselves ---------------------------------------------------------

  /** A channel's float outputs over the first n batches whose two outputs have one shape. */
  function FloatOutputs(batches: seq<Batch>, c: nat, n: nat): seq<real>
    requires n <= |batches|
  {
    if n == 0 then []
    else
      var b := batches[n - 1];
      var agree := |b.f| == |b.q| && forall k :: 0 <= k < |b.f| ==> |b.f[k]| == |b.q[k]|;
      FloatOutputs(batches, c, n - 1) + if agree && c < |b.f| then b.f[c] else []
  }

  /** Its quantized outputs over the same batches, each with x added. */
  function AddedOutputs(batches: seq<Batch>, c: nat, n: nat, x: real): seq<real>
    requires n <= |batches|
  {
    if n == 0 then []
    else
      var b := batches[n - 1];
      var agree := |b.f| == |b.q| && forall k :: 0 <= k < |b.f| ==> |b.f[k]| == |b.q[k]|;
      AddedOutputs(batches, c, n - 1, x)
      + if agree && c < |b.f| then seq(|b.q[c]|, i requires 0 <= i < |b.q[c]| => b.q[c][i] + x) else []
  }

  /** The summed squared distance of two lists of outputs. */
  function SquaredGap(f: seq<real>, g: seq<real>): real
    requires |f| == |g|
  {
    if f == [] then 0.0
    else
      var n := |f| - 1;
      SquaredGap(f[..n], g[..n]) + (f[n] - g[n]) * (f[n] - g[n])
  }

  /** Position by position, what is missing to the float output is the error less what was added. */
  lemma {:induction false} GapIsLeft(batches: seq<Batch>, c: nat, n: nat, x: real)
    requires n <= |batches|
    ensures |FloatOutputs(batches, c, n)| == |AddedOutputs(batches, c, n, x)| == |Diffs(batches, c, n)|
    ensures forall i :: 0 <= i < |FloatOutputs(batches, c, n)| ==>
              FloatOutputs(batches, c, n)[i] - AddedOutputs(batches, c, n, x)[i] == Left(Diffs(batches, c, n), x)[i]
  {
    if n > 0 {
      GapIsLeft(batches, c, n - 1, x);
    }
  }

  lemma {:induction false} TotalGap(f: seq<real>, g: seq<real>, d: seq<real>)
    requires |f| == |g| == |d| && forall i :: 0 <= i < |f| ==> f[i] - g[i] == d[i]
    ensures Total(f) - Total(g) == Total(d) && SquaredGap(f, g) == SquareSum(d)
    decreases |f|
  {
    if f != [] {
      var n := |f| - 1;
      TotalGap(f[..n], g[..n], d[..n]);
    }
  }

  /** Adding x leaves the errors less x: their sum, and the sum of their squares. */
  lemma AddedGap(batches: seq<Batch>, c: nat, n: nat, x: real)
    requires n <= |batches|
    ensures var f, g, d := FloatOutputs(batches, c, n), AddedOutputs(batches, c, n, x), Diffs(batches, c, n);
            && |f| == |g| == |d| && Total(f) - Total(g) == Total(Left(d, x))
            && SquaredGap(f, g) == SquareSum(Left(d, x))
  {
    GapIsLeft(batches, c, n, x);
    LeftLength(Diffs(batches, c, n), x);
    hide *;
    TotalGap(FloatOutputs(batches, c, n), AddedOutputs(batches, c, n, x), Left(Diffs(batches, c, n), x));
  }

  /** Adding the mean error makes a channel's quantized outputs sum to the float ones. */
  lemma CorrectionFitsOutputs(batches: seq<Batch>, c: nat, n: nat)
    requires n <= |batches| && Diffs(batches, c, n) != []
    ensures Total(FloatOutputs(batches, c, n)) == Total(AddedOutputs(batches, c, n, Mean(Diffs(batches, c, n))))
  {
    hide *;
    AddedGap(batches, c, n, Mean(Diffs(batches, c, n)));
    CorrectionCentres(Diffs(batches, c, n));
  }

  /** And brings them as near to the float ones as any one number can: every other is farther by its squared
      distance, once per position. */
  lemma CorrectionIsNearest(batches: seq<Batch>, c: nat, n: nat, x: real)
    requires n <= |batches| && Diffs(batches, c, n) != []
    ensures var m, f := Mean(Diffs(batches, c, n)), FloatOutputs(batches, c, n);
            && |f| == |AddedOutputs(batches, c, n, m)| == |AddedOutputs(batches, c, n, x)|
            && SquaredGap(f, AddedOutputs(batches, c, n, x))
                 == SquaredGap(f, AddedOutputs(batches, c, n, m)) + |f| as real * ((x - m) * (x - m))
  {
    hide *;
    AddedGap(batches, c, n, Mean(Diffs(batches, c, n)));
    AddedGap(batches, c, n, x);
    CorrectionIsLeastSquares(Diffs(batches, c, n), x);
  }

  /** The outputs of a channel differ by no more than the threshold per position, on the whole. */
  ghost predicate WithinThreshold(batches: seq<Batch>, c: nat, threshold: real) {
    var f, q := FloatOutputs(batches, c, |batches|), AddedOutputs(batches, c, |batches|, 0.0);
    -(threshold * |f| as real) <= Total(f) - Total(q) <= threshold * |f| as real
  }

  lemma ThresholdIsOnMean(batches: seq<Batch>, c: nat, threshold: real)
    ensures Diffs(batches, c, |batches|) == [] ==> WithinThreshold(batches, c, threshold)
    ensures Diffs(batches, c, |batches|) != [] ==>
              (WithinThreshold(batches, c, threshold)
               <==> BlockInt4.Abs(Mean(Diffs(batches, c, |batches|))) <= threshold)
  {
    hide Diffs, FloatOutputs, AddedOutputs, Left, Mean, Total, BlockInt4.Abs;
    var d := Diffs(batches, c, |batches|);
    AddedGap(batches, c, |batches|, 0.0);
    LeftNothing(d);
    if d != [] {
      MeanTimesLength(d);
      PerPosition(Mean(d), threshold, |d| as real);
    }
  }

  lemma LeftNothing(d: seq<real>)
    ensures Total(Left(d, 0.0)) == Total(d) && (d == [] ==> Total(d) == 0.0)
  {
    assert Left(d, 0.0) == d;
  }

  lemma PerPosition(m: real, t: real, n: real)
    requires 0.0 < n
    ensures -(t * n) <= n * m <= t * n <==> BlockInt4.Abs(m) <= t
  {
    BlockInt4.MulMonotone(m, t, n);
    BlockInt4.MulMonotone(t, m, n);
    BlockInt4.MulMonotone(-t, m, n);
    BlockInt4.MulMonotone(m, -t, n);
  }

  lemma LeftLength(d: seq<real>, x: real)
    ensures |Left(d, x)| == |d|
  {
  }
}
