/** The matrix loops behind the gradients, and the choice between two quantizations of a layer. */
module LossKernels {
  import opened Arith
  import opened Sums
  import opened JacobiTheory
  import opened BlockInt4
  import opened BlockAffine
  import opened AffineSearch
  import opened QuadLoss

  lemma MatOfAt(m: Matrix, rows: nat, cols: nat, i: nat, j: nat)
    requires Shape(m, rows, cols) && i < rows && j < cols
    ensures MatOf(m)(i, j) == m[i][j]
  {
  }

  // --- Products ----------------------------------------------------------------------------------

  /** The transpose of a times b: one accumulator per entry. */
  method AtB(a: Matrix, b: Matrix, n: nat, k: nat) returns (out: array2<real>)
    requires Shape(a, |a|, n) && Shape(b, |a|, k)
    ensures fresh(out) && out.Length0 == n && out.Length1 == k
    ensures forall r, c :: 0 <= r < n && 0 <= c < k ==> out[r, c] == TransposeProduct(|a|, MatOf(a), MatOf(b))(r, c)
  {
    out := new real[n, k];
    for r := 0 to n
      invariant forall i, c :: 0 <= i < r && 0 <= c < k ==> out[i, c] == TransposeProduct(|a|, MatOf(a), MatOf(b))(i, c)
    {
      for c := 0 to k
        invariant forall i, d :: 0 <= i < r && 0 <= d < k ==>
                    out[i, d] == TransposeProduct(|a|, MatOf(a), MatOf(b))(i, d)
        invariant forall d :: 0 <= d < c ==> out[r, d] == TransposeProduct(|a|, MatOf(a), MatOf(b))(r, d)
      {
        var acc := Column(a, b, n, k, r, c);
        out[r, c] := acc;
      }
    }
  }

  method Column(a: Matrix, b: Matrix, n: nat, k: nat, r: nat, c: nat) returns (acc: real)
    requires Shape(a, |a|, n) && Shape(b, |a|, k) && r < n && c < k
    ensures acc == TransposeProduct(|a|, MatOf(a), MatOf(b))(r, c)
  {
    acc := 0.0;
    ghost var f := Mul(Col(MatOf(a), r), Col(MatOf(b), c));
    for s := 0 to |a|
      invariant acc == Sum(s, f)
    {
      acc := acc + a[s][r] * b[s][c];
    }
  }

  /** Row s of a times b, accumulated in place; zero entries of a are skipped. */
  method AccumulateRow(a: Matrix, b: Matrix, s: nat, n: nat, k: nat, out: array2<real>)
    requires Shape(a, |a|, n) && Shape(b, n, k) && s < |a| && out.Length0 == |a| && out.Length1 == k
    requires forall c :: 0 <= c < k ==> out[s, c] == 0.0
    modifies out
    ensures forall c :: 0 <= c < k ==> out[s, c] == MatProduct(n, MatOf(a), MatOf(b))(s, c)
    ensures forall i, c :: 0 <= i < |a| && i != s && 0 <= c < k ==> out[i, c] == old(out[i, c])
  {
    for r := 0 to n
      invariant forall c :: 0 <= c < k ==> out[s, c] == Sum(r, Mul(Row(MatOf(a), s), Col(MatOf(b), c)))
      invariant forall i, c :: 0 <= i < |a| && i != s && 0 <= c < k ==> out[i, c] == old(out[i, c])
    {
      var av := a[s][r];
      forall c | 0 <= c < k
        ensures Sum(r + 1, Mul(Row(MatOf(a), s), Col(MatOf(b), c)))
                  == Sum(r, Mul(Row(MatOf(a), s), Col(MatOf(b), c))) + av * b[r][c]
      {
        SumStep(r, Mul(Row(MatOf(a), s), Col(MatOf(b), c)));
      }
      hide Sum;
      if av != 0.0 {
        for c := 0 to k
          invariant forall d :: 0 <= d < c ==> out[s, d] == Sum(r + 1, Mul(Row(MatOf(a), s), Col(MatOf(b), d)))
          invariant forall d :: c <= d < k ==> out[s, d] == Sum(r, Mul(Row(MatOf(a), s), Col(MatOf(b), d)))
          invariant forall i, d :: 0 <= i < |a| && i != s && 0 <= d < k ==> out[i, d] == old(out[i, d])
        {
          out[s, c] := out[s, c] + av * b[r][c];
        }
      }
    }
  }

  /** a times b. */
  method AB(a: Matrix, b: Matrix, n: nat, k: nat) returns (out: array2<real>)
    requires Shape(a, |a|, n) && Shape(b, n, k)
    ensures fresh(out) && out.Length0 == |a| && out.Length1 == k
    ensures forall s, c :: 0 <= s < |a| && 0 <= c < k ==> out[s, c] == MatProduct(n, MatOf(a), MatOf(b))(s, c)
  {
    out := new real[|a|, k]((i, j) => 0.0);
    for s := 0 to |a|
      invariant forall i, c :: 0 <= i < s && 0 <= c < k ==> out[i, c] == MatProduct(n, MatOf(a), MatOf(b))(i, c)
      invariant forall i, c :: s <= i < |a| && 0 <= c < k ==> out[i, c] == 0.0
    {
      AccumulateRow(a, b, s, n, k, out);
    }
  }

  // --- Blocks --------------------------------------------------------------------------------------

  method BroadcastBlocks(blocks: Matrix, count: nat, size: nat) returns (out: array2<real>)
    requires size > 0 && Shape(blocks, |blocks|, count)
    ensures fresh(out) && out.Length0 == |blocks| && out.Length1 == count * size
    ensures forall r, c :: 0 <= r < |blocks| && 0 <= c < count * size ==>
              out[r, c] == Broadcast(size, Row(MatOf(blocks), r))(c)
  {
    out := new real[|blocks|, count * size];
    for r := 0 to |blocks|
      invariant forall i, c :: 0 <= i < r && 0 <= c < count * size ==>
                  out[i, c] == Broadcast(size, Row(MatOf(blocks), i))(c)
    {
      for c := 0 to count * size
        invariant forall i, d :: 0 <= i < r && 0 <= d < count * size ==>
                    out[i, d] == Broadcast(size, Row(MatOf(blocks), i))(d)
        invariant forall d :: 0 <= d < c ==> out[r, d] == Broadcast(size, Row(MatOf(blocks), r))(d)
      {
        QuotientBelow(c, count, size);
        out[r, c] := blocks[r][c / size];
      }
    }
  }

  function BlockTerm(size: nat, g: Vec, b: int): Vec { s => g(b * size + s) }

  /** How many of block b's columns come before col. */
  function Seen(size: nat, b: int, col: int): nat {
    if col <= b * size then 0 else if col - b * size >= size then size else col - b * size
  }

  /** One more column adds its entry to its own block and leaves the others. */
  lemma OneMoreColumn(size: nat, b: int, col: nat)
    requires size > 0 && 0 <= b
    ensures b == col / size ==> b * size + Seen(size, b, col) == col && Seen(size, b, col + 1) == Seen(size, b, col) + 1
    ensures b != col / size ==> Seen(size, b, col + 1) == Seen(size, b, col)
  {
    var q, s := col / size, col % size;
    assert col == q * size + s;
    MulGap(q, b, size);
    MulGap(b, q, size);
  }

  /** Row g summed into its blocks in one pass over the columns. */
  method SumIntoBlocks(g: seq<real>, count: nat, size: nat) returns (out: array<real>)
    requires size > 0 && |g| == count * size
    ensures fresh(out) && out.Length == count
    ensures forall b :: 0 <= b < count ==> out[b] == BlockSum(size, SeqVec(g))(b)
  {
    out := new real[count](_ => 0.0);
    AllUnseen(g, count, size);
    hide BlockSum;
    for col := 0 to |g|
      invariant forall b :: 0 <= b < count ==> out[b] == Sum(Seen(size, b, col), BlockTerm(size, SeqVec(g), b))
    {
      QuotientBelow(col, count, size);
      var blk := col / size;
      forall b | 0 <= b < count
        ensures Sum(Seen(size, b, col + 1), BlockTerm(size, SeqVec(g), b))
             == Sum(Seen(size, b, col), BlockTerm(size, SeqVec(g), b)) + if b == blk then g[col] else 0.0
      {
        OneMoreColumn(size, b, col);
        SumStep(Seen(size, b, col), BlockTerm(size, SeqVec(g), b));
      }
      hide Sum, Seen;
      out[blk] := out[blk] + g[col];
    }
    forall b | 0 <= b < count ensures out[b] == BlockSum(size, SeqVec(g))(b) {
      AllSeen(count, size, b);
      SumCong(size, BlockTerm(size, SeqVec(g), b), s => SeqVec(g)(b * size + s));
    }
  }

  lemma AllUnseen(g: seq<real>, count: nat, size: nat)
    ensures forall b :: 0 <= b < count ==> Sum(Seen(size, b, 0), BlockTerm(size, SeqVec(g), b)) == 0.0
  {
    forall b | 0 <= b < count ensures Seen(size, b, 0) == 0 {
      NonNegativeProduct(b, size);
    }
  }

  lemma AllSeen(count: nat, size: nat, b: nat)
    requires b < count
    ensures Seen(size, b, count * size) == size
  {
    MulGap(b, count, size);
  }

  // --- Keeping the better one ------------------------------------------------------------------------

  /** The squared differences of one sample, as the loss sums them. */
  ghost function Squares(x: Matrix, w: Matrix, y: Matrix, k: nat): Mat {
    Squared(Residual(k, MatOf(x), MatOf(w), MatOf(y)))
  }

  method AddRow(x: Matrix, w: Matrix, y: Matrix, yHat: Matrix, k: nat, s: nat, start: real) returns (sum: real)
    requires Shape(x, |x|, k) && Shape(w, |w|, k) && Shape(y, |x|, |w|) && Shape(yHat, |x|, |w|) && s < |x|
    requires forall r :: 0 <= r < |w| ==> yHat[s][r] == Dot(k, RowVec(x, s), RowVec(w, r))
    ensures sum == start + RowSum(|w|, Squares(x, w, y, k))(s)
  {
    hide Squares, Sq, Sum, Dot, RowSum;
    ghost var row := Row(Squares(x, w, y, k), s);
    forall r | 0 <= r < |w| ensures row(r) == Sq(yHat[s][r] - y[s][r]) {
      CellIs(x, w, y, yHat, k, s, r);
    }
    RowSumIs(|w|, Squares(x, w, y, k), s, row);
    SumZero(0, row);
    hide *;
    sum := start;
    for r := 0 to |w|
      invariant sum == start + Sum(r, row)
    {
      var d := yHat[s][r] - y[s][r];
      SumStep(r, row);
      SqIs(d);
      sum := sum + d * d;
    }
  }

  /** Mean squared error of weights w against outputs y on activations x. */
  method MeanSquare(x: Matrix, w: Matrix, y: Matrix, k: nat) returns (loss: real)
    requires Shape(x, |x|, k) && Shape(w, |w|, k) && Shape(y, |x|, |w|) && |x| > 0 && |w| > 0
    ensures (|x| * |w|) as real > 0.0
    ensures loss == QuadLoss.Loss(|x|, |w|, k, MatOf(x), MatOf(w), MatOf(y), (|x| * |w|) as real)
  {
    var yHat := YFromXWt(x, w, k);
    var sum := 0.0;
    for s := 0 to |x|
      invariant sum == Sum(s, RowSum(|w|, Squares(x, w, y, k)))
    {
      hide Squares, RowSum, Dot;
      SumStep(s, RowSum(|w|, Squares(x, w, y, k)));
      sum := AddRow(x, w, y, yHat, k, s, sum);
    }
    ProductPositive(|x|, |w|);
    loss := sum / (|x| * |w|) as real;
  }

  lemma ProductPositive(a: nat, b: nat)
    requires a > 0 && b > 0
    ensures a * b > 0
  {
  }

  lemma CellIs(x: Matrix, w: Matrix, y: Matrix, yHat: Matrix, k: nat, s: nat, r: nat)
    requires Shape(x, |x|, k) && Shape(w, |w|, k) && Shape(y, |x|, |w|) && Shape(yHat, |x|, |w|) && s < |x| && r < |w|
    requires yHat[s][r] == Dot(k, RowVec(x, s), RowVec(w, r))
    ensures Row(Squares(x, w, y, k), s)(r) == Sq(yHat[s][r] - y[s][r])
  {
    hide Sum;
    DotCong(k, RowVec(x, s), RowVec(w, r), Row(MatOf(x), s), Row(MatOf(w), r));
    MatOfAt(y, |x|, |w|, s, r);
    hide Dot;
    var e := Residual(k, MatOf(x), MatOf(w), MatOf(y))(s, r);
    assert e == Predict(k, MatOf(x), MatOf(w))(s, r) - MatOf(y)(s, r);
    assert e == yHat[s][r] - y[s][r];
    assert Squares(x, w, y, k)(s, r) == Sq(e);
  }

  /** A quantized layer: its codes and the scales they are stored under, block by block and per element. */
  datatype Quantized = Quantized(codes: Matrix, scaleBlocks: Matrix, scale: Matrix)

  ghost predicate Fits(q: Quantized, rows: nat, k: nat) { Shape(q.codes, rows, k) && Shape(q.scale, rows, k) }

  function Dequantized(q: Quantized, rows: nat, k: nat): Matrix
    requires Fits(q, rows, k)
  {
    seq(rows, r requires 0 <= r < rows => seq(k, c requires 0 <= c < k => q.codes[r][c] * q.scale[r][c]))
  }

  ghost function LossOf(x: Matrix, y: Matrix, rows: nat, k: nat, q: Quantized): real
    requires Fits(q, rows, k) && (|x| * rows) as real > 0.0
  {
    QuadLoss.Loss(|x|, rows, k, MatOf(x), MatOf(Dequantized(q, rows, k)), MatOf(y), (|x| * rows) as real)
  }

  /** The loss of a quantized layer, from its codes and per-element scales. */
  lemma LossOfIs(x: Matrix, y: Matrix, rows: nat, k: nat, q: Quantized, w: Matrix)
    requires Fits(q, rows, k) && (|x| * rows) as real > 0.0 && Shape(w, rows, k)
    requires forall r, c :: 0 <= r < rows && 0 <= c < k ==> w[r][c] == q.codes[r][c] * q.scale[r][c]
    ensures LossOf(x, y, rows, k, q) == QuadLoss.Loss(|x|, rows, k, MatOf(x), MatOf(w), MatOf(y), (|x| * rows) as real)
  {
    hide QuadLoss.Loss;
    forall r | 0 <= r < rows ensures Dequantized(q, rows, k)[r] == w[r] {
      assert |w[r]| == k && |q.codes[r]| == k;
      assert forall c :: 0 <= c < k ==> Dequantized(q, rows, k)[r][c] == q.codes[r][c] * q.scale[r][c];
    }
    assert Dequantized(q, rows, k) == w;
  }

  /** The joint result is kept only where it is strictly better; so the outcome is never worse than rounding alone. */
  method KeepBetterOf(x: Matrix, y: Matrix, rows: nat, k: nat, joint: Quantized, roundingOnly: Quantized)
    returns (kept: Quantized)
    requires Shape(x, |x|, k) && Shape(y, |x|, rows) && |x| > 0 && rows > 0 && Fits(joint, rows, k)
    requires Fits(roundingOnly, rows, k)
    ensures kept == joint || kept == roundingOnly
    ensures (|x| * rows) as real > 0.0
    ensures LossOf(x, y, rows, k, kept) <= LossOf(x, y, rows, k, roundingOnly)
    ensures LossOf(x, y, rows, k, kept) <= LossOf(x, y, rows, k, joint)
    ensures kept == joint && joint != roundingOnly ==>
              LossOf(x, y, rows, k, joint) < LossOf(x, y, rows, k, roundingOnly)
  {
    var lossJoint := MeanSquare(x, Dequantized(joint, rows, k), y, k);
    var lossRounding := MeanSquare(x, Dequantized(roundingOnly, rows, k), y, k);
    hide QuadLoss.Loss, Dequantized;
    kept := if lossRounding <= lossJoint then roundingOnly else joint;
  }
}
