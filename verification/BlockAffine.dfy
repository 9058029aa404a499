/** The block-affine transform: a block-diagonal rotation made of eigenvectors, and the chain of graph
    operators that undoes it around a quantized layer. */
module BlockAffine {
  import opened Common
  import opened Sums
  import opened JacobiTheory
  import opened Jacobi
  import opened BlockInt4

  function SeqVec(s: seq<real>): Vec { j => if 0 <= j < |s| then s[j] else 0.0 }

  function RowVec(m: Matrix, i: int): Vec { j => if 0 <= i < |m| && 0 <= j < |m[i]| then m[i][j] else 0.0 }

  function ColVec(m: Matrix, j: int): Vec { i => if 0 <= i < |m| && 0 <= j < |m[i]| then m[i][j] else 0.0 }

  // --- Block-diagonal rotations ------------------------------------------------------

  /** R on the leading start coordinates, E on the ones after them, zero where they meet. */
  function Append(R: Mat, start: int, E: Mat): Mat {
    (i, j) =>
      if i < start && j < start then R(i, j)
      else if start <= i && start <= j then E(i - start, j - start)
      else 0.0
  }

  lemma AppendKeepsOrthonormal(R: Mat, start: nat, E: Mat, width: nat)
    requires OrthonormalRows(start, R) && OrthonormalRows(width, E)
    ensures OrthonormalRows(start + width, Append(R, start, E))
  {
    forall i, j | 0 <= i < start + width && 0 <= j < start + width
      ensures Dot(start + width, Row(Append(R, start, E), i), Row(Append(R, start, E), j)) == Identity(i, j)
    {
      AppendedRowDot(R, start, E, width, i, j);
    }
  }

  lemma AppendedRowDot(R: Mat, start: nat, E: Mat, width: nat, i: int, j: int)
    requires OrthonormalRows(start, R) && OrthonormalRows(width, E)
    requires 0 <= i < start + width && 0 <= j < start + width
    ensures Dot(start + width, Row(Append(R, start, E), i), Row(Append(R, start, E), j)) == Identity(i, j)
  {
    hide Sum;
    var n, T := start + width, Append(R, start, E);
    var f := Mul(Row(T, i), Row(T, j));
    if i < start && j < start {
      var g := Mul(Row(R, i), Row(R, j));
      SumWindow(n, 0, start, f, g);
      assert Dot(start, Row(R, i), Row(R, j)) == Identity(i, j);
    } else if start <= i && start <= j {
      var g := Mul(Row(E, i - start), Row(E, j - start));
      SumWindow(n, start, n, f, g);
      assert Dot(width, Row(E, i - start), Row(E, j - start)) == Identity(i - start, j - start);
    } else {
      SumZero(n, f);
    }
  }

  /** One block: its width, its eigenvectors, the covariance in their coordinates, and the sweeps that took. */
  datatype Block = Block(width: nat, vectors: Mat, diagonalized: Mat, sweeps: nat)

  ghost function TotalWidth(blocks: seq<Block>): nat {
    if blocks == [] then 0 else TotalWidth(blocks[..|blocks| - 1]) + blocks[|blocks| - 1].width
  }

  ghost function Assemble(blocks: seq<Block>): Mat {
    if blocks == [] then Identity
    else Append(Assemble(blocks[..|blocks| - 1]), TotalWidth(blocks[..|blocks| - 1]), blocks[|blocks| - 1].vectors)
  }

  /** The covariance of two activation columns. */
  ghost function Covariance(x: Matrix, a: int, b: int): real {
    Dot(|x|, ColVec(x, a), ColVec(x, b)) / (if |x| == 0 then 1 else |x|) as real
  }

  ghost function BlockCovariance(x: Matrix, start: int): Mat { (i, j) => Covariance(x, start + i, start + j) }

  /** Every block is as wide as asked, or as what is left, and holds what the solver finds for the covariance
      of its own columns. */
  ghost predicate DiagonalizesCovariance(x: Matrix, k: nat, blockSize: nat, blocks: seq<Block>) {
    forall b :: 0 <= b < |blocks| ==> DiagonalizesBlock(x, k, blockSize, TotalWidth(blocks[..b]), blocks[b])
  }

  ghost predicate DiagonalizesBlock(x: Matrix, k: nat, blockSize: nat, start: nat, b: Block) {
    && b.width == (if start + blockSize < k then blockSize else k - start)
    && IsEigenSystem(b.width, BlockCovariance(x, start), b.diagonalized, b.vectors, b.sweeps)
  }

  method BlockCov(x: Matrix, k: nat, start: nat, width: nat) returns (cov: array2<real>)
    requires Shape(x, |x|, k) && start + width <= k
    ensures fresh(cov) && Holds(cov, width, BlockCovariance(x, start))
  {
    hide Sum;
    cov := new real[width, width];
    var denom := if |x| == 0 then 1 else |x|;
    var i := 0;
    while i < width
      invariant i <= width
      invariant forall a, b :: 0 <= a < i && 0 <= b < width ==> cov[a, b] == Covariance(x, start + a, start + b)
    {
      var j := 0;
      while j < width
        invariant j <= width
        invariant forall a, b :: 0 <= a < i && 0 <= b < width ==> cov[a, b] == Covariance(x, start + a, start + b)
        invariant forall b :: 0 <= b < j ==> cov[i, b] == Covariance(x, start + i, start + b)
      {
        var acc := DotColumns(x, k, start + i, start + j);
        cov[i, j] := acc / denom as real;
        j := j + 1;
      }
      i := i + 1;
    }
    assert forall a, b :: 0 <= a < width && 0 <= b < width ==>
         BlockCovariance(x, start)(a, b) == Covariance(x, start + a, start + b);
  }

  method DotColumns(x: Matrix, k: nat, a: nat, b: nat) returns (acc: real)
    requires Shape(x, |x|, k) && a < k && b < k
    ensures acc == Dot(|x|, ColVec(x, a), ColVec(x, b))
  {
    acc := 0.0;
    ghost var f := Mul(ColVec(x, a), ColVec(x, b));
    for s := 0 to |x|
      invariant acc == Sum(s, f)
    {
      acc := acc + x[s][a] * x[s][b];
    }
  }

  lemma CovarianceSymmetric(x: Matrix, start: int, width: nat)
    ensures Symmetric(width, BlockCovariance(x, start))
  {
    forall i, j | 0 <= i < width && 0 <= j < width
      ensures BlockCovariance(x, start)(i, j) == BlockCovariance(x, start)(j, i)
    {
      DotSymmetric(|x|, ColVec(x, start + i), ColVec(x, start + j));
      assert BlockCovariance(x, start)(i, j) == Covariance(x, start + i, start + j);
      assert BlockCovariance(x, start)(j, i) == Covariance(x, start + j, start + i);
    }
  }

  lemma AssembleStep(blocks: seq<Block>, b: Block)
    ensures TotalWidth(blocks + [b]) == TotalWidth(blocks) + b.width
    ensures Assemble(blocks + [b]) == Append(Assemble(blocks), TotalWidth(blocks), b.vectors)
  {
    assert (blocks + [b])[..|blocks|] == blocks;
  }

  lemma DiagonalizesStep(x: Matrix, k: nat, blockSize: nat, blocks: seq<Block>, b: Block)
    requires DiagonalizesCovariance(x, k, blockSize, blocks)
    requires DiagonalizesBlock(x, k, blockSize, TotalWidth(blocks), b)
    ensures DiagonalizesCovariance(x, k, blockSize, blocks + [b])
  {
    hide DiagonalizesBlock;
    var all := blocks + [b];
    forall i | 0 <= i < |all| ensures DiagonalizesBlock(x, k, blockSize, TotalWidth(all[..i]), all[i]) {
      assert all[..i] == blocks[..i];
      assert blocks[..|blocks|] == blocks;
    }
  }

  method BlockDiagonalRotation(x: Matrix, k: nat, blockSize: nat, sqrt: real -> real)
    returns (rotation: array2<real>, ghost blocks: seq<Block>)
    requires Shape(x, |x|, k) && blockSize > 0 && IsSqrt(sqrt)
    ensures TotalWidth(blocks) == k && Holds(rotation, k, Assemble(blocks))
    ensures OrthonormalRows(k, Assemble(blocks))
    ensures DiagonalizesCovariance(x, k, blockSize, blocks)
  {
    hide IsSqrt, IsEigenSystem, OrthonormalRows, Assemble, TotalWidth, DiagonalizesCovariance, BlockCovariance;
    rotation := new real[k, k]((i, j) => 0.0);
    blocks := [];
    EmptyBlocks(x, k, blockSize);
    var start := 0;
    while start < k
      invariant start <= k && start == TotalWidth(blocks) && fresh(rotation)
      invariant forall i, j :: 0 <= i < k && 0 <= j < k ==>
          rotation[i, j] == if i < start && j < start then Assemble(blocks)(i, j) else 0.0
      invariant OrthonormalRows(start, Assemble(blocks))
      invariant DiagonalizesCovariance(x, k, blockSize, blocks)
    {
      var stop := if start + blockSize < k then start + blockSize else k;
      var width := stop - start;
      var cov := BlockCov(x, k, start, width);
      CovarianceSymmetric(x, start, width);
      var eigenvalues, eigenvectors;
      ghost var D, E, sweeps;
      eigenvalues, eigenvectors, D, E, sweeps := JacobiEigenSymmetric(cov, width, sqrt, BlockCovariance(x, start));
      ghost var R := Assemble(blocks);
      CopyBlock(rotation, k, start, eigenvectors, width, E, R);
      AppendKeepsOrthonormal(R, start, E, width) by {
        SystemOrthonormal(width, BlockCovariance(x, start), D, E, sweeps);
      }
      AssembleStep(blocks, Block(width, E, D, sweeps));
      DiagonalizesStep(x, k, blockSize, blocks, Block(width, E, D, sweeps));
      blocks := blocks + [Block(width, E, D, sweeps)];
      start := stop;
    }
  }

  lemma EmptyBlocks(x: Matrix, k: nat, blockSize: nat)
    ensures TotalWidth([]) == 0 && OrthonormalRows(0, Assemble([])) && DiagonalizesCovariance(x, k, blockSize, [])
  {
  }

  lemma SystemOrthonormal(n: nat, A0: Mat, D: Mat, E: Mat, sweeps: nat)
    requires IsEigenSystem(n, A0, D, E, sweeps)
    ensures OrthonormalRows(n, E)
  {
  }

  /** Entry (a, b) once rows 0 .. i-1 of E and the first c entries of row i are in place. */
  function Partial(R: Mat, start: int, E: Mat, width: int, i: int, c: int, a: int, b: int): real {
    if a < start && b < start then R(a, b)
    else if start <= a < start + i && start <= b < start + width then E(a - start, b - start)
    else if a == start + i && start <= b < start + c then E(a - start, b - start)
    else 0.0
  }

  method CopyBlock(rotation: array2<real>, k: nat, start: nat, e: array2<real>, width: nat, ghost E: Mat, ghost R: Mat)
    requires start + width <= k && Holds(e, width, E) && rotation != e
    requires rotation.Length0 == k && rotation.Length1 == k
    requires forall i, j :: 0 <= i < k && 0 <= j < k ==>
        rotation[i, j] == if i < start && j < start then R(i, j) else 0.0
    modifies rotation
    ensures forall i, j :: 0 <= i < k && 0 <= j < k ==>
        rotation[i, j] == if i < start + width && j < start + width then Append(R, start, E)(i, j) else 0.0
  {
    var i := 0;
    while i < width
      invariant i <= width
      invariant forall a, b :: 0 <= a < k && 0 <= b < k ==> rotation[a, b] == Partial(R, start, E, width, i, 0, a, b)
    {
      var c := 0;
      while c < width
        invariant c <= width
        invariant forall a, b :: 0 <= a < k && 0 <= b < k ==> rotation[a, b] == Partial(R, start, E, width, i, c, a, b)
      {
        rotation[start + i, start + c] := e[i, c];
        c := c + 1;
      }
      i := i + 1;
    }
  }

  /** Every row of x in the coordinates of the rotation's columns. */
  method ApplyRotation(x: Matrix, rotation: array2<real>, k: nat, ghost R: Mat) returns (out: Matrix)
    requires Shape(x, |x|, k) && Holds(rotation, k, R)
    ensures Shape(out, |x|, k)
    ensures forall i, j :: 0 <= i < |x| && 0 <= j < k ==> out[i][j] == Coords(k, RowVec(x, i), R)(j)
  {
    out := [];
    for s := 0 to |x|
      invariant Shape(out, s, k)
      invariant forall i, j :: 0 <= i < s && 0 <= j < k ==> out[i][j] == Coords(k, RowVec(x, i), R)(j)
    {
      var row := [];
      for j := 0 to k
        invariant |row| == j
        invariant forall y :: 0 <= y < j ==> row[y] == Coords(k, RowVec(x, s), R)(y)
      {
        ghost var f := Mul(RowVec(x, s), Col(R, j));
        var acc := 0.0;
        for i := 0 to k
          invariant acc == Sum(i, f)
        {
          acc := acc + x[s][i] * rotation[i, j];
        }
        assert Coords(k, RowVec(x, s), R)(j) == Dot(k, RowVec(x, s), Col(R, j));
        row := row + [acc];
      }
      out := out + [row];
    }
  }
}
