/** The reconstruction loss is quadratic, and the computed products are its exact gradients. */
module QuadLoss {
  import opened Arith
  import opened Common
  import opened Sums
  import opened JacobiTheory
  import opened BlockInt4
  import opened BlockAffine

  // --- Double sums -----------------------------------------------------------------------------

  function Total(n: nat, m: nat, F: Mat): real { Sum(n, RowSum(m, F)) }

  lemma RowSumIs(m: nat, F: Mat, i: int, f: Vec)
    requires forall j :: 0 <= j < m ==> f(j) == F(i, j)
    ensures RowSum(m, F)(i) == Sum(m, f)
  {
    SumCong(m, f, j => F(i, j));
  }

  lemma ColSumIs(n: nat, F: Mat, j: int, f: Vec)
    requires forall i :: 0 <= i < n ==> f(i) == F(i, j)
    ensures ColSum(n, F)(j) == Sum(n, f)
  {
    SumCong(n, f, i => F(i, j));
  }

  lemma TotalLinear(n: nat, m: nat, a: real, F: Mat, b: real, G: Mat, H: Mat)
    requires forall i, j :: 0 <= i < n && 0 <= j < m ==> H(i, j) == a * F(i, j) + b * G(i, j)
    ensures Total(n, m, H) == a * Total(n, m, F) + b * Total(n, m, G)
  {
    hide Sum;
    forall i | 0 <= i < n ensures RowSum(m, H)(i) == a * RowSum(m, F)(i) + b * RowSum(m, G)(i) {
      var f, g, h := Row(F, i), Row(G, i), Row(H, i);
      RowSumIs(m, F, i, f);
      RowSumIs(m, G, i, g);
      RowSumIs(m, H, i, h);
      SumLinear(m, a, f, b, g, h);
    }
    SumLinear(n, a, RowSum(m, F), b, RowSum(m, G), RowSum(m, H));
  }

  // --- Adjoints ---------------------------------------------------------------------------------

  /** g applied from the left, or d from the right. */
  lemma VecAdjoint(n: nat, k: nat, g: Vec, M: Mat, d: Vec, left: Vec, right: Vec)
    requires forall s :: 0 <= s < n ==> left(s) == g(s) * Dot(k, Row(M, s), d)
    requires forall c :: 0 <= c < k ==> right(c) == Dot(n, g, Col(M, c)) * d(c)
    ensures Sum(n, left) == Sum(k, right)
  {
    hide Sum;
    var F: Mat := (s, c) => g(s) * M(s, c) * d(c);
    forall s | 0 <= s < n ensures RowSum(k, F)(s) == left(s) {
      var f := Mul(Row(M, s), d);
      var h: Vec := c => g(s) * f(c);
      forall c | 0 <= c < k ensures h(c) == F(s, c) {
        Associate(g(s), M(s, c), d(c));
      }
      SumScale(k, g(s), f, h);
      RowSumIs(k, F, s, h);
    }
    forall c | 0 <= c < k ensures ColSum(n, F)(c) == right(c) {
      var f := Mul(g, Col(M, c));
      var h: Vec := s => d(c) * f(s);
      forall s | 0 <= s < n ensures h(s) == F(s, c) {
        Associate(g(s), M(s, c), d(c));
      }
      SumScale(n, d(c), f, h);
      ColSumIs(n, F, c, h);
    }
    SumCong(n, RowSum(k, F), left);
    SumCong(k, ColSum(n, F), right);
    SumSwap(n, k, F);
  }

  lemma Associate(x: real, y: real, z: real)
    ensures x * (y * z) == x * y * z && z * (x * y) == x * y * z
  {
  }

  /** Entrywise product. */
  function Times(A: Mat, B: Mat): Mat { (i, j) => A(i, j) * B(i, j) }

  /** X times the transpose of W. */
  function Predict(k: nat, X: Mat, W: Mat): Mat { (s, r) => Dot(k, Row(X, s), Row(W, r)) }

  /** The transpose of A times B, over n rows. */
  function TransposeProduct(n: nat, A: Mat, B: Mat): Mat { (r, c) => Dot(n, Col(A, r), Col(B, c)) }

  /** A times B, inner dimension n. */
  function MatProduct(n: nat, A: Mat, B: Mat): Mat { (s, c) => Dot(n, Row(A, s), Col(B, c)) }

  /** The weight gradient is the adjoint of the layer in its weights. */
  lemma WeightAdjoint(samples: nat, n: nat, k: nat, G: Mat, X: Mat, D: Mat)
    ensures Total(samples, n, Times(G, Predict(k, X, D))) == Total(n, k, Times(TransposeProduct(samples, G, X), D))
  {
    hide Sum, Dot;
    var F, H := Times(G, Predict(k, X, D)), Times(TransposeProduct(samples, G, X), D);
    SumSwap(samples, n, F);
    forall r | 0 <= r < n ensures ColSum(samples, F)(r) == RowSum(k, H)(r) {
      var left, right := Col(F, r), Row(H, r);
      VecAdjoint(samples, k, Col(G, r), X, Row(D, r), left, right);
      ColSumIs(samples, F, r, left);
      RowSumIs(k, H, r, right);
    }
    SumCong(n, ColSum(samples, F), RowSum(k, H));
  }

  /** The activation gradient is the adjoint of the layer in its activations. */
  lemma ActivationAdjoint(samples: nat, n: nat, k: nat, G: Mat, W: Mat, E: Mat)
    ensures Total(samples, n, Times(G, Predict(k, E, W))) == Total(samples, k, Times(MatProduct(n, G, W), E))
  {
    hide Sum, Dot;
    var F, H := Times(G, Predict(k, E, W)), Times(MatProduct(n, G, W), E);
    forall s | 0 <= s < samples ensures RowSum(n, F)(s) == RowSum(k, H)(s) {
      var left, right := Row(F, s), Row(H, s);
      forall r | 0 <= r < n ensures left(r) == Row(G, s)(r) * Dot(k, Row(W, r), Row(E, s)) {
        DotSymmetric(k, Row(W, r), Row(E, s));
      }
      VecAdjoint(n, k, Row(G, s), W, Row(E, s), left, right);
      RowSumIs(n, F, s, left);
      RowSumIs(k, H, s, right);
    }
    SumCong(samples, RowSum(n, F), RowSum(k, H));
  }

  // --- The loss ---------------------------------------------------------------------------------------

  function Residual(k: nat, X: Mat, W: Mat, Y: Mat): Mat { (s, r) => Predict(k, X, W)(s, r) - Y(s, r) }

  function Squared(A: Mat): Mat { (i, j) => Sq(A(i, j)) }

  /** Mean squared error over count outputs. */
  function Loss(samples: nat, n: nat, k: nat, X: Mat, W: Mat, Y: Mat, count: real): real
    requires count > 0.0
  {
    Total(samples, n, Squared(Residual(k, X, W, Y))) / count
  }

  /** dl_dy, as computed. */
  function OutputGrad(k: nat, X: Mat, W: Mat, Y: Mat, count: real): Mat
    requires count > 0.0
  {
    (s, r) => 2.0 * Residual(k, X, W, Y)(s, r) / count
  }

  lemma Expansion(e: real, p: real, count: real)
    requires count > 0.0
    ensures Sq(e + p) == 1.0 * Sq(e) + 1.0 * (count * (2.0 * e / count * p) + Sq(p))
  {
    var g := 2.0 * e / count;
    assert count * g == 2.0 * e;
    assert count * (g * p) == (count * g) * p;
    assert (e + p) * (e + p) == e * e + (2.0 * e) * p + p * p;
  }

  /** Moving the outputs by P changes the loss by its inner product with dl_dy, and P's mean square. */
  lemma LossMoves(samples: nat, n: nat, k: nat, X: Mat, W: Mat, X': Mat, W': Mat, Y: Mat, P: Mat, count: real)
    requires count > 0.0
    requires forall s, r :: 0 <= s < samples && 0 <= r < n ==>
               Predict(k, X', W')(s, r) == Predict(k, X, W)(s, r) + P(s, r)
    ensures Loss(samples, n, k, X', W', Y, count) - Loss(samples, n, k, X, W, Y, count)
         == Total(samples, n, Times(OutputGrad(k, X, W, Y, count), P)) + Total(samples, n, Squared(P)) / count
  {
    hide Sum, Predict, Sq;
    var E, E', G := Residual(k, X, W, Y), Residual(k, X', W', Y), OutputGrad(k, X, W, Y, count);
    var moved: Mat := (s, r) => count * Times(G, P)(s, r) + Squared(P)(s, r);
    forall s, r | 0 <= s < samples && 0 <= r < n
      ensures Squared(E')(s, r) == 1.0 * Squared(E)(s, r) + 1.0 * moved(s, r)
      ensures moved(s, r) == count * Times(G, P)(s, r) + 1.0 * Squared(P)(s, r)
    {
      Expansion(E(s, r), P(s, r), count);
      assert E'(s, r) == E(s, r) + P(s, r);
      assert moved(s, r) == count * Times(G, P)(s, r) + Squared(P)(s, r);
    }
    TotalLinear(samples, n, 1.0, Squared(E), 1.0, moved, Squared(E'));
    TotalLinear(samples, n, count, Times(G, P), 1.0, Squared(P), moved);
    hide *;
    Divide(Total(samples, n, Squared(E)), Total(samples, n, Squared(E')), Total(samples, n, Times(G, P)),
           Total(samples, n, Squared(P)), count);
    LossIs(samples, n, k, X, W, Y, count);
    LossIs(samples, n, k, X', W', Y, count);
  }

  lemma LossIs(samples: nat, n: nat, k: nat, X: Mat, W: Mat, Y: Mat, count: real)
    requires count > 0.0
    ensures Loss(samples, n, k, X, W, Y, count) == Total(samples, n, Squared(Residual(k, X, W, Y))) / count
  {
  }

  lemma Divide(a: real, b: real, g: real, p: real, count: real)
    requires count > 0.0 && b == 1.0 * a + 1.0 * (count * g + 1.0 * p)
    ensures b / count - a / count == g + p / count
  {
    assert (b - a) / count == g + p / count;
  }

  lemma {:induction false} PredictAdds(k: nat, X: Mat, W: Mat, D: Mat, W': Mat, s: int, r: int)
    requires forall c :: 0 <= c < k ==> W'(r, c) == W(r, c) + D(r, c)
    ensures Predict(k, X, W')(s, r) == Predict(k, X, W)(s, r) + Predict(k, X, D)(s, r)
    ensures Predict(k, W', X)(r, s) == Predict(k, W, X)(r, s) + Predict(k, D, X)(r, s)
  {
    hide Sum;
    DotLinear(k, 1.0, Row(W, r), 1.0, Row(D, r), Row(W', r), Row(X, s));
  }

  /** For every perturbation of the weights, L(W + D) - L(W) = <grad, D> + |X D'|^2 / count, with the gradient
      the product the loop computes. */
  lemma WeightGradientIsExact(samples: nat, n: nat, k: nat, X: Mat, W: Mat, D: Mat, W': Mat, Y: Mat, count: real)
    requires count > 0.0 && forall r, c :: 0 <= r < n && 0 <= c < k ==> W'(r, c) == W(r, c) + D(r, c)
    ensures var grad := TransposeProduct(samples, OutputGrad(k, X, W, Y, count), X);
            Loss(samples, n, k, X, W', Y, count) - Loss(samples, n, k, X, W, Y, count)
              == Total(n, k, Times(grad, D)) + Total(samples, n, Squared(Predict(k, X, D))) / count
  {
    forall s, r | 0 <= s < samples && 0 <= r < n
      ensures Predict(k, X, W')(s, r) == Predict(k, X, W)(s, r) + Predict(k, X, D)(s, r)
    {
      PredictAdds(k, X, W, D, W', s, r);
    }
    hide *;
    LossMoves(samples, n, k, X, W, X, W', Y, Predict(k, X, D), count);
    WeightAdjoint(samples, n, k, OutputGrad(k, X, W, Y, count), X, D);
  }

  /** Likewise for the activations. */
  lemma ActivationGradientIsExact(samples: nat, n: nat, k: nat, X: Mat, E: Mat, X': Mat, W: Mat, Y: Mat, count: real)
    requires count > 0.0 && forall s, c :: 0 <= s < samples && 0 <= c < k ==> X'(s, c) == X(s, c) + E(s, c)
    ensures var grad := MatProduct(n, OutputGrad(k, X, W, Y, count), W);
            Loss(samples, n, k, X', W, Y, count) - Loss(samples, n, k, X, W, Y, count)
              == Total(samples, k, Times(grad, E)) + Total(samples, n, Squared(Predict(k, E, W))) / count
  {
    forall s, r | 0 <= s < samples && 0 <= r < n
      ensures Predict(k, X', W)(s, r) == Predict(k, X, W)(s, r) + Predict(k, E, W)(s, r)
    {
      PredictAdds(k, W, X, E, X', r, s);
    }
    hide *;
    LossMoves(samples, n, k, X, W, X', W, Y, Predict(k, E, W), count);
    ActivationAdjoint(samples, n, k, OutputGrad(k, X, W, Y, count), W, E);
  }

  // --- Blocks --------------------------------------------------------------------------------------------

  /** The sum of g over block b. */
  function BlockSum(size: nat, g: Vec): Vec { b => Sum(size, s => g(b * size + s)) }

  /** Each block's value at all of its columns. */
  function Broadcast(size: nat, b: Vec): Vec
    requires size > 0
  {
    c => b(c / size)
  }

  /** Summing over blocks is the exact adjoint of broadcasting them. */
  lemma {:induction false} BlockSumIsAdjoint(blocks: nat, size: nat, g: Vec, b: Vec)
    requires size > 0
    ensures Dot(blocks * size, g, Broadcast(size, b)) == Dot(blocks, BlockSum(size, g), b)
  {
    if blocks > 0 {
      BlockSumIsAdjoint(blocks - 1, size, g, b);
      LastBlock(blocks, size, g, b);
    }
  }

  lemma LastBlock(blocks: nat, size: nat, g: Vec, b: Vec)
    requires size > 0 && blocks > 0
    ensures Dot(blocks * size, g, Broadcast(size, b))
         == Dot((blocks - 1) * size, g, Broadcast(size, b)) + BlockSum(size, g)(blocks - 1) * b(blocks - 1)
  {
    hide Sum;
    var lo := (blocks - 1) * size;
    assert blocks * size == lo + size;
    var f := Mul(g, Broadcast(size, b));
    var part: Vec := s => g(lo + s);
    var tail: Vec := s => f(lo + s);
    SumSplit(blocks * size, lo, f, tail);
    forall s | 0 <= s < size ensures tail(s) == b(blocks - 1) * part(s) {
      InBlock(blocks - 1, size, s);
    }
    SumScale(size, b(blocks - 1), part, tail);
    SumCong(size, part, s => g((blocks - 1) * size + s));
  }

  lemma InBlock(b: nat, size: nat, s: nat)
    requires s < size
    ensures (b * size + s) / size == b
  {
    DivisionIsUnique(b * size + s, size, b, s);
  }
}
