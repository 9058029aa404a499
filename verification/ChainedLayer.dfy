/** The chain the rewrite inserts, read over real tensors: it computes the deployment the search scored. */
module ChainedLayer {
  import opened Common
  import opened Sums
  import opened JacobiTheory
  import opened BlockInt4
  import opened BlockAffine
  import opened AffineSearch
  import opened OnnxGraph
  import opened LayerRewrite

  datatype Tensor = Vector(entry: Vec) | Grid(cell: Mat)

  /** Row-wise broadcast of Sub, Mul and Add, and MatMul over inner dimension k. */
  function Apply(k: nat, op: string, args: seq<Option<Tensor>>): Tensor {
    if |args| != 2 || args[0].None? || args[1].None? then Vector(_ => 0.0)
    else
      match (args[0].value, args[1].value)
      case (Grid(x), Vector(v)) =>
        if op == "Sub" then Grid((i, j) => x(i, j) - v(j))
        else if op == "Mul" then Grid((i, j) => x(i, j) * v(j))
        else if op == "Add" then Grid((i, j) => x(i, j) + v(j))
        else Vector(_ => 0.0)
      case (Grid(x), Grid(m)) =>
        if op == "MatMul" then Grid((i, j) => Dot(k, Row(x, i), Col(m, j))) else Vector(_ => 0.0)
      case _ => Vector(_ => 0.0)
  }

  function TensorSem(k: nat): Semantics<Tensor> { (op, args, output) => Apply(k, op, args) }

  /** The rewrite carries the deployment's tensors. */
  ghost predicate Deploys(r: Rewrite<Tensor>, d: Deployment) {
    && d.Chained? && r.Chain?
    && r.shift == Vector(SeqVec(d.shift)) && r.invScale == Vector(Inverse(SeqVec(d.scale)))
      && r.bias == Vector(SeqVec(d.bias))
    && (r.rotation.Some? <==> d.rotation.Some?)
    && (d.rotation.Some? ==> r.rotation.value == Grid(MatOf(d.rotation.value)))
  }

  /** The weights of a layer with rows w, as its MatMul holds them. */
  function Weights(w: int -> Vec): Tensor { Grid((j, n) => w(n)(j)) }

  /** The layer's activation, edited as the rewrite edits it, is the deployment's layer input. */
  lemma EditIsLayerInput(k: nat, x: Mat, r: Rewrite<Tensor>, d: Deployment)
    requires Deploys(r, d)
    ensures var t := InputEdit(TensorSem(k), r)(Some(Grid(x)));
            t.Grid? && forall i, j :: t.cell(i, j) == LayerInput(k, Row(x, i), d)(j)
  {
    hide Dot;
    var shift := SeqVec(d.shift);
    var t := InputEdit(TensorSem(k), r)(Some(Grid(x)));
    var centered := Apply(k, "Sub", [Some(Grid(x)), Some(r.shift)]).cell;
    assert forall i, j :: centered(i, j) == x(i, j) - shift(j);
    assert t.Grid?;
    forall i, j ensures t.cell(i, j) == LayerInput(k, Row(x, i), d)(j) {
      assert LayerInput(k, Row(x, i), d)(j)
        == Turned(k, Centered(Row(x, i), shift), d.rotation)(j) * Inverse(SeqVec(d.scale))(j);
      if d.rotation.Some? {
        DotCong(k, Row(centered, i), Col(MatOf(d.rotation.value), j), Centered(Row(x, i), shift),
                Col(MatOf(d.rotation.value), j));
        assert Turned(k, Centered(Row(x, i), shift), d.rotation)(j)
          == Dot(k, Row(centered, i), Col(MatOf(d.rotation.value), j));
      }
    }
  }

  /** The rewritten layer on activations x, holding weights w. */
  function Rewritten(k: nat, x: Mat, w: int -> Vec, r: Rewrite<Tensor>): Tensor
    requires r.Chain?
  {
    var sem := TensorSem(k);
    OutputEdit(sem, r)(sem("MatMul", [Some(InputEdit(sem, r)(Some(Grid(x)))), Some(Weights(w))], 0))
  }

  /** The rewritten layer, weights w, outputs what the search scores deployment d by. */
  lemma ChainComputesDeployment(k: nat, x: Mat, w: int -> Vec, r: Rewrite<Tensor>, d: Deployment)
    requires Deploys(r, d)
    ensures var y := Rewritten(k, x, w, r);
            y.Grid? && forall i, n :: y.cell(i, n) == LayerOutput(k, Row(x, i), w(n), d, n)
  {
    EditIsLayerInput(k, x, r, d);
    hide Dot, InputEdit, LayerInput;
    var t := InputEdit(TensorSem(k), r)(Some(Grid(x)));
    var product := Apply(k, "MatMul", [Some(t), Some(Weights(w))]);
    assert product.Grid?;
    var y := OutputEdit(TensorSem(k), r)(product);
    assert y == Apply(k, "Add", [Some(product), Some(r.bias)]) && y.Grid?;
    forall i, n ensures y.cell(i, n) == LayerOutput(k, Row(x, i), w(n), d, n) {
      assert product.cell(i, n) == Dot(k, Row(t.cell, i), Col(Weights(w).cell, n));
      DotCong(k, Row(t.cell, i), Col(Weights(w).cell, n), LayerInput(k, Row(x, i), d), w(n));
    }
  }

  /** So with the weights the deployment needs, unquantized, the rewritten layer is the float layer. */
  lemma ChainKeepsFloatLayer(k: nat, x: Mat, w: Matrix, r: Rewrite<Tensor>, d: Deployment, i: int, n: int)
    requires Deploys(r, d) && Sound(k, w, d) && 0 <= n < |w|
    ensures var target: int -> Vec := l => TargetWeight(k, RowVec(w, l), d);
            var y := Rewritten(k, x, target, r);
            y.Grid? && y.cell(i, n) == Dot(k, Row(x, i), RowVec(w, n))
  {
    var target: int -> Vec := l => TargetWeight(k, RowVec(w, l), d);
    ChainComputesDeployment(k, x, target, r, d);
    ChainIsExact(k, Row(x, i), w, n, d);
    hide *;
  }

  // --- The rewritten layer and its score ------------------------------------------------------------

  lemma LayerOutputCong(k: nat, u: Vec, u': Vec, w: Vec, d: Deployment, n: int)
    requires forall j :: u(j) == u'(j)
    ensures LayerOutput(k, u, w, d, n) == LayerOutput(k, u', w, d, n)
  {
    hide Dot;
    forall j ensures LayerInput(k, u, d)(j) == LayerInput(k, u', d)(j) {
      if d.Chained? && d.rotation.Some? {
        var c, c', m := Centered(u, SeqVec(d.shift)), Centered(u', SeqVec(d.shift)), MatOf(d.rotation.value);
        DotCong(k, c, Col(m, j), c', Col(m, j));
        assert Coords(k, c, m)(j) == Dot(k, c, Col(m, j)) && Coords(k, c', m)(j) == Dot(k, c', Col(m, j));
      }
    }
    hide LayerInput;
    DotCong(k, LayerInput(k, u, d), w, LayerInput(k, u', d), w);
  }

  /** What the rewritten layer computes on the rows of x, holding the weights a record's codes and scales stand for. */
  function Deployed(k: nat, x: Matrix, blockSize: nat, b: Best, r: Rewrite<Tensor>): Tensor
    requires r.Chain?
  {
    Rewritten(k, MatOf(x), Dequantized(b.codes, b.scales, blockSize), r)
  }

  /** The squared distance of a grid from the float layer, and its mean. */
  function Missed(k: nat, x: Matrix, w: Matrix, y: Mat): Mat { (s, n) => Sq(FloatOutput(k, x, w)(s, n) - y(s, n)) }

  function MeanError(k: nat, x: Matrix, w: Matrix, y: Mat): real {
    if |x| == 0 || |w| == 0 then 0.0 else Sum(|x|, RowSum(|w|, Missed(k, x, w, y))) / (|x| * |w|) as real
  }

  lemma MeanErrorIsLoss(k: nat, x: Matrix, w: Matrix, y: Mat, q: int -> Vec, d: Deployment)
    requires forall s, n :: 0 <= s < |x| && 0 <= n < |w| ==> y(s, n) == LayerOutput(k, RowVec(x, s), q(n), d, n)
    ensures MeanError(k, x, w, y) == Loss(k, x, FloatOutput(k, x, w), |w|, q, d)
  {
    hide Sum, LayerOutput, Sq, FloatOutput;
    var F, G := Missed(k, x, w, y), SquaredError(k, x, FloatOutput(k, x, w), q, d);
    forall s | 0 <= s < |x| ensures RowSum(|w|, F)(s) == RowSum(|w|, G)(s) {
      var f, g := n => F(s, n), n => G(s, n);
      SumCong(|w|, f, g);
      assert RowSum(|w|, F)(s) == Sum(|w|, f) && RowSum(|w|, G)(s) == Sum(|w|, g);
    }
    SumCong(|x|, RowSum(|w|, F), RowSum(|w|, G));
  }

  /** From the search to the graph: the layer rewritten with an honest record, weights dequantized from its stored
      codes and scales, misses the float layer by exactly the error the record was kept for. */
  lemma RewrittenLayerScores(k: nat, x: Matrix, w: Matrix, blockSize: nat, b: Best, r: Rewrite<Tensor>)
    requires Honest(k, x, w, blockSize, b) && Deploys(r, b.deployment)
    ensures Deployed(k, x, blockSize, b, r).Grid?
    ensures MeanError(k, x, w, Deployed(k, x, blockSize, b, r).cell) == b.err
  {
    hide LayerOutput, Dequantized, InputEdit, OutputEdit, Sound, Loss, MeanError, Weights, MatOf, RowVec, Row;
    var q, d := Dequantized(b.codes, b.scales, blockSize), b.deployment;
    ChainComputesDeployment(k, MatOf(x), q, r, d);
    var y := Deployed(k, x, blockSize, b, r).cell;
    forall s, n | 0 <= s < |x| && 0 <= n < |w| ensures y(s, n) == LayerOutput(k, RowVec(x, s), q(n), d, n) {
      RowsAgree(x, s);
      LayerOutputCong(k, Row(MatOf(x), s), RowVec(x, s), q(n), d, n);
    }
    MeanErrorIsLoss(k, x, w, y, q, d);
  }

  lemma RowsAgree(x: Matrix, s: int)
    ensures forall j :: Row(MatOf(x), s)(j) == RowVec(x, s)(j)
  {
  }
}
