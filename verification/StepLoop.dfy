/** The optimizer loops: in host arithmetic, and one run of the step graph per iteration. */
module StepLoop {
  import BlockInt4
  import QuadLoss
  import opened Common
  import opened Sums
  import opened JacobiTheory
  import opened StepGraph
  import opened StepBuilder

  /** One Adam update of an element: parameter, two moments, gradient, learning rate, iteration. */
  type Adam = (real, real, real, real, real, nat) -> (real, real, real)

  /** When the regularizer joins, and how its exponent moves. */
  datatype Schedule = Schedule(steps: nat, warm: nat, reg: real, betaStart: real, betaEnd: real)

  function BetaAt(z: Schedule, t: nat): real {
    var span := if z.steps - z.warm - 1 > 1 then z.steps - z.warm - 1 else 1;
    z.betaStart + Product(z.betaEnd - z.betaStart, Quotient((t - z.warm) as real, span as real))
  }

  /** The exponent moves in equal steps from its start, at the end of the warm start, to its end, at the last
      iteration. */
  lemma BetaMoves(z: Schedule, t: nat)
    ensures t < z.warm ==> ScalarsAt(z, t) == (0.0, 1.0)
    ensures t == z.warm ==> BetaAt(z, t) == z.betaStart
    ensures t == z.steps - 1 && z.warm + 1 < z.steps ==> BetaAt(z, t) == z.betaEnd
    ensures z.warm + 1 < z.steps ==>
              (BetaAt(z, t) - z.betaStart) * (z.steps - z.warm - 1) as real
                == (z.betaEnd - z.betaStart) * (t - z.warm) as real
  {
    hide Product, Quotient;
    var span := if z.steps - z.warm - 1 > 1 then z.steps - z.warm - 1 else 1;
    Fraction(z.betaEnd - z.betaStart, (t - z.warm) as real, span as real);
  }

  lemma Fraction(a: real, b: real, n: real)
    requires n != 0.0
    ensures Product(a, Quotient(b, n)) * n == a * b
    ensures b == 0.0 ==> Product(a, Quotient(b, n)) == 0.0
    ensures b == n ==> Product(a, Quotient(b, n)) == a
  {
    var q := b / n;
    assert q * n == b;
    assert a * q * n == a * (q * n);
  }

  /** The regularizer of iteration t in the numpy loop: none before the warm start ends. */
  function RegularizerAt(z: Schedule, t: nat): Option<(real, real)> {
    if t >= z.warm then Some((z.reg, BetaAt(z, t))) else None
  }

  /** The graph's scalars at iteration t: its weight is zero during the warm start, its exponent finite. */
  function ScalarsAt(z: Schedule, t: nat): (real, real) {
    if t >= z.warm then (z.reg, BetaAt(z, t)) else (0.0, 1.0)
  }

  function Entry(m: Mat, idx: Index): real { if |idx| == 2 then m(idx[0], idx[1]) else 0.0 }

  /** A parameter and its two moments. */
  datatype Group = Group(param: Mat, m: Mat, vv: Mat)

  function Updated(adam: Adam, g: Group, grad: Mat, lr: real, t: nat): Group {
    Group((i, j) => adam(g.param(i, j), g.m(i, j), g.vv(i, j), grad(i, j), lr, t).0,
          (i, j) => adam(g.param(i, j), g.m(i, j), g.vv(i, j), grad(i, j), lr, t).1,
          (i, j) => adam(g.param(i, j), g.m(i, j), g.vv(i, j), grad(i, j), lr, t).2)
  }

  /** Every entry is updated from its own parameter, moments and gradient. */
  lemma UpdatedAt(adam: Adam, g: Group, grad: Mat, lr: real, t: nat, i: int, j: int)
    ensures var u, r := Updated(adam, g, grad, lr, t), adam(g.param(i, j), g.m(i, j), g.vv(i, j), grad(i, j), lr, t);
            (u.param(i, j), u.m(i, j), u.vv(i, j)) == r
  {
  }

  ghost predicate SameMat(a: Mat, b: Mat, rows: int, cols: int) {
    forall i, j :: 0 <= i < rows && 0 <= j < cols ==> a(i, j) == b(i, j)
  }

  ghost predicate SameGroup(a: Group, b: Group, rows: int, cols: int) {
    SameMat(a.param, b.param, rows, cols) && SameMat(a.m, b.m, rows, cols) && SameMat(a.vv, b.vv, rows, cols)
  }

  lemma UpdatedSame(adam: Adam, a: Group, b: Group, ga: Mat, gb: Mat, lr: real, t: nat, rows: int, cols: int)
    requires SameGroup(a, b, rows, cols) && SameMat(ga, gb, rows, cols)
    ensures SameGroup(Updated(adam, a, ga, lr, t), Updated(adam, b, gb, lr, t), rows, cols)
  {
  }

  // --- AutoRound: rounding and clip ratio together ------------------------------------------------

  datatype Problem = Problem(f: Functions, adam: Adam, p: Shape, l: Layer, z: Schedule, lr: real, clipLr: real)

  datatype State = State(v: Group, c: Group)

  /** What the graph is fed at iteration t. */
  function Fed(q: Problem, s: State, t: nat): Inputs {
    (name: InputName, idx: Index) =>
      match name
      case X => Entry(q.l.x, idx)
      case YFloat => Entry(q.l.y, idx)
      case W => Entry(q.l.w, idx)
      case ScaleBlocks => Entry(q.l.scaleBlocks, idx)
      case V => Entry(s.v.param, idx)
      case C => Entry(s.c.param, idx)
      case RegScale => ScalarsAt(q.z, t).0
      case Beta => ScalarsAt(q.z, t).1
      case _ => 0.0
  }

  function Output(f: Functions, env: Inputs, t: Term): Mat { (i, j) => Eval(f, env, t, [i, j]) }

  function GraphGradV(q: Problem, g: State, t: nat): Mat {
    Output(q.f, Fed(q, g, t), GradVT(q.p, BinT(q.p), ScaleEffT(q.p)))
  }

  function GraphGradC(q: Problem, g: State, t: nat): Mat { Output(q.f, Fed(q, g, t), GradCT(q.p)) }

  function NumpyGradV(q: Problem, s: State, t: nat): Mat {
    GradV(q.f, q.p, q.l, Bin(q.f, q.p, q.l, s.c.param), ScaleEff(q.f, q.p, q.l, s.c.param), s.v.param,
          RegularizerAt(q.z, t))
  }

  function NumpyGradC(q: Problem, s: State): Mat { GradC(q.f, q.p, q.l, s.v.param, s.c.param) }

  function NumpyStep(q: Problem, s: State, t: nat): State {
    State(Updated(q.adam, s.v, NumpyGradV(q, s, t), q.lr, t), Updated(q.adam, s.c, NumpyGradC(q, s), q.clipLr, t))
  }

  function GraphStep(q: Problem, s: State, t: nat): State {
    State(Updated(q.adam, s.v, GraphGradV(q, s, t), q.lr, t), Updated(q.adam, s.c, GraphGradC(q, s, t), q.clipLr, t))
  }

  function NumpyAfter(q: Problem, start: State, t: nat): State {
    if t == 0 then start else NumpyStep(q, NumpyAfter(q, start, t - 1), t - 1)
  }

  function GraphAfter(q: Problem, start: State, t: nat): State {
    if t == 0 then start else GraphStep(q, GraphAfter(q, start, t - 1), t - 1)
  }

  ghost predicate SameState(q: Problem, a: State, b: State) {
    SameGroup(a.v, b.v, q.p.n, q.p.K()) && SameGroup(a.c, b.c, q.p.n, q.p.blocks)
  }

  lemma EntryAt(m: Mat, i: int, j: int)
    ensures Entry(m, [i, j]) == m(i, j)
  {
    assert [i, j][0] == i && [i, j][1] == j;
  }

  /** An input that holds g's entries holds any matrix that agrees with it. */
  lemma EntryHolds(f: Functions, env: Inputs, name: InputName, g: Mat, s: Mat, rows: int, cols: int)
    requires forall i, j :: env(name, [i, j]) == Entry(g, [i, j])
    requires SameMat(s, g, rows, cols)
    ensures Holds(f, env, Input(name), s, rows, cols)
  {
    hide Entry;
    forall i, j | 0 <= i < rows && 0 <= j < cols ensures Eval(f, env, Input(name), [i, j]) == s(i, j) {
      EntryAt(g, i, j);
      InputIs(f, env, name, [i, j]);
    }
  }

  lemma FedHolds(q: Problem, s: State, g: State, t: nat)
    requires SameState(q, s, g)
    ensures FeedsLayer(q.f, Fed(q, g, t), q.p, q.l, s.v.param) && FeedsScale(q.f, Fed(q, g, t), q.p, q.l, s.c.param)
    ensures FeedsRegularizer(Fed(q, g, t), RegularizerAt(q.z, t))
  {
    var env := Fed(q, g, t);
    hide Entry, Eval, Holds, BetaAt;
    EntryHolds(q.f, env, X, q.l.x, q.l.x, q.p.rows, q.p.K());
    EntryHolds(q.f, env, YFloat, q.l.y, q.l.y, q.p.rows, q.p.n);
    EntryHolds(q.f, env, W, q.l.w, q.l.w, q.p.n, q.p.K());
    EntryHolds(q.f, env, ScaleBlocks, q.l.scaleBlocks, q.l.scaleBlocks, q.p.n, q.p.blocks);
    EntryHolds(q.f, env, V, g.v.param, s.v.param, q.p.n, q.p.K());
    EntryHolds(q.f, env, C, g.c.param, s.c.param, q.p.n, q.p.blocks);
  }

  lemma SameGradV(q: Problem, s: State, g: State, t: nat, i: int, j: int)
    requires SameState(q, s, g) && BinsFit(q.f, q.p, q.l, s.c.param) && 0 <= i < q.p.n && 0 <= j < q.p.K()
    ensures NumpyGradV(q, s, t)(i, j) == GraphGradV(q, g, t)(i, j)
  {
    hide Eval, GradV, GradVT, Holds, FeedsLayer, FeedsScale, FeedsRegularizer, BinsFit, Fed, SameState, RegularizerAt,
         Bin, ScaleEff, BinT, ScaleEffT, Shape.K;
    var env := Fed(q, g, t);
    FedHolds(q, s, g, t);
    BinEval(q.f, env, q.p, q.l, s.c.param);
    ScaleEffEval(q.f, env, q.p, q.l, s.c.param);
    GradVEval(q.f, env, q.p, q.l, BinT(q.p), Bin(q.f, q.p, q.l, s.c.param), ScaleEffT(q.p),
              ScaleEff(q.f, q.p, q.l, s.c.param),
              s.v.param, RegularizerAt(q.z, t), i, j);
  }

  lemma SameGradC(q: Problem, s: State, g: State, t: nat, i: int, b: int)
    requires SameState(q, s, g) && BinsFit(q.f, q.p, q.l, s.c.param) && 0 <= i < q.p.n && 0 <= b < q.p.blocks
    ensures NumpyGradC(q, s)(i, b) == GraphGradC(q, g, t)(i, b)
  {
    hide Eval, GradC, GradCT, FeedsLayer, FeedsScale, FeedsRegularizer, BinsFit, Fed, SameState, RegularizerAt, Shape.K;
    FedHolds(q, s, g, t);
    GradCEval(q.f, Fed(q, g, t), q.p, q.l, s.v.param, s.c.param, i, b);
  }

  /** Both gradients of the emitted graph equal the numpy loop's. */
  lemma SameGradients(q: Problem, s: State, g: State, t: nat)
    requires SameState(q, s, g) && BinsFit(q.f, q.p, q.l, s.c.param)
    ensures SameMat(NumpyGradV(q, s, t), GraphGradV(q, g, t), q.p.n, q.p.K())
    ensures SameMat(NumpyGradC(q, s), GraphGradC(q, g, t), q.p.n, q.p.blocks)
  {
    hide SameState, BinsFit, NumpyGradV, NumpyGradC, GraphGradV, GraphGradC, Shape.K;
    forall i, j | 0 <= i < q.p.n && 0 <= j < q.p.K() ensures NumpyGradV(q, s, t)(i, j) == GraphGradV(q, g, t)(i, j) {
      SameGradV(q, s, g, t, i, j);
    }
    forall i, b | 0 <= i < q.p.n && 0 <= b < q.p.blocks ensures NumpyGradC(q, s)(i, b) == GraphGradC(q, g, t)(i, b) {
      SameGradC(q, s, g, t, i, b);
    }
  }

  /** At every iteration the two loops are in the same state, whatever the shared update is. */
  lemma {:induction false} LoopsAgree(q: Problem, start: State, t: nat)
    requires InputsFit(q.f, q.p, q.l)
    ensures SameState(q, NumpyAfter(q, start, t), GraphAfter(q, start, t))
  {
    hide InputsFit, BinsFit, GraphGradV, GraphGradC, NumpyGradV, NumpyGradC;
    if t > 0 {
      LoopsAgree(q, start, t - 1);
      var s, g := NumpyAfter(q, start, t - 1), GraphAfter(q, start, t - 1);
      InputsFitAlways(q.f, q.p, q.l, s.c.param);
      SameGradients(q, s, g, t - 1);
      hide Updated, SameGroup, SameMat, Shape.K;
      UpdatedSame(q.adam, s.v, g.v, NumpyGradV(q, s, t - 1), GraphGradV(q, g, t - 1), q.lr, t - 1, q.p.n, q.p.K());
      UpdatedSame(q.adam, s.c, g.c, NumpyGradC(q, s), GraphGradC(q, g, t - 1), q.clipLr, t - 1, q.p.n, q.p.blocks);
    }
  }

  /** The host loop, in place. */
  method JointLoop(q: Problem, start: State) returns (v: Group, c: Group)
    ensures State(v, c) == NumpyAfter(q, start, q.z.steps)
  {
    v, c := start.v, start.c;
    for t := 0 to q.z.steps
      invariant State(v, c) == NumpyAfter(q, start, t)
    {
      hide Updated, NumpyGradV, NumpyGradC;
      var gradV := NumpyGradV(q, State(v, c), t);
      var gradC := NumpyGradC(q, State(v, c));
      v := Updated(q.adam, v, gradV, q.lr, t);
      c := Updated(q.adam, c, gradC, q.clipLr, t);
    }
  }

  /** What running an emitted node list gives at a two-dimensional output. */
  function Ran(f: Functions, env: Inputs, nodes: seq<GraphNode>, v: Value): Mat
    requires WellOrdered(nodes) && (v.Made? ==> v.node < |nodes|)
  {
    (i, j) => Run(f, env, nodes, v, [i, j])
  }

  /** nodes are an emitted joint step, with its two gradients. */
  ghost predicate IsJointStep(p: Shape, nodes: seq<GraphNode>, terms: seq<Term>, gradV: Value, gradC: Value) {
    AllDescribed(nodes, terms) && Means(terms, gradV, GradVT(p, BinT(p), ScaleEffT(p)))
      && Means(terms, gradC, GradCT(p))
  }

  lemma StepIsRunnable(p: Shape, nodes: seq<GraphNode>, terms: seq<Term>, gradV: Value, gradC: Value)
    requires IsJointStep(p, nodes, terms, gradV, gradC)
    ensures WellOrdered(nodes) && (gradV.Made? ==> gradV.node < |nodes|) && (gradC.Made? ==> gradC.node < |nodes|)
  {
    hide GradVT, GradCT, BinT, ScaleEffT;
  }

  /** Fed with a state the host loop agrees with, the emitted nodes give the host loop's gradients. */
  lemma RanIsNumpy(q: Problem, s: State, g: State, t: nat, nodes: seq<GraphNode>, terms: seq<Term>, gradV: Value,
                   gradC: Value)
    requires SameState(q, s, g) && InputsFit(q.f, q.p, q.l) && IsJointStep(q.p, nodes, terms, gradV, gradC)
    ensures WellOrdered(nodes) && (gradV.Made? ==> gradV.node < |nodes|) && (gradC.Made? ==> gradC.node < |nodes|)
    ensures SameMat(NumpyGradV(q, s, t), Ran(q.f, Fed(q, g, t), nodes, gradV), q.p.n, q.p.K())
    ensures SameMat(NumpyGradC(q, s), Ran(q.f, Fed(q, g, t), nodes, gradC), q.p.n, q.p.blocks)
  {
    hide SameState, InputsFit, Run, Fed, GradV, GradC, GradVT, GradCT, BinT, ScaleEffT, Bin, ScaleEff, FeedsLayer,
         FeedsScale, FeedsRegularizer, RegularizerAt, BinsFit, Shape.K, Means;
    StepIsRunnable(q.p, nodes, terms, gradV, gradC);
    FedHolds(q, s, g, t);
    InputsFitAlways(q.f, q.p, q.l, s.c.param);
    forall i, j | 0 <= i < q.p.n && 0 <= j < q.p.K()
      ensures NumpyGradV(q, s, t)(i, j) == Run(q.f, Fed(q, g, t), nodes, gradV, [i, j])
    {
      EmittedGradV(q.f, Fed(q, g, t), nodes, terms, gradV, q.p, q.l, s.v.param, s.c.param, RegularizerAt(q.z, t), i, j);
    }
    forall i, b | 0 <= i < q.p.n && 0 <= b < q.p.blocks
      ensures NumpyGradC(q, s)(i, b) == Run(q.f, Fed(q, g, t), nodes, gradC, [i, b])
    {
      EmittedGradC(q.f, Fed(q, g, t), nodes, terms, gradC, q.p, q.l, s.v.param, s.c.param, i, b);
    }
  }

  /** The emitted nodes run once per iteration, their outputs fed back as the next state: the loop ends where the
      host loop does. */
  method JointLoopOnGraph(q: Problem, start: State) returns (v: Group, c: Group)
    requires InputsFit(q.f, q.p, q.l)
    ensures SameState(q, NumpyAfter(q, start, q.z.steps), State(v, c))
  {
    hide InputsFit, Updated, NumpyGradV, NumpyGradC, SameGroup, SameMat, IsJointStep, Fed, Shape.K;
    var builder := new GraphBuilder();
    var gradV, gradC := builder.BuildAutoroundStep(q.p);
    var nodes := builder.nodes;
    ghost var terms := builder.terms;
    BuiltIsStep(q.p, builder, gradV, gradC);
    StepIsRunnable(q.p, nodes, terms, gradV, gradC);
    v, c := start.v, start.c;
    StateIsItself(q, start);
    for t := 0 to q.z.steps
      invariant SameState(q, NumpyAfter(q, start, t), State(v, c))
    {
      ghost var s := NumpyAfter(q, start, t);
      var env := Fed(q, State(v, c), t);
      var ranV, ranC := Ran(q.f, env, nodes, gradV), Ran(q.f, env, nodes, gradC);
      RanIsNumpy(q, s, State(v, c), t, nodes, terms, gradV, gradC);
      UpdatedSame(q.adam, s.v, v, NumpyGradV(q, s, t), ranV, q.lr, t, q.p.n, q.p.K());
      UpdatedSame(q.adam, s.c, c, NumpyGradC(q, s), ranC, q.clipLr, t, q.p.n, q.p.blocks);
      v := Updated(q.adam, v, ranV, q.lr, t);
      c := Updated(q.adam, c, ranC, q.clipLr, t);
    }
  }

  lemma StateIsItself(q: Problem, s: State)
    ensures SameState(q, s, s)
  {
  }

  lemma BuiltIsStep(p: Shape, b: GraphBuilder, gradV: Value, gradC: Value)
    requires b.Valid() && Means(b.terms, gradV, GradVT(p, BinT(p), ScaleEffT(p))) && Means(b.terms, gradC, GradCT(p))
    ensures IsJointStep(p, b.nodes, b.terms, gradV, gradC)
  {
  }

  // --- The gradient the loops descend along ------------------------------------------------------------

  /** The mean squared error of the layer under a weight, over all rows and output channels. */
  function SoftLoss(p: Shape, l: Layer, w: Mat): real
    requires p.rows > 0 && p.n > 0
  {
    QuadLoss.Loss(p.rows, p.n, p.K(), l.x, w, l.y, (p.rows * p.n) as real)
  }

  lemma PredictIs(p: Shape, l: Layer, f: Functions, bin: Mat, scale: Mat, v: Mat, r: int, i: int)
    ensures QuadLoss.Residual(p.K(), l.x, WeightHat(f, p, bin, scale, v), l.y)(r, i)
              == Residual(f, p, l, bin, scale, v)(r, i)
  {
    var w := WeightHat(f, p, bin, scale, v);
    var row, terms := JacobiTheory.Mul(Row(l.x, r), Row(w, i)), OutputTerms(f, p, l, bin, scale, v, r, i);
    hide WeightHat, Sum;
    forall j | 0 <= j < p.K() ensures row(j) == terms(j) {
      assert row(j) == l.x(r, j) * w(i, j);
      assert terms(j) == Product(l.x(r, j), w(i, j));
    }
    SumCong(p.K(), row, terms);
    assert QuadLoss.Predict(p.K(), l.x, w)(r, i) == Dot(p.K(), Row(l.x, r), Row(w, i)) == Sum(p.K(), row);
    assert QuadLoss.Residual(p.K(), l.x, w, l.y)(r, i) == QuadLoss.Predict(p.K(), l.x, w)(r, i) - l.y(r, i);
    assert Residual(f, p, l, bin, scale, v)(r, i) == Sum(p.K(), terms) - l.y(r, i);
  }

  lemma GradientIs(p: Shape, l: Layer, f: Functions, bin: Mat, scale: Mat, v: Mat, i: int, j: int)
    requires p.Outputs() > 0.0
    ensures var w := WeightHat(f, p, bin, scale, v);
            QuadLoss.TransposeProduct(p.rows, QuadLoss.OutputGrad(p.K(), l.x, w, l.y, p.Outputs()), l.x)(i, j)
              == WeightGrad(f, p, l, bin, scale, v)(i, j)
  {
    hide Sum, WeightHat, QuadLoss.Residual, StepGraph.Residual, Shape.Outputs;
    var w := WeightHat(f, p, bin, scale, v);
    var G := QuadLoss.OutputGrad(p.K(), l.x, w, l.y, p.Outputs());
    var column, terms := JacobiTheory.Mul(Col(G, i), Col(l.x, j)), WeightTerms(f, p, l, bin, scale, v, i, j);
    forall r | 0 <= r < p.rows ensures column(r) == terms(r) {
      PredictIs(p, l, f, bin, scale, v, r, i);
      var e := Residual(f, p, l, bin, scale, v)(r, i);
      assert G(r, i) == 2.0 * e / p.Outputs();
      assert OutputGrad(f, p, l, bin, scale, v)(r, i) == Quotient(Product(2.0, e), p.Outputs());
      assert column(r) == G(r, i) * l.x(r, j);
      assert terms(r) == Product(OutputGrad(f, p, l, bin, scale, v)(r, i), l.x(r, j));
    }
    SumCong(p.rows, column, terms);
  }

  /** At every iteration the loop's weight gradient is the exact one of the loss at the current soft weights: for
      every perturbation D the loss moves by the inner product with it plus the mean square of the moved outputs. */
  lemma NumpyGradientIsExact(p: Shape, l: Layer, f: Functions, bin: Mat, scale: Mat, v: Mat, D: Mat, W': Mat)
    requires p.rows > 0 && p.n > 0
    requires forall i, j :: 0 <= i < p.n && 0 <= j < p.K() ==>
               W'(i, j) == WeightHat(f, p, bin, scale, v)(i, j) + D(i, j)
    ensures SoftLoss(p, l, W') - SoftLoss(p, l, WeightHat(f, p, bin, scale, v))
         == QuadLoss.Total(p.n, p.K(), QuadLoss.Times(WeightGrad(f, p, l, bin, scale, v), D))
            + QuadLoss.Total(p.rows, p.n, QuadLoss.Squared(QuadLoss.Predict(p.K(), l.x, D))) / (p.rows * p.n) as real
  {
    hide Sum, WeightHat, WeightGrad, Shape.K, Shape.Outputs, QuadLoss.Loss, QuadLoss.Squared, QuadLoss.Predict,
         QuadLoss.OutputGrad, QuadLoss.TransposeProduct;
    CountIs(p);
    var w := WeightHat(f, p, bin, scale, v);
    QuadLoss.WeightGradientIsExact(p.rows, p.n, p.K(), l.x, w, D, W', l.y, p.Outputs());
    var grad := QuadLoss.TransposeProduct(p.rows, QuadLoss.OutputGrad(p.K(), l.x, w, l.y, p.Outputs()), l.x);
    forall i, j | 0 <= i < p.n && 0 <= j < p.K()
      ensures QuadLoss.Times(grad, D)(i, j) == QuadLoss.Times(WeightGrad(f, p, l, bin, scale, v), D)(i, j)
    {
      GradientIs(p, l, f, bin, scale, v, i, j);
    }
    TotalCong(p.n, p.K(), QuadLoss.Times(grad, D), QuadLoss.Times(WeightGrad(f, p, l, bin, scale, v), D));
  }

  lemma CountIs(p: Shape)
    requires p.rows > 0 && p.n > 0
    ensures p.Outputs() == (p.rows * p.n) as real > 0.0
  {
  }

  lemma TotalCong(n: nat, m: nat, F: Mat, G: Mat)
    requires forall i, j :: 0 <= i < n && 0 <= j < m ==> F(i, j) == G(i, j)
    ensures QuadLoss.Total(n, m, F) == QuadLoss.Total(n, m, G)
  {
    hide Sum;
    forall i | 0 <= i < n ensures RowSum(m, F)(i) == RowSum(m, G)(i) {
      QuadLoss.RowSumIs(m, F, i, Row(G, i));
      QuadLoss.RowSumIs(m, G, i, Row(G, i));
    }
    SumCong(n, RowSum(m, F), RowSum(m, G));
  }

  // --- AdaRound: the bin and the scale are fixed -------------------------------------------------------

  datatype Rounding = Rounding(f: Functions, adam: Adam, p: Shape, l: Layer, floorBase: Mat, scale: Mat, z: Schedule,
                               lr: real)

  function FedRounding(q: Rounding, v: Mat, t: nat): Inputs {
    (name: InputName, idx: Index) =>
      match name
      case X => Entry(q.l.x, idx)
      case YFloat => Entry(q.l.y, idx)
      case FloorBase => Entry(q.floorBase, idx)
      case Scale => Entry(q.scale, idx)
      case V => Entry(v, idx)
      case RegScale => ScalarsAt(q.z, t).0
      case Beta => ScalarsAt(q.z, t).1
      case _ => 0.0
  }

  function NumpyRoundingGrad(q: Rounding, v: Mat, t: nat): Mat {
    GradV(q.f, q.p, q.l, q.floorBase, q.scale, v, RegularizerAt(q.z, t))
  }

  function GraphRoundingGrad(q: Rounding, v: Mat, t: nat): Mat {
    Output(q.f, FedRounding(q, v, t), GradVT(q.p, Input(FloorBase), Input(Scale)))
  }

  function NumpyRoundingStep(q: Rounding, g: Group, t: nat): Group {
    Updated(q.adam, g, NumpyRoundingGrad(q, g.param, t), q.lr, t)
  }

  function GraphRoundingStep(q: Rounding, g: Group, t: nat): Group {
    Updated(q.adam, g, GraphRoundingGrad(q, g.param, t), q.lr, t)
  }

  function NumpyRoundingAfter(q: Rounding, start: Group, t: nat): Group {
    if t == 0 then start else NumpyRoundingStep(q, NumpyRoundingAfter(q, start, t - 1), t - 1)
  }

  function GraphRoundingAfter(q: Rounding, start: Group, t: nat): Group {
    if t == 0 then start else GraphRoundingStep(q, GraphRoundingAfter(q, start, t - 1), t - 1)
  }

  lemma FedRoundingHolds(q: Rounding, v: Mat, g: Mat, t: nat)
    requires SameMat(v, g, q.p.n, q.p.K())
    ensures var env := FedRounding(q, g, t);
            && FeedsLayer(q.f, env, q.p, q.l, v) && FeedsRegularizer(env, RegularizerAt(q.z, t))
            && Holds(q.f, env, Input(FloorBase), q.floorBase, q.p.n, q.p.K())
              && Holds(q.f, env, Input(Scale), q.scale, q.p.n, q.p.K())
  {
    var env := FedRounding(q, g, t);
    hide Entry, Eval, Holds, BetaAt;
    EntryHolds(q.f, env, X, q.l.x, q.l.x, q.p.rows, q.p.K());
    EntryHolds(q.f, env, YFloat, q.l.y, q.l.y, q.p.rows, q.p.n);
    EntryHolds(q.f, env, FloorBase, q.floorBase, q.floorBase, q.p.n, q.p.K());
    EntryHolds(q.f, env, Scale, q.scale, q.scale, q.p.n, q.p.K());
    EntryHolds(q.f, env, V, g, v, q.p.n, q.p.K());
  }

  lemma SameRoundingGrad(q: Rounding, v: Mat, g: Mat, t: nat)
    requires SameMat(v, g, q.p.n, q.p.K())
    ensures SameMat(NumpyRoundingGrad(q, v, t), GraphRoundingGrad(q, g, t), q.p.n, q.p.K())
  {
    hide Eval, GradV, GradVT, Holds, FeedsLayer, FeedsRegularizer, FedRounding, RegularizerAt, Shape.K;
    var env := FedRounding(q, g, t);
    FedRoundingHolds(q, v, g, t);
    forall i, j | 0 <= i < q.p.n && 0 <= j < q.p.K()
      ensures NumpyRoundingGrad(q, v, t)(i, j) == GraphRoundingGrad(q, g, t)(i, j)
    {
      GradVEval(q.f, env, q.p, q.l, Input(FloorBase), q.floorBase, Input(Scale), q.scale, v, RegularizerAt(q.z, t),
                i, j);
    }
  }

  lemma SameRoundingStep(q: Rounding, a: Group, b: Group, t: nat)
    requires SameGroup(a, b, q.p.n, q.p.K())
    ensures SameGroup(NumpyRoundingStep(q, a, t), GraphRoundingStep(q, b, t), q.p.n, q.p.K())
  {
    hide Updated, SameMat, NumpyRoundingGrad, GraphRoundingGrad, Shape.K;
    SameRoundingGrad(q, a.param, b.param, t);
    hide SameGroup;
    UpdatedSame(q.adam, a, b, NumpyRoundingGrad(q, a.param, t), GraphRoundingGrad(q, b.param, t), q.lr, t, q.p.n,
                q.p.K());
  }

  /** The fixed-scale step graph follows its numpy loop at every iteration. */
  lemma {:induction false} RoundingLoopsAgree(q: Rounding, start: Group, t: nat)
    ensures SameGroup(NumpyRoundingAfter(q, start, t), GraphRoundingAfter(q, start, t), q.p.n, q.p.K())
  {
    hide NumpyRoundingStep, GraphRoundingStep, Shape.K;
    if t > 0 {
      RoundingLoopsAgree(q, start, t - 1);
      hide SameGroup;
      SameRoundingStep(q, NumpyRoundingAfter(q, start, t - 1), GraphRoundingAfter(q, start, t - 1), t - 1);
    }
  }

  // --- The codes a run settles on -----------------------------------------------------------------------

  /** The hard choice: the bin plus the rounded relaxation, clamped to the code range. */
  function FinalCode(f: Functions, p: Shape, base: int, v: real): real {
    Clamp((base + BlockInt4.RoundHalfToEven(H(f, v))) as real, p.nMin, p.nMax)
  }

  /** Whatever v became, the choice is between the two ends of the weight's bin: the code keeps its range, and
      inside it the weight moves by less than one scale step. */
  lemma FinalCodeIsAdjacent(f: Functions, p: Shape, w: real, scale: real, v: real)
    requires scale > 0.0 && p.nMin <= p.nMax
    ensures var base := (w / scale).Floor;
            var code := FinalCode(f, p, base, v);
            && p.nMin <= code <= p.nMax
            && (f.sigmoid(v) > 0.5 ==> code == Clamp(base as real + 1.0, p.nMin, p.nMax))
            && (f.sigmoid(v) <= 0.5 ==> code == Clamp(base as real, p.nMin, p.nMax))
            && (p.nMin <= base as real && base as real + 1.0 <= p.nMax ==> -scale <= w - code * scale < scale)
  {
    var base := (w / scale).Floor;
    var code, q := FinalCode(f, p, base, v), w / scale;
    var h := H(f, v);
    var z := BlockInt4.RoundHalfToEven(h);
    HardChoice(f, v);
    assert z == 0 || z == 1;
    assert (base + z) as real == base as real + z as real;
    assert code == Clamp((base + z) as real, p.nMin, p.nMax);
    assert base as real <= q < base as real + 1.0;
    if p.nMin <= base as real && base as real + 1.0 <= p.nMax {
      assert code == base as real + z as real;
      assert w == q * scale;
      ScaledGap(w, q, code, scale);
    }
  }

  /** The relaxation rounds up exactly past the middle of the sigmoid. */
  lemma HardChoice(f: Functions, v: real)
    ensures BlockInt4.RoundHalfToEven(H(f, v)) == if f.sigmoid(v) > 0.5 then 1 else 0
  {
    RelaxationIs(f, v);
    BlockInt4.RoundIsTiesToEven(H(f, v), if f.sigmoid(v) > 0.5 then 1 else 0);
  }

  lemma Signed(a: real, scale: real)
    requires scale > 0.0 && a >= 0.0
    ensures a * scale >= 0.0 && (a > 0.0 ==> a * scale > 0.0)
  {
  }

  lemma ScaledGap(w: real, q: real, code: real, scale: real)
    requires scale > 0.0 && w == q * scale && -1.0 <= q - code < 1.0
    ensures -scale <= w - code * scale < scale
  {
    var lo, hi := q - code + 1.0, code + 1.0 - q;
    Signed(lo, scale);
    Signed(hi, scale);
    assert lo * scale == w - code * scale + scale;
    assert hi * scale == code * scale + scale - w;
  }
}
