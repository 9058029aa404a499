/** The optimizer step emitted as a graph of ONNX operators, and the numpy loops it has to match. */
module StepGraph {
  import opened Arith
  import opened Common
  import opened Sums
  import opened JacobiTheory
  import BlockInt4

  // --- Operators -----------------------------------------------------------------------------

  datatype InputName = X | YFloat | W | ScaleBlocks | FloorBase | Scale | V | C | RegScale | Beta

  datatype UnaryOp = Sigmoid | ToInt32 | ToFloat | Abs | Sign

  datatype BinaryOp = Add | Sub | Mul | Div | Greater | Less | Pow

  /** A node of the graph, by what it computes. Shapes are baked in at build time. */
  datatype Term =
    | Input(name: InputName)
    | Const(value: real)
    | Unary(uop: UnaryOp, a: Term)
    | Binary(bop: BinaryOp, a: Term, b: Term)
    | Clip(a: Term, lo: real, hi: real)
    | MatMul(a: Term, b: Term, inner: nat)
    | Transpose(a: Term)
    | Gather(a: Term, index: seq<nat>)
    | Reshape(a: Term, from: seq<nat>, to: seq<nat>)
    | ReduceSum(a: Term, extent: nat)

  /** Sigmoid and power as they are; a cast to INT32 out of range gives whatever it gives. */
  datatype Functions = Functions(sigmoid: real -> real, pow: (real, real) -> real, outOfRange: real -> real)

  type Index = seq<int>

  type Inputs = (InputName, Index) -> real

  function Truncate(x: real): real { if x >= 0.0 then x.Floor as real else -((-x).Floor as real) }

  predicate FitsInt32(x: real) { -2147483649.0 < x < 2147483648.0 }

  /** What fits is what truncates to an integer of 32 bits. */
  lemma FitsIsRange(x: real)
    ensures FitsInt32(x) <==> -2147483648.0 <= Truncate(x) <= 2147483647.0
  {
  }

  function Bit(b: bool): real { if b then 1.0 else 0.0 }

  function ApplyUnary(f: Functions, op: UnaryOp, x: real): real {
    match op
    case Sigmoid => f.sigmoid(x)
    case ToInt32 => if FitsInt32(x) then Truncate(x) else f.outOfRange(x)
    case ToFloat => x
    case Abs => if x < 0.0 then -x else x
    case Sign => if x < 0.0 then -1.0 else if x > 0.0 then 1.0 else 0.0
  }

  function Product(x: real, y: real): real { x * y }

  function Quotient(x: real, y: real): real { if y == 0.0 then 0.0 else x / y }

  function ApplyBinary(f: Functions, op: BinaryOp, x: real, y: real): real {
    match op
    case Add => x + y
    case Sub => x - y
    case Mul => Product(x, y)
    case Div => Quotient(x, y)
    case Greater => Bit(x > y)
    case Less => Bit(x < y)
    case Pow => f.pow(x, y)
  }

  function Clamp(x: real, lo: real, hi: real): real {
    var y := if x < lo then lo else x;
    if y > hi then hi else y
  }

  /** Row-major position of an index in a shape. */
  function Flatten(shape: seq<nat>, idx: Index): int {
    if shape == [] || |idx| != |shape| then 0
    else Flatten(shape[..|shape| - 1], idx[..|shape| - 1]) * shape[|shape| - 1] + idx[|shape| - 1]
  }

  function Unflatten(shape: seq<nat>, at: int): Index {
    if shape == [] then []
    else
      var last := shape[|shape| - 1];
      if last == 0 then Unflatten(shape[..|shape| - 1], 0) + [0]
      else Unflatten(shape[..|shape| - 1], at / last) + [at % last]
  }

  /** The element of a node's value at an index; a scalar has the same one everywhere. */
  function Eval(f: Functions, env: Inputs, t: Term, idx: Index): real
    decreases t
  {
    match t
    case Input(name) => env(name, idx)
    case Const(c) => c
    case Unary(op, a) => ApplyUnary(f, op, Eval(f, env, a, idx))
    case Binary(op, a, b) => ApplyBinary(f, op, Eval(f, env, a, idx), Eval(f, env, b, idx))
    case Clip(a, lo, hi) => Clamp(Eval(f, env, a, idx), lo, hi)
    case MatMul(a, b, inner) =>
      if |idx| != 2 then 0.0 else Sum(inner, l => Product(Eval(f, env, a, [idx[0], l]), Eval(f, env, b, [l, idx[1]])))
    case Transpose(a) => if |idx| != 2 then 0.0 else Eval(f, env, a, [idx[1], idx[0]])
    case Gather(a, index) =>
      if |idx| != 2 || !(0 <= idx[1] < |index|) then 0.0 else Eval(f, env, a, [idx[0], index[idx[1]]])
    case Reshape(a, from, to) => Eval(f, env, a, Unflatten(from, Flatten(to, idx)))
    case ReduceSum(a, extent) => Sum(extent, s => Eval(f, env, a, idx + [s]))
  }

  // --- The builder's shorthands ------------------------------------------------------------------

  function AddT(a: Term, b: Term): Term { Binary(Add, a, b) }

  function SubT(a: Term, b: Term): Term { Binary(Sub, a, b) }

  function MulT(a: Term, b: Term): Term { Binary(Mul, a, b) }

  function GreaterMask(a: Term, bound: real): Term { Unary(ToFloat, Binary(Greater, a, Const(bound))) }

  function LessMask(a: Term, bound: real): Term { Unary(ToFloat, Binary(Less, a, Const(bound))) }

  /** floor, composed from a truncating cast and a comparison. */
  function FloorT(a: Term): Term {
    var truncated := Unary(ToFloat, Unary(ToInt32, a));
    var overshoot := Unary(ToFloat, Binary(Greater, truncated, a));
    SubT(truncated, overshoot)
  }

  lemma FloorIsFloor(f: Functions, env: Inputs, a: Term, idx: Index)
    requires FitsInt32(Eval(f, env, a, idx))
    ensures Eval(f, env, FloorT(a), idx) == Eval(f, env, a, idx).Floor as real
  {
    var x := Eval(f, env, a, idx);
    var truncated := Unary(ToFloat, Unary(ToInt32, a));
    assert Eval(f, env, Unary(ToInt32, a), idx) == Truncate(x);
    assert Eval(f, env, truncated, idx) == Truncate(x);
    assert Eval(f, env, Binary(Greater, truncated, a), idx) == Bit(Truncate(x) > x);
    assert Eval(f, env, Unary(ToFloat, Binary(Greater, truncated, a)), idx) == Bit(Truncate(x) > x);
    TruncatedFloor(x);
  }

  lemma FloorUnique(x: real, m: int)
    requires m as real <= x < m as real + 1.0
    ensures x.Floor == m
  {
    assert x.Floor as real <= x < x.Floor as real + 1.0;
    assert (x.Floor - m) as real < 1.0 && (m - x.Floor) as real < 1.0;
  }

  lemma TruncatedFloor(x: real)
    ensures Truncate(x) - Bit(Truncate(x) > x) == x.Floor as real
  {
    if x < 0.0 {
      var y := -x;
      var m := y.Floor;
      assert m as real <= y < m as real + 1.0;
      assert Truncate(x) == -(m as real);
      if y == m as real {
        FloorUnique(x, -m);
      } else {
        FloorUnique(x, -m - 1);
      }
    }
  }

  // --- The rectified sigmoid and the clip ratio ------------------------------------------------------

  const ZETA := 1.1
  const GAMMA := -0.1

  /** The numpy loop's h(v) and dh/dv. */
  function RawH(f: Functions, v: real): real { Product(f.sigmoid(v), ZETA - GAMMA) + GAMMA }

  function H(f: Functions, v: real): real { Clamp(RawH(f, v), 0.0, 1.0) }

  function SlopeH(f: Functions, v: real): real {
    if 0.0 < RawH(f, v) < 1.0 then Product(Product(f.sigmoid(v), 1.0 - f.sigmoid(v)), ZETA - GAMMA) else 0.0
  }

  /** In numbers: the sigmoid stretched to [-0.1, 1.1] and cut to [0, 1], and its slope where it is not cut. */
  lemma RelaxationIs(f: Functions, v: real)
    ensures var s := f.sigmoid(v);
            var raw := 1.2 * s - 0.1;
            && (raw <= 0.0 ==> H(f, v) == 0.0 == SlopeH(f, v))
            && (raw >= 1.0 ==> H(f, v) == 1.0 && SlopeH(f, v) == 0.0)
            && (0.0 < raw < 1.0 ==> H(f, v) == raw && SlopeH(f, v) == 1.2 * (s * (1.0 - s)))
  {
  }

  function ClipRatio(f: Functions, c: real, cmin: real, cmax: real): real { Product(f.sigmoid(c), cmax - cmin) + cmin }

  function ClipSlope(f: Functions, c: real, cmin: real, cmax: real): real {
    Product(Product(f.sigmoid(c), 1.0 - f.sigmoid(c)), cmax - cmin)
  }

  // --- The emitted graph --------------------------------------------------------------------------------

  function SigmoidT(a: Term): Term { Unary(Sigmoid, a) }

  function RawHT(): Term { AddT(MulT(SigmoidT(Input(V)), Const(ZETA - GAMMA)), Const(GAMMA)) }

  function HT(): Term { Clip(RawHT(), 0.0, 1.0) }

  function SlopeHT(): Term {
    var s := SigmoidT(Input(V));
    var active := MulT(GreaterMask(RawHT(), 0.0), LessMask(RawHT(), 1.0));
    MulT(active, MulT(MulT(s, SubT(Const(1.0), s)), Const(ZETA - GAMMA)))
  }

  /** What a layer bakes into its step graph. */
  datatype Shape = Shape(rows: nat, n: nat, blocks: nat, size: nat, nMin: real, nMax: real, cmin: real, cmax: real) {
    function K(): nat { blocks * size }

    /** How many outputs the loss averages over. */
    function Outputs(): real { (rows * n) as real }
  }

  function RawT(bin: Term): Term { AddT(bin, HT()) }

  function CodeT(p: Shape, bin: Term): Term { Clip(RawT(bin), p.nMin, p.nMax) }

  function ActiveT(p: Shape, bin: Term): Term { MulT(GreaterMask(RawT(bin), p.nMin), LessMask(RawT(bin), p.nMax)) }

  /** The difference to the float output, and the weight gradient, for a bin and a scale. */
  function DiffT(p: Shape, bin: Term, scale: Term): Term {
    SubT(MatMul(Input(X), Transpose(MulT(CodeT(p, bin), scale)), p.K()), Input(YFloat))
  }

  function OutputGradT(p: Shape, bin: Term, scale: Term): Term {
    MulT(DiffT(p, bin, scale), Const(Quotient(2.0, p.Outputs())))
  }

  function WeightGradT(p: Shape, bin: Term, scale: Term): Term {
    MatMul(Transpose(OutputGradT(p, bin, scale)), Input(X), p.rows)
  }

  function RegularizerT(): Term {
    var u := SubT(MulT(Const(2.0), HT()), Const(1.0));
    var powU := Binary(Pow, Unary(Abs, u), SubT(Input(Beta), Const(1.0)));
    MulT(MulT(MulT(Const(-2.0), Input(RegScale)), Input(Beta)), MulT(Unary(Sign, u), powU))
  }

  function GradVT(p: Shape, bin: Term, scale: Term): Term {
    AddT(MulT(MulT(WeightGradT(p, bin, scale), MulT(ActiveT(p, bin), scale)), SlopeHT()),
         MulT(RegularizerT(), SlopeHT()))
  }

  // AutoRound's own: the scale moves with c, so the bin is computed in the graph.

  function ClipRatioT(p: Shape): Term { AddT(MulT(SigmoidT(Input(C)), Const(p.cmax - p.cmin)), Const(p.cmin)) }

  function ClipSlopeT(p: Shape): Term {
    MulT(MulT(SigmoidT(Input(C)), SubT(Const(1.0), SigmoidT(Input(C)))), Const(p.cmax - p.cmin))
  }

  function BlockOfColumn(p: Shape): seq<nat> {
    seq(p.K(), j requires 0 <= j => if p.size == 0 then 0 else j / p.size)
  }

  function ScaleEffT(p: Shape): Term { Gather(MulT(Input(ScaleBlocks), ClipRatioT(p)), BlockOfColumn(p)) }

  function RatioT(p: Shape): Term { Binary(Div, Input(W), ScaleEffT(p)) }

  function BinT(p: Shape): Term { FloorT(RatioT(p)) }

  function ElementT(p: Shape): Term {
    MulT(WeightGradT(p, BinT(p), ScaleEffT(p)), SubT(CodeT(p, BinT(p)), MulT(ActiveT(p, BinT(p)), RatioT(p))))
  }

  function BlockedT(p: Shape): Term { Reshape(ElementT(p), [p.n, p.K()], [p.n, p.blocks, p.size]) }

  function GradCT(p: Shape): Term {
    MulT(MulT(ReduceSum(BlockedT(p), p.size), Input(ScaleBlocks)), ClipSlopeT(p))
  }

  // --- The numpy loops ----------------------------------------------------------------------------------------

  /** A layer: its activations, float output, weight and block scales. */
  datatype Layer = Layer(x: Mat, y: Mat, w: Mat, scaleBlocks: Mat)

  function Raw(f: Functions, bin: Mat, v: Mat): Mat { (i, j) => bin(i, j) + H(f, v(i, j)) }

  function Code(f: Functions, p: Shape, bin: Mat, v: Mat): Mat { (i, j) => Clamp(Raw(f, bin, v)(i, j), p.nMin, p.nMax) }

  predicate Active(f: Functions, p: Shape, bin: Mat, v: Mat, i: int, j: int) { p.nMin < Raw(f, bin, v)(i, j) < p.nMax }

  function WeightHat(f: Functions, p: Shape, bin: Mat, scale: Mat, v: Mat): Mat {
    (i, j) => Product(Code(f, p, bin, v)(i, j), scale(i, j))
  }

  function OutputTerms(f: Functions, p: Shape, l: Layer, bin: Mat, scale: Mat, v: Mat, r: int, i: int): int -> real {
    j => Product(l.x(r, j), WeightHat(f, p, bin, scale, v)(i, j))
  }

  function Residual(f: Functions, p: Shape, l: Layer, bin: Mat, scale: Mat, v: Mat): Mat {
    (r, i) => Sum(p.K(), OutputTerms(f, p, l, bin, scale, v, r, i)) - l.y(r, i)
  }

  function OutputGrad(f: Functions, p: Shape, l: Layer, bin: Mat, scale: Mat, v: Mat): Mat {
    (r, i) => Quotient(Product(2.0, Residual(f, p, l, bin, scale, v)(r, i)), p.Outputs())
  }

  function WeightTerms(f: Functions, p: Shape, l: Layer, bin: Mat, scale: Mat, v: Mat, i: int, j: int): int -> real {
    r => Product(OutputGrad(f, p, l, bin, scale, v)(r, i), l.x(r, j))
  }

  function WeightGrad(f: Functions, p: Shape, l: Layer, bin: Mat, scale: Mat, v: Mat): Mat {
    (i, j) => Sum(p.rows, WeightTerms(f, p, l, bin, scale, v, i, j))
  }

  function Regularizer(f: Functions, v: real, reg: real, beta: real): real {
    var u := 2.0 * H(f, v) - 1.0;
    Product(Product(-2.0 * reg * beta, ApplyUnary(f, Sign, u)), f.pow(ApplyUnary(f, Abs, u), beta - 1.0))
  }

  /** In numbers: the slope of reg * (1 - |2h - 1|^beta), pushing h away from one half on either side of it. */
  lemma RegularizerIs(f: Functions, v: real, reg: real, beta: real)
    ensures var u := 2.0 * H(f, v) - 1.0;
            && (u > 0.0 ==> Regularizer(f, v, reg, beta) == -2.0 * reg * beta * f.pow(u, beta - 1.0))
            && (u < 0.0 ==> Regularizer(f, v, reg, beta) == 2.0 * reg * beta * f.pow(-u, beta - 1.0))
            && (u == 0.0 ==> Regularizer(f, v, reg, beta) == 0.0)
  {
    var u := 2.0 * H(f, v) - 1.0;
    hide H;
    assert -2.0 * reg * beta * 1.0 == -2.0 * reg * beta && -2.0 * reg * beta * -1.0 == 2.0 * reg * beta;
  }

  /** The rounding gradient; the regularizer joins it after the warm start. */
  function GradV(f: Functions, p: Shape, l: Layer, bin: Mat, scale: Mat, v: Mat, reg: Option<(real, real)>): Mat {
    (i, j) =>
      var g := Product(Product(WeightGrad(f, p, l, bin, scale, v)(i, j),
                               if Active(f, p, bin, v, i, j) then scale(i, j) else 0.0),
                       SlopeH(f, v(i, j)));
      match reg
      case None => g
      case Some((param, beta)) => g + Product(Regularizer(f, v(i, j), param, beta), SlopeH(f, v(i, j)))
  }

  function ScaleEff(f: Functions, p: Shape, l: Layer, c: Mat): Mat {
    (i, j) =>
      if p.size == 0 then 0.0 else Product(l.scaleBlocks(i, j / p.size), ClipRatio(f, c(i, j / p.size), p.cmin, p.cmax))
  }

  function Ratio(f: Functions, p: Shape, l: Layer, c: Mat): Mat {
    (i, j) => Quotient(l.w(i, j), ScaleEff(f, p, l, c)(i, j))
  }

  function Bin(f: Functions, p: Shape, l: Layer, c: Mat): Mat { (i, j) => Ratio(f, p, l, c)(i, j).Floor as real }

  function ScaleSlope(f: Functions, p: Shape, l: Layer, v: Mat, c: Mat): Mat {
    (i, j) =>
      var bin := Bin(f, p, l, c);
      if Active(f, p, bin, v, i, j) then Code(f, p, bin, v)(i, j) - Ratio(f, p, l, c)(i, j)
      else Code(f, p, bin, v)(i, j)
  }

  function BlockTerms(f: Functions, p: Shape, l: Layer, v: Mat, c: Mat, i: int, b: int): int -> real {
    s => Product(WeightGrad(f, p, l, Bin(f, p, l, c), ScaleEff(f, p, l, c), v)(i, b * p.size + s),
                 ScaleSlope(f, p, l, v, c)(i, b * p.size + s))
  }

  /** The clip gradient: one per block, summed over it. */
  function GradC(f: Functions, p: Shape, l: Layer, v: Mat, c: Mat): Mat {
    (i, b) => Product(Product(Sum(p.size, BlockTerms(f, p, l, v, c, i, b)), l.scaleBlocks(i, b)),
                      ClipSlope(f, c(i, b), p.cmin, p.cmax))
  }

  // --- Node by node ----------------------------------------------------------------------------------------------

  lemma Masked(a: bool, b: bool, x: real)
    ensures Product(Product(Bit(a), Bit(b)), x) == if a && b then x else 0.0
  {
  }

  lemma MaskEval(f: Functions, env: Inputs, a: Term, lo: real, hi: real, idx: Index)
    ensures Eval(f, env, MulT(GreaterMask(a, lo), LessMask(a, hi)), idx)
         == Product(Bit(Eval(f, env, a, idx) > lo), Bit(Eval(f, env, a, idx) < hi))
  {
    var x := Eval(f, env, a, idx);
    assert Eval(f, env, Binary(Greater, a, Const(lo)), idx) == Bit(x > lo);
    assert Eval(f, env, Binary(Less, a, Const(hi)), idx) == Bit(x < hi);
    assert Eval(f, env, GreaterMask(a, lo), idx) == Bit(x > lo);
    assert Eval(f, env, LessMask(a, hi), idx) == Bit(x < hi);
  }

  lemma SigmoidSlopeEval(f: Functions, env: Inputs, a: Term, span: real, idx: Index)
    ensures var s := f.sigmoid(Eval(f, env, a, idx));
            Eval(f, env, MulT(MulT(SigmoidT(a), SubT(Const(1.0), SigmoidT(a))), Const(span)),
                 idx) == Product(Product(s, 1.0 - s), span)
  {
    var s := f.sigmoid(Eval(f, env, a, idx));
    assert Eval(f, env, SigmoidT(a), idx) == s;
    assert Eval(f, env, SubT(Const(1.0), SigmoidT(a)), idx) == 1.0 - s;
    assert Eval(f, env, MulT(SigmoidT(a), SubT(Const(1.0), SigmoidT(a))), idx) == Product(s, 1.0 - s);
  }

  lemma HEval(f: Functions, env: Inputs, idx: Index)
    ensures Eval(f, env, RawHT(), idx) == RawH(f, env(V, idx))
    ensures Eval(f, env, HT(), idx) == H(f, env(V, idx))
    ensures Eval(f, env, SlopeHT(), idx) == SlopeH(f, env(V, idx))
  {
    var v := env(V, idx);
    assert Eval(f, env, SigmoidT(Input(V)), idx) == f.sigmoid(v);
    assert Eval(f, env, MulT(SigmoidT(Input(V)), Const(ZETA - GAMMA)), idx) == Product(f.sigmoid(v), ZETA - GAMMA);
    MaskEval(f, env, RawHT(), 0.0, 1.0, idx);
    SigmoidSlopeEval(f, env, Input(V), ZETA - GAMMA, idx);
    Masked(RawH(f, v) > 0.0, RawH(f, v) < 1.0, Product(Product(f.sigmoid(v), 1.0 - f.sigmoid(v)), ZETA - GAMMA));
  }

  /** The term is the matrix, over the given rows and columns. */
  ghost predicate Holds(f: Functions, env: Inputs, t: Term, m: Mat, rows: int, cols: int) {
    forall i, j :: 0 <= i < rows && 0 <= j < cols ==> Eval(f, env, t, [i, j]) == m(i, j)
  }

  lemma CodeEval(f: Functions, env: Inputs, p: Shape, bin: Term, binM: Mat, v: Mat, i: int, j: int)
    requires Eval(f, env, bin, [i, j]) == binM(i, j) && env(V, [i, j]) == v(i, j)
    ensures Eval(f, env, RawT(bin), [i, j]) == Raw(f, binM, v)(i, j)
    ensures Eval(f, env, CodeT(p, bin), [i, j]) == Code(f, p, binM, v)(i, j)
    ensures Eval(f, env, ActiveT(p, bin), [i, j]) == Bit(Active(f, p, binM, v, i, j))
  {
    HEval(f, env, [i, j]);
    hide H;
    MaskEval(f, env, RawT(bin), p.nMin, p.nMax, [i, j]);
    Masked(Raw(f, binM, v)(i, j) > p.nMin, Raw(f, binM, v)(i, j) < p.nMax, 1.0);
  }

  /** The inputs hold the layer and the current v. */
  ghost predicate FeedsLayer(f: Functions, env: Inputs, p: Shape, l: Layer, v: Mat) {
    && Holds(f, env, Input(X), l.x, p.rows, p.K()) && Holds(f, env, Input(YFloat), l.y, p.rows, p.n)
    && Holds(f, env, Input(V), v, p.n, p.K())
  }

  lemma InputHolds(f: Functions, env: Inputs, name: InputName, m: Mat, rows: int, cols: int, i: int, j: int)
    requires Holds(f, env, Input(name), m, rows, cols) && 0 <= i < rows && 0 <= j < cols
    ensures env(name, [i, j]) == m(i, j)
  {
    assert Eval(f, env, Input(name), [i, j]) == env(name, [i, j]);
  }

  lemma WeightHatEval(f: Functions, env: Inputs, p: Shape, l: Layer, bin: Term, binM: Mat, scale: Term, scaleM: Mat,
                      v: Mat, i: int, j: int)
    requires FeedsLayer(f, env, p, l, v) && 0 <= i < p.n && 0 <= j < p.K()
    requires Holds(f, env, bin, binM, p.n, p.K()) && Holds(f, env, scale, scaleM, p.n, p.K())
    ensures Eval(f, env, MulT(CodeT(p, bin), scale), [i, j]) == WeightHat(f, p, binM, scaleM, v)(i, j)
  {
    hide Code, CodeT, Product, Eval;
    InputHolds(f, env, V, v, p.n, p.K(), i, j);
    CodeEval(f, env, p, bin, binM, v, i, j);
    BinaryIs(f, env, Mul, CodeT(p, bin), scale, [i, j]);
  }

  lemma DiffEval(f: Functions, env: Inputs, p: Shape, l: Layer, bin: Term, binM: Mat, scale: Term, scaleM: Mat,
                 v: Mat, r: int, i: int)
    requires FeedsLayer(f, env, p, l, v) && 0 <= r < p.rows && 0 <= i < p.n
    requires Holds(f, env, bin, binM, p.n, p.K()) && Holds(f, env, scale, scaleM, p.n, p.K())
    ensures Eval(f, env, DiffT(p, bin, scale), [r, i]) == Residual(f, p, l, binM, scaleM, v)(r, i)
  {
    hide *;
    FedX(f, env, p, l, v);
    var hat := MulT(CodeT(p, bin), scale);
    forall j | 0 <= j < p.K()
      ensures OutputTerms(f, p, l, binM, scaleM, v, r, i)(j)
                == Product(Eval(f, env, Input(X), [r, j]), Eval(f, env, Transpose(hat), [j, i]))
    {
      OutputTermEval(f, env, p, l, bin, binM, scale, scaleM, v, r, i, j);
    }
    MatMulIs(f, env, Input(X), Transpose(hat), p.K(), r, i, OutputTerms(f, p, l, binM, scaleM, v, r, i));
    DiffIs(f, env, p, bin, scale, l.y, r, i);
    ResidualIs(f, p, l, binM, scaleM, v, r, i);
  }

  lemma ResidualIs(f: Functions, p: Shape, l: Layer, bin: Mat, scale: Mat, v: Mat, r: int, i: int)
    ensures Residual(f, p, l, bin, scale, v)(r, i) == Sum(p.K(), OutputTerms(f, p, l, bin, scale, v, r, i)) - l.y(r, i)
  {
  }

  lemma DiffIs(f: Functions, env: Inputs, p: Shape, bin: Term, scale: Term, y: Mat, r: int, i: int)
    requires Holds(f, env, Input(YFloat), y, p.rows, p.n) && 0 <= r < p.rows && 0 <= i < p.n
    ensures Eval(f, env, DiffT(p, bin, scale), [r, i])
         == Eval(f, env, MatMul(Input(X), Transpose(MulT(CodeT(p, bin), scale)), p.K()), [r, i]) - y(r, i)
  {
    hide CodeT, Eval;
    InputHolds(f, env, YFloat, y, p.rows, p.n, r, i);
    BinaryIs(f, env, Sub, MatMul(Input(X), Transpose(MulT(CodeT(p, bin), scale)), p.K()), Input(YFloat), [r, i]);
    InputIs(f, env, YFloat, [r, i]);
  }

  lemma OutputTermEval(f: Functions, env: Inputs, p: Shape, l: Layer, bin: Term, binM: Mat, scale: Term, scaleM: Mat,
                       v: Mat, r: int, i: int, j: int)
    requires FeedsLayer(f, env, p, l, v) && 0 <= r < p.rows && 0 <= i < p.n && 0 <= j < p.K()
    requires Holds(f, env, bin, binM, p.n, p.K()) && Holds(f, env, scale, scaleM, p.n, p.K())
    ensures OutputTerms(f, p, l, binM, scaleM, v, r, i)(j)
         == Product(Eval(f, env, Input(X), [r, j]), Eval(f, env, Transpose(MulT(CodeT(p, bin), scale)), [j, i]))
  {
    FedX(f, env, p, l, v);
    hide Eval, Product, CodeT, WeightHat, Holds, FeedsLayer;
    WeightHatEval(f, env, p, l, bin, binM, scale, scaleM, v, i, j);
    TransposeIs(f, env, MulT(CodeT(p, bin), scale), j, i);
    InputIs(f, env, X, [r, j]);
    InputHolds(f, env, X, l.x, p.rows, p.K(), r, j);
  }

  lemma BinaryIs(f: Functions, env: Inputs, op: BinaryOp, a: Term, b: Term, idx: Index)
    ensures Eval(f, env, Binary(op, a, b), idx) == ApplyBinary(f, op, Eval(f, env, a, idx), Eval(f, env, b, idx))
  {
  }

  lemma InputIs(f: Functions, env: Inputs, name: InputName, idx: Index)
    ensures Eval(f, env, Input(name), idx) == env(name, idx)
  {
  }

  lemma TransposeIs(f: Functions, env: Inputs, a: Term, i: int, j: int)
    ensures Eval(f, env, Transpose(a), [i, j]) == Eval(f, env, a, [j, i])
  {
  }

  lemma FedX(f: Functions, env: Inputs, p: Shape, l: Layer, v: Mat)
    requires FeedsLayer(f, env, p, l, v)
    ensures Holds(f, env, Input(X), l.x, p.rows, p.K()) && Holds(f, env, Input(YFloat), l.y, p.rows, p.n)
    ensures Holds(f, env, Input(V), v, p.n, p.K())
  {
  }

  lemma MatMulIs(f: Functions, env: Inputs, a: Term, b: Term, inner: nat, r: int, i: int, F: int -> real)
    requires forall l :: 0 <= l < inner ==> F(l) == Product(Eval(f, env, a, [r, l]), Eval(f, env, b, [l, i]))
    ensures Eval(f, env, MatMul(a, b, inner), [r, i]) == Sum(inner, F)
  {
    hide Sum, Product, ApplyUnary, ApplyBinary, Unflatten, Flatten, Clamp;
    var idx := [r, i];
    var G: int -> real := l => Product(Eval(f, env, a, [idx[0], l]), Eval(f, env, b, [l, idx[1]]));
    assert idx[0] == r && idx[1] == i;
    SumCong(inner, F, G);
    assert Eval(f, env, MatMul(a, b, inner), [r, i]) == Sum(inner, G);
  }

  lemma OutputGradEval(f: Functions, env: Inputs, p: Shape, l: Layer, bin: Term, binM: Mat, scale: Term, scaleM: Mat,
                       v: Mat, r: int, i: int)
    requires FeedsLayer(f, env, p, l, v) && 0 <= r < p.rows && 0 <= i < p.n
    requires Holds(f, env, bin, binM, p.n, p.K()) && Holds(f, env, scale, scaleM, p.n, p.K())
    ensures Eval(f, env, OutputGradT(p, bin, scale), [r, i]) == OutputGrad(f, p, l, binM, scaleM, v)(r, i)
  {
    hide *;
    DiffEval(f, env, p, l, bin, binM, scale, scaleM, v, r, i);
    OutputGradTIs(p, bin, scale);
    ScaledResidual(f, env, DiffT(p, bin, scale), p.Outputs(), [r, i]);
    OutputGradIs(f, p, l, binM, scaleM, v, r, i);
  }

  lemma OutputGradTIs(p: Shape, bin: Term, scale: Term)
    ensures OutputGradT(p, bin, scale) == MulT(DiffT(p, bin, scale), Const(Quotient(2.0, p.Outputs())))
  {
  }

  lemma ScaledResidual(f: Functions, env: Inputs, diff: Term, n: real, idx: Index)
    ensures Eval(f, env, MulT(diff, Const(Quotient(2.0, n))), idx) == Quotient(Product(2.0, Eval(f, env, diff, idx)), n)
  {
    TwiceOver(Eval(f, env, diff, idx), n);
    hide Quotient;
  }

  lemma OutputGradIs(f: Functions, p: Shape, l: Layer, bin: Mat, scale: Mat, v: Mat, r: int, i: int)
    ensures OutputGrad(f, p, l, bin, scale, v)(r, i)
              == Quotient(Product(2.0, Residual(f, p, l, bin, scale, v)(r, i)), p.Outputs())
  {
  }

  lemma TwiceOver(d: real, n: real)
    ensures Product(d, Quotient(2.0, n)) == Quotient(Product(2.0, d), n)
  {
    if n != 0.0 {
      assert d * (2.0 / n) == (2.0 * d) / n;
    }
  }

  lemma WeightGradEval(f: Functions, env: Inputs, p: Shape, l: Layer, bin: Term, binM: Mat, scale: Term, scaleM: Mat,
                       v: Mat, i: int, j: int)
    requires FeedsLayer(f, env, p, l, v) && 0 <= i < p.n && 0 <= j < p.K()
    requires Holds(f, env, bin, binM, p.n, p.K()) && Holds(f, env, scale, scaleM, p.n, p.K())
    ensures Eval(f, env, WeightGradT(p, bin, scale), [i, j]) == WeightGrad(f, p, l, binM, scaleM, v)(i, j)
  {
    hide *;
    var g := OutputGradT(p, bin, scale);
    forall r | 0 <= r < p.rows
      ensures WeightTerms(f, p, l, binM, scaleM, v, i, j)(r)
                == Product(Eval(f, env, Transpose(g), [i, r]), Eval(f, env, Input(X), [r, j]))
    {
      WeightTermEval(f, env, p, l, bin, binM, scale, scaleM, v, i, j, r);
    }
    MatMulIs(f, env, Transpose(g), Input(X), p.rows, i, j, WeightTerms(f, p, l, binM, scaleM, v, i, j));
    WeightGradIs(f, p, l, bin, binM, scale, scaleM, v, i, j);
  }

  lemma WeightGradIs(f: Functions, p: Shape, l: Layer, bin: Term, binM: Mat, scale: Term, scaleM: Mat, v: Mat, i: int,
                     j: int)
    ensures WeightGrad(f, p, l, binM, scaleM, v)(i, j) == Sum(p.rows, WeightTerms(f, p, l, binM, scaleM, v, i, j))
    ensures WeightGradT(p, bin, scale) == MatMul(Transpose(OutputGradT(p, bin, scale)), Input(X), p.rows)
  {
  }

  lemma WeightTermEval(f: Functions, env: Inputs, p: Shape, l: Layer, bin: Term, binM: Mat, scale: Term, scaleM: Mat,
                       v: Mat, i: int, j: int, r: int)
    requires FeedsLayer(f, env, p, l, v) && 0 <= i < p.n && 0 <= j < p.K() && 0 <= r < p.rows
    requires Holds(f, env, bin, binM, p.n, p.K()) && Holds(f, env, scale, scaleM, p.n, p.K())
    ensures WeightTerms(f, p, l, binM, scaleM, v, i, j)(r)
         == Product(Eval(f, env, Transpose(OutputGradT(p, bin, scale)), [i, r]), Eval(f, env, Input(X), [r, j]))
  {
    FedX(f, env, p, l, v);
    hide Eval, Product, OutputGrad, OutputGradT, Holds, FeedsLayer;
    OutputGradEval(f, env, p, l, bin, binM, scale, scaleM, v, r, i);
    TransposeIs(f, env, OutputGradT(p, bin, scale), i, r);
    InputIs(f, env, X, [r, j]);
    InputHolds(f, env, X, l.x, p.rows, p.K(), r, j);
  }

  lemma RegularizerEval(f: Functions, env: Inputs, idx: Index)
    ensures Eval(f, env, RegularizerT(), idx)
         == if env(RegScale, idx) == 0.0 then 0.0 else Regularizer(f, env(V, idx), env(RegScale, idx), env(Beta, idx))
  {
    HEval(f, env, idx);
    hide HT, H;
    var reg, beta := env(RegScale, idx), env(Beta, idx);
    var uT := SubT(MulT(Const(2.0), HT()), Const(1.0));
    var u := 2.0 * H(f, env(V, idx)) - 1.0;
    assert Eval(f, env, MulT(Const(2.0), HT()), idx) == Product(2.0, H(f, env(V, idx)));
    assert Eval(f, env, uT, idx) == u;
    var powT := Binary(Pow, Unary(Abs, uT), SubT(Input(Beta), Const(1.0)));
    assert Eval(f, env, Unary(Abs, uT), idx) == ApplyUnary(f, Abs, u);
    assert Eval(f, env, SubT(Input(Beta), Const(1.0)), idx) == beta - 1.0;
    assert Eval(f, env, powT, idx) == f.pow(ApplyUnary(f, Abs, u), beta - 1.0);
    assert Eval(f, env, Unary(Sign, uT), idx) == ApplyUnary(f, Sign, u);
    assert Eval(f, env, MulT(Const(-2.0), Input(RegScale)), idx) == Product(-2.0, reg);
    assert Eval(f, env, MulT(MulT(Const(-2.0), Input(RegScale)), Input(Beta)), idx)
      == Product(Product(-2.0, reg), beta);
    assert Eval(f, env, MulT(Unary(Sign, uT), powT), idx)
      == Product(ApplyUnary(f, Sign, u), f.pow(ApplyUnary(f, Abs, u), beta - 1.0));
    Regroup(reg, beta, ApplyUnary(f, Sign, u), f.pow(ApplyUnary(f, Abs, u), beta - 1.0));
  }

  lemma Regroup(reg: real, beta: real, sign: real, power: real)
    ensures Product(Product(Product(-2.0, reg), beta), Product(sign, power))
              == Product(Product(-2.0 * reg * beta, sign), power)
    ensures reg == 0.0 ==> Product(Product(Product(-2.0, reg), beta), Product(sign, power)) == 0.0
  {
    var a := -2.0 * reg * beta;
    assert a * (sign * power) == (a * sign) * power;
  }

  /** What the scalars say of the regularizer: its weight and exponent, or a zero weight during the warm start. */
  ghost predicate FeedsRegularizer(env: Inputs, reg: Option<(real, real)>) {
    match reg
    case None => forall idx :: env(RegScale, idx) == 0.0
    case Some((param, beta)) => forall idx :: env(RegScale, idx) == param && env(Beta, idx) == beta
  }

  lemma NoWeight(f: Functions, v: real, beta: real)
    ensures Regularizer(f, v, 0.0, beta) == 0.0
  {
  }

  /** The emitted rounding gradient is the numpy loop's, for any bin and scale the graph computes or is fed. */
  lemma GradVEval(f: Functions, env: Inputs, p: Shape, l: Layer, bin: Term, binM: Mat, scale: Term, scaleM: Mat, v: Mat,
                  reg: Option<(real, real)>, i: int, j: int)
    requires FeedsLayer(f, env, p, l, v) && FeedsRegularizer(env, reg) && 0 <= i < p.n && 0 <= j < p.K()
    requires Holds(f, env, bin, binM, p.n, p.K()) && Holds(f, env, scale, scaleM, p.n, p.K())
    ensures Eval(f, env, GradVT(p, bin, scale), [i, j]) == GradV(f, p, l, binM, scaleM, v, reg)(i, j)
  {
    hide Eval, Quotient, HT, H, SlopeHT, SlopeH, ActiveT, Active, WeightGradT, WeightGrad, RegularizerT, Regularizer;
    var idx := [i, j];
    InputHolds(f, env, V, v, p.n, p.K(), i, j);
    HEval(f, env, idx);
    CodeEval(f, env, p, bin, binM, v, i, j);
    WeightGradEval(f, env, p, l, bin, binM, scale, scaleM, v, i, j);
    RegularizerEval(f, env, idx);
    var active, s, slope := Active(f, p, binM, v, i, j), scaleM(i, j), SlopeH(f, v(i, j));
    var w := WeightGrad(f, p, l, binM, scaleM, v)(i, j);
    var masked := MulT(ActiveT(p, bin), scale);
    BinaryIs(f, env, Mul, ActiveT(p, bin), scale, idx);
    assert Eval(f, env, masked, idx) == if active then s else 0.0;
    BinaryIs(f, env, Mul, WeightGradT(p, bin, scale), masked, idx);
    BinaryIs(f, env, Mul, MulT(WeightGradT(p, bin, scale), masked), SlopeHT(), idx);
    BinaryIs(f, env, Mul, RegularizerT(), SlopeHT(), idx);
    BinaryIs(f, env, Add, MulT(MulT(WeightGradT(p, bin, scale), masked), SlopeHT()), MulT(RegularizerT(), SlopeHT()),
             idx);
    match reg
    case None =>
      assert Eval(f, env, MulT(RegularizerT(), SlopeHT()), idx) == 0.0;
    case Some((param, beta)) =>
      NoWeight(f, v(i, j), beta);
  }

  // --- The moving scale ---------------------------------------------------------------------------------------------

  /** The inputs also hold the weight, the block scales and the current c. */
  ghost predicate FeedsScale(f: Functions, env: Inputs, p: Shape, l: Layer, c: Mat) {
    && Holds(f, env, Input(W), l.w, p.n, p.K()) && Holds(f, env, Input(ScaleBlocks), l.scaleBlocks, p.n, p.blocks)
    && Holds(f, env, Input(C), c, p.n, p.blocks)
  }

  lemma BlockBounds(p: Shape, j: int)
    requires 0 <= j < p.K()
    ensures p.size > 0 && 0 <= j / p.size < p.blocks
  {
    PositiveFactors(p.blocks, p.size);
    QuotientBelow(j, p.blocks, p.size);
  }

  lemma ScaleBlocksEval(f: Functions, env: Inputs, p: Shape, l: Layer, c: Mat, i: int, b: int)
    requires FeedsScale(f, env, p, l, c) && 0 <= i < p.n && 0 <= b < p.blocks
    ensures env(ScaleBlocks, [i, b]) == l.scaleBlocks(i, b) && env(C, [i, b]) == c(i, b)
    ensures Eval(f, env, MulT(Input(ScaleBlocks), ClipRatioT(p)), [i, b])
         == Product(l.scaleBlocks(i, b), ClipRatio(f, c(i, b), p.cmin, p.cmax))
    ensures Eval(f, env, ClipSlopeT(p), [i, b]) == ClipSlope(f, c(i, b), p.cmin, p.cmax)
  {
    InputHolds(f, env, ScaleBlocks, l.scaleBlocks, p.n, p.blocks, i, b);
    InputHolds(f, env, C, c, p.n, p.blocks, i, b);
    SigmoidSlopeEval(f, env, Input(C), p.cmax - p.cmin, [i, b]);
    assert Eval(f, env, SigmoidT(Input(C)), [i, b]) == f.sigmoid(c(i, b));
    assert Eval(f, env, MulT(SigmoidT(Input(C)), Const(p.cmax - p.cmin)), [i, b])
      == Product(f.sigmoid(c(i, b)), p.cmax - p.cmin);
    assert Eval(f, env, ClipRatioT(p), [i, b]) == ClipRatio(f, c(i, b), p.cmin, p.cmax);
  }

  /** Gather by block index is numpy's repeat. */
  lemma GatherIsRepeat(f: Functions, env: Inputs, p: Shape, a: Term, i: int, j: int)
    requires 0 <= j < p.K()
    ensures p.size > 0 && Eval(f, env, Gather(a, BlockOfColumn(p)), [i, j]) == Eval(f, env, a, [i, j / p.size])
  {
    BlockBounds(p, j);
    var index := BlockOfColumn(p);
    assert index[j] == j / p.size;
    assert [i, j][1] == j && [i, j][0] == i;
  }

  lemma ScaleEffEval(f: Functions, env: Inputs, p: Shape, l: Layer, c: Mat)
    requires FeedsScale(f, env, p, l, c)
    ensures Holds(f, env, ScaleEffT(p), ScaleEff(f, p, l, c), p.n, p.K())
  {
    forall i, j | 0 <= i < p.n && 0 <= j < p.K()
      ensures Eval(f, env, ScaleEffT(p), [i, j]) == ScaleEff(f, p, l, c)(i, j)
    {
      hide Eval, ClipRatio, ClipRatioT, Product;
      BlockBounds(p, j);
      GatherIsRepeat(f, env, p, MulT(Input(ScaleBlocks), ClipRatioT(p)), i, j);
      ScaleBlocksEval(f, env, p, l, c, i, j / p.size);
    }
  }

  lemma RatioEval(f: Functions, env: Inputs, p: Shape, l: Layer, c: Mat)
    requires FeedsScale(f, env, p, l, c)
    ensures Holds(f, env, RatioT(p), Ratio(f, p, l, c), p.n, p.K())
  {
    ScaleEffEval(f, env, p, l, c);
    forall i, j | 0 <= i < p.n && 0 <= j < p.K() ensures Eval(f, env, RatioT(p), [i, j]) == Ratio(f, p, l, c)(i, j) {
      hide Eval, ScaleEff, ScaleEffT, Quotient;
      InputHolds(f, env, W, l.w, p.n, p.K(), i, j);
      InputIs(f, env, W, [i, j]);
      BinaryIs(f, env, Div, Input(W), ScaleEffT(p), [i, j]);
    }
  }

  /** The quotients the graph casts to INT32 fit it. */
  ghost predicate BinsFit(f: Functions, p: Shape, l: Layer, c: Mat) {
    forall i, j :: 0 <= i < p.n && 0 <= j < p.K() ==> FitsInt32(Ratio(f, p, l, c)(i, j))
  }

  /** What a caller can check of a layer: the clip range is positive, every block scale is, and no weight is
      2^31 times as large as the smallest scale the clip range allows it. */
  ghost predicate InputsFit(f: Functions, p: Shape, l: Layer) {
    && 0.0 < p.cmin <= p.cmax && NonnegativeSigmoid(f)
    && (forall i, b :: 0 <= i < p.n && 0 <= b < p.blocks ==> 0.0 < l.scaleBlocks(i, b))
    && (forall i, j :: 0 <= i < p.n && 0 <= j < p.K() ==> WeightFits(p, l, i, j))
  }

  ghost predicate NonnegativeSigmoid(f: Functions) { forall x :: 0.0 <= f.sigmoid(x) }

  lemma SigmoidAt(f: Functions, x: real)
    requires NonnegativeSigmoid(f)
    ensures 0.0 <= f.sigmoid(x)
  {
  }

  ghost predicate WeightFits(p: Shape, l: Layer, i: int, j: int) {
    p.size > 0 ==> BlockInt4.Abs(l.w(i, j)) < 2147483648.0 * Product(l.scaleBlocks(i, j / p.size), p.cmin)
  }

  lemma ScaleAtLeast(block: real, s: real, cmin: real, cmax: real)
    requires 0.0 < cmin <= cmax && 0.0 < block && 0.0 <= s
    ensures 0.0 < Product(block, cmin) <= Product(block, Product(s, cmax - cmin) + cmin)
  {
    var extra := s * (cmax - cmin);
    assert 0.0 <= extra && 0.0 <= block * extra && 0.0 < block * cmin;
    assert block * (extra + cmin) == block * extra + block * cmin;
  }

  lemma NegativeFactor(a: real, scale: real)
    requires 0.0 < scale && a * scale < 0.0
    ensures a < 0.0
  {
  }

  lemma QuotientFits(w: real, scale: real, bound: real)
    requires 0.0 < scale && BlockInt4.Abs(w) < bound * scale
    ensures -bound < Quotient(w, scale) < bound
  {
    var q := w / scale;
    assert q * scale == w;
    assert (q - bound) * scale == w - bound * scale && (-bound - q) * scale == -(bound * scale) - w;
    NegativeFactor(q - bound, scale);
    NegativeFactor(-bound - q, scale);
  }

  lemma BoundGrows(bound: real, a: real, b: real)
    requires 0.0 <= bound && a <= b
    ensures bound * a <= bound * b
  {
  }

  lemma RatioFits(f: Functions, p: Shape, l: Layer, c: Mat, i: int, j: int)
    requires InputsFit(f, p, l) && 0 <= i < p.n && 0 <= j < p.K()
    ensures FitsInt32(Ratio(f, p, l, c)(i, j))
  {
    hide Product, Quotient, BlockInt4.Abs;
    BlockBounds(p, j);
    assert WeightFits(p, l, i, j);
    var b := j / p.size;
    var block, s := l.scaleBlocks(i, b), f.sigmoid(c(i, b));
    assert 0 <= b < p.blocks && 0.0 < block;
    SigmoidAt(f, c(i, b));
    ScaleAtLeast(block, s, p.cmin, p.cmax);
    var scale := Product(block, Product(s, p.cmax - p.cmin) + p.cmin);
    BoundGrows(2147483648.0, Product(block, p.cmin), scale);
    QuotientFits(l.w(i, j), scale, 2147483648.0);
    assert ScaleEff(f, p, l, c)(i, j) == scale;
  }

  /** Then the quotients fit the cast whatever the clip parameters have become. */
  lemma InputsFitAlways(f: Functions, p: Shape, l: Layer, c: Mat)
    requires InputsFit(f, p, l)
    ensures BinsFit(f, p, l, c)
  {
    hide InputsFit, Ratio, FitsInt32;
    forall i, j | 0 <= i < p.n && 0 <= j < p.K() ensures FitsInt32(Ratio(f, p, l, c)(i, j)) {
      RatioFits(f, p, l, c, i, j);
    }
  }

  lemma BinEval(f: Functions, env: Inputs, p: Shape, l: Layer, c: Mat)
    requires FeedsScale(f, env, p, l, c) && BinsFit(f, p, l, c)
    ensures Holds(f, env, BinT(p), Bin(f, p, l, c), p.n, p.K())
  {
    RatioEval(f, env, p, l, c);
    forall i, j | 0 <= i < p.n && 0 <= j < p.K() ensures Eval(f, env, BinT(p), [i, j]) == Bin(f, p, l, c)(i, j) {
      hide Eval, RatioT, Ratio, FitsInt32;
      FloorIsFloor(f, env, RatioT(p), [i, j]);
    }
  }

  /** The mask times the ratio, taken off, is numpy's where. */
  lemma ScaleSlopeEval(f: Functions, env: Inputs, p: Shape, l: Layer, v: Mat, c: Mat, i: int, j: int)
    requires FeedsLayer(f, env, p, l, v) && FeedsScale(f, env, p, l, c) && BinsFit(f, p, l, c) && 0 <= i < p.n
    requires 0 <= j < p.K()
    ensures Eval(f, env, SubT(CodeT(p, BinT(p)), MulT(ActiveT(p, BinT(p)), RatioT(p))), [i, j])
              == ScaleSlope(f, p, l, v, c)(i, j)
  {
    hide Eval, CodeT, BinT, ActiveT, RatioT, Bin, Ratio, Code, Active, Quotient;
    var idx := [i, j];
    BinEval(f, env, p, l, c);
    RatioEval(f, env, p, l, c);
    InputHolds(f, env, V, v, p.n, p.K(), i, j);
    CodeEval(f, env, p, BinT(p), Bin(f, p, l, c), v, i, j);
    BinaryIs(f, env, Mul, ActiveT(p, BinT(p)), RatioT(p), idx);
    BinaryIs(f, env, Sub, CodeT(p, BinT(p)), MulT(ActiveT(p, BinT(p)), RatioT(p)), idx);
  }

  /** Reshaping [n, blocks * size] to [n, blocks, size] keeps row-major order. */
  lemma ReshapeIndex(n: nat, blocks: nat, size: nat, i: int, b: int, s: int)
    requires 0 <= i < n && 0 <= b < blocks && 0 <= s < size
    ensures 0 <= b * size + s < blocks * size
    ensures Unflatten([n, blocks * size], Flatten([n, blocks, size], [i, b, s])) == [i, b * size + s]
  {
    var k := blocks * size;
    var j := b * size + s;
    assert b * size + s < (b + 1) * size <= blocks * size;
    FlattenThree(n, blocks, size, i, b, s);
    assert (i * blocks + b) * size + s == i * k + j by {
      assert (i * blocks + b) * size == i * blocks * size + b * size;
      assert i * blocks * size == i * (blocks * size);
    }
    DivisionIsUnique(i * k + j, k, i, j);
    UnflattenTwo(n, k, i * k + j);
    DivisionIsUnique(i, n, 0, i);
  }

  lemma FlattenThree(n: nat, blocks: nat, size: nat, i: int, b: int, s: int)
    ensures Flatten([n, blocks, size], [i, b, s]) == (i * blocks + b) * size + s
  {
    assert [n, blocks, size][..2] == [n, blocks] && [i, b, s][..2] == [i, b];
    assert [n, blocks][..1] == [n] && [i, b][..1] == [i];
    assert [n][..0] == [] && [i][..0] == [];
    assert Flatten([n], [i]) == i;
    assert Flatten([n, blocks], [i, b]) == i * blocks + b;
  }

  lemma UnflattenTwo(n: nat, k: nat, at: int)
    requires n > 0 && k > 0 && 0 <= at / k < n
    ensures Unflatten([n, k], at) == [at / k, at % k]
  {
    assert [n, k][..1] == [n] && [n][..0] == [];
    assert (at / k) % n == at / k;
    assert Unflatten([n], at / k) == Unflatten([], at / k / n) + [(at / k) % n];
  }

  /** One block's part of the emitted clip gradient. */
  lemma BlockTermEval(f: Functions, env: Inputs, p: Shape, l: Layer, v: Mat, c: Mat, i: int, b: int, s: int)
    requires FeedsLayer(f, env, p, l, v) && FeedsScale(f, env, p, l, c) && BinsFit(f, p, l, c)
    requires 0 <= i < p.n && 0 <= b < p.blocks && 0 <= s < p.size
    ensures Eval(f, env, BlockedT(p), [i, b] + [s]) == BlockTerms(f, p, l, v, c, i, b)(s)
  {
    hide *;
    var j := b * p.size + s;
    ReshapeIndex(p.n, p.blocks, p.size, i, b, s);
    KIs(p);
    assert [i, b] + [s] == [i, b, s];
    ElementEval(f, env, p, l, v, c, i, j);
    BlockedIs(f, env, p, [i, b, s], [i, j]);
    BlockTermsIs(f, p, l, v, c, i, b, s);
  }

  lemma KIs(p: Shape)
    ensures p.K() == p.blocks * p.size
  {
  }

  lemma BlockTermsIs(f: Functions, p: Shape, l: Layer, v: Mat, c: Mat, i: int, b: int, s: int)
    ensures BlockTerms(f, p, l, v, c, i, b)(s) ==
              Product(WeightGrad(f, p, l, Bin(f, p, l, c), ScaleEff(f, p, l, c), v)(i, b * p.size + s),
                      ScaleSlope(f, p, l, v, c)(i, b * p.size + s))
  {
  }

  lemma BlockedIs(f: Functions, env: Inputs, p: Shape, idx: Index, at: Index)
    requires Unflatten([p.n, p.K()], Flatten([p.n, p.blocks, p.size], idx)) == at
    ensures Eval(f, env, BlockedT(p), idx) == Eval(f, env, ElementT(p), at)
  {
    hide Eval, Unflatten, Flatten;
    ReshapeIs(f, env, ElementT(p), [p.n, p.K()], [p.n, p.blocks, p.size], idx, at);
  }

  lemma ElementEval(f: Functions, env: Inputs, p: Shape, l: Layer, v: Mat, c: Mat, i: int, j: int)
    requires FeedsLayer(f, env, p, l, v) && FeedsScale(f, env, p, l, c) && BinsFit(f, p, l, c)
    requires 0 <= i < p.n && 0 <= j < p.K()
    ensures Eval(f, env, ElementT(p), [i, j])
         == Product(WeightGrad(f, p, l, Bin(f, p, l, c), ScaleEff(f, p, l, c), v)(i, j),
                    ScaleSlope(f, p, l, v, c)(i, j))
  {
    hide Eval, Product, Holds, FeedsLayer, FeedsScale, BinsFit, WeightGrad, WeightGradT, ScaleSlope, Bin, ScaleEff,
         CodeT, ActiveT, RatioT, BinT, ScaleEffT;
    BinEval(f, env, p, l, c);
    ScaleEffEval(f, env, p, l, c);
    WeightGradEval(f, env, p, l, BinT(p), Bin(f, p, l, c), ScaleEffT(p), ScaleEff(f, p, l, c), v, i, j);
    ScaleSlopeEval(f, env, p, l, v, c, i, j);
    BinaryIs(f, env, Mul, WeightGradT(p, BinT(p), ScaleEffT(p)),
             SubT(CodeT(p, BinT(p)), MulT(ActiveT(p, BinT(p)), RatioT(p))), [i, j]);
  }

  lemma ReshapeIs(f: Functions, env: Inputs, a: Term, from: seq<nat>, to: seq<nat>, idx: Index, at: Index)
    requires Unflatten(from, Flatten(to, idx)) == at
    ensures Eval(f, env, Reshape(a, from, to), idx) == Eval(f, env, a, at)
  {
    hide Flatten, Unflatten;
  }

  lemma ReduceSumIs(f: Functions, env: Inputs, a: Term, extent: nat, idx: Index, F: int -> real)
    requires forall s :: 0 <= s < extent ==> Eval(f, env, a, idx + [s]) == F(s)
    ensures Eval(f, env, ReduceSum(a, extent), idx) == Sum(extent, F)
  {
    hide Sum, Product, ApplyUnary, ApplyBinary, Unflatten, Flatten, Clamp;
    var G: int -> real := s => Eval(f, env, a, idx + [s]);
    SumCong(extent, G, F);
    assert Eval(f, env, ReduceSum(a, extent), idx) == Sum(extent, G);
  }

  /** The emitted clip gradient is the numpy loop's: the masks are its wheres, Reshape and ReduceSum its block sum. */
  lemma GradCEval(f: Functions, env: Inputs, p: Shape, l: Layer, v: Mat, c: Mat, i: int, b: int)
    requires FeedsLayer(f, env, p, l, v) && FeedsScale(f, env, p, l, c) && BinsFit(f, p, l, c) && 0 <= i < p.n
    requires 0 <= b < p.blocks
    ensures Eval(f, env, GradCT(p), [i, b]) == GradC(f, p, l, v, c)(i, b)
  {
    hide BlockedT, BlockTerms, Eval, ClipSlopeT, ClipSlope, Product, ClipRatioT, BinsFit, FeedsLayer, FeedsScale;
    forall s | 0 <= s < p.size ensures Eval(f, env, BlockedT(p), [i, b] + [s]) == BlockTerms(f, p, l, v, c, i, b)(s) {
      BlockTermEval(f, env, p, l, v, c, i, b, s);
    }
    ReduceSumIs(f, env, BlockedT(p), p.size, [i, b], BlockTerms(f, p, l, v, c, i, b));
    ScaleBlocksEval(f, env, p, l, c, i, b);
    InputIs(f, env, ScaleBlocks, [i, b]);
    BinaryIs(f, env, Mul, ReduceSum(BlockedT(p), p.size), Input(ScaleBlocks), [i, b]);
    BinaryIs(f, env, Mul, MulT(ReduceSum(BlockedT(p), p.size), Input(ScaleBlocks)), ClipSlopeT(p), [i, b]);
  }
}
