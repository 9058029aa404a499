/** The builder that appends operator nodes one by one, and the two step graphs it emits. */
module StepBuilder {
  import opened Common
  import opened JacobiTheory
  import opened Sums
  import opened StepGraph

  datatype Op =
    | OpConst(value: real)
    | OpUnary(u: UnaryOp)
    | OpBinary(b: BinaryOp)
    | OpClip(lo: real, hi: real)
    | OpMatMul(inner: nat)
    | OpTranspose
    | OpGather(index: seq<nat>)
    | OpReshape(from: seq<nat>, to: seq<nat>)
    | OpReduceSum(extent: nat)

  /** A tensor by name: an input of the graph, or the output of an emitted node. */
  datatype Value = Given(name: InputName) | Made(node: nat)

  datatype GraphNode = GraphNode(op: Op, inputs: seq<Value>)

  function Arity(op: Op): nat {
    match op
    case OpConst(_) => 0
    case OpBinary(_) => 2
    case OpMatMul(_) => 2
    case _ => 1
  }

  /** Every node reads inputs of the graph or nodes before it. */
  ghost predicate WellOrdered(nodes: seq<GraphNode>) {
    forall i :: 0 <= i < |nodes| ==> Readable(nodes[i], i)
  }

  ghost predicate Readable(n: GraphNode, i: nat) {
    |n.inputs| == Arity(n.op) && forall k :: 0 <= k < |n.inputs| && n.inputs[k].Made? ==> n.inputs[k].node < i
  }

  /** What running the node list in order gives a value, element by element. */
  function Run(f: Functions, env: Inputs, nodes: seq<GraphNode>, v: Value, idx: Index): real
    requires WellOrdered(nodes) && (v.Made? ==> v.node < |nodes|)
    decreases if v.Made? then v.node + 1 else 0
  {
    match v
    case Given(name) => env(name, idx)
    case Made(i) =>
      assert Readable(nodes[i], i);
      var n := nodes[i];
      match n.op
      case OpConst(c) => c
      case OpUnary(u) => ApplyUnary(f, u, Run(f, env, nodes, n.inputs[0], idx))
      case OpBinary(b) => ApplyBinary(f, b, Run(f, env, nodes, n.inputs[0], idx), Run(f, env, nodes, n.inputs[1], idx))
      case OpClip(lo, hi) => Clamp(Run(f, env, nodes, n.inputs[0], idx), lo, hi)
      case OpMatMul(inner) =>
        if |idx| != 2 then 0.0
        else Sum(inner, l => Product(Run(f, env, nodes, n.inputs[0], [idx[0], l]),
                                     Run(f, env, nodes, n.inputs[1], [l, idx[1]])))
      case OpTranspose => if |idx| != 2 then 0.0 else Run(f, env, nodes, n.inputs[0], [idx[1], idx[0]])
      case OpGather(index) =>
        if |idx| != 2 || !(0 <= idx[1] < |index|) then 0.0 else Run(f, env, nodes, n.inputs[0], [idx[0], index[idx[1]]])
      case OpReshape(from, to) => Run(f, env, nodes, n.inputs[0], Unflatten(from, Flatten(to, idx)))
      case OpReduceSum(extent) => Sum(extent, s => Run(f, env, nodes, n.inputs[0], idx + [s]))
  }

  /** The term a node stands for, from those of its inputs. */
  function Build(op: Op, args: seq<Term>): Term
    requires |args| == Arity(op)
  {
    match op
    case OpConst(c) => Const(c)
    case OpUnary(u) => Unary(u, args[0])
    case OpBinary(b) => Binary(b, args[0], args[1])
    case OpClip(lo, hi) => Clip(args[0], lo, hi)
    case OpMatMul(inner) => MatMul(args[0], args[1], inner)
    case OpTranspose => Transpose(args[0])
    case OpGather(index) => Gather(args[0], index)
    case OpReshape(from, to) => Reshape(args[0], from, to)
    case OpReduceSum(extent) => ReduceSum(args[0], extent)
  }

  function TermOf(terms: seq<Term>, v: Value): Term
    requires v.Made? ==> v.node < |terms|
  {
    match v
    case Given(name) => Input(name)
    case Made(i) => terms[i]
  }

  predicate Known(terms: seq<Term>, v: Value) { v.Made? ==> v.node < |terms| }

  function ArgTerms(terms: seq<Term>, inputs: seq<Value>): seq<Term> {
    seq(|inputs|, k requires 0 <= k < |inputs| =>
      if Known(terms, inputs[k]) then TermOf(terms, inputs[k]) else Const(0.0))
  }

  ghost predicate Described(n: GraphNode, i: nat, terms: seq<Term>)
    requires i < |terms| && Readable(n, i)
  {
    terms[i] == Build(n.op, ArgTerms(terms, n.inputs))
  }

  /** Nodes in order, each with the term it stands for. */
  ghost predicate AllDescribed(nodes: seq<GraphNode>, terms: seq<Term>) {
    && |terms| == |nodes| && WellOrdered(nodes)
    && forall i :: 0 <= i < |nodes| ==> Readable(nodes[i], i) && Described(nodes[i], i, terms)
  }

  /** Running the node list and evaluating the term agree at an element of v. */
  ghost predicate Same(f: Functions, env: Inputs, nodes: seq<GraphNode>, terms: seq<Term>, v: Value, idx: Index)
    requires WellOrdered(nodes) && |terms| == |nodes| && (v.Made? ==> v.node < |nodes|)
  {
    Run(f, env, nodes, v, idx) == Eval(f, env, TermOf(terms, v), idx)
  }

  /** The node list means what it was built to mean: running it gives every term's value. */
  lemma {:induction false} RunIsEval(f: Functions, env: Inputs, nodes: seq<GraphNode>, terms: seq<Term>, v: Value,
                                     idx: Index)
    requires WellOrdered(nodes) && |terms| == |nodes| && (v.Made? ==> v.node < |nodes|)
    requires forall i :: 0 <= i < |nodes| ==> Readable(nodes[i], i) && Described(nodes[i], i, terms)
    ensures Run(f, env, nodes, v, idx) == Eval(f, env, TermOf(terms, v), idx)
    decreases if v.Made? then v.node + 1 else 0
  {
    if v.Made? {
      var i := v.node;
      assert Readable(nodes[i], i) && Described(nodes[i], i, terms);
      var n := nodes[i];
      match n.op
      case OpConst(_) =>
      case OpUnary(_) => RunIsEval(f, env, nodes, terms, n.inputs[0], idx);
      case OpBinary(_) =>
        RunIsEval(f, env, nodes, terms, n.inputs[0], idx);
        RunIsEval(f, env, nodes, terms, n.inputs[1], idx);
      case OpClip(_, _) => RunIsEval(f, env, nodes, terms, n.inputs[0], idx);
      case OpMatMul(inner) =>
        if |idx| == 2 {
          forall l: int
            ensures Same(f, env, nodes, terms, n.inputs[0], [idx[0], l])
            ensures Same(f, env, nodes, terms, n.inputs[1], [l, idx[1]])
          {
            RunIsEval(f, env, nodes, terms, n.inputs[0], [idx[0], l]);
            RunIsEval(f, env, nodes, terms, n.inputs[1], [l, idx[1]]);
          }
          SameMatMul(f, env, nodes, terms, i, inner, idx);
        }
      case OpTranspose =>
        if |idx| == 2 {
          RunIsEval(f, env, nodes, terms, n.inputs[0], [idx[1], idx[0]]);
        }
      case OpGather(index) =>
        if |idx| == 2 && 0 <= idx[1] < |index| {
          RunIsEval(f, env, nodes, terms, n.inputs[0], [idx[0], index[idx[1]]]);
        }
      case OpReshape(from, to) => RunIsEval(f, env, nodes, terms, n.inputs[0], Unflatten(from, Flatten(to, idx)));
      case OpReduceSum(extent) =>
        forall s: int ensures Same(f, env, nodes, terms, n.inputs[0], idx + [s]) {
          RunIsEval(f, env, nodes, terms, n.inputs[0], idx + [s]);
        }
        SameReduceSum(f, env, nodes, terms, i, extent, idx);
    }
  }

  lemma SameMatMul(f: Functions, env: Inputs, nodes: seq<GraphNode>, terms: seq<Term>, i: nat, inner: nat, idx: Index)
    requires WellOrdered(nodes) && |terms| == |nodes| && i < |nodes| && Readable(nodes[i], i)
    requires Described(nodes[i], i, terms)
    requires nodes[i].op == OpMatMul(inner) && |idx| == 2
    requires forall l: int ::
        && Same(f, env, nodes, terms, nodes[i].inputs[0], [idx[0], l])
        && Same(f, env, nodes, terms, nodes[i].inputs[1], [l, idx[1]])
    ensures Run(f, env, nodes, Made(i), idx) == Eval(f, env, terms[i], idx)
  {
    var a, b := nodes[i].inputs[0], nodes[i].inputs[1];
    var G: int -> real := l => Product(Eval(f, env, TermOf(terms, a), [idx[0], l]),
                                       Eval(f, env, TermOf(terms, b), [l, idx[1]]));
    var F: int -> real := l => Product(Run(f, env, nodes, a, [idx[0], l]), Run(f, env, nodes, b, [l, idx[1]]));
    SumCong(inner, F, G);
    hide Sum, Product;
    assert Run(f, env, nodes, Made(i), idx) == Sum(inner, F);
    assert Eval(f, env, MatMul(TermOf(terms, a), TermOf(terms, b), inner), idx) == Sum(inner, G);
  }

  lemma SameReduceSum(f: Functions, env: Inputs, nodes: seq<GraphNode>, terms: seq<Term>, i: nat, extent: nat,
                      idx: Index)
    requires WellOrdered(nodes) && |terms| == |nodes| && i < |nodes| && Readable(nodes[i], i)
    requires Described(nodes[i], i, terms)
    requires nodes[i].op == OpReduceSum(extent)
    requires forall s: int :: Same(f, env, nodes, terms, nodes[i].inputs[0], idx + [s])
    ensures Run(f, env, nodes, Made(i), idx) == Eval(f, env, terms[i], idx)
  {
    var a := nodes[i].inputs[0];
    var G: int -> real := s => Eval(f, env, TermOf(terms, a), idx + [s]);
    var F: int -> real := s => Run(f, env, nodes, a, idx + [s]);
    SumCong(extent, F, G);
    hide Sum;
    assert Run(f, env, nodes, Made(i), idx) == Sum(extent, F);
    assert Eval(f, env, ReduceSum(TermOf(terms, a), extent), idx) == Sum(extent, G);
  }

  // --- The builder ---------------------------------------------------------------------------------

  /** v stands for t. */
  predicate Means(terms: seq<Term>, v: Value, t: Term) { Known(terms, v) && TermOf(terms, v) == t }

  /** What stood for a term still does. */
  ghost predicate Keeps(before: seq<Term>, after: seq<Term>) {
    forall v, t :: Means(before, v, t) ==> Means(after, v, t)
  }

  lemma PrefixKeeps(before: seq<Term>, after: seq<Term>)
    requires before <= after
    ensures Keeps(before, after)
  {
  }

  lemma AnInput(terms: seq<Term>, name: InputName)
    ensures Means(terms, Given(name), Input(name))
  {
  }

  class GraphBuilder {
    var nodes: seq<GraphNode>
    ghost var terms: seq<Term>

    ghost predicate Valid()
      reads this
    {
      AllDescribed(nodes, terms)
    }

    constructor ()
      ensures Valid() && nodes == []
    {
      nodes, terms := [], [];
    }

    method Emit(op: Op, inputs: seq<Value>) returns (v: Value)
      requires Valid() && |inputs| == Arity(op) && forall k :: 0 <= k < |inputs| ==> Known(terms, inputs[k])
      modifies this
      ensures Valid() && v == Made(|old(nodes)|) && nodes == old(nodes) + [GraphNode(op, inputs)]
      ensures terms == old(terms) + [Build(op, ArgTerms(old(terms), inputs))]
    {
      v := Made(|nodes|);
      ghost var was := nodes;
      nodes := nodes + [GraphNode(op, inputs)];
      terms := terms + [Build(op, ArgTerms(terms, inputs))];
      forall i | 0 <= i < |nodes| ensures Readable(nodes[i], i) && Described(nodes[i], i, terms) {
        if i < |was| {
          assert Readable(was[i], i) && Described(was[i], i, old(terms));
          SameArgs(old(terms), terms, nodes[i].inputs);
        } else {
          SameArgs(old(terms), terms, inputs);
        }
      }
    }

    method Constant(c: real) returns (v: Value)
      requires Valid()
      modifies this
      ensures Valid() && Keeps(old(terms), terms) && Means(terms, v, Const(c))
    {
      v := Emit(OpConst(c), []);
      PrefixKeeps(old(terms), terms);
    }

    method One(u: UnaryOp, a: Value, ghost t: Term) returns (v: Value)
      requires Valid() && Means(terms, a, t)
      modifies this
      ensures Valid() && Keeps(old(terms), terms) && Means(terms, v, Unary(u, t))
    {
      v := Emit(OpUnary(u), [a]);
      PrefixKeeps(old(terms), terms);
    }

    method Two(b: BinaryOp, x: Value, y: Value, ghost s: Term, ghost t: Term) returns (v: Value)
      requires Valid() && Means(terms, x, s) && Means(terms, y, t)
      modifies this
      ensures Valid() && Keeps(old(terms), terms) && Means(terms, v, Binary(b, s, t))
    {
      v := Emit(OpBinary(b), [x, y]);
      PrefixKeeps(old(terms), terms);
    }

    method Clipped(a: Value, lo: real, hi: real, ghost t: Term) returns (v: Value)
      requires Valid() && Means(terms, a, t)
      modifies this
      ensures Valid() && Keeps(old(terms), terms) && Means(terms, v, Clip(t, lo, hi))
    {
      v := Emit(OpClip(lo, hi), [a]);
      PrefixKeeps(old(terms), terms);
    }

    method Multiplied(x: Value, y: Value, inner: nat, ghost s: Term, ghost t: Term) returns (v: Value)
      requires Valid() && Means(terms, x, s) && Means(terms, y, t)
      modifies this
      ensures Valid() && Keeps(old(terms), terms) && Means(terms, v, MatMul(s, t, inner))
    {
      v := Emit(OpMatMul(inner), [x, y]);
      PrefixKeeps(old(terms), terms);
    }

    method Turned(a: Value, ghost t: Term) returns (v: Value)
      requires Valid() && Means(terms, a, t)
      modifies this
      ensures Valid() && Keeps(old(terms), terms) && Means(terms, v, Transpose(t))
    {
      v := Emit(OpTranspose, [a]);
      PrefixKeeps(old(terms), terms);
    }

    /** The 0/1 mask a > bound, or a < bound, cast to float. */
    method Mask(op: BinaryOp, a: Value, bound: real, ghost t: Term) returns (v: Value)
      requires Valid() && Means(terms, a, t)
      modifies this
      ensures Valid() && Keeps(old(terms), terms) && Means(terms, v, Unary(ToFloat, Binary(op, t, Const(bound))))
    {
      var c := Constant(bound);
      v := Two(op, a, c, t, Const(bound));
      v := One(ToFloat, v, Binary(op, t, Const(bound)));
    }

    method Floor(a: Value, ghost t: Term) returns (v: Value)
      requires Valid() && Means(terms, a, t)
      modifies this
      ensures Valid() && Keeps(old(terms), terms) && Means(terms, v, FloorT(t))
    {
      var truncated := One(ToInt32, a, t);
      truncated := One(ToFloat, truncated, Unary(ToInt32, t));
      ghost var cut := Unary(ToFloat, Unary(ToInt32, t));
      var overshoot := Two(Greater, truncated, a, cut, t);
      overshoot := One(ToFloat, overshoot, Binary(Greater, cut, t));
      v := Two(Sub, truncated, overshoot, cut, Unary(ToFloat, Binary(Greater, cut, t)));
    }

    /** sigmoid(a) * (1 - sigmoid(a)) * span, given the sigmoid. */
    method Slope(s: Value, span: real, ghost t: Term) returns (v: Value)
      requires Valid() && Means(terms, s, SigmoidT(t))
      modifies this
      ensures Valid() && Keeps(old(terms), terms)
      ensures Means(terms, v, MulT(MulT(SigmoidT(t), SubT(Const(1.0), SigmoidT(t))), Const(span)))
    {
      var one := Constant(1.0);
      var rest := Two(Sub, one, s, Const(1.0), SigmoidT(t));
      var ds := Two(Mul, s, rest, SigmoidT(t), SubT(Const(1.0), SigmoidT(t)));
      var c := Constant(span);
      v := Two(Mul, ds, c, MulT(SigmoidT(t), SubT(Const(1.0), SigmoidT(t))), Const(span));
    }

    /** h(v) and its slope. */
    method Relaxation() returns (h: Value, slope: Value)
      requires Valid()
      modifies this
      ensures Valid() && Keeps(old(terms), terms) && Means(terms, h, HT()) && Means(terms, slope, SlopeHT())
    {
      var s := One(Sigmoid, Given(V), Input(V));
      var span := Constant(ZETA - GAMMA);
      var raw := Two(Mul, s, span, SigmoidT(Input(V)), Const(ZETA - GAMMA));
      var gamma := Constant(GAMMA);
      raw := Two(Add, raw, gamma, MulT(SigmoidT(Input(V)), Const(ZETA - GAMMA)), Const(GAMMA));
      h := Clipped(raw, 0.0, 1.0, RawHT());
      var above := Mask(Greater, raw, 0.0, RawHT());
      var below := Mask(Less, raw, 1.0, RawHT());
      var active := Two(Mul, above, below, GreaterMask(RawHT(), 0.0), LessMask(RawHT(), 1.0));
      var ds := Slope(s, ZETA - GAMMA, Input(V));
      slope := Two(Mul, active, ds, MulT(GreaterMask(RawHT(), 0.0), LessMask(RawHT(), 1.0)),
                   MulT(MulT(SigmoidT(Input(V)), SubT(Const(1.0), SigmoidT(Input(V)))), Const(ZETA - GAMMA)));
    }

    /** The soft weight: its code, the mask of the codes inside the range, and the weight itself. */
    method SoftWeight(p: Shape, bin: Value, scale: Value, h: Value, ghost binT: Term, ghost scaleT: Term)
      returns (code: Value, active: Value, hat: Value)
      requires Valid() && Means(terms, bin, binT) && Means(terms, scale, scaleT) && Means(terms, h, HT())
      modifies this
      ensures Valid() && Keeps(old(terms), terms)
      ensures Means(terms, code, CodeT(p, binT)) && Means(terms, active, ActiveT(p, binT))
      ensures Means(terms, hat, MulT(CodeT(p, binT), scaleT))
    {
      hide Means, HT, Valid;
      var raw := Two(Add, bin, h, binT, HT());
      code := Clipped(raw, p.nMin, p.nMax, RawT(binT));
      var above := Mask(Greater, raw, p.nMin, RawT(binT));
      var below := Mask(Less, raw, p.nMax, RawT(binT));
      active := Two(Mul, above, below, GreaterMask(RawT(binT), p.nMin), LessMask(RawT(binT), p.nMax));
      hat := Two(Mul, code, scale, CodeT(p, binT), scaleT);
    }

    /** The gradient of the loss in the weights. */
    method WeightGradient(p: Shape, hat: Value, ghost binT: Term, ghost scaleT: Term) returns (diff: Value, grad: Value)
      requires Valid() && Means(terms, hat, MulT(CodeT(p, binT), scaleT))
      modifies this
      ensures Valid() && Keeps(old(terms), terms)
      ensures Means(terms, diff, DiffT(p, binT, scaleT)) && Means(terms, grad, WeightGradT(p, binT, scaleT))
    {
      hide Means, CodeT, Valid, Quotient;
      ghost var hatT := MulT(CodeT(p, binT), scaleT);
      var turned := Turned(hat, hatT);
      AnInput(terms, X);
      var y := Multiplied(Given(X), turned, p.K(), Input(X), Transpose(hatT));
      AnInput(terms, YFloat);
      diff := Two(Sub, y, Given(YFloat), MatMul(Input(X), Transpose(hatT), p.K()), Input(YFloat));
      var share := Constant(Quotient(2.0, p.Outputs()));
      var dy := Two(Mul, diff, share, DiffT(p, binT, scaleT), Const(Quotient(2.0, p.Outputs())));
      var dyTurned := Turned(dy, OutputGradT(p, binT, scaleT));
      AnInput(terms, X);
      grad := Multiplied(dyTurned, Given(X), p.rows, Transpose(OutputGradT(p, binT, scaleT)), Input(X));
    }

    /** The derivative of the rounding regularizer in h. */
    method Regularization(h: Value) returns (dreg: Value)
      requires Valid() && Means(terms, h, HT())
      modifies this
      ensures Valid() && Keeps(old(terms), terms) && Means(terms, dreg, RegularizerT())
    {
      hide Means, HT, Valid;
      ghost var uT := SubT(MulT(Const(2.0), HT()), Const(1.0));
      var two := Constant(2.0);
      var one := Constant(1.0);
      var u := Two(Mul, two, h, Const(2.0), HT());
      u := Two(Sub, u, one, MulT(Const(2.0), HT()), Const(1.0));
      var absU := One(Abs, u, uT);
      AnInput(terms, Beta);
      var exponent := Two(Sub, Given(Beta), one, Input(Beta), Const(1.0));
      var powU := Two(Pow, absU, exponent, Unary(Abs, uT), SubT(Input(Beta), Const(1.0)));
      dreg := WeightedSign(u, powU, uT, Binary(Pow, Unary(Abs, uT), SubT(Input(Beta), Const(1.0))));
    }

    method WeightedSign(u: Value, powU: Value, ghost uT: Term, ghost powT: Term) returns (dreg: Value)
      requires Valid() && Means(terms, u, uT) && Means(terms, powU, powT)
      modifies this
      ensures Valid() && Keeps(old(terms), terms)
      ensures Means(terms, dreg, MulT(MulT(MulT(Const(-2.0), Input(RegScale)), Input(Beta)),
                                      MulT(Unary(Sign, uT), powT)))
    {
      hide Means, Valid;
      var c := Constant(-2.0);
      AnInput(terms, RegScale);
      c := Two(Mul, c, Given(RegScale), Const(-2.0), Input(RegScale));
      AnInput(terms, Beta);
      c := Two(Mul, c, Given(Beta), MulT(Const(-2.0), Input(RegScale)), Input(Beta));
      var sign := One(Sign, u, uT);
      var signed := Two(Mul, sign, powU, Unary(Sign, uT), powT);
      dreg := Two(Mul, c, signed, MulT(MulT(Const(-2.0), Input(RegScale)), Input(Beta)), MulT(Unary(Sign, uT), powT));
    }

    /** The rounding gradient, from its parts. */
    method RoundingGradient(p: Shape, weightGrad: Value, active: Value, scale: Value, h: Value, slope: Value,
                            ghost binT: Term, ghost scaleT: Term)
      returns (grad: Value)
      requires Valid() && Means(terms, weightGrad, WeightGradT(p, binT, scaleT))
      requires Means(terms, active, ActiveT(p, binT))
      requires Means(terms, scale, scaleT) && Means(terms, h, HT()) && Means(terms, slope, SlopeHT())
      modifies this
      ensures Valid() && Keeps(old(terms), terms) && Means(terms, grad, GradVT(p, binT, scaleT))
    {
      hide Means, HT, SlopeHT, WeightGradT, ActiveT, RegularizerT, Valid;
      var masked := Two(Mul, active, scale, ActiveT(p, binT), scaleT);
      var dh := Two(Mul, weightGrad, masked, WeightGradT(p, binT, scaleT), MulT(ActiveT(p, binT), scaleT));
      var main := Two(Mul, dh, slope, MulT(WeightGradT(p, binT, scaleT), MulT(ActiveT(p, binT), scaleT)), SlopeHT());
      var dreg := Regularization(h);
      var reg := Two(Mul, dreg, slope, RegularizerT(), SlopeHT());
      grad := Two(Add, main, reg, MulT(MulT(WeightGradT(p, binT, scaleT), MulT(ActiveT(p, binT), scaleT)), SlopeHT()),
                  MulT(RegularizerT(), SlopeHT()));
    }

    /** The step graph of the fixed-scale search: bin and scale are inputs. */
    method BuildRoundingStep(p: Shape) returns (gradV: Value)
      requires Valid()
      modifies this
      ensures Valid() && Means(terms, gradV, GradVT(p, Input(FloorBase), Input(Scale)))
    {
      hide Means, HT, SlopeHT, WeightGradT, ActiveT, CodeT, GradVT, Valid;
      var h, slope := Relaxation();
      AnInput(terms, FloorBase);
      AnInput(terms, Scale);
      var code, active, hat := SoftWeight(p, Given(FloorBase), Given(Scale), h, Input(FloorBase), Input(Scale));
      var diff, weightGrad := WeightGradient(p, hat, Input(FloorBase), Input(Scale));
      AnInput(terms, Scale);
      gradV := RoundingGradient(p, weightGrad, active, Given(Scale), h, slope, Input(FloorBase), Input(Scale));
    }

    /** The clip ratio's slope, the effective scale per element, the ratio and the bin. */
    method MovingScale(p: Shape) returns (clipSlope: Value, scale: Value, ratio: Value, bin: Value)
      requires Valid()
      modifies this
      ensures Valid() && Keeps(old(terms), terms) && Means(terms, clipSlope, ClipSlopeT(p))
      ensures Means(terms, scale, ScaleEffT(p)) && Means(terms, ratio, RatioT(p)) && Means(terms, bin, BinT(p))
    {
      hide Means, Valid, FloorT, BlockOfColumn;
      AnInput(terms, C);
      var s := One(Sigmoid, Given(C), Input(C));
      var span := Constant(p.cmax - p.cmin);
      var clip := Two(Mul, s, span, SigmoidT(Input(C)), Const(p.cmax - p.cmin));
      var low := Constant(p.cmin);
      clip := Two(Add, clip, low, MulT(SigmoidT(Input(C)), Const(p.cmax - p.cmin)), Const(p.cmin));
      clipSlope := Slope(s, p.cmax - p.cmin, Input(C));
      AnInput(terms, ScaleBlocks);
      var blocks := Two(Mul, Given(ScaleBlocks), clip, Input(ScaleBlocks), ClipRatioT(p));
      scale := Gathered(blocks, BlockOfColumn(p), MulT(Input(ScaleBlocks), ClipRatioT(p)));
      AnInput(terms, W);
      ratio := Two(Div, Given(W), scale, Input(W), ScaleEffT(p));
      bin := Floor(ratio, RatioT(p));
    }

    method Gathered(a: Value, index: seq<nat>, ghost t: Term) returns (v: Value)
      requires Valid() && Means(terms, a, t)
      modifies this
      ensures Valid() && Keeps(old(terms), terms) && Means(terms, v, Gather(t, index))
    {
      v := Emit(OpGather(index), [a]);
      PrefixKeeps(old(terms), terms);
    }

    method Reshaped(a: Value, from: seq<nat>, to: seq<nat>, ghost t: Term) returns (v: Value)
      requires Valid() && Means(terms, a, t)
      modifies this
      ensures Valid() && Keeps(old(terms), terms) && Means(terms, v, Reshape(t, from, to))
    {
      v := Emit(OpReshape(from, to), [a]);
      PrefixKeeps(old(terms), terms);
    }

    method Reduced(a: Value, extent: nat, ghost t: Term) returns (v: Value)
      requires Valid() && Means(terms, a, t)
      modifies this
      ensures Valid() && Keeps(old(terms), terms) && Means(terms, v, ReduceSum(t, extent))
    {
      v := Emit(OpReduceSum(extent), [a]);
      PrefixKeeps(old(terms), terms);
    }

    /** The clip gradient: per element, then summed over each block. */
    method ClipGradient(p: Shape, code: Value, active: Value, ratio: Value, weightGrad: Value, clipSlope: Value)
      returns (grad: Value)
      requires Valid() && Means(terms, code, CodeT(p, BinT(p))) && Means(terms, active, ActiveT(p, BinT(p)))
      requires Means(terms, ratio, RatioT(p))
      requires Means(terms, weightGrad, WeightGradT(p, BinT(p), ScaleEffT(p))) && Means(terms, clipSlope, ClipSlopeT(p))
      modifies this
      ensures Valid() && Means(terms, grad, GradCT(p)) && Keeps(old(terms), terms)
    {
      hide Means, CodeT, ActiveT, RatioT, BinT, ScaleEffT, WeightGradT, ClipSlopeT, Valid;
      ghost var slopeT := SubT(CodeT(p, BinT(p)), MulT(ActiveT(p, BinT(p)), RatioT(p)));
      var masked := Two(Mul, active, ratio, ActiveT(p, BinT(p)), RatioT(p));
      var slope := Two(Sub, code, masked, CodeT(p, BinT(p)), MulT(ActiveT(p, BinT(p)), RatioT(p)));
      var elements := Two(Mul, weightGrad, slope, WeightGradT(p, BinT(p), ScaleEffT(p)), slopeT);
      var blocked := Reshaped(elements, [p.n, p.K()], [p.n, p.blocks, p.size], ElementT(p));
      var sums := Reduced(blocked, p.size, BlockedT(p));
      AnInput(terms, ScaleBlocks);
      var scaled := Two(Mul, sums, Given(ScaleBlocks), ReduceSum(BlockedT(p), p.size), Input(ScaleBlocks));
      grad := Two(Mul, scaled, clipSlope, MulT(ReduceSum(BlockedT(p), p.size), Input(ScaleBlocks)), ClipSlopeT(p));
    }

    /** The step graph of the joint search. */
    method BuildAutoroundStep(p: Shape) returns (gradV: Value, gradC: Value)
      requires Valid()
      modifies this
      ensures Valid() && Means(terms, gradV, GradVT(p, BinT(p), ScaleEffT(p))) && Means(terms, gradC, GradCT(p))
    {
      hide Means, HT, SlopeHT, WeightGradT, ActiveT, CodeT, GradVT, GradCT, RatioT, BinT, ScaleEffT, ClipSlopeT, Valid;
      var clipSlope, scale, ratio, bin := MovingScale(p);
      var h, slope := Relaxation();
      var code, active, hat := SoftWeight(p, bin, scale, h, BinT(p), ScaleEffT(p));
      var diff, weightGrad := WeightGradient(p, hat, BinT(p), ScaleEffT(p));
      gradV := RoundingGradient(p, weightGrad, active, scale, h, slope, BinT(p), ScaleEffT(p));
      gradC := ClipGradient(p, code, active, ratio, weightGrad, clipSlope);
    }
  }

  lemma SameArgs(before: seq<Term>, after: seq<Term>, inputs: seq<Value>)
    requires before <= after && forall k :: 0 <= k < |inputs| ==> Known(before, inputs[k])
    ensures forall k :: 0 <= k < |inputs| ==> Known(after, inputs[k])
    ensures ArgTerms(before, inputs) == ArgTerms(after, inputs)
  {
  }

  // --- What the emitted graphs compute ------------------------------------------------------------

  /** Run in order on a layer and the current v and c, the emitted nodes give the joint loop's rounding gradient. */
  lemma EmittedGradV(f: Functions, env: Inputs, nodes: seq<GraphNode>, terms: seq<Term>, gradV: Value,
                     p: Shape, l: Layer, v: Mat, c: Mat, reg: Option<(real, real)>, i: int, j: int)
    requires AllDescribed(nodes, terms) && Means(terms, gradV, GradVT(p, BinT(p), ScaleEffT(p)))
    requires FeedsLayer(f, env, p, l, v) && FeedsScale(f, env, p, l, c) && FeedsRegularizer(env, reg)
    requires BinsFit(f, p, l, c)
    requires 0 <= i < p.n && 0 <= j < p.K()
    ensures Run(f, env, nodes, gradV, [i, j]) == GradV(f, p, l, Bin(f, p, l, c), ScaleEff(f, p, l, c), v, reg)(i, j)
  {
    RunIsEval(f, env, nodes, terms, gradV, [i, j]);
    BinEval(f, env, p, l, c);
    ScaleEffEval(f, env, p, l, c);
    hide *;
    MeansIs(terms, gradV, GradVT(p, BinT(p), ScaleEffT(p)));
    GradVEval(f, env, p, l, BinT(p), Bin(f, p, l, c), ScaleEffT(p), ScaleEff(f, p, l, c), v, reg, i, j);
  }

  /** And its clip gradient. */
  lemma EmittedGradC(f: Functions, env: Inputs, nodes: seq<GraphNode>, terms: seq<Term>, gradC: Value,
                     p: Shape, l: Layer, v: Mat, c: Mat, i: int, b: int)
    requires AllDescribed(nodes, terms) && Means(terms, gradC, GradCT(p))
    requires FeedsLayer(f, env, p, l, v) && FeedsScale(f, env, p, l, c) && BinsFit(f, p, l, c)
    requires 0 <= i < p.n && 0 <= b < p.blocks
    ensures Run(f, env, nodes, gradC, [i, b]) == GradC(f, p, l, v, c)(i, b)
  {
    RunIsEval(f, env, nodes, terms, gradC, [i, b]);
    hide *;
    MeansIs(terms, gradC, GradCT(p));
    GradCEval(f, env, p, l, v, c, i, b);
  }

  lemma MeansIs(terms: seq<Term>, v: Value, t: Term)
    requires Means(terms, v, t)
    ensures (v.Made? ==> v.node < |terms|) && TermOf(terms, v) == t
  {
  }

  /** Likewise the fixed-scale graph and its loop. */
  lemma EmittedRoundingGradient(f: Functions, env: Inputs, nodes: seq<GraphNode>, terms: seq<Term>, gradV: Value,
                                p: Shape, l: Layer, floorBase: Mat, scale: Mat, v: Mat, reg: Option<(real, real)>,
                                i: int, j: int)
    requires AllDescribed(nodes, terms) && Means(terms, gradV, GradVT(p, Input(FloorBase), Input(Scale)))
    requires FeedsLayer(f, env, p, l, v) && FeedsRegularizer(env, reg) && 0 <= i < p.n && 0 <= j < p.K()
    requires Holds(f, env, Input(FloorBase), floorBase, p.n, p.K()) && Holds(f, env, Input(Scale), scale, p.n, p.K())
    ensures Run(f, env, nodes, gradV, [i, j]) == GradV(f, p, l, floorBase, scale, v, reg)(i, j)
  {
    RunIsEval(f, env, nodes, terms, gradV, [i, j]);
    hide *;
    MeansIs(terms, gradV, GradVT(p, Input(FloorBase), Input(Scale)));
    GradVEval(f, env, p, l, Input(FloorBase), floorBase, Input(Scale), scale, v, reg, i, j);
  }
}
