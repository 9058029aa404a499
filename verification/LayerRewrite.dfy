/** Rewriting matched layers: new nodes directly around each one, and nothing else moved. */
module LayerRewrite {
  import opened Common
  import opened Naming
  import opened OnnxGraph

  /** A matched layer, by its position and output in the original graph. Codes and scales live in initializers,
      so a layer whose search kept the plain form needs no nodes. */
  datatype Rewrite<V> =
    | CodesOnly(index: nat, output: string)
    | Scale(index: nat, output: string, activation: string, invScale: V)
    | Chain(index: nat, output: string, activation: string, shift: V, rotation: Option<V>, invScale: V, bias: V)

  ghost predicate Matches<V>(nodes: seq<Node>, r: Rewrite<V>) {
    && r.index < |nodes| && nodes[r.index].outputs == [r.output] && r.output != ""
    && (!r.CodesOnly? ==> nodes[r.index].inputs != [] && nodes[r.index].inputs[0] == r.activation)
  }

  /** Matched layers, in node order. */
  ghost predicate Matched<V>(nodes: seq<Node>, rs: seq<Rewrite<V>>) {
    && (forall k :: 0 <= k < |rs| ==> Matches(nodes, rs[k]))
    && (forall k, l :: 0 <= k < l < |rs| ==> rs[k].index < rs[l].index)
  }

  // --- New names ------------------------------------------------------------------------------

  /** How many names a rewrite needs. */
  function Count<V>(r: Rewrite<V>): nat {
    match r
    case CodesOnly(_, _) => 0
    case Scale(_, _, _, _) => 3
    case Chain(_, _, _, _, rotation, _, _) => if rotation.Some? then 12 else 9
  }

  /** What the new names are made from, in the order they are drawn. */
  function Bases<V>(r: Rewrite<V>): (s: seq<string>)
    ensures |s| == Count(r)
  {
    match r
    case CodesOnly(_, _) => []
    case Scale(_, _, a, _) => [a + "_awq_inv_scale", a + "_awq_scaled", a + "_awq_mul"]
    case Chain(_, o, a, _, rotation, _, _) =>
      [a + "_affinequant_shift", a + "_affinequant_centered", a + "_affinequant_sub"]
      + (if rotation.Some?
         then [a + "_affinequant_rotation", a + "_affinequant_rotated", a + "_affinequant_matmul"]
         else [])
      + [a + "_affinequant_inv_scale", a + "_affinequant_scaled", a + "_affinequant_mul"]
      + [o + "_affinequant_base", o + "_affinequant_bias", o + "_affinequant_bias_add"]
  }

  /** In a graph where none of its names is taken, a rewrite draws exactly these. */
  lemma UntakenNames<V>(taken: set<string>, r: Rewrite<V>, s: seq<string>)
    requires Drawn(taken, Bases(r), s)
    requires forall i :: 0 <= i < |s| ==> Bases(r)[i] !in taken + Names(s[..i])
    ensures s == Bases(r)
  {
    hide Bases;
    forall i | 0 <= i < |s| ensures s[i] == Bases(r)[i] {
      assert DrawnAt(taken, Bases(r), s, i);
      UntakenName(Bases(r)[i], taken + Names(s[..i]), s[i]);
    }
  }

  lemma ScaleBases<V>(r: Rewrite<V>)
    requires r.Scale?
    ensures var a := r.activation;
            Bases(r) == [a + "_awq_inv_scale", a + "_awq_scaled", a + "_awq_mul"]
  {
  }

  lemma ChainBases<V>(r: Rewrite<V>)
    requires r.Chain?
    ensures var a, o := r.activation, r.output;
            && Bases(r)[..3] == [a + "_affinequant_shift", a + "_affinequant_centered", a + "_affinequant_sub"]
            && (r.rotation.Some? ==>
                  Bases(r)[3..6]
                    == [a + "_affinequant_rotation", a + "_affinequant_rotated", a + "_affinequant_matmul"])
            && Bases(r)[|Bases(r)| - 6..|Bases(r)| - 3]
                 == [a + "_affinequant_inv_scale", a + "_affinequant_scaled", a + "_affinequant_mul"]
            && Bases(r)[|Bases(r)| - 3..]
                 == [o + "_affinequant_base", o + "_affinequant_bias", o + "_affinequant_bias_add"]
  {
  }

  lemma UntakenName(base: string, taken: set<string>, name: string)
    requires IsFirstFree(base, taken, name) && base !in taken
    ensures name == base
  {
    var i: nat :| name == Candidate(base, i) && forall j: nat :: j < i ==> Candidate(base, j) in taken;
    assert Candidate(base, 0) == base;
    assert i == 0;
  }

  function Names(s: seq<string>): set<string> { set x | x in s }

  /** Each name is the first one free once those before it are taken. */
  ghost predicate Drawn(taken: set<string>, bases: seq<string>, s: seq<string>) {
    |s| == |bases| && forall i :: 0 <= i < |s| ==> DrawnAt(taken, bases, s, i)
  }

  ghost predicate DrawnAt(taken: set<string>, bases: seq<string>, s: seq<string>, i: nat)
    requires i < |s| == |bases|
  {
    IsFirstFree(bases[i], taken + Names(s[..i]), s[i])
  }

  lemma DrawnUnique(taken: set<string>, bases: seq<string>, s: seq<string>, t: seq<string>)
    requires Drawn(taken, bases, s) && Drawn(taken, bases, t)
    ensures s == t
  {
    DrawnUniqueTo(taken, bases, s, t, |bases|);
    assert s[..|bases|] == s && t[..|bases|] == t;
  }

  lemma {:induction false} DrawnUniqueTo(taken: set<string>, bases: seq<string>, s: seq<string>, t: seq<string>, i: nat)
    requires Drawn(taken, bases, s) && Drawn(taken, bases, t) && i <= |bases|
    ensures s[..i] == t[..i]
  {
    hide IsFirstFree, Names;
    if i > 0 {
      DrawnUniqueTo(taken, bases, s, t, i - 1);
      assert DrawnAt(taken, bases, s, i - 1) && DrawnAt(taken, bases, t, i - 1);
      FirstFreeUnique(bases[i - 1], taken + Names(s[..i - 1]), s[i - 1], t[i - 1]);
      assert s[..i] == s[..i - 1] + [s[i - 1]] && t[..i] == t[..i - 1] + [t[i - 1]];
    }
  }

  /** New to the graph, and all different. */
  ghost predicate New(taken: set<string>, s: seq<string>) {
    && (forall i :: 0 <= i < |s| ==> s[i] !in taken && s[i] != "")
    && (forall i, j :: 0 <= i < j < |s| ==> s[i] != s[j])
  }

  lemma DrawnIsNew<V>(taken: set<string>, r: Rewrite<V>, s: seq<string>)
    requires Drawn(taken, Bases(r), s)
    ensures New(taken, s)
  {
    hide IsFirstFree;
    forall i | 0 <= i < |s| ensures s[i] !in taken && s[i] != "" {
      assert DrawnAt(taken, Bases(r), s, i);
      BasesNonempty(r, i);
      FirstFreeIsNonempty(Bases(r)[i], taken + Names(s[..i]), s[i]);
    }
    forall i, j | 0 <= i < j < |s| ensures s[i] != s[j] {
      BasesNonempty(r, j);
      assert s[..j][i] == s[i] && s[i] in Names(s[..j]);
      assert DrawnAt(taken, Bases(r), s, j);
      FirstFreeIsNonempty(Bases(r)[j], taken + Names(s[..j]), s[j]);
    }
  }

  lemma BasesNonempty<V>(r: Rewrite<V>, i: nat)
    requires i < Count(r)
    ensures Bases(r)[i] != ""
  {
  }

  // --- One layer ---------------------------------------------------------------------------------

  /** The last name before the ones that belong to the scale. */
  function ScaleAt<V>(r: Rewrite<V>): nat { if r.Chain? then (if r.rotation.Some? then 6 else 3) else 0 }

  /** The nodes on the activation, up to the scaled one. */
  function Front<V>(r: Rewrite<V>, s: seq<string>): seq<Node>
    requires |s| == Count(r)
  {
    match r
    case CodesOnly(_, _) => []
    case Scale(_, _, a, _) => [Node("Mul", s[2], [a, s[0]], [s[1]])]
    case Chain(_, _, a, _, None, _, _) =>
      [Node("Sub", s[2], [a, s[0]], [s[1]]), Node("Mul", s[5], [s[1], s[3]], [s[4]])]
    case Chain(_, _, a, _, Some(_), _, _) =>
      [Node("Sub", s[2], [a, s[0]], [s[1]]), Node("MatMul", s[5], [s[1], s[3]], [s[4]]),
       Node("Mul", s[8], [s[4], s[6]], [s[7]])]
  }

  /** The layer itself, reading the scaled activation. */
  function Rewired<V>(n: Node, r: Rewrite<V>, s: seq<string>): Node
    requires |s| == Count(r) && n.inputs != [] && n.outputs != []
  {
    match r
    case CodesOnly(_, _) => n
    case Scale(_, _, _, _) => n.(inputs := n.inputs[0 := s[1]])
    case Chain(_, _, _, _, _, _, _) =>
      n.(inputs := n.inputs[0 := s[ScaleAt(r) + 1]], outputs := n.outputs[0 := s[ScaleAt(r) + 3]])
  }

  /** The bias, under the layer's old output name. */
  function Back<V>(n: Node, r: Rewrite<V>, s: seq<string>): seq<Node>
    requires |s| == Count(r) && n.outputs != []
  {
    if r.Chain?
    then [Node("Add", s[ScaleAt(r) + 5], [s[ScaleAt(r) + 3], s[ScaleAt(r) + 4]], [n.outputs[0]])]
    else []
  }

  function Segment<V>(n: Node, r: Rewrite<V>, s: seq<string>): seq<Node> {
    if r.CodesOnly? || |s| != Count(r) || n.inputs == [] || n.outputs == [] then [n]
    else Front(r, s) + [Rewired(n, r, s)] + Back(n, r, s)
  }

  function NewInits<V>(r: Rewrite<V>, s: seq<string>): Env<V>
    requires |s| == Count(r)
  {
    match r
    case CodesOnly(_, _) => map[]
    case Scale(_, _, _, inv) => map[s[0] := inv]
    case Chain(_, _, _, shift, None, inv, bias) => map[s[0] := shift, s[3] := inv, s[7] := bias]
    case Chain(_, _, _, shift, Some(rot), inv, bias) => map[s[0] := shift, s[3] := rot, s[6] := inv, s[10] := bias]
  }

  // --- All layers ----------------------------------------------------------------------------------

  /** The names drawn for the first k layers. */
  function NamesOf(ss: seq<seq<string>>, k: nat): set<string>
    requires k <= |ss|
  {
    if k == 0 then {} else NamesOf(ss, k - 1) + Names(ss[k - 1])
  }

  /** The names are drawn for every layer in turn. */
  ghost predicate AllDrawn<V>(taken: set<string>, rs: seq<Rewrite<V>>, ss: seq<seq<string>>) {
    |ss| == |rs| && forall k :: 0 <= k < |rs| ==> DrawnFor(taken, rs, ss, k)
  }

  ghost predicate DrawnFor<V>(taken: set<string>, rs: seq<Rewrite<V>>, ss: seq<seq<string>>, k: nat)
    requires k < |rs| == |ss|
  {
    Drawn(taken + NamesOf(ss, k), Bases(rs[k]), ss[k])
  }

  /** As many names for each layer as it needs. */
  ghost predicate Sized<V>(rs: seq<Rewrite<V>>, ss: seq<seq<string>>) {
    |ss| == |rs| && forall k :: 0 <= k < |rs| ==> |ss[k]| == Count(rs[k])
  }

  ghost predicate Before<V>(nodes: seq<Node>, rs: seq<Rewrite<V>>, k: nat, i: nat) {
    k <= |rs| && i <= |nodes| && (k > 0 ==> rs[k - 1].index < i)
  }

  /** The first i nodes, the first k matched layers replaced by their segments. */
  ghost function Expand<V>(nodes: seq<Node>, rs: seq<Rewrite<V>>, ss: seq<seq<string>>, k: nat, i: nat): seq<Node>
    requires Matched(nodes, rs) && |ss| == |rs| && Before(nodes, rs, k, i)
  {
    if k == 0 then nodes[..i]
    else
      var at := rs[k - 1].index;
      PreviousBefore(nodes, rs, k);
      Expand(nodes, rs, ss, k - 1, at) + Segment(nodes[at], rs[k - 1], ss[k - 1]) + nodes[at + 1..i]
  }

  lemma PreviousBefore<V>(nodes: seq<Node>, rs: seq<Rewrite<V>>, k: nat)
    requires Matched(nodes, rs) && 0 < k <= |rs|
    ensures rs[k - 1].index < |nodes| && Before(nodes, rs, k - 1, rs[k - 1].index)
  {
    assert Matches(nodes, rs[k - 1]);
  }

  ghost function InitsOf<V>(rs: seq<Rewrite<V>>, ss: seq<seq<string>>, k: nat): Env<V>
    requires Sized(rs, ss) && k <= |rs|
  {
    if k == 0 then map[] else InitsOf(rs, ss, k - 1) + NewInits(rs[k - 1], ss[k - 1])
  }

  lemma AllBefore<V>(nodes: seq<Node>, rs: seq<Rewrite<V>>, k: nat)
    requires Matched(nodes, rs) && k <= |rs|
    ensures Before(nodes, rs, k, |nodes|)
  {
    if k > 0 {
      PreviousBefore(nodes, rs, k);
    }
  }

  /** The graph once the first k layers are rewritten. */
  ghost function Rewritten<V>(g: Graph<V>, rs: seq<Rewrite<V>>, ss: seq<seq<string>>, k: nat): Graph<V>
    requires Matched(g.nodes, rs) && Sized(rs, ss) && k <= |rs|
  {
    AllBefore(g.nodes, rs, k);
    Graph(Expand(g.nodes, rs, ss, k, |g.nodes|), g.inits + InitsOf(rs, ss, k), g.names + NamesOf(ss, k))
  }

  // --- Where everything ends up ------------------------------------------------------------------------

  function Growth<V>(r: Rewrite<V>): nat {
    match r
    case CodesOnly(_, _) => 0
    case Scale(_, _, _, _) => 1
    case Chain(_, _, _, _, rotation, _, _) => if rotation.Some? then 4 else 3
  }

  /** How far the first k rewrites push later nodes back. */
  function Offset<V>(rs: seq<Rewrite<V>>, k: nat): nat
    requires k <= |rs|
  {
    if k == 0 then 0 else Offset(rs, k - 1) + Growth(rs[k - 1])
  }

  lemma SegmentSize<V>(nodes: seq<Node>, r: Rewrite<V>, s: seq<string>)
    requires Matches(nodes, r) && |s| == Count(r)
    ensures |Segment(nodes[r.index], r, s)| == 1 + Growth(r)
  {
  }

  lemma {:induction false} ExpandSize<V>(nodes: seq<Node>, rs: seq<Rewrite<V>>, ss: seq<seq<string>>, k: nat, i: nat)
    requires Matched(nodes, rs) && Sized(rs, ss) && Before(nodes, rs, k, i)
    ensures |Expand(nodes, rs, ss, k, i)| == i + Offset(rs, k)
    ensures k > 0 ==> |Segment(nodes[rs[k - 1].index], rs[k - 1], ss[k - 1])| == 1 + Growth(rs[k - 1])
  {
    if k > 0 {
      PreviousBefore(nodes, rs, k);
      ExpandSize(nodes, rs, ss, k - 1, rs[k - 1].index);
      assert Matches(nodes, rs[k - 1]);
      SegmentSize(nodes, rs[k - 1], ss[k - 1]);
    }
  }

  lemma ExpandUnfold<V>(nodes: seq<Node>, rs: seq<Rewrite<V>>, ss: seq<seq<string>>, k: nat, i: nat)
    requires Matched(nodes, rs) && |ss| == |rs| && Before(nodes, rs, k, i)
    ensures k == 0 ==> Expand(nodes, rs, ss, k, i) == nodes[..i]
    ensures k > 0 ==> rs[k - 1].index < i <= |nodes| && Before(nodes, rs, k - 1, rs[k - 1].index)
    ensures k > 0 ==> (Expand(nodes, rs, ss, k, i) ==
              Expand(nodes, rs, ss, k - 1, rs[k - 1].index)
              + Segment(nodes[rs[k - 1].index], rs[k - 1], ss[k - 1]) + nodes[rs[k - 1].index + 1..i])
  {
    hide Segment;
  }

  lemma MoreSlices<T>(front: seq<T>, s: seq<T>, a: nat, i: nat, j: nat)
    requires a <= i <= j <= |s|
    ensures front + s[a..j] == front + s[a..i] + s[i..j]
    ensures s[..j] == s[..i] + s[i..j]
  {
  }

  /** Nodes after the last rewritten layer only move. */
  lemma ExpandMore<V>(nodes: seq<Node>, rs: seq<Rewrite<V>>, ss: seq<seq<string>>, k: nat, i: nat, j: nat)
    requires Matched(nodes, rs) && |ss| == |rs| && Before(nodes, rs, k, i) && i <= j <= |nodes|
    ensures Expand(nodes, rs, ss, k, j) == Expand(nodes, rs, ss, k, i) + nodes[i..j]
  {
    hide Segment, Matched, Expand;
    ExpandUnfold(nodes, rs, ss, k, i);
    ExpandUnfold(nodes, rs, ss, k, j);
    if k > 0 {
      var at := rs[k - 1].index;
      MoreSlices(Expand(nodes, rs, ss, k - 1, at) + Segment(nodes[at], rs[k - 1], ss[k - 1]), nodes, at + 1, i, j);
    } else {
      MoreSlices([], nodes, 0, i, j);
    }
  }

  lemma Slices<T>(a: seq<T>, b: seq<T>, c: seq<T>, lo: nat, hi: nat)
    ensures (a + b + c)[|a|..|a| + |b|] == b
    ensures lo <= hi <= |a| ==> (a + b + c)[lo..hi] == a[lo..hi]
    ensures lo < |a| ==> (a + b + c)[lo] == a[lo]
    ensures lo < |c| ==> (a + b + c)[|a| + |b| + lo] == c[lo]
  {
  }

  lemma ExpandLast<V>(nodes: seq<Node>, rs: seq<Rewrite<V>>, ss: seq<seq<string>>, k: nat, i: nat)
    returns (last: nat, front: seq<Node>, middle: seq<Node>, tail: seq<Node>)
    requires Matched(nodes, rs) && Sized(rs, ss) && Before(nodes, rs, k, i) && k > 0
    ensures |ss| == |rs| && last == rs[k - 1].index < i <= |nodes| && Before(nodes, rs, k - 1, last)
    ensures front == Expand(nodes, rs, ss, k - 1, last) && |front| == last + Offset(rs, k - 1)
    ensures middle == Segment(nodes[last], rs[k - 1], ss[k - 1]) && |middle| == 1 + Growth(rs[k - 1])
    ensures tail == nodes[last + 1..i] && Offset(rs, k) == Offset(rs, k - 1) + Growth(rs[k - 1])
    ensures Expand(nodes, rs, ss, k, i) == front + middle + tail
  {
    hide Segment, Growth;
    last := rs[k - 1].index;
    PreviousBefore(nodes, rs, k);
    ExpandSize(nodes, rs, ss, k, i);
    ExpandSize(nodes, rs, ss, k - 1, last);
    front, tail := Expand(nodes, rs, ss, k - 1, last), nodes[last + 1..i];
    middle := Segment(nodes[last], rs[k - 1], ss[k - 1]);
  }

  /** The l-th layer's segment stands where the layer was, pushed back by the rewrites before it. */
  lemma {:induction false} LayerPlaced<V>(nodes: seq<Node>, rs: seq<Rewrite<V>>, ss: seq<seq<string>>, k: nat, i: nat,
                                          l: nat)
    requires Matched(nodes, rs) && Sized(rs, ss) && Before(nodes, rs, k, i) && l < k
    ensures rs[l].index < |nodes|
    ensures var at, r := rs[l].index + Offset(rs, l), Expand(nodes, rs, ss, k, i);
            at + 1 + Growth(rs[l]) <= |r| && r[at..at + 1 + Growth(rs[l])] == Segment(nodes[rs[l].index], rs[l], ss[l])
  {
    hide Segment, Growth, Matched, Sized, Expand, Offset;
    var last, front, middle, tail := ExpandLast(nodes, rs, ss, k, i);
    var at := rs[l].index + Offset(rs, l);
    Slices(front, middle, tail, at, at + 1 + Growth(rs[l]));
    if l < k - 1 {
      LayerPlaced(nodes, rs, ss, k - 1, last, l);
    }
  }

  lemma AfterPlaced<V>(nodes: seq<Node>, rs: seq<Rewrite<V>>, ss: seq<seq<string>>, k: nat, i: nat, j: nat)
    requires Matched(nodes, rs) && Sized(rs, ss) && Before(nodes, rs, k, i) && j < i && (k > 0 ==> rs[k - 1].index < j)
    ensures j + Offset(rs, k) < |Expand(nodes, rs, ss, k, i)|
    ensures Expand(nodes, rs, ss, k, i)[j + Offset(rs, k)] == nodes[j]
  {
    hide Segment, Growth, Matches;
    if k == 0 {
      assert |ss| == |rs|;
      assert Expand(nodes, rs, ss, 0, i) == nodes[..i] && Offset(rs, 0) == 0;
    } else {
      hide Expand, Offset, Sized;
      var last, front, middle, tail := ExpandLast(nodes, rs, ss, k, i);
      Slices(front, middle, tail, j - last - 1, 0);
    }
  }

  /** Every other node keeps its place in the order: it moves back by the rewrites before it. */
  lemma {:induction false} OtherPlaced<V>(nodes: seq<Node>, rs: seq<Rewrite<V>>, ss: seq<seq<string>>, k: nat, i: nat,
                                          l: nat, j: nat)
    requires Matched(nodes, rs) && Sized(rs, ss) && Before(nodes, rs, k, i) && l <= k && j < i
    requires (l > 0 ==> rs[l - 1].index < j) && (l < k ==> j < rs[l].index)
    ensures j + Offset(rs, l) < |Expand(nodes, rs, ss, k, i)|
    ensures Expand(nodes, rs, ss, k, i)[j + Offset(rs, l)] == nodes[j]
  {
    hide Expand, Offset, Sized, Matched, Segment, Growth, Matches;
    if l == k {
      AfterPlaced(nodes, rs, ss, k, i, j);
    } else {
      var last, front, middle, tail := ExpandLast(nodes, rs, ss, k, i);
      LaterIndex(nodes, rs, l, k - 1);
      OtherPlaced(nodes, rs, ss, k - 1, last, l, j);
      Slices(front, middle, tail, j + Offset(rs, l), 0);
    }
  }

  lemma LaterIndex<V>(nodes: seq<Node>, rs: seq<Rewrite<V>>, l: nat, m: nat)
    requires Matched(nodes, rs) && l <= m < |rs|
    ensures rs[l].index <= rs[m].index < |nodes|
  {
    assert Matches(nodes, rs[m]);
  }

  // --- What a rewritten layer computes ------------------------------------------------------------------

  /** What the layer reads instead of its activation. */
  function InputEdit<V>(sem: Semantics<V>, r: Rewrite<V>): Option<V> -> V
    requires !r.CodesOnly?
  {
    match r
    case Scale(_, _, _, inv) => x => sem("Mul", [x, Some(inv)], 0)
    case Chain(_, _, _, shift, None, inv, _) => x => sem("Mul", [Some(sem("Sub", [x, Some(shift)], 0)), Some(inv)], 0)
    case Chain(_, _, _, shift, Some(rot), inv, _) =>
      x => sem("Mul", [Some(sem("MatMul", [Some(sem("Sub", [x, Some(shift)], 0)), Some(rot)], 0)), Some(inv)], 0)
  }

  /** What becomes of its output. */
  function OutputEdit<V>(sem: Semantics<V>, r: Rewrite<V>): V -> V
    requires r.Chain?
  {
    v => sem("Add", [Some(v), Some(r.bias)], 0)
  }

  function Edited<V>(sem: Semantics<V>, r: Rewrite<V>, d: Edits<V>): Edits<V> {
    match r
    case CodesOnly(_, _) => d
    case Scale(_, o, _, _) => d.(inputs := d.inputs[o := InputEdit(sem, r)])
    case Chain(_, o, _, _, _, _, _) => Edits(d.inputs[o := InputEdit(sem, r)], d.outputs[o := OutputEdit(sem, r)])
  }

  /** No edit is about these names. */
  ghost predicate Silent<V>(d: Edits<V>, names: set<string>) {
    d.inputs.Keys !! names && d.outputs.Keys !! names
  }

  ghost predicate HasInits<V>(a: Env<V>, inits: Env<V>) { forall x :: x in inits ==> Lookup(a, x) == Some(inits[x]) }

  lemma SingleStep<V>(sem: Semantics<V>, env: Env<V>, n: Node, o: string, d: Edits<V>)
    requires n.outputs == [o] && o != "" && Silent(d, {o})
    ensures Step(sem, env, n, d) == env[o := sem(n.op, Args(env, n.inputs), 0)]
  {
    assert o in n.outputs && IndexOf(n.outputs, o) == 0;
    var after := Step(sem, env, n, d);
    assert after[o] == OutputValue(sem, env, n, d, o);
    assert after.Keys == env.Keys + {o};
  }

  function ScaledName<V>(r: Rewrite<V>, s: seq<string>): string
    requires |s| == Count(r) && !r.CodesOnly?
  {
    s[ScaleAt(r) + 1]
  }

  lemma TwoArgs<V>(env: Env<V>, x: string, y: string)
    ensures Args(env, [x, y]) == [Lookup(env, x), Lookup(env, y)]
  {
  }

  /** A node with two inputs and one output. */
  lemma BinaryStep<V>(sem: Semantics<V>, env: Env<V>, op: string, name: string, x: string, y: string, o: string,
                      d: Edits<V>)
    requires o != "" && Silent(d, {o})
    ensures Step(sem, env, Node(op, name, [x, y], [o]), d) == env[o := sem(op, [Lookup(env, x), Lookup(env, y)], 0)]
  {
    SingleStep(sem, env, Node(op, name, [x, y], [o]), o, d);
    TwoArgs(env, x, y);
  }

  lemma EvalOne<V>(sem: Semantics<V>, env: Env<V>, n: Node, d: Edits<V>)
    ensures Eval(sem, env, [n], d) == Step(sem, env, n, d)
  {
    assert [n][1..] == [];
  }

  /** The front leaves the edited activation under the scaled name, and old names and the bias alone. */
  lemma FrontValue<V>(sem: Semantics<V>, a: Env<V>, taken: set<string>, r: Rewrite<V>, s: seq<string>, d: Edits<V>)
    requires |s| == Count(r) && New(taken, s) && !r.CodesOnly? && r.activation in taken
    requires HasInits(a, NewInits(r, s)) && Silent(d, Names(s))
    ensures var f := Eval(sem, a, Front(r, s), d);
            && Lookup(f, ScaledName(r, s)) == Some(InputEdit(sem, r)(Lookup(a, r.activation)))
            && (forall x :: x !in Names(s) ==> Lookup(f, x) == Lookup(a, x))
            && (r.Chain? ==> Lookup(f, s[ScaleAt(r) + 4]) == Some(r.bias))
  {
    match r
    case Scale(_, _, act, inv) =>
      EvalOne(sem, a, Front(r, s)[0], d);
      assert s[0] in NewInits(r, s);
      BinaryStep(sem, a, "Mul", s[2], act, s[0], s[1], d);
    case Chain(_, _, act, shift, None, inv, bias) =>
      PlainChainValue(sem, a, taken, r, s, d);
    case Chain(_, _, act, shift, Some(rot), inv, bias) =>
      RotatedChainValue(sem, a, taken, r, s, d);
  }

  lemma PlainChainValue<V>(sem: Semantics<V>, a: Env<V>, taken: set<string>, r: Rewrite<V>, s: seq<string>, d: Edits<V>)
    requires |s| == Count(r) && New(taken, s) && r.Chain? && r.rotation.None? && r.activation in taken
    requires HasInits(a, NewInits(r, s)) && Silent(d, Names(s))
    ensures var f := Eval(sem, a, Front(r, s), d);
            && Lookup(f, s[4]) == Some(InputEdit(sem, r)(Lookup(a, r.activation)))
            && (forall x :: x !in Names(s) ==> Lookup(f, x) == Lookup(a, x))
            && Lookup(f, s[7]) == Some(r.bias)
  {
    assert Silent(d, {s[1]}) && Silent(d, {s[4]});
    assert s[0] in NewInits(r, s) && s[3] in NewInits(r, s) && s[7] in NewInits(r, s);
    assert s[1] != s[3] && s[1] != s[7] && s[4] != s[7] && s[1] in Names(s) && s[4] in Names(s);
    assert Front(r, s) == [Node("Sub", s[2], [r.activation, s[0]], [s[1]]), Node("Mul", s[5], [s[1], s[3]], [s[4]])];
    hide Front, New, NewInits, Names, Eval, Step, Silent, HasInits;
    PipeTwo(sem, a, d, "Sub", s[2], r.activation, s[0], s[1], "Mul", s[5], s[3], s[4]);
  }

  /** Two nodes in a row, each with a constant. */
  lemma PipeTwo<V>(sem: Semantics<V>, a: Env<V>, d: Edits<V>, op1: string, n1: string, x: string, c1: string,
                   o1: string, op2: string, n2: string, c2: string, o2: string)
    requires o1 != "" && o2 != "" && Silent(d, {o1}) && Silent(d, {o2}) && c2 != o1
    ensures var v1 := sem(op1, [Lookup(a, x), Lookup(a, c1)], 0);
            Eval(sem, a, [Node(op1, n1, [x, c1], [o1]), Node(op2, n2, [o1, c2], [o2])], d)
              == a[o1 := v1][o2 := sem(op2, [Some(v1), Lookup(a, c2)], 0)]
  {
    hide Eval, Step, Silent;
    var first, second := Node(op1, n1, [x, c1], [o1]), Node(op2, n2, [o1, c2], [o2]);
    BinaryStep(sem, a, op1, n1, x, c1, o1, d);
    BinaryStep(sem, Step(sem, a, first, d), op2, n2, o1, c2, o2, d);
    EvalTwo(sem, a, first, second, d);
  }

  lemma RotatedFacts<V>(a: Env<V>, taken: set<string>, r: Rewrite<V>, s: seq<string>, d: Edits<V>)
    requires |s| == Count(r) && New(taken, s) && r.Chain? && r.rotation.Some?
    requires HasInits(a, NewInits(r, s)) && Silent(d, Names(s))
    ensures Silent(d, {s[1]}) && Silent(d, {s[4]}) && Silent(d, {s[7]})
    ensures s[1] != "" && s[4] != "" && s[7] != "" && s[1] in Names(s) && s[4] in Names(s) && s[7] in Names(s)
    ensures s[1] != s[3] && s[1] != s[6] && s[1] != s[10] && s[4] != s[6] && s[4] != s[10] && s[7] != s[10]
    ensures Lookup(a, s[0]) == Some(r.shift) && Lookup(a, s[3]) == Some(r.rotation.value)
    ensures Lookup(a, s[6]) == Some(r.invScale) && Lookup(a, s[10]) == Some(r.bias)
  {
    var inits := NewInits(r, s);
    assert s[0] in inits && s[3] in inits && s[6] in inits && s[10] in inits;
    assert s[0] != s[3] && s[0] != s[6] && s[0] != s[10] && s[3] != s[6] && s[3] != s[10] && s[6] != s[10];
    assert inits[s[0]] == r.shift && inits[s[3]] == r.rotation.value && inits[s[6]] == r.invScale
      && inits[s[10]] == r.bias;
  }

  lemma PipeThree<V>(sem: Semantics<V>, a: Env<V>, d: Edits<V>, op1: string, n1: string, x: string, c1: string,
                     o1: string, op2: string, n2: string, c2: string, o2: string, op3: string, n3: string, c3: string,
                     o3: string)
    requires o1 != "" && o2 != "" && o3 != "" && Silent(d, {o1}) && Silent(d, {o2}) && Silent(d, {o3})
    requires c2 != o1 && c3 != o1 && c3 != o2
    ensures var v1 := sem(op1, [Lookup(a, x), Lookup(a, c1)], 0);
            var v2 := sem(op2, [Some(v1), Lookup(a, c2)], 0);
            Eval(sem, a, [Node(op1, n1, [x, c1], [o1]), Node(op2, n2, [o1, c2], [o2]), Node(op3, n3, [o2, c3], [o3])],
                 d)
              == a[o1 := v1][o2 := v2][o3 := sem(op3, [Some(v2), Lookup(a, c3)], 0)]
  {
    hide Eval, Step, Silent;
    var two, third := [Node(op1, n1, [x, c1], [o1]), Node(op2, n2, [o1, c2], [o2])], Node(op3, n3, [o2, c3], [o3]);
    PipeTwo(sem, a, d, op1, n1, x, c1, o1, op2, n2, c2, o2);
    EvalConcat(sem, a, two, [third], d);
    EvalOne(sem, Eval(sem, a, two, d), third, d);
    BinaryStep(sem, Eval(sem, a, two, d), op3, n3, o2, c3, o3, d);
    assert two + [third] == [Node(op1, n1, [x, c1], [o1]), Node(op2, n2, [o1, c2], [o2]), third];
  }

  lemma RotatedFront<V>(r: Rewrite<V>, s: seq<string>)
    requires r.Chain? && r.rotation.Some? && |s| == Count(r)
    ensures Front(r, s) == [Node("Sub", s[2], [r.activation, s[0]], [s[1]]), Node("MatMul", s[5], [s[1], s[3]], [s[4]]),
                            Node("Mul", s[8], [s[4], s[6]], [s[7]])]
  {
  }

  lemma RotatedInput<V>(sem: Semantics<V>, r: Rewrite<V>, x: Option<V>)
    requires r.Chain? && r.rotation.Some?
    ensures var centered := sem("Sub", [x, Some(r.shift)], 0);
            var turned := sem("MatMul", [Some(centered), r.rotation], 0);
            InputEdit(sem, r)(x) == sem("Mul", [Some(turned), Some(r.invScale)], 0)
  {
  }

  lemma RotatedChainValue<V>(sem: Semantics<V>, a: Env<V>, taken: set<string>, r: Rewrite<V>, s: seq<string>,
                             d: Edits<V>)
    requires |s| == Count(r) && New(taken, s) && r.Chain? && r.rotation.Some? && r.activation in taken
    requires HasInits(a, NewInits(r, s)) && Silent(d, Names(s))
    ensures var f := Eval(sem, a, Front(r, s), d);
            && Lookup(f, s[7]) == Some(InputEdit(sem, r)(Lookup(a, r.activation)))
            && (forall x :: x !in Names(s) ==> Lookup(f, x) == Lookup(a, x))
            && Lookup(f, s[10]) == Some(r.bias)
  {
    hide Front, New, NewInits, Names, Eval, Step, Silent, HasInits, InputEdit;
    RotatedFacts(a, taken, r, s, d);
    RotatedFront(r, s);
    RotatedInput(sem, r, Lookup(a, r.activation));
    PipeThree(sem, a, d, "Sub", s[2], r.activation, s[0], s[1], "MatMul", s[5], s[3], s[4], "Mul", s[8], s[6], s[7]);
  }

  /** The layer's arguments with the first one edited. */
  function EditedArgs<V>(sem: Semantics<V>, b: Env<V>, n: Node, r: Rewrite<V>): seq<Option<V>>
    requires n.inputs != [] && !r.CodesOnly?
  {
    Args(b, n.inputs)[0 := Some(InputEdit(sem, r)(Lookup(b, n.inputs[0])))]
  }

  /** A layer fit for rewrite r, among the taken names. */
  ghost predicate Fits<V>(n: Node, r: Rewrite<V>, taken: set<string>) {
    && n.outputs == [r.output] && r.output != "" && r.output in taken
    && (!r.CodesOnly? ==> n.inputs != [] && n.inputs[0] == r.activation && forall x :: x in n.inputs ==> x in taken)
  }

  lemma RewiredArgs<V>(sem: Semantics<V>, f: Env<V>, b: Env<V>, taken: set<string>, n: Node, r: Rewrite<V>,
                       s: seq<string>)
    requires !r.CodesOnly? && Fits(n, r, taken) && |s| == Count(r) && New(taken, s)
    requires Lookup(f, ScaledName(r, s)) == Some(InputEdit(sem, r)(Lookup(b, r.activation))) && Agree(f, b, Names(s))
    ensures Args(f, Rewired(n, r, s).inputs) == EditedArgs(sem, b, n, r)
  {
    var got, want := Args(f, Rewired(n, r, s).inputs), EditedArgs(sem, b, n, r);
    forall i | 0 <= i < |n.inputs| ensures got[i] == want[i] {
      if i > 0 {
        assert n.inputs[i] in taken && n.inputs[i] !in Names(s);
      }
    }
  }

  /** The original layer under its edit. */
  lemma EditedStep<V>(sem: Semantics<V>, b: Env<V>, n: Node, r: Rewrite<V>, taken: set<string>, d: Edits<V>)
    requires !r.CodesOnly? && Fits(n, r, taken) && Silent(d, {r.output})
    ensures var v := sem(n.op, EditedArgs(sem, b, n, r), 0);
            Step(sem, b, n, Edited(sem, r, d)) == b[r.output := if r.Chain? then OutputEdit(sem, r)(v) else v]
  {
    hide InputEdit, OutputEdit, Args, Lookup;
    var o, e := r.output, Edited(sem, r, d);
    assert o in n.outputs && IndexOf(n.outputs, o) == 0;
    var after := Step(sem, b, n, e);
    assert o in e.inputs && e.inputs[o] == InputEdit(sem, r);
    assert Args(b, n.inputs)[0] == Lookup(b, n.inputs[0]) by { ArgAt(b, n.inputs, 0); }
    assert NodeArgs(b, n, e) == EditedArgs(sem, b, n, r);
    assert after[o] == OutputValue(sem, b, n, e, o);
    assert after.Keys == b.Keys + {o};
  }

  lemma ArgAt<V>(b: Env<V>, inputs: seq<string>, i: nat)
    requires i < |inputs|
    ensures |Args(b, inputs)| == |inputs| && Args(b, inputs)[i] == Lookup(b, inputs[i])
  {
  }

  lemma SegmentStep<V>(sem: Semantics<V>, a: Env<V>, b: Env<V>, taken: set<string>, n: Node, r: Rewrite<V>,
                       s: seq<string>, d: Edits<V>)
    requires !r.CodesOnly? && Fits(n, r, taken) && |s| == Count(r) && New(taken, s)
    requires Silent(d, Names(s)) && Silent(d, {r.output}) && HasInits(a, NewInits(r, s)) && Agree(a, b, Names(s))
    ensures Agree(Eval(sem, a, Segment(n, r, s), d), Step(sem, b, n, Edited(sem, r, d)), Names(s))
  {
    hide InputEdit, OutputEdit, Front, Edited, NewInits;
    var f, w := Eval(sem, a, Front(r, s), d), Rewired(n, r, s);
    assert n.inputs[0] in n.inputs;
    FrontValue(sem, a, taken, r, s, d);
    assert r.activation !in Names(s);
    RewiredArgs(sem, f, b, taken, n, r, s);
    EditedStep(sem, b, n, r, taken, d);
    EvalConcat(sem, a, Front(r, s) + [w], Back(n, r, s), d);
    EvalConcat(sem, a, Front(r, s), [w], d);
    EvalOne(sem, f, w, d);
    if r.Chain? {
      ChainBack(sem, f, b, taken, n, r, s, d);
    } else {
      SingleStep(sem, f, w, r.output, d);
    }
  }

  lemma ChainBack<V>(sem: Semantics<V>, f: Env<V>, b: Env<V>, taken: set<string>, n: Node, r: Rewrite<V>,
                     s: seq<string>, d: Edits<V>)
    requires r.Chain? && Fits(n, r, taken) && |s| == Count(r) && New(taken, s)
    requires Silent(d, Names(s)) && Silent(d, {r.output}) && Agree(f, b, Names(s))
    requires Lookup(f, s[ScaleAt(r) + 4]) == Some(r.bias)
    requires Args(f, Rewired(n, r, s).inputs) == EditedArgs(sem, b, n, r)
    ensures var v := sem(n.op, EditedArgs(sem, b, n, r), 0);
            Agree(Eval(sem, Step(sem, f, Rewired(n, r, s), d), Back(n, r, s), d),
                  b[r.output := OutputEdit(sem, r)(v)], Names(s))
  {
    var w, base, bias := Rewired(n, r, s), s[ScaleAt(r) + 3], s[ScaleAt(r) + 4];
    assert base in Names(s) && base != bias && base != "" && r.output !in Names(s);
    assert Silent(d, {base});
    SingleStep(sem, f, w, base, d);
    var f1 := Step(sem, f, w, d);
    BinaryStep(sem, f1, "Add", s[ScaleAt(r) + 5], base, bias, r.output, d);
    EvalOne(sem, f1, Back(n, r, s)[0], d);
  }

  /** The segment does what the layer does under its edit. */
  lemma SegmentImplements<V(!new)>(sem: Semantics<V>, taken: set<string>, n: Node, r: Rewrite<V>, s: seq<string>,
                                   d: Edits<V>)
    requires Fits(n, r, taken) && |s| == Count(r) && New(taken, s) && Silent(d, Names(s)) && Silent(d, {r.output})
    ensures Implements(sem, Segment(n, r, s), n, NewInits(r, s), d, Edited(sem, r, d), Names(s))
  {
    forall a: Env<V>, b: Env<V> | Agree(a, b, Names(s)) && HasInits(a, NewInits(r, s))
      ensures Agree(Eval(sem, a, Segment(n, r, s), d), Step(sem, b, n, Edited(sem, r, d)), Names(s))
    {
      if r.CodesOnly? {
        assert Names(s) == {} && a == b by { AgreeEverywhere(a, b); }
        EvalOne(sem, a, n, d);
      } else {
        SegmentStep(sem, a, b, taken, n, r, s, d);
      }
    }
  }

  lemma AgreeEverywhere<V>(a: Env<V>, b: Env<V>)
    requires Agree(a, b, {})
    ensures a == b
  {
    assert forall x :: Lookup(a, x) == Lookup(b, x);
    assert forall x :: x in a <==> Lookup(a, x).Some?;
    assert forall x :: x in b <==> Lookup(b, x).Some?;
  }

  // --- Order --------------------------------------------------------------------------------------------

  lemma OrderedCons(n: Node, o: string, rest: seq<Node>, available: set<string>)
    requires n.outputs == [o] && o != "" && o !in available && (forall x :: x in n.inputs ==> x == "" || x in available)
    requires Ordered(rest, available + {o})
    ensures Ordered([n] + rest, available)
    ensures AllWritten([n] + rest) == {o} + AllWritten(rest)
  {
    assert ([n] + rest)[1..] == rest;
    assert Written(n) == {o};
    WrittenConcat([n], rest);
    OneWritten(n);
  }

  lemma NothingWritten()
    ensures AllWritten([]) == {}
  {
  }

  /** The segment reads only what is there, writes the layer's output, and otherwise only new names. */
  lemma SegmentOrdered<V>(n: Node, r: Rewrite<V>, s: seq<string>, taken: set<string>, available: set<string>)
    requires Fits(n, r, taken) && |s| == Count(r) && New(taken, s) && NodeOrdered(n, available) && available <= taken
    ensures Ordered(Segment(n, r, s), available + NewInits(r, s).Keys)
    ensures AllWritten(Segment(n, r, s)) <= Written(n) + Names(s) && Written(n) <= AllWritten(Segment(n, r, s))
  {
    assert Written(n) == {r.output};
    match r
    case CodesOnly(_, _) =>
      assert available + NewInits(r, s).Keys == available;
      OneWritten(n);
    case Scale(_, _, _, _) =>
      assert n.inputs[0] in n.inputs;
      var av := available + {s[0]};
      OrderedCons(Rewired(n, r, s), r.output, [], av + {s[1]});
      OrderedCons(Front(r, s)[0], s[1], [Rewired(n, r, s)], av);
      NothingWritten();
      assert Rewired(n, r, s).inputs[0] == s[1];
      assert Segment(n, r, s) == [Front(r, s)[0]] + ([Rewired(n, r, s)] + []);
    case Chain(_, _, _, _, _, _, _) =>
      ChainOrdered(n, r, s, taken, available);
  }

  lemma BackOrdered<V>(n: Node, r: Rewrite<V>, s: seq<string>, taken: set<string>, av: set<string>)
    requires r.Chain? && Fits(n, r, taken) && |s| == Count(r) && New(taken, s) && NodeOrdered(n, av - Names(s))
    requires ScaledName(r, s) in av && s[ScaleAt(r) + 4] in av && s[ScaleAt(r) + 3] !in av
    ensures Ordered([Rewired(n, r, s)] + Back(n, r, s), av)
    ensures AllWritten([Rewired(n, r, s)] + Back(n, r, s)) == {s[ScaleAt(r) + 3], r.output}
  {
    var base := s[ScaleAt(r) + 3];
    assert Written(n) == {r.output} && r.output !in Names(s) && r.output !in av;
    forall x | x in Rewired(n, r, s).inputs ensures x == "" || x in av {
      var i :| 0 <= i < |n.inputs| && Rewired(n, r, s).inputs[i] == x;
      assert i > 0 ==> x == n.inputs[i] && x in n.inputs;
    }
    NothingWritten();
    OrderedCons(Back(n, r, s)[0], r.output, [], av + {base});
    OrderedCons(Rewired(n, r, s), base, Back(n, r, s), av);
    assert Back(n, r, s) == [Back(n, r, s)[0]] + [];
  }

  lemma PlainNames(taken: set<string>, available: set<string>, s: seq<string>)
    requires |s| == 9 && New(taken, s) && available <= taken
    ensures var av := available + {s[0], s[3], s[7]};
            && s[1] !in av && s[4] !in av + {s[1]} && s[6] !in av + {s[1]} + {s[4]}
            && s[1] != "" && s[4] != "" && s[6] != ""
            && av + {s[1]} + {s[4]} <= available + Names(s) && available !! Names(s)
  {
    assert s[0] != s[1] && s[0] != s[4] && s[0] != s[6] && s[1] != s[3] && s[1] != s[4] && s[1] != s[6] && s[1] != s[7];
    assert s[3] != s[4] && s[3] != s[6] && s[4] != s[6] && s[4] != s[7] && s[6] != s[7];
    assert forall i :: 0 <= i < 9 ==> s[i] !in available && s[i] in Names(s);
  }

  lemma RotatedNames(taken: set<string>, available: set<string>, s: seq<string>)
    requires |s| == 12 && New(taken, s) && available <= taken
    ensures var av := available + {s[0], s[3], s[6], s[10]};
            && s[1] !in av && s[4] !in av + {s[1]} && s[7] !in av + {s[1]} + {s[4]}
              && s[9] !in av + {s[1]} + {s[4]} + {s[7]}
            && s[1] != "" && s[4] != "" && s[7] != "" && s[9] != ""
            && av + {s[1]} + {s[4]} + {s[7]} <= available + Names(s) && available !! Names(s)
  {
    assert s[0] != s[1] && s[0] != s[4] && s[0] != s[7] && s[0] != s[9] && s[1] != s[3] && s[1] != s[4] && s[1] != s[6];
    assert s[1] != s[7] && s[1] != s[9] && s[1] != s[10] && s[3] != s[4] && s[3] != s[7] && s[3] != s[9]
      && s[4] != s[6];
    assert s[4] != s[7] && s[4] != s[9] && s[4] != s[10] && s[6] != s[7] && s[6] != s[9] && s[7] != s[9]
      && s[7] != s[10] && s[9] != s[10];
    assert forall i :: 0 <= i < 12 ==> s[i] !in available && s[i] in Names(s);
  }

  lemma PlainFrontOrdered<V>(r: Rewrite<V>, s: seq<string>, taken: set<string>, available: set<string>, tail: seq<Node>)
    requires r.Chain? && r.rotation.None? && |s| == Count(r) && New(taken, s)
    requires available <= taken && (r.activation == "" || r.activation in available)
    requires Ordered(tail, available + {s[0], s[3], s[7]} + {s[1]} + {s[4]})
    ensures Ordered(Front(r, s) + tail, available + {s[0], s[3], s[7]})
    ensures AllWritten(Front(r, s) + tail) == {s[1], s[4]} + AllWritten(tail)
  {
    hide New, Names, Ordered, AllWritten;
    var av, front := available + {s[0], s[3], s[7]}, Front(r, s);
    PlainNames(taken, available, s);
    OrderedCons(front[1], s[4], tail, av + {s[1]});
    OrderedCons(front[0], s[1], [front[1]] + tail, av);
    assert front + tail == [front[0]] + ([front[1]] + tail);
  }

  lemma RotatedFrontOrdered<V>(r: Rewrite<V>, s: seq<string>, taken: set<string>, available: set<string>,
                               tail: seq<Node>)
    requires r.Chain? && r.rotation.Some? && |s| == Count(r) && New(taken, s)
    requires available <= taken && (r.activation == "" || r.activation in available)
    requires Ordered(tail, available + {s[0], s[3], s[6], s[10]} + {s[1]} + {s[4]} + {s[7]})
    ensures Ordered(Front(r, s) + tail, available + {s[0], s[3], s[6], s[10]})
    ensures AllWritten(Front(r, s) + tail) == {s[1], s[4], s[7]} + AllWritten(tail)
  {
    hide New, Names, Ordered, AllWritten, Front;
    RotatedFront(r, s);
    var sub, matmul, mul := Front(r, s)[0], Front(r, s)[1], Front(r, s)[2];
    var av := available + {s[0], s[3], s[6], s[10]};
    RotatedNames(taken, available, s);
    OrderedCons(mul, s[7], tail, av + {s[1]} + {s[4]});
    OrderedCons(matmul, s[4], [mul] + tail, av + {s[1]});
    OrderedCons(sub, s[1], [matmul] + ([mul] + tail), av);
    assert Front(r, s) + tail == [sub] + ([matmul] + ([mul] + tail));
  }

  lemma PlainOrdered<V>(n: Node, r: Rewrite<V>, s: seq<string>, taken: set<string>, available: set<string>)
    requires r.Chain? && r.rotation.None? && Fits(n, r, taken) && |s| == Count(r) && New(taken, s)
    requires NodeOrdered(n, available) && available <= taken && (r.activation == "" || r.activation in available)
    ensures var all := Front(r, s) + ([Rewired(n, r, s)] + Back(n, r, s));
            && Ordered(all, available + {s[0], s[3], s[7]})
            && AllWritten(all) == {s[1], s[4]} + {s[6], r.output}
  {
    hide Ordered, AllWritten, New, Names, NodeOrdered, Rewired, Back, Front;
    var av := available + {s[0], s[3], s[7]};
    PlainNames(taken, available, s);
    OffNew(n, available, av + {s[1]} + {s[4]}, s);
    BackOrdered(n, r, s, taken, av + {s[1]} + {s[4]});
    PlainFrontOrdered(r, s, taken, available, [Rewired(n, r, s)] + Back(n, r, s));
  }

  lemma RotatedOrdered<V>(n: Node, r: Rewrite<V>, s: seq<string>, taken: set<string>, available: set<string>)
    requires r.Chain? && r.rotation.Some? && Fits(n, r, taken) && |s| == Count(r) && New(taken, s)
    requires NodeOrdered(n, available) && available <= taken && (r.activation == "" || r.activation in available)
    ensures var all := Front(r, s) + ([Rewired(n, r, s)] + Back(n, r, s));
            && Ordered(all, available + {s[0], s[3], s[6], s[10]})
            && AllWritten(all) == {s[1], s[4], s[7]} + {s[9], r.output}
  {
    hide Ordered, AllWritten, New, Names, NodeOrdered, Rewired, Back, Front;
    var av := available + {s[0], s[3], s[6], s[10]};
    RotatedNames(taken, available, s);
    OffNew(n, available, av + {s[1]} + {s[4]} + {s[7]}, s);
    BackOrdered(n, r, s, taken, av + {s[1]} + {s[4]} + {s[7]});
    RotatedFrontOrdered(r, s, taken, available, [Rewired(n, r, s)] + Back(n, r, s));
  }

  lemma ChainInits<V>(r: Rewrite<V>, s: seq<string>)
    requires r.Chain? && |s| == Count(r)
    ensures NewInits(r, s).Keys == if r.rotation.None? then {s[0], s[3], s[7]} else {s[0], s[3], s[6], s[10]}
  {
  }

  lemma AllNamed(s: seq<string>)
    ensures forall i :: 0 <= i < |s| ==> s[i] in Names(s)
  {
  }

  lemma ChainOrdered<V>(n: Node, r: Rewrite<V>, s: seq<string>, taken: set<string>, available: set<string>)
    requires r.Chain? && Fits(n, r, taken) && |s| == Count(r) && New(taken, s) && NodeOrdered(n, available)
    requires available <= taken
    ensures Ordered(Segment(n, r, s), available + NewInits(r, s).Keys)
    ensures AllWritten(Segment(n, r, s)) <= {r.output} + Names(s) && r.output in AllWritten(Segment(n, r, s))
  {
    hide New, Ordered, AllWritten, Front, Rewired, Back, NewInits, Names;
    assert n.inputs[0] in n.inputs;
    ChainInits(r, s);
    AllNamed(s);
    if r.rotation.None? {
      PlainOrdered(n, r, s, taken, available);
    } else {
      RotatedOrdered(n, r, s, taken, available);
    }
    assert Segment(n, r, s) == Front(r, s) + ([Rewired(n, r, s)] + Back(n, r, s));
  }

  lemma OffNew(n: Node, available: set<string>, end: set<string>, s: seq<string>)
    requires NodeOrdered(n, available) && available <= end && end <= available + Names(s) && available !! Names(s)
    ensures NodeOrdered(n, end - Names(s))
  {
    assert end - Names(s) == available;
  }
}
