/** A graph as a list of nodes: evaluation, order, and replacing one node by a segment around it. */
module OnnxGraph {
  import opened Common

  /** op names the operator with its attributes. */
  datatype Node = Node(op: string, name: string, inputs: seq<string>, outputs: seq<string>)

  type Env<V> = map<string, V>

  /** What every operator computes: the k-th output from the optional inputs. */
  type Semantics<!V> = (string, seq<Option<V>>, nat) -> V

  /** A change to a layer, named by an output: what happens to its first input, and to that output. */
  datatype Edits<!V> = Edits(inputs: map<string, Option<V> -> V>, outputs: map<string, V -> V>)

  /** The nodes, the initializers, and every name a fresh one has to avoid. */
  datatype Graph<V> = Graph(nodes: seq<Node>, inits: Env<V>, names: set<string>)

  /** Every name that occurs in the graph is recorded. */
  ghost predicate Closed<V>(g: Graph<V>) {
    && (forall n, x :: n in g.nodes && x in n.inputs ==> x in g.names)
    && (forall n, x :: n in g.nodes && x in n.outputs ==> x in g.names)
    && g.inits.Keys <= g.names
  }

  function Lookup<V>(env: Env<V>, x: string): Option<V> { if x in env then Some(env[x]) else None }

  function Args<V>(env: Env<V>, inputs: seq<string>): seq<Option<V>> {
    seq(|inputs|, i requires 0 <= i < |inputs| => Lookup(env, inputs[i]))
  }

  /** The arguments a node is applied to, its first one transformed if its first output is edited so. */
  function NodeArgs<V>(env: Env<V>, n: Node, e: Edits<V>): seq<Option<V>> {
    var args := Args(env, n.inputs);
    if n.outputs != [] && n.outputs[0] in e.inputs && args != []
    then args[0 := Some(e.inputs[n.outputs[0]](args[0]))]
    else args
  }

  ghost predicate FirstAt(xs: seq<string>, x: string, i: nat) {
    i < |xs| && xs[i] == x && forall j :: 0 <= j < i ==> xs[j] != x
  }

  lemma FirstAtUnique(xs: seq<string>, x: string, i: nat, j: nat)
    requires FirstAt(xs, x, i) && FirstAt(xs, x, j)
    ensures i == j
  {
  }

  function IndexOf(xs: seq<string>, x: string): (i: nat)
    requires x in xs
    ensures FirstAt(xs, x, i)
  {
    if xs[0] == x then 0 else 1 + IndexOf(xs[1..], x)
  }

  /** The value a node gives to output o. */
  function OutputValue<V>(sem: Semantics<V>, env: Env<V>, n: Node, e: Edits<V>, o: string): V
    requires o in n.outputs
  {
    var v := sem(n.op, NodeArgs(env, n, e), IndexOf(n.outputs, o));
    if o in e.outputs then e.outputs[o](v) else v
  }

  function Step<V>(sem: Semantics<V>, env: Env<V>, n: Node, e: Edits<V>): Env<V> {
    env + map o | o in n.outputs && o != "" :: OutputValue(sem, env, n, e, o)
  }

  function Eval<V>(sem: Semantics<V>, env: Env<V>, nodes: seq<Node>, e: Edits<V>): Env<V>
    decreases |nodes|
  {
    if nodes == [] then env else Eval(sem, Step(sem, env, nodes[0], e), nodes[1..], e)
  }

  lemma EvalTwo<V>(sem: Semantics<V>, a: Env<V>, m: Node, n: Node, d: Edits<V>)
    ensures Eval(sem, a, [m, n], d) == Step(sem, Step(sem, a, m, d), n, d)
  {
    assert [m, n][1..] == [n] && [n][1..] == [];
    assert Eval(sem, Step(sem, a, m, d), [n], d) == Step(sem, Step(sem, a, m, d), n, d);
  }

  lemma {:induction false} EvalConcat<V>(sem: Semantics<V>, env: Env<V>, a: seq<Node>, b: seq<Node>, e: Edits<V>)
    ensures Eval(sem, env, a + b, e) == Eval(sem, Eval(sem, env, a, e), b, e)
    decreases |a|
  {
    if a == [] {
      assert a + b == b;
    } else {
      assert (a + b)[1..] == a[1..] + b;
      EvalConcat(sem, Step(sem, env, a[0], e), a[1..], b, e);
    }
  }

  // --- Agreement off added names -----------------------------------------------------------

  /** The environments hold the same values under all names outside added. */
  ghost predicate Agree<V>(a: Env<V>, b: Env<V>, added: set<string>) {
    forall x :: x !in added ==> Lookup(a, x) == Lookup(b, x)
  }

  ghost predicate Avoids(n: Node, added: set<string>) {
    (forall x :: x in n.inputs ==> x !in added) && (forall x :: x in n.outputs ==> x !in added)
  }

  /** The two edits treat node n alike. */
  ghost predicate SameEdits<V>(n: Node, d: Edits<V>, e: Edits<V>) {
    && (forall o :: o in n.outputs ==>
          (o in d.outputs <==> o in e.outputs) && (o in d.outputs ==> d.outputs[o] == e.outputs[o]))
    && (forall o :: o in n.outputs ==>
          (o in d.inputs <==> o in e.inputs) && (o in d.inputs ==> d.inputs[o] == e.inputs[o]))
  }

  lemma StepAgrees<V>(sem: Semantics<V>, a: Env<V>, b: Env<V>, n: Node, d: Edits<V>, e: Edits<V>, added: set<string>)
    requires Agree(a, b, added) && Avoids(n, added) && SameEdits(n, d, e)
    ensures Agree(Step(sem, a, n, d), Step(sem, b, n, e), added)
    ensures forall x :: x in added ==> Lookup(Step(sem, a, n, d), x) == Lookup(a, x)
  {
    forall o | o in n.outputs && o != "" ensures OutputValue(sem, a, n, d, o) == OutputValue(sem, b, n, e, o) {
      OutputAgrees(sem, a, b, n, d, e, added, o);
    }
    hide SameEdits, OutputValue, IndexOf;
    var da, db := Step(sem, a, n, d), Step(sem, b, n, e);
    forall x | x !in added ensures Lookup(da, x) == Lookup(db, x) {
      if x in n.outputs && x != "" {
        assert da[x] == OutputValue(sem, a, n, d, x) && db[x] == OutputValue(sem, b, n, e, x);
      } else {
        assert Lookup(da, x) == Lookup(a, x) && Lookup(db, x) == Lookup(b, x);
      }
    }
  }

  lemma OutputAgrees<V>(sem: Semantics<V>, a: Env<V>, b: Env<V>, n: Node, d: Edits<V>, e: Edits<V>,
                        added: set<string>, o: string)
    requires Agree(a, b, added) && Avoids(n, added) && SameEdits(n, d, e) && o in n.outputs
    ensures OutputValue(sem, a, n, d, o) == OutputValue(sem, b, n, e, o)
  {
    ArgsAgree(a, b, n.inputs, added);
    hide Agree, Avoids, Args, IndexOf;
    assert n.outputs[0] in n.outputs;
    assert NodeArgs(a, n, d) == NodeArgs(b, n, e);
    hide NodeArgs;
  }

  lemma ArgsAgree<V>(a: Env<V>, b: Env<V>, inputs: seq<string>, added: set<string>)
    requires Agree(a, b, added) && forall x :: x in inputs ==> x !in added
    ensures Args(a, inputs) == Args(b, inputs)
  {
    assert forall i :: 0 <= i < |inputs| ==> inputs[i] in inputs;
  }

  lemma {:induction false} EvalAgrees<V>(sem: Semantics<V>, a: Env<V>, b: Env<V>, nodes: seq<Node>, d: Edits<V>,
                                         e: Edits<V>, added: set<string>)
    requires Agree(a, b, added)
    requires forall n :: n in nodes ==> Avoids(n, added) && SameEdits(n, d, e)
    ensures Agree(Eval(sem, a, nodes, d), Eval(sem, b, nodes, e), added)
    ensures forall x :: x in added ==> Lookup(Eval(sem, a, nodes, d), x) == Lookup(a, x)
    decreases |nodes|
  {
    if nodes != [] {
      StepAgrees(sem, a, b, nodes[0], d, e, added);
      EvalAgrees(sem, Step(sem, a, nodes[0], d), Step(sem, b, nodes[0], e), nodes[1..], d, e, added);
    }
  }

  /** A segment does what the node it replaces does, edited: from agreeing environments that hold the new
      initializers, it reaches agreeing environments. */
  ghost predicate Implements<V(!new)>(sem: Semantics<V>, segment: seq<Node>, n: Node, inits: Env<V>, d: Edits<V>,
                                      e: Edits<V>, added: set<string>) {
    forall a, b :: Agree(a, b, added) && (forall x :: x in inits ==> Lookup(a, x) == Some(inits[x])) ==>
      Agree(Eval(sem, a, segment, d), Step(sem, b, n, e), added)
  }

  /** Replacing a node by a segment that implements its edit is applying that edit. */
  lemma ReplaceIsEdit<V(!new)>(sem: Semantics<V>, env: Env<V>, before: seq<Node>, n: Node, segment: seq<Node>,
                               after: seq<Node>, inits: Env<V>, d: Edits<V>, e: Edits<V>, added: set<string>)
    requires forall m :: m in before + after ==> Avoids(m, added) && SameEdits(m, d, e)
    requires forall x :: x in env ==> x !in added
    requires forall x :: x in inits ==> x in added
    requires Implements(sem, segment, n, inits, d, e, added)
    ensures Agree(Eval(sem, env + inits, before + segment + after, d), Eval(sem, env, before + [n] + after, e), added)
  {
    EvalConcat(sem, env + inits, before + segment, after, d);
    EvalConcat(sem, env + inits, before, segment, d);
    EvalConcat(sem, env, before + [n], after, e);
    EvalConcat(sem, env, before, [n], e);
    var a, b := Eval(sem, env + inits, before, d), Eval(sem, env, before, e);
    EvalAgrees(sem, env + inits, env, before, d, e, added);
    assert Agree(Eval(sem, a, segment, d), Step(sem, b, n, e), added);
    assert Eval(sem, b, [n], e) == Step(sem, b, n, e);
    EvalAgrees(sem, Eval(sem, a, segment, d), Step(sem, b, n, e), after, d, e, added);
  }

  // --- Order ----------------------------------------------------------------------------------

  function Written(n: Node): set<string> { set x | x in n.outputs && x != "" }

  /** The outputs a node writes are new and distinct, and its inputs are there. */
  ghost predicate NodeOrdered(n: Node, available: set<string>) {
    && (forall x :: x in n.inputs && x != "" ==> x in available)
    && (forall x :: x in Written(n) ==> x !in available)
    && (forall i, j :: 0 <= i < j < |n.outputs| && n.outputs[i] != "" ==> n.outputs[i] != n.outputs[j])
  }

  /** Topological order and single assignment, given the names available at the start. */
  ghost predicate Ordered(nodes: seq<Node>, available: set<string>)
    decreases |nodes|
  {
    nodes == [] || (NodeOrdered(nodes[0], available) && Ordered(nodes[1..], available + Written(nodes[0])))
  }

  /** A well-formed graph: every name recorded, topological order and single assignment. */
  ghost predicate WellFormed<V>(g: Graph<V>, available: set<string>) {
    Closed(g) && available <= g.names && Ordered(g.nodes, available + g.inits.Keys)
  }

  ghost function AllWritten(nodes: seq<Node>): set<string> { set n, x | n in nodes && x in Written(n) :: x }

  lemma {:induction false} OrderedConcat(a: seq<Node>, b: seq<Node>, available: set<string>)
    ensures Ordered(a + b, available) <==> Ordered(a, available) && Ordered(b, available + AllWritten(a))
    decreases |a|
  {
    if a == [] {
      assert a + b == b;
      assert available + AllWritten(a) == available;
    } else {
      assert (a + b)[1..] == a[1..] + b;
      OrderedConcat(a[1..], b, available + Written(a[0]));
      assert a == [a[0]] + a[1..];
      assert available + Written(a[0]) + AllWritten(a[1..]) == available + AllWritten(a);
    }
  }

  lemma {:induction false} OrderedIsNew(nodes: seq<Node>, available: set<string>, n: Node)
    requires Ordered(nodes, available) && n in nodes
    ensures forall x :: x in n.outputs && x != "" ==> x !in available
    decreases |nodes|
  {
    if n == nodes[0] {
      assert forall x :: x in n.outputs && x != "" ==> x in Written(n);
    } else {
      OrderedIsNew(nodes[1..], available + Written(nodes[0]), n);
    }
  }

  /** No two nodes write the same name. */
  lemma WrittenOnce(nodes: seq<Node>, available: set<string>, i: nat, j: nat, x: string)
    requires Ordered(nodes, available) && i < j < |nodes| && x != "" && x in nodes[i].outputs
    ensures x !in nodes[j].outputs
  {
    var before, after := nodes[..j], nodes[j..];
    assert nodes == before + after;
    OrderedConcat(before, after, available);
    assert before[i] in before && x in Written(before[i]) && x in AllWritten(before);
    assert after[0] == nodes[j];
    OrderedIsNew(after, available + AllWritten(before), nodes[j]);
  }

  /** More available names do no harm as long as no node writes them. */
  lemma {:induction false} OrderedGrows(nodes: seq<Node>, available: set<string>, more: set<string>)
    requires Ordered(nodes, available) && AllWritten(nodes) !! more
    ensures Ordered(nodes, available + more)
    decreases |nodes|
  {
    if nodes != [] {
      assert nodes[0] in nodes;
      forall x | x in Written(nodes[0]) ensures x !in more {
        assert x in AllWritten(nodes);
      }
      assert forall n :: n in nodes[1..] ==> n in nodes;
      OrderedGrows(nodes[1..], available + Written(nodes[0]), more);
      assert available + Written(nodes[0]) + more == available + more + Written(nodes[0]);
    }
  }

  /** Replacing a node by an ordered segment that writes the same names and otherwise only added ones keeps
      the whole list ordered. */
  lemma ReplaceKeepsOrder(before: seq<Node>, n: Node, segment: seq<Node>, after: seq<Node>, available: set<string>,
                          inits: set<string>, added: set<string>)
    requires Ordered(before + [n] + after, available)
    requires forall m :: m in before + after ==> Avoids(m, added)
    requires inits <= added
    requires AllWritten(segment) <= Written(n) + added && Written(n) <= AllWritten(segment)
    requires Ordered(segment, available + AllWritten(before) + inits)
    ensures Ordered(before + segment + after, available + inits)
  {
    var pre, w := AllWritten(before), AllWritten(segment);
    OrderedConcat(before + [n], after, available);
    OrderedConcat(before, [n], available);
    OrderedConcat(before + segment, after, available + inits);
    OrderedConcat(before, segment, available + inits);
    WrittenConcat(before, [n]);
    WrittenConcat(before, segment);
    OneWritten(n);
    assert forall m :: m in before || m in after ==> m in before + after;
    AvoidsWritten(before, added);
    AvoidsWritten(after, added);
    hide *;
    var extra := inits + (w - Written(n));
    Regroup(available, pre, Written(n), w, inits, added);
    OrderedGrows(before, available, inits);
    OrderedGrows(after, available + (pre + Written(n)), extra);
  }

  lemma Regroup(available: set<string>, pre: set<string>, wn: set<string>, w: set<string>, inits: set<string>,
                added: set<string>)
    requires wn <= w <= wn + added && inits <= added
    ensures inits + (w - wn) <= added
    ensures available + (pre + wn) + (inits + (w - wn)) == available + inits + (pre + w)
    ensures available + pre + inits == available + inits + pre
  {
  }

  lemma OneWritten(n: Node)
    ensures AllWritten([n]) == Written(n)
  {
  }

  lemma AvoidsWritten(nodes: seq<Node>, added: set<string>)
    requires forall m :: m in nodes ==> Avoids(m, added)
    ensures AllWritten(nodes) !! added
  {
  }

  lemma WrittenConcat(a: seq<Node>, b: seq<Node>)
    ensures AllWritten(a + b) == AllWritten(a) + AllWritten(b)
  {
  }

  // --- In-place insertion ---------------------------------------------------------------------

  /** Append, then walk the new node down by adjacent swaps. */
  method InsertBySwaps(nodes: seq<Node>, index: nat, n: Node) returns (r: seq<Node>)
    requires index <= |nodes|
    ensures r == nodes[..index] + [n] + nodes[index..]
  {
    r := nodes + [n];
    var i := |nodes|;
    while i > index
      invariant index <= i <= |nodes|
      invariant r == nodes[..i] + [n] + nodes[i..]
    {
      r := r[i := r[i - 1]][i - 1 := r[i]];
      i := i - 1;
    }
  }
}
