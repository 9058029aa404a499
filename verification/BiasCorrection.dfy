/** Splicing corrections into a graph: each named output becomes its producer's value plus a constant. */
module BiasCorrection {
  import opened Common
  import opened Naming
  import opened OnnxGraph

  // --- One splice ---------------------------------------------------------------------------

  /** The corrected output, its producer's position and output index, and the three new names. */
  datatype Splice<V> = Splice(output: string, correction: V, at: nat, index: nat, pre: string, scale: string,
                              add: string)

  ghost predicate FirstProducer(nodes: seq<Node>, o: string, at: nat, index: nat) {
    && at < |nodes| && FirstAt(nodes[at].outputs, o, index)
    && forall i :: 0 <= i < at ==> o !in nodes[i].outputs
  }

  function Renamed(n: Node, index: nat, pre: string): Node
    requires index < |n.outputs|
  {
    n.(outputs := n.outputs[index := pre])
  }

  function AddNode<V>(s: Splice<V>): Node { Node("Add", s.add, [s.pre, s.scale], [s.output]) }

  function ApplySplice<V>(g: Graph<V>, s: Splice<V>): Graph<V>
    requires s.at < |g.nodes| && s.index < |g.nodes[s.at].outputs|
  {
    Graph(g.nodes[..s.at] + [Renamed(g.nodes[s.at], s.index, s.pre), AddNode(s)] + g.nodes[s.at + 1..],
          g.inits[s.scale := s.correction],
          g.names + {s.pre, s.scale, s.add})
  }

  /** s is the splice of correction c at output o: the first producer, and the first free names in turn. */
  ghost predicate IsSplice<V>(g: Graph<V>, o: string, c: V, prefix: string, s: Splice<V>) {
    && s.output == o && s.correction == c
    && FirstProducer(g.nodes, o, s.at, s.index)
    && IsFirstFree(o + "_" + prefix + "_pre", g.names, s.pre)
    && IsFirstFree(o + "_" + prefix, g.names + {s.pre}, s.scale)
    && IsFirstFree(o + "_" + prefix + "_add", g.names + {s.pre, s.scale}, s.add)
  }

  /** So every implementation of the splice gives the same graph. */
  lemma SpliceUnique<V>(g: Graph<V>, o: string, c: V, prefix: string, s: Splice<V>, t: Splice<V>)
    requires IsSplice(g, o, c, prefix, s) && IsSplice(g, o, c, prefix, t)
    ensures s == t
  {
    hide IsFirstFree;
    FirstFreeUnique(o + "_" + prefix + "_pre", g.names, s.pre, t.pre);
    FirstFreeUnique(o + "_" + prefix, g.names + {s.pre}, s.scale, t.scale);
    FirstFreeUnique(o + "_" + prefix + "_add", g.names + {s.pre, s.scale}, s.add, t.add);
    assert o in g.nodes[s.at].outputs && o in g.nodes[t.at].outputs;
    assert s.at == t.at;
    FirstAtUnique(g.nodes[s.at].outputs, o, s.index, t.index);
  }

  // --- What a splice means --------------------------------------------------------------------

  /** The Add of a constant correction. */
  function AddOf<V>(sem: Semantics<V>, c: V): V -> V { v => sem("Add", [Some(v), Some(c)], 0) }

  ghost predicate Applicable<V>(g: Graph<V>, s: Splice<V>) {
    && Closed(g) && s.at < |g.nodes| && s.index < |g.nodes[s.at].outputs| && g.nodes[s.at].outputs[s.index] == s.output
    && s.output != "" && s.pre != "" && s.scale != ""
    && s.pre !in g.names && s.scale !in g.names && s.pre != s.scale
    && (forall i, j :: 0 <= i < j < |g.nodes[s.at].outputs| && g.nodes[s.at].outputs[i] != "" ==>
          g.nodes[s.at].outputs[i] != g.nodes[s.at].outputs[j])
    && (forall i :: 0 <= i < |g.nodes| && i != s.at ==> s.output !in g.nodes[i].outputs)
  }

  lemma RenamedIndex<V>(g: Graph<V>, s: Splice<V>, x: string)
    requires Applicable(g, s)
    requires x in g.nodes[s.at].outputs && x != "" && x != s.output
    ensures var r := Renamed(g.nodes[s.at], s.index, s.pre);
            x in r.outputs && IndexOf(r.outputs, x) == IndexOf(g.nodes[s.at].outputs, x)
  {
    var outs := g.nodes[s.at].outputs;
    var r := Renamed(g.nodes[s.at], s.index, s.pre).outputs;
    var i := IndexOf(outs, x);
    assert r[i] == x && x in g.names;
    FirstAtUnique(r, x, i, IndexOf(r, x));
  }

  lemma ProducedIndex<V>(g: Graph<V>, s: Splice<V>)
    requires Applicable(g, s)
    ensures IndexOf(g.nodes[s.at].outputs, s.output) == s.index
    ensures var r := Renamed(g.nodes[s.at], s.index, s.pre);
            s.pre in r.outputs && IndexOf(r.outputs, s.pre) == s.index
  {
    var outs := g.nodes[s.at].outputs;
    var r := Renamed(g.nodes[s.at], s.index, s.pre).outputs;
    assert outs[s.index] in outs && r[s.index] == s.pre;
    forall j | 0 <= j < s.index ensures outs[j] != s.output && r[j] != s.pre {
      assert outs[j] in outs && g.nodes[s.at] in g.nodes;
    }
    FirstAtUnique(outs, s.output, s.index, IndexOf(outs, s.output));
    FirstAtUnique(r, s.pre, s.index, IndexOf(r, s.pre));
  }

  /** Edits of outputs only, of names the graph already has. */
  ghost predicate OutputEdits<V>(e: Edits<V>, names: set<string>) { e.inputs == map[] && e.outputs.Keys <= names }

  /** The renamed producer followed by the Add gives the corrected output, and the rest as before. */
  lemma SpliceImplements<V(!new)>(sem: Semantics<V>, g: Graph<V>, s: Splice<V>, d: Edits<V>)
    requires Applicable(g, s) && OutputEdits(d, g.names) && s.output !in d.outputs
    ensures Implements(sem, [Renamed(g.nodes[s.at], s.index, s.pre), AddNode(s)], g.nodes[s.at],
                       map[s.scale := s.correction],
                       d, Edits(map[], d.outputs[s.output := AddOf(sem, s.correction)]), {s.pre, s.scale})
  {
    var n := g.nodes[s.at];
    var segment := [Renamed(n, s.index, s.pre), AddNode(s)];
    var e := Edits(map[], d.outputs[s.output := AddOf(sem, s.correction)]);
    forall a: Env<V>, b: Env<V> | Agree(a, b, {s.pre, s.scale})
      && (forall x :: x in map[s.scale := s.correction] ==> Lookup(a, x) == Some(map[s.scale := s.correction][x]))
      ensures Agree(Eval(sem, a, segment, d), Step(sem, b, n, e), {s.pre, s.scale})
    {
      assert s.scale in map[s.scale := s.correction];
      SpliceStep(sem, g, s, d, a, b);
    }
  }

  lemma SpliceStep<V>(sem: Semantics<V>, g: Graph<V>, s: Splice<V>, d: Edits<V>, a: Env<V>, b: Env<V>)
    requires Applicable(g, s) && OutputEdits(d, g.names) && s.output !in d.outputs
    requires Agree(a, b, {s.pre, s.scale}) && Lookup(a, s.scale) == Some(s.correction)
    ensures var e := Edits(map[], d.outputs[s.output := AddOf(sem, s.correction)]);
            Agree(Eval(sem, a, [Renamed(g.nodes[s.at], s.index, s.pre), AddNode(s)], d),
                  Step(sem, b, g.nodes[s.at], e), {s.pre, s.scale})
  {
    var n, e := g.nodes[s.at], Edits(map[], d.outputs[s.output := AddOf(sem, s.correction)]);
    var r, add := Renamed(n, s.index, s.pre), AddNode(s);
    var mid := Step(sem, a, r, d);
    var end := Step(sem, mid, add, d);
    EvalTwo(sem, a, r, add, d);
    RenamedValues(sem, g, s, d, a, b);
    AddValues(sem, g, s, d, mid);
    hide OutputValue, Renamed, AddNode, AddOf, Applicable, OutputEdits, Eval, Step, Lookup, IndexOf;
    StepValues(sem, b, n, e);
  }

  lemma StepValues<V>(sem: Semantics<V>, b: Env<V>, n: Node, e: Edits<V>)
    ensures forall x :: x in n.outputs && x != "" ==>
              Lookup(Step(sem, b, n, e), x) == Some(OutputValue(sem, b, n, e, x))
    ensures forall x :: x !in n.outputs || x == "" ==> Lookup(Step(sem, b, n, e), x) == Lookup(b, x)
  {
    hide OutputValue;
    var want := Step(sem, b, n, e);
    assert forall x :: x in n.outputs && x != "" ==> want[x] == OutputValue(sem, b, n, e, x);
  }

  /** After the renamed producer: its output sits under the new name, the others as before. */
  lemma RenamedValues<V>(sem: Semantics<V>, g: Graph<V>, s: Splice<V>, d: Edits<V>, a: Env<V>, b: Env<V>)
    requires Applicable(g, s) && OutputEdits(d, g.names) && s.output !in d.outputs
    requires Agree(a, b, {s.pre, s.scale}) && Lookup(a, s.scale) == Some(s.correction)
    ensures var n, e := g.nodes[s.at], Edits(map[], d.outputs[s.output := AddOf(sem, s.correction)]);
            var mid := Step(sem, a, Renamed(n, s.index, s.pre), d);
            && s.output in n.outputs
            && s.pre in mid && OutputValue(sem, b, n, e, s.output) == AddOf(sem, s.correction)(mid[s.pre])
            && Lookup(mid, s.scale) == Some(s.correction)
            && (forall x :: x in n.outputs && x != "" && x != s.output ==>
                  Lookup(mid, x) == Some(OutputValue(sem, b, n, e, x)))
            && (forall x :: (x !in n.outputs || x == "") && x != s.pre && x != s.scale ==>
                  Lookup(mid, x) == Lookup(b, x))
  {
    var n, e := g.nodes[s.at], Edits(map[], d.outputs[s.output := AddOf(sem, s.correction)]);
    var r := Renamed(n, s.index, s.pre);
    var mid := Step(sem, a, r, d);
    RenamedPre(sem, g, s, d, a, b);
    RenamedOutputs(n, s.index, s.pre);
    assert n in g.nodes && n.outputs[s.index] == s.output;
    forall x | x in n.outputs && x != "" && x != s.output ensures Lookup(mid, x) == Some(OutputValue(sem, b, n, e, x)) {
      RenamedOther(sem, g, s, d, a, b, x);
    }
    StepValues(sem, a, r, d);
    NewNamesApart(g, s);
    hide OutputValue, Renamed, AddOf, Applicable, OutputEdits, Step;
  }

  lemma NewNamesApart<V>(g: Graph<V>, s: Splice<V>)
    requires Applicable(g, s)
    ensures var r := Renamed(g.nodes[s.at], s.index, s.pre);
            && s.scale !in r.outputs && s.pre in r.outputs && s.pre != ""
            && forall x :: x in r.outputs && x != s.pre && x != "" ==> x in g.nodes[s.at].outputs
  {
    RenamedOutputs(g.nodes[s.at], s.index, s.pre);
    var r := Renamed(g.nodes[s.at], s.index, s.pre);
    assert g.nodes[s.at] in g.nodes && r.outputs[s.index] == s.pre;
  }

  lemma RenamedArgs<V>(sem: Semantics<V>, g: Graph<V>, s: Splice<V>, d: Edits<V>, a: Env<V>, b: Env<V>)
    requires Applicable(g, s) && OutputEdits(d, g.names) && Agree(a, b, {s.pre, s.scale})
    ensures NodeArgs(a, Renamed(g.nodes[s.at], s.index, s.pre), d)
         == NodeArgs(b, g.nodes[s.at], Edits(map[], d.outputs[s.output := AddOf(sem, s.correction)]))
  {
    var n := g.nodes[s.at];
    assert n in g.nodes && forall x :: x in n.inputs ==> x in g.names;
    ArgsAgree(a, b, n.inputs, {s.pre, s.scale});
  }

  lemma RenamedPre<V>(sem: Semantics<V>, g: Graph<V>, s: Splice<V>, d: Edits<V>, a: Env<V>, b: Env<V>)
    requires Applicable(g, s) && OutputEdits(d, g.names) && Agree(a, b, {s.pre, s.scale})
    ensures var n, e := g.nodes[s.at], Edits(map[], d.outputs[s.output := AddOf(sem, s.correction)]);
            var r := Renamed(n, s.index, s.pre);
            && s.pre in r.outputs && s.output in n.outputs
            && OutputValue(sem, b, n, e, s.output) == AddOf(sem, s.correction)(OutputValue(sem, a, r, d, s.pre))
  {
    RenamedArgs(sem, g, s, d, a, b);
    ProducedIndex(g, s);
    hide Applicable, NodeArgs, AddOf;
  }

  lemma RenamedOther<V>(sem: Semantics<V>, g: Graph<V>, s: Splice<V>, d: Edits<V>, a: Env<V>, b: Env<V>, x: string)
    requires Applicable(g, s) && OutputEdits(d, g.names) && Agree(a, b, {s.pre, s.scale})
    requires x in g.nodes[s.at].outputs && x != "" && x != s.output
    ensures var n, e := g.nodes[s.at], Edits(map[], d.outputs[s.output := AddOf(sem, s.correction)]);
            Lookup(Step(sem, a, Renamed(n, s.index, s.pre), d), x) == Some(OutputValue(sem, b, n, e, x))
  {
    RenamedArgs(sem, g, s, d, a, b);
    RenamedIndex(g, s, x);
    hide Applicable, NodeArgs, AddOf, IndexOf, Renamed, Agree;
    var r := Renamed(g.nodes[s.at], s.index, s.pre);
    assert Step(sem, a, r, d)[x] == OutputValue(sem, a, r, d, x);
  }

  lemma RenamedOutputs(n: Node, index: nat, pre: string)
    requires index < |n.outputs|
    ensures forall x :: x in Renamed(n, index, pre).outputs ==> x == pre || x in n.outputs
  {
  }

  /** The Add puts the sum under the old name and changes nothing else. */
  lemma AddValues<V>(sem: Semantics<V>, g: Graph<V>, s: Splice<V>, d: Edits<V>, mid: Env<V>)
    requires Applicable(g, s) && OutputEdits(d, g.names) && s.output !in d.outputs
    requires s.pre in mid && Lookup(mid, s.scale) == Some(s.correction)
    ensures var end := Step(sem, mid, AddNode(s), d);
            && Lookup(end, s.output) == Some(AddOf(sem, s.correction)(mid[s.pre]))
            && forall x :: x != s.output ==> Lookup(end, x) == Lookup(mid, x)
  {
    var add := AddNode(s);
    assert Args(mid, add.inputs) == [Some(mid[s.pre]), Some(s.correction)];
    assert IndexOf(add.outputs, s.output) == 0;
    assert OutputValue(sem, mid, add, d, s.output) == AddOf(sem, s.correction)(mid[s.pre]);
  }

  // --- A list of splices -------------------------------------------------------------------------

  /** The graph after the splices, in order. */
  ghost function ApplyAll<V>(g: Graph<V>, ss: seq<Splice<V>>): Graph<V>
    requires AllApplicable(g, ss)
    decreases |ss|, 1
  {
    if ss == [] then g
    else
      var before := ApplyAll(g, ss[..|ss| - 1]);
      ApplySplice(before, ss[|ss| - 1])
  }

  /** Every splice is applicable to the graph the ones before it leave. */
  ghost predicate AllApplicable<V>(g: Graph<V>, ss: seq<Splice<V>>)
    decreases |ss|, 0
  {
    ss == [] || (AllApplicable(g, ss[..|ss| - 1]) && Applicable(ApplyAll(g, ss[..|ss| - 1]), ss[|ss| - 1]))
  }

  /** The corrections, as edits of the outputs they name. */
  ghost function Corrections<V>(sem: Semantics<V>, ss: seq<Splice<V>>): map<string, V -> V>
    decreases |ss|
  {
    if ss == [] then map[]
    else Corrections(sem, ss[..|ss| - 1])[ss[|ss| - 1].output := AddOf(sem, ss[|ss| - 1].correction)]
  }

  ghost predicate DistinctOutputs<V>(ss: seq<Splice<V>>) {
    forall i, j :: 0 <= i < j < |ss| ==> ss[i].output != ss[j].output
  }

  lemma {:induction false} CorrectionNames<V>(sem: Semantics<V>, ss: seq<Splice<V>>)
    ensures forall x :: x in Corrections(sem, ss) <==> exists i :: 0 <= i < |ss| && ss[i].output == x
    decreases |ss|
  {
    if ss != [] {
      var n := |ss| - 1;
      CorrectionNames(sem, ss[..n]);
      forall x | x in Corrections(sem, ss) ensures exists i :: 0 <= i < |ss| && ss[i].output == x {
        if x in Corrections(sem, ss[..n]) {
          var i :| 0 <= i < n && ss[..n][i].output == x;
          assert ss[i].output == x;
        } else {
          assert ss[n].output == x;
        }
      }
      forall i | 0 <= i < |ss| ensures ss[i].output in Corrections(sem, ss) {
        if i < n {
          assert ss[..n][i].output == ss[i].output;
        }
      }
    }
  }

  lemma {:induction false} NamesGrow<V>(g: Graph<V>, ss: seq<Splice<V>>)
    requires AllApplicable(g, ss)
    ensures g.names <= ApplyAll(g, ss).names
    decreases |ss|
  {
    if ss != [] {
      NamesGrow(g, ss[..|ss| - 1]);
    }
  }

  /** One splice, under any further edits of other outputs. */
  lemma SpliceIsEdit<V(!new)>(sem: Semantics<V>, env: Env<V>, g: Graph<V>, s: Splice<V>, d: map<string, V -> V>)
    requires Applicable(g, s) && d.Keys <= g.names && s.output !in d && env.Keys <= g.names
    ensures var g' := ApplySplice(g, s);
            Agree(Eval(sem, env + g'.inits, g'.nodes, Edits(map[], d)),
                  Eval(sem, env + g.inits, g.nodes, Edits(map[], d[s.output := AddOf(sem, s.correction)])),
                  {s.pre, s.scale})
  {
    var n, before, after := g.nodes[s.at], g.nodes[..s.at], g.nodes[s.at + 1..];
    var segment := [Renamed(n, s.index, s.pre), AddNode(s)];
    var e := Edits(map[], d[s.output := AddOf(sem, s.correction)]);
    SpliceImplements(sem, g, s, Edits(map[], d));
    assert g.nodes == before + [n] + after;
    assert env + g.inits + map[s.scale := s.correction] == env + ApplySplice(g, s).inits;
    forall m | m in before + after ensures Avoids(m, {s.pre, s.scale}) && SameEdits(m, Edits(map[], d), e) {
      OtherNodes(g, s, m);
    }
    hide Implements, Applicable, Renamed, AddNode, AddOf;
    ReplaceIsEdit(sem, env + g.inits, before, n, segment, after, map[s.scale := s.correction], Edits(map[], d), e,
                  {s.pre, s.scale});
  }

  lemma OtherNodes<V>(g: Graph<V>, s: Splice<V>, m: Node)
    requires Applicable(g, s) && m in g.nodes[..s.at] + g.nodes[s.at + 1..]
    ensures Avoids(m, {s.pre, s.scale}) && s.output !in m.outputs && m in g.nodes
  {
    if m in g.nodes[..s.at] {
      var i :| 0 <= i < s.at && g.nodes[i] == m;
    } else {
      var i :| 0 <= i < |g.nodes| - s.at - 1 && g.nodes[s.at + 1..][i] == m;
      assert g.nodes[s.at + 1 + i] == m;
    }
  }

  /** Splicing any list of corrections with distinct outputs: every original name evaluates as if each
      named output had been its producer's value plus the correction, wherever it is used. */
  lemma {:induction false} SplicesCorrect<V(!new)>(sem: Semantics<V>, env: Env<V>, g: Graph<V>, ss: seq<Splice<V>>,
                                                   d: map<string, V -> V>)
    requires Closed(g) && AllApplicable(g, ss) && DistinctOutputs(ss) && env.Keys <= g.names
    requires d.Keys <= g.names && forall i :: 0 <= i < |ss| ==> ss[i].output !in d
    requires forall i :: 0 <= i < |ss| ==> ss[i].output in g.names
    ensures var end := ApplyAll(g, ss);
            Agree(Eval(sem, env + end.inits, end.nodes, Edits(map[], d)),
                  Eval(sem, env + g.inits, g.nodes, Edits(map[], d + Corrections(sem, ss))),
                  end.names - g.names)
    decreases |ss|
  {
    hide Eval, Applicable, Closed, Corrections, ApplySplice, Agree;
    if ss == [] {
      NoCorrections(sem, d);
      AgreeSelf(Eval(sem, env + g.inits, g.nodes, Edits(map[], d)), g.names - g.names);
    } else {
      var n := |ss| - 1;
      var rest, s := ss[..n], ss[n];
      var mid := ApplyAll(g, rest);
      var d' := d[s.output := AddOf(sem, s.correction)];
      NamesGrow(g, rest);
      SpliceIsEdit(sem, env, mid, s, d);
      forall i | 0 <= i < |rest| ensures rest[i].output !in d' && rest[i].output in g.names {
        assert rest[i].output == ss[i].output != s.output;
      }
      LastCorrection(sem, ss, d);
      SplicesCorrect(sem, env, g, rest, d');
      SpliceNames(mid, s);
      AgreeChain(Eval(sem, env + ApplySplice(mid, s).inits, ApplySplice(mid, s).nodes, Edits(map[], d)),
                 Eval(sem, env + mid.inits, mid.nodes, Edits(map[], d')),
                 Eval(sem, env + g.inits, g.nodes, Edits(map[], d' + Corrections(sem, rest))),
                 {s.pre, s.scale}, mid.names - g.names, ApplyAll(g, ss).names - g.names);
    }
  }

  lemma NoCorrections<V>(sem: Semantics<V>, d: map<string, V -> V>)
    ensures d + Corrections(sem, []) == d
  {
  }

  lemma AgreeSelf<V>(a: Env<V>, x: set<string>)
    ensures Agree(a, a, x)
  {
  }

  lemma SpliceNames<V>(g: Graph<V>, s: Splice<V>)
    requires Applicable(g, s)
    ensures s.at < |g.nodes| && s.index < |g.nodes[s.at].outputs|
    ensures ApplySplice(g, s).names == g.names + {s.pre, s.scale, s.add} && s.pre !in g.names && s.scale !in g.names
  {
  }

  lemma LastCorrection<V>(sem: Semantics<V>, ss: seq<Splice<V>>, d: map<string, V -> V>)
    requires ss != [] && DistinctOutputs(ss)
    ensures var n := |ss| - 1;
            d[ss[n].output := AddOf(sem, ss[n].correction)] + Corrections(sem, ss[..n]) == d + Corrections(sem, ss)
    ensures DistinctOutputs(ss[..|ss| - 1])
  {
    var n := |ss| - 1;
    NotYetCorrected(sem, ss);
    hide AddOf;
    MapShift(d, Corrections(sem, ss[..n]), ss[n].output, AddOf(sem, ss[n].correction));
  }

  lemma NotYetCorrected<V>(sem: Semantics<V>, ss: seq<Splice<V>>)
    requires ss != [] && DistinctOutputs(ss)
    ensures ss[|ss| - 1].output !in Corrections(sem, ss[..|ss| - 1])
    ensures DistinctOutputs(ss[..|ss| - 1])
  {
    var n := |ss| - 1;
    CorrectionNames(sem, ss[..n]);
    hide Corrections;
    assert forall i :: 0 <= i < n ==> ss[..n][i] == ss[i];
  }

  lemma MapShift<T>(d: map<string, T>, c: map<string, T>, k: string, v: T)
    requires k !in c
    ensures d[k := v] + c == d + c[k := v]
  {
  }

  lemma AgreeChain<V>(a: Env<V>, b: Env<V>, c: Env<V>, x: set<string>, y: set<string>, z: set<string>)
    requires Agree(a, b, x) && Agree(b, c, y) && x <= z && y <= z
    ensures Agree(a, c, z)
  {
  }

  // --- What the corrections do not reach --------------------------------------------------------------

  /** The names computed from an edited output. */
  ghost function Downstream(nodes: seq<Node>, tainted: set<string>, edited: set<string>): set<string>
    decreases |nodes|
  {
    if nodes == [] then tainted
    else
      var n := nodes[0];
      var written := set x | x in n.outputs && ((exists y :: y in n.inputs && y in tainted) || x in edited);
      Downstream(nodes[1..], tainted + written, edited)
  }

  lemma {:induction false} DownstreamGrows(nodes: seq<Node>, tainted: set<string>, edited: set<string>)
    ensures tainted <= Downstream(nodes, tainted, edited)
    decreases |nodes|
  {
    if nodes != [] {
      var n := nodes[0];
      var written := set x | x in n.outputs && ((exists y :: y in n.inputs && y in tainted) || x in edited);
      DownstreamGrows(nodes[1..], tainted + written, edited);
    }
  }

  /** A tensor that does not depend on a corrected output keeps its value. */
  lemma {:induction false} IndependentUnchanged<V>(sem: Semantics<V>, a: Env<V>, b: Env<V>, nodes: seq<Node>,
                                                   d: map<string, V -> V>, tainted: set<string>)
    requires Agree(a, b, tainted)
    ensures Agree(Eval(sem, a, nodes, Edits(map[], d)), Eval(sem, b, nodes, Edits(map[], map[])),
                  Downstream(nodes, tainted, d.Keys))
    decreases |nodes|
  {
    if nodes != [] {
      var n := nodes[0];
      var written := set x | x in n.outputs && ((exists y :: y in n.inputs && y in tainted) || x in d.Keys);
      var a', b' := Step(sem, a, n, Edits(map[], d)), Step(sem, b, n, Edits(map[], map[]));
      forall x | x !in tainted + written ensures Lookup(a', x) == Lookup(b', x) {
        IndependentStep(sem, a, b, n, d, tainted, x);
      }
      IndependentUnchanged(sem, a', b', nodes[1..], d, tainted + written);
    }
  }

  lemma IndependentStep<V>(sem: Semantics<V>, a: Env<V>, b: Env<V>, n: Node, d: map<string, V -> V>,
                           tainted: set<string>, x: string)
    requires Agree(a, b, tainted) && x !in tainted
    requires x in n.outputs ==> x !in d && forall y :: y in n.inputs ==> y !in tainted
    ensures Lookup(Step(sem, a, n, Edits(map[], d)), x) == Lookup(Step(sem, b, n, Edits(map[], map[])), x)
  {
    StepValues(sem, a, n, Edits(map[], d));
    StepValues(sem, b, n, Edits(map[], map[]));
    if x in n.outputs && x != "" {
      ArgsAgree(a, b, n.inputs, tainted);
    }
  }

  // --- Order -----------------------------------------------------------------------------------------

  /** In an ordered graph every found splice is applicable. */
  lemma FoundIsApplicable<V>(g: Graph<V>, available: set<string>, o: string, c: V, prefix: string, s: Splice<V>)
    requires Closed(g) && Ordered(g.nodes, available) && o != "" && IsSplice(g, o, c, prefix, s)
    ensures Applicable(g, s)
  {
    var n, before, after := g.nodes[s.at], g.nodes[..s.at], g.nodes[s.at + 1..];
    FirstFreeIsNonempty(o + "_" + prefix + "_pre", g.names, s.pre);
    FirstFreeIsNonempty(o + "_" + prefix, g.names + {s.pre}, s.scale);
    hide IsFirstFree;
    assert g.nodes == before + [n] + after;
    OrderedConcat(before + [n], after, available);
    OrderedConcat(before, [n], available);
    assert NodeOrdered(n, available + AllWritten(before));
    assert o in n.outputs && n in before + [n];
    forall i | 0 <= i < |g.nodes| && i != s.at ensures o !in g.nodes[i].outputs {
      if i > s.at {
        WrittenOnce(g.nodes, available, s.at, i, o);
      }
    }
  }

  /** A splice keeps topological order, single assignment and the record of names. */
  lemma SpliceKeepsOrder<V>(g: Graph<V>, available: set<string>, s: Splice<V>)
    requires Applicable(g, s) && Ordered(g.nodes, available) && available <= g.names
    ensures Ordered(ApplySplice(g, s).nodes, available + {s.scale})
    ensures Closed(ApplySplice(g, s))
  {
    var n, before, after := g.nodes[s.at], g.nodes[..s.at], g.nodes[s.at + 1..];
    var r, add := Renamed(n, s.index, s.pre), AddNode(s);
    var added := {s.pre, s.scale};
    assert g.nodes == before + [n] + after;
    OrderedConcat(before + [n], after, available);
    OrderedConcat(before, [n], available);
    assert Ordered([n], available + AllWritten(before));
    forall m | m in before + after ensures Avoids(m, added) {
      OtherNodes(g, s, m);
    }
    AvoidsBefore(g, s);
    SegmentOrder(g, s, available + AllWritten(before));
    SegmentWrites(g, s);
    hide Ordered, AllWritten, Avoids, Written;
    ReplaceKeepsOrder(before, n, [r, add], after, available, {s.scale}, added);
    SpliceKeepsClosed(g, s);
  }

  lemma AvoidsBefore<V>(g: Graph<V>, s: Splice<V>)
    requires Applicable(g, s)
    ensures AllWritten(g.nodes[..s.at]) <= g.names
  {
    assert forall n :: n in g.nodes[..s.at] ==> n in g.nodes;
  }

  lemma SegmentWrites<V>(g: Graph<V>, s: Splice<V>)
    requires Applicable(g, s)
    ensures var n, w := g.nodes[s.at], AllWritten([Renamed(g.nodes[s.at], s.index, s.pre), AddNode(s)]);
            w <= Written(n) + {s.pre, s.scale} && Written(n) <= w
  {
    var n, r, add := g.nodes[s.at], Renamed(g.nodes[s.at], s.index, s.pre), AddNode(s);
    RenamedOutputs(n, s.index, s.pre);
    var segment := [r, add];
    assert n.outputs[s.index] == s.output && segment[0] == r && segment[1] == add;
    forall x | x in Written(n) ensures x in AllWritten(segment) {
      if x != s.output {
        RenamedIndex(g, s, x);
        assert r in segment && x in Written(r);
      } else {
        assert add in segment && x in Written(add);
      }
    }
  }

  lemma SegmentOrder<V>(g: Graph<V>, s: Splice<V>, available: set<string>)
    requires Applicable(g, s) && NodeOrdered(g.nodes[s.at], available) && available <= g.names
    ensures Ordered([Renamed(g.nodes[s.at], s.index, s.pre), AddNode(s)], available + {s.scale})
  {
    var n, r, add := g.nodes[s.at], Renamed(g.nodes[s.at], s.index, s.pre), AddNode(s);
    assert n in g.nodes && n.outputs[s.index] in n.outputs;
    RenamedOutputs(n, s.index, s.pre);
    forall x | x in Written(r) ensures x !in available + {s.scale} {
      assert x != s.pre ==> x in Written(n) && x in g.names;
    }
    assert forall i :: 0 <= i < |n.outputs| ==> n.outputs[i] in n.outputs;
    assert NodeOrdered(r, available + {s.scale});
    var next := available + {s.scale} + Written(r);
    assert r.outputs[s.index] == s.pre;
    assert s.output !in Written(r);
    assert s.output in Written(n);
    assert NodeOrdered(add, next);
    assert [r, add][1..] == [add] && [add][1..] == [];
    assert Ordered([add], next);
  }

  lemma SpliceKeepsClosed<V>(g: Graph<V>, s: Splice<V>)
    requires Applicable(g, s)
    ensures Closed(ApplySplice(g, s))
  {
    var g' := ApplySplice(g, s);
    var n := g.nodes[s.at];
    RenamedOutputs(n, s.index, s.pre);
    forall m, x | m in g'.nodes && (x in m.inputs || x in m.outputs) ensures x in g'.names {
      if m in g.nodes[..s.at] || m in g.nodes[s.at + 1..] {
        assert m in g.nodes;
      } else {
        assert n in g.nodes;
        assert m == Renamed(n, s.index, s.pre) || m == AddNode(s);
      }
    }
  }
}
