/** Rewriting every matched layer in place, with a running offset; and what the rewritten graph computes. */
module LayerRewriter {
  import opened Common
  import opened Naming
  import opened OnnxGraph
  import opened LayerRewrite

  // --- One more layer ---------------------------------------------------------------------------

  /** Each rewrite replaces one original node where it now stands. */
  lemma NextRewrite<V>(g: Graph<V>, rs: seq<Rewrite<V>>, ss: seq<seq<string>>, k: nat)
    returns (before: seq<Node>, n: Node, after: seq<Node>)
    requires Matched(g.nodes, rs) && Sized(rs, ss) && k < |rs|
    ensures Matches(g.nodes, rs[k]) && n == g.nodes[rs[k].index] && |before| == rs[k].index + Offset(rs, k)
    ensures Rewritten(g, rs, ss, k).nodes == before + [n] + after
    ensures Rewritten(g, rs, ss, k + 1).nodes == before + Segment(n, rs[k], ss[k]) + after
    ensures Rewritten(g, rs, ss, k + 1).inits == Rewritten(g, rs, ss, k).inits + NewInits(rs[k], ss[k])
    ensures Rewritten(g, rs, ss, k + 1).names == Rewritten(g, rs, ss, k).names + Names(ss[k])
  {
    hide Segment, Names, NewInits, Expand, Offset, Matches;
    before, n, after := NextNodes(g.nodes, rs, ss, k);
    NextInits(g.inits, rs, ss, k);
  }

  lemma NextInits<V>(inits: Env<V>, rs: seq<Rewrite<V>>, ss: seq<seq<string>>, k: nat)
    requires Sized(rs, ss) && k < |rs|
    ensures inits + InitsOf(rs, ss, k + 1) == inits + InitsOf(rs, ss, k) + NewInits(rs[k], ss[k])
  {
    hide NewInits;
  }

  lemma NextNodes<V>(nodes: seq<Node>, rs: seq<Rewrite<V>>, ss: seq<seq<string>>, k: nat)
    returns (before: seq<Node>, n: Node, after: seq<Node>)
    requires Matched(nodes, rs) && Sized(rs, ss) && k < |rs|
    ensures Matches(nodes, rs[k]) && n == nodes[rs[k].index] && |before| == rs[k].index + Offset(rs, k)
    ensures Before(nodes, rs, k, |nodes|) && Before(nodes, rs, k + 1, |nodes|)
    ensures Expand(nodes, rs, ss, k, |nodes|) == before + [n] + after
    ensures Expand(nodes, rs, ss, k + 1, |nodes|) == before + Segment(n, rs[k], ss[k]) + after
  {
    assert Matches(nodes, rs[k]);
    hide Segment, Expand, Matches, Offset;
    var i := rs[k].index;
    AllBefore(nodes, rs, k);
    AllBefore(nodes, rs, k + 1);
    PreviousBefore(nodes, rs, k + 1);
    before, n, after := Expand(nodes, rs, ss, k, i), nodes[i], nodes[i + 1..];
    ExpandSize(nodes, rs, ss, k, i);
    ExpandMore(nodes, rs, ss, k, i, |nodes|);
    ExpandUnfold(nodes, rs, ss, k + 1, |nodes|);
    OneMore(before, nodes, i);
  }

  lemma OneMore<T>(before: seq<T>, s: seq<T>, i: nat)
    requires i < |s|
    ensures before + s[i..|s|] == before + [s[i]] + s[i + 1..] && s[i + 1..|s|] == s[i + 1..]
  {
  }

  lemma DrawnSized<V>(taken: set<string>, rs: seq<Rewrite<V>>, ss: seq<seq<string>>)
    requires AllDrawn(taken, rs, ss)
    ensures Sized(rs, ss)
  {
    forall k | 0 <= k < |rs| ensures |ss[k]| == Count(rs[k]) {
      assert DrawnFor(taken, rs, ss, k);
    }
  }

  lemma NextIsNew<V>(g: Graph<V>, rs: seq<Rewrite<V>>, ss: seq<seq<string>>, k: nat)
    requires Matched(g.nodes, rs) && AllDrawn(g.names, rs, ss) && k < |rs|
    ensures Sized(rs, ss) && New(Rewritten(g, rs, ss, k).names, ss[k])
  {
    DrawnSized(g.names, rs, ss);
    assert DrawnFor(g.names, rs, ss, k);
    DrawnIsNew(g.names + NamesOf(ss, k), rs[k], ss[k]);
  }

  /** In a graph that records its names, a matched layer fits its rewrite. */
  lemma LayerFits<V>(h: Graph<V>, nodes: seq<Node>, r: Rewrite<V>, before: seq<Node>, n: Node, after: seq<Node>)
    requires Closed(h) && h.nodes == before + [n] + after && Matches(nodes, r) && n == nodes[r.index]
    ensures Fits(n, r, h.names)
  {
    assert h.nodes[|before|] == n;
    assert r.output in n.outputs;
  }

  // --- Order ------------------------------------------------------------------------------------

  lemma SegmentClosed<V>(n: Node, r: Rewrite<V>, s: seq<string>, taken: set<string>, m: Node, x: string)
    requires Fits(n, r, taken) && |s| == Count(r) && m in Segment(n, r, s) && (x in m.inputs || x in m.outputs)
    requires (forall y :: y in n.inputs ==> y in taken) && (forall y :: y in n.outputs ==> y in taken)
    ensures x in taken + Names(s)
  {
    assert forall i :: 0 <= i < |s| ==> s[i] in Names(s);
    hide Names;
    if r.CodesOnly? {
      assert m == n;
    } else {
      assert n.inputs[0] in n.inputs;
      if m == Rewired(n, r, s) {
        RewiredNames(n, r, s, x);
      } else {
        hide Rewired;
        assert m in Front(r, s) || m in Back(n, r, s);
      }
    }
  }

  lemma RewiredNames<V>(n: Node, r: Rewrite<V>, s: seq<string>, x: string)
    requires !r.CodesOnly? && |s| == Count(r) && n.inputs != [] && n.outputs != []
    requires x in Rewired(n, r, s).inputs || x in Rewired(n, r, s).outputs
    ensures x in n.inputs || x in n.outputs || x in s
  {
    var w := Rewired(n, r, s);
    if x in w.inputs {
      var i :| 0 <= i < |w.inputs| && w.inputs[i] == x;
      assert i > 0 ==> x == n.inputs[i];
    } else {
      var i :| 0 <= i < |w.outputs| && w.outputs[i] == x;
      assert i > 0 ==> x == n.outputs[i];
    }
  }

  /** One rewrite keeps the names recorded, the topological order and single assignment. */
  lemma ReplaceKeepsWellFormed<V>(h: Graph<V>, available: set<string>, r: Rewrite<V>, s: seq<string>,
                                  before: seq<Node>, n: Node, after: seq<Node>)
    requires WellFormed(h, available) && h.nodes == before + [n] + after
    requires Fits(n, r, h.names) && |s| == Count(r) && New(h.names, s)
    ensures WellFormed(Graph(before + Segment(n, r, s) + after, h.inits + NewInits(r, s), h.names + Names(s)),
                       available)
  {
    hide Segment, Fits, New, Names, NewInits, Closed, Ordered, NodeOrdered, AllWritten, Avoids;
    var inits := available + h.inits.Keys;
    ReplaceKeepsClosed(h, r, s, before, n, after);
    MiddleOrdered(before, n, after, inits);
    InitsAreNamed(h);
    WrittenAreNamed(h, before, n, after);
    SegmentOrdered(n, r, s, h.names, inits + AllWritten(before));
    OthersAvoid(h, before, n, after, s);
    NewInitNames(r, s);
    ReplaceKeepsOrder(before, n, Segment(n, r, s), after, inits, NewInits(r, s).Keys, Names(s));
    assert inits + NewInits(r, s).Keys == available + (h.inits + NewInits(r, s)).Keys;
  }

  lemma MiddleOrdered(before: seq<Node>, n: Node, after: seq<Node>, available: set<string>)
    requires Ordered(before + [n] + after, available)
    ensures NodeOrdered(n, available + AllWritten(before))
  {
    OrderedConcat(before + [n], after, available);
    OrderedConcat(before, [n], available);
    hide AllWritten;
  }

  lemma InitsAreNamed<V>(h: Graph<V>)
    requires Closed(h)
    ensures h.inits.Keys <= h.names
  {
  }

  lemma NewInitNames<V>(r: Rewrite<V>, s: seq<string>)
    requires |s| == Count(r)
    ensures NewInits(r, s).Keys <= Names(s)
  {
    assert forall i :: 0 <= i < |s| ==> s[i] in Names(s);
  }

  lemma WrittenAreNamed<V>(h: Graph<V>, before: seq<Node>, n: Node, after: seq<Node>)
    requires Closed(h) && h.nodes == before + [n] + after
    ensures AllWritten(before) <= h.names
  {
    assert forall m :: m in before ==> m in h.nodes;
  }

  lemma OthersAvoid<V>(h: Graph<V>, before: seq<Node>, n: Node, after: seq<Node>, s: seq<string>)
    requires Closed(h) && h.nodes == before + [n] + after && New(h.names, s)
    ensures forall m :: m in before + after ==> Avoids(m, Names(s))
  {
    assert forall x :: x in Names(s) ==> x !in h.names;
    forall m | m in before + after ensures Avoids(m, Names(s)) {
      assert m in h.nodes;
    }
  }

  lemma ReplaceKeepsClosed<V>(h: Graph<V>, r: Rewrite<V>, s: seq<string>, before: seq<Node>, n: Node, after: seq<Node>)
    requires Closed(h) && h.nodes == before + [n] + after && Fits(n, r, h.names) && |s| == Count(r)
    ensures Closed(Graph(before + Segment(n, r, s) + after, h.inits + NewInits(r, s), h.names + Names(s)))
  {
    hide Fits, Segment, NewInits;
    NewInitNames(r, s);
    assert h.nodes[|before|] == n;
    var all := before + Segment(n, r, s) + after;
    forall m, x | m in all && (x in m.inputs || x in m.outputs) ensures x in h.names + Names(s) {
      if m in Segment(n, r, s) {
        SegmentClosed(n, r, s, h.names, m, x);
      } else {
        assert m in h.nodes;
      }
    }
  }

  lemma NextKeepsWellFormed<V>(g: Graph<V>, available: set<string>, rs: seq<Rewrite<V>>, ss: seq<seq<string>>, k: nat)
    requires Matched(g.nodes, rs) && AllDrawn(g.names, rs, ss) && Sized(rs, ss) && k < |rs|
    requires WellFormed(Rewritten(g, rs, ss, k), available)
    ensures WellFormed(Rewritten(g, rs, ss, k + 1), available)
    ensures Rewritten(g, rs, ss, k).names <= Rewritten(g, rs, ss, k + 1).names
  {
    hide WellFormed, Matched, AllDrawn, Sized, Matches, Fits, New, Segment, NewInits, Names, Rewritten, Closed,
         Offset, Ordered;
    var before, n, after := NextRewrite(g, rs, ss, k);
    var h := Rewritten(g, rs, ss, k);
    NextIsNew(g, rs, ss, k);
    FormedIsClosed(h, available);
    LayerFits(h, g.nodes, rs[k], before, n, after);
    SizedAt(rs, ss, k);
    ReplaceKeepsWellFormed(h, available, rs[k], ss[k], before, n, after);
  }

  /** Every rewritten layer keeps the graph well formed. */
  lemma {:induction false} RewrittenKeepsWellFormed<V>(g: Graph<V>, available: set<string>, rs: seq<Rewrite<V>>,
                                                       ss: seq<seq<string>>, k: nat)
    requires WellFormed(g, available) && Matched(g.nodes, rs) && AllDrawn(g.names, rs, ss) && k <= |rs|
    ensures Sized(rs, ss) && WellFormed(Rewritten(g, rs, ss, k), available)
    ensures g.names <= Rewritten(g, rs, ss, k).names
  {
    hide *;
    DrawnSized(g.names, rs, ss);
    if k == 0 {
      NothingRewritten(g, rs, ss);
    } else {
      RewrittenKeepsWellFormed(g, available, rs, ss, k - 1);
      NextKeepsWellFormed(g, available, rs, ss, k - 1);
    }
  }

  lemma NothingRewritten<V>(g: Graph<V>, rs: seq<Rewrite<V>>, ss: seq<seq<string>>)
    requires Matched(g.nodes, rs) && Sized(rs, ss)
    ensures Rewritten(g, rs, ss, 0) == g
  {
    assert g.nodes[..|g.nodes|] == g.nodes;
    assert g.inits + map[] == g.inits && g.names + {} == g.names;
  }

  lemma FormedIsClosed<V>(h: Graph<V>, available: set<string>)
    requires WellFormed(h, available)
    ensures Closed(h) && Ordered(h.nodes, available + h.inits.Keys)
  {
  }

  lemma SizedAt<V>(rs: seq<Rewrite<V>>, ss: seq<seq<string>>, k: nat)
    requires Sized(rs, ss) && k < |rs|
    ensures |ss[k]| == Count(rs[k])
  {
  }

  // --- Meaning ------------------------------------------------------------------------------------

  /** All the edits of the first k layers, on top of d. */
  ghost function AllEdits<V>(sem: Semantics<V>, rs: seq<Rewrite<V>>, k: nat, d: Edits<V>): Edits<V>
    requires k <= |rs|
  {
    if k == 0 then d else AllEdits(sem, rs, k - 1, Edited(sem, rs[k - 1], d))
  }

  /** d edits only named outputs, none of them that of one of the first k layers. */
  ghost predicate Later<V>(d: Edits<V>, names: set<string>, rs: seq<Rewrite<V>>, k: nat) {
    && k <= |rs| && d.inputs.Keys + d.outputs.Keys <= names
    && forall l :: 0 <= l < k ==> Silent(d, {rs[l].output})
  }

  lemma DistinctLayers<V>(g: Graph<V>, available: set<string>, rs: seq<Rewrite<V>>, k: nat, l: nat)
    requires WellFormed(g, available) && Matched(g.nodes, rs) && k < l < |rs|
    ensures rs[k].output != rs[l].output
  {
    assert Matches(g.nodes, rs[k]) && Matches(g.nodes, rs[l]);
    assert rs[k].output in g.nodes[rs[k].index].outputs && rs[l].output in g.nodes[rs[l].index].outputs;
    WrittenOnce(g.nodes, available + g.inits.Keys, rs[k].index, rs[l].index, rs[k].output);
  }

  lemma EditedIsEarlier<V>(sem: Semantics<V>, g: Graph<V>, available: set<string>, rs: seq<Rewrite<V>>, k: nat,
                           d: Edits<V>)
    requires WellFormed(g, available) && Matched(g.nodes, rs) && k < |rs| && Later(d, g.names, rs, k + 1)
    ensures Later(Edited(sem, rs[k], d), g.names, rs, k)
  {
    assert Matches(g.nodes, rs[k]);
    assert rs[k].output in g.nodes[rs[k].index].outputs && g.nodes[rs[k].index] in g.nodes;
    hide InputEdit, OutputEdit, Matched;
    forall l | 0 <= l < k ensures Silent(Edited(sem, rs[k], d), {rs[l].output}) {
      DistinctLayers(g, available, rs, l, k);
      assert Silent(d, {rs[l].output});
    }
  }

  /** One rewrite is one edit. */
  lemma ReplaceIsEdited<V(!new)>(sem: Semantics<V>, env: Env<V>, h: Graph<V>, available: set<string>, r: Rewrite<V>,
                                 s: seq<string>, before: seq<Node>, n: Node, after: seq<Node>, d: Edits<V>)
    requires WellFormed(h, available) && env.Keys <= h.names && h.nodes == before + [n] + after
    requires Fits(n, r, h.names) && |s| == Count(r) && New(h.names, s)
    requires d.inputs.Keys + d.outputs.Keys <= h.names && Silent(d, {r.output})
    ensures Agree(Eval(sem, env + h.inits + NewInits(r, s), before + Segment(n, r, s) + after, d),
                  Eval(sem, env + h.inits, h.nodes, Edited(sem, r, d)), Names(s))
  {
    assert forall x :: x in Names(s) ==> x !in h.names;
    SegmentImplements(sem, h.names, n, r, s, d);
    OthersAvoid(h, before, n, after, s);
    NewInitNames(r, s);
    forall m | m in before + after ensures SameEdits(m, d, Edited(sem, r, d)) {
      OtherOutputs(h, available, before, n, after, r, m);
      OtherEdits(sem, r, d, m);
    }
    hide Segment, Fits, New, Names, NewInits, WellFormed, Implements, Avoids, SameEdits, Edited, Agree, Eval;
    ReplaceIsEdit(sem, env + h.inits, before, n, Segment(n, r, s), after, NewInits(r, s), d, Edited(sem, r, d),
                  Names(s));
  }

  lemma OtherEdits<V>(sem: Semantics<V>, r: Rewrite<V>, d: Edits<V>, m: Node)
    requires r.output !in m.outputs
    ensures SameEdits(m, d, Edited(sem, r, d))
  {
    hide InputEdit, OutputEdit;
  }

  lemma OtherOutputs<V>(h: Graph<V>, available: set<string>, before: seq<Node>, n: Node, after: seq<Node>,
                        r: Rewrite<V>, m: Node)
    requires WellFormed(h, available) && h.nodes == before + [n] + after && n.outputs == [r.output] && r.output != ""
    requires m in before + after
    ensures r.output !in m.outputs
  {
    var at := |before|;
    assert h.nodes[at] == n && r.output in n.outputs;
    if m in before {
      var i :| 0 <= i < |before| && before[i] == m;
      assert h.nodes[i] == m;
      if r.output in m.outputs {
        WrittenOnce(h.nodes, available + h.inits.Keys, i, at, r.output);
      }
    } else {
      var i :| 0 <= i < |after| && after[i] == m;
      assert h.nodes[at + 1 + i] == m;
      WrittenOnce(h.nodes, available + h.inits.Keys, at, at + 1 + i, r.output);
    }
  }

  lemma LaterSilent<V>(d: Edits<V>, names: set<string>, rs: seq<Rewrite<V>>, k: nat)
    requires k < |rs| && Later(d, names, rs, k + 1)
    ensures d.inputs.Keys + d.outputs.Keys <= names && Silent(d, {rs[k].output})
  {
  }

  lemma NewApart(taken: set<string>, s: seq<string>)
    requires New(taken, s)
    ensures Names(s) !! taken
  {
  }

  lemma NextIsEdited<V(!new)>(sem: Semantics<V>, env: Env<V>, g: Graph<V>, available: set<string>,
                              rs: seq<Rewrite<V>>, ss: seq<seq<string>>, k: nat, d: Edits<V>)
    requires WellFormed(g, available) && Matched(g.nodes, rs) && AllDrawn(g.names, rs, ss) && Sized(rs, ss) && k < |rs|
    requires env.Keys <= g.names && Later(d, g.names, rs, k + 1)
    ensures var h, h' := Rewritten(g, rs, ss, k), Rewritten(g, rs, ss, k + 1);
            && Agree(Eval(sem, env + h'.inits, h'.nodes, d), Eval(sem, env + h.inits, h.nodes, Edited(sem, rs[k], d)),
                     Names(ss[k]))
            && h'.names == h.names + Names(ss[k]) && g.names <= h.names && Names(ss[k]) !! h.names
  {
    hide WellFormed, Matched, AllDrawn, Sized, Matches, Fits, Segment, NewInits, Rewritten, Closed, Offset, Ordered,
         Eval, Agree, Edited, New, Names, Later;
    RewrittenKeepsWellFormed(g, available, rs, ss, k);
    LaterSilent(d, g.names, rs, k);
    var before, n, after := NextRewrite(g, rs, ss, k);
    var h, h' := Rewritten(g, rs, ss, k), Rewritten(g, rs, ss, k + 1);
    NextIsNew(g, rs, ss, k);
    FormedIsClosed(h, available);
    LayerFits(h, g.nodes, rs[k], before, n, after);
    SizedAt(rs, ss, k);
    NewApart(h.names, ss[k]);
    ReplaceIsEdited(sem, env, h, available, rs[k], ss[k], before, n, after, d);
    assert env + h.inits + NewInits(rs[k], ss[k]) == env + h'.inits;
  }

  /** Evaluating the rewritten graph is evaluating the original one with each rewritten layer's input and
      output edited, and no other; also when one rewritten layer feeds another. */
  lemma {:induction false} RewrittenEvaluates<V(!new)>(sem: Semantics<V>, env: Env<V>, g: Graph<V>,
                                                       available: set<string>, rs: seq<Rewrite<V>>,
                                                       ss: seq<seq<string>>, k: nat, d: Edits<V>)
    requires WellFormed(g, available) && Matched(g.nodes, rs) && AllDrawn(g.names, rs, ss) && k <= |rs|
    requires env.Keys <= g.names && Later(d, g.names, rs, k)
    ensures Sized(rs, ss)
    ensures var end := Rewritten(g, rs, ss, k);
            && g.names <= end.names
            && Agree(Eval(sem, env + end.inits, end.nodes, d),
                     Eval(sem, env + g.inits, g.nodes, AllEdits(sem, rs, k, d)), end.names - g.names)
  {
    hide WellFormed, Matched, AllDrawn, Sized, Rewritten, Eval, Agree, Later, Edited, Names, Step, Closed, Ordered;
    DrawnSized(g.names, rs, ss);
    if k == 0 {
      NothingRewritten(g, rs, ss);
      AgreeWithSelf(Eval(sem, env + g.inits, g.nodes, d), g.names - g.names);
    } else {
      NextIsEdited(sem, env, g, available, rs, ss, k - 1, d);
      EditedIsEarlier(sem, g, available, rs, k - 1, d);
      var d' := Edited(sem, rs[k - 1], d);
      RewrittenEvaluates(sem, env, g, available, rs, ss, k - 1, d');
      var h, h' := Rewritten(g, rs, ss, k - 1), Rewritten(g, rs, ss, k);
      AgreeThrough(Eval(sem, env + h'.inits, h'.nodes, d), Eval(sem, env + h.inits, h.nodes, d'),
                   Eval(sem, env + g.inits, g.nodes, AllEdits(sem, rs, k - 1, d')),
                   Names(ss[k - 1]), h.names - g.names, h'.names - g.names);
    }
  }

  lemma AgreeWithSelf<V>(a: Env<V>, x: set<string>)
    ensures Agree(a, a, x)
  {
  }

  lemma AgreeThrough<V>(a: Env<V>, b: Env<V>, c: Env<V>, x: set<string>, y: set<string>, z: set<string>)
    requires Agree(a, b, x) && Agree(b, c, y) && x <= z && y <= z
    ensures Agree(a, c, z)
  {
  }

  /** An output that is none of the layers' keeps what d says of it. */
  lemma {:induction false} OtherEditsKept<V>(sem: Semantics<V>, rs: seq<Rewrite<V>>, k: nat, d: Edits<V>, o: string)
    requires k <= |rs| && forall l :: 0 <= l < k ==> rs[l].output != o
    ensures var e := AllEdits(sem, rs, k, d);
            && (o in e.inputs <==> o in d.inputs) && (o in d.inputs ==> e.inputs[o] == d.inputs[o])
            && (o in e.outputs <==> o in d.outputs) && (o in d.outputs ==> e.outputs[o] == d.outputs[o])
  {
    hide InputEdit, OutputEdit;
    if k > 0 {
      OtherEditsKept(sem, rs, k - 1, Edited(sem, rs[k - 1], d), o);
    }
  }

  /** Each layer gets exactly its own edits, whatever the order. */
  lemma {:induction false} LayerEdits<V>(sem: Semantics<V>, rs: seq<Rewrite<V>>, k: nat, d: Edits<V>, l: nat)
    requires l < k <= |rs| && (forall i, j :: 0 <= i < j < |rs| ==> rs[i].output != rs[j].output)
    requires forall j :: 0 <= j < k ==> Silent(d, {rs[j].output})
    ensures var e, o := AllEdits(sem, rs, k, d), rs[l].output;
            && (o in e.inputs <==> !rs[l].CodesOnly?) && (!rs[l].CodesOnly? ==> e.inputs[o] == InputEdit(sem, rs[l]))
            && (o in e.outputs <==> rs[l].Chain?) && (rs[l].Chain? ==> e.outputs[o] == OutputEdit(sem, rs[l]))
  {
    hide InputEdit, OutputEdit;
    var d' := Edited(sem, rs[k - 1], d);
    assert Silent(d, {rs[l].output});
    if l == k - 1 {
      OtherEditsKept(sem, rs, k - 1, d', rs[l].output);
    } else {
      forall j | 0 <= j < k - 1 ensures Silent(d', {rs[j].output}) {
        assert Silent(d, {rs[j].output}) && rs[j].output != rs[k - 1].output;
      }
      LayerEdits(sem, rs, k - 1, d', l);
    }
  }

  // --- In place -------------------------------------------------------------------------------------

  /** The position of the last node with each first output. */
  method NodeIndexByOutput(nodes: seq<Node>) returns (index: map<string, nat>)
    ensures forall o :: o in index ==>
              index[o] < |nodes| && nodes[index[o]].outputs != [] && nodes[index[o]].outputs[0] == o
    ensures forall i :: 0 <= i < |nodes| && nodes[i].outputs != [] ==>
              nodes[i].outputs[0] in index && i <= index[nodes[i].outputs[0]]
  {
    index := map[];
    for i := 0 to |nodes|
      invariant forall o :: o in index ==>
                  index[o] < i && nodes[index[o]].outputs != [] && nodes[index[o]].outputs[0] == o
      invariant forall j :: 0 <= j < i && nodes[j].outputs != [] ==>
                  nodes[j].outputs[0] in index && j <= index[nodes[j].outputs[0]]
    {
      if nodes[i].outputs != [] {
        index := index[nodes[i].outputs[0] := i];
      }
    }
  }

  lemma InsertInside<T>(before: seq<T>, front: seq<T>, after: seq<T>, x: T)
    ensures var all, at := before + front + after, |before| + |front|;
            all[..at] + [x] + all[at..] == before + (front + [x]) + after
  {
  }

  class EditableGraph<V(!new)> {
    var nodes: seq<Node>
    var inits: Env<V>
    var taken: set<string>

    ghost function View(): Graph<V>
      reads this
    {
      Graph(nodes, inits, taken)
    }

    /** An empty node appended and swapped down to its place, then filled in. */
    method InsertNodeAt(index: nat, n: Node)
      requires index <= |nodes|
      modifies this`nodes
      ensures nodes == old(nodes)[..index] + [n] + old(nodes)[index..]
    {
      nodes := InsertBySwaps(nodes, index, Node("", "", [], []));
      nodes := nodes[index := n];
    }

    /** Fresh names, one for each base in turn. */
    method Draw(bases: seq<string>) returns (s: seq<string>)
      modifies this`taken
      ensures Drawn(old(taken), bases, s) && taken == old(taken) + Names(s)
    {
      s := [];
      for i := 0 to |bases|
        invariant |s| == i && taken == old(taken) + Names(s)
        invariant forall j :: 0 <= j < i ==> IsFirstFree(bases[j], old(taken) + Names(s[..j]), s[j])
      {
        hide IsFirstFree;
        var name;
        name, taken := UniqueName(bases[i], taken);
        NamesSnoc(s, name);
        assert forall j :: 0 <= j < i ==> (s + [name])[..j] == s[..j];
        assert (s + [name])[..i] == s;
        s := s + [name];
      }
    }

    /** Center, maybe rotate, and scale the activation before the layer. */
    method InsertFront(r: Rewrite<V>, s: seq<string>, live: nat) returns (cursor: nat)
      requires r.Chain? && |s| == Count(r) && live <= |nodes|
      modifies this`nodes
      ensures nodes == old(nodes)[..live] + Front(r, s) + old(nodes)[live..] && cursor == live + |Front(r, s)|
    {
      ghost var before, after := nodes[..live], nodes[live..];
      assert nodes == before + [] + after;
      cursor := live;
      InsertInside(before, [], after, Node("Sub", s[2], [r.activation, s[0]], [s[1]]));
      InsertNodeAt(cursor, Node("Sub", s[2], [r.activation, s[0]], [s[1]]));
      cursor := cursor + 1;
      var rotated := s[1];
      ghost var front := [] + [Node("Sub", s[2], [r.activation, s[0]], [s[1]])];
      if r.rotation.Some? {
        rotated := s[4];
        InsertInside(before, front, after, Node("MatMul", s[5], [s[1], s[3]], [s[4]]));
        InsertNodeAt(cursor, Node("MatMul", s[5], [s[1], s[3]], [s[4]]));
        cursor := cursor + 1;
        front := front + [Node("MatMul", s[5], [s[1], s[3]], [s[4]])];
      }
      var k := ScaleAt(r);
      InsertInside(before, front, after, Node("Mul", s[k + 2], [rotated, s[k]], [s[k + 1]]));
      InsertNodeAt(cursor, Node("Mul", s[k + 2], [rotated, s[k]], [s[k + 1]]));
      cursor := cursor + 1;
      assert front + [Node("Mul", s[k + 2], [rotated, s[k]], [s[k + 1]])] == Front(r, s);
    }

    /** The new nodes before the layer, the layer rewired, the bias after it. */
    method InsertChain(r: Rewrite<V>, live: nat) returns (s: seq<string>, inserted: nat)
      requires r.Chain? && live < |nodes| && nodes[live].inputs != [] && nodes[live].outputs != []
      modifies this
      ensures Drawn(old(taken), Bases(r), s) && taken == old(taken) + Names(s)
      ensures inits == old(inits) + NewInits(r, s)
      ensures nodes == old(nodes)[..live] + Segment(old(nodes)[live], r, s) + old(nodes)[live + 1..]
      ensures inserted == Growth(r)
    {
      s := Draw(Bases(r));
      hide Drawn, Bases;
      inits := inits + NewInits(r, s);
      ghost var before, n, after := nodes[..live], nodes[live], nodes[live..];
      var cursor := InsertFront(r, s, live);
      var k := ScaleAt(r);
      assert nodes[cursor] == n && |Front(r, s)| == Growth(r) - 1;
      var oldOutput := nodes[cursor].outputs[0];
      nodes := nodes[cursor := nodes[cursor].(inputs := nodes[cursor].inputs[0 := s[k + 1]],
                                              outputs := nodes[cursor].outputs[0 := s[k + 3]])];
      InsertNodeAt(cursor + 1, Node("Add", s[k + 5], [s[k + 3], s[k + 4]], [oldOutput]));
      ChainInserted(before, n, after, r, s, nodes);
      inserted := cursor - live + 1;
    }

    /** Nothing is inserted for a layer without a transform. */
    method AffinequantLayer(r: Rewrite<V>, live: nat) returns (s: seq<string>, inserted: nat)
      requires !r.Scale? && live < |nodes| && (r.Chain? ==> nodes[live].inputs != [] && nodes[live].outputs != [])
      modifies this
      ensures Drawn(old(taken), Bases(r), s) && inserted == Growth(r)
      ensures View() == Graph(old(nodes)[..live] + Segment(old(nodes)[live], r, s) + old(nodes)[live + 1..],
                              old(inits) + NewInits(r, s), old(taken) + Names(s))
    {
      if r.CodesOnly? {
        s, inserted := [], 0;
        Unchanged(r, View(), live);
      } else {
        hide Drawn, Segment, NewInits, Names, Bases;
        s, inserted := InsertChain(r, live);
      }
    }

    method AwqLayer(r: Rewrite<V>, live: nat) returns (s: seq<string>, inserted: nat)
      requires !r.Chain? && live < |nodes| && (r.Scale? ==> nodes[live].inputs != [] && nodes[live].outputs != [])
      modifies this
      ensures Drawn(old(taken), Bases(r), s) && inserted == Growth(r)
      ensures View() == Graph(old(nodes)[..live] + Segment(old(nodes)[live], r, s) + old(nodes)[live + 1..],
                              old(inits) + NewInits(r, s), old(taken) + Names(s))
    {
      if r.CodesOnly? {
        s, inserted := [], 0;
        Unchanged(r, View(), live);
      } else {
        hide Drawn, Segment, NewInits, Names, Bases;
        s := InsertScale(r, live);
        inserted := 1;
      }
    }

    /** The chain around every layer that has one, found by its original position and a running offset. */
    method ApplyAffinequant(rs: seq<Rewrite<V>>) returns (ghost ss: seq<seq<string>>)
      requires Matched(nodes, rs) && forall k :: 0 <= k < |rs| ==> !rs[k].Scale?
      modifies this
      ensures AllDrawn(old(taken), rs, ss) && Sized(rs, ss) && View() == Rewritten(old(View()), rs, ss, |rs|)
    {
      hide Matched, RunSoFar, Segment, NewInits, Drawn, Names, Rewritten, AllDrawn, Sized, Growth, Offset, Bases,
           WellFormed;
      ghost var g := View();
      ss := [];
      var netInsertions := 0;
      StartOfRun(g, rs);
      NoOffset(rs);
      for k := 0 to |rs|
        invariant Matched(g.nodes, rs) && RunSoFar(g, rs, ss, k, View()) && netInsertions == Offset(rs, k)
      {
        ghost var now := View();
        LayerStands(g, rs, ss, k, now);
        var s, inserted := AffinequantLayer(rs[k], rs[k].index + netInsertions);
        netInsertions := netInsertions + inserted;
        NextOfRun(g, rs, ss, k, s, now, View());
        ss := ss + [s];
      }
      EndOfRun(g, rs, ss, View());
    }

    /** One scaling node before every layer that has one, found by its output and a running offset. */
    method ApplyAwq(rs: seq<Rewrite<V>>, ghost available: set<string>) returns (ghost ss: seq<seq<string>>)
      requires WellFormed(View(), available) && Matched(nodes, rs) && forall k :: 0 <= k < |rs| ==> !rs[k].Chain?
      modifies this
      ensures AllDrawn(old(taken), rs, ss) && Sized(rs, ss) && View() == Rewritten(old(View()), rs, ss, |rs|)
    {
      hide Matched, RunSoFar, Segment, NewInits, Drawn, Names, Rewritten, AllDrawn, Sized, Growth, Offset, Bases,
           WellFormed;
      ghost var g := View();
      ss := [];
      var index := NodeIndexByOutput(nodes);
      var insertions := 0;
      StartOfRun(g, rs);
      NoOffset(rs);
      for k := 0 to |rs|
        invariant Matched(g.nodes, rs) && RunSoFar(g, rs, ss, k, View()) && insertions == Offset(rs, k)
      {
        OutputIndex(g, available, rs, k, index);
        ghost var now := View();
        LayerStands(g, rs, ss, k, now);
        var s, inserted := AwqLayer(rs[k], index[rs[k].output] + insertions);
        insertions := insertions + inserted;
        NextOfRun(g, rs, ss, k, s, now, View());
        ss := ss + [s];
      }
      EndOfRun(g, rs, ss, View());
    }

    method InsertScale(r: Rewrite<V>, live: nat) returns (s: seq<string>)
      requires r.Scale? && live < |nodes| && nodes[live].inputs != [] && nodes[live].outputs != []
      modifies this
      ensures Drawn(old(taken), Bases(r), s) && taken == old(taken) + Names(s)
      ensures inits == old(inits) + NewInits(r, s)
      ensures nodes == old(nodes)[..live] + Segment(old(nodes)[live], r, s) + old(nodes)[live + 1..]
    {
      s := Draw(Bases(r));
      hide Drawn, Bases;
      inits := inits[s[0] := r.invScale];
      ghost var before, n, after := nodes[..live], nodes[live], nodes[live + 1..];
      InsertNodeAt(live, Node("Mul", s[2], [r.activation, s[0]], [s[1]]));
      nodes := nodes[live + 1 := nodes[live + 1].(inputs := nodes[live + 1].inputs[0 := s[1]])];
      assert Segment(n, r, s) == [Node("Mul", s[2], [r.activation, s[0]], [s[1]]), Rewired(n, r, s)];
      assert nodes == before + [Node("Mul", s[2], [r.activation, s[0]], [s[1]]), Rewired(n, r, s)] + after;
      assert inits == old(inits) + NewInits(r, s);
    }
  }

  // --- The run ----------------------------------------------------------------------------------------

  /** After k layers: the names drawn so far, and the graph they give. */
  ghost predicate RunSoFar<V>(g: Graph<V>, rs: seq<Rewrite<V>>, ss: seq<seq<string>>, k: nat, now: Graph<V>) {
    && k <= |rs| && Matched(g.nodes, rs[..k])
    && AllDrawn(g.names, rs[..k], ss) && Sized(rs[..k], ss)
    && now == Rewritten(g, rs[..k], ss, k)
  }

  ghost predicate SameFirst<T>(a: seq<T>, b: seq<T>, k: nat) {
    k <= |a| && k <= |b| && forall l :: 0 <= l < k ==> a[l] == b[l]
  }

  /** Only the first k layers matter to what they give. */
  lemma {:induction false} PrefixAgrees<V>(g: Graph<V>, rs: seq<Rewrite<V>>, ss: seq<seq<string>>,
                                           rs': seq<Rewrite<V>>, ss': seq<seq<string>>, k: nat, i: nat)
    requires Matched(g.nodes, rs) && Matched(g.nodes, rs') && Sized(rs, ss) && Sized(rs', ss')
    requires Before(g.nodes, rs, k, i) && Before(g.nodes, rs', k, i) && SameFirst(rs, rs', k) && SameFirst(ss, ss', k)
    ensures Expand(g.nodes, rs, ss, k, i) == Expand(g.nodes, rs', ss', k, i)
    ensures InitsOf(rs, ss, k) == InitsOf(rs', ss', k) && NamesOf(ss, k) == NamesOf(ss', k)
    ensures Offset(rs, k) == Offset(rs', k)
  {
    hide Segment, NewInits, Names, Growth, Count, Matches;
    if k > 0 {
      PreviousBefore(g.nodes, rs, k);
      PrefixAgrees(g, rs, ss, rs', ss', k - 1, rs[k - 1].index);
    }
  }

  lemma PrefixRewritten<V>(g: Graph<V>, rs: seq<Rewrite<V>>, ss: seq<seq<string>>, rs': seq<Rewrite<V>>,
                           ss': seq<seq<string>>, k: nat)
    requires Matched(g.nodes, rs) && Matched(g.nodes, rs') && Sized(rs, ss) && Sized(rs', ss')
    requires k <= |rs| && k <= |rs'| && SameFirst(rs, rs', k) && SameFirst(ss, ss', k)
    ensures Rewritten(g, rs, ss, k) == Rewritten(g, rs', ss', k) && Offset(rs, k) == Offset(rs', k)
  {
    hide Expand, InitsOf, NamesOf, Offset;
    AllBefore(g.nodes, rs, k);
    AllBefore(g.nodes, rs', k);
    PrefixAgrees(g, rs, ss, rs', ss', k, |g.nodes|);
  }

  lemma NoOffset<V>(rs: seq<Rewrite<V>>)
    ensures Offset(rs, 0) == 0
  {
  }

  lemma StartOfRun<V>(g: Graph<V>, rs: seq<Rewrite<V>>)
    requires Matched(g.nodes, rs)
    ensures RunSoFar(g, rs, [], 0, g)
  {
    assert rs[..0] == [];
    NothingRewritten(g, rs[..0], []);
  }

  lemma EndOfRun<V>(g: Graph<V>, rs: seq<Rewrite<V>>, ss: seq<seq<string>>, now: Graph<V>)
    requires Matched(g.nodes, rs) && RunSoFar(g, rs, ss, |rs|, now)
    ensures AllDrawn(g.names, rs, ss) && Sized(rs, ss) && now == Rewritten(g, rs, ss, |rs|)
  {
    assert rs[..|rs|] == rs;
  }

  lemma MatchedTo<V>(nodes: seq<Node>, rs: seq<Rewrite<V>>, k: nat)
    requires Matched(nodes, rs) && k <= |rs|
    ensures Matched(nodes, rs[..k])
  {
  }

  /** The next layer stands at its original position plus the running offset. */
  lemma LayerStands<V>(g: Graph<V>, rs: seq<Rewrite<V>>, ss: seq<seq<string>>, k: nat, now: Graph<V>)
    requires Matched(g.nodes, rs) && RunSoFar(g, rs, ss, k, now) && k < |rs|
    ensures var at := rs[k].index + Offset(rs, k);
            && at < |now.nodes| && rs[k].index < |g.nodes| && now.nodes[at] == g.nodes[rs[k].index]
            && now.nodes[at].outputs != [] && (!rs[k].CodesOnly? ==> now.nodes[at].inputs != [])
  {
    assert Matches(g.nodes, rs[k]);
    hide Matches, Segment, Sized, AllDrawn;
    var done, i := rs[..k], rs[k].index;
    OffsetPrefix(rs, k, k);
    assert Before(g.nodes, done, k, i);
    AllBefore(g.nodes, done, k);
    ExpandSize(g.nodes, done, ss, k, i);
    ExpandMoreOf(g.nodes, done, ss, k, i);
  }

  lemma ExpandMoreOf<V>(nodes: seq<Node>, rs: seq<Rewrite<V>>, ss: seq<seq<string>>, k: nat, i: nat)
    requires Matched(nodes, rs) && Sized(rs, ss) && Before(nodes, rs, k, i) && Before(nodes, rs, k, |nodes|)
    requires i < |nodes|
    ensures var all, at := Expand(nodes, rs, ss, k, |nodes|), |Expand(nodes, rs, ss, k, i)|;
            at < |all| && all[at] == nodes[i]
  {
    ExpandMore(nodes, rs, ss, k, i, |nodes|);
    hide Expand, Matched, Sized;
  }

  lemma {:induction false} OffsetPrefix<V>(rs: seq<Rewrite<V>>, k: nat, l: nat)
    requires l <= k <= |rs|
    ensures Offset(rs[..k], l) == Offset(rs, l)
  {
    if l > 0 {
      OffsetPrefix(rs, k, l - 1);
    }
  }

  lemma {:induction false} NamesPrefix(ss: seq<seq<string>>, s: seq<string>, k: nat)
    requires k <= |ss|
    ensures NamesOf(ss + [s], k) == NamesOf(ss, k)
  {
    if k > 0 {
      NamesPrefix(ss, s, k - 1);
    }
  }

  lemma DrawnSnoc<V>(taken: set<string>, rs: seq<Rewrite<V>>, ss: seq<seq<string>>, k: nat, s: seq<string>)
    requires k < |rs| && |ss| == k && AllDrawn(taken, rs[..k], ss) && Drawn(taken + NamesOf(ss, k), Bases(rs[k]), s)
    ensures AllDrawn(taken, rs[..k + 1], ss + [s])
  {
    hide Drawn, Bases;
    var rs', ss' := rs[..k + 1], ss + [s];
    forall l | 0 <= l < k + 1 ensures DrawnFor(taken, rs', ss', l) {
      NamesPrefix(ss, s, l);
      assert l < k ==> DrawnFor(taken, rs[..k], ss, l);
    }
  }

  lemma RunNames<V>(g: Graph<V>, rs: seq<Rewrite<V>>, ss: seq<seq<string>>, k: nat, now: Graph<V>)
    requires RunSoFar(g, rs, ss, k, now)
    ensures |ss| == k && now.names == g.names + NamesOf(ss, k)
  {
    hide Drawn, Matches, Expand, InitsOf, NamesOf;
  }

  /** The graph with the layer that stands at a position rewritten there. */
  function OneRewritten<V>(now: Graph<V>, at: nat, r: Rewrite<V>, s: seq<string>): Graph<V>
    requires at < |now.nodes| && |s| == Count(r)
  {
    Graph(now.nodes[..at] + Segment(now.nodes[at], r, s) + now.nodes[at + 1..], now.inits + NewInits(r, s),
          now.names + Names(s))
  }

  /** A step that puts the layer's segment where it stands, with its names and initializers, continues the run. */
  lemma NextOfRun<V>(g: Graph<V>, rs: seq<Rewrite<V>>, ss: seq<seq<string>>, k: nat, s: seq<string>, now: Graph<V>,
                     next: Graph<V>)
    requires Matched(g.nodes, rs) && RunSoFar(g, rs, ss, k, now) && k < |rs|
    requires var at := rs[k].index + Offset(rs, k);
             && at < |now.nodes| && Drawn(now.names, Bases(rs[k]), s)
             && next == OneRewritten(now, at, rs[k], s)
    ensures RunSoFar(g, rs, ss + [s], k + 1, next)
    ensures Offset(rs, k + 1) == Offset(rs, k) + Growth(rs[k])
  {
    hide Matched, AllDrawn, Sized, Drawn, Growth, Bases, Rewritten, SameFirst, Offset, OneRewritten;
    RunRecords(g, rs, ss, k, s, now);
    OffsetGrows(rs, k);
    Prefixes(rs, k, ss, s);
    NextNow(g, rs[..k + 1], ss + [s], rs[..k], ss, k, now, next);
  }

  /** The layers and names of the run so far, with one more. */
  lemma RunRecords<V>(g: Graph<V>, rs: seq<Rewrite<V>>, ss: seq<seq<string>>, k: nat, s: seq<string>, now: Graph<V>)
    requires Matched(g.nodes, rs) && RunSoFar(g, rs, ss, k, now) && k < |rs| && Drawn(now.names, Bases(rs[k]), s)
    ensures |ss| == k && Matched(g.nodes, rs[..k + 1])
    ensures AllDrawn(g.names, rs[..k + 1], ss + [s]) && Sized(rs[..k + 1], ss + [s])
  {
    hide Matched, AllDrawn, Sized, Drawn, Bases, Rewritten, NamesOf;
    RunNames(g, rs, ss, k, now);
    DrawnSnoc(g.names, rs, ss, k, s);
    DrawnSized(g.names, rs[..k + 1], ss + [s]);
    MatchedTo(g.nodes, rs, k + 1);
  }

  lemma OffsetGrows<V>(rs: seq<Rewrite<V>>, k: nat)
    requires k < |rs|
    ensures Offset(rs, k + 1) == Offset(rs, k) + Growth(rs[k]) && Offset(rs[..k + 1], k) == Offset(rs, k)
  {
    OffsetPrefix(rs, k + 1, k);
  }

  lemma Prefixes<T, S>(rs: seq<T>, k: nat, ss: seq<S>, s: S)
    requires k < |rs| && |ss| == k
    ensures SameFirst(rs[..k + 1], rs[..k], k) && rs[..k + 1][k] == rs[k]
    ensures SameFirst(ss + [s], ss, k) && (ss + [s])[k] == s
  {
  }

  lemma NextNow<V>(g: Graph<V>, rs: seq<Rewrite<V>>, ss: seq<seq<string>>, done: seq<Rewrite<V>>,
                   drawn: seq<seq<string>>, k: nat, now: Graph<V>, next: Graph<V>)
    requires Matched(g.nodes, rs) && Sized(rs, ss) && k < |rs| && Matched(g.nodes, done) && Sized(done, drawn)
    requires k <= |done|
    requires SameFirst(rs, done, k) && SameFirst(ss, drawn, k) && now == Rewritten(g, done, drawn, k)
    requires var at := rs[k].index + Offset(rs, k);
             && at < |now.nodes| && next == OneRewritten(now, at, rs[k], ss[k])
    ensures next == Rewritten(g, rs, ss, k + 1)
  {
    hide Matched, Matches, Rewritten, Segment, NewInits, Names, Offset, Count;
    PrefixRewritten(g, rs, ss, done, drawn, k);
    var before, n, after := NextRewrite(g, rs, ss, k);
    Around(before, n, after);
  }

  lemma Around<T>(before: seq<T>, n: T, after: seq<T>)
    ensures var all, at := before + [n] + after, |before|;
            at < |all| && all[at] == n && all[..at] == before && all[at + 1..] == after
  {
  }

  /** A layer whose codes alone change needs no step. */
  lemma Unchanged<V>(r: Rewrite<V>, now: Graph<V>, at: nat)
    requires r.CodesOnly? && at < |now.nodes|
    ensures Drawn(now.names, Bases(r), [])
    ensures now == Graph(now.nodes[..at] + Segment(now.nodes[at], r, []) + now.nodes[at + 1..],
                         now.inits + NewInits(r, []), now.names + Names([]))
  {
    assert Segment(now.nodes[at], r, []) == [now.nodes[at]];
    assert now.nodes == now.nodes[..at] + [now.nodes[at]] + now.nodes[at + 1..];
    assert now.inits + map[] == now.inits && now.names + Names([]) == now.names;
  }

  /** Outputs are written once, so the last node with the layer's output is the layer. */
  lemma OutputIndex<V>(g: Graph<V>, available: set<string>, rs: seq<Rewrite<V>>, k: nat, index: map<string, nat>)
    requires WellFormed(g, available) && Matched(g.nodes, rs) && k < |rs|
    requires forall o :: o in index ==>
               index[o] < |g.nodes| && g.nodes[index[o]].outputs != [] && g.nodes[index[o]].outputs[0] == o
    requires forall i :: 0 <= i < |g.nodes| && g.nodes[i].outputs != [] ==>
               g.nodes[i].outputs[0] in index && i <= index[g.nodes[i].outputs[0]]
    ensures rs[k].output in index && index[rs[k].output] == rs[k].index
  {
    assert Matches(g.nodes, rs[k]);
    var o, i := rs[k].output, rs[k].index;
    assert g.nodes[i].outputs[0] == o;
    assert o in g.nodes[i].outputs && o in g.nodes[index[o]].outputs;
    if i < index[o] {
      WrittenOnce(g.nodes, available + g.inits.Keys, i, index[o], o);
    }
  }

  lemma ChainInserted<V>(before: seq<Node>, n: Node, after: seq<Node>, r: Rewrite<V>, s: seq<string>, nodes: seq<Node>)
    requires r.Chain? && |s| == Count(r) && n.inputs != [] && n.outputs != [] && after != [] && after[0] == n
    requires var front := Front(r, s);
             var filled := (before + front + after)[|before| + |front| := Rewired(n, r, s)];
             var at := |before| + |front| + 1;
             nodes == filled[..at] + Back(n, r, s) + filled[at..]
    ensures nodes == before + Segment(n, r, s) + after[1..]
  {
    hide Front, Rewired, Back;
    assert Segment(n, r, s) == Front(r, s) + [Rewired(n, r, s)] + Back(n, r, s);
  }

  lemma NamesSnoc(s: seq<string>, x: string)
    ensures Names(s + [x]) == Names(s) + {x}
  {
  }
}
