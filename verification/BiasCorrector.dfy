/** Applying a list of corrections in place, by list insertion and by adjacent swaps. */
module BiasCorrector {
  import opened Common
  import opened Naming
  import opened OnnxGraph
  import opened BiasCorrection

  datatype Correction<V> = Correction(output: string, value: V)

  predicate Produced(nodes: seq<Node>, o: string) { exists i :: 0 <= i < |nodes| && o in nodes[i].outputs }

  /** The splice of a correction, when its output has a producer. */
  ghost function SpliceFor<V(!new)>(g: Graph<V>, c: Correction<V>, prefix: string): (s: Option<Splice<V>>)
    ensures s.Some? ==> IsSplice(g, c.output, c.value, prefix, s.value)
  {
    if exists s :: IsSplice(g, c.output, c.value, prefix, s)
    then var s :| IsSplice(g, c.output, c.value, prefix, s); Some(s)
    else None
  }

  lemma SpliceForIs<V(!new)>(g: Graph<V>, c: Correction<V>, prefix: string, s: Splice<V>)
    requires IsSplice(g, c.output, c.value, prefix, s)
    ensures SpliceFor(g, c, prefix) == Some(s)
  {
    hide IsSplice;
    SpliceUnique(g, c.output, c.value, prefix, s, SpliceFor(g, c, prefix).value);
  }

  lemma NoSpliceFor<V(!new)>(g: Graph<V>, c: Correction<V>, prefix: string)
    ensures SpliceFor(g, c, prefix).Some? ==> Produced(g.nodes, c.output)
  {
    if SpliceFor(g, c, prefix).Some? {
      var s := SpliceFor(g, c, prefix).value;
      assert c.output in g.nodes[s.at].outputs;
    }
  }

  lemma SomeSpliceFor<V(!new)>(g: Graph<V>, c: Correction<V>, prefix: string)
    requires Produced(g.nodes, c.output)
    ensures SpliceFor(g, c, prefix).Some?
  {
    var found := FirstProducerExists(g.nodes, c.output);
    var pre := FirstFreeExists(c.output + "_" + prefix + "_pre", g.names);
    var scale := FirstFreeExists(c.output + "_" + prefix, g.names + {pre});
    var add := FirstFreeExists(c.output + "_" + prefix + "_add", g.names + {pre, scale});
    hide IsFirstFree, FirstProducer;
    assert IsSplice(g, c.output, c.value, prefix, Splice(c.output, c.value, found.0, found.1, pre, scale, add));
  }

  lemma FirstProducerExists(nodes: seq<Node>, o: string) returns (r: (nat, nat))
    requires Produced(nodes, o)
    ensures FirstProducer(nodes, o, r.0, r.1)
  {
    var at := 0;
    while o !in nodes[at].outputs
      invariant at < |nodes| && forall i :: 0 <= i < at ==> o !in nodes[i].outputs
      decreases |nodes| - at
    {
      at := at + 1;
    }
    r := (at, IndexOf(nodes[at].outputs, o));
  }

  /** The graph after one correction: spliced in, or skipped when nothing produces its output. */
  ghost function CorrectOne<V(!new)>(g: Graph<V>, c: Correction<V>, prefix: string): Graph<V> {
    match SpliceFor(g, c, prefix)
    case None => g
    case Some(s) => ApplySplice(g, s)
  }

  ghost function Corrected<V(!new)>(g: Graph<V>, cs: seq<Correction<V>>, prefix: string): Graph<V>
    decreases |cs|
  {
    if cs == [] then g else CorrectOne(Corrected(g, cs[..|cs| - 1], prefix), cs[|cs| - 1], prefix)
  }

  // --- In place ---------------------------------------------------------------------------------

  /** Every name in use: tensors of the interface, initializers, node names, inputs and outputs. */
  method AllNames<V>(nodes: seq<Node>, inits: Env<V>, interface: set<string>) returns (names: set<string>)
    ensures forall x :: x in names <==>
              (x in interface || x in inits
               || exists n :: n in nodes && ((x == n.name && x != "") || x in n.inputs || x in n.outputs))
    ensures Closed(Graph(nodes, inits, names))
  {
    names := interface + inits.Keys;
    for i := 0 to |nodes|
      invariant forall x :: x in names <==> (x in interface || x in inits || NamedIn(nodes[..i], x))
    {
      var n := nodes[i];
      ghost var before := names;
      if n.name != "" { names := names + {n.name}; }
      for j := 0 to |n.inputs|
        invariant forall x :: x in names <==> (x in before || (x == n.name && x != "") || x in n.inputs[..j])
      {
        names := names + {n.inputs[j]};
        assert n.inputs[..j + 1] == n.inputs[..j] + [n.inputs[j]];
      }
      assert n.inputs[..|n.inputs|] == n.inputs;
      for j := 0 to |n.outputs|
        invariant forall x :: x in names <==> (x in before || (x == n.name && x != "") || x in n.inputs
                                               || x in n.outputs[..j])
      {
        names := names + {n.outputs[j]};
        assert n.outputs[..j + 1] == n.outputs[..j] + [n.outputs[j]];
      }
      assert n.outputs[..|n.outputs|] == n.outputs;
      NamedInSnoc(nodes, i);
    }
    assert nodes[..|nodes|] == nodes;
  }

  ghost predicate NamedIn(nodes: seq<Node>, x: string) {
    exists n :: n in nodes && ((x == n.name && x != "") || x in n.inputs || x in n.outputs)
  }

  lemma NamedInSnoc(nodes: seq<Node>, i: nat)
    requires i < |nodes|
    ensures forall x :: NamedIn(nodes[..i + 1], x) <==>
              NamedIn(nodes[..i], x) || (x == nodes[i].name && x != "") || x in nodes[i].inputs || x in nodes[i].outputs
  {
    assert nodes[..i + 1] == nodes[..i] + [nodes[i]];
  }

  /** The first node, and its first output, of that name. */
  method FindProducer(nodes: seq<Node>, o: string) returns (r: Option<(nat, nat)>)
    ensures r.Some? ==> FirstProducer(nodes, o, r.value.0, r.value.1)
    ensures r.None? ==> !Produced(nodes, o)
  {
    r := None;
    for idx := 0 to |nodes|
      invariant r == None
      invariant forall i :: 0 <= i < idx ==> o !in nodes[i].outputs
    {
      var outs := nodes[idx].outputs;
      for oi := 0 to |outs|
        invariant forall j :: 0 <= j < oi ==> outs[j] != o
      {
        if outs[oi] == o {
          return Some((idx, oi));
        }
      }
    }
  }

  class Model<V(!new)> {
    var nodes: seq<Node>
    var inits: Env<V>
    var taken: set<string>

    ghost function View(): Graph<V>
      reads this
    {
      Graph(nodes, inits, taken)
    }

    constructor (nodes: seq<Node>, inits: Env<V>, interface: set<string>)
      ensures this.nodes == nodes && this.inits == inits && Closed(View())
      ensures interface <= taken
    {
      this.nodes, this.inits := nodes, inits;
      new;
      taken := AllNames(nodes, inits, interface);
    }

    /** Everything but the Add: the fresh names, the renamed producer, the initializer. */
    method Prepare(output: string, correction: V, prefix: string, at: nat, index: nat) returns (s: Splice<V>)
      requires FirstProducer(nodes, output, at, index)
      modifies this
      ensures IsSplice(old(View()), output, correction, prefix, s) && s.at == at && s.index == index
      ensures nodes == old(nodes)[at := Renamed(old(nodes)[at], index, s.pre)]
      ensures inits == old(inits)[s.scale := correction] && taken == old(taken) + {s.pre, s.scale, s.add}
    {
      var pre, scale, add;
      pre, taken := UniqueName(output + "_" + prefix + "_pre", taken);
      nodes := nodes[at := nodes[at].(outputs := nodes[at].outputs[index := pre])];
      scale, taken := UniqueName(output + "_" + prefix, taken);
      inits := inits[scale := correction];
      add, taken := UniqueName(output + "_" + prefix + "_add", taken);
      s := Splice(output, correction, at, index, pre, scale, add);
    }

    /** List insertion right after the producer. */
    method SpliceAddCorrection(output: string, correction: V, prefix: string)
      modifies this
      ensures View() == CorrectOne(old(View()), Correction(output, correction), prefix)
    {
      var found := FindProducer(nodes, output);
      match found {
        case None =>
          NoSpliceFor(View(), Correction(output, correction), prefix);
        case Some((at, index)) =>
          var s := Prepare(output, correction, prefix, at, index);
          nodes := nodes[..at + 1] + [Node("Add", s.add, [s.pre, s.scale], [output])] + nodes[at + 1..];
          SpliceForIs(old(View()), Correction(output, correction), prefix, s);
          InsertedIsSpliced(old(View()), s, nodes);
      }
    }

    /** The Add is appended and walked down to its producer by adjacent swaps. */
    method SpliceBySwaps(output: string, correction: V)
      modifies this
      ensures View() == CorrectOne(old(View()), Correction(output, correction), "bias_correction")
    {
      var found := FindProducer(nodes, output);
      match found {
        case None =>
          NoSpliceFor(View(), Correction(output, correction), "bias_correction");
        case Some((at, index)) =>
          var s := Prepare(output, correction, "bias_correction", at, index);
          nodes := InsertBySwaps(nodes, at + 1, Node("Add", s.add, [s.pre, s.scale], [output]));
          SpliceForIs(old(View()), Correction(output, correction), "bias_correction", s);
          InsertedIsSpliced(old(View()), s, nodes);
      }
    }

    method ApplyBiasCorrections(corrections: seq<Correction<V>>)
      modifies this
      ensures View() == Corrected(old(View()), corrections, "bias_correction")
    {
      ghost var start := View();
      assert corrections[..0] == [];
      for k := 0 to |corrections|
        invariant View() == Corrected(start, corrections[..k], "bias_correction")
      {
        SnocCorrection(start, corrections, k);
        SpliceBySwaps(corrections[k].output, corrections[k].value);
      }
      assert corrections[..|corrections|] == corrections;
    }
  }

  lemma InsertedIsSpliced<V>(g: Graph<V>, s: Splice<V>, nodes: seq<Node>)
    requires s.at < |g.nodes| && s.index < |g.nodes[s.at].outputs|
    requires var renamed := g.nodes[s.at := Renamed(g.nodes[s.at], s.index, s.pre)];
             nodes == renamed[..s.at + 1] + [AddNode(s)] + renamed[s.at + 1..]
    ensures nodes == ApplySplice(g, s).nodes
  {
  }

  lemma SnocCorrection<V(!new)>(g: Graph<V>, cs: seq<Correction<V>>, k: nat)
    requires k < |cs|
    ensures Corrected(g, cs[..k + 1], "bias_correction")
              == CorrectOne(Corrected(g, cs[..k], "bias_correction"), cs[k], "bias_correction")
  {
    assert cs[..k + 1][..k] == cs[..k];
  }

  // --- What the corrected graph computes ---------------------------------------------------------

  /** The splices made for a list of corrections. */
  ghost function SplicesOf<V(!new)>(g: Graph<V>, cs: seq<Correction<V>>, prefix: string): seq<Splice<V>>
    decreases |cs|
  {
    if cs == [] then []
    else
      var rest := SplicesOf(g, cs[..|cs| - 1], prefix);
      match SpliceFor(Corrected(g, cs[..|cs| - 1], prefix), cs[|cs| - 1], prefix)
      case None => rest
      case Some(s) => rest + [s]
  }

  lemma CorrectOneKeepsWellFormed<V(!new)>(g: Graph<V>, available: set<string>, c: Correction<V>, prefix: string)
    requires WellFormed(g, available) && c.output != ""
    ensures WellFormed(CorrectOne(g, c, prefix), available)
    ensures g.names <= CorrectOne(g, c, prefix).names
    ensures SpliceFor(g, c, prefix).Some? ==> Applicable(g, SpliceFor(g, c, prefix).value)
  {
    if SpliceFor(g, c, prefix).Some? {
      var s := SpliceFor(g, c, prefix).value;
      FoundIsApplicable(g, available + g.inits.Keys, c.output, c.value, prefix, s);
      SpliceKeepsOrder(g, available + g.inits.Keys, s);
      hide Ordered, Applicable, Closed, IsSplice;
      assert available + g.inits.Keys + {s.scale} == available + ApplySplice(g, s).inits.Keys;
    }
  }

  /** So the in-place edits keep the graph well formed, and are a list of applicable splices. */
  lemma {:induction false} CorrectedKeepsWellFormed<V(!new)>(g: Graph<V>, available: set<string>,
                                                             cs: seq<Correction<V>>, prefix: string)
    requires WellFormed(g, available) && forall c :: c in cs ==> c.output != ""
    ensures WellFormed(Corrected(g, cs, prefix), available)
    ensures g.names <= Corrected(g, cs, prefix).names
    ensures AllApplicable(g, SplicesOf(g, cs, prefix))
    ensures ApplyAll(g, SplicesOf(g, cs, prefix)) == Corrected(g, cs, prefix)
    decreases |cs|
  {
    if cs != [] {
      var n := |cs| - 1;
      assert forall c :: c in cs[..n] ==> c in cs;
      CorrectedKeepsWellFormed(g, available, cs[..n], prefix);
      assert cs[n] in cs;
      CorrectOneKeepsWellFormed(Corrected(g, cs[..n], prefix), available, cs[n], prefix);
      hide WellFormed, Applicable, ApplySplice;
      var rest := SplicesOf(g, cs[..n], prefix);
      if SpliceFor(Corrected(g, cs[..n], prefix), cs[n], prefix).Some? {
        var s := SpliceFor(Corrected(g, cs[..n], prefix), cs[n], prefix).value;
        assert (rest + [s])[..|rest|] == rest;
      }
    }
  }

  /** x is one of the names drawn for output o. */
  ghost predicate MadeFor(o: string, prefix: string, x: string, i: nat) {
    || x == Candidate(o + "_" + prefix + "_pre", i) || x == Candidate(o + "_" + prefix, i)
    || x == Candidate(o + "_" + prefix + "_add", i)
  }

  ghost predicate Made<V(!new)>(cs: seq<Correction<V>>, prefix: string, x: string) {
    exists c, i: nat :: c in cs && MadeFor(c.output, prefix, x, i)
  }

  /** Every requested output is a name of the graph, or none that could be drawn for a requested output. */
  ghost predicate NamesApart<V(!new)>(g: Graph<V>, cs: seq<Correction<V>>, prefix: string) {
    forall c :: c in cs ==> c.output in g.names || !Made(cs, prefix, c.output)
  }

  lemma SpliceNamesMade<V>(g: Graph<V>, o: string, c: V, prefix: string, s: Splice<V>, x: string)
    requires IsSplice(g, o, c, prefix, s) && x in {s.pre, s.scale, s.add}
    ensures exists i: nat :: MadeFor(o, prefix, x, i)
  {
    var base := if x == s.pre then o + "_" + prefix + "_pre"
                else if x == s.scale then o + "_" + prefix
                else o + "_" + prefix + "_add";
    var i: nat :| x == Candidate(base, i);
    assert MadeFor(o, prefix, x, i);
  }

  lemma {:induction false} NewNamesAreMade<V(!new)>(g: Graph<V>, cs: seq<Correction<V>>, prefix: string, x: string)
    requires x in Corrected(g, cs, prefix).names && x !in g.names
    ensures Made(cs, prefix, x)
    decreases |cs|
  {
    if cs != [] {
      var n := |cs| - 1;
      var h := Corrected(g, cs[..n], prefix);
      hide IsSplice, MadeFor;
      assert cs[n] in cs && forall c :: c in cs[..n] ==> c in cs;
      if x in h.names {
        NewNamesAreMade(g, cs[..n], prefix, x);
      } else {
        SpliceNamesMade(h, cs[n].output, cs[n].value, prefix, SpliceFor(h, cs[n], prefix).value, x);
      }
    }
  }

  lemma ApartFromNew<V(!new)>(g: Graph<V>, cs: seq<Correction<V>>, prefix: string)
    requires NamesApart(g, cs, prefix)
    ensures OutputsApart(g, cs, prefix)
  {
    forall c | c in cs && c.output !in g.names ensures c.output !in Corrected(g, cs, prefix).names {
      if c.output in Corrected(g, cs, prefix).names {
        NewNamesAreMade(g, cs, prefix, c.output);
      }
    }
  }

  ghost predicate OutputsApart<V(!new)>(g: Graph<V>, cs: seq<Correction<V>>, prefix: string) {
    forall c :: c in cs ==> c.output in g.names || c.output !in Corrected(g, cs, prefix).names
  }

  ghost predicate DistinctCorrections<V>(cs: seq<Correction<V>>) {
    forall i, j :: 0 <= i < j < |cs| ==> cs[i].output != cs[j].output
  }

  /** The edits asked for: the corrections of the outputs the original graph produces. */
  ghost function Requested<V>(sem: Semantics<V>, nodes: seq<Node>, cs: seq<Correction<V>>): map<string, V -> V>
    decreases |cs|
  {
    if cs == [] then map[]
    else
      var rest := Requested(sem, nodes, cs[..|cs| - 1]);
      var c := cs[|cs| - 1];
      if Produced(nodes, c.output) then rest[c.output := AddOf(sem, c.value)] else rest
  }

  lemma StillProduced<V>(g: Graph<V>, s: Splice<V>, i: nat, x: string)
    requires Applicable(g, s) && i < |g.nodes| && x in g.nodes[i].outputs
    ensures Produced(ApplySplice(g, s).nodes, x)
  {
    var g' := ApplySplice(g, s);
    assert g'.nodes[s.at] == Renamed(g.nodes[s.at], s.index, s.pre) && g'.nodes[s.at + 1] == AddNode(s);
    if i < s.at {
      assert g'.nodes[i] == g.nodes[i];
    } else if i > s.at {
      assert g'.nodes[i + 1] == g.nodes[i];
    } else {
      var k :| 0 <= k < |g.nodes[i].outputs| && g.nodes[i].outputs[k] == x;
      if k == s.index {
        assert x in g'.nodes[s.at + 1].outputs;
      } else {
        assert g'.nodes[s.at].outputs[k] == x;
      }
    }
  }

  lemma ProducedBefore<V>(g: Graph<V>, s: Splice<V>, i: nat, x: string)
    requires Applicable(g, s) && x in g.names && i < |ApplySplice(g, s).nodes|
    requires x in ApplySplice(g, s).nodes[i].outputs
    ensures Produced(g.nodes, x)
  {
    var g' := ApplySplice(g, s);
    RenamedOutputs(g.nodes[s.at], s.index, s.pre);
    if i < s.at {
      assert g'.nodes[i] == g.nodes[i];
    } else if i > s.at + 1 {
      assert g'.nodes[i] == g.nodes[i - 1];
    } else {
      assert x in g.nodes[s.at].outputs;
    }
  }

  /** A name of the original graph is produced after a splice exactly when it was before. */
  lemma SpliceKeepsProduced<V>(g: Graph<V>, s: Splice<V>, x: string)
    requires Applicable(g, s) && x in g.names
    ensures Produced(ApplySplice(g, s).nodes, x) <==> Produced(g.nodes, x)
  {
    var g' := ApplySplice(g, s);
    hide Applicable;
    if Produced(g.nodes, x) {
      var i :| 0 <= i < |g.nodes| && x in g.nodes[i].outputs;
      StillProduced(g, s, i, x);
    }
    if Produced(g'.nodes, x) {
      var i :| 0 <= i < |g'.nodes| && x in g'.nodes[i].outputs;
      ProducedBefore(g, s, i, x);
    }
  }

  lemma {:induction false} CorrectedKeepsProduced<V(!new)>(g: Graph<V>, available: set<string>,
                                                           cs: seq<Correction<V>>, prefix: string, x: string)
    requires WellFormed(g, available) && (forall c :: c in cs ==> c.output != "") && x in g.names
    ensures Produced(Corrected(g, cs, prefix).nodes, x) <==> Produced(g.nodes, x)
    decreases |cs|
  {
    if cs != [] {
      var n := |cs| - 1;
      assert forall c :: c in cs[..n] ==> c in cs;
      CorrectedKeepsProduced(g, available, cs[..n], prefix, x);
      CorrectedKeepsWellFormed(g, available, cs[..n], prefix);
      assert cs[n] in cs;
      var h := Corrected(g, cs[..n], prefix);
      CorrectOneKeepsWellFormed(h, available, cs[n], prefix);
      hide WellFormed, Applicable, Produced;
      if SpliceFor(h, cs[n], prefix).Some? {
        SpliceKeepsProduced(h, SpliceFor(h, cs[n], prefix).value, x);
      }
    }
  }

  /** What is spliced is what was asked for. */
  lemma {:induction false} SplicesAreRequested<V(!new)>(sem: Semantics<V>, g: Graph<V>, available: set<string>,
                                                        cs: seq<Correction<V>>, prefix: string)
    requires WellFormed(g, available) && (forall c :: c in cs ==> c.output != "") && OutputsApart(g, cs, prefix)
    ensures Corrections(sem, SplicesOf(g, cs, prefix)) == Requested(sem, g.nodes, cs)
    ensures forall s :: s in SplicesOf(g, cs, prefix) ==> s.output in g.names
    decreases |cs|
  {
    if cs != [] {
      var n := |cs| - 1;
      var c, h := cs[n], Corrected(g, cs[..n], prefix);
      assert c in cs && forall c' :: c' in cs[..n] ==> c' in cs;
      CorrectedKeepsWellFormed(g, available, cs[..n], prefix);
      CorrectOneKeepsWellFormed(h, available, c, prefix);
      SplicesAreRequested(sem, g, available, cs[..n], prefix);
      SplicedIffProduced(g, available, cs, prefix);
      SpliceForOutput(h, c, prefix);
      hide WellFormed, Applicable, Produced, AddOf, IsSplice, Corrected, Corrections, SpliceFor, OutputsApart;
      if SpliceFor(h, c, prefix).Some? {
        CorrectionsSnoc(sem, SplicesOf(g, cs[..n], prefix), SpliceFor(h, c, prefix).value);
      }
    }
  }

  lemma CorrectionsSnoc<V>(sem: Semantics<V>, rest: seq<Splice<V>>, s: Splice<V>)
    ensures Corrections(sem, rest + [s]) == Corrections(sem, rest)[s.output := AddOf(sem, s.correction)]
  {
    assert (rest + [s])[..|rest|] == rest;
  }

  lemma SpliceForOutput<V(!new)>(g: Graph<V>, c: Correction<V>, prefix: string)
    ensures SpliceFor(g, c, prefix).Some? ==>
              SpliceFor(g, c, prefix).value.output == c.output && SpliceFor(g, c, prefix).value.correction == c.value
  {
  }

  lemma SplicedIffProduced<V(!new)>(g: Graph<V>, available: set<string>, cs: seq<Correction<V>>, prefix: string)
    requires WellFormed(g, available) && (forall c :: c in cs ==> c.output != "") && OutputsApart(g, cs, prefix)
    requires cs != []
    ensures var n := |cs| - 1;
            SpliceFor(Corrected(g, cs[..n], prefix), cs[n], prefix).Some? <==> Produced(g.nodes, cs[n].output)
    ensures Produced(g.nodes, cs[|cs| - 1].output) ==> cs[|cs| - 1].output in g.names
  {
    var n := |cs| - 1;
    var c, h := cs[n], Corrected(g, cs[..n], prefix);
    assert c in cs && forall c' :: c' in cs[..n] ==> c' in cs;
    CorrectedKeepsWellFormed(g, available, cs[..n], prefix);
    CorrectOneKeepsWellFormed(h, available, c, prefix);
    ProducedIsNamed(g, c.output);
    ProducedIsNamed(h, c.output);
    if c.output in g.names {
      CorrectedKeepsProduced(g, available, cs[..n], prefix, c.output);
    }
    hide Produced, Closed, Ordered, IsSplice;
    NoSpliceFor(h, c, prefix);
    if Produced(h.nodes, c.output) {
      SomeSpliceFor(h, c, prefix);
    }
  }

  lemma ProducedIsNamed<V>(g: Graph<V>, o: string)
    requires Closed(g)
    ensures Produced(g.nodes, o) ==> o in g.names
  {
    if i :| 0 <= i < |g.nodes| && o in g.nodes[i].outputs {
      assert g.nodes[i] in g.nodes;
    }
  }

  lemma {:induction false} SpliceWasAsked<V(!new)>(g: Graph<V>, cs: seq<Correction<V>>, prefix: string, j: nat)
    requires j < |SplicesOf(g, cs, prefix)|
    ensures exists i :: 0 <= i < |cs| && cs[i].output == SplicesOf(g, cs, prefix)[j].output
    decreases |cs|
  {
    var n := |cs| - 1;
    SpliceForOutput(Corrected(g, cs[..n], prefix), cs[n], prefix);
    hide Corrected, SpliceFor, IsSplice;
    if j < |SplicesOf(g, cs[..n], prefix)| {
      SpliceWasAsked(g, cs[..n], prefix, j);
      var i :| 0 <= i < n && cs[..n][i].output == SplicesOf(g, cs, prefix)[j].output;
      assert cs[i].output == SplicesOf(g, cs, prefix)[j].output;
    } else {
      assert cs[n].output == SplicesOf(g, cs, prefix)[j].output;
    }
  }

  lemma NotSplicedYet<V(!new)>(g: Graph<V>, cs: seq<Correction<V>>, prefix: string, j: nat)
    requires DistinctCorrections(cs) && cs != [] && j < |SplicesOf(g, cs[..|cs| - 1], prefix)|
    ensures SplicesOf(g, cs[..|cs| - 1], prefix)[j].output != cs[|cs| - 1].output
  {
    var n := |cs| - 1;
    SpliceWasAsked(g, cs[..n], prefix, j);
    var i :| 0 <= i < n && cs[..n][i].output == SplicesOf(g, cs[..n], prefix)[j].output;
    assert cs[i] == cs[..n][i];
  }

  lemma DistinctSnoc<V>(rest: seq<Splice<V>>, s: Splice<V>)
    requires DistinctOutputs(rest) && forall j :: 0 <= j < |rest| ==> rest[j].output != s.output
    ensures DistinctOutputs(rest + [s])
  {
  }

  lemma {:induction false} SplicesDistinct<V(!new)>(g: Graph<V>, cs: seq<Correction<V>>, prefix: string)
    requires DistinctCorrections(cs)
    ensures DistinctOutputs(SplicesOf(g, cs, prefix))
    decreases |cs|
  {
    if cs != [] {
      var n := |cs| - 1;
      var rest, found := SplicesOf(g, cs[..n], prefix), SpliceFor(Corrected(g, cs[..n], prefix), cs[n], prefix);
      SplicesDistinct(g, cs[..n], prefix);
      SpliceForOutput(Corrected(g, cs[..n], prefix), cs[n], prefix);
      forall j | 0 <= j < |rest| ensures rest[j].output != cs[n].output {
        NotSplicedYet(g, cs, prefix, j);
      }
      hide DistinctCorrections, DistinctOutputs, Corrected, SpliceFor, IsSplice;
      if found.Some? {
        DistinctSnoc(rest, found.value);
      }
    }
  }

  /** Whichever of the two ways the list is applied, the graph stays well formed; every original tensor
      evaluates as if each requested output had been its producer's value plus its correction; and a tensor
      that depends on none of them keeps its value. */
  lemma CorrectedEvaluates<V(!new)>(sem: Semantics<V>, env: Env<V>, g: Graph<V>, available: set<string>,
                                    cs: seq<Correction<V>>, prefix: string)
    requires WellFormed(g, available) && env.Keys <= g.names
    requires (forall c :: c in cs ==> c.output != "") && DistinctCorrections(cs) && NamesApart(g, cs, prefix)
    ensures var end := Corrected(g, cs, prefix);
            && WellFormed(end, available)
            && var after := Eval(sem, env + end.inits, end.nodes, Edits(map[], map[]));
               && Agree(after, Eval(sem, env + g.inits, g.nodes, Edits(map[], Requested(sem, g.nodes, cs))),
                        end.names - g.names)
               && forall x :: x in g.names && x !in Downstream(g.nodes, {}, Requested(sem, g.nodes, cs).Keys) ==>
                    Lookup(after, x) == Lookup(Eval(sem, env + g.inits, g.nodes, Edits(map[], map[])), x)
  {
    ApartFromNew(g, cs, prefix);
    CorrectedKeepsWellFormed(g, available, cs, prefix);
    SplicesAreRequested(sem, g, available, cs, prefix);
    SplicesDistinct(g, cs, prefix);
    hide Eval, Corrected, SplicesOf, Downstream, Requested, Ordered, Agree, Applicable, Corrections, OutputsApart,
         NamesApart, DistinctOutputs, DistinctCorrections, ApplyAll, AllApplicable;
    AppliedEvaluates(sem, env, g, SplicesOf(g, cs, prefix));
  }

  lemma AppliedEvaluates<V(!new)>(sem: Semantics<V>, env: Env<V>, g: Graph<V>, ss: seq<Splice<V>>)
    requires Closed(g) && AllApplicable(g, ss) && DistinctOutputs(ss) && env.Keys <= g.names
    requires forall s :: s in ss ==> s.output in g.names
    ensures var end := ApplyAll(g, ss);
            var after := Eval(sem, env + end.inits, end.nodes, Edits(map[], map[]));
            && Agree(after, Eval(sem, env + g.inits, g.nodes, Edits(map[], Corrections(sem, ss))), end.names - g.names)
            && forall x :: x in g.names && x !in Downstream(g.nodes, {}, Corrections(sem, ss).Keys) ==>
                 Lookup(after, x) == Lookup(Eval(sem, env + g.inits, g.nodes, Edits(map[], map[])), x)
  {
    hide Eval, Downstream, Closed, AllApplicable, ApplyAll, DistinctOutputs, Corrections, Lookup;
    var want := Corrections(sem, ss);
    SplicesCorrect(sem, env, g, ss, map[]);
    assert map[] + want == want;
    IndependentUnchanged(sem, env + g.inits, env + g.inits, g.nodes, want, {});
  }
}
