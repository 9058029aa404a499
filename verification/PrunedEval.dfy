/** The reference evaluator that frees a value after its last use, against the one that never frees. */
module PrunedEval {
  import opened Common

  /** A top-level node without subgraphs: the names it reads and writes, and what it computes. */
  datatype Node<!V> = Node(inputs: seq<string>, outputs: seq<string>, run: seq<V> -> seq<V>)

  type Results<V> = map<string, V>

  // --- The evaluator that never frees -----------------------------------------------------

  /** results[name] = value for every pair of the zip, later pairs winning. */
  function Write<V>(results: Results<V>, names: seq<string>, values: seq<V>): Results<V>
    decreases |names|
  {
    if names == [] || values == [] then results
    else Write(results[names[0] := values[0]], names[1..], values[1..])
  }

  function Pick<V>(results: Results<V>, names: seq<string>): (values: seq<V>)
    requires forall x :: x in names ==> x in results
    ensures |values| == |names| && forall i :: 0 <= i < |names| ==> values[i] == results[names[i]]
    decreases |names|
  {
    if names == [] then [] else [results[names[0]]] + Pick(results, names[1..])
  }

  /** The values under names, unless one of them is missing. */
  function Read<V>(results: Results<V>, names: seq<string>): Option<seq<V>> {
    if forall x :: x in names ==> x in results then Some(Pick(results, names)) else None
  }

  lemma {:induction false} ReadDependsOnNames<V>(a: Results<V>, b: Results<V>, names: seq<string>)
    requires forall x :: x in names ==> (x in a <==> x in b) && (x in a ==> a[x] == b[x])
    ensures Read(a, names) == Read(b, names)
    decreases |names|
  {
    if names != [] {
      ReadDependsOnNames(a, b, names[1..]);
    }
  }

  /** The results after the first i nodes, or None once a node misses an input. */
  function FullAt<V>(nodes: seq<Node<V>>, init: Results<V>, i: nat): Option<Results<V>>
    requires i <= |nodes|
  {
    if i == 0 then Some(init)
    else
      match FullAt(nodes, init, i - 1)
      case None => None
      case Some(before) =>
        match Read(before, nodes[i - 1].inputs)
        case None => None
        case Some(args) => Some(Write(before, nodes[i - 1].outputs, nodes[i - 1].run(args)))
  }

  /** The requested outputs of the evaluator that never frees. */
  function FullOutputs<V>(nodes: seq<Node<V>>, init: Results<V>, outputNames: seq<string>): Option<seq<V>> {
    match FullAt(nodes, init, |nodes|)
    case None => None
    case Some(results) => Read(results, outputNames)
  }

  /** What a write adds does not depend on what was there. */
  lemma {:induction false} WriteIsUnion<V>(results: Results<V>, names: seq<string>, values: seq<V>)
    ensures Write(results, names, values) == results + Write(map[], names, values)
    ensures forall x :: x in Write(map[], names, values) ==> x in names
    decreases |names|
  {
    if names != [] && values != [] {
      WriteIsUnion(results[names[0] := values[0]], names[1..], values[1..]);
      WriteIsUnion(map[names[0] := values[0]], names[1..], values[1..]);
    }
  }

  /** A name not among the pairs keeps what it held. */
  lemma {:induction false} Unwritten<V>(results: Results<V>, names: seq<string>, values: seq<V>, x: string)
    requires forall i :: 0 <= i < |names| && i < |values| ==> names[i] != x
    ensures x in Write(results, names, values) <==> x in results
    ensures x in results ==> Write(results, names, values)[x] == results[x]
    decreases |names|
  {
    if names != [] && values != [] {
      assert names[0] != x;
      Unwritten(results[names[0] := values[0]], names[1..], values[1..], x);
    }
  }

  /** A written name holds the value paired with its last mention. */
  lemma {:induction false} WrittenLast<V>(results: Results<V>, names: seq<string>, values: seq<V>, i: nat)
    requires i < |names| && i < |values|
    requires forall j :: i < j < |names| && j < |values| ==> names[j] != names[i]
    ensures names[i] in Write(results, names, values) && Write(results, names, values)[names[i]] == values[i]
    decreases |names|
  {
    var next := results[names[0] := values[0]];
    if i == 0 {
      Unwritten(next, names[1..], values[1..], names[0]);
    } else {
      WrittenLast(next, names[1..], values[1..], i - 1);
    }
  }

  // --- Liveness --------------------------------------------------------------------------

  ghost predicate Reads<V>(nodes: seq<Node<V>>, i: int, x: string) { 0 <= i < |nodes| && x in nodes[i].inputs }

  /** lastUse maps every name some node reads, other than the empty one, to the last node that does. */
  ghost predicate IsLastUse<V>(nodes: seq<Node<V>>, lastUse: map<string, int>) {
    && (forall x :: x in lastUse ==> x != "" && Reads(nodes, lastUse[x], x))
    && (forall i, x :: Reads(nodes, i, x) && x != "" ==> x in lastUse && i <= lastUse[x])
  }

  method LastUseIndices<V>(nodes: seq<Node<V>>) returns (lastUse: map<string, int>)
    ensures IsLastUse(nodes, lastUse)
  {
    lastUse := map[];
    for i := 0 to |nodes|
      invariant forall x :: x in lastUse ==> x != "" && lastUse[x] < i && Reads(nodes, lastUse[x], x)
      invariant forall j, x :: j < i && Reads(nodes, j, x) && x != "" ==> x in lastUse && j <= lastUse[x]
    {
      var inputs := nodes[i].inputs;
      for k := 0 to |inputs|
        invariant forall x :: x in lastUse ==> x != "" && lastUse[x] <= i && Reads(nodes, lastUse[x], x)
        invariant forall j, x :: j < i && Reads(nodes, j, x) && x != "" ==> x in lastUse && j <= lastUse[x]
        invariant forall x :: x in inputs[..k] && x != "" ==> x in lastUse && lastUse[x] == i
      {
        if inputs[k] != "" {
          assert Reads(nodes, i, inputs[k]);
          lastUse := lastUse[inputs[k] := i];
        }
      }
      assert inputs[..|inputs|] == inputs;
    }
  }

  /** Single assignment in topological order: no node writes a name that it or an earlier node reads. */
  ghost predicate WritesBeforeReads<V>(nodes: seq<Node<V>>) {
    forall i, j, x :: 0 <= i <= j < |nodes| && x in nodes[j].outputs && x != "" ==> !Reads(nodes, i, x)
  }

  /** A name still needed once node i has run: the empty name, a requested output, a name never read, or
      one with a reader after node i. */
  ghost predicate Needed<V>(nodes: seq<Node<V>>, keep: set<string>, i: int, x: string) {
    x == "" || x in keep || (forall j :: !Reads(nodes, j, x)) || exists j :: i < j && Reads(nodes, j, x)
  }

  // --- The pruned evaluator -----------------------------------------------------------------

  function Names(names: seq<string>): set<string> { set x | x in names }

  /** Some node reads x, and none from i on does. */
  ghost predicate Finished<V>(nodes: seq<Node<V>>, i: int, x: string) {
    (exists j :: Reads(nodes, j, x)) && forall j :: i <= j ==> !Reads(nodes, j, x)
  }

  /** The pruned results agree with the full ones, and miss only names that nobody asked for, that an
      earlier node has read and that no node from i on reads. */
  ghost predicate Pruned<V>(nodes: seq<Node<V>>, keep: set<string>, i: int, results: Results<V>, full: Results<V>) {
    && (forall x :: x in results ==> x in full && results[x] == full[x])
    && (forall x :: x in full && x !in results ==> x != "" && x !in keep && Finished(nodes, i, x))
  }

  /** The live names after node i of the full evaluation. */
  ghost function Live<V>(nodes: seq<Node<V>>, init: Results<V>, keep: set<string>, i: nat): set<string>
    requires i < |nodes| && FullAt(nodes, init, i + 1).Some?
  {
    set x | x in FullAt(nodes, init, i + 1).value && Needed(nodes, keep, i, x)
  }

  /** Nothing but needed names is left after node i - 1. */
  ghost predicate Tight<V>(nodes: seq<Node<V>>, keep: set<string>, i: int, results: Results<V>) {
    forall x :: x in results ==> Needed(nodes, keep, i - 1, x)
  }

  lemma ReadAgrees<V>(nodes: seq<Node<V>>, keep: set<string>, i: nat, results: Results<V>, full: Results<V>)
    requires i < |nodes| && Pruned(nodes, keep, i, results, full)
    ensures Read(results, nodes[i].inputs) == Read(full, nodes[i].inputs)
  {
    forall x | x in nodes[i].inputs ensures x in results <==> x in full {
      assert Reads(nodes, i, x);
    }
    ReadDependsOnNames(results, full, nodes[i].inputs);
  }

  lemma OutputsAgree<V>(nodes: seq<Node<V>>, outputNames: seq<string>, i: nat, results: Results<V>, full: Results<V>)
    requires Pruned(nodes, Names(outputNames), i, results, full)
    ensures Read(results, outputNames) == Read(full, outputNames)
  {
    assert forall x :: x in outputNames ==> x in Names(outputNames);
    ReadDependsOnNames(results, full, outputNames);
  }

  /** Node i reads x, no later one does, and nobody asked for it. */
  ghost predicate Spent<V>(nodes: seq<Node<V>>, keep: set<string>, i: int, x: string) {
    x != "" && x !in keep && Reads(nodes, i, x) && forall j :: i < j ==> !Reads(nodes, j, x)
  }

  ghost function Dropped<V>(nodes: seq<Node<V>>, keep: set<string>, i: int, results: Results<V>): Results<V> {
    map x | x in results && !Spent(nodes, keep, i, x) :: results[x]
  }

  /** The results after i nodes, each writing its outputs and then dropping what it spent. */
  ghost function PrunedAt<V>(nodes: seq<Node<V>>, init: Results<V>, keep: set<string>, i: nat): Option<Results<V>>
    requires i <= |nodes|
  {
    if i == 0 then Some(init)
    else
      match PrunedAt(nodes, init, keep, i - 1)
      case None => None
      case Some(before) =>
        match Read(before, nodes[i - 1].inputs)
        case None => None
        case Some(args) => Some(Dropped(nodes, keep, i - 1,
                                        Write(before, nodes[i - 1].outputs, nodes[i - 1].run(args))))
  }

  lemma StepKeepsPruned<V>(nodes: seq<Node<V>>, keep: set<string>, i: nat, results: Results<V>, full: Results<V>,
                           written: Results<V>)
    requires i < |nodes| && Pruned(nodes, keep, i, results, full)
    ensures Pruned(nodes, keep, i + 1, Dropped(nodes, keep, i, results + written), full + written)
  {
    var after := Dropped(nodes, keep, i, results + written);
    forall x | x in full + written && x !in after
      ensures x != "" && x !in keep && Finished(nodes, i + 1, x)
    {
      if x in results + written {
        assert Spent(nodes, keep, i, x);
      } else {
        assert Finished(nodes, i, x);
      }
    }
  }

  /** In topological single-assignment order a step leaves nothing but needed names. */
  lemma StepKeepsTight<V>(nodes: seq<Node<V>>, keep: set<string>, i: nat, results: Results<V>, written: Results<V>)
    requires i < |nodes| && WritesBeforeReads(nodes) && Tight(nodes, keep, i, results)
    requires forall x :: x in written ==> x in nodes[i].outputs
    ensures Tight(nodes, keep, i + 1, Dropped(nodes, keep, i, results + written))
  {
    forall x | x in Dropped(nodes, keep, i, results + written) ensures Needed(nodes, keep, i, x) {
      if x in written {
        assert x != "" ==> forall j :: 0 <= j <= i ==> !Reads(nodes, j, x);
      } else if x != "" && x !in keep && exists j :: Reads(nodes, j, x) {
        assert Needed(nodes, keep, i - 1, x) && !Spent(nodes, keep, i, x);
      }
    }
  }

  lemma AllNeededAtStart<V>(nodes: seq<Node<V>>, keep: set<string>, results: Results<V>)
    ensures Tight(nodes, keep, 0, results)
  {
    forall x | x in results ensures Needed(nodes, keep, -1, x) {
      if j :| Reads(nodes, j, x) {
        assert -1 < j;
      }
    }
  }

  lemma PrunedAtStart<V>(nodes: seq<Node<V>>, keep: set<string>, init: Results<V>)
    ensures Pruned(nodes, keep, 0, init, init) && Tight(nodes, keep, 0, init)
  {
    AllNeededAtStart(nodes, keep, init);
  }

  /** The pruned evaluator misses a name exactly where the full one does; otherwise they agree on everything the
      pruned one still holds, and it has dropped nothing a later node or the caller needs. */
  lemma {:induction false} PrunedFollowsFull<V>(nodes: seq<Node<V>>, init: Results<V>, keep: set<string>, i: nat)
    requires i <= |nodes| && "" in init
    ensures PrunedAt(nodes, init, keep, i).Some? <==> FullAt(nodes, init, i).Some?
    ensures FullAt(nodes, init, i).Some? ==>
              "" in PrunedAt(nodes, init, keep, i).value
              && Pruned(nodes, keep, i, PrunedAt(nodes, init, keep, i).value, FullAt(nodes, init, i).value)
    ensures FullAt(nodes, init, i).Some? && WritesBeforeReads(nodes) ==>
              Tight(nodes, keep, i, PrunedAt(nodes, init, keep, i).value)
  {
    hide Pruned, Tight, WritesBeforeReads, Read, Write, Dropped;
    if i == 0 {
      PrunedAtStart(nodes, keep, init);
    } else {
      PrunedFollowsFull(nodes, init, keep, i - 1);
      if FullAt(nodes, init, i - 1).Some? {
        OneMoreNode(nodes, init, keep, i - 1);
      }
    }
  }

  lemma OneMoreNode<V>(nodes: seq<Node<V>>, init: Results<V>, keep: set<string>, i: nat)
    requires i < |nodes| && FullAt(nodes, init, i).Some? && PrunedAt(nodes, init, keep, i).Some?
    requires var results, full := PrunedAt(nodes, init, keep, i).value, FullAt(nodes, init, i).value;
             && "" in results && Pruned(nodes, keep, i, results, full)
             && (WritesBeforeReads(nodes) ==> Tight(nodes, keep, i, results))
    ensures PrunedAt(nodes, init, keep, i + 1).Some? <==> FullAt(nodes, init, i + 1).Some?
    ensures FullAt(nodes, init, i + 1).Some? ==>
              var results, full := PrunedAt(nodes, init, keep, i + 1).value, FullAt(nodes, init, i + 1).value;
              && "" in results && Pruned(nodes, keep, i + 1, results, full)
              && (WritesBeforeReads(nodes) ==> Tight(nodes, keep, i + 1, results))
  {
    hide Pruned, Tight, WritesBeforeReads;
    var results, full := PrunedAt(nodes, init, keep, i).value, FullAt(nodes, init, i).value;
    ReadAgrees(nodes, keep, i, results, full);
    if Read(full, nodes[i].inputs).Some? {
      var values := nodes[i].run(Read(full, nodes[i].inputs).value);
      var written: Results<V> := Write(map[], nodes[i].outputs, values);
      WriteIsUnion(results, nodes[i].outputs, values);
      WriteIsUnion(full, nodes[i].outputs, values);
      StepKeepsPruned(nodes, keep, i, results, full, written);
      if WritesBeforeReads(nodes) {
        StepKeepsTight(nodes, keep, i, results, written);
      }
    }
  }

  /** In topological single-assignment order the pruned evaluator holds, after every node, exactly the live names. */
  lemma LiveIsExact<V>(nodes: seq<Node<V>>, init: Results<V>, keep: set<string>, i: nat)
    requires i < |nodes| && "" in init && WritesBeforeReads(nodes) && FullAt(nodes, init, i + 1).Some?
    ensures PrunedAt(nodes, init, keep, i + 1).Some?
    ensures PrunedAt(nodes, init, keep, i + 1).value.Keys == Live(nodes, init, keep, i)
  {
    PrunedFollowsFull(nodes, init, keep, i + 1);
    var results, full := PrunedAt(nodes, init, keep, i + 1).value, FullAt(nodes, init, i + 1).value;
    forall x | x in full && x !in results ensures !Needed(nodes, keep, i, x) {
      assert Finished(nodes, i + 1, x);
    }
  }

  /** The requested outputs are those of the evaluator that never frees. */
  lemma PrunedOutputsAreFull<V>(nodes: seq<Node<V>>, init: Results<V>, outputNames: seq<string>)
    requires "" in init
    ensures FullOutputs(nodes, init, outputNames)
         == match PrunedAt(nodes, init, Names(outputNames), |nodes|)
            case None => None
            case Some(results) => Read(results, outputNames)
  {
    PrunedFollowsFull(nodes, init, Names(outputNames), |nodes|);
    if FullAt(nodes, init, |nodes|).Some? {
      hide Pruned, Names;
      OutputsAgree(nodes, outputNames, |nodes|, PrunedAt(nodes, init, Names(outputNames), |nodes|).value,
                   FullAt(nodes, init, |nodes|).value);
    }
  }

  lemma {:induction false} MissStays<V>(nodes: seq<Node<V>>, init: Results<V>, keep: set<string>, i: nat, j: nat)
    requires i <= j <= |nodes| && PrunedAt(nodes, init, keep, i).None?
    ensures PrunedAt(nodes, init, keep, j).None?
    decreases j
  {
    if i < j {
      MissStays(nodes, init, keep, i, j - 1);
    }
  }

  // --- The loop -----------------------------------------------------------------------------

  /** The requested outputs, or None where a name is missing, and the dictionary the loop is left with: what
      writing and dropping node by node makes of the initial one. */
  method RunReferencePruned<V>(nodes: seq<Node<V>>, init: Results<V>, outputNames: seq<string>)
    returns (r: Option<seq<V>>, results: Results<V>)
    requires "" in init
    ensures r == FullOutputs(nodes, init, outputNames)
    ensures r.Some? ==> PrunedAt(nodes, init, Names(outputNames), |nodes|) == Some(results)
  {
    hide Reads, Names, IsLastUse, Dropped;
    var lastUse := LastUseIndices(nodes);
    var keep := Names(outputNames);
    results := init;
    PrunedOutputsAreFull(nodes, init, outputNames);
    for i := 0 to |nodes|
      invariant PrunedAt(nodes, init, keep, i) == Some(results)
    {
      var args := Read(results, nodes[i].inputs);
      if args.None? {
        MissStays(nodes, init, keep, i + 1, |nodes|);
        return None, results;
      }
      results := Step(nodes, keep, lastUse, i, results, nodes[i].run(args.value));
    }
    r := Read(results, outputNames);
  }

  /** Write node i's outputs, then drop the names whose last reader it was. */
  method Step<V>(nodes: seq<Node<V>>, keep: set<string>, lastUse: map<string, int>, i: nat, results: Results<V>,
                 values: seq<V>)
    returns (after: Results<V>)
    requires i < |nodes| && IsLastUse(nodes, lastUse)
    ensures after == Dropped(nodes, keep, i, Write(results, nodes[i].outputs, values))
  {
    after := Write(results, nodes[i].outputs, values);
    after := DropDead(nodes[i].inputs, keep, lastUse, i, after);
  }

  /** Node i is the last reader of x by the table. */
  predicate Dead(lastUse: map<string, int>, keep: set<string>, i: int, x: string) {
    x != "" && x !in keep && x in lastUse && lastUse[x] == i
  }

  method DropDead<V>(inputs: seq<string>, keep: set<string>, lastUse: map<string, int>, i: int, results: Results<V>)
    returns (after: Results<V>)
    ensures forall x :: x in after <==> x in results && !(x in inputs && Dead(lastUse, keep, i, x))
    ensures forall x :: x in after ==> after[x] == results[x]
  {
    after := results;
    for k := 0 to |inputs|
      invariant forall x :: x in after <==> x in results && !(x in inputs[..k] && Dead(lastUse, keep, i, x))
      invariant forall x :: x in after ==> after[x] == results[x]
    {
      var name := inputs[k];
      if Dead(lastUse, keep, i, name) {
        after := after - {name};
      }
      assert inputs[..k + 1] == inputs[..k] + [name];
    }
    assert inputs[..|inputs|] == inputs;
  }
}
