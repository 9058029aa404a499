/** Grouping compute nodes by block or window, and carrying levels along data-movement chains. */
module NodeGroups {
  import opened Common

  // --- Grouping -----------------------------------------------------------------------------------

  /** A compute node in topological order: its key, and the block its name is in, if any. */
  datatype Compute = Compute(key: string, block: Option<string>)

  /** Where node i's window starts: windows are runs of nodes without a block, cut every window nodes. */
  function WindowStart(nodes: seq<Compute>, window: int, i: nat): (w: nat)
    requires i < |nodes|
    ensures w <= i
  {
    if i == 0 || nodes[i - 1].block.Some? || i - WindowStart(nodes, window, i - 1) >= window then i
    else WindowStart(nodes, window, i - 1)
  }

  /** A window is named after its first node. */
  function WindowName(key: string): (name: string)
    ensures |name| == 7 + |key| && name[..7] == "window:" && name[7..] == key
  {
    "window:" + key
  }

  /** The one group node i belongs to. */
  function Owner(nodes: seq<Compute>, window: int, i: nat): string
    requires i < |nodes|
  {
    match nodes[i].block
    case Some(b) => b
    case None => WindowName(nodes[WindowStart(nodes, window, i)].key)
  }

  /** The keys of the first n nodes owned by g, in order. */
  function Members(nodes: seq<Compute>, window: int, g: string, n: nat): seq<string>
    requires n <= |nodes|
  {
    if n == 0 then []
    else Members(nodes, window, g, n - 1) + if Owner(nodes, window, n - 1) == g then [nodes[n - 1].key] else []
  }

  function At(m: map<string, seq<string>>, g: string): seq<string> { if g in m then m[g] else [] }

  /** Every group holds exactly the nodes it owns among the first n. */
  ghost predicate Grouped(nodes: seq<Compute>, window: int, out: map<string, seq<string>>, n: nat)
    requires n <= |nodes|
  {
    && (forall g :: At(out, g) == Members(nodes, window, g, n))
    && (forall g :: g in out ==> out[g] != [])
  }

  /** Node i has this key and is in the window from start. */
  ghost predicate InWindow(nodes: seq<Compute>, window: int, start: nat, key: string, i: nat) {
    i < |nodes| && nodes[i].key == key && nodes[i].block.None? && WindowStart(nodes, window, i) == start
  }

  /** pending are the keys of the last of n nodes, all in one window. */
  ghost predicate OneWindow(nodes: seq<Compute>, window: int, pending: seq<string>, n: nat) {
    && n <= |nodes| && |pending| <= n
    && forall k :: 0 <= k < |pending| ==> InWindow(nodes, window, n - |pending|, pending[k], n - |pending| + k)
  }

  /** The window is still open, or none is. */
  ghost predicate Pending(nodes: seq<Compute>, window: int, pending: seq<string>, n: nat) {
    && OneWindow(nodes, window, pending, n)
    && (if pending == [] then n == 0 || nodes[n - 1].block.Some? || n - WindowStart(nodes, window, n - 1) >= window
        else |pending| < window)
  }

  /** Nodes of one window belong to one group. */
  lemma {:induction false} WindowMembers(nodes: seq<Compute>, window: int, pending: seq<string>, n: nat, g: string,
                                         k: nat)
    requires OneWindow(nodes, window, pending, n) && k <= |pending|
    ensures Members(nodes, window, g, n - |pending| + k)
         == Members(nodes, window, g, n - |pending|)
            + if pending != [] && g == WindowName(pending[0]) then pending[..k] else []
  {
    hide WindowStart, WindowName, Owner, InWindow;
    if k > 0 {
      WindowMembers(nodes, window, pending, n, g, k - 1);
      WindowOwner(nodes, window, pending, n, k - 1);
      assert pending[..k] == pending[..k - 1] + [pending[k - 1]];
    }
  }

  lemma WindowOwner(nodes: seq<Compute>, window: int, pending: seq<string>, n: nat, k: nat)
    requires OneWindow(nodes, window, pending, n) && k < |pending|
    ensures nodes[n - |pending| + k].key == pending[k]
    ensures Owner(nodes, window, n - |pending| + k) == WindowName(pending[0])
  {
    hide WindowStart, WindowName;
    assert InWindow(nodes, window, n - |pending|, pending[k], n - |pending| + k);
    assert InWindow(nodes, window, n - |pending|, pending[0], n - |pending| + 0);
  }

  lemma Flushed(nodes: seq<Compute>, window: int, out: map<string, seq<string>>, pending: seq<string>, n: nat)
    requires OneWindow(nodes, window, pending, n) && Grouped(nodes, window, out, n - |pending|)
    ensures pending == [] ==> Grouped(nodes, window, out, n)
    ensures pending != [] ==> var g := WindowName(pending[0]); Grouped(nodes, window, out[g := At(out, g) + pending], n)
  {
    hide Members, WindowName, InWindow, Owner, WindowStart;
    if pending != [] {
      var next := out[WindowName(pending[0]) := At(out, WindowName(pending[0])) + pending];
      forall x ensures At(next, x) == Members(nodes, window, x, n) {
        WindowMembers(nodes, window, pending, n, x, |pending|);
        assert At(out, x) == Members(nodes, window, x, n - |pending|);
        assert pending[..|pending|] == pending;
      }
    }
  }

  /** Move the pending nodes into their window's group. */
  method Flush(nodes: seq<Compute>, window: int, out0: map<string, seq<string>>, pending: seq<string>, ghost n: nat)
    returns (out: map<string, seq<string>>)
    requires OneWindow(nodes, window, pending, n) && Grouped(nodes, window, out0, n - |pending|)
    ensures Grouped(nodes, window, out, n)
  {
    hide Grouped, OneWindow;
    Flushed(nodes, window, out0, pending, n);
    out := out0;
    if pending != [] {
      var g := WindowName(pending[0]);
      out := out[g := (if g in out then out[g] else []) + pending];
    }
  }

  lemma PendingFits(nodes: seq<Compute>, window: int, pending: seq<string>, n: nat)
    requires Pending(nodes, window, pending, n)
    ensures |pending| <= n <= |nodes| && OneWindow(nodes, window, pending, n)
  {
  }

  lemma NothingGrouped(nodes: seq<Compute>, window: int)
    ensures Pending(nodes, window, [], 0) && Grouped(nodes, window, map[], 0)
  {
  }

  /** Every node goes to exactly one group, in order; windows hold runs of at most window nodes. */
  method GroupByBlock(nodes: seq<Compute>, window: int) returns (out: map<string, seq<string>>)
    ensures Grouped(nodes, window, out, |nodes|)
  {
    hide Grouped, OneWindow, Pending;
    out := map[];
    var pending: seq<string> := [];
    NothingGrouped(nodes, window);
    for i := 0 to |nodes|
      invariant Pending(nodes, window, pending, i) && |pending| <= i
      invariant Grouped(nodes, window, out, i - |pending|)
    {
      PendingFits(nodes, window, pending, i);
      match nodes[i].block {
        case None =>
          WindowGoesOn(nodes, window, pending, i);
          pending := pending + [nodes[i].key];
          if |pending| >= window {
            out := Flush(nodes, window, out, pending, i + 1);
            pending := [];
          }
        case Some(b) =>
          out := Flush(nodes, window, out, pending, i);
          pending := [];
          BlockJoins(nodes, window, out, i);
          out := out[b := (if b in out then out[b] else []) + [nodes[i].key]];
      }
    }
    PendingFits(nodes, window, pending, |nodes|);
    out := Flush(nodes, window, out, pending, |nodes|);
  }

  /** A node without a block joins the open window, or starts one. */
  lemma WindowGoesOn(nodes: seq<Compute>, window: int, pending: seq<string>, i: nat)
    requires i < |nodes| && Pending(nodes, window, pending, i) && nodes[i].block.None?
    ensures OneWindow(nodes, window, pending + [nodes[i].key], i + 1)
    ensures |pending| + 1 >= window ==> Pending(nodes, window, [], i + 1)
    ensures |pending| + 1 < window ==> Pending(nodes, window, pending + [nodes[i].key], i + 1)
  {
    var more := pending + [nodes[i].key];
    if pending != [] {
      assert InWindow(nodes, window, i - |pending|, pending[|pending| - 1], i - |pending| + (|pending| - 1));
    }
    assert WindowStart(nodes, window, i) == i - |pending|;
    forall k | 0 <= k < |more| ensures InWindow(nodes, window, i + 1 - |more|, more[k], i + 1 - |more| + k) {
      if k < |pending| {
        assert InWindow(nodes, window, i - |pending|, pending[k], i - |pending| + k);
      }
    }
  }

  /** A node with a block goes straight to its group. */
  lemma BlockJoins(nodes: seq<Compute>, window: int, out: map<string, seq<string>>, i: nat)
    requires i < |nodes| && nodes[i].block.Some? && Grouped(nodes, window, out, i)
    ensures var b := nodes[i].block.value;
            Grouped(nodes, window, out[b := At(out, b) + [nodes[i].key]], i + 1)
    ensures Pending(nodes, window, [], i + 1)
  {
    hide WindowStart, WindowName;
    var b := nodes[i].block.value;
    var next := out[b := At(out, b) + [nodes[i].key]];
    forall g ensures At(next, g) == Members(nodes, window, g, i + 1) {
      assert At(out, g) == Members(nodes, window, g, i);
      assert Owner(nodes, window, i) == b;
    }
  }

  // --- One group each ------------------------------------------------------------------------------

  lemma {:induction false} MemberOwned(nodes: seq<Compute>, window: int, g: string, n: nat, x: string)
    requires n <= |nodes|
    ensures x in Members(nodes, window, g, n) <==>
              exists i :: 0 <= i < n && nodes[i].key == x && Owner(nodes, window, i) == g
  {
    if n > 0 {
      MemberOwned(nodes, window, g, n - 1, x);
    }
  }

  /** With distinct keys, each node is in exactly one group. */
  lemma ExactlyOneGroup(nodes: seq<Compute>, window: int, out: map<string, seq<string>>, i: nat)
    requires Grouped(nodes, window, out, |nodes|) && i < |nodes|
    requires forall j, k :: 0 <= j < k < |nodes| ==> nodes[j].key != nodes[k].key
    ensures forall g :: g in out && nodes[i].key in out[g] <==> g == Owner(nodes, window, i)
  {
    forall g ensures g in out && nodes[i].key in out[g] <==> g == Owner(nodes, window, i) {
      MemberOwned(nodes, window, g, |nodes|, nodes[i].key);
      assert At(out, g) == Members(nodes, window, g, |nodes|);
    }
  }

  /** Members of a window are neighbours, fewer apart than the window is wide. */
  lemma {:induction false} WindowIsNarrow(nodes: seq<Compute>, window: int, i: nat)
    requires i < |nodes| && nodes[i].block.None?
    ensures i == WindowStart(nodes, window, i) || i - WindowStart(nodes, window, i) < window
    ensures forall j :: WindowStart(nodes, window, i) <= j < i ==> nodes[j].block.None?
  {
    if i > 0 && nodes[i - 1].block.None? {
      WindowIsNarrow(nodes, window, i - 1);
    }
  }

  // --- Levels along data movement --------------------------------------------------------------------

  /** A graph node: the node producing its data input, if any, and the nodes reading its output, in order. */
  datatype Placed = Placed(key: string, movement: bool, source: Option<nat>, consumers: seq<nat>)

  type Levels = map<string, string>

  /** Distinct keys, and topological order. */
  ghost predicate Wired(nodes: seq<Placed>) {
    && (forall i, j :: 0 <= i < j < |nodes| ==> nodes[i].key != nodes[j].key)
    && (forall i :: 0 <= i < |nodes| && nodes[i].source.Some? ==> nodes[i].source.value < i)
    && (forall i, c :: 0 <= i < |nodes| && c in nodes[i].consumers ==> i < c < |nodes|)
  }

  function Get(level: Levels, x: string): Option<string> { if x in level then Some(level[x]) else None }

  /** The level of the compute node at the head of the chain. */
  ghost function Inherited(nodes: seq<Placed>, levelOf: Levels, i: nat): Option<string>
    requires Wired(nodes) && i < |nodes|
  {
    if !nodes[i].movement then Get(levelOf, nodes[i].key)
    else
      match nodes[i].source
      case None => None
      case Some(p) => Inherited(nodes, levelOf, p)
  }

  /** The inherited level, or else that of the first consumer that has one. */
  ghost function Settled(nodes: seq<Placed>, levelOf: Levels, i: nat): Option<string>
    requires Wired(nodes) && i < |nodes|
    decreases |nodes| - i, 1, 0
  {
    if !nodes[i].movement || Inherited(nodes, levelOf, i).Some? then Inherited(nodes, levelOf, i)
    else FirstSettled(nodes, levelOf, i, |nodes[i].consumers|)
  }

  /** The level of the first of n consumers that has one. */
  ghost function FirstSettled(nodes: seq<Placed>, levelOf: Levels, i: nat, n: nat): Option<string>
    requires Wired(nodes) && i < |nodes| && n <= |nodes[i].consumers|
    decreases |nodes| - i, 0, n
  {
    if n == 0 then None
    else
      var before := FirstSettled(nodes, levelOf, i, n - 1);
      if before.Some? then before
      else
        assert nodes[i].consumers[n - 1] in nodes[i].consumers;
        Settled(nodes, levelOf, nodes[i].consumers[n - 1])
  }

  /** The levels of names that are no node's stay. */
  ghost predicate OthersKept(nodes: seq<Placed>, levelOf: Levels, level: Levels) {
    forall x :: (forall i :: 0 <= i < |nodes| ==> nodes[i].key != x) ==> Get(level, x) == Get(levelOf, x)
  }

  /** The first i nodes are resolved, the others as they were. */
  ghost predicate Resolved(nodes: seq<Placed>, levelOf: Levels, level: Levels, i: nat)
    requires Wired(nodes) && i <= |nodes|
  {
    && (forall j :: 0 <= j < i ==> Get(level, nodes[j].key) == Inherited(nodes, levelOf, j))
    && (forall j :: i <= j < |nodes| ==> Get(level, nodes[j].key) == Get(levelOf, nodes[j].key))
    && OthersKept(nodes, levelOf, level)
  }

  /** Giving node i its inherited level resolves one more. */
  lemma OneMoreResolved(nodes: seq<Placed>, levelOf: Levels, level: Levels, i: nat)
    requires Wired(nodes) && i < |nodes| && Resolved(nodes, levelOf, level, i)
    ensures Get(level, nodes[i].key) == Inherited(nodes, levelOf, i) ==> Resolved(nodes, levelOf, level, i + 1)
    ensures forall lv :: Inherited(nodes, levelOf, i) == Some(lv) ==>
              Resolved(nodes, levelOf, level[nodes[i].key := lv], i + 1)
  {
    hide Inherited;
    forall lv | Inherited(nodes, levelOf, i) == Some(lv)
      ensures Resolved(nodes, levelOf, level[nodes[i].key := lv], i + 1)
    {
      SetKeepsOthers(nodes, levelOf, level, i, lv);
      hide OthersKept;
    }
  }

  /** In topological order, each movement node takes its producer's level. */
  method FromProducers(nodes: seq<Placed>, levelOf: Levels) returns (level: Levels)
    requires Wired(nodes) && forall i :: 0 <= i < |nodes| && nodes[i].movement ==> nodes[i].key !in levelOf
    ensures Resolved(nodes, levelOf, level, |nodes|)
  {
    level := levelOf;
    for i := 0 to |nodes|
      invariant Resolved(nodes, levelOf, level, i)
    {
      InheritedStep(nodes, levelOf, i);
      OneMoreResolved(nodes, levelOf, level, i);
      if nodes[i].movement && nodes[i].source.Some? {
        var p := nodes[nodes[i].source.value].key;
        hide Inherited, OthersKept, Wired;
        if p in level {
          level := level[nodes[i].key := level[p]];
        }
      }
    }
  }

  lemma InheritedStep(nodes: seq<Placed>, levelOf: Levels, i: nat)
    requires Wired(nodes) && i < |nodes|
    ensures !nodes[i].movement ==> Inherited(nodes, levelOf, i) == Get(levelOf, nodes[i].key)
    ensures nodes[i].movement && nodes[i].source.None? ==> Inherited(nodes, levelOf, i) == None
    ensures nodes[i].movement && nodes[i].source.Some? ==>
              && nodes[i].source.value < i
              && Inherited(nodes, levelOf, i) == Inherited(nodes, levelOf, nodes[i].source.value)
  {
  }

  lemma SettledStep(nodes: seq<Placed>, levelOf: Levels, i: nat)
    requires Wired(nodes) && i < |nodes|
    ensures Settled(nodes, levelOf, i) ==
              if !nodes[i].movement || Inherited(nodes, levelOf, i).Some? then Inherited(nodes, levelOf, i)
              else FirstSettled(nodes, levelOf, i, |nodes[i].consumers|)
  {
  }

  lemma SetKeepsOthers(nodes: seq<Placed>, levelOf: Levels, level: Levels, i: nat, lv: string)
    requires i < |nodes| && OthersKept(nodes, levelOf, level)
    ensures OthersKept(nodes, levelOf, level[nodes[i].key := lv])
  {
  }

  /** Producers first, then consumers in reverse. */
  method PropagateLevels(nodes: seq<Placed>, levelOf: Levels) returns (level: Levels)
    requires Wired(nodes) && forall i :: 0 <= i < |nodes| && nodes[i].movement ==> nodes[i].key !in levelOf
    ensures forall i :: 0 <= i < |nodes| ==> Get(level, nodes[i].key) == Settled(nodes, levelOf, i)
    ensures OthersKept(nodes, levelOf, level)
  {
    level := FromProducers(nodes, levelOf);
    for i := |nodes| downto 0
      invariant forall j :: 0 <= j < i ==> Get(level, nodes[j].key) == Inherited(nodes, levelOf, j)
      invariant forall j :: i <= j < |nodes| ==> Get(level, nodes[j].key) == Settled(nodes, levelOf, j)
      invariant OthersKept(nodes, levelOf, level)
    {
      SettledStep(nodes, levelOf, i);
      hide Inherited, Settled, FirstSettled, OthersKept;
      if nodes[i].movement && nodes[i].key !in level {
        var found := FirstLevel(nodes, levelOf, level, i);
        if found.Some? {
          SetKeepsOthers(nodes, levelOf, level, i, found.value);
          level := level[nodes[i].key := found.value];
        }
      }
    }
  }

  method FirstLevel(nodes: seq<Placed>, ghost levelOf: Levels, level: Levels, i: nat) returns (found: Option<string>)
    requires Wired(nodes) && i < |nodes|
    requires forall j :: i < j < |nodes| ==> Get(level, nodes[j].key) == Settled(nodes, levelOf, j)
    ensures found == FirstSettled(nodes, levelOf, i, |nodes[i].consumers|)
  {
    found := None;
    for n := 0 to |nodes[i].consumers|
      invariant found == None == FirstSettled(nodes, levelOf, i, n)
    {
      var c := nodes[i].consumers[n];
      assert c in nodes[i].consumers;
      if nodes[c].key in level {
        found := Some(level[nodes[c].key]);
        FirstStays(nodes, levelOf, i, n + 1, |nodes[i].consumers|);
        return;
      }
    }
  }

  lemma {:induction false} FirstStays(nodes: seq<Placed>, levelOf: Levels, i: nat, m: nat, n: nat)
    requires Wired(nodes) && i < |nodes| && m <= n <= |nodes[i].consumers| && FirstSettled(nodes, levelOf, i, m).Some?
    ensures FirstSettled(nodes, levelOf, i, n) == FirstSettled(nodes, levelOf, i, m)
  {
    if m < n {
      FirstStays(nodes, levelOf, i, m, n - 1);
    }
  }

  /** A chain fed by a leveled compute node is at that node's level, all along. */
  ghost predicate FedBy(nodes: seq<Placed>, i: nat, c: nat)
    requires Wired(nodes) && i < |nodes|
  {
    if !nodes[i].movement then i == c else nodes[i].source.Some? && FedBy(nodes, nodes[i].source.value, c)
  }

  lemma {:induction false} ChainTakesProducersLevel(nodes: seq<Placed>, levelOf: Levels, i: nat, c: nat)
    requires Wired(nodes) && i < |nodes| && FedBy(nodes, i, c)
    ensures c < |nodes| && Inherited(nodes, levelOf, i) == Get(levelOf, nodes[c].key)
    ensures nodes[c].key in levelOf ==> Settled(nodes, levelOf, i) == Some(levelOf[nodes[c].key])
  {
    if nodes[i].movement {
      ChainTakesProducersLevel(nodes, levelOf, nodes[i].source.value, c);
    }
  }

  // --- When a movement node follows its producer ----------------------------------------------------

  /** The compute node at the head of the chain. */
  ghost function Head(nodes: seq<Placed>, i: nat): (h: Option<nat>)
    requires Wired(nodes) && i < |nodes|
    ensures h.Some? ==> h.value < |nodes| && !nodes[h.value].movement
  {
    if !nodes[i].movement then Some(i)
    else
      match nodes[i].source
      case None => None
      case Some(p) => Head(nodes, p)
  }

  /** The compute node whose level a node takes: the head of its chain, or else that of the first consumer that
      has one. It depends on the graph alone. */
  ghost function Leaf(nodes: seq<Placed>, i: nat): (c: Option<nat>)
    requires Wired(nodes) && i < |nodes|
    ensures c.Some? ==> c.value < |nodes| && !nodes[c.value].movement
    decreases |nodes| - i, 1, 0
  {
    if Head(nodes, i).Some? then Head(nodes, i) else FirstLeaf(nodes, i, |nodes[i].consumers|)
  }

  ghost function FirstLeaf(nodes: seq<Placed>, i: nat, n: nat): (c: Option<nat>)
    requires Wired(nodes) && i < |nodes| && n <= |nodes[i].consumers|
    ensures c.Some? ==> c.value < |nodes| && !nodes[c.value].movement
    decreases |nodes| - i, 0, n
  {
    if n == 0 then None
    else
      var before := FirstLeaf(nodes, i, n - 1);
      if before.Some? then before
      else
        assert nodes[i].consumers[n - 1] in nodes[i].consumers;
        Leaf(nodes, nodes[i].consumers[n - 1])
  }

  /** Every compute node has a level. */
  ghost predicate AllLeveled(nodes: seq<Placed>, levelOf: Levels) {
    forall i :: 0 <= i < |nodes| && !nodes[i].movement ==> nodes[i].key in levelOf
  }

  ghost function LevelAt(nodes: seq<Placed>, levelOf: Levels, c: Option<nat>): Option<string>
    requires c.Some? ==> c.value < |nodes|
  {
    match c
    case None => None
    case Some(h) => Get(levelOf, nodes[h].key)
  }

  lemma {:induction false} InheritedAtHead(nodes: seq<Placed>, levelOf: Levels, i: nat)
    requires Wired(nodes) && i < |nodes| && AllLeveled(nodes, levelOf)
    ensures Inherited(nodes, levelOf, i) == LevelAt(nodes, levelOf, Head(nodes, i))
    ensures Inherited(nodes, levelOf, i).Some? <==> Head(nodes, i).Some?
  {
    if nodes[i].movement && nodes[i].source.Some? {
      InheritedAtHead(nodes, levelOf, nodes[i].source.value);
    }
  }

  /** Every node ends at the level of its leaf. */
  lemma {:induction false} SettledAtLeaf(nodes: seq<Placed>, levelOf: Levels, i: nat)
    requires Wired(nodes) && i < |nodes| && AllLeveled(nodes, levelOf)
    ensures Settled(nodes, levelOf, i) == LevelAt(nodes, levelOf, Leaf(nodes, i))
    ensures Settled(nodes, levelOf, i).Some? <==> Leaf(nodes, i).Some?
    decreases |nodes| - i, 1, 0
  {
    InheritedAtHead(nodes, levelOf, i);
    if Head(nodes, i).None? {
      FirstAtLeaf(nodes, levelOf, i, |nodes[i].consumers|);
    }
  }

  lemma {:induction false} FirstAtLeaf(nodes: seq<Placed>, levelOf: Levels, i: nat, n: nat)
    requires Wired(nodes) && i < |nodes| && n <= |nodes[i].consumers| && AllLeveled(nodes, levelOf)
    ensures FirstSettled(nodes, levelOf, i, n) == LevelAt(nodes, levelOf, FirstLeaf(nodes, i, n))
    ensures FirstSettled(nodes, levelOf, i, n).Some? <==> FirstLeaf(nodes, i, n).Some?
    decreases |nodes| - i, 0, n
  {
    if n > 0 {
      FirstAtLeaf(nodes, levelOf, i, n - 1);
      assert nodes[i].consumers[n - 1] in nodes[i].consumers;
      SettledAtLeaf(nodes, levelOf, nodes[i].consumers[n - 1]);
    }
  }

  /** A movement node ends at its producer's level exactly when their leaves are at one level. */
  lemma FollowsExactlyWhen(nodes: seq<Placed>, levelOf: Levels, i: nat)
    requires Wired(nodes) && i < |nodes| && AllLeveled(nodes, levelOf) && nodes[i].movement && nodes[i].source.Some?
    ensures Settled(nodes, levelOf, i) == Settled(nodes, levelOf, nodes[i].source.value)
       <==> LevelAt(nodes, levelOf, Leaf(nodes, i)) == LevelAt(nodes, levelOf, Leaf(nodes, nodes[i].source.value))
  {
    SettledAtLeaf(nodes, levelOf, i);
    SettledAtLeaf(nodes, levelOf, nodes[i].source.value);
  }

  /** Compute node c at one level, all others at another. */
  ghost function Marked(nodes: seq<Placed>, c: Option<nat>): Levels {
    var keys := set i | 0 <= i < |nodes| && !nodes[i].movement :: nodes[i].key;
    map x | x in keys :: if c.Some? && c.value < |nodes| && nodes[c.value].key == x then "float" else "uint8"
  }

  /** It does so under every assignment of levels exactly when the two have the same leaf. */
  lemma AlwaysFollowsExactlyWhen(nodes: seq<Placed>, i: nat)
    requires Wired(nodes) && i < |nodes| && nodes[i].movement && nodes[i].source.Some?
    ensures (forall levelOf :: AllLeveled(nodes, levelOf) ==>
               Settled(nodes, levelOf, i) == Settled(nodes, levelOf, nodes[i].source.value))
       <==> Leaf(nodes, i) == Leaf(nodes, nodes[i].source.value)
  {
    var p := nodes[i].source.value;
    forall levelOf | AllLeveled(nodes, levelOf) && Leaf(nodes, i) == Leaf(nodes, p)
      ensures Settled(nodes, levelOf, i) == Settled(nodes, levelOf, p)
    {
      FollowsExactlyWhen(nodes, levelOf, i);
    }
    if Leaf(nodes, i) != Leaf(nodes, p) {
      var levelOf := Marked(nodes, Leaf(nodes, i));
      SettledAtLeaf(nodes, levelOf, i);
      SettledAtLeaf(nodes, levelOf, p);
      assert "float"[0] != "uint8"[0];
    }
  }

  /** A chain fed by a graph input need not be at one level: its head takes its own first consumer's. */
  lemma InputFedChainMaySplit()
    ensures var nodes := [Placed("reshape", true, None, [1, 2]), Placed("a", false, None, []),
                          Placed("slice", true, Some(0), [3]), Placed("b", false, None, [])];
            var levelOf := map["a" := "uint8", "b" := "float"];
            && Wired(nodes)
            && Settled(nodes, levelOf, 0) == Some("uint8") && Settled(nodes, levelOf, 2) == Some("float")
  {
    var nodes := [Placed("reshape", true, None, [1, 2]), Placed("a", false, None, []),
                  Placed("slice", true, Some(0), [3]), Placed("b", false, None, [])];
    var levelOf := map["a" := "uint8", "b" := "float"];
    assert "reshape"[0] != "a"[0] && "reshape"[0] != "slice"[0] && "reshape"[0] != "b"[0];
    assert "a"[0] != "slice"[0] && "a"[0] != "b"[0] && "slice"[0] != "b"[0];
    assert Wired(nodes);
    assert Inherited(nodes, levelOf, 0) == None && Inherited(nodes, levelOf, 2) == None;
    assert Settled(nodes, levelOf, 1) == Some("uint8") && Settled(nodes, levelOf, 3) == Some("float");
    assert FirstSettled(nodes, levelOf, 0, 0) == None && FirstSettled(nodes, levelOf, 0, 1) == Some("uint8");
    FirstStays(nodes, levelOf, 0, 1, 2);
    assert FirstSettled(nodes, levelOf, 2, 0) == None && FirstSettled(nodes, levelOf, 2, 1) == Some("float");
  }
}
