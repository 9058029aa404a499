/** How much a set of flagged nodes fragments a graph: islands of the others, and edges across. */
module Fragmentation {
  import opened Common
  import opened OnnxGraph

  // --- Paths and components -------------------------------------------------------------------

  /** Neighbour sets of nodes 0..n, symmetric. */
  ghost predicate Undirected(adj: seq<set<nat>>) {
    && (forall x, y :: 0 <= x < |adj| && y in adj[x] ==> y < |adj|)
    && (forall x, y :: 0 <= x < |adj| && 0 <= y < |adj| && y in adj[x] ==> x in adj[y])
  }

  ghost predicate Path(adj: seq<set<nat>>, p: seq<nat>) {
    && p != [] && (forall k :: 0 <= k < |p| ==> p[k] < |adj|)
    && forall k :: 0 < k < |p| ==> p[k] in adj[p[k - 1]]
  }

  ghost predicate Connected(adj: seq<set<nat>>, x: nat, y: nat) {
    exists p :: Path(adj, p) && p[0] == x && p[|p| - 1] == y
  }

  ghost function Component(adj: seq<set<nat>>, x: nat): set<nat> { set y: nat | y < |adj| && Connected(adj, x, y) }

  /** The components of the nodes outside flagged. */
  ghost function Components(adj: seq<set<nat>>, flagged: set<nat>): set<set<nat>> {
    ComponentsBelow(adj, flagged, |adj|)
  }

  ghost function ComponentsBelow(adj: seq<set<nat>>, flagged: set<nat>, i: nat): set<set<nat>>
    requires i <= |adj|
  {
    set x: nat | x < i && x !in flagged :: Component(adj, x)
  }

  lemma ComponentHasStart(adj: seq<set<nat>>, x: nat)
    requires x < |adj|
    ensures x in Component(adj, x)
  {
    assert Path(adj, [x]) && [x][0] == x && [x][|[x]| - 1] == x;
  }

  lemma ComponentGrows(adj: seq<set<nat>>, x: nat, y: nat, z: nat)
    requires Undirected(adj) && y in Component(adj, x) && z in adj[y]
    ensures z in Component(adj, x)
  {
    var p :| Path(adj, p) && p[0] == x && p[|p| - 1] == y;
    var q := p + [z];
    assert Path(adj, q) && q[0] == x && q[|q| - 1] == z;
  }

  lemma {:induction false} ClosedHoldsPath(adj: seq<set<nat>>, s: set<nat>, p: seq<nat>)
    requires Path(adj, p) && p[0] in s && forall x, y :: x in s && x < |adj| && y in adj[x] ==> y in s
    ensures p[|p| - 1] in s
    decreases |p|
  {
    if |p| > 1 {
      var q := p[..|p| - 1];
      assert Path(adj, q);
      ClosedHoldsPath(adj, s, q);
      assert p[|p| - 1] in adj[p[|p| - 2]] && q[|q| - 1] == p[|p| - 2];
    }
  }

  /** A set closed under neighbours holds the component of each of its members. */
  lemma ClosedHoldsComponent(adj: seq<set<nat>>, s: set<nat>, x: nat)
    requires x in s && forall y, z :: y in s && y < |adj| && z in adj[y] ==> z in s
    ensures Component(adj, x) <= s
  {
    forall y | y in Component(adj, x) ensures y in s {
      var p :| Path(adj, p) && p[0] == x && p[|p| - 1] == y;
      ClosedHoldsPath(adj, s, p);
    }
  }

  lemma ReversedPath(adj: seq<set<nat>>, p: seq<nat>) returns (q: seq<nat>)
    requires Undirected(adj) && Path(adj, p)
    ensures Path(adj, q) && q[0] == p[|p| - 1] && q[|q| - 1] == p[0]
  {
    q := seq(|p|, k requires 0 <= k < |p| => p[|p| - 1 - k]);
    forall k | 0 < k < |q| ensures q[k] in adj[q[k - 1]] {
      var m := |p| - k;
      assert p[m] in adj[p[m - 1]];
    }
  }

  /** Members of a component have the same component. */
  lemma ComponentShared(adj: seq<set<nat>>, x: nat, y: nat)
    requires Undirected(adj) && x < |adj| && y in Component(adj, x)
    ensures Component(adj, y) == Component(adj, x)
  {
    forall u, v | u in Component(adj, x) && v in adj[u] ensures v in Component(adj, x) {
      ComponentGrows(adj, x, u, v);
    }
    ClosedHoldsComponent(adj, Component(adj, x), y);
    var p :| Path(adj, p) && p[0] == x && p[|p| - 1] == y;
    var q := ReversedPath(adj, p);
    assert x in Component(adj, y);
    forall u, v | u in Component(adj, y) && v in adj[u] ensures v in Component(adj, y) {
      ComponentGrows(adj, y, u, v);
    }
    ClosedHoldsComponent(adj, Component(adj, y), x);
  }

  /** No island means everything is flagged; one island means all unflagged nodes hang together. */
  lemma IslandsMean(adj: seq<set<nat>>, flagged: set<nat>)
    requires Undirected(adj)
    ensures |Components(adj, flagged)| == 0 <==> forall x: nat :: x < |adj| ==> x in flagged
    ensures |Components(adj, flagged)| <= 1 <==>
              forall x: nat, y: nat :: x < |adj| && y < |adj| && x !in flagged && y !in flagged ==> Connected(adj, x, y)
  {
    var comps := Components(adj, flagged);
    forall x: nat | x < |adj| && x !in flagged ensures Component(adj, x) in comps && x in Component(adj, x) {
      ComponentHasStart(adj, x);
    }
    forall x: nat, y: nat | x < |adj| && y < |adj| && x !in flagged && y !in flagged
      ensures Component(adj, x) == Component(adj, y) <==> Connected(adj, x, y)
    {
      if Connected(adj, x, y) {
        ComponentShared(adj, x, y);
      }
      assert Component(adj, x) == Component(adj, y) ==> y in Component(adj, x);
    }
    if |comps| <= 1 {
      forall x: nat, y: nat | x < |adj| && y < |adj| && x !in flagged && y !in flagged ensures Connected(adj, x, y) {
        AtMostOne(comps, Component(adj, x), Component(adj, y));
      }
    } else {
      var c, d := TwoMembers(comps);
      var x: nat :| x < |adj| && x !in flagged && Component(adj, x) == c;
      var y: nat :| y < |adj| && y !in flagged && Component(adj, y) == d;
      assert !Connected(adj, x, y);
    }
  }

  lemma AtMostOne<T>(s: set<T>, a: T, b: T)
    requires |s| <= 1 && a in s && b in s
    ensures a == b
  {
    assert |s - {a}| == 0;
    assert s == {a} + (s - {a});
  }

  lemma TwoMembers<T>(s: set<T>) returns (a: T, b: T)
    requires |s| > 1
    ensures a in s && b in s && a != b
  {
    assert s != {};
    a :| a in s;
    assert |s - {a}| > 0;
    b :| b in s - {a};
  }

  // --- The stack search ---------------------------------------------------------------------------

  function Nodes(n: nat): (s: set<nat>)
    ensures forall x: nat :: x in s <==> x < n
  {
    if n == 0 then {} else Nodes(n - 1) + {n - 1}
  }

  /** Everything outside the stack has had its neighbours visited. */
  ghost predicate Explored(adj: seq<set<nat>>, visited: set<nat>, stack: seq<nat>) {
    forall x, y :: x in visited && x !in stack && x < |adj| && y in adj[x] ==> y in visited
  }

  /** One search visits exactly the component of its start. */
  method Search(adj: seq<set<nat>>, start: nat, visited0: set<nat>) returns (visited: set<nat>)
    requires Undirected(adj) && start < |adj| && start !in visited0 && visited0 <= Nodes(|adj|)
    requires forall x, y :: x in visited0 && y in adj[x] ==> y in visited0
    ensures visited == visited0 + Component(adj, start)
    ensures visited0 !! Component(adj, start)
  {
    ghost var comp := Component(adj, start);
    ComponentHasStart(adj, start);
    forall x, y | x in comp && y in adj[x] ensures y in comp {
      ComponentGrows(adj, start, x, y);
    }
    ApartFromVisited(adj, start, visited0);
    var stack := [start];
    visited := visited0 + {start};
    assert Explored(adj, visited, stack);
    hide Component, Explored, Undirected, Nodes;
    while stack != []
      invariant visited0 + {start} <= visited <= visited0 + comp && visited <= Nodes(|adj|)
      invariant forall x :: x in stack ==> x in visited
      invariant forall x :: x in stack ==> x in comp
      invariant Explored(adj, visited, stack)
      decreases |Nodes(|adj|) - visited|, |stack|
    {
      Popped(stack);
      var cur := stack[|stack| - 1];
      stack := stack[..|stack| - 1];
      ghost var seen := visited;
      visited, stack := VisitNeighbours(adj, cur, visited, stack);
      VisitedShrinks(Nodes(|adj|), seen, visited);
    }
    ExploredIsClosed(adj, visited);
    ClosedHoldsComponent(adj, visited, start);
  }

  lemma ExploredIsClosed(adj: seq<set<nat>>, visited: set<nat>)
    requires Explored(adj, visited, [])
    ensures forall y, z :: y in visited && y < |adj| && z in adj[y] ==> z in visited
  {
  }

  lemma Popped<T>(stack: seq<T>)
    requires stack != []
    ensures stack == stack[..|stack| - 1] + [stack[|stack| - 1]]
    ensures stack[|stack| - 1] in stack && forall x :: x in stack[..|stack| - 1] ==> x in stack
  {
  }

  /** Push every neighbour not yet visited, in whatever order the set is walked. */
  method VisitNeighbours(adj: seq<set<nat>>, cur: nat, visited0: set<nat>, stack0: seq<nat>)
    returns (visited: set<nat>, stack: seq<nat>)
    requires Undirected(adj) && cur < |adj| && cur in visited0 && visited0 <= Nodes(|adj|)
    requires forall x :: x in stack0 ==> x in visited0
    requires Explored(adj, visited0, stack0 + [cur])
    ensures visited == visited0 + adj[cur] && visited <= Nodes(|adj|)
    ensures forall x :: x in stack ==> x in visited && (x in stack0 || x in adj[cur])
    ensures Explored(adj, visited, stack)
    ensures visited == visited0 ==> stack == stack0
  {
    visited, stack := visited0, stack0;
    var todo := adj[cur];
    while todo != {}
      invariant todo <= adj[cur] && visited == visited0 + (adj[cur] - todo)
      invariant forall x :: x in stack ==> x in visited && (x in stack0 || x in adj[cur])
      invariant forall x :: x in stack0 || (x in visited && x !in visited0) ==> x in stack
      invariant visited == visited0 ==> stack == stack0
      decreases |todo|
    {
      var nxt :| nxt in todo;
      todo := todo - {nxt};
      if nxt !in visited {
        visited := visited + {nxt};
        stack := stack + [nxt];
      }
    }
    forall x, y | x in visited && x !in stack && x < |adj| && y in adj[x] ensures y in visited {
      if x != cur {
        assert x in visited0 && x !in stack0 + [cur];
      }
    }
  }

  lemma VisitedShrinks(all: set<nat>, before: set<nat>, after: set<nat>)
    requires before <= after <= all
    ensures |all - after| <= |all - before|
    ensures after != before ==> |all - after| < |all - before|
  {
    if after != before {
      assert all - before == (all - after) + (after - before);
      assert |after - before| > 0;
    }
  }

  lemma ApartFromVisited(adj: seq<set<nat>>, start: nat, visited0: set<nat>)
    requires Undirected(adj) && start < |adj| && start !in visited0 && visited0 <= Nodes(|adj|)
    requires forall x, y :: x in visited0 && y in adj[x] ==> y in visited0
    ensures visited0 !! Component(adj, start)
  {
    forall x | x in visited0 && x in Component(adj, start) ensures false {
      ComponentShared(adj, start, x);
      ComponentHasStart(adj, start);
      ClosedHoldsComponent(adj, visited0, x);
    }
  }

  ghost predicate Covers(adj: seq<set<nat>>, comps: set<set<nat>>, visited: set<nat>) {
    && (forall c, x :: c in comps && x in c ==> x in visited)
    && (forall x :: x in visited ==> exists c :: c in comps && x in c)
  }

  /** One search from every unflagged node not visited yet: as many as there are components. */
  method CountIslands(adj: seq<set<nat>>, flagged: set<nat>) returns (count: nat)
    requires Undirected(adj)
    ensures count == |Components(adj, flagged)|
  {
    var visited: set<nat> := {};
    count := 0;
    assert ComponentsBelow(adj, flagged, 0) == {};
    for i := 0 to |adj|
      invariant count == |ComponentsBelow(adj, flagged, i)|
      invariant visited <= Nodes(|adj|)
      invariant forall x, y :: x in visited && y in adj[x] ==> y in visited
      invariant Covers(adj, ComponentsBelow(adj, flagged, i), visited)
    {
      ghost var comps := ComponentsBelow(adj, flagged, i);
      OneMoreComponent(adj, flagged, i);
      if i in flagged {
      } else if i in visited {
        AlreadyCounted(adj, flagged, i, visited);
      } else {
        ghost var seen := visited;
        count := count + 1;
        visited := Search(adj, i, visited);
        NewComponent(adj, comps, i, seen, visited);
      }
    }
  }

  lemma OneMoreComponent(adj: seq<set<nat>>, flagged: set<nat>, i: nat)
    requires i < |adj|
    ensures ComponentsBelow(adj, flagged, i + 1)
              == ComponentsBelow(adj, flagged, i) + if i in flagged then {} else {Component(adj, i)}
  {
  }

  lemma AlreadyCounted(adj: seq<set<nat>>, flagged: set<nat>, i: nat, visited: set<nat>)
    requires Undirected(adj) && i < |adj| && i in visited && Covers(adj, ComponentsBelow(adj, flagged, i), visited)
    ensures Component(adj, i) in ComponentsBelow(adj, flagged, i)
  {
    var c :| c in ComponentsBelow(adj, flagged, i) && i in c;
    var x: nat :| x < i && x !in flagged && c == Component(adj, x);
    ComponentShared(adj, x, i);
  }

  lemma NewComponent(adj: seq<set<nat>>, comps: set<set<nat>>, i: nat, seen: set<nat>, visited: set<nat>)
    requires Undirected(adj) && i < |adj| && Covers(adj, comps, seen) && i !in seen
    requires visited == seen + Component(adj, i)
    requires forall x, y :: x in seen && x < |adj| && y in adj[x] ==> y in seen
    ensures Component(adj, i) !in comps && Covers(adj, comps + {Component(adj, i)}, visited)
    ensures forall x, y :: x in visited && x < |adj| && y in adj[x] ==> y in visited
  {
    ComponentHasStart(adj, i);
    forall x, y | x in visited && x < |adj| && y in adj[x] ensures y in visited {
      if x in Component(adj, i) {
        ComponentGrows(adj, i, x, y);
      }
    }
    forall x | x in visited ensures exists c :: c in comps + {Component(adj, i)} && x in c {
      if x in seen {
        var c :| c in comps && x in c;
        assert c in comps + {Component(adj, i)};
      } else {
        assert Component(adj, i) in comps + {Component(adj, i)};
      }
    }
  }

  // --- Producer and consumer slots ---------------------------------------------------------------------

  datatype Slot = Slot(node: nat, at: nat)

  /** A value handed from an output slot to an input slot. */
  datatype Link = Link(from: Slot, to: Slot)

  function OutputRows(nodes: seq<Node>): seq<seq<string>> {
    seq(|nodes|, i requires 0 <= i < |nodes| => nodes[i].outputs)
  }

  function InputRows(nodes: seq<Node>): seq<seq<string>> {
    seq(|nodes|, i requires 0 <= i < |nodes| => nodes[i].inputs)
  }

  ghost predicate Named(rows: seq<seq<string>>, s: Slot, name: string) {
    s.node < |rows| && s.at < |rows[s.node]| && rows[s.node][s.at] == name && name != ""
  }

  /** All links of the graph: equal nonempty names, counted slot by slot. */
  ghost predicate IsLink(nodes: seq<Node>, l: Link) {
    exists name :: Named(OutputRows(nodes), l.from, name) && Named(InputRows(nodes), l.to, name)
  }

  ghost function Links(nodes: seq<Node>): set<Link> {
    set p, po, c, ci | 0 <= p < |nodes| && 0 <= po < |nodes[p].outputs| && 0 <= c < |nodes|
      && 0 <= ci < |nodes[c].inputs|
                       && nodes[p].outputs[po] == nodes[c].inputs[ci] != "" :: Link(Slot(p, po), Slot(c, ci))
  }

  /** A link between different nodes, one of them flagged. */
  predicate Crosses(l: Link, flagged: set<nat>) {
    l.from.node != l.to.node && (l.from.node in flagged) != (l.to.node in flagged)
  }

  /** A link between x and y, different nodes, neither flagged. */
  predicate Joins(l: Link, flagged: set<nat>, x: nat, y: nat) {
    && x != y && x !in flagged && y !in flagged
    && ((l.from.node == x && l.to.node == y) || (l.from.node == y && l.to.node == x))
  }

  ghost function Crossing(links: set<Link>, flagged: set<nat>): set<Link> { set l | l in links && Crosses(l, flagged) }

  ghost predicate Joined(links: set<Link>, flagged: set<nat>, x: nat, y: nat) {
    exists l :: l in links && Joins(l, flagged, x, y)
  }

  /** The unflagged nodes sharing a value, as neighbours. */
  ghost function Adjacency(nodes: seq<Node>, flagged: set<nat>): seq<set<nat>> {
    seq(|nodes|, x requires 0 <= x < |nodes| => set y: nat | y < |nodes| && Joined(Links(nodes), flagged, x, y))
  }

  /** list holds the nodes of slots: those named name, before row i column j, each once. */
  ghost predicate Listed(rows: seq<seq<string>>, list: seq<nat>, slots: seq<Slot>, name: string, i: nat, j: nat) {
    && |list| == |slots|
    && (forall a :: 0 <= a < |slots| ==>
          list[a] == slots[a].node && Named(rows, slots[a], name) && Earlier(slots[a], i, j))
    && (forall a, b :: 0 <= a < b < |slots| ==> slots[a] != slots[b])
    && (forall s :: Named(rows, s, name) && Earlier(s, i, j) ==> s in slots)
  }

  predicate Earlier(s: Slot, i: nat, j: nat) { s.node < i || (s.node == i && s.at < j) }

  function At<T>(m: map<string, seq<T>>, name: string): seq<T> { if name in m then m[name] else [] }

  /** The lists by name, of everything before row i column j. */
  ghost predicate Indexed(rows: seq<seq<string>>, m: map<string, seq<nat>>, slots: map<string, seq<Slot>>, i: nat,
                          j: nat) {
    "" !in m && forall name :: name != "" ==> Listed(rows, At(m, name), At(slots, name), name, i, j)
  }

  /** Append the node to the list of each name in its row. */
  method AddRow(rows: seq<seq<string>>, i: nat, m0: map<string, seq<nat>>, ghost slots0: map<string, seq<Slot>>)
    returns (m: map<string, seq<nat>>, ghost slots: map<string, seq<Slot>>)
    requires i < |rows| && Indexed(rows, m0, slots0, i, 0)
    ensures Indexed(rows, m, slots, i + 1, 0)
  {
    m, slots := m0, slots0;
    for j := 0 to |rows[i]|
      invariant Indexed(rows, m, slots, i, j)
    {
      var name := rows[i][j];
      ghost var wasM, wasSlots := m, slots;
      if name != "" {
        m := m[name := (if name in m then m[name] else []) + [i]];
        slots := slots[name := At(slots, name) + [Slot(i, j)]];
      }
      forall x | x != "" ensures Listed(rows, At(m, x), At(slots, x), x, i, j + 1) {
        assert Listed(rows, At(wasM, x), At(wasSlots, x), x, i, j);
        OneMoreSlot(rows, At(wasM, x), At(wasSlots, x), x, i, j);
      }
    }
    forall x | x != "" ensures Listed(rows, At(m, x), At(slots, x), x, i + 1, 0) {
      assert Listed(rows, At(m, x), At(slots, x), x, i, |rows[i]|);
      NextRow(rows, At(m, x), At(slots, x), x, i);
    }
  }

  lemma OneMoreSlot(rows: seq<seq<string>>, list: seq<nat>, slots: seq<Slot>, x: string, i: nat, j: nat)
    requires i < |rows| && j < |rows[i]| && x != "" && Listed(rows, list, slots, x, i, j)
    ensures rows[i][j] == x ==> Listed(rows, list + [i], slots + [Slot(i, j)], x, i, j + 1)
    ensures rows[i][j] != x ==> Listed(rows, list, slots, x, i, j + 1)
  {
    if rows[i][j] == x {
      assert Named(rows, Slot(i, j), x);
      forall s | Named(rows, s, x) && Earlier(s, i, j + 1) ensures s in slots + [Slot(i, j)] {
        assert Earlier(s, i, j) || s == Slot(i, j);
      }
    }
  }

  lemma NextRow(rows: seq<seq<string>>, list: seq<nat>, slots: seq<Slot>, x: string, i: nat)
    requires i < |rows| && Listed(rows, list, slots, x, i, |rows[i]|)
    ensures Listed(rows, list, slots, x, i + 1, 0)
  {
  }

  // --- Counting ---------------------------------------------------------------------------------------------

  /** count and adj are what the links handled so far give. */
  ghost predicate Tallied(links: set<Link>, flagged: set<nat>, count: nat, adj: seq<set<nat>>) {
    && count == |Crossing(links, flagged)|
    && (forall l :: l in links ==> l.from.node < |adj| && l.to.node < |adj|)
    && forall x, y :: 0 <= x < |adj| && 0 <= y ==> (y in adj[x] <==> Joined(links, flagged, x, y))
  }

  lemma OneMoreLink(links: set<Link>, flagged: set<nat>, count: nat, adj: seq<set<nat>>, l: Link)
    requires Tallied(links, flagged, count, adj) && l !in links && l.from.node < |adj| && l.to.node < |adj|
    ensures var p, c := l.from.node, l.to.node;
            && (Crosses(l, flagged) ==> Tallied(links + {l}, flagged, count + 1, adj))
            && (p == c || (p in flagged && c in flagged) ==> Tallied(links + {l}, flagged, count, adj))
            && (p != c && p !in flagged && c !in flagged ==>
                  Tallied(links + {l}, flagged, count, adj[p := adj[p] + {c}][c := adj[p := adj[p] + {c}][c] + {p}]))
  {
    var p, c := l.from.node, l.to.node;
    var more := links + {l};
    assert Crossing(more, flagged) == Crossing(links, flagged) + if Crosses(l, flagged) then {l} else {};
    forall x: nat, y: nat
      ensures Joined(more, flagged, x, y) <==> Joined(links, flagged, x, y) || Joins(l, flagged, x, y)
    {
      if Joins(l, flagged, x, y) {
        assert l in more;
      }
    }
  }

  /** One output slot against every input slot of the name. */
  method ForConsumers(p: nat, ghost from: Slot, cs: seq<nat>, ghost slots: seq<Slot>, flagged: set<nat>, count0: nat,
                      adj0: seq<set<nat>>, ghost links0: set<Link>)
    returns (count: nat, adj: seq<set<nat>>, ghost links: set<Link>)
    requires Tallied(links0, flagged, count0, adj0) && p == from.node < |adj0|
    requires |cs| == |slots| && forall b :: 0 <= b < |cs| ==> cs[b] == slots[b].node < |adj0|
    requires forall a, b :: 0 <= a < b < |slots| ==> slots[a] != slots[b]
    requires forall b :: 0 <= b < |slots| ==> Link(from, slots[b]) !in links0
    ensures links == links0 + LinksFrom(from, slots, |slots|)
    ensures |adj| == |adj0| && Tallied(links, flagged, count, adj)
  {
    count, adj, links := count0, adj0, links0;
    for b := 0 to |cs|
      invariant links == links0 + LinksFrom(from, slots, b)
      invariant |adj| == |adj0| && Tallied(links, flagged, count, adj)
    {
      var c := cs[b];
      OneMoreLink(links, flagged, count, adj, Link(from, slots[b]));
      links := links + {Link(from, slots[b])};
      if p != c {
        var pFlagged, cFlagged := p in flagged, c in flagged;
        if pFlagged != cFlagged {
          count := count + 1;
        } else if !pFlagged {
          adj := adj[p := adj[p] + {c}];
          adj := adj[c := adj[c] + {p}];
        }
      }
    }
  }

  ghost function LinksFrom(from: Slot, slots: seq<Slot>, b: nat): (s: set<Link>)
    requires b <= |slots|
    ensures forall l :: l in s <==> l.from == from && l.to in slots[..b]
  {
    if b == 0 then {}
    else
      assert slots[..b] == slots[..b - 1] + [slots[b - 1]];
      LinksFrom(from, slots, b - 1) + {Link(from, slots[b - 1])}
  }

  ghost function LinksBetween(ps: seq<Slot>, a: nat, cs: seq<Slot>): (s: set<Link>)
    requires a <= |ps|
    ensures forall l :: l in s <==> l.from in ps[..a] && l.to in cs
  {
    if a == 0 then {}
    else
      assert ps[..a] == ps[..a - 1] + [ps[a - 1]];
      assert cs[..|cs|] == cs;
      LinksBetween(ps, a - 1, cs) + LinksFrom(ps[a - 1], cs, |cs|)
  }

  /** Every producer slot of a name against every consumer slot. */
  method ForName(ps: seq<nat>, ghost froms: seq<Slot>, cs: seq<nat>, ghost tos: seq<Slot>, flagged: set<nat>,
                 count0: nat, adj0: seq<set<nat>>, ghost links0: set<Link>)
    returns (count: nat, adj: seq<set<nat>>, ghost links: set<Link>)
    requires Tallied(links0, flagged, count0, adj0)
    requires |ps| == |froms| && forall a :: 0 <= a < |ps| ==> ps[a] == froms[a].node < |adj0|
    requires |cs| == |tos| && forall b :: 0 <= b < |cs| ==> cs[b] == tos[b].node < |adj0|
    requires forall a, b :: 0 <= a < b < |froms| ==> froms[a] != froms[b]
    requires forall a, b :: 0 <= a < b < |tos| ==> tos[a] != tos[b]
    requires forall l :: l in links0 ==> l.from !in froms
    ensures links == links0 + LinksBetween(froms, |froms|, tos)
    ensures |adj| == |adj0| && Tallied(links, flagged, count, adj)
  {
    count, adj, links := count0, adj0, links0;
    for a := 0 to |ps|
      invariant links == links0 + LinksBetween(froms, a, tos)
      invariant |adj| == |adj0| && Tallied(links, flagged, count, adj)
    {
      hide Tallied;
      ghost var from := froms[a];
      assert from in froms && from !in froms[..a];
      count, adj, links := ForConsumers(ps[a], from, cs, tos, flagged, count, adj, links);
    }
  }

  /** The links of the names done so far. */
  ghost predicate LinksOf(nodes: seq<Node>, done: set<string>, links: set<Link>) {
    forall l :: l in links <==> DoneLink(nodes, done, l)
  }

  ghost predicate DoneLink(nodes: seq<Node>, done: set<string>, l: Link) {
    exists name :: name in done && Named(OutputRows(nodes), l.from, name) && Named(InputRows(nodes), l.to, name)
  }

  method IndexNodes(nodes: seq<Node>)
    returns (producers: map<string, seq<nat>>, ghost froms: map<string, seq<Slot>>, consumers: map<string, seq<nat>>,
             ghost tos: map<string, seq<Slot>>)
    ensures Indexed(OutputRows(nodes), producers, froms, |nodes|, 0)
    ensures Indexed(InputRows(nodes), consumers, tos, |nodes|, 0)
  {
    var outs, ins := OutputRows(nodes), InputRows(nodes);
    producers, consumers := map[], map[];
    froms, tos := map[], map[];
    for i := 0 to |nodes|
      invariant Indexed(outs, producers, froms, i, 0) && Indexed(ins, consumers, tos, i, 0)
    {
      producers, froms := AddRow(outs, i, producers, froms);
      consumers, tos := AddRow(ins, i, consumers, tos);
    }
  }

  /** All names, in whatever order the set is walked. */
  method Tally(nodes: seq<Node>, flagged: set<nat>, producers: map<string, seq<nat>>,
               ghost froms: map<string, seq<Slot>>, consumers: map<string, seq<nat>>, ghost tos: map<string, seq<Slot>>)
    returns (count: nat, adjacency: seq<set<nat>>)
    requires Indexed(OutputRows(nodes), producers, froms, |nodes|, 0)
    requires Indexed(InputRows(nodes), consumers, tos, |nodes|, 0)
    ensures |adjacency| == |nodes| && Tallied(Links(nodes), flagged, count, adjacency)
  {
    adjacency := seq(|nodes|, i => {});
    count := 0;
    ghost var links: set<Link> := {};
    var names := producers.Keys + consumers.Keys;
    var todo := names;
    NothingTallied(flagged, adjacency);
    NothingLinked(nodes);
    NoEmptyName(OutputRows(nodes), producers, froms, InputRows(nodes), consumers, tos, |nodes|);
    hide *;
    while todo != {}
      invariant todo <= names && LinksOf(nodes, names - todo, links)
      invariant |adjacency| == |nodes| && Tallied(links, flagged, count, adjacency)
      decreases |todo|
    {
      var name :| name in todo;
      ghost var done := names - todo;
      todo := todo - {name};
      count, adjacency, links := ForOneName(nodes, name, producers, froms, consumers, tos, flagged, count, adjacency,
                                            links, done);
      assert done + {name} == names - todo;
    }
    AllLinks(nodes, producers, froms, consumers, tos, names - todo, links);
  }

  lemma NothingLinked(nodes: seq<Node>)
    ensures forall names: set<string> :: LinksOf(nodes, names - names, {})
  {
  }

  datatype Report = Report(islandCount: nat, boundaryEdgeCount: nat)

  /** Islands are connected components of the unflagged nodes; boundary edges are links with one side flagged. */
  method EstimateFragmentation(nodes: seq<Node>, flagged: set<nat>) returns (r: Report)
    ensures r.islandCount == |Components(Adjacency(nodes, flagged), flagged)|
    ensures r.boundaryEdgeCount == |Crossing(Links(nodes), flagged)|
  {
    var producers, froms, consumers, tos := IndexNodes(nodes);
    var count, adjacency := Tally(nodes, flagged, producers, froms, consumers, tos);
    AdjacencyIs(nodes, flagged, count, adjacency);
    var islands := CountIslands(adjacency, flagged);
    r := Report(islands, count);
  }

  lemma NoEmptyName(outs: seq<seq<string>>, producers: map<string, seq<nat>>, froms: map<string, seq<Slot>>,
                    ins: seq<seq<string>>, consumers: map<string, seq<nat>>, tos: map<string, seq<Slot>>, i: nat)
    requires Indexed(outs, producers, froms, i, 0) && Indexed(ins, consumers, tos, i, 0)
    ensures "" !in producers.Keys + consumers.Keys
  {
  }

  lemma NothingTallied(flagged: set<nat>, adj: seq<set<nat>>)
    requires forall x :: 0 <= x < |adj| ==> adj[x] == {}
    ensures Tallied({}, flagged, 0, adj)
  {
    assert Crossing({}, flagged) == {};
  }

  /** The step for one name: its producer list against its consumer list. */
  method ForOneName(nodes: seq<Node>, name: string, producers: map<string, seq<nat>>,
                    ghost froms: map<string, seq<Slot>>, consumers: map<string, seq<nat>>,
                    ghost tos: map<string, seq<Slot>>, flagged: set<nat>, count0: nat, adj0: seq<set<nat>>,
                    ghost links0: set<Link>, ghost done: set<string>)
    returns (count: nat, adj: seq<set<nat>>, ghost links: set<Link>)
    requires Indexed(OutputRows(nodes), producers, froms, |nodes|, 0)
    requires Indexed(InputRows(nodes), consumers, tos, |nodes|, 0)
    requires name != "" && name !in done && LinksOf(nodes, done, links0)
    requires |adj0| == |nodes| && Tallied(links0, flagged, count0, adj0)
    ensures |adj| == |adj0| && Tallied(links, flagged, count, adj) && LinksOf(nodes, done + {name}, links)
  {
    var ps := if name in producers then producers[name] else [];
    var cs := if name in consumers then consumers[name] else [];
    ghost var from, to := At(froms, name), At(tos, name);
    assert Listed(OutputRows(nodes), ps, from, name, |nodes|, 0) && Listed(InputRows(nodes), cs, to, name, |nodes|, 0);
    forall l | l in links0 ensures l.from !in from {
      assert DoneLink(nodes, done, l);
      var other :| other in done && Named(OutputRows(nodes), l.from, other);
    }
    hide Tallied;
    count, adj, links := ForName(ps, from, cs, to, flagged, count0, adj0, links0);
    NameDone(nodes, name, ps, from, cs, to, done, links0);
  }

  lemma NameDone(nodes: seq<Node>, name: string, ps: seq<nat>, from: seq<Slot>, cs: seq<nat>, to: seq<Slot>,
                 done: set<string>, links: set<Link>)
    requires Listed(OutputRows(nodes), ps, from, name, |nodes|, 0) && Listed(InputRows(nodes), cs, to, name, |nodes|, 0)
    requires LinksOf(nodes, done, links)
    ensures LinksOf(nodes, done + {name}, links + LinksBetween(from, |from|, to))
  {
    var more := links + LinksBetween(from, |from|, to);
    assert from[..|from|] == from;
    forall l ensures l in more <==> DoneLink(nodes, done + {name}, l) {
      DoneGrows(nodes, done, name, l);
      hide Named;
      assert Named(OutputRows(nodes), l.from, name) <==> l.from in from;
      assert Named(InputRows(nodes), l.to, name) <==> l.to in to;
    }
  }

  lemma DoneGrows(nodes: seq<Node>, done: set<string>, name: string, l: Link)
    ensures DoneLink(nodes, done + {name}, l) <==>
              DoneLink(nodes, done, l) || (Named(OutputRows(nodes), l.from, name)
                                           && Named(InputRows(nodes), l.to, name))
  {
    hide Named;
    if x :| x in done && Named(OutputRows(nodes), l.from, x) && Named(InputRows(nodes), l.to, x) {
      assert x in done + {name};
    }
    assert name in done + {name};
  }

  /** Every link's name has been done by the end. */
  lemma AllLinks(nodes: seq<Node>, producers: map<string, seq<nat>>, froms: map<string, seq<Slot>>,
                 consumers: map<string, seq<nat>>, tos: map<string, seq<Slot>>, done: set<string>, links: set<Link>)
    requires Indexed(OutputRows(nodes), producers, froms, |nodes|, 0)
    requires done == producers.Keys + consumers.Keys && LinksOf(nodes, done, links)
    ensures links == Links(nodes)
  {
    forall l ensures l in links <==> l in Links(nodes) {
      LinkIsNamed(nodes, l);
      if name :| Named(OutputRows(nodes), l.from, name) && Named(InputRows(nodes), l.to, name) {
        assert Listed(OutputRows(nodes), At(producers, name), At(froms, name), name, |nodes|, 0);
        assert l.from in At(froms, name);
        assert name in producers;
      }
    }
  }

  lemma LinkIsNamed(nodes: seq<Node>, l: Link)
    ensures l in Links(nodes) <==> IsLink(nodes, l)
  {
    if l in Links(nodes) {
      var name := nodes[l.from.node].outputs[l.from.at];
      assert Named(OutputRows(nodes), l.from, name) && Named(InputRows(nodes), l.to, name);
    }
    if IsLink(nodes, l) {
      var name :| Named(OutputRows(nodes), l.from, name) && Named(InputRows(nodes), l.to, name);
      var p, po, c, ci := l.from.node, l.from.at, l.to.node, l.to.at;
      assert nodes[p].outputs[po] == nodes[c].inputs[ci] != "";
      assert l == Link(Slot(p, po), Slot(c, ci));
    }
  }

  lemma AdjacencyIs(nodes: seq<Node>, flagged: set<nat>, count: nat, adj: seq<set<nat>>)
    requires |adj| == |nodes| && Tallied(Links(nodes), flagged, count, adj)
    ensures adj == Adjacency(nodes, flagged) && Undirected(adj)
  {
    hide Links;
    forall x, y | 0 <= x < |adj| && 0 <= y && y in adj[x] ensures y < |adj| {
      assert Joined(Links(nodes), flagged, x, y);
    }
    forall x, y | 0 <= x < |adj| && 0 <= y < |adj|
      ensures Joined(Links(nodes), flagged, x, y) ==> Joined(Links(nodes), flagged, y, x)
    {
      if Joined(Links(nodes), flagged, x, y) {
        var l :| l in Links(nodes) && Joins(l, flagged, x, y);
        assert Joins(l, flagged, y, x);
      }
    }
    forall x | 0 <= x < |adj| ensures adj[x] == Adjacency(nodes, flagged)[x] {
    }
  }
}
