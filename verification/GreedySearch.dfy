/** Greedy mixed-precision search: promote one group one step up the ladder until the score meets the budget. */
module GreedySearch {
  import opened Common

  datatype Group = Group(name: string, members: seq<string>)

  type Levels = map<string, string>

  /** score runs the whole model: the levels of its nodes, and the level of all others. */
  datatype Problem = Problem(groups: seq<Group>, ladder: seq<string>, budget: real, score: (Levels, string) -> real,
                             cost: string -> real, rerank: bool, maxSteps: Option<nat>)

  const LEVELS: set<string> := {"uint8", "uint16", "float"}

  ghost predicate DistinctNames(groups: seq<Group>) {
    forall i, j :: 0 <= i < j < |groups| ==> groups[i].name != groups[j].name
  }

  predicate HasName(groups: seq<Group>, g: string) { exists i :: 0 <= i < |groups| && groups[i].name == g }

  /** Where each group stands on the ladder. */
  type Positions = map<string, nat>

  ghost predicate OnLadder(p: Problem, idx: Positions) {
    && (forall g :: g in idx <==> HasName(p.groups, g))
    && forall g :: g in idx ==> idx[g] < |p.ladder|
  }

  function LevelsUpTo(p: Problem, idx: Positions, n: nat): Levels
    requires n <= |p.groups| && OnLadder(p, idx)
  {
    if n == 0 then map[]
    else
      var last := p.groups[n - 1];
      assert HasName(p.groups, last.name);
      var level := p.ladder[idx[last.name]];
      LevelsUpTo(p, idx, n - 1) + map x | x in last.members :: level
  }

  /** Every node at its group's level. */
  function LevelsOf(p: Problem, idx: Positions): Levels
    requires OnLadder(p, idx)
  {
    LevelsUpTo(p, idx, |p.groups|)
  }

  function Score(p: Problem, idx: Positions): real
    requires OnLadder(p, idx) && p.ladder != []
  {
    p.score(LevelsOf(p, idx), p.ladder[0])
  }

  /** In a partition into groups, a node is at its group's level. */
  lemma {:induction false} NodeAtGroupLevel(p: Problem, idx: Positions, n: nat, i: nat, x: string)
    requires i < n <= |p.groups| && OnLadder(p, idx) && x in p.groups[i].members
    requires forall j :: 0 <= j < |p.groups| && j != i ==> x !in p.groups[j].members
    ensures p.groups[i].name in idx && x in LevelsUpTo(p, idx, n)
    ensures LevelsUpTo(p, idx, n)[x] == p.ladder[idx[p.groups[i].name]]
  {
    assert HasName(p.groups, p.groups[i].name) && HasName(p.groups, p.groups[n - 1].name);
    if i < n - 1 {
      NodeAtGroupLevel(p, idx, n - 1, i, x);
    }
  }

  /** What a state is scored on: in a partition, every node at the ladder's level of its own group, the rest at the
      cheapest. */
  lemma ScoreIs(p: Problem, idx: Positions, levels: Levels)
    requires OnLadder(p, idx) && p.ladder != []
    requires forall i, j, x :: 0 <= i < j < |p.groups| && x in p.groups[i].members ==> x !in p.groups[j].members
    requires forall x :: x in levels <==> exists i :: 0 <= i < |p.groups| && x in p.groups[i].members
    requires forall i, x :: 0 <= i < |p.groups| && x in p.groups[i].members ==>
               p.groups[i].name in idx && x in levels && levels[x] == p.ladder[idx[p.groups[i].name]]
    ensures Score(p, idx) == p.score(levels, p.ladder[0])
  {
    hide LevelsUpTo, OnLadder;
    LevelsAreMembers(p, idx, |p.groups|);
    forall x
      ensures x in LevelsOf(p, idx) <==> x in levels
      ensures x in levels ==> LevelsOf(p, idx)[x] == levels[x]
    {
      if x in levels {
        var i :| 0 <= i < |p.groups| && x in p.groups[i].members;
        NodeAtGroupLevel(p, idx, |p.groups|, i, x);
      }
    }
    SameMaps(LevelsOf(p, idx), levels);
  }

  lemma SameMaps(a: Levels, b: Levels)
    requires forall x :: x in a <==> x in b
    requires forall x :: x in a ==> a[x] == b[x]
    ensures a == b
  {
  }

  lemma {:induction false} LevelsAreMembers(p: Problem, idx: Positions, n: nat)
    requires n <= |p.groups| && OnLadder(p, idx)
    ensures forall x :: x in LevelsUpTo(p, idx, n) ==> exists i :: 0 <= i < n && x in p.groups[i].members
  {
    if n > 0 {
      assert HasName(p.groups, p.groups[n - 1].name);
      LevelsAreMembers(p, idx, n - 1);
    }
  }

  // --- The trace ------------------------------------------------------------------------------

  datatype Traced = Traced(group: string, level: string, score: real)

  function StartPositions(groups: seq<Group>): Positions { map g | g in NamesOf(groups) :: 0 }

  function NamesOf(groups: seq<Group>): (s: set<string>)
    ensures forall g :: g in s <==> HasName(groups, g)
  {
    set i | 0 <= i < |groups| :: groups[i].name
  }

  function Promoted(idx: Positions, g: string): Positions { if g in idx then idx[g := idx[g] + 1] else idx }

  /** The positions after the first k promotions of a trace. */
  function Replay(p: Problem, trace: seq<Traced>, k: nat): Positions
    requires k < |trace|
  {
    if k == 0 then StartPositions(p.groups) else Promoted(Replay(p, trace, k - 1), trace[k].group)
  }

  ghost predicate Open(p: Problem, idx: Positions, g: string) { g in idx && idx[g] + 1 < |p.ladder| }

  /** The first group in ranked order that is not at the top. */
  ghost predicate FirstOpen(p: Problem, order: seq<Group>, idx: Positions, g: string) {
    exists i ::
      && 0 <= i < |order| && order[i].name == g && Open(p, idx, g)
      && forall j :: 0 <= j < i ==> !Open(p, idx, order[j].name)
  }

  /** a scores worse than b: a lower score, or the same at a higher cost. */
  predicate Worse(a: (real, real), b: (real, real)) { a.0 < b.0 || (a.0 == b.0 && a.1 < b.1) }

  ghost function TrialKey(p: Problem, idx: Positions, g: string): (real, real)
    requires OnLadder(p, idx) && Open(p, idx, g) && p.ladder != []
  {
    (Score(p, Promoted(idx, g)), -p.cost(g))
  }

  /** The first of the open groups whose one-step promotion no other one beats. */
  ghost predicate BestTrial(p: Problem, idx: Positions, g: string) {
    && p.ladder != [] && OnLadder(p, idx)
    && exists i :: 0 <= i < |p.groups| && p.groups[i].name == g && Open(p, idx, g)
         && (forall j :: 0 <= j < |p.groups| && Open(p, idx, p.groups[j].name) ==>
               !Worse(TrialKey(p, idx, g), TrialKey(p, idx, p.groups[j].name)))
         && (forall j :: 0 <= j < i && Open(p, idx, p.groups[j].name) ==>
               Worse(TrialKey(p, idx, p.groups[j].name), TrialKey(p, idx, g)))
  }

  /** What the best trial is, in scores and costs: no open group's promotion scores higher, none that scores the same is
      cheaper, and the first of those left is taken. */
  lemma BestTrialIs(p: Problem, idx: Positions, g: string)
    requires BestTrial(p, idx, g)
    ensures p.ladder != [] && OnLadder(p, idx)
    ensures exists i :: 0 <= i < |p.groups| && p.groups[i].name == g && Beats(p, idx, i)
  {
    hide OnLadder, Score, Promoted;
    var i :| 0 <= i < |p.groups| && p.groups[i].name == g && Open(p, idx, g)
         && (forall j :: 0 <= j < |p.groups| && Open(p, idx, p.groups[j].name) ==>
               !Worse(TrialKey(p, idx, g), TrialKey(p, idx, p.groups[j].name)))
         && (forall j :: 0 <= j < i && Open(p, idx, p.groups[j].name) ==>
               Worse(TrialKey(p, idx, p.groups[j].name), TrialKey(p, idx, g)));
    assert Beats(p, idx, i);
  }

  ghost predicate Beats(p: Problem, idx: Positions, i: nat)
    requires p.ladder != [] && OnLadder(p, idx) && i < |p.groups|
  {
    var g := p.groups[i].name;
    && Open(p, idx, g)
    && forall j :: 0 <= j < |p.groups| && Open(p, idx, p.groups[j].name) ==>
         var h := p.groups[j].name;
         var mine, other := Score(p, Promoted(idx, g)), Score(p, Promoted(idx, h));
         && (mine > other || (mine == other && p.cost(g) <= p.cost(h)))
         && (j < i ==> mine > other || (mine == other && p.cost(g) < p.cost(h)))
  }

  /** Entry k of the trace is a promotion made by the rules, from a score below the budget. */
  ghost predicate StepOk(p: Problem, order: seq<Group>, trace: seq<Traced>, k: nat)
    requires 0 < k < |trace|
  {
    var before, after := Replay(p, trace, k - 1), Replay(p, trace, k);
    && trace[k - 1].score < p.budget
    && (if p.rerank then BestTrial(p, before, trace[k].group) else FirstOpen(p, order, before, trace[k].group))
    && OnLadder(p, after) && p.ladder != [] && trace[k].group in after
    && trace[k].level == p.ladder[after[trace[k].group]]
    && trace[k].score == Score(p, after)
  }

  /** A whole run, from the start entry on. */
  ghost predicate Run(p: Problem, order: seq<Group>, trace: seq<Traced>) {
    && trace != [] && p.ladder != [] && OnLadder(p, StartPositions(p.groups))
    && trace[0] == Traced("<start>", p.ladder[0], Score(p, StartPositions(p.groups)))
    && forall k :: 0 < k < |trace| ==> StepOk(p, order, trace, k)
  }

  // --- How long a run can be ----------------------------------------------------------------------

  /** How many promotions there can be. */
  function Bound(p: Problem): nat
    requires p.ladder != []
  {
    |p.groups| * (|p.ladder| - 1)
  }

  function Total(groups: seq<Group>, idx: Positions, n: nat): nat
    requires n <= |groups| && forall g :: HasName(groups, g) ==> g in idx
  {
    if n == 0 then 0
    else
      assert HasName(groups, groups[n - 1].name);
      Total(groups, idx, n - 1) + idx[groups[n - 1].name]
  }

  lemma {:induction false} TotalBound(p: Problem, idx: Positions, n: nat)
    requires n <= |p.groups| && OnLadder(p, idx) && p.ladder != []
    ensures Total(p.groups, idx, n) <= n * (|p.ladder| - 1)
  {
    if n > 0 {
      TotalBound(p, idx, n - 1);
      assert HasName(p.groups, p.groups[n - 1].name);
      assert n * (|p.ladder| - 1) == (n - 1) * (|p.ladder| - 1) + (|p.ladder| - 1);
    }
  }

  lemma {:induction false} TotalPromoted(groups: seq<Group>, idx: Positions, n: nat, i: nat)
    requires n <= |groups| && i < |groups| && DistinctNames(groups) && forall g :: HasName(groups, g) ==> g in idx
    ensures Total(groups, Promoted(idx, groups[i].name), n) == Total(groups, idx, n) + if i < n then 1 else 0
  {
    assert HasName(groups, groups[i].name);
    if n > 0 {
      assert HasName(groups, groups[n - 1].name);
      TotalPromoted(groups, idx, n - 1, i);
    }
  }

  lemma {:induction false} TotalStart(groups: seq<Group>, n: nat)
    requires n <= |groups|
    ensures Total(groups, StartPositions(groups), n) == 0
  {
    if n > 0 {
      assert HasName(groups, groups[n - 1].name);
      TotalStart(groups, n - 1);
    }
  }

  /** Every promotion adds one step, so a run has at most groups * (levels - 1) of them. */
  lemma {:induction false} RunIsShort(p: Problem, order: seq<Group>, trace: seq<Traced>, k: nat)
    requires DistinctNames(p.groups) && Run(p, order, trace) && k < |trace|
    ensures OnLadder(p, Replay(p, trace, k))
    ensures Total(p.groups, Replay(p, trace, k), |p.groups|) == k <= Bound(p)
  {
    hide Score, FirstOpen, BestTrial, Total, Bound;
    if k == 0 {
      TotalStart(p.groups, |p.groups|);
      WithinBound(p, StartPositions(p.groups));
    } else {
      RunIsShort(p, order, trace, k - 1);
      assert StepOk(p, order, trace, k);
      StepAddsOne(p, Replay(p, trace, k - 1), trace[k].group);
      WithinBound(p, Replay(p, trace, k));
    }
  }

  lemma StepAddsOne(p: Problem, idx: Positions, g: string)
    requires DistinctNames(p.groups) && OnLadder(p, idx) && g in idx
    ensures Total(p.groups, Promoted(idx, g), |p.groups|) == Total(p.groups, idx, |p.groups|) + 1
  {
    var i :| 0 <= i < |p.groups| && p.groups[i].name == g;
    TotalPromoted(p.groups, idx, |p.groups|, i);
  }

  lemma WithinBound(p: Problem, idx: Positions)
    requires OnLadder(p, idx) && p.ladder != []
    ensures Total(p.groups, idx, |p.groups|) <= Bound(p)
  {
    TotalBound(p, idx, |p.groups|);
  }

  /** A group's level at the end is the one of its last entry, or the cheapest when it has none. */
  lemma {:induction false} ReplayGivesLevels(p: Problem, order: seq<Group>, trace: seq<Traced>, k: nat, g: string)
    requires Run(p, order, trace) && k < |trace| && HasName(p.groups, g)
    ensures g in Replay(p, trace, k)
    ensures (forall j :: 0 < j <= k ==> trace[j].group != g) ==> Replay(p, trace, k)[g] == 0
    ensures forall m :: 0 < m <= k && trace[m].group == g && (forall j :: m < j <= k ==> trace[j].group != g) ==>
              Replay(p, trace, k)[g] < |p.ladder| && p.ladder[Replay(p, trace, k)[g]] == trace[m].level
  {
    if k > 0 {
      ReplayGivesLevels(p, order, trace, k - 1, g);
      assert StepOk(p, order, trace, k);
    }
  }

  // --- Ranking ------------------------------------------------------------------------------------------

  /** Every node at level dt, those of group g float: what keeping g float buys. */
  function KeptFloat(groups: seq<Group>, dt: string, g: Group): Levels {
    AllAt(groups, dt, |groups|) + map x | x in g.members :: "float"
  }

  function AllAt(groups: seq<Group>, dt: string, n: nat): Levels
    requires n <= |groups|
  {
    if n == 0 then map[]
    else
      var last := groups[n - 1];
      AllAt(groups, dt, n - 1) + map x | x in last.members :: dt
  }

  function Sensitivity(p: Problem, g: Group): real
    requires p.ladder != []
  {
    var dt := if p.ladder[0] != "float" then p.ladder[0] else "uint8";
    p.score(KeptFloat(p.groups, dt, g), dt) - p.score(AllAt(p.groups, dt, |p.groups|), "float")
  }

  /** What a group's sensitivity is, from the two assignments alone: how much better the model scores with every node
      at the cheapest level but this group's at float than with all of them at the cheapest level. A ladder that starts
      at float is measured at uint8. */
  lemma SensitivityIsGain(p: Problem, g: Group, all: Levels, kept: Levels)
    requires p.ladder != [] && g in p.groups
    requires forall x :: x in all <==> exists i :: 0 <= i < |p.groups| && x in p.groups[i].members
    requires forall x :: x in kept <==> x in all
    requires var dt := if p.ladder[0] == "float" then "uint8" else p.ladder[0];
             && (forall x :: x in all ==> all[x] == dt)
             && (forall x :: x in kept ==> kept[x] == if x in g.members then "float" else dt)
    ensures p.ladder[0] == "float" ==> Sensitivity(p, g) == p.score(kept, "uint8") - p.score(all, "float")
    ensures p.ladder[0] != "float" ==> Sensitivity(p, g) == p.score(kept, p.ladder[0]) - p.score(all, "float")
  {
    hide AllAt, KeptFloat;
    var dt := if p.ladder[0] == "float" then "uint8" else p.ladder[0];
    AllAtIs(p.groups, dt, |p.groups|);
    SameMaps(AllAt(p.groups, dt, |p.groups|), all);
    var k :| 0 <= k < |p.groups| && p.groups[k] == g;
    forall x | x in g.members ensures x in all {
      assert x in p.groups[k].members;
    }
    KeptFloatIs(p.groups, dt, g, all);
    SameMaps(KeptFloat(p.groups, dt, g), kept);
  }

  lemma KeptFloatIs(groups: seq<Group>, dt: string, g: Group, all: Levels)
    requires all == AllAt(groups, dt, |groups|) && (forall x :: x in g.members ==> x in all)
    requires forall x :: x in all ==> all[x] == dt
    ensures forall x :: x in KeptFloat(groups, dt, g) <==> x in all
    ensures forall x :: x in all ==> KeptFloat(groups, dt, g)[x] == if x in g.members then "float" else dt
  {
  }

  lemma {:induction false} AllAtIs(groups: seq<Group>, dt: string, n: nat)
    requires n <= |groups|
    ensures forall x :: x in AllAt(groups, dt, n) <==> exists i :: 0 <= i < n && x in groups[i].members
    ensures forall x :: x in AllAt(groups, dt, n) ==> AllAt(groups, dt, n)[x] == dt
  {
    if n > 0 {
      AllAtIs(groups, dt, n - 1);
    }
  }

  /** Most sensitive first, then cheapest. */
  predicate RanksBefore(p: Problem, a: Group, b: Group)
    requires p.ladder != []
  {
    Sensitivity(p, a) > Sensitivity(p, b) || (Sensitivity(p, a) == Sensitivity(p, b)
                                              && p.cost(a.name) <= p.cost(b.name))
  }

  ghost predicate InRankOrder(p: Problem, s: seq<Group>)
    requires p.ladder != []
  {
    forall i, j :: 0 <= i < j < |s| ==> RanksBefore(p, s[i], s[j])
  }

  /** Behind every member that ranks no later: the sort is stable. */
  function InsertRanked(p: Problem, s: seq<Group>, g: Group): seq<Group>
    requires p.ladder != []
  {
    if s == [] then [g]
    else if RanksBefore(p, s[|s| - 1], g) then s + [g]
    else InsertRanked(p, s[..|s| - 1], g) + [s[|s| - 1]]
  }

  lemma RankTotal(p: Problem, a: Group, b: Group)
    requires p.ladder != [] && !RanksBefore(p, a, b)
    ensures RanksBefore(p, b, a)
  {
  }

  lemma RankTransitive(p: Problem, s: seq<Group>, b: Group, c: Group)
    requires p.ladder != [] && RanksBefore(p, b, c) && forall i :: 0 <= i < |s| ==> RanksBefore(p, s[i], b)
    ensures forall i :: 0 <= i < |s| ==> RanksBefore(p, s[i], c)
  {
    hide Sensitivity;
    assert forall i :: 0 <= i < |s| ==> RanksBefore(p, s[i], b);
  }

  lemma {:induction false} InsertKeepsRank(p: Problem, s: seq<Group>, g: Group)
    requires p.ladder != [] && InRankOrder(p, s)
    ensures InRankOrder(p, InsertRanked(p, s, g)) && multiset(InsertRanked(p, s, g)) == multiset(s) + multiset{g}
    decreases |s|
  {
    hide RanksBefore;
    if s != [] {
      var init, last := s[..|s| - 1], s[|s| - 1];
      assert s == init + [last];
      if RanksBefore(p, last, g) {
        RankTransitive(p, init, last, g);
      } else {
        RankTotal(p, last, g);
        InsertKeepsRank(p, init, g);
        var r := InsertRanked(p, init, g);
        assert InsertRanked(p, s, g) == r + [last];
        forall i | 0 <= i < |r| ensures RanksBefore(p, r[i], last) {
          Inserted(init, r, g, i);
        }
      }
    }
  }

  lemma Inserted<T>(s: seq<T>, r: seq<T>, g: T, i: nat)
    requires multiset(r) == multiset(s) + multiset{g} && i < |r|
    ensures r[i] == g || r[i] in s
  {
    assert r[i] in multiset(r);
  }

  ghost predicate Precedes(groups: seq<Group>, a: Group, b: Group) {
    forall x, y :: 0 <= x < |groups| && 0 <= y < |groups| && groups[x] == a && groups[y] == b ==> x < y
  }

  /** Groups of equal rank keep their order. */
  ghost predicate Stable(p: Problem, s: seq<Group>)
    requires p.ladder != []
  {
    forall i, j :: 0 <= i < j < |s| && RanksBefore(p, s[j], s[i]) ==> Precedes(p.groups, s[i], s[j])
  }

  lemma EarlierPrecedes(groups: seq<Group>, n: nat, a: Group)
    requires DistinctNames(groups) && n < |groups| && a in groups[..n]
    ensures Precedes(groups, a, groups[n])
  {
  }

  lemma {:induction false} InsertKeepsStable(p: Problem, s: seq<Group>, n: nat)
    requires p.ladder != [] && DistinctNames(p.groups) && n < |p.groups| && Stable(p, s)
    requires forall i :: 0 <= i < |s| ==> s[i] in p.groups[..n]
    ensures Stable(p, InsertRanked(p, s, p.groups[n]))
    decreases |s|
  {
    hide RanksBefore, Precedes, DistinctNames;
    var g, r := p.groups[n], InsertRanked(p, s, p.groups[n]);
    if s != [] && !RanksBefore(p, s[|s| - 1], g) {
      var init, last := s[..|s| - 1], s[|s| - 1];
      InsertKeepsStable(p, init, n);
      var q := InsertRanked(p, init, g);
      InsertedOnce(p, init, g);
      forall i | 0 <= i < |q| && RanksBefore(p, last, q[i]) ensures Precedes(p.groups, q[i], last) {
        Inserted(init, q, g, i);
      }
    } else {
      forall i | 0 <= i < |s| ensures Precedes(p.groups, s[i], g) {
        EarlierPrecedes(p.groups, n, s[i]);
      }
    }
  }

  lemma {:induction false} InsertedOnce(p: Problem, s: seq<Group>, g: Group)
    requires p.ladder != []
    ensures multiset(InsertRanked(p, s, g)) == multiset(s) + multiset{g}
    decreases |s|
  {
    hide RanksBefore;
    if s != [] {
      assert s == s[..|s| - 1] + [s[|s| - 1]];
      InsertedOnce(p, s[..|s| - 1], g);
    }
  }

  /** All groups, in rank order, ties in the order they were given. */
  ghost predicate Ranked(p: Problem, order: seq<Group>) {
    p.ladder != [] && InRankOrder(p, order) && multiset(order) == multiset(p.groups) && Stable(p, order)
  }

  /** What the order is, in sensitivities and costs. */
  lemma RankedIs(p: Problem, order: seq<Group>, i: nat, j: nat)
    requires Ranked(p, order) && i < j < |order|
    ensures var a, b := order[i], order[j];
            Sensitivity(p, a) > Sensitivity(p, b)
            || (Sensitivity(p, a) == Sensitivity(p, b) && p.cost(a.name) < p.cost(b.name))
            || (Sensitivity(p, a) == Sensitivity(p, b) && p.cost(a.name) == p.cost(b.name) && Precedes(p.groups, a, b))
  {
    hide Sensitivity, Precedes;
    assert RanksBefore(p, order[i], order[j]);
    assert RanksBefore(p, order[j], order[i]) ==> Precedes(p.groups, order[i], order[j]);
  }

  method RankGroups(p: Problem) returns (order: seq<Group>)
    requires p.ladder != [] && DistinctNames(p.groups)
    ensures Ranked(p, order)
  {
    hide InRankOrder, RanksBefore, InsertRanked, Stable, DistinctNames;
    order := [];
    NothingRanked(p);
    for i := 0 to |p.groups|
      invariant InRankOrder(p, order) && multiset(order) == multiset(p.groups[..i]) && Stable(p, order)
    {
      InsertKeepsRank(p, order, p.groups[i]);
      AllAmong(order, p.groups[..i]);
      InsertKeepsStable(p, order, i);
      TakeOne(p.groups, i);
      order := InsertRanked(p, order, p.groups[i]);
    }
    assert p.groups[..|p.groups|] == p.groups;
  }

  lemma NothingRanked(p: Problem)
    requires p.ladder != []
    ensures InRankOrder(p, []) && Stable(p, [])
  {
  }

  lemma AllAmong<T>(s: seq<T>, t: seq<T>)
    requires multiset(s) == multiset(t)
    ensures forall i :: 0 <= i < |s| ==> s[i] in t
  {
    forall i | 0 <= i < |s| ensures s[i] in t {
      assert s[i] in multiset(s);
    }
  }

  lemma TakeOne<T>(s: seq<T>, i: nat)
    requires i < |s|
    ensures multiset(s[..i + 1]) == multiset(s[..i]) + multiset{s[i]}
  {
    assert s[..i + 1] == s[..i] + [s[i]];
  }

  // --- The search -------------------------------------------------------------------------------------------

  datatype Found = Found(meetsBudget: bool, score: real, levels: map<string, string>, trace: seq<Traced>)

  lemma ValidLadderIs(ladder: seq<string>)
    ensures ValidLadder(ladder)
       <==> |ladder| > 0 && forall i :: 0 <= i < |ladder| ==>
                ladder[i] == "uint8" || ladder[i] == "uint16" || ladder[i] == "float"
  {
    assert forall i :: 0 <= i < |ladder| ==> ladder[i] in ladder;
  }

  predicate ValidLadder(ladder: seq<string>) { ladder != [] && forall lv :: lv in ladder ==> lv in LEVELS }

  lemma PromotedOnLadder(p: Problem, idx: Positions, g: string)
    requires OnLadder(p, idx) && Open(p, idx, g)
    ensures OnLadder(p, Promoted(idx, g))
  {
  }

  /** Some group has room: the scan over the groups finds it. */
  method FindOpen(p: Problem, order: seq<Group>, idx: Positions) returns (g: Option<string>)
    requires forall i :: 0 <= i < |order| ==> order[i].name in idx
    ensures g.Some? ==> FirstOpen(p, order, idx, g.value)
    ensures g.None? ==> forall i :: 0 <= i < |order| ==> !Open(p, idx, order[i].name)
  {
    g := None;
    for i := 0 to |order|
      invariant forall j :: 0 <= j < i ==> !Open(p, idx, order[j].name)
    {
      if idx[order[i].name] < |p.ladder| - 1 {
        return Some(order[i].name);
      }
    }
  }

  /** Run the model at the current levels. */
  method ScoreOf(p: Problem, idx: Positions) returns (score: real)
    requires p.ladder != [] && OnLadder(p, idx)
    ensures score == Score(p, idx)
  {
    score := p.score(LevelsOf(p, idx), p.ladder[0]);
  }

  /** Promote h, score, and put h back. */
  method Trial(p: Problem, start: Positions, h: string) returns (idx: Positions, s: real)
    requires p.ladder != [] && OnLadder(p, start) && Open(p, start, h)
    ensures idx == start && s == Score(p, Promoted(start, h))
  {
    idx := start[h := start[h] + 1];
    PromotedOnLadder(p, start, h);
    s := ScoreOf(p, idx);
    idx := idx[h := idx[h] - 1];
  }

  /** best is the first unbeaten trial among the first i groups. */
  ghost predicate BestSoFar(p: Problem, start: Positions, i: nat, best: Option<((real, real), string, real)>, at: nat)
    requires p.ladder != [] && OnLadder(p, start) && i <= |p.groups|
  {
    match best
    case None => forall j :: 0 <= j < i ==> !Open(p, start, p.groups[j].name)
    case Some((key, g, s)) =>
      && at < i && g == p.groups[at].name && Open(p, start, g)
      && key == TrialKey(p, start, g) && s == Score(p, Promoted(start, g))
      && (forall j :: 0 <= j < i && Open(p, start, p.groups[j].name) ==>
            !Worse(key, TrialKey(p, start, p.groups[j].name)))
      && (forall j :: 0 <= j < at && Open(p, start, p.groups[j].name) ==>
            Worse(TrialKey(p, start, p.groups[j].name), key))
  }

  lemma NothingTried(p: Problem, start: Positions)
    requires p.ladder != [] && OnLadder(p, start)
    ensures BestSoFar(p, start, 0, None, 0)
  {
  }

  lemma ClosedSkipped(p: Problem, start: Positions, i: nat, best: Option<((real, real), string, real)>, at: nat)
    requires p.ladder != [] && OnLadder(p, start) && i < |p.groups| && !Open(p, start, p.groups[i].name)
    requires BestSoFar(p, start, i, best, at)
    ensures BestSoFar(p, start, i + 1, best, at)
  {
    hide TrialKey, OnLadder, Score, Worse;
  }

  lemma TrialCounted(p: Problem, start: Positions, i: nat, best: Option<((real, real), string, real)>, at: nat, s: real)
    requires p.ladder != [] && OnLadder(p, start) && i < |p.groups| && Open(p, start, p.groups[i].name)
    requires BestSoFar(p, start, i, best, at) && s == Score(p, Promoted(start, p.groups[i].name))
    ensures var key := TrialKey(p, start, p.groups[i].name);
            if best.None? || Worse(best.value.0, key)
            then BestSoFar(p, start, i + 1, Some((key, p.groups[i].name, s)), i)
            else BestSoFar(p, start, i + 1, best, at)
  {
    hide TrialKey, OnLadder, Score, Open;
  }

  lemma BestIsTrial(p: Problem, start: Positions, best: Option<((real, real), string, real)>, at: nat)
    requires p.ladder != [] && OnLadder(p, start) && BestSoFar(p, start, |p.groups|, best, at)
    requires exists i :: 0 <= i < |p.groups| && Open(p, start, p.groups[i].name)
    ensures best.Some? && BestTrial(p, start, best.value.1) && Open(p, start, best.value.1)
    ensures best.value.2 == Score(p, Promoted(start, best.value.1))
  {
    hide TrialKey, OnLadder, Score, Open, Worse;
  }

  /** Every open group tried, the best kept; no trial leaves a mark. */
  method BestPromotion(p: Problem, start: Positions) returns (idx: Positions, g: string, score: real)
    requires p.ladder != [] && OnLadder(p, start)
    requires exists i :: 0 <= i < |p.groups| && Open(p, start, p.groups[i].name)
    ensures idx == start
    ensures BestTrial(p, start, g) && Open(p, start, g) && score == Score(p, Promoted(start, g))
  {
    hide Score, BestSoFar, OnLadder, BestTrial, Worse;
    idx := start;
    var best: Option<((real, real), string, real)> := None;
    ghost var at := 0;
    NothingTried(p, start);
    NamesAreOpen(p, start);
    for i := 0 to |p.groups|
      invariant idx == start
      invariant BestSoFar(p, start, i, best, at)
    {
      var h := p.groups[i].name;
      if idx[h] < |p.ladder| - 1 {
        var s;
        idx, s := Trial(p, idx, h);
        var key := (s, -p.cost(h));
        TrialCounted(p, start, i, best, at, s);
        if best.None? || Worse(best.value.0, key) {
          best := Some((key, h, s));
          at := i;
        }
      } else {
        ClosedSkipped(p, start, i, best, at);
      }
    }
    BestIsTrial(p, start, best, at);
    g, score := best.value.1, best.value.2;
  }

  lemma RunStarts(p: Problem, order: seq<Group>)
    requires p.ladder != []
    ensures OnLadder(p, StartPositions(p.groups))
    ensures Run(p, order, [Traced("<start>", p.ladder[0], Score(p, StartPositions(p.groups)))])
  {
  }

  /** The search after the promotions traced so far. */
  ghost predicate SoFar(p: Problem, order: seq<Group>, trace: seq<Traced>, idx: Positions, score: real) {
    && Run(p, order, trace) && OnLadder(p, idx) && idx == Replay(p, trace, |trace| - 1)
    && score == trace[|trace| - 1].score && |trace| - 1 <= Bound(p)
  }

  lemma StartSoFar(p: Problem, order: seq<Group>)
    requires p.ladder != [] && DistinctNames(p.groups)
    ensures OnLadder(p, StartPositions(p.groups))
    ensures var score := Score(p, StartPositions(p.groups));
            SoFar(p, order, [Traced("<start>", p.ladder[0], score)], StartPositions(p.groups), score)
  {
    RunStarts(p, order);
    hide Run, OnLadder, Score;
    RunIsShort(p, order, [Traced("<start>", p.ladder[0], Score(p, StartPositions(p.groups)))], 0);
  }

  lemma NextSoFar(p: Problem, order: seq<Group>, trace: seq<Traced>, idx: Positions, score: real, last: Traced)
    requires DistinctNames(p.groups) && SoFar(p, order, trace, idx, score) && score < p.budget
    requires if p.rerank then BestTrial(p, idx, last.group) else FirstOpen(p, order, idx, last.group)
    requires OnLadder(p, Promoted(idx, last.group)) && last.group in idx
    requires last.level == p.ladder[Promoted(idx, last.group)[last.group]]
    requires last.score == Score(p, Promoted(idx, last.group))
    ensures SoFar(p, order, trace + [last], Promoted(idx, last.group), last.score)
  {
    assert p.ladder != [];
    hide Run, OnLadder, Score, FirstOpen, BestTrial, Promoted, Replay, DistinctNames, Bound, Total;
    OneMoreStep(p, order, trace, idx, last);
    RunIsShort(p, order, trace + [last], |trace|);
  }

  /** Promote until the budget is met, no group has room, or the steps run out. */
  method Search(p: Problem) returns (r: Result<Found>, ghost order: seq<Group>)
    requires DistinctNames(p.groups)
    ensures r.ValueError? <==> !ValidLadder(p.ladder)
    ensures r.Ok? ==> Run(p, order, r.value.trace) && Finished(p, r.value)
    ensures r.Ok? && !p.rerank && |r.value.trace| > 1 ==> Ranked(p, order)
  {
    order := [];
    if !ValidLadder(p.ladder) {
      return ValueError, order;
    }
    assert p.ladder != [];
    hide *;
    StartSoFar(p, order);
    var idx := StartPositions(p.groups);
    var score := ScoreOf(p, idx);
    var ranked: seq<Group> := [];
    if !p.rerank && score < p.budget {
      ranked := RankGroups(p);
      StartSoFar(p, ranked);
    }
    order := ranked;
    var trace := [Traced("<start>", p.ladder[0], score)];
    idx, score, trace := Climb(p, ranked, idx, score, trace);
    LevelsOnLadder(p, idx);
    var found := Found(score >= p.budget, score, GroupLevels(p, idx), trace);
    SoFarFinished(p, ranked, idx, found);
    r := Ok(found);
  }

  function GroupLevels(p: Problem, idx: Positions): (levels: map<string, string>)
    requires forall g :: g in idx ==> idx[g] < |p.ladder|
    ensures levels.Keys == idx.Keys && forall g :: g in idx ==> levels[g] == p.ladder[idx[g]]
  {
    map g | g in idx :: p.ladder[idx[g]]
  }

  /** The loop. */
  method Climb(p: Problem, ranked: seq<Group>, idx0: Positions, score0: real, trace0: seq<Traced>)
    returns (idx: Positions, score: real, trace: seq<Traced>)
    requires DistinctNames(p.groups) && p.ladder != [] && |trace0| == 1 && SoFar(p, ranked, trace0, idx0, score0)
    requires !p.rerank && score0 < p.budget ==> Ranked(p, ranked)
    ensures SoFar(p, ranked, trace, idx, score)
    ensures p.maxSteps.Some? ==> |trace| - 1 <= p.maxSteps.value
    ensures score >= p.budget || p.maxSteps == Some(|trace| - 1) || forall g :: HasName(p.groups, g) ==>
              !Open(p, idx, g)
    ensures !p.rerank && |trace| > 1 ==> Ranked(p, ranked)
  {
    hide SoFar, Ranked, Score, FirstOpen, BestTrial, Promoted, DistinctNames, OnLadder, Bound;
    idx, score, trace := idx0, score0, trace0;
    var steps := 0;
    SoFarBounds(p, ranked, trace, idx, score);
    while score < p.budget && (p.maxSteps.None? || steps < p.maxSteps.value)
      invariant SoFar(p, ranked, trace, idx, score) && OnLadder(p, idx) && |trace| == steps + 1 <= Bound(p) + 1
      invariant p.maxSteps.Some? ==> steps <= p.maxSteps.value
      invariant !p.rerank && (score < p.budget || steps > 0) ==> Ranked(p, ranked)
      decreases Bound(p) - steps
    {
      NamesAreOpen(p, idx);
      var open := FindOpen(p, p.groups, idx);
      if open.None? {
        break;
      }
      ghost var was, wasScore := idx, score;
      var g;
      idx, g, score := Promote(p, ranked, idx, open.value);
      NextSoFar(p, ranked, trace, was, wasScore, Traced(g, p.ladder[idx[g]], score));
      steps := steps + 1;
      trace := trace + [Traced(g, p.ladder[idx[g]], score)];
      SoFarBounds(p, ranked, trace, idx, score);
    }
  }

  lemma SoFarBounds(p: Problem, order: seq<Group>, trace: seq<Traced>, idx: Positions, score: real)
    requires p.ladder != [] && SoFar(p, order, trace, idx, score)
    ensures OnLadder(p, idx) && 1 <= |trace| <= Bound(p) + 1
  {
  }

  lemma LevelsOnLadder(p: Problem, idx: Positions)
    requires OnLadder(p, idx)
    ensures forall g :: g in idx ==> idx[g] < |p.ladder|
  {
  }

  lemma SoFarFinished(p: Problem, order: seq<Group>, idx: Positions, f: Found)
    requires p.ladder != [] && SoFar(p, order, f.trace, idx, f.score)
    requires f.levels.Keys == idx.Keys && forall g :: g in idx ==>
               g in f.levels && idx[g] < |p.ladder| && f.levels[g] == p.ladder[idx[g]]
    requires f.meetsBudget <==> f.score >= p.budget
    requires p.maxSteps.Some? ==> |f.trace| - 1 <= p.maxSteps.value
    requires f.meetsBudget || p.maxSteps == Some(|f.trace| - 1) || forall g :: HasName(p.groups, g) ==> !Open(p, idx, g)
    ensures Run(p, order, f.trace) && Finished(p, f)
  {
    hide Run, OnLadder, HasName, Open;
  }

  lemma NamesAreOpen(p: Problem, idx: Positions)
    requires OnLadder(p, idx)
    ensures forall i :: 0 <= i < |p.groups| ==> p.groups[i].name in idx
    ensures (forall i :: 0 <= i < |p.groups| ==> !Open(p, idx, p.groups[i].name)) ==>
              forall g :: HasName(p.groups, g) ==> !Open(p, idx, g)
  {
    forall i | 0 <= i < |p.groups| ensures p.groups[i].name in idx {
      assert HasName(p.groups, p.groups[i].name);
    }
  }

  /** One promotion: the best trial, or the next group of the ranking, which always exists. */
  method Promote(p: Problem, ranked: seq<Group>, start: Positions, ghost open: string)
    returns (idx: Positions, g: string, score: real)
    requires p.ladder != [] && OnLadder(p, start) && FirstOpen(p, p.groups, start, open)
    requires !p.rerank ==> Ranked(p, ranked)
    ensures g in start && g in idx && idx == Promoted(start, g) && OnLadder(p, idx) && idx[g] < |p.ladder|
    ensures score == Score(p, idx)
    ensures if p.rerank then BestTrial(p, start, g) else FirstOpen(p, ranked, start, g)
  {
    hide Score, Ranked, BestTrial;
    idx := start;
    if p.rerank {
      idx, g, score := BestPromotion(p, idx);
      idx := idx[g := idx[g] + 1];
      PromotedOnLadder(p, start, g);
    } else {
      OpenIsRanked(p, ranked, idx, open);
      var next := FindOpen(p, ranked, idx);
      g := next.value;
      PromotedOnLadder(p, idx, g);
      idx := idx[g := idx[g] + 1];
      score := ScoreOf(p, idx);
    }
  }

  /** What a finished search reports: the replayed levels, the last score, and why it stopped. */
  ghost predicate Finished(p: Problem, f: Found)
    requires p.ladder != [] && f.trace != []
  {
    var last := |f.trace| - 1;
    var idx := Replay(p, f.trace, last);
    && OnLadder(p, idx)
    && f.levels.Keys == idx.Keys && (forall g :: g in idx ==> f.levels[g] == p.ladder[idx[g]])
    && f.score == f.trace[last].score && (f.meetsBudget <==> f.score >= p.budget)
    && last <= |p.groups| * (|p.ladder| - 1) && (p.maxSteps.Some? ==> last <= p.maxSteps.value)
    && (f.meetsBudget || p.maxSteps == Some(last) || forall g :: HasName(p.groups, g) ==> !Open(p, idx, g))
  }

  lemma {:induction false} ReplayPrefix(p: Problem, trace: seq<Traced>, last: Traced, k: nat)
    requires k < |trace|
    ensures Replay(p, trace + [last], k) == Replay(p, trace, k)
  {
    if k > 0 {
      ReplayPrefix(p, trace, last, k - 1);
    }
  }

  lemma OneMoreStep(p: Problem, order: seq<Group>, trace: seq<Traced>, idx: Positions, last: Traced)
    requires Run(p, order, trace) && idx == Replay(p, trace, |trace| - 1) && OnLadder(p, idx)
    requires trace[|trace| - 1].score < p.budget
    requires if p.rerank then BestTrial(p, idx, last.group) else FirstOpen(p, order, idx, last.group)
    requires OnLadder(p, Promoted(idx, last.group)) && last.group in idx
    requires last.level == p.ladder[Promoted(idx, last.group)[last.group]]
    requires last.score == Score(p, Promoted(idx, last.group))
    ensures Run(p, order, trace + [last]) && Replay(p, trace + [last], |trace|) == Promoted(idx, last.group)
  {
    hide OnLadder, Score, BestTrial, FirstOpen;
    var n, more := |trace|, trace + [last];
    ReplayPrefix(p, trace, last, n - 1);
    forall k | 0 < k < |more| ensures StepOk(p, order, more, k) {
      ReplayPrefix(p, trace, last, k - 1);
      if k < n {
        ReplayPrefix(p, trace, last, k);
        assert StepOk(p, order, trace, k);
      }
    }
  }

  /** The ranking holds every group, so when one has room the scan of the ranking finds one. */
  lemma OpenIsRanked(p: Problem, order: seq<Group>, idx: Positions, g: string)
    requires Ranked(p, order) && OnLadder(p, idx) && FirstOpen(p, p.groups, idx, g)
    ensures forall i :: 0 <= i < |order| ==> order[i].name in idx
    ensures exists i :: 0 <= i < |order| && Open(p, idx, order[i].name)
  {
    hide RanksBefore;
    forall i | 0 <= i < |order| ensures order[i].name in idx {
      assert order[i] in multiset(p.groups);
      var j :| 0 <= j < |p.groups| && p.groups[j] == order[i];
      assert HasName(p.groups, order[i].name);
    }
    var j :| 0 <= j < |p.groups| && p.groups[j].name == g && Open(p, idx, g);
    assert p.groups[j] in multiset(order);
    var i :| 0 <= i < |order| && order[i] == p.groups[j];
    assert Open(p, idx, order[i].name);
  }
}
