/** A state-threading loop over two alternating buffers per state tensor, run by a runtime that may read
    its inputs and write its outputs in any order. */
module BoundLoop {

  /** A device buffer of a state tensor, or the host buffer of another output. */
  datatype Buffer = State(name: string, slot: int) | Host(output: string)

  type Memory<V> = map<Buffer, V>

  type Binding = map<string, Buffer>

  /** A step graph: its state inputs with the outputs that feed them, in binding order, its other outputs,
      the inputs each output is computed from, and the value it computes. */
  datatype StepGraph<!V, !F> = StepGraph(
    pairs: seq<(string, string)>,
    host: set<string>,
    deps: string -> set<string>,
    eval: (string, map<string, V>, F) -> V)
  {
    function Names(): set<string> { set i | 0 <= i < |pairs| :: pairs[i].0 }

    function Produced(): set<string> { set i | 0 <= i < |pairs| :: pairs[i].1 }

    function Outputs(): set<string> { Produced() + host }

    /** Distinct state names, every output computed from state inputs only, and host outputs apart. */
    ghost predicate WellFormed() {
      && (forall i, j :: 0 <= i < j < |pairs| ==> pairs[i].0 != pairs[j].0)
      && (forall o :: o in Outputs() ==> deps(o) <= Names())
      && Produced() !! host
    }

    /** No output feeds two state inputs. */
    ghost predicate Injective() {
      forall i, j :: 0 <= i < j < |pairs| ==> pairs[i].1 != pairs[j].1
    }

    /** The value of output o on state st. */
    function Value(o: string, st: map<string, V>, feeds: F): V {
      eval(o, map n | n in deps(o) && n in st :: st[n], feeds)
    }
  }

  /** The pure step: every state tensor becomes the value of its output. */
  ghost function Next<V, F>(g: StepGraph<V, F>, st: map<string, V>, feeds: F): map<string, V>
    requires g.WellFormed()
  {
    map n | n in g.Names() :: g.Value(FedBy(g, n), st, feeds)
  }

  ghost function FedBy<V, F>(g: StepGraph<V, F>, name: string): string
    requires g.WellFormed() && name in g.Names()
  {
    var i :| 0 <= i < |g.pairs| && g.pairs[i].0 == name;
    g.pairs[i].1
  }

  lemma FedByAt<V, F>(g: StepGraph<V, F>, i: int)
    requires g.WellFormed() && 0 <= i < |g.pairs|
    ensures g.pairs[i].0 in g.Names() && FedBy(g, g.pairs[i].0) == g.pairs[i].1
  {
  }

  /** The pure step iterated over the feeds. */
  ghost function Iterate<V, F>(g: StepGraph<V, F>, st: map<string, V>, feeds: seq<F>): map<string, V>
    requires g.WellFormed()
  {
    if feeds == [] then st else Next(g, Iterate(g, st, feeds[..|feeds| - 1]), feeds[|feeds| - 1])
  }

  // --- The runtime ---------------------------------------------------------------------------

  /** One action of the runtime: the kernel of an output reads an input, leaves an intermediate value in its
      output buffer, or writes its result. */
  datatype Op<V> = Fetch(output: string, input: string) | Scribble(output: string, junk: V) | Emit(output: string)

  /** A run from here on: an output may be written before another one has read its inputs, but not before
      its own kernel has read its own, and it is left alone once it is final. */
  ghost predicate Legal<V, F>(g: StepGraph<V, F>, ops: seq<Op<V>>, fetched: set<(string, string)>,
                              emitted: set<string>) {
    if ops == [] then emitted == g.Outputs()
    else
      match ops[0]
      case Fetch(o, n) => o in g.Outputs() && n in g.deps(o) && Legal(g, ops[1..], fetched + {(o, n)}, emitted)
      case Scribble(o, _) => o in g.Outputs() && o !in emitted && Legal(g, ops[1..], fetched, emitted)
      case Emit(o) =>
        o in g.Outputs() && o !in emitted && (forall n :: n in g.deps(o) ==> (o, n) in fetched)
        && Legal(g, ops[1..], fetched, emitted + {o})
  }

  /** Every graph has a legal run: the kernels one after the other, each reading all its inputs before it writes. */
  lemma SomeSchedule<V, F>(g: StepGraph<V, F>) returns (ops: seq<Op<V>>)
    ensures Legal(g, ops, {}, {})
  {
    ops := ScheduleFrom(g, {}, {});
  }

  lemma ScheduleFrom<V, F>(g: StepGraph<V, F>, fetched: set<(string, string)>, emitted: set<string>)
    returns (ops: seq<Op<V>>)
    requires emitted <= g.Outputs()
    ensures Legal(g, ops, fetched, emitted)
    decreases |g.Outputs() - emitted|, 1, 0
  {
    if emitted == g.Outputs() {
      ops := [];
    } else {
      assert !(g.Outputs() <= emitted);
      var o :| o in g.Outputs() && o !in emitted;
      ops := ScheduleKernel(g, o, g.deps(o), fetched, emitted);
    }
  }

  lemma ScheduleKernel<V, F>(g: StepGraph<V, F>, o: string, left: set<string>, fetched: set<(string, string)>,
                             emitted: set<string>)
    returns (ops: seq<Op<V>>)
    requires emitted <= g.Outputs() && o in g.Outputs() && o !in emitted && left <= g.deps(o)
    requires forall n :: n in g.deps(o) && n !in left ==> (o, n) in fetched
    ensures Legal(g, ops, fetched, emitted)
    decreases |g.Outputs() - emitted|, 0, |left|
  {
    if left == {} {
      assert g.Outputs() - emitted == (g.Outputs() - (emitted + {o})) + {o};
      var rest := ScheduleFrom(g, fetched, emitted + {o});
      ops := [Emit(o)] + rest;
    } else {
      var n :| n in left;
      var rest := ScheduleKernel(g, o, left - {n}, fetched + {(o, n)}, emitted);
      ops := [Fetch(o, n)] + rest;
    }
  }

  /** What the kernel of o has read. */
  function Args<V>(regs: map<(string, string), V>, o: string, deps: set<string>): map<string, V> {
    map n | n in deps && (o, n) in regs :: regs[(o, n)]
  }

  type Registers<V> = map<(string, string), V>

  ghost predicate Bound<V, F>(g: StepGraph<V, F>, ins: Binding, outs: Binding, mem: Memory<V>) {
    && (forall n :: n in g.Names() ==> n in ins && ins[n] in mem)
    && (forall o :: o in g.Outputs() ==> o in outs && outs[o] in mem)
  }

  /** The memory after one action, and what the kernels have read by then. */
  function Act<V, F>(g: StepGraph<V, F>, op: Op<V>, ins: Binding, outs: Binding, regs: Registers<V>, mem: Memory<V>,
                     feeds: F)
    : (Registers<V>, Memory<V>)
  {
    match op
    case Fetch(o, n) => if n in ins && ins[n] in mem then (regs[(o, n) := mem[ins[n]]], mem) else (regs, mem)
    case Scribble(o, junk) => if o in outs then (regs, mem[outs[o] := junk]) else (regs, mem)
    case Emit(o) =>
      if o in outs then (regs, mem[outs[o] := g.eval(o, Args(regs, o, g.deps(o)), feeds)]) else (regs, mem)
  }

  function Exec<V, F>(g: StepGraph<V, F>, ops: seq<Op<V>>, ins: Binding, outs: Binding, regs: Registers<V>,
                      mem: Memory<V>, feeds: F)
    : Memory<V>
    decreases |ops|
  {
    if ops == [] then mem
    else
      var (regs', mem') := Act(g, ops[0], ins, outs, regs, mem, feeds);
      Exec(g, ops[1..], ins, outs, regs', mem', feeds)
  }

  /** No output shares a buffer with another output or with a state input. */
  ghost predicate Separate<V, F>(g: StepGraph<V, F>, ins: Binding, outs: Binding) {
    && (forall o :: o in g.Outputs() ==> o in outs)
    && (forall o, p :: o in g.Outputs() && p in g.Outputs() && o != p ==> outs[o] != outs[p])
    && (forall n, o :: n in g.Names() && o in g.Outputs() ==> n in ins && ins[n] != outs[o])
  }

  function Inputs<V>(names: set<string>, ins: Binding, mem: Memory<V>): map<string, V> {
    map n | n in names && n in ins && ins[n] in mem :: mem[ins[n]]
  }

  /** Mid-run: the inputs are as they were, what was read is what they held, what was emitted is final. */
  ghost predicate OnTrack<V, F>(g: StepGraph<V, F>, ins: Binding, outs: Binding, regs: Registers<V>, mem: Memory<V>,
                                st: map<string, V>, feeds: F, fetched: set<(string, string)>, emitted: set<string>) {
    && Bound(g, ins, outs, mem)
    && Inputs(g.Names(), ins, mem) == st
    && (forall o, n :: (o, n) in fetched ==> n in st && (o, n) in regs && regs[(o, n)] == st[n])
    && (forall o :: o in emitted ==> o in g.Outputs() && mem[outs[o]] == g.Value(o, st, feeds))
  }

  lemma EmitIsValue<V, F>(g: StepGraph<V, F>, o: string, regs: Registers<V>, st: map<string, V>, feeds: F,
                          fetched: set<(string, string)>)
    requires g.WellFormed() && o in g.Outputs() && st.Keys == g.Names()
    requires forall o, n :: (o, n) in fetched ==> n in st && (o, n) in regs && regs[(o, n)] == st[n]
    requires forall n :: n in g.deps(o) ==> (o, n) in fetched
    ensures g.eval(o, Args(regs, o, g.deps(o)), feeds) == g.Value(o, st, feeds)
  {
    assert Args(regs, o, g.deps(o)) == map n | n in g.deps(o) && n in st :: st[n];
  }

  lemma WriteKeepsInputs<V, F>(g: StepGraph<V, F>, ins: Binding, outs: Binding, mem: Memory<V>, o: string, v: V)
    requires Separate(g, ins, outs) && o in g.Outputs() && Bound(g, ins, outs, mem)
    ensures Bound(g, ins, outs, mem[outs[o] := v])
    ensures Inputs(g.Names(), ins, mem[outs[o] := v]) == Inputs(g.Names(), ins, mem)
  {
  }

  /** Whatever the order of the actions, every output ends up with its value on the state the inputs held,
      and no other buffer changes. */
  lemma {:induction false} ExecCorrect<V, F>(g: StepGraph<V, F>, ops: seq<Op<V>>, ins: Binding, outs: Binding,
                                             regs: Registers<V>, mem: Memory<V>, st: map<string, V>, feeds: F,
                                             fetched: set<(string, string)>, emitted: set<string>)
    requires g.WellFormed() && Separate(g, ins, outs) && st.Keys == g.Names()
    requires Legal(g, ops, fetched, emitted) && OnTrack(g, ins, outs, regs, mem, st, feeds, fetched, emitted)
    ensures var end := Exec(g, ops, ins, outs, regs, mem, feeds);
            && end.Keys == mem.Keys
            && (forall o :: o in g.Outputs() ==> end[outs[o]] == g.Value(o, st, feeds))
            && (forall b :: b in mem && (forall o :: o in g.Outputs() ==> outs[o] != b) ==> end[b] == mem[b])
    decreases |ops|
  {
    if ops != [] {
      var (regs', mem') := Act(g, ops[0], ins, outs, regs, mem, feeds);
      match ops[0] {
        case Fetch(o, n) =>
          ExecCorrect(g, ops[1..], ins, outs, regs', mem', st, feeds, fetched + {(o, n)}, emitted);
        case Scribble(o, junk) =>
          WriteKeepsInputs(g, ins, outs, mem, o, junk);
          ExecCorrect(g, ops[1..], ins, outs, regs', mem', st, feeds, fetched, emitted);
        case Emit(o) =>
          EmitIsValue(g, o, regs, st, feeds, fetched);
          WriteKeepsInputs(g, ins, outs, mem, o, g.Value(o, st, feeds));
          ExecCorrect(g, ops[1..], ins, outs, regs', mem', st, feeds, fetched, emitted + {o});
      }
    }
  }

  // --- Bindings -----------------------------------------------------------------------------------

  /** The input binding once the first k pairs are bound. */
  function BindInputs<V, F>(g: StepGraph<V, F>, k: nat, base: Binding, slot: int): Binding
    requires k <= |g.pairs|
  {
    if k == 0 then base else BindInputs(g, k - 1, base, slot)[g.pairs[k - 1].0 := State(g.pairs[k - 1].0, slot)]
  }

  /** The output binding once the first k pairs are bound; a later pair rebinds an earlier one's output. */
  function BindOutputs<V, F>(g: StepGraph<V, F>, k: nat, base: Binding, slot: int): Binding
    requires k <= |g.pairs|
  {
    if k == 0 then base else BindOutputs(g, k - 1, base, slot)[g.pairs[k - 1].1 := State(g.pairs[k - 1].0, slot)]
  }

  lemma {:induction false} InputBound<V, F>(g: StepGraph<V, F>, k: nat, base: Binding, slot: int, i: int)
    requires g.WellFormed() && 0 <= i < k <= |g.pairs|
    ensures var b := BindInputs(g, k, base, slot);
            g.pairs[i].0 in b && b[g.pairs[i].0] == State(g.pairs[i].0, slot)
  {
    if i < k - 1 {
      InputBound(g, k - 1, base, slot, i);
    }
  }

  /** An output is bound to the buffer of the last pair it feeds. */
  lemma {:induction false} OutputBound<V, F>(g: StepGraph<V, F>, k: nat, base: Binding, slot: int, i: int)
    requires 0 <= i < k <= |g.pairs| && (forall j :: i < j < k ==> g.pairs[j].1 != g.pairs[i].1)
    ensures var b := BindOutputs(g, k, base, slot);
            g.pairs[i].1 in b && b[g.pairs[i].1] == State(g.pairs[i].0, slot)
  {
    if i < k - 1 {
      OutputBound(g, k - 1, base, slot, i);
    }
  }

  lemma {:induction false} HostStaysBound<V, F>(g: StepGraph<V, F>, k: nat, base: Binding, slot: int, o: string)
    requires k <= |g.pairs| && o !in g.Produced() && o in base
    ensures o in BindOutputs(g, k, base, slot) && BindOutputs(g, k, base, slot)[o] == base[o]
  {
    if k > 0 {
      HostStaysBound(g, k - 1, base, slot, o);
      assert g.pairs[k - 1].1 in g.Produced();
    }
  }

  ghost predicate HostBound<V, F>(g: StepGraph<V, F>, base: Binding) {
    forall o :: o in g.host ==> o in base && base[o] == Host(o)
  }

  /** Every state tensor is read from one slot and written to the other. */
  ghost predicate PingPong<V, F>(g: StepGraph<V, F>, ins: Binding, outs: Binding, slot: int) {
    && (forall i :: 0 <= i < |g.pairs| ==> g.pairs[i].0 in ins && ins[g.pairs[i].0] == State(g.pairs[i].0, slot))
    && (forall i :: 0 <= i < |g.pairs| ==> g.pairs[i].1 in outs && outs[g.pairs[i].1] == State(g.pairs[i].0, 1 - slot))
    && HostBound(g, outs)
  }

  lemma BindingIsPingPong<V, F>(g: StepGraph<V, F>, ins: Binding, outs: Binding, slot: int)
    requires g.WellFormed() && g.Injective() && HostBound(g, outs)
    ensures PingPong(g, BindInputs(g, |g.pairs|, ins, slot), BindOutputs(g, |g.pairs|, outs, 1 - slot), slot)
  {
    hide BindInputs, BindOutputs;
    var k := |g.pairs|;
    forall i | 0 <= i < k
      ensures var bi := BindInputs(g, k, ins, slot);
              g.pairs[i].0 in bi && bi[g.pairs[i].0] == State(g.pairs[i].0, slot)
    {
      InputBound(g, k, ins, slot, i);
    }
    forall i | 0 <= i < k
      ensures var bo := BindOutputs(g, k, outs, 1 - slot);
              g.pairs[i].1 in bo && bo[g.pairs[i].1] == State(g.pairs[i].0, 1 - slot)
    {
      OutputBound(g, k, outs, 1 - slot, i);
    }
    HostsStayBound(g, outs, 1 - slot);
  }

  lemma HostsStayBound<V, F>(g: StepGraph<V, F>, outs: Binding, slot: int)
    requires g.WellFormed() && HostBound(g, outs)
    ensures HostBound(g, BindOutputs(g, |g.pairs|, outs, slot))
  {
    forall o | o in g.host
      ensures o in BindOutputs(g, |g.pairs|, outs, slot) && BindOutputs(g, |g.pairs|, outs, slot)[o] == Host(o)
    {
      HostStaysBound(g, |g.pairs|, outs, slot, o);
    }
  }

  /** With injective pairs, the buffers a step reads and those it writes are disjoint. */
  lemma PingPongSeparates<V, F>(g: StepGraph<V, F>, ins: Binding, outs: Binding, slot: int)
    requires g.WellFormed() && g.Injective() && PingPong(g, ins, outs, slot)
    ensures Separate(g, ins, outs)
  {
  }

  /** The state in one slot. */
  function StateOf<V>(names: set<string>, mem: Memory<V>, slot: int): map<string, V> {
    map n | n in names && State(n, slot) in mem :: mem[State(n, slot)]
  }

  /** The values of the host outputs. */
  function HostsOf<V>(host: set<string>, mem: Memory<V>): map<string, V> {
    map o | o in host && Host(o) in mem :: mem[Host(o)]
  }

  ghost predicate Allocated<V, F>(g: StepGraph<V, F>, mem: Memory<V>) {
    && (forall n :: n in g.Names() ==> State(n, 0) in mem && State(n, 1) in mem)
    && (forall o :: o in g.host ==> Host(o) in mem)
  }

  /** What the host outputs of a step are. */
  ghost function HostValues<V, F>(g: StepGraph<V, F>, st: map<string, V>, feeds: F): map<string, V> {
    map o | o in g.host :: g.Value(o, st, feeds)
  }

  /** The memory after one step of the loop. */
  function StepMemory<V, F>(g: StepGraph<V, F>, ins: Binding, outs: Binding, mem: Memory<V>, slot: int, feeds: F,
                            ops: seq<Op<V>>): Memory<V> {
    Exec(g, ops, BindInputs(g, |g.pairs|, ins, slot), BindOutputs(g, |g.pairs|, outs, 1 - slot), map[], mem, feeds)
  }

  /** One step, under any legal order of the runtime's actions, puts the pure next state in the other slot. */
  lemma StepIsNext<V, F>(g: StepGraph<V, F>, ins: Binding, outs: Binding, mem: Memory<V>, slot: int, feeds: F,
                         ops: seq<Op<V>>)
    requires g.WellFormed() && g.Injective() && HostBound(g, outs) && Allocated(g, mem) && (slot == 0 || slot == 1)
    requires Legal(g, ops, {}, {})
    ensures var end, st := StepMemory(g, ins, outs, mem, slot, feeds, ops), StateOf(g.Names(), mem, slot);
            && Allocated(g, end)
            && StateOf(g.Names(), end, 1 - slot) == Next(g, st, feeds)
            && HostsOf(g.host, end) == HostValues(g, st, feeds)
  {
    hide Exec, BindInputs, BindOutputs, Legal, PingPong, HostBound, Allocated, StateOf, Next, HostsOf, HostValues;
    BindingIsPingPong(g, ins, outs, slot);
    var k := |g.pairs|;
    PingPongStep(g, BindInputs(g, k, ins, slot), BindOutputs(g, k, outs, 1 - slot), mem, slot, feeds, ops);
  }

  lemma PingPongStep<V, F>(g: StepGraph<V, F>, ins: Binding, outs: Binding, mem: Memory<V>, slot: int, feeds: F,
                           ops: seq<Op<V>>)
    requires g.WellFormed() && g.Injective() && Allocated(g, mem) && (slot == 0 || slot == 1)
    requires Legal(g, ops, {}, {}) && PingPong(g, ins, outs, slot)
    ensures var end, st := Exec(g, ops, ins, outs, map[], mem, feeds), StateOf(g.Names(), mem, slot);
            && Allocated(g, end)
            && StateOf(g.Names(), end, 1 - slot) == Next(g, st, feeds)
            && HostsOf(g.host, end) == HostValues(g, st, feeds)
  {
    var st := StateOf(g.Names(), mem, slot);
    PingPongSeparates(g, ins, outs, slot);
    PingPongInputs(g, ins, outs, mem, slot);
    assert OnTrack(g, ins, outs, map[], mem, st, feeds, {}, {});
    hide Legal, Separate, Exec, OnTrack, Inputs, Bound, PingPong, Next, StateOf;
    ExecCorrect(g, ops, ins, outs, map[], mem, st, feeds, {}, {});
    OutputsMakeNext(g, ins, outs, mem, Exec(g, ops, ins, outs, map[], mem, feeds), slot, st, feeds);
  }

  lemma OutputsMakeNext<V, F>(g: StepGraph<V, F>, ins: Binding, outs: Binding, mem: Memory<V>, end: Memory<V>,
                              slot: int, st: map<string, V>, feeds: F)
    requires g.WellFormed() && Allocated(g, mem) && end.Keys == mem.Keys && PingPong(g, ins, outs, slot)
    requires (slot == 0 || slot == 1)
    requires forall o :: o in g.Outputs() ==> o in outs && outs[o] in end && end[outs[o]] == g.Value(o, st, feeds)
    ensures Allocated(g, end)
    ensures StateOf(g.Names(), end, 1 - slot) == Next(g, st, feeds)
    ensures HostsOf(g.host, end) == HostValues(g, st, feeds)
  {
    hide Inputs, Bound;
    forall n | n in g.Names()
      ensures State(n, 1 - slot) in end && end[State(n, 1 - slot)] == g.Value(FedBy(g, n), st, feeds)
    {
      var i :| 0 <= i < |g.pairs| && g.pairs[i].0 == n;
      FedByAt(g, i);
      assert g.pairs[i].1 in g.Outputs();
    }
  }

  lemma PingPongInputs<V, F>(g: StepGraph<V, F>, ins: Binding, outs: Binding, mem: Memory<V>, slot: int)
    requires g.WellFormed() && Allocated(g, mem) && (slot == 0 || slot == 1) && PingPong(g, ins, outs, slot)
    ensures Bound(g, ins, outs, mem)
    ensures Inputs(g.Names(), ins, mem) == StateOf(g.Names(), mem, slot)
    ensures StateOf(g.Names(), mem, slot).Keys == g.Names()
  {
    hide PingPong, Allocated;
    forall n | n in g.Names() ensures n in ins && ins[n] == State(n, slot) && State(n, slot) in mem {
      InputAllocated(g, ins, outs, mem, slot, n);
    }
    forall o | o in g.Outputs() ensures o in outs && outs[o] in mem {
      OutputAllocated(g, ins, outs, mem, slot, o);
    }
  }

  lemma InputAllocated<V, F>(g: StepGraph<V, F>, ins: Binding, outs: Binding, mem: Memory<V>, slot: int, n: string)
    requires Allocated(g, mem) && (slot == 0 || slot == 1) && PingPong(g, ins, outs, slot) && n in g.Names()
    ensures n in ins && ins[n] == State(n, slot) && State(n, slot) in mem
  {
    var i :| 0 <= i < |g.pairs| && g.pairs[i].0 == n;
  }

  lemma OutputAllocated<V, F>(g: StepGraph<V, F>, ins: Binding, outs: Binding, mem: Memory<V>, slot: int, o: string)
    requires Allocated(g, mem) && (slot == 0 || slot == 1) && PingPong(g, ins, outs, slot) && o in g.Outputs()
    ensures o in outs && outs[o] in mem
  {
    if o in g.Produced() {
      var i :| 0 <= i < |g.pairs| && g.pairs[i].1 == o;
      assert g.pairs[i].0 in g.Names();
    }
  }

  // --- The double-buffered loop -----------------------------------------------------------------

  class BoundStepLoop<V, F> {
    const g: StepGraph<V, F>
    var buffers: Memory<V>
    var inputBinding: Binding
    var outputBinding: Binding
    var slot: int

    ghost predicate Valid()
      reads this
    {
      g.WellFormed() && (slot == 0 || slot == 1) && Allocated(g, buffers) && HostBound(g, outputBinding)
    }

    /** The current state, copied out of the buffers of the current slot. */
    function Current(): map<string, V>
      reads this
    {
      StateOf(g.Names(), buffers, slot)
    }

    /** Two buffers per state tensor, the first holding its initial value and the second whatever it was
        allocated with. */
    constructor (g: StepGraph<V, F>, init: map<string, V>, blank: Memory<V>)
      requires g.WellFormed() && Allocated(g, blank) && init.Keys == g.Names()
      ensures Valid() && this.g == g && slot == 0
      ensures Current() == init
    {
      this.g := g;
      buffers := map b | b in blank :: if b.State? && b.slot == 0 && b.name in init then init[b.name] else blank[b];
      inputBinding := map[];
      outputBinding := map o | o in g.host :: Host(o);
      slot := 0;
    }

    method BindState()
      requires Valid()
      modifies this`inputBinding, this`outputBinding
      ensures inputBinding == BindInputs(g, |g.pairs|, old(inputBinding), slot)
      ensures outputBinding == BindOutputs(g, |g.pairs|, old(outputBinding), 1 - slot)
    {
      for k := 0 to |g.pairs|
        invariant inputBinding == BindInputs(g, k, old(inputBinding), slot)
        invariant outputBinding == BindOutputs(g, k, old(outputBinding), 1 - slot)
      {
        inputBinding := inputBinding[g.pairs[k].0 := State(g.pairs[k].0, slot)];
        outputBinding := outputBinding[g.pairs[k].1 := State(g.pairs[k].0, 1 - slot)];
      }
    }

    /** One step under any legal order of the runtime's actions; the host outputs come back. */
    method Step(feeds: F, ops: seq<Op<V>>) returns (host: map<string, V>)
      requires Valid() && g.Injective() && Legal(g, ops, {}, {})
      modifies this
      ensures Valid() && slot == 1 - old(slot)
      ensures Current() == Next(g, old(Current()), feeds)
      ensures host == map o | o in g.host :: g.Value(o, old(Current()), feeds)
    {
      hide Legal, Exec, BindInputs, BindOutputs, StateOf, Next, HostBound, Allocated, HostsOf;
      BindState();
      StepIsNext(g, old(inputBinding), old(outputBinding), buffers, slot, feeds, ops);
      HostsStayBound(g, old(outputBinding), 1 - slot);
      buffers := Exec(g, ops, inputBinding, outputBinding, map[], buffers, feeds);
      slot := 1 - slot;
      host := HostsOf(g.host, buffers);
    }

    /** Any number of steps, each under its own legal order: the pure step iterated over the feeds. */
    method Run(feeds: seq<F>, schedules: seq<seq<Op<V>>>)
      requires Valid() && g.Injective() && |schedules| == |feeds|
      requires forall i :: 0 <= i < |schedules| ==> Legal(g, schedules[i], {}, {})
      modifies this
      ensures Valid() && Current() == Iterate(g, old(Current()), feeds)
    {
      for i := 0 to |feeds|
        invariant Valid() && Current() == Iterate(g, old(Current()), feeds[..i])
      {
        var _ := Step(feeds[i], schedules[i]);
        assert feeds[..i + 1][..i] == feeds[..i];
      }
      assert feeds[..|feeds|] == feeds;
    }
  }

  // --- Why two buffers, and why no output may feed two of them -------------------------------------

  /** What every output is bound to, injective or not: the buffer of the last pair it feeds. */
  lemma {:induction false} LastPairBound<V, F>(g: StepGraph<V, F>, k: nat, base: Binding, slot: int, o: string)
    returns (i: int)
    requires k <= |g.pairs| && (exists i :: 0 <= i < k && g.pairs[i].1 == o)
    ensures 0 <= i < k && g.pairs[i].1 == o && (forall j :: i < j < k ==> g.pairs[j].1 != o)
    ensures o in BindOutputs(g, k, base, slot) && BindOutputs(g, k, base, slot)[o] == State(g.pairs[i].0, slot)
  {
    if g.pairs[k - 1].1 == o {
      i := k - 1;
    } else {
      i := LastPairBound(g, k - 1, base, slot, o);
    }
  }

  /** A run writes no buffer but those its outputs are bound to. */
  lemma {:induction false} ExecWritesOutputsOnly<V, F>(g: StepGraph<V, F>, ops: seq<Op<V>>, ins: Binding, outs: Binding,
                                                       regs: Registers<V>, mem: Memory<V>, feeds: F,
                                                       fetched: set<(string, string)>, emitted: set<string>, b: Buffer)
    requires Legal(g, ops, fetched, emitted) && b in mem
    requires forall o :: o in g.Outputs() && o in outs ==> outs[o] != b
    ensures b in Exec(g, ops, ins, outs, regs, mem, feeds) && Exec(g, ops, ins, outs, regs, mem, feeds)[b] == mem[b]
    decreases |ops|
  {
    if ops != [] {
      var (regs', mem') := Act(g, ops[0], ins, outs, regs, mem, feeds);
      match ops[0] {
        case Fetch(o, n) =>
          ExecWritesOutputsOnly(g, ops[1..], ins, outs, regs', mem', feeds, fetched + {(o, n)}, emitted, b);
        case Scribble(o, junk) =>
          ExecWritesOutputsOnly(g, ops[1..], ins, outs, regs', mem', feeds, fetched, emitted, b);
        case Emit(o) =>
          ExecWritesOutputsOnly(g, ops[1..], ins, outs, regs', mem', feeds, fetched, emitted + {o}, b);
      }
    }
  }

  /** When one output feeds two state inputs, the earlier one's next buffer is never written. */
  lemma SharedOutputLeavesStale<V, F>(g: StepGraph<V, F>, ins: Binding, outs: Binding, mem: Memory<V>, slot: int,
                                      feeds: F, ops: seq<Op<V>>, i: int, j: int)
    requires g.WellFormed() && HostBound(g, outs) && Allocated(g, mem) && (slot == 0 || slot == 1)
    requires Legal(g, ops, {}, {})
    requires 0 <= i < j < |g.pairs| && g.pairs[i].1 == g.pairs[j].1
    ensures var b := State(g.pairs[i].0, 1 - slot);
            b in StepMemory(g, ins, outs, mem, slot, feeds, ops)
              && StepMemory(g, ins, outs, mem, slot, feeds, ops)[b] == mem[b]
  {
    var k, b := |g.pairs|, State(g.pairs[i].0, 1 - slot);
    var bo := BindOutputs(g, k, outs, 1 - slot);
    HostsStayBound(g, outs, 1 - slot);
    assert g.pairs[i].0 in g.Names();
    forall o | o in g.Outputs() && o in bo ensures bo[o] != b {
      if o in g.Produced() {
        var m := LastPairBound(g, k, outs, 1 - slot, o);
        assert m != i;
      }
    }
    hide Legal, Exec, BindInputs, BindOutputs;
    ExecWritesOutputsOnly(g, ops, BindInputs(g, k, ins, slot), bo, map[], mem, feeds, {}, {}, b);
  }

  /** So injectivity is exactly what correctness needs: without it, some step function and initial memory
      give a wrong state under every legal order. */
  lemma SharedOutputBreaks<V, F>(g: StepGraph<V, F>, ins: Binding, outs: Binding, mem: Memory<V>, slot: int, v: V, w: V)
    returns (bad: StepGraph<V, F>, start: Memory<V>)
    requires g.WellFormed() && !g.Injective() && HostBound(g, outs) && Allocated(g, mem) && (slot == 0 || slot == 1)
    requires v != w
    ensures bad.pairs == g.pairs && bad.host == g.host && bad.deps == g.deps && Allocated(bad, start)
    ensures forall feeds, ops :: Legal(bad, ops, {}, {}) ==>
              StateOf(bad.Names(), StepMemory(bad, ins, outs, start, slot, feeds, ops), 1 - slot)
              != Next(bad, StateOf(bad.Names(), start, slot), feeds)
  {
    var i, j :| 0 <= i < j < |g.pairs| && g.pairs[i].1 == g.pairs[j].1;
    var b := State(g.pairs[i].0, 1 - slot);
    bad := g.(eval := (o, st, f) => v);
    start := mem[b := w];
    assert bad.WellFormed() && Allocated(bad, start) && HostBound(bad, outs);
    FedByAt(bad, i);
    forall feeds, ops | Legal(bad, ops, {}, {})
      ensures StateOf(bad.Names(), StepMemory(bad, ins, outs, start, slot, feeds, ops), 1 - slot)
           != Next(bad, StateOf(bad.Names(), start, slot), feeds)
    {
      SharedOutputLeavesStale(bad, ins, outs, start, slot, feeds, ops, i, j);
      hide Legal, StepMemory;
      var n := g.pairs[i].0;
      assert StateOf(bad.Names(), StepMemory(bad, ins, outs, start, slot, feeds, ops), 1 - slot)[n] == w;
      assert Next(bad, StateOf(bad.Names(), start, slot), feeds)[n] == v;
    }
  }

  /** Two counters, the second remembering the first one's previous value. */
  function Counters(): StepGraph<int, ()> {
    StepGraph([("p", "p_next"), ("q", "q_next")], {}, o => {"p"},
              (o: string, st: map<string, int>, f: ()) =>
                if "p" in st then (if o == "p_next" then st["p"] + 1 else st["p"]) else 0)
  }

  lemma CountersShape()
    ensures var g := Counters();
            && g.WellFormed() && g.Injective() && g.host == {}
            && g.Names() == {"p", "q"} && g.Outputs() == {"p_next", "q_next"}
            && FedBy(g, "q") == "q_next"
  {
    var g := Counters();
    assert g.pairs[0] == ("p", "p_next") && g.pairs[1] == ("q", "q_next");
    assert g.Names() == {"p", "q"};
    assert g.Produced() == {"p_next", "q_next"};
    FedByAt(g, 1);
  }

  /** The second counter reads only after the first one has been written. */
  const EarlyWrite: seq<Op<int>> := [Fetch("p_next", "p"), Emit("p_next"), Fetch("q_next", "p"), Emit("q_next")]

  lemma EarlyWriteIsLegal()
    ensures Legal(Counters(), EarlyWrite, {}, {})
  {
    CountersShape();
    var g := Counters();
    var rest1, rest2, rest3 := EarlyWrite[1..], EarlyWrite[2..], EarlyWrite[3..];
    assert rest1[1..] == rest2 && rest2[1..] == rest3 && rest3[1..] == [];
    var fetched := {("p_next", "p"), ("q_next", "p")};
    assert {("p_next", "p")} + {("q_next", "p")} == fetched && {"p_next"} + {"q_next"} == g.Outputs();
    assert Legal(g, [], fetched, {"p_next"} + {"q_next"});
    assert Legal(g, rest3, fetched, {"p_next"});
    assert {} + {"p_next"} == {"p_next"} && {} + {("p_next", "p")} == {("p_next", "p")};
    assert Legal(g, rest2, {("p_next", "p")}, {"p_next"});
    assert Legal(g, rest1, {("p_next", "p")}, {});
  }

  const OneBufferIns: Binding := map["p" := State("p", 0), "q" := State("q", 0)]

  const OneBufferOuts: Binding := map["p_next" := State("p", 0), "q_next" := State("q", 0)]

  lemma EarlyWriteRun(mem: Memory<int>)
    requires State("p", 0) in mem && State("q", 0) in mem
    ensures var p := mem[State("p", 0)];
            Exec(Counters(), EarlyWrite, OneBufferIns, OneBufferOuts, map[], mem, ())
            == mem[State("p", 0) := p + 1][State("q", 0) := p + 1]
  {
    var g := Counters();
    var p := mem[State("p", 0)];
    var rest1, rest2, rest3 := EarlyWrite[1..], EarlyWrite[2..], EarlyWrite[3..];
    assert rest1[1..] == rest2 && rest2[1..] == rest3 && rest3[1..] == [];
    var regs1: Registers<int> := map[("p_next", "p") := p];
    var mem2 := mem[State("p", 0) := p + 1];
    var regs3 := regs1[("q_next", "p") := p + 1];
    var mem4 := mem2[State("q", 0) := p + 1];
    assert Args(regs1, "p_next", {"p"})["p"] == p && Args(regs3, "q_next", {"p"})["p"] == p + 1;
    assert Act(g, EarlyWrite[0], OneBufferIns, OneBufferOuts, map[], mem, ()) == (regs1, mem);
    assert Act(g, rest1[0], OneBufferIns, OneBufferOuts, regs1, mem, ()) == (regs1, mem2);
    assert Act(g, rest2[0], OneBufferIns, OneBufferOuts, regs1, mem2, ()) == (regs3, mem2);
    assert Act(g, rest3[0], OneBufferIns, OneBufferOuts, regs3, mem2, ()) == (regs3, mem4);
    hide Act, Args, Counters;
    assert Exec(g, rest3, OneBufferIns, OneBufferOuts, regs3, mem2, ()) == mem4;
    assert Exec(g, rest2, OneBufferIns, OneBufferOuts, regs1, mem2, ()) == mem4;
    assert Exec(g, rest1, OneBufferIns, OneBufferOuts, regs1, mem, ()) == mem4;
  }

  /** With one buffer per tensor instead of two, a legal order overwrites a value another kernel has yet to
      read. */
  lemma SingleBufferBreaks(mem: Memory<int>)
    requires State("p", 0) in mem && State("q", 0) in mem
    ensures var g := Counters();
            && g.WellFormed() && g.Injective() && Legal(g, EarlyWrite, {}, {})
            && g.pairs == [("p", "p_next"), ("q", "q_next")]
            && OneBufferIns == map["p" := State("p", 0), "q" := State("q", 0)]
            && OneBufferOuts == map["p_next" := State("p", 0), "q_next" := State("q", 0)]
            && StateOf(g.Names(), Exec(g, EarlyWrite, OneBufferIns, OneBufferOuts, map[], mem, ()), 0)
               != Next(g, StateOf(g.Names(), mem, 0), ())
  {
    var g := Counters();
    CountersShape();
    EarlyWriteIsLegal();
    EarlyWriteRun(mem);
    hide Legal, Exec;
    var end := Exec(g, EarlyWrite, OneBufferIns, OneBufferOuts, map[], mem, ());
    assert StateOf(g.Names(), end, 0)["q"] == mem[State("p", 0)] + 1;
    assert Next(g, StateOf(g.Names(), mem, 0), ())["q"] == mem[State("p", 0)];
  }
}
