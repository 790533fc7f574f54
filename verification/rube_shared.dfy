// A module with a kernel as the parent of another: two lanes may end up writing one net.

module RubeShared {
  import opened Prelude
  import opened RubeNetlist
  import opened RubeLayout
  import opened RubeHistory
  import opened RubeLanes
  import opened RubeSim
  import opened RubeBuild
  import opened RubeCompile
  import opened RubeRipple
  import opened RubeChip

  // In this state, evaluating one of the two lanes before the other makes a difference.
  predicate OrderMatters<S(==)>(f: (S, seq<bv64>) -> Resumed<S>, m: Machine<S>, a: Lane, b: Lane) {
    EvalLanes(f, m, [a, b]) != EvalLanes(f, m, [b, a])
  }

  lemma TwoInTurn<S>(f: (S, seq<bv64>) -> Resumed<S>, m: Machine<S>, a: Lane, b: Lane)
    ensures EvalLanes(f, m, [a, b]) == EvalLane(f, EvalLane(f, m, a), b)
  {
    hide EvalLane;
    assert [a, b][..1] == [a] && [a][..0] == [];
    assert EvalLanes(f, m, [a]) == EvalLane(f, m, a);
  }

  lemma LastWriteStays<S>(f: (S, seq<bv64>) -> Resumed<S>, m: Machine<S>, a: Lane, b: Lane, t: nat)
    requires a.FastLane? && b.FastLane? && b.out == t < |m.w.futr| && t < |m.w.flags|
    ensures var w := EvalLanes(f, m, [a, b]).w; t < |w.futr| && w.futr[t] == FastWrite(m.w, b).val
  {
    hide FastWrite;
    TwoInTurn(f, m, a, b);
    var m' := EvalLane(f, m, a);
    SetFutureKeepsCurrent(m.w, FastWrite(m.w, a));
    FastWriteReadsCurrent(m.w, m'.w, b);
    FastWritesOut(m'.w, b);
  }

  // Every trigger clear, and all of them 1 but one.
  function OneLow(count: nat, low: nat): Wad {
    Wad(Zeros(count), seq(count, i => if i == low then 0 else 1), Zeros(count), seq(count, _ => 0))
  }

  lemma ClearWrite(w: Wad, l: Lane)
    requires l.FastLane? && FlagsAt(w, l.in1) == 0 && FlagsAt(w, l.in2) == 0
    ensures FastWrite(w, l).val == EvalRaw(l.op, CurrentAt(w, l.in1), CurrentAt(w, l.in2), l.mask)
  {
    hide EvalRaw, Eval4State;
  }

  lemma AndOfZero(x: bv64)
    ensures EvalRaw(And, 0, x, 1) == 0
  {
  }

  lemma OrOfOne(x: bv64)
    ensures EvalRaw(Or, 1, x, 1) == 1
  {
  }

  // An and lane and an or lane with different first inputs and one output.
  lemma SharedOutput<S>(f: (S, seq<bv64>) -> Resumed<S>, a: Lane, b: Lane) returns (m: Machine<S>)
    requires a.FastLane? && b.FastLane? && a.op == And && b.op == Or && a.mask == b.mask == 1
    requires a.out == b.out && a.in1 != b.in1
    ensures OrderMatters(f, m, a, b)
  {
    hide EvalRaw, Eval4State, EvalLanes, FastWrite;
    var count := a.in1 + a.in2 + b.in1 + b.in2 + a.out + 1;
    m := Machine(OneLow(count, a.in1), []);
    ClearWrite(m.w, a);
    ClearWrite(m.w, b);
    AndOfZero(CurrentAt(m.w, a.in2));
    OrOfOne(CurrentAt(m.w, b.in2));
    LastWriteStays(f, m, a, b, a.out);
    LastWriteStays(f, m, b, a, a.out);
  }

  // An and gate, and an or gate below it whose output is passed up to the output of the and gate.
  predicate PassedUp(v: View, a: Gate, o: Gate) {
    && GateOk(v.modules, v.ports, a, And) && GateOk(v.modules, v.ports, o, Or)
    && a.id != o.id && a.in1.index != o.in1.index && Joint(v.net, o.out, a.out)
    && UndrivenPort(v.net, a.in1) && UndrivenPort(v.net, o.in1)
  }

  lemma SharedLanes<S>(f: (S, seq<bv64>) -> Resumed<S>, c: Chip<S>, a: Gate, o: Gate)
    returns (j: nat, k: nat, m: Machine<S>)
    requires Frozen(c.v, c.trig, c.perm, c.lanes) && PassedUp(c.v, a, o)
    ensures j < |c.lanes| && k < |c.lanes| && OrderMatters(f, m, c.lanes[j], c.lanes[k]) && !AllIndependent(c.lanes)
  {
    hide Frozen, OutputsApart, AllIndependent, OrderMatters, ViewOk, GateOk, SingleDriver;
    FrozenShows(c.v, c.trig, c.perm, c.lanes);
    j := GateLane(c.v, c.trig, c.perm, c.lanes, a, And);
    k := GateLane(c.v, c.trig, c.perm, c.lanes, o, Or);
    FirstInputsDiffer(c.v, c.trig, a, o);
    m := SharedOutput(f, c.lanes[j], c.lanes[k]);
    if AllIndependent(c.lanes) {
      OnlyWriter(c.lanes, j, k, c.trig[a.out.index]);
    }
  }

  lemma FirstInputsDiffer(v: View, trig: seq<nat>, a: Gate, o: Gate)
    requires ViewOk(v) && SingleDriver(v) && OneTriggerPerNet(v.net, trig) && |trig| == |v.ports| && PassedUp(v, a, o)
    ensures a.in1.index < |trig| && o.in1.index < |trig| && trig[a.in1.index] != trig[o.in1.index]
    ensures a.out.index < |trig| && o.out.index < |trig| && trig[a.out.index] == trig[o.out.index]
  {
    hide SingleDriver, NetOk, PortOk, ModuleOk;
    RootsDiffer(v, trig, a.in1.index, o.in1.index);
  }

  // The layout: connecting and freezing are accepted, both gates write one trigger, and the order of their lanes
  // matters.
  method ParentKernelShares<S>(f: (S, seq<bv64>) -> Resumed<S>, initial: nat -> S)
    returns (engine: SimEngine<S>, ghost c: Chip<S>, ghost j: nat, ghost k: nat, ghost m: Machine<S>)
    ensures Frozen(c.v, c.trig, c.perm, c.lanes) && Runs(engine, c) && c.resume == f && !AllIndependent(c.lanes)
    ensures j < |c.lanes| && k < |c.lanes| && OrderMatters(f, m, c.lanes[j], c.lanes[k])
  {
    hide Good, Keeps, Grew, Runs, Frozen, AllIndependent, KernelsUndriven, OutputsApart, Owns, Built, OrderMatters;
    hide ViewOk, NetOk, Layout.Valid, Allowed, GateOk;
    var layout := new Layout();
    EmptyIsGood();
    var parent := OpenModule(layout, None, 2, 1, Fast(And));
    ghost var v1, a := layout.State(), Gate(parent, In(0), In(1), Out(2));
    GateOpened(v1, a, And);
    var o := CreateGate2(layout, Some(parent), Or);
    ghost var v2 := layout.State();
    GatesNested(v1, v2, a, o);
    Link(layout, o.out, o.id, Out(2), parent);
    ghost var v3 := layout.State();
    KeepsGate(v2, v3, a, And);
    KeepsGate(v2, v3, o, Or);
    var trig;
    engine, trig, c := Assemble(layout, f, initial);
    KeepsGate(v3, c.v, a, And);
    KeepsGate(v3, c.v, o, Or);
    KeepsJoint(v3, c.v, o.out, a.out);
    j, k, m := SharedLanes(f, c, a, o);
  }

  lemma GateOpened(v: View, g: Gate, op: KernelOp)
    requires g.id < |v.modules|
      && g == Gate(g.id, In(v.modules[g.id].inFirst), In(v.modules[g.id].inFirst + 1), Out(v.modules[g.id].outFirst))
    requires v.modules[g.id].kernel == Fast(op) && v.modules[g.id].inCount == 2 && v.modules[g.id].outCount == 1
    requires Owns(v.modules, v.ports, g.id, g.in1) && Owns(v.modules, v.ports, g.id, g.in2)
    requires Owns(v.modules, v.ports, g.id, g.out)
    ensures GateOk(v.modules, v.ports, g, op)
  {
    hide Owns;
  }

  lemma GatesNested(v1: View, v2: View, a: Gate, o: Gate)
    requires GateOk(v1.modules, v1.ports, a, And) && GateOk(v2.modules, v2.ports, o, Or)
    requires Built(v1, v2, Some(a.id), o.id) && UndrivenFrom(v1.net, 0, 3) && a.out == Out(2)
    ensures Good(v2) && GateOk(v2.modules, v2.ports, a, And) && Allowed(v2.modules, v2.ports, o.out, o.id, a.out, a.id)
    ensures UndrivenFrom(v2.net, 0, 3) && a.id != o.id
  {
    hide Good;
    KeepsGate(v1, v2, a, And);
    GrewUndriven(v1, v2, 0, 3);
  }
}
