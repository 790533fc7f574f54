// Building half adders, full adders and ripple-carry adders out of connected gates.

module RubeBuild {
  import opened Prelude
  import opened SiloDisjointSet
  import opened RubeNetlist
  import opened RubeLayout
  import opened RubeHistory

  const BOOL := PortType(0, 1)

  // Fast kernels have an output to write, and a port where they look for their first input.
  predicate FastHavePorts(v: View) {
    forall m :: 0 <= m < |v.modules| && v.modules[m].kernel.Fast? ==>
      v.modules[m].inFirst < |v.ports| && v.modules[m].outCount > 0
  }

  predicate Good(v: View) {
    Sound(v) && FastHavePorts(v)
  }

  predicate HasKernel(ms: seq<Module>, m: nat) {
    m < |ms| && ms[m].kernel != NoKernel
  }

  predicate KernelOutput(v: View, p: nat)
    requires p < |v.ports|
  {
    v.ports[p].isOut && HasKernel(v.modules, v.ports[p].owner)
  }

  // No output port of a module with a kernel has a driver.
  predicate KernelsUndriven(v: View) {
    forall p :: 0 <= p < |v.ports| && KernelOutput(v, p) && p < |v.net.driver| ==> v.net.driver[p] == None
  }

  function Open(m: Module): Module {
    m.(isSealed := false)
  }

  // Whatever is known about connected ports stays known.
  predicate Keeps(v: View, v': View) {
    && ViewOk(v) && ViewOk(v') && |v.modules| <= |v'.modules| && |v.ports| <= |v'.ports|
    && (forall m :: 0 <= m < |v.modules| ==> Open(v'.modules[m]) == Open(v.modules[m]))
    && (forall p :: 0 <= p < |v.ports| ==> v'.ports[p] == v.ports[p])
    && (forall p, q :: 0 <= p < |v.ports| && 0 <= q < |v.ports| && SameNet(v.net, p, q) ==> SameNet(v'.net, p, q))
  }

  // v' adds to v without sealing its modules, driving its ports, or driving an output of a new kernel.
  predicate Grew(v: View, v': View) {
    && Keeps(v, v')
    && (forall m :: 0 <= m < |v.modules| ==> v'.modules[m] == v.modules[m])
    && (forall p :: 0 <= p < |v.ports| ==> v'.net.driver[p] == v.net.driver[p])
    && (KernelsUndriven(v) ==> KernelsUndriven(v'))
  }

  lemma KeepsChain(a: View, b: View, c: View)
    requires Keeps(a, b) && Keeps(b, c)
    ensures Keeps(a, c)
  {
    hide ViewOk;
  }

  lemma GrewChain(a: View, b: View, c: View)
    requires Grew(a, b) && Grew(b, c)
    ensures Grew(a, c)
  {
    hide ViewOk, Keeps, KernelsUndriven;
    KeepsChain(a, b, c);
    KeepsSizes(a, b);
  }

  lemma KeepsSizes(a: View, b: View)
    requires Keeps(a, b)
    ensures |a.modules| <= |b.modules| && |a.ports| <= |b.ports| && ViewOk(a) && ViewOk(b)
  {
  }

  lemma AddGrows(v: View, parent: Option<nat>, ins: seq<PortType>, outs: seq<PortType>, kernel: Kernel)
    requires Good(v) && (parent.Some? ==> parent.value < |v.modules| && !IsSealed(v, parent.value))
    requires kernel.Fast? ==> |outs| > 0
    ensures Good(WithModule(v, parent, ins, outs, kernel)) && Grew(v, WithModule(v, parent, ins, outs, kernel))
    ensures forall p :: |v.ports| <= p < |v.ports| + |ins| + |outs| ==>
      WithModule(v, parent, ins, outs, kernel).net.driver[p] == None
  {
    hide Covered, SingleDriver;
    var v' := WithModule(v, parent, ins, outs, kernel);
    AddKeepsCovered(v, parent, ins, outs, kernel);
    AddKeepsSingleDriver(v, parent, ins, outs, kernel);
    AddKeepsView(v, parent, ins, outs, kernel);
    forall p | 0 <= p < |v.ports|
      ensures HasKernel(v'.modules, v.ports[p].owner) <==> HasKernel(v.modules, v.ports[p].owner)
    {
      assert PortOk(v, p);
    }
  }

  lemma ConnectJoins(v: View, src: PortId, dst: PortId, w: nat)
    requires Good(v) && ConnectAllowed(v, src, dst) && Proper(v, src) && Proper(v, dst) && Winner(v, src, dst, w)
    ensures var v' := Connected(v, src, dst, w);
            Good(v') && Keeps(v, v') && SameNet(v'.net, src.index, dst.index)
  {
    hide Covered, SingleDriver;
    var v' := Connected(v, src, dst, w);
    ConnectKeepsCovered(v, src, dst, w);
    ConnectKeepsSingleDriver(v, src, dst, w);
    forall p, q | 0 <= p < |v.ports| && 0 <= q < |v.ports| && SameNet(v.net, p, q)
      ensures SameNet(v'.net, p, q)
    {
      MergeJoins(v.net.root, src.index, dst.index, w, p, q);
    }
  }

  lemma SealKeeps(v: View, v': View, m: nat)
    requires Good(v) && m < |v.modules| && SealedBy(v, v', m) && !IsSealed(v, m)
    requires forall c: nat :: ChildOf(v, c, m) ==> IsSealed(v, c)
    ensures Good(v') && Keeps(v, v')
  {
    hide Covered, SingleDriver;
    SealKeepsCovered(v, v', m);
    SealKeepsSingleDriver(v, v', m);
  }

  // Port p belongs to module m and points the way its id says.
  predicate Belongs(ms: seq<Module>, ps: seq<Port>, m: nat, p: PortId) {
    m < |ms| && p.index < |ps| && ps[p.index].owner == m && ps[p.index].isOut == p.Out?
  }

  predicate Owns(ms: seq<Module>, ps: seq<Port>, m: nat, p: PortId) {
    Belongs(ms, ps, m, p) && ps[p.index].typ == BOOL
  }

  predicate UndrivenPort(n: Net, p: PortId) {
    p.index < |n.driver| && n.driver[p.index] == None
  }

  predicate UndrivenFrom(n: Net, from: nat, to: nat) {
    to <= |n.driver| && forall p :: from <= p < to ==> n.driver[p] == None
  }

  predicate Joint(n: Net, p: PortId, q: PortId) {
    p.index < |n.root| && q.index < |n.root| && SameNet(n, p.index, q.index)
  }

  predicate ParentIs(ms: seq<Module>, m: nat, parent: nat) {
    m < |ms| && ms[m].parent == Some(parent)
  }

  predicate Siblings(ms: seq<Module>, m: nat, k: nat) {
    m < |ms| && k < |ms| && ms[m].parent == ms[k].parent
  }

  // Where a connection may run, in terms of the owners of its ends.
  predicate Allowed(ms: seq<Module>, ps: seq<Port>, src: PortId, s: nat, dst: PortId, d: nat) {
    && Belongs(ms, ps, s, src) && Belongs(ms, ps, d, dst) && ps[src.index].typ == ps[dst.index].typ
    && (|| (ParentIs(ms, d, s) && src.In? && dst.In?)
        || (ParentIs(ms, s, d) && src.Out? && dst.Out?)
        || (Siblings(ms, s, d) && src.Out? && dst.In?))
  }

  lemma AllowedConnects(v: View, src: PortId, s: nat, dst: PortId, d: nat)
    requires ViewOk(v) && Allowed(v.modules, v.ports, src, s, dst, d) && UndrivenPort(v.net, dst)
    ensures ConnectAllowed(v, src, dst) && Proper(v, src) && Proper(v, dst)
  {
    hide NetOk;
    assert PortOk(v, src.index) && PortOk(v, dst.index) && ModuleOk(v, s) && ModuleOk(v, d);
  }

  lemma GoodIsOk(v: View)
    requires Good(v)
    ensures ViewOk(v)
  {
  }

  lemma KeepsJoint(v: View, v': View, p: PortId, q: PortId)
    requires Keeps(v, v') && Joint(v.net, p, q)
    ensures Joint(v'.net, p, q)
  {
    hide ViewOk;
    PortsHaveRoots(v);
    PortsHaveRoots(v');
  }

  lemma PortsHaveRoots(v: View)
    requires ViewOk(v)
    ensures |v.net.root| == |v.ports| == |v.net.driver|
  {
  }

  datatype Gate = Gate(id: nat, in1: PortId, in2: PortId, out: PortId)

  predicate GateOk(ms: seq<Module>, ps: seq<Port>, g: Gate, op: KernelOp) {
    && Owns(ms, ps, g.id, g.in1) && Owns(ms, ps, g.id, g.in2) && Owns(ms, ps, g.id, g.out)
    && ms[g.id].kernel == Fast(op) && ms[g.id].inCount == 2 && ms[g.id].outCount == 1
    && g.in1 == In(ms[g.id].inFirst) && g.in2 == In(ms[g.id].inFirst + 1) && g.out == Out(ms[g.id].outFirst)
  }

  lemma KeepsOwner(v: View, v': View, m: nat, p: PortId)
    requires Keeps(v, v') && Owns(v.modules, v.ports, m, p)
    ensures Owns(v'.modules, v'.ports, m, p)
  {
    hide ViewOk;
  }

  lemma KeepsGate(v: View, v': View, g: Gate, op: KernelOp)
    requires Keeps(v, v') && GateOk(v.modules, v.ports, g, op)
    ensures GateOk(v'.modules, v'.ports, g, op)
  {
    hide ViewOk;
    assert Open(v'.modules[g.id]) == Open(v.modules[g.id]);
  }

  // Whether new modules may be put under `parent`.
  predicate Under(v: View, parent: Option<nat>) {
    parent.Some? ==> parent.value < |v.modules| && !IsSealed(v, parent.value)
  }

  predicate SealedFrom(v: View, from: nat) {
    forall c :: from <= c < |v.modules| ==> v.modules[c].isSealed
  }

  // v0 with one complete module more, and everything inside that module.
  predicate Built(v0: View, v: View, parent: Option<nat>, id: nat) {
    && Good(v) && Grew(v0, v) && id == |v0.modules| < |v.modules| && v.modules[id].parent == parent && SealedFrom(v, id)
  }

  // The same while the module is being filled: only it is open among the new ones.
  predicate Building(v0: View, v: View, parent: Option<nat>, id: nat) {
    && Good(v) && Grew(v0, v) && id == |v0.modules| < |v.modules| && v.modules[id].parent == parent
    && !IsSealed(v, id) && v.modules[id].kernel == NoKernel && SealedFrom(v, id + 1)
  }

  lemma BuildingIsOpen(v0: View, v: View, parent: Option<nat>, id: nat)
    requires Building(v0, v, parent, id)
    ensures Good(v) && Under(v, Some(id)) && Keeps(v0, v) && |v0.ports| <= |v.ports| == |v.net.root| == |v.net.driver|
  {
    hide Good;
    KeepsSizes(v0, v);
    PortsHaveRoots(v);
  }

  lemma ChildBuilt(v0: View, v: View, v': View, parent: Option<nat>, id: nat, child: nat)
    requires Building(v0, v, parent, id) && Built(v, v', Some(id), child)
    ensures Building(v0, v', parent, id) && Grew(v, v') && ParentIs(v'.modules, child, id)
  {
    hide Good, Keeps;
    GrewChain(v0, v, v');
    KeepsSizes(v, v');
  }

  // One connection; it cannot be refused.
  method Link(layout: Layout, src: PortId, s: nat, dst: PortId, d: nat)
    requires layout.Valid() && Good(layout.State()) && Allowed(layout.modules, layout.ports, src, s, dst, d)
    requires UndrivenPort(layout.State().net, dst)
    modifies layout.netlist, layout.netlist.equiv
    ensures layout.Valid() && Good(layout.State()) && Keeps(old(layout.State()), layout.State())
    ensures layout.State().net.driver == old(layout.State()).net.driver[dst.index := Some(src)]
    ensures Joint(layout.State().net, src, dst)
  {
    hide Good, Keeps, Allowed;
    ghost var v := layout.State();
    GoodIsOk(v);
    AllowedConnects(v, src, s, dst, d);
    var ok, winner := layout.Connect(src, dst);
    assert ok;
    ConnectJoins(v, src, dst, winner);
    PortsHaveRoots(v);
    GoodIsOk(layout.State());
    PortsHaveRoots(layout.State());
  }

  method OpenModule(layout: Layout, parent: Option<nat>, ins: nat, outs: nat, kernel: Kernel) returns (id: nat)
    requires layout.Valid() && Good(layout.State()) && Under(layout.State(), parent)
    requires (kernel.Fast? ==> outs > 0)
    modifies layout, layout.netlist, layout.netlist.equiv
    ensures layout.Valid() && Good(layout.State()) && Grew(old(layout.State()), layout.State())
    ensures var n := |old(layout.ports)|;
            && id == |old(layout.modules)|
            && layout.modules == old(layout.modules) + [Module(parent, n, ins, n + ins, outs, kernel, false)]
            && |layout.ports| == n + ins + outs
    ensures var n := |old(layout.ports)|;
            && (forall k: nat :: n <= k < n + ins ==> Owns(layout.modules, layout.ports, id, In(k)))
            && (forall k: nat :: n + ins <= k < n + ins + outs ==> Owns(layout.modules, layout.ports, id, Out(k)))
            && UndrivenFrom(layout.State().net, n, n + ins + outs)
  {
    hide Good, Grew;
    ghost var v := layout.State();
    GoodIsOk(v);
    AddGrows(v, parent, seq(ins, _ => BOOL), seq(outs, _ => BOOL), kernel);
    id := layout.AddModule(parent, seq(ins, _ => BOOL), seq(outs, _ => BOOL), kernel);
    GoodIsOk(layout.State());
    PortsHaveRoots(layout.State());
  }

  lemma OpenIsBuilding(v0: View, v: View, parent: Option<nat>, id: nat)
    requires Good(v) && Grew(v0, v) && |v.modules| == |v0.modules| + 1 && id == |v0.modules|
    requires v.modules[id].parent == parent && v.modules[id].kernel == NoKernel && !v.modules[id].isSealed
    ensures Building(v0, v, parent, id)
  {
  }

  lemma SealedShape(v: View, v': View, m: nat)
    requires ViewOk(v) && m < |v.modules| && SealedBy(v, v', m)
    ensures v'.modules == v.modules[m := v.modules[m].(isSealed := true)] && v'.ports == v.ports
    ensures v'.net.driver == v.net.driver && v'.net.root == v.net.root
  {
  }

  // Sealing the last open one of the new modules completes it, whatever its kernel.
  lemma SealBuilt(v0: View, v: View, v': View, parent: Option<nat>, id: nat)
    requires Good(v) && Grew(v0, v) && id == |v0.modules| < |v.modules| && v.modules[id].parent == parent
    requires SealedFrom(v, id + 1)
    requires ViewOk(v) && !IsSealed(v, id) && SealedBy(v, v', id)
    requires forall c: nat :: ChildOf(v, c, id) ==> IsSealed(v, c)
    ensures Built(v0, v', parent, id) && Keeps(v, v')
  {
    hide Good, ViewOk, SealedBy, Keeps, Targets;
    SealKeeps(v, v', id);
    KeepsChain(v0, v, v');
    KeepsSizes(v0, v');
    SealedShape(v, v', id);
    PortsHaveRoots(v0);
    PortsHaveRoots(v');
    assert KernelsUndriven(v) ==> KernelsUndriven(v');
  }

  lemma ChildrenAreLater(v: View, id: nat, c: nat)
    requires ViewOk(v) && ChildOf(v, c, id)
    ensures c > id
  {
    assert ModuleOk(v, c);
  }

  method CloseModule(layout: Layout, id: nat, ghost v0: View, ghost parent: Option<nat>)
    requires layout.Valid() && Good(layout.State()) && Grew(v0, layout.State()) && id == |v0.modules| < |layout.modules|
    requires layout.modules[id].parent == parent && !layout.modules[id].isSealed && SealedFrom(layout.State(), id + 1)
    modifies layout, layout.netlist, layout.netlist.equiv`parent
    ensures layout.Valid() && Built(v0, layout.State(), parent, id) && Keeps(old(layout.State()), layout.State())
    ensures layout.State().net.driver == old(layout.State()).net.driver && layout.ports == old(layout.ports)
  {
    hide Built, Good, Grew, SealedBy;
    ghost var v := layout.State();
    GoodIsOk(v);
    forall c: nat | ChildOf(v, c, id)
      ensures IsSealed(v, c)
    {
      ChildrenAreLater(v, id, c);
    }
    var ok := layout.SealModule(id);
    assert ok;
    SealBuilt(v0, v, layout.State(), parent, id);
    SealedShape(v, layout.State(), id);
  }

  lemma BuildingCloses(v0: View, v: View, parent: Option<nat>, id: nat)
    requires Building(v0, v, parent, id)
    ensures Good(v) && Grew(v0, v) && id == |v0.modules| < |v.modules|
    ensures v.modules[id].parent == parent && !v.modules[id].isSealed && SealedFrom(v, id + 1)
  {
    hide Good, Grew;
  }

  method CreateGate2(layout: Layout, parent: Option<nat>, op: KernelOp) returns (g: Gate)
    requires layout.Valid() && Good(layout.State()) && Under(layout.State(), parent)
    modifies layout, layout.netlist, layout.netlist.equiv
    ensures layout.Valid() && Built(old(layout.State()), layout.State(), parent, g.id)
    ensures GateOk(layout.modules, layout.ports, g, op)
    ensures var n := |old(layout.ports)|;
      g == Gate(|old(layout.modules)|, In(n), In(n + 1), Out(n + 2)) && |layout.ports| == n + 3
    ensures UndrivenFrom(layout.State().net, |old(layout.ports)|, |old(layout.ports)| + 2)
  {
    hide Good, Grew, Built, Keeps;
    ghost var v0 := layout.State();
    ghost var n := |layout.ports|;
    var id := OpenModule(layout, parent, 2, 1, Fast(op));
    var in1 := layout.InPort(id, 0);
    var in2 := layout.InPort(id, 1);
    var out := layout.OutPort(id, 0);
    g := Gate(id, in1, in2, out);
    ghost var v := layout.State();
    assert GateOk(v.modules, v.ports, g, op) by {
      assert Owns(v.modules, v.ports, id, In(n)) && Owns(v.modules, v.ports, id, In(n + 1))
        && Owns(v.modules, v.ports, id, Out(n + 2));
    }
    CloseModule(layout, id, v0, parent);
    KeepsGate(v, layout.State(), g, op);
  }

  // A connection to make, with the modules that own its ends.
  datatype Wire = Wire(src: PortId, s: nat, dst: PortId, d: nat)

  predicate Sinks(wires: seq<Wire>, p: nat) {
    exists i :: 0 <= i < |wires| && wires[i].dst.index == p
  }

  // Only the sinks of the wires have got a driver.
  predicate OnlySinks(n: Net, n': Net, wires: seq<Wire>) {
    |n'.driver| == |n.driver| && forall p :: 0 <= p < |n.driver| && !Sinks(wires, p) ==> n'.driver[p] == n.driver[p]
  }

  lemma StillUndriven(n: Net, n': Net, wires: seq<Wire>, from: nat, to: nat)
    requires OnlySinks(n, n', wires) && UndrivenFrom(n, from, to)
    requires forall i :: 0 <= i < |wires| ==> !(from <= wires[i].dst.index < to)
    ensures UndrivenFrom(n', from, to)
  {
  }

  predicate Connectable(ms: seq<Module>, ps: seq<Port>, n: Net, wires: seq<Wire>, from: nat) {
    && (forall i :: 0 <= i < |wires| ==> Allowed(ms, ps, wires[i].src, wires[i].s, wires[i].dst, wires[i].d))
    && (forall i :: 0 <= i < |wires| ==> UndrivenPort(n, wires[i].dst) && wires[i].dst.index >= from)
    && (forall i, j :: 0 <= i < j < |wires| ==> wires[i].dst.index != wires[j].dst.index)
  }

  // A run of connections, in order.
  method LinkAll(layout: Layout, wires: seq<Wire>)
    requires layout.Valid() && Good(layout.State())
    requires Connectable(layout.modules, layout.ports, layout.State().net, wires, 0)
    modifies layout.netlist, layout.netlist.equiv
    ensures layout.Valid() && Good(layout.State()) && Keeps(old(layout.State()), layout.State())
    ensures forall i :: 0 <= i < |wires| ==> Joint(layout.State().net, wires[i].src, wires[i].dst)
    ensures OnlySinks(old(layout.State()).net, layout.State().net, wires)
  {
    hide Good, Keeps, Allowed, Joint;
    ghost var v := layout.State();
    GoodIsOk(v);
    PortsHaveRoots(v);
    KeepsSelf(v);
    for k := 0 to |wires|
      invariant layout.Valid() && Good(layout.State()) && Keeps(v, layout.State())
      invariant forall i :: 0 <= i < k ==> Joint(layout.State().net, wires[i].src, wires[i].dst)
      invariant OnlySinks(v.net, layout.State().net, wires[..k])
    {
      ghost var u := layout.State();
      var w := wires[k];
      Link(layout, w.src, w.s, w.dst, w.d);
      KeepsChain(v, u, layout.State());
      forall i | 0 <= i < k
        ensures Joint(layout.State().net, wires[i].src, wires[i].dst)
      {
        KeepsJoint(u, layout.State(), wires[i].src, wires[i].dst);
      }
      SinksGrow(wires, k);
    }
    assert wires[..|wires|] == wires;
  }

  // A connection that ends in an output ends in one of module m.
  predicate Upwards(wires: seq<Wire>, m: nat) {
    forall i :: 0 <= i < |wires| ==> wires[i].dst.In? || wires[i].d == m
  }

  // The same inside a module that is being filled, where no older port gets a driver.
  method LinkInside(layout: Layout, wires: seq<Wire>, ghost v0: View, ghost parent: Option<nat>, ghost id: nat)
    requires layout.Valid() && Building(v0, layout.State(), parent, id)
    requires Connectable(layout.modules, layout.ports, layout.State().net, wires, |v0.ports|) && Upwards(wires, id)
    modifies layout.netlist, layout.netlist.equiv
    ensures layout.Valid() && Building(v0, layout.State(), parent, id) && Keeps(old(layout.State()), layout.State())
    ensures forall i :: 0 <= i < |wires| ==> Joint(layout.State().net, wires[i].src, wires[i].dst)
    ensures OnlySinks(old(layout.State()).net, layout.State().net, wires)
  {
    hide Building, Good, Keeps, Joint, Allowed, OnlySinks, Upwards, Connectable, KernelsUndriven;
    ghost var v := layout.State();
    BuildingIsOpen(v0, v, parent, id);
    BuildingHasNoKernel(v0, v, parent, id);
    ConnectableFrom(v.modules, v.ports, v.net, wires, |v0.ports|);
    LinkAll(layout, wires);
    KernelsStayUndriven(v, layout.State(), wires, |v0.ports|, id);
    LinksKeepBuilding(v0, v, layout.State(), wires, parent, id);
  }

  lemma BuildingHasNoKernel(v0: View, v: View, parent: Option<nat>, id: nat)
    requires Building(v0, v, parent, id)
    ensures !HasKernel(v.modules, id)
  {
  }

  lemma ConnectableFrom(ms: seq<Module>, ps: seq<Port>, n: Net, wires: seq<Wire>, from: nat)
    requires Connectable(ms, ps, n, wires, from)
    ensures Connectable(ms, ps, n, wires, 0) && forall i :: 0 <= i < |wires| ==> wires[i].dst.index >= from
  {
  }

  // Connections that end in inputs, or in outputs of a module without a kernel, drive no kernel.
  lemma KernelsStayUndriven(v: View, v': View, wires: seq<Wire>, from: nat, id: nat)
    requires Connectable(v.modules, v.ports, v.net, wires, from) && Upwards(wires, id) && !HasKernel(v.modules, id)
    requires |v.ports| == |v.net.driver| && v'.modules == v.modules && v'.ports == v.ports
    requires OnlySinks(v.net, v'.net, wires)
    ensures KernelsUndriven(v) ==> KernelsUndriven(v')
  {
    forall p | 0 <= p < |v.ports| && v.ports[p].isOut && HasKernel(v.modules, v.ports[p].owner)
      ensures v'.net.driver[p] == v.net.driver[p]
    {
      SinksAreUpwards(v, wires, from, id, p);
    }
  }

  lemma SinksAreUpwards(v: View, wires: seq<Wire>, from: nat, id: nat, p: nat)
    requires Connectable(v.modules, v.ports, v.net, wires, from) && Upwards(wires, id) && p < |v.ports|
    ensures Sinks(wires, p) && v.ports[p].isOut ==> v.ports[p].owner == id
  {
    if Sinks(wires, p) {
      var i :| 0 <= i < |wires| && wires[i].dst.index == p;
      assert Allowed(v.modules, v.ports, wires[i].src, wires[i].s, wires[i].dst, wires[i].d);
    }
  }

  lemma LinksKeepBuilding(v0: View, v: View, v': View, wires: seq<Wire>, parent: Option<nat>, id: nat)
    requires Building(v0, v, parent, id) && Good(v') && Keeps(v, v') && v'.modules == v.modules
    requires OnlySinks(v.net, v'.net, wires)
    requires (forall i :: 0 <= i < |wires| ==> wires[i].dst.index >= |v0.ports|)
    requires (KernelsUndriven(v) ==> KernelsUndriven(v'))
    ensures Building(v0, v', parent, id)
  {
    hide Good, Keeps, KernelsUndriven;
    KeepsSizes(v0, v);
    PortsHaveRoots(v);
    PortsHaveRoots(v0);
    KeepsChain(v0, v, v');
    assert forall p :: 0 <= p < |v0.ports| ==> !Sinks(wires, p);
  }

  lemma SinksGrow(wires: seq<Wire>, k: nat)
    requires k < |wires|
    ensures forall p :: Sinks(wires[..k + 1], p) <==> Sinks(wires[..k], p) || wires[k].dst.index == p
  {
    forall p | Sinks(wires[..k], p) || wires[k].dst.index == p
      ensures Sinks(wires[..k + 1], p)
    {
      if wires[k].dst.index == p {
        assert wires[..k + 1][k].dst.index == p;
      } else {
        var i :| 0 <= i < |wires[..k]| && wires[..k][i].dst.index == p;
        assert wires[..k + 1][i].dst.index == p;
      }
    }
  }

  lemma KeepsSelf(v: View)
    requires Good(v)
    ensures Keeps(v, v)
  {
  }

  datatype Half = Half(id: nat, xorGate: Gate, andGate: Gate, in1: PortId, in2: PortId, sum: PortId, carry: PortId)

  predicate HalfPorts(ms: seq<Module>, ps: seq<Port>, h: Half) {
    Owns(ms, ps, h.id, h.in1) && Owns(ms, ps, h.id, h.in2) && Owns(ms, ps, h.id, h.sum) && Owns(ms, ps, h.id, h.carry)
  }

  // A half adder: its gates, and the six connections around them.
  predicate HalfOk(v: View, h: Half) {
    && HalfPorts(v.modules, v.ports, h)
    && GateOk(v.modules, v.ports, h.xorGate, Xor) && GateOk(v.modules, v.ports, h.andGate, And)
    && Joint(v.net, h.in1, h.xorGate.in1) && Joint(v.net, h.in2, h.xorGate.in2)
    && Joint(v.net, h.in1, h.andGate.in1) && Joint(v.net, h.in2, h.andGate.in2)
    && Joint(v.net, h.xorGate.out, h.sum) && Joint(v.net, h.andGate.out, h.carry)
  }

  lemma KeepsHalf(v: View, v': View, h: Half)
    requires Keeps(v, v') && HalfOk(v, h)
    ensures HalfOk(v', h)
  {
    hide Keeps, GateOk, Joint, Owns;
    KeepsOwner(v, v', h.id, h.in1);
    KeepsOwner(v, v', h.id, h.in2);
    KeepsOwner(v, v', h.id, h.sum);
    KeepsOwner(v, v', h.id, h.carry);
    KeepsGate(v, v', h.xorGate, Xor);
    KeepsGate(v, v', h.andGate, And);
    KeepsJoint(v, v', h.in1, h.xorGate.in1);
    KeepsJoint(v, v', h.in2, h.xorGate.in2);
    KeepsJoint(v, v', h.in1, h.andGate.in1);
    KeepsJoint(v, v', h.in2, h.andGate.in2);
    KeepsJoint(v, v', h.xorGate.out, h.sum);
    KeepsJoint(v, v', h.andGate.out, h.carry);
  }

  function HalfWires(h: Half): seq<Wire> {
    var x, a := h.xorGate, h.andGate;
    [Wire(h.in1, h.id, x.in1, x.id), Wire(h.in2, h.id, x.in2, x.id),
     Wire(h.in1, h.id, a.in1, a.id), Wire(h.in2, h.id, a.in2, a.id),
     Wire(x.out, x.id, h.sum, h.id), Wire(a.out, a.id, h.carry, h.id)]
  }

  // The gates and ports of a half adder as they are numbered after n earlier ports.
  predicate HalfNumbers(h: Half, n: nat) {
    && h.in1 == In(n) && h.in2 == In(n + 1) && h.sum == Out(n + 2) && h.carry == Out(n + 3)
    && h.xorGate == Gate(h.xorGate.id, In(n + 4), In(n + 5), Out(n + 6))
    && h.andGate == Gate(h.andGate.id, In(n + 7), In(n + 8), Out(n + 9))
  }

  lemma HalfConnectable(ms: seq<Module>, ps: seq<Port>, net: Net, h: Half, n: nat)
    requires HalfNumbers(h, n) && HalfPorts(ms, ps, h) && GateOk(ms, ps, h.xorGate, Xor)
    requires GateOk(ms, ps, h.andGate, And)
    requires ParentIs(ms, h.xorGate.id, h.id) && ParentIs(ms, h.andGate.id, h.id)
    requires UndrivenFrom(net, n + 2, n + 6) && UndrivenFrom(net, n + 7, n + 9)
    ensures Connectable(ms, ps, net, HalfWires(h), n)
  {
  }

  lemma GrewUndriven(v: View, v': View, from: nat, to: nat)
    requires Grew(v, v') && UndrivenFrom(v.net, from, to)
    ensures UndrivenFrom(v'.net, from, to)
  {
    PortsHaveRoots(v);
    PortsHaveRoots(v');
  }

  lemma KeepsParent(v: View, v': View, m: nat, parent: nat)
    requires Keeps(v, v') && ParentIs(v.modules, m, parent)
    ensures ParentIs(v'.modules, m, parent)
  {
    assert Open(v'.modules[m]) == Open(v.modules[m]);
  }

  // Between them, the two gates and the open module are ready for the connections.
  lemma HalfFilled(v1: View, v2: View, v3: View, h: Half, n: nat)
    requires Grew(v1, v2) && Grew(v2, v3) && HalfNumbers(h, n)
    requires HalfPorts(v1.modules, v1.ports, h) && UndrivenFrom(v1.net, n, n + 4)
    requires GateOk(v2.modules, v2.ports, h.xorGate, Xor) && ParentIs(v2.modules, h.xorGate.id, h.id)
    requires UndrivenFrom(v2.net, n + 4, n + 6)
    requires GateOk(v3.modules, v3.ports, h.andGate, And) && ParentIs(v3.modules, h.andGate.id, h.id)
    requires UndrivenFrom(v3.net, n + 7, n + 9)
    ensures Connectable(v3.modules, v3.ports, v3.net, HalfWires(h), n)
    ensures HalfPorts(v3.modules, v3.ports, h) && GateOk(v3.modules, v3.ports, h.xorGate, Xor)
    ensures UndrivenFrom(v3.net, n, n + 2)
  {
    hide Keeps, GateOk, Owns, ParentIs, Connectable;
    GrewChain(v1, v2, v3);
    KeepsOwner(v1, v3, h.id, h.in1);
    KeepsOwner(v1, v3, h.id, h.in2);
    KeepsOwner(v1, v3, h.id, h.sum);
    KeepsOwner(v1, v3, h.id, h.carry);
    KeepsGate(v2, v3, h.xorGate, Xor);
    KeepsParent(v2, v3, h.xorGate.id, h.id);
    GrewUndriven(v1, v3, n, n + 4);
    GrewUndriven(v2, v3, n + 4, n + 6);
    HalfConnectable(v3.modules, v3.ports, v3.net, h, n);
  }

  lemma HalfWired(v: View, h: Half)
    requires HalfPorts(v.modules, v.ports, h) && GateOk(v.modules, v.ports, h.xorGate, Xor)
    requires GateOk(v.modules, v.ports, h.andGate, And)
    requires var wires := HalfWires(h); forall i :: 0 <= i < |wires| ==> Joint(v.net, wires[i].src, wires[i].dst)
    ensures HalfOk(v, h)
  {
    hide GateOk, Joint, HalfPorts;
    var wires := HalfWires(h);
    assert wires[0].dst == h.xorGate.in1 && wires[1].dst == h.xorGate.in2 && wires[2].dst == h.andGate.in1;
    assert wires[3].dst == h.andGate.in2 && wires[4].dst == h.sum && wires[5].dst == h.carry;
  }

  lemma SameDrivers(n: Net, n': Net, from: nat, to: nat)
    requires n'.driver == n.driver && UndrivenFrom(n, from, to)
    ensures UndrivenFrom(n', from, to)
  {
  }

  method HalfAdderParts(layout: Layout, parent: Option<nat>) returns (h: Half)
    requires layout.Valid() && Good(layout.State()) && Under(layout.State(), parent)
    modifies layout, layout.netlist, layout.netlist.equiv
    ensures layout.Valid() && Building(old(layout.State()), layout.State(), parent, h.id)
    ensures HalfPorts(layout.modules, layout.ports, h)
    ensures GateOk(layout.modules, layout.ports, h.xorGate, Xor) && GateOk(layout.modules, layout.ports, h.andGate, And)
    ensures var n := |old(layout.ports)|;
            && HalfNumbers(h, n) && |layout.ports| == n + 10 && UndrivenFrom(layout.State().net, n, n + 2)
            && Connectable(layout.modules, layout.ports, layout.State().net, HalfWires(h), n)
  {
    hide Good, Grew, Built, Keeps, Building, GateOk, Joint, Under, ParentIs, UndrivenFrom, Connectable, ViewOk, NetOk;
    hide Owns;
    hide Layout.Valid, SealedFrom, HalfWires;
    ghost var v0, n := layout.State(), |layout.ports|;
    var id := OpenModule(layout, parent, 2, 2, NoKernel);
    ghost var v1 := layout.State();
    OpenIsBuilding(v0, v1, parent, id);
    BuildingIsOpen(v0, v1, parent, id);
    var in1 := layout.InPort(id, 0);
    var in2 := layout.InPort(id, 1);
    var sum := layout.OutPort(id, 0);
    var carry := layout.OutPort(id, 1);
    var x := CreateGate2(layout, Some(id), Xor);
    ghost var v2 := layout.State();
    ChildBuilt(v0, v1, v2, parent, id, x.id);
    BuildingIsOpen(v0, v2, parent, id);
    var a := CreateGate2(layout, Some(id), And);
    ghost var v3 := layout.State();
    ChildBuilt(v0, v2, v3, parent, id, a.id);
    h := Half(id, x, a, in1, in2, sum, carry);
    HalfFilled(v1, v2, v3, h, n);
  }

  method HalfAdder(layout: Layout, parent: Option<nat>) returns (h: Half)
    requires layout.Valid() && Good(layout.State()) && Under(layout.State(), parent)
    modifies layout, layout.netlist, layout.netlist.equiv
    ensures layout.Valid() && Built(old(layout.State()), layout.State(), parent, h.id) && HalfOk(layout.State(), h)
    ensures var n := |old(layout.ports)|;
      HalfNumbers(h, n) && |layout.ports| == n + 10 && UndrivenFrom(layout.State().net, n, n + 2)
  {
    hide Good, Grew, Built, Keeps, Building, GateOk, Joint, Under, ParentIs, UndrivenFrom, Connectable, ViewOk, NetOk;
    hide Owns;
    hide Layout.Valid, SealedFrom, HalfOk, HalfPorts, OnlySinks;
    ghost var v0, n := layout.State(), |layout.ports|;
    h := HalfAdderParts(layout, parent);
    ghost var v1 := layout.State();
    LinkInside(layout, HalfWires(h), v0, parent, h.id);
    ghost var v2 := layout.State();
    HalfWired(v2, h);
    StillUndriven(v1.net, v2.net, HalfWires(h), n, n + 2);
    BuildingCloses(v0, v2, parent, h.id);
    CloseModule(layout, h.id, v0, parent);
    KeepsHalf(v2, layout.State(), h);
    SameDrivers(v2.net, layout.State().net, n, n + 2);
  }

  datatype Full = Full(id: nat, ha1: Half, ha2: Half, orGate: Gate, in1: PortId,
    in2: PortId, cIn: PortId, sum: PortId, carry: PortId)

  predicate FullPorts(ms: seq<Module>, ps: seq<Port>, f: Full) {
    && Owns(ms, ps, f.id, f.in1) && Owns(ms, ps, f.id, f.in2) && Owns(ms, ps, f.id, f.cIn)
    && Owns(ms, ps, f.id, f.sum) && Owns(ms, ps, f.id, f.carry)
  }

  function FullWires(f: Full): seq<Wire> {
    [Wire(f.in1, f.id, f.ha1.in1, f.ha1.id), Wire(f.in2, f.id, f.ha1.in2, f.ha1.id),
      Wire(f.cIn, f.id, f.ha2.in2, f.ha2.id),
     Wire(f.ha1.sum, f.ha1.id, f.ha2.in1, f.ha2.id), Wire(f.ha1.carry, f.ha1.id, f.orGate.in1, f.orGate.id),
     Wire(f.ha2.carry, f.ha2.id, f.orGate.in2, f.orGate.id),
     Wire(f.ha2.sum, f.ha2.id, f.sum, f.id), Wire(f.orGate.out, f.orGate.id, f.carry, f.id)]
  }

  predicate FullJoints(n: Net, f: Full) {
    && Joint(n, f.in1, f.ha1.in1) && Joint(n, f.in2, f.ha1.in2) && Joint(n, f.cIn, f.ha2.in2)
    && Joint(n, f.ha1.sum, f.ha2.in1) && Joint(n, f.ha1.carry, f.orGate.in1) && Joint(n, f.ha2.carry, f.orGate.in2)
    && Joint(n, f.ha2.sum, f.sum) && Joint(n, f.orGate.out, f.carry)
  }

  // A full adder: two half adders, an or gate, and the eight connections around them.
  predicate FullOk(v: View, f: Full) {
    FullPorts(v.modules, v.ports, f) && HalfOk(v, f.ha1) && HalfOk(v, f.ha2)
      && GateOk(v.modules, v.ports, f.orGate, Or) && FullJoints(v.net, f)
  }

  predicate FullNumbers(f: Full, n: nat) {
    && f.in1 == In(n) && f.in2 == In(n + 1) && f.cIn == In(n + 2) && f.sum == Out(n + 3) && f.carry == Out(n + 4)
    && HalfNumbers(f.ha1, n + 5) && HalfNumbers(f.ha2, n + 15)
    && f.orGate == Gate(f.orGate.id, In(n + 25), In(n + 26), Out(n + 27))
  }

  lemma KeepsFullJoints(v: View, v': View, f: Full)
    requires Keeps(v, v') && FullJoints(v.net, f)
    ensures FullJoints(v'.net, f)
  {
    hide Keeps, Joint;
    KeepsJoint(v, v', f.in1, f.ha1.in1);
    KeepsJoint(v, v', f.in2, f.ha1.in2);
    KeepsJoint(v, v', f.cIn, f.ha2.in2);
    KeepsJoint(v, v', f.ha1.sum, f.ha2.in1);
    KeepsJoint(v, v', f.ha1.carry, f.orGate.in1);
    KeepsJoint(v, v', f.ha2.carry, f.orGate.in2);
    KeepsJoint(v, v', f.ha2.sum, f.sum);
    KeepsJoint(v, v', f.orGate.out, f.carry);
  }

  lemma KeepsFullPorts(v: View, v': View, f: Full)
    requires Keeps(v, v') && FullPorts(v.modules, v.ports, f)
    ensures FullPorts(v'.modules, v'.ports, f)
  {
    hide Keeps, Owns;
    KeepsOwner(v, v', f.id, f.in1);
    KeepsOwner(v, v', f.id, f.in2);
    KeepsOwner(v, v', f.id, f.cIn);
    KeepsOwner(v, v', f.id, f.sum);
    KeepsOwner(v, v', f.id, f.carry);
  }

  lemma KeepsFull(v: View, v': View, f: Full)
    requires Keeps(v, v') && FullOk(v, f)
    ensures FullOk(v', f)
  {
    hide Keeps, FullJoints, FullPorts, HalfOk, GateOk;
    KeepsFullPorts(v, v', f);
    KeepsHalf(v, v', f.ha1);
    KeepsHalf(v, v', f.ha2);
    KeepsGate(v, v', f.orGate, Or);
    KeepsFullJoints(v, v', f);
  }

  // The parts of a full adder before they are connected.
  predicate FullParts(v: View, f: Full) {
    && FullPorts(v.modules, v.ports, f) && HalfOk(v, f.ha1) && HalfOk(v, f.ha2)
    && GateOk(v.modules, v.ports, f.orGate, Or)
    && ParentIs(v.modules, f.ha1.id, f.id) && ParentIs(v.modules, f.ha2.id, f.id)
    && ParentIs(v.modules, f.orGate.id, f.id)
  }

  lemma FullConnectable(v: View, f: Full, n: nat)
    requires FullParts(v, f) && FullNumbers(f, n)
    requires UndrivenFrom(v.net, n + 3, n + 7) && UndrivenFrom(v.net, n + 15, n + 17)
    requires UndrivenFrom(v.net, n + 25, n + 27)
    ensures Connectable(v.modules, v.ports, v.net, FullWires(f), n)
  {
    hide Joint;
  }

  lemma FullWired(v: View, f: Full)
    requires FullPorts(v.modules, v.ports, f) && HalfOk(v, f.ha1) && HalfOk(v, f.ha2)
    requires GateOk(v.modules, v.ports, f.orGate, Or)
    requires var wires := FullWires(f); forall i :: 0 <= i < |wires| ==> Joint(v.net, wires[i].src, wires[i].dst)
    ensures FullOk(v, f)
  {
    hide GateOk, Joint, FullPorts, HalfOk;
    var wires := FullWires(f);
    assert wires[0].dst == f.ha1.in1 && wires[1].dst == f.ha1.in2 && wires[2].dst == f.ha2.in2
      && wires[3].dst == f.ha2.in1;
    assert wires[4].dst == f.orGate.in1 && wires[5].dst == f.orGate.in2 && wires[6].dst == f.sum
      && wires[7].dst == f.carry;
  }

  lemma FullFilled(v1: View, v2: View, v3: View, v4: View, f: Full, n: nat)
    requires Grew(v1, v2) && Grew(v2, v3) && Grew(v3, v4) && FullNumbers(f, n)
    requires FullPorts(v1.modules, v1.ports, f) && UndrivenFrom(v1.net, n, n + 5)
    requires HalfOk(v2, f.ha1) && ParentIs(v2.modules, f.ha1.id, f.id) && UndrivenFrom(v2.net, n + 5, n + 7)
    requires HalfOk(v3, f.ha2) && ParentIs(v3.modules, f.ha2.id, f.id) && UndrivenFrom(v3.net, n + 15, n + 17)
    requires GateOk(v4.modules, v4.ports, f.orGate, Or) && ParentIs(v4.modules, f.orGate.id, f.id)
    requires UndrivenFrom(v4.net, n + 25, n + 27)
    ensures FullParts(v4, f) && Connectable(v4.modules, v4.ports, v4.net, FullWires(f), n)
    ensures UndrivenFrom(v4.net, n, n + 3)
  {
    hide Keeps, GateOk, HalfOk, FullPorts, ParentIs, Connectable, HalfNumbers;
    GrewChain(v2, v3, v4);
    GrewChain(v1, v2, v4);
    KeepsFullPorts(v1, v4, f);
    KeepsHalf(v2, v4, f.ha1);
    KeepsHalf(v3, v4, f.ha2);
    KeepsParent(v2, v4, f.ha1.id, f.id);
    KeepsParent(v3, v4, f.ha2.id, f.id);
    GrewUndriven(v1, v4, n, n + 5);
    GrewUndriven(v2, v4, n + 5, n + 7);
    GrewUndriven(v3, v4, n + 15, n + 17);
    FullConnectable(v4, f, n);
  }

  method FullAdderParts(layout: Layout, parent: Option<nat>) returns (f: Full)
    requires layout.Valid() && Good(layout.State()) && Under(layout.State(), parent)
    modifies layout, layout.netlist, layout.netlist.equiv
    ensures layout.Valid() && Building(old(layout.State()), layout.State(), parent, f.id)
    ensures FullParts(layout.State(), f)
    ensures var n := |old(layout.ports)|;
            && FullNumbers(f, n) && |layout.ports| == n + 28 && UndrivenFrom(layout.State().net, n, n + 3)
            && Connectable(layout.modules, layout.ports, layout.State().net, FullWires(f), n)
  {
    hide Good, Grew, Built, Keeps, Building, GateOk, Joint, Under, ParentIs, UndrivenFrom, Connectable, ViewOk, NetOk;
    hide Owns, HalfOk;
    hide Layout.Valid, SealedFrom, HalfNumbers, FullParts, FullWires;
    ghost var v0, n := layout.State(), |layout.ports|;
    var id := OpenModule(layout, parent, 3, 2, NoKernel);
    ghost var v1 := layout.State();
    OpenIsBuilding(v0, v1, parent, id);
    BuildingIsOpen(v0, v1, parent, id);
    var in1 := layout.InPort(id, 0);
    var in2 := layout.InPort(id, 1);
    var cIn := layout.InPort(id, 2);
    var sum := layout.OutPort(id, 0);
    var carry := layout.OutPort(id, 1);
    var ha1 := HalfAdder(layout, Some(id));
    ghost var v2 := layout.State();
    ChildBuilt(v0, v1, v2, parent, id, ha1.id);
    BuildingIsOpen(v0, v2, parent, id);
    var ha2 := HalfAdder(layout, Some(id));
    ghost var v3 := layout.State();
    ChildBuilt(v0, v2, v3, parent, id, ha2.id);
    BuildingIsOpen(v0, v3, parent, id);
    var orGate := CreateGate2(layout, Some(id), Or);
    ghost var v4 := layout.State();
    ChildBuilt(v0, v3, v4, parent, id, orGate.id);
    f := Full(id, ha1, ha2, orGate, in1, in2, cIn, sum, carry);
    FullFilled(v1, v2, v3, v4, f, n);
  }

  method FullAdder(layout: Layout, parent: Option<nat>) returns (f: Full)
    requires layout.Valid() && Good(layout.State()) && Under(layout.State(), parent)
    modifies layout, layout.netlist, layout.netlist.equiv
    ensures layout.Valid() && Built(old(layout.State()), layout.State(), parent, f.id) && FullOk(layout.State(), f)
    ensures var n := |old(layout.ports)|;
      FullNumbers(f, n) && |layout.ports| == n + 28 && UndrivenFrom(layout.State().net, n, n + 3)
  {
    hide Good, Grew, Built, Keeps, Building, GateOk, Joint, Under, ParentIs, UndrivenFrom, Connectable, ViewOk, NetOk;
    hide Owns, HalfOk;
    hide Layout.Valid, SealedFrom, FullOk, OnlySinks;
    ghost var v0, n := layout.State(), |layout.ports|;
    f := FullAdderParts(layout, parent);
    ghost var v1 := layout.State();
    LinkInside(layout, FullWires(f), v0, parent, f.id);
    ghost var v2 := layout.State();
    KeepsHalf(v1, v2, f.ha1);
    KeepsHalf(v1, v2, f.ha2);
    FullWired(v2, f);
    StillUndriven(v1.net, v2.net, FullWires(f), n, n + 3);
    BuildingCloses(v0, v2, parent, f.id);
    CloseModule(layout, f.id, v0, parent);
    KeepsFull(v2, layout.State(), f);
    SameDrivers(v2.net, layout.State().net, n, n + 3);
  }

  // One bit of an adder between its two operand ports, its carry in and its sum port.
  predicate BitOk(v: View, f: Full, a: PortId, b: PortId, c: PortId, s: PortId) {
    FullOk(v, f) && Joint(v.net, a, f.in1) && Joint(v.net, b, f.in2) && Joint(v.net, c, f.cIn) && Joint(v.net, f.sum, s)
  }

  lemma KeepsBit(v: View, v': View, f: Full, a: PortId, b: PortId, c: PortId, s: PortId)
    requires Keeps(v, v') && BitOk(v, f, a, b, c, s)
    ensures BitOk(v', f, a, b, c, s)
  {
    hide Keeps, FullOk, Joint;
    KeepsFull(v, v', f);
    KeepsJoint(v, v', a, f.in1);
    KeepsJoint(v, v', b, f.in2);
    KeepsJoint(v, v', c, f.cIn);
    KeepsJoint(v, v', f.sum, s);
  }

  function BitWires(f: Full, id: nat, a: PortId, b: PortId, c: PortId, cOwner: nat, s: PortId): seq<Wire> {
    [Wire(a, id, f.in1, f.id), Wire(b, id, f.in2, f.id), Wire(c, cOwner, f.cIn, f.id), Wire(f.sum, f.id, s, id)]
  }

  // The ports an adder offers to one of its bits; the carry comes from the adder itself or from the bit before.
  predicate BitPorts(ms: seq<Module>, ps: seq<Port>, id: nat, a: PortId, b: PortId, c: PortId, cOwner: nat, s: PortId) {
    && Owns(ms, ps, id, a) && Owns(ms, ps, id, b) && Owns(ms, ps, id, s) && Owns(ms, ps, cOwner, c) && a.In? && b.In?
    && s.Out?
    && ((cOwner == id && c.In?) || (ParentIs(ms, cOwner, id) && c.Out?))
  }

  lemma KeepsBitPorts(v: View, v': View, id: nat, a: PortId, b: PortId, c: PortId, cOwner: nat, s: PortId)
    requires Keeps(v, v') && BitPorts(v.modules, v.ports, id, a, b, c, cOwner, s)
    ensures BitPorts(v'.modules, v'.ports, id, a, b, c, cOwner, s)
  {
    hide Keeps, Owns, ParentIs;
    KeepsOwner(v, v', id, a);
    KeepsOwner(v, v', id, b);
    KeepsOwner(v, v', id, s);
    KeepsOwner(v, v', cOwner, c);
    if cOwner != id || !c.In? {
      KeepsParent(v, v', cOwner, id);
    }
  }

  lemma BitConnectable(v: View, f: Full, n: nat, id: nat, a: PortId, b: PortId, c: PortId, cOwner: nat, s: PortId,
                       from: nat)
    requires BitPorts(v.modules, v.ports, id, a, b, c, cOwner, s) && FullNumbers(f, n)
    requires FullPorts(v.modules, v.ports, f)
    requires ParentIs(v.modules, f.id, id) && from <= s.index < n && UndrivenPort(v.net, s)
    requires UndrivenFrom(v.net, n, n + 3)
    ensures Connectable(v.modules, v.ports, v.net, BitWires(f, id, a, b, c, cOwner, s), from)
    ensures Upwards(BitWires(f, id, a, b, c, cOwner, s), id)
  {
    hide HalfNumbers;
  }

  lemma BitWired(v: View, f: Full, id: nat, a: PortId, b: PortId, c: PortId, cOwner: nat, s: PortId)
    requires FullOk(v, f)
    requires var wires := BitWires(f, id, a, b, c, cOwner, s);
      forall i :: 0 <= i < |wires| ==> Joint(v.net, wires[i].src, wires[i].dst)
    ensures BitOk(v, f, a, b, c, s)
  {
    hide FullOk, Joint;
    var wires := BitWires(f, id, a, b, c, cOwner, s);
    assert wires[0].dst == f.in1 && wires[1].dst == f.in2 && wires[2].dst == f.cIn && wires[3].dst == s;
  }

  // Nothing but s among the first n ports has got a driver.
  predicate OnlyDrives(n: Net, n': Net, count: nat, s: nat) {
    |n.driver| <= |n'.driver| && count <= |n.driver| && forall p :: 0 <= p < count && p != s ==>
      n'.driver[p] == n.driver[p]
  }

  lemma BitDrives(v: View, v': View, v'': View, f: Full, n: nat, id: nat, a: PortId, b: PortId, c: PortId,
                  cOwner: nat, s: PortId)
    requires Grew(v, v') && |v.ports| == n && FullNumbers(f, n)
    requires OnlySinks(v'.net, v''.net, BitWires(f, id, a, b, c, cOwner, s))
    ensures OnlyDrives(v.net, v''.net, n, s.index)
  {
    hide HalfNumbers;
    PortsHaveRoots(v);
    PortsHaveRoots(v');
  }

  method AddBit(layout: Layout, id: nat, a: PortId, b: PortId, c: PortId, cOwner: nat, s: PortId, ghost v0: View,
                ghost parent: Option<nat>)
    returns (f: Full)
    requires layout.Valid() && Building(v0, layout.State(), parent, id)
    requires BitPorts(layout.modules, layout.ports, id, a, b, c, cOwner, s)
    requires UndrivenPort(layout.State().net, s) && |v0.ports| <= s.index < |layout.ports|
    modifies layout, layout.netlist, layout.netlist.equiv
    ensures layout.Valid() && Building(v0, layout.State(), parent, id) && Keeps(old(layout.State()), layout.State())
    ensures |layout.ports| == |old(layout.ports)| + 28 && BitOk(layout.State(), f, a, b, c, s)
    ensures ParentIs(layout.modules, f.id, id) && Owns(layout.modules, layout.ports, f.id, f.carry) && f.carry.Out?
    ensures OnlyDrives(old(layout.State()).net, layout.State().net, |old(layout.ports)|, s.index)
  {
    hide Good, Grew, Built, Keeps, Building, GateOk, Joint, Under, ParentIs, UndrivenFrom, Connectable, ViewOk, NetOk;
    hide Owns, HalfOk, BitOk;
    hide Layout.Valid, SealedFrom, HalfNumbers, BitPorts, BitWires, OnlyDrives, OnlySinks, UndrivenPort, Upwards;
    ghost var v1 := layout.State();
    BuildingIsOpen(v0, v1, parent, id);
    f := FullAdder(layout, Some(id));
    ghost var v2 := layout.State();
    ChildBuilt(v0, v1, v2, parent, id, f.id);
    GrewKeeps(v1, v2, s);
    KeepsBitPorts(v1, v2, id, a, b, c, cOwner, s);
    BitConnectable(v2, f, |v1.ports|, id, a, b, c, cOwner, s, |v0.ports|);
    LinkInside(layout, BitWires(f, id, a, b, c, cOwner, s), v0, parent, id);
    ghost var v3 := layout.State();
    KeepsFull(v2, v3, f);
    BitWired(v3, f, id, a, b, c, cOwner, s);
    KeepsChain(v1, v2, v3);
    BitDrives(v1, v2, v3, f, |v1.ports|, id, a, b, c, cOwner, s);
  }

  lemma GrewKeeps(v: View, v': View, s: PortId)
    requires Grew(v, v') && UndrivenPort(v.net, s)
    ensures Keeps(v, v') && UndrivenPort(v'.net, s)
  {
    PortsHaveRoots(v);
    PortsHaveRoots(v');
  }

  datatype Adder = Adder(id: nat, bits: seq<Full>, a: seq<PortId>, b: seq<PortId>,
    cIn: PortId, sum: seq<PortId>, carry: PortId)

  function CarryInto(ad: Adder, i: nat): PortId
    requires i <= |ad.bits|
  {
    if i == 0 then ad.cIn else ad.bits[i - 1].carry
  }

  // The first |bits| bits of an adder are in place.
  predicate BitsOk(v: View, ad: Adder) {
    && |ad.bits| <= |ad.a| == |ad.b| == |ad.sum|
    && forall i :: 0 <= i < |ad.bits| ==> BitOk(v, ad.bits[i], ad.a[i], ad.b[i], CarryInto(ad, i), ad.sum[i])
  }

  // A finished ripple-carry adder.
  predicate AdderOk(v: View, ad: Adder) {
    BitsOk(v, ad) && |ad.bits| == |ad.a| && (|ad.bits| > 0 ==> Joint(v.net, ad.bits[|ad.bits| - 1].carry, ad.carry))
  }

  lemma KeepsBits(v: View, v': View, ad: Adder)
    requires Keeps(v, v') && BitsOk(v, ad)
    ensures BitsOk(v', ad)
  {
    hide Keeps, BitOk;
    forall i | 0 <= i < |ad.bits|
      ensures BitOk(v', ad.bits[i], ad.a[i], ad.b[i], CarryInto(ad, i), ad.sum[i])
    {
      KeepsBit(v, v', ad.bits[i], ad.a[i], ad.b[i], CarryInto(ad, i), ad.sum[i]);
    }
  }

  // Adders stay correct whatever is added to the layout around them.
  lemma KeepsAdder(v: View, v': View, ad: Adder)
    requires Keeps(v, v') && AdderOk(v, ad)
    ensures AdderOk(v', ad)
  {
    hide Keeps, BitsOk, Joint;
    KeepsBits(v, v', ad);
    if |ad.bits| > 0 {
      KeepsJoint(v, v', ad.bits[|ad.bits| - 1].carry, ad.carry);
    }
  }

  lemma OneMoreBit(v: View, ad: Adder, f: Full)
    requires BitsOk(v, ad) && |ad.bits| < |ad.a|
    requires var i := |ad.bits|; BitOk(v, f, ad.a[i], ad.b[i], CarryInto(ad, i), ad.sum[i])
    ensures BitsOk(v, ad.(bits := ad.bits + [f]))
  {
    hide BitOk;
    var ad' := ad.(bits := ad.bits + [f]);
    forall i | 0 <= i < |ad'.bits|
      ensures BitOk(v, ad'.bits[i], ad'.a[i], ad'.b[i], CarryInto(ad', i), ad'.sum[i])
    {
      assert CarryInto(ad', i) == CarryInto(ad, i);
    }
  }

  // The ports of an adder of the given width, numbered after n earlier ports.
  predicate AdderNumbers(ad: Adder, n: nat, width: nat) {
    && |ad.a| == |ad.b| == |ad.sum| == width && ad.cIn == In(n + 2 * width) && ad.carry == Out(n + 3 * width + 1)
    && forall i :: 0 <= i < width ==>
      ad.a[i] == In(n + i) && ad.b[i] == In(n + width + i) && ad.sum[i] == Out(n + 2 * width + 1 + i)
  }

  predicate AdderPorts(ms: seq<Module>, ps: seq<Port>, ad: Adder) {
    && Owns(ms, ps, ad.id, ad.cIn) && Owns(ms, ps, ad.id, ad.carry)
    && (forall i :: 0 <= i < |ad.a| ==> Owns(ms, ps, ad.id, ad.a[i]))
    && (forall i :: 0 <= i < |ad.b| ==> Owns(ms, ps, ad.id, ad.b[i]))
    && (forall i :: 0 <= i < |ad.sum| ==> Owns(ms, ps, ad.id, ad.sum[i]))
  }

  lemma KeepsAdderPorts(v: View, v': View, ad: Adder)
    requires Keeps(v, v') && AdderPorts(v.modules, v.ports, ad)
    ensures AdderPorts(v'.modules, v'.ports, ad)
  {
    hide ViewOk;
  }

  // The carry that goes into the next bit comes from the adder itself or from its last bit.
  predicate CarryReady(ms: seq<Module>, ps: seq<Port>, ad: Adder) {
    |ad.bits| > 0 ==> var f := ad.bits[|ad.bits| - 1];
      ParentIs(ms, f.id, ad.id) && Owns(ms, ps, f.id, f.carry) && f.carry.Out?
  }

  function CarryOwner(ad: Adder): nat {
    if |ad.bits| == 0 then ad.id else ad.bits[|ad.bits| - 1].id
  }

  lemma BitIsOffered(ms: seq<Module>, ps: seq<Port>, ad: Adder, n: nat, width: nat)
    requires AdderNumbers(ad, n, width) && AdderPorts(ms, ps, ad) && CarryReady(ms, ps, ad) && |ad.bits| < width
    ensures var i := |ad.bits|; BitPorts(ms, ps, ad.id, ad.a[i], ad.b[i], CarryInto(ad, i), CarryOwner(ad), ad.sum[i])
  {
    hide Owns, ParentIs;
  }

  // The adder while its bits are put in: those done work, the other sums and the carry still wait for a driver.
  predicate Rippling(v0: View, v: View, parent: Option<nat>, ad: Adder, width: nat) {
    && Building(v0, v, parent, ad.id) && AdderNumbers(ad, |v0.ports|, width) && AdderPorts(v.modules, v.ports, ad)
    && |ad.bits| <= width && BitsOk(v, ad) && CarryReady(v.modules, v.ports, ad)
    && UndrivenFrom(v.net, |v0.ports|, |v0.ports| + 2 * width + 1)
    && UndrivenFrom(v.net, |v0.ports| + 2 * width + 1 + |ad.bits|, |v0.ports| + 3 * width + 2)
    && |v.ports| == |v.net.driver|
  }

  lemma SumIsFree(v0: View, v: View, parent: Option<nat>, ad: Adder, width: nat)
    requires Rippling(v0, v, parent, ad, width) && |ad.bits| < width
    ensures var s := ad.sum[|ad.bits|]; UndrivenPort(v.net, s) && |v0.ports| <= s.index < |v.ports|
  {
    hide Building, AdderPorts, BitsOk, CarryReady;
  }

  lemma MoreRippling(v0: View, v: View, v': View, parent: Option<nat>, ad: Adder, width: nat, f: Full)
    requires Rippling(v0, v, parent, ad, width) && |ad.bits| < width && Building(v0, v', parent, ad.id) && Keeps(v, v')
    requires var i := |ad.bits|; BitOk(v', f, ad.a[i], ad.b[i], CarryInto(ad, i), ad.sum[i])
    requires ParentIs(v'.modules, f.id, ad.id) && Owns(v'.modules, v'.ports, f.id, f.carry) && f.carry.Out?
    requires OnlyDrives(v.net, v'.net, |v.ports|, ad.sum[|ad.bits|].index)
    ensures Rippling(v0, v', parent, ad.(bits := ad.bits + [f]), width)
  {
    hide Building, AdderPorts, BitsOk, BitOk, Keeps, ParentIs, Owns;
    KeepsBits(v, v', ad);
    OneMoreBit(v', ad, f);
    KeepsAdderPorts(v, v', ad);
    KeepsSizes(v, v');
    PortsHaveRoots(v');
    AdderPortsIgnoreBits(v'.modules, v'.ports, ad, f);
  }

  lemma AdderPortsIgnoreBits(ms: seq<Module>, ps: seq<Port>, ad: Adder, f: Full)
    requires AdderPorts(ms, ps, ad)
    ensures AdderPorts(ms, ps, ad.(bits := ad.bits + [f]))
  {
  }

  method PortRow(layout: Layout, id: nat, skip: nat, count: nat, isOut: bool) returns (row: seq<PortId>)
    requires layout.Valid() && id < |layout.modules|
    requires skip + count <= if isOut then layout.modules[id].outCount else layout.modules[id].inCount
    ensures |row| == count
    ensures forall i :: 0 <= i < count ==>
      row[i] == if isOut then Out(layout.modules[id].outFirst + skip + i) else In(layout.modules[id].inFirst + skip + i)
  {
    row := [];
    for i := 0 to count
      invariant |row| == i
      invariant forall k :: 0 <= k < i ==>
        row[k] == if isOut then Out(layout.modules[id].outFirst + skip + k)
          else In(layout.modules[id].inFirst + skip + k)
    {
      var p: PortId;
      if isOut {
        p := layout.OutPort(id, skip + i);
      } else {
        p := layout.InPort(id, skip + i);
      }
      row := row + [p];
    }
  }

  // The open adder module and its ports, before any bit is put in.
  method OpenAdder(layout: Layout, parent: Option<nat>, width: nat) returns (ad: Adder)
    requires layout.Valid() && Good(layout.State()) && Under(layout.State(), parent)
    modifies layout, layout.netlist, layout.netlist.equiv
    ensures layout.Valid() && Rippling(old(layout.State()), layout.State(), parent, ad, width) && ad.bits == []
  {
    hide Good, Grew, Keeps, Building, Under, ViewOk, NetOk, Layout.Valid, Owns, UndrivenFrom, SealedFrom, Rippling;
    ghost var v0 := layout.State();
    var id := OpenModule(layout, parent, 2 * width + 1, width + 1, NoKernel);
    ghost var v := layout.State();
    OpenIsBuilding(v0, v, parent, id);
    BuildingIsOpen(v0, v, parent, id);
    var a := PortRow(layout, id, 0, width, false);
    var b := PortRow(layout, id, width, width, false);
    var cIn := layout.InPort(id, 2 * width);
    var sum := PortRow(layout, id, 0, width, true);
    var carry := layout.OutPort(id, width);
    ad := Adder(id, [], a, b, cIn, sum, carry);
    StartsRippling(v0, v, parent, ad, width);
  }

  lemma StartsRippling(v0: View, v: View, parent: Option<nat>, ad: Adder, width: nat)
    requires Building(v0, v, parent, ad.id) && AdderNumbers(ad, |v0.ports|, width) && ad.bits == []
    requires var n := |v0.ports|;
             && (forall k: nat :: n <= k < n + 2 * width + 1 ==> Owns(v.modules, v.ports, ad.id, In(k)))
             && (forall k: nat :: n + 2 * width + 1 <= k < n + 3 * width + 2 ==>
               Owns(v.modules, v.ports, ad.id, Out(k)))
             && UndrivenFrom(v.net, n, n + 3 * width + 2)
    ensures Rippling(v0, v, parent, ad, width)
  {
    hide Building, Owns, BitOk;
    BuildingIsOpen(v0, v, parent, ad.id);
  }

  // The carry of the last bit drives the carry of the adder.
  method LinkCarry(layout: Layout, ad: Adder, ghost v0: View, ghost parent: Option<nat>, width: nat)
    requires layout.Valid() && Rippling(v0, layout.State(), parent, ad, width) && |ad.bits| == width > 0
    modifies layout.netlist, layout.netlist.equiv
    ensures layout.Valid() && Building(v0, layout.State(), parent, ad.id) && AdderOk(layout.State(), ad)
    ensures UndrivenFrom(layout.State().net, |v0.ports|, |v0.ports| + 2 * width + 1)
    ensures AdderPorts(layout.modules, layout.ports, ad)
  {
    hide Building, Keeps, BitsOk, ViewOk, NetOk, Layout.Valid;
    ghost var v := layout.State();
    var last := ad.bits[width - 1];
    var wires := [Wire(last.carry, last.id, ad.carry, ad.id)];
    LinkInside(layout, wires, v0, parent, ad.id);
    assert wires[0].dst == ad.carry;
    StillUndriven(v.net, layout.State().net, wires, |v0.ports|, |v0.ports| + 2 * width + 1);
    KeepsBits(v, layout.State(), ad);
  }

  // An adder of any width, built under any open module. Everything inside it is sealed, its operands and carry in are
  // left for the caller to drive, and every bit is wired to its neighbours.
  method RippleAdder(layout: Layout, parent: Option<nat>, width: nat) returns (ad: Adder)
    requires layout.Valid() && Good(layout.State()) && Under(layout.State(), parent)
    modifies layout, layout.netlist, layout.netlist.equiv
    ensures layout.Valid() && Built(old(layout.State()), layout.State(), parent, ad.id)
    ensures AdderOk(layout.State(), ad) && |ad.bits| == width && AdderPorts(layout.modules, layout.ports, ad)
    ensures AdderNumbers(ad, |old(layout.ports)|, width)
    ensures UndrivenFrom(layout.State().net, |old(layout.ports)|, |old(layout.ports)| + 2 * width + 1)
  {
    hide Good, Grew, Keeps, Building, Under, ViewOk, NetOk, BitOk, Layout.Valid, Built, BitsOk, AdderPorts;
    hide AdderNumbers, Rippling;
    hide BitPorts, Owns, ParentIs, UndrivenPort, OnlyDrives, UndrivenFrom;
    ghost var v0 := layout.State();
    ad := OpenAdder(layout, parent, width);
    for i := 0 to width
      invariant layout.Valid() && Rippling(v0, layout.State(), parent, ad, width) && |ad.bits| == i
    {
      ghost var v := layout.State();
      RipplingShows(v0, v, parent, ad, width);
      SumIsFree(v0, v, parent, ad, width);
      BitIsOffered(v.modules, v.ports, ad, |v0.ports|, width);
      var c := if i == 0 then ad.cIn else ad.bits[i - 1].carry;
      var cOwner := if i == 0 then ad.id else ad.bits[i - 1].id;
      var bit := AddBit(layout, ad.id, ad.a[i], ad.b[i], c, cOwner, ad.sum[i], v0, parent);
      MoreRippling(v0, v, layout.State(), parent, ad, width, bit);
      ad := ad.(bits := ad.bits + [bit]);
    }
    RipplingShows(v0, layout.State(), parent, ad, width);
    if width > 0 {
      LinkCarry(layout, ad, v0, parent, width);
    }
    ghost var v1 := layout.State();
    BuildingCloses(v0, v1, parent, ad.id);
    CloseModule(layout, ad.id, v0, parent);
    KeepsAdder(v1, layout.State(), ad);
    KeepsAdderPorts(v1, layout.State(), ad);
    SameDrivers(v1.net, layout.State().net, |v0.ports|, |v0.ports| + 2 * width + 1);
  }

  lemma RipplingShows(v0: View, v: View, parent: Option<nat>, ad: Adder, width: nat)
    requires Rippling(v0, v, parent, ad, width)
    ensures AdderNumbers(ad, |v0.ports|, width) && Building(v0, v, parent, ad.id) && AdderPorts(v.modules, v.ports, ad)
    ensures CarryReady(v.modules, v.ports, ad) && BitsOk(v, ad) && |ad.a| == |ad.b| == |ad.sum| == width
    ensures UndrivenFrom(v.net, |v0.ports|, |v0.ports| + 2 * width + 1)
  {
    hide Building, BitsOk, AdderPorts, CarryReady;
  }
}
