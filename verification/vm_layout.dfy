// Placing two adaptors in a layout and connecting them.

module VmLayout {
  import opened Prelude
  import opened RubeNetlist
  import opened RubeLayout
  import opened RubeLanes
  import opened RubeBuild
  import opened RubeCompile
  import opened RubeDrive
  import opened VmEngine

  const U32VAL := PortType(3, 0xFFFF_FFFF)
  const IN_TYPES := [BOOL, BOOL, U32VAL, U32VAL, BOOL, U32VAL, BOOL]
  const OUT_TYPES := [BOOL, U32VAL, BOOL, U32VAL, BOOL]

  // The module of an adaptor and the numbers of its first ports.
  datatype Unit = Unit(id: nat, ins: nat, outs: nat)

  predicate Placed(v: View, u: Unit) {
    && u.id < |v.modules| && v.modules[u.id].kernel.Coroutine? && u.ins + 7 <= |v.ports| && u.outs + 5 <= |v.ports|
    && v.modules[u.id].inFirst == u.ins && v.modules[u.id].inCount == 7 && v.modules[u.id].outFirst == u.outs
    && v.modules[u.id].outCount == 5
    && (forall p :: u.ins <= p < u.ins + 7 ==> v.ports[p] == Port(u.id, IN_TYPES[p - u.ins], false))
    && (forall p :: u.outs <= p < u.outs + 5 ==> v.ports[p] == Port(u.id, OUT_TYPES[p - u.outs], true))
  }

  // The types of an adaptor's ports, in the order the source gives them: three kinds of wire are one bit wide,
  // addresses and data have 32.
  lemma PlacedTypes(v: View, u: Unit)
    requires Placed(v, u)
    ensures var bit, word := PortType(0, 1), PortType(3, 0xFFFF_FFFF);
            && v.ports[u.ins].typ == v.ports[u.ins + 1].typ == bit
            && v.ports[u.ins + 2].typ == v.ports[u.ins + 3].typ == word
            && v.ports[u.ins + 4].typ == v.ports[u.ins + 6].typ == bit && v.ports[u.ins + 5].typ == word
            && v.ports[u.outs].typ == v.ports[u.outs + 2].typ == v.ports[u.outs + 4].typ == bit
            && v.ports[u.outs + 1].typ == v.ports[u.outs + 3].typ == word
  {
  }

  predicate OutsUndriven(n: Net, u: Unit) {
    UndrivenFrom(n, u.outs, u.outs + 5)
  }

  method New(layout: Layout, parent: Option<nat>, classKey: nat) returns (u: Unit)
    requires layout.Valid() && Good(layout.State()) && Under(layout.State(), parent)
    modifies layout, layout.netlist, layout.netlist.equiv
    ensures layout.Valid() && Good(layout.State()) && Grew(old(layout.State()), layout.State())
    ensures Placed(layout.State(), u)
    ensures u.id == |old(layout.modules)| && layout.modules[u.id].parent == parent && |layout.modules| == u.id + 1
    ensures u.ins == |old(layout.ports)| && u.outs == u.ins + 7 && |layout.ports| == u.ins + 12
    ensures UndrivenFrom(layout.State().net, u.ins, u.ins + 7) && OutsUndriven(layout.State().net, u)
  {
    hide Good, Grew;
    ghost var v := layout.State();
    GoodIsOk(v);
    AddGrows(v, parent, IN_TYPES, OUT_TYPES, Coroutine(classKey));
    var id := layout.AddModule(parent, IN_TYPES, OUT_TYPES, Coroutine(classKey));
    u := Unit(id, layout.modules[id].inFirst, layout.modules[id].outFirst);
    GoodIsOk(layout.State());
    PortsHaveRoots(layout.State());
  }

  // A guest, which is a coroutine module of its own.
  predicate GuestPlaced(v: View, g: Unit) {
    && g.id < |v.modules| && v.modules[g.id].kernel.Coroutine? && g.ins + 2 <= |v.ports| && g.outs + 4 <= |v.ports|
    && (forall p :: g.ins <= p < g.ins + 2 ==> v.ports[p] == Port(g.id, OUT_TYPES[p - g.ins], false))
    && (forall p :: g.outs <= p < g.outs + 4 ==> v.ports[p] == Port(g.id, IN_TYPES[p - g.outs], true))
  }

  method NewGuest(layout: Layout, parent: Option<nat>, classKey: nat) returns (g: Unit)
    requires layout.Valid() && Good(layout.State()) && Under(layout.State(), parent)
    modifies layout, layout.netlist, layout.netlist.equiv
    ensures layout.Valid() && Good(layout.State()) && Grew(old(layout.State()), layout.State())
    ensures GuestPlaced(layout.State(), g)
    ensures g.id == |old(layout.modules)| && layout.modules[g.id].parent == parent && |layout.modules| == g.id + 1
    ensures g.ins == |old(layout.ports)| && g.outs == g.ins + 2 && |layout.ports| == g.ins + 6
    ensures UndrivenFrom(layout.State().net, g.ins, g.ins + 2)
  {
    hide Good, Grew;
    ghost var v := layout.State();
    GoodIsOk(v);
    AddGrows(v, parent, OUT_TYPES[..2], IN_TYPES[..4], Coroutine(classKey));
    var id := layout.AddModule(parent, OUT_TYPES[..2], IN_TYPES[..4], Coroutine(classKey));
    g := Unit(id, layout.modules[id].inFirst, layout.modules[id].outFirst);
    GoodIsOk(layout.State());
    PortsHaveRoots(layout.State());
  }

  // The bus of a guest: request, write, address and data forward, acknowledge and data back.
  function BusWires(g: Unit, u: Unit): seq<Wire> {
    [Wire(Out(g.outs), g.id, In(u.ins), u.id), Wire(Out(g.outs + 1), g.id, In(u.ins + 1), u.id),
     Wire(Out(g.outs + 2), g.id, In(u.ins + 2), u.id), Wire(Out(g.outs + 3), g.id, In(u.ins + 3), u.id),
     Wire(Out(u.outs), u.id, In(g.ins), g.id), Wire(Out(u.outs + 1), u.id, In(g.ins + 1), g.id)]
  }

  predicate BusJoints(n: Net, g: Unit, u: Unit) {
    && Joint(n, Out(g.outs), In(u.ins)) && Joint(n, Out(g.outs + 1), In(u.ins + 1))
    && Joint(n, Out(g.outs + 2), In(u.ins + 2)) && Joint(n, Out(g.outs + 3), In(u.ins + 3))
    && Joint(n, Out(u.outs), In(g.ins)) && Joint(n, Out(u.outs + 1), In(g.ins + 1))
  }

  lemma BusConnectable(v: View, g: Unit, u: Unit)
    requires GuestPlaced(v, g) && Placed(v, u) && Siblings(v.modules, g.id, u.id) && g.id != u.id
    requires UndrivenFrom(v.net, u.ins, u.ins + 4) && UndrivenFrom(v.net, g.ins, g.ins + 2)
    ensures Connectable(v.modules, v.ports, v.net, BusWires(g, u), 0)
  {
    hide GuestPlaced, Placed, Belongs, UndrivenFrom;
    GuestPorts(v, g);
    BusPorts(v, u);
    BusSinksDiffer(v, g, u);
  }

  lemma GuestPorts(v: View, g: Unit)
    requires GuestPlaced(v, g) && UndrivenFrom(v.net, g.ins, g.ins + 2)
    ensures g.ins + 2 <= |v.ports| && g.outs + 4 <= |v.ports|
    ensures Belongs(v.modules, v.ports, g.id, Out(g.outs)) && Belongs(v.modules, v.ports, g.id, Out(g.outs + 1))
    ensures Belongs(v.modules, v.ports, g.id, Out(g.outs + 2)) && Belongs(v.modules, v.ports, g.id, Out(g.outs + 3))
    ensures Belongs(v.modules, v.ports, g.id, In(g.ins)) && Belongs(v.modules, v.ports, g.id, In(g.ins + 1))
    ensures v.ports[g.outs].typ == v.ports[g.outs + 1].typ == v.ports[g.ins].typ == BOOL
    ensures v.ports[g.outs + 2].typ == v.ports[g.outs + 3].typ == v.ports[g.ins + 1].typ == U32VAL
    ensures UndrivenPort(v.net, In(g.ins)) && UndrivenPort(v.net, In(g.ins + 1))
  {
  }

  lemma BusPorts(v: View, u: Unit)
    requires Placed(v, u) && UndrivenFrom(v.net, u.ins, u.ins + 4)
    ensures u.ins + 7 <= |v.ports| && u.outs + 5 <= |v.ports|
    ensures Belongs(v.modules, v.ports, u.id, In(u.ins)) && Belongs(v.modules, v.ports, u.id, In(u.ins + 1))
    ensures Belongs(v.modules, v.ports, u.id, In(u.ins + 2)) && Belongs(v.modules, v.ports, u.id, In(u.ins + 3))
    ensures Belongs(v.modules, v.ports, u.id, Out(u.outs)) && Belongs(v.modules, v.ports, u.id, Out(u.outs + 1))
    ensures v.ports[u.ins].typ == v.ports[u.ins + 1].typ == v.ports[u.outs].typ == BOOL
    ensures v.ports[u.ins + 2].typ == v.ports[u.ins + 3].typ == v.ports[u.outs + 1].typ == U32VAL
    ensures UndrivenPort(v.net, In(u.ins)) && UndrivenPort(v.net, In(u.ins + 1))
    ensures UndrivenPort(v.net, In(u.ins + 2)) && UndrivenPort(v.net, In(u.ins + 3))
  {
  }

  lemma BusSinksDiffer(v: View, g: Unit, u: Unit)
    requires GuestPlaced(v, g) && Placed(v, u) && g.id != u.id
    ensures g.ins + 2 <= u.ins || u.ins + 7 <= g.ins
  {
    var p := if g.ins < u.ins then u.ins else g.ins;
    assert p < g.ins + 2 ==> v.ports[p].owner == g.id;
    assert p < u.ins + 7 ==> v.ports[p].owner == u.id;
  }

  lemma WiresAreBus(n: Net, g: Unit, u: Unit)
    requires var wires := BusWires(g, u); forall i :: 0 <= i < |wires| ==> Joint(n, wires[i].src, wires[i].dst)
    ensures BusJoints(n, g, u)
  {
    hide Joint;
    var wires := BusWires(g, u);
    assert wires[0].dst == In(u.ins) && wires[1].dst == In(u.ins + 1) && wires[2].dst == In(u.ins + 2);
    assert wires[3].dst == In(u.ins + 3) && wires[4].dst == In(g.ins) && wires[5].dst == In(g.ins + 1);
  }

  // Connect a guest to the adaptor beside it; the six connections cannot be refused, and drive no other port.
  method ConnectVm(layout: Layout, g: Unit, u: Unit)
    requires layout.Valid() && Good(layout.State()) && GuestPlaced(layout.State(), g) && Placed(layout.State(), u)
    requires Siblings(layout.modules, g.id, u.id) && g.id != u.id
    requires UndrivenFrom(layout.State().net, u.ins, u.ins + 4) && UndrivenFrom(layout.State().net, g.ins, g.ins + 2)
    modifies layout.netlist, layout.netlist.equiv
    ensures layout.Valid() && Good(layout.State()) && Keeps(old(layout.State()), layout.State())
    ensures BusJoints(layout.State().net, g, u)
    ensures KernelsUndriven(old(layout.State())) ==> KernelsUndriven(layout.State())
    ensures OnlySinks(old(layout.State()).net, layout.State().net, BusWires(g, u))
  {
    hide Good, Keeps, Joint, Connectable, OnlySinks, KernelsUndriven;
    ghost var v := layout.State();
    GoodIsOk(v);
    PortsHaveRoots(v);
    BusConnectable(v, g, u);
    LinkAll(layout, BusWires(g, u));
    KernelsStayUndriven(v, layout.State(), BusWires(g, u), 0, |v.modules|);
    WiresAreBus(layout.State().net, g, u);
  }

  // The link of one direction: valid and data forward, ready back.
  function LinkWires(a: Unit, b: Unit): seq<Wire> {
    [Wire(Out(a.outs + 2), a.id, In(b.ins + 4), b.id), Wire(Out(a.outs + 3), a.id, In(b.ins + 5), b.id),
     Wire(Out(b.outs + 4), b.id, In(a.ins + 6), a.id)]
  }

  predicate LinkJoints(n: Net, a: Unit, b: Unit) {
    && Joint(n, Out(a.outs + 2), In(b.ins + 4)) && Joint(n, Out(a.outs + 3), In(b.ins + 5))
    && Joint(n, Out(b.outs + 4), In(a.ins + 6))
  }

  predicate LinkIsFree(n: Net, u: Unit) {
    UndrivenFrom(n, u.ins + 4, u.ins + 7)
  }

  lemma BothConnectable(v: View, a: Unit, b: Unit)
    requires Placed(v, a) && Placed(v, b) && a.id != b.id && Siblings(v.modules, a.id, b.id) && LinkIsFree(v.net, a)
    requires LinkIsFree(v.net, b)
    ensures Connectable(v.modules, v.ports, v.net, LinkWires(a, b) + LinkWires(b, a), 0)
  {
    hide Placed, Belongs, UndrivenFrom;
    LinkPorts(v, a);
    LinkPorts(v, b);
    LinkPortsDiffer(v, a, b);
  }

  // The link ports of a placed adaptor: their owner, their types, and that nothing drives the inputs yet.
  lemma LinkPorts(v: View, u: Unit)
    requires Placed(v, u) && LinkIsFree(v.net, u)
    ensures u.ins + 7 <= |v.ports| && u.outs + 5 <= |v.ports|
    ensures Belongs(v.modules, v.ports, u.id, In(u.ins + 4)) && Belongs(v.modules, v.ports, u.id, In(u.ins + 5))
    ensures Belongs(v.modules, v.ports, u.id, In(u.ins + 6)) && Belongs(v.modules, v.ports, u.id, Out(u.outs + 2))
    ensures Belongs(v.modules, v.ports, u.id, Out(u.outs + 3)) && Belongs(v.modules, v.ports, u.id, Out(u.outs + 4))
    ensures v.ports[u.ins + 4].typ == v.ports[u.ins + 6].typ == v.ports[u.outs + 2].typ
      == v.ports[u.outs + 4].typ == BOOL
    ensures v.ports[u.ins + 5].typ == v.ports[u.outs + 3].typ == U32VAL
    ensures UndrivenPort(v.net, In(u.ins + 4)) && UndrivenPort(v.net, In(u.ins + 5))
    ensures UndrivenPort(v.net, In(u.ins + 6))
  {
  }

  lemma LinkPortsDiffer(v: View, a: Unit, b: Unit)
    requires Placed(v, a) && Placed(v, b) && a.id != b.id
    ensures a.ins + 7 <= b.ins || b.ins + 7 <= a.ins
  {
    var p := if a.ins < b.ins then b.ins else a.ins;
    assert p < a.ins + 7 ==> v.ports[p].owner == a.id;
    assert p < b.ins + 7 ==> v.ports[p].owner == b.id;
  }

  lemma WiresAreJoints(n: Net, a: Unit, b: Unit)
    requires var wires := LinkWires(a, b) + LinkWires(b, a);
      forall i :: 0 <= i < |wires| ==> Joint(n, wires[i].src, wires[i].dst)
    ensures LinkJoints(n, a, b) && LinkJoints(n, b, a)
  {
    hide Joint;
    var wires := LinkWires(a, b) + LinkWires(b, a);
    assert wires[0].dst == In(b.ins + 4) && wires[1].dst == In(b.ins + 5) && wires[2].dst == In(a.ins + 6);
    assert wires[3].dst == In(a.ins + 4) && wires[4].dst == In(a.ins + 5) && wires[5].dst == In(b.ins + 6);
  }

  // Connect two adaptors that stand side by side; the six connections cannot be refused.
  method Connect(layout: Layout, a: Unit, b: Unit)
    requires layout.Valid() && Good(layout.State()) && Placed(layout.State(), a) && Placed(layout.State(), b)
    requires a.id != b.id
    requires Siblings(layout.modules, a.id, b.id) && LinkIsFree(layout.State().net, a)
    requires LinkIsFree(layout.State().net, b)
    modifies layout.netlist, layout.netlist.equiv
    ensures layout.Valid() && Good(layout.State()) && Keeps(old(layout.State()), layout.State())
    ensures LinkJoints(layout.State().net, a, b) && LinkJoints(layout.State().net, b, a)
    ensures KernelsUndriven(old(layout.State())) ==> KernelsUndriven(layout.State())
    ensures OutsUndriven(old(layout.State()).net, a) ==> OutsUndriven(layout.State().net, a)
    ensures OutsUndriven(old(layout.State()).net, b) ==> OutsUndriven(layout.State().net, b)
  {
    hide Good, Keeps, Joint, Connectable, OnlySinks, KernelsUndriven, OutsUndriven;
    ghost var v := layout.State();
    GoodIsOk(v);
    PortsHaveRoots(v);
    BothConnectable(v, a, b);
    LinkAll(layout, LinkWires(a, b) + LinkWires(b, a));
    KernelsStayUndriven(v, layout.State(), LinkWires(a, b) + LinkWires(b, a), 0, |v.modules|);
    WiresAreJoints(layout.State().net, a, b);
    OutsStayUndriven(v, layout.State(), a, b, a);
    OutsStayUndriven(v, layout.State(), a, b, b);
  }

  lemma OutsStayUndriven(v: View, v': View, a: Unit, b: Unit, u: Unit)
    requires Placed(v, a) && Placed(v, b) && (u == a || u == b)
    requires OnlySinks(v.net, v'.net, LinkWires(a, b) + LinkWires(b, a))
    ensures OutsUndriven(v.net, u) ==> OutsUndriven(v'.net, u)
  {
    if OutsUndriven(v.net, u) {
      var wires := LinkWires(a, b) + LinkWires(b, a);
      forall i | 0 <= i < |wires|
        ensures !(u.outs <= wires[i].dst.index < u.outs + 5)
      {
        var p := wires[i].dst.index;
        assert a.ins + 4 <= p < a.ins + 7 || b.ins + 4 <= p < b.ins + 7;
        assert p < |v.ports| && !v.ports[p].isOut;
      }
      StillUndriven(v.net, v'.net, wires, u.outs, u.outs + 5);
    }
  }

  // No other module writes the nets of the unit's outputs.
  predicate OutsApart(v: View, u: Unit) {
    ViewOk(v) && u.outs + 5 <= |v.ports| && forall p :: u.outs <= p < u.outs + 5 ==> SoleWriter(v, p)
  }

  lemma UnitIsAlone(v: View, trig: seq<nat>, perm: seq<nat>, lanes: seq<Lane>, u: Unit, k: nat)
    requires Frozen(v, trig, perm, lanes) && ViewOk(v) && Placed(v, u) && OutsApart(v, u) && |trig| == |v.ports|
    requires Evaluates(v, perm, lanes, k, u.id) && lanes[k].CoroLane? && lanes[k].outs == trig[u.outs..u.outs + 5]
    ensures Alone(lanes, k)
  {
    hide Frozen, LanesOf, Permutes, OwnerOf, Owners, Reordered, ViewOk, SoleWriter, OutsOf, Written;
    FrozenShows(v, trig, perm, lanes);
    forall j | 0 <= j < |lanes| && j != k
      ensures Independent(lanes[k], lanes[j])
    {
      LanesCount(v, trig, perm, lanes);
      forall t | t in OutsOf(lanes[k]) && t in OutsOf(lanes[j])
        ensures false
      {
        var i := OutPort(trig, lanes[k], u, t);
        UnitWrites(v, u, u.outs + i);
        WriterIsOwner(v, trig, perm, lanes, u.outs + i, j);
        OwnersDiffer(v, perm, j, k);
      }
      CellsApart(v, trig, perm, lanes, k, j);
    }
  }

  lemma OutPort(trig: seq<nat>, l: Lane, u: Unit, t: nat) returns (i: nat)
    requires l.CoroLane? && u.outs + 5 <= |trig| && l.outs == trig[u.outs..u.outs + 5] && t in OutsOf(l)
    ensures i < 5 && trig[u.outs + i] == t
  {
    i :| 0 <= i < |l.outs| && l.outs[i] == t;
  }

  lemma UnitWrites(v: View, u: Unit, p: nat)
    requires ViewOk(v) && Placed(v, u) && u.outs <= p < u.outs + 5
    ensures p < |v.ports| && Written(v, p) && v.ports[p].owner == u.id
  {
  }

  lemma LanesCount(v: View, trig: seq<nat>, perm: seq<nat>, lanes: seq<Lane>)
    requires Frozen(v, trig, perm, lanes) && Permutes(perm, |v.modules|)
    ensures |lanes| == |Owners(Reordered(v.modules, perm))|
  {
    hide Good, Owners;
  }

  // Lanes of different coroutines have different cells.
  lemma CellsApart(v: View, trig: seq<nat>, perm: seq<nat>, lanes: seq<Lane>, j: nat, k: nat)
    requires Frozen(v, trig, perm, lanes) && j < |lanes| && k < |lanes| && j != k
    ensures lanes[j].CoroLane? && lanes[k].CoroLane? ==> lanes[j].cell != lanes[k].cell
  {
    hide Good, Owners, CoroModules, OneTriggerPerNet;
    if lanes[j].CoroLane? && lanes[k].CoroLane? {
      CellsDiffer(Reordered(v.modules, perm), trig, if j < k then j else k, if j < k then k else j);
    }
  }

  // Lane k is the lane of module id.
  predicate Evaluates(v: View, perm: seq<nat>, lanes: seq<Lane>, k: nat, id: nat) {
    k < |lanes| && Permutes(perm, |v.modules|) && k < |Owners(Reordered(v.modules, perm))| && OwnerOf(v, perm, k) == id
  }

  // After freezing, the adaptors have lanes of their own, joined as the link needs them.
  lemma ConnectedLanesAreJoined(v: View, trig: seq<nat>, perm: seq<nat>, lanes: seq<Lane>, a: Unit, b: Unit)
    returns (ka: nat, kb: nat)
    requires Frozen(v, trig, perm, lanes) && ViewOk(v) && Placed(v, a) && Placed(v, b)
    requires OutsApart(v, a) && OutsApart(v, b)
    requires OutsUndriven(v.net, a) && OutsUndriven(v.net, b)
    requires LinkJoints(v.net, a, b) && LinkJoints(v.net, b, a)
    ensures ka < |lanes| && kb < |lanes| && CrossWired(lanes[ka], lanes[kb]) && Alone(lanes, ka)
    ensures Alone(lanes, kb)
    ensures Distinct(lanes[ka].outs) && Distinct(lanes[kb].outs)
    ensures Evaluates(v, perm, lanes, ka, a.id) && Evaluates(v, perm, lanes, kb, b.id)
    ensures a.outs + 5 <= |trig| && b.outs + 5 <= |trig| && lanes[ka].CoroLane? && lanes[kb].CoroLane?
    ensures lanes[ka].outs == trig[a.outs..a.outs + 5] && lanes[kb].outs == trig[b.outs..b.outs + 5]
  {
    hide Frozen, LanesOf, Permutes, Reordered, LinkJoints, Placed, Distinct, Alone, OneTriggerPerNet, ViewOk;
    hide SingleDriver, OutsApart, Evaluates;
    FrozenShows(v, trig, perm, lanes);
    ka := UnitLane(v, trig, perm, lanes, a);
    kb := UnitLane(v, trig, perm, lanes, b);
    UnitIsAlone(v, trig, perm, lanes, a, ka);
    UnitIsAlone(v, trig, perm, lanes, b, kb);
    OutsDiffer(v, trig, perm, lanes, a);
    OutsDiffer(v, trig, perm, lanes, b);
    JointTriggers(v, trig, a, b);
    JointTriggers(v, trig, b, a);
    SlicesAreWired(trig, lanes[ka], lanes[kb], a, b);
  }

  lemma SliceAt(trig: seq<nat>, from: nat, count: nat, k: nat)
    requires from + count <= |trig| && k < count
    ensures trig[from..from + count][k] == trig[from + k]
  {
  }

  lemma SlicesAreWired(trig: seq<nat>, la: Lane, lb: Lane, a: Unit, b: Unit)
    requires a.ins + 7 <= |trig| && a.outs + 5 <= |trig| && b.ins + 7 <= |trig| && b.outs + 5 <= |trig|
    requires la.CoroLane? && lb.CoroLane?
    requires la.ins == trig[a.ins..a.ins + 7] && la.outs == trig[a.outs..a.outs + 5]
    requires lb.ins == trig[b.ins..b.ins + 7] && lb.outs == trig[b.outs..b.outs + 5]
    requires trig[b.ins + 4] == trig[a.outs + 2] && trig[b.ins + 5] == trig[a.outs + 3]
    requires trig[a.ins + 6] == trig[b.outs + 4]
    requires trig[a.ins + 4] == trig[b.outs + 2] && trig[a.ins + 5] == trig[b.outs + 3]
    requires trig[b.ins + 6] == trig[a.outs + 4]
    ensures CrossWired(la, lb)
  {
    OneSideWired(trig, la, lb, a, b);
    OneSideWired(trig, lb, la, b, a);
  }

  lemma OneSideWired(trig: seq<nat>, la: Lane, lb: Lane, a: Unit, b: Unit)
    requires a.outs + 5 <= |trig| && b.ins + 7 <= |trig| && la.CoroLane? && lb.CoroLane?
    requires a.ins + 7 <= |trig| && b.outs + 5 <= |trig| && la.ins == trig[a.ins..a.ins + 7]
    requires lb.outs == trig[b.outs..b.outs + 5]
    requires trig[a.ins + 4] == trig[b.outs + 2] && trig[a.ins + 5] == trig[b.outs + 3]
    requires trig[a.ins + 6] == trig[b.outs + 4]
    ensures |la.ins| == 7 && |lb.outs| == 5 && la.ins[4] == lb.outs[2] && la.ins[5] == lb.outs[3]
    ensures la.ins[6] == lb.outs[4]
  {
    SliceAt(trig, a.ins, 7, 4);
    SliceAt(trig, a.ins, 7, 5);
    SliceAt(trig, a.ins, 7, 6);
    SliceAt(trig, b.outs, 5, 2);
    SliceAt(trig, b.outs, 5, 3);
    SliceAt(trig, b.outs, 5, 4);
  }

  lemma JointTriggers(v: View, trig: seq<nat>, a: Unit, b: Unit)
    requires ViewOk(v) && OneTriggerPerNet(v.net, trig) && |trig| == |v.ports| && Placed(v, a) && Placed(v, b)
    requires LinkJoints(v.net, a, b)
    ensures trig[b.ins + 4] == trig[a.outs + 2] && trig[b.ins + 5] == trig[a.outs + 3]
    ensures trig[a.ins + 6] == trig[b.outs + 4]
  {
    hide NetOk, PortOk, ModuleOk;
  }

  lemma UnitLane(v: View, trig: seq<nat>, perm: seq<nat>, lanes: seq<Lane>, u: Unit) returns (k: nat)
    requires Frozen(v, trig, perm, lanes) && Placed(v, u)
    ensures k < |lanes| && lanes[k].CoroLane? && u.ins + 7 <= |trig| && u.outs + 5 <= |trig|
    ensures lanes[k].ins == trig[u.ins..u.ins + 7] && lanes[k].outs == trig[u.outs..u.outs + 5]
    ensures Evaluates(v, perm, lanes, k, u.id)
  {
    hide Frozen, Owners, OwnerOf;
    FrozenShows(v, trig, perm, lanes);
    k := LaneFor(v, trig, perm, lanes, u.id);
  }

  // The outputs of a coroutine are on nets of their own.
  lemma OutsDiffer(v: View, trig: seq<nat>, perm: seq<nat>, lanes: seq<Lane>, u: Unit)
    requires Frozen(v, trig, perm, lanes) && Placed(v, u) && OutsUndriven(v.net, u)
    ensures u.outs + 5 <= |trig| && Distinct(trig[u.outs..u.outs + 5])
  {
    hide SingleDriver, NetOk, LanesOf, Permutes;
    FrozenShows(v, trig, perm, lanes);
    var outs := trig[u.outs..u.outs + 5];
    forall i, j | 0 <= i < j < |outs|
      ensures outs[i] != outs[j]
    {
      RootsDiffer(v, trig, u.outs + i, u.outs + j);
    }
  }
}
