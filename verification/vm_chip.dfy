// From a layout with two connected adaptors to an engine whose link is lossless, whatever else the layout holds.

module VmChip {
  import opened Prelude
  import opened RubeNetlist
  import opened RubeLayout
  import opened RubeLanes
  import opened RubeSim
  import opened RubeBuild
  import opened RubeCompile
  import opened RubeRipple
  import opened RubeChip
  import opened VmAdaptor
  import opened VmLink
  import opened RubeDrive
  import opened VmEngine
  import opened VmLayout

  // Two placed adaptors, connected, whose outputs nothing drives and no other module writes.
  predicate Linked(v: View, a: Unit, b: Unit) {
    && Placed(v, a) && Placed(v, b) && OutsUndriven(v.net, a) && OutsUndriven(v.net, b)
    && OutsApart(v, a) && OutsApart(v, b)
    && LinkJoints(v.net, a, b) && LinkJoints(v.net, b, a)
  }

  lemma KeepsLinked(v: View, v': View, a: Unit, b: Unit)
    requires Linked(v, a, b) && Keeps(v, v') && v'.net.driver == v.net.driver && |v'.ports| == |v.ports|
    requires forall p: nat :: p < |v'.ports| ==> (SoleWriter(v', p) <==> SoleWriter(v, p))
    ensures Linked(v', a, b)
  {
    hide Keeps, Joint, LinkJoints, Placed, SoleWriter, ViewOk;
    KeptViews(v, v');
    KeepsPlaced(v, v', a);
    KeepsPlaced(v, v', b);
    KeepsLinkJoints(v, v', a, b);
    KeepsLinkJoints(v, v', b, a);
  }

  lemma KeptViews(v: View, v': View)
    requires Keeps(v, v')
    ensures ViewOk(v) && ViewOk(v')
  {
  }

  lemma KeepsPlaced(v: View, v': View, u: Unit)
    requires Placed(v, u) && Keeps(v, v')
    ensures Placed(v', u)
  {
    hide ViewOk;
    assert Open(v'.modules[u.id]) == Open(v.modules[u.id]);
  }

  lemma KeepsLinkJoints(v: View, v': View, a: Unit, b: Unit)
    requires LinkJoints(v.net, a, b) && Keeps(v, v')
    ensures LinkJoints(v'.net, a, b)
  {
    hide Keeps, Joint;
    KeepsJoint(v, v', Out(a.outs + 2), In(b.ins + 4));
    KeepsJoint(v, v', Out(a.outs + 3), In(b.ins + 5));
    KeepsJoint(v, v', Out(b.outs + 4), In(a.ins + 6));
  }

  // The lanes of both adaptors in an engine of a chip: joined, on their own, and in a state that shows the pair p.
  ghost predicate Carries<S>(c: Chip<S>, m: Machine<S>, emb: Adaptor -> S, ka: nat, kb: nat, p: Pair) {
    && Acts(c.resume, emb) && ka < |c.lanes| && kb < |c.lanes| && Alone(c.lanes, ka) && Alone(c.lanes, kb)
    && CrossWired(c.lanes[ka], c.lanes[kb])
    && ShowsSide(emb, m, c.lanes[ka], p.a) && ShowsSide(emb, m, c.lanes[kb], p.b)
  }

  // What a new engine shows of one adaptor.
  lemma StartShows<S>(c: Chip<S>, m: Machine<S>, emb: Adaptor -> S, initial: nat -> S, u: Unit, k: nat, id: bv64)
    requires Frozen(c.v, c.trig, c.perm, c.lanes) && Running(c, m) && Zeroed(m.w) && StartsIn(c, m, initial)
    requires Placed(c.v, u) && |c.trig| == |c.v.ports| && Evaluates(c.v, c.perm, c.lanes, k, u.id)
    requires c.lanes[k].CoroLane? && c.lanes[k].outs == c.trig[u.outs..u.outs + 5] && Distinct(c.lanes[k].outs)
    requires initial(u.id) == emb(VmAdaptor.New(id))
    ensures ShowsSide(emb, m, c.lanes[k], Side(VmAdaptor.New(id), [0, 0, 0, 0, 0]))
  {
    hide Frozen, Placed, Permutes, Reordered, Owners, OwnerOf, Clear;
    PlacedFits(c.v, u);
    forall i | 0 <= i < 5
      ensures c.lanes[k].outs[i] < |m.w.curr|
    {
      SliceAt(c.trig, u.outs, 5, i);
    }
  }

  lemma PlacedFits(v: View, u: Unit)
    requires Placed(v, u)
    ensures u.outs + 5 <= |v.ports| && u.ins + 7 <= |v.ports|
  {
  }

  // Freeze a sound layout with two connected adaptors in it and start an engine: it carries the pair's first state. The
  // other coroutines, the guests among them, start and go on as they like.
  method AssembleLink<S>(layout: Layout, f: (S, seq<bv64>) -> Resumed<S>, initial: nat -> S, ghost emb: Adaptor -> S,
                         ghost a: Unit, ghost b: Unit, ghost idA: bv64, ghost idB: bv64)
    returns (engine: SimEngine<S>, trig: seq<nat>, ghost c: Chip<S>, ghost ka: nat, ghost kb: nat)
    requires layout.Valid() && Good(layout.State()) && Linked(layout.State(), a, b)
    requires Acts(f, emb) && initial(a.id) == emb(VmAdaptor.New(idA)) && initial(b.id) == emb(VmAdaptor.New(idB))
    modifies layout, layout.netlist, layout.netlist.equiv`parent
    ensures fresh(engine) && fresh(engine.past) && fresh(engine.curr) && fresh(engine.futr) && fresh(engine.flags)
    ensures ChipOk(c) && trig == c.trig && Runs(engine, c) && c.resume == f && Linked(c.v, a, b)
    ensures Carries(c, engine.State(), emb, ka, kb, Start(idA, idB))
  {
    hide Good, Linked, Keeps, Frozen, OutputsApart, SoleWriter, Acts, ShowsSide, StartsIn, Zeroed, CrossWired;
    hide Alone, Evaluates, Running, ViewOk;
    ghost var v := layout.State();
    engine, trig, c := Assemble(layout, f, initial);
    KeepsLinked(v, c.v, a, b);
    ka, kb := LanesCarry(c, engine.State(), emb, initial, a, b, idA, idB);
  }

  lemma LanesCarry<S>(c: Chip<S>, m: Machine<S>, emb: Adaptor -> S, initial: nat -> S, a: Unit, b: Unit, idA: bv64,
                      idB: bv64)
    returns (ka: nat, kb: nat)
    requires ChipOk(c) && Linked(c.v, a, b) && Running(c, m) && Zeroed(m.w)
    requires StartsIn(c, m, initial) && Acts(c.resume, emb)
    requires initial(a.id) == emb(VmAdaptor.New(idA)) && initial(b.id) == emb(VmAdaptor.New(idB))
    ensures Carries(c, m, emb, ka, kb, Start(idA, idB))
  {
    hide Frozen, OutsApart, Placed, LinkJoints, OutsUndriven, Running, Zeroed, StartsIn, Evaluates, ViewOk, Distinct;
    hide Acts, ShowsSide, CrossWired, Alone;
    ka, kb := ConnectedLanesAreJoined(c.v, c.trig, c.perm, c.lanes, a, b);
    StartShows(c, m, emb, initial, a, ka, idA);
    StartShows(c, m, emb, initial, b, kb, idB);
  }

  // The states an engine runs through when nothing is set from outside.
  function States<S>(c: Chip<S>, m: Machine<S>, n: nat): (ms: seq<Machine<S>>)
    ensures |ms| == n + 1
  {
    seq(n + 1, i requires 0 <= i <= n => After(c, m, i))
  }

  lemma AloneIsRun<S>(c: Chip<S>, m: Machine<S>, ka: nat, kb: nat, n: nat)
    requires Running(c, m) && ka < |c.lanes| && kb < |c.lanes| && CrossWired(c.lanes[ka], c.lanes[kb])
    requires c.lanes[ka].cell < |m.cells| && c.lanes[kb].cell < |m.cells|
    ensures EngineRun(c.resume, States(c, m, n), c.lanes, ka, kb)
  {
    hide Driven, CrossWired, Clear;
    var ms := States(c, m, n);
    forall i | 0 <= i < |ms| - 1
      ensures LinkUntouched(Driven(c.resume, ms[i], c.lanes), ms[i + 1], c.lanes[ka])
        && LinkUntouched(Driven(c.resume, ms[i], c.lanes), ms[i + 1], c.lanes[kb])
    {
      StaysRunning(c, m, i + 1);
      CellsStay(c, m, i + 1);
      LinkLanes(c.lanes[ka], c.lanes[kb]);
    }
  }

  lemma LinkLanes(la: Lane, lb: Lane)
    requires CrossWired(la, lb)
    ensures la.CoroLane? && lb.CoroLane? && |la.outs| == |lb.outs| == 5 && |la.ins| == |lb.ins| == 7
  {
  }

  lemma {:induction false} LanesKeepCells<S>(f: (S, seq<bv64>) -> Resumed<S>, m: Machine<S>, lanes: seq<Lane>)
    ensures |EvalLanes(f, m, lanes).cells| == |m.cells|
  {
    if lanes != [] {
      LanesKeepCells(f, m, lanes[..|lanes| - 1]);
    }
  }

  lemma {:induction false} CellsStay<S>(c: Chip<S>, m: Machine<S>, n: nat)
    ensures |After(c, m, n).cells| == |m.cells|
  {
    if n > 0 {
      CellsStay(c, m, n - 1);
      LanesKeepCells(c.resume, After(c, m, n - 1), c.lanes);
    }
  }

  // What the guests have put on their buses so far.
  function BusesOf<S>(c: Chip<S>, m: Machine<S>, ka: nat, kb: nat, n: nat): (buses: Buses)
    requires ka < |c.lanes| && kb < |c.lanes| && CrossWired(c.lanes[ka], c.lanes[kb])
    ensures BusesOk(buses)
  {
    BusesIn(States(c, m, n), n, c.lanes[ka], c.lanes[kb])
  }

  // After any number of drives of such an engine, both directions of the link are lossless.
  lemma LinkOfChipIsLossless<S>(c: Chip<S>, m: Machine<S>, emb: Adaptor -> S, ka: nat, kb: nat, idA: bv64, idB: bv64,
                                n: nat)
    returns (a: Adaptor, b: Adaptor)
    requires Running(c, m) && Carries(c, m, emb, ka, kb, Start(idA, idB))
    ensures var cells := After(c, m, n).cells;
            && c.lanes[ka].cell < |cells| && c.lanes[kb].cell < |cells|
            && cells[c.lanes[ka].cell].state == emb(a) && cells[c.lanes[kb].cell].state == emb(b)
    ensures var flow := RunFlow(Start(idA, idB), BusesOf(c, m, ka, kb, n));
            Lossless(flow.0, a, b) && Lossless(flow.1, b, a)
  {
    hide Driven, CrossWired, Alone, Lossless, RunFlow, Start, Acts, Running, EngineRun, After;
    CarriesCells(c, m, emb, ka, kb, Start(idA, idB));
    AloneIsRun(c, m, ka, kb, n);
    AfterNone(c, m);
    a, b := EngineLinkIsLossless(c.resume, emb, States(c, m, n), c.lanes, ka, kb, idA, idB, n);
  }

  lemma CarriesCells<S>(c: Chip<S>, m: Machine<S>, emb: Adaptor -> S, ka: nat, kb: nat, p: Pair)
    requires Carries(c, m, emb, ka, kb, p)
    ensures c.lanes[ka].cell < |m.cells| && c.lanes[kb].cell < |m.cells|
  {
  }

  lemma AfterNone<S>(c: Chip<S>, m: Machine<S>)
    ensures After(c, m, 0) == m
  {
  }

  // Two guests, each with an adaptor, and the link between the adaptors.
  datatype Party = Party(guestA: Unit, guestB: Unit, a: Unit, b: Unit)

  predicate PartyPlaced(v: View, p: Party) {
    && GuestPlaced(v, p.guestA) && GuestPlaced(v, p.guestB) && Linked(v, p.a, p.b)
    && BusJoints(v.net, p.guestA, p.a) && BusJoints(v.net, p.guestB, p.b)
  }

  lemma KeepsGuest(v: View, v': View, g: Unit)
    requires GuestPlaced(v, g) && Keeps(v, v')
    ensures GuestPlaced(v', g)
  {
    hide ViewOk;
    assert Open(v'.modules[g.id]) == Open(v.modules[g.id]);
  }

  lemma KeepsBus(v: View, v': View, g: Unit, u: Unit)
    requires BusJoints(v.net, g, u) && Keeps(v, v')
    ensures BusJoints(v'.net, g, u)
  {
    hide Keeps, Joint;
    KeepsJoint(v, v', Out(g.outs), In(u.ins));
    KeepsJoint(v, v', Out(g.outs + 1), In(u.ins + 1));
    KeepsJoint(v, v', Out(g.outs + 2), In(u.ins + 2));
    KeepsJoint(v, v', Out(g.outs + 3), In(u.ins + 3));
    KeepsJoint(v, v', Out(u.outs), In(g.ins));
    KeepsJoint(v, v', Out(u.outs + 1), In(g.ins + 1));
  }

  lemma GrewKeeps(v: View, v': View, parent: Option<nat>)
    requires Grew(v, v')
    ensures Under(v, parent) ==> Under(v', parent)
    ensures Keeps(v, v') && (KernelsUndriven(v) ==> KernelsUndriven(v'))
  {
  }

  // A bus leaves every other range of ports as it is.
  lemma BusSpares(n: Net, n': Net, g: Unit, u: Unit, from: nat, to: nat)
    requires OnlySinks(n, n', BusWires(g, u)) && UndrivenFrom(n, from, to)
    requires to <= g.ins || g.ins + 2 <= from
    requires to <= u.ins || u.ins + 4 <= from
    ensures UndrivenFrom(n', from, to)
  {
    StillUndriven(n, n', BusWires(g, u), from, to);
  }

  // No kernel output of the whole layout is driven, so none of an adaptor is, and no other module writes it.
  lemma KernelsSpareOuts(v: View, u: Unit)
    requires Good(v) && KernelsUndriven(v) && Placed(v, u)
    ensures OutsUndriven(v.net, u) && OutsApart(v, u)
  {
    hide Covered, SingleDriver;
    GoodIsOk(v);
    UndrivenAreApart(v);
    PortsHaveRoots(v);
    forall p | u.outs <= p < u.outs + 5
      ensures v.net.driver[p] == None
    {
      assert KernelOutput(v, p);
    }
  }

  predicate Beside(g: Unit, from: nat, to: nat) {
    to <= g.ins || g.ins + 2 <= from
  }

  // Below `top`, only the inputs of g may have got a driver.
  ghost predicate Spared(n: Net, n': Net, g: Unit, top: nat) {
    forall from, to: nat :: UndrivenFrom(n, from, to) && to <= top && Beside(g, from, to) ==> UndrivenFrom(n', from, to)
  }

  // A guest with an adaptor of its own beside it: the adaptor is new.
  method Attach(layout: Layout, parent: Option<nat>, classKey: nat, g: Unit) returns (u: Unit)
    requires layout.Valid() && Good(layout.State()) && Under(layout.State(), parent) && KernelsUndriven(layout.State())
    requires GuestPlaced(layout.State(), g) && g.id < |layout.modules| && layout.modules[g.id].parent == parent
    requires g.ins + 2 <= |layout.ports| && UndrivenFrom(layout.State().net, g.ins, g.ins + 2)
    modifies layout, layout.netlist, layout.netlist.equiv
    ensures layout.Valid() && Good(layout.State()) && Keeps(old(layout.State()), layout.State())
    ensures KernelsUndriven(layout.State()) && Under(layout.State(), parent)
    ensures Placed(layout.State(), u) && BusJoints(layout.State().net, g, u) && LinkIsFree(layout.State().net, u)
    ensures u.id == |old(layout.modules)| && layout.modules[u.id].parent == parent && |layout.modules| == u.id + 1
    ensures u.ins == |old(layout.ports)| && |layout.ports| == u.ins + 12
    ensures Spared(old(layout.State()).net, layout.State().net, g, |old(layout.ports)|)
  {
    hide Good, Grew, Keeps, KernelsUndriven, OnlySinks, BusJoints, UndrivenFrom, GuestPlaced, Placed, BusWires;
    ghost var v0 := layout.State();
    u := VmLayout.New(layout, parent, classKey);
    ghost var v1 := layout.State();
    GrewKeeps(v0, v1, parent);
    KeepsGuest(v0, v1, g);
    SameParent(v0, v1, g.id);
    GrewUndriven(v0, v1, g.ins, g.ins + 2);
    PartUndriven(v1.net, u.ins, u.ins + 4, u.ins + 7);
    ConnectVm(layout, g, u);
    ghost var v2 := layout.State();
    KeepsChain(v0, v1, v2);
    KeepsPlaced(v1, v2, u);
    BusSpares(v1.net, v2.net, g, u, u.ins + 4, u.ins + 7);
    forall from, to: nat | UndrivenFrom(v0.net, from, to) && to <= |v0.ports| && Beside(g, from, to)
      ensures UndrivenFrom(v2.net, from, to)
    {
      GrewUndriven(v0, v1, from, to);
      BusSpares(v1.net, v2.net, g, u, from, to);
    }
  }

  lemma PartUndriven(n: Net, from: nat, mid: nat, to: nat)
    requires UndrivenFrom(n, from, to) && from <= mid <= to
    ensures UndrivenFrom(n, from, mid) && UndrivenFrom(n, mid, to)
  {
  }

  lemma SameParent(v: View, v': View, m: nat)
    requires Keeps(v, v') && m < |v.modules|
    ensures m < |v'.modules| && v'.modules[m].parent == v.modules[m].parent
  {
    assert Open(v'.modules[m]) == Open(v.modules[m]);
  }

  // Two guests side by side, in any sound layout.
  method NewGuests(layout: Layout, parent: Option<nat>, keyA: nat, keyB: nat) returns (a: Unit, b: Unit)
    requires layout.Valid() && Good(layout.State()) && Under(layout.State(), parent) && KernelsUndriven(layout.State())
    modifies layout, layout.netlist, layout.netlist.equiv
    ensures layout.Valid() && Good(layout.State()) && Keeps(old(layout.State()), layout.State())
    ensures KernelsUndriven(layout.State()) && Under(layout.State(), parent)
    ensures GuestPlaced(layout.State(), a) && GuestPlaced(layout.State(), b)
    ensures a.id == |old(layout.modules)| && b.id == a.id + 1 && |layout.modules| == b.id + 1
    ensures layout.modules[a.id].parent == parent && layout.modules[b.id].parent == parent
    ensures a.ins == |old(layout.ports)| && b.ins == a.ins + 6 && |layout.ports| == b.ins + 6
    ensures UndrivenFrom(layout.State().net, a.ins, a.ins + 2) && UndrivenFrom(layout.State().net, b.ins, b.ins + 2)
  {
    hide Good, Grew, Keeps, KernelsUndriven, UndrivenFrom, GuestPlaced;
    ghost var v0 := layout.State();
    a := NewGuest(layout, parent, keyA);
    ghost var v1 := layout.State();
    GrewKeeps(v0, v1, parent);
    b := NewGuest(layout, parent, keyB);
    ghost var v2 := layout.State();
    GrewKeeps(v1, v2, parent);
    KeepsChain(v0, v1, v2);
    KeepsGuest(v1, v2, a);
    SameParent(v1, v2, a.id);
    GrewUndriven(v1, v2, a.ins, a.ins + 2);
  }

  // Two guests with their adaptors and the link, placed in any sound layout in which no kernel's output is driven.
  method BuildParty(layout: Layout, parent: Option<nat>, keyA: nat, keyB: nat, adaptorKey: nat) returns (p: Party)
    requires layout.Valid() && Good(layout.State()) && Under(layout.State(), parent) && KernelsUndriven(layout.State())
    modifies layout, layout.netlist, layout.netlist.equiv
    ensures layout.Valid() && Good(layout.State()) && Keeps(old(layout.State()), layout.State())
    ensures KernelsUndriven(layout.State()) && PartyPlaced(layout.State(), p)
    ensures p.guestA.id == |old(layout.modules)| && p.guestB.id == p.guestA.id + 1
    ensures p.a.id == p.guestA.id + 2 && p.b.id == p.guestA.id + 3
  {
    hide Good, Keeps, KernelsUndriven, UndrivenFrom, GuestPlaced, Placed, BusJoints, LinkJoints, OutsUndriven, ViewOk;
    ghost var v0 := layout.State();
    var g0, g1 := NewGuests(layout, parent, keyA, keyB);
    ghost var v1 := layout.State();
    var a := Attach(layout, parent, adaptorKey, g0);
    ghost var v2 := layout.State();
    KeepsGuest(v1, v2, g1);
    SameParent(v1, v2, g1.id);
    assert Beside(g0, g1.ins, g1.ins + 2);
    var b := Attach(layout, parent, adaptorKey, g1);
    ghost var v3 := layout.State();
    KeepsPlaced(v2, v3, a);
    SameParent(v2, v3, a.id);
    assert Beside(g1, a.ins + 4, a.ins + 7);
    VmLayout.Connect(layout, a, b);
    p := Party(g0, g1, a, b);
    PartyIsPlaced(v1, v2, v3, layout.State(), p);
    KeepsChain(v0, v1, v2);
    KeepsChain(v0, v2, v3);
    KeepsChain(v0, v3, layout.State());
  }

  lemma PartyIsPlaced(v1: View, v2: View, v3: View, v: View, p: Party)
    requires Keeps(v1, v2) && Keeps(v2, v3) && Keeps(v3, v) && GuestPlaced(v1, p.guestA) && GuestPlaced(v1, p.guestB)
    requires Placed(v3, p.a) && Placed(v3, p.b) && BusJoints(v2.net, p.guestA, p.a) && BusJoints(v3.net, p.guestB, p.b)
    requires LinkJoints(v.net, p.a, p.b) && LinkJoints(v.net, p.b, p.a) && KernelsUndriven(v) && Good(v)
    ensures PartyPlaced(v, p)
  {
    hide Good, Keeps, KernelsUndriven, GuestPlaced, Placed, BusJoints, LinkJoints, OutsUndriven, ViewOk;
    KeepsChain(v1, v2, v3);
    KeepsChain(v1, v3, v);
    KeepsChain(v2, v3, v);
    KeepsGuest(v1, v, p.guestA);
    KeepsGuest(v1, v, p.guestB);
    KeepsPlaced(v3, v, p.a);
    KeepsPlaced(v3, v, p.b);
    KeepsBus(v2, v, p.guestA, p.a);
    KeepsBus(v3, v, p.guestB, p.b);
    GoodIsOk(v);
    KernelsSpareOuts(v, p.a);
    KernelsSpareOuts(v, p.b);
  }

  // The exchange from nothing: two guests that do whatever they like, their adaptors, freezing, compiling, and any
  // number of drives. Every byte a guest got accepted has been delivered or still waits, in order.
  method Exchange<S>(f: (S, seq<bv64>) -> Resumed<S>, initial: nat -> S, ghost emb: Adaptor -> S, times: nat)
    returns (engine: SimEngine<S>, ghost c: Chip<S>, ghost m: Machine<S>, ghost ka: nat, ghost kb: nat,
             ghost a: Adaptor, ghost b: Adaptor)
    requires Acts(f, emb) && initial(2) == emb(VmAdaptor.New(0)) && initial(3) == emb(VmAdaptor.New(1))
    ensures fresh(engine) && Runs(engine, c) && engine.State() == After(c, m, times)
    ensures Carries(c, m, emb, ka, kb, Start(0, 1))
    ensures c.lanes[ka].cell < |engine.cells| && c.lanes[kb].cell < |engine.cells|
    ensures engine.cells[c.lanes[ka].cell].state == emb(a) && engine.cells[c.lanes[kb].cell].state == emb(b)
    ensures var flow := RunFlow(Start(0, 1), BusesOf(c, m, ka, kb, times));
            Lossless(flow.0, a, b) && Lossless(flow.1, b, a)
  {
    hide Good, Keeps, KernelsUndriven, Linked, OutputsApart, ChipOk, Acts, Carries, BusJoints, GuestPlaced, RunFlow;
    hide Lossless, Running, After, SingleDriver, BusesOf, ViewOk;
    var layout := new Layout();
    EmptyIsGood();
    var p := BuildParty(layout, None, 0, 1, 2);
    var trig;
    engine, trig, c, ka, kb := AssembleLink(layout, f, initial, emb, p.a, p.b, 0, 1);
    m := engine.State();
    DriveMany(engine, c, times);
    a, b := LinkOfChipIsLossless(c, m, emb, ka, kb, 0, 1, times);
  }
}
