// Freezing a layout into a running engine, and an adder built and used from nothing.

module RubeChip {
  import opened Prelude
  import opened RubeNetlist
  import opened RubeLayout
  import opened RubeHistory
  import opened RubeLanes
  import opened RubeEngine
  import opened RubeSim
  import opened RubeBuild
  import opened RubeCompile
  import opened RubeRipple

  lemma FreezeKeepsGood(v0: View, v: View)
    requires Good(v0) && Freezing(v0, v, 0)
    ensures Good(v) && Sound(v) && Keeps(v0, v) && v.net.driver == v0.net.driver
  {
    hide GivenFrom;
    FreezeKeepsKernels(v0, v);
    FreezeKeepsCovered(v0, v);
    FreezeKeepsDrivers(v0, v);
  }

  lemma FreezeKeepsKernels(v0: View, v: View)
    requires Good(v0) && Freezing(v0, v, 0)
    ensures FastHavePorts(v) && Keeps(v0, v)
  {
    hide GivenFrom, Covered, SingleDriver, NetOk;
    forall m | 0 <= m < |v0.modules|
      ensures Open(v.modules[m]) == Open(v0.modules[m])
    {
    }
  }

  lemma FreezeKeepsCovered(v0: View, v: View)
    requires ViewOk(v0) && Covered(v0) && Freezing(v0, v, 0)
    ensures Covered(v)
  {
    hide Assignable;
    forall p | 0 <= p < |v.ports|
      ensures Triggered(v.net, p)
    {
      CoveredIsAssignable(v0, p);
      FrozenTriggers(v0, v, p);
    }
    forall c | 0 <= c < |v.modules|
      ensures IsSealed(v, c)
    {
    }
  }

  lemma FreezeKeepsDrivers(v0: View, v: View)
    requires ViewOk(v0) && SingleDriver(v0) && Freezing(v0, v, 0)
    ensures SingleDriver(v)
  {
    hide GivenFrom;
    forall s | 0 <= s < |v.ports| && v.net.driver[s].Some?
      ensures Edge(v, v.net.driver[s].value.index, s) && v.net.root[v.net.driver[s].value.index] == v.net.root[s]
    {
      SealsKeepEdge(v0, v, v.net.driver[s].value.index, s);
    }
    forall p, q | 0 <= p < |v.ports| && 0 <= q < |v.ports| && Undriven(v, p)
      && Undriven(v, q) && v.net.root[p] == v.net.root[q]
      ensures p == q
    {
      assert Undriven(v0, p) && Undriven(v0, q);
    }
  }

  lemma SealsKeepEdge(v0: View, v: View, d: nat, s: nat)
    requires ViewOk(v0) && Freezing(v0, v, 0) && d < |v.ports| && s < |v.ports| && Edge(v0, d, s)
    ensures Edge(v, d, s)
  {
    assert PortOk(v0, d) && PortOk(v0, s) && PortOk(v, d) && PortOk(v, s);
  }

  // A sound layout always freezes: every net has a trigger or an open module that will give it one.
  lemma GoodFreezes(v: View)
    requires Good(v)
    ensures ViewOk(v) && forall p :: 0 <= p < |v.ports| ==> Triggered(v.net, p) || Assignable(v, v.net.root[p])
  {
    forall p | 0 <= p < |v.ports|
      ensures Triggered(v.net, p) || Assignable(v, v.net.root[p])
    {
      CoveredIsAssignable(v, p);
    }
  }

  // The order the modules end up in. Callers learn only that each of them occurs once.
  method ModuleOrder(n: nat) returns (perm: seq<nat>)
    ensures Permutes(perm, n)
  {
    perm := [];
    for i := 0 to n
      invariant Permutes(perm, i)
    {
      ghost var before := perm;
      perm := perm + [i];
      forall k: nat | k < i + 1
        ensures k in perm
      {
        assert perm[i] == i && (k < i ==> k in before);
      }
    }
  }

  lemma ReorderedFits(v: View, trig: seq<nat>, perm: seq<nat>)
    requires Good(v) && OneTriggerPerNet(v.net, trig) && Permutes(perm, |v.modules|)
    ensures |trig| == |v.ports| && Compilable(Reordered(v.modules, perm), v.ports, trig)
    ensures Segmented(Reordered(v.modules, perm), |trig|)
  {
    hide Covered, SingleDriver;
    var modules := Reordered(v.modules, perm);
    forall i | 0 <= i < |modules|
      ensures modules[i].inFirst + modules[i].inCount <= |trig| && modules[i].outFirst + modules[i].outCount <= |trig|
      ensures IsFast(modules, i) ==> modules[i].inFirst < |v.ports| && modules[i].outCount > 0
    {
      assert ModuleOk(v, perm[i]);
    }
  }

  lemma ZeroIsClear(n: nat)
    ensures WadOk(Wad(Zeros(n), Zeros(n), Zeros(n), seq(n, _ => 0)))
    ensures Clear(Wad(Zeros(n), Zeros(n), Zeros(n), seq(n, _ => 0)))
  {
  }

  // Freezing changes no net and no kernel, so it leaves written nets apart, and every port its sole writer.
  lemma FreezeKeepsApart(v0: View, v: View)
    requires ViewOk(v0) && ViewOk(v) && Freezing(v0, v, 0)
    ensures OutputsApart(v) <==> OutputsApart(v0)
    ensures forall p: nat :: p < |v.ports| == |v0.ports| ==> (SoleWriter(v, p) <==> SoleWriter(v0, p))
  {
    forall p: nat
      ensures Written(v, p) <==> Written(v0, p)
    {
    }
    assert forall p, q :: 0 <= p < |v.ports| && 0 <= q < |v.ports| ==>
      (SameNet(v.net, p, q) <==> SameNet(v0.net, p, q));
  }

  // Every coroutine starts in the state of its module.
  ghost predicate StartsIn<S>(c: Chip<S>, m: Machine<S>, initial: nat -> S)
    requires Frozen(c.v, c.trig, c.perm, c.lanes)
  {
    forall k :: 0 <= k < |c.lanes| && c.lanes[k].CoroLane? ==>
      var cell := c.lanes[k].cell;
      cell < |m.cells| && m.cells[cell] == Coro(initial(OwnerOf(c.v, c.perm, k)), false)
  }

  // All triggers are zero and clear.
  predicate Zeroed(w: Wad) {
    w == Wad(Zeros(|w.curr|), Zeros(|w.curr|), Zeros(|w.curr|), seq(|w.curr|, _ => 0))
  }

  lemma CorosInRange(modules: seq<Module>, coros: seq<nat>)
    requires coros == CoroModules(modules, |modules|)
    ensures forall i :: 0 <= i < |coros| ==> coros[i] < |modules|
  {
    CoroModulesOnce(modules, |modules|);
    assert forall i :: 0 <= i < |coros| ==> coros[i] in coros;
  }

  // The cell of a coroutine's lane is the rank of its module among the coroutines.
  lemma CellOfLane(modules: seq<Module>, ports: seq<Port>, trig: seq<nat>, lanes: seq<Lane>, k: nat)
    requires LanesOf(modules, ports, trig, lanes) && k < |lanes| && lanes[k].CoroLane?
    ensures var coros := CoroModules(modules, |modules|);
            lanes[k].cell < |coros| && coros[lanes[k].cell] == Owners(modules)[k]
  {
    var i := Owners(modules)[k];
    OwnersOnce(modules);
    CoroModulesOnce(modules, |modules|);
    var coros := CoroModules(modules, |modules|);
    assert i in coros;
    var j :| 0 <= j < |coros| && coros[j] == i;
    CoroRanks(modules, |modules|, j);
  }

  lemma CellsStart<S>(c: Chip<S>, m: Machine<S>, coros: seq<nat>, initial: nat -> S)
    requires Frozen(c.v, c.trig, c.perm, c.lanes)
    requires var modules := Reordered(c.v.modules, c.perm);
             coros == CoroModules(modules, |modules|) && |m.cells| == |coros|
    requires forall i :: 0 <= i < |coros| ==> coros[i] < |c.perm|
    requires forall i :: 0 <= i < |coros| ==> m.cells[i] == Coro(initial(c.perm[coros[i]]), false)
    ensures StartsIn(c, m, initial)
  {
    hide Sound, Reordered;
    var modules := Reordered(c.v.modules, c.perm);
    forall k | 0 <= k < |c.lanes| && c.lanes[k].CoroLane?
      ensures c.lanes[k].cell < |m.cells| && m.cells[c.lanes[k].cell] == Coro(initial(OwnerOf(c.v, c.perm, k)), false)
    {
      CellOfLane(modules, c.v.ports, c.trig, c.lanes, k);
    }
  }

  // Freeze any sound layout and start an engine on it, every coroutine in a state of its own. It cannot fail.
  method Assemble<S>(layout: Layout, f: (S, seq<bv64>) -> Resumed<S>, initial: nat -> S)
    returns (engine: SimEngine<S>, trig: seq<nat>, ghost c: Chip<S>)
    requires layout.Valid() && Good(layout.State())
    modifies layout, layout.netlist, layout.netlist.equiv`parent
    ensures fresh(engine) && fresh(engine.past) && fresh(engine.curr) && fresh(engine.futr) && fresh(engine.flags)
    ensures ChipOk(c) && trig == c.trig && Runs(engine, c) && c.resume == f
    ensures Zeroed(engine.State().w) && StartsIn(c, engine.State(), initial)
    ensures ViewOk(old(layout.State())) && (OutputsApart(c.v) <==> OutputsApart(old(layout.State())))
    ensures |c.v.ports| == |old(layout.State()).ports|
    ensures forall p: nat :: p < |c.v.ports| ==> (SoleWriter(c.v, p) <==> SoleWriter(old(layout.State()), p))
    ensures Good(c.v) && Keeps(old(layout.State()), c.v) && c.v.net.driver == old(layout.State()).net.driver
  {
    hide Good, Sound, OutputsApart, SoleWriter, Keeps, LanesOf, KernelLane, Freezing, Assignable, Permutes, Compilable;
    hide CoroModules, OneTriggerPerNet, StartsIn;
    ghost var v0 := layout.State();
    GoodFreezes(v0);
    var ok := layout.Freeze();
    assert ok;
    FreezeKeepsGood(v0, layout.State());
    ghost var v := layout.State();
    trig := layout.portToTrigger;
    SameNets(v0, v, trig);
    FreezeKeepsApart(v0, v);
    var perm := ModuleOrder(|layout.modules|);
    var modules := Reordered(layout.modules, perm);
    ReorderedFits(v, trig, perm);
    var coros := CoroModules(modules, |modules|);
    CorosInRange(modules, coros);
    var cells := [];
    for i := 0 to |coros|
      invariant |cells| == i && forall j :: 0 <= j < i ==> cells[j] == Coro(initial(perm[coros[j]]), false)
    {
      cells := cells + [Coro(initial(perm[coros[i]]), false)];
    }
    engine := Create(modules, layout.ports, trig, layout.netlist.nextTriggerId, f, cells);
    c := Chip(f, v, trig, perm, engine.Lanes());
    ZeroIsClear(layout.netlist.nextTriggerId);
    CellsStart(c, engine.State(), coros, initial);
  }

  lemma SameNets(v0: View, v: View, trig: seq<nat>)
    requires ViewOk(v0) && Freezing(v0, v, 0) && OneTriggerPerNet(v0.net, trig)
    ensures ViewOk(v) && OneTriggerPerNet(v.net, trig)
  {
  }

  lemma EmptyIsGood()
    ensures Good(EMPTY_VIEW) && KernelsUndriven(EMPTY_VIEW)
  {
    EmptyIsSound();
  }

  // An adder of any width, built, frozen, compiled and driven: it computes the sum.
  method AddFromScratch<S>(width: nat, f: (S, seq<bv64>) -> Resumed<S>, initial: nat -> S, a: nat, b: nat,
                            cIn: bool)
    returns (sum: nat, carry: bool)
    requires width >= 1
    ensures sum + Weight(carry, Pow2(width)) == a % Pow2(width) + b % Pow2(width) + Weight(cIn, 1)
  {
    hide Good, Keeps, Grew, KernelsUndriven, SingleDriver, OutputsApart, ChipOk, Runs, AdderOk, FreeInputs, Weight;
    hide Pow2, Built, AdderPorts, AdderNumbers, UndrivenFrom;
    var layout := new Layout();
    EmptyIsGood();
    var ad := RippleAdder(layout, None, width);
    ghost var v0 := layout.State();
    BuiltIsGood(EMPTY_VIEW, v0, None, ad.id);
    UndrivenAreApart(v0);
    var engine, trig, c := Assemble(layout, f, initial);
    KeepsAdder(v0, c.v, ad);
    KeepsAdderPorts(v0, c.v, ad);
    SameDrivers(v0.net, c.v.net, 0, 2 * width + 1);
    GoodIsOk(c.v);
    BuiltAdderIsFree(c.v, ad, 0);
    AllApart(c.v, ad);
    sum, carry := AddOn(engine, c, trig, ad, a, b, cIn);
  }

  // Where no two modules write the same net, nothing else writes what the gates of an adder write.
  lemma AllApart(v: View, ad: Adder)
    requires ViewOk(v) && OutputsApart(v) && AdderOk(v, ad)
    ensures AdderApart(v, ad)
  {
    hide ViewOk, OutputsApart, FullOk, FullApart, Joint;
    forall i | 0 <= i < |ad.bits|
      ensures FullApart(v, ad.bits[i])
    {
      assert BitOk(v, ad.bits[i], ad.a[i], ad.b[i], CarryInto(ad, i), ad.sum[i]);
      AllApartIn(v, ad.bits[i]);
    }
  }

  lemma AllApartIn(v: View, f: Full)
    requires ViewOk(v) && OutputsApart(v) && FullOk(v, f)
    ensures FullApart(v, f)
  {
    hide ViewOk, OutputsApart, SoleWriter, FullJoints, Joint, HalfPorts, FullPorts;
    PortApart(v, f.ha1.xorGate, Xor);
    PortApart(v, f.ha1.andGate, And);
    PortApart(v, f.ha2.xorGate, Xor);
    PortApart(v, f.ha2.andGate, And);
    PortApart(v, f.orGate, Or);
  }

  lemma PortApart(v: View, g: Gate, op: KernelOp)
    requires ViewOk(v) && OutputsApart(v) && GateOk(v.modules, v.ports, g, op)
    ensures GateApart(v, g)
  {
  }

  lemma BuiltIsGood(v0: View, v: View, parent: Option<nat>, id: nat)
    requires Built(v0, v, parent, id) && KernelsUndriven(v0)
    ensures Good(v) && ViewOk(v) && SingleDriver(v) && KernelsUndriven(v)
  {
  }
}
