// From a frozen layout to the lanes of an engine: every kernel gets one lane, and when the lanes are independent.

module RubeCompile {
  import opened Prelude
  import opened RubeNetlist
  import opened RubeLayout
  import opened RubeHistory
  import opened RubeLanes
  import opened RubeEngine
  import opened RubeSim
  import opened RubeBuild

  // The order in which freezing leaves the modules: each of them once.
  predicate Permutes(perm: seq<nat>, n: nat) {
    && |perm| == n && (forall k :: 0 <= k < n ==> perm[k] < n) && (forall i: nat :: i < n ==> i in perm)
    && (forall j, k :: 0 <= j < k < n ==> perm[j] != perm[k])
  }

  function Reordered(modules: seq<Module>, perm: seq<nat>): seq<Module>
    requires Permutes(perm, |modules|)
  {
    seq(|perm|, k requires 0 <= k < |perm| => modules[perm[k]])
  }

  predicate IsCoro(modules: seq<Module>, i: nat) {
    i < |modules| && modules[i].kernel.Coroutine?
  }

  function CoroModules(modules: seq<Module>, n: nat): seq<nat> {
    if n == 0 then [] else CoroModules(modules, n - 1) + (if IsCoro(modules, n - 1) then [n - 1] else [])
  }

  predicate Segmented(modules: seq<Module>, count: nat) {
    forall i :: 0 <= i < |modules| ==>
      modules[i].inFirst + modules[i].inCount <= count && modules[i].outFirst + modules[i].outCount <= count
  }

  // The lane of one coroutine module; its cell is its rank among the coroutines.
  function CoroLaneOf(modules: seq<Module>, trig: seq<nat>, i: nat): Lane
    requires Segmented(modules, |trig|) && IsCoro(modules, i)
  {
    var m := modules[i];
    CoroLane(|CoroModules(modules, i)|, trig[m.inFirst..m.inFirst + m.inCount],
      trig[m.outFirst..m.outFirst + m.outCount])
  }

  function CoroLanes(modules: seq<Module>, trig: seq<nat>, n: nat): seq<Lane>
    requires Segmented(modules, |trig|) && n <= |modules|
  {
    if n == 0 then []
    else CoroLanes(modules, trig, n - 1) + (if IsCoro(modules, n - 1) then [CoroLaneOf(modules, trig, n - 1)] else [])
  }

  lemma {:induction false} CoroModulesOnce(modules: seq<Module>, n: nat)
    ensures forall i: nat :: i in CoroModules(modules, n) <==> i < n && IsCoro(modules, i)
    ensures forall a, b :: 0 <= a < b < |CoroModules(modules, n)| ==>
      CoroModules(modules, n)[a] < CoroModules(modules, n)[b]
  {
    if n > 0 {
      CoroModulesOnce(modules, n - 1);
      var front := CoroModules(modules, n - 1);
      assert forall a :: 0 <= a < |front| ==> front[a] in front;
    }
  }

  lemma {:induction false} CoroRanks(modules: seq<Module>, n: nat, k: nat)
    requires k < |CoroModules(modules, n)|
    ensures CoroModules(modules, n)[k] < n && IsCoro(modules, CoroModules(modules, n)[k])
    ensures |CoroModules(modules, CoroModules(modules, n)[k])| == k
  {
    if k < |CoroModules(modules, n - 1)| {
      CoroRanks(modules, n - 1, k);
    }
  }

  lemma {:induction false} CoroLanesAreModules(modules: seq<Module>, trig: seq<nat>, n: nat)
    requires Segmented(modules, |trig|) && n <= |modules|
    ensures |CoroLanes(modules, trig, n)| == |CoroModules(modules, n)|
    ensures forall k :: 0 <= k < |CoroModules(modules, n)| ==>
      IsCoro(modules, CoroModules(modules, n)[k])
        && CoroLanes(modules, trig, n)[k] == CoroLaneOf(modules, trig, CoroModules(modules, n)[k])
  {
    if n > 0 {
      CoroLanesAreModules(modules, trig, n - 1);
    }
  }

  // Cut the module list into runs of coroutines of one class, one lane each, in order.
  method CompileCoroWarps(modules: seq<Module>, trig: seq<nat>) returns (warps: seq<seq<Lane>>)
    requires Segmented(modules, |trig|)
    ensures Flatten(warps) == CoroLanes(modules, trig, |modules|)
  {
    warps := [];
    var i, cells := 0, 0;
    while i < |modules|
      invariant i <= |modules| && Flatten(warps) == CoroLanes(modules, trig, i) && cells == |CoroModules(modules, i)|
    {
      if !modules[i].kernel.Coroutine? {
        i := i + 1;
        continue;
      }
      var start, warp := i, [];
      while i < |modules| && modules[i].kernel == modules[start].kernel
        invariant start <= i <= |modules| && (i == start ==> warp == []) && modules[start].kernel.Coroutine?
        invariant Flatten(warps) + warp == CoroLanes(modules, trig, i) && cells == |CoroModules(modules, i)|
        decreases |modules| - i
      {
        var m := modules[i];
        var lane := CoroLane(cells, trig[m.inFirst..m.inFirst + m.inCount], trig[m.outFirst..m.outFirst + m.outCount]);
        assert IsCoro(modules, i) && lane == CoroLaneOf(modules, trig, i);
        warp := warp + [lane];
        cells := cells + 1;
        i := i + 1;
      }
      assert (warps + [warp])[..|warps|] == warps;
      warps := warps + [warp];
    }
  }

  // Which module each lane evaluates: the fast modules in order, then the coroutines in order.
  function Owners(modules: seq<Module>): seq<nat> {
    FastModules(modules, |modules|) + CoroModules(modules, |modules|)
  }

  function KernelLane(modules: seq<Module>, ports: seq<Port>, trig: seq<nat>, i: nat): Lane
    requires Compilable(modules, ports, trig) && Segmented(modules, |trig|)
    requires (IsFast(modules, i) || IsCoro(modules, i))
  {
    if IsFast(modules, i) then LaneOf(modules, ports, trig, i) else CoroLaneOf(modules, trig, i)
  }

  lemma OwnersOnce(modules: seq<Module>)
    ensures forall i: nat :: i in Owners(modules) <==> IsFast(modules, i) || IsCoro(modules, i)
    ensures forall j, k :: 0 <= j < k < |Owners(modules)| ==> Owners(modules)[j] != Owners(modules)[k]
  {
    FastModulesOnce(modules, |modules|);
    CoroModulesOnce(modules, |modules|);
    var fast, coro := FastModules(modules, |modules|), CoroModules(modules, |modules|);
    assert forall k :: 0 <= k < |fast| ==> fast[k] in fast && IsFast(modules, fast[k]);
    assert forall k :: 0 <= k < |coro| ==> coro[k] in coro && IsCoro(modules, coro[k]);
  }

  // Lane k is the lane of module Owners(modules)[k].
  predicate LanesOf(modules: seq<Module>, ports: seq<Port>, trig: seq<nat>, lanes: seq<Lane>) {
    && Compilable(modules, ports, trig) && Segmented(modules, |trig|) && |lanes| == |Owners(modules)|
    && forall k :: 0 <= k < |lanes| ==>
         && (IsFast(modules, Owners(modules)[k]) || IsCoro(modules, Owners(modules)[k]))
         && lanes[k] == KernelLane(modules, ports, trig, Owners(modules)[k])
  }

  lemma CompiledLanes(modules: seq<Module>, ports: seq<Port>, trig: seq<nat>, fast: seq<FastWarp>,
                      coros: seq<seq<Lane>>)
    requires Compilable(modules, ports, trig) && Segmented(modules, |trig|)
    requires Evaluated(fast) == FastModules(modules, |modules|)
    requires forall k :: 0 <= k < |fast| ==> WarpOk(modules, ports, trig, fast[k]) && Filled(fast[k])
    requires Flatten(coros) == CoroLanes(modules, trig, |modules|)
    ensures LanesOf(modules, ports, trig, AllWarpLanes(fast) + Flatten(coros))
  {
    hide Flatten, CoroLanes, CoroModules, FastModules, WarpOk, AllWarpLanes, Evaluated, KernelLane, IsFast, IsCoro;
    CoroLanesAreModules(modules, trig, |modules|);
    SameCount(modules, ports, trig, fast);
    var f, lanes := AllWarpLanes(fast), AllWarpLanes(fast) + Flatten(coros);
    forall k | 0 <= k < |lanes|
      ensures IsFast(modules, Owners(modules)[k]) || IsCoro(modules, Owners(modules)[k])
      ensures lanes[k] == KernelLane(modules, ports, trig, Owners(modules)[k])
    {
      if k < |f| {
        LanesAreModules(modules, ports, trig, fast, k);
        FastIsKernelLane(modules, ports, trig, Owners(modules)[k]);
      } else {
        assert Owners(modules)[k] == CoroModules(modules, |modules|)[k - |f|];
        CoroIsKernelLane(modules, ports, trig, Owners(modules)[k]);
      }
    }
  }

  lemma FastIsKernelLane(modules: seq<Module>, ports: seq<Port>, trig: seq<nat>, i: nat)
    requires Compilable(modules, ports, trig) && Segmented(modules, |trig|) && IsFast(modules, i)
    ensures KernelLane(modules, ports, trig, i) == LaneOf(modules, ports, trig, i)
  {
  }

  lemma CoroIsKernelLane(modules: seq<Module>, ports: seq<Port>, trig: seq<nat>, i: nat)
    requires Compilable(modules, ports, trig) && Segmented(modules, |trig|) && IsCoro(modules, i)
    ensures KernelLane(modules, ports, trig, i) == CoroLaneOf(modules, trig, i)
  {
  }

  lemma SameCount(modules: seq<Module>, ports: seq<Port>, trig: seq<nat>, fast: seq<FastWarp>)
    requires Compilable(modules, ports, trig)
    requires forall k :: 0 <= k < |fast| ==> WarpOk(modules, ports, trig, fast[k]) && Filled(fast[k])
    ensures |AllWarpLanes(fast)| == |Evaluated(fast)|
  {
    if fast != [] {
      assert WarpOk(modules, ports, trig, fast[|fast| - 1]);
      assert Evaluated(fast) != [];
      LanesAreModules(modules, ports, trig, fast, 0);
    }
  }

  // A layout after freezing: one trigger per net, its modules in some new order, compiled to these lanes.
  predicate Frozen(v: View, trig: seq<nat>, perm: seq<nat>, lanes: seq<Lane>) {
    && Good(v) && OneTriggerPerNet(v.net, trig) && Permutes(perm, |v.modules|)
    && LanesOf(Reordered(v.modules, perm), v.ports, trig, lanes)
  }

  lemma FrozenShows(v: View, trig: seq<nat>, perm: seq<nat>, lanes: seq<Lane>)
    requires Frozen(v, trig, perm, lanes)
    ensures ViewOk(v) && SingleDriver(v) && OneTriggerPerNet(v.net, trig) && |trig| == |v.ports| == |v.net.driver|
    ensures Permutes(perm, |v.modules|) && LanesOf(Reordered(v.modules, perm), v.ports, trig, lanes)
  {
    hide SingleDriver, LanesOf, Permutes;
  }

  // Two ports that nothing drives have different triggers.
  lemma RootsDiffer(v: View, trig: seq<nat>, p: nat, q: nat)
    requires ViewOk(v) && SingleDriver(v) && OneTriggerPerNet(v.net, trig) && |trig| == |v.ports| && p < |trig|
    requires q < |trig|
    requires v.net.driver[p] == None && v.net.driver[q] == None && p != q
    ensures trig[p] != trig[q]
  {
    hide Edge, NetOk, PortOk, ModuleOk;
    assert Undriven(v, p) && Undriven(v, q);
  }

  // A kernel writes the first output of a fast module, and all outputs of a coroutine.
  predicate KernelWrites(m: Module, p: nat) {
    OutSegment(m, p) && (m.kernel.Coroutine? || (m.kernel.Fast? && p == m.outFirst))
  }

  predicate Written(v: View, p: nat) {
    p < |v.ports| && v.ports[p].owner < |v.modules| && KernelWrites(v.modules[v.ports[p].owner], p)
  }

  predicate BothWrite(v: View, p: nat, q: nat)
    requires ViewOk(v) && p < |v.ports| && q < |v.ports|
  {
    Written(v, p) && Written(v, q) && SameNet(v.net, p, q)
  }

  // No two modules write the same net.
  predicate OutputsApart(v: View)
    requires ViewOk(v)
  {
    forall p, q :: 0 <= p < |v.ports| && 0 <= q < |v.ports| && BothWrite(v, p, q) ==>
      v.ports[p].owner == v.ports[q].owner
  }

  // No other module writes the net of port p.
  predicate SoleWriter(v: View, p: nat)
    requires ViewOk(v) && p < |v.ports|
  {
    forall q :: 0 <= q < |v.ports| && BothWrite(v, p, q) ==> v.ports[p].owner == v.ports[q].owner
  }

  // That is so if no output of a module with a kernel has a driver.
  lemma UndrivenAreApart(v: View)
    requires ViewOk(v) && SingleDriver(v) && KernelsUndriven(v)
    ensures OutputsApart(v)
  {
    forall p, q | 0 <= p < |v.ports| && 0 <= q < |v.ports| && Written(v, p) && Written(v, q) && SameNet(v.net, p, q)
      ensures v.ports[p].owner == v.ports[q].owner
    {
      assert PortOk(v, p) && PortOk(v, q);
      assert Undriven(v, p) && Undriven(v, q);
    }
  }

  // And that in turn if no module with a kernel has children.
  lemma LeavesAreUndriven(v: View)
    requires ViewOk(v) && SingleDriver(v) && forall m, c: nat :: HasKernel(v.modules, m) ==> !ChildOf(v, c, m)
    ensures KernelsUndriven(v)
  {
    forall p: nat | p < |v.ports| && v.ports[p].isOut && HasKernel(v.modules, v.ports[p].owner)
      ensures v.net.driver[p] == None
    {
      KernelOutputsAreSeparate(v, p, p);
    }
  }

  // The module that lane k evaluates.
  function OwnerOf(v: View, perm: seq<nat>, k: nat): nat
    requires Permutes(perm, |v.modules|) && k < |Owners(Reordered(v.modules, perm))|
  {
    var i := Owners(Reordered(v.modules, perm))[k];
    if i < |perm| then perm[i] else 0
  }

  // The lane writes the triggers of the ports its kernel writes, and no others.
  ghost predicate WritesPorts(m: Module, trig: seq<nat>, l: Lane) {
    forall t :: t in OutsOf(l) <==> exists p :: 0 <= p < |trig| && KernelWrites(m, p) && trig[p] == t
  }

  lemma KernelOuts(modules: seq<Module>, ports: seq<Port>, trig: seq<nat>, i: nat)
    requires Compilable(modules, ports, trig) && Segmented(modules, |trig|)
    requires (IsFast(modules, i) && modules[i].outCount > 0) || IsCoro(modules, i)
    ensures WritesPorts(modules[i], trig, KernelLane(modules, ports, trig, i))
  {
    var m := modules[i];
    if IsFast(modules, i) {
      assert KernelWrites(m, m.outFirst);
    } else {
      var outs := trig[m.outFirst..m.outFirst + m.outCount];
      forall t | t in outs
        ensures exists p :: 0 <= p < |trig| && KernelWrites(m, p) && trig[p] == t
      {
        var j :| 0 <= j < |outs| && outs[j] == t;
        assert KernelWrites(m, m.outFirst + j) && trig[m.outFirst + j] == t;
      }
      forall p | 0 <= p < |trig| && KernelWrites(m, p)
        ensures trig[p] in outs
      {
        assert outs[p - m.outFirst] == trig[p];
      }
    }
  }

  lemma LaneOwner(v: View, trig: seq<nat>, perm: seq<nat>, lanes: seq<Lane>, k: nat)
    requires Frozen(v, trig, perm, lanes) && k < |lanes|
    ensures k < |Owners(Reordered(v.modules, perm))| && OwnerOf(v, perm, k) < |v.modules|
    ensures HasKernel(v.modules, OwnerOf(v, perm, k)) && WritesPorts(v.modules[OwnerOf(v, perm, k)], trig, lanes[k])
  {
    hide Sound, OneTriggerPerNet, WritesPorts;
    FrozenShows(v, trig, perm, lanes);
    KernelOuts(Reordered(v.modules, perm), v.ports, trig, Owners(Reordered(v.modules, perm))[k]);
  }

  // Every module with a kernel has a lane.
  lemma LaneFor(v: View, trig: seq<nat>, perm: seq<nat>, lanes: seq<Lane>, m: nat) returns (k: nat)
    requires Frozen(v, trig, perm, lanes) && HasKernel(v.modules, m)
    ensures k < |lanes| == |Owners(Reordered(v.modules, perm))| && OwnerOf(v, perm, k) == m
    ensures var modules, i := Reordered(v.modules, perm), Owners(Reordered(v.modules, perm))[k];
            && i < |modules| && modules[i] == v.modules[m] && LanesOf(modules, v.ports, trig, lanes)
            && (IsFast(modules, i) || IsCoro(modules, i)) && lanes[k] == KernelLane(modules, v.ports, trig, i)
  {
    hide Sound, OneTriggerPerNet, Owners;
    FrozenShows(v, trig, perm, lanes);
    var modules := Reordered(v.modules, perm);
    assert m in perm;
    var i :| 0 <= i < |perm| && perm[i] == m;
    assert IsFast(modules, i) || IsCoro(modules, i);
    OwnersOnce(modules);
    k :| 0 <= k < |Owners(modules)| && Owners(modules)[k] == i;
  }

  // A trigger that lane k writes belongs to a port that the kernel of its module writes.
  lemma WrittenPort(v: View, trig: seq<nat>, perm: seq<nat>, lanes: seq<Lane>, k: nat, t: nat) returns (p: nat)
    requires Frozen(v, trig, perm, lanes) && k < |lanes| && t in OutsOf(lanes[k])
    ensures p < |v.ports| == |trig| && trig[p] == t && v.ports[p].isOut && Written(v, p)
    ensures k < |Owners(Reordered(v.modules, perm))| && v.ports[p].owner == OwnerOf(v, perm, k)
  {
    hide Covered, SingleDriver, OneTriggerPerNet, LanesOf, OwnerOf;
    FrozenShows(v, trig, perm, lanes);
    LaneOwner(v, trig, perm, lanes, k);
    var m := OwnerOf(v, perm, k);
    p :| 0 <= p < |trig| && KernelWrites(v.modules[m], p) && trig[p] == t;
    assert PortOk(v, p);
  }

  // What drives an output is an output, up to the root of its tree.
  lemma {:induction false} OutputsHangBelowOutputs(v: View, p: nat)
    requires ViewOk(v) && SingleDriver(v) && p < |v.ports| && v.ports[p].isOut
    ensures v.ports[DriverRoot(v, p)].isOut
    decreases Height(v, p)
  {
    if v.net.driver[p].Some? {
      var d := v.net.driver[p].value.index;
      assert Edge(v, d, p);
      EdgeDescends(v, d, p);
      OutputsHangBelowOutputs(v, d);
    }
  }

  // A port that nothing drives, other than an output, keeps its trigger to itself: no lane writes it.
  lemma FreeInputIsUnwritten(v: View, trig: seq<nat>, perm: seq<nat>, lanes: seq<Lane>, q: nat, k: nat)
    requires Frozen(v, trig, perm, lanes) && k < |lanes| && q < |v.ports| == |v.net.driver| && |trig| == |v.ports|
    requires v.net.driver[q] == None && !v.ports[q].isOut
    ensures trig[q] !in OutsOf(lanes[k])
  {
    hide LanesOf, OwnerOf, Covered, Owners;
    FrozenShows(v, trig, perm, lanes);
    assert DriverRoot(v, q) == q;
    if trig[q] in OutsOf(lanes[k]) {
      var p := WrittenPort(v, trig, perm, lanes, k, trig[q]);
      assert SameNet(v.net, p, q);
      NetsAreDriverTrees(v, p, q);
      OutputsHangBelowOutputs(v, p);
    }
  }

  // Different lanes evaluate different modules.
  lemma LanesDiffer(v: View, perm: seq<nat>, j: nat, k: nat)
    requires Permutes(perm, |v.modules|) && j < k < |Owners(Reordered(v.modules, perm))|
    ensures OwnerOf(v, perm, j) != OwnerOf(v, perm, k)
  {
    hide Owners;
    var modules := Reordered(v.modules, perm);
    OwnersOnce(modules);
    assert Owners(modules)[j] in Owners(modules) && Owners(modules)[k] in Owners(modules);
  }

  lemma CellsDiffer(modules: seq<Module>, trig: seq<nat>, j: nat, k: nat)
    requires Segmented(modules, |trig|) && j < k < |Owners(modules)|
    requires IsCoro(modules, Owners(modules)[j]) && IsCoro(modules, Owners(modules)[k])
    ensures CoroLaneOf(modules, trig, Owners(modules)[j]).cell != CoroLaneOf(modules, trig, Owners(modules)[k]).cell
  {
    hide CoroModules, FastModules;
    var fast, n := FastModules(modules, |modules|), |modules|;
    FastModulesOnce(modules, n);
    assert j < |fast| ==> fast[j] in fast && IsFast(modules, fast[j]);
    CoroRanks(modules, n, j - |fast|);
    CoroRanks(modules, n, k - |fast|);
  }

  // The lanes of a frozen layout write different triggers and have private cells, so that they may run in any order, if
  // and only if no two modules write the same net.
  lemma CompiledLanesAreIndependent(v: View, trig: seq<nat>, perm: seq<nat>, lanes: seq<Lane>)
    requires Frozen(v, trig, perm, lanes) && ViewOk(v)
    ensures AllIndependent(lanes) <==> OutputsApart(v)
  {
    hide Frozen, Independent, OutputsApart, Permutes, Reordered, Owners, OwnerOf;
    if OutputsApart(v) {
      forall j, k | 0 <= j < k < |lanes|
        ensures Independent(lanes[j], lanes[k]) && Independent(lanes[k], lanes[j])
      {
        TwoLanes(v, trig, perm, lanes, j, k);
      }
    }
    if AllIndependent(lanes) {
      LanesApart(v, trig, perm, lanes);
    }
  }

  lemma TwoLanes(v: View, trig: seq<nat>, perm: seq<nat>, lanes: seq<Lane>, j: nat, k: nat)
    requires Frozen(v, trig, perm, lanes) && ViewOk(v) && OutputsApart(v) && j < k < |lanes|
    ensures Independent(lanes[j], lanes[k]) && Independent(lanes[k], lanes[j])
  {
    hide Sound, OwnerOf, Reordered, Owners, OutsOf, CoroModules, Written;
    FrozenShows(v, trig, perm, lanes);
    forall t | t in OutsOf(lanes[j]) && t in OutsOf(lanes[k])
      ensures false
    {
      var p := WrittenPort(v, trig, perm, lanes, j, t);
      var q := WrittenPort(v, trig, perm, lanes, k, t);
      assert BothWrite(v, p, q);
      LanesDiffer(v, perm, j, k);
    }
    if lanes[j].CoroLane? && lanes[k].CoroLane? {
      CellsDiffer(Reordered(v.modules, perm), trig, j, k);
    }
  }

  lemma LanesApart(v: View, trig: seq<nat>, perm: seq<nat>, lanes: seq<Lane>)
    requires Frozen(v, trig, perm, lanes) && ViewOk(v) && AllIndependent(lanes)
    ensures OutputsApart(v)
  {
    hide Frozen, AllIndependent, OutsOf, Permutes, Reordered, Owners, OwnerOf, KernelWrites, KernelLane;
    FrozenShows(v, trig, perm, lanes);
    forall p, q | 0 <= p < |v.ports| && 0 <= q < |v.ports| && Written(v, p) && Written(v, q) && SameNet(v.net, p, q)
      ensures v.ports[p].owner == v.ports[q].owner
    {
      var j := WritingLane(v, trig, perm, lanes, p);
      var k := WritingLane(v, trig, perm, lanes, q);
      OnlyWriter(lanes, j, k, trig[p]);
    }
  }

  lemma OnlyWriter(lanes: seq<Lane>, j: nat, k: nat, t: nat)
    requires AllIndependent(lanes) && j < |lanes| && k < |lanes| && t in OutsOf(lanes[j]) && t in OutsOf(lanes[k])
    ensures j == k
  {
    hide OutsOf;
  }

  lemma WritingLane(v: View, trig: seq<nat>, perm: seq<nat>, lanes: seq<Lane>, p: nat) returns (k: nat)
    requires Frozen(v, trig, perm, lanes) && Written(v, p) && |trig| == |v.ports| && Permutes(perm, |v.modules|)
    ensures k < |lanes| == |Owners(Reordered(v.modules, perm))| && OwnerOf(v, perm, k) == v.ports[p].owner
    ensures trig[p] in OutsOf(lanes[k])
  {
    hide Frozen, OutsOf, Reordered, Owners, OwnerOf, KernelLane;
    k := LaneFor(v, trig, perm, lanes, v.ports[p].owner);
    LaneOwner(v, trig, perm, lanes, k);
  }

  // A gate has exactly one lane, with the mask of a one-bit port and the triggers of its three ports. No other lane
  // writes its output if and only if no other module writes that net.
  lemma GateLane(v: View, trig: seq<nat>, perm: seq<nat>, lanes: seq<Lane>, g: Gate, op: KernelOp) returns (k: nat)
    requires Frozen(v, trig, perm, lanes) && GateOk(v.modules, v.ports, g, op) && |trig| == |v.ports| && ViewOk(v)
    ensures k < |lanes| && lanes[k] == FastLane(op, 1, trig[g.in1.index], trig[g.in2.index], trig[g.out.index])
    ensures (forall j :: 0 <= j < |lanes| && j != k ==> trig[g.out.index] !in OutsOf(lanes[j]))
      <==> SoleWriter(v, g.out.index)
  {
    hide Frozen, OwnerOf, Owners, OutsOf, Written;
    FrozenShows(v, trig, perm, lanes);
    k := LaneFor(v, trig, perm, lanes, g.id);
    GateWrites(v, g, op);
    if SoleWriter(v, g.out.index) {
      forall j | 0 <= j < |lanes| && j != k
        ensures trig[g.out.index] !in OutsOf(lanes[j])
      {
        if trig[g.out.index] in OutsOf(lanes[j]) {
          WriterIsOwner(v, trig, perm, lanes, g.out.index, j);
          OwnersDiffer(v, perm, j, k);
        }
      }
    } else {
      var q :| 0 <= q < |v.ports| && BothWrite(v, g.out.index, q) && v.ports[g.out.index].owner != v.ports[q].owner;
      var j := WritingLane(v, trig, perm, lanes, q);
    }
  }

  // The lane of any fast module: its operation, the mask of its first output, the triggers of its first two inputs,
  // or of the first one twice, and that of its first output.
  lemma FastModuleLane(v: View, trig: seq<nat>, perm: seq<nat>, lanes: seq<Lane>, m: nat) returns (k: nat)
    requires Frozen(v, trig, perm, lanes) && m < |v.modules| && v.modules[m].kernel.Fast? && |trig| == |v.ports|
    ensures var mod := v.modules[m];
            && k < |lanes| && mod.outFirst < |trig| && mod.inFirst < |trig|
            && (mod.inCount > 1 ==> mod.inFirst + 1 < |trig|)
            && lanes[k] == FastLane(mod.kernel.op, v.ports[mod.outFirst].typ.mask, trig[mod.inFirst],
                                    trig[if mod.inCount > 1 then mod.inFirst + 1 else mod.inFirst], trig[mod.outFirst])
  {
    hide Frozen, OwnerOf, Owners;
    k := LaneFor(v, trig, perm, lanes, m);
  }

  // The lane of any coroutine module: a cell of its own, and the triggers of all its ports in order.
  lemma CoroModuleLane(v: View, trig: seq<nat>, perm: seq<nat>, lanes: seq<Lane>, m: nat) returns (k: nat)
    requires Frozen(v, trig, perm, lanes) && m < |v.modules| && v.modules[m].kernel.Coroutine? && |trig| == |v.ports|
    ensures var mod := v.modules[m];
            && k < |lanes| && lanes[k].CoroLane? && |lanes[k].ins| == mod.inCount && |lanes[k].outs| == mod.outCount
            && mod.inFirst + mod.inCount <= |trig| && mod.outFirst + mod.outCount <= |trig|
            && (forall i :: 0 <= i < mod.inCount ==> lanes[k].ins[i] == trig[mod.inFirst + i])
            && (forall i :: 0 <= i < mod.outCount ==> lanes[k].outs[i] == trig[mod.outFirst + i])
            && forall j :: 0 <= j < |lanes| && j != k && lanes[j].CoroLane? ==> lanes[j].cell != lanes[k].cell
  {
    hide Frozen, OwnerOf, Owners, CoroModules, SingleDriver, OneTriggerPerNet;
    FrozenShows(v, trig, perm, lanes);
    k := LaneFor(v, trig, perm, lanes, m);
    forall j | 0 <= j < |lanes| && j != k && lanes[j].CoroLane?
      ensures lanes[j].cell != lanes[k].cell
    {
      CellsDiffer(Reordered(v.modules, perm), trig, if j < k then j else k, if j < k then k else j);
    }
  }

  lemma GateWrites(v: View, g: Gate, op: KernelOp)
    requires ViewOk(v) && GateOk(v.modules, v.ports, g, op)
    ensures g.out.index < |v.ports| && v.ports[g.out.index].owner == g.id && Written(v, g.out.index)
  {
  }

  // A lane that writes the trigger of a port with a sole writer is the lane of that port's module.
  lemma WriterIsOwner(v: View, trig: seq<nat>, perm: seq<nat>, lanes: seq<Lane>, p: nat, j: nat)
    requires Frozen(v, trig, perm, lanes) && ViewOk(v) && p < |v.ports| == |trig| && j < |lanes|
    requires Written(v, p) && SoleWriter(v, p) && trig[p] in OutsOf(lanes[j])
    ensures Permutes(perm, |v.modules|) && j < |Owners(Reordered(v.modules, perm))|
    ensures OwnerOf(v, perm, j) == v.ports[p].owner
  {
    hide OwnerOf, Owners, OutsOf, Written, LanesOf;
    FrozenShows(v, trig, perm, lanes);
    var q := WrittenPort(v, trig, perm, lanes, j, trig[p]);
    assert BothWrite(v, p, q);
  }

  lemma OwnersDiffer(v: View, perm: seq<nat>, j: nat, k: nat)
    requires Permutes(perm, |v.modules|) && j != k && j < |Owners(Reordered(v.modules, perm))|
    requires k < |Owners(Reordered(v.modules, perm))|
    ensures OwnerOf(v, perm, j) != OwnerOf(v, perm, k)
  {
    if j < k {
      LanesDiffer(v, perm, j, k);
    } else {
      LanesDiffer(v, perm, k, j);
    }
  }

  lemma {:induction false} FlattenHas(warps: seq<seq<Lane>>, k: nat, l: nat)
    requires k < |warps| && l < |warps[k]|
    ensures warps[k][l] in Flatten(warps)
  {
    if k < |warps| - 1 {
      FlattenHas(warps[..|warps| - 1], k, l);
    }
  }

  lemma CoroLanesFit(modules: seq<Module>, trig: seq<nat>, l: Lane, count: nat)
    requires Segmented(modules, |trig|) && (forall p :: 0 <= p < |trig| ==> trig[p] < count)
    requires l in CoroLanes(modules, trig, |modules|)
    ensures CoroInRange(l, count, |CoroModules(modules, |modules|)|)
  {
    var n := |modules|;
    CoroLanesAreModules(modules, trig, n);
    var k :| 0 <= k < |CoroLanes(modules, trig, n)| && CoroLanes(modules, trig, n)[k] == l;
    CoroRanks(modules, n, k);
  }

  lemma FastLanesFit(modules: seq<Module>, ports: seq<Port>, trig: seq<nat>, w: FastWarp, l: nat, count: nat)
    requires Compilable(modules, ports, trig) && WarpOk(modules, ports, trig, w) && l < w.count
    requires forall p :: 0 <= p < |trig| ==> trig[p] < count
    ensures FastInRange(WarpLanes(w)[l], count)
  {
    assert IsFast(modules, w.modStart + l)
      && WarpLanes(w)[w.modStart + l - w.modStart] == LaneOf(modules, ports, trig, w.modStart + l);
  }

  // An engine for a frozen layout: all triggers zero and clear, one lane for every kernel.
  method Create<S>(modules: seq<Module>, ports: seq<Port>, trig: seq<nat>, count: nat,
                   f: (S, seq<bv64>) -> Resumed<S>, initial: seq<Coro<S>>)
    returns (engine: SimEngine<S>)
    requires Compilable(modules, ports, trig) && Segmented(modules, |trig|)
    requires |initial| == |CoroModules(modules, |modules|)|
    requires forall p :: 0 <= p < |trig| ==> trig[p] < count
    ensures fresh(engine) && fresh(engine.past) && fresh(engine.curr) && fresh(engine.futr) && fresh(engine.flags)
    ensures engine.Valid() && engine.resume == f && LanesOf(modules, ports, trig, engine.Lanes())
    ensures engine.State() == Machine(Wad(Zeros(count), Zeros(count), Zeros(count), seq(count, _ => 0)), initial)
  {
    hide WarpOk, CoroLanes, CoroModules, FastInRange, CoroInRange, LanesOf, KernelLane, LaneOf, Evaluated, FastModules;
    var fast := CompileWarps(modules, ports, trig);
    var coros := CompileCoroWarps(modules, trig);
    forall k | 0 <= k < |fast|
      ensures Filled(fast[k]) && forall l :: 0 <= l < fast[k].count ==> FastInRange(WarpLanes(fast[k])[l], count)
    {
      WarpIsFilled(modules, ports, trig, fast[k]);
      forall l | 0 <= l < fast[k].count
        ensures FastInRange(WarpLanes(fast[k])[l], count)
      {
        FastLanesFit(modules, ports, trig, fast[k], l, count);
      }
    }
    forall k, l | 0 <= k < |coros| && 0 <= l < |coros[k]|
      ensures CoroInRange(coros[k][l], count, |initial|)
    {
      FlattenHas(coros, k, l);
      CoroLanesFit(modules, trig, coros[k][l], count);
    }
    engine := new SimEngine<S>(count, fast, coros, f, initial);
    CompiledLanes(modules, ports, trig, fast, coros);
  }

  function Zeros(count: nat): seq<bv64> {
    seq(count, _ => 0)
  }

  lemma WarpIsFilled(modules: seq<Module>, ports: seq<Port>, trig: seq<nat>, w: FastWarp)
    requires Compilable(modules, ports, trig) && WarpOk(modules, ports, trig, w)
    ensures Filled(w)
  {
  }
}
