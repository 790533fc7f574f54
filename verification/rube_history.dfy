// What holds after any sequence of layout operations.

module RubeHistory {
  import opened Prelude
  import opened RubeNetlist
  import opened RubeLayout

  datatype LayoutOp =
    | AddModule(parent: Option<nat>, ins: seq<PortType>, outs: seq<PortType>, kernel: Kernel)
    | Connect(src: PortId, dst: PortId, winner: nat)
    | SealModule(m: nat)

  // One accepted operation; a module may not be added below a sealed one. Sealing leaves the numbering open.
  ghost predicate Step(v: View, op: LayoutOp, v': View) {
    && ViewOk(v)
    && match op
       case AddModule(parent, ins, outs, kernel) =>
         (parent.Some? ==> parent.value < |v.modules| && !IsSealed(v, parent.value))
           && v' == WithModule(v, parent, ins, outs, kernel)
       case Connect(src, dst, winner) =>
         ConnectAllowed(v, src, dst) && Proper(v, src) && Proper(v, dst)
           && Winner(v, src, dst, winner) && v' == Connected(v, src, dst, winner)
       case SealModule(m) =>
         m < |v.modules| && !IsSealed(v, m) && (forall c: nat :: ChildOf(v, c, m) ==> IsSealed(v, c))
           && SealedBy(v, v', m)
  }

  ghost predicate History(vs: seq<View>, ops: seq<LayoutOp>) {
    && |vs| == |ops| + 1 && vs[0] == EMPTY_VIEW
    && forall i :: 0 <= i < |ops| ==> Step(vs[i], ops[i], vs[i + 1])
  }

  predicate Sound(v: View) {
    ViewOk(v) && Covered(v) && SingleDriver(v)
  }

  lemma StepIsSound(v: View, op: LayoutOp, v': View)
    requires Sound(v) && Step(v, op, v')
    ensures Sound(v')
  {
    hide Covered, SingleDriver, ViewOk, SealedBy;
    match op
    case AddModule(parent, ins, outs, kernel) =>
      AddKeepsCovered(v, parent, ins, outs, kernel);
      AddKeepsSingleDriver(v, parent, ins, outs, kernel);
    case Connect(src, dst, winner) =>
      AllowedIsInRange(v, src, dst);
      ConnectKeepsCovered(v, src, dst, winner);
      ConnectKeepsSingleDriver(v, src, dst, winner);
    case SealModule(m) =>
      SealKeepsCovered(v, v', m);
      SealKeepsSingleDriver(v, v', m);
  }

  lemma AllowedIsInRange(v: View, src: PortId, dst: PortId)
    requires ViewOk(v) && ConnectAllowed(v, src, dst)
    ensures src.index < |v.ports| && dst.index < |v.ports|
  {
  }

  lemma {:induction false} HistoryIsSound(vs: seq<View>, ops: seq<LayoutOp>)
    requires History(vs, ops)
    ensures Sound(vs[|ops|])
  {
    hide Step, Sound;
    if ops == [] {
      EmptyIsSound();
    } else {
      HistoryIsSound(vs[..|ops|], ops[..|ops| - 1]);
      StepIsSound(vs[|ops| - 1], ops[|ops| - 1], vs[|ops|]);
    }
  }

  lemma EmptyIsSound()
    ensures Sound(EMPTY_VIEW)
  {
  }

  // Trigger completeness: after any interleaving of adding, connecting and sealing, freezing gives every port a
  // trigger.
  lemma FreezeWillSucceed(vs: seq<View>, ops: seq<LayoutOp>, p: nat)
    requires History(vs, ops) && p < |vs[|ops|].ports|
    ensures var v := vs[|ops|]; ViewOk(v) && (Triggered(v.net, p) || Assignable(v, v.net.root[p]))
  {
    HistoryIsSound(vs, ops);
    CoveredIsAssignable(vs[|ops|], p);
  }

  // Single driver: after any such sequence, two ports share a net exactly when they hang below the same undriven port.
  lemma NetsAreTrees(vs: seq<View>, ops: seq<LayoutOp>, p: nat, q: nat)
    requires History(vs, ops) && p < |vs[|ops|].ports| && q < |vs[|ops|].ports|
    ensures var v := vs[|ops|]; Sound(v) && (SameNet(v.net, p, q) <==> DriverRoot(v, p) == DriverRoot(v, q))
  {
    HistoryIsSound(vs, ops);
    NetsAreDriverTrees(vs[|ops|], p, q);
  }

  // The restriction on adding is needed: below a sealed parent, no port of a new module will ever get a trigger
  // of its own, so freezing fails unless it is connected first.
  lemma LateModuleIsForgotten(v: View, parent: nat, ins: seq<PortType>, outs: seq<PortType>, kernel: Kernel, p: nat)
    requires ViewOk(v) && IsSealed(v, parent) && |v.ports| <= p < |v.ports| + |ins| + |outs|
    ensures var v' := WithModule(v, Some(parent), ins, outs, kernel);
            ViewOk(v') && !Triggered(v'.net, p) && !Assignable(v', v'.net.root[p])
  {
    var v' := WithModule(v, Some(parent), ins, outs, kernel);
    AddKeepsView(v, Some(parent), ins, outs, kernel);
    assert forall q :: 0 <= q < |v.ports| ==> v.net.root[q] < |v.ports|;
    assert forall q: nat, m: nat :: OwnedBy(v', q, m) && v'.net.root[q] == p ==> q == p && m == |v.modules|;
  }

  // A concrete case: one sealed module, one port added below it, and freezing fails.
  method LateModuleStopsFreeze(t: PortType) returns (ok: bool)
    ensures !ok
  {
    var layout := new Layout();
    var top := layout.AddModule(None, [], [], NoKernel);
    ghost var v := layout.State();
    var done := layout.SealModule(top);
    assert done;
    ghost var w := layout.State();
    var late := layout.AddModule(Some(top), [t], [], NoKernel);
    LateModuleIsForgotten(w, top, [t], [], NoKernel, 0);
    assert !Triggered(layout.State().net, 0);
    ok := layout.Freeze();
  }
}
