// The module hierarchy: adding modules, connecting their ports, and sealing modules bottom-up.

module RubeLayout {
  import opened Prelude
  import opened SiloDisjointSet
  import opened RubeNetlist

  datatype KernelOp = Nand | And | Or | Not | Xor | Nor | Xnor | Add | Sub | Shl | Shr

  datatype Kernel = NoKernel | Fast(op: KernelOp) | Coroutine(classKey: nat)

  datatype PortType = PortType(kind: nat, mask: bv64)

  datatype Port = Port(owner: nat, typ: PortType, isOut: bool)

  datatype Module = Module(parent: Option<nat>, inFirst: nat, inCount: nat, outFirst: nat, outCount: nat,
                           kernel: Kernel, isSealed: bool)

  datatype View = View(modules: seq<Module>, ports: seq<Port>, net: Net)

  const EMPTY_VIEW := View([], [], Net([], [], [], 0))

  predicate InSegment(m: Module, p: nat) {
    m.inFirst <= p < m.inFirst + m.inCount
  }

  predicate OutSegment(m: Module, p: nat) {
    m.outFirst <= p < m.outFirst + m.outCount
  }

  predicate ModuleOk(v: View, m: nat)
    requires m < |v.modules|
  {
    var mod := v.modules[m];
    && (mod.parent.Some? ==> mod.parent.value < m)
    && mod.inFirst + mod.inCount <= |v.ports| && mod.outFirst + mod.outCount <= |v.ports|
  }

  // The two port segments of a module are exactly the ports it owns, by direction.
  predicate PortOk(v: View, p: nat)
    requires p < |v.ports|
  {
    var port := v.ports[p];
    && port.owner < |v.modules|
    && (forall m :: 0 <= m < |v.modules| ==> (InSegment(v.modules[m], p) <==> port.owner == m && !port.isOut))
    && (forall m :: 0 <= m < |v.modules| ==> (OutSegment(v.modules[m], p) <==> port.owner == m && port.isOut))
  }

  predicate ViewOk(v: View) {
    && NetOk(v.net) && |v.ports| == |v.net.root|
    && (forall m :: 0 <= m < |v.modules| ==> ModuleOk(v, m))
    && (forall p :: 0 <= p < |v.ports| ==> PortOk(v, p))
  }

  predicate ChildOf(v: View, c: nat, m: nat) {
    c < |v.modules| && v.modules[c].parent == Some(m)
  }

  predicate OwnedBy(v: View, p: nat, m: nat) {
    p < |v.ports| && v.ports[p].owner == m
  }

  predicate IsSealed(v: View, m: nat) {
    m < |v.modules| && v.modules[m].isSealed
  }

  // The net with this root crosses the boundary of m.
  ghost predicate Boundary(v: View, m: nat, r: nat)
    requires |v.ports| == |v.net.root|
  {
    exists q: nat :: OwnedBy(v, q, m) && v.net.root[q] == r
  }

  // The net with this root reaches a port of a child of m.
  ghost predicate Inner(v: View, m: nat, r: nat)
    requires |v.ports| == |v.net.root|
  {
    exists c: nat, q: nat :: ChildOf(v, c, m) && OwnedBy(v, q, c) && v.net.root[q] == r
  }

  // Sealing m gives the net with this root a trigger, if it has none.
  ghost predicate Targets(v: View, m: nat, r: nat)
    requires |v.ports| == |v.net.root| && m < |v.modules|
  {
    (Inner(v, m, r) && !Boundary(v, m, r)) || (v.modules[m].parent == None && Boundary(v, m, r))
  }

  // The event that decides port p has not happened: sealing its module's parent, or a top-level module itself.
  predicate Pending(v: View, p: nat)
    requires p < |v.ports| && PortOk(v, p)
    requires forall m :: 0 <= m < |v.modules| ==> ModuleOk(v, m)
  {
    var m := v.ports[p].owner;
    match v.modules[m].parent
    case Some(parent) => !IsSealed(v, parent)
    case None => !IsSealed(v, m)
  }

  predicate HasPending(v: View, r: nat)
    requires ViewOk(v)
  {
    exists q :: 0 <= q < |v.ports| && v.net.root[q] == r && Pending(v, q)
  }

  predicate SealedBelow(v: View)
    requires ViewOk(v)
  {
    forall c :: 0 <= c < |v.modules| && v.modules[c].parent.Some? && IsSealed(v, v.modules[c].parent.value) ==>
      IsSealed(v, c)
  }

  // The inductive fact: a net without a trigger always contains a port whose sealing is still pending.
  predicate Covered(v: View)
    requires ViewOk(v)
  {
    && SealedBelow(v)
    && forall p :: 0 <= p < |v.ports| ==> Triggered(v.net, p) || HasPending(v, v.net.root[p])
  }

  // Some module that is still open will give the net with this root a trigger.
  ghost predicate Assignable(v: View, r: nat)
    requires |v.ports| == |v.net.root|
  {
    exists m :: 0 <= m < |v.modules| && !IsSealed(v, m) && Targets(v, m, r)
  }

  // A pending port is decided by its parent, or passed on to a boundary port of the parent that is pending in turn.
  lemma {:induction false} PendingClimbs(v: View, q: nat)
    requires ViewOk(v) && SealedBelow(v) && q < |v.ports| && Pending(v, q)
    ensures Assignable(v, v.net.root[q])
    decreases v.ports[q].owner
  {
    var m, r := v.ports[q].owner, v.net.root[q];
    assert PortOk(v, q) && ModuleOk(v, m) && OwnedBy(v, q, m);
    match v.modules[m].parent
    case None =>
      assert Boundary(v, m, r) && Targets(v, m, r);
    case Some(parent) =>
      assert ChildOf(v, m, parent) && Inner(v, parent, r);
      if Boundary(v, parent, r) {
        var b: nat :| OwnedBy(v, b, parent) && v.net.root[b] == r;
        assert PortOk(v, b);
        assert Pending(v, b);
        PendingClimbs(v, b);
      } else {
        assert Targets(v, parent, r);
      }
  }

  lemma CoveredIsAssignable(v: View, p: nat)
    requires ViewOk(v) && Covered(v) && p < |v.ports|
    ensures Triggered(v.net, p) || Assignable(v, v.net.root[p])
  {
    if !Triggered(v.net, p) {
      var q :| 0 <= q < |v.ports| && v.net.root[q] == v.net.root[p] && Pending(v, q);
      PendingClimbs(v, q);
    }
  }

  // What sealing m does, whatever order it visits its children's ports in.
  ghost predicate SealedBy(v: View, v': View, m: nat)
    requires ViewOk(v) && m < |v.modules|
  {
    && v'.modules == v.modules[m := v.modules[m].(isSealed := true)] && v'.ports == v.ports
    && NetOk(v'.net) && v'.net.root == v.net.root && v'.net.driver == v.net.driver && |v'.net.trig| == |v.net.trig|
    && (forall r :: 0 <= r < |v.net.trig| && v.net.trig[r].Some? ==> v'.net.trig[r] == v.net.trig[r])
    && (forall r :: 0 <= r < |v.net.trig| && v.net.trig[r] == None ==> (v'.net.trig[r].Some? <==> Targets(v, m, r)))
  }

  lemma SealKeepsView(v: View, v': View, m: nat)
    requires ViewOk(v) && m < |v.modules| && SealedBy(v, v', m)
    ensures ViewOk(v')
    ensures forall k, r :: 0 <= k < |v.modules| ==> (Targets(v', k, r) <==> Targets(v, k, r))
  {
    forall k | 0 <= k < |v.modules|
      ensures ModuleOk(v', k)
    {
      assert ModuleOk(v, k);
    }
    forall p | 0 <= p < |v.ports|
      ensures PortOk(v', p)
    {
      assert PortOk(v, p);
    }
    forall k, r | 0 <= k < |v.modules|
      ensures Targets(v', k, r) <==> Targets(v, k, r)
    {
      TargetsIgnoreSeals(v, v', k, r);
    }
  }

  lemma TargetsIgnoreSeals(v: View, v': View, k: nat, r: nat)
    requires |v.ports| == |v.net.root| && k < |v.modules| == |v'.modules|
    requires v'.ports == v.ports && v'.net.root == v.net.root
    requires forall i :: 0 <= i < |v.modules| ==> v'.modules[i].parent == v.modules[i].parent
    ensures Targets(v', k, r) <==> Targets(v, k, r)
  {
    forall c: nat
      ensures ChildOf(v', c, k) <==> ChildOf(v, c, k)
    {
    }
    forall q: nat, m: nat
      ensures OwnedBy(v', q, m) <==> OwnedBy(v, q, m)
    {
    }
    assert Boundary(v', k, r) <==> Boundary(v, k, r);
    assert Inner(v', k, r) <==> Inner(v, k, r);
  }

  // A pending port survives sealing m, or its net gets a trigger, or the net leaves m by a port that is pending.
  lemma SealMovesPending(v: View, v': View, m: nat, p: nat)
    requires ViewOk(v) && m < |v.modules| && SealedBy(v, v', m) && ViewOk(v') && Covered(v) && !IsSealed(v, m)
    requires p < |v.ports| && !Triggered(v'.net, p)
    ensures HasPending(v', v.net.root[p])
  {
    var r := v.net.root[p];
    assert !Triggered(v.net, p) && !Targets(v, m, r);
    var q :| 0 <= q < |v.ports| && v.net.root[q] == r && Pending(v, q);
    var owner := v.ports[q].owner;
    assert PortOk(v, q) && PortOk(v', q) && ModuleOk(v, owner) && OwnedBy(v, q, owner);
    assert owner == m ==> Boundary(v, m, r);
    if v.modules[owner].parent == Some(m) {
      assert ChildOf(v, owner, m) && Inner(v, m, r);
      var b: nat :| OwnedBy(v, b, m) && v.net.root[b] == r;
      assert PortOk(v, b) && PortOk(v', b) && ModuleOk(v, m);
      assert v.modules[m].parent.Some?;
      assert Pending(v', b);
    } else {
      assert Pending(v', q);
    }
  }

  lemma SealKeepsCovered(v: View, v': View, m: nat)
    requires ViewOk(v) && m < |v.modules| && SealedBy(v, v', m) && Covered(v) && !IsSealed(v, m)
    requires forall c: nat :: ChildOf(v, c, m) ==> IsSealed(v, c)
    ensures ViewOk(v') && Covered(v')
  {
    SealKeepsView(v, v', m);
    forall c | 0 <= c < |v'.modules| && v'.modules[c].parent.Some? && IsSealed(v', v'.modules[c].parent.value)
      ensures IsSealed(v', c)
    {
      assert ModuleOk(v, c);
      assert v.modules[c].parent == Some(m) ==> ChildOf(v, c, m);
    }
    forall p | 0 <= p < |v'.ports| && !Triggered(v'.net, p)
      ensures HasPending(v', v'.net.root[p])
    {
      SealMovesPending(v, v', m, p);
    }
  }

  // Adding a module with fresh, unconnected ports.
  function WithModule(v: View, parent: Option<nat>, ins: seq<PortType>, outs: seq<PortType>, kernel: Kernel): View {
    var id, first := |v.modules|, |v.ports|;
    View(v.modules + [Module(parent, first, |ins|, first + |ins|, |outs|, kernel, false)],
         v.ports + seq(|ins|, i requires 0 <= i < |ins| => Port(id, ins[i], false))
                 + seq(|outs|, i requires 0 <= i < |outs| => Port(id, outs[i], true)),
         Grown(Grown(v.net, |ins|), |outs|))
  }

  lemma AddKeepsView(v: View, parent: Option<nat>, ins: seq<PortType>, outs: seq<PortType>, kernel: Kernel)
    requires ViewOk(v) && (parent.Some? ==> parent.value < |v.modules|)
    ensures ViewOk(WithModule(v, parent, ins, outs, kernel))
    ensures var v' := WithModule(v, parent, ins, outs, kernel);
            && (forall p :: 0 <= p < |v.ports| ==> v'.ports[p] == v.ports[p] && v'.net.root[p] == v.net.root[p])
            && (forall p :: |v.ports| <= p < |v'.ports| ==> v'.net.root[p] == p && v'.ports[p].owner == |v.modules|)
  {
    var v' := WithModule(v, parent, ins, outs, kernel);
    GrownIsOk(v.net, |ins|);
    GrownIsOk(Grown(v.net, |ins|), |outs|);
    forall m | 0 <= m < |v'.modules|
      ensures ModuleOk(v', m)
    {
      assert m < |v.modules| ==> ModuleOk(v, m);
    }
    forall p | 0 <= p < |v'.ports|
      ensures PortOk(v', p)
    {
      AddKeepsPort(v, parent, ins, outs, kernel, p);
    }
  }

  lemma AddKeepsPort(v: View, parent: Option<nat>, ins: seq<PortType>, outs: seq<PortType>, kernel: Kernel, p: nat)
    requires ViewOk(v) && p < |v.ports| + |ins| + |outs|
    ensures PortOk(WithModule(v, parent, ins, outs, kernel), p)
  {
    hide NetOk, Grown;
    var v' := WithModule(v, parent, ins, outs, kernel);
    if p < |v.ports| {
      assert PortOk(v, p);
    } else {
      assert v'.ports[p] == Port(|v.modules|, if p < |v.ports| + |ins| then ins[p - |v.ports|]
        else outs[p - |v.ports| - |ins|],
                                 p >= |v.ports| + |ins|);
      forall m | 0 <= m < |v.modules|
        ensures !InSegment(v'.modules[m], p) && !OutSegment(v'.modules[m], p)
      {
        assert ModuleOk(v, m);
      }
    }
  }

  // A new module below an open parent, or at the top, is pending in all its ports.
  lemma AddKeepsCovered(v: View, parent: Option<nat>, ins: seq<PortType>, outs: seq<PortType>, kernel: Kernel)
    requires ViewOk(v) && (parent.Some? ==> parent.value < |v.modules| && !IsSealed(v, parent.value)) && Covered(v)
    ensures ViewOk(WithModule(v, parent, ins, outs, kernel)) && Covered(WithModule(v, parent, ins, outs, kernel))
  {
    var v' := WithModule(v, parent, ins, outs, kernel);
    AddKeepsView(v, parent, ins, outs, kernel);
    forall c | 0 <= c < |v'.modules| && v'.modules[c].parent.Some? && IsSealed(v', v'.modules[c].parent.value)
      ensures IsSealed(v', c)
    {
      assert c < |v.modules| ==> ModuleOk(v, c);
    }
    forall p | 0 <= p < |v'.ports| && !Triggered(v'.net, p)
      ensures HasPending(v', v'.net.root[p])
    {
      AddMovesPending(v, parent, ins, outs, kernel, p);
    }
  }

  lemma AddMovesPending(v: View, parent: Option<nat>, ins: seq<PortType>, outs: seq<PortType>, kernel: Kernel, p: nat)
    requires ViewOk(v) && (parent.Some? ==> parent.value < |v.modules| && !IsSealed(v, parent.value)) && Covered(v)
    requires var v' := WithModule(v, parent, ins, outs, kernel); ViewOk(v') && p < |v'.ports| && !Triggered(v'.net, p)
    ensures var v' := WithModule(v, parent, ins, outs, kernel); HasPending(v', v'.net.root[p])
  {
    var v' := WithModule(v, parent, ins, outs, kernel);
    AddKeepsView(v, parent, ins, outs, kernel);
    assert PortOk(v', p);
    if p < |v.ports| {
      assert PortOk(v, p) && !Triggered(v.net, p);
      var q :| 0 <= q < |v.ports| && v.net.root[q] == v.net.root[p] && Pending(v, q);
      assert PortOk(v, q) && PortOk(v', q) && ModuleOk(v, v.ports[q].owner);
      assert Pending(v', q);
    } else {
      assert Pending(v', p);
    }
  }

  // A port id as InPort and OutPort hand it out.
  predicate Proper(v: View, p: PortId) {
    p.index < |v.ports| && v.ports[p.index].isOut == p.Out?
  }

  function ParentOf(v: View, p: nat): Option<nat>
    requires p < |v.ports| && v.ports[p].owner < |v.modules|
  {
    v.modules[v.ports[p].owner].parent
  }

  // Which connections the hierarchy allows: between siblings, down from a parent's input, up to a parent's output.
  predicate Visible(v: View, src: PortId, dst: PortId)
    requires src.index < |v.ports| && dst.index < |v.ports|
    requires v.ports[src.index].owner < |v.modules| && v.ports[dst.index].owner < |v.modules|
  {
    var srcOwner, dstOwner := v.ports[src.index].owner, v.ports[dst.index].owner;
    var srcParent, dstParent := v.modules[srcOwner].parent, v.modules[dstOwner].parent;
    if srcParent == dstParent then src.Out? && dst.In?
    else if Some(srcOwner) == dstParent then src.In? && dst.In?
    else Some(dstOwner) == srcParent && src.Out? && dst.Out?
  }

  predicate ConnectAllowed(v: View, src: PortId, dst: PortId)
    requires ViewOk(v)
  {
    && src.index < |v.ports| && dst.index < |v.ports|
    && PortOk(v, src.index) && PortOk(v, dst.index)
    && Visible(v, src, dst) && v.ports[src.index].typ == v.ports[dst.index].typ && Accepts(v.net, src, dst)
  }

  // The rules of a connection: both ends exist, have one type, and lie side by side from an output to an input, or
  // one level apart between two inputs on the way down, or between two outputs on the way up; and nothing else drives
  // the sink.
  predicate Permitted(v: View, src: PortId, dst: PortId)
    requires ViewOk(v)
  {
    && src.index < |v.ports| && dst.index < |v.ports| && v.ports[src.index].typ == v.ports[dst.index].typ
    && (v.net.driver[dst.index] == None || v.net.driver[dst.index] == Some(src))
    && PortOk(v, src.index) && PortOk(v, dst.index)
    && (|| (ParentOf(v, src.index) == ParentOf(v, dst.index) && src.Out? && dst.In?)
        || (ParentOf(v, dst.index) == Some(v.ports[src.index].owner) && src.In? && dst.In?)
        || (ParentOf(v, src.index) == Some(v.ports[dst.index].owner) && src.Out? && dst.Out?))
  }

  // A connection is accepted exactly when the rules permit it.
  lemma AcceptedIffPermitted(v: View, src: PortId, dst: PortId)
    requires ViewOk(v)
    ensures ConnectAllowed(v, src, dst) <==> Permitted(v, src, dst)
  {
    hide NetOk;
    if src.index < |v.ports| && dst.index < |v.ports| {
      assert PortOk(v, src.index) && PortOk(v, dst.index);
      assert ModuleOk(v, v.ports[src.index].owner) && ModuleOk(v, v.ports[dst.index].owner);
    }
  }

  function Connected(v: View, src: PortId, dst: PortId, w: nat): View
    requires ViewOk(v) && src.index < |v.ports| && dst.index < |v.ports|
  {
    v.(net := Joined(v.net, src, dst, w))
  }

  predicate Winner(v: View, src: PortId, dst: PortId, w: nat)
    requires ViewOk(v) && src.index < |v.ports| && dst.index < |v.ports|
  {
    w == v.net.root[src.index] || w == v.net.root[dst.index]
  }

  lemma ConnectKeepsView(v: View, src: PortId, dst: PortId, w: nat)
    requires ViewOk(v) && src.index < |v.ports| && dst.index < |v.ports| && Winner(v, src, dst, w)
    ensures ViewOk(Connected(v, src, dst, w))
  {
    JoinedIsOk(v.net, src, dst, w);
    var v' := Connected(v, src, dst, w);
    forall m | 0 <= m < |v.modules|
      ensures ModuleOk(v', m)
    {
      assert ModuleOk(v, m);
    }
    forall p | 0 <= p < |v.ports|
      ensures PortOk(v', p)
    {
      assert PortOk(v, p);
    }
  }

  // Whichever root the union keeps, an untriggered union inherits a pending port from the side whose root it kept.
  lemma ConnectKeepsCovered(v: View, src: PortId, dst: PortId, w: nat)
    requires ViewOk(v) && src.index < |v.ports| && dst.index < |v.ports| && Winner(v, src, dst, w) && Covered(v)
    ensures ViewOk(Connected(v, src, dst, w)) && Covered(Connected(v, src, dst, w))
  {
    ConnectKeepsView(v, src, dst, w);
    var v' := Connected(v, src, dst, w);
    forall p | 0 <= p < |v.ports| && !Triggered(v'.net, p)
      ensures HasPending(v', v'.net.root[p])
    {
      var r := v'.net.root[p];
      assert r < |v.ports| && v.net.root[r] == r && !Triggered(v.net, r);
      var q :| 0 <= q < |v.ports| && v.net.root[q] == r && Pending(v, q);
      assert PortOk(v', q) && Pending(v', q);
    }
  }

  // A driver edge that the hierarchy allows.
  predicate Edge(v: View, d: nat, s: nat)
    requires ViewOk(v) && d < |v.ports| && s < |v.ports|
  {
    && PortOk(v, d) && PortOk(v, s)
    && (|| (v.ports[d].isOut && !v.ports[s].isOut && ParentOf(v, d) == ParentOf(v, s))
        || (!v.ports[d].isOut && !v.ports[s].isOut && ParentOf(v, s) == Some(v.ports[d].owner))
        || (v.ports[d].isOut && v.ports[s].isOut && ParentOf(v, d) == Some(v.ports[s].owner)))
  }

  // Following drivers goes up through inputs, across to an output, and down through outputs.
  function Height(v: View, p: nat): nat
    requires ViewOk(v) && p < |v.ports|
  {
    assert PortOk(v, p);
    if v.ports[p].isOut then |v.modules| - v.ports[p].owner else |v.modules| + 1 + v.ports[p].owner
  }

  predicate Undriven(v: View, p: nat)
    requires ViewOk(v) && p < |v.ports|
  {
    v.net.driver[p] == None
  }

  predicate OneRootEach(v: View)
    requires ViewOk(v)
  {
    forall p, q :: 0 <= p < |v.ports| && 0 <= q < |v.ports| && Undriven(v, p) && Undriven(v, q) ==>
      v.net.root[p] == v.net.root[q] ==> p == q
  }

  // Driver edges stay inside nets, and no net has two undriven ports.
  predicate SingleDriver(v: View)
    requires ViewOk(v)
  {
    && (forall s :: 0 <= s < |v.ports| && v.net.driver[s].Some? ==>
          Edge(v, v.net.driver[s].value.index, s) && v.net.root[v.net.driver[s].value.index] == v.net.root[s])
    && OneRootEach(v)
  }

  lemma EdgeDescends(v: View, d: nat, s: nat)
    requires ViewOk(v) && d < |v.ports| && s < |v.ports| && Edge(v, d, s)
    ensures Height(v, d) < Height(v, s)
  {
    assert PortOk(v, d) && PortOk(v, s);
    assert ModuleOk(v, v.ports[d].owner) && ModuleOk(v, v.ports[s].owner);
  }

  // The root of a port's tree in the driver relation.
  function DriverRoot(v: View, p: nat): (u: nat)
    requires ViewOk(v) && SingleDriver(v) && p < |v.ports|
    ensures u < |v.ports| && Undriven(v, u) && v.net.root[u] == v.net.root[p] && Height(v, u) <= Height(v, p)
    decreases Height(v, p)
  {
    if v.net.driver[p] == None then p
    else
      EdgeDescends(v, v.net.driver[p].value.index, p);
      DriverRoot(v, v.net.driver[p].value.index)
  }

  // Nets are exactly the trees of the driver relation, each with one undriven root.
  lemma NetsAreDriverTrees(v: View, p: nat, q: nat)
    requires ViewOk(v) && SingleDriver(v) && p < |v.ports| && q < |v.ports|
    ensures SameNet(v.net, p, q) <==> DriverRoot(v, p) == DriverRoot(v, q)
  {
  }

  lemma VisibleIsEdge(v: View, src: PortId, dst: PortId)
    requires ViewOk(v) && Proper(v, src) && Proper(v, dst) && PortOk(v, src.index) && PortOk(v, dst.index)
    requires Visible(v, src, dst)
    ensures Edge(v, src.index, dst.index)
  {
  }

  lemma EdgesIgnoreNets(v: View, v': View, d: nat, s: nat)
    requires ViewOk(v) && ViewOk(v') && v'.modules == v.modules && v'.ports == v.ports && d < |v.ports| && s < |v.ports|
    ensures Edge(v', d, s) <==> Edge(v, d, s)
  {
    assert PortOk(v, d) && PortOk(v, s) && PortOk(v', d) && PortOk(v', s);
  }

  lemma ConnectKeepsSingleDriver(v: View, src: PortId, dst: PortId, w: nat)
    requires ViewOk(v) && ConnectAllowed(v, src, dst) && Proper(v, src) && Proper(v, dst) && Winner(v, src, dst, w)
    requires SingleDriver(v)
    ensures ViewOk(Connected(v, src, dst, w)) && SingleDriver(Connected(v, src, dst, w))
  {
    hide ViewOk;
    assert ViewOk(Connected(v, src, dst, w)) by {
      ConnectKeepsView(v, src, dst, w);
    }
    NewDriverJoinsTwoNets(v, src, dst);
    ConnectedEdges(v, src, dst, w);
    ConnectedRoots(v, src, dst, w);
  }

  // A new driver always joins two different nets, because drivers never run in a circle.
  lemma NewDriverJoinsTwoNets(v: View, src: PortId, dst: PortId)
    requires ViewOk(v) && ConnectAllowed(v, src, dst) && Proper(v, src) && Proper(v, dst) && SingleDriver(v)
    ensures v.net.driver[dst.index] == None ==> v.net.root[src.index] != v.net.root[dst.index]
  {
    VisibleIsEdge(v, src, dst);
    EdgeDescends(v, src.index, dst.index);
    var u := DriverRoot(v, src.index);
    assert Undriven(v, u);
  }

  lemma ConnectedEdges(v: View, src: PortId, dst: PortId, w: nat)
    requires ViewOk(v) && ConnectAllowed(v, src, dst) && Proper(v, src) && Proper(v, dst) && Winner(v, src, dst, w)
    requires SingleDriver(v) && ViewOk(Connected(v, src, dst, w))
    ensures var v' := Connected(v, src, dst, w);
            forall s :: 0 <= s < |v.ports| && v'.net.driver[s].Some? ==>
              Edge(v', v'.net.driver[s].value.index, s) && v'.net.root[v'.net.driver[s].value.index] == v'.net.root[s]
  {
    var v' := Connected(v, src, dst, w);
    VisibleIsEdge(v, src, dst);
    forall s | 0 <= s < |v.ports| && v'.net.driver[s].Some?
      ensures Edge(v', v'.net.driver[s].value.index, s) && v'.net.root[v'.net.driver[s].value.index] == v'.net.root[s]
    {
      var d := v'.net.driver[s].value.index;
      EdgesIgnoreNets(v, v', d, s);
      MergeJoins(v.net.root, src.index, dst.index, w, d, s);
    }
  }

  lemma ConnectedRoots(v: View, src: PortId, dst: PortId, w: nat)
    requires ViewOk(v) && src.index < |v.ports| && dst.index < |v.ports| && Winner(v, src, dst, w)
    requires Accepts(v.net, src, dst)
    requires SingleDriver(v) && ViewOk(Connected(v, src, dst, w))
    requires v.net.driver[dst.index] == None ==> v.net.root[src.index] != v.net.root[dst.index]
    ensures OneRootEach(Connected(v, src, dst, w))
  {
    var v' := Connected(v, src, dst, w);
    forall p, q | 0 <= p < |v.ports| && 0 <= q < |v.ports| && Undriven(v', p)
      && Undriven(v', q) && v'.net.root[p] == v'.net.root[q]
      ensures p == q
    {
      MergeJoins(v.net.root, src.index, dst.index, w, p, q);
      assert Undriven(v, p) && Undriven(v, q);
      assert v.net.driver[dst.index] == None ==> Undriven(v, dst.index);
    }
  }

  lemma AddKeepsSingleDriver(v: View, parent: Option<nat>, ins: seq<PortType>, outs: seq<PortType>, kernel: Kernel)
    requires ViewOk(v) && (parent.Some? ==> parent.value < |v.modules|) && SingleDriver(v)
    ensures ViewOk(WithModule(v, parent, ins, outs, kernel)) && SingleDriver(WithModule(v, parent, ins, outs, kernel))
  {
    var v' := WithModule(v, parent, ins, outs, kernel);
    AddKeepsView(v, parent, ins, outs, kernel);
    forall s | 0 <= s < |v'.ports| && v'.net.driver[s].Some?
      ensures Edge(v', v'.net.driver[s].value.index, s) && v'.net.root[v'.net.driver[s].value.index] == v'.net.root[s]
    {
      assert s < |v.ports| && v'.net.driver[s] == v.net.driver[s];
      var d := v.net.driver[s].value.index;
      assert PortOk(v, d) && PortOk(v, s) && PortOk(v', d) && PortOk(v', s);
    }
    forall p, q | 0 <= p < |v'.ports| && 0 <= q < |v'.ports| && Undriven(v', p)
      && Undriven(v', q) && v'.net.root[p] == v'.net.root[q]
      ensures p == q
    {
      assert p < |v.ports| ==> v.net.root[p] < |v.ports| && Undriven(v, p);
      assert q < |v.ports| ==> v.net.root[q] < |v.ports| && Undriven(v, q);
    }
  }

  lemma SealKeepsSingleDriver(v: View, v': View, m: nat)
    requires ViewOk(v) && m < |v.modules| && SealedBy(v, v', m) && SingleDriver(v)
    ensures ViewOk(v') && SingleDriver(v')
  {
    SealKeepsView(v, v', m);
    forall s | 0 <= s < |v'.ports| && v'.net.driver[s].Some?
      ensures Edge(v', v'.net.driver[s].value.index, s) && v'.net.root[v'.net.driver[s].value.index] == v'.net.root[s]
    {
      var d := v.net.driver[s].value.index;
      assert Edge(v, d, s);
      assert PortOk(v, d) && PortOk(v, s) && PortOk(v', d) && PortOk(v', s);
    }
    forall p, q | 0 <= p < |v'.ports| && 0 <= q < |v'.ports| && Undriven(v', p)
      && Undriven(v', q) && v'.net.root[p] == v'.net.root[q]
      ensures p == q
    {
      assert Undriven(v, p) && Undriven(v, q);
    }
  }

  // An output of a module without children is never a sink, so no two such outputs share a net.
  lemma KernelOutputsAreSeparate(v: View, p: nat, q: nat)
    requires ViewOk(v) && SingleDriver(v) && p < |v.ports| && q < |v.ports|
    requires v.ports[p].isOut && v.ports[q].isOut
    requires forall c: nat :: !ChildOf(v, c, v.ports[p].owner) && !ChildOf(v, c, v.ports[q].owner)
    ensures SameNet(v.net, p, q) ==> p == q
    ensures Undriven(v, p) && Undriven(v, q)
  {
    ChildlessIsUndriven(v, p);
    ChildlessIsUndriven(v, q);
  }

  lemma ChildlessIsUndriven(v: View, p: nat)
    requires ViewOk(v) && SingleDriver(v) && p < |v.ports| && v.ports[p].isOut
    requires forall c: nat :: !ChildOf(v, c, v.ports[p].owner)
    ensures Undriven(v, p)
  {
    if v.net.driver[p].Some? {
      var d := v.net.driver[p].value.index;
      assert Edge(v, d, p) && PortOk(v, d);
      assert ChildOf(v, v.ports[d].owner, v.ports[p].owner);
    }
  }

  // The triggers of n' are those of n, plus new ones for exactly the roots in `given`.
  predicate TriggeredBy(n: Net, n': Net, given: set<nat>) {
    && NetOk(n) && NetOk(n') && n'.root == n.root && n'.driver == n.driver && |n'.trig| == |n.trig|
    && (forall r :: 0 <= r < |n.trig| && n.trig[r].Some? ==> n'.trig[r] == n.trig[r])
    && (forall r :: 0 <= r < |n.trig| && n.trig[r] == None ==> (n'.trig[r].Some? <==> r in given))
  }

  lemma AssignGives(n: Net, n': Net, given: set<nat>, r: nat)
    requires TriggeredBy(n, n', given) && r < |n.trig|
    ensures TriggeredBy(n, Assigned(n', r), given + {r})
  {
  }

  lemma OwnedIsInSegment(v: View, p: nat, m: nat)
    requires ViewOk(v) && m < |v.modules|
    ensures OwnedBy(v, p, m) <==> p < |v.ports| && (InSegment(v.modules[m], p) || OutSegment(v.modules[m], p))
  {
    if p < |v.ports| {
      assert PortOk(v, p);
    }
  }

  lemma BoundaryRoots(v: View, m: nat, ins: seq<nat>, outs: seq<nat>, r: nat)
    requires ViewOk(v) && m < |v.modules| && |ins| == v.modules[m].inCount && |outs| == v.modules[m].outCount
    requires ModuleOk(v, m)
    requires forall i :: 0 <= i < |ins| ==> ins[i] == v.net.root[v.modules[m].inFirst + i]
    requires forall i :: 0 <= i < |outs| ==> outs[i] == v.net.root[v.modules[m].outFirst + i]
    ensures r in ins + outs <==> Boundary(v, m, r)
  {
    var mod := v.modules[m];
    if r in ins + outs {
      var q: nat := if r in ins then
        var i :| 0 <= i < |ins| && ins[i] == r; mod.inFirst + i
      else
        var i :| 0 <= i < |outs| && outs[i] == r; mod.outFirst + i;
      OwnedIsInSegment(v, q, m);
      assert v.net.root[q] == r;
    }
    if Boundary(v, m, r) {
      var q: nat :| OwnedBy(v, q, m) && v.net.root[q] == r;
      OwnedIsInSegment(v, q, m);
      if InSegment(mod, q) {
        assert ins[q - mod.inFirst] == r;
      } else {
        assert outs[q - mod.outFirst] == r;
      }
    }
  }

  // Every port of c has its net in one of the two collections.
  predicate Visited(v: View, c: nat, boundary: seq<nat>, given: set<nat>)
    requires ViewOk(v)
  {
    forall p: nat | p < |v.ports| :: OwnedBy(v, p, c) ==> v.net.root[p] in boundary || v.net.root[p] in given
  }

  lemma SegmentsVisit(v: View, c: nat, boundary: seq<nat>, given: set<nat>)
    requires ViewOk(v) && c < |v.modules| && ModuleOk(v, c)
    requires var m := v.modules[c];
      forall p :: m.inFirst <= p < m.inFirst + m.inCount ==> v.net.root[p] in boundary || v.net.root[p] in given
    requires var m := v.modules[c];
      forall p :: m.outFirst <= p < m.outFirst + m.outCount ==> v.net.root[p] in boundary || v.net.root[p] in given
    ensures Visited(v, c, boundary, given)
  {
    forall p: nat | p < |v.ports| && OwnedBy(v, p, c)
      ensures v.net.root[p] in boundary || v.net.root[p] in given
    {
      OwnedIsInSegment(v, p, c);
    }
  }

  // After all children have been visited, the inner nets are exactly those given a trigger.
  lemma InnerIsGiven(v: View, m: nat, boundary: seq<nat>, given: set<nat>)
    requires ViewOk(v) && m < |v.modules| && (forall r :: r in boundary <==> Boundary(v, m, r))
    requires forall c: nat :: ChildOf(v, c, m) ==> Visited(v, c, boundary, given)
    requires forall r :: r in given ==> Inner(v, m, r) && r !in boundary
    ensures forall r: nat :: r in given <==> Inner(v, m, r) && !Boundary(v, m, r)
  {
    forall r: nat | Inner(v, m, r) && !Boundary(v, m, r)
      ensures r in given
    {
      var c: nat, q: nat :| ChildOf(v, c, m) && OwnedBy(v, q, c) && v.net.root[q] == r;
      assert Visited(v, c, boundary, given);
    }
  }

  lemma SealIsDone(v: View, v': View, m: nat, given: set<nat>)
    requires ViewOk(v) && m < |v.modules| && TriggeredBy(v.net, v'.net, given)
    requires v'.modules == v.modules[m := v.modules[m].(isSealed := true)] && v'.ports == v.ports
    requires forall r: nat :: r in given <==> Targets(v, m, r)
    ensures SealedBy(v, v', m)
  {
  }

  lemma RootsStay(n: Net, n': Net, given: set<nat>)
    requires TriggeredBy(n, n', given)
    ensures n'.root == n.root
  {
  }

  class Layout {
    var modules: seq<Module>
    var ports: seq<Port>
    var children: seq<seq<nat>>
    var portToTrigger: seq<nat>
    const netlist: Netlist

    ghost function State(): View
      reads this, netlist, netlist.equiv
    {
      View(modules, ports, netlist.State())
    }

    ghost predicate Valid()
      reads this, netlist, netlist.equiv
    {
      && netlist.Valid() && ViewOk(State()) && |children| == |modules|
      && (forall m, c: nat :: 0 <= m < |modules| ==> (c in children[m] <==> ChildOf(State(), c, m)))
    }

    constructor ()
      ensures Valid() && fresh(netlist) && fresh(netlist.equiv) && State() == EMPTY_VIEW
    {
      modules, ports, children, portToTrigger := [], [], [], [];
      netlist := new Netlist();
    }

    method AddPorts(id: nat, types: seq<PortType>, isOut: bool) returns (first: nat)
      requires netlist.Valid()
      modifies `ports, netlist, netlist.equiv
      ensures netlist.Valid() && first == |old(ports)| && netlist.State() == Grown(old(netlist.State()), |types|)
      ensures ports == old(ports) + seq(|types|, i requires 0 <= i < |types| => Port(id, types[i], isOut))
    {
      first := |ports|;
      for i := 0 to |types|
        invariant ports == old(ports) + seq(i, k requires 0 <= k < i => Port(id, types[k], isOut))
        invariant netlist.Valid() && netlist.State() == old(netlist.State())
      {
        ports := ports + [Port(id, types[i], isOut)];
      }
      netlist.Grow(|types|);
    }

    method AddModule(parent: Option<nat>, ins: seq<PortType>, outs: seq<PortType>, kernel: Kernel) returns (id: nat)
      requires Valid() && (parent.Some? ==> parent.value < |modules|)
      modifies this, netlist, netlist.equiv
      ensures Valid() && id == |old(modules)| && State() == WithModule(old(State()), parent, ins, outs, kernel)
    {
      ghost var v := State();
      AddKeepsView(v, parent, ins, outs, kernel);
      id := |modules|;
      var inFirst := AddPorts(id, ins, false);
      var outFirst := AddPorts(id, outs, true);
      modules := modules + [Module(parent, inFirst, |ins|, outFirst, |outs|, kernel, false)];
      children := children + [[]];
      if parent.Some? {
        children := children[parent.value := children[parent.value] + [id]];
      }
      assert State() == WithModule(v, parent, ins, outs, kernel);
      forall m, c: nat | 0 <= m < |modules|
        ensures c in children[m] <==> ChildOf(State(), c, m)
      {
        assert m < |v.modules| ==> (c in old(children)[m] <==> ChildOf(v, c, m));
        assert c < |v.modules| ==> ModuleOk(v, c);
      }
    }

    method InPort(m: nat, k: nat) returns (p: PortId)
      requires Valid() && m < |modules| && k < modules[m].inCount
      ensures p == In(modules[m].inFirst + k) && Proper(State(), p) && OwnedBy(State(), p.index, m)
    {
      p := In(modules[m].inFirst + k);
      assert ModuleOk(State(), m) && PortOk(State(), p.index) && InSegment(modules[m], p.index);
    }

    method OutPort(m: nat, k: nat) returns (p: PortId)
      requires Valid() && m < |modules| && k < modules[m].outCount
      ensures p == Out(modules[m].outFirst + k) && Proper(State(), p) && OwnedBy(State(), p.index, m)
    {
      p := Out(modules[m].outFirst + k);
      assert ModuleOk(State(), m) && PortOk(State(), p.index) && OutSegment(modules[m], p.index);
    }

    // Every check of the source that fails stops it; here the result is false and nothing has changed.
    method Connect(src: PortId, dst: PortId) returns (ok: bool, ghost winner: nat)
      requires Valid()
      modifies netlist, netlist.equiv
      ensures Valid() && ok == ConnectAllowed(old(State()), src, dst) == Permitted(old(State()), src, dst)
      ensures !ok ==> State() == old(State())
      ensures ok ==> Winner(old(State()), src, dst, winner) && State() == Connected(old(State()), src, dst, winner)
    {
      ghost var v := State();
      AcceptedIffPermitted(v, src, dst);
      winner := 0;
      if src.index >= |ports| || dst.index >= |ports| {
        return false, 0;
      }
      assert PortOk(v, src.index) && PortOk(v, dst.index);
      if !Visible(View(modules, ports, Net([], [], [], 0)), src, dst) || ports[src.index].typ != ports[dst.index].typ {
        return false, 0;
      }
      ok, winner := netlist.Connect(src, dst);
      if ok {
        ConnectKeepsView(v, src, dst, winner);
      }
      KeepsChildren(v);
    }

    lemma KeepsChildren(v: View)
      requires |children| == |modules| && v.modules == modules
      requires forall m, c: nat :: 0 <= m < |modules| ==> (c in children[m] <==> ChildOf(v, c, m))
      ensures forall m, c: nat :: 0 <= m < |modules| ==> (c in children[m] <==> ChildOf(State(), c, m))
    {
      forall m: nat, c: nat
        ensures ChildOf(State(), c, m) <==> ChildOf(v, c, m)
      {
      }
    }

    method RootsOf(first: nat, count: nat) returns (roots: seq<nat>)
      requires netlist.Valid() && first + count <= |netlist.driver|
      modifies netlist.equiv`parent
      ensures netlist.Valid() && netlist.State() == old(netlist.State()) && |roots| == count
      ensures forall i :: 0 <= i < count ==> roots[i] == netlist.State().root[first + i]
    {
      roots := [];
      for i := 0 to count
        invariant netlist.Valid() && netlist.State() == old(netlist.State()) && |roots| == i
        invariant forall k :: 0 <= k < i ==> roots[k] == netlist.State().root[first + k]
      {
        var r := netlist.FindRoot(first + i);
        roots := roots + [r];
      }
    }

    // Give a trigger to the net of one port, unless the net crosses the boundary or has one already.
    method SealPort(p: nat, boundary: seq<nat>, ghost n: Net, ghost given: set<nat>) returns (ghost given': set<nat>)
      requires netlist.Valid() && p < |netlist.driver| && TriggeredBy(n, netlist.State(), given)
      modifies netlist, netlist.equiv`parent
      ensures netlist.Valid() && TriggeredBy(n, netlist.State(), given')
      ensures given' == if n.root[p] in boundary then given else given + {n.root[p]}
    {
      var root := netlist.FindRoot(p);
      var isBoundary := false;
      for i := 0 to |boundary|
        invariant isBoundary <==> root in boundary[..i]
      {
        if boundary[i] == root {
          isBoundary := true;
        }
      }
      given' := given;
      if !isBoundary {
        given' := given + {root};
        AssignGives(n, netlist.State(), given, root);
        var has := netlist.HasTrigger(p);
        if !has {
          netlist.AssignTrigger(root);
        }
      }
    }

    method SealSegment(first: nat, count: nat, boundary: seq<nat>, ghost n: Net, ghost given: set<nat>)
      returns (ghost given': set<nat>)
      requires netlist.Valid() && first + count <= |netlist.driver| && TriggeredBy(n, netlist.State(), given)
      modifies netlist, netlist.equiv`parent
      ensures netlist.Valid() && TriggeredBy(n, netlist.State(), given') && given <= given'
      ensures forall p :: first <= p < first + count ==> n.root[p] in boundary || n.root[p] in given'
      ensures forall r :: r in given' && r !in given ==>
        r !in boundary && exists p :: first <= p < first + count && n.root[p] == r
    {
      given' := given;
      for i := 0 to count
        invariant netlist.Valid() && TriggeredBy(n, netlist.State(), given') && given <= given'
        invariant forall p :: first <= p < first + i ==> n.root[p] in boundary || n.root[p] in given'
        invariant forall r :: r in given' && r !in given ==>
          r !in boundary && exists p :: first <= p < first + i && n.root[p] == r
      {
        ghost var before := given';
        given' := SealPort(first + i, boundary, n, given');
        forall r | r in given' && r !in given
          ensures r !in boundary && exists p :: first <= p < first + i + 1 && n.root[p] == r
        {
          if r in before {
            var p :| first <= p < first + i && n.root[p] == r;
          } else {
            assert n.root[first + i] == r;
          }
        }
      }
    }

    // Visit the ports of one sealed child.
    method SealChild(c: nat, m: nat, boundary: seq<nat>, ghost v: View, ghost given: set<nat>)
      returns (ghost given': set<nat>)
      requires netlist.Valid() && ViewOk(v) && v.modules == modules && v.ports == ports && ChildOf(v, c, m)
      requires TriggeredBy(v.net, netlist.State(), given) && forall r :: r in given ==> Inner(v, m, r) && r !in boundary
      modifies netlist, netlist.equiv`parent
      ensures netlist.Valid() && TriggeredBy(v.net, netlist.State(), given') && given <= given'
      ensures Visited(v, c, boundary, given')
      ensures forall r :: r in given' ==> Inner(v, m, r) && r !in boundary
    {
      var mod := modules[c];
      assert ModuleOk(v, c);
      ghost var mid := SealSegment(mod.inFirst, mod.inCount, boundary, v.net, given);
      given' := SealSegment(mod.outFirst, mod.outCount, boundary, v.net, mid);
      SegmentsVisit(v, c, boundary, given');
      forall r | r in given' && r !in given
        ensures Inner(v, m, r)
      {
        var p :| 0 <= p < |v.ports| && v.net.root[p] == r && (InSegment(mod, p) || OutSegment(mod, p));
        OwnedIsInSegment(v, p, c);
      }
    }

    // Visit the children in order, up to the first that is still open.
    method SealChildren(m: nat, boundary: seq<nat>, ghost v: View) returns (ok: bool, ghost given: set<nat>)
      requires netlist.Valid() && ViewOk(v) && v.modules == modules && v.ports == ports && v.net == netlist.State()
      requires m < |modules| == |children| && forall c: nat :: c in children[m] <==> ChildOf(v, c, m)
      modifies netlist, netlist.equiv`parent
      ensures netlist.Valid() && TriggeredBy(v.net, netlist.State(), given)
      ensures forall r :: r in given ==> Inner(v, m, r) && r !in boundary
      ensures ok <==> forall c: nat :: ChildOf(v, c, m) ==> IsSealed(v, c)
      ensures ok ==> forall c: nat :: ChildOf(v, c, m) ==> Visited(v, c, boundary, given)
    {
      var kids := children[m];
      given := {};
      NothingGiven(v.net);
      hide TriggeredBy, NetOk, PortOk;
      for i := 0 to |kids|
        invariant netlist.Valid() && TriggeredBy(v.net, netlist.State(), given)
        invariant forall r :: r in given ==> Inner(v, m, r) && r !in boundary
        invariant forall k :: 0 <= k < i ==> IsSealed(v, kids[k]) && Visited(v, kids[k], boundary, given)
      {
        var c := kids[i];
        assert ChildOf(v, c, m);
        if !modules[c].isSealed {
          ok := false;
          return;
        }
        given := SealChild(c, m, boundary, v, given);
      }
      ok := true;
    }

    // Fails, as the source stops, when some child is still open.
    method SealModule(m: nat) returns (ok: bool)
      requires Valid() && m < |modules| && !modules[m].isSealed
      modifies this, netlist, netlist.equiv`parent
      ensures Valid() && children == old(children) && portToTrigger == old(portToTrigger)
      ensures ok <==> forall c: nat :: ChildOf(old(State()), c, m) ==> IsSealed(old(State()), c)
      ensures ok ==> SealedBy(old(State()), State(), m)
    {
      ghost var v := State();
      var mod := modules[m];
      assert ModuleOk(v, m) && |netlist.driver| == |ports|;
      hide TriggeredBy, NetOk, PortOk, Visited;
      var ins := RootsOf(mod.inFirst, mod.inCount);
      var outs := RootsOf(mod.outFirst, mod.outCount);
      var boundary := ins + outs;
      forall r: nat
        ensures r in boundary <==> Boundary(v, m, r)
      {
        BoundaryRoots(v, m, ins, outs, r);
      }
      ghost var given;
      ok, given := SealChildren(m, boundary, v);
      if !ok {
        RootsStay(v.net, netlist.State(), given);
        OnlyTriggers(v);
        return;
      }
      InnerIsGiven(v, m, boundary, given);
      if mod.parent == None {
        given := SealOwn(m, v, given);
      }
      modules := modules[m := mod.(isSealed := true)];
      SealIsDone(v, State(), m, given);
      SealKeepsView(v, State(), m);
      forall k, c: nat | 0 <= k < |modules|
        ensures c in children[k] <==> ChildOf(State(), c, k)
      {
        assert ChildOf(State(), c, k) <==> ChildOf(v, c, k);
      }
    }

    // Seal whatever is open, children before parents, then look up the trigger of every port. It succeeds exactly
    // when every net has a trigger or some open module will give it one.
    method Freeze() returns (ok: bool)
      requires Valid()
      modifies this, netlist, netlist.equiv`parent
      ensures Valid() && Freezing(old(State()), State(), 0)
      ensures ok <==> forall p :: 0 <= p < |old(ports)| ==>
        Triggered(old(State()).net, p) || Assignable(old(State()), old(State()).net.root[p])
      ensures ok ==> OneTriggerPerNet(old(State()).net, portToTrigger)
      ensures ok ==> forall p :: 0 <= p < |portToTrigger| ==> portToTrigger[p] < netlist.nextTriggerId
    {
      hide Freezing, SealedBy;
      ghost var v0 := State();
      FreezeBegins(v0);
      for k := |modules| downto 0
        invariant Valid() && |modules| == |v0.modules| && Freezing(v0, State(), k)
      {
        FreezeShows(v0, State(), k + 1);
        if !modules[k].isSealed {
          ghost var v := State();
          var done := SealModule(k);
          FreezeStep(v0, v, State(), k);
        } else {
          FreezeSkips(v0, State(), k);
        }
      }
      FreezeEnds(v0, State());
      var triggers;
      ok, triggers := netlist.BuildPortToTrigger();
      OnlyTriggers(State());
      forall p | 0 <= p < |ports|
        ensures Triggered(State().net, p) <==> Triggered(v0.net, p) || Assignable(v0, v0.net.root[p])
      {
        FrozenTriggers(v0, State(), p);
      }
      if ok {
        LookupSeparates(State().net, triggers);
        portToTrigger := triggers;
      }
    }

    // A top-level module decides its own boundary as well.
    method SealOwn(m: nat, ghost v: View, ghost given: set<nat>) returns (ghost given': set<nat>)
      requires netlist.Valid() && ViewOk(v) && v.modules == modules && v.ports == ports && m < |modules|
      requires modules[m].parent == None
      requires TriggeredBy(v.net, netlist.State(), given)
      requires forall r: nat :: r in given <==> Inner(v, m, r) && !Boundary(v, m, r)
      modifies netlist, netlist.equiv`parent
      ensures netlist.Valid() && TriggeredBy(v.net, netlist.State(), given')
      ensures forall r: nat :: r in given' <==> Targets(v, m, r)
    {
      var mod := modules[m];
      assert ModuleOk(v, m);
      ghost var mid := SealSegment(mod.inFirst, mod.inCount, [], v.net, given);
      given' := SealSegment(mod.outFirst, mod.outCount, [], v.net, mid);
      forall r: nat
        ensures r in given' <==> Targets(v, m, r)
      {
        if Boundary(v, m, r) {
          var q: nat :| OwnedBy(v, q, m) && v.net.root[q] == r;
          OwnedIsInSegment(v, q, m);
        }
        if r in given' && r !in given {
          var p :| 0 <= p < |v.ports| && v.net.root[p] == r && (InSegment(mod, p) || OutSegment(mod, p));
          OwnedIsInSegment(v, p, m);
        }
      }
    }

    lemma OnlyTriggers(v: View)
      requires ViewOk(v) && v.modules == modules && v.ports == ports && |children| == |modules| && netlist.Valid()
      requires netlist.State().root == v.net.root
      requires forall m, c: nat :: 0 <= m < |modules| ==> (c in children[m] <==> ChildOf(v, c, m))
      ensures Valid()
    {
      forall m | 0 <= m < |modules|
        ensures ModuleOk(State(), m)
      {
        assert ModuleOk(v, m);
      }
      forall p | 0 <= p < |ports|
        ensures PortOk(State(), p)
      {
        assert PortOk(v, p);
      }
      KeepsChildren(v);
    }
  }

  // Freezing visits the modules from the last to the first; those from k on are done.
  ghost predicate Freezing(v0: View, v: View, k: nat)
    requires ViewOk(v0)
  {
    && ViewOk(v) && |v.modules| == |v0.modules| && v.ports == v0.ports && v.net.root == v0.net.root
    && v.net.driver == v0.net.driver
    && (forall m :: 0 <= m < |v0.modules| ==>
          v.modules[m] == v0.modules[m].(isSealed := v0.modules[m].isSealed || m >= k))
    && (forall r :: 0 <= r < |v0.net.trig| && v0.net.trig[r].Some? ==> v.net.trig[r] == v0.net.trig[r])
    && (forall r :: 0 <= r < |v0.net.trig| && v0.net.trig[r] == None ==> (v.net.trig[r].Some? <==> GivenFrom(v0, k, r)))
  }

  ghost predicate GivenFrom(v: View, k: nat, r: nat)
    requires |v.ports| == |v.net.root|
  {
    exists m :: k <= m < |v.modules| && !IsSealed(v, m) && Targets(v, m, r)
  }

  lemma FreezeStep(v0: View, v: View, v': View, k: nat)
    requires ViewOk(v0) && Freezing(v0, v, k + 1) && k < |v0.modules| && !IsSealed(v0, k) && SealedBy(v, v', k)
    ensures Freezing(v0, v', k)
  {
    SealKeepsView(v, v', k);
    forall r: nat
      ensures GivenFrom(v0, k, r) <==> GivenFrom(v0, k + 1, r) || Targets(v, k, r)
    {
      TargetsIgnoreSeals(v0, v, k, r);
    }
  }

  lemma FreezeSkips(v0: View, v: View, k: nat)
    requires ViewOk(v0) && Freezing(v0, v, k + 1) && k < |v0.modules| && IsSealed(v0, k)
    ensures Freezing(v0, v, k)
  {
    forall r: nat
      ensures GivenFrom(v0, k, r) <==> GivenFrom(v0, k + 1, r)
    {
    }
  }

  lemma FreezeBegins(v: View)
    requires ViewOk(v)
    ensures Freezing(v, v, |v.modules|)
  {
    assert forall r: nat :: !GivenFrom(v, |v.modules|, r);
  }

  // The modules after k are sealed, so the children of k are.
  lemma FreezeShows(v0: View, v: View, k: nat)
    requires ViewOk(v0) && Freezing(v0, v, k) && 0 < k <= |v0.modules|
    ensures IsSealed(v, k - 1) <==> IsSealed(v0, k - 1)
    ensures forall c: nat :: ChildOf(v, c, k - 1) ==> IsSealed(v, c)
  {
    forall c: nat | ChildOf(v, c, k - 1)
      ensures IsSealed(v, c)
    {
      assert ModuleOk(v, c);
    }
  }

  lemma FreezeEnds(v0: View, v: View)
    requires ViewOk(v0) && Freezing(v0, v, 0)
    ensures v.ports == v0.ports && v.net.root == v0.net.root
  {
  }

  lemma FrozenTriggers(v0: View, v: View, p: nat)
    requires ViewOk(v0) && Freezing(v0, v, 0) && p < |v0.ports|
    ensures Triggered(v.net, p) <==> Triggered(v0.net, p) || Assignable(v0, v0.net.root[p])
  {
    assert GivenFrom(v0, 0, v0.net.root[p]) <==> Assignable(v0, v0.net.root[p]);
  }

  // Every trigger lookup that succeeds separates nets and nothing else.
  predicate OneTriggerPerNet(n: Net, triggers: seq<nat>)
    requires NetOk(n)
  {
    |triggers| == |n.root| && forall p, q :: 0 <= p < |triggers| && 0 <= q < |triggers| ==>
      (triggers[p] == triggers[q] <==> SameNet(n, p, q))
  }

  lemma LookupSeparates(n: Net, triggers: seq<nat>)
    requires NetOk(n) && |triggers| == |n.root|
    requires forall p :: 0 <= p < |triggers| ==> Some(triggers[p]) == n.trig[n.root[p]]
    ensures OneTriggerPerNet(n, triggers)
  {
  }

  lemma NothingGiven(n: Net)
    requires NetOk(n)
    ensures TriggeredBy(n, n, {})
  {
  }
}
