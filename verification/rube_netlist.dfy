// Nets of connected ports, and the trigger each net is given.

module RubeNetlist {
  import opened Prelude
  import opened SiloDisjointSet

  // A port index with its direction bit.
  datatype PortId = In(index: nat) | Out(index: nat)

  datatype Net = Net(root: seq<nat>, driver: seq<Option<PortId>>, trig: seq<Option<nat>>, next: nat)

  predicate NetOk(n: Net) {
    && |n.root| == |n.driver| == |n.trig| && Rooted(n.root)
    && (forall i :: 0 <= i < |n.trig| && n.trig[i].Some? ==> n.trig[i].value < n.next)
    && (forall i, j :: 0 <= i < |n.trig| && 0 <= j < |n.trig| && i != j && n.trig[i].Some? && n.trig[j].Some? ==>
          n.trig[i] != n.trig[j])
    && (forall i :: 0 <= i < |n.driver| && n.driver[i].Some? ==> n.driver[i].value.index < |n.driver|)
  }

  predicate SameNet(n: Net, p: nat, q: nat)
    requires p < |n.root| && q < |n.root|
  {
    n.root[p] == n.root[q]
  }

  predicate Triggered(n: Net, p: nat)
    requires NetOk(n) && p < |n.root|
  {
    n.trig[n.root[p]].Some?
  }

  function Grown(n: Net, count: nat): Net {
    Net(n.root + seq(count, i requires 0 <= i < count => |n.root| + i),
        n.driver + seq(count, i requires 0 <= i < count => None),
        n.trig + seq(count, i requires 0 <= i < count => None), n.next)
  }

  predicate Accepts(n: Net, d: PortId, s: PortId)
    requires s.index < |n.driver|
  {
    n.driver[s.index] == None || n.driver[s.index] == Some(d)
  }

  function Joined(n: Net, d: PortId, s: PortId, w: nat): Net
    requires d.index < |n.root| && s.index < |n.root| == |n.driver|
  {
    n.(driver := n.driver[s.index := Some(d)], root := Merge(n.root, n.root[d.index], n.root[s.index], w))
  }

  function Assigned(n: Net, r: nat): Net
    requires r < |n.trig|
  {
    if n.trig[r].Some? then n else n.(trig := n.trig[r := Some(n.next)], next := n.next + 1)
  }

  lemma GrownIsOk(n: Net, count: nat)
    requires NetOk(n)
    ensures NetOk(Grown(n, count))
    ensures forall p :: |n.root| <= p < |n.root| + count ==> Grown(n, count).root[p] == p
  {
    var g := Grown(n, count);
    forall i | 0 <= i < |g.root|
      ensures g.root[i] < |g.root| && g.root[g.root[i]] == g.root[i]
    {
    }
  }

  lemma JoinedIsOk(n: Net, d: PortId, s: PortId, w: nat)
    requires NetOk(n) && d.index < |n.root| && s.index < |n.root| && (w == n.root[d.index] || w == n.root[s.index])
    ensures NetOk(Joined(n, d, s, w))
  {
    MergeJoins(n.root, d.index, s.index, w, d.index, d.index);
  }

  class Netlist {
    const equiv: DisjointSet
    var driver: seq<Option<PortId>>
    var rootTrigger: seq<Option<nat>>
    var nextTriggerId: nat

    ghost function State(): Net
      reads this, equiv
    {
      Net(equiv.root, driver, rootTrigger, nextTriggerId)
    }

    ghost predicate Valid()
      reads this, equiv
    {
      equiv.Valid() && NetOk(State())
    }

    constructor ()
      ensures Valid() && fresh(equiv) && State() == Net([], [], [], 0)
    {
      equiv := new DisjointSet();
      driver, rootTrigger, nextTriggerId := [], [], 0;
    }

    method Grow(count: nat)
      requires Valid()
      modifies this, equiv
      ensures Valid() && State() == Grown(old(State()), count)
    {
      GrownIsOk(State(), count);
      equiv.Grow(count);
      for i := 0 to count
        invariant driver == old(driver) + seq(i, k requires 0 <= k < i => None)
        invariant rootTrigger == old(rootTrigger) + seq(i, k requires 0 <= k < i => None)
        invariant nextTriggerId == old(nextTriggerId) && equiv.Valid() && equiv.root == Grown(old(State()), count).root
      {
        driver, rootTrigger := driver + [None], rootTrigger + [None];
      }
      assert State() == Grown(old(State()), count);
    }

    // Join the nets of driver and sink, unless the sink already has another driver.
    method Connect(drv: PortId, sink: PortId) returns (ok: bool, ghost winner: nat)
      requires Valid() && drv.index < |driver| && sink.index < |driver|
      modifies this, equiv
      ensures Valid() && ok == Accepts(old(State()), drv, sink)
      ensures !ok ==> State() == old(State())
      ensures ok ==>
        && (winner == old(State()).root[drv.index] || winner == old(State()).root[sink.index])
        && State() == Joined(old(State()), drv, sink, winner)
    {
      var existing := driver[sink.index];
      if existing.Some? && existing.value != drv {
        return false, 0;
      }
      driver := driver[sink.index := Some(drv)];
      var r := equiv.Union(drv.index, sink.index);
      winner := r;
      ok := true;
      JoinedIsOk(old(State()), drv, sink, winner);
    }

    method FindRoot(port: nat) returns (r: nat)
      requires Valid() && port < |driver|
      modifies equiv`parent
      ensures Valid() && State() == old(State()) && r == State().root[port]
    {
      r := equiv.Find(port);
    }

    method HasTrigger(port: nat) returns (has: bool)
      requires Valid() && port < |driver|
      modifies equiv`parent
      ensures Valid() && State() == old(State()) && has == Triggered(State(), port)
    {
      var r := FindRoot(port);
      has := rootTrigger[r].Some?;
    }

    // The first caller for a net gives it the next trigger id; later callers find it assigned.
    method AssignTrigger(rootIdx: nat)
      requires Valid() && rootIdx < |driver|
      modifies this, equiv`parent
      ensures Valid() && State() == Assigned(old(State()), old(State()).root[rootIdx])
    {
      var r := FindRoot(rootIdx);
      if rootTrigger[r] == None {
        rootTrigger := rootTrigger[r := Some(nextTriggerId)];
        nextTriggerId := nextTriggerId + 1;
      }
    }

    // Fails, as the source panics, when some port has no trigger.
    method BuildPortToTrigger() returns (ok: bool, triggers: seq<nat>)
      requires Valid()
      modifies equiv`parent
      ensures Valid() && State() == old(State())
      ensures ok <==> forall p :: 0 <= p < |driver| ==> Triggered(State(), p)
      ensures ok ==> |triggers| == |driver| && forall p :: 0 <= p < |driver| ==>
        Some(triggers[p]) == State().trig[State().root[p]]
    {
      triggers := [];
      for p := 0 to |driver|
        invariant Valid() && State() == old(State()) && |triggers| == p
        invariant forall q :: 0 <= q < p ==> Some(triggers[q]) == State().trig[State().root[q]]
      {
        var r := FindRoot(p);
        if rootTrigger[r] == None {
          assert !Triggered(State(), p);
          return false, [];
        }
        triggers := triggers + [rootTrigger[r].value];
      }
      ok := true;
    }
  }
}
