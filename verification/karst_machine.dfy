// The fabric object: posting, popping and cycling, with the history of its run kept beside it.

module KarstMachine {
  import opened Prelude
  import opened KarstAddress
  import opened KarstLink
  import opened KarstQueue
  import opened KarstSwitch
  import opened KarstDie
  import opened KarstEndpoint
  import opened KarstTopology
  import opened KarstTransport

  // The registered signals of all hosts, one sequence per wire.
  datatype HostSignals = HostSignals(
    l0Valid: seq<bool>,
    l0Data: seq<Flit>,
    l0Ready: seq<bool>,
    l1Valid: seq<bool>,
    l1Data: seq<Flit>,
    l1Ready: seq<bool>)

  predicate SignalsOf(s: HostSignals, hosts: seq<Host>) {
    && |s.l0Valid| == |s.l0Data| == |s.l0Ready| == |s.l1Valid| == |s.l1Data| == |s.l1Ready| == |hosts|
    && forall h :: 0 <= h < |hosts| ==>
         && s.l0Valid[h] == hosts[h].l0Valid && s.l0Data[h] == hosts[h].l0Data && s.l0Ready[h] == hosts[h].l0Ready
         && s.l1Valid[h] == hosts[h].l1Valid && s.l1Data[h] == hosts[h].l1Data && s.l1Ready[h] == hosts[h].l1Ready
  }

  // The ten inputs of a die: its own hosts' first links, the other hosts' second links, the inter-die pair.
  function Gather<T>(die: nat, l0: seq<T>, l1: seq<T>, other: seq<T>): seq<T>
    requires |l0| == |l1| == HOSTS && |other| == KL_PORTS
  {
    (if die == 0 then l0[..HOSTS_PER_DIE] + l1[HOSTS_PER_DIE..] else l0[HOSTS_PER_DIE..] + l1[..HOSTS_PER_DIE])
    + other[INTERDIE_PORT..]
  }

  lemma Gathered<T>(die: nat, l0: seq<T>, l1: seq<T>, other: seq<T>, p: nat)
    requires |l0| == |l1| == HOSTS && |other| == KL_PORTS && die < DIES && p < KL_PORTS
    ensures |Gather(die, l0, l1, other)| == KL_PORTS
    ensures Gather(die, l0, l1, other)[p] ==
      if p < HOSTS_PER_DIE then l0[HostAt(die, p)] else if p < HOSTS then l1[HostAt(die, p)] else other[p]
  {
  }

  // Slicing the sampled wires delivers to every port the wire it is connected to.
  lemma GatheredInputs(f: Fabric, s: HostSignals, die: nat)
    requires FabricShape(f) && SignalsOf(s, f.hosts) && die < DIES
    ensures var other := f.dies[1 - die].noc;
            DieInputsOf(f, die) == DieInputs(
              Gather(die, s.l0Valid, s.l1Valid, other.txValid),
              Gather(die, s.l0Data, s.l1Data, other.txData),
              Gather(die, s.l0Ready, s.l1Ready, other.rxReady))
  {
    hide Gather, HostOk, HostAt;
    var other := f.dies[1 - die].noc;
    Gathered(die, s.l0Valid, s.l1Valid, other.txValid, 0);
    Gathered(die, s.l0Data, s.l1Data, other.txData, 0);
    Gathered(die, s.l0Ready, s.l1Ready, other.rxReady, 0);
    forall p | 0 <= p < KL_PORTS
      ensures LinkValid(f, die, p) == Gather(die, s.l0Valid, s.l1Valid, other.txValid)[p]
      ensures LinkData(f, die, p) == Gather(die, s.l0Data, s.l1Data, other.txData)[p]
      ensures LinkReady(f, die, p) == Gather(die, s.l0Ready, s.l1Ready, other.rxReady)[p]
    {
      Gathered(die, s.l0Valid, s.l1Valid, other.txValid, p);
      Gathered(die, s.l0Data, s.l1Data, other.txData, p);
      Gathered(die, s.l0Ready, s.l1Ready, other.rxReady, p);
    }
    var i := DieInputsOf(f, die);
    assert i.valid == Gather(die, s.l0Valid, s.l1Valid, other.txValid);
    assert i.data == Gather(die, s.l0Data, s.l1Data, other.txData);
    assert i.ready == Gather(die, s.l0Ready, s.l1Ready, other.rxReady);
  }

  // The registered link signals of one crossbar.
  datatype NocSignals = NocSignals(rxReady: seq<bool>, txValid: seq<bool>, txData: seq<Flit>)

  function NocSignalsOf(n: Noc): NocSignals {
    NocSignals(n.rxReady, n.txValid, n.txData)
  }

  datatype PostReply = InvalidHost | Reply(result: PostResult)

  // Transaction t waits at its host, and counts as posted; nothing else is different.
  function WithPosted(s: Sys, host: nat, t: Txn): Sys
    requires SysShape(s) && host < HOSTS
  {
    var h := s.f.hosts[host];
    Sys(s.f.(hosts := s.f.hosts[host := h.(tx := h.tx + [t])]),
        s.hist.(posted := s.hist.posted[host := s.hist.posted[host] + [t]]))
  }

  // What a post does to a run.
  lemma PostIsAccepted(s: Sys, init: seq<seq<Memory>>, host: nat, t: Txn)
    requires |init| == DIES && |init[0]| == |init[1]| == MC_PORTS && Inv(s, init)
    ensures Step(s, Post(host, t)) ==
      if host < HOSTS && Mapped(t.addr) && |s.f.hosts[host].tx| < STAGING then WithPosted(s, host, t) else s
  {
    hide PostOutcome, PostTxn;
    if host < HOSTS {
      assert HostOk(s.f.hosts[host]);
      PostIsAnswered(s.f.hosts[host], t);
    }
  }

  method NewHosts() returns (hosts: seq<KarstHostNode>)
    ensures |hosts| == HOSTS && fresh(hosts)
    ensures forall i, j :: 0 <= i < j < HOSTS ==> hosts[i] != hosts[j]
    ensures forall h :: 0 <= h < HOSTS ==> hosts[h].State() == NewHost(h)
  {
    hosts := [];
    for id := 0 to HOSTS
      invariant |hosts| == id && fresh(hosts)
      invariant forall i, j :: 0 <= i < j < id ==> hosts[i] != hosts[j]
      invariant forall h :: 0 <= h < id ==> hosts[h].State() == NewHost(h)
    {
      var host := new KarstHostNode(id);
      hosts := hosts + [host];
    }
  }

  class KarstFabric {
    const hosts: seq<KarstHostNode>
    const fabric0: KarstFabricNode
    const fabric1: KarstFabricNode
    var cycleCount: nat
    ghost var hist: History
    ghost const init: seq<seq<Memory>>

    ghost predicate Wired() {
      && |hosts| == HOSTS
      && (forall i, j :: 0 <= i < j < HOSTS ==> hosts[i] != hosts[j])
      && fabric0.Wired() && fabric1.Wired() && fabric0.Repr !! fabric1.Repr
      && (forall h :: 0 <= h < HOSTS ==> hosts[h] !in fabric0.Repr && hosts[h] !in fabric1.Repr)
      && this !in fabric0.Repr && this !in fabric1.Repr
    }

    ghost function HostStates(): (states: seq<Host>)
      requires |hosts| == HOSTS
      reads hosts
    {
      seq(HOSTS, h requires 0 <= h < |hosts| reads hosts => hosts[h].State())
    }

    ghost function State(): Sys
      requires Wired()
      reads this, hosts, fabric0.Repr, fabric1.Repr
    {
      Sys(Fabric(HostStates(), [fabric0.State(), fabric1.State()]), hist)
    }

    // Every reachable object state conserves all traffic.
    ghost predicate Valid()
      reads this, hosts, fabric0.Repr, fabric1.Repr
    {
      && Wired()
      && |init| == DIES && |init[0]| == |init[1]| == MC_PORTS
      && Inv(State(), init)
    }

    lemma PartsAreValid()
      requires Valid()
      ensures SysShape(State()) && fabric0.Valid() && fabric1.Valid()
      ensures forall h :: 0 <= h < HOSTS ==> hosts[h].Valid()
    {
      assert DieShape(State().f.dies[0]) && DieShape(State().f.dies[1]);
      assert forall h :: 0 <= h < HOSTS ==> State().f.hosts[h] == hosts[h].State();
    }

    constructor (mem: seq<seq<Memory>>)
      requires |mem| == DIES && |mem[0]| == |mem[1]| == MC_PORTS
      ensures Valid() && fresh(hosts) && fresh(fabric0.Repr) && fresh(fabric1.Repr) && init == mem
      ensures State() == Start(mem) && cycleCount == 0
    {
      var nodes := NewHosts();
      var d0 := new KarstFabricNode(0, mem[0]);
      var d1 := new KarstFabricNode(1, mem[1]);
      hosts, fabric0, fabric1, cycleCount := nodes, d0, d1, 0;
      init, hist := mem, Start(mem).hist;
      new;
      hide Inv, NewHost, NewDie, SysShape, KarstFabricNode.Valid, KarstHostNode.Valid, HostStates;
      StartHasInv(mem);
      assert HostStates() == NewFabric(mem).hosts;
      assert State() == Start(mem);
      assert Wired();
    }

    method PostOn(h: nat, t: Txn) returns (result: PostResult)
      requires Wired() && h < HOSTS && hosts[h].Valid()
      modifies hosts[h]
      ensures HostStates() == old(HostStates())[h := PostTxn(old(HostStates())[h], t)]
      ensures result == PostOutcome(old(HostStates())[h], t) && RepliesTo(result, t.addr, |old(HostStates())[h].tx|)
      ensures result != Posted ==> HostStates() == old(HostStates())
    {
      hide PostOutcome;
      result := hosts[h].Post(t);
      assert forall i :: 0 <= i < HOSTS && i != h ==> hosts[i] != hosts[h];
    }

    method TryPost(host: nat, t: Txn) returns (reply: PostReply)
      requires Valid()
      modifies this, hosts
      ensures Valid() && cycleCount == old(cycleCount)
      ensures State() == Step(old(State()), Post(host, t))
      ensures reply.InvalidHost? <==> host >= HOSTS
      ensures reply.Reply? ==> RepliesTo(reply.result, t.addr, |old(State()).f.hosts[host].tx|)
      ensures State() == if reply == Reply(Posted) then WithPosted(old(State()), host, t) else old(State())
    {
      hide Inv, PostTxn, PostOutcome, FabricShape, KarstHostNode.State, KarstHostNode.Valid, KarstFabricNode.State;
      ghost var before := State();
      PartsAreValid();
      PostKeepsInv(before, init, host, t);
      if host < HOSTS {
        var result := PostOn(host, t);
        reply := Reply(result);
        if result == Posted {
          hist := hist.(posted := hist.posted[host := hist.posted[host] + [t]]);
        }
      } else {
        reply := InvalidHost;
      }
      assert State() == Step(before, Post(host, t));
      PostIsAccepted(before, init, host, t);
    }

    method TryPostHostWrite(host: nat, addr: U32, data: U32) returns (reply: PostReply)
      requires Valid()
      modifies this, hosts
      ensures Valid() && cycleCount == old(cycleCount)
      ensures State() == Step(old(State()), Post(host, Txn(addr, data, true)))
      ensures reply.InvalidHost? <==> host >= HOSTS
      ensures reply.Reply? ==> RepliesTo(reply.result, addr, |old(State()).f.hosts[host].tx|)
      ensures State()
        == if reply == Reply(Posted) then WithPosted(old(State()), host, Txn(addr, data, true)) else old(State())
    {
      reply := TryPost(host, Txn(addr, data, true));
    }

    method TryPostHostRead(host: nat, addr: U32) returns (reply: PostReply)
      requires Valid()
      modifies this, hosts
      ensures Valid() && cycleCount == old(cycleCount)
      ensures State() == Step(old(State()), Post(host, Txn(addr, 0, false)))
      ensures reply.InvalidHost? <==> host >= HOSTS
      ensures reply.Reply? ==> RepliesTo(reply.result, addr, |old(State()).f.hosts[host].tx|)
      ensures State()
        == if reply == Reply(Posted) then WithPosted(old(State()), host, Txn(addr, 0, false)) else old(State())
    {
      reply := TryPost(host, Txn(addr, 0, false));
    }

    method PopOn(h: nat) returns (out: Option<HostResponse>)
      requires Wired() && h < HOSTS && hosts[h].Valid()
      modifies hosts[h]
      ensures HostStates() == old(HostStates())[h := PopOne(old(HostStates())[h])]
      ensures out == if old(hosts[h].rxQueue) == [] then None else Some(old(hosts[h].rxQueue)[0])
    {
      hide PopOne;
      out := hosts[h].PopResponse();
      assert forall i :: 0 <= i < HOSTS && i != h ==> hosts[i] != hosts[h];
    }

    method PopHostResponse(host: nat) returns (out: Option<HostResponse>)
      requires Valid()
      modifies this, hosts
      ensures Valid() && cycleCount == old(cycleCount)
      ensures State() == Step(old(State()), TakeResponse(host))
      ensures out.Some? ==> host < HOSTS && old(State()).hist.popped[host] + [out.value] == State().hist.popped[host]
      ensures out.None? ==> State() == old(State())
    {
      hide Inv, FabricShape, PostOutcome, PostTxn, Ticked, KarstHostNode.Valid, KarstFabricNode.Valid;
      ghost var before := State();
      PartsAreValid();
      TakeKeepsInv(before, init, host);
      out := None;
      if host < HOSTS {
        assert before.f.hosts[host].rx == hosts[host].rxQueue;
        out := PopOn(host);
        if out.Some? {
          hist := hist.(popped := hist.popped[host := hist.popped[host] + [out.value]]);
        } else {
          assert PopOne(before.f.hosts[host]) == before.f.hosts[host];
          assert HostStates() == before.f.hosts;
        }
      }
      assert State() == Step(before, TakeResponse(host));
    }

    method SampleHosts() returns (s: HostSignals)
      requires |hosts| == HOSTS
      ensures SignalsOf(s, HostStates())
    {
      var l0Valid, l0Data, l0Ready, l1Valid, l1Data, l1Ready := [], [], [], [], [], [];
      for h := 0 to HOSTS
        invariant SignalsOf(HostSignals(l0Valid, l0Data, l0Ready, l1Valid, l1Data, l1Ready), HostStates()[..h])
      {
        l0Valid, l0Data, l0Ready := l0Valid + [hosts[h].l0TxValid], l0Data + [hosts[h].l0TxData],
          l0Ready + [hosts[h].l0RxReady];
        l1Valid, l1Data, l1Ready := l1Valid + [hosts[h].l1TxValid], l1Data + [hosts[h].l1TxData],
          l1Ready + [hosts[h].l1RxReady];
      }
      assert HostStates()[..HOSTS] == HostStates();
      s := HostSignals(l0Valid, l0Data, l0Ready, l1Valid, l1Data, l1Ready);
    }

    method StepHost(h: nat, i: HostInputs)
      requires Wired() && h < HOSTS && hosts[h].Valid()
      modifies hosts[h]
      ensures HostStates() == old(HostStates())[h := HostStep(old(HostStates())[h], i)]
    {
      hide HostStep;
      hosts[h].Step(i);
      assert forall i :: 0 <= i < HOSTS && i != h ==> hosts[i] != hosts[h];
    }

    method StepNextHost(h: nat, i: HostInputs, ghost f: Fabric)
      requires Wired() && FabricShape(f) && h < HOSTS && i == HostInputsOf(f, h)
      requires HostStates() == StepHosts(f)[..h] + f.hosts[h..]
      modifies hosts[h]
      ensures HostStates() == StepHosts(f)[..h + 1] + f.hosts[h + 1..]
    {
      hide HostStep, HostInputsOf, DieShape;
      assert HostStates()[h] == hosts[h].State() == f.hosts[h];
      StepHost(h, i);
      Splice(StepHosts(f), f.hosts, h);
    }

    // Hosts 0..3 reach die 0 over their first link, hosts 4..7 reach die 1 over theirs.
    method StepAllHosts(n0: NocSignals, n1: NocSignals, ghost f: Fabric)
      requires Wired() && FabricShape(f) && HostStates() == f.hosts
      requires n0 == NocSignalsOf(f.dies[0].noc) && n1 == NocSignalsOf(f.dies[1].noc)
      modifies hosts
      ensures HostStates() == StepHosts(f)
    {
      hide HostOk, StepHosts, HostStep;
      for h := 0 to HOSTS_PER_DIE
        invariant HostStates() == StepHosts(f)[..h] + f.hosts[h..]
      {
        var p := HOSTS_PER_DIE + h;
        StepNextHost(h, HostInputs(n0.rxReady[h], n0.txValid[h], n0.txData[h], n1.rxReady[p],
          n1.txValid[p], n1.txData[p]), f);
      }
      for h := HOSTS_PER_DIE to HOSTS
        invariant HostStates() == StepHosts(f)[..h] + f.hosts[h..]
      {
        var p := h - HOSTS_PER_DIE;
        StepNextHost(h, HostInputs(n1.rxReady[p], n1.txValid[p], n1.txData[p], n0.rxReady[h],
          n0.txValid[h], n0.txData[h]), f);
      }
    }

    method PrepareCycleInputs() returns (in0: DieInputs, in1: DieInputs)
      requires Wired() && FabricShape(State().f)
      modifies hosts
      ensures HostStates() == StepHosts(old(State()).f)
      ensures in0 == DieInputsOf(old(State()).f, 0) && in1 == DieInputsOf(old(State()).f, 1)
    {
      hide Gather, HostStep, SignalsOf;
      ghost var f := State().f;
      var n0 := NocSignals(fabric0.noc.klRxReadyOut, fabric0.noc.klTxValidOut, fabric0.noc.klTxDataOut);
      var n1 := NocSignals(fabric1.noc.klRxReadyOut, fabric1.noc.klTxValidOut, fabric1.noc.klTxDataOut);
      var s := SampleHosts();
      StepAllHosts(n0, n1, f);
      GatheredInputs(f, s, 0);
      GatheredInputs(f, s, 1);
      in0 := DieInputs(Gather(0, s.l0Valid, s.l1Valid, n1.txValid), Gather(0, s.l0Data, s.l1Data, n1.txData),
                       Gather(0, s.l0Ready, s.l1Ready, n1.rxReady));
      in1 := DieInputs(Gather(1, s.l0Valid, s.l1Valid, n0.txValid), Gather(1, s.l0Data, s.l1Data, n0.txData),
                       Gather(1, s.l0Ready, s.l1Ready, n0.rxReady));
    }

    // The two dies share nothing within a cycle, so either may be stepped first.
    method StepDies(in0: DieInputs, in1: DieInputs)
      requires Wired() && fabric0.Valid() && fabric1.Valid()
      requires |in0.valid| == |in0.data| == |in0.ready| == |in1.valid| == |in1.data| == |in1.ready| == KL_PORTS
      modifies fabric0.Repr, fabric1.Repr
      ensures fabric0.State() == DieStep(old(fabric0.State()), in0.valid, in0.data, in0.ready)
      ensures fabric1.State() == DieStep(old(fabric1.State()), in1.valid, in1.data, in1.ready)
    {
      hide DieStep;
      if * {
        fabric0.Step(in0.valid, in0.data, in0.ready);
        fabric1.Step(in1.valid, in1.data, in1.ready);
      } else {
        fabric1.Step(in1.valid, in1.data, in1.ready);
        fabric0.Step(in0.valid, in0.data, in0.ready);
      }
    }

    method StepCycle()
      requires Valid()
      modifies this, hosts, fabric0.Repr, fabric1.Repr
      ensures Valid() && cycleCount == old(cycleCount) + 1
      ensures State() == Step(old(State()), Tick)
    {
      hide Inv, DieStep, StepHosts;
      ghost var before := State();
      PartsAreValid();
      TickKeepsInv(before, init);
      var in0, in1 := PrepareCycleInputs();
      StepDies(in0, in1);
      cycleCount := cycleCount + 1;
      hist := Record(before);
      assert State() == Step(before, Tick);
    }

    method Advance(ticks: nat) returns (cycles: nat)
      requires Valid()
      modifies this, hosts, fabric0.Repr, fabric1.Repr
      ensures Valid() && cycles == cycleCount == old(cycleCount) + ticks
      ensures SysShape(old(State())) && State() == Ticks(old(State()), ticks)
    {
      hide Inv, Ticked;
      PartsAreValid();
      for t := 0 to ticks
        invariant Valid() && cycleCount == old(cycleCount) + t
        invariant State() == Ticks(old(State()), t)
      {
        StepCycle();
      }
      cycles := cycleCount;
    }
  }

  function Ticks(s: Sys, n: nat): (r: Sys)
    requires SysShape(s)
    ensures SysShape(r)
  {
    if n == 0 then s else Step(Ticks(s, n - 1), Tick)
  }
}
