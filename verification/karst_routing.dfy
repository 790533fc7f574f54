// Which flits may sit in which queue, and that every cycle keeps it so.

module KarstRouting {
  import opened KarstAddress
  import opened KarstLink
  import opened KarstPipes
  import opened KarstSwitch
  import opened KarstDie
  import opened KarstEndpoint
  import opened KarstTopology

  // A request waiting at the ingress of the link of `host` on `die`.
  predicate Ingress(q: seq<Flit>, die: nat, host: nat) {
    forall f :: f in q ==> f.src == host && DieOf(f.addr) == die && Mapped(f.addr)
  }

  // A response waiting to leave on the link of `host`; no host request ever produces a fault.
  predicate Egress(q: seq<Flit>, die: nat, host: nat) {
    forall f :: f in q ==> f.src == host && DieOf(f.addr) == die && Mapped(f.addr) && !f.isWrite
  }

  predicate Requests(q: seq<Flit>, die: nat, mc: nat) {
    forall f :: f in q ==> f.src < HOSTS && DieOf(f.addr) == die && McOf(f.addr) == mc && Mapped(f.addr)
  }

  predicate Responses(q: seq<Flit>, die: nat, mc: nat) {
    forall f :: f in q ==>
      f.src < HOSTS && DieOf(f.addr) == die && McOf(f.addr) == mc && Mapped(f.addr) && !f.isWrite
  }

  predicate MappedTxns(q: seq<Txn>) {
    forall t :: t in q ==> Mapped(t.addr)
  }

  predicate Bounded<T>(qs: seq<seq<T>>) {
    forall i :: 0 <= i < |qs| ==> |qs[i]| <= QUEUE
  }

  // The queues of a crossbar; the inter-die ports 8 and 9 are never used by host traffic.
  predicate NocRouted(n: Noc) {
    && Shape(n)
    && Bounded(n.klRx) && Bounded(n.klTx) && Bounded(n.mcReq) && Bounded(n.mcResp)
    && (forall p :: 0 <= p < HOSTS ==> Ingress(n.klRx[p], n.die, HostAt(n.die, p)))
    && (forall p :: 0 <= p < HOSTS ==> Egress(n.klTx[p], n.die, HostAt(n.die, p)))
    && (forall p :: HOSTS <= p < KL_PORTS ==> n.klRx[p] == [] && n.klTx[p] == [])
    && (forall m :: 0 <= m < MC_PORTS ==> Requests(n.mcReq[m], n.die, m))
    && (forall m :: 0 <= m < MC_PORTS ==> Responses(n.mcResp[m], n.die, m))
  }

  predicate DieRouted(d: Die, die: nat) {
    && DieShape(d) && d.noc.die == die
    && NocRouted(d.noc) && Registered(d.noc)
    && (forall m :: 0 <= m < MC_PORTS ==> PipeOk(d.pipes[m]) && Requests(d.pipes[m].fifo, die, m))
    && (forall m :: 0 <= m < MC_PORTS ==> Responses(d.staging[m], die, m))
    && (forall m :: 0 <= m < MC_PORTS && d.lastAccepted[m] ==> d.staging[m] != [])
  }

  predicate HostRouted(h: Host, id: nat) {
    h.id == id && HostOk(h) && MappedTxns(h.active) && MappedTxns(h.tx)
  }

  predicate Routed(f: Fabric) {
    && FabricShape(f)
    && (forall h :: 0 <= h < HOSTS ==> HostRouted(f.hosts[h], h))
    && (forall d :: 0 <= d < DIES ==> DieRouted(f.dies[d], d))
  }

  lemma RoutePortKeeps(n: Noc, t: nat)
    requires NocRouted(n) && t < KL_PORTS
    ensures NocRouted(RoutePort(n, t))
  {
    var r := RoutePort(n, t);
    if n.klRx[t] != [] {
      var flit := n.klRx[t][0];
      var mc := McOf(flit.addr);
      assert flit in n.klRx[t];
      assert forall p :: 0 <= p < KL_PORTS && p != t ==> r.klRx[p] == n.klRx[p];
      assert forall m :: 0 <= m < MC_PORTS && m != mc ==> r.mcReq[m] == n.mcReq[m];
    }
  }

  lemma RoutePortsKeep(n: Noc, count: nat)
    requires NocRouted(n) && count <= KL_PORTS
    ensures NocRouted(RoutePorts(n, count))
  {
    hide RoutePort;
    if count > 0 {
      RoutePortsKeep(n, count - 1);
      RoutePortKeeps(RoutePorts(n, count - 1), count - 1);
    }
  }

  // A response leaves on the port wired to the host named in its source field.
  lemma ResponseFindsItsHost(die: nat, src: nat)
    requires die < DIES && src < HOSTS
    ensures TargetPort(die, src) == PortOf(die, src)
    ensures HostAt(die, TargetPort(die, src)) == src
  {
  }

  lemma RouteResponseKeeps(n: Noc, m: nat)
    requires NocRouted(n) && m < MC_PORTS
    ensures NocRouted(RouteResponse(n, m))
  {
    var r := RouteResponse(n, m);
    if n.mcResp[m] != [] {
      var flit := n.mcResp[m][0];
      assert flit in n.mcResp[m];
      ResponseFindsItsHost(n.die, flit.src);
      var port := TargetPort(n.die, flit.src);
      assert forall p :: 0 <= p < KL_PORTS && p != port ==> r.klTx[p] == n.klTx[p];
      assert forall i :: 0 <= i < MC_PORTS && i != m ==> r.mcResp[i] == n.mcResp[i];
    }
  }

  lemma RouteResponsesKeep(n: Noc, count: nat)
    requires NocRouted(n) && count <= MC_PORTS
    ensures NocRouted(RouteResponses(n, count))
  {
    hide RouteResponse;
    if count > 0 {
      RouteResponsesKeep(n, count - 1);
      RouteResponseKeeps(RouteResponses(n, count - 1), count - 1);
    }
  }

  predicate InputsRouted(i: NocInputs, die: nat) {
    && InputShape(i)
    && (forall p :: 0 <= p < HOSTS && i.rxValid[p] ==> Ingress([i.rxData[p]], die, HostAt(die, p)))
    && (forall p :: HOSTS <= p < KL_PORTS ==> !i.rxValid[p])
    && (forall m :: 0 <= m < MC_PORTS && i.respValid[m] ==> Responses([i.respData[m]], die, m))
  }

  lemma SampleKeeps(n: Noc, i: NocInputs)
    requires NocRouted(n) && InputsRouted(i, n.die)
    ensures NocRouted(Sample(n, i))
  {
    var s := Sample(n, i);
    forall p | 0 <= p < HOSTS
      ensures Ingress(s.klRx[p], n.die, HostAt(n.die, p)) && Egress(s.klTx[p], n.die, HostAt(n.die, p))
    {
      assert i.rxValid[p] ==> i.rxData[p] in [i.rxData[p]];
    }
    forall m | 0 <= m < MC_PORTS
      ensures Requests(s.mcReq[m], n.die, m) && Responses(s.mcResp[m], n.die, m)
    {
      assert i.respValid[m] ==> i.respData[m] in [i.respData[m]];
    }
  }

  lemma NocStepKeeps(n: Noc, i: NocInputs)
    requires NocRouted(n) && InputsRouted(i, n.die)
    ensures NocRouted(NocStep(n, i)) && Registered(NocStep(n, i))
  {
    SampleKeeps(n, i);
    RoutePortsKeep(Sample(n, i), KL_PORTS);
    RouteResponsesKeep(RoutePorts(Sample(n, i), KL_PORTS), MC_PORTS);
  }

  // A mapped request is never answered with a fault.
  lemma ServeKeeps(valid: bool, flit: Flit, mem: Memory, staging: seq<Flit>, die: nat, mc: nat)
    requires valid ==> Requests([flit], die, mc)
    requires Responses(staging, die, mc)
    ensures Responses(Serve(valid, flit, mem, staging).staging, die, mc)
  {
    hide DieOf, McOf, Mapped, LocalOf, DecodeLocalWord, FaultResponse;
    if valid {
      assert flit in [flit];
      DecodeAcceptsMapped(flit.addr);
    }
  }

  lemma ServeAllKeeps(d: Die, die: nat)
    requires DieRouted(d, die)
    ensures forall m :: 0 <= m < MC_PORTS ==> Responses(ServeAll(d)[m].staging, die, m)
  {
    forall m | 0 <= m < MC_PORTS
      ensures Responses(ServeAll(d)[m].staging, die, m)
    {
      var p := d.pipes[m];
      assert PipeOk(p);
      assert p.outValid ==> p.outData in p.fifo;
      ServeKeeps(p.outValid, p.outData, d.mem[m], RetireStaging(d)[m], die, m);
    }
  }

  lemma PipesKeep(d: Die, die: nat)
    requires DieRouted(d, die)
    ensures forall m :: 0 <= m < MC_PORTS ==>
      var p := DiePipes(d)[m]; PipeOk(p) && Requests(p.fifo, die, m)
  {
    forall m | 0 <= m < MC_PORTS
      ensures var p := DiePipes(d)[m]; PipeOk(p) && Requests(p.fifo, die, m)
    {
      var p := d.pipes[m];
      assert d.noc.reqValid[m] ==> d.noc.reqData[m] in d.noc.mcReq[m];
      PipeIsFifo(p, d.noc.reqValid[m], d.noc.reqData[m], ServeAll(d)[m].ready);
    }
  }

  predicate LinksRouted(i: DieInputs, die: nat) {
    && |i.valid| == |i.data| == |i.ready| == KL_PORTS
    && (forall p :: 0 <= p < HOSTS && i.valid[p] ==> Ingress([i.data[p]], die, HostAt(die, p)))
    && (forall p :: HOSTS <= p < KL_PORTS ==> !i.valid[p])
  }

  lemma DieStepKeeps(d: Die, die: nat, i: DieInputs)
    requires DieRouted(d, die) && LinksRouted(i, die)
    ensures DieRouted(DieStep(d, i.valid, i.data, i.ready), die)
  {
    ServeAllKeeps(d, die);
    PipesKeep(d, die);
    var n := DieNocInputs(d, i.valid, i.data, i.ready);
    forall m | 0 <= m < MC_PORTS && n.respValid[m]
      ensures Responses([n.respData[m]], die, m)
    {
      assert n.respData[m] in ServeAll(d)[m].staging;
    }
    NocStepKeeps(d.noc, n);
  }

  // A host presents a request only on the link of the die the request is for.
  lemma LinksAreRouted(f: Fabric, die: nat)
    requires Routed(f) && die < DIES
    ensures LinksRouted(DieInputsOf(f, die), die)
  {
    var i := DieInputsOf(f, die);
    forall p | 0 <= p < HOSTS && i.valid[p]
      ensures Ingress([i.data[p]], die, HostAt(die, p))
    {
      var h := f.hosts[HostAt(die, p)];
      assert HostRouted(h, HostAt(die, p));
      assert h.active != [] && h.active[0] in h.active;
      assert i.data[p] == WireOf(h.id, h.active[0]);
    }
    forall p | HOSTS <= p < KL_PORTS
      ensures !i.valid[p]
    {
      var other := f.dies[1 - die];
      assert DieRouted(other, 1 - die);
    }
  }

  lemma HostStepRouted(h: Host, id: nat, i: HostInputs)
    requires HostRouted(h, id)
    ensures HostRouted(HostStep(h, i), id)
  {
    HostStepStaysOk(h, i);
  }

  lemma StepDieKeeps(f: Fabric, die: nat)
    requires Routed(f) && die < DIES
    ensures DieRouted(StepDie(f, die), die)
  {
    LinksAreRouted(f, die);
    DieStepKeeps(f.dies[die], die, DieInputsOf(f, die));
  }

  lemma CycleKeepsRouting(f: Fabric)
    requires Routed(f)
    ensures Routed(Cycle(f))
  {
    var c := Cycle(f);
    forall h | 0 <= h < HOSTS
      ensures HostRouted(c.hosts[h], h)
    {
      HostStepRouted(f.hosts[h], h, HostInputsOf(f, h));
      assert c.hosts[h] == HostStep(f.hosts[h], HostInputsOf(f, h));
    }
    StepDieKeeps(f, 0);
    StepDieKeeps(f, 1);
    assert c.dies == [StepDie(f, 0), StepDie(f, 1)];
  }

  lemma NewNocIsRouted(die: nat)
    requires die < DIES
    ensures NocRouted(NewNoc(die)) && Registered(NewNoc(die))
  {
    var n := NewNoc(die);
    assert forall p :: 0 <= p < KL_PORTS ==> n.klRx[p] == [] && n.klTx[p] == [];
    assert forall m :: 0 <= m < MC_PORTS ==> n.mcReq[m] == [] && n.mcResp[m] == [];
  }

  lemma NewDieIsRouted(die: nat, mem: seq<Memory>)
    requires die < DIES && |mem| == MC_PORTS
    ensures DieRouted(NewDie(die, mem), die)
  {
    NewNocIsRouted(die);
  }

  lemma NewFabricIsRouted(mem: seq<seq<Memory>>)
    requires |mem| == DIES && |mem[0]| == |mem[1]| == MC_PORTS
    ensures Routed(NewFabric(mem))
  {
    NewDieIsRouted(0, mem[0]);
    NewDieIsRouted(1, mem[1]);
    var f := NewFabric(mem);
    assert f.dies == [NewDie(0, mem[0]), NewDie(1, mem[1])];
    forall h | 0 <= h < HOSTS
      ensures HostRouted(f.hosts[h], h)
    {
      assert f.hosts[h] == NewHost(h);
    }
  }
}
