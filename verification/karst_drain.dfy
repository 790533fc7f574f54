// Progress: while hosts take their responses, every cycle moves something, so the fabric empties.

module KarstDrain {
  import opened KarstAddress
  import opened KarstLink
  import opened KarstQueue
  import opened KarstPipes
  import opened KarstSwitch
  import opened KarstDie
  import opened KarstEndpoint
  import opened KarstTopology
  import opened KarstRouting
  import opened KarstProjection
  import opened KarstTransport
  import opened KarstMemory

  function Count(q: seq<Flit>, h: nat, d: nat, m: nat): nat {
    |Of(q, h, d, m)|
  }

  lemma CountConcat(a: seq<Flit>, b: seq<Flit>, h: nat, d: nat, m: nat)
    ensures Count(a + b, h, d, m) == Count(a, h, d, m) + Count(b, h, d, m)
  {
    OfConcat(a, b, h, d, m);
  }

  lemma CountMember(q: seq<Flit>, f: Flit)
    requires f in q
    ensures Count(q, f.src, DieOf(f.addr), McOf(f.addr)) > 0
  {
    OfMembers(q, f.src, DieOf(f.addr), McOf(f.addr));
    assert f in Of(q, f.src, DieOf(f.addr), McOf(f.addr));
  }

  // Remaining hops of the traffic between host h and channel (d, m), stage by stage.
  function RequestHops(n: Noc, h: nat, m: nat): nat
    requires Shape(n) && h < HOSTS && m < MC_PORTS
  {
    6 * Count(n.klRx[PortOf(n.die, h)], h, n.die, m) + 5 * Count(n.mcReq[m], h, n.die, m)
  }

  function ResponseHops(n: Noc, h: nat, m: nat): nat
    requires Shape(n) && h < HOSTS && m < MC_PORTS
  {
    2 * Count(n.mcResp[m], h, n.die, m) + Count(n.klTx[PortOf(n.die, h)], h, n.die, m)
  }

  function HostHops(host: Host, h: nat, d: nat, m: nat): nat {
    8 * Count(Wires(h, host.tx), h, d, m) + 7 * Count(Wires(h, host.active), h, d, m)
  }

  function DieHops(die: Die, h: nat, m: nat): nat
    requires DieShape(die) && h < HOSTS && m < MC_PORTS
  {
    RequestHops(die.noc, h, m) + 4 * Count(die.pipes[m].fifo, h, die.noc.die, m)
    + 3 * Count(Unaccepted(die, m), h, die.noc.die, m) + ResponseHops(die.noc, h, m)
  }

  function Hops(f: Fabric, h: nat, d: nat, m: nat): nat
    requires FabricShape(f) && h < HOSTS && d < DIES && m < MC_PORTS
  {
    HostHops(f.hosts[h], h, d, m) + DieHops(f.dies[d], h, m)
  }

  // The crossbar: routing moves hops down, never up.
  lemma RoutePortHops(n: Noc, t: nat, h: nat, m: nat)
    requires NocRouted(n) && t < KL_PORTS && h < HOSTS && m < MC_PORTS
    ensures RequestHops(RoutePort(n, t), h, m) <= RequestHops(n, h, m)
    ensures n.klRx[t] != [] && Between(n.klRx[t][0], h, n.die, m) && |n.mcReq[m]| < QUEUE ==>
      RequestHops(RoutePort(n, t), h, m) < RequestHops(n, h, m)
  {
    if n.klRx[t] != [] {
      var flit := n.klRx[t][0];
      assert flit in n.klRx[t];
      assert Ingress(n.klRx[t], n.die, HostAt(n.die, t));
      var p, mc := PortOf(n.die, h), McOf(flit.addr);
      if |n.mcReq[mc]| != QUEUE {
        assert |n.mcReq[mc]| < QUEUE;
        if t == p && mc == m {
          OfHead(n.klRx[t], h, n.die, m);
          CountConcat(n.mcReq[mc], [flit], h, n.die, m);
          assert Of([flit], h, n.die, m) == [flit];
        } else if t == p {
          OfStrangerFirst(n.klRx[t], h, n.die, m);
        } else if mc == m {
          OfStrangerLast(n.mcReq[mc], flit, h, n.die, m);
        }
      }
    }
  }

  lemma {:induction false} RoutePortsHops(n: Noc, from: nat, count: nat, h: nat, m: nat)
    requires NocRouted(n) && from <= count <= KL_PORTS && h < HOSTS && m < MC_PORTS
    ensures RequestHops(RoutePorts(n, count), h, m) <= RequestHops(RoutePorts(n, from), h, m)
  {
    hide RoutePort, RequestHops;
    if from < count {
      RoutePortsKeep(n, count - 1);
      RoutePortsHops(n, from, count - 1, h, m);
      RoutePortHops(RoutePorts(n, count - 1), count - 1, h, m);
    }
  }

  lemma RouteResponseHops(n: Noc, c: nat, h: nat, m: nat)
    requires NocRouted(n) && c < MC_PORTS && h < HOSTS && m < MC_PORTS
    ensures ResponseHops(RouteResponse(n, c), h, m) <= ResponseHops(n, h, m)
    ensures c == m && n.mcResp[c] != [] && n.mcResp[c][0].src == h && |n.klTx[PortOf(n.die, h)]| < QUEUE ==>
      ResponseHops(RouteResponse(n, c), h, m) < ResponseHops(n, h, m)
  {
    if n.mcResp[c] != [] {
      var flit := n.mcResp[c][0];
      assert flit in n.mcResp[c];
      var p, port := PortOf(n.die, h), TargetPort(n.die, flit.src);
      ResponseFindsItsHost(n.die, flit.src);
      if |n.klTx[port]| != QUEUE {
        assert |n.klTx[port]| < QUEUE;
        if c == m && port == p {
          OfHead(n.mcResp[c], h, n.die, m);
          CountConcat(n.klTx[port], [flit], h, n.die, m);
          assert Of([flit], h, n.die, m) == [flit];
        } else if c == m {
          OfStrangerFirst(n.mcResp[c], h, n.die, m);
        } else if port == p {
          OfStrangerLast(n.klTx[port], flit, h, n.die, m);
        }
      }
    }
  }

  lemma {:induction false} RouteResponsesHops(n: Noc, from: nat, count: nat, h: nat, m: nat)
    requires NocRouted(n) && from <= count <= MC_PORTS && h < HOSTS && m < MC_PORTS
    ensures ResponseHops(RouteResponses(n, count), h, m) <= ResponseHops(RouteResponses(n, from), h, m)
  {
    hide RouteResponse, ResponseHops;
    if from < count {
      RouteResponsesKeep(n, count - 1);
      RouteResponsesHops(n, from, count - 1, h, m);
      RouteResponseHops(RouteResponses(n, count - 1), count - 1, h, m);
    }
  }

  // With every controller queue empty, the first waiting port routes.
  lemma SomePortRoutes(n: Noc, p: nat) returns (h: nat, m: nat)
    requires NocRouted(n) && p < HOSTS && n.klRx[p] != []
    requires forall c :: 0 <= c < MC_PORTS ==> n.mcReq[c] == []
    ensures h < HOSTS && m < MC_PORTS && RequestHops(RoutePorts(n, KL_PORTS), h, m) < RequestHops(n, h, m)
  {
    var t := 0;
    while n.klRx[t] == []
      invariant t <= p && RoutePorts(n, t) == n
      decreases p - t
    {
      assert RoutePorts(n, t + 1) == RoutePort(n, t) == n;
      t := t + 1;
    }
    var flit := n.klRx[t][0];
    assert flit in n.klRx[t] && Ingress(n.klRx[t], n.die, HostAt(n.die, t));
    h, m := flit.src, McOf(flit.addr);
    RoutePortHops(n, t, h, m);
    assert RoutePorts(n, t + 1) == RoutePort(n, t);
    RoutePortsHops(n, t + 1, KL_PORTS, h, m);
  }

  // With every egress queue empty, the first waiting response routes.
  lemma SomeResponseRoutes(n: Noc, c: nat) returns (h: nat, m: nat)
    requires NocRouted(n) && c < MC_PORTS && n.mcResp[c] != []
    requires forall p :: 0 <= p < HOSTS ==> n.klTx[p] == []
    ensures h < HOSTS && m < MC_PORTS && ResponseHops(RouteResponses(n, MC_PORTS), h, m) < ResponseHops(n, h, m)
  {
    m := 0;
    while n.mcResp[m] == []
      invariant m <= c && RouteResponses(n, m) == n
      decreases c - m
    {
      assert RouteResponses(n, m + 1) == RouteResponse(n, m) == n;
      m := m + 1;
    }
    var flit := n.mcResp[m][0];
    assert flit in n.mcResp[m] && Responses(n.mcResp[m], n.die, m);
    h := flit.src;
    RouteResponseHops(n, m, h, m);
    assert RouteResponses(n, m + 1) == RouteResponse(n, m);
    RouteResponsesHops(n, m + 1, MC_PORTS, h, m);
  }

  lemma SampleHops(n: Noc, i: NocInputs, h: nat, m: nat)
    requires NocRouted(n) && InputShape(i) && Registered(n) && h < HOSTS && m < MC_PORTS
    ensures var s, p, d := Sample(n, i), PortOf(n.die, h), n.die;
            && RequestHops(s, h, m) + 5 * Count(Moved(n.mcReq[m], i.reqReady[m]), h, d, m)
               == RequestHops(n, h, m) + 6 * Count(Injected(n, i, p), h, d, m)
            && ResponseHops(s, h, m) + Count(Moved(n.klTx[p], i.txReady[p]), h, d, m)
               == ResponseHops(n, h, m) + 2 * Count(Absorbed(n, i, m), h, d, m)
  {
    var s, p, d := Sample(n, i), PortOf(n.die, h), n.die;
    SampleMovesRequests(n, i, p, m);
    SampleMovesResponses(n, i, p, m);
    CountConcat(Moved(n.mcReq[m], i.reqReady[m]), s.mcReq[m], h, d, m);
    CountConcat(n.klRx[p], Injected(n, i, p), h, d, m);
    CountConcat(Moved(n.klTx[p], i.txReady[p]), s.klTx[p], h, d, m);
    CountConcat(n.mcResp[m], Absorbed(n, i, m), h, d, m);
  }

  // Everything the crossbar gains or gives away in a cycle; what it routes only lowers the count.
  lemma NocHops(n: Noc, i: NocInputs, h: nat, m: nat)
    requires NocRouted(n) && InputsRouted(i, n.die) && Registered(n) && h < HOSTS && m < MC_PORTS
    ensures var r, p, d := NocStep(n, i), PortOf(n.die, h), n.die;
            && RequestHops(r, h, m) + 5 * Count(Moved(n.mcReq[m], i.reqReady[m]), h, d, m)
               <= RequestHops(n, h, m) + 6 * Count(Injected(n, i, p), h, d, m)
            && ResponseHops(r, h, m) + Count(Moved(n.klTx[p], i.txReady[p]), h, d, m)
               <= ResponseHops(n, h, m) + 2 * Count(Absorbed(n, i, m), h, d, m)
  {
    var s := Sample(n, i);
    SampleHops(n, i, h, m);
    SampleKeeps(n, i);
    RoutePortsHops(s, 0, KL_PORTS, h, m);
    RoutePortsKeep(s, KL_PORTS);
    RoutePortsConserve(s, KL_PORTS, h, m);
    RouteResponsesHops(RoutePorts(s, KL_PORTS), 0, MC_PORTS, h, m);
  }

  // The crossbar with empty controller queues and a waiting port routes strictly.
  lemma NocRoutesSomeRequest(n: Noc, i: NocInputs, p: nat) returns (h: nat, m: nat)
    requires NocRouted(n) && InputsRouted(i, n.die) && Registered(n) && p < HOSTS && n.klRx[p] != []
    requires forall c :: 0 <= c < MC_PORTS ==> n.mcReq[c] == []
    ensures h < HOSTS && m < MC_PORTS
    ensures var r, q, d := NocStep(n, i), PortOf(n.die, h), n.die;
            RequestHops(r, h, m) + 5 * Count(Moved(n.mcReq[m], i.reqReady[m]), h, d, m)
            < RequestHops(n, h, m) + 6 * Count(Injected(n, i, q), h, d, m)
  {
    var s := Sample(n, i);
    SampleKeeps(n, i);
    SampleMovesRequests(n, i, p, 0);
    h, m := SomePortRoutes(s, p);
    SampleHops(n, i, h, m);
  }

  lemma NocRoutesSomeResponse(n: Noc, i: NocInputs, c: nat) returns (h: nat, m: nat)
    requires NocRouted(n) && InputsRouted(i, n.die) && Registered(n) && c < MC_PORTS && n.mcResp[c] != []
    requires forall p :: 0 <= p < HOSTS ==> n.klTx[p] == []
    ensures h < HOSTS && m < MC_PORTS
    ensures var r, q, d := NocStep(n, i), PortOf(n.die, h), n.die;
            ResponseHops(r, h, m) + Count(Moved(n.klTx[q], i.txReady[q]), h, d, m)
            < ResponseHops(n, h, m) + 2 * Count(Absorbed(n, i, m), h, d, m)
  {
    var s := Sample(n, i);
    SampleKeeps(n, i);
    SampleMovesResponses(n, i, 0, c);
    RoutePortsKeep(s, KL_PORTS);
    RoutePortsConserve(s, KL_PORTS, 0, 0);
    var routed := RoutePorts(s, KL_PORTS);
    assert forall p :: 0 <= p < HOSTS ==> routed.klTx[p] == [];
    h, m := SomeResponseRoutes(routed, c);
    SampleHops(n, i, h, m);
  }

  lemma OfOne(f: Flit, h: nat, d: nat, m: nat)
    ensures Of([f], h, d, m) == if Between(f, h, d, m) then [f] else []
  {
    assert [f][..0] == [];
  }

  // An answer travels between the same host and channel as its request.
  lemma AnswerCount(mem: Memory, f: Flit, h: nat, d: nat, m: nat)
    requires Mapped(f.addr)
    ensures Count(Answer(mem, f), h, d, m) <= Count([f], h, d, m)
  {
    hide DieOf, McOf, LocalOf;
    DecodeAcceptsMapped(f.addr);
    OfOne(f, h, d, m);
    if Answer(mem, f) != [] {
      var r := Answer(mem, f)[0];
      assert Answer(mem, f) == [r] && r.src == f.src && r.addr == f.addr;
      OfOne(r, h, d, m);
    }
  }

  lemma AnswerCounts(d: Die, die: nat, m: nat, h: nat)
    requires DieRouted(d, die) && m < MC_PORTS
    ensures Count(AnswerNow(d, m), h, die, m) <= Count(ServedNow(d, m), h, die, m)
  {
    hide Answer, Count, ServeAll;
    ServedIsRouted(d, die, m);
    if ServedNow(d, m) != [] {
      var f := ServedNow(d, m)[0];
      assert f in ServedNow(d, m);
      assert ServedNow(d, m) == [f];
      AnswerCount(d.mem[m], f, h, die, m);
    } else {
      assert AnswerNow(d, m) == ServedNow(d, m);
    }
  }

  // Moves of one die in one cycle that concern host h and controller m.
  function DieMoves(d: Die, i: DieInputs, h: nat, m: nat): nat
    requires DieShape(d) && |i.valid| == |i.data| == |i.ready| == KL_PORTS && h < HOSTS && m < MC_PORTS
  {
    var die, n := d.noc.die, DieNocInputs(d, i.valid, i.data, i.ready);
    Count(Moved(d.noc.mcReq[m], d.pipes[m].upReady), h, die, m) + Count(ServedNow(d, m), h, die, m)
    + Count(Absorbed(d.noc, n, m), h, die, m)
      + Count(Moved(d.noc.klTx[PortOf(die, h)], i.ready[PortOf(die, h)]), h, die, m)
  }

  lemma PipeAndStagingHops(d: Die, i: DieInputs, die: nat, h: nat, m: nat)
    requires DieRouted(d, die) && LinksRouted(i, die) && h < HOSTS && m < MC_PORTS
    ensures var r, n := DieStep(d, i.valid, i.data, i.ready), DieNocInputs(d, i.valid, i.data, i.ready);
            && Count(r.pipes[m].fifo, h, die, m) + Count(ServedNow(d, m), h, die, m)
               == Count(d.pipes[m].fifo, h, die, m) + Count(Moved(d.noc.mcReq[m], d.pipes[m].upReady), h, die, m)
            && Count(Unaccepted(r, m), h, die, m) + Count(Absorbed(d.noc, n, m), h, die, m)
               <= Count(Unaccepted(d, m), h, die, m) + Count(ServedNow(d, m), h, die, m)
  {
    var r, n := DieStep(d, i.valid, i.data, i.ready), DieNocInputs(d, i.valid, i.data, i.ready);
    PipeHandshake(d, die, m);
    CountConcat(ServedNow(d, m), r.pipes[m].fifo, h, die, m);
    CountConcat(d.pipes[m].fifo, Moved(d.noc.mcReq[m], d.pipes[m].upReady), h, die, m);
    StagingHandshake(d, i, die, m);
    CountConcat(Absorbed(d.noc, n, m), Unaccepted(r, m), h, die, m);
    CountConcat(Unaccepted(d, m), AnswerNow(d, m), h, die, m);
    AnswerCounts(d, die, m, h);
  }

  lemma DieStepHops(d: Die, i: DieInputs, die: nat, h: nat, m: nat)
    requires DieRouted(d, die) && LinksRouted(i, die) && h < HOSTS && m < MC_PORTS
    ensures DieHops(DieStep(d, i.valid, i.data, i.ready), h, m) + DieMoves(d, i, h, m)
            <= DieHops(d, h, m) + 6 * Count(LinkInjected(d, i, PortOf(die, h)), h, die, m)
  {
    var n := DieNocInputs(d, i.valid, i.data, i.ready);
    PipeAndStagingHops(d, i, die, h, m);
    DieNocRouted(d, i, die);
    NocHops(d.noc, n, h, m);
    assert Injected(d.noc, n, PortOf(die, h)) == LinkInjected(d, i, PortOf(die, h));
  }

  lemma CountWires(h: nat, a: seq<Txn>, b: seq<Txn>, d: nat, m: nat)
    ensures Count(Wires(h, a + b), h, d, m) == Count(Wires(h, a), h, d, m) + Count(Wires(h, b), h, d, m)
  {
    WiresConcat(h, a, b);
    CountConcat(Wires(h, a), Wires(h, b), h, d, m);
  }

  function Fetched(host: Host, i: HostInputs): seq<Txn>
    requires |host.active| <= ACTIVE
  {
    host.tx[..FetchCount(CompleteTx(host, i), host.tx)]
  }

  lemma HostStepQueues(host: Host, i: HostInputs)
    requires HostOk(host)
    ensures var r := HostStep(host, i);
            && Fetched(host, i) + r.tx == host.tx
            && Completed(host, i) + r.active == host.active + Fetched(host, i)
  {
    var active := CompleteTx(host, i);
    assert Completed(host, i) + active == host.active;
    assert HostStep(host, i).active == active + Fetched(host, i);
  }

  lemma HostStepHops(host: Host, i: HostInputs, h: nat, d: nat, m: nat)
    requires HostOk(host)
    ensures HostHops(HostStep(host, i), h, d, m) + 7 * Count(Wires(h, Completed(host, i)), h, d, m)
            + Count(Wires(h, Fetched(host, i)), h, d, m) == HostHops(host, h, d, m)
  {
    var r := HostStep(host, i);
    HostStepQueues(host, i);
    CountWires(h, Fetched(host, i), r.tx, d, m);
    CountWires(h, Completed(host, i), r.active, d, m);
    CountWires(h, host.active, Fetched(host, i), d, m);
  }

  // Everything that moves in one cycle for host h and channel (d, m) pays for itself.
  lemma CycleHops(f: Fabric, h: nat, d: nat, m: nat)
    requires Routed(f) && h < HOSTS && d < DIES && m < MC_PORTS
    ensures Hops(Cycle(f), h, d, m) + DieMoves(f.dies[d], DieInputsOf(f, d), h, m)
            + Count(LinkInjected(f.dies[d], DieInputsOf(f, d), PortOf(d, h)), h, d, m)
            + Count(Wires(h, Fetched(f.hosts[h], HostInputsOf(f, h))), h, d, m)
            <= Hops(f, h, d, m)
  {
    assert DieRouted(f.dies[d], d) && HostRouted(f.hosts[h], h);
    LinksAreRouted(f, d);
    CycleParts(f, h, d, m);
    DieStepHops(f.dies[d], DieInputsOf(f, d), d, h, m);
    HostStepHops(f.hosts[h], HostInputsOf(f, h), h, d, m);
    HostHandshake(f, h, d, m);
  }

  // The die gives away more hops than it takes in.
  predicate DieSlower(d: Die, i: DieInputs, h: nat, m: nat)
    requires DieShape(d) && |i.valid| == |i.data| == |i.ready| == KL_PORTS
  {
    && h < HOSTS && m < MC_PORTS
    && DieHops(DieStep(d, i.valid, i.data, i.ready), h, m)
       < DieHops(d, h, m) + 6 * Count(LinkInjected(d, i, PortOf(d.noc.die, h)), h, d.noc.die, m)
  }

  lemma MovesMakeDieSlower(d: Die, i: DieInputs, die: nat, h: nat, m: nat)
    requires DieRouted(d, die) && LinksRouted(i, die) && h < HOSTS && m < MC_PORTS && DieMoves(d, i, h, m) > 0
    ensures DieSlower(d, i, h, m)
  {
    hide DieHops, DieMoves, LinkInjected;
    DieStepHops(d, i, die, h, m);
  }

  // Whatever occupied stage is furthest along can move, because its receiver has room.
  lemma EgressMoves(d: Die, i: DieInputs, die: nat, p: nat) returns (h: nat, m: nat)
    requires DieRouted(d, die) && LinksRouted(i, die) && p < HOSTS && i.ready[p] && d.noc.klTx[p] != []
    ensures DieSlower(d, i, h, m)
  {
    var flit := d.noc.klTx[p][0];
    assert flit in d.noc.klTx[p] && Egress(d.noc.klTx[p], die, HostAt(die, p));
    h, m := flit.src, McOf(flit.addr);
    assert PortOf(die, h) == p;
    CountMember([flit], flit);
    assert Moved(d.noc.klTx[p], i.ready[p]) == [flit];
    MovesMakeDieSlower(d, i, die, h, m);
  }

  lemma StagingMoves(d: Die, i: DieInputs, die: nat, m: nat) returns (h: nat)
    requires DieRouted(d, die) && LinksRouted(i, die) && m < MC_PORTS && Unaccepted(d, m) != [] && d.noc.mcResp[m] == []
    ensures DieSlower(d, i, h, m)
  {
    var n := DieNocInputs(d, i.valid, i.data, i.ready);
    StagingServed(d, m);
    var flit := ServedStaging(d)[m][0];
    assert flit in ServedStaging(d)[m] && Responses(ServedStaging(d)[m], die, m) by {
      ServeAllKeeps(d, die);
    }
    h := flit.src;
    assert Absorbed(d.noc, n, m) == [flit];
    CountMember([flit], flit);
    MovesMakeDieSlower(d, i, die, h, m);
  }

  lemma StagingServed(d: Die, m: nat)
    requires DieShape(d) && m < MC_PORTS && Unaccepted(d, m) != []
    ensures ServedStaging(d)[m] != []
  {
    ServeMeans(d.pipes[m].outValid, d.pipes[m].outData, d.mem[m], RetireStaging(d)[m]);
  }

  lemma PipeMoves(d: Die, i: DieInputs, die: nat, m: nat) returns (h: nat)
    requires DieRouted(d, die) && LinksRouted(i, die) && m < MC_PORTS && d.pipes[m].fifo != [] && Unaccepted(d, m) == []
    ensures DieSlower(d, i, h, m)
  {
    assert PipeOk(d.pipes[m]) && Requests(d.pipes[m].fifo, die, m);
    var flit := d.pipes[m].outData;
    assert flit in d.pipes[m].fifo;
    h := flit.src;
    assert ServedNow(d, m) == [flit];
    CountMember([flit], flit);
    MovesMakeDieSlower(d, i, die, h, m);
  }

  lemma RequestMoves(d: Die, i: DieInputs, die: nat, m: nat) returns (h: nat)
    requires DieRouted(d, die) && LinksRouted(i, die) && m < MC_PORTS && d.noc.mcReq[m] != [] && d.pipes[m].fifo == []
    ensures DieSlower(d, i, h, m)
  {
    assert PipeOk(d.pipes[m]) && Requests(d.noc.mcReq[m], die, m);
    var flit := d.noc.mcReq[m][0];
    assert flit in d.noc.mcReq[m];
    h := flit.src;
    assert Moved(d.noc.mcReq[m], d.pipes[m].upReady) == [flit];
    CountMember([flit], flit);
    MovesMakeDieSlower(d, i, die, h, m);
  }

  lemma ResponseMoves(d: Die, i: DieInputs, die: nat, c: nat) returns (h: nat, m: nat)
    requires DieRouted(d, die) && LinksRouted(i, die) && c < MC_PORTS && d.noc.mcResp[c] != []
    requires forall p :: 0 <= p < HOSTS ==> d.noc.klTx[p] == []
    ensures DieSlower(d, i, h, m)
  {
    var n := DieNocInputs(d, i.valid, i.data, i.ready);
    DieNocRouted(d, i, die);
    h, m := NocRoutesSomeResponse(d.noc, n, c);
    DieHopsSplit(d, i, die, h, m);
  }

  lemma IngressMoves(d: Die, i: DieInputs, die: nat, p: nat) returns (h: nat, m: nat)
    requires DieRouted(d, die) && LinksRouted(i, die) && p < HOSTS && d.noc.klRx[p] != []
    requires forall c :: 0 <= c < MC_PORTS ==> d.noc.mcReq[c] == []
    ensures DieSlower(d, i, h, m)
  {
    var n := DieNocInputs(d, i.valid, i.data, i.ready);
    DieNocRouted(d, i, die);
    h, m := NocRoutesSomeRequest(d.noc, n, p);
    DieHopsSplit(d, i, die, h, m);
  }

  // The die's balance, with the crossbar's own balance left open.
  lemma DieHopsSplit(d: Die, i: DieInputs, die: nat, h: nat, m: nat)
    requires DieRouted(d, die) && LinksRouted(i, die) && h < HOSTS && m < MC_PORTS
    ensures var n, p := DieNocInputs(d, i.valid, i.data, i.ready), PortOf(die, h); var r := NocStep(d.noc, n);
            || ResponseHops(r, h, m) + Count(Moved(d.noc.klTx[p], n.txReady[p]), h, die, m)
               < ResponseHops(d.noc, h, m) + 2 * Count(Absorbed(d.noc, n, m), h, die, m)
            || RequestHops(r, h, m) + 5 * Count(Moved(d.noc.mcReq[m], n.reqReady[m]), h, die, m)
               < RequestHops(d.noc, h, m) + 6 * Count(Injected(d.noc, n, p), h, die, m)
            ==> DieSlower(d, i, h, m)
  {
    hide RequestHops, ResponseHops, Unaccepted, ServedNow;
    var n := DieNocInputs(d, i.valid, i.data, i.ready);
    PipeAndStagingHops(d, i, die, h, m);
    DieNocRouted(d, i, die);
    NocHops(d.noc, n, h, m);
    assert Injected(d.noc, n, PortOf(die, h)) == LinkInjected(d, i, PortOf(die, h));
  }

  predicate DieDrained(d: Die)
    requires DieShape(d)
  {
    && (forall p :: 0 <= p < HOSTS ==> d.noc.klRx[p] == [] && d.noc.klTx[p] == [])
    && (forall m :: 0 <= m < MC_PORTS ==>
          d.noc.mcReq[m] == [] && d.noc.mcResp[m] == [] && d.pipes[m].fifo == [] && Unaccepted(d, m) == [])
  }

  // With its hosts ready to receive, a die that holds anything moves something.
  lemma DieProgress(d: Die, i: DieInputs, die: nat) returns (h: nat, m: nat)
    requires DieRouted(d, die) && LinksRouted(i, die) && !DieDrained(d)
    requires forall p :: 0 <= p < HOSTS ==> i.ready[p]
    ensures DieSlower(d, i, h, m)
  {
    hide DieSlower, Unaccepted;
    if p :| 0 <= p < HOSTS && d.noc.klTx[p] != [] {
      h, m := EgressMoves(d, i, die, p);
    } else if c :| 0 <= c < MC_PORTS && d.noc.mcResp[c] != [] {
      h, m := ResponseMoves(d, i, die, c);
    } else if c :| 0 <= c < MC_PORTS && Unaccepted(d, c) != [] {
      m := c;
      h := StagingMoves(d, i, die, c);
    } else if c :| 0 <= c < MC_PORTS && d.pipes[c].fifo != [] {
      m := c;
      h := PipeMoves(d, i, die, c);
    } else if c :| 0 <= c < MC_PORTS && d.noc.mcReq[c] != [] {
      m := c;
      h := RequestMoves(d, i, die, c);
    } else {
      var p :| 0 <= p < HOSTS && d.noc.klRx[p] != [];
      h, m := IngressMoves(d, i, die, p);
    }
  }

  predicate AllReady(f: Fabric)
    requires FabricShape(f)
  {
    forall h :: 0 <= h < HOSTS ==> f.hosts[h].l0Ready && f.hosts[h].l1Ready
  }

  predicate Slower(f: Fabric, h: nat, d: nat, m: nat)
    requires FabricShape(f)
  {
    h < HOSTS && d < DIES && m < MC_PORTS && Hops(Cycle(f), h, d, m) < Hops(f, h, d, m)
  }

  lemma DieMakesFabricSlower(f: Fabric, d: nat, h: nat, m: nat)
    requires Routed(f) && d < DIES && DieSlower(f.dies[d], DieInputsOf(f, d), h, m)
    ensures Slower(f, h, d, m)
  {
    hide DieHops, HostHops;
    assert HostRouted(f.hosts[h], h) && DieRouted(f.dies[d], d);
    CycleParts(f, h, d, m);
    HostStepHops(f.hosts[h], HostInputsOf(f, h), h, d, m);
    HostHandshake(f, h, d, m);
  }

  lemma HostMakesFabricSlower(f: Fabric, h: nat, d: nat, m: nat)
    requires Routed(f) && h < HOSTS && d < DIES && m < MC_PORTS
    requires || Count(LinkInjected(f.dies[d], DieInputsOf(f, d), PortOf(d, h)), h, d, m) > 0
             || Count(Wires(h, Fetched(f.hosts[h], HostInputsOf(f, h))), h, d, m) > 0
    ensures Slower(f, h, d, m)
  {
    hide Hops, DieMoves, LinkInjected, Count, Wires, Fetched, Cycle;
    CycleHops(f, h, d, m);
  }

  lemma HeadInjected(f: Fabric, h: nat, t: Txn)
    requires Routed(f) && h < HOSTS && f.hosts[h].active != [] && t == f.hosts[h].active[0]
    requires f.dies[DieOf(t.addr)].noc.klRx[PortOf(DieOf(t.addr), h)] == []
    ensures var d, w := DieOf(t.addr), WireOf(h, t);
            LinkInjected(f.dies[d], DieInputsOf(f, d), PortOf(d, h)) == [w] && w.src == h && w.addr == t.addr
  {
    hide LinkValid, LinkData, LinkReady, Completed, HostInputsOf;
    var d := DieOf(t.addr);
    assert HostRouted(f.hosts[h], h) && t in f.hosts[h].active;
    assert f.dies[d].noc.rxReady[PortOf(d, h)] by {
      assert DieRouted(f.dies[d], d);
    }
    LinkPresents(f, h, d);
  }

  // The head of an active queue enters its die when the link's ingress queue is empty.
  lemma ActiveMoves(f: Fabric, h: nat) returns (d: nat, m: nat)
    requires Routed(f) && h < HOSTS && f.hosts[h].active != []
    requires forall d :: 0 <= d < DIES ==> f.dies[d].noc.klRx[PortOf(d, h)] == []
    ensures Slower(f, h, d, m)
  {
    hide Slower, Count, LinkInjected, WireOf, DieOf, McOf, PortOf;
    var t := f.hosts[h].active[0];
    d, m := DieOf(t.addr), McOf(t.addr);
    HeadInjected(f, h, t);
    CountMember([WireOf(h, t)], WireOf(h, t));
    HostMakesFabricSlower(f, h, d, m);
  }

  lemma FetchedFirst(host: Host, i: HostInputs, h: nat)
    requires HostRouted(host, h) && h < HOSTS && host.active == [] && host.tx != []
    ensures var t := host.tx[0]; var w := WireOf(h, t);
            w in Wires(h, Fetched(host, i)) && w.src == h && w.addr == t.addr
  {
    assert host.tx[0] in host.tx;
    assert Wires(h, Fetched(host, i))[0] == WireOf(h, host.tx[0]);
  }

  lemma StagedMoves(f: Fabric, h: nat) returns (d: nat, m: nat)
    requires Routed(f) && h < HOSTS && f.hosts[h].active == [] && f.hosts[h].tx != []
    ensures Slower(f, h, d, m)
  {
    hide Slower, Count, Wires, Fetched, WireOf, DieOf, McOf;
    var t := f.hosts[h].tx[0];
    d, m := DieOf(t.addr), McOf(t.addr);
    FetchedFirst(f.hosts[h], HostInputsOf(f, h), h);
    CountMember(Wires(h, Fetched(f.hosts[h], HostInputsOf(f, h))), WireOf(h, t));
    HostMakesFabricSlower(f, h, d, m);
  }

  lemma LinksAreReady(f: Fabric, d: nat)
    requires FabricShape(f) && AllReady(f) && d < DIES
    ensures forall p :: 0 <= p < HOSTS ==> DieInputsOf(f, d).ready[p]
  {
  }

  // While every host is ready to receive, a cycle with anything in flight brings something closer to its end.
  lemma Progress(f: Fabric) returns (h: nat, d: nat, m: nat)
    requires Routed(f) && AllReady(f) && !Drained(f)
    ensures Slower(f, h, d, m)
  {
    hide Slower;
    if die :| 0 <= die < DIES && !DieDrained(f.dies[die]) {
      d := die;
      assert DieRouted(f.dies[d], d);
      LinksAreRouted(f, d);
      LinksAreReady(f, d);
      h, m := DieProgress(f.dies[d], DieInputsOf(f, d), d);
      DieMakesFabricSlower(f, d, h, m);
    } else if host :| 0 <= host < HOSTS && f.hosts[host].active != [] {
      h := host;
      d, m := ActiveMoves(f, h);
    } else {
      h :| 0 <= h < HOSTS && f.hosts[h].tx != [];
      d, m := StagedMoves(f, h);
    }
  }

  // The sum of all remaining hops, over hosts and channels.
  function Total(f: Fabric, n: nat): nat
    requires FabricShape(f) && n <= 64
  {
    if n == 0 then 0 else Total(f, n - 1) + Hops(f, (n - 1) / 8, (n - 1) / 4 % 2, (n - 1) % 4)
  }

  function InFlight(f: Fabric): nat
    requires FabricShape(f)
  {
    Total(f, 64)
  }

  lemma {:induction false} TotalNeverRises(f: Fabric, n: nat)
    requires Routed(f) && n <= 64
    ensures Total(Cycle(f), n) <= Total(f, n)
  {
    hide Hops, Cycle, DieMoves, Count, LinkInjected, Fetched, Routed;
    if n > 0 {
      TotalNeverRises(f, n - 1);
      CycleHops(f, (n - 1) / 8, (n - 1) / 4 % 2, (n - 1) % 4);
    }
  }

  lemma {:induction false} TotalFalls(f: Fabric, n: nat, h: nat, d: nat, m: nat)
    requires Routed(f) && n <= 64 && Slower(f, h, d, m) && 8 * h + 4 * d + m < n
    ensures Total(Cycle(f), n) < Total(f, n)
  {
    hide Hops, Cycle, DieMoves, Count, LinkInjected, Fetched, Routed;
    if 8 * h + 4 * d + m == n - 1 {
      assert h == (n - 1) / 8 && d == (n - 1) / 4 % 2 && m == (n - 1) % 4;
      TotalNeverRises(f, n - 1);
    } else {
      TotalFalls(f, n - 1, h, d, m);
      CycleHops(f, (n - 1) / 8, (n - 1) / 4 % 2, (n - 1) % 4);
    }
  }

  // The drain measure.
  lemma CycleDrains(f: Fabric)
    requires Routed(f)
    ensures InFlight(Cycle(f)) <= InFlight(f)
    ensures AllReady(f) && !Drained(f) ==> InFlight(Cycle(f)) < InFlight(f)
  {
    hide Cycle, Total;
    TotalNeverRises(f, 64);
    if AllReady(f) && !Drained(f) {
      var h, d, m := Progress(f);
      TotalFalls(f, 64, h, d, m);
    }
  }

  // The part of the fabric between the hosts' program order and their response queues.
  predicate SameFlight(f: Fabric, f': Fabric) {
    && |f.hosts| == |f'.hosts| == HOSTS && f.dies == f'.dies
    && forall h :: 0 <= h < HOSTS ==> f.hosts[h].active == f'.hosts[h].active && f.hosts[h].tx == f'.hosts[h].tx
  }

  lemma {:induction false} TotalReads(f: Fabric, f': Fabric, n: nat)
    requires FabricShape(f) && FabricShape(f') && n <= 64 && SameFlight(f, f')
    ensures Total(f, n) == Total(f', n)
  {
    hide DieHops, FabricShape;
    if n > 0 {
      TotalReads(f, f', n - 1);
    }
  }

  lemma DrainedHasNoHops(f: Fabric, h: nat, d: nat, m: nat)
    requires FabricShape(f) && Drained(f) && h < HOSTS && d < DIES && m < MC_PORTS && f.dies[d].noc.die == d
    ensures Hops(f, h, d, m) == 0
  {
    var die, host := f.dies[d], f.hosts[h];
    assert die.noc.klRx[PortOf(d, h)] == [] && die.noc.klTx[PortOf(d, h)] == [];
    assert die.noc.mcReq[m] == [] && die.noc.mcResp[m] == [] && die.pipes[m].fifo == [] && Unaccepted(die, m) == [];
    assert Wires(h, host.active) == [] && Wires(h, host.tx) == [];
  }

  lemma {:induction false} DrainedIsZero(f: Fabric, n: nat)
    requires Routed(f) && Drained(f) && n <= 64
    ensures Total(f, n) == 0
  {
    hide Hops, Drained;
    if n > 0 {
      assert DieRouted(f.dies[(n - 1) / 4 % 2], (n - 1) / 4 % 2);
      DrainedIsZero(f, n - 1);
      DrainedHasNoHops(f, (n - 1) / 8, (n - 1) / 4 % 2, (n - 1) % 4);
    }
  }

  lemma SameFlightDrains(f: Fabric, f': Fabric)
    requires FabricShape(f) && FabricShape(f') && SameFlight(f, f')
    ensures Drained(f') ==> Drained(f)
  {
  }

  function WithRoom(h: Host): Host {
    h.(rx := [], l0Ready := true, l1Ready := true)
  }

  // The same flight among hosts with room for every response.
  lemma Opened(f: Fabric) returns (open: Fabric)
    requires Routed(f)
    ensures Routed(open) && AllReady(open) && SameFlight(f, open)
  {
    hide DieRouted;
    open := f.(hosts := seq(HOSTS, h requires 0 <= h < HOSTS => WithRoom(f.hosts[h])));
    forall h | 0 <= h < HOSTS
      ensures HostRouted(open.hosts[h], h)
    {
      assert HostRouted(f.hosts[h], h) && open.hosts[h] == WithRoom(f.hosts[h]);
    }
  }

  // The measure is zero exactly when nothing is in flight.
  lemma EmptyIffZero(f: Fabric)
    requires Routed(f)
    ensures InFlight(f) == 0 <==> Drained(f)
  {
    hide AllReady, Drained, Total, Cycle;
    if Drained(f) {
      DrainedIsZero(f, 64);
    } else {
      var open := Opened(f);
      SameFlightDrains(f, open);
      CycleDrains(open);
      TotalReads(f, open, 64);
    }
  }

  // Take responses of host h until none are left.
  function TakeWhileAny(s: Sys, h: nat): (r: Sys)
    requires SysShape(s) && h < HOSTS
    ensures SysShape(r) && r.f == s.f.(hosts := s.f.hosts[h := s.f.hosts[h].(rx := [])])
    decreases |s.f.hosts[h].rx|
  {
    if s.f.hosts[h].rx == [] then
      assert s.f.hosts[h := s.f.hosts[h].(rx := [])] == s.f.hosts;
      s
    else
      TakeWhileAny(Step(s, TakeResponse(h)), h)
  }

  function TakeAll(s: Sys, n: nat): (r: Sys)
    requires SysShape(s) && n <= HOSTS
    ensures SysShape(r) && r.f.dies == s.f.dies
    ensures forall h :: 0 <= h < n ==> r.f.hosts[h] == s.f.hosts[h].(rx := [])
    ensures forall h :: n <= h < HOSTS ==> r.f.hosts[h] == s.f.hosts[h]
  {
    if n == 0 then s else TakeWhileAny(TakeAll(s, n - 1), n - 1)
  }

  // The loop every user of the fabric runs: collect what has arrived, advance one cycle.
  function PumpOnce(s: Sys): (r: Sys)
    requires SysShape(s)
    ensures SysShape(r)
  {
    Step(TakeAll(s, HOSTS), Tick)
  }

  function Pump(s: Sys, cycles: nat): (r: Sys)
    requires SysShape(s)
    ensures SysShape(r)
  {
    if cycles == 0 then s else PumpOnce(Pump(s, cycles - 1))
  }

  lemma CollectedKeeps(f: Fabric, r: Fabric)
    requires Routed(f) && r.dies == f.dies && |r.hosts| == HOSTS
    requires forall h :: 0 <= h < HOSTS ==> r.hosts[h] == f.hosts[h].(rx := [])
    ensures Routed(r) && SameFlight(f, r) && (AllReady(r) <==> AllReady(f))
  {
    hide DieRouted;
    forall h | 0 <= h < HOSTS
      ensures HostRouted(r.hosts[h], h)
    {
      assert HostRouted(f.hosts[h], h);
    }
  }

  lemma TakeAllKeeps(s: Sys)
    requires SysShape(s) && Routed(s.f)
    ensures var r := TakeAll(s, HOSTS).f; Routed(r) && InFlight(r) == InFlight(s.f) && (AllReady(r) <==> AllReady(s.f))
  {
    hide Routed, AllReady, InFlight;
    CollectedKeeps(s.f, TakeAll(s, HOSTS).f);
    SameFlightSameTotal(s.f, TakeAll(s, HOSTS).f);
  }

  lemma RoomRaisesReady(f: Fabric)
    requires FabricShape(f) && forall h :: 0 <= h < HOSTS ==> f.hosts[h].rx == []
    ensures AllReady(Cycle(f))
  {
    forall h | 0 <= h < HOSTS
      ensures Cycle(f).hosts[h].l0Ready && Cycle(f).hosts[h].l1Ready
    {
      CycleParts(f, h, 0, 0);
      assert |SampleRx(f.hosts[h], HostInputsOf(f, h))| <= 2;
    }
  }

  lemma PumpOnceDrains(s: Sys)
    requires SysShape(s) && Routed(s.f)
    ensures var r := PumpOnce(s).f;
            && Routed(r) && AllReady(r) && InFlight(r) <= InFlight(s.f)
            && (AllReady(s.f) && InFlight(s.f) > 0 ==> InFlight(r) < InFlight(s.f))
  {
    hide InFlight, Drained, Cycle;
    var t := TakeAll(s, HOSTS);
    TakeAllKeeps(s);
    RoomRaisesReady(t.f);
    CycleKeepsRouting(t.f);
    CycleDrains(t.f);
    EmptyIffZero(t.f);
  }

  // From any state, collecting responses and advancing drains the fabric within as many cycles as hops remain.
  lemma {:induction false} PumpDrains(s: Sys, cycles: nat)
    requires SysShape(s) && Routed(s.f)
    ensures Routed(Pump(s, cycles).f)
    ensures cycles > 0 ==> AllReady(Pump(s, cycles).f)
    ensures cycles > 0 ==> InFlight(Pump(s, cycles).f) + cycles - 1 <= Max(InFlight(s.f), cycles - 1)
    ensures cycles > InFlight(s.f) ==> Drained(Pump(s, cycles).f)
  {
    hide InFlight, Drained, PumpOnce;
    if cycles > 0 {
      PumpDrains(s, cycles - 1);
      PumpOnceDrains(Pump(s, cycles - 1));
      EmptyIffZero(Pump(s, cycles).f);
    }
  }

  function Max(a: nat, b: nat): nat {
    if a < b then b else a
  }

  predicate Quiet(actions: seq<Action>) {
    forall a :: a in actions ==> !a.Post?
  }

  function Continue(s: Sys, actions: seq<Action>): (r: Sys)
    requires SysShape(s)
    ensures SysShape(r)
  {
    if actions == [] then s else Step(Continue(s, actions[..|actions| - 1]), actions[|actions| - 1])
  }

  // Cycles taken while every host was ready to receive.
  function ReadyTicks(s: Sys, actions: seq<Action>): nat
    requires SysShape(s)
  {
    if actions == [] then 0
    else
      var front, last := actions[..|actions| - 1], actions[|actions| - 1];
      ReadyTicks(s, front) + (if last == Tick && AllReady(Continue(s, front).f) then 1 else 0)
  }

  lemma QuietStepDrains(s: Sys, a: Action)
    requires SysShape(s) && Routed(s.f) && !a.Post?
    ensures var r := Step(s, a).f;
            && Routed(r) && InFlight(r) <= InFlight(s.f)
            && (a == Tick && AllReady(s.f) && InFlight(s.f) > 0 ==> InFlight(r) < InFlight(s.f))
  {
    hide InFlight, Drained, Cycle;
    if a == Tick {
      CycleKeepsRouting(s.f);
      CycleDrains(s.f);
      EmptyIffZero(s.f);
    } else if a.host < HOSTS && s.f.hosts[a.host].rx != [] {
      var r := Step(s, a).f;
      assert HostRouted(s.f.hosts[a.host], a.host) && HostRouted(r.hosts[a.host], a.host);
      SameFlightSameTotal(s.f, r);
    }
  }

  lemma SameFlightSameTotal(f: Fabric, f': Fabric)
    requires FabricShape(f) && FabricShape(f') && SameFlight(f, f')
    ensures InFlight(f) == InFlight(f')
  {
    TotalReads(f, f', 64);
  }

  // Without new posts, no schedule of cycles and pops can keep the fabric from draining: each ready cycle counts.
  lemma {:induction false} QuietRunDrains(s: Sys, actions: seq<Action>)
    requires SysShape(s) && Routed(s.f) && Quiet(actions)
    ensures Routed(Continue(s, actions).f)
    ensures Drained(Continue(s, actions).f)
      || InFlight(Continue(s, actions).f) + ReadyTicks(s, actions) <= InFlight(s.f)
    ensures ReadyTicks(s, actions) >= InFlight(s.f) ==> Drained(Continue(s, actions).f)
  {
    hide InFlight, Drained, Step, Routed;
    if actions != [] {
      var front, last := actions[..|actions| - 1], actions[|actions| - 1];
      QuietRunDrains(s, front);
      assert last in actions;
      QuietStepDrains(Continue(s, front), last);
      EmptyIffZero(Continue(s, front).f);
    }
    EmptyIffZero(Continue(s, actions).f);
  }
}
