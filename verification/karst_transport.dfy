// Exactly-once, in-order transport between every host and every memory channel.

module KarstProjection {
  import opened KarstAddress
  import opened KarstLink
  import opened KarstEndpoint

  // Does this flit travel between host h and controller m of die d?
  predicate Between(f: Flit, h: nat, d: nat, m: nat) {
    f.src == h && DieOf(f.addr) == d && McOf(f.addr) == m
  }

  function Of(q: seq<Flit>, h: nat, d: nat, m: nat): seq<Flit> {
    if q == [] then []
    else
      var last := q[|q| - 1];
      Of(q[..|q| - 1], h, d, m) + (if Between(last, h, d, m) then [last] else [])
  }

  lemma {:induction false} OfConcat(a: seq<Flit>, b: seq<Flit>, h: nat, d: nat, m: nat)
    ensures Of(a + b, h, d, m) == Of(a, h, d, m) + Of(b, h, d, m)
  {
    if b == [] {
      assert a + b == a;
    } else {
      var front, last := b[..|b| - 1], b[|b| - 1];
      assert (a + b)[..|a + b| - 1] == a + front;
      OfConcat(a, front, h, d, m);
    }
  }

  lemma {:induction false} OfNone(q: seq<Flit>, h: nat, d: nat, m: nat)
    requires forall f :: f in q ==> !Between(f, h, d, m)
    ensures Of(q, h, d, m) == []
  {
    if q != [] {
      OfNone(q[..|q| - 1], h, d, m);
    }
  }

  lemma {:induction false} OfMembers(q: seq<Flit>, h: nat, d: nat, m: nat)
    ensures forall f :: f in Of(q, h, d, m) <==> f in q && Between(f, h, d, m)
  {
    if q != [] {
      OfMembers(q[..|q| - 1], h, d, m);
      assert q == q[..|q| - 1] + [q[|q| - 1]];
    }
  }

  lemma OfHead(q: seq<Flit>, h: nat, d: nat, m: nat)
    requires q != []
    ensures Of(q, h, d, m) == Of([q[0]], h, d, m) + Of(q[1..], h, d, m)
  {
    assert q == [q[0]] + q[1..];
    OfConcat([q[0]], q[1..], h, d, m);
  }

  lemma OfStrangerLast(q: seq<Flit>, x: Flit, h: nat, d: nat, m: nat)
    requires !Between(x, h, d, m)
    ensures Of(q + [x], h, d, m) == Of(q, h, d, m)
  {
    assert (q + [x])[..|q + [x]| - 1] == q;
  }

  lemma OfStrangerFirst(q: seq<Flit>, h: nat, d: nat, m: nat)
    requires q != [] && !Between(q[0], h, d, m)
    ensures Of(q[1..], h, d, m) == Of(q, h, d, m)
  {
    OfHead(q, h, d, m);
    OfNone([q[0]], h, d, m);
  }

  lemma OfSplice(a: seq<Flit>, b: seq<Flit>, c: seq<Flit>, e: seq<Flit>, h: nat, d: nat, m: nat)
    requires a + b == c + e
    ensures Of(a, h, d, m) + Of(b, h, d, m) == Of(c, h, d, m) + Of(e, h, d, m)
  {
    OfConcat(a, b, h, d, m);
    OfConcat(c, e, h, d, m);
  }

  lemma Shift(moved: seq<Flit>, rest: seq<Flit>, all: seq<Flit>, back: seq<Flit>, more: seq<Flit>)
    requires moved + rest == all
    ensures moved + (rest + (back + more)) == (all + back) + more
  {
  }

  // Moving a head between two adjacent queues keeps their combined traffic.
  lemma OfMoveHead(from: seq<Flit>, to: seq<Flit>, h: nat, d: nat, m: nat)
    requires from != []
    ensures Of(to + [from[0]], h, d, m) + Of(from[1..], h, d, m) == Of(to, h, d, m) + Of(from, h, d, m)
  {
    assert (to + [from[0]]) + from[1..] == to + from;
    OfSplice(to + [from[0]], from[1..], to, from, h, d, m);
  }

  function Wires(id: nat, q: seq<Txn>): seq<Flit> {
    seq(|q|, i requires 0 <= i < |q| => WireOf(id, q[i]))
  }

  lemma WiresConcat(id: nat, a: seq<Txn>, b: seq<Txn>)
    ensures Wires(id, a + b) == Wires(id, a) + Wires(id, b)
  {
  }
}

module KarstTransport {
  import opened KarstAddress
  import opened KarstLink
  import opened KarstQueue
  import opened KarstPipes
  import opened KarstSwitch
  import opened KarstDie
  import opened KarstEndpoint
  import opened KarstTopology
  import opened KarstRouting
  import opened KarstProjection

  // What has happened so far: requests accepted from each host, responses each host took, flits each host
  // received, and the requests each memory channel has served.
  datatype History = History(
    posted: seq<seq<Txn>>,
    popped: seq<seq<HostResponse>>,
    arrived: seq<seq<Flit>>,
    log: seq<seq<seq<Flit>>>)

  datatype Sys = Sys(f: Fabric, hist: History)

  datatype Action = Post(host: nat, txn: Txn) | TakeResponse(host: nat) | Tick

  predicate HistoryShape(h: History) {
    && |h.posted| == |h.popped| == |h.arrived| == HOSTS
    && |h.log| == DIES && |h.log[0]| == |h.log[1]| == MC_PORTS
  }

  predicate SysShape(s: Sys) {
    FabricShape(s.f) && HistoryShape(s.hist)
  }

  function ServedNow(d: Die, m: nat): seq<Flit>
    requires DieShape(d) && m < MC_PORTS
  {
    if d.pipes[m].outValid && ServeAll(d)[m].ready then [d.pipes[m].outData] else []
  }

  function ArrivedNow(h: Host, i: HostInputs): seq<Flit> {
    (if i.l0RxValid && h.l0Ready then [i.l0RxData] else [])
    + (if i.l1RxValid && h.l1Ready then [i.l1RxData] else [])
  }

  function Record(s: Sys): (h: History)
    requires SysShape(s)
    ensures HistoryShape(h)
  {
    s.hist.(
      arrived := seq(HOSTS, h requires 0 <= h < HOSTS =>
        s.hist.arrived[h] + ArrivedNow(s.f.hosts[h], HostInputsOf(s.f, h))),
      log := seq(DIES, d requires 0 <= d < DIES =>
        seq(MC_PORTS, m requires 0 <= m < MC_PORTS => s.hist.log[d][m] + ServedNow(s.f.dies[d], m))))
  }

  function Step(s: Sys, a: Action): (r: Sys)
    requires SysShape(s)
    ensures SysShape(r)
  {
    match a
    case Post(h, t) =>
      if h >= HOSTS || PostOutcome(s.f.hosts[h], t) != Posted then s
      else
        Sys(s.f.(hosts := s.f.hosts[h := PostTxn(s.f.hosts[h], t)]),
            s.hist.(posted := s.hist.posted[h := s.hist.posted[h] + [t]]))
    case TakeResponse(h) =>
      if h >= HOSTS || s.f.hosts[h].rx == [] then s
      else
        Sys(s.f.(hosts := s.f.hosts[h := PopOne(s.f.hosts[h])]),
            s.hist.(popped := s.hist.popped[h := s.hist.popped[h] + [s.f.hosts[h].rx[0]]]))
    case Tick => Ticked(s)
  }

  function Ticked(s: Sys): (r: Sys)
    requires SysShape(s)
    ensures SysShape(r)
  {
    Sys(Cycle(s.f), Record(s))
  }

  function Start(mem: seq<seq<Memory>>): (s: Sys)
    requires |mem| == DIES && |mem[0]| == |mem[1]| == MC_PORTS
    ensures SysShape(s)
  {
    NewFabricIsRouted(mem);
    Sys(NewFabric(mem), History(seq(HOSTS, _ => []), seq(HOSTS, _ => []), seq(HOSTS, _ => []),
                                [[[], [], [], []], [[], [], [], []]]))
  }

  function Run(mem: seq<seq<Memory>>, actions: seq<Action>): (s: Sys)
    requires |mem| == DIES && |mem[0]| == |mem[1]| == MC_PORTS
    ensures SysShape(s)
  {
    if actions == [] then Start(mem)
    else Step(Run(mem, actions[..|actions| - 1]), actions[|actions| - 1])
  }

  // What a channel answers, as a function of the requests it has served.
  function Apply(mem: Memory, f: Flit): Memory {
    match DecodeLocalWord(f.addr, CHANNEL_CAPACITY)
    case Faulty(_) => mem
    case Local(local) => DecodedIsInside(f.addr); if f.isWrite then mem[local / 4 := f.data] else mem
  }

  function Answer(mem: Memory, f: Flit): seq<Flit> {
    match DecodeLocalWord(f.addr, CHANNEL_CAPACITY)
    case Faulty(fault) => [FaultResponse(f.addr, f.src, fault)]
    case Local(local) =>
      DecodedIsInside(f.addr);
      if f.isWrite then [] else [OnWire(f.addr, mem[local / 4], f.src, false)]
  }

  function Replay(mem: Memory, log: seq<Flit>): Memory {
    if log == [] then mem else Apply(Replay(mem, log[..|log| - 1]), log[|log| - 1])
  }

  function Answers(mem: Memory, log: seq<Flit>): seq<Flit> {
    if log == [] then []
    else Answers(mem, log[..|log| - 1]) + Answer(Replay(mem, log[..|log| - 1]), log[|log| - 1])
  }

  // Responses staged at a channel that the crossbar has not accepted yet.
  function Unaccepted(d: Die, m: nat): seq<Flit>
    requires DieShape(d) && m < MC_PORTS
  {
    Responsible(d.staging[m], d.lastAccepted[m])
  }

  // Requests of host h that channel (d, m) has not served yet, oldest first: in the pipe, at the controller port,
  // at the ingress link, and still at the host.
  function Awaiting(die: Die, host: Host, h: nat, d: nat, m: nat): seq<Flit>
    requires DieShape(die) && h < HOSTS && m < MC_PORTS
  {
    Of(die.pipes[m].fifo, h, d, m)
    + (Of(die.noc.mcReq[m], h, d, m) + Of(die.noc.klRx[PortOf(d, h)], h, d, m))
    + (Of(Wires(h, host.active), h, d, m) + Of(Wires(h, host.tx), h, d, m))
  }

  function RequestFlow(log: seq<Flit>, die: Die, host: Host, h: nat, d: nat, m: nat): seq<Flit>
    requires DieShape(die) && h < HOSTS && m < MC_PORTS
  {
    Of(log, h, d, m) + Awaiting(die, host, h, d, m)
  }

  // Responses of channel (d, m) that host h has not received yet, oldest first: on the egress link, in the
  // crossbar, and staged at the channel.
  function Returning(die: Die, h: nat, d: nat, m: nat): seq<Flit>
    requires DieShape(die) && h < HOSTS && m < MC_PORTS
  {
    Of(die.noc.klTx[PortOf(d, h)], h, d, m) + Of(die.noc.mcResp[m], h, d, m) + Of(Unaccepted(die, m), h, d, m)
  }

  function ResponseFlow(arrived: seq<Flit>, die: Die, h: nat, d: nat, m: nat): seq<Flit>
    requires DieShape(die) && h < HOSTS && m < MC_PORTS
  {
    Of(arrived, h, d, m) + Returning(die, h, d, m)
  }

  // Nothing host h posted to the channel is lost, repeated or reordered, and neither is anything the channel answers.
  predicate Conserved(s: Sys, init: seq<seq<Memory>>, h: nat, d: nat, m: nat)
    requires SysShape(s) && h < HOSTS && d < DIES && m < MC_PORTS
    requires |init| == DIES && |init[0]| == |init[1]| == MC_PORTS
  {
    && RequestFlow(s.hist.log[d][m], s.f.dies[d], s.f.hosts[h], h, d, m) == Of(Wires(h, s.hist.posted[h]), h, d, m)
    && ResponseFlow(s.hist.arrived[h], s.f.dies[d], h, d, m) == Of(Answers(init[d][m], s.hist.log[d][m]), h, d, m)
  }

  // Everything a host receives answers a mapped address of its own, and none of it is a fault.
  predicate ForHost(q: seq<Flit>, h: nat) {
    forall f :: f in q ==> f.src == h && Mapped(f.addr) && !f.isWrite
  }

  function FromFlits(q: seq<Flit>): seq<HostResponse> {
    seq(|q|, i requires 0 <= i < |q| => FromFlit(q[i]))
  }

  predicate HostInv(s: Sys, h: nat)
    requires SysShape(s) && h < HOSTS
  {
    s.hist.popped[h] + s.f.hosts[h].rx == FromFlits(s.hist.arrived[h]) && ForHost(s.hist.arrived[h], h)
  }

  predicate ChannelInv(s: Sys, init: seq<seq<Memory>>, d: nat, m: nat)
    requires |init| == DIES && |init[0]| == |init[1]| == MC_PORTS
    requires SysShape(s) && d < DIES && m < MC_PORTS
  {
    && s.f.dies[d].mem[m] == Replay(init[d][m], s.hist.log[d][m])
    && Requests(s.hist.log[d][m], d, m)
    && forall h :: 0 <= h < HOSTS ==> Conserved(s, init, h, d, m)
  }

  predicate Inv(s: Sys, init: seq<seq<Memory>>)
    requires |init| == DIES && |init[0]| == |init[1]| == MC_PORTS
  {
    && SysShape(s) && Routed(s.f)
    && (forall h :: 0 <= h < HOSTS ==> HostInv(s, h))
    && (forall d, m :: 0 <= d < DIES && 0 <= m < MC_PORTS ==> ChannelInv(s, init, d, m))
  }

  // The part of both flows that sits in the crossbar of die n.die.
  function Requested(n: Noc, h: nat, m: nat): seq<Flit>
    requires Shape(n) && h < HOSTS && m < MC_PORTS
  {
    Of(n.mcReq[m], h, n.die, m) + Of(n.klRx[PortOf(n.die, h)], h, n.die, m)
  }

  function Answered(n: Noc, h: nat, m: nat): seq<Flit>
    requires Shape(n) && h < HOSTS && m < MC_PORTS
  {
    Of(n.klTx[PortOf(n.die, h)], h, n.die, m) + Of(n.mcResp[m], h, n.die, m)
  }

  // Routing one port moves at most one flit, from the link of its host to the controller it names.
  lemma RoutePortConserves(n: Noc, t: nat, h: nat, m: nat)
    requires NocRouted(n) && t < KL_PORTS && h < HOSTS && m < MC_PORTS
    ensures var r, p := RoutePort(n, t), PortOf(n.die, h);
            Requested(r, h, m) == Requested(n, h, m) && r.klTx == n.klTx
  {
    if n.klRx[t] != [] {
      var flit := n.klRx[t][0];
      assert flit in n.klRx[t];
      assert Ingress(n.klRx[t], n.die, HostAt(n.die, t));
      var p, mc := PortOf(n.die, h), McOf(flit.addr);
      if |n.mcReq[mc]| != QUEUE {
        assert |n.mcReq[mc]| < QUEUE;
        if t == p && mc == m {
          OfMoveHead(n.klRx[t], n.mcReq[mc], h, n.die, m);
        } else if t == p {
          OfStrangerFirst(n.klRx[t], h, n.die, m);
        } else if mc == m {
          OfStrangerLast(n.mcReq[mc], flit, h, n.die, m);
        }
      }
    }
  }

  lemma RoutePortsConserve(n: Noc, count: nat, h: nat, m: nat)
    requires NocRouted(n) && count <= KL_PORTS && h < HOSTS && m < MC_PORTS
    ensures Requested(RoutePorts(n, count), h, m) == Requested(n, h, m) && RoutePorts(n, count).klTx == n.klTx
  {
    hide RoutePort, Requested;
    if count > 0 {
      RoutePortsKeep(n, count - 1);
      RoutePortsConserve(n, count - 1, h, m);
      RoutePortConserves(RoutePorts(n, count - 1), count - 1, h, m);
    }
  }

  lemma RouteResponseConserves(n: Noc, c: nat, h: nat, m: nat)
    requires NocRouted(n) && c < MC_PORTS && h < HOSTS && m < MC_PORTS
    ensures Answered(RouteResponse(n, c), h, m) == Answered(n, h, m)
  {
    if n.mcResp[c] != [] {
      var flit := n.mcResp[c][0];
      assert flit in n.mcResp[c];
      var p, port := PortOf(n.die, h), TargetPort(n.die, flit.src);
      ResponseFindsItsHost(n.die, flit.src);
      if |n.klTx[port]| != QUEUE {
        assert |n.klTx[port]| < QUEUE;
        if c == m && port == p {
          OfMoveHead(n.mcResp[c], n.klTx[port], h, n.die, m);
        } else if c == m {
          OfStrangerFirst(n.mcResp[c], h, n.die, m);
        } else if port == p {
          OfStrangerLast(n.klTx[port], flit, h, n.die, m);
        }
      }
    }
  }

  lemma RouteResponsesConserve(n: Noc, count: nat, h: nat, m: nat)
    requires NocRouted(n) && count <= MC_PORTS && h < HOSTS && m < MC_PORTS
    ensures Answered(RouteResponses(n, count), h, m) == Answered(n, h, m)
  {
    hide RouteResponse, Answered;
    if count > 0 {
      RouteResponsesKeep(n, count - 1);
      RouteResponsesConserve(n, count - 1, h, m);
      RouteResponseConserves(RouteResponses(n, count - 1), count - 1, h, m);
    }
  }

  function Injected(n: Noc, i: NocInputs, p: nat): seq<Flit>
    requires Shape(n) && InputShape(i) && p < KL_PORTS
  {
    if i.rxValid[p] && n.rxReady[p] then [i.rxData[p]] else []
  }

  function Absorbed(n: Noc, i: NocInputs, m: nat): seq<Flit>
    requires Shape(n) && InputShape(i) && m < MC_PORTS
  {
    if i.respValid[m] && n.respReady[m] then [i.respData[m]] else []
  }

  // Retiring and capturing are the two ends of handshakes, so a sampled queue differs by whole moved words.
  lemma SampleMovesRequests(n: Noc, i: NocInputs, p: nat, m: nat)
    requires NocRouted(n) && InputShape(i) && Registered(n) && p < KL_PORTS && m < MC_PORTS
    ensures Moved(n.mcReq[m], i.reqReady[m]) + Sample(n, i).mcReq[m] == n.mcReq[m]
    ensures Sample(n, i).klRx[p] == n.klRx[p] + Injected(n, i, p)
  {
    assert n.lastMcReq[m] == (n.mcReq[m] != []);
    assert n.rxReady[p] == (|n.klRx[p]| != QUEUE);
  }

  lemma SampleMovesResponses(n: Noc, i: NocInputs, p: nat, m: nat)
    requires NocRouted(n) && InputShape(i) && Registered(n) && p < KL_PORTS && m < MC_PORTS
    ensures Moved(n.klTx[p], i.txReady[p]) + Sample(n, i).klTx[p] == n.klTx[p]
    ensures Sample(n, i).mcResp[m] == n.mcResp[m] + Absorbed(n, i, m)
  {
    assert n.lastKlTx[p] == (n.klTx[p] != []);
    assert n.respReady[m] == (|n.mcResp[m]| != QUEUE);
  }

  lemma SampleConservesRequests(n: Noc, i: NocInputs, h: nat, m: nat)
    requires NocRouted(n) && InputShape(i) && Registered(n) && h < HOSTS && m < MC_PORTS
    ensures var s, p, d := Sample(n, i), PortOf(n.die, h), n.die;
            Of(Moved(n.mcReq[m], i.reqReady[m]), h, d, m) + Requested(s, h, m)
            == Requested(n, h, m) + Of(Injected(n, i, p), h, d, m)
  {
    var p, d, s := PortOf(n.die, h), n.die, Sample(n, i);
    SampleMovesRequests(n, i, p, m);
    var moved, injected := Moved(n.mcReq[m], i.reqReady[m]), Injected(n, i, p);
    OfConcat(moved, s.mcReq[m], h, d, m);
    OfConcat(n.klRx[p], injected, h, d, m);
    Shift(Of(moved, h, d, m), Of(s.mcReq[m], h, d, m), Of(n.mcReq[m], h, d, m),
          Of(n.klRx[p], h, d, m), Of(injected, h, d, m));
  }

  lemma SampleConservesAnswers(n: Noc, i: NocInputs, h: nat, m: nat)
    requires NocRouted(n) && InputShape(i) && Registered(n) && h < HOSTS && m < MC_PORTS
    ensures var s, p, d := Sample(n, i), PortOf(n.die, h), n.die;
            Of(Moved(n.klTx[p], i.txReady[p]), h, d, m) + Answered(s, h, m)
            == Answered(n, h, m) + Of(Absorbed(n, i, m), h, d, m)
  {
    var p, d, s := PortOf(n.die, h), n.die, Sample(n, i);
    SampleMovesResponses(n, i, p, m);
    var moved, absorbed := Moved(n.klTx[p], i.txReady[p]), Absorbed(n, i, m);
    OfConcat(moved, s.klTx[p], h, d, m);
    OfConcat(n.mcResp[m], absorbed, h, d, m);
    Shift(Of(moved, h, d, m), Of(s.klTx[p], h, d, m), Of(n.klTx[p], h, d, m),
          Of(n.mcResp[m], h, d, m), Of(absorbed, h, d, m));
  }

  // The crossbar neither loses nor repeats nor reorders the traffic of one host with one controller.
  lemma NocConserves(n: Noc, i: NocInputs, h: nat, m: nat)
    requires NocRouted(n) && InputsRouted(i, n.die) && Registered(n) && h < HOSTS && m < MC_PORTS
    ensures var r, p, d := NocStep(n, i), PortOf(n.die, h), n.die;
            && Of(Moved(n.mcReq[m], i.reqReady[m]), h, d, m) + Requested(r, h, m)
               == Requested(n, h, m) + Of(Injected(n, i, p), h, d, m)
            && Of(Moved(n.klTx[p], i.txReady[p]), h, d, m) + Answered(r, h, m)
               == Answered(n, h, m) + Of(Absorbed(n, i, m), h, d, m)
  {
    SampleConservesRequests(n, i, h, m);
    SampleConservesAnswers(n, i, h, m);
    var s := Sample(n, i);
    SampleKeeps(n, i);
    RoutePortsKeep(s, KL_PORTS);
    RoutePortsConserve(s, KL_PORTS, h, m);
    RouteResponsesConserve(RoutePorts(s, KL_PORTS), MC_PORTS, h, m);
  }

  // Serving applies the request to the memory and stages exactly its answer.
  lemma ServeMeans(valid: bool, flit: Flit, mem: Memory, staging: seq<Flit>)
    requires |staging| <= QUEUE
    ensures var s := Serve(valid, flit, mem, staging);
            if valid && s.ready then s.mem == Apply(mem, flit) && s.staging == staging + Answer(mem, flit)
            else s.mem == mem && s.staging == staging
  {
  }

  lemma ReplayMore(mem: Memory, log: seq<Flit>, served: seq<Flit>)
    requires |served| <= 1
    ensures served == [] ==>
      Replay(mem, log + served) == Replay(mem, log) && Answers(mem, log + served) == Answers(mem, log)
    ensures served != [] ==>
      && Replay(mem, log + served) == Apply(Replay(mem, log), served[0])
      && Answers(mem, log + served) == Answers(mem, log) + Answer(Replay(mem, log), served[0])
  {
    if served == [] {
      assert log + served == log;
    } else {
      assert (log + served)[..|log + served| - 1] == log;
    }
  }

  function Completed(h: Host, i: HostInputs): seq<Txn> {
    Moved(h.active, if h.presentedIsL1 then i.l1TxReady else i.l0TxReady)
  }

  // A die sees a request on the link of host h exactly when the active head of h is for that die.
  lemma LinkPresents(f: Fabric, h: nat, d: nat)
    requires Routed(f) && h < HOSTS && d < DIES
    ensures var p, active := PortOf(d, h), f.hosts[h].active;
            && LinkValid(f, d, p) == (active != [] && DieOf(active[0].addr) == d)
            && (LinkValid(f, d, p) ==> LinkData(f, d, p) == WireOf(h, active[0]))
            && (LinkValid(f, d, p) ==>
                  Completed(f.hosts[h], HostInputsOf(f, h)) == Moved(active, f.dies[d].noc.rxReady[p]))
  {
    var host := f.hosts[h];
    assert HostRouted(host, h);
  }

  function LinkInjected(die: Die, i: DieInputs, p: nat): seq<Flit>
    requires DieShape(die) && |i.valid| == |i.data| == KL_PORTS && p < KL_PORTS
  {
    if i.valid[p] && die.noc.rxReady[p] then [i.data[p]] else []
  }

  lemma ElsewhereIsNotOf(t: Txn, h: nat, d: nat, m: nat)
    requires Mapped(t.addr) && DieOf(t.addr) != d
    ensures Of([WireOf(h, t)], h, d, m) == []
  {
    assert WireOf(h, t).addr == t.addr;
    OfNone([WireOf(h, t)], h, d, m);
  }

  // What the host considers sent to die d is what the die considers received.
  lemma HostHandshake(f: Fabric, h: nat, d: nat, m: nat)
    requires Routed(f) && h < HOSTS && d < DIES && m < MC_PORTS
    ensures Of(LinkInjected(f.dies[d], DieInputsOf(f, d), PortOf(d, h)), h, d, m)
            == Of(Wires(h, Completed(f.hosts[h], HostInputsOf(f, h))), h, d, m)
  {
    var host, p := f.hosts[h], PortOf(d, h);
    var wires := Wires(h, Completed(host, HostInputsOf(f, h)));
    LinkPresents(f, h, d);
    assert HostRouted(host, h);
    if LinkValid(f, d, p) {
      assert wires == LinkInjected(f.dies[d], DieInputsOf(f, d), p);
    } else if wires != [] {
      assert host.active[0] in host.active && wires == [WireOf(h, host.active[0])];
      ElsewhereIsNotOf(host.active[0], h, d, m);
    }
  }

  lemma HostConserves(host: Host, i: HostInputs)
    requires HostOk(host)
    ensures var r := HostStep(host, i); Completed(host, i) + r.active + r.tx == host.active + host.tx
  {
    var active := CompleteTx(host, i);
    assert Completed(host, i) + active == host.active;
    var k := FetchCount(active, host.tx);
    var r := HostStep(host, i);
    assert r.active == active + host.tx[..k] && r.tx == host.tx[k..];
    Regroup(Completed(host, i), active, host.tx[..k], host.tx[k..]);
    assert host.tx == host.tx[..k] + host.tx[k..];
  }

  lemma Regroup<T>(a: seq<T>, b: seq<T>, c: seq<T>, e: seq<T>)
    ensures a + (b + c) + e == (a + b) + (c + e)
  {
  }

  // The response a die hands to host h this cycle.
  function Delivered(f: Fabric, d: nat, h: nat): seq<Flit>
    requires FabricShape(f) && d < DIES && h < HOSTS
  {
    Moved(f.dies[d].noc.klTx[PortOf(d, h)], LinkReady(f, d, PortOf(d, h)))
  }

  lemma ArrivedFrom(f: Fabric, h: nat)
    requires Routed(f) && h < HOSTS
    ensures ArrivedNow(f.hosts[h], HostInputsOf(f, h))
            == Delivered(f, PrimaryDie(h), h) + Delivered(f, 1 - PrimaryDie(h), h)
  {
    assert DieRouted(f.dies[0], 0) && DieRouted(f.dies[1], 1);
  }

  lemma DeliveredElsewhere(f: Fabric, h: nat, d: nat, m: nat)
    requires Routed(f) && h < HOSTS && d < DIES && m < MC_PORTS
    ensures Of(Delivered(f, 1 - d, h), h, d, m) == []
  {
    var other := 1 - d;
    assert DieRouted(f.dies[other], other);
    assert Egress(f.dies[other].noc.klTx[PortOf(other, h)], other, HostAt(other, PortOf(other, h)));
    OfNone(Delivered(f, other, h), h, d, m);
  }

  // What the die considers delivered to host h is what the host considers received from that die.
  lemma DeliveryHandshake(f: Fabric, h: nat, d: nat, m: nat)
    requires Routed(f) && h < HOSTS && d < DIES && m < MC_PORTS
    ensures Of(ArrivedNow(f.hosts[h], HostInputsOf(f, h)), h, d, m) == Of(Delivered(f, d, h), h, d, m)
  {
    ArrivedFrom(f, h);
    OfConcat(Delivered(f, PrimaryDie(h), h), Delivered(f, 1 - PrimaryDie(h), h), h, d, m);
    DeliveredElsewhere(f, h, d, m);
  }

  // The pipe takes what the crossbar gives up, and the channel serves what the pipe gives up.
  lemma PipeHandshake(d: Die, die: nat, m: nat)
    requires DieRouted(d, die) && m < MC_PORTS
    ensures ServedNow(d, m) + DiePipes(d)[m].fifo == d.pipes[m].fifo + Moved(d.noc.mcReq[m], d.pipes[m].upReady)
  {
    var p := d.pipes[m];
    assert PipeOk(p);
    assert d.noc.reqValid[m] == (d.noc.mcReq[m] != []) && d.noc.reqData[m] == HeadOr(d.noc.mcReq[m]);
    PipeIsFifo(p, d.noc.reqValid[m], d.noc.reqData[m], ServeAll(d)[m].ready);
  }

  // The crossbar absorbs the staged head exactly when the die will retire it next cycle.
  lemma StagingHandshake(d: Die, i: DieInputs, die: nat, m: nat)
    requires DieRouted(d, die) && LinksRouted(i, die) && m < MC_PORTS
    ensures var r := DieStep(d, i.valid, i.data, i.ready);
            Absorbed(d.noc, DieNocInputs(d, i.valid, i.data, i.ready), m) + Unaccepted(r, m)
            == Unaccepted(d, m)
               + (if ServedNow(d, m) == [] then [] else Answer(d.mem[m], ServedNow(d, m)[0]))
  {
    ServeMeans(d.pipes[m].outValid, d.pipes[m].outData, d.mem[m], RetireStaging(d)[m]);
    assert RetireStaging(d)[m] == Unaccepted(d, m);
  }

  // Six stages in a row: each takes over what its neighbour gives up, so the line keeps its contents.
  lemma Relay(log: seq<Flit>, log': seq<Flit>, served: seq<Flit>,
              pipe: seq<Flit>, pipe': seq<Flit>, forwarded: seq<Flit>,
              noc: seq<Flit>, noc': seq<Flit>, injected: seq<Flit>,
              host: seq<Flit>, host': seq<Flit>)
    requires log' == log + served
    requires served + pipe' == pipe + forwarded
    requires forwarded + noc' == noc + injected
    requires injected + host' == host
    ensures log' + (pipe' + noc' + host') == log + (pipe + noc + host)
  {
    calc {
      log' + (pipe' + noc' + host');
      log + (served + pipe') + noc' + host';
      { assert log + (pipe + forwarded) + noc' + host' == log + pipe + (forwarded + noc') + host'; }
      log + pipe + (forwarded + noc') + host';
      { assert log + pipe + (noc + injected) + host' == log + pipe + noc + (injected + host'); }
      log + pipe + noc + (injected + host');
    }
  }

  function HostPart(host: Host, h: nat, d: nat, m: nat): seq<Flit> {
    Of(Wires(h, host.active), h, d, m) + Of(Wires(h, host.tx), h, d, m)
  }

  lemma HostPartIs(host: Host, h: nat, d: nat, m: nat)
    ensures HostPart(host, h, d, m) == Of(Wires(h, host.active + host.tx), h, d, m)
  {
    WiresConcat(h, host.active, host.tx);
    OfConcat(Wires(h, host.active), Wires(h, host.tx), h, d, m);
  }

  lemma HostStepConserves(host: Host, i: HostInputs, h: nat, d: nat, m: nat)
    requires HostOk(host)
    ensures Of(Wires(h, Completed(host, i)), h, d, m) + HostPart(HostStep(host, i), h, d, m) == HostPart(host, h, d, m)
  {
    hide HostStep, Completed;
    var r, completed := HostStep(host, i), Completed(host, i);
    HostConserves(host, i);
    assert completed + (r.active + r.tx) == completed + r.active + r.tx;
    WiresConcat(h, completed, r.active + r.tx);
    OfConcat(Wires(h, completed), Wires(h, r.active + r.tx), h, d, m);
    HostPartIs(host, h, d, m);
    HostPartIs(r, h, d, m);
  }

  lemma HostPartConserves(f: Fabric, h: nat, d: nat, m: nat)
    requires Routed(f) && h < HOSTS && d < DIES && m < MC_PORTS
    ensures Of(LinkInjected(f.dies[d], DieInputsOf(f, d), PortOf(d, h)), h, d, m) + HostPart(Cycle(f).hosts[h], h, d, m)
            == HostPart(f.hosts[h], h, d, m)
  {
    assert HostRouted(f.hosts[h], h);
    HostHandshake(f, h, d, m);
    HostStepConserves(f.hosts[h], HostInputsOf(f, h), h, d, m);
  }

  // The die end of the request path: what the pipe and the crossbar pass on in one cycle.
  lemma DieRequests(die: Die, i: DieInputs, d: nat, h: nat, m: nat) returns (forwarded: seq<Flit>)
    requires DieRouted(die, d) && LinksRouted(i, d) && h < HOSTS && m < MC_PORTS
    ensures var r := DieStep(die, i.valid, i.data, i.ready);
            && Of(ServedNow(die, m), h, d, m) + Of(r.pipes[m].fifo, h, d, m)
               == Of(die.pipes[m].fifo, h, d, m) + forwarded
            && forwarded + Requested(r.noc, h, m)
               == Requested(die.noc, h, m) + Of(LinkInjected(die, i, PortOf(d, h)), h, d, m)
  {
    PipeHandshake(die, d, m);
    var moved := Moved(die.noc.mcReq[m], die.pipes[m].upReady);
    OfSplice(ServedNow(die, m), DiePipes(die)[m].fifo, die.pipes[m].fifo, moved, h, d, m);
    var n := DieNocInputs(die, i.valid, i.data, i.ready);
    DieNocRouted(die, i, d);
    NocConserves(die.noc, n, h, m);
    assert Injected(die.noc, n, PortOf(d, h)) == LinkInjected(die, i, PortOf(d, h));
    forwarded := Of(moved, h, d, m);
  }

  lemma RequestsConserved(f: Fabric, log: seq<Flit>, h: nat, d: nat, m: nat)
    requires Routed(f) && h < HOSTS && d < DIES && m < MC_PORTS
    ensures RequestFlow(log + ServedNow(f.dies[d], m), StepDie(f, d), Cycle(f).hosts[h], h, d, m)
            == RequestFlow(log, f.dies[d], f.hosts[h], h, d, m)
  {
    assert DieRouted(f.dies[d], d);
    LinksAreRouted(f, d);
    var forwarded := DieRequests(f.dies[d], DieInputsOf(f, d), d, h, m);
    var die, die', served := f.dies[d], StepDie(f, d), ServedNow(f.dies[d], m);
    HostPartConserves(f, h, d, m);
    OfConcat(log, served, h, d, m);
    Relay(Of(log, h, d, m), Of(log + served, h, d, m), Of(served, h, d, m),
          Of(die.pipes[m].fifo, h, d, m), Of(die'.pipes[m].fifo, h, d, m), forwarded,
          Requested(die.noc, h, m), Requested(die'.noc, h, m),
            Of(LinkInjected(f.dies[d], DieInputsOf(f, d), PortOf(d, h)), h, d, m),
          HostPart(f.hosts[h], h, d, m), HostPart(Cycle(f).hosts[h], h, d, m));
  }

  lemma DieNocRouted(d: Die, i: DieInputs, die: nat)
    requires DieRouted(d, die) && LinksRouted(i, die)
    ensures InputsRouted(DieNocInputs(d, i.valid, i.data, i.ready), die)
  {
    ServeAllKeeps(d, die);
    var n := DieNocInputs(d, i.valid, i.data, i.ready);
    forall m | 0 <= m < MC_PORTS && n.respValid[m]
      ensures Responses([n.respData[m]], die, m)
    {
      assert n.respData[m] in ServeAll(d)[m].staging;
    }
  }

  function AnswerNow(d: Die, m: nat): seq<Flit>
    requires DieShape(d) && m < MC_PORTS
  {
    if ServedNow(d, m) == [] then [] else Answer(d.mem[m], ServedNow(d, m)[0])
  }

  // A channel's memory and answers are a function of the requests it has served, in order.
  lemma MemoryReplays(d: Die, m: nat, init: Memory, log: seq<Flit>)
    requires DieShape(d) && m < MC_PORTS && d.mem[m] == Replay(init, log)
    ensures ServeAll(d)[m].mem == Replay(init, log + ServedNow(d, m))
    ensures Answers(init, log + ServedNow(d, m)) == Answers(init, log) + AnswerNow(d, m)
  {
    ReplayMore(init, log, ServedNow(d, m));
    ServeMeans(d.pipes[m].outValid, d.pipes[m].outData, d.mem[m], RetireStaging(d)[m]);
  }

  // The die end of the response path: what the crossbar delivers and absorbs in one cycle.
  lemma DieResponses(f: Fabric, h: nat, d: nat, m: nat) returns (absorbed: seq<Flit>)
    requires Routed(f) && h < HOSTS && d < DIES && m < MC_PORTS
    ensures absorbed + Of(Unaccepted(StepDie(f, d), m), h, d, m)
            == Of(Unaccepted(f.dies[d], m), h, d, m) + Of(AnswerNow(f.dies[d], m), h, d, m)
    ensures Of(Delivered(f, d, h), h, d, m) + Answered(StepDie(f, d).noc, h, m)
            == Answered(f.dies[d].noc, h, m) + absorbed
  {
    var die, i := f.dies[d], DieInputsOf(f, d);
    var n := DieNocInputs(die, i.valid, i.data, i.ready);
    assert DieRouted(die, d);
    LinksAreRouted(f, d);
    StagingHandshake(die, i, d, m);
    OfSplice(Absorbed(die.noc, n, m), Unaccepted(StepDie(f, d), m), Unaccepted(die, m), AnswerNow(die, m), h, d, m);
    DieNocRouted(die, i, d);
    NocConserves(die.noc, n, h, m);
    assert Delivered(f, d, h) == Moved(die.noc.klTx[PortOf(d, h)], n.txReady[PortOf(d, h)]);
    absorbed := Of(Absorbed(die.noc, n, m), h, d, m);
  }

  lemma ResponsesConserved(f: Fabric, arrived: seq<Flit>, h: nat, d: nat, m: nat)
    requires Routed(f) && h < HOSTS && d < DIES && m < MC_PORTS
    ensures ResponseFlow(arrived + ArrivedNow(f.hosts[h], HostInputsOf(f, h)), StepDie(f, d), h, d, m)
            == ResponseFlow(arrived, f.dies[d], h, d, m) + Of(AnswerNow(f.dies[d], m), h, d, m)
  {
    var absorbed := DieResponses(f, h, d, m);
    DeliveryHandshake(f, h, d, m);
    var more := ArrivedNow(f.hosts[h], HostInputsOf(f, h));
    OfConcat(arrived, more, h, d, m);
    assert DieRouted(f.dies[d], d);
    Relay2(Of(arrived, h, d, m), Of(arrived + more, h, d, m), Of(more, h, d, m),
           Answered(f.dies[d].noc, h, m), Answered(StepDie(f, d).noc, h, m), absorbed,
           Of(Unaccepted(f.dies[d], m), h, d, m), Of(Unaccepted(StepDie(f, d), m), h, d, m),
           Of(AnswerNow(f.dies[d], m), h, d, m));
  }

  lemma Relay2(arrived: seq<Flit>, arrived': seq<Flit>, delivered: seq<Flit>,
               noc: seq<Flit>, noc': seq<Flit>, absorbed: seq<Flit>,
               staged: seq<Flit>, staged': seq<Flit>, answer: seq<Flit>)
    requires arrived' == arrived + delivered
    requires delivered + noc' == noc + absorbed
    requires absorbed + staged' == staged + answer
    ensures arrived' + (noc' + staged') == arrived + (noc + staged) + answer
  {
    calc {
      arrived' + (noc' + staged');
      arrived + (delivered + noc') + staged';
      { assert arrived + (noc + absorbed) + staged' == arrived + noc + (absorbed + staged'); }
      arrived + noc + (absorbed + staged');
    }
  }

  lemma FromFlitsConcat(a: seq<Flit>, b: seq<Flit>)
    ensures FromFlits(a + b) == FromFlits(a) + FromFlits(b)
  {
  }

  // Both links may deliver in one cycle and neither response is lost.
  lemma HostReceives(host: Host, i: HostInputs)
    requires HostOk(host)
    ensures HostStep(host, i).rx == host.rx + FromFlits(ArrivedNow(host, i))
  {
  }

  lemma TickKeepsArrivals(host: Host, i: HostInputs, popped: seq<HostResponse>, arrived: seq<Flit>)
    requires HostOk(host) && popped + host.rx == FromFlits(arrived)
    ensures popped + HostStep(host, i).rx == FromFlits(arrived + ArrivedNow(host, i))
  {
    var more := FromFlits(ArrivedNow(host, i));
    HostReceives(host, i);
    FromFlitsConcat(arrived, ArrivedNow(host, i));
    assert popped + (host.rx + more) == (popped + host.rx) + more;
  }

  lemma ArrivalsAreForHost(f: Fabric, h: nat)
    requires Routed(f) && h < HOSTS
    ensures ForHost(ArrivedNow(f.hosts[h], HostInputsOf(f, h)), h)
  {
    ArrivedFrom(f, h);
    forall d | 0 <= d < DIES
      ensures ForHost(Delivered(f, d, h), h)
    {
      assert DieRouted(f.dies[d], d);
      assert Egress(f.dies[d].noc.klTx[PortOf(d, h)], d, HostAt(d, PortOf(d, h)));
    }
  }

  lemma ServedIsRouted(d: Die, die: nat, m: nat)
    requires DieRouted(d, die) && m < MC_PORTS
    ensures Requests(ServedNow(d, m), die, m)
  {
    assert PipeOk(d.pipes[m]) && Requests(d.pipes[m].fifo, die, m);
    if ServedNow(d, m) != [] {
      assert d.pipes[m].outData in d.pipes[m].fifo;
    }
  }

  lemma CycleParts(f: Fabric, h: nat, d: nat, m: nat)
    requires FabricShape(f) && h < HOSTS && d < DIES && m < MC_PORTS
    ensures Cycle(f).hosts[h] == HostStep(f.hosts[h], HostInputsOf(f, h))
    ensures Cycle(f).dies[d] == StepDie(f, d) && StepDie(f, d).mem[m] == ServeAll(f.dies[d])[m].mem
  {
    hide HostStep, HostInputsOf, DieStep, HostOk, Serve;
    StepServes(f.dies[d], DieInputsOf(f, d), m);
  }

  lemma StepServes(die: Die, i: DieInputs, m: nat)
    requires DieShape(die) && m < MC_PORTS && |i.valid| == |i.data| == |i.ready| == KL_PORTS
    ensures DieStep(die, i.valid, i.data, i.ready).mem[m] == ServeAll(die)[m].mem
  {
    hide NocStep, DieNocInputs, DiePipes, Accepted, ServeAll;
  }

  lemma RecordParts(s: Sys, h: nat, d: nat, m: nat)
    requires SysShape(s) && h < HOSTS && d < DIES && m < MC_PORTS
    ensures Record(s).posted == s.hist.posted && Record(s).popped == s.hist.popped
    ensures Record(s).arrived[h] == s.hist.arrived[h] + ArrivedNow(s.f.hosts[h], HostInputsOf(s.f, h))
    ensures Record(s).log[d][m] == s.hist.log[d][m] + ServedNow(s.f.dies[d], m)
  {
  }

  lemma TickConserves(s: Sys, init: seq<seq<Memory>>, h: nat, d: nat, m: nat)
    requires |init| == DIES && |init[0]| == |init[1]| == MC_PORTS && h < HOSTS && d < DIES && m < MC_PORTS
    requires SysShape(s) && Routed(s.f) && Conserved(s, init, h, d, m)
    requires s.f.dies[d].mem[m] == Replay(init[d][m], s.hist.log[d][m])
    ensures Conserved(Ticked(s), init, h, d, m)
  {
    var log, arrived := s.hist.log[d][m], s.hist.arrived[h];
    CycleParts(s.f, h, d, m);
    RecordParts(s, h, d, m);
    MemoryReplays(s.f.dies[d], m, init[d][m], log);
    OfConcat(Answers(init[d][m], log), AnswerNow(s.f.dies[d], m), h, d, m);
    RequestsConserved(s.f, log, h, d, m);
    ResponsesConserved(s.f, arrived, h, d, m);
  }

  lemma TickKeepsMemory(s: Sys, init: seq<seq<Memory>>, d: nat, m: nat)
    requires |init| == DIES && |init[0]| == |init[1]| == MC_PORTS && d < DIES && m < MC_PORTS
    requires SysShape(s) && Routed(s.f) && Requests(s.hist.log[d][m], d, m)
    requires s.f.dies[d].mem[m] == Replay(init[d][m], s.hist.log[d][m])
    ensures Ticked(s).f.dies[d].mem[m] == Replay(init[d][m], Ticked(s).hist.log[d][m])
    ensures Requests(Ticked(s).hist.log[d][m], d, m)
  {
    hide ServeAll, ServedNow, Cycle, Record, StepDie, NocRouted, HostRouted, Replay, Routed, DieRouted, Requests;
    hide HostOk;
    CycleParts(s.f, 0, d, m);
    RecordParts(s, 0, d, m);
    RoutedDie(s.f, d);
    ServedKeepsLog(s.f.dies[d], d, m, s.hist.log[d][m]);
    MemoryReplays(s.f.dies[d], m, init[d][m], s.hist.log[d][m]);
  }

  lemma RoutedDie(f: Fabric, d: nat)
    requires Routed(f) && d < DIES
    ensures FabricShape(f) && DieRouted(f.dies[d], d)
  {
    hide DieRouted;
  }

  lemma ServedKeepsLog(die: Die, d: nat, m: nat, log: seq<Flit>)
    requires DieRouted(die, d) && m < MC_PORTS && Requests(log, d, m)
    ensures Requests(log + ServedNow(die, m), d, m)
  {
    hide DieRouted, ServedNow;
    ServedIsRouted(die, d, m);
  }

  lemma TickKeepsChannel(s: Sys, init: seq<seq<Memory>>, d: nat, m: nat)
    requires |init| == DIES && |init[0]| == |init[1]| == MC_PORTS && d < DIES && m < MC_PORTS
    requires SysShape(s) && Routed(s.f) && ChannelInv(s, init, d, m)
    ensures ChannelInv(Ticked(s), init, d, m)
  {
    hide Conserved, Ticked, Routed, Requests, Replay, SysShape, FabricShape, HistoryShape;
    TickKeepsMemory(s, init, d, m);
    forall h | 0 <= h < HOSTS
      ensures Conserved(Ticked(s), init, h, d, m)
    {
      TickConserves(s, init, h, d, m);
    }
  }

  lemma TickKeepsHost(s: Sys, h: nat)
    requires SysShape(s) && Routed(s.f) && h < HOSTS && HostInv(s, h)
    ensures HostInv(Ticked(s), h)
  {
    CycleParts(s.f, h, 0, 0);
    RecordParts(s, h, 0, 0);
    ArrivalsAreForHost(s.f, h);
    TickKeepsArrivals(s.f.hosts[h], HostInputsOf(s.f, h), s.hist.popped[h], s.hist.arrived[h]);
  }

  lemma TickKeepsInv(s: Sys, init: seq<seq<Memory>>)
    requires |init| == DIES && |init[0]| == |init[1]| == MC_PORTS
    requires Inv(s, init)
    ensures Inv(Ticked(s), init)
  {
    CycleKeepsRouting(s.f);
    forall h | 0 <= h < HOSTS
      ensures HostInv(Ticked(s), h)
    {
      TickKeepsHost(s, h);
    }
    forall d, m | 0 <= d < DIES && 0 <= m < MC_PORTS
      ensures ChannelInv(Ticked(s), init, d, m)
    {
      TickKeepsChannel(s, init, d, m);
    }
  }

  lemma OfWiresMore(q: seq<Txn>, t: Txn, h: nat, d: nat, m: nat)
    ensures Of(Wires(h, q + [t]), h, d, m) == Of(Wires(h, q), h, d, m) + Of([WireOf(h, t)], h, d, m)
  {
    WiresConcat(h, q, [t]);
    assert Wires(h, [t]) == [WireOf(h, t)];
    OfConcat(Wires(h, q), Wires(h, [t]), h, d, m);
  }

  lemma PostConserves(log: seq<Flit>, die: Die, host: Host, posted: seq<Txn>, t: Txn, h: nat, d: nat, m: nat)
    requires DieShape(die) && h < HOSTS && m < MC_PORTS && PostOutcome(host, t) == Posted && HostOk(host)
    requires RequestFlow(log, die, host, h, d, m) == Of(Wires(h, posted), h, d, m)
    ensures RequestFlow(log, die, PostTxn(host, t), h, d, m) == Of(Wires(h, posted + [t]), h, d, m)
  {
    OfWiresMore(host.tx, t, h, d, m);
    OfWiresMore(posted, t, h, d, m);
    var more := Of([WireOf(h, t)], h, d, m);
    assert Awaiting(die, PostTxn(host, t), h, d, m) == Awaiting(die, host, h, d, m) + more;
    assert (Of(log, h, d, m) + Awaiting(die, host, h, d, m)) + more
      == Of(log, h, d, m) + (Awaiting(die, host, h, d, m) + more);
  }

  lemma PostKeepsRouting(f: Fabric, h: nat, t: Txn)
    requires Routed(f) && h < HOSTS
    ensures Routed(f.(hosts := f.hosts[h := PostTxn(f.hosts[h], t)]))
  {
    DecodeAcceptsMapped(t.addr);
    assert HostRouted(f.hosts[h], h);
    assert HostRouted(PostTxn(f.hosts[h], t), h);
  }

  // Conservation for host h reads only its own queues, its own history and the channel.
  lemma SameFlows(s: Sys, s': Sys, init: seq<seq<Memory>>, h: nat, d: nat, m: nat)
    requires |init| == DIES && |init[0]| == |init[1]| == MC_PORTS
    requires SysShape(s) && SysShape(s') && h < HOSTS && d < DIES && m < MC_PORTS && Conserved(s, init, h, d, m)
    requires s'.f.dies == s.f.dies && s'.hist.log == s.hist.log && s'.hist.arrived == s.hist.arrived
    requires s'.f.hosts[h].active == s.f.hosts[h].active && s'.f.hosts[h].tx == s.f.hosts[h].tx
    requires s'.hist.posted[h] == s.hist.posted[h]
    ensures Conserved(s', init, h, d, m)
  {
  }

  lemma PostKeepsChannel(s: Sys, init: seq<seq<Memory>>, h: nat, t: Txn, d: nat, m: nat)
    requires |init| == DIES && |init[0]| == |init[1]| == MC_PORTS && d < DIES && m < MC_PORTS
    requires SysShape(s) && ChannelInv(s, init, d, m) && h < HOSTS && PostOutcome(s.f.hosts[h], t) == Posted
    ensures ChannelInv(Step(s, Post(h, t)), init, d, m)
  {
    hide RequestFlow, ResponseFlow, PostTxn, PostOutcome;
    var s' := Step(s, Post(h, t));
    forall h' | 0 <= h' < HOSTS
      ensures Conserved(s', init, h', d, m)
    {
      assert Conserved(s, init, h', d, m);
      if h' == h {
        PostConserves(s.hist.log[d][m], s.f.dies[d], s.f.hosts[h], s.hist.posted[h], t, h, d, m);
      } else {
        SameFlows(s, s', init, h', d, m);
      }
    }
  }

  lemma PostKeepsInv(s: Sys, init: seq<seq<Memory>>, h: nat, t: Txn)
    requires |init| == DIES && |init[0]| == |init[1]| == MC_PORTS
    requires Inv(s, init)
    ensures Inv(Step(s, Post(h, t)), init)
  {
    var s' := Step(s, Post(h, t));
    if h < HOSTS && PostOutcome(s.f.hosts[h], t) == Posted {
      PostKeepsRouting(s.f, h, t);
      forall h' | 0 <= h' < HOSTS
        ensures HostInv(s', h')
      {
        assert HostInv(s, h');
      }
      forall d, m | 0 <= d < DIES && 0 <= m < MC_PORTS
        ensures ChannelInv(s', init, d, m)
      {
        PostKeepsChannel(s, init, h, t, d, m);
      }
    }
  }

  lemma TakeKeepsChannel(s: Sys, init: seq<seq<Memory>>, h: nat, d: nat, m: nat)
    requires |init| == DIES && |init[0]| == |init[1]| == MC_PORTS && d < DIES && m < MC_PORTS
    requires SysShape(s) && ChannelInv(s, init, d, m) && h < HOSTS && s.f.hosts[h].rx != []
    ensures ChannelInv(Step(s, TakeResponse(h)), init, d, m)
  {
    forall h' | 0 <= h' < HOSTS
      ensures Conserved(Step(s, TakeResponse(h)), init, h', d, m)
    {
      SameFlows(s, Step(s, TakeResponse(h)), init, h', d, m);
    }
  }

  lemma TakeKeepsInv(s: Sys, init: seq<seq<Memory>>, h: nat)
    requires |init| == DIES && |init[0]| == |init[1]| == MC_PORTS
    requires Inv(s, init)
    ensures Inv(Step(s, TakeResponse(h)), init)
  {
    var s' := Step(s, TakeResponse(h));
    if h < HOSTS && s.f.hosts[h].rx != [] {
      assert HostRouted(s.f.hosts[h], h) && HostRouted(s'.f.hosts[h], h);
      forall h' | 0 <= h' < HOSTS
        ensures HostInv(s', h')
      {
        assert HostInv(s, h');
      }
      forall d, m | 0 <= d < DIES && 0 <= m < MC_PORTS
        ensures ChannelInv(s', init, d, m)
      {
        TakeKeepsChannel(s, init, h, d, m);
      }
    }
  }

  lemma StartConserves(mem: seq<seq<Memory>>, h: nat, d: nat, m: nat)
    requires |mem| == DIES && |mem[0]| == |mem[1]| == MC_PORTS && h < HOSTS && d < DIES && m < MC_PORTS
    ensures Conserved(Start(mem), mem, h, d, m)
  {
    var s := Start(mem);
    assert s.f.hosts[h] == NewHost(h);
    assert s.f.dies[d] == NewDie(d, mem[d]);
    assert s.f.dies[d].noc.klRx[PortOf(d, h)] == [] && s.f.dies[d].noc.klTx[PortOf(d, h)] == [];
    assert s.hist.log[d][m] == [];
  }

  lemma StartHasInv(mem: seq<seq<Memory>>)
    requires |mem| == DIES && |mem[0]| == |mem[1]| == MC_PORTS
    ensures Inv(Start(mem), mem)
  {
    NewFabricIsRouted(mem);
    var s := Start(mem);
    forall d, m | 0 <= d < DIES && 0 <= m < MC_PORTS
      ensures ChannelInv(s, mem, d, m)
    {
      assert s.f.dies[d] == NewDie(d, mem[d]) && s.hist.log[d][m] == [];
      forall h | 0 <= h < HOSTS
        ensures Conserved(s, mem, h, d, m)
      {
        StartConserves(mem, h, d, m);
      }
    }
  }

  // Every reachable state conserves every host's traffic with every channel.
  lemma {:induction false} RunHasInv(mem: seq<seq<Memory>>, actions: seq<Action>)
    requires |mem| == DIES && |mem[0]| == |mem[1]| == MC_PORTS
    ensures Inv(Run(mem, actions), mem)
  {
    if actions == [] {
      StartHasInv(mem);
    } else {
      var front, last := actions[..|actions| - 1], actions[|actions| - 1];
      RunHasInv(mem, front);
      match last
      case Post(h, t) => PostKeepsInv(Run(mem, front), mem, h, t);
      case TakeResponse(h) => TakeKeepsInv(Run(mem, front), mem, h);
      case Tick => TickKeepsInv(Run(mem, front), mem);
    }
  }
}
