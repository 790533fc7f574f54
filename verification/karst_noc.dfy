// The crossbar of one die: ten links, four memory-controller ports, sixteen-deep queues.

module KarstSwitch {
  import opened KarstAddress
  import opened KarstLink
  import opened KarstQueue

  const QUEUE: nat := 16

  datatype Noc = Noc(
    die: nat,
    mcReq: seq<seq<Flit>>,
    klTx: seq<seq<Flit>>,
    klRx: seq<seq<Flit>>,
    mcResp: seq<seq<Flit>>,
    lastMcReq: seq<bool>,
    lastKlTx: seq<bool>,
    rxReady: seq<bool>,
    txValid: seq<bool>,
    txData: seq<Flit>,
    reqValid: seq<bool>,
    reqData: seq<Flit>,
    respReady: seq<bool>)

  datatype NocInputs = NocInputs(
    rxValid: seq<bool>,
    rxData: seq<Flit>,
    txReady: seq<bool>,
    reqReady: seq<bool>,
    respValid: seq<bool>,
    respData: seq<Flit>)

  predicate Shape(n: Noc) {
    && n.die < DIES
    && |n.mcReq| == |n.mcResp| == MC_PORTS
    && |n.klTx| == |n.klRx| == KL_PORTS
    && |n.lastMcReq| == |n.reqValid| == |n.reqData| == |n.respReady| == MC_PORTS
    && |n.lastKlTx| == |n.rxReady| == |n.txValid| == |n.txData| == KL_PORTS
  }

  predicate InputShape(i: NocInputs) {
    && |i.rxValid| == |i.rxData| == |i.txReady| == KL_PORTS
    && |i.reqReady| == |i.respValid| == |i.respData| == MC_PORTS
  }

  function UpdateOutputs(n: Noc): Noc {
    n.(lastKlTx := NonEmpty(n.klTx),
       rxReady := NotFull(n.klRx, QUEUE),
       txValid := NonEmpty(n.klTx),
       txData := Heads(n.klTx),
       lastMcReq := NonEmpty(n.mcReq),
       respReady := NotFull(n.mcResp, QUEUE),
       reqValid := NonEmpty(n.mcReq),
       reqData := Heads(n.mcReq))
  }

  // Between cycles the output registers describe the queues.
  predicate Registered(n: Noc) {
    && n.lastKlTx == n.txValid == NonEmpty(n.klTx)
    && n.lastMcReq == n.reqValid == NonEmpty(n.mcReq)
    && n.txData == Heads(n.klTx) && n.reqData == Heads(n.mcReq)
    && n.rxReady == NotFull(n.klRx, QUEUE) && n.respReady == NotFull(n.mcResp, QUEUE)
  }

  function NewNoc(die: nat): Noc {
    var empty4: seq<seq<Flit>> := [[], [], [], []];
    var empty10: seq<seq<Flit>> := [[], [], [], [], [], [], [], [], [], []];
    UpdateOutputs(Noc(die, empty4, empty10, empty10, empty4, [], [], [], [], [], [], [], []))
  }

  // The link that leads back to the host named in a response.
  function TargetPort(die: nat, src: nat): nat {
    if die == 0 then src % HOSTS
    else if src >= HOSTS_PER_DIE then (src - HOSTS_PER_DIE) % HOSTS
    else (src + HOSTS_PER_DIE) % HOSTS
  }

  // Route the head of ingress port t, unless the queue it needs is full.
  function RoutePort(n: Noc, t: nat): Noc
    requires Shape(n) && t < KL_PORTS
  {
    if n.klRx[t] == [] then n
    else
      var flit := n.klRx[t][0];
      if DieOf(flit.addr) == n.die then
        var mc := McOf(flit.addr);
        if |n.mcReq[mc]| == QUEUE then n
        else n.(mcReq := n.mcReq[mc := Push(n.mcReq[mc], QUEUE, flit)], klRx := n.klRx[t := n.klRx[t][1..]])
      else if |n.klTx[INTERDIE_PORT]| == QUEUE then n
      else n.(klTx := n.klTx[INTERDIE_PORT := Push(n.klTx[INTERDIE_PORT], QUEUE, flit)],
        klRx := n.klRx[t := n.klRx[t][1..]])
  }

  // The head of an ingress port leaves for the queue of its controller, or for the other die if it belongs there; it
  // waits while that queue holds as much as it can, and nothing else changes.
  lemma RoutesHead(n: Noc, t: nat)
    requires Shape(n) && t < KL_PORTS && n.klRx[t] != []
    ensures var flit, r := n.klRx[t][0], RoutePort(n, t);
            var near, mc := flit.addr / 4096 % 2 == n.die, flit.addr / 1024 % 4;
            var queue := if near then n.mcReq[mc] else n.klTx[8];
            if |queue| == 16 then r == n
            else
              && r == n.(mcReq := r.mcReq, klTx := r.klTx, klRx := n.klRx[t := n.klRx[t][1..]])
              && (|queue| < 16 ==>
                    && r.mcReq == (if near then n.mcReq[mc := queue + [flit]] else n.mcReq)
                    && r.klTx == if near then n.klTx else n.klTx[8 := queue + [flit]])
  {
  }

  function RoutePorts(n: Noc, count: nat): (r: Noc)
    requires Shape(n) && count <= KL_PORTS
    ensures Shape(r) && r.die == n.die && r.mcResp == n.mcResp
  {
    if count == 0 then n else RoutePort(RoutePorts(n, count - 1), count - 1)
  }

  // Route the head response of controller m towards its host.
  function RouteResponse(n: Noc, m: nat): Noc
    requires Shape(n) && m < MC_PORTS
  {
    if n.mcResp[m] == [] then n
    else
      var flit := n.mcResp[m][0];
      var port := TargetPort(n.die, flit.src);
      if port < KL_PORTS && |n.klTx[port]| != QUEUE then
        n.(klTx := n.klTx[port := Push(n.klTx[port], QUEUE, flit)], mcResp := n.mcResp[m := n.mcResp[m][1..]])
      else n
  }

  function RouteResponses(n: Noc, count: nat): (r: Noc)
    requires Shape(n) && count <= MC_PORTS
    ensures Shape(r) && r.die == n.die && r.mcReq == n.mcReq && r.klRx == n.klRx
  {
    if count == 0 then n else RouteResponse(RouteResponses(n, count - 1), count - 1)
  }

  // Everything before routing: retire what left, then sample both sets of inputs.
  function Sample(n: Noc, i: NocInputs): (r: Noc)
    requires Shape(n) && InputShape(i)
    ensures Shape(r) && r.die == n.die
  {
    n.(mcReq := RetireAll(n.mcReq, n.lastMcReq, i.reqReady),
       klTx := RetireAll(n.klTx, n.lastKlTx, i.txReady),
       klRx := CaptureAll(n.klRx, QUEUE, i.rxValid, n.rxReady, i.rxData),
       mcResp := CaptureAll(n.mcResp, QUEUE, i.respValid, n.respReady, i.respData))
  }

  function NocStep(n: Noc, i: NocInputs): (r: Noc)
    requires Shape(n) && InputShape(i)
    ensures Shape(r) && r.die == n.die
  {
    UpdateOutputs(RouteResponses(RoutePorts(Sample(n, i), KL_PORTS), MC_PORTS))
  }

  class KarstNoc {
    var dieId: nat
    var mcReqQueue: seq<seq<Flit>>
    var klTxQueue: seq<seq<Flit>>
    var klRxQueue: seq<seq<Flit>>
    var mcRespQueue: seq<seq<Flit>>
    var lastMcReqPresented: seq<bool>
    var lastKlTxPresented: seq<bool>
    var klRxReadyOut: seq<bool>
    var klTxValidOut: seq<bool>
    var klTxDataOut: seq<Flit>
    var mcReqValidOut: seq<bool>
    var mcReqDataOut: seq<Flit>
    var mcRespReadyOut: seq<bool>

    function State(): Noc
      reads this
    {
      Noc(dieId, mcReqQueue, klTxQueue, klRxQueue, mcRespQueue, lastMcReqPresented, lastKlTxPresented,
          klRxReadyOut, klTxValidOut, klTxDataOut, mcReqValidOut, mcReqDataOut, mcRespReadyOut)
    }

    constructor (die: nat)
      requires die < DIES
      ensures State() == NewNoc(die)
    {
      dieId := die;
      mcReqQueue, mcRespQueue := [[], [], [], []], [[], [], [], []];
      klTxQueue, klRxQueue := [[], [], [], [], [], [], [], [], [], []], [[], [], [], [], [], [], [], [], [], []];
      lastMcReqPresented, lastKlTxPresented := [false, false, false, false], seq(KL_PORTS, _ => false);
      klRxReadyOut, klTxValidOut := seq(KL_PORTS, _ => true), seq(KL_PORTS, _ => false);
      klTxDataOut := seq(KL_PORTS, _ => NULL_FLIT);
      mcReqValidOut, mcReqDataOut, mcRespReadyOut :=
        [false, false, false, false], seq(MC_PORTS, _ => NULL_FLIT), [true, true, true, true];
      new;
      RefreshOutputs();
    }

    method PresentLinks()
      requires Shape(State())
      modifies `lastKlTxPresented, `klRxReadyOut, `klTxValidOut, `klTxDataOut
      ensures lastKlTxPresented == klTxValidOut == NonEmpty(klTxQueue)
      ensures klRxReadyOut == NotFull(klRxQueue, QUEUE) && klTxDataOut == Heads(klTxQueue)
    {
      for t := 0 to KL_PORTS
        invariant |lastKlTxPresented| == |klRxReadyOut| == |klTxValidOut| == |klTxDataOut| == KL_PORTS
        invariant forall i :: 0 <= i < t ==> lastKlTxPresented[i] == klTxValidOut[i] == (klTxQueue[i] != [])
        invariant forall i :: 0 <= i < t ==> klRxReadyOut[i] == (|klRxQueue[i]| != QUEUE)
        invariant forall i :: 0 <= i < t ==> klTxDataOut[i] == HeadOr(klTxQueue[i])
      {
        var txValid, txData := false, NULL_FLIT;
        if klTxQueue[t] != [] {
          txValid, txData := true, klTxQueue[t][0];
        }
        lastKlTxPresented := lastKlTxPresented[t := txValid];
        klRxReadyOut := klRxReadyOut[t := |klRxQueue[t]| != QUEUE];
        klTxValidOut := klTxValidOut[t := txValid];
        klTxDataOut := klTxDataOut[t := txData];
      }
    }

    method PresentRequests()
      requires Shape(State())
      modifies `lastMcReqPresented, `mcRespReadyOut, `mcReqValidOut, `mcReqDataOut
      ensures lastMcReqPresented == mcReqValidOut == NonEmpty(mcReqQueue)
      ensures mcRespReadyOut == NotFull(mcRespQueue, QUEUE) && mcReqDataOut == Heads(mcReqQueue)
    {
      for m := 0 to MC_PORTS
        invariant |lastMcReqPresented| == |mcRespReadyOut| == |mcReqValidOut| == |mcReqDataOut| == MC_PORTS
        invariant forall i :: 0 <= i < m ==> lastMcReqPresented[i] == mcReqValidOut[i] == (mcReqQueue[i] != [])
        invariant forall i :: 0 <= i < m ==> mcRespReadyOut[i] == (|mcRespQueue[i]| != QUEUE)
        invariant forall i :: 0 <= i < m ==> mcReqDataOut[i] == HeadOr(mcReqQueue[i])
      {
        var reqValid, reqData := false, NULL_FLIT;
        if mcReqQueue[m] != [] {
          reqValid, reqData := true, mcReqQueue[m][0];
        }
        lastMcReqPresented := lastMcReqPresented[m := reqValid];
        mcRespReadyOut := mcRespReadyOut[m := |mcRespQueue[m]| != QUEUE];
        mcReqValidOut := mcReqValidOut[m := reqValid];
        mcReqDataOut := mcReqDataOut[m := reqData];
      }
    }

    method RefreshOutputs()
      requires Shape(State())
      modifies this
      ensures State() == UpdateOutputs(old(State()))
    {
      PresentLinks();
      PresentRequests();
    }

    method RetireOutputs(txReady: seq<bool>, reqReady: seq<bool>)
      requires Shape(State()) && |txReady| == KL_PORTS && |reqReady| == MC_PORTS
      modifies `mcReqQueue, `klTxQueue
      ensures mcReqQueue == RetireAll(old(mcReqQueue), lastMcReqPresented, reqReady)
      ensures klTxQueue == RetireAll(old(klTxQueue), lastKlTxPresented, txReady)
    {
      for m := 0 to MC_PORTS
        invariant |mcReqQueue| == MC_PORTS && klTxQueue == old(klTxQueue)
        invariant forall i :: 0 <= i < m ==>
          mcReqQueue[i] == Retire(old(mcReqQueue)[i], lastMcReqPresented[i], reqReady[i])
        invariant forall i :: m <= i < MC_PORTS ==> mcReqQueue[i] == old(mcReqQueue)[i]
      {
        if lastMcReqPresented[m] && reqReady[m] && mcReqQueue[m] != [] {
          mcReqQueue := mcReqQueue[m := mcReqQueue[m][1..]];
        }
      }
      for t := 0 to KL_PORTS
        invariant |klTxQueue| == KL_PORTS
        invariant mcReqQueue == RetireAll(old(mcReqQueue), lastMcReqPresented, reqReady)
        invariant forall i :: 0 <= i < t ==> klTxQueue[i] == Retire(old(klTxQueue)[i], lastKlTxPresented[i], txReady[i])
        invariant forall i :: t <= i < KL_PORTS ==> klTxQueue[i] == old(klTxQueue)[i]
      {
        if lastKlTxPresented[t] && txReady[t] && klTxQueue[t] != [] {
          klTxQueue := klTxQueue[t := klTxQueue[t][1..]];
        }
      }
    }

    method CaptureIngress(rxValid: seq<bool>, rxData: seq<Flit>)
      requires Shape(State()) && |rxValid| == |rxData| == KL_PORTS
      modifies `klRxQueue
      ensures klRxQueue == CaptureAll(old(klRxQueue), QUEUE, rxValid, klRxReadyOut, rxData)
    {
      for t := 0 to KL_PORTS
        invariant |klRxQueue| == KL_PORTS
        invariant forall i :: 0 <= i < t ==>
          klRxQueue[i] == CaptureAll(old(klRxQueue), QUEUE, rxValid, klRxReadyOut, rxData)[i]
        invariant forall i :: t <= i < KL_PORTS ==> klRxQueue[i] == old(klRxQueue)[i]
      {
        if rxValid[t] && klRxReadyOut[t] {
          klRxQueue := klRxQueue[t := Push(klRxQueue[t], QUEUE, rxData[t])];
        }
      }
    }

    method CaptureResponses(respValid: seq<bool>, respData: seq<Flit>)
      requires Shape(State()) && |respValid| == |respData| == MC_PORTS
      modifies `mcRespQueue
      ensures mcRespQueue == CaptureAll(old(mcRespQueue), QUEUE, respValid, mcRespReadyOut, respData)
    {
      for m := 0 to MC_PORTS
        invariant |mcRespQueue| == MC_PORTS
        invariant forall i :: 0 <= i < m ==>
          mcRespQueue[i] == CaptureAll(old(mcRespQueue), QUEUE, respValid, mcRespReadyOut, respData)[i]
        invariant forall i :: m <= i < MC_PORTS ==> mcRespQueue[i] == old(mcRespQueue)[i]
      {
        if respValid[m] && mcRespReadyOut[m] {
          mcRespQueue := mcRespQueue[m := Push(mcRespQueue[m], QUEUE, respData[m])];
        }
      }
    }

    method RouteIngress()
      requires Shape(State())
      modifies `mcReqQueue, `klTxQueue, `klRxQueue
      ensures State() == RoutePorts(old(State()), KL_PORTS)
    {
      for t := 0 to KL_PORTS
        invariant State() == RoutePorts(old(State()), t)
      {
        if klRxQueue[t] != [] {
          var flit := klRxQueue[t][0];
          if DieOf(flit.addr) == dieId {
            var mc := McOf(flit.addr);
            if |mcReqQueue[mc]| != QUEUE {
              mcReqQueue := mcReqQueue[mc := Push(mcReqQueue[mc], QUEUE, flit)];
              klRxQueue := klRxQueue[t := klRxQueue[t][1..]];
            }
          } else if |klTxQueue[INTERDIE_PORT]| != QUEUE {
            klTxQueue := klTxQueue[INTERDIE_PORT := Push(klTxQueue[INTERDIE_PORT], QUEUE, flit)];
            klRxQueue := klRxQueue[t := klRxQueue[t][1..]];
          }
        }
        assert State() == RoutePort(RoutePorts(old(State()), t), t);
      }
    }

    method RouteMcResponses()
      requires Shape(State())
      modifies `klTxQueue, `mcRespQueue
      ensures State() == RouteResponses(old(State()), MC_PORTS)
    {
      for m := 0 to MC_PORTS
        invariant State() == RouteResponses(old(State()), m)
      {
        if mcRespQueue[m] != [] {
          var flit := mcRespQueue[m][0];
          var target := TargetPort(dieId, flit.src);
          if target < KL_PORTS && |klTxQueue[target]| != QUEUE {
            klTxQueue := klTxQueue[target := Push(klTxQueue[target], QUEUE, flit)];
            mcRespQueue := mcRespQueue[m := mcRespQueue[m][1..]];
          }
        }
        assert State() == RouteResponse(RouteResponses(old(State()), m), m);
      }
    }

    method Step(rxValid: seq<bool>, rxData: seq<Flit>, txReady: seq<bool>,
                reqReady: seq<bool>, respValid: seq<bool>, respData: seq<Flit>)
      requires Shape(State()) && InputShape(NocInputs(rxValid, rxData, txReady, reqReady, respValid, respData))
      modifies this
      ensures State() == NocStep(old(State()), NocInputs(rxValid, rxData, txReady, reqReady, respValid, respData))
    {
      RetireOutputs(txReady, reqReady);
      CaptureIngress(rxValid, rxData);
      CaptureResponses(respValid, respData);
      RouteIngress();
      RouteMcResponses();
      RefreshOutputs();
    }
  }
}
