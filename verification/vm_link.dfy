// The adaptor between a guest machine and its peer: one coroutine step, and what two connected adaptors guarantee.

module VmAdaptor {
  import opened Prelude
  import opened RubeLanes

  const QUEUE: nat := 128
  const REG_NODE_ID: bv64 := 0x000
  const REG_STATUS: bv64 := 0x004
  const REG_TX_DATA: bv64 := 0x008
  const REG_RX_DATA: bv64 := 0x00C
  const REG_RX_COUNT: bv64 := 0x010
  const STATUS_TX_READY: bv64 := 1
  const STATUS_RX_READY: bv64 := 2
  const STATUS_PEER_UP: bv64 := 4

  // What the coroutine keeps between two resumptions, with its byte counters.
  datatype Adaptor = Adaptor(nodeId: bv64, rx: seq<bv8>, tx: seq<bv8>, wasReq: bool, presented: bool, lastRData: bv64,
                             sent: nat, received: nat, readsDone: nat, writesDone: nat)

  // Input ports: request, write, address, data, link valid, link data, link ready. A missing port reads 0.
  function PortAt(ins: seq<bv64>, i: nat): bv64 {
    if i < |ins| then ins[i] else 0
  }

  predicate BitAt(ins: seq<bv64>, i: nat) {
    PortAt(ins, i) & 1 != 0
  }

  function ToByte(x: bv64): bv8 {
    (x & 0xFF) as bv8
  }

  function FromByte(b: bv8): bv64 {
    b as bv64
  }

  lemma BytesSurvive(b: bv8)
    ensures ToByte(FromByte(b)) == b
  {
  }

  function FromBool(b: bool): bv64 {
    if b then 1 else 0
  }

  function New(nodeId: bv64): Adaptor {
    Adaptor(nodeId, [], [], false, false, 0, 0, 0, 0, 0)
  }

  // The peer took the byte that was on offer.
  predicate Sends(a: Adaptor, ins: seq<bv64>) {
    a.presented && BitAt(ins, 6) && a.tx != []
  }

  function Completed(a: Adaptor, ins: seq<bv64>): Adaptor {
    if Sends(a, ins) then a.(tx := a.tx[1..], sent := a.sent + 1) else a
  }

  predicate Receives(a: Adaptor, ins: seq<bv64>) {
    BitAt(ins, 4) && |a.rx| != QUEUE
  }

  function Sampled(a: Adaptor, ins: seq<bv64>): Adaptor {
    if Receives(a, ins) then a.(rx := a.rx + [ToByte(PortAt(ins, 5))], received := a.received + 1) else a
  }

  // A request counts once, on the cycle it rises.
  predicate Rises(a: Adaptor, ins: seq<bv64>) {
    BitAt(ins, 0) && !a.wasReq
  }

  function AddressOf(ins: seq<bv64>): bv64 {
    PortAt(ins, 2) & 0xFFFF
  }

  // The guest writes the data register and there is room: this byte enters the queue.
  predicate Accepts(a: Adaptor, ins: seq<bv64>) {
    Rises(a, ins) && BitAt(ins, 1) && AddressOf(ins) == REG_TX_DATA && |a.tx| != QUEUE
  }

  // The guest reads the data register and there is a byte for it.
  predicate TakesOut(a: Adaptor, ins: seq<bv64>) {
    Rises(a, ins) && !BitAt(ins, 1) && AddressOf(ins) == REG_RX_DATA && a.rx != []
  }

  function CountOf(n: nat): bv64
    requires n <= QUEUE
  {
    n as bv64
  }

  function ReadData(a: Adaptor, addr: bv64): bv64 {
    if addr == REG_NODE_ID then a.nodeId
    else if addr == REG_STATUS then
      STATUS_PEER_UP | (if |a.tx| != QUEUE then STATUS_TX_READY else 0) | (if a.rx != [] then STATUS_RX_READY else 0)
    else if addr == REG_RX_COUNT then if |a.rx| <= QUEUE then CountOf(|a.rx|) else 0
    else if addr == REG_RX_DATA then if a.rx != [] then FromByte(a.rx[0]) else 0
    else 0
  }

  function Bussed(a: Adaptor, ins: seq<bv64>): Adaptor {
    if !BitAt(ins, 0) then a.(wasReq := false, lastRData := 0)
    else if a.wasReq then a
    else if BitAt(ins, 1) then
      a.(wasReq := true, lastRData := 0, writesDone := a.writesDone + 1, tx := if Accepts(a, ins)
        then a.tx + [ToByte(PortAt(ins, 3))] else a.tx)
    else
      a.(wasReq := true, lastRData := ReadData(a, AddressOf(ins)), readsDone := a.readsDone + 1,
        rx := if TakesOut(a, ins) then a.rx[1..] else a.rx)
  }

  function Outputs(a: Adaptor, ack: bool): seq<bv64> {
    [FromBool(ack), if ack then a.lastRData else 0, FromBool(a.tx != []), if a.tx != [] then FromByte(a.tx[0])
      else 0, FromBool(|a.rx| != QUEUE)]
  }

  function BeforeBus(a: Adaptor, ins: seq<bv64>): Adaptor {
    Sampled(Completed(a, ins), ins)
  }

  function Stepped(a: Adaptor, ins: seq<bv64>): Adaptor {
    var b := Bussed(BeforeBus(a, ins), ins);
    b.(presented := b.tx != [])
  }

  // One turn of the endless loop, from the inputs of a resumption to the outputs it yields.
  function Turn(a: Adaptor, ins: seq<bv64>): Resumed<Adaptor> {
    var b := Stepped(a, ins);
    Resumed(b, Some(Outputs(b, BitAt(ins, 0))))
  }

  // What a guest reads at an address, by the queues: the node's number, the status bits, the oldest byte received, or
  // how many wait.
  predicate RegisterShows(rdata: bv64, addr: bv64, nodeId: bv64, tx: seq<bv8>, rx: seq<bv8>) {
    && (addr == 0x000 ==> rdata == nodeId)
    && (addr == 0x004 ==>
          && (rdata & 1 != 0 <==> |tx| != 128) && (rdata & 2 != 0 <==> rx != []) && rdata & 4 != 0 && rdata <= 7)
    && (addr == 0x00C ==> rdata == if rx != [] then rx[0] as bv64 else 0)
    && (addr == 0x010 && |rx| <= 128 ==> rdata == |rx| as bv64)
    && (addr != 0x000 && addr != 0x004 && addr != 0x00C && addr != 0x010 ==> rdata == 0)
  }

  lemma StatusBits(tx: bool, rx: bool)
    ensures var st := STATUS_PEER_UP | (if tx then STATUS_TX_READY else 0) | (if rx then STATUS_RX_READY else 0);
            (st & 1 != 0 <==> tx) && (st & 2 != 0 <==> rx) && st & 4 != 0 && st <= 7
  {
  }

  lemma ReadShows(a: Adaptor, addr: bv64)
    ensures RegisterShows(ReadData(a, addr), addr, a.nodeId, a.tx, a.rx)
  {
    StatusBits(|a.tx| != QUEUE, a.rx != []);
  }

  // The queues after the link has been served: the byte the peer took is gone, the byte it offered is in.
  function SentRest(a: Adaptor, ins: seq<bv64>): seq<bv8>
    requires |ins| == 7
  {
    if a.presented && ins[6] & 1 != 0 && a.tx != [] then a.tx[1..] else a.tx
  }

  function WithReceived(a: Adaptor, ins: seq<bv64>): seq<bv8>
    requires |ins| == 7
  {
    if ins[4] & 1 != 0 && |a.rx| != 128 then a.rx + [(ins[5] & 0xFF) as bv8] else a.rx
  }

  // What one turn does, in terms of the ports and the queues alone. A request is served once, when it rises; while it
  // is held high its answer stays on the port.
  predicate Serves(a: Adaptor, ins: seq<bv64>, b: Adaptor, outs: seq<bv64>)
    requires |ins| == 7
  {
    var high, write, addr := ins[0] & 1 != 0, ins[1] & 1 != 0, ins[2] & 0xFFFF;
    var tx, rx := SentRest(a, ins), WithReceived(a, ins);
    && |outs| == 5 && outs[0] == (if high then 1 else 0) && b.lastRData == outs[1]
    && b.wasReq == high && b.presented == (b.tx != []) && b.nodeId == a.nodeId
    && (!high ==> outs[1] == 0 && b.tx == tx && b.rx == rx)
    && (high && a.wasReq ==> outs[1] == a.lastRData && b.tx == tx && b.rx == rx)
    && (high && !a.wasReq && write ==>
          && outs[1] == 0 && b.rx == rx
          && b.tx == if addr == 0x008 && |tx| != 128 then tx + [(ins[3] & 0xFF) as bv8] else tx)
    && (high && !a.wasReq && !write ==>
          && RegisterShows(outs[1], addr, a.nodeId, tx, rx) && b.tx == tx
          && b.rx == if addr == 0x00C && rx != [] then rx[1..] else rx)
    && b.readsDone == a.readsDone + (if high && !a.wasReq && !write then 1 else 0)
    && b.writesDone == a.writesDone + (if high && !a.wasReq && write then 1 else 0)
    && outs[2] == (if b.tx != [] then 1 else 0) && outs[3] == (if b.tx != [] then b.tx[0] as bv64 else 0)
    && outs[4] == (if |b.rx| != 128 then 1 else 0)
  }

  // The bus inputs as the ports show them.
  lemma BusInputs(ins: seq<bv64>)
    requires |ins| == 7
    ensures (BitAt(ins, 0) <==> ins[0] & 1 != 0) && (BitAt(ins, 1) <==> ins[1] & 1 != 0)
    ensures AddressOf(ins) == ins[2] & 0xFFFF && ToByte(PortAt(ins, 3)) == (ins[3] & 0xFF) as bv8
  {
  }

  lemma LinkInputs(ins: seq<bv64>)
    requires |ins| == 7
    ensures (BitAt(ins, 4) <==> ins[4] & 1 != 0) && (BitAt(ins, 6) <==> ins[6] & 1 != 0)
    ensures ToByte(PortAt(ins, 5)) == (ins[5] & 0xFF) as bv8
  {
  }

  lemma ServesLink(a: Adaptor, ins: seq<bv64>)
    requires |ins| == 7
    ensures var c := BeforeBus(a, ins);
            && c.tx == SentRest(a, ins) && c.rx == WithReceived(a, ins)
            && c.wasReq == a.wasReq && c.lastRData == a.lastRData
            && c.nodeId == a.nodeId && c.readsDone == a.readsDone && c.writesDone == a.writesDone
  {
    hide BitAt, PortAt, ToByte;
    LinkInputs(ins);
  }

  lemma ServesBus(c: Adaptor, ins: seq<bv64>)
    requires |ins| == 7
    ensures var b := Bussed(c, ins);
            var high, write, addr := ins[0] & 1 != 0, ins[1] & 1 != 0, ins[2] & 0xFFFF;
            && b.wasReq == high && b.nodeId == c.nodeId
            && b.readsDone == c.readsDone + (if high && !c.wasReq && !write then 1 else 0)
            && b.writesDone == c.writesDone + (if high && !c.wasReq && write then 1 else 0)
            && (!high ==> b.lastRData == 0 && b.tx == c.tx && b.rx == c.rx)
            && (high && c.wasReq ==> b == c)
            && (high && !c.wasReq && write ==>
                  && b.lastRData == 0 && b.rx == c.rx
                  && b.tx == if addr == 0x008 && |c.tx| != 128 then c.tx + [(ins[3] & 0xFF) as bv8] else c.tx)
            && (high && !c.wasReq && !write ==>
                  && b.lastRData == ReadData(c, addr) && b.tx == c.tx
                  && b.rx == if addr == 0x00C && c.rx != [] then c.rx[1..] else c.rx)
  {
    hide ReadData, BitAt, PortAt, ToByte, AddressOf;
    BusInputs(ins);
  }

  // Every turn serves the ports as it should.
  lemma TurnServes(a: Adaptor, ins: seq<bv64>)
    requires |ins| == 7
    ensures Turn(a, ins).yielded.Some? && Serves(a, ins, Turn(a, ins).next, Turn(a, ins).yielded.value)
  {
    hide BeforeBus, Bussed, ReadData, SentRest, WithReceived, RegisterShows, BitAt;
    BusInputs(ins);
    ServesLink(a, ins);
    ServesBus(BeforeBus(a, ins), ins);
    ReadShows(BeforeBus(a, ins), ins[2] & 0xFFFF);
  }

  // While a request is held high, the answer given when it rose stays on the port, whatever else happens.
  lemma {:induction false} AnswerStays(a: Adaptor, turns: seq<seq<bv64>>)
    requires a.wasReq && forall i :: 0 <= i < |turns| ==> |turns[i]| == 7 && turns[i][0] & 1 != 0
    ensures AfterTurns(a, turns).wasReq && AfterTurns(a, turns).lastRData == a.lastRData
    ensures turns != [] ==> LastShown(a, turns)[0] == 1 && LastShown(a, turns)[1] == a.lastRData
  {
    hide Serves, Turn;
    if turns != [] {
      var front, last := turns[..|turns| - 1], turns[|turns| - 1];
      var b := AfterTurns(a, front);
      AnswerStays(a, front);
      TurnServes(b, last);
      ServesHeld(b, last, Turn(b, last).next, Turn(b, last).yielded.value);
    }
  }

  lemma ServesHeld(a: Adaptor, ins: seq<bv64>, b: Adaptor, outs: seq<bv64>)
    requires |ins| == 7 && Serves(a, ins, b, outs) && a.wasReq && ins[0] & 1 != 0
    ensures b.wasReq && b.lastRData == a.lastRData && |outs| == 5 && outs[0] == 1 && outs[1] == a.lastRData
  {
  }

  // The state after a run of turns, and what its last turn yields.
  function AfterTurns(a: Adaptor, turns: seq<seq<bv64>>): Adaptor {
    if turns == [] then a else Turn(AfterTurns(a, turns[..|turns| - 1]), turns[|turns| - 1]).next
  }

  function LastShown(a: Adaptor, turns: seq<seq<bv64>>): (outs: seq<bv64>)
    requires turns != []
    ensures |outs| == 5
  {
    Turn(AfterTurns(a, turns[..|turns| - 1]), turns[|turns| - 1]).yielded.value
  }

  class VMAdaptor {
    const nodeId: bv64
    var rxQueue: seq<bv8>
    var txQueue: seq<bv8>
    var wasReq: bool
    var lastTxPresented: bool
    var lastRData: bv64
    var bytesSent: nat
    var bytesReceived: nat
    var readsServiced: nat
    var writesServiced: nat

    constructor (id: bv64)
      ensures State() == New(id)
    {
      nodeId, rxQueue, txQueue, wasReq, lastTxPresented, lastRData := id, [], [], false, false, 0;
      bytesSent, bytesReceived, readsServiced, writesServiced := 0, 0, 0, 0;
    }

    function State(): Adaptor
      reads this
    {
      Adaptor(nodeId, rxQueue, txQueue, wasReq, lastTxPresented, lastRData, bytesSent,
        bytesReceived, readsServiced, writesServiced)
    }

    // Both ends of the link, from what each was shown a cycle ago.
    method SampleLink(ins: seq<bv64>)
      requires |ins| == 7 && |rxQueue| <= QUEUE
      modifies this
      ensures State() == BeforeBus(old(State()), ins) && |rxQueue| <= QUEUE && |txQueue| <= |old(txQueue)|
    {
      if lastTxPresented && ins[6] & 1 != 0 && txQueue != [] {
        txQueue := txQueue[1..];
        bytesSent := bytesSent + 1;
      }
      assert State() == Completed(old(State()), ins);
      hide ToByte, Completed;
      if ins[4] & 1 != 0 && |rxQueue| != QUEUE {
        rxQueue := rxQueue + [ToByte(ins[5])];
        bytesReceived := bytesReceived + 1;
      }
    }

    method WriteRegister(addr: bv64, wdata: bv64)
      modifies `writesServiced, `txQueue
      ensures writesServiced == old(writesServiced) + 1
      ensures txQueue == if addr == 0x008 && |old(txQueue)| != 128 then old(txQueue) + [ToByte(wdata)]
        else old(txQueue)
    {
      writesServiced := writesServiced + 1;
      if addr == REG_TX_DATA && |txQueue| != QUEUE {
        txQueue := txQueue + [ToByte(wdata)];
      }
    }

    method ReadRegister(addr: bv64) returns (rdata: bv64)
      requires |rxQueue| <= QUEUE
      modifies `readsServiced, `rxQueue
      ensures readsServiced == old(readsServiced) + 1 && rdata == ReadData(old(State()), addr)
      ensures RegisterShows(rdata, addr, nodeId, txQueue, old(rxQueue))
      ensures rxQueue == if addr == 0x00C && old(rxQueue) != [] then old(rxQueue)[1..] else old(rxQueue)
    {
      ReadShows(State(), addr);
      readsServiced := readsServiced + 1;
      rdata := 0;
      if addr == REG_NODE_ID {
        rdata := nodeId;
      } else if addr == REG_STATUS {
        rdata := STATUS_PEER_UP;
        if |txQueue| != QUEUE {
          rdata := rdata | STATUS_TX_READY;
        }
        if rxQueue != [] {
          rdata := rdata | STATUS_RX_READY;
        }
      } else if addr == REG_RX_COUNT {
        rdata := CountOf(|rxQueue|);
      } else if addr == REG_RX_DATA {
        if rxQueue != [] {
          rdata := rxQueue[0] as bv64;
          rxQueue := rxQueue[1..];
        }
      }
    }

    method ServeBus(ins: seq<bv64>) returns (ack: bool, rdata: bv64)
      requires |ins| == 7 && |rxQueue| <= QUEUE && |txQueue| <= QUEUE
      modifies this
      ensures State() == Bussed(old(State()), ins) && ack == BitAt(ins, 0) && rdata == if ack then lastRData else 0
      ensures |rxQueue| <= QUEUE && |txQueue| <= QUEUE
    {
      hide ToByte, ReadData, BitAt, PortAt, AddressOf;
      ack, rdata := false, 0;
      if BitAt(ins, 0) {
        if !wasReq {
          if BitAt(ins, 1) {
            WriteRegister(AddressOf(ins), PortAt(ins, 3));
          } else {
            rdata := ReadRegister(AddressOf(ins));
          }
          wasReq := true;
          lastRData := rdata;
        } else {
          rdata := lastRData;
        }
        ack := true;
      } else {
        wasReq := false;
        lastRData := 0;
      }
    }

    // One turn of the coroutine's endless loop.
    method Resume(ins: seq<bv64>) returns (outs: seq<bv64>)
      requires |ins| == 7 && |rxQueue| <= QUEUE && |txQueue| <= QUEUE
      modifies this
      ensures State() == Turn(old(State()), ins).next && Some(outs) == Turn(old(State()), ins).yielded
      ensures Serves(old(State()), ins, State(), outs)
      ensures |rxQueue| <= QUEUE && |txQueue| <= QUEUE
    {
      hide Bussed, BeforeBus, Serves;
      TurnServes(State(), ins);
      SampleLink(ins);
      var ack, rdata := ServeBus(ins);
      var txValid, txData := false, 0;
      if txQueue != [] {
        txValid := true;
        txData := txQueue[0] as bv64;
      }
      lastTxPresented := txValid;
      outs := [if ack then 1 else 0, rdata, if txValid then 1 else 0, txData, if |rxQueue| != QUEUE then 1 else 0];
    }
  }
}

// Two connected adaptors: no byte is lost, doubled or reordered between the guests.
module VmLink {
  import opened VmAdaptor

  // An adaptor and what its output triggers show.
  datatype Side = Side(unit: Adaptor, outs: seq<bv64>)

  datatype Pair = Pair(a: Side, b: Side)

  // The seven inputs of one side: its guest's bus, and the link outputs of the peer as Connect wires them.
  function InsOf(bus: seq<bv64>, peer: Side): seq<bv64>
    requires |bus| == 4
  {
    bus + [PortAt(peer.outs, 2), PortAt(peer.outs, 3), PortAt(peer.outs, 4)]
  }

  function SideNext(s: Side, ins: seq<bv64>): Side {
    Side(Stepped(s.unit, ins), Outputs(Stepped(s.unit, ins), BitAt(ins, 0)))
  }

  // One cycle: both sides work from what the other showed in the last one.
  function PairNext(p: Pair, busA: seq<bv64>, busB: seq<bv64>): Pair
    requires |busA| == |busB| == 4
  {
    Pair(SideNext(p.a, InsOf(busA, p.b)), SideNext(p.b, InsOf(busB, p.a)))
  }

  // What the bus data output shows after a turn.
  function DataShown(b: Adaptor, ins: seq<bv64>): bv64 {
    PortAt(Outputs(Stepped(b, ins), BitAt(ins, 0)), 1)
  }

  // Bytes one guest got into its send queue, bytes that reached the other side, bytes that the other guest was shown
  // when it read.
  datatype Flow = Flow(accepted: seq<bv8>, delivered: seq<bv8>, taken: seq<bv8>)

  const NO_FLOW := Flow([], [], [])

  function FlowNext(f: Flow, a: Adaptor, insA: seq<bv64>, b: Adaptor, insB: seq<bv64>): Flow {
    Flow(f.accepted + (if Accepts(BeforeBus(a, insA), insA) then [ToByte(PortAt(insA, 3))] else []),
         f.delivered + (if Receives(Completed(b, insB), insB) then [ToByte(PortAt(insB, 5))] else []),
         f.taken + (if TakesOut(BeforeBus(b, insB), insB) then [ToByte(DataShown(b, insB))] else []))
  }

  // What the receiver will decide is what the sender will conclude: an offer stands at the head of the send queue, and
  // readiness, where an offer stands, is the truth about the receive queue.
  predicate Agreed(a: Side, b: Side) {
    && |a.unit.tx| <= QUEUE && |b.unit.rx| <= QUEUE
    && (BitAt(a.outs, 2) <==> a.unit.presented)
    && (a.unit.presented ==>
      a.unit.tx != [] && PortAt(a.outs, 3) == FromByte(a.unit.tx[0]) && (BitAt(b.outs, 4) <==> |b.unit.rx| != QUEUE))
  }

  // Lossless: everything accepted is delivered or still queued, everything delivered is read or still queued, in order;
  // and both sides' counters tell how much was delivered.
  predicate Lossless(f: Flow, a: Adaptor, b: Adaptor) {
    f.accepted == f.delivered + a.tx && f.delivered == f.taken + b.rx && a.sent == |f.delivered| == b.received
  }

  lemma BitOfBool(x: bool)
    ensures (FromBool(x) & 1 != 0) == x
  {
  }

  lemma OutputsShow(a: Adaptor, ack: bool)
    ensures var o := Outputs(a, ack);
            && (BitAt(o, 2) <==> a.tx != []) && (a.tx != [] ==> PortAt(o, 3) == FromByte(a.tx[0]))
            && (BitAt(o, 4) <==> |a.rx| != QUEUE)
  {
    hide FromByte;
    BitOfBool(a.tx != []);
    BitOfBool(|a.rx| != QUEUE);
  }

  lemma InsShow(bus: seq<bv64>, peer: Side)
    requires |bus| == 4
    ensures var ins := InsOf(bus, peer);
            && (BitAt(ins, 4) <==> BitAt(peer.outs, 2)) && PortAt(ins, 5) == PortAt(peer.outs, 3)
            && (BitAt(ins, 6) <==> BitAt(peer.outs, 4))
            && |ins| == 7 && ins[..4] == bus
  {
  }

  lemma StaysBounded(a: Adaptor, ins: seq<bv64>)
    ensures |a.tx| <= QUEUE ==> |Stepped(a, ins).tx| <= QUEUE
    ensures |a.rx| <= QUEUE ==> |Stepped(a, ins).rx| <= QUEUE
    ensures Stepped(a, ins).presented <==> Stepped(a, ins).tx != []
  {
    hide ToByte, FromByte, ReadData, BitAt, AddressOf;
  }

  lemma StepAgrees(a: Side, insA: seq<bv64>, b: Side, insB: seq<bv64>)
    requires |a.unit.tx| <= QUEUE && |b.unit.rx| <= QUEUE
    ensures Agreed(SideNext(a, insA), SideNext(b, insB))
  {
    hide ToByte, FromByte, Outputs, Stepped, BitAt;
    StaysBounded(a.unit, insA);
    StaysBounded(b.unit, insB);
    OutputsShow(Stepped(a.unit, insA), BitAt(insA, 0));
    OutputsShow(Stepped(b.unit, insB), BitAt(insB, 0));
  }

  // The sender drops its head exactly when the receiver takes it.
  lemma TransferAgrees(a: Side, busA: seq<bv64>, b: Side, busB: seq<bv64>)
    requires |busA| == |busB| == 4 && Agreed(a, b)
    ensures Sends(a.unit, InsOf(busA, b)) <==> Receives(Completed(b.unit, InsOf(busB, a)), InsOf(busB, a))
    ensures Sends(a.unit, InsOf(busA, b)) ==> ToByte(PortAt(InsOf(busB, a), 5)) == a.unit.tx[0]
  {
    hide ToByte, FromByte;
    InsShow(busA, b);
    InsShow(busB, a);
    if a.unit.presented {
      BytesSurvive(a.unit.tx[0]);
    }
  }

  lemma BusSends(a: Adaptor, ins: seq<bv64>)
    ensures Bussed(a, ins).tx == a.tx + (if Accepts(a, ins) then [ToByte(PortAt(ins, 3))] else [])
    ensures Bussed(a, ins).sent == a.sent
  {
    hide ToByte, ReadData, BitAt, AddressOf, PortAt, TakesOut;
    if !Accepts(a, ins) {
      assert a.tx + [] == a.tx;
    }
  }

  lemma SendSide(a: Adaptor, ins: seq<bv64>)
    ensures var a', accepted := Stepped(a, ins), if Accepts(BeforeBus(a, ins), ins) then [ToByte(PortAt(ins, 3))]
      else [];
            && a'.tx == (if Sends(a, ins) then a.tx[1..] else a.tx) + accepted
              && a'.sent == a.sent + if Sends(a, ins) then 1 else 0
  {
    hide ToByte, BitAt, PortAt, Receives, Bussed, Accepts;
    BusSends(BeforeBus(a, ins), ins);
  }

  lemma ReceiveSide(b: Adaptor, ins: seq<bv64>)
    ensures var b1, b' := BeforeBus(b, ins), Stepped(b, ins);
            var got := if Receives(Completed(b, ins), ins) then [ToByte(PortAt(ins, 5))] else [];
            && b1.rx == b.rx + got && b'.rx == (if TakesOut(b1, ins) then b1.rx[1..] else b1.rx)
            && b'.received == b.received + |got|
  {
    hide ToByte, FromByte, ReadData;
  }

  // Moving the head of the send queue across, or leaving it, while new bytes join the tail.
  lemma HeadMoves(delivered: seq<bv8>, tx: seq<bv8>, joining: seq<bv8>, moves: bool, got: seq<bv8>)
    requires if moves then tx != [] && got == [tx[0]] else got == []
    ensures delivered + tx + joining == (delivered + got) + ((if moves then tx[1..] else tx) + joining)
  {
  }

  lemma HeadIsTaken(taken: seq<bv8>, rx: seq<bv8>, takes: bool)
    requires takes ==> rx != []
    ensures taken + rx == (taken + (if takes then [rx[0]] else [])) + (if takes then rx[1..] else rx)
  {
  }

  lemma TakesIsQueued(b: Adaptor, ins: seq<bv64>)
    ensures TakesOut(b, ins) ==> b.rx != []
  {
  }

  // The guest is shown the byte it takes out.
  lemma TakenIsShown(b: Adaptor, ins: seq<bv64>)
    requires |ins| == 7 && TakesOut(BeforeBus(b, ins), ins)
    ensures DataShown(b, ins) == FromByte(BeforeBus(b, ins).rx[0])
    ensures ToByte(DataShown(b, ins)) == BeforeBus(b, ins).rx[0]
  {
    hide Serves, BeforeBus, Bussed, Outputs, FromByte;
    TurnServes(b, ins);
    ServesLink(b, ins);
    ReadIsShown(b, ins, Turn(b, ins).next, Turn(b, ins).yielded.value);
    BytesSurvive(BeforeBus(b, ins).rx[0]);
  }

  lemma ReadIsShown(a: Adaptor, ins: seq<bv64>, b: Adaptor, outs: seq<bv64>)
    requires |ins| == 7 && Serves(a, ins, b, outs) && ins[0] & 1 != 0 && !a.wasReq && ins[1] & 1 == 0
    requires ins[2] & 0xFFFF == 0x00C && WithReceived(a, ins) != []
    ensures |outs| == 5 && outs[1] == FromByte(WithReceived(a, ins)[0])
  {
    hide WithReceived, SentRest;
  }

  // One direction of the link through one cycle.
  lemma StepIsLossless(f: Flow, a: Side, busA: seq<bv64>, b: Side, busB: seq<bv64>)
    requires |busA| == |busB| == 4 && Agreed(a, b) && Lossless(f, a.unit, b.unit)
    ensures var insA, insB := InsOf(busA, b), InsOf(busB, a);
            Lossless(FlowNext(f, a.unit, insA, b.unit, insB), Stepped(a.unit, insA), Stepped(b.unit, insB))
  {
    hide ToByte, FromByte, Stepped, Sends, Receives, BeforeBus, Completed, Accepts, Agreed, InsOf, TakesOut, PortAt;
    hide DataShown;
    var insA, insB := InsOf(busA, b), InsOf(busB, a);
    TransferAgrees(a, busA, b, busB);
    SendSide(a.unit, insA);
    ReceiveSide(b.unit, insB);
    PresentedIsQueued(a, busA, b);
    TakesIsQueued(BeforeBus(b.unit, insB), insB);
    InsShow(busB, a);
    if TakesOut(BeforeBus(b.unit, insB), insB) {
      TakenIsShown(b.unit, insB);
    }
    var accepted := if Accepts(BeforeBus(a.unit, insA), insA) then [ToByte(PortAt(insA, 3))] else [];
    var got := if Receives(Completed(b.unit, insB), insB) then [ToByte(PortAt(insB, 5))] else [];
    HeadMoves(f.delivered, a.unit.tx, accepted, Sends(a.unit, insA), got);
    HeadIsTaken(f.taken, b.unit.rx + got, TakesOut(BeforeBus(b.unit, insB), insB));
    assert f.taken + (b.unit.rx + got) == f.taken + b.unit.rx + got;
  }

  lemma PresentedIsQueued(a: Side, busA: seq<bv64>, b: Side)
    requires |busA| == 4
    ensures Sends(a.unit, InsOf(busA, b)) ==> a.unit.tx != []
  {
  }

  predicate PairOk(p: Pair) {
    Agreed(p.a, p.b) && Agreed(p.b, p.a)
  }

  function Start(idA: bv64, idB: bv64): Pair {
    Pair(Side(New(idA), [0, 0, 0, 0, 0]), Side(New(idB), [0, 0, 0, 0, 0]))
  }

  lemma StartIsOk(idA: bv64, idB: bv64)
    ensures PairOk(Start(idA, idB)) && Lossless(NO_FLOW, New(idA), New(idB))
  {
  }

  // Guest bus inputs of a run: whatever the two guests put on their buses, cycle by cycle.
  type Buses = seq<(seq<bv64>, seq<bv64>)>

  predicate BusesOk(buses: Buses) {
    forall i :: 0 <= i < |buses| ==> |buses[i].0| == |buses[i].1| == 4
  }

  function RunPair(p: Pair, buses: Buses): Pair
    requires BusesOk(buses)
  {
    if buses == [] then p
    else
      var last := buses[|buses| - 1];
      PairNext(RunPair(p, buses[..|buses| - 1]), last.0, last.1)
  }

  function RunFlow(p: Pair, buses: Buses): (Flow, Flow)
    requires BusesOk(buses)
  {
    if buses == [] then (NO_FLOW, NO_FLOW)
    else
      var last, q, f := buses[|buses| - 1], RunPair(p, buses[..|buses| - 1]), RunFlow(p, buses[..|buses| - 1]);
      var insA, insB := InsOf(last.0, q.b), InsOf(last.1, q.a);
      (FlowNext(f.0, q.a.unit, insA, q.b.unit, insB), FlowNext(f.1, q.b.unit, insB, q.a.unit, insA))
  }

  // In every run, whatever the guests do, both directions are lossless at every cycle boundary.
  lemma {:induction false} LinkIsLossless(idA: bv64, idB: bv64, buses: Buses)
    requires BusesOk(buses)
    ensures var p, f := RunPair(Start(idA, idB), buses), RunFlow(Start(idA, idB), buses);
            PairOk(p) && Lossless(f.0, p.a.unit, p.b.unit) && Lossless(f.1, p.b.unit, p.a.unit)
  {
    hide Agreed, Lossless, FlowNext, InsOf, Stepped;
    if buses == [] {
      StartIsOk(idA, idB);
      StartIsOk(idB, idA);
    } else {
      var last, q, f := buses[|buses| - 1], RunPair(Start(idA, idB), buses[..|buses| - 1]),
        RunFlow(Start(idA, idB), buses[..|buses| - 1]);
      LinkIsLossless(idA, idB, buses[..|buses| - 1]);
      AgreedIsBounded(q);
      StepAgrees(q.a, InsOf(last.0, q.b), q.b, InsOf(last.1, q.a));
      StepAgrees(q.b, InsOf(last.1, q.a), q.a, InsOf(last.0, q.b));
      StepIsLossless(f.0, q.a, last.0, q.b, last.1);
      StepIsLossless(f.1, q.b, last.1, q.a, last.0);
    }
  }

  lemma AgreedIsBounded(p: Pair)
    requires PairOk(p)
    ensures |p.a.unit.tx| <= QUEUE && |p.b.unit.rx| <= QUEUE && |p.b.unit.tx| <= QUEUE && |p.a.unit.rx| <= QUEUE
  {
  }

  lemma OneMoreCycle(p: Pair, buses: Buses, busA: seq<bv64>, busB: seq<bv64>)
    requires BusesOk(buses) && |busA| == |busB| == 4
    ensures BusesOk(buses + [(busA, busB)])
    ensures var q, f := RunPair(p, buses), RunFlow(p, buses);
            var insA, insB := InsOf(busA, q.b), InsOf(busB, q.a);
            && RunPair(p, buses + [(busA, busB)]) == PairNext(q, busA, busB)
            && RunFlow(p, buses + [(busA, busB)])
              == (FlowNext(f.0, q.a.unit, insA, q.b.unit, insB), FlowNext(f.1, q.b.unit, insB, q.a.unit, insA))
  {
    assert (buses + [(busA, busB)])[..|buses|] == buses;
  }

  // Once the sides have exchanged outputs, a queued byte with room on the other side crosses in the very next cycle.
  lemma QueuedByteCrosses(idA: bv64, idB: bv64, buses: Buses, busA: seq<bv64>, busB: seq<bv64>)
    requires BusesOk(buses) && |buses| > 0 && |busA| == |busB| == 4
    requires var p := RunPair(Start(idA, idB), buses); p.a.unit.tx != [] && |p.b.unit.rx| < QUEUE
    ensures BusesOk(buses + [(busA, busB)])
    ensures var p, f, f' := RunPair(Start(idA, idB), buses), RunFlow(Start(idA, idB), buses),
      RunFlow(Start(idA, idB), buses + [(busA, busB)]);
            f'.0.delivered == f.0.delivered + [p.a.unit.tx[0]]
  {
    hide Agreed, Lossless, InsOf, ToByte, BeforeBus, Receives, Completed, Sends, RunPair, RunFlow;
    var p := RunPair(Start(idA, idB), buses);
    OneMoreCycle(Start(idA, idB), buses, busA, busB);
    LinkIsLossless(idA, idB, buses);
    OfferStands(idA, idB, buses, busA);
    TransferAgrees(p.a, busA, p.b, busB);
  }

  lemma OfferStands(idA: bv64, idB: bv64, buses: Buses, busA: seq<bv64>)
    requires BusesOk(buses) && |buses| > 0 && |busA| == 4
    requires var p := RunPair(Start(idA, idB), buses); p.a.unit.tx != [] && |p.b.unit.rx| < QUEUE
    ensures var p := RunPair(Start(idA, idB), buses); Sends(p.a.unit, InsOf(busA, p.b))
  {
    hide Agreed, Lossless, InsOf, Bussed, BeforeBus, Outputs;
    var q, last := RunPair(Start(idA, idB), buses[..|buses| - 1]), buses[|buses| - 1];
    var p := RunPair(Start(idA, idB), buses);
    OutputsShow(p.b.unit, BitAt(InsOf(last.1, q.a), 0));
    InsShow(busA, p.b);
  }
}

// The link inside a running engine, beside any other lanes.
module VmEngine {
  import opened Prelude
  import opened RubeDrive
  import opened RubeLanes
  import opened RubeSim
  import opened VmAdaptor
  import opened VmLink

  // The lanes of two adaptors after Connect: each one's link inputs are the other's link outputs.
  predicate CrossWired(la: Lane, lb: Lane) {
    && la.CoroLane? && lb.CoroLane? && |la.ins| == |lb.ins| == 7 && |la.outs| == |lb.outs| == 5
    && la.ins[4] == lb.outs[2] && la.ins[5] == lb.outs[3] && la.ins[6] == lb.outs[4]
    && lb.ins[4] == la.outs[2] && lb.ins[5] == la.outs[3] && lb.ins[6] == la.outs[4]
  }

  // The coroutines of the engine, guests and all others, have states of some type S. Those that `emb` makes of
  // adaptors behave as adaptors.
  ghost predicate Acts<S>(f: (S, seq<bv64>) -> Resumed<S>, emb: Adaptor -> S) {
    forall a, ins :: f(emb(a), ins) == Resumed(emb(Turn(a, ins).next), Turn(a, ins).yielded)
  }

  // The machine shows a side: its state in the lane's cell, its link outputs on the lane's triggers.
  ghost predicate ShowsSide<S>(emb: Adaptor -> S, m: Machine<S>, l: Lane, s: Side) {
    && WadOk(m.w) && l.CoroLane? && l.cell < |m.cells| && m.cells[l.cell] == Coro(emb(s.unit), false)
    && |l.outs| == |s.outs| == 5
    && Distinct(l.outs) && (forall i :: 0 <= i < 5 ==> l.outs[i] < |m.w.curr|)
    && forall i :: 2 <= i < 5 ==> CurrentAt(m.w, l.outs[i]) == s.outs[i]
  }

  function BusAt(w: Wad, l: Lane): seq<bv64>
    requires l.CoroLane? && |l.ins| == 7
  {
    [CurrentAt(w, l.ins[0]), CurrentAt(w, l.ins[1]), CurrentAt(w, l.ins[2]), CurrentAt(w, l.ins[3])]
  }

  lemma InputsAre<S>(emb: Adaptor -> S, m: Machine<S>, la: Lane, lb: Lane, s: Side)
    requires CrossWired(la, lb) && ShowsSide(emb, m, lb, s)
    ensures Inputs(m.w, la.ins) == InsOf(BusAt(m.w, la), s)
  {
    hide WadOk, Distinct;
  }

  lemma DrivenSide<S>(f: (S, seq<bv64>) -> Resumed<S>, emb: Adaptor -> S, m: Machine<S>, lanes: seq<Lane>, k: nat,
                            l: nat, s: Side, peer: Side)
    requires Acts(f, emb) && k < |lanes| && l < |lanes| && CrossWired(lanes[k], lanes[l]) && Alone(lanes, k)
    requires ShowsSide(emb, m, lanes[k], s) && ShowsSide(emb, m, lanes[l], peer)
    ensures ShowsSide(emb, Driven(f, m, lanes), lanes[k], SideNext(s, InsOf(BusAt(m.w, lanes[k]), peer)))
  {
    hide Stepped, Inputs, InsOf, Driven, Alone;
    InputsAre(emb, m, lanes[k], lanes[l], peer);
    var ins := InsOf(BusAt(m.w, lanes[k]), peer);
    DrivenCoro(f, m, lanes, k);
    SideIsDriven(f, emb, m, lanes, k, s, ins);
  }

  // The outputs of a drive show what the turn yields.
  lemma SideIsDriven<S>(f: (S, seq<bv64>) -> Resumed<S>, emb: Adaptor -> S, m: Machine<S>, lanes: seq<Lane>, k: nat,
                        s: Side, ins: seq<bv64>)
    requires Acts(f, emb) && k < |lanes| && ShowsSide(emb, m, lanes[k], s) && Inputs(m.w, lanes[k].ins) == ins
    requires CoroDriven(f, m, Driven(f, m, lanes), lanes[k])
    ensures ShowsSide(emb, Driven(f, m, lanes), lanes[k], SideNext(s, ins))
  {
    hide Stepped, Inputs, Driven;
    var l, d, outs := lanes[k], Driven(f, m, lanes), Outputs(Stepped(s.unit, ins), BitAt(ins, 0));
    assert f(emb(s.unit), ins) == Resumed(emb(Stepped(s.unit, ins)), Some(outs));
    forall i | 0 <= i < 5
      ensures CurrentAt(d.w, l.outs[i]) == outs[i]
    {
      assert OutDriven(f, m, d, l, i);
    }
  }

  // Every drive of an engine that contains the two adaptors is one cycle of the pair, whatever the other lanes are.
  lemma DriveIsPairCycle<S>(f: (S, seq<bv64>) -> Resumed<S>, emb: Adaptor -> S, m: Machine<S>, lanes: seq<Lane>,
                                  ka: nat, kb: nat, p: Pair)
    requires Acts(f, emb) && ka < |lanes| && kb < |lanes| && CrossWired(lanes[ka], lanes[kb])
    requires Alone(lanes, ka) && Alone(lanes, kb)
    requires ShowsSide(emb, m, lanes[ka], p.a) && ShowsSide(emb, m, lanes[kb], p.b)
    ensures var d, p' := Driven(f, m, lanes), PairNext(p, BusAt(m.w, lanes[ka]), BusAt(m.w, lanes[kb]));
            ShowsSide(emb, d, lanes[ka], p'.a) && ShowsSide(emb, d, lanes[kb], p'.b)
  {
    hide ShowsSide, SideNext, InsOf, Driven, Alone, BusAt;
    DrivenSide(f, emb, m, lanes, ka, kb, p.a, p.b);
    DrivenSide(f, emb, m, lanes, kb, ka, p.b, p.a);
  }

  // Between drives the outside may poke any trigger but the link's.
  ghost predicate LinkUntouched<S>(m: Machine<S>, m': Machine<S>, l: Lane) {
    && WadOk(m'.w) && |m'.w.curr| == |m.w.curr| && l.CoroLane? && l.cell < |m.cells| == |m'.cells|
    && m'.cells[l.cell] == m.cells[l.cell]
    && |l.outs| == 5 && forall i :: 2 <= i < 5 ==> CurrentAt(m'.w, l.outs[i]) == CurrentAt(m.w, l.outs[i])
  }

  ghost predicate EngineRun<S>(f: (S, seq<bv64>) -> Resumed<S>, ms: seq<Machine<S>>, lanes: seq<Lane>, ka: nat, kb: nat)
    requires ka < |lanes| && kb < |lanes|
  {
    forall i :: 0 <= i < |ms| - 1 ==>
      LinkUntouched(Driven(f, ms[i], lanes), ms[i + 1], lanes[ka])
        && LinkUntouched(Driven(f, ms[i], lanes), ms[i + 1], lanes[kb])
  }

  function BusesIn<S>(ms: seq<Machine<S>>, n: nat, la: Lane, lb: Lane): (buses: Buses)
    requires n <= |ms| && la.CoroLane? && lb.CoroLane? && |la.ins| == |lb.ins| == 7
    ensures BusesOk(buses)
  {
    seq(n, i requires 0 <= i < n => (BusAt(ms[i].w, la), BusAt(ms[i].w, lb)))
  }

  lemma {:induction false} RunShowsPair<S>(f: (S, seq<bv64>) -> Resumed<S>, emb: Adaptor -> S, ms: seq<Machine<S>>,
                                               lanes: seq<Lane>, ka: nat, kb: nat, p: Pair, n: nat)
    requires Acts(f, emb) && ka < |lanes| && kb < |lanes| && CrossWired(lanes[ka], lanes[kb])
    requires Alone(lanes, ka) && Alone(lanes, kb)
    requires EngineRun(f, ms, lanes, ka, kb)
    requires n < |ms| && ShowsSide(emb, ms[0], lanes[ka], p.a) && ShowsSide(emb, ms[0], lanes[kb], p.b)
    ensures var q := RunPair(p, BusesIn(ms, n, lanes[ka], lanes[kb]));
            ShowsSide(emb, ms[n], lanes[ka], q.a) && ShowsSide(emb, ms[n], lanes[kb], q.b)
  {
    hide ShowsSide, Driven, Alone, BusAt, PairNext, LinkUntouched;
    var buses := BusesIn(ms, n, lanes[ka], lanes[kb]);
    if n > 0 {
      RunShowsPair(f, emb, ms, lanes, ka, kb, p, n - 1);
      assert buses[..n - 1] == BusesIn(ms, n - 1, lanes[ka], lanes[kb]);
      var q := RunPair(p, BusesIn(ms, n - 1, lanes[ka], lanes[kb]));
      DriveIsPairCycle(f, emb, ms[n - 1], lanes, ka, kb, q);
      var i := n - 1;
      assert LinkUntouched(Driven(f, ms[i], lanes), ms[i + 1], lanes[ka])
        && LinkUntouched(Driven(f, ms[i], lanes), ms[i + 1], lanes[kb]);
      PokesKeepSide(emb, Driven(f, ms[n - 1], lanes), ms[n], lanes[ka], RunPair(p, buses).a);
      PokesKeepSide(emb, Driven(f, ms[n - 1], lanes), ms[n], lanes[kb], RunPair(p, buses).b);
    }
  }

  lemma PokesKeepSide<S>(emb: Adaptor -> S, m: Machine<S>, m': Machine<S>, l: Lane, s: Side)
    requires ShowsSide(emb, m, l, s) && LinkUntouched(m, m', l)
    ensures ShowsSide(emb, m', l, s)
  {
  }

  // In an engine with any other lanes, over any run and whatever happens on the two guest buses: what the guests got
  // accepted is what was delivered plus what still waits, in order, and the counters agree.
  lemma EngineLinkIsLossless<S>(f: (S, seq<bv64>) -> Resumed<S>, emb: Adaptor -> S, ms: seq<Machine<S>>,
                                      lanes: seq<Lane>, ka: nat, kb: nat, idA: bv64, idB: bv64, n: nat)
    returns (a: Adaptor, b: Adaptor)
    requires Acts(f, emb) && ka < |lanes| && kb < |lanes| && CrossWired(lanes[ka], lanes[kb])
    requires Alone(lanes, ka) && Alone(lanes, kb)
    requires EngineRun(f, ms, lanes, ka, kb)
    requires n < |ms| && ShowsSide(emb, ms[0], lanes[ka], Start(idA, idB).a)
    requires ShowsSide(emb, ms[0], lanes[kb], Start(idA, idB).b)
    ensures lanes[ka].cell < |ms[n].cells| && lanes[kb].cell < |ms[n].cells|
    ensures ms[n].cells[lanes[ka].cell].state == emb(a) && ms[n].cells[lanes[kb].cell].state == emb(b)
    ensures var flow := RunFlow(Start(idA, idB), BusesIn(ms, n, lanes[ka], lanes[kb]));
            Lossless(flow.0, a, b) && Lossless(flow.1, b, a)
  {
    hide Driven, Alone, Lossless, RunPair, RunFlow, Start, EngineRun;
    var buses := BusesIn(ms, n, lanes[ka], lanes[kb]);
    RunShowsPair(f, emb, ms, lanes, ka, kb, Start(idA, idB), n);
    LinkIsLossless(idA, idB, buses);
    var q := RunPair(Start(idA, idB), buses);
    a, b := q.a.unit, q.b.unit;
  }
}
