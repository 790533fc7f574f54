// A host endpoint: posted transactions, two links, and the response queue.

module KarstEndpoint {
  import opened Prelude
  import opened KarstAddress
  import opened KarstLink
  import opened KarstQueue

  const ACTIVE: nat := 16
  const STAGING: nat := 32
  const RESPONSES: nat := 32

  datatype Txn = Txn(addr: U32, data: U32, isWrite: bool)

  datatype HostResponse = HostResponse(addr: U24, data: U32, fault: Option<MemoryFault>)

  function FromFlit(flit: Flit): HostResponse {
    var fault := ResponseFault(flit);
    HostResponse(flit.addr, if fault == None then flit.data else 0, fault)
  }

  // A host is told a fault instead of data.
  lemma FaultsReachHosts(addr: U32, src: U8, fault: MemoryFault)
    ensures FromFlit(FaultResponse(addr, src, fault)) == HostResponse(addr % 0x100_0000, 0, Some(fault))
    ensures forall data: U32 :: FromFlit(OnWire(addr, data, src, false)) == HostResponse(addr % 0x100_0000, data, None)
  {
  }

  datatype Host = Host(
    id: nat,
    active: seq<Txn>,
    tx: seq<Txn>,
    rx: seq<HostResponse>,
    lastL0: bool,
    lastL1: bool,
    presentedIsL1: bool,
    l0Valid: bool,
    l0Data: Flit,
    l0Ready: bool,
    l1Valid: bool,
    l1Data: Flit,
    l1Ready: bool)

  datatype HostInputs = HostInputs(
    l0TxReady: bool,
    l0RxValid: bool,
    l0RxData: Flit,
    l1TxReady: bool,
    l1RxValid: bool,
    l1RxData: Flit)

  datatype PostResult = Posted | BadAddress(fault: MemoryFault) | QueueFull

  function NewHost(id: nat): Host {
    Host(id, [], [], [], false, false, false, false, NULL_FLIT, true, false, NULL_FLIT, true)
  }

  function PrimaryDie(id: nat): nat {
    if id < HOSTS_PER_DIE then 0 else 1
  }

  function WireOf(id: nat, t: Txn): Flit {
    OnWire(t.addr, t.data, id % 0x100, t.isWrite)
  }

  function PostOutcome(h: Host, t: Txn): PostResult {
    match DecodeLocalWord(t.addr, CHANNEL_CAPACITY)
    case Faulty(fault) => BadAddress(fault)
    case Local(_) => if |h.tx| == STAGING then QueueFull else Posted
  }

  // The reply to a post, by the address and the number of transactions that wait: nothing else decides it.
  predicate RepliesTo(r: PostResult, addr: U32, waiting: nat) {
    && (r == Posted <==> Mapped(addr) && waiting < 32)
    && (r == QueueFull <==> Mapped(addr) && waiting >= 32)
    && (r.BadAddress? <==> !Mapped(addr))
    && (r.BadAddress? ==>
          r.fault == if addr >= 0x100_0000 then AddressWidth else if addr % 4 != 0 then Unaligned else OutOfBounds)
  }

  // A post is accepted exactly when its address is mapped and there is room, and then the queue grows by it.
  lemma PostIsAnswered(h: Host, t: Txn)
    requires |h.tx| <= STAGING
    ensures RepliesTo(PostOutcome(h, t), t.addr, |h.tx|)
    ensures PostTxn(h, t) == if Mapped(t.addr) && |h.tx| < STAGING then h.(tx := h.tx + [t]) else h
  {
    hide LocalOf;
    DecodeAcceptsMapped(t.addr);
    if !Mapped(t.addr) {
      DecodeRefuses(t.addr);
    }
  }

  function PostTxn(h: Host, t: Txn): Host {
    if PostOutcome(h, t) == Posted then h.(tx := Push(h.tx, STAGING, t)) else h
  }

  function PopOne(h: Host): Host {
    h.(rx := Pop(h.rx))
  }

  function CompleteTx(h: Host, i: HostInputs): seq<Txn> {
    var a := if h.lastL0 && i.l0TxReady && !h.presentedIsL1 then Pop(h.active) else h.active;
    if h.lastL1 && i.l1TxReady && h.presentedIsL1 then Pop(a) else a
  }

  function SampleRx(h: Host, i: HostInputs): seq<HostResponse> {
    var r := if i.l0RxValid && h.l0Ready then Push(h.rx, RESPONSES, FromFlit(i.l0RxData)) else h.rx;
    if i.l1RxValid && h.l1Ready then Push(r, RESPONSES, FromFlit(i.l1RxData)) else r
  }

  // How many transactions move from the staging queue to the active queue.
  function FetchCount(active: seq<Txn>, tx: seq<Txn>): (k: nat)
    requires |active| <= ACTIVE
    ensures k <= |tx| && |active| + k <= ACTIVE
    ensures k < |tx| ==> |active| + k == ACTIVE
  {
    if |tx| <= ACTIVE - |active| then |tx| else ACTIVE - |active|
  }

  function Present(h: Host): Host {
    var ready := RESPONSES >= |h.rx| + 2;
    var registers := h.(l0Ready := ready, l1Ready := ready);
    if h.active == [] then
      registers.(lastL0 := false, lastL1 := false, l0Valid := false, l0Data := NULL_FLIT,
                 l1Valid := false, l1Data := NULL_FLIT)
    else
      var raw := WireOf(h.id, h.active[0]);
      var isL1 := DieOf(h.active[0].addr) != PrimaryDie(h.id);
      registers.(presentedIsL1 := isL1, lastL0 := !isL1, lastL1 := isL1,
                 l0Valid := !isL1, l0Data := if isL1 then NULL_FLIT else raw,
                 l1Valid := isL1, l1Data := if isL1 then raw else NULL_FLIT)
  }

  function HostStep(h: Host, i: HostInputs): Host
    requires |h.active| <= ACTIVE
  {
    var active := CompleteTx(h, i);
    var k := FetchCount(active, h.tx);
    Present(h.(active := active + h.tx[..k], tx := h.tx[k..], rx := SampleRx(h, i)))
  }

  function IsL1(h: Host): bool
    requires h.active != []
  {
    DieOf(h.active[0].addr) != PrimaryDie(h.id)
  }

  // Between cycles the transmit registers present the active head on the link of its die.
  predicate PresentsHead(h: Host) {
    && h.lastL0 == h.l0Valid && h.lastL1 == h.l1Valid
    && (h.active == [] ==> !h.l0Valid && !h.l1Valid)
    && (h.active != [] ==>
          && h.presentedIsL1 == h.l1Valid == IsL1(h)
          && h.l0Valid == !IsL1(h)
          && (if IsL1(h) then h.l1Data else h.l0Data) == WireOf(h.id, h.active[0]))
  }

  // A raised ready flag guarantees two free response slots, one for each link.
  predicate HostOk(h: Host) {
    && |h.active| <= ACTIVE && |h.tx| <= STAGING && |h.rx| <= RESPONSES
    && (h.l0Ready || h.l1Ready ==> |h.rx| + 2 <= RESPONSES)
    && PresentsHead(h)
  }

  lemma HostStepStaysOk(h: Host, i: HostInputs)
    requires HostOk(h)
    ensures HostOk(HostStep(h, i))
  {
    var active := CompleteTx(h, i);
    var k := FetchCount(active, h.tx);
    var moved := h.(active := active + h.tx[..k], tx := h.tx[k..], rx := SampleRx(h, i));
    assert |moved.rx| <= RESPONSES;
  }

  class KarstHostNode {
    const hostId: nat
    var activeQueue: seq<Txn>
    var txQueue: seq<Txn>
    var rxQueue: seq<HostResponse>
    var lastL0TxPresented: bool
    var lastL1TxPresented: bool
    var presentedIsL1: bool
    var l0TxValid: bool
    var l0TxData: Flit
    var l0RxReady: bool
    var l1TxValid: bool
    var l1TxData: Flit
    var l1RxReady: bool

    function State(): Host
      reads this
    {
      Host(hostId, activeQueue, txQueue, rxQueue, lastL0TxPresented, lastL1TxPresented, presentedIsL1,
           l0TxValid, l0TxData, l0RxReady, l1TxValid, l1TxData, l1RxReady)
    }

    ghost predicate Valid()
      reads this
    {
      HostOk(State())
    }

    constructor (id: nat)
      ensures Valid() && State() == NewHost(id)
    {
      hostId := id;
      activeQueue, txQueue, rxQueue := [], [], [];
      lastL0TxPresented, lastL1TxPresented, presentedIsL1 := false, false, false;
      l0TxValid, l0TxData, l0RxReady := false, NULL_FLIT, true;
      l1TxValid, l1TxData, l1RxReady := false, NULL_FLIT, true;
    }

    method Post(t: Txn) returns (result: PostResult)
      requires Valid()
      modifies this
      ensures Valid()
      ensures RepliesTo(result, t.addr, |old(txQueue)|)
      ensures State() == if result == Posted then old(State()).(tx := old(txQueue) + [t]) else old(State())
      ensures State() == PostTxn(old(State()), t) && result == PostOutcome(old(State()), t)
    {
      PostIsAnswered(State(), t);
      match DecodeLocalWord(t.addr, CHANNEL_CAPACITY)
      case Faulty(fault) =>
        result := BadAddress(fault);
      case Local(_) =>
        if |txQueue| != STAGING {
          txQueue := Push(txQueue, STAGING, t);
          result := Posted;
        } else {
          result := QueueFull;
        }
    }

    method PostWrite(addr: U32, data: U32) returns (result: PostResult)
      requires Valid()
      modifies this
      ensures Valid()
      ensures RepliesTo(result, addr, |old(txQueue)|)
      ensures State()
        == if result == Posted then old(State()).(tx := old(txQueue) + [Txn(addr, data, true)]) else old(State())
    {
      result := Post(Txn(addr, data, true));
    }

    method PostRead(addr: U32) returns (result: PostResult)
      requires Valid()
      modifies this
      ensures Valid()
      ensures RepliesTo(result, addr, |old(txQueue)|)
      ensures State()
        == if result == Posted then old(State()).(tx := old(txQueue) + [Txn(addr, 0, false)]) else old(State())
    {
      result := Post(Txn(addr, 0, false));
    }

    method PopResponse() returns (out: Option<HostResponse>)
      requires Valid()
      modifies this
      ensures Valid() && State() == PopOne(old(State()))
      ensures out == if old(rxQueue) == [] then None else Some(old(rxQueue)[0])
    {
      out := None;
      if rxQueue != [] {
        out := Some(rxQueue[0]);
        rxQueue := rxQueue[1..];
      }
    }

    method CompletePresented(l0TxReady: bool, l1TxReady: bool)
      modifies `activeQueue
      ensures forall i: HostInputs :: i.l0TxReady == l0TxReady && i.l1TxReady == l1TxReady ==>
        activeQueue == CompleteTx(old(State()), i)
    {
      if lastL0TxPresented && l0TxReady && activeQueue != [] && !presentedIsL1 {
        activeQueue := activeQueue[1..];
      }
      if lastL1TxPresented && l1TxReady && activeQueue != [] && presentedIsL1 {
        activeQueue := activeQueue[1..];
      }
    }

    // Both asserted pushes of the source succeed, even when the two links deliver in one cycle.
    method SampleLinks(i: HostInputs)
      requires l0RxReady || l1RxReady ==> |rxQueue| + 2 <= RESPONSES
      modifies `rxQueue
      ensures rxQueue == SampleRx(old(State()), i)
    {
      if i.l0RxValid && l0RxReady {
        assert |rxQueue| < RESPONSES;
        rxQueue := Push(rxQueue, RESPONSES, FromFlit(i.l0RxData));
      }
      if i.l1RxValid && l1RxReady {
        assert |rxQueue| < RESPONSES;
        rxQueue := Push(rxQueue, RESPONSES, FromFlit(i.l1RxData));
      }
    }

    method Fetch()
      requires |activeQueue| <= ACTIVE
      modifies `activeQueue, `txQueue
      ensures var k := FetchCount(old(activeQueue), old(txQueue));
              activeQueue == old(activeQueue) + old(txQueue)[..k] && txQueue == old(txQueue)[k..]
    {
      ghost var k := 0;
      while txQueue != [] && |activeQueue| != ACTIVE
        invariant k <= |old(txQueue)| && |activeQueue| <= ACTIVE
        invariant txQueue == old(txQueue)[k..] && activeQueue == old(activeQueue) + old(txQueue)[..k]
        decreases |txQueue|
      {
        var t := txQueue[0];
        txQueue := txQueue[1..];
        activeQueue := Push(activeQueue, ACTIVE, t);
        k := k + 1;
      }
    }

    method PresentNext()
      modifies this
      ensures State() == Present(old(State()))
    {
      var valid0, data0, valid1, data1 := false, NULL_FLIT, false, NULL_FLIT;
      if activeQueue != [] {
        var t := activeQueue[0];
        var raw := WireOf(hostId, t);
        if DieOf(t.addr) == PrimaryDie(hostId) {
          valid0, data0 := true, raw;
          presentedIsL1 := false;
        } else {
          valid1, data1 := true, raw;
          presentedIsL1 := true;
        }
      }
      lastL0TxPresented, lastL1TxPresented := valid0, valid1;
      l0TxValid, l0TxData, l1TxValid, l1TxData := valid0, data0, valid1, data1;
      var slots := RESPONSES - |rxQueue|;
      l0RxReady, l1RxReady := slots >= 2, slots >= 2;
    }

    method Step(i: HostInputs)
      requires Valid()
      modifies this
      ensures Valid()
      ensures State() == HostStep(old(State()), i)
    {
      HostStepStaysOk(State(), i);
      ghost var h := State();
      CompletePresented(i.l0TxReady, i.l1TxReady);
      SampleLinks(i);
      Fetch();
      assert State() == h.(active := activeQueue, tx := txQueue, rx := rxQueue);
      PresentNext();
    }
  }
}
