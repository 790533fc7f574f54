// One die: crossbar, four retiming pipes, four memory channels and the response staging queues.

module KarstDie {
  import opened Prelude
  import opened KarstAddress
  import opened KarstLink
  import opened KarstQueue
  import opened KarstPipes
  import opened KarstSwitch

  const WORDS: nat := 1024

  // A memory channel as an array of words, indexed by local byte address divided by four.
  type Memory = m: seq<U32> | |m| == WORDS witness seq(WORDS, _ => 0)

  datatype Die = Die(noc: Noc, pipes: seq<Pipe>, mem: seq<Memory>, staging: seq<seq<Flit>>, lastAccepted: seq<bool>)

  predicate DieShape(d: Die) {
    && Shape(d.noc)
    && |d.pipes| == |d.mem| == |d.staging| == |d.lastAccepted| == MC_PORTS
    && forall m :: 0 <= m < MC_PORTS ==> |d.staging[m]| <= QUEUE
  }

  function NewDie(die: nat, mem: seq<Memory>): Die {
    Die(NewNoc(die), [NEW_PIPE, NEW_PIPE, NEW_PIPE, NEW_PIPE], mem, [[], [], [], []], [false, false, false, false])
  }

  datatype Service = Service(mem: Memory, staging: seq<Flit>, ready: bool)

  // One request leaving a pipe: a write is absorbed, a read or a bad address needs room for its response.
  function Serve(valid: bool, flit: Flit, mem: Memory, staging: seq<Flit>): Service {
    if !valid then Service(mem, staging, true)
    else match DecodeLocalWord(flit.addr, CHANNEL_CAPACITY)
      case Faulty(fault) =>
        if |staging| == QUEUE then Service(mem, staging, false)
        else Service(mem, Push(staging, QUEUE, FaultResponse(flit.addr, flit.src, fault)), true)
      case Local(local) =>
        DecodedIsInside(flit.addr);
        if flit.isWrite then Service(mem[local / 4 := flit.data], staging, true)
        else if |staging| == QUEUE then Service(mem, staging, false)
        else Service(mem, Push(staging, QUEUE, OnWire(flit.addr, mem[local / 4], flit.src, false)), true)
  }

  // A request outside the mapped words is answered with the reason for which it is refused, as soon as there is room.
  lemma ServeRefuses(flit: Flit, mem: Memory, staging: seq<Flit>)
    requires !Mapped(flit.addr) && |staging| <= QUEUE
    ensures var s := Serve(true, flit, mem, staging);
            && s.mem == mem && s.ready == (|staging| < QUEUE)
            && if |staging| == QUEUE then s.staging == staging
               else |s.staging| == |staging| + 1 && s.staging[..|staging|] == staging
    ensures |staging| < QUEUE ==>
      var answer := Serve(true, flit, mem, staging).staging[|staging|];
      && answer.src == flit.src % 0x80 && answer.addr == flit.addr % 0x100_0000
      && ResponseFault(answer) == Some(
        if flit.addr >= 0x100_0000 then AddressWidth else if flit.addr % 4 != 0 then Unaligned else OutOfBounds)
  {
    hide LocalOf;
    DecodeAcceptsMapped(flit.addr);
    DecodeRefuses(flit.addr);
  }

  lemma DecodedIsInside(addr: U32)
    requires DecodeLocalWord(addr, CHANNEL_CAPACITY).Local?
    ensures DecodeLocalWord(addr, CHANNEL_CAPACITY).addr / 4 < WORDS
  {
  }

  function Responsible(queue: seq<Flit>, lastAccepted: bool): seq<Flit> {
    if lastAccepted then Pop(queue) else queue
  }

  function RetireStaging(d: Die): seq<seq<Flit>>
    requires DieShape(d)
  {
    seq(MC_PORTS, m requires 0 <= m < MC_PORTS => Responsible(d.staging[m], d.lastAccepted[m]))
  }

  function ServeAll(d: Die): seq<Service>
    requires DieShape(d)
  {
    seq(MC_PORTS, m requires 0 <= m < MC_PORTS =>
      Serve(d.pipes[m].outValid, d.pipes[m].outData, d.mem[m], RetireStaging(d)[m]))
  }

  function PipesStepped(pipes: seq<Pipe>, noc: Noc, downReady: seq<bool>): seq<Pipe>
    requires |pipes| == |downReady| == MC_PORTS && Shape(noc)
  {
    seq(MC_PORTS, m requires 0 <= m < MC_PORTS =>
      PipeStep(pipes[m], noc.reqValid[m], noc.reqData[m], downReady[m]))
  }

  function UpReadies(pipes: seq<Pipe>): seq<bool>
    requires |pipes| == MC_PORTS
  {
    seq(MC_PORTS, m requires 0 <= m < MC_PORTS => pipes[m].upReady)
  }

  function Accepted(staging: seq<seq<Flit>>, respReady: seq<bool>): seq<bool>
    requires |staging| == |respReady| == MC_PORTS
  {
    seq(MC_PORTS, m requires 0 <= m < MC_PORTS => staging[m] != [] && respReady[m])
  }

  function ServedStaging(d: Die): (staging: seq<seq<Flit>>)
    requires DieShape(d)
    ensures |staging| == MC_PORTS
  {
    seq(MC_PORTS, m requires 0 <= m < MC_PORTS => ServeAll(d)[m].staging)
  }

  function DownReady(d: Die): seq<bool>
    requires DieShape(d)
  {
    seq(MC_PORTS, m requires 0 <= m < MC_PORTS => ServeAll(d)[m].ready)
  }

  function DiePipes(d: Die): seq<Pipe>
    requires DieShape(d)
  {
    PipesStepped(d.pipes, d.noc, DownReady(d))
  }

  function DieNocInputs(d: Die, rxValid: seq<bool>, rxData: seq<Flit>, txReady: seq<bool>): (i: NocInputs)
    requires DieShape(d) && |rxValid| == |rxData| == |txReady| == KL_PORTS
    ensures InputShape(i)
  {
    var staging := ServedStaging(d);
    NocInputs(rxValid, rxData, txReady, UpReadies(d.pipes), NonEmpty(staging), Heads(staging))
  }

  function DieStep(d: Die, rxValid: seq<bool>, rxData: seq<Flit>, txReady: seq<bool>): (r: Die)
    requires DieShape(d) && |rxValid| == |rxData| == |txReady| == KL_PORTS
    ensures DieShape(r) && r.noc.die == d.noc.die
  {
    var staging := ServedStaging(d);
    Die(NocStep(d.noc, DieNocInputs(d, rxValid, rxData, txReady)),
        DiePipes(d),
        seq(MC_PORTS, m requires 0 <= m < MC_PORTS => ServeAll(d)[m].mem),
        staging,
        Accepted(staging, d.noc.respReady))
  }

  class KarstFabricNode {
    const noc: KarstNoc
    const pipes: seq<KarstPipe>
    var memChans: seq<Memory>
    var mcRespQueue: seq<seq<Flit>>
    var lastRespAccepted: seq<bool>

    ghost const Repr: set<object>

    ghost predicate Wired() {
      && |pipes| == MC_PORTS
      && (forall i, j :: 0 <= i < j < MC_PORTS ==> pipes[i] != pipes[j])
      && Repr == {this, noc, pipes[0], pipes[1], pipes[2], pipes[3]}
    }

    ghost predicate Valid()
      reads this, noc
    {
      && Wired()
      && Shape(noc.State())
      && |memChans| == |mcRespQueue| == |lastRespAccepted| == MC_PORTS
      && forall m :: 0 <= m < MC_PORTS ==> |mcRespQueue[m]| <= QUEUE
    }

    function PipeStates(): seq<Pipe>
      requires |pipes| == MC_PORTS
      reads pipes
    {
      [pipes[0].State(), pipes[1].State(), pipes[2].State(), pipes[3].State()]
    }

    function State(): Die
      requires |pipes| == MC_PORTS
      reads this, noc, pipes
    {
      Die(noc.State(), PipeStates(), memChans, mcRespQueue, lastRespAccepted)
    }

    constructor (die: nat, mem: seq<Memory>)
      requires die < DIES && |mem| == MC_PORTS
      ensures Valid() && fresh(Repr)
      ensures State() == NewDie(die, mem)
    {
      var n := new KarstNoc(die);
      var p0 := new KarstPipe();
      var p1 := new KarstPipe();
      var p2 := new KarstPipe();
      var p3 := new KarstPipe();
      noc, pipes := n, [p0, p1, p2, p3];
      memChans, mcRespQueue, lastRespAccepted := mem, [[], [], [], []], [false, false, false, false];
      Repr := {this, n, p0, p1, p2, p3};
    }

    method RetireResponses()
      requires Valid()
      modifies `mcRespQueue
      ensures Valid() && mcRespQueue == RetireStaging(old(State()))
    {
      for m := 0 to MC_PORTS
        invariant |mcRespQueue| == MC_PORTS
        invariant forall i :: 0 <= i < m ==> mcRespQueue[i] == Responsible(old(mcRespQueue)[i], lastRespAccepted[i])
        invariant forall i :: m <= i < MC_PORTS ==> mcRespQueue[i] == old(mcRespQueue)[i]
      {
        if lastRespAccepted[m] && mcRespQueue[m] != [] {
          mcRespQueue := mcRespQueue[m := mcRespQueue[m][1..]];
        }
      }
    }

    // Serve the request at the end of pipe m. A push that could fail would break the assertion.
    method ServeChannel(m: nat) returns (ready: bool)
      requires Valid() && m < MC_PORTS
      modifies `memChans, `mcRespQueue
      ensures Valid()
      ensures var s := Serve(pipes[m].outValid, pipes[m].outData, old(memChans)[m], old(mcRespQueue)[m]);
              && ready == s.ready
              && memChans == old(memChans)[m := s.mem]
              && mcRespQueue == old(mcRespQueue)[m := s.staging]
    {
      ready := !pipes[m].outValid;
      if pipes[m].outValid {
        var flit := pipes[m].outData;
        match DecodeLocalWord(flit.addr, CHANNEL_CAPACITY)
        case Faulty(fault) =>
          if |mcRespQueue[m]| != QUEUE {
            assert |mcRespQueue[m]| < QUEUE;
            mcRespQueue := mcRespQueue[m := Push(mcRespQueue[m], QUEUE, FaultResponse(flit.addr, flit.src, fault))];
            ready := true;
          }
        case Local(local) =>
          DecodedIsInside(flit.addr);
          if flit.isWrite {
            memChans := memChans[m := memChans[m][local / 4 := flit.data]];
            ready := true;
          } else if |mcRespQueue[m]| != QUEUE {
            assert |mcRespQueue[m]| < QUEUE;
            var response := OnWire(flit.addr, memChans[m][local / 4], flit.src, false);
            mcRespQueue := mcRespQueue[m := Push(mcRespQueue[m], QUEUE, response)];
            ready := true;
          }
      }
    }

    method StepPipe(m: nat, inValid: bool, inData: Flit, downReady: bool)
      requires Valid() && m < MC_PORTS
      modifies pipes[m]
      ensures PipeStates() == old(PipeStates())[m := PipeStep(old(PipeStates())[m], inValid, inData, downReady)]
    {
      pipes[m].Step(inValid, inData, downReady);
      assert forall i :: 0 <= i < MC_PORTS && i != m ==> pipes[i] != pipes[m];
    }

    method StepPipes(downReady: seq<bool>) returns (reqReady: seq<bool>)
      requires Valid() && |downReady| == MC_PORTS
      modifies pipes
      ensures reqReady == UpReadies(old(PipeStates()))
      ensures PipeStates() == PipesStepped(old(PipeStates()), noc.State(), downReady)
    {
      ghost var before := PipeStates();
      var reqValid, reqData := noc.mcReqValidOut, noc.mcReqDataOut;
      ghost var after := PipesStepped(before, noc.State(), downReady);
      reqReady := [];
      for m := 0 to MC_PORTS
        invariant reqReady == UpReadies(before)[..m]
        invariant PipeStates() == after[..m] + before[m..]
      {
        hide Valid, PipeStep;
        assert PipeStates()[m] == pipes[m].State() == before[m];
        reqReady := reqReady + [pipes[m].upReady];
        StepPipe(m, reqValid[m], reqData[m], downReady[m]);
        Splice(after, before, m);
        TakeOneMore(UpReadies(before), m);
      }
    }

    // Serve every channel, then record which response the crossbar is about to accept.
    method ServeChannels() returns (downReady: seq<bool>)
      requires Valid()
      modifies this
      ensures Valid() && |downReady| == MC_PORTS
      ensures var served := ServeAll(old(State()));
              && (forall m :: 0 <= m < MC_PORTS ==> served[m] == Service(memChans[m], mcRespQueue[m], downReady[m]))
      ensures lastRespAccepted == Accepted(mcRespQueue, noc.mcRespReadyOut)
    {
      ghost var before := State();
      RetireResponses();
      downReady := [];
      for m := 0 to MC_PORTS
        modifies `memChans, `mcRespQueue
        invariant Valid() && |downReady| == m
        invariant forall i :: 0 <= i < m ==> ServeAll(before)[i] == Service(memChans[i], mcRespQueue[i], downReady[i])
        invariant forall i :: m <= i < MC_PORTS ==>
          memChans[i] == before.mem[i] && mcRespQueue[i] == RetireStaging(before)[i]
      {
        var ready := ServeChannel(m);
        downReady := downReady + [ready];
      }
      lastRespAccepted := Accepted(mcRespQueue, noc.mcRespReadyOut);
    }

    method Step(rxValid: seq<bool>, rxData: seq<Flit>, txReady: seq<bool>)
      requires Valid() && |rxValid| == |rxData| == |txReady| == KL_PORTS
      modifies Repr
      ensures Valid()
      ensures State() == DieStep(old(State()), rxValid, rxData, txReady)
    {
      ghost var before := State();
      var downReady := ServeChannels();
      ghost var served := ServeAll(before);
      assert mcRespQueue == ServedStaging(before) && downReady == DownReady(before);
      assert memChans == seq(MC_PORTS, m requires 0 <= m < MC_PORTS => served[m].mem);
      assert PipeStates() == before.pipes && noc.State() == before.noc;
      var reqReady := StepPipes(downReady);
      noc.Step(rxValid, rxData, txReady, reqReady, NonEmpty(mcRespQueue), Heads(mcRespQueue));
    }
  }
}
