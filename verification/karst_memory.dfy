// The fabric as a word-addressed memory: what a host reads is what it last wrote.

module KarstMemory {
  import opened Prelude
  import opened KarstAddress
  import opened KarstLink
  import opened KarstDie
  import opened KarstEndpoint
  import opened KarstTopology
  import opened KarstRouting
  import opened KarstProjection
  import opened KarstTransport

  // The plain memory a host sees at address a: a write stores, a read returns the last store before it.
  function LastStore(posted: seq<Txn>, a: nat, init: U32): U32 {
    if posted == [] then init
    else
      var last := posted[|posted| - 1];
      if last.addr == a && last.isWrite then last.data else LastStore(posted[..|posted| - 1], a, init)
  }

  function ExpectedReads(posted: seq<Txn>, a: nat, init: U32): seq<U32> {
    if posted == [] then []
    else
      var front, last := posted[..|posted| - 1], posted[|posted| - 1];
      ExpectedReads(front, a, init)
      + (if last.addr == a && !last.isWrite then [LastStore(front, a, init)] else [])
  }

  function ReadsSeen(responses: seq<HostResponse>, a: nat): seq<U32> {
    if responses == [] then []
    else
      var last := responses[|responses| - 1];
      ReadsSeen(responses[..|responses| - 1], a) + (if last.addr == a then [last.data] else [])
  }

  // The same three functions on flits.
  function LastWrite(q: seq<Flit>, a: nat, init: U32): U32 {
    if q == [] then init
    else
      var last := q[|q| - 1];
      if last.addr == a && last.isWrite then last.data else LastWrite(q[..|q| - 1], a, init)
  }

  function Reads(q: seq<Flit>, a: nat, init: U32): seq<U32> {
    if q == [] then []
    else
      var front, last := q[..|q| - 1], q[|q| - 1];
      Reads(front, a, init) + (if last.addr == a && !last.isWrite then [LastWrite(front, a, init)] else [])
  }

  function DataAt(q: seq<Flit>, a: nat): seq<U32> {
    if q == [] then []
    else
      var last := q[|q| - 1];
      DataAt(q[..|q| - 1], a) + (if last.addr == a then [last.data] else [])
  }

  lemma {:induction false} DataAtConcat(p: seq<Flit>, q: seq<Flit>, a: nat)
    ensures DataAt(p + q, a) == DataAt(p, a) + DataAt(q, a)
  {
    if q == [] {
      assert p + q == p;
    } else {
      assert (p + q)[..|p + q| - 1] == p + q[..|q| - 1];
      DataAtConcat(p, q[..|q| - 1], a);
    }
  }

  lemma {:induction false} ReadsConcat(p: seq<Flit>, q: seq<Flit>, a: nat, init: U32)
    ensures Reads(p, a, init) <= Reads(p + q, a, init)
  {
    if q == [] {
      assert p + q == p;
    } else {
      assert (p + q)[..|p + q| - 1] == p + q[..|q| - 1];
      ReadsConcat(p, q[..|q| - 1], a, init);
    }
  }

  lemma {:induction false} WiresRead(h: nat, posted: seq<Txn>, a: nat, init: U32)
    requires MappedTxns(posted)
    ensures LastWrite(Wires(h, posted), a, init) == LastStore(posted, a, init)
    ensures Reads(Wires(h, posted), a, init) == ExpectedReads(posted, a, init)
  {
    if posted != [] {
      var front, last := posted[..|posted| - 1], posted[|posted| - 1];
      assert last in posted;
      assert Wires(h, posted)[..|posted| - 1] == Wires(h, front);
      WiresRead(h, front, a, init);
    }
  }

  // Address a belongs to host h's traffic alone.
  predicate OnlyFrom(q: seq<Flit>, h: nat, a: nat) {
    forall f :: f in q && f.addr == a ==> f.src == h
  }

  lemma {:induction false} ProjectionReads(q: seq<Flit>, h: nat, a: nat, init: U32)
    requires OnlyFrom(q, h, a)
    ensures var p := Of(q, h, DieOf(a), McOf(a));
            && LastWrite(p, a, init) == LastWrite(q, a, init) && Reads(p, a, init) == Reads(q, a, init)
            && DataAt(p, a) == DataAt(q, a)
  {
    if q != [] {
      var front, last := q[..|q| - 1], q[|q| - 1];
      assert last in q;
      ProjectionReads(front, h, a, init);
      var p := Of(front, h, DieOf(a), McOf(a));
      if Between(last, h, DieOf(a), McOf(a)) {
        assert (p + [last])[..|p + [last]| - 1] == p;
      } else {
        assert p + [] == p && last.addr != a;
      }
    }
  }

  // Word a of its channel holds the last value written to a; no other address touches it.
  lemma {:induction false} ReplayWord(mem: Memory, log: seq<Flit>, a: U32)
    requires Mapped(a) && Requests(log, DieOf(a), McOf(a))
    ensures LocalOf(a) / 4 < WORDS
    ensures Replay(mem, log)[LocalOf(a) / 4] == LastWrite(log, a, mem[LocalOf(a) / 4])
  {
    DecodeAcceptsMapped(a);
    if log != [] {
      var front, last := log[..|log| - 1], log[|log| - 1];
      assert last in log;
      ReplayWord(mem, front, a);
      DecodeAcceptsMapped(last.addr);
      if last.addr != a && LocalOf(last.addr) / 4 == LocalOf(a) / 4 {
        ChanIsDieAndMc(a);
        ChanIsDieAndMc(last.addr);
        StripesDoNotAlias(last.addr, a);
      }
    }
  }

  lemma AnswerRead(mem: Memory, f: Flit, a: U32)
    requires Mapped(a) && Mapped(f.addr)
    ensures LocalOf(a) / 4 < WORDS
    ensures DataAt(Answer(mem, f), a) == if f.addr == a && !f.isWrite then [mem[LocalOf(a) / 4]] else []
  {
    hide LocalOf;
    DecodeAcceptsMapped(a);
    DecodeAcceptsMapped(f.addr);
    if !f.isWrite {
      var answer := OnWire(f.addr, mem[LocalOf(f.addr) / 4], f.src, false);
      assert Answer(mem, f) == [answer];
      assert DataAt([answer], a) == DataAt([], a) + (if answer.addr == a then [answer.data] else []);
    }
  }

  lemma {:induction false} AnswersRead(mem: Memory, log: seq<Flit>, a: U32)
    requires Mapped(a) && Requests(log, DieOf(a), McOf(a))
    ensures LocalOf(a) / 4 < WORDS
    ensures DataAt(Answers(mem, log), a) == Reads(log, a, mem[LocalOf(a) / 4])
  {
    DecodeAcceptsMapped(a);
    if log != [] {
      var front, last := log[..|log| - 1], log[|log| - 1];
      assert last in log;
      AnswersRead(mem, front, a);
      ReplayWord(mem, front, a);
      AnswerRead(Replay(mem, front), last, a);
      DataAtConcat(Answers(mem, front), Answer(Replay(mem, front), last), a);
    }
  }

  lemma {:induction false} AnswersOnlyFrom(mem: Memory, log: seq<Flit>, h: nat, a: nat)
    requires OnlyFrom(log, h, a)
    ensures OnlyFrom(Answers(mem, log), h, a)
  {
    if log != [] {
      assert log[|log| - 1] in log;
      AnswersOnlyFrom(mem, log[..|log| - 1], h, a);
    }
  }

  lemma {:induction false} SeenIsData(q: seq<Flit>, h: nat, a: nat)
    requires ForHost(q, h)
    ensures ReadsSeen(FromFlits(q), a) == DataAt(q, a)
    ensures forall r :: r in FromFlits(q) ==> r.fault == None
  {
    if q != [] {
      assert q[|q| - 1] in q;
      assert FromFlits(q)[..|q| - 1] == FromFlits(q[..|q| - 1]);
      SeenIsData(q[..|q| - 1], h, a);
    }
  }

  lemma {:induction false} SeenConcat(p: seq<HostResponse>, q: seq<HostResponse>, a: nat)
    ensures ReadsSeen(p + q, a) == ReadsSeen(p, a) + ReadsSeen(q, a)
  {
    if q == [] {
      assert p + q == p;
    } else {
      assert (p + q)[..|p + q| - 1] == p + q[..|q| - 1];
      SeenConcat(p, q[..|q| - 1], a);
    }
  }

  predicate SoleUser(s: Sys, h: nat, a: nat)
    requires SysShape(s)
  {
    forall h' :: 0 <= h' < HOSTS && h' != h ==> forall t :: t in s.hist.posted[h'] ==> t.addr != a
  }

  // What reached a channel was posted.
  lemma LoggedWasPosted(log: seq<Flit>, die: Die, host: Host, posted: seq<Txn>, h: nat, d: nat, m: nat, f: Flit)
    requires DieShape(die) && h < HOSTS && m < 4 && MappedTxns(posted)
    requires RequestFlow(log, die, host, h, d, m) == Of(Wires(h, posted), h, d, m)
    requires f in log && Between(f, h, d, m)
    ensures exists t :: t in posted && t.addr == f.addr
  {
    hide Awaiting, Between, Of;
    OfMembers(log, h, d, m);
    assert f in RequestFlow(log, die, host, h, d, m);
    OfMembers(Wires(h, posted), h, d, m);
    var i :| 0 <= i < |posted| && WireOf(h, posted[i]) == f;
    assert posted[i] in posted;
  }

  // If only h posts to a, only h's requests for a are served.
  lemma ServedOnlyFrom(s: Sys, init: seq<seq<Memory>>, h: nat, a: nat)
    requires |init| == DIES && |init[0]| == |init[1]| == MC_PORTS
    requires Inv(s, init) && SoleUser(s, h, a)
    requires forall h' :: 0 <= h' < HOSTS ==> MappedTxns(s.hist.posted[h'])
    ensures OnlyFrom(s.hist.log[DieOf(a)][McOf(a)], h, a)
  {
    var d, m := DieOf(a), McOf(a);
    var log := s.hist.log[d][m];
    assert ChannelInv(s, init, d, m);
    forall f | f in log && f.addr == a
      ensures f.src == h
    {
      var h' := f.src;
      assert Conserved(s, init, h', d, m);
      LoggedWasPosted(log, s.f.dies[d], s.f.hosts[h'], s.hist.posted[h'], h', d, m, f);
    }
  }

  lemma {:induction false} PostedIsMapped(mem: seq<seq<Memory>>, actions: seq<Action>)
    requires |mem| == DIES && |mem[0]| == |mem[1]| == MC_PORTS
    ensures forall h :: 0 <= h < HOSTS ==> MappedTxns(Run(mem, actions).hist.posted[h])
  {
    if actions != [] {
      var front, last := actions[..|actions| - 1], actions[|actions| - 1];
      PostedIsMapped(mem, front);
      if last.Post? {
        DecodeAcceptsMapped(last.txn.addr);
      }
    }
  }

  function InitialWord(mem: seq<seq<Memory>>, a: U32): U32
    requires |mem| == DIES && |mem[0]| == |mem[1]| == MC_PORTS && Mapped(a)
  {
    DecodeAcceptsMapped(a);
    mem[DieOf(a)][McOf(a)][LocalOf(a) / 4]
  }

  // Nothing is left between the hosts and the memory.
  predicate Drained(f: Fabric)
    requires FabricShape(f)
  {
    && (forall h :: 0 <= h < HOSTS ==> f.hosts[h].active == [] && f.hosts[h].tx == [])
    && (forall d, p :: 0 <= d < DIES && 0 <= p < HOSTS ==> f.dies[d].noc.klRx[p] == [] && f.dies[d].noc.klTx[p] == [])
    && (forall d, m :: 0 <= d < DIES && 0 <= m < 4 ==>
          && f.dies[d].noc.mcReq[m] == [] && f.dies[d].noc.mcResp[m] == []
          && f.dies[d].pipes[m].fifo == [] && Unaccepted(f.dies[d], m) == [])
  }

  lemma WiresAreOwn(h: nat, posted: seq<Txn>, a: nat)
    requires h < HOSTS
    ensures OnlyFrom(Wires(h, posted), h, a)
  {
    assert forall t :: WireOf(h, t).src == h;
  }

  // Served so far is a prefix of program order.
  lemma ServedReads(log: seq<Flit>, awaiting: seq<Flit>, posted: seq<Txn>, h: nat, a: U32, init: U32)
    requires h < HOSTS && MappedTxns(posted) && OnlyFrom(log, h, a)
    requires Of(log, h, DieOf(a), McOf(a)) + awaiting == Of(Wires(h, posted), h, DieOf(a), McOf(a))
    ensures Reads(log, a, init) <= ExpectedReads(posted, a, init)
    ensures awaiting == [] ==> Reads(log, a, init) == ExpectedReads(posted, a, init)
  {
    ProjectionReads(log, h, a, init);
    WiresAreOwn(h, posted, a);
    ProjectionReads(Wires(h, posted), h, a, init);
    WiresRead(h, posted, a, init);
    var served := Of(log, h, DieOf(a), McOf(a));
    ReadsConcat(served, awaiting, a, init);
    assert awaiting == [] ==> served + awaiting == served;
  }

  // Delivered so far is a prefix of what the channel answered.
  lemma DeliveredReads(arrived: seq<Flit>, returning: seq<Flit>, answers: seq<Flit>, h: nat, a: U32)
    requires ForHost(arrived, h) && OnlyFrom(answers, h, a)
    requires Of(arrived, h, DieOf(a), McOf(a)) + returning == Of(answers, h, DieOf(a), McOf(a))
    ensures DataAt(arrived, a) <= DataAt(answers, a)
    ensures returning == [] ==> DataAt(arrived, a) == DataAt(answers, a)
  {
    ProjectionReads(arrived, h, a, 0);
    ProjectionReads(answers, h, a, 0);
    DataAtConcat(Of(arrived, h, DieOf(a), McOf(a)), returning, a);
  }

  lemma DrainedFlows(f: Fabric, h: nat, d: nat, m: nat)
    requires FabricShape(f) && Drained(f) && h < HOSTS && d < DIES && m < 4
    ensures Awaiting(f.dies[d], f.hosts[h], h, d, m) == [] && Returning(f.dies[d], h, d, m) == []
  {
    var die := f.dies[d];
    assert die.noc.klRx[PortOf(d, h)] == [] && die.noc.klTx[PortOf(d, h)] == [];
    assert die.noc.mcReq[m] == [] && die.noc.mcResp[m] == [] && die.pipes[m].fifo == [] && Unaccepted(die, m) == [];
    assert Wires(h, f.hosts[h].active) == [] && Wires(h, f.hosts[h].tx) == [];
  }

  // In order: what host h has received for a is a prefix of what the plain memory would return, and all of it
  // once the fabric has drained.
  lemma ArrivedReads(s: Sys, init: seq<seq<Memory>>, h: nat, a: U32)
    requires |init| == DIES && |init[0]| == |init[1]| == MC_PORTS
    requires Inv(s, init) && SoleUser(s, h, a) && h < HOSTS && Mapped(a)
    requires forall h' :: 0 <= h' < HOSTS ==> MappedTxns(s.hist.posted[h'])
    ensures var expected := ExpectedReads(s.hist.posted[h], a, InitialWord(init, a));
            && DataAt(s.hist.arrived[h], a) <= expected
            && (Drained(s.f) ==> DataAt(s.hist.arrived[h], a) == expected)
  {
    var d, m := DieOf(a), McOf(a);
    var log, arrived := s.hist.log[d][m], s.hist.arrived[h];
    var answers := Answers(init[d][m], log);
    assert ChannelInv(s, init, d, m) && Conserved(s, init, h, d, m) && HostInv(s, h);
    ServedOnlyFrom(s, init, h, a);
    AnswersOnlyFrom(init[d][m], log, h, a);
    ServedReads(log, Awaiting(s.f.dies[d], s.f.hosts[h], h, d, m), s.hist.posted[h], h, a, InitialWord(init, a));
    DeliveredReads(arrived, Returning(s.f.dies[d], h, d, m), answers, h, a);
    AnswersRead(init[d][m], log, a);
    if Drained(s.f) {
      DrainedFlows(s.f, h, d, m);
    }
  }

  // In every run, whoever shares which addresses, no response that a host has taken or could take is a fault.
  lemma NoFaults(mem: seq<seq<Memory>>, actions: seq<Action>, h: nat, r: HostResponse)
    requires |mem| == DIES && |mem[0]| == |mem[1]| == MC_PORTS && h < HOSTS
    requires r in Run(mem, actions).hist.popped[h] || r in Run(mem, actions).f.hosts[h].rx
    ensures r.fault == None
  {
    var s := Run(mem, actions);
    RunHasInv(mem, actions);
    assert HostInv(s, h);
    SeenIsData(s.hist.arrived[h], h, 0);
    assert r in s.hist.popped[h] + s.f.hosts[h].rx;
  }

  // The fabric refines a plain memory: in every run, if only host h uses address a, the reads of a that h has
  // taken so far returned, in order, the last value h posted to a before them.
  lemma ReadYourWrites(mem: seq<seq<Memory>>, actions: seq<Action>, h: nat, a: U32)
    requires |mem| == DIES && |mem[0]| == |mem[1]| == MC_PORTS
    requires h < HOSTS && Mapped(a) && SoleUser(Run(mem, actions), h, a)
    ensures var hist := Run(mem, actions).hist;
            ReadsSeen(hist.popped[h], a) <= ExpectedReads(hist.posted[h], a, InitialWord(mem, a))
  {
    var s := Run(mem, actions);
    RunHasInv(mem, actions);
    PostedIsMapped(mem, actions);
    assert HostInv(s, h);
    ArrivedReads(s, mem, h, a);
    SeenIsData(s.hist.arrived[h], h, a);
    SeenConcat(s.hist.popped[h], s.f.hosts[h].rx, a);
  }

  // When the fabric has drained and the host has taken its responses, it has seen every read it posted.
  lemma DrainedReadsAreComplete(mem: seq<seq<Memory>>, actions: seq<Action>, h: nat, a: U32)
    requires |mem| == DIES && |mem[0]| == |mem[1]| == MC_PORTS
    requires h < HOSTS && Mapped(a) && SoleUser(Run(mem, actions), h, a)
    requires Drained(Run(mem, actions).f) && Run(mem, actions).f.hosts[h].rx == []
    ensures var hist := Run(mem, actions).hist;
            ReadsSeen(hist.popped[h], a) == ExpectedReads(hist.posted[h], a, InitialWord(mem, a))
  {
    var s := Run(mem, actions);
    RunHasInv(mem, actions);
    PostedIsMapped(mem, actions);
    assert HostInv(s, h);
    ArrivedReads(s, mem, h, a);
    SeenIsData(s.hist.arrived[h], h, a);
    SeenConcat(s.hist.popped[h], s.f.hosts[h].rx, a);
  }

  // The reads host h made at a, each with the value that was last written to a by any host when it was served.
  function ReadsBy(order: seq<Flit>, h: nat, a: nat, init: U32): seq<U32> {
    if order == [] then []
    else
      var front, last := order[..|order| - 1], order[|order| - 1];
      ReadsBy(front, h, a, init)
      + (if last.src == h && last.addr == a && !last.isWrite then [LastWrite(front, a, init)] else [])
  }

  // One order of requests to channel (d, m) in which every host's requests keep their program order.
  predicate Interleaves(order: seq<Flit>, posted: seq<seq<Txn>>, d: nat, m: nat)
    requires |posted| == HOSTS
  {
    Requests(order, d, m) && forall h :: 0 <= h < HOSTS ==> Of(order, h, d, m) <= Of(Wires(h, posted[h]), h, d, m)
  }

  lemma {:induction false} AnswersReadBy(mem: Memory, log: seq<Flit>, h: nat, a: U32)
    requires Mapped(a) && Requests(log, DieOf(a), McOf(a))
    ensures LocalOf(a) / 4 < WORDS
    ensures DataAt(Of(Answers(mem, log), h, DieOf(a), McOf(a)), a) == ReadsBy(log, h, a, mem[LocalOf(a) / 4])
  {
    DecodeAcceptsMapped(a);
    if log != [] {
      var d, m := DieOf(a), McOf(a);
      var front, last := log[..|log| - 1], log[|log| - 1];
      assert last in log;
      var before := Replay(mem, front);
      AnswersReadBy(mem, front, h, a);
      ReplayWord(mem, front, a);
      AnswerRead(before, last, a);
      AnswerIsOwn(before, last, h, a);
      OfConcat(Answers(mem, front), Answer(before, last), h, d, m);
      DataAtConcat(Of(Answers(mem, front), h, d, m), Of(Answer(before, last), h, d, m), a);
    }
  }

  lemma AnswerIsOwn(mem: Memory, f: Flit, h: nat, a: U32)
    requires Mapped(a) && Mapped(f.addr)
    ensures DataAt(Of(Answer(mem, f), h, DieOf(a), McOf(a)), a) == if f.src == h then DataAt(Answer(mem, f), a) else []
  {
    hide LocalOf;
    var d, m := DieOf(a), McOf(a);
    var answer := Answer(mem, f);
    DecodeAcceptsMapped(f.addr);
    if f.isWrite || f.src != h {
      OfNone(answer, h, d, m);
    } else {
      ProjectionReads(answer, h, a, 0);
    }
  }

  lemma LogInterleaves(s: Sys, init: seq<seq<Memory>>, d: nat, m: nat)
    requires |init| == DIES && |init[0]| == |init[1]| == MC_PORTS
    requires Inv(s, init) && d < DIES && m < MC_PORTS
    ensures Interleaves(s.hist.log[d][m], s.hist.posted, d, m)
  {
    hide Awaiting, Returning, Routed, HostInv, Replay, Answers;
    assert ChannelInv(s, init, d, m);
    forall h | 0 <= h < HOSTS
      ensures Of(s.hist.log[d][m], h, d, m) <= Of(Wires(h, s.hist.posted[h]), h, d, m)
    {
      assert Conserved(s, init, h, d, m);
    }
  }

  // What host h has received from a is what the served order gives it, up to what is still on its way.
  lemma ArrivedInOrder(s: Sys, init: seq<seq<Memory>>, h: nat, a: U32)
    requires |init| == DIES && |init[0]| == |init[1]| == MC_PORTS
    requires Inv(s, init) && h < HOSTS && Mapped(a)
    ensures var order := s.hist.log[DieOf(a)][McOf(a)];
            var expected := ReadsBy(order, h, a, InitialWord(init, a));
            var seen := ReadsSeen(s.hist.popped[h] + s.f.hosts[h].rx, a);
            seen <= expected && (Drained(s.f) ==> seen == expected)
    ensures Drained(s.f) ==> Of(s.hist.log[DieOf(a)][McOf(a)], h, DieOf(a), McOf(a))
                             == Of(Wires(h, s.hist.posted[h]), h, DieOf(a), McOf(a))
  {
    hide Drained, Awaiting, Returning, Replay, Answers, Routed, LocalOf;
    var d, m := DieOf(a), McOf(a);
    assert HostInv(s, h) && ChannelInv(s, init, d, m) && Conserved(s, init, h, d, m);
    AnswersReadBy(init[d][m], s.hist.log[d][m], h, a);
    ProjectionReads(s.hist.arrived[h], h, a, 0);
    DataAtConcat(Of(s.hist.arrived[h], h, d, m), Returning(s.f.dies[d], h, d, m), a);
    SeenIsData(s.hist.arrived[h], h, a);
    if Drained(s.f) {
      DrainedFlows(s.f, h, d, m);
    }
  }

  // Shared addresses: in every run the requests a channel has served are one interleaving of the hosts' programs,
  // and what each host has read anywhere in the channel is what that interleaving gives it.
  lemma SharedReadsAreSerial(mem: seq<seq<Memory>>, actions: seq<Action>, h: nat, a: U32)
    requires |mem| == DIES && |mem[0]| == |mem[1]| == MC_PORTS && h < HOSTS && Mapped(a)
    ensures var s, d, m := Run(mem, actions), DieOf(a), McOf(a);
            var order := s.hist.log[d][m];
            && Interleaves(order, s.hist.posted, d, m)
            && ReadsSeen(s.hist.popped[h], a) <= ReadsBy(order, h, a, InitialWord(mem, a))
            && (Drained(s.f) ==> Of(order, h, d, m) == Of(Wires(h, s.hist.posted[h]), h, d, m))
            && (Drained(s.f) && s.f.hosts[h].rx == [] ==>
                  ReadsSeen(s.hist.popped[h], a) == ReadsBy(order, h, a, InitialWord(mem, a)))
  {
    hide Drained, Inv, HostInv, Routed, ForHost, LocalOf;
    var s := Run(mem, actions);
    RunHasInv(mem, actions);
    LogInterleaves(s, mem, DieOf(a), McOf(a));
    ArrivedInOrder(s, mem, h, a);
    SeenConcat(s.hist.popped[h], s.f.hosts[h].rx, a);
  }
}
