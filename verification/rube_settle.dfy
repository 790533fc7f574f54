// Driving until nothing changes.

module RubeSettle {
  import opened Prelude
  import opened RubeLayout
  import opened RubeLanes
  import opened RubeSim
  import opened RubeBuild
  import opened RubeCompile
  import opened RubeRipple

  const PAST_MASK: bv8 := 0x03

  predicate IsEdge(w: Wad, t: nat)
    requires WadOk(w) && t < |w.past|
  {
    w.past[t] != w.curr[t] || w.flags[t] & PAST_MASK != (w.flags[t] >> 2) & PAST_MASK
  }

  predicate Quiet(w: Wad)
    requires WadOk(w)
  {
    forall t :: 0 <= t < |w.past| ==> !IsEdge(w, t)
  }

  predicate AllFast(lanes: seq<Lane>) {
    forall k :: 0 <= k < |lanes| ==> lanes[k].FastLane?
  }

  // No coroutine has an output.
  predicate AllMute(lanes: seq<Lane>) {
    forall k :: 0 <= k < |lanes| ==> lanes[k].FastLane? || lanes[k].outs == []
  }

  // What the lanes of a cycle read: current values and their bits.
  predicate SameNow(w: Wad, w': Wad) {
    && w'.curr == w.curr && |w'.flags| == |w.flags|
    && forall t :: 0 <= t < |w.flags| ==> w'.flags[t] & CURR_MASK == w.flags[t] & CURR_MASK
  }

  lemma NowBits(f: bv8, g: bv8)
    requires f & CURR_MASK == g & CURR_MASK
    ensures f & CURR_X == g & CURR_X && f & CURR_I == g & CURR_I
  {
  }

  lemma FastWriteReadsNow(w: Wad, w': Wad, l: Lane)
    requires l.FastLane? && SameNow(w, w')
    ensures FastWrite(w', l) == FastWrite(w, l)
  {
    hide EvalRaw, Eval4State;
    NowBits(FlagsAt(w, l.in1), FlagsAt(w', l.in1));
    NowBits(FlagsAt(w, l.in2), FlagsAt(w', l.in2));
    BitsOfBoth(FlagsAt(w, l.in1), FlagsAt(w, l.in2), FlagsAt(w', l.in1), FlagsAt(w', l.in2));
  }

  // The future of trigger t is what write a would make of it.
  predicate Landed(w: Wad, a: Write) {
    a.t < |w.futr| && a.t < |w.flags| ==> w.futr[a.t] == a.val && w.flags[a.t] & FUTR_MASK == FutureBits(a.x, a.i)
  }

  lemma PutBits(f: bv8, x: bool, i: bool)
    ensures ((f & !FUTR_MASK) | FutureBits(x, i)) & FUTR_MASK == FutureBits(x, i)
    ensures f & FUTR_MASK == FutureBits(x, i) ==> (f & !FUTR_MASK) | FutureBits(x, i) == f
  {
  }

  lemma PutIsWritten(w: Wad, a: Write)
    ensures Landed(SetFuture(w, a), a)
    ensures Landed(w, a) ==> SetFuture(w, a) == w
  {
    if a.t < |w.futr| && a.t < |w.flags| {
      PutBits(w.flags[a.t], a.x, a.i);
    }
  }

  lemma OtherPutKeeps(w: Wad, a: Write, b: Write)
    requires a.t != b.t && Landed(w, a)
    ensures Landed(SetFuture(w, b), a)
  {
  }

  // A coroutine without outputs writes nothing.
  lemma MuteWritesNothing<S>(f: (S, seq<bv64>) -> Resumed<S>, m: Machine<S>, l: Lane)
    requires l.CoroLane? && l.outs == []
    ensures EvalLane(f, m, l).w == m.w
  {
  }

  lemma {:induction false} OthersKeep<S>(f: (S, seq<bv64>) -> Resumed<S>, m: Machine<S>, lanes: seq<Lane>, a: Write)
    requires AllMute(lanes) && Landed(m.w, a) && forall k :: 0 <= k < |lanes| ==> a.t !in OutsOf(lanes[k])
    ensures Landed(EvalLanes(f, m, lanes).w, a)
  {
    hide FastWrite, Landed, SetFuture;
    if lanes != [] {
      var m', l := EvalLanes(f, m, lanes[..|lanes| - 1]), lanes[|lanes| - 1];
      OthersKeep(f, m, lanes[..|lanes| - 1], a);
      if l.FastLane? {
        FastWritesOut(m'.w, l);
        OtherPutKeeps(m'.w, a, FastWrite(m'.w, l));
      } else {
        MuteWritesNothing(f, m', l);
      }
    }
  }

  // After all lanes have run, the write of each fast lane stands.
  lemma EachIsWritten<S>(f: (S, seq<bv64>) -> Resumed<S>, m: Machine<S>, lanes: seq<Lane>, k: nat)
    requires AllMute(lanes) && AllIndependent(lanes) && k < |lanes| && lanes[k].FastLane?
    ensures Landed(EvalLanes(f, m, lanes).w, FastWrite(m.w, lanes[k]))
  {
    hide FastWrite, Landed, SetFuture;
    var l, before, after := lanes[k], lanes[..k], lanes[k + 1..];
    assert lanes == (before + [l]) + after;
    var m1 := EvalLanes(f, m, before);
    LanesKeep(f, m, before);
    EvalConcat(f, m, before + [l], after);
    assert (before + [l])[..k] == before;
    FastWriteReadsCurrent(m.w, m1.w, l);
    var a := FastWrite(m.w, l);
    FastWritesOut(m.w, l);
    PutIsWritten(m1.w, a);
    OthersElsewhere(lanes, k, after, a.t);
    OthersKeep(f, EvalLane(f, m1, l), after, a);
  }

  // What lane k writes no other lane writes.
  lemma OthersElsewhere(lanes: seq<Lane>, k: nat, after: seq<Lane>, t: nat)
    requires AllIndependent(lanes) && k < |lanes| && after == lanes[k + 1..] && t in OutsOf(lanes[k])
    ensures forall j :: 0 <= j < |after| ==> t !in OutsOf(after[j])
  {
    hide OutsOf;
    forall j | 0 <= j < |after|
      ensures t !in OutsOf(after[j])
    {
      assert Independent(lanes[k], lanes[k + 1 + j]);
    }
  }

  lemma AdvancedBits(f: bv8)
    ensures Advanced(f) & FUTR_MASK == f & FUTR_MASK && (Advanced(f) >> 2) & PAST_MASK == (f >> 4) & PAST_MASK
    ensures Advanced(f) & PAST_MASK == (f >> 2) & PAST_MASK
  {
  }

  lemma QuietBits(f: bv8)
    requires Advanced(f) & PAST_MASK == (Advanced(f) >> 2) & PAST_MASK
    ensures Advanced(Advanced(f)) == Advanced(f) && Advanced(f) & CURR_MASK == f & CURR_MASK
  {
  }

  // A quiet cycle leaves a wad that shows the lanes what they saw before, and that a further advance does not change.
  lemma QuietAdvance(w: Wad)
    requires WadOk(w) && Quiet(AdvanceAll(w))
    ensures SameNow(w, AdvanceAll(w)) && AdvanceAll(AdvanceAll(w)) == AdvanceAll(w)
  {
    hide Advanced;
    var v := AdvanceAll(w);
    forall t | 0 <= t < |w.flags|
      ensures v.past[t] == v.curr[t] && Advanced(v.flags[t]) == v.flags[t]
      ensures v.flags[t] & CURR_MASK == w.flags[t] & CURR_MASK
    {
      assert !IsEdge(v, t);
      QuietBits(w.flags[t]);
    }
    assert v.past == v.curr;
  }

  lemma AdvanceKeepsWritten(w: Wad, a: Write)
    requires WadOk(w) && Landed(w, a)
    ensures Landed(AdvanceAll(w), a)
  {
    if a.t < |w.flags| {
      AdvancedBits(w.flags[a.t]);
    }
  }

  lemma {:induction false} NothingToWrite<S>(f: (S, seq<bv64>) -> Resumed<S>, m: Machine<S>, lanes: seq<Lane>)
    requires AllMute(lanes)
    requires forall k :: 0 <= k < |lanes| && lanes[k].FastLane? ==> Landed(m.w, FastWrite(m.w, lanes[k]))
    ensures EvalLanes(f, m, lanes).w == m.w
  {
    hide FastWrite, Landed, SetFuture;
    if lanes != [] {
      var l := lanes[|lanes| - 1];
      NothingToWrite(f, m, lanes[..|lanes| - 1]);
      if l.FastLane? {
        PutIsWritten(m.w, FastWrite(m.w, l));
      } else {
        MuteWritesNothing(f, EvalLanes(f, m, lanes[..|lanes| - 1]), l);
      }
    }
  }

  lemma {:induction false} FastKeepsCells<S>(f: (S, seq<bv64>) -> Resumed<S>, m: Machine<S>, lanes: seq<Lane>)
    requires AllFast(lanes)
    ensures EvalLanes(f, m, lanes).cells == m.cells
  {
    hide FastWrite, SetFuture;
    if lanes != [] {
      FastKeepsCells(f, m, lanes[..|lanes| - 1]);
    }
  }

  // If no coroutine has an output, a drive after which no trigger has an edge has reached triggers no further drive
  // changes, unknown and inactive values included; without coroutines, it has reached a state no further drive changes.
  lemma QuietIsFixed<S>(f: (S, seq<bv64>) -> Resumed<S>, m: Machine<S>, lanes: seq<Lane>)
    requires AllMute(lanes) && AllIndependent(lanes) && WadOk(m.w) && WadOk(Driven(f, m, lanes).w)
    requires Quiet(Driven(f, m, lanes).w)
    ensures Driven(f, Driven(f, m, lanes), lanes).w == Driven(f, m, lanes).w
    ensures AllFast(lanes) ==> Driven(f, Driven(f, m, lanes), lanes) == Driven(f, m, lanes)
  {
    hide FastWrite, Landed, Quiet, AdvanceAll, EvalLanes, AllIndependent, AllMute, AllFast;
    var done, d := EvalLanes(f, m, lanes), Driven(f, m, lanes);
    LanesKeep(f, m, lanes);
    DoneIsOk(m, done);
    QuietAdvance(done.w);
    forall k | 0 <= k < |lanes| && lanes[k].FastLane?
      ensures Landed(d.w, FastWrite(d.w, lanes[k]))
    {
      EachIsWritten(f, m, lanes, k);
      AdvanceKeepsWritten(done.w, FastWrite(m.w, lanes[k]));
      FastWriteReadsCurrent(m.w, done.w, lanes[k]);
      FastWriteReadsNow(done.w, d.w, lanes[k]);
    }
    NothingToWrite(f, d, lanes);
    if AllFast(lanes) {
      FastKeepsCells(f, d, lanes);
    }
  }

  lemma DoneIsOk<S>(m: Machine<S>, done: Machine<S>)
    requires WadOk(m.w) && SameCurrent(m.w, done.w)
    ensures WadOk(done.w)
  {
  }

  // With a coroutine that has one it may fail: one that waits a cycle before it moves is quiet first and busy later.
  function Waits(s: nat, ins: seq<bv64>): Resumed<nat> {
    Resumed(s + 1, Some([if s < 1 then 0 else 1]))
  }

  lemma CoroutineMayWake()
    ensures var m, lanes := Machine(Wad([0], [0], [0], [0]), [Coro(0, false)]), [CoroLane(0, [], [0])];
            var d := Driven(Waits, m, lanes);
            AllIndependent(lanes) && WadOk(d.w) && Quiet(d.w) && Driven(Waits, d, lanes).w.curr != d.w.curr
  {
    var m, l := Machine(Wad([0], [0], [0], [0]), [Coro(0, false)]), CoroLane(0, [], [0]);
    var d := Driven(Waits, m, [l]);
    OneLane(Waits, m, l);
    OneLane(Waits, d, l);
    assert YieldWrites([0], [0]) == [Write(0, 0, false, false)];
    assert YieldWrites([0], [1]) == [Write(0, 1, false, false)];
    OnePut(m.w, Write(0, 0, false, false));
    OnePut(d.w, Write(0, 1, false, false));
    assert d.w == Wad([0], [0], [0], [0]);
  }

  lemma OneLane<S>(f: (S, seq<bv64>) -> Resumed<S>, m: Machine<S>, l: Lane)
    ensures EvalLanes(f, m, [l]) == EvalLane(f, m, l)
  {
    assert [l][..0] == [];
  }

  lemma OnePut(w: Wad, a: Write)
    ensures SetAll(w, [a]) == SetFuture(w, a)
  {
    assert [a][..0] == [];
  }

  ghost predicate FixedIfQuiet(f: (nat, seq<bv64>) -> Resumed<nat>, m: Machine<nat>, lanes: seq<Lane>) {
    WadOk(m.w) && WadOk(Driven(f, m, lanes).w) && Quiet(Driven(f, m, lanes).w) ==>
      Driven(f, Driven(f, m, lanes), lanes).w == Driven(f, m, lanes).w
  }

  // Whatever the coroutines are and wherever the engine starts, a quiet drive has reached fixed triggers.
  ghost predicate QuietMeansFixed(lanes: seq<Lane>) {
    forall f: (nat, seq<bv64>) -> Resumed<nat>, m: Machine<nat> :: FixedIfQuiet(f, m, lanes)
  }

  // A coroutine that yields nothing at first, and then a one.
  function Late(s: nat, ins: seq<bv64>): Resumed<nat> {
    Resumed(s + 1, Some(if s == 0 then [] else [1]))
  }

  const ALL_X: bv8 := 0x15

  // All triggers unknown, and one live coroutine.
  function Unknown(count: nat): Wad {
    Wad(Zeros(count), Zeros(count), Zeros(count), seq(count, _ => ALL_X))
  }

  function Waiting(count: nat, cell: nat, s: nat): Machine<nat> {
    Machine(Unknown(count), seq(count, i => Coro(if i == cell then s else 0, i != cell)))
  }

  lemma UnknownBits()
    ensures Advanced(ALL_X) == ALL_X && ALL_X & PAST_MASK == (ALL_X >> 2) & PAST_MASK
    ensures (ALL_X & !FUTR_MASK) | FutureBits(true, false) == ALL_X
    ensures (ALL_X | ALL_X) & CURR_MASK != 0 && ALL_X & CURR_X != 0
  {
  }

  lemma UnknownStays(count: nat)
    ensures AdvanceAll(Unknown(count)) == Unknown(count) && WadOk(Unknown(count)) && Quiet(Unknown(count))
  {
    UnknownBits();
  }

  lemma UnknownResult(op: KernelOp, a: Operand, b: Operand, mask: bv64)
    requires a.x && b.x
    ensures Eval4State(op, a, b, mask) == Operand(0, true, false)
  {
    hide EvalRaw, Inverse4;
  }

  predicate Within(l: Lane, count: nat) {
    l.FastLane? ==> l.in1 < count && l.in2 < count && l.out < count
  }

  // A fast lane computes nothing from unknown inputs.
  lemma FastStaysUnknown(l: Lane, count: nat)
    requires l.FastLane? && Within(l, count)
    ensures SetFuture(Unknown(count), FastWrite(Unknown(count), l)) == Unknown(count)
  {
    hide Eval4State, EvalRaw;
    UnknownBits();
    UnknownResult(l.op, OperandAt(Unknown(count), l.in1), OperandAt(Unknown(count), l.in2), l.mask);
  }

  lemma {:induction false} OthersWait(lanes: seq<Lane>, count: nat, cell: nat, s: nat)
    requires forall k :: 0 <= k < |lanes| ==> Within(lanes[k], count) && (lanes[k].CoroLane? ==> lanes[k].cell != cell)
    ensures EvalLanes(Late, Waiting(count, cell, s), lanes) == Waiting(count, cell, s)
  {
    hide FastWrite, SetFuture, Unknown, Within;
    if lanes != [] {
      OthersWait(lanes[..|lanes| - 1], count, cell, s);
      if lanes[|lanes| - 1].FastLane? {
        FastStaysUnknown(lanes[|lanes| - 1], count);
      }
    }
  }

  lemma WaitingResumes(l: Lane, count: nat)
    requires l.CoroLane? && l.cell < count && l.outs != [] && l.outs[0] < count
    ensures EvalLane(Late, Waiting(count, l.cell, 0), l) == Waiting(count, l.cell, 1)
    ensures EvalLane(Late, Waiting(count, l.cell, 1), l).w
      == SetFuture(Unknown(count), Write(l.outs[0], 1, false, false))
  {
    hide SetFuture, Unknown;
    var m := Waiting(count, l.cell, 0);
    assert YieldWrites(l.outs, []) == [];
    assert YieldWrites(l.outs, [1]) == [Write(l.outs[0], 1, false, false)];
    OnePut(Unknown(count), Write(l.outs[0], 1, false, false));
    assert m.cells[l.cell := Coro(1, false)] == Waiting(count, l.cell, 1).cells;
  }

  lemma Reach(lanes: seq<Lane>) returns (count: nat)
    ensures forall k :: 0 <= k < |lanes| ==> Within(lanes[k], count)
  {
    count := 0;
    for i := 0 to |lanes|
      invariant forall k :: 0 <= k < i ==> Within(lanes[k], count)
    {
      if lanes[i].FastLane? {
        count := count + lanes[i].in1 + lanes[i].in2 + lanes[i].out + 1;
      }
    }
  }

  lemma Wakes(lanes: seq<Lane>, k: nat, count: nat)
    requires AllIndependent(lanes) && k < |lanes| && lanes[k].CoroLane? && lanes[k].outs != []
    requires lanes[k].cell < count && lanes[k].outs[0] < count
    requires forall j :: 0 <= j < |lanes| ==> Within(lanes[j], count)
    ensures !FixedIfQuiet(Late, Waiting(count, lanes[k].cell, 0), lanes)
  {
    hide FastWrite, SetFuture, Unknown, Waiting, AdvanceAll, Within, Quiet, EvalLane, OutsOf;
    var l, before, after := lanes[k], lanes[..k], lanes[k + 1..];
    var m0, m1, t := Waiting(count, l.cell, 0), Waiting(count, l.cell, 1), l.outs[0];
    assert lanes == (before + [l]) + after && (before + [l])[..k] == before;
    CellsApart(lanes, k, before, after);
    OthersWait(before, count, l.cell, 0);
    OthersWait(after, count, l.cell, 1);
    OthersWait(before, count, l.cell, 1);
    WaitingResumes(l, count);
    EvalConcat(Late, m0, before + [l], after);
    EvalConcat(Late, m1, before + [l], after);
    UnknownStays(count);
    WaitingIs(count, l.cell, 0);
    WaitingIs(count, l.cell, 1);
    assert Driven(Late, m0, lanes) == m1;
    var m2 := EvalLane(Late, m1, l);
    OnesAreSeen(m2.w, count, t);
    assert t in OutsOf(l) by {
      OutputIsWritten(l);
    }
    OthersElsewhere(lanes, k, after, t);
    LanesElsewhere(Late, m2, after, t);
    SeenNext(EvalLanes(Late, m1, lanes).w, count, t);
  }

  lemma WaitingIs(count: nat, cell: nat, s: nat)
    ensures Waiting(count, cell, s).w == Unknown(count)
  {
  }

  lemma OutputIsWritten(l: Lane)
    requires l.CoroLane? && l.outs != []
    ensures l.outs[0] in OutsOf(l)
  {
  }

  lemma CellsApart(lanes: seq<Lane>, k: nat, before: seq<Lane>, after: seq<Lane>)
    requires AllIndependent(lanes) && k < |lanes| && lanes[k].CoroLane?
    requires before == lanes[..k] && after == lanes[k + 1..]
    ensures forall j :: 0 <= j < |before| && before[j].CoroLane? ==> before[j].cell != lanes[k].cell
    ensures forall j :: 0 <= j < |after| && after[j].CoroLane? ==> after[j].cell != lanes[k].cell
  {
    hide OutsOf;
    assert forall j :: 0 <= j < k ==> Independent(lanes[j], lanes[k]);
    assert forall j :: k < j < |lanes| ==> Independent(lanes[k], lanes[j]);
  }

  lemma OnesAreSeen(w: Wad, count: nat, t: nat)
    requires t < count && w == SetFuture(Unknown(count), Write(t, 1, false, false))
    ensures t < |w.futr| && w.futr[t] == 1
  {
  }

  lemma SeenNext(w: Wad, count: nat, t: nat)
    requires t < |w.futr| && w.futr[t] == 1 && t < count
    ensures AdvanceAll(w) != Unknown(count)
  {
    assert Unknown(count).curr[t] == 0;
  }

  // For independent lanes, a quiet drive always means fixed triggers exactly when no coroutine has an output.
  lemma QuietIsFixedWhen(lanes: seq<Lane>)
    requires AllIndependent(lanes)
    ensures QuietMeansFixed(lanes) <==> AllMute(lanes)
  {
    hide AllIndependent, Quiet, Driven;
    if AllMute(lanes) {
      forall f: (nat, seq<bv64>) -> Resumed<nat>, m: Machine<nat>
        ensures FixedIfQuiet(f, m, lanes)
      {
        if WadOk(m.w) && WadOk(Driven(f, m, lanes).w) && Quiet(Driven(f, m, lanes).w) {
          QuietIsFixed(f, m, lanes);
        }
      }
    } else {
      var k :| 0 <= k < |lanes| && lanes[k].CoroLane? && lanes[k].outs != [];
      var count := Reach(lanes);
      Wakes(lanes, k, count + lanes[k].cell + lanes[k].outs[0] + 1);
    }
  }

  // Drive until a cycle brings no edge, or the limit is reached.
  method Settle<S>(engine: SimEngine<S>, maxCycles: nat) returns (cycles: nat)
    requires engine.Valid()
    modifies engine, engine.past, engine.curr, engine.futr, engine.flags
    ensures engine.Valid() && engine.Lanes() == old(engine.Lanes()) && WadOk(engine.State().w)
    ensures cycles <= maxCycles
    ensures engine.State() == Repeated(engine.resume, old(engine.State()), engine.Lanes(), cycles)
    ensures cycles < maxCycles ==> cycles > 0 && Quiet(engine.State().w)
    ensures forall k :: 0 < k < cycles ==>
      var w := Repeated(engine.resume, old(engine.State()), engine.Lanes(), k).w; WadOk(w) && !Quiet(w)
  {
    hide Quiet, Driven;
    ghost var m, lanes := engine.State(), engine.Lanes();
    cycles := 0;
    var stopped := false;
    while cycles < maxCycles && !stopped
      invariant engine.Valid() && engine.Lanes() == lanes && cycles <= maxCycles
      invariant engine.State() == Repeated(engine.resume, m, lanes, cycles)
      invariant stopped ==> cycles > 0 && Quiet(engine.State().w)
      invariant !stopped && cycles > 0 ==> !Quiet(engine.State().w)
      invariant forall k :: 0 < k < cycles ==> var w := Repeated(engine.resume, m, lanes, k).w; WadOk(w) && !Quiet(w)
      decreases maxCycles - cycles
    {
      ghost var before := engine.State();
      var _ := engine.Drive();
      cycles := cycles + 1;
      var anyEdge := FindEdge(engine);
      stopped := !anyEdge;
    }
  }

  method FindEdge<S>(engine: SimEngine<S>) returns (anyEdge: bool)
    requires engine.Valid()
    ensures anyEdge <==> !Quiet(engine.State().w)
  {
    var t := 0;
    while t < engine.past.Length
      invariant t <= engine.past.Length
      invariant forall u :: 0 <= u < t ==> !IsEdge(engine.State().w, u)
    {
      var f := engine.flags[t];
      assert IsEdge(engine.State().w, t) <==> engine.past[t] != engine.curr[t] || f & PAST_MASK != (f >> 2) & PAST_MASK;
      if engine.past[t] != engine.curr[t] || f & PAST_MASK != (f >> 2) & PAST_MASK {
        return true;
      }
      t := t + 1;
    }
    anyEdge := false;
  }

  // A quiet drive shows every port what it showed before.
  lemma QuietIsSteady<S>(c: Chip<S>, m: Machine<S>)
    requires WadOk(m.w) && WadOk(Next(c, m).w) && Quiet(Next(c, m).w)
    ensures Steady(c, m)
  {
    hide EvalLanes, AdvanceAll, Quiet;
    var done := EvalLanes(c.resume, m, c.lanes);
    LanesKeep(c.resume, m, c.lanes);
    DoneIsOk(m, done);
    QuietAdvance(done.w);
  }

  // When a circuit has settled, an adder in it shows the sum of whatever its inputs show, whatever coroutines run
  // beside it.
  lemma SettledSumIsRight<S>(c: Chip<S>, m: Machine<S>, n: nat, ad: Adder, o: Operands)
    requires ChipOk(c) && Running(c, m) && AdderOk(c.v, ad) && AdderApart(c.v, ad) && |ad.bits| >= 1 && n > 0
    requires Running(c, After(c, m, n)) && Quiet(After(c, m, n).w) && Shows(c, After(c, m, n), ad, o)
    ensures var d := After(c, m, n);
            Number(SumAt(c, d, ad)) + Weight(CarryAt(c, d, ad), Pow2(|ad.bits|))
              == Number(o.a) + Number(o.b) + Weight(o.cIn, 1)
  {
    hide Clear, AdderOk, Shows, Quiet, ChipOk, Driven, Number, SumAt, CarryAt;
    var before := After(c, m, n - 1);
    StaysRunning(c, m, n - 1);
    QuietIsSteady(c, before);
    SteadyReads(c, before, ad, o);
    SteadyAdderAdds(c, before, ad, o);
  }

  // Set the operands, drive until nothing changes, and read the result. If the engine settles within the limit, the
  // result is the sum.
  method AddAndSettle<S>(engine: SimEngine<S>, ghost c: Chip<S>, trig: seq<nat>, ad: Adder, a: nat, b: nat, cIn: bool,
                         maxCycles: nat)
    returns (settled: bool, sum: nat, carry: bool)
    requires ChipOk(c) && trig == c.trig && Runs(engine, c)
    requires AdderOk(c.v, ad) && AdderApart(c.v, ad) && FreeInputs(c.v, ad) && |ad.bits| >= 1
    requires AdderPorts(c.v.modules, c.v.ports, ad)
    modifies engine, engine.past, engine.curr, engine.futr, engine.flags
    ensures Runs(engine, c) && (settled ==> Quiet(engine.State().w))
    ensures settled ==>
      sum + Weight(carry, Pow2(|ad.bits|)) == a % Pow2(|ad.bits|) + b % Pow2(|ad.bits|) + Weight(cIn, 1)
  {
    hide ChipOk, Running, FreeInputs, AllPrimed, Primed, AdderOk, AdderPorts, Weight, Pow2, Number, BitsOf, SumAt;
    hide Held, After;
    hide Quiet, Shows;
    InputsInRange(c, ad);
    WidthsAgree(c, ad);
    SetOperands(engine, c, trig, ad, a, b, cIn);
    ghost var m, o := engine.State(), Operands(BitsOf(a, |ad.a|), BitsOf(b, |ad.b|), cIn);
    PrimedIsHeld(c, m, ad, o);
    var cycles := Settle(engine, maxCycles);
    settled := cycles < maxCycles;
    StaysRunning(c, m, cycles);
    SettledAt(c, m, cycles, engine.State());
    RunsShows(engine, c);
    sum := GetSum(engine, c, trig, ad);
    carry := engine.curr[trig[ad.carry.index]] & 1 != 0;
    if settled {
      HeldShows(c, m, ad, o, cycles);
      SettledSumIsRight(c, m, cycles, ad, o);
      NumberOfBits(a, |ad.a|);
      NumberOfBits(b, |ad.b|);
    }
  }

  lemma SettledAt<S>(c: Chip<S>, m: Machine<S>, n: nat, d: Machine<S>)
    requires d == Repeated(c.resume, m, c.lanes, n)
    ensures d == After(c, m, n)
  {
  }

  lemma HeldShows<S>(c: Chip<S>, m: Machine<S>, ad: Adder, o: Operands, n: nat)
    requires Held(c, m, ad, o)
    ensures Shows(c, After(c, m, n), ad, o)
  {
  }
}
