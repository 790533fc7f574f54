// Evaluating compiled lanes on double-buffered triggers.

module RubeLanes {
  import opened Prelude
  import opened RubeLayout

  const CURR_X: bv8 := 0x04
  const CURR_I: bv8 := 0x08
  const CURR_MASK: bv8 := 0x0C
  const FUTR_X: bv8 := 0x10
  const FUTR_I: bv8 := 0x20
  const FUTR_MASK: bv8 := 0x30
  const FULL: bv64 := 0xFFFF_FFFF_FFFF_FFFF
  const CORO_MAX_PORTS: nat := 64

  // Past, current and future values of every trigger, and their X and I bits two to a buffer.
  datatype Wad = Wad(past: seq<bv64>, curr: seq<bv64>, futr: seq<bv64>, flags: seq<bv8>)

  predicate WadOk(w: Wad) {
    |w.past| == |w.curr| == |w.futr| == |w.flags|
  }

  // One value on its way to a trigger's future buffer.
  datatype Write = Write(t: nat, val: bv64, x: bool, i: bool)

  function FutureBits(x: bool, i: bool): bv8 {
    (if x then FUTR_X else 0) | (if i then FUTR_I else 0)
  }

  function SetFuture(w: Wad, a: Write): Wad {
    if a.t < |w.futr| && a.t < |w.flags| then
      w.(futr := w.futr[a.t := a.val], flags := w.flags[a.t := (w.flags[a.t] & !FUTR_MASK) | FutureBits(a.x, a.i)])
    else w
  }

  function SetAll(w: Wad, writes: seq<Write>): Wad {
    if writes == [] then w else SetFuture(SetAll(w, writes[..|writes| - 1]), writes[|writes| - 1])
  }

  function Advanced(f: bv8): bv8 {
    ((f >> 2) & 0x0F) | (f & 0x30)
  }

  function AdvanceAll(w: Wad): Wad {
    Wad(w.curr, w.futr, w.futr, seq(|w.flags|, i requires 0 <= i < |w.flags| => Advanced(w.flags[i])))
  }

  function EvalRaw(op: KernelOp, a: bv64, b: bv64, mask: bv64): bv64 {
    var res := match op
      case Nand => !(a & b)
      case And => a & b
      case Or => a | b
      case Not => !a
      case Xor => a ^ b
      case Nor => !(a | b)
      case Xnor => !(a ^ b)
      case Add => a + b
      case Sub => a - b
      case Shl => a << (b & 63)
      case Shr => a >> (b & 63);
    res & mask
  }

  // Adding counts up from the first operand, subtracting counts down.
  lemma AddCounts(x: bv64, y: bv64)
    ensures EvalRaw(Add, x, 0, FULL) == x && EvalRaw(Add, x, y + 1, FULL) == EvalRaw(Add, x, y, FULL) + 1
  {
  }

  lemma SubCounts(x: bv64, y: bv64)
    ensures EvalRaw(Sub, x, 0, FULL) == x && EvalRaw(Sub, x, y + 1, FULL) == EvalRaw(Sub, x, y, FULL) - 1
  {
  }

  // Only six bits of the second operand count for a shift.
  lemma ShiftsAre(x: bv64, y: bv64)
    ensures y < 64 ==> EvalRaw(Shl, x, y, FULL) == x << y && EvalRaw(Shr, x, y, FULL) == x >> y
    ensures EvalRaw(Shl, x, y, FULL) == EvalRaw(Shl, x, y & 63, FULL)
    ensures EvalRaw(Shr, x, y, FULL) == EvalRaw(Shr, x, y & 63, FULL)
  {
  }

  // A mask drops the bits outside it, for every kernel.
  lemma KernelIsMasked(op: KernelOp, x: bv64, y: bv64, mask: bv64)
    ensures EvalRaw(op, x, y, mask) == EvalRaw(op, x, y, FULL) & mask
  {
  }

  // One operand with its unknown and inactive bits.
  datatype Operand = Operand(val: bv64, x: bool, i: bool) {
    predicate Unclear() {
      x || i
    }

    predicate IsFalse() {
      !x && !i && val & 1 == 0
    }

    predicate IsTrue() {
      !x && !i && val & 1 != 0
    }
  }

  // The four-state inverse, which takes a clear 0 or 1 to be one bit wide.
  function Inverse4(val: bv64): bv64 {
    if val == 1 then 0 else if val == 0 then 1 else !val
  }

  function Eval4State(op: KernelOp, a: Operand, b: Operand, mask: bv64): Operand {
    if op == And || op == Nand then
      if a.IsFalse() || b.IsFalse() then Operand((if op == And then 0 else 1) & mask, false, false)
      else if a.Unclear() || b.Unclear() then Operand(0, true, false)
      else Operand(EvalRaw(op, a.val, b.val, mask), false, false)
    else if op == Or || op == Nor then
      if a.IsTrue() || b.IsTrue() then Operand((if op == Or then 1 else 0) & mask, false, false)
      else if a.Unclear() || b.Unclear() then Operand(0, true, false)
      else Operand(EvalRaw(op, a.val, b.val, mask), false, false)
    else if op == Not then
      if a.Unclear() then Operand(0, true, false)
      else Operand(Inverse4(a.val) & mask, false, false)
    else if a.Unclear() || b.Unclear() then Operand(0, true, false)
    else Operand(EvalRaw(op, a.val, b.val, mask), false, false)
  }

  datatype Lane =
    | FastLane(op: KernelOp, mask: bv64, in1: nat, in2: nat, out: nat)
    | CoroLane(cell: nat, ins: seq<nat>, outs: seq<nat>)

  datatype Coro<S> = Coro(state: S, done: bool)

  // What resuming a coroutine gives: its next state, and the values it yields unless it has finished.
  datatype Resumed<S> = Resumed(next: S, yielded: Option<seq<bv64>>)

  datatype Machine<S> = Machine(w: Wad, cells: seq<Coro<S>>)

  function CurrentAt(w: Wad, t: nat): bv64 {
    if t < |w.curr| then w.curr[t] else 0
  }

  function FlagsAt(w: Wad, t: nat): bv8 {
    if t < |w.flags| then w.flags[t] else 0
  }

  function OperandAt(w: Wad, t: nat): Operand {
    Operand(CurrentAt(w, t), FlagsAt(w, t) & CURR_X != 0, FlagsAt(w, t) & CURR_I != 0)
  }

  // The clear-flags shortcut and the four-state path of one fast lane.
  function FastWrite(w: Wad, l: Lane): Write
    requires l.FastLane?
  {
    if (FlagsAt(w, l.in1) | FlagsAt(w, l.in2)) & CURR_MASK == 0 then
      Write(l.out, EvalRaw(l.op, CurrentAt(w, l.in1), CurrentAt(w, l.in2), l.mask), false, false)
    else
      var r := Eval4State(l.op, OperandAt(w, l.in1), OperandAt(w, l.in2), l.mask);
      Write(l.out, r.val, r.x, r.i)
  }

  function Min(a: nat, b: nat): nat {
    if a < b then a else b
  }

  function Inputs(w: Wad, ins: seq<nat>): seq<bv64> {
    seq(Min(|ins|, CORO_MAX_PORTS), k requires 0 <= k < Min(|ins|, CORO_MAX_PORTS) => CurrentAt(w, ins[k]))
  }

  // A coroutine is shown the current values of its first 64 inputs.
  lemma InputsAreCurrent(w: Wad, ins: seq<nat>)
    ensures |Inputs(w, ins)| == if |ins| < 64 then |ins| else 64
    ensures forall k :: 0 <= k < |Inputs(w, ins)| && ins[k] < |w.curr| ==> Inputs(w, ins)[k] == w.curr[ins[k]]
  {
  }

  function YieldWrites(outs: seq<nat>, vals: seq<bv64>): seq<Write> {
    seq(Min(|outs|, |vals|), k requires 0 <= k < Min(|outs|, |vals|) => Write(outs[k], vals[k], false, false))
  }

  function Resume<S>(f: (S, seq<bv64>) -> Resumed<S>, m: Machine<S>, l: Lane): Resumed<S>
    requires l.CoroLane? && l.cell < |m.cells|
  {
    f(m.cells[l.cell].state, Inputs(m.w, l.ins))
  }

  function EvalLane<S>(f: (S, seq<bv64>) -> Resumed<S>, m: Machine<S>, l: Lane): Machine<S> {
    match l
    case FastLane(_, _, _, _, _) => m.(w := SetFuture(m.w, FastWrite(m.w, l)))
    case CoroLane(cell, ins, outs) =>
      if cell >= |m.cells| || m.cells[cell].done then m
      else
        var r := Resume(f, m, l);
        match r.yielded
        case None => m.(cells := m.cells[cell := Coro(r.next, true)])
        case Some(vals) =>
          Machine(SetAll(m.w, YieldWrites(outs, vals)), m.cells[cell := Coro(r.next, false)])
  }

  function EvalLanes<S>(f: (S, seq<bv64>) -> Resumed<S>, m: Machine<S>, lanes: seq<Lane>): Machine<S> {
    if lanes == [] then m else EvalLane(f, EvalLanes(f, m, lanes[..|lanes| - 1]), lanes[|lanes| - 1])
  }

  // The parts of a machine a lane reads: current values and their bits.
  predicate SameCurrent(w: Wad, w': Wad) {
    && w'.curr == w.curr && w'.past == w.past && |w'.futr| == |w.futr| && |w'.flags| == |w.flags|
    && forall t :: 0 <= t < |w.flags| ==> w'.flags[t] & !FUTR_MASK == w.flags[t] & !FUTR_MASK
  }

  lemma WriteKeepsBits(f: bv8, x: bool, i: bool)
    ensures ((f & !FUTR_MASK) | FutureBits(x, i)) & !FUTR_MASK == f & !FUTR_MASK
  {
  }

  lemma SetFutureKeepsCurrent(w: Wad, a: Write)
    ensures SameCurrent(w, SetFuture(w, a))
  {
    if a.t < |w.futr| && a.t < |w.flags| {
      WriteKeepsBits(w.flags[a.t], a.x, a.i);
    }
  }

  lemma {:induction false} SetAllKeepsCurrent(w: Wad, writes: seq<Write>)
    ensures SameCurrent(w, SetAll(w, writes))
  {
    hide SetFuture;
    if writes != [] {
      SetAllKeepsCurrent(w, writes[..|writes| - 1]);
      SetFutureKeepsCurrent(SetAll(w, writes[..|writes| - 1]), writes[|writes| - 1]);
    }
  }

  lemma CurrentBits(f: bv8, g: bv8)
    requires f & !FUTR_MASK == g & !FUTR_MASK
    ensures f & CURR_MASK == g & CURR_MASK && f & CURR_X == g & CURR_X && f & CURR_I == g & CURR_I
  {
  }

  lemma BitsOfBoth(f: bv8, g: bv8, f': bv8, g': bv8)
    requires f & CURR_MASK == f' & CURR_MASK && g & CURR_MASK == g' & CURR_MASK
    ensures (f | g) & CURR_MASK == (f' | g') & CURR_MASK
  {
  }

  // A fast lane's result depends on the current buffer alone.
  lemma FastWriteReadsCurrent(w: Wad, w': Wad, l: Lane)
    requires l.FastLane? && SameCurrent(w, w')
    ensures FastWrite(w', l) == FastWrite(w, l)
  {
    hide EvalRaw, Eval4State;
    CurrentBits(FlagsAt(w, l.in1), FlagsAt(w', l.in1));
    CurrentBits(FlagsAt(w, l.in2), FlagsAt(w', l.in2));
    BitsOfBoth(FlagsAt(w, l.in1), FlagsAt(w, l.in2), FlagsAt(w', l.in1), FlagsAt(w', l.in2));
  }

  lemma InputsReadCurrent(w: Wad, w': Wad, ins: seq<nat>)
    requires SameCurrent(w, w')
    ensures Inputs(w', ins) == Inputs(w, ins)
  {
  }

  function OutsOf(l: Lane): set<nat> {
    match l
    case FastLane(_, _, _, _, out) => {out}
    case CoroLane(_, _, outs) => set o | o in outs
  }

  // Two lanes that write different triggers and, if coroutines, have private state.
  predicate Independent(a: Lane, b: Lane) {
    OutsOf(a) !! OutsOf(b) && (a.CoroLane? && b.CoroLane? ==> a.cell != b.cell)
  }

  lemma SetFutureCommutes(w: Wad, a: Write, b: Write)
    requires a.t != b.t
    ensures SetFuture(SetFuture(w, a), b) == SetFuture(SetFuture(w, b), a)
  {
    hide FutureBits;
  }

  lemma {:induction false} SetAllPasses(w: Wad, a: Write, writes: seq<Write>)
    requires forall i :: 0 <= i < |writes| ==> writes[i].t != a.t
    ensures SetFuture(SetAll(w, writes), a) == SetAll(SetFuture(w, a), writes)
  {
    hide SetFuture;
    if writes != [] {
      SetFutureCommutes(SetAll(w, writes[..|writes| - 1]), writes[|writes| - 1], a);
      SetAllPasses(w, a, writes[..|writes| - 1]);
    }
  }

  lemma {:induction false} SetAllCommutes(w: Wad, a: seq<Write>, b: seq<Write>)
    requires forall i, j :: 0 <= i < |a| && 0 <= j < |b| ==> a[i].t != b[j].t
    ensures SetAll(SetAll(w, a), b) == SetAll(SetAll(w, b), a)
  {
    hide SetFuture;
    if a != [] {
      SetAllPasses(SetAll(w, a[..|a| - 1]), a[|a| - 1], b);
      SetAllCommutes(w, a[..|a| - 1], b);
    }
  }

  // What a lane does, as writes and a new cell.
  function WritesOf<S>(f: (S, seq<bv64>) -> Resumed<S>, m: Machine<S>, l: Lane): seq<Write> {
    match l
    case FastLane(_, _, _, _, _) => [FastWrite(m.w, l)]
    case CoroLane(cell, ins, outs) =>
      if cell >= |m.cells| || m.cells[cell].done then []
      else match Resume(f, m, l).yielded
        case None => []
        case Some(vals) => YieldWrites(outs, vals)
  }

  function CellsAfter<S>(f: (S, seq<bv64>) -> Resumed<S>, m: Machine<S>, l: Lane): seq<Coro<S>> {
    match l
    case FastLane(_, _, _, _, _) => m.cells
    case CoroLane(cell, ins, outs) =>
      if cell >= |m.cells| || m.cells[cell].done then m.cells
      else m.cells[cell := Coro(Resume(f, m, l).next, Resume(f, m, l).yielded == None)]
  }

  lemma LaneIsWrites<S>(f: (S, seq<bv64>) -> Resumed<S>, m: Machine<S>, l: Lane)
    ensures EvalLane(f, m, l) == Machine(SetAll(m.w, WritesOf(f, m, l)), CellsAfter(f, m, l))
    ensures forall i :: 0 <= i < |WritesOf(f, m, l)| ==> WritesOf(f, m, l)[i].t in OutsOf(l)
  {
    hide SetFuture, FastWrite;
    match l
    case FastLane(_, _, _, _, _) =>
      assert [FastWrite(m.w, l)][..0] == [];
      FastWritesOut(m.w, l);
    case CoroLane(cell, ins, outs) =>
  }

  lemma FastWritesOut(w: Wad, l: Lane)
    requires l.FastLane?
    ensures FastWrite(w, l).t == l.out
  {
    hide EvalRaw, Eval4State;
  }

  lemma EffectReadsCurrent<S>(f: (S, seq<bv64>) -> Resumed<S>, m: Machine<S>, m': Machine<S>, l: Lane)
    requires SameCurrent(m.w, m'.w) && |m.cells| == |m'.cells|
    requires l.CoroLane? && l.cell < |m.cells| ==> m'.cells[l.cell] == m.cells[l.cell]
    ensures WritesOf(f, m', l) == WritesOf(f, m, l)
    ensures l.CoroLane? && l.cell < |m.cells| ==> CellsAfter(f, m', l)[l.cell] == CellsAfter(f, m, l)[l.cell]
  {
    hide FastWrite;
    match l
    case FastLane(_, _, _, _, _) => FastWriteReadsCurrent(m.w, m'.w, l);
    case CoroLane(cell, ins, outs) => InputsReadCurrent(m.w, m'.w, ins);
  }

  lemma CellsCommute<S>(f: (S, seq<bv64>) -> Resumed<S>, m: Machine<S>, a: Lane, b: Lane)
    requires Independent(a, b)
    ensures CellsAfter(f, EvalLane(f, m, a), b) == CellsAfter(f, EvalLane(f, m, b), a)
  {
    hide SetFuture, FastWrite, SetAll;
    LaneIsWrites(f, m, a);
    LaneIsWrites(f, m, b);
    SetAllKeepsCurrent(m.w, WritesOf(f, m, a));
    SetAllKeepsCurrent(m.w, WritesOf(f, m, b));
    EffectReadsCurrent(f, m, EvalLane(f, m, a), b);
    EffectReadsCurrent(f, m, EvalLane(f, m, b), a);
  }

  // Independent lanes may be evaluated in either order.
  lemma LanesCommute<S>(f: (S, seq<bv64>) -> Resumed<S>, m: Machine<S>, a: Lane, b: Lane)
    requires Independent(a, b)
    ensures EvalLane(f, EvalLane(f, m, a), b) == EvalLane(f, EvalLane(f, m, b), a)
  {
    hide EvalLane, SetAll, WritesOf, CellsAfter;
    var ma, mb := EvalLane(f, m, a), EvalLane(f, m, b);
    LaneIsWrites(f, m, a);
    LaneIsWrites(f, m, b);
    LaneIsWrites(f, ma, b);
    LaneIsWrites(f, mb, a);
    CellsCommute(f, m, a, b);
    WritesSurvive(f, m, a, b);
    WritesSurvive(f, m, b, a);
    SetAllCommutes(m.w, WritesOf(f, m, a), WritesOf(f, m, b));
  }

  lemma WritesSurvive<S>(f: (S, seq<bv64>) -> Resumed<S>, m: Machine<S>, a: Lane, b: Lane)
    requires Independent(a, b)
    ensures WritesOf(f, EvalLane(f, m, a), b) == WritesOf(f, m, b)
  {
    hide SetAll, FastWrite, YieldWrites;
    LaneIsWrites(f, m, a);
    SetAllKeepsCurrent(m.w, WritesOf(f, m, a));
    CellsSurvive(f, m, a, b);
    EffectReadsCurrent(f, m, EvalLane(f, m, a), b);
  }

  lemma CellsSurvive<S>(f: (S, seq<bv64>) -> Resumed<S>, m: Machine<S>, a: Lane, b: Lane)
    requires Independent(a, b)
    ensures |CellsAfter(f, m, a)| == |m.cells|
    ensures b.CoroLane? && b.cell < |m.cells| ==> CellsAfter(f, m, a)[b.cell] == m.cells[b.cell]
  {
  }

  lemma {:induction false} SetAllElsewhere(w: Wad, writes: seq<Write>, t: nat)
    requires t < |w.futr| && forall i :: 0 <= i < |writes| ==> writes[i].t != t
    ensures |SetAll(w, writes).futr| == |w.futr| && SetAll(w, writes).futr[t] == w.futr[t]
    ensures |SetAll(w, writes).flags| == |w.flags| && (t < |w.flags| ==> SetAll(w, writes).flags[t] == w.flags[t])
  {
    if writes != [] {
      SetAllElsewhere(w, writes[..|writes| - 1], t);
    }
  }

  lemma {:induction false} LanesElsewhere<S>(f: (S, seq<bv64>) -> Resumed<S>, m: Machine<S>, lanes: seq<Lane>, t: nat)
    requires t < |m.w.futr| && forall k :: 0 <= k < |lanes| ==> t !in OutsOf(lanes[k])
    ensures |EvalLanes(f, m, lanes).w.futr| == |m.w.futr| && EvalLanes(f, m, lanes).w.futr[t] == m.w.futr[t]
    ensures var flags := EvalLanes(f, m, lanes).w.flags;
            |flags| == |m.w.flags| && (t < |m.w.flags| ==> flags[t] == m.w.flags[t])
  {
    hide EvalLane, SetAll, WritesOf;
    if lanes != [] {
      var m', l := EvalLanes(f, m, lanes[..|lanes| - 1]), lanes[|lanes| - 1];
      LanesElsewhere(f, m, lanes[..|lanes| - 1], t);
      LaneIsWrites(f, m', l);
      SetAllElsewhere(m'.w, WritesOf(f, m', l), t);
    }
  }

  predicate AllIndependent(lanes: seq<Lane>) {
    forall i, j :: 0 <= i < j < |lanes| ==> Independent(lanes[i], lanes[j]) && Independent(lanes[j], lanes[i])
  }

  // A lane may be moved to the end past lanes it is independent of.
  lemma {:induction false} MoveToEnd<S>(f: (S, seq<bv64>) -> Resumed<S>, m: Machine<S>, l: Lane, after: seq<Lane>)
    requires forall i :: 0 <= i < |after| ==> Independent(l, after[i])
    ensures EvalLanes(f, EvalLane(f, m, l), after) == EvalLane(f, EvalLanes(f, m, after), l)
  {
    hide EvalLane, Independent;
    if after != [] {
      MoveToEnd(f, m, l, after[..|after| - 1]);
      LanesCommute(f, EvalLanes(f, m, after[..|after| - 1]), l, after[|after| - 1]);
    }
  }

  lemma {:induction false} EvalConcat<S>(f: (S, seq<bv64>) -> Resumed<S>, m: Machine<S>, a: seq<Lane>, b: seq<Lane>)
    ensures EvalLanes(f, m, a + b) == EvalLanes(f, EvalLanes(f, m, a), b)
  {
    hide EvalLane;
    if b == [] {
      assert a + b == a;
    } else {
      assert (a + b)[..|a + b| - 1] == a + b[..|b| - 1];
      EvalConcat(f, m, a, b[..|b| - 1]);
    }
  }

  // Drive is order-independent: any permutation of independent lanes computes the same next state.
  lemma {:induction false} OrderDoesNotMatter<S>(f: (S, seq<bv64>) -> Resumed<S>, m: Machine<S>, serial: seq<Lane>,
                                                 any: seq<Lane>)
    requires multiset(serial) == multiset(any) && AllIndependent(serial)
    ensures EvalLanes(f, m, any) == EvalLanes(f, m, serial)
    decreases |any|
  {
    hide EvalLane, Independent;
    assert |multiset(serial)| == |serial| && |multiset(any)| == |any|;
    if any != [] {
      var last, front := any[|any| - 1], any[..|any| - 1];
      assert any == front + [last];
      assert last in multiset(serial);
      var k :| 0 <= k < |serial| && serial[k] == last;
      var before, after := serial[..k], serial[k + 1..];
      assert serial == before + [last] + after;
      WithoutOne(before, last, after, front);
      StillIndependent(before, last, after);
      EvalConcat(f, m, before + [last], after);
      assert (before + [last])[..k] == before;
      MoveToEnd(f, EvalLanes(f, m, before), last, after);
      EvalConcat(f, m, before, after);
      OrderDoesNotMatter(f, m, before + after, front);
    }
  }

  lemma WithoutOne(before: seq<Lane>, last: Lane, after: seq<Lane>, front: seq<Lane>)
    requires multiset(before + [last] + after) == multiset(front + [last])
    ensures multiset(before + after) == multiset(front)
  {
    assert multiset(before + [last] + after) == multiset(before) + multiset{last} + multiset(after);
    assert multiset(before + after) == multiset(before) + multiset(after);
    assert multiset(front + [last]) == multiset(front) + multiset{last};
    forall x
      ensures multiset(before + after)[x] == multiset(front)[x]
    {
      assert (multiset(before) + multiset{last} + multiset(after))[x] == (multiset(front) + multiset{last})[x];
    }
  }

  lemma StillIndependent(before: seq<Lane>, last: Lane, after: seq<Lane>)
    requires AllIndependent(before + [last] + after)
    ensures AllIndependent(before + after) && forall i :: 0 <= i < |after| ==> Independent(last, after[i])
  {
    hide Independent;
    var all, k := before + [last] + after, |before|;
    forall i | 0 <= i < |after|
      ensures Independent(last, after[i])
    {
      assert all[k] == last && all[k + 1 + i] == after[i];
    }
    forall i, j | 0 <= i < j < |before + after|
      ensures Independent((before + after)[i], (before + after)[j])
      ensures Independent((before + after)[j], (before + after)[i])
    {
      assert (before + after)[i] == all[if i < k then i else i + 1];
      assert (before + after)[j] == all[if j < k then j else j + 1];
    }
  }
}

module RubeEngine {
  import opened RubeLayout
  import opened RubeLanes

  // A run of neighbouring fast modules with the same operation and mask, one lane each.
  datatype FastWarp = FastWarp(op: KernelOp, modStart: nat, count: nat, mask: bv64,
    in1: seq<nat>, in2: seq<nat>, out: seq<nat>)

  predicate IsFast(modules: seq<Module>, i: nat) {
    i < |modules| && modules[i].kernel.Fast?
  }

  // What every fast module needs: triggers where it looks for its inputs, and one at its first output number. A module
  // without inputs or outputs finds those of the port where its segment would begin.
  predicate Compilable(modules: seq<Module>, ports: seq<Port>, trig: seq<nat>) {
    && |trig| == |ports|
    && forall i :: 0 <= i < |modules| && IsFast(modules, i) ==>
         && modules[i].inFirst < |ports| && modules[i].inFirst + modules[i].inCount <= |ports|
         && modules[i].outFirst < |ports|
  }

  function LaneOf(modules: seq<Module>, ports: seq<Port>, trig: seq<nat>, i: nat): Lane
    requires Compilable(modules, ports, trig) && IsFast(modules, i)
  {
    var m := modules[i];
    FastLane(m.kernel.op, ports[m.outFirst].typ.mask, trig[m.inFirst],
             if m.inCount > 1 then trig[m.inFirst + 1] else trig[m.inFirst], trig[m.outFirst])
  }

  predicate Filled(w: FastWarp) {
    |w.in1| == |w.in2| == |w.out| == w.count
  }

  function WarpLanes(w: FastWarp): seq<Lane>
    requires Filled(w)
  {
    seq(w.count, l requires 0 <= l < w.count => FastLane(w.op, w.mask, w.in1[l], w.in2[l], w.out[l]))
  }

  predicate WarpOk(modules: seq<Module>, ports: seq<Port>, trig: seq<nat>, w: FastWarp)
    requires Compilable(modules, ports, trig)
  {
    && Filled(w) && w.count > 0 && w.modStart + w.count <= |modules|
    && forall i :: w.modStart <= i < w.modStart + w.count ==>
         IsFast(modules, i) && WarpLanes(w)[i - w.modStart] == LaneOf(modules, ports, trig, i)
  }

  function Range(start: nat, count: nat): seq<nat> {
    seq(count, l requires 0 <= l < count => start + l)
  }

  // The modules the warps evaluate, lane by lane.
  function Evaluated(warps: seq<FastWarp>): seq<nat> {
    if warps == [] then []
    else Evaluated(warps[..|warps| - 1]) + Range(warps[|warps| - 1].modStart, warps[|warps| - 1].count)
  }

  function FastModules(modules: seq<Module>, n: nat): seq<nat> {
    if n == 0 then [] else FastModules(modules, n - 1) + (if IsFast(modules, n - 1) then [n - 1] else [])
  }

  lemma {:induction false} FastRange(modules: seq<Module>, start: nat, count: nat)
    requires forall i :: start <= i < start + count ==> IsFast(modules, i)
    ensures FastModules(modules, start + count) == FastModules(modules, start) + Range(start, count)
  {
    if count == 0 {
      assert Range(start, 0) == [];
    } else {
      FastRange(modules, start, count - 1);
      assert Range(start, count) == Range(start, count - 1) + [start + count - 1];
    }
  }

  // The list of fast modules names each of them once, in order.
  lemma {:induction false} FastModulesOnce(modules: seq<Module>, n: nat)
    ensures forall i: nat :: i in FastModules(modules, n) <==> i < n && IsFast(modules, i)
    ensures forall a, b :: 0 <= a < b < |FastModules(modules, n)| ==>
      FastModules(modules, n)[a] < FastModules(modules, n)[b]
  {
    if n > 0 {
      FastModulesOnce(modules, n - 1);
      var front := FastModules(modules, n - 1);
      assert forall a :: 0 <= a < |front| ==> front[a] in front;
    }
  }

  // Cut the module list into warps. Every fast module ends up in exactly one lane, and its lane reads and writes the
  // triggers of its own ports.
  method CompileWarps(modules: seq<Module>, ports: seq<Port>, trig: seq<nat>) returns (warps: seq<FastWarp>)
    requires Compilable(modules, ports, trig)
    ensures Evaluated(warps) == FastModules(modules, |modules|)
    ensures forall k :: 0 <= k < |warps| ==> WarpOk(modules, ports, trig, warps[k])
  {
    hide WarpOk, Evaluated, FastModules, Range;
    warps := [];
    var i := 0;
    NothingEvaluated(modules);
    while i < |modules|
      invariant i <= |modules| && Evaluated(warps) == FastModules(modules, i)
      invariant forall k :: 0 <= k < |warps| ==> WarpOk(modules, ports, trig, warps[k])
    {
      if !modules[i].kernel.Fast? {
        NotFastIsSkipped(modules, i);
        i := i + 1;
        continue;
      }
      var warp := NextWarp(modules, ports, trig, i);
      WarpEvaluates(modules, ports, trig, warps, warp);
      warps := warps + [warp];
      i := i + warp.count;
    }
  }

  lemma NothingEvaluated(modules: seq<Module>)
    ensures Evaluated([]) == FastModules(modules, 0)
  {
  }

  lemma NotFastIsSkipped(modules: seq<Module>, i: nat)
    requires !IsFast(modules, i)
    ensures FastModules(modules, i + 1) == FastModules(modules, i)
  {
  }

  lemma WarpEvaluates(modules: seq<Module>, ports: seq<Port>, trig: seq<nat>, warps: seq<FastWarp>, w: FastWarp)
    requires Compilable(modules, ports, trig) && WarpOk(modules, ports, trig, w)
    requires Evaluated(warps) == FastModules(modules, w.modStart)
    ensures w.count > 0 && w.modStart + w.count <= |modules|
    ensures Evaluated(warps + [w]) == FastModules(modules, w.modStart + w.count)
  {
    FastRange(modules, w.modStart, w.count);
    assert (warps + [w])[..|warps|] == warps;
  }

  method NextWarp(modules: seq<Module>, ports: seq<Port>, trig: seq<nat>, start: nat) returns (warp: FastWarp)
    requires Compilable(modules, ports, trig) && IsFast(modules, start)
    ensures warp.modStart == start && WarpOk(modules, ports, trig, warp)
  {
    var op, mask := modules[start].kernel.op, ports[modules[start].outFirst].typ.mask;
    var i, in1, in2, out := start, [], [], [];
    while i < |modules| && modules[i].kernel.Fast? && modules[i].kernel.op == op
      && ports[modules[i].outFirst].typ.mask == mask
      invariant start <= i <= |modules| && |in1| == |in2| == |out| == i - start
      invariant forall k :: start <= k < i ==>
        IsFast(modules, k) && FastLane(op, mask, in1[k - start], in2[k - start], out[k - start])
          == LaneOf(modules, ports, trig, k)
      invariant i > start || (IsFast(modules, i) && modules[i].kernel.op == op
        && ports[modules[i].outFirst].typ.mask == mask)
      decreases |modules| - i
    {
      assert IsFast(modules, i);
      var m := modules[i];
      in1 := in1 + [trig[m.inFirst]];
      in2 := in2 + [if m.inCount > 1 then trig[m.inFirst + 1] else trig[m.inFirst]];
      out := out + [trig[m.outFirst]];
      i := i + 1;
    }
    warp := FastWarp(op, start, i - start, mask, in1, in2, out);
  }

  function AllWarpLanes(warps: seq<FastWarp>): seq<Lane>
    requires forall k :: 0 <= k < |warps| ==> Filled(warps[k])
  {
    if warps == [] then [] else AllWarpLanes(warps[..|warps| - 1]) + WarpLanes(warps[|warps| - 1])
  }

  // Lane for lane, the warps are the fast modules in order.
  lemma {:induction false} LanesAreModules(modules: seq<Module>, ports: seq<Port>, trig: seq<nat>,
                                           warps: seq<FastWarp>, k: nat)
    requires Compilable(modules, ports, trig)
    requires forall j :: 0 <= j < |warps| ==> WarpOk(modules, ports, trig, warps[j]) && Filled(warps[j])
    requires k < |Evaluated(warps)|
    ensures |AllWarpLanes(warps)| == |Evaluated(warps)| && IsFast(modules, Evaluated(warps)[k])
    ensures AllWarpLanes(warps)[k] == LaneOf(modules, ports, trig, Evaluated(warps)[k])
  {
    var front, last := warps[..|warps| - 1], warps[|warps| - 1];
    assert WarpOk(modules, ports, trig, last);
    if front != [] {
      if k < |Evaluated(front)| {
        LanesAreModules(modules, ports, trig, front, k);
      } else {
        assert |Evaluated(front)| > 0 by {
          assert WarpOk(modules, ports, trig, front[|front| - 1]);
        }
        LanesAreModules(modules, ports, trig, front, 0);
      }
    }
  }

  // The part of a warp that one worker evaluates.
  function WorkerLanes(count: nat, worker: nat, workers: nat): (range: (nat, nat))
    ensures range.0 <= range.1 <= count
  {
    if workers == 0 || count == 0 then (0, 0)
    else
      var chunk := (count + workers - 1) / workers;
      var start := Min(worker * chunk, count);
      (start, Min(start + chunk, count))
  }

  lemma ChunksCover(count: nat, workers: nat, chunk: nat)
    requires workers > 0 && chunk == (count + workers - 1) / workers
    ensures workers * chunk >= count
  {
    assert count + workers - 1 == workers * chunk + (count + workers - 1) % workers;
  }

  // The workers' parts are adjacent, start at 0 and end at the last lane: every lane has exactly one worker.
  lemma WorkersPartitionLanes(count: nat, workers: nat, w: nat)
    requires w < workers
    ensures WorkerLanes(count, 0, workers).0 == 0
    ensures w + 1 < workers ==> WorkerLanes(count, w + 1, workers).0 == WorkerLanes(count, w, workers).1
    ensures WorkerLanes(count, workers - 1, workers).1 == count
  {
    if count > 0 {
      var chunk := (count + workers - 1) / workers;
      ChunksCover(count, workers, chunk);
      assert (w + 1) * chunk == w * chunk + chunk;
      assert (workers - 1) * chunk + chunk == workers * chunk;
    }
  }
}
