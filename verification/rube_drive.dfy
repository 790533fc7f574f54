// What a drive shows on the output of a gate when its inputs are unknown or inactive.

module RubeDrive {
  import opened RubeLayout
  import opened RubeLanes
  import opened RubeSim
  import opened RubeRipple
  import opened RubeUnknown

  // Trigger t is unknown, or inactive, in the current cycle.
  predicate ShowsUnknown(w: Wad, t: nat) {
    t < |w.flags| && w.flags[t] & 0x04 != 0
  }

  predicate ShowsInactive(w: Wad, t: nat) {
    t < |w.flags| && w.flags[t] & 0x08 != 0
  }

  // x is a value trigger t may stand for: what it shows if it is clear, anything if it is unknown or inactive.
  predicate MayBe(w: Wad, t: nat, x: bv64) {
    ShowsUnknown(w, t) || ShowsInactive(w, t) || x == CurrentAt(w, t)
  }

  // Lane k alone writes its output.
  predicate WritesAlone(w: Wad, lanes: seq<Lane>, k: nat) {
    && k < |lanes| && lanes[k].FastLane? && lanes[k].out < |w.curr|
    && forall j :: 0 <= j < |lanes| && j != k ==> lanes[k].out !in OutsOf(lanes[j])
  }

  lemma SetBits(f: bv8, x: bool, i: bool)
    ensures var g := Advanced((f & !FUTR_MASK) | FutureBits(x, i)); (g & 0x04 != 0 <==> x) && (g & 0x08 != 0 <==> i)
  {
  }

  lemma ReadBits(f: bv8, g: bv8)
    ensures f & CURR_MASK == 0 <==> f & 0x04 == 0 && f & 0x08 == 0
    ensures (f | g) & CURR_MASK == 0 <==> f & CURR_MASK == 0 && g & CURR_MASK == 0
  {
  }

  lemma LanePuts<S>(f: (S, seq<bv64>) -> Resumed<S>, m: Machine<S>, l: Lane)
    requires l.FastLane?
    ensures EvalLane(f, m, l).w == SetFuture(m.w, FastWrite(m.w, l)) && FastWrite(m.w, l).t == l.out
  {
    hide EvalRaw, Eval4State, SetFuture;
  }

  // What all lanes together leave in the future buffer of that output.
  lemma LanesPut<S>(f: (S, seq<bv64>) -> Resumed<S>, m: Machine<S>, lanes: seq<Lane>, k: nat)
    returns (before: bv8)
    requires WadOk(m.w) && WritesAlone(m.w, lanes, k)
    ensures var w, t, a := EvalLanes(f, m, lanes).w, lanes[k].out, FastWrite(m.w, lanes[k]);
            t < |w.futr| && t < |w.flags| && w.futr[t] == a.val
            && w.flags[t] == (before & !FUTR_MASK) | FutureBits(a.x, a.i)
  {
    hide FastWrite, OutsOf, FutureBits, EvalLane, SetFuture;
    var l, first, after := lanes[k], lanes[..k], lanes[k + 1..];
    assert lanes == (first + [l]) + after;
    var m1 := EvalLanes(f, m, first);
    LanesKeep(f, m, first);
    EvalConcat(f, m, first + [l], after);
    assert (first + [l])[..k] == first;
    FastWriteReadsCurrent(m.w, m1.w, l);
    LanePuts(f, m1, l);
    PutsBoth(m1.w, FastWrite(m.w, l));
    before := m1.w.flags[l.out];
    forall j | 0 <= j < |after|
      ensures l.out !in OutsOf(after[j])
    {
      assert after[j] == lanes[k + 1 + j];
    }
    LanesElsewhere(f, EvalLane(f, m1, l), after, l.out);
  }

  // What a drive leaves on the output of a fast lane: the value and the bits the lane wrote.
  lemma DrivenLane<S>(f: (S, seq<bv64>) -> Resumed<S>, m: Machine<S>, lanes: seq<Lane>, k: nat)
    requires WadOk(m.w) && WritesAlone(m.w, lanes, k)
    ensures var d, a := Driven(f, m, lanes).w, FastWrite(m.w, lanes[k]);
            && CurrentAt(d, lanes[k].out) == a.val
            && (ShowsUnknown(d, lanes[k].out) <==> a.x) && (ShowsInactive(d, lanes[k].out) <==> a.i)
  {
    hide FastWrite, OutsOf, FutureBits, AdvanceAll, EvalLanes, ShowsUnknown, ShowsInactive;
    var w, a := EvalLanes(f, m, lanes).w, FastWrite(m.w, lanes[k]);
    var before := LanesPut(f, m, lanes, k);
    ShownNext(w, lanes[k].out, before, a);
  }

  lemma ShownNext(w: Wad, t: nat, before: bv8, a: Write)
    requires t < |w.futr| && t < |w.flags| && w.futr[t] == a.val
    requires w.flags[t] == (before & !FUTR_MASK) | FutureBits(a.x, a.i)
    ensures var d := AdvanceAll(w);
            CurrentAt(d, t) == a.val && (ShowsUnknown(d, t) <==> a.x) && (ShowsInactive(d, t) <==> a.i)
  {
    hide FutureBits, Advanced;
    assert AdvanceAll(w).flags[t] == Advanced(w.flags[t]);
    SetBits(before, a.x, a.i);
  }

  lemma PutsBoth(w: Wad, a: Write)
    requires WadOk(w) && a.t < |w.futr|
    ensures var w' := SetFuture(w, a);
            && |w'.futr| == |w.futr| && |w'.flags| == |w.flags| && w'.futr[a.t] == a.val
            && w'.flags[a.t] == (w.flags[a.t] & !FUTR_MASK) | FutureBits(a.x, a.i)
  {
  }

  lemma PutsElsewhere(w: Wad, a: Write, t: nat)
    requires WadOk(w) && t != a.t && t < |w.futr|
    ensures var w' := SetFuture(w, a);
            |w'.futr| == |w.futr| && |w'.flags| == |w.flags| && w'.futr[t] == w.futr[t] && w'.flags[t] == w.flags[t]
  {
  }

  // What a lane writes is the four-state result of what its inputs may stand for, on the shortcut as well.
  lemma WriteIsFourState(w: Wad, l: Lane)
    requires l.FastLane? && WadOk(w)
    ensures var a, r := FastWrite(w, l), Eval4State(l.op, OperandAt(w, l.in1), OperandAt(w, l.in2), l.mask);
            if OperandAt(w, l.in1).Unclear() || OperandAt(w, l.in2).Unclear() then a == Write(l.out, r.val, r.x, r.i)
            else a == Write(l.out, EvalRaw(l.op, CurrentAt(w, l.in1), CurrentAt(w, l.in2), l.mask), false, false)
  {
    hide EvalRaw, Eval4State;
    ReadBits(FlagsAt(w, l.in1), FlagsAt(w, l.in2));
    ReadBits(FlagsAt(w, l.in2), FlagsAt(w, l.in1));
  }

  lemma MayBeStandsFor(w: Wad, t: nat, x: bv64)
    requires WadOk(w)
    ensures MayBe(w, t, x) <==> StandsFor(OperandAt(w, t), x)
  {
  }

  lemma SoundFor(op: KernelOp, a: Operand, b: Operand, mask: bv64, x: bv64, y: bv64)
    requires mask <= 1 && StandsFor(a, x) && StandsFor(b, y) && !Eval4State(op, a, b, mask).Unclear()
    ensures Eval4State(op, a, b, mask).val == EvalRaw(op, x, y, mask)
  {
    hide EvalRaw, Eval4State;
    OneBitIsSound(op, a, b, mask);
  }

  lemma UnclearIsX(op: KernelOp, a: Operand, b: Operand, mask: bv64)
    ensures var r := Eval4State(op, a, b, mask); !r.i && (r.x ==> r.val == 0)
  {
    hide EvalRaw, Inverse4, Operand.IsTrue, Operand.IsFalse, Operand.Unclear;
    if op == And || op == Nand {
    } else if op == Or || op == Nor {
    } else if op == Not {
    }
  }

  // On one-bit ports, whatever is unknown or inactive: an output that a drive leaves clear shows what the kernel gives
  // for all values its current inputs may stand for. One that it leaves unknown shows 0, and none becomes inactive.
  lemma DriveIsSound<S>(f: (S, seq<bv64>) -> Resumed<S>, m: Machine<S>, lanes: seq<Lane>, k: nat)
    requires WadOk(m.w) && WritesAlone(m.w, lanes, k) && lanes[k].mask <= 1
    ensures var d, l := Driven(f, m, lanes).w, lanes[k];
            && !ShowsInactive(d, l.out)
            && (ShowsUnknown(d, l.out) ==> CurrentAt(d, l.out) == 0)
            && (!ShowsUnknown(d, l.out) ==> RightForAll(m.w, l, CurrentAt(d, l.out)))
  {
    hide EvalRaw, Eval4State, Driven, FastWrite, OperandAt, MayBe, StandsFor, OutsOf;
    var l, d := lanes[k], Driven(f, m, lanes).w;
    var a, b := OperandAt(m.w, l.in1), OperandAt(m.w, l.in2);
    DrivenLane(f, m, lanes, k);
    WriteIsFourState(m.w, l);
    UnclearIsX(l.op, a, b, l.mask);
    if !ShowsUnknown(d, l.out) {
      forall x, y | MayBe(m.w, l.in1, x) && MayBe(m.w, l.in2, y)
        ensures CurrentAt(d, l.out) == EvalRaw(l.op, x, y, l.mask)
      {
        MayBeStandsFor(m.w, l.in1, x);
        MayBeStandsFor(m.w, l.in2, y);
        if a.Unclear() || b.Unclear() {
          SoundFor(l.op, a, b, l.mask, x, y);
        } else {
          ClearStands(m.w, l.in1, x);
          ClearStands(m.w, l.in2, y);
        }
      }
    }
  }

  lemma ClearStands(w: Wad, t: nat, x: bv64)
    requires StandsFor(OperandAt(w, t), x) && !OperandAt(w, t).Unclear()
    ensures x == CurrentAt(w, t)
  {
  }

  // Two pairs of bits the inputs of a lane may stand for give different results.
  predicate Tells(w: Wad, l: Lane, x: bv64, y: bv64, u: bv64, v: bv64)
    requires l.FastLane?
  {
    && MayBe(w, l.in1, x) && MayBe(w, l.in2, y) && MayBe(w, l.in1, u) && MayBe(w, l.in2, v)
    && x <= 1 && y <= 1 && u <= 1 && v <= 1 && EvalRaw(l.op, x, y, 1) != EvalRaw(l.op, u, v, 1)
  }

  ghost predicate InputsLeaveOpen(w: Wad, l: Lane)
    requires l.FastLane?
  {
    exists x, y, u, v :: Tells(w, l, x, y, u, v)
  }

  // Trigger t is clear and shows val.
  predicate Shows(w: Wad, t: nat, val: bv64) {
    !ShowsUnknown(w, t) && !ShowsInactive(w, t) && CurrentAt(w, t) == val
  }

  predicate IsShown(w: Wad, t: nat) {
    !ShowsUnknown(w, t) && !ShowsInactive(w, t)
  }

  predicate ShowsBit(w: Wad, t: nat) {
    ShowsUnknown(w, t) || ShowsInactive(w, t) || CurrentAt(w, t) <= 1
  }

  // A drive leaves the output of a one-bit gate unknown exactly when its inputs leave it open, save for a shift of a
  // clear 0 or by a clear 1, which is 0 but reported unknown if the other input is not clear.
  lemma DriveIsOpen<S>(f: (S, seq<bv64>) -> Resumed<S>, m: Machine<S>, lanes: seq<Lane>, k: nat)
    requires WadOk(m.w) && WritesAlone(m.w, lanes, k) && lanes[k].mask == 1
    requires ShowsBit(m.w, lanes[k].in1) && ShowsBit(m.w, lanes[k].in2)
    ensures var d, l := Driven(f, m, lanes).w, lanes[k];
            if (l.op == Shl || l.op == Shr) && (Shows(m.w, l.in1, 0) || Shows(m.w, l.in2, 1)) then
              && !InputsLeaveOpen(m.w, l)
              && (ShowsUnknown(d, l.out) <==> !IsShown(m.w, l.in1) || !IsShown(m.w, l.in2))
            else ShowsUnknown(d, l.out) <==> InputsLeaveOpen(m.w, l)
  {
    hide EvalRaw, Eval4State, Driven, FastWrite, OutsOf, MayBe, ShowsUnknown, ShowsInactive, LeftOpen;
    var l, d := lanes[k], Driven(f, m, lanes).w;
    DrivenLane(f, m, lanes, k);
    WriteIsFourState(m.w, l);
    DriveIsSound(f, m, lanes, k);
    ReadsSame(m.w, l.in1);
    ReadsSame(m.w, l.in2);
    OpenIsOpen(m.w, l);
    var a, b := OperandAt(m.w, l.in1), OperandAt(m.w, l.in2);
    if ShowsUnknown(d, l.out) {
      UnclearIsOpen(l.op, a, b);
    }
    if (l.op == Shl || l.op == Shr) && (Shows(m.w, l.in1, 0) || Shows(m.w, l.in2, 1)) {
      ShiftIsShut(m.w, l);
      ShiftGivesUp(l.op, a, b);
    }
  }

  lemma ShiftGivesUp(op: KernelOp, a: Operand, b: Operand)
    requires op == Shl || op == Shr
    ensures Eval4State(op, a, b, 1).x <==> a.Unclear() || b.Unclear()
  {
    hide EvalRaw;
  }

  lemma ReadsSame(w: Wad, t: nat)
    requires WadOk(w)
    ensures ShowsBit(w, t) <==> OneBit(OperandAt(w, t))
    ensures forall v :: Shows(w, t, v) <==> IsClear(OperandAt(w, t), v)
    ensures OperandAt(w, t).Unclear() <==> ShowsUnknown(w, t) || ShowsInactive(w, t)
  {
  }

  lemma OpenIsOpen(w: Wad, l: Lane)
    requires WadOk(w) && l.FastLane?
    ensures InputsLeaveOpen(w, l) <==> LeftOpen(l.op, OperandAt(w, l.in1), OperandAt(w, l.in2))
  {
    hide EvalRaw, OperandAt, MayBe, StandsFor;
    var a, b := OperandAt(w, l.in1), OperandAt(w, l.in2);
    forall x
      ensures MayBe(w, l.in1, x) <==> StandsFor(a, x)
      ensures MayBe(w, l.in2, x) <==> StandsFor(b, x)
    {
      MayBeStandsFor(w, l.in1, x);
      MayBeStandsFor(w, l.in2, x);
    }
    if x, y, u, v :| Tells(w, l, x, y, u, v) {
      assert Differ(l.op, a, b, x, y, u, v);
    }
    if x, y, u, v :| Differ(l.op, a, b, x, y, u, v) {
      assert Tells(w, l, x, y, u, v);
    }
  }

  lemma ShiftIsShut(w: Wad, l: Lane)
    requires l.FastLane? && (l.op == Shl || l.op == Shr) && (Shows(w, l.in1, 0) || Shows(w, l.in2, 1))
    ensures !InputsLeaveOpen(w, l)
  {
    hide EvalRaw;
    if x, y, u, v :| Tells(w, l, x, y, u, v) {
      BitTable(l.op, x, y);
      BitTable(l.op, u, v);
    }
  }

  // Whatever the mask: clear inputs give a clear output with the kernel's value, and with an unclear one a clear
  // output is right for all that the inputs may stand for if and only if the simple test on the clear one holds.
  lemma DriveIsTrusted<S>(f: (S, seq<bv64>) -> Resumed<S>, m: Machine<S>, lanes: seq<Lane>, k: nat)
    requires WadOk(m.w) && WritesAlone(m.w, lanes, k)
    ensures var d, l := Driven(f, m, lanes).w, lanes[k];
            if IsShown(m.w, l.in1) && IsShown(m.w, l.in2) then
              Shows(d, l.out, EvalRaw(l.op, CurrentAt(m.w, l.in1), CurrentAt(m.w, l.in2), l.mask))
            else
              ((IsShown(d, l.out) ==> RightForAll(m.w, l, CurrentAt(d, l.out)))
                <==> Trusted(l.op, OperandAt(m.w, l.in1), OperandAt(m.w, l.in2), l.mask))
  {
    hide EvalRaw, Eval4State, Driven, FastWrite, OperandAt, OutsOf, MayBe, ShowsUnknown, ShowsInactive, Trusted;
    hide RightForAll;
    var l, d := lanes[k], Driven(f, m, lanes).w;
    DrivenLane(f, m, lanes, k);
    WriteIsFourState(m.w, l);
    ReadsSame(m.w, l.in1);
    ReadsSame(m.w, l.in2);
    if !(IsShown(m.w, l.in1) && IsShown(m.w, l.in2)) {
      var a, b := OperandAt(m.w, l.in1), OperandAt(m.w, l.in2);
      TrustIsExact(l.op, a, b, l.mask);
      SoundIsRight(m.w, l);
    }
  }

  // val is what the kernel gives for all values the inputs may stand for.
  ghost predicate RightForAll(w: Wad, l: Lane, val: bv64)
    requires l.FastLane?
  {
    forall x, y :: MayBe(w, l.in1, x) && MayBe(w, l.in2, y) ==> val == EvalRaw(l.op, x, y, l.mask)
  }

  lemma SoundIsRight(w: Wad, l: Lane)
    requires l.FastLane? && WadOk(w)
    ensures var a, b := OperandAt(w, l.in1), OperandAt(w, l.in2);
            var r := Eval4State(l.op, a, b, l.mask);
            Sound(l.op, a, b, l.mask) <==> (!r.Unclear() ==> RightForAll(w, l, r.val))
  {
    hide EvalRaw, Eval4State, OperandAt, MayBe, StandsFor;
    forall x
      ensures MayBe(w, l.in1, x) <==> StandsFor(OperandAt(w, l.in1), x)
      ensures MayBe(w, l.in2, x) <==> StandsFor(OperandAt(w, l.in2), x)
    {
      MayBeStandsFor(w, l.in1, x);
      MayBeStandsFor(w, l.in2, x);
    }
  }

  predicate Distinct(ts: seq<nat>) {
    forall i, j :: 0 <= i < j < |ts| ==> ts[i] != ts[j]
  }

  // No other lane resumes the cell of lane k or writes its triggers.
  predicate Alone(lanes: seq<Lane>, k: nat)
    requires k < |lanes|
  {
    forall j :: 0 <= j < |lanes| && j != k ==> Independent(lanes[k], lanes[j])
  }

  // What a trigger will show when nothing is written to it: what its future buffer holds.
  predicate Remains(w: Wad, d: Wad, t: nat)
    requires t < |w.futr| && t < |w.flags|
  {
    && CurrentAt(d, t) == w.futr[t]
    && (ShowsUnknown(d, t) <==> w.flags[t] & 0x10 != 0) && (ShowsInactive(d, t) <==> w.flags[t] & 0x20 != 0)
  }

  // Output i of a coroutine after a drive: the value it yielded, clear, or what was to come if it yielded none for it.
  predicate OutDriven<S>(f: (S, seq<bv64>) -> Resumed<S>, m: Machine<S>, d: Machine<S>, l: Lane, i: nat)
    requires WadOk(m.w) && l.CoroLane? && l.cell < |m.cells| && i < |l.outs| && l.outs[i] < |m.w.curr|
  {
    var r := Resume(f, m, l);
    if !m.cells[l.cell].done && r.yielded.Some? && i < |r.yielded.value| then Shows(d.w, l.outs[i], r.yielded.value[i])
    else Remains(m.w, d.w, l.outs[i])
  }

  // What a drive does to a coroutine: it is resumed once with its current inputs, is done when it yields nothing
  // more, and is never resumed again then.
  ghost predicate CoroDriven<S>(f: (S, seq<bv64>) -> Resumed<S>, m: Machine<S>, d: Machine<S>, l: Lane) {
    && WadOk(m.w) && WadOk(d.w) && |d.w.curr| == |m.w.curr| && l.CoroLane? && l.cell < |m.cells| == |d.cells|
    && (var c, r := m.cells[l.cell], Resume(f, m, l);
        d.cells[l.cell] == if c.done then c else Coro(r.next, r.yielded.None?))
    && (forall i :: 0 <= i < |l.outs| ==> l.outs[i] < |m.w.curr|)
    && forall i :: 0 <= i < |l.outs| ==> OutDriven(f, m, d, l, i)
  }

  // A cell that no lane resumes stays as it is.
  lemma {:induction false} Elsewhere<S>(f: (S, seq<bv64>) -> Resumed<S>, m: Machine<S>, lanes: seq<Lane>, cell: nat)
    requires cell < |m.cells| && forall k :: 0 <= k < |lanes| && lanes[k].CoroLane? ==> lanes[k].cell != cell
    ensures |EvalLanes(f, m, lanes).cells| == |m.cells| && EvalLanes(f, m, lanes).cells[cell] == m.cells[cell]
    ensures SameCurrent(m.w, EvalLanes(f, m, lanes).w)
  {
    hide SetAll, WritesOf, FastWrite, EvalLane, Resume;
    if lanes != [] {
      var m', l := EvalLanes(f, m, lanes[..|lanes| - 1]), lanes[|lanes| - 1];
      Elsewhere(f, m, lanes[..|lanes| - 1], cell);
      LaneIsWrites(f, m', l);
      SetAllKeepsCurrent(m'.w, WritesOf(f, m', l));
    }
  }

  lemma {:induction false} SetAllSizes(w: Wad, writes: seq<Write>)
    requires WadOk(w)
    ensures WadOk(SetAll(w, writes)) && |SetAll(w, writes).futr| == |w.futr|
  {
    if writes != [] {
      SetAllSizes(w, writes[..|writes| - 1]);
    }
  }

  lemma {:induction false} PutsEach(w: Wad, writes: seq<Write>, i: nat) returns (before: bv8)
    requires WadOk(w) && i < |writes| && writes[i].t < |w.futr|
    requires forall j, k :: 0 <= j < k < |writes| ==> writes[j].t != writes[k].t
    ensures var w', a := SetAll(w, writes), writes[i];
            && |w'.futr| == |w.futr| && |w'.flags| == |w.flags| && w'.futr[a.t] == a.val
            && w'.flags[a.t] == (before & !FUTR_MASK) | FutureBits(a.x, a.i)
  {
    hide FutureBits, SetFuture;
    var n := |writes| - 1;
    SetAllSizes(w, writes[..n]);
    if i < n {
      before := PutsEach(w, writes[..n], i);
      PutsElsewhere(SetAll(w, writes[..n]), writes[n], writes[i].t);
    } else {
      before := SetAll(w, writes[..n]).flags[writes[i].t];
      PutsBoth(SetAll(w, writes[..n]), writes[i]);
    }
  }

  lemma KeptNext(w: Wad, t: nat)
    requires t < |w.futr| && t < |w.flags|
    ensures Remains(w, AdvanceAll(w), t)
  {
    KeptBits(w.flags[t]);
    assert AdvanceAll(w).flags[t] == Advanced(w.flags[t]);
  }

  lemma KeptBits(f: bv8)
    ensures (Advanced(f) & 0x04 != 0 <==> f & 0x10 != 0) && (Advanced(f) & 0x08 != 0 <==> f & 0x20 != 0)
  {
  }

  // The lanes before and after one leave its cell and its outputs to it.
  lemma AroundLane<S>(f: (S, seq<bv64>) -> Resumed<S>, m: Machine<S>, lanes: seq<Lane>, k: nat) returns (m1: Machine<S>)
    requires WadOk(m.w) && k < |lanes| && lanes[k].CoroLane? && lanes[k].cell < |m.cells| && Alone(lanes, k)
    ensures SameCurrent(m.w, m1.w) && |m1.cells| == |m.cells| && m1.cells[lanes[k].cell] == m.cells[lanes[k].cell]
    ensures var m2, end := EvalLane(f, m1, lanes[k]), EvalLanes(f, m, lanes);
            && |m2.cells| == |end.cells| == |m.cells| && m2.cells[lanes[k].cell] == end.cells[lanes[k].cell]
            && |m2.w.futr| == |m2.w.flags| == |end.w.futr| == |m.w.futr| && WadOk(end.w)
            && forall t :: t in OutsOf(lanes[k]) && t < |m.w.futr| ==>
                 && m1.w.futr[t] == m.w.futr[t] && m1.w.flags[t] == m.w.flags[t]
                 && end.w.futr[t] == m2.w.futr[t] && end.w.flags[t] == m2.w.flags[t]
  {
    hide SetFuture, FastWrite, OutsOf, Inputs, EvalLane, SetAll, WritesOf, Resume;
    var l, before, after := lanes[k], lanes[..k], lanes[k + 1..];
    assert lanes == (before + [l]) + after;
    m1 := EvalLanes(f, m, before);
    var m2 := EvalLane(f, m1, l);
    forall j | 0 <= j < |before|
      ensures Independent(l, before[j])
    {
      assert before[j] == lanes[j];
    }
    forall j | 0 <= j < |after|
      ensures Independent(l, after[j])
    {
      assert after[j] == lanes[k + 1 + j];
    }
    Elsewhere(f, m, before, l.cell);
    EvalConcat(f, m, before + [l], after);
    assert (before + [l])[..k] == before;
    LaneIsWrites(f, m1, l);
    SetAllKeepsCurrent(m1.w, WritesOf(f, m1, l));
    LaneKeepsCells(f, m1, l);
    Elsewhere(f, m2, after, l.cell);
    forall t | t in OutsOf(l) && t < |m.w.futr|
      ensures m1.w.futr[t] == m.w.futr[t] && m1.w.flags[t] == m.w.flags[t]
      ensures EvalLanes(f, m2, after).w.futr[t] == m2.w.futr[t] && EvalLanes(f, m2, after).w.flags[t] == m2.w.flags[t]
    {
      LanesElsewhere(f, m, before, t);
      LanesElsewhere(f, m2, after, t);
    }
  }

  lemma LaneKeepsCells<S>(f: (S, seq<bv64>) -> Resumed<S>, m: Machine<S>, l: Lane)
    ensures |EvalLane(f, m, l).cells| == |m.cells|
  {
    hide SetAll, FastWrite;
  }

  // What a drive does for one coroutine, if no other lane has its cell or its outputs.
  lemma DrivenCoro<S>(f: (S, seq<bv64>) -> Resumed<S>, m: Machine<S>, lanes: seq<Lane>, k: nat)
    requires WadOk(m.w) && k < |lanes| && lanes[k].CoroLane? && lanes[k].cell < |m.cells| && Alone(lanes, k)
    requires Distinct(lanes[k].outs) && forall i :: 0 <= i < |lanes[k].outs| ==> lanes[k].outs[i] < |m.w.curr|
    ensures CoroDriven(f, m, Driven(f, m, lanes), lanes[k])
  {
    hide Alone, Inputs, OutsOf, OutDriven, AdvanceAll, EvalLanes, SetAll, YieldWrites;
    var l, d := lanes[k], Driven(f, m, lanes);
    var m1 := AroundLane(f, m, lanes, k);
    InputsReadCurrent(m.w, m1.w, l.ins);
    AdvanceSizes(EvalLanes(f, m, lanes).w);
    forall i | 0 <= i < |l.outs|
      ensures OutDriven(f, m, d, l, i)
    {
      OutIsOut(l, i);
      OutIsDriven(f, m, m1, EvalLanes(f, m, lanes), l, i);
    }
  }

  lemma AdvanceSizes(w: Wad)
    requires WadOk(w)
    ensures WadOk(AdvanceAll(w)) && |AdvanceAll(w).curr| == |w.curr|
  {
  }

  lemma OutIsOut(l: Lane, i: nat)
    requires l.CoroLane? && i < |l.outs|
    ensures l.outs[i] in OutsOf(l)
  {
  }

  // What a coroutine's lane does to the triggers: its yield is written, or nothing.
  lemma CoroWrites<S>(f: (S, seq<bv64>) -> Resumed<S>, m: Machine<S>, l: Lane)
    requires l.CoroLane? && l.cell < |m.cells|
    ensures var r := Resume(f, m, l);
            var writes := !m.cells[l.cell].done && r.yielded.Some?;
            EvalLane(f, m, l).w == if writes then SetAll(m.w, YieldWrites(l.outs, r.yielded.value)) else m.w
  {
    hide Inputs, SetAll, YieldWrites;
  }

  // One of its outputs then, between the state before and the end of all lanes.
  predicate Between(w: Wad, w1: Wad, w2: Wad, end: Wad, t: nat) {
    && |w.futr| == |w.flags| == |w1.futr| == |w1.flags| == |w2.futr| == |w2.flags| == |end.futr| == |end.flags|
    && t < |w.futr| && w1.futr[t] == w.futr[t] && w1.flags[t] == w.flags[t]
    && end.futr[t] == w2.futr[t] && end.flags[t] == w2.flags[t]
  }

  lemma OutIsDriven<S>(f: (S, seq<bv64>) -> Resumed<S>, m: Machine<S>, m1: Machine<S>, end: Machine<S>, l: Lane, i: nat)
    requires WadOk(m.w) && WadOk(m1.w) && l.CoroLane? && l.cell < |m.cells| == |m1.cells| && i < |l.outs|
    requires l.outs[i] < |m.w.curr| && Distinct(l.outs) && SameCurrent(m.w, m1.w) && m1.cells[l.cell] == m.cells[l.cell]
    requires Between(m.w, m1.w, EvalLane(f, m1, l).w, end.w, l.outs[i])
    ensures OutDriven(f, m, end.(w := AdvanceAll(end.w)), l, i)
  {
    hide Inputs, AdvanceAll, SetAll, YieldWrites, Remains, EvalLane, SameCurrent, Shows, WadOk;
    var t, r := l.outs[i], Resume(f, m, l);
    InputsReadCurrent(m.w, m1.w, l.ins);
    CoroWrites(f, m1, l);
    if !m.cells[l.cell].done && r.yielded.Some? {
      if i < |r.yielded.value| {
        OutIsWritten(m.w, m1.w, end.w, l.outs, r.yielded.value, i);
      } else {
        OutIsKept(m.w, m1.w, end.w, l.outs, r.yielded.value, i);
      }
    } else {
      RemainsSame(m.w, end.w, t);
    }
  }

  lemma OutIsWritten(w: Wad, w1: Wad, end: Wad, outs: seq<nat>, vals: seq<bv64>, i: nat)
    requires WadOk(w1) && Distinct(outs) && i < |outs| && i < |vals|
    requires Between(w, w1, SetAll(w1, YieldWrites(outs, vals)), end, outs[i])
    ensures Shows(AdvanceAll(end), outs[i], vals[i])
  {
    hide AdvanceAll, SetAll, FutureBits, ShowsUnknown, ShowsInactive;
    var writes := YieldWrites(outs, vals);
    assert writes[i] == Write(outs[i], vals[i], false, false);
    var before := PutsEach(w1, writes, i);
    ShownNext(end, outs[i], before, writes[i]);
  }

  lemma OutIsKept(w: Wad, w1: Wad, end: Wad, outs: seq<nat>, vals: seq<bv64>, i: nat)
    requires Distinct(outs) && |vals| <= i < |outs|
    requires Between(w, w1, SetAll(w1, YieldWrites(outs, vals)), end, outs[i])
    ensures Remains(w, AdvanceAll(end), outs[i])
  {
    hide AdvanceAll, SetAll, Remains;
    SetAllElsewhere(w1, YieldWrites(outs, vals), outs[i]);
    RemainsSame(w, end, outs[i]);
  }

  lemma RemainsSame(w: Wad, end: Wad, t: nat)
    requires t < |w.futr| && t < |w.flags| && t < |end.futr| && t < |end.flags|
    requires end.futr[t] == w.futr[t] && end.flags[t] == w.flags[t]
    ensures Remains(w, AdvanceAll(end), t)
  {
    KeptNext(end, t);
  }
}
