// A ripple-carry adder in a running engine: after 2N + 1 drives its outputs are the sum of its inputs.

module RubeRipple {
  import opened Prelude
  import opened RubeNetlist
  import opened RubeLayout
  import opened RubeLanes
  import opened RubeSim
  import opened RubeBuild
  import opened RubeCompile

  // No trigger is unknown or inactive, now or next.
  predicate Clear(w: Wad) {
    forall t :: 0 <= t < |w.flags| ==> w.flags[t] & (CURR_MASK | FUTR_MASK) == 0
  }

  lemma ClearBits(f: bv8, g: bv8)
    requires f & (CURR_MASK | FUTR_MASK) == 0 && g & (CURR_MASK | FUTR_MASK) == 0
    ensures (f | g) & CURR_MASK == 0 && ((f & !FUTR_MASK) | FutureBits(false, false)) & (CURR_MASK | FUTR_MASK) == 0
    ensures Advanced(f) & (CURR_MASK | FUTR_MASK) == 0
  {
  }

  // On clear operands a fast lane takes the shortcut.
  lemma ClearWrite(w: Wad, l: Lane)
    requires Clear(w) && l.FastLane?
    ensures FastWrite(w, l)
      == Write(l.out, EvalRaw(l.op, CurrentAt(w, l.in1), CurrentAt(w, l.in2), l.mask), false, false)
  {
    hide EvalRaw, Eval4State;
    ClearBits(FlagsAt(w, l.in1), FlagsAt(w, l.in2));
  }

  lemma {:induction false} ClearAll(w: Wad, writes: seq<Write>)
    requires Clear(w) && forall i :: 0 <= i < |writes| ==> !writes[i].x && !writes[i].i
    ensures Clear(SetAll(w, writes))
  {
    hide FutureBits;
    if writes != [] {
      var w' := SetAll(w, writes[..|writes| - 1]);
      ClearAll(w, writes[..|writes| - 1]);
      forall t | 0 <= t < |w'.flags|
        ensures ((w'.flags[t] & !FUTR_MASK) | FutureBits(false, false)) & (CURR_MASK | FUTR_MASK) == 0
      {
        ClearBits(w'.flags[t], w'.flags[t]);
      }
    }
  }

  lemma ClearLane<S>(f: (S, seq<bv64>) -> Resumed<S>, m: Machine<S>, l: Lane)
    requires Clear(m.w)
    ensures Clear(EvalLane(f, m, l).w)
  {
    hide Clear, EvalRaw, FastWrite, SetAll, EvalLane;
    LaneIsWrites(f, m, l);
    if l.FastLane? {
      ClearWrite(m.w, l);
    }
    ClearAll(m.w, WritesOf(f, m, l));
  }

  lemma {:induction false} LanesKeep<S>(f: (S, seq<bv64>) -> Resumed<S>, m: Machine<S>, lanes: seq<Lane>)
    ensures SameCurrent(m.w, EvalLanes(f, m, lanes).w)
    ensures Clear(m.w) ==> Clear(EvalLanes(f, m, lanes).w)
  {
    hide EvalLane, Clear, SetAll;
    if lanes != [] {
      var m' := EvalLanes(f, m, lanes[..|lanes| - 1]);
      LanesKeep(f, m, lanes[..|lanes| - 1]);
      LaneIsWrites(f, m', lanes[|lanes| - 1]);
      SetAllKeepsCurrent(m'.w, WritesOf(f, m', lanes[|lanes| - 1]));
      if Clear(m.w) {
        ClearLane(f, m', lanes[|lanes| - 1]);
      }
    }
  }

  // A trigger with one fast lane gets, in the next cycle, what that lane computes from this one.
  lemma DrivenGate<S>(f: (S, seq<bv64>) -> Resumed<S>, m: Machine<S>, lanes: seq<Lane>, k: nat)
    requires WadOk(m.w) && Clear(m.w) && k < |lanes| && lanes[k].FastLane? && lanes[k].out < |m.w.curr|
    requires forall j :: 0 <= j < |lanes| && j != k ==> lanes[k].out !in OutsOf(lanes[j])
    ensures var l := lanes[k];
            CurrentAt(Driven(f, m, lanes).w, l.out)
              == EvalRaw(l.op, CurrentAt(m.w, l.in1), CurrentAt(m.w, l.in2), l.mask)
  {
    hide FastWrite, EvalRaw, SetFuture, OutsOf, Clear;
    var l, before, after := lanes[k], lanes[..k], lanes[k + 1..];
    assert lanes == (before + [l]) + after;
    var m1 := EvalLanes(f, m, before);
    LanesKeep(f, m, before);
    EvalConcat(f, m, before + [l], after);
    assert (before + [l])[..k] == before;
    var m2 := EvalLane(f, m1, l);
    FastWriteReadsCurrent(m.w, m1.w, l);
    ClearWrite(m.w, l);
    PutsValue(m1.w, FastWrite(m.w, l));
    forall j | 0 <= j < |after|
      ensures l.out !in OutsOf(after[j])
    {
      assert after[j] == lanes[k + 1 + j];
    }
    LanesElsewhere(f, m2, after, l.out);
  }

  lemma PutsValue(w: Wad, a: Write)
    requires a.t < |w.futr| && a.t < |w.flags|
    ensures |SetFuture(w, a).futr| == |w.futr| && SetFuture(w, a).futr[a.t] == a.val
  {
  }

  // A trigger that no lane writes keeps its future value.
  lemma DrivenHeld<S>(f: (S, seq<bv64>) -> Resumed<S>, m: Machine<S>, lanes: seq<Lane>, t: nat)
    requires t < |m.w.futr| && forall k :: 0 <= k < |lanes| ==> t !in OutsOf(lanes[k])
    ensures var w := Driven(f, m, lanes).w; CurrentAt(w, t) == m.w.futr[t] && t < |w.futr| && w.futr[t] == m.w.futr[t]
  {
    LanesElsewhere(f, m, lanes, t);
  }

  lemma DrivenKeeps<S>(f: (S, seq<bv64>) -> Resumed<S>, m: Machine<S>, lanes: seq<Lane>)
    requires WadOk(m.w) && Clear(m.w)
    ensures WadOk(Driven(f, m, lanes).w) && Clear(Driven(f, m, lanes).w) && |Driven(f, m, lanes).w.curr| == |m.w.curr|
  {
    LanesKeep(f, m, lanes);
    var w := EvalLanes(f, m, lanes).w;
    forall t | 0 <= t < |w.flags|
      ensures Advanced(w.flags[t]) & (CURR_MASK | FUTR_MASK) == 0
    {
      ClearBits(w.flags[t], w.flags[t]);
    }
  }

  // A frozen layout with its compiled lanes and the coroutines that resume in them.
  datatype Chip<!S> = Chip(resume: (S, seq<bv64>) -> Resumed<S>, v: View, trig: seq<nat>,
    perm: seq<nat>, lanes: seq<Lane>)

  predicate ChipOk<S>(c: Chip<S>) {
    Frozen(c.v, c.trig, c.perm, c.lanes) && |c.trig| == |c.v.ports| && ViewOk(c.v)
  }

  // No module but the gate itself writes the net of its output.
  predicate GateApart(v: View, g: Gate) {
    ViewOk(v) && g.out.index < |v.ports| && SoleWriter(v, g.out.index)
  }

  predicate HalfApart(v: View, h: Half) {
    GateApart(v, h.xorGate) && GateApart(v, h.andGate)
  }

  predicate FullApart(v: View, f: Full) {
    HalfApart(v, f.ha1) && HalfApart(v, f.ha2) && GateApart(v, f.orGate)
  }

  // Nothing else writes what the gates of the adder write. The rest of the circuit is free.
  predicate AdderApart(v: View, ad: Adder) {
    forall i :: 0 <= i < |ad.bits| ==> FullApart(v, ad.bits[i])
  }

  // A machine with clear triggers, as many as the chip needs.
  predicate Running<S>(c: Chip<S>, m: Machine<S>) {
    WadOk(m.w) && Clear(m.w) && forall p :: 0 <= p < |c.trig| ==> c.trig[p] < |m.w.curr|
  }

  function Next<S>(c: Chip<S>, m: Machine<S>): Machine<S> {
    Driven(c.resume, m, c.lanes)
  }

  function After<S>(c: Chip<S>, m: Machine<S>, n: nat): Machine<S> {
    Repeated(c.resume, m, c.lanes, n)
  }

  function At<S>(c: Chip<S>, m: Machine<S>, p: PortId): bv64 {
    if p.index < |c.trig| then CurrentAt(m.w, c.trig[p.index]) else 0
  }

  lemma {:induction false} StaysRunning<S>(c: Chip<S>, m: Machine<S>, n: nat)
    requires Running(c, m)
    ensures Running(c, After(c, m, n))
  {
    hide Clear, Driven, WadOk;
    if n > 0 {
      StaysRunning(c, m, n - 1);
      DrivenKeeps(c.resume, After(c, m, n - 1), c.lanes);
    }
  }

  lemma JointIsEqual<S>(c: Chip<S>, m: Machine<S>, p: PortId, q: PortId)
    requires ChipOk(c) && Joint(c.v.net, p, q)
    ensures At(c, m, p) == At(c, m, q)
  {
    hide Frozen, LanesOf;
    FrozenShows(c.v, c.trig, c.perm, c.lanes);
  }

  lemma GateStep<S>(c: Chip<S>, m: Machine<S>, g: Gate, op: KernelOp)
    requires ChipOk(c) && Running(c, m) && GateOk(c.v.modules, c.v.ports, g, op) && GateApart(c.v, g)
    ensures At(c, Next(c, m), g.out) == EvalRaw(op, At(c, m, g.in1), At(c, m, g.in2), 1)
  {
    hide Frozen, ViewOk, SoleWriter, EvalRaw, OutsOf, Driven, Clear;
    var k := GateLane(c.v, c.trig, c.perm, c.lanes, g, op);
    DrivenGate(c.resume, m, c.lanes, k);
  }

  lemma HalfStep<S>(c: Chip<S>, m: Machine<S>, h: Half)
    requires ChipOk(c) && Running(c, m) && HalfOk(c.v, h) && HalfApart(c.v, h)
    ensures At(c, Next(c, m), h.sum) == EvalRaw(Xor, At(c, m, h.in1), At(c, m, h.in2), 1)
    ensures At(c, Next(c, m), h.carry) == EvalRaw(And, At(c, m, h.in1), At(c, m, h.in2), 1)
  {
    hide ChipOk, Running, EvalRaw, GateOk, GateApart, Joint, At, Next;
    GateStep(c, m, h.xorGate, Xor);
    GateStep(c, m, h.andGate, And);
    JointIsEqual(c, m, h.in1, h.xorGate.in1);
    JointIsEqual(c, m, h.in2, h.xorGate.in2);
    JointIsEqual(c, m, h.in1, h.andGate.in1);
    JointIsEqual(c, m, h.in2, h.andGate.in2);
    JointIsEqual(c, Next(c, m), h.xorGate.out, h.sum);
    JointIsEqual(c, Next(c, m), h.andGate.out, h.carry);
  }

  function Bit(b: bool): bv64 {
    if b then 1 else 0
  }

  lemma BitOps(x: bool, y: bool)
    ensures EvalRaw(Xor, Bit(x), Bit(y), 1) == Bit(x != y)
    ensures EvalRaw(And, Bit(x), Bit(y), 1) == Bit(x && y)
    ensures EvalRaw(Or, Bit(x), Bit(y), 1) == Bit(x || y)
  {
  }

  function Carries(x: bool, y: bool, z: bool): bool {
    (x && y) || ((x != y) && z)
  }

  function Sums(x: bool, y: bool, z: bool): bool {
    (x != y) != z
  }

  // The inner half adder of a bit settles one drive after its operands.
  lemma FirstHalf<S>(c: Chip<S>, m: Machine<S>, f: Full, x: bool, y: bool)
    requires ChipOk(c) && Running(c, m) && FullOk(c.v, f) && FullApart(c.v, f)
    requires At(c, m, f.in1) == Bit(x) && At(c, m, f.in2) == Bit(y)
    ensures At(c, Next(c, m), f.ha2.in1) == Bit(x != y) && At(c, Next(c, m), f.orGate.in1) == Bit(x && y)
  {
    hide ChipOk, Running, EvalRaw, HalfOk, HalfApart, GateOk, GateApart, Joint, At, Next, Bit;
    HalfStep(c, m, f.ha1);
    JointIsEqual(c, m, f.in1, f.ha1.in1);
    JointIsEqual(c, m, f.in2, f.ha1.in2);
    JointIsEqual(c, Next(c, m), f.ha1.sum, f.ha2.in1);
    JointIsEqual(c, Next(c, m), f.ha1.carry, f.orGate.in1);
    BitOps(x, y);
  }

  lemma SecondHalf<S>(c: Chip<S>, m: Machine<S>, f: Full, x: bool, z: bool)
    requires ChipOk(c) && Running(c, m) && FullOk(c.v, f) && FullApart(c.v, f)
    requires At(c, m, f.ha2.in1) == Bit(x) && At(c, m, f.cIn) == Bit(z)
    ensures At(c, Next(c, m), f.sum) == Bit(x != z) && At(c, Next(c, m), f.orGate.in2) == Bit(x && z)
  {
    hide ChipOk, Running, EvalRaw, HalfOk, HalfApart, GateOk, GateApart, Joint, At, Next, Bit;
    HalfStep(c, m, f.ha2);
    JointIsEqual(c, m, f.cIn, f.ha2.in2);
    JointIsEqual(c, Next(c, m), f.ha2.sum, f.sum);
    JointIsEqual(c, Next(c, m), f.ha2.carry, f.orGate.in2);
    BitOps(x, z);
  }

  lemma CarryOut<S>(c: Chip<S>, m: Machine<S>, f: Full, x: bool, y: bool)
    requires ChipOk(c) && Running(c, m) && FullOk(c.v, f) && FullApart(c.v, f)
    requires At(c, m, f.orGate.in1) == Bit(x)
    requires At(c, m, f.orGate.in2) == Bit(y)
    ensures At(c, Next(c, m), f.carry) == Bit(x || y)
  {
    hide ChipOk, Running, EvalRaw, HalfOk, HalfApart, GateOk, GateApart, Joint, At, Next, Bit;
    GateStep(c, m, f.orGate, Or);
    JointIsEqual(c, Next(c, m), f.orGate.out, f.carry);
    BitOps(x, y);
  }

  // The operands of an adder as numbers of bits, held at its ports throughout a run.
  datatype Operands = Operands(a: seq<bool>, b: seq<bool>, cIn: bool)

  predicate Shows<S>(c: Chip<S>, m: Machine<S>, ad: Adder, o: Operands) {
    && |o.a| == |o.b| == |ad.a| == |ad.b| && At(c, m, ad.cIn) == Bit(o.cIn)
    && forall i :: 0 <= i < |o.a| ==> At(c, m, ad.a[i]) == Bit(o.a[i]) && At(c, m, ad.b[i]) == Bit(o.b[i])
  }

  ghost predicate Held<S>(c: Chip<S>, m: Machine<S>, ad: Adder, o: Operands) {
    forall n: nat :: Shows(c, After(c, m, n), ad, o)
  }

  // The carry into bit i of a sum on paper.
  function CarryBit(o: Operands, i: nat): bool
    requires i <= |o.a| == |o.b|
  {
    if i == 0 then o.cIn else Carries(o.a[i - 1], o.b[i - 1], CarryBit(o, i - 1))
  }

  lemma BitStep<S>(c: Chip<S>, m: Machine<S>, ad: Adder, o: Operands, i: nat)
    requires ChipOk(c) && Running(c, m)
    requires AdderOk(c.v, ad) && AdderApart(c.v, ad) && Shows(c, m, ad, o) && i < |ad.bits|
    ensures At(c, Next(c, m), ad.bits[i].ha2.in1) == Bit(o.a[i] != o.b[i])
    ensures At(c, Next(c, m), ad.bits[i].orGate.in1) == Bit(o.a[i] && o.b[i])
  {
    hide ChipOk, Running, At, Next, Bit, FullOk, FullApart, Joint;
    assert BitOk(c.v, ad.bits[i], ad.a[i], ad.b[i], CarryInto(ad, i), ad.sum[i]);
    JointIsEqual(c, m, ad.a[i], ad.bits[i].in1);
    JointIsEqual(c, m, ad.b[i], ad.bits[i].in2);
    FirstHalf(c, m, ad.bits[i], o.a[i], o.b[i]);
  }

  lemma BitSum<S>(c: Chip<S>, m: Machine<S>, ad: Adder, i: nat, x: bool, z: bool)
    requires ChipOk(c) && Running(c, m) && AdderOk(c.v, ad) && AdderApart(c.v, ad) && i < |ad.bits|
    requires At(c, m, ad.bits[i].ha2.in1) == Bit(x) && At(c, m, CarryInto(ad, i)) == Bit(z)
    ensures At(c, Next(c, m), ad.sum[i]) == Bit(x != z) && At(c, Next(c, m), ad.bits[i].orGate.in2) == Bit(x && z)
  {
    hide ChipOk, Running, At, Next, Bit, FullOk, FullApart, Joint;
    assert BitOk(c.v, ad.bits[i], ad.a[i], ad.b[i], CarryInto(ad, i), ad.sum[i]);
    JointIsEqual(c, m, CarryInto(ad, i), ad.bits[i].cIn);
    SecondHalf(c, m, ad.bits[i], x, z);
    JointIsEqual(c, Next(c, m), ad.bits[i].sum, ad.sum[i]);
  }

  lemma HeldAt<S>(c: Chip<S>, m: Machine<S>, ad: Adder, o: Operands, n: nat)
    requires Running(c, m) && Held(c, m, ad, o)
    ensures Running(c, After(c, m, n)) && Shows(c, After(c, m, n), ad, o)
    ensures n > 0 ==> After(c, m, n) == Next(c, After(c, m, n - 1))
  {
    hide Running, Shows, Driven;
    StaysRunning(c, m, n);
  }

  // The carry into bit i is right from drive 2i + 1 on, whatever the triggers held at the start.
  lemma {:induction false} CarrySettles<S>(c: Chip<S>, m: Machine<S>, ad: Adder, o: Operands, i: nat, n: nat)
    requires ChipOk(c) && Running(c, m)
    requires AdderOk(c.v, ad) && AdderApart(c.v, ad) && Held(c, m, ad, o) && |o.a| == |o.b| == |ad.bits|
    requires i <= |ad.bits|
    requires n >= 2 * i + 1
    ensures At(c, After(c, m, n), CarryInto(ad, i)) == Bit(CarryBit(o, i))
  {
    hide ChipOk, Running, At, Next, Bit, AdderOk, AdderApart, Held, After;
    HeldAt(c, m, ad, o, n);
    if i > 0 {
      CarrySettles(c, m, ad, o, i - 1, n - 2);
      HeldAt(c, m, ad, o, n - 1);
      HeldAt(c, m, ad, o, n - 2);
      HeldAt(c, m, ad, o, n - 3);
      CarryStep(c, After(c, m, n - 3), ad, o, i - 1);
    }
  }

  // Two drives take a bit's right carry in to its right carry out.
  lemma CarryStep<S>(c: Chip<S>, m0: Machine<S>, ad: Adder, o: Operands, k: nat)
    requires ChipOk(c) && AdderOk(c.v, ad) && AdderApart(c.v, ad) && k < |ad.bits| == |o.a| == |o.b|
    requires Running(c, m0) && Shows(c, m0, ad, o)
    requires Running(c, Next(c, m0)) && Shows(c, Next(c, m0), ad, o) && Running(c, Next(c, Next(c, m0)))
    requires At(c, Next(c, m0), CarryInto(ad, k)) == Bit(CarryBit(o, k))
    ensures At(c, Next(c, Next(c, Next(c, m0))), ad.bits[k].carry) == Bit(CarryBit(o, k + 1))
  {
    hide ChipOk, Running, At, Next, Bit, AdderOk, AdderApart, Shows;
    var m1 := Next(c, m0);
    BitStep(c, m0, ad, o, k);
    BitStep(c, m1, ad, o, k);
    BitSum(c, m1, ad, k, o.a[k] != o.b[k], CarryBit(o, k));
    BitIsFull(c, ad, k);
    CarryOut(c, Next(c, m1), ad.bits[k], o.a[k] && o.b[k], (o.a[k] != o.b[k]) && CarryBit(o, k));
  }

  lemma BitIsFull<S>(c: Chip<S>, ad: Adder, i: nat)
    requires AdderOk(c.v, ad) && AdderApart(c.v, ad) && i < |ad.bits|
    ensures FullOk(c.v, ad.bits[i]) && FullApart(c.v, ad.bits[i])
  {
    hide FullOk, FullApart;
    assert BitOk(c.v, ad.bits[i], ad.a[i], ad.b[i], CarryInto(ad, i), ad.sum[i]);
  }

  lemma SumSettles<S>(c: Chip<S>, m: Machine<S>, ad: Adder, o: Operands, i: nat, n: nat)
    requires ChipOk(c) && Running(c, m)
    requires AdderOk(c.v, ad) && AdderApart(c.v, ad) && Held(c, m, ad, o) && |o.a| == |o.b| == |ad.bits|
    requires i < |ad.bits|
    requires n >= 2 * i + 2
    ensures At(c, After(c, m, n), ad.sum[i]) == Bit(Sums(o.a[i], o.b[i], CarryBit(o, i)))
  {
    hide ChipOk, Running, At, Next, Bit, AdderOk, AdderApart, Held, After;
    CarrySettles(c, m, ad, o, i, n - 1);
    HeldAt(c, m, ad, o, n);
    HeldAt(c, m, ad, o, n - 1);
    HeldAt(c, m, ad, o, n - 2);
    BitStep(c, After(c, m, n - 2), ad, o, i);
    BitSum(c, After(c, m, n - 1), ad, i, o.a[i] != o.b[i], CarryBit(o, i));
  }

  function Pow2(n: nat): (p: nat)
    ensures p > 0
  {
    if n == 0 then 1 else 2 * Pow2(n - 1)
  }

  function Weight(b: bool, p: nat): nat {
    if b then p else 0
  }

  function Number(bits: seq<bool>): nat {
    if bits == [] then 0 else Number(bits[..|bits| - 1]) + Weight(bits[|bits| - 1], Pow2(|bits| - 1))
  }

  function SumBits(o: Operands, n: nat): seq<bool>
    requires n <= |o.a| == |o.b|
  {
    seq(n, i requires 0 <= i < n => Sums(o.a[i], o.b[i], CarryBit(o, i)))
  }

  lemma NoBits(o: Operands)
    requires |o.a| == |o.b|
    ensures SumBits(o, 0) == [] && Pow2(0) == 1 && Number([]) == 0 && o.a[..0] == [] && o.b[..0] == []
  {
  }

  lemma PaperColumn(x: bool, y: bool, z: bool, p: nat)
    ensures Weight(Sums(x, y, z), p) + Weight(Carries(x, y, z), 2 * p) == Weight(x, p) + Weight(y, p) + Weight(z, p)
  {
  }

  lemma NumberOneMore(bits: seq<bool>, x: bool)
    ensures Number(bits + [x]) == Number(bits) + Weight(x, Pow2(|bits|))
  {
    hide Weight, Pow2;
    assert (bits + [x])[..|bits|] == bits;
  }

  lemma SumBitsOneMore(o: Operands, n: nat)
    requires 0 < n <= |o.a| == |o.b|
    ensures SumBits(o, n) == SumBits(o, n - 1) + [Sums(o.a[n - 1], o.b[n - 1], CarryBit(o, n - 1))]
  {
  }

  // Adding on paper: the sum bits and the carry out make up the two numbers and the carry in.
  lemma {:induction false} PaperSum(o: Operands, n: nat)
    requires n <= |o.a| == |o.b|
    ensures Number(SumBits(o, n)) + Weight(CarryBit(o, n), Pow2(n))
      == Number(o.a[..n]) + Number(o.b[..n]) + Weight(o.cIn, 1)
  {
    hide Sums, Carries, Weight, Number, SumBits;
    if n == 0 {
      NoBits(o);
    } else {
      var x, y, z := o.a[n - 1], o.b[n - 1], CarryBit(o, n - 1);
      PaperSum(o, n - 1);
      SumBitsOneMore(o, n);
      NumberOneMore(SumBits(o, n - 1), Sums(x, y, z));
      NumberOneMore(o.a[..n - 1], x);
      NumberOneMore(o.b[..n - 1], y);
      assert o.a[..n] == o.a[..n - 1] + [x] && o.b[..n] == o.b[..n - 1] + [y];
      assert |SumBits(o, n - 1)| == n - 1 by {
        SumBitsLength(o, n - 1);
      }
      PaperColumn(x, y, z, Pow2(n - 1));
    }
  }

  lemma SumBitsLength(o: Operands, n: nat)
    requires n <= |o.a| == |o.b|
    ensures |SumBits(o, n)| == n
  {
  }

  // What GetSum reads.
  function SumAt<S>(c: Chip<S>, m: Machine<S>, ad: Adder): seq<bool> {
    seq(|ad.sum|, i requires 0 <= i < |ad.sum| => At(c, m, ad.sum[i]) & 1 != 0)
  }

  function CarryAt<S>(c: Chip<S>, m: Machine<S>, ad: Adder): bool {
    At(c, m, ad.carry) & 1 != 0
  }

  lemma BitReads(b: bool)
    ensures (Bit(b) & 1 != 0) == b
  {
  }

  // The adder adds: for every width, from every internal state with clear flags, with its inputs held, its outputs are
  // right after 2N + 1 drives and stay right.
  lemma AdderAdds<S>(c: Chip<S>, m: Machine<S>, ad: Adder, o: Operands, n: nat)
    requires ChipOk(c) && Running(c, m)
    requires AdderOk(c.v, ad) && AdderApart(c.v, ad) && Held(c, m, ad, o) && |ad.bits| >= 1
    requires n >= 2 * |ad.bits| + 1
    ensures var m' := After(c, m, n);
            Number(SumAt(c, m', ad)) + Weight(CarryAt(c, m', ad), Pow2(|ad.bits|))
              == Number(o.a) + Number(o.b) + Weight(o.cIn, 1)
  {
    hide ChipOk, Running, At, Next, Bit, BitsOk, Number, Pow2;
    var m', width := After(c, m, n), |ad.bits|;
    assert Shows(c, m', ad, o);
    assert |ad.sum| == width by {
      WidthsAgree(c, ad);
    }
    forall i | 0 <= i < width
      ensures SumAt(c, m', ad)[i] == SumBits(o, width)[i]
    {
      SumSettles(c, m, ad, o, i, n);
      BitReads(Sums(o.a[i], o.b[i], CarryBit(o, i)));
    }
    assert SumAt(c, m', ad) == SumBits(o, width);
    CarrySettles(c, m, ad, o, width, n);
    JointIsEqual(c, m', ad.bits[width - 1].carry, ad.carry);
    BitReads(CarryBit(o, width));
    PaperSum(o, width);
    assert o.a[..width] == o.a && o.b[..width] == o.b;
  }

  lemma WidthsAgree<S>(c: Chip<S>, ad: Adder)
    requires AdderOk(c.v, ad)
    ensures |ad.sum| == |ad.a| == |ad.b| == |ad.bits|
  {
  }

  // The next drive leaves every port with the value it shows.
  ghost predicate Steady<S>(c: Chip<S>, m: Machine<S>) {
    forall p :: At(c, Next(c, m), p) == At(c, m, p)
  }

  // What an adder shows is the same before and after a steady drive.
  lemma SteadyReads<S>(c: Chip<S>, m: Machine<S>, ad: Adder, o: Operands)
    requires Steady(c, m)
    ensures Shows(c, Next(c, m), ad, o) <==> Shows(c, m, ad, o)
    ensures SumAt(c, Next(c, m), ad) == SumAt(c, m, ad) && CarryAt(c, Next(c, m), ad) == CarryAt(c, m, ad)
  {
    hide At, Next, Bit;
  }

  lemma SteadyAt<S>(c: Chip<S>, m: Machine<S>, p: PortId)
    requires Steady(c, m)
    ensures At(c, Next(c, m), p) == At(c, m, p)
  {
  }

  lemma ShownCarry<S>(c: Chip<S>, m: Machine<S>, ad: Adder, o: Operands)
    requires Shows(c, m, ad, o)
    ensures At(c, m, CarryInto(ad, 0)) == Bit(CarryBit(o, 0))
  {
    hide At, Bit;
  }

  lemma {:induction false} SteadyCarry<S>(c: Chip<S>, m: Machine<S>, ad: Adder, o: Operands, i: nat)
    requires ChipOk(c) && Running(c, m)
    requires AdderOk(c.v, ad) && AdderApart(c.v, ad) && Shows(c, m, ad, o) && |o.a| == |o.b| == |ad.bits|
    requires Steady(c, m) && i <= |ad.bits|
    ensures At(c, m, CarryInto(ad, i)) == Bit(CarryBit(o, i))
    decreases i
  {
    hide ChipOk, Running, At, Next, Bit, AdderOk, AdderApart, Steady, Shows;
    if i == 0 {
      hide CarryBit;
      ShownCarry(c, m, ad, o);
    } else {
      hide Carries;
      SteadyCarry(c, m, ad, o, i - 1);
      SteadyBit(c, m, ad, o, i - 1);
    }
  }

  // A right carry in means a right carry out.
  lemma SteadyBit<S>(c: Chip<S>, m: Machine<S>, ad: Adder, o: Operands, k: nat)
    requires ChipOk(c) && Running(c, m)
    requires AdderOk(c.v, ad) && AdderApart(c.v, ad) && Shows(c, m, ad, o) && |o.a| == |o.b| == |ad.bits|
    requires Steady(c, m) && k < |ad.bits| && At(c, m, CarryInto(ad, k)) == Bit(CarryBit(o, k))
    ensures At(c, m, ad.bits[k].carry) == Bit(Carries(o.a[k], o.b[k], CarryBit(o, k)))
  {
    hide ChipOk, Running, At, Next, Bit, AdderOk, AdderApart, Steady, Shows, CarryBit, CarryInto;
    var x, y, z := o.a[k], o.b[k], CarryBit(o, k);
    BitStep(c, m, ad, o, k);
    SteadyAt(c, m, ad.bits[k].ha2.in1);
    BitSum(c, m, ad, k, x != y, z);
    BitIsFull(c, ad, k);
    SteadyAt(c, m, ad.bits[k].orGate.in1);
    SteadyAt(c, m, ad.bits[k].orGate.in2);
    SteadyAt(c, m, ad.bits[k].carry);
    CarryOut(c, m, ad.bits[k], x && y, (x != y) && z);
  }

  lemma SteadySum<S>(c: Chip<S>, m: Machine<S>, ad: Adder, o: Operands, i: nat)
    requires ChipOk(c) && Running(c, m)
    requires AdderOk(c.v, ad) && AdderApart(c.v, ad) && Shows(c, m, ad, o) && |o.a| == |o.b| == |ad.bits|
    requires Steady(c, m) && i < |ad.bits| == |ad.sum|
    ensures At(c, m, ad.sum[i]) == Bit(Sums(o.a[i], o.b[i], CarryBit(o, i)))
  {
    hide ChipOk, Running, At, Next, Bit, AdderOk, AdderApart, Shows;
    SteadyCarry(c, m, ad, o, i);
    BitStep(c, m, ad, o, i);
    BitSum(c, m, ad, i, o.a[i] != o.b[i], CarryBit(o, i));
  }

  // At every state whose next drive leaves the ports unchanged, the outputs are the sum of whatever the inputs show.
  lemma SteadyAdderAdds<S>(c: Chip<S>, m: Machine<S>, ad: Adder, o: Operands)
    requires ChipOk(c) && Running(c, m)
    requires AdderOk(c.v, ad) && AdderApart(c.v, ad) && Shows(c, m, ad, o) && |ad.bits| >= 1 && Steady(c, m)
    ensures Number(SumAt(c, m, ad)) + Weight(CarryAt(c, m, ad), Pow2(|ad.bits|))
      == Number(o.a) + Number(o.b) + Weight(o.cIn, 1)
  {
    hide ChipOk, Running, At, Next, Bit, BitsOk, Number, Pow2, Steady;
    var width := |ad.bits|;
    assert |ad.sum| == width by {
      WidthsAgree(c, ad);
    }
    forall i | 0 <= i < width
      ensures SumAt(c, m, ad)[i] == SumBits(o, width)[i]
    {
      SteadySum(c, m, ad, o, i);
      BitReads(Sums(o.a[i], o.b[i], CarryBit(o, i)));
    }
    assert SumAt(c, m, ad) == SumBits(o, width);
    SteadyCarry(c, m, ad, o, width);
    JointIsEqual(c, m, ad.bits[width - 1].carry, ad.carry);
    BitReads(CarryBit(o, width));
    PaperSum(o, width);
    assert o.a[..width] == o.a && o.b[..width] == o.b;
  }

  // A port whose trigger shows b, now and next.
  predicate Primed(trig: seq<nat>, w: Wad, p: PortId, b: bool) {
    && p.index < |trig| && trig[p.index] < |w.curr| && trig[p.index] < |w.futr|
    && w.curr[trig[p.index]] == Bit(b) && w.futr[trig[p.index]] == Bit(b)
  }

  predicate FreeInput(v: View, p: PortId) {
    p.index < |v.ports| && p.index < |v.net.driver| && v.net.driver[p.index] == None && !v.ports[p.index].isOut
  }

  // The inputs of an adder, left to the outside world.
  predicate FreeInputs(v: View, ad: Adder) {
    && |ad.a| == |ad.b| == |ad.bits| && FreeInput(v, ad.cIn)
    && (forall i :: 0 <= i < |ad.a| ==> FreeInput(v, ad.a[i]) && FreeInput(v, ad.b[i]))
    && (forall i, j :: 0 <= i < |ad.a| && 0 <= j < |ad.b| ==> ad.a[i] != ad.b[j])
    && (forall i :: 0 <= i < |ad.a| ==> ad.a[i] != ad.cIn && ad.b[i] != ad.cIn)
    && (forall i, j :: 0 <= i < j < |ad.a| ==> ad.a[i] != ad.a[j] && ad.b[i] != ad.b[j])
  }

  // A new adder has free inputs, and keeps them as long as nothing drives them.
  lemma BuiltAdderIsFree(v: View, ad: Adder, n: nat)
    requires ViewOk(v) && AdderNumbers(ad, n, |ad.bits|) && AdderPorts(v.modules, v.ports, ad)
    requires UndrivenFrom(v.net, n, n + 2 * |ad.bits| + 1)
    ensures FreeInputs(v, ad)
  {
    hide ViewOk;
    PortsHaveRoots(v);
  }

  // Free inputs are on nets of their own.
  lemma FreeTriggersDiffer<S>(c: Chip<S>, p: PortId, q: PortId)
    requires ChipOk(c) && FreeInput(c.v, p) && FreeInput(c.v, q) && p.index != q.index
    ensures c.trig[p.index] != c.trig[q.index]
  {
    hide Covered, LanesOf;
    FrozenShows(c.v, c.trig, c.perm, c.lanes);
    RootsDiffer(c.v, c.trig, p.index, q.index);
  }

  lemma {:induction false} PrimedStays<S>(c: Chip<S>, m: Machine<S>, p: PortId, b: bool, n: nat)
    requires ChipOk(c) && Running(c, m) && FreeInput(c.v, p) && Primed(c.trig, m.w, p, b)
    ensures Primed(c.trig, After(c, m, n).w, p, b)
  {
    hide Frozen, ViewOk, SoleWriter, Clear, Driven, Bit, WadOk, FreeInput;
    if n > 0 {
      var m' := After(c, m, n - 1);
      PrimedStays(c, m, p, b, n - 1);
      StaysRunning(c, m, n - 1);
      FreeIsUnwritten(c, p);
      DrivenHeld(c.resume, m', c.lanes, c.trig[p.index]);
      DrivenKeeps(c.resume, m', c.lanes);
    }
  }

  lemma FreeIsUnwritten<S>(c: Chip<S>, p: PortId)
    requires ChipOk(c) && FreeInput(c.v, p)
    ensures p.index < |c.trig| && forall k :: 0 <= k < |c.lanes| ==> c.trig[p.index] !in OutsOf(c.lanes[k])
  {
    hide Frozen, LanesOf, OutsOf;
    FrozenShows(c.v, c.trig, c.perm, c.lanes);
    assert |c.v.ports| == |c.v.net.driver|;
    forall k | 0 <= k < |c.lanes|
      ensures c.trig[p.index] !in OutsOf(c.lanes[k])
    {
      FreeInputIsUnwritten(c.v, c.trig, c.perm, c.lanes, p.index, k);
    }
  }

  predicate AllPrimed(trig: seq<nat>, w: Wad, row: seq<PortId>, bits: seq<bool>) {
    |row| == |bits| && forall i :: 0 <= i < |row| ==> Primed(trig, w, row[i], bits[i])
  }

  // Operands set once from outside are held for the whole run.
  lemma PrimedIsHeld<S>(c: Chip<S>, m: Machine<S>, ad: Adder, o: Operands)
    requires ChipOk(c) && Running(c, m) && FreeInputs(c.v, ad)
    requires AllPrimed(c.trig, m.w, ad.a, o.a) && AllPrimed(c.trig, m.w, ad.b, o.b)
    requires Primed(c.trig, m.w, ad.cIn, o.cIn)
    ensures Held(c, m, ad, o)
  {
    hide ChipOk, Running, FreeInput, Bit;
    forall n: nat
      ensures Shows(c, After(c, m, n), ad, o)
    {
      PrimedStays(c, m, ad.cIn, o.cIn, n);
      forall i | 0 <= i < |o.a|
        ensures At(c, After(c, m, n), ad.a[i]) == Bit(o.a[i]) && At(c, After(c, m, n), ad.b[i]) == Bit(o.b[i])
      {
        PrimedStays(c, m, ad.a[i], o.a[i], n);
        PrimedStays(c, m, ad.b[i], o.b[i], n);
      }
    }
  }

  // The low bits of a number.
  function BitsOf(val: nat, n: nat): seq<bool> {
    seq(n, i requires 0 <= i < n => val / Pow2(i) % 2 != 0)
  }

  lemma Halving(val: nat, p: nat)
    requires p > 0
    ensures val % (2 * p) == val % p + Weight(val / p % 2 != 0, p)
  {
    var q, r := val / p, val % p;
    assert val == q * p + r;
    assert val == (q / 2) * (2 * p) + ((q % 2) * p + r) by {
      assert q == 2 * (q / 2) + q % 2;
    }
    DivMod(val, 2 * p, q / 2, (q % 2) * p + r);
  }

  lemma DivMod(x: nat, d: nat, q: nat, r: nat)
    requires r < d && x == q * d + r
    ensures x % d == r
  {
    var k := x / d;
    assert x == k * d + x % d;
    if k > q {
      MulGrows(q + 1, k, d);
    } else if k < q {
      MulGrows(k + 1, q, d);
    }
  }

  lemma MulGrows(a: nat, b: nat, d: nat)
    requires a <= b
    ensures a * d <= b * d
  {
  }

  lemma {:induction false} NumberOfBits(val: nat, n: nat)
    ensures Number(BitsOf(val, n)) == val % Pow2(n)
  {
    hide Weight;
    if n > 0 {
      NumberOfBits(val, n - 1);
      Halving(val, Pow2(n - 1));
      assert BitsOf(val, n)[..n - 1] == BitsOf(val, n - 1);
    }
  }

  lemma PokeKeepsClear(w: Wad, t: nat, val: bv64)
    requires Clear(w) && t < |w.curr| && t < |w.futr| && t < |w.flags|
    ensures Clear(Poked(w, t, val, false, false))
  {
  }

  // The engine that runs a chip.
  ghost predicate Runs<S>(engine: SimEngine<S>, c: Chip<S>)
    reads engine, engine.past, engine.curr, engine.futr, engine.flags
  {
    engine.Valid() && engine.resume == c.resume && engine.Lanes() == c.lanes && Running(c, engine.State())
  }

  // Ports other than p keep what they show when p is set.
  lemma PokeKeeps(trig: seq<nat>, w: Wad, p: PortId, b: bool, q: PortId, x: bool)
    requires p.index < |trig| && trig[p.index] < |w.curr| == |w.futr| == |w.flags| && Primed(trig, w, q, x)
    requires trig[q.index] != trig[p.index]
    ensures Primed(trig, Poked(w, trig[p.index], Bit(b), false, false), q, x)
  {
  }

  method SetBool<S>(engine: SimEngine<S>, ghost c: Chip<S>, trig: seq<nat>, p: PortId, b: bool)
    requires ChipOk(c) && trig == c.trig && Runs(engine, c) && FreeInput(c.v, p) && p.index < |trig|
    modifies engine.curr, engine.futr, engine.flags
    ensures Runs(engine, c) && Primed(trig, engine.State().w, p, b)
    ensures forall q, x :: FreeInput(c.v, q) && q.index != p.index && Primed(trig, old(engine.State()).w, q, x) ==>
      Primed(trig, engine.State().w, q, x)
  {
    hide ChipOk, Clear, PokedFlags, FreeInput;
    ghost var w := engine.State().w;
    var t := trig[p.index];
    PokeKeepsClear(w, t, Bit(b));
    engine.SetImmediate(t, if b then 1 else 0, false, false);
    forall q, x | FreeInput(c.v, q) && q.index != p.index && Primed(trig, w, q, x)
      ensures Primed(trig, engine.State().w, q, x)
    {
      FreeTriggersDiffer(c, p, q);
      PokeKeeps(trig, w, p, b, q, x);
    }
  }

  predicate NotIn(row: seq<PortId>, q: PortId) {
    forall i :: 0 <= i < |row| ==> row[i].index != q.index
  }

  // Set a row of ports to the low bits of a number, as SetA and SetB do.
  method SetNumber<S>(engine: SimEngine<S>, ghost c: Chip<S>, trig: seq<nat>, row: seq<PortId>, val: nat)
    requires ChipOk(c) && trig == c.trig && Runs(engine, c)
    requires (forall i :: 0 <= i < |row| ==> FreeInput(c.v, row[i]) && row[i].index < |trig|)
    requires forall i, j :: 0 <= i < j < |row| ==> row[i].index != row[j].index
    modifies engine.curr, engine.futr, engine.flags
    ensures Runs(engine, c) && AllPrimed(trig, engine.State().w, row, BitsOf(val, |row|))
    ensures forall q, x :: FreeInput(c.v, q) && NotIn(row, q) && Primed(trig, old(engine.State()).w, q, x) ==>
      Primed(trig, engine.State().w, q, x)
  {
    hide ChipOk, Runs, FreeInput, Primed;
    ghost var w := engine.State().w;
    for i := 0 to |row|
      invariant Runs(engine, c)
      invariant forall k :: 0 <= k < i ==> Primed(trig, engine.State().w, row[k], BitsOf(val, |row|)[k])
      invariant forall q, x ::
        FreeInput(c.v, q) && NotIn(row, q) && Primed(trig, w, q, x) ==>
        Primed(trig, engine.State().w, q, x)
    {
      SetBool(engine, c, trig, row[i], val / Pow2(i) % 2 != 0);
    }
  }

  // Read the sum ports back as a number.
  method GetSum<S>(engine: SimEngine<S>, ghost c: Chip<S>, trig: seq<nat>, ad: Adder) returns (sum: nat)
    requires trig == c.trig && Runs(engine, c) && forall i :: 0 <= i < |ad.sum| ==> ad.sum[i].index < |trig|
    ensures sum == Number(SumAt(c, engine.State(), ad))
  {
    sum := 0;
    ghost var bits := SumAt(c, engine.State(), ad);
    for i := 0 to |ad.sum|
      invariant sum == Number(bits[..i])
    {
      assert bits[..i + 1][..i] == bits[..i];
      assert c.trig[ad.sum[i].index] < engine.curr.Length;
      if engine.curr[trig[ad.sum[i].index]] & 1 != 0 {
        sum := sum + Pow2(i);
      }
    }
    assert bits[..|ad.sum|] == bits;
  }

  method DriveMany<S>(engine: SimEngine<S>, ghost c: Chip<S>, times: nat)
    requires Runs(engine, c)
    modifies engine, engine.past, engine.curr, engine.futr, engine.flags
    ensures Runs(engine, c) && engine.State() == After(c, old(engine.State()), times)
  {
    hide Running, Driven;
    ghost var m := engine.State();
    for k := 0 to times
      invariant Runs(engine, c) && engine.State() == After(c, m, k)
    {
      StaysRunning(c, m, k + 1);
      var cycles := engine.Drive();
    }
  }

  // SetA, SetB and SetCarryIn.
  method SetOperands<S>(engine: SimEngine<S>, ghost c: Chip<S>, trig: seq<nat>, ad: Adder, a: nat, b: nat, cIn: bool)
    requires ChipOk(c) && trig == c.trig && Runs(engine, c) && FreeInputs(c.v, ad)
    requires AdderPorts(c.v.modules, c.v.ports, ad)
    modifies engine.curr, engine.futr, engine.flags
    ensures Runs(engine, c) && AllPrimed(trig, engine.State().w, ad.a, BitsOf(a, |ad.a|))
    ensures Primed(trig, engine.State().w, ad.cIn, cIn)
    ensures AllPrimed(trig, engine.State().w, ad.b, BitsOf(b, |ad.b|))
  {
    hide ChipOk, Runs, FreeInput, Primed, AdderPorts, BitsOf;
    InputsInRange(c, ad);
    SetNumber(engine, c, trig, ad.a, a);
    SetNumber(engine, c, trig, ad.b, b);
    SetBool(engine, c, trig, ad.cIn, cIn);
  }

  // Set the operands, drive 2N + 1 times, and read the result. Nothing is asked of the values the triggers held before,
  // only that none is unknown or inactive.
  method AddOn<S>(engine: SimEngine<S>, ghost c: Chip<S>, trig: seq<nat>, ad: Adder, a: nat, b: nat, cIn: bool)
    returns (sum: nat, carry: bool)
    requires ChipOk(c) && trig == c.trig && Runs(engine, c)
    requires AdderOk(c.v, ad) && AdderApart(c.v, ad) && FreeInputs(c.v, ad) && |ad.bits| >= 1
    requires AdderPorts(c.v.modules, c.v.ports, ad)
    modifies engine, engine.past, engine.curr, engine.futr, engine.flags
    ensures Runs(engine, c)
    ensures sum + Weight(carry, Pow2(|ad.bits|)) == a % Pow2(|ad.bits|) + b % Pow2(|ad.bits|) + Weight(cIn, 1)
  {
    hide ChipOk, Runs, FreeInputs, AllPrimed, Primed, AdderOk, AdderApart, AdderPorts, Weight, Pow2, Number, BitsOf;
    hide SumAt, Held, After;
    InputsInRange(c, ad);
    WidthsAgree(c, ad);
    SetOperands(engine, c, trig, ad, a, b, cIn);
    ghost var m, o := engine.State(), Operands(BitsOf(a, |ad.a|), BitsOf(b, |ad.b|), cIn);
    RunsShows(engine, c);
    PrimedIsHeld(c, m, ad, o);
    DriveMany(engine, c, 2 * |ad.bits| + 1);
    AdderAdds(c, m, ad, o, 2 * |ad.bits| + 1);
    NumberOfBits(a, |ad.a|);
    NumberOfBits(b, |ad.b|);
    sum := GetSum(engine, c, trig, ad);
    RunsShows(engine, c);
    carry := engine.curr[trig[ad.carry.index]] & 1 != 0;
  }

  lemma RunsShows<S>(engine: SimEngine<S>, c: Chip<S>)
    requires Runs(engine, c)
    ensures Running(c, engine.State()) && forall p :: 0 <= p < |c.trig| ==> c.trig[p] < engine.curr.Length
  {
  }

  lemma InputsInRange<S>(c: Chip<S>, ad: Adder)
    requires ChipOk(c) && FreeInputs(c.v, ad) && AdderPorts(c.v.modules, c.v.ports, ad)
    ensures forall i :: 0 <= i < |ad.a| ==> ad.a[i].index < |c.trig| && ad.b[i].index < |c.trig|
    ensures forall i :: 0 <= i < |ad.sum| ==> ad.sum[i].index < |c.trig|
    ensures ad.cIn.index < |c.trig| && ad.carry.index < |c.trig|
    ensures forall i, j :: 0 <= i < |ad.a| && 0 <= j < |ad.b| ==> ad.a[i].index != ad.b[j].index
    ensures forall i :: 0 <= i < |ad.a| ==> ad.a[i].index != ad.cIn.index && ad.b[i].index != ad.cIn.index
    ensures forall i, j :: 0 <= i < j < |ad.a| ==> ad.a[i].index != ad.a[j].index && ad.b[i].index != ad.b[j].index
  {
    hide Frozen;
  }
}
