// Four-state evaluation: when a clear result can be trusted although operands were unknown or inactive.

module RubeUnknown {
  import opened RubeLayout
  import opened RubeLanes

  // x is a value operand a may stand for: its own value if it is clear, anything if it is unknown or inactive.
  predicate StandsFor(a: Operand, x: bv64) {
    a.Unclear() || x == a.val
  }

  // A clear result is what the kernel gives whatever the unclear operands stand for.
  ghost predicate Sound(op: KernelOp, a: Operand, b: Operand, mask: bv64) {
    var r := Eval4State(op, a, b, mask);
    r.Unclear() || forall x, y :: StandsFor(a, x) && StandsFor(b, y) ==> r.val == EvalRaw(op, x, y, mask)
  }

  lemma OneBitTables(x: bv64, y: bv64, mask: bv64)
    requires mask <= 1
    ensures x & 1 == 0 ==> (x & y) & mask == 0 && (y & x) & mask == 0
    ensures x & 1 == 0 ==> !(x & y) & mask == 1 & mask && !(y & x) & mask == 1 & mask
    ensures x & 1 != 0 ==> (x | y) & mask == 1 & mask && (y | x) & mask == 1 & mask
    ensures x & 1 != 0 ==> !(x | y) & mask == 0 && !(y | x) & mask == 0
    ensures (if x == 1 then 0 else if x == 0 then 1 else !x) & mask == !x & mask
  {
  }

  // On one-bit ports four-state evaluation is sound for every operation and all operands.
  lemma OneBitIsSound(op: KernelOp, a: Operand, b: Operand, mask: bv64)
    requires mask <= 1
    ensures Sound(op, a, b, mask)
  {
    forall x, y | StandsFor(a, x) && StandsFor(b, y)
      ensures Eval4State(op, a, b, mask).Unclear() || Eval4State(op, a, b, mask).val == EvalRaw(op, x, y, mask)
    {
      OneBitTables(x, y, mask);
      OneBitTables(y, x, mask);
    }
  }

  predicate Vanishes(v: bv64, mask: bv64) {
    v & mask == 0
  }

  // When a result computed from an unclear operand can be trusted, whatever the mask. A deciding operand is judged by
  // its bit 0 alone, and the inverse of a clear 0 or 1 is taken to be one bit wide.
  predicate Trusted(op: KernelOp, a: Operand, b: Operand, mask: bv64) {
    match op
    case And => (a.IsFalse() ==> Vanishes(a.val, mask)) && (b.IsFalse() ==> Vanishes(b.val, mask))
    case Nor => (a.IsTrue() ==> Vanishes(!a.val, mask)) && (b.IsTrue() ==> Vanishes(!b.val, mask))
    case Nand => a.IsFalse() || b.IsFalse() ==> mask <= 1
    case Or => a.IsTrue() || b.IsTrue() ==> mask <= 1
    case Not => a.Unclear() || a.val > 1 || mask <= 1
    case _ => true
  }

  const FIRST: Operand := Operand(2, false, false)
  const UNKNOWN: Operand := Operand(0, true, false)

  // On wider ports it is not sound: 2 and an unknown value give a clear 0, although the unknown value may be 2 as well.
  lemma WideAndIsNotSound()
    ensures !Sound(And, FIRST, UNKNOWN, 3) && !Sound(And, UNKNOWN, FIRST, 3)
  {
    TrustIsExact(And, FIRST, UNKNOWN, 3);
    TrustIsExact(And, UNKNOWN, FIRST, 3);
    assert FIRST.val & 3 == 2;
  }

  // And the inverse of a clear 0 beside an unknown second input is a clear 1, where the kernel gives the whole mask.
  lemma WideNotIsNotSound(mask: bv64)
    requires mask > 1
    ensures !Sound(Not, Operand(0, false, false), UNKNOWN, mask)
  {
    TrustIsExact(Not, Operand(0, false, false), UNKNOWN, mask);
  }

  lemma SoundAt(op: KernelOp, a: Operand, b: Operand, mask: bv64, x: bv64, y: bv64)
    requires Sound(op, a, b, mask) && !Eval4State(op, a, b, mask).Unclear() && StandsFor(a, x) && StandsFor(b, y)
    ensures Eval4State(op, a, b, mask).val == EvalRaw(op, x, y, mask)
  {
    hide Eval4State, EvalRaw;
  }

  lemma AlwaysIsSound(op: KernelOp, a: Operand, b: Operand, mask: bv64)
    requires forall x, y :: StandsFor(a, x) && StandsFor(b, y) ==>
      EvalRaw(op, x, y, mask) == Eval4State(op, a, b, mask).val
    ensures Sound(op, a, b, mask)
  {
    hide Eval4State, EvalRaw;
  }

  lemma RawAnd(x: bv64, y: bv64, mask: bv64)
    ensures EvalRaw(And, x, y, mask) == (x & y) & mask
  {
  }

  lemma RawNand(x: bv64, y: bv64, mask: bv64)
    ensures EvalRaw(Nand, x, y, mask) == !(x & y) & mask
  {
  }

  lemma RawOr(x: bv64, y: bv64, mask: bv64)
    ensures EvalRaw(Or, x, y, mask) == (x | y) & mask
  {
  }

  lemma RawNor(x: bv64, y: bv64, mask: bv64)
    ensures EvalRaw(Nor, x, y, mask) == !(x | y) & mask
  {
  }

  lemma NothingLeft(v: bv64, y: bv64, mask: bv64)
    ensures v & mask == 0 ==> (v & y) & mask == 0
    ensures !v & mask == 0 ==> !(v | y) & mask == 0
  {
  }

  lemma OneBitMask(mask: bv64)
    ensures mask == 1 & mask <==> mask <= 1
  {
  }

  // A second operand that leaves the first one alone, or overrules it.
  function Extreme(op: KernelOp): bv64 {
    if op == And || op == Or then 0xFFFF_FFFF_FFFF_FFFF else 0
  }

  lemma AndAtExtreme(v: bv64, mask: bv64)
    ensures EvalRaw(And, v, Extreme(And), mask) == 0 <==> Vanishes(v, mask)
  {
    hide EvalRaw;
    RawAnd(v, Extreme(And), mask);
  }

  lemma NandAtExtreme(v: bv64, mask: bv64)
    ensures EvalRaw(Nand, v, Extreme(Nand), mask) == mask
  {
    hide EvalRaw;
    RawNand(v, Extreme(Nand), mask);
  }

  lemma OrAtExtreme(v: bv64, mask: bv64)
    ensures EvalRaw(Or, v, Extreme(Or), mask) == mask
  {
    hide EvalRaw;
    RawOr(v, Extreme(Or), mask);
  }

  lemma NorAtExtreme(v: bv64, mask: bv64)
    ensures EvalRaw(Nor, v, Extreme(Nor), mask) == 0 <==> Vanishes(!v, mask)
  {
    hide EvalRaw;
    RawNor(v, Extreme(Nor), mask);
  }

  lemma RawVanishes(v: bv64, y: bv64, mask: bv64)
    ensures Vanishes(v, mask) ==> EvalRaw(And, v, y, mask) == 0
    ensures Vanishes(!v, mask) ==> EvalRaw(Nor, v, y, mask) == 0
  {
    hide EvalRaw;
    NothingLeft(v, y, mask);
    RawAnd(v, y, mask);
    RawNor(v, y, mask);
  }

  predicate Decides(op: KernelOp, a: Operand) {
    if op == And || op == Nand then a.IsFalse() else (op == Or || op == Nor) && a.IsTrue()
  }

  // What a deciding operand must be under the mask for its result to be trusted.
  predicate DecidesFully(op: KernelOp, a: Operand, mask: bv64) {
    if op == And then Vanishes(a.val, mask) else if op == Nor then Vanishes(!a.val, mask) else mask <= 1
  }

  // What a deciding operand makes of the result, and what the kernel makes of it at the extreme.
  lemma AndDecided(a: Operand, b: Operand, mask: bv64)
    requires Decides(And, a)
    ensures Eval4State(And, a, b, mask) == Operand(0, false, false)
  {
    hide EvalRaw;
  }

  lemma NandDecided(a: Operand, b: Operand, mask: bv64)
    requires Decides(Nand, a)
    ensures Eval4State(Nand, a, b, mask) == Operand(1 & mask, false, false)
  {
    hide EvalRaw;
  }

  lemma OrDecided(a: Operand, b: Operand, mask: bv64)
    requires Decides(Or, a)
    ensures Eval4State(Or, a, b, mask) == Operand(1 & mask, false, false)
  {
    hide EvalRaw;
  }

  lemma NorDecided(a: Operand, b: Operand, mask: bv64)
    requires Decides(Nor, a)
    ensures Eval4State(Nor, a, b, mask) == Operand(0, false, false)
  {
    hide EvalRaw;
  }

  lemma AndAgrees(a: Operand, b: Operand, mask: bv64)
    requires Decides(And, a)
    ensures EvalRaw(And, a.val, Extreme(And), mask) == Eval4State(And, a, b, mask).val <==> DecidesFully(And, a, mask)
  {
    hide EvalRaw, Eval4State, Extreme, Vanishes, Operand.IsFalse, Operand.IsTrue;
    AndDecided(a, b, mask);
    AndAtExtreme(a.val, mask);
  }

  lemma NandAgrees(a: Operand, b: Operand, mask: bv64)
    requires Decides(Nand, a)
    ensures EvalRaw(Nand, a.val, Extreme(Nand), mask) == Eval4State(Nand, a, b, mask).val <==>
      DecidesFully(Nand, a, mask)
  {
    hide EvalRaw, Eval4State, Extreme, Vanishes, Operand.IsFalse, Operand.IsTrue;
    NandDecided(a, b, mask);
    NandAtExtreme(a.val, mask);
    OneBitMask(mask);
  }

  lemma OrAgrees(a: Operand, b: Operand, mask: bv64)
    requires Decides(Or, a)
    ensures EvalRaw(Or, a.val, Extreme(Or), mask) == Eval4State(Or, a, b, mask).val <==> DecidesFully(Or, a, mask)
  {
    hide EvalRaw, Eval4State, Extreme, Vanishes, Operand.IsFalse, Operand.IsTrue;
    OrDecided(a, b, mask);
    OrAtExtreme(a.val, mask);
    OneBitMask(mask);
  }

  lemma NorAgrees(a: Operand, b: Operand, mask: bv64)
    requires Decides(Nor, a)
    ensures EvalRaw(Nor, a.val, Extreme(Nor), mask) == Eval4State(Nor, a, b, mask).val <==> DecidesFully(Nor, a, mask)
  {
    hide EvalRaw, Eval4State, Extreme, Vanishes, Operand.IsFalse, Operand.IsTrue;
    NorDecided(a, b, mask);
    NorAtExtreme(a.val, mask);
  }

  lemma ExtremeAgrees(op: KernelOp, a: Operand, b: Operand, mask: bv64)
    requires Decides(op, a)
    ensures EvalRaw(op, a.val, Extreme(op), mask) == Eval4State(op, a, b, mask).val <==> DecidesFully(op, a, mask)
  {
    hide EvalRaw, Eval4State, Extreme, DecidesFully, Operand.IsTrue, Operand.IsFalse;
    if op == And {
      AndAgrees(a, b, mask);
    } else if op == Nand {
      NandAgrees(a, b, mask);
    } else if op == Or {
      OrAgrees(a, b, mask);
    } else {
      NorAgrees(a, b, mask);
    }
  }

  lemma IsDecided(op: KernelOp, a: Operand, b: Operand, mask: bv64)
    requires Decides(op, a)
    ensures !Eval4State(op, a, b, mask).Unclear() && (op == And || op == Nor ==> Eval4State(op, a, b, mask).val == 0)
  {
    hide EvalRaw;
  }

  // The first operand decides against an unclear second one.
  lemma FirstDecides(op: KernelOp, a: Operand, b: Operand, mask: bv64)
    requires b.Unclear() && Decides(op, a)
    ensures Sound(op, a, b, mask) <==> DecidesFully(op, a, mask)
  {
    hide Sound, EvalRaw, Eval4State, Extreme, Vanishes;
    ExtremeAgrees(op, a, b, mask);
    IsDecided(op, a, b, mask);
    if Sound(op, a, b, mask) {
      SoundAt(op, a, b, mask, a.val, Extreme(op));
    }
    if DecidesFully(op, a, mask) {
      if op == Nand || op == Or {
        OneBitIsSound(op, a, b, mask);
      } else {
        forall x, y | StandsFor(a, x) && StandsFor(b, y)
          ensures EvalRaw(op, x, y, mask) == 0
        {
          RawVanishes(x, y, mask);
        }
        AlwaysIsSound(op, a, b, mask);
      }
    }
  }

  predicate Symmetric(op: KernelOp) {
    op == And || op == Nand || op == Or || op == Nor
  }

  lemma RawSwaps(op: KernelOp, x: bv64, y: bv64, mask: bv64)
    requires Symmetric(op)
    ensures EvalRaw(op, x, y, mask) == EvalRaw(op, y, x, mask)
  {
    hide EvalRaw;
    if op == And {
      RawAnd(x, y, mask);
      RawAnd(y, x, mask);
    } else if op == Nand {
      RawNand(x, y, mask);
      RawNand(y, x, mask);
    } else if op == Or {
      RawOr(x, y, mask);
      RawOr(y, x, mask);
    } else {
      RawNor(x, y, mask);
      RawNor(y, x, mask);
    }
  }

  lemma FourStateSwaps(op: KernelOp, a: Operand, b: Operand, mask: bv64)
    requires Symmetric(op)
    ensures Eval4State(op, a, b, mask) == Eval4State(op, b, a, mask)
  {
    RawSwaps(op, a.val, b.val, mask);
  }

  lemma SoundSwaps(op: KernelOp, a: Operand, b: Operand, mask: bv64)
    requires Symmetric(op) && Sound(op, a, b, mask)
    ensures Sound(op, b, a, mask)
  {
    hide Eval4State, EvalRaw;
    FourStateSwaps(op, a, b, mask);
    forall x, y | StandsFor(b, x) && StandsFor(a, y)
      ensures EvalRaw(op, x, y, mask) == EvalRaw(op, y, x, mask)
    {
      RawSwaps(op, x, y, mask);
    }
  }

  lemma UnclearIsSound(op: KernelOp, a: Operand, b: Operand, mask: bv64)
    requires Eval4State(op, a, b, mask).Unclear()
    ensures Sound(op, a, b, mask)
  {
    hide Eval4State, EvalRaw;
  }

  // The inverse in the kernel, before the mask.
  function InverseRaw(v: bv64): bv64 {
    !v
  }

  function Masked(v: bv64, mask: bv64): bv64 {
    v & mask
  }

  lemma NotGives(a: Operand, b: Operand, mask: bv64)
    requires !a.Unclear()
    ensures Eval4State(Not, a, b, mask) == Operand(Masked(Inverse4(a.val), mask), false, false)
  {
    hide EvalRaw, Inverse4, Operand.IsFalse, Operand.IsTrue;
  }

  lemma RawNot(x: bv64, y: bv64, mask: bv64)
    ensures EvalRaw(Not, x, y, mask) == Masked(InverseRaw(x), mask)
  {
  }

  lemma InverseOfOne(mask: bv64)
    ensures Masked(Inverse4(1), mask) == Masked(InverseRaw(1), mask) <==> mask <= 1
  {
  }

  lemma InverseOfZero(mask: bv64)
    ensures Masked(Inverse4(0), mask) == Masked(InverseRaw(0), mask) <==> mask <= 1
  {
  }

  lemma InverseOfMore(v: bv64)
    requires v != 0 && v != 1
    ensures Inverse4(v) == InverseRaw(v) && v > 1
  {
  }

  lemma InversesAgree(v: bv64, mask: bv64)
    ensures Masked(Inverse4(v), mask) == Masked(InverseRaw(v), mask) <==> v > 1 || mask <= 1
  {
    hide Masked, Inverse4, InverseRaw;
    if v == 0 {
      InverseOfZero(mask);
    } else if v == 1 {
      InverseOfOne(mask);
    } else {
      InverseOfMore(v);
    }
  }

  lemma NotIsTrusted(a: Operand, b: Operand, mask: bv64)
    requires !a.Unclear()
    ensures Sound(Not, a, b, mask) <==> Trusted(Not, a, b, mask)
  {
    hide Sound, EvalRaw, Eval4State, Inverse4, InverseRaw, Masked;
    NotGives(a, b, mask);
    InversesAgree(a.val, mask);
    forall x, y | StandsFor(a, x) && StandsFor(b, y)
      ensures EvalRaw(Not, x, y, mask) == Masked(InverseRaw(a.val), mask)
    {
      RawNot(x, y, mask);
    }
    if Sound(Not, a, b, mask) {
      SoundAt(Not, a, b, mask, a.val, b.val);
    }
    if Trusted(Not, a, b, mask) {
      AlwaysIsSound(Not, a, b, mask);
    }
  }

  // For every operation, all operands of which one is unclear and every mask, a result can be trusted exactly when the
  // simple test says so.
  lemma TrustIsExact(op: KernelOp, a: Operand, b: Operand, mask: bv64)
    requires a.Unclear() || b.Unclear()
    ensures Sound(op, a, b, mask) <==> Trusted(op, a, b, mask)
  {
    hide Sound, EvalRaw, Vanishes;
    if Eval4State(op, a, b, mask).Unclear() {
      UnclearIsSound(op, a, b, mask);
    } else if op == Not {
      NotIsTrusted(a, b, mask);
    } else {
      hide Eval4State;
      if b.Unclear() {
        FirstDecides(op, a, b, mask);
      } else {
        FirstDecides(op, b, a, mask);
        if Sound(op, a, b, mask) {
          SoundSwaps(op, a, b, mask);
        }
        if Sound(op, b, a, mask) {
          SoundSwaps(op, b, a, mask);
        }
      }
    }
  }

  // A one-bit operand, and the bits it may stand for.
  predicate OneBit(a: Operand) {
    a.Unclear() || a.val <= 1
  }

  predicate Bits(a: Operand, x: bv64) {
    x <= 1 && StandsFor(a, x)
  }

  // Two pairs of bits the operands may stand for give different results.
  predicate Differ(op: KernelOp, a: Operand, b: Operand, x: bv64, y: bv64, u: bv64, v: bv64) {
    Bits(a, x) && Bits(b, y) && Bits(a, u) && Bits(b, v) && EvalRaw(op, x, y, 1) != EvalRaw(op, u, v, 1)
  }

  ghost predicate LeftOpen(op: KernelOp, a: Operand, b: Operand) {
    exists x, y, u, v :: Differ(op, a, b, x, y, u, v)
  }

  predicate IsClear(a: Operand, val: bv64) {
    !a.Unclear() && a.val == val
  }

  // A bit that lets the other operand show through.
  function Neutral(op: KernelOp): bv64 {
    if op == And || op == Nand then 1 else 0
  }

  lemma BitTable(op: KernelOp, x: bv64, y: bv64)
    requires x <= 1 && y <= 1
    ensures EvalRaw(op, x, y, 1) ==
            match op
            case And => x & y
            case Nand => 1 - x & y
            case Or => x | y
            case Nor => 1 - (x | y)
            case Not => 1 - x
            case Xnor => 1 - (x ^ y)
            case Shl => if y == 0 then x else 0
            case Shr => if y == 0 then x else 0
            case _ => x ^ y
  {
  }

  // Four-state evaluation of bits never gives up needlessly: an unclear result is one that the operands really leave
  // open, except that a shift of a clear 0, or a shift by a clear 1, is always 0 and yet reported unclear.
  lemma UnclearIsOpen(op: KernelOp, a: Operand, b: Operand)
    requires OneBit(a) && OneBit(b) && Eval4State(op, a, b, 1).Unclear()
    ensures LeftOpen(op, a, b) <==> !((op == Shl || op == Shr) && (IsClear(a, 0) || IsClear(b, 1)))
  {
    hide EvalRaw;
    var x, y := if a.Unclear() then Neutral(op) else a.val, if b.Unclear() then Neutral(op) else b.val;
    BitTable(op, 0, y);
    BitTable(op, 1, y);
    BitTable(op, x, 0);
    BitTable(op, x, 1);
    if (op == Shl || op == Shr) && (IsClear(a, 0) || IsClear(b, 1)) {
      forall u, v | Bits(a, u) && Bits(b, v)
        ensures EvalRaw(op, u, v, 1) == 0
      {
        BitTable(op, u, v);
      }
    } else if (op == Shl || op == Shr) && a.Unclear() && b.Unclear() {
      assert Differ(op, a, b, 0, 0, 1, 0);
    } else if a.Unclear() {
      assert Differ(op, a, b, 0, y, 1, y);
    } else {
      assert Differ(op, a, b, x, 0, x, 1);
    }
  }
}
