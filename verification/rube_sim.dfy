// The simulation engine: lanes evaluated in place, then every trigger advanced.

module RubeSim {
  import opened Prelude
  import opened RubeLanes
  import opened RubeEngine

  predicate FastInRange(l: Lane, n: nat) {
    l.FastLane? && l.in1 < n && l.in2 < n && l.out < n
  }

  predicate CoroInRange(l: Lane, n: nat, cells: nat) {
    && l.CoroLane? && l.cell < cells
    && (forall i :: 0 <= i < |l.ins| ==> l.ins[i] < n) && (forall i :: 0 <= i < |l.outs| ==> l.outs[i] < n)
  }

  function Driven<S>(f: (S, seq<bv64>) -> Resumed<S>, m: Machine<S>, lanes: seq<Lane>): Machine<S> {
    var done := EvalLanes(f, m, lanes);
    done.(w := AdvanceAll(done.w))
  }

  function Repeated<S>(f: (S, seq<bv64>) -> Resumed<S>, m: Machine<S>, lanes: seq<Lane>, n: nat): Machine<S> {
    if n == 0 then m else Driven(f, Repeated(f, m, lanes, n - 1), lanes)
  }

  function PokedFlags(f: bv8, x: bool, i: bool): bv8 {
    (f & !(CURR_MASK | FUTR_MASK)) | (if x then CURR_X | FUTR_X else 0) | (if i then CURR_I | FUTR_I else 0)
  }

  lemma PokedShows(f: bv8, x: bool, i: bool)
    ensures var g := PokedFlags(f, x, i);
            && (g & 0x04 != 0 <==> x) && (g & 0x08 != 0 <==> i) && (g & 0x10 != 0 <==> x) && (g & 0x20 != 0 <==> i)
  {
  }

  function Poked(w: Wad, t: nat, val: bv64, x: bool, i: bool): Wad
    requires t < |w.curr| && t < |w.futr| && t < |w.flags|
  {
    w.(curr := w.curr[t := val], futr := w.futr[t := val], flags := w.flags[t := PokedFlags(w.flags[t], x, i)])
  }

  function Flatten(warps: seq<seq<Lane>>): seq<Lane> {
    if warps == [] then [] else Flatten(warps[..|warps| - 1]) + warps[|warps| - 1]
  }

  class SimEngine<S> {
    const past: array<bv64>
    const curr: array<bv64>
    const futr: array<bv64>
    const flags: array<bv8>
    const fastWarps: seq<FastWarp>
    const coroWarps: seq<seq<Lane>>
    const resume: (S, seq<bv64>) -> Resumed<S>
    var cells: seq<Coro<S>>
    var cycleCount: nat

    ghost predicate Valid()
      reads this
    {
      && past.Length == curr.Length == futr.Length == flags.Length
      && past != curr && past != futr && curr != futr
      && (forall k :: 0 <= k < |fastWarps| ==> Filled(fastWarps[k]))
      && (forall k, l :: 0 <= k < |fastWarps| && 0 <= l < fastWarps[k].count ==>
        FastInRange(WarpLanes(fastWarps[k])[l], past.Length))
      && (forall k, l :: 0 <= k < |coroWarps| && 0 <= l < |coroWarps[k]| ==>
        CoroInRange(coroWarps[k][l], past.Length, |cells|))
    }

    ghost function State(): Machine<S>
      reads this, past, curr, futr, flags
    {
      Machine(Wad(past[..], curr[..], futr[..], flags[..]), cells)
    }

    constructor (count: nat, fast: seq<FastWarp>, coros: seq<seq<Lane>>, f: (S, seq<bv64>) -> Resumed<S>,
                 initial: seq<Coro<S>>)
      requires forall k :: 0 <= k < |fast| ==> Filled(fast[k])
      requires forall k, l :: 0 <= k < |fast| && 0 <= l < fast[k].count ==> FastInRange(WarpLanes(fast[k])[l], count)
      requires forall k, l :: 0 <= k < |coros| && 0 <= l < |coros[k]| ==> CoroInRange(coros[k][l], count, |initial|)
      ensures Valid() && fastWarps == fast && coroWarps == coros && resume == f && cells == initial && cycleCount == 0
      ensures fresh(past) && fresh(curr) && fresh(futr) && fresh(flags) && past.Length == count
      ensures forall t :: 0 <= t < count ==> curr[t] == 0 && futr[t] == 0 && past[t] == 0 && flags[t] == 0
    {
      past, curr, futr := new bv64[count](_ => 0), new bv64[count](_ => 0), new bv64[count](_ => 0);
      flags := new bv8[count](_ => 0);
      fastWarps, coroWarps, resume, cells, cycleCount := fast, coros, f, initial, 0;
    }

    // Setting a port from outside takes effect at once, in both buffers.
    method SetImmediate(t: nat, val: bv64, x: bool, i: bool)
      requires Valid() && t < past.Length
      modifies curr, futr, flags
      ensures State() == old(State()).(w := Poked(old(State()).w, t, val, x, i))
      ensures curr[t] == futr[t] == val
      ensures (flags[t] & 0x04 != 0 <==> x) && (flags[t] & 0x08 != 0 <==> i)
      ensures (flags[t] & 0x10 != 0 <==> x) && (flags[t] & 0x20 != 0 <==> i)
      ensures forall u :: 0 <= u < past.Length && u != t ==>
        curr[u] == old(curr[u]) && futr[u] == old(futr[u]) && flags[u] == old(flags[u])
    {
      PokedShows(flags[t], x, i);
      curr[t] := val;
      futr[t] := val;
      flags[t] := PokedFlags(flags[t], x, i);
    }

    method PutFuture(a: Write)
      requires Valid() && a.t < past.Length
      modifies futr, flags
      ensures State() == old(State()).(w := SetFuture(old(State()).w, a))
    {
      futr[a.t] := a.val;
      flags[a.t] := (flags[a.t] & !FUTR_MASK) | FutureBits(a.x, a.i);
    }

    method EvalFast(l: Lane)
      requires Valid() && FastInRange(l, past.Length)
      modifies futr, flags
      ensures State() == EvalLane(resume, old(State()), l)
    {
      hide EvalRaw, Eval4State, SetFuture;
      var f1, f2 := flags[l.in1], flags[l.in2];
      var a: Write;
      if (f1 | f2) & CURR_MASK == 0 {
        a := Write(l.out, EvalRaw(l.op, curr[l.in1], curr[l.in2], l.mask), false, false);
      } else {
        var x := Operand(curr[l.in1], f1 & CURR_X != 0, f1 & CURR_I != 0);
        var y := Operand(curr[l.in2], f2 & CURR_X != 0, f2 & CURR_I != 0);
        var r := Eval4State(l.op, x, y, l.mask);
        a := Write(l.out, r.val, r.x, r.i);
      }
      assert a == FastWrite(State().w, l);
      PutFuture(a);
    }

    method EvalWarpLanes(warp: FastWarp, start: nat, end: nat)
      requires Valid() && Filled(warp) && start <= end <= warp.count
      requires forall l :: 0 <= l < warp.count ==> FastInRange(WarpLanes(warp)[l], past.Length)
      modifies futr, flags
      ensures State() == EvalLanes(resume, old(State()), WarpLanes(warp)[start..end])
    {
      hide EvalLane, FastInRange;
      var l := start;
      while l < end
        invariant start <= l <= end && State() == EvalLanes(resume, old(State()), WarpLanes(warp)[start..l])
      {
        ghost var before := State();
        assert WarpLanes(warp)[l] == FastLane(warp.op, warp.mask, warp.in1[l], warp.in2[l], warp.out[l]);
        EvalFast(FastLane(warp.op, warp.mask, warp.in1[l], warp.in2[l], warp.out[l]));
        assert WarpLanes(warp)[start..l + 1][..l - start] == WarpLanes(warp)[start..l];
        l := l + 1;
      }
    }

    method GatherInputs(ins: seq<nat>) returns (vals: seq<bv64>)
      requires Valid() && forall i :: 0 <= i < |ins| ==> ins[i] < past.Length
      ensures vals == Inputs(State().w, ins)
    {
      vals := [];
      for k := 0 to Min(|ins|, CORO_MAX_PORTS)
        invariant |vals| == k && forall i :: 0 <= i < k ==> vals[i] == Inputs(State().w, ins)[i]
      {
        vals := vals + [curr[ins[k]]];
      }
    }

    method PutYield(outs: seq<nat>, vals: seq<bv64>)
      requires Valid() && forall i :: 0 <= i < |outs| ==> outs[i] < past.Length
      modifies futr, flags
      ensures State() == old(State()).(w := SetAll(old(State()).w, YieldWrites(outs, vals)))
    {
      hide SetFuture;
      ghost var writes := YieldWrites(outs, vals);
      for k := 0 to Min(|outs|, |vals|)
        invariant State() == old(State()).(w := SetAll(old(State()).w, writes[..k]))
      {
        PutFuture(Write(outs[k], vals[k], false, false));
        assert writes[..k + 1][..k] == writes[..k];
      }
      assert writes[..|writes|] == writes;
    }

    method EvalCoroInstance(l: Lane)
      requires Valid() && CoroInRange(l, past.Length, |cells|)
      modifies this, futr, flags
      ensures Valid() && State() == EvalLane(resume, old(State()), l)
      ensures |cells| == |old(cells)| && cycleCount == old(cycleCount)
    {
      hide SetAll, YieldWrites, Inputs;
      ghost var m := State();
      var ins := GatherInputs(l.ins);
      if cells[l.cell].done {
        return;
      }
      var r := resume(cells[l.cell].state, ins);
      assert r == Resume(resume, m, l);
      cells := cells[l.cell := Coro(r.next, r.yielded == None)];
      if r.yielded.Some? {
        PutYield(l.outs, r.yielded.value);
      }
    }

    method EvalCoroLanes(lanes: seq<Lane>, start: nat, end: nat)
      requires Valid() && start <= end <= |lanes|
      requires forall i :: 0 <= i < |lanes| ==> CoroInRange(lanes[i], past.Length, |cells|)
      modifies this, futr, flags
      ensures Valid() && State() == EvalLanes(resume, old(State()), lanes[start..end])
      ensures |cells| == |old(cells)| && cycleCount == old(cycleCount)
    {
      hide EvalLane, CoroInRange;
      for l := start to end
        invariant Valid() && |cells| == |old(cells)| && cycleCount == old(cycleCount)
        invariant State() == EvalLanes(resume, old(State()), lanes[start..l])
      {
        EvalCoroInstance(lanes[l]);
        assert lanes[start..l + 1][..l - start] == lanes[start..l];
      }
    }

    // past := current, current := future, and the flag bits move along.
    method Advance()
      requires Valid()
      modifies past, curr, flags
      ensures State() == old(State()).(w := AdvanceAll(old(State()).w))
    {
      ghost var w := State().w;
      for i := 0 to past.Length
        modifies past
        invariant forall k :: 0 <= k < i ==> past[k] == w.curr[k]
        invariant curr[..] == w.curr && futr[..] == w.futr && flags[..] == w.flags
      {
        past[i] := curr[i];
      }
      for i := 0 to past.Length
        modifies curr
        invariant forall k :: 0 <= k < i ==> curr[k] == w.futr[k]
        invariant past[..] == w.curr && futr[..] == w.futr && flags[..] == w.flags
      {
        curr[i] := futr[i];
      }
      for i := 0 to past.Length
        modifies flags
        invariant forall k :: 0 <= k < i ==> flags[k] == Advanced(w.flags[k])
        invariant forall k :: i <= k < past.Length ==> flags[k] == w.flags[k]
        invariant past[..] == w.curr && curr[..] == w.futr && futr[..] == w.futr
      {
        flags[i] := Advanced(flags[i]);
      }
    }

    ghost function Lanes(): seq<Lane>
      requires Valid()
      reads this
    {
      AllWarpLanes(fastWarps) + Flatten(coroWarps)
    }

    // The serial cycle: all fast warps, then all coroutine warps, then advance.
    method Drive() returns (cycles: nat)
      requires Valid()
      modifies this, past, curr, futr, flags
      ensures Valid() && State() == Driven(resume, old(State()), Lanes())
      ensures cycles == cycleCount == old(cycleCount) + 1
    {
      hide EvalLane, FastInRange, CoroInRange, AdvanceAll;
      ghost var m, n := State(), |cells|;
      for k := 0 to |fastWarps|
        modifies futr, flags
        invariant Valid() && State() == EvalLanes(resume, m, AllWarpLanes(fastWarps[..k]))
      {
        EvalWarpLanes(fastWarps[k], 0, fastWarps[k].count);
        assert WarpLanes(fastWarps[k])[0..fastWarps[k].count] == WarpLanes(fastWarps[k]);
        assert fastWarps[..k + 1][..k] == fastWarps[..k];
        EvalConcat(resume, m, AllWarpLanes(fastWarps[..k]), WarpLanes(fastWarps[k]));
      }
      assert fastWarps[..|fastWarps|] == fastWarps;
      ghost var fast := State();
      for k := 0 to |coroWarps|
        modifies this, futr, flags
        invariant Valid() && |cells| == n && cycleCount == old(cycleCount)
        invariant State() == EvalLanes(resume, fast, Flatten(coroWarps[..k]))
      {
        EvalCoroLanes(coroWarps[k], 0, |coroWarps[k]|);
        assert coroWarps[k][0..|coroWarps[k]|] == coroWarps[k];
        assert coroWarps[..k + 1][..k] == coroWarps[..k];
        EvalConcat(resume, fast, Flatten(coroWarps[..k]), coroWarps[k]);
      }
      assert coroWarps[..|coroWarps|] == coroWarps;
      EvalConcat(resume, m, AllWarpLanes(fastWarps), Flatten(coroWarps));
      Advance();
      cycleCount := cycleCount + 1;
      cycles := cycleCount;
    }

    // The parallel cycle, with the lanes in whatever order the scheduler ran them: the result is the serial one.
    method DriveInAnyOrder(order: seq<Lane>) returns (cycles: nat)
      requires Valid() && multiset(order) == multiset(Lanes()) && AllIndependent(Lanes())
      requires forall i :: 0 <= i < |order| ==>
        FastInRange(order[i], past.Length) || CoroInRange(order[i], past.Length, |cells|)
      modifies this, past, curr, futr, flags
      ensures Valid() && State() == Driven(resume, old(State()), Lanes())
      ensures cycles == cycleCount == old(cycleCount) + 1
    {
      hide EvalLane, AdvanceAll;
      ghost var m, n, serial := State(), |cells|, Lanes();
      for k := 0 to |order|
        modifies this, futr, flags
        invariant Valid() && |cells| == n && cycleCount == old(cycleCount)
        invariant State() == EvalLanes(resume, m, order[..k])
      {
        if order[k].FastLane? {
          EvalFast(order[k]);
        } else {
          EvalCoroInstance(order[k]);
        }
        assert order[..k + 1][..k] == order[..k];
      }
      assert order[..|order|] == order;
      OrderDoesNotMatter(resume, m, serial, order);
      Advance();
      cycleCount := cycleCount + 1;
      cycles := cycleCount;
    }
  }
}
