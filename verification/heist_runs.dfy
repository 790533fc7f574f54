// What every run of the scheduler guarantees.

module HeistRuns {
  import opened HeistPlan
  import opened HeistCore
  import opened HeistLoop

  // DoLaunch: the posted head has been flushed to the queue of the worker it was posted to.
  function Launch(p: Plan, threads: nat): Sched
    requires threads > 0
  {
    var core := Posted(p);
    var req := PlacementOf(p, Head(p)).IsRequired();
    var t := Target(PlacementOf(p, Head(p)), 0, threads);
    var idle := Maestro([], [], [], 0, Top(0, false));
    Sched(core, seq(threads, _ => idle)[t := Enqueue(idle, Head(p), req)], 1, Unit(req))
  }

  function Run(p: Plan, threads: nat, choices: seq<Choice>): Sched
    requires threads > 0
  {
    if choices == [] then Launch(p, threads)
    else Step(p, Run(p, threads, choices[..|choices| - 1]), choices[|choices| - 1])
  }

  // Worker v has node n in execution.
  predicate Runs(s: Sched, v: nat, n: Id) {
    v < |s.ws| && s.ws[v].pc.Running? && s.ws[v].pc.node == n
  }

  lemma RunOneMore(p: Plan, threads: nat, choices: seq<Choice>, c: Choice)
    requires threads > 0
    ensures Run(p, threads, choices + [c]) == Step(p, Run(p, threads, choices), c)
  {
    hide Step, Launch;
    assert (choices + [c])[..|choices|] == choices;
  }

  lemma {:induction false} IdleSum(n: nat)
    ensures Sum(seq(n, _ => Maestro([], [], [], 0, Top(0, false)))) == NOTHING
  {
    hide TallyOf, Plus;
    var idle := Maestro([], [], [], 0, Top(0, false));
    if n > 0 {
      IdleSum(n - 1);
      assert seq(n, _ => idle)[..n - 1] == seq(n - 1, _ => idle);
      IdleMaestro();
      PlusNothing(NOTHING);
    }
  }

  lemma IdleMaestro()
    ensures TallyOf(Maestro([], [], [], 0, Top(0, false))) == NOTHING
  {
    hide Plus;
    var none: seq<Id> := [];
    assert multiset(none) == multiset{};
    assert QueueTally(Maestro([], [], [], 0, Top(0, false))) == NOTHING;
    assert PcTally(Top(0, false)) == NOTHING;
    PlusNothing(NOTHING);
  }

  lemma PostedHead(p: Plan)
    requires Distinct(p)
    ensures Held(Posted(p), Head(p), PlacementOf(p, Head(p)).IsRequired())
  {
    hide PlacementOf, Succ, Predecessors;
    PlanIds(p);
  }

  lemma LaunchSum(threads: nat, t: nat, id: Id, req: bool)
    requires t < threads
    ensures var idle := Maestro([], [], [], 0, Top(0, false));
            Sum(seq(threads, _ => idle)[t := Enqueue(idle, id, req)]) == Parcel(id, req)
  {
    hide TallyOf, Enqueue, Plus, Parcel;
    var idle := Maestro([], [], [], 0, Top(0, false));
    var all := seq(threads, _ => idle);
    IdleSum(threads);
    IdleMaestro();
    SumSplit(all, t);
    SumUpdate(all, t, Enqueue(idle, id, req));
    EnqueueTally(idle, id, req);
    PlusNothing(Rest(all, t));
    PlusComm(NOTHING, Parcel(id, req));
    PlusNothing(Parcel(id, req));
  }

  lemma LaunchedOk(p: Plan, threads: nat, w: nat)
    requires Distinct(p) && w < threads
    ensures MaestroOk(p, Posted(p), Launch(p, threads).ws[w])
  {
    hide Posted, PlacementOf, MaestroOk, Held, Distinct, Enqueue;
    var idle := Maestro([], [], [], 0, Top(0, false));
    PostedHead(p);
    IdleIsOk(p, Posted(p), idle);
    EnqueueOk(p, Posted(p), idle, Head(p), PlacementOf(p, Head(p)).IsRequired());
  }

  lemma LaunchInv(p: Plan, threads: nat)
    requires Distinct(p) && threads > 0
    ensures Inv(p, Launch(p, threads)) && |Launch(p, threads).ws| == threads
  {
    hide Posted, CoreInv, PlacementOf, MaestroOk, Distinct, Enqueue, Plus, Parcel, Sum;
    var s := Launch(p, threads);
    PostedInv(p);
    LaunchSum(threads, Target(PlacementOf(p, Head(p)), 0, threads), Head(p), PlacementOf(p, Head(p)).IsRequired());
    LaunchLedger(p, threads);
    PlusNothing(Sum(s.ws));
    forall w | 0 <= w < threads
      ensures MaestroOk(p, s.core, s.ws[w])
    {
      LaunchedOk(p, threads, w);
    }
  }

  lemma LaunchLedger(p: Plan, threads: nat)
    requires threads > 0
    ensures Ledger(Launch(p, threads)) == Parcel(Head(p), PlacementOf(p, Head(p)).IsRequired())
  {
    hide PlacementOf, Succ, Predecessors;
  }

  lemma IdleIsOk(p: Plan, c: Core, idle: Maestro)
    requires idle == Maestro([], [], [], 0, Top(0, false))
    ensures MaestroOk(p, c, idle)
  {
  }

  lemma {:induction false} RunKeepsInv(p: Plan, threads: nat, choices: seq<Choice>)
    requires Distinct(p) && threads > 0
    ensures Inv(p, Run(p, threads, choices)) && |Run(p, threads, choices).ws| == threads
  {
    hide Inv, Distinct, Step;
    if choices == [] {
      LaunchInv(p, threads);
    } else {
      var front := choices[..|choices| - 1];
      RunKeepsInv(p, threads, front);
      StepKeepsInv(p, Run(p, threads, front), choices[|choices| - 1]);
      StepKeepsThreads(p, Run(p, threads, front), choices[|choices| - 1]);
    }
  }

  lemma StepKeepsThreads(p: Plan, s: Sched, c: Choice)
    ensures |Step(p, s, c).ws| == |s.ws|
  {
    hide Finish, Release, Yield, Begin, Drop, IsCoro, Forks, IsReq, SlotOf;
  }

  // Chore-tree precedence: whatever the schedule, nothing right of a sequence starts before all of its left is over.
  lemma RunsAreOrdered(p: Plan, threads: nat, choices: seq<Choice>)
    requires Distinct(p) && threads > 0
    ensures var c := Run(p, threads, choices).core; Ordered(p, c.started, c.done)
  {
    hide CoreInv, Ordered, Distinct;
    RunKeepsInv(p, threads, choices);
    InvCore(p, Run(p, threads, choices));
    CoreGivesOrder(p, Run(p, threads, choices).core);
  }

  // Jobs queued or in hand at one worker.
  function Load(m: Maestro): nat {
    |m.run| + |m.required| + (if Idle(m) then 0 else 1)
  }

  function Loads(ws: seq<Maestro>): nat {
    if ws == [] then 0 else Loads(ws[..|ws| - 1]) + Load(ws[|ws| - 1])
  }

  predicate Idle(m: Maestro) {
    m.pc.Seek? || m.pc.Steal? || m.pc.Left? || (m.pc.Top? && m.pc.job == 0)
  }

  // A worker whose enqueued continuation is not counted in SzSchedJob yet.
  function Uncounted(m: Maestro): nat {
    if m.pc.Posting? then 1 else 0
  }

  function AllUncounted(ws: seq<Maestro>): nat {
    if ws == [] then 0 else AllUncounted(ws[..|ws| - 1]) + Uncounted(ws[|ws| - 1])
  }

  lemma LoadIsCounted(p: Plan, c: Core, m: Maestro)
    requires MaestroOk(p, c, m)
    ensures TallyOf(m).sched + Uncounted(m) >= Load(m) && TallyOf(m).sched >= |m.run| + |m.required|
    ensures Idle(m) ==> TallyOf(m).sched == |m.run| + |m.required|
    ensures Idle(m) ==> TallyOf(m).runnables == |m.run| && TallyOf(m).hands == multiset{}
  {
    hide QueuesOk, PcTally;
    PcLoad(m);
  }

  lemma PcLoad(m: Maestro)
    ensures PcTally(m.pc).sched >= 0 && PcTally(m.pc).sched + Uncounted(m) >= (if Idle(m) then 0 else 1)
    ensures Idle(m) ==> PcTally(m.pc) == NOTHING
  {
  }

  lemma {:induction false} LoadsAreCounted(p: Plan, c: Core, ws: seq<Maestro>)
    requires forall w :: 0 <= w < |ws| ==> MaestroOk(p, c, ws[w])
    ensures Sum(ws).sched + AllUncounted(ws) >= Loads(ws) && Sum(ws).sched >= 0
    ensures (forall w :: 0 <= w < |ws| ==> Idle(ws[w])) ==> Sum(ws).sched == Loads(ws) && Sum(ws).hands == multiset{}
    ensures (forall w :: 0 <= w < |ws| ==> Idle(ws[w]) && ws[w].run == []) ==> Sum(ws).runnables == 0
  {
    hide MaestroOk, TallyOf, Load, Idle, Uncounted;
    if ws != [] {
      LoadsAreCounted(p, c, ws[..|ws| - 1]);
      LoadIsCounted(p, c, ws[|ws| - 1]);
      IdleLoad(ws[|ws| - 1]);
    }
  }

  lemma IdleLoad(m: Maestro)
    ensures Idle(m) ==> Load(m) == |m.run| + |m.required|
    ensures Load(m) == 0 ==> Idle(m) && m.run == [] && m.required == []
  {
  }

  // SzSchedJob, with what the posting workers have yet to add, never falls below the jobs queued and in hand. Every
  // counter and queue operation is a step of its own.
  lemma CounterCoversAllWork(p: Plan, threads: nat, choices: seq<Choice>)
    requires Distinct(p) && threads > 0
    ensures var s := Run(p, threads, choices); s.sched + AllUncounted(s.ws) >= Loads(s.ws) && s.sched >= 0
  {
    hide CoreInv, MaestroOk, Distinct, Loads, AllUncounted, Sum;
    var s := Run(p, threads, choices);
    RunKeepsInv(p, threads, choices);
    LoadsAreCounted(p, s.core, s.ws);
  }

  lemma SchedAdds(ws: seq<Maestro>)
    requires ws != []
    ensures Sum(ws).sched == Sum(ws[..|ws| - 1]).sched + TallyOf(ws[|ws| - 1]).sched
  {
    hide TallyOf;
  }

  // A worker that reads or leaves zero behind has nothing in its queues, and is idle or posting.
  lemma {:induction false} ZeroIsSpent(p: Plan, c: Core, ws: seq<Maestro>, w: nat)
    requires (forall v :: 0 <= v < |ws| ==> MaestroOk(p, c, ws[v])) && Sum(ws).sched == 0 && w < |ws|
    ensures ws[w].run == [] && ws[w].required == [] && (Idle(ws[w]) || ws[w].pc.Posting?)
  {
    hide MaestroOk, TallyOf, Load, Idle, Uncounted, Sum, Plus;
    LoadsAreCounted(p, c, ws[..|ws| - 1]);
    LoadIsCounted(p, c, ws[|ws| - 1]);
    SpentLoad(ws[|ws| - 1]);
    SchedAdds(ws);
    if w < |ws| - 1 {
      ZeroIsSpent(p, c, ws[..|ws| - 1], w);
    }
  }

  lemma SpentLoad(m: Maestro)
    ensures Load(m) <= Uncounted(m) ==> m.run == [] && m.required == [] && (Idle(m) || m.pc.Posting?)
  {
  }

  // Temp queues are in use only between the end of a body and the end of the flush after it.
  predicate TempsOk(s: Sched) {
    forall w :: 0 <= w < |s.ws| ==> TempOk(s.ws[w])
  }

  predicate TempOk(m: Maestro) {
    m.temp == [] || m.pc.Closing? || m.pc.Flushing?
  }

  lemma EndBodyTemps(p: Plan, s: Sched, w: nat, c: Choice)
    requires TempsOk(s) && w < |s.ws| && s.ws[w].pc.Running?
    ensures TempsOk(EndBody(p, s, w, s.ws[w].pc, c))
  {
    hide Finish, Release, Yield, IsCoro, Forks, IsReq, SlotOf, Succ;
    assert TempOk(s.ws[w]);
  }

  lemma PublishTemps(s: Sched, w: nat)
    requires TempsOk(s) && w < |s.ws| && s.ws[w].pc.Publishing?
    ensures TempsOk(Publish(s, w, s.ws[w].pc))
  {
    hide IsReq, SlotOf;
    assert TempOk(s.ws[w]);
  }

  lemma HandTemps(s: Sched, w: nat)
    requires TempsOk(s) && w < |s.ws| && s.ws[w].pc.Handing?
    ensures TempsOk(Hand(s, w, s.ws[w].pc))
  {
    hide IsReq, SlotOf;
    assert TempOk(s.ws[w]);
  }

  lemma FlushTemps(s: Sched, w: nat)
    requires TempsOk(s) && w < |s.ws| && s.ws[w].pc.Flushing?
    ensures TempsOk(Flush(s, w, s.ws[w].pc))
  {
    hide IsReq;
    assert TempOk(s.ws[w]);
  }

  lemma StepKeepsTemps(p: Plan, s: Sched, c: Choice)
    requires TempsOk(s)
    ensures TempsOk(Step(p, s, c))
  {
    hide EndBody, Publish, Flush, Hand, Begin, Drop, Release, SlotOf;
    if c.worker < |s.ws| {
      assert TempOk(s.ws[c.worker]);
      match s.ws[c.worker].pc
      case Running(_, _, _) => EndBodyTemps(p, s, c.worker, c);
      case Publishing(_, _, _, _, _) => PublishTemps(s, c.worker);
      case Handing(_, _, _, _) => HandTemps(s, c.worker);
      case Flushing(_, _, _, _) => FlushTemps(s, c.worker);
      case _ =>
    }
  }

  // The counter stays at zero exactly as long as no worker counts a continuation that it has posted.
  lemma ZeroStaysUnless(p: Plan, s: Sched, c: Choice)
    requires Inv(p, s) && s.sched == 0
    ensures Step(p, s, c).sched == 0 <==> !(c.worker < |s.ws| && s.ws[c.worker].pc.Posting? && s.ws[c.worker].pc.ready)
  {
    hide CoreInv, MaestroOk, Sum, EndBody, Publish, Flush, AfterFree, Hand, Begin, Drop;
    PlusNothing(Sum(s.ws));
    if c.worker < |s.ws| {
      ZeroIsSpent(p, s.core, s.ws, c.worker);
    }
  }

  // A worker with nothing left to do but to account for a body that is over.
  predicate Winding(m: Maestro) {
    && m.run == [] && m.required == [] && m.temp == []
    && match m.pc
       case Top(job, _) => job == 0
       case Closing(_, _, _, holds) => !holds
       case Flushing(_, _, holds, moving) => !holds && moving == 0
       case Releasing(_, _, holds) => !holds
       case Settling(_, next, _) => next == 0
       case Dropping(next, _) => next == 0
       case pc => pc.Seek? || pc.Steal? || pc.Left? || pc.Posting?
  }

  predicate WoundDown(s: Sched) {
    forall w :: 0 <= w < |s.ws| ==> Winding(s.ws[w])
  }

  lemma ZeroIsWoundDown(p: Plan, s: Sched)
    requires Inv(p, s) && TempsOk(s) && s.sched == 0
    ensures WoundDown(s)
  {
    hide CoreInv, MaestroOk, Sum;
    PlusNothing(Sum(s.ws));
    forall w | 0 <= w < |s.ws|
      ensures Winding(s.ws[w])
    {
      ZeroIsSpent(p, s.core, s.ws, w);
      assert TempOk(s.ws[w]);
    }
  }

  lemma ReleasingHasNothing(p: Plan, s: Sched, w: nat)
    requires Inv(p, s) && w < |s.ws| && s.ws[w].pc.Releasing? && !s.ws[w].pc.holds
    ensures s.ws[w].cur == 0
  {
    hide CoreInv, Sum, QueuesOk;
    assert MaestroOk(p, s.core, s.ws[w]);
  }

  lemma StepKeepsWoundDown(p: Plan, s: Sched, c: Choice)
    requires Inv(p, s) && WoundDown(s)
    ensures WoundDown(Step(p, s, c))
  {
    hide Inv, EndBody, Publish, Hand, Begin, Drop, Release, SlotOf;
    if c.worker < |s.ws| {
      assert Winding(s.ws[c.worker]);
      if s.ws[c.worker].pc.Releasing? {
        ReleasingHasNothing(p, s, c.worker);
      }
    }
  }

  // What a wound-down worker accounts for is the job it executed last.
  lemma WindingTally(p: Plan, c: Core, m: Maestro)
    requires MaestroOk(p, c, m) && Winding(m)
    ensures TallyOf(m).hands == multiset{} && forall id :: id in TallyOf(m).tokens ==> Executing(c, id)
  {
    hide HoldOk, Held;
    var none: seq<Id> := [];
    assert multiset(none) == multiset{};
  }

  lemma {:induction false} WindingSum(p: Plan, c: Core, ws: seq<Maestro>)
    requires forall w :: 0 <= w < |ws| ==> MaestroOk(p, c, ws[w]) && Winding(ws[w])
    ensures Sum(ws).hands == multiset{} && forall id :: id in Sum(ws).tokens ==> Executing(c, id)
  {
    hide MaestroOk, Winding, TallyOf, Executing;
    if ws != [] {
      WindingSum(p, c, ws[..|ws| - 1]);
      WindingTally(p, c, ws[|ws| - 1]);
    }
  }

  lemma WoundDownIsComplete(p: Plan, s: Sched)
    requires Inv(p, s) && WoundDown(s)
    ensures var c := s.core; c.done == c.started == Ids(p) && c.hands == {} && NothingDue(c)
  {
    hide CoreInv, MaestroOk, Winding, Sum, Ids;
    WindingSum(p, s.core, s.ws);
    PlusNothing(Sum(s.ws));
    assert forall id :: id in s.core.tokens ==> id in multiset(s.core.tokens);
    assert forall n :: n in s.core.hands ==> n in multiset(s.core.hands);
    CoreAtRestIsComplete(p, s.core);
  }

  predicate SomeoneLeft(s: Sched) {
    exists w :: 0 <= w < |s.ws| && s.ws[w].pc == Left
  }

  // Nobody but w moves its program counter, and w does not leave.
  predicate OnlyMoves(s: Sched, r: Sched, w: nat)
    requires w < |s.ws|
  {
    |r.ws| == |s.ws| && r.ws[w].pc != Left && forall v :: 0 <= v < |s.ws| && v != w ==> r.ws[v].pc == s.ws[v].pc
  }

  lemma EndBodyMoves(p: Plan, s: Sched, w: nat, c: Choice)
    requires w < |s.ws| && s.ws[w].pc.Running?
    ensures OnlyMoves(s, EndBody(p, s, w, s.ws[w].pc, c), w)
  {
    hide Finish, Release, Yield, IsCoro, Forks, IsReq, SlotOf, Succ;
  }

  lemma PublishMoves(s: Sched, w: nat)
    requires w < |s.ws| && s.ws[w].pc.Publishing?
    ensures OnlyMoves(s, Publish(s, w, s.ws[w].pc), w)
  {
    hide IsReq, SlotOf;
  }

  lemma HandMoves(s: Sched, w: nat)
    requires w < |s.ws| && s.ws[w].pc.Handing?
    ensures OnlyMoves(s, Hand(s, w, s.ws[w].pc), w)
  {
    hide IsReq, SlotOf;
  }

  lemma StepOnlyMoves(p: Plan, s: Sched, c: Choice)
    requires c.worker < |s.ws| && (s.ws[c.worker].pc.Top? ==> s.sched != 0) && s.ws[c.worker].pc != Left
    ensures OnlyMoves(s, Step(p, s, c), c.worker)
  {
    hide EndBody, Publish, Hand, Begin, Drop, Release, SlotOf, IsReq;
    match s.ws[c.worker].pc
    case Running(_, _, _) => EndBodyMoves(p, s, c.worker, c);
    case Publishing(_, _, _, _, _) => PublishMoves(s, c.worker);
    case Handing(_, _, _, _) => HandMoves(s, c.worker);
    case _ =>
  }

  lemma LeavingReadsZero(p: Plan, s: Sched, c: Choice)
    requires SomeoneLeft(Step(p, s, c))
    ensures SomeoneLeft(s) || s.sched == 0
  {
    hide Step;
    if !SomeoneLeft(s) && s.sched != 0 && c.worker < |s.ws| {
      StepOnlyMoves(p, s, c);
    } else if c.worker >= |s.ws| {
      NoSuchWorker(p, s, c);
    }
  }

  lemma NoSuchWorker(p: Plan, s: Sched, c: Choice)
    requires c.worker >= |s.ws|
    ensures Step(p, s, c) == s
  {
  }

  lemma {:induction false} RunKeepsQuiet(p: Plan, threads: nat, choices: seq<Choice>)
    requires Distinct(p) && threads > 0
    ensures var s := Run(p, threads, choices); TempsOk(s) && (SomeoneLeft(s) ==> WoundDown(s))
  {
    hide Inv, Distinct, Step, Posted, Enqueue, PlacementOf, WoundDown;
    if choices == [] {
      LaunchIsQuiet(p, threads);
    } else {
      var front, last := choices[..|choices| - 1], choices[|choices| - 1];
      var s := Run(p, threads, front);
      RunKeepsQuiet(p, threads, front);
      RunKeepsInv(p, threads, front);
      StepKeepsTemps(p, s, last);
      if SomeoneLeft(Step(p, s, last)) {
        LeavingReadsZero(p, s, last);
        if !SomeoneLeft(s) {
          ZeroIsWoundDown(p, s);
        }
        StepKeepsWoundDown(p, s, last);
      }
    }
  }

  lemma LaunchIsQuiet(p: Plan, threads: nat)
    requires threads > 0
    ensures TempsOk(Launch(p, threads)) && !SomeoneLeft(Launch(p, threads))
  {
    hide Posted, PlacementOf;
  }

  // Reading zero means that everything has run, and that nothing is left to run anywhere, then and ever after.
  lemma {:induction false} ZeroMeansComplete(p: Plan, threads: nat, choices: seq<Choice>, more: seq<Choice>)
    requires Distinct(p) && threads > 0 && Run(p, threads, choices).sched == 0
    ensures var s := Run(p, threads, choices + more); WoundDown(s)
    ensures var c := Run(p, threads, choices + more).core;
      c.done == c.started == Ids(p) && c.hands == {} && NothingDue(c)
    decreases |more|
  {
    hide Inv, Distinct, Ids, Step, WoundDown, TempsOk;
    RunKeepsInv(p, threads, choices + more);
    if more == [] {
      assert choices + more == choices;
      RunKeepsQuiet(p, threads, choices);
      ZeroIsWoundDown(p, Run(p, threads, choices));
    } else {
      var front := more[..|more| - 1];
      ZeroMeansComplete(p, threads, choices, front);
      assert (choices + more)[..|choices + more| - 1] == choices + front;
      RunKeepsInv(p, threads, choices + front);
      StepKeepsWoundDown(p, Run(p, threads, choices + front), more[|more| - 1]);
    }
    WoundDownIsComplete(p, Run(p, threads, choices + more));
  }

  // As soon as any worker has left the loop, every chore has run: leaves and forks exactly once.
  lemma LeavingMeansComplete(p: Plan, threads: nat, choices: seq<Choice>)
    requires Distinct(p) && threads > 0 && SomeoneLeft(Run(p, threads, choices))
    ensures var c := Run(p, threads, choices).core;
            && c.done == Ids(p)
            && forall n :: n in Ids(p) && !IsCoro(p, n) ==> n in c.runs && c.runs[n] == 1
  {
    hide Distinct, Ids, IsCoro, TableInv, Run, WoundDown, Sum, MaestroOk;
    RunKeepsQuiet(p, threads, choices);
    RunKeepsInv(p, threads, choices);
    WoundDownIsComplete(p, Run(p, threads, choices));
    var c := Run(p, threads, choices).core;
    InvCore(p, Run(p, threads, choices));
    assert forall n :: n in Ids(p) ==> NodeOk(p, c, n);
  }

  // In every state, no leaf has run twice.
  lemma NoLeafRunsTwice(p: Plan, threads: nat, choices: seq<Choice>, n: Id)
    requires Distinct(p) && threads > 0 && n in Ids(p) && !IsCoro(p, n)
    ensures var c := Run(p, threads, choices).core; n in c.runs && c.runs[n] <= 1
  {
    hide Distinct, Ids, IsCoro, TableInv, Run;
    RunKeepsInv(p, threads, choices);
    InvCore(p, Run(p, threads, choices));
    assert NodeOk(p, Run(p, threads, choices).core, n);
  }

  // No stuck state: while work is counted and nobody runs anything, some worker finds a job in its own queues.
  lemma SomeoneCanPop(p: Plan, threads: nat, choices: seq<Choice>) returns (w: nat)
    requires Distinct(p) && threads > 0
    requires var s := Run(p, threads, choices); s.sched != 0 && forall v :: 0 <= v < |s.ws| ==> Idle(s.ws[v])
    ensures var s := Run(p, threads, choices);
            && w < |s.ws| && s.ws[w].pc != Left
            && forall prefer :: PopLocalJob(s.ws[w], s.runnables, prefer).job != 0
  {
    hide CoreInv, MaestroOk, Distinct, Sum, Run, Idle, PopLocalJob;
    var s := Run(p, threads, choices);
    RunKeepsInv(p, threads, choices);
    RunKeepsQuiet(p, threads, choices);
    LoadsAreCounted(p, s.core, s.ws);
    if v :| 0 <= v < |s.ws| && s.ws[v].run != [] {
      w := v;
      RunQueuePops(p, s, w);
    } else {
      w := LoadedWorker(s.ws);
      RequiredQueuePops(p, s, w);
    }
  }

  lemma LoadedWorker(ws: seq<Maestro>) returns (w: nat)
    requires Loads(ws) > 0 && forall v :: 0 <= v < |ws| ==> Idle(ws[v]) && ws[v].run == []
    ensures w < |ws| && ws[w].required != []
  {
    hide Idle;
    IdleLoad(ws[|ws| - 1]);
    if ws[|ws| - 1].required != [] {
      w := |ws| - 1;
    } else {
      w := LoadedWorker(ws[..|ws| - 1]);
    }
  }

  lemma RunQueuePops(p: Plan, s: Sched, w: nat)
    requires Inv(p, s) && w < |s.ws| && s.ws[w].run != []
    ensures forall prefer :: PopLocalJob(s.ws[w], s.runnables, prefer).job != 0
  {
    hide CoreInv, PcOk;
    MaestroIs(p, s, w);
    LastSplits(s.ws[w].run);
    if s.ws[w].required != [] {
      LastSplits(s.ws[w].required);
    }
  }

  lemma RequiredQueuePops(p: Plan, s: Sched, w: nat)
    requires Inv(p, s) && w < |s.ws| && s.ws[w].run == [] && s.ws[w].required != [] && s.runnables == 0
    ensures forall prefer :: PopLocalJob(s.ws[w], s.runnables, prefer).job != 0
  {
    hide CoreInv, PcOk;
    MaestroIs(p, s, w);
    LastSplits(s.ws[w].required);
  }

  // The live jobs that hold b as successor, and the workers' hands that do.
  function LiveHolding(c: Core, b: Id): set<Id> {
    set id | id in c.jobs && c.jobs[id].work && c.jobs[id].succ == b
  }

  function HandsHolding(p: Plan, c: Core, b: Id): set<Id> {
    set n | n in c.hands && Succ(p, n) == b
  }

  function CarriedBy(c: Core, ns: set<Id>): set<Id> {
    set n | n in ns && n in c.carrier && c.carrier[n].Some? :: c.carrier[n].value
  }

  lemma {:induction false} CarriersAreDistinct(c: Core, ns: set<Id>)
    requires forall n :: n in ns ==> n in c.carrier && c.carrier[n].Some?
    requires forall n :: n in ns ==> c.carrier[n].value in c.jobs && c.jobs[c.carrier[n].value].node == n
    ensures |CarriedBy(c, ns)| == |ns|
  {
    if ns == {} {
      assert CarriedBy(c, ns) == {};
    } else {
      var n :| n in ns;
      var fewer := ns - {n};
      CarriersAreDistinct(c, fewer);
      assert CarriedBy(c, ns) == CarriedBy(c, fewer) + {c.carrier[n].value};
      assert c.carrier[n].value !in CarriedBy(c, fewer);
    }
  }

  lemma QueuedHolders(p: Plan, c: Core, b: Id)
    requires CoreInv(p, c)
    ensures |LiveHolding(c, b)| == |Holders(p, c, b) - c.hands|
  {
    hide Succ, Ids, Due, Distinct, PlacementOf, IsCoro, PlanInv, TokenOk;
    var ns := Holders(p, c, b) - c.hands;
    forall n | n in ns
      ensures c.carrier[n].Some? && c.carrier[n].value in c.jobs && c.jobs[c.carrier[n].value].node == n
      ensures c.carrier[n].value in LiveHolding(c, b)
    {
      assert CarrierOk(p, c, n);
      assert SlotOk(p, c, c.carrier[n].value);
    }
    CarriersAreDistinct(c, ns);
    forall id | id in LiveHolding(c, b)
      ensures id in CarriedBy(c, ns)
    {
      assert SlotOk(p, c, id);
      assert CarrierOk(p, c, c.jobs[id].node);
      assert c.jobs[id].node in ns;
    }
    assert LiveHolding(c, b) == CarriedBy(c, ns);
  }

  // In every state, with coroutines suspended any number of times, the predecessor count of a live job is exactly
  // the number of live jobs that still hold it as successor plus the workers that are about to release it.
  lemma PredecessorCountIsExact(p: Plan, threads: nat, choices: seq<Choice>, b: Id)
    requires Distinct(p) && threads > 0 && b in Run(p, threads, choices).core.jobs
    ensures var c := Run(p, threads, choices).core; c.jobs[b].preds == |LiveHolding(c, b)| + |HandsHolding(p, c, b)|
  {
    hide Succ, Ids, Distinct, Run, LiveHolding, TableInv;
    var s := Run(p, threads, choices);
    RunKeepsInv(p, threads, choices);
    InvCore(p, s);
    QueuedHolders(p, s.core, b);
    HandsAreHolders(p, s.core, b);
  }

  lemma HandsAreHolders(p: Plan, c: Core, b: Id)
    requires CoreInv(p, c)
    ensures |Holders(p, c, b)| == |Holders(p, c, b) - c.hands| + |HandsHolding(p, c, b)|
  {
    hide Succ, Distinct, PlanInv;
    assert Holders(p, c, b) == (Holders(p, c, b) - c.hands) + HandsHolding(p, c, b);
  }

  lemma EndBodyCarriers(p: Plan, s: Sched, w: nat, c: Choice)
    requires w < |s.ws| && s.ws[w].pc.Running? && s.ws[w].pc.node in s.core.carrier
    ensures EndBody(p, s, w, s.ws[w].pc, c).core.carrier.Keys <= s.core.carrier.Keys
  {
    hide IsCoro, Forks, IsReq, Succ, PlacementOf;
  }

  lemma AfterFreeCarriers(p: Plan, s: Sched, w: nat)
    requires w < |s.ws| && s.ws[w].pc.Releasing?
    ensures AfterFree(p, s, w, s.ws[w].pc).core.carrier.Keys <= s.core.carrier.Keys
  {
    hide Succ;
  }

  lemma BeginCarriers(c: Core, job: Id)
    requires job in c.jobs && c.jobs[job].node in c.runs && c.jobs[job].node in c.carrier
    ensures Begin(c, job).carrier.Keys <= c.carrier.Keys
  {
  }

  // A node that has released its successor never holds it again.
  lemma StepReleasesForGood(p: Plan, s: Sched, c: Choice)
    requires Inv(p, s)
    ensures Step(p, s, c).core.carrier.Keys <= s.core.carrier.Keys
  {
    hide CoupledUpTo, EndBody, AfterFree, Publish, Post, Flush, Hand, PopLocalJob, Begin;
    if c.worker < |s.ws| {
      CarriedNodes(p, s, c.worker);
      match s.ws[c.worker].pc
      case Running(_, _, _) => EndBodyCarriers(p, s, c.worker, c);
      case Releasing(_, _, _) => AfterFreeCarriers(p, s, c.worker);
      case Take(job, _) => if job in s.core.jobs && s.core.jobs[job].node in s.core.runs { BeginCarriers(s.core, job); }
      case Publishing(_, _, _, _, _) => PublishKeepsCore(s, c.worker);
      case Posting(_, _, _, _) => PostKeepsCore(s, c.worker);
      case Flushing(_, _, _, _) => FlushKeepsCore(s, c.worker);
      case Handing(_, _, _, _) => HandKeepsCore(s, c.worker);
      case _ =>
    }
  }

  lemma PublishKeepsCore(s: Sched, w: nat)
    requires w < |s.ws| && s.ws[w].pc.Publishing?
    ensures Publish(s, w, s.ws[w].pc).core == s.core
  {
  }

  lemma PostKeepsCore(s: Sched, w: nat)
    requires w < |s.ws| && s.ws[w].pc.Posting?
    ensures Post(s, w, s.ws[w].pc).core == s.core
  {
  }

  lemma FlushKeepsCore(s: Sched, w: nat)
    requires w < |s.ws| && s.ws[w].pc.Flushing?
    ensures Flush(s, w, s.ws[w].pc).core == s.core
  {
  }

  lemma HandKeepsCore(s: Sched, w: nat)
    requires w < |s.ws| && s.ws[w].pc.Handing?
    ensures Hand(s, w, s.ws[w].pc).core == s.core
  {
  }

  // The node a worker is about to begin, or has in execution, is still carried.
  lemma CarriedNodes(p: Plan, s: Sched, w: nat)
    requires Inv(p, s) && w < |s.ws|
    ensures s.ws[w].pc.Take? && s.ws[w].pc.job in s.core.jobs ==> s.core.jobs[s.ws[w].pc.job].node in s.core.carrier
    ensures s.ws[w].pc.Running? ==> s.ws[w].pc.node in s.core.carrier
  {
    hide Sum, PlanInv, Distinct, Ids, Succ, PlacementOf, IsCoro, TokenOk, Others;
    MineAlone(p, s, w);
    if s.ws[w].pc.Take? {
      assert SlotOk(p, s.core, s.ws[w].pc.job);
    }
  }

  // Releases are final over whole runs: what has let go of its successor is done, and stays so.
  lemma {:induction false} ReleasedOnce(p: Plan, threads: nat, choices: seq<Choice>, more: seq<Choice>, n: Id)
    requires Distinct(p) && threads > 0 && n in Ids(p) && n !in Run(p, threads, choices).core.carrier
    ensures var c := Run(p, threads, choices + more).core; n !in c.carrier && n in c.done
    decreases |more|
  {
    hide Inv, Distinct, Ids, Step;
    RunKeepsInv(p, threads, choices + more);
    if more == [] {
      assert choices + more == choices;
    } else {
      var front := more[..|more| - 1];
      ReleasedOnce(p, threads, choices, front, n);
      assert (choices + more)[..|choices + more| - 1] == choices + front;
      RunKeepsInv(p, threads, choices + front);
      StepReleasesForGood(p, Run(p, threads, choices + front), more[|more| - 1]);
    }
    ReleasedIsDone(p, Run(p, threads, choices + more), n);
  }

  lemma ReleasedIsDone(p: Plan, s: Sched, n: Id)
    requires Inv(p, s) && n in Ids(p) && n !in s.core.carrier
    ensures n in s.core.done
  {
    hide Sum, TableInv, Distinct, Ids;
    assert NodeOk(p, s.core, n);
  }
}
