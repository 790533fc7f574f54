// Which workers can run the entries of the sides of a parallel node.

module HeistForks {
  import opened HeistPlacement
  import opened HeistPlan
  import opened HeistCore
  import opened HeistLoop
  import opened HeistRuns
  import opened HeistFinish
  import opened HeistHome

  // Job id is in one of the worker's queues, or next in its hands.
  predicate With(m: Maestro, id: Id) {
    || id in m.run || id in m.required || id in m.temp
    || (m.pc.Flushing? && m.pc.moving == id) || (m.pc.Top? && m.pc.job == id) || (m.pc.Take? && m.pc.job == id)
  }

  lemma PoppedOrLeft(q: seq<Id>, id: Id)
    requires id in q
    ensures id == LastOf(q) || id in PopLast(q)
  {
    assert q == PopLast(q) + [LastOf(q)];
  }

  lemma PushKeepsWith(s: Sched, next: Id, default: nat, v: nat, id: Id)
    requires |s.ws| > 0 && v < |s.ws| && With(s.ws[v], id)
    ensures With(Push(s, next, default).ws[v], id)
  {
    hide IsReq, SlotOf;
  }

  lemma SeekKeepsWith(m: Maestro, runnables: int, prefer: bool, threads: nat, id: Id)
    requires With(m, id) && m.pc == Seek && id != 0
    ensures var r := PopLocalJob(m, runnables, prefer);
            With(r.rest.(pc := if r.job == 0 && threads >= 2 then Steal else Top(r.job, r.req)), id)
  {
    if id in m.run {
      PoppedOrLeft(m.run, id);
    }
    if id in m.required {
      PoppedOrLeft(m.required, id);
    }
  }

  // Without a theft, a job stays with its worker until that worker runs it.
  lemma StaysWith(p: Plan, s: Sched, c: Choice, v: nat, id: Id)
    requires Inv(p, s) && v < |s.ws| && With(s.ws[v], id) && id != 0 && c.victim == c.worker && !c.suspends
    requires !(c.worker == v && s.ws[v].pc.Take? && s.ws[v].pc.job == id)
    ensures v < |Step(p, s, c).ws| && With(Step(p, s, c).ws[v], id)
  {
    hide CoreInv, Sum, Finish, Release, Begin, Drop, Push, IsReq, IsCoro, Forks, SlotOf, Succ, PopLocalJob;
    if c.worker < |s.ws| {
      var w := c.worker;
      BusyMeansCounted(p, s, v);
      WorkerWith(p, s, c, v, id);
    }
  }

  lemma PublishKeepsWith(s: Sched, w: nat, v: nat, id: Id)
    requires w < |s.ws| && s.ws[w].pc.Publishing? && v < |s.ws| && With(s.ws[v], id)
    ensures With(Publish(s, w, s.ws[w].pc).ws[v], id)
  {
    hide Push, IsReq, SlotOf;
    var pc := s.ws[w].pc;
    if pc.stage == Counted {
      var m := if IsReq(s.core, pc.next) then s.ws[w].(cur := 0, pc := Closing(pc.job, pc.node, pc.req, false))
               else s.ws[w].(pc := Publishing(pc.job, pc.node, pc.req, pc.next, Pushed));
      PushKeepsWith(s.(ws := s.ws[w := m]), pc.next, 0, v, id);
    }
  }

  lemma HandKeepsWith(s: Sched, w: nat, v: nat, id: Id)
    requires w < |s.ws| && s.ws[w].pc.Handing? && v < |s.ws| && With(s.ws[v], id)
    ensures With(Hand(s, w, s.ws[w].pc).ws[v], id)
  {
    hide Push, IsReq, SlotOf;
    var pc := s.ws[w].pc;
    if pc.stage == Counted && !pc.inline {
      var m := s.ws[w].(pc := if IsReq(s.core, pc.next) then Settling(pc.req, 0, false)
        else Handing(pc.req, pc.next, Pushed, false));
      PushKeepsWith(s.(ws := s.ws[w := m]), pc.next, 0, v, id);
    }
  }

  lemma FlushKeepsWith(s: Sched, w: nat, v: nat, id: Id)
    requires w < |s.ws| && s.ws[w].pc.Flushing? && v < |s.ws| && With(s.ws[v], id) && id != 0
    ensures With(Flush(s, w, s.ws[w].pc).ws[v], id)
  {
    hide IsReq;
    if id in s.ws[w].temp {
      PoppedOrLeft(s.ws[w].temp, id);
    }
  }

  lemma PostKeepsWith(s: Sched, w: nat, v: nat, id: Id)
    requires w < |s.ws| && s.ws[w].pc.Posting? && v < |s.ws| && With(s.ws[v], id)
    ensures With(Post(s, w, s.ws[w].pc).ws[v], id)
  {
  }

  lemma AfterFreeKeepsWith(p: Plan, s: Sched, w: nat, v: nat, id: Id)
    requires w < |s.ws| && s.ws[w].pc.Releasing? && v < |s.ws| && With(s.ws[v], id)
    ensures With(AfterFree(p, s, w, s.ws[w].pc).ws[v], id)
  {
    hide Release, SlotOf;
  }

  lemma EndBodyKeepsWith(p: Plan, s: Sched, w: nat, c: Choice, v: nat, id: Id)
    requires w < |s.ws| && s.ws[w].pc.Running? && !c.suspends && v < |s.ws| && With(s.ws[v], id)
    ensures With(EndBody(p, s, w, s.ws[w].pc, c).ws[v], id)
  {
    hide Finish, Release, IsCoro, Forks, SlotOf;
  }

  lemma SimpleKeepsWith(p: Plan, s: Sched, c: Choice, v: nat, id: Id)
    requires c.worker < |s.ws| && v < |s.ws| && With(s.ws[v], id) && id != 0 && c.victim == c.worker
    requires c.worker == v && s.ws[v].pc.Top? ==> s.sched != 0 || s.ws[v].pc.job == 0
    requires !(c.worker == v && s.ws[v].pc.Take? && s.ws[v].pc.job == id)
    requires var pc := s.ws[c.worker].pc;
             pc.Top? || pc.Steal? || pc.Left? || pc.Take? || pc.Closing? || pc.Settling? || pc.Dropping?
    ensures v < |Step(p, s, c).ws| && With(Step(p, s, c).ws[v], id)
  {
    hide Begin, Drop, SlotOf;
  }

  lemma WorkerWith(p: Plan, s: Sched, c: Choice, v: nat, id: Id)
    requires c.worker < |s.ws| && v < |s.ws| && With(s.ws[v], id) && id != 0 && c.victim == c.worker && !c.suspends
    requires c.worker == v && s.ws[v].pc.Top? ==> s.sched != 0 || s.ws[v].pc.job == 0
    requires !(c.worker == v && s.ws[v].pc.Take? && s.ws[v].pc.job == id)
    ensures v < |Step(p, s, c).ws| && With(Step(p, s, c).ws[v], id)
  {
    hide Release, Begin, Drop, SlotOf, PopLocalJob, EndBody, Publish, Post, Flush, Hand, AfterFree, With;
    StepKeepsThreads(p, s, c);
    match s.ws[c.worker].pc
    case Seek => if c.worker == v { SeekKeepsWith(s.ws[v], s.runnables, c.preferRequired, |s.ws|, id); }
    case Running(_, _, _) => EndBodyKeepsWith(p, s, c.worker, c, v, id);
    case Publishing(_, _, _, _, _) => PublishKeepsWith(s, c.worker, v, id);
    case Posting(_, _, _, _) => PostKeepsWith(s, c.worker, v, id);
    case Flushing(_, _, _, _) => FlushKeepsWith(s, c.worker, v, id);
    case Releasing(_, _, _) => AfterFreeKeepsWith(p, s, c.worker, v, id);
    case Handing(_, _, _, _) => HandKeepsWith(s, c.worker, v, id);
    case _ => SimpleKeepsWith(p, s, c, v, id);
  }

  lemma EndBodyNodes(p: Plan, s: Sched, w: nat, c: Choice, id: Id)
    requires w < |s.ws| && s.ws[w].pc.Running? && !c.suspends && id in s.core.jobs
    ensures var jobs := EndBody(p, s, w, s.ws[w].pc, c).core.jobs; id in jobs && jobs[id].node == s.core.jobs[id].node
  {
    hide IsCoro, Forks, SlotOf, Succ;
  }

  // No row changes the node it stands for.
  lemma NodesStay(p: Plan, s: Sched, c: Choice, id: Id)
    requires id in s.core.jobs && id in Step(p, s, c).core.jobs && !c.suspends
    ensures Step(p, s, c).core.jobs[id].node == s.core.jobs[id].node
  {
    hide PopLocalJob, EndBody, Publish, Post, Flush, Hand, Succ;
    if c.worker < |s.ws| {
      match s.ws[c.worker].pc
      case Running(_, _, _) => EndBodyNodes(p, s, c.worker, c, id);
      case Publishing(_, _, _, _, _) => PublishKeepsCore(s, c.worker);
      case Posting(_, _, _, _) => PostKeepsCore(s, c.worker);
      case Flushing(_, _, _, _) => FlushKeepsCore(s, c.worker);
      case Handing(_, _, _, _) => HandKeepsCore(s, c.worker);
      case _ =>
    }
  }

  lemma WithIsLive(p: Plan, s: Sched, v: nat, id: Id)
    requires Inv(p, s) && v < |s.ws| && With(s.ws[v], id) && id != 0
    ensures id in s.core.jobs
  {
    hide CoreInv, Sum, IsReq;
    assert MaestroOk(p, s.core, s.ws[v]);
  }

  lemma TakenIsRun(p: Plan, s: Sched, v: nat)
    requires Inv(p, s) && v < |s.ws| && s.ws[v].pc.Take? && s.ws[v].pc.job in s.core.jobs
    ensures Runs(Step(p, s, Choice(v, v, true, false, 0)), v, s.core.jobs[s.ws[v].pc.job].node)
  {
    hide Inv, Begin;
  }

  lemma WoundHasNothing(s: Sched, v: nat, id: Id)
    requires WoundDown(s) && v < |s.ws| && id != 0
    ensures !With(s.ws[v], id)
  {
    assert Winding(s.ws[v]);
  }

  // A step on the way there: an unfinished state, or the worker's own turn.
  lemma NextForHeld(p: Plan, threads: nat, choices: seq<Choice>, v: nat, id: Id) returns (c: Choice)
    requires Distinct(p) && threads > 0 && id != 0
    requires var s := Run(p, threads, choices); v < |s.ws| && id in s.core.jobs && With(s.ws[v], id)
    requires var s := Run(p, threads, choices); !(s.ws[v].pc.Take? && s.ws[v].pc.job == id)
    ensures var s, s' := Run(p, threads, choices), Run(p, threads, choices + [c]);
            && Remaining(s') < Remaining(s) && v < |s'.ws| && With(s'.ws[v], id)
            && id in s'.core.jobs && s'.core.jobs[id].node == s.core.jobs[id].node
  {
    hide Distinct, Run, Step, Remaining, AllIdle, Inv, With, WoundDown, Ids, TempsOk;
    var s := Run(p, threads, choices);
    RunKeepsInv(p, threads, choices);
    if AllIdle(s) && s.sched == 0 {
      RunKeepsQuiet(p, threads, choices);
      ZeroIsWoundDown(p, s);
      WoundHasNothing(s, v, id);
    }
    c := Progress(p, threads, choices);
    RunOneMore(p, threads, choices, c);
    RunKeepsInv(p, threads, choices + [c]);
    StaysWith(p, s, c, v, id);
    WithIsLive(p, Step(p, s, c), v, id);
    NodesStay(p, s, c, id);
  }

  // Whatever is with a worker in a reachable state can be run by that worker.
  lemma {:induction false} HeldIsRun(p: Plan, threads: nat, choices: seq<Choice>, v: nat, id: Id)
    returns (more: seq<Choice>)
    requires Distinct(p) && threads > 0 && id != 0
    requires var s := Run(p, threads, choices); v < |s.ws| && id in s.core.jobs && With(s.ws[v], id)
    ensures Runs(Run(p, threads, choices + more), v, Run(p, threads, choices).core.jobs[id].node)
    decreases Remaining(Run(p, threads, choices))
  {
    hide Distinct, Run, Step, Remaining, Inv, With, Runs;
    var s := Run(p, threads, choices);
    if s.ws[v].pc.Take? && s.ws[v].pc.job == id {
      RunKeepsInv(p, threads, choices);
      TakenIsRun(p, s, v);
      RunOneMore(p, threads, choices, Choice(v, v, true, false, 0));
      more := [Choice(v, v, true, false, 0)];
    } else {
      var c := NextForHeld(p, threads, choices, v, id);
      var rest := HeldIsRun(p, threads, choices + [c], v, id);
      more := [c] + rest;
      assert choices + more == choices + [c] + rest;
    }
  }

  // The worker that runs a fork takes both entries with it, whatever they require.
  lemma ForkTakesEntries(p: Plan, threads: nat, choices: seq<Choice>, v: nat, f: Id, h: Id) returns (more: seq<Choice>)
    requires Distinct(p) && threads > 0 && Runs(Run(p, threads, choices), v, f) && h in Forks(p, f)
    ensures Runs(Run(p, threads, choices + more), v, h)
  {
    hide Distinct, Run, Step, Inv, With, Runs, Forks;
    var c := Choice(v, v, true, false, 0);
    RunKeepsInv(p, threads, choices);
    RunKeepsInv(p, threads, choices + [c]);
    RunOneMore(p, threads, choices, c);
    EntryIsHeld(p, Run(p, threads, choices), v, f, h);
    var rest := HeldIsRun(p, threads, choices + [c], v, h);
    more := [c] + rest;
    assert choices + more == choices + [c] + rest;
  }

  lemma EntryIsHeld(p: Plan, s: Sched, v: nat, f: Id, h: Id)
    requires Inv(p, s) && Runs(s, v, f) && h in Forks(p, f)
    ensures var s' := Step(p, s, Choice(v, v, true, false, 0));
            h != 0 && v < |s'.ws| && With(s'.ws[v], h) && h in s'.core.jobs && s'.core.jobs[h].node == h
  {
    hide Sum, Ids, Distinct, QueuesOk, TableInv, Due, Succ, PlacementOf, Forks, IsCoro;
    assert MaestroOk(p, s.core, s.ws[v]);
    ForkIsNoCoro(p, f);
    ForksStay(p, f);
    PlanIds(p);
    assert NodeOk(p, s.core, f) && Waiting(s.core, h);
  }

  lemma ForkIsNoCoro(p: Plan, f: Id)
    requires Distinct(p) && Forks(p, f) != []
    ensures !IsCoro(p, f)
  {
    hide Forks, IsCoro;
    ForksStay(p, f);
    if IsCoro(p, f) {
      CoroIsLeaf(p, f);
    }
  }

  lemma PostedRow(p: Plan)
    requires Distinct(p)
    ensures Head(p) != 0 && Head(p) in Posted(p).jobs && Posted(p).jobs[Head(p)].node == Head(p)
  {
    hide PlacementOf, Succ, Predecessors;
    PlanIds(p);
  }

  lemma LaunchCore(p: Plan, threads: nat)
    requires threads > 0
    ensures Launch(p, threads).core == Posted(p) && |Launch(p, threads).ws| == threads
    ensures Run(p, threads, []) == Launch(p, threads)
  {
    hide Posted, PlacementOf;
  }

  // A step of worker v, which robs worker u whenever it robs.
  function Robbing(v: nat, u: nat): Choice {
    Choice(v, u, true, false, 0)
  }

  // While v moves, a job in the run queue of u stays there until v takes it.
  lemma StaysQueued(p: Plan, s: Sched, v: nat, u: nat, id: Id)
    requires v < |s.ws| && u < |s.ws| && u != v && id in s.ws[u].run
    ensures var s' := Step(p, s, Robbing(v, u));
            u < |s'.ws| && v < |s'.ws| && (id in s'.ws[u].run || (s'.ws[v].pc.Top? && s'.ws[v].pc.job == id))
  {
    hide Finish, Release, Begin, Drop, IsCoro, Forks, SlotOf, PopLocalJob, EndBody, Publish, Hand, Flush, AfterFree;
    StepKeepsThreads(p, s, Robbing(v, u));
    match s.ws[v].pc
    case Steal => PoppedOrLeft(s.ws[u].run, id);
    case Running(_, _, _) => EndBodyQueues(p, s, v, Robbing(v, u), u, id);
    case Publishing(_, _, _, _, _) => PublishQueues(s, v, u, id);
    case Handing(_, _, _, _) => HandQueues(s, v, u, id);
    case Flushing(_, _, _, _) => FlushQueues(s, v, u, id);
    case Releasing(_, _, _) => AfterFreeQueues(p, s, v, u, id);
    case _ =>
  }

  lemma EndBodyQueues(p: Plan, s: Sched, v: nat, c: Choice, u: nat, id: Id)
    requires v < |s.ws| && u < |s.ws| && u != v && id in s.ws[u].run && s.ws[v].pc.Running? && !c.suspends
    ensures var s' := EndBody(p, s, v, s.ws[v].pc, c); u < |s'.ws| && id in s'.ws[u].run
  {
    hide Finish, Release, IsCoro, Forks, SlotOf;
  }

  lemma PublishQueues(s: Sched, v: nat, u: nat, id: Id)
    requires v < |s.ws| && u < |s.ws| && u != v && id in s.ws[u].run && s.ws[v].pc.Publishing?
    ensures var s' := Publish(s, v, s.ws[v].pc); u < |s'.ws| && id in s'.ws[u].run
  {
    hide IsReq, SlotOf;
  }

  lemma HandQueues(s: Sched, v: nat, u: nat, id: Id)
    requires v < |s.ws| && u < |s.ws| && u != v && id in s.ws[u].run && s.ws[v].pc.Handing?
    ensures var s' := Hand(s, v, s.ws[v].pc); u < |s'.ws| && id in s'.ws[u].run
  {
    hide IsReq, SlotOf;
  }

  lemma FlushQueues(s: Sched, v: nat, u: nat, id: Id)
    requires v < |s.ws| && u < |s.ws| && u != v && id in s.ws[u].run && s.ws[v].pc.Flushing?
    ensures var s' := Flush(s, v, s.ws[v].pc); u < |s'.ws| && id in s'.ws[u].run
  {
    hide IsReq;
  }

  lemma AfterFreeQueues(p: Plan, s: Sched, v: nat, u: nat, id: Id)
    requires v < |s.ws| && u < |s.ws| && u != v && id in s.ws[u].run && s.ws[v].pc.Releasing?
    ensures var s' := AfterFree(p, s, v, s.ws[v].pc); u < |s'.ws| && id in s'.ws[u].run
  {
    hide Release, SlotOf;
  }

  // Worker v turns to the queue it robs.
  predicate TurnsToSteal(s: Sched, s': Sched, v: nat) {
    v < |s.ws| && s.ws[v].pc == Seek && s' == SetPc(s, v, Steal)
  }

  // Worker v goes on: it has less left to do, or turns to the queue it robs.
  lemma RobberStepLess(p: Plan, s: Sched, v: nat, u: nat)
    requires Inv(p, s) && v < |s.ws| && u < |s.ws| && u != v && s.ws[u].run != [] && s.ws[v].pc != Left && s.sched != 0
    requires Unlocked(s)
    ensures var s' := Step(p, s, Robbing(v, u)); TurnsToSteal(s, s', v) || Remaining(s') < Remaining(s)
    ensures s.ws[v].pc == Steal ==> Remaining(Step(p, s, Robbing(v, u))) + 3 == Remaining(s)
  {
    hide CoreInv, Sum, MaestroOk, Remaining, Live, EndBody, Publish, Post, Hand, Flush, AfterFree, Begin, Drop, SlotOf;
    hide PopLocalJob, Inv, Waits, Unlocked;
    var c, s' := Robbing(v, u), Step(p, s, Robbing(v, u));
    UnlockedGoesOn(p, s, c);
    if !Idle(s.ws[v]) {
      BusyStepLess(p, s, c);
    } else if s.ws[v].pc == Steal {
      LastIsNamed(p, s, u);
      TheftLess(s, s', v, u);
    } else if s.ws[v].pc.Top? {
      OneLess(s, s', v, s'.ws[v]);
    } else {
      MaestroIs(p, s, v);
      PopsOrNot(p, s.core, s.ws[v], s.runnables);
      if PopLocalJob(s.ws[v], s.runnables, true).job != 0 {
        OneLess(s, s', v, s'.ws[v]);
      }
    }
  }

  lemma LastIsNamed(p: Plan, s: Sched, u: nat)
    requires Inv(p, s) && u < |s.ws| && s.ws[u].run != []
    ensures LastOf(s.ws[u].run) != 0
  {
    hide Inv, PcOk;
    MaestroIs(p, s, u);
    LastSplits(s.ws[u].run);
  }

  lemma PopsOrNot(p: Plan, c: Core, m: Maestro, runnables: int)
    requires MaestroOk(p, c, m) && m.pc == Seek
    ensures var r := PopLocalJob(m, runnables, true);
            if r.job == 0 then r.rest == m else Weight(r.rest.(pc := Top(r.job, r.req))) < Weight(m)
  {
    hide PcOk, IsReq;
    if m.run != [] {
      LastSplits(m.run);
    }
    if m.required != [] {
      LastSplits(m.required);
    }
  }

  lemma TheftLess(s: Sched, s': Sched, v: nat, u: nat)
    requires v < |s.ws| && u < |s.ws| && u != v && s.ws[u].run != [] && s.ws[v].pc == Steal && s'.core == s.core
    requires LastOf(s.ws[u].run) != 0
    requires s'.ws
      == s.ws[u := s.ws[u].(run := PopLast(s.ws[u].run))][v := s.ws[v].(pc := Top(LastOf(s.ws[u].run), false))]
    ensures Remaining(s') + 3 == Remaining(s)
  {
    hide Live, Weights;
    var robbed := s.ws[u].(run := PopLast(s.ws[u].run));
    WeightsUpdate(s.ws, u, robbed);
    WeightsUpdate(s.ws[u := robbed], v, s'.ws[v]);
  }

  lemma TurnWeighs(s: Sched, s': Sched, v: nat)
    requires TurnsToSteal(s, s', v)
    ensures Remaining(s') == Remaining(s) + 2
  {
    hide Live, Weights;
    WeightsUpdate(s.ws, v, s'.ws[v]);
  }

  // While something is queued at u, the counter is not zero and no other worker has left.
  lemma QueuedMeansWork(p: Plan, threads: nat, choices: seq<Choice>, v: nat, u: nat, id: Id)
    requires Distinct(p) && threads > 0
    requires var s := Run(p, threads, choices); v < |s.ws| && u < |s.ws| && id in s.ws[u].run
    ensures var s := Run(p, threads, choices); Inv(p, s) && s.sched != 0 && s.ws[v].pc != Left && id != 0
  {
    hide Distinct, Run, CoreInv, Sum, PcOk;
    var s := Run(p, threads, choices);
    RunKeepsInv(p, threads, choices);
    RunKeepsQuiet(p, threads, choices);
    BusyMeansCounted(p, s, u);
    PcSchedIsPositive(s.ws[u].pc);
    MaestroIs(p, s, u);
    assert WoundDown(s) ==> Winding(s.ws[u]);
  }

  // One move of worker v, which is the robber of u.
  lemma RobberMoves(p: Plan, threads: nat, choices: seq<Choice>, v: nat, u: nat, id: Id)
    requires Distinct(p) && threads > 0 && u != v
    requires var s := Run(p, threads, choices); v < |s.ws| && u < |s.ws| && id in s.ws[u].run && id in s.core.jobs
    requires Unlocked(Run(p, threads, choices))
    ensures var s, s' := Run(p, threads, choices), Run(p, threads, choices + [Robbing(v, u)]);
            && (TurnsToSteal(s, s', v) || Remaining(s') < Remaining(s))
            && (s.ws[v].pc == Steal ==> Remaining(s') + 3 == Remaining(s))
            && v < |s'.ws| && u < |s'.ws| && (id in s'.ws[u].run || With(s'.ws[v], id))
            && id in s'.core.jobs && s'.core.jobs[id].node == s.core.jobs[id].node
  {
    hide Distinct, Run, Step, Remaining, TurnsToSteal, Inv, Unlocked;
    var s, c := Run(p, threads, choices), Robbing(v, u);
    var s' := Step(p, s, c);
    QueuedMeansWork(p, threads, choices, v, u, id);
    RunOneMore(p, threads, choices, c);
    RunKeepsInv(p, threads, choices + [c]);
    RobberStepLess(p, s, v, u);
    StaysQueued(p, s, v, u, id);
    WithIsLive(p, s', if id in s'.ws[u].run then u else v, id);
    NodesStay(p, s, c, id);
  }

  // A worker that holds its queues locked moves on, and what is queued stays queued.
  lemma FlusherMoves(p: Plan, threads: nat, choices: seq<Choice>, x: nat, u: nat, id: Id)
    requires Distinct(p) && threads > 0
    requires var s := Run(p, threads, choices);
             x < |s.ws| && s.ws[x].pc.Flushing? && u < |s.ws| && id in s.ws[u].run && id in s.core.jobs
    ensures var s, s' := Run(p, threads, choices), Run(p, threads, choices + [Choice(x, x, true, false, 0)]);
            && Remaining(s') < Remaining(s) && |s'.ws| == |s.ws| && id in s'.ws[u].run
            && id in s'.core.jobs && s'.core.jobs[id].node == s.core.jobs[id].node
  {
    hide Distinct, Run, Remaining, Inv, Flush;
    var s, c := Run(p, threads, choices), Choice(x, x, true, false, 0);
    RunKeepsInv(p, threads, choices);
    RunKeepsInv(p, threads, choices + [c]);
    RunOneMore(p, threads, choices, c);
    FlusherStepLess(p, s, c);
    FlushKeepsCore(s, x);
    FlushKeepsQueue(s, x, u, id);
  }

  lemma FlushKeepsQueue(s: Sched, x: nat, u: nat, id: Id)
    requires x < |s.ws| && s.ws[x].pc.Flushing? && u < |s.ws| && id in s.ws[u].run
    ensures var s' := Flush(s, x, s.ws[x].pc); u < |s'.ws| && id in s'.ws[u].run
  {
    hide IsReq;
  }

  // Whatever waits in a run queue in a reachable state can be run by every worker.
  lemma {:induction false} QueuedAnywhere(p: Plan, threads: nat, choices: seq<Choice>, v: nat, u: nat, id: Id)
    returns (more: seq<Choice>)
    requires Distinct(p) && threads > 0 && id != 0
    requires var s := Run(p, threads, choices); v < |s.ws| && u < |s.ws| && id in s.core.jobs
    requires var s := Run(p, threads, choices); id in s.ws[u].run || With(s.ws[v], id)
    ensures Runs(Run(p, threads, choices + more), v, Run(p, threads, choices).core.jobs[id].node)
    decreases Remaining(Run(p, threads, choices))
  {
    hide Distinct, Run, Step, Remaining, Inv, With, Runs, TurnsToSteal;
    var s := Run(p, threads, choices);
    if With(s.ws[v], id) || u == v {
      QueuedIsHeld(s, v, u, id);
      more := HeldIsRun(p, threads, choices, v, id);
    } else if x :| 0 <= x < |s.ws| && s.ws[x].pc.Flushing? {
      var c := Choice(x, x, true, false, 0);
      FlusherMoves(p, threads, choices, x, u, id);
      var rest := QueuedAnywhere(p, threads, choices + [c], v, u, id);
      more := [c] + rest;
      assert choices + more == choices + [c] + rest;
    } else {
      var c := Robbing(v, u);
      RobberMoves(p, threads, choices, v, u, id);
      var s1 := Run(p, threads, choices + [c]);
      if Remaining(s1) < Remaining(s) || With(s1.ws[v], id) {
        var rest;
        if Remaining(s1) < Remaining(s) {
          rest := QueuedAnywhere(p, threads, choices + [c], v, u, id);
        } else {
          rest := HeldIsRun(p, threads, choices + [c], v, id);
        }
        more := [c] + rest;
        assert choices + more == choices + [c] + rest;
      } else {
        TurnWeighs(s, s1, v);
        AtSteal(s, s1, v);
        RobberMoves(p, threads, choices + [c], v, u, id);
        var rest := QueuedAnywhere(p, threads, choices + [c] + [c], v, u, id);
        more := [c, c] + rest;
        assert choices + more == choices + [c] + [c] + rest;
      }
    }
  }

  lemma AtSteal(s: Sched, s': Sched, v: nat)
    requires TurnsToSteal(s, s', v)
    ensures v < |s'.ws| && s'.ws[v].pc == Steal && (Unlocked(s) ==> Unlocked(s'))
  {
  }

  lemma QueuedIsHeld(s: Sched, v: nat, u: nat, id: Id)
    requires v < |s.ws| && u < |s.ws| && (id in s.ws[u].run || With(s.ws[v], id))
    ensures u == v ==> With(s.ws[v], id)
  {
  }

  lemma HeadIsQueued(p: Plan, threads: nat)
    requires threads > 0 && !PlacementOf(p, Head(p)).IsRequired()
    ensures Head(p) in Launch(p, threads).ws[Target(PlacementOf(p, Head(p)), 0, threads)].run
  {
    hide Posted, PlacementOf;
  }

  // The head of a plan, when it requires nobody, can be run by every worker.
  lemma HeadAnywhere(p: Plan, threads: nat, v: nat) returns (choices: seq<Choice>)
    requires Distinct(p) && v < threads && !PlacementOf(p, Head(p)).IsRequired()
    ensures Runs(Run(p, threads, choices), v, Head(p))
  {
    hide Distinct, Step, Inv, With, Runs, PlacementOf, Head, Target, Launch, Posted;
    PostedRow(p);
    LaunchCore(p, threads);
    HeadIsQueued(p, threads);
    choices := QueuedAnywhere(p, threads, [], v, Target(PlacementOf(p, Head(p)), 0, threads), Head(p));
    assert [] + choices == choices;
  }

  // A way from the head of the plan through forks alone.
  predicate ForkWay(p: Plan, way: seq<Id>) {
    && |way| > 0 && way[0] == Head(p)
    && forall i :: 0 <= i < |way| - 1 ==> way[i + 1] in Forks(p, way[i])
  }

  // Whatever forks alone lead to from the head can be run by every worker, whatever it requires.
  lemma {:induction false} ForkedAnywhere(p: Plan, threads: nat, way: seq<Id>, v: nat) returns (choices: seq<Choice>)
    requires Distinct(p) && v < threads && ForkWay(p, way) && !PlacementOf(p, Head(p)).IsRequired()
    ensures Runs(Run(p, threads, choices), v, way[|way| - 1])
    decreases |way|
  {
    hide Distinct, Run, Runs, PlacementOf, Forks;
    if |way| == 1 {
      choices := HeadAnywhere(p, threads, v);
    } else {
      var front := way[..|way| - 1];
      var before := ForkedAnywhere(p, threads, front, v);
      var more := ForkTakesEntries(p, threads, before, v, front[|front| - 1], way[|way| - 1]);
      choices := before + more;
    }
  }

  // A concrete case, posted as a tree with the terminal job 4: with two threads, job 1 requires worker 0 and is run by
  // worker 1, which has robbed the fork.
  lemma RequirementIsLost() returns (choices: seq<Choice>)
    ensures var p := Then(Both(Job(1, Require(0), false), Job(2, Any, false), 3), Job(4, Any, false));
            PlacementOf(p, 1) == Require(0) && Runs(Run(p, 2, choices), 1, 1)
  {
    hide Run, Runs;
    var p := Then(Both(Job(1, Require(0), false), Job(2, Any, false), 3), Job(4, Any, false));
    choices := ForkedAnywhere(p, 2, [3, 1], 1);
  }

  ghost predicate CanRun(p: Plan, threads: nat, n: Id, v: nat)
    requires threads > 0
  {
    exists choices :: Runs(Run(p, threads, choices), v, n)
  }

  ghost predicate OnlyRunBy(p: Plan, threads: nat, n: Id, w: nat)
    requires threads > 0
  {
    forall v :: CanRun(p, threads, n, v) ==> v == w
  }

  // For what forks alone lead to from the head, no requirement is kept in all runs unless there is only one worker.
  lemma RequirementIsKeptWhen(p: Plan, threads: nat, way: seq<Id>, w: nat)
    requires Distinct(p) && w < threads && ForkWay(p, way) && !PlacementOf(p, Head(p)).IsRequired()
    ensures OnlyRunBy(p, threads, way[|way| - 1], w) <==> threads == 1
  {
    hide Distinct, Run, Runs, PlacementOf, Forks, Inv;
    var n := way[|way| - 1];
    if threads == 1 {
      forall v | CanRun(p, threads, n, v)
        ensures v == w
      {
        var choices :| Runs(Run(p, threads, choices), v, n);
        RunsIsWorker(p, threads, choices, v, n);
      }
    } else {
      var v := if w == 0 then 1 else 0;
      var choices := ForkedAnywhere(p, threads, way, v);
      assert CanRun(p, threads, n, v);
    }
  }

  lemma RunsIsWorker(p: Plan, threads: nat, choices: seq<Choice>, v: nat, n: Id)
    requires Distinct(p) && threads > 0 && Runs(Run(p, threads, choices), v, n)
    ensures v < threads
  {
    hide Run, Inv, Distinct;
    RunKeepsInv(p, threads, choices);
  }

  // A required entry of a fork can be run by exactly the workers that can run the fork; a coroutine, once it has been
  // suspended, by the worker it requires as well.
  lemma EntryRunsWhereForkRuns(p: Plan, threads: nat, f: Id, h: Id, v: nat)
    requires Distinct(p) && v < threads && h in Forks(p, f) && PlacementOf(p, h).IsRequired()
    ensures CanRun(p, threads, f, v) ==> CanRun(p, threads, h, v)
    ensures !(IsCoro(p, h) && v == Target(PlacementOf(p, h), 0, threads)) ==>
      (CanRun(p, threads, h, v) <==> CanRun(p, threads, f, v))
  {
    hide Distinct, Run, Runs, Forks, IsCoro, PlacementOf, Target, HomeSet;
    if choices :| Runs(Run(p, threads, choices), v, f) {
      var more := ForkTakesEntries(p, threads, choices, v, f, h);
    }
    if !CanRun(p, threads, f, v) && !(IsCoro(p, h) && v == Target(PlacementOf(p, h), 0, threads)) {
      EntryIsSettled(p, threads, f, h, v);
      NeverRuns(p, threads, {h}, {f}, h, v);
    }
  }

  // A worker runs nothing that is settled at the others, if it can run none of what that rests on.
  lemma NeverRuns(p: Plan, threads: nat, bound: set<Id>, assumed: set<Id>, n: Id, v: nat)
    requires Distinct(p) && v < threads && HomeSet(p, bound, assumed, AllBut(threads, v), threads) && n in bound
    requires forall m :: m in assumed ==> !CanRun(p, threads, m, v)
    ensures !CanRun(p, threads, n, v)
  {
    hide Distinct, Run, HomeSet, AtHome;
    var k := Watch(bound, assumed, AllBut(threads, v));
    forall choices
      ensures !Runs(Run(p, threads, choices), v, n)
    {
      forall i | 0 <= i <= |choices|
        ensures Obeys(Run(p, threads, choices[..i]), k)
      {
        NotRunning(p, threads, k, v, choices[..i]);
      }
      RunKeepsHome(p, threads, choices, k);
      AwayFrom(Run(p, threads, choices), k, v, n);
    }
  }

  predicate Differs(u: nat, v: nat) {
    u != v
  }

  function AllBut(threads: nat, v: nat): set<nat> {
    set u: nat | u < threads && Differs(u, v)
  }

  lemma EntryIsSettled(p: Plan, threads: nat, f: Id, h: Id, v: nat)
    requires Distinct(p) && v < threads && h in Forks(p, f) && PlacementOf(p, h).IsRequired()
    requires !(IsCoro(p, h) && v == Target(PlacementOf(p, h), 0, threads))
    ensures HomeSet(p, {h}, {f}, AllBut(threads, v), threads)
  {
    hide Distinct, Forks, IsCoro, PlacementOf, Ids;
    ForksStay(p, f);
    forall g | h in Forks(p, g)
      ensures g == f
    {
      ForkedOnce(p, f, h, g);
    }
  }

  lemma NotRunning(p: Plan, threads: nat, k: Watch, v: nat, choices: seq<Choice>)
    requires Distinct(p) && v < threads && k.home == AllBut(threads, v)
    requires forall m :: m in k.assumed ==> !CanRun(p, threads, m, v)
    ensures Obeys(Run(p, threads, choices), k)
  {
    hide Distinct, Run, Inv;
    RunKeepsInv(p, threads, choices);
    var s := Run(p, threads, choices);
    if v < |s.ws| && s.ws[v].pc.Running? {
      assert Runs(s, v, s.ws[v].pc.node);
    }
  }

  lemma AwayFrom(s: Sched, k: Watch, v: nat, n: Id)
    requires AtHome(s, k) && v !in k.home && n in k.bound
    ensures !Runs(s, v, n)
  {
    assert v < |s.ws| ==> WorkerHome(s, v, k);
  }
}
