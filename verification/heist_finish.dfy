// Every state a scheduler can reach can be driven on until everything has run.

module HeistFinish {
  import opened HeistPlan
  import opened HeistCore
  import opened HeistLoop
  import opened HeistRuns

  // The jobs that have not been begun.
  function Live(c: Core): set<Id> {
    set id | id in c.jobs && c.jobs[id].work
  }

  // How many steps a worker has left before it is idle, counting the queue operations it will do.
  function PcWeight(pc: Pc): nat {
    match pc
    case Left => 0
    case Seek => 0
    case Top(job, _) => if job == 0 then 1 else 2
    case Steal => 2
    case Take(_, _) => 1
    case Dropping(_, _) => 2
    case Settling(_, _, _) => 3
    case Handing(_, _, stage, _) => if stage == Pushed then 4 else if stage == Counted then 8 else 9
    case Releasing(_, _, _) => 10
    case Flushing(_, _, _, moving) => if moving == 0 then 11 else 15
    case Closing(_, _, _, _) => 12
    case Publishing(_, _, _, _, stage) => if stage == Pushed then 13 else if stage == Counted then 17 else 18
    case Posting(_, _, _, ready) => if ready then 13 else 14
    case Running(_, _, _) => 23
  }

  function Weight(m: Maestro): nat {
    3 * (|m.run| + |m.required|) + 5 * |m.temp| + PcWeight(m.pc)
  }

  function Weights(ws: seq<Maestro>): nat {
    if ws == [] then 0 else Weights(ws[..|ws| - 1]) + Weight(ws[|ws| - 1])
  }

  // The work that remains in a state, if no coroutine is suspended again.
  function Remaining(s: Sched): nat {
    25 * |Live(s.core)| + Weights(s.ws)
  }

  lemma {:induction false} WeightsUpdate(ws: seq<Maestro>, w: nat, m: Maestro)
    requires w < |ws|
    ensures Weights(ws[w := m]) == Weights(ws) - Weight(ws[w]) + Weight(m)
  {
    hide Weight;
    var last := |ws| - 1;
    if w == last {
      assert ws[w := m][..last] == ws[..last];
    } else {
      WeightsUpdate(ws[..last], w, m);
      assert ws[w := m][..last] == ws[..last][w := m];
    }
  }

  // One worker changes, and no job comes to life.
  lemma OneLess(s: Sched, s': Sched, w: nat, m: Maestro)
    requires w < |s.ws| && s'.ws == s.ws[w := m] && Live(s'.core) <= Live(s.core) && Weight(m) < Weight(s.ws[w])
    ensures Remaining(s') < Remaining(s)
  {
    hide Live, Weight, Weights;
    WeightsUpdate(s.ws, w, m);
    Fewer(Live(s'.core), Live(s.core));
  }

  lemma Fewer(a: set<Id>, b: set<Id>)
    requires a <= b
    ensures |a| <= |b|
  {
    assert b == a + (b - a);
  }

  lemma PushWeighs(s: Sched, id: Id, default: nat)
    requires |s.ws| > 0
    ensures Remaining(Push(s, id, default)) == Remaining(s) + 3
  {
    hide Live, Weights;
    var t := Target(SlotOf(s.core, id).placement, default, |s.ws|);
    WeightsUpdate(s.ws, t, Enqueue(s.ws[t], id, IsReq(s.core, id)));
  }

  // The same when, in addition, one job goes to a queue.
  lemma OneLessPushed(s: Sched, s1: Sched, w: nat, m: Maestro, id: Id, default: nat)
    requires w < |s.ws| && s1.ws == s.ws[w := m] && Live(s1.core) <= Live(s.core) && Weight(m) + 3 < Weight(s.ws[w])
    ensures Remaining(Push(s1, id, default)) < Remaining(s)
  {
    hide Live, Weight, Weights, Push;
    WeightsUpdate(s.ws, w, m);
    Fewer(Live(s1.core), Live(s.core));
    PushWeighs(s1, id, default);
  }

  lemma FinishLives(p: Plan, c: Core, n: Id)
    ensures Live(Finish(p, c, n)) == Live(c)
  {
  }

  lemma ReleaseLives(p: Plan, c: Core, n: Id)
    ensures Live(Release(p, c, n)) <= Live(c)
  {
    hide Succ;
  }

  lemma DropLives(c: Core, id: Id)
    ensures Live(Drop(c, id)) <= Live(c)
  {
  }

  lemma BeginLives(c: Core, id: Id)
    requires id in c.jobs && c.jobs[id].node in c.runs && c.jobs[id].work
    ensures |Live(Begin(c, id))| < |Live(c)|
  {
    assert id in Live(c) && Live(Begin(c, id)) == Live(c) - {id};
  }

  lemma ForksAreFew(p: Plan, n: Id)
    requires Distinct(p)
    ensures |Forks(p, n)| <= 2
  {
    ForksStay(p, n);
  }

  // Ending a body without suspending it.
  lemma EndBodyLess(p: Plan, s: Sched, w: nat, c: Choice)
    requires Distinct(p) && w < |s.ws| && s.ws[w].pc.Running? && !c.suspends
    ensures Remaining(EndBody(p, s, w, s.ws[w].pc, c)) < Remaining(s)
  {
    hide Finish, Release, IsCoro, Forks, Live, SlotOf, Succ, Remaining, Distinct;
    var n := s.ws[w].pc.node;
    FinishLives(p, s.core, n);
    ReleaseLives(p, Finish(p, s.core, n), n);
    ForksAreFew(p, n);
    var s' := EndBody(p, s, w, s.ws[w].pc, c);
    OneLess(s, s', w, s'.ws[w]);
  }

  lemma PublishLess(s: Sched, w: nat)
    requires w < |s.ws| && s.ws[w].pc.Publishing?
    ensures Remaining(Publish(s, w, s.ws[w].pc)) < Remaining(s)
  {
    hide Live, SlotOf, Remaining, Push, IsReq;
    var pc, m := s.ws[w].pc, s.ws[w];
    if pc.stage == Counted {
      var next := if IsReq(s.core, pc.next) then m.(cur := 0, pc := Closing(pc.job, pc.node, pc.req, false))
                  else m.(pc := Publishing(pc.job, pc.node, pc.req, pc.next, Pushed));
      OneLessPushed(s, s.(ws := s.ws[w := next]), w, next, pc.next, 0);
    } else {
      var s' := Publish(s, w, pc);
      OneLess(s, s', w, s'.ws[w]);
    }
  }

  lemma HandLess(s: Sched, w: nat)
    requires w < |s.ws| && s.ws[w].pc.Handing?
    ensures Remaining(Hand(s, w, s.ws[w].pc)) < Remaining(s)
  {
    hide Live, SlotOf, Remaining, Push, IsReq;
    var pc, m := s.ws[w].pc, s.ws[w];
    if pc.stage == Counted && !pc.inline {
      var next := m.(pc := if IsReq(s.core, pc.next) then Settling(pc.req, 0, false)
        else Handing(pc.req, pc.next, Pushed, false));
      OneLessPushed(s, s.(ws := s.ws[w := next]), w, next, pc.next, 0);
    } else {
      var s' := Hand(s, w, pc);
      OneLess(s, s', w, s'.ws[w]);
    }
  }

  lemma FlushLess(s: Sched, w: nat)
    requires w < |s.ws| && s.ws[w].pc.Flushing?
    ensures Remaining(Flush(s, w, s.ws[w].pc)) < Remaining(s)
  {
    hide Live, SlotOf, Remaining, IsReq;
    var s' := Flush(s, w, s.ws[w].pc);
    OneLess(s, s', w, s'.ws[w]);
  }

  lemma AfterFreeLess(p: Plan, s: Sched, w: nat)
    requires w < |s.ws| && s.ws[w].pc.Releasing?
    ensures Remaining(AfterFree(p, s, w, s.ws[w].pc)) < Remaining(s)
  {
    hide Live, SlotOf, Remaining, Release;
    ReleaseLives(p, s.core, s.ws[w].pc.node);
    var s' := AfterFree(p, s, w, s.ws[w].pc);
    OneLess(s, s', w, s'.ws[w]);
  }

  lemma TakeLess(p: Plan, s: Sched, c: Choice)
    requires !Waits(p, s, c) && Inv(p, s) && c.worker < |s.ws| && s.ws[c.worker].pc.Take?
    ensures Remaining(Step(p, s, c)) < Remaining(s)
  {
    hide Inv, Live, Begin, Weights;
    var w := c.worker;
    TakenIsPlanned(p, s, w);
    BeginLives(s.core, s.ws[w].pc.job);
    WeightsUpdate(s.ws, w, Step(p, s, c).ws[w]);
  }

  lemma TakenIsPlanned(p: Plan, s: Sched, w: nat)
    requires Inv(p, s) && w < |s.ws| && s.ws[w].pc.Take?
    ensures var c, job := s.core, s.ws[w].pc.job; job in c.jobs && c.jobs[job].work && c.jobs[job].node in c.runs
  {
    hide Sum, Ids, Distinct, QueuesOk, PlacementOf, Succ, Due;
    var c, job := s.core, s.ws[w].pc.job;
    assert MaestroOk(p, c, s.ws[w]);
    assert SlotOk(p, c, job) && CarrierOk(p, c, c.jobs[job].node) && NodeOk(p, c, c.jobs[job].node);
  }

  lemma PlanIsDistinct(p: Plan, s: Sched)
    requires Inv(p, s)
    ensures Distinct(p)
  {
    hide Sum, TableInv, PlanInv, MaestroOk, Distinct;
  }

  // While nobody holds queues locked, nobody waits.
  predicate Unlocked(s: Sched) {
    forall t :: 0 <= t < |s.ws| ==> !s.ws[t].pc.Flushing?
  }

  lemma UnlockedGoesOn(p: Plan, s: Sched, c: Choice)
    requires Unlocked(s)
    ensures !Waits(p, s, c)
  {
    hide Suspends, PlacementOf, SlotOf;
  }

  // A worker that is not idle leaves less to do when it moves on.
  lemma BusyStepLess(p: Plan, s: Sched, c: Choice)
    requires Inv(p, s) && c.worker < |s.ws| && !Idle(s.ws[c.worker]) && !c.suspends && !Waits(p, s, c)
    ensures Remaining(Step(p, s, c)) < Remaining(s)
  {
    hide CoreInv, Sum, MaestroOk, EndBody, Publish, Flush, AfterFree, Hand, Begin, Drop, Remaining, Live, Waits;
    var w, s' := c.worker, Step(p, s, c);
    match s.ws[w].pc
    case Top(_, _) =>
      BusyMeansCounted(p, s, w);
      OneLess(s, s', w, s'.ws[w]);
    case Take(_, _) => TakeLess(p, s, c);
    case Running(_, _, _) =>
      PlanIsDistinct(p, s);
      EndBodyLess(p, s, w, c);
    case Publishing(_, _, _, _, _) => PublishLess(s, w);
    case Posting(_, _, _, _) => OneLess(s, s', w, s'.ws[w]);
    case Closing(job, _, _, _) =>
      DropLives(s.core, job);
      OneLess(s, s', w, s'.ws[w]);
    case Flushing(_, _, _, _) => FlushLess(s, w);
    case Releasing(_, _, _) => AfterFreeLess(p, s, w);
    case Handing(_, _, _, _) => HandLess(s, w);
    case Settling(_, _, _) => OneLess(s, s', w, s'.ws[w]);
    case Dropping(_, _) => OneLess(s, s', w, s'.ws[w]);
  }

  // A worker that holds its queues locked never waits.
  lemma FlusherStepLess(p: Plan, s: Sched, c: Choice)
    requires Inv(p, s) && c.worker < |s.ws| && s.ws[c.worker].pc.Flushing? && !c.suspends
    ensures !Waits(p, s, c) && Remaining(Step(p, s, c)) < Remaining(s)
  {
    hide Inv, Remaining, Step;
    BusyStepLess(p, s, c);
  }

  // An idle worker that finds a job in its own queues gets there in a few steps.
  lemma IdleStepLess(p: Plan, s: Sched, w: nat)
    requires w < |s.ws| && Idle(s.ws[w]) && s.ws[w].pc != Left && s.sched != 0
    requires PopLocalJob(s.ws[w], s.runnables, true).job != 0
    ensures Remaining(Step(p, s, Choice(w, w, true, false, 0))) < Remaining(s)
  {
    hide Live, Remaining;
    var s' := Step(p, s, Choice(w, w, true, false, 0));
    OneLess(s, s', w, s'.ws[w]);
  }

  predicate AllIdle(s: Sched) {
    forall w :: 0 <= w < |s.ws| ==> Idle(s.ws[w])
  }

  // Every reachable state that is not finished has a step without a suspension or a theft that leaves less to do.
  lemma Progress(p: Plan, threads: nat, choices: seq<Choice>) returns (c: Choice)
    requires Distinct(p) && threads > 0
    requires var s := Run(p, threads, choices); !(AllIdle(s) && s.sched == 0)
    ensures var s := Run(p, threads, choices);
            c.worker < |s.ws| && c.victim == c.worker && !c.suspends && Remaining(Step(p, s, c)) < Remaining(s)
  {
    hide Distinct, Run, Inv, Remaining, Idle, Step, PopLocalJob, Waits;
    var s := Run(p, threads, choices);
    RunKeepsInv(p, threads, choices);
    if w :| 0 <= w < |s.ws| && s.ws[w].pc.Flushing? {
      c := Choice(w, w, true, false, 0);
      FlusherStepLess(p, s, c);
    } else if w :| 0 <= w < |s.ws| && !Idle(s.ws[w]) {
      c := Choice(w, w, true, false, 0);
      UnlockedGoesOn(p, s, c);
      BusyStepLess(p, s, c);
    } else {
      var w := SomeoneCanPop(p, threads, choices);
      c := Choice(w, w, true, false, 0);
      IdleStepLess(p, s, w);
    }
  }

  // No reachable state is stuck: whatever has been chosen so far, the run can go on until everything has run.
  lemma {:induction false} CompletionIsReachable(p: Plan, threads: nat, choices: seq<Choice>)
    returns (more: seq<Choice>)
    requires Distinct(p) && threads > 0
    ensures var s := Run(p, threads, choices + more); AllIdle(s) && s.sched == 0 && s.core.done == Ids(p)
    decreases Remaining(Run(p, threads, choices))
  {
    hide Distinct, Step, Remaining, Idle, Ids;
    var s := Run(p, threads, choices);
    if AllIdle(s) && s.sched == 0 {
      more := [];
      assert choices + more == choices;
      ZeroMeansComplete(p, threads, choices, []);
    } else {
      var c := Progress(p, threads, choices);
      assert (choices + [c])[..|choices|] == choices;
      var rest := CompletionIsReachable(p, threads, choices + [c]);
      more := [c] + rest;
      assert choices + more == choices + [c] + rest;
    }
  }
}
