// Which workers can run which chores.

module HeistWhere {
  import opened HeistPlacement
  import opened HeistPlan
  import opened HeistCore
  import opened HeistLoop
  import opened HeistRuns
  import opened HeistFinish
  import opened HeistHome
  import opened HeistForks

  // Only the end of a body in execution makes a node done.
  lemma DoneIsEnded(p: Plan, s: Sched, c: Choice, n: Id)
    requires n in Step(p, s, c).core.done && n !in s.core.done
    ensures Runs(s, c.worker, n)
  {
    hide EndBody, Publish, Post, Flush, Hand, AfterFree, PopLocalJob, SlotOf;
    if c.worker < |s.ws| {
      match s.ws[c.worker].pc
      case Running(_, _, _) => EndBodyEnds(p, s, c.worker, c, n);
      case Publishing(_, _, _, _, _) => PublishKeepsCore(s, c.worker);
      case Posting(_, _, _, _) => PostKeepsCore(s, c.worker);
      case Flushing(_, _, _, _) => FlushKeepsCore(s, c.worker);
      case Handing(_, _, _, _) => HandKeepsCore(s, c.worker);
      case Releasing(_, _, _) => AfterFreeEnds(p, s, c.worker);
      case _ =>
    }
  }

  lemma EndBodyEnds(p: Plan, s: Sched, w: nat, c: Choice, n: Id)
    requires w < |s.ws| && s.ws[w].pc.Running?
    ensures n in EndBody(p, s, w, s.ws[w].pc, c).core.done ==> n in s.core.done || n == s.ws[w].pc.node
  {
    hide IsCoro, Forks, SlotOf, Succ, PlacementOf;
  }

  lemma AfterFreeEnds(p: Plan, s: Sched, w: nat)
    requires w < |s.ws| && s.ws[w].pc.Releasing?
    ensures AfterFree(p, s, w, s.ws[w].pc).core.done == s.core.done
  {
    hide SlotOf, Succ;
  }

  lemma {:induction false} DoneWasRun(p: Plan, threads: nat, choices: seq<Choice>, n: Id) returns (i: nat, v: nat)
    requires threads > 0 && n in Run(p, threads, choices).core.done
    ensures i <= |choices| && Runs(Run(p, threads, choices[..i]), v, n)
  {
    hide Step, Posted;
    if choices == [] {
      LaunchCore(p, threads);
      NothingDone(p);
    } else {
      var front, c := choices[..|choices| - 1], choices[|choices| - 1];
      if n in Run(p, threads, front).core.done {
        i, v := DoneWasRun(p, threads, front, n);
        assert choices[..i] == front[..i];
      } else {
        DoneIsEnded(p, Run(p, threads, front), c, n);
        i, v := |front|, c.worker;
        assert choices[..i] == front;
      }
    }
  }

  lemma NothingDone(p: Plan)
    ensures Posted(p).done == {}
  {
  }

  // Every node of the plan is run by some worker in some run.
  lemma NodeIsRun(p: Plan, threads: nat, n: Id) returns (choices: seq<Choice>, v: nat)
    requires Distinct(p) && threads > 0 && n in Ids(p)
    ensures Runs(Run(p, threads, choices), v, n)
  {
    hide Run, Distinct, Ids, Runs;
    var all := CompletionIsReachable(p, threads, []);
    assert [] + all == all;
    var i;
    i, v := DoneWasRun(p, threads, all, n);
    choices := all[..i];
  }

  // A chore that requires a worker, and that no fork starts, can be run by exactly that worker.
  lemma RequiredRunsExactlyAtHome(p: Plan, threads: nat, n: Id, v: nat)
    requires Distinct(p) && v < threads && n in Ids(p) && PlacementOf(p, n).IsRequired() && Unforked(p, n)
    ensures CanRun(p, threads, n, v) <==> v == Target(PlacementOf(p, n), 0, threads)
  {
    hide Run, Distinct, Ids, Runs, PlacementOf, Target, Unforked;
    if choices :| Runs(Run(p, threads, choices), v, n) {
      RequiredRunsAtHome(p, threads, choices, v, n);
    }
    var choices, u := NodeIsRun(p, threads, n);
    RequiredRunsAtHome(p, threads, choices, u, n);
  }

  // An entry on its way from the temp queue to the run queue of its worker.
  predicate Flushed(m: Maestro, h: Id) {
    (h in m.temp && (m.pc.Closing? || m.pc.Flushing?)) || (m.pc.Flushing? && m.pc.moving == h)
  }

  lemma FlushMoves(p: Plan, s: Sched, u: nat, h: Id)
    requires u < |s.ws| && Flushed(s.ws[u], h) && h != 0 && !IsReq(s.core, h)
    ensures var s' := Step(p, s, Choice(u, u, true, false, 0));
            u < |s'.ws| && (Flushed(s'.ws[u], h) || h in s'.ws[u].run)
  {
    hide IsReq, Drop;
    if h in s.ws[u].temp {
      PoppedOrLeft(s.ws[u].temp, h);
    }
  }

  lemma FlushedIsBusy(p: Plan, s: Sched, u: nat, h: Id)
    requires Inv(p, s) && u < |s.ws| && Flushed(s.ws[u], h) && h != 0
    ensures !Idle(s.ws[u]) && h in s.core.jobs
  {
    hide CoreInv, Sum, IsReq;
    MaestroIs(p, s, u);
  }

  lemma FlushedGoesOn(p: Plan, s: Sched, c: Choice, h: Id)
    requires c.worker < |s.ws| && Flushed(s.ws[c.worker], h)
    ensures !Waits(p, s, c)
  {
  }

  // From one state to another, only workers that hold locks have moved, and no table has changed.
  predicate OnlyFlushed(s: Sched, s': Sched) {
    s'.core == s.core && |s'.ws| == |s.ws|
    && forall u :: 0 <= u < |s.ws| && !s.ws[u].pc.Flushing? ==> s'.ws[u] == s.ws[u]
  }

  // Whatever locks are held can be given back, without anybody else moving.
  lemma {:induction false} AllUnlock(p: Plan, threads: nat, choices: seq<Choice>) returns (more: seq<Choice>)
    requires Distinct(p) && threads > 0
    ensures Unlocked(Run(p, threads, choices + more))
    ensures OnlyFlushed(Run(p, threads, choices), Run(p, threads, choices + more))
    decreases Remaining(Run(p, threads, choices))
  {
    hide Distinct, Run, Step, Remaining, Inv;
    var s := Run(p, threads, choices);
    if x :| 0 <= x < |s.ws| && s.ws[x].pc.Flushing? {
      var c := Choice(x, x, true, false, 0);
      RunKeepsInv(p, threads, choices);
      RunOneMore(p, threads, choices, c);
      FlusherStepLess(p, s, c);
      FlusherOnly(p, s, c);
      var rest := AllUnlock(p, threads, choices + [c]);
      more := [c] + rest;
      assert choices + more == choices + [c] + rest;
    } else {
      more := [];
      assert choices + more == choices;
    }
  }

  lemma FlusherOnly(p: Plan, s: Sched, c: Choice)
    requires c.worker < |s.ws| && s.ws[c.worker].pc.Flushing?
    ensures OnlyFlushed(s, Step(p, s, c))
  {
    hide IsReq;
  }

  // What is being flushed, and requires nobody, gets into the run queue.
  lemma {:induction false} GetsQueued(p: Plan, threads: nat, choices: seq<Choice>, u: nat, h: Id)
    returns (more: seq<Choice>)
    requires Distinct(p) && threads > 0 && h != 0 && !PlacementOf(p, h).IsRequired()
    requires var s := Run(p, threads, choices);
             u < |s.ws| && h in s.core.jobs && s.core.jobs[h].node == h && (Flushed(s.ws[u], h) || h in s.ws[u].run)
    ensures var s := Run(p, threads, choices + more);
            u < |s.ws| && h in s.core.jobs && s.core.jobs[h].node == h && h in s.ws[u].run
    decreases Remaining(Run(p, threads, choices))
  {
    hide Distinct, Run, Step, Remaining, Inv, Flushed, PlacementOf, Idle;
    var s := Run(p, threads, choices);
    if h in s.ws[u].run {
      more := [];
      assert choices + more == choices;
    } else {
      var c := Choice(u, u, true, false, 0);
      RunKeepsInv(p, threads, choices);
      RunKeepsInv(p, threads, choices + [c]);
      RunOneMore(p, threads, choices, c);
      FlushedIsBusy(p, s, u, h);
      FlushedGoesOn(p, s, c, h);
      BusyStepLess(p, s, c);
      RequiresNobody(p, s, h);
      FlushMoves(p, s, u, h);
      QueuedOrFlushed(p, Step(p, s, c), u, h);
      NodesStay(p, s, c, h);
      var rest := GetsQueued(p, threads, choices + [c], u, h);
      more := [c] + rest;
      assert choices + more == choices + [c] + rest;
    }
  }

  lemma RequiresNobody(p: Plan, s: Sched, h: Id)
    requires Inv(p, s) && h in s.core.jobs && !PlacementOf(p, s.core.jobs[h].node).IsRequired()
    ensures !IsReq(s.core, h)
  {
    hide Sum, CoreInv, MaestroOk, PlacementOf;
    InvCore(p, s);
    SlotIsPlanned(p, s.core, h);
  }

  lemma QueuedOrFlushed(p: Plan, s: Sched, u: nat, h: Id)
    requires Inv(p, s) && u < |s.ws| && (Flushed(s.ws[u], h) || h in s.ws[u].run) && h != 0
    ensures h in s.core.jobs
  {
    hide CoreInv, Sum, IsReq;
    MaestroIs(p, s, u);
  }

  // An entry of a fork that requires nobody can be run by every worker.
  lemma FreeEntryAnywhere(p: Plan, threads: nat, f: Id, h: Id, v: nat)
    requires Distinct(p) && v < threads && h in Forks(p, f) && !PlacementOf(p, h).IsRequired()
    ensures CanRun(p, threads, h, v)
  {
    hide Distinct, Run, Step, Inv, With, Runs, Forks, Ids, PlacementOf, Flushed;
    ForksStay(p, f);
    var choices, u := NodeIsRun(p, threads, f);
    var c := Choice(u, u, true, false, 0);
    RunKeepsInv(p, threads, choices);
    RunKeepsInv(p, threads, choices + [c]);
    RunOneMore(p, threads, choices, c);
    EntryIsHeld(p, Run(p, threads, choices), u, f, h);
    EntryIsFlushed(p, Run(p, threads, choices), u, f, h);
    var flush := GetsQueued(p, threads, choices + [c], u, h);
    RunKeepsInv(p, threads, choices + [c] + flush);
    var more := QueuedAnywhere(p, threads, choices + [c] + flush, v, u, h);
  }

  lemma EntryIsFlushed(p: Plan, s: Sched, u: nat, f: Id, h: Id)
    requires Distinct(p) && Runs(s, u, f) && h in Forks(p, f)
    ensures var s' := Step(p, s, Choice(u, u, true, false, 0)); u < |s'.ws| && Flushed(s'.ws[u], h)
  {
    hide Distinct, Forks, IsCoro;
    ForkIsNoCoro(p, f);
  }

  // m is the one predecessor of n.
  ghost predicate SolePred(p: Plan, m: Id, n: Id) {
    m in Ids(p) && Succ(p, m) == n && n != 0 && forall k :: k in Ids(p) && Succ(p, k) == n ==> k == m
  }

  // Its count is one as long as the predecessor holds it.
  lemma SolePredCount(p: Plan, c: Core, m: Id, n: Id)
    requires CoreInv(p, c) && SolePred(p, m, n) && m in c.carrier
    ensures n in c.jobs && c.jobs[n].preds == 1 && c.jobs[n].node == n && c.jobs[n].placement == PlacementOf(p, n)
  {
    hide Succ, Ids, TokenOk, Due, IsCoro, PlacementOf, NodeOk;
    SuccessorIs(p, c, m);
    forall k | k in Holders(p, c, n)
      ensures k == m
    {
      assert CarrierOk(p, c, k);
    }
    assert Holders(p, c, n) == {m};
  }

  // A coroutine that is over is about to publish its one successor.
  lemma TurnsToPublish(p: Plan, s: Sched, u: nat, m: Id, n: Id)
    requires Inv(p, s) && Runs(s, u, m) && IsCoro(p, m) && SolePred(p, m, n)
    ensures var s', pc := Step(p, s, Choice(u, u, true, false, 0)), s.ws[u].pc;
            && u < |s'.ws| && s'.ws[u].pc == Publishing(pc.job, m, pc.req, n, Decided)
            && n in s'.core.jobs && s'.core.jobs[n].node == n && s'.core.jobs[n].placement == PlacementOf(p, n)
  {
    hide Inv, Succ, Ids, IsCoro, PlacementOf, SolePred, EndBody, CoreInv;
    RunningIs(p, s, u);
    SolePredCount(p, s.core, m, n);
    SuccessorOf(p, m, n);
    EndBodyPublishes(p, s, u, Choice(u, u, true, false, 0));
  }

  lemma EndBodyPublishes(p: Plan, s: Sched, u: nat, c: Choice)
    requires u < |s.ws| && s.ws[u].pc.Running? && IsCoro(p, s.ws[u].pc.node) && !c.suspends
    requires var n := s.ws[u].cur;
             n == Succ(p, s.ws[u].pc.node) && n != 0 && n in s.core.jobs && s.core.jobs[n].preds == 1
    ensures var n, pc, s' := s.ws[u].cur, s.ws[u].pc, EndBody(p, s, u, s.ws[u].pc, c);
            && u < |s'.ws| && s'.ws[u].pc == Publishing(pc.job, pc.node, pc.req, n, Decided) && n in s'.core.jobs
            && s'.core.jobs[n].node == s.core.jobs[n].node && s'.core.jobs[n].placement == s.core.jobs[n].placement
  {
    hide Succ, IsCoro, Finish;
    FinishKeepsJobs(p, s.core, s.ws[u].pc.node);
  }

  // Two steps later the successor waits in a run queue.
  lemma PublishesToQueue(p: Plan, s: Sched, u: nat, n: Id) returns (t: nat)
    requires Unlocked(s) && u < |s.ws| && s.ws[u].pc.Publishing? && s.ws[u].pc.stage == Decided && s.ws[u].pc.next == n
    requires n in s.core.jobs && s.core.jobs[n].node == n && !s.core.jobs[n].placement.IsRequired()
    ensures var c := Choice(u, u, true, false, 0); var s' := Step(p, Step(p, s, c), c);
            t < |s'.ws| && n in s'.ws[t].run && n in s'.core.jobs && s'.core.jobs[n].node == n
  {
    var s1 := Step(p, s, Choice(u, u, true, false, 0));
    assert s1.core == s.core && s1.ws[u].pc.Publishing? && s1.ws[u].pc.stage == Counted && s1.ws[u].pc.next == n;
    t := Target(SlotOf(s1.core, n).placement, 0, |s1.ws|);
  }

  lemma SuccessorOf(p: Plan, m: Id, n: Id)
    requires SolePred(p, m, n)
    ensures Succ(p, m) == n && n != 0 && m in Ids(p)
  {
  }

  lemma FinishKeepsJobs(p: Plan, c: Core, n: Id)
    ensures Finish(p, c, n).jobs == c.jobs
  {
  }

  // The one successor of a coroutine, when it requires nobody, can be run by every worker.
  lemma PublishedAnywhere(p: Plan, threads: nat, m: Id, n: Id, v: nat)
    requires Distinct(p) && v < threads && SolePred(p, m, n) && IsCoro(p, m) && !PlacementOf(p, n).IsRequired()
    ensures CanRun(p, threads, n, v)
  {
    hide Distinct, Run, Step, Inv, Runs, IsCoro, PlacementOf, SolePred, Ids, Succ;
    SuccessorOf(p, m, n);
    var choices, u := NodeIsRun(p, threads, m);
    var c := Choice(u, u, true, false, 0);
    RunKeepsInv(p, threads, choices);
    TurnsToPublish(p, Run(p, threads, choices), u, m, n);
    RunOneMore(p, threads, choices, c);
    var unlock := AllUnlock(p, threads, choices + [c]);
    var ready := choices + [c] + unlock;
    var t := PublishesToQueue(p, Run(p, threads, ready), u, n);
    RunOneMore(p, threads, ready, c);
    RunOneMore(p, threads, ready + [c], c);
    var reached := ready + [c] + [c];
    RunKeepsInv(p, threads, reached);
    var more := QueuedAnywhere(p, threads, reached, v, t, n);
  }

  // On its way from the body of m to its successor n, which the worker keeps for itself.
  predicate Coming(pc: Pc, m: Id, n: Id) {
    match pc
    case Running(_, node, _) => node == m
    case Closing(_, node, _, holds) => node == m && holds
    case Flushing(node, _, holds, _) => node == m && holds
    case Releasing(node, _, holds) => node == m && holds
    case Handing(_, next, stage, inline) => next == n && stage != Pushed && inline
    case Settling(_, next, _) => next == n
    case Dropping(next, _) => next == n
    case _ => false
  }

  lemma ReleasesToSelf(p: Plan, s: Sched, v: nat, m: Id, n: Id)
    requires Inv(p, s) && v < |s.ws| && s.ws[v].pc.Releasing? && Coming(s.ws[v].pc, m, n)
    requires SolePred(p, m, n) && !PlacementOf(p, n).IsRequired()
    ensures Coming(AfterFree(p, s, v, s.ws[v].pc).ws[v].pc, m, n)
  {
    hide Inv, Succ, Ids, PlacementOf, SolePred, Release;
    ReleasingIs(p, s, v);
    SolePredCount(p, s.core, m, n);
    SuccessorOf(p, m, n);
  }

  lemma EndsComing(p: Plan, s: Sched, v: nat, c: Choice, m: Id, n: Id)
    requires v < |s.ws| && s.ws[v].pc.Running? && Coming(s.ws[v].pc, m, n) && !IsCoro(p, m)
    ensures Coming(EndBody(p, s, v, s.ws[v].pc, c).ws[v].pc, m, n)
  {
    hide IsCoro, Finish, Forks;
  }

  // The worker's own steps bring it nearer to the successor.
  lemma OwnComing(p: Plan, s: Sched, c: Choice, m: Id, n: Id)
    requires Inv(p, s) && c.worker < |s.ws| && Coming(s.ws[c.worker].pc, m, n) && !c.suspends && !IsCoro(p, m)
    requires SolePred(p, m, n) && !PlacementOf(p, n).IsRequired() && n != 0
    ensures var s' := Step(p, s, c);
            c.worker < |s'.ws| && (Coming(s'.ws[c.worker].pc, m, n) || With(s'.ws[c.worker], n))
  {
    hide Inv, IsCoro, PlacementOf, SolePred, EndBody, AfterFree, Drop, IsReq;
    StepKeepsThreads(p, s, c);
    match s.ws[c.worker].pc
    case Running(_, _, _) => EndsComing(p, s, c.worker, c, m, n);
    case Releasing(_, _, _) => ReleasesToSelf(p, s, c.worker, m, n);
    case _ =>
  }

  lemma ComingIsBusy(p: Plan, s: Sched, v: nat, m: Id, n: Id)
    requires Inv(p, s) && v < |s.ws| && Coming(s.ws[v].pc, m, n) && n != 0
    ensures s.sched != 0 && !Idle(s.ws[v])
  {
    hide Inv;
    BusyMeansCounted(p, s, v);
  }

  // Steps of other workers leave a worker where it is in its program.
  lemma StaysComing(p: Plan, s: Sched, c: Choice, v: nat, m: Id, n: Id)
    requires Inv(p, s) && v < |s.ws| && Coming(s.ws[v].pc, m, n) && !c.suspends && !IsCoro(p, m)
    requires SolePred(p, m, n) && !PlacementOf(p, n).IsRequired() && n != 0
    ensures var s' := Step(p, s, c); v < |s'.ws| && (Coming(s'.ws[v].pc, m, n) || With(s'.ws[v], n))
  {
    hide Inv, IsCoro, PlacementOf, SolePred, Step, Coming, With;
    StepKeepsThreads(p, s, c);
    ComingIsBusy(p, s, v, m, n);
    if c.worker == v {
      OwnComing(p, s, c, m, n);
    } else if c.worker < |s.ws| && s.ws[c.worker].pc != Left {
      StepOnlyMoves(p, s, c);
    } else {
      NoMove(p, s, c);
    }
  }

  lemma NoMove(p: Plan, s: Sched, c: Choice)
    requires c.worker < |s.ws| ==> s.ws[c.worker].pc == Left
    ensures Step(p, s, c) == s
  {
  }

  // The row of n is there while the worker is on its way.
  lemma ComingRow(p: Plan, s: Sched, v: nat, m: Id, n: Id)
    requires Inv(p, s) && v < |s.ws| && n != 0 && (Coming(s.ws[v].pc, m, n) || With(s.ws[v], n)) && SolePred(p, m, n)
    ensures n in s.core.jobs
  {
    hide CoreInv, Sum, IsReq, Succ, SolePred, QueuesOk, HoldOk, Executing, With;
    MaestroIs(p, s, v);
    if With(s.ws[v], n) {
      WithIsLive(p, s, v, n);
    } else if !s.ws[v].pc.Handing? && !s.ws[v].pc.Settling? && !s.ws[v].pc.Dropping? {
      HoldIsCarried(p, s, v);
      SolePredCount(p, s.core, m, n);
    }
  }

  lemma HoldIsCarried(p: Plan, s: Sched, v: nat)
    requires Inv(p, s) && v < |s.ws|
    ensures var pc := s.ws[v].pc; pc.Running? ==> pc.node in s.core.carrier
    ensures var pc := s.ws[v].pc;
            (pc.Closing? || pc.Flushing? || pc.Releasing?) && pc.holds ==> pc.node in s.core.carrier
    ensures CoreInv(p, s.core)
  {
    hide Sum, Ids, Distinct, QueuesOk, Succ, Due, TokenOk, CarrierOk, PlanInv;
    MineAlone(p, s, v);
    var pc := s.ws[v].pc;
    assert (pc.Closing? || pc.Flushing? || pc.Releasing?) && pc.holds ==> pc.node in PcTally(pc).hands;
    assert pc.Running? ==> pc.node in PcTally(pc).hands;
  }

  // One step of the run on the way to the successor.
  lemma NextForComing(p: Plan, threads: nat, choices: seq<Choice>, v: nat, m: Id, n: Id) returns (c: Choice)
    requires Distinct(p) && threads > 0 && n != 0
    requires SolePred(p, m, n) && !IsCoro(p, m) && !PlacementOf(p, n).IsRequired()
    requires var s := Run(p, threads, choices);
             v < |s.ws| && n in s.core.jobs && s.core.jobs[n].node == n && Coming(s.ws[v].pc, m, n)
    ensures var s, s' := Run(p, threads, choices), Run(p, threads, choices + [c]);
            && Remaining(s') < Remaining(s) && v < |s'.ws| && n in s'.core.jobs && s'.core.jobs[n].node == n
            && (Coming(s'.ws[v].pc, m, n) || With(s'.ws[v], n))
  {
    hide Distinct, Run, Step, Remaining, Inv, With, Coming, PlacementOf, IsCoro, SolePred, Idle;
    var s := Run(p, threads, choices);
    RunKeepsInv(p, threads, choices);
    ComingIsBusy(p, s, v, m, n);
    c := Progress(p, threads, choices);
    RunOneMore(p, threads, choices, c);
    RunKeepsInv(p, threads, choices + [c]);
    StaysComing(p, s, c, v, m, n);
    ComingRow(p, Step(p, s, c), v, m, n);
    NodesStay(p, s, c, n);
  }

  lemma {:induction false} ComingIsRun(p: Plan, threads: nat, choices: seq<Choice>, v: nat, m: Id, n: Id)
    returns (more: seq<Choice>)
    requires Distinct(p) && threads > 0 && n != 0
    requires SolePred(p, m, n) && !IsCoro(p, m) && !PlacementOf(p, n).IsRequired()
    requires var s := Run(p, threads, choices);
             && v < |s.ws| && n in s.core.jobs && s.core.jobs[n].node == n
             && (Coming(s.ws[v].pc, m, n) || With(s.ws[v], n))
    ensures Runs(Run(p, threads, choices + more), v, n)
    decreases Remaining(Run(p, threads, choices))
  {
    hide Distinct, Run, Step, Remaining, Inv, With, Coming, PlacementOf, IsCoro, SolePred, Runs;
    if With(Run(p, threads, choices).ws[v], n) {
      more := HeldIsRun(p, threads, choices, v, n);
    } else {
      var c := NextForComing(p, threads, choices, v, m, n);
      var rest := ComingIsRun(p, threads, choices + [c], v, m, n);
      more := [c] + rest;
      assert choices + more == choices + [c] + rest;
    }
  }

  // A chore that requires nobody can only be run by a worker that can run one of its predecessors, if none of these is
  // a coroutine, and it is no coroutine itself.
  lemma SuccessorRunsWhereSomePredecessorRuns(p: Plan, threads: nat, n: Id, v: nat)
    requires Distinct(p) && v < threads && n in Ids(p) && !PlacementOf(p, n).IsRequired()
    requires n != Head(p) && Unforked(p, n)
    requires !IsCoro(p, n) && forall m :: m in Ids(p) && Succ(p, m) == n ==> !IsCoro(p, m)
    requires CanRun(p, threads, n, v)
    ensures exists m :: m in Ids(p) && Succ(p, m) == n && CanRun(p, threads, m, v)
  {
    hide Distinct, Run, PlacementOf, Ids, Succ, IsCoro, Unforked, Target;
    var preds := Predecessors(p, n);
    if forall m :: m in preds ==> !CanRun(p, threads, m, v) {
      NeverRuns(p, threads, {n}, preds, n, v);
    }
  }

  // With one predecessor, which is no coroutine, it can be run by exactly the workers that can run that.
  lemma SuccessorRunsWherePredecessorRuns(p: Plan, threads: nat, m: Id, n: Id, v: nat)
    requires Distinct(p) && v < threads && SolePred(p, m, n) && !IsCoro(p, m) && !IsCoro(p, n)
    requires !PlacementOf(p, n).IsRequired()
    ensures CanRun(p, threads, n, v) <==> CanRun(p, threads, m, v)
  {
    hide Distinct, Run, Runs, PlacementOf, IsCoro, Unforked, Succ, Ids, Inv, Coming, With;
    SuccStays(p, m);
    SuccessorUnforked(p, m, n);
    if choices :| Runs(Run(p, threads, choices), v, m) {
      RunKeepsInv(p, threads, choices);
      RunsIsComing(p, Run(p, threads, choices), v, m, n);
      var more := ComingIsRun(p, threads, choices, v, m, n);
    }
    if CanRun(p, threads, n, v) {
      SuccessorRunsWhereSomePredecessorRuns(p, threads, n, v);
    }
  }

  lemma SuccessorUnforked(p: Plan, m: Id, n: Id)
    requires Distinct(p) && Succ(p, m) == n && n != 0
    ensures Unforked(p, n)
  {
    hide Distinct, Succ, Forks;
    forall f
      ensures n !in Forks(p, f)
    {
      if n in Forks(p, f) {
        ForkedOnce(p, f, n, m);
      }
    }
  }

  lemma RunsIsComing(p: Plan, s: Sched, v: nat, m: Id, n: Id)
    requires Inv(p, s) && Runs(s, v, m) && SolePred(p, m, n)
    ensures Coming(s.ws[v].pc, m, n) && n in s.core.jobs && s.core.jobs[n].node == n && n != 0
  {
    hide Inv, SolePred;
    SuccessorOf(p, m, n);
    RunningIs(p, s, v);
    SolePredCount(p, s.core, m, n);
  }

  lemma {:induction false} FreshId(ids: set<Id>) returns (id: Id)
    ensures id != 0 && id !in ids && forall i :: i in ids ==> i < id
  {
    if ids == {} {
      id := 1;
    } else {
      var i :| i in ids;
      var above := FreshId(ids - {i});
      assert forall j :: j in ids ==> j == i || j in ids - {i};
      id := if i < above then above else i + 1;
    }
  }

  // A suspended coroutine waits where its placement says.
  lemma SuspendsInto(p: Plan, s: Sched, u: nat, n: Id, next: Id)
    requires Unlocked(s) && Runs(s, u, n) && IsCoro(p, n) && next != 0 && next !in s.core.jobs
    ensures var s', t := Step(p, s, Choice(u, u, true, true, next)), Target(PlacementOf(p, n), u, |s.ws|);
            && next in s'.core.jobs && s'.core.jobs[next].node == n && t < |s'.ws|
            && if PlacementOf(p, n).IsRequired() then next in s'.ws[t].required else next in s'.ws[t].run
  {
    hide IsCoro, Succ, PlacementOf;
  }

  lemma StillRuns(s: Sched, s': Sched, u: nat, n: Id)
    requires Runs(s, u, n) && OnlyFlushed(s, s')
    ensures Runs(s', u, n)
  {
  }

  // A coroutine can be run by the worker it requires, or by every worker if it requires nobody: it may be suspended
  // wherever it starts.
  lemma CoroRunsAt(p: Plan, threads: nat, n: Id, v: nat)
    requires Distinct(p) && v < threads && n in Ids(p) && IsCoro(p, n)
    requires PlacementOf(p, n).IsRequired() ==> v == Target(PlacementOf(p, n), 0, threads)
    ensures CanRun(p, threads, n, v)
  {
    hide Distinct, Run, Step, Inv, Runs, IsCoro, PlacementOf, Ids;
    var before, u := NodeIsRun(p, threads, n);
    var unlock := AllUnlock(p, threads, before);
    var choices := before + unlock;
    StillRuns(Run(p, threads, before), Run(p, threads, choices), u, n);
    var next := FreshId(Run(p, threads, choices).core.jobs.Keys);
    var c := Choice(u, u, true, true, next);
    RunKeepsInv(p, threads, choices);
    RunKeepsInv(p, threads, choices + [c]);
    RunOneMore(p, threads, choices, c);
    SuspendsInto(p, Run(p, threads, choices), u, n, next);
    if PlacementOf(p, n).IsRequired() {
      var more := HeldIsRun(p, threads, choices + [c], v, next);
    } else {
      var t := Target(PlacementOf(p, n), u, threads);
      var more := QueuedAnywhere(p, threads, choices + [c], v, t, next);
    }
  }

  // A required entry of a fork can be run by exactly the workers that can run the fork, and if it is a coroutine, by
  // the worker it requires.
  lemma EntryRunsExactlyWhere(p: Plan, threads: nat, f: Id, h: Id, v: nat)
    requires Distinct(p) && v < threads && h in Forks(p, f) && PlacementOf(p, h).IsRequired()
    ensures CanRun(p, threads, h, v)
      <==> CanRun(p, threads, f, v) || (IsCoro(p, h) && v == Target(PlacementOf(p, h), 0, threads))
  {
    hide Distinct, Forks, IsCoro, PlacementOf, Target, CanRun, Ids;
    EntryRunsWhereForkRuns(p, threads, f, h, v);
    if IsCoro(p, h) && v == Target(PlacementOf(p, h), 0, threads) {
      ForksStay(p, f);
      CoroRunsAt(p, threads, h, v);
    }
  }
}
