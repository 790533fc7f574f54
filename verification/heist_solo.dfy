// When one worker can run everything.

module HeistSolo {
  import opened Prelude
  import opened HeistPlacement
  import opened HeistPlan
  import opened HeistCore
  import opened HeistLoop
  import opened HeistRuns
  import opened HeistFinish
  import opened HeistHome
  import opened HeistForks
  import opened HeistWhere
  import opened HeistBound

  // Every chore that requires a worker, and that no fork starts, requires v.
  ghost predicate NeedsOnly(p: Plan, threads: nat, v: nat)
    requires threads > 0
  {
    forall n :: n in Ids(p) && PlacementOf(p, n).IsRequired() && Unforked(p, n) ==>
      Target(PlacementOf(p, n), 0, threads) == v
  }

  // A job that is sent to a worker it requires is sent to v.
  predicate SentTo(c: Core, next: Id, threads: nat, v: nat)
    requires threads > 0
  {
    IsReq(c, next) ==> Target(SlotOf(c, next).placement, 0, threads) == v
  }

  predicate Rested(m: Maestro) {
    m.pc == Top(0, false) && m.temp == [] && m.required == []
  }

  // Nobody but v has moved, and what others hold is in their run queues.
  predicate Solo(s: Sched, v: nat) {
    && v < |s.ws| && (forall u :: 0 <= u < |s.ws| && u != v ==> Rested(s.ws[u]))
    && match s.ws[v].pc
       case Publishing(_, _, _, next, _) => SentTo(s.core, next, |s.ws|, v)
       case Handing(_, next, _, _) => SentTo(s.core, next, |s.ws|, v)
       case _ => true
  }

  predicate OnlyBy(v: nat, choices: seq<Choice>) {
    forall i :: 0 <= i < |choices| ==> choices[i].worker == v && !choices[i].suspends
  }

  // The successor of a node in execution is sent to v.
  lemma SuccessorSent(p: Plan, c: Core, n: Id, threads: nat, v: nat)
    requires CoreInv(p, c) && n in c.carrier && Succ(p, n) != 0 && threads > 0 && NeedsOnly(p, threads, v)
    ensures var b := Succ(p, n); b in c.jobs && SentTo(c, b, threads, v)
  {
    hide CoreInv, Succ, Unforked, Ids, PlacementOf, Target, Distinct;
    SuccessorIs(p, c, n);
    CoreIsPlanned(p, c);
    SuccStays(p, n);
  }

  lemma CoreIsPlanned(p: Plan, c: Core)
    requires CoreInv(p, c)
    ensures Distinct(p)
  {
    hide TableInv, Distinct;
  }

  lemma EndsSolo(p: Plan, s: Sched, v: nat, c: Choice)
    requires Inv(p, s) && Solo(s, v) && s.ws[v].pc.Running? && !c.suspends && NeedsOnly(p, |s.ws|, v)
    ensures Solo(EndBody(p, s, v, s.ws[v].pc, c), v)
  {
    hide Inv, Succ, IsCoro, Forks, NeedsOnly, Ids, CoreInv, Finish;
    RunningIs(p, s, v);
    var n := s.ws[v].pc.node;
    FinishKeepsJobs(p, s.core, n);
    if s.ws[v].cur != 0 {
      SuccessorSent(p, s.core, n, |s.ws|, v);
      ReleaseSent(p, Finish(p, s.core, n), n, s.ws[v].cur, |s.ws|, v);
    }
  }

  lemma ReleaseSent(p: Plan, c: Core, n: Id, next: Id, threads: nat, v: nat)
    requires threads > 0 && SentTo(c, next, threads, v)
    ensures SentTo(Release(p, c, n), next, threads, v)
  {
    hide Succ, Target;
  }

  lemma ReleasesSolo(p: Plan, s: Sched, v: nat)
    requires Inv(p, s) && Solo(s, v) && s.ws[v].pc.Releasing? && NeedsOnly(p, |s.ws|, v)
    ensures Solo(AfterFree(p, s, v, s.ws[v].pc), v)
  {
    hide Inv, Succ, NeedsOnly, Ids, CoreInv, Release, SlotOf;
    if s.ws[v].pc.holds {
      ReleasingIs(p, s, v);
      if s.ws[v].cur != 0 {
        SuccessorSent(p, s.core, s.ws[v].pc.node, |s.ws|, v);
        ReleaseSent(p, s.core, s.ws[v].pc.node, s.ws[v].cur, |s.ws|, v);
      }
    } else {
      ReleasingHasNothing(p, s, v);
    }
  }

  lemma PublishesSolo(s: Sched, v: nat)
    requires Solo(s, v) && s.ws[v].pc.Publishing?
    ensures Solo(Publish(s, v, s.ws[v].pc), v)
  {
    hide SlotOf;
  }

  lemma HandsSolo(s: Sched, v: nat)
    requires Solo(s, v) && s.ws[v].pc.Handing?
    ensures Solo(Hand(s, v, s.ws[v].pc), v)
  {
    hide SlotOf;
  }

  lemma StepKeepsSolo(p: Plan, s: Sched, c: Choice, v: nat)
    requires Inv(p, s) && Solo(s, v) && c.worker == v && !c.suspends && NeedsOnly(p, |s.ws|, v)
    ensures Solo(Step(p, s, c), v)
  {
    hide Inv, EndBody, AfterFree, Publish, Hand, Begin, Drop, NeedsOnly, SentTo, SlotOf, IsReq;
    StepKeepsThreads(p, s, c);
    match s.ws[v].pc
    case Running(_, _, _) => EndsSolo(p, s, v, c);
    case Releasing(_, _, _) => ReleasesSolo(p, s, v);
    case Publishing(_, _, _, _, _) => PublishesSolo(s, v);
    case Handing(_, _, _, _) => HandsSolo(s, v);
    case _ =>
  }

  lemma LaunchIsSolo(p: Plan, threads: nat, v: nat)
    requires Distinct(p) && v < threads && NeedsOnly(p, threads, v)
    ensures Solo(Launch(p, threads), v)
  {
    hide Ids, Posted, PlacementOf, Unforked, Distinct;
    PlanIds(p);
    HeadIsUnforked(p);
  }

  lemma {:induction false} RunIsSolo(p: Plan, threads: nat, choices: seq<Choice>, v: nat)
    requires Distinct(p) && v < threads && NeedsOnly(p, threads, v) && OnlyBy(v, choices)
    ensures Solo(Run(p, threads, choices), v)
  {
    hide Distinct, Inv, Step, Solo, NeedsOnly, Launch;
    if choices == [] {
      LaunchIsSolo(p, threads, v);
    } else {
      var front := choices[..|choices| - 1];
      RunIsSolo(p, threads, front, v);
      RunKeepsInv(p, threads, front);
      StepKeepsSolo(p, Run(p, threads, front), choices[|choices| - 1], v);
    }
  }

  // How far v is from finding work, by where it looks: at a victim with a queue, at its own queues, elsewhere.
  function Rank(s: Sched, v: nat): nat {
    if v >= |s.ws| then 0
    else if s.ws[v].pc.Top? then 2
    else if s.ws[v].pc.Steal? then (if OthersQueue(s, v) then 0 else 3)
    else 1
  }

  predicate OthersQueue(s: Sched, v: nat) {
    exists u :: 0 <= u < |s.ws| && u != v && s.ws[u].run != []
  }

  // Nobody keeps v waiting.
  lemma SoloGoesOn(p: Plan, s: Sched, c: Choice, v: nat)
    requires Solo(s, v) && c.worker == v && !c.suspends
    ensures !Waits(p, s, c)
  {
    hide SlotOf, PlacementOf, SentTo, Target;
  }

  // A move of v alone that leaves less work, or brings v nearer to finding some.
  lemma SoloMove(p: Plan, threads: nat, choices: seq<Choice>, v: nat) returns (c: Choice)
    requires Distinct(p) && v < threads && NeedsOnly(p, threads, v) && OnlyBy(v, choices)
    requires Run(p, threads, choices).sched != 0
    ensures c.worker == v && !c.suspends
    ensures var s, s' := Run(p, threads, choices), Run(p, threads, choices + [c]);
            Work(s') < Work(s) || (Work(s') == Work(s) && Rank(s', v) < Rank(s, v))
  {
    hide Distinct, Run, Inv, Step, Work, Rank, NeedsOnly, IdleTurn, Solo, Suspends, Waits, PopLocalJob;
    var s := Run(p, threads, choices);
    RunKeepsInv(p, threads, choices);
    RunIsSolo(p, threads, choices, v);
    c := SoloChoice(p, threads, choices, v);
    RunOneMore(p, threads, choices, c);
    TurnLess(p, s, c);
    NoSuspends(p, s, c);
    if IdleTurn(p, s, c) {
      SearchEnds(p, s, c, v);
    }
  }

  lemma NoSuspends(p: Plan, s: Sched, c: Choice)
    requires !c.suspends
    ensures !Suspends(p, s, c)
  {
  }

  // Whom to rob: a worker with a queue, if there is one.
  lemma SoloChoice(p: Plan, threads: nat, choices: seq<Choice>, v: nat) returns (c: Choice)
    requires Distinct(p) && v < threads && Run(p, threads, choices).sched != 0 && Solo(Run(p, threads, choices), v)
    ensures c.worker == v && !c.suspends
    ensures var s := Run(p, threads, choices);
            s.ws[v].pc != Left && (OthersQueue(s, v) ==> c.victim < |s.ws| && c.victim != v && s.ws[c.victim].run != [])
    ensures var s := Run(p, threads, choices);
            s.ws[v].pc == Seek && PopLocalJob(s.ws[v], s.runnables, c.preferRequired).job == 0 ==> OthersQueue(s, v)
  {
    hide Distinct, Run, Inv;
    var s := Run(p, threads, choices);
    if u :| 0 <= u < |s.ws| && u != v && s.ws[u].run != [] {
      c := Choice(v, u, true, false, 0);
    } else {
      c := Choice(v, v, true, false, 0);
    }
    if Idle(s.ws[v]) {
      assert forall u :: 0 <= u < |s.ws| ==> Idle(s.ws[u]);
      var w := SomeoneCanPop(p, threads, choices);
      assert PopLocalJob(s.ws[w], s.runnables, true).job != 0;
      assert w != v ==> Rested(s.ws[w]) && s.ws[w].run != [];
      StaysUntilZero(p, threads, choices, v, w);
    }
  }

  // Nobody has left while some queue holds a job.
  lemma StaysUntilZero(p: Plan, threads: nat, choices: seq<Choice>, v: nat, w: nat)
    requires Distinct(p) && threads > 0
    requires var s := Run(p, threads, choices);
             v < |s.ws| && w < |s.ws| && s.ws[w].pc != Left && PopLocalJob(s.ws[w], s.runnables, true).job != 0
    ensures Run(p, threads, choices).ws[v].pc != Left
  {
    hide Distinct, Run, Inv;
    var s := Run(p, threads, choices);
    RunKeepsQuiet(p, threads, choices);
    assert WoundDown(s) ==> Winding(s.ws[w]);
  }

  lemma SearchEnds(p: Plan, s: Sched, c: Choice, v: nat)
    requires Inv(p, s) && Solo(s, v) && c.worker == v && !c.suspends && IdleTurn(p, s, c) && s.sched != 0
    requires s.ws[v].pc != Left
    requires OthersQueue(s, v) ==> c.victim < |s.ws| && c.victim != v && s.ws[c.victim].run != []
    requires s.ws[v].pc == Seek && PopLocalJob(s.ws[v], s.runnables, c.preferRequired).job == 0 ==> OthersQueue(s, v)
    ensures Rank(Step(p, s, c), v) < Rank(s, v)
  {
    hide Inv, PopLocalJob, Waits, SentTo;
    SoloGoesOn(p, s, c, v);
    if s.ws[v].pc == Seek {
      MaestroIs(p, s, v);
      PoppedNothing(p, s.core, s.ws[v], s.runnables, c.preferRequired);
      var s' := Step(p, s, c);
      var u :| 0 <= u < |s.ws| && u != v && s.ws[u].run != [];
      assert s'.ws[u].run != [];
    }
  }

  // One worker alone can bring the counter down to zero.
  lemma {:induction false} SoloFinishes(p: Plan, threads: nat, choices: seq<Choice>, v: nat) returns (more: seq<Choice>)
    requires Distinct(p) && v < threads && NeedsOnly(p, threads, v) && OnlyBy(v, choices)
    ensures OnlyBy(v, more) && Run(p, threads, choices + more).sched == 0
    decreases Work(Run(p, threads, choices)), Rank(Run(p, threads, choices), v)
  {
    hide Distinct, Run, Work, Rank, NeedsOnly;
    if Run(p, threads, choices).sched == 0 {
      more := [];
      assert choices + more == choices;
    } else {
      var c := SoloMove(p, threads, choices, v);
      var rest := SoloFinishes(p, threads, choices + [c], v);
      more := [c] + rest;
      assert choices + more == choices + [c] + rest;
    }
  }

  lemma OnlyRuns(s: Sched, v: nat, u: nat, n: Id)
    requires Solo(s, v) && Runs(s, u, n)
    ensures u == v
  {
  }

  // A worker can run every chore of a tree if and only if every chore that requires a worker, and that no fork starts,
  // requires that one. It can then run all of them in one run, with nobody else taking a turn.
  lemma EveryChore(p: Plan, threads: nat, v: nat)
    requires Distinct(p) && v < threads
    ensures (forall n :: n in Ids(p) ==> CanRun(p, threads, n, v)) <==> NeedsOnly(p, threads, v)
  {
    hide Distinct, Run, Runs, Ids, PlacementOf, Unforked, Target, Solo;
    if NeedsOnly(p, threads, v) {
      var all := SoloFinishes(p, threads, [], v);
      assert [] + all == all && all + [] == all;
      ZeroMeansComplete(p, threads, all, []);
      forall n | n in Ids(p)
        ensures CanRun(p, threads, n, v)
      {
        var i, u := DoneWasRun(p, threads, all, n);
        RunIsSolo(p, threads, all[..i], v);
        OnlyRuns(Run(p, threads, all[..i]), v, u, n);
      }
    }
    if forall n :: n in Ids(p) ==> CanRun(p, threads, n, v) {
      forall n | n in Ids(p) && PlacementOf(p, n).IsRequired() && Unforked(p, n)
        ensures Target(PlacementOf(p, n), 0, threads) == v
      {
        RequiredRunsExactlyAtHome(p, threads, n, v);
      }
    }
  }
}
