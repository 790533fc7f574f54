// How much a schedule can do before everything has run, and that a fair schedule gets there.

module HeistBound {
  import opened HeistPlacement
  import opened HeistPlan
  import opened HeistCore
  import opened HeistLoop
  import opened HeistRuns
  import opened HeistFinish
  import opened HeistForks

  // A turn on which a worker only waits, or looks for work and finds none.
  predicate IdleTurn(p: Plan, s: Sched, c: Choice) {
    || c.worker >= |s.ws| || Waits(p, s, c)
    || match s.ws[c.worker].pc
       case Left => true
       case Top(job, _) => job == 0
       case Seek => PopLocalJob(s.ws[c.worker], s.runnables, c.preferRequired).job == 0
       case Steal => c.victim >= |s.ws| || c.victim == c.worker || s.ws[c.victim].run == []
       case _ => false
  }

  // Nothing has changed but where idle workers are in looking for work.
  predicate Rests(s: Sched, s': Sched) {
    && s'.core == s.core && s'.sched == s.sched && s'.runnables == s.runnables && |s'.ws| == |s.ws|
    && forall w :: 0 <= w < |s.ws| ==>
         s'.ws[w] == s.ws[w] || (Idle(s.ws[w]) && Idle(s'.ws[w]) && s'.ws[w] == s.ws[w].(pc := s'.ws[w].pc))
  }

  lemma IdleTurnRests(p: Plan, s: Sched, c: Choice)
    requires Inv(p, s) && IdleTurn(p, s, c)
    ensures Rests(s, Step(p, s, c))
    ensures Unlocked(s) ==> Unlocked(Step(p, s, c))
  {
    hide Inv, PopLocalJob, Suspends, SlotOf, PlacementOf;
    if c.worker < |s.ws| && s.ws[c.worker].pc == Seek {
      MaestroIs(p, s, c.worker);
      PoppedNothing(p, s.core, s.ws[c.worker], s.runnables, c.preferRequired);
    }
  }

  lemma PoppedNothing(p: Plan, c: Core, m: Maestro, runnables: int, prefer: bool)
    requires MaestroOk(p, c, m) && PopLocalJob(m, runnables, prefer).job == 0
    ensures PopLocalJob(m, runnables, prefer) == Popped(0, false, m)
  {
    hide PcOk, IsReq;
    if m.run != [] {
      LastSplits(m.run);
    }
    if m.required != [] {
      LastSplits(m.required);
    }
  }

  // What looking for work adds to the weight of a worker.
  function Search(pc: Pc): nat {
    match pc
    case Top(job, _) => if job == 0 then 1 else 0
    case Steal => 2
    case _ => 0
  }

  function Searches(ws: seq<Maestro>): nat {
    if ws == [] then 0 else Searches(ws[..|ws| - 1]) + Search(ws[|ws| - 1].pc)
  }

  // The work that remains, not counting the search for it.
  function Work(s: Sched): (n: int)
    ensures n >= 0
  {
    SearchesAreFew(s.ws);
    Remaining(s) - Searches(s.ws)
  }

  lemma {:induction false} SearchesAreFew(ws: seq<Maestro>)
    ensures Searches(ws) <= Weights(ws)
  {
    if ws != [] {
      SearchesAreFew(ws[..|ws| - 1]);
    }
  }

  lemma {:induction false} SearchesUpdate(ws: seq<Maestro>, w: nat, m: Maestro)
    requires w < |ws|
    ensures Searches(ws[w := m]) == Searches(ws) - Search(ws[w].pc) + Search(m.pc)
  {
    hide Search;
    var last := |ws| - 1;
    if w == last {
      assert ws[w := m][..last] == ws[..last];
    } else {
      SearchesUpdate(ws[..last], w, m);
      assert ws[w := m][..last] == ws[..last][w := m];
    }
  }

  // Workers but w are where they were, and w was not searching.
  lemma {:induction false} SearchesGrow(ws: seq<Maestro>, ws': seq<Maestro>, w: nat)
    requires |ws'| == |ws| && (w < |ws| ==> Search(ws[w].pc) == 0)
    requires forall v :: 0 <= v < |ws| && v != w ==> ws'[v].pc == ws[v].pc
    ensures Searches(ws) <= Searches(ws')
  {
    hide Search;
    if ws != [] {
      SearchesGrow(ws[..|ws| - 1], ws'[..|ws| - 1], w);
    }
  }

  // A choice that asks for a suspension where none is possible is the same without.
  lemma NoSuspension(p: Plan, s: Sched, c: Choice)
    requires !Suspends(p, s, c)
    ensures Step(p, s, c) == Step(p, s, c.(suspends := false)) && !Suspends(p, s, c.(suspends := false))
    ensures Waits(p, s, c) <==> Waits(p, s, c.(suspends := false))
  {
    hide Push, Suspended, Finish, Release, Publish, Post, Flush, AfterFree, Hand, Begin, Drop, PopLocalJob, PlacementOf;
    hide IsCoro, SlotOf, Forks;
  }

  lemma BusyTurnLess(p: Plan, s: Sched, c: Choice)
    requires Inv(p, s) && c.worker < |s.ws| && !Idle(s.ws[c.worker]) && !Waits(p, s, c) && !Suspends(p, s, c)
    ensures Work(Step(p, s, c)) < Work(s)
  {
    hide Inv, Waits, Suspends, Remaining, Step;
    NoSuspension(p, s, c);
    BusyStepLess(p, s, c.(suspends := false));
    BusyMeansCounted(p, s, c.worker);
    StepOnlyMoves(p, s, c);
    SearchesGrow(s.ws, Step(p, s, c).ws, c.worker);
  }

  // A worker that looks for work and finds a job.
  lemma FindingLess(p: Plan, s: Sched, c: Choice)
    requires Inv(p, s) && c.worker < |s.ws| && Idle(s.ws[c.worker]) && !IdleTurn(p, s, c)
    ensures Work(Step(p, s, c)) < Work(s)
  {
    hide Inv, Waits, Remaining, PopLocalJob, Weights;
    var w, s' := c.worker, Step(p, s, c);
    if s.ws[w].pc == Seek {
      MaestroIs(p, s, w);
      PopsLess(p, s.core, s.ws[w], s.runnables, c.preferRequired);
      OneLess(s, s', w, s'.ws[w]);
      SearchesUpdate(s.ws, w, s'.ws[w]);
    } else {
      LastIsNamed(p, s, c.victim);
      TheftLess(s, s', w, c.victim);
      var robbed := s.ws[c.victim].(run := PopLast(s.ws[c.victim].run));
      SearchesUpdate(s.ws, c.victim, robbed);
      SearchesUpdate(s.ws[c.victim := robbed], w, s'.ws[w]);
    }
  }

  lemma PopsLess(p: Plan, c: Core, m: Maestro, runnables: int, prefer: bool)
    requires MaestroOk(p, c, m) && m.pc == Seek && PopLocalJob(m, runnables, prefer).job != 0
    ensures var r := PopLocalJob(m, runnables, prefer); Weight(r.rest.(pc := Top(r.job, r.req))) < Weight(m)
  {
    hide PcOk, IsReq;
    if m.run != [] {
      LastSplits(m.run);
    }
    if m.required != [] {
      LastSplits(m.required);
    }
  }

  // A suspension adds the continuation and its queue operations.
  lemma SuspensionAdds(p: Plan, s: Sched, c: Choice)
    requires Suspends(p, s, c) && !Waits(p, s, c)
    ensures Work(Step(p, s, c)) <= Work(s) + 19
  {
    hide Waits, Remaining, Push, IsReq, IsCoro, PlacementOf, Succ;
    var w, pc := c.worker, s.ws[c.worker].pc;
    var s1 := Suspended(p, s, w, pc, c.next);
    YieldLives(p, s.core, pc.node, c.next);
    WeightsUpdate(s.ws, w, s1.ws[w]);
    SuspendedWeighs(s, s1, w);
    PushWeighs(s1, c.next, w);
    SearchesUpdate(s.ws, w, s1.ws[w]);
    PushSearches(s1, c.next, w);
  }

  lemma YieldLives(p: Plan, c: Core, n: Id, next: Id)
    requires next !in c.jobs
    ensures |Live(Yield(p, c, n, next))| == |Live(c)| + 1
  {
    hide Succ, PlacementOf;
    assert Live(Yield(p, c, n, next)) == Live(c) + {next};
  }

  lemma SuspendedWeighs(s: Sched, s1: Sched, w: nat)
    requires w < |s.ws| == |s1.ws| && s.ws[w].pc.Running? && s1.ws == s.ws[w := s1.ws[w]]
    requires |Live(s1.core)| == |Live(s.core)| + 1
    requires Weights(s1.ws) == Weights(s.ws) - Weight(s.ws[w]) + Weight(s1.ws[w])
    requires s1.ws[w].pc.Posting? && s1.ws[w].run == s.ws[w].run && s1.ws[w].required == s.ws[w].required
    requires s1.ws[w].temp == s.ws[w].temp
    ensures Remaining(s1) <= Remaining(s) + 16
  {
    hide Live, Weights;
  }

  lemma PushSearches(s: Sched, id: Id, default: nat)
    requires |s.ws| > 0
    ensures Searches(Push(s, id, default).ws) == Searches(s.ws)
  {
    var t := Target(SlotOf(s.core, id).placement, default, |s.ws|);
    SearchesUpdate(s.ws, t, Enqueue(s.ws[t], id, IsReq(s.core, id)));
  }

  // Every turn that is not idle leaves less work, but for a suspension.
  lemma TurnLess(p: Plan, s: Sched, c: Choice)
    requires Inv(p, s)
    ensures if IdleTurn(p, s, c) then Work(Step(p, s, c)) == Work(s)
            else if Suspends(p, s, c) then Work(Step(p, s, c)) <= Work(s) + 19
            else Work(Step(p, s, c)) < Work(s)
  {
    hide Inv, Waits, Suspends, Step, Work;
    if IdleTurn(p, s, c) {
      IdleTurnRests(p, s, c);
      RestsWork(s, Step(p, s, c));
    } else if Suspends(p, s, c) {
      SuspensionAdds(p, s, c);
    } else if Idle(s.ws[c.worker]) {
      FindingLess(p, s, c);
    } else {
      BusyTurnLess(p, s, c);
    }
  }

  lemma RestsWork(s: Sched, s': Sched)
    requires Rests(s, s')
    ensures Work(s') == Work(s)
  {
    hide Live;
    RestsWeigh(s.ws, s'.ws);
  }

  lemma {:induction false} RestsWeigh(ws: seq<Maestro>, ws': seq<Maestro>)
    requires |ws'| == |ws|
    requires forall w :: 0 <= w < |ws| ==>
      ws'[w] == ws[w] || (Idle(ws[w]) && Idle(ws'[w]) && ws'[w] == ws[w].(pc := ws'[w].pc))
    ensures Weights(ws') - Searches(ws') == Weights(ws) - Searches(ws)
  {
    if ws != [] {
      RestsWeigh(ws[..|ws| - 1], ws'[..|ws| - 1]);
    }
  }

  // Turns of a run that were not idle, and those among them that suspended a coroutine.
  function Turns(p: Plan, threads: nat, choices: seq<Choice>): nat
    requires threads > 0
  {
    if choices == [] then 0
    else
      var front, last := choices[..|choices| - 1], choices[|choices| - 1];
      Turns(p, threads, front) + (if IdleTurn(p, Run(p, threads, front), last) then 0 else 1)
  }

  function Suspensions(p: Plan, threads: nat, choices: seq<Choice>): nat
    requires threads > 0
  {
    if choices == [] then 0
    else
      var front, last := choices[..|choices| - 1], choices[|choices| - 1];
      var s := Run(p, threads, front);
      Suspensions(p, threads, front) + (if Suspends(p, s, last) && !Waits(p, s, last) then 1 else 0)
  }

  lemma {:induction false} AllRest(threads: nat)
    ensures Searches(seq(threads, _ => Maestro([], [], [], 0, Top(0, false))))
      == Weights(seq(threads, _ => Maestro([], [], [], 0, Top(0, false))))
  {
    var idle := Maestro([], [], [], 0, Top(0, false));
    if threads > 0 {
      AllRest(threads - 1);
      assert seq(threads, _ => idle)[..threads - 1] == seq(threads - 1, _ => idle);
    }
  }

  lemma LaunchWork(p: Plan, threads: nat)
    requires threads > 0
    ensures Work(Launch(p, threads)) == 25 * |Ids(p)| + 3
  {
    hide PlacementOf, Ids, Succ, Predecessors, Weights, Searches;
    var idle := Maestro([], [], [], 0, Top(0, false));
    var req := PlacementOf(p, Head(p)).IsRequired();
    var t := Target(PlacementOf(p, Head(p)), 0, threads);
    AllRest(threads);
    WeightsUpdate(seq(threads, _ => idle), t, Enqueue(idle, Head(p), req));
    SearchesUpdate(seq(threads, _ => idle), t, Enqueue(idle, Head(p), req));
    assert Live(Posted(p)) == Ids(p);
  }

  // Whatever the schedule: there are no more turns that are not idle than the tree has work and suspensions add.
  lemma {:induction false} TurnsAreBounded(p: Plan, threads: nat, choices: seq<Choice>)
    requires Distinct(p) && threads > 0
    ensures Turns(p, threads, choices) <= 25 * |Ids(p)| + 3 + 20 * Suspensions(p, threads, choices)
    ensures Turns(p, threads, choices) + Work(Run(p, threads, choices))
      <= 25 * |Ids(p)| + 3 + 20 * Suspensions(p, threads, choices)
  {
    hide Distinct, Inv, Step, Waits, Suspends, IdleTurn, Work, Launch;
    if choices == [] {
      LaunchWork(p, threads);
    } else {
      var front, last := choices[..|choices| - 1], choices[|choices| - 1];
      TurnsAreBounded(p, threads, front);
      RunKeepsInv(p, threads, front);
      TurnLess(p, Run(p, threads, front), last);
      WaitingIsIdle(p, Run(p, threads, front), last);
    }
  }

  lemma WaitingIsIdle(p: Plan, s: Sched, c: Choice)
    ensures Waits(p, s, c) ==> IdleTurn(p, s, c)
  {
  }

  function MovesOf(seg: seq<Choice>, w: nat): nat {
    if seg == [] then 0 else (if seg[0].worker == w then 1 else 0) + MovesOf(seg[1..], w)
  }

  // A stretch of a schedule in which every worker gets three turns.
  predicate Fair(threads: nat, seg: seq<Choice>) {
    forall w :: 0 <= w < threads ==> MovesOf(seg, w) >= 3
  }

  // How many turns an idle worker needs to look at its queues.
  function Distance(pc: Pc): nat {
    if pc.Steal? then 2 else if pc.Top? then 1 else 0
  }

  // Worker w will have a turn that is not idle if it gets n turns, and nobody else has one before.
  predicate Ready(s: Sched, w: nat, n: nat) {
    && w < |s.ws|
    && (|| (s.ws[w].pc.Flushing? && n > 0)
        || (Unlocked(s) && !Idle(s.ws[w]) && n > 0)
        || (&& Unlocked(s) && s.sched != 0 && Idle(s.ws[w]) && s.ws[w].pc != Left && n > Distance(s.ws[w].pc)
            && forall prefer :: PopLocalJob(s.ws[w], s.runnables, prefer).job != 0))
  }

  lemma StaysReady(p: Plan, s: Sched, c: Choice, w: nat, n: nat)
    requires Inv(p, s) && Ready(s, w, n) && IdleTurn(p, s, c) && (c.worker == w ==> n > 0)
    ensures Ready(Step(p, s, c), w, if c.worker == w then n - 1 else n)
  {
    hide Inv, Suspends, SlotOf, PlacementOf;
    IdleTurnRests(p, s, c);
    var s' := Step(p, s, c);
    assert forall prefer :: s'.ws[w].run == s.ws[w].run && s'.ws[w].required == s.ws[w].required ==>
      PopLocalJob(s'.ws[w], s.runnables, prefer).job == PopLocalJob(s.ws[w], s.runnables, prefer).job;
  }

  // Sooner or later in such a stretch somebody has a turn that is not idle.
  lemma {:induction false} SomeTurn(p: Plan, threads: nat, choices: seq<Choice>, seg: seq<Choice>, w: nat)
    returns (i: nat)
    requires Distinct(p) && threads > 0 && Ready(Run(p, threads, choices), w, MovesOf(seg, w))
    ensures i < |seg| && !IdleTurn(p, Run(p, threads, choices + seg[..i]), seg[i])
    decreases |seg|
  {
    hide Distinct, Run, Step, Inv, IdleTurn;
    var s, c := Run(p, threads, choices), seg[0];
    if !IdleTurn(p, s, c) {
      i := 0;
      assert choices + seg[..0] == choices;
    } else {
      hide Ready;
      RunKeepsInv(p, threads, choices);
      RunOneMore(p, threads, choices, c);
      StaysReady(p, s, c, w, MovesOf(seg, w));
      var j := SomeTurn(p, threads, choices + [c], seg[1..], w);
      i := j + 1;
      assert choices + [c] + seg[1..][..j] == choices + seg[..i];
    }
  }

  // Unless SzSchedJob reads zero, a fair stretch brings a turn that is not idle.
  lemma FairTurn(p: Plan, threads: nat, choices: seq<Choice>, seg: seq<Choice>) returns (i: nat)
    requires Distinct(p) && threads > 0 && Run(p, threads, choices).sched != 0 && Fair(threads, seg)
    ensures i < |seg| && !IdleTurn(p, Run(p, threads, choices + seg[..i]), seg[i])
  {
    hide Distinct, Run, Inv, IdleTurn, Idle, PopLocalJob;
    var s := Run(p, threads, choices);
    RunKeepsInv(p, threads, choices);
    var w;
    if x :| 0 <= x < |s.ws| && s.ws[x].pc.Flushing? {
      w := x;
    } else if x :| 0 <= x < |s.ws| && !Idle(s.ws[x]) {
      w := x;
    } else {
      w := SomeoneCanPop(p, threads, choices);
    }
    assert MovesOf(seg, w) >= 3;
    i := SomeTurn(p, threads, choices, seg, w);
  }

  // A turn that is not idle counts.
  lemma {:induction false} TurnCounts(p: Plan, threads: nat, choices: seq<Choice>, seg: seq<Choice>, i: nat)
    requires threads > 0 && i < |seg| && !IdleTurn(p, Run(p, threads, choices + seg[..i]), seg[i])
    ensures Turns(p, threads, choices + seg) > Turns(p, threads, choices)
    decreases |seg|
  {
    hide Run, IdleTurn;
    var front := seg[..|seg| - 1];
    assert (choices + seg)[..|choices + seg| - 1] == choices + front;
    if i < |front| {
      assert front[..i] == seg[..i];
      TurnCounts(p, threads, choices, front, i);
    } else {
      TurnsGrow(p, threads, choices, front);
    }
  }

  lemma {:induction false} TurnsGrow(p: Plan, threads: nat, choices: seq<Choice>, more: seq<Choice>)
    requires threads > 0
    ensures Turns(p, threads, choices + more) >= Turns(p, threads, choices)
  {
    hide Run, IdleTurn;
    if more == [] {
      assert choices + more == choices;
    } else {
      assert (choices + more)[..|choices + more| - 1] == choices + more[..|more| - 1];
      TurnsGrow(p, threads, choices, more[..|more| - 1]);
    }
  }

  function Joined(rounds: seq<seq<Choice>>): seq<Choice> {
    if rounds == [] then [] else Joined(rounds[..|rounds| - 1]) + rounds[|rounds| - 1]
  }

  // Every fair stretch brings a turn that is not idle, until SzSchedJob has read zero.
  lemma {:induction false} EveryRoundCounts(p: Plan, threads: nat, rounds: seq<seq<Choice>>) returns (i: nat)
    requires Distinct(p) && threads > 0 && forall k :: 0 <= k < |rounds| ==> Fair(threads, rounds[k])
    ensures i <= |Joined(rounds)|
    ensures Turns(p, threads, Joined(rounds)) >= |rounds| || Run(p, threads, Joined(rounds)[..i]).sched == 0
  {
    hide Distinct, Run, Fair;
    i := 0;
    if rounds != [] {
      var front, last := rounds[..|rounds| - 1], rounds[|rounds| - 1];
      i := EveryRoundCounts(p, threads, front);
      var all := Joined(front);
      assert (all + last)[..i] == all[..i];
      if Run(p, threads, all[..i]).sched != 0 {
        if Run(p, threads, all).sched == 0 {
          i := |all|;
          assert (all + last)[..i] == all;
        } else {
          var j := FairTurn(p, threads, all, last);
          TurnCounts(p, threads, all, last, j);
        }
      }
    }
  }

  // Every fair schedule gets there: with more fair stretches than the tree has work and suspensions add, everything has
  // run. Nothing is asked of whom a worker robs, which of two queue tops is older, or when workers take their turns.
  lemma FairRunsComplete(p: Plan, threads: nat, rounds: seq<seq<Choice>>)
    requires Distinct(p) && threads > 0 && forall k :: 0 <= k < |rounds| ==> Fair(threads, rounds[k])
    requires |rounds| > 25 * |Ids(p)| + 3 + 20 * Suspensions(p, threads, Joined(rounds))
    ensures var s := Run(p, threads, Joined(rounds)); s.core.done == Ids(p) && WoundDown(s) && NothingDue(s.core)
  {
    hide Distinct, Run, Fair, Turns, Suspensions, WoundDown;
    var all := Joined(rounds);
    var i := EveryRoundCounts(p, threads, rounds);
    TurnsAreBounded(p, threads, all);
    ZeroMeansComplete(p, threads, all[..i], all[i..]);
    assert all[..i] + all[i..] == all;
  }
}
