// Which workers never run a chore.

module HeistHome {
  import opened HeistPlacement
  import opened HeistPlan
  import opened HeistCore
  import opened HeistLoop
  import opened HeistRuns

  ghost predicate Unforked(p: Plan, n: Id) {
    forall f :: n !in Forks(p, f)
  }

  // n is run at home if the nodes in `kept` are. A required chore is sent home by whoever releases it, unless a fork
  // starts it: then it stays with the worker that runs the fork. A chore that requires nobody stays with the worker
  // that releases it last, unless that is a coroutine, which publishes it.
  ghost predicate Settled(p: Plan, n: Id, home: set<nat>, threads: nat, kept: set<Id>)
    requires threads > 0
  {
    && n in Ids(p)
    && if PlacementOf(p, n).IsRequired() then
         && (Unforked(p, n) || IsCoro(p, n) ==> Target(PlacementOf(p, n), 0, threads) in home)
         && (forall f :: n in Forks(p, f) ==> f in kept)
       else
         && Unforked(p, n) && n != Head(p) && !IsCoro(p, n)
         && (forall m :: m in Ids(p) && Succ(p, m) == n ==> m in kept && !IsCoro(p, m))
  }

  // Every node in `bound` is settled, given that those in `assumed` are run at home.
  ghost predicate HomeSet(p: Plan, bound: set<Id>, assumed: set<Id>, home: set<nat>, threads: nat)
    requires threads > 0
  {
    forall n :: n in bound ==> Settled(p, n, home, threads, bound + assumed)
  }

  // What is followed through a run.
  datatype Watch = Watch(bound: set<Id>, assumed: set<Id>, home: set<nat>)

  ghost predicate WatchOk(p: Plan, k: Watch, threads: nat)
    requires threads > 0
  {
    HomeSet(p, k.bound, k.assumed, k.home, threads)
  }

  predicate JobBound(c: Core, id: Id, k: Watch) {
    id in c.jobs && c.jobs[id].node in k.bound
  }

  predicate Kept(n: Id, k: Watch) {
    n in k.bound || n in k.assumed
  }

  // Required, and sent home from anywhere.
  predicate SentHome(c: Core, id: Id, k: Watch, threads: nat)
    requires threads > 0
  {
    IsReq(c, id) && Target(SlotOf(c, id).placement, 0, threads) in k.home
  }

  // Any worker: no bound job waits in its run queue or is on its way there, and those it passes on go home.
  predicate Tidy(c: Core, m: Maestro, k: Watch, threads: nat)
    requires threads > 0
  {
    QueuesTidy(c, m, k) && PcTidy(c, m.pc, k, threads)
  }

  predicate QueuesTidy(c: Core, m: Maestro, k: Watch) {
    && (forall id :: id in m.run ==> !JobBound(c, id, k))
    && (forall id :: id in m.temp && JobBound(c, id, k) ==> IsReq(c, id))
  }

  predicate PcTidy(c: Core, pc: Pc, k: Watch, threads: nat)
    requires threads > 0
  {
    match pc
    case Flushing(_, _, _, moving) => JobBound(c, moving, k) ==> IsReq(c, moving)
    case Publishing(_, _, _, next, stage) => stage != Pushed && JobBound(c, next, k) ==> SentHome(c, next, k, threads)
    case Handing(_, next, stage, inline) => stage != Pushed && !inline && JobBound(c, next, k) ==>
      SentHome(c, next, k, threads)
    case _ => true
  }

  // A worker that is not at home: it keeps no bound job, unless to hand it over.
  predicate Away(c: Core, m: Maestro, k: Watch) {
    QueuesAway(c, m, k) && PcAway(c, m.pc, k)
  }

  predicate QueuesAway(c: Core, m: Maestro, k: Watch) {
    (forall id :: id in m.required ==> !JobBound(c, id, k)) && (forall id :: id in m.temp ==> !JobBound(c, id, k))
  }

  predicate PcAway(c: Core, pc: Pc, k: Watch) {
    match pc
    case Top(job, _) => !JobBound(c, job, k)
    case Take(job, _) => !JobBound(c, job, k)
    case Running(_, node, _) => node !in k.bound
    case Closing(_, node, _, holds) => holds ==> !Kept(node, k)
    case Flushing(node, _, holds, moving) => !JobBound(c, moving, k) && (holds ==> !Kept(node, k))
    case Releasing(node, _, holds) => holds ==> !Kept(node, k)
    case Handing(_, next, stage, inline) => inline && stage != Pushed ==> !JobBound(c, next, k)
    case Settling(_, next, _) => !JobBound(c, next, k)
    case Dropping(next, _) => !JobBound(c, next, k)
    case _ => true
  }

  predicate WorkerHome(s: Sched, v: nat, k: Watch)
    requires v < |s.ws|
  {
    Tidy(s.core, s.ws[v], k, |s.ws|) && (v !in k.home ==> Away(s.core, s.ws[v], k))
  }

  predicate AtHome(s: Sched, k: Watch) {
    forall v :: 0 <= v < |s.ws| ==> WorkerHome(s, v, k)
  }

  // No worker away from home is running what is assumed to be run at home.
  predicate Obeys(s: Sched, k: Watch) {
    forall v :: 0 <= v < |s.ws| && v !in k.home && s.ws[v].pc.Running? ==> s.ws[v].pc.node !in k.assumed
  }

  // No job but `added` appears, and none changes the node or the placement in its row.
  predicate JobsStay(c: Core, c': Core, added: Id) {
    added !in c.jobs && forall id :: id in c'.jobs && id != added ==>
      id in c.jobs && c'.jobs[id].node == c.jobs[id].node && c'.jobs[id].placement == c.jobs[id].placement
  }

  lemma NoJobZero(p: Plan, s: Sched)
    requires Inv(p, s)
    ensures 0 !in s.core.jobs
  {
    hide Ids, Sum, MaestroOk, TokenOk, CarrierOk, PlanInv, Distinct;
    assert 0 in s.core.jobs ==> SlotOk(p, s.core, 0);
  }

  lemma SlotIsPlanned(p: Plan, c: Core, id: Id)
    requires CoreInv(p, c) && id in c.jobs
    ensures c.jobs[id].placement == PlacementOf(p, c.jobs[id].node)
  {
    hide Ids, TokenOk, CarrierOk, PlanInv, Distinct;
    assert SlotOk(p, c, id);
  }

  lemma QueuesStay(p: Plan, c: Core, c': Core, added: Id, m: Maestro, m': Maestro, k: Watch)
    requires MaestroOk(p, c, m) && MaestroOk(p, c', m') && JobsStay(c, c', added)
    requires m'.run == m.run && m'.required == m.required && m'.temp == m.temp
    ensures QueuesTidy(c, m, k) ==> QueuesTidy(c', m', k)
    ensures QueuesAway(c, m, k) ==> QueuesAway(c', m', k)
  {
    hide PcOk;
  }

  // A worker that keeps its queues and its place is where it was, whatever happens to the table.
  lemma StaysHome(p: Plan, c: Core, c': Core, added: Id, m: Maestro, k: Watch, threads: nat)
    requires threads > 0 && MaestroOk(p, c, m) && MaestroOk(p, c', m) && JobsStay(c, c', added) && 0 !in c.jobs
    requires 0 !in c'.jobs
    ensures Tidy(c, m, k, threads) ==> Tidy(c', m, k, threads)
    ensures Away(c, m, k) ==> Away(c', m, k)
  {
    hide Succ, Executing, HoldOk, QueuesOk;
    QueuesStay(p, c, c', added, m, m, k);
    hide QueuesTidy, QueuesAway;
  }

  predicate AllOk(p: Plan, s: Sched) {
    forall v :: 0 <= v < |s.ws| ==> MaestroOk(p, s.core, s.ws[v])
  }

  lemma InvAllOk(p: Plan, s: Sched)
    requires Inv(p, s)
    ensures AllOk(p, s) && CoreInv(p, s.core) && |s.ws| > 0
  {
    hide Sum, CoreInv, MaestroOk;
  }

  // Only v has changed, besides the table.
  lemma OnlyMine(p: Plan, s: Sched, s': Sched, v: nat, added: Id, k: Watch)
    requires AllOk(p, s) && AllOk(p, s') && AtHome(s, k) && v < |s.ws| == |s'.ws| && JobsStay(s.core, s'.core, added)
    requires 0 !in s.core.jobs && 0 !in s'.core.jobs && forall u :: 0 <= u < |s.ws| && u != v ==> s'.ws[u] == s.ws[u]
    requires WorkerHome(s', v, k)
    ensures AtHome(s', k)
  {
    hide Away, Tidy, MaestroOk, JobsStay;
    forall u | 0 <= u < |s'.ws|
      ensures WorkerHome(s', u, k)
    {
      if u != v {
        assert WorkerHome(s, u, k);
        StaysHome(p, s.core, s'.core, added, s.ws[u], k, |s.ws|);
      }
    }
  }

  // Worker v moves on in its program and keeps its queues.
  lemma MineMoves(p: Plan, s: Sched, s': Sched, v: nat, added: Id, k: Watch)
    requires AllOk(p, s) && AllOk(p, s') && AtHome(s, k) && v < |s.ws| == |s'.ws| && JobsStay(s.core, s'.core, added)
    requires 0 !in s.core.jobs && 0 !in s'.core.jobs
    requires s'.ws == s.ws[v := s.ws[v].(cur := s'.ws[v].cur, pc := s'.ws[v].pc)]
    requires PcTidy(s'.core, s'.ws[v].pc, k, |s.ws|) && (v !in k.home ==> PcAway(s'.core, s'.ws[v].pc, k))
    ensures AtHome(s', k)
  {
    hide PcTidy, PcAway, QueuesTidy, QueuesAway, MaestroOk, JobsStay;
    assert WorkerHome(s, v, k) && MaestroOk(p, s.core, s.ws[v]) && MaestroOk(p, s'.core, s'.ws[v]);
    QueuesStay(p, s.core, s'.core, added, s.ws[v], s'.ws[v], k);
    OnlyMine(p, s, s', v, added, k);
  }

  lemma SameJobs(c: Core)
    requires 0 !in c.jobs
    ensures JobsStay(c, c, 0)
  {
  }

  // A job that goes home if it is bound may be pushed.
  lemma PushedHome(s: Sched, id: Id, default: nat, k: Watch)
    requires |s.ws| > 0 && AtHome(s, k) && (JobBound(s.core, id, k) ==> SentHome(s.core, id, k, |s.ws|))
    ensures AtHome(Push(s, id, default), k)
  {
    hide JobBound, PcTidy, PcAway;
    var t := Target(SlotOf(s.core, id).placement, default, |s.ws|);
    forall u | 0 <= u < |s.ws|
      ensures WorkerHome(Push(s, id, default), u, k)
    {
      assert WorkerHome(s, u, k);
    }
  }

  lemma FinishStays(p: Plan, c: Core, n: Id)
    requires 0 !in c.jobs
    ensures JobsStay(c, Finish(p, c, n), 0) && 0 !in Finish(p, c, n).jobs && Finish(p, c, n).jobs == c.jobs
  {
    hide Forks;
  }

  lemma ReleaseStays(p: Plan, c: Core, n: Id)
    requires 0 !in c.jobs
    ensures JobsStay(c, Release(p, c, n), 0) && 0 !in Release(p, c, n).jobs
  {
    hide Succ;
  }

  lemma YieldStays(p: Plan, c: Core, n: Id, next: Id)
    requires 0 !in c.jobs && next != 0 && next !in c.jobs
    ensures JobsStay(c, Yield(p, c, n, next), next) && 0 !in Yield(p, c, n, next).jobs
  {
    hide Succ, PlacementOf;
  }

  // The continuation of a bound coroutine goes home.
  lemma ContinuationGoesHome(p: Plan, c: Core, n: Id, next: Id, k: Watch, threads: nat)
    requires threads > 0 && WatchOk(p, k, threads) && IsCoro(p, n)
    ensures var y := Yield(p, c, n, next); JobBound(y, next, k) ==> SentHome(y, next, k, threads)
  {
    hide Succ, Forks, IsCoro, PlacementOf, Ids;
    assert n in k.bound ==> Settled(p, n, k.home, threads, k.bound + k.assumed);
  }

  lemma YieldsHome(p: Plan, s: Sched, c: Choice, k: Watch)
    requires Inv(p, s) && AtHome(s, k) && |s.ws| > 0 && WatchOk(p, k, |s.ws|) && Suspends(p, s, c)
    ensures AtHome(Push(Suspended(p, s, c.worker, s.ws[c.worker].pc, c.next), c.next, c.worker), k)
  {
    hide Inv, AtHome, JobsStay, IsReq, WatchOk, SentHome, JobBound, AllOk, Yield, IsCoro, Held, CoupledUpTo, Push;
    var v, pc := c.worker, s.ws[c.worker].pc;
    var s1 := Suspended(p, s, v, pc, c.next);
    NoJobZero(p, s);
    InvAllOk(p, s);
    SuspendedBalances(p, s, v, c.next);
    UpToAllOk(p, s1, Parcel(c.next, IsReq(s1.core, c.next)));
    YieldStays(p, s.core, pc.node, c.next);
    MineMoves(p, s, s1, v, c.next, k);
    ContinuationGoesHome(p, s.core, pc.node, c.next, k, |s.ws|);
    PushedHome(s1, c.next, v, k);
  }

  lemma UpToAllOk(p: Plan, s: Sched, extra: Tally)
    requires CoupledUpTo(p, s, extra)
    ensures AllOk(p, s)
  {
    hide Sum, CoreInv, MaestroOk;
  }

  // The successor of n is what its row stands for, and no fork starts it.
  lemma SuccessorIs(p: Plan, c: Core, n: Id)
    requires CoreInv(p, c) && n in c.carrier && Succ(p, n) != 0
    ensures var b := Succ(p, n);
      b in c.jobs && c.jobs[b].node == b && Unforked(p, b) && c.jobs[b].placement == PlacementOf(p, b)
  {
    hide Ids, TokenOk, PlanInv, Due, Forks, Succ;
    assert CarrierOk(p, c, n);
    var b := Succ(p, n);
    SlotIsPlanned(p, c, b);
    forall f
      ensures b !in Forks(p, f)
    {
      if b in Forks(p, f) {
        ForkedOnce(p, f, b, n);
      }
    }
  }

  // What a coroutine publishes when it is over goes home if it is bound.
  lemma PublishedGoesHome(p: Plan, c: Core, n: Id, k: Watch, threads: nat)
    requires threads > 0 && WatchOk(p, k, threads) && CoreInv(p, c) && n in c.carrier && n in Ids(p) && IsCoro(p, n)
    requires Succ(p, n) != 0
    ensures JobBound(c, Succ(p, n), k) ==> SentHome(c, Succ(p, n), k, threads)
  {
    hide CoreInv, Succ, Forks, IsCoro, PlacementOf, Ids, Target, Unforked;
    SuccessorIs(p, c, n);
    var b := Succ(p, n);
    assert b in k.bound ==> Settled(p, b, k.home, threads, k.bound + k.assumed);
  }

  // A row that stays sends its job where it did.
  lemma SentFromNewTable(c: Core, c': Core, id: Id, k: Watch, threads: nat)
    requires threads > 0 && JobsStay(c, c', 0) && id != 0
    requires JobBound(c, id, k) ==> SentHome(c, id, k, threads)
    ensures JobBound(c', id, k) ==> SentHome(c', id, k, threads)
  {
  }

  lemma RunningIs(p: Plan, s: Sched, v: nat)
    requires Inv(p, s) && v < |s.ws| && s.ws[v].pc.Running?
    ensures var n := s.ws[v].pc.node;
            CoreInv(p, s.core) && n in s.core.carrier && n in Ids(p) && n !in s.core.done && s.ws[v].cur == Succ(p, n)
  {
    hide Sum, TableInv, Ids, Distinct, QueuesOk, Succ;
    CarriedNodes(p, s, v);
    assert MaestroOk(p, s.core, s.ws[v]);
  }

  // A fork's entry stays with the fork if it is bound.
  lemma EntryIsKept(p: Plan, c: Core, n: Id, h: Id, k: Watch, threads: nat)
    requires threads > 0 && WatchOk(p, k, threads) && CoreInv(p, c) && n in Ids(p) && n !in c.done && h in Forks(p, n)
    ensures JobBound(c, h, k) ==> IsReq(c, h) && Kept(n, k)
  {
    hide Ids, TableInv, Distinct, Due, Forks, Succ, PlacementOf, Target;
    assert NodeOk(p, c, n) && Waiting(c, h);
    assert h in k.bound ==> Settled(p, h, k.home, threads, k.bound + k.assumed);
    SlotIsPlanned(p, c, h);
  }

  lemma EntriesAreKept(p: Plan, c: Core, c': Core, n: Id, k: Watch, threads: nat)
    requires threads > 0 && WatchOk(p, k, threads) && CoreInv(p, c) && n in Ids(p) && n !in c.done && c'.jobs == c.jobs
    ensures forall h :: h in Forks(p, n) && JobBound(c', h, k) ==> IsReq(c', h) && Kept(n, k)
  {
    hide Ids, CoreInv, Forks, JobBound, WatchOk, IsReq, Kept;
    forall h | h in Forks(p, n)
      ensures JobBound(c, h, k) ==> IsReq(c, h) && Kept(n, k)
    {
      EntryIsKept(p, c, n, h, k, threads);
    }
    SameRows(c, c', k);
  }

  lemma SameRows(c: Core, c': Core, k: Watch)
    requires c'.jobs == c.jobs
    ensures forall h :: (JobBound(c', h, k) <==> JobBound(c, h, k)) && IsReq(c', h) == IsReq(c, h)
  {
  }

  // A body that ends for good, with its successor left for later.
  lemma CompletesHome(p: Plan, s: Sched, c: Choice, k: Watch)
    requires Inv(p, s) && Inv(p, Step(p, s, c)) && AtHome(s, k) && Obeys(s, k) && |s.ws| > 0 && WatchOk(p, k, |s.ws|)
    requires c.worker < |s.ws| && s.ws[c.worker].pc.Running? && !Suspends(p, s, c) && !Publishes(p, s, c)
    ensures AtHome(Step(p, s, c), k)
  {
    hide Inv, JobsStay, WatchOk, Kept, Forks, IsCoro, Succ, Finish, IsReq, JobBound, AllOk, CoreInv, Ids;
    var v, pc, s' := c.worker, s.ws[c.worker].pc, Step(p, s, c);
    NoJobZero(p, s);
    InvAllOk(p, s);
    InvAllOk(p, s');
    RunningIs(p, s, v);
    FinishStays(p, s.core, pc.node);
    EntriesAreKept(p, s.core, s'.core, pc.node, k, |s.ws|);
    CompletedWorker(p, s, s', v, k);
    OnlyMine(p, s, s', v, 0, k);
  }

  lemma CompletedWorker(p: Plan, s: Sched, s': Sched, v: nat, k: Watch)
    requires AllOk(p, s) && AtHome(s, k) && Obeys(s, k) && v < |s.ws| == |s'.ws| && s.ws[v].pc.Running?
    requires s'.core.jobs == s.core.jobs
    requires var pc, m := s.ws[v].pc, s.ws[v];
             s'.ws[v] == m.(temp := m.temp + Forks(p, pc.node), pc := Closing(pc.job, pc.node, pc.req, true))
    requires forall h :: h in Forks(p, s.ws[v].pc.node) && JobBound(s'.core, h, k) ==>
      IsReq(s'.core, h) && Kept(s.ws[v].pc.node, k)
    ensures WorkerHome(s', v, k)
  {
    hide Forks, IsReq, JobBound;
    assert WorkerHome(s, v, k);
    SameRows(s.core, s'.core, k);
  }

  lemma DonesHome(p: Plan, s: Sched, c: Choice, k: Watch)
    requires Inv(p, s) && Inv(p, Step(p, s, c)) && AtHome(s, k) && |s.ws| > 0 && WatchOk(p, k, |s.ws|)
    requires Publishes(p, s, c)
    ensures AtHome(Step(p, s, c), k)
  {
    hide Inv, AtHome, JobsStay, WatchOk, SentHome, JobBound, IsCoro, Succ, Finish, Release, IsReq, AllOk, CoreInv, Ids;
    var v, pc, s' := c.worker, s.ws[c.worker].pc, Step(p, s, c);
    NoJobZero(p, s);
    InvAllOk(p, s);
    InvAllOk(p, s');
    RunningIs(p, s, v);
    var done := Finish(p, s.core, pc.node);
    FinishStays(p, s.core, pc.node);
    ReleaseStays(p, done, pc.node);
    JobsStayTwice(s.core, done, s'.core);
    PublishedGoesHome(p, s.core, pc.node, k, |s.ws|);
    SentFromNewTable(s.core, s'.core, s.ws[v].cur, k, |s.ws|);
    MineMoves(p, s, s', v, 0, k);
  }

  lemma JobsStayTwice(a: Core, b: Core, c: Core)
    requires JobsStay(a, b, 0) && JobsStay(b, c, 0)
    ensures JobsStay(a, c, 0)
  {
  }

  lemma EndsHome(p: Plan, s: Sched, c: Choice, k: Watch)
    requires Inv(p, s) && Inv(p, Step(p, s, c)) && AtHome(s, k) && Obeys(s, k) && |s.ws| > 0 && WatchOk(p, k, |s.ws|)
    requires c.worker < |s.ws| && s.ws[c.worker].pc.Running?
    ensures AtHome(Step(p, s, c), k)
  {
    hide Inv, AtHome, Obeys, WatchOk, IsCoro, Suspended, Push, Finish, Release, SlotOf;
    if Suspends(p, s, c) {
      YieldsHome(p, s, c, k);
    } else if Publishes(p, s, c) {
      DonesHome(p, s, c, k);
    } else {
      CompletesHome(p, s, c, k);
    }
  }

  lemma PublishesHome(p: Plan, s: Sched, v: nat, k: Watch)
    requires Inv(p, s) && AtHome(s, k) && v < |s.ws| && s.ws[v].pc.Publishing?
    ensures AtHome(Publish(s, v, s.ws[v].pc), k)
  {
    hide Inv, SentHome, JobBound, IsReq, Push, QueuesTidy, QueuesAway;
    var pc := s.ws[v].pc;
    assert WorkerHome(s, v, k);
    if pc.stage == Counted {
      var m := if IsReq(s.core, pc.next) then s.ws[v].(cur := 0, pc := Closing(pc.job, pc.node, pc.req, false))
               else s.ws[v].(pc := Publishing(pc.job, pc.node, pc.req, pc.next, Pushed));
      MovedAside(s, s.(ws := s.ws[v := m]), v, k);
      PushedHome(s.(ws := s.ws[v := m]), pc.next, 0, k);
    } else {
      MovedAside(s, Publish(s, v, pc), v, k);
    }
  }

  // Worker v moves on with the table as it is.
  lemma MovedAside(s: Sched, s': Sched, v: nat, k: Watch)
    requires AtHome(s, k) && v < |s.ws| == |s'.ws| && s'.core == s.core
    requires s'.ws == s.ws[v := s.ws[v].(cur := s'.ws[v].cur, pc := s'.ws[v].pc)]
    requires PcTidy(s.core, s'.ws[v].pc, k, |s.ws|) && (v !in k.home ==> PcAway(s.core, s'.ws[v].pc, k))
    ensures AtHome(s', k)
  {
    hide PcTidy, PcAway, JobBound, IsReq;
    forall u | 0 <= u < |s'.ws|
      ensures WorkerHome(s', u, k)
    {
      assert WorkerHome(s, u, k);
    }
  }

  lemma HandsHome(p: Plan, s: Sched, v: nat, k: Watch)
    requires Inv(p, s) && AtHome(s, k) && v < |s.ws| && s.ws[v].pc.Handing?
    ensures AtHome(Hand(s, v, s.ws[v].pc), k)
  {
    hide Inv, SentHome, IsReq, Push, QueuesTidy, QueuesAway;
    var pc := s.ws[v].pc;
    NoJobZero(p, s);
    assert WorkerHome(s, v, k);
    if pc.stage == Counted && !pc.inline {
      var m := s.ws[v].(pc := if IsReq(s.core, pc.next) then Settling(pc.req, 0, false)
        else Handing(pc.req, pc.next, Pushed, false));
      MovedAside(s, s.(ws := s.ws[v := m]), v, k);
      PushedHome(s.(ws := s.ws[v := m]), pc.next, 0, k);
    } else {
      MovedAside(s, Hand(s, v, pc), v, k);
    }
  }

  lemma FlushesHome(p: Plan, s: Sched, v: nat, k: Watch)
    requires Inv(p, s) && AtHome(s, k) && v < |s.ws| && s.ws[v].pc.Flushing?
    ensures AtHome(Flush(s, v, s.ws[v].pc), k)
  {
    hide Inv, JobBound, IsReq;
    NoJobZero(p, s);
    NothingAtZero(s.core, k);
    FlushedWorker(s, v, k);
    var s' := Flush(s, v, s.ws[v].pc);
    forall u | 0 <= u < |s'.ws|
      ensures WorkerHome(s', u, k)
    {
      assert WorkerHome(s, u, k);
    }
  }

  lemma FlushedWorker(s: Sched, v: nat, k: Watch)
    requires v < |s.ws| && s.ws[v].pc.Flushing? && WorkerHome(s, v, k) && !JobBound(s.core, 0, k)
    ensures v < |Flush(s, v, s.ws[v].pc).ws| && WorkerHome(Flush(s, v, s.ws[v].pc), v, k)
  {
    hide JobBound, IsReq;
    if s.ws[v].temp != [] {
      LastSplits(s.ws[v].temp);
    }
  }

  lemma NothingAtZero(c: Core, k: Watch)
    requires 0 !in c.jobs
    ensures !JobBound(c, 0, k)
  {
  }

  // Where a worker goes on after releasing n: home if the successor is bound.
  lemma ReleasedGoesHome(p: Plan, s: Sched, v: nat, k: Watch)
    requires Inv(p, s) && v < |s.ws| && s.ws[v].pc.Releasing? && WorkerHome(s, v, k) && WatchOk(p, k, |s.ws|)
    ensures var cur, pc := s.ws[v].cur, s.ws[v].pc;
            var next := ReleasedPc(s.core, cur, pc, SlotOf(s.core, cur).placement.CanExecuteOn(v));
            PcTidy(s.core, next, k, |s.ws|) && (v !in k.home ==> PcAway(s.core, next, k))
  {
    hide Sum, Ids, Distinct, QueuesOk, Succ, Due, WatchOk, IsCoro, Unforked, PlacementOf, Forks, TokenOk;
    var pc, c := s.ws[v].pc, s.core;
    NoJobZero(p, s);
    assert MaestroOk(p, c, s.ws[v]);
    if pc.holds && s.ws[v].cur != 0 {
      ReleasingIs(p, s, v);
      SuccessorIs(p, c, pc.node);
      if s.ws[v].cur in k.bound {
        BoundSuccessor(p, pc.node, k, |s.ws|);
      }
    }
  }

  lemma ReleasingIs(p: Plan, s: Sched, v: nat)
    requires Inv(p, s) && v < |s.ws| && s.ws[v].pc.Releasing? && s.ws[v].pc.holds
    ensures var n := s.ws[v].pc.node;
      CoreInv(p, s.core) && n in s.core.carrier && n in Ids(p) && s.ws[v].cur == Succ(p, n)
  {
    hide Sum, Ids, Distinct, QueuesOk, Succ, Due, TokenOk, CarrierOk;
    MineAlone(p, s, v);
    assert s.ws[v].pc.node in PcTally(s.ws[v].pc).hands;
  }

  // A bound successor is sent home, or stays with the worker, which then keeps its predecessor.
  lemma BoundSuccessor(p: Plan, n: Id, k: Watch, threads: nat)
    requires threads > 0 && WatchOk(p, k, threads) && n in Ids(p) && Succ(p, n) in k.bound && Unforked(p, Succ(p, n))
    ensures var b := Succ(p, n);
            if PlacementOf(p, b).IsRequired() then Target(PlacementOf(p, b), 0, threads) in k.home else Kept(n, k)
  {
    hide Succ, Forks, PlacementOf, Ids, Target, Unforked, IsCoro;
    assert Settled(p, Succ(p, n), k.home, threads, k.bound + k.assumed);
  }

  lemma ReleasesHome(p: Plan, s: Sched, c: Choice, k: Watch)
    requires Inv(p, s) && Inv(p, Step(p, s, c)) && AtHome(s, k) && |s.ws| > 0 && WatchOk(p, k, |s.ws|)
    requires c.worker < |s.ws| && s.ws[c.worker].pc.Releasing?
    ensures AtHome(Step(p, s, c), k)
  {
    hide Inv, AllOk, JobsStay, WatchOk, Release, CoreInv, PcTidy, PcAway, QueuesTidy, QueuesAway, SlotOf;
    var v, s' := c.worker, Step(p, s, c);
    var pc, cur := s.ws[v].pc, s.ws[v].cur;
    var next := ReleasedPc(s.core, cur, pc, SlotOf(s.core, cur).placement.CanExecuteOn(v));
    NoJobZero(p, s);
    InvAllOk(p, s);
    InvAllOk(p, s');
    assert WorkerHome(s, v, k);
    ReleasedGoesHome(p, s, v, k);
    SameJobs(s.core);
    ReleaseStays(p, s.core, pc.node);
    MovesWithTable(s.core, s'.core, next, k, |s.ws|);
    MineMoves(p, s, s', v, 0, k);
  }

  // A place in the program that names no continuation is judged the same after the table has changed.
  lemma MovesWithTable(c: Core, c': Core, pc: Pc, k: Watch, threads: nat)
    requires threads > 0 && JobsStay(c, c', 0) && 0 !in c'.jobs && 0 !in c.jobs
    ensures PcTidy(c, pc, k, threads) && (pc.Handing? || pc.Settling?) ==> PcTidy(c', pc, k, threads)
    ensures PcAway(c, pc, k) ==> PcAway(c', pc, k)
  {
  }

  lemma TakesHome(p: Plan, s: Sched, c: Choice, k: Watch)
    requires Inv(p, s) && Inv(p, Step(p, s, c)) && AtHome(s, k) && c.worker < |s.ws| && s.ws[c.worker].pc.Take?
    ensures AtHome(Step(p, s, c), k)
  {
    hide Inv, AllOk, QueuesTidy, QueuesAway, JobsStay, Begin;
    var v, s' := c.worker, Step(p, s, c);
    NoJobZero(p, s);
    InvAllOk(p, s);
    InvAllOk(p, s');
    TakenIsThere(p, s, v);
    BeginStays(s.core, s.ws[v].pc.job);
    SameJobs(s.core);
    assert WorkerHome(s, v, k);
    MineMoves(p, s, s', v, 0, k);
  }

  lemma TakenIsThere(p: Plan, s: Sched, v: nat)
    requires Inv(p, s) && v < |s.ws| && s.ws[v].pc.Take?
    ensures s.ws[v].pc.job in s.core.jobs
  {
    hide Sum, CoreInv, QueuesOk;
    assert MaestroOk(p, s.core, s.ws[v]);
  }

  lemma BeginStays(c: Core, job: Id)
    requires 0 !in c.jobs && job in c.jobs
    ensures c.jobs[job].node in c.runs ==> JobsStay(c, Begin(c, job), 0) && 0 !in Begin(c, job).jobs
  {
  }

  lemma ClosesHome(p: Plan, s: Sched, c: Choice, k: Watch)
    requires Inv(p, s) && Inv(p, Step(p, s, c)) && AtHome(s, k) && c.worker < |s.ws| && s.ws[c.worker].pc.Closing?
    ensures AtHome(Step(p, s, c), k)
  {
    hide Inv, AllOk, QueuesTidy, QueuesAway;
    var v, s' := c.worker, Step(p, s, c);
    NoJobZero(p, s);
    InvAllOk(p, s);
    InvAllOk(p, s');
    assert WorkerHome(s, v, k);
    MineMoves(p, s, s', v, 0, k);
  }

  lemma SeeksHome(p: Plan, s: Sched, c: Choice, k: Watch)
    requires Inv(p, s) && AtHome(s, k) && c.worker < |s.ws| && s.ws[c.worker].pc == Seek
    ensures AtHome(Step(p, s, c), k)
  {
    hide Inv, JobBound, IsReq;
    var v, s' := c.worker, Step(p, s, c);
    NoJobZero(p, s);
    NothingAtZero(s.core, k);
    forall u | 0 <= u < |s'.ws|
      ensures WorkerHome(s', u, k)
    {
      assert WorkerHome(s, u, k);
    }
  }

  lemma StealsHome(p: Plan, s: Sched, c: Choice, k: Watch)
    requires Inv(p, s) && AtHome(s, k) && c.worker < |s.ws| && s.ws[c.worker].pc == Steal
    ensures AtHome(Step(p, s, c), k)
  {
    hide Inv, JobBound, IsReq;
    var v, s' := c.worker, Step(p, s, c);
    NoJobZero(p, s);
    NothingAtZero(s.core, k);
    if c.victim < |s.ws| {
      assert WorkerHome(s, c.victim, k);
    }
    forall u | 0 <= u < |s'.ws|
      ensures WorkerHome(s', u, k)
    {
      assert WorkerHome(s, u, k);
    }
  }

  lemma StepKeepsHome(p: Plan, s: Sched, c: Choice, k: Watch)
    requires Inv(p, s) && AtHome(s, k) && Obeys(s, k) && |s.ws| > 0 && WatchOk(p, k, |s.ws|)
    ensures AtHome(Step(p, s, c), k)
  {
    hide Inv, EndBody, Publish, Flush, AfterFree, Hand, PopLocalJob, Begin, Drop, WatchOk, QueuesTidy, QueuesAway;
    hide Obeys;
    StepKeepsInv(p, s, c);
    if c.worker < |s.ws| {
      var v, s' := c.worker, Step(p, s, c);
      match s.ws[v].pc
      case Take(_, _) => TakesHome(p, s, c, k);
      case Seek => SeeksHome(p, s, c, k);
      case Steal => StealsHome(p, s, c, k);
      case Running(_, _, _) => EndsHome(p, s, c, k);
      case Publishing(_, _, _, _, _) => PublishesHome(p, s, v, k);
      case Closing(_, _, _, _) => ClosesHome(p, s, c, k);
      case Flushing(_, _, _, _) => FlushesHome(p, s, v, k);
      case Releasing(_, _, _) => ReleasesHome(p, s, c, k);
      case Handing(_, _, _, _) => HandsHome(p, s, v, k);
      case Left =>
      case _ =>
        NoJobZero(p, s);
        assert WorkerHome(s, v, k);
        MovedAside(s, s', v, k);
    }
  }

  lemma LaunchIsHome(p: Plan, threads: nat, k: Watch)
    requires Distinct(p) && threads > 0 && WatchOk(p, k, threads)
    ensures AtHome(Launch(p, threads), k)
  {
    hide Ids, Succ, Predecessors, PlacementOf, Forks, IsCoro;
    PlanIds(p);
    var h := Head(p);
    HeadIsUnforked(p);
    assert h in k.bound ==> Settled(p, h, k.home, threads, k.bound + k.assumed);
    var s := Launch(p, threads);
    assert 0 !in s.core.jobs && h in s.core.jobs && s.core.jobs[h].node == h
      && s.core.jobs[h].placement == PlacementOf(p, h);
    forall v | 0 <= v < |s.ws|
      ensures WorkerHome(s, v, k)
    {
    }
  }

  lemma HeadIsUnforked(p: Plan)
    requires Distinct(p)
    ensures Unforked(p, Head(p))
  {
    hide Distinct, Forks, Head;
    forall f
      ensures Head(p) !in Forks(p, f)
    {
      ForksStay(p, f);
    }
  }

  // In every state on the way to this one, what is assumed to be run at home is.
  ghost predicate Obeyed(p: Plan, threads: nat, choices: seq<Choice>, k: Watch)
    requires threads > 0
  {
    forall i :: 0 <= i <= |choices| ==> Obeys(Run(p, threads, choices[..i]), k)
  }

  lemma {:induction false} RunKeepsHome(p: Plan, threads: nat, choices: seq<Choice>, k: Watch)
    requires Distinct(p) && threads > 0 && WatchOk(p, k, threads) && Obeyed(p, threads, choices, k)
    ensures AtHome(Run(p, threads, choices), k) && |Run(p, threads, choices).ws| == threads
  {
    hide Inv, AtHome, Step, Distinct, Launch, WatchOk, Obeys;
    RunKeepsInv(p, threads, choices);
    if choices == [] {
      LaunchIsHome(p, threads, k);
    } else {
      var front := choices[..|choices| - 1];
      assert forall i :: 0 <= i <= |front| ==> choices[..i] == front[..i];
      RunKeepsHome(p, threads, front, k);
      RunKeepsInv(p, threads, front);
      assert choices[..|front|] == front;
      StepKeepsHome(p, Run(p, threads, front), choices[|choices| - 1], k);
    }
  }

  // The nodes of a set that is settled on its own are run at home only, in every schedule.
  lemma HomeSetRunsAtHome(p: Plan, threads: nat, choices: seq<Choice>, bound: set<Id>, home: set<nat>, v: nat, n: Id)
    requires Distinct(p) && threads > 0 && HomeSet(p, bound, {}, home, threads)
    requires Runs(Run(p, threads, choices), v, n) && n in bound
    ensures v in home
  {
    hide Run, Distinct, HomeSet;
    var k := Watch(bound, {}, home);
    RunKeepsHome(p, threads, choices, k);
    assert WorkerHome(Run(p, threads, choices), v, k);
  }

  // A chore that requires a worker, and that is not the entry of a side of a parallel node, is only ever run by the
  // worker its placement is clamped to, in every schedule; a coroutine also after every suspension.
  lemma RequiredRunsAtHome(p: Plan, threads: nat, choices: seq<Choice>, v: nat, n: Id)
    requires Distinct(p) && threads > 0 && Runs(Run(p, threads, choices), v, n)
    requires PlacementOf(p, n).IsRequired() && Unforked(p, n)
    ensures v == Target(PlacementOf(p, n), 0, threads)
  {
    hide Run, Distinct, Ids, PlacementOf, Forks, Target, Inv;
    RunKeepsInv(p, threads, choices);
    RunningIs(p, Run(p, threads, choices), v);
    HomeSetRunsAtHome(p, threads, choices, {n}, {Target(PlacementOf(p, n), 0, threads)}, v, n);
  }
}
