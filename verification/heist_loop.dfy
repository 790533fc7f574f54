// ExecuteLoop as a state machine: each step of a worker touches at most one shared counter or queue.

module HeistLoop {
  import opened Prelude
  import opened HeistPlacement
  import opened HeistPlan
  import opened HeistCore

  // How far an activation has come: decided, counted in SzSchedJob, pushed but not yet counted as runnable.
  datatype Stage = Decided | Counted | Pushed

  // Where a worker is in ExecuteLoop. `req` is IsRequired of the job in execution; `holds` says whether this
  // worker, and not a continuation, still has to release the node's successor.
  datatype Pc =
    | Top(job: Id, req: bool)
    | Seek
    | Steal
    | Left
    | Take(job: Id, req: bool)
    | Running(job: Id, node: Id, req: bool)
    | Publishing(job: Id, node: Id, req: bool, next: Id, stage: Stage)
    | Posting(job: Id, node: Id, req: bool, ready: bool)
    | Closing(job: Id, node: Id, req: bool, holds: bool)
    | Flushing(node: Id, req: bool, holds: bool, moving: Id)
    | Releasing(node: Id, req: bool, holds: bool)
    | Handing(req: bool, next: Id, stage: Stage, inline: bool)
    | Settling(req: bool, next: Id, nextReq: bool)
    | Dropping(next: Id, nextReq: bool)

  datatype Maestro = Maestro(run: seq<Id>, required: seq<Id>, temp: seq<Id>, cur: Id, pc: Pc)

  datatype Sched = Sched(core: Core, ws: seq<Maestro>, sched: int, runnables: int)

  // What the scheduler does not decide: whom to rob, which of two queue tops is older, what a coroutine does
  // and which free id a continuation gets.
  datatype Choice = Choice(worker: nat, victim: nat, preferRequired: bool, suspends: bool, next: Id)

  function PopLast(q: seq<Id>): seq<Id>
    requires q != []
  {
    q[..|q| - 1]
  }

  function LastOf(q: seq<Id>): Id
    requires q != []
  {
    q[|q| - 1]
  }

  datatype Popped = Popped(job: Id, req: bool, rest: Maestro)

  function PopLocalJob(m: Maestro, runnables: int, preferRequired: bool): Popped {
    if m.run != [] && (m.required == [] || !preferRequired) then
      Popped(LastOf(m.run), false, m.(run := PopLast(m.run)))
    else if m.required != [] && (m.run != [] || runnables == 0) then
      Popped(LastOf(m.required), true, m.(required := PopLast(m.required)))
    else
      Popped(0, false, m)
  }

  // Which job a worker takes: the top of its preferred queue when both have one, a lone required job only when nothing
  // runnable is left.
  lemma PopsPreferred(m: Maestro, runnables: int, prefer: bool)
    ensures var r := PopLocalJob(m, runnables, prefer);
            var required := m.required != [] && if m.run != [] then prefer else runnables == 0;
            if required then
              r == Popped(m.required[|m.required| - 1], true, m.(required := m.required[..|m.required| - 1]))
            else if m.run != [] then r == Popped(m.run[|m.run| - 1], false, m.(run := m.run[..|m.run| - 1]))
            else r == Popped(0, false, m)
  {
  }

  // A worker index from a placement, as every enqueueing path clamps it.
  function Target(placement: ChorePlacement, default: nat, threads: nat): (t: nat)
    requires threads > 0
    ensures t < threads
  {
    var t := if placement.TargetWorker() == None then default else placement.worker;
    if t < threads then t else 0
  }

  function Enqueue(m: Maestro, id: Id, req: bool): Maestro {
    if req then m.(required := m.required + [id]) else m.(run := m.run + [id])
  }

  function IsReq(c: Core, id: Id): bool {
    SlotOf(c, id).placement.IsRequired()
  }

  function SetPc(s: Sched, w: nat, pc: Pc): Sched
    requires w < |s.ws|
  {
    s.(ws := s.ws[w := s.ws[w].(pc := pc)])
  }

  // Push id onto the queue its placement asks for.
  function Push(s: Sched, id: Id, default: nat): Sched
    requires |s.ws| > 0
  {
    var t := Target(SlotOf(s.core, id).placement, default, |s.ws|);
    s.(ws := s.ws[t := Enqueue(s.ws[t], id, IsReq(s.core, id))])
  }

  // The coroutine in execution on w is suspended: its continuation has a job, and is about to be enqueued.
  function Suspended(p: Plan, s: Sched, w: nat, pc: Pc, next: Id): Sched
    requires w < |s.ws| && pc.Running?
  {
    var core := Yield(p, s.core, pc.node, next);
    s.(core := core, ws := s.ws[w := s.ws[w].(cur := 0, pc := Posting(pc.job, pc.node, pc.req, IsReq(core, next)))])
  }

  // The continuation waits in a queue, where it may be taken at once; only then is it counted as runnable, unless it is
  // required, and last in SzSchedJob.
  function Post(s: Sched, w: nat, pc: Pc): Sched
    requires w < |s.ws| && pc.Posting?
  {
    if pc.ready then SetPc(s.(sched := s.sched + 1), w, Closing(pc.job, pc.node, pc.req, false))
    else SetPc(s.(runnables := s.runnables + 1), w, Posting(pc.job, pc.node, pc.req, true))
  }

  // The body of a job ends or yields.
  function EndBody(p: Plan, s: Sched, w: nat, pc: Pc, c: Choice): Sched
    requires w < |s.ws| && pc.Running?
  {
    var n, m := pc.node, s.ws[w];
    if IsCoro(p, n) && c.suspends && c.next != 0 && c.next !in s.core.jobs then
      Push(Suspended(p, s, w, pc, c.next), c.next, w)
    else
      var core := Finish(p, s.core, n);
      if IsCoro(p, n) && m.cur != 0 then
        var s1 := s.(core := Release(p, core, n));
        if SlotOf(s.core, m.cur).preds == 1 then
          SetPc(s1, w, Publishing(pc.job, n, pc.req, m.cur, Decided))
        else
          s1.(ws := s.ws[w := m.(cur := 0, pc := Closing(pc.job, n, pc.req, false))])
      else
        s.(core := core, ws := s.ws[w := m.(temp := m.temp + Forks(p, n), pc := Closing(pc.job, n, pc.req, true))])
  }

  // PublishSuccessor: count the successor, enqueue it, and forget it.
  function Publish(s: Sched, w: nat, pc: Pc): Sched
    requires w < |s.ws| && pc.Publishing?
  {
    var closing := Closing(pc.job, pc.node, pc.req, false);
    match pc.stage
    case Decided => SetPc(s.(sched := s.sched + 1), w, Publishing(pc.job, pc.node, pc.req, pc.next, Counted))
    case Counted =>
      if IsReq(s.core, pc.next) then
        Push(s.(ws := s.ws[w := s.ws[w].(cur := 0, pc := closing)]), pc.next, 0)
      else
        Push(SetPc(s, w, Publishing(pc.job, pc.node, pc.req, pc.next, Pushed)), pc.next, 0)
    case Pushed =>
      s.(runnables := s.runnables + 1, ws := s.ws[w := s.ws[w].(cur := 0, pc := closing)])
  }

  // FlushTempQueue: one job at a time, counted before it is pushed; the worker's queues stay locked meanwhile, so that
  // whoever else wants one of them waits.
  function Flush(s: Sched, w: nat, pc: Pc): Sched
    requires w < |s.ws| && pc.Flushing?
  {
    var m := s.ws[w];
    if pc.moving != 0 then
      var req := IsReq(s.core, pc.moving);
      s.(runnables := if req then s.runnables else s.runnables + 1,
         ws := s.ws[w := Enqueue(m, pc.moving, req).(pc := Flushing(pc.node, pc.req, pc.holds, 0))])
    else if m.temp == [] then
      SetPc(s, w, Releasing(pc.node, pc.req, pc.holds))
    else
      s.(sched := s.sched + 1,
         ws := s.ws[w := m.(temp := PopLast(m.temp), pc := Flushing(pc.node, pc.req, pc.holds, LastOf(m.temp)))])
  }

  // After FreeJob: one predecessor less for the current successor.
  function AfterFree(p: Plan, s: Sched, w: nat, pc: Pc): Sched
    requires w < |s.ws| && pc.Releasing?
  {
    var cur := s.ws[w].cur;
    var s1 := if pc.holds then s.(core := Release(p, s.core, pc.node)) else s;
    SetPc(s1, w, ReleasedPc(s.core, cur, pc, SlotOf(s.core, cur).placement.CanExecuteOn(w)))
  }

  // Where a worker goes on after releasing: with a successor that became due, or with nothing.
  function ReleasedPc(c: Core, cur: Id, pc: Pc, inline: bool): Pc
    requires pc.Releasing?
  {
    if cur != 0 && SlotOf(c, cur).preds == 1 then Handing(pc.req, cur, Decided, inline) else Settling(pc.req, 0, false)
  }

  // Keep the successor as this worker's next job, or enqueue it where it belongs.
  function Hand(s: Sched, w: nat, pc: Pc): Sched
    requires w < |s.ws| && pc.Handing?
  {
    var req := IsReq(s.core, pc.next);
    match pc.stage
    case Decided => SetPc(s.(sched := s.sched + 1), w, Handing(pc.req, pc.next, Counted, pc.inline))
    case Counted =>
      if pc.inline then
        SetPc(s.(runnables := if req then s.runnables else s.runnables + 1), w, Settling(pc.req, pc.next, req))
      else if req then
        Push(SetPc(s, w, Settling(pc.req, 0, false)), pc.next, 0)
      else
        Push(SetPc(s, w, Handing(pc.req, pc.next, Pushed, false)), pc.next, 0)
    case Pushed => SetPc(s.(runnables := s.runnables + 1), w, Settling(pc.req, 0, false))
  }

  // Does worker t hold its queues locked?
  predicate Locked(s: Sched, t: nat) {
    t < |s.ws| && s.ws[t].pc.Flushing?
  }

  // A worker waits when it wants to rob, or to push to, a queue that its owner holds locked.
  predicate Waits(p: Plan, s: Sched, c: Choice) {
    && c.worker < |s.ws|
    && match s.ws[c.worker].pc
       case Steal => c.victim != c.worker && Locked(s, c.victim)
       case Running(_, node, _) =>
         Suspends(p, s, c) && Locked(s, Target(PlacementOf(p, node), c.worker, |s.ws|))
       case Publishing(_, _, _, next, Counted) => Locked(s, Target(SlotOf(s.core, next).placement, 0, |s.ws|))
       case Handing(_, next, Counted, false) => Locked(s, Target(SlotOf(s.core, next).placement, 0, |s.ws|))
       case _ => false
  }

  // One step of a run: a worker moves on, or waits for a lock.
  function Step(p: Plan, s: Sched, c: Choice): Sched {
    if Waits(p, s, c) then s else Move(p, s, c)
  }

  // What a worker does next when no lock keeps it waiting.
  function Move(p: Plan, s: Sched, c: Choice): Sched {
    if c.worker >= |s.ws| then s
    else
      var w := c.worker;
      var m := s.ws[w];
      match m.pc
      case Top(job, req) =>
        SetPc(s, w, if s.sched == 0 then Left else if job != 0 then Take(job, req) else Seek)
      case Seek =>
        var r := PopLocalJob(m, s.runnables, c.preferRequired);
        s.(ws := s.ws[w := r.rest.(pc := if r.job == 0 && |s.ws| >= 2 then Steal else Top(r.job, r.req))])
      case Steal =>
        if c.victim < |s.ws| && c.victim != w && s.ws[c.victim].run != [] then
          var q := s.ws[c.victim].run;
          SetPc(s.(ws := s.ws[c.victim := s.ws[c.victim].(run := PopLast(q))]), w, Top(LastOf(q), false))
        else
          SetPc(s, w, Top(0, false))
      case Left => s
      case Take(job, _) =>
        var slot := SlotOf(s.core, job);
        s.(core := if job in s.core.jobs && slot.node in s.core.runs then Begin(s.core, job) else s.core,
           ws := s.ws[w := m.(cur := slot.succ, pc := Running(job, slot.node, slot.placement.IsRequired()))])
      case Running(_, _, _) => EndBody(p, s, w, m.pc, c)
      case Publishing(_, _, _, _, _) => Publish(s, w, m.pc)
      case Posting(_, _, _, _) => Post(s, w, m.pc)
      case Closing(job, node, req, holds) =>
        SetPc(s.(core := Drop(s.core, job)), w, Flushing(node, req, holds, 0))
      case Flushing(_, _, _, _) => Flush(s, w, m.pc)
      case Releasing(_, _, _) => AfterFree(p, s, w, m.pc)
      case Handing(_, _, _, _) => Hand(s, w, m.pc)
      case Settling(req, next, nextReq) =>
        SetPc(s.(runnables := if req then s.runnables else s.runnables - 1), w, Dropping(next, nextReq))
      case Dropping(next, nextReq) =>
        SetPc(s.(sched := s.sched - 1), w, if next != 0 then Take(next, nextReq) else Seek)
  }

  // What a worker accounts for: the due jobs it keeps, the nodes it has to release, and its share of both counters.
  datatype Tally = Tally(tokens: multiset<Id>, hands: multiset<Id>, sched: int, runnables: int)

  function One(id: Id): multiset<Id> {
    if id == 0 then multiset{} else multiset{id}
  }

  function Unit(req: bool): int {
    if req then 0 else 1
  }

  function PcTally(pc: Pc): Tally {
    match pc
    case Top(job, req) => if job == 0 then Tally(multiset{}, multiset{}, 0, 0)
      else Tally(One(job), multiset{}, 1, Unit(req))
    case Take(job, req) => Tally(One(job), multiset{}, 1, Unit(req))
    case Running(job, node, req) => Tally(One(job), multiset{node}, 1, Unit(req))
    case Publishing(job, _, req, next, Decided) => Tally(One(job) + One(next), multiset{}, 1, Unit(req))
    case Publishing(job, _, req, next, Counted) => Tally(One(job) + One(next), multiset{}, 2, Unit(req))
    case Publishing(job, _, req, _, Pushed) => Tally(One(job), multiset{}, 1, Unit(req) - 1)
    case Posting(job, _, req, ready) => Tally(One(job), multiset{}, 0, Unit(req) - Unit(ready))
    case Closing(job, node, req, holds) => Tally(One(job), if holds then multiset{node} else multiset{}, 1, Unit(req))
    case Flushing(node, req, holds, moving) =>
      Tally(One(moving), if holds then multiset{node} else multiset{}, if moving == 0 then 1 else 2, Unit(req))
    case Releasing(node, req, holds) => Tally(multiset{}, if holds then multiset{node} else multiset{}, 1, Unit(req))
    case Handing(req, next, Decided, _) => Tally(One(next), multiset{}, 1, Unit(req))
    case Handing(req, next, Counted, _) => Tally(One(next), multiset{}, 2, Unit(req))
    case Handing(req, _, Pushed, _) => Tally(multiset{}, multiset{}, 1, Unit(req) - 1)
    case Settling(req, next, nextReq) =>
      Tally(One(next), multiset{}, if next == 0 then 1 else 2, Unit(req) + if next == 0 then 0 else Unit(nextReq))
    case Dropping(next, nextReq) =>
      Tally(One(next), multiset{}, if next == 0 then 1 else 2, if next == 0 then 0 else Unit(nextReq))
    case _ => Tally(multiset{}, multiset{}, 0, 0)
  }

  function QueueTally(m: Maestro): Tally {
    Tally(multiset(m.run) + multiset(m.required) + multiset(m.temp), multiset{}, |m.run| + |m.required|, |m.run|)
  }

  function Plus(a: Tally, b: Tally): Tally {
    Tally(a.tokens + b.tokens, a.hands + b.hands, a.sched + b.sched, a.runnables + b.runnables)
  }

  function TallyOf(m: Maestro): Tally {
    Plus(QueueTally(m), PcTally(m.pc))
  }

  function Sum(ws: seq<Maestro>): Tally {
    if ws == [] then NOTHING else Plus(Sum(ws[..|ws| - 1]), TallyOf(ws[|ws| - 1]))
  }

  const NOTHING := Tally(multiset{}, multiset{}, 0, 0)

  // What a worker's own position says about the tables.
  predicate Held(c: Core, id: Id, req: bool) {
    id != 0 && id in c.jobs && c.jobs[id].work && IsReq(c, id) == req
  }

  predicate Executing(c: Core, job: Id) {
    job != 0 && job in c.jobs && !c.jobs[job].work
  }

  predicate PcOk(p: Plan, c: Core, cur: Id, pc: Pc) {
    match pc
    case Top(job, req) => job != 0 ==> Held(c, job, req)
    case Take(job, req) => Held(c, job, req)
    case Running(job, node, _) => Executing(c, job) && node in c.started && node !in c.done && cur == Succ(p, node)
    case Publishing(job, _, _, next, stage) => Executing(c, job) && (stage != Pushed ==> Held(c, next, IsReq(c, next)))
    case Posting(job, node, _, _) => Executing(c, job) && HoldOk(p, c, cur, node, false)
    case Closing(job, node, _, holds) => Executing(c, job) && HoldOk(p, c, cur, node, holds)
    case Flushing(node, _, holds, moving) =>
      HoldOk(p, c, cur, node, holds) && (moving != 0 ==> Held(c, moving, IsReq(c, moving)))
    case Releasing(node, _, holds) => HoldOk(p, c, cur, node, holds)
    case Handing(_, next, stage, _) => stage != Pushed ==> Held(c, next, IsReq(c, next))
    case Settling(_, next, nextReq) => next != 0 ==> Held(c, next, nextReq)
    case Dropping(next, nextReq) => next != 0 ==> Held(c, next, nextReq)
    case _ => true
  }

  // Either this worker still owes the node's release, or a continuation does and no successor is current.
  predicate HoldOk(p: Plan, c: Core, cur: Id, node: Id, holds: bool) {
    if holds then node in c.started && node in c.done && cur == Succ(p, node) else cur == 0
  }

  predicate QueuesOk(c: Core, m: Maestro) {
    && (forall id :: id in m.run ==> Held(c, id, false))
    && (forall id :: id in m.required ==> Held(c, id, true))
    && (forall id :: id in m.temp ==> Held(c, id, IsReq(c, id)))
  }

  predicate MaestroOk(p: Plan, c: Core, m: Maestro) {
    QueuesOk(c, m) && PcOk(p, c, m.cur, m.pc)
  }

  function Ledger(s: Sched): Tally {
    Tally(multiset(s.core.tokens), multiset(s.core.hands), s.sched, s.runnables)
  }

  // The workers together account for every due job, every hold and both counters; `extra` is on its way to a queue.
  predicate CoupledUpTo(p: Plan, s: Sched, extra: Tally) {
    && |s.ws| > 0 && CoreInv(p, s.core)
    && Plus(Sum(s.ws), extra) == Ledger(s)
    && (forall w :: 0 <= w < |s.ws| ==> MaestroOk(p, s.core, s.ws[w]))
  }

  predicate Inv(p: Plan, s: Sched) {
    CoupledUpTo(p, s, NOTHING)
  }

  const IDLE := Maestro([], [], [], 0, Left)

  // What all workers but w account for.
  function Rest(ws: seq<Maestro>, w: nat): Tally
    requires w < |ws|
  {
    Sum(ws[w := IDLE])
  }

  // What everything but the program counter of w accounts for.
  function Others(ws: seq<Maestro>, w: nat): Tally
    requires w < |ws|
  {
    Plus(Rest(ws, w), QueueTally(ws[w]))
  }

  lemma PlusSwap(a: Tally, b: Tally, c: Tally)
    ensures Plus(Plus(a, b), c) == Plus(Plus(a, c), b)
  {
  }

  lemma PlusGroup(a: Tally, b: Tally, c: Tally)
    ensures Plus(a, Plus(b, c)) == Plus(Plus(a, b), c)
  {
  }

  lemma PlusNothing(a: Tally)
    ensures Plus(a, NOTHING) == a
  {
  }

  lemma IdleTally()
    ensures TallyOf(IDLE) == NOTHING
  {
    hide Plus, PcTally;
    var none: seq<Id> := [];
    assert multiset(none) == multiset{};
    assert QueueTally(IDLE) == NOTHING;
    LeftTally();
    PlusNothing(NOTHING);
  }

  lemma LeftTally()
    ensures PcTally(Left) == NOTHING
  {
  }

  lemma {:induction false} SumSplit(ws: seq<Maestro>, w: nat)
    requires w < |ws|
    ensures Sum(ws) == Plus(Rest(ws, w), TallyOf(ws[w]))
  {
    hide TallyOf, Plus;
    var last := |ws| - 1;
    IdleTally();
    if w == last {
      assert ws[w := IDLE][..last] == ws[..last];
      PlusNothing(Sum(ws[..last]));
    } else {
      SumSplit(ws[..last], w);
      assert ws[w := IDLE][..last] == ws[..last][w := IDLE];
      PlusSwap(Rest(ws[..last], w), TallyOf(ws[w]), TallyOf(ws[last]));
    }
  }

  lemma SumUpdate(ws: seq<Maestro>, w: nat, m: Maestro)
    requires w < |ws|
    ensures Sum(ws[w := m]) == Plus(Rest(ws, w), TallyOf(m))
  {
    hide TallyOf, Plus, Sum;
    SumSplit(ws[w := m], w);
    assert ws[w := m][w := IDLE] == ws[w := IDLE];
  }

  lemma OthersAreInRest(ws: seq<Maestro>, w: nat, v: nat)
    requires w < |ws| && v < |ws| && v != w
    ensures TallyOf(ws[v]).tokens <= Rest(ws, w).tokens && TallyOf(ws[v]).hands <= Rest(ws, w).hands
  {
    hide TallyOf;
    SumSplit(ws[w := IDLE], v);
  }

  // A change of the tables leaves alone the jobs and nodes that others account for.
  predicate Spares(c: Core, b: Core, others: Tally) {
    && c.started <= b.started && c.done <= b.done
    && (forall id :: id in others.tokens && id in c.jobs ==>
          id in b.jobs && b.jobs[id].work == c.jobs[id].work && b.jobs[id].placement == c.jobs[id].placement)
    && (forall n :: n in others.hands && n in b.done ==> n in c.done)
  }

  lemma QueuesSpared(p: Plan, c: Core, b: Core, m: Maestro, others: Tally)
    requires MaestroOk(p, c, m) && Spares(c, b, others) && QueueTally(m).tokens <= others.tokens
    ensures QueuesOk(b, m)
  {
    hide Held, Spares, PcOk;
    forall id, req | (id in m.run || id in m.required || id in m.temp) && Held(c, id, req)
      ensures Held(b, id, req) && IsReq(b, id) == IsReq(c, id)
    {
      assert id in multiset(m.run) + multiset(m.required) + multiset(m.temp);
      HeldSpared(c, b, id, req, others);
    }
  }

  lemma MaestroSpared(p: Plan, c: Core, b: Core, m: Maestro, others: Tally)
    requires MaestroOk(p, c, m) && Spares(c, b, others)
    requires TallyOf(m).tokens <= others.tokens && TallyOf(m).hands <= others.hands
    ensures MaestroOk(p, b, m)
  {
    hide Spares, PcOk, QueuesOk, QueueTally, PcTally;
    QueuesSpared(p, c, b, m, others);
    PcSpared(p, c, b, m.cur, m.pc, others);
  }

  lemma PcSpared(p: Plan, c: Core, b: Core, cur: Id, pc: Pc, others: Tally)
    requires PcOk(p, c, cur, pc) && Spares(c, b, others)
    requires PcTally(pc).tokens <= others.tokens && PcTally(pc).hands <= others.hands
    ensures PcOk(p, b, cur, pc)
  {
    hide PcOk, PcTally, Spares;
    if pc.Running? || pc.Closing? || pc.Posting? {
      ExecutionSpared(p, c, b, cur, pc, others);
    } else if pc.Publishing? || pc.Handing? {
      ActivationSpared(p, c, b, cur, pc, others);
    } else if pc.Flushing? || pc.Releasing? {
      CleanupSpared(p, c, b, cur, pc, others);
    } else {
      DueSpared(p, c, b, cur, pc, others);
    }
  }

  lemma ExecutionSpared(p: Plan, c: Core, b: Core, cur: Id, pc: Pc, others: Tally)
    requires PcOk(p, c, cur, pc) && Spares(c, b, others)
    requires PcTally(pc).tokens <= others.tokens && PcTally(pc).hands <= others.hands
    requires pc.Running? || pc.Closing? || pc.Posting?
    ensures PcOk(p, b, cur, pc)
  {
    hide Succ, Held, Executing, HoldOk, Spares, IsReq;
    ExecutingSpared(c, b, pc.job, others);
    match pc
    case Running(_, node, _) => StartedSpared(c, b, node, others);
    case Closing(_, node, _, holds) => HoldSpared(p, c, b, cur, node, holds, others);
    case Posting(_, node, _, _) => HoldSpared(p, c, b, cur, node, false, others);
  }

  lemma ActivationSpared(p: Plan, c: Core, b: Core, cur: Id, pc: Pc, others: Tally)
    requires PcOk(p, c, cur, pc) && Spares(c, b, others)
    requires PcTally(pc).tokens <= others.tokens && PcTally(pc).hands <= others.hands
    requires pc.Publishing? || pc.Handing?
    ensures PcOk(p, b, cur, pc)
  {
    hide Succ, Held, Executing, HoldOk, Spares, IsReq;
    if pc.Publishing? {
      ExecutingSpared(c, b, pc.job, others);
    }
    if pc.stage != Pushed {
      HeldIsNamed(c, pc.next, IsReq(c, pc.next));
      HeldSpared(c, b, pc.next, IsReq(c, pc.next), others);
    }
  }

  lemma CleanupSpared(p: Plan, c: Core, b: Core, cur: Id, pc: Pc, others: Tally)
    requires PcOk(p, c, cur, pc) && Spares(c, b, others)
    requires PcTally(pc).tokens <= others.tokens && PcTally(pc).hands <= others.hands
    requires pc.Flushing? || pc.Releasing?
    ensures PcOk(p, b, cur, pc)
  {
    hide Succ, Held, Executing, HoldOk, Spares, IsReq;
    HoldSpared(p, c, b, cur, pc.node, pc.holds, others);
    if pc.Flushing? && pc.moving != 0 {
      HeldSpared(c, b, pc.moving, IsReq(c, pc.moving), others);
    }
  }

  lemma DueSpared(p: Plan, c: Core, b: Core, cur: Id, pc: Pc, others: Tally)
    requires PcOk(p, c, cur, pc) && Spares(c, b, others)
    requires PcTally(pc).tokens <= others.tokens && PcTally(pc).hands <= others.hands
    requires pc.Top? || pc.Seek? || pc.Steal? || pc.Left? || pc.Take? || pc.Settling? || pc.Dropping?
    ensures PcOk(p, b, cur, pc)
  {
    hide Succ, Held, Executing, HoldOk, Spares, IsReq;
    match pc
    case Top(job, req) => if job != 0 { HeldSpared(c, b, job, req, others); }
    case Take(job, req) =>
      HeldIsNamed(c, job, req);
      HeldSpared(c, b, job, req, others);
    case Settling(_, next, req) => if next != 0 { HeldSpared(c, b, next, req, others); }
    case Dropping(next, req) => if next != 0 { HeldSpared(c, b, next, req, others); }
    case _ =>
  }

  lemma HeldIsNamed(c: Core, id: Id, req: bool)
    requires Held(c, id, req)
    ensures id != 0
  {
  }

  lemma HeldSpared(c: Core, b: Core, id: Id, req: bool, others: Tally)
    requires Held(c, id, req) && Spares(c, b, others) && id in others.tokens
    ensures Held(b, id, req) && IsReq(b, id) == IsReq(c, id)
  {
  }

  lemma ExecutingSpared(c: Core, b: Core, id: Id, others: Tally)
    requires Executing(c, id) && Spares(c, b, others) && One(id) <= others.tokens
    ensures Executing(b, id)
  {
  }

  lemma HoldSpared(p: Plan, c: Core, b: Core, cur: Id, node: Id, holds: bool, others: Tally)
    requires HoldOk(p, c, cur, node, holds) && Spares(c, b, others)
    ensures HoldOk(p, b, cur, node, holds)
  {
  }

  lemma StartedSpared(c: Core, b: Core, node: Id, others: Tally)
    requires node in c.started && node !in c.done && Spares(c, b, others) && node in others.hands
    ensures node in b.started && node !in b.done
  {
  }

  // One side of the books changes exactly as the other.
  predicate Balanced(l: Tally, t: Tally, extra: Tally, l': Tally, t': Tally, extra': Tally) {
    Plus(Plus(l', t), extra) == Plus(Plus(l, t'), extra')
  }

  lemma Cancel(r: Tally, l: Tally, t: Tally, extra: Tally, l': Tally, t': Tally, extra': Tally)
    requires Plus(Plus(r, t), extra) == l && Balanced(l, t, extra, l', t', extra')
    ensures Plus(Plus(r, t'), extra') == l'
  {
    forall id
      ensures Plus(Plus(r, t'), extra').tokens[id] == l'.tokens[id]
      ensures Plus(Plus(r, t'), extra').hands[id] == l'.hands[id]
    {
      assert Plus(Plus(l', t), extra).tokens[id] == l'.tokens[id] + t.tokens[id] + extra.tokens[id];
      assert Plus(Plus(l, t'), extra').tokens[id] == l.tokens[id] + t'.tokens[id] + extra'.tokens[id];
      assert Plus(Plus(l', t), extra).hands[id] == l'.hands[id] + t.hands[id] + extra.hands[id];
      assert Plus(Plus(l, t'), extra').hands[id] == l.hands[id] + t'.hands[id] + extra'.hands[id];
    }
  }

  // One worker moves: if its own books and the tables change alike, all books stay balanced.
  lemma LocalStep(p: Plan, s: Sched, extra: Tally, w: nat, m: Maestro, s': Sched, extra': Tally)
    requires CoupledUpTo(p, s, extra) && w < |s.ws| && s'.ws == s.ws[w := m]
    requires CoreInv(p, s'.core) && MaestroOk(p, s'.core, m)
    requires Spares(s.core, s'.core, Rest(s.ws, w))
    requires Balanced(Ledger(s), TallyOf(s.ws[w]), extra, Ledger(s'), TallyOf(m), extra')
    ensures CoupledUpTo(p, s', extra')
  {
    hide CoreInv, MaestroOk, Spares, TallyOf, Rest, Balanced;
    SumSplit(s.ws, w);
    Cancel(Rest(s.ws, w), Ledger(s), TallyOf(s.ws[w]), extra, Ledger(s'), TallyOf(m), extra');
    SumUpdate(s.ws, w, m);
    forall v | 0 <= v < |s'.ws| && v != w
      ensures MaestroOk(p, s'.core, s'.ws[v])
    {
      OthersAreInRest(s.ws, w, v);
      MaestroSpared(p, s.core, s'.core, s.ws[v], Rest(s.ws, w));
    }
  }

  lemma SparesFewer(c: Core, b: Core, some: Tally, more: Tally)
    requires Spares(c, b, Plus(some, more))
    ensures Spares(c, b, some) && Spares(c, b, more)
  {
  }

  lemma SparesItself(c: Core, others: Tally)
    ensures Spares(c, c, others)
  {
  }

  // One program counter moves.
  lemma PcStep(p: Plan, s: Sched, extra: Tally, w: nat, cur: Id, pc: Pc, s': Sched, extra': Tally)
    requires CoupledUpTo(p, s, extra) && w < |s.ws| && s'.ws == s.ws[w := s.ws[w].(cur := cur, pc := pc)]
    requires CoreInv(p, s'.core) && PcOk(p, s'.core, cur, pc)
    requires Spares(s.core, s'.core, Others(s.ws, w))
    requires Balanced(Ledger(s), PcTally(s.ws[w].pc), extra, Ledger(s'), PcTally(pc), extra')
    ensures CoupledUpTo(p, s', extra')
  {
    hide CoreInv, PcOk, PcTally, Spares, Rest, Sum, QueuesOk, QueueTally;
    var m := s.ws[w].(cur := cur, pc := pc);
    SparesFewer(s.core, s'.core, Rest(s.ws, w), QueueTally(s.ws[w]));
    QueuesSpared(p, s.core, s'.core, s.ws[w], QueueTally(s.ws[w]));
    QueuesDoNotRead(s'.core, s.ws[w], m);
    ShiftBooks(QueueTally(m), Ledger(s), PcTally(s.ws[w].pc), extra, Ledger(s'), PcTally(pc), extra');
    LocalStep(p, s, extra, w, m, s', extra');
  }

  lemma QueuesDoNotRead(c: Core, m: Maestro, m': Maestro)
    requires m'.run == m.run && m'.required == m.required && m'.temp == m.temp
    ensures QueueTally(m') == QueueTally(m) && (QueuesOk(c, m) <==> QueuesOk(c, m'))
  {
    hide Held;
  }

  lemma ShiftBooks(q: Tally, l: Tally, t: Tally, extra: Tally, l': Tally, t': Tally, extra': Tally)
    requires Balanced(l, t, extra, l', t', extra')
    ensures Balanced(l, Plus(q, t), extra, l', Plus(q, t'), extra')
  {
    forall id
      ensures Plus(Plus(l', Plus(q, t)), extra).tokens[id] == Plus(Plus(l, Plus(q, t')), extra').tokens[id]
      ensures Plus(Plus(l', Plus(q, t)), extra).hands[id] == Plus(Plus(l, Plus(q, t')), extra').hands[id]
    {
      assert Plus(Plus(l', t), extra).tokens[id] == l'.tokens[id] + t.tokens[id] + extra.tokens[id];
      assert Plus(Plus(l, t'), extra').tokens[id] == l.tokens[id] + t'.tokens[id] + extra'.tokens[id];
      assert Plus(Plus(l', t), extra).hands[id] == l'.hands[id] + t.hands[id] + extra.hands[id];
      assert Plus(Plus(l, t'), extra').hands[id] == l.hands[id] + t'.hands[id] + extra'.hands[id];
    }
  }

  // A move that touches no table.
  lemma QuietStep(p: Plan, s: Sched, extra: Tally, w: nat, cur: Id, pc: Pc, s': Sched, extra': Tally)
    requires CoupledUpTo(p, s, extra) && w < |s.ws| && s'.ws == s.ws[w := s.ws[w].(cur := cur, pc := pc)]
    requires s'.core == s.core && PcOk(p, s.core, cur, pc)
    requires Balanced(Ledger(s), PcTally(s.ws[w].pc), extra, Ledger(s'), PcTally(pc), extra')
    ensures CoupledUpTo(p, s', extra')
  {
    hide PcOk, PcTally, Spares, Sum, MaestroOk, Balanced, CoreInv;
    SparesItself(s.core, Others(s.ws, w));
    PcStep(p, s, extra, w, cur, pc, s', extra');
  }

  // A queue of worker w changes by what is taken into or out of its hand.
  lemma QueueStep(p: Plan, s: Sched, extra: Tally, w: nat, m: Maestro, s': Sched, extra': Tally)
    requires CoupledUpTo(p, s, extra) && w < |s.ws| && s'.ws == s.ws[w := m] && s'.core == s.core
    requires MaestroOk(p, s.core, m) && Balanced(Ledger(s), TallyOf(s.ws[w]), extra, Ledger(s'), TallyOf(m), extra')
    ensures CoupledUpTo(p, s', extra')
  {
    hide TallyOf, Spares, Sum, MaestroOk, Balanced, CoreInv, Rest;
    SparesItself(s.core, Rest(s.ws, w));
    LocalStep(p, s, extra, w, m, s', extra');
  }

  function Parcel(id: Id, req: bool): Tally {
    Tally(multiset{id}, multiset{}, 1, Unit(req))
  }

  lemma EnqueueTally(m: Maestro, id: Id, req: bool)
    ensures QueueTally(Enqueue(m, id, req)) == Plus(QueueTally(m), Parcel(id, req))
    ensures TallyOf(Enqueue(m, id, req)) == Plus(TallyOf(m), Parcel(id, req))
  {
    hide PcTally;
    assert multiset(m.run + [id]) == multiset(m.run) + multiset{id};
    assert multiset(m.required + [id]) == multiset(m.required) + multiset{id};
    PlusSwap(QueueTally(m), Parcel(id, req), PcTally(m.pc));
  }

  lemma EnqueueOk(p: Plan, c: Core, m: Maestro, id: Id, req: bool)
    requires MaestroOk(p, c, m) && Held(c, id, req)
    ensures MaestroOk(p, c, Enqueue(m, id, req))
  {
    hide PcOk, Held;
  }

  lemma ParcelBooks(l: Tally, t: Tally, extra: Tally)
    ensures Balanced(l, t, extra, l, Plus(t, extra), NOTHING)
  {
  }

  // Delivering the parcel.
  lemma PushKeeps(p: Plan, s: Sched, id: Id, default: nat)
    requires CoupledUpTo(p, s, Parcel(id, IsReq(s.core, id))) && Held(s.core, id, IsReq(s.core, id))
    ensures Inv(p, Push(s, id, default))
  {
    hide CoreInv, MaestroOk, TallyOf, Rest, Sum, Balanced, Enqueue, Parcel;
    var req := IsReq(s.core, id);
    var t := Target(SlotOf(s.core, id).placement, default, |s.ws|);
    EnqueueTally(s.ws[t], id, req);
    EnqueueOk(p, s.core, s.ws[t], id, req);
    ParcelBooks(Ledger(s), TallyOf(s.ws[t]), Parcel(id, req));
    QueueStep(p, s, Parcel(id, req), t, Enqueue(s.ws[t], id, req), Push(s, id, default), NOTHING);
  }

  // What the program counter accounts for is due, and nobody and no queue accounts for it too.
  lemma MineAlone(p: Plan, s: Sched, w: nat)
    requires Inv(p, s) && w < |s.ws|
    ensures PcOk(p, s.core, s.ws[w].cur, s.ws[w].pc)
    ensures forall id :: id in PcTally(s.ws[w].pc).tokens ==> id in s.core.tokens && id !in Others(s.ws, w).tokens
    ensures forall n :: n in PcTally(s.ws[w].pc).hands ==> n in s.core.hands && n !in Others(s.ws, w).hands
    ensures PcTally(s.ws[w].pc).tokens <= multiset(s.core.tokens) && PcTally(s.ws[w].pc).hands <= multiset(s.core.hands)
  {
    hide PcTally, Rest, CoreInv, QueueTally, PcOk;
    SumSplit(s.ws, w);
    var o, t, l := Others(s.ws, w), PcTally(s.ws[w].pc), Ledger(s);
    PlusGroup(Rest(s.ws, w), QueueTally(s.ws[w]), t);
    PlusNothing(Sum(s.ws));
    assert Plus(o, t) == l;
    assert forall id :: o.tokens[id] + t.tokens[id] == l.tokens[id] <= 1;
    assert forall n :: o.hands[n] + t.hands[n] == l.hands[n] <= 1;
  }

  // Counters follow the worker's own share.
  lemma CountBooks(l: Tally, t: Tally, t': Tally, l': Tally)
    requires t'.tokens == t.tokens && t'.hands == t.hands && l'.tokens == l.tokens && l'.hands == l.hands
    requires l'.sched - l.sched == t'.sched - t.sched && l'.runnables - l.runnables == t'.runnables - t.runnables
    ensures Balanced(l, t, NOTHING, l', t', NOTHING)
  {
  }

  lemma SettlingStep(p: Plan, s: Sched, c: Choice)
    requires Inv(p, s) && c.worker < |s.ws| && s.ws[c.worker].pc.Settling?
    ensures Inv(p, Move(p, s, c))
  {
    hide CoupledUpTo, Held, Executing, HoldOk, Balanced, EndBody, Publish, Flush, AfterFree, Hand, PopLocalJob, Begin;
    hide Drop, Others;
    var w, s' := c.worker, Move(p, s, c);
    var pc := s.ws[w].pc;
    MineAlone(p, s, w);
    CountBooks(Ledger(s), PcTally(pc), PcTally(Dropping(pc.next, pc.nextReq)), Ledger(s'));
    QuietStep(p, s, NOTHING, w, s.ws[w].cur, Dropping(pc.next, pc.nextReq), s', NOTHING);
  }

  lemma DroppingStep(p: Plan, s: Sched, c: Choice)
    requires Inv(p, s) && c.worker < |s.ws| && s.ws[c.worker].pc.Dropping?
    ensures Inv(p, Move(p, s, c))
  {
    hide CoupledUpTo, Held, Executing, HoldOk, Balanced, EndBody, Publish, Flush, AfterFree, Hand, PopLocalJob, Begin;
    hide Drop, Others;
    var w, s' := c.worker, Move(p, s, c);
    var pc := s.ws[w].pc;
    var next := if pc.next != 0 then Take(pc.next, pc.nextReq) else Seek;
    MineAlone(p, s, w);
    CountBooks(Ledger(s), PcTally(pc), PcTally(next), Ledger(s'));
    QuietStep(p, s, NOTHING, w, s.ws[w].cur, next, s', NOTHING);
  }

  lemma {:induction false} SumIsPositive(ws: seq<Maestro>)
    ensures Sum(ws).sched >= 0
  {
    hide PcTally;
    if ws != [] {
      SumIsPositive(ws[..|ws| - 1]);
      PcSchedIsPositive(ws[|ws| - 1].pc);
    }
  }

  lemma PcSchedIsPositive(pc: Pc)
    ensures PcTally(pc).sched >= 0
  {
  }

  // SzSchedJob never falls below what any one worker has queued and in hand.
  lemma BusyMeansCounted(p: Plan, s: Sched, w: nat)
    requires Inv(p, s) && w < |s.ws|
    ensures s.sched >= |s.ws[w].run| + |s.ws[w].required| + PcTally(s.ws[w].pc).sched
  {
    hide CoreInv, MaestroOk, PcTally;
    SumSplit(s.ws, w);
    SumIsPositive(s.ws[w := IDLE]);
  }

  // Where the test at the top of the loop leads.
  function AtTop(sched: int, pc: Pc): Pc
    requires pc.Top?
  {
    if sched == 0 then Left else if pc.job != 0 then Take(pc.job, pc.req) else Seek
  }

  lemma TopTally(p: Plan, c: Core, cur: Id, sched: int, pc: Pc)
    requires pc.Top? && PcOk(p, c, cur, pc) && sched >= PcTally(pc).sched
    ensures PcTally(AtTop(sched, pc)) == PcTally(pc) && PcOk(p, c, cur, AtTop(sched, pc))
  {
    hide Held;
  }

  // Leaving is safe: a worker that reads zero holds nothing.
  lemma TopStep(p: Plan, s: Sched, c: Choice)
    requires Inv(p, s) && c.worker < |s.ws| && s.ws[c.worker].pc.Top?
    ensures Inv(p, Move(p, s, c))
  {
    hide CoupledUpTo, PcOk, PcTally, Balanced, EndBody, Publish, Post, Flush, AfterFree, Hand, PopLocalJob, Begin;
    hide Drop, Others;
    hide Plus, Sum, QueueTally, SlotOf;
    var w := c.worker;
    var pc := s.ws[w].pc;
    MineAlone(p, s, w);
    BusyMeansCounted(p, s, w);
    TopTally(p, s.core, s.ws[w].cur, s.sched, pc);
    SameBooks(Ledger(s), PcTally(pc));
    QuietStep(p, s, NOTHING, w, s.ws[w].cur, AtTop(s.sched, pc), Move(p, s, c), NOTHING);
  }

  lemma LastSplits(q: seq<Id>)
    requires q != []
    ensures multiset(q) == multiset(PopLast(q)) + multiset{LastOf(q)} && LastOf(q) in q
    ensures forall id :: id in PopLast(q) ==> id in q
  {
    assert q == PopLast(q) + [LastOf(q)];
  }

  // Taking the last job off a queue; what is left of the queue stays in order.
  lemma PopRunBooks(c: Core, m: Maestro)
    requires QueuesOk(c, m) && m.run != []
    ensures var rest := m.(run := PopLast(m.run));
            QueuesOk(c, rest) && QueueTally(m) == Plus(QueueTally(rest), Parcel(LastOf(m.run), false))
    ensures Held(c, LastOf(m.run), false)
  {
    hide Held;
    LastSplits(m.run);
  }

  lemma PopRequiredBooks(c: Core, m: Maestro)
    requires QueuesOk(c, m) && m.required != []
    ensures var rest := m.(required := PopLast(m.required));
            QueuesOk(c, rest) && QueueTally(m) == Plus(QueueTally(rest), Parcel(LastOf(m.required), true))
    ensures Held(c, LastOf(m.required), true)
  {
    hide Held;
    LastSplits(m.required);
  }

  lemma TopIsParcel(p: Plan, c: Core, cur: Id, id: Id, req: bool)
    requires Held(c, id, req)
    ensures id != 0 && PcOk(p, c, cur, Top(id, req)) && PcTally(Top(id, req)) == Parcel(id, req)
  {
  }

  lemma FreeTally(p: Plan, c: Core, cur: Id)
    ensures PcTally(Seek) == PcTally(Steal) == PcTally(Top(0, false)) == NOTHING
    ensures PcOk(p, c, cur, Top(0, false)) && PcOk(p, c, cur, Steal)
  {
  }

  lemma SameBooks(l: Tally, t: Tally)
    ensures Balanced(l, t, NOTHING, l, t, NOTHING)
  {
  }

  // PopLocalJob moves one job from a queue into the worker's hand, or nothing.
  lemma SeekStep(p: Plan, s: Sched, c: Choice)
    requires Inv(p, s) && c.worker < |s.ws| && s.ws[c.worker].pc.Seek?
    ensures Inv(p, Move(p, s, c))
  {
    hide CoupledUpTo, Held, QueuesOk, PcOk, QueueTally, PcTally, Balanced, Parcel;
    var w, m := c.worker, s.ws[c.worker];
    MaestroIs(p, s, w);
    FreeTally(p, s.core, m.cur);
    SameBooks(Ledger(s), TallyOf(m));
    SameBooks(Ledger(s), NOTHING);
    var r := PopLocalJob(m, s.runnables, c.preferRequired);
    var popped := r.rest.(pc := Top(r.job, r.req));
    if m.run != [] && (m.required == [] || !c.preferRequired) {
      PopRunBooks(s.core, m);
      TopIsParcel(p, s.core, m.cur, r.job, false);
      TopBooks(p, s.core, r.rest, m, Parcel(r.job, false), r.job, false);
      QueueStep(p, s, NOTHING, w, popped, Move(p, s, c), NOTHING);
    } else if m.required != [] && (m.run != [] || s.runnables == 0) {
      PopRequiredBooks(s.core, m);
      TopIsParcel(p, s.core, m.cur, r.job, true);
      TopBooks(p, s.core, r.rest, m, Parcel(r.job, true), r.job, true);
      QueueStep(p, s, NOTHING, w, popped, Move(p, s, c), NOTHING);
    } else {
      QuietStep(p, s, NOTHING, w, m.cur, if |s.ws| >= 2 then Steal else Top(0, false), Move(p, s, c), NOTHING);
    }
  }

  lemma TopBooks(p: Plan, c: Core, rest: Maestro, m: Maestro, parcel: Tally, id: Id, req: bool)
    requires QueueTally(m) == Plus(QueueTally(rest), parcel) && PcTally(m.pc) == NOTHING
    requires PcTally(Top(id, req)) == parcel
    requires QueuesOk(c, rest) && PcOk(p, c, rest.cur, Top(id, req))
    ensures TallyOf(rest.(pc := Top(id, req))) == TallyOf(m) && MaestroOk(p, c, rest.(pc := Top(id, req)))
  {
    hide PcTally, PcOk, QueueTally, Held;
    QueuesDoNotRead(c, rest, rest.(pc := Top(id, req)));
    PlusNothing(QueueTally(m));
  }

  lemma MaestroIs(p: Plan, s: Sched, w: nat)
    requires Inv(p, s) && w < |s.ws|
    ensures MaestroOk(p, s.core, s.ws[w])
  {
    hide PcOk, CoreInv, Sum;
  }

  // GrabJob: the victim gives up a runnable job, the thief holds it.
  lemma StealStep(p: Plan, s: Sched, c: Choice)
    requires Inv(p, s) && c.worker < |s.ws| && s.ws[c.worker].pc.Steal?
    ensures Inv(p, Move(p, s, c))
  {
    hide CoupledUpTo, Held, QueuesOk, PcOk, QueueTally, PcTally, Balanced, Parcel, CoreInv;
    var w, v := c.worker, c.victim;
    FreeTally(p, s.core, s.ws[w].cur);
    if v < |s.ws| && v != w && s.ws[v].run != [] {
      var m := s.ws[v];
      var id, rest := LastOf(m.run), m.(run := PopLast(m.run));
      MaestroIs(p, s, v);
      PopRunBooks(s.core, m);
      var robbed := s.(ws := s.ws[v := rest]);
      PlusSwap(QueueTally(rest), Parcel(id, false), PcTally(m.pc));
      RobBooks(Ledger(s), TallyOf(rest), Parcel(id, false));
      QueueStep(p, s, NOTHING, v, rest, robbed, Parcel(id, false));
      TopIsParcel(p, s.core, s.ws[w].cur, id, false);
      ParcelBooks(Ledger(robbed), NOTHING, Parcel(id, false));
      PlusNothing(Parcel(id, false));
      PlusComm(NOTHING, Parcel(id, false));
      QuietStep(p, robbed, Parcel(id, false), w, s.ws[w].cur, Top(id, false), Move(p, s, c), NOTHING);
    } else {
      SameBooks(Ledger(s), NOTHING);
      QuietStep(p, s, NOTHING, w, s.ws[w].cur, Top(0, false), Move(p, s, c), NOTHING);
    }
  }

  lemma PlusComm(a: Tally, b: Tally)
    ensures Plus(a, b) == Plus(b, a)
  {
  }

  lemma RobBooks(l: Tally, t: Tally, extra: Tally)
    ensures Balanced(l, Plus(t, extra), NOTHING, l, t, extra)
  {
    PlusNothing(Plus(l, Plus(t, extra)));
    PlusGroup(l, t, extra);
  }

  lemma TakenSlot(p: Plan, c: Core, job: Id)
    requires CoreInv(p, c) && job in c.tokens && c.jobs[job].work
    ensures var slot := c.jobs[job];
            && slot.node in c.runs && slot.node !in c.done && slot.succ == Succ(p, slot.node) && slot.node !in c.hands
            && IsReq(c, job) == slot.placement.IsRequired() && slot.node in c.carrier
  {
    hide Succ, Ids, PlacementOf, IsCoro, Due, Forks, Distinct;
    assert TokenOk(p, c, job) && SlotOk(p, c, job) && NodeOk(p, c, c.jobs[job].node)
      && CarrierOk(p, c, c.jobs[job].node);
  }

  lemma BeginSpares(c: Core, job: Id, others: Tally)
    requires job in c.jobs && c.jobs[job].node in c.runs && job !in others.tokens
    ensures Spares(c, Begin(c, job), others)
  {
  }

  lemma MoreOf(a: set<Id>, n: Id)
    requires n !in a
    ensures multiset(a + {n}) == multiset(a) + multiset{n}
  {
  }

  lemma LessOf(a: set<Id>, n: Id)
    requires n in a
    ensures multiset(a) == multiset(a - {n}) + multiset{n}
  {
  }

  lemma TakeBooks(l: Tally, h: multiset<Id>, job: Id, n: Id, req: bool)
    requires job != 0
    ensures Balanced(l, Tally(One(job), multiset{}, 1, Unit(req)), NOTHING,
                     Tally(l.tokens, l.hands + multiset{n}, l.sched, l.runnables),
                       Tally(One(job), multiset{n}, 1, Unit(req)), NOTHING)
  {
  }

  lemma TakeStep(p: Plan, s: Sched, c: Choice)
    requires Inv(p, s) && c.worker < |s.ws| && s.ws[c.worker].pc.Take?
    ensures Inv(p, Move(p, s, c))
  {
    hide CoreInv, Others, Sum, MaestroOk, Spares, Balanced;
    var w, m, s' := c.worker, s.ws[c.worker], Move(p, s, c);
    var job := m.pc.job;
    MineAlone(p, s, w);
    assert job in PcTally(m.pc).tokens;
    BeginKeeps(p, s.core, job);
    TakenSlot(p, s.core, job);
    var n := s.core.jobs[job].node;
    assert s'.core == Begin(s.core, job);
    BeginSpares(s.core, job, Others(s.ws, w));
    MoreOf(s.core.hands, n);
    TakeBooks(Ledger(s), multiset(s.core.hands), job, n, m.pc.req);
    PcStep(p, s, NOTHING, w, s'.ws[w].cur, s'.ws[w].pc, s', NOTHING);
  }

  lemma CloseBooks(l: Tally, job: Id, hands: multiset<Id>, r: int)
    requires job != 0
    ensures Balanced(Tally(l.tokens + multiset{job}, l.hands, l.sched, l.runnables),
      Tally(One(job), hands, 1, r), NOTHING,
                     l, Tally(multiset{}, hands, 1, r), NOTHING)
  {
  }

  lemma DropSpares(c: Core, job: Id, others: Tally)
    requires job !in others.tokens
    ensures Spares(c, Drop(c, job), others)
  {
  }

  // FreeJob resets the row of the executed job; nobody else refers to it.
  lemma ClosingStep(p: Plan, s: Sched, c: Choice)
    requires Inv(p, s) && c.worker < |s.ws| && s.ws[c.worker].pc.Closing?
    ensures Inv(p, Move(p, s, c))
  {
    hide CoupledUpTo, Balanced, EndBody, Publish, Flush, AfterFree, Hand, PopLocalJob, Begin, Others, Spares, CoreInv;
    hide HoldOk;
    var w, s' := c.worker, Move(p, s, c);
    var pc := s.ws[w].pc;
    MineAlone(p, s, w);
    InvCore(p, s);
    assert pc.job in PcTally(pc).tokens;
    DropKeeps(p, s.core, pc.job);
    DropSpares(s.core, pc.job, Others(s.ws, w));
    LessOf(s.core.tokens, pc.job);
    CloseBooks(Ledger(s'), pc.job, PcTally(pc).hands, Unit(pc.req));
    DropKeepsHold(p, s.core, pc.job, s.ws[w].cur, pc.node, pc.holds);
    PcStep(p, s, NOTHING, w, s.ws[w].cur, Flushing(pc.node, pc.req, pc.holds, 0), s', NOTHING);
  }

  lemma InvCore(p: Plan, s: Sched)
    requires Inv(p, s)
    ensures CoreInv(p, s.core)
  {
  }

  lemma DropKeepsHold(p: Plan, c: Core, job: Id, cur: Id, node: Id, holds: bool)
    requires HoldOk(p, c, cur, node, holds)
    ensures HoldOk(p, Drop(c, job), cur, node, holds)
  {
  }

  // How a release changes the tables.
  lemma ReleaseFacts(p: Plan, c: Core, n: Id)
    requires CoreInv(p, c) && n in c.hands && n in c.started && n in c.done
    ensures var r, b := Release(p, c, n), Succ(p, n);
            && r.hands == c.hands - {n} && r.started == c.started && r.done == c.done
            && (if b != 0 && SlotOf(c, b).preds == 1
                then b !in c.tokens && r.tokens == c.tokens + {b} && Held(r, b, IsReq(c, b))
                  && IsReq(r, b) == IsReq(c, b)
                else r.tokens == c.tokens)
  {
    hide Succ, Ids, Forks, Due, PlacementOf, IsCoro, Distinct, NodeOk, TokenOk, WaitsForSomething;
    assert CarrierOk(p, c, n);
    var b := Succ(p, n);
    if b != 0 {
      assert n in Holders(p, c, b);
    }
  }

  lemma ReleaseSpares(p: Plan, c: Core, n: Id, others: Tally)
    ensures Spares(c, Release(p, c, n), others)
  {
    hide Succ;
  }

  // What a worker gets back for its hold: the successor, when it was the last to let go.
  function Gained(p: Plan, c: Core, n: Id): multiset<Id> {
    var b := Succ(p, n);
    if b != 0 && SlotOf(c, b).preds == 1 then multiset{b} else multiset{}
  }

  lemma ReleaseBalance(p: Plan, c: Core, job: multiset<Id>, n: Id, sched: int, runnables: int, r: int)
    requires CoreInv(p, c) && n in c.hands && n in c.started && n in c.done
    ensures Balanced(Tally(multiset(c.tokens), multiset(c.hands), sched, runnables),
      Tally(job, multiset{n}, 1, r), NOTHING,
                     Tally(multiset(Release(p, c, n).tokens), multiset(Release(p, c, n).hands), sched, runnables),
                     Tally(job + Gained(p, c, n), multiset{}, 1, r), NOTHING)
  {
    hide CoreInv, Release, Succ, Held, IsReq, Balanced;
    ReleaseFacts(p, c, n);
    LessOf(c.hands, n);
    if Gained(p, c, n) != multiset{} {
      MoreOf(c.tokens, Succ(p, n));
    }
    var got, tokens, hands := Gained(p, c, n), multiset(c.tokens), multiset(c.hands - {n});
    assert multiset(Release(p, c, n).tokens) == tokens + got;
    assert multiset(c.hands) == hands + multiset{n};
    GainBooks(tokens, hands, got, job, n, sched, runnables, r);
    assert Release(p, c, n).hands == c.hands - {n};
  }

  lemma GainBooks(tokens: multiset<Id>, hands: multiset<Id>, got: multiset<Id>, job: multiset<Id>, n: Id, sched: int,
                  runnables: int, r: int)
    ensures Balanced(Tally(tokens, hands + multiset{n}, sched, runnables), Tally(job, multiset{n}, 1, r), NOTHING,
                     Tally(tokens + got, hands, sched, runnables), Tally(job + got, multiset{}, 1, r), NOTHING)
  {
  }

  lemma ReleasingTally(p: Plan, c: Core, cur: Id, pc: Pc, inline: bool)
    requires pc.Releasing? && pc.holds && cur == Succ(p, pc.node)
    ensures PcTally(pc) == Tally(multiset{}, multiset{pc.node}, 1, Unit(pc.req))
    ensures PcTally(ReleasedPc(c, cur, pc, inline))
      == Tally(multiset{} + Gained(p, c, pc.node), multiset{}, 1, Unit(pc.req))
  {
    hide Succ;
  }

  lemma ReleasingPcOk(p: Plan, c: Core, cur: Id, pc: Pc, inline: bool)
    requires CoreInv(p, c) && pc.Releasing? && pc.holds && PcOk(p, c, cur, pc) && pc.node in c.hands
    ensures PcOk(p, Release(p, c, pc.node), cur, ReleasedPc(c, cur, pc, inline))
  {
    hide Succ, CoreInv, Held, Release, IsReq;
    ReleaseFacts(p, c, pc.node);
  }

  lemma ReleasingHeld(p: Plan, s: Sched, c: Choice)
    requires Inv(p, s) && c.worker < |s.ws| && s.ws[c.worker].pc.Releasing? && s.ws[c.worker].pc.holds
    ensures Inv(p, Move(p, s, c))
  {
    hide CoupledUpTo, Balanced, EndBody, Publish, Flush, Hand, PopLocalJob, Begin, Others, Spares, CoreInv, Succ;
    hide Held, IsReq, Release, ReleasedPc, Gained;
    var w, s' := c.worker, Move(p, s, c);
    var pc, cur, n := s.ws[w].pc, s.ws[w].cur, s.ws[w].pc.node;
    var inline := SlotOf(s.core, cur).placement.CanExecuteOn(w);
    MineAlone(p, s, w);
    InvCore(p, s);
    ReleasingTally(p, s.core, cur, pc, inline);
    assert n in PcTally(pc).hands;
    ReleaseKeeps(p, s.core, n);
    ReleaseSpares(p, s.core, n, Others(s.ws, w));
    ReleaseBalance(p, s.core, multiset{}, n, s.sched, s.runnables, Unit(pc.req));
    ReleaseHistory(p, s.core, n);
    ReleasingPcOk(p, s.core, cur, pc, inline);
    PcStep(p, s, NOTHING, w, cur, ReleasedPc(s.core, cur, pc, inline), s', NOTHING);
  }

  lemma ReleaseHistory(p: Plan, c: Core, n: Id)
    ensures Release(p, c, n).started == c.started && Release(p, c, n).done == c.done
  {
  }

  lemma ReleasingStep(p: Plan, s: Sched, c: Choice)
    requires Inv(p, s) && c.worker < |s.ws| && s.ws[c.worker].pc.Releasing?
    ensures Inv(p, Move(p, s, c))
  {
    hide CoupledUpTo, Balanced, EndBody, Publish, Flush, Hand, PopLocalJob, Begin, Others, Spares, CoreInv, Succ;
    hide Held, IsReq, Release;
    if s.ws[c.worker].pc.holds {
      ReleasingHeld(p, s, c);
    } else {
      var w, s' := c.worker, Move(p, s, c);
      var pc := s.ws[w].pc;
      MineAlone(p, s, w);
      SameBooks(Ledger(s), PcTally(pc));
      QuietStep(p, s, NOTHING, w, s.ws[w].cur, Settling(pc.req, 0, false), s', NOTHING);
    }
  }

  lemma ParcelOut(l: Tally, r: int, id: Id, req: bool, base: Tally)
    requires id != 0
    ensures Balanced(l, Plus(base, Tally(One(id), multiset{}, 1, Unit(req))), NOTHING, l, base, Parcel(id, req))
  {
  }

  // Handing a due successor on: count it, then keep it, or enqueue it where its placement says.
  lemma HandingDecided(p: Plan, s: Sched, c: Choice)
    requires Inv(p, s) && c.worker < |s.ws| && s.ws[c.worker].pc.Handing? && s.ws[c.worker].pc.stage == Decided
    ensures Inv(p, Move(p, s, c))
  {
    hide CoupledUpTo, Balanced, EndBody, Publish, Flush, AfterFree, PopLocalJob, Begin, Drop, Others, CoreInv, Held;
    hide IsReq;
    var w, s' := c.worker, Move(p, s, c);
    var pc := s.ws[w].pc;
    MineAlone(p, s, w);
    CountBooks(Ledger(s), PcTally(pc), PcTally(s'.ws[w].pc), Ledger(s'));
    QuietStep(p, s, NOTHING, w, s.ws[w].cur, s'.ws[w].pc, s', NOTHING);
  }

  lemma HandingPushed(p: Plan, s: Sched, c: Choice)
    requires Inv(p, s) && c.worker < |s.ws| && s.ws[c.worker].pc.Handing? && s.ws[c.worker].pc.stage == Pushed
    ensures Inv(p, Move(p, s, c))
  {
    hide CoupledUpTo, Balanced, EndBody, Publish, Flush, AfterFree, PopLocalJob, Begin, Drop, Others, CoreInv, Held;
    hide IsReq;
    var w, s' := c.worker, Move(p, s, c);
    var pc := s.ws[w].pc;
    MineAlone(p, s, w);
    CountBooks(Ledger(s), PcTally(pc), PcTally(s'.ws[w].pc), Ledger(s'));
    QuietStep(p, s, NOTHING, w, s.ws[w].cur, s'.ws[w].pc, s', NOTHING);
  }

  lemma HandingInline(p: Plan, s: Sched, c: Choice)
    requires Inv(p, s) && c.worker < |s.ws| && s.ws[c.worker].pc.Handing? && s.ws[c.worker].pc.stage == Counted
    requires s.ws[c.worker].pc.inline
    ensures Inv(p, Move(p, s, c))
  {
    hide CoupledUpTo, Balanced, EndBody, Publish, Flush, AfterFree, PopLocalJob, Begin, Drop, Others, CoreInv, Held;
    hide IsReq;
    var w, s' := c.worker, Move(p, s, c);
    var pc := s.ws[w].pc;
    MineAlone(p, s, w);
    HeldIsNamed(s.core, pc.next, IsReq(s.core, pc.next));
    CountBooks(Ledger(s), PcTally(pc), PcTally(s'.ws[w].pc), Ledger(s'));
    QuietStep(p, s, NOTHING, w, s.ws[w].cur, s'.ws[w].pc, s', NOTHING);
  }

  lemma HandingCounted(p: Plan, s: Sched, c: Choice)
    requires Inv(p, s) && c.worker < |s.ws| && s.ws[c.worker].pc.Handing? && s.ws[c.worker].pc.stage == Counted
    requires !s.ws[c.worker].pc.inline
    ensures Inv(p, Move(p, s, c))
  {
    hide CoupledUpTo, Balanced, EndBody, Publish, Flush, AfterFree, PopLocalJob, Begin, Drop, Others, CoreInv, Held;
    hide IsReq, Push, Parcel;
    var w := c.worker;
    var pc, m := s.ws[w].pc, s.ws[w];
    var req := IsReq(s.core, pc.next);
    MineAlone(p, s, w);
    HeldIsNamed(s.core, pc.next, req);
    var next := if req then Settling(pc.req, 0, false) else Handing(pc.req, pc.next, Pushed, false);
    ParcelOut(Ledger(s), 0, pc.next, req, PcTally(next));
    HandedTally(pc, next, req);
    QuietStep(p, s, NOTHING, w, m.cur, next, SetPc(s, w, next), Parcel(pc.next, req));
    PushKeeps(p, SetPc(s, w, next), pc.next, 0);
  }

  lemma HandedTally(pc: Pc, next: Pc, req: bool)
    requires pc.Handing? && pc.stage == Counted
    requires next == (if req then Settling(pc.req, 0, false) else Handing(pc.req, pc.next, Pushed, false))
    ensures PcTally(pc) == Plus(PcTally(next), Tally(One(pc.next), multiset{}, 1, Unit(req)))
  {
  }

  lemma HandingStep(p: Plan, s: Sched, c: Choice)
    requires Inv(p, s) && c.worker < |s.ws| && s.ws[c.worker].pc.Handing?
    ensures Inv(p, Move(p, s, c))
  {
    hide Inv, Move;
    match s.ws[c.worker].pc.stage
    case Decided => HandingDecided(p, s, c);
    case Counted => if s.ws[c.worker].pc.inline { HandingInline(p, s, c); } else { HandingCounted(p, s, c); }
    case Pushed => HandingPushed(p, s, c);
  }

  // PublishSuccessor, from inside the body of a finished coroutine.
  lemma PublishingDecided(p: Plan, s: Sched, c: Choice)
    requires Inv(p, s) && c.worker < |s.ws| && s.ws[c.worker].pc.Publishing? && s.ws[c.worker].pc.stage == Decided
    ensures Inv(p, Move(p, s, c))
  {
    hide CoupledUpTo, Balanced, EndBody, Post, Hand, Flush, AfterFree, PopLocalJob, Begin, Drop, Others, CoreInv;
    hide Held, IsReq;
    hide Executing, HoldOk, SlotOf, Push;
    var w, s' := c.worker, Move(p, s, c);
    var pc := s.ws[w].pc;
    MineAlone(p, s, w);
    CountBooks(Ledger(s), PcTally(pc), PcTally(s'.ws[w].pc), Ledger(s'));
    QuietStep(p, s, NOTHING, w, s.ws[w].cur, s'.ws[w].pc, s', NOTHING);
  }

  lemma PublishingPushed(p: Plan, s: Sched, c: Choice)
    requires Inv(p, s) && c.worker < |s.ws| && s.ws[c.worker].pc.Publishing? && s.ws[c.worker].pc.stage == Pushed
    ensures Inv(p, Move(p, s, c))
  {
    hide CoupledUpTo, Balanced, EndBody, Post, Hand, Flush, AfterFree, PopLocalJob, Begin, Drop, Others, CoreInv;
    hide Held, IsReq;
    hide Executing, SlotOf, Push;
    var w, s' := c.worker, Move(p, s, c);
    var pc := s.ws[w].pc;
    MineAlone(p, s, w);
    CountBooks(Ledger(s), PcTally(pc), PcTally(s'.ws[w].pc), Ledger(s'));
    QuietStep(p, s, NOTHING, w, 0, s'.ws[w].pc, s', NOTHING);
  }

  lemma PublishingCounted(p: Plan, s: Sched, c: Choice)
    requires Inv(p, s) && c.worker < |s.ws| && s.ws[c.worker].pc.Publishing? && s.ws[c.worker].pc.stage == Counted
    ensures Inv(p, Move(p, s, c))
  {
    hide CoupledUpTo, Balanced, EndBody, Hand, Flush, AfterFree, PopLocalJob, Begin, Drop, Others, CoreInv, Held;
    hide IsReq, Push, Parcel, Executing;
    var w := c.worker;
    var pc, m := s.ws[w].pc, s.ws[w];
    var req := IsReq(s.core, pc.next);
    MineAlone(p, s, w);
    HeldIsNamed(s.core, pc.next, req);
    var next := if req then Closing(pc.job, pc.node, pc.req, false)
      else Publishing(pc.job, pc.node, pc.req, pc.next, Pushed);
    var cur := if req then 0 else m.cur;
    var s1 := s.(ws := s.ws[w := m.(cur := cur, pc := next)]);
    ParcelOut(Ledger(s), 0, pc.next, req, PcTally(next));
    PublishedTally(pc, next, req);
    QuietStep(p, s, NOTHING, w, cur, next, s1, Parcel(pc.next, req));
    PushKeeps(p, s1, pc.next, 0);
    assert m.(pc := next) == m.(cur := m.cur, pc := next);
  }

  lemma PublishedTally(pc: Pc, next: Pc, req: bool)
    requires pc.Publishing? && pc.stage == Counted
    requires next == (if req then Closing(pc.job, pc.node, pc.req, false)
      else Publishing(pc.job, pc.node, pc.req, pc.next, Pushed))
    ensures PcTally(pc) == Plus(PcTally(next), Tally(One(pc.next), multiset{}, 1, Unit(req)))
  {
  }

  lemma PublishingStep(p: Plan, s: Sched, c: Choice)
    requires Inv(p, s) && c.worker < |s.ws| && s.ws[c.worker].pc.Publishing?
    ensures Inv(p, Move(p, s, c))
  {
    hide Inv, Move;
    match s.ws[c.worker].pc.stage
    case Decided => PublishingDecided(p, s, c);
    case Counted => PublishingCounted(p, s, c);
    case Pushed => PublishingPushed(p, s, c);
  }

  lemma FlushTallies(node: Id, req: bool, holds: bool, moving: Id)
    ensures PcTally(Flushing(node, req, holds, moving)).hands == PcTally(Flushing(node, req, holds, 0)).hands
    ensures moving != 0 ==>
      && PcTally(Flushing(node, req, holds, moving)).tokens
        == PcTally(Flushing(node, req, holds, 0)).tokens + multiset{moving}
      && PcTally(Flushing(node, req, holds, moving)).sched == PcTally(Flushing(node, req, holds, 0)).sched + 1
      && PcTally(Flushing(node, req, holds, moving)).runnables == PcTally(Flushing(node, req, holds, 0)).runnables
    ensures PcTally(Flushing(node, req, holds, 0)) == PcTally(Releasing(node, req, holds))
  {
  }

  lemma PushBooks(l: Tally, q: Tally, t: Tally, t': Tally, id: Id, req: bool)
    requires t.tokens == t'.tokens + multiset{id} && t.hands == t'.hands && t.sched == t'.sched + 1
    requires t.runnables == t'.runnables
    ensures Balanced(l, Plus(q, t), NOTHING,
                     Tally(l.tokens, l.hands, l.sched, l.runnables + Unit(req)),
                       Plus(Plus(q, Parcel(id, req)), t'), NOTHING)
  {
  }

  lemma FlushPush(p: Plan, s: Sched, c: Choice)
    requires Inv(p, s) && c.worker < |s.ws| && s.ws[c.worker].pc.Flushing? && s.ws[c.worker].pc.moving != 0
    ensures Inv(p, Move(p, s, c))
  {
    hide CoupledUpTo, Balanced, EndBody, Publish, Hand, AfterFree, PopLocalJob, Begin, Drop, Others, CoreInv, Held;
    hide IsReq, Parcel, QueueTally, PcTally, QueuesOk;
    var w, s', m := c.worker, Move(p, s, c), s.ws[c.worker];
    var pc := m.pc;
    var req := IsReq(s.core, pc.moving);
    var next := Flushing(pc.node, pc.req, pc.holds, 0);
    MaestroIs(p, s, w);
    FlushTallies(pc.node, pc.req, pc.holds, pc.moving);
    EnqueueTally(m, pc.moving, req);
    EnqueueOk(p, s.core, m, pc.moving, req);
    var m' := Enqueue(m, pc.moving, req).(pc := next);
    QueuesDoNotRead(s.core, Enqueue(m, pc.moving, req), m');
    PushBooks(Ledger(s), QueueTally(m), PcTally(pc), PcTally(next), pc.moving, req);
    assert s'.ws == s.ws[w := m'];
    QueueStep(p, s, NOTHING, w, m', s', NOTHING);
  }

  lemma PopBooks(l: Tally, q: Tally, q': Tally, t: Tally, t': Tally, id: Id)
    requires q.tokens == q'.tokens + multiset{id} && q.hands == q'.hands && q.sched == q'.sched
    requires q.runnables == q'.runnables
    requires t'.tokens == t.tokens + multiset{id} && t.hands == t'.hands && t'.sched == t.sched + 1
    requires t.runnables == t'.runnables
    ensures Balanced(l, Plus(q, t), NOTHING, Tally(l.tokens, l.hands, l.sched + 1, l.runnables), Plus(q', t'), NOTHING)
  {
  }

  lemma PopTempBooks(c: Core, m: Maestro)
    requires QueuesOk(c, m) && m.temp != []
    ensures var rest := m.(temp := PopLast(m.temp));
            && QueuesOk(c, rest) && QueueTally(m).tokens == QueueTally(rest).tokens + multiset{LastOf(m.temp)}
            && QueueTally(m).hands == QueueTally(rest).hands && QueueTally(m).sched == QueueTally(rest).sched
            && QueueTally(m).runnables == QueueTally(rest).runnables
    ensures Held(c, LastOf(m.temp), IsReq(c, LastOf(m.temp)))
  {
    hide Held;
    LastSplits(m.temp);
  }

  lemma FlushPop(p: Plan, s: Sched, c: Choice)
    requires Inv(p, s) && c.worker < |s.ws| && s.ws[c.worker].pc.Flushing? && s.ws[c.worker].pc.moving == 0
    requires s.ws[c.worker].temp != []
    ensures Inv(p, Move(p, s, c))
  {
    hide CoupledUpTo, Balanced, EndBody, Publish, Hand, AfterFree, PopLocalJob, Begin, Drop, Others, CoreInv, Held;
    hide IsReq, QueueTally, PcTally, QueuesOk;
    var w, s', m := c.worker, Move(p, s, c), s.ws[c.worker];
    var pc := m.pc;
    var id := LastOf(m.temp);
    var next, rest := Flushing(pc.node, pc.req, pc.holds, id), m.(temp := PopLast(m.temp));
    MaestroIs(p, s, w);
    PopTempBooks(s.core, m);
    HeldIsNamed(s.core, id, IsReq(s.core, id));
    FlushTallies(pc.node, pc.req, pc.holds, id);
    QueuesDoNotRead(s.core, rest, rest.(pc := next));
    PopBooks(Ledger(s), QueueTally(m), QueueTally(rest), PcTally(pc), PcTally(next), id);
    assert s'.ws == s.ws[w := rest.(pc := next)];
    QueueStep(p, s, NOTHING, w, rest.(pc := next), s', NOTHING);
  }

  lemma FlushingStep(p: Plan, s: Sched, c: Choice)
    requires Inv(p, s) && c.worker < |s.ws| && s.ws[c.worker].pc.Flushing?
    ensures Inv(p, Move(p, s, c))
  {
    hide CoupledUpTo, Balanced, EndBody, Publish, Hand, AfterFree, PopLocalJob, Begin, Drop, Others, CoreInv, Held;
    hide PcTally;
    var w, m := c.worker, s.ws[c.worker];
    if m.pc.moving != 0 {
      FlushPush(p, s, c);
    } else if m.temp != [] {
      FlushPop(p, s, c);
    } else {
      var next := Releasing(m.pc.node, m.pc.req, m.pc.holds);
      MineAlone(p, s, w);
      FlushTallies(m.pc.node, m.pc.req, m.pc.holds, 0);
      SameBooks(Ledger(s), PcTally(next));
      QuietStep(p, s, NOTHING, w, m.cur, next, Move(p, s, c), NOTHING);
    }
  }

  lemma YieldFacts(p: Plan, c: Core, n: Id, next: Id, others: Tally)
    requires CoreInv(p, c) && n in c.hands && next != 0 && next !in c.jobs
    ensures var y := Yield(p, c, n, next);
            && y.tokens == c.tokens + {next} && next !in c.tokens && y.hands == c.hands - {n}
            && Held(y, next, IsReq(y, next)) && Spares(c, y, others)
    ensures forall id :: Executing(c, id) ==> Executing(Yield(p, c, n, next), id)
  {
    hide Succ, PlacementOf, Ids, Due, PlanInv, SlotOk, CarrierOk, Distinct;
    assert next in c.tokens ==> TokenOk(p, c, next);
  }

  lemma YieldBooks(l: Tally, job: Id, n: Id, next: Id, r: int, req: bool)
    requires job != 0
    ensures Balanced(Tally(l.tokens, l.hands + multiset{n}, l.sched, l.runnables),
      Tally(One(job), multiset{n}, 1, r), NOTHING,
                     Tally(l.tokens + multiset{next}, l.hands, l.sched, l.runnables),
                     Tally(One(job), multiset{}, 0, r - Unit(req)), Parcel(next, req))
  {
  }

  predicate Suspends(p: Plan, s: Sched, c: Choice) {
    c.worker < |s.ws| && s.ws[c.worker].pc.Running? && IsCoro(p, s.ws[c.worker].pc.node)
      && c.suspends && c.next != 0 && c.next !in s.core.jobs
  }

  lemma YieldBalance(p: Plan, c: Core, job: Id, n: Id, next: Id, sched: int, runnables: int, r: int, req: bool)
    requires CoreInv(p, c) && n in c.hands && next != 0 && next !in c.jobs && job != 0
    ensures var y := Yield(p, c, n, next);
            Balanced(Tally(multiset(c.tokens), multiset(c.hands), sched, runnables),
              Tally(One(job), multiset{n}, 1, r), NOTHING,
                     Tally(multiset(y.tokens), multiset(y.hands), sched, runnables),
                     Tally(One(job), multiset{}, 0, r - Unit(req)), Parcel(next, req))
  {
    hide Balanced, CoreInv, Yield;
    YieldFacts(p, c, n, next, NOTHING);
    LessOf(c.hands, n);
    MoreOf(c.tokens, next);
    YieldBooks(Tally(multiset(c.tokens), multiset(c.hands - {n}), sched, runnables), job, n, next, r, req);
  }

  lemma SuspendedBalances(p: Plan, s: Sched, w: nat, next: Id)
    requires Inv(p, s) && w < |s.ws| && s.ws[w].pc.Running? && IsCoro(p, s.ws[w].pc.node) && next != 0
    requires next !in s.core.jobs
    ensures var s1 := Suspended(p, s, w, s.ws[w].pc, next);
            CoupledUpTo(p, s1, Parcel(next, IsReq(s1.core, next))) && Held(s1.core, next, IsReq(s1.core, next))
  {
    hide CoupledUpTo, Balanced, Others, CoreInv, Held, IsReq, Parcel, Spares, Executing, Yield, IsCoro;
    var pc := s.ws[w].pc;
    MineAlone(p, s, w);
    InvCore(p, s);
    assert pc.node in PcTally(pc).hands;
    var s1 := Suspended(p, s, w, pc, next);
    YieldFacts(p, s.core, pc.node, next, Others(s.ws, w));
    YieldKeeps(p, s.core, pc.node, next);
    ExecutingIsNamed(s.core, pc.job);
    YieldBalance(p, s.core, pc.job, pc.node, next, s.sched, s.runnables, Unit(pc.req), IsReq(s1.core, next));
    PcStep(p, s, NOTHING, w, 0, Posting(pc.job, pc.node, pc.req, IsReq(s1.core, next)), s1,
           Parcel(next, IsReq(s1.core, next)));
  }

  // A yield passes the hold to the continuation unchanged.
  lemma YieldStep(p: Plan, s: Sched, c: Choice)
    requires Inv(p, s) && Suspends(p, s, c)
    ensures Inv(p, Move(p, s, c))
  {
    hide Inv, Held, IsReq, Push, Parcel, Suspended, Publish, Flush, Hand, AfterFree, PopLocalJob, Begin, Drop, Finish;
    hide Release, IsCoro;
    var w := c.worker;
    SuspendedBalances(p, s, w, c.next);
    PushKeeps(p, Suspended(p, s, w, s.ws[w].pc, c.next), c.next, w);
  }

  // Counting what has been posted.
  lemma PostingStep(p: Plan, s: Sched, c: Choice)
    requires Inv(p, s) && c.worker < |s.ws| && s.ws[c.worker].pc.Posting?
    ensures Inv(p, Move(p, s, c))
  {
    hide CoupledUpTo, Balanced, EndBody, Publish, Hand, Flush, AfterFree, PopLocalJob, Begin, Drop, Others, CoreInv;
    hide Held, IsReq;
    hide Executing, HoldOk;
    var w, s' := c.worker, Move(p, s, c);
    var pc := s.ws[w].pc;
    MineAlone(p, s, w);
    CountBooks(Ledger(s), PcTally(pc), PcTally(s'.ws[w].pc), Ledger(s'));
    QuietStep(p, s, NOTHING, w, s.ws[w].cur, s'.ws[w].pc, s', NOTHING);
  }

  lemma ExecutingIsNamed(c: Core, job: Id)
    requires Executing(c, job)
    ensures job != 0
  {
  }

  lemma CoroForksNothing(p: Plan, n: Id)
    requires Distinct(p) && IsCoro(p, n)
    ensures Forks(p, n) == []
  {
    CoroIsLeaf(p, n);
    ForksStay(p, n);
  }

  // How the end of a body changes the tables.
  lemma FinishFacts(p: Plan, c: Core, n: Id, others: Tally)
    requires CoreInv(p, c) && n in c.hands && n in c.started && n !in c.done && n !in others.hands
    ensures var f := Finish(p, c, n);
            && multiset(f.tokens) == multiset(c.tokens) + multiset(Forks(p, n)) && Spares(c, f, others)
            && (forall h :: h in Forks(p, n) ==> Held(f, h, IsReq(f, h)))
  {
    hide Succ, Ids, Due, TokenOk, SlotOk, WaitsForSomething, Distinct, PlacementOf, IsCoro, Forks;
    assert CarrierOk(p, c, n) && NodeOk(p, c, n);
    ForksStay(p, n);
    PlanIds(p);
    var hs := Forks(p, n);
    assert forall h :: h in hs ==> Waiting(c, h);
    TwoMore(c.tokens, hs);
  }

  lemma TwoMore(a: set<Id>, hs: seq<Id>)
    requires |hs| == 0 || (|hs| == 2 && hs[0] != hs[1])
    requires forall h :: h in hs ==> h !in a
    ensures multiset(a + set h | h in hs) == multiset(a) + multiset(hs)
  {
    if |hs| == 2 {
      assert hs == [hs[0]] + [hs[1]];
      assert (set h | h in hs) == {hs[0], hs[1]};
      MoreOf(a, hs[0]);
      MoreOf(a + {hs[0]}, hs[1]);
      assert a + {hs[0]} + {hs[1]} == a + {hs[0], hs[1]};
    } else {
      assert a + (set h | h in hs) == a;
    }
  }

  predicate Publishes(p: Plan, s: Sched, c: Choice) {
    && c.worker < |s.ws| && s.ws[c.worker].pc.Running? && IsCoro(p, s.ws[c.worker].pc.node) && s.ws[c.worker].cur != 0
    && !Suspends(p, s, c)
  }

  lemma DoneFacts(p: Plan, c: Core, n: Id)
    requires CoreInv(p, c) && n in c.hands && n in c.started && n !in c.done && IsCoro(p, n)
    ensures var f := Finish(p, c, n);
            && CoreInv(p, f) && f.tokens == c.tokens && f.hands == c.hands && f.jobs == c.jobs && f.started == c.started
            && f.done == c.done + {n} && CoreInv(p, Release(p, f, n))
  {
    hide CoreInv, Release, Forks;
    assert Distinct(p) by {
      CoreIsDistinct(p, c);
    }
    CoroForksNothing(p, n);
    FinishKeeps(p, c, n);
    ReleaseKeeps(p, Finish(p, c, n), n);
  }

  lemma CoreIsDistinct(p: Plan, c: Core)
    requires CoreInv(p, c)
    ensures Distinct(p)
  {
  }

  lemma DoneSpares(p: Plan, c: Core, n: Id, others: Tally)
    requires n !in others.hands && n in c.hands && n in c.started && n !in c.done && IsCoro(p, n) && CoreInv(p, c)
    ensures Spares(c, Release(p, Finish(p, c, n), n), others)
    ensures forall id :: Executing(c, id) ==> Executing(Release(p, Finish(p, c, n), n), id)
  {
    hide Succ, Forks, CoreInv, IsCoro;
  }

  // Where a finished coroutine goes on: publish its successor, or close at once.
  function DonePc(c: Core, cur: Id, pc: Pc): Pc
    requires pc.Running?
  {
    if SlotOf(c, cur).preds == 1 then Publishing(pc.job, pc.node, pc.req, cur, Decided)
    else Closing(pc.job, pc.node, pc.req, false)
  }

  lemma DoneTally(p: Plan, c: Core, cur: Id, pc: Pc)
    requires pc.Running? && cur == Succ(p, pc.node) != 0
    ensures PcTally(pc) == Tally(One(pc.job), multiset{pc.node}, 1, Unit(pc.req))
    ensures PcTally(DonePc(c, cur, pc)) == Tally(One(pc.job) + Gained(p, c, pc.node), multiset{}, 1, Unit(pc.req))
  {
    hide Succ;
    if SlotOf(c, cur).preds == 1 {
      assert One(cur) == Gained(p, c, pc.node);
    } else {
      assert One(pc.job) + multiset{} == One(pc.job);
    }
  }

  lemma DonePcOk(p: Plan, c: Core, cur: Id, pc: Pc)
    requires CoreInv(p, c) && pc.Running? && pc.node in c.hands && pc.node in c.started && pc.node in c.done
    requires cur == Succ(p, pc.node) != 0 && Executing(Release(p, c, pc.node), pc.job)
    ensures PcOk(p, Release(p, c, pc.node), if SlotOf(c, cur).preds == 1 then cur else 0, DonePc(c, cur, pc))
  {
    hide Succ, CoreInv, Held, Executing, Release, IsReq;
    ReleaseFacts(p, c, pc.node);
  }

  // A finished coroutine releases its successor once, after its last resume.
  lemma DoneStep(p: Plan, s: Sched, c: Choice)
    requires Inv(p, s) && Publishes(p, s, c)
    ensures Inv(p, Move(p, s, c))
  {
    hide CoupledUpTo, Balanced, Publish, Flush, Hand, AfterFree, PopLocalJob, Begin, Drop, Others, CoreInv, Held;
    hide IsReq, Spares, Yield, Finish, Release, IsCoro, Succ, Push, Gained;
    var w, s', m := c.worker, Move(p, s, c), s.ws[c.worker];
    var pc, n, f := m.pc, m.pc.node, Finish(p, s.core, m.pc.node);
    MineAlone(p, s, w);
    InvCore(p, s);
    DoneTally(p, f, m.cur, pc);
    assert n in PcTally(pc).hands;
    DoneFacts(p, s.core, n);
    DoneSpares(p, s.core, n, Others(s.ws, w));
    DonePcOk(p, f, m.cur, pc);
    ReleaseBalance(p, f, One(pc.job), n, s.sched, s.runnables, Unit(pc.req));
    DoneMoves(p, s, c, f);
    PcStep(p, s, NOTHING, w, if SlotOf(f, m.cur).preds == 1 then m.cur else 0, DonePc(f, m.cur, pc), s', NOTHING);
  }

  lemma DoneMoves(p: Plan, s: Sched, c: Choice, f: Core)
    requires Publishes(p, s, c) && f == Finish(p, s.core, s.ws[c.worker].pc.node) && f.jobs == s.core.jobs
    ensures var w, s', m := c.worker, Move(p, s, c), s.ws[c.worker];
            && s'.core == Release(p, f, m.pc.node) && s'.sched == s.sched && s'.runnables == s.runnables
            && s'.ws == s.ws[w := m.(cur := if SlotOf(f, m.cur).preds == 1 then m.cur
              else 0, pc := DonePc(f, m.cur, m.pc))]
  {
    hide Publish, Flush, Hand, AfterFree, PopLocalJob, Begin, Drop, Yield, Finish, Release, IsCoro, Succ, Push;
  }

  lemma FinishBooks(l: Tally, q: Tally, job: Id, n: Id, r: int, forked: multiset<Id>)
    ensures Balanced(l, Plus(q, Tally(One(job), multiset{n}, 1, r)), NOTHING,
                     Tally(l.tokens + forked, l.hands, l.sched, l.runnables),
                     Plus(Tally(q.tokens + forked, q.hands, q.sched, q.runnables),
                       Tally(One(job), multiset{n}, 1, r)), NOTHING)
  {
  }

  lemma ForkQueues(p: Plan, c: Core, f: Core, m: Maestro, heads: seq<Id>)
    requires QueuesOk(f, m) && forall h :: h in heads ==> Held(f, h, IsReq(f, h))
    ensures var more := m.(temp := m.temp + heads);
            && QueuesOk(f, more)
            && QueueTally(more) == Tally(QueueTally(m).tokens + multiset(heads),
              QueueTally(m).hands, QueueTally(m).sched, QueueTally(m).runnables)
  {
    hide Held;
    assert multiset(m.temp + heads) == multiset(m.temp) + multiset(heads);
  }

  predicate Completes(p: Plan, s: Sched, c: Choice) {
    c.worker < |s.ws| && s.ws[c.worker].pc.Running? && !Suspends(p, s, c) && !Publishes(p, s, c)
  }

  // A leaf ends, or a fork makes its two jobs due by way of the temp queue.
  lemma CompleteStep(p: Plan, s: Sched, c: Choice)
    requires Inv(p, s) && Completes(p, s, c)
    ensures Inv(p, Move(p, s, c))
  {
    hide CoupledUpTo, Balanced, Publish, Flush, Hand, AfterFree, PopLocalJob, Begin, Drop, CoreInv, Held, IsReq;
    hide Spares, Yield, Finish, Release, IsCoro, Succ, Push, QueuesOk, QueueTally, Executing, HoldOk, Forks, Rest;
    var w, s', m := c.worker, Move(p, s, c), s.ws[c.worker];
    var pc, heads := m.pc, Forks(p, m.pc.node);
    var n := pc.node;
    MineAlone(p, s, w);
    MaestroIs(p, s, w);
    InvCore(p, s);
    assert n in PcTally(pc).hands;
    var f := Finish(p, s.core, n);
    FinishFacts(p, s.core, n, Others(s.ws, w));
    FinishKeeps(p, s.core, n);
    SparesFewer(s.core, f, Rest(s.ws, w), QueueTally(m));
    QueuesSpared(p, s.core, f, m, QueueTally(m));
    ForkQueues(p, s.core, f, m, heads);
    var next := Closing(pc.job, n, pc.req, true);
    var more := m.(temp := m.temp + heads);
    QueuesDoNotRead(f, more, more.(pc := next));
    CompletedPc(p, s.core, m.cur, pc);
    FinishBooks(Ledger(s), QueueTally(m), pc.job, n, Unit(pc.req), multiset(heads));
    assert s'.ws == s.ws[w := more.(pc := next)];
    FinishHands(p, s.core, n);
    assert PcTally(next) == Tally(One(pc.job), multiset{n}, 1, Unit(pc.req));
    assert Ledger(s') == Tally(multiset(s.core.tokens) + multiset(heads), multiset(s.core.hands), s.sched, s.runnables);
    LocalStep(p, s, NOTHING, w, more.(pc := next), s', NOTHING);
  }

  lemma FinishHands(p: Plan, c: Core, n: Id)
    ensures Finish(p, c, n).hands == c.hands
  {
  }

  lemma CompletedPc(p: Plan, c: Core, cur: Id, pc: Pc)
    requires pc.Running? && PcOk(p, c, cur, pc)
    ensures PcOk(p, Finish(p, c, pc.node), cur, Closing(pc.job, pc.node, pc.req, true))
  {
    hide Succ, Forks;
  }

  // What a worker does when no lock keeps it waiting keeps the books.
  lemma MoveKeepsInv(p: Plan, s: Sched, c: Choice)
    requires Inv(p, s)
    ensures Inv(p, Move(p, s, c))
  {
    hide Inv, EndBody, Publish, Post, Flush, Hand, AfterFree, PopLocalJob, Begin, Drop;
    if c.worker < |s.ws| {
      match s.ws[c.worker].pc
      case Top(_, _) => TopStep(p, s, c);
      case Seek => SeekStep(p, s, c);
      case Steal => StealStep(p, s, c);
      case Left =>
      case Take(_, _) => TakeStep(p, s, c);
      case Running(_, _, _) =>
        if Suspends(p, s, c) {
          YieldStep(p, s, c);
        } else if Publishes(p, s, c) {
          DoneStep(p, s, c);
        } else {
          CompleteStep(p, s, c);
        }
      case Publishing(_, _, _, _, _) => PublishingStep(p, s, c);
      case Posting(_, _, _, _) => PostingStep(p, s, c);
      case Closing(_, _, _, _) => ClosingStep(p, s, c);
      case Flushing(_, _, _, _) => FlushingStep(p, s, c);
      case Releasing(_, _, _) => ReleasingStep(p, s, c);
      case Handing(_, _, _, _) => HandingStep(p, s, c);
      case Settling(_, _, _) => SettlingStep(p, s, c);
      case Dropping(_, _) => DroppingStep(p, s, c);
    }
  }

  // Every step of every worker keeps the books, whatever the scheduler chooses.
  lemma StepKeepsInv(p: Plan, s: Sched, c: Choice)
    requires Inv(p, s)
    ensures Inv(p, Step(p, s, c))
  {
    hide Inv, Move, Waits;
    MoveKeepsInv(p, s, c);
  }

  // A job that is published, or handed on, joins the queue of the worker its placement names, or of worker 0 if it
  // names none that exists: the required queue if it is required, else the run queue.
  lemma QueuedWherePlaced(p: Plan, s: Sched, c: Choice)
    requires c.worker < |s.ws| && !Waits(p, s, c)
    requires var pc := s.ws[c.worker].pc;
             (pc.Publishing? || (pc.Handing? && !pc.inline)) && pc.stage == Counted && pc.next in s.core.jobs
    ensures var s', next := Step(p, s, c), s.ws[c.worker].pc.next;
            var placement := s.core.jobs[next].placement;
            var t := if placement.Any? || placement.worker >= |s.ws| then 0 else placement.worker;
            && |s'.ws| == |s.ws|
            && (forall u :: 0 <= u < |s.ws| ==>
                  && s'.ws[u].run == s.ws[u].run + (if u == t && !placement.Require? then [next] else [])
                  && s'.ws[u].required == s.ws[u].required + if u == t && placement.Require? then [next] else [])
  {
  }

  // A thief takes the last job of the run queue it robs, and leaves the rest; or it goes on looking.
  lemma StealTakesLast(p: Plan, s: Sched, c: Choice)
    requires c.worker < |s.ws| && s.ws[c.worker].pc == Steal && !Waits(p, s, c)
    ensures var w, v, s' := c.worker, c.victim, Step(p, s, c);
            if v < |s.ws| && v != w && s.ws[v].run != [] then
              var run := s.ws[v].run;
              s' == s.(ws := s.ws[v := s.ws[v].(run := run[..|run| - 1])]
                             [w := s.ws[w].(pc := Top(run[|run| - 1], false))])
            else s' == s.(ws := s.ws[w := s.ws[w].(pc := Top(0, false))])
  {
  }

  // A successor that becomes due stays with the worker that released it, unless it requires another one.
  lemma KeptUnlessRequired(p: Plan, s: Sched, c: Choice)
    requires c.worker < |s.ws| && s.ws[c.worker].pc.Releasing? && s.ws[c.worker].cur in s.core.jobs
    requires s.ws[c.worker].cur != 0 && s.core.jobs[s.ws[c.worker].cur].preds == 1
    ensures var w, next := c.worker, s.ws[c.worker].cur;
            var placement, s' := s.core.jobs[next].placement, Step(p, s, c);
            && |s'.ws| == |s.ws| && s'.ws[w].pc.Handing? && s'.ws[w].pc.next == next && s'.ws[w].pc.stage == Decided
            && (s'.ws[w].pc.inline <==> !placement.Require? || placement.worker == w)
  {
    hide Release;
  }
}
