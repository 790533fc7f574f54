// The job table and who owes what, apart from the workers that move jobs around.

module HeistCore {
  import opened Prelude
  import opened HeistPlacement
  import opened HeistPlan

  // One row of the job tables. `node` is the plan node the job stands for; a suspended coroutine goes on under another
  // job id.
  datatype Slot = Slot(node: Id, succ: Id, preds: nat, placement: ChorePlacement, work: bool)

  const EMPTY_SLOT := Slot(0, 0, 0, Any, false)

  // carrier: for each node that has not released its successor, the queued job that will (or None: a worker has it).
  // tokens: the jobs that are due or in execution; every other live job waits.
  datatype Core = Core(
    jobs: map<Id, Slot>,
    carrier: map<Id, Option<Id>>,
    tokens: set<Id>,
    hands: set<Id>,
    started: set<Id>,
    done: set<Id>,
    runs: map<Id, nat>)

  function SlotOf(c: Core, id: Id): Slot {
    if id in c.jobs then c.jobs[id] else EMPTY_SLOT
  }

  // The nodes that still hold b as successor.
  function Holders(p: Plan, c: Core, b: Id): set<Id> {
    set n | n in c.carrier && Succ(p, n) == b
  }

  predicate Waiting(c: Core, b: Id) {
    b in c.jobs && c.jobs[b].node == b && c.jobs[b].work && b !in c.tokens
  }

  // Nothing n waits for is outstanding.
  predicate Due(p: Plan, c: Core, n: Id) {
    && (forall m :: m in Ids(p) && Succ(p, m) == n ==> m !in c.carrier)
    && (forall f :: f in Ids(p) && n in Forks(p, f) ==> f in c.done)
  }

  predicate TokenOk(p: Plan, c: Core, id: Id) {
    id != 0 && id in c.jobs && c.jobs[id].preds == 0 && c.jobs[id].node in Ids(p) && Due(p, c, c.jobs[id].node)
  }

  predicate SlotOk(p: Plan, c: Core, id: Id)
    requires id in c.jobs
  {
    var s := c.jobs[id];
    && id != 0
    && (if s.work then s.node in c.carrier && c.carrier[s.node] == Some(id)
      && s.succ == Succ(p, s.node) && s.node !in c.done
        else id in c.tokens)
    && s.placement == PlacementOf(p, s.node)
    && (s.work && !IsCoro(p, s.node) ==> s.node !in c.started)
  }

  predicate CarrierOk(p: Plan, c: Core, n: Id)
    requires n in c.carrier
  {
    && n in Ids(p)
    && (c.carrier[n] == None <==> n in c.hands)
    && (c.carrier[n].Some? ==> var id := c.carrier[n].value; id in c.jobs && c.jobs[id].work && c.jobs[id].node == n)
    && (Succ(p, n) != 0 ==> Waiting(c, Succ(p, n)))
  }

  // A job that is not due yet waits for a predecessor or for its fork.
  predicate WaitsForSomething(p: Plan, c: Core, id: Id) {
    && Waiting(c, id)
    && (Holders(p, c, id) != {} || exists f :: f in Ids(p) && id in Forks(p, f) && f !in c.done)
  }

  predicate NodeOk(p: Plan, c: Core, n: Id) {
    && (n in c.carrier || n in c.done)
    && n in c.runs && (c.runs[n] == 0 <==> n !in c.started)
    && (!IsCoro(p, n) ==> c.runs[n] <= 1)
    && (n !in c.done ==> forall h :: h in Forks(p, n) ==> Waiting(c, h))
  }

  // The table: what is due is due for a reason, and every unreleased node has exactly one carrier.
  predicate TableInv(p: Plan, c: Core) {
    && (forall id :: id in c.tokens ==> TokenOk(p, c, id))
    && (forall id :: id in c.jobs ==> SlotOk(p, c, id))
    && (forall n :: n in c.carrier ==> CarrierOk(p, c, n))
    && c.hands <= c.carrier.Keys
  }

  // The plan: predecessor counts are exact, nothing started early, nothing waits for nothing.
  predicate PlanInv(p: Plan, c: Core) {
    && (forall n :: n in Ids(p) ==> NodeOk(p, c, n))
    && c.done <= c.started && c.started <= Ids(p)
    && (forall n :: n in c.started ==> Due(p, c, n))
    && (forall id :: id in c.jobs ==> c.jobs[id].preds == |Holders(p, c, id)|)
    && (forall id :: id in c.jobs && id !in c.tokens ==> WaitsForSomething(p, c, id))
  }

  predicate CoreInv(p: Plan, c: Core) {
    Distinct(p) && TableInv(p, c) && PlanInv(p, c)
  }

  // Begin: a due job's work is taken; its hold passes into the worker's hands.
  function Begin(c: Core, id: Id): Core
    requires id in c.jobs && c.jobs[id].node in c.runs
  {
    var n := c.jobs[id].node;
    c.(jobs := c.jobs[id := c.jobs[id].(work := false)],
       carrier := c.carrier[n := None],
       hands := c.hands + {n},
       started := c.started + {n},
       runs := c.runs[n := c.runs[n] + 1])
  }

  // Finish: the body is over; a fork makes its two jobs due.
  function Finish(p: Plan, c: Core, n: Id): Core {
    c.(done := c.done + {n}, tokens := c.tokens + set h | h in Forks(p, n))
  }

  // Yield: the continuation gets a job of its own and takes over the hold.
  function Yield(p: Plan, c: Core, n: Id, next: Id): Core {
    c.(jobs := c.jobs[next := Slot(n, Succ(p, n), 0, PlacementOf(p, n), true)],
       carrier := c.carrier[n := Some(next)],
       hands := c.hands - {n},
       tokens := c.tokens + {next})
  }

  // Release: one predecessor less for the successor, which becomes due when it was the last.
  function Release(p: Plan, c: Core, n: Id): Core {
    var b := Succ(p, n);
    var c1 := c.(carrier := c.carrier - {n}, hands := c.hands - {n});
    if b == 0 || b !in c.jobs then c1
    else
      var preds := if c.jobs[b].preds == 0 then 0 else c.jobs[b].preds - 1;
      c1.(jobs := c.jobs[b := c.jobs[b].(preds := preds)],
          tokens := if preds == 0 then c.tokens + {b} else c.tokens)
  }

  // Drop: the table row of an executed job is reset and its id is free again.
  function Drop(c: Core, id: Id): Core {
    c.(jobs := c.jobs - {id}, tokens := c.tokens - {id})
  }

  // Carriers only go and completions only come, so what is due stays due.
  predicate Later(c: Core, b: Core) {
    b.carrier.Keys <= c.carrier.Keys && c.done <= b.done
  }

  lemma DueStays(p: Plan, c: Core, b: Core, n: Id)
    requires Due(p, c, n) && Later(c, b)
    ensures Due(p, b, n)
  {
    hide Succ, Forks, Ids;
  }

  lemma TokenStays(p: Plan, c: Core, b: Core, id: Id)
    requires TokenOk(p, c, id) && Later(c, b)
    requires id in b.jobs && b.jobs[id].node == c.jobs[id].node && b.jobs[id].preds == 0
    ensures TokenOk(p, b, id)
  {
    hide Due, Ids;
    DueStays(p, c, b, c.jobs[id].node);
  }

  lemma HoldersStay(p: Plan, c: Core, b: Core, id: Id)
    requires b.carrier.Keys == c.carrier.Keys
    ensures Holders(p, b, id) == Holders(p, c, id)
  {
    hide Succ;
  }

  lemma WaitsOn(p: Plan, c: Core, b: Core, id: Id)
    requires WaitsForSomething(p, c, id) && b.carrier.Keys == c.carrier.Keys && b.done == c.done
    requires id in b.jobs && b.jobs[id].node == id && b.jobs[id].work && id !in b.tokens
    ensures WaitsForSomething(p, b, id)
  {
    hide Succ, Forks, Ids;
    HoldersStay(p, c, b, id);
  }

  lemma BeginSlot(p: Plan, c: Core, id: Id, i: Id)
    requires id in c.tokens && id in c.jobs && c.jobs[id].work && c.jobs[id].node in c.runs && SlotOk(p, c, id)
    requires i in c.jobs && SlotOk(p, c, i)
    ensures SlotOk(p, Begin(c, id), i)
  {
    hide Succ, IsCoro, PlacementOf;
  }

  lemma BeginCarrier(p: Plan, c: Core, id: Id, m: Id)
    requires id in c.tokens && id in c.jobs && c.jobs[id].work && c.jobs[id].node in c.runs && SlotOk(p, c, id)
    requires m in c.carrier && CarrierOk(p, c, m)
    ensures CarrierOk(p, Begin(c, id), m)
  {
    hide Succ, Ids;
  }

  lemma BeginNode(p: Plan, c: Core, id: Id, m: Id)
    requires id in c.tokens && id in c.jobs && c.jobs[id].work && c.jobs[id].node in c.runs && SlotOk(p, c, id)
    requires NodeOk(p, c, m)
    ensures NodeOk(p, Begin(c, id), m)
  {
    hide Succ, Forks, IsCoro;
  }

  lemma BeginKeeps(p: Plan, c: Core, id: Id)
    requires CoreInv(p, c) && id in c.tokens && c.jobs[id].work
    ensures c.jobs[id].node in Ids(p) && c.jobs[id].node in c.runs && CoreInv(p, Begin(c, id))
  {
    hide Distinct, Due, Ids, SlotOk, CarrierOk, Holders, WaitsForSomething;
    var n := c.jobs[id].node;
    assert TokenOk(p, c, id) && SlotOk(p, c, id) && NodeOk(p, c, n);
    SlotCarrier(p, c, id);
    var b := Begin(c, id);
    BeginKeepsRest(p, c, id);
    forall i | i in b.jobs
      ensures SlotOk(p, b, i)
    {
      BeginSlot(p, c, id, i);
    }
    forall m | m in b.carrier
      ensures CarrierOk(p, b, m)
    {
      BeginCarrier(p, c, id, m);
    }
  }

  lemma SlotCarrier(p: Plan, c: Core, id: Id)
    requires id in c.jobs && SlotOk(p, c, id) && c.jobs[id].work
    ensures c.jobs[id].node in c.carrier && c.carrier[c.jobs[id].node] == Some(id)
  {
  }

  lemma BeginKeepsRest(p: Plan, c: Core, id: Id)
    requires CoreInv(p, c) && id in c.tokens && c.jobs[id].work && c.jobs[id].node in Ids(p)
    requires c.jobs[id].node in c.runs
    requires c.jobs[id].node in c.carrier
    ensures forall i :: i in Begin(c, id).tokens ==> TokenOk(p, Begin(c, id), i)
    ensures PlanInv(p, Begin(c, id))
  {
    hide Distinct, Due, Ids, SlotOk, CarrierOk, Holders, WaitsForSomething, NodeOk;
    var b := Begin(c, id);
    assert SlotOk(p, c, id) && TokenOk(p, c, id);
    forall i | i in b.tokens
      ensures TokenOk(p, b, i)
    {
      TokenStays(p, c, b, i);
    }
    forall m | m in Ids(p)
      ensures NodeOk(p, b, m)
    {
      BeginNode(p, c, id, m);
    }
    forall i | i in b.jobs
      ensures b.jobs[i].preds == |Holders(p, b, i)|
    {
      HoldersStay(p, c, b, i);
    }
    forall m | m in b.started
      ensures Due(p, b, m)
    {
      DueStays(p, c, b, m);
    }
    forall i | i in b.jobs && i !in b.tokens
      ensures WaitsForSomething(p, b, i)
    {
      assert Waiting(c, i) by {
        WaitingOf(p, c, i);
      }
      WaitsOn(p, c, b, i);
    }
  }

  lemma WaitingOf(p: Plan, c: Core, i: Id)
    requires WaitsForSomething(p, c, i)
    ensures Waiting(c, i)
  {
  }

  // A node whose body is about to end, yield or be released.
  predicate InHand(c: Core, n: Id) {
    n in c.hands && n in c.carrier && c.carrier[n] == None && n in c.started
  }

  lemma HandIsHeld(p: Plan, c: Core, n: Id)
    requires CoreInv(p, c) && n in c.hands && n in c.started
    ensures InHand(c, n) && n in Ids(p) && CarrierOk(p, c, n) && NodeOk(p, c, n)
  {
    hide SlotOk, TokenOk, WaitsForSomething, Distinct, Due;
    assert CarrierOk(p, c, n);
  }

  // A forked job is due as soon as its fork has run.
  lemma ForkedIsDue(p: Plan, c: Core, f: Id, h: Id)
    requires Distinct(p) && PlanInv(p, c) && f in Ids(p) && f !in c.done && h in Forks(p, f)
    ensures TokenOk(p, Finish(p, c, f), h)
  {
    hide Succ, Forks, Ids, Distinct, WaitsForSomething;
    assert NodeOk(p, c, f) && Waiting(c, h);
    ForksStay(p, f);
    PlanIds(p);
    forall m
      ensures Succ(p, m) != h && (h in Forks(p, m) ==> m == f)
    {
      ForkedOnce(p, f, h, m);
    }
    assert Holders(p, c, h) == {};
  }

  lemma FinishSlot(p: Plan, c: Core, n: Id, i: Id)
    requires InHand(c, n) && i in c.jobs && SlotOk(p, c, i)
    ensures SlotOk(p, Finish(p, c, n), i)
  {
    hide Succ, IsCoro, PlacementOf, Forks;
  }

  lemma FinishCarrier(p: Plan, c: Core, n: Id, m: Id)
    requires Distinct(p) && m in c.carrier && CarrierOk(p, c, m)
    ensures CarrierOk(p, Finish(p, c, n), m)
  {
    hide Succ, Forks, Distinct, Ids;
    if Succ(p, m) in Forks(p, n) {
      ForkedOnce(p, n, Succ(p, m), m);
    }
  }

  lemma FinishNode(p: Plan, c: Core, n: Id, m: Id)
    requires Distinct(p) && NodeOk(p, c, m)
    ensures NodeOk(p, Finish(p, c, n), m)
  {
    hide Succ, Forks, Distinct, Ids, IsCoro;
    forall h | h in Forks(p, m) && m != n
      ensures h !in Forks(p, n)
    {
      ForkedOnce(p, m, h, n);
    }
  }

  lemma FinishWaits(p: Plan, c: Core, n: Id, i: Id)
    requires WaitsForSomething(p, c, i) && i !in Finish(p, c, n).tokens
    ensures WaitsForSomething(p, Finish(p, c, n), i)
  {
    hide Succ, Forks, Ids;
    HoldersStay(p, c, Finish(p, c, n), i);
  }

  lemma FinishKeeps(p: Plan, c: Core, n: Id)
    requires CoreInv(p, c) && n in c.hands && n in c.started && n !in c.done
    ensures CoreInv(p, Finish(p, c, n))
  {
    hide Distinct, Due, Ids, SlotOk, CarrierOk, Holders, WaitsForSomething, NodeOk, TokenOk;
    HandIsHeld(p, c, n);
    var b := Finish(p, c, n);
    forall i | i in b.tokens
      ensures TokenOk(p, b, i)
    {
      if i in c.tokens {
        FinishToken(p, c, n, i);
      } else {
        ForkedIsDue(p, c, n, i);
      }
    }
    forall i | i in b.jobs
      ensures SlotOk(p, b, i) && b.jobs[i].preds == |Holders(p, b, i)|
    {
      FinishSlot(p, c, n, i);
      HoldersStay(p, c, b, i);
    }
    forall m | m in b.carrier
      ensures CarrierOk(p, b, m)
    {
      FinishCarrier(p, c, n, m);
    }
    forall m | m in Ids(p)
      ensures NodeOk(p, b, m)
    {
      FinishNode(p, c, n, m);
    }
    forall m | m in b.started
      ensures Due(p, b, m)
    {
      DueStays(p, c, b, m);
    }
    forall i | i in b.jobs && i !in b.tokens
      ensures WaitsForSomething(p, b, i)
    {
      FinishWaits(p, c, n, i);
    }
  }

  lemma FinishToken(p: Plan, c: Core, n: Id, i: Id)
    requires TokenOk(p, c, i)
    ensures TokenOk(p, Finish(p, c, n), i)
  {
    TokenStays(p, c, Finish(p, c, n), i);
  }

  lemma YieldSlot(p: Plan, c: Core, n: Id, next: Id, i: Id)
    requires InHand(c, n) && n !in c.done && IsCoro(p, n) && next !in c.jobs && next != 0
    requires i in c.jobs ==> SlotOk(p, c, i)
    requires i in c.jobs || i == next
    ensures SlotOk(p, Yield(p, c, n, next), i)
  {
    hide Succ, IsCoro, PlacementOf;
  }

  lemma YieldCarrier(p: Plan, c: Core, n: Id, next: Id, m: Id)
    requires InHand(c, n) && next !in c.jobs && m in c.carrier && CarrierOk(p, c, m)
    ensures CarrierOk(p, Yield(p, c, n, next), m)
  {
    hide Succ, Ids, PlacementOf;
  }

  lemma YieldNode(p: Plan, c: Core, n: Id, next: Id, m: Id)
    requires InHand(c, n) && next !in c.jobs && NodeOk(p, c, m)
    ensures NodeOk(p, Yield(p, c, n, next), m)
  {
    hide Succ, Forks, IsCoro, PlacementOf;
  }

  lemma YieldWaits(p: Plan, c: Core, n: Id, next: Id, i: Id)
    requires InHand(c, n) && next !in c.jobs && WaitsForSomething(p, c, i)
    ensures WaitsForSomething(p, Yield(p, c, n, next), i)
  {
    hide Succ, Forks, Ids, PlacementOf;
    HoldersStay(p, c, Yield(p, c, n, next), i);
  }

  // Nobody waits for a job that does not exist yet.
  lemma NewJobHasNoHolders(p: Plan, c: Core, next: Id)
    requires TableInv(p, c) && next !in c.jobs && next != 0
    ensures Holders(p, c, next) == {}
  {
    hide Succ, SlotOk, TokenOk, Ids;
    forall m | m in c.carrier
      ensures Succ(p, m) != next
    {
      assert CarrierOk(p, c, m);
    }
  }

  lemma YieldKeeps(p: Plan, c: Core, n: Id, next: Id)
    requires CoreInv(p, c) && n in c.hands && n in c.started && n !in c.done && IsCoro(p, n)
    requires next != 0 && next !in c.jobs
    ensures CoreInv(p, Yield(p, c, n, next))
  {
    hide Distinct, Due, Ids, SlotOk, CarrierOk, Holders, WaitsForSomething, NodeOk, TokenOk, IsCoro;
    HandIsHeld(p, c, n);
    NewJobHasNoHolders(p, c, next);
    var b := Yield(p, c, n, next);
    forall i | i in b.tokens
      ensures TokenOk(p, b, i)
    {
      YieldToken(p, c, n, next, i);
    }
    forall i | i in b.jobs
      ensures SlotOk(p, b, i) && b.jobs[i].preds == |Holders(p, b, i)|
    {
      YieldSlot(p, c, n, next, i);
      HoldersStay(p, c, b, i);
    }
    forall m | m in b.carrier
      ensures CarrierOk(p, b, m)
    {
      YieldCarrier(p, c, n, next, m);
    }
    forall m | m in Ids(p)
      ensures NodeOk(p, b, m)
    {
      YieldNode(p, c, n, next, m);
    }
    forall m | m in b.started
      ensures Due(p, b, m)
    {
      DueStays(p, c, b, m);
    }
    forall i | i in b.jobs && i !in b.tokens
      ensures WaitsForSomething(p, b, i)
    {
      YieldWaits(p, c, n, next, i);
    }
  }

  lemma YieldToken(p: Plan, c: Core, n: Id, next: Id, i: Id)
    requires InHand(c, n) && n in Ids(p) && next != 0 && next !in c.jobs && Due(p, c, n)
    requires i == next || TokenOk(p, c, i)
    ensures TokenOk(p, Yield(p, c, n, next), i)
  {
    hide Due, Ids, Succ, PlacementOf;
    var b := Yield(p, c, n, next);
    if i == next {
      DueStays(p, c, b, n);
    } else {
      TokenStays(p, c, b, i);
    }
  }

  // Releasing removes exactly one holder, of the successor alone.
  lemma ReleaseHolders(p: Plan, c: Core, n: Id, i: Id)
    requires n in c.carrier
    ensures Holders(p, Release(p, c, n), i) == Holders(p, c, i) - (if i == Succ(p, n) then {n} else {})
    ensures |Holders(p, Release(p, c, n), i)| == |Holders(p, c, i)| - (if i == Succ(p, n) then 1 else 0)
  {
    hide Succ;
    assert Holders(p, Release(p, c, n), i) == Holders(p, c, i) - (if i == Succ(p, n) then {n} else {});
    assert i == Succ(p, n) ==> n in Holders(p, c, i);
  }

  // The last predecessor to let go makes its successor due.
  lemma LastReleaseMakesDue(p: Plan, c: Core, n: Id)
    requires Distinct(p) && n in c.carrier && n in Ids(p) && Succ(p, n) != 0 && Succ(p, n) in c.jobs
    requires c.jobs[Succ(p, n)].node == Succ(p, n) && c.jobs[Succ(p, n)].preds == 1 == |Holders(p, c, Succ(p, n))|
    ensures TokenOk(p, Release(p, c, n), Succ(p, n))
  {
    hide Succ, Forks, Ids, Distinct;
    var b, s := Release(p, c, n), Succ(p, n);
    SuccStays(p, n);
    ReleaseHolders(p, c, n, s);
    forall m | m in Ids(p) && Succ(p, m) == s
      ensures m !in b.carrier
    {
      assert m in b.carrier ==> m in Holders(p, b, s);
    }
    forall f
      ensures s !in Forks(p, f)
    {
      if s in Forks(p, f) {
        ForkedOnce(p, f, s, n);
      }
    }
  }

  lemma ReleaseSlot(p: Plan, c: Core, n: Id, i: Id)
    requires InHand(c, n) && i in c.jobs && SlotOk(p, c, i)
    ensures i in Release(p, c, n).jobs && SlotOk(p, Release(p, c, n), i)
  {
    hide Succ, IsCoro, PlacementOf;
  }

  lemma ReleaseCount(p: Plan, c: Core, n: Id, i: Id)
    requires InHand(c, n) && CarrierOk(p, c, n) && i != 0 && i in c.jobs && c.jobs[i].preds == |Holders(p, c, i)|
    ensures Release(p, c, n).jobs[i].preds == |Holders(p, Release(p, c, n), i)|
  {
    hide Succ, Holders, Ids;
    ReleaseHolders(p, c, n, i);
  }

  lemma ReleaseCarrier(p: Plan, c: Core, n: Id, m: Id)
    requires InHand(c, n) && CarrierOk(p, c, n) && m in c.carrier && m != n && CarrierOk(p, c, m)
    requires Succ(p, n) != 0 ==> c.jobs[Succ(p, n)].preds == |Holders(p, c, Succ(p, n))|
    ensures CarrierOk(p, Release(p, c, n), m)
  {
    hide Succ, Ids;
    var b, s := Release(p, c, n), Succ(p, n);
    if s != 0 && Succ(p, m) == s {
      ReleaseCount(p, c, n, s);
      assert m in Holders(p, b, s);
    }
  }

  lemma ReleaseNode(p: Plan, c: Core, n: Id, m: Id)
    requires Distinct(p) && InHand(c, n) && n in c.done && NodeOk(p, c, m)
    ensures NodeOk(p, Release(p, c, n), m)
  {
    hide Succ, Forks, Distinct, IsCoro;
    if Succ(p, n) in Forks(p, m) {
      ForkedOnce(p, m, Succ(p, n), n);
    }
  }

  lemma ReleaseWaits(p: Plan, c: Core, n: Id, i: Id)
    requires InHand(c, n) && CarrierOk(p, c, n) && WaitsForSomething(p, c, i) && i !in Release(p, c, n).tokens && i != 0
    requires c.jobs[i].preds == |Holders(p, c, i)|
    ensures WaitsForSomething(p, Release(p, c, n), i)
  {
    hide Succ, Forks, Ids;
    ReleaseCount(p, c, n, i);
    ReleaseHolders(p, c, n, i);
  }

  lemma ReleaseToken(p: Plan, c: Core, n: Id, i: Id)
    requires Distinct(p) && InHand(c, n) && CarrierOk(p, c, n) && i in Release(p, c, n).tokens
    requires i in c.tokens ==> TokenOk(p, c, i)
    requires Succ(p, n) != 0 ==> c.jobs[Succ(p, n)].preds == |Holders(p, c, Succ(p, n))|
    ensures TokenOk(p, Release(p, c, n), i)
  {
    hide Succ, Ids, Distinct, Due;
    if i in c.tokens {
      TokenStays(p, c, Release(p, c, n), i);
    } else {
      assert n in Holders(p, c, Succ(p, n));
      LastReleaseMakesDue(p, c, n);
    }
  }

  lemma ReleaseKeeps(p: Plan, c: Core, n: Id)
    requires CoreInv(p, c) && n in c.hands && n in c.started && n in c.done
    ensures CoreInv(p, Release(p, c, n))
  {
    hide Distinct, Due, Ids, SlotOk, CarrierOk, Holders, WaitsForSomething, NodeOk, TokenOk, Succ;
    HandIsHeld(p, c, n);
    if Succ(p, n) != 0 {
      SuccessorWaits(p, c, n);
    }
    var b := Release(p, c, n);
    assert Later(c, b);
    forall i | i in b.tokens
      ensures TokenOk(p, b, i)
    {
      ReleaseToken(p, c, n, i);
    }
    forall i | i in b.jobs
      ensures SlotOk(p, b, i) && b.jobs[i].preds == |Holders(p, b, i)|
    {
      ReleaseSlot(p, c, n, i);
      SlotIsNamed(p, c, i);
      ReleaseCount(p, c, n, i);
    }
    forall m | m in b.carrier
      ensures CarrierOk(p, b, m)
    {
      ReleaseCarrier(p, c, n, m);
    }
    forall m | m in Ids(p)
      ensures NodeOk(p, b, m)
    {
      ReleaseNode(p, c, n, m);
    }
    forall m | m in b.started
      ensures Due(p, b, m)
    {
      DueStays(p, c, b, m);
    }
    forall i | i in b.jobs && i !in b.tokens
      ensures WaitsForSomething(p, b, i)
    {
      SlotIsNamed(p, c, i);
      ReleaseWaits(p, c, n, i);
    }
  }

  lemma SlotIsNamed(p: Plan, c: Core, i: Id)
    requires i in c.jobs && SlotOk(p, c, i)
    ensures i != 0
  {
  }

  lemma SuccessorWaits(p: Plan, c: Core, n: Id)
    requires n in c.carrier && CarrierOk(p, c, n) && Succ(p, n) != 0
    ensures Waiting(c, Succ(p, n))
  {
  }

  lemma DropSlot(p: Plan, c: Core, id: Id, i: Id)
    requires i in c.jobs && SlotOk(p, c, i) && i != id
    ensures SlotOk(p, Drop(c, id), i)
  {
    hide Succ, IsCoro, PlacementOf;
  }

  lemma DropCarrier(p: Plan, c: Core, id: Id, m: Id)
    requires id in c.tokens && id in c.jobs && !c.jobs[id].work && m in c.carrier && CarrierOk(p, c, m)
    ensures CarrierOk(p, Drop(c, id), m)
  {
    hide Succ, Ids;
  }

  lemma DropNode(p: Plan, c: Core, id: Id, m: Id)
    requires id in c.tokens && NodeOk(p, c, m)
    ensures NodeOk(p, Drop(c, id), m)
  {
    hide Succ, Forks, IsCoro;
  }

  lemma DropWaits(p: Plan, c: Core, id: Id, i: Id)
    requires WaitsForSomething(p, c, i) && id in c.tokens
    ensures WaitsForSomething(p, Drop(c, id), i)
  {
    hide Succ, Forks, Ids;
    WaitsOn(p, c, Drop(c, id), i);
  }

  lemma DropToken(p: Plan, c: Core, id: Id, i: Id)
    requires TokenOk(p, c, i) && i != id
    ensures TokenOk(p, Drop(c, id), i)
  {
    TokenStays(p, c, Drop(c, id), i);
  }

  lemma DropKeeps(p: Plan, c: Core, id: Id)
    requires CoreInv(p, c) && id in c.tokens && !c.jobs[id].work
    ensures CoreInv(p, Drop(c, id))
  {
    hide Distinct, Due, Ids, SlotOk, CarrierOk, Holders, WaitsForSomething, NodeOk;
    assert TokenOk(p, c, id);
    var b := Drop(c, id);
    forall i | i in b.tokens
      ensures TokenOk(p, b, i)
    {
      DropToken(p, c, id, i);
    }
    forall i | i in b.jobs
      ensures SlotOk(p, b, i) && b.jobs[i].preds == |Holders(p, b, i)|
    {
      DropSlot(p, c, id, i);
      HoldersStay(p, c, b, i);
    }
    forall m | m in b.carrier
      ensures CarrierOk(p, b, m)
    {
      DropCarrier(p, c, id, m);
    }
    forall m | m in Ids(p)
      ensures NodeOk(p, b, m)
    {
      DropNode(p, c, id, m);
    }
    forall m | m in b.started
      ensures Due(p, b, m)
    {
      DueStays(p, c, b, m);
    }
    forall i | i in b.jobs && i !in b.tokens
      ensures WaitsForSomething(p, b, i)
    {
      DropWaits(p, c, id, i);
    }
  }

  // The tables right after a plan has been posted and its head enqueued.
  function Posted(p: Plan): Core {
    Core(map id | id in Ids(p) :: Slot(id, Succ(p, id), |Predecessors(p, id)|, PlacementOf(p, id), true),
         map n | n in Ids(p) :: Some(n),
         {Head(p)}, {}, {}, {},
         map n | n in Ids(p) :: 0)
  }

  function Predecessors(p: Plan, id: Id): set<Id> {
    set n | n in Ids(p) && Succ(p, n) == id
  }

  lemma {:induction false} EveryNodeIsReached(p: Plan, b: Id)
    requires Distinct(p) && b in Ids(p) && b != Head(p)
    ensures Predecessors(p, b) != {} || exists f :: f in Ids(p) && b in Forks(p, f)
    decreases p, 0
  {
    match p
    case Job(_, _, _) =>
    case Then(l, r) =>
      PlanIds(l);
      PlanIds(r);
      if b == Head(r) {
        var t :| t in Tails(l);
        assert t in Predecessors(p, b);
      } else {
        ReachedBelow(p, if b in Ids(l) then l else r, b);
      }
    case Both(l, r, fork) =>
      PlanIds(l);
      PlanIds(r);
      if b == Head(l) || b == Head(r) {
        assert b in Forks(p, fork);
      } else {
        ReachedBelow(p, if b in Ids(l) then l else r, b);
      }
  }

  lemma {:induction false} ReachedBelow(p: Plan, q: Plan, b: Id)
    requires Distinct(p) && !p.Job? && (q == p.left || q == p.right) && b in Ids(q) && b != Head(q)
    ensures Predecessors(p, b) != {} || exists f :: f in Ids(p) && b in Forks(p, f)
    decreases q, 1
  {
    EveryNodeIsReached(q, b);
    PlanIds(q);
    if Predecessors(q, b) != {} {
      var n :| n in Predecessors(q, b);
      SuccBelow(p, q, n);
      assert n in Predecessors(p, b);
    } else {
      var f :| f in Ids(q) && b in Forks(q, f);
      ForksBelow(p, q, f);
      assert f in Ids(p) && b in Forks(p, f);
    }
  }

  lemma SuccBelow(p: Plan, q: Plan, n: Id)
    requires Distinct(p) && !p.Job? && (q == p.left || q == p.right) && n in Ids(q) && Succ(q, n) != 0
    ensures n in Ids(p) && Succ(p, n) == Succ(q, n)
  {
    SuccStays(q, n);
    PlanIds(p.left);
  }

  lemma ForksBelow(p: Plan, q: Plan, f: Id)
    requires Distinct(p) && !p.Job? && (q == p.left || q == p.right) && f in Ids(q)
    ensures f in Ids(p) && Forks(p, f) == Forks(q, f)
  {
  }

  lemma PostedSlot(p: Plan, id: Id)
    requires Distinct(p) && id in Ids(p)
    ensures SlotOk(p, Posted(p), id)
    ensures Posted(p).jobs[id].preds == |Holders(p, Posted(p), id)|
  {
    hide Succ, Forks, Ids, Distinct, IsCoro, PlacementOf;
    PlanIds(p);
    assert Holders(p, Posted(p), id) == Predecessors(p, id);
  }

  lemma HeadIsDue(p: Plan)
    requires Distinct(p)
    ensures TokenOk(p, Posted(p), Head(p))
  {
    hide Succ, Forks, Ids, Distinct, PlacementOf;
    PlanIds(p);
    forall m
      ensures Succ(p, m) != Head(p)
    {
      SuccStays(p, m);
    }
    forall f
      ensures Head(p) !in Forks(p, f)
    {
      ForksStay(p, f);
    }
    assert Predecessors(p, Head(p)) == {};
  }

  lemma PostedNode(p: Plan, n: Id)
    requires Distinct(p) && n in Ids(p)
    ensures NodeOk(p, Posted(p), n) && CarrierOk(p, Posted(p), n)
  {
    hide Succ, Forks, Ids, Distinct, IsCoro, PlacementOf;
    ForksStay(p, n);
    SuccStays(p, n);
  }

  lemma PostedWaits(p: Plan, id: Id)
    requires Distinct(p) && id in Ids(p) && id != Head(p)
    ensures WaitsForSomething(p, Posted(p), id)
  {
    hide Succ, Forks, Ids, Distinct, IsCoro, PlacementOf;
    EveryNodeIsReached(p, id);
    assert Holders(p, Posted(p), id) == Predecessors(p, id);
  }

  lemma PostedInv(p: Plan)
    requires Distinct(p)
    ensures CoreInv(p, Posted(p))
  {
    hide Succ, Forks, Ids, Distinct, SlotOk, CarrierOk, NodeOk, TokenOk, WaitsForSomething, Due, Holders, PlacementOf;
    hide Predecessors;
    var c := Posted(p);
    HeadIsDue(p);
    forall id | id in c.jobs
      ensures SlotOk(p, c, id) && c.jobs[id].preds == |Holders(p, c, id)|
    {
      PostedSlot(p, id);
    }
    forall n | n in Ids(p)
      ensures NodeOk(p, c, n) && CarrierOk(p, c, n)
    {
      PostedNode(p, n);
    }
    forall id | id in c.jobs && id !in c.tokens
      ensures WaitsForSomething(p, c, id)
    {
      PostedWaits(p, id);
    }
  }

  // A run that respects the tables respects the order of the plan.
  lemma CoreGivesOrder(p: Plan, c: Core)
    requires CoreInv(p, c)
    ensures Ordered(p, c.started, c.done)
  {
    hide Succ, Forks, Ids, SlotOk, CarrierOk, TokenOk, WaitsForSomething, Distinct, Ordered;
    forall n | n in c.started && n in Ids(p)
      ensures Allowed(p, n, c.done)
    {
      assert Due(p, c, n);
      assert forall m :: m in Ids(p) ==> NodeOk(p, c, m);
    }
    EdgesGiveOrder(p, c.started, c.done);
  }

  // When nothing is due and no worker holds anything, an unfinished node waits for an unfinished node.
  // Whatever still counts as due has been executed; only its row is not reset yet.
  predicate NothingDue(c: Core) {
    forall id :: id in c.tokens ==> id in c.jobs && !c.jobs[id].work
  }

  lemma RestBlocks(p: Plan, c: Core, b: Id)
    requires CoreInv(p, c) && NothingDue(c) && c.hands == {} && b in Ids(p) && b !in c.done
    ensures Blocked(p, b, c.done)
  {
    hide Succ, Forks, Ids, TokenOk, Distinct, IsCoro, PlacementOf, Due;
    assert NodeOk(p, c, b) && CarrierOk(p, c, b);
    var id := c.carrier[b].value;
    assert SlotOk(p, c, id) && WaitsForSomething(p, c, id);
    if m :| m in Holders(p, c, b) {
      assert CarrierOk(p, c, m) && SlotOk(p, c, c.carrier[m].value);
    }
  }

  lemma CoreAtRestIsComplete(p: Plan, c: Core)
    requires CoreInv(p, c) && NothingDue(c) && c.hands == {}
    ensures c.done == c.started == Ids(p)
  {
    hide NothingDue, Succ, Forks, Ids, TableInv, Distinct, Due, NodeOk, WaitsForSomething;
    PlanIds(p);
    forall b | b in Ids(p) && b !in c.done
      ensures Blocked(p, b, c.done)
    {
      RestBlocks(p, c, b);
    }
    forall m
      ensures Succ(p, m) != Head(p) && Head(p) !in Forks(p, m)
    {
      SuccStays(p, m);
      ForksStay(p, m);
    }
    assert AtRest(p, c.done);
    RestIsComplete(p, c.done);
  }
}
