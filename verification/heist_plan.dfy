// Chore trees, their placements, and the job graph a tree is compiled to.

module HeistPlacement {
  import opened Prelude

  datatype ChorePlacement = Any | Prefer(worker: nat) | Require(worker: nat) {
    predicate IsRequired() {
      Require?
    }

    predicate CanExecuteOn(w: nat) {
      Require? ==> worker == w
    }

    function TargetWorker(): Option<nat> {
      if Any? then None else Some(worker)
    }
  }

  const WORKER_LIMIT: nat := 0x4000

  // The low fourteen bits hold the worker, the high two the policy.
  function ToPacked(p: ChorePlacement): (packed: nat)
    ensures packed < 0x1_0000
  {
    match p
    case Any => 0
    case Prefer(w) => 0x4000 + w % WORKER_LIMIT
    case Require(w) => 0x8000 + w % WORKER_LIMIT
  }

  function FromPacked(packed: nat): ChorePlacement
    requires packed < 0x1_0000
  {
    if packed == 0 then Any
    else if packed / 0x8000 % 2 == 1 then Require(packed % WORKER_LIMIT)
    else if packed / 0x4000 % 2 == 1 then Prefer(packed % WORKER_LIMIT)
    else Any
  }

  // What the job table gives back after storing p.
  function Stored(p: ChorePlacement): ChorePlacement {
    match p
    case Any => Any
    case Prefer(w) => Prefer(w % WORKER_LIMIT)
    case Require(w) => Require(w % WORKER_LIMIT)
  }

  // Packing keeps the policy always, and the worker exactly when it fits in fourteen bits.
  lemma PackingRoundTrip(p: ChorePlacement)
    ensures FromPacked(ToPacked(p)) == Stored(p)
    ensures FromPacked(ToPacked(p)) == p <==> (p != Any ==> p.worker < WORKER_LIMIT)
  {
    if p != Any {
      var w := p.worker % WORKER_LIMIT;
      assert (0x8000 + w) / 0x8000 == 1 && (0x4000 + w) / 0x8000 == 0 && (0x4000 + w) / 0x4000 == 1;
    }
  }
}

module HeistPlan {
  import opened HeistPlacement

  // Job identifiers; 0 names no job.
  type Id = nat

  datatype ChoreNode =
    | Leaf(placement: ChorePlacement)
    | Coro(placement: ChorePlacement)
    | Seq(left: ChoreNode, right: ChoreNode)
    | Par(left: ChoreNode, right: ChoreNode)

  // A chore tree with the job that stands for each of its nodes; a parallel node gets a job that forks.
  datatype Plan =
    | Job(id: Id, placement: ChorePlacement, coro: bool)
    | Then(left: Plan, right: Plan)
    | Both(left: Plan, right: Plan, fork: Id)

  function Erase(p: Plan): ChoreNode {
    match p
    case Job(_, placement, coro) => if coro then Coro(placement) else Leaf(placement)
    case Then(l, r) => Seq(Erase(l), Erase(r))
    case Both(l, r, _) => Par(Erase(l), Erase(r))
  }

  function Ids(p: Plan): set<Id> {
    match p
    case Job(id, _, _) => {id}
    case Then(l, r) => Ids(l) + Ids(r)
    case Both(l, r, fork) => Ids(l) + Ids(r) + {fork}
  }

  function Leaves(p: Plan): set<Id> {
    match p
    case Job(id, _, _) => {id}
    case Then(l, r) => Leaves(l) + Leaves(r)
    case Both(l, r, _) => Leaves(l) + Leaves(r)
  }

  // Every node has its own job.
  predicate Distinct(p: Plan) {
    match p
    case Job(id, _, _) => id != 0
    case Then(l, r) => Distinct(l) && Distinct(r) && Ids(l) !! Ids(r)
    case Both(l, r, fork) =>
      Distinct(l) && Distinct(r) && Ids(l) !! Ids(r) && fork != 0 && fork !in Ids(l) && fork !in Ids(r)
  }

  function Head(p: Plan): Id {
    match p
    case Job(id, _, _) => id
    case Then(l, _) => Head(l)
    case Both(_, _, fork) => fork
  }

  function Tails(p: Plan): set<Id> {
    match p
    case Job(id, _, _) => {id}
    case Then(_, r) => Tails(r)
    case Both(l, r, _) => Tails(l) + Tails(r)
  }

  // The one successor of a job, 0 when it has none.
  function Succ(p: Plan, id: Id): Id {
    match p
    case Job(_, _, _) => 0
    case Then(l, r) => if id in Tails(l) then Head(r) else if id in Ids(l) then Succ(l, id) else Succ(r, id)
    case Both(l, r, _) => if id in Ids(l) then Succ(l, id) else Succ(r, id)
  }

  // The jobs a job forks, in the order it enqueues them.
  function Forks(p: Plan, id: Id): seq<Id> {
    match p
    case Job(_, _, _) => []
    case Then(l, r) => if id in Ids(l) then Forks(l, id) else Forks(r, id)
    case Both(l, r, fork) =>
      if id == fork then [Head(l), Head(r)] else if id in Ids(l) then Forks(l, id) else Forks(r, id)
  }

  predicate IsCoro(p: Plan, id: Id) {
    match p
    case Job(own, _, coro) => id == own && coro
    case Then(l, r) => if id in Ids(l) then IsCoro(l, id) else IsCoro(r, id)
    case Both(l, r, _) => if id in Ids(l) then IsCoro(l, id) else IsCoro(r, id)
  }

  // The placement the job table holds; a forking job may run anywhere.
  function PlacementOf(p: Plan, id: Id): ChorePlacement {
    match p
    case Job(own, placement, _) => if id == own then Stored(placement) else Any
    case Then(l, r) => if id in Ids(l) then PlacementOf(l, id) else PlacementOf(r, id)
    case Both(l, r, _) => if id in Ids(l) then PlacementOf(l, id) else PlacementOf(r, id)
  }

  lemma {:induction false} PlanIds(p: Plan)
    requires Distinct(p)
    ensures Head(p) in Ids(p) && Tails(p) <= Leaves(p) <= Ids(p) && Tails(p) != {} && 0 !in Ids(p)
  {
    match p
    case Job(_, _, _) =>
    case Then(l, r) =>
      PlanIds(l);
      PlanIds(r);
    case Both(l, r, _) =>
      PlanIds(l);
      PlanIds(r);
  }

  // A successor is never the head of the plan; tails and forks have none.
  lemma {:induction false} SuccStays(p: Plan, id: Id)
    requires Distinct(p)
    ensures Succ(p, id) != 0 ==> id in Ids(p) && Succ(p, id) in Ids(p) && Succ(p, id) != Head(p)
    ensures id in Tails(p) || Forks(p, id) != [] ==> Succ(p, id) == 0
  {
    match p
    case Job(_, _, _) =>
    case Then(l, r) =>
      PlanIds(l);
      PlanIds(r);
      SuccStays(l, id);
      SuccStays(r, id);
      ForksStay(l, id);
      ForksStay(r, id);
    case Both(l, r, _) =>
      PlanIds(l);
      PlanIds(r);
      SuccStays(l, id);
      SuccStays(r, id);
      ForksStay(l, id);
      ForksStay(r, id);
  }

  // Forked jobs are inside, distinct, not the head, and only leaves are tails or coroutines.
  lemma {:induction false} ForksStay(p: Plan, f: Id)
    requires Distinct(p)
    ensures forall h :: h in Forks(p, f) ==> h in Ids(p) && h != Head(p)
    ensures Forks(p, f) != [] ==> f in Ids(p) && f !in Leaves(p)
    ensures |Forks(p, f)| == 0 || (|Forks(p, f)| == 2 && Forks(p, f)[0] != Forks(p, f)[1])
  {
    match p
    case Job(_, _, _) =>
    case Then(l, r) =>
      PlanIds(l);
      PlanIds(r);
      ForksStay(l, f);
      ForksStay(r, f);
    case Both(l, r, _) =>
      PlanIds(l);
      PlanIds(r);
      ForksStay(l, f);
      ForksStay(r, f);
  }

  // A forked job is activated by its fork alone.
  lemma {:induction false} ForkedOnce(p: Plan, f: Id, h: Id, other: Id)
    requires Distinct(p) && h in Forks(p, f)
    ensures Succ(p, other) != h
    ensures h in Forks(p, other) ==> other == f
    decreases p, 1
  {
    match p
    case Job(_, _, _) =>
    case Then(l, r) => ForkedOnceIn(p, l, r, f, h, other);
    case Both(l, r, _) => ForkedOnceIn(p, l, r, f, h, other);
  }

  lemma {:induction false} ForkedOnceIn(p: Plan, l: Plan, r: Plan, f: Id, h: Id, other: Id)
    requires Distinct(p) && h in Forks(p, f)
    requires p == Then(l, r) || (p.Both? && p.left == l && p.right == r)
    ensures Succ(p, other) != h
    ensures h in Forks(p, other) ==> other == f
    decreases p, 0
  {
    PlanIds(l);
    PlanIds(r);
    SuccStays(l, other);
    SuccStays(r, other);
    ForksStay(l, f);
    ForksStay(r, f);
    ForksStay(l, other);
    ForksStay(r, other);
    if h in Forks(l, f) {
      ForkedOnce(l, f, h, other);
    }
    if h in Forks(r, f) {
      ForkedOnce(r, f, h, other);
    }
  }

  lemma {:induction false} CoroIsLeaf(p: Plan, id: Id)
    requires IsCoro(p, id)
    ensures id in Leaves(p)
  {
    match p
    case Job(_, _, _) =>
    case Then(l, r) => CoroIsLeaf(if id in Ids(l) then l else r, id);
    case Both(l, r, _) => CoroIsLeaf(if id in Ids(l) then l else r, id);
  }

  // The order a sequential node promises: all of its left side is over before any of its right side begins.
  predicate Ordered(p: Plan, started: set<Id>, done: set<Id>) {
    match p
    case Job(_, _, _) => true
    case Then(l, r) => Ordered(l, started, done) && Ordered(r, started, done) && (Ids(r) !! started || Ids(l) <= done)
    case Both(l, r, _) => Ordered(l, started, done) && Ordered(r, started, done)
  }

  // What the job graph enforces edge by edge: a job starts after its predecessors and after the job that forks it.
  predicate EdgeClosed(p: Plan, started: set<Id>, done: set<Id>) {
    forall n :: n in started && n in Ids(p) ==> Allowed(p, n, done)
  }

  predicate Allowed(p: Plan, n: Id, done: set<Id>) {
    && (forall m :: m in Ids(p) && Succ(p, m) == n ==> m in done)
    && (forall f :: f in Ids(p) && n in Forks(p, f) ==> f in done)
  }

  lemma AllowedBelow(p: Plan, q: Plan, n: Id, done: set<Id>)
    requires Distinct(p) && !p.Job? && (q == p.left || q == p.right) && n in Ids(q) && Allowed(p, n, done)
    ensures Allowed(q, n, done)
  {
    forall m | m in Ids(q) && Succ(q, m) == n
      ensures m in done
    {
      PlanIds(q);
      SuccStays(q, m);
      PlanIds(p.left);
      assert Succ(p, m) == n;
    }
    forall f | f in Ids(q) && n in Forks(q, f)
      ensures f in done
    {
      assert n in Forks(p, f);
    }
  }

  lemma ClosedBelow(p: Plan, started: set<Id>, done: set<Id>)
    requires Distinct(p) && !p.Job? && EdgeClosed(p, started, done)
    ensures EdgeClosed(p.left, started, done) && EdgeClosed(p.right, started, done)
  {
    forall n | n in started && n in Ids(p.left)
      ensures Allowed(p.left, n, done)
    {
      AllowedBelow(p, p.left, n, done);
    }
    forall n | n in started && n in Ids(p.right)
      ensures Allowed(p.right, n, done)
    {
      AllowedBelow(p, p.right, n, done);
    }
  }

  // Once every tail of an edge-closed plan is over, the whole plan is.
  lemma {:induction false} TailsCloseThePlan(p: Plan, started: set<Id>, done: set<Id>)
    requires Distinct(p) && done <= started && EdgeClosed(p, started, done) && Tails(p) <= done
    ensures Ids(p) <= done
  {
    match p
    case Job(_, _, _) =>
    case Then(l, r) =>
      ClosedBelow(p, started, done);
      PlanIds(l);
      PlanIds(r);
      TailsCloseThePlan(r, started, done);
      assert Allowed(p, Head(r), done);
      assert forall t :: t in Tails(l) ==> t in Ids(p) && Succ(p, t) == Head(r);
      TailsCloseThePlan(l, started, done);
    case Both(l, r, fork) =>
      ClosedBelow(p, started, done);
      PlanIds(l);
      TailsCloseThePlan(l, started, done);
      TailsCloseThePlan(r, started, done);
      assert Allowed(p, Head(l), done) && Head(l) in Forks(p, fork);
  }

  // Nothing of an edge-closed plan starts before its head.
  lemma {:induction false} HeadStartsFirst(p: Plan, started: set<Id>, done: set<Id>)
    requires Distinct(p) && done <= started && EdgeClosed(p, started, done)
    ensures Ids(p) !! started || Head(p) in started
  {
    match p
    case Job(_, _, _) =>
    case Then(l, r) =>
      ClosedBelow(p, started, done);
      HeadStartsFirst(l, started, done);
      HeadStartsFirst(r, started, done);
      RightWaitsForLeft(p, started, done);
      PlanIds(l);
    case Both(l, r, fork) =>
      ClosedBelow(p, started, done);
      PlanIds(l);
      PlanIds(r);
      HeadStartsFirst(l, started, done);
      HeadStartsFirst(r, started, done);
      assert Head(l) in Forks(p, fork) && Head(r) in Forks(p, fork);
      assert Head(l) in started ==> Allowed(p, Head(l), done);
      assert Head(r) in started ==> Allowed(p, Head(r), done);
  }

  lemma RightWaitsForLeft(p: Plan, started: set<Id>, done: set<Id>)
    requires Distinct(p) && p.Then? && done <= started && EdgeClosed(p, started, done)
    requires Ids(p.right) !! started || Head(p.right) in started
    ensures Ids(p.right) !! started || Ids(p.left) <= done
  {
    var l, r := p.left, p.right;
    PlanIds(l);
    PlanIds(r);
    ClosedBelow(p, started, done);
    if Head(r) in started {
      assert Allowed(p, Head(r), done);
      assert forall t :: t in Tails(l) ==> t in Ids(p) && Succ(p, t) == Head(r);
      TailsCloseThePlan(l, started, done);
    }
  }

  // Edges are enough: a run that respects every edge respects every sequential node.
  lemma {:induction false} EdgesGiveOrder(p: Plan, started: set<Id>, done: set<Id>)
    requires Distinct(p) && done <= started && EdgeClosed(p, started, done)
    ensures Ordered(p, started, done)
  {
    if !p.Job? {
      ClosedBelow(p, started, done);
      EdgesGiveOrder(p.left, started, done);
      EdgesGiveOrder(p.right, started, done);
      if p.Then? {
        HeadStartsFirst(p.right, started, done);
        RightWaitsForLeft(p, started, done);
      }
    }
  }

  // Nothing is left to wait for: the head is over, and whatever is not over waits for something that is not.
  predicate AtRest(p: Plan, done: set<Id>) {
    Head(p) in done && forall b :: b in Ids(p) && b != Head(p) && b !in done ==> Blocked(p, b, done)
  }

  predicate Blocked(p: Plan, b: Id, done: set<Id>) {
    || (exists m :: m in Ids(p) && Succ(p, m) == b && m !in done)
    || (exists f :: f in Ids(p) && b in Forks(p, f) && f !in done)
  }

  // Below the head of either side, only the same side can block.
  lemma BlockedBelow(p: Plan, q: Plan, b: Id, done: set<Id>)
    requires Distinct(p) && !p.Job? && (q == p.left || q == p.right)
    requires b in Ids(q) && b != Head(q) && Blocked(p, b, done)
    ensures Blocked(q, b, done)
  {
    PlanIds(p.left);
    PlanIds(p.right);
    if m :| m in Ids(p) && Succ(p, m) == b && m !in done {
      SuccStays(p.left, m);
      SuccStays(p.right, m);
      assert m in Ids(q) && Succ(q, m) == b;
    } else {
      var f :| f in Ids(p) && b in Forks(p, f) && f !in done;
      ForksStay(p.left, f);
      ForksStay(p.right, f);
      assert f in Ids(q) && b in Forks(q, f);
    }
  }

  lemma {:induction false} RestIsComplete(p: Plan, done: set<Id>)
    requires Distinct(p) && AtRest(p, done)
    ensures Ids(p) <= done
  {
    match p
    case Job(_, _, _) =>
    case Then(l, r) =>
      PlanIds(l);
      PlanIds(r);
      forall b | b in Ids(l) && b != Head(l) && b !in done
        ensures Blocked(l, b, done)
      {
        BlockedBelow(p, l, b, done);
      }
      RestIsComplete(l, done);
      HeadOfRightRests(p, done);
      forall b | b in Ids(r) && b != Head(r) && b !in done
        ensures Blocked(r, b, done)
      {
        BlockedBelow(p, r, b, done);
      }
      RestIsComplete(r, done);
    case Both(l, r, fork) =>
      PlanIds(l);
      PlanIds(r);
      HeadOfForkRests(p, l, done);
      HeadOfForkRests(p, r, done);
      forall b | b in Ids(l) && b != Head(l) && b !in done
        ensures Blocked(l, b, done)
      {
        BlockedBelow(p, l, b, done);
      }
      RestIsComplete(l, done);
      forall b | b in Ids(r) && b != Head(r) && b !in done
        ensures Blocked(r, b, done)
      {
        BlockedBelow(p, r, b, done);
      }
      RestIsComplete(r, done);
  }

  lemma HeadOfRightRests(p: Plan, done: set<Id>)
    requires Distinct(p) && p.Then? && AtRest(p, done) && Ids(p.left) <= done
    ensures Head(p.right) in done
  {
    var l, r := p.left, p.right;
    PlanIds(l);
    PlanIds(r);
    if Head(r) !in done {
      assert Blocked(p, Head(r), done);
      if m :| m in Ids(p) && Succ(p, m) == Head(r) && m !in done {
        SuccStays(r, m);
      } else {
        var f :| f in Ids(p) && Head(r) in Forks(p, f) && f !in done;
        ForksStay(l, f);
        ForksStay(r, f);
      }
    }
  }

  lemma HeadOfForkRests(p: Plan, q: Plan, done: set<Id>)
    requires Distinct(p) && p.Both? && (q == p.left || q == p.right) && AtRest(p, done)
    ensures Head(q) in done
  {
    var h := Head(q);
    PlanIds(p.left);
    PlanIds(p.right);
    assert h in Forks(p, p.fork);
    if h !in done {
      assert Blocked(p, h, done);
      if m :| m in Ids(p) && Succ(p, m) == h && m !in done {
        ForkedOnce(p, p.fork, h, m);
      } else {
        var f :| f in Ids(p) && h in Forks(p, f) && f !in done;
        ForkedOnce(p, p.fork, h, f);
      }
    }
  }
}
