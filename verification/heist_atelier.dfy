// The job tables in place: allocating, linking and posting jobs, and flushing them to the run queues.

module HeistAtelier {
  import opened HeistPlacement
  import opened HeistPlan
  import opened HeistCore
  import opened HeistLoop
  import opened HeistRuns

  const CAPACITY: nat := 65536
  const REFILL: nat := 64
  const CACHE_LIMIT: nat := 256

  // What a job does when a worker runs it.
  datatype Work = NoWork | Chore(coro: bool) | EnqueueArr(heads: seq<Id>)

  function WorkOf(p: Plan, id: Id): Work {
    if Forks(p, id) != [] then EnqueueArr(Forks(p, id)) else Chore(IsCoro(p, id))
  }

  function Jobs(node: ChoreNode): nat {
    match node
    case Leaf(_) => 1
    case Coro(_) => 1
    case Seq(l, r) => Jobs(l) + Jobs(r)
    case Par(l, r) => Jobs(l) + Jobs(r) + 1
  }

  function Flat(qs: seq<seq<Id>>): multiset<Id> {
    if qs == [] then multiset{} else Flat(qs[..|qs| - 1]) + multiset(qs[|qs| - 1])
  }

  lemma {:induction false} FlatUpdate(qs: seq<seq<Id>>, w: nat, q: seq<Id>)
    requires w < |qs|
    ensures Flat(qs[w := q]) + multiset(qs[w]) == Flat(qs) + multiset(q)
  {
    var last := |qs| - 1;
    if w == last {
      assert qs[w := q][..last] == qs[..last];
    } else {
      FlatUpdate(qs[..last], w, q);
      assert qs[w := q][..last] == qs[..last][w := q];
      Exchange(Flat(qs[..last]), Flat(qs[..last][w := q]), multiset(qs[last]), multiset(qs[w]), multiset(q));
    }
  }

  lemma Exchange(a: multiset<Id>, b: multiset<Id>, l: multiset<Id>, x: multiset<Id>, y: multiset<Id>)
    requires b + x == a + y
    ensures (b + l) + x == (a + l) + y
  {
    forall id
      ensures ((b + l) + x)[id] == ((a + l) + y)[id]
    {
      assert (b + x)[id] == b[id] + x[id] && (a + y)[id] == a[id] + y[id];
    }
  }

  function Pool(free: seq<Id>, caches: seq<seq<Id>>): multiset<Id> {
    multiset(free) + Flat(caches)
  }

  // Every id but 0 is live or in exactly one pool.
  ghost predicate PoolOk(pool: multiset<Id>, live: set<Id>) {
    && (forall id :: pool[id] <= 1)
    && (forall id :: id in pool ==> 0 < id < CAPACITY && id !in live)
    && (forall id :: id in live ==> 0 < id < CAPACITY)
    && (forall id :: 0 < id < CAPACITY ==> id in live || id in pool)
  }

  lemma TakePool(pool: multiset<Id>, rest: multiset<Id>, live: set<Id>, id: Id)
    requires PoolOk(pool, live) && pool == rest + multiset{id}
    ensures id != 0 && id !in live && PoolOk(rest, live + {id})
  {
    assert forall i :: pool[i] == rest[i] + multiset{id}[i];
    assert id in pool;
  }

  lemma GivePool(pool: multiset<Id>, more: multiset<Id>, live: set<Id>, id: Id)
    requires PoolOk(pool, live) && id in live && more == pool + multiset{id}
    ensures PoolOk(more, live - {id})
  {
    assert forall i :: more[i] == pool[i] + multiset{id}[i];
    assert id !in pool;
  }

  lemma LiveIsInRange(pool: multiset<Id>, live: set<Id>, id: Id)
    requires PoolOk(pool, live) && id in live
    ensures 0 < id < CAPACITY
  {
  }

  lemma CacheTake(free: seq<Id>, caches: seq<seq<Id>>, w: nat)
    requires w < |caches| && caches[w] != []
    ensures Pool(free, caches) == Pool(free, caches[w := PopLast(caches[w])]) + multiset{LastOf(caches[w])}
  {
    LastSplits(caches[w]);
    FlatUpdate(caches, w, PopLast(caches[w]));
    forall id
      ensures Pool(free, caches)[id] == (Pool(free, caches[w := PopLast(caches[w])]) + multiset{LastOf(caches[w])})[id]
    {
      var q := PopLast(caches[w]);
      assert (Flat(caches[w := q]) + multiset(caches[w]))[id] == (Flat(caches) + multiset(q))[id];
    }
  }

  lemma CacheMove(free: seq<Id>, caches: seq<seq<Id>>, w: nat)
    requires w < |caches| && free != []
    ensures Pool(PopLast(free), caches[w := caches[w] + [LastOf(free)]]) == Pool(free, caches)
  {
    var more := caches[w] + [LastOf(free)];
    LastSplits(free);
    assert PopLast(more) == caches[w];
    CacheTake(PopLast(free), caches[w := more], w);
    assert caches[w := more][w := caches[w]] == caches;
    forall id
      ensures Pool(PopLast(free), caches[w := more])[id] == Pool(free, caches)[id]
    {
      assert multiset(free)[id] == (multiset(PopLast(free)) + multiset{LastOf(free)})[id];
    }
  }

  lemma {:induction false} NoCaches(qs: seq<seq<Id>>)
    requires forall w :: 0 <= w < |qs| ==> qs[w] == []
    ensures Flat(qs) == multiset{}
  {
    if qs != [] {
      NoCaches(qs[..|qs| - 1]);
    }
  }

  // The most ids a cache can hold back after allocations: what it holds, or what a refill leaves in it.
  function Cap(q: seq<Id>): nat {
    if |q| < REFILL then REFILL - 1 else |q|
  }

  function Stocked(qs: seq<seq<Id>>): nat {
    if qs == [] then 0 else Stocked(qs[..|qs| - 1]) + Cap(qs[|qs| - 1])
  }

  lemma {:induction false} StockedUpdate(qs: seq<seq<Id>>, w: nat, q: seq<Id>)
    requires w < |qs|
    ensures Stocked(qs[w := q]) + Cap(qs[w]) == Stocked(qs) + Cap(q)
  {
    var last := |qs| - 1;
    if w == last {
      assert qs[w := q][..last] == qs[..last];
    } else {
      StockedUpdate(qs[..last], w, q);
      assert qs[w := q][..last] == qs[..last][w := q];
    }
  }

  lemma {:induction false} CachesAreStocked(qs: seq<seq<Id>>)
    ensures |Flat(qs)| <= Stocked(qs)
  {
    if qs != [] {
      CachesAreStocked(qs[..|qs| - 1]);
    }
  }

  // An empty cache holds back less than it may.
  lemma {:induction false} OthersAreStocked(qs: seq<seq<Id>>, w: nat)
    requires w < |qs| && qs[w] == []
    ensures |Flat(qs)| + REFILL - 1 <= Stocked(qs)
  {
    var front := qs[..|qs| - 1];
    if w == |front| {
      CachesAreStocked(front);
    } else {
      OthersAreStocked(front, w);
    }
  }

  lemma {:induction false} StockedByFew(qs: seq<seq<Id>>)
    requires forall w :: 0 <= w < |qs| ==> |qs[w]| < REFILL
    ensures Stocked(qs) == (REFILL - 1) * |qs|
  {
    if qs != [] {
      StockedByFew(qs[..|qs| - 1]);
    }
  }

  // A freed id goes to the worker's cache while that holds fewer than 256, and to the stash otherwise.
  predicate GivenBack(caches: seq<seq<Id>>, free: seq<Id>, caches': seq<seq<Id>>, free': seq<Id>, w: nat, id: Id)
    requires w < |caches|
  {
    if |caches[w]| < 256 then caches' == caches[w := caches[w] + [id]] && free' == free
    else caches' == caches && free' == free + [id]
  }

  // A worker takes the last id of its cache. When that is empty it is given the last 64 of the stash first, or what
  // there is.
  predicate TakenAt(caches: seq<seq<Id>>, free: seq<Id>, caches': seq<seq<Id>>, free': seq<Id>, w: nat, id: Id)
    requires w < |caches|
  {
    if caches[w] != [] then
      id == caches[w][|caches[w]| - 1] && caches' == caches[w := caches[w][..|caches[w]| - 1]] && free' == free
    else if free == [] then id == 0 && caches' == caches && free' == free
    else
      var rest := if |free| < 64 then 0 else |free| - 64;
      id == free[rest] && free' == free[..rest] && caches' == caches[w := Reversed(free[rest + 1..])]
  }

  function Reversed(q: seq<Id>): (r: seq<Id>)
    ensures |r| == |q|
  {
    seq(|q|, i requires 0 <= i < |q| => q[|q| - 1 - i])
  }

  lemma ReversedGrows(x: Id, q: seq<Id>)
    ensures Reversed([x] + q) == Reversed(q) + [x]
  {
  }

  lemma ReversedOneMore(free: seq<Id>, i: nat)
    requires i < |free|
    ensures Reversed(free[|free| - i - 1..]) == Reversed(free[|free| - i..]) + [free[|free| - i - 1]]
  {
    assert free[|free| - i - 1..] == [free[|free| - i - 1]] + free[|free| - i..];
    ReversedGrows(free[|free| - i - 1], free[|free| - i..]);
  }

  lemma ReversedLast(q: seq<Id>)
    ensures q != [] ==> LastOf(Reversed(q)) == q[0] && PopLast(Reversed(q)) == Reversed(q[1..])
  {
    if q != [] {
      assert q == [q[0]] + q[1..];
      ReversedGrows(q[0], q[1..]);
    }
  }

  lemma TakenFromCache(free: seq<Id>, caches: seq<seq<Id>>, w: nat)
    requires w < |caches| && caches[w] != []
    ensures var rest := caches[w := PopLast(caches[w])];
            |Pool(free, rest)| + 1 == |Pool(free, caches)| && Stocked(rest) <= Stocked(caches)
  {
    CacheTake(free, caches, w);
    StockedUpdate(caches, w, PopLast(caches[w]));
  }

  // When the stash is empty, a worker with an empty cache cannot post.
  lemma NoneSpare(caches: seq<seq<Id>>, w: nat)
    requires w < |caches| && caches[w] == []
    ensures |Pool([], caches)| + REFILL <= 1 + Stocked(caches)
  {
    OthersAreStocked(caches, w);
  }

  lemma FreshPool(stash: seq<Id>, caches: seq<seq<Id>>)
    requires forall w :: 0 <= w < |caches| ==> caches[w] == []
    ensures Pool(stash, caches) == multiset(stash) && |Pool(stash, caches)| == |stash|
    ensures Stocked(caches) == (REFILL - 1) * |caches|
  {
    NoCaches(caches);
    StockedByFew(caches);
  }

  // One row of the four job tables.
  datatype Row = Row(succ: Id, preds: nat, packed: nat, work: Work)

  const BLANK := Row(0, 0, 0, NoWork)

  function RowOf(p: Plan, id: Id): Row {
    Row(Succ(p, id), |Predecessors(p, id)|, ToPacked(RawPlacement(p, id)), WorkOf(p, id))
  }

  // The placement as written in the tree, before it is packed.
  function RawPlacement(p: Plan, id: Id): ChorePlacement {
    match p
    case Job(own, placement, _) => if id == own then placement else Any
    case Then(l, r) => if id in Ids(l) then RawPlacement(l, id) else RawPlacement(r, id)
    case Both(l, r, _) => if id in Ids(l) then RawPlacement(l, id) else RawPlacement(r, id)
  }

  // How the rows of a sequential plan differ from the rows of its two sides.
  lemma ThenRow(l: Plan, r: Plan, id: Id)
    requires Distinct(Then(l, r)) && id in Ids(l) + Ids(r)
    ensures RowOf(Then(l, r), id) ==
      if id in Tails(l) then RowOf(l, id).(succ := Head(r))
      else if id in Ids(l) then RowOf(l, id)
      else if id == Head(r) then RowOf(r, id).(preds := RowOf(r, id).preds + |Tails(l)|)
      else RowOf(r, id)
  {
    PlanIds(l);
    PlanIds(r);
    ThenPredecessors(l, r, id);
  }

  lemma ThenPredecessors(l: Plan, r: Plan, id: Id)
    requires Distinct(Then(l, r)) && id in Ids(l) + Ids(r)
    ensures |Predecessors(Then(l, r), id)| ==
      if id in Ids(l) then |Predecessors(l, id)|
      else if id == Head(r) then |Predecessors(r, id)| + |Tails(l)|
      else |Predecessors(r, id)|
  {
    PlanIds(l);
    PlanIds(r);
    var here := if id in Ids(l) then Predecessors(l, id) else if id == Head(r) then Tails(l) else Predecessors(r, id);
    forall n
      ensures n in Predecessors(Then(l, r), id) <==> n in here
      ensures id == Head(r) ==> n !in Predecessors(r, id)
    {
      SuccStays(l, n);
      SuccStays(r, n);
    }
    assert Predecessors(Then(l, r), id) == here;
    assert id == Head(r) ==> Predecessors(r, id) == {};
  }

  lemma BothRow(l: Plan, r: Plan, fork: Id, id: Id)
    requires Distinct(Both(l, r, fork)) && id in Ids(Both(l, r, fork))
    ensures RowOf(Both(l, r, fork), id) ==
      if id in Ids(l) then RowOf(l, id)
      else if id in Ids(r) then RowOf(r, id)
      else BLANK.(work := EnqueueArr([Head(l), Head(r)]))
  {
    var p := Both(l, r, fork);
    PlanIds(l);
    PlanIds(r);
    NotInside(r, fork);
    var here := if id in Ids(l) then Predecessors(l, id) else if id in Ids(r) then Predecessors(r, id) else {};
    forall n
      ensures n in Predecessors(p, id) <==> n in here
    {
      SuccStays(l, n);
      SuccStays(r, n);
    }
    assert Predecessors(p, id) == here;
  }

  lemma {:induction false} NotInside(p: Plan, id: Id)
    requires Distinct(p) && id !in Ids(p)
    ensures Succ(p, id) == 0 && RawPlacement(p, id) == Any
  {
    match p
    case Job(_, _, _) =>
    case Then(l, r) =>
      PlanIds(l);
      NotInside(r, id);
    case Both(l, r, _) => NotInside(r, id);
  }

  lemma OnceEach(tails: seq<Id>, ids: set<Id>)
    requires multiset(tails) == multiset(ids)
    ensures |tails| == |ids| && (forall t :: t in tails <==> t in ids)
    ensures forall i, j :: 0 <= i < j < |tails| ==> tails[i] != tails[j]
  {
    assert |multiset(tails)| == |tails| && |multiset(ids)| == |ids|;
    forall t
      ensures t in tails <==> t in ids
    {
      assert t in multiset(tails) <==> t in multiset(ids);
    }
    forall i, j | 0 <= i < j < |tails|
      ensures tails[i] != tails[j]
    {
      if tails[i] == tails[j] {
        TwiceCounts(tails, i, j);
      }
    }
  }

  lemma TwiceCounts(q: seq<Id>, i: nat, j: nat)
    requires i < j < |q| && q[i] == q[j]
    ensures multiset(q)[q[i]] >= 2
  {
    assert q == q[..j] + [q[j]] + q[j + 1..];
    assert multiset(q) == multiset(q[..j]) + multiset{q[j]} + multiset(q[j + 1..]);
    assert q[i] == q[..j][i];
  }

  // `plan` is `node` with fresh jobs, entered at `head` and left at `tails`.
  ghost predicate PostedAs(plan: Plan, node: ChoreNode, head: Id, tails: seq<Id>, before: set<Id>, after: set<Id>) {
    && Distinct(plan) && Erase(plan) == node && head == Head(plan) && multiset(tails) == multiset(Tails(plan))
    && Ids(plan) !! before && after == before + Ids(plan)
  }

  lemma SeqPosted(l: Plan, r: Plan, node: ChoreNode, head: Id, lTails: seq<Id>, next: Id, tails: seq<Id>,
                  before: set<Id>, mid: set<Id>, after: set<Id>)
    requires node.Seq? && PostedAs(l, node.left, head, lTails, before, mid)
    requires PostedAs(r, node.right, next, tails, mid, after)
    ensures PostedAs(Then(l, r), node, head, tails, before, after)
  {
  }

  lemma ParTails(l: Plan, r: Plan, lTails: seq<Id>, rTails: seq<Id>)
    requires Distinct(l) && Distinct(r) && Ids(l) !! Ids(r)
    requires multiset(lTails) == multiset(Tails(l)) && multiset(rTails) == multiset(Tails(r))
    ensures multiset(lTails) + multiset(rTails) == multiset(Tails(l) + Tails(r))
  {
    hide Distinct;
    PlanIds(l);
    PlanIds(r);
    Disjoin(Tails(l), Tails(r));
  }

  lemma Disjoin(a: set<Id>, b: set<Id>)
    requires a !! b
    ensures multiset(a + b) == multiset(a) + multiset(b)
  {
  }

  lemma ParPosted(l: Plan, r: Plan, node: ChoreNode, headL: Id, lTails: seq<Id>, headR: Id, rTails: seq<Id>, fork: Id,
                  tails: seq<Id>, before: set<Id>, mid: set<Id>, late: set<Id>, after: set<Id>)
    requires node.Par? && PostedAs(l, node.left, headL, lTails, before, mid)
    requires PostedAs(r, node.right, headR, rTails, mid, late)
    requires fork != 0 && fork !in late && after == late + {fork}
    requires multiset(tails) == multiset(lTails) + multiset(rTails)
    ensures PostedAs(Both(l, r, fork), node, fork, tails, before, after)
  {
    ParTails(l, r, lTails, rTails);
  }

  predicate HoldsIn(rows: seq<Row>, p: Plan) {
    |rows| == CAPACITY && forall id :: id in Ids(p) ==> id < CAPACITY && rows[id] == RowOf(p, id)
  }

  predicate SameBut(rows: seq<Row>, rows': seq<Row>, ids: set<Id>) {
    |rows| == |rows'| == CAPACITY && forall i :: 0 <= i < CAPACITY && i !in ids ==> rows'[i] == rows[i]
  }

  // Every tail names succ as its successor, and succ counts them.
  predicate Linked(rows: seq<Row>, rows': seq<Row>, tails: seq<Id>, succ: Id) {
    && |rows| == |rows'| == CAPACITY && succ < CAPACITY
    && (forall t :: t in tails ==> t < CAPACITY && rows'[t] == rows[t].(succ := succ))
    && rows'[succ] == rows[succ].(preds := rows[succ].preds + |tails|)
    && (forall i :: 0 <= i < CAPACITY && i !in tails && i != succ ==> rows'[i] == rows[i])
  }

  // A posted tree whose tails all precede succ; nothing else has changed.
  ghost predicate Hung(rows: seq<Row>, rows': seq<Row>, tree: Plan, succ: Id) {
    && |rows| == |rows'| == CAPACITY && succ < CAPACITY
    && (forall id :: id in Ids(tree) ==>
          id < CAPACITY
          && rows'[id] == if id in Tails(tree) then RowOf(tree, id).(succ := succ) else RowOf(tree, id))
    && rows'[succ] == rows[succ].(preds := rows[succ].preds + |Tails(tree)|)
    && (forall i :: 0 <= i < CAPACITY && i !in Ids(tree) && i != succ ==> rows'[i] == rows[i])
  }

  // A tree and the terminal job that follows it.
  function Closed(tree: Plan, terminal: Id): Plan {
    Then(tree, Job(terminal, Any, false))
  }

  lemma SeqRows(l: Plan, r: Plan, tails: seq<Id>, rows0: seq<Row>, rows1: seq<Row>, rows2: seq<Row>, rows3: seq<Row>)
    requires Distinct(Then(l, r)) && multiset(tails) == multiset(Tails(l))
    requires SameBut(rows0, rows1, Ids(l)) && HoldsIn(rows1, l) && SameBut(rows1, rows2, Ids(r)) && HoldsIn(rows2, r)
    requires Linked(rows2, rows3, tails, Head(r))
    ensures HoldsIn(rows3, Then(l, r)) && SameBut(rows0, rows3, Ids(Then(l, r)))
  {
    hide RowOf;
    TailsOnce(tails, l);
    forall id | id in Ids(Then(l, r))
      ensures id < CAPACITY && rows3[id] == RowOf(Then(l, r), id)
    {
      SeqRow(l, r, tails, rows1, rows2, rows3, id);
    }
    PlanIds(l);
    PlanIds(r);
    assert forall i :: 0 <= i < CAPACITY && i !in Ids(Then(l, r)) ==> i !in tails && i != Head(r);
  }

  lemma SeqRow(l: Plan, r: Plan, tails: seq<Id>, rows1: seq<Row>, rows2: seq<Row>, rows3: seq<Row>, id: Id)
    requires Distinct(Then(l, r)) && |tails| == |Tails(l)| && forall t :: t in tails <==> t in Tails(l)
    requires HoldsIn(rows1, l) && SameBut(rows1, rows2, Ids(r)) && HoldsIn(rows2, r)
    requires Linked(rows2, rows3, tails, Head(r)) && id in Ids(l) + Ids(r)
    ensures id < CAPACITY && rows3[id] == RowOf(Then(l, r), id)
  {
    hide RowOf;
    PlanIds(l);
    PlanIds(r);
    ThenRow(l, r, id);
  }

  lemma ParRows(l: Plan, r: Plan, fork: Id, rows0: seq<Row>, rows1: seq<Row>, rows2: seq<Row>, rows3: seq<Row>)
    requires Distinct(Both(l, r, fork)) && fork < CAPACITY
    requires SameBut(rows0, rows1, Ids(l)) && HoldsIn(rows1, l) && SameBut(rows1, rows2, Ids(r)) && HoldsIn(rows2, r)
    requires SameBut(rows2, rows3, {fork}) && rows3[fork] == BLANK.(work := EnqueueArr([Head(l), Head(r)]))
    ensures HoldsIn(rows3, Both(l, r, fork)) && SameBut(rows0, rows3, Ids(Both(l, r, fork)))
  {
    hide RowOf;
    forall id | id in Ids(Both(l, r, fork))
      ensures id < CAPACITY && rows3[id] == RowOf(Both(l, r, fork), id)
    {
      BothRow(l, r, fork, id);
    }
  }

  lemma LeafRows(id: Id, placement: ChorePlacement, coro: bool, rows: seq<Row>, rows': seq<Row>)
    requires 0 < id < CAPACITY && SameBut(rows, rows', {id})
    requires rows'[id] == BLANK.(packed := ToPacked(placement), work := Chore(coro))
    ensures HoldsIn(rows', Job(id, placement, coro))
  {
    assert Predecessors(Job(id, placement, coro), id) == {};
  }

  predicate ReqIn(rows: seq<Row>, id: Id) {
    id < |rows| && rows[id].packed < 0x1_0000 && FromPacked(rows[id].packed).IsRequired()
  }

  // Everything in the temp queue, last first, to the queue its placement asks for.
  function FlushAll(rows: seq<Row>, m: Maestro): Maestro
    decreases |m.temp|
  {
    if m.temp == [] then m
    else
      var id, rest := LastOf(m.temp), m.(temp := PopLast(m.temp));
      FlushAll(rows, if id == 0 then rest else Enqueue(rest, id, ReqIn(rows, id)))
  }

  // The jobs of one kind in a temp queue, last first.
  function Waiting(rows: seq<Row>, temp: seq<Id>, req: bool): seq<Id> {
    if temp == [] then []
    else
      var id := temp[|temp| - 1];
      (if id != 0 && ReqIn(rows, id) == req then [id] else []) + Waiting(rows, temp[..|temp| - 1], req)
  }

  // Flushing sends every job behind those that wait where its placement says, last first, and changes nothing else.
  lemma {:induction false} FlushSorts(rows: seq<Row>, m: Maestro)
    ensures FlushAll(rows, m) == m.(temp := [], run := m.run + Waiting(rows, m.temp, false),
                                    required := m.required + Waiting(rows, m.temp, true))
    decreases |m.temp|
  {
    hide ReqIn;
    if m.temp != [] {
      var id, rest := LastOf(m.temp), m.(temp := PopLast(m.temp));
      FlushSorts(rows, if id == 0 then rest else Enqueue(rest, id, ReqIn(rows, id)));
    }
  }

  // Worker w takes n turns in a row.
  function TurnsOf(p: Plan, s: Sched, w: nat, n: nat): Sched
    decreases n
  {
    if n == 0 then s else TurnsOf(p, Step(p, s, Choice(w, w, true, false, 0)), w, n - 1)
  }

  lemma FlushesOne(p: Plan, s: Sched, w: nat, rows: seq<Row>)
    requires w < |s.ws| && s.ws[w].pc.Flushing? && s.ws[w].pc.moving == 0 && s.ws[w].temp != []
    requires var id := LastOf(s.ws[w].temp); id != 0 && ReqIn(rows, id) == IsReq(s.core, id)
    ensures var m, c := s.ws[w], Choice(w, w, true, false, 0);
            var id, s2 := LastOf(m.temp), Step(p, Step(p, s, c), c);
            && s2.core == s.core && s2.sched == s.sched + 1
            && s2.ws == s.ws[w := Enqueue(m.(temp := PopLast(m.temp)), id, ReqIn(rows, id))]
  {
    hide ReqIn, IsReq;
  }

  // Flushing in the job tables is what the worker does in the runs, one counter and one queue operation at a time.
  lemma {:induction false} FlushesAsInRuns(p: Plan, s: Sched, w: nat, rows: seq<Row>) returns (n: nat)
    requires w < |s.ws| && s.ws[w].pc.Flushing? && s.ws[w].pc.moving == 0
    requires forall id :: id in s.ws[w].temp ==> id != 0 && ReqIn(rows, id) == IsReq(s.core, id)
    ensures var m, s' := s.ws[w], TurnsOf(p, s, w, n);
            && s'.core == s.core
            && s'.ws == s.ws[w := FlushAll(rows, m).(pc := Releasing(m.pc.node, m.pc.req, m.pc.holds))]
            && s'.sched == s.sched + |m.temp|
    decreases |s.ws[w].temp|
  {
    hide ReqIn, IsReq;
    var m, c := s.ws[w], Choice(w, w, true, false, 0);
    var s1 := Step(p, s, c);
    if m.temp == [] {
      n := 1;
      assert TurnsOf(p, s, w, 1) == TurnsOf(p, s1, w, 0);
    } else {
      LastSplits(m.temp);
      var s2 := Step(p, s1, c);
      FlushesOne(p, s, w, rows);
      var k := FlushesAsInRuns(p, s2, w, rows);
      n := k + 2;
      assert TurnsOf(p, s, w, n) == TurnsOf(p, s1, w, k + 1) == TurnsOf(p, s2, w, k);
    }
  }

  lemma HeadFlushes(p: Plan, rows: seq<Row>)
    requires Distinct(p) && HoldsIn(rows, p)
    ensures FlushAll(rows, Maestro([], [], [Head(p)], 0, Top(0, false)))
            == Enqueue(Maestro([], [], [], 0, Top(0, false)), Head(p), PlacementOf(p, Head(p)).IsRequired())
  {
    PlanIds(p);
    StoredPlacement(p, Head(p));
    assert PopLast([Head(p)]) == [];
  }

  lemma CacheGive(free: seq<Id>, caches: seq<seq<Id>>, w: nat, id: Id)
    requires w < |caches|
    ensures Pool(free, caches[w := caches[w] + [id]]) == Pool(free, caches) + multiset{id}
  {
    var more := caches[w] + [id];
    assert PopLast(more) == caches[w] && LastOf(more) == id;
    CacheTake(free, caches[w := more], w);
    assert caches[w := more][w := caches[w]] == caches;
  }

  lemma StashGive(free: seq<Id>, caches: seq<seq<Id>>, id: Id)
    ensures Pool(free + [id], caches) == Pool(free, caches) + multiset{id}
  {
    assert multiset(free + [id]) == multiset(free) + multiset{id};
    PoolSwap(multiset(free), multiset{id}, Flat(caches));
  }

  lemma PoolSwap(a: multiset<Id>, b: multiset<Id>, c: multiset<Id>)
    ensures (a + b) + c == (a + c) + b
  {
  }

  lemma TailsOnce(tails: seq<Id>, p: Plan)
    requires Distinct(p) && multiset(tails) == multiset(Tails(p))
    ensures |tails| == |Tails(p)| && (forall i :: 0 <= i < |tails| ==> tails[i] in Tails(p) && tails[i] in Ids(p))
    ensures (forall t :: t in tails <==> t in Tails(p)) && forall i, j :: 0 <= i < j < |tails| ==> tails[i] != tails[j]
  {
    PlanIds(p);
    OnceEach(tails, Tails(p));
  }

  // Jobs are stamped in the order in which a tree is posted: the left of a node before its right, a fork last.
  predicate InPostOrder(stamps: seq<nat>, p: Plan) {
    match p
    case Job(_, _, _) => true
    case Then(l, r) => InPostOrder(stamps, l) && InPostOrder(stamps, r) && Earlier(stamps, Ids(l), Ids(r))
    case Both(l, r, fork) =>
      InPostOrder(stamps, l) && InPostOrder(stamps, r) && Earlier(stamps, Ids(l), Ids(r))
      && Earlier(stamps, Ids(l) + Ids(r), {fork})
  }

  predicate Earlier(stamps: seq<nat>, before: set<Id>, after: set<Id>) {
    forall a, b :: a in before && b in after ==> a < |stamps| && b < |stamps| && stamps[a] < stamps[b]
  }

  // Only `ids` have got new stamps, drawn from `from` up to `to`.
  predicate Drawn(stamps: seq<nat>, stamps': seq<nat>, ids: set<Id>, from: nat, to: nat) {
    && |stamps| == |stamps'| == CAPACITY && from <= to
    && (forall id :: id in ids ==> id < CAPACITY && from <= stamps'[id] < to)
    && (forall i :: 0 <= i < CAPACITY && i !in ids ==> stamps'[i] == stamps[i])
  }

  // The jobs in use have different stamps, all of them given out.
  predicate StampsOk(stamps: seq<nat>, live: set<Id>, next: nat) {
    && |stamps| == CAPACITY && next > 0
    && (forall id :: id in live && id < CAPACITY ==> 0 < stamps[id] < next)
    && (forall a, b :: a in live && b in live && a < CAPACITY && b < CAPACITY && a != b ==> stamps[a] != stamps[b])
  }

  predicate SameOn(stamps: seq<nat>, stamps': seq<nat>, ids: set<Id>) {
    |stamps'| == |stamps| && forall id :: id in ids && id < |stamps| ==> stamps'[id] == stamps[id]
  }

  lemma EarlierStays(stamps: seq<nat>, stamps': seq<nat>, before: set<Id>, after: set<Id>)
    requires Earlier(stamps, before, after) && SameOn(stamps, stamps', before + after)
    ensures Earlier(stamps', before, after)
  {
  }

  lemma SameOnParts(stamps: seq<nat>, stamps': seq<nat>, a: set<Id>, b: set<Id>)
    requires SameOn(stamps, stamps', a + b)
    ensures SameOn(stamps, stamps', a) && SameOn(stamps, stamps', b)
  {
  }

  lemma {:induction false} OrderStays(stamps: seq<nat>, stamps': seq<nat>, p: Plan)
    requires InPostOrder(stamps, p) && SameOn(stamps, stamps', Ids(p))
    ensures InPostOrder(stamps', p)
  {
    hide Earlier, SameOn;
    match p
    case Job(_, _, _) =>
    case Then(l, r) =>
      SameOnParts(stamps, stamps', Ids(l), Ids(r));
      EarlierStays(stamps, stamps', Ids(l), Ids(r));
      OrderStays(stamps, stamps', l);
      OrderStays(stamps, stamps', r);
    case Both(l, r, fork) =>
      EarlierStays(stamps, stamps', Ids(l) + Ids(r), {fork});
      SameOnParts(stamps, stamps', Ids(l) + Ids(r), {fork});
      SameOnParts(stamps, stamps', Ids(l), Ids(r));
      EarlierStays(stamps, stamps', Ids(l), Ids(r));
      OrderStays(stamps, stamps', l);
      OrderStays(stamps, stamps', r);
  }

  lemma {:induction false} OrderSeparates(stamps: seq<nat>, p: Plan, a: Id, b: Id)
    requires InPostOrder(stamps, p) && a in Ids(p) && b in Ids(p) && a != b && a < |stamps| && b < |stamps|
    ensures stamps[a] != stamps[b]
  {
    match p
    case Job(_, _, _) =>
    case Then(l, r) =>
      if a in Ids(l) && b in Ids(l) { OrderSeparates(stamps, l, a, b); }
      if a in Ids(r) && b in Ids(r) { OrderSeparates(stamps, r, a, b); }
    case Both(l, r, _) =>
      if a in Ids(l) && b in Ids(l) { OrderSeparates(stamps, l, a, b); }
      if a in Ids(r) && b in Ids(r) { OrderSeparates(stamps, r, a, b); }
  }

  lemma DrawnTwice(s0: seq<nat>, s1: seq<nat>, s2: seq<nat>, a: set<Id>, b: set<Id>, n0: nat, n1: nat, n2: nat)
    requires Drawn(s0, s1, a, n0, n1) && Drawn(s1, s2, b, n1, n2) && a !! b
    ensures Drawn(s0, s2, a + b, n0, n2) && Earlier(s2, a, b)
    ensures SameOn(s1, s2, a)
  {
  }

  lemma DrawnOne(stamps: seq<nat>, id: Id, next: nat)
    requires |stamps| == CAPACITY && id < CAPACITY
    ensures Drawn(stamps, stamps[id := next], {id}, next, next + 1)
  {
  }

  // A sequence is stamped in order when its sides are.
  lemma SeqStamps(l: Plan, r: Plan, s0: seq<nat>, s1: seq<nat>, s2: seq<nat>, n0: nat, n1: nat, n2: nat)
    requires Drawn(s0, s1, Ids(l), n0, n1) && Drawn(s1, s2, Ids(r), n1, n2) && Ids(l) !! Ids(r)
    requires InPostOrder(s1, l) && InPostOrder(s2, r)
    ensures Drawn(s0, s2, Ids(Then(l, r)), n0, n2) && InPostOrder(s2, Then(l, r))
  {
    hide Earlier, Drawn;
    DrawnTwice(s0, s1, s2, Ids(l), Ids(r), n0, n1, n2);
    DrawnLength(s0, s1, Ids(l), n0, n1);
    DrawnLength(s1, s2, Ids(r), n1, n2);
    OrderStays(s1, s2, l);
  }

  lemma ParStamps(l: Plan, r: Plan, fork: Id, s0: seq<nat>, s1: seq<nat>, s2: seq<nat>, n0: nat, n1: nat, n2: nat)
    requires Drawn(s0, s1, Ids(l), n0, n1) && Drawn(s1, s2, Ids(r), n1, n2) && Ids(l) !! Ids(r)
    requires InPostOrder(s1, l) && InPostOrder(s2, r) && fork !in Ids(l) + Ids(r) && fork < CAPACITY
    ensures |s2| == CAPACITY
    ensures Drawn(s0, s2[fork := n2], Ids(Both(l, r, fork)), n0, n2 + 1)
    ensures InPostOrder(s2[fork := n2], Both(l, r, fork))
  {
    hide Earlier, Drawn;
    SeqStamps(l, r, s0, s1, s2, n0, n1, n2);
    DrawnLength(s1, s2, Ids(r), n1, n2);
    DrawnOne(s2, fork, n2);
    DrawnTwice(s0, s2, s2[fork := n2], Ids(l) + Ids(r), {fork}, n0, n2, n2 + 1);
    OrderStays(s2, s2[fork := n2], Then(l, r));
  }

  // The tables as a whole: rows, stamps, the next stamp, and the jobs in use.
  datatype Tables = Tables(rows: seq<Row>, stamps: seq<nat>, next: nat, live: set<Id>)

  // From t to t', `node` has been compiled into `plan`: fresh jobs, entered at `head` and left at `tails`, with the
  // plan's rows, stamped in order; all other rows and stamps are untouched.
  ghost predicate Compiled(plan: Plan, node: ChoreNode, head: Id, tails: seq<Id>, t: Tables, t': Tables) {
    && PostedAs(plan, node, head, tails, t.live, t'.live)
    && HoldsIn(t'.rows, plan) && SameBut(t.rows, t'.rows, Ids(plan))
    && InPostOrder(t'.stamps, plan) && Drawn(t.stamps, t'.stamps, Ids(plan), t.next, t'.next)
  }

  lemma CompiledIs(plan: Plan, node: ChoreNode, head: Id, tails: seq<Id>, t: Tables, t': Tables)
    requires Compiled(plan, node, head, tails, t, t')
    ensures PostedAs(plan, node, head, tails, t.live, t'.live)
    ensures HoldsIn(t'.rows, plan) && SameBut(t.rows, t'.rows, Ids(plan))
    ensures InPostOrder(t'.stamps, plan) && Drawn(t.stamps, t'.stamps, Ids(plan), t.next, t'.next)
    ensures head == Head(plan) && Distinct(plan)
  {
  }

  lemma SidesMayLink(l: Plan, r: Plan, node: ChoreNode, head: Id, lTails: seq<Id>, next: Id, tails: seq<Id>, t0: Tables,
                     t1: Tables, t2: Tables)
    requires node.Seq? && Compiled(l, node.left, head, lTails, t0, t1) && Compiled(r, node.right, next, tails, t1, t2)
    ensures next < CAPACITY && forall i :: 0 <= i < |lTails| ==> lTails[i] < CAPACITY && lTails[i] != next
    ensures forall i, j :: 0 <= i < j < |lTails| ==> lTails[i] != lTails[j]
  {
    hide PostedAs, HoldsIn, SameBut, InPostOrder, Drawn;
    CompiledIs(l, node.left, head, lTails, t0, t1);
    CompiledIs(r, node.right, next, tails, t1, t2);
    TailsMayLink(l, r, node, head, lTails, next, tails, t0.live, t1.live, t2.live, t1.rows, t2.rows);
  }

  // Both sides, and the tails of the left linked to the head of the right.
  lemma SequenceCompiles(l: Plan, r: Plan, node: ChoreNode, head: Id, lTails: seq<Id>, next: Id, tails: seq<Id>,
                         t0: Tables, t1: Tables, t2: Tables, t3: Tables)
    requires node.Seq? && Compiled(l, node.left, head, lTails, t0, t1) && Compiled(r, node.right, next, tails, t1, t2)
    requires t3 == t2.(rows := t3.rows) && Linked(t2.rows, t3.rows, lTails, next)
    ensures Compiled(Then(l, r), node, head, tails, t0, t3)
  {
    hide PostedAs, HoldsIn, SameBut, InPostOrder, Drawn, Linked;
    CompiledIs(l, node.left, head, lTails, t0, t1);
    CompiledIs(r, node.right, next, tails, t1, t2);
    TailsMayLink(l, r, node, head, lTails, next, tails, t0.live, t1.live, t2.live, t1.rows, t2.rows);
    SeqPosted(l, r, node, head, lTails, next, tails, t0.live, t1.live, t2.live);
    SidesAreApart(l, r);
    SeqStamps(l, r, t0.stamps, t1.stamps, t2.stamps, t0.next, t1.next, t2.next);
    SeqRows(l, r, lTails, t0.rows, t1.rows, t2.rows, t3.rows);
  }

  // Both sides and then the fork.
  lemma ForkCompiles(l: Plan, r: Plan, node: ChoreNode, headL: Id, lTails: seq<Id>, headR: Id, rTails: seq<Id>,
                     fork: Id, tails: seq<Id>, t0: Tables, t1: Tables, t2: Tables, t3: Tables)
    requires node.Par? && Compiled(l, node.left, headL, lTails, t0, t1)
    requires Compiled(r, node.right, headR, rTails, t1, t2)
    requires fork != 0 && fork !in t2.live && fork < CAPACITY && |t2.rows| == |t2.stamps| == CAPACITY
    requires t3 == Tables(t2.rows[fork := BLANK.(work := EnqueueArr([headL, headR]))], t2.stamps[fork := t2.next],
                          t2.next + 1, t2.live + {fork})
    requires multiset(tails) == multiset(lTails) + multiset(rTails)
    ensures Compiled(Both(l, r, fork), node, fork, tails, t0, t3)
  {
    hide PostedAs, HoldsIn, SameBut, InPostOrder, Drawn;
    CompiledIs(l, node.left, headL, lTails, t0, t1);
    CompiledIs(r, node.right, headR, rTails, t1, t2);
    ParPosted(l, r, node, headL, lTails, headR, rTails, fork, tails, t0.live, t1.live, t2.live, t3.live);
    ForkIsApart(l, r, fork, node, tails, t0.live, t3.live);
    OneRow(t2.rows, t3.rows, fork, BLANK.(work := EnqueueArr([headL, headR])));
    ParRows(l, r, fork, t0.rows, t1.rows, t2.rows, t3.rows);
    ParStamps(l, r, fork, t0.stamps, t1.stamps, t2.stamps, t0.next, t1.next, t2.next);
  }

  lemma DrawnLength(stamps: seq<nat>, stamps': seq<nat>, ids: set<Id>, from: nat, to: nat)
    requires Drawn(stamps, stamps', ids, from, to)
    ensures |stamps| == |stamps'| == CAPACITY
  {
  }

  // Stamps stay different when a plan is stamped in order.
  lemma PlanKeepsStamps(p: Plan, stamps: seq<nat>, stamps': seq<nat>, live: set<Id>, next: nat, next': nat)
    requires StampsOk(stamps, live, next) && Drawn(stamps, stamps', Ids(p), next, next') && InPostOrder(stamps', p)
    requires Ids(p) !! live
    ensures StampsOk(stamps', live + Ids(p), next') && Earlier(stamps', (set id | id in live && id < CAPACITY), Ids(p))
  {
    hide InPostOrder;
    forall a, b | a in live + Ids(p) && b in live + Ids(p) && a < CAPACITY && b < CAPACITY && a != b
      ensures stamps'[a] != stamps'[b]
    {
      if a in Ids(p) && b in Ids(p) {
        OrderSeparates(stamps', p, a, b);
      }
    }
  }

  // Jobs in use keep the stamps they have.
  predicate Restamped(stamps: seq<nat>, stamps': seq<nat>, live: set<Id>, next: nat, next': nat) {
    && |stamps| == |stamps'| && next <= next'
    && (forall i :: 0 <= i < |stamps| && stamps[i] != 0 ==> stamps'[i] == stamps[i])
    && (StampsOk(stamps, live, next) ==> StampsOk(stamps', live, next'))
  }

  lemma StampedAnew(stamps: seq<nat>, live: set<Id>, next: nat, id: Id)
    requires id < |stamps| == CAPACITY && stamps[id] == 0
    ensures Restamped(stamps, stamps[id := next], live, next, next + 1)
  {
  }

  lemma RestampedNot(stamps: seq<nat>, live: set<Id>, next: nat)
    ensures Restamped(stamps, stamps, live, next, next)
  {
  }

  lemma RestampedKeeps(stamps: seq<nat>, stamps': seq<nat>, live: set<Id>, next: nat, next': nat)
    requires Restamped(stamps, stamps', live, next, next')
    ensures StampsOk(stamps, live, next) ==> StampsOk(stamps', live, next')
  {
  }

  // A job that is given up loses its stamp; the others keep theirs.
  lemma FreedStamps(stamps: seq<nat>, stamps': seq<nat>, live: set<Id>, next: nat, next': nat, id: Id)
    requires id < |stamps| && Restamped(stamps[id := 0], stamps', live, next, next')
    ensures StampsOk(stamps, live, next) ==> StampsOk(stamps', live - {id}, next')
  {
  }

  lemma RestampedTwice(s0: seq<nat>, s1: seq<nat>, s2: seq<nat>, live: set<Id>, n0: nat, n1: nat, n2: nat)
    requires Restamped(s0, s1, live, n0, n1) && Restamped(s1, s2, live, n1, n2)
    ensures Restamped(s0, s2, live, n0, n2)
  {
    hide StampsOk;
  }

  // Row id gets a successor, which counts one predecessor more.
  function WithSucc(rows: seq<Row>, id: Id, succ: Id): seq<Row>
    requires id < |rows| && succ < |rows|
  {
    var linked := rows[id := rows[id].(succ := succ)];
    linked[succ := linked[succ].(preds := linked[succ].preds + 1)]
  }

  class AtelierState {
    const threads: nat
    const succIds: array<Id>
    const szPreds: array<nat>
    const placements: array<nat>
    const work: array<Work>
    const jobSeq: array<nat>
    var nextSeq: nat
    var terminal: Id
    var freeStash: seq<Id>
    var caches: seq<seq<Id>>
    var temps: seq<seq<Id>>
    var runs: seq<seq<Id>>
    var required: seq<seq<Id>>
    var curSucc: seq<Id>
    var schedJobs: int
    var schedRunnables: int
    ghost var live: set<Id>

    ghost predicate Valid()
      reads this
    {
      && succIds.Length == szPreds.Length == placements.Length == work.Length == jobSeq.Length == CAPACITY
      && succIds != placements && szPreds != placements && succIds != szPreds
      && jobSeq != succIds && jobSeq != szPreds && jobSeq != placements
      && threads > 0 && |caches| == |temps| == |runs| == |required| == |curSucc| == threads
      && PoolOk(Pool(freeStash, caches), live)
    }

    ghost function Now(): Tables
      requires succIds.Length == szPreds.Length == placements.Length == work.Length == jobSeq.Length == CAPACITY
      reads this, succIds, szPreds, placements, work, jobSeq
    {
      Tables(Rows(), jobSeq[..], nextSeq, live)
    }

    // Every job in use has a stamp of its own.
    ghost predicate Stamped()
      requires jobSeq.Length == CAPACITY
      reads this, jobSeq
    {
      StampsOk(jobSeq[..], live, nextSeq)
    }

    // Ids not in use.
    ghost function Spare(): nat
      reads this
    {
      |Pool(freeStash, caches)|
    }

    // There is an id for each of n jobs, on whichever worker's cache they draw: a worker can take every spare id but
    // those that the caches of the others hold back.
    ghost predicate CanPost(n: nat)
      reads this
    {
      Spare() + REFILL > n + Stocked(caches)
    }

    // The queues of all workers, before any of them has entered its loop.
    function Maestros(): (ms: seq<Maestro>)
      requires |temps| == |runs| == |required| == |curSucc| == threads
      reads this
    {
      seq(threads, w requires 0 <= w < threads && |temps| == |runs| == |required| == |curSucc| == threads reads this =>
        MaestroAt(w))
    }

    function MaestroAt(w: nat): Maestro
      requires w < threads && |temps| == |runs| == |required| == |curSucc| == threads
      reads this
    {
      Maestro(runs[w], required[w], temps[w], 0, Top(0, false))
    }

    // Nothing posted yet but the terminal job.
    ghost predicate Idle()
      requires Valid()
      reads this, succIds, szPreds, placements, work
    {
      && terminal != 0 && terminal in live && curSucc[0] == terminal && HoldsIn(Rows(), Job(terminal, Any, false))
      && schedJobs == schedRunnables == 0
      && (forall w :: 0 <= w < threads ==> temps[w] == [] && runs[w] == [] && required[w] == [])
    }

    ghost function RowAt(id: Id): Row
      requires id < succIds.Length == szPreds.Length == placements.Length == work.Length
      reads succIds, szPreds, placements, work
    {
      Row(succIds[id], szPreds[id], placements[id], work[id])
    }

    ghost function Rows(): (rows: seq<Row>)
      requires succIds.Length == szPreds.Length == placements.Length == work.Length == CAPACITY
      reads succIds, szPreds, placements, work
      ensures |rows| == CAPACITY && forall i :: 0 <= i < CAPACITY ==> rows[i] == RowAt(i)
    {
      seq(CAPACITY, i requires 0 <= i < CAPACITY
        && succIds.Length == szPreds.Length == placements.Length == work.Length == CAPACITY
                      reads succIds, szPreds, placements, work => RowAt(i))
    }

    constructor (count: nat)
      requires count > 0
      ensures Valid() && Idle() && threads == count && live == {terminal} && Stamped()
      ensures fresh(succIds) && fresh(szPreds) && fresh(placements) && fresh(work) && fresh(jobSeq)
      ensures Spare() == CAPACITY - 2 && Stocked(caches) <= (REFILL - 1) * count
    {
      threads := count;
      succIds, szPreds := new Id[CAPACITY](_ => 0), new nat[CAPACITY](_ => 0);
      placements, jobSeq := new nat[CAPACITY](_ => 0), new nat[CAPACITY](_ => 0);
      work := new Work[CAPACITY](_ => NoWork);
      caches, temps := seq(count, _ => []), seq(count, _ => []);
      runs, required := seq(count, _ => []), seq(count, _ => []);
      curSucc, freeStash, nextSeq, terminal := seq(count, _ => 0), [], 1, 0;
      schedJobs, schedRunnables, live := 0, 0, {};
      new;
      var stash := FullStash();
      FreshPool(stash, caches);
      freeStash := stash;
      hide PoolOk, Pool, Stocked;
      PostTerminal();
    }

    // AtelierState::New ends by making the terminal job the main worker's current successor.
    method PostTerminal()
      requires Valid() && live == {} && freeStash != [] && |freeStash| == CAPACITY - 1 && nextSeq == 1
      requires schedJobs == schedRunnables == 0
      requires forall w :: 0 <= w < threads ==> temps[w] == [] && runs[w] == [] && required[w] == []
      modifies this, succIds, szPreds, placements, work, jobSeq
      ensures Valid() && Idle() && live == {terminal} && Stamped()
      ensures Spare() + 1 == old(Spare()) && Stocked(caches) <= old(Stocked(caches))
    {
      hide PoolOk, Pool;
      ghost var rows := Rows();
      terminal := ConstructJob(0, 0, Chore(false));
      curSucc := curSucc[0 := terminal];
      OneRow(rows, Rows(), terminal, BLANK.(work := Chore(false)));
      LeafRows(terminal, Any, false, rows, Rows());
    }

    static method FullStash() returns (stash: seq<Id>)
      ensures |stash| == CAPACITY - 1 && PoolOk(multiset(stash), {})
    {
      stash := [];
      for i := 1 to CAPACITY
        invariant |stash| == i - 1 && forall id :: multiset(stash)[id] == if 0 < id < i then 1 else 0
      {
        assert multiset(stash + [i]) == multiset(stash) + multiset{i};
        stash := stash + [i];
      }
      assert forall id :: id in multiset(stash) <==> 0 < id < CAPACITY;
    }

    // Take an id from the worker's cache, refilling it from the shared stash when it is empty.
    method AllocJob(w: nat) returns (id: Id)
      requires Valid() && w < threads
      modifies `freeStash, `caches, `live
      ensures Valid()
      ensures id == 0 <==> old(caches)[w] == [] && old(freeStash) == []
      ensures id == 0 ==> live == old(live) && freeStash == old(freeStash) && caches == old(caches)
      ensures id != 0 ==> id !in old(live) && live == old(live) + {id}
      ensures id != 0 ==> Spare() + 1 == old(Spare()) && Stocked(caches) <= old(Stocked(caches))
      ensures old(CanPost(1)) ==> id != 0
      ensures TakenAt(old(caches), old(freeStash), caches, freeStash, w, id)
    {
      if caches[w] != [] {
        id := TakeFromCache(w);
        return;
      }
      if freeStash == [] {
        NoneSpare(caches, w);
        return 0;
      }
      ghost var stash := freeStash;
      Refill(w);
      ReversedLast(stash[|freeStash|..]);
      id := TakeFromCache(w);
    }

    method TakeFromCache(w: nat) returns (id: Id)
      requires Valid() && w < threads && caches[w] != []
      modifies `caches, `live
      ensures Valid()
      ensures id != 0 && id !in old(live) && live == old(live) + {id} && id == LastOf(old(caches)[w])
      ensures caches == old(caches)[w := PopLast(old(caches)[w])] && Spare() + 1 == old(Spare())
      ensures Stocked(caches) <= old(Stocked(caches))
    {
      hide PoolOk, Pool;
      TakenFromCache(freeStash, caches, w);
      id := LastOf(caches[w]);
      CacheTake(freeStash, caches, w);
      TakePool(Pool(freeStash, caches), Pool(freeStash, caches[w := PopLast(caches[w])]), live, id);
      caches := caches[w := PopLast(caches[w])];
      live := live + {id};
    }

    method Refill(w: nat)
      requires Valid() && w < threads && caches[w] == [] && freeStash != []
      modifies `freeStash, `caches
      ensures Valid() && caches[w] != [] && |caches| == |old(caches)|
      ensures var n := if |old(freeStash)| < 64 then |old(freeStash)| else 64;
              && freeStash == old(freeStash)[..|old(freeStash)| - n]
              && caches == old(caches)[w := Reversed(old(freeStash)[|old(freeStash)| - n..])]
      ensures Spare() == old(Spare()) && Stocked(caches[w := PopLast(caches[w])]) == old(Stocked(caches))
    {
      hide PoolOk, Pool;
      var count := if |freeStash| < REFILL then |freeStash| else REFILL;
      for i := 0 to count
        invariant Valid() && |caches[w]| == i && |freeStash| == |old(freeStash)| - i && Spare() == old(Spare())
        invariant caches == old(caches)[w := caches[w]]
        invariant freeStash == old(freeStash)[..|old(freeStash)| - i]
        invariant caches[w] == Reversed(old(freeStash)[|old(freeStash)| - i..])
      {
        ReversedOneMore(old(freeStash), i);
        CacheMove(freeStash, caches, w);
        var id := LastOf(freeStash);
        freeStash := PopLast(freeStash);
        caches := caches[w := caches[w] + [id]];
      }
      StockedUpdate(old(caches), w, PopLast(caches[w]));
      assert caches[w := PopLast(caches[w])] == old(caches)[w := PopLast(caches[w])];
    }

    method ResetJobSlot(id: Id)
      requires Valid() && id < CAPACITY
      modifies succIds, szPreds, placements, work, jobSeq
      ensures Rows() == old(Rows())[id := BLANK] && jobSeq[..] == old(jobSeq[..])[id := 0]
    {
      jobSeq[id] := 0;
      succIds[id] := 0;
      szPreds[id] := 0;
      placements[id] := 0;
      work[id] := NoWork;
    }

    method SetSucc(id: Id, succ: Id)
      requires Valid() && id < CAPACITY && succ < CAPACITY
      modifies succIds, szPreds
      ensures Rows() == WithSucc(old(Rows()), id, succ)
    {
      succIds[id] := succ;
      szPreds[succ] := szPreds[succ] + 1;
    }

    method PutWork(id: Id, job: Work)
      requires Valid() && id < CAPACITY
      modifies work
      ensures Rows() == old(Rows())[id := old(Rows())[id].(work := job)]
    {
      work[id] := job;
    }

    method SetJobPlacement(id: Id, placement: ChorePlacement)
      requires Valid() && id < CAPACITY
      modifies placements
      ensures Rows() == old(Rows())[id := old(Rows())[id].(packed := ToPacked(placement))]
    {
      placements[id] := ToPacked(placement);
    }

    method StampJobSeq(id: Id)
      requires Valid() && id < CAPACITY
      modifies `nextSeq, jobSeq
      ensures jobSeq[..] == old(jobSeq[..])[id := old(nextSeq)] && nextSeq == old(nextSeq) + 1
      ensures Rows() == old(Rows())
    {
      jobSeq[id] := nextSeq;
      nextSeq := nextSeq + 1;
    }

    // A job without successor; 0 when every id is in use.
    method ConstructJob(w: nat, succ: Id, job: Work) returns (id: Id)
      requires Valid() && w < threads && succ < CAPACITY
      modifies `freeStash, `caches, `live, `nextSeq, succIds, szPreds, placements, work, jobSeq
      ensures Valid() && (old(CanPost(1)) ==> id != 0)
      ensures TakenAt(old(caches), old(freeStash), caches, freeStash, w, id)
      ensures id != 0 ==> Spare() + 1 == old(Spare()) && Stocked(caches) <= old(Stocked(caches))
      ensures id == 0 <==> old(caches)[w] == [] && old(freeStash) == []
      ensures id == 0 ==> live == old(live) && Rows() == old(Rows())
      ensures id == 0 ==> jobSeq[..] == old(jobSeq[..]) && nextSeq == old(nextSeq)
      ensures id != 0 ==> id < CAPACITY && jobSeq[..] == old(jobSeq[..])[id := old(nextSeq)]
      ensures id != 0 ==> nextSeq == old(nextSeq) + 1
      ensures id != 0 ==> id !in old(live) && live == old(live) + {id} && id < CAPACITY
      ensures id != 0 ==>
        var rows := old(Rows())[id := BLANK.(work := job)];
          Rows() == if succ == 0 then rows else WithSucc(rows, id, succ)
    {
      hide PoolOk, Pool, WithSucc, TakenAt;
      ghost var rows := Rows();
      id := AllocJob(w);
      if id != 0 {
        LiveIsInRange(Pool(freeStash, caches), live, id);
        assert Rows() == rows;
        ResetJobSlot(id);
        StampJobSeq(id);
        assert Rows() == rows[id := BLANK];
        PutWork(id, job);
        assert Rows() == rows[id := BLANK.(work := job)];
        if succ != 0 {
          SetSucc(id, succ);
        }
      }
    }

    // Post a chore or coroutine: its job comes from the cache of the worker it is placed on.
    method PostLeaf(w: nat, placement: ChorePlacement, coro: bool) returns (id: Id)
      requires Valid() && w < threads && CanPost(1)
      modifies `freeStash, `caches, `live, `nextSeq, succIds, szPreds, placements, work, jobSeq
      ensures Valid() && Spare() + 1 == old(Spare()) && Stocked(caches) <= old(Stocked(caches))
      ensures id != 0 && id !in old(live) && live == old(live) + {id} && id < CAPACITY
      ensures var t := if placement.Any? then w else if placement.worker < threads then placement.worker else 0;
              TakenAt(old(caches), old(freeStash), caches, freeStash, t, id)
      ensures Rows() == old(Rows())[id := BLANK.(packed := ToPacked(placement), work := Chore(coro))]
      ensures jobSeq[..] == old(jobSeq[..])[id := old(nextSeq)] && nextSeq == old(nextSeq) + 1
    {
      id := ConstructJob(Target(placement, w, threads), 0, Chore(coro));
      SetJobPlacement(id, placement);
    }

    // Give every tail the same successor, last tail first.
    method LinkTails(tails: seq<Id>, succ: Id)
      requires Valid() && succ < CAPACITY && forall i :: 0 <= i < |tails| ==> tails[i] < CAPACITY && tails[i] != succ
      requires forall i, j :: 0 <= i < j < |tails| ==> tails[i] != tails[j]
      modifies succIds, szPreds
      ensures Linked(old(Rows()), Rows(), tails, succ)
    {
      ghost var rows := Rows();
      var rest := tails;
      while rest != []
        invariant |rest| <= |tails| && rest == tails[..|rest|]
        invariant forall i :: |rest| <= i < |tails| ==> Rows()[tails[i]] == rows[tails[i]].(succ := succ)
        invariant forall i :: 0 <= i < |rest| ==> Rows()[tails[i]] == rows[tails[i]]
        invariant Rows()[succ] == rows[succ].(preds := rows[succ].preds + |tails| - |rest|)
        invariant forall i :: 0 <= i < CAPACITY && i !in tails && i != succ ==> Rows()[i] == rows[i]
        decreases |rest|
      {
        var t := LastOf(rest);
        assert t == tails[|rest| - 1];
        rest := PopLast(rest);
        SetSucc(t, succ);
      }
    }

    // Compile a chore tree into the tables. `plan` names the job of every node.
    method PostChoreNode(node: ChoreNode, w: nat) returns (head: Id, tails: seq<Id>, ghost plan: Plan)
      requires Valid() && w < threads && CanPost(Jobs(node))
      modifies `freeStash, `caches, `live, `nextSeq, succIds, szPreds, placements, work, jobSeq
      ensures Valid() && Spare() + Jobs(node) == old(Spare()) && Stocked(caches) <= old(Stocked(caches))
      ensures Compiled(plan, node, head, tails, old(Now()), Now())
      decreases node, 1
    {
      match node
      case Leaf(placement) => head, tails, plan := PostOne(node, w);
      case Coro(placement) => head, tails, plan := PostOne(node, w);
      case Seq(_, _) => head, tails, plan := PostSeq(node, w);
      case Par(_, _) => head, tails, plan := PostPar(node, w);
    }

    method PostOne(node: ChoreNode, w: nat) returns (head: Id, tails: seq<Id>, ghost plan: Plan)
      requires Valid() && w < threads && (node.Leaf? || node.Coro?) && CanPost(1)
      modifies `freeStash, `caches, `live, `nextSeq, succIds, szPreds, placements, work, jobSeq
      ensures Valid() && Spare() + 1 == old(Spare()) && Stocked(caches) <= old(Stocked(caches))
      ensures Compiled(plan, node, head, tails, old(Now()), Now())
    {
      ghost var rows := Rows();
      head := PostLeaf(w, node.placement, node.Coro?);
      tails, plan := [head], Job(head, node.placement, node.Coro?);
      LeafRows(head, node.placement, node.Coro?, rows, Rows());
      DrawnOne(old(jobSeq[..]), head, old(nextSeq));
      assert multiset([head]) == multiset({head});
    }

    // Every tail of the left side gets the head of the right side as successor.
    method PostSeq(node: ChoreNode, w: nat) returns (head: Id, tails: seq<Id>, ghost plan: Plan)
      requires Valid() && w < threads && node.Seq? && CanPost(Jobs(node))
      modifies `freeStash, `caches, `live, `nextSeq, succIds, szPreds, placements, work, jobSeq
      ensures Valid() && Spare() + Jobs(node) == old(Spare()) && Stocked(caches) <= old(Stocked(caches))
      ensures Compiled(plan, node, head, tails, old(Now()), Now())
      decreases node, 0
    {
      hide PoolOk, Pool, Compiled, Linked;
      ghost var t0 := Now();
      var leftTails, next;
      ghost var l, r;
      head, leftTails, l := PostChoreNode(node.left, w);
      ghost var t1 := Now();
      next, tails, r := PostChoreNode(node.right, w);
      ghost var t2 := Now();
      plan := Then(l, r);
      SidesMayLink(l, r, node, head, leftTails, next, tails, t0, t1, t2);
      LinkTails(leftTails, next);
      SequenceCompiles(l, r, node, head, leftTails, next, tails, t0, t1, t2, Now());
    }

    // A parallel node becomes one job that enqueues the heads of both sides; its tails are those of both.
    method PostPar(node: ChoreNode, w: nat) returns (head: Id, tails: seq<Id>, ghost plan: Plan)
      requires Valid() && w < threads && node.Par? && CanPost(Jobs(node))
      modifies `freeStash, `caches, `live, `nextSeq, succIds, szPreds, placements, work, jobSeq
      ensures Valid() && Spare() + Jobs(node) == old(Spare()) && Stocked(caches) <= old(Stocked(caches))
      ensures Compiled(plan, node, head, tails, old(Now()), Now())
      decreases node, 0
    {
      hide PoolOk, Pool, Compiled;
      ghost var t0 := Now();
      var headL, leftTails, headR, rightTails;
      ghost var l, r;
      headL, leftTails, l := PostChoreNode(node.left, w);
      ghost var t1 := Now();
      headR, rightTails, r := PostChoreNode(node.right, w);
      ghost var t2 := Now();
      tails := MoveTails([], leftTails);
      tails := MoveTails(tails, rightTails);
      head := ConstructJob(w, 0, EnqueueArr([headL, headR]));
      plan := Both(l, r, head);
      ForkCompiles(l, r, node, headL, leftTails, headR, rightTails, head, tails, t0, t1, t2, Now());
    }

    // Post a tree from the main thread: its tails precede the terminal job, its head waits in a temp queue. Trees
    // posted before keep their rows; after a first tree the tables hold the tree and the terminal job as one plan.
    method PostChoreTree(node: ChoreNode) returns (ghost tree: Plan)
      requires Valid() && CanPost(Jobs(node))
      requires terminal != 0 && terminal in live && curSucc[0] == terminal
      modifies `freeStash, `caches, `live, `nextSeq, `temps, succIds, szPreds, placements, work, jobSeq
      ensures Valid() && Spare() + Jobs(node) == old(Spare()) && Stocked(caches) <= old(Stocked(caches))
      ensures Distinct(tree) && Erase(tree) == node && Ids(tree) !! old(live) && live == old(live) + Ids(tree)
      ensures Hung(old(Rows()), Rows(), tree, terminal)
      ensures HoldsIn(old(Rows()), Job(terminal, Any, false)) ==>
        Distinct(Closed(tree, terminal)) && HoldsIn(Rows(), Closed(tree, terminal))
      ensures InPostOrder(jobSeq[..], tree) && Drawn(old(jobSeq[..]), jobSeq[..], Ids(tree), old(nextSeq), nextSeq)
      ensures old(Stamped()) ==> Stamped()
      ensures var t := Target(PlacementOf(tree, Head(tree)), 0, threads);
              temps == old(temps)[t := old(temps)[t] + [Head(tree)]]
    {
      hide PoolOk, Pool, HoldsIn, SameBut, Linked, Hung, PlacementOf, FromPacked, Erase, Jobs, Tails, Ids, Distinct;
      hide InPostOrder, Drawn, StampsOk, Compiled;
      ghost var before := Now();
      ghost var rows0, tails0, stamps0, next0 := Rows(), live, jobSeq[..], nextSeq;
      var head, tails;
      LiveIsInRange(Pool(freeStash, caches), live, terminal);
      head, tails, tree := PostChoreNode(node, 0);
      ghost var rows1 := Rows();
      CompiledIs(tree, node, head, tails, before, Now());
      TreeTails(tree, node, tails, terminal, tails0, live, rows1);
      LinkTails(tails, curSucc[0]);
      TreeHangs(tree, tails, terminal, rows0, rows1, Rows());
      if HoldsIn(rows0, Job(terminal, Any, false)) {
        FirstTreeIsPlan(tree, terminal, rows0, Rows());
      }
      if StampsOk(stamps0, tails0, next0) {
        PlanKeepsStamps(tree, stamps0, jobSeq[..], tails0, next0, nextSeq);
      }
      var packed := placements[head];
      HeadPlacement(tree, terminal, rows0, Rows());
      var t := Target(FromPacked(packed), 0, threads);
      temps := temps[t := temps[t] + [head]];
    }

    // A tree posted to an idle scheduler and then launched: the workers find the state the runs begin with.
    method PostAndFlush(node: ChoreNode) returns (ghost tree: Plan)
      requires Valid() && Idle() && CanPost(Jobs(node))
      modifies `freeStash, `caches, `live, `nextSeq, `temps, `runs, `required, `schedJobs, `schedRunnables
      modifies succIds, szPreds, placements, work, jobSeq
      ensures Valid() && Distinct(Closed(tree, terminal)) && Erase(tree) == node && (old(Stamped()) ==> Stamped())
      ensures Sched(Posted(Closed(tree, terminal)), Maestros(), schedJobs, schedRunnables)
        == Launch(Closed(tree, terminal), threads)
    {
      hide PoolOk, Pool, HoldsIn, Hung, Erase, Jobs, Ids, Distinct, Posted, Launch;
      tree := PostChoreTree(node);
      HeadOfClosed(tree, terminal);
      FlushForLaunch(Closed(tree, terminal));
    }

    method StampIfNew(id: Id)
      requires Valid()
      modifies `nextSeq, jobSeq
      ensures Rows() == old(Rows()) && Restamped(old(jobSeq[..]), jobSeq[..], live, old(nextSeq), nextSeq)
      ensures id < CAPACITY && old(nextSeq) > 0 ==> jobSeq[id] != 0
    {
      RestampedNot(jobSeq[..], live, nextSeq);
      if id < CAPACITY && jobSeq[id] == 0 {
        StampedAnew(jobSeq[..], live, nextSeq, id);
        StampJobSeq(id);
      }
    }

    method FlushOne(w: nat)
      requires Valid() && w < threads && temps[w] != []
      modifies `temps, `runs, `required, `schedJobs, `schedRunnables, `nextSeq, jobSeq
      ensures Valid() && |temps[w]| < |old(temps)[w]| && Rows() == old(Rows())
      ensures FlushAll(Rows(), MaestroAt(w)) == FlushAll(Rows(), old(MaestroAt(w)))
      ensures forall v :: 0 <= v < threads && v != w ==> MaestroAt(v) == old(MaestroAt(v))
      ensures schedJobs - old(schedJobs) == |runs[w]| + |required[w]| - |old(runs)[w]| - |old(required)[w]|
      ensures schedRunnables - old(schedRunnables) == |runs[w]| - |old(runs)[w]|
      ensures Restamped(old(jobSeq[..]), jobSeq[..], live, old(nextSeq), nextSeq)
      ensures var id := LastOf(old(temps)[w]); 0 < id < CAPACITY && old(nextSeq) > 0 ==> jobSeq[id] != 0
    {
      hide PoolOk, Pool, Restamped, StampsOk, FromPacked;
      RestampedNot(jobSeq[..], live, nextSeq);
      var id := LastOf(temps[w]);
      temps := temps[w := PopLast(temps[w])];
      if id != 0 {
        schedJobs := schedJobs + 1;
        StampIfNew(id);
        if id < CAPACITY && placements[id] < 0x1_0000 && FromPacked(placements[id]).IsRequired() {
          required := required[w := required[w] + [id]];
        } else {
          runs := runs[w := runs[w] + [id]];
          schedRunnables := schedRunnables + 1;
        }
      }
    }

    // FlushTempQueue: every waiting job is counted, stamped unless it has a stamp, then pushed.
    method FlushTempQueue(w: nat)
      requires Valid() && w < threads
      modifies `temps, `runs, `required, `schedJobs, `schedRunnables, `nextSeq, jobSeq
      ensures Valid() && Rows() == old(Rows()) && MaestroAt(w) == FlushAll(Rows(), old(MaestroAt(w)))
      ensures forall v :: 0 <= v < threads && v != w ==> MaestroAt(v) == old(MaestroAt(v))
      ensures schedJobs - old(schedJobs) == |runs[w]| + |required[w]| - |old(runs)[w]| - |old(required)[w]|
      ensures schedRunnables - old(schedRunnables) == |runs[w]| - |old(runs)[w]|
      ensures Restamped(old(jobSeq[..]), jobSeq[..], live, old(nextSeq), nextSeq)
    {
      hide PoolOk, Pool, Restamped;
      RestampedNot(jobSeq[..], live, nextSeq);
      while temps[w] != []
        invariant Valid() && Rows() == old(Rows())
        invariant FlushAll(Rows(), MaestroAt(w)) == FlushAll(Rows(), old(MaestroAt(w)))
        invariant forall v :: 0 <= v < threads && v != w ==> MaestroAt(v) == old(MaestroAt(v))
        invariant schedJobs - old(schedJobs) == |runs[w]| + |required[w]| - |old(runs)[w]| - |old(required)[w]|
        invariant schedRunnables - old(schedRunnables) == |runs[w]| - |old(runs)[w]|
        invariant Restamped(old(jobSeq[..]), jobSeq[..], live, old(nextSeq), nextSeq)
        decreases |temps[w]|
      {
        ghost var stamps, next := jobSeq[..], nextSeq;
        FlushOne(w);
        RestampedTwice(old(jobSeq[..]), stamps, jobSeq[..], live, old(nextSeq), next, nextSeq);
      }
    }

    // EnqueueByPlacement: the job is counted, stamped as the youngest, and pushed where its placement says.
    method EnqueueByPlacement(id: Id)
      requires Valid() && 0 < id < CAPACITY && placements[id] < 0x1_0000
      modifies `runs, `required, `schedJobs, `schedRunnables, `nextSeq, jobSeq
      ensures Valid() && Rows() == old(Rows()) && schedJobs == old(schedJobs) + 1
      ensures jobSeq[..] == old(jobSeq[..])[id := old(nextSeq)] && nextSeq == old(nextSeq) + 1
      ensures old(Stamped()) ==> Stamped()
      ensures var placement := FromPacked(placements[id]);
              var t := if placement.Any? || placement.worker >= threads then 0 else placement.worker;
              if placement.IsRequired() then
                runs == old(runs) && required == old(required)[t := old(required)[t] + [id]]
                  && schedRunnables == old(schedRunnables)
              else
                required == old(required) && runs == old(runs)[t := old(runs)[t] + [id]]
                  && schedRunnables == old(schedRunnables) + 1
    {
      hide PoolOk, Pool, FromPacked;
      schedJobs := schedJobs + 1;
      StampJobSeq(id);
      var placement := FromPacked(placements[id]);
      var t := Target(placement, 0, threads);
      if placement.IsRequired() {
        required := required[t := required[t] + [id]];
      } else {
        runs := runs[t := runs[t] + [id]];
        schedRunnables := schedRunnables + 1;
      }
    }

    // FreeJob: the row is blank again, whatever the job enqueued is flushed, and the id goes back to a pool.
    method FreeJob(w: nat, id: Id)
      requires Valid() && w < threads && id in live
      modifies this, succIds, szPreds, placements, work, jobSeq
      ensures Valid() && live == old(live) - {id}
      ensures Rows() == old(Rows())[id := BLANK] && (old(Stamped()) ==> Stamped())
      ensures GivenBack(old(caches), old(freeStash), caches, freeStash, w, id)
      ensures MaestroAt(w) == FlushAll(Rows(), old(MaestroAt(w)))
      ensures forall v :: 0 <= v < threads && v != w ==> MaestroAt(v) == old(MaestroAt(v))
    {
      assert 0 < id < CAPACITY;
      hide PoolOk, Pool, Restamped, StampsOk;
      ghost var stamps, next := jobSeq[..], nextSeq;
      ResetJobSlot(id);
      FlushTempQueue(w);
      FreedStamps(stamps, jobSeq[..], live, next, nextSeq, id);
      ReturnId(w, id);
    }

    method ReturnId(w: nat, id: Id)
      requires Valid() && w < threads && id in live
      modifies `caches, `freeStash, `live
      ensures Valid() && live == old(live) - {id}
      ensures GivenBack(old(caches), old(freeStash), caches, freeStash, w, id)
      ensures forall v :: 0 <= v < threads ==> MaestroAt(v) == old(MaestroAt(v))
    {
      hide PoolOk, Pool;
      if |caches[w]| < CACHE_LIMIT {
        CacheGive(freeStash, caches, w, id);
        GivePool(Pool(freeStash, caches), Pool(freeStash, caches[w := caches[w] + [id]]), live, id);
        caches := caches[w := caches[w] + [id]];
      } else {
        StashGive(freeStash, caches, id);
        GivePool(Pool(freeStash, caches), Pool(freeStash + [id], caches), live, id);
        freeStash := freeStash + [id];
      }
      live := live - {id};
    }

    ghost predicate RequiredIsOlder(w: nat)
      requires w < |runs| == |required| && jobSeq.Length == CAPACITY
      reads this, jobSeq
    {
      && runs[w] != [] && required[w] != [] && LastOf(runs[w]) < CAPACITY && LastOf(required[w]) < CAPACITY
      && jobSeq[LastOf(required[w])] <= jobSeq[LastOf(runs[w])]
    }

    // PopLocalJob: of two tops the older one, which was stamped first, is taken; a lone required job waits until
    // nothing runnable is left.
    method PopLocalJob(w: nat) returns (id: Id)
      requires Valid() && w < threads
      requires forall k :: 0 <= k < |runs[w]| ==> runs[w][k] < CAPACITY
      requires forall k :: 0 <= k < |required[w]| ==> required[w][k] < CAPACITY
      modifies `runs, `required
      ensures Valid()
      ensures var run, req := old(runs)[w], old(required)[w];
              && (run != [] && req != [] ==>
                    var (r, q) := (run[|run| - 1], req[|req| - 1]);
                    id == if jobSeq[q] <= jobSeq[r] then q else r)
              && (run != [] && req == [] ==> id == run[|run| - 1])
              && (run == [] && req != [] ==> id == if schedRunnables == 0 then req[|req| - 1] else 0)
              && (run == [] && req == [] ==> id == 0)
      ensures var run, req := old(runs)[w], old(required)[w];
              if run != [] && (req == [] || jobSeq[req[|req| - 1]] > jobSeq[run[|run| - 1]]) then
                runs == old(runs)[w := run[..|run| - 1]] && required == old(required)
              else if req != [] && (run != [] || schedRunnables == 0) then
                required == old(required)[w := req[..|req| - 1]] && runs == old(runs)
              else runs == old(runs) && required == old(required)
      ensures var popped := HeistLoop.PopLocalJob(old(MaestroAt(w)), schedRunnables, old(RequiredIsOlder(w)));
              id == popped.job && MaestroAt(w) == popped.rest
      ensures forall v :: 0 <= v < threads && v != w ==> MaestroAt(v) == old(MaestroAt(v))
    {
      hide PoolOk, Pool;
      var run, req := runs[w], required[w];
      if run != [] { LastSplits(run); }
      if req != [] { LastSplits(req); }
      var prefer := run != [] && req != [] && jobSeq[LastOf(req)] <= jobSeq[LastOf(run)];
      assert prefer == RequiredIsOlder(w);
      ghost var popped := HeistLoop.PopLocalJob(MaestroAt(w), schedRunnables, prefer);
      id := 0;
      if run != [] && req != [] {
        if prefer {
          id := LastOf(req);
          required := required[w := PopLast(req)];
        } else {
          id := LastOf(run);
          runs := runs[w := PopLast(run)];
        }
      } else if run != [] {
        id := LastOf(run);
        runs := runs[w := PopLast(run)];
      } else if req != [] {
        if schedRunnables == 0 {
          id := LastOf(req);
          required := required[w := PopLast(req)];
        }
      }
      assert id == popped.job && MaestroAt(w) == popped.rest;
    }

    // DoLaunch before any worker starts: every temp queue is flushed. What the workers then find is the state the
    // scheduler's runs begin with.
    method FlushForLaunch(ghost plan: Plan)
      requires Valid() && Distinct(plan) && HoldsIn(Rows(), plan) && schedJobs == schedRunnables == 0
      requires forall w :: 0 <= w < threads ==> runs[w] == [] && required[w] == []
      requires var t := Target(PlacementOf(plan, Head(plan)), 0, threads);
               forall w :: 0 <= w < threads ==> temps[w] == if w == t then [Head(plan)] else []
      modifies `temps, `runs, `required, `schedJobs, `schedRunnables, `nextSeq, jobSeq
      ensures Valid() && (old(Stamped()) ==> Stamped())
      ensures Sched(Posted(plan), Maestros(), schedJobs, schedRunnables) == Launch(plan, threads)
    {
      hide PoolOk, Pool, HoldsIn, Posted, Restamped;
      ghost var rows, t := Rows(), Target(PlacementOf(plan, Head(plan)), 0, threads);
      ghost var req := PlacementOf(plan, Head(plan)).IsRequired();
      HeadFlushes(plan, rows);
      RestampedNot(jobSeq[..], live, nextSeq);
      for w := 0 to threads
        invariant Valid() && Rows() == rows
        invariant Restamped(old(jobSeq[..]), jobSeq[..], live, old(nextSeq), nextSeq)
        invariant forall v :: 0 <= v < w ==> MaestroAt(v) == Launch(plan, threads).ws[v]
        invariant forall v :: w <= v < threads ==>
          MaestroAt(v) == Maestro([], [], if v == t then [Head(plan)] else [], 0, Top(0, false))
        invariant if w <= t then schedJobs == schedRunnables == 0 else schedJobs == 1 && schedRunnables == Unit(req)
      {
        ghost var stamps, next := jobSeq[..], nextSeq;
        FlushTempQueue(w);
        RestampedTwice(old(jobSeq[..]), stamps, jobSeq[..], live, old(nextSeq), next, nextSeq);
      }
      RestampedKeeps(old(jobSeq[..]), jobSeq[..], live, old(nextSeq), nextSeq);
      assert Maestros() == Launch(plan, threads).ws;
    }

    static method MoveTails(into: seq<Id>, from: seq<Id>) returns (tails: seq<Id>)
      ensures multiset(tails) == multiset(into) + multiset(from)
    {
      tails := into;
      var rest := from;
      while rest != []
        invariant multiset(tails) + multiset(rest) == multiset(into) + multiset(from)
        decreases |rest|
      {
        LastSplits(rest);
        assert multiset(tails + [LastOf(rest)]) == multiset(tails) + multiset{LastOf(rest)};
        tails := tails + [LastOf(rest)];
        rest := PopLast(rest);
      }
    }
  }

  lemma SidesAreApart(l: Plan, r: Plan)
    requires Distinct(Then(l, r))
    ensures Ids(l) !! Ids(r)
  {
  }

  lemma ForkIsApart(l: Plan, r: Plan, fork: Id, node: ChoreNode, tails: seq<Id>, before: set<Id>, after: set<Id>)
    requires PostedAs(Both(l, r, fork), node, fork, tails, before, after)
    ensures Distinct(Both(l, r, fork)) && Ids(l) !! Ids(r) && fork !in Ids(l) + Ids(r)
  {
  }

  lemma TreeTails(tree: Plan, node: ChoreNode, tails: seq<Id>, terminal: Id, before: set<Id>, after: set<Id>,
                  rows: seq<Row>)
    requires PostedAs(tree, node, Head(tree), tails, before, after) && terminal in before && HoldsIn(rows, tree)
    ensures multiset(tails) == multiset(Tails(tree)) && terminal !in Ids(tree) && Head(tree) < CAPACITY
    ensures forall i :: 0 <= i < |tails| ==> tails[i] < CAPACITY && tails[i] != terminal
    ensures forall i, j :: 0 <= i < j < |tails| ==> tails[i] != tails[j]
  {
    hide RowOf;
    TailsOnce(tails, tree);
    PlanIds(tree);
  }

  lemma TreeHangs(tree: Plan, tails: seq<Id>, succ: Id, rows0: seq<Row>, rows1: seq<Row>, rows2: seq<Row>)
    requires Distinct(tree) && multiset(tails) == multiset(Tails(tree)) && succ !in Ids(tree)
    requires SameBut(rows0, rows1, Ids(tree)) && HoldsIn(rows1, tree) && Linked(rows1, rows2, tails, succ)
    ensures Hung(rows0, rows2, tree, succ)
  {
    hide RowOf;
    TailsOnce(tails, tree);
    PlanIds(tree);
  }

  // With no predecessor posted before, the tree and the terminal job are one plan.
  lemma FirstTreeIsPlan(tree: Plan, terminal: Id, rows: seq<Row>, rows': seq<Row>)
    requires Distinct(tree) && terminal != 0 && terminal !in Ids(tree)
    requires Hung(rows, rows', tree, terminal) && HoldsIn(rows, Job(terminal, Any, false))
    ensures Distinct(Closed(tree, terminal)) && HoldsIn(rows', Closed(tree, terminal))
  {
    hide RowOf, Hung;
    ClosedIds(tree, terminal);
    HungRows(rows, rows', tree, terminal);
    forall id | id in Ids(Closed(tree, terminal))
      ensures id < CAPACITY && rows'[id] == RowOf(Closed(tree, terminal), id)
    {
      FirstTreeRow(tree, terminal, rows, rows', id);
    }
  }

  lemma HungRows(rows: seq<Row>, rows': seq<Row>, tree: Plan, succ: Id)
    requires Hung(rows, rows', tree, succ)
    ensures |rows'| == CAPACITY
  {
  }

  lemma FirstTreeRow(tree: Plan, terminal: Id, rows: seq<Row>, rows': seq<Row>, id: Id)
    requires Distinct(tree) && terminal != 0 && terminal !in Ids(tree) && id in Ids(tree) + {terminal}
    requires Hung(rows, rows', tree, terminal) && HoldsIn(rows, Job(terminal, Any, false))
    ensures id < CAPACITY && rows'[id] == RowOf(Closed(tree, terminal), id)
  {
    hide RowOf, Tails, Ids;
    ClosedIds(tree, terminal);
    PlanIds(tree);
    ThenRow(tree, Job(terminal, Any, false), id);
  }

  lemma HeadOfClosed(tree: Plan, terminal: Id)
    requires Distinct(tree)
    ensures Head(Closed(tree, terminal)) == Head(tree)
    ensures PlacementOf(Closed(tree, terminal), Head(tree)) == PlacementOf(tree, Head(tree))
  {
    PlanIds(tree);
  }

  lemma {:induction false} StoredPlacement(p: Plan, id: Id)
    ensures PlacementOf(p, id) == Stored(RawPlacement(p, id))
    ensures FromPacked(ToPacked(RawPlacement(p, id))) == PlacementOf(p, id)
  {
    PackingRoundTrip(RawPlacement(p, id));
    match p
    case Job(_, _, _) =>
    case Then(l, r) =>
      StoredPlacement(l, id);
      StoredPlacement(r, id);
    case Both(l, r, _) =>
      StoredPlacement(l, id);
      StoredPlacement(r, id);
  }

  lemma ClosedIds(tree: Plan, terminal: Id)
    requires Distinct(tree) && terminal != 0 && terminal !in Ids(tree)
    ensures Distinct(Closed(tree, terminal)) && Ids(Closed(tree, terminal)) == Ids(tree) + {terminal}
    ensures Ids(Job(terminal, Any, false)) == {terminal} && Head(Job(terminal, Any, false)) == terminal
  {
  }

  lemma HeadPlacement(tree: Plan, succ: Id, rows: seq<Row>, rows': seq<Row>)
    requires Distinct(tree) && Hung(rows, rows', tree, succ)
    ensures Head(tree) < CAPACITY && rows'[Head(tree)].packed < 0x1_0000
    ensures FromPacked(rows'[Head(tree)].packed) == PlacementOf(tree, Head(tree))
  {
    PlanIds(tree);
    StoredPlacement(tree, Head(tree));
  }

  // The job table a posted plan leaves behind is the one the scheduler starts from.
  lemma TableIsPosted(p: Plan, rows: seq<Row>)
    requires Distinct(p) && HoldsIn(rows, p)
    ensures forall id :: id in Ids(p) ==>
      var row, slot := rows[id], Posted(p).jobs[id];
      row.succ == slot.succ && row.preds == slot.preds && FromPacked(row.packed) == slot.placement
        && row.work == WorkOf(p, id)
  {
    forall id | id in Ids(p)
      ensures var row, slot := rows[id], Posted(p).jobs[id];
              row.succ == slot.succ && row.preds == slot.preds && FromPacked(row.packed) == slot.placement
                && row.work == WorkOf(p, id)
    {
      StoredPlacement(p, id);
    }
  }

  lemma OneRow(rows: seq<Row>, rows': seq<Row>, id: Id, row: Row)
    requires |rows| == CAPACITY && id < CAPACITY && rows' == rows[id := row]
    ensures SameBut(rows, rows', {id}) && rows'[id] == row
  {
  }

  // The two sides are disjoint, so their jobs can be linked.
  lemma TailsMayLink(l: Plan, r: Plan, node: ChoreNode, head: Id, lTails: seq<Id>, next: Id, tails: seq<Id>,
                     before: set<Id>, mid: set<Id>, after: set<Id>, rows1: seq<Row>, rows2: seq<Row>)
    requires node.Seq? && PostedAs(l, node.left, head, lTails, before, mid)
    requires PostedAs(r, node.right, next, tails, mid, after)
    requires HoldsIn(rows1, l) && HoldsIn(rows2, r)
    ensures Distinct(Then(l, r)) && multiset(lTails) == multiset(Tails(l)) && next == Head(r) && next < CAPACITY
    ensures forall i :: 0 <= i < |lTails| ==> lTails[i] < CAPACITY && lTails[i] != next
    ensures forall i, j :: 0 <= i < j < |lTails| ==> lTails[i] != lTails[j]
  {
    TailsOnce(lTails, l);
    PlanIds(l);
    PlanIds(r);
  }
}
