// A run in which SzSchedJob reads zero while a posted continuation is still to be counted.

module HeistCounter {
  import opened HeistPlacement
  import opened HeistPlan
  import opened HeistCore
  import opened HeistLoop
  import opened HeistRuns

  // One coroutine, posted as a tree: the terminal job follows it.
  const TREE: Plan := Then(Job(1, Any, true), Job(3, Any, false))

  function Begun(): Core {
    Begin(Posted(TREE), 1)
  }

  function Yielded(): Core {
    Yield(TREE, Begun(), 1, 2)
  }

  function Resumed(): Core {
    Begin(Yielded(), 2)
  }

  function Ended(): Core {
    Release(TREE, Finish(TREE, Resumed(), 1), 1)
  }

  function Worker(run: seq<Id>, cur: Id, pc: Pc): Maestro {
    Maestro(run, [], [], cur, pc)
  }

  function Pair(core: Core, a: Maestro, b: Maestro, sched: int, runnables: int): Sched {
    Sched(core, [a, b], sched, runnables)
  }

  const IDLE0 := Worker([], 0, Top(0, false))
  const POSTING := Worker([], 0, Posting(1, 1, false, true))

  lemma PostedRows()
    ensures SlotOf(Posted(TREE), 1) == Slot(1, 3, 0, Any, true) && 1 in Posted(TREE).jobs && 1 in Posted(TREE).runs
    ensures SlotOf(Posted(TREE), 3) == Slot(3, 0, 1, Any, true) && 3 in Posted(TREE).jobs && 3 in Posted(TREE).runs
    ensures 2 !in Posted(TREE).jobs && Succ(TREE, 1) == 3 && Succ(TREE, 3) == 0
    ensures IsCoro(TREE, 1) && !IsCoro(TREE, 3) && Forks(TREE, 1) == Forks(TREE, 3) == [] && PlacementOf(TREE, 1) == Any
  {
    assert Predecessors(TREE, 1) == {};
    assert Predecessors(TREE, 3) == {1};
  }

  lemma YieldedRows()
    ensures 2 !in Begun().jobs && SlotOf(Yielded(), 2) == Slot(1, 3, 0, Any, true)
    ensures 2 in Yielded().jobs && 1 in Yielded().runs
    ensures SlotOf(Resumed(), 3) == Slot(3, 0, 1, Any, true) && 3 in Resumed().jobs
    ensures SlotOf(Ended(), 3) == Slot(3, 0, 0, Any, true) && 3 in Ended().jobs && 3 in Ended().runs
    ensures SlotOf(Drop(Ended(), 2), 3) == Slot(3, 0, 0, Any, true) && 3 in Drop(Ended(), 2).jobs
  {
    hide Posted, Succ, PlacementOf;
    PostedRows();
  }

  lemma Moves(s: Sched, cs: seq<Choice>, c: Choice, s': Sched)
    requires Run(TREE, 2, cs) == s && Step(TREE, s, c) == s'
    ensures Run(TREE, 2, cs + [c]) == s'
  {
    hide Step, Run;
    RunOneMore(TREE, 2, cs, c);
  }

  const FIRST := Choice(0, 0, false, false, 0)
  const SUSPEND := Choice(0, 0, false, true, 2)
  const SECOND := Choice(1, 0, false, false, 0)

  lemma Launched()
    ensures Run(TREE, 2, []) == Pair(Posted(TREE), Worker([1], 0, Top(0, false)), IDLE0, 1, 1)
  {
    hide Posted;
    var none: seq<Id> := [];
    assert PlacementOf(TREE, 1) == Any && none + [1] == [1];
    assert Enqueue(IDLE0, 1, false) == Worker([1], 0, Top(0, false));
    assert Run(TREE, 2, []).ws == [Worker([1], 0, Top(0, false)), IDLE0];
  }

  // The first worker takes the coroutine and begins it.
  lemma FirstBegins() returns (cs: seq<Choice>)
    ensures Run(TREE, 2, cs) == Pair(Begun(), Worker([], 3, Running(1, 1, false)), IDLE0, 1, 1)
  {
    hide Posted, Begin;
    PostedRows();
    Launched();
    var c0 := Posted(TREE);
    Moves(Pair(c0, Worker([1], 0, Top(0, false)), IDLE0, 1, 1), [], FIRST, Pair(c0, Worker([1], 0, Seek), IDLE0, 1, 1));
    cs := [] + [FIRST];
    Moves(Pair(c0, Worker([1], 0, Seek), IDLE0, 1, 1), cs, FIRST, Pair(c0, Worker([], 0, Top(1, false)), IDLE0, 1, 1));
    cs := cs + [FIRST];
    Moves(Pair(c0, Worker([], 0, Top(1, false)), IDLE0, 1, 1), cs, FIRST,
          Pair(c0, Worker([], 0, Take(1, false)), IDLE0, 1, 1));
    cs := cs + [FIRST];
    Moves(Pair(c0, Worker([], 0, Take(1, false)), IDLE0, 1, 1), cs, FIRST,
          Pair(Begun(), Worker([], 3, Running(1, 1, false)), IDLE0, 1, 1));
    cs := cs + [FIRST];
  }

  // It is suspended: the continuation is in its queue, and not counted yet.
  lemma FirstPosts() returns (cs: seq<Choice>)
    ensures Run(TREE, 2, cs) == Pair(Yielded(), Worker([2], 0, Posting(1, 1, false, false)), IDLE0, 1, 1)
  {
    hide Begun, Yield, Posted, Resumed, Ended;
    PostedRows();
    YieldedRows();
    cs := FirstBegins();
    var none: seq<Id> := [];
    assert none + [2] == [2];
    assert [Worker([], 0, Posting(1, 1, false, false)), IDLE0][0 := Worker([2], 0, Posting(1, 1, false, false))]
        == [Worker([2], 0, Posting(1, 1, false, false)), IDLE0];
    Moves(Pair(Begun(), Worker([], 3, Running(1, 1, false)), IDLE0, 1, 1), cs, SUSPEND,
          Pair(Yielded(), Worker([2], 0, Posting(1, 1, false, false)), IDLE0, 1, 1));
    cs := cs + [SUSPEND];
  }

  // The second worker robs the queue; the first counts the continuation as runnable, but not in SzSchedJob.
  lemma SecondRobs() returns (cs: seq<Choice>)
    ensures Run(TREE, 2, cs) == Pair(Yielded(), POSTING, Worker([], 0, Take(2, false)), 1, 2)
  {
    hide Yielded;
    cs := FirstPosts();
    var c, full := Yielded(), Worker([2], 0, Posting(1, 1, false, false));
    var late := Worker([], 0, Posting(1, 1, false, false));
    Moves(Pair(c, full, IDLE0, 1, 1), cs, SECOND, Pair(c, full, Worker([], 0, Seek), 1, 1));
    cs := cs + [SECOND];
    Moves(Pair(c, full, Worker([], 0, Seek), 1, 1), cs, SECOND, Pair(c, full, Worker([], 0, Steal), 1, 1));
    cs := cs + [SECOND];
    Moves(Pair(c, full, Worker([], 0, Steal), 1, 1), cs, SECOND, Pair(c, late, Worker([], 0, Top(2, false)), 1, 1));
    cs := cs + [SECOND];
    Moves(Pair(c, late, Worker([], 0, Top(2, false)), 1, 1), cs, SECOND,
          Pair(c, late, Worker([], 0, Take(2, false)), 1, 1));
    cs := cs + [SECOND];
    Moves(Pair(c, late, Worker([], 0, Take(2, false)), 1, 1), cs, FIRST,
          Pair(c, POSTING, Worker([], 0, Take(2, false)), 1, 2));
    cs := cs + [FIRST];
  }

  // The second worker runs the continuation to its end and publishes the terminal job to the first worker's queue.
  lemma SecondPublishes() returns (cs: seq<Choice>)
    ensures Run(TREE, 2, cs)
      == Pair(Ended(), Worker([3], 0, POSTING.pc), Worker([], 0, Closing(2, 1, false, false)), 2, 3)
  {
    hide Yielded, Begin, Finish, Release, Posted;
    PostedRows();
    YieldedRows();
    cs := SecondRobs();
    var full := Worker([3], 0, POSTING.pc);
    var none: seq<Id> := [];
    assert none + [3] == [3];
    Moves(Pair(Yielded(), POSTING, Worker([], 0, Take(2, false)), 1, 2), cs, SECOND,
          Pair(Resumed(), POSTING, Worker([], 3, Running(2, 1, false)), 1, 2));
    cs := cs + [SECOND];
    Moves(Pair(Resumed(), POSTING, Worker([], 3, Running(2, 1, false)), 1, 2), cs, SECOND,
          Pair(Ended(), POSTING, Worker([], 3, Publishing(2, 1, false, 3, Decided)), 1, 2));
    cs := cs + [SECOND];
    Moves(Pair(Ended(), POSTING, Worker([], 3, Publishing(2, 1, false, 3, Decided)), 1, 2), cs, SECOND,
          Pair(Ended(), POSTING, Worker([], 3, Publishing(2, 1, false, 3, Counted)), 2, 2));
    cs := cs + [SECOND];
    Moves(Pair(Ended(), POSTING, Worker([], 3, Publishing(2, 1, false, 3, Counted)), 2, 2), cs, SECOND,
          Pair(Ended(), full, Worker([], 3, Publishing(2, 1, false, 3, Pushed)), 2, 2));
    cs := cs + [SECOND];
    Moves(Pair(Ended(), full, Worker([], 3, Publishing(2, 1, false, 3, Pushed)), 2, 2), cs, SECOND,
          Pair(Ended(), full, Worker([], 0, Closing(2, 1, false, false)), 2, 3));
    cs := cs + [SECOND];
  }

  // It gives up the job it has ended.
  lemma SecondDrops() returns (cs: seq<Choice>)
    ensures Run(TREE, 2, cs)
      == Pair(Drop(Ended(), 2), Worker([3], 0, POSTING.pc), Worker([], 0, Settling(false, 0, false)), 2, 3)
  {
    hide Ended, Drop;
    cs := SecondPublishes();
    var full, over := Worker([3], 0, POSTING.pc), Drop(Ended(), 2);
    Moves(Pair(Ended(), full, Worker([], 0, Closing(2, 1, false, false)), 2, 3), cs, SECOND,
          Pair(over, full, Worker([], 0, Flushing(1, false, false, 0)), 2, 3));
    cs := cs + [SECOND];
    Moves(Pair(over, full, Worker([], 0, Flushing(1, false, false, 0)), 2, 3), cs, SECOND,
          Pair(over, full, Worker([], 0, Releasing(1, false, false)), 2, 3));
    cs := cs + [SECOND];
    Moves(Pair(over, full, Worker([], 0, Releasing(1, false, false)), 2, 3), cs, SECOND,
          Pair(over, full, Worker([], 0, Settling(false, 0, false)), 2, 3));
    cs := cs + [SECOND];
  }

  // Then it robs the queue of the terminal job.
  lemma SecondRobsAgain() returns (cs: seq<Choice>)
    ensures Run(TREE, 2, cs) == Pair(Drop(Ended(), 2), POSTING, Worker([], 0, Top(3, false)), 1, 2)
  {
    hide Ended, Drop;
    cs := SecondDrops();
    var full, over := Worker([3], 0, POSTING.pc), Drop(Ended(), 2);
    Moves(Pair(over, full, Worker([], 0, Settling(false, 0, false)), 2, 3), cs, SECOND,
          Pair(over, full, Worker([], 0, Dropping(0, false)), 2, 2));
    cs := cs + [SECOND];
    Moves(Pair(over, full, Worker([], 0, Dropping(0, false)), 2, 2), cs, SECOND,
          Pair(over, full, Worker([], 0, Seek), 1, 2));
    cs := cs + [SECOND];
    Moves(Pair(over, full, Worker([], 0, Seek), 1, 2), cs, SECOND, Pair(over, full, Worker([], 0, Steal), 1, 2));
    cs := cs + [SECOND];
    Moves(Pair(over, full, Worker([], 0, Steal), 1, 2), cs, SECOND,
          Pair(over, POSTING, Worker([], 0, Top(3, false)), 1, 2));
    cs := cs + [SECOND];
  }

  // It runs the terminal job to its end.
  lemma SecondEnds() returns (cs: seq<Choice>, core: Core)
    ensures Run(TREE, 2, cs) == Pair(core, POSTING, Worker([], 0, Flushing(3, false, true, 0)), 1, 2)
  {
    hide Ended, Begin, Finish, Drop, Posted;
    PostedRows();
    YieldedRows();
    cs := SecondRobsAgain();
    var over := Drop(Ended(), 2);
    TerminalRuns();
    Moves(Pair(over, POSTING, Worker([], 0, Top(3, false)), 1, 2), cs, SECOND,
          Pair(over, POSTING, Worker([], 0, Take(3, false)), 1, 2));
    cs := cs + [SECOND];
    var last := Begin(over, 3);
    Moves(Pair(over, POSTING, Worker([], 0, Take(3, false)), 1, 2), cs, SECOND,
          Pair(last, POSTING, Worker([], 0, Running(3, 3, false)), 1, 2));
    cs := cs + [SECOND];
    var none: seq<Id> := [];
    assert none + Forks(TREE, 3) == none;
    var done := Finish(TREE, last, 3);
    Moves(Pair(last, POSTING, Worker([], 0, Running(3, 3, false)), 1, 2), cs, SECOND,
          Pair(done, POSTING, Worker([], 0, Closing(3, 3, false, true)), 1, 2));
    cs := cs + [SECOND];
    core := Drop(done, 3);
    Moves(Pair(done, POSTING, Worker([], 0, Closing(3, 3, false, true)), 1, 2), cs, SECOND,
          Pair(core, POSTING, Worker([], 0, Flushing(3, false, true, 0)), 1, 2));
    cs := cs + [SECOND];
  }

  lemma TerminalRuns()
    ensures 3 in Drop(Ended(), 2).runs
  {
    hide Posted;
    PostedRows();
  }

  // It accounts for it, and finds nothing more.
  lemma SecondSettles() returns (cs: seq<Choice>, over: Core)
    ensures Run(TREE, 2, cs) == Pair(over, POSTING, Worker([], 0, Settling(false, 0, false)), 1, 2)
  {
    hide Release;
    var core;
    cs, core := SecondEnds();
    over := Release(TREE, core, 3);
    Moves(Pair(core, POSTING, Worker([], 0, Flushing(3, false, true, 0)), 1, 2), cs, SECOND,
          Pair(core, POSTING, Worker([], 0, Releasing(3, false, true)), 1, 2));
    cs := cs + [SECOND];
    Moves(Pair(core, POSTING, Worker([], 0, Releasing(3, false, true)), 1, 2), cs, SECOND,
          Pair(over, POSTING, Worker([], 0, Settling(false, 0, false)), 1, 2));
    cs := cs + [SECOND];
  }

  // SzSchedJob reads zero, and one afterwards.
  lemma CounterFlickers() returns (cs: seq<Choice>)
    ensures Run(TREE, 2, cs).sched == 0 && Run(TREE, 2, cs + [FIRST]).sched == 1
  {
    var over;
    cs, over := SecondSettles();
    Moves(Pair(over, POSTING, Worker([], 0, Settling(false, 0, false)), 1, 2), cs, SECOND,
          Pair(over, POSTING, Worker([], 0, Dropping(0, false)), 1, 1));
    cs := cs + [SECOND];
    Moves(Pair(over, POSTING, Worker([], 0, Dropping(0, false)), 1, 1), cs, SECOND,
          Pair(over, POSTING, Worker([], 0, Seek), 0, 1));
    cs := cs + [SECOND];
    Moves(Pair(over, POSTING, Worker([], 0, Seek), 0, 1), cs, FIRST,
          Pair(over, Worker([], 0, Closing(1, 1, false, false)), Worker([], 0, Seek), 1, 1));
  }
}
