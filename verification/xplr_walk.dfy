// Depth-first exploration of a forest with explicit stacks, against the recursive walk it stands for.

module XplrWalk {
  import opened Prelude

  // An Unread branch is one whose children cannot be listed.
  datatype Node = Leaf(name: string) | Unread(name: string) | Branch(name: string, children: seq<Node>)

  // One call of the visitor: the path from a root down to the visited node, and whether the node is entered or left.
  datatype Event = Event(path: seq<Node>, enter: bool)

  // The visitor may answer from everything it has been shown; the last event of the history is the current call.
  type Visitor = seq<Event> -> bool

  datatype Outcome = Outcome(log: seq<Event>, aborted: bool)

  function ChildrenOf(n: Node): seq<Node> {
    if n.Branch? then n.children else []
  }

  // The recursive walk below one node.
  function Walk(visit: Visitor, log: seq<Event>, above: seq<Node>, n: Node): Outcome
    decreases n
  {
    var path := above + [n];
    var entered := log + [Event(path, true)];
    if !visit(entered) || ChildrenOf(n) == [] then Outcome(entered, false)
    else
      var inner := WalkAll(visit, entered, path, ChildrenOf(n));
      if inner.aborted then inner
      else
        var left := inner.log + [Event(path, false)];
        Outcome(left, !visit(left))
  }

  function WalkAll(visit: Visitor, log: seq<Event>, above: seq<Node>, nodes: seq<Node>): Outcome
    decreases nodes
  {
    if nodes == [] then Outcome(log, false)
    else
      var first := Walk(visit, log, above, nodes[0]);
      if first.aborted then first else WalkAll(visit, first.log, above, nodes[1..])
  }

  datatype ChildCursor = ChildCursor(children: Option<seq<Node>>, index: nat) {
    predicate IsNull() {
      children == None
    }

    function Size(): nat {
      if children.Some? && index < |children.value| then |children.value| - index else 0
    }

    function CurrentChild(): Option<Node> {
      if children.Some? && index < |children.value| then Some(children.value[index]) else None
    }

    function Advance(): ChildCursor {
      this.(index := index + 1)
    }
  }

  const NEW_CURSOR := ChildCursor(None, 0)

  function TopWaits(cursors: seq<ChildCursor>): nat {
    if |cursors| > 0 && cursors[|cursors| - 1].IsNull() then 1 else 0
  }

  // From the bottom: roots that wait, then the entered nodes, which are the ancestors, then perhaps a top that waits.
  predicate StackOk(toks: seq<Node>, cursors: seq<ChildCursor>, anc: seq<Node>) {
    var top := |toks| - TopWaits(cursors);
    && |toks| == |cursors| && |anc| <= top && (forall i :: 0 <= i < |anc| ==> anc[i] == toks[top - |anc| + i])
    && (forall i :: 0 <= i < |toks| ==> (cursors[i].IsNull() <==> i < top - |anc| || i >= top))
    && (forall i :: 0 <= i < |toks| && !cursors[i].IsNull() ==> cursors[i].index <= |cursors[i].children.value|)
  }

  function Weight(n: Node): nat
    decreases n
  {
    2 + if n.Branch? then Weights(n.children) else 0
  }

  function Weights(nodes: seq<Node>): nat
    decreases nodes
  {
    if nodes == [] then 0 else 1 + Weight(nodes[0]) + Weights(nodes[1..])
  }

  // The work left in one frame of the stack, and in all of them.
  function FrameCost(n: Node, c: ChildCursor): nat {
    if c.IsNull() then Weight(n) else if c.index <= |c.children.value| then 1 + Weights(c.children.value[c.index..])
      else 0
  }

  function Cost(toks: seq<Node>, cursors: seq<ChildCursor>): nat
    requires |toks| == |cursors|
    decreases |toks|
  {
    if toks == [] then 0
    else Cost(toks[..|toks| - 1], cursors[..|toks| - 1]) + FrameCost(toks[|toks| - 1], cursors[|toks| - 1])
  }

  // What is still to come when the stacks are unwound from the top.
  function Finish(visit: Visitor, log: seq<Event>, toks: seq<Node>, cursors: seq<ChildCursor>, anc: seq<Node>): Outcome
    requires |toks| == |cursors|
    decreases |toks|
  {
    if toks == [] then Outcome(log, false)
    else
      var k := |toks| - 1;
      if cursors[k].IsNull() then
        var r := Walk(visit, log, anc, toks[k]);
        if r.aborted then r else Finish(visit, r.log, toks[..k], cursors[..k], anc)
      else
        var children, from := cursors[k].children.value, cursors[k].index;
        var r := WalkAll(visit, log, anc, if from <= |children| then children[from..] else []);
        if r.aborted then r
        else
          var left := r.log + [Event(anc, false)];
          if !visit(left) then Outcome(left, true)
          else Finish(visit, left, toks[..k], cursors[..k], if anc == [] then [] else anc[..|anc| - 1])
  }

  lemma CostPushed(toks: seq<Node>, cursors: seq<ChildCursor>, tok: Node, c: ChildCursor)
    requires |toks| == |cursors|
    ensures Cost(toks + [tok], cursors + [c]) == Cost(toks, cursors) + FrameCost(tok, c)
  {
    assert (toks + [tok])[..|toks|] == toks && (cursors + [c])[..|toks|] == cursors;
  }

  // Moving on to the next child of the top frame.
  lemma Descends(visit: Visitor, log: seq<Event>, toks: seq<Node>, cursors: seq<ChildCursor>, anc: seq<Node>)
    requires StackOk(toks, cursors, anc) && toks != [] && cursors[|toks| - 1].Size() > 0
    ensures var k := |toks| - 1;
            var child, moved := cursors[k].CurrentChild().value, cursors[k := cursors[k].Advance()];
            && StackOk(toks + [child], moved + [NEW_CURSOR], anc)
            && Finish(visit, log, toks + [child], moved + [NEW_CURSOR], anc) == Finish(visit, log, toks, cursors, anc)
            && Cost(toks + [child], moved + [NEW_CURSOR]) < Cost(toks, cursors)
  {
    hide Walk, WalkAll;
    var k := |toks| - 1;
    var children, from, child, moved := cursors[k].children.value, cursors[k].index,
      cursors[k].CurrentChild().value, cursors[k := cursors[k].Advance()];
    assert (toks + [child])[..k + 1] == toks && (moved + [NEW_CURSOR])[..k + 1] == moved;
    assert moved[..k] == cursors[..k];
    CostPushed(toks, moved, child, NEW_CURSOR);
    assert children[from..][0] == child && children[from..][1..] == children[from + 1..];
    WalkAllSteps(visit, log, anc, children[from..]);
    var r := Walk(visit, log, anc, child);
    if !r.aborted {
      assert moved[k].index == from + 1;
    }
  }

  lemma WalkAllSteps(visit: Visitor, log: seq<Event>, above: seq<Node>, nodes: seq<Node>)
    requires nodes != []
    ensures var first := Walk(visit, log, above, nodes[0]);
            WalkAll(visit, log, above, nodes) == if first.aborted then first
              else WalkAll(visit, first.log, above, nodes[1..])
    ensures WalkAll(visit, log, above, []) == Outcome(log, false)
  {
  }

  lemma WalkSteps(visit: Visitor, log: seq<Event>, above: seq<Node>, n: Node)
    ensures var entered := log + [Event(above + [n], true)];
            Walk(visit, log, above, n) ==
            if !visit(entered) || ChildrenOf(n) == [] then Outcome(entered, false)
            else
              var inner := WalkAll(visit, entered, above + [n], ChildrenOf(n));
              if inner.aborted then inner
              else Outcome(inner.log + [Event(above + [n], false)], !visit(inner.log + [Event(above + [n], false)]))
  {
  }

  // Entering the top node: its cursor gets its children, or none when the visitor refuses them.
  lemma Enters(visit: Visitor, log: seq<Event>, toks: seq<Node>, cursors: seq<ChildCursor>, anc: seq<Node>)
    requires StackOk(toks, cursors, anc) && toks != [] && cursors[|toks| - 1].IsNull()
    ensures var k := |toks| - 1;
            var entered := log + [Event(anc + [toks[k]], true)];
            if visit(entered) && ChildrenOf(toks[k]) != [] then
              var begun := cursors[k := ChildCursor(Some(ChildrenOf(toks[k])), 0)];
              && StackOk(toks, begun, anc + [toks[k]]) && Cost(toks, begun) < Cost(toks, cursors)
              && Finish(visit, entered, toks, begun, anc + [toks[k]]) == Finish(visit, log, toks, cursors, anc)
            else
              Finish(visit, entered, toks[..k], cursors[..k], anc) == Finish(visit, log, toks, cursors, anc)
  {
    hide Walk, WalkAll;
    var k := |toks| - 1;
    WalkSteps(visit, log, anc, toks[k]);
    var begun := cursors[k := ChildCursor(Some(ChildrenOf(toks[k])), 0)];
    assert begun[..k] == cursors[..k];
    assert ChildrenOf(toks[k])[0..] == ChildrenOf(toks[k]);
    assert (anc + [toks[k]])[..|anc|] == anc;
  }

  // Taking the top frame off.
  lemma Pops(toks: seq<Node>, cursors: seq<ChildCursor>, anc: seq<Node>)
    requires StackOk(toks, cursors, anc) && toks != []
    ensures var k := |toks| - 1;
            && (cursors[k].IsNull() ==> StackOk(toks[..k], cursors[..k], anc))
            && (!cursors[k].IsNull() ==>
              anc != [] && anc[|anc| - 1] == toks[k] && StackOk(toks[..k], cursors[..k], anc[..|anc| - 1]))
            && Cost(toks[..k], cursors[..k]) < Cost(toks, cursors)
  {
    hide Weights, Cost;
    var k, top := |toks| - 1, |toks| - TopWaits(cursors);
    CostPushed(toks[..k], cursors[..k], toks[k], cursors[k]);
    assert toks[..k] + [toks[k]] == toks && cursors[..k] + [cursors[k]] == cursors;
    PopsStack(toks, cursors, anc);
  }

  lemma PopsStack(toks: seq<Node>, cursors: seq<ChildCursor>, anc: seq<Node>)
    requires StackOk(toks, cursors, anc) && toks != []
    ensures var k := |toks| - 1;
            && (cursors[k].IsNull() ==> StackOk(toks[..k], cursors[..k], anc))
            && (!cursors[k].IsNull() ==>
              anc != [] && anc[|anc| - 1] == toks[k] && StackOk(toks[..k], cursors[..k], anc[..|anc| - 1]))
  {
    var k, top := |toks| - 1, |toks| - TopWaits(cursors);
    var toks', cursors' := toks[..k], cursors[..k];
    assert forall i :: 0 <= i < k ==> cursors'[i] == cursors[i] && toks'[i] == toks[i];
    if cursors[k].IsNull() {
      assert TopWaits(cursors') == if k > 0 && anc == [] then 1 else 0;
    } else {
      assert anc != [];
      assert TopWaits(cursors') == if k > 0 && |anc| == 1 then 1 else 0;
    }
  }

  lemma {:induction false} RootsWait(visit: Visitor, log: seq<Event>, roots: seq<Node>, toks: seq<Node>,
                                     cursors: seq<ChildCursor>)
    requires |toks| == |cursors| == |roots|
    requires forall i :: 0 <= i < |roots| ==> toks[i] == roots[|roots| - 1 - i] && cursors[i] == NEW_CURSOR
    ensures Finish(visit, log, toks, cursors, []) == WalkAll(visit, log, [], roots)
    decreases |roots|
  {
    hide Walk;
    if roots != [] {
      var k := |roots| - 1;
      WalkAllSteps(visit, log, [], roots);
      var first := Walk(visit, log, [], roots[0]);
      RootsWait(visit, first.log, roots[1..], toks[..k], cursors[..k]);
    }
  }

  // The loop over three stacks makes exactly the calls of the recursive walk, in the same order, stops exactly where
  // it stops, and always ends.
  method TraverseDepthRoots(roots: seq<Node>, visit: Visitor) returns (log: seq<Event>, aborted: bool)
    ensures Outcome(log, aborted) == WalkAll(visit, [], [], roots)
  {
    hide Walk, WalkAll, Finish, StackOk, Cost;
    var toks: seq<Node>, cursors: seq<ChildCursor>, anc: seq<Node> := [], [], [];
    log := [];
    for k := |roots| downto 0
      invariant |toks| == |cursors| == |roots| - k
      invariant forall i :: 0 <= i < |toks| ==> toks[i] == roots[|roots| - 1 - i] && cursors[i] == NEW_CURSOR
    {
      toks, cursors := toks + [roots[k]], cursors + [NEW_CURSOR];
    }
    RootsWait(visit, [], roots, toks, cursors);
    StartsOk(toks, cursors);
    while toks != []
      invariant StackOk(toks, cursors, anc) && |toks| == |cursors|
      invariant Finish(visit, log, toks, cursors, anc) == WalkAll(visit, [], [], roots)
      decreases Cost(toks, cursors)
    {
      var k := |toks| - 1;
      var tok, entering := toks[k], cursors[k].IsNull();
      Pops(toks, cursors, anc);
      if entering {
        Enters(visit, log, toks, cursors, anc);
        anc := anc + [tok];
        log := log + [Event(anc, true)];
        cursors := cursors[k := ChildCursor(Some(if visit(log) then ChildrenOf(tok) else []), 0)];
      }
      if cursors[k].Size() == 0 {
        if !entering {
          Leaves(visit, log, toks, cursors, anc);
          log := log + [Event(anc, false)];
          if !visit(log) {
            return log, true;
          }
        }
        assert anc[|anc| - 1] == tok;
        toks, cursors, anc := toks[..k], cursors[..k], anc[..|anc| - 1];
        continue;
      }
      Descends(visit, log, toks, cursors, anc);
      var next := cursors[k].CurrentChild().value;
      toks, cursors := toks + [next], cursors[k := cursors[k].Advance()] + [NEW_CURSOR];
    }
    aborted := false;
    NothingLeft(visit, log, cursors, anc);
  }

  lemma StartsOk(toks: seq<Node>, cursors: seq<ChildCursor>)
    requires |toks| == |cursors| && forall i :: 0 <= i < |toks| ==> cursors[i] == NEW_CURSOR
    ensures StackOk(toks, cursors, [])
  {
  }

  lemma NothingLeft(visit: Visitor, log: seq<Event>, cursors: seq<ChildCursor>, anc: seq<Node>)
    requires |cursors| == 0
    ensures Finish(visit, log, [], cursors, anc) == Outcome(log, false)
  {
  }

  lemma Leaves(visit: Visitor, log: seq<Event>, toks: seq<Node>, cursors: seq<ChildCursor>, anc: seq<Node>)
    requires StackOk(toks, cursors, anc) && toks != [] && !cursors[|toks| - 1].IsNull()
    requires cursors[|toks| - 1].Size() == 0
    ensures var k, left := |toks| - 1, log + [Event(anc, false)];
            Finish(visit, log, toks, cursors, anc) ==
            if visit(left) then Finish(visit, left, toks[..k], cursors[..k], if anc == [] then []
              else anc[..|anc| - 1]) else Outcome(left, true)
  {
    hide Walk, WalkAll;
    var c := cursors[|toks| - 1];
    assert c.children.value[c.index..] == [];
    NoNodes(visit, log, anc);
  }

  lemma NoNodes(visit: Visitor, log: seq<Event>, above: seq<Node>)
    ensures WalkAll(visit, log, above, []) == Outcome(log, false)
  {
  }

  predicate IsPath(roots: seq<Node>, path: seq<Node>) {
    && |path| > 0 && path[0] in roots
    && forall i :: 0 < i < |path| ==> path[i] in ChildrenOf(path[i - 1])
  }

  // Event j leaves a node that an earlier call entered, was allowed to open, and found children in.
  predicate LeavesEntered(visit: Visitor, log: seq<Event>, j: nat)
    requires j < |log| && |log[j].path| > 0
  {
    exists i :: 0 <= i < j && log[i] == Event(log[j].path, true) && visit(log[..i + 1])
      && ChildrenOf(Last(log[i].path)) != []
  }

  function Last(path: seq<Node>): Node
    requires |path| > 0
  {
    path[|path| - 1]
  }

  // What a walk adds to a history: real paths below `above`, exits only of opened nodes, and no refused exit but a
  // last one.
  predicate GoodTail(visit: Visitor, roots: seq<Node>, from: seq<Event>, o: Outcome) {
    && |from| <= |o.log| && o.log[..|from|] == from
    && (forall j :: |from| <= j < |o.log| ==> IsPath(roots, o.log[j].path))
    && (forall j :: |from| <= j < |o.log| && !o.log[j].enter ==> LeavesEntered(visit, o.log, j))
    && (forall j :: |from| <= j < |o.log| - 1 && !o.log[j].enter ==> visit(o.log[..j + 1]))
    && (o.aborted ==> |from| < |o.log| && !o.log[|o.log| - 1].enter && !visit(o.log))
    && (!o.aborted && |from| < |o.log| && !o.log[|o.log| - 1].enter ==> visit(o.log))
  }

  lemma PathGrows(roots: seq<Node>, above: seq<Node>, n: Node)
    requires if above == [] then n in roots else IsPath(roots, above) && n in ChildrenOf(Last(above))
    ensures IsPath(roots, above + [n])
  {
  }

  lemma TailsJoin(visit: Visitor, roots: seq<Node>, a: seq<Event>, b: Outcome, c: Outcome)
    requires GoodTail(visit, roots, a, b) && !b.aborted && GoodTail(visit, roots, b.log, c)
    ensures GoodTail(visit, roots, a, c)
  {
    forall j | |a| <= j < |c.log| && !c.log[j].enter
      ensures LeavesEntered(visit, c.log, j)
    {
      if j < |b.log| {
        assert c.log[j] == b.log[j];
        var i :| 0 <= i < j && b.log[i] == Event(b.log[j].path, true) && visit(b.log[..i + 1])
          && ChildrenOf(Last(b.log[i].path)) != [];
        assert c.log[..i + 1] == b.log[..i + 1] && c.log[i] == b.log[i];
      }
    }
    forall j | |a| <= j < |c.log| - 1 && !c.log[j].enter
      ensures visit(c.log[..j + 1])
    {
      if j < |b.log| {
        assert c.log[..j + 1] == b.log[..j + 1];
        assert j == |b.log| - 1 ==> b.log[..j + 1] == b.log;
      }
    }
    forall j | |a| <= j < |c.log|
      ensures IsPath(roots, c.log[j].path)
    {
      assert j < |b.log| ==> c.log[j] == b.log[j];
    }
    assert c.log[..|a|] == c.log[..|b.log|][..|a|];
    if |b.log| == |c.log| {
      assert c.log == b.log;
    }
  }

  // One more event after a history.
  lemma OneMore(visit: Visitor, roots: seq<Node>, from: seq<Event>, e: Event)
    requires IsPath(roots, e.path) && (e.enter || LeavesEntered(visit, from + [e], |from|))
    ensures GoodTail(visit, roots, from, Outcome(from + [e], !e.enter && !visit(from + [e])))
  {
    assert (from + [e])[..|from|] == from;
  }

  lemma {:induction false} WalkIsGood(visit: Visitor, roots: seq<Node>, log: seq<Event>, above: seq<Node>, n: Node)
    requires if above == [] then n in roots else IsPath(roots, above) && n in ChildrenOf(Last(above))
    ensures GoodTail(visit, roots, log, Walk(visit, log, above, n))
    decreases n
  {
    hide IsPath, GoodTail, LeavesEntered;
    var path := above + [n];
    var entered := log + [Event(path, true)];
    PathGrows(roots, above, n);
    OneMore(visit, roots, log, Event(path, true));
    if visit(entered) && ChildrenOf(n) != [] {
      var inner := WalkAll(visit, entered, path, ChildrenOf(n));
      WalkAllIsGood(visit, roots, entered, path, ChildrenOf(n));
      TailsJoin(visit, roots, log, Outcome(entered, false), inner);
      if !inner.aborted {
        ExitIsMatched(visit, roots, log, path, inner);
        OneMore(visit, roots, inner.log, Event(path, false));
        TailsJoin(visit, roots, log, inner,
                  Outcome(inner.log + [Event(path, false)], !visit(inner.log + [Event(path, false)])));
      }
    }
  }

  lemma ExitIsMatched(visit: Visitor, roots: seq<Node>, log: seq<Event>, path: seq<Node>, inner: Outcome)
    requires |path| > 0 && GoodTail(visit, roots, log + [Event(path, true)], inner)
    requires visit(log + [Event(path, true)]) && ChildrenOf(Last(path)) != []
    ensures LeavesEntered(visit, inner.log + [Event(path, false)], |inner.log|)
  {
    var left, i := inner.log + [Event(path, false)], |log|;
    assert inner.log[..i + 1] == log + [Event(path, true)];
    assert left[..i + 1] == inner.log[..i + 1] && left[i] == inner.log[..i + 1][i];
  }

  lemma {:induction false} WalkAllIsGood(visit: Visitor, roots: seq<Node>, log: seq<Event>, above: seq<Node>,
                                         nodes: seq<Node>)
    requires forall n :: n in nodes ==> if above == [] then n in roots
      else IsPath(roots, above) && n in ChildrenOf(Last(above))
    ensures GoodTail(visit, roots, log, WalkAll(visit, log, above, nodes))
    decreases nodes
  {
    hide IsPath;
    if nodes != [] {
      WalkIsGood(visit, roots, log, above, nodes[0]);
      var first := Walk(visit, log, above, nodes[0]);
      if !first.aborted {
        WalkAllIsGood(visit, roots, first.log, above, nodes[1..]);
        TailsJoin(visit, roots, log, first, WalkAll(visit, first.log, above, nodes[1..]));
      }
    }
  }

  // For every visitor: each call is given a real path from a root; a node is left only after it was entered, opened and
  // found to have children; and the walk stops at once, and only, when an exit is refused.
  lemma WalkIsDisciplined(visit: Visitor, roots: seq<Node>)
    ensures var o := WalkAll(visit, [], [], roots);
            && (forall j :: 0 <= j < |o.log| ==> IsPath(roots, o.log[j].path))
            && (forall j :: 0 <= j < |o.log| && !o.log[j].enter ==> LeavesEntered(visit, o.log, j))
            && (forall j :: 0 <= j < |o.log| && !o.log[j].enter && !visit(o.log[..j + 1]) ==>
              j == |o.log| - 1 && o.aborted)
            && (o.aborted ==> |o.log| > 0 && !o.log[|o.log| - 1].enter && !visit(o.log))
  {
    WalkAllIsGood(visit, roots, [], [], roots);
    var o := WalkAll(visit, [], [], roots);
    assert |o.log| > 0 ==> o.log[..|o.log| - 1 + 1] == o.log;
  }

  // All nodes in the order a parent comes before its children, and the inner nodes in the order it comes after them.
  function Preorder(nodes: seq<Node>): seq<Node>
    decreases nodes
  {
    if nodes == [] then []
    else [nodes[0]] + (if nodes[0].Branch? then Preorder(nodes[0].children) else []) + Preorder(nodes[1..])
  }

  function InnerPostorder(nodes: seq<Node>): seq<Node>
    decreases nodes
  {
    if nodes == [] then []
    else (if nodes[0].Branch? && nodes[0].children != [] then InnerPostorder(nodes[0].children) + [nodes[0]]
      else []) + InnerPostorder(nodes[1..])
  }

  function Visits(log: seq<Event>, enter: bool): seq<Node> {
    if log == [] then []
    else
      var e := log[|log| - 1];
      Visits(log[..|log| - 1], enter) + (if e.enter == enter && |e.path| > 0 then [Last(e.path)] else [])
  }

  lemma VisitsOneMore(log: seq<Event>, e: Event, enter: bool)
    ensures Visits(log + [e], enter) == Visits(log, enter) + (if e.enter == enter && |e.path| > 0 then [Last(e.path)]
      else [])
  {
    assert (log + [e])[..|log|] == log;
  }

  lemma PreorderStep(nodes: seq<Node>)
    requires nodes != []
    ensures Preorder(nodes) == [nodes[0]] + Preorder(ChildrenOf(nodes[0])) + Preorder(nodes[1..])
    ensures InnerPostorder(nodes) ==
            (if ChildrenOf(nodes[0]) != [] then InnerPostorder(ChildrenOf(nodes[0])) + [nodes[0]]
              else []) + InnerPostorder(nodes[1..])
  {
  }

  // A visitor that never refuses sees every node: entered in preorder, left, where there are children, in postorder.
  lemma {:induction false} AcceptingWalkIsComplete(visit: Visitor, log: seq<Event>, above: seq<Node>, nodes: seq<Node>)
    requires forall h: seq<Event> :: visit(h)
    ensures var o := WalkAll(visit, log, above, nodes);
            && !o.aborted && Visits(o.log, true) == Visits(log, true) + Preorder(nodes)
            && Visits(o.log, false) == Visits(log, false) + InnerPostorder(nodes)
    decreases nodes
  {
    hide Visits, Preorder, InnerPostorder;
    if nodes == [] {
      NoVisits();
    } else {
      var n, path := nodes[0], above + [nodes[0]];
      var entered := log + [Event(path, true)];
      VisitsOneMore(log, Event(path, true), true);
      VisitsOneMore(log, Event(path, true), false);
      WalkSteps(visit, log, above, n);
      WalkAllSteps(visit, log, above, nodes);
      if ChildrenOf(n) != [] {
        AcceptingWalkIsComplete(visit, entered, path, ChildrenOf(n));
        var inner := WalkAll(visit, entered, path, ChildrenOf(n));
        VisitsOneMore(inner.log, Event(path, false), true);
        VisitsOneMore(inner.log, Event(path, false), false);
      } else {
        NoVisits();
      }
      AcceptingWalkIsComplete(visit, Walk(visit, log, above, n).log, above, nodes[1..]);
      PreorderStep(nodes);
    }
  }

  lemma NoVisits()
    ensures Preorder([]) == [] && InnerPostorder([]) == []
  {
  }

  // A visitor that refuses to open anything is shown the roots and nothing else.
  lemma {:induction false} RefusingWalkIsShallow(visit: Visitor, log: seq<Event>, nodes: seq<Node>)
    requires forall h: seq<Event> :: !visit(h)
    ensures WalkAll(visit, log, [], nodes)
      == Outcome(log + seq(|nodes|, i requires 0 <= i < |nodes| => Event([nodes[i]], true)), false)
    decreases nodes
  {
    if nodes != [] {
      WalkSteps(visit, log, [], nodes[0]);
      assert [] + [nodes[0]] == [nodes[0]];
      RefusingWalkIsShallow(visit, log + [Event([nodes[0]], true)], nodes[1..]);
      var rest := seq(|nodes| - 1, i requires 0 <= i < |nodes| - 1 => Event([nodes[1..][i]], true));
      assert log + [Event([nodes[0]], true)] + rest ==
             log + seq(|nodes|, i requires 0 <= i < |nodes| => Event([nodes[i]], true));
    }
  }
}
