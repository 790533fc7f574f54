// Lowering a tree of terms into a repository of shared expressions.

module FrescoTerms {

  datatype BinOp = Sum | Prod | Sub | Div | Pow | Less | Bor

  datatype Term = Null | Text(name: string) | Real(value: real)

  datatype Tree = Leaf(term: Term) | Node(op: BinOp, left: Tree, right: Tree)

  // What variables stand for, and what a power of a list of bases to a list of exponents is; neither is fixed here.
  datatype Meaning = Meaning(vars: string -> real, pow: (seq<real>, seq<real>) -> real)

  function Quot(x: real, y: real): real {
    if y == 0.0 then 0.0 else x / y
  }

  function LeafValue(t: Term, e: Meaning): real {
    match t
    case Null => 0.0
    case Text(name) => e.vars(name)
    case Real(value) => value
  }

  // The value of a tree, read as written.
  function Value(t: Tree, e: Meaning): real {
    match t
    case Leaf(term) => LeafValue(term, e)
    case Node(op, l, r) =>
      match op
      case Sum => Value(l, e) + Value(r, e)
      case Prod => Value(l, e) * Value(r, e)
      case Sub => Value(l, e) - Value(r, e)
      case Div => Quot(Value(l, e), Value(r, e))
      case Pow => e.pow([Value(l, e)], [Value(r, e)])
      case _ => 0.0
  }

  function Total(xs: seq<real>): real {
    if xs == [] then 0.0 else Total(xs[..|xs| - 1]) + xs[|xs| - 1]
  }

  function Product(xs: seq<real>): real {
    if xs == [] then 1.0 else Product(xs[..|xs| - 1]) * xs[|xs| - 1]
  }

  // An n-ary sum or product whose first `common` operands count as they are and whose others are taken away or
  // divided out.
  function Sums(xs: seq<real>, common: nat): real
    requires common <= |xs|
  {
    Total(xs[..common]) - Total(xs[common..])
  }

  function Ratio(xs: seq<real>, common: nat): real
    requires common <= |xs|
  {
    Quot(Product(xs[..common]), Product(xs[common..]))
  }

  // The first `common` operands of a power are its bases, the others its exponents.
  function Power(xs: seq<real>, common: nat, e: Meaning): real
    requires common <= |xs|
  {
    e.pow(xs[..common], xs[common..])
  }

  predicate Lowerable(t: Tree) {
    match t
    case Leaf(term) => term != Null
    case Node(op, l, r) => op != Less && op != Bor && Lowerable(l) && Lowerable(r)
  }
}

module FrescoRepos {
  import opened FrescoTerms

  datatype Expr =
    | VarExpr(index: nat)
    | RealExpr(value: real)
    | SumExpr(children: seq<nat>, common: nat)
    | ProdExpr(children: seq<nat>, common: nat)
    | PowExpr(children: seq<nat>, common: nat)

  datatype Stored = Stored(exprs: seq<Expr>, names: seq<string>)

  function Operands(x: Expr): seq<nat> {
    if x.VarExpr? || x.RealExpr? then [] else x.children
  }

  predicate Below(children: seq<nat>, bound: nat) {
    forall k :: 0 <= k < |children| ==> children[k] < bound
  }

  // Every expression refers only to expressions stored before it.
  predicate ExprOk(s: Stored, i: nat)
    requires i < |s.exprs|
  {
    var x := s.exprs[i];
    && (x.VarExpr? ==> x.index < |s.names|) && Below(Operands(x), i)
    && (!x.VarExpr? && !x.RealExpr? ==> x.common <= |x.children|)
  }

  predicate StoredOk(s: Stored) {
    forall i :: 0 <= i < |s.exprs| ==> ExprOk(s, i)
  }

  // The value of a stored expression.
  function Eval(s: Stored, e: Meaning, i: nat): real
    requires StoredOk(s) && i < |s.exprs|
    decreases i, 1
  {
    assert ExprOk(s, i);
    match s.exprs[i]
    case VarExpr(index) => e.vars(s.names[index])
    case RealExpr(value) => value
    case SumExpr(children, common) => Sums(EvalEach(s, e, children, i), common)
    case ProdExpr(children, common) => Ratio(EvalEach(s, e, children, i), common)
    case PowExpr(children, common) => Power(EvalEach(s, e, children, i), common, e)
  }

  function EvalEach(s: Stored, e: Meaning, children: seq<nat>, bound: nat): (xs: seq<real>)
    requires StoredOk(s) && bound <= |s.exprs| && Below(children, bound)
    ensures |xs| == |children|
    decreases bound, 0, |children|
  {
    if children == [] then []
    else EvalEach(s, e, children[..|children| - 1], bound) + [Eval(s, e, children[|children| - 1])]
  }

  // s' holds everything s does, in the same places.
  predicate Extends(s: Stored, s': Stored) {
    s.exprs <= s'.exprs && s.names <= s'.names
  }

  lemma {:induction false} EvalStays(s: Stored, s': Stored, e: Meaning, i: nat)
    requires StoredOk(s) && StoredOk(s') && Extends(s, s') && i < |s.exprs|
    ensures Eval(s', e, i) == Eval(s, e, i)
    decreases i, 1
  {
    hide Sums, Ratio;
    assert ExprOk(s, i) && s'.exprs[i] == s.exprs[i];
    if !s.exprs[i].VarExpr? && !s.exprs[i].RealExpr? {
      EachStays(s, s', e, s.exprs[i].children, i);
    }
  }

  lemma {:induction false} EachStays(s: Stored, s': Stored, e: Meaning, children: seq<nat>, bound: nat)
    requires StoredOk(s) && StoredOk(s') && Extends(s, s') && bound <= |s.exprs| && Below(children, bound)
    ensures EvalEach(s', e, children, bound) == EvalEach(s, e, children, bound)
    decreases bound, 0, |children|
  {
    hide Eval;
    if children != [] {
      EachStays(s, s', e, children[..|children| - 1], bound);
      EvalStays(s, s', e, children[|children| - 1]);
    }
  }

  // What the repository makes of a tree: operands of equal operations are flattened, from both sides alike.
  function Flat(t: Tree, e: Meaning): real
    decreases t, 0
  {
    match t
    case Leaf(term) => LeafValue(term, e)
    case Node(op, l, r) => Combined(op, FlatTerms(op, l, e) + FlatTerms(op, r, e), e)
  }

  function FlatTerms(op: BinOp, t: Tree, e: Meaning): (xs: seq<real>)
    ensures |xs| > 0
    decreases t, 1
  {
    if t.Node? && t.op == op then FlatTerms(op, t.left, e) + FlatTerms(op, t.right, e) else [Flat(t, e)]
  }

  function Combined(op: BinOp, xs: seq<real>, e: Meaning): real
    requires |xs| > 0
  {
    match op
    case Sum => Sums(xs, |xs|)
    case Prod => Ratio(xs, |xs|)
    case Sub => Sums(xs, 1)
    case Div => Ratio(xs, 1)
    case Pow => Power(xs, 1, e)
    case _ => 0.0
  }

  // How many operands of `op` a tree stands for.
  function Count(op: BinOp, t: Tree): (n: nat)
    ensures n > 0
  {
    if t.Node? && t.op == op then Count(op, t.left) + Count(op, t.right) else 1
  }

  // How a tree is stored: a leaf as a variable or a number, an operation as one expression over all operands of the
  // run of equal operations it stands at, in order. All of them are common for a sum or product, and one for the
  // others.
  predicate StoredAs(s: Stored, i: nat, t: Tree)
    decreases t, 0
  {
    && i < |s.exprs|
    && match t
       case Leaf(Null) => false
       case Leaf(Text(name)) => s.exprs[i].VarExpr? && s.exprs[i].index < |s.names| && s.names[s.exprs[i].index] == name
       case Leaf(Real(value)) => s.exprs[i] == RealExpr(value)
       case Node(op, l, r) =>
         var x, n := s.exprs[i], Count(op, l);
         && (match op
             case Sum => x.SumExpr? && x.common == |x.children|
             case Prod => x.ProdExpr? && x.common == |x.children|
             case Sub => x.SumExpr? && x.common == 1
             case Div => x.ProdExpr? && x.common == 1
             case Pow => x.PowExpr? && x.common == 1
             case _ => false)
         && n <= |x.children| && StoredEach(s, x.children[..n], op, l) && StoredEach(s, x.children[n..], op, r)
  }

  predicate StoredEach(s: Stored, children: seq<nat>, op: BinOp, t: Tree)
    decreases t, 1
  {
    && |children| == Count(op, t)
    && if t.Node? && t.op == op then
         var n := Count(op, t.left);
         StoredEach(s, children[..n], op, t.left) && StoredEach(s, children[n..], op, t.right)
       else StoredAs(s, children[0], t)
  }

  lemma {:induction false} StoredStays(s: Stored, s': Stored, i: nat, t: Tree)
    requires StoredAs(s, i, t) && Extends(s, s')
    ensures StoredAs(s', i, t)
    decreases t, 0
  {
    assert s'.exprs[i] == s.exprs[i];
    if t.Node? {
      var x, n := s.exprs[i], Count(t.op, t.left);
      StoredEachStays(s, s', x.children[..n], t.op, t.left);
      StoredEachStays(s, s', x.children[n..], t.op, t.right);
    }
  }

  lemma {:induction false} StoredEachStays(s: Stored, s': Stored, children: seq<nat>, op: BinOp, t: Tree)
    requires StoredEach(s, children, op, t) && Extends(s, s')
    ensures StoredEach(s', children, op, t)
    decreases t, 1
  {
    if t.Node? && t.op == op {
      var n := Count(op, t.left);
      StoredEachStays(s, s', children[..n], op, t.left);
      StoredEachStays(s, s', children[n..], op, t.right);
    } else {
      StoredStays(s, s', children[0], t);
    }
  }

  // An expression is stored as the tree is built, and means what flattening the tree means, whatever the variables and
  // powers stand for.
  ghost predicate Lowered(s: Stored, i: nat, t: Tree) {
    StoredOk(s) && i < |s.exprs| && StoredAs(s, i, t) && forall e: Meaning :: Eval(s, e, i) == Flat(t, e)
  }

  ghost predicate LoweredEach(s: Stored, added: seq<nat>, op: BinOp, t: Tree) {
    && StoredOk(s) && |added| > 0 && Below(added, |s.exprs|) && StoredEach(s, added, op, t)
    && forall e: Meaning :: EvalEach(s, e, added, |s.exprs|) == FlatTerms(op, t, e)
  }

  lemma {:induction false} EachIgnoresBound(s: Stored, e: Meaning, children: seq<nat>, b: nat, c: nat)
    requires StoredOk(s) && b <= |s.exprs| && c <= |s.exprs| && Below(children, b) && Below(children, c)
    ensures EvalEach(s, e, children, b) == EvalEach(s, e, children, c)
    decreases |children|
  {
    hide Eval;
    if children != [] {
      EachIgnoresBound(s, e, children[..|children| - 1], b, c);
    }
  }

  lemma {:induction false} EachJoins(s: Stored, e: Meaning, xs: seq<nat>, ys: seq<nat>, b: nat)
    requires StoredOk(s) && b <= |s.exprs| && Below(xs, b) && Below(ys, b)
    ensures Below(xs + ys, b) && EvalEach(s, e, xs + ys, b) == EvalEach(s, e, xs, b) + EvalEach(s, e, ys, b)
    decreases |ys|
  {
    hide Eval;
    if ys == [] {
      assert xs + ys == xs;
    } else {
      EachJoins(s, e, xs, ys[..|ys| - 1], b);
      assert (xs + ys)[..|xs + ys| - 1] == xs + ys[..|ys| - 1];
    }
  }

  lemma LoweredEachStays(s: Stored, s': Stored, added: seq<nat>, op: BinOp, t: Tree)
    requires LoweredEach(s, added, op, t) && StoredOk(s') && Extends(s, s')
    ensures LoweredEach(s', added, op, t)
  {
    hide StoredOk, EvalEach, FlatTerms, StoredEach;
    StoredEachStays(s, s', added, op, t);
    forall e: Meaning
      ensures EvalEach(s', e, added, |s'.exprs|) == FlatTerms(op, t, e)
    {
      EachStays(s, s', e, added, |s.exprs|);
      EachIgnoresBound(s', e, added, |s.exprs|, |s'.exprs|);
    }
  }

  lemma LoweredBoth(s: Stored, xs: seq<nat>, ys: seq<nat>, op: BinOp, l: Tree, r: Tree)
    requires LoweredEach(s, xs, op, l) && LoweredEach(s, ys, op, r)
    ensures LoweredEach(s, xs + ys, op, Node(op, l, r))
  {
    hide StoredOk, EvalEach;
    assert (xs + ys)[..|xs|] == xs && (xs + ys)[|xs|..] == ys;
    forall e: Meaning
      ensures EvalEach(s, e, xs + ys, |s.exprs|) == FlatTerms(op, Node(op, l, r), e)
    {
      EachJoins(s, e, xs, ys, |s.exprs|);
    }
  }

  lemma LoweredAlone(s: Stored, i: nat, op: BinOp, t: Tree)
    requires Lowered(s, i, t) && !(t.Node? && t.op == op)
    ensures LoweredEach(s, [i], op, t)
  {
    hide StoredOk, Eval;
    forall e: Meaning
      ensures EvalEach(s, e, [i], |s.exprs|) == FlatTerms(op, t, e)
    {
      assert [i][..0] == [];
      assert EvalEach(s, e, [], |s.exprs|) == [];
    }
  }

  function Made(op: BinOp, children: seq<nat>): Expr {
    match op
    case Sum => SumExpr(children, |children|)
    case Prod => ProdExpr(children, |children|)
    case Sub => SumExpr(children, 1)
    case Div => ProdExpr(children, 1)
    case _ => PowExpr(children, 1)
  }

  function Added(s: Stored, x: Expr): Stored {
    s.(exprs := s.exprs + [x])
  }

  lemma AddKeepsStored(s: Stored, x: Expr)
    requires StoredOk(s) && ExprOk(Added(s, x), |s.exprs|)
    ensures StoredOk(Added(s, x))
  {
    forall i | 0 <= i < |Added(s, x).exprs|
      ensures ExprOk(Added(s, x), i)
    {
      assert i < |s.exprs| ==> ExprOk(s, i);
    }
  }

  lemma MadeIsStored(s: Stored, op: BinOp, children: seq<nat>, l: Tree, r: Tree)
    requires StoredEach(s, children, op, Node(op, l, r)) && op != Less && op != Bor
    ensures StoredAs(Added(s, Made(op, children)), |s.exprs|, Node(op, l, r))
  {
    var s', n := Added(s, Made(op, children)), Count(op, l);
    StoredEachStays(s, s', children[..n], op, l);
    StoredEachStays(s, s', children[n..], op, r);
  }

  // An operation over the flattened operands of a tree means what the flattened tree means.
  lemma MadeIsLowered(s: Stored, op: BinOp, children: seq<nat>, l: Tree, r: Tree)
    requires LoweredEach(s, children, op, Node(op, l, r)) && op != Less && op != Bor
    ensures Lowered(Added(s, Made(op, children)), |s.exprs|, Node(op, l, r))
  {
    hide StoredOk, Sums, Ratio, Power;
    var s' := Added(s, Made(op, children));
    assert ExprOk(s', |s.exprs|);
    MadeIsStored(s, op, children, l, r);
    AddKeepsStored(s, Made(op, children));
    forall e: Meaning
      ensures Eval(s', e, |s.exprs|) == Flat(Node(op, l, r), e)
    {
      EachStays(s, s', e, children, |s.exprs|);
    }
  }

  lemma LeafIsLowered(s: Stored, t: Term)
    requires StoredOk(s) && t != Null
    ensures match t
            case Text(name) => Lowered(Added(s.(names := s.names + [name]), VarExpr(|s.names|)), |s.exprs|, Leaf(t))
            case Real(value) => Lowered(Added(s, RealExpr(value)), |s.exprs|, Leaf(t))
  {
    match t
    case Text(name) =>
      NamesKeepStored(s, name);
      AddKeepsStored(s.(names := s.names + [name]), VarExpr(|s.names|));
    case Real(value) =>
      AddKeepsStored(s, RealExpr(value));
  }

  lemma NamesKeepStored(s: Stored, name: string)
    requires StoredOk(s)
    ensures StoredOk(s.(names := s.names + [name]))
  {
    forall i | 0 <= i < |s.exprs|
      ensures ExprOk(s.(names := s.names + [name]), i)
    {
      assert ExprOk(s, i);
    }
  }

  // Which trees CollectTree gets through without stopping.
  predicate Collectable(op: BinOp, t: Tree)
  {
    if t.Node? && t.op == op then Collectable(op, t.left) && Collectable(op, t.right) else Lowerable(t)
  }

  lemma {:induction false} CollectableIsLowerable(op: BinOp, t: Tree)
    requires op != Less && op != Bor
    ensures Collectable(op, t) <==> Lowerable(t)
  {
    if t.Node? && t.op == op {
      CollectableIsLowerable(op, t.left);
      CollectableIsLowerable(op, t.right);
    }
  }

  class Stash {
    var items: seq<nat>

    constructor ()
      ensures items == []
    {
      items := [];
    }
  }

  class ExprRepos {
    var exprs: seq<Expr>
    var names: seq<string>

    function State(): Stored
      reads this
    {
      Stored(exprs, names)
    }

    ghost predicate Valid()
      reads this
    {
      StoredOk(State())
    }

    constructor ()
      ensures Valid() && State() == Stored([], [])
    {
      exprs, names := [], [];
    }

    method Store(x: Expr) returns (index: nat)
      modifies `exprs
      ensures index == |old(exprs)| && State() == Added(old(State()), x)
    {
      index := |exprs|;
      exprs := exprs + [x];
    }

    method VarCreate(name: string) returns (index: nat)
      modifies this
      ensures index == |old(exprs)|
      ensures State() == Added(old(State()).(names := old(names) + [name]), VarExpr(|old(names)|))
    {
      var varIndex := |names|;
      names := names + [name];
      index := Store(VarExpr(varIndex));
    }

    // Push the operands of `op` that node stands for: those of both sides if node is the same operation, else one.
    method CollectTree(node: Tree, op: BinOp, stack: Stash) returns (ok: bool, ghost added: seq<nat>)
      requires Valid()
      modifies this, stack
      ensures Valid() && Extends(old(State()), State())
      ensures ok <==> Collectable(op, node)
      ensures ok ==> stack.items == old(stack.items) + added && LoweredEach(State(), added, op, node)
      decreases node, 1
    {
      hide StoredOk, Lowered, LoweredEach;
      added := [];
      if node.Node? && node.op == op {
        ghost var left, right;
        ok, left := CollectTree(node.left, op, stack);
        if ok {
          ghost var s := State();
          ok, right := CollectTree(node.right, op, stack);
          if ok {
            added := left + right;
            LoweredEachStays(s, State(), left, op, node.left);
            LoweredBoth(State(), left, right, op, node.left, node.right);
          }
        }
      } else {
        ok := TraverseTree(node, stack);
        if ok {
          added := [|exprs| - 1];
          LoweredAlone(State(), |exprs| - 1, op, node);
        }
      }
    }

    // Push exactly one entry, the tree's expression, on top of whatever the stack held. Stops at an empty leaf or an
    // operation that is not arithmetic.
    method TraverseTree(node: Tree, stack: Stash) returns (ok: bool)
      requires Valid()
      modifies this, stack
      ensures Valid() && Extends(old(State()), State())
      ensures ok <==> Lowerable(node)
      ensures ok ==> |old(exprs)| < |exprs| && stack.items == old(stack.items) + [|exprs| - 1]
      ensures ok ==> Lowered(State(), |exprs| - 1, node)
      decreases node, 0
    {
      hide StoredOk, Lowered, LoweredEach;
      ghost var s0, items0 := State(), stack.items;
      match node
      case Leaf(term) =>
        if term == Null {
          return false;
        }
        LeafIsLowered(State(), term);
        var index;
        match term {
          case Text(name) => index := VarCreate(name);
          case Real(value) => index := Store(RealExpr(value));
        }
        LoweredIsStored(State(), index, node);
        stack.items := stack.items + [index];
        ok := true;
      case Node(op, left, right) =>
        var start := |stack.items|;
        ghost var xs, ys;
        ok, xs := CollectTree(left, op, stack);
        if !ok {
          NotCollectable(op, left, right);
          return;
        }
        ghost var s1 := State();
        ok, ys := CollectTree(right, op, stack);
        if !ok {
          NotCollectable(op, left, right);
          return;
        }
        ghost var s2 := State();
        var children := stack.items[start..];
        assert children == xs + ys;
        stack.items := stack.items[..start];
        if op == Less || op == Bor {
          return false;
        }
        LoweredEachStays(s1, s2, xs, op, left);
        LoweredBoth(s2, xs, ys, op, left, right);
        MadeIsLowered(s2, op, children, left, right);
        CollectableIsLowerable(op, left);
        CollectableIsLowerable(op, right);
        var index := Store(Made(op, children));
        LoweredIsStored(State(), index, node);
        stack.items := stack.items + [index];
    }

    method PostTermTree(root: Tree) returns (ok: bool, index: nat)
      requires Valid()
      modifies this
      ensures Valid() && Extends(old(State()), State())
      ensures ok <==> Lowerable(root)
      ensures ok ==> index == |exprs| - 1 && Lowered(State(), index, root)
    {
      index := 0;
      var expressions := new Stash();
      ok := TraverseTree(root, expressions);
      if ok {
        index := expressions.items[|expressions.items| - 1];
      }
    }
  }

  lemma LoweredIsStored(s: Stored, i: nat, t: Tree)
    requires Lowered(s, i, t)
    ensures StoredOk(s) && i < |s.exprs|
  {
  }

  lemma NotCollectable(op: BinOp, l: Tree, r: Tree)
    requires !Collectable(op, l) || !Collectable(op, r)
    ensures !Lowerable(Node(op, l, r))
  {
    if op != Less && op != Bor {
      CollectableIsLowerable(op, l);
      CollectableIsLowerable(op, r);
    }
  }
}

// When lowering keeps the value of a tree, and when it does not.
module FrescoMeaning {
  import opened FrescoTerms
  import opened FrescoRepos

  predicate Is(t: Tree, op: BinOp) {
    t.Node? && t.op == op
  }

  // No subtraction, division or power is nested where flattening would change its side.
  predicate ShapeOk(t: Tree) {
    match t
    case Leaf(_) => true
    case Node(op, l, r) =>
      && ShapeOk(l) && ShapeOk(r) && (op == Sub || op == Div || op == Pow ==> !Is(r, op)) && (op == Pow ==> !Is(l, op))
  }

  predicate NoZeroDivisor(t: Tree, e: Meaning) {
    match t
    case Leaf(_) => true
    case Node(op, l, r) => NoZeroDivisor(l, e) && NoZeroDivisor(r, e) && (op == Div ==> Value(r, e) != 0.0)
  }

  lemma {:induction false} TotalJoins(xs: seq<real>, ys: seq<real>)
    ensures Total(xs + ys) == Total(xs) + Total(ys)
  {
    if ys == [] {
      assert xs + ys == xs;
    } else {
      TotalJoins(xs, ys[..|ys| - 1]);
      assert (xs + ys)[..|xs + ys| - 1] == xs + ys[..|ys| - 1];
    }
  }

  lemma {:induction false} ProductJoins(xs: seq<real>, ys: seq<real>)
    ensures Product(xs + ys) == Product(xs) * Product(ys)
  {
    if ys == [] {
      assert xs + ys == xs;
    } else {
      ProductJoins(xs, ys[..|ys| - 1]);
      assert (xs + ys)[..|xs + ys| - 1] == xs + ys[..|ys| - 1];
    }
  }

  lemma OneFactor(x: real)
    ensures Total([x]) == x && Product([x]) == x
  {
    assert [x][..0] == [];
  }

  lemma AllCommon(xs: seq<real>)
    ensures Sums(xs, |xs|) == Total(xs) && Ratio(xs, |xs|) == Product(xs)
  {
    assert xs[..|xs|] == xs && xs[|xs|..] == [];
  }

  // Taking one more operand away at the end.
  lemma OneMoreTaken(xs: seq<real>, x: real)
    requires |xs| > 0
    ensures Sums(xs + [x], 1) == Sums(xs, 1) - x
    ensures Product(xs[1..]) != 0.0 && x != 0.0 ==>
      Product((xs + [x])[1..]) != 0.0 && Ratio(xs + [x], 1) == Quot(Ratio(xs, 1), x)
  {
    assert (xs + [x])[..1] == xs[..1] && (xs + [x])[1..] == xs[1..] + [x];
    TotalJoins(xs[1..], [x]);
    ProductJoins(xs[1..], [x]);
    OneFactor(x);
    if Product(xs[1..]) != 0.0 && x != 0.0 {
      DivideTwice(Product(xs[..1]), Product(xs[1..]), x);
    }
  }

  lemma DivideTwice(n: real, p: real, x: real)
    requires p != 0.0 && x != 0.0
    ensures p * x != 0.0 && n / (p * x) == n / p / x
  {
    var q := n / p / x;
    assert q * x == n / p;
    assert q * x * p == n;
    assert q * (p * x) == n;
  }

  lemma OneOperand(x: real)
    ensures Sums([x], 1) == x && Ratio([x], 1) == x && Product([x][1..]) == 1.0
  {
    assert [x][..1] == [x] && [x][1..] == [];
    OneFactor(x);
  }

  // Lowering preserves meaning: for every well-shaped tree without zero divisors, the flattened operands make up its
  // value.
  lemma {:induction false} FlatIsValue(t: Tree, e: Meaning)
    requires Lowerable(t) && ShapeOk(t) && NoZeroDivisor(t, e)
    ensures Flat(t, e) == Value(t, e)
    decreases t, 1
  {
    hide Sums, Ratio, Total, Product;
    if t.Node? {
      var xs := FlatTerms(t.op, t.left, e) + FlatTerms(t.op, t.right, e);
      if t.op == Pow {
        FlatIsValue(t.left, e);
        FlatIsValue(t.right, e);
        assert xs == [Value(t.left, e), Value(t.right, e)] && xs[..1] == [Value(t.left, e)];
        assert xs[1..] == [Value(t.right, e)];
      } else {
        AllCommon(xs);
        TermsAreValue(t.op, t, e);
      }
    }
  }

  lemma {:induction false} TermsAreValue(op: BinOp, t: Tree, e: Meaning)
    requires Lowerable(t) && ShapeOk(t) && NoZeroDivisor(t, e)
    ensures var xs := FlatTerms(op, t, e);
            && (op == Sum ==> Total(xs) == Value(t, e)) && (op == Prod ==> Product(xs) == Value(t, e))
            && (op == Sub ==> Sums(xs, 1) == Value(t, e))
            && (op == Div ==> Product(xs[1..]) != 0.0 && Ratio(xs, 1) == Value(t, e))
    decreases t, if Is(t, op) then 0 else 2
  {
    hide Sums, Ratio, Total, Product;
    if Is(t, op) {
      var xs, ys := FlatTerms(op, t.left, e), FlatTerms(op, t.right, e);
      TermsAreValue(op, t.left, e);
      TermsAreValue(op, t.right, e);
      TotalJoins(xs, ys);
      ProductJoins(xs, ys);
      if op == Sub || op == Div {
        FlatIsValue(t.right, e);
        OneMoreTaken(xs, Value(t.right, e));
      }
    } else {
      FlatIsValue(t, e);
      OneFactor(Value(t, e));
      OneOperand(Value(t, e));
    }
  }

  // The stored expression of a well-shaped tree has the tree's value.
  lemma LoweringKeepsValue(s: Stored, i: nat, t: Tree, e: Meaning)
    requires Lowered(s, i, t) && Lowerable(t) && ShapeOk(t) && NoZeroDivisor(t, e)
    ensures Eval(s, e, i) == Value(t, e)
  {
    hide StoredOk, Eval, Flat, Value;
    LoweredIsStored(s, i, t);
    FlatIsValue(t, e);
  }

  // The operands of a run of one operation are those FlatTerms lists; each of them keeps its own value.
  predicate OperandsKept(op: BinOp, t: Tree, e: Meaning) {
    if Is(t, op) then OperandsKept(op, t.left, e) && OperandsKept(op, t.right, e) else Flat(t, e) == Value(t, e)
  }

  // The operands of a run that are reached by an even number of right turns, or by an odd one.
  function Turned(op: BinOp, t: Tree, e: Meaning, even: bool): seq<real> {
    if Is(t, op) then Turned(op, t.left, e, even) + Turned(op, t.right, e, !even)
      else if even then [Value(t, e)] else []
  }

  lemma {:induction false} FirstIsEven(op: BinOp, t: Tree, e: Meaning)
    requires OperandsKept(op, t, e)
    ensures |Turned(op, t, e, true)| > 0 && Turned(op, t, e, true)[0] == FlatTerms(op, t, e)[0]
  {
    if Is(t, op) {
      FirstIsEven(op, t.left, e);
    }
  }

  // The operands other than the leftmost that an even number of right turns leads to: what is written there is added or
  // multiplied, and is taken away or divided by once it is flattened.
  function Again(op: BinOp, t: Tree, e: Meaning): seq<real>
    requires OperandsKept(op, t, e)
  {
    FirstIsEven(op, t, e);
    Turned(op, t, e, true)[1..]
  }

  lemma TotalFromFirst(xs: seq<real>)
    requires |xs| > 0
    ensures Total(xs) == xs[0] + Total(xs[1..]) && Sums(xs, 1) == xs[0] - Total(xs[1..])
  {
    hide Total;
    assert xs == [xs[0]] + xs[1..] && xs[..1] == [xs[0]];
    TotalJoins([xs[0]], xs[1..]);
    OneFactor(xs[0]);
  }

  lemma ProductFromFirst(xs: seq<real>)
    requires |xs| > 0
    ensures Product(xs) == xs[0] * Product(xs[1..]) && Ratio(xs, 1) == Quot(xs[0], Product(xs[1..]))
  {
    hide Product, Quot;
    assert xs == [xs[0]] + xs[1..] && xs[..1] == [xs[0]];
    ProductJoins([xs[0]], xs[1..]);
    OneFactor(xs[0]);
  }

  lemma {:induction false} SubtractionRun(t: Tree, e: Meaning)
    requires OperandsKept(Sub, t, e)
    ensures Total(FlatTerms(Sub, t, e)) == Total(Turned(Sub, t, e, true)) + Total(Turned(Sub, t, e, false))
    ensures Value(t, e) == Total(Turned(Sub, t, e, true)) - Total(Turned(Sub, t, e, false))
  {
    hide Total;
    if Is(t, Sub) {
      SubtractionRun(t.left, e);
      SubtractionRun(t.right, e);
      TotalJoins(FlatTerms(Sub, t.left, e), FlatTerms(Sub, t.right, e));
      TotalJoins(Turned(Sub, t.left, e, true), Turned(Sub, t.right, e, false));
      TotalJoins(Turned(Sub, t.left, e, false), Turned(Sub, t.right, e, true));
    } else {
      OneFactor(Value(t, e));
      assert Total([]) == 0.0 by {
        TotalJoins([], [Value(t, e)]);
        assert [] + [Value(t, e)] == [Value(t, e)];
      }
    }
  }

  lemma FlatOfRun(op: BinOp, t: Tree, e: Meaning)
    requires op == Sub || op == Div
    ensures Flat(t, e) == Combined(op, FlatTerms(op, t, e), e)
  {
    hide Sums, Ratio;
    if !Is(t, op) {
      OneOperand(Flat(t, e));
    }
  }

  lemma SubtractionIsFlatWhen(t: Tree, e: Meaning)
    requires OperandsKept(Sub, t, e)
    ensures Flat(t, e) == Value(t, e) <==> Total(Again(Sub, t, e)) == 0.0
  {
    hide Total, Sums, Flat, FlatTerms, Value, OperandsKept, Turned;
    FlatOfRun(Sub, t, e);
    SubtractionRun(t, e);
    FirstIsEven(Sub, t, e);
    TotalFromFirst(FlatTerms(Sub, t, e));
    TotalFromFirst(Turned(Sub, t, e, true));
  }

  // Subtractions nested in any way: the stored expression has the value of the tree if and only if the operands after
  // the first that an even number of right turns leads to add up to nothing.
  lemma SubtractionIsKeptWhen(s: Stored, i: nat, t: Tree, e: Meaning)
    requires Lowered(s, i, t) && OperandsKept(Sub, t, e)
    ensures Eval(s, e, i) == Value(t, e) <==> Total(Again(Sub, t, e)) == 0.0
  {
    hide StoredOk, Eval, Flat, Value, Total, Again, OperandsKept;
    SubtractionIsFlatWhen(t, e);
  }

  // No divisor of a run of divisions is zero.
  predicate DivisorsOk(t: Tree, e: Meaning) {
    Is(t, Div) ==> DivisorsOk(t.left, e) && DivisorsOk(t.right, e) && Value(t.right, e) != 0.0
  }

  lemma QuotOfQuots(a: real, b: real, c: real, d: real)
    requires b != 0.0 && d != 0.0 && c / d != 0.0
    ensures c != 0.0 && b * c != 0.0 && a / b / (c / d) == a * d / (b * c)
  {
    var p, q := a / b, c / d;
    assert p * b == a && q * d == c;
    assert c != 0.0;
    var r := p / q;
    assert r * q == p;
    assert r * (b * c) == r * q * d * b;
    assert r * (b * c) == a * d;
  }

  // The products a run of divisions is made of.
  predicate RunOfDivisions(t: Tree, e: Meaning, even: seq<real>, odd: seq<real>, all: seq<real>) {
    && |even| > 0 && |all| > 0 && even[0] == all[0]
    && Product(odd) != 0.0 && Product(even[1..]) != 0.0 && Value(t, e) == Product(even) / Product(odd)
    && Product(all) == Product(even) * Product(odd) && Product(all[1..]) == Product(even[1..]) * Product(odd)
  }

  lemma TailJoins(xs: seq<real>, ys: seq<real>)
    requires |xs| > 0
    ensures (xs + ys)[1..] == xs[1..] + ys && (xs + ys)[0] == xs[0]
  {
  }

  lemma ProductsOfPairs(a: real, b: real, c: real, d: real)
    ensures a * b * (c * d) == a * d * (b * c)
  {
  }

  lemma NotZero(a: real, b: real)
    requires a != 0.0 && b != 0.0
    ensures a * b != 0.0
  {
  }

  lemma ValueOfQuots(t: Tree, e: Meaning, a: real, b: real, c: real, d: real)
    requires Is(t, Div) && b != 0.0 && d != 0.0
    requires Value(t.left, e) == a / b && Value(t.right, e) == c / d && Value(t.right, e) != 0.0
    ensures c != 0.0 && b * c != 0.0 && Value(t, e) == a * d / (b * c)
  {
    QuotOfQuots(a, b, c, d);
  }

  lemma RunsDivide(t: Tree, e: Meaning, even: seq<real>, odd: seq<real>, all: seq<real>, even': seq<real>,
                   odd': seq<real>, all': seq<real>)
    requires Is(t, Div) && RunOfDivisions(t.left, e, even, odd, all) && RunOfDivisions(t.right, e, even', odd', all')
    requires Value(t.right, e) != 0.0
    ensures RunOfDivisions(t, e, even + odd', odd + even', all + all')
  {
    hide Product, Value;
    TailJoins(even, odd');
    TailJoins(all, all');
    ProductJoins(even, odd');
    ProductJoins(odd, even');
    ProductJoins(all, all');
    ProductJoins(even[1..], odd');
    ProductJoins(all[1..], all');
    ValueOfQuots(t, e, Product(even), Product(odd), Product(even'), Product(odd'));
    NotZero(Product(even[1..]), Product(odd'));
    ProductsOfPairs(Product(even), Product(odd), Product(even'), Product(odd'));
    ProductsOfPairs(Product(even[1..]), Product(odd), Product(even'), Product(odd'));
  }

  lemma {:induction false} DivisionRun(t: Tree, e: Meaning)
    requires OperandsKept(Div, t, e) && DivisorsOk(t, e)
    ensures RunOfDivisions(t, e, Turned(Div, t, e, true), Turned(Div, t, e, false), FlatTerms(Div, t, e))
  {
    hide RunOfDivisions;
    if Is(t, Div) {
      DivisionRun(t.left, e);
      DivisionRun(t.right, e);
      RunsDivide(t, e, Turned(Div, t.left, e, true), Turned(Div, t.left, e, false), FlatTerms(Div, t.left, e),
                 Turned(Div, t.right, e, true), Turned(Div, t.right, e, false), FlatTerms(Div, t.right, e));
    } else {
      OneOperandRun(t, e);
    }
  }

  lemma OneOperandRun(t: Tree, e: Meaning)
    ensures RunOfDivisions(t, e, [Value(t, e)], [], [Value(t, e)])
  {
    OneFactor(Value(t, e));
    assert [Value(t, e)][1..] == [];
  }

  lemma QuotientsAgree(first: real, again: real, odd: real, rest: real, value: real)
    requires again != 0.0 && odd != 0.0 && rest == again * odd && value == first * again / odd
    ensures Quot(first, rest) == value <==> first == 0.0 || again * again == 1.0
  {
    NotZero(again, odd);
    var a := first / rest;
    assert a * rest == first && value * odd == first * again;
    if a == value {
      assert first * (again * again) == first by {
        assert first == value * odd * again;
      }
      assert first * (again * again - 1.0) == 0.0;
    }
    if first == 0.0 || again * again == 1.0 {
      assert first * (again * again) == first;
      assert a * rest == value * odd * again;
      assert a * rest == value * rest;
    }
  }

  lemma RunIsFlatWhen(t: Tree, e: Meaning, even: seq<real>, odd: seq<real>, all: seq<real>)
    requires RunOfDivisions(t, e, even, odd, all)
    ensures var p := Product(even[1..]); Ratio(all, 1) == Value(t, e) <==> all[0] == 0.0 || p * p == 1.0
  {
    hide Product, Value, Ratio, Quot;
    ProductFromFirst(even);
    ProductFromFirst(all);
    QuotientsAgree(all[0], Product(even[1..]), Product(odd), Product(all[1..]), Value(t, e));
  }

  lemma DivisionIsFlatWhen(t: Tree, e: Meaning)
    requires OperandsKept(Div, t, e) && DivisorsOk(t, e)
    ensures var p := Product(Again(Div, t, e));
            Flat(t, e) == Value(t, e) <==> FlatTerms(Div, t, e)[0] == 0.0 || p * p == 1.0
  {
    hide Product, Ratio, Flat, FlatTerms, Value, OperandsKept, Turned, DivisorsOk, RunOfDivisions;
    FlatOfRun(Div, t, e);
    DivisionRun(t, e);
    FirstIsEven(Div, t, e);
    RunIsFlatWhen(t, e, Turned(Div, t, e, true), Turned(Div, t, e, false), FlatTerms(Div, t, e));
  }

  // Divisions nested in any way: the stored expression has the value of the tree if and only if the first operand is
  // zero or the product of the others that an even number of right turns leads to has square one.
  lemma DivisionIsKeptWhen(s: Stored, i: nat, t: Tree, e: Meaning)
    requires Lowered(s, i, t) && OperandsKept(Div, t, e) && DivisorsOk(t, e)
    ensures var p := Product(Again(Div, t, e));
            Eval(s, e, i) == Value(t, e) <==> FlatTerms(Div, t, e)[0] == 0.0 || p * p == 1.0
  {
    hide StoredOk, Eval, Flat, Value, Product, Again, OperandsKept, DivisorsOk, FlatTerms;
    DivisionIsFlatWhen(t, e);
  }

  // A concrete case: 1 - (1 - 1) is 1, but is stored as 1 - 1 - 1.
  method RightNestedSubtraction(e: Meaning) returns (stored: real)
    ensures stored == -1.0 && Value(Node(Sub, Leaf(Real(1.0)), Node(Sub, Leaf(Real(1.0)), Leaf(Real(1.0)))), e) == 1.0
  {
    var one := Leaf(Real(1.0));
    var r := Node(Sub, one, one);
    var t := Node(Sub, one, r);
    var repos := new ExprRepos();
    var ok, index := repos.PostTermTree(t);
    assert ok;
    LoweredIsStored(repos.State(), index, t);
    stored := Eval(repos.State(), e, index);
    assert FlatTerms(Sub, r, e) == [1.0, 1.0];
    assert FlatTerms(Sub, one, e) == [1.0];
    OneOperand(1.0);
    OneMoreTaken([1.0], 1.0);
    OneMoreTaken([1.0, 1.0], 1.0);
    assert [1.0] + [1.0] == [1.0, 1.0] && [1.0, 1.0] + [1.0] == [1.0] + [1.0, 1.0];
    assert stored == Sums([1.0] + [1.0, 1.0], 1);
  }
}
