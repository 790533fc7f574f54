// Union-find with path compression and union by rank.

module SiloDisjointSet {
  // The root of every element, after the classes rooted at a and b have become one class rooted at w.
  function Merge(root: seq<nat>, a: nat, b: nat, w: nat): (r: seq<nat>)
    ensures |r| == |root|
  {
    seq(|root|, i requires 0 <= i < |root| => if root[i] == a || root[i] == b then w else root[i])
  }

  predicate Rooted(root: seq<nat>) {
    forall i :: 0 <= i < |root| ==> root[i] < |root| && root[root[i]] == root[i]
  }

  predicate Same(root: seq<nat>, x: nat, y: nat)
    requires x < |root| && y < |root|
  {
    root[x] == root[y]
  }

  // Merging joins exactly the two classes.
  lemma MergeJoins(root: seq<nat>, a: nat, b: nat, w: nat, x: nat, y: nat)
    requires Rooted(root) && a < |root| && b < |root| && (w == root[a] || w == root[b]) && x < |root| && y < |root|
    ensures Rooted(Merge(root, root[a], root[b], w))
    ensures Same(Merge(root, root[a], root[b], w), x, y) <==>
      || Same(root, x, y)
      || (Same(root, x, a) && Same(root, b, y))
      || (Same(root, x, b) && Same(root, a, y))
  {
  }

  // Parents lead upwards in rank to the root.
  predicate Forest(parent: seq<nat>, rank: seq<nat>, root: seq<nat>, bound: nat) {
    && |parent| == |rank| == |root| && Rooted(root)
    && (forall i :: 0 <= i < |parent| ==> Upward(parent, rank, root, bound, i))
  }

  predicate Upward(parent: seq<nat>, rank: seq<nat>, root: seq<nat>, bound: nat, i: nat)
    requires i < |parent| == |rank| == |root|
  {
    && parent[i] < |parent| && rank[i] <= bound && root[parent[i]] == root[i]
    && (parent[i] == i <==> root[i] == i)
    && (parent[i] != i ==> rank[i] < rank[parent[i]])
  }

  lemma {:induction false} RootOutranks(parent: seq<nat>, rank: seq<nat>, root: seq<nat>, bound: nat, i: nat)
    requires Forest(parent, rank, root, bound) && i < |root|
    ensures i == root[i] || rank[i] < rank[root[i]]
    decreases bound - rank[i]
  {
    assert Upward(parent, rank, root, bound, i);
    if parent[i] != i {
      assert Upward(parent, rank, root, bound, parent[i]);
      RootOutranks(parent, rank, root, bound, parent[i]);
    }
  }

  // Pointing a node straight at its root.
  lemma CompressKeeps(parent: seq<nat>, rank: seq<nat>, root: seq<nat>, bound: nat, node: nat)
    requires Forest(parent, rank, root, bound) && node < |root| && parent[node] != node
    ensures Forest(parent[node := root[node]], rank, root, bound)
  {
    RootOutranks(parent, rank, root, bound, node);
    var parent' := parent[node := root[node]];
    forall i | 0 <= i < |parent|
      ensures Upward(parent', rank, root, bound, i)
    {
      assert Upward(parent, rank, root, bound, i);
    }
  }

  // Hanging one root below another of higher rank.
  lemma LinkKeeps(parent: seq<nat>, rank: seq<nat>, root: seq<nat>, bound: nat, low: nat, high: nat)
    requires Forest(parent, rank, root, bound) && low < |root| && high < |root| && low != high
    requires root[low] == low && root[high] == high && rank[low] < rank[high]
    ensures Forest(parent[low := high], rank, Merge(root, low, high, high), bound)
  {
    var parent', root' := parent[low := high], Merge(root, low, high, high);
    forall i | 0 <= i < |parent|
      ensures Upward(parent', rank, root', bound, i)
    {
      assert Upward(parent, rank, root, bound, i);
      assert Upward(parent, rank, root, bound, low) && Upward(parent, rank, root, bound, high);
    }
  }

  lemma BumpKeeps(parent: seq<nat>, rank: seq<nat>, root: seq<nat>, bound: nat, top: nat)
    requires Forest(parent, rank, root, bound) && top < |root| && root[top] == top
    ensures Forest(parent, rank[top := rank[top] + 1], root, bound + 1)
  {
    var rank', bound' := rank[top := rank[top] + 1], bound + 1;
    forall i | 0 <= i < |parent|
      ensures Upward(parent, rank', root, bound', i)
    {
      assert Upward(parent, rank, root, bound, i);
      assert Upward(parent, rank, root, bound, top);
    }
  }

  lemma MergeSelf(root: seq<nat>, a: nat)
    ensures Merge(root, a, a, a) == root
  {
  }

  lemma MergeSwap(root: seq<nat>, a: nat, b: nat, w: nat)
    ensures Merge(root, a, b, w) == Merge(root, b, a, w)
  {
  }

  class DisjointSet {
    var parent: seq<nat>
    var rank: seq<nat>
    ghost var root: seq<nat>
    ghost var bound: nat

    ghost predicate Valid()
      reads this
    {
      Forest(parent, rank, root, bound)
    }

    constructor ()
      ensures Valid() && root == []
    {
      parent, rank, root, bound := [], [], [], 0;
    }

    method Grow(count: nat)
      requires Valid()
      modifies this
      ensures Valid() && root == old(root) + seq(count, i requires 0 <= i < count => |old(root)| + i)
    {
      for i := 0 to count
        invariant Valid() && root == old(root) + seq(i, k requires 0 <= k < i => |old(root)| + k)
      {
        var next := |parent|;
        forall k | 0 <= k <= next
          ensures Upward(parent + [next], rank + [0], root + [next], bound, k)
        {
          assert k < next ==> Upward(parent, rank, root, bound, k);
        }
        parent, rank, root := parent + [next], rank + [0], root + [next];
      }
    }

    method FindConst(elem: nat) returns (r: nat)
      requires Valid() && elem < |root|
      ensures r == root[elem]
    {
      r := elem;
      assert Upward(parent, rank, root, bound, elem);
      while parent[r] != r
        invariant r < |parent| && root[r] == root[elem] && Upward(parent, rank, root, bound, r)
        decreases bound - rank[r]
      {
        r := parent[r];
      }
    }

    // Path compression changes parents, never roots.
    method Find(elem: nat) returns (r: nat)
      requires Valid() && elem < |root|
      modifies `parent
      ensures Valid() && r == root[elem]
    {
      r := FindConst(elem);
      var node: nat := elem;
      while parent[node] != node
        invariant Valid() && node < |parent| == |root| && root[node] == r
        decreases bound - rank[node]
      {
        assert Upward(parent, rank, root, bound, node) && Upward(parent, rank, root, bound, parent[node]);
        CompressKeeps(parent, rank, root, bound, node);
        var next := parent[node];
        parent := parent[node := r];
        node := next;
      }
    }

    method Union(a: nat, b: nat) returns (r: nat)
      requires Valid() && a < |root| && b < |root|
      modifies this
      ensures Valid()
      ensures (r == old(root)[a] || r == old(root)[b]) && root == Merge(old(root), old(root)[a], old(root)[b], r)
    {
      var rootA := Find(a);
      var rootB := Find(b);
      if rootA == rootB {
        MergeSelf(root, rootA);
        return rootA;
      }
      hide Forest, Merge;
      if rank[rootA] < rank[rootB] {
        LinkKeeps(parent, rank, root, bound, rootA, rootB);
        parent := parent[rootA := rootB];
        root := Merge(root, rootA, rootB, rootB);
        r := rootB;
      } else if rank[rootA] > rank[rootB] {
        LinkKeeps(parent, rank, root, bound, rootB, rootA);
        MergeSwap(root, rootA, rootB, rootA);
        parent := parent[rootB := rootA];
        root := Merge(root, rootA, rootB, rootA);
        r := rootA;
      } else {
        BumpKeeps(parent, rank, root, bound, rootA);
        LinkKeeps(parent, rank[rootA := rank[rootA] + 1], root, bound + 1, rootB, rootA);
        MergeSwap(root, rootA, rootB, rootA);
        parent := parent[rootB := rootA];
        rank := rank[rootA := rank[rootA] + 1];
        root := Merge(root, rootA, rootB, rootA);
        bound := bound + 1;
        r := rootA;
      }
    }
  }
}
