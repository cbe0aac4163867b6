/** The static indices the scheduler is built with: parents and children by
    index, the rolling sets and their roots. */
module Indexing {
  import opened Graphs
  import opened Policy

  // The node index of every parent key that has one, in order.
  function Indices(index: map<string, nat>, keys: seq<string>): (r: seq<nat>)
    ensures forall p :: p in r ==> exists k :: 0 <= k < |keys| && keys[k] in index && index[keys[k]] == p
  {
    if keys == [] then []
    else
      var n := |keys| - 1;
      Indices(index, keys[..n]) + if keys[n] in index then [index[keys[n]]] else []
  }

  // The index of each key: the last node that carries it.
  ghost predicate IndexesKeys(nodes: seq<Node>, index: map<string, nat>)
  {
    && (forall key :: key in index ==> index[key] < |nodes| && nodes[index[key]].key == key)
    && (forall i :: 0 <= i < |nodes| ==> nodes[i].key in index && index[nodes[i].key] >= i)
  }

  method IndexNodes(nodes: seq<Node>) returns (index: map<string, nat>)
    ensures IndexesKeys(nodes, index)
  {
    index := map[];
    for i := 0 to |nodes|
      invariant forall key :: key in index ==> index[key] < i && nodes[index[key]].key == key
      invariant forall k :: 0 <= k < i ==> nodes[k].key in index && index[nodes[k].key] >= k
    {
      index := index[nodes[i].key := i];
    }
  }

  // children lists, for each node, the nodes that list it as a parent.
  ghost predicate Transposed(n: nat, parents: seq<seq<nat>>, children: seq<seq<nat>>)
  {
    && |parents| == |children| == n
    && (forall c: nat, p: nat {:trigger p in parents[c]} :: c < n && p in parents[c] ==> p < n && c in children[p])
    && (forall p: nat, c: nat {:trigger c in children[p]} :: p < n && c in children[p] ==> c < n && p in parents[c])
  }

  lemma TransposeOneMore(n: nat, parents: seq<seq<nat>>, children: seq<seq<nat>>, c: nat, p: nat)
    requires Transposed(n, parents, children) && c < n && p < n
    ensures Transposed(n, parents[c := parents[c] + [p]], children[p := children[p] + [c]])
  {
  }

  // Node i once for each of its parent keys that names p.
  function Copies(index: map<string, nat>, keys: seq<string>, p: nat, i: nat): (r: seq<nat>)
    ensures forall k :: 0 <= k < |r| ==> r[k] == i
  {
    if keys == [] then []
    else
      var n := |keys| - 1;
      Copies(index, keys[..n], p, i) + if keys[n] in index && index[keys[n]] == p then [i] else []
  }

  // The children of p among the first n nodes, in index order.
  function ChildrenOf(index: map<string, nat>, nodes: seq<Node>, p: nat, n: nat): (r: seq<nat>)
    requires n <= |nodes|
    ensures forall k :: 0 <= k < |r| ==> r[k] < n
    ensures forall j, k :: 0 <= j < k < |r| ==> r[j] <= r[k]
  {
    if n == 0 then [] else ChildrenOf(index, nodes, p, n - 1) + Copies(index, nodes[n - 1].parents, p, n - 1)
  }

  lemma {:induction false} CopiesCount(index: map<string, nat>, keys: seq<string>, p: nat, i: nat)
    ensures |Copies(index, keys, p, i)| == multiset(Indices(index, keys))[p]
  {
    if keys != [] {
      CopiesCount(index, keys[..|keys| - 1], p, i);
    }
  }

  lemma {:induction false} AllAlike(xs: seq<nat>, x: nat, c: nat)
    requires forall k :: 0 <= k < |xs| ==> xs[k] == x
    ensures multiset(xs)[c] == if c == x then |xs| else 0
  {
    if xs != [] {
      AllAlike(xs[..|xs| - 1], x, c);
      assert xs == xs[..|xs| - 1] + [x];
    }
  }

  /** Node c is a child of p as often as p is a parent of c. */
  lemma {:induction false} ChildrenCount(index: map<string, nat>, nodes: seq<Node>, p: nat, c: nat, n: nat)
    requires n <= |nodes|
    ensures multiset(ChildrenOf(index, nodes, p, n))[c] ==
            if c < n then multiset(Indices(index, nodes[c].parents))[p] else 0
  {
    hide Indices, Copies, ChildrenOf;
    if n == 0 {
      NoKeys(index, nodes);
    } else {
      var a, b := ChildrenOf(index, nodes, p, n - 1), Copies(index, nodes[n - 1].parents, p, n - 1);
      ChildrenCount(index, nodes, p, c, n - 1);
      ChildrenOneMore(index, nodes, n - 1);
      CopiesCount(index, nodes[n - 1].parents, p, n - 1);
      AllAlike(b, n - 1, c);
      CountOfSum(a, b, c);
    }
  }

  lemma CountOfSum(a: seq<nat>, b: seq<nat>, c: nat)
    ensures multiset(a + b)[c] == multiset(a)[c] + multiset(b)[c]
  {
  }

  lemma CopiesOneMore(index: map<string, nat>, keys: seq<string>, k: nat, p: nat, i: nat)
    requires k < |keys|
    ensures Copies(index, keys[..k + 1], p, i) ==
            Copies(index, keys[..k], p, i) + if keys[k] in index && index[keys[k]] == p then [i] else []
  {
    assert keys[..k + 1][..k] == keys[..k];
  }

  /** The graph newEngine builds: the parents of each node are the nodes its keys
      name, in their order, and the children are the other direction, in index
      order. */
  method Build(nodes: seq<Node>) returns (g: Graph, index: map<string, nat>)
    ensures g.nodes == nodes && Linked(g) && IndexesKeys(nodes, index)
    ensures forall i :: 0 <= i < |nodes| ==> g.parents[i] == Indices(index, nodes[i].parents)
    ensures forall p :: 0 <= p < |nodes| ==> g.children[p] == ChildrenOf(index, nodes, p, |nodes|)
  {
    hide Indices, Copies, ChildrenOf;
    index := IndexNodes(nodes);
    var parents: seq<seq<nat>> := seq(|nodes|, _ => []);
    var children: seq<seq<nat>> := seq(|nodes|, _ => []);
    NoKeys(index, nodes);
    for i := 0 to |nodes|
      invariant Transposed(|nodes|, parents, children)
      invariant forall c :: 0 <= c < i ==> parents[c] == Indices(index, nodes[c].parents)
      invariant forall c :: i <= c < |nodes| ==> parents[c] == []
      invariant forall p :: 0 <= p < |nodes| ==> children[p] == ChildrenOf(index, nodes, p, i)
    {
      var keys := nodes[i].parents;
      ghost var before := children;
      for k := 0 to |keys|
        invariant Transposed(|nodes|, parents, children)
        invariant forall c :: 0 <= c < i ==> parents[c] == Indices(index, nodes[c].parents)
        invariant forall c :: i < c < |nodes| ==> parents[c] == []
        invariant parents[i] == Indices(index, keys[..k])
        invariant forall p :: 0 <= p < |nodes| ==> children[p] == before[p] + Copies(index, keys[..k], p, i)
      {
        IndicesOneMore(index, keys, k);
        forall p | 0 <= p < |nodes|
          ensures Copies(index, keys[..k + 1], p, i) ==
                  Copies(index, keys[..k], p, i) + if keys[k] in index && index[keys[k]] == p then [i] else []
        {
          CopiesOneMore(index, keys, k, p, i);
        }
        if keys[k] in index {
          var p := index[keys[k]];
          TransposeOneMore(|nodes|, parents, children, i, p);
          parents := parents[i := parents[i] + [p]];
          children := children[p := children[p] + [i]];
        }
      }
      assert keys[..|keys|] == keys;
      ChildrenOneMore(index, nodes, i);
    }
    g := Graph(nodes, parents, children);
  }

  lemma NoKeys(index: map<string, nat>, nodes: seq<Node>)
    ensures Indices(index, []) == [] && forall p, i :: Copies(index, [], p, i) == []
    ensures forall p :: ChildrenOf(index, nodes, p, 0) == []
  {
  }

  lemma IndicesOneMore(index: map<string, nat>, keys: seq<string>, k: nat)
    requires k < |keys|
    ensures Indices(index, keys[..k + 1]) ==
            Indices(index, keys[..k]) + if keys[k] in index then [index[keys[k]]] else []
  {
    assert keys[..k + 1][..k] == keys[..k];
  }

  lemma ChildrenOneMore(index: map<string, nat>, nodes: seq<Node>, i: nat)
    requires i < |nodes|
    ensures forall p :: ChildrenOf(index, nodes, p, i + 1) ==
                        ChildrenOf(index, nodes, p, i) + Copies(index, nodes[i].parents, p, i)
  {
  }

  // The members of a rolling set below n, in index order.
  function Members(g: Graph, roll: string, n: nat): (r: seq<nat>)
    requires n <= |g.nodes|
    ensures forall i: nat :: i in r <==> i < n && g.nodes[i].roll == roll
  {
    if n == 0 then [] else Members(g, roll, n - 1) + if g.nodes[n - 1].roll == roll then [n - 1] else []
  }

  ghost predicate IndexesSets(g: Graph, sets: map<string, seq<nat>>, n: nat)
    requires n <= |g.nodes|
  {
    && (forall roll :: roll in sets ==> roll != "" && sets[roll] == Members(g, roll, n))
    && (forall i :: 0 <= i < n && g.nodes[i].roll != "" ==> g.nodes[i].roll in sets)
  }

  method IsRollRoot(g: Graph, i: nat) returns (root: bool)
    requires Linked(g) && i < |g.nodes| && g.nodes[i].roll != ""
    ensures root <==> RollRoot(g, i)
  {
    root := true;
    assert forall a :: 0 <= a < |g.parents[i]| ==> g.parents[i][a] in g.parents[i];
    var k := 0;
    while k < |g.parents[i]| && root
      invariant k <= |g.parents[i]|
      invariant forall a :: 0 <= a < |g.parents[i]| ==> g.parents[i][a] < |g.nodes|
      invariant root ==> forall a :: 0 <= a < k ==> g.nodes[g.parents[i][a]].roll != g.nodes[i].roll
      invariant !root ==> exists p :: p in g.parents[i] && g.nodes[p].roll == g.nodes[i].roll
    {
      var p := g.parents[i][k];
      assert p in g.parents[i];
      if g.nodes[p].roll == g.nodes[i].roll {
        root := false;
      }
      k := k + 1;
    }
    if root {
      forall p | p in g.parents[i]
        ensures g.nodes[p].roll != g.nodes[i].roll
      {
        var a :| 0 <= a < |g.parents[i]| && g.parents[i][a] == p;
      }
    }
  }

  lemma {:induction false} NoMembers(g: Graph, roll: string, n: nat)
    requires n <= |g.nodes| && forall i :: 0 <= i < n ==> g.nodes[i].roll != roll
    ensures Members(g, roll, n) == []
  {
    if n > 0 {
      NoMembers(g, roll, n - 1);
    }
  }

  lemma NoSets(g: Graph)
    ensures IndexesSets(g, map[], 0)
  {
  }

  // The sets with one more node taken into account.
  function WithMember(g: Graph, sets: map<string, seq<nat>>, n: nat): map<string, seq<nat>>
    requires n < |g.nodes|
  {
    var roll := g.nodes[n].roll;
    if roll == "" then sets else sets[roll := (if roll in sets then sets[roll] else []) + [n]]
  }

  lemma OneMoreMember(g: Graph, sets: map<string, seq<nat>>, n: nat)
    requires n < |g.nodes| && IndexesSets(g, sets, n)
    ensures IndexesSets(g, WithMember(g, sets, n), n + 1)
  {
    var roll := g.nodes[n].roll;
    if roll != "" && roll !in sets {
      NoMembers(g, roll, n);
    }
  }

  /** The rolling sets by their Roll value, in index order, and their roots. */
  method IndexSets(g: Graph) returns (eager: bool, sets: map<string, seq<nat>>, rollRoot: seq<bool>)
    requires Linked(g)
    ensures eager <==> exists i :: 0 <= i < |g.nodes| && g.nodes[i].Eager()
    ensures IndexesSets(g, sets, |g.nodes|)
    ensures |rollRoot| == |g.nodes| && forall i :: 0 <= i < |g.nodes| ==> (rollRoot[i] <==> RollRoot(g, i))
  {
    hide IndexesSets;
    eager, sets, rollRoot := false, map[], [];
    assert IndexesSets(g, sets, 0) by { NoSets(g); }
    for i := 0 to |g.nodes|
      invariant eager <==> exists k :: 0 <= k < i && g.nodes[k].Eager()
      invariant IndexesSets(g, sets, i)
      invariant |rollRoot| == i && forall k :: 0 <= k < i ==> (rollRoot[k] <==> RollRoot(g, k))
    {
      var nd := g.nodes[i];
      OneMoreMember(g, sets, i);
      if nd.pinned || nd.roll != "" {
        eager := true;
      }
      var root := false;
      if nd.roll != "" {
        sets := sets[nd.roll := (if nd.roll in sets then sets[nd.roll] else []) + [i]];
        root := IsRollRoot(g, i);
      }
      rollRoot := rollRoot + [root];
    }
  }

  method IsMutable(g: Graph) returns (mutable: bool)
    ensures mutable <==> Mutable(g)
  {
    mutable := false;
    var i := 0;
    while i < |g.nodes| && !mutable
      invariant i <= |g.nodes|
      invariant mutable ==> Mutable(g)
      invariant !mutable ==> forall k :: 0 <= k < i ==> !g.nodes[k].mutable
    {
      if g.nodes[i].mutable {
        mutable := true;
      }
      i := i + 1;
    }
  }
}
