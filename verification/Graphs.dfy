/** The churn graph: planned nodes with their parents and children by index, and
    the order in which a roll takes a subtree down. */
module Graphs {
  import opened Options
  import opened Finite

  // A planned resource. roll == "" marks a node outside every rolling set, and
  // mutable stands for a non-nil Mutate closure.
  datatype Node = Node(key: string, parents: seq<string>, gate: Option<nat>,
                       pinned: bool, roll: string, mutable: bool)
  {
    predicate Eager() { pinned || roll != "" }
  }

  datatype Graph = Graph(nodes: seq<Node>, parents: seq<seq<nat>>, children: seq<seq<nat>>)

  // children is the transpose of parents, and both stay inside the graph.
  ghost predicate Linked(g: Graph)
  {
    && |g.parents| == |g.nodes| && |g.children| == |g.nodes|
    && (forall c: nat, p: nat {:trigger p in g.parents[c]} :: c < |g.nodes| && p in g.parents[c] ==>
          p < |g.nodes| && c in g.children[p])
    && (forall p: nat, c: nat {:trigger c in g.children[p]} :: p < |g.nodes| && c in g.children[p] ==>
          c < |g.nodes| && p in g.parents[c])
  }

  ghost predicate IsHeight(g: Graph, h: seq<nat>)
    requires Linked(g)
  {
    && |h| == |g.nodes|
    && forall c: nat, p: nat :: c < |g.nodes| && p in g.parents[c] ==> h[c] < h[p]
  }

  // What the builders promise: no cycle, and every child of a
  // rolling node in the same set and not pinned.
  ghost predicate WellFormed(g: Graph)
  {
    && Linked(g)
    && (exists h :: IsHeight(g, h))
    && (forall c: nat, p: nat :: c < |g.nodes| && p in g.parents[c] && g.nodes[p].roll != "" ==>
          g.nodes[c].roll == g.nodes[p].roll)
    && (forall i :: 0 <= i < |g.nodes| && g.nodes[i].roll != "" ==> !g.nodes[i].pinned)
  }

  ghost function Height(g: Graph): (h: seq<nat>)
    requires WellFormed(g)
    ensures IsHeight(g, h)
  {
    var h :| IsHeight(g, h); h
  }

  // A root of a rolling set: none of its parents is in the same set.
  predicate RollRoot(g: Graph, i: nat)
    requires Linked(g) && i < |g.nodes|
  {
    g.nodes[i].roll != "" && forall p :: p in g.parents[i] ==> g.nodes[p].roll != g.nodes[i].roll
  }

  // d is a or one of its descendants.
  ghost predicate Below(g: Graph, a: nat, d: nat)
    requires WellFormed(g) && a < |g.nodes|
    decreases Height(g)[a]
  {
    d == a || exists c :: c in g.children[a] && Height(g)[c] < Height(g)[a] && Below(g, c, d)
  }

  // Every parent of a member is a member.
  ghost predicate ParentClosed(g: Graph, alive: set<nat>)
    requires Linked(g)
  {
    forall c :: c in alive ==> c < |g.nodes| && forall p :: p in g.parents[c] ==> p in alive
  }

  lemma {:induction false} AncestorsStay(g: Graph, alive: set<nat>, a: nat, d: nat)
    requires WellFormed(g) && ParentClosed(g, alive) && a < |g.nodes| && d in alive && Below(g, a, d)
    ensures a in alive
    decreases Height(g)[a]
  {
    if d != a {
      var c :| c in g.children[a] && Height(g)[c] < Height(g)[a] && Below(g, c, d);
      AncestorsStay(g, alive, c, d);
    }
  }

  lemma {:induction false} BelowChild(g: Graph, a: nat, p: nat, c: nat)
    requires WellFormed(g) && a < |g.nodes| && p < |g.nodes| && Below(g, a, p) && c in g.children[p]
    ensures Below(g, a, c)
    decreases Height(g)[a]
  {
    if p == a {
      assert Below(g, c, c);
    } else {
      var x :| x in g.children[a] && Height(g)[x] < Height(g)[a] && Below(g, x, p);
      BelowChild(g, x, p, c);
    }
  }

  lemma {:induction false} BelowIsInGraph(g: Graph, a: nat, d: nat)
    requires WellFormed(g) && a < |g.nodes| && Below(g, a, d)
    ensures d < |g.nodes| && Height(g)[d] <= Height(g)[a]
    ensures d != a ==> Height(g)[d] < Height(g)[a]
    decreases Height(g)[a]
  {
    if d != a {
      var x :| x in g.children[a] && Height(g)[x] < Height(g)[a] && Below(g, x, d);
      BelowIsInGraph(g, x, d);
    }
  }

  // A descendant of a rolling node is in the same set.
  lemma {:induction false} BelowKeepsRoll(g: Graph, a: nat, d: nat)
    requires WellFormed(g) && a < |g.nodes| && g.nodes[a].roll != "" && Below(g, a, d)
    ensures d < |g.nodes| && g.nodes[d].roll == g.nodes[a].roll && !g.nodes[d].pinned
    decreases Height(g)[a]
  {
    if d != a {
      var x :| x in g.children[a] && Height(g)[x] < Height(g)[a] && Below(g, x, d);
      BelowKeepsRoll(g, x, d);
    }
  }

  // A parent-closed set without the subtree of one node is parent-closed.
  lemma PruneKeepsClosed(g: Graph, alive: set<nat>, a: nat, rest: set<nat>)
    requires WellFormed(g) && ParentClosed(g, alive) && a < |g.nodes|
    requires rest == set d | d in alive && !Below(g, a, d)
    ensures ParentClosed(g, rest)
  {
    forall c, p | c in rest && p in g.parents[c]
      ensures p in rest
    {
      if Below(g, a, p) {
        BelowChild(g, a, p, c);
      }
    }
  }

  // Of a non-empty set of nodes, one whose parents are all outside the set.
  lemma {:induction false} Topmost(g: Graph, s: set<nat>) returns (m: nat)
    requires WellFormed(g) && s != {} && forall x :: x in s ==> x < |g.nodes|
    ensures m in s && forall p :: p in g.parents[m] ==> p !in s
    ensures forall x :: x in s ==> Height(g)[x] <= Height(g)[m]
    decreases |s|
  {
    var h := Height(g);
    m :| m in s;
    var rest := s - {m};
    if rest != {} {
      var k := Topmost(g, rest);
      if h[m] < h[k] {
        m := k;
      }
    }
    forall p | p in g.parents[m]
      ensures p !in s
    {
      assert h[m] < h[p];
      assert forall x :: x in s ==> h[x] <= h[m];
    }
  }

  ghost function Child(g: Graph, i: nat, k: nat): (c: nat)
    requires WellFormed(g) && i < |g.nodes| && k < |g.children[i]|
    ensures c < |g.nodes| && c in g.children[i] && Height(g)[c] < Height(g)[i]
  {
    assert g.children[i][k] in g.children[i];
    g.children[i][k]
  }

  /** The order in which the post-order walk of a roll deletes nodes: VisitFrom
      walks the children of i from position k on, Walk skips a child that is
      already gone, and Visit appends i itself. */
  ghost function VisitFrom(g: Graph, i: nat, k: nat, alive: set<nat>): seq<nat>
    requires WellFormed(g) && i < |g.nodes| && k <= |g.children[i]|
    decreases Height(g)[i], |g.children[i]| - k
  {
    if k == |g.children[i]| then []
    else
      var v := Walk(g, Child(g, i, k), alive);
      v + VisitFrom(g, i, k + 1, alive - Elems(v))
  }

  ghost function Walk(g: Graph, c: nat, alive: set<nat>): seq<nat>
    requires WellFormed(g) && c < |g.nodes|
    decreases Height(g)[c], |g.children[c]| + 2
  {
    if c in alive then Visit(g, c, alive) else []
  }

  ghost function Visit(g: Graph, i: nat, alive: set<nat>): seq<nat>
    requires WellFormed(g) && i < |g.nodes|
    decreases Height(g)[i], |g.children[i]| + 1
  {
    VisitFrom(g, i, 0, alive) + [i]
  }

  function Elems(s: seq<nat>): set<nat> { set x | x in s }

  // A node never comes before one of its children.
  ghost predicate ChildrenFirst(g: Graph, s: seq<nat>)
    requires Linked(g)
  {
    forall a, b :: 0 <= a < b < |s| && s[a] < |g.nodes| ==> s[b] !in g.children[s[a]]
  }

  ghost predicate Subtree(g: Graph, i: nat, alive: set<nat>, s: seq<nat>)
    requires WellFormed(g) && i < |g.nodes|
  {
    && (forall d :: d in s <==> d in alive && Below(g, i, d))
    && NoRepeats(s) && ChildrenFirst(g, s)
  }

  // What VisitFrom returns: the live nodes below a child from position k on.
  ghost predicate Subtrees(g: Graph, i: nat, k: nat, alive: set<nat>, s: seq<nat>)
    requires WellFormed(g) && i < |g.nodes| && k <= |g.children[i]|
  {
    && (forall d :: d in s <==> d in alive && exists j :: k <= j < |g.children[i]| && Below(g, Child(g, i, j), d))
    && NoRepeats(s) && ChildrenFirst(g, s)
  }

  /** The roll walk deletes exactly the root and its live descendants, each once,
      children before parents and the root last, and what stays is parent-closed. */
  lemma {:induction false} VisitDeletesSubtree(g: Graph, i: nat, alive: set<nat>)
    requires WellFormed(g) && ParentClosed(g, alive) && i in alive
    ensures Subtree(g, i, alive, Visit(g, i, alive))
    ensures var v := Visit(g, i, alive); v[|v| - 1] == i
    ensures ParentClosed(g, alive - Elems(Visit(g, i, alive)))
    decreases Height(g)[i], |g.children[i]| + 1
  {
    VisitFromDeletesSubtrees(g, i, 0, alive);
    AppendRoot(g, i, alive, VisitFrom(g, i, 0, alive));
  }

  lemma AppendRoot(g: Graph, i: nat, alive: set<nat>, w: seq<nat>)
    requires WellFormed(g) && ParentClosed(g, alive) && i in alive
    requires Subtrees(g, i, 0, alive, w)
    ensures Subtree(g, i, alive, w + [i])
    ensures ParentClosed(g, alive - Elems(w + [i]))
  {
    var v := w + [i];
    forall d
      ensures d in v <==> d in alive && Below(g, i, d)
    {
      if d in w {
        var j :| 0 <= j < |g.children[i]| && Below(g, Child(g, i, j), d);
      }
      if d in alive && Below(g, i, d) && d != i {
        var c :| c in g.children[i] && Height(g)[c] < Height(g)[i] && Below(g, c, d);
        var j :| 0 <= j < |g.children[i]| && g.children[i][j] == c;
        assert Child(g, i, j) == c;
      }
    }
    forall d | d in w
      ensures d != i && i !in g.children[d]
    {
      var j :| 0 <= j < |g.children[i]| && Below(g, Child(g, i, j), d);
      BelowIsInGraph(g, Child(g, i, j), d);
    }
    var rest := set d | d in alive && !Below(g, i, d);
    PruneKeepsClosed(g, alive, i, rest);
    assert alive - Elems(v) == rest;
  }

  lemma {:induction false} VisitFromDeletesSubtrees(g: Graph, i: nat, k: nat, alive: set<nat>)
    requires WellFormed(g) && ParentClosed(g, alive) && i < |g.nodes| && k <= |g.children[i]|
    ensures Subtrees(g, i, k, alive, VisitFrom(g, i, k, alive))
    decreases Height(g)[i], |g.children[i]| - k
  {
    if k < |g.children[i]| {
      var v := Walk(g, Child(g, i, k), alive);
      var rest := alive - Elems(v);
      WalkDeletesSubtree(g, Child(g, i, k), alive);
      VisitFromDeletesSubtrees(g, i, k + 1, rest);
      JoinSubtrees(g, i, k, alive, v, VisitFrom(g, i, k + 1, rest));
    }
  }

  lemma {:induction false} WalkDeletesSubtree(g: Graph, c: nat, alive: set<nat>)
    requires WellFormed(g) && ParentClosed(g, alive) && c < |g.nodes|
    ensures Subtree(g, c, alive, Walk(g, c, alive))
    ensures ParentClosed(g, alive - Elems(Walk(g, c, alive)))
    decreases Height(g)[c], |g.children[c]| + 2
  {
    if c in alive {
      VisitDeletesSubtree(g, c, alive);
    } else {
      forall d | d in alive
        ensures !Below(g, c, d)
      {
        if Below(g, c, d) {
          AncestorsStay(g, alive, c, d);
        }
      }
      assert alive - Elems([]) == alive;
    }
  }

  lemma JoinSubtrees(g: Graph, i: nat, k: nat, alive: set<nat>, v: seq<nat>, w: seq<nat>)
    requires WellFormed(g) && i < |g.nodes| && k < |g.children[i]|
    requires ParentClosed(g, alive)
    requires Subtree(g, Child(g, i, k), alive, v)
    requires Subtrees(g, i, k + 1, alive - Elems(v), w)
    ensures Subtrees(g, i, k, alive, v + w)
  {
    var c := Child(g, i, k);
    var s := v + w;
    forall d
      ensures d in s <==> d in alive && exists j :: k <= j < |g.children[i]| && Below(g, Child(g, i, j), d)
    {
      if d in v {
        assert Below(g, Child(g, i, k), d);
      } else if d in w {
        var j :| k + 1 <= j < |g.children[i]| && Below(g, Child(g, i, j), d);
      }
      if d in alive && exists j :: k <= j < |g.children[i]| && Below(g, Child(g, i, j), d) {
        var j :| k <= j < |g.children[i]| && Below(g, Child(g, i, j), d);
        assert j == k ==> d in v;
        assert j != k && d !in v ==> d in w;
      }
    }
    forall a, b | 0 <= a < b < |s|
      ensures s[a] != s[b]
    {
      if a < |v| <= b {
        assert s[b] in w && s[a] in v;
      }
    }
    forall a, b | 0 <= a < b < |s| && s[a] < |g.nodes|
      ensures s[b] !in g.children[s[a]]
    {
      if a < |v| <= b {
        assert s[b] in w && s[a] in v;
        if s[b] in g.children[s[a]] {
          BelowChild(g, c, s[a], s[b]);
        }
      }
    }
  }

  /** The children of a node are followed in index order: what is below one of them
      comes before what is below later ones only. */
  lemma {:induction false} VisitFollowsIndex(g: Graph, i: nat, k: nat, alive: set<nat>, a: nat, b: nat, j: nat)
    requires WellFormed(g) && ParentClosed(g, alive) && i < |g.nodes| && k <= j < |g.children[i]|
    requires a < b < |VisitFrom(g, i, k, alive)| && Below(g, Child(g, i, j), VisitFrom(g, i, k, alive)[b])
    ensures exists m :: k <= m <= j && Below(g, Child(g, i, m), VisitFrom(g, i, k, alive)[a])
    decreases |g.children[i]| - k
  {
    var v := Walk(g, Child(g, i, k), alive);
    var w := VisitFrom(g, i, k + 1, alive - Elems(v));
    WalkDeletesSubtree(g, Child(g, i, k), alive);
    VisitFromDeletesSubtrees(g, i, k + 1, alive - Elems(v));
    if a < |v| {
      assert v[a] in v;
    } else {
      assert w[b - |v|] in w;
      VisitFollowsIndex(g, i, k + 1, alive - Elems(v), a - |v|, b - |v|, j);
    }
  }
}
