/** What the churn scheduler owns: the logical inventory, and the list of the
    operations it dispatched with the dependencies each one waits for. */
module Scheduling {
  import opened Options
  import opened Finite
  import opened Graphs

  datatype Action = Create | Delete | Mutate

  /** One dispatched operation. Operations are numbered in dispatch order.
      create is the create of the instance the operation works on (itself for a
      Create), after is the number of operations dispatched before the roll a
      Delete belongs to, and past is the transitive closure of deps, which
      PastIsReach relates to its inductive definition. */
  datatype Op = Op(node: nat, act: Action, deps: seq<nat>, parentOps: seq<nat>,
                   create: nat, after: Option<nat>, past: set<nat>)

  datatype NodeState = NodeState(present: bool, mutated: bool, create: Option<nat>, last: Option<nat>)

  // A roll in progress: the nodes still to delete, the operations every delete
  // of the roll waits for, and the number of operations before it.
  datatype Roll = Roll(left: seq<nat>, extra: seq<nat>, start: nat)

  datatype Sched = Sched(ns: seq<NodeState>, ops: seq<Op>, roll: Roll)

  function Present(ns: seq<NodeState>): set<nat>
  {
    set i | 0 <= i < |ns| && ns[i].present
  }

  function Initial(g: Graph): Sched
  {
    Sched(seq(|g.nodes|, _ => NodeState(false, false, None, None)), [], Roll([], [], 0))
  }

  // The current create operation of each parent.
  function Creates(ns: seq<NodeState>, ps: seq<nat>): (r: seq<nat>)
    requires forall k :: 0 <= k < |ps| ==> ps[k] < |ns| && ns[ps[k]].create.Some?
    ensures |r| == |ps| && forall k :: 0 <= k < |r| ==> r[k] == ns[ps[k]].create.value
  {
    if ps == [] then [] else [ns[ps[0]].create.value] + Creates(ns, ps[1..])
  }

  // The last operation of each absent node of cs that ever had one.
  function GoneLasts(ns: seq<NodeState>, cs: seq<nat>): (r: seq<nat>)
    requires forall k :: 0 <= k < |cs| ==> cs[k] < |ns|
    ensures forall c :: c in cs && !ns[c].present && ns[c].last.Some? ==> ns[c].last.value in r
    ensures forall x :: x in r ==> exists c :: c in cs && !ns[c].present && ns[c].last == Some(x)
  {
    if cs == [] then []
    else
      var rest := GoneLasts(ns, cs[1..]);
      if !ns[cs[0]].present && ns[cs[0]].last.Some? then [ns[cs[0]].last.value] + rest else rest
  }

  // The last operation of every node of a rolling set that ever had one.
  function SetLasts(g: Graph, ns: seq<NodeState>, roll: string, from: nat): (r: seq<nat>)
    requires |ns| == |g.nodes| && from <= |ns|
    ensures forall i :: from <= i < |ns| && g.nodes[i].roll == roll && ns[i].last.Some? ==> ns[i].last.value in r
    ensures forall x :: x in r ==> exists i :: 0 <= i < |ns| && g.nodes[i].roll == roll && ns[i].last == Some(x)
    decreases |ns| - from
  {
    if from == |ns| then []
    else
      var rest := SetLasts(g, ns, roll, from + 1);
      if g.nodes[from].roll == roll && ns[from].last.Some? then [ns[from].last.value] + rest else rest
  }

  function Past(ops: seq<Op>, deps: seq<nat>): set<nat>
  {
    (set d | d in deps) + (set d, x | d in deps && d < |ops| && x in ops[d].past :: x)
  }

  predicate ParentsPresent(g: Graph, ns: seq<NodeState>, i: nat)
    requires Linked(g) && |ns| == |g.nodes| && i < |ns|
  {
    forall p :: p in g.parents[i] ==> ns[p].present
  }

  predicate ChildrenAbsent(g: Graph, ns: seq<NodeState>, i: nat)
    requires Linked(g) && |ns| == |g.nodes| && i < |ns|
  {
    forall c :: c in g.children[i] ==> !ns[c].present
  }

  predicate SetWhole(g: Graph, ns: seq<NodeState>, roll: string)
    requires |ns| == |g.nodes|
  {
    forall i :: 0 <= i < |ns| && g.nodes[i].roll == roll ==> ns[i].present
  }

  // The operations the scheduler may dispatch next. While a roll is in progress
  // only its next delete is.
  predicate Legal(g: Graph, s: Sched, i: nat, act: Action)
    requires Linked(g) && |s.ns| == |g.nodes|
  {
    && i < |g.nodes|
    && match act
       case Create => s.roll.left == [] && !s.ns[i].present && ParentsPresent(g, s.ns, i)
       case Mutate => s.roll.left == [] && s.ns[i].present && g.nodes[i].mutable
                      && (!s.ns[i].mutated || g.nodes[i].pinned)
       case Delete =>
         if s.roll.left == [] then
           s.ns[i].present && !g.nodes[i].pinned && g.nodes[i].roll == "" && ChildrenAbsent(g, s.ns, i)
         else i == s.roll.left[0]
  }

  predicate MayRoll(g: Graph, s: Sched, root: nat)
    requires Linked(g) && |s.ns| == |g.nodes|
  {
    && root < |g.nodes| && s.roll.left == []
    && RollRoot(g, root) && SetWhole(g, s.ns, g.nodes[root].roll)
  }

  // Every present node and every parent of a dispatchable node has a create.
  ghost predicate Wired(g: Graph, s: Sched)
    requires Linked(g)
  {
    && |s.ns| == |g.nodes|
    && ParentClosed(g, Present(s.ns))
    && (forall i :: 0 <= i < |s.ns| ==>
          var st := s.ns[i];
          && (st.present ==> st.create.Some?)
          && (st.create.Some? <==> st.last.Some?)
          && (st.create.Some? ==>
                && st.create.value < |s.ops| && st.last.value < |s.ops|
                && s.ops[st.create.value].node == i && s.ops[st.last.value].node == i
                && s.ops[st.create.value].act == Create && s.ops[st.create.value].create == st.create.value))
  }

  // A roll in progress: what is left is present, in one set, without repeats,
  // children first, and holds every present child of what is left.
  ghost predicate RollGoing(g: Graph, s: Sched)
    requires Linked(g) && |s.ns| == |g.nodes|
  {
    var left := s.roll.left;
    left != [] ==>
      && left[0] < |g.nodes|
      && (forall k :: 0 <= k < |left| ==>
            && left[k] < |g.nodes| && s.ns[left[k]].present
            && g.nodes[left[k]].roll != "" && g.nodes[left[k]].roll == g.nodes[left[0]].roll)
      && NoRepeats(left) && ChildrenFirst(g, left)
      && (forall k, c :: 0 <= k < |left| && c in g.children[left[k]] && s.ns[c].present ==> c in left)
      && s.roll.start <= |s.ops| && (forall e :: e in s.roll.extra ==> e < |s.ops|)
  }

  function Deps(g: Graph, s: Sched, i: nat, act: Action): seq<nat>
    requires WellFormed(g) && Wired(g, s) && RollGoing(g, s) && Legal(g, s, i, act)
  {
    ParentsHaveCreates(g, s, i, act);
    (if s.ns[i].last.Some? then [s.ns[i].last.value] else [])
    + Creates(s.ns, g.parents[i])
    + (if act == Delete then GoneLasts(s.ns, g.children[i]) + (if s.roll.left == [] then [] else s.roll.extra) else [])
  }

  lemma ParentsHaveCreates(g: Graph, s: Sched, i: nat, act: Action)
    requires WellFormed(g) && Wired(g, s) && RollGoing(g, s) && Legal(g, s, i, act)
    ensures ParentsPresent(g, s.ns, i)
    ensures forall k :: 0 <= k < |g.parents[i]| ==> g.parents[i][k] < |s.ns| && s.ns[g.parents[i][k]].create.Some?
    ensures forall k :: 0 <= k < |g.children[i]| ==> g.children[i][k] < |s.ns|
    ensures act != Create ==> s.ns[i].present && s.ns[i].create.Some? && s.ns[i].last.Some? && i in Present(s.ns)
  {
    assert act != Create ==> i in Present(s.ns);
    forall p | p in g.parents[i]
      ensures s.ns[p].present
    {
      assert act != Create ==> p in Present(s.ns);
    }
    assert forall k :: 0 <= k < |g.parents[i]| ==> g.parents[i][k] in g.parents[i];
    assert forall k :: 0 <= k < |g.children[i]| ==> g.children[i][k] in g.children[i];
  }

  /** The scheduler's bookkeeping for one create, delete or mutate of node i. */
  function Dispatch(g: Graph, s: Sched, i: nat, act: Action): Sched
    requires WellFormed(g) && Wired(g, s) && RollGoing(g, s) && Legal(g, s, i, act)
  {
    ParentsHaveCreates(g, s, i, act);
    var n := |s.ops|;
    var st := s.ns[i];
    var deps := Deps(g, s, i, act);
    var rolling := s.roll.left != [];
    var op := Op(i, act, deps, Creates(s.ns, g.parents[i]), if act == Create then n else st.create.value,
                 if rolling then Some(s.roll.start) else None, Past(s.ops, deps));
    var st' := match act
      case Create => NodeState(true, false, Some(n), Some(n))
      case Delete => st.(present := false, last := Some(n))
      case Mutate => st.(mutated := true, last := Some(n));
    Sched(s.ns[i := st'], s.ops + [op], if rolling then s.roll.(left := s.roll.left[1..]) else s.roll)
  }

  ghost function StartRoll(g: Graph, s: Sched, root: nat): Sched
    requires WellFormed(g) && Wired(g, s) && MayRoll(g, s, root)
  {
    s.(roll := Roll(Visit(g, root, Present(s.ns)), SetLasts(g, s.ns, g.nodes[root].roll, 0), |s.ops|))
  }

  /** Two operations whose cloud calls must not overlap or swap: those of one
      node, and those of a node and its parent unless the parent's is a mutate. */
  predicate Conflict(g: Graph, a: Op, b: Op)
    requires Linked(g) && a.node < |g.nodes| && b.node < |g.nodes|
  {
    || a.node == b.node
    || (a.node in g.parents[b.node] && a.act != Mutate)
    || (b.node in g.parents[a.node] && b.act != Mutate)
  }

  // Operations name nodes of the graph and earlier operations.
  ghost predicate InRange(g: Graph, s: Sched)
    requires Linked(g)
  {
    && |s.ns| == |g.nodes|
    && forall j :: 0 <= j < |s.ops| ==>
         var o := s.ops[j];
         && o.node < |g.nodes| && o.create <= j
         && (o.act == Create <==> o.create == j) && |o.parentOps| == |g.parents[o.node]|
         && (forall d :: d in o.deps ==> d < j) && (forall d :: d in o.past ==> d < j)
  }

  // An operation waits for the operations it reads ids from, those its
  // instance's create read them from, and never deletes a pinned node.
  ghost predicate OpValid(g: Graph, ops: seq<Op>, j: nat)
    requires Linked(g) && j < |ops|
  {
    var o := ops[j];
    && (forall p :: p in o.parentOps ==> p in o.deps)
    && o.create < |ops| && ops[o.create].node == o.node && ops[o.create].act == Create
    && o.node < |g.nodes|
    && ops[o.create].parentOps == o.parentOps
    && (o.act == Delete ==> !g.nodes[o.node].pinned)
    && (forall d :: d in o.deps ==> d < j)
    && o.past == Past(ops, o.deps)
  }

  ghost predicate OpsValid(g: Graph, s: Sched)
    requires Linked(g)
  {
    forall j :: 0 <= j < |s.ops| ==> OpValid(g, s.ops, j)
  }

  // The operations of one node form a chain that ends in its last one.
  ghost predicate Chained(g: Graph, s: Sched)
    requires Linked(g) && InRange(g, s)
  {
    && (forall j :: 0 <= j < |s.ops| ==>
          var l := s.ns[s.ops[j].node].last;
          l.Some? && (j == l.value || (l.value < |s.ops| && j in s.ops[l.value].past)))
    && (forall j :: 0 <= j < |s.ops| && s.ns[s.ops[j].node].present && s.ops[j].act != Mutate ==>
          var c := s.ns[s.ops[j].node].create;
          c.Some? && (j == c.value || (c.value < |s.ops| && j in s.ops[c.value].past)))
  }

  // Every operation of a child is behind an absent parent's last operation.
  ghost predicate AbsentBehind(g: Graph, s: Sched)
    requires Linked(g) && InRange(g, s)
  {
    forall j, p :: 0 <= j < |s.ops| && p in g.parents[s.ops[j].node] && !s.ns[p].present ==>
      s.ns[p].last.Some? && s.ns[p].last.value < |s.ops| && j in s.ops[s.ns[p].last.value].past
  }

  ghost predicate ConflictsOrdered(g: Graph, s: Sched)
    requires Linked(g) && InRange(g, s)
  {
    forall i, j :: 0 <= i < j < |s.ops| && Conflict(g, s.ops[i], s.ops[j]) ==> i in s.ops[j].past
  }

  // No instance has two Deletes, and a current instance has none.
  ghost predicate DeletedOnce(g: Graph, s: Sched)
    requires Linked(g) && InRange(g, s)
  {
    && (forall i, j :: 0 <= i < j < |s.ops| && s.ops[i].act == Delete && s.ops[j].act == Delete ==>
          s.ops[i].create != s.ops[j].create)
    && (forall j :: 0 <= j < |s.ops| && s.ops[j].act == Delete ==> !Current(s, s.ops[j].create))
  }

  // An instance is its node's current one or has a Delete.
  ghost predicate NoneForgotten(g: Graph, s: Sched)
    requires Linked(g) && InRange(g, s)
  {
    forall c :: 0 <= c < |s.ops| && s.ops[c].act == Create && !Current(s, c) ==>
      exists d :: 0 <= d < |s.ops| && s.ops[d].act == Delete && s.ops[d].create == c
  }

  // A present node's parents are still the instances its create waited for.
  ghost predicate ParentsKept(g: Graph, s: Sched)
    requires Linked(g) && Wired(g, s) && InRange(g, s)
  {
    forall n, k :: 0 <= n < |s.ns| && s.ns[n].present && 0 <= k < |g.parents[n]| ==>
      g.parents[n][k] < |s.ns| && s.ns[g.parents[n][k]].create == Some(s.ops[s.ns[n].create.value].parentOps[k])
  }

  predicate Current(s: Sched, c: nat)
    requires c < |s.ops|
  {
    s.ops[c].node < |s.ns| && s.ns[s.ops[c].node].present && s.ns[s.ops[c].node].create == Some(c)
  }

  // Every operation a set had before a roll is behind every delete of the roll,
  // and behind what the deletes of a roll in progress wait for.
  ghost predicate RollsSerial(g: Graph, s: Sched)
    requires Linked(g) && InRange(g, s)
  {
    && (forall j :: 0 <= j < |s.ops| && s.ops[j].after.Some? ==> CoversSet(g, s, s.ops[j], s.ops[j].past))
    && (s.roll.left != [] ==> ExtraCovers(g, s))
  }

  // past holds every operation before o.after on a node of o's set.
  ghost predicate CoversSet(g: Graph, s: Sched, o: Op, past: set<nat>)
    requires Linked(g) && InRange(g, s) && o.after.Some? && o.node < |g.nodes|
  {
    && o.after.value <= |s.ops|
    && forall i :: 0 <= i < o.after.value && g.nodes[s.ops[i].node].roll == g.nodes[o.node].roll ==> i in past
  }

  ghost predicate ExtraCovers(g: Graph, s: Sched)
    requires Linked(g) && InRange(g, s) && s.roll.left != []
  {
    && s.roll.left[0] < |g.nodes|
    && forall i :: 0 <= i < |s.ops| && i < s.roll.start ==>
         g.nodes[s.ops[i].node].roll == g.nodes[s.roll.left[0]].roll ==> i in Past(s.ops, s.roll.extra)
  }

  ghost predicate Valid(g: Graph, s: Sched)
    requires WellFormed(g)
  {
    && Wired(g, s) && RollGoing(g, s) && InRange(g, s) && OpsValid(g, s) && Chained(g, s) && AbsentBehind(g, s)
    && ConflictsOrdered(g, s) && DeletedOnce(g, s) && NoneForgotten(g, s) && ParentsKept(g, s) && RollsSerial(g, s)
  }

  lemma ValidFits(g: Graph, s: Sched)
    requires WellFormed(g) && Valid(g, s)
    ensures |s.ns| == |g.nodes|
  {
  }

  lemma ValidIsWired(g: Graph, s: Sched)
    requires WellFormed(g) && Valid(g, s)
    ensures Wired(g, s) && RollGoing(g, s)
  {
  }

  lemma InitialIsValid(g: Graph)
    requires WellFormed(g)
    ensures Valid(g, Initial(g))
  {
  }

  // Past only reads the operations its deps name.
  lemma PastOfPrefix(ops: seq<Op>, op: Op, deps: seq<nat>)
    requires forall d :: d in deps ==> d < |ops|
    ensures Past(ops + [op], deps) == Past(ops, deps)
  {
  }

  lemma DispatchKeepsWired(g: Graph, s: Sched, i: nat, act: Action)
    requires WellFormed(g) && Wired(g, s) && RollGoing(g, s) && Legal(g, s, i, act)
    ensures Wired(g, Dispatch(g, s, i, act))
  {
    ParentsHaveCreates(g, s, i, act);
    var t := Dispatch(g, s, i, act);
    forall c, p | c in Present(t.ns) && p in g.parents[c]
      ensures p in Present(t.ns)
    {
      if c != i {
        assert c in Present(s.ns);
        assert c in g.children[p];
        if p == i && act == Delete && s.roll.left != [] {
          FirstIsChildless(g, s, c);
        }
      }
    }
  }

  // The first node left of a roll has no present child.
  lemma FirstIsChildless(g: Graph, s: Sched, c: nat)
    requires WellFormed(g) && Wired(g, s) && RollGoing(g, s) && s.roll.left != []
    requires c in g.children[s.roll.left[0]]
    ensures !s.ns[c].present
  {
    var left := s.roll.left;
    assert Height(g)[c] < Height(g)[left[0]];
  }

  lemma DispatchKeepsRoll(g: Graph, s: Sched, i: nat, act: Action)
    requires WellFormed(g) && Wired(g, s) && RollGoing(g, s) && Legal(g, s, i, act)
    ensures RollGoing(g, Dispatch(g, s, i, act))
  {
    var t := Dispatch(g, s, i, act);
    var left := s.roll.left;
    if left != [] {
      assert forall k :: 0 <= k < |t.roll.left| ==> t.roll.left[k] == left[k + 1];
      forall k, c | 0 <= k < |t.roll.left| && c in g.children[t.roll.left[k]] && t.ns[c].present
        ensures c in t.roll.left
      {
        assert c in left;
        assert c != left[0];
      }
    }
  }

  lemma OpValidInPrefix(g: Graph, ops: seq<Op>, o: Op, j: nat)
    requires Linked(g) && j < |ops| && OpValid(g, ops, j)
    ensures OpValid(g, ops + [o], j)
  {
    PastOfPrefix(ops, o, ops[j].deps);
  }

  lemma DepsComeBefore(g: Graph, s: Sched, i: nat, act: Action)
    requires WellFormed(g) && Wired(g, s) && RollGoing(g, s) && Legal(g, s, i, act)
    ensures forall d :: d in Deps(g, s, i, act) ==> d < |s.ops|
  {
    ParentsHaveCreates(g, s, i, act);
    var cs := Creates(s.ns, g.parents[i]);
    forall d | d in cs
      ensures d < |s.ops|
    {
      var k :| 0 <= k < |cs| && cs[k] == d;
      assert s.ns[g.parents[i][k]].create == Some(d);
    }
    forall d | d in GoneLasts(s.ns, g.children[i])
      ensures d < |s.ops|
    {
      var c :| c in g.children[i] && !s.ns[c].present && s.ns[c].last == Some(d);
    }
  }

  lemma InstanceParents(g: Graph, s: Sched, i: nat, act: Action)
    requires WellFormed(g) && Wired(g, s) && RollGoing(g, s) && InRange(g, s) && OpsValid(g, s) && ParentsKept(g, s)
    requires Legal(g, s, i, act) && act != Create
    ensures s.ns[i].present && s.ns[i].create.Some? && s.ns[i].create.value < |s.ops|
    ensures s.ops[s.ns[i].create.value].parentOps == Creates(s.ns, g.parents[i])
  {
    ParentsHaveCreates(g, s, i, act);
    var c := s.ns[i].create.value;
    assert OpValid(g, s.ops, c);
    assert s.ops[c].node == i;
  }

  lemma NewOpIsValid(g: Graph, s: Sched, i: nat, act: Action)
    requires WellFormed(g) && Wired(g, s) && RollGoing(g, s) && InRange(g, s) && OpsValid(g, s) && ParentsKept(g, s)
    requires Legal(g, s, i, act)
    ensures OpValid(g, Dispatch(g, s, i, act).ops, |s.ops|)
  {
    ParentsHaveCreates(g, s, i, act);
    DepsComeBefore(g, s, i, act);
    if act != Create {
      InstanceParents(g, s, i, act);
    }
    var ops := Dispatch(g, s, i, act).ops;
    var deps := Deps(g, s, i, act);
    PastOfPrefix(s.ops, ops[|s.ops|], deps);
    assert forall d :: d in Past(s.ops, deps) ==> d < |s.ops|;
    assert forall p :: p in Creates(s.ns, g.parents[i]) ==> p in deps;
  }

  lemma DispatchKeepsRange(g: Graph, s: Sched, i: nat, act: Action)
    requires WellFormed(g) && Wired(g, s) && RollGoing(g, s) && InRange(g, s) && Legal(g, s, i, act)
    ensures InRange(g, Dispatch(g, s, i, act))
  {
    ParentsHaveCreates(g, s, i, act);
    DepsComeBefore(g, s, i, act);
    assert forall d :: d in Past(s.ops, Deps(g, s, i, act)) ==> d < |s.ops|;
  }

  lemma DispatchKeepsOps(g: Graph, s: Sched, i: nat, act: Action)
    requires WellFormed(g) && Wired(g, s) && RollGoing(g, s) && InRange(g, s) && OpsValid(g, s) && ParentsKept(g, s)
    requires Legal(g, s, i, act)
    ensures OpsValid(g, Dispatch(g, s, i, act))
  {
    var t := Dispatch(g, s, i, act);
    NewOpIsValid(g, s, i, act);
    forall j | 0 <= j < |t.ops|
      ensures OpValid(g, t.ops, j)
    {
      if j < |s.ops| {
        OpValidInPrefix(g, s.ops, t.ops[|s.ops|], j);
      }
    }
  }

  // What a Dispatch of act on node i changes, without the dependencies.
  ghost predicate Extends(s: Sched, t: Sched, i: nat, act: Action, past: set<nat>)
  {
    && i < |s.ns| && |t.ns| == |s.ns| && |t.ops| == |s.ops| + 1
    && (forall j :: 0 <= j < |s.ops| ==> t.ops[j] == s.ops[j])
    && (forall n :: 0 <= n < |s.ns| && n != i ==> t.ns[n] == s.ns[n])
    && var o := t.ops[|s.ops|];
    && o.node == i && o.act == act && o.past == past
    && t.ns[i].last == Some(|s.ops|) && t.ns[i].present == (act != Delete)
    && (act == Create ==> o.create == |s.ops| && t.ns[i].create == Some(|s.ops|) && !s.ns[i].present)
    && (act != Create ==>
          && s.ns[i].present && t.ns[i].create == s.ns[i].create == Some(o.create)
          && o.create < |s.ops| && s.ops[o.create].node == i)
  }

  lemma DispatchExtends(g: Graph, s: Sched, i: nat, act: Action)
    requires WellFormed(g) && Wired(g, s) && RollGoing(g, s) && Legal(g, s, i, act)
    ensures Extends(s, Dispatch(g, s, i, act), i, act, Past(s.ops, Deps(g, s, i, act)))
  {
    ParentsHaveCreates(g, s, i, act);
  }

  lemma BehindDep(ops: seq<Op>, deps: seq<nat>, d: nat, x: nat)
    requires d in deps && d < |ops| && (x == d || x in ops[d].past)
    ensures x in Past(ops, deps)
  {
  }

  // A new operation is behind every earlier operation of its node.
  lemma NewIsBehindOwn(g: Graph, s: Sched, i: nat, act: Action, j: nat)
    requires WellFormed(g) && Wired(g, s) && RollGoing(g, s) && InRange(g, s) && Chained(g, s) && Legal(g, s, i, act)
    requires j < |s.ops| && s.ops[j].node == i
    ensures j in Past(s.ops, Deps(g, s, i, act))
  {
    BehindDep(s.ops, Deps(g, s, i, act), s.ns[i].last.value, j);
  }

  lemma DispatchKeepsChained(g: Graph, s: Sched, i: nat, act: Action)
    requires WellFormed(g) && Wired(g, s) && RollGoing(g, s) && InRange(g, s) && Chained(g, s) && Legal(g, s, i, act)
    requires InRange(g, Dispatch(g, s, i, act))
    ensures Chained(g, Dispatch(g, s, i, act))
  {
    forall j | 0 <= j < |s.ops| && s.ops[j].node == i
      ensures j in Past(s.ops, Deps(g, s, i, act))
    {
      NewIsBehindOwn(g, s, i, act, j);
    }
    DispatchExtends(g, s, i, act);
    ExtendKeepsChained(g, s, Dispatch(g, s, i, act), i, act, Past(s.ops, Deps(g, s, i, act)));
  }

  lemma ExtendKeepsChained(g: Graph, s: Sched, t: Sched, i: nat, act: Action, past: set<nat>)
    requires Linked(g) && InRange(g, s) && InRange(g, t) && Chained(g, s)
    requires Extends(s, t, i, act, past)
    requires forall j :: 0 <= j < |s.ops| && s.ops[j].node == i ==> j in past
    ensures Chained(g, t)
  {
  }

  // A new operation is behind every earlier conflicting operation.
  lemma NewIsBehindConflicts(g: Graph, s: Sched, i: nat, act: Action, j: nat)
    requires WellFormed(g) && Wired(g, s) && RollGoing(g, s) && InRange(g, s) && Chained(g, s)
    requires AbsentBehind(g, s) && Legal(g, s, i, act) && j < |s.ops|
    requires s.ops[j].node < |g.nodes| && Conflict(g, s.ops[j], Dispatch(g, s, i, act).ops[|s.ops|])
    ensures j in Past(s.ops, Deps(g, s, i, act))
  {
    ParentsHaveCreates(g, s, i, act);
    var deps := Deps(g, s, i, act);
    var n := s.ops[j].node;
    if n == i {
      NewIsBehindOwn(g, s, i, act, j);
    } else if n in g.parents[i] && s.ops[j].act != Mutate {
      var k :| 0 <= k < |g.parents[i]| && g.parents[i][k] == n;
      assert Creates(s.ns, g.parents[i])[k] == s.ns[n].create.value;
      assert s.ns[n].create.value in deps;
      BehindDep(s.ops, deps, s.ns[n].create.value, j);
    } else {
      assert n in g.children[i];
      if act == Delete {
        if s.roll.left != [] {
          FirstIsChildless(g, s, n);
        }
        assert s.ns[n].last.value in GoneLasts(s.ns, g.children[i]);
        assert s.ns[n].last.value in deps;
        BehindDep(s.ops, deps, s.ns[n].last.value, j);
      } else {
        assert act == Create && !s.ns[i].present;
        assert j in s.ops[s.ns[i].last.value].past;
        BehindDep(s.ops, deps, s.ns[i].last.value, j);
      }
    }
  }

  lemma DispatchKeepsAbsentBehind(g: Graph, s: Sched, i: nat, act: Action)
    requires WellFormed(g) && Wired(g, s) && RollGoing(g, s) && InRange(g, s) && Chained(g, s)
    requires AbsentBehind(g, s) && Legal(g, s, i, act)
    requires InRange(g, Dispatch(g, s, i, act))
    ensures AbsentBehind(g, Dispatch(g, s, i, act))
  {
    hide Wired, RollGoing, Chained, Deps, Past;
    forall j | 0 <= j < |s.ops| && i in g.parents[s.ops[j].node] && act != Mutate
      ensures j in Past(s.ops, Deps(g, s, i, act))
    {
      NewIsBehindConflicts(g, s, i, act, j);
    }
    CreateHasParents(g, s, i, act);
    DispatchExtends(g, s, i, act);
    ExtendKeepsAbsentBehind(g, s, Dispatch(g, s, i, act), i, act, Past(s.ops, Deps(g, s, i, act)));
  }

  // No operation is dispatched below an absent node.
  lemma CreateHasParents(g: Graph, s: Sched, i: nat, act: Action)
    requires WellFormed(g) && Wired(g, s) && RollGoing(g, s) && Legal(g, s, i, act)
    ensures forall p :: p in g.parents[i] ==> p < |s.ns| && p != i && s.ns[p].present
  {
    ParentsHaveCreates(g, s, i, act);
    assert forall p :: p in g.parents[i] ==> Height(g)[i] < Height(g)[p];
  }

  lemma ExtendKeepsAbsentBehind(g: Graph, s: Sched, t: Sched, i: nat, act: Action, past: set<nat>)
    requires Linked(g) && InRange(g, s) && InRange(g, t) && AbsentBehind(g, s) && Extends(s, t, i, act, past)
    requires forall p :: p in g.parents[i] ==> p < |s.ns| && p != i && s.ns[p].present
    requires forall j :: 0 <= j < |s.ops| && i in g.parents[s.ops[j].node] && act != Mutate ==> j in past
    ensures AbsentBehind(g, t)
  {
  }

  lemma DispatchKeepsConflicts(g: Graph, s: Sched, i: nat, act: Action)
    requires WellFormed(g) && Wired(g, s) && RollGoing(g, s) && InRange(g, s) && Chained(g, s)
    requires AbsentBehind(g, s) && ConflictsOrdered(g, s) && Legal(g, s, i, act)
    requires InRange(g, Dispatch(g, s, i, act))
    ensures ConflictsOrdered(g, Dispatch(g, s, i, act))
  {
    var t := Dispatch(g, s, i, act);
    forall j | 0 <= j < |s.ops| && Conflict(g, t.ops[j], t.ops[|s.ops|])
      ensures j in t.ops[|s.ops|].past
    {
      NewIsBehindConflicts(g, s, i, act, j);
    }
  }

  lemma DispatchKeepsDeletedOnce(g: Graph, s: Sched, i: nat, act: Action)
    requires WellFormed(g) && Wired(g, s) && RollGoing(g, s) && InRange(g, s) && DeletedOnce(g, s)
    requires Legal(g, s, i, act)
    requires var t := Dispatch(g, s, i, act); Wired(g, t) && InRange(g, t)
    ensures DeletedOnce(g, Dispatch(g, s, i, act))
  {
    DispatchExtends(g, s, i, act);
    ExtendKeepsDeletedOnce(g, s, Dispatch(g, s, i, act), i, act, Past(s.ops, Deps(g, s, i, act)));
  }

  lemma ExtendKeepsDeletedOnce(g: Graph, s: Sched, t: Sched, i: nat, act: Action, past: set<nat>)
    requires Linked(g) && InRange(g, s) && InRange(g, t) && DeletedOnce(g, s)
    requires Extends(s, t, i, act, past)
    ensures DeletedOnce(g, t)
  {
    hide Linked;
    var n := |s.ops|;
    forall j | 0 <= j < n && t.ops[j].act == Delete
      ensures t.ops[j].create < n && !Current(t, t.ops[j].create)
      ensures act == Delete ==> t.ops[j].create != t.ops[n].create
    {
      assert !Current(s, s.ops[j].create);
      assert act == Delete ==> Current(s, t.ops[n].create);
    }
  }

  lemma DispatchKeepsNoneForgotten(g: Graph, s: Sched, i: nat, act: Action)
    requires WellFormed(g) && Wired(g, s) && RollGoing(g, s) && InRange(g, s) && NoneForgotten(g, s)
    requires Legal(g, s, i, act)
    requires var t := Dispatch(g, s, i, act); Wired(g, t) && InRange(g, t)
    ensures NoneForgotten(g, Dispatch(g, s, i, act))
  {
    ParentsHaveCreates(g, s, i, act);
    var t := Dispatch(g, s, i, act);
    var n := |s.ops|;
    forall c | 0 <= c < |t.ops| && t.ops[c].act == Create && !Current(t, c)
      ensures exists d :: 0 <= d < |t.ops| && t.ops[d].act == Delete && t.ops[d].create == c
    {
      assert c < n;
      if Current(s, c) {
        assert act == Delete && t.ops[n].create == c;
      } else {
        var d :| 0 <= d < |s.ops| && s.ops[d].act == Delete && s.ops[d].create == c;
        assert t.ops[d] == s.ops[d];
      }
    }
  }

  lemma DispatchKeepsParents(g: Graph, s: Sched, i: nat, act: Action)
    requires WellFormed(g) && Wired(g, s) && RollGoing(g, s) && InRange(g, s) && ParentsKept(g, s)
    requires Legal(g, s, i, act)
    requires var t := Dispatch(g, s, i, act); Wired(g, t) && InRange(g, t)
    ensures ParentsKept(g, Dispatch(g, s, i, act))
  {
    ParentsHaveCreates(g, s, i, act);
    var t := Dispatch(g, s, i, act);
    forall n, k | 0 <= n < |t.ns| && t.ns[n].present && 0 <= k < |g.parents[n]|
      ensures g.parents[n][k] < |t.ns|
      ensures t.ns[g.parents[n][k]].create == Some(t.ops[t.ns[n].create.value].parentOps[k])
    {
      var p := g.parents[n][k];
      assert p in g.parents[n];
      if n == i && act == Create {
        assert Height(g)[i] < Height(g)[p];
        assert Creates(s.ns, g.parents[i])[k] == s.ns[p].create.value;
      } else {
        assert n in Present(s.ns) && p in Present(s.ns);
      }
    }
  }

  lemma DispatchKeepsRollsSerial(g: Graph, s: Sched, i: nat, act: Action)
    requires WellFormed(g) && Wired(g, s) && RollGoing(g, s) && InRange(g, s) && RollsSerial(g, s)
    requires Legal(g, s, i, act)
    requires InRange(g, Dispatch(g, s, i, act))
    ensures RollsSerial(g, Dispatch(g, s, i, act))
  {
    var t := Dispatch(g, s, i, act);
    var n := |s.ops|;
    DispatchExtends(g, s, i, act);
    if s.roll.left != [] {
      ExtraIsBehind(g, s, i, act);
      assert CoversSet(g, s, t.ops[n], t.ops[n].past);
      ExtendKeepsCover(g, s, t, i, act, t.ops[n], t.ops[n].past);
      if t.roll.left != [] {
        PastOfPrefix(s.ops, t.ops[n], s.roll.extra);
        assert t.roll.left[0] == s.roll.left[1];
      }
    }
    forall j | 0 <= j < n && t.ops[j].after.Some?
      ensures CoversSet(g, t, t.ops[j], t.ops[j].past)
    {
      ExtendKeepsCover(g, s, t, i, act, t.ops[j], t.ops[j].past);
    }
  }

  lemma ExtendKeepsCover(g: Graph, s: Sched, t: Sched, i: nat, act: Action, o: Op, past: set<nat>)
    requires Linked(g) && InRange(g, s) && InRange(g, t) && |t.ops| == |s.ops| + 1
    requires Extends(s, t, i, act, t.ops[|s.ops|].past)
    requires o.after.Some? && o.node < |g.nodes| && CoversSet(g, s, o, past)
    ensures CoversSet(g, t, o, past)
  {
  }

  lemma ExtraIsBehind(g: Graph, s: Sched, i: nat, act: Action)
    requires WellFormed(g) && Wired(g, s) && RollGoing(g, s) && Legal(g, s, i, act) && s.roll.left != []
    ensures forall x :: x in Past(s.ops, s.roll.extra) ==> x in Past(s.ops, Deps(g, s, i, act))
  {
    assert forall d :: d in s.roll.extra ==> d in Deps(g, s, i, act);
  }

  lemma DispatchKeepsValid(g: Graph, s: Sched, i: nat, act: Action)
    requires WellFormed(g) && Valid(g, s) && Legal(g, s, i, act)
    ensures Valid(g, Dispatch(g, s, i, act))
  {
    DispatchKeepsWired(g, s, i, act);
    DispatchKeepsRoll(g, s, i, act);
    DispatchKeepsRange(g, s, i, act);
    DispatchKeepsOps(g, s, i, act);
    DispatchKeepsChained(g, s, i, act);
    DispatchKeepsAbsentBehind(g, s, i, act);
    DispatchKeepsConflicts(g, s, i, act);
    DispatchKeepsDeletedOnce(g, s, i, act);
    DispatchKeepsNoneForgotten(g, s, i, act);
    DispatchKeepsParents(g, s, i, act);
    DispatchKeepsRollsSerial(g, s, i, act);
  }

  lemma StartRollGoes(g: Graph, s: Sched, root: nat)
    requires WellFormed(g) && Wired(g, s) && MayRoll(g, s, root)
    ensures RollGoing(g, StartRoll(g, s, root))
    ensures var left := StartRoll(g, s, root).roll.left; left != [] && g.nodes[left[0]].roll == g.nodes[root].roll
  {
    var alive := Present(s.ns);
    var left := Visit(g, root, alive);
    assert root in alive;
    VisitDeletesSubtree(g, root, alive);
    forall k | 0 <= k < |left|
      ensures left[k] in alive && g.nodes[left[k]].roll == g.nodes[root].roll
    {
      assert left[k] in left;
      BelowKeepsRoll(g, root, left[k]);
    }
    forall k, c | 0 <= k < |left| && c in g.children[left[k]] && s.ns[c].present
      ensures c in left
    {
      assert left[k] in left && c in alive;
      BelowChild(g, root, left[k], c);
    }
  }

  lemma StartRollIsSerial(g: Graph, s: Sched, root: nat)
    requires WellFormed(g) && Wired(g, s) && MayRoll(g, s, root)
    requires InRange(g, s) && Chained(g, s) && RollsSerial(g, s)
    ensures InRange(g, StartRoll(g, s, root)) && RollsSerial(g, StartRoll(g, s, root))
  {
    var t := StartRoll(g, s, root);
    StartRollGoes(g, s, root);
    forall j | 0 <= j < |s.ops| && s.ops[j].after.Some?
      ensures CoversSet(g, t, s.ops[j], s.ops[j].past)
    {
      assert CoversSet(g, s, s.ops[j], s.ops[j].past);
    }
    forall i | 0 <= i < |s.ops| && g.nodes[s.ops[i].node].roll == g.nodes[root].roll
      ensures i in Past(s.ops, t.roll.extra)
    {
      BehindDep(s.ops, t.roll.extra, s.ns[s.ops[i].node].last.value, i);
    }
  }

  // Starting a roll dispatches nothing, so what holds of the operations stays.
  lemma SameOpsKeep(g: Graph, s: Sched, t: Sched)
    requires WellFormed(g) && InRange(g, s) && OpsValid(g, s) && DeletedOnce(g, s) && NoneForgotten(g, s)
    requires t == s.(roll := t.roll)
    ensures InRange(g, t) && OpsValid(g, t) && DeletedOnce(g, t) && NoneForgotten(g, t)
  {
    forall j | 0 <= j < |t.ops|
      ensures OpValid(g, t.ops, j)
    {
      assert OpValid(g, s.ops, j);
    }
    assert forall c :: 0 <= c < |s.ops| ==> Current(t, c) == Current(s, c);
  }

  lemma StartRollKeepsValid(g: Graph, s: Sched, root: nat)
    requires WellFormed(g) && Valid(g, s) && MayRoll(g, s, root)
    ensures Valid(g, StartRoll(g, s, root))
  {
    StartRollGoes(g, s, root);
    StartRollIsSerial(g, s, root);
    SameOpsKeep(g, s, StartRoll(g, s, root));
  }

  // What the scheduler decides next: one operation, or a roll of a set's root.
  datatype Choice = Do(node: nat, act: Action) | Replace(root: nat)

  // The state after one choice, None when it is not allowed.
  ghost function Next(g: Graph, s: Sched, choice: Choice): (r: Option<Sched>)
    requires WellFormed(g) && Valid(g, s)
    ensures r.Some? ==> Valid(g, r.value)
  {
    match choice
    case Do(i, act) =>
      if Legal(g, s, i, act) then DispatchKeepsValid(g, s, i, act); Some(Dispatch(g, s, i, act)) else None
    case Replace(root) =>
      if MayRoll(g, s, root) then StartRollKeepsValid(g, s, root); Some(StartRoll(g, s, root)) else None
  }

  /** The state after a sequence of choices, None once one is not allowed. */
  ghost function Exec(g: Graph, choices: seq<Choice>): (r: Option<Sched>)
    requires WellFormed(g)
    ensures r.Some? ==> Valid(g, r.value)
  {
    if choices == [] then
      InitialIsValid(g); Some(Initial(g))
    else
      match Exec(g, choices[..|choices| - 1])
      case None => None
      case Some(s) => Next(g, s, choices[|choices| - 1])
  }

  // i is a dependency of j, directly or through others.
  ghost predicate Reaches(ops: seq<Op>, i: nat, j: nat)
    requires j < |ops|
    decreases j
  {
    i in ops[j].deps || exists d :: d in ops[j].deps && d < j && Reaches(ops, i, d)
  }

  /** past is the transitive closure of deps. */
  lemma {:induction false} PastIsReach(g: Graph, s: Sched, i: nat, j: nat)
    requires WellFormed(g) && Valid(g, s) && j < |s.ops|
    ensures i in s.ops[j].past <==> Reaches(s.ops, i, j)
    decreases j
  {
    assert OpValid(g, s.ops, j);
    forall d | d in s.ops[j].deps
      ensures d < j && (i in s.ops[d].past <==> Reaches(s.ops, i, d))
    {
      PastIsReach(g, s, i, d);
    }
  }

  function Tally(ops: seq<Op>, act: Action): nat
  {
    if ops == [] then 0 else Tally(ops[..|ops| - 1], act) + (if ops[|ops| - 1].act == act then 1 else 0)
  }

  // Creates minus deletes is the population.
  ghost predicate Counted(s: Sched)
  {
    Tally(s.ops, Create) - Tally(s.ops, Delete) == |Present(s.ns)|
  }

  lemma ExtendKeepsCounted(s: Sched, t: Sched, i: nat, act: Action, past: set<nat>)
    requires Extends(s, t, i, act, past) && Counted(s)
    ensures Counted(t)
  {
    assert t.ops[..|t.ops| - 1] == s.ops;
    match act
    case Create => assert Present(t.ns) == Present(s.ns) + {i};
    case Delete => assert Present(t.ns) == Present(s.ns) - {i};
    case Mutate => assert Present(t.ns) == Present(s.ns);
  }

  lemma NextKeepsCounted(g: Graph, s: Sched, choice: Choice)
    requires WellFormed(g) && Valid(g, s) && Counted(s) && Next(g, s, choice).Some?
    ensures Counted(Next(g, s, choice).value)
  {
    if choice.Do? {
      var i, act := choice.node, choice.act;
      DispatchExtends(g, s, i, act);
      ExtendKeepsCounted(s, Dispatch(g, s, i, act), i, act, Past(s.ops, Deps(g, s, i, act)));
    }
  }

  lemma {:induction false} ExecCounts(g: Graph, choices: seq<Choice>)
    requires WellFormed(g) && Exec(g, choices).Some?
    ensures Counted(Exec(g, choices).value)
  {
    if choices == [] {
      assert Present(Initial(g).ns) == {};
    } else {
      ExecCounts(g, choices[..|choices| - 1]);
      NextKeepsCounted(g, Exec(g, choices[..|choices| - 1]).value, choices[|choices| - 1]);
    }
  }

  /** In every run, creates minus deletes is the population, which never exceeds
      the plan and is parent-closed, and no pinned node is deleted. */
  lemma PopulationCounts(g: Graph, choices: seq<Choice>)
    requires WellFormed(g) && Exec(g, choices).Some?
    ensures var s := Exec(g, choices).value;
            && Tally(s.ops, Create) - Tally(s.ops, Delete) == |Present(s.ns)| <= |g.nodes|
            && ParentClosed(g, Present(s.ns))
            && forall j :: 0 <= j < |s.ops| && s.ops[j].act == Delete ==> !g.nodes[s.ops[j].node].pinned
  {
    ExecCounts(g, choices);
    var s := Exec(g, choices).value;
    PresentInGraph(s.ns, |s.ns|);
    assert s.ns[..|s.ns|] == s.ns;
    forall j | 0 <= j < |s.ops| && s.ops[j].act == Delete
      ensures !g.nodes[s.ops[j].node].pinned
    {
      assert OpValid(g, s.ops, j);
    }
  }

  lemma {:induction false} PresentInGraph(ns: seq<NodeState>, n: nat)
    requires n <= |ns|
    ensures |Present(ns[..n])| <= n
  {
    if n == 0 {
      assert Present(ns[..0]) == {};
    } else {
      PresentInGraph(ns, n - 1);
      assert Present(ns[..n]) <= Present(ns[..n - 1]) + {n - 1};
      SubsetIsNoBigger(Present(ns[..n]), Present(ns[..n - 1]) + {n - 1});
    }
    assert ns[..|ns|] == ns;
  }
}
