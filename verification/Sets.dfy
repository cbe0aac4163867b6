/** Which operations of one rolling set wait for one another, exactly. */
module Sets {
  import opened Options
  import opened Graphs
  import opened Scheduling
  import opened Siblings
  import opened Lineage

  function RollOf(g: Graph, o: Op): string
  {
    if o.node < |g.nodes| then g.nodes[o.node].roll else ""
  }

  // A delete of a roll follows the others of its roll at once, and every delete of
  // a rolling node is one.
  ghost predicate RollsAt(g: Graph, ops: seq<Op>, j: nat)
    requires j < |ops|
  {
    && (ops[j].after.Some? ==>
          && ops[j].act == Delete && RollOf(g, ops[j]) != "" && ops[j].after.value <= j
          && forall x :: ops[j].after.value <= x <= j ==>
               ops[x].after == ops[j].after && RollOf(g, ops[x]) == RollOf(g, ops[j]))
    && (ops[j].act == Delete && RollOf(g, ops[j]) != "" ==> ops[j].after.Some?)
  }

  // Node i was last deleted by a roll that started at st or later.
  predicate LastRolled(s: Sched, i: nat, st: nat)
    requires i < |s.ns|
  {
    var l := s.ns[i].last;
    l.Some? && l.value < |s.ops| && s.ops[l.value].after.Some? && s.ops[l.value].after.value >= st
  }

  // The roll that started at st is over: its last delete is that of its root.
  ghost predicate RollEnds(g: Graph, ops: seq<Op>, st: nat)
    requires WellFormed(g)
  {
    exists d :: 0 <= d < |ops| && IsRollEnd(g, ops, st, d)
  }

  ghost predicate IsRollEnd(g: Graph, ops: seq<Op>, st: nat, d: nat)
    requires WellFormed(g) && d < |ops|
  {
    && ops[d].after == Some(st) && ops[d].act == Delete && ops[d].node < |g.nodes|
    && forall x :: 0 <= x < |ops| && ops[x].after == Some(st) ==> x <= d && Below(g, ops[d].node, ops[x].node)
  }

  // The roll in progress.
  ghost predicate Going(g: Graph, s: Sched)
    requires WellFormed(g) && |s.ns| == |g.nodes|
  {
    s.roll.left != [] ==>
      var root := s.roll.left[|s.roll.left| - 1];
      var roll := if s.roll.left[0] < |g.nodes| then g.nodes[s.roll.left[0]].roll else "";
      && s.roll.start <= |s.ops| && root < |g.nodes| && roll != ""
      && (forall k :: 0 <= k < |s.roll.left| ==>
            s.roll.left[k] < |g.nodes| && g.nodes[s.roll.left[k]].roll == roll && Below(g, root, s.roll.left[k]))
      && (forall x :: s.roll.start <= x < |s.ops| ==>
            s.ops[x].after == Some(s.roll.start) && RollOf(g, s.ops[x]) == roll && Below(g, root, s.ops[x].node))
      && (forall x :: 0 <= x < |s.ops| && s.ops[x].after.Some? ==> s.ops[x].after.value <= s.roll.start)
      && (forall i :: 0 <= i < |s.ns| && g.nodes[i].roll == roll ==> s.ns[i].present || LastRolled(s, i, s.roll.start))
      && (forall e :: e in s.roll.extra ==> e < s.roll.start && RollOf(g, s.ops[e]) == roll)
  }

  // What is known of the rolls so far: each is over or in progress, and since one
  // of its set's nodes are present or were deleted in it or later.
  ghost predicate Rolled(g: Graph, s: Sched)
    requires WellFormed(g) && |s.ns| == |g.nodes|
  {
    && Going(g, s)
    && (forall j :: 0 <= j < |s.ops| ==> RollsAt(g, s.ops, j))
    && (forall z :: 0 <= z < |s.ns| && !s.ns[z].present && s.ns[z].last.Some? ==>
          s.ns[z].last.value < |s.ops| && s.ops[s.ns[z].last.value].act == Delete)
    && (forall x :: 0 <= x < |s.ops| && s.ops[x].after.Some? ==>
          (s.roll.left != [] && s.roll.start == s.ops[x].after.value) || RollEnds(g, s.ops, s.ops[x].after.value))
    && (forall x, i :: 0 <= x < |s.ops| && s.ops[x].after.Some? && 0 <= i < |s.ns|
                       && g.nodes[i].roll == RollOf(g, s.ops[x]) ==>
          s.ns[i].present || LastRolled(s, i, s.ops[x].after.value))
  }

  // How a dispatch moves the roll in progress.
  ghost predicate RollMoves(s: Sched, t: Sched, i: nat, act: Action)
  {
    && |t.ops| == |s.ops| + 1
    && if s.roll.left == [] then t.roll == s.roll && t.ops[|s.ops|].after == None
       else act == Delete && i == s.roll.left[0] && t.roll == s.roll.(left := s.roll.left[1..])
            && t.ops[|s.ops|].after == Some(s.roll.start)
  }

  lemma DispatchMovesRoll(g: Graph, s: Sched, i: nat, act: Action)
    requires WellFormed(g) && Wired(g, s) && RollGoing(g, s) && Legal(g, s, i, act)
    ensures RollMoves(s, Dispatch(g, s, i, act), i, act)
    ensures act == Delete && s.roll.left == [] ==> i < |g.nodes| && g.nodes[i].roll == ""
  {
  }

  lemma RollMoveKeepsAt(g: Graph, s: Sched, t: Sched, i: nat, act: Action, past: set<nat>)
    requires WellFormed(g) && |s.ns| == |g.nodes| && Extends(s, t, i, act, past) && RollMoves(s, t, i, act)
    requires Going(g, s)
    requires act == Delete && s.roll.left == [] ==> g.nodes[i].roll == ""
    requires forall j :: 0 <= j < |s.ops| ==> RollsAt(g, s.ops, j)
    ensures forall j :: 0 <= j < |t.ops| ==> RollsAt(g, t.ops, j)
  {
    forall j | 0 <= j < |t.ops|
      ensures RollsAt(g, t.ops, j)
    {
      if j < |s.ops| {
        assert RollsAt(g, s.ops, j);
      }
    }
  }

  lemma RollMoveKeepsGoing(g: Graph, s: Sched, t: Sched, i: nat, act: Action, past: set<nat>)
    requires WellFormed(g) && |s.ns| == |g.nodes| && Extends(s, t, i, act, past) && RollMoves(s, t, i, act)
    requires Going(g, s)
    ensures Going(g, t)
  {
    hide Below;
    assert t.roll.left != [] ==> t.roll.left[|t.roll.left| - 1] == s.roll.left[|s.roll.left| - 1];
    forall k | 0 <= k < |t.roll.left|
      ensures t.roll.left[k] == s.roll.left[k + 1]
    {
    }
  }

  lemma RollMoveKeepsEnds(g: Graph, s: Sched, t: Sched, i: nat, act: Action, past: set<nat>, x: nat)
    requires WellFormed(g) && |s.ns| == |g.nodes| && Extends(s, t, i, act, past) && RollMoves(s, t, i, act)
    requires Rolled(g, s)
    requires x < |t.ops| && t.ops[x].after.Some?
    ensures (t.roll.left != [] && t.roll.start == t.ops[x].after.value) || RollEnds(g, t.ops, t.ops[x].after.value)
  {
    hide Below;
    var st := t.ops[x].after.value;
    if s.roll.left != [] && s.roll.start == st {
      if t.roll.left == [] {
        assert s.roll.left[|s.roll.left| - 1] == i;
        forall y | 0 <= y < |t.ops| && t.ops[y].after == Some(st)
          ensures Below(g, i, t.ops[y].node)
        {
          assert y < |s.ops| ==> RollsAt(g, s.ops, y) && t.ops[y] == s.ops[y];
        }
        assert IsRollEnd(g, t.ops, st, |s.ops|);
      }
    } else {
      assert x < |s.ops| && RollEnds(g, s.ops, st);
      var d :| 0 <= d < |s.ops| && IsRollEnd(g, s.ops, st, d);
      assert IsRollEnd(g, t.ops, st, d);
    }
  }

  lemma RollMoveKeepsWhole(g: Graph, s: Sched, t: Sched, i: nat, act: Action, past: set<nat>, x: nat, z: nat)
    requires WellFormed(g) && |s.ns| == |g.nodes| && Extends(s, t, i, act, past) && RollMoves(s, t, i, act)
    requires Rolled(g, s)
    requires act == Delete && s.roll.left == [] ==> g.nodes[i].roll == ""
    requires x < |t.ops| && t.ops[x].after.Some? && z < |t.ns| && g.nodes[z].roll == RollOf(g, t.ops[x])
    ensures t.ns[z].present || LastRolled(t, z, t.ops[x].after.value)
  {
    hide Below, RollsAt, RollEnds;
    assert x < |s.ops| ==> RollsAt(g, s.ops, x) && s.ops[x] == t.ops[x];
    assert s.roll.left != [] ==> RollOf(g, t.ops[|s.ops|]) == g.nodes[s.roll.left[0]].roll;
    if x < |s.ops| {
      RollNamed(g, s, x);
      assert s.ns[z].present || LastRolled(s, z, s.ops[x].after.value);
    } else {
      assert s.ns[z].present || LastRolled(s, z, s.roll.start);
    }
  }

  lemma RollNamed(g: Graph, s: Sched, x: nat)
    requires WellFormed(g) && |s.ns| == |g.nodes| && Rolled(g, s) && x < |s.ops| && s.ops[x].after.Some?
    ensures RollOf(g, s.ops[x]) != ""
  {
    assert RollsAt(g, s.ops, x);
  }

  lemma MoveKeepsRolled(g: Graph, s: Sched, t: Sched, i: nat, act: Action, past: set<nat>)
    requires WellFormed(g) && |s.ns| == |g.nodes| && Extends(s, t, i, act, past) && RollMoves(s, t, i, act)
    requires Rolled(g, s)
    requires act == Delete && s.roll.left == [] ==> g.nodes[i].roll == ""
    ensures Rolled(g, t)
  {
    RollMoveKeepsGoing(g, s, t, i, act, past);
    RollMoveKeepsAt(g, s, t, i, act, past);
    forall x | 0 <= x < |t.ops| && t.ops[x].after.Some?
      ensures (t.roll.left != [] && t.roll.start == t.ops[x].after.value) || RollEnds(g, t.ops, t.ops[x].after.value)
    {
      RollMoveKeepsEnds(g, s, t, i, act, past, x);
    }
    forall x, z | 0 <= x < |t.ops| && t.ops[x].after.Some? && 0 <= z < |t.ns| && g.nodes[z].roll == RollOf(g, t.ops[x])
      ensures t.ns[z].present || LastRolled(t, z, t.ops[x].after.value)
    {
      RollMoveKeepsWhole(g, s, t, i, act, past, x, z);
    }
    hide Going, RollsAt, RollEnds, LastRolled, Below;
  }

  // The walk of a roll, and what may be rolled.
  lemma RollStarts(g: Graph, s: Sched, root: nat)
    requires WellFormed(g) && Wired(g, s) && MayRoll(g, s, root)
    ensures var r := StartRoll(g, s, root).roll;
            && r.start == |s.ops| && r.left != [] && r.left[|r.left| - 1] == root && g.nodes[root].roll != ""
            && forall k :: 0 <= k < |r.left| ==>
                 Below(g, root, r.left[k]) && r.left[k] < |g.nodes| && g.nodes[r.left[k]].roll == g.nodes[root].roll
    ensures s.roll.left == [] && StartRoll(g, s, root) == s.(roll := StartRoll(g, s, root).roll)
    ensures forall e :: e in StartRoll(g, s, root).roll.extra ==>
              e < |s.ops| && RollOf(g, s.ops[e]) == g.nodes[root].roll
    ensures forall i :: 0 <= i < |s.ns| && g.nodes[i].roll == g.nodes[root].roll ==> s.ns[i].present
  {
    var alive := Present(s.ns);
    assert root in alive;
    VisitDeletesSubtree(g, root, alive);
    var left := Visit(g, root, alive);
    forall k | 0 <= k < |left|
      ensures Below(g, root, left[k]) && left[k] < |g.nodes| && g.nodes[left[k]].roll == g.nodes[root].roll
    {
      assert left[k] in left;
      BelowKeepsRoll(g, root, left[k]);
    }
    forall e | e in SetLasts(g, s.ns, g.nodes[root].roll, 0)
      ensures e < |s.ops| && RollOf(g, s.ops[e]) == g.nodes[root].roll
    {
      var i :| 0 <= i < |s.ns| && g.nodes[i].roll == g.nodes[root].roll && s.ns[i].last == Some(e);
    }
  }

  lemma StartIsRolled(g: Graph, s: Sched, root: nat)
    requires WellFormed(g) && Wired(g, s) && |s.ns| == |g.nodes| && MayRoll(g, s, root) && Rolled(g, s)
    ensures Rolled(g, StartRoll(g, s, root))
  {
    hide Below, StartRoll, MayRoll, Wired, RollEnds, WellFormed;
    RollStarts(g, s, root);
    forall x | 0 <= x < |s.ops| && s.ops[x].after.Some?
      ensures s.ops[x].after.value <= |s.ops|
    {
      assert RollsAt(g, s.ops, x);
    }
    hide RollsAt;
  }

  // A roll of a's set deletes something at a or later, before hi.
  ghost predicate RolledSince(g: Graph, ops: seq<Op>, a: nat, hi: nat)
    requires a < |ops|
  {
    exists e :: a <= e < hi && e < |ops| && ops[e].after.Some? && RollOf(g, ops[e]) == RollOf(g, ops[a])
  }

  // An operation of node w, or a create of an ancestor.
  ghost predicate Lineal(g: Graph, a: Op, w: nat)
    requires WellFormed(g)
  {
    a.node < |g.nodes| && Below(g, a.node, w) && (a.act == Create || a.node == w)
  }

  // What a rolling set's operations are behind b: lineal ones, and those before
  // the end of a roll up to b.
  ghost predicate ComesFrom(g: Graph, ops: seq<Op>, b: nat)
    requires WellFormed(g) && b < |ops|
  {
    forall a :: a in ops[b].past && a < b && RollOf(g, ops[a]) != "" ==>
      RolledSince(g, ops, a, b + 1) || Lineal(g, ops[a], ops[b].node)
  }

  // Between two instances of a rolling node it was rolled.
  ghost predicate Recreated(g: Graph, ops: seq<Op>, c: nat)
    requires c < |ops|
  {
    ops[c].act == Create && RollOf(g, ops[c]) != "" ==>
      forall a :: 0 <= a < c && ops[a].node == ops[c].node ==> RolledSince(g, ops, a, c)
  }

  lemma RecreatedIsRolled(g: Graph, s: Sched, i: nat, a: nat)
    requires WellFormed(g) && Wired(g, s) && InRange(g, s) && Chained(g, s) && Rolled(g, s)
    requires i < |g.nodes| && g.nodes[i].roll != "" && !s.ns[i].present && a < |s.ops| && s.ops[a].node == i
    ensures RolledSince(g, s.ops, a, |s.ops|)
  {
    var l := s.ns[i].last.value;
    assert a <= l && RollsAt(g, s.ops, l);
  }

  lemma ExtendKeepsSince(g: Graph, ops: seq<Op>, more: seq<Op>, a: nat, hi: nat, hi': nat)
    requires a < |ops| <= |more| && (forall j :: 0 <= j < |ops| ==> more[j] == ops[j]) && hi <= hi'
    requires RolledSince(g, ops, a, hi)
    ensures RolledSince(g, more, a, hi')
  {
    var e :| a <= e < hi && e < |ops| && ops[e].after.Some? && RollOf(g, ops[e]) == RollOf(g, ops[a]);
    assert more[e].after.Some? && RollOf(g, more[e]) == RollOf(g, more[a]);
  }

  // Which operations a new one lists as dependencies.
  ghost predicate DepIs(g: Graph, s: Sched, i: nat, act: Action, d: nat)
    requires Linked(g) && |s.ns| == |g.nodes| && i < |s.ns|
  {
    || s.ns[i].last == Some(d)
    || (exists p :: p in g.parents[i] && s.ns[p].create == Some(d))
    || (act == Delete && exists z :: z in g.children[i] && !s.ns[z].present && s.ns[z].last == Some(d))
    || (act == Delete && s.roll.left != [] && d in s.roll.extra)
  }

  lemma DepsAre(g: Graph, s: Sched, i: nat, act: Action, d: nat)
    requires WellFormed(g) && Wired(g, s) && RollGoing(g, s) && Legal(g, s, i, act) && d in Deps(g, s, i, act)
    ensures i < |g.nodes| && DepIs(g, s, i, act, d)
  {
    ParentsHaveCreates(g, s, i, act);
    var cs := Creates(s.ns, g.parents[i]);
    if d in cs {
      var k :| 0 <= k < |cs| && cs[k] == d;
      assert g.parents[i][k] in g.parents[i];
    }
  }

  // Lineal or rolled since, as seen from a new operation on node i.
  ghost predicate Reached(g: Graph, s: Sched, i: nat, rolling: bool, a: nat)
    requires WellFormed(g) && a < |s.ops|
  {
    || RolledSince(g, s.ops, a, |s.ops|) || Lineal(g, s.ops[a], i)
    || (rolling && i < |g.nodes| && RollOf(g, s.ops[a]) == g.nodes[i].roll)
  }

  // Through the node's last operation.
  lemma LastReaches(g: Graph, s: Sched, i: nat, d: nat, a: nat)
    requires WellFormed(g) && d < |s.ops| && s.ops[d].node == i && i < |g.nodes| && ComesFrom(g, s.ops, d)
    requires a < |s.ops| && RollOf(g, s.ops[a]) != "" && (a == d || (a in s.ops[d].past && a < d))
    ensures Reached(g, s, i, false, a)
  {
    if a != d && RolledSince(g, s.ops, a, d + 1) {
      ExtendKeepsSince(g, s.ops, s.ops, a, d + 1, |s.ops|);
    }
  }

  // Through a parent's create.
  lemma ParentReaches(g: Graph, s: Sched, i: nat, p: nat, d: nat, a: nat)
    requires WellFormed(g) && i < |g.nodes| && p in g.parents[i] && d < |s.ops| && s.ops[d].node == p
    requires s.ops[d].act == Create
    requires ComesFrom(g, s.ops, d) && Recreated(g, s.ops, d)
    requires a < |s.ops| && RollOf(g, s.ops[a]) != "" && (a == d || (a in s.ops[d].past && a < d))
    ensures Reached(g, s, i, false, a)
  {
    var x := s.ops[a].node;
    if a == d {
      BelowChild(g, x, x, i);
    } else {
      if x == p {
        ExtendKeepsSince(g, s.ops, s.ops, a, d, d + 1);
      }
      if RolledSince(g, s.ops, a, d + 1) {
        ExtendKeepsSince(g, s.ops, s.ops, a, d + 1, |s.ops|);
      } else {
        BelowChild(g, x, p, i);
      }
    }
  }

  // Through the delete of a former child.
  lemma ChildReaches(g: Graph, s: Sched, i: nat, z: nat, d: nat, a: nat)
    requires WellFormed(g) && z < |g.nodes| && d < |s.ops| && s.ops[d].node == z && s.ops[d].act == Delete
    requires ComesFrom(g, s.ops, d) && RollsAt(g, s.ops, d)
    requires a < |s.ops| && RollOf(g, s.ops[a]) != "" && (a == d || (a in s.ops[d].past && a < d))
    ensures Reached(g, s, i, true, a)
  {
    var x := s.ops[a].node;
    if a != d && RolledSince(g, s.ops, a, d + 1) {
      ExtendKeepsSince(g, s.ops, s.ops, a, d + 1, |s.ops|);
    } else {
      if a != d {
        BelowKeepsRoll(g, x, z);
      }
      assert RollOf(g, s.ops[d]) == RollOf(g, s.ops[a]);
    }
  }

  // Through what a roll of another set waits for; a delete of its own set is a
  // roll of it.
  lemma ExtraReaches(g: Graph, s: Sched, i: nat, d: nat, a: nat)
    requires WellFormed(g) && i < |g.nodes| && d < |s.ops| && RollOf(g, s.ops[d]) == g.nodes[i].roll
    requires ComesFrom(g, s.ops, d)
    requires a < |s.ops| && RollOf(g, s.ops[a]) != "" && (a == d || (a in s.ops[d].past && a < d))
    ensures Reached(g, s, i, true, a)
  {
    if a != d {
      if RolledSince(g, s.ops, a, d + 1) {
        ExtendKeepsSince(g, s.ops, s.ops, a, d + 1, |s.ops|);
      } else {
        BelowKeepsRoll(g, s.ops[a].node, s.ops[d].node);
      }
    }
  }

  // What is known of every operation of a schedule.
  ghost predicate Traceable(g: Graph, ops: seq<Op>, b: nat)
    requires WellFormed(g) && b < |ops|
  {
    ComesFrom(g, ops, b) && Recreated(g, ops, b)
  }

  lemma PastHasDep(ops: seq<Op>, deps: seq<nat>, a: nat) returns (d: nat)
    requires a in Past(ops, deps)
    ensures d in deps && (a == d || (d < |ops| && a in ops[d].past))
  {
    d :| d in deps && (a == d || (d < |ops| && a in ops[d].past));
  }

  lemma NewReaches(g: Graph, s: Sched, i: nat, act: Action, a: nat)
    requires WellFormed(g) && |s.ns| == |g.nodes| && Wired(g, s) && RollGoing(g, s) && InRange(g, s) && Rolled(g, s)
    requires Legal(g, s, i, act) && forall b :: 0 <= b < |s.ops| ==> Traceable(g, s.ops, b)
    requires a in Past(s.ops, Deps(g, s, i, act)) && a < |s.ops| && RollOf(g, s.ops[a]) != ""
    ensures Reached(g, s, i, act == Delete, a)
  {
    hide Wired, RollGoing, InRange, Legal, Reached, Past, Deps, Traceable, Rolled, DepIs;
    var d := PastHasDep(s.ops, Deps(g, s, i, act), a);
    DepsAre(g, s, i, act, d);
    DepIsKnown(g, s, i, act, d);
    PastIsEarlier(g, s, d);
    DepReaches(g, s, i, act, d, a);
  }

  lemma PastIsEarlier(g: Graph, s: Sched, d: nat)
    requires WellFormed(g) && InRange(g, s) && d < |s.ops|
    ensures forall a :: a in s.ops[d].past ==> a < d
  {
  }

  lemma DepReaches(g: Graph, s: Sched, i: nat, act: Action, d: nat, a: nat)
    requires WellFormed(g) && |s.ns| == |g.nodes| && i < |g.nodes| && DepIs(g, s, i, act, d)
    requires d < |s.ops| && Traceable(g, s.ops, d) && DepKnown(g, s, i, act, d)
    requires a < |s.ops| && RollOf(g, s.ops[a]) != "" && (a == d || (a in s.ops[d].past && a < d))
    ensures Reached(g, s, i, act == Delete, a)
  {
    hide Reached, ComesFrom, Recreated, RollsAt, RollOf;
    if s.ns[i].last == Some(d) {
      LastReaches(g, s, i, d, a);
      Weaker(g, s, i, act == Delete, a);
    } else if p :| p in g.parents[i] && s.ns[p].create == Some(d) {
      ParentReaches(g, s, i, p, d, a);
      Weaker(g, s, i, act == Delete, a);
    } else if z :| act == Delete && z in g.children[i] && !s.ns[z].present && s.ns[z].last == Some(d) {
      ChildReaches(g, s, i, z, d, a);
    } else {
      ExtraReaches(g, s, i, d, a);
    }
  }

  lemma Weaker(g: Graph, s: Sched, i: nat, rolling: bool, a: nat)
    requires WellFormed(g) && a < |s.ops| && Reached(g, s, i, false, a)
    ensures Reached(g, s, i, rolling, a)
  {
  }

  // What the operations listed as dependencies are.
  ghost predicate DepKnown(g: Graph, s: Sched, i: nat, act: Action, d: nat)
    requires Linked(g) && |s.ns| == |g.nodes| && i < |g.nodes| && d < |s.ops|
  {
    && (s.ns[i].last == Some(d) ==> s.ops[d].node == i)
    && (forall p :: p in g.parents[i] && s.ns[p].create == Some(d) ==> s.ops[d].node == p && s.ops[d].act == Create)
    && (forall z :: z in g.children[i] && !s.ns[z].present && s.ns[z].last == Some(d) ==>
          z < |g.nodes| && s.ops[d].node == z && s.ops[d].act == Delete && RollsAt(g, s.ops, d))
    && (act == Delete && s.roll.left != [] && d in s.roll.extra ==> RollOf(g, s.ops[d]) == g.nodes[i].roll)
  }

  lemma DepIsKnown(g: Graph, s: Sched, i: nat, act: Action, d: nat)
    requires WellFormed(g) && Wired(g, s) && RollGoing(g, s) && InRange(g, s) && Rolled(g, s) && Legal(g, s, i, act)
    requires i < |g.nodes| && DepIs(g, s, i, act, d)
    ensures d < |s.ops| && DepKnown(g, s, i, act, d)
  {
  }

  // The new operation keeps it: what it reaches through its dependencies is lineal,
  // or rolled since, a delete of a roll counting itself.
  lemma NewIsTraceable(g: Graph, s: Sched, t: Sched, i: nat, act: Action, past: set<nat>)
    requires WellFormed(g) && |s.ns| == |g.nodes| && Extends(s, t, i, act, past) && i < |g.nodes|
    requires forall a :: a in past && a < |s.ops| && RollOf(g, s.ops[a]) != "" ==> Reached(g, s, i, act == Delete, a)
    requires act == Delete && g.nodes[i].roll != "" ==> t.ops[|s.ops|].after.Some?
    requires act == Create && g.nodes[i].roll != "" ==>
               forall a :: 0 <= a < |s.ops| && s.ops[a].node == i ==> RolledSince(g, s.ops, a, |s.ops|)
    ensures Traceable(g, t.ops, |s.ops|)
  {
    var n := |s.ops|;
    forall a | a in t.ops[n].past && a < n && RollOf(g, t.ops[a]) != ""
      ensures RolledSince(g, t.ops, a, n + 1) || Lineal(g, t.ops[a], i)
    {
      assert Reached(g, s, i, act == Delete, a) && t.ops[a] == s.ops[a];
      if RolledSince(g, s.ops, a, n) {
        ExtendKeepsSince(g, s.ops, t.ops, a, n, n + 1);
      } else if !Lineal(g, s.ops[a], i) {
        assert t.ops[n].after.Some? && RollOf(g, t.ops[n]) == RollOf(g, t.ops[a]);
      }
    }
    forall a | 0 <= a < n && act == Create && g.nodes[i].roll != "" && t.ops[a].node == i
      ensures RolledSince(g, t.ops, a, n)
    {
      ExtendKeepsSince(g, s.ops, t.ops, a, n, n);
    }
  }

  lemma ExtendKeepsTraceable(g: Graph, ops: seq<Op>, more: seq<Op>, b: nat)
    requires WellFormed(g) && b < |ops| <= |more| && (forall j :: 0 <= j < |ops| ==> more[j] == ops[j])
    requires Traceable(g, ops, b)
    ensures Traceable(g, more, b)
  {
    forall a | a in more[b].past && a < b && RollOf(g, more[a]) != ""
      ensures RolledSince(g, more, a, b + 1) || Lineal(g, more[a], more[b].node)
    {
      if RolledSince(g, ops, a, b + 1) {
        ExtendKeepsSince(g, ops, more, a, b + 1, b + 1);
      }
    }
    forall a | 0 <= a < b && more[b].act == Create && RollOf(g, more[b]) != "" && more[a].node == more[b].node
      ensures RolledSince(g, more, a, b)
    {
      ExtendKeepsSince(g, ops, more, a, b, b);
    }
  }

  // A roll's delete that comes before the create of an instance is behind it, with
  // everything of its set up to it.
  ghost predicate BehindRolls(g: Graph, ops: seq<Op>, c: nat)
    requires c < |ops|
  {
    ops[c].act == Create && RollOf(g, ops[c]) != "" ==>
      forall a :: 0 <= a < c && RollOf(g, ops[a]) == RollOf(g, ops[c]) && RolledSince(g, ops, a, c) ==> a in ops[c].past
  }

  // A node about to be created again was deleted by the last roll of its set.
  lemma CreateIsBehindRolls(g: Graph, s: Sched, i: nat, a: nat)
    requires WellFormed(g) && Valid(g, s) && Wired(g, s) && InRange(g, s) && Settled(g, s) && Rolled(g, s)
    requires OpsValid(g, s) && s.roll.left == []
    requires forall b :: 0 <= b < |s.ops| ==> BehindDescendants(g, s.ops, b)
    requires Legal(g, s, i, Create) && i < |g.nodes| && g.nodes[i].roll != ""
    requires a < |s.ops| && RollOf(g, s.ops[a]) == g.nodes[i].roll && RolledSince(g, s.ops, a, |s.ops|)
    ensures a in Past(s.ops, Deps(g, s, i, Create))
  {
    hide Valid, OpsValid, RollEnds, Below, Settled, BehindDescendants, Past, Deps, WellFormed;
    var e :| a <= e < |s.ops| && s.ops[e].after.Some? && RollOf(g, s.ops[e]) == RollOf(g, s.ops[a]);
    assert LastRolled(s, i, s.ops[e].after.value);
    var d := s.ns[i].last.value;
    assert s.ops[d].node == i && RollsAt(g, s.ops, d) && RollsAt(g, s.ops, e);
    if a < s.ops[d].after.value {
      LastCovers(g, s, i, d, a);
    } else {
      assert s.ops[a].after == s.ops[d].after;
      SameRollIsBehind(g, s, i, d, a);
    }
  }

  lemma LastIsDep(g: Graph, s: Sched, i: nat, act: Action, d: nat)
    requires WellFormed(g) && Wired(g, s) && RollGoing(g, s) && Legal(g, s, i, act) && s.ns[i].last == Some(d)
    ensures d in Deps(g, s, i, act) && d < |s.ops|
  {
  }

  lemma LastCovers(g: Graph, s: Sched, i: nat, d: nat, a: nat)
    requires WellFormed(g) && Valid(g, s) && Wired(g, s) && RollGoing(g, s) && Legal(g, s, i, Create)
    requires s.ns[i].last == Some(d)
    requires d < |s.ops| && s.ops[d].after.Some? && a < s.ops[d].after.value <= d && SameSet(g, s.ops[a], s.ops[d])
    ensures a in Past(s.ops, Deps(g, s, i, Create))
  {
    hide Valid, Wired, RollGoing, Legal, Deps, Past;
    RollsWaitForTheirSet(g, s, a, d);
    LastIsDep(g, s, i, Create, d);
    BehindDep(s.ops, Deps(g, s, i, Create), d, a);
  }

  // Everything in the roll that deleted node i is behind the delete of its root,
  // and the new create is behind that.
  lemma SameRollIsBehind(g: Graph, s: Sched, i: nat, d: nat, a: nat)
    requires WellFormed(g) && Valid(g, s) && Wired(g, s) && InRange(g, s) && Settled(g, s) && OpsValid(g, s)
    requires |s.ns| == |g.nodes| && Rolled(g, s) && s.roll.left == [] && Legal(g, s, i, Create)
    requires forall b :: 0 <= b < |s.ops| ==> BehindDescendants(g, s.ops, b)
    requires d < |s.ops| && s.ops[d].node == i && s.ops[d].after.Some? && a < |s.ops|
    requires s.ops[a].after == s.ops[d].after
    ensures a in Past(s.ops, Deps(g, s, i, Create))
  {
    hide Valid, Wired, InRange, Settled, OpsValid, Going, RollsAt, LastRolled, Past, Deps, Legal, BehindDescendants;
    hide Below;
    var r :| 0 <= r < |s.ops| && IsRollEnd(g, s.ops, s.ops[d].after.value, r);
    CreateIsSettled(g, s, i, r);
    if a != r {
      RootIsBehind(g, s.ops, r, a);
      PastIsClosed(g, s, Deps(g, s, i, Create), r, a);
    }
  }

  lemma RootIsBehind(g: Graph, ops: seq<Op>, r: nat, a: nat)
    requires WellFormed(g) && a < r < |ops| && BehindDescendants(g, ops, r) && ops[r].act == Delete
    requires ops[r].node < |g.nodes|
    requires Below(g, ops[r].node, ops[a].node)
    ensures a in ops[r].past
  {
  }

  lemma PastIsClosed(g: Graph, s: Sched, deps: seq<nat>, x: nat, y: nat)
    requires WellFormed(g) && OpsValid(g, s) && x in Past(s.ops, deps) && x < |s.ops| && y in s.ops[x].past
    ensures y in Past(s.ops, deps)
  {
    var d := PastHasDep(s.ops, deps, x);
    if d != x {
      PastIsTransitive(g, s.ops, x, y, d);
    }
    BehindDep(s.ops, deps, d, y);
  }

  // A mutate is behind its instance's create, what that was behind, and earlier
  // operations on the instance.
  ghost predicate OfInstance(g: Graph, ops: seq<Op>, b: nat)
    requires b < |ops|
  {
    ops[b].act == Mutate ==>
      var c := ops[b].create;
      && c < b && ops[c].node == ops[b].node && ops[c].act == Create
      && forall a :: a in ops[b].past ==> a == c || a in ops[c].past || (c < a < b && ops[a].node == ops[b].node)
  }

  // A present node's last operation is its instance's create or a mutate of it.
  ghost predicate LastsOfInstance(s: Sched)
  {
    forall i :: 0 <= i < |s.ns| && s.ns[i].present ==>
      && s.ns[i].create.Some? && s.ns[i].last.Some? && s.ns[i].last.value < |s.ops|
      && var c, l := s.ns[i].create.value, s.ns[i].last.value;
      l == c || (s.ops[l].act == Mutate && s.ops[l].create == c && c < l)
  }

  lemma ExtendKeepsLasts(s: Sched, t: Sched, i: nat, act: Action, past: set<nat>)
    requires Extends(s, t, i, act, past) && LastsOfInstance(s)
    ensures LastsOfInstance(t)
  {
  }

  // A present node's parents' creates are behind its instance's create.
  lemma ParentIsBehindCreate(g: Graph, s: Sched, i: nat, p: nat, d: nat, a: nat)
    requires WellFormed(g) && Wired(g, s) && InRange(g, s) && OpsValid(g, s) && ParentsKept(g, s)
    requires i < |s.ns| && s.ns[i].present && p in g.parents[i] && s.ns[p].create == Some(d)
    requires d < |s.ops| && (a == d || a in s.ops[d].past)
    ensures a in s.ops[s.ns[i].create.value].past
  {
    var c := s.ns[i].create.value;
    var k :| 0 <= k < |g.parents[i]| && g.parents[i][k] == p;
    assert s.ops[c].parentOps[k] == d && d in s.ops[c].parentOps;
    assert OpValid(g, s.ops, c);
    BehindDep(s.ops, s.ops[c].deps, d, a);
  }

  lemma NewMutateIsOfInstance(g: Graph, s: Sched, i: nat, a: nat)
    requires WellFormed(g) && Wired(g, s) && RollGoing(g, s) && InRange(g, s) && OpsValid(g, s) && ParentsKept(g, s)
    requires |s.ns| == |g.nodes| && Legal(g, s, i, Mutate) && LastsOfInstance(s) && s.ns[i].create.Some?
    requires forall b :: 0 <= b < |s.ops| ==> OfInstance(g, s.ops, b)
    requires a in Past(s.ops, Deps(g, s, i, Mutate))
    ensures var c := s.ns[i].create.value;
            c < |s.ops| && (a == c || a in s.ops[c].past || (c < a < |s.ops| && s.ops[a].node == i))
  {
    hide Past, Deps, OpsValid, ParentsKept, RollGoing, OfInstance;
    var d := PastHasDep(s.ops, Deps(g, s, i, Mutate), a);
    DepsAre(g, s, i, Mutate, d);
    var c := s.ns[i].create.value;
    if s.ns[i].last == Some(d) {
      if d != c {
        assert OfInstance(g, s.ops, d);
        MutateReaches(g, s.ops, d, a);
      }
    } else {
      var p :| p in g.parents[i] && s.ns[p].create == Some(d);
      ParentIsBehindCreate(g, s, i, p, d, a);
    }
  }

  lemma MutateReaches(g: Graph, ops: seq<Op>, d: nat, a: nat)
    requires d < |ops| && ops[d].act == Mutate && OfInstance(g, ops, d) && (a == d || a in ops[d].past)
    ensures var c := ops[d].create;
            c < d && ops[c].node == ops[d].node
            && (a == c || a in ops[c].past || (c < a <= d && ops[a].node == ops[d].node))
  {
  }

  ghost predicate PairsAt(g: Graph, ops: seq<Op>, b: nat)
    requires WellFormed(g) && b < |ops|
  {
    Traceable(g, ops, b) && BehindRolls(g, ops, b) && OfInstance(g, ops, b)
  }

  // Everything above, of a schedule.
  ghost predicate InSets(g: Graph, s: Sched)
    requires WellFormed(g)
  {
    && |s.ns| == |g.nodes| && Rolled(g, s) && LastsOfInstance(s)
    && forall b :: 0 <= b < |s.ops| ==> PairsAt(g, s.ops, b)
  }

  lemma ExtendKeepsPairs(g: Graph, ops: seq<Op>, more: seq<Op>, b: nat)
    requires WellFormed(g) && b < |ops| <= |more| && (forall j :: 0 <= j < |ops| ==> more[j] == ops[j])
    requires PairsAt(g, ops, b)
    ensures PairsAt(g, more, b)
  {
    ExtendKeepsTraceable(g, ops, more, b);
    forall a | 0 <= a < b && RollOf(g, more[a]) == RollOf(g, more[b]) && RolledSince(g, more, a, b)
      ensures RolledSince(g, ops, a, b)
    {
      var e :| a <= e < b && more[e].after.Some? && RollOf(g, more[e]) == RollOf(g, more[a]);
      assert ops[e].after.Some? && RollOf(g, ops[e]) == RollOf(g, ops[a]);
    }
  }

  lemma PairsAre(g: Graph, s: Sched)
    requires WellFormed(g) && InSets(g, s)
    ensures |s.ns| == |g.nodes| && Rolled(g, s) && LastsOfInstance(s)
    ensures forall b :: 0 <= b < |s.ops| ==> Traceable(g, s.ops, b)
    ensures forall b :: 0 <= b < |s.ops| ==> OfInstance(g, s.ops, b)
  {
    hide Traceable, BehindRolls, OfInstance, Rolled, LastsOfInstance;
    forall b | 0 <= b < |s.ops|
      ensures Traceable(g, s.ops, b) && OfInstance(g, s.ops, b)
    {
      assert PairsAt(g, s.ops, b);
    }
  }

  // The new operation has all three.
  lemma NewIsTraced(g: Graph, s: Sched, i: nat, act: Action)
    requires WellFormed(g) && Valid(g, s) && Wired(g, s) && RollGoing(g, s) && InRange(g, s) && Legal(g, s, i, act)
    requires InSets(g, s)
    ensures Traceable(g, Dispatch(g, s, i, act).ops, |s.ops|)
  {
    var t := Dispatch(g, s, i, act);
    var past := Past(s.ops, Deps(g, s, i, act));
    hide Valid, Chained, Wired, RollGoing, InRange, Legal, Dispatch, Deps, Past, Traceable, Rolled, Reached, Extends;
    hide InSets;
    PairsAre(g, s);
    ValidParts(g, s);
    DispatchExtends(g, s, i, act);
    DispatchMovesRoll(g, s, i, act);
    LegalIsInGraph(g, s, i, act);
    forall a | a in past && a < |s.ops| && RollOf(g, s.ops[a]) != ""
      ensures Reached(g, s, i, act == Delete, a)
    {
      NewReaches(g, s, i, act, a);
    }
    forall a | act == Create && g.nodes[i].roll != "" && 0 <= a < |s.ops| && s.ops[a].node == i
      ensures RolledSince(g, s.ops, a, |s.ops|)
    {
      RecreatedIsRolled(g, s, i, a);
    }
    NewIsTraceable(g, s, t, i, act, past);
  }

  lemma LegalIsInGraph(g: Graph, s: Sched, i: nat, act: Action)
    requires Linked(g) && |s.ns| == |g.nodes| && Legal(g, s, i, act)
    ensures i < |g.nodes| && (act == Create ==> !s.ns[i].present && s.roll.left == [])
  {
  }

  lemma NewIsBehindRolls(g: Graph, s: Sched, i: nat, act: Action)
    requires WellFormed(g) && Valid(g, s) && Wired(g, s) && RollGoing(g, s) && InRange(g, s) && Legal(g, s, i, act)
    requires InSets(g, s)
    requires Settled(g, s) && OpsValid(g, s) && forall b :: 0 <= b < |s.ops| ==> BehindDescendants(g, s.ops, b)
    ensures BehindRolls(g, Dispatch(g, s, i, act).ops, |s.ops|)
  {
    var t := Dispatch(g, s, i, act);
    var n := |s.ops|;
    hide Valid, Wired, RollGoing, InRange, Legal, Dispatch, Deps, Past, Traceable, Rolled, Settled, OpsValid;
    hide BehindDescendants;
    DispatchExtends(g, s, i, act);
    LegalIsInGraph(g, s, i, act);
    forall a | act == Create && RollOf(g, t.ops[n]) != "" && 0 <= a < n && RollOf(g, t.ops[a]) == RollOf(g, t.ops[n])
               && RolledSince(g, t.ops, a, n)
      ensures a in t.ops[n].past
    {
      var e :| a <= e < n && t.ops[e].after.Some? && RollOf(g, t.ops[e]) == RollOf(g, t.ops[a]);
      assert s.ops[e].after.Some? && RollOf(g, s.ops[e]) == RollOf(g, s.ops[a]);
      CreateIsBehindRolls(g, s, i, a);
    }
  }

  lemma NewIsOfInstance(g: Graph, s: Sched, i: nat, act: Action)
    requires WellFormed(g) && Wired(g, s) && RollGoing(g, s) && InRange(g, s) && Legal(g, s, i, act) && InSets(g, s)
    requires OpsValid(g, s) && ParentsKept(g, s)
    ensures OfInstance(g, Dispatch(g, s, i, act).ops, |s.ops|)
  {
    var t := Dispatch(g, s, i, act);
    hide Wired, RollGoing, InRange, Legal, Dispatch, Deps, Past, Traceable, Rolled, OpsValid, ParentsKept;
    hide LastsOfInstance, InSets;
    PairsAre(g, s);
    DispatchExtends(g, s, i, act);
    forall a | act == Mutate && a in t.ops[|s.ops|].past
      ensures var c := t.ops[|s.ops|].create;
              a == c || a in t.ops[c].past || (c < a < |s.ops| && t.ops[a].node == i)
    {
      NewMutateIsOfInstance(g, s, i, a);
    }
  }

  lemma DispatchKeepsRolled(g: Graph, s: Sched, i: nat, act: Action)
    requires WellFormed(g) && Valid(g, s) && Wired(g, s) && RollGoing(g, s) && Legal(g, s, i, act)
    requires |s.ns| == |g.nodes| && Rolled(g, s) && LastsOfInstance(s)
    ensures var t := Dispatch(g, s, i, act); |t.ns| == |g.nodes| && Rolled(g, t) && LastsOfInstance(t)
  {
    var t := Dispatch(g, s, i, act);
    var past := Past(s.ops, Deps(g, s, i, act));
    hide Valid, Wired, RollGoing, Legal, Dispatch, Past, Deps, Rolled, LastsOfInstance, Extends, RollMoves;
    DispatchExtends(g, s, i, act);
    DispatchMovesRoll(g, s, i, act);
    ExtensionGrows(s, t, i, act, past);
    MoveKeepsRolled(g, s, t, i, act, past);
    ExtendKeepsLasts(s, t, i, act, past);
  }

  lemma NewHasPairs(g: Graph, s: Sched, i: nat, act: Action)
    requires WellFormed(g) && Valid(g, s) && Wired(g, s) && RollGoing(g, s) && Legal(g, s, i, act) && InSets(g, s)
    requires InLine(g, s) && forall b :: 0 <= b < |s.ops| ==> BehindDescendants(g, s.ops, b)
    ensures |Dispatch(g, s, i, act).ops| == |s.ops| + 1 && PairsAt(g, Dispatch(g, s, i, act).ops, |s.ops|)
  {
    hide Valid, Wired, RollGoing, InRange, Legal, Dispatch, Traceable, BehindRolls, OfInstance, Settled, RelatedInOrder;
    hide InSets, OpsValid, ParentsKept, BehindDescendants;
    ValidParts(g, s);
    DispatchGrowsOps(g, s, i, act);
    NewIsTraced(g, s, i, act);
    NewIsBehindRolls(g, s, i, act);
    NewIsOfInstance(g, s, i, act);
  }

  lemma DispatchGrowsOps(g: Graph, s: Sched, i: nat, act: Action)
    requires WellFormed(g) && Wired(g, s) && RollGoing(g, s) && Legal(g, s, i, act)
    ensures var t := Dispatch(g, s, i, act);
            |t.ops| == |s.ops| + 1 && forall j :: 0 <= j < |s.ops| ==> t.ops[j] == s.ops[j]
  {
  }

  lemma DispatchKeepsPairs(g: Graph, s: Sched, i: nat, act: Action, b: nat)
    requires WellFormed(g) && Valid(g, s) && Wired(g, s) && RollGoing(g, s) && Legal(g, s, i, act) && InSets(g, s)
    requires InLine(g, s) && forall b :: 0 <= b < |s.ops| ==> BehindDescendants(g, s.ops, b)
    requires b < |Dispatch(g, s, i, act).ops|
    ensures PairsAt(g, Dispatch(g, s, i, act).ops, b)
  {
    hide Valid, Wired, RollGoing, Legal, Dispatch, InLine, PairsAt, BehindDescendants, Rolled, LastsOfInstance;
    DispatchGrowsOps(g, s, i, act);
    if b < |s.ops| {
      assert PairsAt(g, s.ops, b);
      ExtendKeepsPairs(g, s.ops, Dispatch(g, s, i, act).ops, b);
    } else {
      NewHasPairs(g, s, i, act);
    }
  }

  lemma DispatchKeepsInSets(g: Graph, s: Sched, i: nat, act: Action)
    requires WellFormed(g) && Valid(g, s) && Wired(g, s) && RollGoing(g, s) && Legal(g, s, i, act) && InSets(g, s)
    requires InLine(g, s) && forall b :: 0 <= b < |s.ops| ==> BehindDescendants(g, s.ops, b)
    ensures InSets(g, Dispatch(g, s, i, act))
  {
    hide Valid, Wired, RollGoing, Legal, Dispatch, InLine, Rolled, LastsOfInstance, PairsAt, BehindDescendants;
    DispatchKeepsRolled(g, s, i, act);
    forall b | 0 <= b < |Dispatch(g, s, i, act).ops|
      ensures PairsAt(g, Dispatch(g, s, i, act).ops, b)
    {
      DispatchKeepsPairs(g, s, i, act, b);
    }
  }

  lemma ExtensionGrows(s: Sched, t: Sched, i: nat, act: Action, past: set<nat>)
    requires Extends(s, t, i, act, past)
    ensures |t.ns| == |s.ns| && |t.ops| == |s.ops| + 1 && forall j :: 0 <= j < |s.ops| ==> t.ops[j] == s.ops[j]
  {
  }

  lemma ValidParts(g: Graph, s: Sched)
    requires WellFormed(g) && Valid(g, s)
    ensures OpsValid(g, s) && ParentsKept(g, s) && InRange(g, s) && Chained(g, s)
  {
  }

  lemma StartKeepsInSets(g: Graph, s: Sched, root: nat)
    requires WellFormed(g) && Wired(g, s) && MayRoll(g, s, root) && InSets(g, s)
    ensures InSets(g, StartRoll(g, s, root))
  {
    hide Wired, Rolled, MayRoll, StartRoll, Traceable, BehindRolls, OfInstance;
    StartIsRolled(g, s, root);
    RollStarts(g, s, root);
  }

  lemma NextKeepsInSets(g: Graph, s: Sched, choice: Choice)
    requires WellFormed(g) && Valid(g, s) && InSets(g, s) && InLine(g, s) && Next(g, s, choice).Some?
    requires forall b :: 0 <= b < |s.ops| ==> BehindDescendants(g, s.ops, b)
    ensures InSets(g, Next(g, s, choice).value)
  {
    hide Valid, Wired, RollGoing, InSets, InLine, Dispatch, StartRoll, BehindDescendants;
    ValidIsWired(g, s);
    match choice
    case Do(i, act) => DispatchKeepsInSets(g, s, i, act);
    case Replace(root) => StartKeepsInSets(g, s, root);
  }

  lemma InitialIsInSets(g: Graph)
    requires WellFormed(g)
    ensures InSets(g, Initial(g))
  {
  }

  lemma {:induction false} ExecIsInSets(g: Graph, choices: seq<Choice>)
    requires WellFormed(g) && Exec(g, choices).Some?
    ensures InSets(g, Exec(g, choices).value)
  {
    hide InSets, InLine, BehindDescendants, Valid, Next;
    if choices == [] {
      InitialIsInSets(g);
    } else {
      var before := choices[..|choices| - 1];
      ExecIsInSets(g, before);
      ExecIsInLine(g, before);
      ExecIsBehind(g, before);
      NextKeepsInSets(g, Exec(g, before).value, choices[|choices| - 1]);
    }
  }

  /** When b, a later operation of a's rolling set, waits for a: a delete, if a came
      before the roll or works below its node; another one, if a roll of the set has
      deleted something since a and before b's instance, or if a works on b's node
      or creates an ancestor of it. */
  ghost predicate WaitsFor(g: Graph, ops: seq<Op>, a: nat, b: nat)
    requires WellFormed(g) && a < b < |ops|
  {
    if ops[b].act == Delete then
      ops[b].after.Some? && ops[b].node < |g.nodes| && (a < ops[b].after.value || Below(g, ops[b].node, ops[a].node))
    else
      RolledSince(g, ops, a, ops[b].create) || Lineal(g, ops[a], ops[b].node)
  }

  /** Of two operations of one rolling set the later waits for the earlier exactly
      then. */
  lemma SetOrder(g: Graph, choices: seq<Choice>, s: Sched, a: nat, b: nat)
    requires WellFormed(g) && Exec(g, choices) == Some(s) && a < b < |s.ops|
    requires RollOf(g, s.ops[a]) == RollOf(g, s.ops[b]) != ""
    ensures a in s.ops[b].past <==> WaitsFor(g, s.ops, a, b)
  {
    hide Valid, Exec, Rolled, LastsOfInstance, ComesFrom, Recreated, Below;
    ExecIsInSets(g, choices);
    InRangeOf(g, s, b);
    match s.ops[b].act
    case Delete =>
      BehindOfRoll(g, s, b);
      RollOrderIsDescent(g, choices, s, a, b);
    case Create => CreateOrder(g, choices, s, a, b);
    case Mutate => MutateOrder(g, choices, s, a, b);
  }

  lemma InRangeOf(g: Graph, s: Sched, b: nat)
    requires WellFormed(g) && Valid(g, s) && b < |s.ops|
    ensures s.ops[b].node < |g.nodes| && s.ops[b].create <= b && (s.ops[b].act == Create <==> s.ops[b].create == b)
    ensures OpsValid(g, s) && InRange(g, s)
  {
  }

  lemma BehindOfRoll(g: Graph, s: Sched, b: nat)
    requires WellFormed(g) && |s.ns| == |g.nodes| && Rolled(g, s) && b < |s.ops|
    ensures s.ops[b].act == Delete && RollOf(g, s.ops[b]) != "" ==> s.ops[b].after.Some?
    ensures s.ops[b].after.Some? ==> s.ops[b].act == Delete
  {
    assert RollsAt(g, s.ops, b);
  }

  lemma CreateOrder(g: Graph, choices: seq<Choice>, s: Sched, a: nat, b: nat)
    requires WellFormed(g) && Exec(g, choices) == Some(s) && a < b < |s.ops| && InSets(g, s) && s.ops[b].act == Create
    requires RollOf(g, s.ops[a]) == RollOf(g, s.ops[b]) != ""
    ensures a in s.ops[b].past <==> RolledSince(g, s.ops, a, b) || Lineal(g, s.ops[a], s.ops[b].node)
  {
    hide Valid, Exec, Rolled, LastsOfInstance, Below;
    RelativesAreOrdered(g, choices, s, a, b);
    assert PairsAt(g, s.ops, b);
    if RolledSince(g, s.ops, a, b + 1) {
      var e :| a <= e < b + 1 && s.ops[e].after.Some? && RollOf(g, s.ops[e]) == RollOf(g, s.ops[a]);
      BehindOfRoll(g, s, e);
      assert RolledSince(g, s.ops, a, b);
    }
  }

  lemma MutateOrder(g: Graph, choices: seq<Choice>, s: Sched, a: nat, b: nat)
    requires WellFormed(g) && Exec(g, choices) == Some(s) && a < b < |s.ops| && InSets(g, s) && s.ops[b].act == Mutate
    requires RollOf(g, s.ops[a]) == RollOf(g, s.ops[b]) != ""
    ensures a in s.ops[b].past <==> RolledSince(g, s.ops, a, s.ops[b].create) || Lineal(g, s.ops[a], s.ops[b].node)
  {
    hide Valid, Exec, Rolled, LastsOfInstance, ComesFrom, Recreated;
    InRangeOf(g, s, b);
    assert PairsAt(g, s.ops, b);
    var c := s.ops[b].create;
    RelativesAreOrdered(g, choices, s, a, b);
    RelativesAreOrdered(g, choices, s, c, b);
    assert RolledSince(g, s.ops, a, c) ==> a < c;
    if a < c {
      CreateOrder(g, choices, s, a, c);
      if a in s.ops[c].past {
        PastIsTransitive(g, s.ops, c, a, b);
      }
    }
  }
}
