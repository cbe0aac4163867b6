/** Which deletes of one roll wait for one another: exactly those of a node and
    its descendants. Siblings may be in flight together. */
module Siblings {
  import opened Options
  import opened Graphs
  import opened Scheduling

  // While a roll is in progress, what was dispatched since its start are its deletes.
  ghost predicate DuringRoll(g: Graph, s: Sched)
    requires Linked(g) && |s.ns| == |g.nodes|
  {
    s.roll.left != [] ==>
      && (forall e :: e in s.roll.extra ==> e < s.roll.start)
      && forall j :: s.roll.start <= j < |s.ops| ==>
           s.ops[j].after == Some(s.roll.start) && s.ops[j].node < |s.ns| && !s.ns[s.ops[j].node].present
  }

  // A delete of a roll is behind another of the same roll only if it deletes an
  // ancestor.
  ghost predicate DescentAt(g: Graph, ops: seq<Op>, b: nat)
    requires WellFormed(g) && b < |ops|
  {
    ops[b].after.Some? ==>
      && ops[b].act == Delete && ops[b].node < |g.nodes|
      && forall a :: a in ops[b].past && a >= ops[b].after.value ==>
           a < |ops| && ops[a].after == ops[b].after && Below(g, ops[b].node, ops[a].node)
  }

  ghost predicate Descends(g: Graph, s: Sched)
    requires WellFormed(g) && |s.ns| == |g.nodes|
  {
    DuringRoll(g, s) && forall b :: 0 <= b < |s.ops| ==> DescentAt(g, s.ops, b)
  }

  lemma BelowChildOf(g: Graph, i: nat, c: nat, d: nat)
    requires WellFormed(g) && i < |g.nodes| && c in g.children[i] && Below(g, c, d)
    ensures Below(g, i, d)
  {
    assert Height(g)[c] < Height(g)[i];
  }

  // What a new delete of a roll waits for since the start of the roll.
  lemma RollDepsDescend(g: Graph, s: Sched, i: nat, d: nat)
    requires WellFormed(g) && Wired(g, s) && RollGoing(g, s) && Legal(g, s, i, Delete) && s.roll.left != []
    requires DuringRoll(g, s)
    requires d in Deps(g, s, i, Delete) && d >= s.roll.start
    ensures d < |s.ops| && s.ops[d].node in g.children[i] && s.ops[d].after == Some(s.roll.start)
  {
    ParentsHaveCreates(g, s, i, Delete);
    var cs := Creates(s.ns, g.parents[i]);
    forall k | 0 <= k < |cs|
      ensures cs[k] < s.roll.start
    {
      assert g.parents[i][k] in g.parents[i] && s.ns[g.parents[i][k]].present;
      assert s.ops[cs[k]].node == g.parents[i][k];
    }
    if d in GoneLasts(s.ns, g.children[i]) {
      var c :| c in g.children[i] && !s.ns[c].present && s.ns[c].last == Some(d);
    }
  }

  lemma NewDeleteDescends(g: Graph, s: Sched, i: nat)
    requires WellFormed(g) && Wired(g, s) && RollGoing(g, s) && InRange(g, s) && Descends(g, s)
    requires Legal(g, s, i, Delete) && s.roll.left != []
    ensures DescentAt(g, Dispatch(g, s, i, Delete).ops, |s.ops|)
  {
    var ops := Dispatch(g, s, i, Delete).ops;
    var deps := Deps(g, s, i, Delete);
    forall a | a in Past(s.ops, deps) && a >= s.roll.start
      ensures a < |s.ops| && s.ops[a].after == Some(s.roll.start) && Below(g, i, s.ops[a].node)
    {
      var d :| d in deps && (a == d || (d < |s.ops| && a in s.ops[d].past));
      if a != d {
        assert a < d;
      }
      RollDepsDescend(g, s, i, d);
      assert DescentAt(g, s.ops, d);
      assert Below(g, s.ops[d].node, s.ops[a].node);
      BelowChildOf(g, i, s.ops[d].node, s.ops[a].node);
    }
  }

  lemma ExtendKeepsDescent(g: Graph, s: Sched, t: Sched, i: nat, act: Action, past: set<nat>, b: nat)
    requires WellFormed(g) && Extends(s, t, i, act, past) && b < |s.ops| && DescentAt(g, s.ops, b)
    ensures DescentAt(g, t.ops, b)
  {
  }

  lemma DispatchKeepsDuring(g: Graph, s: Sched, i: nat, act: Action)
    requires WellFormed(g) && Wired(g, s) && RollGoing(g, s) && DuringRoll(g, s) && Legal(g, s, i, act)
    ensures |Dispatch(g, s, i, act).ns| == |g.nodes| && DuringRoll(g, Dispatch(g, s, i, act))
  {
    hide Deps, Past, Creates;
  }

  lemma DispatchKeepsDescends(g: Graph, s: Sched, i: nat, act: Action)
    requires WellFormed(g) && Valid(g, s) && |s.ns| == |g.nodes| && Descends(g, s) && Legal(g, s, i, act)
    ensures |Dispatch(g, s, i, act).ns| == |g.nodes| && Descends(g, Dispatch(g, s, i, act))
  {
    assert Wired(g, s) && RollGoing(g, s) && InRange(g, s);
    var t := Dispatch(g, s, i, act);
    assert act == Delete || s.roll.left == [];
    assert s.roll.left == [] ==> t.ops[|s.ops|].after == None;
    hide Valid, Wired, RollGoing, InRange, Dispatch, DuringRoll, DescentAt, Legal, Extends;
    DispatchKeepsDuring(g, s, i, act);
    DispatchExtends(g, s, i, act);
    if s.roll.left != [] {
      NewDeleteDescends(g, s, i);
    } else {
      NewPlainDescends(g, t.ops, |s.ops|);
    }
    forall b | 0 <= b < |s.ops|
      ensures DescentAt(g, t.ops, b)
    {
      ExtendKeepsDescent(g, s, t, i, act, Past(s.ops, Deps(g, s, i, act)), b);
    }
  }

  lemma NewPlainDescends(g: Graph, ops: seq<Op>, b: nat)
    requires WellFormed(g) && b < |ops| && ops[b].after == None
    ensures DescentAt(g, ops, b)
  {
  }

  lemma StartKeepsDescends(g: Graph, s: Sched, root: nat)
    requires WellFormed(g) && Wired(g, s) && MayRoll(g, s, root) && Descends(g, s)
    ensures Descends(g, StartRoll(g, s, root))
  {
    hide DescentAt, Visit, SetLasts;
    ExtraIsBefore(g, s, g.nodes[root].roll);
  }

  lemma NextKeepsDescends(g: Graph, s: Sched, choice: Choice)
    requires WellFormed(g) && Valid(g, s) && |s.ns| == |g.nodes| && Descends(g, s) && Next(g, s, choice).Some?
    ensures var t := Next(g, s, choice).value; |t.ns| == |g.nodes| && Descends(g, t)
  {
    assert Wired(g, s);
    hide Valid, Wired, Descends, Dispatch;
    match choice
    case Do(i, act) => DispatchKeepsDescends(g, s, i, act);
    case Replace(root) => StartKeepsDescends(g, s, root);
  }

  lemma ExtraIsBefore(g: Graph, s: Sched, roll: string)
    requires Linked(g) && Wired(g, s)
    ensures forall e :: e in SetLasts(g, s.ns, roll, 0) ==> e < |s.ops|
  {
    forall e | e in SetLasts(g, s.ns, roll, 0)
      ensures e < |s.ops|
    {
      var i :| 0 <= i < |s.ns| && s.ns[i].last == Some(e);
    }
  }

  lemma {:induction false} ExecDescends(g: Graph, choices: seq<Choice>)
    requires WellFormed(g) && Exec(g, choices).Some?
    ensures var s := Exec(g, choices).value; |s.ns| == |g.nodes| && Descends(g, s)
  {
    hide Descends, Valid, Next;
    if choices == [] {
      assert Descends(g, Initial(g)) by { InitialDescends(g); }
    } else {
      ExecDescends(g, choices[..|choices| - 1]);
      NextKeepsDescends(g, Exec(g, choices[..|choices| - 1]).value, choices[|choices| - 1]);
    }
  }

  lemma InitialDescends(g: Graph)
    requires WellFormed(g)
    ensures Descends(g, Initial(g))
  {
  }

  lemma {:induction false} PastIsTransitive(g: Graph, ops: seq<Op>, x: nat, y: nat, b: nat)
    requires Linked(g) && (forall j :: 0 <= j < |ops| ==> OpValid(g, ops, j))
    requires b < |ops| && x in ops[b].past && x < |ops| && y in ops[x].past
    ensures y in ops[b].past
    decreases b
  {
    assert OpValid(g, ops, b);
    if x !in ops[b].deps {
      var d :| d in ops[b].deps && x in ops[d].past;
      PastIsTransitive(g, ops, x, y, d);
    }
  }

  // Every operation below an absent node is behind the node's last one.
  lemma {:induction false} AbsentIsLast(g: Graph, s: Sched, c: nat, j: nat)
    requires WellFormed(g) && Wired(g, s) && InRange(g, s) && OpsValid(g, s) && Chained(g, s) && AbsentBehind(g, s)
    requires c < |g.nodes| && !s.ns[c].present && j < |s.ops| && Below(g, c, s.ops[j].node)
    ensures s.ns[c].last.Some? && (j == s.ns[c].last.value || j in s.ops[s.ns[c].last.value].past)
    decreases Height(g)[c]
  {
    if s.ops[j].node != c {
      var x :| x in g.children[c] && Height(g)[x] < Height(g)[c] && Below(g, x, s.ops[j].node);
      assert s.ns[x].present ==> x in Present(s.ns);
      assert !s.ns[x].present;
      AbsentIsLast(g, s, x, j);
      var l := s.ns[x].last.value;
      assert c in g.parents[s.ops[l].node];
      assert l in s.ops[s.ns[c].last.value].past;
      if j != l {
        PastIsTransitive(g, s.ops, l, j, s.ns[c].last.value);
      }
    }
  }

  // A Delete is behind every earlier operation of every descendant.
  ghost predicate BehindDescendants(g: Graph, ops: seq<Op>, b: nat)
    requires WellFormed(g) && b < |ops|
  {
    ops[b].act == Delete && ops[b].node < |g.nodes| ==>
      forall a :: 0 <= a < b && Below(g, ops[b].node, ops[a].node) ==> a in ops[b].past
  }

  lemma NewDeleteIsBehind(g: Graph, s: Sched, i: nat, a: nat)
    requires WellFormed(g) && Valid(g, s) && Legal(g, s, i, Delete) && a < |s.ops| && Below(g, i, s.ops[a].node)
    ensures a in Past(s.ops, Deps(g, s, i, Delete))
  {
    ParentsHaveCreates(g, s, i, Delete);
    hide ConflictsOrdered, DeletedOnce, NoneForgotten, ParentsKept, RollsSerial;
    if s.ops[a].node == i {
      NewIsBehindOwn(g, s, i, Delete, a);
    } else {
      var c :| c in g.children[i] && Height(g)[c] < Height(g)[i] && Below(g, c, s.ops[a].node);
      if s.roll.left != [] {
        FirstIsChildless(g, s, c);
      }
      AbsentIsLast(g, s, c, a);
      assert s.ns[c].last.value in GoneLasts(s.ns, g.children[i]);
      BehindDep(s.ops, Deps(g, s, i, Delete), s.ns[c].last.value, a);
    }
  }

  lemma ExtendKeepsBehind(g: Graph, s: Sched, t: Sched, i: nat, act: Action, past: set<nat>)
    requires WellFormed(g) && Extends(s, t, i, act, past) && i < |g.nodes|
    requires forall b :: 0 <= b < |s.ops| ==> BehindDescendants(g, s.ops, b)
    requires act == Delete ==> forall a :: 0 <= a < |s.ops| && Below(g, i, s.ops[a].node) ==> a in past
    ensures forall b :: 0 <= b < |t.ops| ==> BehindDescendants(g, t.ops, b)
  {
    forall b | 0 <= b < |s.ops|
      ensures BehindDescendants(g, t.ops, b)
    {
      assert BehindDescendants(g, s.ops, b);
    }
  }

  lemma NextKeepsBehind(g: Graph, s: Sched, choice: Choice)
    requires WellFormed(g) && Valid(g, s) && Next(g, s, choice).Some?
    requires forall b :: 0 <= b < |s.ops| ==> BehindDescendants(g, s.ops, b)
    ensures var t := Next(g, s, choice).value; forall b :: 0 <= b < |t.ops| ==> BehindDescendants(g, t.ops, b)
  {
    if choice.Do? {
      var i, act := choice.node, choice.act;
      assert Wired(g, s) && RollGoing(g, s);
      hide Valid, Wired, RollGoing, Dispatch, BehindDescendants, Extends, Past;
      DispatchExtends(g, s, i, act);
      forall a | 0 <= a < |s.ops| && act == Delete && Below(g, i, s.ops[a].node)
        ensures a in Past(s.ops, Deps(g, s, i, act))
      {
        NewDeleteIsBehind(g, s, i, a);
      }
      ExtendKeepsBehind(g, s, Dispatch(g, s, i, act), i, act, Past(s.ops, Deps(g, s, i, act)));
    }
  }

  lemma {:induction false} ExecIsBehind(g: Graph, choices: seq<Choice>)
    requires WellFormed(g) && Exec(g, choices).Some?
    ensures var s := Exec(g, choices).value; forall b :: 0 <= b < |s.ops| ==> BehindDescendants(g, s.ops, b)
  {
    hide BehindDescendants, Valid, Next;
    if choices != [] {
      ExecIsBehind(g, choices[..|choices| - 1]);
      NextKeepsBehind(g, Exec(g, choices[..|choices| - 1]).value, choices[|choices| - 1]);
    }
  }

  predicate SameSet(g: Graph, a: Op, b: Op)
  {
    a.node < |g.nodes| && b.node < |g.nodes| && g.nodes[a.node].roll == g.nodes[b.node].roll
  }

  /** A delete of a roll waits, among the earlier operations of its set, for those
      before the roll and those below its node, and for no others. */
  lemma RollOrderIsDescent(g: Graph, choices: seq<Choice>, s: Sched, a: nat, b: nat)
    requires WellFormed(g) && Exec(g, choices) == Some(s) && a < b < |s.ops|
    requires s.ops[b].after.Some? && SameSet(g, s.ops[a], s.ops[b])
    ensures a in s.ops[b].past <==> a < s.ops[b].after.value || Below(g, s.ops[b].node, s.ops[a].node)
  {
    hide Valid;
    ExecDescends(g, choices);
    ExecIsBehind(g, choices);
    assert DescentAt(g, s.ops, b) && BehindDescendants(g, s.ops, b);
    if a < s.ops[b].after.value {
      RollsWaitForTheirSet(g, s, a, b);
    }
  }

  lemma RollsWaitForTheirSet(g: Graph, s: Sched, a: nat, b: nat)
    requires WellFormed(g) && Valid(g, s) && a < b < |s.ops| && s.ops[b].after.Some? && SameSet(g, s.ops[a], s.ops[b])
    requires a < s.ops[b].after.value
    ensures a in s.ops[b].past
  {
    assert CoversSet(g, s, s.ops[b], s.ops[b].past);
  }
}
