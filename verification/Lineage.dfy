/** Which operations of a node and its ancestors are ordered: all but a mutate
    of the ancestor. */
module Lineage {
  import opened Options
  import opened Graphs
  import opened Scheduling
  import opened Siblings

  // Two operations of one node, or one of a node and one of an ancestor that is
  // not a mutate.
  ghost predicate Related(g: Graph, a: Op, b: Op)
    requires WellFormed(g) && a.node < |g.nodes| && b.node < |g.nodes|
  {
    || a.node == b.node
    || (a.act != Mutate && Below(g, a.node, b.node))
    || (b.act != Mutate && Below(g, b.node, a.node))
  }

  // Every such operation of an ancestor is behind a present node's create.
  ghost predicate Settled(g: Graph, s: Sched)
    requires WellFormed(g) && Wired(g, s) && InRange(g, s)
  {
    forall y, a {:trigger Below(g, s.ops[a].node, y)} ::
      0 <= y < |s.ns| && s.ns[y].present && 0 <= a < |s.ops| && s.ops[a].act != Mutate && Below(g, s.ops[a].node, y) ==>
        var c := s.ns[y].create.value;
        a == c || a in s.ops[c].past
  }

  ghost predicate RelatedInOrder(g: Graph, s: Sched)
    requires WellFormed(g) && InRange(g, s)
  {
    forall a, b :: 0 <= a < b < |s.ops| && Related(g, s.ops[a], s.ops[b]) ==> a in s.ops[b].past
  }

  // The last step of a descent.
  lemma {:induction false} BelowParent(g: Graph, a: nat, d: nat) returns (p: nat)
    requires WellFormed(g) && a < |g.nodes| && Below(g, a, d) && a != d
    ensures d < |g.nodes| && p in g.parents[d] && p < |g.nodes| && Below(g, a, p)
    decreases Height(g)[a]
  {
    var c :| c in g.children[a] && Height(g)[c] < Height(g)[a] && Below(g, c, d);
    if c == d {
      p := a;
    } else {
      p := BelowParent(g, c, d);
      BelowChildOf(g, a, c, p);
    }
  }

  // A new create is behind what its ancestors' operations other than mutates did.
  lemma CreateIsSettled(g: Graph, s: Sched, i: nat, a: nat)
    requires WellFormed(g) && Valid(g, s) && Wired(g, s) && InRange(g, s) && Settled(g, s) && Legal(g, s, i, Create)
    requires a < |s.ops| && s.ops[a].act != Mutate && Below(g, s.ops[a].node, i)
    ensures a in Past(s.ops, Deps(g, s, i, Create))
  {
    var x := s.ops[a].node;
    hide AbsentBehind, ConflictsOrdered, DeletedOnce, NoneForgotten, ParentsKept, RollsSerial;
    if x == i {
      NewIsBehindOwn(g, s, i, Create, a);
    } else {
      var p := BelowParent(g, x, i);
      ParentsHaveCreates(g, s, i, Create);
      var k :| 0 <= k < |g.parents[i]| && g.parents[i][k] == p;
      var c := s.ns[p].create.value;
      assert Creates(s.ns, g.parents[i])[k] == c;
      assert Below(g, s.ops[a].node, p);
      BehindDep(s.ops, Deps(g, s, i, Create), c, a);
    }
  }

  // An operation on a node whose ancestors were created or deleted.
  lemma NewIsBehindAncestors(g: Graph, s: Sched, i: nat, act: Action, a: nat)
    requires WellFormed(g) && Valid(g, s) && Wired(g, s) && InRange(g, s) && Settled(g, s) && Legal(g, s, i, act)
    requires a < |s.ops| && s.ops[a].act != Mutate && Below(g, s.ops[a].node, i)
    ensures a in Past(s.ops, Deps(g, s, i, act))
  {
    if act == Create {
      CreateIsSettled(g, s, i, a);
    } else {
      hide AbsentBehind, ConflictsOrdered, DeletedOnce, NoneForgotten, ParentsKept, RollsSerial;
      ParentsHaveCreates(g, s, i, act);
      var c, l := s.ns[i].create.value, s.ns[i].last.value;
      assert a == c || a in s.ops[c].past;
      assert c == l || c in s.ops[l].past;
      if a != c && c != l {
        PastIsTransitive(g, s.ops, c, a, l);
      }
      BehindDep(s.ops, Deps(g, s, i, act), l, a);
    }
  }

  // A create or delete of a node is behind every operation below it.
  lemma NewIsBehindDescendants(g: Graph, s: Sched, i: nat, act: Action, a: nat)
    requires WellFormed(g) && Valid(g, s) && Legal(g, s, i, act) && act != Mutate
    requires a < |s.ops| && Below(g, i, s.ops[a].node)
    ensures a in Past(s.ops, Deps(g, s, i, act))
  {
    if act == Delete {
      NewDeleteIsBehind(g, s, i, a);
    } else {
      hide ConflictsOrdered, DeletedOnce, NoneForgotten, ParentsKept, RollsSerial;
      AbsentIsLast(g, s, i, a);
      BehindDep(s.ops, Deps(g, s, i, act), s.ns[i].last.value, a);
    }
  }

  lemma NewIsBehindRelated(g: Graph, s: Sched, i: nat, act: Action, a: nat)
    requires WellFormed(g) && Valid(g, s) && Wired(g, s) && InRange(g, s) && Settled(g, s)
    requires RollGoing(g, s) && Legal(g, s, i, act)
    requires a < |s.ops| && i < |g.nodes| && Related(g, s.ops[a], Dispatch(g, s, i, act).ops[|s.ops|])
    ensures a in Past(s.ops, Deps(g, s, i, act))
  {
    var x := s.ops[a].node;
    DispatchExtends(g, s, i, act);
    assert Chained(g, s);
    hide Valid, Wired, InRange, Settled, Dispatch, Legal, Past, Chained;
    if x == i {
      NewIsBehindOwn(g, s, i, act, a);
    } else if s.ops[a].act != Mutate && Below(g, x, i) {
      NewIsBehindAncestors(g, s, i, act, a);
    } else {
      NewIsBehindDescendants(g, s, i, act, a);
    }
  }

  // After a create or delete of i no node below i is present, or i is it.
  lemma NonePresentBelow(g: Graph, s: Sched, t: Sched, i: nat, act: Action, past: set<nat>, y: nat)
    requires WellFormed(g) && Wired(g, s) && Wired(g, t) && Extends(s, t, i, act, past) && act != Mutate
    requires y < |t.ns| && t.ns[y].present && y != i
    ensures !Below(g, i, y)
  {
    if Below(g, i, y) {
      if act == Create {
        assert y in Present(s.ns);
        AncestorsStay(g, Present(s.ns), i, y);
      } else {
        assert y in Present(t.ns);
        AncestorsStay(g, Present(t.ns), i, y);
      }
    }
  }

  lemma ExtendKeepsSettled(g: Graph, s: Sched, t: Sched, i: nat, act: Action, past: set<nat>)
    requires WellFormed(g) && Wired(g, s) && InRange(g, s) && Wired(g, t) && InRange(g, t) && Settled(g, s)
    requires Extends(s, t, i, act, past)
    requires act == Create ==>
               forall a :: 0 <= a < |s.ops| && s.ops[a].act != Mutate && Below(g, s.ops[a].node, i) ==> a in past
    ensures Settled(g, t)
  {
    forall y, a | 0 <= y < |t.ns| && t.ns[y].present && 0 <= a < |t.ops| && t.ops[a].act != Mutate
                  && Below(g, t.ops[a].node, y)
      ensures var c := t.ns[y].create.value; a == c || a in t.ops[c].past
    {
      if a == |s.ops| {
        if y != i {
          NonePresentBelow(g, s, t, i, act, past, y);
        }
      } else if y != i || act != Create {
        assert s.ns[y].present && Below(g, s.ops[a].node, y);
      }
    }
  }

  lemma ExtendKeepsRelated(g: Graph, s: Sched, t: Sched, i: nat, act: Action, past: set<nat>)
    requires WellFormed(g) && InRange(g, s) && InRange(g, t) && RelatedInOrder(g, s) && Extends(s, t, i, act, past)
    requires forall a :: 0 <= a < |s.ops| && Related(g, s.ops[a], t.ops[|s.ops|]) ==> a in past
    ensures RelatedInOrder(g, t)
  {
    hide Related;
  }

  ghost predicate InLine(g: Graph, s: Sched)
    requires WellFormed(g)
  {
    Wired(g, s) && InRange(g, s) && Settled(g, s) && RelatedInOrder(g, s)
  }

  lemma DispatchKeepsInLine(g: Graph, s: Sched, i: nat, act: Action)
    requires WellFormed(g) && Valid(g, s) && InLine(g, s) && Wired(g, s) && RollGoing(g, s) && Legal(g, s, i, act)
    ensures InLine(g, Dispatch(g, s, i, act))
  {
    var t := Dispatch(g, s, i, act);
    var past := Past(s.ops, Deps(g, s, i, act));
    DispatchKeepsValid(g, s, i, act);
    assert Wired(g, t) && InRange(g, t);
    hide Valid, Wired, RollGoing, InRange, Settled, RelatedInOrder, Dispatch, Legal, Related, Past;
    DispatchExtends(g, s, i, act);
    forall a | 0 <= a < |s.ops| && Related(g, s.ops[a], t.ops[|s.ops|])
      ensures a in past
    {
      NewIsBehindRelated(g, s, i, act, a);
    }
    forall a | act == Create && 0 <= a < |s.ops| && s.ops[a].act != Mutate && Below(g, s.ops[a].node, i)
      ensures a in past
    {
      CreateIsSettled(g, s, i, a);
    }
    ExtendKeepsSettled(g, s, t, i, act, past);
    ExtendKeepsRelated(g, s, t, i, act, past);
  }

  lemma StartKeepsInLine(g: Graph, s: Sched, root: nat)
    requires WellFormed(g) && Valid(g, s) && InLine(g, s) && MayRoll(g, s, root)
    ensures InLine(g, StartRoll(g, s, root))
  {
    hide Visit, SetLasts;
    StartRollKeepsValid(g, s, root);
  }

  lemma InitialIsInLine(g: Graph)
    requires WellFormed(g)
    ensures InLine(g, Initial(g))
  {
  }

  lemma NextKeepsInLine(g: Graph, s: Sched, choice: Choice)
    requires WellFormed(g) && Valid(g, s) && InLine(g, s) && Next(g, s, choice).Some?
    ensures InLine(g, Next(g, s, choice).value)
  {
    assert Wired(g, s) && RollGoing(g, s);
    hide Valid, InLine, Dispatch, StartRoll, Wired, RollGoing;
    match choice
    case Do(i, act) => DispatchKeepsInLine(g, s, i, act);
    case Replace(root) => StartKeepsInLine(g, s, root);
  }

  lemma {:induction false} ExecIsInLine(g: Graph, choices: seq<Choice>)
    requires WellFormed(g) && Exec(g, choices).Some?
    ensures InLine(g, Exec(g, choices).value)
  {
    hide InLine, Valid, Next;
    if choices == [] {
      InitialIsInLine(g);
    } else {
      ExecIsInLine(g, choices[..|choices| - 1]);
      NextKeepsInLine(g, Exec(g, choices[..|choices| - 1]).value, choices[|choices| - 1]);
    }
  }

  /** Whatever is decided, of two operations of one node, or of a node and one of
      its ancestors, the later waits for the earlier unless the ancestor's is a
      mutate. */
  lemma RelativesAreOrdered(g: Graph, choices: seq<Choice>, s: Sched, a: nat, b: nat)
    requires WellFormed(g) && Exec(g, choices) == Some(s) && a < b < |s.ops|
    ensures s.ops[a].node < |g.nodes| && s.ops[b].node < |g.nodes|
    ensures Related(g, s.ops[a], s.ops[b]) ==> a in s.ops[b].past
  {
    hide Valid, Related;
    ExecIsInLine(g, choices);
  }
}
