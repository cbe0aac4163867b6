/** Rolling sets over whole runs of the scheduler: once a set has been whole, what
    is missing of it is always one root's subtree, and it is put back before
    anything else is deleted. */
module Rolling {
  import opened Graphs
  import opened Scheduling
  import opened Policy

  // The absent members of set roll lie below root.
  ghost predicate MissingBelow(g: Graph, ns: seq<NodeState>, roll: string, root: nat)
    requires WellFormed(g) && |ns| == |g.nodes| && root < |g.nodes|
  {
    forall i :: 0 <= i < |ns| && g.nodes[i].roll == roll && !ns[i].present ==> Below(g, root, i)
  }

  // Every parent of a member outside the set is present.
  ghost predicate Supported(g: Graph, ns: seq<NodeState>, roll: string)
    requires Linked(g) && |ns| == |g.nodes|
  {
    forall i: nat, p: nat {:trigger p in g.parents[i]} ::
      i < |ns| && g.nodes[i].roll == roll && p in g.parents[i] && g.nodes[p].roll != roll ==> ns[p].present
  }

  /** A set that has been whole. */
  ghost predicate Anchored(g: Graph, ns: seq<NodeState>, roll: string)
    requires WellFormed(g) && |ns| == |g.nodes|
  {
    && Supported(g, ns, roll)
    && exists root: nat ::
         root < |g.nodes| && RollRoot(g, root) && g.nodes[root].roll == roll && MissingBelow(g, ns, roll, root)
  }

  lemma WholeIsAnchored(g: Graph, s: Sched, root: nat)
    requires WellFormed(g) && Wired(g, s) && root < |g.nodes| && RollRoot(g, root)
    requires SetWhole(g, s.ns, g.nodes[root].roll)
    ensures Anchored(g, s.ns, g.nodes[root].roll)
  {
    var roll := g.nodes[root].roll;
    assert MissingBelow(g, s.ns, roll, root);
    forall i: nat, p: nat | i < |s.ns| && g.nodes[i].roll == roll && p in g.parents[i]
      ensures s.ns[p].present
    {
      assert i in Present(s.ns) && p in Present(s.ns);
    }
  }

  // While an anchored set misses a node, one of its nodes can be created.
  lemma MissingCanBeCreated(g: Graph, ns: seq<NodeState>, roll: string)
    requires WellFormed(g) && |ns| == |g.nodes| && roll != "" && Supported(g, ns, roll) && !SetWhole(g, ns, roll)
    ensures All(g, ns, EagerCreating) != []
  {
    var missing := set i | 0 <= i < |ns| && g.nodes[i].roll == roll && !ns[i].present;
    var x :| 0 <= x < |ns| && g.nodes[x].roll == roll && !ns[x].present;
    assert x in missing;
    var m := Topmost(g, missing);
    forall p | p in g.parents[m]
      ensures ns[p].present
    {
      assert p !in missing;
    }
    assert Eligible(g, ns, EagerCreating, m);
  }

  // More present nodes keep a set anchored.
  lemma GrowthKeepsAnchored(g: Graph, a: seq<NodeState>, b: seq<NodeState>, roll: string)
    requires WellFormed(g) && |a| == |b| == |g.nodes| && Anchored(g, a, roll)
    requires forall i :: 0 <= i < |a| && a[i].present ==> b[i].present
    ensures Anchored(g, b, roll)
  {
    var root: nat :| root < |g.nodes| && RollRoot(g, root) && g.nodes[root].roll == roll
                     && MissingBelow(g, a, roll, root);
    assert MissingBelow(g, b, roll, root);
  }

  // A plain delete is drawn only while every anchored set is whole.
  lemma DeleteKeepsAnchored(g: Graph, a: seq<NodeState>, b: seq<NodeState>, roll: string, d: nat)
    requires WellFormed(g) && |a| == |b| == |g.nodes| && roll != "" && Anchored(g, a, roll) && SetWhole(g, a, roll)
    requires d < |a| && g.nodes[d].roll == "" && ChildrenAbsent(g, a, d)
    requires forall i :: 0 <= i < |a| && i != d ==> b[i].present == a[i].present
    ensures Anchored(g, b, roll)
  {
    var root: nat :| root < |g.nodes| && RollRoot(g, root) && g.nodes[root].roll == roll
                     && MissingBelow(g, a, roll, root);
    assert MissingBelow(g, b, roll, root);
    forall i: nat, p: nat | i < |b| && g.nodes[i].roll == roll && p in g.parents[i] && g.nodes[p].roll != roll
      ensures b[p].present
    {
      assert i in g.children[p];
      assert a[p].present;
    }
  }

  lemma DeleteRemoves(s: Sched, t: Sched, i: nat, past: set<nat>)
    requires Extends(s, t, i, Delete, past)
    ensures |t.ns| == |s.ns| && Present(t.ns) == Present(s.ns) - {i}
  {
  }

  lemma RollStep(g: Graph, s: Sched)
    requires WellFormed(g) && Valid(g, s) && s.roll.left != []
    ensures var i := s.roll.left[0];
            && Wired(g, s) && RollGoing(g, s) && Legal(g, s, i, Delete)
            && var t := Dispatch(g, s, i, Delete);
            && Valid(g, t) && t.roll.left == s.roll.left[1..] && Finish(g, s) == Finish(g, t)
            && |t.ns| == |s.ns| && Present(t.ns) == Present(s.ns) - {i}
  {
    var i := s.roll.left[0];
    DispatchKeepsValid(g, s, i, Delete);
    hide Valid, Wired, Present, Extends;
    DispatchExtends(g, s, i, Delete);
    DeleteRemoves(s, Dispatch(g, s, i, Delete), i, Past(s.ops, Deps(g, s, i, Delete)));
  }

  lemma HeadAndTail(left: seq<nat>)
    requires left != []
    ensures Elems(left) == {left[0]} + Elems(left[1..])
  {
  }

  // The rest of a roll deletes exactly the nodes that were left.
  lemma {:induction false} FinishDeletes(g: Graph, s: Sched)
    requires WellFormed(g) && Valid(g, s)
    ensures |Finish(g, s).ns| == |s.ns| && Present(Finish(g, s).ns) == Present(s.ns) - Elems(s.roll.left)
    decreases |s.roll.left|
  {
    hide Valid, Present, Elems, Legal, Wired, RollGoing, Dispatch;
    if s.roll.left == [] {
      assert Elems(s.roll.left) == {} by { NoElems(); }
    } else {
      hide Finish;
      RollStep(g, s);
      FinishDeletes(g, Dispatch(g, s, s.roll.left[0], Delete));
      HeadAndTail(s.roll.left);
    }
  }

  lemma NoElems()
    ensures Elems([]) == {}
  {
  }

  lemma StartedRoll(g: Graph, s: Sched, root: nat)
    requires WellFormed(g) && Valid(g, s) && s.roll.left == [] && MayRoll(g, s, root)
    ensures root < |s.ns| == |g.nodes| && root in Present(s.ns) && ParentClosed(g, Present(s.ns))
    ensures Wired(g, s) && Valid(g, StartRoll(g, s, root))
    ensures StartRoll(g, s, root).ns == s.ns && StartRoll(g, s, root).roll.left == Visit(g, root, Present(s.ns))
    ensures Apply(g, s, RollSet(root)) == Finish(g, StartRoll(g, s, root))
  {
    hide Valid, RollGoing;
    ValidIsWired(g, s);
    StartRollKeepsValid(g, s, root);
  }

  // A roll deletes the root's subtree and nothing else.
  lemma RollDeletes(g: Graph, s: Sched, root: nat)
    requires WellFormed(g) && Valid(g, s) && s.roll.left == [] && MayRoll(g, s, root)
    ensures |Apply(g, s, RollSet(root)).ns| == |s.ns| == |g.nodes|
    ensures forall i :: 0 <= i < |s.ns| ==>
              (Apply(g, s, RollSet(root)).ns[i].present <==> s.ns[i].present && !Below(g, root, i))
  {
    hide Valid, Wired, Apply, Finish, StartRoll, MayRoll, ParentClosed;
    StartedRoll(g, s, root);
    FinishDeletes(g, StartRoll(g, s, root));
    VisitDeletesSubtree(g, root, Present(s.ns));
    var u := Apply(g, s, RollSet(root));
    forall i | 0 <= i < |s.ns|
      ensures u.ns[i].present <==> s.ns[i].present && !Below(g, root, i)
    {
      assert u.ns[i].present <==> i in Present(u.ns);
      assert s.ns[i].present <==> i in Present(s.ns);
    }
  }

  lemma RollKeepsAnchored(g: Graph, s: Sched, root: nat, roll: string)
    requires WellFormed(g) && Valid(g, s) && s.roll.left == [] && MayRoll(g, s, root)
    requires roll != "" && |s.ns| == |g.nodes| && Anchored(g, s.ns, roll)
    ensures |Apply(g, s, RollSet(root)).ns| == |g.nodes| && Anchored(g, Apply(g, s, RollSet(root)).ns, roll)
  {
    hide Valid, Apply;
    RollDeletes(g, s, root);
    var ns := Apply(g, s, RollSet(root)).ns;
    var mine := g.nodes[root].roll;
    forall i | 0 <= i < |ns| && Below(g, root, i)
      ensures g.nodes[i].roll == mine
    {
      BelowKeepsRoll(g, root, i);
    }
    var was: nat :| was < |g.nodes| && RollRoot(g, was) && g.nodes[was].roll == roll
                    && MissingBelow(g, s.ns, roll, was);
    assert if mine == roll then MissingBelow(g, ns, roll, root) else MissingBelow(g, ns, roll, was);
    forall i: nat, p: nat | i < |ns| && g.nodes[i].roll == roll && p in g.parents[i] && g.nodes[p].roll != roll
      ensures ns[p].present
    {
      assert s.ns[p].present;
    }
  }

  // One step keeps an anchored set anchored.
  lemma StepKeepsAnchored(g: Graph, cfg: Config, s: Sched, u: Draws, pos: nat, roll: string)
    requires WellFormed(g) && Valid(g, s) && s.roll.left == [] && UnitDraws(u)
    requires roll != "" && |s.ns| == |g.nodes| && Anchored(g, s.ns, roll)
    requires Decidable(g, s, Draw(g, cfg, s.ns, u, pos).decision)
    ensures var t := Apply(g, s, Draw(g, cfg, s.ns, u, pos).decision);
            |t.ns| == |g.nodes| && Anchored(g, t.ns, roll)
  {
    assert Wired(g, s) && RollGoing(g, s);
    hide Valid, Draw, Anchored, Wired, RollGoing;
    var d := Draw(g, cfg, s.ns, u, pos).decision;
    match d
    case Noop =>
    case RollSet(root) => RollKeepsAnchored(g, s, root, roll);
    case Act(i, act) =>
      DispatchExtends(g, s, i, act);
      var t := Dispatch(g, s, i, act);
      if act != Delete {
        GrowthKeepsAnchored(g, s.ns, t.ns, roll);
      } else {
        if !SetWhole(g, s.ns, roll) {
          AnchoredIsSupported(g, s.ns, roll);
          MissingCanBeCreated(g, s.ns, roll);
          EagerIsDrawn(g, cfg, s.ns, u, pos);
        }
        DeleteKeepsAnchored(g, s.ns, t.ns, roll, i);
      }
  }

  lemma AnchoredIsSupported(g: Graph, ns: seq<NodeState>, roll: string)
    requires WellFormed(g) && |ns| == |g.nodes| && Anchored(g, ns, roll)
    ensures Supported(g, ns, roll)
  {
  }

  /** Once a rolling set is whole after some step, its absent nodes lie below one
      of its roots after every later step, every parent its nodes have outside
      the set stays present, and while a node is absent the next step creates. */
  lemma {:induction false} MissingIsOneSubtree(g: Graph, cfg: Config, u: Draws, m: nat, n: nat, root: nat)
    requires WellFormed(g) && UnitDraws(u) && m <= n && root < |g.nodes| && RollRoot(g, root)
    requires |After(g, cfg, u, m).sch.ns| == |g.nodes| && SetWhole(g, After(g, cfg, u, m).sch.ns, g.nodes[root].roll)
    ensures |After(g, cfg, u, n).sch.ns| == |g.nodes|
    ensures Anchored(g, After(g, cfg, u, n).sch.ns, g.nodes[root].roll)
    ensures var d := After(g, cfg, u, n);
            !SetWhole(g, d.sch.ns, g.nodes[root].roll) ==>
              var next := Upcoming(g, cfg, u, d);
              next.Act? && next.act == Create && next.node in AbsentEager(g, d.sch.ns)
  {
    hide Valid, Draw, Apply, Anchored, AbsentEager, SetWhole, After, RollRoot;
    var roll := g.nodes[root].roll;
    var t := After(g, cfg, u, n);
    assert roll != "" by { RootIsRolling(g, root); }
    if n == m {
      ValidFits(g, t.sch);
      assert Wired(g, t.sch) by { ValidIsWired(g, t.sch); }
      WholeIsAnchored(g, t.sch, root);
    } else {
      MissingIsOneSubtree(g, cfg, u, m, n - 1, root);
      AfterKeepsAnchored(g, cfg, u, n - 1, roll);
    }
    MissingComesNext(g, cfg, t.sch.ns, u, Begun(cfg, u, t).pos, roll);
  }

  lemma RootIsRolling(g: Graph, root: nat)
    requires Linked(g) && root < |g.nodes| && RollRoot(g, root)
    ensures g.nodes[root].roll != ""
  {
  }

  lemma MissingComesNext(g: Graph, cfg: Config, ns: seq<NodeState>, u: Draws, pos: nat, roll: string)
    requires WellFormed(g) && |ns| == |g.nodes| && UnitDraws(u) && roll != "" && Anchored(g, ns, roll)
    ensures !SetWhole(g, ns, roll) ==>
              var next := Draw(g, cfg, ns, u, pos).decision;
              next.Act? && next.act == Create && next.node in AbsentEager(g, ns)
  {
    AnchoredIsSupported(g, ns, roll);
    hide Draw, Anchored, AbsentEager, Supported;
    if !SetWhole(g, ns, roll) {
      MissingCanBeCreated(g, ns, roll);
      EagerIsDrawn(g, cfg, ns, u, pos);
    }
  }

  lemma AfterKeepsAnchored(g: Graph, cfg: Config, u: Draws, n: nat, roll: string)
    requires WellFormed(g) && UnitDraws(u) && roll != ""
    requires |After(g, cfg, u, n).sch.ns| == |g.nodes| && Anchored(g, After(g, cfg, u, n).sch.ns, roll)
    ensures |After(g, cfg, u, n + 1).sch.ns| == |g.nodes| && Anchored(g, After(g, cfg, u, n + 1).sch.ns, roll)
  {
    hide Valid, Draw, Apply, Anchored;
    var d := Begun(cfg, u, After(g, cfg, u, n));
    DrawIsDecidable(g, cfg, d.sch, u, d.pos);
    StepKeepsAnchored(g, cfg, d.sch, u, d.pos, roll);
  }
}
