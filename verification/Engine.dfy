/** The churn scheduler: its candidate scans, its dispatches and its step, over the
    inventory it updates in place. */
module Engine {
  import opened Options
  import opened Graphs
  import opened Scheduling
  import opened Policy
  import opened Ticks
  import opened Indexing
  import opened Rolling

  function Dispatched(ops: seq<Op>): (r: seq<(Action, nat)>)
    ensures |r| == |ops|
  {
    if ops == [] then [] else Dispatched(ops[..|ops| - 1]) + [(ops[|ops| - 1].act, ops[|ops| - 1].node)]
  }

  lemma OneMoreDispatched(ops: seq<Op>, o: Op)
    ensures Dispatched(ops + [o]) == Dispatched(ops) + [(o.act, o.node)]
  {
    assert (ops + [o])[..|ops|] == ops;
  }

  function EagerOnly(g: Graph, candidates: seq<nat>): seq<nat>
    requires forall k :: 0 <= k < |candidates| ==> candidates[k] < |g.nodes|
  {
    if candidates == [] then []
    else
      var n := |candidates| - 1;
      EagerOnly(g, candidates[..n]) + if g.nodes[candidates[n]].Eager() then [candidates[n]] else []
  }

  lemma {:induction false} EagerOnlyOf(g: Graph, ns: seq<NodeState>, n: nat)
    requires Linked(g) && |ns| == |g.nodes| && n <= |ns|
    ensures var c := Candidates(g, ns, Creating, n);
            && (forall k :: 0 <= k < |c| ==> c[k] < |g.nodes|)
            && EagerOnly(g, c) == Candidates(g, ns, EagerCreating, n)
  {
    hide ParentsPresent, Linked;
    if n > 0 {
      EagerOnlyOf(g, ns, n - 1);
      var c := Candidates(g, ns, Creating, n - 1);
      assert (c + [n - 1])[..|c|] == c && c + [] == c;
    }
  }

  lemma {:induction false} NoneEager(g: Graph, ns: seq<NodeState>, n: nat)
    requires Linked(g) && |ns| == |g.nodes| && n <= |ns| && forall i :: 0 <= i < |g.nodes| ==> !g.nodes[i].Eager()
    ensures Candidates(g, ns, EagerCreating, n) == []
  {
    hide ParentsPresent, Linked;
    if n > 0 {
      NoneEager(g, ns, n - 1);
    }
  }

  lemma {:induction false} CreatesOneMore(ns: seq<NodeState>, ps: seq<nat>, k: nat)
    requires k < |ps| && forall a :: 0 <= a < |ps| ==> ps[a] < |ns| && ns[ps[a]].create.Some?
    ensures Creates(ns, ps[..k + 1]) == Creates(ns, ps[..k]) + [ns[ps[k]].create.value]
  {
  }

  lemma {:induction false} GoneOfOneMore(ns: seq<NodeState>, a: seq<nat>, c: nat)
    requires c < |ns| && forall k :: 0 <= k < |a| ==> a[k] < |ns|
    ensures GoneLasts(ns, a + [c]) ==
            GoneLasts(ns, a) + if !ns[c].present && ns[c].last.Some? then [ns[c].last.value] else []
  {
    if a == [] {
      assert (a + [c])[1..] == [];
    } else {
      GoneOfOneMore(ns, a[1..], c);
      assert (a + [c])[1..] == a[1..] + [c];
    }
  }

  lemma GoneOneMore(ns: seq<NodeState>, cs: seq<nat>, k: nat)
    requires k < |cs| && forall a :: 0 <= a < |cs| ==> cs[a] < |ns|
    ensures GoneLasts(ns, cs[..k + 1]) ==
            GoneLasts(ns, cs[..k]) + if !ns[cs[k]].present && ns[cs[k]].last.Some? then [ns[cs[k]].last.value] else []
  {
    hide GoneLasts;
    assert cs[..k + 1] == cs[..k] + [cs[k]];
    GoneOfOneMore(ns, cs[..k], cs[k]);
  }

  /** The single-threaded scheduler. ops lists the operations it launched, pos is
      the position of the random generator, and limit the capacity of the slot and
      pending pools. roll, samples and steps are history: the roll in progress,
      the populations sampled and the number of steps made. */
  class Scheduler {
    const g: Graph
    const cfg: Config
    const u: Draws
    const bounded: bool
    const mutable: bool
    const eager: bool
    const sets: map<string, seq<nat>>
    const rollRoot: seq<bool>
    const limit: Positive
    var ns: seq<NodeState>
    var ops: seq<Op>
    var pos: nat
    var present: nat
    var decisions: seq<Entry>
    var creates: nat
    var deletes: nat
    var mutates: nat
    var popMin: nat
    var popMax: nat
    var popSum: nat
    var popSamples: nat
    ghost var roll: Roll
    ghost var samples: seq<nat>
    ghost var steps: nat

    ghost function Sch(): Sched
      reads this
    {
      Sched(ns, ops, roll)
    }

    // What newEngine computed from the graph.
    ghost predicate Built()
    {
      && WellFormed(g) && UnitDraws(u)
      && (mutable <==> Mutable(g)) && (eager <==> exists i :: 0 <= i < |g.nodes| && g.nodes[i].Eager())
      && IndexesSets(g, sets, |g.nodes|)
      && |rollRoot| == |g.nodes| && forall i :: 0 <= i < |g.nodes| ==> (rollRoot[i] <==> RollRoot(g, i))
    }

    // The counters agree with what was dispatched, and a bounded run's log lists it.
    ghost predicate Counts()
      reads `ns, `ops, `present, `creates, `deletes, `mutates, `decisions
    {
      && present == |Present(ns)|
      && creates == Tally(ops, Create) && deletes == Tally(ops, Delete) && mutates == Tally(ops, Mutate)
      && (if bounded then Actions(decisions) == Dispatched(ops) else decisions == [])
    }

    // The population summary is that of the samples.
    ghost predicate Sampled()
      reads `samples, `popMin, `popMax, `popSum, `popSamples
    {
      Summarizes(samples, popMin, popMax, popSum, popSamples)
    }

    ghost predicate Valid()
      reads this
    {
      Built() && Scheduling.Valid(g, Sch()) && Counts()
    }

    // A bounded run keeps its log.
    function Extended(log: seq<Entry>, more: seq<Entry>): seq<Entry> { if bounded then log + more else log }

    /** newEngine, over a graph with what the builders guarantee. */
    constructor (g: Graph, cfg: Config, u: Draws, bounded: bool)
      requires WellFormed(g) && UnitDraws(u)
      ensures Valid() && Sampled() && this.g == g && this.cfg == cfg && this.u == u && this.bounded == bounded
      ensures Sch() == Initial(g) && pos == 0 && decisions == [] && samples == [] && steps == 0 && limit == Limit(cfg)
    {
      var l: int := cfg.maxParallel;
      if cfg.concurrency < l {
        l := cfg.concurrency;
      }
      if l < 1 {
        l := 1;
      }
      var m := IsMutable(g);
      var e, ss, rr := IndexSets(g);
      this.g, this.cfg, this.u, this.bounded := g, cfg, u, bounded;
      mutable, eager, sets, rollRoot, limit := m, e, ss, rr, l;
      ns := seq(|g.nodes|, _ => NodeState(false, false, None, None));
      ops, pos, present, decisions := [], 0, 0, [];
      creates, deletes, mutates := 0, 0, 0;
      popMin, popMax, popSum, popSamples := 0, 0, 0, 0;
      roll, samples, steps := Roll([], [], 0), [], 0;
      new;
      InitialIsValid(g);
      assert Present(ns) == {};
    }

    method ParentsReady(i: nat) returns (ready: bool)
      requires Linked(g) && |ns| == |g.nodes| && i < |ns|
      ensures ready <==> ParentsPresent(g, ns, i)
    {
      ready := true;
      var ps := g.parents[i];
      assert forall a :: 0 <= a < |ps| ==> ps[a] in ps;
      var k := 0;
      while k < |ps| && ready
        invariant k <= |ps| && forall a :: 0 <= a < |ps| ==> ps[a] < |ns|
        invariant ready ==> forall a :: 0 <= a < k ==> ns[ps[a]].present
        invariant !ready ==> exists p :: p in ps && !ns[p].present
      {
        if !ns[ps[k]].present {
          ready := false;
        }
        k := k + 1;
      }
    }

    method ChildrenGone(i: nat) returns (free: bool)
      requires Linked(g) && |ns| == |g.nodes| && i < |ns|
      ensures free <==> ChildrenAbsent(g, ns, i)
    {
      free := true;
      var cs := g.children[i];
      assert forall a :: 0 <= a < |cs| ==> cs[a] in cs;
      var k := 0;
      while k < |cs| && free
        invariant k <= |cs| && forall a :: 0 <= a < |cs| ==> cs[a] < |ns|
        invariant free ==> forall a :: 0 <= a < k ==> !ns[cs[a]].present
        invariant !free ==> exists c :: c in cs && ns[c].present
      {
        if ns[cs[k]].present {
          free := false;
        }
        k := k + 1;
      }
    }

    /** createCandidates. */
    method CreateCandidates() returns (out: seq<nat>)
      requires Linked(g) && |ns| == |g.nodes|
      ensures out == All(g, ns, Creating)
    {
      out := [];
      for i := 0 to |ns|
        invariant out == Candidates(g, ns, Creating, i)
      {
        if !ns[i].present {
          var ready := ParentsReady(i);
          if ready {
            out := out + [i];
          }
        }
      }
    }

    /** eagerCreateCandidates. */
    method EagerCreateCandidates() returns (out: seq<nat>)
      requires Linked(g) && |ns| == |g.nodes| && (eager <==> exists i :: 0 <= i < |g.nodes| && g.nodes[i].Eager())
      ensures out == All(g, ns, EagerCreating)
    {
      out := [];
      hide Candidates, ParentsPresent;
      if !eager {
        NoneEager(g, ns, |ns|);
        return;
      }
      var candidates := CreateCandidates();
      EagerOnlyOf(g, ns, |ns|);
      for k := 0 to |candidates|
        invariant out == EagerOnly(g, candidates[..k])
      {
        assert candidates[..k + 1][..k] == candidates[..k];
        var i := candidates[k];
        if g.nodes[i].pinned || g.nodes[i].roll != "" {
          out := out + [i];
        }
      }
      assert candidates[..|candidates|] == candidates;
    }

    /** setWhole: no node is missing of a set without nodes. */
    method IsWhole(roll: string) returns (whole: bool)
      requires |ns| == |g.nodes| && IndexesSets(g, sets, |g.nodes|)
      ensures whole <==> roll == "" || SetWhole(g, ns, roll)
    {
      whole := true;
      if roll !in sets {
        return;
      }
      var members := sets[roll];
      assert forall a :: 0 <= a < |members| ==> members[a] in members;
      var k := 0;
      while k < |members| && whole
        invariant k <= |members| && forall a :: 0 <= a < |members| ==> members[a] < |ns|
        invariant whole ==> forall a :: 0 <= a < k ==> ns[members[a]].present
        invariant !whole ==> exists i :: 0 <= i < |ns| && g.nodes[i].roll == roll && !ns[i].present
      {
        if !ns[members[k]].present {
          whole := false;
        }
        k := k + 1;
      }
      if whole {
        forall i | 0 <= i < |ns| && g.nodes[i].roll == roll
          ensures ns[i].present
        {
          assert i in members;
          var a :| 0 <= a < |members| && members[a] == i;
        }
      }
    }

    // Which sets are whole.
    method WholeSets() returns (whole: map<string, bool>)
      requires IndexesSets(g, sets, |g.nodes|) && |ns| == |g.nodes|
      ensures whole.Keys == sets.Keys && forall r :: r in whole ==> (whole[r] <==> SetWhole(g, ns, r))
    {
      hide SetWhole;
      whole := map[];
      var left := sets.Keys;
      while left != {}
        invariant left <= sets.Keys && forall r :: r in whole <==> r in sets && r !in left
        invariant forall r :: r in whole ==> (whole[r] <==> SetWhole(g, ns, r))
      {
        var r :| r in left;
        var w := IsWhole(r);
        whole := whole[r := w];
        left := left - {r};
      }
    }

    /** deleteCandidates: which sets are whole is looked up once for all roots. */
    method DeleteCandidates() returns (out: seq<nat>)
      requires Built() && |ns| == |g.nodes|
      ensures out == All(g, ns, Deleting)
    {
      hide Mutable, RollRoot, SetWhole, ChildrenAbsent, WellFormed, Members;
      BuiltFits();
      var whole := WholeSets();
      out := [];
      for i := 0 to |ns|
        invariant out == Candidates(g, ns, Deleting, i)
      {
        if ns[i].present && !g.nodes[i].pinned {
          var r := g.nodes[i].roll;
          if r != "" {
            if rollRoot[i] && whole[r] {
              out := out + [i];
            }
          } else {
            var free := ChildrenGone(i);
            if free {
              out := out + [i];
            }
          }
        }
      }
    }

    /** mutateCandidates. */
    method MutateCandidates() returns (out: seq<nat>)
      requires Linked(g) && |ns| == |g.nodes|
      ensures out == All(g, ns, Mutating)
    {
      out := [];
      for i := 0 to |ns|
        invariant out == Candidates(g, ns, Mutating, i)
      {
        if ns[i].present && g.nodes[i].mutable && (!ns[i].mutated || g.nodes[i].pinned) {
          out := out + [i];
        }
      }
    }
  
    // The dependencies a node's parents add: their current creates.
    method ParentOps(i: nat) returns (parentOps: seq<nat>)
      requires Linked(g) && |ns| == |g.nodes| && i < |ns|
      requires forall k :: 0 <= k < |g.parents[i]| ==> g.parents[i][k] < |ns| && ns[g.parents[i][k]].create.Some?
      ensures parentOps == Creates(ns, g.parents[i])
    {
      parentOps := [];
      var ps := g.parents[i];
      for k := 0 to |ps|
        invariant parentOps == Creates(ns, ps[..k])
      {
        CreatesOneMore(ns, ps, k);
        parentOps := parentOps + [ns[ps[k]].create.value];
      }
      assert ps[..|ps|] == ps;
    }

    // The dependencies a delete's former dependents add: their last operations.
    method FormerDependents(i: nat) returns (lasts: seq<nat>)
      requires Linked(g) && |ns| == |g.nodes| && i < |ns|
      requires forall k :: 0 <= k < |g.children[i]| ==> g.children[i][k] < |ns|
      ensures lasts == GoneLasts(ns, g.children[i])
    {
      lasts := [];
      var cs := g.children[i];
      for k := 0 to |cs|
        invariant lasts == GoneLasts(ns, cs[..k])
      {
        GoneOneMore(ns, cs, k);
        var st := ns[cs[k]];
        if !st.present && st.last.Some? {
          lasts := lasts + [st.last.value];
        }
      }
      assert cs[..|cs|] == cs;
    }

    // launch: the operation joins the list. Its transitive predecessors are history.
    method Launch(node: nat, act: Action, deps: seq<nat>, parentOps: seq<nat>, create: nat, after: Option<nat>)
      modifies this`ops
      ensures ops == old(ops) + [Op(node, act, deps, parentOps, create, after, Past(old(ops), deps))]
    {
      ops := ops + [Op(node, act, deps, parentOps, create, after, Past(ops, deps))];
    }
  
    lemma BuiltFits()
      requires Built()
      ensures WellFormed(g) && Linked(g) && UnitDraws(u)
    {
    }

    ghost predicate Sane()
      reads this
    {
      Built() && Scheduling.Valid(g, Sch()) && present == |Present(ns)|
    }

    /** dispatchCreate. */
    method DispatchCreate(i: nat)
      requires Sane() && |ns| == |g.nodes| && Legal(g, Sch(), i, Create)
      modifies `ns, `ops, `present
      ensures Sane() && Sch() == Dispatch(g, old(Sch()), i, Create)
    {
      hide Scheduling.Valid, Built, Linked, Wired, RollGoing, Past, Creates, GoneLasts, Present, Legal;
      ghost var s := Sch();
      BuiltFits();
      BeforeDispatch(g, s, i, Create);
      var st := ns[i];
      var deps := [];
      if st.last.Some? {
        deps := deps + [st.last.value];
      }
      var parentOps := ParentOps(i);
      deps := deps + parentOps;
      var n := |ops|;
      ns := ns[i := st.(present := true, mutated := false, create := Some(n), last := Some(n))];
      present := present + 1;
      assert deps == Deps(g, s, i, Create);
      Launch(i, Create, deps, parentOps, n, None);
      assert Sch() == Dispatch(g, s, i, Create);
    }

    /** dispatchDelete; extra and after come from the roll it belongs to, if any. */
    method DispatchDelete(i: nat, extra: seq<nat>, after: Option<nat>)
      requires Sane() && |ns| == |g.nodes| && Legal(g, Sch(), i, Delete)
      requires if roll.left == [] then extra == [] && after == None
               else extra == roll.extra && after == Some(roll.start)
      modifies `ns, `ops, `present, `roll
      ensures Sane() && Sch() == Dispatch(g, old(Sch()), i, Delete)
    {
      hide Scheduling.Valid, Built, Linked, Wired, RollGoing, Past, Creates, GoneLasts, Present, Legal;
      ghost var s := Sch();
      BuiltFits();
      BeforeDispatch(g, s, i, Delete);
      var st := ns[i];
      var deps := [st.last.value];
      var parentOps := ParentOps(i);
      deps := deps + parentOps;
      var former := FormerDependents(i);
      deps := deps + former + extra;
      assert deps == Deps(g, s, i, Delete);
      ns := ns[i := st.(present := false, last := Some(|ops|))];
      present := present - 1;
      Launch(i, Delete, deps, parentOps, st.create.value, after);
      if roll.left != [] {
        roll := roll.(left := roll.left[1..]);
      }
      assert Sch() == Dispatch(g, s, i, Delete);
    }

    /** dispatchMutate. */
    method DispatchMutate(i: nat)
      requires Sane() && |ns| == |g.nodes| && Legal(g, Sch(), i, Mutate)
      modifies `ns, `ops
      ensures Sane() && Sch() == Dispatch(g, old(Sch()), i, Mutate)
    {
      hide Scheduling.Valid, Built, Linked, Wired, RollGoing, Past, Creates, GoneLasts, Present, Legal;
      ghost var s := Sch();
      BuiltFits();
      BeforeDispatch(g, s, i, Mutate);
      var st := ns[i];
      var parentOps := ParentOps(i);
      var deps := [st.last.value] + parentOps;
      assert deps == Deps(g, s, i, Mutate);
      ns := ns[i := st.(mutated := true, last := Some(|ops|))];
      Launch(i, Mutate, deps, parentOps, st.create.value, None);
      assert Sch() == Dispatch(g, s, i, Mutate);
    }

    /** record. */
    method Record(e: Entry)
      modifies `decisions, `creates, `deletes, `mutates
      ensures decisions == Extended(old(decisions), [e])
      ensures creates == old(creates) + if e.act.Some? && e.act.value.0 == Create then 1 else 0
      ensures deletes == old(deletes) + if e.act.Some? && e.act.value.0 == Delete then 1 else 0
      ensures mutates == old(mutates) + if e.act.Some? && e.act.value.0 == Mutate then 1 else 0
    {
      if e.act.Some? {
        match e.act.value.0
        case Create => creates := creates + 1;
        case Delete => deletes := deletes + 1;
        case Mutate => mutates := mutates + 1;
      }
      if bounded {
        decisions := decisions + [e];
      }
    }

    // record and dispatch of one action, extra and after being those of a roll.
    method Perform(i: nat, act: Action, offset: nat, extra: seq<nat>, after: Option<nat>)
      requires Valid() && |ns| == |g.nodes| && Legal(g, Sch(), i, act)
      requires if roll.left == [] then extra == [] && after == None
               else extra == roll.extra && after == Some(roll.start)
      modifies `ns, `ops, `present, `roll, `decisions, `creates, `deletes, `mutates
      ensures Valid() && Wired(g, old(Sch())) && RollGoing(g, old(Sch()))
      ensures Sch() == Dispatch(g, old(Sch()), i, act)
      ensures decisions == Extended(old(decisions), [Entry(offset, Some((act, i)))])
    {
      hide Scheduling.Valid, Built, Dispatch, Legal, Wired, RollGoing, Present;
      ghost var s := Sch();
      BuiltFits();
      BeforeDispatch(g, s, i, act);
      Record(Entry(offset, Some((act, i))));
      match act {
        case Create => DispatchCreate(i);
        case Delete => DispatchDelete(i, extra, after);
        case Mutate => DispatchMutate(i);
      }
      DispatchAppends(g, s, i, act);
      CountOneMore(s.ops, ops[|s.ops|]);
      OneMoreDispatched(s.ops, ops[|s.ops|]);
      OneMoreEntry(old(decisions), Entry(offset, Some((act, i))));
    }

    /** The recursive walk of a roll below node i: its present descendants, then i. */
    method VisitNode(i: nat, offset: nat, extra: seq<nat>, start: nat, ghost rest: seq<nat>)
      requires Valid() && |ns| == |g.nodes| && i < |ns| && WellFormed(g)
      requires roll == Roll(Visit(g, i, Present(ns)) + rest, extra, start)
      modifies `ns, `ops, `present, `roll, `decisions, `creates, `deletes, `mutates
      ensures Valid() && |ns| == |g.nodes| && roll == Roll(rest, extra, start)
      ensures Scheduling.Valid(g, old(Sch())) && Finish(g, Sch()) == Finish(g, old(Sch()))
      ensures Present(ns) == old(Present(ns)) - Elems(Visit(g, i, old(Present(ns))))
      ensures decisions == Extended(old(decisions), DeletesAt(offset, Visit(g, i, old(Present(ns)))))
      decreases Height(g)[i]
    {
      hide Scheduling.Valid, Built, Counts, Dispatch, Legal, Wired, RollGoing, Present, VisitFrom, Elems, Finish;
      hide DeletesAt;
      ghost var alive, s := Present(ns), Sch();
      ghost var done: seq<nat> := [];
      ChildrenInGraph(g, i);
      NothingElems();
      NothingLogged(decisions, offset);
      for k := 0 to |g.children[i]|
        invariant Valid() && |ns| == |g.nodes| && Scheduling.Valid(g, s)
        invariant roll == Roll(VisitFrom(g, i, k, Present(ns)) + ([i] + rest), extra, start)
        invariant Finish(g, Sch()) == Finish(g, s)
        invariant VisitFrom(g, i, 0, alive) == done + VisitFrom(g, i, k, Present(ns))
        invariant Present(ns) == alive - Elems(done)
        invariant decisions == Extended(old(decisions), DeletesAt(offset, done))
      {
        ghost var before := Present(ns);
        var c := g.children[i][k];
        VisitOneMore(g, i, k, before);
        InPresent(ns, c);
        if ns[c].present {
          ghost var v := Visit(g, c, before);
          ghost var after := VisitFrom(g, i, k + 1, before - Elems(v)) + ([i] + rest);
          assert VisitFrom(g, i, k, before) + ([i] + rest) == v + after;
          VisitNode(c, offset, extra, start, after);
          ElemsOfSum(done, v);
          LogsJoin(old(decisions), offset, done, v);
          SumsRegroup(done, v, VisitFrom(g, i, k + 1, Present(ns)));
          done := done + v;
        }
      }
      ghost var t := Sch();
      VisitEnds(g, i, Present(ns), done, rest);
      assert t.roll.left == [i] + rest;
      RollStep(g, t);
      RollShrinks(g, t);
      Perform(i, Delete, offset, extra, Some(start));
      ElemsOfSum(done, [i]);
      OneDelete(offset, i);
      LogsJoin(old(decisions), offset, done, [i]);
      OneElem(i);
    }

    // roll: the deletes of a root's subtree, each behind what the set had before.
    method RollSetOf(root: nat, offset: nat)
      requires Valid() && |ns| == |g.nodes| && roll.left == [] && MayRoll(g, Sch(), root)
      modifies `ns, `ops, `present, `roll, `decisions, `creates, `deletes, `mutates
      ensures Valid() && Scheduling.Valid(g, old(Sch())) && Sch() == Apply(g, old(Sch()), RollSet(root))
      ensures WellFormed(g) && root < |g.nodes|
      ensures decisions == Extended(old(decisions), DeletesAt(offset, Visit(g, root, old(Present(ns)))))
    {
      hide Scheduling.Valid, Built, Counts, Wired, Present, Finish, StartRoll, MayRoll, Visit, SetLasts;
      ghost var s := Sch();
      BuiltFits();
      StartedRoll(g, s, root);
      StartRollIs(g, s, root);
      var extra := LastOperations(root);
      ghost var t := StartRoll(g, s, root);
      roll := t.roll;
      assert Sch() == t;
      assert t.roll.left + [] == t.roll.left;
      VisitNode(root, offset, extra, |ops|, []);
      FinishedIs(g, Sch());
    }

    // The last operation of every node of the root's set that has one.
    method LastOperations(root: nat) returns (extra: seq<nat>)
      requires Built() && |ns| == |g.nodes| && MayRoll(g, Sch(), root)
      ensures extra == SetLasts(g, ns, g.nodes[root].roll, 0)
    {
      hide Built, SetLasts;
      RootHasSet(root);
      extra := [];
      var members := sets[g.nodes[root].roll];
      for k := 0 to |members|
        invariant extra == LastsOf(ns, members[..k])
      {
        assert members[..k + 1][..k] == members[..k];
        if ns[members[k]].last.Some? {
          extra := extra + [ns[members[k]].last.value];
        }
      }
      assert members[..|members|] == members;
      MembersCover(g, ns, g.nodes[root].roll, |ns|);
      NoLastsLeft(g, ns, g.nodes[root].roll);
      assert extra + [] == extra;
    }

    lemma RootHasSet(root: nat)
      requires Built() && |ns| == |g.nodes| && MayRoll(g, Sch(), root)
      ensures Linked(g) && root < |ns|
      ensures g.nodes[root].roll in sets && sets[g.nodes[root].roll] == Members(g, g.nodes[root].roll, |ns|)
      ensures forall k :: 0 <= k < |sets[g.nodes[root].roll]| ==> sets[g.nodes[root].roll][k] < |ns|
    {
      var m := Members(g, g.nodes[root].roll, |ns|);
      assert forall k :: 0 <= k < |m| ==> m[k] in m;
    }

    /** pCreate. */
    method CreateRatio() returns (p: real)
      requires Counts() && |ns| == |g.nodes| > 0
      ensures p == CreateProbability(cfg, |Present(ns)|, |ns|)
    {
      var fill := present as real / |g.nodes| as real;
      p := cfg.churnRatio + (cfg.targetFill - fill);
      if p < 0.0 {
        p := 0.0;
      } else if p > 1.0 {
        p := 1.0;
      }
    }

    // rng.Intn over a list of candidates.
    method ChooseFrom(candidates: seq<nat>) returns (i: nat)
      requires UnitDraws(u) && candidates != []
      modifies `pos
      ensures i == Chosen(candidates, u, old(pos)) && pos == old(pos) + 1
    {
      i := Chosen(candidates, u, pos);
      pos := pos + 1;
    }

    // rng.Float64.
    method Float() returns (x: real)
      modifies `pos
      ensures x == u(old(pos)) && pos == old(pos) + 1
    {
      x := u(pos);
      pos := pos + 1;
    }

    /** samplePopulation. */
    method SamplePopulation()
      requires Sampled()
      modifies `popMin, `popMax, `popSum, `popSamples, `samples
      ensures Sampled() && samples == old(samples) + [present]
    {
      hide Summarizes;
      OneMoreSample(samples, popMin, popMax, popSum, popSamples, present);
      if popSamples == 0 || present < popMin {
        popMin := present;
      }
      if popSamples == 0 || present > popMax {
        popMax := present;
      }
      popSum := popSum + present;
      popSamples := popSamples + 1;
      samples := samples + [present];
    }

    // The decision of a step, from the generator.
    method Decide() returns (d: Decision)
      requires Valid() && |ns| == |g.nodes|
      modifies `pos
      ensures Linked(g) && UnitDraws(u)
      ensures Drawn(d, pos) == Draw(g, cfg, ns, u, old(pos))
    {
      hide Scheduling.Valid, Candidates, Eligible, CreateProbability, Chosen, Linked;
      var eagerCreates := EagerCreateCandidates();
      if |eagerCreates| > 0 {
        var i := ChooseFrom(eagerCreates);
        return Act(i, Create);
      }
      if mutable && cfg.resizeRatio > 0.0 {
        var x := Float();
        if x < cfg.resizeRatio {
          var mutates := MutateCandidates();
          if |mutates| > 0 {
            var i := ChooseFrom(mutates);
            return Act(i, Mutate);
          }
        }
      }
      d := DecidePlainly();
    }

    method DecidePlainly() returns (d: Decision)
      requires Valid() && |ns| == |g.nodes|
      modifies `pos
      ensures Linked(g) && UnitDraws(u)
      ensures Drawn(d, pos) == PlainDraw(g, cfg, ns, u, old(pos))
    {
      hide Scheduling.Valid, Built, Counts, All, CreateProbability, Chosen, Pick, Linked, Present;
      BuiltFits();
      var candidates := CreateCandidates();
      var deletable := DeleteCandidates();
      if |candidates| == 0 && |deletable| == 0 {
        return Noop;
      }
      var creating := |deletable| == 0;
      if |deletable| > 0 && |candidates| > 0 {
        assert candidates[0] in candidates;
        var x := Float();
        var p := CreateRatio();
        creating := x < p;
      }
      if creating {
        var i := ChooseFrom(candidates);
        return Act(i, Create);
      }
      var i := ChooseFrom(deletable);
      d := if g.nodes[i].roll != "" then RollSet(i) else Act(i, Delete);
    }

    lemma PresentIs()
      requires Counts()
      ensures present == |Present(ns)|
    {
    }

    method RecordNoop(offset: nat)
      requires Valid()
      modifies `decisions, `creates, `deletes, `mutates
      ensures Valid() && Sch() == old(Sch())
      ensures decisions == Extended(old(decisions), [Entry(offset, None)])
    {
      hide Scheduling.Valid, Built, Present, Tally, Actions, Dispatched;
      OneMoreEntry(decisions, Entry(offset, None));
      assert Actions(decisions) + [] == Actions(decisions);
      Record(Entry(offset, None));
    }

    /** step: one decision, drawn from the inventory and the generator alone, and
        dispatched. */
    method Step(offset: nat)
      requires Valid() && Sampled() && |ns| == |g.nodes| && roll.left == []
      modifies this
      ensures Valid() && Sampled() && |ns| == |g.nodes| && roll.left == [] && WellFormed(g) && UnitDraws(u)
      ensures Scheduling.Valid(g, old(Sch())) && steps == old(steps) + 1
      ensures var d := Draw(g, cfg, old(ns), u, old(pos));
              && pos == d.pos && Decidable(g, old(Sch()), d.decision)
              && Sch() == Apply(g, old(Sch()), d.decision)
              && decisions == Extended(old(decisions), StepLog(g, old(Sch()), d.decision, offset))
      ensures samples == old(samples) + [|Present(ns)|]
    {
      hide Scheduling.Valid, Built, Counts, Draw, Finish, Present, Legal, MayRoll, Dispatch, Wired, Sampled;
      ghost var s := Sch();
      BuiltFits();
      var d := Decide();
      DrawIsDecidable(g, cfg, s, u, old(pos));
      match d {
        case Noop =>
          RecordNoop(offset);
        case Act(i, act) => Perform(i, act, offset, [], None);
        case RollSet(root) => RollSetOf(root, offset);
      }
      assert Sch() == Apply(g, s, d) && Apply(g, s, d).roll.left == [];
      PresentIs();
      SamplePopulation();
      ValidFits(g, Sch());
      steps := steps + 1;
    }

    // rng.Intn over the fan-out of a tick.
    method DrawFanOut() returns (fanOut: nat)
      requires UnitDraws(u)
      modifies `pos
      ensures fanOut == 1 + Pick(u, old(pos), cfg.maxParallel) && pos == old(pos) + 1
    {
      fanOut := 1 + Pick(u, pos, cfg.maxParallel);
      pos := pos + 1;
    }

    /** One tick of run: its delay and its fan-out are drawn, and that many steps
        made at the offset the clock shows. */
    method Tick(offset: nat)
      requires Valid() && Sampled() && |ns| == |g.nodes| && roll.left == [] && WellFormed(g) && UnitDraws(u)
      requires Driver(Sch(), pos, 0) == After(g, cfg, u, steps)
      modifies this
      ensures Valid() && Sampled() && |ns| == |g.nodes| && roll.left == [] && WellFormed(g) && UnitDraws(u)
      ensures Driver(Sch(), pos, 0) == After(g, cfg, u, steps)
      ensures steps == old(steps) + FanOut(g, cfg, u, old(steps))
      ensures var n := old(steps);
              decisions == Extended(old(decisions), StepsLog(g, cfg, u, n, FanOut(g, cfg, u, n), offset))
    {
      hide Scheduling.Valid, Built, Counts, Draw, Apply, Linked, Sampled, StepLog, WellFormed, UnitDraws, After;
      ghost var n := steps;
      var delay := Float();
      var fanOut := DrawFanOut();
      assert StepsLog(g, cfg, u, n, 0, offset) == [];
      for k := 0 to fanOut
        invariant Valid() && Sampled() && |ns| == |g.nodes| && roll.left == [] && steps == n + k
        invariant Driver(Sch(), pos, fanOut - k) ==
                  if k == 0 then Begun(cfg, u, After(g, cfg, u, n)) else After(g, cfg, u, n + k)
        invariant decisions == Extended(old(decisions), StepsLog(g, cfg, u, n, k, offset))
      {
        NextStep(g, cfg, u, n + k);
        Step(offset);
      }
    }

    /** run, from the start on: a tick for each offset the clock shows before the
        run's end. */
    method Run(offsets: seq<nat>)
      requires Valid() && Sampled() && |ns| == |g.nodes| && roll.left == [] && WellFormed(g) && UnitDraws(u)
      requires Driver(Sch(), pos, 0) == After(g, cfg, u, 0) && decisions == [] && steps == 0
      modifies this
      ensures Valid() && Sampled() && WellFormed(g) && UnitDraws(u)
      ensures steps == StepsOf(g, cfg, u, |offsets|) && Driver(Sch(), pos, 0) == After(g, cfg, u, steps)
      ensures decisions == if bounded then LogOf(g, cfg, u, offsets) else []
    {
      hide Scheduling.Valid, Built, Counts, Draw, Apply, Linked, Sampled, StepsLog, FanOut, After, LogOf, StepsOf;
      NoTicks(g, cfg, u);
      for k := 0 to |offsets|
        invariant Valid() && Sampled() && |ns| == |g.nodes| && roll.left == []
        invariant steps == StepsOf(g, cfg, u, k) && Driver(Sch(), pos, 0) == After(g, cfg, u, steps)
        invariant decisions == if bounded then LogOf(g, cfg, u, offsets[..k]) else []
      {
        OneMoreTick(g, cfg, u, offsets, k);
        Tick(offsets[k]);
      }
      assert offsets[..|offsets|] == offsets;
    }
  }

  function Sum(xs: seq<nat>): nat
  {
    if xs == [] then 0 else Sum(xs[..|xs| - 1]) + xs[|xs| - 1]
  }

  // The minimum, maximum, sum and number of a list.
  ghost predicate Summarizes(xs: seq<nat>, least: nat, most: nat, sum: nat, n: nat)
  {
    && n == |xs| && sum == Sum(xs) && (xs != [] ==> least in xs && most in xs)
    && forall k :: 0 <= k < |xs| ==> least <= xs[k] <= most
  }

  lemma OneMoreSample(xs: seq<nat>, least: nat, most: nat, sum: nat, n: nat, x: nat)
    requires Summarizes(xs, least, most, sum, n)
    ensures Summarizes(xs + [x], if n == 0 || x < least then x else least, if n == 0 || x > most then x else most,
                       sum + x, n + 1)
  {
    SumOfOneMore(xs, x);
  }

  lemma SumOfOneMore(xs: seq<nat>, x: nat)
    ensures Sum(xs + [x]) == Sum(xs) + x
  {
    assert (xs + [x])[..|xs|] == xs;
  }

  lemma LogsJoin(log: seq<Entry>, offset: nat, a: seq<nat>, b: seq<nat>)
    ensures log + DeletesAt(offset, a) + DeletesAt(offset, b) == log + DeletesAt(offset, a + b)
  {
    DeletesAtSum(offset, a, b);
  }

  lemma NothingLogged(log: seq<Entry>, offset: nat)
    ensures log + DeletesAt(offset, []) == log
  {
  }

  lemma OneDelete(offset: nat, i: nat)
    ensures DeletesAt(offset, [i]) == [Entry(offset, Some((Delete, i)))]
  {
  }

  lemma PresentOfExtension(s: Sched, t: Sched, i: nat, act: Action, past: set<nat>)
    requires Extends(s, t, i, act, past)
    ensures |Present(t.ns)| == |Present(s.ns)| + match act case Create => 1 case Delete => -1 case Mutate => 0
  {
    var before, after := Present(s.ns), Present(t.ns);
    match act
    case Create => assert after == before + {i};
    case Delete => assert before == after + {i};
    case Mutate => assert after == before;
  }

  // What a dispatch relies on, and what it leaves.
  lemma BeforeDispatch(g: Graph, s: Sched, i: nat, act: Action)
    requires WellFormed(g) && Scheduling.Valid(g, s) && |s.ns| == |g.nodes| && Legal(g, s, i, act)
    ensures Wired(g, s) && RollGoing(g, s) && i < |s.ns|
    ensures forall k :: 0 <= k < |g.parents[i]| ==> g.parents[i][k] < |s.ns| && s.ns[g.parents[i][k]].create.Some?
    ensures forall k :: 0 <= k < |g.children[i]| ==> g.children[i][k] < |s.ns|
    ensures act != Create ==> s.ns[i].create.Some? && s.ns[i].last.Some?
    ensures act == Create ==> s.roll.left == []
    ensures act == Mutate ==> s.roll.left == []
    ensures Scheduling.Valid(g, Dispatch(g, s, i, act))
    ensures |Present(Dispatch(g, s, i, act).ns)| ==
            |Present(s.ns)| + match act case Create => 1 case Delete => -1 case Mutate => 0
  {
    ParentsHaveCreates(g, s, i, act);
    DispatchKeepsValid(g, s, i, act);
    PresentAfter(g, s, i, act);
  }

  // What a dispatch does to the population.
  lemma PresentAfter(g: Graph, s: Sched, i: nat, act: Action)
    requires WellFormed(g) && Wired(g, s) && RollGoing(g, s) && Legal(g, s, i, act)
    ensures |Present(Dispatch(g, s, i, act).ns)| ==
            |Present(s.ns)| + match act case Create => 1 case Delete => -1 case Mutate => 0
  {
    hide Present, Dispatch, Extends, Wired, RollGoing, Legal;
    DispatchExtends(g, s, i, act);
    PresentOfExtension(s, Dispatch(g, s, i, act), i, act, Past(s.ops, Deps(g, s, i, act)));
  }

  lemma DispatchAppends(g: Graph, s: Sched, i: nat, act: Action)
    requires WellFormed(g) && Wired(g, s) && RollGoing(g, s) && Legal(g, s, i, act)
    ensures var ops := Dispatch(g, s, i, act).ops;
            |ops| == |s.ops| + 1 && ops == s.ops + [ops[|s.ops|]] && ops[|s.ops|].act == act && ops[|s.ops|].node == i
  {
  }

  lemma CountOneMore(ops: seq<Op>, o: Op)
    ensures forall act :: Tally(ops + [o], act) == Tally(ops, act) + if o.act == act then 1 else 0
  {
    assert (ops + [o])[..|ops|] == ops;
  }

  lemma ChildrenInGraph(g: Graph, i: nat)
    requires WellFormed(g) && i < |g.nodes|
    ensures forall k :: 0 <= k < |g.children[i]| ==>
              var c := g.children[i][k]; c < |g.nodes| && Height(g)[c] < Height(g)[i] && c == Child(g, i, k)
  {
    forall k | 0 <= k < |g.children[i]|
      ensures var c := g.children[i][k]; c < |g.nodes| && Height(g)[c] < Height(g)[i] && c == Child(g, i, k)
    {
      assert Child(g, i, k) == g.children[i][k];
    }
  }

  lemma VisitOneMore(g: Graph, i: nat, k: nat, alive: set<nat>)
    requires WellFormed(g) && i < |g.nodes| && k < |g.children[i]|
    ensures var c := Child(g, i, k);
            VisitFrom(g, i, k, alive) ==
            if c in alive then Visit(g, c, alive) + VisitFrom(g, i, k + 1, alive - Elems(Visit(g, c, alive)))
            else VisitFrom(g, i, k + 1, alive)
  {
    assert alive - Elems([]) == alive;
  }

  lemma VisitEnds(g: Graph, i: nat, alive: set<nat>, done: seq<nat>, rest: seq<nat>)
    requires WellFormed(g) && i < |g.nodes|
    ensures VisitFrom(g, i, |g.children[i]|, alive) + ([i] + rest) == [i] + rest
    ensures done + VisitFrom(g, i, |g.children[i]|, alive) == done
    ensures ([i] + rest)[0] == i && ([i] + rest)[1..] == rest
  {
  }

  lemma SumsRegroup(a: seq<nat>, b: seq<nat>, c: seq<nat>)
    ensures a + b + c == a + (b + c)
  {
  }

  lemma InPresent(ns: seq<NodeState>, c: nat)
    requires c < |ns|
    ensures c in Present(ns) <==> ns[c].present
  {
  }

  lemma NothingElems()
    ensures Elems([]) == {}
  {
  }

  lemma OneElem(i: nat)
    ensures Elems([i]) == {i}
  {
  }

  lemma ElemsOfSum(a: seq<nat>, b: seq<nat>)
    ensures Elems(a + b) == Elems(a) + Elems(b)
  {
  }

  // The last operations of a list of nodes, of those that have one.
  function LastsOf(ns: seq<NodeState>, list: seq<nat>): seq<nat>
    requires forall k :: 0 <= k < |list| ==> list[k] < |ns|
  {
    if list == [] then []
    else
      var i := list[|list| - 1];
      LastsOf(ns, list[..|list| - 1]) + if ns[i].last.Some? then [ns[i].last.value] else []
  }

  lemma NoLastsLeft(g: Graph, ns: seq<NodeState>, roll: string)
    requires |ns| == |g.nodes|
    ensures SetLasts(g, ns, roll, |ns|) == []
  {
  }

  lemma StartRollIs(g: Graph, s: Sched, root: nat)
    requires WellFormed(g) && Wired(g, s) && MayRoll(g, s, root)
    ensures StartRoll(g, s, root) ==
            Sched(s.ns, s.ops, Roll(Visit(g, root, Present(s.ns)), SetLasts(g, s.ns, g.nodes[root].roll, 0), |s.ops|))
  {
  }

  lemma RollShrinks(g: Graph, s: Sched)
    requires WellFormed(g) && Wired(g, s) && RollGoing(g, s) && s.roll.left != [] && Legal(g, s, s.roll.left[0], Delete)
    ensures Dispatch(g, s, s.roll.left[0], Delete).roll == Roll(s.roll.left[1..], s.roll.extra, s.roll.start)
  {
  }

  function LastOf(ns: seq<NodeState>, i: nat): seq<nat>
    requires i < |ns|
  {
    if ns[i].last.Some? then [ns[i].last.value] else []
  }

  lemma LastsOneMore(ns: seq<NodeState>, list: seq<nat>, i: nat)
    requires i < |ns| && forall k :: 0 <= k < |list| ==> list[k] < |ns|
    ensures LastsOf(ns, list + [i]) == LastsOf(ns, list) + LastOf(ns, i)
  {
    assert (list + [i])[..|list|] == list;
  }

  lemma SetLastsFirst(g: Graph, ns: seq<NodeState>, roll: string, n: nat)
    requires |ns| == |g.nodes| && n < |ns|
    ensures SetLasts(g, ns, roll, n) ==
            (if g.nodes[n].roll == roll then LastOf(ns, n) else []) + SetLasts(g, ns, roll, n + 1)
  {
  }

  lemma {:induction false} MembersCover(g: Graph, ns: seq<NodeState>, roll: string, n: nat)
    requires |ns| == |g.nodes| && n <= |ns|
    ensures var m := Members(g, roll, n);
            && (forall k :: 0 <= k < |m| ==> m[k] < |ns|)
            && LastsOf(ns, m) + SetLasts(g, ns, roll, n) == SetLasts(g, ns, roll, 0)
  {
    hide LastsOf, LastOf, SetLasts;
    if n == 0 {
      assert LastsOf(ns, []) == [] by { NoLasts(ns); }
      assert [] + SetLasts(g, ns, roll, 0) == SetLasts(g, ns, roll, 0);
    } else {
      MembersCover(g, ns, roll, n - 1);
      SetLastsFirst(g, ns, roll, n - 1);
      var m := Members(g, roll, n - 1);
      LastsOneMore(ns, m, n - 1);
      assert LastsOf(ns, m) + LastOf(ns, n - 1) + SetLasts(g, ns, roll, n)
          == LastsOf(ns, m) + (LastOf(ns, n - 1) + SetLasts(g, ns, roll, n));
      assert m + [] == m && [] + SetLasts(g, ns, roll, n) == SetLasts(g, ns, roll, n);
    }
  }

  lemma NoLasts(ns: seq<NodeState>)
    ensures LastsOf(ns, []) == []
  {
  }
}
