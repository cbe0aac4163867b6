/** When the cloud calls of a set of nodes run one after another: exactly when any
    two of the nodes share a gate, or one is an ancestor that no mutate touches. */
module Serial {
  import opened Options
  import opened Graphs
  import opened Scheduling
  import opened Siblings
  import opened Execution
  import opened Ordering
  import opened Records
  import opened Tokens
  import opened Identities
  import opened Runs
  import opened Schedules
  import opened Lineage
  import opened Flights

  predicate ShareGate(g: Graph, x: nat, y: nat)
    requires x < |g.nodes| && y < |g.nodes|
  {
    g.nodes[x].gate.Some? && g.nodes[x].gate == g.nodes[y].gate
  }

  // y is x, or below it and x is never mutated.
  ghost predicate Holds(g: Graph, x: nat, y: nat)
    requires WellFormed(g) && x < |g.nodes| && y < |g.nodes|
  {
    Below(g, x, y) && (x == y || !g.nodes[x].mutable)
  }

  ghost predicate SerialPair(g: Graph, x: nat, y: nat)
    requires WellFormed(g) && x < |g.nodes| && y < |g.nodes|
  {
    ShareGate(g, x, y) || Holds(g, x, y) || Holds(g, y, x)
  }

  ghost predicate SerialSet(g: Graph, nodes: set<nat>)
    requires WellFormed(g) && forall x :: x in nodes ==> x < |g.nodes|
  {
    forall x, y :: x in nodes && y in nodes ==> SerialPair(g, x, y)
  }

  // No two operations on these nodes make a cloud call.
  ghost predicate OneAtATime(s: Sys, nodes: set<nat>)
  {
    forall a, b {:trigger s.runs[a], s.runs[b]} ::
      0 <= a < b < |s.runs| == |s.sch.ops| && s.sch.ops[a].node in nodes && s.sch.ops[b].node in nodes ==>
        !(s.runs[a].phase.Calling? && s.runs[b].phase.Calling?)
  }

  // In every state of every run.
  ghost predicate AlwaysSerial(g: Graph, limit: nat, nodes: set<nat>)
    requires WellFormed(g)
  {
    forall steps :: Reach(g, limit, steps).Some? ==> OneAtATime(Reach(g, limit, steps).value, nodes)
  }

  // Only mutable nodes are mutated.
  ghost predicate MutatesMutable(g: Graph, s: Sched)
  {
    forall j :: 0 <= j < |s.ops| && s.ops[j].act == Mutate && s.ops[j].node < |g.nodes| ==>
      g.nodes[s.ops[j].node].mutable
  }

  lemma DispatchMutatesMutable(g: Graph, s: Sched, i: nat, act: Action)
    requires WellFormed(g) && Wired(g, s) && RollGoing(g, s) && Legal(g, s, i, act)
    ensures var ops := Dispatch(g, s, i, act).ops;
            |ops| == |s.ops| + 1 && ops[..|s.ops|] == s.ops && ops[|s.ops|].node == i
    ensures act == Mutate ==> i < |g.nodes| && g.nodes[i].mutable
    ensures Dispatch(g, s, i, act).ops[|s.ops|].act == act
  {
  }

  lemma NextKeepsMutable(g: Graph, s: Sched, choice: Choice)
    requires WellFormed(g) && Valid(g, s) && MutatesMutable(g, s) && Next(g, s, choice).Some?
    ensures MutatesMutable(g, Next(g, s, choice).value)
  {
    hide Valid, Dispatch, Wired, RollGoing, Legal, WellFormed;
    ValidIsWired(g, s);
    if choice.Do? {
      DispatchMutatesMutable(g, s, choice.node, choice.act);
      assert forall j :: 0 <= j < |s.ops| ==> s.ops[j] == Dispatch(g, s, choice.node, choice.act).ops[..|s.ops|][j];
    }
  }

  lemma {:induction false} ExecMutatesMutable(g: Graph, choices: seq<Choice>)
    requires WellFormed(g) && Exec(g, choices).Some?
    ensures MutatesMutable(g, Exec(g, choices).value)
  {
    hide MutatesMutable, Valid, Next;
    if choices == [] {
      assert MutatesMutable(g, Initial(g)) by { NoMutates(g); }
    } else {
      ExecMutatesMutable(g, choices[..|choices| - 1]);
      NextKeepsMutable(g, Exec(g, choices[..|choices| - 1]).value, choices[|choices| - 1]);
    }
  }

  lemma NoMutates(g: Graph)
    ensures MutatesMutable(g, Initial(g))
  {
  }

  // Operations on such a pair of nodes are ordered unless a gate keeps them apart.
  lemma PairIsRelated(g: Graph, choices: seq<Choice>, s: Sched, a: nat, b: nat)
    requires WellFormed(g) && Exec(g, choices) == Some(s) && a < b < |s.ops|
    requires s.ops[a].node < |g.nodes| && s.ops[b].node < |g.nodes|
    requires Holds(g, s.ops[a].node, s.ops[b].node) || Holds(g, s.ops[b].node, s.ops[a].node)
    ensures a in s.ops[b].past
  {
    hide Valid, Exec;
    RelativesAreOrdered(g, choices, s, a, b);
    ExecMutatesMutable(g, choices);
  }

  // Two operations that make a call at once share no gate and are not ordered.
  lemma CallingApart(g: Graph, limit: nat, s: Sys, a: nat, b: nat)
    requires WellFormed(g) && Sound(g, limit, s) && a < b < |s.runs|
    requires s.runs[a].phase.Calling? && s.runs[b].phase.Calling?
    ensures limit >= 2 && |s.runs| == |s.sch.ops| && a !in s.sch.ops[b].past
    ensures var x, y := s.sch.ops[a].node, s.sch.ops[b].node;
            x < |g.nodes| && y < |g.nodes| && !ShareGate(g, x, y)
  {
    SoundHasShape(g, limit, s);
    NodesInGraph(g, s);
    CallingIsBehind(g, limit, s, a, b);
    hide Sound, Shape;
    CallingHoldTokens(g, limit, s, a, b);
  }

  lemma NodesInGraph(g: Graph, s: Sys)
    requires WellFormed(g) && Shape(g, s)
    ensures |s.runs| == |s.sch.ops| && forall j :: 0 <= j < |s.runs| ==> s.sch.ops[j].node < |g.nodes|
  {
  }

  lemma CallingIsBehind(g: Graph, limit: nat, s: Sys, a: nat, b: nat)
    requires WellFormed(g) && Sound(g, limit, s) && a < b < |s.runs| == |s.sch.ops|
    requires s.runs[a].phase.Calling? && s.runs[b].phase.Calling?
    ensures a !in s.sch.ops[b].past
  {
    hide Valid, Traced, Balanced, Identified, Recorded, Conserved;
    assert OrderedAt(s, b);
  }

  lemma CallingHoldTokens(g: Graph, limit: nat, s: Sys, a: nat, b: nat)
    requires WellFormed(g) && Sound(g, limit, s) && a < b < |s.runs| == |s.sch.ops|
    requires s.runs[a].phase.Calling? && s.runs[b].phase.Calling?
    ensures limit >= 2 && (Gate(g, s, a).Some? ==> Gate(g, s, a) != Gate(g, s, b))
  {
    hide Valid, Ordered, Traced, Balanced, Identified, Recorded, Conserved;
    var working := set j | 0 <= j < |s.runs| && (s.runs[j].phase.Running? || s.runs[j].phase.Calling?);
    AdmittedAreBounded(g, limit, s, working);
    TwoMembers(working, a, b);
  }

  lemma TwoMembers(w: set<nat>, a: nat, b: nat)
    requires a in w && b in w && a != b
    ensures |w| >= 2
  {
    assert w == {a, b} + (w - {a, b});
  }

  lemma SerialSetsAreSerial(g: Graph, limit: nat, nodes: set<nat>, steps: seq<Step>)
    requires WellFormed(g) && (forall x :: x in nodes ==> x < |g.nodes|) && Reach(g, limit, steps).Some?
    requires limit <= 1 || SerialSet(g, nodes)
    ensures OneAtATime(Reach(g, limit, steps).value, nodes)
  {
    hide Sound, Reach, Exec;
    var s := Reach(g, limit, steps).value;
    ScheduleIsItsDecisions(g, limit, steps, s);
    forall a, b | 0 <= a < b < |s.runs| == |s.sch.ops| && s.sch.ops[a].node in nodes && s.sch.ops[b].node in nodes
      ensures !(s.runs[a].phase.Calling? && s.runs[b].phase.Calling?)
    {
      if s.runs[a].phase.Calling? && s.runs[b].phase.Calling? {
        CallingApart(g, limit, s, a, b);
        assert SerialPair(g, s.sch.ops[a].node, s.sch.ops[b].node);
        PairIsRelated(g, Choices(steps), s.sch, a, b);
      }
    }
  }

  ghost function Ancestors(g: Graph, d: nat): set<nat>
    requires WellFormed(g)
  {
    set p | 0 <= p < |g.nodes| && p != d && Below(g, p, d)
  }

  lemma ParentsAreAncestors(g: Graph, d: nat, q: nat, p: nat)
    requires WellFormed(g) && d < |g.nodes| && q < |g.nodes| && p in g.parents[q] && (q == d || q in Ancestors(g, d))
    ensures p in Ancestors(g, d)
  {
    assert q in g.children[p];
    BelowChildOf(g, p, q, d);
    BelowIsInGraph(g, q, d);
    assert Height(g)[q] < Height(g)[p];
  }

  lemma AncestorsAreClosed(g: Graph, d: nat)
    requires WellFormed(g) && d < |g.nodes|
    ensures forall p :: p in g.parents[d] ==> p in Ancestors(g, d)
    ensures forall q, p :: q in Ancestors(g, d) && p in g.parents[q] ==> p in Ancestors(g, d)
  {
    forall p | p in g.parents[d]
      ensures p in Ancestors(g, d)
    {
      ParentsAreAncestors(g, d, d, p);
    }
    forall q, p | q in Ancestors(g, d) && p in g.parents[q]
      ensures p in Ancestors(g, d)
    {
      ParentsAreAncestors(g, d, q, p);
    }
  }

  lemma AncestorsCanGrow(g: Graph, x: nat, y: nat)
    requires WellFormed(g) && x < |g.nodes| && y < |g.nodes|
    ensures |Initial(g).ns| == |g.nodes| && Growable(g, Initial(g).ns, Ancestors(g, x) + Ancestors(g, y))
    ensures Present(Initial(g).ns) == {}
  {
    AncestorsAreClosed(g, x);
    AncestorsAreClosed(g, y);
  }

  // Both ways an operation on x and a create of y can be in flight together.
  ghost predicate Clash(g: Graph, x: nat, y: nat, act: Action)
    requires WellFormed(g) && x < |g.nodes| && y < |g.nodes|
  {
    && x != y && !ShareGate(g, x, y)
    && match act
       case Create => !Below(g, x, y) && !Below(g, y, x)
       case Mutate => Below(g, x, y) && g.nodes[x].mutable
       case Delete => false
  }

  lemma NeitherIsGrown(g: Graph, x: nat, y: nat, act: Action)
    requires WellFormed(g) && x < |g.nodes| && y < |g.nodes| && Clash(g, x, y, act)
    ensures y !in Ancestors(g, x) + Ancestors(g, y)
    ensures x in Ancestors(g, x) + Ancestors(g, y) <==> act == Mutate
    ensures x in g.parents[y] ==> act == Mutate
  {
    if Below(g, x, y) && Below(g, y, x) {
      BelowIsInGraph(g, x, y);
      BelowIsInGraph(g, y, x);
    }
    if x in g.parents[y] {
      ParentsAreAncestors(g, y, y, x);
    }
  }

  lemma CreateWaitsForParents(g: Graph, s: Sched, y: nat)
    requires WellFormed(g) && Wired(g, s) && RollGoing(g, s) && Legal(g, s, y, Create) && s.ns[y].last == None
    ensures forall d :: d in Deps(g, s, y, Create) ==>
              exists p :: p in g.parents[y] && p < |s.ns| && s.ns[p].create == Some(d)
  {
    ParentsHaveCreates(g, s, y, Create);
    var cs := Creates(s.ns, g.parents[y]);
    forall d | d in Deps(g, s, y, Create)
      ensures exists p :: p in g.parents[y] && p < |s.ns| && s.ns[p].create == Some(d)
    {
      var k :| 0 <= k < |cs| && cs[k] == d;
      assert g.parents[y][k] in g.parents[y];
    }
  }

  // The ancestors of x and y are there, x and y are not unless x is one of them.
  lemma AncestorsGrown(g: Graph, limit: nat, x: nat, y: nat, act: Action) returns (steps: seq<Step>, s: Sys)
    requires WellFormed(g) && x < |g.nodes| && y < |g.nodes| && Clash(g, x, y, act) && limit > 0
    ensures Reach(g, limit, steps) == Some(s) && Shape(g, s) && Grown(s)
    ensures |s.sch.ns| == |g.nodes| && Legal(g, s.sch, x, act)
    ensures s.sch.roll.left == [] && !s.sch.ns[y].present && s.sch.ns[y].last == None
    ensures (forall p :: p in g.parents[y] && p != x ==> p < |s.sch.ns| && s.sch.ns[p].present)
    ensures x in g.parents[y] ==> s.sch.ns[x].present
  {
    hide Sound, Reach, Valid, Fits, Grown, Height, Ancestors, Below;
    var todo := Ancestors(g, x) + Ancestors(g, y);
    AncestorsCanGrow(g, x, y);
    AncestorsAreClosed(g, x);
    AncestorsAreClosed(g, y);
    NeitherIsGrown(g, x, y, act);
    StartIsGrown(g, limit);
    steps, s := Grow(g, limit, [], Start(g), todo);
    GrownInventory(g, s.sch, todo);
  }

  lemma GrownInventory(g: Graph, s: Sched, todo: set<nat>)
    requires |s.ns| == |g.nodes| && Present(s.ns) == Present(Initial(g).ns) + todo
    requires forall i :: 0 <= i < |g.nodes| && i !in todo ==> s.ns[i] == Initial(g).ns[i]
    ensures forall i :: 0 <= i < |s.ns| ==> (s.ns[i].present <==> i in todo)
    ensures forall i :: 0 <= i < |s.ns| && i !in todo ==> s.ns[i].last == None
  {
    assert forall i :: 0 <= i < |s.ns| ==> (s.ns[i].present <==> i in Present(s.ns));
  }

  // With x's operation in flight, y's create still finds all it waits for.
  lemma CreateIsNext(g: Graph, s: Sys, t: Sys, x: nat, y: nat, act: Action)
    requires WellFormed(g) && x < |g.nodes| && y < |g.nodes| && Clash(g, x, y, act)
    requires Shape(g, s) && Shape(g, t) && Grown(s) && |s.sch.ns| == |g.nodes| && Legal(g, s.sch, x, act)
    requires s.sch.roll.left == [] && !s.sch.ns[y].present && s.sch.ns[y].last == None
    requires forall p :: p in g.parents[y] && p != x ==> p < |s.sch.ns| && s.sch.ns[p].present
    requires x in g.parents[y] ==> s.sch.ns[x].present
    requires Wired(g, s.sch) && RollGoing(g, s.sch) && t.sch == Dispatch(g, s.sch, x, act)
    requires |t.runs| == |s.runs| + 1 && forall j :: 0 <= j < |s.runs| ==> t.runs[j] == s.runs[j]
    ensures Wired(g, t.sch) && RollGoing(g, t.sch) && |t.sch.ns| == |g.nodes| && Legal(g, t.sch, y, Create)
    ensures forall d :: d in Deps(g, t.sch, y, Create) ==> d < |t.runs| && t.runs[d].phase.Finished?
    ensures forall p :: p in g.parents[y] && p < |t.sch.ns| && t.sch.ns[p].create.Some? ==>
              Succeeded(t, t.sch.ns[p].create.value)
  {
    hide Valid, Wired, RollGoing, Dispatch, Deps, Clash, Legal, Fits, WellFormed, Grown;
    LinkedOf(g);
    StillToCreate(g, s.sch, x, y, act);
    WiredCreates(g, s);
    forall p | p in g.parents[y] && p < |t.sch.ns| && t.sch.ns[p].create.Some?
      ensures Succeeded(t, t.sch.ns[p].create.value)
    {
      assert Succeeded(s, s.sch.ns[p].create.value);
    }
    CreateWaitsForParents(g, t.sch, y);
    forall d | d in Deps(g, t.sch, y, Create)
      ensures Succeeded(t, d)
    {
    }
  }

  // The same, of the inventory.
  lemma StillToCreate(g: Graph, s: Sched, x: nat, y: nat, act: Action)
    requires WellFormed(g) && x < |g.nodes| && y < |g.nodes| && Clash(g, x, y, act)
    requires Valid(g, s) && |s.ns| == |g.nodes| && Wired(g, s) && RollGoing(g, s) && Legal(g, s, x, act)
    requires s.roll.left == [] && !s.ns[y].present && s.ns[y].last == None
    requires forall p :: p in g.parents[y] && p != x ==> p < |s.ns| && s.ns[p].present
    requires x in g.parents[y] ==> s.ns[x].present
    ensures var t := Dispatch(g, s, x, act);
            && Wired(g, t) && RollGoing(g, t) && |t.ns| == |g.nodes| && Legal(g, t, y, Create) && t.ns[y].last == None
            && forall p :: p in g.parents[y] ==> p < |s.ns| && t.ns[p].create == s.ns[p].create
  {
    hide Valid, Wired, RollGoing, Dispatch, Below, Present, WellFormed;
    NeitherIsGrown(g, x, y, act);
    DispatchGrows(g, s, x, act);
    DispatchKeepsValid(g, s, x, act);
    var t := Dispatch(g, s, x, act);
    ValidIsWired(g, t);
    ValidFits(g, t);
    LinkedOf(g);
  }

  lemma LinkedOf(g: Graph)
    requires WellFormed(g)
    ensures Linked(g)
  {
  }

  lemma WiredCreates(g: Graph, s: Sys)
    requires WellFormed(g) && Shape(g, s) && Grown(s)
    ensures forall p :: 0 <= p < |s.sch.ns| && s.sch.ns[p].create.Some? ==> Succeeded(s, s.sch.ns[p].create.value)
  {
  }

  lemma ClashIsApart(g: Graph, x: nat, y: nat, act: Action)
    requires WellFormed(g) && x < |g.nodes| && y < |g.nodes| && Clash(g, x, y, act)
    ensures x != y && !ShareGate(g, x, y) && act != Delete
  {
  }

  /** Two operations that are not kept apart can make their calls at once. */
  lemma ClashOverlaps(g: Graph, limit: nat, x: nat, y: nat, act: Action) returns (steps: seq<Step>, s: Sys)
    requires WellFormed(g) && x < |g.nodes| && y < |g.nodes| && Clash(g, x, y, act) && limit >= 2
    ensures Reach(g, limit, steps) == Some(s) && |s.runs| == |s.sch.ops| >= 2
    ensures var b := |s.runs| - 1;
            && s.runs[b - 1].phase.Calling? && s.sch.ops[b - 1].node == x && s.sch.ops[b - 1].act == act
            && s.runs[b].phase.Calling? && s.sch.ops[b].node == y && s.sch.ops[b].act == Create
  {
    hide Sound, Reach, Valid, Dispatch, Deps, Legal, Wired, RollGoing, Clash, WellFormed, Below;
    LinkedOf(g);
    var first: Sys;
    steps, s := AncestorsGrown(g, limit, x, y, act);
    GrownIsOver(g, s, x, act);
    DispatchNames(g, s.sch, x, act);
    steps, first := TakesOff(g, limit, steps, s, x, act);
    CreateIsNext(g, s, first, x, y, act);
    ClashIsApart(g, x, y, act);
    DispatchNames(g, first.sch, y, Create);
    steps, s := TakesOff(g, limit, steps, first, y, Create);
  }

  // A pair that is not serial clashes one way or the other.
  lemma UnserialPairClashes(g: Graph, x: nat, y: nat)
    requires WellFormed(g) && x < |g.nodes| && y < |g.nodes| && !SerialPair(g, x, y)
    ensures Clash(g, x, y, Create) || Clash(g, x, y, Mutate) || Clash(g, y, x, Mutate)
  {
    assert Below(g, x, x);
  }

  lemma ClashBreaksSerial(g: Graph, limit: nat, nodes: set<nat>, x: nat, y: nat, act: Action)
    requires WellFormed(g) && x < |g.nodes| && y < |g.nodes| && Clash(g, x, y, act) && limit >= 2
    requires x in nodes && y in nodes
    ensures !AlwaysSerial(g, limit, nodes)
  {
    hide Reach, WellFormed, Clash;
    var steps, s := ClashOverlaps(g, limit, x, y, act);
    assert !OneAtATime(Reach(g, limit, steps).value, nodes);
  }

  /** In every run the cloud calls of a set of nodes, a rolling set for one, run one
      after another exactly when there is one slot or any two of the nodes share a
      gate, or one is an ancestor of the other and not mutable. */
  lemma SetsRunSerially(g: Graph, limit: nat, nodes: set<nat>)
    requires WellFormed(g) && forall x :: x in nodes ==> x < |g.nodes|
    ensures AlwaysSerial(g, limit, nodes) <==> limit <= 1 || SerialSet(g, nodes)
  {
    hide Reach, WellFormed, SerialPair, OneAtATime, Clash;
    if limit <= 1 || SerialSet(g, nodes) {
      forall steps | Reach(g, limit, steps).Some?
        ensures OneAtATime(Reach(g, limit, steps).value, nodes)
      {
        SerialSetsAreSerial(g, limit, nodes, steps);
      }
    } else {
      var x, y :| x in nodes && y in nodes && !SerialPair(g, x, y);
      UnserialPairClashes(g, x, y);
      if Clash(g, x, y, Create) {
        ClashBreaksSerial(g, limit, nodes, x, y, Create);
      } else if Clash(g, x, y, Mutate) {
        ClashBreaksSerial(g, limit, nodes, x, y, Mutate);
      } else {
        ClashBreaksSerial(g, limit, nodes, y, x, Mutate);
      }
    }
  }
}
