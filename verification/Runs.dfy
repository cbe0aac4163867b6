/** Whole runs: any interleaving of decisions, a cancellation and the moves of
    the operations, whatever the cloud calls return. */
module Runs {
  import opened Options
  import opened Graphs
  import opened Scheduling
  import opened Execution
  import opened Ordering
  import opened Records
  import opened Filing
  import opened Tokens
  import opened Identities

  /** What holds in every state of every run. */
  ghost predicate Sound(g: Graph, limit: nat, s: Sys)
    requires WellFormed(g)
  {
    && Shape(g, s) && Ordered(s) && Traced(s) && Balanced(s) && Recorded(s)
    && Conserved(g, limit, s) && Identified(s)
  }

  lemma SoundHasShape(g: Graph, limit: nat, s: Sys)
    requires WellFormed(g) && Sound(g, limit, s)
    ensures Shape(g, s) && Valid(g, s.sch) && |s.sch.ns| == |g.nodes|
  {
  }

  lemma StartIsSound(g: Graph, limit: nat)
    requires WellFormed(g)
    ensures Sound(g, limit, Start(g))
  {
    hide Valid;
    InitialIsValid(g);
    var s := Start(g);
    assert Slots(s) == {} && Pending(s) == {};
  }

  // Only the roll in progress and the cancellation differ.
  ghost predicate SameWork(s: Sys, t: Sys)
  {
    && t.sch.ops == s.sch.ops && t.runs == s.runs && t.retries == s.retries && t.retired == s.retired && t.att == s.att
    && t.sem == s.sem && t.pending == s.pending && t.busy == s.busy && t.cycles == s.cycles && t.removed == s.removed
    && t.log == s.log && (s.cancelled ==> t.cancelled)
  }

  lemma SameWorkKeepsOrdered(s: Sys, t: Sys)
    requires Fits(s) && SameWork(s, t) && Ordered(s) && Traced(s) && Balanced(s)
    ensures Fits(t) && Ordered(t) && Traced(t) && Balanced(t)
  {
    forall j | 0 <= j < |t.runs|
      ensures OrderedAt(t, j)
    {
      assert OrderedAt(s, j);
    }
  }

  lemma SameWorkKeepsChains(s: Sys, t: Sys)
    requires SameWork(s, t) && Chains(s)
    ensures Chains(t)
  {
    forall c | c in t.att
      ensures ChainAt(t, c)
    {
      assert ChainAt(s, c);
    }
    forall r | 0 <= r < |t.retries|
      ensures PlacedAt(t, r)
    {
      assert PlacedAt(s, r);
    }
  }

  lemma SameWorkKeepsStaged(s: Sys, t: Sys)
    requires Fits(s) && Fits(t) && SameWork(s, t) && Staged(s)
    ensures Staged(t)
  {
    forall j | 0 <= j < |t.runs|
      ensures StagedAt(t, j)
    {
      assert StagedAt(s, j);
    }
  }

  lemma SameWorkKeepsOutcomes(s: Sys, t: Sys)
    requires Fits(s) && Fits(t) && SameWork(s, t) && NodeOrdered(s) && Inherits(s) && Removals(s)
    ensures NodeOrdered(t) && Inherits(t) && Removals(t)
  {
    assert forall c :: Tried(s, c) ==> Tried(t, c);
  }

  lemma SameWorkKeepsListed(s: Sys, t: Sys)
    requires SameWork(s, t) && Listed(s)
    ensures Listed(t)
  {
  }

  lemma SameWorkKeepsTokens(g: Graph, limit: nat, s: Sys, t: Sys)
    requires Fits(s) && Fits(t) && SameWork(s, t) && Conserved(g, limit, s)
    ensures Conserved(g, limit, t)
  {
    assert Slots(t) == Slots(s) && Pending(t) == Pending(s);
    assert forall j :: 0 <= j < |s.runs| ==> HeldGate(g, t, j) == HeldGate(g, s, j);
  }

  lemma SameWorkKeepsIdentified(s: Sys, t: Sys)
    requires Fits(s) && Fits(t) && SameWork(s, t) && Identified(s)
    ensures Identified(t)
  {
    forall ops: seq<nat>
      ensures Resolve(t, ops) == Resolve(s, ops)
    {
    }
    forall j | 0 <= j < |t.runs|
      ensures t.sch.ops[j].create < |t.sch.ops| && IdentifiedAt(t, j)
    {
      assert IdentifiedAt(s, j);
    }
    forall r | 0 <= r < |t.retries|
      ensures IdentifiedRetry(t, r)
    {
      assert IdentifiedRetry(s, r);
    }
    forall a | 0 <= a < |t.log|
      ensures IdentifiedCall(t, t.log[a])
    {
      assert IdentifiedCall(s, s.log[a]);
    }
  }

  lemma SameWorkKeepsSound(g: Graph, limit: nat, s: Sys, t: Sys)
    requires WellFormed(g) && Sound(g, limit, s) && SameWork(s, t) && Valid(g, t.sch)
    ensures Sound(g, limit, t)
  {
    hide Valid, NodeOrdered, Chains, Staged, Inherits, Removals, Listed, Ordered, Traced, Balanced, Conserved;
    hide Identified;
    SameWorkKeepsOrdered(s, t);
    SameWorkKeepsChains(s, t);
    SameWorkKeepsStaged(s, t);
    SameWorkKeepsOutcomes(s, t);
    SameWorkKeepsListed(s, t);
    SameWorkKeepsTokens(g, limit, s, t);
    SameWorkKeepsIdentified(s, t);
  }

  lemma DispatchKeepsSound(g: Graph, limit: nat, s: Sys, i: nat, act: Action)
    requires WellFormed(g) && Sound(g, limit, s) && Free(s) && Legal(g, s.sch, i, act)
    ensures Sound(g, limit, Dispatched(g, s, i, act))
  {
    assert Linked(g) && OpsValid(g, s.sch);
    hide Valid, NodeOrdered, Chains, Staged, Inherits, Removals, Listed, Ordered, Traced, Balanced, Conserved;
    hide Identified;
    hide Linked, Known, OpsHaveParents, Appended, Dispatched, Legal;
    var t := Dispatched(g, s, i, act);
    DispatchKeepsValid(g, s.sch, i, act);
    DispatchedAppends(g, s, i, act);
    AppendKeepsFits(s, t);
    AppendKeepsOrdered(s, t);
    AppendKeepsTraced(s, t);
    AppendKeepsBalanced(s, t);
    DispatchKeepsRecorded(g, s, i, act);
    AppendKeepsConserved(g, limit, s, t);
    ValidOpsHaveParents(g, s);
    ChainsAreKnown(s);
    AppendKeepsIdentified(g, s, t);
  }

  lemma MoveKeepsSound(g: Graph, limit: nat, s: Sys, j: nat, m: Move)
    requires WellFormed(g) && Sound(g, limit, s) && j < |s.runs| && MayMove(g, limit, s, j, m)
    ensures Sound(g, limit, Moved(g, limit, s, j, m))
  {
    var t := Moved(g, limit, s, j, m);
    assert Linked(g) && OpsValid(g, s.sch) && OpValid(g, s.sch.ops, j);
    assert StagedAt(s, j) && (s.runs[j].token ==> Launched(s.runs[j].phase));
    MoveIsLocal(g, limit, s, j, m);
    hide Valid, NodeOrdered, Chains, Inherits, Removals, Listed, Ordered, Traced, Balanced, Conserved, Identified;
    hide Linked, OpsHaveParents, Effect, Turn, MayMove, Fits, Staged, StagedAt, PhaseStep, Produces, Stays, LogStep;
    hide CountStep, GateStep, IdStep, CallStep, Launched;
    MoveSteps(g, limit, s, j, m);
    MoveKeepsFits(g, s, t, j);
    MoveKeepsOrdered(g, s, t, j);
    MoveLogsPhase(g, limit, s, j, m);
    MoveKeepsTraced(g, s, t, j);
    MoveKeepsBalanced(s, t, j);
    MoveKeepsRecorded(g, limit, s, j, m);
    MoveTakesCounts(g, limit, s, j, m);
    MoveTakesGate(g, limit, s, j, m);
    MoveKeepsConserved(g, limit, s, t, j);
    MoveProduces(g, limit, s, j, m);
    OutcomesStay(g, s, t, j);
    ValidOpsHaveParents(g, s);
    MoveHasIds(g, limit, s, j, m);
    MoveCalls(g, limit, s, j, m);
    MoveKeepsIdentified(g, s, t, j);
  }

  lemma StepKeepsSound(g: Graph, limit: nat, s: Sys, step: Step)
    requires WellFormed(g) && Sound(g, limit, s) && Enabled(g, limit, s, step)
    ensures Sound(g, limit, Taken(g, limit, s, step))
  {
    hide Valid, Recorded, Ordered, Traced, Balanced, Conserved, Identified, Fits;
    match step
    case Decide(Do(i, act)) => DispatchKeepsSound(g, limit, s, i, act);
    case Decide(Replace(root)) => SameWorkKeepsSound(g, limit, s, Decided(g, s, Replace(root)));
    case Cancel => SameWorkKeepsSound(g, limit, s, s.(cancelled := true));
    case Advance(j, m) => MoveKeepsSound(g, limit, s, j, m);
  }

  /** The state after a run, None once a step is not possible. */
  ghost function Reach(g: Graph, limit: nat, steps: seq<Step>): (r: Option<Sys>)
    requires WellFormed(g)
    ensures r.Some? ==> Sound(g, limit, r.value)
  {
    if steps == [] then
      StartIsSound(g, limit); Some(Start(g))
    else
      match Reach(g, limit, steps[..|steps| - 1])
      case None => None
      case Some(s) =>
        var step := steps[|steps| - 1];
        if Enabled(g, limit, s, step) then StepKeepsSound(g, limit, s, step); Some(Taken(g, limit, s, step)) else None
  }

  /** A run goes on by one step. */
  lemma OneMoreStep(g: Graph, limit: nat, steps: seq<Step>, s: Sys, step: Step)
    requires WellFormed(g) && Reach(g, limit, steps) == Some(s) && Shape(g, s) && Enabled(g, limit, s, step)
    ensures Reach(g, limit, steps + [step]) == Some(Taken(g, limit, s, step)) && Shape(g, Taken(g, limit, s, step))
  {
    hide Sound, Shape, Enabled, Taken;
    var t := Taken(g, limit, s, step);
    assert (steps + [step])[..|steps|] == steps;
    assert Reach(g, limit, steps + [step]) == Some(t);
    SoundHasShape(g, limit, t);
  }
}
