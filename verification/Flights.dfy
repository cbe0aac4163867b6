/** Runs made to order: an operation from its dispatch to its cloud call, a create
    from its decision to its end, and the creation of a whole set of nodes. */
module Flights {
  import opened Options
  import opened Graphs
  import opened Scheduling
  import opened Execution
  import opened Ordering
  import opened Records
  import opened Tokens
  import opened Identities
  import opened Runs
  import opened Schedules

  lemma OnwardByMove(g: Graph, limit: nat, steps: seq<Step>, s: Sys, j: nat, m: Move)
    returns (longer: seq<Step>, t: Sys)
    requires WellFormed(g) && Reach(g, limit, steps) == Some(s) && Shape(g, s)
    requires j < |s.runs| && MayMove(g, limit, s, j, m)
    ensures Choices(longer) == Choices(steps)
    ensures t == Moved(g, limit, s, j, m) && Reach(g, limit, longer) == Some(t) && Shape(g, t)
  {
    hide Sound, Valid, Fits, MayMove, Moved, Reach;
    longer, t := steps + [Advance(j, m)], Moved(g, limit, s, j, m);
    OneMoreStep(g, limit, steps, s, Advance(j, m));
    ChoicesOneMore(steps, Advance(j, m));
    assert Choices(steps) + [] == Choices(steps);
  }

  // All that operation j waits for has finished.
  predicate Unblocked(s: Sys, j: nat)
    requires j < |s.sch.ops|
  {
    forall d :: d in s.sch.ops[j].deps ==> d < |s.runs| && d != j && s.runs[d].phase.Finished?
  }

  // Only the run of operation j, the tokens and the log differ.
  ghost predicate OnlyRun(s: Sys, t: Sys, j: nat)
  {
    && t == s.(runs := t.runs, sem := t.sem, pending := t.pending, busy := t.busy, log := t.log)
    && |t.runs| == |s.runs| && forall i :: 0 <= i < |s.runs| && i != j ==> t.runs[i] == s.runs[i]
  }

  lemma {:induction false} Observes(g: Graph, limit: nat, steps: seq<Step>, s: Sys, j: nat)
    returns (longer: seq<Step>, t: Sys)
    requires WellFormed(g) && Reach(g, limit, steps) == Some(s) && Shape(g, s)
    requires j < |s.runs| && s.runs[j].phase.Waiting? && Unblocked(s, j)
    ensures Choices(longer) == Choices(steps)
    ensures Reach(g, limit, longer) == Some(t) && Shape(g, t)
    ensures t == s.(runs := s.runs[j := s.runs[j].(phase := Waiting(|s.sch.ops[j].deps|))])
    decreases |s.sch.ops[j].deps| - s.runs[j].phase.k
  {
    hide Sound, Valid, Reach;
    longer, t := steps, s;
    if s.runs[j].phase.k < |s.sch.ops[j].deps| {
      assert s.sch.ops[j].deps[s.runs[j].phase.k] in s.sch.ops[j].deps;
      longer, t := OnwardByMove(g, limit, steps, s, j, Observe);
      longer, t := Observes(g, limit, longer, t, j);
    }
  }

  function GateSet(g: Graph, s: Sys, j: nat): set<nat>
    requires j < |s.sch.ops|
  {
    match Gate(g, s, j) case None => {} case Some(x) => {x}
  }

  // A dispatched operation that nothing keeps from its cloud call.
  ghost predicate Ready(g: Graph, limit: nat, s: Sys, j: nat)
    requires Fits(s) && j < |s.runs|
  {
    && s.runs[j].phase.Parked? && s.runs[j].lo == s.runs[j].hi && !s.cancelled
    && s.pending < limit && s.sem < limit && GateSet(g, s, j) !! s.busy && Unblocked(s, j)
  }

  // Its moves up to its admission.
  lemma Admitted(g: Graph, limit: nat, steps: seq<Step>, s: Sys, j: nat) returns (longer: seq<Step>, t: Sys)
    requires WellFormed(g) && Reach(g, limit, steps) == Some(s) && Shape(g, s) && j < |s.runs| && Ready(g, limit, s, j)
    ensures Choices(longer) == Choices(steps)
    ensures Reach(g, limit, longer) == Some(t) && Shape(g, t)
    ensures var run := s.runs[j].(phase := Running(s.runs[j].lo), admitted := true, token := true);
            t == s.(runs := s.runs[j := run], sem := s.sem + 1, pending := s.pending + 1,
                    busy := s.busy + GateSet(g, s, j))
  {
    hide Sound, Valid, Reach, Fits, Unblocked;
    OneRunEach(s);
    longer, t := Launches(g, limit, steps, s, j);
    longer, t := Observes(g, limit, longer, t, j);
    longer, t := TakesGate(g, limit, longer, t, j);
    longer, t := TakesSlot(g, limit, longer, t, j);
  }

  lemma OneRunEach(s: Sys)
    requires Fits(s)
    ensures |s.runs| == |s.sch.ops|
  {
  }

  lemma Launches(g: Graph, limit: nat, steps: seq<Step>, s: Sys, j: nat) returns (longer: seq<Step>, t: Sys)
    requires WellFormed(g) && Reach(g, limit, steps) == Some(s) && Shape(g, s)
    requires j < |s.runs| == |s.sch.ops| && s.runs[j].phase.Parked? && s.pending < limit && Unblocked(s, j)
    ensures Choices(longer) == Choices(steps)
    ensures Reach(g, limit, longer) == Some(t) && Shape(g, t) && j < |t.sch.ops| && Unblocked(t, j)
    ensures t == s.(runs := s.runs[j := s.runs[j].(phase := Waiting(0), token := true)], pending := s.pending + 1)
  {
    hide Sound, Valid, Reach, Fits;
    longer, t := OnwardByMove(g, limit, steps, s, j, Launch(true));
  }

  lemma TakesSlot(g: Graph, limit: nat, steps: seq<Step>, s: Sys, j: nat) returns (longer: seq<Step>, t: Sys)
    requires WellFormed(g) && Reach(g, limit, steps) == Some(s) && Shape(g, s)
    requires j < |s.runs| && s.runs[j].phase.Gated? && s.sem < limit && !s.cancelled
    ensures Choices(longer) == Choices(steps)
    ensures Reach(g, limit, longer) == Some(t) && Shape(g, t)
    ensures var run := s.runs[j].(phase := Running(s.runs[j].lo), admitted := true);
            t == s.(runs := s.runs[j := run], sem := s.sem + 1)
  {
    hide Sound, Valid, Reach, Fits;
    longer, t := OnwardByMove(g, limit, steps, s, j, WinSlot);
    longer, t := OnwardByMove(g, limit, longer, t, j, Recheck);
  }

  lemma TakesGate(g: Graph, limit: nat, steps: seq<Step>, s: Sys, j: nat) returns (longer: seq<Step>, t: Sys)
    requires WellFormed(g) && Reach(g, limit, steps) == Some(s) && Shape(g, s)
    requires j < |s.runs| && s.runs[j].phase == Waiting(|s.sch.ops[j].deps|) && GateSet(g, s, j) !! s.busy
    ensures Choices(longer) == Choices(steps)
    ensures Reach(g, limit, longer) == Some(t) && Shape(g, t)
    ensures t == s.(runs := s.runs[j := s.runs[j].(phase := Gated)], busy := s.busy + GateSet(g, s, j))
  {
    hide Sound, Valid, Reach;
    longer, t := OnwardByMove(g, limit, steps, s, j, TakeGate);
    assert t.busy == s.busy + GateSet(g, s, j);
  }

  // Its moves up to the start of its cloud call.
  lemma Calls(g: Graph, limit: nat, steps: seq<Step>, s: Sys, j: nat) returns (longer: seq<Step>, t: Sys)
    requires WellFormed(g) && Reach(g, limit, steps) == Some(s) && Shape(g, s) && j < |s.runs| && Ready(g, limit, s, j)
    requires forall t :: OnlyRun(s, t, j) ==> OwnCalls(t, j)
    ensures Choices(longer) == Choices(steps)
    ensures Reach(g, limit, longer) == Some(t) && Shape(g, t) && OnlyRun(s, t, j)
    ensures t.sem == s.sem + 1 && t.pending == s.pending + 1 && t.busy == s.busy + GateSet(g, s, j)
    ensures var run := t.runs[j];
            run == s.runs[j].(phase := Calling(run.hi), admitted := true, token := true, ids := run.ids,
                              deleteFailed := run.deleteFailed)
  {
    hide Sound, Valid, Reach, OwnCalls;
    longer, t := Admitted(g, limit, steps, s, j);
    assert OnlyRun(s, t, j);
    longer, t := OnwardByMove(g, limit, longer, t, j, Begin);
  }

  // The moves of a create whose call succeeds, up to its end.
  lemma Succeeds(g: Graph, limit: nat, steps: seq<Step>, s: Sys, j: nat) returns (longer: seq<Step>, t: Sys)
    requires WellFormed(g) && Reach(g, limit, steps) == Some(s) && Shape(g, s)
    requires j < |s.runs| && s.runs[j].phase == Calling(s.runs[j].hi) && s.runs[j].lo == s.runs[j].hi && s.runs[j].token
    requires s.sch.ops[j].act == Create && s.sem > 0 && s.pending > 0
    ensures Choices(longer) == Choices(steps)
    ensures Reach(g, limit, longer) == Some(t) && Shape(g, t) && OnlyRun(s, t, j)
    ensures t.sem == s.sem - 1 && t.pending == s.pending - 1 && t.busy == s.busy - GateSet(g, s, j)
    ensures t.runs[j].phase.Finished? && t.runs[j].id != "" && !t.runs[j].failed
  {
    hide Sound, Valid, Reach, Fits;
    longer, t := OnwardByMove(g, limit, steps, s, j, Return(Ok("id")));
    longer, t := Frees(g, limit, longer, t, j);
    longer, t := Ends(g, limit, longer, t, j);
  }

  // Slot and gate are given back.
  lemma Frees(g: Graph, limit: nat, steps: seq<Step>, s: Sys, j: nat) returns (longer: seq<Step>, t: Sys)
    requires WellFormed(g) && Reach(g, limit, steps) == Some(s) && Shape(g, s)
    requires j < |s.runs| && s.runs[j].phase.Leaving? && s.sem > 0
    ensures Choices(longer) == Choices(steps)
    ensures Reach(g, limit, longer) == Some(t) && Shape(g, t)
    ensures t == s.(runs := s.runs[j := s.runs[j].(phase := Settling(s.runs[j].lo))], sem := s.sem - 1,
                    busy := s.busy - GateSet(g, s, j))
  {
    hide Sound, Valid, Reach;
    longer, t := OnwardByMove(g, limit, steps, s, j, FreeSlot);
    if Gate(g, s, j).Some? {
      longer, t := OnwardByMove(g, limit, longer, t, j, FreeGate);
    } else {
      assert s.busy - {} == s.busy;
    }
  }

  lemma Ends(g: Graph, limit: nat, steps: seq<Step>, s: Sys, j: nat) returns (longer: seq<Step>, t: Sys)
    requires WellFormed(g) && Reach(g, limit, steps) == Some(s) && Shape(g, s)
    requires j < |s.runs| && s.runs[j].phase == Settling(s.runs[j].hi) && s.runs[j].token && s.pending > 0
    ensures Choices(longer) == Choices(steps)
    ensures Reach(g, limit, longer) == Some(t) && Shape(g, t)
    ensures t == s.(runs := s.runs[j := s.runs[j].(phase := Finished, token := false)], pending := s.pending - 1)
  {
    hide Sound, Valid, Reach, Fits;
    longer, t := OnwardByMove(g, limit, steps, s, j, FreeToken);
    longer, t := OnwardByMove(g, limit, longer, t, j, Close);
  }

  // An operation that has its slot, or its gate only, gives it back.
  lemma StepsBack(g: Graph, limit: nat, steps: seq<Step>, s: Sys, j: nat) returns (longer: seq<Step>, t: Sys)
    requires WellFormed(g) && Reach(g, limit, steps) == Some(s) && Shape(g, s) && j < |s.runs|
    requires s.runs[j].phase.Ungating? || s.runs[j].phase == Settling(s.runs[j].lo)
             || (s.runs[j].phase.Leaving? && s.sem > 0)
    ensures Reach(g, limit, longer) == Some(t) && Choices(longer) == Choices(steps)
    ensures |t.runs| == |s.runs| && t.runs[j] == s.runs[j].(phase := Settling(s.runs[j].lo))
    ensures forall i :: 0 <= i < |s.runs| && i != j ==> t.runs[i] == s.runs[i]
  {
    hide Sound, Valid, Reach, Fits;
    longer, t := steps, s;
    if s.runs[j].phase.Leaving? {
      longer, t := OnwardByMove(g, limit, longer, t, j, FreeSlot);
    }
    if t.runs[j].phase.Ungating? {
      longer, t := OnwardByMove(g, limit, longer, t, j, FreeGate);
    }
  }

  /** Once the run is cancelled an operation that is not admitted can turn away by
      itself: whatever it waits for, no other operation has to move. */
  lemma CancelledTurnsAway(g: Graph, limit: nat, steps: seq<Step>, s: Sys, j: nat)
    returns (longer: seq<Step>, t: Sys)
    requires WellFormed(g) && Reach(g, limit, steps) == Some(s) && s.cancelled
    requires j < |s.runs| && BeforeAdmission(s.runs[j].phase)
    ensures Reach(g, limit, longer) == Some(t) && Choices(longer) == Choices(steps)
    ensures |t.runs| == |s.runs| && t.runs[j].phase == Settling(s.runs[j].lo)
    ensures t.runs[j].admitted == s.runs[j].admitted
    ensures forall i :: 0 <= i < |s.runs| && i != j ==> t.runs[i] == s.runs[i]
  {
    hide Sound, Valid, Reach, Fits, Shape, Moved;
    SoundHasShape(g, limit, s);
    longer, t := steps, s;
    if s.runs[j].phase.Won? {
      SlotIsHeld(g, limit, s, j);
      longer, t := Rechecks(g, limit, longer, t, j);
    } else {
      if s.runs[j].phase.Parked? {
        longer, t := LaunchesAnyway(g, limit, longer, t, j);
      }
      longer, t := Refuses(g, limit, longer, t, j);
    }
    longer, t := StepsBack(g, limit, longer, t, j);
  }

  lemma Rechecks(g: Graph, limit: nat, steps: seq<Step>, s: Sys, j: nat) returns (longer: seq<Step>, t: Sys)
    requires WellFormed(g) && Reach(g, limit, steps) == Some(s) && Shape(g, s) && s.cancelled
    requires j < |s.runs| && s.runs[j].phase.Won?
    ensures Reach(g, limit, longer) == Some(t) && Shape(g, t) && Choices(longer) == Choices(steps)
    ensures t == s.(runs := s.runs[j := s.runs[j].(phase := Leaving)])
  {
    hide Sound, Valid, Reach, Fits;
    longer, t := OnwardByMove(g, limit, steps, s, j, Recheck);
  }

  lemma LaunchesAnyway(g: Graph, limit: nat, steps: seq<Step>, s: Sys, j: nat) returns (longer: seq<Step>, t: Sys)
    requires WellFormed(g) && Reach(g, limit, steps) == Some(s) && Shape(g, s) && s.cancelled
    requires j < |s.runs| && s.runs[j].phase.Parked?
    ensures Reach(g, limit, longer) == Some(t) && Shape(g, t) && Choices(longer) == Choices(steps)
    ensures t == s.(runs := s.runs[j := s.runs[j].(phase := Waiting(0), token := false)])
  {
    hide Sound, Valid, Reach, Fits;
    longer, t := OnwardByMove(g, limit, steps, s, j, Launch(false));
  }

  lemma Refuses(g: Graph, limit: nat, steps: seq<Step>, s: Sys, j: nat) returns (longer: seq<Step>, t: Sys)
    requires WellFormed(g) && Reach(g, limit, steps) == Some(s) && Shape(g, s) && s.cancelled
    requires j < |s.runs| && (s.runs[j].phase.Waiting? || s.runs[j].phase.Gated?)
    ensures Reach(g, limit, longer) == Some(t) && Shape(g, t) && Choices(longer) == Choices(steps)
    ensures |t.runs| == |s.runs| && t.runs[j] == s.runs[j].(phase := t.runs[j].phase)
    ensures t.runs[j].phase.Ungating? || t.runs[j].phase == Settling(s.runs[j].lo)
    ensures forall i :: 0 <= i < |s.runs| && i != j ==> t.runs[i] == s.runs[i]
  {
    hide Sound, Valid, Reach, Fits;
    longer, t := OnwardByMove(g, limit, steps, s, j, Refuse);
  }

  lemma SlotIsHeld(g: Graph, limit: nat, s: Sys, j: nat)
    requires WellFormed(g) && Sound(g, limit, s) && j < |s.runs| && HoldsSlot(s.runs[j])
    ensures s.sem > 0
  {
    hide Valid, Ordered, Traced, Balanced, Recorded, Identified;
    assert j in Slots(s);
  }

  // Create c has succeeded.
  predicate Succeeded(s: Sys, c: nat)
  {
    c < |s.runs| && s.runs[c].phase.Finished? && s.runs[c].id != "" && !s.runs[c].failed
  }

  // Nothing but creates so far, and all have succeeded.
  ghost predicate Grown(s: Sys)
  {
    && !s.cancelled && s.sem == 0 && s.pending == 0 && s.busy == {}
    && (forall j {:trigger s.runs[j]} {:trigger Succeeded(s, j)} :: 0 <= j < |s.runs| ==> Succeeded(s, j))
    && (forall i :: 0 <= i < |s.retired| ==> s.retired[i] == [])
  }

  lemma StartIsGrown(g: Graph, limit: nat)
    requires WellFormed(g)
    ensures Reach(g, limit, []) == Some(Start(g)) && Shape(g, Start(g)) && Grown(Start(g))
  {
    hide Sound, Shape, Valid;
    StartIsSound(g, limit);
    SoundHasShape(g, limit, Start(g));
  }

  lemma NextOperation(g: Graph, limit: nat, steps: seq<Step>, s: Sys, i: nat, act: Action)
    returns (longer: seq<Step>, t: Sys)
    requires WellFormed(g) && Reach(g, limit, steps) == Some(s) && Shape(g, s) && Free(s) && Legal(g, s.sch, i, act)
    requires act == Create ==> s.retired[i] == []
    ensures Choices(longer) == Choices(steps) + [Do(i, act)]
    ensures Reach(g, limit, longer) == Some(t) && Shape(g, t)
    ensures t.sch == Dispatch(g, s.sch, i, act) && |t.runs| == |s.runs| + 1
    ensures t == s.(sch := t.sch, runs := t.runs, retired := t.retired, att := t.att)
    ensures forall j :: 0 <= j < |s.runs| ==> t.runs[j] == s.runs[j]
    ensures var n := |s.runs|; t.runs[n].phase.Parked? && t.runs[n].lo == t.runs[n].hi
    ensures act == Create ==> t.retired == s.retired
    ensures act == Mutate ==> t.retired == s.retired
  {
    hide Sound, Valid, Reach, Dispatch, Legal;
    longer, t := steps + [Decide(Do(i, act))], Dispatched(g, s, i, act);
    OneMoreStep(g, limit, steps, s, Decide(Do(i, act)));
    ChoicesOneMore(steps, Decide(Do(i, act)));
    DispatchedAppends(g, s, i, act);
  }

  // What a dispatch of one operation says about it.
  lemma DispatchNames(g: Graph, s: Sched, i: nat, act: Action)
    requires WellFormed(g) && Valid(g, s) && Legal(g, s, i, act)
    ensures Wired(g, s) && RollGoing(g, s) && i < |s.ns| == |g.nodes|
    ensures var ops := Dispatch(g, s, i, act).ops;
            && |ops| == |s.ops| + 1 && ops[..|s.ops|] == s.ops && ops[|s.ops|].act == act && ops[|s.ops|].node == i
            && ops[|s.ops|].deps == Deps(g, s, i, act)
            && (act != Create ==> Some(ops[|s.ops|].create) == s.ns[i].create)
            && |ops[|s.ops|].parentOps| == |g.parents[i]|
            && forall k :: 0 <= k < |g.parents[i]| ==>
                 g.parents[i][k] < |s.ns| && s.ns[g.parents[i][k]].create == Some(ops[|s.ops|].parentOps[k])
  {
    ParentsHaveCreates(g, s, i, act);
  }

  // An operation in flight: it is decided, its instance and its parents' are
  // there, and its call begins.
  lemma TakesOff(g: Graph, limit: nat, steps: seq<Step>, s: Sys, i: nat, act: Action)
    returns (longer: seq<Step>, t: Sys)
    requires WellFormed(g) && Reach(g, limit, steps) == Some(s) && Shape(g, s) && Free(s) && !s.cancelled
    requires Legal(g, s.sch, i, act) && i < |s.retired| && i < |g.nodes| && |s.sch.ns| == |g.nodes|
    requires act == Create ==> s.retired[i] == []
    requires s.pending < limit && s.sem < limit && (g.nodes[i].gate.Some? ==> g.nodes[i].gate.value !in s.busy)
    requires Wired(g, s.sch) && RollGoing(g, s.sch)
    requires forall d :: d in Deps(g, s.sch, i, act) ==> d < |s.runs| && s.runs[d].phase.Finished?
    requires forall p :: p in g.parents[i] && p < |s.sch.ns| && s.sch.ns[p].create.Some? ==>
               Succeeded(s, s.sch.ns[p].create.value)
    requires act != Create && s.sch.ns[i].create.Some? ==> Succeeded(s, s.sch.ns[i].create.value)
    ensures Choices(longer) == Choices(steps) + [Do(i, act)]
    ensures Reach(g, limit, longer) == Some(t) && Shape(g, t) && !t.cancelled && |t.runs| == |s.runs| + 1
    ensures forall j :: 0 <= j < |s.runs| ==> t.runs[j] == s.runs[j]
    ensures var j := |s.runs|;
            t.runs[j].phase == Calling(t.runs[j].hi) && t.runs[j].lo == t.runs[j].hi && t.runs[j].token
    ensures t.sch == Dispatch(g, s.sch, i, act) && |t.sch.ops| == |t.runs|
    ensures t.sem == s.sem + 1 && t.pending == s.pending + 1 && t.busy == s.busy + GateSet(g, t, |s.runs|)
    ensures act != Delete ==> t.retired == s.retired
  {
    hide Sound, Reach, Dispatch, Valid, Deps, Legal, Wired, RollGoing;
    DispatchNames(g, s.sch, i, act);
    longer, t := NextOperation(g, limit, steps, s, i, act);
    InstanceCalls(g, s, t, i, act);
    longer, t := Calls(g, limit, longer, t, |s.runs|);
  }

  lemma InstanceCalls(g: Graph, s: Sys, t: Sys, i: nat, act: Action)
    requires |t.runs| == |t.sch.ops| == |s.runs| + 1 && i < |g.parents| && i < |s.sch.ns|
    requires forall j :: 0 <= j < |s.runs| ==> t.runs[j] == s.runs[j]
    requires var o := t.sch.ops[|s.runs|];
             && o.act == act && (act != Create ==> Some(o.create) == s.sch.ns[i].create)
             && |o.parentOps| == |g.parents[i]|
             && forall k :: 0 <= k < |g.parents[i]| ==>
                  g.parents[i][k] < |s.sch.ns| && s.sch.ns[g.parents[i][k]].create == Some(o.parentOps[k])
    requires forall p :: p in g.parents[i] && p < |s.sch.ns| && s.sch.ns[p].create.Some? ==>
               Succeeded(s, s.sch.ns[p].create.value)
    requires act != Create && s.sch.ns[i].create.Some? ==> Succeeded(s, s.sch.ns[i].create.value)
    ensures forall u :: OnlyRun(t, u, |s.runs|) ==> OwnCalls(u, |s.runs|)
  {
    var o := t.sch.ops[|s.runs|];
    forall p | p in o.parentOps
      ensures Succeeded(s, p)
    {
      var k :| 0 <= k < |o.parentOps| && o.parentOps[k] == p;
      assert g.parents[i][k] in g.parents[i];
    }
  }

  // What waits only for operations that came before has them all behind it.
  lemma GrownIsOver(g: Graph, s: Sys, i: nat, act: Action)
    requires WellFormed(g) && Shape(g, s) && Grown(s) && Legal(g, s.sch, i, act)
    ensures Wired(g, s.sch) && RollGoing(g, s.sch) && i < |g.nodes| == |s.sch.ns| == |s.retired| && Free(s)
    ensures forall d :: d in Deps(g, s.sch, i, act) ==> d < |s.runs| && s.runs[d].phase.Finished?
    ensures forall p :: 0 <= p < |s.sch.ns| && s.sch.ns[p].create.Some? ==> Succeeded(s, s.sch.ns[p].create.value)
  {
    DepsComeBefore(g, s.sch, i, act);
  }

  // What a dispatched create or mutate changes in the inventory.
  lemma DispatchGrows(g: Graph, s: Sched, i: nat, act: Action)
    requires WellFormed(g) && Valid(g, s) && Legal(g, s, i, act) && act != Delete
    ensures Wired(g, s) && RollGoing(g, s) && i < |s.ns|
    ensures var t := Dispatch(g, s, i, act);
            && t.ns == s.ns[i := if act == Create then NodeState(true, false, Some(|s.ops|), Some(|s.ops|))
                                 else s.ns[i].(mutated := true, last := Some(|s.ops|))]
            && t.roll == s.roll
            && Present(t.ns) == Present(s.ns) + (if act == Create then {i} else {})
  {
    ParentsHaveCreates(g, s, i, act);
  }

  // A create, from its decision to its end.
  lemma Born(g: Graph, limit: nat, steps: seq<Step>, s: Sys, i: nat) returns (longer: seq<Step>, t: Sys)
    requires WellFormed(g) && Reach(g, limit, steps) == Some(s) && Shape(g, s) && Grown(s)
    requires Legal(g, s.sch, i, Create) && limit > 0
    ensures Choices(longer) == Choices(steps) + [Do(i, Create)]
    ensures Reach(g, limit, longer) == Some(t) && Shape(g, t) && Grown(t) && i < |s.sch.ns|
    ensures t.sch.ns == s.sch.ns[i := NodeState(true, false, Some(|s.runs|), Some(|s.runs|))]
    ensures t.sch.roll == s.sch.roll && |t.runs| == |s.runs| + 1
    ensures Present(t.sch.ns) == Present(s.sch.ns) + {i}
  {
    hide Sound, Reach, Legal, Dispatch, Valid, Deps, Wired, RollGoing, Present;
    GrownIsOver(g, s, i, Create);
    DispatchNames(g, s.sch, i, Create);
    DispatchGrows(g, s.sch, i, Create);
    longer, t := TakesOff(g, limit, steps, s, i, Create);
    ghost var flying := t;
    longer, t := Succeeds(g, limit, longer, t, |s.runs|);
    assert t.busy == {};
  }

  // Every parent of an absent node of todo is present or in todo itself.
  ghost predicate Growable(g: Graph, ns: seq<NodeState>, todo: set<nat>)
    requires Linked(g) && |ns| == |g.nodes|
  {
    forall i :: i in todo ==>
      i < |ns| && !ns[i].present && forall p :: p in g.parents[i] ==> p in todo || ns[p].present
  }

  // All nodes of a set are created, parents first.
  lemma {:induction false} Grow(g: Graph, limit: nat, steps: seq<Step>, s: Sys, todo: set<nat>)
    returns (longer: seq<Step>, t: Sys)
    requires WellFormed(g) && Reach(g, limit, steps) == Some(s) && Shape(g, s) && Grown(s) && limit > 0
    requires |s.sch.ns| == |g.nodes| && s.sch.roll.left == [] && Growable(g, s.sch.ns, todo)
    ensures Reach(g, limit, longer) == Some(t) && Shape(g, t) && Grown(t)
    ensures |t.sch.ns| == |g.nodes| && t.sch.roll.left == []
    ensures Present(t.sch.ns) == Present(s.sch.ns) + todo
    ensures forall i :: 0 <= i < |g.nodes| ==> if i in todo then !t.sch.ns[i].mutated else t.sch.ns[i] == s.sch.ns[i]
    decreases |todo|
  {
    hide Sound, Reach, Valid, Fits, Grown, Height, Present;
    longer, t := steps, s;
    if todo != {} {
      var i := Topmost(g, todo);
      longer, t := Born(g, limit, steps, s, i);
      longer, t := Grow(g, limit, longer, t, todo - {i});
    } else {
      assert Present(s.sch.ns) + {} == Present(s.sch.ns);
    }
  }
}
