/** What operations take and give back: concurrency slots, pending tokens and
    family gates. */
module Tokens {
  import opened Options
  import opened Finite
  import opened Graphs
  import opened Execution
  import opened Ordering

  function Slots(s: Sys): set<nat> { set j | 0 <= j < |s.runs| && HoldsSlot(s.runs[j]) }

  function Pending(s: Sys): set<nat> { set j | 0 <= j < |s.runs| && s.runs[j].token }

  // The family gate operation j holds, if any.
  function HeldGate(g: Graph, s: Sys, j: nat): Option<nat>
    requires j < |s.runs| && |s.sch.ops| == |s.runs|
  {
    if HoldsGate(s.runs[j]) then Gate(g, s, j) else None
  }

  predicate Launched(p: Phase) { !p.Parked? && !p.Closing? && !p.Finished? }

  // The slot, pool and gate counters are exactly what the operations hold, and
  // an operation that runs without a pending token was launched after the
  // cancellation.
  ghost predicate Conserved(g: Graph, limit: nat, s: Sys)
    requires Fits(s)
  {
    && s.sem == |Slots(s)| <= limit && s.pending == |Pending(s)| <= limit
    && (forall j :: 0 <= j < |s.runs| ==>
          && (s.runs[j].token ==> Launched(s.runs[j].phase))
          && (!s.runs[j].token && Launched(s.runs[j].phase) ==> s.cancelled))
    && GatesConserved(g, s)
  }

  // Each busy gate has one holder.
  ghost predicate GatesConserved(g: Graph, s: Sys)
    requires Fits(s)
  {
    && (forall j :: 0 <= j < |s.runs| && HeldGate(g, s, j).Some? ==> HeldGate(g, s, j).value in s.busy)
    && (forall x :: x in s.busy ==> exists j :: 0 <= j < |s.runs| && HeldGate(g, s, j) == Some(x))
    && (forall i, j :: 0 <= i < j < |s.runs| && HeldGate(g, s, i).Some? ==> HeldGate(g, s, i) != HeldGate(g, s, j))
  }

  function Bit(b: bool): int { if b then 1 else 0 }

  // What one move takes and gives back: slots and pending tokens, ...
  ghost predicate CountStep(limit: nat, s: Sys, t: Sys, j: nat)
    requires j < |s.runs| == |t.runs|
  {
    var run, run' := s.runs[j], t.runs[j];
    && t.sem == s.sem + Bit(HoldsSlot(run')) - Bit(HoldsSlot(run))
    && (HoldsSlot(run') && !HoldsSlot(run) ==> s.sem < limit)
    && t.pending == s.pending + Bit(run'.token) - Bit(run.token)
    && (run'.token && !run.token ==> s.pending < limit)
    && (run'.token ==> Launched(run'.phase))
    && (!run'.token && Launched(run'.phase) ==> s.cancelled || (!run.token && Launched(run.phase)))
  }

  // ... and the family gate.
  ghost predicate GateStep(g: Graph, s: Sys, t: Sys, j: nat)
    requires Fits(s) && j < |s.runs| == |t.runs| && t.sch == s.sch
  {
    && t.busy == (match (HeldGate(g, s, j), HeldGate(g, t, j))
                  case (None, Some(x)) => s.busy + {x}
                  case (Some(x), None) => s.busy - {x}
                  case _ => s.busy)
    && (HeldGate(g, s, j).None? && HeldGate(g, t, j).Some? ==> HeldGate(g, t, j).value !in s.busy)
  }

  lemma MoveTakesCounts(g: Graph, limit: nat, s: Sys, j: nat, m: Move)
    requires Fits(s) && j < |s.runs| && MayMove(g, limit, s, j, m)
    requires s.runs[j].token ==> Launched(s.runs[j].phase)
    ensures CountStep(limit, s, Moved(g, limit, s, j, m), j)
  {
    hide OwnCalls, RetryCalls, DoneH, FailedH, BeginRetry, EndRetry, Gate;
  }

  lemma MoveTakesGate(g: Graph, limit: nat, s: Sys, j: nat, m: Move)
    requires Fits(s) && j < |s.runs| && MayMove(g, limit, s, j, m)
    ensures GateStep(g, s, Moved(g, limit, s, j, m), j)
  {
    hide OwnCalls, RetryCalls, DoneH, FailedH, BeginRetry, EndRetry;
  }

  lemma MemberChange(a: set<nat>, b: set<nat>, j: nat)
    requires forall i :: i != j ==> (i in a <==> i in b)
    ensures |b| == |a| + Bit(j in b) - Bit(j in a)
  {
    if j in a {
      assert a == (a - {j}) + {j};
    }
    assert j !in b ==> b == a - {j};
    assert j in b ==> b == (a - {j}) + {j};
  }

  lemma MoveKeepsGates(g: Graph, s: Sys, t: Sys, j: nat)
    requires Fits(s) && Fits(t) && j < |s.runs| && Local(s, t, j) && GateStep(g, s, t, j) && GatesConserved(g, s)
    ensures GatesConserved(g, t)
  {
    hide HoldsGate, HoldsSlot;
    assert forall i :: 0 <= i < |s.runs| && i != j ==> HeldGate(g, t, i) == HeldGate(g, s, i);
    forall x | x in t.busy
      ensures exists i :: 0 <= i < |t.runs| && HeldGate(g, t, i) == Some(x)
    {
      if x in s.busy {
        var i :| 0 <= i < |s.runs| && HeldGate(g, s, i) == Some(x);
        assert i != j ==> HeldGate(g, t, i) == Some(x);
        assert i == j ==> HeldGate(g, t, j) == Some(x);
      } else {
        assert HeldGate(g, t, j) == Some(x);
      }
    }
  }

  lemma MoveKeepsConserved(g: Graph, limit: nat, s: Sys, t: Sys, j: nat)
    requires Fits(s) && Fits(t) && j < |s.runs| && Local(s, t, j) && Conserved(g, limit, s)
    requires CountStep(limit, s, t, j) && GateStep(g, s, t, j)
    ensures Conserved(g, limit, t)
  {
    hide Fits, GatesConserved;
    MemberChange(Slots(s), Slots(t), j);
    MemberChange(Pending(s), Pending(t), j);
    MoveKeepsGates(g, s, t, j);
  }

  lemma AppendKeepsConserved(g: Graph, limit: nat, s: Sys, t: Sys)
    requires Fits(s) && Fits(t) && Appended(s, t) && Conserved(g, limit, s)
    ensures Conserved(g, limit, t)
  {
    assert Slots(t) == Slots(s) && Pending(t) == Pending(s);
    assert HeldGate(g, t, |s.runs|).None?;
    assert forall i :: 0 <= i < |s.runs| ==> HeldGate(g, t, i) == HeldGate(g, s, i);
  }

  /** While the run is live, an operation that waits for a slot finds one free. */
  lemma SlotNeverBlocks(g: Graph, limit: nat, s: Sys, j: nat)
    requires Fits(s) && Conserved(g, limit, s) && j < |s.runs| && s.runs[j].phase.Gated? && !s.cancelled
    ensures s.sem < limit && MayMove(g, limit, s, j, WinSlot)
  {
    assert Slots(s) + {j} <= Pending(s);
    SubsetIsNoBigger(Slots(s) + {j}, Pending(s));
  }

  /** At most limit operations are admitted and not yet done with their calls, and
      no two of them share a gate. */
  lemma AdmittedAreBounded(g: Graph, limit: nat, s: Sys, working: set<nat>)
    requires Fits(s) && Conserved(g, limit, s)
    requires working == set j | 0 <= j < |s.runs| && (s.runs[j].phase.Running? || s.runs[j].phase.Calling?)
    ensures |working| <= limit
    ensures forall i, j :: i in working && j in working && i != j && Gate(g, s, i).Some? ==>
              Gate(g, s, i) != Gate(g, s, j)
  {
    SubsetIsNoBigger(working, Slots(s));
    forall i, j | i in working && j in working && i != j && Gate(g, s, i).Some?
      ensures Gate(g, s, i) != Gate(g, s, j)
    {
      assert HeldGate(g, s, i) == Gate(g, s, i) && HeldGate(g, s, j) == Gate(g, s, j);
    }
  }

  /** After the drain nothing is held. */
  lemma DrainedHoldsNothing(g: Graph, limit: nat, s: Sys)
    requires Fits(s) && Conserved(g, limit, s)
    requires forall j :: 0 <= j < |s.runs| ==> s.runs[j].phase.Finished?
    ensures s.sem == 0 && s.pending == 0 && s.busy == {}
  {
    assert Slots(s) == {} && Pending(s) == {};
    assert forall j :: 0 <= j < |s.runs| ==> HeldGate(g, s, j).None?;
  }
}
