/** Deleted instances that may still be in the cloud are deleted again by their
    node's next create, whatever happened to the deletes before. */
module Repeats {
  import opened Options
  import opened Graphs
  import opened Scheduling
  import opened Execution
  import opened Ordering
  import opened Records
  import opened Identities
  import opened Runs
  import opened Duties

  // Create j retries the delete of instance c.
  ghost predicate Retries(s: Sys, j: nat, c: nat)
  {
    exists r :: 0 <= r < |s.retries| && s.retries[r].owner == j && s.retries[r].create == c
  }

  // It does, or there is nothing to delete.
  ghost predicate Covered(s: Sys, j: nat, c: nat) { Retries(s, j, c) || Empty(s, c) || RemovedBefore(s.log, c, j) }

  ghost predicate Follows(s: Sys, c: nat, j: nat)
    requires c < |s.sch.ops| && j < |s.sch.ops|
  {
    c < j && s.sch.ops[c].act == Create && s.sch.ops[j].act == Create && s.sch.ops[c].node == s.sch.ops[j].node
  }

  ghost predicate AllCovered(s: Sys)
  {
    forall c, j :: 0 <= c < |s.sch.ops| && 0 <= j < |s.sch.ops| && Follows(s, c, j) ==> Covered(s, j, c)
  }

  // Nothing is taken back from s to t.
  ghost predicate Later(s: Sys, t: Sys)
  {
    && |s.runs| <= |t.runs| && |s.retries| <= |t.retries| && |s.log| <= |t.log| && |s.sch.ops| <= |t.sch.ops|
    && (forall r :: 0 <= r < |s.retries| ==>
          t.retries[r].owner == s.retries[r].owner && t.retries[r].create == s.retries[r].create)
    && (forall c :: 0 <= c < |s.runs| && s.runs[c].phase.Finished? ==> t.runs[c] == s.runs[c])
    && (forall a :: 0 <= a < |s.log| ==> t.log[a] == s.log[a])
    && (forall j :: 0 <= j < |s.sch.ops| ==> t.sch.ops[j] == s.sch.ops[j])
  }

  lemma CoveredStays(s: Sys, t: Sys, j: nat, c: nat)
    requires Later(s, t) && Covered(s, j, c)
    ensures Covered(t, j, c)
  {
    if Retries(s, j, c) {
      var r :| 0 <= r < |s.retries| && s.retries[r].owner == j && s.retries[r].create == c;
      assert t.retries[r].owner == j && t.retries[r].create == c;
    } else if RemovedBefore(s.log, c, j) {
      var a :| 0 <= a < |s.log| && Removes(s.log[a], c) && s.log[a].op < j;
      assert Removes(t.log[a], c) && t.log[a].op < j;
    }
  }

  lemma AppendIsLater(s: Sys, t: Sys)
    requires Appended(s, t)
    ensures Later(s, t)
  {
  }

  lemma SameWorkIsLater(s: Sys, t: Sys)
    requires SameWork(s, t)
    ensures Later(s, t)
  {
  }

  lemma MoveIsLater(g: Graph, s: Sys, t: Sys, i: nat)
    requires Prepared(g, s) && Moves(g, s, t, i)
    ensures Later(s, t)
  {
    MoveLogs(g, s, t, i);
    assert |s.runs| == |s.sch.ops|;
    hide Prepared, PhaseStep, Speaks, EventFits;
  }

  lemma MovedIsLater(g: Graph, limit: nat, s: Sys, j: nat, m: Move)
    requires WellFormed(g) && Sound(g, limit, s) && Told(s) && j < |s.runs| && Fits(s) && MayMove(g, limit, s, j, m)
    ensures Later(s, Moved(g, limit, s, j, m))
  {
    hide Sound, Fits, MayMove, Moved, PhaseStep, Speaks, Local, Prepared;
    SoundIsPrepared(g, limit, s);
    MoveIsLocal(g, limit, s, j, m);
    MoveRuns(g, limit, s, j, m);
    MoveSpeaks(g, limit, s, j, m);
    MoveIsLater(g, s, Moved(g, limit, s, j, m), j);
  }

  // Every entry that is not confirmed gets a retry.
  lemma {:induction false} RequeueGives(s: Sys, i: nat, m: nat)
    requires i < |s.retired| && m <= |s.retired[i]| && |s.runs| > 0
    ensures var t := Requeue(s, i, m);
            && |s.retries| <= |t.retries|
            && (forall r :: 0 <= r < |s.retries| ==> t.retries[r] == s.retries[r])
            && forall k :: m <= k < |s.retired[i]| && !Confirmed(s, s.retired[i][k].del) ==>
                 Retries(t, |s.runs| - 1, s.retired[i][k].create)
    decreases |s.retired[i]| - m
  {
    if m < |s.retired[i]| {
      var one := RequeueOne(s, i, m);
      var t := Requeue(s, i, m);
      RequeueGives(one, i, m + 1);
      forall k | m <= k < |s.retired[i]| && !Confirmed(s, s.retired[i][k].del)
        ensures Retries(t, |s.runs| - 1, s.retired[i][k].create)
      {
        if k == m {
          assert one.retries[|s.retries|].owner == |s.runs| - 1;
          assert t.retries[|s.retries|] == one.retries[|s.retries|];
        } else {
          assert one.retired[i][k] == s.retired[i][k];
          assert !Confirmed(one, one.retired[i][k].del);
        }
      }
    }
  }

  // A confirmed attempt is about an instance that a Delete before removed, or
  // that never had an id.
  lemma ConfirmedIsCovered(s: Sys, t: Sys, c: nat)
    requires |s.runs| == |s.sch.ops| && Chains(s) && Removals(s) && AllKept(s) && AllFit(s) && Appended(s, t)
    requires Created.Deleted(s, c) && Confirmed(s, Created.LastAttempt(s, c))
    ensures Covered(t, |s.runs|, c)
  {
    Created.ConfirmedIsGone(s, c);
    hide Chains, Removals;
    if c in s.removed {
      RemovedInIs(s.log, c);
      var a :| 0 <= a < |s.log| && Removes(s.log[a], c);
      assert EventFits(s, s.log[a]);
      assert Removes(t.log[a], c) && t.log[a].op < |s.runs|;
    }
  }

  // What is known of the node's instances when its next create is dispatched.
  lemma RetiredOrConfirmed(g: Graph, limit: nat, s: Sys, i: nat, c: nat)
    requires WellFormed(g) && Sound(g, limit, s) && |s.sch.ns| == |g.nodes| && Legal(g, s.sch, i, Create)
    requires Created.IsCreate(s, c) && s.sch.ops[c].node == i
    ensures i < |s.retired| && Created.Deleted(s, c) && Chains(s) && Removals(s) && |s.runs| == |s.sch.ops|
    ensures Confirmed(s, Created.LastAttempt(s, c))
            || exists m :: 0 <= m < |s.retired[i]| && s.retired[i][m].create == c
                           && s.retired[i][m].del == Created.LastAttempt(s, c)
  {
    Created.SoundIsKept(g, limit, s);
    hide Valid, Ordered, Traced, Balanced, NodeOrdered, Staged, Inherits, Chains, Removals, Identified;
    assert NoneDropped(s) && EntriesCurrent(s);
    if !Confirmed(s, Created.LastAttempt(s, c)) {
      var m :| 0 <= m < |s.retired[i]| && s.retired[i][m].create == c;
    }
  }

  lemma ParkedKeepsConfirmed(s: Sys, sch: Sched, act: Action, h: Handle)
    ensures Confirmed(Park(s, sch, act), h) ==> Confirmed(s, h)
  {
  }

  lemma NewIsCovered(g: Graph, limit: nat, s: Sys, i: nat, c: nat)
    requires WellFormed(g) && Sound(g, limit, s) && Shape(g, s) && Told(s) && |s.sch.ns| == |g.nodes|
    requires Legal(g, s.sch, i, Create) && Created.IsCreate(s, c) && s.sch.ops[c].node == i
    ensures Covered(Dispatched(g, s, i, Create), |s.runs|, c)
  {
    hide Sound, Valid, Fits, Legal, Dispatch, Appended, AllKept, AllFit, AllDutiful, Chains, Removals, Covered;
    hide Created.LastAttempt, Created.Deleted;
    RetiredOrConfirmed(g, limit, s, i, c);
    DispatchedAppends(g, s, i, Create);
    if Confirmed(s, Created.LastAttempt(s, c)) {
      ConfirmedIsCovered(s, Dispatched(g, s, i, Create), c);
    } else {
      var m :| 0 <= m < |s.retired[i]| && s.retired[i][m].create == c
               && s.retired[i][m].del == Created.LastAttempt(s, c);
      FiledIsRetried(g, s, i, m);
      assert Covered(Dispatched(g, s, i, Create), |s.runs|, c) by {
        IsCovered(Dispatched(g, s, i, Create), |s.runs|, c);
      }
    }
  }

  lemma IsCovered(s: Sys, j: nat, c: nat)
    requires Retries(s, j, c)
    ensures Covered(s, j, c)
  {
  }

  lemma FiledIsRetried(g: Graph, s: Sys, i: nat, m: nat)
    requires WellFormed(g) && Shape(g, s) && Legal(g, s.sch, i, Create)
    requires i < |s.retired| && m < |s.retired[i]| && !Confirmed(s, s.retired[i][m].del)
    ensures Retries(Dispatched(g, s, i, Create), |s.runs|, s.retired[i][m].create)
  {
    DispatchExtends(g, s.sch, i, Create);
    hide Valid, Fits, Legal, Dispatch, Requeue, Confirmed, Retries;
    var p := Park(s, Dispatch(g, s.sch, i, Create), Create);
    ParkedKeepsConfirmed(s, Dispatch(g, s.sch, i, Create), Create, s.retired[i][m].del);
    RequeueGives(p, i, 0);
  }

  lemma DispatchKeepsCovered(g: Graph, limit: nat, s: Sys, i: nat, act: Action)
    requires WellFormed(g) && Sound(g, limit, s) && Shape(g, s) && Told(s) && AllCovered(s)
    requires Legal(g, s.sch, i, act)
    ensures AllCovered(Dispatched(g, s, i, act))
  {
    hide Sound, Valid, Fits, Legal, Dispatched, Covered, Told, Later;
    SoundHasShape(g, limit, s);
    DispatchedAppends(g, s, i, act);
    DispatchNames(g, s, i, act);
    var t := Dispatched(g, s, i, act);
    AppendIsLater(s, t);
    forall c, j | 0 <= c < |t.sch.ops| && 0 <= j < |t.sch.ops| && Follows(t, c, j)
      ensures Covered(t, j, c)
    {
      if j < |s.sch.ops| {
        assert Follows(s, c, j);
        CoveredStays(s, t, j, c);
      } else {
        NewIsCovered(g, limit, s, i, c);
      }
    }
  }

  lemma DispatchNames(g: Graph, s: Sys, i: nat, act: Action)
    requires WellFormed(g) && Shape(g, s) && Legal(g, s.sch, i, act)
    ensures var t := Dispatched(g, s, i, act);
            |t.sch.ops| == |s.sch.ops| + 1 && t.sch.ops[|s.sch.ops|].node == i && t.sch.ops[|s.sch.ops|].act == act
  {
    DispatchExtends(g, s.sch, i, act);
    DispatchedAppends(g, s, i, act);
    hide Valid, Fits, Dispatched, Appended;
  }

  lemma StepKeepsCovered(g: Graph, limit: nat, s: Sys, step: Step)
    requires WellFormed(g) && Sound(g, limit, s) && Shape(g, s) && Told(s) && Enabled(g, limit, s, step)
    requires AllCovered(s)
    ensures AllCovered(Taken(g, limit, s, step))
  {
    hide Sound, Valid, Fits, Told, Moved, MayMove, Dispatched, Appended, Legal, Free, MayRoll, AllCovered, Later;
    var t := Taken(g, limit, s, step);
    match step
    case Decide(Do(i, act)) => DispatchKeepsCovered(g, limit, s, i, act);
    case Decide(Replace(root)) =>
      SameWorkIsLater(s, t);
      LaterIsCovered(s, t);
    case Cancel =>
      SameWorkIsLater(s, t);
      LaterIsCovered(s, t);
    case Advance(j, m) =>
      MovedIsLater(g, limit, s, j, m);
      MoveIsLocal(g, limit, s, j, m);
      LaterIsCovered(s, t);
  }

  lemma LaterIsCovered(s: Sys, t: Sys)
    requires Later(s, t) && AllCovered(s) && t.sch.ops == s.sch.ops
    ensures AllCovered(t)
  {
    hide Covered, Later;
    forall c, j | 0 <= c < |t.sch.ops| && 0 <= j < |t.sch.ops| && Follows(t, c, j)
      ensures Covered(t, j, c)
    {
      assert Follows(s, c, j);
      CoveredStays(s, t, j, c);
    }
  }

  lemma {:induction false} ReachIsCovered(g: Graph, limit: nat, steps: seq<Step>)
    requires WellFormed(g) && Reach(g, limit, steps).Some?
    ensures AllCovered(Reach(g, limit, steps).value)
  {
    hide Sound, Shape, Told, Enabled, Taken, Start, AllCovered;
    if steps == [] {
      NothingToCover(g);
    } else {
      var before := steps[..|steps| - 1];
      ReachIsCovered(g, limit, before);
      ReachIsTold(g, limit, before);
      var s := Reach(g, limit, before).value;
      SoundHasShape(g, limit, s);
      StepKeepsCovered(g, limit, s, steps[|steps| - 1]);
    }
  }

  lemma NothingToCover(g: Graph)
    ensures AllCovered(Start(g))
  {
  }

  /** Once an admitted create none of whose retries panicked has come to its own
      call, it has deleted each earlier instance of its node, once, exactly if that
      had an id and no Delete by an operation before removed it. */
  lemma InstancesAreDeletedAgain(g: Graph, limit: nat, steps: seq<Step>, s: Sys, j: nat, c: nat)
    requires WellFormed(g) && Reach(g, limit, steps) == Some(s) && c < j < |s.runs| == |s.sch.ops|
    requires s.sch.ops[c].act == Create && s.sch.ops[j].act == Create && s.sch.ops[c].node == s.sch.ops[j].node
    requires Intact(s, j) && (Working(s.runs[j].phase) ==> s.runs[j].phase.r == s.runs[j].hi)
    ensures CallsOn(s.log, j, c, Delete, false) == CallsOn(s.log, j, c, Delete, true) ==
            if Born(s.log, c) && !RemovedBefore(s.log, c, j) then 1 else 0
  {
    hide Sound, Reach, Panicked, AllDutiful, Born, RemovedBefore, EventFits;
    ReachIsTold(g, limit, steps);
    ReachIsCovered(g, limit, steps);
    assert Follows(s, c, j) && Kept(s, c);
    AdmittedIsPast(g, limit, s, j);
    if Retries(s, j, c) {
      var r :| 0 <= r < |s.retries| && s.retries[r].owner == j && s.retries[r].create == c;
      OwnerHasRetry(g, limit, s, r);
      RetriesAreMade(g, limit, steps, s, r);
    } else {
      NotRetriedIsSilent(s, j, c, false);
      NotRetriedIsSilent(s, j, c, true);
    }
  }

  lemma AdmittedIsPast(g: Graph, limit: nat, s: Sys, j: nat)
    requires WellFormed(g) && Sound(g, limit, s) && j < |s.runs| && s.runs[j].admitted
    ensures !BeforeAdmission(s.runs[j].phase)
  {
    hide Valid, Traced, Balanced, Recorded, Identified;
    assert OrderedAt(s, j);
  }

  lemma OwnerHasRetry(g: Graph, limit: nat, s: Sys, r: nat)
    requires WellFormed(g) && Sound(g, limit, s) && r < |s.retries|
    ensures s.retries[r].owner < |s.runs| && s.runs[s.retries[r].owner].lo <= r < s.runs[s.retries[r].owner].hi
  {
    hide Valid, Ordered, Traced, Balanced, Recorded, Identified;
  }

  lemma NotRetriedIsSilent(s: Sys, j: nat, c: nat, back: bool)
    requires AllFit(s) && j < |s.sch.ops| && s.sch.ops[j].act == Create && !Retries(s, j, c)
    ensures CallsOn(s.log, j, c, Delete, back) == 0
  {
    assert forall a :: 0 <= a < |s.log| ==> EventFits(s, s.log[a]);
    CountedIsThere(s.log, j, c, Delete, back);
  }
}
