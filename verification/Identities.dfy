/** Which parent ids the cloud calls pass: every call on an instance passes those
    its create was called with, and none of them is empty. */
module Identities {
  import opened Graphs
  import opened Scheduling
  import opened Execution
  import opened Ordering
  import opened Records

  ghost predicate NonEmpty(ids: seq<string>) { forall k :: 0 <= k < |ids| ==> ids[k] != "" }

  // The cloud ids of the parents of instance c.
  ghost function ParentIds(s: Sys, c: nat): seq<string>
    requires c < |s.sch.ops|
  {
    Resolve(s, s.sch.ops[c].parentOps)
  }

  ghost predicate IdentifiedAt(s: Sys, j: nat)
    requires |s.runs| == |s.sch.ops| && j < |s.runs| && s.sch.ops[j].create < |s.sch.ops|
  {
    var run := s.runs[j];
    && (run.id != "" ==> run.admitted && NonEmpty(ParentIds(s, j)))
    && (run.phase.Calling? && run.phase.r == run.hi ==> NonEmpty(ParentIds(s, s.sch.ops[j].create)))
    && (s.sch.ops[j].act == Delete && run.admitted && !run.phase.Running? ==> run.ids == ParentIds(s, j))
  }

  ghost predicate IdentifiedRetry(s: Sys, r: nat)
    requires r < |s.retries|
  {
    s.retries[r].done ==> s.retries[r].ids == IdsH(s, s.retries[r].prev)
  }

  // The call passes the ids the create of its instance is given.
  ghost predicate IdentifiedCall(s: Sys, e: Event)
    requires |s.runs| == |s.sch.ops|
  {
    && e.target < |s.runs| && s.runs[e.target].admitted
    && e.ids == ParentIds(s, e.target) && NonEmpty(e.ids)
  }

  ghost predicate Identified(s: Sys)
    requires |s.runs| == |s.sch.ops|
  {
    && (forall j :: 0 <= j < |s.runs| ==> s.sch.ops[j].create < |s.sch.ops| && IdentifiedAt(s, j))
    && (forall r :: 0 <= r < |s.retries| ==> IdentifiedRetry(s, r))
    && (forall a :: 0 <= a < |s.log| ==> IdentifiedCall(s, s.log[a]))
  }

  // A finished run keeps its id.
  ghost predicate FinishedStay(s: Sys, t: Sys)
  {
    && |s.runs| <= |t.runs| && |s.sch.ops| == |s.runs| && |t.sch.ops| == |t.runs|
    && (forall c :: 0 <= c < |s.runs| ==> t.sch.ops[c] == s.sch.ops[c])
    && (forall c :: 0 <= c < |s.runs| && s.runs[c].phase.Finished? ==> t.runs[c] == s.runs[c])
  }

  // The parent ids of an admitted operation's instance are settled.
  lemma ParentIdsStay(g: Graph, s: Sys, t: Sys, c: nat)
    requires Linked(g) && Fits(s) && OpsHaveParents(g, s) && FinishedStay(s, t) && c < |s.runs|
    requires s.runs[c].admitted && OrderedAt(s, c)
    ensures ParentIds(t, c) == ParentIds(s, c)
  {
    var ps := s.sch.ops[c].parentOps;
    forall k | 0 <= k < |ps|
      ensures IdOf(t, ps[k]) == IdOf(s, ps[k])
    {
      assert OpHasParents(s, c);
      assert ps[k] in ps;
      assert Behind(s, ps[k]);
    }
  }

  // Operation j is behind its parents' creates, and those are the ones the
  // create of its instance is behind.
  ghost predicate OpHasParents(s: Sys, j: nat)
    requires j < |s.sch.ops|
  {
    var o := s.sch.ops[j];
    && o.create < |s.sch.ops| && s.sch.ops[o.create].parentOps == o.parentOps
    && forall p :: p in o.parentOps ==> p in o.past
  }

  ghost predicate OpsHaveParents(g: Graph, s: Sys)
  {
    forall j :: 0 <= j < |s.sch.ops| ==> OpHasParents(s, j)
  }

  lemma ValidOpsHaveParents(g: Graph, s: Sys)
    requires Linked(g) && OpsValid(g, s.sch)
    ensures OpsHaveParents(g, s)
  {
    forall j | 0 <= j < |s.sch.ops|
      ensures OpHasParents(s, j)
    {
      assert OpValid(g, s.sch.ops, j);
    }
  }

  // What one move does to ids and to the log.
  ghost predicate IdStep(s: Sys, t: Sys, j: nat)
    requires |s.sch.ops| == |s.runs| == |t.runs| && j < |s.runs|
  {
    var run, run' := s.runs[j], t.runs[j];
    var o := s.sch.ops[j];
    && run'.hi == run.hi
    && (run'.id != run.id ==> o.act == Create && run.phase == Calling(run.hi))
    && run'.ids == (if o.act == Delete && run.phase == Running(run.hi) then Resolve(s, o.parentOps) else run.ids)
    && (run'.phase == Calling(run.hi) ==> run.phase == Running(run.hi) && OwnCalls(s, j))
    && (run.admitted ==> run'.admitted) && (run'.admitted && !run'.phase.Running? ==> run.admitted)
  }

  // The event a move of operation j logs.
  ghost predicate CallStep(s: Sys, t: Sys, j: nat)
    requires |s.sch.ops| == |s.runs| && j < |s.runs|
  {
    var run := s.runs[j];
    || t.log == s.log
    || ((run.phase.Running? || run.phase.Calling?) && |t.log| == |s.log| + 1 && t.log[..|s.log|] == s.log
        && var e := t.log[|s.log|];
        && e.op == j
        && (if run.phase.r < run.hi
            then run.phase.r < |s.retries| && e.target == s.retries[run.phase.r].create
                 && e.ids == IdsH(s, s.retries[run.phase.r].prev) && (run.phase.Running? ==> RetryCalls(s, run.phase.r))
            else e.target == s.sch.ops[j].create && e.ids == Resolve(s, s.sch.ops[j].parentOps)
                 && (run.phase.Running? ==> OwnCalls(s, j))))
  }

  lemma MoveHasIds(g: Graph, limit: nat, s: Sys, j: nat, m: Move)
    requires Fits(s) && j < |s.runs| && MayMove(g, limit, s, j, m)
    ensures IdStep(s, Moved(g, limit, s, j, m), j)
  {
    hide OwnCalls, RetryCalls, DoneH, FailedH, BeginRetry, EndRetry, Gate, Resolve;
  }

  lemma MoveCalls(g: Graph, limit: nat, s: Sys, j: nat, m: Move)
    requires Fits(s) && j < |s.runs| && MayMove(g, limit, s, j, m)
    ensures CallStep(s, Moved(g, limit, s, j, m), j)
  {
    hide OwnCalls, RetryCalls, DoneH, FailedH, Gate, Resolve;
  }

  // The create of an admitted operation's instance is admitted too.
  lemma InstanceIsAdmitted(s: Sys, j: nat)
    requires Fits(s) && NodeOrdered(s) && Ordered(s) && j < |s.runs| && s.runs[j].admitted
    ensures s.sch.ops[j].create < |s.runs| && s.runs[s.sch.ops[j].create].admitted
  {
    if s.sch.ops[j].act != Create {
      AdmittedHasInstance(s, j);
    }
  }

  // A call of an operation's own has real parent ids.
  lemma OwnCallIsReal(s: Sys, j: nat)
    requires Fits(s) && j < |s.runs| && OpHasParents(s, j) && OwnCalls(s, j)
    requires s.sch.ops[s.sch.ops[j].create].create < |s.sch.ops| && IdentifiedAt(s, s.sch.ops[j].create)
    ensures NonEmpty(ParentIds(s, s.sch.ops[j].create))
  {
    var ps := s.sch.ops[j].parentOps;
    forall k | 0 <= k < |ps| && s.sch.ops[j].act != Delete
      ensures IdOf(s, ps[k]) != ""
    {
      assert ps[k] in ps;
    }
  }

  // A retry whose owner is admitted deletes with the ids its instance was
  // created with.
  lemma {:induction false} RetryPassesIds(g: Graph, s: Sys, r: nat)
    requires Fits(s) && NodeOrdered(s) && Ordered(s) && Chains(s) && Staged(s) && Identified(s) && OpsHaveParents(g, s)
    requires r < |s.retries| && s.runs[s.retries[r].owner].admitted
    ensures s.retries[r].create < |s.runs| && s.runs[s.retries[r].create].admitted
    ensures IdsH(s, s.retries[r].prev) == ParentIds(s, s.retries[r].create)
    decreases r
  {
    hide Staged, RetriesStagedAt, CallStagedAt, ParentIds, Chains, NodeOrdered, Ordered;
    var rt := s.retries[r];
    AdmittedIsReady(s, r);
    RetryIsBehind(s, r);
    match rt.prev
    case Own(d) =>
      assert IdentifiedAt(s, d);
      assert ParentIds(s, d) == ParentIds(s, rt.create) by { SameParents(g, s, d); }
    case Again(q) =>
      assert IdentifiedRetry(s, q);
      RetryPassesIds(g, s, q);
  }

  lemma SameParents(g: Graph, s: Sys, d: nat)
    requires OpsHaveParents(g, s) && d < |s.sch.ops|
    ensures s.sch.ops[d].create < |s.sch.ops| && ParentIds(s, d) == ParentIds(s, s.sch.ops[d].create)
  {
    assert OpHasParents(s, d);
  }

  // What an admitted owner's retry follows: a Delete that ran, or a retry whose
  // owner ran.
  lemma RetryIsBehind(s: Sys, r: nat)
    requires Fits(s) && NodeOrdered(s) && Ordered(s) && Chains(s)
    requires r < |s.retries| && s.runs[s.retries[r].owner].admitted
    ensures Behind(s, s.retries[r].create)
    ensures match s.retries[r].prev
            case Own(d) => Behind(s, d) && s.sch.ops[d].act == Delete && s.sch.ops[d].create == s.retries[r].create
            case Again(q) => q < r && s.retries[q].create == s.retries[r].create && s.runs[s.retries[q].owner].admitted
  {
    var rt := s.retries[r];
    assert PlacedAt(s, r) && OrderedAt(s, rt.owner) && ChainAt(s, rt.create);
    if rt.prev.Again? {
      assert PlacedAt(s, rt.prev.retry);
      assert Behind(s, s.retries[rt.prev.retry].owner);
    }
  }

  lemma MoveKeepsOtherIds(g: Graph, s: Sys, t: Sys, j: nat, i: nat)
    requires Linked(g) && Fits(s) && NodeOrdered(s) && Ordered(s) && OpsHaveParents(g, s) && FinishedStay(s, t)
    requires i < |s.runs| && s.sch.ops[i].create < |s.sch.ops| && IdentifiedAt(s, i) && t.runs[i] == s.runs[i]
    ensures IdentifiedAt(t, i)
  {
    hide Fits, ParentIds, OpsHaveParents;
    assert OrderedAt(s, i);
    if s.runs[i].admitted {
      InstanceIsAdmitted(s, i);
      assert OrderedAt(s, s.sch.ops[i].create);
      ParentIdsStay(g, s, t, i);
      ParentIdsStay(g, s, t, s.sch.ops[i].create);
    }
  }

  lemma MoveKeepsOwnIds(g: Graph, s: Sys, t: Sys, j: nat)
    requires Linked(g) && Fits(s) && NodeOrdered(s) && Ordered(s) && OpsHaveParents(g, s) && FinishedStay(s, t)
    requires j < |s.runs| && Identified(s) && |t.runs| == |s.runs| && IdStep(s, t, j)
    ensures IdentifiedAt(t, j)
  {
    assert IdentifiedAt(s, j) && OrderedAt(s, j) && OpHasParents(s, j);
    hide ParentIds, OpsHaveParents, OwnCalls, OrderedAt;
    if s.runs[j].admitted {
      InstanceIsAdmitted(s, j);
      var c := s.sch.ops[j].create;
      assert OrderedAt(s, c) && IdentifiedAt(s, c);
      ParentIdsStay(g, s, t, j);
      ParentIdsStay(g, s, t, c);
      if t.runs[j].phase == Calling(s.runs[j].hi) {
        OwnCallIsReal(s, j);
      }
      assert ParentIds(s, j) == Resolve(s, s.sch.ops[j].parentOps);
    }
  }

  // The ids of a finished attempt are settled.
  lemma MoveKeepsRetryIds(s: Sys, t: Sys, j: nat, r: nat)
    requires Fits(s) && Unconfirmed(s) && Inherits(s) && j < |s.runs| && Stays(s, t, j) && Produces(s, t, j)
    requires r < |s.retries| && s.retries[r].done && IdentifiedRetry(s, r)
    ensures IdentifiedRetry(t, r)
  {
    RetriesStay(s, t, j);
    hide Produces, Fits, Unconfirmed;
    assert DoneH(s, s.retries[r].prev);
  }

  // A move that finishes a retry finishes the one its operation is at.
  lemma FinishedRetrySettles(s: Sys, t: Sys, j: nat, r: nat) returns (f: bool)
    requires Fits(s) && j < |s.runs| && Local(s, t, j) && Produces(s, t, j)
    requires r < |s.retries| && !s.retries[r].done && t.retries[r].done
    ensures Settles(s, t, j, f) && r == s.runs[j].phase.r
  {
    hide RetryCalls, FailedH, DoneH, Settles;
    if Retried(s, t, j) {
      f := false;
    } else {
      assert Copies(s, t, j);
      f := s.runs[j].phase.Calling? || FailedH(s, s.retries[s.runs[j].phase.r].prev);
    }
    assert Settles(s, t, j, f);
    SettlesOne(s, t, j, f, r);
  }

  lemma SettlesOne(s: Sys, t: Sys, j: nat, f: bool, r: nat)
    requires j < |s.runs| == |t.runs| && Settles(s, t, j, f)
    requires r < |s.retries| && !s.retries[r].done && t.retries[r].done
    ensures r == s.runs[j].phase.r
  {
  }

  lemma SettledRetryHasIds(s: Sys, t: Sys, j: nat, f: bool, r: nat)
    requires j < |s.runs| && Local(s, t, j) && r < |s.retries| && PlacedAt(s, r)
    requires Settles(s, t, j, f) && r == s.runs[j].phase.r && s.retries[r].owner == j
    ensures IdentifiedRetry(t, r)
  {
  }

  lemma MoveKeepsAllRetryIds(s: Sys, t: Sys, j: nat)
    requires Fits(s) && Chains(s) && Unconfirmed(s) && Inherits(s) && Identified(s)
    requires j < |s.runs| && Stays(s, t, j) && Produces(s, t, j)
    ensures forall r :: 0 <= r < |t.retries| ==> IdentifiedRetry(t, r)
  {
    hide Unconfirmed, Inherits, Produces, PlacedAt, Settles;
    forall r | 0 <= r < |t.retries|
      ensures IdentifiedRetry(t, r)
    {
      assert IdentifiedRetry(s, r) && PlacedAt(s, r);
      if s.retries[r].done {
        MoveKeepsRetryIds(s, t, j, r);
      } else if t.retries[r].done {
        var f := FinishedRetrySettles(s, t, j, r);
        SettledRetryHasIds(s, t, j, f, r);
      }
    }
  }

  // The call a move starts or ends passes the ids of its instance's parents.
  lemma OwnEventIsIdentified(g: Graph, s: Sys, j: nat)
    requires Fits(s) && NodeOrdered(s) && Ordered(s) && OpsHaveParents(g, s) && Identified(s)
    requires j < |s.runs| && (s.runs[j].phase.Running? || s.runs[j].phase.Calling?) && s.runs[j].phase.r == s.runs[j].hi
    requires s.runs[j].phase.Running? ==> OwnCalls(s, j)
    ensures var c := s.sch.ops[j].create;
            c < |s.runs| && s.runs[c].admitted && Resolve(s, s.sch.ops[j].parentOps) == ParentIds(s, c)
            && NonEmpty(ParentIds(s, c))
  {
    assert OrderedAt(s, j) && OpHasParents(s, j) && IdentifiedAt(s, j);
    InstanceIsAdmitted(s, j);
    var c := s.sch.ops[j].create;
    assert IdentifiedAt(s, c) && OpHasParents(s, c);
    hide OrderedAt, OwnCalls, Fits;
    if s.runs[j].phase.Running? {
      OwnCallIsReal(s, j);
    }
  }

  lemma RetryEventIsIdentified(g: Graph, s: Sys, j: nat)
    requires Fits(s) && NodeOrdered(s) && Ordered(s) && Chains(s) && Staged(s) && OpsHaveParents(g, s) && Identified(s)
    requires j < |s.runs| && (s.runs[j].phase.Running? || s.runs[j].phase.Calling?) && s.runs[j].phase.r < s.runs[j].hi
    requires RetryCalls(s, s.runs[j].phase.r)
    ensures var r := s.runs[j].phase.r;
            var c := s.retries[r].create;
            c < |s.runs| && s.runs[c].admitted && IdsH(s, s.retries[r].prev) == ParentIds(s, c)
            && NonEmpty(ParentIds(s, c))
  {
    assert OrderedAt(s, j);
    var r := s.runs[j].phase.r;
    assert s.retries[r].owner == j;
    hide OrderedAt, NodeOrdered, Chains, Staged, Fits;
    RetryPassesIds(g, s, r);
    assert IdentifiedAt(s, s.retries[r].create);
  }

  lemma NewCallIsIdentified(g: Graph, s: Sys, t: Sys, j: nat)
    requires Fits(s) && NodeOrdered(s) && Ordered(s) && Chains(s) && Staged(s) && OpsHaveParents(g, s) && Identified(s)
    requires j < |s.runs| && CallStep(s, t, j) && t.log != s.log
    ensures |t.log| == |s.log| + 1 && t.log[..|s.log|] == s.log && IdentifiedCall(s, t.log[|s.log|])
  {
    assert StagedAt(s, j);
    hide NodeOrdered, Ordered, Chains, Staged, Identified, OpsHaveParents;
    if s.runs[j].phase.r < s.runs[j].hi {
      RetryEventIsIdentified(g, s, j);
    } else {
      OwnEventIsIdentified(g, s, j);
    }
  }

  lemma CallStaysIdentified(g: Graph, s: Sys, t: Sys, e: Event)
    requires Linked(g) && Fits(s) && OpsHaveParents(g, s) && Ordered(s) && FinishedStay(s, t) && IdentifiedCall(s, e)
    requires forall c :: 0 <= c < |s.runs| && s.runs[c].admitted ==> t.runs[c].admitted
    ensures IdentifiedCall(t, e)
  {
    assert OrderedAt(s, e.target);
    ParentIdsStay(g, s, t, e.target);
  }

  lemma MoveKeepsCallIds(g: Graph, s: Sys, t: Sys, j: nat)
    requires Linked(g) && Fits(s) && NodeOrdered(s) && Ordered(s) && Chains(s) && Staged(s) && OpsHaveParents(g, s)
    requires Identified(s)
    requires j < |s.runs| && FinishedStay(s, t) && CallStep(s, t, j)
    requires forall c :: 0 <= c < |s.runs| && s.runs[c].admitted ==> t.runs[c].admitted
    ensures forall a :: 0 <= a < |t.log| ==> IdentifiedCall(t, t.log[a])
  {
    hide RetryCalls, OwnCalls, RetriesStagedAt, CallStagedAt;
    if t.log != s.log {
      NewCallIsIdentified(g, s, t, j);
    }
    hide NodeOrdered, Ordered, Chains, Staged, OpsHaveParents, IdentifiedCall, CallStep, Fits, FinishedStay, Linked;
    forall a | 0 <= a < |t.log|
      ensures IdentifiedCall(t, t.log[a])
    {
      assert IdentifiedCall(s, t.log[a]) by {
        assert a < |s.log| ==> t.log[a] == s.log[a];
      }
      CallStaysIdentified(g, s, t, t.log[a]);
    }
  }

  lemma MoveKeepsIdentified(g: Graph, s: Sys, t: Sys, j: nat)
    requires Linked(g) && Fits(s) && Fits(t) && NodeOrdered(s) && Ordered(s) && Chains(s) && Staged(s) && Inherits(s)
    requires OpsHaveParents(g, s) && Identified(s)
    requires j < |s.runs| && Stays(s, t, j) && Produces(s, t, j) && IdStep(s, t, j) && CallStep(s, t, j)
    ensures Identified(t)
  {
    assert FinishedStay(s, t);
    assert forall c :: 0 <= c < |s.runs| && s.runs[c].admitted ==> t.runs[c].admitted;
    assert forall c :: 0 <= c < |s.runs| ==> s.sch.ops[c].create < |s.sch.ops| && IdentifiedAt(s, c);
    MoveKeepsAllRetryIds(s, t, j);
    MoveKeepsCallIds(g, s, t, j);
    MoveKeepsOwnIds(g, s, t, j);
    hide NodeOrdered, Ordered, Chains, Staged, OpsHaveParents, IdentifiedAt, IdentifiedCall, IdentifiedRetry;
    hide CallStep, FinishedStay;
    forall i | 0 <= i < |t.runs|
      ensures IdentifiedAt(t, i)
    {
      if i != j {
        MoveKeepsOtherIds(g, s, t, j, i);
      }
    }
  }

  lemma AppendKeepsRetryIds(s: Sys, t: Sys, r: nat)
    requires |s.runs| == |s.sch.ops| && Known(s) && Appended(s, t) && r < |t.retries|
    requires r < |s.retries| ==> IdentifiedRetry(s, r)
    ensures IdentifiedRetry(t, r)
  {
  }

  lemma AppendedRunIsIdentified(s: Sys, t: Sys)
    requires Appended(s, t) && NodeOrdered(t)
    ensures IdentifiedAt(t, |s.runs|)
  {
  }

  lemma AppendedStay(s: Sys, t: Sys)
    requires Appended(s, t)
    ensures FinishedStay(s, t) && |t.runs| == |s.runs| + 1 && t.log == s.log
    ensures forall c :: 0 <= c < |s.runs| ==> t.runs[c] == s.runs[c]
  {
  }

  lemma AppendKeepsRunIds(g: Graph, s: Sys, t: Sys)
    requires |t.runs| == |t.sch.ops| && Linked(g) && Fits(s) && NodeOrdered(s) && NodeOrdered(t) && Ordered(s)
    requires OpsHaveParents(g, s) && Identified(s)
    requires FinishedStay(s, t) && |t.runs| == |s.runs| + 1 && IdentifiedAt(t, |s.runs|)
    requires forall c :: 0 <= c < |s.runs| ==> t.runs[c] == s.runs[c]
    ensures forall i :: 0 <= i < |t.runs| ==> IdentifiedAt(t, i)
  {
    hide Linked, Ordered, OpsHaveParents, IdentifiedAt, IdentifiedCall, IdentifiedRetry;
    forall i | 0 <= i < |s.runs|
      ensures IdentifiedAt(t, i)
    {
      MoveKeepsOtherIds(g, s, t, i, i);
    }
  }

  lemma AppendKeepsCallIds(g: Graph, s: Sys, t: Sys)
    requires Linked(g) && Fits(s) && Ordered(s) && OpsHaveParents(g, s) && Identified(s)
    requires FinishedStay(s, t) && t.log == s.log && forall c :: 0 <= c < |s.runs| ==> t.runs[c] == s.runs[c]
    ensures forall a :: 0 <= a < |t.log| ==> IdentifiedCall(t, t.log[a])
  {
    hide Linked, Ordered, OpsHaveParents, IdentifiedAt, IdentifiedCall, IdentifiedRetry, Fits;
    forall a | 0 <= a < |t.log|
      ensures IdentifiedCall(t, t.log[a])
    {
      assert IdentifiedCall(s, s.log[a]);
      CallStaysIdentified(g, s, t, t.log[a]);
    }
  }

  lemma AppendKeepsIdentified(g: Graph, s: Sys, t: Sys)
    requires |t.runs| == |t.sch.ops| && Linked(g) && Fits(s) && NodeOrdered(s) && NodeOrdered(t) && Ordered(s)
    requires Known(s)
    requires OpsHaveParents(g, s) && Identified(s) && Appended(s, t)
    ensures Identified(t)
  {
    AppendedStay(s, t);
    AppendedRunIsIdentified(s, t);
    forall r | 0 <= r < |t.retries|
      ensures IdentifiedRetry(t, r)
    {
      assert r < |s.retries| ==> IdentifiedRetry(s, r);
      AppendKeepsRetryIds(s, t, r);
    }
    hide Linked, OpsHaveParents, IdentifiedRetry, IdentifiedCall, IdentifiedAt, Known, Appended, Ordered;
    hide FinishedStay, Fits;
    AppendKeepsRunIds(g, s, t);
    AppendKeepsCallIds(g, s, t);
  }
}
