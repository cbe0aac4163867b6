/** How a dispatch enters the run record: the run of the new operation, the
    retries of a create, and the retired entry of a delete. */
module Filing {
  import opened Graphs
  import opened Scheduling
  import opened Execution
  import opened Records

  // t is s with the parked run of one more operation. What t records about
  // earlier instances is what s records.
  ghost predicate AddsRun(s: Sys, t: Sys)
  {
    var n := |s.runs|;
    && |s.sch.ops| == n && |t.sch.ops| == n + 1 && |t.runs| == n + 1 && t.retries == s.retries
    && (forall j :: 0 <= j < n ==> t.sch.ops[j] == s.sch.ops[j] && t.runs[j] == s.runs[j])
    && t.runs[n] == Run(Parked, false, false, "", false, t.sch.ops[n].act == Delete, [], |s.retries|, |s.retries|)
    && (forall c :: c in s.att ==> c in t.att && t.att[c] == s.att[c])
    && t.removed == s.removed && t.cycles == s.cycles && t.cancelled == s.cancelled
  }

  lemma ValidIsNodeOrdered(g: Graph, s: Sys)
    requires WellFormed(g) && Valid(g, s.sch) && |s.runs| == |s.sch.ops|
    ensures NodeOrdered(s)
  {
    hide Linked, Wired, RollGoing, Chained, AbsentBehind, DeletedOnce, NoneForgotten, ParentsKept, RollsSerial;
    forall j | 0 <= j < |s.sch.ops|
      ensures s.sch.ops[j].create < |s.sch.ops|
      ensures s.sch.ops[s.sch.ops[j].create].node == s.sch.ops[j].node && s.sch.ops[s.sch.ops[j].create].act == Create
    {
      assert OpValid(g, s.sch.ops, j);
    }
  }

  lemma AddRunKeepsFits(s: Sys, t: Sys)
    requires Fits(s) && Free(s) && AddsRun(s, t)
    ensures Fits(t)
  {
  }

  lemma AddRunKeepsChains(s: Sys, t: Sys)
    requires AddsRun(s, t) && Chains(s) && FirstAttempts(t)
    requires forall c :: c in t.att && c !in s.att ==> ChainAt(t, c)
    ensures Chains(t)
  {
    forall c | c in t.att
      ensures ChainAt(t, c)
    {
      assert c in s.att ==> ChainAt(s, c);
    }
    forall r | 0 <= r < |t.retries|
      ensures PlacedAt(t, r)
    {
      assert PlacedAt(s, r);
    }
  }

  lemma AddRunKeepsRetriesAt(s: Sys, t: Sys, j: nat)
    requires Fits(s) && Fits(t) && AddsRun(s, t) && j < |s.runs| && RetriesStagedAt(s, j)
    ensures RetriesStagedAt(t, j)
  {
  }

  lemma AddRunKeepsCallAt(s: Sys, t: Sys, j: nat)
    requires Fits(s) && Fits(t) && Known(s) && AddsRun(s, t) && j < |s.runs| && CallStagedAt(s, j)
    requires s.sch.ops[j].create < |s.runs|
    ensures CallStagedAt(t, j)
  {
  }

  lemma AddRunKeepsStaged(s: Sys, t: Sys)
    requires Fits(s) && Fits(t) && Known(s) && NodeOrdered(s) && Staged(s) && AddsRun(s, t)
    ensures Staged(t)
  {
    hide Known, RetriesStagedAt, CallStagedAt;
    assert StagedAt(t, |s.runs|) by { NewRunIsStaged(s, t); }
    forall j | 0 <= j < |s.runs|
      ensures StagedAt(t, j)
    {
      assert StagedAt(s, j);
      AddRunKeepsRetriesAt(s, t, j);
      AddRunKeepsCallAt(s, t, j);
    }
  }

  lemma NewRunIsStaged(s: Sys, t: Sys)
    requires Fits(s) && Fits(t) && AddsRun(s, t)
    ensures StagedAt(t, |s.runs|)
  {
  }

  lemma AddRunKeepsOutcomes(s: Sys, t: Sys)
    requires |s.runs| == |s.sch.ops| && Known(s) && Inherits(s) && Removals(s) && AddsRun(s, t)
    ensures Inherits(t) && Removals(t)
  {
    forall c | c in t.removed
      ensures Tried(t, c)
    {
      assert Tried(s, c);
      var k :| 0 <= k < |s.att[c]| && !FailedH(s, s.att[c][k]);
      assert t.att[c][k] == s.att[c][k];
      assert !FailedH(t, t.att[c][k]);
    }
  }

  // A create or a mutate files nothing but its run.
  lemma ParkKeepsListed(s: Sys, t: Sys)
    requires |s.runs| == |s.sch.ops| && Known(s) && Listed(s) && AddsRun(s, t) && t.att == s.att
    requires t.retired == s.retired
    requires forall c :: c in s.att ==> |s.att[c]| > 0 && c < |s.sch.ops|
    ensures Listed(t)
  {
  }

  lemma ParkKeepsRecorded(s: Sys, t: Sys)
    requires Fits(s) && Free(s) && Recorded(s) && AddsRun(s, t) && t.att == s.att && t.retired == s.retired
    requires NodeOrdered(t) && t.sch.ops[|s.runs|].act != Delete
    ensures Fits(t) && Recorded(t)
  {
    hide NodeOrdered, PlacedAt, Staged, Inherits, Removals, Listed, Known;
    assert forall c :: c in s.att ==> ChainAt(s, c);
    AddRunKeepsFits(s, t);
    ChainsAreKnown(s);
    AddRunKeepsChains(s, t);
    AddRunKeepsStaged(s, t);
    AddRunKeepsOutcomes(s, t);
    ParkKeepsListed(s, t);
  }

  // t is s with the run of a Delete of instance c of node i, and c retired. p is
  // the state in which the retired list is pruned.
  ghost predicate Files(s: Sys, p: Sys, t: Sys, i: nat, c: nat)
  {
    && AddsRun(s, t) && i < |s.retired| && p.runs == t.runs && p.retries == t.retries
    && var n := |s.runs|;
    && t.sch.ops[n].act == Delete && t.sch.ops[n].create == c && t.sch.ops[n].node == i
    && c < n && s.sch.ops[c].node == i && s.sch.ops[c].act == Create
    && c !in s.att && t.att == s.att[c := [Own(n)]]
    && t.retired == s.retired[i := Retire(p, s.retired[i], Entry(c, Own(n)))]
  }

  lemma FileKeepsChains(s: Sys, p: Sys, t: Sys, i: nat, c: nat)
    requires Chains(s) && Files(s, p, t, i, c)
    ensures Chains(t)
  {
    AddRunKeepsChains(s, t);
  }

  // The entries of node i after the Delete: the new one, and every earlier one
  // that is not confirmed.
  lemma FiledEntries(s: Sys, p: Sys, t: Sys, i: nat, c: nat)
    requires EntriesCurrent(s) && Files(s, p, t, i, c) && DistinctEntries(s.retired[i])
    ensures DistinctEntries(t.retired[i]) && Entry(c, Own(|s.runs|)) in t.retired[i]
    ensures forall x :: x in t.retired[i] ==> x == Entry(c, Own(|s.runs|)) || x in s.retired[i]
    ensures forall x :: x in s.retired[i] && !Confirmed(t, x.del) ==> x in t.retired[i]
  {
    var es, e := s.retired[i], Entry(c, Own(|s.runs|));
    assert forall m :: 0 <= m < |es| ==> es[m].create != c;
    RetireKeepsUnconfirmed(p, es, e);
    assert forall x: Entry :: Confirmed(p, x.del) == Confirmed(t, x.del);
  }

  lemma FileKeepsCurrent(s: Sys, p: Sys, t: Sys, i: nat, c: nat)
    requires EntriesCurrent(s) && Files(s, p, t, i, c)
    requires forall x :: x in t.retired[i] ==> x == Entry(c, Own(|s.runs|)) || x in s.retired[i]
    ensures EntriesCurrent(t)
  {
    forall n, m | 0 <= n < |t.retired| && 0 <= m < |t.retired[n]|
      ensures t.retired[n][m] in s.retired[n] || (n == i && t.retired[n][m] == Entry(c, Own(|s.runs|)))
    {
      assert t.retired[n][m] in t.retired[n];
    }
  }

  lemma FileDropsNone(s: Sys, p: Sys, t: Sys, i: nat, c: nat)
    requires EntriesCurrent(s) && NoneDropped(s) && Known(s) && Files(s, p, t, i, c)
    requires forall x :: x in s.retired[i] && !Confirmed(t, x.del) ==> x in t.retired[i]
    requires Entry(c, Own(|s.runs|)) in t.retired[i]
    requires forall c :: c in s.att ==> c < |s.sch.ops| && |s.att[c]| > 0
    ensures NoneDropped(t)
  {
    forall x | x in t.att && x < |t.sch.ops| && t.sch.ops[x].node < |t.retired| && |t.att[x]| > 0
      ensures Confirmed(t, t.att[x][|t.att[x]| - 1]) || Holds(t.retired[t.sch.ops[x].node], x)
    {
      var n := t.sch.ops[x].node;
      if x == c {
        var m :| 0 <= m < |t.retired[i]| && t.retired[i][m] == Entry(c, Own(|s.runs|));
      } else if n == i && Holds(s.retired[n], x) {
        var k :| 0 <= k < |s.retired[n]| && s.retired[n][k].create == x;
        var y := s.retired[n][k];
        if y in t.retired[n] {
          var m :| 0 <= m < |t.retired[n]| && t.retired[n][m] == y;
        }
      } else {
        assert Confirmed(s, s.att[x][|s.att[x]| - 1]) ==> Confirmed(t, t.att[x][|t.att[x]| - 1]);
      }
    }
  }

  lemma FileKeepsListed(s: Sys, p: Sys, t: Sys, i: nat, c: nat)
    requires Listed(s) && Known(s) && Files(s, p, t, i, c)
    requires forall c :: c in s.att ==> c < |s.sch.ops| && |s.att[c]| > 0
    ensures Listed(t)
  {
    hide Known, EntriesCurrent, NoneDropped, AddsRun;
    FiledEntries(s, p, t, i, c);
    FileKeepsCurrent(s, p, t, i, c);
    FileDropsNone(s, p, t, i, c);
  }

  lemma FileKeepsRecorded(s: Sys, p: Sys, t: Sys, i: nat, c: nat)
    requires Fits(s) && Free(s) && Recorded(s) && Files(s, p, t, i, c) && NodeOrdered(t)
    ensures Fits(t) && Recorded(t)
  {
    hide NodeOrdered, PlacedAt, Staged, Inherits, Removals, Listed, Known;
    assert forall c :: c in s.att ==> ChainAt(s, c);
    AddRunKeepsFits(s, t);
    ChainsAreKnown(s);
    FileKeepsChains(s, p, t, i, c);
    AddRunKeepsStaged(s, t);
    AddRunKeepsOutcomes(s, t);
    FileKeepsListed(s, p, t, i, c);
  }

  lemma ParkAddsRun(g: Graph, s: Sys, i: nat, act: Action)
    requires WellFormed(g) && Shape(g, s) && Legal(g, s.sch, i, act)
    ensures AddsRun(s, Park(s, Dispatch(g, s.sch, i, act), act))
  {
    hide Linked, RollGoing, InRange, OpsValid, Chained, AbsentBehind, ConflictsOrdered, DeletedOnce, NoneForgotten;
    hide ParentsKept, RollsSerial, Wired, Legal;
    DispatchExtends(g, s.sch, i, act);
  }

  // Nothing of the instance that is about to be deleted has been tried.
  lemma CurrentIsUntried(g: Graph, s: Sys, c: nat)
    requires Linked(g) && InRange(g, s.sch) && DeletedOnce(g, s.sch) && c < |s.sch.ops| && Current(s.sch, c)
    requires c in s.att ==> ChainAt(s, c)
    ensures c !in s.att
  {
  }

  lemma FileFiles(s: Sys, sch: Sched, i: nat, past: set<nat>)
    requires |s.sch.ops| == |s.runs| && i < |s.retired| && Extends(s.sch, sch, i, Delete, past)
    requires AddsRun(s, Park(s, sch, Delete))
    requires var c := sch.ops[|s.runs|].create; c !in s.att && s.sch.ops[c].act == Create
    ensures Files(s, Park(s, sch, Delete), File(Park(s, sch, Delete), i, Delete), i, sch.ops[|s.runs|].create)
  {
  }

  lemma DispatchFiles(g: Graph, s: Sys, i: nat)
    requires WellFormed(g) && Shape(g, s) && Chains(s) && Legal(g, s.sch, i, Delete)
    ensures var sch := Dispatch(g, s.sch, i, Delete);
            |sch.ops| > |s.runs|
            && Files(s, Park(s, sch, Delete), Dispatched(g, s, i, Delete), i, sch.ops[|s.runs|].create)
  {
    hide Linked, RollGoing, OpsValid, Chained, AbsentBehind, ConflictsOrdered, NoneForgotten, DeletedOnce, InRange;
    hide ParentsKept, RollsSerial, ChainAt, PlacedAt, FirstAttempts, Dispatch, Park, Files, File, AddsRun;
    var sch := Dispatch(g, s.sch, i, Delete);
    ParkAddsRun(g, s, i, Delete);
    DispatchExtends(g, s.sch, i, Delete);
    var c := sch.ops[|s.runs|].create;
    CurrentIsUntried(g, s, c);
    FileFiles(s, sch, i, Past(s.sch.ops, Deps(g, s.sch, i, Delete)));
  }

  // A create about to requeue its node's entries.
  lemma ParkRequeues(s: Sys, t: Sys, i: nat)
    requires Fits(s) && Known(s) && Listed(s) && AddsRun(s, t) && t.att == s.att && t.retired == s.retired
    requires i < |s.retired| && t.sch.ops[|s.runs|].act == Create && t.sch.ops[|s.runs|].node == i
    ensures Requeueing(t, i, 0)
  {
  }

  lemma DispatchKeepsRecorded(g: Graph, s: Sys, i: nat, act: Action)
    requires WellFormed(g) && Shape(g, s) && Free(s) && Recorded(s) && Legal(g, s.sch, i, act)
    ensures Fits(Dispatched(g, s, i, act)) && Recorded(Dispatched(g, s, i, act))
  {
    hide Linked, Wired, RollGoing, Chained, AbsentBehind, DeletedOnce, NoneForgotten, ParentsKept, RollsSerial;
    hide InRange, OpsValid, ConflictsOrdered, Known, NodeOrdered, Staged, Inherits, Removals, Listed, Chains, Fits;
    var sch := Dispatch(g, s.sch, i, act);
    var p := Park(s, sch, act);
    DispatchExtends(g, s.sch, i, act);
    DispatchKeepsValid(g, s.sch, i, act);
    ParkAddsRun(g, s, i, act);
    ValidIsNodeOrdered(g, p);
    if act == Delete {
      DispatchFiles(g, s, i);
      var t := Dispatched(g, s, i, act);
      ValidIsNodeOrdered(g, t);
      FileKeepsRecorded(s, p, t, i, sch.ops[|s.sch.ops|].create);
    } else {
      ParkKeepsRecorded(s, p);
      if act == Create {
        ChainsAreKnown(s);
        ParkRequeues(s, p, i);
        RequeueKeepsRecorded(p, i, 0);
      }
    }
  }
}
