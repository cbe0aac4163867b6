/** The run record: which instances may still be in the cloud. Every delete and
    every retry of a failed delete is followed until it confirms the removal. */
module Records {
  import opened Finite
  import opened Graphs
  import opened Scheduling
  import opened Execution
  import opened Ordering

  // Operations of one node are behind one another, and each works on an
  // instance of its node.
  ghost predicate NodeOrdered(s: Sys)
    requires |s.runs| == |s.sch.ops|
  {
    && (forall i, j :: 0 <= i < j < |s.sch.ops| && s.sch.ops[i].node == s.sch.ops[j].node ==> i in s.sch.ops[j].past)
    && (forall j :: 0 <= j < |s.sch.ops| ==>
          var o := s.sch.ops[j];
          o.create <= j && (o.act == Create <==> o.create == j)
          && s.sch.ops[o.create].node == o.node && s.sch.ops[o.create].act == Create)
  }

  // The attempts on an instance form a chain: its Delete, then retries that
  // each follow the attempt before.
  ghost predicate ChainAt(s: Sys, c: nat)
    requires c in s.att
  {
    var tries := s.att[c];
    && c < |s.sch.ops| && s.sch.ops[c].act == Create
    && |tries| > 0 && tries[0].Own? && tries[0].op < |s.sch.ops|
    && s.sch.ops[tries[0].op].act == Delete && s.sch.ops[tries[0].op].create == c
    && forall k :: 0 < k < |tries| ==>
         && tries[k].Again? && tries[k].retry < |s.retries|
         && s.retries[tries[k].retry].create == c && s.retries[tries[k].retry].prev == tries[k - 1]
  }

  // A retry has its place in the chain and follows an attempt of an operation
  // before its owner, on the same node.
  ghost predicate PlacedAt(s: Sys, r: nat)
    requires r < |s.retries|
  {
    var rt := s.retries[r];
    && rt.create in s.att && 0 < rt.nth < |s.att[rt.create]| && s.att[rt.create][rt.nth] == Again(r)
    && rt.prev == s.att[rt.create][rt.nth - 1]
    && rt.owner < |s.sch.ops| && rt.create < rt.owner && s.sch.ops[rt.owner].node == s.sch.ops[rt.create].node
    && match rt.prev
       case Own(d) => d < rt.owner && s.sch.ops[d].node == s.sch.ops[rt.create].node
       case Again(q) => q < r && s.retries[q].owner < rt.owner && s.retries[q].create == rt.create
  }

  ghost predicate Chains(s: Sys)
  {
    && (forall c :: c in s.att ==> ChainAt(s, c))
    && (forall r :: 0 <= r < |s.retries| ==> PlacedAt(s, r))
    && FirstAttempts(s)
  }

  // Every Delete is the first attempt on its instance.
  ghost predicate FirstAttempts(s: Sys)
  {
    forall d :: 0 <= d < |s.sch.ops| && s.sch.ops[d].act == Delete ==>
      var c := s.sch.ops[d].create;
      c in s.att && |s.att[c]| > 0 && s.att[c][0] == Own(d)
  }

  predicate BeforeAdmission(p: Phase) { p.Parked? || p.Waiting? || p.Gated? || p.Won? }

  predicate BeforeReturn(p: Phase) { BeforeAdmission(p) || p.Running? || p.Calling? }

  // Which retries of operation j have finished.
  ghost predicate RetriesStagedAt(s: Sys, j: nat)
    requires Fits(s) && j < |s.runs|
  {
    var run := s.runs[j];
    forall r :: run.lo <= r < run.hi ==>
      && (BeforeAdmission(run.phase) ==> !s.retries[r].done)
      && (run.phase.Running? || run.phase.Calling? ==> (s.retries[r].done <==> r < run.phase.r))
      && (run.phase.Settling? && r < run.phase.r ==> s.retries[r].done)
      && (run.phase.Closing? || run.phase.Finished? ==> s.retries[r].done)
  }

  // What a cloud call in flight is about.
  ghost predicate CallStagedAt(s: Sys, j: nat)
    requires Fits(s) && j < |s.runs|
  {
    var run := s.runs[j];
    && (run.phase.Calling? && run.phase.r < run.hi ==> RetryCalls(s, run.phase.r))
    && (run.phase.Calling? && run.phase.r == run.hi && s.sch.ops[j].act == Delete ==>
          IdOf(s, s.sch.ops[j].create) != "")
  }

  // What the phase of operation j says about the outcomes it is to produce.
  ghost predicate StagedAt(s: Sys, j: nat)
    requires Fits(s) && j < |s.runs|
  {
    var run := s.runs[j];
    && RetriesStagedAt(s, j) && CallStagedAt(s, j)
    && (BeforeReturn(run.phase) ==> run.id == "" && (s.sch.ops[j].act == Delete ==> run.deleteFailed))
  }

  ghost predicate Staged(s: Sys)
    requires Fits(s)
  {
    (forall j :: 0 <= j < |s.runs| ==> StagedAt(s, j)) && Unconfirmed(s)
  }

  // A retry counts as failed until it has run.
  ghost predicate Unconfirmed(s: Sys)
  {
    forall r :: 0 <= r < |s.retries| && !s.retries[r].done ==> s.retries[r].failed
  }

  // A finished retry's predecessor has finished, and a confirmed attempt
  // confirms every finished one after it.
  ghost predicate Inherits(s: Sys)
  {
    forall r :: 0 <= r < |s.retries| && s.retries[r].done ==>
      DoneH(s, s.retries[r].prev) && (!FailedH(s, s.retries[r].prev) ==> !s.retries[r].failed)
  }

  // The instance's create has finished without a cloud id.
  predicate Empty(s: Sys, c: nat) { c < |s.runs| && s.runs[c].phase.Finished? && s.runs[c].id == "" }

  predicate Gone(s: Sys, c: nat) { c in s.removed || Empty(s, c) }

  predicate Tried(s: Sys, c: nat)
  {
    Published(s, c) && c in s.att && exists k :: 0 <= k < |s.att[c]| && !FailedH(s, s.att[c][k])
  }

  // A Delete returned nil for each instance in removed, once; and an attempt is
  // marked successful only if one did or there was nothing to delete.
  ghost predicate Removals(s: Sys)
    requires |s.runs| == |s.sch.ops|
  {
    && (forall c :: c in s.removed ==> Tried(s, c))
    && (forall d :: 0 <= d < |s.runs| && s.sch.ops[d].act == Delete && !s.runs[d].deleteFailed ==>
          Gone(s, s.sch.ops[d].create))
    && (forall r :: 0 <= r < |s.retries| && !s.retries[r].failed ==> Gone(s, s.retries[r].create))
    && NoRepeats(s.removed) && s.cycles == |s.removed|
  }

  // Every entry of a node's retired list is an instance of the node with the
  // last attempt on it.
  ghost predicate EntriesCurrent(s: Sys)
  {
    forall n, m :: 0 <= n < |s.retired| && 0 <= m < |s.retired[n]| ==>
      var e := s.retired[n][m];
      && e.create in s.att && e.create < |s.sch.ops| && s.sch.ops[e.create].node == n
      && |s.att[e.create]| > 0 && e.del == s.att[e.create][|s.att[e.create]| - 1]
  }

  predicate DistinctEntries(es: seq<Entry>)
  {
    forall m, k :: 0 <= m < k < |es| ==> es[m].create != es[k].create
  }

  // A deleted instance is in its node's retired list until an attempt on it is
  // confirmed.
  ghost predicate NoneDropped(s: Sys)
  {
    forall c :: c in s.att && c < |s.sch.ops| && s.sch.ops[c].node < |s.retired| && |s.att[c]| > 0 ==>
      Confirmed(s, s.att[c][|s.att[c]| - 1]) || Holds(s.retired[s.sch.ops[c].node], c)
  }

  ghost predicate Listed(s: Sys)
  {
    && EntriesCurrent(s) && NoneDropped(s)
    && (forall n :: 0 <= n < |s.retired| ==> DistinctEntries(s.retired[n]))
  }

  predicate Holds(entries: seq<Entry>, c: nat) { exists m :: 0 <= m < |entries| && entries[m].create == c }

  // An attempt that follows a finished, confirmed one and has finished is confirmed.
  lemma {:induction false} ConfirmationSpreads(s: Sys, c: nat, i: nat, k: nat)
    requires |s.runs| == |s.sch.ops| && Chains(s) && Inherits(s)
    requires c in s.att && i <= k < |s.att[c]| && DoneH(s, s.att[c][k])
    ensures DoneH(s, s.att[c][i]) && (!FailedH(s, s.att[c][i]) ==> !FailedH(s, s.att[c][k]))
    decreases k
  {
    assert ChainAt(s, c);
    if i < k {
      ConfirmationSpreads(s, c, i, k - 1);
    }
  }

  // While the attempts on an instance have all failed so far, no Delete has
  // returned nil for it.
  lemma StillThere(s: Sys, c: nat, k: nat)
    requires |s.runs| == |s.sch.ops| && Chains(s) && Unconfirmed(s) && Inherits(s) && Removals(s)
    requires c in s.att && k < |s.att[c]|
    requires DoneH(s, s.att[c][k]) && FailedH(s, s.att[c][k])
    requires k + 1 < |s.att[c]| ==> !DoneH(s, s.att[c][k + 1])
    ensures c !in s.removed
  {
    assert ChainAt(s, c);
    if c in s.removed {
      var i :| 0 <= i < |s.att[c]| && !FailedH(s, s.att[c][i]);
      if i <= k {
        ConfirmationSpreads(s, c, i, k);
      } else {
        assert s.att[c][i].Again? && DoneH(s, s.att[c][i]);
        ConfirmationSpreads(s, c, k + 1, i);
      }
    }
  }

  // Before the first attempt has an outcome, none has.
  lemma NotYetDeleted(s: Sys, d: nat)
    requires |s.runs| == |s.sch.ops| && Chains(s) && Unconfirmed(s) && Inherits(s) && Removals(s)
    requires d < |s.runs| && s.sch.ops[d].act == Delete && BeforeReturn(s.runs[d].phase) && s.runs[d].deleteFailed
    ensures s.sch.ops[d].create !in s.removed
  {
    var c := s.sch.ops[d].create;
    assert ChainAt(s, c);
    if c in s.removed {
      var i :| 0 <= i < |s.att[c]| && !FailedH(s, s.att[c][i]);
      if i > 0 {
        assert s.att[c][i].Again? && DoneH(s, s.att[c][i]);
        ConfirmationSpreads(s, c, 0, i);
      }
    }
  }

  // Once a retry's owner is admitted, the attempt it follows and the create of
  // its instance have finished.
  lemma AdmittedIsReady(s: Sys, r: nat)
    requires Fits(s) && NodeOrdered(s) && Ordered(s) && Chains(s) && Staged(s)
    requires r < |s.retries| && s.runs[s.retries[r].owner].admitted
    ensures DoneH(s, s.retries[r].prev)
    ensures s.retries[r].create < |s.runs| && s.runs[s.retries[r].create].phase.Finished?
  {
    var rt := s.retries[r];
    assert PlacedAt(s, r) && OrderedAt(s, rt.owner);
    if rt.prev.Again? {
      var q := rt.prev.retry;
      assert PlacedAt(s, q);
      assert Behind(s, s.retries[q].owner) && StagedAt(s, s.retries[q].owner);
    } else {
      assert Behind(s, rt.prev.op);
    }
    assert Behind(s, rt.create);
  }

  lemma AdmittedHasInstance(s: Sys, j: nat)
    requires Fits(s) && NodeOrdered(s) && Ordered(s) && j < |s.runs| && s.runs[j].admitted && s.sch.ops[j].act != Create
    ensures Behind(s, s.sch.ops[j].create)
  {
    assert OrderedAt(s, j);
  }

  // The outcomes one move can produce. Plain: none.
  ghost predicate Plain(s: Sys, t: Sys, j: nat)
    requires j < |s.runs| == |t.runs|
  {
    var run, run' := s.runs[j], t.runs[j];
    && t.retries == s.retries && t.removed == s.removed && t.cycles == s.cycles
    && run'.deleteFailed == run.deleteFailed && run'.id == run.id
    && (run'.phase.Running? ==> run.phase.Won?)
    && (run'.phase.Settling? && run.phase.Settling? ==> run.phase.r < |s.retries| && s.retries[run.phase.r].done)
  }

  // A retry finishes with outcome f, and no Delete has returned nil.
  ghost predicate Settles(s: Sys, t: Sys, j: nat, f: bool)
    requires j < |s.runs| == |t.runs|
  {
    var run := s.runs[j];
    && (run.phase.Running? || run.phase.Calling? || run.phase.Settling?) && run.phase.r < run.hi
    && var r := run.phase.r;
    && r < |s.retries| && !s.retries[r].done
    && t.runs[j] == run.(phase := if run.phase.Settling? then Settling(r + 1) else Running(r + 1))
    && t.retries == s.retries[r := s.retries[r].(done := true, failed := f, ids := IdsH(s, s.retries[r].prev))]
  }

  ghost predicate Copies(s: Sys, t: Sys, j: nat)
    requires j < |s.runs| == |t.runs|
  {
    var run := s.runs[j];
    && (run.phase.Running? || run.phase.Calling? || run.phase.Settling?) && run.phase.r < |s.retries|
    && t.removed == s.removed && t.cycles == s.cycles
    && var prev := s.retries[run.phase.r].prev;
    || (run.phase.Running? && !RetryCalls(s, run.phase.r) && Settles(s, t, j, FailedH(s, prev)))
    || (run.phase.Settling? && DoneH(s, prev) && Settles(s, t, j, FailedH(s, prev)))
    || (run.phase.Calling? && Settles(s, t, j, true))
  }

  ghost predicate Retried(s: Sys, t: Sys, j: nat)
    requires j < |s.runs| == |t.runs|
  {
    && s.runs[j].phase.Calling? && s.runs[j].phase.r < |s.retries| && Settles(s, t, j, false)
    && t.removed == s.removed + [s.retries[s.runs[j].phase.r].create] && t.cycles == s.cycles + 1
  }

  // The operation's own work ends: a delete that returned nil, a delete with
  // nothing to delete, or a create.
  ghost predicate Ends(s: Sys, t: Sys, j: nat)
    requires |s.sch.ops| == |s.runs| == |t.runs| && j < |s.runs|
  {
    var run, run' := s.runs[j], t.runs[j];
    var o := s.sch.ops[j];
    && t.retries == s.retries && run'.phase.Leaving?
    && (|| (o.act == Delete && run.phase == Calling(run.hi) && !run'.deleteFailed && run'.id == run.id
            && t.removed == s.removed + [o.create] && t.cycles == s.cycles + 1)
        || (o.act == Delete && run.phase == Running(run.hi) && !run'.deleteFailed && run'.id == run.id
            && IdOf(s, o.create) == "" && t.removed == s.removed && t.cycles == s.cycles)
        || (o.act == Create && run.phase == Calling(run.hi)
            && run'.deleteFailed == run.deleteFailed && t.removed == s.removed && t.cycles == s.cycles))
  }

  ghost predicate Produces(s: Sys, t: Sys, j: nat)
    requires |s.sch.ops| == |s.runs| == |t.runs| && j < |s.runs|
  {
    Plain(s, t, j) || Copies(s, t, j) || Retried(s, t, j) || Ends(s, t, j)
  }

  lemma BeginProduces(g: Graph, limit: nat, s: Sys, j: nat)
    requires Fits(s) && j < |s.runs| && s.runs[j].phase.Running? && StagedAt(s, j)
    ensures Produces(s, Moved(g, limit, s, j, Begin), j)
  {
    hide Gate, Resolve;
  }

  lemma ReturnProduces(g: Graph, limit: nat, s: Sys, j: nat, out: Outcome)
    requires Fits(s) && j < |s.runs| && s.runs[j].phase.Calling? && StagedAt(s, j)
    ensures Produces(s, Moved(g, limit, s, j, Return(out)), j)
  {
    hide Gate, Resolve;
    if s.runs[j].phase.r < s.runs[j].hi {
      RetryReturnProduces(g, limit, s, j, out);
    } else {
      hide EndRetry;
    }
  }

  lemma RetryReturnProduces(g: Graph, limit: nat, s: Sys, j: nat, out: Outcome)
    requires Fits(s) && j < |s.runs| && s.runs[j].phase.Calling? && StagedAt(s, j)
    requires s.runs[j].phase.r < s.runs[j].hi
    ensures Produces(s, Moved(g, limit, s, j, Return(out)), j)
  {
    hide Gate, Resolve, RetryCalls, OwnCalls, DoneH, FailedH;
  }

  lemma MoveProduces(g: Graph, limit: nat, s: Sys, j: nat, m: Move)
    requires Fits(s) && j < |s.runs| && MayMove(g, limit, s, j, m) && StagedAt(s, j)
    ensures Produces(s, Moved(g, limit, s, j, m), j)
  {
    match m
    case Begin => BeginProduces(g, limit, s, j);
    case Return(out) => ReturnProduces(g, limit, s, j, out);
    case _ =>
  }

  // Outcomes never change once they are there, and those of other operations'
  // retries not at all.
  ghost predicate Stays(s: Sys, t: Sys, j: nat)
  {
    && Local(s, t, j)
    && (forall h: Handle :: DoneH(s, h) ==> DoneH(t, h) && (FailedH(t, h) <==> FailedH(s, h)))
    && (forall h: Handle :: !FailedH(s, h) ==> !FailedH(t, h))
    && (forall c :: 0 <= c < |s.runs| && s.runs[c].phase.Finished? ==> t.runs[c] == s.runs[c])
    && (forall r :: 0 <= r < |s.retries| ==>
          t.retries[r] == s.retries[r] || (t.retries[r].done && s.retries[r].owner == j))
  }

  lemma OutcomesStay(g: Graph, s: Sys, t: Sys, j: nat)
    requires Fits(s) && Staged(s) && j < |s.runs| && Local(s, t, j) && PhaseStep(g, s, j, t.runs[j])
    requires Produces(s, t, j)
    ensures Stays(s, t, j)
  {
    RetriesStay(s, t, j);
    assert StagedAt(s, j);
    RunStays(s, t, j);
  }

  lemma RetriesStay(s: Sys, t: Sys, j: nat)
    requires Fits(s) && Unconfirmed(s) && j < |s.runs| && Local(s, t, j) && Produces(s, t, j)
    ensures forall r :: 0 <= r < |s.retries|
                        && (s.retries[r].done || s.retries[r].owner != j || !s.retries[r].failed) ==>
              t.retries[r] == s.retries[r]
    ensures forall r :: 0 <= r < |s.retries| ==> t.retries[r] == s.retries[r] || t.retries[r].done
  {
  }

  lemma RunStays(s: Sys, t: Sys, j: nat)
    requires |s.sch.ops| == |s.runs| && j < |s.runs| && Local(s, t, j) && !s.runs[j].phase.Finished?
    requires !s.runs[j].deleteFailed ==> !t.runs[j].deleteFailed
    requires forall r :: 0 <= r < |s.retries|
                         && (s.retries[r].done || s.retries[r].owner != j || !s.retries[r].failed) ==>
               t.retries[r] == s.retries[r]
    requires forall r :: 0 <= r < |s.retries| ==> t.retries[r] == s.retries[r] || t.retries[r].done
    ensures Stays(s, t, j)
  {
  }

  lemma MoveKeepsNodeOrdered(s: Sys, t: Sys, j: nat)
    requires |s.runs| == |s.sch.ops| && Local(s, t, j) && NodeOrdered(s)
    ensures NodeOrdered(t)
  {
  }

  lemma MoveKeepsChains(s: Sys, t: Sys, j: nat)
    requires |s.runs| == |s.sch.ops| && Local(s, t, j) && Chains(s)
    ensures Chains(t)
  {
    forall c | c in t.att
      ensures ChainAt(t, c)
    {
      assert ChainAt(s, c);
    }
    forall r | 0 <= r < |t.retries|
      ensures PlacedAt(t, r)
    {
      assert PlacedAt(s, r);
    }
  }

  lemma MoveKeepsListed(s: Sys, t: Sys, j: nat)
    requires |s.runs| == |s.sch.ops| && Stays(s, t, j) && Listed(s)
    ensures Listed(t)
  {
  }

  lemma MoveKeepsStaged(s: Sys, t: Sys, j: nat)
    requires Fits(s) && Fits(t) && NodeOrdered(s) && Ordered(s) && Chains(s) && Staged(s)
    requires j < |s.runs| && Stays(s, t, j) && StagedAt(t, j)
    ensures Staged(t)
  {
    forall i | 0 <= i < |t.runs| && i != j
      ensures StagedAt(t, i)
    {
      CallsAreReady(s, i);
      OtherStaysStaged(s, t, j, i);
    }
  }

  // What the calls of operation i rely on has finished.
  ghost predicate ReadyAt(s: Sys, i: nat)
    requires Fits(s) && i < |s.runs|
  {
    var run := s.runs[i];
    run.phase.Calling? ==>
      && (run.phase.r < run.hi ==>
            var rt := s.retries[run.phase.r];
            DoneH(s, rt.prev) && rt.create < |s.runs| && s.runs[rt.create].phase.Finished?)
      && (run.phase.r == run.hi && s.sch.ops[i].act == Delete ==> Behind(s, s.sch.ops[i].create))
  }

  lemma CallsAreReady(s: Sys, i: nat)
    requires Fits(s) && NodeOrdered(s) && Ordered(s) && Chains(s) && Staged(s) && i < |s.runs|
    ensures ReadyAt(s, i)
  {
    assert OrderedAt(s, i);
    var run := s.runs[i];
    if run.phase.Calling? && run.phase.r < run.hi {
      AdmittedIsReady(s, run.phase.r);
    } else if run.phase.Calling? && s.sch.ops[i].act == Delete {
      AdmittedHasInstance(s, i);
    }
  }

  lemma OtherStaysStaged(s: Sys, t: Sys, j: nat, i: nat)
    requires Fits(s) && Fits(t) && i < |s.runs| && i != j && StagedAt(s, i) && ReadyAt(s, i) && Stays(s, t, j)
    ensures StagedAt(t, i)
  {
  }

  // An attempt that becomes finished follows a finished one and inherits its success.
  lemma MovedRetryInherits(s: Sys, t: Sys, j: nat, r: nat)
    requires Fits(s) && Unconfirmed(s) && j < |s.runs| && StagedAt(s, j) && Stays(s, t, j) && Produces(s, t, j)
    requires r < |s.retries| && !s.retries[r].done && t.retries[r].done
    requires s.runs[j].admitted ==> DoneH(s, s.retries[r].prev)
    requires s.runs[j].phase.Running? || s.runs[j].phase.Calling? ==> s.runs[j].admitted
    ensures DoneH(t, t.retries[r].prev) && (!FailedH(t, t.retries[r].prev) ==> !t.retries[r].failed)
  {
  }

  lemma MoveKeepsInherits(s: Sys, t: Sys, j: nat)
    requires Fits(s) && NodeOrdered(s) && Ordered(s) && Chains(s) && Staged(s) && Inherits(s)
    requires j < |s.runs| && Stays(s, t, j) && Produces(s, t, j)
    ensures Inherits(t)
  {
    assert StagedAt(s, j) && OrderedAt(s, j);
    RetriesStay(s, t, j);
    hide NodeOrdered, Ordered, OrderedAt, Chains, StagedAt, Produces;
    forall r | 0 <= r < |t.retries| && t.retries[r].done
      ensures DoneH(t, t.retries[r].prev) && (!FailedH(t, t.retries[r].prev) ==> !t.retries[r].failed)
    {
      if !s.retries[r].done {
        if s.runs[j].admitted {
          AdmittedIsReady(s, r);
        }
        MovedRetryInherits(s, t, j, r);
      }
    }
  }

  // No outcome is lost between s and t.
  ghost predicate Grows(s: Sys, t: Sys)
  {
    && t.att == s.att && t.sch == s.sch && |t.runs| == |s.runs| && SameRetries(s.retries, t.retries)
    && (forall h: Handle :: !FailedH(s, h) ==> !FailedH(t, h))
    && (forall c :: 0 <= c < |s.runs| && s.runs[c].phase.Finished? ==> t.runs[c] == s.runs[c])
  }

  lemma GrowthKeepsTried(s: Sys, t: Sys, c: nat)
    requires Grows(s, t) && Tried(s, c)
    ensures Tried(t, c)
  {
    var k :| 0 <= k < |s.att[c]| && !FailedH(s, s.att[c][k]);
    assert !FailedH(t, t.att[c][k]);
  }

  // Removals survives when each newly successful attempt is justified.
  lemma GrowthKeepsRemovals(s: Sys, t: Sys)
    requires |s.runs| == |s.sch.ops| && Grows(s, t) && Removals(s)
    requires (t.removed == s.removed && t.cycles == s.cycles)
             || exists c :: t.removed == s.removed + [c] && t.cycles == s.cycles + 1 && c !in s.removed && Tried(t, c)
    requires forall d :: 0 <= d < |t.runs| && t.sch.ops[d].act == Delete && s.runs[d].deleteFailed
                         && !t.runs[d].deleteFailed ==>
               Gone(t, t.sch.ops[d].create)
    requires forall r :: 0 <= r < |t.retries| && s.retries[r].failed && !t.retries[r].failed ==>
               Gone(t, t.retries[r].create)
    ensures Removals(t)
  {
    assert forall c :: Gone(s, c) ==> Gone(t, c);
    forall c | c in t.removed
      ensures Tried(t, c)
    {
      if c in s.removed {
        GrowthKeepsTried(s, t, c);
      }
    }
  }

  lemma CopyIsJustified(s: Sys, t: Sys, j: nat)
    requires Fits(s) && j < |s.runs| && Local(s, t, j) && Chains(s) && Staged(s) && Removals(s) && Copies(s, t, j)
    requires Grows(s, t)
    ensures Removals(t)
  {
    var r := s.runs[j].phase.r;
    var rt := s.retries[r];
    assert PlacedAt(s, r) && ChainAt(s, rt.create);
    assert !FailedH(s, rt.prev) ==> Gone(s, rt.create);
    assert Gone(s, rt.create) ==> Gone(t, rt.create);
    GrowthKeepsRemovals(s, t);
  }

  lemma RetryIsJustified(s: Sys, t: Sys, j: nat)
    requires |s.runs| == |s.sch.ops| && j < |s.runs| == |t.runs| && Local(s, t, j)
    requires Removals(s) && Retried(s, t, j) && Grows(s, t)
    requires var r := s.runs[j].phase.r; var c := s.retries[r].create;
             Published(s, c) && c !in s.removed && PlacedAt(s, r)
    ensures Removals(t)
  {
    var r := s.runs[j].phase.r;
    var c := s.retries[r].create;
    assert !FailedH(t, t.att[c][s.retries[r].nth]);
    assert Tried(t, c);
    GrowthKeepsRemovals(s, t);
  }

  // The instance a retry's call is about is published and not removed yet.
  lemma RetryTargets(s: Sys, j: nat)
    requires Fits(s) && NodeOrdered(s) && Ordered(s) && j < |s.runs|
    requires Chains(s) && Staged(s) && Inherits(s) && Removals(s)
    requires s.runs[j].phase.Calling? && s.runs[j].phase.r < s.runs[j].hi
    ensures var r := s.runs[j].phase.r; var c := s.retries[r].create;
            Published(s, c) && c !in s.removed && PlacedAt(s, r)
  {
    var r := s.runs[j].phase.r;
    var rt := s.retries[r];
    assert PlacedAt(s, r) && ChainAt(s, rt.create) && StagedAt(s, j) && OrderedAt(s, j);
    AdmittedIsReady(s, r);
    StillThere(s, rt.create, rt.nth - 1);
  }

  // The instance a delete's own work is about has finished its create, and is
  // not removed yet.
  lemma DeleteTargets(s: Sys, j: nat)
    requires Fits(s) && NodeOrdered(s) && Ordered(s) && j < |s.runs|
    requires Chains(s) && Staged(s) && Inherits(s) && Removals(s)
    requires s.sch.ops[j].act == Delete && (s.runs[j].phase.Running? || s.runs[j].phase.Calling?)
    ensures var c := s.sch.ops[j].create;
            && Behind(s, c) && c !in s.removed && c in s.att && |s.att[c]| > 0 && s.att[c][0] == Own(j)
            && (s.runs[j].phase == Calling(s.runs[j].hi) ==> Published(s, c))
  {
    assert StagedAt(s, j) && OrderedAt(s, j) && ChainAt(s, s.sch.ops[j].create);
    AdmittedHasInstance(s, j);
    NotYetDeleted(s, j);
  }

  lemma EndIsJustified(s: Sys, t: Sys, j: nat)
    requires |s.runs| == |s.sch.ops| && j < |s.runs| == |t.runs| && Local(s, t, j)
    requires Removals(s) && Ends(s, t, j) && Grows(s, t)
    requires s.sch.ops[j].act == Delete ==>
               var c := s.sch.ops[j].create;
               && Behind(s, c) && c !in s.removed && c in s.att && |s.att[c]| > 0 && s.att[c][0] == Own(j)
               && (s.runs[j].phase == Calling(s.runs[j].hi) ==> Published(s, c))
    ensures Removals(t)
  {
    var c := s.sch.ops[j].create;
    if s.sch.ops[j].act == Delete {
      assert !FailedH(t, t.att[c][0]);
      assert Gone(t, c);
    }
    GrowthKeepsRemovals(s, t);
  }

  lemma MoveKeepsRemovals(g: Graph, s: Sys, t: Sys, j: nat)
    requires Fits(s) && NodeOrdered(s) && Ordered(s) && Chains(s) && Staged(s) && Inherits(s) && Removals(s)
    requires j < |s.runs| && Local(s, t, j) && PhaseStep(g, s, j, t.runs[j]) && Produces(s, t, j)
    ensures Removals(t)
  {
    OutcomesStay(g, s, t, j);
    assert Grows(s, t);
    if Plain(s, t, j) {
      GrowthKeepsRemovals(s, t);
    } else if Copies(s, t, j) {
      CopyIsJustified(s, t, j);
    } else if Retried(s, t, j) {
      RetryTargets(s, j);
      RetryIsJustified(s, t, j);
    } else {
      if s.sch.ops[j].act == Delete {
        DeleteTargets(s, j);
      }
      EndIsJustified(s, t, j);
    }
  }

  // A call starts only when there is something to delete.
  ghost predicate CallsForCause(s: Sys, t: Sys, j: nat)
    requires |s.sch.ops| == |s.runs| == |t.runs| && j < |s.runs|
  {
    var run, run' := s.runs[j], t.runs[j];
    run'.phase.Calling? ==>
      && run.phase == Running(run'.phase.r) && run'.id == run.id && run'.deleteFailed == run.deleteFailed
      && (run'.phase.r < run.hi ==> run'.phase.r < |s.retries| && RetryCalls(s, run'.phase.r))
      && (run'.phase.r == run.hi && s.sch.ops[j].act == Delete ==> IdOf(s, s.sch.ops[j].create) != "")
  }

  lemma MoveHasCause(g: Graph, limit: nat, s: Sys, j: nat, m: Move)
    requires Fits(s) && j < |s.runs| && MayMove(g, limit, s, j, m)
    ensures CallsForCause(s, Moved(g, limit, s, j, m), j)
  {
  }

  lemma PlainKeepsRetriesAt(g: Graph, s: Sys, t: Sys, j: nat)
    requires Fits(s) && Fits(t) && j < |s.runs| && |t.runs| == |s.runs| && RetriesStagedAt(s, j)
    requires PhaseStep(g, s, j, t.runs[j]) && Plain(s, t, j)
    ensures RetriesStagedAt(t, j)
  {
  }

  lemma SettleKeepsRetriesAt(g: Graph, s: Sys, t: Sys, j: nat, f: bool)
    requires Fits(s) && Fits(t) && j < |s.runs| && |t.runs| == |s.runs| && RetriesStagedAt(s, j)
    requires Settles(s, t, j, f)
    ensures RetriesStagedAt(t, j)
  {
  }

  lemma MovedRetriesAreStaged(g: Graph, s: Sys, t: Sys, j: nat)
    requires Fits(s) && Fits(t) && j < |s.runs| && |t.runs| == |s.runs| && RetriesStagedAt(s, j)
    requires PhaseStep(g, s, j, t.runs[j]) && Produces(s, t, j)
    ensures RetriesStagedAt(t, j)
  {
    hide Fits, PhaseStep, Plain, RetryCalls, FailedH, DoneH, Settles;
    if Plain(s, t, j) {
      PlainKeepsRetriesAt(g, s, t, j);
    } else if Retried(s, t, j) {
      SettleKeepsRetriesAt(g, s, t, j, false);
    } else if Copies(s, t, j) {
      var f := s.runs[j].phase.Calling? || FailedH(s, s.retries[s.runs[j].phase.r].prev);
      SettleKeepsRetriesAt(g, s, t, j, f);
    }
  }

  lemma MovedCallIsStaged(s: Sys, t: Sys, j: nat)
    requires Fits(s) && Fits(t) && NodeOrdered(s) && Ordered(s) && Chains(s) && Staged(s)
    requires j < |s.runs| && Stays(s, t, j) && CallsForCause(s, t, j) && t.runs[j].hi == s.runs[j].hi
    ensures CallStagedAt(t, j)
  {
    assert OrderedAt(s, j);
    var run' := t.runs[j];
    if run'.phase.Calling? && run'.phase.r < run'.hi {
      AdmittedIsReady(s, run'.phase.r);
    } else if run'.phase.Calling? && s.sch.ops[j].act == Delete {
      AdmittedHasInstance(s, j);
    }
  }

  lemma MovedRunIsStaged(g: Graph, s: Sys, t: Sys, j: nat)
    requires Fits(s) && Fits(t) && NodeOrdered(s) && Ordered(s) && Chains(s) && Staged(s)
    requires j < |s.runs| && Stays(s, t, j)
    requires PhaseStep(g, s, j, t.runs[j]) && Produces(s, t, j) && CallsForCause(s, t, j)
    ensures StagedAt(t, j)
  {
    assert StagedAt(s, j);
    hide NodeOrdered, Ordered, Chains, RetriesStagedAt, CallStagedAt, Unconfirmed;
    MovedRetriesAreStaged(g, s, t, j);
    MovedCallIsStaged(s, t, j);
  }

  /** Everything the run record rests on. */
  ghost predicate Recorded(s: Sys)
    requires Fits(s)
  {
    NodeOrdered(s) && Chains(s) && Staged(s) && Inherits(s) && Removals(s) && Listed(s)
  }

  lemma MoveKeepsRecorded(g: Graph, limit: nat, s: Sys, j: nat, m: Move)
    requires Fits(s) && Ordered(s) && Recorded(s) && j < |s.runs| && MayMove(g, limit, s, j, m)
    ensures Fits(Moved(g, limit, s, j, m)) && Recorded(Moved(g, limit, s, j, m))
  {
    hide Effect, Turn, MayMove, Local, PhaseStep, Produces, CallsForCause, Stays, StagedAt;
    hide Ordered, NodeOrdered, Chains, Inherits, Removals, Listed;
    var t := Moved(g, limit, s, j, m);
    MoveIsLocal(g, limit, s, j, m);
    MoveSteps(g, limit, s, j, m);
    MoveKeepsFits(g, s, t, j);
    assert StagedAt(s, j);
    MoveProduces(g, limit, s, j, m);
    MoveHasCause(g, limit, s, j, m);
    OutcomesStay(g, s, t, j);
    MoveKeepsNodeOrdered(s, t, j);
    MoveKeepsChains(s, t, j);
    MovedRunIsStaged(g, s, t, j);
    MoveKeepsStaged(s, t, j);
    MoveKeepsInherits(s, t, j);
    MoveKeepsRemovals(g, s, t, j);
    MoveKeepsListed(s, t, j);
  }

  lemma {:induction false} RetireKeepsUnconfirmed(s: Sys, es: seq<Entry>, e: Entry)
    requires DistinctEntries(es + [e])
    ensures var r := Retire(s, es, e);
            && |r| > 0 && r[|r| - 1] == e && DistinctEntries(r)
            && (forall x :: x in r <==> x == e || (x in es && !Confirmed(s, x.del)))
  {
    if es == [] {
    } else {
      assert DistinctEntries(es[1..] + [e]) by {
        assert forall k :: 0 <= k < |es| ==> (es[1..] + [e])[k] == (es + [e])[k + 1];
      }
      RetireKeepsUnconfirmed(s, es[1..], e);
      var rest := Retire(s, es[1..], e);
      forall x | x in rest
        ensures x.create != es[0].create
      {
        if x == e {
          assert (es + [e])[|es|] == e && (es + [e])[0] == es[0];
        } else {
          var k :| 0 <= k < |es[1..]| && es[1..][k] == x;
          assert (es + [e])[k + 1] == x && (es + [e])[0] == es[0];
        }
      }
    }
  }

  // The last run is a parked create of node i, and entry m and those after it
  // still name attempts of earlier operations.
  ghost predicate Requeueing(s: Sys, i: nat, m: nat)
  {
    var n := |s.runs| - 1;
    && i < |s.retired| && m <= |s.retired[i]| && |s.runs| > 0 && |s.sch.ops| == |s.runs|
    && s.runs[n].phase.Parked? && s.sch.ops[n].act == Create && s.sch.ops[n].node == i
    && s.runs[n].hi == |s.retries| && DistinctEntries(s.retired[i])
    && forall k :: m <= k < |s.retired[i]| ==> Earlier(s, s.retired[i][k].del)
  }

  predicate Earlier(s: Sys, h: Handle)
  {
    match h
    case Own(d) => d + 1 < |s.runs|
    case Again(r) => r < |s.retries| && s.retries[r].owner + 1 < |s.runs|
  }

  // t is s with one more retry, of entry e, at the end of its chain.
  ghost predicate AddsRetry(s: Sys, t: Sys, e: Entry)
  {
    var base, n := |s.retries|, |s.runs| - 1;
    && |s.runs| > 0 && t.sch == s.sch && |t.runs| == |s.runs| && t.runs[n] == s.runs[n].(hi := base + 1)
    && (forall j :: 0 <= j < n ==> t.runs[j] == s.runs[j])
    && e.create in s.att && |t.retries| == base + 1
    && (forall r :: 0 <= r < base ==> t.retries[r] == s.retries[r])
    && t.retries[base] == Retry(n, e.create, e.del, |s.att[e.create]|, false, true, [])
    && t.att.Keys == s.att.Keys && t.att[e.create] == s.att[e.create] + [Again(base)]
    && (forall c :: c in s.att && c != e.create ==> t.att[c] == s.att[c])
    && t.removed == s.removed && t.cycles == s.cycles
  }

  lemma AddKeepsChain(s: Sys, t: Sys, e: Entry, c: nat)
    requires AddsRetry(s, t, e) && c in s.att && ChainAt(s, c)
    requires |s.att[e.create]| > 0 && e.del == s.att[e.create][|s.att[e.create]| - 1]
    ensures ChainAt(t, c)
  {
    assert forall k :: 0 <= k < |s.att[c]| ==> t.att[c][k] == s.att[c][k];
  }

  lemma AddKeepsPlaced(s: Sys, t: Sys, e: Entry, r: nat)
    requires AddsRetry(s, t, e) && r < |s.retries| && PlacedAt(s, r)
    ensures PlacedAt(t, r)
  {
    var c := s.retries[r].create;
    assert forall k :: 0 <= k < |s.att[c]| ==> t.att[c][k] == s.att[c][k];
  }

  lemma AddedIsPlaced(s: Sys, t: Sys, e: Entry)
    requires |s.runs| == |s.sch.ops| && NodeOrdered(s) && AddsRetry(s, t, e) && ChainAt(s, e.create)
    requires e.del == s.att[e.create][|s.att[e.create]| - 1] && Earlier(s, e.del)
    requires e.del.Again? ==> PlacedAt(s, e.del.retry)
    requires s.sch.ops[|s.runs| - 1].node == s.sch.ops[e.create].node && s.sch.ops[|s.runs| - 1].act == Create
    ensures PlacedAt(t, |s.retries|)
  {
  }

  lemma AddKeepsAllChains(s: Sys, t: Sys, e: Entry)
    requires AddsRetry(s, t, e) && |s.att[e.create]| > 0 && e.del == s.att[e.create][|s.att[e.create]| - 1]
    requires forall c :: c in s.att ==> ChainAt(s, c)
    ensures forall c :: c in t.att ==> ChainAt(t, c)
    ensures FirstAttempts(s) ==> FirstAttempts(t)
  {
    forall c | c in t.att
      ensures ChainAt(t, c)
    {
      AddKeepsChain(s, t, e, c);
    }
  }

  lemma AddKeepsAllPlaced(s: Sys, t: Sys, e: Entry)
    requires AddsRetry(s, t, e) && PlacedAt(t, |s.retries|)
    requires forall r :: 0 <= r < |s.retries| ==> PlacedAt(s, r)
    ensures forall r :: 0 <= r < |t.retries| ==> PlacedAt(t, r)
  {
    forall r | 0 <= r < |s.retries|
      ensures PlacedAt(t, r)
    {
      AddKeepsPlaced(s, t, e, r);
    }
  }

  lemma AddKeepsChains(s: Sys, t: Sys, e: Entry)
    requires |s.runs| == |s.sch.ops| && NodeOrdered(s) && Chains(s) && AddsRetry(s, t, e)
    requires |s.att[e.create]| > 0 && e.del == s.att[e.create][|s.att[e.create]| - 1] && Earlier(s, e.del)
    requires s.sch.ops[|s.runs| - 1].act == Create
    requires e.create < |s.sch.ops| && s.sch.ops[|s.runs| - 1].node == s.sch.ops[e.create].node
    ensures Chains(t)
  {
    assert e.del.Again? ==> PlacedAt(s, e.del.retry);
    AddedIsPlaced(s, t, e);
    AddKeepsAllPlaced(s, t, e);
    AddKeepsAllChains(s, t, e);
  }

  // The create and the attempt of every retry are already there.
  ghost predicate Known(s: Sys)
  {
    && (forall r :: 0 <= r < |s.retries| ==>
          var rt := s.retries[r];
          rt.create < |s.runs| && match rt.prev case Own(d) => d < |s.runs| case Again(q) => q < |s.retries|)
    && (forall c, k :: c in s.att && 0 <= k < |s.att[c]| ==>
          match s.att[c][k] case Own(d) => d < |s.runs| case Again(q) => q < |s.retries|)
  }

  lemma ChainsAreKnown(s: Sys)
    requires |s.runs| == |s.sch.ops| && Chains(s)
    ensures Known(s)
  {
    forall r | 0 <= r < |s.retries|
      ensures PlacedAt(s, r) && ChainAt(s, s.retries[r].create)
    {
      assert PlacedAt(s, r);
    }
    forall c, k | c in s.att && 0 <= k < |s.att[c]|
      ensures match s.att[c][k] case Own(d) => d < |s.runs| case Again(q) => q < |s.retries|
    {
      assert ChainAt(s, c);
      assert k > 0 ==> s.att[c][k].Again?;
    }
  }

  // A call in flight is about a retry or an instance that is there.
  lemma CallInFlight(s: Sys, j: nat)
    requires Fits(s) && j < |s.runs| && s.runs[j].phase.Calling?
    ensures |s.runs| == |s.sch.ops| && s.runs[j].phase.r <= s.runs[j].hi <= |s.retries|
  {
  }

  lemma AddKeepsCall(s: Sys, t: Sys, e: Entry, j: nat)
    requires |s.runs| == |s.sch.ops| && Known(s) && AddsRetry(s, t, e) && s.runs[|s.runs| - 1].phase.Parked?
    requires Fits(s) && Fits(t) && j < |s.runs| && s.runs[j].phase.Calling? && CallStagedAt(s, j)
    requires s.runs[j].phase.r <= s.runs[j].hi <= |s.retries|
    ensures CallStagedAt(t, j)
  {
    hide Fits;
    assert t.runs[j] == s.runs[j];
  }

  lemma NoCallInFlight(s: Sys, t: Sys, e: Entry, j: nat)
    requires Fits(t) && AddsRetry(s, t, e) && s.runs[|s.runs| - 1].phase.Parked?
    requires j < |s.runs| && !s.runs[j].phase.Calling?
    ensures CallStagedAt(t, j)
  {
  }

  lemma AddKeepsCallAt(s: Sys, t: Sys, e: Entry, j: nat)
    requires Fits(s) && Fits(t) && Known(s) && AddsRetry(s, t, e) && s.runs[|s.runs| - 1].phase.Parked?
    requires j < |s.runs| && CallStagedAt(s, j)
    ensures CallStagedAt(t, j)
  {
    hide Fits, CallStagedAt;
    if s.runs[j].phase.Calling? {
      CallInFlight(s, j);
      AddKeepsCall(s, t, e, j);
    } else {
      NoCallInFlight(s, t, e, j);
    }
  }

  lemma AddKeepsRetriesAt(s: Sys, t: Sys, e: Entry, j: nat)
    requires Fits(s) && Fits(t) && AddsRetry(s, t, e) && s.runs[|s.runs| - 1].phase.Parked?
    requires j < |s.runs| && RetriesStagedAt(s, j)
    ensures RetriesStagedAt(t, j)
  {
    assert s.runs[j].lo <= s.runs[j].hi <= |s.retries|;
    hide Fits;
  }

  lemma AddKeepsStagedAt(s: Sys, t: Sys, e: Entry, j: nat)
    requires Fits(s) && Fits(t) && Known(s) && AddsRetry(s, t, e) && s.runs[|s.runs| - 1].phase.Parked?
    requires j < |s.runs| && StagedAt(s, j)
    ensures StagedAt(t, j)
  {
    AddKeepsCallAt(s, t, e, j);
    AddKeepsRetriesAt(s, t, e, j);
  }

  lemma AddKeepsStaged(s: Sys, t: Sys, e: Entry)
    requires Fits(s) && Fits(t) && Known(s) && Staged(s) && AddsRetry(s, t, e) && s.runs[|s.runs| - 1].phase.Parked?
    ensures Staged(t)
  {
    forall j | 0 <= j < |t.runs|
      ensures StagedAt(t, j)
    {
      AddKeepsStagedAt(s, t, e, j);
    }
  }

  lemma AddKeepsRunFits(s: Sys, t: Sys, e: Entry, j: nat)
    requires j < |s.runs| == |s.sch.ops| && RunFits(s, j) && AddsRetry(s, t, e)
    requires s.sch.ops[|s.runs| - 1].act == Create
    requires var n := s.runs[|s.runs| - 1]; n.phase.Parked? && n.hi == |s.retries|
    ensures RunFits(t, j)
  {
  }

  lemma AddKeepsRetryFits(s: Sys, t: Sys, e: Entry, r: nat)
    requires r < |t.retries| && AddsRetry(s, t, e) && (r < |s.retries| ==> RetryFits(s, r))
    requires s.runs[|s.runs| - 1].lo <= s.runs[|s.runs| - 1].hi == |s.retries|
    ensures RetryFits(t, r)
  {
  }

  lemma AddKeepsFits(s: Sys, t: Sys, e: Entry)
    requires Fits(s) && AddsRetry(s, t, e) && s.sch.ops[|s.runs| - 1].act == Create
    requires var n := s.runs[|s.runs| - 1]; n.phase.Parked? && n.hi == |s.retries|
    ensures Fits(t)
  {
    forall j | 0 <= j < |t.runs|
      ensures RunFits(t, j)
    {
      assert RunFits(s, j);
      AddKeepsRunFits(s, t, e, j);
    }
    forall r | 0 <= r < |t.retries|
      ensures RetryFits(t, r)
    {
      assert r < |s.retries| ==> RetryFits(s, r);
      AddKeepsRetryFits(s, t, e, r);
    }
    assert |t.runs| == |t.sch.ops|;
    hide AddsRetry;
  }

  lemma AddKeepsNodeOrdered(s: Sys, t: Sys, e: Entry)
    requires |s.runs| == |s.sch.ops| && NodeOrdered(s) && AddsRetry(s, t, e)
    ensures NodeOrdered(t)
  {
  }

  lemma AddKeepsInherits(s: Sys, t: Sys, e: Entry)
    requires |s.runs| == |s.sch.ops| && Known(s) && Inherits(s) && AddsRetry(s, t, e)
    requires s.runs[|s.runs| - 1].phase.Parked?
    ensures Inherits(t)
  {
  }

  lemma AddKeepsRemovals(s: Sys, t: Sys, e: Entry)
    requires |s.runs| == |s.sch.ops| && Known(s) && Inherits(s) && Removals(s) && AddsRetry(s, t, e)
    requires s.runs[|s.runs| - 1].phase.Parked?
    ensures Inherits(t) && Removals(t)
  {
    hide Inherits, Tried, Known, Gone, Removals, AddsRetry, NoRepeats;
    AddKeepsInherits(s, t, e);
    AddKeepsTried(s, t, e);
    AddKeepsGone(s, t, e);
  }

  lemma AddKeepsTried(s: Sys, t: Sys, e: Entry)
    requires |s.runs| == |s.sch.ops| && Known(s) && AddsRetry(s, t, e) && Removals(s)
    ensures forall c :: c in s.removed ==> Tried(t, c)
  {
    forall c | c in s.removed
      ensures Tried(t, c)
    {
      var k :| 0 <= k < |s.att[c]| && !FailedH(s, s.att[c][k]);
      assert t.att[c][k] == s.att[c][k];
      assert !FailedH(t, t.att[c][k]);
    }
  }

  lemma AddKeepsGone(s: Sys, t: Sys, e: Entry)
    requires |s.runs| == |s.sch.ops| && Removals(s) && AddsRetry(s, t, e)
    requires s.runs[|s.runs| - 1].phase.Parked? && forall c :: c in s.removed ==> Tried(t, c)
    ensures |t.runs| == |t.sch.ops| && Removals(t)
  {
    hide Tried;
  }

  lemma RequeueOneKeepsCurrent(s: Sys, i: nat, m: nat)
    requires EntriesCurrent(s) && Requeueing(s, i, m) && m < |s.retired[i]| && !Confirmed(s, s.retired[i][m].del)
    ensures EntriesCurrent(RequeueOne(s, i, m)) && Requeueing(RequeueOne(s, i, m), i, m + 1)
  {
  }

  lemma RequeueOneDropsNone(s: Sys, i: nat, m: nat)
    requires |s.runs| == |s.sch.ops| && EntriesCurrent(s) && NoneDropped(s) && Known(s)
    requires Requeueing(s, i, m) && m < |s.retired[i]| && !Confirmed(s, s.retired[i][m].del)
    ensures NoneDropped(RequeueOne(s, i, m))
  {
    var t := RequeueOne(s, i, m);
    var e := s.retired[i][m];
    forall c | c in t.att && c < |t.sch.ops| && t.sch.ops[c].node < |t.retired| && |t.att[c]| > 0
      ensures Confirmed(t, t.att[c][|t.att[c]| - 1]) || Holds(t.retired[t.sch.ops[c].node], c)
    {
      var n := s.sch.ops[c].node;
      if c == e.create {
        assert t.retired[i][m].create == c;
      } else if Holds(s.retired[n], c) {
        var k :| 0 <= k < |s.retired[n]| && s.retired[n][k].create == c;
        assert t.retired[n][k].create == c;
      }
    }
  }

  // What the retired list says about the entry about to be requeued.
  lemma EntryIsCurrent(s: Sys, i: nat, m: nat)
    requires |s.runs| == |s.sch.ops| && EntriesCurrent(s) && Requeueing(s, i, m) && m < |s.retired[i]|
    ensures var e := s.retired[i][m];
            && e.create in s.att && |s.att[e.create]| > 0 && e.del == s.att[e.create][|s.att[e.create]| - 1]
            && e.create < |s.sch.ops| && s.sch.ops[|s.runs| - 1].node == s.sch.ops[e.create].node && Earlier(s, e.del)
    ensures !Confirmed(s, s.retired[i][m].del) ==> AddsRetry(s, RequeueOne(s, i, m), s.retired[i][m])
  {
  }

  lemma RequeueOneKeepsListed(s: Sys, i: nat, m: nat)
    requires |s.runs| == |s.sch.ops| && Listed(s) && Known(s)
    requires Requeueing(s, i, m) && m < |s.retired[i]| && !Confirmed(s, s.retired[i][m].del)
    ensures Listed(RequeueOne(s, i, m)) && Requeueing(RequeueOne(s, i, m), i, m + 1)
  {
    RequeueOneKeepsCurrent(s, i, m);
    RequeueOneDropsNone(s, i, m);
  }

  lemma RequeueOneKeepsRecorded(s: Sys, i: nat, m: nat)
    requires Fits(s) && Recorded(s) && Requeueing(s, i, m) && m < |s.retired[i]|
    requires !Confirmed(s, s.retired[i][m].del)
    ensures var t := RequeueOne(s, i, m); Fits(t) && Recorded(t)
  {
    var e := s.retired[i][m];
    EntryIsCurrent(s, i, m);
    ChainsAreKnown(s);
    RequeueOneKeepsListed(s, i, m);
    AddKeepsRecords(s, RequeueOne(s, i, m), e);
  }

  lemma AddKeepsRecords(s: Sys, t: Sys, e: Entry)
    requires Fits(s) && NodeOrdered(s) && Chains(s) && Staged(s) && Inherits(s) && Removals(s) && AddsRetry(s, t, e)
    requires |s.att[e.create]| > 0 && e.del == s.att[e.create][|s.att[e.create]| - 1] && Earlier(s, e.del)
    requires e.create < |s.sch.ops| && s.sch.ops[|s.runs| - 1].node == s.sch.ops[e.create].node
    requires var n := |s.runs| - 1; s.sch.ops[n].act == Create && s.runs[n].phase.Parked? && s.runs[n].hi == |s.retries|
    ensures Fits(t) && NodeOrdered(t) && Chains(t) && Staged(t) && Inherits(t) && Removals(t)
  {
    AddKeepsNodeOrdered(s, t, e);
    AddKeepsFits(s, t, e);
    assert |t.sch.ops| == |t.runs|;
    hide NodeOrdered, Chains, Staged, Inherits, Removals, Known, Earlier, AddsRetry, Fits;
    ChainsAreKnown(s);
    AddKeepsChains(s, t, e);
    AddKeepsStaged(s, t, e);
    AddKeepsRemovals(s, t, e);
  }

  lemma {:induction false} RequeueKeepsRecorded(s: Sys, i: nat, m: nat)
    requires Fits(s) && Recorded(s) && Requeueing(s, i, m)
    ensures Fits(Requeue(s, i, m)) && Recorded(Requeue(s, i, m))
    decreases |s.retired[i]| - m
  {
    hide Recorded, Fits;
    if m == |s.retired[i]| {
    } else if Confirmed(s, s.retired[i][m].del) {
      RequeueKeepsRecorded(s, i, m + 1);
    } else {
      RequeueKept(s, i, m);
      RequeueKeepsRecorded(RequeueOne(s, i, m), i, m + 1);
    }
  }

  lemma RequeueKept(s: Sys, i: nat, m: nat)
    requires Fits(s) && Recorded(s) && Requeueing(s, i, m) && m < |s.retired[i]|
    requires !Confirmed(s, s.retired[i][m].del)
    ensures var t := RequeueOne(s, i, m); Fits(t) && Recorded(t) && Requeueing(t, i, m + 1)
  {
    ChainsAreKnown(s);
    RequeueOneKeepsListed(s, i, m);
    RequeueOneKeepsRecorded(s, i, m);
  }
}
