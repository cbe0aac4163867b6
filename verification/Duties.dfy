/** Which cloud calls the operations make: each retry, and each operation's own
    call, is made exactly when the calls that came back before give it cause. */
module Duties {
  import opened Options
  import opened Graphs
  import opened Scheduling
  import opened Execution
  import opened Ordering
  import opened Records
  import opened Tokens
  import opened Identities
  import opened Runs
  import Created
  import opened Finite

  // e is the call of create c coming back with a cloud id, with or without an error.
  predicate Yields(e: Event, c: nat)
  {
    e.op == c && e.act == Create && e.back.Some? && !e.back.value.Panic? && e.back.value.id != ""
  }

  predicate Succeeds(e: Event, c: nat) { Yields(e, c) && e.back.value.Ok? }

  // e is a Delete of instance c coming back with nil.
  predicate Removes(e: Event, c: nat) { e.target == c && e.act == Delete && e.back.Some? && e.back.value.Ok? }

  /** The create of instance c came back with a cloud id. */
  predicate Born(log: seq<Event>, c: nat) { exists a :: 0 <= a < |log| && Yields(log[a], c) }

  /** ... and without an error. */
  predicate Made(log: seq<Event>, c: nat) { exists a :: 0 <= a < |log| && Succeeds(log[a], c) }

  /** A Delete of instance c by an operation before j came back with nil. */
  predicate RemovedBefore(log: seq<Event>, c: nat, j: nat)
  {
    exists a :: 0 <= a < |log| && Removes(log[a], c) && log[a].op < j
  }

  // Which instances Deletes that came back with nil were about.
  function RemovedIn(log: seq<Event>): seq<nat>
  {
    if log == [] then []
    else
      var e := log[|log| - 1];
      RemovedIn(log[..|log| - 1]) + if Removes(e, e.target) then [e.target] else []
  }

  predicate About(e: Event, j: nat, c: nat, act: Action, back: bool)
  {
    e.op == j && e.target == c && e.act == act && e.back.Some? == back
  }

  // How many calls of operation j on instance c have started or come back.
  function CallsOn(log: seq<Event>, j: nat, c: nat, act: Action, back: bool): nat
  {
    if log == [] then 0
    else CallsOn(log[..|log| - 1], j, c, act, back) + if About(log[|log| - 1], j, c, act, back) then 1 else 0
  }

  predicate Counts(log: seq<Event>, j: nat, c: nat, act: Action, started: nat, ended: nat)
  {
    CallsOn(log, j, c, act, false) == started && CallsOn(log, j, c, act, true) == ended
  }

  /** The instance of retry r has an id, and no Delete before has removed it. */
  predicate RetryDue(s: Sys, r: nat)
    requires r < |s.retries|
  {
    var c := s.retries[r].create;
    Born(s.log, c) && !RemovedBefore(s.log, c, s.retries[r].owner)
  }

  /** A create needs its parents' creates to have succeeded, a delete an instance
      with an id, a mutate both and an instance whose create succeeded. */
  predicate OwnDue(s: Sys, j: nat)
    requires j < |s.sch.ops|
  {
    var o := s.sch.ops[j];
    && (o.act != Delete ==> forall p :: p in o.parentOps ==> Made(s.log, p))
    && (o.act == Delete ==> Born(s.log, o.create))
    && (o.act == Mutate ==> Made(s.log, o.create))
  }

  // A retry of operation j panicked.
  predicate Panicked(s: Sys, j: nat)
    requires j < |s.sch.ops|
  {
    exists a :: 0 <= a < |s.log| && s.log[a].op == j && s.log[a].act != s.sch.ops[j].act && s.log[a].back == Some(Panic)
  }

  // Operation j was admitted and none of its retries panicked.
  predicate Intact(s: Sys, j: nat)
    requires j < |s.runs| == |s.sch.ops|
  {
    s.runs[j].admitted && !Panicked(s, j)
  }

  predicate Working(p: Phase) { p.Running? || p.Calling? }

  // Operation j is past its retry r, or past all of them and its own call when r
  // is hi.
  predicate IsPast(run: Run, r: nat)
  {
    !BeforeAdmission(run.phase) && (Working(run.phase) ==> r < run.phase.r)
  }

  predicate IsCalling(run: Run, r: nat) { run.phase == Calling(r) }

  // The calls made at turn r of operation j, on instance c.
  ghost predicate Dutiful(s: Sys, j: nat, r: nat, c: nat, act: Action, due: bool)
    requires j < |s.runs| == |s.sch.ops|
  {
    var run := s.runs[j];
    if IsCalling(run, r) then due && Counts(s.log, j, c, act, 1, 0)
    else if !IsPast(run, r) then Counts(s.log, j, c, act, 0, 0)
    else if Intact(s, j) then Counts(s.log, j, c, act, if due then 1 else 0, if due then 1 else 0)
    else Counts(s.log, j, c, act, 0, 0) || (run.admitted && r < run.hi && due && Counts(s.log, j, c, act, 1, 1))
  }

  ghost predicate DutifulRetry(s: Sys, r: nat)
    requires r < |s.retries| && |s.runs| == |s.sch.ops|
  {
    var rt := s.retries[r];
    rt.owner < |s.runs| && Dutiful(s, rt.owner, r, rt.create, Delete, RetryDue(s, r))
  }

  ghost predicate DutifulOwn(s: Sys, j: nat)
    requires j < |s.runs| == |s.sch.ops|
  {
    var o := s.sch.ops[j];
    Dutiful(s, j, s.runs[j].hi, o.create, o.act, OwnDue(s, j))
  }

  // The call is operation e.op's own, or that of a retry it owns.
  ghost predicate EventFits(s: Sys, e: Event)
  {
    && e.op < |s.sch.ops| && e.target < |s.sch.ops| && s.sch.ops[e.op].node == s.sch.ops[e.target].node
    && (|| (e.target == s.sch.ops[e.op].create && e.act == s.sch.ops[e.op].act)
        || (e.act == Delete && s.sch.ops[e.op].act == Create
            && exists r :: 0 <= r < |s.retries| && s.retries[r].owner == e.op && s.retries[r].create == e.target))
  }

  // The outcomes the operations keep are those of the calls.
  ghost predicate Kept(s: Sys, c: nat)
    requires c < |s.runs|
  {
    && (s.runs[c].id != "" <==> Born(s.log, c))
    && (s.runs[c].id != "" && !s.runs[c].failed <==> Made(s.log, c))
  }

  ghost predicate AllKept(s: Sys)
  {
    s.removed == RemovedIn(s.log) && forall c :: 0 <= c < |s.runs| ==> Kept(s, c)
  }

  /** A Delete of instance c by operation j came back with nil. */
  predicate RemovedBy(log: seq<Event>, c: nat, j: nat)
  {
    exists a :: 0 <= a < |log| && Removes(log[a], c) && log[a].op == j
  }

  // A delete that ran counts as failed exactly if there was something to delete
  // and its call did not come back with nil.
  ghost predicate Judged(s: Sys, j: nat)
    requires j < |s.runs| == |s.sch.ops|
  {
    var o, run := s.sch.ops[j], s.runs[j];
    o.act == Delete && run.admitted && IsPast(run, run.hi) ==>
      (run.deleteFailed <==> Born(s.log, o.create) && !RemovedBy(s.log, o.create, j))
  }

  ghost predicate AllJudged(s: Sys)
    requires |s.runs| == |s.sch.ops|
  {
    forall j :: 0 <= j < |s.runs| ==> Judged(s, j)
  }

  ghost predicate AllFit(s: Sys) { forall a :: 0 <= a < |s.log| ==> EventFits(s, s.log[a]) }

  ghost predicate AllDutiful(s: Sys)
    requires |s.runs| == |s.sch.ops|
  {
    && (forall r :: 0 <= r < |s.retries| ==> DutifulRetry(s, r))
    && (forall j :: 0 <= j < |s.runs| ==> DutifulOwn(s, j))
    && (forall j :: 0 <= j < |s.runs| && (BeforeAdmission(s.runs[j].phase) || Working(s.runs[j].phase)) ==>
          !Panicked(s, j))
  }

  lemma OneMoreEvent(log: seq<Event>, e: Event)
    ensures forall c :: Born(log + [e], c) <==> Born(log, c) || Yields(e, c)
    ensures forall c :: Made(log + [e], c) <==> Made(log, c) || Succeeds(e, c)
    ensures forall c, j :: RemovedBefore(log + [e], c, j) <==> RemovedBefore(log, c, j) || (Removes(e, c) && e.op < j)
    ensures RemovedIn(log + [e]) == RemovedIn(log) + if Removes(e, e.target) then [e.target] else []
  {
    hide Yields, Succeeds, Removes;
    var more := log + [e];
    assert more[..|log|] == log && more[|log|] == e;
    assert forall a :: 0 <= a < |log| ==> more[a] == log[a];
  }

  lemma OneMoreCall(log: seq<Event>, e: Event, j: nat, c: nat, act: Action, back: bool)
    ensures CallsOn(log + [e], j, c, act, back) ==
            CallsOn(log, j, c, act, back) + if About(e, j, c, act, back) then 1 else 0
  {
    assert (log + [e])[..|log|] == log;
  }

  lemma {:induction false} CountedIsThere(log: seq<Event>, j: nat, c: nat, act: Action, back: bool)
    ensures CallsOn(log, j, c, act, back) > 0 <==> exists a :: 0 <= a < |log| && About(log[a], j, c, act, back)
  {
    hide About;
    if log != [] {
      var n := |log| - 1;
      CountedIsThere(log[..n], j, c, act, back);
      if a :| 0 <= a < |log| && About(log[a], j, c, act, back) {
        assert a < n ==> About(log[..n][a], j, c, act, back);
      }
      if a :| 0 <= a < |log[..n]| && About(log[..n][a], j, c, act, back) {
        assert About(log[a], j, c, act, back);
      }
    }
  }

  lemma {:induction false} RemovedInIs(log: seq<Event>, c: nat)
    ensures c in RemovedIn(log) <==> exists a :: 0 <= a < |log| && Removes(log[a], c)
  {
    if log != [] {
      var n := |log| - 1;
      RemovedInIs(log[..n], c);
      if a :| 0 <= a < |log| && Removes(log[a], c) {
        assert a < n ==> Removes(log[..n][a], c);
      }
      if a :| 0 <= a < |log[..n]| && Removes(log[..n][a], c) {
        assert Removes(log[a], c);
      }
    }
  }

  // Along the attempts on one instance the owners of the retries go up.
  lemma {:induction false} OwnersGoUp(s: Sys, c: nat, i: nat, k: nat)
    requires |s.runs| == |s.sch.ops| && Chains(s) && c in s.att && 0 < i < k < |s.att[c]|
    ensures s.att[c][i].Again? && s.att[c][k].Again?
    ensures var q, r := s.att[c][i].retry, s.att[c][k].retry;
            q < |s.retries| && r < |s.retries| && s.retries[q].owner < s.retries[r].owner
    decreases k
  {
    assert ChainAt(s, c);
    assert PlacedAt(s, s.att[c][k].retry);
    if i < k - 1 {
      OwnersGoUp(s, c, i, k - 1);
    }
  }

  // An operation retries an instance once.
  lemma RetriesDiffer(s: Sys, q: nat, r: nat)
    requires |s.runs| == |s.sch.ops| && Chains(s) && q < |s.retries| && r < |s.retries| && q != r
    requires s.retries[q].owner == s.retries[r].owner
    ensures s.retries[q].create != s.retries[r].create
  {
    var a, b := s.retries[q], s.retries[r];
    assert PlacedAt(s, q) && PlacedAt(s, r);
    if a.create == b.create {
      if a.nth < b.nth {
        OwnersGoUp(s, a.create, a.nth, b.nth);
      } else if b.nth < a.nth {
        OwnersGoUp(s, a.create, b.nth, a.nth);
      }
    }
  }

  // A Delete that removed instance c before operation j's own retry of it.
  lemma RemovedByEarlier(s: Sys, j: nat, r: nat, a: nat)
    requires Fits(s) && Ordered(s) && Traced(s) && NodeOrdered(s) && Chains(s) && AllFit(s)
    requires r < |s.retries| && s.retries[r].owner == j && Working(s.runs[j].phase)
    requires Counts(s.log, j, s.retries[r].create, Delete, 0, 0)
    requires a < |s.log| && Removes(s.log[a], s.retries[r].create)
    ensures s.log[a].op < j
  {
    var e, c := s.log[a], s.retries[r].create;
    assert PlacedAt(s, r) && EventFits(s, e) && OrderedAt(s, e.op);
    if e.op == j {
      CountedIsThere(s.log, j, c, Delete, true);
      assert About(e, j, c, Delete, true);
    }
  }

  // What the record says of an instance about to be deleted again.
  lemma FailedIsThere(s: Sys, j: nat, r: nat)
    requires Fits(s) && Ordered(s) && NodeOrdered(s) && Chains(s) && Staged(s) && Inherits(s) && Removals(s)
    requires r < |s.retries| && s.retries[r].owner == j && s.runs[j].phase == Running(r) && r < s.runs[j].hi
    ensures var rt := s.retries[r];
            && rt.create < |s.runs| && s.runs[rt.create].phase.Finished?
            && (FailedH(s, rt.prev) ==> rt.create !in s.removed)
            && (!FailedH(s, rt.prev) ==> rt.create in s.removed || IdOf(s, rt.create) == "")
  {
    var rt := s.retries[r];
    assert PlacedAt(s, r) && ChainAt(s, rt.create) && StagedAt(s, j) && OrderedAt(s, j);
    AdmittedIsReady(s, r);
    if FailedH(s, rt.prev) {
      StillThere(s, rt.create, rt.nth - 1);
    }
  }

  // At its turn a retry calls exactly when it is due.
  lemma RetryCallsWhenDue(s: Sys, j: nat, r: nat)
    requires Fits(s) && Ordered(s) && Traced(s) && NodeOrdered(s) && Chains(s) && Staged(s) && Inherits(s)
    requires Removals(s) && AllKept(s) && AllFit(s)
    requires r < |s.retries| && s.retries[r].owner == j && s.runs[j].phase == Running(r) && r < s.runs[j].hi
    requires Counts(s.log, j, s.retries[r].create, Delete, 0, 0)
    ensures RetryCalls(s, r) <==> RetryDue(s, r)
  {
    hide Ordered, Traced, NodeOrdered, Chains, Staged, Inherits, Records.Removals, AllFit, Counts, Fits, Removes;
    FailedIsThere(s, j, r);
    var c := s.retries[r].create;
    assert Kept(s, c);
    RemovedInIs(s.log, c);
    if c in s.removed {
      var a :| 0 <= a < |s.log| && Removes(s.log[a], c);
      RemovedByEarlier(s, j, r, a);
    }
  }

  // An admitted operation's instance and its parents' creates have finished.
  lemma AdmittedHasCauses(g: Graph, s: Sys, j: nat)
    requires Fits(s) && Ordered(s) && NodeOrdered(s) && OpsHaveParents(g, s) && j < |s.runs| && s.runs[j].admitted
    ensures forall p :: p in s.sch.ops[j].parentOps ==> Behind(s, p)
    ensures s.sch.ops[j].act != Create ==> Behind(s, s.sch.ops[j].create)
  {
    assert OrderedAt(s, j) && OpHasParents(s, j);
  }

  // At its turn an operation makes its own call exactly when it is due.
  lemma OwnCallsWhenDue(g: Graph, s: Sys, j: nat)
    requires Fits(s) && Ordered(s) && NodeOrdered(s) && OpsHaveParents(g, s) && AllKept(s)
    requires j < |s.runs| && s.runs[j].admitted
    ensures OwnCalls(s, j) <==> OwnDue(s, j)
  {
    AdmittedHasCauses(g, s, j);
    hide Fits, Ordered, NodeOrdered, OpsHaveParents, Born, Made;
    forall p | Behind(s, p)
      ensures Kept(s, p)
    {
    }
  }

  /** How a call of operation i comes back. */
  ghost predicate Answers(s: Sys, t: Sys, i: nat, x: nat, out: Outcome)
    requires i < |s.runs| == |s.sch.ops| == |t.runs|
  {
    var run, run' := s.runs[i], t.runs[i];
    var o := s.sch.ops[i];
    if x < run.hi then
      && x < |s.retries|
      && t.log == s.log + [Event(i, s.retries[x].create, Delete, IdsH(s, s.retries[x].prev), Some(out))]
      && run'.phase == (if out.Panic? then Leaving else Running(x + 1))
      && run'.id == run.id && run'.failed == run.failed && run'.deleteFailed == run.deleteFailed
      && t.removed == s.removed + if out.Ok? then [s.retries[x].create] else []
    else
      && t.log == s.log + [Event(i, o.create, o.act, Resolve(s, o.parentOps), Some(out))] && run'.phase == Leaving
      && run'.id == (if o.act == Create && !out.Panic? then out.id else run.id)
      && run'.failed == (if o.act == Create then out.Err? else run.failed)
      && run'.deleteFailed == (if o.act == Delete && out.Ok? then false else run.deleteFailed)
      && t.removed == s.removed + if o.act == Delete && out.Ok? then [o.create] else []
  }

  // What a move of operation i does to the log and to the outcomes.
  ghost predicate Speaks(s: Sys, t: Sys, i: nat)
    requires i < |s.runs| == |s.sch.ops| == |t.runs|
  {
    var run, run' := s.runs[i], t.runs[i];
    var o := s.sch.ops[i];
    match run.phase
    case Calling(x) => exists out: Outcome :: Answers(s, t, i, x, out)
    case Running(x) =>
      && run'.id == run.id && run'.failed == run.failed && t.removed == s.removed
      && if x < run.hi then
           && x < |s.retries|
           && run'.phase == (if RetryCalls(s, x) then Calling(x) else Running(x + 1))
           && run'.deleteFailed == run.deleteFailed
           && t.log == s.log + if RetryCalls(s, x)
                               then [Event(i, s.retries[x].create, Delete, IdsH(s, s.retries[x].prev), None)] else []
         else
           && run'.phase == (if OwnCalls(s, i) then Calling(x) else Leaving)
           && run'.deleteFailed == (if o.act == Delete && !OwnCalls(s, i) then false else run.deleteFailed)
           && t.log == s.log + if OwnCalls(s, i)
                               then [Event(i, o.create, o.act, Resolve(s, o.parentOps), None)] else []
    case _ =>
      && t.log == s.log && run'.id == run.id && run'.failed == run.failed && run'.deleteFailed == run.deleteFailed
      && t.removed == s.removed
  }

  lemma BeginSpeaks(g: Graph, limit: nat, s: Sys, j: nat)
    requires Fits(s) && j < |s.runs| && MayMove(g, limit, s, j, Begin)
    ensures Speaks(s, Moved(g, limit, s, j, Begin), j)
  {
    if s.runs[j].phase.r < s.runs[j].hi {
      BeginRetryLogs(s, j, s.runs[j].phase.r);
      assert BeginRetry(s, j, s.runs[j].phase.r).removed == s.removed;
    }
    hide OwnCalls, RetryCalls, Gate, Resolve, BeginRetry, IdsH;
  }

  lemma RetryAnswers(s: Sys, j: nat, r: nat, out: Outcome)
    requires r < |s.retries|
    ensures var t := EndRetry(s, j, r, out);
            && t.log == s.log + [Event(j, s.retries[r].create, Delete, IdsH(s, s.retries[r].prev), Some(out))]
            && t.removed == s.removed + if out.Ok? then [s.retries[r].create] else []
  {
  }

  lemma ReturnSpeaks(g: Graph, limit: nat, s: Sys, j: nat, out: Outcome)
    requires Fits(s) && j < |s.runs| && MayMove(g, limit, s, j, Return(out))
    ensures Speaks(s, Moved(g, limit, s, j, Return(out)), j)
  {
    hide OwnCalls, RetryCalls, Gate, Resolve, IdsH, EndRetry, Answers;
    var x := s.runs[j].phase.r;
    if x < s.runs[j].hi {
      RetryReturnSpeaks(g, limit, s, j, out);
    } else {
      OwnReturnSpeaks(g, limit, s, j, out);
    }
    assert Answers(s, Moved(g, limit, s, j, Return(out)), j, x, out);
  }

  lemma RetryReturnSpeaks(g: Graph, limit: nat, s: Sys, j: nat, out: Outcome)
    requires Fits(s) && j < |s.runs| && MayMove(g, limit, s, j, Return(out)) && s.runs[j].phase.r < s.runs[j].hi
    ensures Answers(s, Moved(g, limit, s, j, Return(out)), j, s.runs[j].phase.r, out)
  {
    hide OwnCalls, RetryCalls, Gate, Resolve, IdsH, EndRetry;
    RetryAnswers(s, j, s.runs[j].phase.r, out);
  }

  lemma OwnReturnSpeaks(g: Graph, limit: nat, s: Sys, j: nat, out: Outcome)
    requires Fits(s) && j < |s.runs| && MayMove(g, limit, s, j, Return(out)) && s.runs[j].phase.r == s.runs[j].hi
    ensures Answers(s, Moved(g, limit, s, j, Return(out)), j, s.runs[j].phase.r, out)
  {
    hide OwnCalls, RetryCalls, Gate, Resolve, IdsH, EndRetry;
  }

  lemma MoveSpeaks(g: Graph, limit: nat, s: Sys, j: nat, m: Move)
    requires Fits(s) && j < |s.runs| && MayMove(g, limit, s, j, m)
    ensures Speaks(s, Moved(g, limit, s, j, m), j)
  {
    hide OwnCalls, RetryCalls, DoneH, FailedH, Gate, Resolve, BeginRetry, EndRetry, Speaks;
    match m
    case Begin => BeginSpeaks(g, limit, s, j);
    case Return(out) => ReturnSpeaks(g, limit, s, j, out);
    case _ => SilentSpeaks(g, limit, s, j, m);
  }

  lemma SilentSpeaks(g: Graph, limit: nat, s: Sys, j: nat, m: Move)
    requires Fits(s) && j < |s.runs| && MayMove(g, limit, s, j, m) && !m.Begin? && !m.Return?
    ensures Speaks(s, Moved(g, limit, s, j, m), j)
  {
    hide OwnCalls, RetryCalls, FailedH, Resolve, BeginRetry, EndRetry;
  }

  // What operation j has cause to do does not change once it is admitted.
  lemma OwnDueStays(g: Graph, s: Sys, t: Sys, i: nat, e: Event, j: nat)
    requires Fits(s) && Ordered(s) && NodeOrdered(s) && OpsHaveParents(g, s) && j < |s.runs| && s.runs[j].admitted
    requires i < |s.runs| && !s.runs[i].phase.Finished? && t.sch == s.sch && t.log == s.log + [e] && e.op == i
    ensures OwnDue(t, j) <==> OwnDue(s, j)
  {
    AdmittedHasCauses(g, s, j);
    OneMoreEvent(s.log, e);
    hide Fits, Ordered, NodeOrdered, OpsHaveParents, Born, Made;
  }

  lemma RetryDueStays(s: Sys, t: Sys, i: nat, e: Event, r: nat)
    requires Fits(s) && Ordered(s) && NodeOrdered(s) && Chains(s) && r < |s.retries|
    requires s.retries[r].owner < |s.runs| && s.runs[s.retries[r].owner].admitted && SameRetries(s.retries, t.retries)
    requires i < |s.runs| && !s.runs[i].phase.Finished? && t.log == s.log + [e] && e.op == i && EventFits(s, e)
    ensures RetryDue(t, r) <==> RetryDue(s, r)
  {
    var j, c := s.retries[r].owner, s.retries[r].create;
    assert PlacedAt(s, r) && OrderedAt(s, j);
    assert Behind(s, c);
    assert Removes(e, c) ==> e.op >= j;
    OneMoreEvent(s.log, e);
    hide Fits, Ordered, NodeOrdered, Chains, Born, RemovedBefore;
  }

  // The turn operation i is at: about which instance, and whether it is due.
  ghost predicate AtTurn(s: Sys, i: nat, x: nat, c: nat, act: Action, due: bool)
    requires i < |s.runs| == |s.sch.ops|
  {
    && x <= s.runs[i].hi
    && if x < s.runs[i].hi then
         && x < |s.retries| && s.retries[x].owner == i
         && c == s.retries[x].create && act == Delete && due == RetryDue(s, x)
       else c == s.sch.ops[i].create && act == s.sch.ops[i].act && due == OwnDue(s, i)
  }

  function Last(log: seq<Event>): Event
    requires log != []
  {
    log[|log| - 1]
  }

  predicate Grown(log: seq<Event>, more: seq<Event>) { more != [] && more == log + [Last(more)] }

  // What a move of operation i at that turn logs.
  ghost predicate Turns(s: Sys, t: Sys, i: nat, x: nat, c: nat, act: Action, due: bool)
    requires i < |s.runs| == |s.sch.ops| == |t.runs|
  {
    var run, run' := s.runs[i], t.runs[i];
    var after := if x < run.hi then Running(x + 1) else Leaving;
    || (run.phase == Running(x) && !due && t.log == s.log && run'.phase == after)
    || (run.phase == Running(x) && due && run'.phase == Calling(x)
        && Grown(s.log, t.log) && About(Last(t.log), i, c, act, false))
    || (run.phase == Calling(x) && Grown(s.log, t.log) && About(Last(t.log), i, c, act, true)
        && run'.phase == if Last(t.log).back == Some(Panic) then Leaving else after)
  }

  // A turn of operation i, before and after a move of it.
  lemma TurnIsDone(s: Sys, t: Sys, i: nat, x: nat, c: nat, act: Action, due: bool)
    requires i < |s.runs| == |s.sch.ops| == |t.runs| == |t.sch.ops| && t.sch == s.sch
    requires s.runs[i].admitted && t.runs[i].admitted && t.runs[i].hi == s.runs[i].hi && x <= s.runs[i].hi
    requires !Panicked(s, i) && Dutiful(s, i, x, c, act, due) && Turns(s, t, i, x, c, act, due)
    requires x == s.runs[i].hi ==> act == s.sch.ops[i].act
    ensures Dutiful(t, i, x, c, act, due)
  {
    hide CallsOn, Panicked;
    if t.log != s.log {
      var e := Last(t.log);
      OneMoreCall(s.log, e, i, c, act, false);
      OneMoreCall(s.log, e, i, c, act, true);
      PanicIsNew(s, t, i, e);
    } else {
      NoNewPanic(s, t, i);
    }
  }

  lemma PanicIsNew(s: Sys, t: Sys, i: nat, e: Event)
    requires i < |s.sch.ops| && t.sch == s.sch && t.log == s.log + [e]
    ensures Panicked(t, i) <==>
            Panicked(s, i) || (e.op == i && e.act != s.sch.ops[i].act && e.back == Some(Panic))
  {
    assert forall a :: 0 <= a < |s.log| ==> t.log[a] == s.log[a];
    assert t.log[|s.log|] == e;
  }

  // Another turn of operation i.
  lemma OtherTurnStays(s: Sys, t: Sys, i: nat, x: nat, c: nat, act: Action, due: bool,
                       r: nat, c': nat, act': Action, due': bool)
    requires i < |s.runs| == |s.sch.ops| == |t.runs| == |t.sch.ops| && t.sch == s.sch
    requires s.runs[i].admitted && t.runs[i].admitted && t.runs[i].hi == s.runs[i].hi && x <= s.runs[i].hi
    requires !Panicked(s, i) && Turns(s, t, i, x, c, act, due) && (x < s.runs[i].hi ==> act != s.sch.ops[i].act)
    requires Dutiful(s, i, r, c', act', due') && r != x && r <= s.runs[i].hi && (c', act') != (c, act)
    ensures Dutiful(t, i, r, c', act', due')
  {
    hide CallsOn, Panicked;
    if t.log != s.log {
      OtherCounts(s, t, i, x, c, act, due, c', act');
    }
  }

  lemma OtherCounts(s: Sys, t: Sys, i: nat, x: nat, c: nat, act: Action, due: bool, c': nat, act': Action)
    requires i < |s.runs| == |s.sch.ops| == |t.runs| == |t.sch.ops| && t.sch == s.sch && t.log != s.log
    requires !Panicked(s, i) && Turns(s, t, i, x, c, act, due) && (c', act') != (c, act)
    requires x < s.runs[i].hi ==> act != s.sch.ops[i].act
    ensures forall back :: CallsOn(t.log, i, c', act', back) == CallsOn(s.log, i, c', act', back)
    ensures t.runs[i].phase.Leaving? && x < s.runs[i].hi ==> Panicked(t, i)
  {
    var e := Last(t.log);
    OneMoreCall(s.log, e, i, c', act', false);
    OneMoreCall(s.log, e, i, c', act', true);
    PanicIsNew(s, t, i, e);
    hide CallsOn, Panicked;
    forall back
      ensures CallsOn(t.log, i, c', act', back) == CallsOn(s.log, i, c', act', back)
    {
      assert back == true || back == false;
    }
  }

  // A turn of operation i, when a move of it makes no call.
  lemma QuietTurnStays(g: Graph, s: Sys, t: Sys, i: nat, r: nat, c: nat, act: Action, due: bool)
    requires Fits(s) && i < |s.runs| == |t.runs| && t.sch == s.sch && t.log == s.log && OrderedAt(s, i)
    requires !Working(s.runs[i].phase) && PhaseStep(g, s, i, t.runs[i]) && s.runs[i].lo <= r
    requires Dutiful(s, i, r, c, act, due)
    ensures Dutiful(t, i, r, c, act, due)
  {
    hide Counts, Fits;
  }

  // A turn of another operation.
  lemma OthersTurnStays(s: Sys, t: Sys, j: nat, e: Event, r: nat, c: nat, act: Action, due: bool, due': bool)
    requires j < |s.runs| == |s.sch.ops| == |t.runs| == |t.sch.ops| && t.sch == s.sch && t.runs[j] == s.runs[j]
    requires t.log == s.log + [e] && e.op != j && Dutiful(s, j, r, c, act, due)
    requires Working(s.runs[j].phase) ==> s.runs[j].admitted
    requires s.runs[j].admitted ==> due' == due
    ensures Dutiful(t, j, r, c, act, due')
  {
    OneMoreCall(s.log, e, j, c, act, false);
    OneMoreCall(s.log, e, j, c, act, true);
    PanicIsNew(s, t, j, e);
  }

  // Before an operation is admitted it does not matter what is due.
  lemma UnadmittedTurn(s: Sys, j: nat, r: nat, c: nat, act: Action, due: bool, due': bool)
    requires j < |s.runs| == |s.sch.ops| && Dutiful(s, j, r, c, act, due)
    requires Working(s.runs[j].phase) ==> s.runs[j].admitted
    requires s.runs[j].admitted ==> due' == due
    ensures Dutiful(s, j, r, c, act, due')
  {
  }

  // What a move logs, if anything.
  ghost predicate Logs(s: Sys, t: Sys, i: nat)
  {
    t.log == s.log || exists e :: t.log == s.log + [e] && e.op == i && EventFits(s, e)
  }

  lemma SpeaksLogs(s: Sys, t: Sys, i: nat)
    requires Fits(s) && NodeOrdered(s) && Chains(s) && i < |s.runs| == |t.runs| && Speaks(s, t, i)
    requires Working(s.runs[i].phase)
    ensures Logs(s, t, i)
  {
    hide RetryCalls, OwnCalls, ChainAt, FirstAttempts;
    var x := s.runs[i].phase.r;
    assert x < s.runs[i].hi ==> PlacedAt(s, x) && s.retries[x].owner == i;
    if t.log != s.log {
      var e := t.log[|s.log|];
      assert t.log == s.log + [e] && e.op == i && EventFits(s, e);
    }
  }

  lemma SpeaksTurns(s: Sys, t: Sys, i: nat, x: nat, c: nat, act: Action, due: bool)
    requires i < |s.runs| == |s.sch.ops| == |t.runs| && Speaks(s, t, i) && Working(s.runs[i].phase)
    requires x == s.runs[i].phase.r && AtTurn(s, i, x, c, act, due)
    requires s.runs[i].phase.Running? && x < s.runs[i].hi ==> (RetryCalls(s, x) <==> due)
    requires s.runs[i].phase.Running? && x == s.runs[i].hi ==> (OwnCalls(s, i) <==> due)
    ensures Turns(s, t, i, x, c, act, due)
  {
    hide RetryCalls, OwnCalls, RetryDue, OwnDue, Resolve, IdsH;
    if t.log != s.log {
      var e := t.log[|s.log|];
      assert t.log == s.log + [e];
    }
  }

  // What the next move relies on.
  ghost predicate Prepared(g: Graph, s: Sys)
  {
    && Fits(s) && Ordered(s) && Traced(s) && NodeOrdered(s) && OpsHaveParents(g, s) && Chains(s) && Staged(s)
    && Inherits(s) && Records.Removals(s) && AllKept(s) && AllFit(s) && AllDutiful(s)
  }

  ghost predicate Moves(g: Graph, s: Sys, t: Sys, i: nat)
    requires Fits(s)
  {
    i < |s.runs| && Local(s, t, i) && PhaseStep(g, s, i, t.runs[i]) && Speaks(s, t, i)
  }

  lemma WorkingIsAdmitted(s: Sys, j: nat)
    requires Fits(s) && Ordered(s) && j < |s.runs|
    ensures Working(s.runs[j].phase) ==> s.runs[j].admitted && s.runs[j].phase.r <= s.runs[j].hi
  {
    assert OrderedAt(s, j);
  }

  // The turn operation i is at, where it calls exactly when that is due.
  lemma TurnOf(g: Graph, s: Sys, i: nat) returns (c: nat, act: Action, due: bool)
    requires Prepared(g, s) && i < |s.runs| && Working(s.runs[i].phase)
    ensures var x := s.runs[i].phase.r;
            && x <= s.runs[i].hi && s.runs[i].admitted && !Panicked(s, i) && AtTurn(s, i, x, c, act, due)
            && Dutiful(s, i, x, c, act, due) && (x < s.runs[i].hi <==> act != s.sch.ops[i].act)
            && (s.runs[i].phase.Running? && x < s.runs[i].hi ==> (RetryCalls(s, x) <==> due))
            && (s.runs[i].phase.Running? && x == s.runs[i].hi ==> (OwnCalls(s, i) <==> due))
  {
    WorkingIsAdmitted(s, i);
    hide Ordered, Traced, NodeOrdered, OpsHaveParents, Chains, Staged, Inherits, Records.Removals, AllKept, AllFit;
    hide RetryDue, OwnDue, RetryCalls, OwnCalls, Panicked, Counts;
    var x := s.runs[i].phase.r;
    if x < s.runs[i].hi {
      c, act, due := s.retries[x].create, Delete, RetryDue(s, x);
      assert DutifulRetry(s, x);
      if s.runs[i].phase.Running? {
        RetryCallsWhenDue(s, i, x);
      }
    } else {
      c, act, due := s.sch.ops[i].create, s.sch.ops[i].act, OwnDue(s, i);
      assert DutifulOwn(s, i);
      OwnCallsWhenDue(g, s, i);
    }
  }

  lemma MovedTurn(g: Graph, s: Sys, t: Sys, i: nat, r: nat, c: nat, act: Action, due: bool)
    requires Prepared(g, s) && Moves(g, s, t, i) && s.runs[i].lo <= r <= s.runs[i].hi
    requires AtTurn(s, i, r, c, act, due) && Dutiful(s, i, r, c, act, due)
    ensures |t.runs| == |t.sch.ops| && Dutiful(t, i, r, c, act, due)
  {
    assert OrderedAt(s, i);
    hide Ordered, Traced, NodeOrdered, OpsHaveParents, Staged, Inherits, Records.Removals, AllKept, AllFit;
    hide AllDutiful, RetryDue, OwnDue, RetryCalls, OwnCalls, Panicked, Dutiful, OrderedAt, Turns, Chains;
    if Working(s.runs[i].phase) {
      var x := s.runs[i].phase.r;
      var c', act', due' := TurnOf(g, s, i);
      SpeaksTurns(s, t, i, x, c', act', due');
      if r == x {
        TurnIsDone(s, t, i, x, c, act, due);
      } else {
        if r < s.runs[i].hi && x < s.runs[i].hi {
          RetriesDiffer(s, r, x);
        }
        OtherTurnStays(s, t, i, x, c', act', due', r, c, act, due);
      }
    } else {
      QuietTurnStays(g, s, t, i, r, c, act, due);
    }
  }

  // A turn of any operation j when operation i moves.
  lemma TurnStays(g: Graph, s: Sys, t: Sys, i: nat, j: nat, r: nat, c: nat, act: Action, due: bool, due': bool)
    requires Prepared(g, s) && Moves(g, s, t, i) && Logs(s, t, i) && j < |s.runs| && s.runs[j].lo <= r <= s.runs[j].hi
    requires AtTurn(s, j, r, c, act, due) && Dutiful(s, j, r, c, act, due)
    requires s.runs[j].admitted || t.log == s.log ==> due' == due
    ensures |t.runs| == |t.sch.ops| && Dutiful(t, j, r, c, act, due')
  {
    WorkingIsAdmitted(s, j);
    hide Ordered, Traced, NodeOrdered, OpsHaveParents, Staged, Inherits, Records.Removals, AllKept, AllFit;
    hide AllDutiful, RetryDue, OwnDue, RetryCalls, OwnCalls, Chains, Fits, PhaseStep, Dutiful, EventFits;
    if j == i {
      MovedTurn(g, s, t, i, r, c, act, due);
      assert t.log == s.log || Working(s.runs[i].phase);
    } else if t.log == s.log {
      SameTurn(s, t, j, r, c, act, due);
    } else {
      var e :| t.log == s.log + [e] && e.op == i;
      OthersTurnStays(s, t, j, e, r, c, act, due, due');
    }
  }

  lemma SameTurn(s: Sys, t: Sys, j: nat, r: nat, c: nat, act: Action, due: bool)
    requires j < |s.runs| == |s.sch.ops| == |t.runs| && t.sch == s.sch && t.log == s.log && t.runs[j] == s.runs[j]
    requires Dutiful(s, j, r, c, act, due)
    ensures Dutiful(t, j, r, c, act, due)
  {
  }

  lemma MoveLogs(g: Graph, s: Sys, t: Sys, i: nat)
    requires Prepared(g, s) && Moves(g, s, t, i)
    ensures Logs(s, t, i) && !s.runs[i].phase.Finished?
  {
    assert |s.runs| == |s.sch.ops|;
    hide Ordered, Traced, OpsHaveParents, Staged, Inherits, Records.Removals, AllKept, AllFit, AllDutiful;
    hide RetryCalls, OwnCalls, NodeOrdered, Chains, Fits, Logs;
    if Working(s.runs[i].phase) {
      SpeaksLogs(s, t, i);
    } else {
      QuietLogs(s, t, i);
    }
  }

  lemma QuietLogs(s: Sys, t: Sys, i: nat)
    requires i < |s.runs| == |s.sch.ops| == |t.runs| && Speaks(s, t, i) && !Working(s.runs[i].phase)
    ensures t.log == s.log && Logs(s, t, i)
  {
  }

  lemma MoveKeepsRetry(g: Graph, s: Sys, t: Sys, i: nat, r: nat)
    requires Prepared(g, s) && Moves(g, s, t, i) && r < |s.retries|
    ensures |t.runs| == |t.sch.ops| && r < |t.retries| && DutifulRetry(t, r)
  {
    MoveLogs(g, s, t, i);
    assert DutifulRetry(s, r);
    var j := s.retries[r].owner;
    assert s.runs[j].lo <= r < s.runs[j].hi;
    hide Ordered, Traced, OpsHaveParents, Staged, Inherits, Records.Removals, AllKept, AllFit, AllDutiful;
    hide NodeOrdered, Chains, Fits, PhaseStep, Speaks, EventFits, Born, RemovedBefore, Dutiful;
    if t.log != s.log && s.runs[j].admitted {
      var e :| t.log == s.log + [e] && e.op == i && EventFits(s, e);
      RetryDueStays(s, t, i, e, r);
    }
    TurnStays(g, s, t, i, j, r, s.retries[r].create, Delete, RetryDue(s, r), RetryDue(t, r));
  }

  lemma MoveKeepsOwn(g: Graph, s: Sys, t: Sys, i: nat, j: nat)
    requires Prepared(g, s) && Moves(g, s, t, i) && j < |s.runs|
    ensures |t.runs| == |t.sch.ops| && DutifulOwn(t, j)
  {
    MoveLogs(g, s, t, i);
    assert DutifulOwn(s, j);
    var o := s.sch.ops[j];
    assert s.runs[j].lo <= s.runs[j].hi && t.runs[j].hi == s.runs[j].hi;
    hide Ordered, Traced, OpsHaveParents, Staged, Inherits, Records.Removals, AllKept, AllFit, AllDutiful;
    hide NodeOrdered, Chains, Fits, PhaseStep, Speaks, EventFits, Born, Made, Dutiful;
    if t.log != s.log && s.runs[j].admitted {
      var e :| t.log == s.log + [e] && e.op == i && EventFits(s, e);
      OwnDueStays(g, s, t, i, e, j);
    }
    TurnStays(g, s, t, i, j, s.runs[j].hi, o.create, o.act, OwnDue(s, j), OwnDue(t, j));
  }

  // A panic of a retry ends an operation's work.
  lemma MoveKeepsNoPanic(g: Graph, s: Sys, t: Sys, i: nat, j: nat)
    requires Prepared(g, s) && Moves(g, s, t, i) && j < |s.runs|
    requires BeforeAdmission(t.runs[j].phase) || Working(t.runs[j].phase)
    ensures |t.runs| == |t.sch.ops| && !Panicked(t, j)
  {
    MoveLogs(g, s, t, i);
    assert BeforeAdmission(s.runs[j].phase) || Working(s.runs[j].phase);
    assert !Panicked(s, j);
    hide Ordered, Traced, OpsHaveParents, Staged, Inherits, Records.Removals, AllKept, AllFit, AllDutiful, EventFits;
    hide NodeOrdered, Chains, Panicked, Fits, Turns, PhaseStep;
    if t.log == s.log {
      NoNewPanic(s, t, j);
    } else if j != i {
      var e :| t.log == s.log + [e] && e.op == i && EventFits(s, e);
      PanicIsNew(s, t, j, e);
    } else {
      assert Working(s.runs[i].phase) by {
        if !Working(s.runs[i].phase) {
          QuietLogs(s, t, i);
        }
      }
      var c, act, due := TurnOf(g, s, i);
      SpeaksTurns(s, t, i, s.runs[i].phase.r, c, act, due);
      TurnIsNoPanic(s, t, i, s.runs[i].phase.r, c, act, due);
    }
  }

  lemma TurnIsNoPanic(s: Sys, t: Sys, i: nat, x: nat, c: nat, act: Action, due: bool)
    requires i < |s.runs| == |s.sch.ops| == |t.runs| == |t.sch.ops| && t.sch == s.sch && t.log != s.log
    requires !Panicked(s, i) && Turns(s, t, i, x, c, act, due) && (x >= s.runs[i].hi ==> act == s.sch.ops[i].act)
    requires !t.runs[i].phase.Leaving?
    ensures !Panicked(t, i)
  {
    hide Panicked;
    var e := Last(t.log);
    PanicIsNew(s, t, i, e);
  }

  lemma NoNewPanic(s: Sys, t: Sys, j: nat)
    requires t.sch == s.sch && t.log == s.log && j < |s.sch.ops| && !Panicked(s, j)
    ensures !Panicked(t, j)
  {
  }

  lemma MoveKeepsDutiful(g: Graph, s: Sys, t: Sys, i: nat)
    requires Prepared(g, s) && Moves(g, s, t, i)
    ensures |t.runs| == |t.sch.ops| && AllDutiful(t)
  {
    assert |t.runs| == |t.sch.ops| && |t.retries| == |s.retries| && |t.runs| == |s.runs|;
    hide Prepared, Moves, DutifulRetry, DutifulOwn, Panicked;
    forall r | 0 <= r < |t.retries|
      ensures DutifulRetry(t, r)
    {
      MoveKeepsRetry(g, s, t, i, r);
    }
    forall j | 0 <= j < |t.runs|
      ensures DutifulOwn(t, j)
      ensures BeforeAdmission(t.runs[j].phase) || Working(t.runs[j].phase) ==> !Panicked(t, j)
    {
      MoveKeepsOwn(g, s, t, i, j);
      if BeforeAdmission(t.runs[j].phase) || Working(t.runs[j].phase) {
        MoveKeepsNoPanic(g, s, t, i, j);
      }
    }
  }

  // What operation i keeps of its own call is how it came back.
  lemma OwnIsKept(g: Graph, s: Sys, t: Sys, i: nat)
    requires Prepared(g, s) && Moves(g, s, t, i)
    ensures |t.runs| == |s.runs| && Kept(t, i) && t.removed == RemovedIn(t.log)
  {
    assert Kept(s, i) && StagedAt(s, i);
    assert Working(s.runs[i].phase) ==> s.runs[i].id == "" && s.runs[i].phase.r <= s.runs[i].hi;
    assert s.removed == RemovedIn(s.log);
    assert s.sch.ops[i].act != Create ==> s.runs[i].lo == s.runs[i].hi;
    hide Ordered, Traced, OpsHaveParents, Staged, Inherits, Records.Removals, AllKept, AllFit, AllDutiful, StagedAt;
    hide NodeOrdered, Chains, RetryCalls, OwnCalls, Fits, PhaseStep, Kept, Answers, RemovedIn, Resolve, IdsH;
    if s.runs[i].phase.Calling? {
      var out :| Answers(s, t, i, s.runs[i].phase.r, out);
      AnswerIsKept(s, t, i, out);
    } else {
      StartIsKept(s, t, i);
    }
  }

  lemma AnswerIsKept(s: Sys, t: Sys, i: nat, out: Outcome)
    requires i < |s.runs| == |s.sch.ops| == |t.runs| && Kept(s, i) && s.removed == RemovedIn(s.log)
    requires s.runs[i].phase.Calling? && s.runs[i].id == "" && Answers(s, t, i, s.runs[i].phase.r, out)
    ensures Kept(t, i) && t.removed == RemovedIn(t.log)
  {
    hide Born, Made, RemovedIn, Resolve, IdsH;
    var e := t.log[|s.log|];
    assert t.log == s.log + [e];
    OneMoreEvent(s.log, e);
  }

  lemma StartIsKept(s: Sys, t: Sys, i: nat)
    requires i < |s.runs| == |s.sch.ops| == |t.runs| && Kept(s, i) && s.removed == RemovedIn(s.log)
    requires !s.runs[i].phase.Calling? && Speaks(s, t, i)
    ensures Kept(t, i) && t.removed == RemovedIn(t.log)
  {
    hide Born, Made, RemovedIn, Resolve, IdsH, RetryCalls, OwnCalls;
    if t.log != s.log {
      var e := t.log[|s.log|];
      assert t.log == s.log + [e];
      OneMoreEvent(s.log, e);
    }
  }

  lemma OthersAreKept(s: Sys, t: Sys, i: nat, c: nat)
    requires i < |s.runs| == |t.runs| && Logs(s, t, i) && c < |s.runs| && c != i && t.runs[c] == s.runs[c] && Kept(s, c)
    ensures Kept(t, c)
  {
    hide Born, Made, EventFits;
    if t.log != s.log {
      var e :| t.log == s.log + [e] && e.op == i && EventFits(s, e);
      OneMoreEvent(s.log, e);
    }
  }

  lemma MoveKeepsKept(g: Graph, s: Sys, t: Sys, i: nat)
    requires Prepared(g, s) && Moves(g, s, t, i)
    ensures AllKept(t)
  {
    MoveLogs(g, s, t, i);
    OwnIsKept(g, s, t, i);
    hide Ordered, Traced, OpsHaveParents, Staged, Inherits, Records.Removals, AllFit, AllDutiful, Kept;
    hide NodeOrdered, Chains, Fits, PhaseStep, Speaks, EventFits, Logs, RemovedIn;
    forall c | 0 <= c < |t.runs|
      ensures Kept(t, c)
    {
      if c != i {
        OthersAreKept(s, t, i, c);
      }
    }
  }

  // An event's place does not change as more is decided.
  lemma EventStaysFit(s: Sys, t: Sys, e: Event)
    requires EventFits(s, e) && |s.sch.ops| <= |t.sch.ops| && |s.retries| <= |t.retries|
    requires forall j :: 0 <= j < |s.sch.ops| ==> t.sch.ops[j] == s.sch.ops[j]
    requires forall r :: 0 <= r < |s.retries| ==>
               t.retries[r].owner == s.retries[r].owner && t.retries[r].create == s.retries[r].create
    ensures EventFits(t, e)
  {
    if e.act == Delete && s.sch.ops[e.op].act == Create {
      var r :| 0 <= r < |s.retries| && s.retries[r].owner == e.op && s.retries[r].create == e.target;
      assert t.retries[r].owner == e.op && t.retries[r].create == e.target;
    }
  }

  lemma MoveKeepsFit(g: Graph, s: Sys, t: Sys, i: nat)
    requires Prepared(g, s) && Moves(g, s, t, i)
    ensures AllFit(t)
  {
    MoveLogs(g, s, t, i);
    assert AllFit(s);
    hide Prepared, PhaseStep, Speaks, EventFits;
    forall a | 0 <= a < |t.log|
      ensures EventFits(t, t.log[a])
    {
      assert a < |s.log| ==> t.log[a] == s.log[a];
      EventStaysFit(s, t, t.log[a]);
    }
  }

  // An operation just dispatched has made no call.
  lemma NothingSaid(s: Sys, j: nat, c: nat, act: Action)
    requires AllFit(s) && j >= |s.sch.ops|
    ensures Counts(s.log, j, c, act, 0, 0) && !Born(s.log, j)
    ensures forall a :: 0 <= a < |s.log| ==> s.log[a].op != j
  {
    assert forall a :: 0 <= a < |s.log| ==> EventFits(s, s.log[a]);
    hide EventFits;
    CountedIsThere(s.log, j, c, act, false);
    CountedIsThere(s.log, j, c, act, true);
  }

  lemma NewTurn(s: Sys, t: Sys, r: nat, c: nat, act: Action, due: bool)
    requires |s.runs| == |s.sch.ops| && |t.runs| == |t.sch.ops| == |s.runs| + 1 && AllFit(s) && t.log == s.log
    requires t.runs[|s.runs|].phase.Parked?
    ensures Dutiful(t, |s.runs|, r, c, act, due) && !Panicked(t, |s.runs|)
  {
    NothingSaid(s, |s.runs|, c, act);
  }

  // A turn of an operation that was there before.
  lemma OldTurn(s: Sys, t: Sys, j: nat, r: nat, c: nat, act: Action, due: bool)
    requires j < |s.runs| == |s.sch.ops| <= |t.sch.ops| == |t.runs| && t.sch.ops[j] == s.sch.ops[j]
    requires t.log == s.log && t.runs[j] == s.runs[j] && Dutiful(s, j, r, c, act, due)
    ensures Dutiful(t, j, r, c, act, due)
  {
  }

  lemma AppendKeepsRetry(s: Sys, t: Sys, r: nat)
    requires Fits(s) && AllFit(s) && AllDutiful(s) && Appended(s, t) && r < |t.retries|
    ensures DutifulRetry(t, r)
  {
    var rt := t.retries[r];
    if r < |s.retries| {
      assert DutifulRetry(s, r);
      OldTurn(s, t, rt.owner, r, rt.create, Delete, RetryDue(s, r));
    } else {
      NewTurn(s, t, r, rt.create, Delete, RetryDue(t, r));
    }
  }

  lemma AppendKeepsOwn(s: Sys, t: Sys, j: nat)
    requires Fits(s) && AllFit(s) && AllDutiful(s) && Appended(s, t) && j < |t.runs|
    ensures DutifulOwn(t, j)
    ensures BeforeAdmission(t.runs[j].phase) || Working(t.runs[j].phase) ==> !Panicked(t, j)
  {
    var o := t.sch.ops[j];
    if j < |s.runs| {
      assert DutifulOwn(s, j) && OwnDue(t, j) == OwnDue(s, j) && Panicked(t, j) == Panicked(s, j);
      OldTurn(s, t, j, s.runs[j].hi, o.create, o.act, OwnDue(s, j));
    } else {
      NewTurn(s, t, t.runs[j].hi, o.create, o.act, OwnDue(t, j));
    }
  }

  lemma AppendKeepsKept(s: Sys, t: Sys)
    requires |s.runs| == |s.sch.ops| && AllFit(s) && AllKept(s) && Appended(s, t)
    ensures AllKept(t)
  {
    NothingSaid(s, |s.runs|, 0, Create);
    assert !Made(t.log, |s.runs|);
    hide Born, Made;
    forall c | 0 <= c < |t.runs|
      ensures Kept(t, c)
    {
      assert c < |s.runs| ==> Kept(s, c);
    }
  }

  /** What the calls have been in every state of every run. */
  ghost predicate Told(s: Sys)
  {
    |s.runs| == |s.sch.ops| && AllKept(s) && AllFit(s) && AllDutiful(s)
  }

  lemma AppendKeepsTold(s: Sys, t: Sys)
    requires Fits(s) && Told(s) && Appended(s, t)
    ensures Told(t)
  {
    AppendKeepsKept(s, t);
    forall a | 0 <= a < |t.log|
      ensures EventFits(t, t.log[a])
    {
      EventStaysFit(s, t, s.log[a]);
    }
    hide Appended, Fits, DutifulRetry, DutifulOwn, AllKept, AllFit, Panicked;
    forall r | 0 <= r < |t.retries|
      ensures DutifulRetry(t, r)
    {
      AppendKeepsRetry(s, t, r);
    }
    forall j | 0 <= j < |t.runs|
      ensures DutifulOwn(t, j)
      ensures BeforeAdmission(t.runs[j].phase) || Working(t.runs[j].phase) ==> !Panicked(t, j)
    {
      AppendKeepsOwn(s, t, j);
    }
  }

  lemma SameWorkKeepsTold(s: Sys, t: Sys)
    requires Told(s) && SameWork(s, t)
    ensures Told(t)
  {
    hide Born, Made, RemovedBefore;
    forall j | 0 <= j < |t.runs|
      ensures DutifulOwn(t, j) && Kept(t, j) && (Panicked(t, j) == Panicked(s, j))
    {
      assert DutifulOwn(s, j) && Kept(s, j);
    }
    forall r | 0 <= r < |t.retries|
      ensures DutifulRetry(t, r)
    {
      assert DutifulRetry(s, r);
    }
    forall a | 0 <= a < |t.log|
      ensures EventFits(t, t.log[a])
    {
      EventStaysFit(s, t, s.log[a]);
    }
  }

  lemma SoundIsPrepared(g: Graph, limit: nat, s: Sys)
    requires WellFormed(g) && Sound(g, limit, s) && Told(s)
    ensures Prepared(g, s)
  {
    hide AllKept, AllFit, AllDutiful, Ordered, Traced, Balanced, NodeOrdered, Chains, Staged, Inherits;
    hide Records.Removals, Conserved, Identified, Listed, OpsHaveParents, OpValid;
    ValidOpsHaveParents(g, s);
  }

  lemma MoveKeepsTold(g: Graph, limit: nat, s: Sys, j: nat, m: Move)
    requires WellFormed(g) && Sound(g, limit, s) && Told(s) && j < |s.runs| && Fits(s) && MayMove(g, limit, s, j, m)
    ensures Told(Moved(g, limit, s, j, m))
  {
    hide Sound, Fits, MayMove, Moved, PhaseStep, Speaks, Local, Prepared, AllKept, AllFit, AllDutiful;
    var t := Moved(g, limit, s, j, m);
    SoundIsPrepared(g, limit, s);
    MoveIsLocal(g, limit, s, j, m);
    MoveRuns(g, limit, s, j, m);
    MoveSpeaks(g, limit, s, j, m);
    MoveKeepsDutiful(g, s, t, j);
    MoveKeepsKept(g, s, t, j);
    MoveKeepsFit(g, s, t, j);
  }

  lemma MoveRuns(g: Graph, limit: nat, s: Sys, j: nat, m: Move)
    requires Fits(s) && j < |s.runs| && MayMove(g, limit, s, j, m)
    ensures var t := Moved(g, limit, s, j, m);
            |t.runs| == |s.runs| == |s.sch.ops| && PhaseStep(g, s, j, t.runs[j])
  {
    MoveSteps(g, limit, s, j, m);
    hide Effect, Turn, MayMove, PhaseStep;
  }

  lemma StepKeepsTold(g: Graph, limit: nat, s: Sys, step: Step)
    requires WellFormed(g) && Sound(g, limit, s) && Shape(g, s) && Told(s) && Enabled(g, limit, s, step)
    ensures Told(Taken(g, limit, s, step))
  {
    hide Sound, Valid, Fits, Told, Moved, MayMove, Dispatched, Appended, Legal, Free, MayRoll;
    match step
    case Decide(Do(i, act)) =>
      DispatchedAppends(g, s, i, act);
      AppendKeepsTold(s, Dispatched(g, s, i, act));
    case Decide(Replace(root)) => SameWorkKeepsTold(s, Taken(g, limit, s, step));
    case Cancel => SameWorkKeepsTold(s, Taken(g, limit, s, step));
    case Advance(j, m) => MoveKeepsTold(g, limit, s, j, m);
  }

  lemma {:induction false} ReachIsTold(g: Graph, limit: nat, steps: seq<Step>)
    requires WellFormed(g) && Reach(g, limit, steps).Some?
    ensures Told(Reach(g, limit, steps).value)
  {
    hide Sound, Shape, Told, Enabled, Taken, Start;
    if steps == [] {
      NothingTold(g);
    } else {
      var before := steps[..|steps| - 1];
      ReachIsTold(g, limit, before);
      var s := Reach(g, limit, before).value;
      SoundHasShape(g, limit, s);
      StepKeepsTold(g, limit, s, steps[|steps| - 1]);
    }
  }

  lemma NothingTold(g: Graph)
    ensures Told(Start(g))
  {
  }

  lemma OneMoreRemoval(log: seq<Event>, e: Event, c: nat, j: nat)
    ensures RemovedBy(log + [e], c, j) <==> RemovedBy(log, c, j) || (Removes(e, c) && e.op == j)
  {
    hide Removes;
    var more := log + [e];
    assert more[|log|] == e && forall a :: 0 <= a < |log| ==> more[a] == log[a];
  }

  lemma OthersStayJudged(g: Graph, s: Sys, t: Sys, i: nat, j: nat)
    requires Prepared(g, s) && Moves(g, s, t, i) && j < |s.runs| && j != i && Judged(s, j)
    ensures |t.runs| == |t.sch.ops| && Judged(t, j)
  {
    MoveLogs(g, s, t, i);
    if s.runs[j].admitted {
      AdmittedHasCauses(g, s, j);
    }
    hide Ordered, Traced, OpsHaveParents, Staged, Inherits, Records.Removals, AllKept, AllFit, AllDutiful, EventFits;
    hide NodeOrdered, Chains, PhaseStep, Speaks, Born, RemovedBy;
    if t.log != s.log {
      var e :| t.log == s.log + [e] && e.op == i && EventFits(s, e);
      OneMoreEvent(s.log, e);
      OneMoreRemoval(s.log, e, s.sch.ops[j].create, j);
    }
  }

  // The operation's own delete: nothing to delete, or a call that comes back.
  lemma OwnIsJudged(g: Graph, s: Sys, t: Sys, i: nat)
    requires Prepared(g, s) && Moves(g, s, t, i) && Judged(s, i) && s.sch.ops[i].act == Delete
    ensures |t.runs| == |t.sch.ops| && Judged(t, i)
  {
    assert StagedAt(s, i) && OrderedAt(s, i) && DutifulOwn(s, i) && s.runs[i].lo == s.runs[i].hi;
    assert Working(s.runs[i].phase) ==> s.runs[i].deleteFailed && s.runs[i].phase.r == s.runs[i].hi;
    OwnNotYetRemoved(s, i);
    hide Traced, Inherits, Records.Removals, AllFit, AllDutiful, StagedAt, Staged;
    hide Chains, RetryCalls, Born, RemovedBy, Answers, DutifulOwn, Counts;
    if s.runs[i].phase.Running? {
      OwnCallsWhenDue(g, s, i);
      BegunIsJudged(s, t, i);
    } else if s.runs[i].phase.Calling? {
      var out :| Answers(s, t, i, s.runs[i].phase.r, out);
      AnsweredIsJudged(s, t, i, out);
    } else {
      QuietLogs(s, t, i);
      QuietIsJudged(g, s, t, i);
    }
  }

  // No Delete of operation i's own has come back before its turn is over.
  lemma OwnNotYetRemoved(s: Sys, i: nat)
    requires i < |s.runs| == |s.sch.ops| && DutifulOwn(s, i) && s.sch.ops[i].act == Delete
    ensures !IsPast(s.runs[i], s.runs[i].hi) || IsCalling(s.runs[i], s.runs[i].hi) ==>
              !RemovedBy(s.log, s.sch.ops[i].create, i)
    ensures IsCalling(s.runs[i], s.runs[i].hi) ==> Born(s.log, s.sch.ops[i].create)
  {
    var c := s.sch.ops[i].create;
    CountedIsThere(s.log, i, c, Delete, true);
    if RemovedBy(s.log, c, i) {
      var a :| 0 <= a < |s.log| && Removes(s.log[a], c) && s.log[a].op == i;
      assert About(s.log[a], i, c, Delete, true);
    }
  }

  lemma BegunIsJudged(s: Sys, t: Sys, i: nat)
    requires i < |s.runs| == |s.sch.ops| == |t.runs| && t.sch == s.sch && Speaks(s, t, i) && s.sch.ops[i].act == Delete
    requires s.runs[i].phase == Running(s.runs[i].hi) && s.runs[i].deleteFailed && t.runs[i].hi == s.runs[i].hi
    requires OwnCalls(s, i) <==> Born(s.log, s.sch.ops[i].create)
    requires !RemovedBy(s.log, s.sch.ops[i].create, i)
    ensures Judged(t, i)
  {
    hide OwnCalls, Born, RemovedBy, Resolve;
    if t.log != s.log {
      var e := t.log[|s.log|];
      assert t.log == s.log + [e];
      OneMoreEvent(s.log, e);
      OneMoreRemoval(s.log, e, s.sch.ops[i].create, i);
    }
  }

  lemma AnsweredIsJudged(s: Sys, t: Sys, i: nat, out: Outcome)
    requires i < |s.runs| == |s.sch.ops| == |t.runs| && t.sch == s.sch && s.sch.ops[i].act == Delete
    requires s.runs[i].phase == Calling(s.runs[i].hi) && s.runs[i].deleteFailed && t.runs[i].hi == s.runs[i].hi
    requires Answers(s, t, i, s.runs[i].hi, out) && Born(s.log, s.sch.ops[i].create)
    requires !RemovedBy(s.log, s.sch.ops[i].create, i)
    ensures Judged(t, i)
  {
    hide Born, RemovedBy, Resolve;
    var e := t.log[|s.log|];
    assert t.log == s.log + [e];
    OneMoreEvent(s.log, e);
    OneMoreRemoval(s.log, e, s.sch.ops[i].create, i);
  }

  lemma QuietIsJudged(g: Graph, s: Sys, t: Sys, i: nat)
    requires Fits(s) && i < |s.runs| == |t.runs| && t.sch == s.sch && OrderedAt(s, i) && Judged(s, i)
    requires Speaks(s, t, i) && PhaseStep(g, s, i, t.runs[i]) && !Working(s.runs[i].phase)
    ensures Judged(t, i)
  {
    assert s.runs[i].lo <= s.runs[i].hi;
    hide Born, RemovedBy, Fits;
  }

  lemma MoveKeepsJudged(g: Graph, s: Sys, t: Sys, i: nat)
    requires Prepared(g, s) && Moves(g, s, t, i) && AllJudged(s)
    ensures |t.runs| == |t.sch.ops| && AllJudged(t)
  {
    assert |t.runs| == |t.sch.ops| == |s.runs| && i < |s.runs| && t.sch == s.sch;
    assert forall j :: 0 <= j < |s.runs| ==> Judged(s, j);
    hide Prepared, Moves;
    forall j | 0 <= j < |t.runs|
      ensures Judged(t, j)
    {
      if j != i {
        OthersStayJudged(g, s, t, i, j);
      } else if s.sch.ops[i].act == Delete {
        OwnIsJudged(g, s, t, i);
      }
    }
  }

  lemma StepKeepsJudged(g: Graph, limit: nat, s: Sys, step: Step)
    requires WellFormed(g) && Sound(g, limit, s) && Shape(g, s) && Told(s) && Enabled(g, limit, s, step)
    requires |s.runs| == |s.sch.ops| && AllJudged(s)
    ensures var t := Taken(g, limit, s, step); |t.runs| == |t.sch.ops| && AllJudged(t)
  {
    hide Sound, Valid, Fits, Told, Moved, MayMove, Dispatched, Appended, Legal, Free, MayRoll, AllJudged;
    match step
    case Decide(Do(i, act)) =>
      DispatchedAppends(g, s, i, act);
      MoreKeepsJudged(s, Dispatched(g, s, i, act));
    case Decide(Replace(root)) => SameKeepsJudged(s, Taken(g, limit, s, step));
    case Cancel => SameKeepsJudged(s, Taken(g, limit, s, step));
    case Advance(j, m) => MovedIsJudged(g, limit, s, j, m);
  }

  lemma MovedIsJudged(g: Graph, limit: nat, s: Sys, j: nat, m: Move)
    requires WellFormed(g) && Sound(g, limit, s) && Told(s) && j < |s.runs| && Fits(s) && MayMove(g, limit, s, j, m)
    requires AllJudged(s)
    ensures var t := Moved(g, limit, s, j, m); |t.runs| == |t.sch.ops| && AllJudged(t)
  {
    hide Sound, Fits, MayMove, Moved, PhaseStep, Speaks, Local, Prepared, AllJudged;
    SoundIsPrepared(g, limit, s);
    MoveIsLocal(g, limit, s, j, m);
    MoveRuns(g, limit, s, j, m);
    MoveSpeaks(g, limit, s, j, m);
    MoveKeepsJudged(g, s, Moved(g, limit, s, j, m), j);
  }

  lemma MoreKeepsJudged(s: Sys, t: Sys)
    requires Appended(s, t) && AllJudged(s)
    ensures AllJudged(t)
  {
    hide Born, RemovedBy;
    forall j | 0 <= j < |t.runs|
      ensures Judged(t, j)
    {
      assert j < |s.runs| ==> Judged(s, j);
    }
  }

  lemma SameKeepsJudged(s: Sys, t: Sys)
    requires SameWork(s, t) && |s.runs| == |s.sch.ops| && AllJudged(s)
    ensures AllJudged(t)
  {
    hide Born, RemovedBy;
    forall j | 0 <= j < |t.runs|
      ensures Judged(t, j)
    {
      assert Judged(s, j);
    }
  }

  lemma {:induction false} ReachIsJudged(g: Graph, limit: nat, steps: seq<Step>)
    requires WellFormed(g) && Reach(g, limit, steps).Some?
    ensures var s := Reach(g, limit, steps).value; |s.runs| == |s.sch.ops| && AllJudged(s)
  {
    hide Sound, Shape, Told, Enabled, Taken, Start, AllJudged;
    if steps == [] {
      NothingJudged(g);
    } else {
      var before := steps[..|steps| - 1];
      ReachIsJudged(g, limit, before);
      ReachIsTold(g, limit, before);
      var s := Reach(g, limit, before).value;
      SoundHasShape(g, limit, s);
      StepKeepsJudged(g, limit, s, steps[|steps| - 1]);
    }
  }

  lemma NothingJudged(g: Graph)
    ensures |Start(g).runs| == |Start(g).sch.ops| && AllJudged(Start(g))
  {
  }

  /** What the calls of a run have been when operation j comes to its retry r: none
      before its turn; one in flight only if it is due; and once an admitted
      operation none of whose retries panicked is past it, one, come back, exactly if
      the instance has an id and no Delete by an operation before has removed it. */
  lemma RetriesAreMade(g: Graph, limit: nat, steps: seq<Step>, s: Sys, r: nat)
    requires WellFormed(g) && Reach(g, limit, steps) == Some(s) && r < |s.retries|
    ensures |s.runs| == |s.sch.ops| && s.retries[r].owner < |s.runs|
    ensures var j, c := s.retries[r].owner, s.retries[r].create;
            var started, ended := CallsOn(s.log, j, c, Delete, false), CallsOn(s.log, j, c, Delete, true);
            var due := Born(s.log, c) && !RemovedBefore(s.log, c, j);
            && (!IsPast(s.runs[j], r) && !IsCalling(s.runs[j], r) ==> started == ended == 0)
            && (IsCalling(s.runs[j], r) ==> due && started == 1 && ended == 0)
            && (IsPast(s.runs[j], r) && Intact(s, j) ==> started == ended == if due then 1 else 0)
            && (IsPast(s.runs[j], r) && !Intact(s, j) ==> started == ended <= if due then 1 else 0)
  {
    hide Sound, Reach, AllKept, AllFit, Panicked;
    ReachIsTold(g, limit, steps);
    assert DutifulRetry(s, r);
  }

  /** And when it comes to its own call: it makes it exactly if its parents' creates
      succeeded, for a create or a mutate, its instance has an id, for a delete, and
      its instance's create succeeded, for a mutate. */
  lemma OwnCallsAreMade(g: Graph, limit: nat, steps: seq<Step>, s: Sys, j: nat)
    requires WellFormed(g) && Reach(g, limit, steps) == Some(s) && j < |s.runs|
    ensures |s.runs| == |s.sch.ops|
    ensures var o, run := s.sch.ops[j], s.runs[j];
            var started, ended := CallsOn(s.log, j, o.create, o.act, false), CallsOn(s.log, j, o.create, o.act, true);
            var due := match o.act
                       case Create => forall p :: p in o.parentOps ==> Made(s.log, p)
                       case Delete => Born(s.log, o.create)
                       case Mutate => Made(s.log, o.create) && forall p :: p in o.parentOps ==> Made(s.log, p);
            && (!IsPast(run, run.hi) && !IsCalling(run, run.hi) ==> started == ended == 0)
            && (IsCalling(run, run.hi) ==> due && started == 1 && ended == 0)
            && (IsPast(run, run.hi) ==> started == ended == if Intact(s, j) && due then 1 else 0)
  {
    hide Sound, Reach, AllKept, AllFit, Panicked;
    ReachIsTold(g, limit, steps);
    assert DutifulOwn(s, j);
  }

  /** There are no other calls. */
  lemma CallsHaveOwners(g: Graph, limit: nat, steps: seq<Step>, s: Sys, a: nat)
    requires WellFormed(g) && Reach(g, limit, steps) == Some(s) && a < |s.log|
    ensures var e := s.log[a];
            && e.op < |s.runs| == |s.sch.ops| && s.runs[e.op].admitted
            && (|| (e.target == s.sch.ops[e.op].create && e.act == s.sch.ops[e.op].act)
                || (e.act == Delete && exists r :: 0 <= r < |s.retries| && s.retries[r].owner == e.op
                                                   && s.retries[r].create == e.target))
  {
    ReachIsTold(g, limit, steps);
    assert EventFits(s, s.log[a]);
    hide Valid, Ordered, Balanced, Recorded, Conserved, Identified, Reach, AllKept, AllDutiful;
  }

  /** Created in terms of the calls alone: after the drain it lists the instances
      whose create came back with an id and none of whose Deletes came back with nil,
      and the cycles are the Deletes that did, one for an instance. */
  lemma CreatedIsLogged(g: Graph, limit: nat, steps: seq<Step>, s: Sys)
    requires WellFormed(g) && Reach(g, limit, steps) == Some(s) && Created.Drained(s)
    ensures |s.sch.ns| == |s.retired|
    ensures forall c: nat :: c in Created.Live(s) <==> Born(s.log, c) && c !in RemovedIn(s.log)
    ensures s.cycles == |RemovedIn(s.log)| && NoRepeats(RemovedIn(s.log))
  {
    hide Sound, Reach, AllFit, AllDutiful, Created.Live, Created.Drained, Born, Made, RemovedIn, NoRepeats;
    ReachIsTold(g, limit, steps);
    Created.CreatedIsExact(g, limit, steps, s);
    CyclesAreRemovals(g, limit, s);
    forall c: nat
      ensures c in Created.Live(s) <==> Born(s.log, c) && c !in RemovedIn(s.log)
    {
      if Born(s.log, c) {
        BornIsCreate(s, c);
        assert Kept(s, c);
      } else if c < |s.runs| {
        assert Kept(s, c);
      }
    }
  }

  lemma CyclesAreRemovals(g: Graph, limit: nat, s: Sys)
    requires WellFormed(g) && Sound(g, limit, s)
    ensures s.cycles == |s.removed| && NoRepeats(s.removed)
  {
    hide Valid, Ordered, Traced, Balanced, Conserved, Identified, Chains, Staged, Inherits, Listed, NodeOrdered;
  }

  /** A delete that ran counts as failed exactly if its instance had an id and its own
      call did not come back with nil. */
  lemma DeletesAreJudged(g: Graph, limit: nat, steps: seq<Step>, s: Sys, j: nat)
    requires WellFormed(g) && Reach(g, limit, steps) == Some(s) && j < |s.runs| == |s.sch.ops|
    requires s.sch.ops[j].act == Delete && s.runs[j].admitted && s.runs[j].phase.Finished?
    ensures s.runs[j].deleteFailed <==> Born(s.log, s.sch.ops[j].create) && !RemovedBy(s.log, s.sch.ops[j].create, j)
  {
    hide Sound, Reach, Born, RemovedBy;
    ReachIsJudged(g, limit, steps);
    assert Judged(s, j);
  }

  /** In every state Created lists only instances whose create has finished and came
      back with an id, and every such instance no Delete of which came back with nil. */
  lemma CreatedFollowsLog(g: Graph, limit: nat, steps: seq<Step>, s: Sys, c: nat)
    requires WellFormed(g) && Reach(g, limit, steps) == Some(s)
    ensures |s.sch.ns| == |s.retired|
    ensures c in Created.Live(s) ==> c < |s.runs| && s.runs[c].phase.Finished? && Born(s.log, c)
    ensures c < |s.runs| && s.runs[c].phase.Finished? && Born(s.log, c) && c !in RemovedIn(s.log) ==>
              c in Created.Live(s)
  {
    hide Sound, Reach, AllFit, AllDutiful, Created.Live, Born, Made, RemovedIn, NoRepeats;
    ReachIsTold(g, limit, steps);
    Created.CreatedIsSuperset(g, limit, steps, s);
    if c < |s.runs| {
      assert Kept(s, c);
      if Born(s.log, c) {
        BornIsCreate(s, c);
      }
    }
  }

  lemma BornIsCreate(s: Sys, c: nat)
    requires |s.runs| == |s.sch.ops| && AllFit(s) && Born(s.log, c)
    ensures c < |s.runs| && s.sch.ops[c].act == Create
  {
    var a :| 0 <= a < |s.log| && Yields(s.log[a], c);
    assert EventFits(s, s.log[a]);
  }
}
