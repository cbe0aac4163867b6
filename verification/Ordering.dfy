/** Which order the cloud calls of a run take: an operation that is admitted has
    every predecessor behind it, whatever the interleaving and the cancellation. */
module Ordering {
  import opened Options
  import opened Graphs
  import opened Scheduling
  import opened Execution

  // How one move changes the run of operation j.
  ghost predicate PhaseStep(g: Graph, s: Sys, j: nat, r': Run)
    requires Fits(s) && j < |s.runs|
  {
    var r := s.runs[j];
    var deps := s.sch.ops[j].deps;
    var afterSlot := AfterSlot(g, s, j);
    && r'.lo == r.lo && r'.hi == r.hi
    && (r'.admitted <==> r.admitted || (r.phase.Won? && !s.cancelled))
    && match r.phase
       case Parked => r'.phase == Waiting(0)
       case Waiting(k) =>
         || (k < |deps| && r'.phase == Waiting(k + 1) && DoneH(s, Own(deps[k])))
         || (k == |deps| && r'.phase == Gated)
         || (s.cancelled && r'.phase == Settling(r.lo))
       case Gated => r'.phase == Won || (s.cancelled && r'.phase == afterSlot)
       case Won => r'.phase == if s.cancelled then Leaving else Running(r.lo)
       case Running(x) =>
         if x < r.hi then r'.phase == Running(x + 1) || r'.phase == Calling(x)
         else r'.phase == Calling(x) || r'.phase == Leaving
       case Calling(x) => r'.phase == Leaving || (x < r.hi && r'.phase == Running(x + 1))
       case Leaving => r'.phase == afterSlot
       case Ungating => r'.phase == Settling(r.lo)
       case Settling(x) => if x < r.hi then r'.phase == Settling(x + 1) else r'.phase == Closing
       case Closing => r'.phase == Finished
       case Finished => false
  }

  // What no move changes, and the one run it does.
  ghost predicate Local(s: Sys, t: Sys, j: nat)
  {
    && t.sch == s.sch && t.cancelled == s.cancelled && t.retired == s.retired && t.att == s.att
    && |t.runs| == |s.runs|
    && (forall i :: 0 <= i < |s.runs| && i != j ==> t.runs[i] == s.runs[i])
    && SameRetries(s.retries, t.retries)
  }

  lemma MoveIsLocal(g: Graph, limit: nat, s: Sys, j: nat, m: Move)
    requires Fits(s) && j < |s.runs| && MayMove(g, limit, s, j, m)
    ensures Local(s, Moved(g, limit, s, j, m), j)
  {
  }

  lemma MoveSteps(g: Graph, limit: nat, s: Sys, j: nat, m: Move)
    requires Fits(s) && j < |s.runs| && MayMove(g, limit, s, j, m)
    ensures PhaseStep(g, s, j, Turn(g, limit, s, j, m))
  {
  }

  lemma MoveKeepsFits(g: Graph, s: Sys, t: Sys, j: nat)
    requires Fits(s) && j < |s.runs| && Local(s, t, j) && PhaseStep(g, s, j, t.runs[j])
    ensures Fits(t)
  {
  }

  predicate Behind(s: Sys, d: nat) { d < |s.runs| && s.runs[d].phase.Finished? && s.runs[d].admitted }

  predicate PastWaiting(p: Phase) { !p.Parked? && !p.Waiting? }

  // What the phase of operation j says about the operations before it.
  ghost predicate OrderedAt(s: Sys, j: nat)
    requires Fits(s) && j < |s.runs|
  {
    var r := s.runs[j];
    var o := s.sch.ops[j];
    && (r.phase.Waiting? ==> forall k :: 0 <= k < r.phase.k ==> DoneH(s, Own(o.deps[k])))
    && (r.phase.Gated? || r.phase.Won? ==> forall d :: d in o.deps ==> DoneH(s, Own(d)))
    && (r.admitted ==> PastWaiting(r.phase) && !r.phase.Gated? && !r.phase.Won?)
    && (r.phase.Running? || r.phase.Calling? ==> r.admitted)
    && (r.admitted ==> forall d :: d in o.past ==> Behind(s, d))
    && (!r.admitted && PastWaiting(r.phase) && !r.phase.Gated? && !r.phase.Won? ==> s.cancelled)
  }

  ghost predicate Ordered(s: Sys)
    requires Fits(s)
  {
    forall j :: 0 <= j < |s.runs| ==> OrderedAt(s, j)
  }

  // An operation that wins its slot while the run is live has every
  // predecessor finished and admitted.
  lemma WonIsBehind(g: Graph, s: Sys, j: nat)
    requires Linked(g) && Fits(s) && Ordered(s) && j < |s.runs| && OpValid(g, s.sch.ops, j)
    requires s.runs[j].phase.Won? && !s.cancelled
    ensures forall d :: d in s.sch.ops[j].past ==> Behind(s, d)
  {
    var o := s.sch.ops[j];
    assert OrderedAt(s, j);
    forall d | d in o.deps
      ensures Behind(s, d) && forall x :: x in s.sch.ops[d].past ==> Behind(s, x)
    {
      assert OrderedAt(s, d);
    }
  }

  lemma MoveKeepsOrdered(g: Graph, s: Sys, t: Sys, j: nat)
    requires Linked(g) && Fits(s) && Ordered(s) && j < |s.runs| && OpValid(g, s.sch.ops, j)
    requires Local(s, t, j) && PhaseStep(g, s, j, t.runs[j]) && Fits(t)
    ensures Ordered(t)
  {
    MovedRunIsOrdered(g, s, t, j);
    forall i | 0 <= i < |t.runs| && i != j
      ensures OrderedAt(t, i)
    {
      OthersStayOrdered(g, s, t, j, i);
    }
  }

  lemma MovedRunIsOrdered(g: Graph, s: Sys, t: Sys, j: nat)
    requires Linked(g) && Fits(s) && Ordered(s) && j < |s.runs| && OpValid(g, s.sch.ops, j)
    requires Local(s, t, j) && PhaseStep(g, s, j, t.runs[j]) && Fits(t)
    ensures OrderedAt(t, j)
  {
    assert OrderedAt(s, j);
    assert forall d :: Behind(s, d) ==> Behind(t, d);
    assert forall d :: DoneH(s, Own(d)) ==> DoneH(t, Own(d));
    if s.runs[j].phase.Won? && !s.cancelled {
      WonIsBehind(g, s, j);
    }
  }

  lemma OthersStayOrdered(g: Graph, s: Sys, t: Sys, j: nat, i: nat)
    requires Fits(s) && j < |s.runs| && i < |s.runs| && i != j && OrderedAt(s, i)
    requires Local(s, t, j) && PhaseStep(g, s, j, t.runs[j]) && Fits(t)
    ensures OrderedAt(t, i)
  {
    assert forall d :: Behind(s, d) ==> Behind(t, d);
    assert forall d :: DoneH(s, Own(d)) ==> DoneH(t, Own(d));
  }

  lemma AppendKeepsOrdered(s: Sys, t: Sys)
    requires Fits(s) && Ordered(s) && Appended(s, t) && Fits(t)
    ensures Ordered(t)
  {
    assert forall d :: Behind(s, d) ==> Behind(t, d);
    forall i | 0 <= i < |t.runs|
      ensures OrderedAt(t, i)
    {
      assert i < |s.runs| ==> OrderedAt(s, i);
    }
  }

  // Every call in the log was made by an admitted operation, and no call of an
  // operation follows one of an operation behind which it is.
  ghost predicate Traced(s: Sys)
    requires Fits(s)
  {
    && (forall a :: 0 <= a < |s.log| ==> s.log[a].op < |s.runs| && s.runs[s.log[a].op].admitted)
    && (forall a, b :: 0 <= a < b < |s.log| ==> s.log[b].op !in s.sch.ops[s.log[a].op].past)
  }

  // How many calls of operation j have started, and how many have ended.
  function Calls(log: seq<Event>, j: nat, start: bool): nat
  {
    if log == [] then 0
    else
      var e := log[|log| - 1];
      Calls(log[..|log| - 1], j, start) + if e.op == j && e.back.None? == start then 1 else 0
  }

  // An operation makes one call at a time.
  ghost predicate Balanced(s: Sys)
  {
    && (forall a :: 0 <= a < |s.log| ==> s.log[a].op < |s.runs|)
    && forall j :: 0 <= j < |s.runs| ==>
         Calls(s.log, j, true) == Calls(s.log, j, false) + if s.runs[j].phase.Calling? then 1 else 0
  }

  // A move logs a start exactly when its operation enters a call, and an end
  // when it leaves one.
  ghost predicate LogStep(s: Sys, t: Sys, j: nat)
    requires j < |s.runs| == |t.runs|
  {
    var before, after := s.runs[j].phase.Calling?, t.runs[j].phase.Calling?;
    if before == after then t.log == s.log
    else
      && |t.log| == |s.log| + 1 && t.log == s.log + [t.log[|s.log|]]
      && t.log[|s.log|].op == j && t.log[|s.log|].back.None? == after
  }

  lemma BeginRetryLogs(s: Sys, j: nat, r: nat)
    requires r < |s.retries|
    ensures RetryCalls(s, r) ==>
              BeginRetry(s, j, r).log ==
              s.log + [Event(j, s.retries[r].create, Delete, IdsH(s, s.retries[r].prev), None)]
    ensures !RetryCalls(s, r) ==> BeginRetry(s, j, r).log == s.log
  {
  }

  lemma BeginLogs(g: Graph, limit: nat, s: Sys, j: nat)
    requires Fits(s) && j < |s.runs| && MayMove(g, limit, s, j, Begin)
    ensures LogStep(s, Moved(g, limit, s, j, Begin), j)
  {
    if s.runs[j].phase.r < s.runs[j].hi {
      BeginRetryLogs(s, j, s.runs[j].phase.r);
    }
    hide OwnCalls, RetryCalls, Gate, Resolve, BeginRetry;
  }

  lemma ReturnLogs(g: Graph, limit: nat, s: Sys, j: nat, out: Outcome)
    requires Fits(s) && j < |s.runs| && MayMove(g, limit, s, j, Return(out))
    ensures LogStep(s, Moved(g, limit, s, j, Return(out)), j)
  {
    hide OwnCalls, RetryCalls, Gate, Resolve;
  }

  lemma MoveLogsPhase(g: Graph, limit: nat, s: Sys, j: nat, m: Move)
    requires Fits(s) && j < |s.runs| && MayMove(g, limit, s, j, m)
    ensures LogStep(s, Moved(g, limit, s, j, m), j)
  {
    hide OwnCalls, RetryCalls, DoneH, FailedH, Gate, Resolve, BeginRetry, EndRetry;
    match m
    case Begin => BeginLogs(g, limit, s, j);
    case Return(out) => ReturnLogs(g, limit, s, j, out);
    case _ =>
  }

  lemma MoveKeepsBalanced(s: Sys, t: Sys, j: nat)
    requires Local(s, t, j) && j < |s.runs| && LogStep(s, t, j) && Balanced(s)
    ensures Balanced(t)
  {
    if t.log != s.log {
      var n := |s.log|;
      assert t.log[..|t.log| - 1] == s.log;
      assert forall a :: 0 <= a < n ==> t.log[a] == s.log[a];
      forall i | 0 <= i < |t.runs|
        ensures Calls(t.log, i, true) == Calls(t.log, i, false) + if t.runs[i].phase.Calling? then 1 else 0
      {
        var e := t.log[n];
        assert Calls(t.log, i, true) == Calls(s.log, i, true) + if e.op == i && e.back.None? then 1 else 0;
        assert Calls(t.log, i, false) == Calls(s.log, i, false) + if e.op == i && !e.back.None? then 1 else 0;
      }
    }
  }

  lemma {:induction false} NoCallsYet(log: seq<Event>, j: nat, start: bool)
    requires forall a :: 0 <= a < |log| ==> log[a].op < j
    ensures Calls(log, j, start) == 0
  {
    if log != [] {
      NoCallsYet(log[..|log| - 1], j, start);
    }
  }

  lemma AppendKeepsBalanced(s: Sys, t: Sys)
    requires Appended(s, t) && Balanced(s)
    ensures Balanced(t)
  {
    NoCallsYet(s.log, |s.runs|, true);
    NoCallsYet(s.log, |s.runs|, false);
  }

  lemma MoveKeepsTraced(g: Graph, s: Sys, t: Sys, j: nat)
    requires Fits(s) && Fits(t) && Ordered(s) && Traced(s) && j < |s.runs| && Local(s, t, j)
    requires LogStep(s, t, j) && PhaseStep(g, s, j, t.runs[j])
    ensures Traced(t)
  {
    assert OrderedAt(s, j);
    assert forall a :: 0 <= a < |s.log| ==> t.log[a] == s.log[a];
    forall a | 0 <= a < |s.log| && |t.log| > |s.log|
      ensures j !in s.sch.ops[s.log[a].op].past
    {
      assert OrderedAt(s, s.log[a].op);
    }
  }

  lemma AppendKeepsTraced(s: Sys, t: Sys)
    requires Fits(s) && Fits(t) && Traced(s) && Appended(s, t)
    ensures Traced(t)
  {
  }
}
