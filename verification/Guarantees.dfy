/** What every run keeps: the order of its cloud calls, the ids they pass and the
    bounds on concurrency. */
module Guarantees {
  import opened Options
  import opened Graphs
  import opened Scheduling
  import opened Policy
  import opened Execution
  import opened Ordering
  import opened Records
  import opened Tokens
  import opened Identities
  import opened Runs
  import opened Created

  lemma EarlierCallsFirst(s: Sys, a: nat, b: nat, y: nat)
    requires Fits(s) && Ordered(s) && Traced(s) && Balanced(s)
    requires a < b < |s.runs| && a in s.sch.ops[b].past && y < |s.log| && s.log[y].op == b
    ensures Behind(s, a) && Calls(s.log, a, true) == Calls(s.log, a, false)
    ensures forall x :: 0 <= x < |s.log| && s.log[x].op == a ==> x < y
  {
    assert OrderedAt(s, b);
    forall x | 0 <= x < |s.log| && s.log[x].op == a
      ensures x < y
    {
      assert s.log[x].op in s.sch.ops[s.log[y].op].past;
    }
  }

  /** Once an operation has made a call, every operation it is behind, directly or
      not, really ran to its end, and all its calls came before. */
  lemma PredecessorsCallFirst(g: Graph, limit: nat, steps: seq<Step>, s: Sys, a: nat, b: nat, y: nat)
    requires WellFormed(g) && Reach(g, limit, steps) == Some(s)
    requires b < |s.sch.ops| && a in s.sch.ops[b].past && y < |s.log| && s.log[y].op == b
    ensures Behind(s, a) && Calls(s.log, a, true) == Calls(s.log, a, false)
    ensures forall x :: 0 <= x < |s.log| && s.log[x].op == a ==> x < y
  {
    assert a < b by { PastIsEarlier(g, limit, s, a, b); }
    hide Valid, Recorded, Conserved, Identified, Ordered, Traced, Balanced;
    EarlierCallsFirst(s, a, b, y);
  }

  lemma PastIsEarlier(g: Graph, limit: nat, s: Sys, a: nat, b: nat)
    requires WellFormed(g) && Sound(g, limit, s) && b < |s.sch.ops| && a in s.sch.ops[b].past
    ensures a < b
  {
  }

  /** The calls of two operations on one node never overlap and come in decision
      order, and so do those of a node's create or delete and any operation of
      its parent or child: a child's calls start after its parent's create has
      ended, and a parent's Delete after every call of its former dependents. */
  lemma ConflictingCallsInOrder(g: Graph, limit: nat, steps: seq<Step>, s: Sys, a: nat, b: nat, y: nat)
    requires WellFormed(g) && Reach(g, limit, steps) == Some(s)
    requires a < b < |s.sch.ops| && y < |s.log| && s.log[y].op == b
    requires s.sch.ops[a].node < |g.nodes| && s.sch.ops[b].node < |g.nodes| && Conflict(g, s.sch.ops[a], s.sch.ops[b])
    ensures Behind(s, a) && Calls(s.log, a, true) == Calls(s.log, a, false)
    ensures forall x :: 0 <= x < |s.log| && s.log[x].op == a ==> x < y
  {
    hide Ordered, Traced, Balanced, Recorded, Conserved, Identified;
    assert a in s.sch.ops[b].past;
    PredecessorsCallFirst(g, limit, steps, s, a, b, y);
  }

  /** Serial rolling replacement: when a delete of a roll makes a call, every
      operation its set had before the roll, deletes and re-creates of earlier
      rolls included, has run to its end. */
  lemma RollsReplaceSerially(g: Graph, limit: nat, steps: seq<Step>, s: Sys, a: nat, b: nat, y: nat)
    requires WellFormed(g) && Reach(g, limit, steps) == Some(s)
    requires b < |s.sch.ops| && y < |s.log| && s.log[y].op == b && s.sch.ops[b].after.Some?
    requires a < |s.sch.ops| && a < s.sch.ops[b].after.value
    requires s.sch.ops[a].node < |g.nodes| && s.sch.ops[b].node < |g.nodes|
    requires g.nodes[s.sch.ops[a].node].roll == g.nodes[s.sch.ops[b].node].roll
    ensures Behind(s, a) && Calls(s.log, a, true) == Calls(s.log, a, false)
    ensures forall x :: 0 <= x < |s.log| && s.log[x].op == a ==> x < y
  {
    hide Ordered, Traced, Balanced, Recorded, Conserved, Identified;
    assert CoversSet(g, s.sch, s.sch.ops[b], s.sch.ops[b].past);
    PredecessorsCallFirst(g, limit, steps, s, a, b, y);
  }

  /** All the calls on one instance, retries of its delete included, pass the
      same parent ids, and none of them is empty. */
  lemma CallsPassOneSetOfIds(g: Graph, limit: nat, steps: seq<Step>, s: Sys, x: nat, y: nat)
    requires WellFormed(g) && Reach(g, limit, steps) == Some(s)
    requires x < |s.log| && y < |s.log| && s.log[x].target == s.log[y].target
    ensures s.log[x].ids == s.log[y].ids && NonEmpty(s.log[x].ids)
  {
    hide Valid, Ordered, Traced, Balanced, Recorded, Conserved;
    assert IdentifiedCall(s, s.log[x]) && IdentifiedCall(s, s.log[y]);
  }

  /** No more operations make cloud calls at once than MaxParallel and Concurrency
      allow, no two of one family, and while the run is live an operation never
      waits for a slot in vain. */
  lemma ConcurrencyIsBounded(g: Graph, cfg: Config, steps: seq<Step>, s: Sys, working: set<nat>)
    requires WellFormed(g) && Reach(g, Limit(cfg), steps) == Some(s)
    requires working == set j | 0 <= j < |s.runs| && (s.runs[j].phase.Running? || s.runs[j].phase.Calling?)
    ensures |working| <= cfg.maxParallel && |working| <= if cfg.concurrency < 1 then 1 else cfg.concurrency
    ensures |s.runs| == |s.sch.ops|
    ensures forall i, j :: i in working && j in working && i != j && Gate(g, s, i).Some? ==>
              Gate(g, s, i) != Gate(g, s, j)
    ensures !s.cancelled ==> forall j :: 0 <= j < |s.runs| && s.runs[j].phase.Gated? ==> s.sem < Limit(cfg)
    ensures forall j :: 0 <= j < |s.runs| && s.runs[j].phase.Gated?
                        && s.sem < cfg.maxParallel && (s.sem == 0 || s.sem < cfg.concurrency) ==>
              MayMove(g, Limit(cfg), s, j, WinSlot)
    ensures Drained(s) ==> s.sem == 0 && s.pending == 0 && s.busy == {}
  {
    hide Valid, Ordered, Traced, Balanced, Recorded, Identified;
    AdmittedAreBounded(g, Limit(cfg), s, working);
    if Drained(s) {
      DrainedHoldsNothing(g, Limit(cfg), s);
    }
    forall j | 0 <= j < |s.runs| && s.runs[j].phase.Gated? && !s.cancelled
      ensures s.sem < Limit(cfg)
    {
      SlotNeverBlocks(g, Limit(cfg), s, j);
    }
  }
}
