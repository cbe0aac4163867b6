/** A provisioning stage: a fixed pool of workers takes the items of a stage from a
    job channel, and the first error stops the dispatch. */
module Stages {
  import opened Options
  import opened Finite

  // ErrQuota may be anywhere in an error's chain.
  datatype Error = Quota(message: string) | Plain(message: string) | Cancelled

  // What the work for an item came back with. A failed one may have created
  // something, which is dropped.
  datatype Outcome = Created(id: string) | Failed(err: Error)

  datatype Worker =
    | Idle              // at the job channel
    | Working(i: nat)   // in the work for item i
    | Raising           // recorded an error, about to cancel the stage
    | Exited

  /** The stage in progress. next is the next item to dispatch, closed whether the
      job channel is, cancelled and parent whether the stage's context and the
      caller's are done. outs and order are history: what the work for each item
      returned, and the items in the order in which it did. */
  datatype Pool = Pool(next: nat, closed: bool, workers: seq<Worker>, results: seq<Option<string>>,
                       errs: seq<Option<Error>>, cancelled: bool, parent: bool, outs: map<nat, Outcome>,
                       order: seq<nat>)

  datatype Step =
    | Dispatch(w: nat) | Close | Return(w: nat, out: Outcome) | Raise(w: nat) | Exit(w: nat) | CancelParent

  function Workers(concurrency: int, items: nat): nat
    requires items > 0
  {
    if concurrency < 1 then 1 else if concurrency > items then items else concurrency
  }

  function Initial(items: nat, concurrency: int): Pool
    requires items > 0
  {
    Pool(0, false, seq(Workers(concurrency, items), _ => Idle), seq(items, _ => None), seq(items, _ => None),
         false, false, map[], [])
  }

  predicate Enabled(p: Pool, step: Step)
  {
    match step
    case Dispatch(w) => w < |p.workers| && p.workers[w].Idle? && !p.closed && p.next < |p.results|
    case Close => !p.closed && (p.cancelled || p.next == |p.results|)
    case Return(w, _) => w < |p.workers| && p.workers[w].Working?
    case Raise(w) => w < |p.workers| && p.workers[w].Raising?
    case Exit(w) => w < |p.workers| && p.workers[w].Idle? && p.closed
    case CancelParent => !p.parent
  }

  predicate Shaped(p: Pool)
  {
    && |p.results| == |p.errs| && p.next <= |p.results|
    && forall w :: 0 <= w < |p.workers| && p.workers[w].Working? ==> p.workers[w].i < p.next
  }

  function Taken(p: Pool, step: Step): Pool
    requires Shaped(p) && Enabled(p, step)
  {
    match step
    case Dispatch(w) => p.(workers := p.workers[w := Working(p.next)], next := p.next + 1)
    case Close => p.(closed := true)
    case Return(w, out) =>
      var i := p.workers[w].i;
      var q := p.(outs := p.outs[i := out], order := p.order + [i]);
      match out {
        case Created(id) => q.(results := p.results[i := Some(id)], workers := p.workers[w := Idle])
        case Failed(e) => q.(errs := p.errs[i := Some(e)], workers := p.workers[w := Raising])
      }
    case Raise(w) => p.(cancelled := true, workers := p.workers[w := Idle])
    case Exit(w) => p.(workers := p.workers[w := Exited])
    case CancelParent => p.(parent := true, cancelled := true)
  }

  // Item i is with exactly one worker, or its work has returned.
  ghost predicate Handled(p: Pool, i: nat)
  {
    i !in p.outs ==> exists w :: 0 <= w < |p.workers| && p.workers[w] == Working(i)
  }

  // The slots hold what the work returned, and nothing for the other items.
  predicate Recorded(p: Pool, i: nat)
    requires i < |p.results| == |p.errs|
  {
    if i !in p.outs then p.results[i] == None && p.errs[i] == None
    else match p.outs[i]
         case Created(id) => p.results[i] == Some(id) && p.errs[i] == None
         case Failed(e) => p.results[i] == None && p.errs[i] == Some(e)
  }

  ghost predicate HasError(p: Pool) { exists i :: 0 <= i < |p.errs| && p.errs[i].Some? }

  ghost predicate IsRaising(p: Pool) { exists w :: 0 <= w < |p.workers| && p.workers[w].Raising? }

  /** What holds in every state of a stage. */
  ghost predicate Sound(p: Pool)
  {
    && Shaped(p) && |p.workers| > 0
    && (forall w :: 0 <= w < |p.workers| && p.workers[w].Working? ==> p.workers[w].i !in p.outs)
    && (forall v, w :: 0 <= v < w < |p.workers| && p.workers[v].Working? ==> p.workers[v] != p.workers[w])
    && (forall i :: i in p.outs ==> i < p.next)
    && NoRepeats(p.order) && (forall i :: i in p.order <==> i in p.outs)
    && (forall i :: 0 <= i < p.next ==> Handled(p, i))
    && (forall i :: 0 <= i < |p.results| ==> Recorded(p, i))
    && (HasError(p) ==> p.cancelled || IsRaising(p)) && (IsRaising(p) ==> HasError(p))
    && (p.cancelled ==> p.parent || HasError(p)) && (p.parent ==> p.cancelled)
    && (p.closed ==> p.next == |p.results| || p.cancelled)
    && (forall w :: 0 <= w < |p.workers| && p.workers[w].Exited? ==> p.closed)
  }

  lemma StepKeepsHandled(p: Pool, step: Step)
    requires Sound(p) && Enabled(p, step)
    ensures forall i :: 0 <= i < Taken(p, step).next ==> Handled(Taken(p, step), i)
  {
    var t := Taken(p, step);
    forall i | 0 <= i < t.next
      ensures Handled(t, i)
    {
      if i < p.next {
        assert Handled(p, i);
        if i !in p.outs {
          var w :| 0 <= w < |p.workers| && p.workers[w] == Working(i);
          assert i !in t.outs ==> t.workers[w] == Working(i);
        }
      } else {
        assert t.workers[step.w] == Working(i);
      }
    }
  }

  lemma StepKeepsRecorded(p: Pool, step: Step)
    requires Sound(p) && Enabled(p, step)
    ensures forall i :: 0 <= i < |p.results| ==> Recorded(Taken(p, step), i)
  {
    hide Handled, HasError, IsRaising;
    forall i | 0 <= i < |p.results|
      ensures Recorded(Taken(p, step), i)
    {
      assert Recorded(p, i);
    }
  }

  lemma StepKeepsErrors(p: Pool, step: Step)
    requires Sound(p) && Enabled(p, step)
    ensures var t := Taken(p, step);
            && (HasError(t) ==> t.cancelled || IsRaising(t)) && (IsRaising(t) ==> HasError(t))
            && (t.cancelled ==> t.parent || HasError(t))
  {
    var t := Taken(p, step);
    if HasError(p) {
      var i :| 0 <= i < |p.errs| && p.errs[i].Some?;
      assert Recorded(p, i);
      assert t.errs[i].Some?;
    }
    if step.Return? && step.out.Failed? {
      assert t.errs[p.workers[step.w].i].Some? && t.workers[step.w].Raising?;
    } else {
      assert t.errs == p.errs;
      if IsRaising(p) && !step.Raise? {
        var w :| 0 <= w < |p.workers| && p.workers[w].Raising?;
        assert t.workers[w].Raising?;
      }
    }
  }

  lemma StepKeepsOrder(p: Pool, step: Step)
    requires Shaped(p) && Enabled(p, step)
    requires NoRepeats(p.order) && (forall i :: i in p.order <==> i in p.outs)
    requires forall w :: 0 <= w < |p.workers| && p.workers[w].Working? ==> p.workers[w].i !in p.outs
    ensures var t := Taken(p, step); NoRepeats(t.order) && forall i :: i in t.order <==> i in t.outs
  {
  }

  lemma StepKeepsShaped(p: Pool, step: Step)
    requires Shaped(p) && |p.workers| > 0 && Enabled(p, step)
    requires forall w :: 0 <= w < |p.workers| && p.workers[w].Working? ==> p.workers[w].i !in p.outs
    requires forall v, w :: 0 <= v < w < |p.workers| && p.workers[v].Working? ==> p.workers[v] != p.workers[w]
    requires forall i :: i in p.outs ==> i < p.next
    ensures var t := Taken(p, step);
            && Shaped(t) && |t.workers| == |p.workers|
            && (forall w :: 0 <= w < |t.workers| && t.workers[w].Working? ==> t.workers[w].i !in t.outs)
            && (forall v, w :: 0 <= v < w < |t.workers| && t.workers[v].Working? ==> t.workers[v] != t.workers[w])
            && (forall i :: i in t.outs ==> i < t.next)
  {
  }

  lemma StepKeepsClosing(p: Pool, step: Step)
    requires Shaped(p) && Enabled(p, step)
    requires (p.parent ==> p.cancelled) && (p.closed ==> p.next == |p.results| || p.cancelled)
    requires forall w :: 0 <= w < |p.workers| && p.workers[w].Exited? ==> p.closed
    ensures var t := Taken(p, step);
            && (t.parent ==> t.cancelled) && (t.closed ==> t.next == |t.results| || t.cancelled)
            && (forall w :: 0 <= w < |t.workers| && t.workers[w].Exited? ==> t.closed)
            && |t.results| == |p.results|
  {
  }

  lemma StepKeepsSound(p: Pool, step: Step)
    requires Sound(p) && Enabled(p, step)
    ensures Sound(Taken(p, step))
  {
    hide Handled, HasError, IsRaising, Recorded, NoRepeats, Enabled, Taken;
    StepKeepsShaped(p, step);
    StepKeepsClosing(p, step);
    StepKeepsOrder(p, step);
    StepKeepsHandled(p, step);
    StepKeepsErrors(p, step);
    StepKeepsRecorded(p, step);
  }

  /** The stage after a sequence of steps, None once one is not possible. */
  ghost function Run(items: nat, concurrency: int, steps: seq<Step>): (r: Option<Pool>)
    requires items > 0
    ensures r.Some? ==> Sound(r.value) && |r.value.results| == items && |r.value.workers| == Workers(concurrency, items)
  {
    if steps == [] then Some(Initial(items, concurrency))
    else
      match Run(items, concurrency, steps[..|steps| - 1])
      case None => None
      case Some(p) =>
        var step := steps[|steps| - 1];
        if Enabled(p, step) then StepKeepsSound(p, step); Some(Taken(p, step)) else None
  }

  /** At most as many items are in work at once as the concurrency allows, and no
      fewer workers are there to take them unless there is one for every item. */
  lemma StageIsBounded(items: nat, concurrency: int, steps: seq<Step>, p: Pool, busy: set<nat>)
    requires items > 0 && Run(items, concurrency, steps) == Some(p)
    requires busy == set w: nat | w < |p.workers| && p.workers[w].Working?
    ensures |busy| <= items && |busy| <= if concurrency < 1 then 1 else concurrency
    ensures 0 < |p.workers| && (|p.workers| >= concurrency || |p.workers| == items)
  {
    BoundedSet(busy, |p.workers|);
  }

  // Every worker has left: the wait is over.
  predicate Over(p: Pool) { forall w :: 0 <= w < |p.workers| ==> p.workers[w].Exited? }

  datatype Verdict = Done | Error(err: Error)

  // The lowest index whose error is a quota one, or the lowest of any error.
  ghost predicate IsFirst(errs: seq<Option<Error>>, quota: bool, i: nat)
  {
    && i < |errs| && errs[i].Some? && (quota ==> errs[i].value.Quota?)
    && forall k :: 0 <= k < i && errs[k].Some? ==> quota && !errs[k].value.Quota?
  }

  ghost predicate NoneOf(errs: seq<Option<Error>>, quota: bool)
  {
    forall k :: 0 <= k < |errs| && errs[k].Some? ==> quota && !errs[k].value.Quota?
  }

  // The verdict's order of precedence.
  ghost predicate Judges(errs: seq<Option<Error>>, parent: bool, v: Verdict)
  {
    if !NoneOf(errs, true) then exists i: nat :: IsFirst(errs, true, i) && v == Error(errs[i].value)
    else if parent then v == Error(Cancelled)
    else if !NoneOf(errs, false) then exists i: nat :: IsFirst(errs, false, i) && v == Error(errs[i].value)
    else v == Done
  }

  /** What runStage returns once its workers are done. */
  method Judge(errs: seq<Option<Error>>, parent: bool) returns (v: Verdict)
    ensures Judges(errs, parent, v)
  {
    for i := 0 to |errs|
      invariant forall k :: 0 <= k < i && errs[k].Some? ==> !errs[k].value.Quota?
    {
      if errs[i].Some? && errs[i].value.Quota? {
        assert IsFirst(errs, true, i);
        return Error(errs[i].value);
      }
    }
    if parent {
      return Error(Cancelled);
    }
    for i := 0 to |errs|
      invariant forall k :: 0 <= k < i ==> errs[k].None?
    {
      if errs[i].Some? {
        assert IsFirst(errs, false, i);
        return Error(errs[i].value);
      }
    }
    return Done;
  }

  /** Completeness: when the workers are done, the work has returned exactly once
      for every item of a prefix and for no other, each result is what its work
      created, and each error what it failed with. */
  lemma PrefixIsProcessed(items: nat, concurrency: int, steps: seq<Step>, p: Pool)
    requires items > 0 && Run(items, concurrency, steps) == Some(p) && Over(p)
    ensures p.next <= items == |p.results| == |p.errs| && forall i: nat :: i in p.outs <==> i < p.next
    ensures NoRepeats(p.order) && forall i: nat :: i in p.order <==> i < p.next
    ensures forall i :: 0 <= i < items ==>
              && p.results[i] == (if i in p.outs && p.outs[i].Created? then Some(p.outs[i].id) else None)
              && p.errs[i] == (if i in p.outs && p.outs[i].Failed? then Some(p.outs[i].err) else None)
  {
    forall i: nat | i < p.next
      ensures i in p.outs
    {
      assert Handled(p, i);
    }
    forall i: nat | i < items
      ensures p.results[i] == if i in p.outs && p.outs[i].Created? then Some(p.outs[i].id) else None
      ensures p.errs[i] == if i in p.outs && p.outs[i].Failed? then Some(p.outs[i].err) else None
    {
      assert Recorded(p, i);
    }
  }

  /** A nil error is returned exactly when the caller did not cancel and no work
      failed, and then every item was processed and every result is its work's. */
  lemma NoErrorIsComplete(items: nat, concurrency: int, steps: seq<Step>, p: Pool, v: Verdict)
    requires items > 0 && Run(items, concurrency, steps) == Some(p) && Over(p) && Judges(p.errs, p.parent, v)
    ensures v.Done? <==> !p.parent && forall i :: i in p.outs ==> p.outs[i].Created?
    ensures v.Done? ==> p.next == items == |p.results|
                        && forall i: nat :: i < items ==>
                             i in p.outs && p.outs[i].Created? && p.results[i] == Some(p.outs[i].id)
  {
    hide Sound, IsFirst;
    PrefixIsProcessed(items, concurrency, steps, p);
    OverIsClosed(p);
    assert forall i :: i in p.outs && p.outs[i].Failed? ==> p.errs[i] == Some(p.outs[i].err);
  }

  /** What runStage may return: nothing is started without items or when the caller
      has cancelled before. */
  ghost predicate Returns(items: nat, concurrency: int, cancelled: bool, results: seq<Option<string>>, v: Verdict)
  {
    if items == 0 then results == [] && v == Done
    else if cancelled then results == [] && v == Error(Cancelled)
    else exists steps, p ::
           Run(items, concurrency, steps) == Some(p) && Over(p) && results == p.results && Judges(p.errs, p.parent, v)
  }

  /** Without an error there is a result for every item; with one, the caller had
      cancelled before or there is a slot for every item. */
  lemma ReturnsAreComplete(items: nat, concurrency: int, cancelled: bool, results: seq<Option<string>>, v: Verdict)
    requires Returns(items, concurrency, cancelled, results, v)
    ensures v.Done? ==> |results| == items && forall i :: 0 <= i < items ==> results[i].Some?
    ensures !v.Done? ==> items > 0 && ((results == [] && cancelled && v == Error(Cancelled)) || |results| == items)
  {
    if items > 0 && !cancelled {
      var steps, p :| Run(items, concurrency, steps) == Some(p) && Over(p) && results == p.results
                      && Judges(p.errs, p.parent, v);
      hide Run, Judges;
      NoErrorIsComplete(items, concurrency, steps, p, v);
    }
  }

  lemma OverIsClosed(p: Pool)
    requires Sound(p) && Over(p)
    ensures p.next < |p.results| ==> p.parent || HasError(p)
  {
    assert p.workers[0].Exited?;
  }

  // How many steps a worker has left at most, not counting new items.
  function WorkerRank(w: Worker): nat
  {
    match w case Working(_) => 3 case Raising => 2 case Idle => 1 case Exited => 0
  }

  function WorkersRank(ws: seq<Worker>): nat
  {
    if ws == [] then 0 else WorkersRank(ws[..|ws| - 1]) + WorkerRank(ws[|ws| - 1])
  }

  function Rank(p: Pool): nat
    requires Shaped(p)
  {
    3 * (|p.results| - p.next) + (if p.closed then 0 else 1) + (if p.parent then 0 else 1) + WorkersRank(p.workers)
  }

  lemma {:induction false} RankOfUpdate(ws: seq<Worker>, w: nat, x: Worker)
    requires w < |ws|
    ensures WorkersRank(ws[w := x]) == WorkersRank(ws) - WorkerRank(ws[w]) + WorkerRank(x)
  {
    var n := |ws| - 1;
    if w < n {
      RankOfUpdate(ws[..n], w, x);
      assert ws[w := x][..n] == ws[..n][w := x];
    } else {
      assert ws[w := x][..n] == ws[..n];
    }
  }

  /** The stage ends: every step uses up rank, and while a worker has not left some
      step is possible. */
  lemma StageEnds(items: nat, concurrency: int, steps: seq<Step>, p: Pool)
    requires items > 0 && Run(items, concurrency, steps) == Some(p)
    ensures forall step :: Enabled(p, step) ==> Shaped(Taken(p, step)) && Rank(Taken(p, step)) < Rank(p)
    ensures !Over(p) ==> exists step :: Enabled(p, step) && !step.CancelParent?
  {
    forall step | Enabled(p, step)
      ensures Shaped(Taken(p, step)) && Rank(Taken(p, step)) < Rank(p)
    {
      StepLowersRank(p, step);
    }
    if !Over(p) {
      var w :| 0 <= w < |p.workers| && !p.workers[w].Exited?;
      match p.workers[w]
      case Working(_) => assert Enabled(p, Return(w, Failed(Cancelled)));
      case Raising => assert Enabled(p, Raise(w));
      case Idle =>
        if p.closed {
          assert Enabled(p, Exit(w));
        } else if p.next < |p.results| {
          assert Enabled(p, Dispatch(w));
        } else {
          assert Enabled(p, Close);
        }
    }
  }

  lemma StepLowersRank(p: Pool, step: Step)
    requires Sound(p) && Enabled(p, step)
    ensures Shaped(Taken(p, step)) && Rank(Taken(p, step)) < Rank(p)
  {
    StepKeepsSound(p, step);
    match step
    case Dispatch(w) => RankOfUpdate(p.workers, w, Working(p.next));
    case Return(w, out) => RankOfUpdate(p.workers, w, if out.Created? then Idle else Raising);
    case Raise(w) => RankOfUpdate(p.workers, w, Idle);
    case Exit(w) => RankOfUpdate(p.workers, w, Exited);
    case _ =>
  }
}
