/** The churn engine's operations as a state machine: the scheduler and the
    goroutine of every operation move one step at a time, in any order. */
module Execution {
  import opened Options
  import opened Graphs
  import opened Scheduling

  // Where an operation's goroutine stands. Running(r), Calling(r) and
  // Settling(r) number the retry being dealt with, or hi once all are.
  datatype Phase =
    | Parked            // dispatched; the scheduler still waits for the pending pool
    | Waiting(k: nat)   // the first k dependencies have finished
    | Gated             // holds the family gate, if any, and waits for a slot
    | Won               // got a slot, the context not yet looked at again
    | Running(r: nat)   // admitted, between cloud calls
    | Calling(r: nat)   // a cloud call is in flight
    | Leaving           // about to return the slot
    | Ungating          // about to return the gate
    | Settling(r: nat)  // finishing the retries that did not run
    | Closing           // the pending token is back, done not yet closed
    | Finished

  // A run of an operation. lo and hi delimit the retries a create owns.
  datatype Run = Run(phase: Phase, admitted: bool, token: bool, id: string, failed: bool,
                     deleteFailed: bool, ids: seq<string>, lo: nat, hi: nat)

  // A delete attempt on an instance: its Delete operation, or a retry.
  datatype Handle = Own(op: nat) | Again(retry: nat)

  datatype Entry = Entry(create: nat, del: Handle)

  // nth is the retry's place among the attempts on its instance.
  datatype Retry = Retry(owner: nat, create: nat, prev: Handle, nth: nat, done: bool, failed: bool, ids: seq<string>)

  // How a cloud call comes back. A failed create may still publish an id.
  datatype Outcome = Ok(id: string) | Err(id: string) | Panic

  // A cloud call starting or coming back: the operation that makes it, the
  // instance it is about, and the parent ids it passes.
  datatype Event = Event(op: nat, target: nat, act: Action, ids: seq<string>, back: Option<Outcome>)

  /** The whole engine. retired is each node's list of deleted instances. The
      fields after cycles are history: removed lists the instances a Delete
      returned nil for, att the delete attempts on each instance, log the calls. */
  datatype Sys = Sys(sch: Sched, runs: seq<Run>, retries: seq<Retry>, retired: seq<seq<Entry>>,
                     sem: nat, pending: nat, busy: set<nat>, cancelled: bool, cycles: nat,
                     removed: seq<nat>, att: map<nat, seq<Handle>>, log: seq<Event>)

  // One move of an operation, by its goroutine or, for Launch, the scheduler.
  datatype Move =
    | Launch(withToken: bool) | Observe | TakeGate | Refuse | WinSlot | Recheck | Begin
    | Return(out: Outcome) | FreeSlot | FreeGate | Settle | FreeToken | Close

  datatype Step = Decide(choice: Choice) | Cancel | Advance(j: nat, move: Move)

  function Start(g: Graph): Sys
  {
    Sys(Initial(g), [], [], seq(|g.nodes|, _ => []), 0, 0, {}, false, 0, [], map[], [])
  }

  predicate DoneH(s: Sys, h: Handle)
  {
    match h
    case Own(d) => d < |s.runs| && s.runs[d].phase.Finished?
    case Again(r) => r < |s.retries| && s.retries[r].done
  }

  predicate FailedH(s: Sys, h: Handle)
  {
    match h
    case Own(d) => d < |s.runs| && s.runs[d].deleteFailed
    case Again(r) => r < |s.retries| && s.retries[r].failed
  }

  function IdsH(s: Sys, h: Handle): seq<string>
  {
    match h
    case Own(d) => if d < |s.runs| then s.runs[d].ids else []
    case Again(r) => if r < |s.retries| then s.retries[r].ids else []
  }

  // The attempt has finished and confirmed that the instance is gone.
  predicate Confirmed(s: Sys, h: Handle) { DoneH(s, h) && !FailedH(s, h) }

  // The instance's create has finished and published a cloud id.
  predicate Published(s: Sys, c: nat)
  {
    c < |s.runs| && s.runs[c].phase.Finished? && s.runs[c].id != ""
  }

  function IdOf(s: Sys, c: nat): string { if c < |s.runs| then s.runs[c].id else "" }

  function Resolve(s: Sys, ops: seq<nat>): (r: seq<string>)
    ensures |r| == |ops| && forall k :: 0 <= k < |r| ==> r[k] == IdOf(s, ops[k])
  {
    if ops == [] then [] else [IdOf(s, ops[0])] + Resolve(s, ops[1..])
  }

  predicate ParentFailed(s: Sys, ops: seq<nat>)
  {
    exists p :: p in ops && (p < |s.runs| ==> s.runs[p].failed || s.runs[p].id == "")
  }

  /** retire: drops the confirmed entries and appends the new one. */
  function Retire(s: Sys, entries: seq<Entry>, e: Entry): seq<Entry>
  {
    if entries == [] then [e]
    else if Confirmed(s, entries[0].del) then Retire(s, entries[1..], e)
    else [entries[0]] + Retire(s, entries[1..], e)
  }

  predicate HoldsSlot(r: Run) { r.phase.Won? || r.phase.Running? || r.phase.Calling? || r.phase.Leaving? }

  predicate HoldsGate(r: Run) { HoldsSlot(r) || r.phase.Gated? || r.phase.Ungating? }

  function Gate(g: Graph, s: Sys, j: nat): Option<nat>
    requires j < |s.sch.ops|
  {
    var n := s.sch.ops[j].node;
    if n < |g.nodes| then g.nodes[n].gate else None
  }

  // The scheduler is not blocked in a launch.
  predicate Free(s: Sys) { forall j :: 0 <= j < |s.runs| ==> !s.runs[j].phase.Parked? }

  // What a goroutine does next once it no longer holds the slot.
  function AfterSlot(g: Graph, s: Sys, j: nat): Phase
    requires j < |s.runs| && j < |s.sch.ops|
  {
    if Gate(g, s, j).Some? then Ungating else Settling(s.runs[j].lo)
  }

  // Only the outcomes of retries, the cycle count and the history differ.
  ghost predicate SameFrame(s: Sys, t: Sys)
  {
    && t.sch == s.sch && t.runs == s.runs && t.retired == s.retired && t.att == s.att
    && t.sem == s.sem && t.pending == s.pending && t.busy == s.busy && t.cancelled == s.cancelled
    && SameRetries(s.retries, t.retries)
  }

  ghost predicate SameRetries(a: seq<Retry>, b: seq<Retry>)
  {
    && |a| == |b|
    && forall r :: 0 <= r < |a| ==>
         a[r].owner == b[r].owner && a[r].create == b[r].create && a[r].prev == b[r].prev && a[r].nth == b[r].nth
  }

  function SettleRetry(s: Sys, r: nat, failed: bool): (t: Sys)
    requires r < |s.retries|
    ensures SameFrame(s, t)
  {
    var rt := s.retries[r];
    s.(retries := s.retries[r := rt.(done := true, failed := failed, ids := IdsH(s, rt.prev))])
  }

  function Called(s: Sys, j: nat, target: nat, act: Action, ids: seq<string>, back: Option<Outcome>): Sys
  {
    s.(log := s.log + [Event(j, target, act, ids, back)])
  }

  function Cycle(s: Sys, c: nat): Sys
  {
    s.(cycles := s.cycles + 1, removed := s.removed + [c])
  }

  // runRetries deletes again only an instance with an id whose attempt failed.
  predicate RetryCalls(s: Sys, r: nat)
    requires r < |s.retries|
  {
    FailedH(s, s.retries[r].prev) && IdOf(s, s.retries[r].create) != ""
  }

  // An admitted operation makes its own cloud call unless its instance or a
  // parent's create left nothing to work with.
  predicate OwnCalls(s: Sys, j: nat)
    requires j < |s.sch.ops|
  {
    var o := s.sch.ops[j];
    match o.act
    case Create => !ParentFailed(s, o.parentOps)
    case Delete => IdOf(s, o.create) != ""
    case Mutate => !ParentFailed(s, o.parentOps) && IdOf(s, o.create) != ""
                   && !(o.create < |s.runs| && s.runs[o.create].failed)
  }

  /** retryDeletes, one entry: unless the entry's attempt is confirmed, a new
      retry owned by the last operation takes the attempt's place. */
  function RequeueOne(s: Sys, i: nat, m: nat): Sys
    requires i < |s.retired| && m < |s.retired[i]| && |s.runs| > 0
  {
    var e := s.retired[i][m];
    if Confirmed(s, e.del) then s
    else
      var n := |s.runs| - 1;
      var base := |s.retries|;
      var tried := if e.create in s.att then s.att[e.create] else [];
      s.(retries := s.retries + [Retry(n, e.create, e.del, |tried|, false, true, [])],
         retired := s.retired[i := s.retired[i][m := Entry(e.create, Again(base))]],
         runs := s.runs[n := s.runs[n].(hi := base + 1)],
         att := s.att[e.create := tried + [Again(base)]])
  }

  function Requeue(s: Sys, i: nat, m: nat): Sys
    requires i < |s.retired| && m <= |s.retired[i]| && |s.runs| > 0
    decreases |s.retired[i]| - m
  {
    if m == |s.retired[i]| then s else Requeue(RequeueOne(s, i, m), i, m + 1)
  }

  ghost predicate RunFits(s: Sys, j: nat)
    requires j < |s.runs| == |s.sch.ops|
  {
    var r := s.runs[j];
    && r.lo <= r.hi <= |s.retries|
    && (forall x :: r.lo <= x < r.hi ==> s.retries[x].owner == j)
    && (s.sch.ops[j].act != Create ==> r.lo == r.hi)
    && (r.phase.Parked? ==> j == |s.runs| - 1)
    && (r.phase.Waiting? ==> r.phase.k <= |s.sch.ops[j].deps|)
    && (r.phase.Running? || r.phase.Calling? || r.phase.Settling? ==> r.lo <= r.phase.r <= r.hi)
  }

  ghost predicate RetryFits(s: Sys, r: nat)
    requires r < |s.retries|
  {
    var o := s.retries[r].owner;
    o < |s.runs| && s.runs[o].lo <= r < s.runs[o].hi
  }

  // The structure the moves of operations rely on.
  ghost predicate Fits(s: Sys)
  {
    && |s.runs| == |s.sch.ops|
    && (forall j {:trigger s.runs[j]} {:trigger RunFits(s, j)} :: 0 <= j < |s.runs| ==> RunFits(s, j))
    && (forall r {:trigger s.retries[r]} {:trigger RetryFits(s, r)} :: 0 <= r < |s.retries| ==> RetryFits(s, r))
  }

  ghost predicate Shape(g: Graph, s: Sys)
    requires WellFormed(g)
  {
    Valid(g, s.sch) && |s.retired| == |g.nodes| && Fits(s)
  }

  // The state with the run of a newly dispatched operation, still parked.
  function Park(s: Sys, sch: Sched, act: Action): Sys
  {
    var base := |s.retries|;
    s.(sch := sch, runs := s.runs + [Run(Parked, false, false, "", false, act == Delete, [], base, base)])
  }

  // What the last dispatched operation changes in its node's retired list.
  function File(s: Sys, i: nat, act: Action): Sys
    requires i < |s.retired| && |s.runs| > 0 && |s.sch.ops| == |s.runs|
  {
    match act
    case Create => Requeue(s, i, 0)
    case Delete =>
      var n := |s.runs| - 1;
      var c := s.sch.ops[n].create;
      s.(retired := s.retired[i := Retire(s, s.retired[i], Entry(c, Own(n)))], att := s.att[c := [Own(n)]])
    case Mutate => s
  }

  /** The scheduler's dispatch of one operation: its own bookkeeping, a parked
      run, and then retryDeletes for a create or retire for a delete. */
  ghost function Dispatched(g: Graph, s: Sys, i: nat, act: Action): Sys
    requires WellFormed(g) && Shape(g, s) && Legal(g, s.sch, i, act)
  {
    DispatchExtends(g, s.sch, i, act);
    File(Park(s, Dispatch(g, s.sch, i, act), act), i, act)
  }

  ghost predicate MayMove(g: Graph, limit: nat, s: Sys, j: nat, m: Move)
    requires Fits(s) && j < |s.runs|
  {
    var run := s.runs[j];
    var deps := s.sch.ops[j].deps;
    match m
    case Launch(withToken) => run.phase.Parked? && (if withToken then s.pending < limit else s.cancelled)
    case Observe => run.phase.Waiting? && run.phase.k < |deps| && DoneH(s, Own(deps[run.phase.k]))
    case TakeGate => run.phase == Waiting(|deps|) && (Gate(g, s, j).Some? ==> Gate(g, s, j).value !in s.busy)
    case Refuse => s.cancelled && (run.phase.Waiting? || run.phase.Gated?)
    case WinSlot => run.phase.Gated? && s.sem < limit
    case Recheck => run.phase.Won?
    case Begin => run.phase.Running?
    case Return(out) => run.phase.Calling?
    case FreeSlot => run.phase.Leaving? && s.sem > 0
    case FreeGate => run.phase.Ungating?
    case Settle => run.phase.Settling? && run.phase.r < run.hi
                   && (s.retries[run.phase.r].done || DoneH(s, s.retries[run.phase.r].prev))
    case FreeToken => run.phase == Settling(run.hi) && (run.token ==> s.pending > 0)
    case Close => run.phase.Closing?
  }

  /** What a move does to its own operation. */
  ghost function Turn(g: Graph, limit: nat, s: Sys, j: nat, m: Move): Run
    requires Fits(s) && j < |s.runs| && MayMove(g, limit, s, j, m)
  {
    var run := s.runs[j];
    var act := s.sch.ops[j].act;
    match m
    case Launch(withToken) => run.(phase := Waiting(0), token := withToken)
    case Observe => run.(phase := Waiting(run.phase.k + 1))
    case TakeGate => run.(phase := Gated)
    case Refuse => run.(phase := if run.phase.Gated? then AfterSlot(g, s, j) else Settling(run.lo))
    case WinSlot => run.(phase := Won)
    case Recheck => if s.cancelled then run.(phase := Leaving) else run.(phase := Running(run.lo), admitted := true)
    case Begin =>
      if run.phase.r < run.hi then
        run.(phase := if RetryCalls(s, run.phase.r) then Calling(run.phase.r) else Running(run.phase.r + 1))
      else
        run.(phase := if OwnCalls(s, j) then Calling(run.hi) else Leaving,
             ids := if act == Delete then Resolve(s, s.sch.ops[j].parentOps) else run.ids,
             deleteFailed := if act == Delete && !OwnCalls(s, j) then false else run.deleteFailed)
    case Return(out) =>
      if run.phase.r < run.hi then run.(phase := if out.Panic? then Leaving else Running(run.phase.r + 1))
      else
        run.(phase := Leaving,
             id := if act == Create && !out.Panic? then out.id else run.id,
             failed := if act == Create then out.Err? else run.failed,
             deleteFailed := if act == Delete && out.Ok? then false else run.deleteFailed)
    case FreeSlot => run.(phase := AfterSlot(g, s, j))
    case FreeGate => run.(phase := Settling(run.lo))
    case Settle => run.(phase := Settling(run.phase.r + 1))
    case FreeToken => run.(phase := Closing, token := false)
    case Close => run.(phase := Finished)
  }

  /** What a move does to everything operations share. */
  ghost function Effect(g: Graph, limit: nat, s: Sys, j: nat, m: Move): Sys
    requires Fits(s) && j < |s.runs| && MayMove(g, limit, s, j, m)
  {
    var run := s.runs[j];
    var o := s.sch.ops[j];
    var gate := Gate(g, s, j);
    match m
    case Launch(withToken) => s.(pending := s.pending + if withToken then 1 else 0)
    case TakeGate => s.(busy := if gate.Some? then s.busy + {gate.value} else s.busy)
    case WinSlot => s.(sem := s.sem + 1)
    case Begin =>
      if run.phase.r < run.hi then BeginRetry(s, j, run.phase.r)
      else if OwnCalls(s, j) then Called(s, j, o.create, o.act, Resolve(s, o.parentOps), None)
      else s
    case Return(out) =>
      if run.phase.r < run.hi then EndRetry(s, j, run.phase.r, out)
      else
        var s1 := Called(s, j, o.create, o.act, Resolve(s, o.parentOps), Some(out));
        if o.act == Delete && out.Ok? then Cycle(s1, o.create) else s1
    case FreeSlot => s.(sem := s.sem - 1)
    case FreeGate => s.(busy := if gate.Some? then s.busy - {gate.value} else s.busy)
    case Settle => if s.retries[run.phase.r].done then s
                   else SettleRetry(s, run.phase.r, FailedH(s, s.retries[run.phase.r].prev))
    case FreeToken => s.(pending := s.pending - if run.token then 1 else 0)
    case _ => s
  }

  // A retry starts its call, or copies the outcome of the attempt before it.
  function BeginRetry(s: Sys, j: nat, r: nat): (t: Sys)
    requires r < |s.retries|
    ensures SameFrame(s, t)
  {
    var rt := s.retries[r];
    if RetryCalls(s, r) then Called(s, j, rt.create, Delete, IdsH(s, rt.prev), None)
    else SettleRetry(s, r, FailedH(s, rt.prev))
  }

  // A retry's call comes back. A panic leaves the retry to settleRetries.
  function EndRetry(s: Sys, j: nat, r: nat, out: Outcome): (t: Sys)
    requires r < |s.retries|
    ensures SameFrame(s, t)
  {
    var rt := s.retries[r];
    var s1 := Called(s, j, rt.create, Delete, IdsH(s, rt.prev), Some(out));
    match out
    case Ok(_) => Cycle(SettleRetry(s1, r, false), rt.create)
    case Err(_) => SettleRetry(s1, r, true)
    case Panic => s1
  }

  ghost function Moved(g: Graph, limit: nat, s: Sys, j: nat, m: Move): Sys
    requires Fits(s) && j < |s.runs| && MayMove(g, limit, s, j, m)
  {
    Effect(g, limit, s, j, m).(runs := s.runs[j := Turn(g, limit, s, j, m)])
  }

  ghost predicate Enabled(g: Graph, limit: nat, s: Sys, step: Step)
    requires WellFormed(g) && Shape(g, s)
  {
    match step
    case Decide(choice) => Free(s) && Next(g, s.sch, choice).Some?
    case Cancel => true
    case Advance(j, m) => j < |s.runs| && MayMove(g, limit, s, j, m)
  }

  ghost function Decided(g: Graph, s: Sys, choice: Choice): Sys
    requires WellFormed(g) && Shape(g, s) && Next(g, s.sch, choice).Some?
  {
    match choice
    case Do(i, act) => Dispatched(g, s, i, act)
    case Replace(root) => s.(sch := StartRoll(g, s.sch, root))
  }

  ghost function Taken(g: Graph, limit: nat, s: Sys, step: Step): Sys
    requires WellFormed(g) && Shape(g, s) && Enabled(g, limit, s, step)
  {
    match step
    case Decide(choice) => Decided(g, s, choice)
    case Cancel => s.(cancelled := true)
    case Advance(j, m) => Moved(g, limit, s, j, m)
  }

  // What a dispatch adds to the runs and the retries.
  ghost predicate Appended(s: Sys, t: Sys)
  {
    var n := |s.runs|;
    && |s.sch.ops| == n && |t.sch.ops| == n + 1 && |t.runs| == n + 1 && |s.retries| <= |t.retries|
    && (forall j :: 0 <= j < n ==> t.sch.ops[j] == s.sch.ops[j] && t.runs[j] == s.runs[j])
    && (forall r :: 0 <= r < |s.retries| ==> t.retries[r] == s.retries[r])
    && (forall r :: |s.retries| <= r < |t.retries| ==>
          t.retries[r].owner == n && !t.retries[r].done && t.retries[r].failed)
    && t.runs[n] == Run(Parked, false, false, "", false, t.sch.ops[n].act == Delete, [], |s.retries|, |t.retries|)
    && (t.sch.ops[n].act != Create ==> t.retries == s.retries)
    && t.sem == s.sem && t.pending == s.pending && t.busy == s.busy && t.cancelled == s.cancelled
    && t.log == s.log && t.removed == s.removed && t.cycles == s.cycles
  }

  // What requeueing changes: it only adds retries, all owned by the last run.
  ghost predicate Requeued(s: Sys, t: Sys)
  {
    var n := |s.runs| - 1;
    && |s.runs| > 0 && t.sch == s.sch && |t.runs| == |s.runs| && |s.retries| <= |t.retries|
    && (forall j :: 0 <= j < n ==> t.runs[j] == s.runs[j])
    && (s.runs[n].hi == |s.retries| ==> t.runs[n] == s.runs[n].(hi := |t.retries|))
    && (forall r :: 0 <= r < |s.retries| ==> t.retries[r] == s.retries[r])
    && (forall r :: |s.retries| <= r < |t.retries| ==>
          t.retries[r].owner == n && !t.retries[r].done && t.retries[r].failed)
    && t.sem == s.sem && t.pending == s.pending && t.busy == s.busy && t.cancelled == s.cancelled
    && t.log == s.log && t.removed == s.removed && t.cycles == s.cycles && |t.retired| == |s.retired|
  }

  lemma {:induction false} RequeueAdds(s: Sys, i: nat, m: nat)
    requires i < |s.retired| && m <= |s.retired[i]| && |s.runs| > 0
    ensures Requeued(s, Requeue(s, i, m))
    decreases |s.retired[i]| - m
  {
    if m < |s.retired[i]| {
      RequeueAdds(RequeueOne(s, i, m), i, m + 1);
    }
  }

  lemma FileAppends(s: Sys, sch: Sched, i: nat, act: Action)
    requires |s.sch.ops| == |s.runs| && |sch.ops| == |s.runs| + 1 && i < |s.retired|
    requires sch.ops[..|s.runs|] == s.sch.ops && sch.ops[|s.runs|].act == act
    ensures var t := File(Park(s, sch, act), i, act);
            Appended(s, t) && |t.retired| == |s.retired| && t.sch == sch
  {
    assert forall j :: 0 <= j < |s.runs| ==> sch.ops[j] == sch.ops[..|s.runs|][j];
    if act == Create {
      RequeueAdds(Park(s, sch, act), i, 0);
    }
  }

  lemma DispatchedAppends(g: Graph, s: Sys, i: nat, act: Action)
    requires WellFormed(g) && Shape(g, s) && Legal(g, s.sch, i, act)
    ensures Appended(s, Dispatched(g, s, i, act))
    ensures |Dispatched(g, s, i, act).retired| == |s.retired|
    ensures Dispatched(g, s, i, act).sch == Dispatch(g, s.sch, i, act)
  {
    DispatchExtends(g, s.sch, i, act);
    FileAppends(s, Dispatch(g, s.sch, i, act), i, act);
  }

  lemma AppendKeepsFits(s: Sys, t: Sys)
    requires Fits(s) && Free(s) && Appended(s, t)
    ensures Fits(t)
  {
  }

  lemma DispatchKeepsShape(g: Graph, s: Sys, i: nat, act: Action)
    requires WellFormed(g) && Shape(g, s) && Free(s) && Legal(g, s.sch, i, act)
    ensures Shape(g, Dispatched(g, s, i, act)) && Appended(s, Dispatched(g, s, i, act))
    ensures Dispatched(g, s, i, act).sch == Dispatch(g, s.sch, i, act)
  {
    hide Valid, Linked, Appended, Fits, Free, Legal, Dispatched;
    DispatchKeepsValid(g, s.sch, i, act);
    DispatchedAppends(g, s, i, act);
    AppendKeepsFits(s, Dispatched(g, s, i, act));
  }

  lemma DecideKeepsShape(g: Graph, s: Sys, choice: Choice)
    requires WellFormed(g) && Shape(g, s) && Free(s) && Next(g, s.sch, choice).Some?
    ensures Shape(g, Decided(g, s, choice)) && Decided(g, s, choice).sch == Next(g, s.sch, choice).value
  {
    hide Valid, Linked, Free, Legal, MayRoll, Dispatched, Dispatch;
    if choice.Do? {
      DispatchKeepsShape(g, s, choice.node, choice.act);
    }
  }
}
