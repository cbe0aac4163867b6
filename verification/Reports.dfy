/** The report of a whole run: what the scheduler and the operations tell the time
    buckets, in any interleaving, is what the buckets rely on. */
module Reports {
  import opened Options
  import opened Graphs
  import opened Scheduling
  import opened Execution
  import opened Runs
  import opened Finite
  import opened Ordering
  import opened Records
  import opened Duties
  import Buckets

  // A call of the buckets' methods.
  datatype Call =
    | Advanced(offset: nat)
    | Begun(id: nat, offset: nat)
    | Added(id: nat, outcome: Buckets.Outcome)
    | Ended(id: nat, offset: nat)

  // The offsets of the operations in flight, and the last one the scheduler reached.
  datatype Protocol = Protocol(running: map<nat, int>, now: Option<nat>)

  /** How the calls must follow one another: offsets do not decrease, an operation
      begins at the current one, and adds its outcomes in flight. */
  function Follow(p: Protocol, c: Call): Option<Protocol>
  {
    match c
    case Advanced(o) => if p.now.Some? && o < p.now.value then None else Some(p.(now := Some(o)))
    case Begun(id, o) =>
      if p.now == Some(o) && id !in p.running then Some(p.(running := p.running[id := o])) else None
    case Added(id, out) => if id in p.running && p.running[id] == out.offset then Some(p) else None
    case Ended(id, o) =>
      if id in p.running && p.running[id] == o then Some(p.(running := p.running - {id})) else None
  }

  function Followed(calls: seq<Call>): Option<Protocol>
  {
    if calls == [] then Some(Protocol(map[], None))
    else
      match Followed(calls[..|calls| - 1])
      case None => None
      case Some(p) => Follow(p, calls[|calls| - 1])
  }

  function OutcomesOf(calls: seq<Call>): seq<Buckets.Outcome>
  {
    if calls == [] then []
    else
      OutcomesOf(calls[..|calls| - 1]) + match calls[|calls| - 1] case Added(_, out) => [out] case _ => []
  }

  lemma OneMoreCall(calls: seq<Call>, c: Call)
    requires Followed(calls).Some?
    ensures Followed(calls + [c]) == Follow(Followed(calls).value, c)
    ensures OutcomesOf(calls + [c]) == OutcomesOf(calls) + match c case Added(_, out) => [out] case _ => []
  {
    assert (calls + [c])[..|calls|] == calls;
  }

  /** A run with its calls: the current offset, the decision offset of every
      operation, and the operations whose call panicked. */
  datatype Trial = Trial(sys: Sys, steps: seq<Step>, now: Option<nat>, at: seq<nat>, panicked: set<nat>,
                         calls: seq<Call>)

  // A tick of the clock between decisions, or a step, with what is measured of a
  // call that comes back.
  datatype Happening = Tick(offset: nat) | Happens(step: Step, latency: int, errKind: string)

  predicate Flying(s: Sys, j: nat)
  {
    j < |s.runs| && !s.runs[j].phase.Parked? && !s.runs[j].phase.Closing? && !s.runs[j].phase.Finished?
  }

  function InFlight(s: Sys, at: seq<nat>): map<nat, int>
    requires |at| == |s.runs|
  {
    map j | 0 <= j < |s.runs| && Flying(s, j) :: at[j]
  }

  // What a move of operation j tells the buckets. A panic's outcome is added when
  // the operation ends.
  function CallsOf(tr: Trial, j: nat, m: Move, latency: int, errKind: string): seq<Call>
    requires j < |tr.at|
  {
    match m
    case Launch(_) => [Begun(j, tr.at[j])]
    case Return(out) => if out.Panic? then [] else [Added(j, Buckets.Outcome(tr.at[j], latency, out.Ok?, errKind))]
    case FreeToken =>
      (if j in tr.panicked then [Added(j, Buckets.Outcome(tr.at[j], 0, false, "panic"))] else []) + [Ended(j, tr.at[j])]
    case _ => []
  }

  // The offsets, the panics and the calls fit the run.
  ghost predicate Told(g: Graph, limit: nat, tr: Trial)
    requires WellFormed(g)
  {
    && Reach(g, limit, tr.steps) == Some(tr.sys) && Shape(g, tr.sys)
    && |tr.at| == |tr.sys.runs| && (tr.at != [] ==> tr.now.Some?)
    && (forall j :: 0 <= j < |tr.at| && tr.sys.runs[j].phase.Parked? ==> Some(tr.at[j]) == tr.now)
    && Followed(tr.calls) == Some(Protocol(InFlight(tr.sys, tr.at), tr.now))
  }

  // One step of the run, with its calls.
  ghost function Stepped(g: Graph, limit: nat, tr: Trial, step: Step, latency: int, errKind: string): Trial
    requires WellFormed(g) && Told(g, limit, tr) && Enabled(g, limit, tr.sys, step)
    requires step.Decide? ==> tr.now.Some?
  {
    var t := tr.(sys := Taken(g, limit, tr.sys, step), steps := tr.steps + [step]);
    match step
    case Decide(Do(_, _)) => t.(at := tr.at + [tr.now.value])
    case Decide(Replace(_)) => t
    case Cancel => t
    case Advance(j, m) =>
      t.(calls := tr.calls + CallsOf(tr, j, m, latency, errKind),
         panicked := if m.Return? && m.out.Panic? then tr.panicked + {j} else tr.panicked)
  }

  lemma MoveFlies(g: Graph, limit: nat, s: Sys, j: nat, m: Move)
    requires Fits(s) && j < |s.runs| && MayMove(g, limit, s, j, m)
    ensures var t := Moved(g, limit, s, j, m);
            && |t.runs| == |s.runs|
            && (forall i :: 0 <= i < |s.runs| && i != j ==> t.runs[i] == s.runs[i])
            && !t.runs[j].phase.Parked?
            && (s.runs[j].phase.Parked? <==> m.Launch?)
            && (Flying(t, j) <==> !m.FreeToken? && !m.Close?)
            && (Flying(s, j) <==> !m.Launch? && !m.Close?)
  {
  }

  // The calls of a move follow those before it.
  lemma CallsAreFollowed(tr: Trial, t: Sys, j: nat, m: Move, latency: int, errKind: string)
    requires |tr.at| == |tr.sys.runs| == |t.runs| && j < |t.runs|
    requires forall i :: 0 <= i < |t.runs| && i != j ==> t.runs[i] == tr.sys.runs[i]
    requires Flying(t, j) <==> !m.FreeToken? && !m.Close?
    requires Flying(tr.sys, j) <==> !m.Launch? && !m.Close?
    requires m.Launch? ==> tr.now == Some(tr.at[j])
    requires Followed(tr.calls) == Some(Protocol(InFlight(tr.sys, tr.at), tr.now))
    ensures Followed(tr.calls + CallsOf(tr, j, m, latency, errKind)) == Some(Protocol(InFlight(t, tr.at), tr.now))
  {
    hide Followed, Flying;
    var calls := CallsOf(tr, j, m, latency, errKind);
    assert tr.calls + [] == tr.calls;
    OthersFly(tr.sys, t, j);
    if m.FreeToken? {
      EndIsFollowed(tr, t, j);
    } else if m.Launch? {
      OneMoreCall(tr.calls, calls[0]);
      assert InFlight(t, tr.at) == InFlight(tr.sys, tr.at)[j := tr.at[j]];
    } else {
      assert InFlight(t, tr.at) == InFlight(tr.sys, tr.at);
      if calls != [] {
        OneMoreCall(tr.calls, calls[0]);
      }
    }
  }

  lemma OthersFly(s: Sys, t: Sys, j: nat)
    requires |s.runs| == |t.runs| && forall i :: 0 <= i < |t.runs| && i != j ==> t.runs[i] == s.runs[i]
    ensures forall i :: 0 <= i < |t.runs| && i != j ==> (Flying(t, i) <==> Flying(s, i))
  {
  }

  lemma MoveIsFollowed(g: Graph, limit: nat, tr: Trial, j: nat, m: Move, latency: int, errKind: string)
    requires WellFormed(g) && Told(g, limit, tr) && j < |tr.sys.runs| && Fits(tr.sys) && MayMove(g, limit, tr.sys, j, m)
    ensures var t := Moved(g, limit, tr.sys, j, m);
            && |t.runs| == |tr.at|
            && (forall i :: 0 <= i < |t.runs| && t.runs[i].phase.Parked? ==> Some(tr.at[i]) == tr.now)
            && Followed(tr.calls + CallsOf(tr, j, m, latency, errKind)) == Some(Protocol(InFlight(t, tr.at), tr.now))
  {
    hide Sound, Shape, Moved, MayMove, Reach, Followed, Fits, Flying, InFlight, CallsOf;
    MoveFlies(g, limit, tr.sys, j, m);
    CallsAreFollowed(tr, Moved(g, limit, tr.sys, j, m), j, m, latency, errKind);
  }

  lemma Lands(s: Sys, t: Sys, at: seq<nat>, j: nat)
    requires |at| == |s.runs| == |t.runs| && j < |t.runs| && Flying(s, j) && !Flying(t, j)
    requires forall i :: 0 <= i < |t.runs| && i != j ==> t.runs[i] == s.runs[i]
    ensures j in InFlight(s, at) && InFlight(s, at)[j] == at[j] && InFlight(t, at) == InFlight(s, at) - {j}
  {
    OthersFly(s, t, j);
    hide Flying;
  }

  lemma EndIsFollowed(tr: Trial, t: Sys, j: nat)
    requires |tr.at| == |tr.sys.runs| == |t.runs| && j < |t.runs| && Flying(tr.sys, j) && !Flying(t, j)
    requires forall i :: 0 <= i < |t.runs| && i != j ==> t.runs[i] == tr.sys.runs[i]
    requires Followed(tr.calls) == Some(Protocol(InFlight(tr.sys, tr.at), tr.now))
    ensures Followed(tr.calls + CallsOf(tr, j, FreeToken, 0, "")) == Some(Protocol(InFlight(t, tr.at), tr.now))
  {
    hide Followed, InFlight, Flying;
    Lands(tr.sys, t, tr.at, j);
    var panic := Added(j, Buckets.Outcome(tr.at[j], 0, false, "panic"));
    if j in tr.panicked {
      OneMoreCall(tr.calls, panic);
      OneMoreCall(tr.calls + [panic], Ended(j, tr.at[j]));
      assert tr.calls + [panic] + [Ended(j, tr.at[j])] == tr.calls + ([panic] + [Ended(j, tr.at[j])]);
    } else {
      OneMoreCall(tr.calls, Ended(j, tr.at[j]));
      assert [] + [Ended(j, tr.at[j])] == [Ended(j, tr.at[j])];
    }
  }

  // The new operation is not in flight before its launch.
  lemma ParkedIsNotInFlight(s: Sys, t: Sys, at: seq<nat>, now: nat)
    requires |at| == |s.runs| && |t.runs| == |s.runs| + 1 && t.runs[|s.runs|].phase.Parked? && Free(s)
    requires forall j :: 0 <= j < |s.runs| ==> t.runs[j] == s.runs[j]
    ensures InFlight(t, at + [now]) == InFlight(s, at)
    ensures forall j :: 0 <= j < |t.runs| && t.runs[j].phase.Parked? ==> (at + [now])[j] == now
  {
  }

  lemma DecisionIsTold(g: Graph, limit: nat, tr: Trial, i: nat, act: Action)
    requires WellFormed(g) && Told(g, limit, tr) && Enabled(g, limit, tr.sys, Decide(Do(i, act))) && tr.now.Some?
    ensures var t := Taken(g, limit, tr.sys, Decide(Do(i, act)));
            var at := tr.at + [tr.now.value];
            && |at| == |t.runs| && InFlight(t, at) == InFlight(tr.sys, tr.at)
            && forall j :: 0 <= j < |t.runs| && t.runs[j].phase.Parked? ==> Some(at[j]) == tr.now
  {
    hide Sound, Valid, Reach, Followed, Fits, InFlight, Dispatched, Legal, Free;
    DispatchedAppends(g, tr.sys, i, act);
    ParkedIsNotInFlight(tr.sys, Taken(g, limit, tr.sys, Decide(Do(i, act))), tr.at, tr.now.value);
  }

  lemma StepIsTold(g: Graph, limit: nat, tr: Trial, step: Step, latency: int, errKind: string)
    requires WellFormed(g) && Told(g, limit, tr) && Enabled(g, limit, tr.sys, step) && (step.Decide? ==> tr.now.Some?)
    ensures Told(g, limit, Stepped(g, limit, tr, step, latency, errKind))
  {
    hide Sound, Valid, Fits, Reach, Followed, InFlight, CallsOf, Moved, MayMove, Dispatched, Legal, MayRoll;
    hide StartRoll, Free;
    OneMoreStep(g, limit, tr.steps, tr.sys, step);
    match step
    case Decide(Do(i, act)) => DecisionIsTold(g, limit, tr, i, act);
    case Decide(Replace(root)) => SameRunsFly(tr.sys, Taken(g, limit, tr.sys, step), tr.at);
    case Cancel => SameRunsFly(tr.sys, Taken(g, limit, tr.sys, step), tr.at);
    case Advance(j, m) => MoveIsFollowed(g, limit, tr, j, m, latency, errKind);
  }

  lemma SameRunsFly(s: Sys, t: Sys, at: seq<nat>)
    requires t.runs == s.runs && |at| == |s.runs|
    ensures InFlight(t, at) == InFlight(s, at)
  {
  }

  lemma NoneParked(s: Sys)
    requires Free(s)
    ensures forall j :: 0 <= j < |s.runs| ==> !s.runs[j].phase.Parked?
  {
  }

  // The scheduler reaches a later offset, between two decisions.
  function Ticked(tr: Trial, offset: nat): Trial
  {
    tr.(now := Some(offset), calls := tr.calls + [Advanced(offset)])
  }

  lemma TickIsTold(g: Graph, limit: nat, tr: Trial, offset: nat)
    requires WellFormed(g) && Told(g, limit, tr) && Free(tr.sys) && (tr.now.Some? ==> offset >= tr.now.value)
    ensures Told(g, limit, Ticked(tr, offset))
  {
    hide Sound, Shape, Reach, Followed, InFlight, Free;
    NoneParked(tr.sys);
    OneMoreCall(tr.calls, Advanced(offset));
  }

  /** A run with its clock, None once something is not possible. The first decision
      comes after the first tick. */
  ghost function Tried(g: Graph, limit: nat, hs: seq<Happening>): (r: Option<Trial>)
    requires WellFormed(g)
    ensures r.Some? ==> Told(g, limit, r.value)
  {
    if hs == [] then
      NothingIsTold(g, limit);
      Some(Trial(Start(g), [], None, [], {}, []))
    else
      match Tried(g, limit, hs[..|hs| - 1])
      case None => None
      case Some(tr) =>
        match hs[|hs| - 1]
        case Tick(o) =>
          if Free(tr.sys) && (tr.now.Some? ==> o >= tr.now.value) then TickIsTold(g, limit, tr, o); Some(Ticked(tr, o))
          else None
        case Happens(step, latency, errKind) =>
          if Enabled(g, limit, tr.sys, step) && (step.Decide? ==> tr.now.Some?) then
            StepIsTold(g, limit, tr, step, latency, errKind);
            Some(Stepped(g, limit, tr, step, latency, errKind))
          else None
  }

  lemma NothingIsTold(g: Graph, limit: nat)
    requires WellFormed(g)
    ensures Told(g, limit, Trial(Start(g), [], None, [], {}, []))
  {
    hide Sound, Shape;
    StartIsSound(g, limit);
    SoundHasShape(g, limit, Start(g));
    var none: seq<nat> := [];
    assert InFlight(Start(g), none) == map[];
  }

  // How a call ended.
  datatype Ending = Fine | Failed | Died

  function EndingOf(out: Outcome): Ending { match out case Ok(_) => Fine case Err(_) => Failed case Panic => Died }

  // How many calls of operation j came back like that.
  function Ends(log: seq<Event>, j: nat, how: Ending): nat
  {
    Count(log, (e: Event) => e.op == j && e.back.Some? && EndingOf(e.back.value) == how)
  }

  // How many outcomes of operation j the buckets were told, successes or failures.
  function Outcomes(calls: seq<Call>, j: nat, good: bool): nat
  {
    Count(calls, (c: Call) => c.Added? && c.id == j && c.outcome.success == good)
  }

  /** The buckets are told one outcome of each call that came back, and one of an
      operation's panic once it is no longer in flight. */
  ghost predicate Reckoned(tr: Trial, j: nat)
  {
    && Outcomes(tr.calls, j, true) == Ends(tr.sys.log, j, Fine)
    && Outcomes(tr.calls, j, false) ==
       Ends(tr.sys.log, j, Failed) + (if Flying(tr.sys, j) then 0 else Ends(tr.sys.log, j, Died))
    && Ends(tr.sys.log, j, Died) == (if j in tr.panicked then 1 else 0)
    && (j in tr.panicked ==> j < |tr.sys.runs| && Over(tr.sys.runs[j].phase))
  }

  // The work of an operation is over.
  predicate Over(p: Phase) { !BeforeReturn(p) }

  // What a move of operation j adds to the log.
  ghost predicate Logged(s: Sys, t: Sys, j: nat, m: Move)
  {
    if m.Return? then exists e :: t.log == s.log + [e] && e.op == j && e.back == Some(m.out)
    else t.log == s.log || exists e :: t.log == s.log + [e] && e.back == None
  }

  lemma ReturnIsLogged(g: Graph, limit: nat, s: Sys, j: nat, out: Outcome)
    requires Fits(s) && j < |s.runs| && MayMove(g, limit, s, j, Return(out))
    ensures Logged(s, Moved(g, limit, s, j, Return(out)), j, Return(out))
  {
    var x := s.runs[j].phase.r;
    if x < s.runs[j].hi {
      RetryReturnSpeaks(g, limit, s, j, out);
    } else {
      OwnReturnSpeaks(g, limit, s, j, out);
    }
    hide OwnCalls, RetryCalls, Gate, Resolve, IdsH, EndRetry, MayMove, Effect, Turn, Fits;
    var t := Moved(g, limit, s, j, Return(out));
    var e := t.log[|s.log|];
    assert t.log == s.log + [e] && e.op == j && e.back == Some(out);
  }

  lemma BeginIsLogged(g: Graph, limit: nat, s: Sys, j: nat)
    requires Fits(s) && j < |s.runs| && MayMove(g, limit, s, j, Begin)
    ensures Logged(s, Moved(g, limit, s, j, Begin), j, Begin)
  {
    BeginSpeaks(g, limit, s, j);
    hide OwnCalls, RetryCalls, Gate, Resolve, IdsH, EndRetry, Effect, Turn, Fits;
    var t := Moved(g, limit, s, j, Begin);
    if t.log != s.log {
      var e := t.log[|s.log|];
      assert t.log == s.log + [e] && e.back == None;
    }
  }

  lemma MoveIsLogged(g: Graph, limit: nat, s: Sys, j: nat, m: Move)
    requires Fits(s) && j < |s.runs| && MayMove(g, limit, s, j, m)
    ensures Logged(s, Moved(g, limit, s, j, m), j, m)
  {
    hide OwnCalls, RetryCalls, DoneH, FailedH, Gate, Resolve, BeginRetry, EndRetry, Logged;
    match m
    case Begin => BeginIsLogged(g, limit, s, j);
    case Return(out) => ReturnIsLogged(g, limit, s, j, out);
    case _ => SilentIsLogged(g, limit, s, j, m);
  }

  lemma SilentIsLogged(g: Graph, limit: nat, s: Sys, j: nat, m: Move)
    requires Fits(s) && j < |s.runs| && MayMove(g, limit, s, j, m) && !m.Begin? && !m.Return?
    ensures Logged(s, Moved(g, limit, s, j, m), j, m)
  {
    hide OwnCalls, RetryCalls, FailedH, Resolve, BeginRetry, EndRetry;
  }

  lemma MoveEnds(s: Sys, t: Sys, j: nat, m: Move, i: nat, how: Ending)
    requires Logged(s, t, j, m)
    ensures Ends(t.log, i, how) ==
            Ends(s.log, i, how) + if m.Return? && i == j && EndingOf(m.out) == how then 1 else 0
  {
    var p := (e: Event) => e.op == i && e.back.Some? && EndingOf(e.back.value) == how;
    if t.log != s.log {
      var e := t.log[|s.log|];
      assert t.log == s.log + [e];
      CountOfOneMore(s.log, e, p);
    }
  }

  lemma MoveTells(tr: Trial, j: nat, m: Move, latency: int, errKind: string, i: nat, good: bool)
    requires j < |tr.at|
    ensures Outcomes(tr.calls + CallsOf(tr, j, m, latency, errKind), i, good) ==
            Outcomes(tr.calls, i, good)
            + (if m.Return? && !m.out.Panic? && i == j && m.out.Ok? == good then 1 else 0)
            + (if m.FreeToken? && i == j && j in tr.panicked && !good then 1 else 0)
  {
    var p := (c: Call) => c.Added? && c.id == i && c.outcome.success == good;
    var more := CallsOf(tr, j, m, latency, errKind);
    if more == [] {
      assert tr.calls + more == tr.calls;
    } else {
      CountOfOneMore(tr.calls, more[0], p);
      if |more| > 1 {
        assert tr.calls + more == tr.calls + [more[0]] + [more[1]];
        CountOfOneMore(tr.calls + [more[0]], more[1], p);
      } else {
        assert more == [more[0]];
      }
    }
  }

  // After the work of an operation is over it does not begin again.
  lemma OverStays(g: Graph, limit: nat, s: Sys, j: nat, m: Move)
    requires Fits(s) && j < |s.runs| && MayMove(g, limit, s, j, m)
    ensures var t := Moved(g, limit, s, j, m);
            && |t.runs| == |s.runs| && (forall i :: 0 <= i < |s.runs| && i != j ==> t.runs[i] == s.runs[i])
            && (Over(s.runs[j].phase) ==> Over(t.runs[j].phase) && !m.Return? && !m.Launch?)
            && (m.Return? && m.out.Panic? ==> Over(t.runs[j].phase))
  {
    MoveIsLocal(g, limit, s, j, m);
    MoveSteps(g, limit, s, j, m);
  }

  lemma MoveKeepsReckoned(g: Graph, limit: nat, tr: Trial, j: nat, m: Move, latency: int, errKind: string, i: nat)
    requires WellFormed(g) && Told(g, limit, tr) && Fits(tr.sys) && j < |tr.sys.runs| && MayMove(g, limit, tr.sys, j, m)
    requires Enabled(g, limit, tr.sys, Advance(j, m)) && Reckoned(tr, i)
    ensures Reckoned(Stepped(g, limit, tr, Advance(j, m), latency, errKind), i)
  {
    hide Sound, Shape, Reach, Fits, Moved, MayMove, Followed, Logged, Ends, Outcomes, CallsOf, Flying, Over;
    var t := Moved(g, limit, tr.sys, j, m);
    MoveIsLogged(g, limit, tr.sys, j, m);
    MoveFlies(g, limit, tr.sys, j, m);
    OverStays(g, limit, tr.sys, j, m);
    MoveEnds(tr.sys, t, j, m, i, Fine);
    MoveEnds(tr.sys, t, j, m, i, Failed);
    MoveEnds(tr.sys, t, j, m, i, Died);
    MoveTells(tr, j, m, latency, errKind, i, true);
    MoveTells(tr, j, m, latency, errKind, i, false);
    if i != j {
      FliesAlike(tr.sys, t, j, i);
    }
  }

  lemma FliesAlike(s: Sys, t: Sys, j: nat, i: nat)
    requires |s.runs| == |t.runs| && i != j && (i < |s.runs| ==> t.runs[i] == s.runs[i])
    ensures Flying(t, i) <==> Flying(s, i)
  {
  }

  lemma DecideKeepsReckoned(g: Graph, limit: nat, tr: Trial, step: Step, j: nat)
    requires WellFormed(g) && Told(g, limit, tr) && Enabled(g, limit, tr.sys, step) && !step.Advance?
    requires step.Decide? ==> tr.now.Some?
    requires Reckoned(tr, j)
    ensures Reckoned(Stepped(g, limit, tr, step, 0, ""), j)
  {
    hide Sound, Valid, Fits, Reach, Followed, Dispatched, Legal, MayRoll, StartRoll, Free, Ends, Outcomes;
    if step.Decide? && step.choice.Do? {
      DispatchedAppends(g, tr.sys, step.choice.node, step.choice.act);
      ParkedIsNew(tr.sys, Taken(g, limit, tr.sys, step), j);
    } else {
      SamePhases(tr.sys, Taken(g, limit, tr.sys, step), j);
    }
  }

  lemma ParkedIsNew(s: Sys, t: Sys, j: nat)
    requires Appended(s, t)
    ensures Flying(t, j) <==> Flying(s, j)
    ensures j < |s.runs| ==> t.runs[j] == s.runs[j]
  {
  }

  lemma SamePhases(s: Sys, t: Sys, j: nat)
    requires t.runs == s.runs
    ensures Flying(t, j) <==> Flying(s, j)
  {
  }

  lemma StepIgnoresMeasure(g: Graph, limit: nat, tr: Trial, step: Step, latency: int, errKind: string)
    requires WellFormed(g) && Told(g, limit, tr) && Enabled(g, limit, tr.sys, step) && !step.Advance?
    requires step.Decide? ==> tr.now.Some?
    ensures Stepped(g, limit, tr, step, latency, errKind) == Stepped(g, limit, tr, step, 0, "")
  {
  }

  lemma TickKeepsReckoned(tr: Trial, offset: nat, j: nat)
    requires Reckoned(tr, j)
    ensures Reckoned(Ticked(tr, offset), j)
  {
    CountOfOneMore(tr.calls, Advanced(offset), (c: Call) => c.Added? && c.id == j && c.outcome.success == true);
    CountOfOneMore(tr.calls, Advanced(offset), (c: Call) => c.Added? && c.id == j && c.outcome.success == false);
  }

  lemma {:induction false} RunIsReckoned(g: Graph, limit: nat, hs: seq<Happening>, tr: Trial, j: nat)
    requires WellFormed(g) && Tried(g, limit, hs) == Some(tr)
    ensures Reckoned(tr, j)
  {
    hide Reckoned, Told, Shape, Enabled, Stepped, Ticked, Free, Start;
    if hs == [] {
      NothingReckoned(g, j);
    } else {
      var before := Tried(g, limit, hs[..|hs| - 1]).value;
      RunIsReckoned(g, limit, hs[..|hs| - 1], before, j);
      match hs[|hs| - 1]
      case Tick(o) => TickKeepsReckoned(before, o, j);
      case Happens(step, latency, errKind) =>
        if step.Advance? {
          AdvanceIsMove(g, limit, before, step.j, step.move);
          MoveKeepsReckoned(g, limit, before, step.j, step.move, latency, errKind, j);
        } else {
          StepIgnoresMeasure(g, limit, before, step, latency, errKind);
          DecideKeepsReckoned(g, limit, before, step, j);
        }
    }
  }

  lemma AdvanceIsMove(g: Graph, limit: nat, tr: Trial, j: nat, m: Move)
    requires WellFormed(g) && Told(g, limit, tr) && Enabled(g, limit, tr.sys, Advance(j, m))
    ensures Fits(tr.sys) && j < |tr.sys.runs| && MayMove(g, limit, tr.sys, j, m)
  {
  }

  lemma NothingReckoned(g: Graph, j: nat)
    ensures Reckoned(Trial(Start(g), [], None, [], {}, []), j)
  {
  }

  /** Every call is reported once: of each operation the buckets are told as many
      successes as calls of it came back with nil, and as many failures as came
      back with an error, and one more for a panic once it is no longer in flight. */
  lemma CallsAreReported(g: Graph, limit: nat, hs: seq<Happening>, tr: Trial, j: nat)
    requires WellFormed(g) && Tried(g, limit, hs) == Some(tr)
    ensures Outcomes(tr.calls, j, true) == Ends(tr.sys.log, j, Fine)
    ensures Outcomes(tr.calls, j, false) ==
            Ends(tr.sys.log, j, Failed) + (if Flying(tr.sys, j) then 0 else Ends(tr.sys.log, j, Died))
    ensures Ends(tr.sys.log, j, Died) <= 1
  {
    hide Ends, Outcomes, Flying;
    RunIsReckoned(g, limit, hs, tr, j);
  }

  // A later offset falls in no earlier slot.
  lemma IndexGrows(width: int, count: nat, a: nat, b: nat)
    requires width > 0 && a <= b
    ensures Buckets.Index(width, count, a) <= Buckets.Index(width, count, b)
  {
    QuotientGrows(a, b, width);
  }

  lemma QuotientGrows(a: nat, b: nat, w: int)
    requires w > 0 && a <= b
    ensures 0 <= a / w <= b / w
  {
    var x, y := a / w, b / w + 1;
    assert x * w <= a && b < y * w by {
      assert a == w * (a / w) + a % w && b == w * (b / w) + b % w;
    }
    Cancels(x, y, w);
  }

  lemma Cancels(x: int, y: int, w: int)
    requires w > 0 && x * w < y * w
    ensures x < y
  {
    assert (y - x) * w > 0;
  }

  // The buckets are where the calls so far have taken them.
  ghost predicate UpTo(r: Buckets.Results, calls: seq<Call>)
    reads r
  {
    && r.Valid() && Followed(calls).Some? && r.log == OutcomesOf(calls)
    && var p := Followed(calls).value;
    && r.running == p.running
    && match p.now
       case None => r.cur == 0 && p.running == map[]
       case Some(o) => r.slots != [] && r.cur == Buckets.Index(r.width, r.Limit(), o)
  }

  // One call of the scheduler or an operation.
  method Tell(r: Buckets.Results, c: Call, ghost calls: seq<Call>)
    requires UpTo(r, calls) && Followed(calls + [c]).Some?
    modifies r
    ensures UpTo(r, calls + [c]) && r.Limit() == old(r.Limit())
  {
    hide Buckets.Index, Followed, OutcomesOf;
    ghost var p := Followed(calls).value;
    OneMoreCall(calls, c);
    match c
    case Advanced(o) =>
      if p.now.Some? {
        IndexGrows(r.width, r.Limit(), p.now.value, o);
      }
      r.Advance(o);
    case Begun(id, o) => r.Begin(id, o);
    case Added(id, out) => r.Add(id, out);
    case Ended(id, o) => r.End(id, o);
  }

  /** In every run the offsets reached do not decrease, an operation begins once, at
      the current offset, and adds outcomes only until it ends; and those in flight
      are those launched whose pending token is not yet given back. */
  lemma RunsFollowProtocol(g: Graph, limit: nat, hs: seq<Happening>, tr: Trial)
    requires WellFormed(g) && Tried(g, limit, hs) == Some(tr)
    ensures |tr.at| == |tr.sys.runs| && Followed(tr.calls) == Some(Protocol(InFlight(tr.sys, tr.at), tr.now))
  {
    hide Sound, Shape, Reach, InFlight, Followed;
  }

  lemma PrefixIsFollowed(calls: seq<Call>, k: nat)
    requires k <= |calls| && Followed(calls).Some?
    ensures Followed(calls[..k]).Some?
    decreases |calls| - k
  {
    if k < |calls| {
      PrefixIsFollowed(calls, k + 1);
      assert calls[..k + 1][..k] == calls[..k];
    } else {
      assert calls[..k] == calls;
    }
  }

  // All calls, told to fresh buckets.
  method TellAll(r: Buckets.Results, calls: seq<Call>)
    requires Followed(calls).Some? && r.Valid() && r.log == [] && r.running == map[] && r.cur == 0
    modifies r
    ensures UpTo(r, calls) && r.Limit() == old(r.Limit())
  {
    hide Followed, OutcomesOf, UpTo;
    FreshIsUpTo(r);
    for k := 0 to |calls|
      invariant UpTo(r, calls[..k]) && r.Limit() == old(r.Limit())
    {
      assert calls[..k + 1] == calls[..k] + [calls[k]];
      PrefixIsFollowed(calls, k + 1);
      Tell(r, calls[k], calls[..k]);
    }
    assert calls[..|calls|] == calls;
  }

  lemma FreshIsUpTo(r: Buckets.Results)
    requires r.Valid() && r.log == [] && r.running == map[] && r.cur == 0
    ensures UpTo(r, [])
  {
    NoCalls();
  }

  /** The report of any run: whatever the interleaving, fresh buckets that are told
      its calls report what the plain list of its outcomes gives. */
  method ReportRun(r: Buckets.Results, calls: seq<Call>, ghost g: Graph, ghost limit: nat, ghost hs: seq<Happening>)
    returns (out: seq<Buckets.Bucket>)
    requires WellFormed(g) && Tried(g, limit, hs).Some? && calls == Tried(g, limit, hs).value.calls
    requires r.Valid() && r.log == [] && r.running == map[] && r.cur == 0
    modifies r
    ensures r.Valid() && |out| == |r.slots|
    ensures forall i :: 0 <= i < |out| ==> out[i] == Buckets.Plain(r.width, r.Limit(), OutcomesOf(calls), i)
    ensures forall i :: 0 <= i < |out| ==> Buckets.Tells(out[i], r.width, r.Limit(), OutcomesOf(calls), i)
  {
    hide Buckets.Index, Followed, OutcomesOf, Tried, Buckets.Plain, Told, Buckets.Tells;
    RunsFollowProtocol(g, limit, hs, Tried(g, limit, hs).value);
    TellAll(r, calls);
    out := r.Report();
  }

  lemma NoCalls()
    ensures Followed([]) == Some(Protocol(map[], None)) && OutcomesOf([]) == []
  {
  }
}
