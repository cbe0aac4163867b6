/** Runs whose decisions are drawn: whatever the operations do meanwhile, the draws
    fix what is decided. */
module Seeds {
  import opened Options
  import opened Graphs
  import opened Scheduling
  import opened Policy
  import opened Execution
  import opened Runs
  import opened Schedules

  // A run with the position of its generator, the steps left of its tick, and
  // the steps of the state machine it has taken.
  datatype Flight = Flight(sys: Sys, pos: nat, left: nat, steps: seq<Step>)

  // What happens next: the scheduler goes on, the run is cancelled, or an
  // operation moves.
  datatype Beat = Plan | Stop | Go(j: nat, move: Move)

  // The scheduler's next choice, if it has one, and where its generator is then.
  datatype Planned = Planned(choice: Option<Choice>, pos: nat, left: nat)

  function ChoiceOf(d: Decision): Option<Choice>
  {
    match d
    case Noop => None
    case Act(i, act) => Some(Do(i, act))
    case RollSet(root) => Some(Replace(root))
  }

  /** The next delete of a roll in progress, or else what is drawn from this very
      run's inventory at its generator's position. */
  function PlanOf(g: Graph, cfg: Config, u: Draws, f: Flight): Planned
    requires Linked(g) && |f.sys.sch.ns| == |g.nodes| && UnitDraws(u)
  {
    var sch := f.sys.sch;
    if sch.roll.left != [] then Planned(Some(Do(sch.roll.left[0], Delete)), f.pos, f.left)
    else
      var d := Begun(cfg, u, Driver(sch, f.pos, f.left));
      var drawn := Draw(g, cfg, sch.ns, u, d.pos);
      Planned(ChoiceOf(drawn.decision), drawn.pos, d.left - 1)
  }

  lemma PlanIsPossible(g: Graph, cfg: Config, u: Draws, f: Flight)
    requires WellFormed(g) && UnitDraws(u) && Valid(g, f.sys.sch) && |f.sys.sch.ns| == |g.nodes|
    ensures var p := PlanOf(g, cfg, u, f); p.choice.Some? ==> Next(g, f.sys.sch, p.choice.value).Some?
  {
    hide Draw, Begun;
    if f.sys.sch.roll.left != [] {
      NextDelete(g, f.sys.sch);
    } else {
      var d := Begun(cfg, u, Driver(f.sys.sch, f.pos, f.left));
      DrawIsDecidable(g, cfg, f.sys.sch, u, d.pos);
    }
  }

  // One more step of the state machine.
  ghost function Further(g: Graph, limit: nat, f: Flight, step: Step): (r: Flight)
    requires WellFormed(g) && Reach(g, limit, f.steps) == Some(f.sys) && Shape(g, f.sys)
    requires Enabled(g, limit, f.sys, step)
    ensures Reach(g, limit, r.steps) == Some(r.sys)
  {
    OneMoreStep(g, limit, f.steps, f.sys, step);
    f.(sys := Taken(g, limit, f.sys, step), steps := f.steps + [step])
  }

  // The scheduler goes on as planned: a no-op leaves no trace but its draws.
  ghost function PlannedOn(g: Graph, cfg: Config, u: Draws, limit: nat, f: Flight): (r: Flight)
    requires WellFormed(g) && UnitDraws(u) && Reach(g, limit, f.steps) == Some(f.sys) && Free(f.sys)
    ensures Reach(g, limit, r.steps) == Some(r.sys)
  {
    SoundHasShape(g, limit, f.sys);
    var p := PlanOf(g, cfg, u, f);
    PlanIsPossible(g, cfg, u, f);
    var r := if p.choice.None? then f else Further(g, limit, f, Decide(p.choice.value));
    r.(pos := p.pos, left := p.left)
  }

  /** A run driven by draws u, None once a beat is not possible. */
  ghost function Driven(g: Graph, cfg: Config, u: Draws, limit: nat, events: seq<Beat>): (r: Option<Flight>)
    requires WellFormed(g) && UnitDraws(u)
    ensures r.Some? ==> Reach(g, limit, r.value.steps) == Some(r.value.sys)
  {
    if events == [] then Some(Flight(Start(g), 0, 0, []))
    else
      match Driven(g, cfg, u, limit, events[..|events| - 1])
      case None => None
      case Some(f) =>
        SoundHasShape(g, limit, f.sys);
        match events[|events| - 1]
        case Plan => if Free(f.sys) then Some(PlannedOn(g, cfg, u, limit, f)) else None
        case Stop => Some(Further(g, limit, f, Cancel))
        case Go(j, m) =>
          if Enabled(g, limit, f.sys, Advance(j, m)) then Some(Further(g, limit, f, Advance(j, m))) else None
  }

  // Up to the deletes left of a roll, n steps have been made.
  ghost predicate MadeSteps(g: Graph, cfg: Config, u: Draws, f: Flight, n: nat)
    requires WellFormed(g) && UnitDraws(u) && Valid(g, f.sys.sch)
  {
    && Choices(f.steps) + Deletes(f.sys.sch.roll.left) == ScheduleOf(g, cfg, u, n)
    && Driver(Finish(g, f.sys.sch), f.pos, f.left) == After(g, cfg, u, n)
  }

  // What does not decide leaves the schedule as it is.
  lemma OtherEventsKeepSteps(g: Graph, cfg: Config, u: Draws, limit: nat, f: Flight, step: Step, n: nat)
    requires WellFormed(g) && UnitDraws(u) && Reach(g, limit, f.steps) == Some(f.sys) && Shape(g, f.sys)
    requires Enabled(g, limit, f.sys, step) && !step.Decide? && MadeSteps(g, cfg, u, f, n)
    ensures Valid(g, Further(g, limit, f, step).sys.sch)
    ensures MadeSteps(g, cfg, u, Further(g, limit, f, step), n)
  {
    hide Sound, Valid, Finish, ScheduleOf, After, Enabled, Taken;
    StepKeepsSchedule(g, limit, f.sys, step);
    ChoicesOneMore(f.steps, step);
    assert Choices(f.steps) + [] == Choices(f.steps);
  }

  // The next delete of a roll in progress.
  lemma RollKeepsSteps(g: Graph, cfg: Config, u: Draws, limit: nat, f: Flight, n: nat)
    requires WellFormed(g) && UnitDraws(u) && Reach(g, limit, f.steps) == Some(f.sys) && Free(f.sys)
    requires Valid(g, f.sys.sch) && MadeSteps(g, cfg, u, f, n) && f.sys.sch.roll.left != []
    ensures Valid(g, PlannedOn(g, cfg, u, limit, f).sys.sch)
    ensures MadeSteps(g, cfg, u, PlannedOn(g, cfg, u, limit, f), n)
  {
    hide Sound, Valid, Finish, ScheduleOf, After, Taken, Next, Free;
    SoundHasShape(g, limit, f.sys);
    PlanIsPossible(g, cfg, u, f);
    var left := f.sys.sch.roll.left;
    var c := Do(left[0], Delete);
    NextDelete(g, f.sys.sch);
    StepKeepsSchedule(g, limit, f.sys, Decide(c));
    ChoicesOneMore(f.steps, Decide(c));
    assert Choices(f.steps) + [c] + Deletes(left[1..]) == Choices(f.steps) + Deletes(left);
  }

  // A decision drawn.
  lemma DrawMakesStep(g: Graph, cfg: Config, u: Draws, limit: nat, f: Flight, n: nat)
    requires WellFormed(g) && UnitDraws(u) && Reach(g, limit, f.steps) == Some(f.sys) && Free(f.sys)
    requires Valid(g, f.sys.sch) && MadeSteps(g, cfg, u, f, n) && f.sys.sch.roll.left == []
    ensures Valid(g, PlannedOn(g, cfg, u, limit, f).sys.sch)
    ensures MadeSteps(g, cfg, u, PlannedOn(g, cfg, u, limit, f), n + 1)
  {
    hide Sound, Valid, Taken, Next, Free, Draw, Begun, ScheduleOf, After, ChoicesOf, Apply, Finish, Decidable;
    SoundHasShape(g, limit, f.sys);
    PlanIsPossible(g, cfg, u, f);
    FinishedIs(g, f.sys.sch);
    assert Choices(f.steps) + [] == Choices(f.steps);
    var b := Begun(cfg, u, Driver(f.sys.sch, f.pos, f.left));
    var d := Upcoming(g, cfg, u, Driver(f.sys.sch, f.pos, f.left));
    DrawIsDecidable(g, cfg, f.sys.sch, u, b.pos);
    StepFromHere(g, cfg, u, n);
    ChoiceStartsDecision(g, f.sys.sch, d);
    var c := ChoiceOf(d);
    if c.Some? {
      StepKeepsSchedule(g, limit, f.sys, Decide(c.value));
      ChoicesOneMore(f.steps, Decide(c.value));
      var t := Next(g, f.sys.sch, c.value).value;
      assert Choices(f.steps) + [c.value] + Deletes(t.roll.left) ==
             Choices(f.steps) + ([c.value] + Deletes(t.roll.left));
    }
  }

  // The step after the first n, and its choices.
  lemma StepFromHere(g: Graph, cfg: Config, u: Draws, n: nat)
    requires WellFormed(g) && UnitDraws(u)
    ensures var a := After(g, cfg, u, n);
            && |a.sch.ns| == |g.nodes|
            && var b := Begun(cfg, u, a);
            var drawn := Draw(g, cfg, a.sch.ns, u, b.pos);
            && Decidable(g, a.sch, drawn.decision)
            && ScheduleOf(g, cfg, u, n + 1) == ScheduleOf(g, cfg, u, n) + ChoicesOf(g, a.sch, drawn.decision)
            && After(g, cfg, u, n + 1) == Driver(Apply(g, a.sch, drawn.decision), drawn.pos, b.left - 1)
  {
    hide Valid, Draw, Begun, ChoicesOf, Apply, Decidable, After;
    NextStep(g, cfg, u, n);
  }

  // A decision's first choice, and what is left after it.
  lemma ChoiceStartsDecision(g: Graph, s: Sched, d: Decision)
    requires WellFormed(g) && Valid(g, s) && |s.ns| == |g.nodes| && s.roll.left == [] && Decidable(g, s, d)
    ensures match ChoiceOf(d)
            case None => ChoicesOf(g, s, d) == [] && Apply(g, s, d) == s
            case Some(c) =>
              && Next(g, s, c).Some?
              && var t := Next(g, s, c).value;
              ChoicesOf(g, s, d) == [c] + Deletes(t.roll.left) && Apply(g, s, d) == Finish(g, t)
  {
    hide Valid, Wired, RollGoing, StartRoll;
    ValidIsWired(g, s);
    if d.Act? {
      DispatchKeepsNoRoll(g, s, d.node, d.act);
    }
  }

  lemma DispatchKeepsNoRoll(g: Graph, s: Sched, i: nat, act: Action)
    requires WellFormed(g) && Valid(g, s) && |s.ns| == |g.nodes| && s.roll.left == [] && Legal(g, s, i, act)
    ensures Wired(g, s) && RollGoing(g, s) && Dispatch(g, s, i, act).roll.left == []
  {
  }

  /** In every run driven by the draws, the choices made so far, with what is left
      of a roll in progress, are those of some number of steps. */
  lemma {:induction false} DrivenIsScheduled(g: Graph, cfg: Config, u: Draws, limit: nat, events: seq<Beat>, f: Flight)
    returns (n: nat)
    requires WellFormed(g) && UnitDraws(u) && Driven(g, cfg, u, limit, events) == Some(f)
    ensures Valid(g, f.sys.sch) && MadeSteps(g, cfg, u, f, n)
  {
    hide Sound, Valid, MadeSteps, Reach, Further, PlannedOn, Free, MayMove;
    if events == [] {
      n := 0;
      InitialIsValid(g);
      NoneMade(g, cfg, u);
    } else {
      var before := Driven(g, cfg, u, limit, events[..|events| - 1]).value;
      n := DrivenIsScheduled(g, cfg, u, limit, events[..|events| - 1], before);
      SoundHasShape(g, limit, before.sys);
      match events[|events| - 1]
      case Stop => OtherEventsKeepSteps(g, cfg, u, limit, before, Cancel, n);
      case Go(j, m) => OtherEventsKeepSteps(g, cfg, u, limit, before, Advance(j, m), n);
      case Plan =>
        if before.sys.sch.roll.left == [] {
          DrawMakesStep(g, cfg, u, limit, before, n);
          n := n + 1;
        } else {
          RollKeepsSteps(g, cfg, u, limit, before, n);
        }
    }
  }

  lemma NoneMade(g: Graph, cfg: Config, u: Draws)
    requires WellFormed(g) && UnitDraws(u)
    ensures Valid(g, Start(g).sch) && MadeSteps(g, cfg, u, Flight(Start(g), 0, 0, []), 0)
  {
    InitialIsValid(g);
  }

  /** The schedule does not depend on the cloud. Of two runs driven by the same
      draws, however their operations interleave and whatever their calls return,
      whenever either is cancelled and whatever their limits, one has made the
      first of the other's choices; and if they have made equally many, they have
      the same operations, dependencies and inventory. */
  lemma DrawsFixSchedule(g: Graph, cfg: Config, u: Draws, limit: nat, events: seq<Beat>, f: Flight,
                         limit': nat, events': seq<Beat>, f': Flight)
    requires WellFormed(g) && UnitDraws(u)
    requires Driven(g, cfg, u, limit, events) == Some(f) && Driven(g, cfg, u, limit', events') == Some(f')
    ensures Choices(f.steps) <= Choices(f'.steps) || Choices(f'.steps) <= Choices(f.steps)
    ensures |Choices(f.steps)| == |Choices(f'.steps)| ==> f.sys.sch == f'.sys.sch
  {
    hide Sound, Valid, Reach, Driven, ScheduleOf, Finish, After;
    var n := DrivenIsScheduled(g, cfg, u, limit, events, f);
    var n' := DrivenIsScheduled(g, cfg, u, limit', events', f');
    var m := if n < n' then n' else n;
    ScheduleGrows(g, cfg, u, n, m);
    ScheduleGrows(g, cfg, u, n', m);
    PrefixesCompare(Choices(f.steps), Choices(f'.steps), ScheduleOf(g, cfg, u, m));
    if |Choices(f.steps)| == |Choices(f'.steps)| {
      SameChoicesSameSchedule(g, limit, limit', f.steps, f.sys, f'.steps, f'.sys);
    }
  }

  lemma PrefixesCompare(a: seq<Choice>, b: seq<Choice>, c: seq<Choice>)
    requires a <= c && b <= c
    ensures a <= b || b <= a
    ensures |a| == |b| ==> a == b
  {
    assert a == c[..|a|] && b == c[..|b|];
  }

  lemma OneMoreEvent(g: Graph, cfg: Config, u: Draws, limit: nat, events: seq<Beat>, e: Beat, f: Flight)
    requires WellFormed(g) && UnitDraws(u) && Driven(g, cfg, u, limit, events) == Some(f)
    ensures Shape(g, f.sys)
    ensures e.Plan? && Free(f.sys) ==>
              Driven(g, cfg, u, limit, events + [e]) == Some(PlannedOn(g, cfg, u, limit, f))
    ensures e.Stop? ==> Driven(g, cfg, u, limit, events + [e]) == Some(Further(g, limit, f, Cancel))
    ensures e.Go? && Enabled(g, limit, f.sys, Advance(e.j, e.move)) ==>
              Driven(g, cfg, u, limit, events + [e]) == Some(Further(g, limit, f, Advance(e.j, e.move)))
  {
    hide Sound, Reach, PlannedOn, Further, MayMove, Free;
    SoundHasShape(g, limit, f.sys);
    assert (events + [e])[..|events|] == events;
  }

  // The steps so far leave choices to make: none of the schedule's first n steps
  // may be left without having made them.
  lemma {:induction false} NextChoiceComes(g: Graph, cfg: Config, u: Draws, limit: nat, events: seq<Beat>, f: Flight,
                                           m: nat, n: nat, c: Choice) returns (more: seq<Beat>, t: Flight)
    requires WellFormed(g) && UnitDraws(u) && Driven(g, cfg, u, limit, events) == Some(f) && Free(f.sys)
    requires Valid(g, f.sys.sch) && MadeSteps(g, cfg, u, f, m) && Choices(f.steps) + [c] <= ScheduleOf(g, cfg, u, n)
    ensures Driven(g, cfg, u, limit, more) == Some(t) && Shape(g, f.sys)
    ensures Enabled(g, limit, f.sys, Decide(c))
    ensures t.sys == Taken(g, limit, f.sys, Decide(c)) && t.steps == f.steps + [Decide(c)]
    decreases if n > m then n - m else 0
  {
    hide Sound, Valid, Reach, Driven, ScheduleOf, After, Finish, Draw, Begun, Taken, Free, Next;
    SoundHasShape(g, limit, f.sys);
    PlanIsPossible(g, cfg, u, f);
    PlanIsNext(g, cfg, u, f, m, n, c);
    OneMoreEvent(g, cfg, u, limit, events, Plan, f);
    var p := PlanOf(g, cfg, u, f);
    more, t := events + [Plan], PlannedOn(g, cfg, u, limit, f);
    if p.choice.None? {
      DrawMakesStep(g, cfg, u, limit, f, m);
      more, t := NextChoiceComes(g, cfg, u, limit, more, t, m + 1, n, c);
    }
  }

  // The plan is the schedule's next choice, or a no-op of one of the n steps.
  lemma PlanIsNext(g: Graph, cfg: Config, u: Draws, f: Flight, m: nat, n: nat, c: Choice)
    requires WellFormed(g) && UnitDraws(u) && Valid(g, f.sys.sch) && |f.sys.sch.ns| == |g.nodes|
    requires MadeSteps(g, cfg, u, f, m) && Choices(f.steps) + [c] <= ScheduleOf(g, cfg, u, n)
    ensures var p := PlanOf(g, cfg, u, f).choice;
            p == Some(c) || (p == None && m < n && f.sys.sch.roll.left == [])
  {
    hide Valid, Draw, Begun, ScheduleOf, After, Finish, ChoicesOf, Apply, Decidable;
    var left := f.sys.sch.roll.left;
    var made := Choices(f.steps);
    if left != [] {
      assert (made + Deletes(left))[|made|] == Do(left[0], Delete);
      BothBegin(g, cfg, u, m, n, made, Do(left[0], Delete), c);
    } else {
      FinishedIs(g, f.sys.sch);
      assert made + [] == made;
      MoreToMake(g, cfg, u, m, n, made, c);
      var d := Upcoming(g, cfg, u, Driver(f.sys.sch, f.pos, f.left));
      StepFromHere(g, cfg, u, m);
      ChoiceStartsDecision(g, f.sys.sch, d);
      if ChoiceOf(d).Some? {
        assert ScheduleOf(g, cfg, u, m + 1)[|made|] == ChoiceOf(d).value;
        BothBegin(g, cfg, u, m + 1, n, made, ChoiceOf(d).value, c);
      }
    }
  }

  // Two schedules that go on from the same choices go on alike.
  lemma BothBegin(g: Graph, cfg: Config, u: Draws, m: nat, n: nat, made: seq<Choice>, a: Choice, b: Choice)
    requires WellFormed(g) && UnitDraws(u)
    requires |made| < |ScheduleOf(g, cfg, u, m)| && ScheduleOf(g, cfg, u, m)[|made|] == a
    requires made + [b] <= ScheduleOf(g, cfg, u, n)
    ensures a == b
  {
    hide ScheduleOf;
    assert (made + [b])[|made|] == b;
    if m <= n {
      ScheduleGrows(g, cfg, u, m, n);
    } else {
      ScheduleGrows(g, cfg, u, n, m);
    }
  }

  // What the first n steps choose more than the first m, they choose later.
  lemma MoreToMake(g: Graph, cfg: Config, u: Draws, m: nat, n: nat, made: seq<Choice>, c: Choice)
    requires WellFormed(g) && UnitDraws(u) && made == ScheduleOf(g, cfg, u, m) && made + [c] <= ScheduleOf(g, cfg, u, n)
    ensures m < n
  {
    hide ScheduleOf;
    if n <= m {
      ScheduleGrows(g, cfg, u, n, m);
    }
  }

  /** ... and every run that makes the first of these choices is driven by the draws. */
  lemma {:induction false} ScheduledIsDriven(g: Graph, cfg: Config, u: Draws, limit: nat, steps: seq<Step>, s: Sys,
                                             n: nat)
    returns (events: seq<Beat>, f: Flight)
    requires WellFormed(g) && UnitDraws(u) && Reach(g, limit, steps) == Some(s)
    requires Choices(steps) <= ScheduleOf(g, cfg, u, n)
    ensures Driven(g, cfg, u, limit, events) == Some(f) && f.sys == s && f.steps == steps
  {
    hide Sound, Valid, ScheduleOf, Driven, Taken, MadeSteps, PlannedOn, MayMove, Free;
    if steps == [] {
      events, f := [], Flight(Start(g), 0, 0, []);
      NothingDriven(g, cfg, u, limit);
    } else {
      var before, step := steps[..|steps| - 1], steps[|steps| - 1];
      assert before + [step] == steps;
      ChoicesOneMore(before, step);
      var r := Reach(g, limit, before).value;
      events, f := ScheduledIsDriven(g, cfg, u, limit, before, r, n);
      SoundHasShape(g, limit, r);
      match step
      case Decide(c) =>
        var m := DrivenIsScheduled(g, cfg, u, limit, events, f);
        events, f := NextChoiceComes(g, cfg, u, limit, events, f, m, n, c);
      case Cancel =>
        OneMoreEvent(g, cfg, u, limit, events, Stop, f);
        events, f := events + [Stop], Further(g, limit, f, Cancel);
      case Advance(j, m) =>
        OneMoreEvent(g, cfg, u, limit, events, Go(j, m), f);
        events, f := events + [Go(j, m)], Further(g, limit, f, Advance(j, m));
    }
  }

  lemma NothingDriven(g: Graph, cfg: Config, u: Draws, limit: nat)
    requires WellFormed(g) && UnitDraws(u)
    ensures Driven(g, cfg, u, limit, []) == Some(Flight(Start(g), 0, 0, []))
  {
  }
}
