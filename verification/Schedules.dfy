/** The schedule does not depend on the cloud: whatever the operations do, the
    scheduler's state is what its own decisions make it. */
module Schedules {
  import opened Options
  import opened Graphs
  import opened Scheduling
  import opened Policy
  import opened Rolling
  import opened Execution
  import opened Ordering
  import opened Runs

  function StepChoices(step: Step): seq<Choice>
  {
    match step case Decide(c) => [c] case Cancel => [] case Advance(_, _) => []
  }

  // The decisions of a run, in order.
  function Choices(steps: seq<Step>): seq<Choice>
  {
    if steps == [] then []
    else Choices(steps[..|steps| - 1]) + StepChoices(steps[|steps| - 1])
  }

  lemma ChoicesOneMore(steps: seq<Step>, step: Step)
    ensures Choices(steps + [step]) == Choices(steps) + StepChoices(step)
  {
    assert (steps + [step])[..|steps|] == steps;
  }

  lemma StepKeepsSchedule(g: Graph, limit: nat, s: Sys, step: Step)
    requires WellFormed(g) && Sound(g, limit, s) && Enabled(g, limit, s, step)
    ensures match step
            case Decide(c) => Next(g, s.sch, c) == Some(Taken(g, limit, s, step).sch)
            case Cancel => Taken(g, limit, s, step).sch == s.sch
            case Advance(_, _) => Taken(g, limit, s, step).sch == s.sch
  {
    hide Valid, Ordered, Traced, Balanced, Moved, Decided;
    match step
    case Decide(c) => DecideKeepsShape(g, s, c);
    case Cancel =>
    case Advance(j, m) => MoveIsLocal(g, limit, s, j, m);
  }

  /** In every run, whatever the interleaving and the outcomes of the calls, the
      scheduler's state is that of its decisions alone. */
  lemma {:induction false} ScheduleIsItsDecisions(g: Graph, limit: nat, steps: seq<Step>, s: Sys)
    requires WellFormed(g) && Reach(g, limit, steps) == Some(s)
    ensures Exec(g, Choices(steps)) == Some(s.sch)
  {
    hide Valid, Sound, Enabled, Taken, Next;
    if steps == [] {
      assert s == Start(g);
    } else {
      var before := steps[..|steps| - 1];
      var step := steps[|steps| - 1];
      var r := Reach(g, limit, before).value;
      ScheduleIsItsDecisions(g, limit, before, r);
      assert Shape(g, r) by { SoundHasShape(g, limit, r); }
      StepKeepsSchedule(g, limit, r, step);
      ExecOfStep(g, Choices(before), step);
      assert Choices(steps) == Choices(before) + StepChoices(step);
    }
  }

  lemma ExecOfStep(g: Graph, choices: seq<Choice>, step: Step)
    requires WellFormed(g) && Exec(g, choices).Some?
    ensures Exec(g, choices + StepChoices(step)) ==
            match step
            case Decide(c) => Next(g, Exec(g, choices).value, c)
            case Cancel => Exec(g, choices)
            case Advance(_, _) => Exec(g, choices)
  {
    hide Valid, Next;
    if step.Decide? {
      assert (choices + StepChoices(step))[..|choices|] == choices;
    } else {
      assert choices + [] == choices;
    }
  }

  lemma SameChoicesSameSchedule(g: Graph, limit: nat, limit': nat, steps: seq<Step>, s: Sys, steps': seq<Step>, s': Sys)
    requires WellFormed(g) && Reach(g, limit, steps) == Some(s) && Reach(g, limit', steps') == Some(s')
    requires Choices(steps) == Choices(steps')
    ensures s.sch == s'.sch
  {
    hide Valid, Sound;
    ScheduleIsItsDecisions(g, limit, steps, s);
    ScheduleIsItsDecisions(g, limit', steps', s');
  }

  // The deletes left of a roll.
  function Deletes(left: seq<nat>): seq<Choice>
  {
    if left == [] then [] else [Do(left[0], Delete)] + Deletes(left[1..])
  }

  /** The choices a decision amounts to: a roll is followed by its deletes. */
  ghost function ChoicesOf(g: Graph, s: Sched, d: Decision): seq<Choice>
    requires WellFormed(g) && Valid(g, s) && |s.ns| == |g.nodes| && s.roll.left == [] && Decidable(g, s, d)
  {
    match d
    case Noop => []
    case Act(i, act) => [Do(i, act)]
    case RollSet(root) => ValidIsWired(g, s); [Replace(root)] + Deletes(StartRoll(g, s, root).roll.left)
  }

  ghost function ChoicesAt(g: Graph, cfg: Config, u: Draws, d: Driver): seq<Choice>
    requires WellFormed(g) && UnitDraws(u) && Valid(g, d.sch) && d.sch.roll.left == []
  {
    ValidFits(g, d.sch);
    DrawIsDecidable(g, cfg, d.sch, u, Begun(cfg, u, d).pos);
    ChoicesOf(g, d.sch, Upcoming(g, cfg, u, d))
  }

  /** The choices of the scheduler's first n steps, from the draws alone. */
  ghost function ScheduleOf(g: Graph, cfg: Config, u: Draws, n: nat): seq<Choice>
    requires WellFormed(g) && UnitDraws(u)
  {
    if n == 0 then [] else ScheduleOf(g, cfg, u, n - 1) + ChoicesAt(g, cfg, u, After(g, cfg, u, n - 1))
  }

  lemma {:induction false} FinishIsExec(g: Graph, choices: seq<Choice>, s: Sched)
    requires WellFormed(g) && Exec(g, choices) == Some(s) && Valid(g, s)
    ensures Exec(g, choices + Deletes(s.roll.left)) == Some(Finish(g, s))
    decreases |s.roll.left|
  {
    hide Valid, Exec;
    if s.roll.left == [] {
      assert choices + [] == choices;
    } else {
      var c := Do(s.roll.left[0], Delete);
      NextDelete(g, s);
      OneMoreChoice(g, choices, c);
      FinishIsExec(g, choices + [c], Next(g, s, c).value);
      assert choices + [c] + Deletes(s.roll.left[1..]) == choices + Deletes(s.roll.left);
    }
  }

  lemma NextDelete(g: Graph, s: Sched)
    requires WellFormed(g) && Valid(g, s) && s.roll.left != []
    ensures var n := Next(g, s, Do(s.roll.left[0], Delete));
            n.Some? && n.value.roll.left == s.roll.left[1..] && Finish(g, s) == Finish(g, n.value)
  {
    RollStep(g, s);
  }

  lemma OneMoreChoice(g: Graph, choices: seq<Choice>, c: Choice)
    requires WellFormed(g) && Exec(g, choices).Some?
    ensures Exec(g, choices + [c]) == Next(g, Exec(g, choices).value, c)
  {
    assert (choices + [c])[..|choices|] == choices;
  }

  lemma ApplyIsExec(g: Graph, choices: seq<Choice>, s: Sched, d: Decision)
    requires WellFormed(g) && Exec(g, choices) == Some(s) && Valid(g, s) && s.roll.left == []
    requires |s.ns| == |g.nodes| && Decidable(g, s, d)
    ensures Exec(g, choices + ChoicesOf(g, s, d)) == Some(Apply(g, s, d))
  {
    hide Valid, Exec, Finish, Wired, Legal, MayRoll, Dispatch, StartRoll, Deletes;
    ValidIsWired(g, s);
    match d
    case Noop => assert choices + [] == choices;
    case Act(i, act) => OneMoreChoice(g, choices, Do(i, act));
    case RollSet(root) => RollIsExec(g, choices, s, root);
  }

  lemma RollIsExec(g: Graph, choices: seq<Choice>, s: Sched, root: nat)
    requires WellFormed(g) && Exec(g, choices) == Some(s) && Valid(g, s) && s.roll.left == []
    requires |s.ns| == |g.nodes| && MayRoll(g, s, root) && Wired(g, s)
    ensures Exec(g, choices + ([Replace(root)] + Deletes(StartRoll(g, s, root).roll.left))) ==
            Some(Apply(g, s, RollSet(root)))
  {
    hide Valid, Exec, Finish, Wired, MayRoll, StartRoll, Deletes;
    var t := StartRoll(g, s, root);
    OneMoreChoice(g, choices, Replace(root));
    FinishIsExec(g, choices + [Replace(root)], t);
    assert choices + [Replace(root)] + Deletes(t.roll.left) == choices + ([Replace(root)] + Deletes(t.roll.left));
  }

  /** The scheduler's own steps make one of the schedules that every result about
      runs ranges over. */
  lemma {:induction false} StepsAreExec(g: Graph, cfg: Config, u: Draws, n: nat)
    requires WellFormed(g) && UnitDraws(u)
    ensures Exec(g, ScheduleOf(g, cfg, u, n)) == Some(After(g, cfg, u, n).sch)
  {
    hide Valid, Draw, Apply, Exec, ChoicesOf;
    if n == 0 {
      NoChoices(g);
    } else {
      var d := After(g, cfg, u, n - 1);
      StepsAreExec(g, cfg, u, n - 1);
      ValidFits(g, d.sch);
      DrawIsDecidable(g, cfg, d.sch, u, Begun(cfg, u, d).pos);
      ApplyIsExec(g, ScheduleOf(g, cfg, u, n - 1), d.sch, Upcoming(g, cfg, u, d));
    }
  }

  lemma NoChoices(g: Graph)
    requires WellFormed(g)
    ensures Exec(g, []) == Some(Initial(g))
  {
  }

  lemma {:induction false} ScheduleGrows(g: Graph, cfg: Config, u: Draws, m: nat, n: nat)
    requires WellFormed(g) && UnitDraws(u) && m <= n
    ensures ScheduleOf(g, cfg, u, m) <= ScheduleOf(g, cfg, u, n)
    decreases n
  {
    hide Valid, ChoicesAt, After;
    if m < n {
      ScheduleGrows(g, cfg, u, m, n - 1);
    }
  }
}
