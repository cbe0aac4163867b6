/** Runs of one rolling set in which operations on siblings are in flight together,
    and one in which a delete has removed its instance before it finishes. */
module Overlap {
  import opened Options
  import opened Graphs
  import opened Scheduling
  import opened Execution
  import opened Runs
  import opened Created
  import opened Policy
  import opened Schedules
  import opened Seeds
  import opened Flights
  import opened Serial

  // A rolling set: a root and its two children.
  function Family(): Graph
  {
    Graph([Node("root", [], None, false, "set", false),
           Node("left", ["root"], None, false, "set", false),
           Node("right", ["root"], None, false, "set", false)],
          [[], [0], [0]], [[1, 2], [], []])
  }

  lemma FamilyIsWellFormed()
    ensures WellFormed(Family())
  {
    assert IsHeight(Family(), [1, 0, 0]);
  }

  // The family, all created.
  lemma FamilyBorn(limit: nat) returns (steps: seq<Step>, s: Sys)
    requires limit > 0
    ensures WellFormed(Family()) && Reach(Family(), limit, steps) == Some(s)
    ensures Choices(steps) == [Do(0, Create), Do(1, Create), Do(2, Create)]
    ensures Shape(Family(), s) && Grown(s) && |s.runs| == 3 && s.sch.roll.left == []
    ensures s.sch.ns == [NodeState(true, false, Some(0), Some(0)), NodeState(true, false, Some(1), Some(1)),
                         NodeState(true, false, Some(2), Some(2))]
  {
    hide Sound, Fits, Grown, Valid, WellFormed, Reach, Present;
    FamilyIsWellFormed();
    steps, s := [], Start(Family());
    assert Choices(steps) == [] && [Do(0, Create)] + [Do(1, Create)] == [Do(0, Create), Do(1, Create)];
    StartIsGrown(Family(), limit);
    steps, s := Born(Family(), limit, steps, s, 0);
    steps, s := Born(Family(), limit, steps, s, 1);
    steps, s := Born(Family(), limit, steps, s, 2);
  }

  lemma LeafVisit(g: Graph, i: nat, alive: set<nat>)
    requires WellFormed(g) && i < |g.nodes| && g.children[i] == []
    ensures Visit(g, i, alive) == [i]
  {
  }

  lemma ChildVisit(g: Graph, i: nat, k: nat, alive: set<nat>)
    requires WellFormed(g) && i < |g.nodes| && k < |g.children[i]|
    requires var c := Child(g, i, k); c in alive && g.children[c] == []
    ensures VisitFrom(g, i, k, alive) == [g.children[i][k]] + VisitFrom(g, i, k + 1, alive - {g.children[i][k]})
  {
    LeafVisit(g, Child(g, i, k), alive);
    assert Elems([Child(g, i, k)]) == {Child(g, i, k)};
  }

  lemma FamilyVisit()
    requires WellFormed(Family())
    ensures Visit(Family(), 0, {0, 1, 2}) == [1, 2, 0]
  {
    hide WellFormed, VisitFrom;
    assert {0, 1, 2} - {1} - {2} == {0};
    ChildVisit(Family(), 0, 0, {0, 1, 2});
    ChildVisit(Family(), 0, 1, {0, 1, 2} - {1});
    NoneLeft(Family(), 0, {0});
  }

  lemma NoneLeft(g: Graph, i: nat, alive: set<nat>)
    requires WellFormed(g) && i < |g.nodes|
    ensures VisitFrom(g, i, |g.children[i]|, alive) == []
  {
  }

  lemma FamilyRolls(s: Sched)
    requires WellFormed(Family()) && Valid(Family(), s) && s.roll.left == []
    requires s.ns == [NodeState(true, false, Some(0), Some(0)), NodeState(true, false, Some(1), Some(1)),
                      NodeState(true, false, Some(2), Some(2))]
    ensures MayRoll(Family(), s, 0)
    ensures var r := StartRoll(Family(), s, 0).roll;
            r.left == [1, 2, 0] && r.start == |s.ops| && forall e :: e in r.extra ==> e < 3
  {
    hide Valid, WellFormed, Visit, VisitFrom;
    FamilyVisit();
    ValidIsWired(Family(), s);
    assert Present(s.ns) == {0, 1, 2};
  }

  // What the deletes of the children wait for.
  lemma ChildDeps(s: Sched, i: nat)
    requires WellFormed(Family()) && Valid(Family(), s) && i in {1, 2} && Legal(Family(), s, i, Delete)
    requires s.roll.left != []
    requires s.ns[i].last == Some(i) && s.ns[0].create == Some(0) && forall e :: e in s.roll.extra ==> e < 3
    ensures forall d :: d in Deps(Family(), s, i, Delete) ==> d < 3
  {
    assert Wired(Family(), s) && RollGoing(Family(), s);
    hide WellFormed, Valid, Wired, RollGoing, Legal;
    ParentsHaveCreates(Family(), s, i, Delete);
  }

  lemma DeleteLeaves(g: Graph, s: Sched, i: nat)
    requires WellFormed(g) && Valid(g, s) && Legal(g, s, i, Delete) && s.roll.left != []
    ensures var t := Dispatch(g, s, i, Delete);
            && t.ns == s.ns[i := s.ns[i].(present := false, last := Some(|s.ops|))]
            && t.roll == s.roll.(left := s.roll.left[1..])
            && |t.ops| == |s.ops| + 1 && t.ops[..|s.ops|] == s.ops
            && t.ops[|s.ops|].act == Delete && t.ops[|s.ops|].node == i && t.ops[|s.ops|].after == Some(s.roll.start)
  {
  }

  // A run that fills the family and keeps it, with two slots, and draws that always
  // choose the first candidate.
  const CALM := Config(0.0, 1.0, 1.0, 2, 2)

  const FIRST: Draws := _ => 0.0

  lemma FirstIsChosen(candidates: seq<nat>, pos: nat)
    requires candidates != []
    ensures UnitDraws(FIRST) && Chosen(candidates, FIRST, pos) == candidates[0]
  {
  }

  lemma CandidatesOfThree(ns: seq<NodeState>, kind: Policy.Kind)
    requires WellFormed(Family()) && |ns| == 3
    ensures All(Family(), ns, kind) == (if Eligible(Family(), ns, kind, 0) then [0] else [])
                                       + (if Eligible(Family(), ns, kind, 1) then [1] else [])
                                       + (if Eligible(Family(), ns, kind, 2) then [2] else [])
  {
    hide Eligible;
    var g := Family();
    assert Candidates(g, ns, kind, 1) == [] + if Eligible(g, ns, kind, 0) then [0] else [];
    assert Candidates(g, ns, kind, 2) == Candidates(g, ns, kind, 1) + if Eligible(g, ns, kind, 1) then [1] else [];
  }

  // The family with its first k nodes created, one after another.
  predicate Grew(s: Sched, k: nat)
  {
    && |s.ns| == 3 && |s.ops| == k <= 3 && s.roll.left == []
    && forall i :: 0 <= i < 3 ==>
         s.ns[i] == if i < k then NodeState(true, false, Some(i), Some(i)) else NodeState(false, false, None, None)
  }

  // While the family is not whole the next node is created, ...
  lemma NextIsDrawn(s: Sched, k: nat, pos: nat)
    requires WellFormed(Family()) && Grew(s, k) && k < 3
    ensures Draw(Family(), CALM, s.ns, FIRST, pos).decision == Act(k, Create) && Legal(Family(), s, k, Create)
  {
    hide WellFormed, PlainDraw, Chosen;
    CandidatesOfThree(s.ns, EagerCreating);
    var eager := All(Family(), s.ns, EagerCreating);
    assert Eligible(Family(), s.ns, EagerCreating, k);
    assert forall i :: 0 <= i < k ==> !Eligible(Family(), s.ns, EagerCreating, i);
    assert eager[0] == k;
    FirstIsChosen(eager, pos);
  }

  lemma NextIsCreated(s: Sched, k: nat)
    requires WellFormed(Family()) && Valid(Family(), s) && Grew(s, k) && k < 3 && Legal(Family(), s, k, Create)
    ensures Grew(Apply(Family(), s, Act(k, Create)), k + 1)
  {
    hide WellFormed, Valid, Wired, RollGoing, Dispatch, Present, Legal, Finish;
    DispatchGrows(Family(), s, k, Create);
    DispatchNames(Family(), s, k, Create);
  }

  // ... and then it is rolled.
  lemma WholeIsRolled(s: Sched, pos: nat)
    requires WellFormed(Family()) && Valid(Family(), s) && Grew(s, 3)
    ensures Draw(Family(), CALM, s.ns, FIRST, pos).decision == RollSet(0)
  {
    hide WellFormed, Valid;
    CandidatesOfThree(s.ns, EagerCreating);
    CandidatesOfThree(s.ns, Creating);
    CandidatesOfThree(s.ns, Deleting);
    assert RollRoot(Family(), 0) && Eligible(Family(), s.ns, Deleting, 0);
    FirstIsChosen(All(Family(), s.ns, Deleting), pos);
  }

  function FirstCreates(k: nat): seq<Choice> { if k == 0 then [] else FirstCreates(k - 1) + [Do(k - 1, Create)] }

  lemma {:induction false} FamilyGrows(k: nat)
    requires WellFormed(Family()) && k <= 3
    ensures UnitDraws(FIRST) && Grew(After(Family(), CALM, FIRST, k).sch, k)
    ensures ScheduleOf(Family(), CALM, FIRST, k) == FirstCreates(k)
  {
    hide WellFormed, Valid, Draw, Begun, Apply, Grew;
    if k == 0 {
      NothingGrew();
    } else {
      FamilyGrows(k - 1);
      var d := After(Family(), CALM, FIRST, k - 1);
      var pos := Begun(CALM, FIRST, d).pos;
      StepFromHere(Family(), CALM, FIRST, k - 1);
      NextIsDrawn(d.sch, k - 1, pos);
      NextIsCreated(d.sch, k - 1);
    }
  }

  lemma NothingGrew()
    requires WellFormed(Family())
    ensures UnitDraws(FIRST) && Grew(After(Family(), CALM, FIRST, 0).sch, 0)
    ensures ScheduleOf(Family(), CALM, FIRST, 0) == []
  {
  }

  // What the draws decide first: three creates, and a roll.
  lemma FamilySchedule()
    requires WellFormed(Family())
    ensures UnitDraws(FIRST)
    ensures ScheduleOf(Family(), CALM, FIRST, 4) ==
            [Do(0, Create), Do(1, Create), Do(2, Create), Replace(0), Do(1, Delete), Do(2, Delete), Do(0, Delete)]
  {
    hide WellFormed, Valid, Draw, Begun, Apply, ScheduleOf, After, StartRoll, MayRoll;
    FamilyGrows(3);
    var d := After(Family(), CALM, FIRST, 3);
    StepFromHere(Family(), CALM, FIRST, 3);
    WholeIsRolled(d.sch, Begun(CALM, FIRST, d).pos);
    assert d.sch.ns == [NodeState(true, false, Some(0), Some(0)), NodeState(true, false, Some(1), Some(1)),
                        NodeState(true, false, Some(2), Some(2))];
    ValidIsWired(Family(), d.sch);
    FamilyRolls(d.sch);
    assert FirstCreates(3) == [Do(0, Create), Do(1, Create), Do(2, Create)];
    DeletesOfThree(1, 2, 0);
  }

  lemma DeletesOfThree(a: nat, b: nat, c: nat)
    ensures Deletes([a, b, c]) == [Do(a, Delete), Do(b, Delete), Do(c, Delete)]
  {
    assert [a, b, c][1..] == [b, c] && [b, c][1..] == [c] && [c][1..] == [];
    assert Deletes([c]) == [Do(c, Delete)] + Deletes([]);
    assert Deletes([b, c]) == [Do(b, Delete)] + Deletes([c]);
    assert Deletes([a, b, c]) == [Do(a, Delete)] + Deletes([b, c]);
  }

  // The family, all created and the roll of it decided.
  lemma FamilyRolling() returns (steps: seq<Step>, s: Sys)
    ensures WellFormed(Family()) && Reach(Family(), 2, steps) == Some(s)
    ensures Choices(steps) == [Do(0, Create), Do(1, Create), Do(2, Create), Replace(0)]
    ensures Shape(Family(), s) && Grown(s) && |s.runs| == 3
    ensures s.sch.roll.left == [1, 2, 0] && s.sch.roll.start == 3 && forall e :: e in s.sch.roll.extra ==> e < 3
    ensures s.sch.ns == [NodeState(true, false, Some(0), Some(0)), NodeState(true, false, Some(1), Some(1)),
                         NodeState(true, false, Some(2), Some(2))]
  {
    hide Sound, Valid, WellFormed, Reach, MayRoll, StartRoll;
    steps, s := FamilyBorn(2);
    FamilyRolls(s.sch);
    StartRollIsRoll(Family(), s.sch, 0);
    OneMoreStep(Family(), 2, steps, s, Decide(Replace(0)));
    ChoicesOneMore(steps, Decide(Replace(0)));
    steps, s := steps + [Decide(Replace(0))], Taken(Family(), 2, s, Decide(Replace(0)));
  }

  lemma StartRollIsRoll(g: Graph, s: Sched, root: nat)
    requires WellFormed(g) && Valid(g, s) && MayRoll(g, s, root)
    ensures StartRoll(g, s, root) == s.(roll := StartRoll(g, s, root).roll)
  {
  }

  // Both children's deletes on their way.
  lemma BothDeletesFly() returns (steps: seq<Step>, s: Sys)
    ensures WellFormed(Family()) && Reach(Family(), 2, steps) == Some(s) && Shape(Family(), s) && |s.runs| == 5
    ensures Choices(steps) ==
            [Do(0, Create), Do(1, Create), Do(2, Create), Replace(0), Do(1, Delete), Do(2, Delete)]
    ensures s.sch.ops[3].act == Delete && s.sch.ops[3].node == 1 && s.sch.ops[3].after == Some(3)
    ensures s.sch.ops[4].act == Delete && s.sch.ops[4].node == 2 && s.sch.ops[4].after == Some(3)
    ensures s.runs[3].phase == Calling(s.runs[3].hi) && s.runs[4].phase == Calling(s.runs[4].hi)
  {
    hide Sound, Valid, WellFormed, Reach, Deps, Dispatch;
    steps, s := FamilyRolling();
    ValidIsWired(Family(), s.sch);
    ChildDeps(s.sch, 1);
    DeleteLeaves(Family(), s.sch, 1);
    steps, s := TakesOff(Family(), 2, steps, s, 1, Delete);
    ValidIsWired(Family(), s.sch);
    ChildDeps(s.sch, 2);
    DeleteLeaves(Family(), s.sch, 2);
    steps, s := TakesOff(Family(), 2, steps, s, 2, Delete);
  }

  // A run of the family that makes the first of these choices is driven by draws.
  lemma FamilyIsDriven(steps: seq<Step>, s: Sys) returns (events: seq<Beat>, f: Flight)
    requires WellFormed(Family()) && Reach(Family(), 2, steps) == Some(s)
    requires Choices(steps) <=
             [Do(0, Create), Do(1, Create), Do(2, Create), Replace(0), Do(1, Delete), Do(2, Delete), Do(0, Delete)]
    ensures UnitDraws(FIRST) && Driven(Family(), CALM, FIRST, Limit(CALM), events) == Some(f) && f.sys == s
  {
    hide WellFormed, Reach, Driven, ScheduleOf, Choices, Sound;
    FamilySchedule();
    events, f := ScheduledIsDriven(Family(), CALM, FIRST, 2, steps, s, 4);
  }

  /** Two deletes of one roll in flight at once, in a run that some draws make: the
      calls of a set do not run one after another. */
  lemma SiblingDeletesOverlap() returns (events: seq<Beat>, f: Flight)
    ensures WellFormed(Family()) && UnitDraws(FIRST)
    ensures Driven(Family(), CALM, FIRST, Limit(CALM), events) == Some(f) && |f.sys.runs| == |f.sys.sch.ops| == 5
    ensures f.sys.sch.ops[3].act == Delete && f.sys.sch.ops[3].node == 1 && f.sys.runs[3].phase.Calling?
    ensures f.sys.sch.ops[4].act == Delete && f.sys.sch.ops[4].node == 2 && f.sys.runs[4].phase.Calling?
    ensures f.sys.sch.ops[3].after == f.sys.sch.ops[4].after == Some(3)
  {
    hide WellFormed, Reach, Driven, Choices, Sound, Valid;
    var steps, s := BothDeletesFly();
    events, f := FamilyIsDriven(steps, s);
  }

  // The root is there, and both children's creates are on their way.
  lemma BothCreatesFly() returns (steps: seq<Step>, s: Sys)
    ensures WellFormed(Family()) && Reach(Family(), 2, steps) == Some(s) && |s.runs| == |s.sch.ops| == 3
    ensures Choices(steps) == [Do(0, Create), Do(1, Create), Do(2, Create)]
    ensures s.sch.ops[1].act == Create && s.sch.ops[1].node == 1 && s.runs[1].phase.Calling?
    ensures s.sch.ops[2].act == Create && s.sch.ops[2].node == 2 && s.runs[2].phase.Calling?
  {
    hide Sound, Valid, WellFormed, Reach, Deps, Dispatch, Wired, RollGoing, Fits, Grown;
    FamilyIsWellFormed();
    SiblingsAreApart();
    StartIsGrown(Family(), 2);
    var first: Sys;
    steps, s := Born(Family(), 2, [], Start(Family()), 0);
    assert Choices([]) == [] && [Do(0, Create)] + [Do(1, Create)] == [Do(0, Create), Do(1, Create)];
    GrownIsOver(Family(), s, 1, Create);
    GrownIsIdle(s);
    DispatchNames(Family(), s.sch, 1, Create);
    steps, first := TakesOff(Family(), 2, steps, s, 1, Create);
    CreateIsNext(Family(), s, first, 1, 2, Create);
    DispatchNames(Family(), first.sch, 2, Create);
    OneIsFree(s, first);
    steps, s := TakesOff(Family(), 2, steps, first, 2, Create);
  }

  lemma SiblingsAreApart()
    requires WellFormed(Family())
    ensures Clash(Family(), 1, 2, Create)
  {
  }

  lemma GrownIsIdle(s: Sys)
    requires Grown(s)
    ensures !s.cancelled && s.sem == 0 && s.pending == 0 && forall i :: 0 <= i < |s.retired| ==> s.retired[i] == []
  {
  }

  lemma OneIsFree(s: Sys, t: Sys)
    requires Grown(s) && |t.runs| == |s.runs| + 1 && forall j :: 0 <= j < |s.runs| ==> t.runs[j] == s.runs[j]
    requires !t.runs[|s.runs|].phase.Parked?
    ensures Free(t)
  {
  }

  /** Two creates of siblings in flight at once, without any roll, in such a run. */
  lemma SiblingCreatesOverlap() returns (events: seq<Beat>, f: Flight)
    ensures WellFormed(Family()) && UnitDraws(FIRST)
    ensures Driven(Family(), CALM, FIRST, Limit(CALM), events) == Some(f) && |f.sys.runs| == |f.sys.sch.ops| == 3
    ensures f.sys.sch.ops[1].act == Create && f.sys.sch.ops[1].node == 1 && f.sys.runs[1].phase.Calling?
    ensures f.sys.sch.ops[2].act == Create && f.sys.sch.ops[2].node == 2 && f.sys.runs[2].phase.Calling?
  {
    hide WellFormed, Reach, Driven, Choices, Sound, Valid;
    var steps, s := BothCreatesFly();
    events, f := FamilyIsDriven(steps, s);
  }

  /** One of two deletes in flight comes back: the list of created resources names an
      instance whose Delete has just returned nil. */
  lemma DeletedYetListed() returns (events: seq<Beat>, f: Flight)
    ensures WellFormed(Family()) && UnitDraws(FIRST) && Driven(Family(), CALM, FIRST, Limit(CALM), events) == Some(f)
    ensures |f.sys.sch.ns| == |f.sys.retired| && exists c :: c in f.sys.removed && c in Live(f.sys)
  {
    hide Sound, Valid, WellFormed, Reach, Live, Moved, Driven;
    var steps, s := BothDeletesFly();
    RemovedBeforeFinished(Family(), 2, s, 3);
    steps, s := OnwardByMove(Family(), 2, steps, s, 3, Return(Ok("")));
    ListedUntilFinished(Family(), 2, steps, s, 3);
    events, f := FamilyIsDriven(steps, s);
  }
}
