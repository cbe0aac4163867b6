/** The scheduler's ticks and the decision log they leave: a tick draws its delay
    and its fan-out, and then makes that many steps at one offset. */
module Ticks {
  import opened Options
  import opened Graphs
  import opened Scheduling
  import opened Policy

  // An entry of the decision log; a no-op has no action.
  datatype Entry = Entry(offset: nat, act: Option<(Action, nat)>)

  // The actions of a log, without its no-ops.
  function Actions(log: seq<Entry>): seq<(Action, nat)>
  {
    if log == [] then []
    else Actions(log[..|log| - 1]) + match log[|log| - 1].act case Some(a) => [a] case None => []
  }

  lemma OneMoreEntry(log: seq<Entry>, e: Entry)
    ensures Actions(log + [e]) == Actions(log) + match e.act case Some(a) => [a] case None => []
  {
    assert (log + [e])[..|log|] == log;
  }

  function DeletesAt(offset: nat, nodes: seq<nat>): (r: seq<Entry>)
    ensures |r| == |nodes| && forall k :: 0 <= k < |r| ==> r[k] == Entry(offset, Some((Delete, nodes[k])))
  {
    if nodes == [] then [] else [Entry(offset, Some((Delete, nodes[0])))] + DeletesAt(offset, nodes[1..])
  }

  lemma DeletesAtSum(offset: nat, a: seq<nat>, b: seq<nat>)
    ensures DeletesAt(offset, a + b) == DeletesAt(offset, a) + DeletesAt(offset, b)
  {
  }

  /** What a decision adds to the log: a roll is its deletes. */
  ghost function StepLog(g: Graph, s: Sched, d: Decision, offset: nat): seq<Entry>
    requires WellFormed(g) && |s.ns| == |g.nodes| && (d.RollSet? ==> d.root < |g.nodes|)
  {
    match d
    case Noop => [Entry(offset, None)]
    case Act(i, act) => [Entry(offset, Some((act, i)))]
    case RollSet(root) => DeletesAt(offset, Visit(g, root, Present(s.ns)))
  }

  ghost function UpcomingLog(g: Graph, cfg: Config, u: Draws, n: nat, offset: nat): seq<Entry>
    requires WellFormed(g) && UnitDraws(u)
  {
    var d := After(g, cfg, u, n);
    ValidFits(g, d.sch);
    DrawIsDecidable(g, cfg, d.sch, u, Begun(cfg, u, d).pos);
    StepLog(g, d.sch, Upcoming(g, cfg, u, d), offset)
  }

  // The entries of m steps from step n on.
  ghost function StepsLog(g: Graph, cfg: Config, u: Draws, n: nat, m: nat, offset: nat): seq<Entry>
    requires WellFormed(g) && UnitDraws(u)
  {
    if m == 0 then [] else StepsLog(g, cfg, u, n, m - 1, offset) + UpcomingLog(g, cfg, u, n + m - 1, offset)
  }

  // The steps of the first k ticks, and those of the next one.
  ghost function StepsOf(g: Graph, cfg: Config, u: Draws, k: nat): nat
    requires WellFormed(g) && UnitDraws(u)
  {
    if k == 0 then 0 else StepsOf(g, cfg, u, k - 1) + FanOut(g, cfg, u, StepsOf(g, cfg, u, k - 1))
  }

  ghost function FanOut(g: Graph, cfg: Config, u: Draws, n: nat): nat
    requires WellFormed(g) && UnitDraws(u)
  {
    Begun(cfg, u, After(g, cfg, u, n)).left
  }

  /** The decision log of a run whose ticks have these offsets: the draws and the
      offsets determine it. */
  ghost function LogOf(g: Graph, cfg: Config, u: Draws, offsets: seq<nat>): seq<Entry>
    requires WellFormed(g) && UnitDraws(u)
  {
    if offsets == [] then []
    else
      var k := |offsets| - 1;
      var n := StepsOf(g, cfg, u, k);
      LogOf(g, cfg, u, offsets[..k]) + StepsLog(g, cfg, u, n, FanOut(g, cfg, u, n), offsets[k])
  }

  // All entries of a tick are at its offset.
  lemma {:induction false} StepsAreAtOffset(g: Graph, cfg: Config, u: Draws, n: nat, m: nat, offset: nat)
    requires WellFormed(g) && UnitDraws(u)
    ensures forall e :: e in StepsLog(g, cfg, u, n, m, offset) ==> e.offset == offset
  {
    hide UpcomingLog, WellFormed, UnitDraws;
    if m > 0 {
      StepsAreAtOffset(g, cfg, u, n, m - 1, offset);
      StepIsAtOffset(g, cfg, u, n + m - 1, offset);
    }
  }

  lemma StepIsAtOffset(g: Graph, cfg: Config, u: Draws, n: nat, offset: nat)
    requires WellFormed(g) && UnitDraws(u)
    ensures forall e :: e in UpcomingLog(g, cfg, u, n, offset) ==> e.offset == offset
  {
    hide Valid, After, Upcoming, Visit;
  }

  predicate InOrder(log: seq<Entry>) { forall a, b :: 0 <= a < b < |log| ==> log[a].offset <= log[b].offset }

  predicate Rising(offsets: seq<nat>) { forall a, b :: 0 <= a < b < |offsets| ==> offsets[a] <= offsets[b] }

  /** The decision log is in the order of the ticks: each entry is at the offset of a
      tick, and when those do not decrease neither do the entries'. */
  lemma {:induction false} LogIsInOrder(g: Graph, cfg: Config, u: Draws, offsets: seq<nat>)
    requires WellFormed(g) && UnitDraws(u)
    ensures forall e :: e in LogOf(g, cfg, u, offsets) ==> e.offset in offsets
    ensures Rising(offsets) ==> InOrder(LogOf(g, cfg, u, offsets))
  {
    hide StepsLog, FanOut, StepsOf;
    if offsets != [] {
      var k := |offsets| - 1;
      var n := StepsOf(g, cfg, u, k);
      LogIsInOrder(g, cfg, u, offsets[..k]);
      StepsAreAtOffset(g, cfg, u, n, FanOut(g, cfg, u, n), offsets[k]);
      TickJoins(LogOf(g, cfg, u, offsets[..k]), StepsLog(g, cfg, u, n, FanOut(g, cfg, u, n), offsets[k]), offsets, k);
    }
  }

  lemma TickJoins(before: seq<Entry>, tick: seq<Entry>, offsets: seq<nat>, k: nat)
    requires k + 1 == |offsets| && (forall e :: e in before ==> e.offset in offsets[..k])
    requires forall e :: e in tick ==> e.offset == offsets[k]
    requires Rising(offsets[..k]) ==> InOrder(before)
    ensures forall e :: e in before + tick ==> e.offset in offsets
    ensures Rising(offsets) ==> InOrder(before + tick)
  {
    if Rising(offsets) {
      forall a, b | 0 <= a < b < |before + tick|
        ensures (before + tick)[a].offset <= (before + tick)[b].offset
      {
        if b >= |before| {
          assert tick[b - |before|] in tick;
          if a < |before| {
            assert before[a] in before;
          } else {
            assert tick[a - |before|] in tick;
          }
        }
      }
    }
  }

  lemma OneMoreTick(g: Graph, cfg: Config, u: Draws, offsets: seq<nat>, k: nat)
    requires WellFormed(g) && UnitDraws(u) && k < |offsets|
    ensures var n := StepsOf(g, cfg, u, k);
            && StepsOf(g, cfg, u, k + 1) == n + FanOut(g, cfg, u, n)
            && LogOf(g, cfg, u, offsets[..k + 1]) ==
               LogOf(g, cfg, u, offsets[..k]) + StepsLog(g, cfg, u, n, FanOut(g, cfg, u, n), offsets[k])
  {
    hide Valid, After, StepsLog, FanOut;
    assert offsets[..k + 1][..k] == offsets[..k];
  }

  lemma NoTicks(g: Graph, cfg: Config, u: Draws)
    requires WellFormed(g) && UnitDraws(u)
    ensures StepsOf(g, cfg, u, 0) == 0 && LogOf(g, cfg, u, []) == []
  {
  }

  // Within a tick nothing but the steps draws.
  lemma {:induction false} LeftCountsDown(g: Graph, cfg: Config, u: Draws, n: nat, m: nat)
    requires WellFormed(g) && UnitDraws(u) && m <= FanOut(g, cfg, u, n)
    ensures m > 0 ==> After(g, cfg, u, n + m).left == FanOut(g, cfg, u, n) - m
  {
    hide Valid, Draw, Apply;
    if m > 1 {
      LeftCountsDown(g, cfg, u, n, m - 1);
    }
  }

  lemma NoSteps(g: Graph, cfg: Config, u: Draws)
    requires WellFormed(g) && UnitDraws(u)
    ensures After(g, cfg, u, 0) == Driver(Initial(g), 0, 0)
  {
  }

  // Between ticks no step is left.
  lemma {:induction false} TicksEnd(g: Graph, cfg: Config, u: Draws, k: nat)
    requires WellFormed(g) && UnitDraws(u)
    ensures After(g, cfg, u, StepsOf(g, cfg, u, k)).left == 0
  {
    hide Valid, After, Begun;
    if k == 0 {
      NoSteps(g, cfg, u);
    } else {
      var n := StepsOf(g, cfg, u, k - 1);
      LeftCountsDown(g, cfg, u, n, FanOut(g, cfg, u, n));
    }
  }
}
