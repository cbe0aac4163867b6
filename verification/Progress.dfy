/** No deadlock: as long as an operation is unfinished one can move, and every
    drain ends. */
module Progress {
  import opened Options
  import opened Graphs
  import opened Scheduling
  import opened Execution
  import opened Ordering
  import opened Records
  import opened Tokens
  import opened Identities
  import opened Runs
  import opened Created

  // An operation that holds a slot or is giving back a gate can always move.
  lemma HoldersMove(g: Graph, limit: nat, s: Sys, j: nat) returns (m: Move)
    requires Fits(s) && Conserved(g, limit, s) && j < |s.runs|
    requires HoldsSlot(s.runs[j]) || s.runs[j].phase.Ungating?
    ensures MayMove(g, limit, s, j, m)
  {
    assert HoldsSlot(s.runs[j]) ==> j in Slots(s);
    match s.runs[j].phase
    case Won => m := Recheck;
    case Running(_) => m := Begin;
    case Calling(_) => m := Return(Panic);
    case Leaving => m := FreeSlot;
    case _ => m := FreeGate;
  }

  // If an operation waits for a slot, it or a holder of one can move.
  lemma GatedMoves(g: Graph, limit: nat, s: Sys, j: nat) returns (i: nat, m: Move)
    requires Fits(s) && Conserved(g, limit, s) && j < |s.runs| && s.runs[j].phase.Gated? && limit > 0
    ensures i < |s.runs| && MayMove(g, limit, s, i, m)
  {
    if s.sem < limit {
      i, m := j, WinSlot;
    } else {
      assert Slots(s) != {};
      i :| i in Slots(s);
      m := HoldersMove(g, limit, s, i);
    }
  }

  // If an operation waits for its gate, it, the holder or a holder of a slot can move.
  lemma WaiterMoves(g: Graph, limit: nat, s: Sys, j: nat) returns (i: nat, m: Move)
    requires Fits(s) && Conserved(g, limit, s) && limit > 0
    requires j < |s.runs| && s.runs[j].phase == Waiting(|s.sch.ops[j].deps|)
    ensures i < |s.runs| && MayMove(g, limit, s, i, m)
  {
    if Gate(g, s, j).Some? && Gate(g, s, j).value in s.busy {
      i :| 0 <= i < |s.runs| && HeldGate(g, s, i) == Some(Gate(g, s, j).value);
      if s.runs[i].phase.Gated? {
        i, m := GatedMoves(g, limit, s, i);
      } else {
        m := HoldersMove(g, limit, s, i);
      }
    } else {
      i, m := j, TakeGate;
    }
  }

  // With every earlier operation finished, the scheduler can launch j.
  lemma ParkedMoves(g: Graph, limit: nat, s: Sys, j: nat)
    requires Fits(s) && Conserved(g, limit, s) && limit > 0
    requires j < |s.runs| && s.runs[j].phase.Parked? && forall d :: 0 <= d < j ==> s.runs[d].phase.Finished?
    ensures MayMove(g, limit, s, j, Launch(true))
  {
    assert Pending(s) == {};
  }

  // With every earlier operation finished, the attempt a retry follows is too.
  lemma PreviousIsDone(s: Sys, r: nat)
    requires Fits(s) && Chains(s) && Staged(s) && r < |s.retries|
    requires forall d :: 0 <= d < s.retries[r].owner ==> s.runs[d].phase.Finished?
    ensures DoneH(s, s.retries[r].prev)
  {
    assert PlacedAt(s, r);
    if s.retries[r].prev.Again? {
      assert StagedAt(s, s.retries[s.retries[r].prev.retry].owner);
    }
  }

  lemma FirstUnfinished(s: Sys) returns (j: nat)
    requires !Drained(s)
    ensures j < |s.runs| && !s.runs[j].phase.Finished? && forall d :: 0 <= d < j ==> s.runs[d].phase.Finished?
  {
    j := 0;
    while s.runs[j].phase.Finished?
      invariant j < |s.runs| && forall d :: 0 <= d < j ==> s.runs[d].phase.Finished?
      decreases |s.runs| - j
    {
      j := j + 1;
    }
  }

  // An operation with every earlier one finished, or one it waits for, can move.
  lemma FirstMoves(g: Graph, limit: nat, s: Sys, first: nat) returns (j: nat, m: Move)
    requires Fits(s) && Conserved(g, limit, s) && Chains(s) && Staged(s) && limit > 0
    requires first < |s.runs| && !s.runs[first].phase.Finished?
    requires forall d :: 0 <= d < first ==> s.runs[d].phase.Finished?
    requires forall d :: d in s.sch.ops[first].deps ==> d < first
    ensures j < |s.runs| && MayMove(g, limit, s, j, m)
  {
    hide StagedAt, PlacedAt, FirstAttempts, ChainAt, GatesConserved;
    j := first;
    var run := s.runs[j];
    match run.phase
    case Parked =>
      ParkedMoves(g, limit, s, j);
      m := Launch(true);
    case Waiting(k) =>
      if k < |s.sch.ops[j].deps| {
        assert s.sch.ops[j].deps[k] in s.sch.ops[j].deps;
        m := Observe;
      } else {
        j, m := WaiterMoves(g, limit, s, j);
      }
    case Gated => j, m := GatedMoves(g, limit, s, j);
    case Settling(x) =>
      if x < run.hi {
        PreviousIsDone(s, x);
        m := Settle;
      } else {
        assert run.token ==> j in Pending(s);
        m := FreeToken;
      }
    case Closing => m := Close;
    case _ => m := HoldersMove(g, limit, s, j);
  }

  lemma SomeMove(g: Graph, limit: nat, s: Sys) returns (j: nat, m: Move)
    requires WellFormed(g) && Sound(g, limit, s) && limit > 0 && !Drained(s)
    ensures j < |s.runs| && MayMove(g, limit, s, j, m)
  {
    hide Ordered, Traced, Balanced, NodeOrdered, Inherits, Removals, Identified, Listed, Chains, Staged, Conserved;
    hide MayMove;
    var first := FirstUnfinished(s);
    assert OpValid(g, s.sch.ops, first);
    j, m := FirstMoves(g, limit, s, first);
  }

  /** Deadlock freedom: in every state of every run in which an operation is
      unfinished, the scheduler blocked in a launch included, some move is possible. */
  lemma NoDeadlock(g: Graph, limit: nat, steps: seq<Step>, s: Sys)
    requires WellFormed(g) && Reach(g, limit, steps) == Some(s) && limit > 0 && !Drained(s)
    ensures exists j, m :: 0 <= j < |s.runs| && MayMove(g, limit, s, j, m)
  {
    hide Sound;
    assert Shape(g, s) by { SoundHasShape(g, limit, s); }
    var j, m := SomeMove(g, limit, s);
  }

  // How many moves operation j has left at most.
  function RunRank(s: Sys, j: nat): nat
    requires Fits(s) && j < |s.runs|
  {
    var r := s.runs[j];
    var m := r.hi - r.lo;
    match r.phase
    case Parked => 10 + 3 * m + |s.sch.ops[j].deps|
    case Waiting(k) => 9 + 3 * m + |s.sch.ops[j].deps| - k
    case Gated => 8 + 3 * m
    case Won => 7 + 3 * m
    case Running(x) => 6 + m + 2 * (r.hi - x)
    case Calling(x) => 5 + m + 2 * (r.hi - x)
    case Leaving => 4 + m
    case Ungating => 3 + m
    case Settling(x) => 2 + r.hi - x
    case Closing => 1
    case Finished => 0
  }

  function Rank(s: Sys, n: nat): nat
    requires Fits(s) && n <= |s.runs|
  {
    if n == 0 then 0 else Rank(s, n - 1) + RunRank(s, n - 1)
  }

  lemma MoveLowersRank(g: Graph, s: Sys, t: Sys, j: nat)
    requires Fits(s) && Fits(t) && j < |s.runs| && Local(s, t, j) && PhaseStep(g, s, j, t.runs[j])
    ensures RunRank(t, j) < RunRank(s, j)
  {
  }

  lemma {:induction false} RanksAddUp(s: Sys, t: Sys, j: nat, n: nat)
    requires Fits(s) && Fits(t) && n <= |s.runs| && Local(s, t, j) && j < |s.runs| && RunRank(t, j) < RunRank(s, j)
    ensures if j < n then Rank(t, n) < Rank(s, n) else Rank(t, n) == Rank(s, n)
  {
    hide Fits, RunRank;
    if n > 0 {
      RanksAddUp(s, t, j, n - 1);
      assert n - 1 != j ==> RunRank(t, n - 1) == RunRank(s, n - 1) by { SameRunSameRank(s, t, j, n - 1); }
    }
  }

  lemma SameRunSameRank(s: Sys, t: Sys, j: nat, i: nat)
    requires Fits(s) && Fits(t) && Local(s, t, j) && i < |s.runs|
    ensures i != j ==> RunRank(t, i) == RunRank(s, i)
  {
  }

  // The state after moves of operations only: the scheduler has stopped.
  ghost function Drain(g: Graph, limit: nat, s: Sys, moves: seq<(nat, Move)>): (r: Option<Sys>)
    requires WellFormed(g) && Sound(g, limit, s)
    ensures r.Some? ==> Sound(g, limit, r.value)
    decreases |moves|
  {
    if moves == [] then Some(s)
    else
      var (j, m) := moves[0];
      if j < |s.runs| && MayMove(g, limit, s, j, m) then
        MoveKeepsSound(g, limit, s, j, m);
        Drain(g, limit, Moved(g, limit, s, j, m), moves[1..])
      else None
  }

  lemma OneMoveLowersRank(g: Graph, limit: nat, s: Sys, j: nat, m: Move)
    requires WellFormed(g) && Sound(g, limit, s) && j < |s.runs| && MayMove(g, limit, s, j, m)
    ensures Sound(g, limit, Moved(g, limit, s, j, m))
    ensures Rank(Moved(g, limit, s, j, m), |Moved(g, limit, s, j, m).runs|) < Rank(s, |s.runs|)
  {
    var t := Moved(g, limit, s, j, m);
    MoveIsLocal(g, limit, s, j, m);
    MoveSteps(g, limit, s, j, m);
    hide Moved, MayMove, Valid, Ordered, Traced, Balanced, Recorded, Conserved, Identified;
    MoveKeepsSound(g, limit, s, j, m);
    assert t.runs[j] == Turn(g, limit, s, j, m);
    MoveLowersRank(g, s, t, j);
    RanksAddUp(s, t, j, |s.runs|);
  }

  /** A drain ends: it has at most Rank moves left. */
  lemma {:induction false} DrainIsBounded(g: Graph, limit: nat, s: Sys, moves: seq<(nat, Move)>)
    requires WellFormed(g) && Sound(g, limit, s) && Drain(g, limit, s, moves).Some?
    ensures |moves| <= Rank(s, |s.runs|)
    decreases |moves|
  {
    if moves != [] {
      var (j, m) := moves[0];
      OneMoveLowersRank(g, limit, s, j, m);
      DrainIsBounded(g, limit, Moved(g, limit, s, j, m), moves[1..]);
    }
  }

  lemma DrainBegins(g: Graph, limit: nat, s: Sys, j: nat, m: Move, rest: seq<(nat, Move)>)
    requires WellFormed(g) && Sound(g, limit, s) && j < |s.runs| && MayMove(g, limit, s, j, m)
    requires Sound(g, limit, Moved(g, limit, s, j, m))
    ensures Drain(g, limit, s, [(j, m)] + rest) == Drain(g, limit, Moved(g, limit, s, j, m), rest)
  {
    hide Sound, MayMove, Moved;
    assert ([(j, m)] + rest)[1..] == rest;
  }

  /** ... and from every state the operations can run to a state in which all have
      finished. */
  lemma {:induction false} DrainFinishes(g: Graph, limit: nat, s: Sys) returns (moves: seq<(nat, Move)>)
    requires WellFormed(g) && Sound(g, limit, s) && limit > 0
    ensures Drain(g, limit, s, moves).Some? && Drained(Drain(g, limit, s, moves).value)
    decreases Rank(s, |s.runs|)
  {
    if Drained(s) {
      moves := [];
    } else {
      hide Sound, MayMove, Moved, Rank, Drained, Drain, Shape;
      assert Shape(g, s) by { SoundHasShape(g, limit, s); }
      var j, m := SomeMove(g, limit, s);
      OneMoveLowersRank(g, limit, s, j, m);
      var rest := DrainFinishes(g, limit, Moved(g, limit, s, j, m));
      DrainBegins(g, limit, s, j, m, rest);
      moves := [(j, m)] + rest;
    }
  }
}
