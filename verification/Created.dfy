/** The run record: liveResources lists what may still be in the cloud. */
module Created {
  import opened Options
  import opened Finite
  import opened Graphs
  import opened Scheduling
  import opened Execution
  import opened Ordering
  import opened Records
  import opened Identities
  import opened Tokens
  import opened Runs

  predicate MayRemain(s: Sys, e: Entry) { Published(s, e.create) && !Confirmed(s, e.del) }

  // The retired instances of one node that may still be there.
  function Remaining(s: Sys, entries: seq<Entry>): seq<nat>
  {
    if entries == [] then []
    else
      var n := |entries| - 1;
      Remaining(s, entries[..n]) + if MayRemain(s, entries[n]) then [entries[n].create] else []
  }

  lemma {:induction false} RemainingIs(s: Sys, entries: seq<Entry>)
    ensures forall x :: x in Remaining(s, entries) ==>
              exists m :: 0 <= m < |entries| && entries[m].create == x && MayRemain(s, entries[m])
    ensures forall m :: 0 <= m < |entries| && MayRemain(s, entries[m]) ==> entries[m].create in Remaining(s, entries)
    ensures DistinctEntries(entries) ==> NoRepeats(Remaining(s, entries))
  {
    if entries != [] {
      var n := |entries| - 1;
      RemainingIs(s, entries[..n]);
      forall x | x in Remaining(s, entries[..n])
        ensures exists m :: 0 <= m < n && entries[m].create == x && MayRemain(s, entries[m])
      {
        var m :| 0 <= m < |entries[..n]| && entries[..n][m].create == x && MayRemain(s, entries[..n][m]);
        assert entries[m].create == x;
      }
      assert DistinctEntries(entries) ==>
             DistinctEntries(entries[..n]) && entries[n].create !in Remaining(s, entries[..n]);
      forall m | 0 <= m < n && MayRemain(s, entries[m])
        ensures entries[m].create in Remaining(s, entries[..n])
      {
        assert entries[..n][m] == entries[m];
      }
    }
  }

  predicate Lives(s: Sys, n: nat)
    requires n < |s.sch.ns|
  {
    s.sch.ns[n].present && s.sch.ns[n].create.Some? && Published(s, s.sch.ns[n].create.value)
  }

  // The instances of node n that may be there: retired ones, then the current one.
  function NodeLive(s: Sys, n: nat): seq<nat>
    requires n < |s.sch.ns| == |s.retired|
  {
    Remaining(s, s.retired[n]) + if Lives(s, n) then [s.sch.ns[n].create.value] else []
  }

  function LiveTo(s: Sys, n: nat): seq<nat>
    requires n <= |s.sch.ns| == |s.retired|
  {
    if n == 0 then [] else LiveTo(s, n - 1) + NodeLive(s, n - 1)
  }

  function Live(s: Sys): seq<nat>
    requires |s.sch.ns| == |s.retired|
  {
    LiveTo(s, |s.retired|)
  }

  /** liveResources. */
  method LiveResources(s: Sys) returns (live: seq<nat>)
    requires |s.sch.ns| == |s.retired|
    ensures live == Live(s)
  {
    live := [];
    for i := 0 to |s.retired|
      invariant live == LiveTo(s, i)
    {
      ghost var before := live;
      for m := 0 to |s.retired[i]|
        invariant live == before + Remaining(s, s.retired[i][..m])
      {
        assert s.retired[i][..m + 1][..m] == s.retired[i][..m];
        var r := s.retired[i][m];
        if Published(s, r.create) && (!DoneH(s, r.del) || FailedH(s, r.del)) {
          live := live + [r.create];
        }
      }
      assert s.retired[i][..|s.retired[i]|] == s.retired[i];
      var st := s.sch.ns[i];
      if st.present && st.create.Some? && Published(s, st.create.value) {
        live := live + [st.create.value];
      }
    }
  }

  // An instance is deleted when it has an attempt; last is its latest.
  predicate Deleted(s: Sys, c: nat) { c in s.att && |s.att[c]| > 0 }

  function LastAttempt(s: Sys, c: nat): Handle
    requires Deleted(s, c)
  {
    s.att[c][|s.att[c]| - 1]
  }

  predicate IsCreate(s: Sys, c: nat) { c < |s.sch.ops| && s.sch.ops[c].act == Create }

  // What the current instances and the retired lists look like.
  ghost predicate Kept(s: Sys)
  {
    && |s.sch.ns| == |s.retired| && Listed(s)
    && (forall n :: 0 <= n < |s.sch.ns| && s.sch.ns[n].present ==>
          s.sch.ns[n].create.Some? && IsCreate(s, s.sch.ns[n].create.value)
          && s.sch.ops[s.sch.ns[n].create.value].node == n)
    && (forall c: nat :: IsCreate(s, c) ==> s.sch.ops[c].node < |s.sch.ns| && (Current(s.sch, c) <==> !Deleted(s, c)))
    && (forall c :: c in s.att ==> IsCreate(s, c) && Deleted(s, c))
  }

  // An instance is current exactly until its Delete is dispatched.
  lemma CurrentIsUndeleted(g: Graph, s: Sys, c: nat)
    requires Linked(g) && InRange(g, s.sch) && DeletedOnce(g, s.sch) && NoneForgotten(g, s.sch)
    requires FirstAttempts(s) && IsCreate(s, c) && (c in s.att ==> ChainAt(s, c))
    ensures Current(s.sch, c) <==> !Deleted(s, c)
  {
    if !Current(s.sch, c) {
      var d :| 0 <= d < |s.sch.ops| && s.sch.ops[d].act == Delete && s.sch.ops[d].create == c;
    }
  }

  lemma AllAreKept(g: Graph, s: Sys)
    requires Linked(g) && Wired(g, s.sch) && InRange(g, s.sch) && DeletedOnce(g, s.sch) && NoneForgotten(g, s.sch)
    requires Chains(s) && Listed(s) && |s.retired| == |g.nodes|
    ensures Kept(s)
  {
    hide Linked, DeletedOnce, NoneForgotten, FirstAttempts, PlacedAt, Listed;
    assert forall c :: c in s.att ==> ChainAt(s, c);
    forall c: nat | IsCreate(s, c)
      ensures Current(s.sch, c) <==> !Deleted(s, c)
    {
      CurrentIsUndeleted(g, s, c);
    }
  }

  lemma SoundIsKept(g: Graph, limit: nat, s: Sys)
    requires WellFormed(g) && Sound(g, limit, s)
    ensures Kept(s)
  {
    hide Ordered, Traced, Balanced, Chains, Staged, Inherits, Removals, Listed, Conserved, Identified, Kept;
    hide Linked, Wired, InRange, DeletedOnce, NoneForgotten;
    hide RollGoing, Chained, AbsentBehind, ConflictsOrdered, ParentsKept, RollsSerial, OpsValid;
    AllAreKept(g, s);
  }

  // Instance x may still be there: it is published, and if it was deleted its
  // last attempt is not confirmed.
  predicate Lingers(s: Sys, x: nat)
  {
    IsCreate(s, x) && Published(s, x) && (Deleted(s, x) ==> !Confirmed(s, LastAttempt(s, x)))
  }

  ghost predicate ListsBelow(s: Sys, live: seq<nat>, n: nat)
  {
    && NoRepeats(live)
    && (forall x :: x in live ==> Lingers(s, x) && s.sch.ops[x].node < n)
    && (forall x: nat :: Lingers(s, x) && s.sch.ops[x].node < n ==> x in live)
  }

  lemma NodeLists(s: Sys, n: nat)
    requires Kept(s) && n < |s.retired|
    ensures forall x :: x in NodeLive(s, n) ==> Lingers(s, x) && s.sch.ops[x].node == n
    ensures forall x: nat :: Lingers(s, x) && s.sch.ops[x].node == n ==> x in NodeLive(s, n)
    ensures NoRepeats(NodeLive(s, n))
  {
    RemainingIs(s, s.retired[n]);
    assert DistinctEntries(s.retired[n]);
    forall x | x in Remaining(s, s.retired[n])
      ensures Lingers(s, x) && s.sch.ops[x].node == n && Deleted(s, x)
    {
      var m :| 0 <= m < |s.retired[n]| && s.retired[n][m].create == x && MayRemain(s, s.retired[n][m]);
    }
    forall x: nat | Lingers(s, x) && s.sch.ops[x].node == n && Deleted(s, x)
      ensures x in Remaining(s, s.retired[n])
    {
      assert Holds(s.retired[n], x);
      var m :| 0 <= m < |s.retired[n]| && s.retired[n][m].create == x;
      assert MayRemain(s, s.retired[n][m]);
    }
  }

  lemma JoinLists(s: Sys, a: seq<nat>, b: seq<nat>, n: nat)
    requires ListsBelow(s, a, n) && NoRepeats(b)
    requires forall x :: x in b ==> Lingers(s, x) && s.sch.ops[x].node == n
    requires forall x: nat :: Lingers(s, x) && s.sch.ops[x].node == n ==> x in b
    ensures ListsBelow(s, a + b, n + 1)
  {
    hide Published, Deleted, Confirmed;
    forall i, j | 0 <= i < |a| && |a| <= j < |a + b|
      ensures (a + b)[i] != (a + b)[j]
    {
      assert (a + b)[i] in a && (a + b)[j] in b;
    }
  }

  lemma {:induction false} LiveLists(s: Sys, n: nat)
    requires Kept(s) && n <= |s.retired|
    ensures ListsBelow(s, LiveTo(s, n), n)
  {
    if n > 0 {
      assert |s.sch.ns| == |s.retired|;
      hide Kept, NodeLive, ListsBelow, Lingers, NoRepeats;
      LiveLists(s, n - 1);
      NodeLists(s, n - 1);
      JoinLists(s, LiveTo(s, n - 1), NodeLive(s, n - 1), n - 1);
    }
  }

  // The instances that were published and not removed.
  predicate Remains(s: Sys, c: nat)
  {
    IsCreate(s, c) && Published(s, c) && c !in s.removed
  }

  lemma ConfirmedIsGone(s: Sys, c: nat)
    requires |s.runs| == |s.sch.ops| && Chains(s) && Removals(s) && Deleted(s, c) && Confirmed(s, LastAttempt(s, c))
    ensures Gone(s, c)
  {
    assert ChainAt(s, c);
    assert |s.att[c]| > 1 ==> LastAttempt(s, c).Again?;
  }

  // A removed instance's last attempt is confirmed once it has finished.
  lemma RemovedIsConfirmed(s: Sys, c: nat)
    requires |s.runs| == |s.sch.ops| && Chains(s) && Inherits(s) && Removals(s) && c in s.removed
    requires Deleted(s, c) && DoneH(s, LastAttempt(s, c))
    ensures Confirmed(s, LastAttempt(s, c))
  {
    assert Tried(s, c);
    var k :| 0 <= k < |s.att[c]| && !FailedH(s, s.att[c][k]);
    ConfirmationSpreads(s, c, k, |s.att[c]| - 1);
  }

  // What separates the listed instances from those that remain.
  lemma LingeringRemains(s: Sys, c: nat)
    requires |s.runs| == |s.sch.ops| && Chains(s) && Removals(s) && Remains(s, c)
    ensures Lingers(s, c)
  {
    if Deleted(s, c) && Confirmed(s, LastAttempt(s, c)) {
      ConfirmedIsGone(s, c);
    }
  }

  lemma RemovedLingers(s: Sys, c: nat)
    requires |s.runs| == |s.sch.ops| && Chains(s) && Inherits(s) && Removals(s) && c in s.removed
    ensures Deleted(s, c) && IsCreate(s, c) && Published(s, c)
    ensures Lingers(s, c) <==> !DoneH(s, LastAttempt(s, c))
  {
    assert Tried(s, c) && ChainAt(s, c);
    if DoneH(s, LastAttempt(s, c)) {
      RemovedIsConfirmed(s, c);
    }
  }

  /** In every state of every run Created lists no instance twice, and every
      published instance for which no Delete has returned nil. It lists one for
      which a Delete has returned nil exactly while the last attempt on it has
      not finished. */
  lemma CreatedIsSuperset(g: Graph, limit: nat, steps: seq<Step>, s: Sys)
    requires WellFormed(g) && Reach(g, limit, steps) == Some(s)
    ensures |s.sch.ns| == |s.retired| && NoRepeats(Live(s))
    ensures forall c :: c in Live(s) ==> IsCreate(s, c) && Published(s, c)
    ensures forall c: nat :: Remains(s, c) ==> c in Live(s)
    ensures forall c :: c in s.removed ==> Deleted(s, c) && (c in Live(s) <==> !DoneH(s, LastAttempt(s, c)))
  {
    SoundIsKept(g, limit, s);
    LiveLists(s, |s.retired|);
    assert forall c :: c in s.removed ==> IsCreate(s, c) ==> s.sch.ops[c].node < |s.retired|;
    hide Ordered, Traced, Balanced, Staged, Chains, Inherits, Removals, Conserved, Identified, Valid, Listed, Live;
    forall c: nat | Remains(s, c)
      ensures Lingers(s, c)
    {
      LingeringRemains(s, c);
    }
    forall c | c in s.removed
      ensures Deleted(s, c) && IsCreate(s, c)
      ensures Lingers(s, c) <==> !DoneH(s, LastAttempt(s, c))
    {
      RemovedLingers(s, c);
    }
  }

  predicate Drained(s: Sys) { forall j :: 0 <= j < |s.runs| ==> s.runs[j].phase.Finished? }

  // After the drain every attempt on every instance has an outcome.
  lemma DrainedIsDone(s: Sys, c: nat)
    requires Fits(s) && Chains(s) && Staged(s) && Drained(s) && Deleted(s, c)
    ensures DoneH(s, LastAttempt(s, c))
  {
    assert ChainAt(s, c);
    var h := LastAttempt(s, c);
    if h.Again? {
      assert StagedAt(s, s.retries[h.retry].owner);
    }
  }

  /** After the drain Created lists, exactly once each, the instances whose create
      published an id and for which no Delete returned nil. */
  lemma CreatedIsExact(g: Graph, limit: nat, steps: seq<Step>, s: Sys)
    requires WellFormed(g) && Reach(g, limit, steps) == Some(s) && Drained(s)
    ensures |s.sch.ns| == |s.retired| && NoRepeats(Live(s))
    ensures forall c: nat :: c in Live(s) <==> IsCreate(s, c) && c < |s.runs| && s.runs[c].id != "" && c !in s.removed
  {
    CreatedIsSuperset(g, limit, steps, s);
    hide Ordered, Traced, Balanced, Staged, Chains, Inherits, Removals, Conserved, Identified, Valid, Listed, Live;
    hide LastAttempt;
    forall c | c in s.removed
      ensures c !in Live(s)
    {
      DrainedIsDone(s, c);
    }
    forall c: nat | c in Live(s)
      ensures Remains(s, c)
    {
    }
  }

  lemma {:induction false} DistinctCounts(xs: seq<nat>)
    requires NoRepeats(xs)
    ensures |Elems(xs)| == |xs|
  {
    if xs != [] {
      var n := |xs| - 1;
      DistinctCounts(xs[..n]);
      assert Elems(xs) == Elems(xs[..n]) + {xs[n]};
    }
  }

  lemma RemovedArePublished(s: Sys)
    requires |s.runs| == |s.sch.ops| && Chains(s) && Removals(s)
    ensures s.cycles == |s.removed| && NoRepeats(s.removed)
    ensures forall c :: c in s.removed ==> IsCreate(s, c) && c < |s.runs| && s.runs[c].id != ""
  {
    forall c | c in s.removed
      ensures IsCreate(s, c) && Published(s, c)
    {
      assert Tried(s, c) && ChainAt(s, c);
    }
  }

  lemma PartsAddUp(born: set<nat>, removed: seq<nat>, live: seq<nat>)
    requires NoRepeats(removed) && NoRepeats(live)
    requires forall c :: c in removed ==> c in born
    requires forall c :: c in live <==> c in born && c !in removed
    ensures |born| == |removed| + |live|
  {
    DistinctCounts(removed);
    DistinctCounts(live);
    assert born == Elems(removed) + Elems(live);
    assert Elems(removed) !! Elems(live);
  }

  /** Replacement conservation: after the drain the instances that got an id are
      the confirmed deletes, of which no instance has two, and those Created lists. */
  lemma InstancesAreConserved(g: Graph, limit: nat, steps: seq<Step>, s: Sys, born: set<nat>)
    requires WellFormed(g) && Reach(g, limit, steps) == Some(s) && Drained(s)
    requires born == set c | 0 <= c < |s.runs| && IsCreate(s, c) && s.runs[c].id != ""
    ensures |s.sch.ns| == |s.retired| && |born| == s.cycles + |Live(s)|
    ensures s.cycles == |s.removed| && NoRepeats(s.removed) && forall c :: c in s.removed ==> c in born
  {
    hide Valid, Ordered, Traced, Balanced, NodeOrdered, Chains, Staged, Inherits, Removals, Conserved, Identified;
    hide Listed;
    hide Live, IsCreate, NoRepeats;
    CreatedIsExact(g, limit, steps, s);
    RemovedArePublished(s);
    PartsAddUp(born, s.removed, Live(s));
  }

  // The retry a move closes, if any.
  function Closes(s: Sys, j: nat, m: Move): Option<nat>
    requires Fits(s) && j < |s.runs|
  {
    var run := s.runs[j];
    match m
    case Begin =>
      if run.phase.Running? && run.phase.r < run.hi && !RetryCalls(s, run.phase.r) then Some(run.phase.r) else None
    case Return(out) => if run.phase.Calling? && run.phase.r < run.hi && !out.Panic? then Some(run.phase.r) else None
    case Settle =>
      if run.phase.Settling? && run.phase.r < run.hi && !s.retries[run.phase.r].done then Some(run.phase.r) else None
    case _ => None
  }

  // t is s with at most the retry c newly done.
  ghost predicate NewlyDone(s: Sys, t: Sys, c: Option<nat>)
  {
    && |t.retries| == |s.retries|
    && (forall r :: 0 <= r < |s.retries| ==> (t.retries[r].done <==> s.retries[r].done || c == Some(r)))
    && (c.Some? ==> c.value < |s.retries| && !s.retries[c.value].done)
  }

  lemma BeginCloses(s: Sys, j: nat, r: nat)
    requires r < |s.retries| && !s.retries[r].done
    ensures NewlyDone(s, BeginRetry(s, j, r), if RetryCalls(s, r) then None else Some(r))
  {
  }

  lemma ReturnCloses(s: Sys, j: nat, r: nat, out: Outcome)
    requires r < |s.retries| && !s.retries[r].done
    ensures NewlyDone(s, EndRetry(s, j, r, out), if out.Panic? then None else Some(r))
  {
  }

  lemma BeginMoveCloses(g: Graph, limit: nat, s: Sys, j: nat)
    requires Fits(s) && j < |s.runs| && MayMove(g, limit, s, j, Begin) && RetriesStagedAt(s, j)
    ensures NewlyDone(s, Moved(g, limit, s, j, Begin), Closes(s, j, Begin))
  {
    if s.runs[j].phase.r < s.runs[j].hi {
      BeginCloses(s, j, s.runs[j].phase.r);
    }
    hide OwnCalls, RetryCalls, DoneH, FailedH, Gate, Resolve, BeginRetry;
  }

  lemma ReturnMoveCloses(g: Graph, limit: nat, s: Sys, j: nat, out: Outcome)
    requires Fits(s) && j < |s.runs| && MayMove(g, limit, s, j, Return(out)) && RetriesStagedAt(s, j)
    ensures NewlyDone(s, Moved(g, limit, s, j, Return(out)), Closes(s, j, Return(out)))
  {
    if s.runs[j].phase.r < s.runs[j].hi {
      ReturnCloses(s, j, s.runs[j].phase.r, out);
    }
    hide OwnCalls, RetryCalls, DoneH, FailedH, Gate, Resolve, EndRetry;
  }

  lemma MoveCloses(g: Graph, limit: nat, s: Sys, j: nat, m: Move)
    requires Fits(s) && j < |s.runs| && MayMove(g, limit, s, j, m) && RetriesStagedAt(s, j)
    ensures NewlyDone(s, Moved(g, limit, s, j, m), Closes(s, j, m))
  {
    hide OwnCalls, RetryCalls, DoneH, FailedH, Gate, Resolve, BeginRetry, EndRetry;
    match m
    case Begin => BeginMoveCloses(g, limit, s, j);
    case Return(out) => ReturnMoveCloses(g, limit, s, j, out);
    case _ =>
  }

  /** No retry's done channel is closed twice ... */
  lemma RetriesCloseOnce(g: Graph, limit: nat, steps: seq<Step>, s: Sys, j: nat, m: Move)
    requires WellFormed(g) && Reach(g, limit, steps) == Some(s) && j < |s.runs| && MayMove(g, limit, s, j, m)
    ensures NewlyDone(s, Moved(g, limit, s, j, m), Closes(s, j, m))
  {
    hide Valid, Ordered, Traced, Balanced, NodeOrdered, Chains, Inherits, Removals, Conserved, Identified, Listed;
    hide CallStagedAt;
    hide Moved, NewlyDone, Closes, RetriesStagedAt, MayMove;
    assert StagedAt(s, j);
    MoveCloses(g, limit, s, j, m);
  }

  /** ... and after the drain every one is closed. */
  lemma RetriesAllClose(g: Graph, limit: nat, steps: seq<Step>, s: Sys)
    requires WellFormed(g) && Reach(g, limit, steps) == Some(s) && Drained(s)
    ensures forall r :: 0 <= r < |s.retries| ==> s.retries[r].done
  {
    hide Valid, Ordered, Traced, Balanced, NodeOrdered, Chains, Inherits, Removals, Conserved, Identified, Listed;
    hide CallStagedAt;
    forall r | 0 <= r < |s.retries|
      ensures s.retries[r].done
    {
      assert StagedAt(s, s.retries[r].owner);
    }
  }

  lemma OwnAttemptPends(s: Sys, j: nat)
    requires |s.runs| == |s.sch.ops| && Chains(s) && Inherits(s) && j < |s.runs| && s.sch.ops[j].act == Delete
    requires !s.runs[j].phase.Finished?
    ensures var c := s.sch.ops[j].create; Deleted(s, c) && !DoneH(s, LastAttempt(s, c))
  {
    var c := s.sch.ops[j].create;
    if DoneH(s, LastAttempt(s, c)) {
      ConfirmationSpreads(s, c, 0, |s.att[c]| - 1);
    }
  }

  // A Delete that returns nil removes its instance before the operation finishes.
  lemma RemovedBeforeFinished(g: Graph, limit: nat, s: Sys, j: nat)
    requires Fits(s) && j < |s.runs| && s.sch.ops[j].act == Delete && s.runs[j].phase == Calling(s.runs[j].hi)
    requires MayMove(g, limit, s, j, Return(Ok("")))
    ensures var t := Moved(g, limit, s, j, Return(Ok("")));
            t.sch == s.sch && |t.runs| == |s.runs| && !t.runs[j].phase.Finished? && s.sch.ops[j].create in t.removed
  {
  }

  /** A mid-run list is not exact: an instance whose Delete has returned nil is
      still listed until the Delete operation has finished. */
  lemma ListedUntilFinished(g: Graph, limit: nat, steps: seq<Step>, s: Sys, j: nat)
    requires WellFormed(g) && Reach(g, limit, steps) == Some(s)
    requires j < |s.runs| == |s.sch.ops| && s.sch.ops[j].act == Delete && !s.runs[j].phase.Finished?
    requires s.sch.ops[j].create in s.removed
    ensures |s.sch.ns| == |s.retired| && s.sch.ops[j].create in Live(s)
  {
    hide Valid, Ordered, Traced, Balanced, NodeOrdered, Staged, Chains, Inherits, Removals, Conserved, Identified;
    hide Listed;
    hide Live, LastAttempt, Deleted, DoneH;
    CreatedIsSuperset(g, limit, steps, s);
    OwnAttemptPends(s, j);
  }
}
