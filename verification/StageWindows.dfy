/** How the stages of a pressure run share the run duration. */
module StageWindows {
  import opened Options

  const MAX_INT64: int := 0x7fff_ffff_ffff_ffff

  // Storing a value that does not fit would not verify, so nothing here wraps.
  type int64 = x: int | -MAX_INT64 - 1 <= x <= MAX_INT64

  function Sum(s: seq<int64>): int
  {
    if s == [] then 0 else Sum(s[..|s| - 1]) + s[|s| - 1]
  }

  // The stages without a duration.
  function OpenCount(stages: seq<int64>): nat
  {
    if stages == [] then 0 else OpenCount(stages[..|stages| - 1]) + if stages[|stages| - 1] == 0 then 1 else 0
  }

  predicate IsOpen(stages: seq<int64>, i: int) { 0 <= i < |stages| && stages[i] == 0 }

  // Nothing can be shared out: the durations are longer than the run, or the
  // rest is too short to give every open stage a unit.
  predicate TooLong(stages: seq<int64>, duration: int64)
  {
    || Sum(stages) > duration
    || (OpenCount(stages) > 0 && duration - Sum(stages) < OpenCount(stages))
  }

  // An equal share of the rest, and what the division leaves.
  function Share(rest: int, n: nat): int
    requires n > 0
  {
    rest / n
  }

  function Extra(rest: int, n: nat): int
    requires n > 0
  {
    rest % n
  }

  predicate IsLastOpen(stages: seq<int64>, i: int)
  {
    IsOpen(stages, i) && forall k :: i < k < |stages| ==> stages[k] != 0
  }

  // What the windows promise: they are positive and add up to the run duration;
  // every stage with a duration keeps it, unless it is the last and none is open;
  // and the open stages share the rest equally, the last one taking the remainder.
  ghost predicate Divides(stages: seq<int64>, duration: int64, w: seq<int64>)
  {
    var n, rest := OpenCount(stages), duration - Sum(stages);
    && |w| == |stages| && Sum(w) == duration
    && (forall i :: 0 <= i < |w| ==> w[i] > 0 && w[i] >= stages[i])
    && (forall i :: 0 <= i < |w| && stages[i] != 0 && (i < |w| - 1 || n > 0) ==> w[i] == stages[i])
    && (n > 0 ==> forall i :: 0 <= i < |w| && stages[i] == 0 ==>
          w[i] == Share(rest, n) + if IsLastOpen(stages, i) then Extra(rest, n) else 0)
  }

  // The one family the saturated sum hides: no stage is open, and the durations
  // overflow a run of the longest duration.
  predicate Saturated(stages: seq<int64>, duration: int64)
  {
    duration == MAX_INT64 && OpenCount(stages) == 0 && Sum(stages) > MAX_INT64
  }

  // Such an input: two stages that overflow the longest run.
  lemma OverflowingStages()
    ensures Saturated([MAX_INT64, 1], MAX_INT64) && TooLong([MAX_INT64, 1], MAX_INT64)
  {
    var two: seq<int64> := [MAX_INT64, 1];
    assert two[..1] == [MAX_INT64] && two[..1][..0] == [];
    assert Sum(two[..1]) == MAX_INT64;
    assert OpenCount(two[..1]) == 0;
  }

  lemma {:induction false} SumOfUpdate(s: seq<int64>, i: nat, v: int64)
    requires i < |s|
    ensures Sum(s[i := v]) == Sum(s) - s[i] + v
  {
    var n := |s| - 1;
    if i < n {
      SumOfUpdate(s[..n], i, v);
      assert s[i := v][..n] == s[..n][i := v];
    } else {
      assert s[i := v][..n] == s[..n];
    }
  }

  lemma {:induction false} SumIsAtLeast(s: seq<int64>, i: nat)
    requires i < |s| && forall k :: 0 <= k < |s| ==> s[k] >= 0
    ensures s[i] <= Sum(s)
  {
    var n := |s| - 1;
    SumIsNonNegative(s[..n]);
    if i < n {
      SumIsAtLeast(s[..n], i);
    }
  }

  lemma {:induction false} SumIsNonNegative(s: seq<int64>)
    requires forall k :: 0 <= k < |s| ==> s[k] >= 0
    ensures Sum(s) >= 0
  {
    if s != [] {
      SumIsNonNegative(s[..|s| - 1]);
    }
  }

  // The sum the source keeps never wraps.
  function Saturating(n: int): int { if n > MAX_INT64 then MAX_INT64 else n }

  // The open stages among the first i, in order.
  ghost predicate Opens(stages: seq<int64>, i: nat, open: seq<nat>)
    requires i <= |stages|
  {
    && |open| == OpenCount(stages[..i])
    && (forall m :: 0 <= m < |open| ==> open[m] < i && stages[open[m]] == 0)
    && (forall k :: 0 <= k < i && stages[k] == 0 ==> k in open)
    && (forall a, b :: 0 <= a < b < |open| ==> open[a] < open[b])
  }

  lemma LastOfOpens(stages: seq<int64>, open: seq<nat>, m: nat)
    requires Opens(stages, |stages|, open) && m < |open|
    ensures IsLastOpen(stages, open[m]) <==> m == |open| - 1
  {
    if m < |open| - 1 {
      assert stages[open[m + 1]] == 0;
    } else {
      forall k | 0 <= k < |stages| && stages[k] == 0
        ensures k <= open[m]
      {
        var a :| 0 <= a < |open| && open[a] == k;
        assert a < m ==> open[a] < open[m];
      }
    }
  }

  function Times(n: nat, x: int): int { n * x }

  // The rest divides into n shares and a remainder that fits beside one share.
  lemma Shares(rest: nat, n: nat)
    requires n > 0
    ensures rest == Times(n, rest / n) + rest % n && rest / n + rest % n <= rest && rest / n >= 0 && rest % n >= 0
    ensures rest / n == 0 <==> rest < n
  {
    var q, r := rest / n, rest % n;
    assert rest == n * q + r && 0 <= r < n;
    Multiple(n, q);
  }

  lemma Multiple(n: nat, q: nat)
    requires n > 0
    ensures q <= n * q && (q > 0 ==> n <= n * q)
  {
    assert n * q == q + (n - 1) * q;
    if q > 0 {
      assert n * q == n + n * (q - 1);
    }
  }

  // Gives every open stage its share.
  method FillOpen(windows: array<int64>, stages: seq<int64>, open: seq<nat>, share: int64)
    requires windows[..] == stages && Opens(stages, |stages|, open)
    modifies windows
    ensures |windows[..]| == |stages|
    ensures forall k :: 0 <= k < |stages| ==> windows[k] == if stages[k] == 0 then share else stages[k]
    ensures Sum(windows[..]) == Sum(stages) + Times(|open|, share)
  {
    for m := 0 to |open|
      invariant Sum(windows[..]) == Sum(stages) + m * share
      invariant forall k :: 0 <= k < |stages| && stages[k] != 0 ==> windows[k] == stages[k]
      invariant forall a :: 0 <= a < |open| ==> windows[open[a]] == if a < m then share else 0
    {
      ghost var before := windows[..];
      SumOfUpdate(before, open[m], share);
      windows[open[m]] := share;
      assert windows[..] == before[open[m] := share];
      assert (m + 1) * share == m * share + share;
    }
  }

  lemma OpensGrow(stages: seq<int64>, i: nat, open: seq<nat>)
    requires i < |stages| && Opens(stages, i, open)
    ensures Opens(stages, i + 1, if stages[i] == 0 then open + [i] else open)
    ensures stages[i] == 0 ==> Sum(stages[..i + 1]) == Sum(stages[..i])
    ensures stages[i] >= 0 ==> Saturating(Sum(stages[..i + 1])) == Saturating(Saturating(Sum(stages[..i])) + stages[i])
  {
    assert stages[..i + 1][..i] == stages[..i];
  }

  lemma NothingGathered(stages: seq<int64>)
    ensures Saturating(Sum(stages[..0])) == 0
  {
  }

  // The sum saturates rather than wraps.
  method AddSaturating(fixed: int64, d: int64) returns (sum: int64)
    requires fixed >= 0 && d >= 0
    ensures sum == Saturating(fixed + d) >= 0
  {
    if d > MAX_INT64 - fixed {
      sum := MAX_INT64;
    } else {
      sum := fixed + d;
    }
  }

  // The sum of the durations, saturating, and the open stages.
  method Gather(stages: seq<int64>, windows: array<int64>) returns (fixed: int64, open: seq<nat>)
    requires Opens(stages, 0, []) && windows.Length == |stages|
    requires forall k :: 0 <= k < |stages| ==> windows[k] == 0 && stages[k] >= 0
    modifies windows
    ensures windows[..] == stages && fixed == Saturating(Sum(stages)) >= 0 && Opens(stages, |stages|, open)
  {
    hide Opens, MAX_INT64, Saturating;
    fixed, open := 0, [];
    assert Saturating(Sum(stages[..0])) == 0 by { NothingGathered(stages); }
    for i := 0 to |stages|
      invariant forall k :: 0 <= k < |stages| ==> windows[k] == if k < i then stages[k] else 0
      invariant fixed == Saturating(Sum(stages[..i])) >= 0
      invariant Opens(stages, i, open)
    {
      OpensGrow(stages, i, open);
      var d := stages[i];
      if d == 0 {
        open := open + [i];
      } else {
        windows[i] := d;
        fixed := AddSaturating(fixed, d);
      }
    }
    assert stages[..|stages|] == stages;
  }

  // Window i takes what is left.
  method GiveRest(windows: array<int64>, i: nat, rest: int64)
    requires i < windows.Length && rest >= 0 && (rest > 0 ==> Sum(windows[..]) + rest <= MAX_INT64)
    requires forall k :: 0 <= k < windows.Length ==> windows[k] >= 0
    modifies windows
    ensures windows[i] == old(windows[i]) + rest
    ensures forall k :: 0 <= k < windows.Length && k != i ==> windows[k] == old(windows[k])
    ensures Sum(windows[..]) == old(Sum(windows[..])) + rest
  {
    ghost var before := windows[..];
    SumIsAtLeast(before, i);
    windows[i] := windows[i] + rest;
    SumOfUpdate(before, i, windows[i]);
    assert windows[..] == before[i := windows[i]];
  }

  // When no stage is open the last window takes the whole rest.
  lemma ClosedDivides(stages: seq<int64>, duration: int64, w: seq<int64>)
    requires |stages| > 0 && OpenCount(stages) == 0 && forall i :: 0 <= i < |stages| ==> stages[i] > 0
    requires |w| == |stages| && Sum(w) == duration >= Sum(stages)
    requires w[|w| - 1] == stages[|w| - 1] + duration - Sum(stages)
    requires forall k :: 0 <= k < |w| - 1 ==> w[k] == stages[k]
    ensures Divides(stages, duration, w)
  {
  }

  lemma SharedDivides(stages: seq<int64>, duration: int64, open: seq<nat>, w: seq<int64>, share: int, extra: int)
    requires Opens(stages, |stages|, open) && |open| > 0 && forall i :: 0 <= i < |stages| ==> stages[i] >= 0
    requires |w| == |stages| && Sum(w) == duration
    requires share == Share(duration - Sum(stages), |open|) > 0 && extra == Extra(duration - Sum(stages), |open|) >= 0
    requires forall k :: 0 <= k < |w| ==>
               w[k] == if stages[k] != 0 then stages[k] else share + if k == open[|open| - 1] then extra else 0
    ensures Divides(stages, duration, w)
  {
    hide Opens, OpenCount, IsLastOpen, MAX_INT64, Share, Extra, Sum;
    NoneOpen(stages, open);
    OneIsLast(stages, open);
  }

  lemma OneIsLast(stages: seq<int64>, open: seq<nat>)
    requires Opens(stages, |stages|, open) && |open| > 0
    ensures forall i :: 0 <= i < |stages| && stages[i] == 0 ==> (IsLastOpen(stages, i) <==> i == open[|open| - 1])
  {
    forall i | 0 <= i < |stages| && stages[i] == 0
      ensures IsLastOpen(stages, i) <==> i == open[|open| - 1]
    {
      var a :| 0 <= a < |open| && open[a] == i;
      LastOfOpens(stages, open, a);
    }
  }

  /** stageWindows. The result is the promised one, and an error exactly when
      nothing can be shared out, for all but the saturated inputs. */
  method Resolve(stages: seq<int64>, duration: int64) returns (r: Option<seq<int64>>)
    requires 0 < |stages| <= MAX_INT64
    requires forall i :: 0 <= i < |stages| ==> stages[i] >= 0
    ensures !Saturated(stages, duration) ==>
              && (r.None? <==> TooLong(stages, duration))
              && (r.Some? ==> Divides(stages, duration, r.value))
    ensures Saturated(stages, duration) ==> r == Some(stages) && Sum(stages) > duration
  {
    var windows := new int64[|stages|](_ => 0);
    var fixed, open := Gather(stages, windows);
    NoneOpen(stages, open);
    OpenIsBounded(stages);
    assert MAX_INT64 >= 0;
    hide Opens, OpenCount, IsLastOpen, Divides, Sum, MAX_INT64, Times;
    if fixed > duration {
      return None;
    }
    var rest := duration - fixed;
    if |open| == 0 {
      GiveRest(windows, |stages| - 1, rest);
      if !Saturated(stages, duration) {
        ClosedDivides(stages, duration, windows[..]);
      }
      assert rest == 0 ==> windows[..] == stages;
      return Some(windows[..]);
    }
    var n := |open|;
    var share := rest / n;
    Shares(rest, |open|);
    if share == 0 {
      return None;
    }
    FillOpen(windows, stages, open, share);
    OpenIsIndex(stages, open, |open| - 1);
    GiveRest(windows, open[|open| - 1], rest % n);
    SharedDivides(stages, duration, open, windows[..], share, rest % n);
    r := Some(windows[..]);
  }

  lemma OpenIsIndex(stages: seq<int64>, open: seq<nat>, m: nat)
    requires Opens(stages, |stages|, open) && m < |open|
    ensures open[m] < |stages| && stages[open[m]] == 0
  {
  }

  lemma NoneOpen(stages: seq<int64>, open: seq<nat>)
    requires Opens(stages, |stages|, open)
    ensures OpenCount(stages) == |open| && (open == [] ==> forall i :: 0 <= i < |stages| ==> stages[i] != 0)
  {
    assert stages[..|stages|] == stages;
  }

  lemma {:induction false} OpenIsBounded(stages: seq<int64>)
    ensures OpenCount(stages) <= |stages|
  {
    if stages != [] {
      OpenIsBounded(stages[..|stages| - 1]);
    }
  }
}
