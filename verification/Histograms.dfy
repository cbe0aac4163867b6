/** The log-bucket latency histogram, and how far its percentiles are from the
    exact nearest-rank ones. Logarithms and powers are exact here. */
module Histograms {
  import opened Finite

  // The ratio between the bounds of two adjacent keys for a relative accuracy of 1%.
  const GAMMA: real := (1.0 + 0.01) / (1.0 - 0.01)

  function Pow(k: nat): real
  {
    if k == 0 then 1.0 else Pow(k - 1) * 101.0 / 99.0
  }

  lemma {:induction false} PowGrows(i: nat, j: nat)
    requires i <= j
    ensures 1.0 <= Pow(i) <= Pow(j) && (i < j ==> Pow(i) < Pow(j))
    decreases j
  {
    if i < j {
      PowGrows(i, j - 1);
    } else if i > 0 {
      PowGrows(i - 1, i - 1);
    }
  }

  lemma {:induction false} PowIsUnbounded(k: nat)
    ensures Pow(k) >= 1.0 + k as real * 2.0 / 99.0
  {
    if k > 0 {
      PowIsUnbounded(k - 1);
    }
  }

  // ceil(log_gamma(d)): the least key whose upper bound reaches d.
  ghost predicate IsKey(d: nat, k: nat)
  {
    Pow(k) >= d as real && (k > 0 ==> Pow(k - 1) < d as real)
  }

  function KeyFrom(d: nat, k: nat): (r: nat)
    requires d > 0 && k <= 50 * d && (k > 0 ==> Pow(k - 1) < d as real)
    ensures IsKey(d, r)
    decreases 50 * d - k
  {
    PowIsUnbounded(k);
    if Pow(k) >= d as real then k else KeyFrom(d, k + 1)
  }

  function Key(d: nat): (k: nat)
    requires d > 0
    ensures IsKey(d, k)
  {
    KeyFrom(d, 0)
  }

  // Key k covers exactly the durations in (gamma^(k-1), gamma^k].
  lemma KeyBounds(d: nat, k: nat)
    requires d > 0
    ensures Key(d) <= k <==> d as real <= Pow(k)
  {
    if Key(d) <= k {
      PowGrows(Key(d), k);
    } else {
      PowGrows(k, Key(d) - 1);
    }
  }

  /** The histogram's state, as a value. */
  datatype Hist = Hist(n: nat, sum: real, min: nat, max: nat, zeros: nat, counts: map<nat, nat>)

  const EMPTY := Hist(0, 0.0, 0, 0, 0, map[])

  function CountOf(h: Hist, k: nat): nat { if k in h.counts then h.counts[k] else 0 }

  // One more duration; a negative one counts as 0.
  function With(h: Hist, d0: int): Hist
  {
    var d := if d0 < 0 then 0 else d0;
    Hist(h.n + 1, h.sum + d as real,
         if h.n == 0 || d < h.min then d else h.min,
         if h.n == 0 || d > h.max then d else h.max,
         if d == 0 then h.zeros + 1 else h.zeros,
         if d == 0 then h.counts else h.counts[Key(d) := CountOf(h, Key(d)) + 1])
  }

  function Fold(ds: seq<int>): Hist
  {
    if ds == [] then EMPTY else With(Fold(ds[..|ds| - 1]), ds[|ds| - 1])
  }

  // Two additions can be swapped.
  lemma AddsCommute(h: Hist, a: int, b: int)
    requires h.n == 0 ==> h == EMPTY
    ensures With(With(h, a), b) == With(With(h, b), a)
  {
    var l, r := With(With(h, a), b), With(With(h, b), a);
    assert l.counts == r.counts;
  }

  lemma {:induction false} FoldOfNone(ds: seq<int>)
    ensures Fold(ds).n == |ds| && (|ds| == 0 ==> Fold(ds) == EMPTY)
  {
    if ds != [] {
      FoldOfNone(ds[..|ds| - 1]);
    }
  }

  lemma FoldOfOneMore(ds: seq<int>, d: int)
    ensures Fold(ds + [d]) == With(Fold(ds), d)
  {
    assert (ds + [d])[..|ds|] == ds;
  }

  // A duration can be moved to the end.
  lemma {:induction false} FoldMovesLast(a: seq<int>, d: int, b: seq<int>)
    ensures Fold(a + [d] + b) == Fold(a + b + [d])
    decreases |b|
  {
    if b == [] {
      assert a + [d] + b == a + b + [d];
    } else {
      var c, e := b[..|b| - 1], b[|b| - 1];
      hide With, Fold;
      assert a + [d] + b == (a + [d] + c) + [e] && a + b == (a + c) + [e];
      FoldOfOneMore(a + [d] + c, e);
      FoldMovesLast(a, d, c);
      FoldOfOneMore(a + c, d);
      FoldOfOneMore(a + c, e);
      FoldOfOneMore(a + b, d);
      FoldOfNone(a + c);
      AddsCommute(Fold(a + c), d, e);
    }
  }

  /** The order in which durations are added does not matter. */
  lemma {:induction false} FoldIgnoresOrder(s: seq<int>, t: seq<int>)
    requires multiset(s) == multiset(t)
    ensures Fold(s) == Fold(t)
  {
    hide With, Fold;
    if s == [] {
      assert |multiset(t)| == 0;
    } else {
      var c, d := s[..|s| - 1], s[|s| - 1];
      assert s == c + [d] && d in multiset(t);
      var i :| 0 <= i < |t| && t[i] == d;
      var a, b := t[..i], t[i + 1..];
      assert t == a + [d] + b;
      WithoutOne(c, d, a, b);
      FoldIgnoresOrder(c, a + b);
      FoldMovesLast(a, d, b);
      FoldOfOneMore(a + b, d);
      FoldOfOneMore(c, d);
    }
  }

  // The recorded duration: a negative one counts as 0.
  function Clip(d: int): nat { if d < 0 then 0 else d }

  function SumOf(ds: seq<int>): int
  {
    if ds == [] then 0 else SumOf(ds[..|ds| - 1]) + ds[|ds| - 1]
  }

  function Clipped(ds: seq<int>): (r: seq<int>)
    ensures |r| == |ds| && forall i :: 0 <= i < |ds| ==> r[i] == Clip(ds[i])
  {
    if ds == [] then [] else Clipped(ds[..|ds| - 1]) + [Clip(ds[|ds| - 1])]
  }

  /** The sum is that of the durations, and they count as many as were added. */
  lemma {:induction false} FoldSums(ds: seq<int>)
    ensures Fold(ds).n == |ds| && Fold(ds).sum == SumOf(Clipped(ds)) as real
  {
    if ds != [] {
      var n := |ds| - 1;
      FoldSums(ds[..n]);
      assert Clipped(ds)[..n] == Clipped(ds[..n]);
    }
  }

  predicate Sorted(ds: seq<int>) { forall i, j :: 0 <= i < j < |ds| ==> ds[i] <= ds[j] }

  // How many durations are counted as zero or under a key up to k.
  function Cum(h: Hist, k: nat): nat
  {
    (if k == 0 then h.zeros else Cum(h, k - 1)) + CountOf(h, k)
  }

  // How many durations are at most y.
  function AtMost(ds: seq<int>, y: real): nat
  {
    if ds == [] then 0
    else AtMost(ds[..|ds| - 1], y) + if Clip(ds[|ds| - 1]) as real <= y then 1 else 0
  }

  lemma {:induction false} CumOfAdd(h: Hist, d: int, k: nat)
    ensures Cum(With(h, d), k) == Cum(h, k) + if Clip(d) as real <= Pow(k) then 1 else 0
  {
    PowGrows(0, k);
    var t := With(h, d);
    if Clip(d) == 0 {
      if k > 0 {
        CumOfAdd(h, d, k - 1);
        PowGrows(k - 1, k);
      }
    } else {
      KeyBounds(Clip(d), k);
      assert CountOf(t, k) == CountOf(h, k) + if k == Key(Clip(d)) then 1 else 0;
      if k > 0 {
        CumOfAdd(h, d, k - 1);
        KeyBounds(Clip(d), k - 1);
      }
    }
  }

  /** The cumulative count up to key k is the number of durations its bound reaches. */
  lemma {:induction false} CumIsAtMost(ds: seq<int>, k: nat)
    ensures Cum(Fold(ds), k) == AtMost(ds, Pow(k))
  {
    if ds == [] {
      CumOfEmpty(k);
    } else {
      CumIsAtMost(ds[..|ds| - 1], k);
      CumOfAdd(Fold(ds[..|ds| - 1]), ds[|ds| - 1], k);
    }
  }

  lemma {:induction false} CumOfEmpty(k: nat)
    ensures Cum(EMPTY, k) == 0
  {
    if k > 0 {
      CumOfEmpty(k - 1);
    }
  }

  lemma {:induction false} ZerosAreAtMost(ds: seq<int>)
    ensures Fold(ds).zeros == AtMost(ds, 0.0)
  {
    if ds != [] {
      ZerosAreAtMost(ds[..|ds| - 1]);
    }
  }

  // In ascending order, y reaches the r-th duration exactly when it reaches r of them.
  lemma {:induction false} AtMostInOrder(ds: seq<int>, y: real, r: nat)
    requires Sorted(ds) && 0 < r <= |ds|
    ensures AtMost(ds, y) >= r <==> Clip(ds[r - 1]) as real <= y
  {
    var n := |ds| - 1;
    if r <= n {
      AtMostInOrder(ds[..n], y, r);
      if Clip(ds[n]) as real <= y {
        assert Clip(ds[r - 1]) <= Clip(ds[n]);
      }
    } else {
      AtMostIsBounded(ds[..n], y);
      if Clip(ds[n]) as real <= y {
        AllAtMost(ds[..n], y);
      }
    }
  }

  lemma {:induction false} AtMostIsBounded(ds: seq<int>, y: real)
    ensures AtMost(ds, y) <= |ds|
  {
    if ds != [] {
      AtMostIsBounded(ds[..|ds| - 1], y);
    }
  }

  lemma {:induction false} AllAtMost(ds: seq<int>, y: real)
    requires forall i :: 0 <= i < |ds| ==> Clip(ds[i]) as real <= y
    ensures AtMost(ds, y) == |ds|
  {
    if ds != [] {
      AllAtMost(ds[..|ds| - 1], y);
    }
  }

  lemma {:induction false} MinMaxInOrder(ds: seq<int>)
    requires Sorted(ds) && |ds| > 0
    ensures Fold(ds).min == Clip(ds[0]) && Fold(ds).max == Clip(ds[|ds| - 1]) && Fold(ds).n == |ds|
  {
    var n := |ds| - 1;
    if n > 0 {
      MinMaxInOrder(ds[..n]);
    } else {
      assert ds[..0] == [];
    }
  }

  function Ceil(x: real): int { -((-x).Floor) }

  // ceil(p/100 * n), clamped to 1..n.
  function Rank(p: real, n: nat): nat
    requires n > 0
  {
    var r := Ceil(p / 100.0 * n as real);
    if r < 1 then 1 else if r > n then n else r
  }

  /** The exact nearest-rank percentile of durations in ascending order. */
  function Percentile(sorted: seq<int>, p: real): int
  {
    if sorted == [] then 0
    else
      var idx := Ceil(p / 100.0 * |sorted| as real) - 1;
      sorted[if idx < 0 then 0 else if idx >= |sorted| then |sorted| - 1 else idx]
  }

  /** r is a nearest-rank percentile: of the n durations at least p percent are at
      most r, and fewer than p percent below it. */
  ghost predicate NearestRank(ds: seq<int>, p: real, r: int)
  {
    r in ds && Count(ds, d => d < r) as real < p / 100.0 * |ds| as real <= Count(ds, d => d <= r) as real
  }

  lemma {:induction false} CountsInOrder(ds: seq<int>, k: nat)
    requires Sorted(ds) && k < |ds|
    ensures Count(ds, d => d < ds[k]) <= k < Count(ds, d => d <= ds[k])
  {
    var n := |ds| - 1;
    if k < n {
      CountsInOrder(ds[..n], k);
    } else {
      CountsAgree(ds, d => d <= ds[k], d => true);
      CountOfAll(ds);
      CountIsBounded(ds[..n], d => d < ds[k]);
    }
  }

  lemma PercentileIsNearest(ds: seq<int>, p: real)
    requires Sorted(ds) && |ds| > 0 && 0.0 < p <= 100.0
    ensures NearestRank(ds, p, Percentile(ds, p))
  {
    var x := p / 100.0 * |ds| as real;
    Portion(p / 100.0, |ds| as real);
    CeilBounds(x);
    CeilBounded(x, |ds|);
    CountsInOrder(ds, Ceil(x) - 1);
  }

  lemma Portion(q: real, n: real)
    requires 0.0 < q <= 1.0 && n > 0.0
    ensures 0.0 < q * n <= n
  {
    assert (1.0 - q) * n >= 0.0;
  }

  lemma CeilBounded(x: real, n: nat)
    requires 0.0 < x <= n as real
    ensures 0 < Ceil(x) <= n
  {
    CeilBounds(x);
    hide Ceil;
    assert (Ceil(x) - 1) as real < n as real;
  }

  // The value key k stands for.
  function Middle(k: nat): real { 2.0 * Pow(k) / (GAMMA + 1.0) }

  // The walk over the keys stops at k.
  ghost predicate Lands(h: Hist, rank: nat, k: nat)
  {
    Cum(h, k) >= rank && (if k == 0 then h.zeros else Cum(h, k - 1)) < rank
  }

  // What the walk over the keys ends with: 0 when it does not start.
  ghost predicate Walked(h: Hist, rank: nat, v: real)
  {
    if h.zeros >= rank then v == 0.0 else exists k: nat :: Lands(h, rank, k) && v == Middle(k)
  }

  // The estimate, clamped to the exact minimum and maximum, and truncated.
  function Clamped(h: Hist, v: real): int
  {
    if v <= h.min as real then h.min else if v >= h.max as real then h.max else v.Floor
  }

  function Between(h: Hist, v: real): real
  {
    if v <= h.min as real then h.min as real else if v >= h.max as real then h.max as real else v
  }

  /** The walk lands on the key of the rank-th smallest duration. */
  lemma WalkLandsOnRank(ds: seq<int>, rank: nat, k: nat)
    requires Sorted(ds) && 0 < rank <= |ds|
    ensures Fold(ds).zeros >= rank <==> Clip(ds[rank - 1]) == 0
    ensures Clip(ds[rank - 1]) > 0 ==> (Lands(Fold(ds), rank, k) <==> k == Key(Clip(ds[rank - 1])))
  {
    var x := Clip(ds[rank - 1]);
    ZerosAreAtMost(ds);
    AtMostInOrder(ds, 0.0, rank);
    if x > 0 {
      CumIsAtMost(ds, k);
      AtMostInOrder(ds, Pow(k), rank);
      KeyBounds(x, k);
      if k > 0 {
        CumIsAtMost(ds, k - 1);
        AtMostInOrder(ds, Pow(k - 1), rank);
        KeyBounds(x, k - 1);
      }
    }
  }

  // The value of a key is within 1% of every duration the key covers.
  lemma MiddleIsClose(d: nat)
    requires d > 0
    ensures 0.99 * d as real <= Middle(Key(d)) <= 1.01 * d as real
  {
    var k := Key(d);
    assert Middle(k) == 0.99 * Pow(k);
    if k > 0 {
      assert Pow(k) == Pow(k - 1) * 101.0 / 99.0;
    } else {
      assert d == 1;
    }
  }

  // The value the walk ends with, and where the exact percentile lies.
  lemma WalkEndsInMiddle(ds: seq<int>, p: real, v: real)
    requires Sorted(ds) && |ds| > 0 && Walked(Fold(ds), Rank(p, |ds|), v)
    ensures var x := Clip(Percentile(ds, p));
            v == (if x == 0 then 0.0 else Middle(Key(x))) && Fold(ds).min <= x <= Fold(ds).max
  {
    var rank := Rank(p, |ds|);
    var x := Clip(ds[rank - 1]);
    assert x == Clip(Percentile(ds, p));
    MinMaxInOrder(ds);
    WalkLandsOnRank(ds, rank, 0);
    if x > 0 {
      var k: nat :| Lands(Fold(ds), rank, k) && v == Middle(k);
      WalkLandsOnRank(ds, rank, k);
    }
  }

  /** Before the truncation the estimate is within 1% of the exact nearest-rank
      percentile, after it within 1% and one nanosecond. */
  lemma EstimateIsClose(ds: seq<int>, p: real, v: real)
    requires Sorted(ds) && |ds| > 0 && Walked(Fold(ds), Rank(p, |ds|), v)
    ensures var x := Clip(Percentile(ds, p)) as real;
            && 0.99 * x <= Between(Fold(ds), v) <= 1.01 * x
            && 0.99 * x - 1.0 < Clamped(Fold(ds), v) as real <= 1.01 * x
  {
    hide Walked, Fold, Percentile, Middle, Key, Clip;
    WalkEndsInMiddle(ds, p, v);
    var x := Clip(Percentile(ds, p));
    if x > 0 {
      MiddleIsClose(x);
    }
  }

  // Whether the whole nanoseconds within 1% of x start no later than the value
  // of x's key, or the clamping replaces that value by an exact one.
  predicate SurvivesTruncation(h: Hist, x: nat)
  {
    x == 0 ||
    var v := Middle(Key(x));
    v <= h.min as real || v >= h.max as real || Ceil(0.99 * x as real) as real <= v
  }

  /** Exactly when the truncated estimate is still within 1%, which it is for
      every multiple of 100 ns. */
  lemma TruncatedIsClose(ds: seq<int>, p: real, v: real)
    requires Sorted(ds) && |ds| > 0 && Walked(Fold(ds), Rank(p, |ds|), v)
    ensures var x := Clip(Percentile(ds, p));
            0.99 * x as real <= Clamped(Fold(ds), v) as real <= 1.01 * x as real <==> SurvivesTruncation(Fold(ds), x)
    ensures Clip(Percentile(ds, p)) % 100 == 0 ==> SurvivesTruncation(Fold(ds), Clip(Percentile(ds, p)))
  {
    hide Walked, Fold, Percentile, Middle, Key, Clip, Ceil;
    WalkEndsInMiddle(ds, p, v);
    EstimateIsClose(ds, p, v);
    var x := Clip(Percentile(ds, p));
    if x > 0 {
      MiddleIsClose(x);
      CeilIsLeast(0.99 * x as real, v);
      if x % 100 == 0 {
        HundredsAreWhole(x);
      }
    }
  }

  // Whole numbers from a to v are those from the rounded a to the truncated v.
  lemma CeilIsLeast(a: real, v: real)
    ensures Ceil(a) as real <= v <==> a <= v.Floor as real
  {
    var c, f := Ceil(a), v.Floor;
    CeilBounds(a);
    assert f as real <= v < (f + 1) as real;
    hide Ceil;
    if c <= f {
      assert c as real <= f as real;
    } else {
      assert (f + 1) as real <= c as real && f as real <= (c - 1) as real;
    }
  }

  lemma CeilBounds(a: real)
    ensures (Ceil(a) - 1) as real < a <= Ceil(a) as real
  {
    var f := (-a).Floor;
    assert f as real <= -a < (f + 1) as real;
    assert Ceil(a) == -f && Ceil(a) - 1 == -(f + 1);
  }

  lemma HundredsAreWhole(x: nat)
    requires x % 100 == 0
    ensures Ceil(0.99 * x as real) as real == 0.99 * x as real
  {
    var m := x / 100;
    NinetyNine(x, m);
    CeilBounds(0.99 * x as real);
    CeilOfWhole(99 * m);
  }

  lemma NinetyNine(x: nat, m: nat)
    requires x == 100 * m
    ensures 0.99 * x as real == (99 * m) as real
  {
    assert x as real == 100.0 * m as real;
  }

  lemma CeilOfWhole(i: int)
    ensures Ceil(i as real) == i
  {
    var c := Ceil(i as real);
    CeilBounds(i as real);
    hide Ceil;
    assert (c - 1) as real < i as real && c - 1 < i;
  }

  lemma {:induction false} PowAdds(i: nat, j: nat)
    ensures Pow(i + j) == Pow(i) * Pow(j)
  {
    if j > 0 {
      PowAdds(i, j - 1);
      assert Pow(i) * (Pow(j - 1) * 101.0 / 99.0) == Pow(i) * Pow(j - 1) * 101.0 / 99.0;
    }
  }

  lemma PowDoubles(k: nat, low: real)
    requires 0.0 < low <= Pow(k)
    ensures low * low <= Pow(2 * k)
  {
    PowAdds(k, k);
    assert low * low <= low * Pow(k) <= Pow(k) * Pow(k);
  }

  lemma FirstPowers()
    ensures Pow(8) >= 1.173517124 && Pow(128) >= 12.936919
  {
    assert Pow(1) == 101.0 / 99.0 by { assert Pow(0) == 1.0; }
    hide Pow;
    PowDoubles(1, 1.0202020202);
    PowDoubles(2, 1.0408121614);
    PowDoubles(4, 1.083289954);
    PowDoubles(8, 1.173517124);
    PowDoubles(16, 1.377142440);
    PowDoubles(32, 1.896521300);
    PowDoubles(64, 3.596793000);
  }

  // gamma^2184 reaches every 63-bit duration, by repeated squaring.
  lemma LastKey()
    ensures Pow(2184) >= 0x8000_0000_0000_0000 as real
  {
    hide Pow;
    FirstPowers();
    PowDoubles(128, 12.936919);
    PowDoubles(256, 167.36387);
    PowDoubles(512, 28010.66);
    PowDoubles(1024, 784597000.0);
    PowAdds(128, 8);
    assert Pow(136) >= 15.18 by { Product(12.936919, 1.173517124, Pow(128), Pow(8)); }
    PowAdds(2048, 136);
    Product(615592000000000000.0, 15.18, Pow(2048), Pow(136));
  }

  lemma Product(a: real, b: real, x: real, y: real)
    requires 0.0 < a <= x && 0.0 < b <= y
    ensures a * b <= x * y
  {
    assert a * b <= a * y <= x * y;
  }

  lemma {:induction false} KeysAreUsed(ds: seq<int>, k: nat)
    ensures k in Fold(ds).counts <==> exists i :: 0 <= i < |ds| && Clip(ds[i]) > 0 && Key(Clip(ds[i])) == k
  {
    if ds != [] {
      var n := |ds| - 1;
      KeysAreUsed(ds[..n], k);
      if k in Fold(ds[..n]).counts {
        var i :| 0 <= i < n && Clip(ds[..n][i]) > 0 && Key(Clip(ds[..n][i])) == k;
        assert Clip(ds[i]) > 0 && Key(Clip(ds[i])) == k;
      }
      if i :| 0 <= i < |ds| && Clip(ds[i]) > 0 && Key(Clip(ds[i])) == k {
        assert i < n ==> Clip(ds[..n][i]) > 0 && Key(Clip(ds[..n][i])) == k;
      }
    }
  }

  /** Durations below 2^63 use at most 2,185 keys. */
  lemma FewKeys(ds: seq<int>)
    requires forall i :: 0 <= i < |ds| ==> ds[i] < 0x8000_0000_0000_0000
    ensures forall k :: k in Fold(ds).counts ==> k <= 2184
    ensures |Fold(ds).counts| <= 2185
  {
    LastKey();
    var h := Fold(ds);
    forall k | k in h.counts
      ensures k <= 2184
    {
      KeysAreUsed(ds, k);
      var i :| 0 <= i < |ds| && Clip(ds[i]) > 0 && Key(Clip(ds[i])) == k;
      KeyBounds(Clip(ds[i]), 2184);
    }
    BoundedSet(h.counts.Keys, 2185);
    assert |h.counts| == |h.counts.Keys|;
  }

  /** The truncation can cost more than 1%: the median of 0, 1 and 2 ns is
      estimated as 0. */
  lemma TruncationCostsMore()
    ensures Sorted([0, 1, 2]) && Percentile([0, 1, 2], 50.0) == 1
    ensures forall v :: Walked(Fold([0, 1, 2]), Rank(50.0, 3), v) ==> Clamped(Fold([0, 1, 2]), v) == 0
  {
    var ds := [0, 1, 2];
    assert Ceil(1.5) == 2;
    assert Rank(50.0, 3) == 2;
    MinMaxInOrder(ds);
    WalkLandsOnRank(ds, 2, 0);
    assert Key(1) == 0 && Middle(0) == 0.99 by { assert Pow(0) == 1.0; }
    forall v | Walked(Fold(ds), 2, v)
      ensures v == 0.99
    {
      var k: nat :| Lands(Fold(ds), 2, k) && v == Middle(k);
      WalkLandsOnRank(ds, 2, k);
    }
  }

  datatype Latency = Latency(min: int, mean: int, median: int, p90: int, p95: int, p99: int, max: int)

  // r is what the exact percentile of the durations allows the estimate to be.
  ghost predicate Close(ds: seq<int>, p: real, r: int)
  {
    var x := Clip(Percentile(ds, p)) as real;
    0.99 * x - 1.0 < r as real <= 1.01 * x
  }

  predicate Ascending(keys: seq<nat>) { forall i, j :: 0 <= i < j < |keys| ==> keys[i] < keys[j] }

  function Insert(keys: seq<nat>, k: nat): (r: seq<nat>)
    requires Ascending(keys) && k !in keys
    ensures Ascending(r) && forall x :: x in r <==> x == k || x in keys
  {
    if keys == [] then [k]
    else if k < keys[0] then [k] + keys
    else
      var rest := Insert(keys[1..], k);
      assert forall i :: 0 <= i < |rest| ==> rest[i] in rest && (rest[i] == k || rest[i] in keys[1..]);
      [keys[0]] + rest
  }

  // No duration is counted under a key strictly after i, up to j.
  lemma {:induction false} GapKeepsCum(h: Hist, i: nat, j: nat)
    requires i <= j && forall k :: i < k <= j ==> k !in h.counts
    ensures Cum(h, j) == Cum(h, i)
  {
    if i < j {
      GapKeepsCum(h, i, j - 1);
    }
  }

  // Below the first key only the zeros are counted.
  lemma GapFromZeros(h: Hist, j: nat)
    requires forall k :: 0 <= k <= j ==> k !in h.counts
    ensures Cum(h, j) == h.zeros
  {
    GapKeepsCum(h, 0, j);
  }

  // With all keys counted, every duration is.
  lemma CumReachesAll(ds: seq<int>, k: nat)
    requires forall x :: x in Fold(ds).counts ==> x <= k
    ensures Cum(Fold(ds), k) == |ds|
  {
    CumIsAtMost(ds, k);
    PowGrows(0, k);
    forall i | 0 <= i < |ds|
      ensures Clip(ds[i]) as real <= Pow(k)
    {
      if Clip(ds[i]) > 0 {
        KeysAreUsed(ds, Key(Clip(ds[i])));
        KeyBounds(Clip(ds[i]), k);
      }
    }
    AllAtMost(ds, Pow(k));
  }

  lemma {:induction false} NoKeyNoCount(ds: seq<int>)
    requires Fold(ds).counts == map[]
    ensures Fold(ds).zeros == |ds|
  {
    CumReachesAll(ds, 0);
  }

  /** The histogram of the durations added so far. */
  class Histogram {
    var n: nat
    var sum: real
    var min: nat
    var max: nat
    var zeros: nat
    var counts: map<nat, nat>
    ghost var added: seq<int>

    function Value(): Hist
      reads this
    {
      Hist(n, sum, min, max, zeros, counts)
    }

    ghost predicate Valid()
      reads this
    {
      Value() == Fold(added)
    }

    constructor ()
      ensures Valid() && added == []
    {
      n, sum, min, max, zeros, counts := 0, 0.0, 0, 0, 0, map[];
      added := [];
    }

    /** add. */
    method Add(d0: int)
      requires Valid()
      modifies this
      ensures Valid() && added == old(added) + [d0]
    {
      hide Fold, IsKey, Key;
      ghost var next := With(Value(), d0);
      var d := if d0 < 0 then 0 else d0;
      if n == 0 || d < min {
        min := d;
      }
      if n == 0 || d > max {
        max := d;
      }
      assert min == next.min && max == next.max;
      n := n + 1;
      sum := sum + d as real;
      if d == 0 {
        zeros := zeros + 1;
      } else {
        var k := Key(d);
        counts := counts[k := (if k in counts then counts[k] else 0) + 1];
      }
      assert Value() == next;
      FoldOfOneMore(added, d0);
      added := added + [d0];
    }

    /** percentile, over the keys in ascending order. */
    method Estimate(keys: seq<nat>, p: real) returns (r: int)
      requires Valid() && n > 0 && Ascending(keys) && forall k :: k in keys <==> k in counts
      ensures exists v :: Walked(Value(), Rank(p, n), v) && r == Clamped(Value(), v)
    {
      assert 0 < Rank(p, n) <= n;
      hide Fold, Cum, Pow, Rank;
      var rank := Rank(p, n);
      var v := 0.0;
      var cum := zeros;
      ghost var h := Value();
      var i := 0;
      while i < |keys| && cum < rank
        invariant i <= |keys| && 0 < rank <= n
        invariant i == 0 ==> cum == zeros && v == 0.0
        invariant i > 0 ==> cum == Cum(h, keys[i - 1]) && v == Middle(keys[i - 1]) && zeros < rank
        invariant i > 0 && cum >= rank ==> Lands(h, rank, keys[i - 1])
      {
        var k := keys[i];
        assert k in keys;
        KeysBefore(h, keys, i, cum);
        cum := cum + counts[k];
        v := 2.0 * Pow(k) / (GAMMA + 1.0);
        i := i + 1;
      }
      FoldOfNone(added);
      if cum < rank {
        if i == 0 {
          assert counts == map[];
          NoKeyNoCount(added);
        } else {
          CumReachesAll(added, keys[i - 1]);
        }
      }
      assert Walked(h, rank, v);
      if v <= min as real {
        r := min;
      } else if v >= max as real {
        r := max;
      } else {
        r := v.Floor;
      }
      assert Walked(Value(), Rank(p, n), v) && r == Clamped(Value(), v);
    }

    /** latency. */
    method Summarize() returns (l: Latency)
      requires Valid()
      ensures added == [] ==> l == Latency(0, 0, 0, 0, 0, 0, 0)
      ensures added != [] ==>
                && n == |added| && l.mean == SumOf(Clipped(added)) / |added|
                && forall ds: seq<int> :: Sorted(ds) && multiset(ds) == multiset(added) ==>
                     && l.min == Clip(ds[0]) && l.max == Clip(ds[|ds| - 1])
                     && Close(ds, 50.0, l.median) && Close(ds, 90.0, l.p90)
                     && Close(ds, 95.0, l.p95) && Close(ds, 99.0, l.p99)
    {
      FoldOfNone(added);
      if n == 0 {
        return Latency(0, 0, 0, 0, 0, 0, 0);
      }
      var keys := [];
      var left := counts.Keys;
      while left != {}
        invariant Ascending(keys) && left <= counts.Keys
        invariant forall k :: k in keys <==> k in counts && k !in left
      {
        var k :| k in left;
        keys := Insert(keys, k);
        left := left - {k};
      }
      var median := Estimate(keys, 50.0);
      var p90 := Estimate(keys, 90.0);
      var p95 := Estimate(keys, 95.0);
      var p99 := Estimate(keys, 99.0);
      forall ds: seq<int> | Sorted(ds) && multiset(ds) == multiset(added)
        ensures |ds| == n && min == Clip(ds[0]) && max == Clip(ds[|ds| - 1])
        ensures Close(ds, 50.0, median) && Close(ds, 90.0, p90) && Close(ds, 95.0, p95) && Close(ds, 99.0, p99)
      {
        SummaryIsClose(ds, 50.0, median);
        SummaryIsClose(ds, 90.0, p90);
        SummaryIsClose(ds, 95.0, p95);
        SummaryIsClose(ds, 99.0, p99);
      }
      FoldSums(added);
      FloorDivides(SumOf(Clipped(added)), n);
      l := Latency(min, (sum / n as real).Floor, median, p90, p95, p99, max);
    }

    lemma SummaryIsClose(ds: seq<int>, p: real, r: int)
      requires Valid() && n > 0 && Sorted(ds) && multiset(ds) == multiset(added)
      requires exists v :: Walked(Value(), Rank(p, n), v) && r == Clamped(Value(), v)
      ensures |ds| == n && min == Clip(ds[0]) && max == Clip(ds[|ds| - 1]) && Close(ds, p, r)
    {
      FoldIgnoresOrder(ds, added);
      FoldOfNone(ds);
      MinMaxInOrder(ds);
      var v :| Walked(Value(), Rank(p, n), v) && r == Clamped(Value(), v);
      EstimateIsClose(ds, p, v);
    }
  }

  lemma FloorDivides(a: int, n: nat)
    requires n > 0
    ensures (a as real / n as real).Floor == a / n
  {
    var x := a as real / n as real;
    var q := a / n;
    assert q * n <= a < (q + 1) * n;
    assert x * n as real == a as real;
    assert q as real * n as real <= x * n as real < (q + 1) as real * n as real;
    Cancels(q as real, x, n as real);
    Cancels(x, (q + 1) as real, n as real);
  }

  lemma Cancels(x: real, y: real, n: real)
    requires n > 0.0
    ensures x * n <= y * n ==> x <= y
    ensures x * n < y * n ==> x < y
  {
    if x > y {
      assert (x - y) * n > 0.0;
    }
  }

  // Between two neighbouring keys nothing is counted.
  lemma KeysBefore(h: Hist, keys: seq<nat>, i: nat, cum: nat)
    requires i < |keys| && Ascending(keys) && forall k :: k in keys <==> k in h.counts
    requires i == 0 ==> cum == h.zeros
    requires i > 0 ==> cum == Cum(h, keys[i - 1])
    ensures (if keys[i] == 0 then h.zeros else Cum(h, keys[i] - 1)) == cum
    ensures Cum(h, keys[i]) == cum + h.counts[keys[i]]
  {
    var k := keys[i];
    forall x | x in keys && x < k
      ensures i > 0 && x <= keys[i - 1]
    {
      var a :| 0 <= a < |keys| && keys[a] == x;
    }
    if k > 0 {
      if i == 0 {
        GapFromZeros(h, k - 1);
      } else {
        GapKeepsCum(h, keys[i - 1], k - 1);
      }
    }
  }
}
