/** The time-bucketed report: slots that are sealed as the run goes on always
    report what a plain log of all outcomes would. */
module Buckets {
  import opened Finite
  import opened Histograms

  // latency is in nanoseconds; errKind names the error when success is false.
  datatype Outcome = Outcome(offset: int, latency: int, success: bool, errKind: string)

  datatype Bucket = Bucket(start: int, attempted: nat, succeeded: nat, failed: int, throughput: real,
                           latency: Latency, errors: map<string, nat>)

  datatype Slot = Slot(latencies: seq<int>, succeeded: nat, errs: map<string, nat>, inFlight: int,
                       closed: Closing)

  datatype Closing = Open | Sealed(bucket: Bucket)

  const BUCKET_COUNT := 10
  const NEW_SLOT := Slot([], 0, map[], 0, Open)

  // Go's division truncates toward zero.
  function Truncated(a: int, b: int): int
    requires b > 0
  {
    if a >= 0 then a / b else -((-a) / b)
  }

  function SortInsert(sorted: seq<int>, d: int): seq<int>
  {
    if sorted == [] || d <= sorted[0] then [d] + sorted else [sorted[0]] + SortInsert(sorted[1..], d)
  }

  function Sort(ds: seq<int>): seq<int>
  {
    if ds == [] then [] else SortInsert(Sort(ds[..|ds| - 1]), ds[|ds| - 1])
  }

  /** ComputeLatency: the exact distribution. */
  function ComputeLatency(ds: seq<int>): Latency
  {
    if ds == [] then Latency(0, 0, 0, 0, 0, 0, 0)
    else
      var s := Sort(ds);
      SortSorts(ds);
      Latency(s[0], Truncated(SumOf(s), |s|), Percentile(s, 50.0), Percentile(s, 90.0), Percentile(s, 95.0),
              Percentile(s, 99.0), s[|s| - 1])
  }

  lemma PrependKeepsSorted(x: int, rest: seq<int>)
    requires Sorted(rest) && forall y :: y in multiset(rest) ==> x <= y
    ensures Sorted([x] + rest)
  {
    assert forall i :: 0 <= i < |rest| ==> rest[i] in multiset(rest);
  }

  lemma FirstIsLeast(sorted: seq<int>)
    requires Sorted(sorted) && sorted != []
    ensures Sorted(sorted[1..]) && multiset(sorted) == multiset{sorted[0]} + multiset(sorted[1..])
    ensures forall y :: y in multiset(sorted[1..]) ==> sorted[0] <= y
  {
    forall y | y in multiset(sorted[1..])
      ensures sorted[0] <= y
    {
      var i :| 0 <= i < |sorted[1..]| && sorted[1..][i] == y;
    }
    assert sorted == [sorted[0]] + sorted[1..];
  }

  lemma PrependCounts(x: int, rest: seq<int>)
    ensures multiset([x] + rest) == multiset{x} + multiset(rest)
  {
  }

  lemma {:induction false} SortInserts(sorted: seq<int>, d: int)
    requires Sorted(sorted)
    ensures Sorted(SortInsert(sorted, d)) && multiset(SortInsert(sorted, d)) == multiset(sorted) + multiset{d}
  {
    if sorted == [] {
      assert SortInsert(sorted, d) == [d];
    } else {
      var x, tail := sorted[0], sorted[1..];
      var rest := if d > x then SortInsert(tail, d) else sorted;
      var first := if d > x then x else d;
      assert SortInsert(sorted, d) == [first] + rest;
      hide Sorted, SortInsert;
      FirstIsLeast(sorted);
      if d > x {
        SortInserts(tail, d);
      }
      PrependKeepsSorted(first, rest);
      PrependCounts(first, rest);
    }
  }

  lemma {:induction false} SortSorts(ds: seq<int>)
    ensures Sorted(Sort(ds)) && multiset(Sort(ds)) == multiset(ds) && |Sort(ds)| == |ds|
  {
    if ds != [] {
      var n := |ds| - 1;
      SortSorts(ds[..n]);
      SortInserts(Sort(ds[..n]), ds[n]);
      assert ds == ds[..n] + [ds[n]];
      assert |multiset(Sort(ds))| == |multiset(ds)|;
    }
  }

  // What a list of outcomes amounts to.
  function LatenciesOf(os: seq<Outcome>): (r: seq<int>)
    ensures |r| == |os|
  {
    if os == [] then [] else LatenciesOf(os[..|os| - 1]) + [os[|os| - 1].latency]
  }

  function SucceededOf(os: seq<Outcome>): nat
  {
    if os == [] then 0 else SucceededOf(os[..|os| - 1]) + if os[|os| - 1].success then 1 else 0
  }

  function ErrorsOf(os: seq<Outcome>): map<string, nat>
  {
    if os == [] then map[]
    else
      var o := os[|os| - 1];
      if o.success then ErrorsOf(os[..|os| - 1]) else Tallied(ErrorsOf(os[..|os| - 1]), o.errKind)
  }

  // The bucket of slot i over raw outcome data.
  function Compute(width: int, i: nat, latencies: seq<int>, succeeded: nat, errs: map<string, nat>): Bucket
    requires width > 0
  {
    Bucket(i * width, |latencies|, succeeded, |latencies| - succeeded, succeeded as real * 1000000000.0 / width as real,
           ComputeLatency(latencies), errs)
  }

  // The slot an offset falls in: an offset past the last of a fixed number of
  // slots lands in the last.
  function Index(width: int, count: nat, offset: int): nat
    requires width > 0
  {
    var i := Truncated(offset, width);
    if i < 0 then 0 else if count > 0 && i >= count then count - 1 else i
  }

  // The outcomes of the operations decided in slot i, in the order they came.
  function Within(width: int, count: nat, log: seq<Outcome>, i: nat): seq<Outcome>
    requires width > 0
  {
    if log == [] then []
    else
      var o := log[|log| - 1];
      Within(width, count, log[..|log| - 1], i) + if Index(width, count, o.offset) == i then [o] else []
  }

  // The bucket a plain log of all outcomes gives slot i.
  function Plain(width: int, count: nat, log: seq<Outcome>, i: nat): Bucket
    requires width > 0
  {
    var os := Within(width, count, log, i);
    Compute(width, i, LatenciesOf(os), SucceededOf(os), ErrorsOf(os))
  }

  // The sum of a tally.
  ghost function Total(m: map<string, nat>): nat
  {
    if m == map[] then 0
    else
      var k :| k in m;
      m[k] + Total(m - {k})
  }

  lemma {:induction false} TotalOf(m: map<string, nat>, k: string)
    requires k in m
    ensures Total(m) == m[k] + Total(m - {k})
    decreases |m|
  {
    var x :| x in m && Total(m) == m[x] + Total(m - {x});
    if x != k {
      TotalOf(m - {x}, k);
      TotalOf(m - {k}, x);
      assert m - {x} - {k} == m - {k} - {x};
    }
  }

  lemma TotalOfTally(m: map<string, nat>, k: string)
    ensures Total(Tallied(m, k)) == Total(m) + 1
  {
    var t := Tallied(m, k);
    TotalOf(t, k);
    if k in m {
      TotalOf(m, k);
    }
    assert t - {k} == m - {k};
    assert k !in m ==> m - {k} == m;
  }

  /** The error counts of a bucket add up to its failures. */
  lemma {:induction false} ErrorsAddUp(os: seq<Outcome>)
    ensures Total(ErrorsOf(os)) == |os| - SucceededOf(os)
  {
    if os != [] {
      var n := |os| - 1;
      ErrorsAddUp(os[..n]);
      if !os[n].success {
        TotalOfTally(ErrorsOf(os[..n]), os[n].errKind);
      }
    }
  }

  /** Whether an offset falls in slot i: the first slot reaches down without bound,
      and the last of a fixed number of slots up. */
  predicate InSlot(width: int, count: nat, i: nat, offset: int)
  {
    && (i == 0 || i * width <= offset)
    && ((count > 0 && i == count - 1) || offset < (i + 1) * width)
  }

  /** What the latencies ds, in ascending order, amount to. */
  ghost predicate Distributes(l: Latency, ds: seq<int>)
  {
    if ds == [] then l == Latency(0, 0, 0, 0, 0, 0, 0)
    else
      && l.min == ds[0] && l.max == ds[|ds| - 1] && Averages(l.mean, SumOf(ds), |ds|)
      && NearestRank(ds, 50.0, l.median) && NearestRank(ds, 90.0, l.p90)
      && NearestRank(ds, 95.0, l.p95) && NearestRank(ds, 99.0, l.p99)
  }

  // m is sum over n, truncated toward zero.
  predicate Averages(m: int, sum: int, n: nat)
  {
    if sum >= 0 then m * n <= sum < (m + 1) * n else (m - 1) * n < sum <= m * n
  }

  /** b is the bucket of slot i of a run with these outcomes. */
  ghost predicate Tells(b: Bucket, width: int, count: nat, log: seq<Outcome>, i: nat)
  {
    && b.start == i * width
    && b.attempted == Count(log, (o: Outcome) => InSlot(width, count, i, o.offset))
    && b.succeeded == Count(log, (o: Outcome) => InSlot(width, count, i, o.offset) && o.success)
    && b.failed == Count(log, (o: Outcome) => InSlot(width, count, i, o.offset) && !o.success)
    && b.failed == b.attempted - b.succeeded == Total(b.errors)
    && b.throughput * width as real == b.succeeded as real * 1000000000.0
    && (forall k ::
          var n := Count(log, (o: Outcome) => InSlot(width, count, i, o.offset) && !o.success && o.errKind == k);
          (k in b.errors <==> n > 0) && (k in b.errors ==> b.errors[k] == n))
    && (forall ds ::
          Sorted(ds) && (forall v :: multiset(ds)[v] ==
                           Count(log, (o: Outcome) => InSlot(width, count, i, o.offset) && o.latency == v)) ==>
            Distributes(b.latency, ds))
  }

  lemma {:induction false} WithinCounts(width: int, count: nat, log: seq<Outcome>, i: nat, p: Outcome -> bool)
    requires width > 0
    ensures Count(Within(width, count, log, i), p) ==
            Count(log, (o: Outcome) => Index(width, count, o.offset) == i && p(o))
  {
    if log != [] {
      var n := |log| - 1;
      hide Index;
      WithinCounts(width, count, log[..n], i, p);
      var before := Within(width, count, log[..n], i);
      if Index(width, count, log[n].offset) == i {
        CountOfOneMore(before, log[n], p);
      } else {
        assert before + [] == before;
      }
    }
  }

  lemma IndexIsInSlot(width: int, count: nat, i: nat, offset: int)
    requires width > 0 && (count > 0 ==> i < count)
    ensures Index(width, count, offset) == i <==> InSlot(width, count, i, offset)
  {
    var q := Truncated(offset, width);
    if offset >= 0 {
      assert q * width <= offset < (q + 1) * width;
      hide Truncated;
      if q < i {
        Product(q + 1, i, width);
      } else if q > i {
        Product(i + 1, q, width);
      }
    } else {
      assert q <= 0;
      hide Truncated;
      Product(0, i, width);
      Product(1, i + 1, width);
    }
  }

  lemma Product(a: int, b: int, w: int)
    requires a <= b && w > 0
    ensures a * w <= b * w
  {
    assert (b - a) * w >= 0;
  }

  // The outcomes of slot i that p holds of.
  lemma SlotCounts(width: int, count: nat, log: seq<Outcome>, i: nat, p: Outcome -> bool)
    requires width > 0 && (count > 0 ==> i < count)
    ensures Count(Within(width, count, log, i), p) ==
            Count(log, (o: Outcome) => InSlot(width, count, i, o.offset) && p(o))
  {
    hide InSlot, Index, Count;
    WithinCounts(width, count, log, i, p);
    forall o: Outcome | o in log
      ensures Index(width, count, o.offset) == i <==> InSlot(width, count, i, o.offset)
    {
      IndexIsInSlot(width, count, i, o.offset);
    }
    CountsAgree(log, (o: Outcome) => Index(width, count, o.offset) == i && p(o),
                (o: Outcome) => InSlot(width, count, i, o.offset) && p(o));
  }

  lemma {:induction false} PartsCount(os: seq<Outcome>)
    ensures SucceededOf(os) == Count(os, (o: Outcome) => o.success)
    ensures |os| - SucceededOf(os) == Count(os, (o: Outcome) => !o.success)
    ensures |os| == Count(os, (o: Outcome) => true)
  {
    if os != [] {
      PartsCount(os[..|os| - 1]);
    }
  }

  lemma {:induction false} ErrorsCount(os: seq<Outcome>, k: string)
    ensures var n := Count(os, (o: Outcome) => !o.success && o.errKind == k);
            (k in ErrorsOf(os) <==> n > 0) && (k in ErrorsOf(os) ==> ErrorsOf(os)[k] == n)
  {
    if os != [] {
      ErrorsCount(os[..|os| - 1], k);
    }
  }

  lemma {:induction false} LatenciesCount(os: seq<Outcome>, v: int)
    ensures multiset(LatenciesOf(os))[v] == Count(os, (o: Outcome) => o.latency == v)
  {
    if os != [] {
      LatenciesCount(os[..|os| - 1], v);
    }
  }

  lemma TruncatedAverages(sum: int, n: nat)
    requires n > 0
    ensures Averages(Truncated(sum, n), sum, n)
  {
    var a := if sum >= 0 then sum else -sum;
    assert (a / n) * n <= a < (a / n + 1) * n;
  }

  lemma ComputedDistributes(latencies: seq<int>, ds: seq<int>)
    requires Sorted(ds) && multiset(ds) == multiset(latencies)
    ensures Distributes(ComputeLatency(latencies), ds)
  {
    hide Rank, Percentile, NearestRank, Truncated, Averages, SumOf, Sort;
    SortSorts(latencies);
    SortedIsUnique(ds, Sort(latencies));
    assert |ds| == |multiset(ds)| && |latencies| == |multiset(latencies)|;
    if ds != [] {
      TruncatedAverages(SumOf(ds), |ds|);
      PercentileIsNearest(ds, 50.0);
      PercentileIsNearest(ds, 90.0);
      PercentileIsNearest(ds, 95.0);
      PercentileIsNearest(ds, 99.0);
    }
  }

  lemma LessOneEach(a: multiset<int>, b: multiset<int>, x: int)
    requires multiset{x} + a == multiset{x} + b
    ensures a == b
  {
    assert a == multiset{x} + a - multiset{x};
    assert b == multiset{x} + b - multiset{x};
  }

  // Two ascending arrangements of the same durations are equal.
  lemma {:induction false} SortedIsUnique(a: seq<int>, b: seq<int>)
    requires Sorted(a) && Sorted(b) && multiset(a) == multiset(b)
    ensures a == b
  {
    hide Sorted;
    assert |multiset(a)| == |a| && |multiset(b)| == |b|;
    if a != [] {
      FirstIsLeast(a);
      FirstIsLeast(b);
      assert a[0] in multiset(b) && b[0] in multiset(a);
      LessOneEach(multiset(a[1..]), multiset(b[1..]), a[0]);
      SortedIsUnique(a[1..], b[1..]);
      assert a == [a[0]] + a[1..] && b == [b[0]] + b[1..];
    }
  }

  // The counts of a plain bucket.
  lemma PlainCounts(width: int, count: nat, log: seq<Outcome>, i: nat)
    requires width > 0 && (count > 0 ==> i < count)
    ensures var b := Plain(width, count, log, i);
            && b.attempted == Count(log, (o: Outcome) => InSlot(width, count, i, o.offset))
            && b.succeeded == Count(log, (o: Outcome) => InSlot(width, count, i, o.offset) && o.success)
            && b.failed == Count(log, (o: Outcome) => InSlot(width, count, i, o.offset) && !o.success)
  {
    hide Within, InSlot, ComputeLatency, Count;
    var os := Within(width, count, log, i);
    PartsCount(os);
    SlotCounts(width, count, log, i, (o: Outcome) => o.success);
    SlotCounts(width, count, log, i, (o: Outcome) => !o.success);
    SlotCounts(width, count, log, i, (o: Outcome) => true);
    SameCounts(log, (o: Outcome) => InSlot(width, count, i, o.offset) && o.success,
               (o: Outcome) => InSlot(width, count, i, o.offset) && ((o: Outcome) => o.success)(o));
    SameCounts(log, (o: Outcome) => InSlot(width, count, i, o.offset) && !o.success,
               (o: Outcome) => InSlot(width, count, i, o.offset) && ((o: Outcome) => !o.success)(o));
    SameCounts(log, (o: Outcome) => InSlot(width, count, i, o.offset),
               (o: Outcome) => InSlot(width, count, i, o.offset) && ((o: Outcome) => true)(o));
  }

  lemma SameCounts(log: seq<Outcome>, p: Outcome -> bool, q: Outcome -> bool)
    requires forall o :: p(o) == q(o)
    ensures Count(log, p) == Count(log, q)
  {
    CountsAgree(log, p, q);
  }

  // Its errors of one kind.
  lemma PlainErrors(width: int, count: nat, log: seq<Outcome>, i: nat, k: string)
    requires width > 0 && (count > 0 ==> i < count)
    ensures var errs := Plain(width, count, log, i).errors;
            var n := Count(log, (o: Outcome) => InSlot(width, count, i, o.offset) && !o.success && o.errKind == k);
            (k in errs <==> n > 0) && (k in errs ==> errs[k] == n)
  {
    hide Within, InSlot, ComputeLatency, Count, ErrorsOf;
    var p := (o: Outcome) => !o.success && o.errKind == k;
    ErrorsCount(Within(width, count, log, i), k);
    SlotCounts(width, count, log, i, p);
    SameCounts(log, (o: Outcome) => InSlot(width, count, i, o.offset) && !o.success && o.errKind == k,
               (o: Outcome) => InSlot(width, count, i, o.offset) && p(o));
    SameCounts(Within(width, count, log, i), (o: Outcome) => !o.success && o.errKind == k, p);
  }

  // Its latencies.
  lemma PlainLatency(width: int, count: nat, log: seq<Outcome>, i: nat, ds: seq<int>)
    requires width > 0 && (count > 0 ==> i < count) && Sorted(ds)
    requires forall v :: multiset(ds)[v] ==
                           Count(log, (o: Outcome) => InSlot(width, count, i, o.offset) && o.latency == v)
    ensures Distributes(Plain(width, count, log, i).latency, ds)
  {
    hide Within, InSlot, ComputeLatency, Count, LatenciesOf, Distributes, Sorted;
    var os := Within(width, count, log, i);
    forall v
      ensures multiset(ds)[v] == multiset(LatenciesOf(os))[v]
    {
      var p := (o: Outcome) => o.latency == v;
      LatenciesCount(os, v);
      SlotCounts(width, count, log, i, p);
      SameCounts(log, (o: Outcome) => InSlot(width, count, i, o.offset) && o.latency == v,
                 (o: Outcome) => InSlot(width, count, i, o.offset) && p(o));
      SameCounts(os, (o: Outcome) => o.latency == v, p);
    }
    assert multiset(ds) == multiset(LatenciesOf(os));
    ComputedDistributes(LatenciesOf(os), ds);
  }

  lemma Quotient(a: real, b: real)
    requires b != 0.0
    ensures a / b * b == a
  {
  }

  /** The plain bucket of a slot is what its outcomes amount to. */
  lemma PlainTells(width: int, count: nat, log: seq<Outcome>, i: nat)
    requires width > 0 && (count > 0 ==> i < count)
    ensures Tells(Plain(width, count, log, i), width, count, log, i)
  {
    hide Within, InSlot, ComputeLatency, Count, ErrorsOf, LatenciesOf, SucceededOf, Distributes, Sorted, Total;
    var os := Within(width, count, log, i);
    PlainCounts(width, count, log, i);
    ErrorsAddUp(os);
    Quotient(SucceededOf(os) as real * 1000000000.0, width as real);
    forall k
      ensures var errs := Plain(width, count, log, i).errors;
              var n := Count(log, (o: Outcome) => InSlot(width, count, i, o.offset) && !o.success && o.errKind == k);
              (k in errs <==> n > 0) && (k in errs ==> errs[k] == n)
    {
      PlainErrors(width, count, log, i, k);
    }
    forall ds
         | Sorted(ds)
           && (forall v :: multiset(ds)[v] ==
                 Count(log, (o: Outcome) => InSlot(width, count, i, o.offset) && o.latency == v))
      ensures Distributes(Plain(width, count, log, i).latency, ds)
    {
      PlainLatency(width, count, log, i, ds);
    }
  }

  // The operations decided in slot i that are in flight.
  ghost function Flying(width: int, limit: nat, running: map<nat, int>, i: nat): set<nat>
    requires width > 0
  {
    set id | id in running && Index(width, limit, running[id]) == i
  }

  // Slot i agrees with the log: an open one holds its raw outcomes, a sealed one
  // its bucket, and no operation of a sealed one is in flight.
  ghost predicate Agrees(s: Slot, i: nat, width: int, limit: nat, log: seq<Outcome>, running: map<nat, int>, cur: nat)
    requires width > 0
  {
    && s.inFlight == |Flying(width, limit, running, i)|
    && match s.closed
       case Sealed(b) =>
         s.inFlight == 0 && i < cur && b == Plain(width, limit, log, i) && s.latencies == [] && s.errs == map[]
       case Open =>
         var os := Within(width, limit, log, i);
         s.latencies == LatenciesOf(os) && s.succeeded == SucceededOf(os) && s.errs == ErrorsOf(os)
  }

  lemma OneMoreOutcome(width: int, limit: nat, log: seq<Outcome>, o: Outcome, i: nat)
    requires width > 0
    ensures Within(width, limit, log + [o], i) ==
            Within(width, limit, log, i) + if Index(width, limit, o.offset) == i then [o] else []
  {
    assert (log + [o])[..|log|] == log;
  }

  // A slot after one more outcome.
  function Took(s: Slot, o: Outcome): Slot
  {
    s.(latencies := s.latencies + [o.latency],
       succeeded := s.succeeded + if o.success then 1 else 0,
       errs := if o.success then s.errs else Tallied(s.errs, o.errKind))
  }

  lemma OneMoreOf(os: seq<Outcome>, o: Outcome)
    ensures LatenciesOf(os + [o]) == LatenciesOf(os) + [o.latency]
    ensures SucceededOf(os + [o]) == SucceededOf(os) + if o.success then 1 else 0
    ensures ErrorsOf(os + [o]) == if o.success then ErrorsOf(os) else Tallied(ErrorsOf(os), o.errKind)
  {
    assert (os + [o])[..|os|] == os;
  }

  lemma TakeAgrees(s: Slot, i: nat, width: int, limit: nat, log: seq<Outcome>, running: map<nat, int>, cur: nat,
                   o: Outcome)
    requires width > 0 && Agrees(s, i, width, limit, log, running, cur)
    requires Index(width, limit, o.offset) == i ==> s.closed.Open?
    ensures Agrees(if Index(width, limit, o.offset) == i then Took(s, o) else s,
                   i, width, limit, log + [o], running, cur)
  {
    hide LatenciesOf, SucceededOf, ErrorsOf, Tallied, Within, Index, Flying, Compute;
    OneMoreOutcome(width, limit, log, o, i);
    var os := Within(width, limit, log, i);
    OneMoreOf(os, o);
    assert os + [] == os;
  }

  lemma LaunchAgrees(s: Slot, i: nat, width: int, limit: nat, log: seq<Outcome>, running: map<nat, int>, cur: nat,
                     id: nat, offset: int)
    requires width > 0 && Agrees(s, i, width, limit, log, running, cur) && id !in running
    requires Index(width, limit, offset) == i ==> s.closed.Open?
    ensures Agrees(if Index(width, limit, offset) == i then s.(inFlight := s.inFlight + 1) else s,
                   i, width, limit, log, running[id := offset], cur)
  {
    var a, b := Flying(width, limit, running, i), Flying(width, limit, running[id := offset], i);
    assert b == if Index(width, limit, offset) == i then a + {id} else a;
  }

  lemma LandAgrees(s: Slot, i: nat, width: int, limit: nat, log: seq<Outcome>, running: map<nat, int>, cur: nat,
                   id: nat)
    requires width > 0 && Agrees(s, i, width, limit, log, running, cur) && id in running
    ensures Index(width, limit, running[id]) == i ==> s.inFlight > 0 && s.closed.Open?
    ensures Agrees(if Index(width, limit, running[id]) == i then s.(inFlight := s.inFlight - 1) else s,
                   i, width, limit, log, running - {id}, cur)
  {
    var a, b := Flying(width, limit, running, i), Flying(width, limit, running - {id}, i);
    assert b == a - {id};
    assert Index(width, limit, running[id]) == i ==> id in a;
  }

  lemma NoneFlying(width: int, limit: nat, running: map<nat, int>, n: nat)
    requires width > 0 && forall id :: id in running ==> Index(width, limit, running[id]) < n
    requires forall k :: 0 <= k < n ==> Flying(width, limit, running, k) == {}
    ensures running == map[]
  {
    forall id | id in running
      ensures id in Flying(width, limit, running, Index(width, limit, running[id]))
    {
    }
  }

  lemma IndexIsClamped(width: int, limit: nat, offset: int)
    requires width > 0
    ensures limit > 0 ==> Index(width, limit, offset) < limit
  {
  }

  // A slot no offset has reached yet.
  lemma {:induction false} NothingWithin(width: int, limit: nat, log: seq<Outcome>, i: nat)
    requires width > 0 && forall k :: 0 <= k < |log| ==> Index(width, limit, log[k].offset) < i
    ensures Within(width, limit, log, i) == []
  {
    if log != [] {
      NothingWithin(width, limit, log[..|log| - 1], i);
    }
  }

  // A new slot, which no outcome and no operation in flight belongs to yet.
  lemma FreshAgrees(i: nat, width: int, limit: nat, log: seq<Outcome>, running: map<nat, int>, cur: nat)
    requires width > 0
    requires forall k :: 0 <= k < |log| ==> Index(width, limit, log[k].offset) < i
    requires forall id :: id in running ==> Index(width, limit, running[id]) < i
    ensures Agrees(NEW_SLOT, i, width, limit, log, running, cur)
  {
    NothingWithin(width, limit, log, i);
    assert Flying(width, limit, running, i) == {};
  }

  // Sealing an idle slot behind the scheduler.
  lemma SealAgrees(s: Slot, i: nat, width: int, limit: nat, log: seq<Outcome>, running: map<nat, int>, cur: nat)
    requires width > 0 && Agrees(s, i, width, limit, log, running, cur) && s.closed.Open? && s.inFlight == 0 && i < cur
    ensures Agrees(s.(latencies := [], errs := map[],
                      closed := Sealed(Compute(width, i, s.latencies, s.succeeded, s.errs))),
                   i, width, limit, log, running, cur)
  {
  }

  // The scheduler moving on keeps what a slot says.
  lemma LaterAgrees(s: Slot, i: nat, width: int, limit: nat, log: seq<Outcome>, running: map<nat, int>, cur: nat,
                    later: nat)
    requires width > 0 && Agrees(s, i, width, limit, log, running, cur) && cur <= later
    ensures Agrees(s, i, width, limit, log, running, later)
  {
  }

  /** The outcomes of a run so far, one slot per time bucket. log and running are
      history: every outcome added, and the decision offsets of the operations in
      flight. cur is the slot of the last offset the scheduler reached. */
  class Results {
    const width: int
    const fixed: bool
    var slots: seq<Slot>
    var open: nat
    var cycles: nat
    ghost var log: seq<Outcome>
    ghost var running: map<nat, int>
    ghost var cur: nat

    // The number of slots an offset is clamped to, 0 for no clamping.
    function Limit(): nat
      reads this
    {
      if fixed then |slots| else 0
    }

    ghost predicate Valid()
      reads this
    {
      && Consistent() && open <= cur && open <= |slots| && (cur < |slots| || slots == [])
      && forall i :: 0 <= i < open ==> slots[i].closed.Sealed?
    }

    ghost predicate Consistent()
      reads this
    {
      && width > 0 && (fixed ==> |slots| == BUCKET_COUNT)
      && (forall i :: 0 <= i < |slots| ==> Agrees(slots[i], i, width, Limit(), log, running, cur))
      && (forall id :: id in running ==> Index(width, Limit(), running[id]) < |slots|)
      && (forall k :: 0 <= k < |log| ==> Index(width, Limit(), log[k].offset) < |slots|)
    }

    /** newResults: a fixed number of slots for a bounded run, none for an
        unbounded one. */
    constructor (unbounded: bool, bucketWidth: int, duration: int)
      requires if unbounded then bucketWidth > 0 else duration > 0
      ensures Valid() && log == [] && running == map[] && cur == 0 && cycles == 0
      ensures fixed == !unbounded && width == (if unbounded then bucketWidth
                                               else if duration < BUCKET_COUNT then 1 else duration / BUCKET_COUNT)
      ensures |slots| == if unbounded then 0 else BUCKET_COUNT
    {
      var w := if unbounded then bucketWidth else duration / BUCKET_COUNT;
      width := if w <= 0 then 1 else w;
      fixed := !unbounded;
      slots := if unbounded then [] else seq(BUCKET_COUNT, _ => NEW_SLOT);
      open, cycles := 0, 0;
      log, running, cur := [], map[], 0;
      new;
      forall i | 0 <= i < |slots|
        ensures Agrees(slots[i], i, width, Limit(), log, running, cur)
      {
        FreshAgrees(i, width, Limit(), log, running, cur);
      }
    }

    /** bucket: a sealed slot's stored bucket, or one computed on the spot. */
    function BucketAt(i: nat): (b: Bucket)
      requires Valid() && i < |slots|
      reads this
      ensures b == Plain(width, Limit(), log, i) && Tells(b, width, Limit(), log, i)
    {
      PlainTells(width, Limit(), log, i);
      var s := slots[i];
      assert Agrees(s, i, width, Limit(), log, running, cur);
      match s.closed
      case Sealed(b) => b
      case Open => Compute(width, i, s.latencies, s.succeeded, s.errs)
    }

    // Appends the slots up to c.
    method Extend(c: nat)
      requires Consistent() && (fixed ==> c < |slots|) && |slots| <= c
      modifies this`slots
      ensures Consistent() && |slots| == c + 1 && forall i :: 0 <= i < old(|slots|) ==> slots[i] == old(slots)[i]
      ensures forall i :: old(|slots|) <= i <= c ==> slots[i] == NEW_SLOT
    {
      while |slots| <= c
        invariant Consistent() && !fixed && |slots| <= c + 1
        invariant old(|slots|) <= |slots| && forall i :: 0 <= i < old(|slots|) ==> slots[i] == old(slots)[i]
        invariant forall i :: old(|slots|) <= i < |slots| ==> slots[i] == NEW_SLOT
      {
        FreshAgrees(|slots|, width, Limit(), log, running, cur);
        slots := slots + [NEW_SLOT];
      }
    }

    // Seals the idle slots from lo up to c.
    method SealIdle(lo: nat, c: nat)
      requires Consistent() && c == cur < |slots| && lo <= c
      modifies this`slots
      ensures Consistent() && |slots| == old(|slots|)
      ensures forall i :: 0 <= i < |slots| && (i < lo || old(slots)[i].closed.Sealed?) ==> slots[i] == old(slots)[i]
      ensures forall i :: lo <= i < c && Flying(width, Limit(), running, i) == {} ==> slots[i].closed.Sealed?
      ensures forall i :: 0 <= i < |slots| && slots[i].closed.Sealed? ==>
                slots[i].latencies == [] && slots[i].errs == map[]
    {
      hide Index, Compute, Plain, Within, LatenciesOf, SucceededOf, ErrorsOf, Flying;
      for i := lo to c
        invariant Consistent() && |slots| == old(|slots|)
        invariant forall k :: 0 <= k < |slots| && (k < lo || i <= k || old(slots)[k].closed.Sealed?) ==>
                    slots[k] == old(slots)[k]
        invariant forall k :: lo <= k < i && Flying(width, Limit(), running, k) == {} ==> slots[k].closed.Sealed?
      {
        var s := slots[i];
        assert Agrees(s, i, width, Limit(), log, running, cur);
        if s.closed.Open? && s.inFlight == 0 {
          SealAgrees(s, i, width, Limit(), log, running, cur);
          slots := slots[i := s.(latencies := [], errs := map[],
                                 closed := Sealed(Compute(width, i, s.latencies, s.succeeded, s.errs)))];
        }
      }
      assert forall i :: 0 <= i < |slots| ==> Agrees(slots[i], i, width, Limit(), log, running, cur);
    }

    /** advance. Every slot the scheduler has left behind with nothing in flight is
        sealed and its raw data released, and open is the lowest one not sealed. */
    method Advance(offset: int)
      requires Valid() && Index(width, Limit(), offset) >= cur
      modifies this
      ensures Valid() && log == old(log) && running == old(running) && cycles == old(cycles)
      ensures cur == Index(width, old(Limit()), offset)
      ensures |slots| == if old(|slots|) <= cur then cur + 1 else old(|slots|)
      ensures forall i :: 0 <= i < cur && Flying(width, Limit(), running, i) == {} ==>
                slots[i].closed.Sealed? && slots[i].latencies == [] && slots[i].errs == map[]
      ensures forall i :: 0 <= i < old(|slots|) && old(slots)[i].closed.Sealed? ==> slots[i] == old(slots)[i]
      ensures open < cur ==> slots[open].closed.Open?
    {
      hide Agrees, Index, Flying;
      var c := Index(width, Limit(), offset);
      assert fixed ==> c < |slots| by { IndexIsClamped(width, Limit(), offset); }
      forall i | 0 <= i < |slots|
        ensures Agrees(slots[i], i, width, Limit(), log, running, c)
      {
        LaterAgrees(slots[i], i, width, Limit(), log, running, cur, c);
      }
      assert forall i :: 0 <= i < open ==> slots[i].closed.Sealed?;
      cur := c;
      if |slots| <= c {
        Extend(c);
      }
      assert forall i :: 0 <= i < open ==> slots[i].closed.Sealed?;
      ghost var before := slots;
      SealIdle(open, c);
      assert forall i :: 0 <= i < open ==> slots[i] == before[i];
      while open < c && slots[open].closed.Sealed?
        modifies `open
        invariant open <= c < |slots|
        invariant forall i :: 0 <= i < open ==> slots[i].closed.Sealed?
      {
        open := open + 1;
      }
      assert forall i :: 0 <= i < |slots| ==> Agrees(slots[i], i, width, Limit(), log, running, cur);
    }

    /** begin, for an operation decided at the scheduler's current offset. */
    method Begin(ghost id: nat, offset: int)
      requires Valid() && slots != [] && Index(width, Limit(), offset) == cur && id !in running
      modifies this
      ensures Valid() && log == old(log) && running == old(running)[id := offset] && cycles == old(cycles)
      ensures |slots| == old(|slots|) && cur == old(cur) && open == old(open)
    {
      assert slots[cur].closed.Open? by { assert Agrees(slots[cur], cur, width, Limit(), log, running, cur); }
      hide Index, Compute, Plain, Within, LatenciesOf, SucceededOf, ErrorsOf, Flying, Agrees;
      var n := Index(width, Limit(), offset);
      forall i | 0 <= i < |slots|
        ensures Agrees(if i == n then slots[i].(inFlight := slots[i].inFlight + 1) else slots[i],
                       i, width, Limit(), log, running[id := offset], cur)
      {
        LaunchAgrees(slots[i], i, width, Limit(), log, running, cur, id, offset);
      }
      slots := slots[n := slots[n].(inFlight := slots[n].inFlight + 1)];
      running := running[id := offset];
    }

    /** end. */
    method End(ghost id: nat, offset: int)
      requires Valid() && id in running && running[id] == offset
      modifies this
      ensures Valid() && log == old(log) && running == old(running) - {id} && cycles == old(cycles)
      ensures |slots| == old(|slots|) && cur == old(cur) && open == old(open)
    {
      hide Index, Compute, Plain, Within, LatenciesOf, SucceededOf, ErrorsOf, Flying, Agrees;
      var n := Index(width, Limit(), offset);
      forall i | 0 <= i < |slots|
        ensures Agrees(if i == n then slots[i].(inFlight := slots[i].inFlight - 1) else slots[i],
                       i, width, Limit(), log, running - {id}, cur)
      {
        LandAgrees(slots[i], i, width, Limit(), log, running, cur, id);
      }
      slots := slots[n := slots[n].(inFlight := slots[n].inFlight - 1)];
      running := running - {id};
    }

    /** add, for an operation in flight. Its slot is not sealed. */
    method Add(ghost id: nat, o: Outcome)
      requires Valid() && id in running && running[id] == o.offset
      modifies this
      ensures Valid() && log == old(log) + [o] && running == old(running) && cycles == old(cycles)
      ensures |slots| == old(|slots|) && cur == old(cur) && open == old(open)
      ensures !old(slots)[Index(width, old(Limit()), o.offset)].closed.Sealed?
    {
      hide Index, Compute, Plain, Within, LatenciesOf, SucceededOf, ErrorsOf, Flying;
      var n := Index(width, Limit(), o.offset);
      LandAgrees(slots[n], n, width, Limit(), log, running, cur, id);
      forall i | 0 <= i < |slots|
        ensures Agrees(if i == n then Took(slots[i], o) else slots[i], i, width, Limit(), log + [o], running, cur)
      {
        TakeAgrees(slots[i], i, width, Limit(), log, running, cur, o);
      }
      var s := slots[n];
      s := s.(latencies := s.latencies + [o.latency]);
      if o.success {
        s := s.(succeeded := s.succeeded + 1);
      } else {
        s := s.(errs := s.errs[o.errKind := (if o.errKind in s.errs then s.errs[o.errKind] else 0) + 1]);
      }
      assert s == Took(slots[n], o);
      slots := slots[n := s];
      log := log + [o];
    }

    /** cycle. */
    method Cycle()
      requires Valid()
      modifies this`cycles
      ensures Valid() && cycles == old(cycles) + 1
    {
      cycles := cycles + 1;
      assert forall i :: 0 <= i < |slots| ==> Agrees(slots[i], i, width, Limit(), log, running, cur);
    }

    /** inFlight: only the slots from open on are looked at. */
    method InFlight() returns (b: bool)
      requires Valid()
      ensures b <==> running != map[]
    {
      hide Index, Compute, Plain, Within, LatenciesOf, SucceededOf, ErrorsOf;
      b := false;
      var i := open;
      while i < |slots| && !b
        invariant open <= i <= |slots|
        invariant b ==> running != map[]
        invariant !b ==> forall k :: open <= k < i ==> slots[k].inFlight <= 0
      {
        assert Agrees(slots[i], i, width, Limit(), log, running, cur);
        if slots[i].inFlight > 0 {
          assert Flying(width, Limit(), running, i) != {};
          b := true;
        }
        i := i + 1;
      }
      if !b {
        forall k | 0 <= k < |slots|
          ensures Flying(width, Limit(), running, k) == {}
        {
          assert Agrees(slots[k], k, width, Limit(), log, running, cur);
        }
        NoneFlying(width, Limit(), running, |slots|);
      }
    }

    /** buckets: what a plain log of every outcome so far gives, slot by slot. */
    method Report() returns (out: seq<Bucket>)
      requires Valid()
      ensures |out| == |slots| && forall i :: 0 <= i < |out| ==> out[i] == Plain(width, Limit(), log, i)
      ensures forall i :: 0 <= i < |out| ==> Tells(out[i], width, Limit(), log, i)
    {
      hide Index, Compute, Plain, Agrees, Tells;
      out := [];
      for i := 0 to |slots|
        invariant |out| == i && forall k :: 0 <= k < i ==> out[k] == Plain(width, Limit(), log, k)
        invariant forall k :: 0 <= k < i ==> Tells(out[k], width, Limit(), log, k)
      {
        out := out + [BucketAt(i)];
      }
    }
  }
}
