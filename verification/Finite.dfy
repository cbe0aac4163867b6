/** What the other modules share about finite collections. */
module Finite {
  // One more of k.
  function Tallied(m: map<string, nat>, k: string): map<string, nat>
  {
    m[k := (if k in m then m[k] else 0) + 1]
  }

  predicate NoRepeats(xs: seq<nat>) { forall a, b :: 0 <= a < b < |xs| ==> xs[a] != xs[b] }

  lemma SubsetIsNoBigger<T>(a: set<T>, b: set<T>)
    requires a <= b
    ensures |a| <= |b|
  {
    assert b == a + (b - a);
  }

  // A rearrangement of a and b around e, less e, is one of a and b.
  lemma WithoutOne<T>(c: seq<T>, e: T, a: seq<T>, b: seq<T>)
    requires multiset(c + [e]) == multiset(a + [e] + b)
    ensures multiset(c) == multiset(a + b)
  {
    assert multiset(c) == multiset(c + [e]) - multiset{e};
    assert multiset(a + b) == multiset(a + [e] + b) - multiset{e};
  }

  lemma {:induction false} BoundedSet(s: set<nat>, n: nat)
    requires forall k :: k in s ==> k < n
    ensures |s| <= n
  {
    if n > 0 {
      BoundedSet(s - {n - 1}, n - 1);
      assert n - 1 in s ==> s == (s - {n - 1}) + {n - 1};
    } else {
      assert s == {};
    }
  }

  /** How many members of xs p holds of. */
  function Count<T>(xs: seq<T>, p: T -> bool): nat
  {
    if xs == [] then 0 else Count(xs[..|xs| - 1], p) + if p(xs[|xs| - 1]) then 1 else 0
  }

  lemma {:induction false} CountsAgree<T>(xs: seq<T>, p: T -> bool, q: T -> bool)
    requires forall x :: x in xs ==> p(x) == q(x)
    ensures Count(xs, p) == Count(xs, q)
  {
    if xs != [] {
      CountsAgree(xs[..|xs| - 1], p, q);
    }
  }

  lemma CountOfOneMore<T>(xs: seq<T>, x: T, p: T -> bool)
    ensures Count(xs + [x], p) == Count(xs, p) + if p(x) then 1 else 0
  {
    assert (xs + [x])[..|xs|] == xs;
  }

  lemma {:induction false} CountOfAll<T>(xs: seq<T>)
    ensures Count(xs, x => true) == |xs|
  {
    if xs != [] {
      CountOfAll(xs[..|xs| - 1]);
    }
  }

  lemma {:induction false} CountIsBounded<T>(xs: seq<T>, p: T -> bool)
    ensures Count(xs, p) <= |xs|
  {
    if xs != [] {
      CountIsBounded(xs[..|xs| - 1], p);
    }
  }

  lemma {:induction false} CountIsMultiplicity(xs: seq<int>, v: int)
    ensures multiset(xs)[v] == Count(xs, x => x == v)
  {
    if xs != [] {
      var n := |xs| - 1;
      CountIsMultiplicity(xs[..n], v);
      assert xs == xs[..n] + [xs[n]];
    }
  }
}
