/** How a step's draws steer the churn: which draws create, mutate and delete, what
    the inventory has to do with it, and which candidate a draw picks. */
module Controller {
  import opened Options
  import opened Graphs
  import opened Scheduling
  import opened Policy

  // Some node may be created, deleted or mutated.
  predicate Choosable(g: Graph, ns: seq<NodeState>, kind: Kind)
    requires Linked(g) && |ns| == |g.nodes|
  {
    exists i :: 0 <= i < |ns| && Eligible(g, ns, kind, i)
  }

  predicate Creates(d: Decision) { d.Act? && d.act == Create }

  predicate Mutates(d: Decision) { d.Act? && d.act == Mutate }

  lemma NoneIsChoosable(g: Graph, ns: seq<NodeState>, kind: Kind)
    requires Linked(g) && |ns| == |g.nodes|
    ensures All(g, ns, kind) == [] <==> !Choosable(g, ns, kind)
  {
    var all := All(g, ns, kind);
    if all != [] {
      assert all[0] in all && Eligible(g, ns, kind, all[0]);
    }
  }

  /** The draws below x create, and the others do not. */
  ghost predicate Threshold(g: Graph, cfg: Config, ns: seq<NodeState>, x: real)
    requires Linked(g) && |ns| == |g.nodes|
  {
    && 0.0 <= x <= 1.0
    && forall u: Draws, pos: nat :: UnitDraws(u) ==>
         (Creates(PlainDraw(g, cfg, ns, u, pos).decision) <==> u(pos) < x)
  }

  lemma HasThreshold(g: Graph, cfg: Config, ns: seq<NodeState>)
    requires Linked(g) && |ns| == |g.nodes| && Choosable(g, ns, Creating) && Choosable(g, ns, Deleting)
    ensures |ns| > 0 && Threshold(g, cfg, ns, CreateProbability(cfg, |Present(ns)|, |ns|))
  {
    hide All, Chosen, Choosable;
    NoneIsChoosable(g, ns, Creating);
    NoneIsChoosable(g, ns, Deleting);
    IsNotEmpty(g, ns);
  }

  lemma IsNotEmpty(g: Graph, ns: seq<NodeState>)
    requires Linked(g) && |ns| == |g.nodes| && Choosable(g, ns, Creating)
    ensures |ns| > 0
  {
  }

  lemma ThresholdIsUnique(g: Graph, cfg: Config, ns: seq<NodeState>, x: real, y: real)
    requires Linked(g) && |ns| == |g.nodes| && Threshold(g, cfg, ns, x) && Threshold(g, cfg, ns, y)
    ensures x == y
  {
    hide PlainDraw, Threshold;
    UnitThreshold(g, cfg, ns, x);
    UnitThreshold(g, cfg, ns, y);
    var low := if x < y then x else if y < x then y else 0.0;
    var u: Draws := _ => low;
    DrawAgainst(g, cfg, ns, u, x);
    DrawAgainst(g, cfg, ns, u, y);
  }

  lemma UnitThreshold(g: Graph, cfg: Config, ns: seq<NodeState>, x: real)
    requires Linked(g) && |ns| == |g.nodes| && Threshold(g, cfg, ns, x)
    ensures 0.0 <= x <= 1.0
  {
  }

  lemma DrawAgainst(g: Graph, cfg: Config, ns: seq<NodeState>, u: Draws, x: real)
    requires Linked(g) && |ns| == |g.nodes| && Threshold(g, cfg, ns, x) && UnitDraws(u)
    ensures Creates(PlainDraw(g, cfg, ns, u, 0).decision) <==> u(0) < x
  {
  }

  /** With something to create and something to delete, the draws that create are
      those below a threshold in the unit interval: the churn ratio when the
      inventory is as full as the target, and elsewhere as far from it as the target
      is from the inventory, unless that is outside the interval. */
  lemma DrawsSteerToTarget(g: Graph, cfg: Config, ns: seq<NodeState>, x: real)
    requires Linked(g) && |ns| == |g.nodes| && Choosable(g, ns, Creating) && Choosable(g, ns, Deleting)
    requires Threshold(g, cfg, ns, x)
    ensures |ns| > 0
    ensures var gap := cfg.targetFill * |ns| as real - |Present(ns)| as real;
            && (gap == 0.0 && 0.0 <= cfg.churnRatio <= 1.0 ==> x == cfg.churnRatio)
            && (0.0 < x < 1.0 ==> (x - cfg.churnRatio) * |ns| as real == gap)
            && (x == 0.0 ==> gap <= -cfg.churnRatio * |ns| as real)
            && (x == 1.0 ==> gap >= (1.0 - cfg.churnRatio) * |ns| as real)
  {
    hide Threshold, Choosable;
    HasThreshold(g, cfg, ns);
    ThresholdIsUnique(g, cfg, ns, x, CreateProbability(cfg, |Present(ns)|, |ns|));
    GapDivides(cfg, |Present(ns)|, |ns|, x);
  }

  lemma GapDivides(cfg: Config, present: nat, nodes: nat, x: real)
    requires nodes > 0 && x == CreateProbability(cfg, present, nodes)
    ensures var gap := cfg.targetFill * nodes as real - present as real;
            && (gap == 0.0 && 0.0 <= cfg.churnRatio <= 1.0 ==> x == cfg.churnRatio)
            && (0.0 < x < 1.0 ==> (x - cfg.churnRatio) * nodes as real == gap)
            && (x == 0.0 ==> gap <= -cfg.churnRatio * nodes as real)
            && (x == 1.0 ==> gap >= (1.0 - cfg.churnRatio) * nodes as real)
  {
    var n := nodes as real;
    var fill := present as real / n;
    var off := cfg.targetFill - fill;
    Spreads(cfg.targetFill, fill, n);
    assert x == (if cfg.churnRatio + off < 0.0 then 0.0 else if cfg.churnRatio + off > 1.0 then 1.0
                 else cfg.churnRatio + off);
    assert 0.0 < x < 1.0 ==> x - cfg.churnRatio == off;
    Scales(off, -cfg.churnRatio, n);
    Scales(1.0 - cfg.churnRatio, off, n);
    if off * n == 0.0 {
      Scales(off, 0.0, n);
      Scales(0.0, off, n);
    }
  }

  lemma Spreads(a: real, b: real, n: real)
    ensures (a - b) * n == a * n - b * n
  {
  }

  lemma Scales(a: real, b: real, n: real)
    requires n > 0.0
    ensures a <= b <==> a * n <= b * n
  {
    if a <= b {
      assert (b - a) * n >= 0.0;
    } else {
      assert (a - b) * n > 0.0;
    }
  }

  /** One more present node takes one draw in as many as there are nodes from the
      creating ones, between the ends of the interval. */
  lemma OneMoreCreatesLess(g: Graph, cfg: Config, ns: seq<NodeState>, x: real, more: seq<NodeState>, y: real)
    requires Linked(g) && |ns| == |more| == |g.nodes| && |Present(more)| == |Present(ns)| + 1
    requires Choosable(g, ns, Creating) && Choosable(g, ns, Deleting)
    requires Choosable(g, more, Creating) && Choosable(g, more, Deleting)
    requires Threshold(g, cfg, ns, x) && Threshold(g, cfg, more, y)
    ensures |ns| > 0 && y <= x
    ensures 0.0 < y && x < 1.0 ==> x - y == 1.0 / |ns| as real
  {
    hide Threshold, Choosable;
    HasThreshold(g, cfg, ns);
    HasThreshold(g, cfg, more);
    ThresholdIsUnique(g, cfg, ns, x, CreateProbability(cfg, |Present(ns)|, |ns|));
    ThresholdIsUnique(g, cfg, more, y, CreateProbability(cfg, |Present(more)|, |ns|));
    var n := |ns| as real;
    assert |Present(more)| as real / n == |Present(ns)| as real / n + 1.0 / n;
    assert 1.0 / n > 0.0;
  }

  /** With nothing to create or nothing to delete there is no draw about it, and
      with neither there is nothing to do; what is decided is eligible, and a rolling
      root is rolled rather than deleted. */
  lemma OtherwiseNoChoice(g: Graph, cfg: Config, ns: seq<NodeState>, u: Draws, pos: nat)
    requires Linked(g) && |ns| == |g.nodes| && UnitDraws(u)
    ensures var d := PlainDraw(g, cfg, ns, u, pos).decision;
            && (d.Noop? <==> !Choosable(g, ns, Creating) && !Choosable(g, ns, Deleting))
            && (Choosable(g, ns, Creating) && !Choosable(g, ns, Deleting) ==> Creates(d))
            && (!Choosable(g, ns, Creating) ==> !Creates(d))
            && !Mutates(d)
            && (d.Act? ==> d.node < |ns| && Eligible(g, ns, if d.act == Create then Creating else Deleting, d.node))
            && (d.Act? && d.act == Delete ==> g.nodes[d.node].roll == "")
            && (d.RollSet? ==> d.root < |ns| && Eligible(g, ns, Deleting, d.root) && g.nodes[d.root].roll != "")
  {
    hide Candidates, Chosen, CreateProbability, Choosable, Eligible;
    NoneIsChoosable(g, ns, Creating);
    NoneIsChoosable(g, ns, Deleting);
  }

  /** A step mutates exactly when no eager create is possible, some node is mutable,
      the draw is below the resize ratio, and a node may be mutated; a draw it makes
      in vain is consumed. */
  lemma MutationIsDrawn(g: Graph, cfg: Config, ns: seq<NodeState>, u: Draws, pos: nat)
    requires Linked(g) && |ns| == |g.nodes| && UnitDraws(u)
    ensures var d := Draw(g, cfg, ns, u, pos).decision;
            var offered := (exists i :: 0 <= i < |g.nodes| && g.nodes[i].mutable) && cfg.resizeRatio > 0.0;
            && (Choosable(g, ns, EagerCreating) ==>
                  Creates(d) && d.node < |ns| && Eligible(g, ns, EagerCreating, d.node))
            && (Mutates(d) <==> !Choosable(g, ns, EagerCreating) && offered && u(pos) < cfg.resizeRatio
                                && Choosable(g, ns, Mutating))
            && (Mutates(d) ==> d.node < |ns| && Eligible(g, ns, Mutating, d.node))
            && (!Choosable(g, ns, EagerCreating) && !Mutates(d) ==>
                  Draw(g, cfg, ns, u, pos) == PlainDraw(g, cfg, ns, u, if offered then pos + 1 else pos))
  {
    hide Candidates, Chosen, PlainDraw, Choosable, Eligible;
    NoneIsChoosable(g, ns, EagerCreating);
    NoneIsChoosable(g, ns, Mutating);
    OtherwiseNoChoice(g, cfg, ns, u, pos);
    OtherwiseNoChoice(g, cfg, ns, u, pos + 1);
  }

  predicate Climbing(xs: seq<nat>) { forall a, b :: 0 <= a < b < |xs| ==> xs[a] < xs[b] }

  /** The candidates are listed in index order, each once ... */
  lemma {:induction false} CandidatesClimb(g: Graph, ns: seq<NodeState>, kind: Kind, n: nat)
    requires Linked(g) && |ns| == |g.nodes| && n <= |ns|
    ensures Climbing(Candidates(g, ns, kind, n))
  {
    if n > 0 {
      CandidatesClimb(g, ns, kind, n - 1);
      var before := Candidates(g, ns, kind, n - 1);
      assert forall a :: 0 <= a < |before| ==> before[a] in before;
    }
  }

  // The draw is in the k-th of n equal parts of the unit interval.
  predicate InPart(x: real, k: nat, n: nat) { k as real <= x * n as real < (k + 1) as real }

  /** ... and the k-th of n is chosen by the draws from k/n up to (k + 1)/n. */
  lemma ChoiceIsUniform(candidates: seq<nat>, u: Draws, pos: nat, k: nat)
    requires UnitDraws(u) && k < |candidates| && Climbing(candidates)
    ensures Chosen(candidates, u, pos) == candidates[k] <==> InPart(u(pos), k, |candidates|)
  {
    var i := Pick(u, pos, |candidates|);
    assert i as real <= u(pos) * |candidates| as real < (i + 1) as real;
    assert candidates[i] == candidates[k] <==> i == k;
    hide Pick;
    if i < k {
      assert (i + 1) as real <= k as real;
    } else if i > k {
      assert (k + 1) as real <= i as real;
    }
  }

  // Operations a and b do not both mutate one instance of a node that is not pinned.
  ghost predicate NotBoth(g: Graph, s: Sched, a: nat, b: nat)
    requires a < |s.ops| && b < |s.ops|
  {
    s.ops[a].act == Mutate && s.ops[b].act == Mutate && s.ops[a].node < |g.nodes| && !g.nodes[s.ops[a].node].pinned ==>
      s.ops[a].create != s.ops[b].create
  }

  // If operation a mutated its node's current instance, the node is marked.
  ghost predicate Marked(s: Sched, a: nat)
    requires a < |s.ops|
  {
    var o := s.ops[a];
    o.act == Mutate && o.node < |s.ns| && s.ns[o.node].create == Some(o.create) ==> s.ns[o.node].mutated
  }

  // Operation a mutated node i's current instance.
  predicate HasMutated(s: Sched, i: nat, a: nat)
    requires i < |s.ns|
  {
    a < |s.ops| && s.ops[a].act == Mutate && s.ops[a].node == i && s.ns[i].create == Some(s.ops[a].create)
  }

  // Only such a node is marked.
  ghost predicate JustlyMarked(s: Sched, i: nat)
    requires i < |s.ns|
  {
    s.ns[i].mutated ==> exists a: nat :: HasMutated(s, i, a)
  }

  ghost predicate OneMutation(g: Graph, s: Sched)
  {
    && (forall a, b :: 0 <= a < b < |s.ops| ==> NotBoth(g, s, a, b))
    && (forall a :: 0 <= a < |s.ops| ==> Marked(s, a))
    && (forall i :: 0 <= i < |s.ns| ==> JustlyMarked(s, i))
  }

  // What a dispatch of act on node i does, as far as mutations go.
  ghost predicate Follows(g: Graph, s: Sched, t: Sched, i: nat, act: Action)
  {
    && |t.ops| == |s.ops| + 1 && |t.ns| == |s.ns| == |g.nodes| && i < |s.ns|
    && (forall a :: 0 <= a < |s.ops| ==> t.ops[a] == s.ops[a])
    && (forall k :: 0 <= k < |s.ns| && k != i ==> t.ns[k] == s.ns[k])
    && var o := t.ops[|s.ops|];
    && o.node == i && o.act == act
    && match act
       case Create => t.ns[i].create == Some(|s.ops|) && !t.ns[i].mutated
       case Delete => t.ns[i].create == s.ns[i].create && t.ns[i].mutated == s.ns[i].mutated
       case Mutate => t.ns[i].create == s.ns[i].create == Some(o.create) && t.ns[i].mutated
                      && (!s.ns[i].mutated || g.nodes[i].pinned)
  }

  lemma DispatchFollows(g: Graph, s: Sched, i: nat, act: Action)
    requires WellFormed(g) && Wired(g, s) && RollGoing(g, s) && Legal(g, s, i, act)
    ensures Follows(g, s, Dispatch(g, s, i, act), i, act)
    ensures i < |s.ns| && (s.ns[i].create.Some? ==>
              s.ns[i].create.value < |s.ops| && s.ops[s.ns[i].create.value].node == i)
  {
    ParentsHaveCreates(g, s, i, act);
    assert i < |s.ns| && (s.ns[i].create.Some? ==>
             s.ns[i].create.value < |s.ops| && s.ops[s.ns[i].create.value].node == i);
    hide WellFormed, Wired, RollGoing;
    var t := Dispatch(g, s, i, act);
    assert t.ops[..|s.ops|] == s.ops;
  }

  // Each operation works on an earlier instance of its node.
  predicate OfTheirNodes(s: Sched)
  {
    forall a :: 0 <= a < |s.ops| ==> s.ops[a].create < |s.ops| && s.ops[s.ops[a].create].node == s.ops[a].node
  }

  lemma ValidOfTheirNodes(g: Graph, s: Sched)
    requires WellFormed(g) && Valid(g, s)
    ensures OfTheirNodes(s)
  {
    assert OpsValid(g, s);
    hide Valid;
    forall a | 0 <= a < |s.ops|
      ensures s.ops[a].create < |s.ops| && s.ops[s.ops[a].create].node == s.ops[a].node
    {
      assert OpValid(g, s.ops, a);
    }
  }

  lemma FollowKeepsMarked(g: Graph, s: Sched, t: Sched, i: nat, act: Action, a: nat)
    requires Follows(g, s, t, i, act) && a < |t.ops| && (a < |s.ops| ==> Marked(s, a) && s.ops[a].create < |s.ops|)
    ensures Marked(t, a)
  {
  }

  lemma FollowKeepsJustlyMarked(g: Graph, s: Sched, t: Sched, i: nat, act: Action, k: nat)
    requires Follows(g, s, t, i, act) && k < |t.ns| && JustlyMarked(s, k)
    ensures JustlyMarked(t, k)
  {
    if t.ns[k].mutated {
      if k == i && act == Mutate {
        assert HasMutated(t, k, |s.ops|);
      } else {
        var a: nat :| HasMutated(s, k, a);
        assert t.ops[a] == s.ops[a];
        assert HasMutated(t, k, a);
      }
    }
  }

  lemma FollowIsNoSecond(g: Graph, s: Sched, t: Sched, i: nat, act: Action, a: nat)
    requires Follows(g, s, t, i, act) && a < |s.ops| && Marked(s, a) && OfTheirNodes(s)
    requires s.ns[i].create.Some? ==> s.ns[i].create.value < |s.ops| && s.ops[s.ns[i].create.value].node == i
    ensures NotBoth(g, t, a, |s.ops|)
  {
    assert s.ops[s.ops[a].create].node == s.ops[a].node && t.ops[a] == s.ops[a];
    hide OfTheirNodes;
  }

  lemma FollowKeepsOneMutation(g: Graph, s: Sched, t: Sched, i: nat, act: Action)
    requires Follows(g, s, t, i, act) && OfTheirNodes(s) && OneMutation(g, s)
    requires s.ns[i].create.Some? ==> s.ns[i].create.value < |s.ops| && s.ops[s.ns[i].create.value].node == i
    ensures OneMutation(g, t)
  {
    hide NotBoth, Marked, JustlyMarked;
    forall k | 0 <= k < |t.ns|
      ensures JustlyMarked(t, k)
    {
      FollowKeepsJustlyMarked(g, s, t, i, act, k);
    }
    forall a | 0 <= a < |t.ops|
      ensures Marked(t, a)
    {
      assert a < |s.ops| ==> Marked(s, a);
      FollowKeepsMarked(g, s, t, i, act, a);
    }
    forall a, b | 0 <= a < b < |t.ops|
      ensures NotBoth(g, t, a, b)
    {
      if b < |s.ops| {
        SamePair(g, s, t, a, b);
      } else {
        FollowIsNoSecond(g, s, t, i, act, a);
      }
    }
  }

  lemma SamePair(g: Graph, s: Sched, t: Sched, a: nat, b: nat)
    requires a < |s.ops| <= |t.ops| && b < |s.ops| && NotBoth(g, s, a, b)
    requires t.ops[a] == s.ops[a] && t.ops[b] == s.ops[b]
    ensures NotBoth(g, t, a, b)
  {
  }

  lemma NextKeepsOneMutation(g: Graph, s: Sched, choice: Choice)
    requires WellFormed(g) && Valid(g, s) && |s.ns| == |g.nodes| && OneMutation(g, s) && Next(g, s, choice).Some?
    ensures OneMutation(g, Next(g, s, choice).value)
  {
    hide Valid, Dispatch, RollGoing, Legal, WellFormed, MayRoll, Follows, OfTheirNodes;
    ValidIsWired(g, s);
    if choice.Do? {
      DispatchFollows(g, s, choice.node, choice.act);
      ValidOfTheirNodes(g, s);
      FollowKeepsOneMutation(g, s, Dispatch(g, s, choice.node, choice.act), choice.node, choice.act);
    } else {
      SameWorkMutatesNone(g, s, StartRoll(g, s, choice.root));
    }
  }

  lemma SameWorkMutatesNone(g: Graph, s: Sched, t: Sched)
    requires OneMutation(g, s) && t.ops == s.ops && t.ns == s.ns
    ensures OneMutation(g, t)
  {
    forall i | 0 <= i < |t.ns|
      ensures JustlyMarked(t, i)
    {
      assert JustlyMarked(s, i);
      if t.ns[i].mutated {
        var a: nat :| HasMutated(s, i, a);
        assert HasMutated(t, i, a);
      }
    }
    forall a | 0 <= a < |t.ops|
      ensures Marked(t, a)
    {
      assert Marked(s, a);
    }
    forall a, b | 0 <= a < b < |t.ops|
      ensures NotBoth(g, t, a, b)
    {
      assert NotBoth(g, s, a, b);
    }
  }

  lemma {:induction false} ExecMutatesOnce(g: Graph, choices: seq<Choice>)
    requires WellFormed(g) && Exec(g, choices).Some?
    ensures OneMutation(g, Exec(g, choices).value)
  {
    hide OneMutation, Valid, Next;
    if choices == [] {
      NothingMutated(g);
    } else {
      var before := choices[..|choices| - 1];
      ExecMutatesOnce(g, before);
      ValidFits(g, Exec(g, before).value);
      NextKeepsOneMutation(g, Exec(g, before).value, choices[|choices| - 1]);
    }
  }

  lemma NothingMutated(g: Graph)
    ensures OneMutation(g, Initial(g))
  {
  }

  /** In every schedule no instance of a node that is not pinned is mutated twice. */
  lemma MutatesOnce(g: Graph, choices: seq<Choice>, s: Sched, a: nat, b: nat)
    requires WellFormed(g) && Exec(g, choices) == Some(s) && a < b < |s.ops|
    requires s.ops[a].act == Mutate && s.ops[b].act == Mutate && s.ops[a].create == s.ops[b].create
    ensures s.ops[a].node == s.ops[b].node < |g.nodes| && g.nodes[s.ops[a].node].pinned
  {
    hide Exec;
    ExecMutatesOnce(g, choices);
    assert NotBoth(g, s, a, b) && OpValid(g, s.ops, a) && OpValid(g, s.ops, b);
  }

  /** A node may be mutated exactly while it is mutable, present, and pinned or its
      current instance has not been mutated. */
  lemma MutableUntilMutated(g: Graph, choices: seq<Choice>, s: Sched, i: nat)
    requires WellFormed(g) && Exec(g, choices) == Some(s) && i < |s.ns| == |g.nodes|
    ensures Eligible(g, s.ns, Mutating, i) <==>
            && s.ns[i].present && g.nodes[i].mutable
            && (g.nodes[i].pinned
                || forall a :: 0 <= a < |s.ops| && s.ops[a].act == Mutate && s.ops[a].node == i ==>
                     s.ns[i].create != Some(s.ops[a].create))
  {
    hide Exec, Valid;
    ExecMutatesOnce(g, choices);
    assert JustlyMarked(s, i);
    if s.ns[i].mutated {
      var a: nat :| HasMutated(s, i, a);
      assert s.ns[i].create == Some(s.ops[a].create);
    }
    forall a | 0 <= a < |s.ops| && s.ops[a].act == Mutate && s.ops[a].node == i
               && s.ns[i].create == Some(s.ops[a].create)
      ensures s.ns[i].mutated
    {
      assert Marked(s, a);
    }
  }

  /** The candidates are what the scheduler may do: create and mutate what it may,
      and delete what it may delete or roll. */
  lemma CandidatesAreLegal(g: Graph, s: Sched, i: nat)
    requires Linked(g) && i < |s.ns| == |g.nodes| && s.roll.left == []
    requires WellFormed(g) && Valid(g, s)
    ensures Eligible(g, s.ns, Creating, i) <==> Legal(g, s, i, Create)
    ensures Eligible(g, s.ns, EagerCreating, i) <==>
            Legal(g, s, i, Create) && (g.nodes[i].pinned || g.nodes[i].roll != "")
    ensures Eligible(g, s.ns, Mutating, i) <==> Legal(g, s, i, Mutate)
    ensures Eligible(g, s.ns, Deleting, i) <==> Legal(g, s, i, Delete) || MayRoll(g, s, i)
  {
    hide Valid;
  }

  /** Which candidate is taken is up to the draw after the one that chose the action,
      or the only one, and uniform. */
  lemma CandidatesAreUniform(g: Graph, cfg: Config, ns: seq<NodeState>, u: Draws, pos: nat, k: nat)
    requires Linked(g) && |ns| == |g.nodes| && UnitDraws(u)
    ensures var d := PlainDraw(g, cfg, ns, u, pos);
            var creates, deletes := All(g, ns, Creating), All(g, ns, Deleting);
            var from := if creates != [] && deletes != [] then pos + 1 else pos;
            var list := if Creates(d.decision) then creates else deletes;
            && Climbing(list)
            && (d.decision.Noop? ==> d.pos == pos)
            && (!d.decision.Noop? ==> d.pos == from + 1)
            && (!d.decision.Noop? && k < |list| ==>
                  (Target(d.decision) == list[k] <==> InPart(u(from), k, |list|)))
  {
    hide Candidates, Chosen, CreateProbability, Eligible, Climbing, InPart;
    var creates, deletes := All(g, ns, Creating), All(g, ns, Deleting);
    CandidatesClimb(g, ns, Creating, |ns|);
    CandidatesClimb(g, ns, Deleting, |ns|);
    var from := if creates != [] && deletes != [] then pos + 1 else pos;
    if k < |creates| {
      ChoiceIsUniform(creates, u, from, k);
    }
    if k < |deletes| {
      ChoiceIsUniform(deletes, u, from, k);
    }
  }

  // The node a decision is about.
  function Target(d: Decision): nat { match d case Noop => 0 case Act(i, _) => i case RollSet(root) => root }

  /** The same of an eager create and of a mutate. */
  lemma FavouritesAreUniform(g: Graph, cfg: Config, ns: seq<NodeState>, u: Draws, pos: nat, k: nat)
    requires Linked(g) && |ns| == |g.nodes| && UnitDraws(u)
    ensures var d := Draw(g, cfg, ns, u, pos);
            var eager, mutates := All(g, ns, EagerCreating), All(g, ns, Mutating);
            && Climbing(eager) && Climbing(mutates)
            && (eager != [] ==> d.pos == pos + 1)
            && (eager != [] && k < |eager| ==>
                  (Target(d.decision) == eager[k] <==> InPart(u(pos), k, |eager|)))
            && (Mutates(d.decision) ==> d.pos == pos + 2)
            && (Mutates(d.decision) && k < |mutates| ==>
                  (Target(d.decision) == mutates[k] <==> InPart(u(pos + 1), k, |mutates|)))
  {
    hide Candidates, Chosen, PlainDraw, Eligible, Climbing, Choosable, InPart;
    var eager, mutates := All(g, ns, EagerCreating), All(g, ns, Mutating);
    CandidatesClimb(g, ns, EagerCreating, |ns|);
    CandidatesClimb(g, ns, Mutating, |ns|);
    OtherwiseNoChoice(g, cfg, ns, u, pos);
    OtherwiseNoChoice(g, cfg, ns, u, pos + 1);
    if k < |eager| {
      ChoiceIsUniform(eager, u, pos, k);
    }
    if k < |mutates| {
      ChoiceIsUniform(mutates, u, pos + 1, k);
    }
  }

  /** A tick draws its delay and then its fan-out, each of 1 to MaxParallel steps as
      likely as another. */
  lemma FanOutIsUniform(cfg: Config, u: Draws, d: Driver, k: nat)
    requires UnitDraws(u) && d.left == 0
    ensures var b := Begun(cfg, u, d);
            && 1 <= b.left <= cfg.maxParallel && b.pos == d.pos + 2
            && (b.left == k + 1 <==> InPart(u(d.pos + 1), k, cfg.maxParallel))
  {
    var i := Pick(u, d.pos + 1, cfg.maxParallel);
    var x := u(d.pos + 1) * cfg.maxParallel as real;
    assert i as real <= x < (i + 1) as real;
    hide Pick;
    if i < k {
      assert (i + 1) as real <= k as real;
    } else if i > k {
      assert (k + 1) as real <= i as real;
    }
  }
}
