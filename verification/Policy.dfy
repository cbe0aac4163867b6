/** What the scheduler decides: the candidates for each action, and the choice a
    step draws among them. */
module Policy {
  import opened Graphs
  import opened Scheduling

  type Positive = x: int | x > 0 witness 1

  datatype Config = Config(resizeRatio: real, churnRatio: real, targetFill: real,
                           maxParallel: Positive, concurrency: int)

  // How many operations may work at once.
  function Limit(cfg: Config): Positive
  {
    if cfg.concurrency >= cfg.maxParallel then cfg.maxParallel
    else if cfg.concurrency < 1 then 1 else cfg.concurrency
  }

  // The step's decision; RollSet stands for the whole roll of a root.
  datatype Decision = Noop | Act(node: nat, act: Action) | RollSet(root: nat)

  predicate MayCreate(g: Graph, ns: seq<NodeState>, i: nat)
    requires Linked(g) && |ns| == |g.nodes| && i < |ns|
  {
    !ns[i].present && ParentsPresent(g, ns, i)
  }

  predicate MayEagerCreate(g: Graph, ns: seq<NodeState>, i: nat)
    requires Linked(g) && |ns| == |g.nodes| && i < |ns|
  {
    MayCreate(g, ns, i) && g.nodes[i].Eager()
  }

  predicate MayDelete(g: Graph, ns: seq<NodeState>, i: nat)
    requires Linked(g) && |ns| == |g.nodes| && i < |ns|
  {
    && ns[i].present && !g.nodes[i].pinned
    && if g.nodes[i].roll != "" then RollRoot(g, i) && SetWhole(g, ns, g.nodes[i].roll) else ChildrenAbsent(g, ns, i)
  }

  predicate MayMutate(g: Graph, ns: seq<NodeState>, i: nat)
    requires |ns| == |g.nodes| && i < |ns|
  {
    ns[i].present && g.nodes[i].mutable && (!ns[i].mutated || g.nodes[i].pinned)
  }

  datatype Kind = Creating | EagerCreating | Deleting | Mutating

  predicate Eligible(g: Graph, ns: seq<NodeState>, kind: Kind, i: nat)
    requires Linked(g) && |ns| == |g.nodes| && i < |ns|
  {
    match kind
    case Creating => MayCreate(g, ns, i)
    case EagerCreating => MayEagerCreate(g, ns, i)
    case Deleting => MayDelete(g, ns, i)
    case Mutating => MayMutate(g, ns, i)
  }

  /** The eligible nodes below n, in index order. */
  function Candidates(g: Graph, ns: seq<NodeState>, kind: Kind, n: nat): (r: seq<nat>)
    requires Linked(g) && |ns| == |g.nodes| && n <= |ns|
    ensures forall i :: i in r ==> i < n && Eligible(g, ns, kind, i)
    ensures forall i :: 0 <= i < n && Eligible(g, ns, kind, i) ==> i in r
  {
    if n == 0 then []
    else Candidates(g, ns, kind, n - 1) + if Eligible(g, ns, kind, n - 1) then [n - 1] else []
  }

  function All(g: Graph, ns: seq<NodeState>, kind: Kind): (r: seq<nat>)
    requires Linked(g) && |ns| == |g.nodes|
    ensures forall i :: i in r ==> i < |ns|
  {
    Candidates(g, ns, kind, |ns|)
  }

  // The generator, as an arbitrary stream of draws from the unit interval.
  type Draws = nat -> real

  ghost predicate UnitDraws(u: Draws) { forall k :: 0.0 <= u(k) < 1.0 }

  // Intn(n) of the draw at pos.
  function Pick(u: Draws, pos: nat, n: nat): (i: nat)
    requires UnitDraws(u) && n > 0
    ensures i < n
  {
    var x := u(pos) * n as real;
    UnitTimes(u(pos), n as real);
    x.Floor
  }

  // One of the candidates, by the draw at pos.
  function Chosen(candidates: seq<nat>, u: Draws, pos: nat): (i: nat)
    requires UnitDraws(u) && candidates != []
    ensures i in candidates
  {
    candidates[Pick(u, pos, |candidates|)]
  }

  lemma UnitTimes(a: real, n: real)
    requires 0.0 <= a < 1.0 && n > 0.0
    ensures 0.0 <= a * n < n
  {
    assert (1.0 - a) * n > 0.0;
  }

  function CreateProbability(cfg: Config, present: nat, nodes: nat): real
    requires nodes > 0
  {
    var p := cfg.churnRatio + (cfg.targetFill - present as real / nodes as real);
    if p < 0.0 then 0.0 else if p > 1.0 then 1.0 else p
  }

  predicate Mutable(g: Graph) { exists i :: 0 <= i < |g.nodes| && g.nodes[i].mutable }

  // A decision and the position of the next draw.
  datatype Drawn = Drawn(decision: Decision, pos: nat)

  function DeleteOf(g: Graph, i: nat): Decision
    requires i < |g.nodes|
  {
    if g.nodes[i].roll != "" then RollSet(i) else Act(i, Delete)
  }

  /** The create or delete a step draws when there is no eager create and no
      mutation. */
  function PlainDraw(g: Graph, cfg: Config, ns: seq<NodeState>, u: Draws, pos: nat): Drawn
    requires Linked(g) && |ns| == |g.nodes| && UnitDraws(u)
  {
    var creates, deletes := All(g, ns, Creating), All(g, ns, Deleting);
    if creates == [] && deletes == [] then Drawn(Noop, pos)
    else if deletes == [] then Drawn(Act(Chosen(creates, u, pos), Create), pos + 1)
    else if creates == [] then Drawn(DeleteOf(g, Chosen(deletes, u, pos)), pos + 1)
    else if u(pos) < CreateProbability(cfg, |Present(ns)|, |ns|) then
      Drawn(Act(Chosen(creates, u, pos + 1), Create), pos + 2)
    else Drawn(DeleteOf(g, Chosen(deletes, u, pos + 1)), pos + 2)
  }

  /** What a step decides from the inventory and the draws alone. */
  function Draw(g: Graph, cfg: Config, ns: seq<NodeState>, u: Draws, pos: nat): Drawn
    requires Linked(g) && |ns| == |g.nodes| && UnitDraws(u)
  {
    var eager := All(g, ns, EagerCreating);
    if eager != [] then Drawn(Act(Chosen(eager, u, pos), Create), pos + 1)
    else if !(Mutable(g) && cfg.resizeRatio > 0.0) then PlainDraw(g, cfg, ns, u, pos)
    else
      var mutates := All(g, ns, Mutating);
      if u(pos) < cfg.resizeRatio && mutates != [] then
        Drawn(Act(Chosen(mutates, u, pos + 1), Mutate), pos + 2)
      else PlainDraw(g, cfg, ns, u, pos + 1)
  }

  // The rest of a roll: the deletes that are left, in order.
  ghost function Finish(g: Graph, s: Sched): (t: Sched)
    requires WellFormed(g) && Valid(g, s)
    ensures Valid(g, t) && t.roll.left == []
    decreases |s.roll.left|
  {
    if s.roll.left == [] then s
    else
      var i := s.roll.left[0];
      DispatchKeepsValid(g, s, i, Delete);
      Finish(g, Dispatch(g, s, i, Delete))
  }

  lemma FinishedIs(g: Graph, s: Sched)
    requires WellFormed(g) && Valid(g, s) && s.roll.left == []
    ensures Finish(g, s) == s
  {
  }

  predicate Decidable(g: Graph, s: Sched, d: Decision)
    requires Linked(g) && |s.ns| == |g.nodes|
  {
    match d
    case Noop => true
    case Act(i, act) => Legal(g, s, i, act)
    case RollSet(root) => MayRoll(g, s, root)
  }

  /** The scheduler's state after a decision. */
  ghost function Apply(g: Graph, s: Sched, d: Decision): (t: Sched)
    requires WellFormed(g) && Valid(g, s) && s.roll.left == [] && Decidable(g, s, d)
    ensures Valid(g, t) && t.roll.left == []
  {
    match d
    case Noop => s
    case Act(i, act) => DispatchKeepsValid(g, s, i, act); Dispatch(g, s, i, act)
    case RollSet(root) => StartRollKeepsValid(g, s, root); Finish(g, StartRoll(g, s, root))
  }

  lemma PlainDrawIsDecidable(g: Graph, cfg: Config, s: Sched, u: Draws, pos: nat)
    requires WellFormed(g) && |s.ns| == |g.nodes| && UnitDraws(u) && s.roll.left == []
    ensures Decidable(g, s, PlainDraw(g, cfg, s.ns, u, pos).decision)
  {
    hide Candidates, Chosen, CreateProbability;
  }

  lemma DrawIsDecidable(g: Graph, cfg: Config, s: Sched, u: Draws, pos: nat)
    requires WellFormed(g) && |s.ns| == |g.nodes| && UnitDraws(u) && s.roll.left == []
    ensures Decidable(g, s, Draw(g, cfg, s.ns, u, pos).decision)
  {
    hide Candidates, Chosen, PlainDraw;
    PlainDrawIsDecidable(g, cfg, s, u, pos);
    PlainDrawIsDecidable(g, cfg, s, u, pos + 1);
  }

  // The scheduler, the position of its next draw, and the steps left of its tick.
  datatype Driver = Driver(sch: Sched, pos: nat, left: nat)

  // With no step left a tick begins: it draws its delay and its fan-out.
  function Begun(cfg: Config, u: Draws, d: Driver): (r: Driver)
    requires UnitDraws(u)
    ensures r.sch == d.sch && r.left > 0
  {
    if d.left > 0 then d else Driver(d.sch, d.pos + 2, 1 + Pick(u, d.pos + 1, cfg.maxParallel))
  }

  // What the next step decides.
  function Upcoming(g: Graph, cfg: Config, u: Draws, d: Driver): Decision
    requires Linked(g) && |d.sch.ns| == |g.nodes| && UnitDraws(u)
  {
    Draw(g, cfg, d.sch.ns, u, Begun(cfg, u, d).pos).decision
  }

  /** The scheduler after n steps, in ticks of as many steps as each draws. */
  ghost function After(g: Graph, cfg: Config, u: Draws, n: nat): (r: Driver)
    requires WellFormed(g) && UnitDraws(u)
    ensures Valid(g, r.sch) && r.sch.roll.left == []
  {
    if n == 0 then
      InitialIsValid(g);
      Driver(Initial(g), 0, 0)
    else
      var d := Begun(cfg, u, After(g, cfg, u, n - 1));
      DrawIsDecidable(g, cfg, d.sch, u, d.pos);
      var drawn := Draw(g, cfg, d.sch.ns, u, d.pos);
      Driver(Apply(g, d.sch, drawn.decision), drawn.pos, d.left - 1)
  }

  // The step after the first n.
  lemma NextStep(g: Graph, cfg: Config, u: Draws, n: nat)
    requires WellFormed(g) && UnitDraws(u)
    ensures var a := After(g, cfg, u, n);
            && |a.sch.ns| == |g.nodes|
            && var b := Begun(cfg, u, a);
            var drawn := Draw(g, cfg, a.sch.ns, u, b.pos);
            && Decidable(g, a.sch, drawn.decision)
            && After(g, cfg, u, n + 1) == Driver(Apply(g, a.sch, drawn.decision), drawn.pos, b.left - 1)
  {
    hide Valid, Draw, Begun, Apply, Decidable;
    var a := After(g, cfg, u, n);
    ValidFits(g, a.sch);
    DrawIsDecidable(g, cfg, a.sch, u, Begun(cfg, u, a).pos);
  }

  /** A node can be created as long as one is absent. */
  lemma CreatesUntilFull(g: Graph, ns: seq<NodeState>)
    requires WellFormed(g) && |ns| == |g.nodes|
    ensures All(g, ns, Creating) == [] <==> forall i :: 0 <= i < |ns| ==> ns[i].present
  {
    var absent := set i | 0 <= i < |ns| && !ns[i].present;
    var creates := All(g, ns, Creating);
    assert creates != [] ==> creates[0] in creates && !ns[creates[0]].present;
    if absent != {} {
      var m := Topmost(g, absent);
      assert Eligible(g, ns, Creating, m) && !ns[m].present;
    }
    assert forall i :: 0 <= i < |ns| ==> (i in absent <==> !ns[i].present);
  }

  // A node none of whose children is in a set it is in.
  lemma {:induction false} Bottommost(g: Graph, s: set<nat>) returns (m: nat)
    requires WellFormed(g) && s != {} && forall x :: x in s ==> x < |g.nodes|
    ensures m in s && forall c :: c in g.children[m] ==> c !in s
    ensures forall x :: x in s ==> Height(g)[m] <= Height(g)[x]
    decreases |s|
  {
    var h := Height(g);
    m :| m in s;
    var rest := s - {m};
    if rest != {} {
      var k := Bottommost(g, rest);
      if h[k] < h[m] {
        m := k;
      }
    }
    forall c | c in g.children[m]
      ensures c !in s
    {
      assert m in g.parents[c] && h[c] < h[m];
      assert forall x :: x in s ==> h[m] <= h[x];
    }
  }

  // A root of the rolling set of node i.
  lemma SetHasRoot(g: Graph, i: nat) returns (root: nat)
    requires WellFormed(g) && i < |g.nodes| && g.nodes[i].roll != ""
    ensures root < |g.nodes| && g.nodes[root].roll == g.nodes[i].roll && RollRoot(g, root)
  {
    var members := set k | 0 <= k < |g.nodes| && g.nodes[k].roll == g.nodes[i].roll;
    assert i in members;
    root := Topmost(g, members);
  }

  /** A non-empty graph without pinned nodes never has nothing to do. */
  lemma NeverIdle(g: Graph, cfg: Config, ns: seq<NodeState>, u: Draws, pos: nat)
    requires WellFormed(g) && |ns| == |g.nodes| > 0 && UnitDraws(u)
    requires forall i :: 0 <= i < |g.nodes| ==> !g.nodes[i].pinned
    ensures !Draw(g, cfg, ns, u, pos).decision.Noop?
  {
    CreatesUntilFull(g, ns);
    if All(g, ns, Creating) == [] {
      var nodes := set i | 0 <= i < |g.nodes| && !g.nodes[i].pinned;
      assert 0 in nodes;
      var m := Bottommost(g, nodes);
      if g.nodes[m].roll == "" {
        assert Eligible(g, ns, Deleting, m);
      } else {
        var root := SetHasRoot(g, m);
        assert Eligible(g, ns, Deleting, root);
      }
    }
  }

  /** On a graph without pinned, rolling or mutable nodes a step is the plain
      create or delete step, draw for draw. */
  lemma PlainGraphDrawsPlainly(g: Graph, cfg: Config, ns: seq<NodeState>, u: Draws, pos: nat)
    requires WellFormed(g) && |ns| == |g.nodes| && UnitDraws(u)
    requires forall i :: 0 <= i < |g.nodes| ==> !g.nodes[i].Eager() && !g.nodes[i].mutable
    ensures Draw(g, cfg, ns, u, pos) == PlainDraw(g, cfg, ns, u, pos)
    ensures Draw(g, cfg, ns, u, pos).pos <= pos + 2
  {
    var eager := All(g, ns, EagerCreating);
    assert forall k :: 0 <= k < |eager| ==> eager[k] in eager;
  }

  // Every parent of a pinned or rolling node is pinned or rolling.
  ghost predicate EagerClosed(g: Graph)
    requires Linked(g)
  {
    forall c: nat, p: nat {:trigger p in g.parents[c]} ::
      c < |g.nodes| && p in g.parents[c] && g.nodes[c].Eager() ==> g.nodes[p].Eager()
  }

  function AbsentEager(g: Graph, ns: seq<NodeState>): set<nat>
    requires |ns| == |g.nodes|
  {
    set i | 0 <= i < |ns| && !ns[i].present && g.nodes[i].Eager()
  }

  // While an eager node is absent, one can be created.
  lemma EagerCanBeCreated(g: Graph, ns: seq<NodeState>)
    requires WellFormed(g) && EagerClosed(g) && |ns| == |g.nodes| && AbsentEager(g, ns) != {}
    ensures All(g, ns, EagerCreating) != []
  {
    var m := Topmost(g, AbsentEager(g, ns));
    assert Eligible(g, ns, EagerCreating, m);
  }

  lemma EagerIsDrawn(g: Graph, cfg: Config, ns: seq<NodeState>, u: Draws, pos: nat)
    requires Linked(g) && |ns| == |g.nodes| && UnitDraws(u) && All(g, ns, EagerCreating) != []
    ensures var d := Draw(g, cfg, ns, u, pos).decision; d.Act? && d.act == Create && d.node in AbsentEager(g, ns)
  {
    hide Candidates, PlainDraw, Chosen;
    var i := Chosen(All(g, ns, EagerCreating), u, pos);
    assert Eligible(g, ns, EagerCreating, i);
  }

  lemma CreateShrinks(g: Graph, s: Sched, t: Sched, i: nat, past: set<nat>)
    requires |s.ns| == |g.nodes| && Extends(s, t, i, Create, past)
    ensures AbsentEager(g, t.ns) == AbsentEager(g, s.ns) - {i}
  {
  }

  // While one can be, a step creates one.
  lemma EagerComesFirst(g: Graph, cfg: Config, s: Sched, u: Draws, pos: nat)
    requires WellFormed(g) && Valid(g, s) && s.roll.left == [] && UnitDraws(u)
    requires All(g, s.ns, EagerCreating) != []
    ensures var d := Draw(g, cfg, s.ns, u, pos).decision;
            && d.Act? && d.act == Create && d.node in AbsentEager(g, s.ns) && Legal(g, s, d.node, Create)
            && AbsentEager(g, Apply(g, s, d).ns) == AbsentEager(g, s.ns) - {d.node}
  {
    assert Wired(g, s) && RollGoing(g, s);
    hide Valid, Candidates, Wired, RollGoing, Dispatch, Draw, Legal, AbsentEager, Extends;
    ValidFits(g, s);
    DrawIsDecidable(g, cfg, s, u, pos);
    EagerIsDrawn(g, cfg, s.ns, u, pos);
    var d := Draw(g, cfg, s.ns, u, pos).decision;
    DispatchExtends(g, s, d.node, Create);
    CreateShrinks(g, s, Dispatch(g, s, d.node, Create), d.node, Past(s.ops, Deps(g, s, d.node, Create)));
  }

  /** Eager convergence: the first steps create the eager nodes, one each, and do
      nothing else until all are present. */
  lemma {:induction false} EagerNodesFirst(g: Graph, cfg: Config, u: Draws, n: nat)
    requires WellFormed(g) && EagerClosed(g) && UnitDraws(u)
    requires n <= |AbsentEager(g, Initial(g).ns)|
    ensures |After(g, cfg, u, n).sch.ns| == |g.nodes|
    ensures |AbsentEager(g, After(g, cfg, u, n).sch.ns)| == |AbsentEager(g, Initial(g).ns)| - n
    ensures n < |AbsentEager(g, Initial(g).ns)| ==>
              var d := After(g, cfg, u, n);
              var next := Upcoming(g, cfg, u, d);
              next.Act? && next.act == Create && next.node in AbsentEager(g, d.sch.ns)
  {
    hide Valid, Draw, Apply, AbsentEager, EagerClosed;
    if n > 0 {
      EagerNodesFirst(g, cfg, u, n - 1);
      var d := After(g, cfg, u, n - 1);
      ValidFits(g, d.sch);
      EagerStep(g, cfg, d.sch, u, Begun(cfg, u, d).pos);
    }
    var d := After(g, cfg, u, n);
    ValidFits(g, d.sch);
    if n < |AbsentEager(g, Initial(g).ns)| {
      EagerStep(g, cfg, d.sch, u, Begun(cfg, u, d).pos);
    }
  }

  lemma EagerStep(g: Graph, cfg: Config, s: Sched, u: Draws, pos: nat)
    requires WellFormed(g) && EagerClosed(g) && Valid(g, s) && s.roll.left == [] && UnitDraws(u)
    requires |AbsentEager(g, s.ns)| > 0
    ensures var d := Draw(g, cfg, s.ns, u, pos).decision;
            && d.Act? && d.act == Create && d.node in AbsentEager(g, s.ns) && Legal(g, s, d.node, Create)
            && |AbsentEager(g, Apply(g, s, d).ns)| == |AbsentEager(g, s.ns)| - 1
  {
    hide Draw, Apply, AbsentEager, EagerClosed;
    ValidFits(g, s);
    hide Valid;
    EagerCanBeCreated(g, s.ns);
    EagerComesFirst(g, cfg, s, u, pos);
  }
}
