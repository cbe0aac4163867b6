/** The metrics collectors: a tree in which a sample recorded on one collector is
    then recorded on its parent, each under its own lock. */
module Collectors {
  import opened Options
  import opened Finite
  import Histograms

  // An API call or a time-to-ready record.
  datatype Entry = Call(typ: string, duration: int, success: bool, errKind: string)
                 | Ready(typ: string, duration: int, ok: bool)

  datatype Group = Group(attempted: nat, succeeded: nat, latency: Histograms.Hist)

  const NO_GROUP := Group(0, 0, Histograms.EMPTY)

  function AddTo(g: Group, ok: bool, d: int): Group
  {
    Group(g.attempted + 1, g.succeeded + if ok then 1 else 0, Histograms.With(g.latency, d))
  }

  function GroupOf(m: map<string, Group>, typ: string): Group { if typ in m then m[typ] else NO_GROUP }

  /** What a collector holds. */
  datatype Totals = Totals(overall: Group, byType: map<string, Group>, errors: map<string, nat>,
                           readiness: map<string, Group>)

  const NOTHING := Totals(NO_GROUP, map[], map[], map[])

  function Put(t: Totals, e: Entry): Totals
  {
    match e
    case Call(typ, d, ok, kind) =>
      Totals(AddTo(t.overall, ok, d), PutGroup(t.byType, typ, ok, d),
             if kind != "" then Tallied(t.errors, kind) else t.errors, t.readiness)
    case Ready(typ, d, ok) => t.(readiness := PutGroup(t.readiness, typ, ok, d))
  }

  function PutGroup(m: map<string, Group>, typ: string, ok: bool, d: int): map<string, Group>
  {
    m[typ := AddTo(GroupOf(m, typ), ok, d)]
  }

  function Fold(es: seq<Entry>): Totals
  {
    if es == [] then NOTHING else Put(Fold(es[..|es| - 1]), es[|es| - 1])
  }

  // A group without durations is empty.
  ghost predicate Proper(g: Group) { g.latency.n == 0 ==> g.latency == Histograms.EMPTY }

  ghost predicate AllProper(t: Totals)
  {
    && Proper(t.overall)
    && (forall k :: k in t.byType ==> Proper(t.byType[k]))
    && (forall k :: k in t.readiness ==> Proper(t.readiness[k]))
  }

  lemma {:induction false} FoldIsProper(es: seq<Entry>)
    ensures AllProper(Fold(es))
  {
    if es != [] {
      FoldIsProper(es[..|es| - 1]);
    }
  }

  lemma AddsToCommute(g: Group, a: bool, x: int, b: bool, y: int)
    requires Proper(g)
    ensures AddTo(AddTo(g, a, x), b, y) == AddTo(AddTo(g, b, y), a, x)
  {
    Histograms.AddsCommute(g.latency, x, y);
  }

  lemma PutGroupsCommute(m: map<string, Group>, k: string, a: bool, x: int, l: string, b: bool, y: int)
    requires Proper(GroupOf(m, k))
    ensures PutGroup(PutGroup(m, k, a, x), l, b, y) == PutGroup(PutGroup(m, l, b, y), k, a, x)
  {
    hide Proper, AddTo;
    if k == l {
      AddsToCommute(GroupOf(m, k), a, x, b, y);
    }
    assert PutGroup(PutGroup(m, k, a, x), l, b, y) == PutGroup(PutGroup(m, l, b, y), k, a, x);
  }

  lemma TalliesCommute(m: map<string, nat>, k: string, l: string)
    ensures Tallied(Tallied(m, k), l) == Tallied(Tallied(m, l), k)
  {
    assert Tallied(Tallied(m, k), l) == Tallied(Tallied(m, l), k);
  }

  lemma GroupsAreProper(t: Totals, typ: string)
    requires AllProper(t)
    ensures Proper(t.overall) && Proper(GroupOf(t.byType, typ)) && Proper(GroupOf(t.readiness, typ))
  {
  }

  // Two entries can be put in either order.
  lemma PutsCommute(t: Totals, a: Entry, b: Entry)
    requires AllProper(t)
    ensures Put(Put(t, a), b) == Put(Put(t, b), a)
  {
    hide AddTo, AllProper, PutGroup, Tallied, GroupOf;
    GroupsAreProper(t, a.typ);
    if a.Call? && b.Call? {
      AddsToCommute(t.overall, a.success, a.duration, b.success, b.duration);
      PutGroupsCommute(t.byType, a.typ, a.success, a.duration, b.typ, b.success, b.duration);
      TalliesCommute(t.errors, a.errKind, b.errKind);
    } else if a.Ready? && b.Ready? {
      PutGroupsCommute(t.readiness, a.typ, a.ok, a.duration, b.typ, b.ok, b.duration);
    }
  }

  lemma FoldOfOneMore(es: seq<Entry>, e: Entry)
    ensures Fold(es + [e]) == Put(Fold(es), e)
  {
    assert (es + [e])[..|es|] == es;
  }

  lemma {:induction false} FoldMovesLast(a: seq<Entry>, e: Entry, b: seq<Entry>)
    ensures Fold(a + [e] + b) == Fold(a + b + [e])
    decreases |b|
  {
    hide Fold, Put;
    if b == [] {
      assert a + [e] + b == a + b + [e];
    } else {
      var c, f := b[..|b| - 1], b[|b| - 1];
      assert a + [e] + b == (a + [e] + c) + [f] && a + b == (a + c) + [f];
      FoldOfOneMore(a + [e] + c, f);
      FoldMovesLast(a, e, c);
      FoldOfOneMore(a + c, e);
      FoldOfOneMore(a + c, f);
      FoldOfOneMore(a + b, e);
      FoldIsProper(a + c);
      PutsCommute(Fold(a + c), e, f);
    }
  }

  /** What a collector holds depends on the entries only, not on their order. */
  lemma {:induction false} FoldIgnoresOrder(s: seq<Entry>, t: seq<Entry>)
    requires multiset(s) == multiset(t)
    ensures Fold(s) == Fold(t)
  {
    hide Fold;
    if s == [] {
      assert |multiset(t)| == 0;
    } else {
      var c, e := s[..|s| - 1], s[|s| - 1];
      assert s == c + [e] && e in multiset(t);
      var i :| 0 <= i < |t| && t[i] == e;
      var a, b := t[..i], t[i + 1..];
      assert t == a + [e] + b;
      WithoutOne(c, e, a, b);
      FoldIgnoresOrder(c, a + b);
      FoldMovesLast(a, e, b);
      FoldOfOneMore(a + b, e);
      FoldOfOneMore(c, e);
    }
  }

  predicate Good(e: Entry) { if e.Call? then e.success else e.ok }

  // The durations of the entries p holds of, in order.
  function DurationsOf(es: seq<Entry>, p: Entry -> bool): seq<int>
  {
    if es == [] then []
    else
      var e := es[|es| - 1];
      DurationsOf(es[..|es| - 1], p) + if p(e) then [e.duration] else []
  }

  lemma {:induction false} DurationsCount(es: seq<Entry>, p: Entry -> bool, v: int)
    ensures multiset(DurationsOf(es, p))[v] == Count(es, (e: Entry) => p(e) && e.duration == v)
  {
    if es != [] {
      DurationsCount(es[..|es| - 1], p, v);
    }
  }

  /** The group of the entries p holds of: how many there are, how many of them
      succeeded, and the histogram of their durations, in any order. */
  ghost predicate Groups(g: Group, es: seq<Entry>, p: Entry -> bool)
  {
    && g.attempted == Count(es, p)
    && g.succeeded == Count(es, (e: Entry) => p(e) && Good(e))
    && forall ds: seq<int> ::
         (forall v :: multiset(ds)[v] == Count(es, (e: Entry) => p(e) && e.duration == v)) ==>
           g.latency == Histograms.Fold(ds)
  }

  // A map of groups has one for each type that occurs, of the entries of that type.
  ghost predicate GroupsByType(m: map<string, Group>, es: seq<Entry>, p: Entry -> bool)
  {
    forall typ ::
      && (typ in m <==> Count(es, (e: Entry) => p(e) && e.typ == typ) > 0)
      && (typ in m ==> Groups(m[typ], es, (e: Entry) => p(e) && e.typ == typ))
  }

  /** What a collector holds of these entries. */
  ghost predicate Summarizes(t: Totals, es: seq<Entry>)
  {
    && Groups(t.overall, es, (e: Entry) => e.Call?)
    && GroupsByType(t.byType, es, (e: Entry) => e.Call?)
    && GroupsByType(t.readiness, es, (e: Entry) => e.Ready?)
    && forall k ::
         var n := Count(es, (e: Entry) => e.Call? && e.errKind == k);
         (k in t.errors <==> k != "" && n > 0) && (k in t.errors ==> t.errors[k] == n)
  }

  // The same with the durations in the order they came.
  ghost predicate GroupsInOrder(g: Group, es: seq<Entry>, p: Entry -> bool)
  {
    && g.attempted == Count(es, p)
    && g.succeeded == Count(es, (e: Entry) => p(e) && Good(e))
    && g.latency == Histograms.Fold(DurationsOf(es, p))
  }

  lemma OrderDoesNotMatter(g: Group, es: seq<Entry>, p: Entry -> bool)
    requires GroupsInOrder(g, es, p)
    ensures Groups(g, es, p)
  {
    forall ds: seq<int> | forall v :: multiset(ds)[v] == Count(es, (e: Entry) => p(e) && e.duration == v)
      ensures g.latency == Histograms.Fold(ds)
    {
      forall v
        ensures multiset(ds)[v] == multiset(DurationsOf(es, p))[v]
      {
        DurationsCount(es, p, v);
      }
      assert multiset(ds) == multiset(DurationsOf(es, p));
      Histograms.FoldIgnoresOrder(ds, DurationsOf(es, p));
    }
  }

  // One more entry of the group, and one more that is not.
  lemma OneMoreInGroup(g: Group, es: seq<Entry>, e: Entry, p: Entry -> bool)
    requires GroupsInOrder(g, es, p)
    ensures GroupsInOrder(if p(e) then AddTo(g, Good(e), e.duration) else g, es + [e], p)
  {
    var more := es + [e];
    assert more[..|es|] == es && more[|es|] == e;
    if p(e) {
      Histograms.FoldOfOneMore(DurationsOf(es, p), e.duration);
    } else {
      assert DurationsOf(es, p) + [] == DurationsOf(es, p);
    }
  }

  lemma NoneInGroup(p: Entry -> bool)
    ensures GroupsInOrder(NO_GROUP, [], p)
  {
  }

  lemma {:induction false} OverallIs(es: seq<Entry>)
    ensures GroupsInOrder(Fold(es).overall, es, (e: Entry) => e.Call?)
  {
    var p := (e: Entry) => e.Call?;
    hide GroupsInOrder, AddTo;
    if es == [] {
      NoneInGroup(p);
    } else {
      var n := |es| - 1;
      assert es == es[..n] + [es[n]];
      OverallIs(es[..n]);
      OneMoreInGroup(Fold(es[..n]).overall, es[..n], es[n], p);
    }
  }

  lemma {:induction false} ByTypeIs(es: seq<Entry>, typ: string)
    ensures var p := (e: Entry) => e.Call?;
            && GroupsInOrder(GroupOf(Fold(es).byType, typ), es, (e: Entry) => p(e) && e.typ == typ)
            && (typ in Fold(es).byType <==> Count(es, (e: Entry) => p(e) && e.typ == typ) > 0)
  {
    var ofKind := (e: Entry) => e.Call?;
    var p := (e: Entry) => ofKind(e) && e.typ == typ;
    hide GroupsInOrder, AddTo;
    if es == [] {
      NoneInGroup(p);
    } else {
      var n := |es| - 1;
      assert es == es[..n] + [es[n]];
      ByTypeIs(es[..n], typ);
      OneMoreInGroup(GroupOf(Fold(es[..n]).byType, typ), es[..n], es[n], p);
    }
  }

  lemma {:induction false} ReadinessIs(es: seq<Entry>, typ: string)
    ensures var p := (e: Entry) => e.Ready?;
            && GroupsInOrder(GroupOf(Fold(es).readiness, typ), es, (e: Entry) => p(e) && e.typ == typ)
            && (typ in Fold(es).readiness <==> Count(es, (e: Entry) => p(e) && e.typ == typ) > 0)
  {
    var ofKind := (e: Entry) => e.Ready?;
    var p := (e: Entry) => ofKind(e) && e.typ == typ;
    hide GroupsInOrder, AddTo;
    if es == [] {
      NoneInGroup(p);
    } else {
      var n := |es| - 1;
      assert es == es[..n] + [es[n]];
      ReadinessIs(es[..n], typ);
      OneMoreInGroup(GroupOf(Fold(es[..n]).readiness, typ), es[..n], es[n], p);
    }
  }

  lemma {:induction false} ErrorsAre(es: seq<Entry>, k: string)
    ensures var n := Count(es, (e: Entry) => e.Call? && e.errKind == k);
            (k in Fold(es).errors <==> k != "" && n > 0) && (k in Fold(es).errors ==> Fold(es).errors[k] == n)
  {
    if es != [] {
      ErrorsAre(es[..|es| - 1], k);
    }
  }

  /** A collector holds the counts and the histograms of the entries it took. */
  lemma FoldSummarizes(es: seq<Entry>)
    ensures Summarizes(Fold(es), es)
  {
    hide Fold, GroupsInOrder, Groups, GroupsByType, Count;
    OverallIs(es);
    OrderDoesNotMatter(Fold(es).overall, es, (e: Entry) => e.Call?);
    CallsByType(es);
    ReadinessByType(es);
    forall k
      ensures var n := Count(es, (e: Entry) => e.Call? && e.errKind == k);
              (k in Fold(es).errors <==> k != "" && n > 0) && (k in Fold(es).errors ==> Fold(es).errors[k] == n)
    {
      ErrorsAre(es, k);
    }
  }

  lemma CallsByType(es: seq<Entry>)
    ensures GroupsByType(Fold(es).byType, es, (e: Entry) => e.Call?)
  {
    hide Fold, GroupsInOrder, Groups, Count;
    var p := (e: Entry) => e.Call?;
    forall typ
      ensures typ in Fold(es).byType <==> Count(es, (e: Entry) => p(e) && e.typ == typ) > 0
      ensures typ in Fold(es).byType ==> Groups(Fold(es).byType[typ], es, (e: Entry) => p(e) && e.typ == typ)
    {
      ByTypeIs(es, typ);
      OrderDoesNotMatter(GroupOf(Fold(es).byType, typ), es, (e: Entry) => p(e) && e.typ == typ);
    }
  }

  lemma ReadinessByType(es: seq<Entry>)
    ensures GroupsByType(Fold(es).readiness, es, (e: Entry) => e.Ready?)
  {
    hide Fold, GroupsInOrder, Groups, Count;
    var p := (e: Entry) => e.Ready?;
    forall typ
      ensures typ in Fold(es).readiness <==> Count(es, (e: Entry) => p(e) && e.typ == typ) > 0
      ensures typ in Fold(es).readiness ==> Groups(Fold(es).readiness[typ], es, (e: Entry) => p(e) && e.typ == typ)
    {
      ReadinessIs(es, typ);
      OrderDoesNotMatter(GroupOf(Fold(es).readiness, typ), es, (e: Entry) => p(e) && e.typ == typ);
    }
  }

  lemma {:induction false} CallsSplit(es: seq<Entry>)
    ensures Count(es, (e: Entry) => e.Call?) ==
            Count(es, (e: Entry) => e.Call? && e.success) + Count(es, (e: Entry) => e.Call? && !e.success)
  {
    if es != [] {
      CallsSplit(es[..|es| - 1]);
    }
  }

  lemma GoodCalls(es: seq<Entry>)
    ensures var p := (e: Entry) => e.Call?;
            Count(es, (e: Entry) => p(e) && Good(e)) == Count(es, (e: Entry) => e.Call? && e.success)
  {
    var p := (e: Entry) => e.Call?;
    forall e | e in es
      ensures (p(e) && Good(e)) == (e.Call? && e.success)
    {
      assert p(e) == e.Call?;
    }
    CountsAgree(es, (e: Entry) => p(e) && Good(e), (e: Entry) => e.Call? && e.success);
  }

  /** One collector's critical sections. recorded is history: the entries it took. */
  class Collector {
    var overall: Group
    var byType: map<string, Group>
    var errors: map<string, nat>
    var readiness: map<string, Group>
    ghost var recorded: seq<Entry>

    function Value(): Totals
      reads this
    {
      Totals(overall, byType, errors, readiness)
    }

    ghost predicate Valid()
      reads this
    {
      Value() == Fold(recorded) && Summarizes(Value(), recorded)
    }

    constructor ()
      ensures Valid() && recorded == []
    {
      overall, byType, errors, readiness := NO_GROUP, map[], map[], map[];
      recorded := [];
      new;
      FoldSummarizes([]);
    }

    /** Record, up to the parent's turn. */
    method Record(typ: string, duration: int, success: bool, errKind: string)
      requires Valid()
      modifies this
      ensures Valid() && recorded == old(recorded) + [Call(typ, duration, success, errKind)]
    {
      hide Fold, Summarizes, AddTo, Histograms.With;
      ghost var e := Call(typ, duration, success, errKind);
      ghost var next := Put(Value(), e);
      overall := AddTo(overall, success, duration);
      var g := if typ in byType then byType[typ] else NO_GROUP;
      byType := byType[typ := AddTo(g, success, duration)];
      if errKind != "" {
        errors := errors[errKind := (if errKind in errors then errors[errKind] else 0) + 1];
      }
      assert Value() == next;
      Took(e);
    }

    // The entry joins those recorded.
    ghost method Took(e: Entry)
      requires Value() == Put(Fold(recorded), e)
      modifies this`recorded
      ensures Valid() && recorded == old(recorded) + [e] && Value() == old(Value())
    {
      FoldOfOneMore(recorded, e);
      recorded := recorded + [e];
      FoldSummarizes(recorded);
    }

    /** Snapshot. */
    method Snapshot() returns (attempted: nat, succeeded: nat, failed: int)
      requires Valid()
      ensures attempted == Count(recorded, (e: Entry) => e.Call?)
      ensures succeeded == Count(recorded, (e: Entry) => e.Call? && e.success)
      ensures failed == Count(recorded, (e: Entry) => e.Call? && !e.success)
    {
      attempted, succeeded, failed := overall.attempted, overall.succeeded, overall.attempted - overall.succeeded;
      GoodCalls(recorded);
      CallsSplit(recorded);
    }

    /** RecordReadiness, up to the parent's turn. */
    method RecordReadiness(typ: string, duration: int, ok: bool)
      requires Valid()
      modifies this
      ensures Valid() && recorded == old(recorded) + [Ready(typ, duration, ok)]
    {
      hide Fold, Summarizes, AddTo, Histograms.With;
      ghost var e := Ready(typ, duration, ok);
      ghost var next := Put(Value(), e);
      var g := if typ in readiness then readiness[typ] else NO_GROUP;
      readiness := readiness[typ := AddTo(g, ok, duration)];
      assert Value() == next;
      Took(e);
    }
  }

  // A Record call: made on collector origin, and at is the one whose lock it takes
  // next, None once it has reached the root.
  datatype Task = Task(origin: nat, at: Option<nat>, entry: Entry)

  /** The whole tree while calls are under way. A parent comes before its children.
      applied is history: the entries each collector took, in order. */
  datatype Tree = Tree(parents: seq<Option<nat>>, held: seq<Totals>, tasks: seq<Task>, applied: seq<seq<Entry>>)

  datatype Step = NewCollector | Child(of: nat) | Start(origin: nat, entry: Entry) | Advance(k: nat)

  predicate Rooted(parents: seq<Option<nat>>)
  {
    forall c :: 0 <= c < |parents| && parents[c].Some? ==> parents[c].value < c
  }

  // n is m or one of its ancestors.
  predicate Above(parents: seq<Option<nat>>, m: nat, n: nat)
    requires Rooted(parents) && m < |parents|
  {
    n == m || (parents[m].Some? && Above(parents, parents[m].value, n))
  }

  predicate Enabled(t: Tree, step: Step)
  {
    match step
    case NewCollector => true
    case Child(p) => p < |t.parents|
    case Start(n, _) => n < |t.parents|
    case Advance(k) => k < |t.tasks| && t.tasks[k].at.Some?
  }

  predicate Shaped(t: Tree)
  {
    && Rooted(t.parents) && |t.held| == |t.applied| == |t.parents|
    && forall k :: 0 <= k < |t.tasks| ==>
         t.tasks[k].origin < |t.parents| && (t.tasks[k].at.Some? ==> t.tasks[k].at.value < |t.parents|)
  }

  function Taken(t: Tree, step: Step): Tree
    requires Shaped(t) && Enabled(t, step)
  {
    match step
    case NewCollector => t.(parents := t.parents + [None], held := t.held + [NOTHING], applied := t.applied + [[]])
    case Child(p) => t.(parents := t.parents + [Some(p)], held := t.held + [NOTHING], applied := t.applied + [[]])
    case Start(n, e) => t.(tasks := t.tasks + [Task(n, Some(n), e)])
    case Advance(k) =>
      var m, e := t.tasks[k].at.value, t.tasks[k].entry;
      t.(held := t.held[m := Put(t.held[m], e)], applied := t.applied[m := t.applied[m] + [e]],
         tasks := t.tasks[k := t.tasks[k].(at := t.parents[m])])
  }

  // The task has been through collector n.
  predicate Passed(parents: seq<Option<nat>>, task: Task, n: nat)
    requires Rooted(parents) && task.origin < |parents| && (task.at.Some? ==> task.at.value < |parents|)
  {
    Above(parents, task.origin, n) && !(task.at.Some? && Above(parents, task.at.value, n))
  }

  predicate TasksFit(parents: seq<Option<nat>>, tasks: seq<Task>)
  {
    forall k :: 0 <= k < |tasks| ==>
      tasks[k].origin < |parents| && (tasks[k].at.Some? ==> tasks[k].at.value < |parents|)
  }

  function Mark(parents: seq<Option<nat>>, task: Task, n: nat): seq<Entry>
    requires Rooted(parents) && task.origin < |parents| && (task.at.Some? ==> task.at.value < |parents|)
  {
    if Passed(parents, task, n) then [task.entry] else []
  }

  // The entries of the tasks that have been through n.
  function Through(parents: seq<Option<nat>>, tasks: seq<Task>, n: nat): seq<Entry>
    requires Rooted(parents) && TasksFit(parents, tasks)
  {
    if tasks == [] then []
    else
      var last := tasks[|tasks| - 1];
      Through(parents, tasks[..|tasks| - 1], n) + Mark(parents, last, n)
  }

  // The entries recorded on n or below it.
  function Below(parents: seq<Option<nat>>, tasks: seq<Task>, n: nat): seq<Entry>
    requires Rooted(parents) && TasksFit(parents, tasks)
  {
    if tasks == [] then []
    else
      var last := tasks[|tasks| - 1];
      Below(parents, tasks[..|tasks| - 1], n) + if Above(parents, last.origin, n) then [last.entry] else []
  }

  ghost predicate Sound(t: Tree)
  {
    && Shaped(t)
    && (forall k :: 0 <= k < |t.tasks| && t.tasks[k].at.Some? ==>
          Above(t.parents, t.tasks[k].origin, t.tasks[k].at.value))
    && (forall n :: 0 <= n < |t.parents| ==>
          t.held[n] == Fold(t.applied[n]) && multiset(t.applied[n]) == multiset(Through(t.parents, t.tasks, n)))
  }

  lemma {:induction false} AboveIsEarlier(parents: seq<Option<nat>>, m: nat, n: nat)
    requires Rooted(parents) && m < |parents| && Above(parents, m, n)
    ensures n <= m
    decreases m
  {
    if n != m {
      AboveIsEarlier(parents, parents[m].value, n);
    }
  }

  lemma {:induction false} AboveInPrefix(parents: seq<Option<nat>>, p: Option<nat>, m: nat, n: nat)
    requires Rooted(parents) && m < |parents| && Rooted(parents + [p])
    ensures Above(parents + [p], m, n) == Above(parents, m, n)
    decreases m
  {
    if n != m && parents[m].Some? {
      AboveInPrefix(parents, p, parents[m].value, n);
    }
  }

  lemma {:induction false} ThroughInPrefix(parents: seq<Option<nat>>, p: Option<nat>, tasks: seq<Task>, n: nat)
    requires Rooted(parents) && TasksFit(parents, tasks) && Rooted(parents + [p])
    ensures TasksFit(parents + [p], tasks)
    ensures Through(parents + [p], tasks, n) == Through(parents, tasks, n)
    ensures n == |parents| ==> Through(parents, tasks, n) == []
  {
    if tasks != [] {
      var last := tasks[|tasks| - 1];
      ThroughInPrefix(parents, p, tasks[..|tasks| - 1], n);
      AboveInPrefix(parents, p, last.origin, n);
      if last.at.Some? {
        AboveInPrefix(parents, p, last.at.value, n);
      }
      if Above(parents, last.origin, n) {
        AboveIsEarlier(parents, last.origin, n);
      }
    }
  }

  lemma UpdateFits(parents: seq<Option<nat>>, tasks: seq<Task>, k: nat, task: Task)
    requires TasksFit(parents, tasks) && k < |tasks|
    requires task.origin < |parents| && (task.at.Some? ==> task.at.value < |parents|)
    ensures TasksFit(parents, tasks[k := task])
  {
  }

  lemma ThroughLast(parents: seq<Option<nat>>, tasks: seq<Task>, n: nat)
    requires Rooted(parents) && TasksFit(parents, tasks) && tasks != []
    ensures multiset(Through(parents, tasks, n)) ==
            multiset(Through(parents, tasks[..|tasks| - 1], n)) + multiset(Mark(parents, tasks[|tasks| - 1], n))
  {
  }

  // Replacing a task replaces what it adds to the entries that went through n.
  lemma {:induction false} ThroughOfUpdate(parents: seq<Option<nat>>, tasks: seq<Task>, n: nat, k: nat, task: Task)
    requires Rooted(parents) && TasksFit(parents, tasks) && k < |tasks|
    requires task.origin < |parents| && (task.at.Some? ==> task.at.value < |parents|)
    requires TasksFit(parents, tasks[k := task])
    ensures multiset(Through(parents, tasks[k := task], n)) + multiset(Mark(parents, tasks[k], n)) ==
            multiset(Through(parents, tasks, n)) + multiset(Mark(parents, task, n))
  {
    hide Through, Mark, Passed;
    var i := |tasks| - 1;
    var updated := tasks[k := task];
    ThroughLast(parents, tasks, n);
    ThroughLast(parents, updated, n);
    var was, now := multiset(Mark(parents, tasks[k], n)), multiset(Mark(parents, task, n));
    if k < i {
      assert updated[..i] == tasks[..i][k := task] && updated[i] == tasks[i];
      ThroughOfUpdate(parents, tasks[..i], n, k, task);
      SumsSwap(multiset(Through(parents, updated[..i], n)), multiset(Mark(parents, tasks[i], n)), was);
      SumsSwap(multiset(Through(parents, tasks[..i], n)), now, multiset(Mark(parents, tasks[i], n)));
    } else {
      assert updated[..i] == tasks[..i];
      SumsSwap(multiset(Through(parents, tasks[..i], n)), was, now);
    }
  }

  lemma SumsSwap(a: multiset<Entry>, b: multiset<Entry>, c: multiset<Entry>)
    ensures a + b + c == a + c + b
  {
  }

  lemma {:induction false} AboveIsTransitive(parents: seq<Option<nat>>, a: nat, b: nat, c: nat)
    requires Rooted(parents) && a < |parents| && b < |parents| && Above(parents, a, b) && Above(parents, b, c)
    ensures Above(parents, a, c)
    decreases a
  {
    if a != b {
      AboveIsTransitive(parents, parents[a].value, b, c);
    }
  }

  // A task that moves on has been through the collector it leaves, and through
  // the others it had been through before.
  lemma MovedPasses(t: Tree, k: nat, n: nat)
    requires Shaped(t) && k < |t.tasks| && t.tasks[k].at.Some? && n < |t.parents|
    requires Above(t.parents, t.tasks[k].origin, t.tasks[k].at.value)
    ensures var m := t.tasks[k].at.value;
            var moved := t.tasks[k].(at := t.parents[m]);
            (Passed(t.parents, moved, n) <==> Passed(t.parents, t.tasks[k], n) || n == m)
            && !Passed(t.parents, t.tasks[k], m)
  {
    var m := t.tasks[k].at.value;
    if Above(t.parents, m, n) {
      AboveIsTransitive(t.parents, t.tasks[k].origin, m, n);
    }
    if t.parents[m].Some? && Above(t.parents, t.parents[m].value, n) {
      AboveIsEarlier(t.parents, t.parents[m].value, n);
    }
  }

  lemma AdvanceCounts(t: Tree, k: nat, n: nat)
    requires Shaped(t) && k < |t.tasks| && t.tasks[k].at.Some? && n < |t.parents|
    requires Above(t.parents, t.tasks[k].origin, t.tasks[k].at.value)
    ensures var m := t.tasks[k].at.value;
            var moved := t.tasks[k].(at := t.parents[m]);
            && TasksFit(t.parents, t.tasks[k := moved])
            && multiset(Through(t.parents, t.tasks[k := moved], n)) ==
               multiset(Through(t.parents, t.tasks, n)) + if n == m then multiset{t.tasks[k].entry} else multiset{}
  {
    hide Above, Through, Passed;
    var m := t.tasks[k].at.value;
    var moved := t.tasks[k].(at := t.parents[m]);
    UpdateFits(t.parents, t.tasks, k, moved);
    MovedPasses(t, k, n);
    ThroughOfUpdate(t.parents, t.tasks, n, k, moved);
    if Passed(t.parents, t.tasks[k], n) {
      Cancel(multiset(Through(t.parents, t.tasks[k := moved], n)), multiset(Through(t.parents, t.tasks, n)),
             multiset{moved.entry});
    }
  }

  lemma Cancel(a: multiset<Entry>, b: multiset<Entry>, c: multiset<Entry>)
    ensures a + c == b + c ==> a == b
  {
    assert a == (a + c) - c;
    assert b == (b + c) - c;
  }

  lemma AdvanceKeepsSound(t: Tree, k: nat)
    requires Sound(t) && Enabled(t, Advance(k))
    ensures Sound(Taken(t, Advance(k)))
  {
    hide Fold, Put, Through;
    var u := Taken(t, Advance(k));
    var m, e := t.tasks[k].at.value, t.tasks[k].entry;
    if t.parents[m].Some? {
      AboveParent(t.parents, m);
      AboveIsTransitive(t.parents, t.tasks[k].origin, m, t.parents[m].value);
    }
    FoldOfOneMore(t.applied[m], e);
    forall n | 0 <= n < |t.parents|
      ensures u.held[n] == Fold(u.applied[n]) && multiset(u.applied[n]) == multiset(Through(u.parents, u.tasks, n))
    {
      AdvanceCounts(t, k, n);
    }
  }

  lemma AboveParent(parents: seq<Option<nat>>, m: nat)
    requires Rooted(parents) && m < |parents| && parents[m].Some?
    ensures Above(parents, m, parents[m].value)
  {
  }

  lemma StartKeepsSound(t: Tree, n: nat, e: Entry)
    requires Sound(t) && Enabled(t, Start(n, e))
    ensures Sound(Taken(t, Start(n, e)))
  {
    var u := Taken(t, Start(n, e));
    assert u.tasks[..|t.tasks|] == t.tasks;
    forall c | 0 <= c < |t.parents|
      ensures Through(u.parents, u.tasks, c) == Through(t.parents, t.tasks, c)
    {
      assert !Passed(t.parents, Task(n, Some(n), e), c);
    }
  }

  lemma GrowKeepsSound(t: Tree, p: Option<nat>)
    requires Sound(t) && (p.Some? ==> p.value < |t.parents|)
    ensures Sound(t.(parents := t.parents + [p], held := t.held + [NOTHING], applied := t.applied + [[]]))
  {
    var u := t.(parents := t.parents + [p], held := t.held + [NOTHING], applied := t.applied + [[]]);
    forall n | 0 <= n < |u.parents|
      ensures u.held[n] == Fold(u.applied[n]) && multiset(u.applied[n]) == multiset(Through(u.parents, u.tasks, n))
    {
      ThroughInPrefix(t.parents, p, t.tasks, n);
    }
    forall k | 0 <= k < |t.tasks| && t.tasks[k].at.Some?
      ensures Above(u.parents, t.tasks[k].origin, t.tasks[k].at.value)
    {
      AboveInPrefix(t.parents, p, t.tasks[k].origin, t.tasks[k].at.value);
    }
  }

  lemma StepKeepsSound(t: Tree, step: Step)
    requires Sound(t) && Enabled(t, step)
    ensures Sound(Taken(t, step))
  {
    match step
    case NewCollector => GrowKeepsSound(t, None);
    case Child(p) => GrowKeepsSound(t, Some(p));
    case Start(n, e) => StartKeepsSound(t, n, e);
    case Advance(k) => AdvanceKeepsSound(t, k);
  }

  /** The tree after any interleaving, None once a step is not possible. */
  ghost function Run(steps: seq<Step>): (r: Option<Tree>)
    ensures r.Some? ==> Sound(r.value)
  {
    if steps == [] then Some(Tree([], [], [], []))
    else
      match Run(steps[..|steps| - 1])
      case None => None
      case Some(t) =>
        var step := steps[|steps| - 1];
        if Enabled(t, step) then StepKeepsSound(t, step); Some(Taken(t, step)) else None
  }

  lemma {:induction false} QuietIsThrough(parents: seq<Option<nat>>, tasks: seq<Task>, n: nat)
    requires Rooted(parents) && TasksFit(parents, tasks) && forall k :: 0 <= k < |tasks| ==> tasks[k].at == None
    ensures Through(parents, tasks, n) == Below(parents, tasks, n)
  {
    if tasks != [] {
      QuietIsThrough(parents, tasks[..|tasks| - 1], n);
    }
  }

  /** Once no call is under way, every collector holds the fold of the entries
      recorded on it and on its descendants, in whatever order they came. */
  lemma ParentsHoldTheirChildren(steps: seq<Step>, t: Tree, n: nat, entries: seq<Entry>)
    requires Run(steps) == Some(t) && n < |t.parents| && forall k :: 0 <= k < |t.tasks| ==> t.tasks[k].at == None
    requires multiset(entries) == multiset(Below(t.parents, t.tasks, n))
    ensures t.held[n] == Fold(entries) && Summarizes(t.held[n], entries)
  {
    hide Summarizes;
    QuietIsThrough(t.parents, t.tasks, n);
    FoldIgnoresOrder(entries, t.applied[n]);
    FoldSummarizes(entries);
  }
}
