/** The fixed teardown order against a cloud that refuses to delete what something
    else still refers to. */
module Teardown {
  import opened Options

  datatype Kind = AddressScope | SubnetPool | Network | Router | SecurityGroup | Subnet | Port | Interface | FloatingIP

  // Who a port belongs to: nobody, or one of the cloud's own services (DHCP).
  datatype Owner = Nobody | Service

  // An object of the cloud, with the run its tag names and what it refers to.
  datatype Object = Object(kind: Kind, tag: Option<string>, owner: Owner, refs: set<nat>)

  type Objects = map<nat, Object>

  datatype Resource = Resource(kind: Kind, id: nat)

  datatype Reply = Deleted | NotFound | Conflict

  // The kinds an object of each kind may refer to.
  function Refers(k: Kind): set<Kind>
  {
    match k
    case AddressScope => {}
    case SubnetPool => {AddressScope}
    case Network => {}
    case Router => {}
    case SecurityGroup => {}
    case Subnet => {Network, SubnetPool}
    case Port => {Network, Subnet, SecurityGroup}
    case Interface => {Router, Subnet, Port, Network}
    case FloatingIP => {Port, Router}
  }

  // Deleting a network takes its subnets and the cloud's own ports on it along.
  predicate Cascades(objs: Objects, x: nat, y: nat)
  {
    x in objs && objs[x].kind == Network && y in objs && x in objs[y].refs
    && (objs[y].kind == Subnet || (objs[y].kind == Port && objs[y].owner == Service))
  }

  function Victims(objs: Objects, x: nat): set<nat>
  {
    {x} + set y | y in objs && Cascades(objs, x, y)
  }

  // Something that would stay refers to something that would go.
  predicate Pinned(objs: Objects, x: nat)
  {
    exists y :: y in objs && y !in Victims(objs, x) && exists v :: v in Victims(objs, x) && v in objs[y].refs
  }

  function Without(objs: Objects, gone: set<nat>): Objects { map x | x in objs && x !in gone :: objs[x] }

  predicate Tagged(o: Object, kind: Kind, run: string) { o.kind == kind && o.tag == Some(run) }

  predicate Sweepable(o: Object, network: nat) { o.kind == Port && o.owner == Nobody && network in o.refs }

  function Attached(objs: Objects, router: nat): set<nat>
  {
    set y | y in objs && objs[y].kind == Interface && router in objs[y].refs
  }

  /** The cloud, as cleanup's calls see it. */
  class Cloud {
    var objs: Objects

    // The ids in the cloud that satisfy keep, in some order.
    method List(keep: Object -> bool) returns (ids: seq<nat>)
      ensures forall x :: x in ids <==> x in objs && keep(objs[x])
    {
      ids := [];
      var left := objs.Keys;
      while left != {}
        invariant left <= objs.Keys
        invariant forall x :: x in ids <==> x in objs && x !in left && keep(objs[x])
      {
        var x :| x in left;
        if keep(objs[x]) {
          ids := ids + [x];
        }
        left := left - {x};
      }
    }

    method ListByTag(kind: Kind, run: string) returns (ids: seq<nat>)
      ensures forall x :: x in ids <==> x in objs && Tagged(objs[x], kind, run)
    {
      ids := List(o => Tagged(o, kind, run));
    }

    method Delete(x: nat) returns (r: Reply)
      modifies this
      ensures r == if x !in old(objs) then NotFound else if Pinned(old(objs), x) then Conflict else Deleted
      ensures objs == if r == Deleted then Without(old(objs), Victims(old(objs), x)) else old(objs)
    {
      if x !in objs {
        return NotFound;
      }
      if Pinned(objs, x) {
        return Conflict;
      }
      objs := Without(objs, Victims(objs, x));
      return Deleted;
    }

    // Removes every interface of a router.
    method DetachRouterInterfaces(router: nat)
      modifies this
      ensures objs == Without(old(objs), Attached(old(objs), router))
    {
      objs := Without(objs, Attached(objs, router));
    }
  }

  // An object on a network of the run that carries its tag.
  ghost predicate OnNetwork(b: Objects, run: string, y: nat)
    requires y in b
  {
    exists n :: n in b[y].refs && n in b && Tagged(b[n], Network, run)
  }

  ghost predicate OnRouter(b: Objects, run: string, y: nat)
    requires y in b
  {
    exists r :: r in b[y].refs && r in b && Tagged(b[r], Router, run)
  }

  /** What cleanup comes upon: an address scope by the record, an interface through
      its tagged router, a port or a subnet by its own tag or through its tagged
      network, and the rest by their tags. */
  ghost predicate Found(b: Objects, run: string, recorded: seq<Resource>, y: nat)
    requires y in b
  {
    match b[y].kind
    case AddressScope => Resource(AddressScope, y) in recorded
    case Interface => OnRouter(b, run, y)
    case Port => b[y].tag == Some(run) || OnNetwork(b, run, y)
    case Subnet => b[y].tag == Some(run) || OnNetwork(b, run, y)
    case _ => b[y].tag == Some(run)
  }

  // What cleanup does not delete itself: it detaches interfaces, and a network takes
  // along the subnets on it and the cloud's own ports.
  ghost predicate TakenAlong(b: Objects, run: string, y: nat)
    requires y in b
  {
    || b[y].kind == Interface
    || (OnNetwork(b, run, y)
        && (b[y].kind == Subnet || (b[y].kind == Port && b[y].owner == Service && b[y].tag != Some(run))))
  }

  // What is left of what cleanup deletes itself.
  ghost function Own(objs: Objects, b: Objects, run: string): set<nat>
  {
    set x | x in objs && x in b && !TakenAlong(b, run, x)
  }

  lemma OneLess(objs: Objects, b: Objects, run: string, lost: set<nat>, x: nat)
    requires x in objs && x in b && x in lost && !TakenAlong(b, run, x)
    requires forall y :: y in lost && y != x ==> y in b && TakenAlong(b, run, y)
    ensures |Own(Without(objs, lost), b, run)| + 1 == |Own(objs, b, run)|
  {
    hide TakenAlong;
    assert Own(objs, b, run) == Own(Without(objs, lost), b, run) + {x};
  }

  lemma NoneLess(objs: Objects, b: Objects, run: string, lost: set<nat>)
    requires forall y :: y in lost ==> y in b && TakenAlong(b, run, y)
    ensures Own(Without(objs, lost), b, run) == Own(objs, b, run)
  {
    hide TakenAlong;
  }

  ghost function FoundSet(b: Objects, run: string, recorded: seq<Resource>): set<nat>
  {
    set y | y in b && Found(b, run, recorded, y)
  }

  // Only objects of found refer to objects of found: nothing that stays pins
  // anything that goes.
  ghost predicate Loose(b: Objects, found: set<nat>)
  {
    forall y, x :: y in b && x in b[y].refs && x in found ==> y in found
  }

  // Only the run's objects refer to the run's objects, and as their kinds do.
  ghost predicate Typed(b: Objects, mine: set<nat>)
    requires mine <= b.Keys
  {
    forall y, x :: y in b && x in b[y].refs && x in mine ==> y in mine && b[x].kind in Refers(b[y].kind)
  }

  // A port of the cloud's own on a subnet is on the subnet's network.
  ghost predicate Aligned(b: Objects, mine: set<nat>)
    requires mine <= b.Keys
  {
    forall p, s :: p in mine && b[p].kind == Port && b[p].owner == Service && s in b[p].refs && s in mine
                   && b[s].kind == Subnet ==>
      forall n :: n in b[s].refs && n in mine && b[n].kind == Network ==> n in b[p].refs
  }

  /** The cloud after a run, mine being the run's objects: only they carry the run's
      tag or refer to one another, as their kinds do, and an address scope of the
      record that is there is the run's. */
  ghost predicate Scoped(b: Objects, run: string, mine: set<nat>, recorded: seq<Resource>)
  {
    && mine <= b.Keys && Typed(b, mine) && Aligned(b, mine)
    && (forall y :: y in b && b[y].tag == Some(run) ==> y in mine)
    && (forall x :: Resource(AddressScope, x) in recorded && x in b ==> x in mine && b[x].kind == AddressScope)
  }

  lemma FoundIsMine(b: Objects, run: string, mine: set<nat>, recorded: seq<Resource>)
    requires Scoped(b, run, mine, recorded)
    ensures FoundSet(b, run, recorded) <= mine <= b.Keys
  {
  }

  // What the teardown relies on: references to what is found are as their kinds
  // have them, and the cloud's own ports are where their subnets are.
  ghost predicate Fit(b: Objects, run: string, recorded: seq<Resource>)
  {
    var found := FoundSet(b, run, recorded);
    && (forall y, x :: y in b && x in b[y].refs && x in found ==> b[x].kind in Refers(b[y].kind))
    && (forall p, s, n :: (p in found && b[p].kind == Port && b[p].owner == Service && s in b[p].refs && s in found &&
                           b[s].kind == Subnet && n in b[s].refs && n in found &&
                           b[n].kind == Network) ==> n in b[p].refs)
    && (forall x :: Resource(AddressScope, x) in recorded && x in b ==> b[x].kind == AddressScope)
  }

  lemma ScopedIsFit(b: Objects, run: string, mine: set<nat>, recorded: seq<Resource>)
    requires Scoped(b, run, mine, recorded)
    ensures Fit(b, run, recorded)
  {
    FoundIsMine(b, run, mine, recorded);
    hide Refers, Found;
  }

  // The cloud part-way through: only objects of found of some kinds were touched,
  // those of the kinds in gone are all gone, and nothing refers to what is gone.
  ghost predicate Partway(objs: Objects, b: Objects, found: set<nat>, touched: set<Kind>, gone: set<Kind>)
  {
    && (forall x :: x in objs ==> x in b && objs[x] == b[x] && (x in found ==> b[x].kind !in gone))
    && (forall x :: x in b && (x !in found || b[x].kind !in touched) ==> x in objs)
    && (forall y, x :: y in objs && x in objs[y].refs && x in b ==> x in objs)
  }

  // Every kind that may refer to k is gone.
  predicate Clear(gone: set<Kind>, k: Kind) { forall j: Kind :: k in Refers(j) ==> j in gone }

  // What pins an object once everything found that may refer to it is gone, is
  // not found.
  lemma PinnedIsStuck(objs: Objects, b: Objects, run: string, recorded: seq<Resource>,
                      touched: set<Kind>, gone: set<Kind>, x: nat)
    requires Fit(b, run, recorded) && Partway(objs, b, FoundSet(b, run, recorded), touched, gone)
    requires x in objs && x in FoundSet(b, run, recorded) && objs[x].kind != Network && Clear(gone, objs[x].kind)
    ensures Victims(objs, x) == {x}
    ensures Pinned(objs, x) ==> !Loose(b, FoundSet(b, run, recorded))
  {
    hide Found, Refers;
    assert Victims(objs, x) == {x};
    if Pinned(objs, x) {
      var y :| y in objs && y !in Victims(objs, x) && exists v :: v in Victims(objs, x) && v in objs[y].refs;
      assert x in b[y].refs && b[y].kind in gone;
    }
  }

  lemma RemovalKeepsPartway(objs: Objects, b: Objects, found: set<nat>, touched: set<Kind>, gone: set<Kind>, x: nat)
    requires Partway(objs, b, found, touched, gone) && x in objs && x in found && objs[x].kind in touched
    requires Victims(objs, x) == {x} && !Pinned(objs, x)
    ensures Partway(Without(objs, {x}), b, found, touched, gone)
    ensures |Without(objs, {x})| == |objs| - 1
  {
    assert Without(objs, {x}).Keys == objs.Keys - {x};
    assert x in Victims(objs, x);
  }

  /** deleteResources, for a kind nothing found still refers to. All listed go and
      those already gone are not counted, unless one is in conflict, and then
      something that is not found pins something that is. */
  method DeleteResources(c: Cloud, ids: seq<nat>, k: Kind, ghost b: Objects, ghost run: string,
                         ghost recorded: seq<Resource>, ghost touched: set<Kind>, ghost gone: set<Kind>)
    returns (deleted: nat, ok: bool)
    requires Fit(b, run, recorded) && Partway(c.objs, b, FoundSet(b, run, recorded), touched, gone)
    requires k != Network && k in touched && Clear(gone, k)
    requires forall x :: x in ids && x in c.objs ==> x in FoundSet(b, run, recorded) && c.objs[x].kind == k
    requires forall x :: x in ids && x in c.objs ==> x in b && !TakenAlong(b, run, x)
    modifies c
    ensures Partway(c.objs, b, FoundSet(b, run, recorded), touched, gone)
    ensures !ok ==> !Loose(b, FoundSet(b, run, recorded))
    ensures ok ==> forall x :: x in c.objs <==> x in old(c.objs) && x !in ids
    ensures forall x :: x in c.objs ==> x in old(c.objs) && c.objs[x] == old(c.objs)[x]
    ensures deleted + |Own(c.objs, b, run)| == |Own(old(c.objs), b, run)|
  {
    hide Fit, Clear, Partway, Pinned, Victims, FoundSet, Loose, TakenAlong, Own;
    deleted, ok := 0, true;
    for i := 0 to |ids|
      invariant Partway(c.objs, b, FoundSet(b, run, recorded), touched, gone)
      invariant forall x :: x in c.objs <==> x in old(c.objs) && x !in ids[..i]
      invariant forall x :: x in c.objs ==> c.objs[x] == old(c.objs)[x]
      invariant deleted + |Own(c.objs, b, run)| == |Own(old(c.objs), b, run)|
    {
      var x := ids[i];
      assert x in ids && ids[..i + 1] == ids[..i] + [x];
      if x in c.objs {
        PinnedIsStuck(c.objs, b, run, recorded, touched, gone, x);
        if !Pinned(c.objs, x) {
          RemovalKeepsPartway(c.objs, b, FoundSet(b, run, recorded), touched, gone, x);
          OneLess(c.objs, b, run, {x}, x);
        }
      }
      var r := c.Delete(x);
      if r == Deleted {
        deleted := deleted + 1;
      } else if r != NotFound {
        return deleted, false;
      }
    }
    assert ids[..|ids|] == ids;
  }

  // Once all found ones of a kind are gone.
  lemma KindIsGone(objs: Objects, b: Objects, found: set<nat>, touched: set<Kind>, gone: set<Kind>, k: Kind)
    requires Partway(objs, b, found, touched, gone) && forall x :: x in objs && x in found ==> objs[x].kind != k
    ensures Partway(objs, b, found, touched, gone + {k})
  {
  }

  // What the tag finds of a kind is what is found, and for most kinds all of it.
  lemma TagFinds(objs: Objects, b: Objects, run: string, recorded: seq<Resource>,
                 touched: set<Kind>, gone: set<Kind>, k: Kind)
    requires Partway(objs, b, FoundSet(b, run, recorded), touched, gone) && k != AddressScope && k != Interface
    ensures forall x :: x in objs && Tagged(objs[x], k, run) ==> x in FoundSet(b, run, recorded) && objs[x].kind == k
    ensures k != Port && k != Subnet ==>
              forall x :: x in objs && x in FoundSet(b, run, recorded) && objs[x].kind == k ==> Tagged(objs[x], k, run)
  {
  }

  /** deleteKind: what carries the run's tag goes, unless a conflict stops it. */
  method DeleteKind(c: Cloud, k: Kind, run: string, ghost b: Objects,
                    ghost recorded: seq<Resource>, ghost touched: set<Kind>, ghost gone: set<Kind>)
    returns (deleted: nat, ok: bool)
    requires Fit(b, run, recorded) && Partway(c.objs, b, FoundSet(b, run, recorded), touched, gone)
    requires k !in {Network, AddressScope, Interface} && k in touched && Clear(gone, k)
    requires k == Subnet ==> forall x :: x in c.objs && x in b ==> !OnNetwork(b, run, x)
    modifies c
    ensures Partway(c.objs, b, FoundSet(b, run, recorded), touched, gone)
    ensures !ok ==> !Loose(b, FoundSet(b, run, recorded))
    ensures ok ==> forall x :: x in c.objs <==> x in old(c.objs) && !Tagged(old(c.objs)[x], k, run)
    ensures ok && k != Port && k != Subnet ==> Partway(c.objs, b, FoundSet(b, run, recorded), touched, gone + {k})
    ensures deleted + |Own(c.objs, b, run)| == |Own(old(c.objs), b, run)|
  {
    hide Fit, Clear, Partway, Tagged, FoundSet, Loose, TakenAlong, Own, OnNetwork;
    ghost var before := c.objs;
    var ids := c.ListByTag(k, run);
    TagFinds(before, b, run, recorded, touched, gone, k);
    TaggedIsOwn(before, b, run, FoundSet(b, run, recorded), touched, gone, k);
    deleted, ok := DeleteResources(c, ids, k, b, run, recorded, touched, gone);
    PartwayAgrees(before, c.objs, b, FoundSet(b, run, recorded), touched, gone);
    if ok && k != Port && k != Subnet {
      KindIsGone(c.objs, b, FoundSet(b, run, recorded), touched, gone, k);
    }
  }

  // What the tag finds is not taken along.
  lemma TaggedIsOwn(objs: Objects, b: Objects, run: string, found: set<nat>,
                    touched: set<Kind>, gone: set<Kind>, k: Kind)
    requires Partway(objs, b, found, touched, gone) && k != Interface
    requires k == Subnet ==> forall x :: x in objs && x in b ==> !OnNetwork(b, run, x)
    ensures forall x :: x in objs && Tagged(objs[x], k, run) ==> x in b && !TakenAlong(b, run, x)
  {
  }

  lemma PartwayAgrees(before: Objects, objs: Objects, b: Objects, found: set<nat>, touched: set<Kind>, gone: set<Kind>)
    requires Partway(before, b, found, touched, gone) && Partway(objs, b, found, touched, gone)
    ensures forall x :: x in objs && x in before ==> objs[x] == before[x]
  {
  }

  // Removing found objects that nothing left refers to.
  lemma SweepKeepsPartway(objs: Objects, b: Objects, found: set<nat>, touched: set<Kind>, gone: set<Kind>,
                          lost: set<nat>)
    requires Partway(objs, b, found, touched, gone)
    requires forall x :: x in lost && x in objs ==> x in found && objs[x].kind in touched
    requires forall y, x :: y in objs && y !in lost && x in objs[y].refs && x in objs ==> x !in lost
    ensures Partway(Without(objs, lost), b, found, touched, gone)
  {
  }

  // Detaching a tagged router's interfaces takes found interfaces only, and nothing
  // refers to an interface.
  lemma DetachKeepsPartway(objs: Objects, b: Objects, run: string, recorded: seq<Resource>,
                           touched: set<Kind>, gone: set<Kind>, r: nat)
    requires Fit(b, run, recorded) && Partway(objs, b, FoundSet(b, run, recorded), touched, gone)
    requires Interface in touched && r in b && Tagged(b[r], Router, run)
    ensures Partway(Without(objs, Attached(objs, r)), b, FoundSet(b, run, recorded), touched, gone)
  {
    AttachedAreFound(objs, b, run, recorded, touched, gone, r);
    InterfacesAreFree(objs, b, run, recorded, touched, gone, Attached(objs, r));
    hide Fit, FoundSet, Attached;
    SweepKeepsPartway(objs, b, FoundSet(b, run, recorded), touched, gone, Attached(objs, r));
  }

  lemma InterfacesAreFree(objs: Objects, b: Objects, run: string, recorded: seq<Resource>,
                          touched: set<Kind>, gone: set<Kind>, lost: set<nat>)
    requires Fit(b, run, recorded) && Partway(objs, b, FoundSet(b, run, recorded), touched, gone)
    requires forall x :: x in lost ==> x in FoundSet(b, run, recorded) && b[x].kind == Interface
    ensures forall y, x :: y in objs && x in objs[y].refs ==> x !in lost
  {
    hide Found, Refers;
    NothingRefersToInterfaces();
    forall y, x | y in objs && x in objs[y].refs
      ensures x !in lost
    {
      assert x in FoundSet(b, run, recorded) ==> b[x].kind in Refers(b[y].kind);
    }
  }

  lemma AttachedAreFound(objs: Objects, b: Objects, run: string, recorded: seq<Resource>,
                         touched: set<Kind>, gone: set<Kind>, r: nat)
    requires Partway(objs, b, FoundSet(b, run, recorded), touched, gone) && r in b && Tagged(b[r], Router, run)
    ensures forall x :: x in Attached(objs, r) ==> x in FoundSet(b, run, recorded) && b[x].kind == Interface
  {
    forall x | x in Attached(objs, r)
      ensures x in FoundSet(b, run, recorded) && b[x].kind == Interface
    {
      assert OnRouter(b, run, x);
    }
  }

  lemma AttachedAreTaken(objs: Objects, b: Objects, run: string, recorded: seq<Resource>,
                         touched: set<Kind>, gone: set<Kind>, r: nat)
    requires Partway(objs, b, FoundSet(b, run, recorded), touched, gone)
    ensures forall x :: x in Attached(objs, r) ==> x in b && TakenAlong(b, run, x)
  {
    hide Found, FoundSet;
  }

  lemma NothingRefersToInterfaces()
    ensures forall k: Kind :: Interface !in Refers(k)
  {
  }

  // Detaches every tagged router's interfaces.
  method DetachAll(c: Cloud, routers: seq<nat>, ghost b: Objects, ghost run: string,
                   ghost recorded: seq<Resource>, ghost touched: set<Kind>, ghost gone: set<Kind>)
    requires Fit(b, run, recorded) && Partway(c.objs, b, FoundSet(b, run, recorded), touched, gone)
    requires Interface in touched && forall x :: x in routers <==> x in b && Tagged(b[x], Router, run)
    modifies c
    ensures Partway(c.objs, b, FoundSet(b, run, recorded), touched, gone + {Interface})
    ensures Own(c.objs, b, run) == Own(old(c.objs), b, run)
  {
    hide Fit, Tagged, Partway, FoundSet, TakenAlong, Own;
    for i := 0 to |routers|
      invariant Partway(c.objs, b, FoundSet(b, run, recorded), touched, gone)
      invariant Own(c.objs, b, run) == Own(old(c.objs), b, run)
      invariant forall x, k :: x in c.objs && 0 <= k < i && c.objs[x].kind == Interface ==>
                  routers[k] !in c.objs[x].refs
    {
      var r := routers[i];
      assert r in routers;
      DetachKeepsPartway(c.objs, b, run, recorded, touched, gone, r);
      AttachedAreTaken(c.objs, b, run, recorded, touched, gone, r);
      NoneLess(c.objs, b, run, Attached(c.objs, r));
      c.DetachRouterInterfaces(r);
    }
    assert forall r :: r in routers ==> exists k :: 0 <= k < |routers| && routers[k] == r;
    InterfacesAreGone(c.objs, b, run, recorded, touched, gone, routers);
  }

  lemma InterfacesAreGone(objs: Objects, b: Objects, run: string, recorded: seq<Resource>,
                          touched: set<Kind>, gone: set<Kind>, routers: seq<nat>)
    requires Partway(objs, b, FoundSet(b, run, recorded), touched, gone)
    requires forall x :: x in routers <==> x in b && Tagged(b[x], Router, run)
    requires forall x, r :: x in objs && r in routers && objs[x].kind == Interface ==> r !in objs[x].refs
    ensures Partway(objs, b, FoundSet(b, run, recorded), touched, gone + {Interface})
  {
    forall x | x in objs && objs[x].kind == Interface
      ensures !OnRouter(b, run, x)
    {
      assert objs[x] == b[x];
    }
    KindIsGone(objs, b, FoundSet(b, run, recorded), touched, gone, Interface);
  }

  // The networks the run's tag finds, all of them still there when listed.
  ghost predicate Networks(b: Objects, run: string, nets: seq<nat>)
  {
    forall n :: n in nets <==> n in b && Tagged(b[n], Network, run)
  }

  // A plain port that is found is still there only if it carries no tag and is on
  // none of the networks swept so far.
  ghost predicate Swept(objs: Objects, found: set<nat>, run: string, swept: seq<nat>)
  {
    forall x :: x in objs && x in found && objs[x].kind == Port && objs[x].owner == Nobody ==>
      objs[x].tag != Some(run) && forall n :: n in swept ==> n !in objs[x].refs
  }

  // Of the found ports only the cloud's own are left.
  ghost predicate PlainGone(objs: Objects, found: set<nat>)
  {
    forall x :: x in objs && x in found && objs[x].kind == Port ==> objs[x].owner == Service
  }

  /** DeleteNetworkPorts, on every tagged network: the plain ports on it go, tagged
      or not, unless a conflict stops it. */
  method SweepPorts(c: Cloud, nets: seq<nat>, ghost b: Objects, ghost run: string,
                    ghost recorded: seq<Resource>, ghost touched: set<Kind>, ghost gone: set<Kind>)
    returns (deleted: nat, ok: bool)
    requires Fit(b, run, recorded) && Partway(c.objs, b, FoundSet(b, run, recorded), touched, gone)
    requires Networks(b, run, nets) && Port in touched && Clear(gone, Port)
    requires Swept(c.objs, FoundSet(b, run, recorded), run, [])
    modifies c
    ensures Partway(c.objs, b, FoundSet(b, run, recorded), touched, gone)
    ensures !ok ==> !Loose(b, FoundSet(b, run, recorded))
    ensures ok ==> PlainGone(c.objs, FoundSet(b, run, recorded))
    ensures forall x :: x in c.objs ==> x in old(c.objs) && c.objs[x] == old(c.objs)[x]
    ensures deleted + |Own(c.objs, b, run)| == |Own(old(c.objs), b, run)|
  {
    hide Fit, Clear, Partway, Networks, FoundSet, Loose, Swept, PlainGone, TakenAlong, Own;
    deleted, ok := 0, true;
    for i := 0 to |nets|
      invariant Partway(c.objs, b, FoundSet(b, run, recorded), touched, gone)
      invariant Swept(c.objs, FoundSet(b, run, recorded), run, nets[..i])
      invariant forall x :: x in c.objs ==> x in old(c.objs) && c.objs[x] == old(c.objs)[x]
      invariant deleted + |Own(c.objs, b, run)| == |Own(old(c.objs), b, run)|
    {
      var net := nets[i];
      ghost var before := c.objs;
      var ids := c.List(o => Sweepable(o, net));
      SweepableAreFound(before, b, run, recorded, touched, gone, nets, i);
      var n;
      n, ok := DeleteResources(c, ids, Port, b, run, recorded, touched, gone);
      PartwayAgrees(before, c.objs, b, FoundSet(b, run, recorded), touched, gone);
      deleted := deleted + n;
      if !ok {
        return;
      }
      SweptOneMore(before, c.objs, FoundSet(b, run, recorded), run, nets, i);
    }
    assert nets[..|nets|] == nets;
    PlainPortsAreGone(c.objs, b, run, recorded, touched, gone, nets);
  }

  lemma SweptOneMore(before: Objects, objs: Objects, found: set<nat>, run: string, nets: seq<nat>, i: nat)
    requires i < |nets| && Swept(before, found, run, nets[..i])
    requires forall x :: x in objs ==> x in before && objs[x] == before[x] && !Sweepable(objs[x], nets[i])
    ensures Swept(objs, found, run, nets[..i + 1])
  {
    assert nets[..i + 1] == nets[..i] + [nets[i]];
  }

  lemma SweepableAreFound(objs: Objects, b: Objects, run: string, recorded: seq<Resource>,
                          touched: set<Kind>, gone: set<Kind>, nets: seq<nat>, i: nat)
    requires Partway(objs, b, FoundSet(b, run, recorded), touched, gone) && Networks(b, run, nets) && i < |nets|
    ensures forall x :: x in objs && Sweepable(objs[x], nets[i]) ==>
              x in FoundSet(b, run, recorded) && objs[x].kind == Port && x in b && !TakenAlong(b, run, x)
  {
    assert nets[i] in nets;
    forall x | x in objs && Sweepable(objs[x], nets[i])
      ensures OnNetwork(b, run, x)
    {
      assert objs[x] == b[x];
    }
  }

  lemma PlainPortsAreGone(objs: Objects, b: Objects, run: string, recorded: seq<Resource>,
                          touched: set<Kind>, gone: set<Kind>, nets: seq<nat>)
    requires Partway(objs, b, FoundSet(b, run, recorded), touched, gone) && Networks(b, run, nets)
    requires Swept(objs, FoundSet(b, run, recorded), run, nets)
    ensures PlainGone(objs, FoundSet(b, run, recorded))
  {
    forall x | x in objs && x in FoundSet(b, run, recorded) && objs[x].kind == Port
      ensures objs[x].owner == Service
    {
      assert objs[x] == b[x] && (b[x].tag == Some(run) || OnNetwork(b, run, x));
    }
  }

  // What pins a network once floating IPs, interfaces and plain ports are gone, and
  // what its delete takes along does not, is not found.
  lemma NetworkIsStuck(objs: Objects, b: Objects, run: string, recorded: seq<Resource>,
                       touched: set<Kind>, gone: set<Kind>, n: nat)
    requires Fit(b, run, recorded) && Partway(objs, b, FoundSet(b, run, recorded), touched, gone)
    requires {FloatingIP, Interface} <= gone && PlainGone(objs, FoundSet(b, run, recorded))
    requires n in objs && Tagged(objs[n], Network, run)
    ensures forall x :: x in Victims(objs, n) ==>
              x in objs && x in FoundSet(b, run, recorded) && objs[x].kind in {Network, Subnet, Port}
    ensures Pinned(objs, n) ==> !Loose(b, FoundSet(b, run, recorded))
  {
    hide Found, FoundSet, Fit, Refers, Victims, PlainGone;
    VictimsAreFound(objs, b, run, recorded, touched, gone, n);
    if Pinned(objs, n) {
      var y, v :| y in objs && y !in Victims(objs, n) && v in Victims(objs, n) && v in objs[y].refs;
      assert y in FoundSet(b, run, recorded) ==> y in Victims(objs, n) by {
        if y in FoundSet(b, run, recorded) {
          FoundPinsNothing(objs, b, run, recorded, touched, gone, n, y, v);
        }
      }
      assert y in b && v in b[y].refs;
    }
  }

  lemma VictimsAreFound(objs: Objects, b: Objects, run: string, recorded: seq<Resource>,
                        touched: set<Kind>, gone: set<Kind>, n: nat)
    requires Partway(objs, b, FoundSet(b, run, recorded), touched, gone) && n in objs && Tagged(objs[n], Network, run)
    ensures n in Victims(objs, n)
    ensures forall x :: x in Victims(objs, n) ==>
              x in objs && x in FoundSet(b, run, recorded) && objs[x].kind in {Network, Subnet, Port}
  {
    forall x | x in Victims(objs, n) && x != n
      ensures OnNetwork(b, run, x)
    {
      assert objs[x] == b[x] && objs[n] == b[n];
    }
  }

  // A found object that refers to a victim is a victim.
  lemma FoundPinsNothing(objs: Objects, b: Objects, run: string, recorded: seq<Resource>,
                         touched: set<Kind>, gone: set<Kind>, n: nat, y: nat, v: nat)
    requires Fit(b, run, recorded) && Partway(objs, b, FoundSet(b, run, recorded), touched, gone)
    requires {FloatingIP, Interface} <= gone && PlainGone(objs, FoundSet(b, run, recorded))
    requires n in objs && objs[n].kind == Network && n in FoundSet(b, run, recorded)
    requires v in Victims(objs, n) && v in FoundSet(b, run, recorded)
    requires y in objs && y in FoundSet(b, run, recorded) && v in objs[y].refs
    ensures y in Victims(objs, n)
  {
    hide Found;
    assert b[v].kind in Refers(b[y].kind) && b[y].kind !in gone;
    if v != n {
      assert n in b[v].refs;
    }
  }

  // Deleting a network that nothing pins keeps what the teardown relies on.
  lemma NetworkDeleteKeepsPartway(objs: Objects, b: Objects, run: string, recorded: seq<Resource>,
                                  touched: set<Kind>, gone: set<Kind>, n: nat)
    requires Fit(b, run, recorded) && Partway(objs, b, FoundSet(b, run, recorded), touched, gone)
    requires {Network, Subnet, Port} <= touched && {FloatingIP, Interface} <= gone
    requires PlainGone(objs, FoundSet(b, run, recorded)) && n in objs && Tagged(objs[n], Network, run)
    requires forall x :: x in objs ==> !Tagged(objs[x], Port, run)
    ensures Pinned(objs, n) ==> !Loose(b, FoundSet(b, run, recorded))
    ensures !Pinned(objs, n) ==>
              var t := Without(objs, Victims(objs, n));
              && Partway(t, b, FoundSet(b, run, recorded), touched, gone) && n !in t
              && PlainGone(t, FoundSet(b, run, recorded))
              && |Own(t, b, run)| + 1 == |Own(objs, b, run)|
  {
    hide Fit, FoundSet, Loose, Partway, Victims, TakenAlong, Own;
    NetworkIsStuck(objs, b, run, recorded, touched, gone, n);
    if !Pinned(objs, n) {
      SweepKeepsPartway(objs, b, FoundSet(b, run, recorded), touched, gone, Victims(objs, n));
      VictimsHold(objs, n);
      VictimsAreTaken(objs, b, run, FoundSet(b, run, recorded), touched, gone, n);
      OneLess(objs, b, run, Victims(objs, n), n);
    }
  }

  lemma VictimsAreTaken(objs: Objects, b: Objects, run: string, found: set<nat>,
                        touched: set<Kind>, gone: set<Kind>, n: nat)
    requires Partway(objs, b, found, touched, gone) && n in objs && Tagged(objs[n], Network, run)
    requires forall x :: x in objs ==> !Tagged(objs[x], Port, run)
    ensures n in b && !TakenAlong(b, run, n)
    ensures forall x :: x in Victims(objs, n) && x != n ==> x in b && TakenAlong(b, run, x)
  {
    forall x | x in Victims(objs, n) && x != n
      ensures x in b && TakenAlong(b, run, x)
    {
      assert objs[x] == b[x] && objs[n] == b[n] && !Tagged(objs[x], Port, run);
      assert OnNetwork(b, run, x);
    }
  }

  lemma VictimsHold(objs: Objects, n: nat)
    ensures n in Victims(objs, n)
  {
  }

  // With the networks gone, so are the subnets on them and all ports found.
  lemma NetworksTakeAll(objs: Objects, b: Objects, run: string, recorded: seq<Resource>,
                        touched: set<Kind>, gone: set<Kind>, nets: seq<nat>)
    requires Partway(objs, b, FoundSet(b, run, recorded), touched, gone) && Networks(b, run, nets)
    requires forall n :: n in nets ==> n !in objs
    requires PlainGone(objs, FoundSet(b, run, recorded)) && forall x :: x in objs ==> !Tagged(objs[x], Port, run)
    ensures Partway(objs, b, FoundSet(b, run, recorded), touched, gone + {Network} + {Port})
    ensures forall x :: x in objs ==> !OnNetwork(b, run, x)
  {
    forall x | x in objs
      ensures !OnNetwork(b, run, x)
      ensures x in FoundSet(b, run, recorded) ==> objs[x].kind != Network && objs[x].kind != Port
    {
      assert objs[x] == b[x];
      assert forall n :: n in b[x].refs && n in b ==> n in objs && n !in nets;
    }
    KindIsGone(objs, b, FoundSet(b, run, recorded), touched, gone, Network);
    KindIsGone(objs, b, FoundSet(b, run, recorded), touched, gone + {Network}, Port);
  }

  /** deleteResources on the networks: each delete takes the subnets and the
      cloud's own ports along, unless one is in conflict. */
  method DeleteNetworks(c: Cloud, nets: seq<nat>, ghost b: Objects, ghost run: string,
                        ghost recorded: seq<Resource>, ghost touched: set<Kind>, ghost gone: set<Kind>)
    returns (deleted: nat, ok: bool)
    requires Fit(b, run, recorded) && Partway(c.objs, b, FoundSet(b, run, recorded), touched, gone)
    requires Networks(b, run, nets) && {Network, Subnet, Port} <= touched && {FloatingIP, Interface} <= gone
    requires PlainGone(c.objs, FoundSet(b, run, recorded)) && forall x :: x in c.objs ==> !Tagged(c.objs[x], Port, run)
    modifies c
    ensures Partway(c.objs, b, FoundSet(b, run, recorded), touched, gone)
    ensures !ok ==> !Loose(b, FoundSet(b, run, recorded))
    ensures ok ==> Partway(c.objs, b, FoundSet(b, run, recorded), touched, gone + {Network} + {Port})
    ensures ok ==> forall x :: x in c.objs ==> x in b && !OnNetwork(b, run, x)
    ensures deleted + |Own(c.objs, b, run)| == |Own(old(c.objs), b, run)|
  {
    hide Fit, Networks, Pinned, Victims, Partway, FoundSet, Loose, PlainGone, Tagged, OnNetwork, TakenAlong, Own;
    deleted, ok := 0, true;
    for i := 0 to |nets|
      invariant Partway(c.objs, b, FoundSet(b, run, recorded), touched, gone)
      invariant forall n :: n in nets[..i] ==> n !in c.objs
      invariant forall x :: x in c.objs ==> x in old(c.objs) && c.objs[x] == old(c.objs)[x]
      invariant PlainGone(c.objs, FoundSet(b, run, recorded))
      invariant deleted + |Own(c.objs, b, run)| == |Own(old(c.objs), b, run)|
    {
      var n := nets[i];
      assert n in nets && nets[..i + 1] == nets[..i] + [n];
      if n in c.objs {
        ListedIsTagged(c.objs, b, run, FoundSet(b, run, recorded), touched, gone, nets, n);
        NetworkDeleteKeepsPartway(c.objs, b, run, recorded, touched, gone, n);
      }
      var r := c.Delete(n);
      if r == Deleted {
        deleted := deleted + 1;
      } else if r != NotFound {
        return deleted, false;
      }
    }
    assert nets[..|nets|] == nets;
    NetworksTakeAll(c.objs, b, run, recorded, touched, gone, nets);
    AllAreThere(c.objs, b, FoundSet(b, run, recorded), touched, gone);
  }

  lemma ListedIsTagged(objs: Objects, b: Objects, run: string, found: set<nat>,
                       touched: set<Kind>, gone: set<Kind>, nets: seq<nat>, n: nat)
    requires Partway(objs, b, found, touched, gone) && Networks(b, run, nets) && n in nets && n in objs
    ensures Tagged(objs[n], Network, run)
  {
  }

  lemma AllAreThere(objs: Objects, b: Objects, found: set<nat>, touched: set<Kind>, gone: set<Kind>)
    requires Partway(objs, b, found, touched, gone)
    ensures forall x :: x in objs ==> x in b && objs[x] == b[x]
  {
  }

  function RecordedOfKind(recorded: seq<Resource>, k: Kind): (ids: seq<nat>)
    ensures forall x :: x in ids <==> Resource(k, x) in recorded
  {
    if recorded == [] then []
    else
      var n := |recorded| - 1;
      assert recorded == recorded[..n] + [recorded[n]];
      RecordedOfKind(recorded[..n], k) + if recorded[n].kind == k then [recorded[n].id] else []
  }

  // Which kinds are free once others are gone.
  lemma ClearKinds(gone: set<Kind>)
    ensures Clear(gone, FloatingIP)
    ensures {FloatingIP, Interface} <= gone ==> Clear(gone, Port) && Clear(gone, Router)
    ensures {Port} <= gone ==> Clear(gone, SecurityGroup)
    ensures {Port, Interface} <= gone ==> Clear(gone, Subnet)
    ensures {Subnet} <= gone ==> Clear(gone, SubnetPool)
    ensures {SubnetPool} <= gone ==> Clear(gone, AddressScope)
  {
  }

  function Early(): set<Kind> { {FloatingIP, Interface, Port} }

  function Every(): set<Kind>
  {
    {AddressScope, SubnetPool, Network, Router, SecurityGroup, Subnet, Port, Interface, FloatingIP}
  }

  lemma StartsPartway(b: Objects, found: set<nat>)
    ensures Partway(b, b, found, Early(), {})
  {
  }

  lemma EarlyToEvery(objs: Objects, b: Objects, found: set<nat>, gone: set<Kind>)
    requires Partway(objs, b, found, Early(), gone)
    ensures Partway(objs, b, found, Every(), gone)
  {
  }

  // Networks and routers are not touched early, so the tag still finds them all.
  lemma TagFindsAllOf(objs: Objects, b: Objects, run: string, found: set<nat>, gone: set<Kind>, k: Kind, ids: seq<nat>)
    requires Partway(objs, b, found, Early(), gone) && k !in Early()
    requires forall x :: x in ids <==> x in objs && Tagged(objs[x], k, run)
    ensures forall x :: x in ids <==> x in b && Tagged(b[x], k, run)
  {
  }

  lemma NoneTaggedIsSwept(objs: Objects, found: set<nat>, run: string)
    requires forall x :: x in objs ==> !Tagged(objs[x], Port, run)
    ensures Swept(objs, found, run, [])
  {
  }

  lemma ScopesAreRecorded(objs: Objects, b: Objects, run: string, recorded: seq<Resource>,
                          touched: set<Kind>, gone: set<Kind>)
    requires Fit(b, run, recorded) && Partway(objs, b, FoundSet(b, run, recorded), touched, gone)
    ensures forall x :: Resource(AddressScope, x) in recorded && x in objs ==>
              x in FoundSet(b, run, recorded) && objs[x].kind == AddressScope && x in b && !TakenAlong(b, run, x)
    ensures forall x :: x in objs && x in FoundSet(b, run, recorded) && objs[x].kind == AddressScope ==>
              Resource(AddressScope, x) in recorded
  {
  }

  // Tagged subnets gone, and those on tagged networks: none that is found is left.
  lemma SubnetsAreGone(objs: Objects, b: Objects, run: string, recorded: seq<Resource>, touched: set<Kind>,
                       gone: set<Kind>)
    requires Partway(objs, b, FoundSet(b, run, recorded), touched, gone)
    requires forall x :: x in objs ==> x in b && !OnNetwork(b, run, x) && !Tagged(objs[x], Subnet, run)
    ensures Partway(objs, b, FoundSet(b, run, recorded), touched, gone + {Subnet})
  {
    forall x | x in objs && x in FoundSet(b, run, recorded)
      ensures objs[x].kind != Subnet
    {
      assert objs[x] == b[x] && !OnNetwork(b, run, x);
    }
    KindIsGone(objs, b, FoundSet(b, run, recorded), touched, gone, Subnet);
  }

  lemma EveryKind(gone: set<Kind>)
    requires Every() <= gone
    ensures forall k: Kind :: k in gone
  {
    forall k: Kind
      ensures k in Every()
    {
      match k
      case AddressScope => case SubnetPool => case Network => case Router => case SecurityGroup =>
      case Subnet => case Port => case Interface => case FloatingIP =>
    }
  }

  // With all that is found gone, what stays is the rest, and nothing of the rest
  // refers to what is gone.
  lemma AllGone(objs: Objects, b: Objects, found: set<nat>, gone: set<Kind>)
    requires found <= b.Keys && Partway(objs, b, found, Every(), gone) && forall k: Kind :: k in gone
    ensures objs == Without(b, found) && Loose(b, found)
  {
    assert forall x :: x in objs ==> x !in found;
    assert forall x :: x in b && x !in found ==> x in objs && objs[x] == b[x];
    assert objs == Without(b, found);
  }

  // Cleanup up to the ports: floating IPs, router interfaces, and then every plain
  // port, by tag or on a network of the run.
  method CleanPorts(c: Cloud, run: string, ghost recorded: seq<Resource>)
    returns (deleted: nat, ok: bool, routers: seq<nat>, nets: seq<nat>)
    requires Fit(c.objs, run, recorded)
    modifies c
    ensures Partway(c.objs, old(c.objs), FoundSet(old(c.objs), run, recorded), Early(), {})
    ensures !ok ==> !Loose(old(c.objs), FoundSet(old(c.objs), run, recorded))
    ensures ok ==>
              && Partway(c.objs, old(c.objs), FoundSet(old(c.objs), run, recorded), Early(), {FloatingIP} + {Interface})
              && PlainGone(c.objs, FoundSet(old(c.objs), run, recorded)) && Networks(old(c.objs), run, nets)
              && (forall x :: x in c.objs ==> !Tagged(c.objs[x], Port, run))
              && (forall x :: x in routers <==> x in old(c.objs) && Tagged(old(c.objs)[x], Router, run))
    ensures deleted + |Own(c.objs, old(c.objs), run)| == |Own(old(c.objs), old(c.objs), run)|
  {
    hide Fit, Partway, Clear, Tagged, Swept, Refers, FoundSet, Loose, PlainGone, TakenAlong, Own;
    ghost var b := c.objs;
    ghost var found := FoundSet(b, run, recorded);
    var n: nat;
    deleted, routers, nets := 0, [], [];
    StartsPartway(b, found);
    ClearKinds({});
    n, ok := DeleteKind(c, FloatingIP, run, b, recorded, Early(), {});
    deleted := deleted + n;
    if !ok {
      return;
    }

    routers := c.ListByTag(Router, run);
    TagFindsAllOf(c.objs, b, run, found, {} + {FloatingIP}, Router, routers);
    DetachAll(c, routers, b, run, recorded, Early(), {} + {FloatingIP});

    ghost var gone := {} + {FloatingIP} + {Interface};
    assert gone == {FloatingIP} + {Interface};
    ClearKinds(gone);
    FewerGone(c.objs, b, found, Early(), gone);
    n, ok := DeleteKind(c, Port, run, b, recorded, Early(), gone);
    deleted := deleted + n;
    FewerGone(c.objs, b, found, Early(), gone);
    if !ok {
      return;
    }

    nets := c.ListByTag(Network, run);
    TagFindsAllOf(c.objs, b, run, found, gone, Network, nets);
    NoneTaggedIsSwept(c.objs, found, run);
    n, ok := SweepPorts(c, nets, b, run, recorded, Early(), gone);
    deleted := deleted + n;
    FewerGone(c.objs, b, found, Early(), gone);
  }

  lemma FewerGone(objs: Objects, b: Objects, found: set<nat>, touched: set<Kind>, gone: set<Kind>)
    requires Partway(objs, b, found, touched, gone)
    ensures Partway(objs, b, found, touched, {})
  {
  }

  // The rest: networks with what they take along, then what they referred to.
  method CleanRest(c: Cloud, run: string, recorded: seq<Resource>, routers: seq<nat>, nets: seq<nat>, ghost b: Objects)
    returns (deleted: nat, ok: bool)
    requires Fit(b, run, recorded) && Networks(b, run, nets)
    requires Partway(c.objs, b, FoundSet(b, run, recorded), Early(), {FloatingIP} + {Interface})
    requires PlainGone(c.objs, FoundSet(b, run, recorded)) && forall x :: x in c.objs ==> !Tagged(c.objs[x], Port, run)
    requires forall x :: x in routers <==> x in b && Tagged(b[x], Router, run)
    modifies c
    ensures Partway(c.objs, b, FoundSet(b, run, recorded), Every(), {})
    ensures !ok ==> !Loose(b, FoundSet(b, run, recorded))
    ensures ok ==> c.objs == Without(b, FoundSet(b, run, recorded)) && Loose(b, FoundSet(b, run, recorded))
    ensures deleted + |Own(c.objs, b, run)| == |Own(old(c.objs), b, run)|
  {
    hide Fit, Partway, Clear, Tagged, Networks, Refers, FoundSet, Loose, PlainGone, OnNetwork, TakenAlong, Own;
    var n: nat;
    deleted := 0;
    ghost var found := FoundSet(b, run, recorded);
    ghost var gone := {FloatingIP} + {Interface};
    EarlyToEvery(c.objs, b, found, gone);
    n, ok := DeleteNetworks(c, nets, b, run, recorded, Every(), gone);
    deleted := deleted + n;
    FewerGone(c.objs, b, found, Every(), gone);
    if !ok {
      return;
    }
    gone := gone + {Network} + {Port};

    n, ok := DeleteSubnets(c, b, run, recorded, gone);
    deleted := deleted + n;
    FewerGone(c.objs, b, found, Every(), gone);
    if !ok {
      return;
    }
    gone := gone + {Subnet};

    ClearKinds(gone);
    n, ok := DeleteKind(c, SecurityGroup, run, b, recorded, Every(), gone);
    deleted := deleted + n;
    FewerGone(c.objs, b, found, Every(), gone);
    if !ok {
      return;
    }
    gone := gone + {SecurityGroup};

    n, ok := DeleteRouters(c, routers, b, run, recorded, gone);
    deleted := deleted + n;
    FewerGone(c.objs, b, found, Every(), gone);
    if !ok {
      return;
    }
    gone := gone + {Router};

    ClearKinds(gone);
    n, ok := DeleteKind(c, SubnetPool, run, b, recorded, Every(), gone);
    deleted := deleted + n;
    FewerGone(c.objs, b, found, Every(), gone);
    if !ok {
      return;
    }
    gone := gone + {SubnetPool};

    n, ok := DeleteScopes(c, b, run, recorded, gone);
    deleted := deleted + n;
    FewerGone(c.objs, b, found, Every(), gone);
    if ok {
      EveryKind(gone + {AddressScope});
      FoundIsThere(b, run, recorded);
      AllGone(c.objs, b, found, gone + {AddressScope});
    }
  }

  lemma FoundIsThere(b: Objects, run: string, recorded: seq<Resource>)
    ensures FoundSet(b, run, recorded) <= b.Keys
  {
  }

  method DeleteSubnets(c: Cloud, ghost b: Objects, run: string, ghost recorded: seq<Resource>, ghost gone: set<Kind>)
    returns (deleted: nat, ok: bool)
    requires Fit(b, run, recorded) && Partway(c.objs, b, FoundSet(b, run, recorded), Every(), gone)
    requires {Port, Interface} <= gone && forall x :: x in c.objs ==> x in b && !OnNetwork(b, run, x)
    modifies c
    ensures Partway(c.objs, b, FoundSet(b, run, recorded), Every(), gone)
    ensures !ok ==> !Loose(b, FoundSet(b, run, recorded))
    ensures ok ==> Partway(c.objs, b, FoundSet(b, run, recorded), Every(), gone + {Subnet})
    ensures deleted + |Own(c.objs, b, run)| == |Own(old(c.objs), b, run)|
  {
    hide Fit, Partway, Clear, Tagged, Refers, FoundSet, Loose, OnNetwork, TakenAlong, Own;
    ghost var before := c.objs;
    ClearKinds(gone);
    deleted, ok := DeleteKind(c, Subnet, run, b, recorded, Every(), gone);
    if ok {
      PartwayAgrees(before, c.objs, b, FoundSet(b, run, recorded), Every(), gone);
      SubnetsAreGone(c.objs, b, run, recorded, Every(), gone);
    }
  }

  method DeleteRouters(c: Cloud, routers: seq<nat>, ghost b: Objects, ghost run: string,
                       ghost recorded: seq<Resource>, ghost gone: set<Kind>)
    returns (deleted: nat, ok: bool)
    requires Fit(b, run, recorded) && Partway(c.objs, b, FoundSet(b, run, recorded), Every(), gone)
    requires {FloatingIP, Interface} <= gone && forall x :: x in routers <==> x in b && Tagged(b[x], Router, run)
    modifies c
    ensures Partway(c.objs, b, FoundSet(b, run, recorded), Every(), gone)
    ensures !ok ==> !Loose(b, FoundSet(b, run, recorded))
    ensures ok ==> Partway(c.objs, b, FoundSet(b, run, recorded), Every(), gone + {Router})
    ensures deleted + |Own(c.objs, b, run)| == |Own(old(c.objs), b, run)|
  {
    hide Fit, Clear, Refers, Loose;
    ClearKinds(gone);
    deleted, ok := DeleteResources(c, routers, Router, b, run, recorded, Every(), gone);
    if ok {
      KindIsGone(c.objs, b, FoundSet(b, run, recorded), Every(), gone, Router);
    }
  }

  // Address scopes last: they are found in the record only.
  method DeleteScopes(c: Cloud, ghost b: Objects, ghost run: string, recorded: seq<Resource>, ghost gone: set<Kind>)
    returns (deleted: nat, ok: bool)
    requires Fit(b, run, recorded) && Partway(c.objs, b, FoundSet(b, run, recorded), Every(), gone)
    requires {SubnetPool} <= gone
    modifies c
    ensures Partway(c.objs, b, FoundSet(b, run, recorded), Every(), gone)
    ensures !ok ==> !Loose(b, FoundSet(b, run, recorded))
    ensures ok ==> Partway(c.objs, b, FoundSet(b, run, recorded), Every(), gone + {AddressScope})
    ensures deleted + |Own(c.objs, b, run)| == |Own(old(c.objs), b, run)|
  {
    hide Fit, Clear, Partway, Refers, FoundSet, Loose;
    ghost var before := c.objs;
    ClearKinds(gone);
    ScopesAreRecorded(before, b, run, recorded, Every(), gone);
    var scopes := RecordedOfKind(recorded, AddressScope);
    deleted, ok := DeleteResources(c, scopes, AddressScope, b, run, recorded, Every(), gone);
    if ok {
      KindIsGone(c.objs, b, FoundSet(b, run, recorded), Every(), gone, AddressScope);
    }
  }

  // objs is what is left of b when some objects of found are removed that nothing
  // left refers to.
  ghost predicate PartOf(objs: Objects, b: Objects, found: set<nat>)
  {
    && (forall x :: x in objs ==> x in b && objs[x] == b[x])
    && (forall x :: x in b && x !in found ==> x in objs)
    && (forall y, x :: y in objs && x in objs[y].refs && x in b ==> x in objs)
  }

  lemma PartwayIsPart(objs: Objects, b: Objects, found: set<nat>)
    requires Partway(objs, b, found, Every(), {})
    ensures PartOf(objs, b, found)
  {
  }

  /** Cleanup succeeds exactly when nothing that it does not find pins something
      that it finds. Then it has removed just what it finds; otherwise it has met a
      conflict, and removed nothing else either. */
  method Cleanup(c: Cloud, run: string, recorded: seq<Resource>, ghost mine: set<nat>) returns (deleted: nat, ok: bool)
    requires Scoped(c.objs, run, mine, recorded)
    modifies c
    ensures ok <==> Loose(old(c.objs), FoundSet(old(c.objs), run, recorded))
    ensures ok ==> c.objs == Without(old(c.objs), FoundSet(old(c.objs), run, recorded))
    ensures PartOf(c.objs, old(c.objs), FoundSet(old(c.objs), run, recorded))
    ensures deleted == |set x | x in old(c.objs) && x !in c.objs && !TakenAlong(old(c.objs), run, x)|
  {
    hide Scoped, Fit, Partway, Networks, FoundSet, Loose, PlainGone, Tagged, PartOf, TakenAlong, Own;
    ghost var b := c.objs;
    ghost var found := FoundSet(b, run, recorded);
    var routers, nets, n;
    ScopedIsFit(b, run, mine, recorded);
    deleted, ok, routers, nets := CleanPorts(c, run, recorded);
    EarlyToEvery(c.objs, b, found, {});
    PartwayIsPart(c.objs, b, found);
    OwnLost(c.objs, b, run, found);
    if !ok {
      return;
    }
    n, ok := CleanRest(c, run, recorded, routers, nets, b);
    deleted := deleted + n;
    PartwayIsPart(c.objs, b, found);
    OwnLost(c.objs, b, run, found);
  }

  // What cleanup deleted itself is what is gone of it.
  lemma OwnLost(objs: Objects, b: Objects, run: string, found: set<nat>)
    requires PartOf(objs, b, found)
    ensures |Own(objs, b, run)| + |set x | x in b && x !in objs && !TakenAlong(b, run, x)| == |Own(b, b, run)|
  {
    hide TakenAlong;
    var lost := set x | x in b && x !in objs && !TakenAlong(b, run, x);
    assert Own(b, b, run) == Own(objs, b, run) + lost && Own(objs, b, run) !! lost;
  }

  // Cleanup finds of what is left what it found of the whole.
  lemma FindsTheSame(objs: Objects, b: Objects, run: string, mine: set<nat>, recorded: seq<Resource>)
    requires Scoped(b, run, mine, recorded) && PartOf(objs, b, FoundSet(b, run, recorded))
    ensures Scoped(objs, run, mine * objs.Keys, recorded)
    ensures FoundSet(objs, run, recorded) == FoundSet(b, run, recorded) * objs.Keys
    ensures Loose(objs, FoundSet(objs, run, recorded)) ==> Loose(b, FoundSet(b, run, recorded))
  {
    PartIsScoped(objs, b, run, mine, recorded);
    PartIsFound(objs, b, run, recorded);
    hide Found, FoundSet, Scoped;
    if !Loose(b, FoundSet(b, run, recorded)) {
      PartIsNotLoose(objs, b, FoundSet(b, run, recorded));
    }
  }

  lemma PartIsScoped(objs: Objects, b: Objects, run: string, mine: set<nat>, recorded: seq<Resource>)
    requires Scoped(b, run, mine, recorded) && PartOf(objs, b, FoundSet(b, run, recorded))
    ensures Scoped(objs, run, mine * objs.Keys, recorded)
  {
    hide Refers, Found, FoundSet;
  }

  lemma PartIsFound(objs: Objects, b: Objects, run: string, recorded: seq<Resource>)
    requires PartOf(objs, b, FoundSet(b, run, recorded))
    ensures FoundSet(objs, run, recorded) == FoundSet(b, run, recorded) * objs.Keys
  {
    forall x | x in objs
      ensures OnNetwork(objs, run, x) <==> OnNetwork(b, run, x)
      ensures OnRouter(objs, run, x) <==> OnRouter(b, run, x)
    {
      assert forall n :: n in b[x].refs && n in b ==> n in objs && objs[n] == b[n];
    }
  }

  // What pins something in the whole still pins it in the part.
  lemma PartIsNotLoose(objs: Objects, b: Objects, found: set<nat>)
    requires PartOf(objs, b, found) && found <= b.Keys && !Loose(b, found)
    ensures !Loose(objs, found * objs.Keys)
  {
    var y, x :| y in b && x in b[y].refs && x in found && y !in found;
    assert y in objs && x in objs[y].refs && x in found * objs.Keys;
  }

  /** A second cleanup deletes nothing and changes nothing; after one that met a
      conflict it meets one again. */
  method CleanupTwice(c: Cloud, run: string, recorded: seq<Resource>, ghost mine: set<nat>)
    returns (ok: bool, again: nat, okAgain: bool)
    requires Scoped(c.objs, run, mine, recorded)
    modifies c
    ensures ok <==> Loose(old(c.objs), FoundSet(old(c.objs), run, recorded))
    ensures okAgain == ok
    ensures ok ==> again == 0 && c.objs == Without(old(c.objs), FoundSet(old(c.objs), run, recorded))
  {
    hide Scoped, PartOf, FoundSet, Loose;
    ghost var b := c.objs;
    var first;
    first, ok := Cleanup(c, run, recorded, mine);
    ghost var t := c.objs;
    FindsTheSame(t, b, run, mine, recorded);
    again, okAgain := Cleanup(c, run, recorded, mine * t.Keys);
    NothingFound(t, b, FoundSet(b, run, recorded));
  }

  lemma NothingFound(t: Objects, b: Objects, found: set<nat>)
    ensures t == Without(b, found) ==> found * t.Keys == {} && Without(t, {}) == t && Loose(t, {})
  {
  }

  // One creation while a run is applied: by the run, listed saying whether its
  // create returned without an error, or by anybody else.
  datatype Event = Made(id: nat, obj: Object, listed: bool) | Elsewhere(id: nat, obj: Object)

  // The cloud during a run, with what the run made and what its record lists.
  datatype Progress = Progress(objs: Objects, mine: set<nat>, recorded: seq<Resource>)

  ghost predicate Closed(b: Objects) { forall y, x :: y in b && x in b[y].refs ==> x in b }

  /** What a run makes: it refers to what is there, as its kind does. A create that
      returns without an error has tagged what it made unless it is an address scope
      or an interface; one that fails or is cancelled may leave anything, tagged or
      not. The cloud's own ports come untagged with the run's networks and subnets. */
  ghost predicate MayMake(p: Progress, run: string, id: nat, o: Object, listed: bool)
    requires p.mine <= p.objs.Keys
  {
    && id !in p.objs && o.refs <= p.objs.Keys && (forall r :: r in p.recorded ==> r.id != id)
    && (forall x :: x in o.refs && x in p.mine ==> p.objs[x].kind in Refers(o.kind))
    && (o.tag == None || o.tag == Some(run))
    && (listed ==> o.owner == Nobody && (o.kind == AddressScope || o.kind == Interface || o.tag == Some(run)))
    && (o.kind == Port && o.owner == Service ==>
          forall s :: s in o.refs && s in p.mine && p.objs[s].kind == Subnet ==>
            forall n :: n in p.objs[s].refs && n in p.mine && p.objs[n].kind == Network ==> n in o.refs)
  }

  // What anybody else makes does not touch the run.
  ghost predicate MayMakeElsewhere(p: Progress, run: string, id: nat, o: Object)
  {
    id !in p.objs && o.refs <= p.objs.Keys && (forall x :: x in o.refs ==> x !in p.mine) && o.tag != Some(run)
    && forall r :: r in p.recorded ==> r.id != id
  }

  function MadeOne(p: Progress, id: nat, o: Object, listed: bool): Progress
  {
    Progress(p.objs[id := o], p.mine + {id}, if listed then p.recorded + [Resource(o.kind, id)] else p.recorded)
  }

  lemma MakeKeepsScoped(p: Progress, run: string, id: nat, o: Object, listed: bool)
    requires Scoped(p.objs, run, p.mine, p.recorded) && Closed(p.objs) && MayMake(p, run, id, o, listed)
    ensures var t := MadeOne(p, id, o, listed); Scoped(t.objs, run, t.mine, t.recorded) && Closed(t.objs)
  {
    hide Refers, Typed, Aligned;
    MakeKeepsTyped(p, run, id, o, listed);
    MakeKeepsAligned(p, run, id, o, listed);
  }

  lemma MakeKeepsTyped(p: Progress, run: string, id: nat, o: Object, listed: bool)
    requires p.mine <= p.objs.Keys && Typed(p.objs, p.mine) && Closed(p.objs) && MayMake(p, run, id, o, listed)
    ensures var t := MadeOne(p, id, o, listed); Typed(t.objs, t.mine)
  {
    hide Refers;
  }

  lemma MakeKeepsAligned(p: Progress, run: string, id: nat, o: Object, listed: bool)
    requires p.mine <= p.objs.Keys && Aligned(p.objs, p.mine) && Closed(p.objs) && MayMake(p, run, id, o, listed)
    ensures var t := MadeOne(p, id, o, listed); Aligned(t.objs, t.mine)
  {
    hide Refers;
  }

  lemma ElsewhereKeepsScoped(p: Progress, run: string, id: nat, o: Object)
    requires Scoped(p.objs, run, p.mine, p.recorded) && Closed(p.objs) && MayMakeElsewhere(p, run, id, o)
    ensures Scoped(p.objs[id := o], run, p.mine, p.recorded) && Closed(p.objs[id := o])
  {
    hide Refers;
  }

  /** The cloud after some of a run's creates, on a cloud that knows nothing of the
      run, None once a create is not one a run makes. */
  ghost function Applied(before: Objects, run: string, events: seq<Event>): (r: Option<Progress>)
    requires Closed(before) && forall x :: x in before ==> before[x].tag != Some(run)
    ensures r.Some? ==> Closed(r.value.objs) && Scoped(r.value.objs, run, r.value.mine, r.value.recorded)
  {
    if events == [] then Some(Progress(before, {}, []))
    else
      match Applied(before, run, events[..|events| - 1])
      case None => None
      case Some(p) =>
        match events[|events| - 1]
        case Made(id, o, listed) =>
          if MayMake(p, run, id, o, listed) then MakeKeepsScoped(p, run, id, o, listed); Some(MadeOne(p, id, o, listed))
          else None
        case Elsewhere(id, o) =>
          if MayMakeElsewhere(p, run, id, o) then
            ElsewhereKeepsScoped(p, run, id, o); Some(p.(objs := p.objs[id := o]))
          else None
  }

  /** Wherever Apply stopped, and whatever its cancelled creates left: with a record
      that lists the address scopes Apply listed, Cleanup succeeds exactly when
      nothing it does not find pins something it finds, and then removes just what
      it finds. If that is all the run made, it succeeds and restores the cloud to
      what everybody else made of it. */
  method CleanupAfterApply(c: Cloud, run: string, recorded: seq<Resource>, ghost before: Objects,
                           ghost events: seq<Event>)
    returns (deleted: nat, ok: bool)
    requires Closed(before) && forall x :: x in before ==> before[x].tag != Some(run)
    requires Applied(before, run, events).Some? && c.objs == Applied(before, run, events).value.objs
    requires forall x :: Resource(AddressScope, x) in recorded <==>
                         Resource(AddressScope, x) in Applied(before, run, events).value.recorded
    modifies c
    ensures ok <==> Loose(old(c.objs), FoundSet(old(c.objs), run, recorded))
    ensures ok ==> c.objs == Without(old(c.objs), FoundSet(old(c.objs), run, recorded))
    ensures var mine := Applied(before, run, events).value.mine;
            FoundSet(old(c.objs), run, recorded) == mine ==> ok && c.objs == Without(old(c.objs), mine)
  {
    hide Applied, Scoped;
    ghost var p := Applied(before, run, events).value;
    SameScopes(p.objs, run, p.mine, p.recorded, recorded);
    AllFoundIsLoose(p.objs, run, p.mine, recorded);
    deleted, ok := Cleanup(c, run, recorded, p.mine);
  }

  // Of the record only the address scopes matter.
  lemma SameScopes(b: Objects, run: string, mine: set<nat>, recorded: seq<Resource>, other: seq<Resource>)
    requires Scoped(b, run, mine, recorded)
    requires forall x :: Resource(AddressScope, x) in other <==> Resource(AddressScope, x) in recorded
    ensures Scoped(b, run, mine, other)
  {
  }

  // When everything the run made is found, nothing pins it.
  lemma AllFoundIsLoose(b: Objects, run: string, mine: set<nat>, recorded: seq<Resource>)
    requires Scoped(b, run, mine, recorded)
    ensures FoundSet(b, run, recorded) == mine ==> Loose(b, mine)
  {
    hide Refers, FoundSet;
  }

  /** An address scope the record lists, with a subnet pool whose create was
      cancelled between making and tagging it: the pool is not found and pins the
      scope, so the last delete of cleanup meets a conflict. */
  lemma UntaggedPoolPinsScope(run: string)
    ensures var events := [Made(1, Object(AddressScope, None, Nobody, {}), true),
                           Made(2, Object(SubnetPool, None, Nobody, {1}), false)];
            && Applied(map[], run, events).Some?
            && var p := Applied(map[], run, events).value;
            p.mine == {1, 2} && FoundSet(p.objs, run, p.recorded) == {1}
            && !Loose(p.objs, FoundSet(p.objs, run, p.recorded))
  {
    var events := [Made(1, Object(AddressScope, None, Nobody, {}), true),
                   Made(2, Object(SubnetPool, None, Nobody, {1}), false)];
    assert events[..1] == [events[0]] && events[..1][..0] == [];
    var p0 := Progress(map[], {}, []);
    var p1 := MadeOne(p0, 1, events[0].obj, true);
    assert Applied(map[], run, []) == Some(p0);
    assert Applied(map[], run, events[..1]) == Some(p1);
    var p := MadeOne(p1, 2, events[1].obj, false);
    assert Applied(map[], run, events) == Some(p);
    PoolIsUnfound(p, run);
  }

  lemma PoolIsUnfound(p: Progress, run: string)
    requires p.objs == map[1 := Object(AddressScope, None, Nobody, {}), 2 := Object(SubnetPool, None, Nobody, {1})]
    requires p.recorded == [Resource(AddressScope, 1)]
    ensures FoundSet(p.objs, run, p.recorded) == {1} && !Loose(p.objs, {1})
  {
    assert Resource(AddressScope, 1) == p.recorded[0];
    assert 1 in p.objs[2].refs;
  }
}
