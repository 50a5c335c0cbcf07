/** Bridge ports of src/nas_ndi_bridge.cpp: SAI steps followed by a step of the
    bridge-port cache. */
module Bridge {
  import opened Types
  import opened BrportCache

  /** The SAI objects of the port, LAG and bridge APIs. */
  datatype Obj =
    | PhysPort
    | LagObj
    | LagMember(lag: Oid, port: Oid)
    | BrPort(port: Oid, kind: BrType, vlan: nat, rif: Oid)

  /** What a creation sends depends on the type: the port (or LAG, or tunnel), the
      VLAN of a subport, the RIF of a 1D router. */
  function ObjOf(b: Block): (o: Obj)
    ensures o.BrPort? && IsObjOf(o, b)
  {
    match b.kind
    case Port | Tunnel => BrPort(b.port, b.kind, 0, NULL_OID)
    case SubportTag | SubportUntag => BrPort(b.port, b.kind, b.vlan, NULL_OID)
    case Router1D | Router1Q => BrPort(NULL_OID, b.kind, 0, if b.kind.Router1D? then b.rif else NULL_OID)
  }

  /** The object in SAI is of the block's type, at its port and VLAN or RIF. */
  predicate IsObjOf(o: Obj, b: Block) {
    && o.BrPort? && o.kind == b.kind
    && (b.kind.Port? || b.kind.Tunnel? || b.kind.Subport() ==> o.port == b.port)
    && (b.kind.Subport() ==> o.vlan == b.vlan)
    && (b.kind.Router1D? ==> o.rif == b.rif)
  }

  /** Only bridge-port objects differ. */
  ghost predicate SameOthers(a: map<Oid, Obj>, b: map<Oid, Obj>) {
    && (forall x | x in a && !a[x].BrPort? :: x in b && b[x] == a[x])
    && (forall x | x in b && !b[x].BrPort? :: x in a && b[x] == a[x])
  }

  /** Everything that was live is, unchanged. */
  ghost predicate NoneLost(a: map<Oid, Obj>, b: map<Oid, Obj>) {
    forall x | x in a :: x in b && b[x] == a[x]
  }

  /** Every cached bridge port is live in SAI, those of 1D routers apart.  The
      converse fails: a creation that stops half way leaves its object behind. */
  ghost predicate CachedAreLive(blocks: map<Oid, Block>, live: map<Oid, Obj>) {
    NULL_OID !in live && forall x | x in blocks :: x in live && IsObjOf(live[x], blocks[x])
  }

  /** The same for the bridge ports of 1D routers, which have an index of their
      own, by RIF. */
  ghost predicate RoutersAreLive(byRif: map<Oid, Block>, live: map<Oid, Obj>) {
    forall r | r in byRif :: RouterLive(byRif[r], r, live)
  }

  predicate RouterLive(b: Block, r: Oid, live: map<Oid, Obj>) {
    b.brport in live && live[b.brport] == RouterObj(r)
  }

  function RouterObj(r: Oid): Obj {
    BrPort(NULL_OID, Router1D, 0, r)
  }

  /** What the call for a RIF fills in. */
  function RouterBlock(brport: Oid, r: Oid): Block {
    Block(brport, NULL_OID, Router1D, 0, r, false)
  }

  /** A bridge port of SAI's, of whatever type. */
  predicate IsPort(live: map<Oid, Obj>, x: Oid) {
    x in live && live[x].BrPort?
  }

  /** A bridge port leaves SAI, and some RIF the index: the rest agree exactly
      when no other RIF was bound to that bridge port. */
  lemma RouterLeaves(byRif: map<Oid, Block>, live: map<Oid, Obj>, x: Oid, gone: set<Oid>)
    requires RoutersAreLive(byRif, live)
    ensures RoutersAreLive(byRif - gone, live - {x}) <==> forall r | r in byRif && r !in gone :: byRif[r].brport != x
  {
    if RoutersAreLive(byRif - gone, live - {x}) {
      forall r | r in byRif && r !in gone ensures byRif[r].brport != x {
        assert r in byRif - gone && RouterLive((byRif - gone)[r], r, live - {x});
      }
    }
  }

  /** While they are live, no two RIFs share a bridge port. */
  lemma OneRouter(byRif: map<Oid, Block>, live: map<Oid, Obj>, r: Oid)
    requires RoutersAreLive(byRif, live) && r in byRif
    ensures forall q | q in byRif :: byRif[q].brport == byRif[r].brport <==> q == r
  {
    assert RouterLive(byRif[r], r, live);
  }

  /** A new object, cached or not, takes no router's bridge port away. */
  lemma RoutersStayLive(c: Cache, live: map<Oid, Obj>, b: Block)
    requires b.brport !in live
    ensures RoutersAreLive(c.byRif, live) ==> RoutersAreLive(c.byRif, live[b.brport := ObjOf(b)])
    ensures RoutersAreLive(c.byRif, live) ==>
              RoutersAreLive(c.Add(b).byRif, live[b.brport := ObjOf(b)])
  {
  }

  /** Objects of the other kinds may come and go. */
  lemma OthersComeAndGo(blocks: map<Oid, Block>, live: map<Oid, Obj>, x: Oid, live': map<Oid, Obj>)
    requires CachedAreLive(blocks, live)
    requires || (x in live && !live[x].BrPort? && live' == live - {x})
             || (x !in live && x != NULL_OID && x in live' && live' == live[x := live'[x]])
    ensures CachedAreLive(blocks, live')
  {
  }

  /** A removed bridge port must have left the cache. */
  lemma RemovedIsNotLive(blocks: map<Oid, Block>, blocks': map<Oid, Block>, live: map<Oid, Obj>, x: Oid)
    requires CachedAreLive(blocks, live) && x in live
    requires blocks' == blocks || blocks' == blocks - {x}
    ensures CachedAreLive(blocks', live - {x}) <==> x !in blocks'
    ensures x in blocks ==> live[x].BrPort?
  {
  }

  lemma CachedIsLive(blocks: map<Oid, Block>, live: map<Oid, Obj>, x: Oid)
    requires CachedAreLive(blocks, live) && x !in live
    ensures x !in blocks && blocks - {x} == blocks
  {
  }

  /** What a removal leaves of the blocks, and when the indexes stay exact. */
  lemma RemoveLeaves(s: Cache, ask: Block)
    requires s.Valid()
    ensures var r := s.Remove(ask).0;
            && r.byBrport == (if ask.kind.Router1D? then s.byBrport else s.byBrport - {ask.brport})
            && r.byRif == s.byRif - (if ask.kind.Router1D? then {ask.rif} else {})
            && (ask.kind.Router1D? ==> r == s.(byRif := r.byRif))
            && (r.Valid() <==>
                  ask.kind.Router1D? || (ask.brport in s.byBrport ==> s.Matching(ask, s.byBrport[ask.brport])))
  {
    hide Cache.Valid, Cache.Matching;
    assert s.byRif - {} == s.byRif && (ask.rif !in s.byRif ==> s.byRif - {ask.rif} == s.byRif);
    if ask.kind.Router1D? {
      s.RemoveRouterKeeps(ask);
    } else if ask.brport in s.byBrport {
      hide Cache.Remove;
      s.RemoveKeeps(ask);
    } else {
      assert s.byBrport - {ask.brport} == s.byBrport;
    }
  }

  lemma RifIsUnread(s: Cache, ask: Block, rif: Oid)
    ensures !ask.kind.Router1D? ==> s.Remove(ask.(rif := rif)) == s.Remove(ask)
    ensures forall b :: s.Matching(ask.(rif := rif), b) <==> s.Matching(ask, b)
  {
  }

  /** The steps of a call that change no index: attributes of the bridge port, and
      what other components do for it. */
  datatype Outside =
    | AdminUp(x: Oid) | AdminDown(x: Oid) | IngressFilter(x: Oid) | EgressFilter(x: Oid) | DefaultStpPort(x: Oid)
    | FlushMacs(x: Oid) | DropStpPorts(x: Oid) | DropVlanMembers(x: Oid) | MapPort(x: Oid)

  /** Where a creation stopped: nowhere; before SAI made the object; at the
      admin state, with the object removed again or not; or at the settings of a
      1Q port. */
  datatype Stop = Done | NotMade | AtAdminState(removed: bool) | AtSetUp {
    /** The new object stays in SAI although the call fails. */
    predicate Leaks() {
      this == AtAdminState(false) || AtSetUp?
    }
  }

  /** A new object is not cached yet; then it is cached as what it is. */
  lemma CreatedIsLive(c: Cache, live: map<Oid, Obj>, b: Block)
    requires b.brport !in live && b.brport != NULL_OID
    ensures CachedAreLive(c.byBrport, live) ==>
              && b.brport !in c.byBrport && CachedAreLive(c.byBrport, live[b.brport := ObjOf(b)])
              && CachedAreLive(c.Add(b).byBrport, live[b.brport := ObjOf(b)])
    ensures live[b.brport := ObjOf(b)] - {b.brport} == live
  {
  }

  lemma SameObj(b: Block, id: Oid)
    ensures ObjOf(b.(brport := id)) == ObjOf(b) && ObjOf(b).BrPort?
  {
  }

  class BridgeApi {
    const cache: BrportTable
    const sai: Store<Obj>

    constructor ()
      ensures Valid() && fresh(cache) && fresh(sai)
      ensures cache.State() == Cache(map[], map[], map[], map[], map[]) && sai.live == map[] && sai.failures == 0
    {
      cache := new BrportTable();
      sai := new Store<Obj>();
    }

    ghost predicate Valid()
      reads this, cache, sai
    {
      cache.Valid() && CachedAreLive(cache.byBrport, sai.live)
    }

    /** Every bridge port of a 1D router that the cache finds is live. */
    ghost predicate RoutersOk()
      reads this, cache, sai
    {
      RoutersAreLive(cache.byRif, sai.live)
    }

    /** A call into SAI or another component that changes no index; `asked` is the
        step, if it is taken. */
    method Elsewhere(step: Outside) returns (ok: bool, ghost asked: seq<Outside>)
      modifies sai`failures
      ensures sai.failures == old(sai.failures) + (if ok then 0 else 1)
      ensures asked == if ok then [step] else []
    {
      ok := *;
      asked := if ok then [step] else [];
      if !ok {
        sai.failures := sai.failures + 1;
      }
    }

    /** What must be new before a block is created: the indexes are written
        without a look-up. */
    ghost predicate NewPlace(b: Block)
      reads this, cache
    {
      && (b.kind.Port? ==> b.port !in cache.byPort)
      && (b.kind.Subport() ==> b.PvOf() !in cache.byPv)
    }

    /** The settings that only a 1Q port needs, until one is refused. */
    method SetUpPort(id: Oid) returns (ok: bool, ghost asked: seq<Outside>)
      modifies sai`failures
      ensures sai.failures >= old(sai.failures) && (ok <==> sai.failures == old(sai.failures))
      ensures asked <= [IngressFilter(id), EgressFilter(id), DefaultStpPort(id)] && (ok <==> |asked| == 3)
    {
      ghost var more;
      ok, asked := Elsewhere(IngressFilter(id));
      if ok {
        ok, more := Elsewhere(EgressFilter(id));
        asked := asked + more;
      }
      if ok {
        ok, more := Elsewhere(DefaultStpPort(id));
        asked := asked + more;
      }
    }

    /** `b.brport` is not an input; the id SAI gives is `id`.  The indexes stay
        exact unless the place of a block that gets cached was taken. */
    method CreateBridgePort(b: Block)
      returns (rc: Rc, id: Oid, ghost stop: Stop, ghost leaked: set<Oid>, ghost asked: seq<Outside>)
      requires cache.Valid()
      modifies cache, sai
      ensures old(Valid()) ==> (Valid() <==> (rc.Ok? ==> old(NewPlace(b))))
      ensures cache.Valid() <==> (rc.Ok? ==> b.kind.Router1D? || old(cache.State()).FreshFor(b.(brport := id)))
      ensures (rc == Ok || rc == Cfg) && (rc.Ok? <==> stop.Done?)
      ensures old(RoutersOk()) ==> RoutersOk()
      ensures rc.Ok? ==> cache.State() == old(cache.State()).Add(b.(brport := id))
      ensures rc.Ok? || stop.Leaks() ==> id in sai.live && IsObjOf(sai.live[id], b)
      ensures !rc.Ok? ==> cache.State() == old(cache.State())
      ensures leaked == if stop.Leaks() then {id} else {}
      ensures sai.live == if rc.Ok? || stop.Leaks() then old(sai.live)[id := ObjOf(b)] else old(sai.live)
      ensures rc.Ok? || stop.Leaks() ==> id !in old(sai.live) && id != NULL_OID
      ensures stop.AtSetUp? ==> b.kind.Port?
      ensures var steps := [AdminUp(id)] +
                           (if b.kind.Port? then [IngressFilter(id), EgressFilter(id), DefaultStpPort(id)] else []);
              asked <= steps && (rc.Ok? <==> asked == steps) && (asked == [] <==> stop.NotMade? || stop.AtAdminState?)
      ensures SameOthers(old(sai.live), sai.live)
      ensures sai.failures >= old(sai.failures)
      ensures sai.failures == old(sai.failures) ==> (rc.Ok? <==> !b.kind.Router1Q?)
      ensures rc.Ok? ==> sai.failures == old(sai.failures)
    {
      hide BrportTable.Valid, CachedAreLive, RoutersAreLive, Cache.Add, ObjOf;
      rc, id, stop, leaked, asked := Cfg, NULL_OID, NotMade, {}, [];
      if b.kind.Router1Q? {
        return;
      }
      ghost var live := sai.live;
      var r := sai.Create(ObjOf(b));
      if r.None? {
        return;
      }
      id := r.value;
      SameObj(b, id);
      CreatedIsLive(cache.State(), live, b.(brport := id));
      RoutersStayLive(cache.State(), live, b.(brport := id));
      var ok;
      ghost var more;
      ok, asked := Elsewhere(AdminUp(id));
      if !ok {
        var removed := sai.Remove(id);
        stop := AtAdminState(removed);
        leaked := if removed then {} else {id};
        return;
      }
      if b.kind.Port? {
        ok, more := SetUpPort(id);
        asked := asked + more;
        if !ok {
          stop, leaked := AtSetUp, {id};
          return;
        }
      }
      cache.AddBridgePort(b.(brport := id));
      rc, stop := Ok, Done;
    }

    /** The first step on a bridge port; SAI does not know one that is gone. */
    method TakeDown(brport: Oid) returns (ok: bool, ghost asked: seq<Outside>)
      modifies sai`failures
      ensures sai.failures >= old(sai.failures) && (ok ==> sai.failures == old(sai.failures))
      ensures if IsPort(sai.live, brport) then ok <==> sai.failures == old(sai.failures)
              else !ok && sai.failures == old(sai.failures)
      ensures asked == if ok then [AdminDown(brport)] else []
    {
      if brport !in sai.live || !sai.live[brport].BrPort? {
        return false, [];
      }
      ok, asked := Elsewhere(AdminDown(brport));
    }

    /** SAI removes only bridge ports here. */
    method RemoveFromSai(brport: Oid) returns (ok: bool)
      modifies sai
      ensures ok ==> brport in old(sai.live) && old(sai.live)[brport].BrPort? && sai.live == old(sai.live) - {brport}
      ensures !ok ==> sai.live == old(sai.live)
      ensures sai.failures >= old(sai.failures) && (ok ==> sai.failures == old(sai.failures))
      ensures brport in old(sai.live) && old(sai.live)[brport].BrPort? ==> (ok <==> sai.failures == old(sai.failures))
    {
      if brport !in sai.live || !sai.live[brport].BrPort? {
        return false;
      }
      ok := sai.Remove(brport);
    }

    /** `ask` names the bridge port, its type and, for a subport, its VLAN.  The
        RIF is not passed on: for a router of a 1D bridge the cache is asked for
        `rif`, whatever the uninitialised field holds.  Cache and SAI go on
        agreeing exactly unless a cached bridge port is removed under a type or
        VLAN that does not reach its index; and for the bridge ports of 1D routers,
        unless one goes while its RIF stays in the index. */
    method DeleteBridgePort(ask: Block) returns (rc: Rc, ghost rif: Oid, ghost asked: seq<Outside>)
      requires cache.Valid()
      modifies cache, sai
      ensures old(Valid()) ==>
                (Valid() <==>
                   (rc.Ok? && ask.brport in old(cache.byBrport) ==>
                      !ask.kind.Router1D? && old(cache.State()).Matching(ask, old(cache.byBrport)[ask.brport])))
      ensures cache.Valid() <==>
                (rc.Ok? && !ask.kind.Router1D? && ask.brport in old(cache.byBrport) ==>
                   old(cache.State()).Matching(ask, old(cache.byBrport)[ask.brport]))
      ensures old(RoutersOk()) ==>
                (RoutersOk() <==>
                   (rc.Ok? ==> forall r | r in old(cache.byRif) && old(cache.byRif)[r].brport == ask.brport ::
                                 ask.kind.Router1D? && r == rif))
      ensures var x := ask.brport;
              var steps := [AdminDown(x)] + (if ask.kind.Router1D? then [] else [FlushMacs(x)]) +
                           (if ask.kind.Port? then [DropStpPorts(x), DropVlanMembers(x)] else []);
              asked <= steps && (rc.Ok? ==> asked == steps)
      ensures (rc == Ok || rc == Cfg) && SameOthers(old(sai.live), sai.live)
      ensures rc.Ok? ==> && cache.State() == old(cache.State()).Remove(ask.(rif := rif)).0
                         && IsPort(old(sai.live), ask.brport) && sai.live == old(sai.live) - {ask.brport}
      ensures rc.Ok? && !ask.kind.Router1D? ==> cache.byBrport == old(cache.byBrport) - {ask.brport}
      ensures !rc.Ok? ==> cache.State() == old(cache.State()) && sai.live == old(sai.live)
      ensures sai.failures >= old(sai.failures)
      ensures if IsPort(old(sai.live), ask.brport) then rc.Ok? <==> sai.failures == old(sai.failures)
              else !rc.Ok? && sai.failures == old(sai.failures)
      ensures old(Valid()) && ask.brport in old(cache.byBrport) ==> IsPort(old(sai.live), ask.brport)
    {
      hide Cache.Matching, Cache.Valid, CachedAreLive, RoutersAreLive, Cache.Remove;
      rc, rif := Cfg, ask.rif;
      ghost var s, live := cache.State(), sai.live;
      if CachedAreLive(s.byBrport, live) {
        if ask.brport in live {
          RemovedIsNotLive(s.byBrport, s.byBrport, live, ask.brport);
        } else {
          CachedIsLive(s.byBrport, live, ask.brport);
        }
      }
      var ok;
      ghost var more;
      ok, asked := TakeDown(ask.brport);
      if !ok {
        return;
      }
      if !ask.kind.Router1D? {
        ok, more := Elsewhere(FlushMacs(ask.brport));
        asked := asked + more;
        if !ok {
          return;
        }
      }
      if ask.kind.Port? {
        ok, more := Elsewhere(DropStpPorts(ask.brport));
        asked := asked + more;
        if !ok {
          return;
        }
        ok, more := Elsewhere(DropVlanMembers(ask.brport));
        asked := asked + more;
        if !ok {
          return;
        }
      }
      ok := RemoveFromSai(ask.brport);
      if !ok {
        return;
      }
      var left: Oid := *;
      rif := left;
      RifIsUnread(s, ask, left);
      RemoveLeaves(s, ask.(rif := left));
      if CachedAreLive(s.byBrport, live) {
        RemovedIsNotLive(s.byBrport, s.Remove(ask.(rif := left)).0.byBrport, live, ask.brport);
      }
      if RoutersAreLive(s.byRif, live) {
        RouterLeaves(s.byRif, live, ask.brport, if ask.kind.Router1D? then {left} else {});
      }
      var _ := cache.RemoveBridgePort(ask.(rif := left));
      rc := Ok;
    }

    // ---- the router of a 1D bridge ----

    method AddRouterPort(r: Oid) returns (rc: Rc, id: Oid, ghost leaked: set<Oid>)
      requires cache.Valid()
      modifies cache, sai
      ensures cache.Valid() && (old(Valid()) ==> Valid()) && (old(RoutersOk()) ==> RoutersOk())
      ensures rc == Ok || rc == Cfg
      ensures cache.State() == if rc.Ok? then old(cache.State()).Add(RouterBlock(id, r)) else old(cache.State())
      ensures rc.Ok? || leaked == {id} ==> id !in old(sai.live)
      ensures sai.live == if rc.Ok? || leaked == {id} then old(sai.live)[id := RouterObj(r)] else old(sai.live)
      ensures rc.Ok? ==> && sai.live[id].BrPort? && sai.live[id].kind == Router1D && sai.live[id].rif == r
                         && r in cache.byRif && cache.byRif[r].brport == id
      ensures leaked == {} || (leaked == {id} && !rc.Ok?)
      ensures sai.failures >= old(sai.failures) && (rc.Ok? <==> sai.failures == old(sai.failures))
    {
      hide Cache.Valid, CachedAreLive, RoutersAreLive;
      ghost var stop, asked;
      rc, id, stop, leaked, asked := CreateBridgePort(RouterBlock(NULL_OID, r));
    }

    /** Asks the cache for the RIF's bridge port and removes that, whatever bridge
        port has that id by now.  `cleared` is the RIF that leaves the index.  An
        id that SAI does not know any more is no refusal. */
    method DeleteRouterPort(r: Oid) returns (rc: Rc, ghost cleared: Option<Oid>)
      requires cache.Valid()
      modifies cache, sai
      ensures cache.Valid() && (rc == Ok || rc == Cfg)
      ensures (cleared.Some? <==> rc.Ok? && r in old(cache.byRif)) && (!rc.Ok? ==> r in old(cache.byRif))
      ensures cleared.None? ==> cache.State() == old(cache.State()) && sai.live == old(sai.live)
      ensures cleared.Some? ==> && cache.State() == old(cache.State()).(byRif := old(cache.byRif) - {cleared.value})
                                && IsPort(old(sai.live), old(cache.byRif)[r].brport)
                                && sai.live == old(sai.live) - {old(cache.byRif)[r].brport}
      ensures old(Valid()) ==> (Valid() <==> (cleared.Some? ==> old(cache.byRif)[r].brport !in old(cache.byBrport)))
      ensures old(RoutersOk()) ==> (RoutersOk() <==> (cleared.Some? ==> cleared.value == r))
      ensures sai.failures >= old(sai.failures) && (rc.Ok? ==> sai.failures == old(sai.failures))
      ensures sai.failures == old(sai.failures) ==>
                (rc.Ok? <==> r !in old(cache.byRif) || IsPort(old(sai.live), old(cache.byRif)[r].brport))
    {
      hide Cache.Valid, CachedAreLive, RoutersAreLive;
      cleared := None;
      ghost var s, live := cache.State(), sai.live;
      var found := cache.GetBrportBlock(RouterBlock(NULL_OID, r), FromRif);
      if found.None? {
        return Ok, cleared;
      }
      ghost var rif, asked;
      rc, rif, asked := DeleteBridgePort(RouterBlock(found.value.brport, NULL_OID));
      if rc.Ok? {
        cleared := Some(rif);
        RemoveLeaves(s, RouterBlock(found.value.brport, rif));
      }
      if RoutersAreLive(s.byRif, live) {
        OneRouter(s.byRif, live, r);
      }
    }

    // ---- 1D members ----

    method Add1DMember(port: Oid, vlan: nat, tagged: bool, lag: bool) returns (rc: Rc, id: Oid)
      requires Valid()
      modifies cache, sai
      ensures Valid() <==> (rc.Ok? ==> Pv(port, vlan) !in old(cache.byPv))
      ensures SameOthers(old(sai.live), sai.live) && NoneLost(old(sai.live), sai.live)
      ensures rc.Ok? ==> && id !in old(sai.live) && sai.live.Keys == old(sai.live).Keys + {id} && sai.live[id].BrPort?
                         && sai.live[id].port == port && sai.live[id].vlan == vlan
                         && sai.live[id].kind == if tagged then SubportTag else SubportUntag
      ensures rc.Ok? ==> && Pv(port, vlan) in cache.byPv && cache.byPv[Pv(port, vlan)].brport == id
                         && cache.byPv[Pv(port, vlan)].lag == lag
      ensures rc.Ok? ==> cache.byPv == old(cache.byPv)[Pv(port, vlan) := Member(id, port, vlan, tagged, lag)]
      ensures !rc.Ok? ==> cache.State() == old(cache.State())
      ensures rc.Ok? <==> sai.failures == old(sai.failures)
    {
      hide BrportTable.Valid;
      ghost var stop, leaked, asked;
      rc, id, stop, leaked, asked := CreateBridgePort(Member(NULL_OID, port, vlan, tagged, lag));
    }

    static function Member(id: Oid, port: Oid, vlan: nat, tagged: bool, lag: bool): Block {
      Block(id, port, if tagged then SubportTag else SubportUntag, vlan, NULL_OID, lag)
    }

    /** Tagged and untagged members are deleted alike, as tagged ones. */
    method DeleteAllTypeSubports(brport: Oid, vlan: nat) returns (rc: Rc)
      requires Valid() && brport in cache.byBrport
      requires cache.byBrport[brport].kind.Subport() && cache.byBrport[brport].vlan == vlan
      modifies cache, sai
      ensures Valid() && (rc == Ok || rc == Cfg) && SameOthers(old(sai.live), sai.live)
      ensures rc.Ok? ==> && cache.byBrport == old(cache.byBrport) - {brport} && sai.live == old(sai.live) - {brport}
                         && cache.State() == old(cache.State()).Remove(AskSubport(brport, vlan)).0
      ensures !rc.Ok? ==> cache.State() == old(cache.State()) && sai.live == old(sai.live)
      ensures rc.Ok? <==> sai.failures == old(sai.failures)
    {
      hide Cache.Valid, Cache.Remove;
      ghost var rif, asked;
      rc, rif, asked := DeleteBridgePort(AskSubport(brport, vlan));
      RifIsUnread(old(cache.State()), AskSubport(brport, vlan), rif);
    }

    static function AskSubport(brport: Oid, vlan: nat): Block {
      Block(brport, NULL_OID, SubportTag, vlan, NULL_OID, false)
    }

    /** Removes the block that the (port, VLAN) look-up finds, and no query but
        those that found it gets another answer. */
    method Delete1DMember(port: Oid, vlan: nat) returns (rc: Rc)
      requires Valid()
      modifies cache, sai
      ensures Valid() && (rc == Ok || rc == Cfg)
      ensures var s, v := old(cache.State()), Pv(port, vlan);
              && (v !in s.byPv ==> rc == Cfg)
              && (rc == Cfg ==> cache.State() == s && sai.live == old(sai.live))
              && (rc.Ok? ==> v in s.byPv && v !in cache.byPv)
              && (rc.Ok? ==> cache.byBrport == s.byBrport - {s.byPv[v].brport} && sai.live == old(sai.live) - {s.byPv[v].brport})
              && (rc.Ok? ==> forall q, ask :: cache.State().Find(q, ask) == Except(s.Find(q, ask), s.byPv[v]))
      ensures sai.failures == old(sai.failures) ==> (rc.Ok? <==> Pv(port, vlan) in old(cache.byPv))
    {
      hide Cache.Valid, Cache.Remove;
      ghost var s, v := cache.State(), Pv(port, vlan);
      var found := cache.GetBrportBlock(Block(NULL_OID, port, SubportTag, vlan, NULL_OID, false), FromPortVlan);
      if found.None? {
        return Cfg;
      }
      var b := found.value;
      s.FoundIsHeld(FromPortVlan, Block(NULL_OID, port, SubportTag, vlan, NULL_OID, false), b);
      rc := DeleteAllTypeSubports(b.brport, vlan);
      if rc.Ok? {
        forall q, ask
          ensures cache.State().Find(q, ask) == Except(s.Find(q, ask), b)
        {
          s.RemovalIsLocal(AskSubport(b.brport, vlan), q, ask);
        }
        assert cache.State().Find(FromPortVlan, b) == None;
      }
    }

    static function Except(r: Option<Block>, b: Block): Option<Block> {
      if r == Some(b) then None else r
    }

    // ---- 1Q ports ----

    method Create1Q(port: Oid, lag: bool) returns (rc: Rc)
      requires Valid()
      modifies cache, sai
      ensures Valid() <==> (rc.Ok? ==> port !in old(cache.byPort))
      ensures (rc == Ok || rc == Cfg) && SameOthers(old(sai.live), sai.live) && NoneLost(old(sai.live), sai.live)
      ensures rc.Ok? ==> && port in cache.byPort && cache.byPort[port].port == port && cache.byPort[port].lag == lag
                         && var x := cache.byPort[port].brport;
                            && x !in old(sai.live) && sai.live.Keys == old(sai.live).Keys + {x} && sai.live[x].BrPort?
                            && sai.live[x].port == port && sai.live[x].kind == Port
      ensures !rc.Ok? ==> cache.State() == old(cache.State())
      ensures cache.byPort.Keys == if rc.Ok? then old(cache.byPort).Keys + {port} else old(cache.byPort).Keys
      ensures sai.failures >= old(sai.failures) && (rc.Ok? <==> sai.failures == old(sai.failures))
    {
      hide BrportTable.Valid;
      var id;
      ghost var stop, leaked, asked;
      rc, id, stop, leaked, asked := CreateBridgePort(Block(NULL_OID, port, Port, 0, NULL_OID, lag));
    }

    method Delete1Q(port: Oid) returns (rc: Rc)
      requires Valid()
      modifies cache, sai
      ensures Valid() && (rc == Ok || rc == Cfg) && SameOthers(old(sai.live), sai.live)
      ensures rc.Ok? ==> port in old(cache.byPort) && cache.byPort == old(cache.byPort) - {port}
      ensures !rc.Ok? ==> cache.State() == old(cache.State()) && sai.live == old(sai.live)
      ensures sai.failures >= old(sai.failures)
      ensures rc.Ok? ==> sai.failures == old(sai.failures)
      ensures sai.failures == old(sai.failures) ==> (rc.Ok? <==> port in old(cache.byPort))
    {
      hide Cache.Valid, Cache.Remove;
      ghost var s := cache.State();
      var found := cache.GetBrportBlock(Block(NULL_OID, port, Port, 0, NULL_OID, false), FromPort);
      if found.None? {
        return Cfg;
      }
      var b := found.value;
      s.FoundIsHeld(FromPort, Block(NULL_OID, port, Port, 0, NULL_OID, false), b);
      var ask := Block(b.brport, NULL_OID, Port, 0, NULL_OID, false);
      ghost var rif, asked;
      rc, rif, asked := DeleteBridgePort(ask);
      if rc.Ok? {
        RifIsUnread(s, ask, rif);
        s.RemoveShape(ask);
      }
    }
  }
}
