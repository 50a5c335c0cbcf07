/** The bridge-port cache of src/nas_ndi_obj_cache.cpp: five indexes over the
    same bridge-port blocks. */
module BrportCache {
  import opened Types

  datatype BrType = Port | SubportTag | SubportUntag | Tunnel | Router1D | Router1Q {
    predicate Subport() {
      SubportTag? || SubportUntag?
    }
  }

  datatype Pv = Pv(port: Oid, vlan: nat)

  datatype Block = Block(brport: Oid, port: Oid, kind: BrType, vlan: nat, rif: Oid, lag: bool) {
    function PvOf(): Pv {
      Pv(port, vlan)
    }
  }

  datatype QueryType = FromPort | FromBrport | FromPortVlan | FromRif

  /** The search that a query stands for. */
  predicate Fits(q: QueryType, ask: Block, b: Block) {
    match q
    case FromBrport => !b.kind.Router1D? && b.brport == ask.brport
    case FromPort => b.kind.Port? && b.port == ask.port
    case FromPortVlan => b.kind.Subport() && b.port == ask.port && b.vlan == ask.vlan
    case FromRif => b.kind.Router1D? && b.rif == ask.rif
  }

  /** Position of the first occurrence, or the length. */
  function IndexOf(s: seq<Oid>, x: Oid): (i: nat)
    ensures i <= |s| && (i < |s| ==> s[i] == x)
    ensures forall k | 0 <= k < i :: s[k] != x
  {
    if s == [] || s[0] == x then 0 else 1 + IndexOf(s[1..], x)
  }

  /** The list without the first occurrence. */
  function Without(s: seq<Oid>, x: Oid): seq<Oid> {
    var i := IndexOf(s, x);
    if i < |s| then s[..i] + s[i + 1..] else s
  }

  predicate NoRepeat(s: seq<Oid>) {
    forall i, j | 0 <= i < j < |s| :: s[i] != s[j]
  }

  lemma WithoutLast(s: seq<Oid>, x: Oid)
    requires x !in s
    ensures Without(s + [x], x) == s
  {
    var t := s + [x];
    forall k | 0 <= k < |s| ensures t[k] != x {
      assert t[k] in s;
    }
    assert t[|s|] == x && IndexOf(t, x) == |s|;
  }

  datatype Cache = Cache(byPort: map<Oid, Block>, byBrport: map<Oid, Block>, byPv: map<Pv, Block>,
                         lists: map<Oid, seq<Oid>>, byRif: map<Oid, Block>) {

    function List(port: Oid): seq<Oid> {
      if port in lists then lists[port] else []
    }

    /** A block of the cache, other than a 1D router's. */
    predicate Has(b: Block) {
      b.brport in byBrport && byBrport[b.brport] == b
    }

    predicate HasRouter(b: Block) {
      b.rif in byRif && byRif[b.rif] == b
    }

    ghost predicate BlocksOk() {
      && (forall x | x in byBrport :: byBrport[x].brport == x && !byBrport[x].kind.Router1D?)
      && (forall r | r in byRif :: byRif[r].rif == r && byRif[r].kind.Router1D?)
    }

    ghost predicate PortIndexOk() {
      && (forall p | p in byPort :: byPort[p].port == p && byPort[p].kind.Port? && Has(byPort[p]))
      && (forall b | Has(b) && b.kind.Port? :: b.port in byPort && byPort[b.port] == b)
    }

    ghost predicate PvIndexOk() {
      && (forall v | v in byPv :: byPv[v].PvOf() == v && byPv[v].kind.Subport() && Has(byPv[v]))
      && (forall b | Has(b) && b.kind.Subport() :: b.PvOf() in byPv && byPv[b.PvOf()] == b)
    }

    ghost predicate ListOk(port: Oid) {
      && NoRepeat(List(port)) && (port in lists ==> lists[port] != [])
      && forall x :: x in List(port) <==> x in byBrport && byBrport[x].port == port
    }

    /** Each index is an exact projection of the blocks. */
    ghost predicate Valid() {
      BlocksOk() && PortIndexOk() && PvIndexOk() && forall port :: ListOk(port)
    }

    // ---- addition ----

    /** Nothing is looked up before the indexes are written. */
    function Add(b: Block): Cache {
      if b.kind.Router1D? then this.(byRif := byRif[b.rif := b])
      else Cache(if b.kind.Port? then byPort[b.port := b] else byPort,
                 byBrport[b.brport := b],
                 if b.kind.Subport() then byPv[b.PvOf() := b] else byPv,
                 lists[b.port := List(b.port) + [b.brport]],
                 byRif)
    }

    /** No index holds anything under the keys of the block. */
    predicate FreshFor(b: Block) {
      && b.brport !in byBrport
      && (b.kind.Port? ==> b.port !in byPort)
      && (b.kind.Subport() ==> b.PvOf() !in byPv)
    }

    lemma AddLists(b: Block, port: Oid)
      requires Valid() && !b.kind.Router1D? && b.brport !in byBrport
      ensures Add(b).ListOk(port)
    {
      assert ListOk(port) && ListOk(b.port);
    }

    /** Adding keeps the indexes exact if and only if the block is fresh. */
    lemma AddKeeps(b: Block)
      requires Valid()
      ensures Add(b).Valid() <==> b.kind.Router1D? || FreshFor(b)
    {
      var r := Add(b);
      if b.kind.Router1D? {
        forall port ensures r.ListOk(port) {
          assert ListOk(port);
        }
        assert forall c :: r.Has(c) <==> Has(c);
      } else if b.brport in byBrport {
        StaleList(b);
      } else {
        forall port {
          AddLists(b, port);
        }
        hide ListOk, List;
        assert forall c :: r.Has(c) <==> c == b || Has(c);
        if b.kind.Port? && b.port in byPort {
          assert r.Has(byPort[b.port]) && byPort[b.port] != b;
        }
        if b.kind.Subport() && b.PvOf() in byPv {
          assert r.Has(byPv[b.PvOf()]) && byPv[b.PvOf()] != b;
        }
      }
    }

    /** A bridge port added twice is listed twice, or under two ports. */
    lemma StaleList(b: Block)
      requires Valid() && !b.kind.Router1D? && b.brport in byBrport
      ensures !Add(b).Valid()
    {
      var r := Add(b);
      var was := byBrport[b.brport].port;
      assert ListOk(was) && b.brport in List(was);
      if was == b.port {
        var i := IndexOf(List(was), b.brport);
        assert r.List(was)[i] == b.brport == r.List(was)[|List(was)|];
        assert !NoRepeat(r.List(was));
        assert !r.ListOk(was);
      } else {
        assert r.List(was) == List(was);
        assert !r.ListOk(was);
      }
    }

    // ---- removal ----

    /** The bridge port leaves the list of its port; an empty list goes too. */
    function ListsWithout(x: Oid, port: Oid): map<Oid, seq<Oid>> {
      var rest := Without(List(port), x);
      if rest == [] then lists - {port} else lists[port := rest]
    }

    /** `ask` is what the caller filled in: the bridge port (or the RIF of a 1D
        router), the type and the VLAN.  An early exit leaves the indexes behind
        it as they were. */
    function Remove(ask: Block): (Cache, bool) {
      if ask.kind.Router1D? then
        if ask.rif in byRif then (this.(byRif := byRif - {ask.rif}), true) else (this, false)
      else if ask.brport !in byBrport then (this, false)
      else
        var port := byBrport[ask.brport].port;
        var c1 := this.(byBrport := byBrport - {ask.brport});
        if ask.brport !in List(port) then (c1.(lists := lists[port := List(port)]), false)
        else
          var c2 := c1.(lists := ListsWithout(ask.brport, port));
          if ask.kind.Subport() then
            if Pv(port, ask.vlan) in byPv then (c2.(byPv := byPv - {Pv(port, ask.vlan)}), true) else (c2, false)
          else if ask.kind.Port? then
            if port in byPort then (c2.(byPort := byPort - {port}), true) else (c2, false)
          else (c2, true)
    }

    /** The type and VLAN that the caller gives reach the index the block is in,
        and no other block's entry. */
    predicate Matching(ask: Block, b: Block) {
      if b.kind.Port? then ask.kind.Port?
      else if b.kind.Subport() then ask.kind.Subport() && ask.vlan == b.vlan
      else (ask.kind.Subport() ==> Pv(b.port, ask.vlan) !in byPv) && (ask.kind.Port? ==> b.port !in byPort)
    }

    lemma ListsWithoutOk(x: Oid, r: Cache, port: Oid)
      requires x in byBrport && ListOk(port) && ListOk(byBrport[x].port)
      requires r.byBrport == byBrport - {x} && r.lists == ListsWithout(x, byBrport[x].port)
      ensures r.ListOk(port)
    {
    }

    lemma RemoveShape(ask: Block)
      requires Valid() && !ask.kind.Router1D? && ask.brport in byBrport
      ensures var r, b := Remove(ask).0, byBrport[ask.brport];
              && r.byBrport == byBrport - {ask.brport} && r.byRif == byRif
              && r.lists == ListsWithout(ask.brport, b.port)
              && r.byPv == (if ask.kind.Subport() then byPv - {Pv(b.port, ask.vlan)} else byPv)
              && r.byPort == (if ask.kind.Port? then byPort - {b.port} else byPort)
    {
      hide PortIndexOk, PvIndexOk, ListsWithout;
      var b := byBrport[ask.brport];
      assert ListOk(b.port) && ask.brport in List(b.port);
      assert Pv(b.port, ask.vlan) !in byPv ==> byPv - {Pv(b.port, ask.vlan)} == byPv;
      assert b.port !in byPort ==> byPort - {b.port} == byPort;
    }

    /** Removing keeps the indexes exact if and only if the caller's type and
        VLAN match the cached block. */
    lemma RemoveKeeps(ask: Block)
      requires Valid() && !ask.kind.Router1D? && ask.brport in byBrport
      ensures var r, b := Remove(ask).0, byBrport[ask.brport];
              && r.byBrport == byBrport - {ask.brport}
              && (r.Valid() <==> Matching(ask, b))
    {
      var r, b := Remove(ask).0, byBrport[ask.brport];
      hide Remove, ListOk, ListsWithout;
      RemoveShape(ask);
      forall port {
        ListsWithoutOk(ask.brport, r, port);
      }
      assert Has(b) && !r.Has(b);
      assert forall c :: r.Has(c) <==> Has(c) && c != b;
      if !Matching(ask, b) {
        if b.kind.Port? {
          assert r.byPort[b.port] == b;
        } else if b.kind.Subport() {
          assert r.byPv[b.PvOf()] == b;
        } else if ask.kind.Subport() {
          var c := byPv[Pv(b.port, ask.vlan)];
          assert r.Has(c) && c.PvOf() !in r.byPv;
        } else {
          assert r.Has(byPort[b.port]);
        }
      }
    }

    /** A block that is added is held beside those that were. */
    lemma AddIsLocal(b: Block, c: Block)
      requires Valid() && (b.kind.Router1D? || FreshFor(b))
      ensures Add(b).Has(c) <==> Has(c) || (c == b && !b.kind.Router1D?)
      ensures Add(b).HasRouter(c) <==> if b.kind.Router1D? && c.rif == b.rif then c == b else HasRouter(c)
    {
    }

    /** A 1D router's bridge port is removed by its RIF; no other index moves. */
    lemma RemoveRouterKeeps(ask: Block)
      requires Valid() && ask.kind.Router1D?
      ensures var (r, ok) := Remove(ask);
              && r.Valid() && (ok <==> ask.rif in byRif)
              && (forall c :: r.HasRouter(c) <==> HasRouter(c) && c.rif != ask.rif)
              && (forall c :: r.Has(c) <==> Has(c))
    {
      var r := Remove(ask).0;
      forall port ensures r.ListOk(port) {
        assert ListOk(port);
      }
      assert forall c :: r.Has(c) <==> Has(c);
    }

    /** A fresh block added and then removed leaves every index as it was. */
    lemma AddThenRemove(b: Block, ask: Block)
      requires Valid() && !b.kind.Router1D? && FreshFor(b)
      requires ask.brport == b.brport && !ask.kind.Router1D? && Add(b).Matching(ask, b)
      requires !b.kind.Port? && !b.kind.Subport() ==> !ask.kind.Port? && !ask.kind.Subport()
      ensures Add(b).Remove(ask) == (this, true)
    {
      hide IndexOf, Without;
      assert ListOk(b.port);
      WithoutLast(List(b.port), b.brport);
      var c := Add(b);
      assert c.byBrport - {b.brport} == byBrport;
      assert b.kind.Port? ==> c.byPort - {b.port} == byPort;
      assert b.kind.Subport() ==> c.byPv - {b.PvOf()} == byPv;
      assert c.ListsWithout(b.brport, b.port) == lists;
    }

    // ---- queries ----

    function Find(q: QueryType, ask: Block): Option<Block> {
      match q
      case FromBrport => if ask.brport in byBrport then Some(byBrport[ask.brport]) else None
      case FromPortVlan => if Pv(ask.port, ask.vlan) in byPv then Some(byPv[Pv(ask.port, ask.vlan)]) else None
      case FromPort => if ask.port in byPort then Some(byPort[ask.port]) else None
      case FromRif => if ask.rif in byRif then Some(byRif[ask.rif]) else None
    }

    /** Each query finds the one block that a search of all blocks finds. */
    lemma FindIsSearch(q: QueryType, ask: Block, b: Block)
      requires Valid()
      ensures Find(q, ask) == Some(b) <==> (Has(b) || HasRouter(b)) && Fits(q, ask, b)
    {
    }

    lemma FoundIsHeld(q: QueryType, ask: Block, b: Block)
      requires Valid() && Find(q, ask) == Some(b) && !q.FromRif?
      ensures Has(b) && Fits(q, ask, b)
    {
    }

    /** After a removal, the removed block is found by no query, and every other
        answer is what it was. */
    lemma RemovalIsLocal(ask: Block, q: QueryType, other: Block)
      requires Valid() && !ask.kind.Router1D? && ask.brport in byBrport
      requires Matching(ask, byBrport[ask.brport])
      ensures var b := byBrport[ask.brport];
              Remove(ask).0.Find(q, other) == if Find(q, other) == Some(b) then None else Find(q, other)
    {
      RemoveKeeps(ask);
      RemoveShape(ask);
      hide ListOk, Remove, ListsWithout;
    }

    // ---- sizes ----

    /** The number of bridge ports over all lists. */
    ghost function Listed(m: map<Oid, seq<Oid>>): nat
      decreases |m|
    {
      if m == map[] then 0
      else
        var p := AnyKey(m);
        assert |m - {p}| < |m| by {
          assert m.Keys == (m - {p}).Keys + {p};
        }
        |m[p]| + Listed(m - {p})
    }

    static ghost function AnyKey(m: map<Oid, seq<Oid>>): (p: Oid)
      requires m != map[]
      ensures p in m
    {
      var p :| p in m;
      p
    }

    /** The list lengths sum to the number of blocks. */
    lemma ListedIsAll()
      requires Valid()
      ensures Listed(lists) == |byBrport|
    {
      var all := set x | x in byBrport && byBrport[x].port in lists;
      forall x | x in byBrport ensures byBrport[x].port in lists {
        assert ListOk(byBrport[x].port);
      }
      assert all == byBrport.Keys;
      ListedCounts(lists, all);
    }

    lemma OwnCount(p: Oid, own: set<Oid>)
      requires ListOk(p) && own == set x | x in byBrport && byBrport[x].port == p
      ensures |own| == |List(p)|
    {
      assert own == set x | x in List(p);
      DistinctSize(List(p), own);
    }

    lemma {:induction false} ListedCounts(m: map<Oid, seq<Oid>>, xs: set<Oid>)
      requires (forall port :: ListOk(port)) && forall p | p in m :: p in lists && m[p] == lists[p]
      requires xs == set x | x in byBrport && byBrport[x].port in m
      ensures Listed(m) == |xs|
      decreases |m|
    {
      if m != map[] {
        hide ListOk;
        var p := AnyKey(m);
        var m' := m - {p};
        assert m.Keys == m'.Keys + {p};
        var own := set x | x in byBrport && byBrport[x].port == p;
        var rest := set x | x in byBrport && byBrport[x].port in m';
        ListedCounts(m', rest);
        assert ListOk(p) && m[p] == List(p);
        OwnCount(p, own);
        assert xs == own + rest && own !! rest;
      }
    }
  }

  lemma {:induction false} DistinctSize(s: seq<Oid>, xs: set<Oid>)
    requires NoRepeat(s) && xs == set x | x in s
    ensures |s| == |xs|
  {
    if s != [] {
      var rest := set x | x in s[1..];
      DistinctSize(s[1..], rest);
      assert s == [s[0]] + s[1..];
      forall x | x in s[1..] ensures x != s[0] {
        var i :| 0 <= i < |s[1..]| && s[1..][i] == x;
        assert s[i + 1] == x;
      }
      assert xs == rest + {s[0]};
    }
  }

  class BrportTable {
    var byPort: map<Oid, Block>
    var byBrport: map<Oid, Block>
    var byPv: map<Pv, Block>
    var lists: map<Oid, seq<Oid>>
    var byRif: map<Oid, Block>

    constructor ()
      ensures Valid() && State() == Cache(map[], map[], map[], map[], map[])
    {
      byPort, byBrport, byPv, lists, byRif := map[], map[], map[], map[], map[];
    }

    function State(): Cache
      reads this
    {
      Cache(byPort, byBrport, byPv, lists, byRif)
    }

    ghost predicate Valid()
      reads this
    {
      State().Valid()
    }

    method AddBridgePort(b: Block)
      modifies this
      ensures State() == old(State()).Add(b)
      ensures old(Valid()) ==> (Valid() <==> b.kind.Router1D? || old(State()).FreshFor(b))
    {
      hide Cache.Valid;
      ghost var s := State();
      if s.Valid() {
        s.AddKeeps(b);
      }
      if b.kind.Router1D? {
        byRif := byRif[b.rif := b];
        return;
      }
      if b.kind.Port? {
        byPort := byPort[b.port := b];
      }
      byBrport := byBrport[b.brport := b];
      if b.kind.Subport() {
        byPv := byPv[b.PvOf() := b];
      }
      lists := lists[b.port := (if b.port in lists then lists[b.port] else []) + [b.brport]];
    }

    /** Erases the first occurrence. */
    static method EraseFirst(s: seq<Oid>, x: Oid) returns (r: seq<Oid>, found: bool)
      ensures r == Without(s, x) && (found <==> x in s)
    {
      var i := 0;
      while i < |s|
        invariant 0 <= i <= |s| && forall k | 0 <= k < i :: s[k] != x
      {
        if s[i] == x {
          assert IndexOf(s, x) == i;
          return s[..i] + s[i + 1..], true;
        }
        i := i + 1;
      }
      return s, false;
    }

    method RemoveBridgePort(ask: Block) returns (ok: bool)
      modifies this
      ensures (State(), ok) == old(State()).Remove(ask)
    {
      hide Without, IndexOf;
      if ask.kind.Router1D? {
        if ask.rif !in byRif {
          return false;
        }
        byRif := byRif - {ask.rif};
        return true;
      }
      if ask.brport !in byBrport {
        return false;
      }
      var port := byBrport[ask.brport].port;
      byBrport := byBrport - {ask.brport};
      var list, found := EraseFirst(if port in lists then lists[port] else [], ask.brport);
      if !found {
        lists := lists[port := if port in lists then lists[port] else []];
        return false;
      }
      lists := lists[port := list];
      if lists[port] == [] {
        lists := lists - {port};
      }
      assert lists == old(State()).ListsWithout(ask.brport, port);
      if ask.kind.Subport() {
        if Pv(port, ask.vlan) !in byPv {
          return false;
        }
        byPv := byPv - {Pv(port, ask.vlan)};
      }
      if ask.kind.Port? {
        if port !in byPort {
          return false;
        }
        byPort := byPort - {port};
      }
      return true;
    }

    method GetBrportBlock(ask: Block, q: QueryType) returns (r: Option<Block>)
      requires Valid()
      ensures r == State().Find(q, ask)
      ensures forall b :: r == Some(b) <==> (State().Has(b) || State().HasRouter(b)) && Fits(q, ask, b)
    {
      match q {
        case FromBrport => r := if ask.brport in byBrport then Some(byBrport[ask.brport]) else None;
        case FromPortVlan => r := if Pv(ask.port, ask.vlan) in byPv then Some(byPv[Pv(ask.port, ask.vlan)]) else None;
        case FromPort => r := if ask.port in byPort then Some(byPort[ask.port]) else None;
        case FromRif => r := if ask.rif in byRif then Some(byRif[ask.rif]) else None;
      }
      forall b ensures r == Some(b) <==> (State().Has(b) || State().HasRouter(b)) && Fits(q, ask, b) {
        State().FindIsSearch(q, ask, b);
      }
    }

    /** All bridge ports of a port, each once. */
    method GetBrportList(port: Oid) returns (r: Option<seq<Oid>>)
      requires Valid()
      ensures r.Some? ==> NoRepeat(r.value) && r.value != []
      ensures forall x :: r.Some? && x in r.value <==> x in byBrport && byBrport[x].port == port
    {
      assert State().ListOk(port);
      r := if port in lists then Some(lists[port]) else None;
    }
  }

  datatype VirtualObj = VirtualObj(oid: Oid, vid: nat)

  /** VLAN ids and virtual object ids, looked up both ways. */
  class VirtualObjCache {
    var vidToObj: map<nat, VirtualObj>
    var objToVid: map<Oid, VirtualObj>

    constructor ()
      ensures Valid() && vidToObj == map[] && objToVid == map[]
    {
      vidToObj, objToVid := map[], map[];
    }

    /** The two maps are inverse to each other. */
    ghost predicate Valid()
      reads this
    {
      && (forall v | v in vidToObj ::
            vidToObj[v].vid == v && vidToObj[v].oid in objToVid && objToVid[vidToObj[v].oid] == vidToObj[v])
      && (forall o | o in objToVid ::
            objToVid[o].oid == o && objToVid[o].vid in vidToObj && vidToObj[objToVid[o].vid] == objToVid[o])
    }

    /** The maps stay inverse exactly when neither id was bound to another. */
    method AddVirtualObj(x: VirtualObj)
      requires Valid()
      modifies this
      ensures vidToObj == old(vidToObj)[x.vid := x] && objToVid == old(objToVid)[x.oid := x]
      ensures Valid() <==>
                && (x.vid in old(vidToObj) ==> old(vidToObj)[x.vid].oid == x.oid)
                && (x.oid in old(objToVid) ==> old(objToVid)[x.oid].vid == x.vid)
    {
      vidToObj := vidToObj[x.vid := x];
      objToVid := objToVid[x.oid := x];
      if x.vid in old(vidToObj) && old(vidToObj)[x.vid].oid != x.oid {
        assert objToVid[old(vidToObj)[x.vid].oid].vid == x.vid;
      }
      if x.oid in old(objToVid) && old(objToVid)[x.oid].vid != x.vid {
        assert vidToObj[old(objToVid)[x.oid].vid].oid == x.oid;
      }
    }

    method RemoveVirtualObj(oid: Oid) returns (ok: bool)
      requires Valid()
      modifies this
      ensures Valid() && (ok <==> oid in old(objToVid))
      ensures objToVid == old(objToVid) - {oid}
      ensures forall v | v in old(vidToObj) && old(vidToObj)[v].oid != oid :: v in vidToObj && vidToObj[v] == old(vidToObj)[v]
    {
      if oid !in objToVid {
        assert objToVid - {oid} == objToVid;
        return false;
      }
      vidToObj := vidToObj - {objToVid[oid].vid};
      objToVid := objToVid - {oid};
      return true;
    }

    /** Looking a VLAN up and looking the answer up again gives the VLAN back. */
    method OidOf(vid: nat) returns (r: Option<Oid>)
      requires Valid()
      ensures forall o :: r == Some(o) <==> o in objToVid && objToVid[o].vid == vid
    {
      r := if vid in vidToObj then Some(vidToObj[vid].oid) else None;
    }

    method VidOf(oid: Oid) returns (r: Option<nat>)
      requires Valid()
      ensures forall v :: r == Some(v) <==> v in vidToObj && vidToObj[v].oid == oid
    {
      r := if oid in objToVid then Some(objToVid[oid].vid) else None;
    }
  }
}
