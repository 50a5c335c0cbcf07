/** Reference-counted router interfaces: the two-way database of
    src/nas_ndi_router_interface_utl.cpp and the calls of
    src/nas_ndi_router_interface.c around it. */
module Rif {
  import opened Types
  import opened RifUpdate

  import Bridge
  import Runs
  import BrportCache

  datatype Attach =
    | PortAttach(npu: nat, port: nat)
    | LagAttach(lag: Oid)
    | VlanAttach(vlan: nat)
    | BridgeAttach(bridge: Oid)
    | OtherType

  /** What a RIF is known by: the MAC takes part only for a virtual one. */
  datatype RifKey = RifKey(npu: nat, vrf: Oid, attach: Attach, mac: Option<nat>) {
    predicate IsVirtual() {
      mac.Some?
    }

    /** The RIF of a 1D bridge has a router bridge port beside it, unless it is
        virtual. */
    predicate HasBridgePort() {
      attach.BridgeAttach? && !IsVirtual()
    }
  }

  datatype RifEntry = RifEntry(npu: nat, vrf: Oid, attach: Attach, flags: set<Flag>, values: Values) {
    function Key(): RifKey {
      RifKey(npu, vrf, attach, if Virtual in flags then Some(values.mac) else None)
    }
  }

  /** Two entries are for the same RIF, in the fields that say so. */
  predicate SameRif(e: RifEntry, d: RifEntry) {
    && e.npu == d.npu && e.vrf == d.vrf && e.attach == d.attach && (Virtual in e.flags <==> Virtual in d.flags)
    && (Virtual in e.flags ==> e.values.mac == d.values.mac)
  }

  lemma KeysAreRifs(e: RifEntry, d: RifEntry)
    ensures e.Key() == d.Key() <==> SameRif(e, d)
  {
  }

  /** The id under which the database has the RIF of the entry. */
  function IdOf(entryDb: map<RifKey, Oid>, e: RifEntry): Option<Oid> {
    if e.Key() in entryDb then Some(entryDb[e.Key()]) else None
  }

  /** The RIF of the entry has got the id, and no other RIF another. */
  ghost predicate RifKnown(before: map<RifKey, Oid>, after: map<RifKey, Oid>, e: RifEntry, id: Oid) {
    forall d :: IdOf(after, d) == if SameRif(e, d) then Some(id) else IdOf(before, d)
  }

  lemma KeyKnown(before: map<RifKey, Oid>, e: RifEntry, id: Oid)
    ensures RifKnown(before, before[e.Key() := id], e, id)
  {
    forall d {
      KeysAreRifs(e, d);
    }
  }

  /** The RIFs found under the id are found no more, and the others as they were. */
  ghost predicate RifForgotten(before: map<RifKey, Oid>, after: map<RifKey, Oid>, id: Oid) {
    forall d :: IdOf(after, d) == if IdOf(before, d) == Some(id) then None else IdOf(before, d)
  }

  /** The RIF object in SAI. */
  datatype RifObj = RifObj(vrf: Oid, attach: Attach, attrs: map<Flag, nat>)

  const UINT32_MAX: nat := 0xFFFF_FFFF

  datatype RefOp = Inc | Dec | Get

  lemma OneLess(m: multiset<Oid>, x: Oid)
    ensures m - multiset{x} == if m[x] == 0 then m else m[x := m[x] - 1]
  {
  }

  lemma Balance(held: multiset<Oid>, x: Oid)
    requires x in held
    ensures held - multiset{x} + multiset{x} == held
  {
  }

  datatype Call = Create(e: RifEntry) | Delete(id: Oid)

  class RifInst {
    const key: RifKey
    var refCnt: nat

    constructor (key: RifKey)
      ensures this.key == key && refCnt == 1
    {
      this.key, refCnt := key, 1;
    }

    /** A 32-bit count. */
    method Step(op: RefOp)
      modifies this
      ensures refCnt == match op
                        case Inc => if old(refCnt) >= UINT32_MAX then 0 else old(refCnt) + 1
                        case Dec => if old(refCnt) == 0 then UINT32_MAX else old(refCnt) - 1
                        case Get => old(refCnt)
    {
      match op {
        case Inc => refCnt := if refCnt >= UINT32_MAX then 0 else refCnt + 1;
        case Dec => refCnt := if refCnt == 0 then UINT32_MAX else refCnt - 1;
        case Get =>
      }
    }
  }

  class RifDb {
    var idDb: map<Oid, RifInst>
    var entryDb: map<RifKey, Oid>
    /** The holds on each RIF: one for each creation, less one for each deletion. */
    ghost var held: multiset<Oid>
    ghost var Repr: set<object>

    constructor ()
      ensures Valid() && fresh(Repr) && idDb == map[] && entryDb == map[] && held == multiset{}
    {
      idDb, entryDb, held, Repr := map[], map[], multiset{}, {this};
    }

    /** The two databases are inverse to each other. */
    static ghost predicate InverseOk(idDb: map<Oid, RifInst>, entryDb: map<RifKey, Oid>) {
      && (forall id | id in idDb :: idDb[id].key in entryDb && entryDb[idDb[id].key] == id)
      && (forall k | k in entryDb :: entryDb[k] in idDb && idDb[entryDb[k]].key == k)
    }

    /** The count of each RIF says how often it is held, at least once; what is
        not in the databases is not held. */
    static ghost predicate CountsOk(idDb: map<Oid, RifInst>, held: multiset<Oid>)
      reads set id | id in idDb :: idDb[id]
    {
      && (forall id | id in idDb :: 1 <= idDb[id].refCnt == held[id] <= UINT32_MAX)
      && (forall id | id !in idDb :: held[id] == 0)
    }

    static lemma InsertInverse(idDb: map<Oid, RifInst>, entryDb: map<RifKey, Oid>, id: Oid, inst: RifInst)
      requires InverseOk(idDb, entryDb) && inst.key !in entryDb
      ensures InverseOk(idDb[id := inst], entryDb[inst.key := id]) <==> id !in idDb
    {
      if id in idDb {
        assert idDb[id].key in entryDb && entryDb[inst.key := id][idDb[id].key] == id;
      }
    }

    static lemma EraseInverse(idDb: map<Oid, RifInst>, entryDb: map<RifKey, Oid>, id: Oid)
      requires InverseOk(idDb, entryDb) && id in idDb
      ensures InverseOk(idDb - {id}, entryDb - {idDb[id].key})
    {
    }

    static lemma OneKey(idDb: map<Oid, RifInst>, entryDb: map<RifKey, Oid>, id: Oid)
      requires InverseOk(idDb, entryDb) && id in idDb
      ensures RifForgotten(entryDb, entryDb - {idDb[id].key}, id)
    {
    }

    /** No two ids share an instance. */
    static lemma OwnInstance(idDb: map<Oid, RifInst>, entryDb: map<RifKey, Oid>, id: Oid)
      requires InverseOk(idDb, entryDb) && id in idDb
      ensures forall i | i in idDb && i != id :: idDb[i] != idDb[id]
    {
    }

    static lemma InsertCounts(idDb: map<Oid, RifInst>, held: multiset<Oid>, id: Oid, inst: RifInst)
      requires CountsOk(idDb, held) && inst.refCnt == 1
      ensures CountsOk(idDb[id := inst], held[id := 1])
    {
    }

    /** The counts are right exactly when one of them is, and all the others. */
    static lemma SplitCounts(idDb: map<Oid, RifInst>, held: multiset<Oid>, id: Oid)
      requires id in idDb
      ensures CountsOk(idDb, held) <==>
              CountsOk(idDb - {id}, held[id := 0]) && 1 <= idDb[id].refCnt == held[id] <= UINT32_MAX
    {
      var rest, h := idDb - {id}, held[id := 0];
      assert forall i :: i in rest <==> i in idDb && i != id;
      assert forall i | i in rest :: rest[i] == idDb[i];
      assert forall i :: h[i] == if i == id then 0 else held[i];
    }

    static lemma NotHeld(idDb: map<Oid, RifInst>, held: multiset<Oid>, id: Oid)
      requires CountsOk(idDb, held)
      ensures id in idDb <==> held[id] > 0
    {
    }

    static ghost predicate InRepr(idDb: map<Oid, RifInst>, repr: set<object>) {
      forall id | id in idDb :: idDb[id] in repr
    }

    ghost predicate Valid()
      reads this, Repr
    {
      && this in Repr && InRepr(idDb, Repr)
      && InverseOk(idDb, entryDb) && CountsOk(idDb, held)
    }

    lemma KnownKey(k: RifKey)
      requires Valid() && k in entryDb
      ensures entryDb[k] in idDb && idDb[entryDb[k]].key == k && idDb[entryDb[k]] in Repr && held[entryDb[k]] > 0
    {
    }

    lemma HeldIsKnown(id: Oid)
      requires Valid()
      ensures id in idDb <==> held[id] > 0
    {
    }

    lemma CountInRange(k: RifKey)
      requires Valid() && k in entryDb
      ensures held[entryDb[k]] <= UINT32_MAX
    {
    }

    lemma FirstHold(was: multiset<Oid>, id: Oid, created: bool)
      requires created ==> was[id] == 0 && held == was[id := 1]
      ensures created ==> held == was + multiset{id}
    {
    }

    method GetRifId(e: RifEntry) returns (r: Option<Oid>)
      ensures r == if e.Key() in entryDb then Some(entryDb[e.Key()]) else None
    {
      r := if e.Key() in entryDb then Some(entryDb[e.Key()]) else None;
    }

    method GetRefCnt(id: Oid) returns (n: nat)
      requires Valid()
      ensures n == held[id]
    {
      n := if id in idDb then idDb[id].refCnt else 0;
    }

    /** One hold more; at the 32-bit limit the count starts again from 0. */
    method AddRef(id: Oid)
      requires Valid() && id in idDb
      modifies this`held, idDb[id]
      ensures held == old(held) + multiset{id}
      ensures Valid() <==> old(held)[id] < 0xFFFF_FFFF
    {
      OwnInstance(idDb, entryDb, id);
      hide InverseOk;
      idDb[id].Step(Inc);
      held := held + multiset{id};
    }

    method InsertNew(k: RifKey, id: Oid)
      requires Valid() && k !in entryDb
      modifies this
      ensures entryDb == old(entryDb)[k := id] && idDb.Keys == old(idDb).Keys + {id}
      ensures held == old(held)[id := 1] && idDb[id].key == k
      ensures forall i | i in old(idDb) && i != id :: idDb[i] == old(idDb)[i]
      ensures this in Repr && fresh(Repr - old(Repr)) && (Valid() <==> id !in old(idDb))
    {
      hide InverseOk, CountsOk;
      var inst := new RifInst(k);
      InsertInverse(idDb, entryDb, id, inst);
      InsertCounts(idDb, held, id, inst);
      entryDb := entryDb[k := id];
      if id in idDb {
        idDb := idDb - {id};
        assert idDb[id := inst] == old(idDb)[id := inst];
      }
      idDb := idDb[id := inst];
      Repr := Repr + {inst};
      held := held[id := 1];
    }

    /** A new key gets an instance with count 1; a known key is held once more,
        under the id it has. */
    method CreateRif(e: RifEntry, id: Oid)
      requires Valid()
      modifies Repr
      ensures e.Key() !in old(entryDb) ==>
                && entryDb == old(entryDb)[e.Key() := id] && idDb.Keys == old(idDb).Keys + {id}
                && held == old(held)[id := 1] && idDb[id].key == e.Key()
                && (forall i | i in old(idDb) && i != id :: idDb[i] == old(idDb)[i])
                && this in Repr && fresh(Repr - old(Repr)) && (Valid() <==> id !in old(idDb))
      ensures e.Key() in old(entryDb) ==>
                && entryDb == old(entryDb) && idDb == old(idDb) && Repr == old(Repr)
                && held == old(held) + multiset{old(entryDb)[e.Key()]}
                && (Valid() <==> old(held)[old(entryDb)[e.Key()]] < UINT32_MAX)
    {
      if e.Key() in entryDb {
        AddRef(entryDb[e.Key()]);
      } else {
        InsertNew(e.Key(), id);
      }
    }

    /** One hold less; the last takes the RIF out of both databases. */
    method DeleteRif(id: Oid)
      requires Valid()
      modifies Repr
      ensures Valid() && Repr == old(Repr) && held == old(held) - multiset{id}
      ensures idDb == if old(held)[id] == 1 then old(idDb) - {id} else old(idDb)
      ensures old(held)[id] == 1 ==> id in old(idDb) && entryDb == old(entryDb) - {old(idDb)[id].key}
      ensures old(held)[id] != 1 ==> entryDb == old(entryDb)
      ensures old(held)[id] == 1 ==> RifForgotten(old(entryDb), entryDb, id)
    {
      hide InverseOk, CountsOk, RifForgotten;
      OneLess(held, id);
      if id !in idDb {
        NotHeld(idDb, held, id);
        return;
      }
      OwnInstance(idDb, entryDb, id);
      EraseInverse(idDb, entryDb, id);
      OneKey(idDb, entryDb, id);
      SplitCounts(idDb, held, id);
      var inst := idDb[id];
      inst.Step(Dec);
      held := held[id := held[id] - 1];
      assert held[id := 0] == old(held)[id := 0];
      if inst.refCnt == 0 {
        assert held == held[id := 0];
        idDb := idDb - {id};
        entryDb := entryDb - {inst.key};
      } else {
        SplitCounts(idDb, held, id);
      }
    }
  }

  /** The object with the attributes in `done` set from `v`. */
  function WithAttrs(o: RifObj, v: Values, done: set<Flag>): RifObj {
    o.(attrs := o.attrs + map f | f in done :: ValueOf(v, f))
  }

  lemma AttrSet(o: RifObj, v: Values, done: set<Flag>, f: Flag)
    ensures WithAttrs(o, v, {}) == o
    ensures WithAttrs(o, v, done + {f}) ==
            WithAttrs(o, v, done).(attrs := WithAttrs(o, v, done).attrs[f := ValueOf(v, f)])
  {
    hide ValueOf;
    var a, b := WithAttrs(o, v, done + {f}).attrs, WithAttrs(o, v, done).attrs[f := ValueOf(v, f)];
    assert a.Keys == b.Keys;
    assert forall g | g in a :: a[g] == b[g];
    assert WithAttrs(o, v, {}).attrs == o.attrs;
  }

  lemma AttrIsGiven(o: RifObj, v: Values, done: set<Flag>, f: Flag)
    ensures Gives(o.attrs, WithAttrs(o, v, done).attrs, f, f in done, ValueOf(v, f))
  {
    hide ValueOf;
  }

  lemma AttrsAreGiven(o: RifObj, v: Values, done: set<Flag>)
    requires done <= SUPPORTED + {Virtual}
    ensures AttrsGiven(o.attrs, WithAttrs(o, v, done).attrs, v, done)
  {
    hide WithAttrs, Gives;
    forall f: Flag {
      AttrIsGiven(o, v, done, f);
    }
    forall b ensures Gives(o.attrs, WithAttrs(o, v, done).attrs, Other(b), false, 0) {
      assert Other(b) !in SUPPORTED + {Virtual};
      AttrIsGiven(o, v, done, Other(b));
    }
  }

  lemma NothingGiven(attrs: map<Flag, nat>, v: Values)
    ensures AttrsGiven(attrs, attrs, v, {})
  {
  }

  /** What a creation sends: flags of other attributes are passed over. */
  lemma NewAttrsGiven(v: Values, flags: set<Flag>, attrs: map<Flag, nat>)
    requires attrs == map f | f in flags && (f.Supported() || f.Virtual?) :: ValueOf(v, f)
    ensures AttrsGiven(map[], attrs, v, flags)
  {
  }

  /** `order` lists `done`, each flag once. */
  ghost predicate Lists(order: seq<Flag>, done: set<Flag>) {
    && (forall i, j | 0 <= i < j < |order| :: order[i] != order[j])
    && (forall f :: f in order <==> f in done)
  }

  lemma NothingListed()
    ensures Lists([], {})
  {
  }

  lemma ListsSnoc(order: seq<Flag>, done: set<Flag>, f: Flag)
    requires Lists(order, done) && f !in done
    ensures Lists(order + [f], done + {f})
  {
  }

  /** The RIFs of 1D bridges, virtual ones apart. */
  ghost function RoutersOf(idDb: map<Oid, RifInst>): set<Oid> {
    set id | id in idDb && idDb[id].key.HasBridgePort()
  }

  ghost predicate SaiAgrees(live: map<Oid, RifObj>, idDb: map<Oid, RifInst>, held: multiset<Oid>, leaked: set<Oid>) {
    && live.Keys == idDb.Keys + leaked && idDb.Keys !! leaked
    && (forall id | id in idDb :: live[id].vrf == idDb[id].key.vrf && live[id].attach == idDb[id].key.attach)
    && (forall id | id in idDb && idDb[id].key.IsVirtual() :: held[id] == 1)
  }

  lemma LiveIds(live: map<Oid, RifObj>, idDb: map<Oid, RifInst>, held: multiset<Oid>, leaked: set<Oid>)
    requires SaiAgrees(live, idDb, held, leaked)
    ensures live.Keys == idDb.Keys + leaked && idDb.Keys !! leaked
  {
  }

  /** A RIF enters SAI and the databases. */
  lemma RifEnters(live: map<Oid, RifObj>, idDb: map<Oid, RifInst>, held: multiset<Oid>, leaked: set<Oid>,
                  live': map<Oid, RifObj>, idDb': map<Oid, RifInst>, id: Oid)
    requires SaiAgrees(live, idDb, held, leaked) && id !in live && live'.Keys == live.Keys + {id}
    requires forall x | x in live :: live'[x] == live[x]
    requires idDb'.Keys == idDb.Keys + {id} && forall i | i in idDb && i != id :: idDb'[i] == idDb[i]
    requires live'[id].vrf == idDb'[id].key.vrf && live'[id].attach == idDb'[id].key.attach
    ensures id !in idDb && SaiAgrees(live', idDb', held[id := 1], leaked)
  {
  }

  /** RIFs stay behind in SAI. */
  lemma RifsLeak(live: map<Oid, RifObj>, idDb: map<Oid, RifInst>, held: multiset<Oid>, leaked: set<Oid>,
                 live': map<Oid, RifObj>, leaked': set<Oid>)
    requires SaiAgrees(live, idDb, held, leaked) && leaked <= leaked' && (leaked' - leaked) !! live.Keys
    requires live'.Keys == live.Keys + (leaked' - leaked) && forall x | x in live :: live'[x] == live[x]
    ensures SaiAgrees(live', idDb, held, leaked')
  {
  }

  /** A RIF loses a hold, and with the last one leaves SAI and the databases. */
  lemma RifLeaves(live: map<Oid, RifObj>, idDb: map<Oid, RifInst>, held: multiset<Oid>, leaked: set<Oid>, id: Oid)
    requires SaiAgrees(live, idDb, held, leaked) && (held[id] > 0 <==> id in idDb)
    ensures held[id] == 1 ==> SaiAgrees(live - {id}, idDb - {id}, held - multiset{id}, leaked)
    ensures held[id] != 1 ==> SaiAgrees(live, idDb, held - multiset{id}, leaked)
  {
  }

  lemma RouterInDb(idDb: map<Oid, RifInst>, id: Oid)
    ensures id in RoutersOf(idDb) <==> id in idDb && idDb[id].key.HasBridgePort()
  {
  }

  lemma OneMoreRouter(was: map<Oid, RifInst>, now: map<Oid, RifInst>, id: Oid)
    requires id !in was && now.Keys == was.Keys + {id} && forall i | i in was :: now[i] == was[i]
    ensures RoutersOf(now) == RoutersOf(was) + (if now[id].key.HasBridgePort() then {id} else {})
  {
  }

  lemma OneRouterLess(was: map<Oid, RifInst>, now: map<Oid, RifInst>, id: Oid)
    requires now == was || now == was - {id}
    ensures RoutersOf(now) == if now == was then RoutersOf(was) else RoutersOf(was) - {id}
  {
  }

  /** The deletion has cleared a RIF from the index, after the bridge port found
      for `id` has left SAI; or it has changed nothing. */
  ghost predicate CacheCleared(c: BrportCache.Cache, live: map<Oid, Bridge.Obj>, id: Oid, cleared: Option<Oid>,
                               c': BrportCache.Cache, live': map<Oid, Bridge.Obj>) {
    if cleared.None? then c' == c && live' == live
    else
      && id in c.byRif && c' == c.(byRif := c.byRif - {cleared.value})
      && Bridge.IsPort(live, c.byRif[id].brport) && live' == live - {c.byRif[id].brport}
  }

  /** What a run of calls is told from: the holds, the ids by key, the RIFs live
      in SAI and those that should have a router bridge port, the bridge ports by
      RIF and in SAI, and how often SAI has refused. */
  datatype RifSnap = RifSnap(held: multiset<Oid>, entryDb: map<RifKey, Oid>, rifs: set<Oid>, routers: set<Oid>,
                             byRif: map<Oid, BrportCache.Block>, ports: map<Oid, Bridge.Obj>, refusals: nat) {
    predicate Dangling(id: Oid) {
      id in byRif && !Bridge.IsPort(ports, byRif[id].brport)
    }

    ghost predicate PortsOk() {
      Bridge.RoutersAreLive(byRif, ports) && byRif.Keys == routers
    }

    /** The bridge port found for `id` has left SAI, and `x` the index. */
    ghost predicate PortGone(id: Oid, x: Oid, s': RifSnap) {
      && id in byRif && Bridge.IsPort(ports, byRif[id].brport)
      && s'.ports == ports - {byRif[id].brport} && s'.byRif == byRif - {x}
    }

    /** The deletion has taken a hold. */
    ghost predicate Released(s': RifSnap) {
      s'.held != held
    }
  }

  /** What a creation does.  Without a refusal it succeeds exactly for flags that
      can be set on a known RIF, or a type that can be created. */
  ghost predicate Makes(s: RifSnap, e: RifEntry, rc: Rc, id: Oid, s': RifSnap) {
    && (if rc.Ok? then
          && s'.held == s.held + multiset{id} && s'.entryDb == s.entryDb[e.Key() := id]
          && (if e.Key() in s.entryDb then id == s.entryDb[e.Key()] && s'.rifs == s.rifs
              else id !in s.rifs && s'.rifs == s.rifs + {id})
        else s'.held == s.held && s'.entryDb == s.entryDb && s.rifs <= s'.rifs)
    && (!rc.Ok? || !e.Key().HasBridgePort() ==> s'.byRif == s.byRif)
    && (s.PortsOk() ==> s'.PortsOk())
    && (s'.refusals == s.refusals ==>
          (rc.Ok? <==> if e.Key() in s.entryDb then e.flags <= SUPPORTED else e.attach != OtherType))
  }

  /** A deletion whose bridge port has left SAI, but not its RIF from the index, or
      not the RIF itself from the databases. */
  ghost predicate Spoils(s: RifSnap, c: Call, s': RifSnap) {
    c.Delete? && s'.ports != s.ports && !(s'.byRif == s.byRif - {c.id} && s.Released(s'))
  }

  /** What a deletion does.  Without a refusal it takes a hold exactly unless that
      is the last and the RIF finds a bridge port that has left SAI. */
  ghost predicate Takes(s: RifSnap, rif: Oid, rc: Rc, s': RifSnap) {
    && (s.Released(s') ==> rc.Ok? && s.held[rif] > 0 && s'.held == s.held - multiset{rif})
    && s'.rifs == (if s.Released(s') && s.held[rif] == 1 then s.rifs - {rif} else s.rifs)
    && (rc == Ok || rc == Fail) && (rc == Fail <==> s.held[rif] == 1 && rif in s.byRif && s'.ports == s.ports)
    && ((s'.byRif == s.byRif && s'.ports == s.ports) || (s.held[rif] == 1 && exists x :: s.PortGone(rif, x, s')))
    && (s.PortsOk() ==> (s'.PortsOk() <==> !Spoils(s, Delete(rif), s')))
    && (s'.refusals == s.refusals ==>
          (s.Released(s') <==> s.held[rif] > 0 && !(s.held[rif] == 1 && s.Dangling(rif))))
  }

  ghost predicate Stepped(s: RifSnap, c: Call, rc: Rc, id: Oid, s': RifSnap) {
    && s'.refusals >= s.refusals
    && match c
       case Create(e) => Makes(s, e, rc, id, s')
       case Delete(rif) => Takes(s, rif, rc, s')
  }

  lemma RefusalsGrow(s: RifSnap, c: Call, rc: Rc, id: Oid, s': RifSnap)
    requires Stepped(s, c, rc, id, s')
    ensures s'.refusals >= s.refusals
  {
  }

  lemma PortTaken(s: RifSnap, id: Oid, cleared: Option<Oid>, released: bool, s': RifSnap)
    requires if cleared.None? then s'.byRif == s.byRif && s'.ports == s.ports
             else s.PortGone(id, cleared.value, s')
    requires s'.held == if released then s.held - multiset{id} else s.held
    requires released ==> s.held[id] > 0
    ensures cleared.Some? ==> s'.ports != s.ports && exists x :: s.PortGone(id, x, s')
    ensures Spoils(s, Delete(id), s') <==> cleared.Some? && (s.byRif - {cleared.value} != s.byRif - {id} || !released)
    ensures cleared.Some? ==> (s.byRif - {cleared.value} == s.byRif - {id} <==> cleared.value == id)
  {
    if released {
      assert s'.held[id] == s.held[id] - 1;
    }
    if cleared.Some? {
      assert s.byRif[id].brport !in s'.ports;
      assert id in s.byRif && id !in s.byRif - {id};
    }
  }

  /** A last hold whose bridge port has left SAI is never taken, whatever SAI
      answers. */
  lemma DanglingSticks(s: RifSnap, id: Oid, rc: Rc, s': RifSnap)
    requires Takes(s, id, rc, s') && s.held[id] == 1 && s.Dangling(id)
    ensures rc == Fail && s'.held == s.held && s'.rifs == s.rifs && s'.Dangling(id)
  {
  }

  lemma SteppedPorts(s: RifSnap, c: Call, rc: Rc, id: Oid, s': RifSnap)
    requires Stepped(s, c, rc, id, s') && s.PortsOk()
    ensures s'.PortsOk() <==> !Spoils(s, c, s')
  {
    hide RifSnap.PortsOk;
  }

  lemma PortsUntilSpoiled(trace: seq<RifSnap>, calls: seq<Call>, rcs: seq<Rc>, ids: seq<Oid>)
    requires |trace| == |rcs| + 1 && |rcs| == |ids| <= |calls|
    requires forall i {:trigger calls[i]} | 0 <= i < |rcs| :: Stepped(trace[i], calls[i], rcs[i], ids[i], trace[i + 1])
    ensures (forall i | 0 <= i <= |rcs| :: trace[i].PortsOk()) <==>
            trace[0].PortsOk() && forall i {:trigger calls[i]} | 0 <= i < |rcs| :: !Spoils(trace[i], calls[i], trace[i + 1])
  {
    hide Stepped, Spoils, RifSnap.PortsOk;
    var n := |rcs|;
    forall i {:trigger calls[i]} | 0 <= i < n && trace[i].PortsOk()
      ensures trace[i + 1].PortsOk() <==> !Spoils(trace[i], calls[i], trace[i + 1])
    {
      SteppedPorts(trace[i], calls[i], rcs[i], ids[i], trace[i + 1]);
    }
    var holds := seq(n + 1, i requires 0 <= i <= n => trace[i].PortsOk());
    var breaks := seq(n, i requires 0 <= i < n => Spoils(trace[i], calls[i], trace[i + 1]));
    assert forall i | 0 <= i <= n :: trace[i].PortsOk() <==> holds[i];
    assert forall i {:trigger calls[i]} | 0 <= i < n :: Spoils(trace[i], calls[i], trace[i + 1]) <==> breaks[i];
    Runs.HoldsUntilBroken(holds, breaks, n);
  }

  /** The ids that the creations among the first `n` calls have returned. */
  ghost function Created(calls: seq<Call>, rcs: seq<Rc>, ids: seq<Oid>, n: nat): multiset<Oid>
    requires n <= |rcs| == |ids| <= |calls|
  {
    if n == 0 then multiset{}
    else Created(calls, rcs, ids, n - 1) +
         if calls[n - 1].Create? && rcs[n - 1].Ok? then multiset{ids[n - 1]} else multiset{}
  }

  /** The ids whose deletion among the first `n` calls has taken a hold. */
  ghost function Released(calls: seq<Call>, trace: seq<RifSnap>, n: nat): multiset<Oid>
    requires n < |trace| <= |calls| + 1
  {
    if n == 0 then multiset{}
    else Released(calls, trace, n - 1) +
         if calls[n - 1].Delete? && trace[n - 1].Released(trace[n]) then multiset{calls[n - 1].id} else multiset{}
  }

  /** One call more: `made` and `taken` are what it adds to either side. */
  lemma BalanceOne(was: multiset<Oid>, now: multiset<Oid>, first: multiset<Oid>, c: multiset<Oid>, r: multiset<Oid>,
                   made: multiset<Oid>, taken: multiset<Oid>)
    requires was + r == first + c && now + taken == was + made
    ensures now + (r + taken) == first + (c + made)
  {
    assert now + (r + taken) == (now + taken) + r;
    assert (was + made) + r == (was + r) + made;
  }

  lemma SteppedBalance(s: RifSnap, c: Call, rc: Rc, id: Oid, s': RifSnap)
    requires Stepped(s, c, rc, id, s')
    ensures s'.held + (if c.Delete? && s.Released(s') then multiset{c.id} else multiset{}) ==
            s.held + (if c.Create? && rc.Ok? then multiset{id} else multiset{})
  {
    if c.Delete? && s.Released(s') {
      Balance(s.held, c.id);
    }
  }

  /** Holds are what the creations returned, less what the deletions took. */
  lemma {:induction false} HoldsBalance(calls: seq<Call>, rcs: seq<Rc>, ids: seq<Oid>, trace: seq<RifSnap>, n: nat)
    requires n <= |rcs| == |ids| <= |calls| && |trace| == |rcs| + 1
    requires forall i | 0 <= i < |rcs| :: Stepped(trace[i], calls[i], rcs[i], ids[i], trace[i + 1])
    ensures trace[n].held + Released(calls, trace, n) == trace[0].held + Created(calls, rcs, ids, n)
  {
    hide Stepped, RifSnap.Released;
    if n > 0 {
      HoldsBalance(calls, rcs, ids, trace, n - 1);
      var s, s', c := trace[n - 1], trace[n - 1 + 1], calls[n - 1];
      SteppedBalance(s, c, rcs[n - 1], ids[n - 1], s');
      BalanceOne(s.held, s'.held, trace[0].held, Created(calls, rcs, ids, n - 1), Released(calls, trace, n - 1),
                 if c.Create? && rcs[n - 1].Ok? then multiset{ids[n - 1]} else multiset{},
                 if c.Delete? && s.Released(s') then multiset{c.id} else multiset{});
    }
  }

  class RifApi {
    const db: RifDb
    const sai: Store<RifObj>
    const bridge: Bridge.BridgeApi
    /** RIFs left in SAI: their bridge port failed, and then their removal. */
    ghost var leaked: set<Oid>

    constructor ()
      ensures Valid() && PortsOk() && fresh(db) && fresh(db.Repr) && fresh(sai)
      ensures fresh(bridge) && fresh(bridge.cache) && fresh(bridge.sai)
      ensures db.held == multiset{} && db.idDb == map[] && db.entryDb == map[] && leaked == {} && Refusals() == 0
    {
      db := new RifDb();
      sai := new Store<RifObj>();
      bridge := new Bridge.BridgeApi();
      leaked := {};
    }

    ghost predicate Separate()
      reads this, db, bridge
    {
      && this !in db.Repr && sai !in db.Repr && db in db.Repr
      && bridge !in db.Repr && bridge.cache !in db.Repr && bridge.sai !in db.Repr
    }

    /** A RIF is live in SAI exactly when it is in the databases, for what its
        key says, or has leaked; a virtual one is held once. */
    ghost predicate SaiOk()
      reads this, db, sai
    {
      SaiAgrees(sai.live, db.idDb, db.held, leaked)
    }

    ghost predicate Valid()
      reads this, db, db.Repr, sai, bridge, bridge.cache
    {
      Separate() && db.Valid() && SaiOk() && bridge.cache.Valid()
    }

    /** The RIFs that should have a router bridge port. */
    ghost function Routers(): set<Oid>
      reads db
    {
      RoutersOf(db.idDb)
    }

    /** Each of them has one, live in SAI and found under the RIF, and no other id
        finds any. */
    ghost predicate PortsOk()
      reads db, bridge, bridge.cache, bridge.sai
    {
      bridge.RoutersOk() && bridge.cache.byRif.Keys == Routers()
    }

    /** The bridge port that a deletion finds for the RIF is none of SAI's any
        more. */
    ghost predicate Dangling(id: Oid)
      reads bridge, bridge.cache, bridge.sai
    {
      id in bridge.cache.byRif && !Bridge.IsPort(bridge.sai.live, bridge.cache.byRif[id].brport)
    }

    /** While the bridge ports agree, no deletion fails for want of one. */
    lemma NothingDangles(id: Oid)
      requires PortsOk()
      ensures !Dangling(id)
      ensures id in bridge.cache.byRif <==>
              id in db.idDb && db.idDb[id].key.attach.BridgeAttach? && db.idDb[id].key.mac.None?
    {
      RouterInDb(db.idDb, id);
      if id in bridge.cache.byRif {
        assert Bridge.RouterLive(bridge.cache.byRif[id], id, bridge.sai.live);
      }
    }

    /** The calls refused so far, of either kind of object. */
    ghost function Refusals(): nat
      reads sai, bridge, bridge.sai
    {
      sai.failures + bridge.sai.failures
    }

    ghost function Now(): RifSnap
      reads this, db, sai, bridge, bridge.cache, bridge.sai
    {
      RifSnap(db.held, db.entryDb, sai.live.Keys, Routers(), bridge.cache.byRif, bridge.sai.live, Refusals())
    }

    /** Sets the requested attributes one at a time.  For mixed flags only a
        refusal ends the loop (see `LoopEndsIff`): `patience` is how many of these
        calls SAI accepts at most before it refuses one. */
    method UpdateAttribute(id: Oid, v: Values, flags: set<Flag>, patience: nat)
      returns (rc: Rc, ghost order: seq<Flag>, ghost done: set<Flag>)
      requires id in sai.live
      modifies sai
      ensures rc == Ok || rc == Fail
      ensures done <= flags * SUPPORTED && (forall f :: f in order <==> f in done)
      ensures flags <= SUPPORTED ==> Lists(order, done) && InOrder(flags, done)
      ensures sai.live == old(sai.live)[id := WithAttrs(old(sai.live)[id], v, done)]
      ensures AttrsGiven(old(sai.live)[id].attrs, sai.live[id].attrs, v, done)
      ensures rc.Ok? ==> done == flags
      ensures sai.failures >= old(sai.failures)
      ensures sai.failures == old(sai.failures) ==> (rc.Ok? <==> flags <= SUPPORTED)
      ensures !Unmixed(flags) ==> rc == Fail && sai.failures > old(sai.failures)
    {
      hide WithAttrs, Lists, ValueOf, AttrsGiven, InOrder, Gives, Pass.Pick, Pass.Next;
      var p, n := Pass(flags, None), 0;
      ghost var o, now := sai.live[id], sai.live[id];
      order, done := [], {};
      NothingListed();
      NothingSet(flags);
      AttrSet(o, v, {}, V4State);
      AttrsAreGiven(o, v, {});
      assert sai.live[id := o] == sai.live;
      while p.flags != {}
        invariant done <= flags * SUPPORTED && (forall f :: f in order <==> f in done)
        invariant flags <= SUPPORTED ==> Lists(order, done) && InOrder(flags, done)
        invariant p.flags == flags - done
        invariant if done == {} then p.entry.None? else p.entry.Some? && p.entry.value in done
        invariant id in sai.live && sai.live == old(sai.live)[id := now] && now == WithAttrs(o, v, done)
        invariant AttrsGiven(o.attrs, now.attrs, v, done)
        invariant sai.failures == old(sai.failures) && (flags <= SUPPORTED || n <= patience)
        decreases if flags <= SUPPORTED then |p.flags| else patience - n
      {
        var pick := p.Pick();
        PickIsRequested(p, flags, done);
        if pick.None? {
          return Fail, order, done;
        }
        var f := pick.value;
        if n == patience && !(flags <= SUPPORTED) {
          sai.failures := sai.failures + 1;
          return Fail, order, done;
        }
        var ok := sai.Set(id, sai.live[id].(attrs := sai.live[id].attrs[f := ValueOf(v, f)]));
        if !ok {
          return Fail, order, done;
        }
        AttrSet(o, v, done, f);
        AttrsAreGiven(o, v, done + {f});
        now := WithAttrs(o, v, done + {f});
        if flags <= SUPPORTED {
          ListsSnoc(order, done, f);
          PickIsFirst(p, flags, done);
          OneFlagLess(flags, done, f);
        }
        order, done, p, n := order + [f], done + {f}, p.Next(), n + 1;
      }
      rc := Ok;
    }

    /** A RIF whose key is known is updated and held once more; a virtual one
        cannot be created twice. */
    method CreateKnown(e: RifEntry, patience: nat) returns (rc: Rc, id: Oid)
      requires Valid() && e.Key() in db.entryDb
      modifies db, db.Repr, sai
      ensures rc == Ok || rc == Fail
      ensures id == old(db.entryDb)[e.Key()] && sai.live.Keys == old(sai.live).Keys
      ensures db.entryDb == old(db.entryDb) && db.idDb == old(db.idDb) && db.Repr == old(db.Repr)
      ensures db.held == if rc.Ok? then old(db.held) + multiset{id} else old(db.held)
      ensures Valid() <==> rc.Ok? ==> old(db.held)[id] < 0xFFFF_FFFF
      ensures id in sai.live && sai.live[id].vrf == e.vrf && sai.live[id].attach == e.attach
      ensures Virtual in e.flags ==> rc == Fail && sai.live == old(sai.live) && sai.failures == old(sai.failures)
      ensures rc.Ok? ==> e.flags <= SUPPORTED && AttrsGiven(old(sai.live)[id].attrs, sai.live[id].attrs, e.values, e.flags)
      ensures exists done :: done <= e.flags && AttrsGiven(old(sai.live)[id].attrs, sai.live[id].attrs, e.values, done)
      ensures forall x | x in sai.live && x != id :: sai.live[x] == old(sai.live)[x]
      ensures sai.failures >= old(sai.failures)
      ensures sai.failures == old(sai.failures) ==> (rc.Ok? <==> e.flags <= SUPPORTED)
    {
      hide RifDb.Valid, AttrsGiven;
      db.KnownKey(e.Key());
      id := db.entryDb[e.Key()];
      NothingGiven(sai.live[id].attrs, e.values);
      if Virtual in e.flags {
        return Fail, id;
      }
      ghost var order, done;
      rc, order, done := UpdateAttribute(id, e.values, e.flags, patience);
      if rc.Ok? {
        db.AddRef(id);
      }
    }

    /** The RIF in SAI, with the router bridge port if it has one.  Without the
        bridge port the RIF is removed again, if SAI lets it. */
    method CreateInSai(e: RifEntry) returns (ok: bool, id: Oid)
      requires (forall x | x in leaked :: x in sai.live) && bridge.cache.Valid()
      modifies sai, this`leaked, bridge.cache, bridge.sai
      ensures ok ==> id !in old(sai.live) && sai.live.Keys == old(sai.live).Keys + {id} && leaked == old(leaked)
      ensures ok ==> sai.live[id].vrf == e.vrf && sai.live[id].attach == e.attach
      ensures ok ==> AttrsGiven(map[], sai.live[id].attrs, e.values, e.flags)
      ensures !ok ==> sai.live.Keys == old(sai.live).Keys + (leaked - old(leaked)) && old(leaked) <= leaked
      ensures !ok && leaked != old(leaked) ==>
                e.Key().HasBridgePort() && leaked == old(leaked) + {id} && id !in old(sai.live)
      ensures forall x | x in old(sai.live) :: x in sai.live && sai.live[x] == old(sai.live)[x]
      ensures bridge.cache.Valid() && (old(bridge.RoutersOk()) ==> bridge.RoutersOk())
      ensures !ok || !e.Key().HasBridgePort() ==> bridge.cache.State() == old(bridge.cache.State())
      ensures !e.Key().HasBridgePort() ==> bridge.sai.live == old(bridge.sai.live)
      ensures bridge.cache.byRif.Keys ==
              if ok && e.Key().HasBridgePort() then old(bridge.cache.byRif).Keys + {id} else old(bridge.cache.byRif).Keys
      ensures sai.failures >= old(sai.failures) && bridge.sai.failures >= old(bridge.sai.failures)
      ensures ok <==> Refusals() == old(Refusals())
    {
      hide BrportCache.BrportTable.Valid, Bridge.RoutersAreLive, AttrsGiven;
      id := NULL_OID;
      var attrs := map f | f in e.flags && (f.Supported() || f.Virtual?) :: ValueOf(e.values, f);
      NewAttrsGiven(e.values, e.flags, attrs);
      var r := sai.Create(RifObj(e.vrf, e.attach, attrs));
      if r.None? {
        return false, id;
      }
      id, ok := r.value, true;
      if e.Key().HasBridgePort() {
        var rc, brport;
        ghost var left;
        rc, brport, left := bridge.AddRouterPort(id);
        ok := rc.Ok?;
        if !ok {
          var removed := sai.Remove(id);
          if !removed {
            leaked := leaked + {id};
          }
        }
      }
    }

    method CreateNew(e: RifEntry) returns (rc: Rc, id: Oid)
      requires Valid() && e.Key() !in db.entryDb
      modifies db, db.Repr, sai, this`leaked, bridge.cache, bridge.sai
      ensures Valid() && (old(PortsOk()) ==> PortsOk()) && (rc == Ok || rc == Fail) && fresh(db.Repr - old(db.Repr))
      ensures rc.Ok? ==> old(db.held)[id] == 0 && db.held == old(db.held)[id := 1] && db.entryDb == old(db.entryDb)[e.Key() := id]
      ensures rc.Ok? ==> id !in old(sai.live) && sai.live.Keys == old(sai.live).Keys + {id}
      ensures rc.Ok? ==> sai.live[id].vrf == e.vrf && sai.live[id].attach == e.attach
      ensures rc.Ok? ==> AttrsGiven(map[], sai.live[id].attrs, e.values, e.flags)
      ensures forall x | x in old(sai.live) :: x in sai.live && sai.live[x] == old(sai.live)[x]
      ensures rc == Fail ==> db.held == old(db.held) && db.entryDb == old(db.entryDb) && db.idDb == old(db.idDb)
      ensures rc == Fail ==> sai.live.Keys == old(sai.live).Keys + (leaked - old(leaked)) && old(leaked) <= leaked
      ensures leaked != old(leaked) ==> rc == Fail && e.Key().HasBridgePort() && leaked == old(leaked) + {id}
      ensures bridge.cache.byRif.Keys ==
              if rc.Ok? && e.Key().HasBridgePort() then old(bridge.cache.byRif).Keys + {id} else old(bridge.cache.byRif).Keys
      ensures !rc.Ok? || !e.Key().HasBridgePort() ==> bridge.cache.State() == old(bridge.cache.State())
      ensures !e.Key().HasBridgePort() ==> bridge.sai.live == old(bridge.sai.live)
      ensures Refusals() >= old(Refusals())
      ensures Refusals() == old(Refusals()) ==> (rc.Ok? <==> e.attach != OtherType) && leaked == old(leaked)
    {
      hide AttrsGiven;
      hide RifDb.Valid, RifKey.HasBridgePort, BrportCache.BrportTable.Valid, Bridge.RoutersAreLive, RoutersOf, SaiAgrees;
      if e.attach.OtherType? {
        return Fail, NULL_OID;
      }
      ghost var was, held, live, left := db.idDb, db.held, sai.live, leaked;
      LiveIds(live, was, held, left);
      var ok;
      ok, id := CreateInSai(e);
      if !ok {
        RifsLeak(live, was, held, left, sai.live, leaked);
        return Fail, id;
      }
      db.HeldIsKnown(id);
      db.CreateRif(e, id);
      RifEnters(live, was, held, left, sai.live, db.idDb, id);
      OneMoreRouter(was, db.idDb, id);
      rc := Ok;
    }

    /** A new key gets a RIF that SAI did not have before. */
    method RifCreate(e: RifEntry, patience: nat) returns (rc: Rc, id: Oid)
      requires Valid()
      modifies db, db.Repr, sai, this`leaked, bridge.cache, bridge.sai
      ensures (rc == Ok || rc == Fail) && fresh(db.Repr - old(db.Repr))
      ensures Valid() <==> rc.Ok? ==> old(db.held)[id] < 0xFFFF_FFFF
      ensures old(PortsOk()) ==> PortsOk()
      ensures bridge.cache.byRif.Keys == old(bridge.cache.byRif).Keys +
                (if rc.Ok? && e.Key() !in old(db.entryDb) && e.attach.BridgeAttach? && Virtual !in e.flags then {id} else {})
      ensures rc.Ok? ==> db.held == old(db.held) + multiset{id} && db.entryDb == old(db.entryDb)[e.Key() := id]
      ensures rc.Ok? ==> RifKnown(old(db.entryDb), db.entryDb, e, id)
      ensures rc.Ok? ==>
                if e.Key() in old(db.entryDb) then id == old(db.entryDb)[e.Key()] && sai.live.Keys == old(sai.live).Keys
                else id !in old(sai.live) && sai.live.Keys == old(sai.live).Keys + {id} && old(db.held)[id] == 0
      ensures rc.Ok? ==> && sai.live[id].vrf == e.vrf && sai.live[id].attach == e.attach
                         && AttrsGiven(if id in old(sai.live) then old(sai.live)[id].attrs else map[],
                                       sai.live[id].attrs, e.values, e.flags)
      ensures forall x | x in old(sai.live) && x != id :: x in sai.live && sai.live[x] == old(sai.live)[x]
      ensures rc == Fail && id in old(sai.live) ==> exists done | done <= e.flags ::
                id in sai.live && AttrsGiven(old(sai.live)[id].attrs, sai.live[id].attrs, e.values, done)
      ensures rc == Fail ==> db.held == old(db.held) && db.entryDb == old(db.entryDb) && db.idDb == old(db.idDb)
      ensures rc == Fail ==> sai.live.Keys == old(sai.live).Keys + (leaked - old(leaked)) && old(leaked) <= leaked
      ensures leaked != old(leaked) ==>
                rc == Fail && e.Key() !in db.entryDb && e.Key().HasBridgePort() && leaked == old(leaked) + {id}
      ensures !rc.Ok? || !e.Key().HasBridgePort() ==> bridge.cache.State() == old(bridge.cache.State())
      ensures !e.Key().HasBridgePort() ==> bridge.sai.live == old(bridge.sai.live)
      ensures Refusals() >= old(Refusals())
      ensures e.Key() in old(db.entryDb) && Virtual in e.flags ==>
                rc == Fail && sai.live == old(sai.live) && Refusals() == old(Refusals())
      ensures Refusals() == old(Refusals()) ==>
                leaked == old(leaked) &&
                (rc.Ok? <==> if e.Key() in old(db.entryDb) then e.flags <= SUPPORTED else e.attach != OtherType)
    {
      hide RifDb.Valid, BrportCache.BrportTable.Valid, Bridge.RoutersAreLive, RoutersOf, SaiAgrees, AttrsGiven, RifKnown;
      var known := db.GetRifId(e);
      if known.Some? {
        rc, id := CreateKnown(e, patience);
      } else {
        rc, id := CreateNew(e);
        if id in old(sai.live) {
          NothingGiven(sai.live[id].attrs, e.values);
        }
        db.FirstHold(old(db.held), id, rc.Ok?);
      }
      if rc.Ok? {
        KeyKnown(old(db.entryDb), e, id);
      }
    }

    /** The bridge port that the cache finds for the RIF, whether or not the RIF
        should have one, and then the RIF. */
    method RemoveFromSai(id: Oid) returns (rc: Rc, ok: bool, ghost cleared: Option<Oid>)
      requires id in sai.live && bridge.cache.Valid()
      modifies sai, bridge.cache, bridge.sai
      ensures (rc == Ok || rc == Fail) && (ok ==> rc.Ok?)
      ensures sai.live == if ok then old(sai.live) - {id} else old(sai.live)
      ensures bridge.cache.Valid()
      ensures rc == Fail <==> id in old(bridge.cache.byRif) && cleared.None?
      ensures CacheCleared(old(bridge.cache.State()), old(bridge.sai.live), id, cleared, bridge.cache.State(), bridge.sai.live)
      ensures old(bridge.Valid()) ==>
                (bridge.Valid() <==>
                   (cleared.Some? ==> old(bridge.cache.byRif)[id].brport !in old(bridge.cache.byBrport)))
      ensures old(bridge.RoutersOk()) ==> (bridge.RoutersOk() <==> (cleared.Some? ==> cleared.value == id))
      ensures Refusals() >= old(Refusals()) && (ok ==> Refusals() == old(Refusals()))
      ensures Refusals() == old(Refusals()) ==> (ok <==> !old(Dangling(id)))
    {
      hide BrportCache.BrportTable.Valid, Bridge.CachedAreLive, Bridge.RoutersAreLive;
      ok := false;
      rc, cleared := bridge.DeleteRouterPort(id);
      if !rc.Ok? {
        return Fail, ok, cleared;
      }
      ok := sai.Remove(id);
    }

    /** The last hold goes only if the bridge port found for the RIF, if any, and
        the RIF do.  Only a bridge port that stays is reported, and that is what
        happens for ever to a RIF that still finds one which has left SAI; an
        unknown id changes nothing.  `cleared` is the RIF that leaves the bridge
        port's index, which is whatever an unset field holds. */
    method RifDelete(id: Oid) returns (rc: Rc, ghost released: bool, ghost cleared: Option<Oid>)
      requires Valid()
      modifies db, db.Repr, sai, bridge.cache, bridge.sai
      ensures Valid() && (rc == Ok || rc == Fail) && db.Repr == old(db.Repr)
      ensures rc == Fail <==> old(db.held)[id] == 1 && id in old(bridge.cache.byRif) && cleared.None?
      ensures cleared.Some? ==> old(db.held)[id] == 1
      ensures CacheCleared(old(bridge.cache.State()), old(bridge.sai.live), id, cleared, bridge.cache.State(), bridge.sai.live)
      ensures old(bridge.Valid()) ==>
                (bridge.Valid() <==>
                   (cleared.Some? ==> old(bridge.cache.byRif)[id].brport !in old(bridge.cache.byBrport)))
      ensures old(PortsOk()) ==> (PortsOk() <==> (cleared.Some? ==> cleared.value == id && released))
      ensures db.held == if released then old(db.held) - multiset{id} else old(db.held)
      ensures released ==> rc.Ok? && old(db.held)[id] > 0
      ensures if released && old(db.held)[id] == 1 then RifForgotten(old(db.entryDb), db.entryDb, id)
              else db.entryDb == old(db.entryDb)
      ensures db.entryDb.Keys <= old(db.entryDb).Keys
      ensures Refusals() >= old(Refusals())
      ensures Refusals() == old(Refusals()) ==>
                (released <==> old(db.held)[id] > 0 && !(old(db.held)[id] == 1 && old(Dangling(id))))
      ensures Refusals() > old(Refusals()) ==> !released && old(db.held)[id] == 1
      ensures sai.live == if released && old(db.held)[id] == 1 then old(sai.live) - {id} else old(sai.live)
      ensures id in sai.live.Keys - leaked <==> db.held[id] > 0
    {
      hide RifForgotten;
      hide RifDb.Valid, BrportCache.BrportTable.Valid, Bridge.CachedAreLive, Bridge.RoutersAreLive;
      hide RoutersOf, SaiAgrees;
      db.HeldIsKnown(id);
      OneLess(db.held, id);
      RifLeaves(sai.live, db.idDb, db.held, leaked, id);
      LiveIds(sai.live, db.idDb, db.held, leaked);
      var n := db.GetRefCnt(id);
      released, cleared := false, None;
      var ok := true;
      rc := Ok;
      if n == 1 {
        rc, ok, cleared := RemoveFromSai(id);
      }
      if ok {
        released := db.held[id] > 0;
        ghost var was := db.idDb;
        db.DeleteRif(id);
        OneRouterLess(was, db.idDb, id);
      }
      db.HeldIsKnown(id);
      if id in old(db.idDb) {
        RouterInDb(old(db.idDb), id);
      }
    }

    /** The count of the RIF with that key can go up. */
    ghost predicate HasRoom(c: Call)
      reads this, db
    {
      c.Create? && c.e.Key() in db.entryDb ==> db.held[db.entryDb[c.e.Key()]] != UINT32_MAX
    }

    method CreateStep(e: RifEntry, patience: nat) returns (rc: Rc, id: Oid)
      requires Valid() && HasRoom(Create(e))
      modifies db, db.Repr, sai, this`leaked, bridge.cache, bridge.sai
      ensures Valid() && fresh(db.Repr - old(db.Repr))
      ensures Makes(old(Now()), e, rc, id, Now()) && Refusals() >= old(Refusals())
      ensures Refusals() == old(Refusals()) ==> leaked == old(leaked)
    {
      hide RifDb.Valid, BrportCache.BrportTable.Valid, SaiAgrees;
      if e.Key() in db.entryDb {
        db.CountInRange(e.Key());
      }
      rc, id := RifCreate(e, patience);
    }

    method DeleteStep(rif: Oid) returns (rc: Rc)
      requires Valid()
      modifies db, db.Repr, sai, bridge.cache, bridge.sai
      ensures Valid() && db.Repr == old(db.Repr)
      ensures Takes(old(Now()), rif, rc, Now()) && Refusals() >= old(Refusals())
    {
      hide RifDb.Valid, BrportCache.BrportTable.Valid, SaiAgrees;
      ghost var released, cleared;
      OneLess(db.held, rif);
      ghost var s := Now();
      rc, released, cleared := RifDelete(rif);
      PortTaken(s, rif, cleared, released, Now());
    }

    method Step(c: Call, patience: nat) returns (rc: Rc, id: Oid)
      requires Valid() && HasRoom(c)
      modifies db, db.Repr, sai, this`leaked, bridge.cache, bridge.sai
      ensures Valid() && fresh(db.Repr - old(db.Repr))
      ensures Stepped(old(Now()), c, rc, id, Now())
      ensures Refusals() == old(Refusals()) ==> leaked == old(leaked)
    {
      hide RifDb.Valid, BrportCache.BrportTable.Valid, SaiAgrees, Makes, Takes;
      id := NULL_OID;
      match c {
        case Create(e) =>
          rc, id := CreateStep(e, patience);
        case Delete(rif) =>
          rc := DeleteStep(rif);
      }
    }

    /** Every run of creations and deletions, whatever SAI refuses, until a
        creation meets a count at its 32-bit limit: each step does what its call
        says, the count of each RIF is how often its creation returned it less how
        often a deletion took a hold, a RIF is live exactly when it is held or has
        leaked, and a virtual one is held once.  The bridge ports agree throughout,
        so that nothing dangles, exactly when no deletion takes one away and leaves
        its RIF behind, in the index or as a RIF. */
    method Run(calls: seq<Call>, patience: nat) returns (rcs: seq<Rc>, ids: seq<Oid>, ghost trace: seq<RifSnap>)
      requires Valid()
      modifies db, db.Repr, sai, this`leaked, bridge.cache, bridge.sai
      ensures Valid() && fresh(db.Repr - old(db.Repr))
      ensures |rcs| == |ids| <= |calls| && (|rcs| < |calls| ==> !HasRoom(calls[|rcs|]))
      ensures |trace| == |rcs| + 1 && trace[0] == old(Now()) && trace[|rcs|] == Now()
      ensures forall i | 0 <= i < |rcs| :: Stepped(trace[i], calls[i], rcs[i], ids[i], trace[i + 1])
      ensures db.held + Released(calls, trace, |rcs|) == old(db.held) + Created(calls, rcs, ids, |rcs|)
      ensures forall id :: id in sai.live.Keys - leaked <==> db.held[id] > 0
      ensures forall id | id in db.idDb && db.idDb[id].key.IsVirtual() :: db.held[id] == 1
      ensures (forall i | 0 <= i <= |rcs| :: trace[i].PortsOk()) <==>
              trace[0].PortsOk() && forall i {:trigger calls[i]} | 0 <= i < |rcs| :: !Spoils(trace[i], calls[i], trace[i + 1])
      ensures Refusals() == old(Refusals()) ==> leaked == old(leaked)
    {
      hide RifDb.Valid, BrportCache.BrportTable.Valid, Stepped, Spoils, RifSnap.PortsOk;
      rcs, ids, trace := [], [], [Now()];
      while |rcs| < |calls|
        invariant Valid() && fresh(db.Repr - old(db.Repr)) && |rcs| == |ids| <= |calls|
        invariant |trace| == |rcs| + 1 && trace[0] == old(Now()) && trace[|rcs|] == Now()
        invariant forall i | 0 <= i < |rcs| :: Stepped(trace[i], calls[i], rcs[i], ids[i], trace[i + 1])
        invariant Refusals() >= old(Refusals())
        invariant Refusals() == old(Refusals()) ==> leaked == old(leaked)
      {
        var full := IsFull(calls[|rcs|]);
        if full {
          break;
        }
        ghost var s, c := Now(), calls[|rcs|];
        var rc, id := Step(calls[|rcs|], patience);
        RefusalsGrow(s, c, rc, id, Now());
        rcs, ids, trace := rcs + [rc], ids + [id], trace + [Now()];
      }
      HoldsBalance(calls, rcs, ids, trace, |rcs|);
      PortsUntilSpoiled(trace, calls, rcs, ids);
      forall id ensures id in sai.live.Keys - leaked <==> db.held[id] > 0 {
        db.HeldIsKnown(id);
      }
    }

    method IsFull(c: Call) returns (full: bool)
      requires Valid()
      ensures full <==> !HasRoom(c)
    {
      full := false;
      if c.Create? {
        var known := db.GetRifId(c.e);
        if known.Some? {
          var count := db.GetRefCnt(known.value);
          full := count == UINT32_MAX;
        }
      }
    }
  }

  /** A 1D bridge's RIF made and deleted: if its bridge port went, but another RIF
      left the index for it, the id goes on finding a bridge port that is gone. */
  method RouterRifDeleted(e: RifEntry) returns (api: RifApi, id: Oid, made: bool, ghost cleared: Option<Oid>)
    requires e.attach.BridgeAttach? && Virtual !in e.flags
    ensures fresh(api) && fresh(api.db) && fresh(api.db.Repr) && fresh(api.sai)
    ensures fresh(api.bridge) && fresh(api.bridge.cache) && fresh(api.bridge.sai)
    ensures api.Valid() && (cleared.Some? ==> made)
    ensures cleared.Some? && cleared.value != id ==> api.Dangling(id)
    ensures api.db.held[id] <= 1 && api.db.entryDb.Keys <= {e.Key()}
    ensures api.Refusals() == 0 ==> cleared.Some? && api.db.held[id] == 0 && (cleared.value == id ==> api.PortsOk())
  {
    hide RifDb.Valid, BrportCache.BrportTable.Valid, Bridge.CachedAreLive, Bridge.RoutersAreLive;
    hide RoutersOf, SaiAgrees, AttrsGiven, RifKnown, RifForgotten, RifKey.HasBridgePort, SameRif;
    api := new RifApi();
    var rc;
    cleared := None;
    rc, id := api.RifCreate(e, 0);
    made := rc.Ok?;
    if made {
      api.db.KnownKey(e.Key());
      api.NothingDangles(id);
      ghost var released;
      rc, released, cleared := api.RifDelete(id);
    }
  }

  /** When SAI has refused the RIF itself, every further deletion fails, whatever
      SAI answers. */
  method RouterRifSticks(e: RifEntry) returns (api: RifApi, id: Oid, again: Rc, ghost cleared: Option<Oid>)
    requires e.attach.BridgeAttach? && Virtual !in e.flags
    ensures fresh(api) && api.Valid()
    ensures cleared.Some? && cleared.value != id && api.db.held[id] == 1 ==> again == Fail && api.Dangling(id)
  {
    hide RifDb.Valid, BrportCache.BrportTable.Valid, Bridge.CachedAreLive, Bridge.RoutersAreLive;
    hide RoutersOf, SaiAgrees, AttrsGiven, RifKnown, RifForgotten;
    var made;
    api, id, made, cleared := RouterRifDeleted(e);
    ghost var released, more;
    again, released, more := api.RifDelete(id);
  }

  /** When SAI gives the id out again, the new RIF cannot be deleted, although it
      never had a bridge port. */
  method InheritedPort(e: RifEntry, v: RifEntry)
    returns (api: RifApi, first: Oid, second: Option<Oid>, last: Rc, ghost cleared: Option<Oid>)
    requires e.attach.BridgeAttach? && Virtual !in e.flags && !(v.attach.BridgeAttach? && Virtual !in v.flags)
    ensures fresh(api) && api.Valid()
    ensures cleared.Some? && cleared.value != first && second == Some(first) && api.db.held[first] == 1 ==> last == Fail
    ensures api.Refusals() == 0 && v.attach != OtherType ==> second.Some? && (second == Some(first) ==> api.db.held[first] <= 1)
    ensures api.Refusals() == 0 && second == Some(first) ==> (last == Fail <==> cleared != Some(first))
  {
    hide RifDb.Valid, BrportCache.BrportTable.Valid, Bridge.CachedAreLive, Bridge.RoutersAreLive;
    hide RoutersOf, SaiAgrees, AttrsGiven, RifKnown, RifForgotten;
    var made, rc, id;
    api, first, made, cleared := RouterRifDeleted(e);
    assert v.Key() != e.Key();
    rc, id := api.RifCreate(v, 0);
    second, last := None, rc;
    if rc.Ok? {
      second := Some(id);
      if api.PortsOk() {
        api.NothingDangles(id);
      }
      ghost var released, more;
      last, released, more := api.RifDelete(id);
    }
  }
}
