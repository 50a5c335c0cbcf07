/** The relation that the multicast cache encodes twice: which entries each
    replication group carries, and which group each entry is bound to.  The
    steps follow inc/opx/nas_ndi_ipmc_utl.h and src/nas_ndi_ipmc.cpp. */
module EntryRelation {
  import opened Types

  datatype Af = V4 | V6

  const HAL_INET4_FAMILY := 2

  function AfOf(afIndex: int): Af {
    if afIndex == HAL_INET4_FAMILY then V4 else V6
  }

  datatype EntryKind = SG | XG

  datatype Ip = Ip(afIndex: int, bits: nat)

  datatype Entry = Entry(vrf: Oid, kind: EntryKind, iif: Oid, dst: Ip, src: Ip,
                         replGroup: Oid, copyToCpu: bool) {
    function Af(): Af {
      AfOf(dst.afIndex)
    }
  }

  /** What two cached entries are compared by.  The source address takes part
      only for an (S,G) entry; the group and the CPU flag never do. */
  datatype EntryKey = EntryKey(npu: nat, vrf: Oid, kind: EntryKind, iif: Oid,
                               dst: nat, src: Option<nat>)

  function KeyOf(npu: nat, e: Entry): EntryKey {
    EntryKey(npu, e.vrf, e.kind, e.iif, e.dst.bits,
             if e.kind.SG? then Some(e.src.bits) else None)
  }

  /** Two entries are for the same route: what cache and SAI compare them by, in
      the fields of the entries.  The source counts for (S,G) entries alone. */
  predicate SameRoute(n: nat, e: Entry, m: nat, d: Entry) {
    && n == m && e.vrf == d.vrf && e.kind == d.kind && e.iif == d.iif
    && (e.dst.afIndex == HAL_INET4_FAMILY <==> d.dst.afIndex == HAL_INET4_FAMILY) && e.dst.bits == d.dst.bits
    && (e.kind.SG? ==> e.src.bits == d.src.bits)
  }

  /** The key and the family tell two entries apart exactly when they are for
      different routes. */
  lemma KeysAreRoutes(n: nat, e: Entry, m: nat, d: Entry)
    ensures KeyOf(n, e) == KeyOf(m, d) && e.Af() == d.Af() <==> SameRoute(n, e, m, d)
    ensures KeyOf(n, e) == KeyOf(m, d) <==>
            && n == m && e.vrf == d.vrf && e.kind == d.kind && e.iif == d.iif && e.dst.bits == d.dst.bits
            && (e.kind.SG? ==> e.src.bits == d.src.bits)
    ensures e.Af().V4? <==> e.dst.afIndex == 2
  {
  }

  lemma SymmetricRoute(n: nat, e: Entry, m: nat, d: Entry)
    ensures SameRoute(n, e, m, d) <==> SameRoute(m, d, n, e)
    ensures SameRoute(n, e, n, e)
  {
  }

  /** The mutable part of a cached entry. */
  datatype EntryData = EntryData(replGroup: Oid, copyToCpu: bool)

  function DataOf(e: Entry): EntryData {
    EntryData(e.replGroup, e.copyToCpu)
  }

  datatype GroupKey = GroupKey(npu: nat, id: Oid)

  function GroupOf(npu: nat, e: Entry): GroupKey {
    GroupKey(npu, e.replGroup)
  }

  /** One container per address family. */
  datatype Lists<T> = Lists(v4: map<EntryKey, T>, v6: map<EntryKey, T>) {
    function At(af: Af): map<EntryKey, T> {
      if af.V4? then v4 else v6
    }

    function With(af: Af, k: EntryKey, t: T): Lists<T> {
      if af.V4? then Lists(v4[k := t], v6) else Lists(v4, v6[k := t])
    }

    function Without(af: Af, k: EntryKey): Lists<T> {
      if af.V4? then Lists(v4 - {k}, v6) else Lists(v4, v6 - {k})
    }
  }

  datatype Bound = Bound(owner: GroupKey, data: EntryData)

  datatype Relation = Relation(carried: map<GroupKey, Lists<EntryData>>, bound: Lists<Bound>) {

    predicate InGroup(gk: GroupKey, af: Af, k: EntryKey) {
      gk in carried && k in carried[gk].At(af)
    }

    predicate PointsAt(af: Af, k: EntryKey, gk: GroupKey) {
      k in bound.At(af) && bound.At(af)[k].owner == gk
    }

    ghost predicate Used(gk: GroupKey) {
      exists af, k :: InGroup(gk, af, k)
    }

    /** No entry is bound to the group. */
    ghost predicate NoneAt(gk: GroupKey) {
      && (forall k | k in bound.v4 :: bound.v4[k].owner != gk)
      && (forall k | k in bound.v6 :: bound.v6[k].owner != gk)
    }

    lemma UnusedIsUnbound(gk: GroupKey)
      requires Consistent()
      ensures NoneAt(gk) <==> !Used(gk)
    {
      assert forall af, k :: InGroup(gk, af, k) <==> PointsAt(af, k, gk);
      assert forall k :: PointsAt(V4, k, gk) <==> k in bound.v4 && bound.v4[k].owner == gk;
      assert forall k :: PointsAt(V6, k, gk) <==> k in bound.v6 && bound.v6[k].owner == gk;
    }

    /** The cross-index invariant: a group carries an entry exactly when the
        global map points the entry at that group, and every copy of an entry
        names the group that carries it. */
    ghost predicate Consistent() {
      && (forall gk, af, k :: InGroup(gk, af, k) <==> PointsAt(af, k, gk))
      && (forall gk, af, k | InGroup(gk, af, k) ::
            k.npu == gk.npu && carried[gk].At(af)[k].replGroup == gk.id == bound.At(af)[k].data.replGroup)
    }

    /** Both copies of each entry hold the same CPU flag. */
    ghost predicate CopiesAgree() {
      forall gk, af, k | InGroup(gk, af, k) && k in bound.At(af) ::
        carried[gk].At(af)[k].copyToCpu == bound.At(af)[k].data.copyToCpu
    }

    function WithGroup(gk: GroupKey): Relation {
      this.(carried := carried[gk := Lists(map[], map[])])
    }

    function WithoutGroup(gk: GroupKey): Relation {
      this.(carried := carried - {gk})
    }

    /** The cache has an entry for the route of `e`. */
    predicate Has(npu: nat, e: Entry) {
      KeyOf(npu, e) in bound.At(e.Af())
    }

    /** The group that the route of `e` is bound to, and its flag there. */
    function FoundAs(npu: nat, e: Entry): (GroupKey, bool)
      requires Has(npu, e)
    {
      var b := bound.At(e.Af())[KeyOf(npu, e)];
      (b.owner, b.data.copyToCpu)
    }

    /** The routes of `r` are those of this relation but that of `e`, and each is
        bound as it is here. */
    ghost predicate OtherRoutesKept(r: Relation, npu: nat, e: Entry) {
      forall m, d | !SameRoute(npu, e, m, d) ::
        (r.Has(m, d) <==> Has(m, d)) && (Has(m, d) ==> r.FoundAs(m, d) == FoundAs(m, d))
    }

    /** The route of `e` is bound to that group, with that flag. */
    ghost predicate RouteTo(npu: nat, e: Entry, where: (GroupKey, bool)) {
      forall d | SameRoute(npu, e, npu, d) :: Has(npu, d) && FoundAs(npu, d) == where
    }

    ghost predicate RouteGone(npu: nat, e: Entry) {
      forall d | SameRoute(npu, e, npu, d) :: !Has(npu, d)
    }

    /** The group's set is written first, then the global map; each refuses an
        entry it already holds. */
    function Add(npu: nat, e: Entry): (Relation, bool) {
      var af, k, gk := e.Af(), KeyOf(npu, e), GroupOf(npu, e);
      if gk !in carried || k in carried[gk].At(af) then (this, false)
      else
        var half := this.(carried := carried[gk := carried[gk].With(af, k, DataOf(e))]);
        if k in bound.At(af) then (half, false)
        else (half.(bound := bound.With(af, k, Bound(gk, DataOf(e)))), true)
    }

    /** The entry leaves the group that the global map names. */
    function Delete(npu: nat, e: Entry): (Relation, bool) {
      var af, k := e.Af(), KeyOf(npu, e);
      if k !in bound.At(af) || !InGroup(bound.At(af)[k].owner, af, k) then (this, false)
      else
        var gk := bound.At(af)[k].owner;
        (Relation(carried[gk := carried[gk].Without(af, k)], bound.Without(af, k)), true)
    }

    /** The entry leaves its group and enters the one named by `e`.  The global
        map's own copy of the CPU flag is not refreshed. */
    function Move(npu: nat, e: Entry): (Relation, bool) {
      var af, k, gk := e.Af(), KeyOf(npu, e), GroupOf(npu, e);
      if gk !in carried || k !in bound.At(af) || !InGroup(bound.At(af)[k].owner, af, k) then (this, false)
      else
        var orig := bound.At(af)[k].owner;
        var left := carried[orig := carried[orig].Without(af, k)];
        if k in left[gk].At(af) then (this.(carried := left), false)
        else
          (Relation(left[gk := left[gk].With(af, k, DataOf(e))],
                    bound.With(af, k, Bound(gk, bound.At(af)[k].data.(replGroup := e.replGroup)))), true)
    }

    function SetCopyToCpu(npu: nat, e: Entry): (Relation, bool) {
      var af, k := e.Af(), KeyOf(npu, e);
      if k !in bound.At(af) || !InGroup(bound.At(af)[k].owner, af, k) then (this, false)
      else
        var gk := bound.At(af)[k].owner;
        var b := bound.At(af)[k];
        (Relation(carried[gk := carried[gk].With(af, k, carried[gk].At(af)[k].(copyToCpu := e.copyToCpu))],
                  bound.With(af, k, b.(data := b.data.(copyToCpu := e.copyToCpu)))), true)
    }

    // ---- what the steps keep ----

    /** No entry is in two groups, and every bound entry is in a group that
        exists. */
    lemma OneGroup(gk1: GroupKey, gk2: GroupKey, af: Af, k: EntryKey)
      requires Consistent()
      ensures InGroup(gk1, af, k) && InGroup(gk2, af, k) ==> gk1 == gk2
      ensures k in bound.At(af) <==> exists gk :: InGroup(gk, af, k)
      ensures k in bound.At(af) ==> bound.At(af)[k].owner in carried
    {
    }

    /** Apart from entry `k` of family `af`, both sides are as in `r`: who carries
        what, what it holds, and where it is bound. */
    ghost predicate SameBut(r: Relation, af: Af, k: EntryKey) {
      forall h, a, q | !(a == af && q == k) :: SameAt(r, h, a, q)
    }

    predicate SameAt(r: Relation, h: GroupKey, a: Af, q: EntryKey) {
      && (r.InGroup(h, a, q) <==> InGroup(h, a, q))
      && (InGroup(h, a, q) ==> r.carried[h].At(a)[q] == carried[h].At(a)[q])
      && (q in r.bound.At(a) <==> q in bound.At(a))
      && (q in bound.At(a) ==> r.bound.At(a)[q] == bound.At(a)[q])
    }

    /** The entry sits in group `gk` alone, with these two copies of its data. */
    ghost predicate Holds(af: Af, k: EntryKey, gk: GroupKey, inGroup: EntryData, inMap: EntryData) {
      && PointsAt(af, k, gk) && bound.At(af)[k].data == inMap
      && (forall h :: InGroup(h, af, k) <==> h == gk)
      && InGroup(gk, af, k) && carried[gk].At(af)[k] == inGroup
    }

    /** Moving one entry to (gk, inGroup, inMap) keeps the invariant; the copies go
        on agreeing exactly when the flags match. */
    lemma OneEntryMoved(r: Relation, af: Af, k: EntryKey, gk: GroupKey, inGroup: EntryData, inMap: EntryData)
      requires Consistent() && SameBut(r, af, k) && r.Holds(af, k, gk, inGroup, inMap)
      requires k.npu == gk.npu && inGroup.replGroup == gk.id == inMap.replGroup
      ensures r.Consistent()
      ensures CopiesAgree() ==> (r.CopiesAgree() <==> inGroup.copyToCpu == inMap.copyToCpu)
    {
      forall h, a, q
        ensures r.InGroup(h, a, q) == r.PointsAt(a, q, h)
        ensures r.InGroup(h, a, q) && !(a == af && q == k) ==> SameAt(r, h, a, q) && InGroup(h, a, q)
      {
        if !(a == af && q == k) {
          assert SameAt(r, h, a, q) && InGroup(h, a, q) == PointsAt(a, q, h);
        }
      }
    }

    /** `r` has the entry in group `gk` and out of every other. */
    ghost predicate IsRebound(r: Relation, af: Af, k: EntryKey, gk: GroupKey, inGroup: EntryData, inMap: EntryData) {
      && gk in carried && r.carried.Keys == carried.Keys
      && r.bound == bound.With(af, k, Bound(gk, inMap))
      && forall h | h in carried ::
           r.carried[h] == if h == gk then carried[h].With(af, k, inGroup)
                           else if k in carried[h].At(af) then carried[h].Without(af, k) else carried[h]
    }

    lemma ReboundShape(r: Relation, af: Af, k: EntryKey, gk: GroupKey, inGroup: EntryData, inMap: EntryData)
      requires IsRebound(r, af, k, gk, inGroup, inMap)
      ensures SameBut(r, af, k) && r.Holds(af, k, gk, inGroup, inMap)
    {
      forall h, a, q | !(a == af && q == k) ensures SameAt(r, h, a, q) {
      }
      forall h ensures r.InGroup(h, af, k) <==> h == gk {
      }
    }

    lemma Rebound(r: Relation, af: Af, k: EntryKey, gk: GroupKey, inGroup: EntryData, inMap: EntryData)
      requires Consistent() && k.npu == gk.npu && IsRebound(r, af, k, gk, inGroup, inMap)
      requires inGroup.replGroup == gk.id == inMap.replGroup
      ensures r.Consistent() && SameBut(r, af, k) && r.Holds(af, k, gk, inGroup, inMap)
      ensures CopiesAgree() ==> (r.CopiesAgree() <==> inGroup.copyToCpu == inMap.copyToCpu)
    {
      hide Consistent, CopiesAgree, SameBut, Holds, IsRebound;
      ReboundShape(r, af, k, gk, inGroup, inMap);
      OneEntryMoved(r, af, k, gk, inGroup, inMap);
    }

    /** Adding keeps the invariant exactly when the entry is not already bound
        to another group; when it is, the call has failed half way. */
    lemma AddKeeps(npu: nat, e: Entry)
      requires Consistent()
      ensures var (r, ok) := Add(npu, e);
              var af, k, gk := e.Af(), KeyOf(npu, e), GroupOf(npu, e);
              && (ok <==> gk in carried && k !in bound.At(af))
              && (r.Consistent() <==> !(gk in carried && k in bound.At(af) && !PointsAt(af, k, gk)))
              && (!ok && r.Consistent() ==> r == this)
              && (ok ==> SameBut(r, af, k) && r.Holds(af, k, gk, DataOf(e), DataOf(e)))
              && (ok && CopiesAgree() ==> r.CopiesAgree())
    {
      var (r, ok) := Add(npu, e);
      var af, k, gk := e.Af(), KeyOf(npu, e), GroupOf(npu, e);
      assert InGroup(gk, af, k) == PointsAt(af, k, gk);
      if ok {
        forall h | h in carried ensures k !in carried[h].At(af) {
          assert InGroup(h, af, k) == PointsAt(af, k, h);
        }
        Rebound(r, af, k, gk, DataOf(e), DataOf(e));
      } else if r != this {
        assert r.InGroup(gk, af, k) && !r.PointsAt(af, k, gk);
      }
    }

    /** Adding an entry binds its route as asked, and no other route. */
    lemma AddedRoute(npu: nat, e: Entry)
      requires Add(npu, e).1
      ensures Add(npu, e).0.RouteTo(npu, e, (GroupKey(npu, e.replGroup), e.copyToCpu)) && OtherRoutesKept(Add(npu, e).0, npu, e)
    {
      forall m, d {
        KeysAreRoutes(npu, e, m, d);
      }
    }

    lemma DeletedRoute(npu: nat, e: Entry)
      requires Delete(npu, e).1
      ensures Delete(npu, e).0.RouteGone(npu, e) && OtherRoutesKept(Delete(npu, e).0, npu, e)
    {
      forall m, d {
        KeysAreRoutes(npu, e, m, d);
      }
    }

    /** Moving an entry binds its route to the group named, with the flag that it
        had. */
    lemma MovedRoute(npu: nat, e: Entry)
      requires Move(npu, e).1
      ensures Has(npu, e) && OtherRoutesKept(Move(npu, e).0, npu, e)
      ensures Move(npu, e).0.RouteTo(npu, e, (GroupKey(npu, e.replGroup), FoundAs(npu, e).1))
    {
      forall m, d {
        KeysAreRoutes(npu, e, m, d);
      }
    }

    /** Setting the flag leaves the route where it is. */
    lemma FlaggedRoute(npu: nat, e: Entry)
      requires SetCopyToCpu(npu, e).1
      ensures Has(npu, e) && OtherRoutesKept(SetCopyToCpu(npu, e).0, npu, e)
      ensures SetCopyToCpu(npu, e).0.RouteTo(npu, e, (FoundAs(npu, e).0, e.copyToCpu))
    {
      forall m, d {
        KeysAreRoutes(npu, e, m, d);
      }
    }

    lemma DeleteKeeps(npu: nat, e: Entry)
      requires Consistent()
      ensures var (r, ok) := Delete(npu, e);
              && (ok <==> KeyOf(npu, e) in bound.At(e.Af()))
              && r.Consistent() && (CopiesAgree() ==> r.CopiesAgree())
              && SameBut(r, e.Af(), KeyOf(npu, e)) && KeyOf(npu, e) !in r.bound.At(e.Af())
    {
      var (r, ok) := Delete(npu, e);
      var af, k := e.Af(), KeyOf(npu, e);
      if k in bound.At(af) {
        assert PointsAt(af, k, bound.At(af)[k].owner);
        forall h | h in carried
          ensures r.carried[h] == if k in carried[h].At(af) then carried[h].Without(af, k) else carried[h]
        {
          assert InGroup(h, af, k) == PointsAt(af, k, h);
        }
        EntryLeaves(r, af, k);
      }
    }

    /** An entry that leaves its group and the global map. */
    lemma EntryLeaves(r: Relation, af: Af, k: EntryKey)
      requires Consistent() && r.bound == bound.Without(af, k) && r.carried.Keys == carried.Keys
      requires forall h | h in carried ::
                 r.carried[h] == if k in carried[h].At(af) then carried[h].Without(af, k) else carried[h]
      ensures r.Consistent() && SameBut(r, af, k) && (CopiesAgree() ==> r.CopiesAgree())
    {
      forall h, a, q
        ensures r.InGroup(h, a, q) == r.PointsAt(a, q, h)
        ensures r.InGroup(h, a, q) ==> InGroup(h, a, q) && !(a == af && q == k)
        ensures !(a == af && q == k) ==> SameAt(r, h, a, q)
      {
        assert InGroup(h, a, q) == PointsAt(a, q, h);
      }
    }

    /** A move always keeps the invariant.  The two copies of the CPU flag go on
        agreeing exactly when the caller repeats the flag already stored. */
    lemma MoveKeeps(npu: nat, e: Entry)
      requires Consistent()
      ensures var (r, ok) := Move(npu, e);
              var af, k, gk := e.Af(), KeyOf(npu, e), GroupOf(npu, e);
              && (ok <==> gk in carried && k in bound.At(af))
              && r.Consistent() && (!ok ==> r == this)
              && (ok ==> SameBut(r, af, k) && r.Holds(af, k, gk, DataOf(e), bound.At(af)[k].data.(replGroup := e.replGroup)))
              && (ok && CopiesAgree() ==>
                    (r.CopiesAgree() <==> e.copyToCpu == bound.At(af)[k].data.copyToCpu))
    {
      var (r, ok) := Move(npu, e);
      var af, k, gk := e.Af(), KeyOf(npu, e), GroupOf(npu, e);
      if gk in carried && k in bound.At(af) {
        var orig := bound.At(af)[k].owner;
        assert PointsAt(af, k, orig) && InGroup(orig, af, k);
        assert InGroup(gk, af, k) == PointsAt(af, k, gk);
        forall h | h in carried && h != orig ensures k !in carried[h].At(af) {
          assert InGroup(h, af, k) == PointsAt(af, k, h);
        }
        Rebound(r, af, k, gk, DataOf(e), bound.At(af)[k].data.(replGroup := e.replGroup));
      }
    }

    lemma SetCopyToCpuKeeps(npu: nat, e: Entry)
      requires Consistent()
      ensures var (r, ok) := SetCopyToCpu(npu, e);
              var af, k := e.Af(), KeyOf(npu, e);
              && (ok <==> k in bound.At(af))
              && r.Consistent() && (!ok ==> r == this)
              && (ok ==> var gk := bound.At(af)[k].owner;
                         SameBut(r, af, k) && r.Holds(af, k, gk, EntryData(gk.id, e.copyToCpu), EntryData(gk.id, e.copyToCpu)))
              && (CopiesAgree() ==> r.CopiesAgree())
    {
      var (r, ok) := SetCopyToCpu(npu, e);
      var af, k := e.Af(), KeyOf(npu, e);
      if k in bound.At(af) {
        var gk := bound.At(af)[k].owner;
        assert PointsAt(af, k, gk) && InGroup(gk, af, k);
        forall h | h in carried && h != gk ensures k !in carried[h].At(af) {
          assert InGroup(h, af, k) == PointsAt(af, k, h);
        }
        Rebound(r, af, k, gk, EntryData(gk.id, e.copyToCpu), EntryData(gk.id, e.copyToCpu));
      }
    }

    lemma WithGroupKeeps(gk: GroupKey)
      requires Consistent() && gk !in carried
      ensures WithGroup(gk).Consistent() && !WithGroup(gk).Used(gk)
      ensures CopiesAgree() ==> WithGroup(gk).CopiesAgree()
    {
      var r := WithGroup(gk);
      forall h, a, q
        ensures r.InGroup(h, a, q) == InGroup(h, a, q) && r.PointsAt(a, q, h) == PointsAt(a, q, h)
      {
        assert InGroup(gk, a, q) == PointsAt(a, q, gk);
      }
    }

    /** Dropping a group keeps the invariant exactly when it is unused. */
    lemma WithoutGroupKeeps(gk: GroupKey)
      requires Consistent()
      ensures WithoutGroup(gk).Consistent() <==> !Used(gk)
      ensures CopiesAgree() ==> WithoutGroup(gk).CopiesAgree()
    {
      var r := WithoutGroup(gk);
      forall h, a, q
        ensures r.InGroup(h, a, q) == (InGroup(h, a, q) && h != gk) && r.PointsAt(a, q, h) == PointsAt(a, q, h)
      {
      }
      if Used(gk) {
        var af, k :| InGroup(gk, af, k);
        assert PointsAt(af, k, gk) && r.PointsAt(af, k, gk) && !r.InGroup(gk, af, k);
      }
    }
  }

  const EMPTY: Relation := Relation(map[], Lists(map[], map[]))

  /** The calls a run is made of. */
  datatype Cmd =
    | CreateGroup(gk: GroupKey)
    | DeleteGroup(gk: GroupKey)
    | AddEntry(npu: nat, e: Entry)
    | DeleteEntry(npu: nat, e: Entry)
    | MoveEntry(npu: nat, e: Entry)
    | SetFlag(npu: nat, e: Entry)

  /** What the callers of the cache see to: a new group's key is not in the
      table, a group in use is not deleted, and an entry that is bound to one
      group is not added under another. */
  ghost predicate Allowed(r: Relation, c: Cmd) {
    match c
    case CreateGroup(gk) => gk !in r.carried
    case DeleteGroup(gk) => !r.Used(gk)
    case AddEntry(npu, e) =>
      GroupOf(npu, e) in r.carried && KeyOf(npu, e) in r.bound.At(e.Af()) ==>
        r.PointsAt(e.Af(), KeyOf(npu, e), GroupOf(npu, e))
    case _ => true
  }

  function Apply(r: Relation, c: Cmd): Relation {
    match c
    case CreateGroup(gk) => r.WithGroup(gk)
    case DeleteGroup(gk) => r.WithoutGroup(gk)
    case AddEntry(npu, e) => r.Add(npu, e).0
    case DeleteEntry(npu, e) => r.Delete(npu, e).0
    case MoveEntry(npu, e) => r.Move(npu, e).0
    case SetFlag(npu, e) => r.SetCopyToCpu(npu, e).0
  }

  function Run(r: Relation, cmds: seq<Cmd>): Relation
    decreases |cmds|
  {
    if cmds == [] then r else Run(Apply(r, cmds[0]), cmds[1..])
  }

  ghost predicate AllAllowed(r: Relation, cmds: seq<Cmd>)
    decreases |cmds|
  {
    cmds == [] || (Allowed(r, cmds[0]) && AllAllowed(Apply(r, cmds[0]), cmds[1..]))
  }

  /** One call keeps the invariant exactly when it is allowed: the caller's
      obligations are neither too weak nor too strong.  (A second creation of a
      group is refused by the cache before it reaches this step.) */
  lemma StepKeeps(r: Relation, c: Cmd)
    requires r.Consistent()
    requires c.CreateGroup? ==> c.gk !in r.carried
    ensures Apply(r, c).Consistent() <==> Allowed(r, c)
  {
    match c {
      case CreateGroup(gk) => r.WithGroupKeeps(gk);
      case DeleteGroup(gk) => r.WithoutGroupKeeps(gk);
      case AddEntry(npu, e) => r.AddKeeps(npu, e);
      case DeleteEntry(npu, e) => r.DeleteKeeps(npu, e);
      case MoveEntry(npu, e) => r.MoveKeeps(npu, e);
      case SetFlag(npu, e) => r.SetCopyToCpuKeeps(npu, e);
    }
  }

  lemma {:induction false} RunKeepsFrom(r: Relation, cmds: seq<Cmd>)
    requires r.Consistent() && AllAllowed(r, cmds)
    ensures Run(r, cmds).Consistent()
    decreases |cmds|
  {
    if cmds != [] {
      StepKeeps(r, cmds[0]);
      RunKeepsFrom(Apply(r, cmds[0]), cmds[1..]);
    }
  }

  /** Over every run of allowed calls on an empty cache: no entry refers to a
      group that is not in the table, none sits in two groups, and membership
      and the global map say the same. */
  lemma EveryRunIsConsistent(cmds: seq<Cmd>)
    requires AllAllowed(EMPTY, cmds)
    ensures Run(EMPTY, cmds).Consistent()
    ensures forall af, k | k in Run(EMPTY, cmds).bound.At(af) ::
              Run(EMPTY, cmds).bound.At(af)[k].owner in Run(EMPTY, cmds).carried
    ensures forall gk1, gk2, af, k ::
              Run(EMPTY, cmds).InGroup(gk1, af, k) && Run(EMPTY, cmds).InGroup(gk2, af, k) ==> gk1 == gk2
  {
    RunKeepsFrom(EMPTY, cmds);
    var r := Run(EMPTY, cmds);
    forall af, k | k in r.bound.At(af)
      ensures r.bound.At(af)[k].owner in r.carried
    {
      r.OneGroup(GroupKey(0, 0), GroupKey(0, 0), af, k);
    }
    forall gk1, gk2, af, k
      ensures r.InGroup(gk1, af, k) && r.InGroup(gk2, af, k) ==> gk1 == gk2
    {
      r.OneGroup(gk1, gk2, af, k);
    }
  }

  /** A concrete run that breaks the invariant: one entry added under two
      groups. */
  lemma SecondGroupBreaks()
    ensures exists cmds: seq<Cmd> :: !Run(EMPTY, cmds).Consistent()
  {
    var e := Entry(1, XG, 1, Ip(2, 5), Ip(2, 0), 7, false);
    var r1 := EMPTY.WithGroup(GroupKey(0, 7)).WithGroup(GroupKey(0, 8));
    EMPTY.WithGroupKeeps(GroupKey(0, 7));
    EMPTY.WithGroup(GroupKey(0, 7)).WithGroupKeeps(GroupKey(0, 8));
    r1.AddKeeps(0, e);
    var r2 := r1.Add(0, e).0;
    r2.AddKeeps(0, e.(replGroup := 8));
    var r3 := r2.Add(0, e.(replGroup := 8)).0;
    var cmds := [CreateGroup(GroupKey(0, 7)), CreateGroup(GroupKey(0, 8)), AddEntry(0, e),
                 AddEntry(0, e.(replGroup := 8))];
    assert Run(r2, cmds[3..]) == Run(r3, cmds[3..][1..]) == r3;
    assert Run(r1, cmds[2..]) == Run(r2, cmds[2..][1..]) && cmds[2..][1..] == cmds[3..];
    assert Run(EMPTY.WithGroup(GroupKey(0, 7)), cmds[1..]) == Run(r1, cmds[1..][1..]) && cmds[1..][1..] == cmds[2..];
    assert Run(EMPTY, cmds) == r3;
  }

  /** A concrete move that leaves the global map's copy of the CPU flag stale. */
  lemma MoveLeavesStaleFlag()
    ensures exists r: Relation, e: Entry ::
              r.Consistent() && r.CopiesAgree() && r.Move(0, e).1 && !r.Move(0, e).0.CopiesAgree()
  {
    var e := Entry(1, XG, 1, Ip(2, 5), Ip(2, 0), 7, false);
    var r1 := EMPTY.WithGroup(GroupKey(0, 7));
    EMPTY.WithGroupKeeps(GroupKey(0, 7));
    r1.AddKeeps(0, e);
    var r2 := r1.Add(0, e).0;
    var up := e.(copyToCpu := true);
    r2.MoveKeeps(0, up);
    assert r2.bound.At(V4)[KeyOf(0, e)].data.copyToCpu == false;
    assert r2.Move(0, up).1;
  }
}
