/** Replication groups as the cache records them, beside the objects that SAI
    holds for them, as one value; and the steps that keep the two in agreement. */
module ReplGroupState {
  import opened Types
  import opened EntryRelation

  datatype SwPort = NpuPort(npu: nat, port: nat) | LagPort(lag: Oid)

  datatype MemberKind = Rpf | Ipmc

  /** A member as the caller asks for it. */
  datatype MemberSpec = MemberSpec(rif: Oid, ports: seq<SwPort>)

  /** A member as the cache keeps it: the port list has become a set. */
  datatype Member = Member(id: Oid, rif: Oid, ports: set<SwPort>)

  function PortSet(ports: seq<SwPort>): (s: set<SwPort>)
    ensures forall p :: p in s <==> p in ports
  {
    set p | p in ports
  }

  function Rifs(reqs: seq<MemberSpec>): set<Oid> {
    set q | q in reqs :: q.rif
  }

  predicate DistinctRifs(reqs: seq<MemberSpec>) {
    forall i, j | 0 <= i < j < |reqs| :: reqs[i].rif != reqs[j].rif
  }

  lemma NoRifs()
    ensures Rifs([]) == {}
  {
  }

  lemma OneRif(m: MemberSpec)
    ensures Rifs([m]) == {m.rif}
  {
    assert [m][0] in [m];
  }

  lemma NextRifIsNew(reqs: seq<MemberSpec>, i: nat)
    requires i < |reqs|
    ensures Rifs(reqs[..i + 1]) == Rifs(reqs[..i]) + {reqs[i].rif}
    ensures DistinctRifs(reqs) ==> reqs[i].rif !in Rifs(reqs[..i])
  {
    assert reqs[..i + 1] == reqs[..i] + [reqs[i]];
  }

  function MemberOf(id: Oid, m: MemberSpec): Member {
    Member(id, m.rif, PortSet(m.ports))
  }

  function Ids(m: map<Oid, Member>): set<Oid> {
    set r | r in m :: m[r].id
  }

  /** `ids` lists the member ids of `m`, with `rifs` the keys in that order. */
  ghost predicate Enumerates(rifs: seq<Oid>, ids: seq<Oid>, m: map<Oid, Member>) {
    && |rifs| == |ids| == |m|
    && (forall r :: r in rifs <==> r in m)
    && (forall i, j | 0 <= i < j < |rifs| :: rifs[i] != rifs[j])
    && (forall i | 0 <= i < |rifs| :: rifs[i] in m && ids[i] == m[rifs[i]].id)
  }

  function AsSet(ids: seq<Oid>): set<Oid> {
    set x | x in ids
  }

  lemma SingleId(id: Oid)
    ensures AsSet([id]) == {id}
  {
  }

  /** A list of all members has all their ids. */
  lemma EnumeratedIds(rifs: seq<Oid>, ids: seq<Oid>, m: map<Oid, Member>)
    requires Enumerates(rifs, ids, m)
    ensures AsSet(ids) == Ids(m)
  {
  }

  predicate Distinct(ids: seq<Oid>) {
    forall i, j | 0 <= i < j < |ids| :: ids[i] != ids[j]
  }

  /** The SAI objects of the multicast APIs; a member keeps the RIF and the port
      list it was last given. */
  datatype McObj =
    | ReplGrp
    | SubGrp(kind: MemberKind, repl: Oid)
    | Mbr(side: MemberKind, grp: Oid, rif: Oid, ports: seq<SwPort>)

  /** The SAI calls that remove or change an object: one for each kind. */
  datatype ObjKind = ReplGroups | SubGroups(kind: MemberKind) | Members(kind: MemberKind)

  predicate IsA(o: McObj, what: ObjKind) {
    match o
    case ReplGrp => what.ReplGroups?
    case SubGrp(kind, _) => what == SubGroups(kind)
    case Mbr(side, _, _, _) => what == Members(side)
  }

  /** No object is known to the calls of two kinds. */
  lemma KindsApart(o: McObj, a: ObjKind, b: ObjKind)
    ensures IsA(o, a) && IsA(o, b) ==> a == b
    ensures exists k :: IsA(o, k)
  {
    match o {
      case ReplGrp => assert IsA(o, ReplGroups);
      case SubGrp(kind, _) => assert IsA(o, SubGroups(kind));
      case Mbr(side, _, _, _) => assert IsA(o, Members(side));
    }
  }

  /** A cached group without its entries. */
  datatype GroupRec = GroupRec(id: Oid, rpfGrp: Oid, ipmcGrp: Oid,
                               rpfMbrs: map<Oid, Member>, ipmcMbrs: map<Oid, Member>) {
    function Mbrs(kind: MemberKind): map<Oid, Member> {
      if kind.Rpf? then rpfMbrs else ipmcMbrs
    }

    function WithMbrs(kind: MemberKind, m: map<Oid, Member>): GroupRec {
      if kind.Rpf? then this.(rpfMbrs := m) else this.(ipmcMbrs := m)
    }

    function Sub(kind: MemberKind): Oid {
      if kind.Rpf? then rpfGrp else ipmcGrp
    }

    /** Every SAI object that the record accounts for. */
    function OwnedIds(): set<Oid> {
      {id, rpfGrp} + (if ipmcGrp != NULL_OID then {ipmcGrp} else {}) + Ids(rpfMbrs) + Ids(ipmcMbrs)
    }

    /** What a deletion removes: the IPMC group goes only when it has cached
        members. */
    function DeletedIds(): set<Oid> {
      {id, rpfGrp} + (if ipmcMbrs != map[] then {ipmcGrp} else {}) + Ids(rpfMbrs) + Ids(ipmcMbrs)
    }
  }

  datatype Mc = Mc(groups: map<GroupKey, GroupRec>, live: map<Oid, McObj>, orphans: set<Oid>) {

    /** The cache records SAI member `m` for that RIF on that side of the group. */
    predicate Rec(gk: GroupKey, kind: MemberKind, rif: Oid, m: Oid) {
      gk in groups && rif in groups[gk].Mbrs(kind) && groups[gk].Mbrs(kind)[rif].id == m
    }

    /** `m` is a live SAI member with that parent and RIF. */
    predicate LiveAs(m: Oid, kind: MemberKind, grp: Oid, rif: Oid) {
      m in live && live[m].Mbr? && live[m].side == kind && live[m].grp == grp && live[m].rif == rif
    }

    /** Cached groups are live and no two share a SAI id. */
    ghost predicate GroupsLive() {
      && NULL_OID !in live
      && (forall gk | gk in groups :: groups[gk].id == gk.id && gk.id in live && live[gk.id] == ReplGrp)
      && (forall g, h | g in groups && h in groups :: g.id == h.id ==> g == h)
    }

    /** What no refusal of SAI can spoil: cached groups are live. */
    ghost predicate Sound() {
      GroupsLive() && orphans <= live.Keys
    }

    /** SAI has lost these objects. */
    function Without(gone: set<Oid>): Mc {
      this.(live := live - gone, orphans := orphans - gone)
    }

    /** The same groups with the same sub-groups. */
    predicate SameSubs(before: Mc) {
      && groups.Keys == before.groups.Keys
      && forall gk | gk in groups ::
           groups[gk].rpfGrp == before.groups[gk].rpfGrp && groups[gk].ipmcGrp == before.groups[gk].ipmcGrp
    }

    /** SAI has the objects of `before`, unchanged, and the new objects `extra`. */
    ghost predicate Extends(before: Mc, extra: set<Oid>) {
      && live.Keys == before.live.Keys + extra && before.live.Keys !! extra
      && forall m | m in before.live :: live[m] == before.live[m]
    }

    /** The group's sub-groups are live; a group without an IPMC sub-group has
        no IPMC members. */
    predicate SubsLive(gk: GroupKey)
      requires gk in groups
    {
      var g := groups[gk];
      && g.rpfGrp in live && live[g.rpfGrp] == SubGrp(Rpf, g.id)
      && (if g.ipmcGrp == NULL_OID then g.ipmcMbrs == map[]
          else g.ipmcGrp in live && live[g.ipmcGrp] == SubGrp(Ipmc, g.id))
    }

    /** Recorded members are live as recorded: same parent, RIF and ports. */
    ghost predicate RecordedAreLive() {
      forall gk, kind, rif, m | Rec(gk, kind, rif, m) ::
        && LiveAs(m, kind, groups[gk].Sub(kind), rif) && m !in orphans
        && groups[gk].Mbrs(kind)[rif] == MemberOf(m, MemberSpec(rif, live[m].ports))
    }

    /** Live members are recorded, those in `orphans` apart. */
    ghost predicate LiveAreRecorded() {
      forall m | m in live && live[m].Mbr? && m !in orphans ::
        exists gk :: Rec(gk, live[m].side, live[m].rif, m)
    }

    ghost predicate OneRpfMember() {
      forall gk, r, q, m, n | Rec(gk, Rpf, r, m) && Rec(gk, Rpf, q, n) :: r == q
    }

    /** The cache and SAI agree. */
    ghost predicate Synced() {
      && GroupsLive()
      && (forall gk | gk in groups :: SubsLive(gk))
      && RecordedAreLive() && LiveAreRecorded() && OneRpfMember()
      && (forall m | m in orphans :: m in live && live[m].Mbr?)
    }

    function WithLive(m: Oid, o: McObj): Mc {
      this.(live := live[m := o])
    }

    lemma SyncedIsSound()
      requires Synced()
      ensures Sound()
    {
    }

    lemma IdIsKey(gk: GroupKey)
      requires Sound()
      ensures gk in groups ==> groups[gk].id == gk.id
    {
    }

    /** Live objects other than replication groups. */
    predicate Parts(ids: set<Oid>) {
      forall x | x in ids :: x in live && live[x] != ReplGrp
    }

    lemma NothingGone()
      ensures Without({}) == this && Parts({})
    {
    }

    lemma PartsAndGroup(parts: set<Oid>, id: Oid)
      requires Parts(parts)
      ensures Parts(parts + {id} - {id})
    {
    }

    /** Objects other than replication groups come and go freely. */
    lemma WithoutSound(gone: set<Oid>)
      requires Sound() && Parts(gone)
      ensures Without(gone).Sound() && gone <= live.Keys
    {
    }

    lemma NewObjectSound(m: Oid, o: McObj)
      requires Sound() && m !in live && m != NULL_OID
      ensures WithLive(m, o).Sound() && WithLive(m, o).(orphans := orphans + {m}).Sound()
    {
    }

    /** A new group or sub-group object that nothing records yet. */
    lemma PlainObjectKeeps(m: Oid, o: McObj)
      requires Synced() && m !in live && m != NULL_OID && !o.Mbr?
      ensures WithLive(m, o).Synced()
    {
      var r := WithLive(m, o);
      RecordsTransfer(r);
      forall gk | gk in r.groups ensures r.SubsLive(gk) {
        assert SubsLive(gk);
      }
    }

    /** When the records stay and no live member changes or appears, the two
        directions of the agreement stay. */
    lemma RecordsTransfer(r: Mc)
      requires RecordedAreLive() && LiveAreRecorded() && OneRpfMember()
      requires r.orphans == orphans
      requires forall gk, kind, rif, m :: r.Rec(gk, kind, rif, m) <==> Rec(gk, kind, rif, m)
      requires forall gk | gk in groups :: gk in r.groups && r.groups[gk] == groups[gk]
      requires forall m | m in r.live && r.live[m].Mbr? :: m in live && live[m] == r.live[m]
      requires forall m | m in live && live[m].Mbr? :: m in r.live && live[m] == r.live[m]
      ensures r.RecordedAreLive() && r.LiveAreRecorded() && r.OneRpfMember()
    {
    }

    /** A SAI member that the cache has refused and that stays live. */
    lemma OrphanKeeps(m: Oid, o: McObj)
      requires Synced() && m !in live && m != NULL_OID && o.Mbr?
      ensures WithLive(m, o).(orphans := orphans + {m}).Synced()
    {
      var r := WithLive(m, o).(orphans := orphans + {m});
      forall gk, kind, rif, x | r.Rec(gk, kind, rif, x)
        ensures r.LiveAs(x, kind, r.groups[gk].Sub(kind), rif) && x !in r.orphans
        ensures r.groups[gk].Mbrs(kind)[rif] == MemberOf(x, MemberSpec(rif, r.live[x].ports))
      {
        assert Rec(gk, kind, rif, x) && LiveAs(x, kind, groups[gk].Sub(kind), rif);
      }
      forall x | x in r.live && r.live[x].Mbr? && x !in r.orphans
        ensures exists gk :: r.Rec(gk, r.live[x].side, r.live[x].rif, x)
      {
        var gk :| Rec(gk, live[x].side, live[x].rif, x);
        assert r.Rec(gk, live[x].side, live[x].rif, x);
      }
      assert forall gk, x, m :: r.Rec(gk, Rpf, x, m) == Rec(gk, Rpf, x, m);
    }

    lemma RpfGroupIsLive(gk: GroupKey)
      requires Synced() && gk in groups
      ensures groups[gk].rpfGrp != NULL_OID
    {
      assert SubsLive(gk);
    }

    /** No two cached groups have the same RPF group. */
    lemma RpfGroupIsOwn(gk: GroupKey, h: GroupKey)
      requires Synced() && gk in groups && h in groups
      ensures groups[gk].rpfGrp == groups[h].rpfGrp <==> gk == h
    {
      assert SubsLive(gk) && SubsLive(h);
    }

    lemma RecordedIsLive(gk: GroupKey, kind: MemberKind, rif: Oid, m: Oid)
      requires Synced() && Rec(gk, kind, rif, m)
      ensures LiveAs(m, kind, groups[gk].Sub(kind), rif) && groups[gk].Mbrs(kind)[rif].rif == rif
    {
    }

    /** Two records of one SAI member are the same record. */
    lemma OneRecord(gk: GroupKey, kind: MemberKind, rif: Oid, h: GroupKey, k: MemberKind, q: Oid, m: Oid)
      requires Synced() && Rec(gk, kind, rif, m) && Rec(h, k, q, m)
      ensures gk == h && kind == k && rif == q
    {
    }

    /** The cache has that RIF on that side of the group. */
    predicate Has(gk: GroupKey, kind: MemberKind, rif: Oid) {
      gk in groups && rif in groups[gk].Mbrs(kind)
    }

    /** The cache will take one more RIF on that side. */
    predicate Accepts(gk: GroupKey, kind: MemberKind) {
      gk in groups && (kind.Rpf? ==> groups[gk].rpfMbrs == map[])
    }

    /** As `before`, with the member asked for live in SAI and recorded nowhere. */
    predicate HasOrphan(before: Mc, m: Oid, kind: MemberKind, req: MemberSpec) {
      && m in live && m !in before.live && live[m].Mbr? && live[m] == Mbr(kind, live[m].grp, req.rif, req.ports)
      && this == before.WithLive(m, live[m]).(orphans := before.orphans + {m})
    }

    /** A member written both in SAI and in the record: created under a new id,
        or given a new port list under the id it has. */
    function MemberWritten(gk: GroupKey, kind: MemberKind, m: Oid, req: MemberSpec): Mc
      requires gk in groups
    {
      var g := groups[gk];
      Mc(groups[gk := g.WithMbrs(kind, g.Mbrs(kind)[req.rif := MemberOf(m, req)])],
         live[m := Mbr(kind, g.Sub(kind), req.rif, req.ports)], orphans)
    }

    lemma WrittenAsAsked(gk: GroupKey, kind: MemberKind, m: Oid, req: MemberSpec)
      requires gk in groups
      ensures MemberWritten(gk, kind, m, req).AsAsked(gk, kind, req)
    {
    }

    /** The ports asked for are those of the member in the record and in SAI. */
    ghost predicate PortsAsAsked(gk: GroupKey, kind: MemberKind, m: Oid, req: MemberSpec) {
      && Rec(gk, kind, req.rif, m) && (forall p :: p in groups[gk].Mbrs(kind)[req.rif].ports <==> p in req.ports)
      && m in live && live[m].Mbr? && live[m].ports == req.ports
    }

    lemma PortsAreAsAsked(before: Mc, gk: GroupKey, kind: MemberKind, m: Oid, req: MemberSpec)
      requires PortsWritten(before, gk, kind, m, req)
      ensures PortsAsAsked(gk, kind, m, req)
    {
    }

    /** As `before`, with a new port list for recorded member `m` on both sides.
        What SAI holds under that id keeps its parent and RIF. */
    predicate PortsWritten(before: Mc, gk: GroupKey, kind: MemberKind, m: Oid, req: MemberSpec) {
      && before.Rec(gk, kind, req.rif, m) && m in before.live && IsA(before.live[m], Members(kind))
      && var g := before.groups[gk];
         var mbrs := g.Mbrs(kind)[req.rif := g.Mbrs(kind)[req.rif].(ports := PortSet(req.ports))];
         this == before.WithLive(m, before.live[m].(ports := req.ports)).(
                   groups := before.groups[gk := g.WithMbrs(kind, mbrs)])
    }

    ghost predicate Writable(gk: GroupKey, kind: MemberKind, m: Oid, req: MemberSpec) {
      && gk in groups
      && (Rec(gk, kind, req.rif, m)
          || (m !in live && m != NULL_OID && req.rif !in groups[gk].Mbrs(kind) && groups[gk].Sub(kind) != NULL_OID
              && (kind.Rpf? ==> groups[gk].rpfMbrs == map[])))
    }

    lemma WrittenRec(gk: GroupKey, kind: MemberKind, m: Oid, req: MemberSpec, h: GroupKey, k: MemberKind, q: Oid, x: Oid)
      requires Synced() && Writable(gk, kind, m, req)
      ensures var r := MemberWritten(gk, kind, m, req);
              && (r.Rec(h, k, q, x) <==> (x != m && Rec(h, k, q, x)) || (h == gk && k == kind && q == req.rif && x == m))
              && (x != m && Rec(h, k, q, x) ==>
                    && LiveAs(x, k, groups[h].Sub(k), q) && r.live[x] == live[x]
                    && r.groups[h].Sub(k) == groups[h].Sub(k)
                    && r.groups[h].Mbrs(k)[q] == groups[h].Mbrs(k)[q])
    {
      if Rec(h, k, q, x) && Rec(gk, kind, req.rif, m) && x == m {
        OneRecord(gk, kind, req.rif, h, k, q, m);
      }
    }

    lemma WrittenRecordedAreLive(gk: GroupKey, kind: MemberKind, m: Oid, req: MemberSpec)
      requires Synced() && Writable(gk, kind, m, req)
      ensures MemberWritten(gk, kind, m, req).RecordedAreLive()
    {
      var r := MemberWritten(gk, kind, m, req);
      assert Rec(gk, kind, req.rif, m) ==> m !in orphans;
      forall h, k, q, x | r.Rec(h, k, q, x)
        ensures r.LiveAs(x, k, r.groups[h].Sub(k), q) && x !in r.orphans
        ensures r.groups[h].Mbrs(k)[q] == MemberOf(x, MemberSpec(q, r.live[x].ports))
      {
        WrittenRec(gk, kind, m, req, h, k, q, x);
      }
    }

    lemma WrittenLiveAreRecorded(gk: GroupKey, kind: MemberKind, m: Oid, req: MemberSpec)
      requires Synced() && Writable(gk, kind, m, req)
      ensures MemberWritten(gk, kind, m, req).LiveAreRecorded()
    {
      var r := MemberWritten(gk, kind, m, req);
      forall x | x in r.live && r.live[x].Mbr? && x !in r.orphans
        ensures exists h :: r.Rec(h, r.live[x].side, r.live[x].rif, x)
      {
        var h := gk;
        if x != m {
          h :| Rec(h, live[x].side, live[x].rif, x);
        }
        WrittenRec(gk, kind, m, req, h, r.live[x].side, r.live[x].rif, x);
      }
    }

    lemma WrittenRest(gk: GroupKey, kind: MemberKind, m: Oid, req: MemberSpec)
      requires Synced() && Writable(gk, kind, m, req)
      ensures var r := MemberWritten(gk, kind, m, req);
              r.GroupsLive() && (forall h | h in r.groups :: r.SubsLive(h)) && r.OneRpfMember()
    {
      var r := MemberWritten(gk, kind, m, req);
      assert m in live ==> live[m].Mbr? by {
        if m in live { assert LiveAs(m, kind, groups[gk].Sub(kind), req.rif); }
      }
      forall h | h in r.groups ensures r.SubsLive(h) {
        assert SubsLive(h);
      }
      forall h, u, v, x, y | r.Rec(h, Rpf, u, x) && r.Rec(h, Rpf, v, y) ensures u == v {
        WrittenRec(gk, kind, m, req, h, Rpf, u, x);
        WrittenRec(gk, kind, m, req, h, Rpf, v, y);
      }
    }

    lemma MemberWrittenKeeps(gk: GroupKey, kind: MemberKind, m: Oid, req: MemberSpec)
      requires Synced() && Writable(gk, kind, m, req)
      ensures MemberWritten(gk, kind, m, req).Synced()
    {
      WrittenRecordedAreLive(gk, kind, m, req);
      WrittenLiveAreRecorded(gk, kind, m, req);
      WrittenRest(gk, kind, m, req);
    }

    /** A member removed from SAI and from the record. */
    function MemberRemoved(gk: GroupKey, kind: MemberKind, rif: Oid): Mc
      requires gk in groups && rif in groups[gk].Mbrs(kind)
    {
      var g := groups[gk];
      this.(groups := groups[gk := g.WithMbrs(kind, g.Mbrs(kind) - {rif})]).Without({g.Mbrs(kind)[rif].id})
    }

    lemma RemovedIsGone(gk: GroupKey, kind: MemberKind, rif: Oid)
      requires gk in groups && rif in groups[gk].Mbrs(kind)
      ensures !MemberRemoved(gk, kind, rif).Has(gk, kind, rif)
      ensures groups[gk].Mbrs(kind)[rif].id !in MemberRemoved(gk, kind, rif).live
    {
    }

    lemma RemovedRec(gk: GroupKey, kind: MemberKind, rif: Oid, h: GroupKey, k: MemberKind, q: Oid, x: Oid)
      requires Synced() && gk in groups && rif in groups[gk].Mbrs(kind)
      ensures var r := MemberRemoved(gk, kind, rif);
              && (r.Rec(h, k, q, x) <==> Rec(h, k, q, x) && x != groups[gk].Mbrs(kind)[rif].id)
              && (r.Rec(h, k, q, x) ==>
                    && LiveAs(x, k, groups[h].Sub(k), q) && r.groups[h].Sub(k) == groups[h].Sub(k)
                    && r.groups[h].Mbrs(k)[q] == groups[h].Mbrs(k)[q])
    {
      var m := groups[gk].Mbrs(kind)[rif].id;
      assert Rec(gk, kind, rif, m);
      if Rec(h, k, q, x) && x == m {
        OneRecord(gk, kind, rif, h, k, q, m);
      }
    }

    lemma RemovedRecords(gk: GroupKey, kind: MemberKind, rif: Oid)
      requires Synced() && gk in groups && rif in groups[gk].Mbrs(kind)
      ensures var r := MemberRemoved(gk, kind, rif); r.RecordedAreLive() && r.LiveAreRecorded()
    {
      var r := MemberRemoved(gk, kind, rif);
      forall h, k, q, x | r.Rec(h, k, q, x)
        ensures r.LiveAs(x, k, r.groups[h].Sub(k), q) && x !in r.orphans
        ensures r.groups[h].Mbrs(k)[q] == MemberOf(x, MemberSpec(q, r.live[x].ports))
      {
        RemovedRec(gk, kind, rif, h, k, q, x);
      }
      forall x | x in r.live && r.live[x].Mbr? && x !in r.orphans
        ensures exists h :: r.Rec(h, r.live[x].side, r.live[x].rif, x)
      {
        var h :| Rec(h, live[x].side, live[x].rif, x);
        RemovedRec(gk, kind, rif, h, live[x].side, live[x].rif, x);
      }
    }

    lemma MemberRemovedKeeps(gk: GroupKey, kind: MemberKind, rif: Oid)
      requires Synced() && gk in groups && rif in groups[gk].Mbrs(kind)
      ensures MemberRemoved(gk, kind, rif).Synced()
    {
      var r := MemberRemoved(gk, kind, rif);
      var m := groups[gk].Mbrs(kind)[rif].id;
      assert Rec(gk, kind, rif, m) && LiveAs(m, kind, groups[gk].Sub(kind), rif);
      RemovedRecords(gk, kind, rif);
      forall h | h in r.groups ensures r.SubsLive(h) {
        assert SubsLive(h);
      }
      forall h, u, v, x, y | r.Rec(h, Rpf, u, x) && r.Rec(h, Rpf, v, y) ensures u == v {
        RemovedRec(gk, kind, rif, h, Rpf, u, x);
        RemovedRec(gk, kind, rif, h, Rpf, v, y);
      }
    }

    /** Members come and go, in SAI and in the records, without touching the
        groups. */
    lemma MembersSound(r: Mc)
      requires Sound() && r.groups.Keys == groups.Keys && (forall gk | gk in groups :: r.groups[gk].id == groups[gk].id)
      requires r.orphans == orphans && live.Keys <= r.live.Keys && (NULL_OID in r.live ==> NULL_OID in live)
      requires forall m | m in live && live[m] == ReplGrp :: m in r.live && r.live[m] == ReplGrp
      ensures r.Sound()
    {
    }

    /** A group, just created in SAI with its sub-groups, entering the cache. */
    function GroupAdded(gk: GroupKey, rpfGrp: Oid, ipmcGrp: Oid): Mc {
      this.(groups := groups[gk := GroupRec(gk.id, rpfGrp, ipmcGrp, map[], map[])])
    }

    lemma GroupAddedKeeps(gk: GroupKey, rpfGrp: Oid, ipmcGrp: Oid)
      requires Synced() && gk !in groups && (forall h | h in groups :: h.id != gk.id)
      requires gk.id in live && live[gk.id] == ReplGrp
      requires rpfGrp in live && live[rpfGrp] == SubGrp(Rpf, gk.id)
      requires ipmcGrp == NULL_OID || (ipmcGrp in live && live[ipmcGrp] == SubGrp(Ipmc, gk.id))
      ensures GroupAdded(gk, rpfGrp, ipmcGrp).Synced()
    {
      var r := GroupAdded(gk, rpfGrp, ipmcGrp);
      assert forall h, k, q, x :: r.Rec(h, k, q, x) <==> Rec(h, k, q, x);
      RecordsTransfer(r);
      forall h | h in r.groups ensures r.SubsLive(h) {
        if h != gk { assert SubsLive(h); }
      }
    }

    /** A group leaving the cache after everything `DeletedIds` names has left
        SAI. */
    function GroupRemoved(gk: GroupKey): Mc
      requires gk in groups
    {
      Mc(groups - {gk}, live, orphans).Without(groups[gk].DeletedIds())
    }

    lemma IpmcGroupGoes(gk: GroupKey)
      requires gk in groups && groups[gk].ipmcMbrs != map[]
      ensures GroupRemoved(gk).groups == groups - {gk} && groups[gk].ipmcGrp !in GroupRemoved(gk).live
    {
    }

    /** A group leaves SAI and the cache together, so the others stay live. */
    lemma GroupRemovedSound(gk: GroupKey)
      requires Sound() && gk in groups
      requires Parts(groups[gk].DeletedIds() - {gk.id})
      ensures GroupRemoved(gk).Sound()
    {
      hide GroupRec.DeletedIds;
    }

    /** The cached members of a group are exactly the members live in SAI under
        its sub-group, the orphans apart. */
    lemma CachedAreExactlyLive(gk: GroupKey, kind: MemberKind, m: Oid)
      requires Synced() && gk in groups && groups[gk].Sub(kind) != NULL_OID
      ensures (exists rif :: Rec(gk, kind, rif, m)) <==>
              m in live && live[m].Mbr? && live[m].side == kind && live[m].grp == groups[gk].Sub(kind) && m !in orphans
    {
    }

    /** The deleted ids belong to this group alone. */
    lemma DeletedIdIsOwn(gk: GroupKey, x: Oid)
      requires Synced() && gk in groups && x in groups[gk].DeletedIds()
      ensures x in live && x !in orphans
      ensures live[x].ReplGrp? ==> x == gk.id
      ensures live[x].SubGrp? ==> live[x].repl == gk.id
      ensures live[x].Mbr? ==> Rec(gk, live[x].side, live[x].rif, x)
    {
      var g := groups[gk];
      assert SubsLive(gk);
      if x in Ids(g.rpfMbrs) {
        var rif :| rif in g.rpfMbrs && g.rpfMbrs[rif].id == x;
        assert Rec(gk, Rpf, rif, x) && LiveAs(x, Rpf, g.Sub(Rpf), rif);
      } else if x in Ids(g.ipmcMbrs) {
        var rif :| rif in g.ipmcMbrs && g.ipmcMbrs[rif].id == x;
        assert Rec(gk, Ipmc, rif, x) && LiveAs(x, Ipmc, g.Sub(Ipmc), rif);
      }
    }

    /** No deleted id is an orphan. */
    lemma OrphansStay(gk: GroupKey)
      requires Synced() && gk in groups
      ensures GroupRemoved(gk).orphans == orphans
      ensures forall gone: set<Oid> | gone <= groups[gk].DeletedIds() :: Without(gone).orphans == orphans
    {
      forall x | x in groups[gk].DeletedIds() ensures x !in orphans {
        DeletedIdIsOwn(gk, x);
      }
    }

    /** Recorded members of the group are among the deleted ids. */
    lemma RecordedIsDeleted(gk: GroupKey, kind: MemberKind, rif: Oid, m: Oid)
      requires Rec(gk, kind, rif, m)
      ensures m in groups[gk].DeletedIds()
    {
    }

    /** The members listed for one side are distinct live objects. */
    lemma ListedMembers(gk: GroupKey, kind: MemberKind, rifs: seq<Oid>, ids: seq<Oid>)
      requires Synced() && gk in groups && Enumerates(rifs, ids, groups[gk].Mbrs(kind))
      ensures Distinct(ids)
      ensures AsSet(ids) == Ids(groups[gk].Mbrs(kind))
      ensures forall x | x in ids :: x in live && live[x].Mbr? && live[x].side == kind
    {
      var m := groups[gk].Mbrs(kind);
      forall i | 0 <= i < |ids| ensures Rec(gk, kind, rifs[i], ids[i]) && LiveAs(ids[i], kind, groups[gk].Sub(kind), rifs[i]) {
        assert Rec(gk, kind, rifs[i], ids[i]);
      }
      forall i, j | 0 <= i < j < |ids| ensures ids[i] != ids[j] {
        if ids[i] == ids[j] {
          OneRecord(gk, kind, rifs[i], gk, kind, rifs[j], ids[i]);
        }
      }
      EnumeratedIds(rifs, ids, m);
    }

    /** The ids a deletion takes are together the group's deleted ids. */
    predicate DeletionList(gk: GroupKey, id: Oid, rpfGrp: Oid, ipmcGrp: Oid, rpfIds: seq<Oid>, ipmcIds: seq<Oid>) {
      && gk in groups
      && groups[gk].DeletedIds() ==
           {id, rpfGrp} + (if |ipmcIds| > 0 then {ipmcGrp} else {}) + AsSet(rpfIds) + AsSet(ipmcIds)
    }

    lemma DeletionIsListed(gk: GroupKey, rpfRifs: seq<Oid>, rpfIds: seq<Oid>, ipmcRifs: seq<Oid>, ipmcIds: seq<Oid>)
      requires gk in groups && groups[gk].id == gk.id
      requires Enumerates(rpfRifs, rpfIds, groups[gk].rpfMbrs) && Enumerates(ipmcRifs, ipmcIds, groups[gk].ipmcMbrs)
      ensures DeletionList(gk, gk.id, groups[gk].rpfGrp, groups[gk].ipmcGrp, rpfIds, ipmcIds)
    {
      EnumeratedIds(rpfRifs, rpfIds, groups[gk].rpfMbrs);
      EnumeratedIds(ipmcRifs, ipmcIds, groups[gk].ipmcMbrs);
      assert |ipmcIds| > 0 <==> groups[gk].ipmcMbrs != map[];
    }

    /** The objects a deletion takes one after the other: each is live, no two
        are the same, and together they are the group's deleted ids. */
    ghost predicate DeletionOrder(gk: GroupKey, id: Oid, rpfGrp: Oid, ipmcGrp: Oid, rpfIds: seq<Oid>, ipmcIds: seq<Oid>) {
      && Distinct(rpfIds) && Distinct(ipmcIds) && DeletionList(gk, id, rpfGrp, ipmcGrp, rpfIds, ipmcIds)
      && (forall x | x in rpfIds :: x in live && live[x].Mbr? && live[x].side == Rpf)
      && (forall x | x in ipmcIds :: x in live && live[x].Mbr? && live[x].side == Ipmc)
      && id in live && live[id] == ReplGrp && rpfGrp in live && live[rpfGrp] == SubGrp(Rpf, id)
      && (|ipmcIds| > 0 ==> ipmcGrp in live && live[ipmcGrp] == SubGrp(Ipmc, id))
    }

    lemma DeletionIsOrdered(gk: GroupKey, rpfRifs: seq<Oid>, rpfIds: seq<Oid>, ipmcRifs: seq<Oid>, ipmcIds: seq<Oid>)
      requires Synced() && gk in groups
      requires Enumerates(rpfRifs, rpfIds, groups[gk].rpfMbrs) && Enumerates(ipmcRifs, ipmcIds, groups[gk].ipmcMbrs)
      ensures DeletionOrder(gk, gk.id, groups[gk].rpfGrp, groups[gk].ipmcGrp, rpfIds, ipmcIds)
      ensures |rpfIds| == |groups[gk].rpfMbrs|
    {
      ListedMembers(gk, Rpf, rpfRifs, rpfIds);
      ListedMembers(gk, Ipmc, ipmcRifs, ipmcIds);
      DeletionIsListed(gk, rpfRifs, rpfIds, ipmcRifs, ipmcIds);
      assert SubsLive(gk);
    }

    /** SAI can remove the listed objects one after the other, after `before`. */
    predicate Removable(ids: seq<Oid>, what: ObjKind, before: set<Oid>) {
      Distinct(ids) && forall x | x in ids :: x in live && x !in before && IsA(live[x], what)
    }

    lemma OrderIsRemovable(gk: GroupKey, id: Oid, rpfGrp: Oid, ipmcGrp: Oid, rpfIds: seq<Oid>, ipmcIds: seq<Oid>)
      requires DeletionOrder(gk, id, rpfGrp, ipmcGrp, rpfIds, ipmcIds)
      ensures Removable(rpfIds, Members(Rpf), {})
      ensures Removable([rpfGrp], SubGroups(Rpf), AsSet(rpfIds))
      ensures Removable(ipmcIds, Members(Ipmc), AsSet(rpfIds) + {rpfGrp})
      ensures |ipmcIds| > 0 ==> Removable([ipmcGrp], SubGroups(Ipmc), AsSet(rpfIds) + {rpfGrp} + AsSet(ipmcIds))
      ensures Removable([id], ReplGroups, AsSet(rpfIds) + {rpfGrp} + AsSet(ipmcIds) +
                                          (if |ipmcIds| > 0 then {ipmcGrp} else {}))
    {
    }

    lemma GroupRemovedKeeps(gk: GroupKey)
      requires Synced() && gk in groups
      ensures GroupRemoved(gk).Synced()
    {
      var r := GroupRemoved(gk);
      forall h, k, q, x
        ensures r.Rec(h, k, q, x) <==> Rec(h, k, q, x) && h != gk
        ensures r.Rec(h, k, q, x) ==> LiveAs(x, k, groups[h].Sub(k), q) && x in r.live
      {
        if Rec(h, k, q, x) && h != gk && x in groups[gk].DeletedIds() {
          DeletedIdIsOwn(gk, x);
          OneRecord(h, k, q, gk, live[x].side, live[x].rif, x);
        }
      }
      forall x | x in r.live && r.live[x].Mbr? && x !in r.orphans
        ensures exists h :: r.Rec(h, r.live[x].side, r.live[x].rif, x)
      {
        var h :| Rec(h, live[x].side, live[x].rif, x);
        if h == gk {
          RecordedIsDeleted(gk, live[x].side, live[x].rif, x);
        }
        assert r.Rec(h, live[x].side, live[x].rif, x);
      }
      forall h | h in r.groups ensures r.SubsLive(h) && h.id in r.live {
        assert SubsLive(h);
        forall x | x in {h.id, groups[h].rpfGrp, groups[h].ipmcGrp} && x != NULL_OID
          ensures x !in groups[gk].DeletedIds()
        {
          if x in groups[gk].DeletedIds() { DeletedIdIsOwn(gk, x); }
        }
      }
      forall m | m in r.orphans ensures m in r.live {
        if m in groups[gk].DeletedIds() { DeletedIdIsOwn(gk, m); }
      }
    }

    /** A deletion that stops part-way leaves records of objects that are gone:
        the agreement is lost as soon as one of the group's objects has left. */
    lemma PartialDeleteBreaks(gk: GroupKey, live': map<Oid, McObj>)
      requires Synced() && gk in groups
      requires exists x :: x in groups[gk].DeletedIds() && x !in live'
      ensures !this.(live := live').Synced()
    {
      var r := this.(live := live');
      if r.Synced() {
        assert SubsLive(gk) && r.SubsLive(gk);
        forall x | x in groups[gk].DeletedIds() ensures x in live' {
          if x in Ids(groups[gk].rpfMbrs) {
            var rif :| rif in groups[gk].rpfMbrs && groups[gk].rpfMbrs[rif].id == x;
            assert r.Rec(gk, Rpf, rif, x);
          } else if x in Ids(groups[gk].ipmcMbrs) {
            var rif :| rif in groups[gk].ipmcMbrs && groups[gk].ipmcMbrs[rif].id == x;
            assert r.Rec(gk, Ipmc, rif, x);
          }
        }
      }
    }

    /** A deletion that SAI breaks off keeps the agreement only if nothing had
        been removed yet. */
    lemma DeletionBrokenOff(gk: GroupKey, gone: set<Oid>)
      requires Synced() && gk in groups && gone <= groups[gk].DeletedIds()
      ensures Without(gone).Synced() <==> gone == {}
    {
      OrphansStay(gk);
      if gone == {} {
        assert live - gone == live && orphans - gone == orphans;
      } else {
        var x :| x in gone;
        assert x in groups[gk].DeletedIds() && x !in live - gone;
        PartialDeleteBreaks(gk, live - gone);
      }
    }

    // ---- the member loop of a creation ----

    /** Whether SAI and the cache can answer a member request in this way. */
    predicate Possible(gk: GroupKey, req: MemberSpec, out: Outcome) {
      && gk in groups
      && match out
         case Refused => true
         case Recorded(m) => m !in live && m != NULL_OID && req.rif !in groups[gk].ipmcMbrs && groups[gk].ipmcGrp != NULL_OID
         case RolledBack => req.rif in groups[gk].ipmcMbrs
         case Stranded(m) => m !in live && m != NULL_OID && req.rif in groups[gk].ipmcMbrs
    }

    function After(gk: GroupKey, req: MemberSpec, out: Outcome): Mc
      requires Possible(gk, req, out)
    {
      match out
      case Refused => this
      case Recorded(m) => MemberWritten(gk, Ipmc, m, req)
      case RolledBack => this
      case Stranded(m) =>
        WithLive(m, Mbr(Ipmc, groups[gk].ipmcGrp, req.rif, req.ports)).(orphans := orphans + {m})
    }

    /** The cache has gained group `gk`, and SAI exactly the objects that the
        group's record accounts for and the new orphans. */
    ghost predicate GrownFrom(before: Mc, gk: GroupKey) {
      && gk in groups && gk !in before.groups && groups == before.groups[gk := groups[gk]]
      && before.orphans <= orphans
      && Extends(before, groups[gk].OwnedIds() + (orphans - before.orphans))
    }

    /** The member asked for is recorded under its RIF with the ports asked for, and
        SAI holds it under the recorded id, with that RIF and port list. */
    ghost predicate AsAsked(gk: GroupKey, kind: MemberKind, q: MemberSpec) {
      && gk in groups && q.rif in groups[gk].Mbrs(kind)
      && var m := groups[gk].Mbrs(kind)[q.rif];
         && m.rif == q.rif && (forall p :: p in m.ports <==> p in q.ports)
         && m.id in live && live[m.id] == Mbr(kind, groups[gk].Sub(kind), q.rif, q.ports)
    }

    /** Each IPMC member recorded is one that was asked for, as it was asked for. */
    ghost predicate OnlyAsked(gk: GroupKey, reqs: seq<MemberSpec>)
      requires gk in groups
    {
      forall rif | rif in groups[gk].ipmcMbrs :: exists i | 0 <= i < |reqs| :: reqs[i].rif == rif && AsAsked(gk, Ipmc, reqs[i])
    }

    /** The first request for each RIF is recorded as it was asked for. */
    ghost predicate AllAsked(gk: GroupKey, reqs: seq<MemberSpec>) {
      forall i | 0 <= i < |reqs| && reqs[i].rif !in Rifs(reqs[..i]) :: AsAsked(gk, Ipmc, reqs[i])
    }

    lemma NoneAskedYet(gk: GroupKey)
      ensures AllAsked(gk, [])
      ensures gk in groups && groups[gk].ipmcMbrs == map[] ==> OnlyAsked(gk, [])
    {
    }

    lemma DistinctAsked(gk: GroupKey, reqs: seq<MemberSpec>)
      requires AllAsked(gk, reqs) && DistinctRifs(reqs)
      ensures forall q | q in reqs :: AsAsked(gk, Ipmc, q)
    {
      forall q | q in reqs ensures AsAsked(gk, Ipmc, q) {
        var i :| 0 <= i < |reqs| && reqs[i] == q;
        NextRifIsNew(reqs, i);
      }
    }

    /** An answer leaves the members that are there as they were asked for. */
    lemma AfterAsked(gk: GroupKey, req: MemberSpec, out: Outcome, kind: MemberKind, q: MemberSpec)
      requires Possible(gk, req, out)
      ensures AsAsked(gk, kind, q) ==> After(gk, req, out).AsAsked(gk, kind, q)
      ensures out.Recorded? ==> After(gk, req, out).AsAsked(gk, Ipmc, req)
    {
    }

    lemma AfterOnlyAsked(gk: GroupKey, reqs: seq<MemberSpec>, req: MemberSpec, out: Outcome)
      requires Possible(gk, req, out) && OnlyAsked(gk, reqs)
      ensures gk in After(gk, req, out).groups && After(gk, req, out).OnlyAsked(gk, reqs + [req])
    {
      var r := After(gk, req, out);
      forall rif | rif in r.groups[gk].ipmcMbrs
        ensures exists i | 0 <= i < |reqs + [req]| :: (reqs + [req])[i].rif == rif && r.AsAsked(gk, Ipmc, (reqs + [req])[i])
      {
        if rif in groups[gk].ipmcMbrs {
          var i :| 0 <= i < |reqs| && reqs[i].rif == rif && AsAsked(gk, Ipmc, reqs[i]);
          AfterAsked(gk, req, out, Ipmc, reqs[i]);
          assert (reqs + [req])[i] == reqs[i];
        } else {
          AfterAsked(gk, req, out, Ipmc, req);
          assert (reqs + [req])[|reqs|] == req;
        }
      }
    }

    /** An answer other than a refusal. */
    lemma AfterAllAsked(gk: GroupKey, reqs: seq<MemberSpec>, req: MemberSpec, out: Outcome)
      requires Possible(gk, req, out) && AllAsked(gk, reqs) && groups[gk].ipmcMbrs.Keys == Rifs(reqs)
      requires out.Recorded? || out.RolledBack?
      ensures After(gk, req, out).AllAsked(gk, reqs + [req])
    {
      var all := reqs + [req];
      forall i | 0 <= i < |all| && all[i].rif !in Rifs(all[..i]) ensures After(gk, req, out).AsAsked(gk, Ipmc, all[i]) {
        AfterAsked(gk, req, out, Ipmc, all[i]);
        if i < |reqs| {
          assert all[..i] == reqs[..i] && all[i] == reqs[i];
        } else {
          assert all[..i] == reqs;
        }
      }
    }

    lemma AfterSynced(gk: GroupKey, req: MemberSpec, out: Outcome)
      requires Synced() && Possible(gk, req, out)
      ensures After(gk, req, out).Synced()
    {
      match out {
        case Recorded(m) => MemberWrittenKeeps(gk, Ipmc, m, req);
        case Stranded(m) => OrphanKeeps(m, Mbr(Ipmc, groups[gk].ipmcGrp, req.rif, req.ports));
        case _ =>
      }
    }

    lemma AfterSound(gk: GroupKey, req: MemberSpec, out: Outcome)
      requires Sound() && Possible(gk, req, out)
      ensures After(gk, req, out).Sound()
    {
    }

    /** A request touches only the IPMC members of its group and the orphans. */
    lemma AfterShape(gk: GroupKey, req: MemberSpec, out: Outcome)
      requires Possible(gk, req, out)
      ensures var r := After(gk, req, out);
              && gk in r.groups && r.groups == groups[gk := groups[gk].(ipmcMbrs := r.groups[gk].ipmcMbrs)]
              && orphans <= r.orphans && (!out.Stranded? ==> r.orphans == orphans)
              && groups[gk].ipmcMbrs.Keys <= r.groups[gk].ipmcMbrs.Keys <= groups[gk].ipmcMbrs.Keys + {req.rif}
              && (!out.Refused? ==> req.rif in r.groups[gk].ipmcMbrs)
    {
    }

    lemma GrowsByOne(before: Mc, gk: GroupKey, m: Oid, r: Mc)
      requires GrownFrom(before, gk) && m !in live && m in r.live && r.live == live[m := r.live[m]]
      requires gk in r.groups && r.groups == groups[gk := r.groups[gk]] && orphans <= r.orphans
      requires r.groups[gk].OwnedIds() + (r.orphans - before.orphans) ==
               groups[gk].OwnedIds() + (orphans - before.orphans) + {m}
      ensures r.GrownFrom(before, gk)
    {
      hide GroupRec.OwnedIds;
      assert r.groups == before.groups[gk := r.groups[gk]];
    }

    lemma AfterGrown(before: Mc, gk: GroupKey, req: MemberSpec, out: Outcome)
      requires GrownFrom(before, gk) && Possible(gk, req, out) && Sound()
      ensures After(gk, req, out).GrownFrom(before, gk)
    {
      assert before.orphans <= orphans <= live.Keys;
      hide GrownFrom, Extends, Sound;
      var r := After(gk, req, out);
      match out {
        case Recorded(m) =>
          IdsWith(groups[gk].ipmcMbrs, req.rif, MemberOf(m, req));
          assert r.groups[gk].OwnedIds() == groups[gk].OwnedIds() + {m};
          hide GroupRec.OwnedIds;
          GrowsByOne(before, gk, m, r);
        case Stranded(m) =>
          assert r.groups[gk] == groups[gk];
          hide GroupRec.OwnedIds;
          GrowsByOne(before, gk, m, r);
        case _ =>
      }
    }

    /** SAI has gained a replication group with its sub-groups, unrecorded. */
    function WithGroups(id: Oid, rpfGrp: Oid, ipmcGrp: Oid): Mc {
      var s := WithLive(id, ReplGrp);
      (if ipmcGrp == NULL_OID then s else s.WithLive(ipmcGrp, SubGrp(Ipmc, id))).WithLive(rpfGrp, SubGrp(Rpf, id))
    }

    /** The group has been created and recorded, with its RPF member. */
    function Created(gk: GroupKey, rpfGrp: Oid, ipmcGrp: Oid, m: Oid, rpf: MemberSpec): Mc {
      WithGroups(gk.id, rpfGrp, ipmcGrp).GroupAdded(gk, rpfGrp, ipmcGrp).MemberWritten(gk, Rpf, m, rpf)
    }

    /** What a creation leaves behind when SAI refuses a sub-group: the group, if
        it was made, and its IPMC group, if that was. */
    ghost predicate LeftBehind(before: Mc, id: Oid, leaked: set<Oid>) {
      && this == before.(live := live) && Extends(before, leaked)
      && (leaked == {} <==> id == NULL_OID) && (leaked != {} ==> id in leaked)
      && forall x | x in leaked :: live[x] == if x == id then ReplGrp else SubGrp(Ipmc, id)
    }

    lemma NothingMade()
      requires Sound()
      ensures LeftBehind(this, NULL_OID, {}) && NULL_OID !in live
    {
    }

    /** The leftovers of a creation are not cached. */
    lemma LeftBehindUncached(before: Mc, gk: GroupKey, leaked: set<Oid>)
      requires before.Sound() && LeftBehind(before, gk.id, leaked)
      ensures groups == before.groups && gk !in groups && (leaked == {} <==> gk.id == NULL_OID)
    {
    }

    lemma StartsNew(m: Oid)
      requires NULL_OID !in live && m !in live && m != NULL_OID
      ensures WithLive(m, ReplGrp).LeftBehind(this, m, {m})
    {
    }

    lemma AlsoLeftBehind(before: Mc, id: Oid, leaked: set<Oid>, m: Oid)
      requires LeftBehind(before, id, leaked) && leaked != {} && m !in live
      ensures WithLive(m, SubGrp(Ipmc, id)).LeftBehind(before, id, leaked + {m})
    {
    }

    /** The ids of a creation are new and differ from each other. */
    predicate NewIds(id: Oid, rpfGrp: Oid, ipmcGrp: Oid) {
      && NULL_OID !in {id, rpfGrp} && {id, rpfGrp, ipmcGrp} !! live.Keys
      && id != rpfGrp && id != ipmcGrp && rpfGrp != ipmcGrp
    }

    lemma WithGroupsKeeps(id: Oid, rpfGrp: Oid, ipmcGrp: Oid)
      requires Synced() && NewIds(id, rpfGrp, ipmcGrp)
      ensures WithGroups(id, rpfGrp, ipmcGrp).Synced()
    {
      var s1 := WithLive(id, ReplGrp);
      PlainObjectKeeps(id, ReplGrp);
      hide Synced;
      if ipmcGrp != NULL_OID {
        s1.PlainObjectKeeps(ipmcGrp, SubGrp(Ipmc, id));
        s1.WithLive(ipmcGrp, SubGrp(Ipmc, id)).PlainObjectKeeps(rpfGrp, SubGrp(Rpf, id));
      } else {
        s1.PlainObjectKeeps(rpfGrp, SubGrp(Rpf, id));
      }
    }

    lemma GroupEntersKeeps(gk: GroupKey, rpfGrp: Oid, ipmcGrp: Oid)
      requires Synced() && NewIds(gk.id, rpfGrp, ipmcGrp)
      ensures gk !in groups
      ensures WithGroups(gk.id, rpfGrp, ipmcGrp).GroupAdded(gk, rpfGrp, ipmcGrp).Synced()
    {
      assert gk !in groups && forall h | h in groups :: h.id != gk.id;
      WithGroupsKeeps(gk.id, rpfGrp, ipmcGrp);
      hide Synced;
      WithGroups(gk.id, rpfGrp, ipmcGrp).GroupAddedKeeps(gk, rpfGrp, ipmcGrp);
    }

    lemma GroupEntersSound(gk: GroupKey, rpfGrp: Oid, ipmcGrp: Oid)
      requires Sound() && NewIds(gk.id, rpfGrp, ipmcGrp)
      ensures gk !in groups && WithGroups(gk.id, rpfGrp, ipmcGrp).Sound()
      ensures WithGroups(gk.id, rpfGrp, ipmcGrp).GroupAdded(gk, rpfGrp, ipmcGrp).Sound()
    {
    }

    lemma EnteredShape(gk: GroupKey, rpfGrp: Oid, ipmcGrp: Oid)
      ensures WithGroups(gk.id, rpfGrp, ipmcGrp).groups == groups
      ensures WithGroups(gk.id, rpfGrp, ipmcGrp).GroupAdded(gk, rpfGrp, ipmcGrp).live ==
              WithGroups(gk.id, rpfGrp, ipmcGrp).live
      ensures WithGroups(gk.id, rpfGrp, ipmcGrp).GroupAdded(gk, rpfGrp, ipmcGrp).groups ==
              groups[gk := GroupRec(gk.id, rpfGrp, ipmcGrp, map[], map[])]
    {
    }

    lemma EnteredGrows(gk: GroupKey, rpfGrp: Oid, ipmcGrp: Oid)
      requires NewIds(gk.id, rpfGrp, ipmcGrp) && gk !in groups
      ensures WithGroups(gk.id, rpfGrp, ipmcGrp).GroupAdded(gk, rpfGrp, ipmcGrp).GrownFrom(this, gk)
    {
      assert Ids(map[]) == {};
    }

    lemma CreatedSound(gk: GroupKey, rpfGrp: Oid, ipmcGrp: Oid, m: Oid, rpf: MemberSpec)
      requires Sound() && NewIds(gk.id, rpfGrp, ipmcGrp)
      requires m != NULL_OID && m !in WithGroups(gk.id, rpfGrp, ipmcGrp).live
      ensures Created(gk, rpfGrp, ipmcGrp, m, rpf).Sound()
    {
      GroupEntersSound(gk, rpfGrp, ipmcGrp);
      var s := WithGroups(gk.id, rpfGrp, ipmcGrp).GroupAdded(gk, rpfGrp, ipmcGrp);
      hide WithGroups, GroupAdded;
      s.MembersSound(s.MemberWritten(gk, Rpf, m, rpf));
    }

    lemma CreatedKeeps(gk: GroupKey, rpfGrp: Oid, ipmcGrp: Oid, m: Oid, rpf: MemberSpec)
      requires Synced() && NewIds(gk.id, rpfGrp, ipmcGrp)
      requires m != NULL_OID && m !in WithGroups(gk.id, rpfGrp, ipmcGrp).live
      ensures Created(gk, rpfGrp, ipmcGrp, m, rpf).Synced()
    {
      GroupEntersKeeps(gk, rpfGrp, ipmcGrp);
      hide Synced;
      WithGroups(gk.id, rpfGrp, ipmcGrp).GroupAdded(gk, rpfGrp, ipmcGrp).MemberWrittenKeeps(gk, Rpf, m, rpf);
    }

    lemma CreatedAsAsked(gk: GroupKey, rpfGrp: Oid, ipmcGrp: Oid, m: Oid, rpf: MemberSpec)
      ensures Created(gk, rpfGrp, ipmcGrp, m, rpf).AsAsked(gk, Rpf, rpf)
    {
    }

    lemma CreatedGrows(gk: GroupKey, rpfGrp: Oid, ipmcGrp: Oid, m: Oid, rpf: MemberSpec)
      requires NewIds(gk.id, rpfGrp, ipmcGrp) && gk !in groups
      requires m != NULL_OID && m !in WithGroups(gk.id, rpfGrp, ipmcGrp).live
      ensures Created(gk, rpfGrp, ipmcGrp, m, rpf).GrownFrom(this, gk)
      ensures Created(gk, rpfGrp, ipmcGrp, m, rpf).groups ==
              groups[gk := GroupRec(gk.id, rpfGrp, ipmcGrp, map[rpf.rif := MemberOf(m, rpf)], map[])]
      ensures var g := Created(gk, rpfGrp, ipmcGrp, m, rpf).groups[gk];
              g.rpfMbrs.Keys == {rpf.rif} && g.ipmcGrp == ipmcGrp && g.ipmcMbrs == map[]
    {
      var r := Created(gk, rpfGrp, ipmcGrp, m, rpf);
      IdsWith(map[], rpf.rif, MemberOf(m, rpf));
      assert Ids(map[]) == {};
      assert r.groups[gk].OwnedIds() == {gk.id, rpfGrp, m} + (if ipmcGrp != NULL_OID then {ipmcGrp} else {});
    }

    /** The group has an IPMC group whose members are all gone or were all
        refused: a deletion will not remove it. */
    predicate LeaksIpmcGroup(gk: GroupKey)
      requires gk in groups
    {
      groups[gk].ipmcGrp != NULL_OID && groups[gk].ipmcMbrs == map[]
    }

    /** Removing a group gives back the state before its creation exactly when
        the creation left no orphan and the group has no empty IPMC group. */
    lemma RemovalUndoesGrowth(before: Mc, gk: GroupKey)
      requires GrownFrom(before, gk) && Synced()
      ensures GroupRemoved(gk) == before <==> orphans == before.orphans && !LeaksIpmcGroup(gk)
    {
      assert SubsLive(gk);
      OrphansStay(gk);
      var g := groups[gk];
      if LeaksIpmcGroup(gk) {
        assert Ids(g.ipmcMbrs) == {};
        forall rif | rif in g.rpfMbrs ensures g.rpfMbrs[rif].id != g.ipmcGrp {
          assert Rec(gk, Rpf, rif, g.rpfMbrs[rif].id);
        }
        assert g.ipmcGrp in GroupRemoved(gk).live && g.ipmcGrp !in before.live;
      } else if orphans == before.orphans {
        hide Synced;
        assert g.OwnedIds() == g.DeletedIds();
        assert GroupRemoved(gk).live.Keys == before.live.Keys;
        assert GroupRemoved(gk).groups == before.groups;
      }
    }
  }

  /** How one member request of a creation can end: SAI refuses it; it is
      recorded under its new SAI id; its RIF is already recorded and the new SAI
      member is removed again; or that removal fails. */
  datatype Outcome = Refused | Recorded(m: Oid) | RolledBack | Stranded(m: Oid)

  lemma IdsWith(m: map<Oid, Member>, rif: Oid, x: Member)
    requires rif !in m
    ensures Ids(m[rif := x]) == Ids(m) + {x.id}
  {
    assert m[rif := x].Keys == m.Keys + {rif};
    forall i | i in Ids(m) ensures i in Ids(m[rif := x]) {
      var r :| r in m && m[r].id == i;
      assert m[rif := x][r].id == i;
    }
    assert m[rif := x][rif].id == x.id;
  }
}
