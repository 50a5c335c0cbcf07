/** Multicast route entries, src/nas_ndi_mcast.cpp: each call steps SAI's entry
    table and then the cache, whose answer it ignores. */
module IpmcEntries {
  import opened Types
  import opened EntryRelation
  import opened ReplGroupState
  import opened IpmcCache
  import opened ReplGroups
  import opened Runs

  datatype EntryId = EntryId(af: Af, key: EntryKey)

  datatype EntryAttrs = EntryAttrs(rpfGrp: Oid, copyToCpu: bool, outGrp: Option<Oid>)

  datatype EntryAttr = RpfGroup(oid: Oid) | PacketAction(copyToCpu: bool) | OutputGroup(oid: Oid)

  datatype UpdateType = UpdReplGrp | UpdCopyToCpu

  function SetAttr(o: EntryAttrs, a: EntryAttr): EntryAttrs {
    match a
    case RpfGroup(g) => o.(rpfGrp := g)
    case PacketAction(c) => o.(copyToCpu := c)
    case OutputGroup(g) => o.(outGrp := Some(g))
  }

  function SetAttrs(o: EntryAttrs, s: seq<EntryAttr>): EntryAttrs {
    if s == [] then o else SetAttr(SetAttrs(o, s[..|s| - 1]), s[|s| - 1])
  }

  /** The attributes an update sends, in order. */
  function AttrsOf(typ: UpdateType, e: Entry, rpfGrp: Oid, ipmcGrp: Oid): seq<EntryAttr> {
    match typ
    case UpdCopyToCpu => [PacketAction(e.copyToCpu)]
    case UpdReplGrp =>
      [RpfGroup(rpfGrp), PacketAction(e.copyToCpu)] + if ipmcGrp > 0 then [OutputGroup(ipmcGrp)] else []
  }

  /** SAI's table of multicast entries.  It refuses an entry it has and does not
      know one it has not; for an (*,G) entry it ignores the source. */
  class SaiEntryTable {
    var live: map<EntryId, EntryAttrs>
    ghost var failures: nat

    constructor ()
      ensures live == map[] && failures == 0
    {
      live, failures := map[], 0;
    }

    method Create(id: EntryId, o: EntryAttrs) returns (ok: bool)
      modifies this
      ensures ok ==> id !in old(live) && live == old(live)[id := o] && failures == old(failures)
      ensures !ok ==> live == old(live) && failures == old(failures) + (if id in live then 0 else 1)
    {
      ok := *;
      if id in live {
        ok := false;
      } else if ok {
        live := live[id := o];
      } else {
        failures := failures + 1;
      }
    }

    method Remove(id: EntryId) returns (ok: bool)
      modifies this
      ensures ok ==> id in old(live) && live == old(live) - {id} && failures == old(failures)
      ensures !ok ==> live == old(live) && failures == old(failures) + (if id in live then 1 else 0)
    {
      ok := *;
      if id !in live {
        ok := false;
      } else if ok {
        live := live - {id};
      } else {
        failures := failures + 1;
      }
    }

    method Set(id: EntryId, a: EntryAttr) returns (ok: bool)
      modifies this
      ensures ok ==> id in old(live) && live == old(live)[id := SetAttr(old(live)[id], a)] && failures == old(failures)
      ensures !ok ==> live == old(live) && failures == old(failures) + (if id in live then 1 else 0)
    {
      ok := *;
      if id !in live {
        ok := false;
      } else if ok {
        live := live[id := SetAttr(live[id], a)];
      } else {
        failures := failures + 1;
      }
    }

    /** Sends attributes one by one and stops at the first refusal. */
    method SetAll(id: EntryId, attrs: seq<EntryAttr>) returns (ok: bool, ghost applied: nat)
      requires |attrs| > 0
      modifies this
      ensures applied <= |attrs| && (ok <==> applied == |attrs|) && failures >= old(failures)
      ensures id !in old(live) ==> applied == 0
      ensures id in old(live) ==> (ok <==> failures == old(failures))
      ensures live == if applied == 0 then old(live) else old(live)[id := SetAttrs(old(live)[id], attrs[..applied])]
    {
      applied := 0;
      for i := 0 to |attrs|
        invariant applied == i && failures == old(failures)
        invariant i > 0 ==> id in old(live)
        invariant live == if i == 0 then old(live) else old(live)[id := SetAttrs(old(live)[id], attrs[..i])]
      {
        ok := Set(id, attrs[i]);
        if !ok {
          return;
        }
        applied := applied + 1;
        assert attrs[..i + 1][..i] == attrs[..i];
      }
      ok := true;
    }
  }

  /** SAI has an entry exactly when the cache has it. */
  ghost predicate SameEntries(live: map<EntryId, EntryAttrs>, r: Relation) {
    forall af, k :: EntryId(af, k) in live <==> k in r.bound.At(af)
  }

  lemma SameBound(live: map<EntryId, EntryAttrs>, r: Relation, r': Relation)
    requires SameEntries(live, r) && r'.bound == r.bound
    ensures SameEntries(live, r')
  {
  }

  /** Each entry in SAI carries the flag that its group's set holds, the RPF
      group of its group, and as output group the IPMC group of its group, none
      if that has none. */
  ghost predicate SameAttrs(live: map<EntryId, EntryAttrs>, r: Relation, groups: map<GroupKey, GroupRec>) {
    forall af, k, gk | EntryId(af, k) in live && r.InGroup(gk, af, k) ::
      gk in groups && AttrsMatch(live[EntryId(af, k)], groups[gk], r.carried[gk].At(af)[k])
  }

  predicate AttrsMatch(o: EntryAttrs, g: GroupRec, d: EntryData) {
    o == EntryAttrs(g.rpfGrp, d.copyToCpu, OutputOf(g))
  }

  function OutputOf(g: GroupRec): Option<Oid> {
    if g.ipmcGrp == NULL_OID then None else Some(g.ipmcGrp)
  }

  // ---- the two tables step together ----

  lemma CreateAgrees(live: map<EntryId, EntryAttrs>, r: Relation, groups: map<GroupKey, GroupRec>,
                     npu: nat, e: Entry, o: EntryAttrs)
    requires SameEntries(live, r) && r.Consistent() && GroupOf(npu, e) in r.carried && GroupOf(npu, e) in groups
    requires EntryId(e.Af(), KeyOf(npu, e)) !in live && AttrsMatch(o, groups[GroupOf(npu, e)], DataOf(e))
    ensures var (r', ok) := r.Add(npu, e);
            var live' := live[EntryId(e.Af(), KeyOf(npu, e)) := o];
            && ok && r'.Consistent() && SameEntries(live', r')
            && (SameAttrs(live', r', groups) <==> SameAttrs(live, r, groups))
  {
    r.AddKeeps(npu, e);
    var (r', ok) := r.Add(npu, e);
    var live' := live[EntryId(e.Af(), KeyOf(npu, e)) := o];
    if SameAttrs(live, r, groups) {
      forall af, k, gk | EntryId(af, k) in live' && r'.InGroup(gk, af, k)
        ensures gk in groups && AttrsMatch(live'[EntryId(af, k)], groups[gk], r'.carried[gk].At(af)[k])
      {
        if af == e.Af() && k == KeyOf(npu, e) {
          assert r'.PointsAt(af, k, gk);
        } else {
          assert r.InGroup(gk, af, k);
        }
      }
    }
    if SameAttrs(live', r', groups) {
      forall af, k, gk | EntryId(af, k) in live && r.InGroup(gk, af, k)
        ensures gk in groups && AttrsMatch(live[EntryId(af, k)], groups[gk], r.carried[gk].At(af)[k])
      {
        assert r'.InGroup(gk, af, k);
      }
    }
  }

  lemma DeleteAgrees(live: map<EntryId, EntryAttrs>, r: Relation, groups: map<GroupKey, GroupRec>, npu: nat, e: Entry)
    requires SameEntries(live, r) && r.Consistent() && EntryId(e.Af(), KeyOf(npu, e)) in live
    ensures var (r', ok) := r.Delete(npu, e);
            var live' := live - {EntryId(e.Af(), KeyOf(npu, e))};
            && ok && r'.Consistent() && SameEntries(live', r')
            && (SameAttrs(live, r, groups) ==> SameAttrs(live', r', groups))
  {
    r.DeleteKeeps(npu, e);
    hide Relation.Consistent;
    var (r', ok) := r.Delete(npu, e);
    var live' := live - {EntryId(e.Af(), KeyOf(npu, e))};
    forall af, k ensures EntryId(af, k) in live' <==> k in r'.bound.At(af) {
      assert EntryId(af, k) in live <==> k in r.bound.At(af);
    }
    if SameAttrs(live, r, groups) {
      forall af, k, gk | EntryId(af, k) in live' && r'.InGroup(gk, af, k)
        ensures gk in groups && AttrsMatch(live'[EntryId(af, k)], groups[gk], r'.carried[gk].At(af)[k])
      {
        assert r.InGroup(gk, af, k);
      }
    }
  }

  /** What an update that SAI accepts leaves in the entry. */
  lemma AttrsSent(o: EntryAttrs, typ: UpdateType, e: Entry, rpfGrp: Oid, ipmcGrp: Oid)
    ensures var r := SetAttrs(o, AttrsOf(typ, e, rpfGrp, ipmcGrp));
            && r.copyToCpu == e.copyToCpu
            && (typ.UpdCopyToCpu? ==> r == o.(copyToCpu := e.copyToCpu))
            && (typ.UpdReplGrp? ==> r.rpfGrp == rpfGrp)
            && (typ.UpdReplGrp? ==> r.outGrp == if ipmcGrp > 0 then Some(ipmcGrp) else o.outGrp)
  {
    var s := AttrsOf(typ, e, rpfGrp, ipmcGrp);
    if typ.UpdReplGrp? {
      var two := [RpfGroup(rpfGrp), PacketAction(e.copyToCpu)];
      assert two[..1] == [RpfGroup(rpfGrp)] && two[..1][..0] == [];
      assert SetAttrs(o, two[..1]) == o.(rpfGrp := rpfGrp);
      assert SetAttrs(o, two) == o.(rpfGrp := rpfGrp, copyToCpu := e.copyToCpu);
      if ipmcGrp > 0 {
        assert s[..2] == two;
      } else {
        assert s == two;
      }
    }
  }

  function StepOf(typ: UpdateType, r: Relation, npu: nat, e: Entry): (Relation, bool) {
    match typ
    case UpdReplGrp => r.Move(npu, e)
    case UpdCopyToCpu => r.SetCopyToCpu(npu, e)
  }

  /** An update changes what the route of the entry is bound to, or its flag. */
  lemma UpdatedRoute(r: Relation, typ: UpdateType, npu: nat, e: Entry)
    requires StepOf(typ, r, npu, e).1
    ensures var r' := StepOf(typ, r, npu, e).0;
            && r.Has(npu, e) && r.OtherRoutesKept(r', npu, e)
            && r'.RouteTo(npu, e, if typ.UpdReplGrp? then (GroupKey(npu, e.replGroup), r.FoundAs(npu, e).1)
                                  else (r.FoundAs(npu, e).0, e.copyToCpu))
  {
    match typ {
      case UpdReplGrp => r.MovedRoute(npu, e);
      case UpdCopyToCpu => r.FlaggedRoute(npu, e);
    }
  }

  /** The entries other than `e` are untouched by an update, and `e` sits where
      it should. */
  lemma UpdateShape(r: Relation, typ: UpdateType, npu: nat, e: Entry)
    requires r.Consistent() && GroupOf(npu, e) in r.carried && KeyOf(npu, e) in r.bound.At(e.Af())
    ensures var (r', ok) := StepOf(typ, r, npu, e);
            var af, k := e.Af(), KeyOf(npu, e);
            && ok && r'.Consistent()
            && (forall a, q :: q in r'.bound.At(a) <==> q in r.bound.At(a))
            && (forall a, q, gk | r'.InGroup(gk, a, q) && !(a == af && q == k) ::
                  r.InGroup(gk, a, q) && r'.carried[gk].At(a)[q] == r.carried[gk].At(a)[q])
            && (forall gk | r'.InGroup(gk, af, k) ::
                  && r'.carried[gk].At(af)[k].copyToCpu == e.copyToCpu
                  && (typ.UpdReplGrp? ==> gk == GroupOf(npu, e))
                  && (typ.UpdCopyToCpu? ==> r.InGroup(gk, af, k)))
  {
    match typ {
      case UpdReplGrp => r.MoveKeeps(npu, e);
      case UpdCopyToCpu => r.SetCopyToCpuKeeps(npu, e);
    }
    var (r', ok) := StepOf(typ, r, npu, e);
    var af, k := e.Af(), KeyOf(npu, e);
    assert r.PointsAt(af, k, r.bound.At(af)[k].owner) && r.InGroup(r.bound.At(af)[k].owner, af, k);
    assert forall gk :: r'.InGroup(gk, af, k) <==> r'.PointsAt(af, k, gk);
    hide Relation.Consistent;
    forall gk | r'.InGroup(gk, af, k)
      ensures r'.carried[gk].At(af)[k].copyToCpu == e.copyToCpu
      ensures typ.UpdReplGrp? ==> gk == GroupOf(npu, e)
      ensures typ.UpdCopyToCpu? ==> r.InGroup(gk, af, k)
    {
      assert r'.PointsAt(af, k, gk);
    }
  }

  /** After an update that SAI accepts, both tables list the same entries; the
      attributes go on matching exactly unless an entry that has an output group
      moves to a group without one, which the update does not send. */
  lemma UpdateAgrees(live: map<EntryId, EntryAttrs>, r: Relation, groups: map<GroupKey, GroupRec>,
                     npu: nat, e: Entry, typ: UpdateType)
    requires SameEntries(live, r) && r.Consistent() && GroupOf(npu, e) in r.carried && GroupOf(npu, e) in groups
    requires EntryId(e.Af(), KeyOf(npu, e)) in live
    ensures var (r', ok) := StepOf(typ, r, npu, e);
            var id, g := EntryId(e.Af(), KeyOf(npu, e)), groups[GroupOf(npu, e)];
            var live' := live[id := SetAttrs(live[id], AttrsOf(typ, e, g.rpfGrp, g.ipmcGrp))];
            && ok && r'.Consistent() && SameEntries(live', r')
            && (typ.UpdReplGrp? ==>
                  (live'[id].outGrp == OutputOf(g) <==> g.ipmcGrp != NULL_OID || live[id].outGrp == None))
            && (SameAttrs(live, r, groups) ==>
                  (SameAttrs(live', r', groups) <==>
                     typ.UpdCopyToCpu? || g.ipmcGrp != NULL_OID || live[id].outGrp == None))
  {
    assert KeyOf(npu, e) in r.bound.At(e.Af());
    UpdateShape(r, typ, npu, e);
    var id, g := EntryId(e.Af(), KeyOf(npu, e)), groups[GroupOf(npu, e)];
    AttrsSent(live[id], typ, e, g.rpfGrp, g.ipmcGrp);
    hide Relation.Consistent, StepOf, SetAttrs, AttrsOf;
    var (r', ok) := StepOf(typ, r, npu, e);
    var live' := live[id := SetAttrs(live[id], AttrsOf(typ, e, g.rpfGrp, g.ipmcGrp))];
    if SameAttrs(live, r, groups) {
      forall af, k, gk | EntryId(af, k) in live' && r'.InGroup(gk, af, k)
        ensures gk in groups
        ensures AttrsMatch(live'[EntryId(af, k)], groups[gk], r'.carried[gk].At(af)[k]) <==>
                (EntryId(af, k) == id ==> typ.UpdCopyToCpu? || g.ipmcGrp != NULL_OID || live[id].outGrp == None)
      {
        if EntryId(af, k) != id {
          assert r.InGroup(gk, af, k);
        }
      }
    }
  }

  /** Both tables and the groups at one moment. */
  datatype Snap = Snap(live: map<EntryId, EntryAttrs>, view: Relation, mc: Mc) {
    ghost predicate Sound() {
      view.Consistent() && SameEntries(live, view) && mc.Sound() && view.carried.Keys == mc.groups.Keys
    }

    ghost predicate Agrees() {
      SameAttrs(live, view, mc.groups)
    }

    /** Whatever SAI refuses: each entry in SAI is in exactly one group, that
        group is cached, and its replication group is live in SAI. */
    lemma EntryIsHoused(id: EntryId)
      requires Sound()
      ensures id in live <==> exists gk :: view.InGroup(gk, id.af, id.key)
      ensures forall gk | view.InGroup(gk, id.af, id.key) ::
                && (forall h | view.InGroup(h, id.af, id.key) :: h == gk)
                && gk in mc.groups && gk.id in mc.live && mc.live[gk.id] == ReplGrp
    {
      view.OneGroup(GroupKey(0, 0), GroupKey(0, 0), id.af, id.key);
      assert id == EntryId(id.af, id.key);
      forall gk | view.InGroup(gk, id.af, id.key)
        ensures gk in mc.groups && gk.id in mc.live && mc.live[gk.id] == ReplGrp
        ensures forall h | view.InGroup(h, id.af, id.key) :: h == gk
      {
        assert view.PointsAt(id.af, id.key, gk);
      }
    }
  }

  /** The caller moves a bound entry to a cached group. */
  predicate Moves(s: Snap, npu: nat, e: Entry, typ: UpdateType) {
    typ.UpdReplGrp? && KeyOf(npu, e) in s.view.bound.At(e.Af()) && GroupOf(npu, e) in s.mc.groups
  }

  /** When an update takes the attributes in SAI away from those of the groups.
      If all were applied: the entry came from a group with an IPMC group to one
      without.  If SAI refused one: the RPF group or the flag that were sent
      before it differ from what the cache goes on holding. */
  ghost predicate UpdateDrifts(s: Snap, npu: nat, e: Entry, typ: UpdateType, applied: nat) {
    && Moves(s, npu, e, typ)
    && var af, k, g := e.Af(), KeyOf(npu, e), s.mc.groups[GroupOf(npu, e)];
       var gk := s.view.bound.At(af)[k].owner;
       && gk in s.mc.groups && s.view.InGroup(gk, af, k)
       && var own := s.mc.groups[gk];
          if applied == |AttrsOf(typ, e, g.rpfGrp, g.ipmcGrp)| then
            g.ipmcGrp == NULL_OID && own.ipmcGrp != NULL_OID
          else
            || (applied >= 1 && g.rpfGrp != own.rpfGrp)
            || (applied >= 2 && e.copyToCpu != s.view.carried[gk].At(af)[k].copyToCpu)
  }

  lemma AttrsPartlySent(o: EntryAttrs, e: Entry, rpfGrp: Oid, ipmcGrp: Oid, applied: nat)
    requires applied <= 2
    ensures SetAttrs(o, AttrsOf(UpdReplGrp, e, rpfGrp, ipmcGrp)[..applied]) ==
            EntryAttrs(if applied >= 1 then rpfGrp else o.rpfGrp, if applied >= 2 then e.copyToCpu else o.copyToCpu, o.outGrp)
  {
    var s := AttrsOf(UpdReplGrp, e, rpfGrp, ipmcGrp);
    assert s[..0] == [] && s[..1] == [RpfGroup(rpfGrp)] && s[..1][..0] == [];
    assert SetAttrs(o, s[..1]) == o.(rpfGrp := rpfGrp);
    assert s[..2] == [RpfGroup(rpfGrp), PacketAction(e.copyToCpu)] && s[..2][..1] == s[..1];
    assert SetAttrs(o, s[..2]) == o.(rpfGrp := rpfGrp, copyToCpu := e.copyToCpu);
  }

  /** An update that SAI breaks off: the cache stays, and the attributes go on
      matching exactly unless the ones sent differ. */
  lemma PartUpdateAgrees(s: Snap, npu: nat, e: Entry, typ: UpdateType, applied: nat)
    requires s.Sound() && GroupOf(npu, e) in s.mc.groups && EntryId(e.Af(), KeyOf(npu, e)) in s.live && s.Agrees()
    requires var g := s.mc.groups[GroupOf(npu, e)]; applied < |AttrsOf(typ, e, g.rpfGrp, g.ipmcGrp)|
    ensures var id, g := EntryId(e.Af(), KeyOf(npu, e)), s.mc.groups[GroupOf(npu, e)];
            var o := SetAttrs(s.live[id], AttrsOf(typ, e, g.rpfGrp, g.ipmcGrp)[..applied]);
            s.(live := s.live[id := o]).Agrees() <==> !UpdateDrifts(s, npu, e, typ, applied)
  {
    var af, k := e.Af(), KeyOf(npu, e);
    var id, g := EntryId(af, k), s.mc.groups[GroupOf(npu, e)];
    var attrs := AttrsOf(typ, e, g.rpfGrp, g.ipmcGrp);
    var s' := s.(live := s.live[id := SetAttrs(s.live[id], attrs[..applied])]);
    var gk := s.view.bound.At(af)[k].owner;
    assert s.view.PointsAt(af, k, gk) && s.view.InGroup(gk, af, k);
    assert forall h | s.view.InGroup(h, af, k) :: s.view.PointsAt(af, k, h) && h == gk;
    if typ.UpdReplGrp? {
      AttrsPartlySent(s.live[id], e, g.rpfGrp, g.ipmcGrp, applied);
    } else {
      assert attrs[..0] == [];
    }
    hide Relation.Consistent, SetAttrs, AttrsOf, Mc.Sound, SameEntries;
    var d := s.view.carried[gk].At(af)[k];
    assert AttrsMatch(s'.live[id], s.mc.groups[gk], d) <==> !UpdateDrifts(s, npu, e, typ, applied);
    assert s'.Agrees() ==> AttrsMatch(s'.live[id], s.mc.groups[gk], d);
  }

  /** A call that applies nothing drifts nowhere. */
  lemma NothingDrifts(s: Snap, npu: nat, e: Entry, typ: UpdateType)
    ensures !UpdateDrifts(s, npu, e, typ, 0)
  {
  }

  /** With the attributes agreeing before, an update applied as a whole drifts
      when the entry has an output group and its new group has none. */
  lemma WholeUpdateDrifts(s: Snap, npu: nat, e: Entry, typ: UpdateType)
    requires s.Sound() && GroupOf(npu, e) in s.mc.groups && EntryId(e.Af(), KeyOf(npu, e)) in s.live && s.Agrees()
    ensures var id, g := EntryId(e.Af(), KeyOf(npu, e)), s.mc.groups[GroupOf(npu, e)];
            UpdateDrifts(s, npu, e, typ, |AttrsOf(typ, e, g.rpfGrp, g.ipmcGrp)|) <==>
            typ.UpdReplGrp? && g.ipmcGrp == NULL_OID && s.live[id].outGrp != None
  {
    var af, k := e.Af(), KeyOf(npu, e);
    var gk := s.view.bound.At(af)[k].owner;
    assert s.view.PointsAt(af, k, gk) && s.view.InGroup(gk, af, k);
  }

  /** Group calls leave the entries' attributes matching as long as every group
      that carries an entry keeps its sub-groups. */
  lemma AttrsOutlive(live: map<EntryId, EntryAttrs>, r: Relation, groups: map<GroupKey, GroupRec>,
                     r': Relation, groups': map<GroupKey, GroupRec>)
    requires SameAttrs(live, r, groups)
    requires forall gk, af, k | r'.InGroup(gk, af, k) ::
               r.InGroup(gk, af, k) && r'.carried[gk].At(af)[k] == r.carried[gk].At(af)[k]
    requires forall gk | gk in groups && r'.Used(gk) ::
               gk in groups' && groups'[gk].rpfGrp == groups[gk].rpfGrp && groups'[gk].ipmcGrp == groups[gk].ipmcGrp
    ensures SameAttrs(live, r', groups')
  {
  }

  /** The calls of the interface. */
  datatype Call =
    | CreateGroup(npu: nat, owner: Option<int>, rpf: MemberSpec, ipmc: seq<MemberSpec>)
    | DeleteGroup(npu: nat, id: Oid)
    | UpdateGroup(npu: nat, id: Oid, op: GroupOp, kind: MemberKind, req: MemberSpec)
    | CreateEntry(npu: nat, e: Entry)
    | DeleteEntry(npu: nat, e: Entry)
    | UpdateEntry(npu: nat, e: Entry, typ: UpdateType)

  /** What a call does to the tables.  Entry calls leave the groups alone, and
      group calls SAI's entries. */
  ghost predicate Stepped(s: Snap, c: Call, rc: Rc, applied: nat, s': Snap) {
    match c
    case CreateGroup(npu, _, rpf, ipmc) =>
      && s'.live == s.live
      && (rc.Ok? || s'.view != s.view || s'.mc.groups != s.mc.groups ==>
            exists id: Oid :: GroupMade(s, npu, id, s') && (rc.Ok? ==> GroupFilled(s', GroupKey(npu, id), rpf, ipmc)))
    case DeleteGroup(npu, id) =>
      && s'.live == s.live
      && if rc.Ok? then
           && GroupKey(npu, id) in s.mc.groups && s'.mc == s.mc.GroupRemoved(GroupKey(npu, id))
           && s'.view == s.view.WithoutGroup(GroupKey(npu, id))
         else s'.view == s.view && s'.mc.groups == s.mc.groups
    case UpdateGroup(npu, id, op, kind, req) =>
      s'.live == s.live && s'.view == s.view && s'.mc.SameSubs(s.mc) && MemberUpdated(s, GroupKey(npu, id), op, kind, req, rc, s')
    case CreateEntry(npu, e) =>
      && s'.mc == s.mc
      && if rc.Ok? then
           && (s'.view, true) == s.view.Add(npu, e) && GroupOf(npu, e) in s.mc.groups
           && var g := s.mc.groups[GroupOf(npu, e)];
              s'.live == s.live[EntryId(e.Af(), KeyOf(npu, e)) := EntryAttrs(g.rpfGrp, e.copyToCpu, OutputOf(g))]
         else s' == s
    case DeleteEntry(npu, e) =>
      && s'.mc == s.mc
      && if rc.Ok? then
           (s'.view, true) == s.view.Delete(npu, e) && s'.live == s.live - {EntryId(e.Af(), KeyOf(npu, e))}
         else s' == s
    case UpdateEntry(npu, e, typ) =>
      && s'.mc == s.mc
      && (if rc.Ok? then (s'.view, true) == StepOf(typ, s.view, npu, e) else s'.view == s.view)
      && if applied == 0 then s'.live == s.live
         else
           && GroupOf(npu, e) in s.mc.groups && EntryId(e.Af(), KeyOf(npu, e)) in s.live
           && var g := s.mc.groups[GroupOf(npu, e)];
              var id, attrs := EntryId(e.Af(), KeyOf(npu, e)), AttrsOf(typ, e, g.rpfGrp, g.ipmcGrp);
              && applied <= |attrs| && (rc.Ok? <==> applied == |attrs|)
              && s'.live == s.live[id := SetAttrs(s.live[id], attrs[..applied])]
  }

  /** The member is added, taken out, or has new ports, as asked for, and no other
      group changes; or the records stay. */
  ghost predicate MemberUpdated(s: Snap, gk: GroupKey, op: GroupOp, kind: MemberKind, req: MemberSpec, rc: Rc, s': Snap) {
    if rc.Ok? then
      && gk in s.mc.groups && gk in s'.mc.groups && s'.mc.groups == s.mc.groups[gk := s'.mc.groups[gk]]
      && match op
         case AddMember => !s.mc.Has(gk, kind, req.rif) && s'.mc.AsAsked(gk, kind, req)
         case DelMember => s.mc.Has(gk, kind, req.rif) && s'.mc == s.mc.MemberRemoved(gk, kind, req.rif)
         case UpdateMember =>
           && s.mc.Has(gk, kind, req.rif)
           && s'.mc.PortsAsAsked(gk, kind, s.mc.groups[gk].Mbrs(kind)[req.rif].id, req)
    else s'.mc.groups == s.mc.groups
  }

  /** The cache has gained a group, and SAI its objects. */
  ghost predicate GroupMade(s: Snap, npu: nat, id: Oid, s': Snap) {
    s'.mc.GrownFrom(s.mc, GroupKey(npu, id)) && s'.view == s.view.WithGroup(GroupKey(npu, id))
  }

  /** The group has the RPF member asked for, and IPMC members that were asked
      for, with their ports, in the cache and in SAI. */
  ghost predicate GroupFilled(s: Snap, gk: GroupKey, rpf: MemberSpec, ipmc: seq<MemberSpec>) {
    gk in s.mc.groups && s.mc.AsAsked(gk, Rpf, rpf) && s.mc.OnlyAsked(gk, ipmc)
  }

  /** The step takes the attributes in SAI away from those of the groups. */
  ghost predicate Drifts(s: Snap, c: Call, applied: nat) {
    c.UpdateEntry? && UpdateDrifts(s, c.npu, c.e, c.typ, applied)
  }

  /** A group deletion that SAI broke off after part of the group was gone. */
  predicate BrokenOff(s: Snap, c: Call, s': Snap) {
    c.DeleteGroup? && s'.mc.groups == s.mc.groups && s'.mc.live != s.mc.live
  }

  lemma AgreesUntilDrift(trace: seq<Snap>, calls: seq<Call>, applied: seq<nat>)
    requires |trace| == |calls| + 1 && |applied| == |calls|
    requires forall i {:trigger calls[i]} | 0 <= i < |calls| && trace[i].Agrees() ::
               trace[i + 1].Agrees() <==> !Drifts(trace[i], calls[i], applied[i])
    ensures (forall i | 0 <= i <= |calls| :: trace[i].Agrees()) <==>
            trace[0].Agrees() && forall i {:trigger calls[i]} | 0 <= i < |calls| :: !Drifts(trace[i], calls[i], applied[i])
  {
    hide SameAttrs, Drifts;
    var n := |calls|;
    var holds := seq(n + 1, i requires 0 <= i <= n => trace[i].Agrees());
    var breaks := seq(n, i requires 0 <= i < n => Drifts(trace[i], calls[i], applied[i]));
    assert forall i | 0 <= i <= n :: trace[i].Agrees() <==> holds[i];
    assert forall i {:trigger calls[i]} | 0 <= i < n :: Drifts(trace[i], calls[i], applied[i]) <==> breaks[i];
    HoldsUntilBroken(holds, breaks, n);
  }

  lemma SyncedUntilBroken(trace: seq<Snap>, calls: seq<Call>)
    requires |trace| == |calls| + 1
    requires forall i {:trigger calls[i]} | 0 <= i < |calls| && trace[i].mc.Synced() ::
               trace[i + 1].mc.Synced() <==> !BrokenOff(trace[i], calls[i], trace[i + 1])
    ensures (forall i | 0 <= i <= |calls| :: trace[i].mc.Synced()) <==>
            trace[0].mc.Synced() && forall i {:trigger calls[i]} | 0 <= i < |calls| :: !BrokenOff(trace[i], calls[i], trace[i + 1])
  {
    hide Mc.Synced, BrokenOff;
    var n := |calls|;
    var holds := seq(n + 1, i requires 0 <= i <= n => trace[i].mc.Synced());
    var breaks := seq(n, i requires 0 <= i < n => BrokenOff(trace[i], calls[i], trace[i + 1]));
    assert forall i | 0 <= i <= n :: trace[i].mc.Synced() <==> holds[i];
    assert forall i {:trigger calls[i]} | 0 <= i < n :: BrokenOff(trace[i], calls[i], trace[i + 1]) <==> breaks[i];
    HoldsUntilBroken(holds, breaks, n);
  }

  class IpmcEntryApi {
    const groups: ReplGroupApi
    const sai: SaiEntryTable

    constructor ()
      ensures Valid() && AttrsAgree() && fresh(groups) && fresh(groups.sai) && fresh(groups.cache.Repr) && fresh(sai)
      ensures sai.failures == 0 && groups.sai.failures == 0 && Now() == Snap(map[], EMPTY, Mc(map[], map[], {}))
    {
      groups := new ReplGroupApi();
      sai := new SaiEntryTable();
      new;
      groups.State().SyncedIsSound();
    }

    ghost function View(): Relation
      reads this, groups, groups.cache
    {
      groups.cache.view
    }

    ghost function Now(): Snap
      reads this, groups, groups.cache, groups.sai, sai
    {
      Snap(sai.live, View(), groups.State())
    }

    ghost predicate Separate()
      reads this, groups, groups.cache
    {
      this !in groups.cache.Repr && sai !in groups.cache.Repr && groups.Separate()
    }

    /** What every call keeps, whatever SAI refuses. */
    ghost predicate Sound()
      reads this, groups, groups.cache, groups.cache.Repr, groups.sai, sai
    {
      Separate() && groups.Sound() && SameEntries(sai.live, View())
    }

    ghost predicate Valid()
      reads this, groups, groups.cache, groups.cache.Repr, groups.sai, sai
    {
      Sound() && groups.State().Synced()
    }

    ghost predicate AttrsAgree()
      reads this, groups, groups.cache, sai
    {
      SameAttrs(sai.live, View(), groups.cache.records)
    }

    lemma SnapIsSound()
      requires Sound()
      ensures Now().Sound()
    {
      forall gk ensures gk in View().carried <==> gk in groups.State().groups {
        groups.cache.KeysAgree(gk);
      }
    }

    /** SAI refuses an entry it already has, so an entry never enters the cache
        twice, whatever group the caller names. */
    method EntryCreate(npu: nat, e: Entry) returns (rc: Rc)
      requires Sound()
      modifies sai, groups.cache.Repr
      ensures Sound() && groups.State() == old(groups.State()) && groups.cache.Repr == old(groups.cache.Repr)
      ensures rc == Param <==> e.vrf != NULL_OID && GroupKey(npu, e.replGroup) !in groups.State().groups
      ensures rc.Ok? ==> && View().RouteTo(npu, e, (GroupKey(npu, e.replGroup), e.copyToCpu))
                         && old(View()).OtherRoutesKept(View(), npu, e)
      ensures rc.Ok? ==>
                && (View(), true) == old(View()).Add(npu, e) && GroupOf(npu, e) in groups.State().groups
                && var g := groups.State().groups[GroupOf(npu, e)];
                   sai.live == old(sai.live)[EntryId(e.Af(), KeyOf(npu, e)) := EntryAttrs(g.rpfGrp, e.copyToCpu, OutputOf(g))]
      ensures !rc.Ok? ==> View() == old(View()) && sai.live == old(sai.live)
      ensures sai.failures >= old(sai.failures)
      ensures sai.failures == old(sai.failures) ==>
                (rc.Ok? <==> && e.vrf != NULL_OID && GroupKey(npu, e.replGroup) in groups.State().groups
                             && !old(View()).Has(npu, e))
      ensures old(AttrsAgree()) ==> AttrsAgree()
    {
      hide ReplGroupCache.Valid, Relation.Consistent, Mc.Synced, Mc.Sound, SameAttrs;
      hide Relation.RouteTo, Relation.OtherRoutesKept, Relation.FoundAs;
      if e.vrf == NULL_OID {
        return Fail;
      }
      var subs := groups.cache.GetSubGroupId(npu, e.replGroup);
      if subs.None? {
        return Param;
      }
      var (rpfGrp, ipmcGrp) := subs.value;
      var id := EntryId(e.Af(), KeyOf(npu, e));
      var attrs := EntryAttrs(rpfGrp, e.copyToCpu, if ipmcGrp > 0 then Some(ipmcGrp) else None);
      groups.cache.KeysAgree(GroupOf(npu, e));
      ghost var live, r := sai.live, View();
      var ok := sai.Create(id, attrs);
      if !ok {
        return Fail;
      }
      CreateAgrees(live, r, groups.cache.records, npu, e, attrs);
      r.AddedRoute(npu, e);
      var _ := groups.cache.AddIpmcEntry(npu, e);
      rc := Ok;
    }

    method EntryDelete(npu: nat, e: Entry) returns (rc: Rc)
      requires Sound()
      modifies sai, groups.cache.Repr
      ensures Sound() && groups.State() == old(groups.State()) && groups.cache.Repr == old(groups.cache.Repr)
      ensures rc == Ok || rc == Fail
      ensures rc.Ok? ==>
                && (View(), true) == old(View()).Delete(npu, e)
                && sai.live == old(sai.live) - {EntryId(e.Af(), KeyOf(npu, e))}
      ensures rc.Ok? ==> View().RouteGone(npu, e) && old(View()).OtherRoutesKept(View(), npu, e)
      ensures rc == Fail ==> View() == old(View()) && sai.live == old(sai.live)
      ensures sai.failures >= old(sai.failures)
      ensures sai.failures == old(sai.failures) ==>
                (rc.Ok? <==> e.vrf != NULL_OID && old(View()).Has(npu, e))
      ensures old(AttrsAgree()) ==> AttrsAgree()
    {
      hide ReplGroupCache.Valid, Relation.Consistent, Mc.Synced, Mc.Sound, SameAttrs;
      hide Relation.RouteGone, Relation.OtherRoutesKept;
      if e.vrf == NULL_OID {
        return Fail;
      }
      var id := EntryId(e.Af(), KeyOf(npu, e));
      ghost var live, r := sai.live, View();
      var ok := sai.Remove(id);
      if !ok {
        return Fail;
      }
      DeleteAgrees(live, r, groups.cache.records, npu, e);
      r.DeletedRoute(npu, e);
      var _ := groups.cache.DelIpmcEntry(npu, e);
      rc := Ok;
    }

    /** The attributes reach SAI one at a time; the cache follows only after the
        last.  A refusal after the first leaves the earlier ones set. */
    method EntryUpdate(npu: nat, e: Entry, typ: UpdateType) returns (rc: Rc, ghost applied: nat)
      requires Sound()
      modifies sai, groups.cache.Repr
      ensures Sound() && groups.State() == old(groups.State()) && groups.cache.Repr == old(groups.cache.Repr)
      ensures rc == Param <==> e.vrf != NULL_OID && GroupKey(npu, e.replGroup) !in groups.State().groups
      ensures if rc.Ok? then (View(), true) == StepOf(typ, old(View()), npu, e) else View() == old(View())
      ensures rc.Ok? ==> && old(View()).Has(npu, e) && old(View()).OtherRoutesKept(View(), npu, e)
                         && View().RouteTo(npu, e, if typ.UpdReplGrp?
                                                   then (GroupKey(npu, e.replGroup), old(View()).FoundAs(npu, e).1)
                                                   else (old(View()).FoundAs(npu, e).0, e.copyToCpu))
      ensures applied == 0 ==> sai.live == old(sai.live) && !rc.Ok?
      ensures applied > 0 ==>
                && GroupOf(npu, e) in groups.State().groups && EntryId(e.Af(), KeyOf(npu, e)) in old(sai.live)
                && var g := groups.State().groups[GroupOf(npu, e)];
                   var id, attrs := EntryId(e.Af(), KeyOf(npu, e)), AttrsOf(typ, e, g.rpfGrp, g.ipmcGrp);
                   && applied <= |attrs| && (rc.Ok? <==> applied == |attrs|) && (rc.Ok? ==> attrs[..applied] == attrs)
                   && sai.live == old(sai.live)[id := SetAttrs(old(sai.live)[id], attrs[..applied])]
      ensures sai.failures >= old(sai.failures)
      ensures sai.failures == old(sai.failures) ==>
                (rc.Ok? <==> && e.vrf != NULL_OID && GroupKey(npu, e.replGroup) in groups.State().groups
                             && old(View()).Has(npu, e))
      ensures old(AttrsAgree()) ==> (AttrsAgree() <==> !UpdateDrifts(old(Now()), npu, e, typ, applied))
    {
      hide ReplGroupCache.Valid, Relation.Consistent, Mc.Synced, Mc.Sound, SameAttrs, UpdateDrifts;
      hide Relation.RouteTo, Relation.OtherRoutesKept, Relation.FoundAs;
      ghost var s := Now();
      SnapIsSound();
      applied := 0;
      NothingDrifts(s, npu, e, typ);
      if e.vrf == NULL_OID {
        return Fail, applied;
      }
      var subs := groups.cache.GetSubGroupId(npu, e.replGroup);
      if subs.None? {
        return Param, applied;
      }
      var (rpfGrp, ipmcGrp) := subs.value;
      var id, attrs := EntryId(e.Af(), KeyOf(npu, e)), AttrsOf(typ, e, rpfGrp, ipmcGrp);
      groups.cache.KeysAgree(GroupOf(npu, e));
      var ok;
      ok, applied := sai.SetAll(id, attrs);
      if !ok {
        if s.Agrees() && applied > 0 {
          PartUpdateAgrees(s, npu, e, typ, applied);
        }
        return Fail, applied;
      }
      assert attrs[..applied] == attrs;
      UpdateAgrees(s.live, s.view, s.mc.groups, npu, e, typ);
      UpdatedRoute(s.view, typ, npu, e);
      if s.Agrees() {
        WholeUpdateDrifts(s, npu, e, typ);
      }
      match typ {
        case UpdReplGrp => var _ := groups.cache.UpdateEntryReplGrp(npu, e);
        case UpdCopyToCpu => var _ := groups.cache.UpdateEntryCopyToCpu(npu, e);
      }
      rc := Ok;
    }

    // ---- runs ----

    method GroupCreate(npu: nat, owner: Option<int>, rpf: MemberSpec, ipmc: seq<MemberSpec>) returns (rc: Rc, id: Oid)
      requires Sound()
      modifies groups, groups.sai, groups.cache.Repr
      ensures Sound() && (old(Valid()) ==> Valid()) && fresh(groups.cache.Repr - old(groups.cache.Repr))
      ensures old(AttrsAgree()) ==> AttrsAgree()
      ensures Stepped(old(Now()), Call.CreateGroup(npu, owner, rpf, ipmc), rc, 0, Now())
    {
      hide ReplGroupCache.Valid, Relation.Consistent, Mc.Synced, Mc.Sound, SameAttrs, SameEntries;
      hide Mc.AsAsked, Mc.OnlyAsked, Mc.AllAsked;
      ghost var r, s := View(), groups.State();
      ghost var leaked;
      rc, id, leaked := groups.CreateReplGroup(npu, owner, rpf, ipmc);
      if GroupKey(npu, id) in groups.State().groups {
        assert GroupMade(old(Now()), npu, id, Now());
      }
      SameBound(sai.live, r, View());
      if old(AttrsAgree()) {
        AttrsOutlive(sai.live, r, s.groups, View(), groups.State().groups);
      }
    }

    method GroupDelete(npu: nat, id: Oid) returns (rc: Rc)
      requires Sound()
      modifies groups`orphans, groups.sai, groups.cache.Repr
      ensures Sound() && groups.cache.Repr == old(groups.cache.Repr)
      ensures old(Valid()) ==> (Valid() <==> !BrokenOff(old(Now()), Call.DeleteGroup(npu, id), Now()))
      ensures old(AttrsAgree()) ==> AttrsAgree()
      ensures Stepped(old(Now()), Call.DeleteGroup(npu, id), rc, 0, Now())
    {
      hide ReplGroupCache.Valid, Relation.Consistent, Mc.Synced, Mc.Sound, SameAttrs, SameEntries;
      ghost var r, s := View(), groups.State();
      ghost var gone;
      rc, gone := groups.DeleteReplGroup(npu, id);
      SameBound(sai.live, r, View());
      if old(AttrsAgree()) {
        AttrsOutlive(sai.live, r, s.groups, View(), groups.State().groups);
      }
    }

    method GroupUpdate(npu: nat, id: Oid, op: GroupOp, kind: MemberKind, req: MemberSpec) returns (rc: Rc)
      requires Sound()
      modifies groups, groups.sai, groups.cache.Repr
      ensures Sound() && (old(Valid()) ==> Valid()) && groups.cache.Repr == old(groups.cache.Repr)
      ensures old(AttrsAgree()) ==> AttrsAgree()
      ensures Stepped(old(Now()), Call.UpdateGroup(npu, id, op, kind, req), rc, 0, Now())
    {
      hide ReplGroupCache.Valid, Relation.Consistent, Mc.Synced, Mc.Sound, SameAttrs, SameEntries;
      hide Mc.AsAsked, Mc.PortsAsAsked;
      ghost var r, s := View(), groups.State();
      ghost var m;
      rc, m := groups.UpdateReplGroup(npu, id, op, kind, req);
      if old(AttrsAgree()) {
        AttrsOutlive(sai.live, r, s.groups, View(), groups.State().groups);
      }
    }

    /** Any call.  `applied` counts the attributes an entry update has set. */
    method Step(c: Call) returns (rc: Rc, ghost applied: nat)
      requires Sound()
      modifies groups, groups.sai, sai, groups.cache.Repr
      ensures Sound() && fresh(groups.cache.Repr - old(groups.cache.Repr))
      ensures Stepped(old(Now()), c, rc, applied, Now())
      ensures old(Valid()) ==> (Valid() <==> !BrokenOff(old(Now()), c, Now()))
      ensures old(AttrsAgree()) ==> (AttrsAgree() <==> !Drifts(old(Now()), c, applied))
    {
      hide ReplGroupCache.Valid, Relation.Consistent, Mc.Synced, Mc.Sound, SameAttrs, SameEntries, UpdateDrifts, GroupFilled;
      applied := 0;
      match c {
        case CreateGroup(npu, owner, rpf, ipmc) =>
          var id;
          rc, id := GroupCreate(npu, owner, rpf, ipmc);
        case DeleteGroup(npu, id) =>
          rc := GroupDelete(npu, id);
        case UpdateGroup(npu, id, op, kind, req) =>
          rc := GroupUpdate(npu, id, op, kind, req);
        case CreateEntry(npu, e) =>
          rc := EntryCreate(npu, e);
        case DeleteEntry(npu, e) =>
          rc := EntryDelete(npu, e);
        case UpdateEntry(npu, e, typ) =>
          rc, applied := EntryUpdate(npu, e, typ);
      }
    }

    /** Every run of calls, whatever SAI refuses.  At every moment no entry
        refers to a group outside the table, none is in two groups, the two
        entry tables list the same entries, and cached groups are live.  The
        members recorded and the members live in SAI agree throughout exactly
        when no deletion is broken off part-way, and the attributes of the
        entries exactly when no update drifts. */
    method Run(calls: seq<Call>) returns (rcs: seq<Rc>, ghost trace: seq<Snap>, ghost applied: seq<nat>)
      requires Sound()
      modifies groups, groups.sai, sai, groups.cache.Repr
      ensures Sound() && fresh(groups.cache.Repr - old(groups.cache.Repr))
      ensures |rcs| == |applied| == |calls| && |trace| == |calls| + 1
      ensures trace[0] == old(Now()) && trace[|calls|] == Now()
      ensures forall i | 0 <= i <= |calls| :: trace[i].Sound()
      ensures forall i | 0 <= i < |calls| :: Stepped(trace[i], calls[i], rcs[i], applied[i], trace[i + 1])
      ensures forall i | 0 <= i < |calls| && trace[i].mc.Synced() ::
                trace[i + 1].mc.Synced() <==> !BrokenOff(trace[i], calls[i], trace[i + 1])
      ensures forall i | 0 <= i < |calls| && trace[i].Agrees() ::
                trace[i + 1].Agrees() <==> !Drifts(trace[i], calls[i], applied[i])
      ensures (forall i | 0 <= i <= |calls| :: trace[i].mc.Synced()) <==>
              old(Valid()) && forall i | 0 <= i < |calls| :: !BrokenOff(trace[i], calls[i], trace[i + 1])
      ensures (forall i | 0 <= i <= |calls| :: trace[i].Agrees()) <==>
              old(AttrsAgree()) && forall i | 0 <= i < |calls| :: !Drifts(trace[i], calls[i], applied[i])
    {
      hide ReplGroupCache.Valid, Relation.Consistent, Mc.Synced, Mc.Sound, SameAttrs, SameEntries;
      hide UpdateDrifts, BrokenOff, Stepped, Snap.Sound;
      rcs, trace, applied := [], [Now()], [];
      SnapIsSound();
      for i := 0 to |calls|
        invariant Sound() && fresh(groups.cache.Repr - old(groups.cache.Repr))
        invariant |rcs| == |applied| == i && |trace| == i + 1 && trace[0] == old(Now()) && trace[i] == Now()
        invariant forall j | 0 <= j <= i :: trace[j].Sound()
        invariant forall j | 0 <= j < i :: Stepped(trace[j], calls[j], rcs[j], applied[j], trace[j + 1])
        invariant forall j | 0 <= j < i && trace[j].mc.Synced() ::
                    trace[j + 1].mc.Synced() <==> !BrokenOff(trace[j], calls[j], trace[j + 1])
        invariant forall j | 0 <= j < i && trace[j].Agrees() ::
                    trace[j + 1].Agrees() <==> !Drifts(trace[j], calls[j], applied[j])
      {
        var rc;
        ghost var n;
        rc, n := Step(calls[i]);
        SnapIsSound();
        rcs, trace, applied := rcs + [rc], trace + [Now()], applied + [n];
      }
      SyncedUntilBroken(trace, calls);
      AgreesUntilDrift(trace, calls, applied);
    }
  }

  /** Entries for different routes do not get in each other's way: without
      refusals both are created, in whatever groups, and deleting one leaves the
      other as it was. */
  method TwoRoutes(api: IpmcEntryApi, n: nat, e: Entry, m: nat, d: Entry) returns (first: Rc, second: Rc, last: Rc)
    requires api.Sound() && !SameRoute(n, e, m, d) && e.vrf != NULL_OID && d.vrf != NULL_OID
    requires GroupKey(n, e.replGroup) in api.groups.State().groups && GroupKey(m, d.replGroup) in api.groups.State().groups
    requires !api.View().Has(n, e) && !api.View().Has(m, d)
    modifies api.sai, api.groups.cache.Repr
    ensures api.Sound()
    ensures api.sai.failures == old(api.sai.failures) ==>
              && first.Ok? && second.Ok? && last.Ok? && !api.View().Has(n, e)
              && api.View().Has(m, d) && api.View().FoundAs(m, d) == (GroupKey(m, d.replGroup), d.copyToCpu)
  {
    hide ReplGroupCache.Valid, Relation.Consistent, Mc.Synced, Mc.Sound, SameAttrs, SameEntries, SameRoute, Relation.Has;
    hide KeyOf, Entry.Af, Relation.FoundAs;
    SymmetricRoute(n, e, m, d);
    SymmetricRoute(m, d, m, d);
    first := api.EntryCreate(n, e);
    second := api.EntryCreate(m, d);
    last := api.EntryDelete(n, e);
  }

  /** A group with an output interface and a group without, and no entries. */
  method TwoGroups(npu: nat, oif: MemberSpec, rpf: MemberSpec) returns (api: IpmcEntryApi, rc: Rc, a: GroupKey, b: GroupKey)
    ensures fresh(api) && fresh(api.sai) && fresh(api.groups) && fresh(api.groups.sai) && fresh(api.groups.cache.Repr)
    ensures api.Valid() && api.sai.failures == 0 && (rc == Ok || rc == Fail)
    ensures api.groups.sai.failures == 0 ==> rc.Ok?
    ensures rc.Ok? ==>
              && a != b && a.npu == b.npu == npu && api.sai.live == map[] && api.View() == EMPTY.WithGroup(a).WithGroup(b)
              && var groups := api.groups.State().groups;
                 && a in groups && b in groups && groups[a].ipmcGrp != NULL_OID && groups[b].ipmcGrp == NULL_OID
                 && groups[a].rpfMbrs.Keys == {rpf.rif}
                 && (api.groups.sai.failures == 0 ==> groups[a].ipmcMbrs.Keys == Rifs([oif]))
  {
    hide ReplGroupCache.Valid, Relation.Consistent, Mc.Synced, Mc.Sound, SameAttrs, SameEntries;
    hide Mc.Extends, Rifs, Mc.LeftBehind, Mc.AsAsked, Mc.OnlyAsked, Mc.AllAsked;
    api := new IpmcEntryApi();
    a, b := GroupKey(npu, NULL_OID), GroupKey(npu, NULL_OID);
    ghost var r := api.View();
    var id;
    ghost var leaked;
    rc, id, leaked := api.groups.CreateReplGroup(npu, Some(0), rpf, [oif]);
    SameBound(api.sai.live, r, api.View());
    if !rc.Ok? {
      return;
    }
    a := GroupKey(npu, id);
    r := api.View();
    rc, id, leaked := api.groups.CreateReplGroup(npu, Some(0), rpf, []);
    SameBound(api.sai.live, r, api.View());
    if !rc.Ok? {
      return;
    }
    b := GroupKey(npu, id);
  }

  /** The two groups of `TwoGroups`, an entry added under the first and moved to
      the second. */
  lemma MovedAway(a: GroupKey, b: GroupKey, e: Entry)
    requires a != b && a.npu == b.npu
    ensures var r1 := EMPTY.WithGroup(a).WithGroup(b).Add(a.npu, e.(replGroup := a.id)).0;
            var r2 := r1.Move(a.npu, e.(replGroup := b.id)).0;
            !r2.Used(a) && r2.InGroup(b, e.Af(), KeyOf(a.npu, e))
  {
  }

  lemma StaleOutput(live: map<EntryId, EntryAttrs>, r: Relation, groups: map<GroupKey, GroupRec>,
                    af: Af, k: EntryKey, gk: GroupKey)
    requires EntryId(af, k) in live && r.InGroup(gk, af, k) && gk in groups
    requires live[EntryId(af, k)].outGrp != OutputOf(groups[gk])
    ensures !SameAttrs(live, r, groups)
  {
  }

  /** The shortest run after which an entry names an output group that is gone,
      although SAI refuses nothing: the entry moves from a group with an output
      interface to one without, and its old group is deleted. */
  method OutputGroupOutlives(npu: nat, e: Entry, oif: MemberSpec, rpf: MemberSpec) returns (api: IpmcEntryApi, ghost out: Oid)
    requires e.vrf != NULL_OID
    ensures fresh(api) && fresh(api.sai) && fresh(api.groups) && fresh(api.groups.sai) && fresh(api.groups.cache.Repr)
    ensures api.sai.failures == 0 && api.groups.sai.failures == 0 ==>
              && api.Valid() && EntryId(e.Af(), KeyOf(npu, e)) in api.sai.live
              && api.sai.live[EntryId(e.Af(), KeyOf(npu, e))].outGrp == Some(out) && out !in api.groups.sai.live
              && !api.AttrsAgree()
  {
    hide ReplGroupCache.Valid, Relation.Consistent, Mc.Synced, Mc.Sound, SameAttrs, SameEntries, Mc.Extends, UpdateDrifts;
    hide Relation.WithGroup, Relation.Used, Mc.GroupRemoved, Rifs, SetAttrs, AttrsOf, Relation.Add, Relation.Move;
    out := NULL_OID;
    var rc, a, b;
    api, rc, a, b := TwoGroups(npu, oif, rpf);
    if rc.Ok? {
      ghost var s := api.groups.State();
      ghost var ea, eb := e.(replGroup := a.id), e.(replGroup := b.id);
      out := s.groups[a].ipmcGrp;
      MovedAway(a, b, e);
      rc := api.EntryCreate(npu, e.(replGroup := a.id));
      ghost var o := EntryAttrs(s.groups[a].rpfGrp, e.copyToCpu, Some(out));
      ghost var applied;
      rc, applied := api.EntryUpdate(npu, e.(replGroup := b.id), UpdReplGrp);
      AttrsSent(o, UpdReplGrp, eb, s.groups[b].rpfGrp, s.groups[b].ipmcGrp);
      assert |s.groups[a].rpfMbrs.Keys| == 1;
      OneRif(oif);
      ghost var r := api.View();
      ghost var gone;
      rc, gone := api.groups.DeleteReplGroup(npu, a.id);
      SameBound(api.sai.live, r, api.View());
      if rc.Ok? && api.sai.failures == 0 && api.groups.sai.failures == 0 {
        s.IpmcGroupGoes(a);
        StaleOutput(api.sai.live, api.View(), s.groups - {a}, e.Af(), KeyOf(npu, e), b);
      }
    }
  }
}
