/** The multicast replication cache, `repl_group_cache` of src/nas_ndi_ipmc.cpp:
    a table of replication-group objects and a global map from each entry to
    its group's object. */
module IpmcCache {
  import opened Types
  import opened EntryRelation
  import opened ReplGroupState

  /** One replication group.  `npu` only names the table key that the object
      lives under. */
  class ReplGroup {
    const npu: nat
    const id: Oid
    const rpfGrp: Oid
    const ipmcGrp: Oid
    var rpfMbrs: map<Oid, Member>
    var ipmcMbrs: map<Oid, Member>
    var entries: Lists<EntryData>

    constructor (npu: nat, id: Oid, rpfGrp: Oid, ipmcGrp: Oid)
      ensures this.npu == npu && this.id == id && this.rpfGrp == rpfGrp && this.ipmcGrp == ipmcGrp
      ensures rpfMbrs == map[] && ipmcMbrs == map[] && entries == Lists(map[], map[])
    {
      this.npu, this.id, this.rpfGrp, this.ipmcGrp := npu, id, rpfGrp, ipmcGrp;
      rpfMbrs, ipmcMbrs, entries := map[], map[], Lists(map[], map[]);
    }

    function Key(): GroupKey {
      GroupKey(npu, id)
    }

    function Rec(): GroupRec
      reads this
    {
      GroupRec(id, rpfGrp, ipmcGrp, rpfMbrs, ipmcMbrs)
    }

    /** Writes one side's member list. */
    method SetMbrs(kind: MemberKind, m: map<Oid, Member>)
      modifies this`rpfMbrs, this`ipmcMbrs
      ensures Rec() == old(Rec()).WithMbrs(kind, m)
    {
      match kind {
        case Rpf => rpfMbrs := m;
        case Ipmc => ipmcMbrs := m;
      }
    }

    method AddEntry(af: Af, k: EntryKey, d: EntryData) returns (ok: bool)
      modifies this`entries
      ensures ok <==> k !in old(entries).At(af)
      ensures entries == if ok then old(entries).With(af, k, d) else old(entries)
    {
      if k in entries.At(af) {
        return false;
      }
      entries := entries.With(af, k, d);
      return true;
    }

    method DeleteEntry(af: Af, k: EntryKey) returns (ok: bool)
      modifies this`entries
      ensures ok <==> k in old(entries).At(af)
      ensures entries == if ok then old(entries).Without(af, k) else old(entries)
    {
      if k !in entries.At(af) {
        return false;
      }
      entries := entries.Without(af, k);
      return true;
    }

    method UpdateCopyToCpu(af: Af, k: EntryKey, copyToCpu: bool) returns (ok: bool)
      modifies this`entries
      ensures ok <==> k in old(entries).At(af)
      ensures entries == if ok then old(entries).With(af, k, old(entries).At(af)[k].(copyToCpu := copyToCpu))
                         else old(entries)
    {
      if k !in entries.At(af) {
        return false;
      }
      entries := entries.With(af, k, entries.At(af)[k].(copyToCpu := copyToCpu));
      return true;
    }
  }

  /** A binding of the global map: the group object the entry points at and the
      entry's own copy of its mutable part. */
  datatype Binding = Binding(group: ReplGroup, data: EntryData)

  class ReplGroupCache {
    var groups: map<GroupKey, ReplGroup>
    var bindings: Lists<Binding>
    /** The relation that the objects encode. */
    ghost var view: Relation
    /** The groups without their entries, as values. */
    ghost var records: map<GroupKey, GroupRec>
    ghost var Repr: set<object>

    constructor ()
      ensures Valid() && fresh(Repr) && view == EMPTY && records == map[]
    {
      groups, bindings := map[], Lists(map[], map[]);
      view, records, Repr := EMPTY, map[], {this};
    }

    /** The table stores each object under its own key. */
    static ghost predicate TableOk(groups: map<GroupKey, ReplGroup>) {
      forall gk | gk in groups :: groups[gk].Key() == gk
    }

    /** Each binding's object is the one in the table, and `bound` names it. */
    static ghost predicate BindingsOk(groups: map<GroupKey, ReplGroup>, bindings: Lists<Binding>, bound: Lists<Bound>) {
      LinkedAll(groups, bindings.v4, bound.v4) && LinkedAll(groups, bindings.v6, bound.v6)
    }

    static ghost predicate LinkedAll(groups: map<GroupKey, ReplGroup>, m: map<EntryKey, Binding>, o: map<EntryKey, Bound>) {
      m.Keys == o.Keys && forall k | k in m :: Linked(groups, m[k], o[k])
    }

    static ghost predicate Linked(groups: map<GroupKey, ReplGroup>, b: Binding, o: Bound) {
      InTable(groups, b.group) && o == Bound(b.group.Key(), b.data)
    }

    static ghost predicate InTable(groups: map<GroupKey, ReplGroup>, g: ReplGroup) {
      g.Key() in groups && groups[g.Key()] == g
    }

    /** An object of the table sits under its own key only. */
    static lemma OnlyKey(groups: map<GroupKey, ReplGroup>, g: ReplGroup)
      requires TableOk(groups) && InTable(groups, g)
      ensures forall h | h in groups && h != g.Key() :: groups[h] != g
    {
    }

    static lemma LinkedAt(groups: map<GroupKey, ReplGroup>, bindings: Lists<Binding>, bound: Lists<Bound>,
                          af: Af, k: EntryKey)
      requires BindingsOk(groups, bindings, bound)
      ensures k in bindings.At(af) <==> k in bound.At(af)
      ensures k in bindings.At(af) ==> Linked(groups, bindings.At(af)[k], bound.At(af)[k])
    {
    }

    static lemma LinkedStep(groups: map<GroupKey, ReplGroup>, bindings: Lists<Binding>, bound: Lists<Bound>,
                            af: Af, k: EntryKey, b: Binding)
      requires BindingsOk(groups, bindings, bound) && InTable(groups, b.group)
      ensures BindingsOk(groups, bindings.With(af, k, b), bound.With(af, k, Bound(b.group.Key(), b.data)))
      ensures BindingsOk(groups, bindings.Without(af, k), bound.Without(af, k))
    {
    }

    static lemma LinkedGrow(groups: map<GroupKey, ReplGroup>, bindings: Lists<Binding>, bound: Lists<Bound>,
                            gk: GroupKey, g: ReplGroup)
      requires BindingsOk(groups, bindings, bound) && gk !in groups
      ensures BindingsOk(groups[gk := g], bindings, bound)
    {
    }

    static lemma LinkedShrink(groups: map<GroupKey, ReplGroup>, bindings: Lists<Binding>, r: Relation, gk: GroupKey)
      requires BindingsOk(groups, bindings, r.bound)
      ensures BindingsOk(groups - {gk}, bindings, r.bound) <==> r.NoneAt(gk)
    {
    }

    static ghost predicate InRepr(groups: map<GroupKey, ReplGroup>, repr: set<object>) {
      forall gk | gk in groups :: groups[gk] in repr
    }

    static ghost predicate CarriedOk(groups: map<GroupKey, ReplGroup>, c: map<GroupKey, Lists<EntryData>>)
      reads set gk | gk in groups :: groups[gk]
    {
      c.Keys == groups.Keys && forall gk | gk in groups :: c[gk] == groups[gk].entries
    }

    static ghost predicate RecordsOk(groups: map<GroupKey, ReplGroup>, r: map<GroupKey, GroupRec>)
      reads set gk | gk in groups :: groups[gk]
    {
      r.Keys == groups.Keys && forall gk | gk in groups :: r[gk] == groups[gk].Rec()
    }

    /** The table and the bindings are in order, and the ghost fields say what the
        objects hold. */
    ghost predicate Valid()
      reads this, Repr
    {
      && this in Repr && InRepr(groups, Repr)
      && TableOk(groups) && BindingsOk(groups, bindings, view.bound)
      && CarriedOk(groups, view.carried) && RecordsOk(groups, records)
    }

    lemma TableAt(gk: GroupKey)
      requires TableOk(groups)
      ensures CarriedOk(groups, view.carried) ==> (gk in groups <==> gk in view.carried)
      ensures RecordsOk(groups, records) ==> (gk in groups <==> gk in records)
      ensures gk in groups ==> InTable(groups, groups[gk]) && groups[gk].Key() == gk
    {
    }

    static lemma EnterTable(groups: map<GroupKey, ReplGroup>, c: map<GroupKey, Lists<EntryData>>,
                            r: map<GroupKey, GroupRec>, g: ReplGroup)
      requires CarriedOk(groups, c) && RecordsOk(groups, r) && g.entries == Lists(map[], map[])
      ensures CarriedOk(groups[g.Key() := g], c[g.Key() := Lists(map[], map[])])
      ensures RecordsOk(groups[g.Key() := g], r[g.Key() := g.Rec()])
    {
    }

    static lemma LeaveTable(groups: map<GroupKey, ReplGroup>, c: map<GroupKey, Lists<EntryData>>,
                            r: map<GroupKey, GroupRec>, gk: GroupKey)
      requires CarriedOk(groups, c) && RecordsOk(groups, r)
      ensures CarriedOk(groups - {gk}, c - {gk}) && RecordsOk(groups - {gk}, r - {gk})
    {
    }

    twostate lemma CarriedKept()
      requires old(CarriedOk(groups, view.carried)) && groups == old(groups) && view == old(view)
      requires forall gk | gk in groups :: groups[gk].entries == old(groups[gk].entries)
      ensures CarriedOk(groups, view.carried)
    {
    }

    static lemma CarriedAt(groups: map<GroupKey, ReplGroup>, c: map<GroupKey, Lists<EntryData>>, g: ReplGroup)
      requires CarriedOk(groups, c) && InTable(groups, g)
      ensures g.Key() in c && c[g.Key()] == g.entries && c[g.Key() := g.entries] == c
    {
    }

    /** One object's set was written. */
    twostate lemma CarriedWritten(g: ReplGroup)
      requires TableOk(groups) && InTable(groups, g) && groups == old(groups)
      requires old(CarriedOk(groups, view.carried))
      requires forall gk | gk in groups && groups[gk] != g :: groups[gk].entries == old(groups[gk].entries)
      ensures CarriedOk(groups, old(view).carried[g.Key() := g.entries])
    {
      hide TableOk;
      OnlyKey(groups, g);
    }

    twostate lemma RecordsKept()
      requires old(RecordsOk(groups, records)) && groups == old(groups) && records == old(records)
      requires forall gk | gk in groups ::
                 groups[gk].rpfMbrs == old(groups[gk].rpfMbrs) && groups[gk].ipmcMbrs == old(groups[gk].ipmcMbrs)
      ensures RecordsOk(groups, records)
    {
    }

    lemma KeysAgree(gk: GroupKey)
      requires Valid()
      ensures gk in records <==> gk in view.carried
    {
    }

    /** Membership in a group and the binding to that very object are the same
        thing. */
    lemma MembershipIsAliasing(gk: GroupKey, af: Af, k: EntryKey)
      requires Valid() && view.Consistent() && gk in groups
      ensures k in groups[gk].entries.At(af) <==>
              k in bindings.At(af) && bindings.At(af)[k].group == groups[gk]
    {
      assert view.InGroup(gk, af, k) <==> view.PointsAt(af, k, gk);
      LinkedAt(groups, bindings, view.bound, af, k);
    }

    // ---- groups ----

    method AddReplGroup(npu: nat, id: Oid, rpfGrp: Oid, ipmcGrp: Oid) returns (ok: bool)
      requires Valid()
      modifies this
      ensures ok <==> GroupKey(npu, id) !in old(records)
      ensures records == if ok then old(records)[GroupKey(npu, id) := GroupRec(id, rpfGrp, ipmcGrp, map[], map[])]
                         else old(records)
      ensures ok ==> GroupKey(npu, id) !in old(view).carried
      ensures view == if ok then old(view).WithGroup(GroupKey(npu, id)) else old(view)
      ensures Valid() && this in Repr && fresh(Repr - old(Repr))
    {
      hide BindingsOk, CarriedOk, RecordsOk;
      TableAt(GroupKey(npu, id));
      var gk := GroupKey(npu, id);
      if gk in groups {
        return false;
      }
      var g := new ReplGroup(npu, id, rpfGrp, ipmcGrp);
      LinkedGrow(groups, bindings, view.bound, gk, g);
      EnterTable(groups, view.carried, records, g);
      groups := groups[gk := g];
      Repr := Repr + {g};
      view, records := view.WithGroup(gk), records[gk := g.Rec()];
      return true;
    }

    /** The cache itself does not ask whether the group is in use.  The bindings
        stay inside the table exactly when none points at the group. */
    method DelReplGroup(npu: nat, id: Oid) returns (ok: bool)
      requires Valid()
      modifies this
      ensures ok <==> GroupKey(npu, id) in old(records)
      ensures Repr == old(Repr)
      ensures records == old(records) - {GroupKey(npu, id)}
      ensures view == old(view).WithoutGroup(GroupKey(npu, id))
      ensures Valid() <==> old(view).NoneAt(GroupKey(npu, id))
    {
      hide BindingsOk, CarriedOk, RecordsOk;
      TableAt(GroupKey(npu, id));
      var gk := GroupKey(npu, id);
      LeaveTable(groups, view.carried, records, gk);
      LinkedShrink(groups, bindings, view, gk);
      ok := gk in groups;
      if ok {
        groups := groups - {gk};
      } else {
        assert groups - {gk} == groups;
      }
      view, records := view.WithoutGroup(gk), records - {gk};
    }

    /** Some entry, of either family, is in the group. */
    method IsReplGroupUsed(npu: nat, id: Oid) returns (used: bool)
      requires Valid()
      ensures used <==> view.Used(GroupKey(npu, id))
    {
      hide BindingsOk, TableOk, RecordsOk;
      var gk := GroupKey(npu, id);
      if gk !in groups {
        return false;
      }
      var e := groups[gk].entries;
      used := !(e.v4 == map[] && e.v6 == map[]);
      if e.v4 != map[] {
        var k :| k in e.v4;
        assert view.InGroup(gk, V4, k);
      } else if e.v6 != map[] {
        var k :| k in e.v6;
        assert view.InGroup(gk, V6, k);
      }
    }

    method GetSubGroupId(npu: nat, id: Oid) returns (r: Option<(Oid, Oid)>)
      requires Valid()
      ensures var gk := GroupKey(npu, id);
              r == if gk in records then Some((records[gk].rpfGrp, records[gk].ipmcGrp)) else None
    {
      hide BindingsOk, TableOk, CarriedOk;
      var gk := GroupKey(npu, id);
      if gk !in groups {
        return None;
      }
      return Some((groups[gk].rpfGrp, groups[gk].ipmcGrp));
    }

    // ---- members ----

    /** The RPF side takes one member only. */
    method AddRpfGroupMember(npu: nat, id: Oid, m: Member) returns (ok: bool)
      requires Valid()
      modifies Repr
      ensures var gk, rs := GroupKey(npu, id), old(records);
              && (ok <==> gk in rs && rs[gk].rpfMbrs == map[])
              && records == if ok then rs[gk := rs[gk].(rpfMbrs := map[m.rif := m])] else rs
      ensures Valid() && Repr == old(Repr) && view == old(view)
    {
      hide BindingsOk, CarriedOk;
      var gk := GroupKey(npu, id);
      if gk !in groups || groups[gk].rpfMbrs != map[] {
        return false;
      }
      groups[gk].rpfMbrs := groups[gk].rpfMbrs[m.rif := m];
      records := records[gk := groups[gk].Rec()];
      CarriedKept();
      return true;
    }

    method AddIpmcGroupMember(npu: nat, id: Oid, m: Member) returns (ok: bool)
      requires Valid()
      modifies Repr
      ensures var gk, rs := GroupKey(npu, id), old(records);
              && (ok <==> gk in rs && m.rif !in rs[gk].ipmcMbrs)
              && records == if ok then rs[gk := rs[gk].(ipmcMbrs := rs[gk].ipmcMbrs[m.rif := m])] else rs
      ensures Valid() && Repr == old(Repr) && view == old(view)
    {
      hide BindingsOk, CarriedOk;
      var gk := GroupKey(npu, id);
      if gk !in groups || m.rif in groups[gk].ipmcMbrs {
        return false;
      }
      groups[gk].ipmcMbrs := groups[gk].ipmcMbrs[m.rif := m];
      records := records[gk := groups[gk].Rec()];
      CarriedKept();
      return true;
    }

    /** Rewrites one side's member list of a group of the table. */
    method WriteMbrs(g: ReplGroup, kind: MemberKind, m: map<Oid, Member>)
      requires Valid() && InTable(groups, g)
      modifies this`records, g`rpfMbrs, g`ipmcMbrs
      ensures records == old(records)[g.Key() := old(records)[g.Key()].WithMbrs(kind, m)]
      ensures Valid() && Repr == old(Repr) && view == old(view)
    {
      hide BindingsOk, CarriedOk, TableOk, GroupRec.WithMbrs;
      OnlyKey(groups, g);
      g.SetMbrs(kind, m);
      records := records[g.Key() := g.Rec()];
      forall h | h in groups
        ensures h in records && records[h] == groups[h].Rec()
      {
        assert h != g.Key() ==> groups[h] != g;
      }
      CarriedKept();
    }

    method UpdateGroupMember(npu: nat, id: Oid, kind: MemberKind, rif: Oid, ports: seq<SwPort>)
      returns (ok: bool)
      requires Valid()
      modifies Repr
      ensures ok <==> GroupKey(npu, id) in old(records) && rif in old(records)[GroupKey(npu, id)].Mbrs(kind)
      ensures !ok ==> records == old(records)
      ensures ok ==> var gk, rs := GroupKey(npu, id), old(records);
                     var m := rs[gk].Mbrs(kind);
                     records == rs[gk := rs[gk].WithMbrs(kind, m[rif := m[rif].(ports := PortSet(ports))])]
      ensures Valid() && Repr == old(Repr) && view == old(view)
    {
      hide BindingsOk, CarriedOk, TableOk;
      var gk := GroupKey(npu, id);
      TableAt(gk);
      if gk !in groups || rif !in groups[gk].Rec().Mbrs(kind) {
        return false;
      }
      var m := groups[gk].Rec().Mbrs(kind);
      WriteMbrs(groups[gk], kind, m[rif := m[rif].(ports := PortSet(ports))]);
      return true;
    }

    method DelGroupMember(npu: nat, id: Oid, kind: MemberKind, rif: Oid) returns (ok: bool)
      requires Valid()
      modifies Repr
      ensures ok <==> GroupKey(npu, id) in old(records) && rif in old(records)[GroupKey(npu, id)].Mbrs(kind)
      ensures !ok ==> records == old(records)
      ensures ok ==> var gk, rs := GroupKey(npu, id), old(records);
                     records == rs[gk := rs[gk].WithMbrs(kind, rs[gk].Mbrs(kind) - {rif})]
      ensures Valid() && Repr == old(Repr) && view == old(view)
    {
      hide BindingsOk, CarriedOk, TableOk;
      var gk := GroupKey(npu, id);
      TableAt(gk);
      if gk !in groups || rif !in groups[gk].Rec().Mbrs(kind) {
        return false;
      }
      WriteMbrs(groups[gk], kind, groups[gk].Rec().Mbrs(kind) - {rif});
      return true;
    }

    /** The member ids of one side, each RIF once, in some order. */
    method GetGroupMemberList(npu: nat, id: Oid, kind: MemberKind) returns (ghost rifs: seq<Oid>, ids: seq<Oid>)
      requires Valid()
      ensures GroupKey(npu, id) !in records ==> rifs == [] && ids == []
      ensures GroupKey(npu, id) in records ==> Enumerates(rifs, ids, records[GroupKey(npu, id)].Mbrs(kind))
      ensures GroupKey(npu, id) in records ==>
                var m := records[GroupKey(npu, id)].Mbrs(kind); |ids| == |m| && AsSet(ids) == Ids(m)
    {
      hide BindingsOk, TableOk, CarriedOk;
      rifs, ids := [], [];
      var gk := GroupKey(npu, id);
      if gk in groups {
        var m := groups[gk].Rec().Mbrs(kind);
        var left := m.Keys;
        while left != {}
          invariant left <= m.Keys
          invariant forall r :: r in rifs <==> r in m.Keys - left
          invariant |rifs| == |ids| == |m.Keys| - |left|
          invariant forall i, j | 0 <= i < j < |rifs| :: rifs[i] != rifs[j]
          invariant forall i | 0 <= i < |rifs| :: rifs[i] in m && ids[i] == m[rifs[i]].id
        {
          var rif :| rif in left;
          assert rif !in rifs;
          rifs, ids := rifs + [rif], ids + [m[rif].id];
          left := left - {rif};
        }
        EnumeratedIds(rifs, ids, m);
      }
    }

    method GetGroupRifMember(npu: nat, id: Oid, kind: MemberKind, rif: Oid) returns (r: Option<Oid>)
      requires Valid()
      ensures var gk := GroupKey(npu, id);
              r == if gk in records && rif in records[gk].Mbrs(kind)
                   then Some(records[gk].Mbrs(kind)[rif].id) else None
    {
      hide BindingsOk, TableOk, CarriedOk;
      var gk := GroupKey(npu, id);
      if gk !in groups || rif !in groups[gk].Rec().Mbrs(kind) {
        return None;
      }
      return Some(groups[gk].Rec().Mbrs(kind)[rif].id);
    }

    // ---- writes to one group's set or to the global map ----

    method AddToSet(g: ReplGroup, af: Af, k: EntryKey, d: EntryData) returns (ok: bool)
      requires TableOk(groups) && InTable(groups, g) && CarriedOk(groups, view.carried)
      modifies this`view, g`entries
      ensures ok <==> !old(view).InGroup(g.Key(), af, k)
      ensures var r, gk := old(view), g.Key();
              view == if ok then r.(carried := r.carried[gk := r.carried[gk].With(af, k, d)]) else r
      ensures CarriedOk(groups, view.carried)
    {
      hide TableOk, CarriedOk;
      CarriedAt(groups, view.carried, g);
      ok := g.AddEntry(af, k, d);
      CarriedWritten(g);
      view := view.(carried := view.carried[g.Key() := g.entries]);
    }

    method DelFromSet(g: ReplGroup, af: Af, k: EntryKey) returns (ok: bool)
      requires TableOk(groups) && InTable(groups, g) && CarriedOk(groups, view.carried)
      modifies this`view, g`entries
      ensures ok <==> old(view).InGroup(g.Key(), af, k)
      ensures var r, gk := old(view), g.Key();
              view == if ok then r.(carried := r.carried[gk := r.carried[gk].Without(af, k)]) else r
      ensures CarriedOk(groups, view.carried)
    {
      hide TableOk, CarriedOk;
      CarriedAt(groups, view.carried, g);
      ok := g.DeleteEntry(af, k);
      CarriedWritten(g);
      view := view.(carried := view.carried[g.Key() := g.entries]);
    }

    method FlagInSet(g: ReplGroup, af: Af, k: EntryKey, copyToCpu: bool) returns (ok: bool)
      requires TableOk(groups) && InTable(groups, g) && CarriedOk(groups, view.carried)
      modifies this`view, g`entries
      ensures ok <==> old(view).InGroup(g.Key(), af, k)
      ensures var r, gk := old(view), g.Key();
              view == if !ok then r else
                r.(carried := r.carried[gk := r.carried[gk].With(af, k, r.carried[gk].At(af)[k].(copyToCpu := copyToCpu))])
      ensures CarriedOk(groups, view.carried)
    {
      hide TableOk, CarriedOk;
      CarriedAt(groups, view.carried, g);
      ok := g.UpdateCopyToCpu(af, k, copyToCpu);
      CarriedWritten(g);
      view := view.(carried := view.carried[g.Key() := g.entries]);
    }

    method Rebind(af: Af, k: EntryKey, b: Binding)
      requires BindingsOk(groups, bindings, view.bound) && InTable(groups, b.group)
      modifies this`bindings, this`view
      ensures view == old(view).(bound := old(view).bound.With(af, k, Bound(b.group.Key(), b.data)))
      ensures BindingsOk(groups, bindings, view.bound)
    {
      hide BindingsOk;
      LinkedStep(groups, bindings, view.bound, af, k, b);
      bindings := bindings.With(af, k, b);
      view := view.(bound := view.bound.With(af, k, Bound(b.group.Key(), b.data)));
    }

    method Unbind(af: Af, k: EntryKey)
      requires BindingsOk(groups, bindings, view.bound) && k in bindings.At(af)
      modifies this`bindings, this`view
      ensures view == old(view).(bound := old(view).bound.Without(af, k))
      ensures BindingsOk(groups, bindings, view.bound)
    {
      hide BindingsOk;
      LinkedAt(groups, bindings, view.bound, af, k);
      LinkedStep(groups, bindings, view.bound, af, k, bindings.At(af)[k]);
      bindings := bindings.Without(af, k);
      view := view.(bound := view.bound.Without(af, k));
    }

    // ---- the entry operations ----

    method AddIpmcEntry(npu: nat, e: Entry) returns (ok: bool)
      requires Valid()
      modifies Repr
      ensures (view, ok) == old(view).Add(npu, e)
      ensures Valid() && Repr == old(Repr) && records == old(records)
    {
      hide BindingsOk, TableOk, CarriedOk, RecordsOk;
      var af, k, gk := e.Af(), KeyOf(npu, e), GroupOf(npu, e);
      TableAt(gk);
      LinkedAt(groups, bindings, view.bound, af, k);
      if gk !in groups {
        return false;
      }
      ok := AddToSet(groups[gk], af, k, DataOf(e));
      if ok {
        ok := k !in bindings.At(af);
        if ok {
          Rebind(af, k, Binding(groups[gk], DataOf(e)));
        }
      }
      RecordsKept();
    }

    /** Deletes the entry from the set of the group that the global map names,
        whatever group the caller wrote into `e`. */
    method DelIpmcEntry(npu: nat, e: Entry) returns (ok: bool)
      requires Valid()
      modifies Repr
      ensures (view, ok) == old(view).Delete(npu, e)
      ensures Valid() && Repr == old(Repr) && records == old(records)
    {
      hide BindingsOk, TableOk, CarriedOk, RecordsOk;
      var af, k := e.Af(), KeyOf(npu, e);
      LinkedAt(groups, bindings, view.bound, af, k);
      if k !in bindings.At(af) {
        return false;
      }
      var g := bindings.At(af)[k].group;
      ok := DelFromSet(g, af, k);
      if ok {
        Unbind(af, k);
      }
      RecordsKept();
    }

    /** Moves an entry to the group it names, possibly its own. */
    method UpdateEntryReplGrp(npu: nat, e: Entry) returns (ok: bool)
      requires Valid()
      modifies Repr
      ensures (view, ok) == old(view).Move(npu, e)
      ensures Valid() && Repr == old(Repr) && records == old(records)
    {
      hide BindingsOk, TableOk, CarriedOk, RecordsOk;
      var af, k, gk := e.Af(), KeyOf(npu, e), GroupOf(npu, e);
      LinkedAt(groups, bindings, view.bound, af, k);
      TableAt(gk);
      if gk !in groups || k !in bindings.At(af) {
        return false;
      }
      var b := bindings.At(af)[k];
      ok := DelFromSet(b.group, af, k);
      if ok {
        ok := AddToSet(groups[gk], af, k, DataOf(e));
        if ok {
          Rebind(af, k, Binding(groups[gk], b.data.(replGroup := e.replGroup)));
        }
      }
      RecordsKept();
    }

    method UpdateEntryCopyToCpu(npu: nat, e: Entry) returns (ok: bool)
      requires Valid()
      modifies Repr
      ensures (view, ok) == old(view).SetCopyToCpu(npu, e)
      ensures Valid() && Repr == old(Repr) && records == old(records)
    {
      hide BindingsOk, TableOk, CarriedOk, RecordsOk;
      var af, k := e.Af(), KeyOf(npu, e);
      LinkedAt(groups, bindings, view.bound, af, k);
      if k !in bindings.At(af) {
        return false;
      }
      var b := bindings.At(af)[k];
      ok := FlagInSet(b.group, af, k, e.copyToCpu);
      if ok {
        Rebind(af, k, Binding(b.group, b.data.(copyToCpu := e.copyToCpu)));
      }
      RecordsKept();
    }

    /** The lookup returns the binding's own copies; the group it names is the
        one that carries the entry. */
    method GetIpmcEntry(npu: nat, e: Entry) returns (r: Option<EntryData>)
      requires Valid() && view.Consistent()
      ensures r.Some? <==> exists gk :: view.InGroup(gk, e.Af(), KeyOf(npu, e))
      ensures r.Some? ==> view.InGroup(GroupKey(npu, r.value.replGroup), e.Af(), KeyOf(npu, e))
      ensures r.Some? && view.CopiesAgree() ==>
                r.value == view.carried[GroupKey(npu, r.value.replGroup)].At(e.Af())[KeyOf(npu, e)]
    {
      hide BindingsOk, TableOk, CarriedOk, RecordsOk;
      var af, k := e.Af(), KeyOf(npu, e);
      LinkedAt(groups, bindings, view.bound, af, k);
      if k !in bindings.At(af) {
        assert forall gk :: view.InGroup(gk, af, k) <==> view.PointsAt(af, k, gk);
        return None;
      }
      ghost var gk := bindings.At(af)[k].group.Key();
      assert view.PointsAt(af, k, gk) && view.InGroup(gk, af, k);
      return Some(bindings.At(af)[k].data);
    }
  }
}
