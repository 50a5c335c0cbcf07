/** Creation, deletion and update of replication groups: the SAI steps of
    src/nas_ndi_ipmc.cpp around the cache. */
module ReplGroups {
  import opened Types
  import opened EntryRelation
  import opened ReplGroupState
  import opened IpmcCache

  datatype GroupOp = AddMember | DelMember | UpdateMember

  class ReplGroupApi {
    const cache: ReplGroupCache
    const sai: Store<McObj>
    /** Members live in SAI that the cache has no record of: a rollback of
        theirs failed, or the code left them behind. */
    ghost var orphans: set<Oid>

    constructor ()
      ensures fresh(cache) && fresh(sai)
      ensures fresh(cache.Repr) && cache.view == EMPTY && State() == Mc(map[], map[], {}) && Valid()
      ensures sai.failures == 0
    {
      cache := new ReplGroupCache();
      sai := new Store<McObj>();
      orphans := {};
      new;
      assert State() == Mc(map[], map[], {});
    }

    /** The groups as recorded, beside the objects live in SAI. */
    ghost function State(): Mc
      reads this, cache, sai
    {
      Mc(cache.records, sai.live, orphans)
    }

    ghost predicate Separate()
      reads this, cache
    {
      this !in cache.Repr && sai !in cache.Repr && cache in cache.Repr
    }

    /** What every call keeps, whatever SAI refuses. */
    ghost predicate Sound()
      reads this, cache, cache.Repr, sai
    {
      Separate() && cache.Valid() && cache.view.Consistent() && State().Sound()
    }

    ghost predicate Valid()
      reads this, cache, cache.Repr, sai
    {
      Sound() && State().Synced()
    }

    // ---- single steps of SAI or of the cache, as steps of the state ----

    method CreateObject(o: McObj) returns (r: Option<Oid>)
      modifies sai
      ensures r.None? ==> State() == old(State()) && sai.failures == old(sai.failures) + 1
      ensures r.Some? ==> r.value != NULL_OID && r.value !in old(State()).live
      ensures r.Some? ==> State() == old(State()).WithLive(r.value, o) && sai.failures == old(sai.failures)
    {
      r := sai.Create(o);
    }

    method CreateMember(kind: MemberKind, grp: Oid, req: MemberSpec) returns (r: Option<Oid>)
      modifies sai
      ensures r.None? ==> State() == old(State()) && sai.failures == old(sai.failures) + (if grp == NULL_OID then 0 else 1)
      ensures r.Some? ==> grp != NULL_OID && r.value != NULL_OID && r.value !in old(State()).live
      ensures r.Some? ==> State() == old(State()).WithLive(r.value, Mbr(kind, grp, req.rif, req.ports))
      ensures r.Some? ==> sai.failures == old(sai.failures)
    {
      r := sai.CreateUnder(grp, Mbr(kind, grp, req.rif, req.ports));
    }

    /** Removal through the API of one kind, which knows the ids of that kind
        only. */
    method RemoveObject(m: Oid, what: ObjKind) returns (ok: bool)
      modifies sai, this`orphans
      ensures !ok ==> State() == old(State())
      ensures !ok ==> sai.failures == old(sai.failures) + (if m in sai.live && IsA(sai.live[m], what) then 1 else 0)
      ensures ok ==> m in old(State()).live && IsA(old(State()).live[m], what)
      ensures ok ==> State() == old(State()).Without({m}) && sai.failures == old(sai.failures)
    {
      if m !in sai.live || !IsA(sai.live[m], what) {
        return false;
      }
      ok := sai.Remove(m);
      if ok {
        orphans := orphans - {m};
      }
    }

    /** A new port list for a member, through the API of its side. */
    method SetPorts(m: Oid, kind: MemberKind, ports: seq<SwPort>) returns (ok: bool)
      modifies sai
      ensures !ok ==> State() == old(State())
      ensures !ok ==> sai.failures == old(sai.failures) +
                                      (if m in sai.live && IsA(sai.live[m], Members(kind)) then 1 else 0)
      ensures ok ==> m in old(State()).live && IsA(old(State()).live[m], Members(kind))
      ensures ok ==> State() == old(State()).WithLive(m, old(State()).live[m].(ports := ports))
      ensures ok ==> sai.failures == old(sai.failures)
    {
      if m !in sai.live || !IsA(sai.live[m], Members(kind)) {
        return false;
      }
      ok := sai.Set(m, sai.live[m].(ports := ports));
    }

    /** Removes a member that the cache refused; if SAI fails, it stays behind
        unrecorded. */
    method RollBackMember(m: Oid) returns (ok: bool)
      requires m in State().live
      modifies sai, this`orphans
      ensures ok ==> State() == old(State()).(live := old(State()).live - {m}) && sai.failures == old(sai.failures)
      ensures !ok ==> State() == old(State()).(orphans := old(State()).orphans + {m})
      ensures !ok ==> sai.failures == old(sai.failures) + 1
    {
      ok := sai.Remove(m);
      if !ok {
        orphans := orphans + {m};
      }
    }

    /** Records a member just created in SAI, or rolls it back when its RIF is
        already recorded. */
    method RecordOrRollBack(npu: nat, id: Oid, req: MemberSpec, m: Oid) returns (ghost out: Outcome)
      requires Separate() && cache.Valid() && GroupKey(npu, id) in cache.records && m in State().live
      modifies this, sai, cache.Repr
      ensures var s, gk := old(State()), GroupKey(npu, id);
              if req.rif !in s.groups[gk].ipmcMbrs then
                && out == Recorded(m)
                && var mbrs := s.groups[gk].ipmcMbrs[req.rif := MemberOf(m, req)];
                   State() == s.(groups := s.groups[gk := s.groups[gk].WithMbrs(Ipmc, mbrs)])
              else
                || (out == RolledBack && State() == s.(live := s.live - {m}))
                || (out == Stranded(m) && State() == s.(orphans := s.orphans + {m}))
      ensures sai.failures == old(sai.failures) + (if out.Stranded? then 1 else 0)
      ensures cache.Valid() && cache.view == old(cache.view) && cache.Repr == old(cache.Repr)
    {
      hide ReplGroupCache.Valid;
      var added := cache.AddIpmcGroupMember(npu, id, MemberOf(m, req));
      if added {
        out := Recorded(m);
      } else {
        var removed := RollBackMember(m);
        out := if removed then RolledBack else Stranded(m);
      }
    }

    /** One request of the member loop. */
    method AddIpmcMember(npu: nat, id: Oid, grp: Oid, req: MemberSpec) returns (ghost out: Outcome)
      requires Separate() && cache.Valid()
      requires GroupKey(npu, id) in State().groups && State().groups[GroupKey(npu, id)].ipmcGrp == grp
      modifies this, sai, cache.Repr
      ensures old(State()).Possible(GroupKey(npu, id), req, out)
      ensures State() == old(State()).After(GroupKey(npu, id), req, out)
      ensures cache.Valid() && cache.view == old(cache.view) && cache.Repr == old(cache.Repr)
      ensures sai.failures == old(sai.failures) + (if (out.Refused? && grp != NULL_OID) || out.Stranded? then 1 else 0)
    {
      hide ReplGroupCache.Valid;
      ghost var s, gk := State(), GroupKey(npu, id);
      var r := CreateMember(Ipmc, grp, req);
      if r.None? {
        return Refused;
      }
      out := RecordOrRollBack(npu, id, req, r.value);
      assert s.live[r.value := Mbr(Ipmc, grp, req.rif, req.ports)] - {r.value} == s.live;
    }

    /** The member loop of a creation.  SAI may refuse any member and fail any
        rollback; if the cache and SAI agreed, they do so afterwards. */
    method AddIpmcMembers(npu: nat, id: Oid, grp: Oid, reqs: seq<MemberSpec>, ghost rpf: MemberSpec, ghost before: Mc)
      requires Separate() && cache.Valid() && State().Sound()
      requires GroupKey(npu, id) in State().groups && State().groups[GroupKey(npu, id)].ipmcGrp == grp
      requires State().GrownFrom(before, GroupKey(npu, id)) && State().groups[GroupKey(npu, id)].ipmcMbrs == map[]
      requires reqs != [] ==> grp != NULL_OID
      modifies this, sai, cache.Repr
      ensures cache.Valid() && cache.view == old(cache.view) && cache.Repr == old(cache.Repr) && State().Sound()
      ensures old(State()).Synced() ==> State().Synced()
      ensures GroupKey(npu, id) in State().groups && State().GrownFrom(before, GroupKey(npu, id))
      ensures var g := State().groups[GroupKey(npu, id)];
              && g == old(State()).groups[GroupKey(npu, id)].(ipmcMbrs := g.ipmcMbrs)
              && g.ipmcMbrs.Keys <= Rifs(reqs)
              && (sai.failures == old(sai.failures) ==> g.ipmcMbrs.Keys == Rifs(reqs))
      ensures State().OnlyAsked(GroupKey(npu, id), reqs)
      ensures sai.failures == old(sai.failures) ==> State().AllAsked(GroupKey(npu, id), reqs)
      ensures old(State()).AsAsked(GroupKey(npu, id), Rpf, rpf) ==> State().AsAsked(GroupKey(npu, id), Rpf, rpf)
      ensures sai.failures >= old(sai.failures)
      ensures sai.failures == old(sai.failures) || DistinctRifs(reqs) ==> orphans == old(orphans)
    {
      hide ReplGroupCache.Valid, Mc.Synced, Mc.Sound, Mc.GrownFrom, Mc.After, Rifs, Mc.AsAsked, Mc.OnlyAsked, Mc.AllAsked;
      ghost var gk, g0 := GroupKey(npu, id), State().groups[GroupKey(npu, id)];
      ghost var done: set<Oid> := {};
      assert reqs[..0] == [];
      NoRifs();
      State().NoneAskedYet(gk);
      for i := 0 to |reqs|
        invariant cache.Valid() && cache.view == old(cache.view) && cache.Repr == old(cache.Repr) && State().Sound()
        invariant old(State()).Synced() ==> State().Synced()
        invariant gk in State().groups && State().GrownFrom(before, gk)
        invariant State().groups[gk] == g0.(ipmcMbrs := State().groups[gk].ipmcMbrs)
        invariant done == Rifs(reqs[..i])
        invariant State().OnlyAsked(gk, reqs[..i])
        invariant sai.failures == old(sai.failures) ==> State().AllAsked(gk, reqs[..i])
        invariant old(State()).AsAsked(gk, Rpf, rpf) ==> State().AsAsked(gk, Rpf, rpf)
        invariant State().groups[gk].ipmcMbrs.Keys <= done
        invariant sai.failures >= old(sai.failures)
        invariant sai.failures == old(sai.failures) || DistinctRifs(reqs) ==> orphans == old(orphans)
        invariant sai.failures == old(sai.failures) ==> State().groups[gk].ipmcMbrs.Keys == done
      {
        ghost var s := State();
        ghost var out := AddIpmcMember(npu, id, grp, reqs[i]);
        if s.Synced() {
          s.AfterSynced(gk, reqs[i], out);
        }
        s.AfterSound(gk, reqs[i], out);
        s.AfterGrown(before, gk, reqs[i], out);
        s.AfterShape(gk, reqs[i], out);
        s.AfterAsked(gk, reqs[i], out, Rpf, rpf);
        s.AfterOnlyAsked(gk, reqs[..i], reqs[i], out);
        if sai.failures == old(sai.failures) {
          s.AfterAllAsked(gk, reqs[..i], reqs[i], out);
        }
        assert reqs[..i + 1] == reqs[..i] + [reqs[i]];
        NextRifIsNew(reqs, i);
        done := done + {reqs[i].rif};
      }
      assert reqs[..|reqs|] == reqs;
    }

    /** The SAI objects of a new group.  A failure leaves the ones already made
        behind. */
    method CreateGroups(wanted: bool) returns (rc: Rc, id: Oid, rpfGrp: Oid, ipmcGrp: Oid, ghost leaked: set<Oid>)
      requires State().Sound()
      modifies sai
      ensures rc.Ok? ==>
                && old(State()).NewIds(id, rpfGrp, ipmcGrp) && (ipmcGrp != NULL_OID <==> wanted)
                && State() == old(State()).WithGroups(id, rpfGrp, ipmcGrp) && sai.failures == old(sai.failures)
                && leaked == {}
      ensures !rc.Ok? ==> rc == Fail && State().Sound() && sai.failures > old(sai.failures)
      ensures !rc.Ok? && old(State()).Synced() ==> State().Synced()
      ensures !rc.Ok? ==> State().LeftBehind(old(State()), id, leaked)
    {
      hide Mc.Synced, Mc.Sound, Mc.LeftBehind;
      ghost var s := State();
      s.NothingMade();
      rc, id, rpfGrp, ipmcGrp, leaked := Fail, NULL_OID, NULL_OID, NULL_OID, {};
      var r := CreateObject(ReplGrp);
      if r.None? {
        return;
      }
      id, leaked := r.value, {r.value};
      s.NewObjectSound(id, ReplGrp);
      s.StartsNew(id);
      if s.Synced() {
        s.PlainObjectKeeps(id, ReplGrp);
      }
      if wanted {
        r := CreateObject(SubGrp(Ipmc, id));
        if r.None? {
          return;
        }
        s.WithLive(id, ReplGrp).AlsoLeftBehind(s, id, leaked, r.value);
        ipmcGrp, leaked := r.value, leaked + {r.value};
        s.WithLive(id, ReplGrp).NewObjectSound(ipmcGrp, SubGrp(Ipmc, id));
        if s.Synced() {
          s.WithLive(id, ReplGrp).PlainObjectKeeps(ipmcGrp, SubGrp(Ipmc, id));
        }
      }
      r := CreateObject(SubGrp(Rpf, id));
      if r.None? {
        return;
      }
      rpfGrp, rc, leaked := r.value, Ok, {};
    }

    method CacheGroup(npu: nat, id: Oid, rpfGrp: Oid, ipmcGrp: Oid)
      requires Separate() && cache.Valid() && GroupKey(npu, id) !in State().groups
      modifies cache.Repr
      ensures Separate() && cache.Valid() && fresh(cache.Repr - old(cache.Repr))
      ensures GroupKey(npu, id) !in old(cache.view).carried
      ensures cache.view == old(cache.view).WithGroup(GroupKey(npu, id))
      ensures State() == old(State()).GroupAdded(GroupKey(npu, id), rpfGrp, ipmcGrp)
    {
      hide ReplGroupCache.Valid, Relation.WithGroup;
      var added := cache.AddReplGroup(npu, id, rpfGrp, ipmcGrp);
      if !added {
        assert false;  // cached groups are live, so a new SAI id is not cached
      }
    }

    /** The RPF member of a group that has none. */
    method AddRpfMember(npu: nat, id: Oid, grp: Oid, req: MemberSpec) returns (rc: Rc, ghost m: Oid)
      requires Separate() && cache.Valid() && GroupKey(npu, id) in State().groups
      requires grp != NULL_OID && State().groups[GroupKey(npu, id)].rpfGrp == grp
      requires State().groups[GroupKey(npu, id)].rpfMbrs == map[]
      modifies sai, cache.Repr
      ensures cache.Valid() && cache.view == old(cache.view) && cache.Repr == old(cache.Repr)
      ensures rc.Ok? ==> m != NULL_OID && m !in old(State()).live && sai.failures == old(sai.failures)
      ensures rc.Ok? ==> State() == old(State()).MemberWritten(GroupKey(npu, id), Rpf, m, req)
      ensures !rc.Ok? ==> rc == Fail && State() == old(State()) && sai.failures > old(sai.failures)
    {
      hide ReplGroupCache.Valid;
      m := NULL_OID;
      var r := CreateMember(Rpf, grp, req);
      if r.None? {
        return Fail, m;
      }
      m := r.value;
      var added := cache.AddRpfGroupMember(npu, id, MemberOf(r.value, req));
      if !added {
        assert false;  // the group is in the cache and has no RPF member yet
      }
      rc := Ok;
    }

    /** Enters a group made by `CreateGroups` into the cache, with its RPF
        member.  When SAI refuses the member, the group stays cached without. */
    method EnterGroup(npu: nat, id: Oid, rpfGrp: Oid, ipmcGrp: Oid, rpf: MemberSpec, ghost s: Mc) returns (rc: Rc)
      requires Separate() && cache.Valid() && s.Sound() && s.NewIds(id, rpfGrp, ipmcGrp)
      requires State() == s.WithGroups(id, rpfGrp, ipmcGrp)
      modifies sai, cache.Repr
      ensures Separate() && cache.Valid() && State().Sound() && fresh(cache.Repr - old(cache.Repr))
      ensures s.Synced() ==> State().Synced()
      ensures cache.view == old(cache.view).WithGroup(GroupKey(npu, id)) && GroupKey(npu, id) !in s.groups
      ensures GroupKey(npu, id) !in old(cache.view).carried
      ensures GroupKey(npu, id) in State().groups && State().GrownFrom(s, GroupKey(npu, id))
      ensures rc == Ok || rc == Fail
      ensures var g := State().groups[GroupKey(npu, id)];
              && g.ipmcGrp == ipmcGrp && g.ipmcMbrs == map[]
              && g.rpfMbrs.Keys == if rc.Ok? then {rpf.rif} else {}
      ensures rc.Ok? ==> State().AsAsked(GroupKey(npu, id), Rpf, rpf)
      ensures rc.Ok? <==> sai.failures == old(sai.failures)
      ensures sai.failures >= old(sai.failures)
    {
      ghost var gk := GroupKey(npu, id);
      s.GroupEntersSound(gk, rpfGrp, ipmcGrp);
      s.EnteredShape(gk, rpfGrp, ipmcGrp);
      s.EnteredGrows(gk, rpfGrp, ipmcGrp);
      hide ReplGroupCache.Valid, Mc.Synced, Mc.Sound, Mc.GrownFrom, Mc.WithGroups, Mc.GroupAdded, Mc.MemberWritten, Mc.NewIds;
      CacheGroup(npu, id, rpfGrp, ipmcGrp);
      if s.Synced() {
        s.GroupEntersKeeps(gk, rpfGrp, ipmcGrp);
      }
      ghost var m;
      rc, m := AddRpfMember(npu, id, rpfGrp, rpf);
      if rc.Ok? {
        assert State() == s.Created(gk, rpfGrp, ipmcGrp, m, rpf);
        hide Mc.Created, Mc.AsAsked;
        s.CreatedAsAsked(gk, rpfGrp, ipmcGrp, m, rpf);
        s.CreatedSound(gk, rpfGrp, ipmcGrp, m, rpf);
        if s.Synced() {
          s.CreatedKeeps(gk, rpfGrp, ipmcGrp, m, rpf);
        }
        s.CreatedGrows(gk, rpfGrp, ipmcGrp, m, rpf);
      }
    }

    /** The group with its members enters the cache. */
    method FillGroup(npu: nat, id: Oid, rpfGrp: Oid, ipmcGrp: Oid, rpf: MemberSpec, ipmc: seq<MemberSpec>, ghost s: Mc)
      returns (rc: Rc)
      requires Separate() && cache.Valid() && cache.view.Consistent() && (ipmc != [] ==> ipmcGrp != NULL_OID)
      requires s.Sound() && s.NewIds(id, rpfGrp, ipmcGrp)
      requires State() == s.WithGroups(id, rpfGrp, ipmcGrp)
      modifies this, sai, cache.Repr
      ensures Sound() && (s.Synced() ==> State().Synced()) && fresh(cache.Repr - old(cache.Repr))
      ensures GroupKey(npu, id) !in s.groups && GroupKey(npu, id) in State().groups
      ensures rc == Ok || rc == Fail
      ensures cache.view == old(cache.view).WithGroup(GroupKey(npu, id))
      ensures GroupKey(npu, id) !in old(cache.view).carried
      ensures State().GrownFrom(s, GroupKey(npu, id))
      ensures var g := State().groups[GroupKey(npu, id)];
              && g.rpfMbrs.Keys == (if rc.Ok? then {rpf.rif} else {}) && g.ipmcGrp == ipmcGrp
              && g.ipmcMbrs.Keys <= (if rc.Ok? then Rifs(ipmc) else {})
              && (sai.failures == old(sai.failures) ==> g.ipmcMbrs.Keys == Rifs(ipmc))
      ensures rc.Ok? ==> State().AsAsked(GroupKey(npu, id), Rpf, rpf) && State().OnlyAsked(GroupKey(npu, id), ipmc)
      ensures sai.failures == old(sai.failures) ==> State().AllAsked(GroupKey(npu, id), ipmc)
      ensures sai.failures >= old(sai.failures)
      ensures sai.failures == old(sai.failures) ==> rc.Ok?
      ensures sai.failures == old(sai.failures) || DistinctRifs(ipmc) || rc == Fail ==> orphans == old(orphans)
    {
      hide ReplGroupCache.Valid, Mc.Synced, Mc.Sound, Relation.Consistent, Relation.WithGroup;
      hide Mc.GrownFrom, Mc.NewIds, Mc.WithGroups, Mc.AsAsked, Mc.OnlyAsked, Mc.AllAsked;
      rc := EnterGroup(npu, id, rpfGrp, ipmcGrp, rpf, s);
      assert cache.view.Consistent() by {
        old(cache.view).WithGroupKeeps(GroupKey(npu, id));
      }
      if rc.Ok? {
        AddIpmcMembers(npu, id, ipmcGrp, ipmc, rpf, s);
      }
    }

    /** `owner` is the SAI owner type, None when the caller's type has none.
        Nothing that was live is lost.  A group that SAI refused a sub-group
        leaks, with the sub-group made before; any other failure leaves either
        nothing or a group in the cache that has no members. */
    method CreateReplGroup(npu: nat, owner: Option<int>, rpf: MemberSpec, ipmc: seq<MemberSpec>)
      returns (rc: Rc, id: Oid, ghost leaked: set<Oid>)
      requires Sound()
      modifies this, sai, cache.Repr
      ensures Sound() && (old(Valid()) ==> Valid()) && fresh(cache.Repr - old(cache.Repr))
      ensures owner.None? ==> rc == Param && State() == old(State()) && cache.view == old(cache.view)
      ensures owner.Some? ==> rc == Ok || rc == Fail
      ensures var gk := GroupKey(npu, id);
              if gk in State().groups then
                && State().GrownFrom(old(State()), gk) && leaked == {}
                && gk !in old(cache.view).carried && cache.view == old(cache.view).WithGroup(gk)
              else
                !rc.Ok? && State().LeftBehind(old(State()), id, leaked) && cache.view == old(cache.view)
      ensures leaked != {} <==> rc == Fail && id != NULL_OID && GroupKey(npu, id) !in State().groups
      ensures GroupKey(npu, id) in State().groups ==>
                var g := State().groups[GroupKey(npu, id)];
                && g.rpfMbrs.Keys == (if rc.Ok? then {rpf.rif} else {})
                && (g.ipmcGrp == NULL_OID <==> ipmc == [])
                && g.ipmcMbrs.Keys <= (if rc.Ok? then Rifs(ipmc) else {})
                && (sai.failures == old(sai.failures) ==> g.ipmcMbrs.Keys == Rifs(ipmc))
      ensures rc.Ok? ==> && GroupKey(npu, id) in State().groups && State().AsAsked(GroupKey(npu, id), Rpf, rpf)
                         && State().OnlyAsked(GroupKey(npu, id), ipmc)
      ensures rc.Ok? && sai.failures == old(sai.failures) ==>
                && State().AllAsked(GroupKey(npu, id), ipmc)
                && (DistinctRifs(ipmc) ==> forall q | q in ipmc :: State().AsAsked(GroupKey(npu, id), Ipmc, q))
      ensures sai.failures >= old(sai.failures)
      ensures owner.Some? && sai.failures == old(sai.failures) ==> rc.Ok?
      ensures sai.failures == old(sai.failures) || DistinctRifs(ipmc) || !rc.Ok? ==> orphans == old(orphans)
    {
      hide ReplGroupCache.Valid, Mc.Synced, Mc.Sound, Relation.Consistent, Mc.GrownFrom, Mc.NewIds, Mc.WithGroups;
      hide Mc.LeftBehind, Relation.WithGroup, Rifs, DistinctRifs, Mc.AsAsked, Mc.OnlyAsked, Mc.AllAsked;
      ghost var s := State();
      s.NothingMade();
      s.LeftBehindUncached(s, GroupKey(npu, NULL_OID), {});
      id, leaked := NULL_OID, {};
      if owner.None? {
        return Param, id, leaked;
      }
      var rpfGrp, ipmcGrp;
      rc, id, rpfGrp, ipmcGrp, leaked := CreateGroups(|ipmc| > 0);
      if rc.Ok? {
        rc := FillGroup(npu, id, rpfGrp, ipmcGrp, rpf, ipmc, s);
        if sai.failures == old(sai.failures) && DistinctRifs(ipmc) {
          State().DistinctAsked(GroupKey(npu, id), ipmc);
        }
      } else {
        State().LeftBehindUncached(s, GroupKey(npu, id), leaked);
      }
    }

    /** Removes the listed objects, all of one kind, until SAI refuses one.  Of
        the objects of `s`, `before` were gone already and `gone` are gone
        after. */
    method RemoveObjects(ids: seq<Oid>, what: ObjKind, ghost s: Mc, ghost before: set<Oid>)
      returns (ok: bool, ghost gone: set<Oid>)
      requires State() == s.Without(before)
      modifies sai, this`orphans
      ensures State() == s.Without(gone) && before <= gone <= before + AsSet(ids)
      ensures s.Parts(before) && !what.ReplGroups? ==> s.Parts(gone)
      ensures ok ==> gone == before + AsSet(ids)
      ensures !ok && |ids| == 1 ==> gone == before
      ensures sai.failures >= old(sai.failures) && (ok ==> sai.failures == old(sai.failures))
      ensures s.Removable(ids, what, before) ==> (ok <==> sai.failures == old(sai.failures))
    {
      gone := before;
      for i := 0 to |ids|
        invariant gone == before + AsSet(ids[..i])
        invariant State() == s.Without(gone)
        invariant s.Parts(before) && !what.ReplGroups? ==> s.Parts(gone)
        invariant sai.failures == old(sai.failures)
      {
        assert ids[i] in ids && (Distinct(ids) ==> ids[i] !in ids[..i]);
        ok := RemoveObject(ids[i], what);
        if !ok {
          return;
        }
        gone := gone + {ids[i]};
        assert ids[..i + 1] == ids[..i] + [ids[i]];
      }
      assert ids[..|ids|] == ids;
      ok := true;
    }

    /** The SAI steps of a deletion, in order; the group itself goes last. */
    method RemoveGroupObjects(ghost gk: GroupKey, id: Oid, rpfGrp: Oid, ipmcGrp: Oid, rpfIds: seq<Oid>, ipmcIds: seq<Oid>)
      returns (ok: bool, ghost gone: set<Oid>)
      requires State().DeletionList(gk, id, rpfGrp, ipmcGrp, rpfIds, ipmcIds)
      modifies sai, this`orphans
      ensures State() == old(State()).Without(gone)
      ensures gone <= old(State()).groups[gk].DeletedIds()
      ensures ok ==> gone == old(State()).groups[gk].DeletedIds()
      ensures old(State()).Parts(if ok then gone - {id} else gone)
      ensures old(State()).DeletionOrder(gk, id, rpfGrp, ipmcGrp, rpfIds, ipmcIds) ==>
                (ok <==> sai.failures == old(sai.failures))
      ensures sai.failures >= old(sai.failures)
    {
      hide GroupRec.DeletedIds, ReplGroupApi.State, Mc.Removable, Mc.DeletionOrder, Mc.Parts, AsSet;
      ghost var s := State();
      SingleId(rpfGrp);
      SingleId(ipmcGrp);
      SingleId(id);
      s.NothingGone();
      if s.DeletionOrder(gk, id, rpfGrp, ipmcGrp, rpfIds, ipmcIds) {
        s.OrderIsRemovable(gk, id, rpfGrp, ipmcGrp, rpfIds, ipmcIds);
      }
      ok, gone := RemoveObjects(rpfIds, Members(Rpf), s, {});
      assert ok ==> gone == AsSet(rpfIds);
      if ok {
        ok, gone := RemoveObjects([rpfGrp], SubGroups(Rpf), s, gone);
      }
      if ok {
        ok, gone := RemoveObjects(ipmcIds, Members(Ipmc), s, gone);
      }
      if ok && |ipmcIds| > 0 {
        ok, gone := RemoveObjects([ipmcGrp], SubGroups(Ipmc), s, gone);
      }
      if ok {
        ghost var parts := gone;
        assert parts == AsSet(rpfIds) + {rpfGrp} + AsSet(ipmcIds) + (if |ipmcIds| > 0 then {ipmcGrp} else {});
        ok, gone := RemoveObjects([id], ReplGroups, s, parts);
        s.PartsAndGroup(parts, id);
      }
    }

    /** The group leaves SAI, and then the cache. */
    method RemoveGroup(npu: nat, id: Oid, rpfGrp: Oid, ipmcGrp: Oid, rpfIds: seq<Oid>, ipmcIds: seq<Oid>)
      returns (ok: bool, ghost gone: set<Oid>)
      requires Sound() && State().DeletionList(GroupKey(npu, id), id, rpfGrp, ipmcGrp, rpfIds, ipmcIds)
      requires !cache.view.Used(GroupKey(npu, id))
      requires State().Synced() ==> State().DeletionOrder(GroupKey(npu, id), id, rpfGrp, ipmcGrp, rpfIds, ipmcIds)
      modifies sai, this`orphans, cache.Repr
      ensures var gk, s := GroupKey(npu, id), old(State());
              && (ok ==> State() == s.GroupRemoved(gk) && cache.view == old(cache.view).WithoutGroup(gk))
              && (!ok ==> && gone <= s.groups[gk].DeletedIds() && gone <= s.live.Keys && State() == s.Without(gone)
                          && cache.view == old(cache.view))
      ensures Sound() && cache.Repr == old(cache.Repr)
      ensures sai.failures >= old(sai.failures)
      ensures old(State().Synced()) ==>
                && (State().Synced() <==> ok || gone == {}) && (ok <==> sai.failures == old(sai.failures))
    {
      hide ReplGroupCache.Valid, Mc.Synced, Mc.Sound, Relation.Consistent, Relation.Used, Relation.NoneAt;
      hide Relation.WithoutGroup, Mc.DeletionOrder, GroupRec.DeletedIds, Mc.Parts, AsSet;
      ghost var s, gk := State(), GroupKey(npu, id);
      ok, gone := RemoveGroupObjects(gk, id, rpfGrp, ipmcGrp, rpfIds, ipmcIds);
      if !ok {
        s.WithoutSound(gone);
        if s.Synced() {
          s.DeletionBrokenOff(gk, gone);
        }
        return;
      }
      s.GroupRemovedSound(gk);
      if s.Synced() {
        s.GroupRemovedKeeps(gk);
      }
      cache.view.WithoutGroupKeeps(gk);
      cache.view.UnusedIsUnbound(gk);
      var _ := cache.DelReplGroup(npu, id);
    }

    /** A deletion that SAI breaks off keeps its record.  A cached group stays
        live all the same, since the group object goes last. */
    method DeleteReplGroup(npu: nat, id: Oid) returns (rc: Rc, ghost gone: set<Oid>)
      requires Sound()
      modifies sai, this`orphans, cache.Repr
      ensures var gk, s := GroupKey(npu, id), old(State());
              && (rc == Param <==> old(cache.view).Used(gk) || gk !in s.groups || |s.groups[gk].rpfMbrs| != 1)
              && (rc == Param ==> State() == s && cache.view == old(cache.view))
              && (rc.Ok? ==> State() == s.GroupRemoved(gk) && cache.view == old(cache.view).WithoutGroup(gk))
              && (!rc.Ok? && rc != Param ==>
                    && rc == Fail && gone <= s.groups[gk].DeletedIds() && gone <= s.live.Keys && State() == s.Without(gone)
                    && cache.view == old(cache.view))
      ensures old(Valid()) ==> (Valid() <==> rc != Fail || gone == {})
      ensures old(Valid()) ==> (rc == Fail ==> sai.failures > old(sai.failures))
      ensures sai.failures >= old(sai.failures)
      ensures Sound() && cache.Repr == old(cache.Repr)
    {
      hide ReplGroupCache.Valid, Mc.Synced, Mc.Sound, Relation.Consistent, Relation.Used;
      hide Relation.WithoutGroup, Mc.DeletionOrder, Mc.DeletionList, Mc.GroupRemoved, Mc.Without;
      hide Enumerates, GroupRec.DeletedIds;
      ghost var s, gk := State(), GroupKey(npu, id);
      s.IdIsKey(gk);
      gone := {};
      var used := cache.IsReplGroupUsed(npu, id);
      if used {
        return Param, gone;
      }
      var subs := cache.GetSubGroupId(npu, id);
      if subs.None? {
        return Param, gone;
      }
      var (rpfGrp, ipmcGrp) := subs.value;
      ghost var rpfRifs, ipmcRifs;
      var rpfIds, ipmcIds;
      rpfRifs, rpfIds := cache.GetGroupMemberList(npu, id, Rpf);
      if |rpfIds| != 1 {
        return Param, gone;
      }
      ipmcRifs, ipmcIds := cache.GetGroupMemberList(npu, id, Ipmc);
      s.DeletionIsListed(gk, rpfRifs, rpfIds, ipmcRifs, ipmcIds);
      if s.Synced() {
        s.DeletionIsOrdered(gk, rpfRifs, rpfIds, ipmcRifs, ipmcIds);
      }
      var ok;
      ok, gone := RemoveGroup(npu, id, rpfGrp, ipmcGrp, rpfIds, ipmcIds);
      rc := if ok then Ok else Fail;
    }

    // ---- changing one member ----

    /** There is no rollback here: when the cache refuses the member that SAI
        has just created, it stays in SAI unrecorded.  With no such group in the
        cache, the parent id is whatever the uninitialised variable holds. */
    method AddMemberTo(npu: nat, id: Oid, kind: MemberKind, req: MemberSpec) returns (rc: Rc, ghost m: Oid)
      requires Sound() && !State().Has(GroupKey(npu, id), kind, req.rif)
      modifies this, sai, cache.Repr
      ensures Sound() && (old(Valid()) ==> Valid()) && State().SameSubs(old(State()))
      ensures sai.failures >= old(sai.failures)
      ensures cache.view == old(cache.view) && cache.Repr == old(cache.Repr)
      ensures var gk, s := GroupKey(npu, id), old(State());
              && (rc.Ok? ==> s.Accepts(gk, kind) && s.Writable(gk, kind, m, req) && State() == s.MemberWritten(gk, kind, m, req))
              && (!rc.Ok? ==> rc == Fail && (State() == s || (!s.Accepts(gk, kind) && State().HasOrphan(s, m, kind, req))))
              && (sai.failures == old(sai.failures) && gk in s.groups && s.groups[gk].Sub(kind) != NULL_OID ==>
                    if s.Accepts(gk, kind) then rc.Ok? else State().HasOrphan(s, m, kind, req))
    {
      hide ReplGroupCache.Valid, Mc.Synced, Mc.Sound, Relation.Consistent;
      ghost var s, gk := State(), GroupKey(npu, id);
      m := NULL_OID;
      var rpfGrp: Oid, ipmcGrp: Oid := *, *;
      var subs := cache.GetSubGroupId(npu, id);
      if subs.Some? {
        rpfGrp, ipmcGrp := subs.value.0, subs.value.1;
      }
      var grp := if kind.Rpf? then rpfGrp else ipmcGrp;
      var r := CreateMember(kind, grp, req);
      if r.None? {
        return Fail, m;
      }
      m := r.value;
      var added;
      match kind {
        case Rpf => added := cache.AddRpfGroupMember(npu, id, MemberOf(r.value, req));
        case Ipmc => added := cache.AddIpmcGroupMember(npu, id, MemberOf(r.value, req));
      }
      if added {
        AddedSound(s, gk, kind, m, req);
        if s.Synced() {
          s.MemberWrittenKeeps(gk, kind, m, req);
        }
        rc := Ok;
      } else {
        orphans := orphans + {m};
        s.NewObjectSound(m, Mbr(kind, grp, req.rif, req.ports));
        if s.Synced() {
          s.OrphanKeeps(m, Mbr(kind, grp, req.rif, req.ports));
        }
        rc := Fail;
      }
    }

    static lemma AddedSound(s: Mc, gk: GroupKey, kind: MemberKind, m: Oid, req: MemberSpec)
      requires s.Sound() && gk in s.groups && m !in s.live && m != NULL_OID
      ensures s.MemberWritten(gk, kind, m, req).Sound()
    {
      s.MembersSound(s.MemberWritten(gk, kind, m, req));
    }

    method DelMemberFrom(npu: nat, id: Oid, kind: MemberKind, rif: Oid, m: Oid) returns (rc: Rc)
      requires Sound() && State().Rec(GroupKey(npu, id), kind, rif, m)
      modifies sai, this`orphans, cache.Repr
      ensures Sound() && (old(Valid()) ==> Valid()) && State().SameSubs(old(State()))
      ensures sai.failures >= old(sai.failures)
      ensures cache.view == old(cache.view) && cache.Repr == old(cache.Repr)
      ensures rc.Ok? ==> State() == old(State()).MemberRemoved(GroupKey(npu, id), kind, rif)
      ensures !rc.Ok? ==> rc == Fail && State() == old(State())
      ensures old(Valid()) ==> (rc.Ok? <==> sai.failures == old(sai.failures))
    {
      hide ReplGroupCache.Valid, Mc.Synced, Mc.Sound, Relation.Consistent;
      ghost var s, gk := State(), GroupKey(npu, id);
      if s.Synced() {
        s.RecordedIsLive(gk, kind, rif, m);
      }
      var ok := RemoveObject(m, Members(kind));
      if !ok {
        return Fail;
      }
      ok := cache.DelGroupMember(npu, id, kind, rif);
      if !ok {
        assert false;  // the member was found in the cache
      }
      s.WithoutSound({m});
      s.Without({m}).MembersSound(State());
      if s.Synced() {
        s.MemberRemovedKeeps(gk, kind, rif);
      }
      rc := Ok;
    }

    method UpdateMemberOf(npu: nat, id: Oid, kind: MemberKind, req: MemberSpec, m: Oid) returns (rc: Rc)
      requires Sound() && State().Rec(GroupKey(npu, id), kind, req.rif, m)
      modifies sai, cache.Repr
      ensures Sound() && (old(Valid()) ==> Valid()) && State().SameSubs(old(State()))
      ensures sai.failures >= old(sai.failures)
      ensures cache.view == old(cache.view) && cache.Repr == old(cache.Repr)
      ensures rc.Ok? ==> State().PortsWritten(old(State()), GroupKey(npu, id), kind, m, req)
      ensures !rc.Ok? ==> rc == Fail && State() == old(State())
      ensures old(Valid()) ==>
                && (rc.Ok? ==> State() == old(State()).MemberWritten(GroupKey(npu, id), kind, m, req))
                && (rc.Ok? <==> sai.failures == old(sai.failures))
    {
      hide ReplGroupCache.Valid, Mc.Synced, Mc.Sound, Relation.Consistent;
      ghost var s, gk := State(), GroupKey(npu, id);
      if s.Synced() {
        s.RecordedIsLive(gk, kind, req.rif, m);
      }
      var ok := SetPorts(m, kind, req.ports);
      if !ok {
        return Fail;
      }
      ok := cache.UpdateGroupMember(npu, id, kind, req.rif, req.ports);
      if !ok {
        assert false;  // the member was found in the cache
      }
      s.MembersSound(State());
      if s.Synced() {
        s.MemberWrittenKeeps(gk, kind, m, req);
      }
      rc := Ok;
    }

    /** A member that only the cache refuses stays in SAI: for a cached group,
        that is exactly an addition of a new RIF to a side that takes no more. */
    method UpdateReplGroup(npu: nat, id: Oid, op: GroupOp, kind: MemberKind, req: MemberSpec) returns (rc: Rc, ghost m: Oid)
      requires Sound()
      modifies this, sai, cache.Repr
      ensures Sound() && (old(Valid()) ==> Valid()) && State().SameSubs(old(State()))
      ensures sai.failures >= old(sai.failures)
      ensures cache.view == old(cache.view) && cache.Repr == old(cache.Repr)
      ensures var gk, s := GroupKey(npu, id), old(State());
              && (rc == Ok || rc == Fail)
              && (rc.Ok? ==> (op.AddMember? <==> !s.Has(gk, kind, req.rif)) && gk in s.groups)
              && (rc.Ok? && op.AddMember? ==> s.Writable(gk, kind, m, req) && State() == s.MemberWritten(gk, kind, m, req))
              && (rc.Ok? && op.DelMember? ==> State() == s.MemberRemoved(gk, kind, req.rif))
              && (rc.Ok? && op.UpdateMember? ==>
                    m == s.groups[gk].Mbrs(kind)[req.rif].id && State().PortsWritten(s, gk, kind, m, req))
              && (rc.Ok? && op.AddMember? ==> State().AsAsked(gk, kind, req))
              && (rc.Ok? && op.DelMember? ==>
                    !State().Has(gk, kind, req.rif) && s.groups[gk].Mbrs(kind)[req.rif].id !in State().live)
              && (rc.Ok? && op.UpdateMember? ==> State().PortsAsAsked(gk, kind, m, req))
              && (!rc.Ok? ==> State() == s || (op.AddMember? && !s.Accepts(gk, kind) && State().HasOrphan(s, m, kind, req)))
      ensures old(Valid()) && sai.failures == old(sai.failures) && GroupKey(npu, id) in old(State()).groups ==>
                var gk, s := GroupKey(npu, id), old(State());
                && (State().HasOrphan(s, m, kind, req) <==>
                      op.AddMember? && !s.Has(gk, kind, req.rif) && !s.Accepts(gk, kind))
                && (rc.Ok? <==>
                      if op.AddMember? then
                        !s.Has(gk, kind, req.rif) && s.Accepts(gk, kind) && s.groups[gk].Sub(kind) != NULL_OID
                      else s.Has(gk, kind, req.rif))
      ensures old(Valid()) && rc.Ok? && op.UpdateMember? ==>
                State() == old(State()).MemberWritten(GroupKey(npu, id), kind, m, req)
    {
      hide ReplGroupCache.Valid, Mc.Synced, Mc.Sound, Relation.Consistent, Mc.AsAsked, Mc.PortsAsAsked;
      ghost var s, gk := State(), GroupKey(npu, id);
      if s.Synced() && gk in s.groups {
        s.RpfGroupIsLive(gk);
      }
      m := NULL_OID;
      var found := cache.GetGroupRifMember(npu, id, kind, req.rif);
      match op {
        case AddMember =>
          if found.Some? {
            return Fail, m;
          }
          rc, m := AddMemberTo(npu, id, kind, req);
          if rc.Ok? {
            s.WrittenAsAsked(gk, kind, m, req);
          }
        case DelMember =>
          if found.None? {
            return Fail, m;
          }
          m := found.value;
          s.RemovedIsGone(gk, kind, req.rif);
          rc := DelMemberFrom(npu, id, kind, req.rif, found.value);
        case UpdateMember =>
          if found.None? {
            return Fail, m;
          }
          m := found.value;
          rc := UpdateMemberOf(npu, id, kind, req, found.value);
          if rc.Ok? {
            State().PortsAreAsAsked(s, gk, kind, m, req);
          }
      }
    }

    /** A group created and at once deleted again.  When SAI refuses nothing,
        the cache and the objects in SAI are as they were, whether or not two
        requests named the same RIF.  When the deletion comes through although
        the creation met refusals, they are so exactly when no member is
        stranded and no empty IPMC group is left behind. */
    method CreateThenDelete(npu: nat, owner: int, rpf: MemberSpec, ipmc: seq<MemberSpec>)
      returns (created: Rc, deleted: Rc, ghost middle: Mc, ghost gk: GroupKey)
      requires Valid()
      modifies this, sai, cache.Repr
      ensures sai.failures == old(sai.failures) ==>
                created.Ok? && deleted.Ok? && State() == old(State()) && middle.AllAsked(gk, ipmc)
      ensures !created.Ok? ==> deleted == Fail
      ensures created.Ok? && deleted.Ok? ==>
                && Valid() && cache.view == old(cache.view) && gk in middle.groups && gk.npu == npu
                && middle.AsAsked(gk, Rpf, rpf) && middle.OnlyAsked(gk, ipmc)
                && (State() == old(State()) <==> orphans == old(orphans) && !middle.LeaksIpmcGroup(gk))
    {
      hide ReplGroupCache.Valid, Mc.Synced, Mc.Sound, Relation.Consistent, Mc.GrownFrom;
      hide Mc.AsAsked, Mc.OnlyAsked, Mc.AllAsked;
      var id;
      ghost var leaked;
      created, id, leaked := CreateReplGroup(npu, Some(owner), rpf, ipmc);
      middle, gk, deleted := State(), GroupKey(npu, id), Fail;
      if created.Ok? {
        ghost var before := old(State());
        middle.RemovalUndoesGrowth(before, gk);
        assert middle.GroupRemoved(gk).orphans == middle.orphans by {
          middle.OrphansStay(gk);
        }
        assert !cache.view.Used(gk) by {
          old(cache.view).WithGroupKeeps(gk);
        }
        assert |middle.groups[gk].rpfMbrs.Keys| == |{rpf.rif}|;
        assert ipmc != [] ==> ipmc[0].rif in Rifs(ipmc);
        ghost var gone;
        deleted, gone := DeleteReplGroup(npu, id);
      }
    }
  }

  /** The shortest run that strands a member although SAI refuses nothing: a
      group has its RPF member, and the caller adds another. */
  method SecondRpfMemberStrands(npu: nat, rif: Oid, other: Oid) returns (api: ReplGroupApi, rc: Rc, ghost m: Oid)
    requires rif != other
    ensures fresh(api) && api.Valid()
    ensures api.sai.failures == 0 ==>
              rc == Fail && api.orphans == {m} && m in api.sai.live && api.sai.live[m].Mbr? && api.sai.live[m].rif == other
  {
    hide ReplGroupCache.Valid, Mc.Synced, Mc.Sound, Relation.Consistent, Mc.Extends;
    hide Mc.AsAsked, Mc.OnlyAsked, Mc.AllAsked, Mc.PortsAsAsked;
    api := new ReplGroupApi();
    var id;
    ghost var leaked;
    rc, id, leaked := api.CreateReplGroup(npu, Some(0), MemberSpec(rif, []), []);
    m := NULL_OID;
    if rc.Ok? {
      assert api.sai.failures == 0 ==> api.orphans == {};
      rc, m := api.UpdateReplGroup(npu, id, AddMember, Rpf, MemberSpec(other, []));
    }
  }
}
