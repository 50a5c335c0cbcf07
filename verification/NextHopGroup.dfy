/** Next-hop groups of src/nas_ndi_route.c: SAI holds group and member objects,
    the keyed multimap records under each group its (next hop, member) pairs. */
module NextHopGroup {
  import opened Types
  import opened NdiMap
  import opened NhMatch
  import opened Runs

  datatype NhObj = Group | Member(grp: Oid, nh: Oid)

  /** Nothing that was live is gone or has changed. */
  ghost predicate Outlives(before: map<Oid, NhObj>, after: map<Oid, NhObj>) {
    forall m | m in before :: m in after && after[m] == before[m]
  }

  /** SAI has gained these members of the group, and nothing else. */
  ghost predicate MembersMade(before: map<Oid, NhObj>, after: map<Oid, NhObj>, grp: Oid, members: set<Oid>) {
    && Outlives(before, after) && members !! before.Keys && after.Keys == before.Keys + members
    && forall m | m in members :: after[m].Member? && after[m].grp == grp
  }

  /** SAI has gained the group `grp` and members with these ids, and nothing
      else. */
  ghost predicate GroupMade(before: map<Oid, NhObj>, after: map<Oid, NhObj>, grp: Oid, members: set<Oid>) {
    && grp !in before && grp !in members && members !! before.Keys && Outlives(before, after)
    && after.Keys == before.Keys + {grp} + members && after[grp] == Group
    && forall m | m in members :: after[m].Member? && after[m].grp == grp
  }

  /** What a group that could not be filled leaves in SAI: the members `stuck`,
      and the group itself if it is `kept`. */
  ghost predicate GroupUnmade(before: map<Oid, NhObj>, after: map<Oid, NhObj>, grp: Oid, stuck: set<Oid>, kept: bool) {
    && grp !in before && grp !in stuck && stuck !! before.Keys && Outlives(before, after)
    && after.Keys == before.Keys + stuck + (if kept then {grp} else {}) && (kept ==> after[grp] == Group)
    && forall m | m in stuck :: after[m].Member? && after[m].grp == grp
  }

  lemma NothingUnmade(live: map<Oid, NhObj>, grp: Oid)
    requires grp !in live
    ensures GroupUnmade(live, live, grp, {}, false)
  {
  }

  lemma GroupAlone(live: map<Oid, NhObj>, grp: Oid)
    requires grp !in live
    ensures GroupMade(live, live[grp := Group], grp, {})
  {
  }

  lemma GroupFilled(live: map<Oid, NhObj>, grp: Oid, after: map<Oid, NhObj>, members: set<Oid>)
    requires grp !in live && MembersMade(live[grp := Group], after, grp, members)
    ensures GroupMade(live, after, grp, members) && GroupUnmade(live, after, grp, members, true)
  {
    var mid := live[grp := Group];
    assert mid.Keys == live.Keys + {grp};
    forall m | m in live ensures m in after && after[m] == live[m] {
      assert m in mid && mid[m] == live[m];
    }
  }

  lemma GroupGoes(live: map<Oid, NhObj>, after: map<Oid, NhObj>, grp: Oid, stuck: set<Oid>)
    requires GroupUnmade(live, after, grp, stuck, true)
    ensures GroupUnmade(live, after - {grp}, grp, stuck, false) && grp in after && after[grp] == Group
  {
  }

  lemma MadeApart(live: map<Oid, NhObj>, after: map<Oid, NhObj>, grp: Oid, stuck: set<Oid>, made: bool)
    requires if made then stuck == {} else MembersMade(live, after, grp, stuck)
    ensures stuck !! live.Keys
  {
  }

  lemma StuckApart(live: map<Oid, NhObj>, after: map<Oid, NhObj>, grp: Oid, stuck: set<Oid>, kept: bool)
    requires GroupUnmade(live, after, grp, stuck, kept)
    ensures stuck !! live.Keys
  {
  }

  /** Nothing new is live exactly when no member is stuck and the group is gone. */
  lemma NothingNew(live: map<Oid, NhObj>, after: map<Oid, NhObj>, grp: Oid, stuck: set<Oid>, kept: bool)
    requires GroupUnmade(live, after, grp, stuck, kept)
    ensures after == live <==> |stuck| == 0 && !kept
    ensures grp in after <==> kept
  {
    assert after == live ==> stuck == {} by {
      assert forall m | m in stuck :: m in after.Keys;
    }
  }

  function GrpKey(grp: Oid): Key {
    Key(NhGrpMember, grp, 0)
  }

  function MemberIds(s: seq<Data>): set<Oid> {
    set d | d in s :: d.val2
  }

  function ByMember(m: Oid): Filter {
    Filter(Data(NULL_OID, m), FILTER_VAL2)
  }

  /** `orphans` are members whose rollback SAI refused; `broken` are groups that
      have lost members in SAI which the map goes on recording. */
  datatype Nh = Nh(entries: map<Key, seq<Data>>, live: map<Oid, NhObj>, orphans: set<Oid>, broken: set<Oid>) {

    function Pairs(grp: Oid): seq<Data> {
      if GrpKey(grp) in entries then entries[GrpKey(grp)] else []
    }

    /** The next hops of the group, counted with repeats. */
    function HopCounts(grp: Oid): multiset<Oid> {
      multiset(AskedAll(Pairs(grp), Val1))
    }

    ghost predicate RecordedAreLive() {
      forall grp, d | d in Pairs(grp) && grp !in broken ::
        d.val2 in live && live[d.val2] == Member(grp, d.val1) && d.val2 !in orphans
    }

    ghost predicate LiveAreRecorded() {
      forall m | m in live && live[m].Member? && m !in orphans && live[m].grp !in broken ::
        Data(live[m].nh, m) in Pairs(live[m].grp)
    }

    /** Pairs are only recorded for groups that exist. */
    ghost predicate KeysAreGroups() {
      forall grp | GrpKey(grp) in entries :: grp in live && live[grp] == Group
    }

    /** The pairs live in SAI for a group that is not broken are the pairs
        recorded under its key, orphans apart. */
    ghost predicate Agree() {
      && NULL_OID !in live && KeysAreGroups() && (forall m | m in orphans :: m in live && live[m].Member?)
      && RecordedAreLive() && LiveAreRecorded()
      && forall grp | grp !in broken :: DistinctVal2(Pairs(grp))
    }

    /** `after` has gained the members `data` of `grp`, under new ids, and nothing
        else; `stuck` are further members of the group. */
    ghost predicate Grew(after: map<Oid, NhObj>, grp: Oid, data: seq<Data>, stuck: set<Oid>) {
      && after.Keys == live.Keys + MemberIds(data) + stuck
      && live.Keys !! MemberIds(data) + stuck && NULL_OID !in MemberIds(data) + stuck
      && DistinctVal2(data) && stuck !! MemberIds(data)
      && (forall m | m in live :: after[m] == live[m])
      && (forall d | d in data :: after[d.val2] == Member(grp, d.val1))
      && (forall m | m in stuck :: after[m].Member? && after[m].grp == grp)
    }

    lemma GrewNothing(grp: Oid)
      ensures Grew(live, grp, [], {})
    {
    }

    /** A group that was there gains its members, or those that stay behind. */
    lemma GrewMembers(after: map<Oid, NhObj>, grp: Oid, data: seq<Data>, stuck: set<Oid>)
      requires Grew(after, grp, data, stuck)
      ensures stuck == {} ==> MembersMade(live, after, grp, MemberIds(data))
      ensures data == [] ==> MembersMade(live, after, grp, stuck)
    {
      assert data == [] ==> MemberIds(data) == {};
    }

    /** A new group gains its members, or those that stay behind. */
    lemma GrewGroup(before: map<Oid, NhObj>, after: map<Oid, NhObj>, grp: Oid, data: seq<Data>, stuck: set<Oid>)
      requires Grew(after, grp, data, stuck) && grp !in before && live == before[grp := Group]
      ensures stuck == {} ==> GroupMade(before, after, grp, MemberIds(data))
      ensures data == [] ==> GroupUnmade(before, after, grp, stuck, true)
    {
      GrewMembers(after, grp, data, stuck);
      hide Grew, MemberIds;
      if stuck == {} {
        GroupFilled(before, grp, after, MemberIds(data));
      }
      if data == [] {
        GroupFilled(before, grp, after, stuck);
      }
    }

    lemma GrewKeepsGroup(after: map<Oid, NhObj>, grp: Oid, data: seq<Data>)
      requires Grew(after, grp, data, {})
      ensures grp in after && after[grp] == Group <==> grp in live && live[grp] == Group
    {
    }

    lemma GrewOne(mid: map<Oid, NhObj>, after: map<Oid, NhObj>, grp: Oid, data: seq<Data>, d: Data)
      requires Grew(mid, grp, data, {})
      requires d.val2 !in mid && d.val2 != NULL_OID && after == mid[d.val2 := Member(grp, d.val1)]
      ensures Grew(after, grp, data + [d], {})
    {
    }

    /** The last member made can be removed, or it becomes one of the stuck. */
    lemma GrewLast(after: map<Oid, NhObj>, grp: Oid, data: seq<Data>, d: Data, stuck: set<Oid>)
      requires Grew(after, grp, data + [d], stuck)
      ensures d.val2 in after && d.val2 !in stuck
      ensures Grew(after - {d.val2}, grp, data, stuck) && Grew(after, grp, data, stuck + {d.val2})
    {
      var all := data + [d];
      assert MemberIds(all) == MemberIds(data) + {d.val2} by {
        assert all[|data|] == d && forall e :: e in all <==> e in data || e == d;
      }
      forall e | e in data ensures e.val2 != d.val2 {
        var i :| 0 <= i < |data| && data[i] == e;
        assert all[i] == e && all[|data|] == d;
      }
      forall i, j | 0 <= i < j < |data| ensures data[i].val2 != data[j].val2 {
        assert all[i] == data[i] && all[j] == data[j];
      }
    }

    function Added(after: map<Oid, NhObj>, grp: Oid, data: seq<Data>): Nh {
      this.(entries := entries[GrpKey(grp) := Pairs(grp) + data], live := after)
    }

    lemma AddedPairs(after: map<Oid, NhObj>, grp: Oid, data: seq<Data>, g: Oid)
      requires Agree() && Grew(after, grp, data, {}) && g !in broken
      ensures forall d :: d in Added(after, grp, data).Pairs(g) <==> d in Pairs(g) || (g == grp && d in data)
      ensures DistinctVal2(Added(after, grp, data).Pairs(g))
    {
    }

    lemma AddedHops(after: map<Oid, NhObj>, grp: Oid, data: seq<Data>)
      ensures var r := Added(after, grp, data);
              && AskedAll(r.Pairs(grp), Val1) == AskedAll(Pairs(grp), Val1) + AskedAll(data, Val1)
              && r.entries == entries[GrpKey(grp) := r.Pairs(grp)] && r.live == after
              && |r.Pairs(grp)| >= |Pairs(grp)| && r.Pairs(grp)[|Pairs(grp)|..] == data
              && (Pairs(grp) == [] ==> r.Pairs(grp) == data)
              && r.orphans == orphans && r.broken == broken
    {
      hide AskedAll;
      var all := AskedAll(Pairs(grp) + data, Val1);
      assert all == AskedAll(Pairs(grp), Val1) + AskedAll(data, Val1);
    }

    lemma AddedKeeps(after: map<Oid, NhObj>, grp: Oid, data: seq<Data>)
      requires Agree() && Grew(after, grp, data, {}) && grp in live && live[grp] == Group
      ensures Added(after, grp, data).Agree()
    {
      hide DistinctVal2;
      var r := Added(after, grp, data);
      assert r.live == after && r.orphans == orphans && r.broken == broken && r.KeysAreGroups();
      forall g | g !in broken {
        AddedPairs(after, grp, data, g);
      }
      hide Added, Pairs;
      assert r.RecordedAreLive() by {
        assert forall d | d in data :: d.val2 in MemberIds(data);
      }
      AddedAreRecorded(after, grp, data, r);
    }

    lemma AddedAreRecorded(after: map<Oid, NhObj>, grp: Oid, data: seq<Data>, r: Nh)
      requires Agree() && Grew(after, grp, data, {}) && r.live == after && r.orphans == orphans && r.broken == broken
      requires forall g, d | g !in broken :: d in r.Pairs(g) <==> d in Pairs(g) || (g == grp && d in data)
      ensures r.LiveAreRecorded()
    {
      hide Pairs, DistinctVal2;
      forall m | m in after && after[m].Member? && m !in orphans && after[m].grp !in broken
        ensures Data(after[m].nh, m) in r.Pairs(after[m].grp)
      {
        if m !in live {
          var d :| d in data && d.val2 == m;
        }
      }
    }

    lemma NoPairs(grp: Oid)
      ensures GrpKey(grp) !in entries ==> Pairs(grp) == []
    {
    }

    lemma StuckAreNew(stuck: set<Oid>)
      requires orphans <= live.Keys && stuck !! live.Keys
      ensures (orphans + stuck) - orphans == stuck && orphans <= orphans + stuck
    {
    }

    lemma OrphansAreLive()
      requires Agree()
      ensures orphans <= live.Keys
    {
    }

    lemma OrphansKeep(after: map<Oid, NhObj>, grp: Oid, stuck: set<Oid>)
      requires Agree() && Grew(after, grp, [], stuck)
      ensures this.(live := after, orphans := orphans + stuck).Agree()
    {
      var r := this.(live := after, orphans := orphans + stuck);
      assert forall g :: r.Pairs(g) == Pairs(g);
      assert after.Keys == live.Keys + stuck;
    }

    /** A member leaves SAI and the list of its group. */
    function Dropped(grp: Oid, m: Oid): Nh {
      Nh(if GrpKey(grp) in entries then entries[GrpKey(grp) := Reject(entries[GrpKey(grp)], ByMember(m))] else entries,
         live - {m}, orphans, broken)
    }

    /** What is recorded afterwards is what was, without that member. */
    lemma DroppedPairs(grp: Oid, d: Data, g: Oid)
      requires Agree() && d in Pairs(grp) && grp !in broken && g !in broken
      ensures forall e :: e in Dropped(grp, d.val2).Pairs(g) <==> e in Pairs(g) && e.val2 != d.val2
      ensures DistinctVal2(Dropped(grp, d.val2).Pairs(g))
    {
      hide Matches, ByMember;
      assert live[d.val2] == Member(grp, d.val1);
      assert DistinctVal2(Pairs(g));
      if g == grp {
        RejectDistinct(Pairs(grp), ByMember(d.val2));
        RejectMembers(Pairs(grp), ByMember(d.val2));
        forall e ensures Matches(ByMember(d.val2), e) <==> e.val2 == d.val2 {
          ByMemberMatches(d.val2, e);
        }
      } else {
        assert Dropped(grp, d.val2).Pairs(g) == Pairs(g);
        forall e | e in Pairs(g) ensures e.val2 != d.val2 {
          assert live[e.val2] == Member(g, e.val1);
        }
      }
    }

    lemma DroppedKeeps(grp: Oid, d: Data)
      requires Agree() && d in Pairs(grp) && grp !in broken
      ensures Dropped(grp, d.val2).Agree()
      ensures Dropped(grp, d.val2).HopCounts(grp) == HopCounts(grp) - multiset{d.val1}
    {
      hide Matches, ByMember, Reject, AskedAll, DistinctVal2;
      var r := Dropped(grp, d.val2);
      assert DistinctVal2(Pairs(grp));
      RejectOneAsked(Pairs(grp), d);
      assert r.live == live - {d.val2} && r.orphans == orphans && r.broken == broken;
      assert live[d.val2] == Member(grp, d.val1) && d.val2 !in orphans;
      forall g | g !in broken {
        DroppedPairs(grp, d, g);
      }
      hide Dropped, Pairs;
    }

    /** The group's list goes, after its members have left SAI. */
    function MembersGone(grp: Oid): Nh {
      this.(entries := entries - {GrpKey(grp)}, live := live - MemberIds(Pairs(grp)))
    }

    lemma MembersGoneKeeps(grp: Oid)
      requires Agree() && grp !in broken
      ensures MembersGone(grp).Agree()
    {
      var r := MembersGone(grp);
      forall g, d | d in r.Pairs(g) && g !in broken ensures d in Pairs(g) && d.val2 !in MemberIds(Pairs(grp)) {
        assert g != grp && r.Pairs(g) == Pairs(g) && d in Pairs(g);
        assert live[d.val2] == Member(g, d.val1);
        forall e | e in Pairs(grp) ensures e.val2 != d.val2 {
          assert live[e.val2] == Member(grp, e.val1);
        }
      }
      forall g | g !in broken ensures DistinctVal2(r.Pairs(g)) {
        assert DistinctVal2(Pairs(g));
      }
      forall m | m in r.live && r.live[m].Member? && m !in orphans && r.live[m].grp !in broken
        ensures Data(r.live[m].nh, m) in r.Pairs(r.live[m].grp)
      {
        assert Data(live[m].nh, m) in Pairs(live[m].grp);
      }
      forall e | e in Pairs(grp) ensures e.val2 !in orphans {
      }
    }

    /** Losing members while their list stays breaks the agreement on their
        group, and on that alone. */
    lemma LossBreaks(grp: Oid, gone: set<Oid>)
      requires Agree() && gone <= MemberIds(Pairs(grp)) && grp !in broken
      ensures this.(live := live - gone).Agree() <==> gone == {}
      ensures this.(live := live - gone, broken := broken + {grp}).Agree()
    {
      var r := this.(live := live - gone);
      LossContained(grp, gone);
      if gone == {} {
        assert r == this;
      } else {
        var m :| m in gone;
        var d :| d in Pairs(grp) && d.val2 == m;
        assert d in r.Pairs(grp) && d.val2 !in r.live;
      }
    }

    lemma LossContained(grp: Oid, gone: set<Oid>)
      requires Agree() && gone <= MemberIds(Pairs(grp)) && grp !in broken
      ensures this.(live := live - gone, broken := broken + {grp}).Agree()
    {
      var r := this.(live := live - gone, broken := broken + {grp});
      assert forall g :: r.Pairs(g) == Pairs(g);
      forall m | m in gone ensures m in live && live[m].Member? && live[m].grp == grp && m !in orphans {
        var d :| d in Pairs(grp) && d.val2 == m;
      }
    }

    /** A member gone from SAI takes its group along. */
    function Lost(m: Oid): Nh
      requires m in live && live[m].Member?
    {
      this.(live := live - {m}, orphans := orphans - {m}, broken := broken + {live[m].grp})
    }

    lemma LostKeeps(m: Oid)
      requires Agree() && m in live && live[m].Member?
      ensures Lost(m).Agree()
    {
      assert forall g :: Lost(m).Pairs(g) == Pairs(g);
    }

    /** The list of a broken group may change, or go. */
    lemma ListOfBroken(grp: Oid, list: map<Key, seq<Data>>)
      requires Agree() && grp in broken && OnlyList(entries, list, grp)
      ensures this.(entries := list).Agree()
    {
      var r := this.(entries := list);
      assert forall g | g != grp :: r.Pairs(g) == Pairs(g);
    }

    /** `later` has lost the pairs `dropped` of the group, in SAI and in the list,
        and nothing else. */
    ghost predicate LostFrom(later: Nh, grp: Oid, dropped: seq<Data>) {
      && later.entries.Keys == entries.Keys
      && (forall k | k in entries && k != GrpKey(grp) :: later.entries[k] == entries[k])
      && later.live == live - MemberIds(dropped)
      && (forall d | d in dropped :: d in Pairs(grp))
      && later.HopCounts(grp) + multiset(AskedAll(dropped, Val1)) == HopCounts(grp)
    }

    lemma LostNothing(grp: Oid)
      ensures LostFrom(this, grp, [])
    {
    }

    lemma DroppedShape(grp: Oid, m: Oid, later: Nh)
      requires later.live == live - {m} && later.orphans == orphans && later.broken == broken
      requires GrpKey(grp) in entries ==> later.entries == entries[GrpKey(grp) := Reject(entries[GrpKey(grp)], ByMember(m))]
      requires GrpKey(grp) !in entries ==> later.entries == entries
      ensures later == Dropped(grp, m)
    {
    }

    lemma LostCounts(now: Nh, grp: Oid, dropped: seq<Data>, d: Data, r: Nh)
      requires d in now.Pairs(grp)
      requires now.HopCounts(grp) + multiset(AskedAll(dropped, Val1)) == HopCounts(grp)
      requires r.HopCounts(grp) == now.HopCounts(grp) - multiset{d.val1}
      ensures r.HopCounts(grp) + multiset(AskedAll(dropped + [d], Val1)) == HopCounts(grp)
    {
      hide AskedAll, Pairs;
      assert AskedAll(dropped + [d], Val1) == AskedAll(dropped, Val1) + [d.val1];
      InAsked(now.Pairs(grp), d);
      Moved(now.HopCounts(grp), multiset(AskedAll(dropped, Val1)), d.val1);
    }

    /** Losing one live member more: its pair is recorded, and its list loses just
        that pair. */
    lemma LostOne(now: Nh, grp: Oid, dropped: seq<Data>, m: Oid) returns (d: Data)
      requires Agree() && now.Agree() && now.orphans == orphans && now.broken == broken && grp !in broken
      requires LostFrom(now, grp, dropped)
      requires m in now.live && (m in MemberIds(Pairs(grp)) || m !in live)
      ensures d.val2 == m && now.Dropped(grp, m).Agree()
      ensures LostFrom(now.Dropped(grp, m), grp, dropped + [d])
    {
      hide Agree, AskedAll, Reject, ByMember, Dropped;
      assert m in live && now.live[m] == live[m];
      d := PairWith(Pairs(grp), m);
      hide MemberIds;
      StillRecorded(now, grp, d);
      now.DroppedKeeps(grp, d);
      LostCounts(now, grp, dropped, d, now.Dropped(grp, m));
      LostShape(now, grp, dropped, d);
    }

    lemma LostShape(now: Nh, grp: Oid, dropped: seq<Data>, d: Data)
      requires LostFrom(now, grp, dropped) && d in Pairs(grp) && d in now.Pairs(grp)
      requires var r := now.Dropped(grp, d.val2);
               r.HopCounts(grp) + multiset(AskedAll(dropped + [d], Val1)) == HopCounts(grp)
      ensures LostFrom(now.Dropped(grp, d.val2), grp, dropped + [d])
    {
      hide AskedAll, Reject, ByMember;
      var r := now.Dropped(grp, d.val2);
      MemberIdsSnoc(dropped, d);
      assert r.live == live - MemberIds(dropped + [d]);
      hide MemberIds;
      assert r.entries.Keys == now.entries.Keys;
      assert forall e | e in dropped + [d] :: e in dropped || e == d;
    }

    lemma HandedOutAreRecorded(grp: Oid, req: seq<Data>)
      requires Agree() && forall i | 0 <= i < |req| :: req[i].val2 == NULL_OID
      ensures forall d | d in Greedy(req, Pairs(grp), Val1) :: d.val2 in MemberIds(Pairs(grp)) || d.val2 !in live
    {
      HandedOut(req, Pairs(grp));
      hide Greedy, Pairs;
      forall d | d in Greedy(req, Pairs(grp), Val1) ensures d.val2 in MemberIds(Pairs(grp)) || d.val2 !in live {
        var i :| 0 <= i < |req| && Greedy(req, Pairs(grp), Val1)[i] == d;
      }
    }

    /** Of the members removed for a request without the marker, each is the one
        matched; all can be removed exactly when the request is contained in what
        is recorded. */
    lemma MatchDecides(later: Nh, grp: Oid, nhs: seq<Oid>, req: seq<Data>, dropped: seq<Data>)
      requires Agree() && LostFrom(later, grp, dropped) && ALL_ONES !in nhs && grp !in broken
      requires |req| == |nhs| && forall i | 0 <= i < |nhs| :: req[i] == Data(nhs[i], NULL_OID)
      requires |dropped| <= |nhs| == |Greedy(req, Pairs(grp), Val1)|
      requires forall k | 0 <= k < |dropped| :: dropped[k].val2 == Greedy(req, Pairs(grp), Val1)[k].val2
      ensures |dropped| == |nhs| ==> AskedAll(dropped, Val1) == nhs && Contained(nhs, AskedAll(Pairs(grp), Val1))
      ensures |dropped| < |nhs| && Contained(nhs, AskedAll(Pairs(grp), Val1)) ==>
                Greedy(req, Pairs(grp), Val1)[|dropped|].val2 in later.live
    {
      hide DistinctVal2, AnswersFrom, Contained, AskedAll, Greedy, Found, Pairs, MemberIds;
      var t, out, at := Pairs(grp), Greedy(req, Pairs(grp), Val1), Found(req, Pairs(grp), Val1);
      assert AskedAll(req, Val1) == nhs && NoMarker(req, Val1);
      GreedyAnswers(req, t, Val1);
      AllFound(req, t, Val1);
      PairsDistinct(grp);
      assert forall d | d in t :: d.val2 in live;
      assert later.live == live - MemberIds(dropped) && forall d | d in dropped :: d in t;
      hide Agree, LostFrom, NoMarker;
      forall k | 0 <= k < |dropped| ensures at[k] < |t| && dropped[k] == out[k] == t[at[k]] && dropped[k].val1 == nhs[k] {
        OneAnswer(req, t, out, at, k, dropped[k]);
      }
      if |dropped| == |nhs| {
        assert AskedAll(dropped, Val1) == nhs;
      } else if AllWithin(at, |t|) {
        var n := |dropped|;
        StillThere(req, t, out, at, dropped);
        assert t[at[n]] in t && out[n] == t[at[n]];
      }
    }

    lemma NoNullGroup()
      requires Agree()
      ensures GrpKey(NULL_OID) !in entries && NULL_OID !in live
    {
    }

    lemma FreshGroup(grp: Oid)
      requires Agree() && grp !in live && grp != NULL_OID
      ensures GrpKey(grp) !in entries && this.(live := live[grp := Group]).Agree()
    {
      GroupsKeep(live[grp := Group]);
    }

    lemma NothingOf(grp: Oid)
      ensures {} <= MemberIds(Pairs(grp)) && MemberIds([]) == {} && live - {} == live
    {
    }

    /** The i-th recorded member is live, and none of those before it is it. */
    lemma NextMember(grp: Oid, i: nat)
      requires Agree() && i < |Pairs(grp)| && grp !in broken
      ensures Pairs(grp)[i].val2 in live && live[Pairs(grp)[i].val2].Member?
      ensures Pairs(grp)[i].val2 !in MemberIds(Pairs(grp)[..i])
      ensures MemberIds(Pairs(grp)[..i]) <= MemberIds(Pairs(grp))
    {
    }

    /** A group object without a list can go, or stay. */
    lemma WithoutGroup(grp: Oid, after: map<Oid, NhObj>)
      requires Agree() && GrpKey(grp) !in entries
      requires after == live || (grp in live && live[grp] == Group && after == live - {grp})
      ensures this.(live := after).Agree()
    {
      GroupsKeep(after);
    }

    lemma ListedGroup(grp: Oid)
      requires Agree()
      ensures GrpKey(grp) in entries ==> grp in live && live[grp] == Group
    {
    }

    /** A member handed out for removal is a member. */
    lemma LeftIsMember(now: Nh, grp: Oid, dropped: seq<Data>, m: Oid)
      requires Agree() && LostFrom(now, grp, dropped) && grp !in broken
      requires m in now.live && (m in MemberIds(Pairs(grp)) || m !in live)
      ensures now.live[m].Member?
    {
    }

    lemma LostIs(m: Oid)
      requires m in live && live[m].Member?
      ensures Lost(m).entries == entries && Lost(m).live == live - {m} && broken <= Lost(m).broken
    {
    }

    lemma LostHops(later: Nh, grp: Oid, dropped: seq<Data>)
      requires LostFrom(later, grp, dropped)
      ensures later.live.Keys <= live.Keys
      ensures later.HopCounts(grp) + multiset(AskedAll(dropped, Val1)) == HopCounts(grp)
    {
    }

    lemma GoneShape(grp: Oid)
      ensures MembersGone(grp).orphans == orphans
    {
    }

    /** Lost members show in SAI. */
    lemma LossShows(grp: Oid, gone: set<Oid>)
      requires Agree() && grp !in broken
      ensures gone <= MemberIds(Pairs(grp)) ==> (live - gone == live <==> gone == {})
      ensures GrpKey(grp) in entries ==> entries - {GrpKey(grp)} != entries
    {
      if gone <= MemberIds(Pairs(grp)) && gone != {} {
        var m :| m in gone;
        var d :| d in Pairs(grp) && d.val2 == m;
        assert m in live && m !in live - gone;
      }
      if gone == {} {
        assert live - gone == live;
      }
    }

    lemma PairsDistinct(grp: Oid)
      requires Agree() && grp !in broken
      ensures DistinctVal2(Pairs(grp))
    {
    }

    /** A recorded pair whose member is still live is still recorded. */
    lemma StillRecorded(later: Nh, grp: Oid, d: Data)
      requires Agree() && later.Agree() && later.orphans == orphans && grp !in broken + later.broken
      requires d in Pairs(grp) && d.val2 in later.live && later.live[d.val2] == live[d.val2]
      ensures d in later.Pairs(grp)
    {
    }

    /** Group objects come and go without touching the agreement. */
    lemma GroupsKeep(after: map<Oid, NhObj>)
      requires Agree() && NULL_OID !in after
      requires forall grp | GrpKey(grp) in entries :: grp in after && after[grp] == Group
      requires forall m :: m in live && live[m].Member? <==> m in after && after[m].Member?
      requires forall m | m in live && live[m].Member? :: after[m] == live[m]
      ensures this.(live := after).Agree()
    {
      var r := this.(live := after);
      assert forall g :: r.Pairs(g) == Pairs(g);
      forall g, d | d in r.Pairs(g) && g !in broken
        ensures d.val2 in after && after[d.val2] == Member(g, d.val1) && d.val2 !in orphans
      {
        assert d in Pairs(g) && live[d.val2].Member?;
      }
    }
  }

  /** Only the list of the group may have changed, or gone. */
  ghost predicate OnlyList(before: map<Key, seq<Data>>, after: map<Key, seq<Data>>, grp: Oid) {
    && (forall k | k in after :: k in before)
    && (forall k | k in before && k != GrpKey(grp) :: k in after && after[k] == before[k])
  }

  lemma NoListChanged(m: map<Key, seq<Data>>, grp: Oid)
    ensures OnlyList(m, m, grp)
  {
  }

  lemma RejectedList(first: map<Key, seq<Data>>, m: map<Key, seq<Data>>, m': map<Key, seq<Data>>, grp: Oid, f: Filter)
    requires OnlyList(first, m, grp)
    requires m' == if GrpKey(grp) in m then m[GrpKey(grp) := Reject(m[GrpKey(grp)], f)] else m
    ensures OnlyList(first, m', grp) && OnlyList(m, m', grp)
  {
    hide Reject;
  }

  lemma {:induction false} RejectDistinct(s: seq<Data>, f: Filter)
    requires DistinctVal2(s)
    ensures DistinctVal2(Reject(s, f))
  {
    if s != [] {
      RejectDistinct(s[1..], f);
      RejectMembers(s[1..], f);
      var r := Reject(s[1..], f);
      forall i | 0 <= i < |r| ensures r[i].val2 != s[0].val2 {
        assert r[i] in s[1..];
      }
    }
  }

  lemma ByMemberMatches(m: Oid, d: Data)
    ensures Matches(ByMember(m), d) <==> d.val2 == m
  {
  }

  /** Erasing by member id takes exactly the one pair with that id. */
  lemma RejectAt(s: seq<Data>, p: nat)
    requires DistinctVal2(s) && p < |s|
    ensures Reject(s, ByMember(s[p].val2)) == s[..p] + s[p + 1..]
  {
    hide Matches, ByMember;
    var f, a, b := ByMember(s[p].val2), s[..p], s[p + 1..];
    forall i | 0 <= i < |s| ensures Matches(f, s[i]) <==> i == p {
      ByMemberMatches(s[p].val2, s[i]);
    }
    hide DistinctVal2;
    assert s == a + ([s[p]] + b);
    RejectNothing(a, f);
    RejectNothing(b, f);
    SplitReject(a, s[p], b, f);
  }

  lemma SplitReject(a: seq<Data>, d: Data, b: seq<Data>, f: Filter)
    requires Matches(f, d) && Reject(a, f) == a && Reject(b, f) == b
    ensures Reject(a + ([d] + b), f) == a + b
  {
    RejectConcat(a, [d] + b, f);
    assert ([d] + b)[1..] == b;
  }

  lemma RejectOneAsked(s: seq<Data>, d: Data)
    requires DistinctVal2(s) && d in s
    ensures multiset(AskedAll(Reject(s, ByMember(d.val2)), Val1)) == multiset(AskedAll(s, Val1)) - multiset{d.val1}
  {
    hide Matches, ByMember, AskedAll, Reject;
    var p :| 0 <= p < |s| && s[p] == d;
    RejectAt(s, p);
    hide DistinctVal2;
    var a, b := s[..p], s[p + 1..];
    assert AskedAll(a + b, Val1) == AskedAll(a, Val1) + AskedAll(b, Val1);
    assert AskedAll(s, Val1) == AskedAll(a, Val1) + [d.val1] + AskedAll(b, Val1);
    WithoutOne(AskedAll(a, Val1), d.val1, AskedAll(b, Val1));
  }

  lemma WithoutOne(a: seq<Oid>, x: Oid, b: seq<Oid>)
    ensures multiset(a + b) == multiset(a + [x] + b) - multiset{x}
  {
  }

  /** A lookup of distinct recorded members finds the pair of each. */
  lemma LookupAll(list: seq<Oid>, t: seq<Data>, req: seq<Data>, out: seq<Data>)
    requires DistinctVal2(t) && NoMarker(t, Val2) && out == Greedy(req, t, Val2)
    requires |req| == |list| && forall i | 0 <= i < |list| :: req[i] == Data(0, list[i])
    requires forall i, j | 0 <= i < j < |list| :: list[i] != list[j]
    requires forall m | m in list :: m in MemberIds(t)
    ensures |out| == |list| && forall i | 0 <= i < |list| :: Data(out[i].val1, list[i]) in t
  {
    var pairs := PairsOf(list, t);
    assert MemberQuery(pairs) == req;
    LookupByMember(pairs, t);
    forall i | 0 <= i < |list| ensures Data(out[i].val1, list[i]) in t {
      assert pairs[i] == Data(out[i].val1, list[i]);
    }
  }

  ghost function PairsOf(list: seq<Oid>, t: seq<Data>): (p: seq<Data>)
    requires forall m | m in list :: m in MemberIds(t)
    ensures |p| == |list| && forall i | 0 <= i < |list| :: p[i] in t && p[i].val2 == list[i]
  {
    if list == [] then []
    else
      assert list[0] in MemberIds(t);
      var d :| d in t && d.val2 == list[0];
      [d] + PairsOf(list[1..], t)
  }

  lemma Moved(m: multiset<Oid>, n: multiset<Oid>, x: Oid)
    requires x in m
    ensures (m - multiset{x}) + (n + multiset{x}) == m + n
  {
  }

  lemma MemberIdsSnoc(s: seq<Data>, d: Data)
    ensures MemberIds(s + [d]) == MemberIds(s) + {d.val2}
  {
  }

  lemma PairWith(s: seq<Data>, m: Oid) returns (d: Data)
    requires m in MemberIds(s)
    ensures d in s && d.val2 == m
  {
    d :| d in s && d.val2 == m;
  }

  /** A recorded pair with the member id of an answer is that answer. */
  lemma OneAnswer(req: seq<Data>, t: seq<Data>, out: seq<Data>, at: seq<nat>, k: nat, d: Data)
    requires AnswersFrom(req, t, Val1, out, at) && k < |req| && req[k].val2 == NULL_OID
    requires DistinctVal2(t) && d in t && d.val2 == out[k].val2 != NULL_OID
    ensures at[k] < |t| && d == out[k] == t[at[k]] && d.val1 == req[k].val1
  {
  }

  lemma StillThere(req: seq<Data>, t: seq<Data>, out: seq<Data>, at: seq<nat>, dropped: seq<Data>)
    requires AnswersFrom(req, t, Val1, out, at) && DistinctVal2(t)
    requires |dropped| < |req| && AllWithin(at, |t|)
    requires forall k | 0 <= k < |dropped| :: dropped[k] == t[at[k]]
    ensures var n := |dropped|; at[n] < |t| && out[n] == t[at[n]] && out[n].val2 !in MemberIds(dropped)
  {
  }

  lemma NoMembers()
    ensures MemberIds([]) == {}
  {
  }

  lemma NoneAsked()
    ensures AskedAll([], Val1) == []
  {
  }

  lemma InAsked(s: seq<Data>, d: Data)
    requires d in s
    ensures d.val1 in multiset(AskedAll(s, Val1))
  {
  }

  datatype Call =
    | Create(nhs: seq<Oid>)
    | Add(grp: Oid, nhs: seq<Oid>)
    | Delete(grp: Oid, nhs: seq<Oid>)
    | DeleteGroup(grp: Oid)

  class NextHopGroups {
    const map_: Multimap
    const sai: Store<NhObj>
    const maxNh: nat
    /** Members whose rollback SAI refused. */
    ghost var orphans: set<Oid>
    /** Groups that a deletion broken off has left with records of lost members. */
    ghost var broken: set<Oid>

    constructor (maxNh: nat)
      ensures Valid() && fresh(map_) && fresh(sai) && this.maxNh == maxNh && State() == Nh(map[], map[], {}, {})
    {
      map_ := new Multimap();
      sai := new Store<NhObj>();
      this.maxNh, orphans, broken := maxNh, {}, {};
    }

    ghost function State(): Nh
      reads this, map_, sai
    {
      Nh(map_.entries, sai.live, orphans, broken)
    }

    ghost predicate Valid()
      reads this, map_, sai
    {
      State().Agree()
    }

    /** Removes the members made so far, last first; SAI's answers are ignored. */
    method RollBack(ghost s: Nh, grp: Oid, data: seq<Data>) returns (ghost stuck: set<Oid>)
      requires State() == s.(live := sai.live) && s.Grew(sai.live, grp, data, {})
      modifies this`orphans, sai
      ensures s.Grew(sai.live, grp, [], stuck)
      ensures State() == s.(live := sai.live, orphans := s.orphans + stuck)
      ensures sai.failures == old(sai.failures) + |stuck|
    {
      hide Nh.Grew, MemberIds;
      stuck := {};
      assert data[..|data|] == data;
      var i := |data|;
      while i > 0
        invariant 0 <= i <= |data|
        invariant State() == s.(live := sai.live) && s.Grew(sai.live, grp, data[..i], stuck)
        invariant sai.failures == old(sai.failures) + |stuck|
      {
        ghost var m := data[i - 1].val2;
        assert data[..i] == data[..i - 1] + [data[i - 1]];
        s.GrewLast(sai.live, grp, data[..i - 1], data[i - 1], stuck);
        var removed := sai.Remove(data[i - 1].val2);
        if !removed {
          stuck := stuck + {m};
        }
        i := i - 1;
      }
      assert data[..0] == [];
      orphans := orphans + stuck;
    }

    /** SAI makes members only of groups that exist. */
    method CreateMember(grp: Oid, nh: Oid) returns (r: Option<Oid>)
      modifies sai
      ensures r.None? ==> sai.live == old(sai.live)
      ensures r.None? ==> sai.failures == old(sai.failures) + (if grp in sai.live && sai.live[grp] == Group then 1 else 0)
      ensures r.Some? ==> r.value != NULL_OID && r.value !in old(sai.live) && grp in sai.live && sai.live[grp] == Group
      ensures r.Some? ==> sai.live == old(sai.live)[r.value := Member(grp, nh)] && sai.failures == old(sai.failures)
    {
      if grp !in sai.live || sai.live[grp] != Group {
        return None;
      }
      r := sai.Create(Member(grp, nh));
    }

    /** SAI removes as a member only what is one. */
    method RemoveMember(m: Oid) returns (ok: bool)
      modifies sai
      ensures ok ==> m in old(sai.live) && old(sai.live)[m].Member? && sai.live == old(sai.live) - {m}
      ensures !ok ==> sai.live == old(sai.live)
      ensures sai.failures >= old(sai.failures) && (ok ==> sai.failures == old(sai.failures))
      ensures m in old(sai.live) && old(sai.live)[m].Member? ==> (ok <==> sai.failures == old(sai.failures))
    {
      if m !in sai.live || !sai.live[m].Member? {
        return false;
      }
      ok := sai.Remove(m);
    }

    /** SAI removes as a group only what is one. */
    method RemoveGroup(grp: Oid) returns (ok: bool)
      modifies sai
      ensures ok ==> grp in old(sai.live) && old(sai.live)[grp] == Group && sai.live == old(sai.live) - {grp}
      ensures !ok ==> sai.live == old(sai.live)
      ensures sai.failures ==
              old(sai.failures) + (if !ok && grp in old(sai.live) && old(sai.live)[grp] == Group then 1 else 0)
    {
      if grp !in sai.live || sai.live[grp] != Group {
        return false;
      }
      ok := sai.Remove(grp);
    }

    /** Creates one SAI member for each requested next hop, then records them;
        on a refusal the ones made are removed again. */
    method MembersCreate(grp: Oid, nhs: seq<Oid>) returns (rc: Rc, ghost data: seq<Data>, ghost stuck: set<Oid>)
      requires Valid() && 0 < |nhs| <= maxNh
      modifies this`orphans, map_, sai
      ensures Valid() && old(State()).Grew(sai.live, grp, if rc.Ok? then data else [], stuck)
      ensures rc == Ok || rc == Fail
      ensures rc.Ok? ==> AskedAll(data, Val1) == nhs && stuck == {} && State() == old(State()).Added(sai.live, grp, data)
      ensures rc == Fail ==> State() == old(State()).(live := sai.live, orphans := old(orphans) + stuck)
      ensures sai.failures == old(sai.failures) + |stuck| +
                              (if rc == Fail && grp in old(sai.live) && old(sai.live)[grp] == Group then 1 else 0)
      ensures rc.Ok? ==> grp in old(sai.live) && old(sai.live)[grp] == Group
    {
      hide Nh.Agree, Nh.Grew;
      ghost var s := State();
      var made: seq<Data> := [];
      s.GrewNothing(grp);
      rc := Ok;
      for i := 0 to |nhs|
        invariant |made| == i && forall k | 0 <= k < i :: made[k].val1 == nhs[k]
        invariant State() == s.(live := sai.live) && s.Grew(sai.live, grp, made, {})
        invariant rc.Ok? && sai.failures == old(sai.failures)
        invariant i > 0 ==> grp in s.live && s.live[grp] == Group
      {
        ghost var before := sai.live;
        s.GrewKeepsGroup(before, grp, made);
        var r := CreateMember(grp, nhs[i]);
        if r.None? {
          rc := Fail;
          break;
        }
        s.GrewOne(before, sai.live, grp, made, Data(nhs[i], r.value));
        made := made + [Data(nhs[i], r.value)];
      }
      data := made;
      if !rc.Ok? {
        stuck := RollBack(s, grp, made);
        s.OrphansKeep(sai.live, grp, stuck);
        return;
      }
      stuck := {};
      map_.Insert(GrpKey(grp), made);
      s.AddedKeeps(sai.live, grp, made);
    }

    /** The first pair of the table that fits; `s` is what the table holds. */
    static method FindPair(d: Data, t: array<Data>, f: Field, ghost s: seq<Data>) returns (j: nat)
      requires t[..] == s
      ensures j <= |s| && (j < |s| ==> Hits(d, s[j], f))
      ensures forall k | 0 <= k < j :: !Hits(d, s[k], f)
    {
      j := 0;
      while j < t.Length && !Hits(d, t[j], f)
        invariant 0 <= j <= t.Length && forall k | 0 <= k < j :: !Hits(d, s[k], f)
      {
        assert t[j] == s[j];
        j := j + 1;
      }
      assert j < t.Length ==> t[j] == s[j];
    }

    /** Fills each request in place from the first recorded pair that fits. */
    method GetMemberOid(grp: Oid, data: array<Data>, f: Field) returns (rc: Rc)
      modifies data
      ensures GrpKey(grp) !in map_.entries ==> rc == NExist && data[..] == old(data[..])
      ensures GrpKey(grp) in map_.entries ==> rc.Ok? && data[..] == Greedy(old(data[..]), State().Pairs(grp), f)
    {
      hide Greedy, TableAfter, Hits, Fill, Consume, Nh.Agree;
      var count;
      rc, count := map_.GetValCount(GrpKey(grp));
      if !rc.Ok? {
        return;
      }
      var _, _, list := map_.Get(GrpKey(grp), count);
      var t := new Data[count](k requires 0 <= k < |list| => list[k]);
      assert t[..] == list;
      ghost var req := data[..];
      assert req[..0] == [];
      GreedyNothing(list, f);
      for i := 0 to data.Length
        invariant t[..] == TableAfter(req[..i], list, f)
        invariant data[..i] == Greedy(req[..i], list, f)
        invariant forall k | i <= k < data.Length :: data[k] == req[k]
      {
        ghost var t0, done := t[..], data[..i];
        var j := FindPair(data[i], t, f, t0);
        assert data[i] == req[i];
        GreedySnoc(req[..i], req[i], list, f, j);
        assert req[..i + 1] == req[..i] + [req[i]];
        if j < t.Length {
          data[i] := Fill(data[i], t[j], f);
          t[j] := Consume(t[j], f);
        }
        assert data[..i + 1] == done + [Answered(req[i], t0, j, f)] && t[..] == Used(t0, j, f);
      }
      assert req[..data.Length] == req && data[..data.Length] == data[..];
    }

    /** Looks the next hops of SAI's members up.  `list` is what SAI returned. */
    method NhIdsFromMemberOids(grp: Oid, list: seq<Oid>) returns (rc: Rc, nhs: seq<Oid>)
      requires Valid()
      ensures rc == TooBig <==> |list| > maxNh
      ensures rc == NExist <==> |list| <= maxNh && GrpKey(grp) !in map_.entries
      ensures rc.Ok? ==> |nhs| == |list|
      ensures rc.Ok? && grp !in broken && NoMarker(State().Pairs(grp), Val2) &&
              (forall i, j | 0 <= i < j < |list| :: list[i] != list[j]) &&
              (forall m | m in list :: m in MemberIds(State().Pairs(grp))) ==>
                forall i | 0 <= i < |list| :: Data(nhs[i], list[i]) in State().Pairs(grp)
    {
      hide Greedy, NoMarker, Nh.Agree, Nh.Pairs;
      nhs := [];
      if |list| > maxNh {
        return TooBig, nhs;
      }
      var data := new Data[|list|](k requires 0 <= k < |list| => Data(0, list[k]));
      ghost var req := data[..];
      rc := GetMemberOid(grp, data, Val2);
      if !rc.Ok? {
        return;
      }
      GreedyLength(req, State().Pairs(grp), Val2);
      for i := 0 to |list|
        invariant |nhs| == i && forall k | 0 <= k < i :: nhs[k] == data[k].val1
      {
        nhs := nhs + [data[i].val1];
      }
      ghost var t := State().Pairs(grp);
      assert grp !in broken ==> DistinctVal2(t) by {
        if grp !in broken {
          State().PairsDistinct(grp);
        }
      }
      hide DistinctVal2;
      if grp !in broken && NoMarker(t, Val2) && (forall i, j | 0 <= i < j < |list| :: list[i] != list[j]) &&
         (forall m | m in list :: m in MemberIds(t)) {
        LookupAll(list, t, req, data[..]);
      }
    }

    /** Removes members one by one, each from SAI and then from the list.
        `dropped` are the recorded pairs that went.  In a broken group a member id
        may be stale, and by now be that of another group's member. */
    method MembersRemove(grp: Oid, data: seq<Data>) returns (rc: Rc, ghost dropped: seq<Data>)
      requires Valid()
      requires forall d | d in data :: d.val2 in MemberIds(State().Pairs(grp)) || d.val2 !in sai.live
      modifies this`orphans, this`broken, map_, sai
      ensures Valid() && old(broken) <= broken && OnlyList(old(map_.entries), map_.entries, grp)
      ensures rc == TooBig <==> |data| > maxNh
      ensures rc == TooBig ==> State() == old(State()) && dropped == []
      ensures rc == Ok || rc == TooBig || rc == Fail
      ensures grp !in old(broken) ==>
                && State() == old(State()).(entries := map_.entries, live := sai.live)
                && old(State()).LostFrom(State(), grp, dropped)
                && |dropped| <= |data| && (forall k | 0 <= k < |dropped| :: dropped[k].val2 == data[k].val2)
                && (rc.Ok? ==> |dropped| == |data|)
                && (rc == Fail ==>
                      |dropped| < |data| && (sai.failures > old(sai.failures) || data[|dropped|].val2 !in sai.live))
      ensures sai.failures >= old(sai.failures)
    {
      hide Nh.Agree, Nh.LostFrom, Nh.Dropped, Nh.Pairs, Nh.Lost, OnlyList;
      dropped := [];
      ghost var s := State();
      s.LostNothing(grp);
      NoListChanged(map_.entries, grp);
      if |data| > maxNh {
        return TooBig, dropped;
      }
      for i := 0 to |data|
        invariant Valid() && s.broken <= broken && OnlyList(s.entries, map_.entries, grp)
        invariant grp !in s.broken ==>
                    && State() == s.(entries := map_.entries, live := sai.live)
                    && s.LostFrom(State(), grp, dropped)
                    && |dropped| == i && (forall k | 0 <= k < i :: dropped[k].val2 == data[k].val2)
        invariant sai.failures == old(sai.failures)
      {
        ghost var now, m := State(), data[i].val2;
        assert data[i] in data;
        if grp !in s.broken && m in now.live {
          s.LeftIsMember(now, grp, dropped, m);
        }
        var removed := RemoveMember(data[i].val2);
        if !removed {
          return Fail, dropped;
        }
        ghost var d := Data(NULL_OID, m);
        if grp in s.broken {
          now.LostKeeps(m);
          orphans, broken := now.Lost(m).orphans, now.Lost(m).broken;
          now.LostIs(m);
        } else {
          d := s.LostOne(now, grp, dropped, m);
        }
        ghost var mid := State();
        map_.DeleteElements(GrpKey(grp), Filter(Data(NULL_OID, data[i].val2), FILTER_VAL2));
        RejectedList(s.entries, mid.entries, map_.entries, grp, ByMember(m));
        if grp in s.broken {
          mid.ListOfBroken(grp, map_.entries);
        } else {
          assert State() == now.Dropped(grp, m) by {
            now.DroppedShape(grp, m, State());
          }
        }
        dropped := dropped + [d];
      }
      rc := Ok;
    }

    /** Removes the requested next hops, counted with repeats, from the group. */
    method DeleteHops(grp: Oid, nhs: seq<Oid>) returns (rc: Rc, ghost dropped: seq<Data>)
      requires Valid()
      modifies this`orphans, this`broken, map_, sai
      ensures sai.failures >= old(sai.failures)
      ensures Valid() && old(broken) <= broken && OnlyList(old(map_.entries), map_.entries, grp)
      ensures nhs == [] ==> rc == Fail
      ensures rc == NExist <==> 0 < |nhs| <= maxNh && GrpKey(grp) !in old(map_.entries)
      ensures rc == NoMem <==> |nhs| > maxNh && nhs != []
      ensures rc == NExist || rc == NoMem || nhs == [] ==> State() == old(State())
      ensures grp !in old(broken) ==>
                && State() == old(State()).(entries := map_.entries, live := sai.live)
                && old(State()).LostFrom(State(), grp, dropped)
                && (rc.Ok? && ALL_ONES !in nhs ==> AskedAll(dropped, Val1) == nhs)
      ensures grp !in old(broken) && sai.failures == old(sai.failures) && 0 < |nhs| <= maxNh && ALL_ONES !in nhs &&
              GrpKey(grp) in old(map_.entries) ==>
                (rc.Ok? <==> Contained(nhs, AskedAll(old(State()).Pairs(grp), Val1)))
    {
      hide Nh.Agree, Nh.LostFrom, Nh.Pairs, Greedy, DistinctVal2, AskedAll, MemberIds, NoMarker, Contained, OnlyList;
      dropped := [];
      ghost var s := State();
      s.LostNothing(grp);
      NoListChanged(map_.entries, grp);
      if |nhs| == 0 {
        return Fail, dropped;
      }
      if |nhs| > maxNh {
        return NoMem, dropped;
      }
      var data := new Data[|nhs|](k requires 0 <= k < |nhs| => Data(nhs[k], 0));
      ghost var req := data[..];
      rc := GetMemberOid(grp, data, Val1);
      if !rc.Ok? {
        return;
      }
      s.HandedOutAreRecorded(grp, req);
      rc, dropped := MembersRemove(grp, data[..]);
      if ALL_ONES !in nhs && grp !in s.broken {
        s.MatchDecides(State(), grp, nhs, req, dropped);
      }
    }

    /** No hops is an error; more than the caller's array holds is the caller's
        fault.  A failure leaves nothing new in SAI but the members whose rollback
        is refused. */
    method AddHops(grp: Oid, nhs: seq<Oid>) returns (rc: Rc, ghost stuck: set<Oid>)
      requires Valid() && |nhs| <= maxNh
      modifies this`orphans, map_, sai
      ensures Valid() && (rc == Ok || rc == Fail)
      ensures rc.Ok? <==> nhs != [] && grp in old(sai.live) && old(sai.live)[grp] == Group && sai.failures == old(sai.failures)
      ensures rc.Ok? ==> AskedAll(State().Pairs(grp), Val1) == AskedAll(old(State()).Pairs(grp), Val1) + nhs
      ensures map_.entries == if rc.Ok? then old(map_.entries)[GrpKey(grp) := State().Pairs(grp)] else old(map_.entries)
      ensures orphans == old(orphans) + stuck && (rc.Ok? ==> stuck == {})
      ensures rc.Ok? ==> |State().Pairs(grp)| >= |old(State()).Pairs(grp)|
      ensures MembersMade(old(sai.live), sai.live, grp,
                          if rc.Ok? then MemberIds(State().Pairs(grp)[|old(State()).Pairs(grp)|..]) else stuck)
      ensures sai.failures == old(sai.failures) + |stuck| +
                              (if rc == Fail && nhs != [] && grp in old(sai.live) && old(sai.live)[grp] == Group then 1 else 0)
    {
      hide Nh.Agree, Nh.Grew, Nh.Added, Nh.Pairs, AskedAll, MemberIds, MembersMade;
      stuck := {};
      ghost var s := State();
      s.GrewNothing(grp);
      s.GrewMembers(s.live, grp, [], {});
      if |nhs| == 0 {
        return Fail, stuck;
      }
      ghost var data;
      rc, data, stuck := MembersCreate(grp, nhs);
      s.AddedHops(sai.live, grp, data);
      s.GrewMembers(sai.live, grp, if rc.Ok? then data else [], stuck);
    }

    /** Removes a group that could not be filled, if SAI lets it. */
    method UnmakeGroup(id: Oid, ghost before: map<Oid, NhObj>, ghost stuck: set<Oid>) returns (ghost kept: bool)
      requires Valid() && GrpKey(id) !in map_.entries && GroupUnmade(before, sai.live, id, stuck, true)
      modifies sai
      ensures Valid() && GroupUnmade(before, sai.live, id, stuck, kept)
      ensures sai.failures == old(sai.failures) + (if kept then 1 else 0)
      ensures sai.live == before <==> |stuck| == 0 && !kept
    {
      hide Nh.Agree, GroupUnmade;
      ghost var left := State();
      GroupGoes(before, sai.live, id, stuck);
      var removed := RemoveGroup(id);
      kept := !removed;
      left.WithoutGroup(id, sai.live);
      NothingNew(before, sai.live, id, stuck, kept);
    }

    /** A group created without hops gets no list, and its handle is not given
        back.  When SAI refuses a member, the group is removed again: `kept` says
        that SAI refuses that too, and `stuck` are members that it does not take
        back either. */
    method GroupCreate(nhs: seq<Oid>) returns (rc: Rc, handle: Option<Oid>, ghost grp: Oid, ghost stuck: set<Oid>, ghost kept: bool)
      requires Valid() && |nhs| <= maxNh
      modifies this`orphans, map_, sai
      ensures Valid() && (rc == Ok || rc == Fail)
      ensures handle.Some? <==> rc.Ok? && nhs != []
      ensures handle.Some? ==> handle.value == grp && AskedAll(State().Pairs(grp), Val1) == nhs
      ensures map_.entries == if handle.Some? then old(map_.entries)[GrpKey(grp) := State().Pairs(grp)] else old(map_.entries)
      ensures handle.None? ==> GrpKey(grp) !in map_.entries
      ensures orphans == old(orphans) + stuck && (rc.Ok? ==> stuck == {})
      ensures if rc.Ok? then GroupMade(old(sai.live), sai.live, grp, MemberIds(State().Pairs(grp)))
              else GroupUnmade(old(sai.live), sai.live, grp, stuck, kept)
      ensures sai.failures == old(sai.failures) + (if rc.Ok? then 0 else 1 + |stuck| + (if kept then 1 else 0))
      ensures rc == Fail ==> (sai.live == old(sai.live) <==> sai.failures == old(sai.failures) + 1)
    {
      hide Nh.Agree, Nh.Grew, Nh.Added, Nh.Pairs, AskedAll, MemberIds, Outlives, GroupMade, GroupUnmade;
      handle, grp, stuck, kept := None, NULL_OID, {}, false;
      ghost var s := State();
      s.NoNullGroup();
      NothingUnmade(s.live, grp);
      var r := sai.Create(Group);
      if r.None? {
        return Fail, None, grp, stuck, kept;
      }
      var id := r.value;
      grp := id;
      ghost var mid := State();
      s.FreshGroup(grp);
      mid.NoPairs(grp);
      if |nhs| == 0 {
        NoMembers();
        GroupAlone(s.live, grp);
        return Ok, None, grp, stuck, kept;
      }
      ghost var data;
      rc, data, stuck := MembersCreate(id, nhs);
      mid.GrewGroup(s.live, sai.live, id, if rc.Ok? then data else [], stuck);
      if !rc.Ok? {
        kept := UnmakeGroup(id, s.live, stuck);
        return;
      }
      mid.AddedHops(sai.live, id, data);
      NoneAsked();
      handle := Some(id);
    }

    /** One recorded member out of SAI.  In a broken group its id may be stale. */
    method RemoveRecorded(grp: Oid, m: Oid) returns (removed: bool)
      requires if grp in broken then Valid() else m in sai.live && sai.live[m].Member?
      modifies this`orphans, this`broken, sai
      ensures map_.entries == old(map_.entries) && old(broken) <= broken
      ensures grp in old(broken) ==> Valid()
      ensures grp !in old(broken) ==>
                && State() == old(State()).(live := if removed then old(sai.live) - {m} else old(sai.live))
                && (removed <==> sai.failures == old(sai.failures))
      ensures forall g | g in old(sai.live) && old(sai.live)[g] == Group :: g in sai.live && sai.live[g] == Group
      ensures sai.failures >= old(sai.failures)
    {
      hide Nh.Agree;
      ghost var now := State();
      removed := RemoveMember(m);
      if removed && grp in broken {
        now.LostKeeps(m);
        orphans, broken := now.Lost(m).orphans, now.Lost(m).broken;
      }
    }

    /** Removes every recorded member from SAI, then the list.  `gone` are the
        members that left.  A refusal part-way leaves a broken group. */
    method AllMembersRemove(grp: Oid) returns (rc: Rc, ghost gone: set<Oid>)
      requires Valid()
      modifies this`orphans, this`broken, map_, sai
      ensures Valid() && old(broken) <= broken
      ensures var s := old(State());
              && (rc == NExist <==> GrpKey(grp) !in s.entries)
              && (rc == NoMem <==> GrpKey(grp) in s.entries && |s.Pairs(grp)| > maxNh)
              && (rc == NExist || rc == NoMem ==> State() == s)
              && (rc == Ok || rc == NExist || rc == NoMem || rc == Fail)
              && map_.entries == (if rc.Ok? then s.entries - {GrpKey(grp)} else s.entries)
              && (grp in s.live && s.live[grp] == Group ==> grp in sai.live && sai.live[grp] == Group)
      ensures grp !in old(broken) ==>
                var s := old(State());
                && gone <= MemberIds(s.Pairs(grp)) && (rc == Fail ==> sai.failures > old(sai.failures))
                && (rc == Fail ==>
                      State() == s.(live := s.live - gone, broken := if gone == {} then s.broken else s.broken + {grp}))
                && (rc.Ok? ==> State() == s.MembersGone(grp))
      ensures sai.failures >= old(sai.failures)
    {
      hide Nh.Agree, DistinctVal2, MemberIds;
      gone := {};
      ghost var s := State();
      s.NothingOf(grp);
      var n, list;
      rc, n, list := map_.Get(GrpKey(grp), maxNh);
      if !rc.Ok? {
        return;
      }
      assert list[..0] == [];
      for i := 0 to n
        invariant map_.entries == s.entries && s.broken <= broken && sai.failures >= old(sai.failures)
        invariant gone == MemberIds(list[..i])
        invariant grp in s.broken ==> Valid()
        invariant grp !in s.broken ==> State() == s.(live := s.live - gone) && sai.failures == old(sai.failures)
        invariant grp in s.live && s.live[grp] == Group ==> grp in sai.live && sai.live[grp] == Group
      {
        if grp !in s.broken {
          s.NextMember(grp, i);
        }
        var removed := RemoveRecorded(grp, list[i].val2);
        if !removed {
          if grp !in s.broken {
            s.LossBreaks(grp, gone);
            broken := if gone == {} then broken else broken + {grp};
          }
          return Fail, gone;
        }
        assert list[..i + 1] == list[..i] + [list[i]];
        MemberIdsSnoc(list[..i], list[i]);
        gone := gone + {list[i].val2};
      }
      assert list[..n] == list;
      ghost var mid := State();
      map_.Delete(GrpKey(grp));
      if grp in s.broken {
        mid.ListOfBroken(grp, map_.entries);
      } else {
        s.MembersGoneKeeps(grp);
      }
    }

    /** The list goes with the members, even if SAI then keeps the group.  Only a
        refusal part-way through the members breaks the agreement, and on this
        group alone. */
    method GroupDelete(grp: Oid) returns (rc: Rc, ghost gone: set<Oid>)
      requires Valid()
      modifies this`orphans, this`broken, map_, sai
      ensures Valid() && old(broken) <= broken
      ensures var s := old(State());
              && (rc == NExist <==> GrpKey(grp) !in s.entries)
              && (rc == NoMem <==> GrpKey(grp) in s.entries && |s.Pairs(grp)| > maxNh)
              && (rc == NExist || rc == NoMem ==> State() == s)
              && (rc == Ok || rc == NExist || rc == NoMem || rc == Fail)
              && (rc.Ok? ==> GrpKey(grp) !in map_.entries && grp !in sai.live)
      ensures grp !in old(broken) ==>
                var s := old(State());
                && (rc.Ok? ==> State() == s.MembersGone(grp).(live := s.MembersGone(grp).live - {grp}))
                && (rc == Fail ==>
                      || (gone <= MemberIds(s.Pairs(grp)) &&
                          State() == s.(live := s.live - gone, broken := if gone == {} then s.broken else s.broken + {grp}))
                      || State() == s.MembersGone(grp))
      ensures sai.failures >= old(sai.failures)
      ensures grp !in old(broken) && sai.failures == old(sai.failures) ==>
                (rc.Ok? <==> GrpKey(grp) in old(map_.entries) && |old(State()).Pairs(grp)| <= maxNh)
    {
      hide Nh.Agree, DistinctVal2, MemberIds, Nh.MembersGone;
      ghost var s := State();
      s.ListedGroup(grp);
      rc, gone := AllMembersRemove(grp);
      if !rc.Ok? {
        return;
      }
      ghost var mid := State();
      var removed := RemoveGroup(grp);
      mid.WithoutGroup(grp, sai.live);
      rc := if removed then Ok else Fail;
    }

    method CreateStep(nhs: seq<Oid>) returns (rc: Rc, ghost grp: Oid)
      requires Valid() && |nhs| <= maxNh
      modifies this`orphans, map_, sai
      ensures Valid() && sai.failures >= old(sai.failures)
      ensures Creates(old(State()), nhs, rc, grp, sai.failures - old(sai.failures), State())
    {
      hide Nh.Agree, Nh.Pairs, AskedAll, MemberIds, GroupMade, GroupUnmade;
      var handle;
      ghost var stuck, kept;
      ghost var s := State();
      s.OrphansAreLive();
      rc, handle, grp, stuck, kept := GroupCreate(nhs);
      if rc.Ok? {
        s.StuckAreNew(stuck);
        State().NoPairs(grp);
        NoneAsked();
      } else {
        NothingNew(s.live, sai.live, grp, stuck, kept);
        StuckApart(s.live, sai.live, grp, stuck, kept);
        s.StuckAreNew(stuck);
      }
    }

    method AddStep(g: Oid, nhs: seq<Oid>) returns (rc: Rc)
      requires Valid() && |nhs| <= maxNh
      modifies this`orphans, map_, sai
      ensures Valid() && sai.failures >= old(sai.failures)
      ensures Adds(old(State()), g, nhs, rc, sai.failures - old(sai.failures), State())
    {
      hide Nh.Agree, Nh.Pairs, AskedAll, MemberIds, MembersMade;
      ghost var stuck;
      ghost var s := State();
      s.OrphansAreLive();
      rc, stuck := AddHops(g, nhs);
      assert stuck !! s.live.Keys by {
        MadeApart(s.live, sai.live, g, stuck, rc.Ok?);
      }
      s.StuckAreNew(stuck);
    }

    method Step(c: Call) returns (rc: Rc, ghost grp: Oid)
      requires Valid() && (c.Create? || c.Add? ==> |c.nhs| <= maxNh)
      modifies this`orphans, this`broken, map_, sai
      ensures Valid() && sai.failures >= old(sai.failures)
      ensures Stepped(old(State()), c, rc, grp, maxNh, sai.failures - old(sai.failures), State())
    {
      hide Nh.Agree, Nh.LostFrom, Nh.HopCounts, Nh.MembersGone, Contained, OnlyList, Creates, Adds;
      grp := NULL_OID;
      ghost var s := State();
      match c {
        case Create(nhs) =>
          rc, grp := CreateStep(nhs);
        case Add(g, nhs) =>
          rc := AddStep(g, nhs);
        case Delete(g, nhs) =>
          ghost var dropped;
          rc, dropped := DeleteHops(g, nhs);
          if g !in s.broken {
            s.LostHops(State(), g, dropped);
          }
        case DeleteGroup(g) =>
          s.NothingOf(g);
          ghost var gone;
          rc, gone := GroupDelete(g);
          if g !in s.broken {
            s.LossShows(g, gone);
            s.GoneShape(g);
          }
      }
    }

    /** Every run of calls, whatever SAI refuses: each step does what its call
        says, and for each group that is not broken, the pairs recorded are the
        pairs live in SAI.  The first group breaks exactly when SAI breaks a group
        deletion off part-way.  Without refusals there are no orphans, so the two
        are then the same outright. */
    method Run(calls: seq<Call>) returns (rcs: seq<Rc>, ghost ids: seq<Oid>, ghost trace: seq<Nh>, ghost refusals: seq<nat>)
      requires Valid() && broken == {} && forall c | c in calls && (c.Create? || c.Add?) :: |c.nhs| <= maxNh
      modifies this`orphans, this`broken, map_, sai
      ensures Valid() && |rcs| == |ids| == |refusals| == |calls| && |trace| == |calls| + 1
      ensures trace[0] == old(State()) && trace[|calls|] == State()
      ensures forall i | 0 <= i < |calls| ::
                Stepped(trace[i], calls[i], rcs[i], ids[i], maxNh, refusals[i], trace[i + 1])
      ensures Sum(refusals) == sai.failures - old(sai.failures)
      ensures sai.failures == old(sai.failures) <==> forall i | 0 <= i < |calls| :: refusals[i] == 0
      ensures forall i | 0 <= i <= |calls| :: trace[i].Agree()
      ensures (forall i | 0 <= i <= |calls| :: trace[i].broken == {}) <==>
              forall i | 0 <= i < |calls| :: !BrokenOff(trace[i], calls[i], trace[i + 1])
      ensures sai.failures == old(sai.failures) ==> broken == {} && orphans == old(orphans)
    {
      hide Nh.Agree, BrokenOff, Stepped, Sum;
      SumOfNone();
      rcs, ids, trace, refusals := [], [], [State()], [];
      for i := 0 to |calls|
        invariant Valid() && sai.failures >= old(sai.failures)
        invariant |rcs| == |ids| == |refusals| == i && |trace| == i + 1
        invariant trace[0] == old(State()) && trace[i] == State()
        invariant forall j | 0 <= j < i :: Stepped(trace[j], calls[j], rcs[j], ids[j], maxNh, refusals[j], trace[j + 1])
        invariant Sum(refusals) == sai.failures - old(sai.failures)
        invariant forall j | 0 <= j <= i :: trace[j].Agree()
        invariant sai.failures == old(sai.failures) ==> broken == {} && orphans == old(orphans)
      {
        assert calls[i] in calls;
        ghost var s, was := State(), sai.failures;
        var rc;
        ghost var grp;
        rc, grp := Step(calls[i]);
        FirstBroken(s, calls[i], rc, grp, maxNh, sai.failures - was, State());
        SumOne(refusals, sai.failures - was);
        rcs, ids, trace, refusals := rcs + [rc], ids + [grp], trace + [State()], refusals + [sai.failures - was];
      }
      SumIsZero(refusals);
      WholeUntilBroken(trace, calls, rcs, ids, maxNh, refusals);
    }
  }

  /** A group made and filled, or what the refusals have left of it. */
  ghost predicate Creates(s: Nh, nhs: seq<Oid>, rc: Rc, grp: Oid, refusals: nat, s': Nh) {
    && s'.broken == s.broken && s.orphans <= s'.orphans && s.orphans <= s.live.Keys
    && var stuck, kept := s'.orphans - s.orphans, grp in s'.live;
       if rc.Ok? then
         && refusals == 0 && stuck == {} && AskedAll(s'.Pairs(grp), Val1) == nhs
         && GroupMade(s.live, s'.live, grp, MemberIds(s'.Pairs(grp)))
         && s'.entries == (if nhs == [] then s.entries else s.entries[GrpKey(grp) := s'.Pairs(grp)])
       else
         && s'.entries == s.entries && GroupUnmade(s.live, s'.live, grp, stuck, kept)
         && refusals == 1 + |stuck| + (if kept then 1 else 0)
  }

  /** A group that exists gains the hops, or the members that stay behind. */
  ghost predicate Adds(s: Nh, g: Oid, nhs: seq<Oid>, rc: Rc, refusals: nat, s': Nh) {
    && s'.broken == s.broken && s.orphans <= s'.orphans && s.orphans <= s.live.Keys
    && (rc.Ok? <==> refusals == 0 && nhs != [] && g in s.live && s.live[g] == Group)
    && var stuck := s'.orphans - s.orphans;
       if rc.Ok? then
         && stuck == {} && AskedAll(s'.Pairs(g), Val1) == AskedAll(s.Pairs(g), Val1) + nhs
         && s'.entries == s.entries[GrpKey(g) := s'.Pairs(g)] && |s'.Pairs(g)| >= |s.Pairs(g)|
         && MembersMade(s.live, s'.live, g, MemberIds(s'.Pairs(g)[|s.Pairs(g)|..]))
       else
         && s'.entries == s.entries && MembersMade(s.live, s'.live, g, stuck)
         && refusals == |stuck| + (if nhs != [] && g in s.live && s.live[g] == Group then 1 else 0)
  }

  /** What a call does; `grp` is the group created.  On a group that is not broken,
      a step that SAI does not refuse succeeds exactly for a request that can be
      met. */
  ghost predicate Stepped(s: Nh, c: Call, rc: Rc, grp: Oid, maxNh: nat, refusals: nat, s': Nh) {
    match c
    case Create(nhs) => Creates(s, nhs, rc, grp, refusals, s')
    case Add(g, nhs) => Adds(s, g, nhs, rc, refusals, s')
    case Delete(g, nhs) =>
      && OnlyList(s.entries, s'.entries, g) && s.broken <= s'.broken
      && (rc == NExist || rc == NoMem || nhs == [] ==> s' == s) && (nhs == [] ==> rc == Fail)
      && (g !in s.broken ==>
            && s'.broken == s.broken && s'.orphans == s.orphans && s'.live.Keys <= s.live.Keys
            && (rc.Ok? && ALL_ONES !in nhs ==> s'.HopCounts(g) + multiset(nhs) == s.HopCounts(g))
            && (refusals == 0 && 0 < |nhs| <= maxNh && ALL_ONES !in nhs && GrpKey(g) in s.entries ==>
                  (rc.Ok? <==> Contained(nhs, AskedAll(s.Pairs(g), Val1)))))
    case DeleteGroup(g) =>
      && s.broken <= s'.broken && (rc == NExist || rc == NoMem ==> s' == s)
      && (rc == NExist <==> GrpKey(g) !in s.entries)
      && (rc == NoMem <==> GrpKey(g) in s.entries && |s.Pairs(g)| > maxNh)
      && (rc.Ok? || rc == NExist || rc == NoMem || rc == Fail)
      && (rc.Ok? ==> GrpKey(g) !in s'.entries && g !in s'.live)
      && (g !in s.broken ==>
            && s'.orphans == s.orphans
            && (rc.Ok? ==> s' == s.MembersGone(g).(live := s.MembersGone(g).live - {g}))
            && (rc == Fail ==>
                  || s' == s.MembersGone(g)
                  || (s'.entries == s.entries && s'.live.Keys <= s.live.Keys &&
                      s'.broken == if s'.live == s.live then s.broken else s.broken + {g}))
            && (refusals == 0 ==> rc != Fail))
  }

  /** A group deletion that SAI broke off after some of the members were gone:
      the list is still there. */
  predicate BrokenOff(s: Nh, c: Call, s': Nh) {
    c.DeleteGroup? && GrpKey(c.grp) in s.entries && s'.entries == s.entries && s'.live != s.live
  }

  lemma FirstBroken(s: Nh, c: Call, rc: Rc, grp: Oid, maxNh: nat, refusals: nat, s': Nh)
    requires Stepped(s, c, rc, grp, maxNh, refusals, s')
    ensures s.broken == {} ==> (s'.broken == {} <==> !BrokenOff(s, c, s'))
    ensures s.broken == {} && refusals == 0 ==> s'.broken == {} && s'.orphans == s.orphans
  {
    hide OnlyList, Nh.HopCounts, Nh.Pairs;
    assert s.orphans <= s'.orphans ==> s'.orphans == s.orphans + (s'.orphans - s.orphans);
    if c.DeleteGroup? && GrpKey(c.grp) in s.entries {
      assert GrpKey(c.grp) !in s.MembersGone(c.grp).entries;
    }
  }

  lemma WholeUntilBroken(trace: seq<Nh>, calls: seq<Call>, rcs: seq<Rc>, ids: seq<Oid>, maxNh: nat, refusals: seq<nat>)
    requires |trace| == |calls| + 1 && |rcs| == |ids| == |refusals| == |calls| && trace[0].broken == {}
    requires forall i | 0 <= i < |calls| ::
               Stepped(trace[i], calls[i], rcs[i], ids[i], maxNh, refusals[i], trace[i + 1])
    ensures (forall i | 0 <= i <= |calls| :: trace[i].broken == {}) <==>
            forall i | 0 <= i < |calls| :: !BrokenOff(trace[i], calls[i], trace[i + 1])
  {
    hide BrokenOff, Stepped;
    var n := |calls|;
    forall i | 0 <= i < n && trace[i].broken == {}
      ensures trace[i + 1].broken == {} <==> !BrokenOff(trace[i], calls[i], trace[i + 1])
    {
      FirstBroken(trace[i], calls[i], rcs[i], ids[i], maxNh, refusals[i], trace[i + 1]);
    }
    var holds := seq(n + 1, i requires 0 <= i <= n => trace[i].broken == {});
    var breaks := seq(n, i requires 0 <= i < n => BrokenOff(trace[i], calls[i], trace[i + 1]));
    assert forall i | 0 <= i <= n :: trace[i].broken == {} <==> holds[i];
    assert forall i | 0 <= i < n :: BrokenOff(trace[i], calls[i], trace[i + 1]) <==> breaks[i];
    HoldsUntilBroken(holds, breaks, n);
  }
}
