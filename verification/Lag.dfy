/** LAGs of src/nas_ndi_lag.cpp: a port leaves the 1Q bridge before it joins a
    LAG, and enters it again after it has left the LAG. */
module Lag {
  import opened Types
  import opened Bridge
  import opened BrportCache
  import opened Runs

  /** Where each port (or LAG) is: in the 1Q bridge, a member of a LAG, or
      stray, after a step that SAI refused. */
  datatype Homes = Homes(oneQ: set<Oid>, members: map<Oid, Oid>, strays: set<Oid>, live: map<Oid, Obj>) {

    predicate IsPort(p: Oid) {
      p in live && (live[p].PhysPort? || live[p].LagObj?)
    }

    ghost predicate InLag(p: Oid) {
      exists m :: m in members && members[m] == p
    }

    /** Every port has exactly one home. */
    ghost predicate OneHome() {
      && (forall p :: IsPort(p) <==> p in oneQ || p in strays || InLag(p))
      && oneQ !! strays && (forall p | InLag(p) :: p !in oneQ && p !in strays)
    }

    /** The member map is SAI's, and no port is two members. */
    ghost predicate MembersOk() {
      && (forall m :: m in members <==> m in live && live[m].LagMember?)
      && (forall m | m in members :: live[m].port == members[m])
      && (forall m, n | m in members && n in members && members[m] == members[n] :: m == n)
    }

    ghost predicate Ok() {
      OneHome() && MembersOk()
    }

    /** A step that concerns bridge-port objects only. */
    lemma OthersKeep(live': map<Oid, Obj>)
      requires Ok() && SameOthers(live, live')
      ensures this.(live := live').Ok()
    {
      var r := this.(live := live');
      assert forall p :: r.IsPort(p) <==> IsPort(p);
      assert forall p :: r.InLag(p) <==> InLag(p);
    }

    /** A port leaves the 1Q bridge, or enters it. */
    lemma Leaves(p: Oid)
      requires Ok() && p in oneQ
      ensures this.(oneQ := oneQ - {p}, strays := strays + {p}).Ok()
    {
      var r := this.(oneQ := oneQ - {p}, strays := strays + {p});
      assert forall q :: (r.IsPort(q) <==> IsPort(q)) && (r.InLag(q) <==> InLag(q));
    }

    lemma Enters(p: Oid)
      requires Ok() && p in strays
      ensures p !in oneQ && this.(oneQ := oneQ + {p}, strays := strays - {p}).Ok()
    {
    }

    lemma KindOf1Q(p: Oid)
      requires Ok()
      ensures p in oneQ ==> p in live && (live[p].PhysPort? || live[p].LagObj?)
    {
    }

    lemma MemberIsLive(m: Oid)
      requires Ok()
      ensures m in members <==> m in live && live[m].LagMember?
    {
    }

    lemma NotStray(p: Oid)
      requires Ok() && p in oneQ
      ensures p !in strays
    {
    }

    function Joined(m: Oid, lag: Oid, p: Oid): Homes {
      Homes(oneQ, members[m := p], strays - {p}, live[m := LagMember(lag, p)])
    }

    lemma Joins(m: Oid, lag: Oid, p: Oid)
      requires Ok() && p in strays && m !in live
      ensures m !in members && Joined(m, lag, p).Ok()
    {
      var r := Joined(m, lag, p);
      forall q ensures r.InLag(q) <==> q == p || InLag(q) {
        if q == p {
          assert m in r.members && r.members[m] == q;
        }
        if n :| n in members && members[n] == q {
          assert n in r.members && r.members[n] == q;
        }
      }
      assert forall q :: r.IsPort(q) <==> IsPort(q);
    }

    function Departed(m: Oid): Homes
      requires m in members
    {
      Homes(oneQ, members - {m}, strays + {members[m]}, live - {m})
    }

    lemma Departs(m: Oid)
      requires Ok() && m in members
      ensures members[m] !in strays && Departed(m).Ok()
    {
      var r := Departed(m);
      assert InLag(members[m]);
      forall q ensures r.InLag(q) <==> q != members[m] && InLag(q) {
        if q != members[m] && InLag(q) {
          var n :| n in members && members[n] == q;
          assert n in r.members && r.members[n] == q;
        }
      }
      assert forall q :: r.IsPort(q) <==> IsPort(q);
    }

    /** A port object comes into being, or goes. */
    lemma Born(p: Oid, o: Obj)
      requires Ok() && p !in live && (o.PhysPort? || o.LagObj?)
      ensures p !in oneQ + strays && this.(live := live[p := o], strays := strays + {p}).Ok()
    {
      var r := this.(live := live[p := o], strays := strays + {p});
      assert !IsPort(p);
      assert forall q :: r.InLag(q) <==> InLag(q);
      assert forall q :: r.IsPort(q) <==> q == p || IsPort(q);
    }

    lemma Gone(p: Oid)
      requires Ok() && p in strays
      ensures IsPort(p) && this.(live := live - {p}, strays := strays - {p}).Ok()
    {
      var r := this.(live := live - {p}, strays := strays - {p});
      assert forall q :: r.InLag(q) <==> InLag(q);
      assert IsPort(p);
      assert forall q :: r.IsPort(q) <==> q != p && IsPort(q);
    }
  }

  lemma OtherStays(a: map<Oid, Obj>, b: map<Oid, Obj>, x: Oid)
    requires SameOthers(a, b) && x in a && !a[x].BrPort?
    ensures x in b && b[x] == a[x]
  {
  }

  datatype Call =
    | CreatePort
    | CreateLag
    | DeletePort(port: Oid)
    | Add(lag: Oid, saiPort: Option<Oid>)
    | Del(member: Oid)

  class LagApi {
    const bridge: BridgeApi
    var memberToPort: map<Oid, Oid>
    /** Ports that a refused step has left in neither place. */
    ghost var strays: set<Oid>

    constructor ()
      ensures Valid() && fresh(bridge) && fresh(bridge.cache) && fresh(bridge.sai) && strays == {}
    {
      bridge := new BridgeApi();
      memberToPort, strays := map[], {};
    }

    ghost function State(): Homes
      reads this, bridge, bridge.cache, bridge.sai
    {
      Homes(bridge.cache.byPort.Keys, memberToPort, strays, bridge.sai.live)
    }

    ghost predicate Valid()
      reads this, bridge, bridge.cache, bridge.sai
    {
      bridge.Valid() && State().Ok()
    }

    /** No port is both in the 1Q index and a LAG member; with no stray, each is
        in exactly one of the two. */
    lemma ExactlyOne(p: Oid)
      requires Valid()
      ensures !(p in bridge.cache.byPort && State().InLag(p))
      ensures strays == {} && State().IsPort(p) ==> (p in bridge.cache.byPort <==> !State().InLag(p))
    {
    }

    lemma EachInOnePlace()
      requires Valid()
      ensures forall p :: !(p in bridge.cache.byPort && State().InLag(p))
      ensures strays == {} ==> forall p | State().IsPort(p) :: p in bridge.cache.byPort <==> !State().InLag(p)
    {
      hide BrportTable.Valid, CachedAreLive, Homes.Ok, Homes.InLag, Homes.IsPort;
      forall p
        ensures !(p in bridge.cache.byPort && State().InLag(p))
        ensures strays == {} && State().IsPort(p) ==> (p in bridge.cache.byPort <==> !State().InLag(p))
      {
        ExactlyOne(p);
      }
    }

    method Enter1Q(port: Oid, lag: bool) returns (rc: Rc)
      requires Valid() && port in strays
      modifies this`strays, bridge.cache, bridge.sai
      ensures Valid() && (rc == Ok || rc == Cfg) && SameOthers(old(bridge.sai.live), bridge.sai.live)
      ensures rc.Ok? ==> State().oneQ == old(State()).oneQ + {port} && strays == old(strays) - {port}
      ensures rc.Ok? ==> port in bridge.cache.byPort && bridge.cache.byPort[port].lag == lag
      ensures !rc.Ok? ==> State().oneQ == old(State()).oneQ && strays == old(strays)
      ensures bridge.sai.failures >= old(bridge.sai.failures) && (rc.Ok? <==> bridge.sai.failures == old(bridge.sai.failures))
    {
      hide BrportTable.Valid, CachedAreLive, Homes.Ok, SameOthers;
      ghost var s := State();
      s.Enters(port);
      rc := bridge.Create1Q(port, lag);
      if rc.Ok? {
        strays := strays - {port};
        s.(oneQ := s.oneQ + {port}, strays := strays).OthersKeep(bridge.sai.live);
      } else {
        s.OthersKeep(bridge.sai.live);
      }
    }

    method Leave1Q(port: Oid) returns (rc: Rc)
      requires Valid()
      modifies this`strays, bridge.cache, bridge.sai
      ensures Valid() && (rc == Ok || rc == Cfg) && SameOthers(old(bridge.sai.live), bridge.sai.live)
      ensures rc.Ok? ==> port in old(bridge.cache.byPort) && bridge.cache.byPort == old(bridge.cache.byPort) - {port}
      ensures rc.Ok? ==> port !in old(strays) && strays == old(strays) + {port}
      ensures !rc.Ok? ==> State() == old(State())
      ensures bridge.sai.failures >= old(bridge.sai.failures)
      ensures bridge.sai.failures == old(bridge.sai.failures) ==> (rc.Ok? <==> port in old(bridge.cache.byPort))
    {
      hide BrportTable.Valid, CachedAreLive, Homes.Ok, SameOthers;
      ghost var s := State();
      rc := bridge.Delete1Q(port);
      if rc.Ok? {
        s.NotStray(port);
        s.Leaves(port);
        strays := strays + {port};
        s.(oneQ := s.oneQ - {port}, strays := strays).OthersKeep(bridge.sai.live);
      }
    }

    /** SAI removes an object only through the API of its own kind. */
    method RemoveAs(x: Oid, like: Obj) returns (ok: bool)
      modifies bridge.sai
      ensures ok ==> x in old(bridge.sai.live) && SameKind(old(bridge.sai.live)[x], like)
      ensures ok ==> bridge.sai.live == old(bridge.sai.live) - {x}
      ensures !ok ==> bridge.sai.live == old(bridge.sai.live)
      ensures bridge.sai.failures >= old(bridge.sai.failures)
      ensures ok ==> bridge.sai.failures == old(bridge.sai.failures)
      ensures bridge.sai.failures == old(bridge.sai.failures) ==>
                (ok <==> x in old(bridge.sai.live) && SameKind(old(bridge.sai.live)[x], like))
    {
      if x !in bridge.sai.live || !SameKind(bridge.sai.live[x], like) {
        return false;
      }
      ok := bridge.sai.Remove(x);
    }

    static predicate SameKind(a: Obj, b: Obj) {
      (a.PhysPort? && b.PhysPort?) || (a.LagObj? && b.LagObj?) || (a.LagMember? && b.LagMember?)
    }

    /** A new port object (a front-panel port, or a LAG) enters the 1Q bridge. */
    method CreatePortObj(o: Obj) returns (rc: Rc, id: Oid, ghost asked: seq<Outside>)
      requires Valid() && (o.PhysPort? || o.LagObj?)
      modifies this`strays, bridge.cache, bridge.sai
      ensures Valid()
      ensures rc.Ok? ==> && asked == (if o.PhysPort? then [MapPort(id)] else [])
                         && id in bridge.cache.byPort && (bridge.cache.byPort[id].lag <==> o.LagObj?)
      ensures rc.Ok? ==> && id !in old(bridge.sai.live) && id in bridge.sai.live && bridge.sai.live[id] == o
                         && State().oneQ == old(State()).oneQ + {id} && strays == old(strays)
      ensures !rc.Ok? ==> State().oneQ == old(State()).oneQ && (strays == old(strays) || strays == old(strays) + {id})
      ensures bridge.sai.failures >= old(bridge.sai.failures) && (rc.Ok? <==> bridge.sai.failures == old(bridge.sai.failures))
    {
      hide BrportTable.Valid, CachedAreLive, Homes.Ok, SameOthers;
      ghost var s := State();
      id, asked := NULL_OID, [];
      var r := bridge.sai.Create(o);
      if r.None? {
        return Fail, id, asked;
      }
      id := r.value;
      s.Born(id, o);
      OthersComeAndGo(bridge.cache.byBrport, s.live, id, bridge.sai.live);
      strays := strays + {id};
      if o.PhysPort? {
        var mapped;
        mapped, asked := bridge.Elsewhere(MapPort(id));
        if !mapped {
          return Fail, id, asked;
        }
      }
      ghost var live := bridge.sai.live;
      rc := Enter1Q(id, o.LagObj?);
      OtherStays(live, bridge.sai.live, id);
    }

    method DeletePortObj(port: Oid, o: Obj) returns (rc: Rc)
      requires Valid() && (o.PhysPort? || o.LagObj?)
      modifies this`strays, bridge.cache, bridge.sai
      ensures Valid()
      ensures rc.Ok? ==> && port in old(bridge.cache.byPort) && State().oneQ == old(State()).oneQ - {port}
                         && port !in bridge.sai.live && strays == old(strays)
      ensures !rc.Ok? ==> || (State().oneQ == old(State()).oneQ && strays == old(strays))
                          || (State().oneQ == old(State()).oneQ - {port} && strays == old(strays) + {port})
      ensures bridge.sai.failures >= old(bridge.sai.failures)
      ensures bridge.sai.failures == old(bridge.sai.failures) &&
              (port in old(bridge.cache.byPort) ==> port in old(bridge.sai.live) && SameKind(old(bridge.sai.live)[port], o)) ==>
                (rc.Ok? <==> port in old(bridge.cache.byPort)) && strays == old(strays)
    {
      hide BrportTable.Valid, CachedAreLive, Homes.Ok;
      rc := Leave1Q(port);
      if !rc.Ok? {
        return;
      }
      ghost var s := State();
      s.Gone(port);
      var ok := RemoveAs(port, o);
      if !ok {
        return Cfg;
      }
      strays := strays - {port};
      OthersComeAndGo(bridge.cache.byBrport, s.live, port, bridge.sai.live);
    }

    /** `saiPort` is None when the port table does not know the port. */
    method AddPortsToLag(lag: Oid, saiPort: Option<Oid>) returns (rc: Rc, member: Oid)
      requires Valid()
      modifies this, bridge.cache, bridge.sai
      ensures Valid() && (rc == Ok || rc == Cfg)
      ensures rc.Ok? ==> && saiPort.Some? && saiPort.value in old(bridge.cache.byPort)
                         && State().oneQ == old(State()).oneQ - {saiPort.value}
                         && memberToPort == old(memberToPort)[member := saiPort.value] && strays == old(strays)
                         && member in bridge.sai.live && bridge.sai.live[member] == LagMember(lag, saiPort.value)
      ensures !rc.Ok? ==> memberToPort == old(memberToPort)
      ensures !rc.Ok? ==> || (State().oneQ == old(State()).oneQ && strays == old(strays))
                          || (saiPort.Some? && State().oneQ == old(State()).oneQ - {saiPort.value} &&
                              strays == old(strays) + {saiPort.value})
      ensures bridge.sai.failures >= old(bridge.sai.failures)
      ensures bridge.sai.failures == old(bridge.sai.failures) ==>
                strays == old(strays) && (rc.Ok? <==> saiPort.Some? && saiPort.value in old(bridge.cache.byPort))
    {
      hide BrportTable.Valid, CachedAreLive, Homes.Ok, SameOthers;
      member := NULL_OID;
      if saiPort.None? {
        return Cfg, member;
      }
      rc := Leave1Q(saiPort.value);
      if !rc.Ok? {
        return;
      }
      ghost var s := State();
      var r := bridge.sai.Create(LagMember(lag, saiPort.value));
      if r.None? {
        return Cfg, member;
      }
      member := r.value;
      s.Joins(member, lag, saiPort.value);
      memberToPort := memberToPort[member := saiPort.value];
      strays := strays - {saiPort.value};
      OthersComeAndGo(bridge.cache.byBrport, s.live, member, bridge.sai.live);
    }

    method DelPortsFromLag(member: Oid) returns (rc: Rc)
      requires Valid()
      modifies this, bridge.cache, bridge.sai
      ensures Valid() && (rc == Ok || rc == Cfg)
      ensures rc.Ok? ==> && member in old(memberToPort) && memberToPort == old(memberToPort) - {member}
                         && State().oneQ == old(State()).oneQ + {old(memberToPort)[member]} && strays == old(strays)
      ensures rc.Ok? ==> && old(memberToPort)[member] in bridge.cache.byPort
                         && !bridge.cache.byPort[old(memberToPort)[member]].lag
      ensures !rc.Ok? ==> State().oneQ == old(State()).oneQ
      ensures !rc.Ok? ==> || (strays == old(strays) && memberToPort == old(memberToPort))
                          || (member in old(memberToPort) && strays == old(strays) + {old(memberToPort)[member]}
                              && memberToPort == old(memberToPort) - {member})
      ensures bridge.sai.failures >= old(bridge.sai.failures)
      ensures bridge.sai.failures == old(bridge.sai.failures) ==>
                strays == old(strays) && (rc.Ok? <==> member in old(memberToPort))
    {
      hide BrportTable.Valid, CachedAreLive, Homes.Ok, SameOthers;
      ghost var s := State();
      s.MemberIsLive(member);
      var ok := RemoveAs(member, LagMember(NULL_OID, NULL_OID));
      if !ok {
        return Cfg;
      }
      if member !in memberToPort {
        assert false;  // SAI's LAG members are the keys of the map
      }
      s.Departs(member);
      var port := memberToPort[member];
      memberToPort := memberToPort - {member};
      strays := strays + {port};
      OthersComeAndGo(bridge.cache.byBrport, s.live, member, bridge.sai.live);
      rc := Enter1Q(port, false);
      assert old(strays) + {port} - {port} == old(strays);
    }

    method Step(c: Call) returns (rc: Rc, id: Oid)
      requires Valid()
      modifies this, bridge.cache, bridge.sai
      ensures Valid() && bridge.sai.failures >= old(bridge.sai.failures)
      ensures Stepped(old(State()), c, rc, id, bridge.sai.failures > old(bridge.sai.failures), State())
    {
      hide BrportTable.Valid, CachedAreLive, Homes.Ok;
      ghost var asked;
      id := NULL_OID;
      match c {
        case CreatePort =>
          rc, id, asked := CreatePortObj(PhysPort);
        case CreateLag =>
          rc, id, asked := CreatePortObj(LagObj);
        case DeletePort(p) =>
          State().KindOf1Q(p);
          rc := DeletePortObj(p, if p in bridge.sai.live && bridge.sai.live[p].LagObj? then LagObj else PhysPort);
        case Add(lag, p) =>
          rc, id := AddPortsToLag(lag, p);
        case Del(m) =>
          rc := DelPortsFromLag(m);
      }
    }

    /** Every run of calls, whatever SAI refuses: each step does what its call
        says, no port is in two places, and only a refusal leaves one in neither. */
    method Run(calls: seq<Call>) returns (rcs: seq<Rc>, ids: seq<Oid>, ghost trace: seq<Homes>, ghost refusals: seq<nat>)
      requires Valid()
      modifies this, bridge.cache, bridge.sai
      ensures Valid() && bridge.sai.failures >= old(bridge.sai.failures)
      ensures |rcs| == |ids| == |refusals| == |calls| && |trace| == |calls| + 1
      ensures trace[0] == old(State()) && trace[|calls|] == State()
      ensures forall i | 0 <= i < |calls| :: Stepped(trace[i], calls[i], rcs[i], ids[i], refusals[i] > 0, trace[i + 1])
      ensures Sum(refusals) == bridge.sai.failures - old(bridge.sai.failures)
      ensures bridge.sai.failures == old(bridge.sai.failures) <==> forall i | 0 <= i < |calls| :: refusals[i] == 0
      ensures forall i | 0 <= i <= |calls| :: trace[i].Ok()
      ensures forall p :: !(p in bridge.cache.byPort && State().InLag(p))
      ensures bridge.sai.failures == old(bridge.sai.failures) && old(strays) == {} ==>
                forall p | State().IsPort(p) :: p in bridge.cache.byPort <==> !State().InLag(p)
    {
      hide BrportTable.Valid, CachedAreLive, Homes.Ok, Homes.InLag, Homes.IsPort, Stepped, Sum;
      SumOfNone();
      rcs, ids, trace, refusals := [], [], [State()], [];
      for i := 0 to |calls|
        invariant Valid() && bridge.sai.failures >= old(bridge.sai.failures)
        invariant |rcs| == |ids| == |refusals| == i && |trace| == i + 1
        invariant trace[0] == old(State()) && trace[i] == State()
        invariant forall j | 0 <= j < i :: Stepped(trace[j], calls[j], rcs[j], ids[j], refusals[j] > 0, trace[j + 1])
        invariant Sum(refusals) == bridge.sai.failures - old(bridge.sai.failures)
        invariant forall j | 0 <= j <= i :: trace[j].Ok()
        invariant bridge.sai.failures == old(bridge.sai.failures) ==> strays == old(strays)
      {
        ghost var s, was := State(), bridge.sai.failures;
        var rc, id := Step(calls[i]);
        UnrefusedKeepsStrays(s, calls[i], rc, id, bridge.sai.failures > was, State());
        SumOne(refusals, bridge.sai.failures - was);
        rcs, ids, trace, refusals := rcs + [rc], ids + [id], trace + [State()], refusals + [bridge.sai.failures - was];
      }
      SumIsZero(refusals);
      EachInOnePlace();
    }
  }

  /** What a call does.  A step that SAI does not refuse succeeds exactly for a
      port, or a member, that is where the call takes it from. */
  ghost predicate Stepped(s: Homes, c: Call, rc: Rc, id: Oid, refused: bool, s': Homes) {
    && (rc.Ok? || !refused ==> s'.strays == s.strays)
    && match c
       case CreatePort => Made(s, PhysPort, rc, id, refused, s')
       case CreateLag => Made(s, LagObj, rc, id, refused, s')
       case DeletePort(p) =>
         && s'.members == s.members
         && (if rc.Ok? then p in s.oneQ && s'.oneQ == s.oneQ - {p} && p !in s'.live
             else (s'.oneQ == s.oneQ && s'.strays == s.strays) || (s'.oneQ == s.oneQ - {p} && s'.strays == s.strays + {p}))
         && (!refused ==> (rc.Ok? <==> p in s.oneQ))
       case Add(lag, p) =>
         && (if rc.Ok? then
               && p.Some? && p.value in s.oneQ && s'.oneQ == s.oneQ - {p.value} && s'.members == s.members[id := p.value]
               && id in s'.live && s'.live[id] == LagMember(lag, p.value)
             else
               && s'.members == s.members
               && (|| (s'.oneQ == s.oneQ && s'.strays == s.strays)
                   || (p.Some? && s'.oneQ == s.oneQ - {p.value} && s'.strays == s.strays + {p.value})))
         && (!refused ==> (rc.Ok? <==> p.Some? && p.value in s.oneQ))
       case Del(m) =>
         && (if rc.Ok? then m in s.members && s'.members == s.members - {m} && s'.oneQ == s.oneQ + {s.members[m]}
             else
               && s'.oneQ == s.oneQ
               && (|| (s'.members == s.members && s'.strays == s.strays)
                   || (m in s.members && s'.members == s.members - {m} && s'.strays == s.strays + {s.members[m]})))
         && (!refused ==> (rc.Ok? <==> m in s.members))
  }

  ghost predicate Made(s: Homes, o: Obj, rc: Rc, id: Oid, refused: bool, s': Homes) {
    && s'.members == s.members && (!refused <==> rc.Ok?)
    && if rc.Ok? then id !in s.live && id in s'.live && s'.live[id] == o && s'.oneQ == s.oneQ + {id}
       else s'.oneQ == s.oneQ && (s'.strays == s.strays || s'.strays == s.strays + {id})
  }

  lemma UnrefusedKeepsStrays(s: Homes, c: Call, rc: Rc, id: Oid, refused: bool, s': Homes)
    requires Stepped(s, c, rc, id, refused, s')
    ensures !refused ==> s'.strays == s.strays
  {
  }
}
