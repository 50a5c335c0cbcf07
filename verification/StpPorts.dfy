/** The STP port index of src/nas_ndi_stg.cpp, kept in the keyed multimap: one
    key for each (STP instance, bridge port), and one list for each bridge
    port.  Both encode one relation. */
module StpPorts {
  import opened Types
  import opened NdiMap
  import opened Runs

  datatype Pair = Pair(stp: Oid, br: Oid)

  datatype StpPort = StpPort(stp: Oid, br: Oid, state: int)

  function FwdKey(p: Pair): Key {
    Key(StpPortId, p.stp, p.br)
  }

  function RevKey(br: Oid): Key {
    Key(PortStpPorts, br, NULL_OID)
  }

  function ByPort(m: Oid): Filter {
    Filter(Data(m, NULL_OID), FILTER_VAL1)
  }

  lemma ByPortMatches(m: Oid, d: Data)
    ensures Matches(ByPort(m), d) <==> d.val1 == m
  {
  }

  function AddedEntries(entries: map<Key, seq<Data>>, p: Pair, m: Oid): map<Key, seq<Data>> {
    var fwd := if FwdKey(p) in entries then entries[FwdKey(p)] else [];
    var rev := if RevKey(p.br) in entries then entries[RevKey(p.br)] else [];
    entries[FwdKey(p) := fwd + [Data(m, NULL_OID)]][RevKey(p.br) := rev + [Data(m, p.stp)]]
  }

  function RemovedEntries(entries: map<Key, seq<Data>>, p: Pair, m: Oid): map<Key, seq<Data>> {
    var rest := entries - {FwdKey(p)};
    if RevKey(p.br) in entries then rest[RevKey(p.br) := Reject(entries[RevKey(p.br)], ByPort(m))] else rest
  }

  /** `ports` is the relation: the STP port of each pair that has one.  A bridge
      port in `spoiled` has once been given a second port for a pair; it is
      outside the relation from then on. */
  datatype Index = Index(entries: map<Key, seq<Data>>, ports: map<Pair, Oid>, live: map<Oid, StpPort>, spoiled: set<Oid>) {

    function Rev(br: Oid): seq<Data> {
      if RevKey(br) in entries then entries[RevKey(br)] else []
    }

    /** No STP port serves two pairs. */
    ghost predicate Injective() {
      && (forall p | p in ports :: ports[p] != NULL_OID)
      && (forall p, q | p in ports && q in ports && ports[p] == ports[q] :: p == q)
    }

    ghost predicate Forward() {
      && (forall p | p in ports :: FwdKey(p) in entries && entries[FwdKey(p)] == [Data(ports[p], NULL_OID)])
      && (forall p | FwdKey(p) in entries && p.br !in spoiled :: p in ports)
      && (forall p | p in ports :: p.br !in spoiled)
    }

    /** `d` is the list element that the relation asks for. */
    predicate Asked(br: Oid, d: Data) {
      Pair(d.val2, br) in ports && ports[Pair(d.val2, br)] == d.val1
    }

    ghost predicate Reverse(br: Oid) {
      && (forall d :: d in Rev(br) <==> Asked(br, d))
      && forall i, j | 0 <= i < j < |Rev(br)| :: Rev(br)[i] != Rev(br)[j]
    }

    /** The relation is what SAI holds. */
    ghost predicate InSai() {
      && NULL_OID !in live
      && (forall p | p in ports :: ports[p] in live && live[ports[p]].stp == p.stp && live[ports[p]].br == p.br)
      && (forall m | m in live && live[m].br !in spoiled ::
            Pair(live[m].stp, live[m].br) in ports && ports[Pair(live[m].stp, live[m].br)] == m)
    }

    /** Both indexes encode the relation. */
    ghost predicate Indexed() {
      Injective() && Forward() && forall br | br !in spoiled :: Reverse(br)
    }

    ghost predicate Ok() {
      Indexed() && InSai()
    }

    /** There is at most one STP port for each pair. */
    lemma OnePerPair(m: Oid, n: Oid)
      requires Ok() && m in live && n in live && live[m].stp == live[n].stp && live[m].br == live[n].br
      requires live[m].br !in spoiled
      ensures m == n
    {
    }

    /** Outside the spoiled bridge ports, no two ports in SAI serve one pair. */
    ghost predicate NoPairTwice() {
      forall m, n | m in live && n in live ::
        live[m].stp == live[n].stp && live[m].br == live[n].br && live[m].br !in spoiled ==> m == n
    }

    lemma OkHasNoPairTwice()
      requires Ok()
      ensures NoPairTwice()
    {
      hide Ok;
      forall m, n | m in live && n in live && live[m].stp == live[n].stp && live[m].br == live[n].br
        ensures live[m].br !in spoiled ==> m == n
      {
        if live[m].br !in spoiled {
          OnePerPair(m, n);
        }
      }
    }

    /** What is known of the bridge port is given up. */
    function Spoiled(br: Oid): Index {
      this.(ports := map p | p in ports && p.br != br :: ports[p], spoiled := spoiled + {br})
    }

    /** `r` differs only in what bears the bridge port. */
    ghost predicate SameElsewhere(r: Index, br: Oid) {
      && r.ports == ports && r.spoiled == spoiled && (NULL_OID in r.live ==> NULL_OID in live)
      && (forall p: Pair | p.br != br ::
            (FwdKey(p) in r.entries <==> FwdKey(p) in entries) &&
            (FwdKey(p) in entries ==> r.entries[FwdKey(p)] == entries[FwdKey(p)]))
      && (forall b | b != br :: r.Rev(b) == Rev(b))
      && (forall m | m in r.live && r.live[m].br != br :: m in live && live[m] == r.live[m])
      && (forall m | m in live && live[m].br != br :: m in r.live && live[m] == r.live[m])
    }

    /** Whatever becomes of one bridge port, the others stay as they are. */
    lemma SpoiledOk(r: Index, br: Oid)
      requires Ok() && SameElsewhere(r, br)
      ensures r.Spoiled(br).Ok()
      ensures br in spoiled ==> r.Spoiled(br) == r
    {
      var t := r.Spoiled(br);
      forall b | b !in t.spoiled ensures t.Reverse(b) {
        assert Reverse(b) && t.Rev(b) == Rev(b);
        assert forall d :: t.Asked(b, d) <==> Asked(b, d);
      }
      if br in spoiled {
        assert t.spoiled == r.spoiled && t.ports == r.ports;
      }
    }

    /** A port created in SAI, and added to both indexes. */
    function Added(p: Pair, m: Oid, state: int): Index {
      this.(entries := AddedEntries(entries, p, m), ports := if p.br in spoiled then ports else ports[p := m],
            live := live[m := StpPort(p.stp, p.br, state)])
    }

    lemma AddedReverse(p: Pair, m: Oid, state: int, br: Oid)
      requires Ok() && p !in ports && m !in live && m != NULL_OID && p.br !in spoiled && br !in spoiled
      ensures Added(p, m, state).Reverse(br)
    {
      var r := Added(p, m, state);
      assert Reverse(br);
      if br == p.br {
        assert r.Rev(br) == Rev(br) + [Data(m, p.stp)];
        assert !Asked(br, Data(m, p.stp));
        assert forall d :: r.Asked(br, d) <==> Asked(br, d) || d == Data(m, p.stp);
      } else {
        assert r.Rev(br) == Rev(br);
        assert forall d :: r.Asked(br, d) <==> Asked(br, d);
      }
    }

    lemma AddedIndexed(p: Pair, m: Oid, state: int)
      requires Ok() && p !in ports && m !in live && m != NULL_OID && p.br !in spoiled
      ensures Added(p, m, state).Indexed()
    {
      forall br | br !in spoiled {
        AddedReverse(p, m, state, br);
      }
      assert Added(p, m, state).Injective();
      hide Reverse, Rev;
    }

    lemma AddedElsewhere(p: Pair, m: Oid, state: int, ports': map<Pair, Oid>)
      requires m !in live && m != NULL_OID && ports' == ports
      ensures SameElsewhere(Added(p, m, state).(ports := ports'), p.br)
    {
    }

    lemma AddedKeeps(p: Pair, m: Oid, state: int)
      requires Ok() && p !in ports && m !in live && m != NULL_OID
      ensures Added(p, m, state).Ok()
    {
      if p.br in spoiled {
        AddedElsewhere(p, m, state, ports);
        SpoiledOk(Added(p, m, state), p.br);
      } else {
        AddedIndexed(p, m, state);
        hide Indexed, AddedEntries;
      }
    }

    /** A port made in SAI and entered in both indexes, whether or not the pair has
        one already. */
    function PortMade(p: Pair, m: Oid, state: int): Index {
      if p in ports then Added(p, m, state).Spoiled(p.br) else Added(p, m, state)
    }

    /** A second port for a pair cannot be indexed: no relation fits the two
        indexes any more. */
    lemma SecondPortBreaks(p: Pair, m: Oid, state: int, ports': map<Pair, Oid>)
      requires Indexed() && p in ports
      ensures !Added(p, m, state).(ports := ports').Indexed()
    {
      var r := Added(p, m, state).(ports := ports');
      assert |r.entries[FwdKey(p)]| == 2;
    }

    /** The other bridge ports survive it. */
    lemma SecondPortSpoils(p: Pair, m: Oid, state: int)
      requires Ok() && m !in live && m != NULL_OID
      ensures Added(p, m, state).Spoiled(p.br).Ok()
    {
      hide Ok, SameElsewhere, AddedEntries;
      var r := Added(p, m, state).(ports := ports);
      AddedElsewhere(p, m, state, ports);
      SpoiledOk(r, p.br);
      assert r.Spoiled(p.br).ports == Added(p, m, state).Spoiled(p.br).ports;
    }

    /** A port gone from SAI and from both indexes; the list of its bridge port
        stays, if only empty. */
    function Removed(p: Pair): Index
      requires p in ports
    {
      this.(entries := RemovedEntries(entries, p, ports[p]), ports := ports - {p}, live := live - {ports[p]})
    }

    lemma RemovedReverse(p: Pair, br: Oid)
      requires Indexed() && p in ports && br !in spoiled
      ensures Removed(p).Reverse(br)
    {
      hide Matches, ByPort;
      var r := Removed(p);
      assert Reverse(br);
      if br == p.br {
        var f := ByPort(ports[p]);
        assert r.Rev(br) == Reject(Rev(br), f);
        RejectMembers(Rev(br), f);
        RejectNoRepeat(Rev(br), f);
        forall d ensures d in r.Rev(br) <==> r.Asked(br, d) {
          ByPortMatches(ports[p], d);
        }
      } else {
        assert r.Rev(br) == Rev(br);
        assert forall d :: r.Asked(br, d) <==> Asked(br, d);
      }
    }

    lemma RemovedIndexed(p: Pair)
      requires Indexed() && p in ports
      ensures Removed(p).Indexed()
    {
      forall br | br !in spoiled {
        RemovedReverse(p, br);
      }
      hide Reverse, Rev, Reject, ByPort;
      assert Removed(p).Forward();
    }

    lemma RemovedKeeps(p: Pair)
      requires Ok() && p in ports
      ensures Removed(p).Ok()
    {
      RemovedIndexed(p);
      hide Forward, Reverse, RemovedEntries;
    }

    /** Erasing a pair that has no port changes nothing. */
    lemma NothingToRemove(p: Pair)
      requires Indexed() && p !in ports && p.br !in spoiled
      ensures RemovedEntries(entries, p, NULL_OID) == entries
    {
      hide Matches, ByPort;
      assert Reverse(p.br);
      RejectNothing(Rev(p.br), ByPort(NULL_OID));
      forall d | d in Rev(p.br) ensures !Matches(ByPort(NULL_OID), d) {
        ByPortMatches(NULL_OID, d);
        assert Asked(p.br, d);
      }
      assert FwdKey(p) !in entries;
      assert entries - {FwdKey(p)} == entries;
    }

    /** The i-th listed port is that of its pair, and no earlier one is. */
    lemma ListedPort(br: Oid, i: nat)
      requires Ok() && i < |Rev(br)| && br !in spoiled
      ensures Asked(br, Rev(br)[i]) && Pair(Rev(br)[i].val2, br) !in PairsOf(br, Rev(br)[..i])
    {
      assert Reverse(br) && Rev(br)[i] in Rev(br);
      forall d | d in Rev(br)[..i] ensures d.val2 != Rev(br)[i].val2 {
        assert d in Rev(br) && Asked(br, d);
      }
    }

    /** Every pair of the bridge port is listed. */
    lemma AllListed(br: Oid)
      requires Ok() && br !in spoiled
      ensures forall p :: p in PairsOf(br, Rev(br)) <==> p in ports && p.br == br
    {
      assert Reverse(br);
      forall p | p in ports && p.br == br ensures p in PairsOf(br, Rev(br)) {
        assert Asked(br, Data(ports[p], p.stp));
      }
    }

    lemma StillIndexed(live': map<Oid, StpPort>)
      requires Indexed()
      ensures this.(live := live').Indexed()
    {
      var r := this.(live := live');
      forall br | br !in spoiled ensures r.Reverse(br) {
        assert Reverse(br) && r.Rev(br) == Rev(br);
        assert forall d :: r.Asked(br, d) <==> Asked(br, d);
      }
    }

    lemma RemovedLive(p: Pair, live': map<Oid, StpPort>)
      requires p in ports && live' == live - {ports[p]}
      ensures this.(live := live').Removed(p).(live := live') == Removed(p)
      ensures Removed(p).ports == ports - {p} && Removed(p).spoiled == spoiled && Removed(p).live == live'
    {
    }

    lemma PairOfPort(m: Oid)
      requires Ok() && m in live && live[m].br !in spoiled
      ensures Pair(live[m].stp, live[m].br) in ports && ports[Pair(live[m].stp, live[m].br)] == m
    {
    }

    lemma NoPortsOf(stp: Oid)
      requires Ok() && forall m | m in live :: live[m].stp != stp
      ensures forall p | p in ports :: p.stp != stp
    {
    }

    lemma OtherList(p: Pair, b: Oid)
      requires p in ports && b != p.br
      ensures Removed(p).Rev(b) == Rev(b)
    {
    }

    /** The indexes do not depend on what is live. */
    lemma IndexedWith(p: Pair, live': map<Oid, StpPort>)
      requires p in ports && Removed(p).Indexed()
      ensures Removed(p).(live := live').Indexed()
    {
      var r, r' := Removed(p), Removed(p).(live := live');
      forall br | br !in spoiled ensures r'.Reverse(br) {
        assert r.Reverse(br) && r'.Rev(br) == r.Rev(br);
        assert forall d :: r'.Asked(br, d) <==> r.Asked(br, d);
      }
    }

    /** Erasing what the indexes hold for a pair touches nothing else. */
    lemma RemovedElsewhere(p: Pair, m: Oid, live': map<Oid, StpPort>)
      requires live' == live || exists x :: x in live && live[x].br == p.br && live' == live - {x}
      ensures SameElsewhere(this.(entries := RemovedEntries(entries, p, m), live := live'), p.br)
    {
      hide Reject;
    }

    /** A port removed from SAI under a stale id takes its bridge port along. */
    lemma VictimSpoils(m: Oid)
      requires Ok() && m in live
      ensures this.(live := live - {m}).Spoiled(live[m].br).Ok()
    {
      SpoiledOk(this.(live := live - {m}), live[m].br);
    }

    lemma NotSpoiled(p: Pair)
      requires Indexed() && p in ports
      ensures p.br !in spoiled
    {
    }

    lemma NullNotLive()
      requires Ok()
      ensures NULL_OID !in live
    {
    }

    lemma OkIsIndexed()
      requires Ok()
      ensures Indexed()
    {
    }

    lemma VictimInSpoiled(m: Oid)
      requires Ok() && m in live
      ensures live[m].br in spoiled ==>
                this.(live := live - {m}).Spoiled(live[m].br) == this.(live := live - {m})
    {
      SpoiledOk(this.(live := live - {m}), live[m].br);
    }

    /** SAI makes a default port for a bridge port that has it already. */
    predicate Spoils(defaultStp: Oid, c: Call, ok: bool) {
      c.CreateDefault? && ok && Pair(defaultStp, c.br) in ports
    }

    lemma PortsLive(p: Pair)
      requires Ok()
      ensures p in ports ==> && ports[p] in live && ports[p] != NULL_OID
                             && live[ports[p]].stp == p.stp && live[ports[p]].br == p.br
    {
    }

    function StateSet(m: Oid, state: int): Index
      requires m in live
    {
      this.(live := live[m := live[m].(state := state)])
    }

    /** Only the state of a port changes. */
    lemma StateSetKeeps(m: Oid, state: int)
      requires Ok() && m in live
      ensures StateSet(m, state).Ok()
    {
      var r := StateSet(m, state);
      forall br | br !in spoiled ensures r.Reverse(br) {
        assert Reverse(br) && r.Rev(br) == Rev(br);
        assert forall d :: r.Asked(br, d) <==> Asked(br, d);
      }
    }
  }

  function PairsOf(br: Oid, list: seq<Data>): set<Pair> {
    set d | d in list :: Pair(d.val2, br)
  }

  lemma NoPairs(br: Oid)
    ensures PairsOf(br, []) == {}
  {
  }

  lemma PairsSnoc(br: Oid, list: seq<Data>, d: Data)
    ensures PairsOf(br, list + [d]) == PairsOf(br, list) + {Pair(d.val2, br)}
  {
  }

  lemma {:induction false} RejectNoRepeat(s: seq<Data>, f: Filter)
    requires forall i, j | 0 <= i < j < |s| :: s[i] != s[j]
    ensures forall i, j | 0 <= i < j < |Reject(s, f)| :: Reject(s, f)[i] != Reject(s, f)[j]
  {
    if s != [] {
      RejectNoRepeat(s[1..], f);
      RejectMembers(s[1..], f);
      var r := Reject(s[1..], f);
      forall i | 0 <= i < |r| ensures r[i] != s[0] {
        assert r[i] in s[1..];
      }
    }
  }

  datatype Call =
    | CreateDefault(br: Oid)
    | SetState(stp: Oid, br: Oid, state: int)
    | DeletePort(br: Oid)
    | DeleteStp(stp: Oid)

  /** The state of a default port. */
  const FORWARDING := 2

  class StgPorts {
    const map_: Multimap
    const sai: Store<StpPort>
    const defaultStp: Oid
    ghost var ports: map<Pair, Oid>
    ghost var spoiled: set<Oid>

    constructor (defaultStp: Oid)
      ensures Valid() && fresh(map_) && fresh(sai) && State() == Index(map[], map[], map[], {})
      ensures this.defaultStp == defaultStp && sai.failures == 0
    {
      map_ := new Multimap();
      sai := new Store<StpPort>();
      this.defaultStp, ports, spoiled := defaultStp, map[], {};
    }

    ghost function State(): Index
      reads this, map_, sai
    {
      Index(map_.entries, ports, sai.live, spoiled)
    }

    ghost predicate Valid()
      reads this, map_, sai
    {
      State().Ok()
    }

    method GetStpPortId(stp: Oid, br: Oid) returns (m: Oid)
      requires State().Indexed()
      ensures br !in spoiled ==> m == if Pair(stp, br) in ports then ports[Pair(stp, br)] else NULL_OID
    {
      m := NULL_OID;
      var rc, _, data := map_.Get(FwdKey(Pair(stp, br)), 1);
      if rc.Ok? && |data| > 0 {
        m := data[0].val1;
      }
    }

    method AddPortToCache(stp: Oid, br: Oid, m: Oid)
      modifies map_
      ensures map_.entries == AddedEntries(old(map_.entries), Pair(stp, br), m)
    {
      map_.Insert(FwdKey(Pair(stp, br)), [Data(m, NULL_OID)]);
      map_.Insert(RevKey(br), [Data(m, stp)]);
    }

    /** SAI has removed the pair's port already, if it had one. */
    method DelPortFromCache(stp: Oid, br: Oid) returns (ghost m: Oid)
      requires State().Indexed()
      modifies map_, this`ports
      ensures var s, p := old(State()), Pair(stp, br);
              if p in s.ports then State() == s.Removed(p).(live := s.live) && State().Indexed()
              else if br !in s.spoiled then State() == s
              else State() == s.(entries := RemovedEntries(s.entries, p, m))
    {
      hide Index.Indexed, Reject, ByPort;
      ghost var s, p := State(), Pair(stp, br);
      var id := GetStpPortId(stp, br);
      m := id;
      map_.Delete(FwdKey(Pair(stp, br)));
      map_.DeleteElements(RevKey(br), ByPort(id));
      assert map_.entries == RemovedEntries(s.entries, p, m);
      if p in ports {
        s.NotSpoiled(p);
        s.RemovedIndexed(p);
        s.IndexedWith(p, s.live);
        ports := ports - {p};
      } else if br !in spoiled {
        s.NothingToRemove(p);
      }
    }

    /** Never asks whether the pair has a port already.  If it has, the bridge
        port is spoiled: its part of the indexes fits no relation any more. */
    method CreateStpPort(stp: Oid, br: Oid, state: int) returns (ok: bool, ghost m: Oid)
      requires Valid()
      modifies map_, sai, this`ports, this`spoiled
      ensures Valid()
      ensures var s, p := old(State()), Pair(stp, br);
              && (!ok ==> State() == s)
              && (ok ==> m !in s.live && m != NULL_OID &&
                         State() == if p in s.ports then s.Added(p, m, state).Spoiled(br) else s.Added(p, m, state))
      ensures sai.live == if ok then old(sai.live)[m := StpPort(stp, br, state)] else old(sai.live)
      ensures ok && Pair(stp, br) in old(ports) ==>
                forall ports' :: !old(State()).Added(Pair(stp, br), m, state).(ports := ports').Indexed()
      ensures sai.failures >= old(sai.failures) && (ok <==> sai.failures == old(sai.failures))
    {
      hide Index.Ok, Index.Indexed, AddedEntries;
      ghost var s, p := State(), Pair(stp, br);
      m := NULL_OID;
      var r := sai.Create(StpPort(stp, br, state));
      if r.None? {
        return false, m;
      }
      m := r.value;
      s.NullNotLive();
      s.OkIsIndexed();
      AddPortToCache(stp, br, r.value);
      if p in s.ports {
        s.SecondPortSpoils(p, m, state);
        forall ports' ensures !s.Added(p, m, state).(ports := ports').Indexed() {
          s.SecondPortBreaks(p, m, state, ports');
        }
        ports, spoiled := s.Added(p, m, state).Spoiled(br).ports, spoiled + {br};
      } else {
        s.AddedKeeps(p, m, state);
        ports := s.Added(p, m, state).ports;
      }
      ok := true;
    }

    /** The port that a new 1Q bridge port gets. */
    method CreateDefaultStpPort(br: Oid) returns (ok: bool, ghost m: Oid)
      requires Valid()
      modifies map_, sai, this`ports, this`spoiled
      ensures Valid()
      ensures spoiled == if ok && Pair(defaultStp, br) in old(ports) then old(spoiled) + {br} else old(spoiled)
      ensures ok && br !in spoiled ==> ports.Keys == old(ports).Keys + {Pair(defaultStp, br)}
      ensures !ok ==> State() == old(State())
      ensures sai.live == if ok then old(sai.live)[m := StpPort(defaultStp, br, FORWARDING)] else old(sai.live)
      ensures ok ==> m !in old(sai.live) && State() == old(State()).PortMade(Pair(defaultStp, br), m, FORWARDING)
      ensures sai.failures >= old(sai.failures) && (ok <==> sai.failures == old(sai.failures))
    {
      hide Index.Ok, Index.Indexed, AddedEntries;
      ok, m := CreateStpPort(defaultStp, br, FORWARDING);
    }

    /** Setting the state of a port that SAI does not know fails. */
    method SetInSai(m: Oid, state: int) returns (ok: bool)
      modifies sai
      ensures ok ==> m in old(sai.live) && sai.live == old(sai.live)[m := old(sai.live)[m].(state := state)]
      ensures !ok ==> sai.live == old(sai.live)
      ensures sai.failures >= old(sai.failures) && (ok ==> sai.failures == old(sai.failures))
      ensures m in old(sai.live) ==> (ok <==> sai.failures == old(sai.failures))
    {
      if m !in sai.live {
        return false;
      }
      ok := sai.Set(m, sai.live[m].(state := state));
    }

    /** Creates the port on first use and sets its state after that. */
    method SetStpPortState(stp: Oid, br: Oid, state: int) returns (rc: Rc, ghost m: Oid)
      requires Valid()
      modifies map_, sai, this`ports, this`spoiled
      ensures Valid() && (rc == Ok || rc == Fail) && spoiled == old(spoiled)
      ensures rc == Fail ==> State() == old(State())
      ensures rc.Ok? ==> || (m in old(sai.live) && State() == old(State()).StateSet(m, state))
                         || (m !in old(sai.live) && State() == old(State()).Added(Pair(stp, br), m, state))
      ensures rc.Ok? ==> sai.live == if m in old(sai.live) then old(sai.live)[m := old(sai.live)[m].(state := state)]
                                     else old(sai.live)[m := StpPort(stp, br, state)]
      ensures rc.Ok? && br !in spoiled ==>
                && Pair(stp, br) in ports && ports[Pair(stp, br)] == m
                && m in sai.live && sai.live[m] == StpPort(stp, br, state)
                && (m in old(sai.live) <==> Pair(stp, br) in old(ports))
      ensures sai.failures >= old(sai.failures) && (rc.Ok? ==> sai.failures == old(sai.failures))
      ensures br !in spoiled ==> (rc.Ok? <==> sai.failures == old(sai.failures))
    {
      hide Index.Ok, Index.Indexed, AddedEntries;
      ghost var s := State();
      s.OkIsIndexed();
      s.PortsLive(Pair(stp, br));
      var id := GetStpPortId(stp, br);
      m := id;
      if id == NULL_OID {
        if Pair(stp, br) in ports {
          s.NotSpoiled(Pair(stp, br));
        }
        var ok;
        ok, m := CreateStpPort(stp, br, state);
        rc := if ok then Ok else Fail;
      } else {
        var ok := SetInSai(id, state);
        if !ok {
          return Fail, m;
        }
        s.StateSetKeeps(m, state);
        rc := Ok;
      }
    }

    /** Completes a removal: `before` is the state before SAI removed `m`.  For a
        spoiled bridge port, the id may by now be that of another bridge port's
        port, which then is spoiled too. */
    method RemoveFromCache(stp: Oid, br: Oid, ghost m: Oid, ghost before: Index)
      requires before.Ok() && m in before.live && State() == before.(live := before.live - {m})
      requires br in before.spoiled || (Pair(stp, br) in before.ports && before.ports[Pair(stp, br)] == m)
      modifies map_, this`ports, this`spoiled
      ensures Valid() && sai.live == before.live - {m}
      ensures if br in before.spoiled then spoiled == before.spoiled + {before.live[m].br}
              else && State() == before.Removed(Pair(stp, br)) && spoiled == before.spoiled
                   && ports == before.ports - {Pair(stp, br)}
      ensures br in before.spoiled && before.live[m].br == br ==> ports == before.ports
      ensures forall b | b != br :: State().Rev(b) == before.Rev(b)
    {
      hide Index.Ok, Index.Indexed, RemovedEntries, Index.Removed;
      ghost var p, mid := Pair(stp, br), State();
      if br in before.spoiled {
        mid := State().Spoiled(before.live[m].br);
        before.VictimSpoils(m);
        mid.OkIsIndexed();
        ports, spoiled := mid.ports, mid.spoiled;
      } else {
        before.RemovedKeeps(p);
        before.OkIsIndexed();
        before.StillIndexed(sai.live);
        before.RemovedLive(p, sai.live);
      }
      ghost var id := DelPortFromCache(stp, br);
      if br in before.spoiled {
        if p in mid.ports {
          mid.NotSpoiled(p);
        }
        mid.RemovedElsewhere(p, id, mid.live);
        mid.SpoiledOk(State(), br);
        if before.live[m].br == br {
          before.VictimInSpoiled(m);
        }
      } else {
        forall b | b != br ensures State().Rev(b) == before.Rev(b) {
          before.OtherList(p, b);
        }
      }
    }

    /** One listed port: out of SAI and, if SAI agrees, out of the cache. */
    method DeleteListed(br: Oid, d: Data) returns (removed: bool)
      requires Valid() && (br !in spoiled ==> State().Asked(br, d))
      modifies map_, sai, this`ports, this`spoiled
      ensures Valid() && old(spoiled) <= spoiled
      ensures br !in old(spoiled) ==>
                && spoiled == old(spoiled)
                && ports == (if removed then old(ports) - {Pair(d.val2, br)} else old(ports))
                && sai.failures == old(sai.failures) + (if removed then 0 else 1)
      ensures forall b | b != br :: State().Rev(b) == old(State()).Rev(b)
      ensures sai.failures >= old(sai.failures)
    {
      hide Index.Ok, Index.Removed, Index.Indexed, RemovedEntries;
      ghost var now, p := State(), Pair(d.val2, br);
      now.PortsLive(p);
      removed := sai.Remove(d.val1);
      if removed {
        RemoveFromCache(d.val2, br, d.val1, now);
      }
    }

    /** Deletes the STP ports of a bridge port.  A port whose removal SAI refuses
        is passed over. */
    method DeletePortStpPorts(br: Oid) returns (rc: Rc, ghost gone: set<Pair>, ghost refused: set<Pair>)
      requires Valid()
      modifies map_, sai, this`ports, this`spoiled
      ensures Valid() && rc.Ok? && old(spoiled) <= spoiled
      ensures br !in old(spoiled) ==>
                && spoiled == old(spoiled) && ports == old(ports) - gone && gone !! refused
                && (forall p :: p in gone + refused <==> p in old(ports) && p.br == br)
                && (sai.failures == old(sai.failures) <==> refused == {})
      ensures forall b | b != br :: State().Rev(b) == old(State()).Rev(b)
      ensures sai.failures >= old(sai.failures)
    {
      hide Index.Ok, PairsOf, Index.Removed, Index.Indexed;
      ghost var s := State();
      gone, refused, rc := {}, {}, Ok;
      if br !in s.spoiled {
        s.AllListed(br);
      }
      assert s.ports - {} == s.ports;
      var got, count := map_.GetValCount(RevKey(br));
      if count == 0 {
        assert s.Rev(br) == [];
        NoPairs(br);
        return;
      }
      var _, _, data := map_.Get(RevKey(br), count);
      assert data[..0] == [] && data == s.Rev(br);
      hide Index.Rev, Index.Asked;
      NoPairs(br);
      for i := 0 to count
        invariant Valid() && s.spoiled <= spoiled && sai.failures >= old(sai.failures)
        invariant br !in s.spoiled ==>
                    && spoiled == s.spoiled && ports == s.ports - gone && gone !! refused
                    && gone + refused == PairsOf(br, data[..i])
                    && (sai.failures == old(sai.failures) <==> refused == {})
        invariant forall b | b != br :: State().Rev(b) == s.Rev(b)
      {
        if br !in s.spoiled {
          s.ListedPort(br, i);
        }
        PairsSnoc(br, data[..i], data[i]);
        assert data[..i + 1] == data[..i] + [data[i]];
        var removed := DeleteListed(br, data[i]);
        if removed {
          gone := gone + {Pair(data[i].val2, br)};
        } else {
          refused := refused + {Pair(data[i].val2, br)};
        }
      }
      assert data[..count] == data;
    }

    /** SAI's list of the ports of an STP instance, in some order. */
    method PortList(stp: Oid) returns (ok: bool, list: seq<Oid>)
      modifies sai`failures
      ensures ok <==> sai.failures == old(sai.failures)
      ensures sai.failures >= old(sai.failures)
      ensures forall i, j | 0 <= i < j < |list| :: list[i] != list[j]
      ensures ok ==> forall m :: m in list <==> m in sai.live && sai.live[m].stp == stp
    {
      ok, list := *, [];
      if !ok {
        sai.failures := sai.failures + 1;
        return;
      }
      var left := set m | m in sai.live && sai.live[m].stp == stp;
      while left != {}
        invariant forall m :: m in list || m in left <==> m in sai.live && sai.live[m].stp == stp
        invariant forall m :: m in list ==> m !in left
        invariant forall i, j | 0 <= i < j < |list| :: list[i] != list[j]
        invariant sai.failures == old(sai.failures)
        decreases left
      {
        var m :| m in left;
        list, left := list + [m], left - {m};
      }
    }

    /** Deletes all ports of an STP instance, as SAI lists them, until SAI
        refuses something. */
    method DeleteAllStpPorts(stp: Oid) returns (rc: Rc, ghost gone: set<Pair>)
      requires Valid()
      modifies map_, sai, this`ports, this`spoiled
      ensures Valid() && (rc == Ok || rc == Fail) && spoiled == old(spoiled)
      ensures ports == old(ports) - gone && forall p | p in gone :: p in old(ports) && p.stp == stp
      ensures rc.Ok? ==> (forall p | p in ports :: p.stp != stp) && forall m | m in sai.live :: sai.live[m].stp != stp
      ensures sai.failures >= old(sai.failures) && (rc.Ok? <==> sai.failures == old(sai.failures))
    {
      hide Index.Ok, Index.Removed, Index.Indexed;
      ghost var s := State();
      gone := {};
      assert s.ports - {} == s.ports;
      var ok, list := PortList(stp);
      if !ok {
        return Fail, gone;
      }
      for i := 0 to |list|
        invariant Valid() && ports == s.ports - gone && spoiled == s.spoiled
        invariant forall p | p in gone :: p in s.ports && p.stp == stp
        invariant forall m :: m in sai.live && sai.live[m].stp == stp <==> m in list[i..]
        invariant sai.failures == old(sai.failures)
      {
        ghost var now := State();
        assert list[i..] == [list[i]] + list[i + 1..];
        var attrs := sai.Get(list[i]);
        if attrs.None? {
          return Fail, gone;
        }
        var removed := sai.Remove(list[i]);
        if !removed {
          return Fail, gone;
        }
        if attrs.value.br !in spoiled {
          now.PairOfPort(list[i]);
          gone := gone + {Pair(attrs.value.stp, attrs.value.br)};
        }
        RemoveFromCache(attrs.value.stp, attrs.value.br, list[i], now);
      }
      State().NoPortsOf(stp);
      rc := Ok;
    }

    method Step(c: Call) returns (ok: bool, ghost m: Oid)
      requires Valid()
      modifies map_, sai, this`ports, this`spoiled
      ensures Valid() && sai.failures >= old(sai.failures)
      ensures Stepped(old(State()), defaultStp, c, ok, m, sai.failures > old(sai.failures), State())
    {
      hide Index.Ok, Index.PortMade, Index.Added, Index.StateSet;
      m := NULL_OID;
      ghost var s := State();
      match c {
        case CreateDefault(br) =>
          ok, m := CreateDefaultStpPort(br);
        case SetState(stp, br, state) =>
          var rc;
          rc, m := SetStpPortState(stp, br, state);
          ok := rc.Ok?;
        case DeletePort(br) =>
          var rc;
          ghost var gone, refused;
          rc, gone, refused := DeletePortStpPorts(br);
          ok := rc.Ok?;
          if br !in s.spoiled && refused != {} {
            ghost var p :| p in refused;
            assert p in gone + refused && p in ports && p.br == br;
          }
        case DeleteStp(stp) =>
          var rc;
          ghost var gone;
          rc, gone := DeleteAllStpPorts(stp);
          ok := rc.Ok?;
      }
    }

    /** Every run of calls, whatever SAI refuses: each step does what its call
        says; outside the spoiled bridge ports there is at most one STP port for
        each pair, and both indexes encode what SAI holds.  The first bridge port
        is spoiled exactly when SAI makes a default port for one that has it
        already. */
    method Run(calls: seq<Call>) returns (oks: seq<bool>, ghost ids: seq<Oid>, ghost trace: seq<Index>, ghost refusals: seq<nat>)
      requires Valid() && spoiled == {}
      modifies map_, sai, this`ports, this`spoiled
      ensures Valid() && |oks| == |ids| == |refusals| == |calls| && |trace| == |calls| + 1
      ensures trace[0] == old(State()) && trace[|calls|] == State()
      ensures forall i | 0 <= i < |calls| ::
                Stepped(trace[i], defaultStp, calls[i], oks[i], ids[i], refusals[i] > 0, trace[i + 1])
      ensures Sum(refusals) == sai.failures - old(sai.failures)
      ensures sai.failures == old(sai.failures) <==> forall i | 0 <= i < |calls| :: refusals[i] == 0
      ensures forall i | 0 <= i <= |calls| :: trace[i].Ok()
      ensures (forall i | 0 <= i <= |calls| :: trace[i].spoiled == {}) <==>
              forall i | 0 <= i < |calls| :: !trace[i].Spoils(defaultStp, calls[i], oks[i])
      ensures State().NoPairTwice()
    {
      hide Index.Ok, Index.Spoils, Index.NoPairTwice, Stepped, Sum;
      SumOfNone();
      oks, ids, trace, refusals := [], [], [State()], [];
      for i := 0 to |calls|
        invariant Valid() && |oks| == |ids| == |refusals| == i && |trace| == i + 1
        invariant trace[0] == old(State()) && trace[i] == State()
        invariant forall j | 0 <= j < i ::
                    Stepped(trace[j], defaultStp, calls[j], oks[j], ids[j], refusals[j] > 0, trace[j + 1])
        invariant sai.failures >= old(sai.failures)
        invariant Sum(refusals) == sai.failures - old(sai.failures)
        invariant forall j | 0 <= j <= i :: trace[j].Ok()
      {
        ghost var was := sai.failures;
        var ok;
        ghost var m;
        ok, m := Step(calls[i]);
        SumOne(refusals, sai.failures - was);
        oks, ids, trace, refusals := oks + [ok], ids + [m], trace + [State()], refusals + [sai.failures - was];
      }
      SumIsZero(refusals);
      CleanUntilSpoiled(trace, defaultStp, calls, oks, ids, refusals);
      State().OkHasNoPairTwice();
    }
  }

  /** What a call does; `m` is the port made or set.  For a bridge port that is
      not spoiled, a step that SAI does not refuse does all it is asked for. */
  ghost predicate Stepped(s: Index, defaultStp: Oid, c: Call, ok: bool, m: Oid, refused: bool, s': Index) {
    match c
    case CreateDefault(br) =>
      && (ok <==> !refused)
      && if ok then m !in s.live && s' == s.PortMade(Pair(defaultStp, br), m, FORWARDING) else s' == s
    case SetState(stp, br, state) =>
      && (if !ok then s' == s
          else if m in s.live then s' == s.StateSet(m, state)
          else s' == s.Added(Pair(stp, br), m, state))
      && (br !in s.spoiled ==>
            && (ok <==> !refused)
            && (ok ==> Pair(stp, br) in s'.ports && s'.ports[Pair(stp, br)] == m && (m in s.live <==> Pair(stp, br) in s.ports)))
      && s'.spoiled == s.spoiled
    case DeletePort(br) =>
      && ok && s.spoiled <= s'.spoiled && (forall b | b != br :: s'.Rev(b) == s.Rev(b))
      && (br !in s.spoiled ==>
            && s'.spoiled == s.spoiled && FewerPorts(s, s')
            && (forall p | p in s.ports && p.br != br :: p in s'.ports)
            && (!refused <==> forall p | p in s'.ports :: p.br != br))
    case DeleteStp(stp) =>
      && (ok <==> !refused) && s'.spoiled == s.spoiled && FewerPorts(s, s')
      && (forall p | p in s.ports && p.stp != stp :: p in s'.ports)
      && (ok ==> (forall p | p in s'.ports :: p.stp != stp) && forall q | q in s'.live :: s'.live[q].stp != stp)
  }

  ghost predicate FewerPorts(s: Index, s': Index) {
    forall p | p in s'.ports :: p in s.ports && s'.ports[p] == s.ports[p]
  }

  lemma FirstSpoiled(s: Index, defaultStp: Oid, c: Call, ok: bool, m: Oid, refused: bool, s': Index)
    requires Stepped(s, defaultStp, c, ok, m, refused, s')
    ensures s.spoiled == {} ==> (s'.spoiled == {} <==> !s.Spoils(defaultStp, c, ok))
  {
  }

  lemma CleanUntilSpoiled(trace: seq<Index>, stp: Oid, calls: seq<Call>, oks: seq<bool>, ids: seq<Oid>, refusals: seq<nat>)
    requires |trace| == |calls| + 1 && |oks| == |ids| == |refusals| == |calls| && trace[0].spoiled == {}
    requires forall i | 0 <= i < |calls| ::
               Stepped(trace[i], stp, calls[i], oks[i], ids[i], refusals[i] > 0, trace[i + 1])
    ensures (forall i | 0 <= i <= |calls| :: trace[i].spoiled == {}) <==>
            forall i | 0 <= i < |calls| :: !trace[i].Spoils(stp, calls[i], oks[i])
  {
    hide Index.Spoils, Stepped;
    var n := |calls|;
    forall i | 0 <= i < n && trace[i].spoiled == {}
      ensures trace[i + 1].spoiled == {} <==> !trace[i].Spoils(stp, calls[i], oks[i])
    {
      FirstSpoiled(trace[i], stp, calls[i], oks[i], ids[i], refusals[i] > 0, trace[i + 1]);
    }
    var holds := seq(n + 1, i requires 0 <= i <= n => trace[i].spoiled == {});
    var breaks := seq(n, i requires 0 <= i < n => trace[i].Spoils(stp, calls[i], oks[i]));
    assert forall i | 0 <= i <= n :: trace[i].spoiled == {} <==> holds[i];
    assert forall i | 0 <= i < n :: trace[i].Spoils(stp, calls[i], oks[i]) <==> breaks[i];
    HoldsUntilBroken(holds, breaks, n);
  }

  /** How a bridge port comes to be spoiled: SAI refuses to remove its default
      STP port, the deletion reports success all the same, and a new bridge port
      is given the same id. */
  method PassedOverPort(defaultStp: Oid, br: Oid)
    returns (stg: StgPorts, made: bool, deleted: Rc, again: bool, ghost refused: set<Pair>, ghost left: Index)
    ensures fresh(stg) && stg.Valid() && deleted.Ok?
    ensures made && again ==> (br in stg.spoiled <==> refused == {Pair(defaultStp, br)})
    ensures made ==> refused == {} || refused == {Pair(defaultStp, br)}
    ensures made ==> (refused == {} <==> Pair(defaultStp, br) !in left.ports) && left.spoiled == {}
    ensures stg.sai.failures == 0 ==> made && again && refused == {} && stg.State().ports.Keys == {Pair(defaultStp, br)}
  {
    hide Index.Ok, Index.Indexed;
    stg := new StgPorts(defaultStp);
    ghost var m, gone;
    made, m := stg.CreateDefaultStpPort(br);
    deleted, gone, refused := stg.DeletePortStpPorts(br);
    left := stg.State();
    again, m := stg.CreateDefaultStpPort(br);
  }
}
