/** The port table of src/nas_ndi_port_map.cpp, one slot for each NPU port, and
    the map from SAI port back to the slot. */
module PortMap {
  import opened Types
  import opened Runs

  /** A deleted slot keeps its SAI port. */
  datatype Slot = Slot(saiPort: Oid, hwportCount: nat, hwports: seq<nat>, active: bool, cpu: bool)

  const EMPTY_SLOT: Slot := Slot(NULL_OID, 0, [], false, false)

  datatype Loc = Loc(npu: nat, port: nat)

  const SIZE_MAX: nat := 0xFFFF_FFFF_FFFF_FFFF

  /** The rows of the table, grown with empty slots up to index `i`. */
  function Grown(row: seq<Slot>, i: nat): (r: seq<Slot>)
    ensures |r| == if i < |row| then |row| else i + 1
    ensures forall k | 0 <= k < |r| :: r[k] == if k < |row| then row[k] else EMPTY_SLOT
  {
    if i < |row| then row else row + seq(i + 1 - |row|, _ => EMPTY_SLOT)
  }

  datatype Ports = Ports(table: seq<seq<Slot>>, saiMap: map<Oid, Loc>) {

    predicate InRange(l: Loc) {
      l.npu < |table| && l.port < |table[l.npu]|
    }

    function At(l: Loc): Slot
      requires InRange(l)
    {
      table[l.npu][l.port]
    }

    /** Active slots and the map are inverse to each other. */
    ghost predicate Inverse() {
      && (forall l | InRange(l) && At(l).active :: At(l).saiPort in saiMap && saiMap[At(l).saiPort] == l)
      && (forall s | s in saiMap :: InRange(saiMap[s]) && At(saiMap[s]).active && At(saiMap[s]).saiPort == s)
    }

    /** Every slot counts its hardware ports; an active front-panel slot sits at
        the index of its first one (at 0 if SAI gave it none). */
    ghost predicate SlotsOk() {
      forall l | InRange(l) ::
        && At(l).hwportCount == |At(l).hwports|
        && (At(l).active && !At(l).cpu ==> l.port == if At(l).hwports == [] then 0 else At(l).hwports[0])
    }

    ghost predicate Ok() {
      Inverse() && SlotsOk()
    }

    function NpuPortOf(s: Oid): Option<Loc> {
      if s in saiMap then Some(saiMap[s]) else None
    }

    function SaiPortOf(l: Loc): Option<Oid> {
      if InRange(l) && At(l).active then Some(At(l).saiPort) else None
    }

    /** The two look-ups undo each other. */
    lemma LookupsInverse(s: Oid, l: Loc)
      requires Ok()
      ensures SaiPortOf(l) == Some(s) <==> NpuPortOf(s) == Some(l)
    {
    }

    function GrownTo(l: Loc): Ports
      requires l.npu < |table|
    {
      this.(table := table[l.npu := Grown(table[l.npu], l.port)])
    }

    lemma GrownToKeeps(l: Loc)
      requires Ok() && l.npu < |table|
      ensures GrownTo(l).Ok() && GrownTo(l).InRange(l)
      ensures forall k :: GrownTo(l).SaiPortOf(k) == SaiPortOf(k)
    {
      var r := GrownTo(l);
      forall k | r.InRange(k) ensures r.At(k) == if InRange(k) then At(k) else EMPTY_SLOT {
      }
    }

    /** A port written to slot `l` under SAI id `s`. */
    function Written(l: Loc, slot: Slot): Ports
      requires InRange(l)
    {
      Ports(table[l.npu := table[l.npu][l.port := slot]], saiMap[slot.saiPort := l])
    }

    /** The two stay inverse exactly when neither the slot nor the SAI port is
        taken by another. */
    lemma WrittenKeeps(l: Loc, slot: Slot)
      requires Ok() && InRange(l) && slot.active && slot.hwportCount == |slot.hwports|
      requires !slot.cpu ==> l.port == if slot.hwports == [] then 0 else slot.hwports[0]
      ensures Written(l, slot).Ok() <==>
                && (slot.saiPort in saiMap ==> saiMap[slot.saiPort] == l)
                && (At(l).active ==> At(l).saiPort == slot.saiPort)
      ensures forall k :: Written(l, slot).SaiPortOf(k) == if k == l then Some(slot.saiPort) else SaiPortOf(k)
    {
      var r := Written(l, slot);
      assert forall k :: r.InRange(k) <==> InRange(k);
      forall k | InRange(k) ensures r.At(k) == if k == l then slot else At(k) {
      }
      if slot.saiPort in saiMap && saiMap[slot.saiPort] != l {
        var k := saiMap[slot.saiPort];
        assert r.InRange(k) && r.At(k) == At(k);
        assert r.saiMap[slot.saiPort] != k;
      }
      if At(l).active && At(l).saiPort != slot.saiPort {
        assert r.saiMap[At(l).saiPort] == l && r.At(l).saiPort != At(l).saiPort;
      }
    }

    lemma MappedIsActive(s: Oid)
      requires Ok()
      ensures s in saiMap ==> InRange(saiMap[s]) && At(saiMap[s]).active
    {
    }

    function Cleared(s: Oid): Ports
      requires s in saiMap && InRange(saiMap[s])
    {
      var l := saiMap[s];
      Ports(table[l.npu := table[l.npu][l.port := At(l).(hwports := [], active := false, hwportCount := 0)]], saiMap - {s})
    }

    lemma ClearedKeeps(s: Oid)
      requires Ok() && s in saiMap
      ensures Cleared(s).Ok()
      ensures forall k :: Cleared(s).SaiPortOf(k) == if k == saiMap[s] then None else SaiPortOf(k)
    {
      var r, l := Cleared(s), saiMap[s];
      assert forall k :: r.InRange(k) <==> InRange(k);
      forall k | InRange(k)
        ensures r.At(k) == if k == l then At(l).(hwports := [], active := false, hwportCount := 0) else At(k)
      {
      }
    }
  }

  /** The SAI ports that a row holds, in slot order.  A deleted slot counts. */
  function SaiPorts(row: seq<Slot>): seq<Oid> {
    if row == [] then []
    else SaiPorts(row[..|row| - 1]) + if row[|row| - 1].saiPort != NULL_OID then [row[|row| - 1].saiPort] else []
  }

  lemma {:induction false} SaiPortsConcat(a: seq<Slot>, b: seq<Slot>)
    ensures SaiPorts(a + b) == SaiPorts(a) + SaiPorts(b)
  {
    if b == [] {
      assert a + b == a;
    } else {
      assert (a + b)[..|a + b| - 1] == a + b[..|b| - 1];
      SaiPortsConcat(a, b[..|b| - 1]);
    }
  }

  /** `--` on an unsigned 64-bit count. */
  function Decremented(n: nat): nat {
    if n == 0 then SIZE_MAX else n - 1
  }

  /** The ports after the first slot. */
  function Others(row: seq<Slot>): seq<Oid> {
    if row == [] then [] else SaiPorts(row[1..])
  }

  lemma CountOfAll(row: seq<Slot>)
    requires row != []
    ensures |SaiPorts(row)| == |Others(row)| + (if row[0].saiPort != NULL_OID then 1 else 0)
  {
    assert row == [row[0]] + row[1..];
    SaiPortsConcat([row[0]], row[1..]);
    assert [row[0]][..0] == [];
  }

  lemma {:induction false} SamePorts(a: seq<Slot>, b: seq<Slot>)
    requires |a| == |b| && forall i | 0 <= i < |a| :: a[i].saiPort == b[i].saiPort
    ensures SaiPorts(a) == SaiPorts(b)
  {
    if a != [] {
      SamePorts(a[..|a| - 1], b[..|b| - 1]);
    }
  }

  /** A deleted port goes on being counted and listed. */
  lemma DeletedIsStillListed(p: Ports, s: Oid, npu: nat)
    requires p.Ok() && s in p.saiMap && npu < |p.table|
    ensures SaiPorts(p.Cleared(s).table[npu]) == SaiPorts(p.table[npu])
    ensures Others(p.Cleared(s).table[npu]) == Others(p.table[npu])
  {
    var a, b := p.Cleared(s).table[npu], p.table[npu];
    SamePorts(a, b);
    if a != [] {
      SamePorts(a[1..], b[1..]);
    }
  }

  /** Without a port in slot 0, three others are counted as two: an array of
      the length counted is one too short for them. */
  lemma ThreeOthersCountAsTwo()
    ensures exists row :: row != [] && Decremented(|SaiPorts(row)|) == 2 && |Others(row)| == 3
  {
    var p := EMPTY_SLOT.(saiPort := 5);
    var row := [EMPTY_SLOT, p, p, p];
    assert [p, p, p][..2] == [p, p] && [p, p][..1] == [p] && [p][..0] == [];
    assert SaiPorts([p]) == [5];
    assert SaiPorts([p, p]) == [5, 5];
    assert SaiPorts([p, p, p]) == [5, 5, 5];
    assert row[1..] == [p, p, p];
    CountOfAll(row);
  }

  datatype Call = Add(npu: nat, saiPort: Oid, hwPorts: seq<nat>, fromSai: Option<seq<nat>>) | Delete(saiPort: Oid)

  /** The hardware ports of an addition: the caller's, or SAI's if there are none. */
  function HwPorts(c: Call): Option<seq<nat>>
    requires c.Add?
  {
    if c.hwPorts == [] then c.fromSai else Some(c.hwPorts)
  }

  /** The slot of the first hardware port. */
  function SlotOf(c: Call): Loc
    requires c.Add?
  {
    match HwPorts(c)
    case Some(used) => Loc(c.npu, if used == [] then 0 else used[0])
    case None => Loc(c.npu, 0)
  }

  /** An addition: the row grows for the slot, an active slot is refused, and
      otherwise slot and map take the port. */
  ghost predicate Adds(s: Ports, c: Call, rc: Rc, s': Ports)
    requires c.Add? && c.npu < |s.table|
  {
    match HwPorts(c)
    case None => rc == Cfg && s' == s
    case Some(used) =>
      var l, g := SlotOf(c), s.GrownTo(SlotOf(c));
      var slot := g.At(l).(saiPort := c.saiPort, hwportCount := |used|, hwports := used, active := true);
      && rc == (if s.SaiPortOf(l).None? then Ok else Cfg)
      && s' == if rc.Ok? then g.Written(l, slot) else g
  }

  /** Every slot that was there is as it was, and new ones are empty. */
  ghost predicate SlotsKept(s: Ports, s': Ports) {
    && (forall l | s.InRange(l) :: s'.InRange(l) && s'.At(l) == s.At(l))
    && (forall l | s'.InRange(l) && !s.InRange(l) :: s'.At(l) == Slot(NULL_OID, 0, [], false, false))
    && s'.saiMap == s.saiMap
  }

  /** The slot has the port with these hardware ports and is found by it; the
      other slots and ports are as they were. */
  ghost predicate PortTaken(s: Ports, s': Ports, l: Loc, saiPort: Oid, used: seq<nat>) {
    && s'.InRange(l) && s'.At(l).saiPort == saiPort && s'.At(l).hwports == used && s'.At(l).hwportCount == |used|
    && s'.At(l).active && s'.saiMap == s.saiMap[saiPort := l]
    && (forall k | s.InRange(k) && k != l :: s'.InRange(k) && s'.At(k) == s.At(k))
    && (forall k | s'.InRange(k) && !s.InRange(k) && k != l :: s'.At(k) == Slot(NULL_OID, 0, [], false, false))
  }

  lemma AddTakesPort(s: Ports, c: Call, rc: Rc, s': Ports)
    requires c.Add? && c.npu < |s.table| && Adds(s, c, rc, s')
    ensures rc.Ok? ==> HwPorts(c).Some? && PortTaken(s, s', SlotOf(c), c.saiPort, HwPorts(c).value)
    ensures !rc.Ok? ==> SlotsKept(s, s')
  {
  }

  /** A deletion: an unknown port is no error; a port whose slot is gone is
      forgotten; one whose slot is another's stays. */
  ghost predicate Deletes(s: Ports, saiPort: Oid, rc: Rc, s': Ports) {
    if saiPort !in s.saiMap then rc.Ok? && s' == s
    else if !s.InRange(s.saiMap[saiPort]) then rc == Fail && s' == s.(saiMap := s.saiMap - {saiPort})
    else if s.SaiPortOf(s.saiMap[saiPort]) != Some(saiPort) then rc == Fail && s' == s
    else rc.Ok? && s' == s.Cleared(saiPort)
  }

  ghost predicate Stepped(s: Ports, c: Call, rc: Rc, s': Ports)
    requires c.Add? ==> c.npu < |s.table|
  {
    match c
    case Add(_, _, _, _) => Adds(s, c, rc, s')
    case Delete(saiPort) => Deletes(s, saiPort, rc, s')
  }

  /** A known SAI port is added under another slot. */
  predicate Clashes(s: Ports, c: Call, rc: Rc) {
    c.Add? && rc.Ok? && c.saiPort in s.saiMap
  }

  lemma InverseUntilClash(trace: seq<Ports>, calls: seq<Call>, rcs: seq<Rc>)
    requires |trace| == |calls| + 1 && |rcs| == |calls|
    requires forall i | 0 <= i < |calls| && trace[i].Ok() :: trace[i + 1].Ok() <==> !Clashes(trace[i], calls[i], rcs[i])
    ensures (forall i | 0 <= i <= |calls| :: trace[i].Ok()) <==>
            trace[0].Ok() && forall i | 0 <= i < |calls| :: !Clashes(trace[i], calls[i], rcs[i])
  {
    hide Ports.Ok, Clashes;
    var n := |calls|;
    var holds := seq(n + 1, i requires 0 <= i <= n => trace[i].Ok());
    var breaks := seq(n, i requires 0 <= i < n => Clashes(trace[i], calls[i], rcs[i]));
    assert forall i | 0 <= i <= n :: trace[i].Ok() <==> holds[i];
    assert forall i | 0 <= i < n :: Clashes(trace[i], calls[i], rcs[i]) <==> breaks[i];
    HoldsUntilBroken(holds, breaks, n);
  }

  class PortTable {
    var table: seq<seq<Slot>>
    var saiMap: map<Oid, Loc>

    /** One row for each NPU, of the size that SAI reports. */
    constructor (sizes: seq<nat>)
      ensures Valid() && |table| == |sizes| && saiMap == map[]
      ensures forall n | 0 <= n < |sizes| :: table[n] == seq(sizes[n], _ => EMPTY_SLOT)
    {
      table := seq(|sizes|, n requires 0 <= n < |sizes| => seq(sizes[n], _ => EMPTY_SLOT));
      saiMap := map[];
    }

    function State(): Ports
      reads this
    {
      Ports(table, saiMap)
    }

    ghost predicate Valid()
      reads this
    {
      State().Ok()
    }

    method Grow(npu: nat, index: nat)
      requires npu < |table| && |table[npu]| > 0
      modifies this`table
      ensures State() == old(State()).GrownTo(Loc(npu, index))
    {
      if index > |table[npu]| - 1 {
        table := table[npu := table[npu] + seq(index + 1 - |table[npu]|, _ => EMPTY_SLOT)];
      }
      assert table[npu] == Grown(old(table)[npu], index);
    }

    /** `hwPorts` may be empty; SAI is then asked, and `fromSai` is its answer. */
    method SaiPortAdd(npu: nat, saiPort: Oid, hwPorts: seq<nat>, fromSai: Option<seq<nat>>) returns (rc: Rc, npuPort: nat)
      requires npu < |table| && |table[npu]| > 0
      modifies this
      ensures Adds(old(State()), Add(npu, saiPort, hwPorts, fromSai), rc, State())
      ensures rc.Ok? <==>
                && (hwPorts != [] || fromSai.Some?)
                && var used := if hwPorts != [] then hwPorts else fromSai.value;
                   old(State()).SaiPortOf(Loc(npu, if used == [] then 0 else used[0])).None?
      ensures rc.Ok? ==>
                var used := if hwPorts != [] then hwPorts else fromSai.value;
                && npuPort == (if used == [] then 0 else used[0])
                && PortTaken(old(State()), State(), Loc(npu, npuPort), saiPort, used)
      ensures !rc.Ok? ==> SlotsKept(old(State()), State())
      ensures forall n | 0 <= n < |table| :: n < |old(table)| && |table[n]| >= |old(table)[n]|
      ensures |table| == |old(table)|
      ensures old(Valid()) ==> (Valid() <==> (rc.Ok? ==> saiPort !in old(saiMap)))
      ensures old(Valid()) && rc.Ok? && Valid() ==> State().NpuPortOf(saiPort) == Some(Loc(npu, npuPort))
    {
      hide Ports.Ok, PortTaken, SlotsKept;
      npuPort := 0;
      ghost var s0 := State();
      var used := hwPorts;
      if hwPorts == [] {
        if fromSai.None? {
          AddTakesPort(s0, Add(npu, saiPort, hwPorts, fromSai), Cfg, State());
          return Cfg, npuPort;
        }
        used := fromSai.value;
      }
      var first := if used == [] then 0 else used[0];
      ghost var l := Loc(npu, first);
      if s0.Ok() {
        s0.GrownToKeeps(l);
      }
      Grow(npu, first);
      ghost var s := State();
      if table[npu][first].active {
        AddTakesPort(s0, Add(npu, saiPort, hwPorts, fromSai), Cfg, State());
        return Cfg, npuPort;
      }
      var list: seq<nat> := [];
      for i := 0 to |used|
        invariant list == used[..i]
      {
        list := list + [used[i]];
      }
      assert list == used;
      var slot := table[npu][first].(saiPort := saiPort, hwportCount := |used|, hwports := list, active := true);
      if s0.Ok() {
        s.WrittenKeeps(l, slot);
        s.MappedIsActive(saiPort);
      }
      table := table[npu := table[npu][first := slot]];
      saiMap := saiMap[saiPort := Loc(npu, first)];
      AddTakesPort(s0, Add(npu, saiPort, hwPorts, fromSai), Ok, State());
      return Ok, first;
    }

    /** Neither the slot nor the SAI port is checked.  `fromSai` is SAI's answer
        for the CPU port; the row has grown even if there is none. */
    method CpuPortAdd(npu: nat, cpuPort: nat, fromSai: Option<Oid>) returns (rc: Rc)
      requires npu < |table| && |table[npu]| > 0
      modifies this
      ensures var l := Loc(npu, cpuPort);
              var s := old(State()).GrownTo(l);
              && (rc.Ok? <==> fromSai.Some?) && (rc == Ok || rc == Cfg)
              && State() == (if rc.Ok? then s.Written(l, Slot(fromSai.value, 1, [0], true, true)) else s)
              && (old(Valid()) ==> (Valid() <==> (rc.Ok? ==>
                    && (fromSai.value in old(saiMap) ==> old(saiMap)[fromSai.value] == l)
                    && (old(State()).SaiPortOf(l).Some? ==> old(State()).SaiPortOf(l) == fromSai))))
    {
      hide Ports.Ok;
      ghost var s0, l := State(), Loc(npu, cpuPort);
      if s0.Ok() {
        s0.GrownToKeeps(l);
      }
      Grow(npu, cpuPort);
      if fromSai.None? {
        return Cfg;
      }
      ghost var s := State();
      var slot := Slot(fromSai.value, 1, [0], true, true);
      if s0.Ok() {
        s.WrittenKeeps(l, slot);
      }
      table := table[npu := table[npu][cpuPort := slot]];
      saiMap := saiMap[fromSai.value := Loc(npu, cpuPort)];
      return Ok;
    }

    /** Deleting an unknown port succeeds.  The last three failures are for a
        table and a map that have come apart. */
    method SaiPortDelete(saiPort: Oid) returns (rc: Rc, npuPort: Option<nat>)
      modifies this
      ensures Deletes(old(State()), saiPort, rc, State())
      ensures |table| == |old(table)| && forall n | 0 <= n < |table| :: |table[n]| == |old(table)[n]|
      ensures npuPort == if rc.Ok? && saiPort in old(saiMap) then Some(old(saiMap)[saiPort].port) else None
      ensures old(Valid()) ==> Valid() && rc.Ok? && saiPort !in saiMap
      ensures old(Valid()) && saiPort in old(saiMap) ==>
                && State() == old(State()).Cleared(saiPort) && npuPort == Some(old(saiMap)[saiPort].port)
                && forall l :: State().SaiPortOf(l) == if l == old(saiMap)[saiPort] then None else old(State()).SaiPortOf(l)
    {
      npuPort := None;
      if saiPort !in saiMap {
        return Ok, npuPort;
      }
      var l := saiMap[saiPort];
      ghost var s := State();
      if s.Ok() {
        s.ClearedKeeps(saiPort);
      }
      if |table| <= l.npu || |table[l.npu]| <= l.port {
        saiMap := saiMap - {saiPort};
        return Fail, npuPort;
      }
      var slot := table[l.npu][l.port];
      if slot.saiPort != saiPort || !slot.active {
        return Fail, npuPort;
      }
      table := table[l.npu := table[l.npu][l.port := slot.(hwports := [], active := false, hwportCount := 0)]];
      saiMap := saiMap - {saiPort};
      return Ok, Some(l.port);
    }

    method NpuPortIdGet(saiPort: Oid) returns (r: Option<Loc>)
      ensures r == State().NpuPortOf(saiPort)
    {
      r := if saiPort in saiMap then Some(saiMap[saiPort]) else None;
    }

    method PortIsValid(npu: nat, port: nat) returns (valid: bool)
      ensures valid <==> State().SaiPortOf(Loc(npu, port)).Some?
    {
      if npu >= |table| || port >= |table[npu]| {
        return false;
      }
      valid := table[npu][port].active;
    }

    method SaiPortIdGet(npu: nat, port: nat) returns (rc: Rc, saiPort: Oid)
      requires Valid()
      ensures rc == Ok || rc == Param
      ensures rc.Ok? <==> exists s :: State().NpuPortOf(s) == Some(Loc(npu, port))
      ensures rc.Ok? ==> State().NpuPortOf(saiPort) == Some(Loc(npu, port))
    {
      saiPort := NULL_OID;
      var valid := PortIsValid(npu, port);
      if !valid {
        forall s ensures State().NpuPortOf(s) != Some(Loc(npu, port)) {
          State().LookupsInverse(s, Loc(npu, port));
        }
        return Param, saiPort;
      }
      saiPort := table[npu][port].saiPort;
      State().LookupsInverse(saiPort, Loc(npu, port));
      rc := Ok;
    }

    /** `capacity` is None when the caller only asks for the number. */
    method HwportList(npu: nat, port: nat, capacity: Option<nat>) returns (rc: Rc, count: nat, list: seq<nat>)
      requires Valid()
      ensures rc == Ok || rc == Param
      ensures rc.Ok? <==> State().SaiPortOf(Loc(npu, port)).Some?
      ensures rc.Ok? ==> var all := table[npu][port].hwports;
                         if capacity.None? then count == |all| && list == []
                         else count == (if |all| > capacity.value then capacity.value else |all|) && list == all[..count]
    {
      count, list := 0, [];
      var valid := PortIsValid(npu, port);
      if !valid {
        return Param, count, list;
      }
      assert State().InRange(Loc(npu, port));
      var slot := table[npu][port];
      count := slot.hwportCount;
      if capacity.None? {
        return Ok, count, list;
      }
      if count > capacity.value {
        count := capacity.value;
      }
      for i := 0 to count
        invariant list == slot.hwports[..i]
      {
        list := list + [slot.hwports[i]];
      }
      rc := Ok;
    }

    /** Slots with a SAI port, one taken off for the CPU port. */
    method CountOthers(npu: nat) returns (len: nat)
      requires npu < |table|
      ensures len == Decremented(|SaiPorts(table[npu])|)
    {
      var n := 0;
      var row := table[npu];
      for i := 0 to |row|
        invariant n == |SaiPorts(row[..i])|
      {
        assert row[..i + 1][..i] == row[..i];
        if row[i].saiPort != NULL_OID {
          n := n + 1;
        }
      }
      assert row[..|row|] == row;
      len := if n == 0 then SIZE_MAX else n - 1;
    }

    method SaiPortsLen(npu: nat) returns (rc: Rc, len: nat)
      ensures rc == if npu >= |table| then Param else Ok
      ensures rc.Ok? && SaiPorts(table[npu]) == [] ==> len == 0xFFFF_FFFF_FFFF_FFFF
      ensures rc.Ok? ==> len == Decremented(|SaiPorts(table[npu])|)
      ensures rc.Ok? && |table[npu]| > 0 && table[npu][0].saiPort != NULL_OID ==> len == |Others(table[npu])|
    {
      len := 0;
      if npu >= |table| {
        return Param, len;
      }
      len := CountOthers(npu);
      if |table[npu]| > 0 {
        CountOfAll(table[npu]);
      }
      rc := Ok;
    }

    /** `written` is what goes into the caller's array of `len` elements.  It is
        all the ports after the first slot in slot order, unless the count is 1:
        a single port is counted and not written.  With a port in slot 0 it
        always fits the array; for the length that `SaiPortsLen` gives, it fits
        exactly when slot 0 has a port or fewer than three other slots do. */
    method AllSaiPorts(npu: nat, len: nat) returns (rc: Rc, written: seq<Oid>)
      requires (npu < |table| ==> |table[npu]| > 0) || len < SIZE_MAX
      ensures rc == Param <==> npu >= |table|
      ensures rc == Fail <==> npu < |table| && Decremented(|SaiPorts(table[npu])|) > len
      ensures (rc == Ok || rc == Param || rc == Fail) && (rc.Ok? ==> |table[npu]| > 0)
      ensures rc.Ok? ==> written == if Decremented(|SaiPorts(table[npu])|) > 1 then Others(table[npu]) else []
      ensures rc.Ok? && table[npu][0].saiPort != NULL_OID ==>
                && |written| <= len
                && (written == Others(table[npu]) <==> |Others(table[npu])| != 1)
      ensures rc.Ok? && len == Decremented(|SaiPorts(table[npu])|) ==>
                (|written| <= len <==> table[npu][0].saiPort != NULL_OID || |Others(table[npu])| < 3)
    {
      written := [];
      if npu >= |table| {
        return Param, written;
      }
      var row := table[npu];
      var cur := CountOthers(npu);
      if cur > len {
        return Fail, written;
      }
      CountOfAll(row);
      if cur > 1 {
        for i := 1 to |row|
          invariant written == SaiPorts(row[1..i])
        {
          assert row[1..i + 1][..i - 1] == row[1..i] && row[1..i + 1][i - 1] == row[i];
          if row[i].saiPort != NULL_OID {
            written := written + [row[i].saiPort];
          }
        }
        assert row[1..|row|] == row[1..];
      }
      rc := Ok;
    }

    method Step(c: Call) returns (rc: Rc)
      requires c.Add? ==> c.npu < |table| && |table[c.npu]| > 0
      modifies this
      ensures Stepped(old(State()), c, rc, State())
      ensures |table| == |old(table)| && forall n | 0 <= n < |table| :: |table[n]| >= |old(table)[n]|
      ensures old(Valid()) ==> (Valid() <==> !Clashes(old(State()), c, rc))
    {
      hide Ports.Ok, Adds, Deletes;
      match c {
        case Add(npu, saiPort, hwPorts, fromSai) =>
          var port;
          rc, port := SaiPortAdd(npu, saiPort, hwPorts, fromSai);
        case Delete(saiPort) =>
          var port;
          rc, port := SaiPortDelete(saiPort);
      }
    }

    /** Every run of additions and deletions: each step does what its call says,
        and the two look-ups are inverse to each other throughout exactly when no
        accepted addition names a SAI port that is in the map. */
    method Run(calls: seq<Call>) returns (rcs: seq<Rc>, ghost trace: seq<Ports>)
      requires Valid() && (forall n | 0 <= n < |table| :: |table[n]| > 0)
      requires forall c | c in calls && c.Add? :: c.npu < |table|
      modifies this
      ensures |rcs| == |calls| && |trace| == |calls| + 1 && trace[0] == old(State()) && trace[|calls|] == State()
      ensures forall i | 0 <= i < |calls| ::
                (calls[i].Add? ==> calls[i].npu < |trace[i].table|) && Stepped(trace[i], calls[i], rcs[i], trace[i + 1])
      ensures (forall i | 0 <= i <= |calls| :: trace[i].Ok()) <==>
              forall i | 0 <= i < |calls| :: !Clashes(trace[i], calls[i], rcs[i])
      ensures Valid() ==> forall s: Oid, l :: State().SaiPortOf(l) == Some(s) <==> State().NpuPortOf(s) == Some(l)
    {
      hide Ports.Ok, Stepped, Clashes;
      rcs, trace := [], [State()];
      for i := 0 to |calls|
        invariant |table| == |old(table)| && forall n | 0 <= n < |table| :: |table[n]| > 0
        invariant |rcs| == i && |trace| == i + 1 && trace[0] == old(State()) && trace[i] == State()
        invariant forall j | 0 <= j < i ::
                    (calls[j].Add? ==> calls[j].npu < |trace[j].table|) && Stepped(trace[j], calls[j], rcs[j], trace[j + 1])
        invariant forall j | 0 <= j < i && trace[j].Ok() :: trace[j + 1].Ok() <==> !Clashes(trace[j], calls[j], rcs[j])
      {
        assert calls[i] in calls;
        var rc := Step(calls[i]);
        rcs, trace := rcs + [rc], trace + [State()];
      }
      InverseUntilClash(trace, calls, rcs);
      if Valid() {
        forall s: Oid, l ensures State().SaiPortOf(l) == Some(s) <==> State().NpuPortOf(s) == Some(l) {
          State().LookupsInverse(s, l);
        }
      }
    }
  }
}
