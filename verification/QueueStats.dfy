/** Queue counters of src/nas_ndi_qos_queue.cpp: the ids that map to a SAI
    counter are gathered, read in one call, and scattered back to their places. */
module QueueStats {
  import opened Types

  /** The two tables from counter ids to SAI counter ids. */
  datatype Tables = Tables(current: map<nat, nat>, snapshot: map<nat, nat>) {
    function Lookup(id: nat, isSnapshot: bool): Option<nat> {
      var t := if isSnapshot then snapshot else current;
      if id in t then Some(t[id]) else None
    }
  }

  /** The SAI ids to ask for, in order. */
  function Gathered(t: Tables, ids: seq<nat>, isSnapshot: bool): seq<nat> {
    if ids == [] then []
    else
      var last := t.Lookup(ids[|ids| - 1], isSnapshot);
      Gathered(t, ids[..|ids| - 1], isSnapshot) + if last.Some? then [last.value] else []
  }

  lemma {:induction false} GatheredPrefix(t: Tables, ids: seq<nat>, n: nat, isSnapshot: bool)
    requires n <= |ids|
    ensures Gathered(t, ids[..n], isSnapshot) <= Gathered(t, ids, isSnapshot)
  {
    if n == |ids| {
      assert ids[..n] == ids;
    } else {
      GatheredPrefix(t, ids[..|ids| - 1], n, isSnapshot);
      assert ids[..|ids| - 1][..n] == ids[..n];
    }
  }

  /** SAI reads each counter it is asked for; `hw` is what the hardware holds. */
  method ReadCounters(hw: nat -> nat, saiIds: seq<nat>) returns (ok: bool, values: seq<nat>, ghost refused: bool)
    ensures ok <==> !refused
    ensures ok ==> |values| == |saiIds| && forall j | 0 <= j < |saiIds| :: values[j] == hw(saiIds[j])
  {
    ok := *;
    refused := !ok;
    values := seq(|saiIds|, j requires 0 <= j < |saiIds| => hw(saiIds[j]));
  }

  /** The value the caller is promised for a counter id. */
  function Promised(t: Tables, hw: nat -> nat, id: nat, isSnapshot: bool): nat {
    match t.Lookup(id, isSnapshot)
    case Some(s) => hw(s)
    case None => 0
  }

  method Gather(t: Tables, ids: seq<nat>, isSnapshot: bool) returns (saiIds: seq<nat>)
    ensures saiIds == Gathered(t, ids, isSnapshot)
  {
    saiIds := [];
    for i := 0 to |ids|
      invariant saiIds == Gathered(t, ids[..i], isSnapshot)
    {
      assert ids[..i + 1][..i] == ids[..i];
      var s := t.Lookup(ids[i], isSnapshot);
      if s.Some? {
        saiIds := saiIds + [s.value];
      }
    }
    assert ids[..|ids|] == ids;
  }

  /** The place of a mapped id in the gathered list. */
  lemma GatheredPlace(t: Tables, ids: seq<nat>, i: nat, isSnapshot: bool)
    requires i < |ids|
    ensures var j, n := |Gathered(t, ids[..i], isSnapshot)|, |Gathered(t, ids[..i + 1], isSnapshot)|;
            match t.Lookup(ids[i], isSnapshot)
            case Some(s) => n == j + 1 && j < |Gathered(t, ids, isSnapshot)| && Gathered(t, ids, isSnapshot)[j] == s
            case None => n == j
  {
    assert ids[..i + 1][..i] == ids[..i];
    GatheredPrefix(t, ids, i + 1, isSnapshot);
  }

  /** Each requested counter gets its SAI value, or 0 when it is not mapped; the
      index into SAI's answer stays within it. */
  method ExtendedQueueStatistics(t: Tables, hw: nat -> nat, ids: seq<nat>, counters: array<nat>, modeKnown: bool,
                                 isSnapshot: bool)
    returns (rc: Rc, ghost refused: bool)
    requires counters.Length == |ids|
    modifies counters
    ensures rc == Ok || rc == Param || rc == Fail
    ensures rc == Param <==> !modeKnown
    ensures rc == Fail <==> modeKnown && refused
    ensures rc.Ok? ==> forall i | 0 <= i < |ids| ::
              counters[i] == if isSnapshot then (if ids[i] in t.snapshot then hw(t.snapshot[ids[i]]) else 0)
                             else (if ids[i] in t.current then hw(t.current[ids[i]]) else 0)
    ensures !rc.Ok? ==> counters[..] == old(counters[..])
  {
    hide Gathered;
    var saiIds := Gather(t, ids, isSnapshot);
    refused := false;
    if !modeKnown {
      return Param, refused;
    }
    var ok, values;
    ok, values, refused := ReadCounters(hw, saiIds);
    if !ok {
      return Fail, refused;
    }
    var j := 0;
    assert ids[..0] == [];
    NothingGathered(t, isSnapshot);
    for i := 0 to |ids|
      invariant j == |Gathered(t, ids[..i], isSnapshot)|
      invariant forall k | 0 <= k < i :: counters[k] == Promised(t, hw, ids[k], isSnapshot)
    {
      GatheredPlace(t, ids, i, isSnapshot);
      var s := t.Lookup(ids[i], isSnapshot);
      if s.Some? {
        counters[i] := values[j];
        j := j + 1;
      } else {
        counters[i] := 0;
      }
    }
    rc := Ok;
  }

  lemma NothingGathered(t: Tables, isSnapshot: bool)
    ensures Gathered(t, [], isSnapshot) == []
  {
  }
}
