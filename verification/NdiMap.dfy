/** The keyed multimap of src/nas_ndi_map.cpp: each key holds a vector of value
    pairs, and elements are found and erased through a bit-mask filter. */
module NdiMap {
  import opened Types

  datatype Kind = NhGrpMember | NpuVlanId | VlanMemberId | VlanPorts | StpPortId | PortStpPorts

  datatype Key = Key(kind: Kind, id1: Oid, id2: Oid)

  datatype Data = Data(val1: Oid, val2: Oid)

  const FILTER_NONE: bv32 := 1
  const FILTER_VAL1: bv32 := 2
  const FILTER_VAL2: bv32 := 4

  datatype Filter = Filter(value: Data, bits: bv32)

  predicate ApplyFilter(arg1: Data, arg2: Data, bits: bv32) {
    if bits & FILTER_NONE == FILTER_NONE then true
    else
      && (bits & FILTER_VAL1 == FILTER_VAL1 ==> arg1.val1 == arg2.val1)
      && (bits & FILTER_VAL2 == FILTER_VAL2 ==> arg1.val2 == arg2.val2)
  }

  predicate Matches(f: Filter, d: Data) {
    ApplyFilter(f.value, d, f.bits)
  }

  /** What a single bit of the mask means. */
  lemma SingleBitFilters(f: Filter, d: Data)
    ensures f.bits == FILTER_NONE ==> Matches(f, d)
    ensures f.bits == FILTER_VAL1 ==> (Matches(f, d) <==> f.value.val1 == d.val1)
    ensures f.bits == FILTER_VAL2 ==> (Matches(f, d) <==> f.value.val2 == d.val2)
  {
  }

  /** One pass that drops every match and keeps the rest in order. */
  function Reject(s: seq<Data>, f: Filter): seq<Data> {
    if s == [] then []
    else if Matches(f, s[0]) then Reject(s[1..], f)
    else [s[0]] + Reject(s[1..], f)
  }

  /** One pass that keeps only the matches, in order. */
  function Select(s: seq<Data>, f: Filter): seq<Data> {
    if s == [] then []
    else if Matches(f, s[0]) then [s[0]] + Select(s[1..], f)
    else Select(s[1..], f)
  }

  /** Reject loses exactly the matching occurrences and no others. */
  lemma {:induction false} RejectCounts(s: seq<Data>, f: Filter, d: Data)
    ensures multiset(Reject(s, f))[d] == if Matches(f, d) then 0 else multiset(s)[d]
  {
    if s != [] {
      RejectCounts(s[1..], f, d);
      assert s == [s[0]] + s[1..];
    }
  }

  lemma RejectMembers(s: seq<Data>, f: Filter)
    ensures forall d :: d in Reject(s, f) <==> d in s && !Matches(f, d)
  {
  }

  lemma {:induction false} RejectConcat(s: seq<Data>, t: seq<Data>, f: Filter)
    ensures Reject(s + t, f) == Reject(s, f) + Reject(t, f)
  {
    if s == [] {
      assert s + t == t;
    } else {
      assert (s + t)[1..] == s[1..] + t;
      RejectConcat(s[1..], t, f);
    }
  }

  lemma {:induction false} SelectConcat(s: seq<Data>, t: seq<Data>, f: Filter)
    ensures Select(s + t, f) == Select(s, f) + Select(t, f)
  {
    if s == [] {
      assert s + t == t;
    } else {
      assert (s + t)[1..] == s[1..] + t;
      SelectConcat(s[1..], t, f);
    }
  }

  /** Nothing is dropped exactly when nothing matches. */
  lemma {:induction false} RejectNothing(s: seq<Data>, f: Filter)
    ensures |Reject(s, f)| <= |s|
    ensures Reject(s, f) == s <==> forall d | d in s :: !Matches(f, d)
  {
    if s != [] {
      RejectNothing(s[1..], f);
      assert s == [s[0]] + s[1..];
      if Matches(f, s[0]) {
        assert |Reject(s, f)| < |s|;
      } else {
        assert Reject(s, f)[1..] == Reject(s[1..], f);
        assert forall d :: d in s <==> d == s[0] || d in s[1..];
      }
    }
  }

  /** Erasing the first match leaves the result of the full pass unchanged. */
  lemma RejectAfterErase(s: seq<Data>, i: nat, f: Filter)
    requires i < |s| && Matches(f, s[i])
    ensures Reject(s[..i] + s[i + 1..], f) == Reject(s, f)
  {
    RejectConcat(s[..i], s[i + 1..], f);
    RejectConcat(s[..i], [s[i]] + s[i + 1..], f);
    assert s == s[..i] + ([s[i]] + s[i + 1..]);
    assert ([s[i]] + s[i + 1..])[1..] == s[i + 1..];
  }

  /** The positions that survive: a strictly increasing embedding of the kept
      elements into the list shows that their order is the original one. */
  lemma {:induction false} RejectKeepsOrder(s: seq<Data>, f: Filter) returns (at: seq<nat>)
    ensures |at| == |Reject(s, f)|
    ensures forall i | 0 <= i < |at| :: at[i] < |s| && s[at[i]] == Reject(s, f)[i]
    ensures forall i, j | 0 <= i < j < |at| :: at[i] < at[j]
  {
    if s == [] {
      at := [];
    } else {
      var rest := RejectKeepsOrder(s[1..], f);
      var shifted := seq(|rest|, i requires 0 <= i < |rest| => rest[i] + 1);
      at := if Matches(f, s[0]) then shifted else [0] + shifted;
    }
  }

  class Multimap {
    var entries: map<Key, seq<Data>>

    constructor ()
      ensures entries == map[]
    {
      entries := map[];
    }

    /** The list of a key, empty when the key is absent. */
    function Listed(key: Key): seq<Data>
      reads this
    {
      if key in entries then entries[key] else []
    }

    method Insert(key: Key, value: seq<Data>)
      modifies this
      ensures entries == old(entries)[key := old(Listed(key)) + value]
    {
      var list := if key in entries then entries[key] else [];
      for i := 0 to |value|
        invariant list == old(Listed(key)) + value[..i]
        invariant entries == old(entries)
      {
        list := list + [value[i]];
      }
      assert value[..|value|] == value;
      entries := entries[key := list];
    }

    method Delete(key: Key)
      modifies this
      ensures entries == old(entries) - {key}
    {
      if key in entries {
        entries := entries - {key};
      }
    }

    /** Erases the first element that matches; fails when none does. */
    static method DeleteInternal(list: seq<Data>, f: Filter) returns (rest: seq<Data>, ok: bool, ghost at: nat)
      ensures ok <==> exists d :: d in list && Matches(f, d)
      ensures ok ==> at < |list| && Matches(f, list[at]) && rest == list[..at] + list[at + 1..]
      ensures ok ==> forall i | 0 <= i < at :: !Matches(f, list[i])
      ensures !ok ==> rest == list
    {
      rest, ok, at := list, false, 0;
      var position := 0;
      while position < |list|
        invariant 0 <= position <= |list|
        invariant forall i | 0 <= i < position :: !Matches(f, list[i])
      {
        if Matches(f, list[position]) {
          at := position;
          rest, ok := list[..position] + list[position + 1..], true;
          assert list[position] in list;
          return;
        }
        position := position + 1;
      }
    }

    /** Repeats the erasure until nothing matches.  The key stays, even with an
        empty list. */
    method DeleteElements(key: Key, f: Filter)
      modifies this
      ensures key !in old(entries) ==> entries == old(entries)
      ensures key in old(entries) ==> entries == old(entries)[key := Reject(old(entries)[key], f)]
    {
      if key in entries {
        var ok := true;
        while ok
          invariant key in entries && entries == old(entries)[key := entries[key]]
          invariant Reject(entries[key], f) == Reject(old(entries)[key], f)
          invariant !ok ==> forall d | d in entries[key] :: !Matches(f, d)
          decreases |entries[key]|, ok
        {
          var list := entries[key];
          var rest, found, at := DeleteInternal(list, f);
          if found {
            RejectAfterErase(list, at, f);
            entries := entries[key := rest];
          } else {
            ok := false;
          }
        }
        RejectNothing(entries[key], f);
      }
    }

    /** `capacity` is the size of the caller's buffer.  `count` is the number of
        stored elements, also when the buffer is too small. */
    method Get(key: Key, capacity: nat) returns (rc: Rc, count: nat, data: seq<Data>)
      ensures rc.Ok? <==> key in entries && |entries[key]| <= capacity
      ensures rc.Ok? ==> data == entries[key] && count == |data|
      ensures rc == NoMem <==> key in entries && |entries[key]| > capacity
      ensures rc == NoMem ==> count == |entries[key]| && data == []
      ensures rc == NExist <==> key !in entries
      ensures rc == NExist ==> count == capacity && data == []
    {
      data, count := [], capacity;
      if key !in entries {
        return NExist, count, data;
      }
      var list := entries[key];
      rc := Ok;
      if |list| > capacity {
        rc := NoMem;
      } else {
        for i := 0 to |list|
          invariant data == list[..i]
        {
          data := data + [list[i]];
        }
      }
      count := |list|;
    }

    /** Copies matches in order until the buffer is full.  When the key is
        absent, or the buffer has no room at all, `count` keeps the value the
        caller passed. */
    method GetElements(key: Key, capacity: nat, f: Filter) returns (count: nat, data: seq<Data>)
      ensures capacity == 0 || key !in entries ==> count == capacity && data == []
      ensures capacity > 0 && key in entries ==>
                count == |data| <= capacity && data <= Select(entries[key], f) &&
                (count < capacity ==> data == Select(entries[key], f))
    {
      count, data := capacity, [];
      if capacity > 0 && key in entries {
        var list := entries[key];
        var i := 0;
        while i < |list|
          invariant 0 <= i <= |list|
          invariant data == Select(list[..i], f) && |data| < capacity
        {
          assert list[..i + 1] == list[..i] + [list[i]];
          SelectConcat(list[..i], [list[i]], f);
          SelectConcat(list[..i + 1], list[i + 1..], f);
          assert list == list[..i + 1] + list[i + 1..];
          if Matches(f, list[i]) {
            data := data + [list[i]];
          }
          assert data == Select(list[..i + 1], f) by {
            assert [list[i]][1..] == [];
          }
          i := i + 1;
          if |data| == capacity {
            return |data|, data;
          }
        }
        assert list[..i] == list;
        count := |data|;
      }
    }

    method GetValCount(key: Key) returns (rc: Rc, count: nat)
      ensures key in entries ==> rc.Ok? && count == |entries[key]|
      ensures key !in entries ==> rc == NExist && count == 0
    {
      if key in entries {
        return Ok, |entries[key]|;
      }
      return NExist, 0;
    }
  }
}
