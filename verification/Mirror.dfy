/** Mirror sessions of a port, src/nas_ndi_mirror.cpp: a list for each port and
    direction, changed before SAI is asked and changed back when SAI refuses. */
module Mirror {
  import opened Types

  datatype Key = Key(port: nat, ingress: bool)

  datatype SaiAnswer = Accepted | Refused | NoResources

  predicate NoRepeat(s: seq<Oid>) {
    forall i, j | 0 <= i < j < |s| :: s[i] != s[j]
  }

  function AsSet(s: seq<Oid>): set<Oid> {
    set x | x in s
  }

  class MirrorApi {
    var lists: map<Key, seq<Oid>>
    /** The session lists that SAI holds. */
    var sai: map<Key, seq<Oid>>

    constructor ()
      ensures Valid() && lists == map[] && sai == map[]
    {
      lists, sai := map[], map[];
    }

    function List(k: Key): seq<Oid>
      reads this
    {
      if k in lists then lists[k] else []
    }

    function InSai(k: Key): seq<Oid>
      reads this
    {
      if k in sai then sai[k] else []
    }

    /** No list holds a session twice. */
    ghost predicate Valid()
      reads this
    {
      forall k | k in lists :: NoRepeat(lists[k])
    }

    /** The table and SAI hold the same sessions for the port and direction. */
    ghost predicate Agrees(k: Key)
      reads this
    {
      AsSet(List(k)) == AsSet(InSai(k))
    }

    static method Find(s: seq<Oid>, x: Oid) returns (i: nat)
      ensures i <= |s| && (i < |s| <==> x in s) && (i < |s| ==> s[i] == x)
      ensures x !in s[..i]
    {
      i := 0;
      while i < |s| && s[i] != x
        invariant 0 <= i <= |s| && forall j | 0 <= j < i :: s[j] != x
      {
        i := i + 1;
      }
    }

    /** Adds the session to the list, or takes it out; an emptied list stays. */
    method PortToIdList(k: Key, id: Oid, enable: bool) returns (ok: bool, list: seq<Oid>)
      requires Valid()
      modifies this`lists
      ensures Valid()
      ensures ok <==> enable || id in old(List(k))
      ensures !ok ==> lists == old(lists)
      ensures ok ==> lists == old(lists)[k := list]
      ensures enable ==> list == if id in old(List(k)) then old(List(k)) else old(List(k)) + [id]
      ensures ok && !enable ==> exists i :: 0 <= i < |old(List(k))| && old(List(k))[i] == id &&
                                            list == old(List(k))[..i] + old(List(k))[i + 1..]
    {
      list := if k in lists then lists[k] else [];
      var i := Find(list, id);
      if enable {
        if i == |list| {
          list := list + [id];
        }
      } else {
        if k !in lists || i == |list| {
          return false, list;
        }
        list := list[..i] + list[i + 1..];
      }
      lists := lists[k := list];
      ok := true;
    }

    /** `portKnown` says whether the port has a SAI id; when it has none, the call
        reports success although SAI was never asked.  SAI's answer is not
        predictable. */
    method UpdateDirection(k: Key, id: Oid, enable: bool, portKnown: bool) returns (rc: Rc, ghost answer: Option<SaiAnswer>)
      requires Valid()
      modifies this
      ensures Valid()
      ensures forall q | q != k :: List(q) == old(List(q)) && InSai(q) == old(InSai(q))
      ensures rc == Ok || rc == Fail || rc == NoResource
      ensures answer.Some? <==> (enable || id in old(List(k))) && portKnown
      ensures rc == Fail && answer.None? <==> !enable && id !in old(List(k))
      ensures answer == Some(Accepted) ==> rc.Ok? && InSai(k) == List(k)
      ensures answer == Some(Accepted) ==>
                AsSet(List(k)) == if enable then old(AsSet(List(k))) + {id} else old(AsSet(List(k))) - {id}
      ensures answer != Some(Accepted) ==> InSai(k) == old(InSai(k))
      ensures answer == Some(Refused) ==> rc == Fail
      ensures answer == Some(NoResources) ==> rc == NoResource
      ensures answer.Some? && answer != Some(Accepted) ==>
                (AsSet(List(k)) == old(AsSet(List(k))) <==> !(enable && id in old(List(k))))
      ensures old(Agrees(k)) ==> (Agrees(k) <==>
                && !(answer.Some? && answer != Some(Accepted) && enable && id in old(List(k)))
                && !(!portKnown && enable != (id in old(List(k)))))
    {
      hide AsSet, NoRepeat;
      answer := None;
      var ok, list := PortToIdList(k, id, enable);
      if !ok {
        return Fail, answer;
      }
      StepSet(old(List(k)), list, id, enable);
      InSet(old(List(k)), id);
      if !portKnown {
        return Ok, answer;
      }
      var a: SaiAnswer := *;
      answer := Some(a);
      if a.Accepted? {
        sai := sai[k := list];
        return Ok, answer;
      }
      rc := if a.NoResources? then NoResource else Fail;
      var undone, back := PortToIdList(k, id, !enable);
      StepSet(list, back, id, !enable);
    }

    static lemma InSet(s: seq<Oid>, id: Oid)
      ensures id in AsSet(s) <==> id in s
    {
    }

    /** What one step does to the set of sessions. */
    static lemma StepSet(s: seq<Oid>, r: seq<Oid>, id: Oid, enable: bool)
      requires NoRepeat(s)
      requires enable ==> r == if id in s then s else s + [id]
      requires !enable ==> exists i :: 0 <= i < |s| && s[i] == id && r == s[..i] + s[i + 1..]
      ensures AsSet(r) == if enable then AsSet(s) + {id} else AsSet(s) - {id}
    {
    }
  }
}
