/** Object ids, return codes and the abstract SAI object store that every
    other module steps. */
module Types {

  datatype Option<+T> = None | Some(value: T)

  /** The error classes of `t_std_error` that the modelled code returns. */
  datatype Rc = Ok | Fail | Param | NExist | NoMem | TooBig | Cfg | NoResource

  /** `sai_object_id_t` is an unsigned 64-bit number. */
  type Oid = x: nat | x < 0x1_0000_0000_0000_0000

  const NULL_OID: Oid := 0

  /** The value that -1 takes in an unsigned 64-bit field. */
  const ALL_ONES: Oid := 0xFFFF_FFFF_FFFF_FFFF

  /** The objects of one SAI API.  Every call may be refused; a create that
      succeeds returns an id that is neither null nor in use, and removing or
      setting an unknown id fails.  `failures` counts the calls that SAI refused
      although nothing was wrong with them, so a run in which it stays the same
      is one in which every call that could succeed did. */
  class Store<T> {
    var live: map<Oid, T>
    ghost var failures: nat

    constructor ()
      ensures live == map[] && failures == 0
    {
      live, failures := map[], 0;
    }

    method Create(obj: T) returns (r: Option<Oid>)
      modifies this
      ensures r.None? ==> live == old(live) && failures == old(failures) + 1
      ensures r.Some? ==> r.value != NULL_OID && r.value !in old(live)
      ensures r.Some? ==> live == old(live)[r.value := obj] && failures == old(failures)
    {
      var id: Oid := *;
      var accepted: bool := *;
      if accepted && id != NULL_OID && id !in live {
        live := live[id := obj];
        r := Some(id);
      } else {
        failures := failures + 1;
        r := None;
      }
    }

    /** A create whose mandatory parent attribute is `parent`: SAI refuses the
        null id there. */
    method CreateUnder(parent: Oid, obj: T) returns (r: Option<Oid>)
      modifies this
      ensures parent == NULL_OID ==> r.None? && failures == old(failures)
      ensures r.None? && parent != NULL_OID ==> failures == old(failures) + 1
      ensures r.None? ==> live == old(live)
      ensures r.Some? ==> r.value != NULL_OID && r.value !in old(live)
      ensures r.Some? ==> live == old(live)[r.value := obj] && failures == old(failures)
    {
      if parent == NULL_OID {
        return None;
      }
      r := Create(obj);
    }

    method Remove(id: Oid) returns (ok: bool)
      modifies this
      ensures !ok ==> live == old(live) && failures == old(failures) + (if id in live then 1 else 0)
      ensures ok ==> id in old(live) && live == old(live) - {id} && failures == old(failures)
    {
      ok := *;
      if id !in live {
        ok := false;
      } else if ok {
        live := live - {id};
      } else {
        failures := failures + 1;
      }
    }

    /** Setting an attribute: the object becomes `obj`. */
    method Set(id: Oid, obj: T) returns (ok: bool)
      modifies this
      ensures !ok ==> live == old(live) && failures == old(failures) + (if id in live then 1 else 0)
      ensures ok ==> id in old(live) && live == old(live)[id := obj] && failures == old(failures)
    {
      ok := *;
      if id !in live {
        ok := false;
      } else if ok {
        live := live[id := obj];
      } else {
        failures := failures + 1;
      }
    }

    /** Reading the attributes of an object. */
    method Get(id: Oid) returns (r: Option<T>)
      modifies this`failures
      ensures r.Some? ==> id in live && r.value == live[id] && failures == old(failures)
      ensures r.None? ==> failures == old(failures) + (if id in live then 1 else 0)
    {
      var ok: bool := *;
      if id !in live {
        return None;
      }
      if !ok {
        failures := failures + 1;
        return None;
      }
      return Some(live[id]);
    }
  }
}
