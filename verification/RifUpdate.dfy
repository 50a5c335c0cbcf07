/** The attribute loop of src/nas_ndi_router_interface.c: each pass picks one
    requested attribute, sets it and clears its bit. */
module RifUpdate {
  import opened Types

  /** The bits of the flags field; the first six can be updated. */
  datatype Flag = V4State | V6State | SrcMac | Mtu | PimV2 | PimV6 | Virtual | Other(bit: nat) {
    predicate Supported(): (b: bool)
      ensures b <==> this in {V4State, V6State, SrcMac, Mtu, PimV2, PimV6}
    {
      !Virtual? && !Other?
    }
  }

  const SUPPORTED: set<Flag> := {V4State, V6State, SrcMac, Mtu, PimV2, PimV6}

  datatype Values = Values(v4: bool, v6: bool, mac: nat, mtu: nat, pimV2: bool, pimV6: bool)

  function Num(b: bool): nat {
    if b then 1 else 0
  }

  /** Attribute `f` has the value asked for, or is as it was. */
  predicate Gives(before: map<Flag, nat>, after: map<Flag, nat>, f: Flag, asked: bool, value: nat) {
    if asked then f in after && after[f] == value
    else (f in after <==> f in before) && (f in after ==> after[f] == before[f])
  }

  /** The attributes in `flags` have the values asked for, each its own, and the
      others are as they were. */
  ghost predicate AttrsGiven(before: map<Flag, nat>, after: map<Flag, nat>, v: Values, flags: set<Flag>) {
    && Gives(before, after, V4State, V4State in flags, if v.v4 then 1 else 0)
    && Gives(before, after, V6State, V6State in flags, if v.v6 then 1 else 0)
    && Gives(before, after, SrcMac, SrcMac in flags, v.mac)
    && Gives(before, after, Mtu, Mtu in flags, v.mtu)
    && Gives(before, after, PimV2, PimV2 in flags, if v.pimV2 then 1 else 0)
    && Gives(before, after, PimV6, PimV6 in flags, if v.pimV6 then 1 else 0)
    && Gives(before, after, Virtual, Virtual in flags, 1)
    && forall b :: Gives(before, after, Other(b), false, 0)
  }

  function ValueOf(v: Values, f: Flag): nat {
    match f
    case V4State => Num(v.v4)
    case V6State => Num(v.v6)
    case SrcMac => v.mac
    case Mtu => v.mtu
    case PimV2 => Num(v.pimV2)
    case PimV6 => Num(v.pimV6)
    case Virtual => 1
    case Other(_) => 0
  }

  /** What the entry's own flags field holds during the loop: nothing yet, or the
      attribute picked last. */
  datatype Pass = Pass(flags: set<Flag>, entry: Option<Flag>) {
    /** The attribute this pass sets: the first supported one requested, or else
        the one left over from the pass before. */
    function Pick(): Option<Flag> {
      if V4State in flags then Some(V4State)
      else if V6State in flags then Some(V6State)
      else if SrcMac in flags then Some(SrcMac)
      else if Mtu in flags then Some(Mtu)
      else if PimV2 in flags then Some(PimV2)
      else if PimV6 in flags then Some(PimV6)
      else entry
    }

    /** The state after a pass whose attribute SAI has set. */
    function Next(): Pass {
      match Pick()
      case None => this
      case Some(f) => Pass(flags - {f}, Some(f))
    }

    /** The loop is left here: nothing is requested any more, or there is no
        attribute to set, which is an error. */
    predicate Leaves() {
      flags == {} || Pick().None?
    }
  }

  function After(p: Pass, n: nat): Pass {
    if n == 0 then p else After(p, n - 1).Next()
  }

  /** Only supported attributes, or only unsupported ones. */
  predicate Unmixed(flags: set<Flag>) {
    flags <= SUPPORTED || flags !! SUPPORTED
  }

  lemma PickIsSupported(p: Pass)
    ensures p.flags * SUPPORTED != {} ==> p.Pick().Some? && p.Pick().value in p.flags && p.Pick().value.Supported()
    ensures p.flags * SUPPORTED == {} ==> p.Pick() == p.entry
  {
    assert forall f :: f in p.flags * SUPPORTED <==> f in p.flags && f in SUPPORTED;
  }

  /** A pass after `done` has been set: it sets a requested supported attribute,
      a new one unless unsupported ones are all that is left; there is none to
      set only when nothing requested is supported. */
  lemma PickIsRequested(p: Pass, flags: set<Flag>, done: set<Flag>)
    requires p.flags == flags - done && p.flags != {} && done <= flags * SUPPORTED
    requires if done == {} then p.entry.None? else p.entry.Some? && p.entry.value in done
    ensures p.Pick().None? <==> flags !! SUPPORTED
    ensures p.Pick().Some? ==> var f := p.Pick().value;
                               && f in flags * SUPPORTED && p.Next() == Pass(flags - (done + {f}), Some(f))
                               && (flags <= SUPPORTED ==> f !in done)
  {
    PickIsSupported(p);
    if p.Pick().Some? {
      var f := p.Pick().value;
      assert p.flags - {f} == flags - (done + {f});
    } else {
      assert done == {} && p.flags == flags;
    }
  }

  /** The order in which the loop sets the supported attributes. */
  function Rank(f: Flag): nat {
    match f
    case V4State => 0
    case V6State => 1
    case SrcMac => 2
    case Mtu => 3
    case PimV2 => 4
    case PimV6 => 5
    case _ => 6
  }

  /** Those set are the first of those requested. */
  ghost predicate InOrder(flags: set<Flag>, done: set<Flag>) {
    forall f, g | f in flags && g in done && Rank(f) < Rank(g) :: f in done
  }

  /** While unsupported flags are not in the way, each pass leaves one less. */
  lemma OneFlagLess(flags: set<Flag>, done: set<Flag>, f: Flag)
    requires f in flags && f !in done
    ensures |flags - (done + {f})| < |flags - done|
  {
    assert flags - (done + {f}) == flags - done - {f};
  }

  lemma NothingSet(flags: set<Flag>)
    ensures InOrder(flags, {}) && flags == flags - {} && {} <= flags * SUPPORTED
  {
  }

  lemma PickIsFirst(p: Pass, flags: set<Flag>, done: set<Flag>)
    requires flags <= SUPPORTED && p.flags == flags - done && p.flags != {} && InOrder(flags, done)
    ensures p.Pick().Some? && InOrder(flags, done + {p.Pick().value})
  {
    PickIsSupported(p);
    assert p.flags * SUPPORTED == p.flags;
  }

  lemma {:induction false} PassesEnd(flags: set<Flag>, entry: Option<Flag>)
    requires flags <= SUPPORTED
    ensures After(Pass(flags, entry), |flags|).flags == {}
    decreases |flags|
  {
    if flags != {} {
      var p := Pass(flags, entry);
      PickIsSupported(p);
      assert flags * SUPPORTED == flags;
      var f := p.Pick().value;
      PassesEnd(flags - {f}, Some(f));
      AfterNext(p, |flags| - 1);
    }
  }

  lemma {:induction false} AfterNext(p: Pass, n: nat)
    ensures After(p, n + 1) == After(p.Next(), n)
  {
    if n > 0 {
      AfterNext(p, n - 1);
    }
  }

  /** While an unsupported attribute is left over, a supported one can be set
      over and over again. */
  lemma {:induction false} NeverLeaves(flags: set<Flag>, n: nat)
    requires !Unmixed(flags)
    ensures var p := After(Pass(flags, None), n);
            !p.Leaves() && flags - SUPPORTED <= p.flags && (p.entry.Some? ==> p.entry.value.Supported())
            && (n == 0 ==> p.flags * SUPPORTED != {}) && (n > 0 ==> p.entry.Some?)
  {
    if n > 0 {
      NeverLeaves(flags, n - 1);
      PickIsSupported(After(Pass(flags, None), n - 1));
    }
    PickIsSupported(After(Pass(flags, None), n));
  }

  /** If SAI sets whatever it is asked to, the loop ends exactly for flags that
      are all supported or all unsupported. */
  lemma LoopEndsIff(flags: set<Flag>)
    ensures (exists n :: After(Pass(flags, None), n).Leaves()) <==> Unmixed(flags)
  {
    if flags <= SUPPORTED {
      PassesEnd(flags, None);
    } else if flags !! SUPPORTED {
      PickIsSupported(Pass(flags, None));
      assert After(Pass(flags, None), 0).Leaves();
    } else {
      forall n ensures !After(Pass(flags, None), n).Leaves() {
        NeverLeaves(flags, n);
      }
    }
  }

  /** One supported and one unsupported attribute: the supported one is set for
      ever. */
  lemma MixedFlagsNeverEnd()
    ensures forall n :: !After(Pass({Mtu, Other(9)}, None), n).Leaves()
  {
    assert Other(9) in {Mtu, Other(9)} && Other(9) !in SUPPORTED;
    assert Mtu in {Mtu, Other(9)} && Mtu in SUPPORTED;
    LoopEndsIff({Mtu, Other(9)});
  }
}
