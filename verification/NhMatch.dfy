/** The greedy match of src/nas_ndi_route.c between requested ids and the
    recorded (next hop, member) pairs of a group: each request takes the first
    recorded pair that fits and marks it as used. */
module NhMatch {
  import opened Types
  import opened NdiMap

  /** The two filters that the match is called with. */
  datatype Field = Val1 | Val2

  /** A request for the id that marks used pairs. */
  const MARKER := Data(ALL_ONES, ALL_ONES)

  /** The field that the filter compares. */
  function Asked(d: Data, f: Field): Oid {
    if f.Val1? then d.val1 else d.val2
  }

  predicate Hits(d: Data, e: Data, f: Field) {
    Asked(d, f) == Asked(e, f)
  }

  function Fill(d: Data, e: Data, f: Field): Data {
    if f.Val1? then d.(val2 := e.val2) else d.(val1 := e.val1)
  }

  /** A used pair has -1 in the compared field. */
  function Consume(e: Data, f: Field): Data {
    if f.Val1? then e.(val1 := ALL_ONES) else e.(val2 := ALL_ONES)
  }

  /** The index of the first hit, or the length when there is none. */
  function FirstHit(d: Data, t: seq<Data>, f: Field): (j: nat)
    ensures j <= |t|
    ensures j < |t| ==> Hits(d, t[j], f)
    ensures forall i | 0 <= i < j :: !Hits(d, t[i], f)
  {
    if t == [] || Hits(d, t[0], f) then 0 else 1 + FirstHit(d, t[1..], f)
  }

  function Used(t: seq<Data>, j: nat, f: Field): seq<Data>
    requires j <= |t|
  {
    if j < |t| then t[j := Consume(t[j], f)] else t
  }

  function Answered(d: Data, t: seq<Data>, j: nat, f: Field): Data
    requires j <= |t|
  {
    if j < |t| then Fill(d, t[j], f) else d
  }

  function Greedy(req: seq<Data>, t: seq<Data>, f: Field): seq<Data> {
    if req == [] then []
    else
      var j := FirstHit(req[0], t, f);
      [Answered(req[0], t, j, f)] + Greedy(req[1..], Used(t, j, f), f)
  }

  /** Where each request found its pair; the table's length when it did not. */
  function Found(req: seq<Data>, t: seq<Data>, f: Field): (at: seq<nat>)
    ensures |at| == |req|
  {
    if req == [] then []
    else
      var j := FirstHit(req[0], t, f);
      [j] + Found(req[1..], Used(t, j, f), f)
  }

  function AskedAll(s: seq<Data>, f: Field): (r: seq<Oid>)
    ensures |r| == |s| && forall i | 0 <= i < |s| :: r[i] == Asked(s[i], f)
  {
    if s == [] then [] else [Asked(s[0], f)] + AskedAll(s[1..], f)
  }

  predicate NoMarker(s: seq<Data>, f: Field) {
    forall i | 0 <= i < |s| :: Asked(s[i], f) != ALL_ONES
  }

  /** Requests answered first leave the later ones a used table. */
  lemma {:induction false} GreedyConcat(a: seq<Data>, b: seq<Data>, t: seq<Data>, f: Field)
    ensures Greedy(a + b, t, f) == Greedy(a, t, f) + Greedy(b, TableAfter(a, t, f), f)
    ensures TableAfter(a + b, t, f) == TableAfter(b, TableAfter(a, t, f), f)
    ensures Found(a + b, t, f) == Found(a, t, f) + Found(b, TableAfter(a, t, f), f)
  {
    if a == [] {
      assert a + b == b;
    } else {
      assert (a + b)[0] == a[0] && (a + b)[1..] == a[1..] + b;
      GreedyConcat(a[1..], b, Used(t, FirstHit(a[0], t, f), f), f);
    }
  }

  function TableAfter(req: seq<Data>, t: seq<Data>, f: Field): (r: seq<Data>)
    ensures |r| == |t|
  {
    if req == [] then t else TableAfter(req[1..], Used(t, FirstHit(req[0], t, f), f), f)
  }

  lemma GreedyNothing(t: seq<Data>, f: Field)
    ensures Greedy([], t, f) == [] && TableAfter([], t, f) == t
  {
  }

  lemma {:induction false} GreedyLength(req: seq<Data>, t: seq<Data>, f: Field)
    ensures |Greedy(req, t, f)| == |req|
  {
    if req != [] {
      GreedyLength(req[1..], Used(t, FirstHit(req[0], t, f), f), f);
    }
  }

  /** `out` answers `req` from the pairs of `t` at the positions `at`: each from
      a pair with the asked id, no pair twice. */
  ghost predicate AnswersFrom(req: seq<Data>, t: seq<Data>, f: Field, out: seq<Data>, at: seq<nat>) {
    && |out| == |at| == |req|
    && (forall i | 0 <= i < |req| :: at[i] <= |t| && out[i] == Answered(req[i], t, at[i], f))
    && (forall i | 0 <= i < |req| && at[i] < |t| :: Asked(t[at[i]], f) == Asked(req[i], f))
    && Injective(at, |t|)
  }

  /** No position below `n` occurs twice. */
  ghost predicate Injective(at: seq<nat>, n: nat) {
    forall i, j | 0 <= i < j < |at| && at[i] < n :: at[i] != at[j]
  }

  lemma InjectiveCons(j: nat, at: seq<nat>, n: nat)
    requires Injective(at, n) && forall i | 0 <= i < |at| && at[i] < n :: at[i] != j
    ensures Injective([j] + at, n)
  {
  }

  lemma AnswersFromCons(d: Data, rest: seq<Data>, t: seq<Data>, f: Field, out: seq<Data>, at: seq<nat>)
    requires NoMarker(rest, f)
    requires AnswersFrom(rest, Used(t, FirstHit(d, t, f), f), f, out, at)
    ensures var j := FirstHit(d, t, f);
            AnswersFrom([d] + rest, t, f, [Answered(d, t, j, f)] + out, [j] + at)
  {
    var j := FirstHit(d, t, f);
    var t' := Used(t, j, f);
    forall i | 0 <= i < |rest| && at[i] < |t| ensures at[i] != j && t'[at[i]] == t[at[i]] {
      assert Asked(t'[at[i]], f) != ALL_ONES;
    }
    InjectiveCons(j, at, |t|);
    hide FirstHit, Used, NoMarker, Injective;
    var req, o, a := [d] + rest, [Answered(d, t, j, f)] + out, [j] + at;
    forall i | 0 <= i < |req|
      ensures a[i] <= |t| && o[i] == Answered(req[i], t, a[i], f)
      ensures a[i] < |t| ==> Asked(t[a[i]], f) == Asked(req[i], f)
    {
      if i > 0 {
        assert o[i] == out[i - 1] && a[i] == at[i - 1] && req[i] == rest[i - 1];
      }
    }
  }

  /** Without the marker among the requests, each request is answered from its
      own recorded pair, unchanged, and no pair answers two requests. */
  lemma {:induction false} GreedyAnswers(req: seq<Data>, t: seq<Data>, f: Field)
    requires NoMarker(req, f)
    ensures AnswersFrom(req, t, f, Greedy(req, t, f), Found(req, t, f))
  {
    if req != [] {
      var t' := Used(t, FirstHit(req[0], t, f), f);
      GreedyAnswers(req[1..], t', f);
      AnswersFromCons(req[0], req[1..], t, f, Greedy(req[1..], t', f), Found(req[1..], t', f));
      assert req == [req[0]] + req[1..];
    }
  }

  /** Containment that counts repeats. */
  predicate Contained(a: seq<Oid>, b: seq<Oid>) {
    multiset(a) <= multiset(b)
  }

  ghost predicate AllWithin(at: seq<nat>, n: nat) {
    forall i | 0 <= i < |at| :: at[i] < n
  }

  lemma AllWithinCons(j: nat, at: seq<nat>, n: nat)
    ensures AllWithin([j] + at, n) <==> j < n && AllWithin(at, n)
  {
    var a := [j] + at;
    if AllWithin(a, n) {
      assert a[0] < n;
      forall i | 0 <= i < |at| ensures at[i] < n {
        assert a[i + 1] < n;
      }
    }
  }

  lemma UsedAsked(t: seq<Data>, j: nat, f: Field)
    requires j < |t|
    ensures multiset(AskedAll(Used(t, j, f), f)) == multiset(AskedAll(t, f)) - multiset{Asked(t[j], f)} + multiset{ALL_ONES}
  {
    hide AskedAll;
    assert AskedAll(Used(t, j, f), f) == AskedAll(t, f)[j := ALL_ONES];
    UpdateCounts(AskedAll(t, f), j, ALL_ONES);
  }

  lemma UpdateCounts(s: seq<Oid>, j: nat, y: Oid)
    requires j < |s|
    ensures multiset(s[j := y]) == multiset(s) - multiset{s[j]} + multiset{y}
  {
  }

  /** Every request finds a pair exactly when the requests, counted with repeats,
      are contained in what is recorded. */
  lemma {:induction false} AllFound(req: seq<Data>, t: seq<Data>, f: Field)
    requires NoMarker(req, f)
    ensures AllWithin(Found(req, t, f), |t|) <==> Contained(AskedAll(req, f), AskedAll(t, f))
  {
    if req == [] {
    } else {
      FirstFound(req, t, f);
      FirstContained(req, t, f);
      hide AskedAll, Found, AllWithin, Contained;
      AllFound(req[1..], Used(t, FirstHit(req[0], t, f), f), f);
    }
  }

  lemma FirstFound(req: seq<Data>, t: seq<Data>, f: Field)
    requires req != []
    ensures var j := FirstHit(req[0], t, f);
            var t' := Used(t, j, f);
            && |t'| == |t|
            && (AllWithin(Found(req, t, f), |t|) <==> j < |t| && AllWithin(Found(req[1..], t', f), |t'|))
  {
    var j := FirstHit(req[0], t, f);
    AllWithinCons(j, Found(req[1..], Used(t, j, f), f), |t|);
  }

  /** One request more is contained exactly when its pair is there and the rest
      is contained in the used table. */
  lemma FirstContained(req: seq<Data>, t: seq<Data>, f: Field)
    requires req != [] && NoMarker(req, f)
    ensures NoMarker(req[1..], f)
    ensures var j := FirstHit(req[0], t, f);
            Contained(AskedAll(req, f), AskedAll(t, f)) <==>
            j < |t| && Contained(AskedAll(req[1..], f), AskedAll(Used(t, j, f), f))
  {
    var j, x, rest := FirstHit(req[0], t, f), Asked(req[0], f), AskedAll(req[1..], f);
    assert AskedAll(req, f) == [x] + rest;
    hide AskedAll;
    NotAmong(rest, ALL_ONES);
    if j < |t| {
      UsedAsked(t, j, f);
      assert AskedAll(t, f)[j] == x;
      Removal(rest, multiset(AskedAll(t, f)), x, ALL_ONES);
    } else {
      NotAmong(AskedAll(t, f), x);
      assert multiset([x] + rest)[x] > 0;
    }
  }

  lemma NotAmong(s: seq<Oid>, x: Oid)
    requires forall i | 0 <= i < |s| :: s[i] != x
    ensures multiset(s)[x] == 0
  {
  }

  lemma Removal(rest: seq<Oid>, m: multiset<Oid>, x: Oid, marker: Oid)
    requires x in m && multiset(rest)[marker] == 0
    ensures multiset(rest) <= m - multiset{x} + multiset{marker} <==> multiset([x] + rest) <= m
  {
  }

  predicate DistinctVal2(t: seq<Data>) {
    forall i, j | 0 <= i < j < |t| :: t[i].val2 != t[j].val2
  }

  /** Distinct ids that are all recorded are contained in what is recorded. */
  lemma {:induction false} DistinctContained(a: seq<Oid>, b: seq<Oid>)
    requires forall i, j | 0 <= i < j < |a| :: a[i] != a[j]
    requires forall x | x in a :: x in b
    ensures Contained(a, b)
  {
    if a != [] {
      var a' := a[..|a| - 1];
      assert a == a' + [a[|a| - 1]];
      DistinctContained(a', b);
      NotAmong(a', a[|a| - 1]);
      assert a[|a| - 1] in a && a[|a| - 1] in b;
      assert multiset(b)[a[|a| - 1]] > 0;
    }
  }

  /** What the deletion of next hops relies on: if the requested ids, counted
      with repeats, are recorded and none is the marker, the match returns
      pairwise distinct recorded members of the next hops asked for. */
  lemma MatchReturnsMembers(req: seq<Data>, t: seq<Data>)
    requires NoMarker(req, Val1) && DistinctVal2(t)
    requires Contained(AskedAll(req, Val1), AskedAll(t, Val1))
    ensures var out := Greedy(req, t, Val1);
            && |out| == |req| && DistinctVal2(out)
            && forall i | 0 <= i < |req| :: out[i] in t && out[i].val1 == req[i].val1
  {
    GreedyAnswers(req, t, Val1);
    AllFound(req, t, Val1);
    hide Greedy, Found, AskedAll, Contained, NoMarker;
    var out, at := Greedy(req, t, Val1), Found(req, t, Val1);
    forall i | 0 <= i < |req| ensures at[i] < |t| && out[i] == t[at[i]] && out[i].val1 == req[i].val1 {
      assert Asked(t[at[i]], Val1) == Asked(req[i], Val1);
    }
    DistinctSelection(out, t, at);
  }

  lemma DistinctSelection(out: seq<Data>, t: seq<Data>, at: seq<nat>)
    requires DistinctVal2(t) && |out| == |at|
    requires forall i | 0 <= i < |at| :: at[i] < |t| && out[i] == t[at[i]]
    requires Injective(at, |t|)
    ensures DistinctVal2(out)
  {
  }

  function MemberQuery(s: seq<Data>): (q: seq<Data>)
    ensures |q| == |s| && forall i | 0 <= i < |s| :: q[i] == Data(0, s[i].val2)
  {
    seq(|s|, i requires 0 <= i < |s| => Data(0, s[i].val2))
  }

  /** Looking the members up again by member id gives back the requested next
      hops. */
  lemma MatchRoundTrips(req: seq<Data>, t: seq<Data>)
    requires NoMarker(req, Val1) && NoMarker(t, Val2) && DistinctVal2(t)
    requires Contained(AskedAll(req, Val1), AskedAll(t, Val1))
    ensures var back := Greedy(MemberQuery(Greedy(req, t, Val1)), t, Val2);
            |back| == |req| && forall i | 0 <= i < |req| :: back[i].val1 == req[i].val1
  {
    MatchReturnsMembers(req, t);
    LookupByMember(Greedy(req, t, Val1), t);
  }

  /** Distinct recorded members are found by id. */
  lemma LookupByMember(s: seq<Data>, t: seq<Data>)
    requires NoMarker(t, Val2) && DistinctVal2(t) && DistinctVal2(s)
    requires forall i | 0 <= i < |s| :: s[i] in t
    ensures var back := Greedy(MemberQuery(s), t, Val2);
            |back| == |s| && forall i | 0 <= i < |s| :: back[i].val1 == s[i].val1
  {
    var q := MemberQuery(s);
    assert NoMarker(q, Val2);
    GreedyAnswers(q, t, Val2);
    QueriesContained(s, t);
    AllFound(q, t, Val2);
    var at := Found(q, t, Val2);
    hide NoMarker, AskedAll, DistinctVal2, Greedy, Found;
    forall i | 0 <= i < |s| ensures Greedy(q, t, Val2)[i].val1 == s[i].val1 {
      assert at[i] < |t| && Asked(t[at[i]], Val2) == Asked(q[i], Val2);
      OneVal2(t, t[at[i]], s[i]);
    }
  }

  lemma OneVal2(t: seq<Data>, d: Data, e: Data)
    requires DistinctVal2(t) && d in t && e in t && d.val2 == e.val2
    ensures d == e
  {
  }

  lemma QueriesContained(s: seq<Data>, t: seq<Data>)
    requires DistinctVal2(s) && forall i | 0 <= i < |s| :: s[i] in t
    ensures Contained(AskedAll(MemberQuery(s), Val2), AskedAll(t, Val2))
  {
    hide AskedAll, MemberQuery;
    var ids := AskedAll(MemberQuery(s), Val2);
    forall i | 0 <= i < |ids| ensures ids[i] == s[i].val2 && ids[i] in AskedAll(t, Val2) {
      var k :| 0 <= k < |t| && t[k] == s[i];
      assert AskedAll(t, Val2)[k] == ids[i];
    }
    DistinctContained(ids, AskedAll(t, Val2));
  }

  /** Whatever the requests are, the member ids handed out are recorded ones or
      the caller's own. */
  lemma {:induction false} HandedOut(req: seq<Data>, t: seq<Data>)
    ensures |Greedy(req, t, Val1)| == |req|
    ensures forall i | 0 <= i < |req| ::
              Greedy(req, t, Val1)[i].val2 == req[i].val2 || exists k :: 0 <= k < |t| && t[k].val2 == Greedy(req, t, Val1)[i].val2
  {
    if req != [] {
      var j := FirstHit(req[0], t, Val1);
      var t' := Used(t, j, Val1);
      HandedOut(req[1..], t');
      var out, rest := Greedy(req, t, Val1), Greedy(req[1..], t', Val1);
      forall i | 0 <= i < |req|
        ensures out[i].val2 == req[i].val2 || exists k :: 0 <= k < |t| && t[k].val2 == out[i].val2
      {
        if i == 0 {
          assert j < |t| ==> t[j].val2 == out[0].val2;
        } else if out[i].val2 != req[i].val2 {
          assert out[i] == rest[i - 1] && req[i] == req[1..][i - 1];
          var k :| 0 <= k < |t'| && t'[k].val2 == rest[i - 1].val2;
          assert t[k].val2 == out[i].val2;
        }
      }
    }
  }

  /** Answering one request more. */
  lemma GreedySnoc(a: seq<Data>, d: Data, t: seq<Data>, f: Field, j: nat)
    requires j <= |t| && (j < |t| ==> Hits(d, TableAfter(a, t, f)[j], f))
    requires forall k | 0 <= k < j :: !Hits(d, TableAfter(a, t, f)[k], f)
    ensures var t' := TableAfter(a, t, f);
            && Greedy(a + [d], t, f) == Greedy(a, t, f) + [Answered(d, t', j, f)]
            && TableAfter(a + [d], t, f) == Used(t', j, f)
  {
    GreedyConcat(a, [d], t, f);
    var t' := TableAfter(a, t, f);
    assert FirstHit(d, t', f) == j;
    assert [d][1..] == [];
  }

  lemma NoMarkerCons(req: seq<Data>, f: Field)
    requires req != []
    ensures NoMarker(req, f) <==> Asked(req[0], f) != ALL_ONES && NoMarker(req[1..], f)
  {
    assert req == [req[0]] + req[1..];
  }

  lemma FirstHitIs(d: Data, t: seq<Data>, j: nat, f: Field)
    requires j <= |t| && (j < |t| ==> Hits(d, t[j], f))
    requires forall i | 0 <= i < j :: !Hits(d, t[i], f)
    ensures FirstHit(d, t, f) == j
  {
  }

  /** What a request hits depends on the asked id alone. */
  lemma SameHit(d: Data, e: Data, t: seq<Data>, f: Field)
    requires Asked(d, f) == Asked(e, f)
    ensures FirstHit(d, t, f) == FirstHit(e, t, f)
  {
    FirstHitIs(d, t, FirstHit(e, t, f), f);
  }

  /** A used pair is marked, so it may become the first marked one. */
  lemma MarkerAfter(t: seq<Data>, j: nat, f: Field)
    requires j < |t|
    ensures var p := FirstHit(MARKER, t, f);
            FirstHit(MARKER, Used(t, j, f), f) == if j < p then j else p
  {
    var p := FirstHit(MARKER, t, f);
    FirstHitIs(MARKER, Used(t, j, f), if j < p then j else p, f);
  }

  /** Another pair used changes nothing for a request that hits elsewhere. */
  lemma HitBeside(d: Data, t: seq<Data>, j: nat, f: Field)
    requires j < |t| && FirstHit(d, t, f) != j && Asked(d, f) != ALL_ONES
    ensures FirstHit(d, Used(t, j, f), f) == FirstHit(d, t, f)
  {
    FirstHitIs(d, Used(t, j, f), FirstHit(d, t, f), f);
  }

  /** If every request finds a pair, none of them twice and none that was used
      already, the first marked one among those, no request is for the marker. */
  lemma {:induction false} FoundOnce(req: seq<Data>, t: seq<Data>, f: Field, used: set<nat>)
    requires FirstHit(MARKER, t, f) < |t| && FirstHit(MARKER, t, f) in used
    requires var at := Found(req, t, f);
             AllWithin(at, |t|) && Injective(at, |t|) && forall i | 0 <= i < |at| :: at[i] !in used
    ensures NoMarker(req, f)
  {
    if req != [] {
      var j := FirstHit(req[0], t, f);
      var t', at := Used(t, j, f), Found(req, t, f);
      assert at[0] == j && at[1..] == Found(req[1..], t', f);
      forall i | 0 <= i < |at[1..]| ensures at[1..][i] < |t| && at[1..][i] !in used + {j} {
        assert at[1..][i] == at[i + 1];
      }
      MarkerAfter(t, j, f);
      FoundOnce(req[1..], t', f, used + {j});
      if Asked(req[0], f) == ALL_ONES {
        SameHit(req[0], MARKER, t, f);
      }
      NoMarkerCons(req, f);
    }
  }

  /** Requests that are not for the marker: the first pair recorded for each is
      among the pairs found. */
  lemma {:induction false} FirstAmongFound(a: seq<Data>, t: seq<Data>, f: Field, i: nat)
    requires NoMarker(a, f) && AllWithin(Found(a, t, f), |t|) && i < |a|
    ensures FirstHit(a[i], t, f) in Found(a, t, f)
  {
    var j, at := FirstHit(a[0], t, f), Found(a, t, f);
    var t', rest := Used(t, j, f), Found(a[1..], Used(t, j, f), f);
    FirstFound(a, t, f);
    NoMarkerCons(a, f);
    assert at == [j] + rest;
    if i > 0 && FirstHit(a[i], t, f) != j {
      FirstAmongFound(a[1..], t', f, i - 1);
      HitBeside(a[i], t, j, f);
    }
  }

  /** The first marked pair afterwards is the first one found or the first one
      that was marked before. */
  lemma {:induction false} MarkerAmongFound(a: seq<Data>, t: seq<Data>, f: Field)
    requires AllWithin(Found(a, t, f), |t|)
    ensures var p, q := FirstHit(MARKER, t, f), FirstHit(MARKER, TableAfter(a, t, f), f);
            q <= p && (q in Found(a, t, f) || q == p) && forall x | x in Found(a, t, f) :: q <= x
  {
    if a != [] {
      var j, at := FirstHit(a[0], t, f), Found(a, t, f);
      var t', rest := Used(t, j, f), Found(a[1..], Used(t, j, f), f);
      assert at == [j] + rest && TableAfter(a, t, f) == TableAfter(a[1..], t', f);
      FirstFound(a, t, f);
      hide FirstHit, Found, AllWithin, Used, TableAfter;
      MarkerAmongFound(a[1..], t', f);
      MarkerAfter(t, j, f);
    }
  }

  lemma FoundMarker(d: Data, b: seq<Data>, t: seq<Data>, f: Field)
    requires Asked(d, f) == ALL_ONES
    ensures Found([d] + b, t, f) == [FirstHit(MARKER, t, f)] + Found(b, t, f)
  {
    SameHit(d, MARKER, t, f);
    assert Used(t, FirstHit(d, t, f), f) == t;
    assert ([d] + b)[1..] == b;
  }

  /** A request for the marker takes no pair away from the others. */
  lemma FoundAroundMarker(a: seq<Data>, d: Data, b: seq<Data>, t: seq<Data>, f: Field)
    requires Asked(d, f) == ALL_ONES
    ensures var t' := TableAfter(a, t, f);
            && Found(a + [d] + b, t, f) == Found(a, t, f) + [FirstHit(MARKER, t', f)] + Found(b, t', f)
            && Found(a + b, t, f) == Found(a, t, f) + Found(b, t', f)
  {
    hide *;
    var t' := TableAfter(a, t, f);
    GreedyConcat(a, b, t, f);
    GreedyConcat(a, [d] + b, t, f);
    FoundMarker(d, b, t', f);
    assert a + [d] + b == a + ([d] + b);
    assert Found(a, t, f) + [FirstHit(MARKER, t', f)] + Found(b, t', f) ==
           Found(a, t, f) + ([FirstHit(MARKER, t', f)] + Found(b, t', f));
  }

  /** One position more among distinct ones. */
  lemma OneMore(x: seq<nat>, q: nat, y: seq<nat>, n: nat)
    ensures AllWithin(x + [q] + y, n) && Injective(x + [q] + y, n) <==>
            AllWithin(x + y, n) && Injective(x + y, n) && q < n && q !in x + y
  {
    var s, r := x + [q] + y, x + y;
    assert forall i | 0 <= i < |r| :: r[i] == s[if i < |x| then i else i + 1];
    assert forall i | 0 <= i < |s| && i != |x| :: s[i] == r[if i < |x| then i else i - 1];
    assert s[|x|] == q;
  }

  /** No request before one for the marker is for an id recorded ahead of the
      first pair that is marked already, and none is for the marker. */
  ghost predicate MarkerFirst(req: seq<Data>, t: seq<Data>, f: Field) {
    forall i, k | 0 <= i < k < |req| && Asked(req[k], f) == ALL_ONES ::
      FirstHit(MARKER, t, f) < FirstHit(req[i], t, f)
  }

  /** Every request is for an id that is recorded past `p` only. */
  ghost predicate AllPast(p: nat, a: seq<Data>, t: seq<Data>, f: Field) {
    forall i | 0 <= i < |a| :: p < FirstHit(a[i], t, f)
  }

  ghost predicate NoEarlier(a: seq<Data>, t: seq<Data>, f: Field, x: seq<nat>) {
    |x| == |a| && forall i | 0 <= i < |x| :: FirstHit(a[i], t, f) <= x[i]
  }

  /** A request that is answered is answered from its own pair, which is no
      earlier than the first such pair recorded and is not marked. */
  lemma OwnPair(req: seq<Data>, t: seq<Data>, f: Field, out: seq<Data>, at: seq<nat>, i: nat)
    requires NoMarker(req, f) && AnswersFrom(req, t, f, out, at) && AllWithin(at, |t|) && i < |at|
    ensures FirstHit(req[i], t, f) <= at[i] != FirstHit(MARKER, t, f)
  {
    assert Asked(t[at[i]], f) == Asked(req[i], f) != ALL_ONES;
  }

  lemma NotPast(p: nat, q: nat, a: seq<Data>, t: seq<Data>, f: Field, x: seq<nat>)
    requires NoEarlier(a, t, f, x) && q in x && q <= p
    ensures !AllPast(p, a, t, f)
  {
    hide FirstHit;
    var i :| 0 <= i < |x| && x[i] == q;
    assert FirstHit(a[i], t, f) <= x[i];
  }

  lemma AllArePast(p: nat, a: seq<Data>, t: seq<Data>, f: Field)
    requires NoMarker(a, f) && AllWithin(Found(a, t, f), |t|)
    requires p !in Found(a, t, f) && forall v | v in Found(a, t, f) :: p <= v
    ensures AllPast(p, a, t, f)
  {
    hide FirstHit, Found, NoMarker, AllWithin;
    forall i | 0 <= i < |a| ensures p < FirstHit(a[i], t, f) {
      FirstAmongFound(a, t, f, i);
    }
  }

  lemma OwnPairs(a: seq<Data>, b: seq<Data>, t: seq<Data>, f: Field, x: seq<nat>, y: seq<nat>)
    requires NoMarker(a + b, f) && |x| == |a| && AllWithin(x + y, |t|)
    requires AnswersFrom(a + b, t, f, Greedy(a + b, t, f), x + y)
    ensures AllWithin(x, |t|) && FirstHit(MARKER, t, f) !in x && FirstHit(MARKER, t, f) !in y
    ensures NoEarlier(a, t, f, x)
  {
    hide Greedy, FirstHit, NoMarker, Injective;
    var at := x + y;
    forall i | 0 <= i < |at| ensures FirstHit((a + b)[i], t, f) <= at[i] != FirstHit(MARKER, t, f) {
      OwnPair(a + b, t, f, Greedy(a + b, t, f), at, i);
    }
    hide AnswersFrom;
    assert forall i | 0 <= i < |x| :: at[i] == x[i] && (a + b)[i] == a[i];
    assert forall i | 0 <= i < |y| :: at[|x| + i] == y[i];
  }

  /** The request for the marker finds a pair of its own. */
  lemma AroundMarker(a: seq<Data>, b: seq<Data>, t: seq<Data>, f: Field, x: seq<nat>, y: seq<nat>)
    requires NoMarker(a, f) && NoMarker(a + b, f) && x == Found(a, t, f) && AllWithin(x + y, |t|)
    requires AnswersFrom(a + b, t, f, Greedy(a + b, t, f), x + y)
    ensures var p, q := FirstHit(MARKER, t, f), FirstHit(MARKER, TableAfter(a, t, f), f);
            q < |t| && q !in x + y <==> p < |t| && AllPast(p, a, t, f)
  {
    hide *;
    var p, q := FirstHit(MARKER, t, f), FirstHit(MARKER, TableAfter(a, t, f), f);
    OwnPairs(a, b, t, f, x, y);
    MarkerAmongFound(a, t, f);
    if q in x {
      NotPast(p, q, a, t, f, x);
    } else {
      AllArePast(p, a, t, f);
    }
  }

  /** One request for the marker among others. */
  lemma OneMarker(a: seq<Data>, d: Data, b: seq<Data>, t: seq<Data>, f: Field)
    requires NoMarker(a, f) && NoMarker(a + b, f) && Asked(d, f) == ALL_ONES
    ensures var at := Found(a + [d] + b, t, f);
            AllWithin(at, |t|) && Injective(at, |t|) <==>
            && Contained(AskedAll(a + b, f), AskedAll(t, f)) && FirstHit(MARKER, t, f) < |t|
            && AllPast(FirstHit(MARKER, t, f), a, t, f)
  {
    var t', p := TableAfter(a, t, f), FirstHit(MARKER, t, f);
    var x, q, y := Found(a, t, f), FirstHit(MARKER, TableAfter(a, t, f), f), Found(b, TableAfter(a, t, f), f);
    FoundAroundMarker(a, d, b, t, f);
    OneMore(x, q, y, |t|);
    GreedyAnswers(a + b, t, f);
    AllFound(a + b, t, f);
    if AllWithin(x + y, |t|) {
      AroundMarker(a, b, t, f, x, y);
    }
  }

  lemma AskedConcat(a: seq<Data>, d: Data, b: seq<Data>, f: Field)
    ensures AskedAll(a + [d] + b, f) == AskedAll(a, f) + [Asked(d, f)] + AskedAll(b, f)
    ensures AskedAll(a + b, f) == AskedAll(a, f) + AskedAll(b, f)
  {
    hide AskedAll;
  }

  lemma OneCopy(x: seq<Oid>, v: Oid, y: seq<Oid>, m: seq<Oid>)
    requires multiset(x + y)[v] == 0
    ensures Contained(x + [v] + y, m) <==> Contained(x + y, m) && v in m
  {
    assert multiset(x + [v] + y) == multiset(x + y) + multiset{v};
  }

  lemma MarkerContained(a: seq<Data>, d: Data, b: seq<Data>, t: seq<Data>, f: Field)
    requires NoMarker(a + b, f) && Asked(d, f) == ALL_ONES
    ensures Contained(AskedAll(a + [d] + b, f), AskedAll(t, f)) <==>
            Contained(AskedAll(a + b, f), AskedAll(t, f)) && FirstHit(MARKER, t, f) < |t|
  {
    AskedConcat(a, d, b, f);
    hide AskedAll, Contained;
    var x, y, p, all := AskedAll(a, f), AskedAll(b, f), FirstHit(MARKER, t, f), AskedAll(t, f);
    NotAmong(x + y, ALL_ONES) by {
      assert forall i | 0 <= i < |a + b| :: Asked((a + b)[i], f) != ALL_ONES;
    }
    if p < |t| {
      assert all[p] == ALL_ONES;
    } else {
      NotAmong(all, ALL_ONES);
    }
    OneCopy(x, ALL_ONES, y, all);
  }

  lemma AfterOne(x: seq<nat>, q: nat, y: seq<nat>, n: nat)
    requires AllWithin(x + [q] + y, n) && Injective(x + [q] + y, n)
    ensures q < n && AllWithin(y, n) && Injective(y, n) && q !in y
  {
    var at := x + [q] + y;
    assert at[|x|] == q;
    assert forall i | 0 <= i < |y| :: y[i] == at[|x| + 1 + i];
  }

  /** A second request for the marker hits the pair that the first one hit. */
  lemma TwoMarkers(a: seq<Data>, d: Data, b: seq<Data>, t: seq<Data>, f: Field)
    requires Asked(d, f) == ALL_ONES && !NoMarker(b, f)
    ensures var at := Found(a + [d] + b, t, f); !(AllWithin(at, |t|) && Injective(at, |t|))
  {
    var t' := TableAfter(a, t, f);
    FoundAroundMarker(a, d, b, t, f);
    var at, q, y := Found(a + [d] + b, t, f), FirstHit(MARKER, t', f), Found(b, t', f);
    if AllWithin(at, |t|) && Injective(at, |t|) {
      AfterOne(Found(a, t, f), q, y, |t|);
      FoundOnce(b, t', f, {q});
    }
  }

  lemma TwoMarkersFirst(a: seq<Data>, d: Data, b: seq<Data>, t: seq<Data>, f: Field)
    requires Asked(d, f) == ALL_ONES && !NoMarker(b, f)
    ensures !MarkerFirst(a + [d] + b, t, f)
  {
    hide FirstHit;
    var k :| 0 <= k < |b| && Asked(b[k], f) == ALL_ONES;
    var req := a + [d] + b;
    assert req[|a|] == d && req[|a| + 1 + k] == b[k];
    SameHit(d, MARKER, t, f);
  }

  lemma OneMarkerFirst(a: seq<Data>, d: Data, b: seq<Data>, t: seq<Data>, f: Field)
    requires NoMarker(a, f) && NoMarker(b, f) && Asked(d, f) == ALL_ONES
    ensures MarkerFirst(a + [d] + b, t, f) <==> AllPast(FirstHit(MARKER, t, f), a, t, f)
  {
    hide FirstHit;
    var req := a + [d] + b;
    assert req[|a|] == d;
    assert forall i | 0 <= i < |a| :: req[i] == a[i];
    assert forall k | |a| < k < |req| :: req[k] == b[k - |a| - 1];
  }

  /** When the match is right: each request gets a recorded pair of its own
      exactly when the requests, counted with repeats, are all recorded and none
      that comes before a request for the marker is for the marker or for an id
      recorded ahead of the first marked pair. */
  lemma MatchIsRight(req: seq<Data>, t: seq<Data>, f: Field)
    ensures AllWithin(Found(req, t, f), |t|) && Injective(Found(req, t, f), |t|) <==>
            Contained(AskedAll(req, f), AskedAll(t, f)) && MarkerFirst(req, t, f)
  {
    hide Found, AllWithin, Injective, Contained, AskedAll, Greedy;
    var k := FirstHit(MARKER, req, f);
    if k == |req| {
      assert NoMarker(req, f);
      GreedyAnswers(req, t, f);
      AllFound(req, t, f);
    } else {
      var a, d, b := req[..k], req[k], req[k + 1..];
      assert req == a + [d] + b;
      if NoMarker(b, f) {
        assert NoMarker(a + b, f);
        OneMarker(a, d, b, t, f);
        MarkerContained(a, d, b, t, f);
        OneMarkerFirst(a, d, b, t, f);
      } else {
        TwoMarkers(a, d, b, t, f);
        TwoMarkersFirst(a, d, b, t, f);
      }
    }
  }

  /** A request for the marker itself is answered from a used pair: the member
      of next hop 7 is handed out a second time, for next hop -1. */
  lemma MarkerIsAnswered()
    ensures Greedy([Data(7, 0), Data(ALL_ONES, 0)], [Data(7, 9)], Val1) == [Data(7, 9), Data(ALL_ONES, 9)]
  {
    var t := [Data(7, 9)];
    var req := [Data(7, 0), Data(ALL_ONES, 0)];
    assert FirstHit(req[0], t, Val1) == 0;
    var t' := Used(t, 0, Val1);
    assert t' == [Data(ALL_ONES, 9)] && req[1..] == [Data(ALL_ONES, 0)];
    assert FirstHit(req[1..][0], t', Val1) == 0;
    assert Greedy(req[1..], t', Val1) == [Data(ALL_ONES, 9)] + Greedy(req[1..][1..], Used(t', 0, Val1), Val1);
  }
}
