/** Choosing at most twenty pieces of evidence for a prompt: demand first, then one per source, then by rank. */
module EvidenceSelection {

  const MAX_ITEMS := 20

  /** `id` is the identity of the object; `rank` stands for the sort key after the demand flag, best first. */
  datatype Evidence = Evidence(id: int, demand: bool, rank: int, source: int)

  // ----- the ranking -----

  predicate NotAfter(a: Evidence, b: Evidence) {
    (a.demand && !b.demand) || (a.demand == b.demand && a.rank <= b.rank)
  }

  predicate IsRanked(xs: seq<Evidence>) {
    forall i, j :: 0 <= i < j < |xs| ==> NotAfter(xs[i], xs[j])
  }

  lemma LastIsLast(xs: seq<Evidence>)
    requires IsRanked(xs) && xs != []
    ensures forall y <- xs :: NotAfter(y, xs[|xs| - 1])
  {
    forall y <- xs ensures NotAfter(y, xs[|xs| - 1]) {
      var i :| 0 <= i < |xs| && xs[i] == y;
    }
  }

  function Insert(xs: seq<Evidence>, x: Evidence): (r: seq<Evidence>)
    requires IsRanked(xs)
    ensures IsRanked(r) && multiset(r) == multiset(xs) + multiset{x} && forall y :: y in r <==> y in xs || y == x
  {
    if xs == [] then [x]
    else
      var n := |xs| - 1;
      assert xs == xs[..n] + [xs[n]];
      LastIsLast(xs);
      if NotAfter(xs[n], x) then xs + [x]
      else
        var r := Insert(xs[..n], x);
        assert forall i | 0 <= i < |r| :: r[i] in r;
        r + [xs[n]]
  }

  /** The stable sort of the standard library. */
  function Ranked(xs: seq<Evidence>): (r: seq<Evidence>)
    ensures IsRanked(r) && multiset(r) == multiset(xs)
  {
    if xs == [] then []
    else
      assert xs == xs[..|xs| - 1] + [xs[|xs| - 1]];
      Insert(Ranked(xs[..|xs| - 1]), xs[|xs| - 1])
  }

  // ----- what the three passes add, with no limit -----

  function Demands(xs: seq<Evidence>): seq<Evidence> {
    if xs == [] then []
    else Demands(xs[..|xs| - 1]) + if xs[|xs| - 1].demand then [xs[|xs| - 1]] else []
  }

  function Sources(xs: seq<Evidence>): set<int> {
    set x <- xs :: x.source
  }

  /** `base`, then every item of xs that is not there yet, in order. */
  function Fresh(base: seq<Evidence>, xs: seq<Evidence>): seq<Evidence> {
    if xs == [] then base
    else
      var b := Fresh(base, xs[..|xs| - 1]);
      if xs[|xs| - 1] in b then b else b + [xs[|xs| - 1]]
  }

  /** `base`, then the first item of each source that is not there yet, in order. */
  function Covering(base: seq<Evidence>, xs: seq<Evidence>): seq<Evidence> {
    if xs == [] then base
    else
      var b := Covering(base, xs[..|xs| - 1]);
      if xs[|xs| - 1].source in Sources(b) then b else b + [xs[|xs| - 1]]
  }

  function Wanted(ranked: seq<Evidence>): seq<Evidence> {
    Fresh([], Demands(ranked))
  }

  function Order(ranked: seq<Evidence>): seq<Evidence> {
    Fresh(Covering(Wanted(ranked), ranked), ranked)
  }

  function Capped(xs: seq<Evidence>): seq<Evidence> {
    if |xs| <= MAX_ITEMS then xs else xs[..MAX_ITEMS]
  }

  // ----- the selection -----

  /** The inner `add`: skip what is already selected, and everything once full. */
  function Add(selected: seq<Evidence>, x: Evidence): seq<Evidence> {
    if x in selected || |selected| >= MAX_ITEMS then selected else selected + [x]
  }

  /** The limit can be applied at the end: the passes add the same items in the same order. */
  lemma AddIsCapped(xs: seq<Evidence>, x: Evidence)
    ensures Add(Capped(xs), x) == Capped(if x in xs then xs else xs + [x])
  {
  }

  lemma CoverIsCapped(xs: seq<Evidence>, x: Evidence)
    ensures (if x.source in Sources(Capped(xs)) then Capped(xs) else Add(Capped(xs), x))
         == Capped(if x.source in Sources(xs) then xs else xs + [x])
  {
    if x.source !in Sources(xs) {
      assert forall y <- Capped(xs) :: y in xs;
    }
  }

  lemma CoverOne(base: seq<Evidence>, xs: seq<Evidence>, k: nat)
    requires k < |xs|
    ensures var b := Covering(base, xs[..k]);
            Covering(base, xs[..k + 1]) == if xs[k].source in Sources(b) then b else b + [xs[k]]
  {
    assert xs[..k + 1][..k] == xs[..k];
  }

  lemma FreshOne(base: seq<Evidence>, xs: seq<Evidence>, x: Evidence)
    ensures Fresh(base, xs + [x]) == if x in Fresh(base, xs) then Fresh(base, xs) else Fresh(base, xs) + [x]
  {
    assert (xs + [x])[..|xs|] == xs;
  }

  method AddDemands(ranked: seq<Evidence>) returns (selected: seq<Evidence>)
    ensures selected == Capped(Wanted(ranked))
  {
    selected := [];
    for k := 0 to |ranked|
      invariant selected == Capped(Wanted(ranked[..k]))
    {
      assert ranked[..k + 1][..k] == ranked[..k];
      if ranked[k].demand {
        FreshOne([], Demands(ranked[..k]), ranked[k]);
        assert Demands(ranked[..k + 1]) == Demands(ranked[..k]) + [ranked[k]];
        AddIsCapped(Wanted(ranked[..k]), ranked[k]);
        selected := Add(selected, ranked[k]);
      } else {
        assert Demands(ranked[..k + 1]) == Demands(ranked[..k]);
      }
    }
    assert ranked[..|ranked|] == ranked;
  }

  method AddSources(before: seq<Evidence>, ghost base: seq<Evidence>, ranked: seq<Evidence>)
    returns (selected: seq<Evidence>)
    requires before == Capped(base)
    ensures selected == Capped(Covering(base, ranked))
  {
    selected := before;
    for k := 0 to |ranked|
      invariant selected == Capped(Covering(base, ranked[..k]))
    {
      assert ranked[..k + 1][..k] == ranked[..k];
      CoverIsCapped(Covering(base, ranked[..k]), ranked[k]);
      CoverOne(base, ranked, k);
      if ranked[k].source !in Sources(selected) {
        selected := Add(selected, ranked[k]);
      }
    }
    assert ranked[..|ranked|] == ranked;
  }

  method AddRest(before: seq<Evidence>, ghost base: seq<Evidence>, ranked: seq<Evidence>)
    returns (selected: seq<Evidence>)
    requires before == Capped(base)
    ensures selected == Capped(Fresh(base, ranked))
  {
    selected := before;
    for k := 0 to |ranked|
      invariant selected == Capped(Fresh(base, ranked[..k]))
    {
      assert ranked[..k + 1][..k] == ranked[..k];
      AddIsCapped(Fresh(base, ranked[..k]), ranked[k]);
      selected := Add(selected, ranked[k]);
    }
    assert ranked[..|ranked|] == ranked;
  }

  method SelectAgentEvidence(evidence: seq<Evidence>) returns (selected: seq<Evidence>)
    ensures selected == Capped(Order(Ranked(evidence)))
  {
    var ranked := Ranked(evidence);
    selected := AddDemands(ranked);
    selected := AddSources(selected, Wanted(ranked), ranked);
    selected := AddRest(selected, Covering(Wanted(ranked), ranked), ranked);
  }

  // ----- what the selection means -----

  predicate NoRepeats(xs: seq<Evidence>) {
    forall i, j :: 0 <= i < j < |xs| ==> xs[i] != xs[j]
  }

  function Members(xs: seq<Evidence>): set<Evidence> {
    set x | x in xs
  }

  lemma {:induction false} FreshIsASet(base: seq<Evidence>, xs: seq<Evidence>)
    requires NoRepeats(base)
    ensures NoRepeats(Fresh(base, xs)) && base <= Fresh(base, xs)
    ensures forall x :: x in Fresh(base, xs) <==> x in base || x in xs
  {
    if xs != [] {
      var n := |xs| - 1;
      FreshIsASet(base, xs[..n]);
      assert xs == xs[..n] + [xs[n]];
    }
  }

  lemma SourcesAppend(b: seq<Evidence>, x: Evidence)
    ensures Sources(b + [x]) == Sources(b) + {x.source}
  {
    assert forall y :: y in b + [x] <==> y in b || y == x;
  }

  lemma OneMoreSource(p: set<int>, q: set<int>, x: int)
    ensures |p + {x} - q| == |p - q| + if x in q || x in p then 0 else 1
  {
    if x in q || x in p {
      assert p + {x} - q == p - q;
    } else {
      assert p + {x} - q == (p - q) + {x};
    }
  }

  lemma {:induction false} CoveringSources(base: seq<Evidence>, xs: seq<Evidence>)
    ensures Sources(Covering(base, xs)) == Sources(base) + Sources(xs)
  {
    if xs != [] {
      var n := |xs| - 1;
      CoveringSources(base, xs[..n]);
      assert xs == xs[..n] + [xs[n]];
      SourcesAppend(xs[..n], xs[n]);
      SourcesAppend(Covering(base, xs[..n]), xs[n]);
    }
  }

  lemma {:induction false} CoveringSize(base: seq<Evidence>, xs: seq<Evidence>)
    ensures |Covering(base, xs)| == |base| + |Sources(xs) - Sources(base)|
  {
    if xs == [] {
      assert Sources(xs) - Sources(base) == {};
    } else {
      var n := |xs| - 1;
      CoveringSize(base, xs[..n]);
      CoveringSources(base, xs[..n]);
      assert xs == xs[..n] + [xs[n]];
      SourcesAppend(xs[..n], xs[n]);
      OneMoreSource(Sources(xs[..n]), Sources(base), xs[n].source);
    }
  }

  lemma {:induction false} CoveringIsASet(base: seq<Evidence>, xs: seq<Evidence>)
    requires NoRepeats(base)
    ensures NoRepeats(Covering(base, xs)) && base <= Covering(base, xs)
    ensures forall x :: x in Covering(base, xs) ==> x in base || x in xs
  {
    if xs != [] {
      var n := |xs| - 1;
      CoveringIsASet(base, xs[..n]);
      assert xs == xs[..n] + [xs[n]];
      var b := Covering(base, xs[..n]);
      assert xs[n] in b ==> xs[n].source in Sources(b);
    }
  }

  lemma {:induction false} DemandsAreTheDemands(xs: seq<Evidence>)
    ensures forall x :: x in Demands(xs) <==> x in xs && x.demand
  {
    if xs != [] {
      var n := |xs| - 1;
      DemandsAreTheDemands(xs[..n]);
      assert xs == xs[..n] + [xs[n]];
    }
  }

  lemma {:induction false} SizeOfDistinct(xs: seq<Evidence>)
    requires NoRepeats(xs)
    ensures |Members(xs)| == |xs|
  {
    if xs != [] {
      var n := |xs| - 1;
      SizeOfDistinct(xs[..n]);
      assert xs == xs[..n] + [xs[n]];
      assert Members(xs) == Members(xs[..n]) + {xs[n]};
    }
  }

  /** The whole order: demands, then sources, then the rest; each pass extends the one before. */
  lemma OrderIsASet(evidence: seq<Evidence>)
    ensures var r := Ranked(evidence);
            && (forall x :: x in r <==> x in evidence)
            && (forall x :: x in Wanted(r) <==> x in evidence && x.demand)
            && Wanted(r) <= Covering(Wanted(r), r) <= Order(r)
            && NoRepeats(Wanted(r)) && NoRepeats(Covering(Wanted(r), r)) && NoRepeats(Order(r))
            && (forall x :: x in Order(r) <==> x in evidence)
  {
    var r := Ranked(evidence);
    assert forall x :: x in r <==> x in multiset(r);
    assert forall x :: x in evidence <==> x in multiset(evidence);
    DemandsAreTheDemands(r);
    FreshIsASet([], Demands(r));
    CoveringIsASet(Wanted(r), r);
    FreshIsASet(Covering(Wanted(r), r), r);
  }

  lemma CappedSize(o: seq<Evidence>, all: seq<Evidence>)
    requires NoRepeats(o) && forall x :: x in o <==> x in all
    ensures NoRepeats(Capped(o)) && forall x <- Capped(o) :: x in all
    ensures |Capped(o)| == if |Members(all)| <= MAX_ITEMS then |Members(all)| else MAX_ITEMS
  {
    SizeOfDistinct(o);
    assert Members(o) == Members(all);
    assert forall x <- Capped(o) :: x in o;
  }

  /** Distinct inputs, twenty of them or all there are. */
  lemma SelectionSize(evidence: seq<Evidence>)
    ensures var s := Capped(Order(Ranked(evidence)));
            && NoRepeats(s) && (forall x <- s :: x in evidence)
            && |s| == if |Members(evidence)| <= MAX_ITEMS then |Members(evidence)| else MAX_ITEMS
  {
    OrderIsASet(evidence);
    CappedSize(Order(Ranked(evidence)), evidence);
  }

  lemma PrefixCapped(w: seq<Evidence>, o: seq<Evidence>)
    requires w <= o
    ensures Capped(w) <= Capped(o)
    ensures |w| <= MAX_ITEMS ==> forall x <- w :: x in Capped(o)
  {
    if |w| <= MAX_ITEMS {
      assert w <= Capped(o);
    }
  }

  /** Demand comments come first, and none is dropped while twenty or fewer exist. */
  lemma DemandsComeFirst(evidence: seq<Evidence>)
    ensures var (w, s) := (Wanted(Ranked(evidence)), Capped(Order(Ranked(evidence))));
            && Capped(w) <= s
            && (forall x :: x in w <==> x in evidence && x.demand)
            && (|w| <= MAX_ITEMS ==> forall x <- evidence :: x.demand ==> x in s)
  {
    OrderIsASet(evidence);
    var w, o := Wanted(Ranked(evidence)), Order(Ranked(evidence));
    PrefixCapped(w, o);
    if |w| <= MAX_ITEMS {
      assert forall x <- w :: x in Capped(o);
    }
  }

  lemma {:induction false} DemandsStayRanked(xs: seq<Evidence>)
    requires IsRanked(xs)
    ensures IsRanked(Demands(xs))
  {
    if xs != [] {
      DemandsStayRanked(xs[..|xs| - 1]);
      DemandsAreTheDemands(xs[..|xs| - 1]);
    }
  }

  lemma {:induction false} FreshStaysRanked(xs: seq<Evidence>)
    requires IsRanked(xs)
    ensures IsRanked(Fresh([], xs))
  {
    if xs != [] {
      var n := |xs| - 1;
      FreshStaysRanked(xs[..n]);
      FreshIsASet([], xs[..n]);
      LastIsLast(xs);
      assert forall i | 0 <= i < |Fresh([], xs[..n])| :: Fresh([], xs[..n])[i] in xs[..n];
    }
  }

  /** ... best rank first. */
  lemma DemandsAreInRankOrder(evidence: seq<Evidence>)
    ensures IsRanked(Wanted(Ranked(evidence)))
  {
    DemandsStayRanked(Ranked(evidence));
    FreshStaysRanked(Demands(Ranked(evidence)));
  }

  lemma SourcesGrow(xs: seq<Evidence>, ys: seq<Evidence>)
    requires forall x <- xs :: x in ys
    ensures Sources(xs) <= Sources(ys)
  {
  }

  lemma SameSources(xs: seq<Evidence>, ys: seq<Evidence>)
    requires forall x :: x in xs <==> x in ys
    ensures Sources(xs) == Sources(ys)
  {
    SourcesGrow(xs, ys);
    SourcesGrow(ys, xs);
  }

  lemma PrefixCovers(c: seq<Evidence>, o: seq<Evidence>, all: seq<Evidence>)
    requires c <= o && |c| <= MAX_ITEMS && Sources(c) >= Sources(all) && forall x <- o :: x in all
    ensures Sources(Capped(o)) == Sources(all)
  {
    PrefixCapped(c, o);
    SourcesGrow(c, Capped(o));
    assert forall x <- Capped(o) :: x in o;
    SourcesGrow(Capped(o), all);
  }

  /** Every source is represented when the demand comments and the sources they leave out fit in twenty. */
  lemma SourcesAreCovered(evidence: seq<Evidence>)
    requires var w := Wanted(Ranked(evidence)); |w| + |Sources(evidence) - Sources(w)| <= MAX_ITEMS
    ensures Sources(Capped(Order(Ranked(evidence)))) == Sources(evidence)
  {
    var r := Ranked(evidence);
    OrderIsASet(evidence);
    SameSources(r, evidence);
    CoveringSources(Wanted(r), r);
    CoveringSize(Wanted(r), r);
    PrefixCovers(Covering(Wanted(r), r), Order(r), evidence);
  }

  /** What is left of xs once `base` is taken out. */
  lemma {:induction false} FreshTailIsRanked(base: seq<Evidence>, xs: seq<Evidence>)
    requires NoRepeats(base) && IsRanked(xs)
    ensures base <= Fresh(base, xs) && IsRanked(Fresh(base, xs)[|base|..])
    ensures forall x <- Fresh(base, xs)[|base|..] :: x in xs
  {
    if xs != [] {
      var n := |xs| - 1;
      FreshTailIsRanked(base, xs[..n]);
      var b := Fresh(base, xs[..n]);
      var tail := b[|base|..];
      LastIsLast(xs);
      forall i | 0 <= i < |tail| ensures NotAfter(tail[i], xs[n]) {
        assert tail[i] in xs[..n];
      }
      assert (b + [xs[n]])[|base|..] == tail + [xs[n]];
    }
  }

  lemma TailKeepsOrder(c: seq<Evidence>, o: seq<Evidence>, x: Evidence, y: Evidence)
    requires c <= o && IsRanked(o[|c|..]) && x in Capped(o) && x !in c && y in o && y !in Capped(o)
    ensures NotAfter(x, y)
  {
    var i :| 0 <= i < |Capped(o)| && Capped(o)[i] == x;
    var j :| 0 <= j < |o| && o[j] == y;
    assert forall k | 0 <= k < |Capped(o)| :: Capped(o)[k] in Capped(o) && Capped(o)[k] == o[k];
    assert forall k | 0 <= k < |c| :: c[k] in c && c[k] == o[k];
    assert o[|c|..][i - |c|] == x && o[|c|..][j - |c|] == y;
  }

  /** Leftover slots hold the best-ranked remainder: nothing left out ranks strictly before anything they hold. */
  lemma LeftoverIsBestRanked(evidence: seq<Evidence>, x: Evidence, y: Evidence)
    requires var r := Ranked(evidence);
             && x in Capped(Order(r)) && x !in Covering(Wanted(r), r)
             && y in evidence && y !in Capped(Order(r))
    ensures NotAfter(x, y)
  {
    var r := Ranked(evidence);
    OrderIsASet(evidence);
    FreshTailIsRanked(Covering(Wanted(r), r), r);
    TailKeepsOrder(Covering(Wanted(r), r), Order(r), x, y);
  }
}
