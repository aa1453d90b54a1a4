/** Grouping accepted observations into candidates, and the offline check of the whole batch. */
module Batch {
  import opened Wrappers
  import opened Budget

  datatype Observation = Observation(
    keywordId: Option<int>, keywordText: Id, video: Id, comment: Id, commentUrl: Id,
    author: Id, username: Id, profile: bool)

  datatype Candidate = Candidate(
    author: Id, username: Id, evidence: seq<Observation>, truncationReasons: set<Exhaustion>)

  /** What the tracker counts for an observation made while looking for `current`. */
  function ItemOf(o: Observation, current: Id): Item {
    Item(if current != "" then current else o.keywordText, o.video, o.comment,
         if o.video != "" then o.video else o.commentUrl, o.author, o.profile)
  }

  function Items(os: seq<Observation>, current: Id): seq<Item> {
    seq(|os|, i requires 0 <= i < |os| => ItemOf(os[i], current))
  }

  // ----- grouping -----

  function Normalized(o: Observation, id: Option<int>, text: Id): Observation {
    o.(keywordId := id, keywordText := text)
  }

  function NormalizedAll(os: seq<Observation>, id: Option<int>, text: Id): (r: seq<Observation>)
    ensures |r| == |os|
  {
    seq(|os|, i requires 0 <= i < |os| => Normalized(os[i], id, text))
  }

  lemma {:induction false} NormalizedAppend(a: seq<Observation>, b: seq<Observation>, id: Option<int>, text: Id)
    ensures NormalizedAll(a + b, id, text) == NormalizedAll(a, id, text) + NormalizedAll(b, id, text)
  {
  }

  function ByAuthor(os: seq<Observation>, u: Id): seq<Observation> {
    if os == [] then []
    else ByAuthor(os[..|os| - 1], u) + if os[|os| - 1].author == u then [os[|os| - 1]] else []
  }

  /** Authors in the order of their first observation. */
  function Authors(os: seq<Observation>): seq<Id> {
    if os == [] then []
    else
      var a := Authors(os[..|os| - 1]);
      if os[|os| - 1].author in a then a else a + [os[|os| - 1].author]
  }

  lemma {:induction false} AuthorsAreDistinct(os: seq<Observation>)
    ensures forall i, j :: 0 <= i < j < |Authors(os)| ==> Authors(os)[i] != Authors(os)[j]
    ensures forall u :: u in Authors(os) <==> exists i :: 0 <= i < |os| && os[i].author == u
  {
    if os != [] {
      var n := |os| - 1;
      AuthorsAreDistinct(os[..n]);
      forall u ensures u in Authors(os) <==> exists i :: 0 <= i < |os| && os[i].author == u {
        if i :| 0 <= i < |os| && os[i].author == u {
          assert i < n ==> os[..n][i].author == u;
        }
      }
    }
  }

  lemma {:induction false} ByAuthorKeepsCounts(os: seq<Observation>, u: Id, x: Observation)
    ensures multiset(ByAuthor(os, u))[x] == if x.author == u then multiset(os)[x] else 0
  {
    if os != [] {
      var n := |os| - 1;
      ByAuthorKeepsCounts(os[..n], u, x);
      assert os == os[..n] + [os[n]];
      assert multiset(os) == multiset(os[..n]) + multiset{os[n]};
      var tail := if os[n].author == u then [os[n]] else [];
      assert multiset(ByAuthor(os, u)) == multiset(ByAuthor(os[..n], u)) + multiset(tail);
    }
  }

  lemma {:induction false} ByAuthorIsEmptyOrNot(os: seq<Observation>, u: Id)
    ensures ByAuthor(os, u) != [] <==> u in Authors(os)
    ensures forall o <- ByAuthor(os, u) :: o.author == u && o in os
  {
    if os != [] {
      ByAuthorIsEmptyOrNot(os[..|os| - 1], u);
    }
  }

  /** A user's truncation reasons as a candidate carries them. */
  function Cuts(reasons: map<Id, set<Reason>>, u: Id): set<Exhaustion> {
    set r <- Get(reasons, u) :: OverBudget(r)
  }

  function CandidateFor(os: seq<Observation>, u: Id, id: Option<int>, text: Id,
                        reasons: map<Id, set<Reason>>): Candidate
  {
    var own := ByAuthor(os, u);
    Candidate(u, if own == [] then "" else own[0].username, NormalizedAll(own, id, text), Cuts(reasons, u))
  }

  function Candidates(os: seq<Observation>, id: Option<int>, text: Id,
                      reasons: map<Id, set<Reason>>): (cs: seq<Candidate>)
    ensures |cs| == |Authors(os)|
  {
    seq(|Authors(os)|, i requires 0 <= i < |Authors(os)| => CandidateFor(os, Authors(os)[i], id, text, reasons))
  }

  /** One author's dictionary entries after some observations. */
  predicate EntryOk(os: seq<Observation>, u: Id, own: seq<Observation>, name: Id, id: Option<int>, text: Id) {
    var raw := ByAuthor(os, u);
    raw != [] && name == raw[0].username && own == NormalizedAll(raw, id, text)
  }

  lemma EntryGrows(os: seq<Observation>, o: Observation, u: Id, own: seq<Observation>, name: Id,
                   id: Option<int>, text: Id)
    requires if u in Authors(os) then EntryOk(os, u, own, name, id, text)
             else u == o.author && own == [] && name == o.username
    ensures EntryOk(os + [o], u, if u == o.author then own + [Normalized(o, id, text)] else own, name, id, text)
  {
    assert (os + [o])[..|os|] == os;
    ByAuthorIsEmptyOrNot(os, u);
    NormalizedAppend(ByAuthor(os, u), [o], id, text);
  }

  lemma EntryIsCandidate(os: seq<Observation>, u: Id, own: seq<Observation>, name: Id, id: Option<int>, text: Id,
                         reasons: map<Id, set<Reason>>)
    requires EntryOk(os, u, own, name, id, text)
    ensures Candidate(u, name, own, Cuts(reasons, u)) == CandidateFor(os, u, id, text, reasons)
  {
  }

  /** The grouping dictionaries after some observations. */
  ghost predicate GroupsOk(os: seq<Observation>, id: Option<int>, text: Id,
                           order: seq<Id>, grouped: map<Id, seq<Observation>>, usernames: map<Id, Id>)
  {
    && order == Authors(os) && usernames.Keys == grouped.Keys
    && (forall u :: u in order <==> u in grouped)
    && forall u <- grouped :: EntryOk(os, u, grouped[u], usernames[u], id, text)
  }

  /** One turn of the grouping loop. */
  method AddToGroup(ghost os: seq<Observation>, o: Observation, id: Option<int>, text: Id,
                    order: seq<Id>, grouped: map<Id, seq<Observation>>, usernames: map<Id, Id>)
    returns (order2: seq<Id>, grouped2: map<Id, seq<Observation>>, usernames2: map<Id, Id>)
    requires GroupsOk(os, id, text, order, grouped, usernames)
    ensures GroupsOk(os + [o], id, text, order2, grouped2, usernames2)
  {
    assert (os + [o])[..|os|] == os;
    forall u <- grouped {
      EntryGrows(os, o, u, grouped[u], usernames[u], id, text);
    }
    var normalized := Normalized(o, id, text);
    if o.author in grouped {
      order2, usernames2 := order, usernames;
      grouped2 := grouped[o.author := grouped[o.author] + [normalized]];
    } else {
      EntryGrows(os, o, o.author, [], o.username, id, text);
      assert [] + [normalized] == [normalized];
      order2, usernames2 := order + [o.author], usernames[o.author := o.username];
      grouped2 := grouped[o.author := [normalized]];
    }
  }

  method BuildOne(ghost os: seq<Observation>, ghost id: Option<int>, ghost text: Id, reasons: map<Id, set<Reason>>,
                  ghost order: seq<Id>, grouped: map<Id, seq<Observation>>, usernames: map<Id, Id>, u: Id)
    returns (c: Candidate)
    requires GroupsOk(os, id, text, order, grouped, usernames) && u in order
    ensures c == CandidateFor(os, u, id, text, reasons)
  {
    EntryIsCandidate(os, u, grouped[u], usernames[u], id, text, reasons);
    c := Candidate(u, usernames[u], grouped[u], Cuts(reasons, u));
  }

  predicate BuiltUpTo(cs: seq<Candidate>, os: seq<Observation>, id: Option<int>, text: Id,
                      reasons: map<Id, set<Reason>>, order: seq<Id>)
  {
    |cs| <= |order| && forall j | 0 <= j < |cs| :: cs[j] == CandidateFor(os, order[j], id, text, reasons)
  }

  lemma OneBuilt(cs: seq<Candidate>, c: Candidate, os: seq<Observation>, id: Option<int>, text: Id,
                 reasons: map<Id, set<Reason>>, order: seq<Id>)
    requires |cs| < |order| && c == CandidateFor(os, order[|cs|], id, text, reasons)
    requires BuiltUpTo(cs, os, id, text, reasons, order)
    ensures BuiltUpTo(cs + [c], os, id, text, reasons, order)
  {
  }

  /** The list comprehension over the grouping dictionary. */
  method Build(ghost os: seq<Observation>, id: Option<int>, text: Id, reasons: map<Id, set<Reason>>,
               order: seq<Id>, grouped: map<Id, seq<Observation>>, usernames: map<Id, Id>) returns (cs: seq<Candidate>)
    requires GroupsOk(os, id, text, order, grouped, usernames)
    ensures |cs| == |order| && BuiltUpTo(cs, os, id, text, reasons, order)
  {
    cs := [];
    for i := 0 to |order|
      invariant |cs| == i && BuiltUpTo(cs, os, id, text, reasons, order)
    {
      var c := BuildOne(os, id, text, reasons, order, grouped, usernames, order[i]);
      OneBuilt(cs, c, os, id, text, reasons, order);
      cs := cs + [c];
    }
  }

  /** The grouping loop of `collect_keyword`: dictionaries in insertion order. */
  method Group(os: seq<Observation>, id: Option<int>, text: Id, reasons: map<Id, set<Reason>>)
    returns (cs: seq<Candidate>)
    ensures cs == Candidates(os, id, text, reasons)
  {
    var order: seq<Id>, grouped: map<Id, seq<Observation>>, usernames: map<Id, Id> := [], map[], map[];
    var n := 0;
    while n < |os|
      invariant n <= |os| && GroupsOk(os[..n], id, text, order, grouped, usernames)
    {
      assert os[..n] + [os[n]] == os[..n + 1];
      order, grouped, usernames := AddToGroup(os[..n], os[n], id, text, order, grouped, usernames);
      n := n + 1;
    }
    assert os[..n] == os;
    cs := Build(os, id, text, reasons, order, grouped, usernames);
  }

  /** Every observation of the batch, candidate by candidate. */
  function All(cs: seq<Candidate>): seq<Observation> {
    if cs == [] then [] else All(cs[..|cs| - 1]) + cs[|cs| - 1].evidence
  }

  /** One author's evidence in the batch, in order. */
  function EvidenceOf(cs: seq<Candidate>, u: Id): seq<Observation> {
    if cs == [] then []
    else EvidenceOf(cs[..|cs| - 1], u) + if cs[|cs| - 1].author == u then cs[|cs| - 1].evidence else []
  }

  /** Why one author's evidence was cut short. */
  function CutsOf(cs: seq<Candidate>, u: Id): set<Exhaustion> {
    if cs == [] then {}
    else CutsOf(cs[..|cs| - 1], u) + if cs[|cs| - 1].author == u then cs[|cs| - 1].truncationReasons else {}
  }

  ghost predicate DistinctAuthors(cs: seq<Candidate>) {
    forall i, j :: 0 <= i < j < |cs| ==> cs[i].author != cs[j].author
  }

  ghost predicate Filled(cs: seq<Candidate>) {
    forall c <- cs :: c.evidence != []
  }

  /** The batch files exactly these observations, each under its author and in order. */
  ghost predicate Files(cs: seq<Candidate>, os: seq<Observation>) {
    Filled(cs) && forall u :: EvidenceOf(cs, u) == ByAuthor(os, u)
  }

  ghost predicate OwnEvidence(cs: seq<Candidate>) {
    forall i, j :: 0 <= i < |cs| && 0 <= j < |cs[i].evidence| ==> cs[i].evidence[j].author == cs[i].author
  }

  lemma {:induction false} NobodysEvidence(cs: seq<Candidate>, u: Id)
    requires forall c <- cs :: c.author != u
    ensures EvidenceOf(cs, u) == [] && CutsOf(cs, u) == {}
  {
    if cs != [] {
      NobodysEvidence(cs[..|cs| - 1], u);
    }
  }

  lemma {:induction false} EvidenceAt(cs: seq<Candidate>, i: nat)
    requires DistinctAuthors(cs) && i < |cs|
    ensures EvidenceOf(cs, cs[i].author) == cs[i].evidence && CutsOf(cs, cs[i].author) == cs[i].truncationReasons
  {
    var n := |cs| - 1;
    if i < n {
      EvidenceAt(cs[..n], i);
    } else {
      NobodysEvidence(cs[..n], cs[n].author);
    }
  }

  lemma {:induction false} ByAuthorAppend(a: seq<Observation>, b: seq<Observation>, u: Id)
    ensures ByAuthor(a + b, u) == ByAuthor(a, u) + ByAuthor(b, u)
  {
    if b == [] {
      assert a + b == a;
    } else {
      assert (a + b)[..|a + b| - 1] == a + b[..|b| - 1];
      ByAuthorAppend(a, b[..|b| - 1], u);
    }
  }

  lemma {:induction false} ByAuthorNormalized(os: seq<Observation>, id: Option<int>, text: Id, u: Id)
    ensures ByAuthor(NormalizedAll(os, id, text), u) == NormalizedAll(ByAuthor(os, u), id, text)
  {
    if os != [] {
      var n := |os| - 1;
      assert NormalizedAll(os, id, text)[..n] == NormalizedAll(os[..n], id, text);
      ByAuthorNormalized(os[..n], id, text, u);
      NormalizedAppend(ByAuthor(os[..n], u), if os[n].author == u then [os[n]] else [], id, text);
    }
  }

  /** Grouping files the normalised observations. */
  lemma GroupsAreFiled(os: seq<Observation>, id: Option<int>, text: Id, reasons: map<Id, set<Reason>>)
    ensures var cs := Candidates(os, id, text, reasons);
            DistinctAuthors(cs) && Files(cs, NormalizedAll(os, id, text))
  {
    var cs, a := Candidates(os, id, text, reasons), Authors(os);
    AuthorsAreDistinct(os);
    assert forall i | 0 <= i < |cs| :: cs[i].author == a[i];
    forall i | 0 <= i < |cs| ensures cs[i].evidence != [] {
      ByAuthorIsEmptyOrNot(os, a[i]);
    }
    forall u ensures EvidenceOf(cs, u) == ByAuthor(NormalizedAll(os, id, text), u) {
      ByAuthorNormalized(os, id, text, u);
      ByAuthorIsEmptyOrNot(os, u);
      if i :| 0 <= i < |a| && a[i] == u {
        EvidenceAt(cs, i);
      } else {
        NobodysEvidence(cs, u);
      }
    }
  }

  lemma FiledUnderOwnAuthor(cs: seq<Candidate>, os: seq<Observation>)
    requires DistinctAuthors(cs) && Files(cs, os)
    ensures OwnEvidence(cs)
  {
    forall i, j | 0 <= i < |cs| && 0 <= j < |cs[i].evidence|
      ensures cs[i].evidence[j].author == cs[i].author
    {
      EvidenceAt(cs, i);
      ByAuthorIsEmptyOrNot(os, cs[i].author);
      assert cs[i].evidence[j] in ByAuthor(os, cs[i].author);
    }
  }

  lemma {:induction false} AllByAuthor(cs: seq<Candidate>, x: Observation)
    requires OwnEvidence(cs)
    ensures multiset(All(cs))[x] == multiset(EvidenceOf(cs, x.author))[x]
  {
    if cs != [] {
      var n := |cs| - 1;
      AllByAuthor(cs[..n], x);
      assert x in cs[n].evidence ==> x.author == cs[n].author;
    }
  }

  /** Filing loses and duplicates nothing: the evidence is a rearrangement of the observations. */
  lemma FilingIsARearrangement(cs: seq<Candidate>, os: seq<Observation>)
    requires DistinctAuthors(cs) && Files(cs, os)
    ensures multiset(All(cs)) == multiset(os)
  {
    FiledUnderOwnAuthor(cs, os);
    forall x ensures multiset(All(cs))[x] == multiset(os)[x] {
      AllByAuthor(cs, x);
      ByAuthorKeepsCounts(os, x.author, x);
    }
  }

  lemma GroupingIsARearrangement(os: seq<Observation>, id: Option<int>, text: Id, reasons: map<Id, set<Reason>>)
    ensures multiset(All(Candidates(os, id, text, reasons))) == multiset(NormalizedAll(os, id, text))
  {
    GroupsAreFiled(os, id, text, reasons);
    FilingIsARearrangement(Candidates(os, id, text, reasons), NormalizedAll(os, id, text));
  }

  // ----- merging the batches of several keywords -----

  lemma AppendOne(cs: seq<Candidate>, c: Candidate, u: Id)
    ensures EvidenceOf(cs + [c], u) == EvidenceOf(cs, u) + if u == c.author then c.evidence else []
    ensures CutsOf(cs + [c], u) == CutsOf(cs, u) + if u == c.author then c.truncationReasons else {}
  {
    assert (cs + [c])[..|cs|] == cs;
  }

  lemma {:induction false} ExtendEvidence(cs: seq<Candidate>, k: nat, c: Candidate, d: Candidate, u: Id)
    requires DistinctAuthors(cs) && k < |cs| && c.author == d.author == cs[k].author
    requires d.evidence == cs[k].evidence + c.evidence
    ensures EvidenceOf(cs[k := d], u) == EvidenceOf(cs, u) + if u == c.author then c.evidence else []
  {
    var n := |cs| - 1;
    if k == n {
      assert cs[k := d][..n] == cs[..n];
    } else {
      assert cs[k := d][..n] == cs[..n][k := d];
      ExtendEvidence(cs[..n], k, c, d, u);
      assert cs[k].author != cs[n].author;
    }
  }

  lemma {:induction false} ExtendCuts(cs: seq<Candidate>, k: nat, c: Candidate, d: Candidate, u: Id)
    requires k < |cs| && c.author == d.author == cs[k].author
    requires d.truncationReasons == cs[k].truncationReasons + c.truncationReasons
    ensures CutsOf(cs[k := d], u) == CutsOf(cs, u) + if u == c.author then c.truncationReasons else {}
  {
    var n := |cs| - 1;
    if k == n {
      assert cs[k := d][..n] == cs[..n];
    } else {
      assert cs[k := d][..n] == cs[..n][k := d];
      ExtendCuts(cs[..n], k, c, d, u);
    }
  }

  /** `merged` holds both parts: the evidence author by author, the earlier part first, and every reason. */
  ghost predicate MergedFrom(merged: seq<Candidate>, target: seq<Candidate>, more: seq<Candidate>) {
    && DistinctAuthors(merged)
    && (forall u :: EvidenceOf(merged, u) == EvidenceOf(target, u) + EvidenceOf(more, u))
    && (forall u :: CutsOf(merged, u) == CutsOf(target, u) + CutsOf(more, u))
    && (Filled(target) && Filled(more) ==> Filled(merged))
  }

  lemma FilledExtends(merged: seq<Candidate>, more: seq<Candidate>, k: nat, c: Candidate, d: Candidate)
    requires k < |merged| && d.evidence == merged[k].evidence + c.evidence
    ensures Filled(more + [c]) ==> Filled(more)
    ensures Filled(more + [c]) && Filled(merged) ==> Filled(merged[k := d])
  {
    if Filled(more + [c]) {
      assert c in more + [c] && forall x <- more :: x in more + [c];
      assert forall x <- merged[k := d] :: x in merged || x == d;
    }
  }

  lemma FilledAppends(merged: seq<Candidate>, more: seq<Candidate>, c: Candidate)
    ensures Filled(more + [c]) ==> Filled(more)
    ensures Filled(more + [c]) && Filled(merged) ==> Filled(merged + [c])
  {
    if Filled(more + [c]) {
      assert c in more + [c] && forall x <- more :: x in more + [c];
    }
  }

  lemma MergeExtends(merged: seq<Candidate>, target: seq<Candidate>, more: seq<Candidate>, k: nat, c: Candidate,
                     d: Candidate)
    requires MergedFrom(merged, target, more) && k < |merged| && c.author == d.author == merged[k].author
    requires d.evidence == merged[k].evidence + c.evidence
    requires d.truncationReasons == merged[k].truncationReasons + c.truncationReasons
    ensures MergedFrom(merged[k := d], target, more + [c])
  {
    forall u ensures EvidenceOf(merged[k := d], u) == EvidenceOf(target, u) + EvidenceOf(more + [c], u) {
      ExtendEvidence(merged, k, c, d, u);
      AppendOne(more, c, u);
    }
    forall u ensures CutsOf(merged[k := d], u) == CutsOf(target, u) + CutsOf(more + [c], u) {
      ExtendCuts(merged, k, c, d, u);
      AppendOne(more, c, u);
    }
    FilledExtends(merged, more, k, c, d);
  }

  lemma MergeAppends(merged: seq<Candidate>, target: seq<Candidate>, more: seq<Candidate>, c: Candidate)
    requires MergedFrom(merged, target, more) && forall d <- merged :: d.author != c.author
    ensures MergedFrom(merged + [c], target, more + [c])
  {
    forall u ensures EvidenceOf(merged + [c], u) == EvidenceOf(target, u) + EvidenceOf(more + [c], u) {
      AppendOne(merged, c, u);
      AppendOne(more, c, u);
    }
    forall u ensures CutsOf(merged + [c], u) == CutsOf(target, u) + CutsOf(more + [c], u) {
      AppendOne(merged, c, u);
      AppendOne(more, c, u);
    }
    FilledAppends(merged, more, c);
  }

  /** One candidate of `_merge_candidates`. */
  method MergeOne(merged: seq<Candidate>, ghost target: seq<Candidate>, ghost more: seq<Candidate>, c: Candidate)
    returns (next: seq<Candidate>)
    requires MergedFrom(merged, target, more)
    ensures MergedFrom(next, target, more + [c])
  {
    if k :| 0 <= k < |merged| && merged[k].author == c.author {
      var d := merged[k].(evidence := merged[k].evidence + c.evidence,
                          truncationReasons := merged[k].truncationReasons + c.truncationReasons);
      next := merged[k := d];
      MergeExtends(merged, target, more, k, c, d);
    } else {
      next := merged + [c];
      MergeAppends(merged, target, more, c);
    }
  }

  lemma NothingMerged(target: seq<Candidate>)
    requires DistinctAuthors(target)
    ensures MergedFrom(target, target, [])
  {
  }

  /** `_merge_candidates`: an author already there keeps its entry and gains the new evidence and reasons. */
  method MergeCandidates(target: seq<Candidate>, more: seq<Candidate>) returns (merged: seq<Candidate>)
    requires DistinctAuthors(target)
    ensures MergedFrom(merged, target, more)
  {
    merged := target;
    NothingMerged(target);
    assert more[..0] == [];
    for n := 0 to |more|
      invariant MergedFrom(merged, target, more[..n])
    {
      assert more[..n] + [more[n]] == more[..n + 1];
      merged := MergeOne(merged, target, more[..n], more[n]);
    }
    assert more[..|more|] == more;
  }

  /** Merging two filed batches files both lists. */
  lemma MergingFilesBoth(merged: seq<Candidate>, target: seq<Candidate>, more: seq<Candidate>,
                         a: seq<Observation>, b: seq<Observation>)
    requires MergedFrom(merged, target, more) && Files(target, a) && Files(more, b)
    ensures DistinctAuthors(merged) && Files(merged, a + b)
  {
    forall u {
      ByAuthorAppend(a, b, u);
    }
  }

  // ----- the offline batch check -----

  datatype Planned = Planned(id: Option<int>, text: Id)
  datatype KeywordKey = ById(id: int) | ByText(text: Id)
  datatype BatchError =
    | TooManyProfiles
    | TooManyObservations
    | UnplannedKeyword
    | TooManyVideos
    | TooManyComments
    | TooManyAuthorVideos

  function KeyOf(o: Observation): KeywordKey {
    if o.keywordId.Some? then ById(o.keywordId.value) else ByText(o.keywordText)
  }

  predicate IsPlanned(o: Observation, plan: seq<Planned>) {
    if o.keywordId.Some? then exists p <- plan :: p.id == o.keywordId else exists p <- plan :: p.text == o.keywordText
  }

  function BatchVideos(os: seq<Observation>, k: KeywordKey): set<Id> {
    set o <- os | o.video != "" && KeyOf(o) == k :: o.video
  }

  function BatchComments(os: seq<Observation>, v: Id): set<Id> {
    set o <- os | o.comment != "" && o.video == v :: o.comment
  }

  function BatchAuthorVideos(os: seq<Observation>, u: Id): set<Id> {
    set o <- os | o.profile && o.video != "" && o.author == u :: o.video
  }

  /** One candidate's evidence under the candidate's own id, which is how the check reads it. */
  function Attributed(c: Candidate): seq<Observation> {
    seq(|c.evidence|, i requires 0 <= i < |c.evidence| => c.evidence[i].(author := c.author))
  }

  /** Every observation of the batch as the check reads it. */
  function Seen(cs: seq<Candidate>): seq<Observation> {
    if cs == [] then [] else Seen(cs[..|cs| - 1]) + Attributed(cs[|cs| - 1])
  }

  lemma SeenGrows(cs: seq<Candidate>, i: nat)
    requires i < |cs|
    ensures Seen(cs[..i + 1]) == Seen(cs[..i]) + Attributed(cs[i])
  {
    assert cs[..i + 1][..i] == cs[..i];
  }

  lemma {:induction false} SeenHas(cs: seq<Candidate>, i: nat, j: nat)
    requires i < |cs| && j < |cs[i].evidence|
    ensures Attributed(cs[i])[j] in Seen(cs)
    decreases |cs|
  {
    if i < |cs| - 1 {
      SeenHas(cs[..|cs| - 1], i, j);
    }
  }

  /** The first check the batch fails. */
  ghost function Verdict(cs: seq<Candidate>, b: Limits, plan: seq<Planned>): Result<(), BatchError> {
    var os := Seen(cs);
    if |cs| > b.profiles then Failure(TooManyProfiles)
    else if |os| > b.total then Failure(TooManyObservations)
    else if exists o <- os :: !IsPlanned(o, plan) then Failure(UnplannedKeyword)
    else if exists k :: |BatchVideos(os, k)| > b.videos then Failure(TooManyVideos)
    else if exists v :: |BatchComments(os, v)| > b.comments then Failure(TooManyComments)
    else if exists u :: |BatchAuthorVideos(os, u)| > b.authorVideos then Failure(TooManyAuthorVideos)
    else Success(())
  }

  ghost predicate VideosCounted(m: map<KeywordKey, set<Id>>, os: seq<Observation>) {
    forall k :: Get(m, k) == BatchVideos(os, k)
  }

  ghost predicate CommentsCounted(m: map<Id, set<Id>>, os: seq<Observation>) {
    forall v :: Get(m, v) == BatchComments(os, v)
  }

  ghost predicate AuthorVideosCounted(m: map<Id, set<Id>>, os: seq<Observation>) {
    forall u :: Get(m, u) == BatchAuthorVideos(os, u)
  }

  /** The dictionaries of the check after some observations. */
  ghost predicate CountsOk(os: seq<Observation>, videos: map<KeywordKey, set<Id>>, comments: map<Id, set<Id>>,
                           authorVideos: map<Id, set<Id>>)
  {
    VideosCounted(videos, os) && CommentsCounted(comments, os) && AuthorVideosCounted(authorVideos, os)
  }

  lemma VideosGrow(m: map<KeywordKey, set<Id>>, os: seq<Observation>, o: Observation)
    requires VideosCounted(m, os)
    ensures VideosCounted(if o.video != "" then Put(m, KeyOf(o), o.video) else m, os + [o])
  {
    PutGrowsOne(m, KeyOf(o), o.video);
    forall k ensures BatchVideos(os + [o], k) ==
      BatchVideos(os, k) + (if o.video != "" && KeyOf(o) == k then {o.video} else {})
    {
      assert forall x :: x in os + [o] <==> x in os || x == o;
    }
  }

  lemma CommentsGrow(m: map<Id, set<Id>>, os: seq<Observation>, o: Observation)
    requires CommentsCounted(m, os)
    ensures CommentsCounted(if o.comment != "" then Put(m, o.video, o.comment) else m, os + [o])
  {
    PutGrowsOne(m, o.video, o.comment);
    forall v ensures BatchComments(os + [o], v) ==
      BatchComments(os, v) + (if o.comment != "" && o.video == v then {o.comment} else {})
    {
      assert forall x :: x in os + [o] <==> x in os || x == o;
    }
  }

  lemma AuthorVideosGrow(m: map<Id, set<Id>>, os: seq<Observation>, o: Observation)
    requires AuthorVideosCounted(m, os)
    ensures AuthorVideosCounted(if o.profile && o.video != "" then Put(m, o.author, o.video) else m, os + [o])
  {
    PutGrowsOne(m, o.author, o.video);
    forall u ensures BatchAuthorVideos(os + [o], u) ==
      BatchAuthorVideos(os, u) + (if o.profile && o.video != "" && o.author == u then {o.video} else {})
    {
      assert forall x :: x in os + [o] <==> x in os || x == o;
    }
  }

  /** The body of the inner loop, after the keyword check. */
  method AddToCounts(ghost os: seq<Observation>, o: Observation, videos: map<KeywordKey, set<Id>>,
                     comments: map<Id, set<Id>>, authorVideos: map<Id, set<Id>>)
    returns (videos2: map<KeywordKey, set<Id>>, comments2: map<Id, set<Id>>, authorVideos2: map<Id, set<Id>>)
    requires CountsOk(os, videos, comments, authorVideos)
    ensures CountsOk(os + [o], videos2, comments2, authorVideos2)
  {
    VideosGrow(videos, os, o);
    CommentsGrow(comments, os, o);
    AuthorVideosGrow(authorVideos, os, o);
    videos2, comments2, authorVideos2 := videos, comments, authorVideos;
    if o.video != "" {
      videos2 := Put(videos, KeyOf(o), o.video);
    }
    if o.comment != "" {
      comments2 := Put(comments, o.video, o.comment);
    }
    if o.profile && o.video != "" {
      authorVideos2 := Put(authorVideos, o.author, o.video);
    }
  }

  /** The nested loops; None when some observation is for no planned keyword. */
  method CountBatch(cs: seq<Candidate>, plan: seq<Planned>)
    returns (planned: bool, videos: map<KeywordKey, set<Id>>, comments: map<Id, set<Id>>,
             authorVideos: map<Id, set<Id>>)
    ensures planned <==> forall o <- Seen(cs) :: IsPlanned(o, plan)
    ensures planned ==> CountsOk(Seen(cs), videos, comments, authorVideos)
  {
    planned, videos, comments, authorVideos := true, map[], map[], map[];
    var i := 0;
    while i < |cs|
      invariant i <= |cs| && planned && CountsOk(Seen(cs[..i]), videos, comments, authorVideos)
      invariant forall o <- Seen(cs[..i]) :: IsPlanned(o, plan)
    {
      var evidence := Attributed(cs[i]);
      SeenGrows(cs, i);
      ghost var before := Seen(cs[..i]);
      var j := 0;
      while j < |evidence|
        invariant j <= |evidence| && CountsOk(before + evidence[..j], videos, comments, authorVideos)
        invariant forall o <- evidence[..j] :: IsPlanned(o, plan)
      {
        var o := evidence[j];
        if !IsPlanned(o, plan) {
          SeenHas(cs, i, j);
          planned := false;
          return;
        }
        assert before + evidence[..j] + [o] == before + evidence[..j + 1];
        videos, comments, authorVideos := AddToCounts(before + evidence[..j], o, videos, comments, authorVideos);
        j := j + 1;
      }
      assert evidence[..j] == evidence;
      i := i + 1;
    }
    assert cs[..i] == cs;
  }

  lemma OverflowIsSeen<K>(m: map<K, set<Id>>, limit: nat)
    ensures (exists k <- m :: |m[k]| > limit) <==> exists k :: |Get(m, k)| > limit
  {
    if k :| |Get(m, k)| > limit {
      assert k in m && |m[k]| > limit;
    }
    if k :| k in m && |m[k]| > limit {
      assert |Get(m, k)| > limit;
    }
  }

  lemma SameOverflow(os: seq<Observation>, videos: map<KeywordKey, set<Id>>, comments: map<Id, set<Id>>,
                     authorVideos: map<Id, set<Id>>, b: Limits)
    requires CountsOk(os, videos, comments, authorVideos)
    ensures (exists k :: |Get(videos, k)| > b.videos) <==> exists k :: |BatchVideos(os, k)| > b.videos
    ensures (exists v :: |Get(comments, v)| > b.comments) <==> exists v :: |BatchComments(os, v)| > b.comments
    ensures (exists u :: |Get(authorVideos, u)| > b.authorVideos) <==>
            exists u :: |BatchAuthorVideos(os, u)| > b.authorVideos
  {
    assert forall k :: |Get(videos, k)| == |BatchVideos(os, k)|;
    assert forall v :: |Get(comments, v)| == |BatchComments(os, v)|;
    assert forall u :: |Get(authorVideos, u)| == |BatchAuthorVideos(os, u)|;
  }

  /** `_validate_acquisition_batch` up to the collector metrics. */
  method ValidateBatch(cs: seq<Candidate>, b: Limits, plan: seq<Planned>) returns (r: Result<(), BatchError>)
    ensures r == Verdict(cs, b, plan)
  {
    if |cs| > b.profiles {
      return Failure(TooManyProfiles);
    }
    var observations := Seen(cs);
    if |observations| > b.total {
      return Failure(TooManyObservations);
    }
    var planned, videos, comments, authorVideos := CountBatch(cs, plan);
    if !planned {
      return Failure(UnplannedKeyword);
    }
    OverflowIsSeen(videos, b.videos);
    OverflowIsSeen(comments, b.comments);
    OverflowIsSeen(authorVideos, b.authorVideos);
    SameOverflow(Seen(cs), videos, comments, authorVideos, b);
    if exists k <- videos :: |videos[k]| > b.videos {
      return Failure(TooManyVideos);
    }
    if exists v <- comments :: |comments[v]| > b.comments {
      return Failure(TooManyComments);
    }
    if exists u <- authorVideos :: |authorVideos[u]| > b.authorVideos {
      return Failure(TooManyAuthorVideos);
    }
    r := Success(());
  }

  // ----- what the tracker accepts passes the batch check -----

  lemma {:induction false} DistinctSize(xs: seq<Id>, s: set<Id>)
    requires forall i, j :: 0 <= i < j < |xs| ==> xs[i] != xs[j]
    requires forall x <- xs :: x in s
    ensures |xs| <= |s|
  {
    if xs != [] {
      var n := |xs| - 1;
      DistinctSize(xs[..n], s - {xs[n]});
    }
  }

  /** Evidence filed under its own author is read as it is. */
  lemma {:induction false} SeenIsAll(cs: seq<Candidate>)
    requires OwnEvidence(cs)
    ensures Seen(cs) == All(cs)
  {
    if cs != [] {
      var n := |cs| - 1;
      SeenIsAll(cs[..n]);
      assert Attributed(cs[n]) == cs[n].evidence;
    }
  }

  /** Comments seen without a video id: the tracker separates them by URL, the batch check does not. */
  function LooseComments(os: seq<Observation>): set<Id> {
    set o <- os | o.comment != "" && o.video == "" :: o.comment
  }

  /** One keyword has one key: no id stands for two texts. */
  ghost predicate OneKey(os: seq<Observation>) {
    forall x <- os, y <- os | KeyOf(x) == KeyOf(y) :: x.keywordText == y.keywordText
  }

  lemma ItemsHold(os: seq<Observation>, o: Observation)
    requires o in os
    ensures ItemOf(o, "") in Items(os, "")
  {
    var i :| 0 <= i < |os| && os[i] == o;
    assert Items(os, "")[i] == ItemOf(o, "");
  }

  /** The sets of the batch check lie inside the projections of the accepted items, loose comments apart. */
  lemma BatchSetsAreTracked(os: seq<Observation>)
    requires OneKey(os)
    ensures forall o <- os :: BatchVideos(os, KeyOf(o)) <= Videos(Items(os, ""), o.keywordText)
    ensures forall v :: v != "" ==> BatchComments(os, v) <= Comments(Items(os, ""), v)
    ensures BatchComments(os, "") == LooseComments(os)
    ensures forall u :: u != "" ==> BatchAuthorVideos(os, u) <= AuthorVideos(Items(os, ""), u)
  {
    forall o <- os {
      ItemsHold(os, o);
    }
  }

  lemma SameElements(a: seq<Observation>, b: seq<Observation>)
    requires multiset(a) == multiset(b)
    ensures |a| == |b| && forall x :: x in a <==> x in b
  {
    assert |multiset(a)| == |a| && |multiset(b)| == |b|;
    assert forall x :: x in a <==> x in multiset(a);
    assert forall x :: x in b <==> x in multiset(b);
  }

  /** What the check reads is what was filed. */
  lemma FiledIsSeen(cs: seq<Candidate>, os: seq<Observation>)
    requires DistinctAuthors(cs) && Files(cs, os)
    ensures |Seen(cs)| == |os| && forall x :: x in Seen(cs) <==> x in os
    ensures forall k :: BatchVideos(Seen(cs), k) == BatchVideos(os, k)
    ensures forall v :: BatchComments(Seen(cs), v) == BatchComments(os, v)
    ensures forall u :: BatchAuthorVideos(Seen(cs), u) == BatchAuthorVideos(os, u)
  {
    FiledUnderOwnAuthor(cs, os);
    SeenIsAll(cs);
    FilingIsARearrangement(cs, os);
    SameElements(All(cs), os);
  }

  /** The candidates are no more than the profiles seen. */
  lemma FewCandidates(cs: seq<Candidate>, os: seq<Observation>)
    requires DistinctAuthors(cs) && Files(cs, os) && forall o <- os :: o.author != ""
    ensures |cs| <= |Profiles(Items(os, ""))|
  {
    var authors := seq(|cs|, i requires 0 <= i < |cs| => cs[i].author);
    forall u <- authors ensures u in Profiles(Items(os, "")) {
      var i :| 0 <= i < |cs| && cs[i].author == u;
      EvidenceAt(cs, i);
      ByAuthorIsEmptyOrNot(os, u);
      var o := cs[i].evidence[0];
      assert o in ByAuthor(os, u);
      ItemsHold(os, o);
    }
    DistinctSize(authors, Profiles(Items(os, "")));
  }

  lemma SetsFit(os: seq<Observation>, b: Limits)
    requires Fits(Items(os, ""), b) && OneKey(os) && forall o <- os :: o.author != ""
    ensures forall k :: |BatchVideos(os, k)| <= b.videos
    ensures forall v :: v != "" ==> |BatchComments(os, v)| <= b.comments
    ensures |BatchComments(os, "")| == |LooseComments(os)|
    ensures forall u :: |BatchAuthorVideos(os, u)| <= b.authorVideos
  {
    BatchSetsAreTracked(os);
    forall k ensures |BatchVideos(os, k)| <= b.videos {
      if o :| o in os && KeyOf(o) == k {
        SubsetSize(BatchVideos(os, k), Videos(Items(os, ""), o.keywordText));
      } else {
        assert BatchVideos(os, k) == {};
      }
    }
    forall v | v != "" ensures |BatchComments(os, v)| <= b.comments {
      SubsetSize(BatchComments(os, v), Comments(Items(os, ""), v));
    }
    forall u ensures |BatchAuthorVideos(os, u)| <= b.authorVideos {
      if u != "" {
        SubsetSize(BatchAuthorVideos(os, u), AuthorVideos(Items(os, ""), u));
      } else {
        assert BatchAuthorVideos(os, u) == {};
      }
    }
  }

  /**
   * Any batch that files observations within the tracker's limits passes the batch check iff the
   * comments without a video id fit one video's limit; no other check can fail.
   */
  lemma AcceptedBatchesPass(cs: seq<Candidate>, os: seq<Observation>, b: Limits, plan: seq<Planned>)
    requires DistinctAuthors(cs) && Files(cs, os) && Fits(Items(os, ""), b) && OneKey(os)
    requires forall o <- os :: o.author != "" && IsPlanned(o, plan)
    ensures Verdict(cs, b, plan).Success? <==> |LooseComments(os)| <= b.comments
    ensures Verdict(cs, b, plan).Failure? ==> Verdict(cs, b, plan).error == TooManyComments
  {
    FiledIsSeen(cs, os);
    FewCandidates(cs, os);
    SetsFit(os, b);
    assert forall v :: |BatchComments(Seen(cs), v)| == |BatchComments(os, v)|;
    assert forall k :: |BatchVideos(Seen(cs), k)| == |BatchVideos(os, k)|;
    assert forall u :: |BatchAuthorVideos(Seen(cs), u)| == |BatchAuthorVideos(os, u)|;
  }

  /** Normalised observations count as the tracker counted them. */
  lemma NormalizedItems(os: seq<Observation>, id: Option<int>, text: Id)
    requires text != ""
    ensures Items(NormalizedAll(os, id, text), "") == Items(os, text)
  {
  }

  lemma FitsLater(before: seq<Item>, a: seq<Item>, b: Limits)
    requires Fits(before + a, b)
    ensures Fits(a, b)
  {
    var all := before + a;
    assert forall x <- a :: x in all;
    SubsetSize(Keywords(a), Keywords(all));
    SubsetSize(Profiles(a), Profiles(all));
    forall k ensures |Videos(a, k)| <= b.videos {
      SubsetSize(Videos(a, k), Videos(all, k));
    }
    forall s ensures |Comments(a, s)| <= b.comments {
      SubsetSize(Comments(a, s), Comments(all, s));
    }
    forall u ensures |AuthorVideos(a, u)| <= b.authorVideos {
      SubsetSize(AuthorVideos(a, u), AuthorVideos(all, u));
    }
  }

  lemma NormalizedLoose(os: seq<Observation>, id: Option<int>, text: Id)
    ensures LooseComments(NormalizedAll(os, id, text)) == LooseComments(os)
  {
    var flat := NormalizedAll(os, id, text);
    forall c | c in LooseComments(os) ensures c in LooseComments(flat) {
      var i :| 0 <= i < |os| && os[i].comment == c && os[i].video == "" && c != "";
      assert flat[i] in flat;
    }
  }

  /** The same for one keyword run: what the tracker accepted, grouped. */
  lemma AcceptedRunsPassTheBatch(before: seq<Item>, os: seq<Observation>, id: Option<int>, text: Id,
                                 reasons: map<Id, set<Reason>>, b: Limits, plan: seq<Planned>)
    requires Fits(before + Items(os, text), b)
    requires text != "" && Planned(id, text) in plan && forall o <- os :: o.author != ""
    ensures Verdict(Candidates(os, id, text, reasons), b, plan).Success? <==> |LooseComments(os)| <= b.comments
    ensures Verdict(Candidates(os, id, text, reasons), b, plan).Failure? ==>
      Verdict(Candidates(os, id, text, reasons), b, plan).error == TooManyComments
  {
    var flat := NormalizedAll(os, id, text);
    GroupsAreFiled(os, id, text, reasons);
    NormalizedItems(os, id, text);
    FitsLater(before, Items(os, text), b);
    assert forall i | 0 <= i < |flat| :: os[i] in os && IsPlanned(flat[i], plan);
    NormalizedLoose(os, id, text);
    AcceptedBatchesPass(Candidates(os, id, text, reasons), flat, b, plan);
  }

  const SMALL := Limits(1, 1, 1, 1, 1, 2)
  const FIRST := Observation(None, "k", "", "c1", "u1", "a", "a", false)
  const SECOND := Observation(None, "k", "", "c2", "u2", "a", "a", false)

  lemma TwoUrlsFit()
    ensures Fits(Items([FIRST, SECOND], "k"), SMALL)
  {
    var items := Items([FIRST, SECOND], "k");
    assert items == [ItemOf(FIRST, "k"), ItemOf(SECOND, "k")];
    assert Keywords(items) == {"k"} && Profiles(items) == {"a"};
    assert forall k :: Videos(items, k) == {} && AuthorVideos(items, k) == {};
    forall s ensures |Comments(items, s)| <= 1 {
      SubsetSize(Comments(items, s), if s == "u1" then {"c1"} else {"c2"});
    }
  }

  lemma TwoLooseComments()
    ensures |LooseComments([FIRST, SECOND])| > 1
  {
    assert FIRST in [FIRST, SECOND] && SECOND in [FIRST, SECOND];
    SubsetSize({"c1", "c2"}, LooseComments([FIRST, SECOND]));
  }

  /** Two comments without a video id, at two addresses, fit every limit of the tracker and break the batch check. */
  lemma UrlsSeparateWhatTheBatchJoins()
    ensures Fits(Items([FIRST, SECOND], "k"), SMALL)
    ensures Verdict(Candidates([FIRST, SECOND], None, "k", map[]), SMALL, [Planned(None, "k")])
            == Failure(TooManyComments)
  {
    TwoUrlsFit();
    TwoLooseComments();
    var items := Items([FIRST, SECOND], "k");
    assert [] + items == items;
    AcceptedRunsPassTheBatch([], [FIRST, SECOND], None, "k", map[], SMALL, [Planned(None, "k")]);
  }
}
