/** The online budget tracker: five families of identifier sets and one counter, against six limits. */
module Budget {
  import opened Wrappers

  /** Identifiers as compared by the tracker, surrounding blanks already removed; "" means absent. */
  type Id = string

  datatype Limits = Limits(keywords: nat, videos: nat, comments: nat, profiles: nat, authorVideos: nat, total: nat)

  /** What one observation counts against; `scope` is the video id, or the comment URL when there is none. */
  datatype Item = Item(keyword: Id, video: Id, comment: Id, scope: Id, author: Id, profile: bool) {
    /** Counts against the videos looked at per author. */
    predicate OfAuthor() {
      profile && author != "" && video != ""
    }
  }

  datatype Reason = MaxKeywords | MaxVideos | MaxComments | MaxProfiles | MaxAuthorVideos | MaxTotal

  /** Why a browse run ended early, or a candidate was cut short. */
  datatype Exhaustion =
    | UnsafeUrl
    | MaxDuration
    | MaxDurationMinutes
    | MaxLlmCalls
    | MaxSteps
    | MaxPages
    | OverBudget(reason: Reason)

  // ----- the offline meaning: projections of a list of accepted items -----

  function Keywords(a: seq<Item>): set<Id> {
    set x <- a | x.keyword != "" :: x.keyword
  }

  function Videos(a: seq<Item>, k: Id): set<Id> {
    set x <- a | x.video != "" && x.keyword == k :: x.video
  }

  function Comments(a: seq<Item>, s: Id): set<Id> {
    set x <- a | x.comment != "" && x.scope == s :: x.comment
  }

  function Profiles(a: seq<Item>): set<Id> {
    set x <- a | x.author != "" :: x.author
  }

  function AuthorVideos(a: seq<Item>, u: Id): set<Id> {
    set x <- a | x.OfAuthor() && x.author == u :: x.video
  }

  /** The list respects all six limits. */
  ghost predicate Fits(a: seq<Item>, b: Limits) {
    && |a| <= b.total
    && |Keywords(a)| <= b.keywords
    && (forall k :: |Videos(a, k)| <= b.videos)
    && (forall s :: |Comments(a, s)| <= b.comments)
    && |Profiles(a)| <= b.profiles
    && (forall u :: |AuthorVideos(a, u)| <= b.authorVideos)
  }

  // ----- the online state -----

  datatype Counters = Counters(
    keywords: set<Id>,
    videos: map<Id, set<Id>>,
    comments: map<Id, set<Id>>,
    profiles: set<Id>,
    authorVideos: map<Id, set<Id>>,
    total: nat)

  const EMPTY := Counters({}, map[], map[], {}, map[], 0)

  function Get<K, V>(m: map<K, set<V>>, k: K): set<V> {
    if k in m then m[k] else {}
  }

  function Put<K>(m: map<K, set<Id>>, k: K, x: Id): map<K, set<Id>> {
    m[k := Get(m, k) + {x}]
  }

  ghost predicate Within(m: map<Id, set<Id>>, limit: nat) {
    forall k :: |Get(m, k)| <= limit
  }

  lemma PutGrowsOne<K>(m: map<K, set<Id>>, k: K, x: Id)
    ensures forall j :: Get(Put(m, k, x), j) == if j == k then Get(m, k) + {x} else Get(m, j)
    ensures forall j :: Get(m[k := Get(m, k)], j) == Get(m, j)
  {
  }

  /** A fresh identifier for a set that is already full. */
  predicate Full(x: Id, s: set<Id>, limit: nat) {
    x !in s && |s| >= limit
  }

  /** Adding an identifier overflows exactly when it is fresh and its set is full. */
  lemma PutWithin(m: map<Id, set<Id>>, k: Id, x: Id, limit: nat)
    requires Within(m, limit)
    ensures Within(Put(m, k, x), limit) <==> !Full(x, Get(m, k), limit)
  {
    PutGrowsOne(m, k, x);
    if x in Get(m, k) {
      assert Get(m, k) + {x} == Get(m, k);
    }
    if Full(x, Get(m, k), limit) {
      assert |Get(Put(m, k, x), k)| > limit;
    } else {
      assert |Get(m, k) + {x}| <= limit;
      forall j ensures |Get(Put(m, k, x), j)| <= limit {
        assert |Get(m, j)| <= limit;
      }
    }
  }

  lemma TouchThenPut(m: map<Id, set<Id>>, k: Id, x: Id)
    ensures Put(m[k := Get(m, k)], k, x) == m[k := Get(m, k) + {x}]
    ensures Get(m[k := Get(m, k)], k) == Get(m, k)
    ensures x in Get(m, k) ==> m[k := Get(m, k)] == m[k := Get(m, k) + {x}]
  {
    if x in Get(m, k) {
      assert Get(m, k) + {x} == Get(m, k);
    }
  }

  lemma TouchWithin(m: map<Id, set<Id>>, k: Id, limit: nat)
    requires Within(m, limit)
    ensures Within(m[k := Get(m, k)], limit)
  {
    var t := m[k := Get(m, k)];
    forall j ensures |Get(t, j)| <= limit {
      assert |Get(m, j)| <= limit;
    }
  }

  ghost predicate TracksVideos(m: map<Id, set<Id>>, a: seq<Item>) {
    forall k :: Get(m, k) == Videos(a, k)
  }

  ghost predicate TracksComments(m: map<Id, set<Id>>, a: seq<Item>) {
    forall s :: Get(m, s) == Comments(a, s)
  }

  ghost predicate TracksAuthorVideos(m: map<Id, set<Id>>, a: seq<Item>) {
    forall u :: Get(m, u) == AuthorVideos(a, u)
  }

  /** The counters are the projections of the list. */
  ghost predicate Tracks(c: Counters, a: seq<Item>) {
    && c.total == |a| && c.keywords == Keywords(a) && c.profiles == Profiles(a)
    && TracksVideos(c.videos, a) && TracksComments(c.comments, a) && TracksAuthorVideos(c.authorVideos, a)
  }

  ghost predicate Bounded(c: Counters, b: Limits) {
    && c.total <= b.total && |c.keywords| <= b.keywords && |c.profiles| <= b.profiles
    && Within(c.videos, b.videos) && Within(c.comments, b.comments) && Within(c.authorVideos, b.authorVideos)
  }

  /** The first limit that refuses the item, in the order of the checks. */
  function Refusal(c: Counters, b: Limits, o: Item): Option<Reason> {
    if c.total >= b.total then Some(MaxTotal)
    else if o.keyword != "" && Full(o.keyword, c.keywords, b.keywords) then Some(MaxKeywords)
    else if o.video != "" && Full(o.video, Get(c.videos, o.keyword), b.videos) then Some(MaxVideos)
    else if o.comment != "" && Full(o.comment, Get(c.comments, o.scope), b.comments) then Some(MaxComments)
    else if o.author != "" && Full(o.author, c.profiles, b.profiles) then Some(MaxProfiles)
    else if o.OfAuthor() && Full(o.video, Get(c.authorVideos, o.author), b.authorVideos) then Some(MaxAuthorVideos)
    else None
  }

  function Consumed(c: Counters, o: Item): Counters {
    Counters(
      if o.keyword != "" then c.keywords + {o.keyword} else c.keywords,
      if o.video != "" then Put(c.videos, o.keyword, o.video) else c.videos,
      if o.comment != "" then Put(c.comments, o.scope, o.comment) else c.comments,
      if o.author != "" then c.profiles + {o.author} else c.profiles,
      if o.OfAuthor() then Put(c.authorVideos, o.author, o.video) else c.authorVideos,
      c.total + 1)
  }

  // ----- the two agree -----

  lemma SetsGrow(a: seq<Item>, o: Item)
    ensures Keywords(a + [o]) == Keywords(a) + if o.keyword != "" then {o.keyword} else {}
    ensures Profiles(a + [o]) == Profiles(a) + if o.author != "" then {o.author} else {}
  {
  }

  lemma VideosGrow(m: map<Id, set<Id>>, a: seq<Item>, o: Item)
    requires TracksVideos(m, a)
    ensures TracksVideos(if o.video != "" then Put(m, o.keyword, o.video) else m, a + [o])
  {
    PutGrowsOne(m, o.keyword, o.video);
    forall k ensures Videos(a + [o], k) == Videos(a, k) + if o.video != "" && o.keyword == k then {o.video} else {} {
      assert forall x :: x in a + [o] <==> x in a || x == o;
    }
  }

  lemma CommentsGrow(m: map<Id, set<Id>>, a: seq<Item>, o: Item)
    requires TracksComments(m, a)
    ensures TracksComments(if o.comment != "" then Put(m, o.scope, o.comment) else m, a + [o])
  {
    PutGrowsOne(m, o.scope, o.comment);
    forall s ensures Comments(a + [o], s) ==
      Comments(a, s) + (if o.comment != "" && o.scope == s then {o.comment} else {})
    {
      assert forall x :: x in a + [o] <==> x in a || x == o;
    }
  }

  lemma AuthorVideosGrow(m: map<Id, set<Id>>, a: seq<Item>, o: Item)
    requires TracksAuthorVideos(m, a)
    ensures TracksAuthorVideos(if o.OfAuthor() then Put(m, o.author, o.video) else m, a + [o])
  {
    PutGrowsOne(m, o.author, o.video);
    forall u ensures AuthorVideos(a + [o], u) ==
      AuthorVideos(a, u) + (if o.OfAuthor() && o.author == u then {o.video} else {})
    {
      assert forall x :: x in a + [o] <==> x in a || x == o;
    }
  }

  lemma ConsumedTracks(c: Counters, a: seq<Item>, o: Item)
    requires Tracks(c, a)
    ensures Tracks(Consumed(c, o), a + [o])
  {
    SetsGrow(a, o);
    VideosGrow(c.videos, a, o);
    CommentsGrow(c.comments, a, o);
    AuthorVideosGrow(c.authorVideos, a, o);
  }

  lemma FitsBounds(c: Counters, a: seq<Item>, b: Limits)
    requires Tracks(c, a)
    ensures Fits(a, b) <==> Bounded(c, b)
  {
    assert forall k :: |Get(c.videos, k)| == |Videos(a, k)|;
    assert forall s :: |Get(c.comments, s)| == |Comments(a, s)|;
    assert forall u :: |Get(c.authorVideos, u)| == |AuthorVideos(a, u)|;
  }

  /** Each dimension of the new counters overflows exactly when its own check refuses. */
  lemma SetOverflows(x: Id, s: set<Id>, limit: nat)
    requires |s| <= limit
    ensures |if x != "" then s + {x} else s| <= limit <==> !(x != "" && Full(x, s, limit))
  {
    if x in s {
      assert s + {x} == s;
    }
  }

  lemma MapOverflows(m: map<Id, set<Id>>, present: bool, k: Id, x: Id, limit: nat)
    requires Within(m, limit)
    ensures Within(if present then Put(m, k, x) else m, limit) <==> !(present && Full(x, Get(m, k), limit))
  {
    PutWithin(m, k, x, limit);
  }

  /** Nothing is refused iff every dimension still has room; on any state, however it was reached. */
  lemma AcceptedIffBounded(c: Counters, b: Limits, o: Item)
    requires Bounded(c, b)
    ensures Refusal(c, b, o).None? <==> Bounded(Consumed(c, o), b)
  {
    SetOverflows(o.keyword, c.keywords, b.keywords);
    SetOverflows(o.author, c.profiles, b.profiles);
    MapOverflows(c.videos, o.video != "", o.keyword, o.video, b.videos);
    MapOverflows(c.comments, o.comment != "", o.scope, o.comment, b.comments);
    MapOverflows(c.authorVideos, o.OfAuthor(), o.author, o.video, b.authorVideos);
  }

  /** The tracker is exact: it accepts an item iff the accepted list with it still respects all six limits. */
  lemma AcceptedIffFits(c: Counters, a: seq<Item>, b: Limits, o: Item)
    requires Tracks(c, a) && Fits(a, b)
    ensures Refusal(c, b, o).None? <==> Fits(a + [o], b)
    ensures Tracks(Consumed(c, o), a + [o])
  {
    FitsBounds(c, a, b);
    AcceptedIffBounded(c, b, o);
    ConsumedTracks(c, a, o);
    FitsBounds(Consumed(c, o), a + [o], b);
  }

  function After(c: Counters, os: seq<Item>, b: Limits): Counters {
    if os == [] then c
    else
      var d := After(c, os[..|os| - 1], b);
      if Refusal(d, b, os[|os| - 1]).None? then Consumed(d, os[|os| - 1]) else d
  }

  /** What is accepted of a stream of observations offered from counters c. */
  function Accepted(c: Counters, os: seq<Item>, b: Limits): seq<Item> {
    if os == [] then []
    else
      var a := Accepted(c, os[..|os| - 1], b);
      if Refusal(After(c, os[..|os| - 1], b), b, os[|os| - 1]).None? then a + [os[|os| - 1]] else a
  }

  lemma OfferOne(c: Counters, os: seq<Item>, o: Item, b: Limits)
    ensures var d := After(c, os, b);
            && After(c, os + [o], b) == (if Refusal(d, b, o).None? then Consumed(d, o) else d)
            && Accepted(c, os + [o], b) == Accepted(c, os, b) + if Refusal(d, b, o).None? then [o] else []
  {
    assert (os + [o])[..|os|] == os;
  }

  predicate JobWide(r: Reason) {
    r.MaxProfiles? || r.MaxTotal?
  }

  /** An accepted item takes the last profile. */
  predicate LastProfile(c: Counters, b: Limits, o: Item) {
    o.author != "" && o.author !in c.profiles && |c.profiles| + 1 >= b.profiles
  }

  /** The reasons one offer leaves with its author: why it was refused, or which job-wide limit it used up. */
  function Marks(c: Counters, b: Limits, o: Item): set<Reason> {
    var refusal := Refusal(c, b, o);
    if refusal.Some? then {refusal.value}
    else (if LastProfile(c, b, o) then {MaxProfiles} else {}) + if c.total + 1 >= b.total then {MaxTotal} else {}
  }

  lemma ReachedMarks(c: Counters, b: Limits, o: Item, reached: seq<Reason>)
    requires Refusal(c, b, o).None?
    requires MaxProfiles in reached <==> LastProfile(c, b, o)
    requires MaxTotal in reached <==> c.total + 1 >= b.total
    ensures (set r <- reached | JobWide(r)) == Marks(c, b, o)
  {
  }

  /** Every reason left with one author by a stream of offers. */
  function Marked(c: Counters, os: seq<Item>, b: Limits, u: Id): set<Reason> {
    if os == [] then {}
    else
      var n := |os| - 1;
      Marked(c, os[..n], b, u) + if os[n].author == u then Marks(After(c, os[..n], b), b, os[n]) else {}
  }

  lemma MarkOne(c: Counters, os: seq<Item>, o: Item, b: Limits, u: Id)
    ensures Marked(c, os + [o], b, u) ==
            Marked(c, os, b, u) + if o.author == u then Marks(After(c, os, b), b, o) else {}
  {
    assert (os + [o])[..|os|] == os;
  }

  /** Offer i of the stream cut its author short. */
  predicate CutsShort(c: Counters, os: seq<Item>, b: Limits, i: nat)
    requires i < |os|
  {
    Marks(After(c, os[..i], b), b, os[i]) != {}
  }

  /** An author is marked iff one of the author's own offers was refused or used up a job-wide limit. */
  lemma {:induction false} MarkedIffCutShort(c: Counters, os: seq<Item>, b: Limits, u: Id)
    ensures Marked(c, os, b, u) != {} <==> exists i :: 0 <= i < |os| && os[i].author == u && CutsShort(c, os, b, i)
  {
    if os != [] {
      var n := |os| - 1;
      var front := os[..n];
      MarkedIffCutShort(c, front, b, u);
      assert forall i | 0 <= i < n :: front[..i] == os[..i] && front[i] == os[i];
      if i :| 0 <= i < n && front[i].author == u && CutsShort(c, front, b, i) {
        assert CutsShort(c, os, b, i);
      }
      if i :| 0 <= i < |os| && os[i].author == u && CutsShort(c, os, b, i) {
        assert i < n ==> CutsShort(c, front, b, i);
      }
      assert CutsShort(c, os, b, n) <==> Marks(After(c, front, b), b, os[n]) != {};
    }
  }

  /** Over any history the counters are the projections of everything accepted, which respects the limits. */
  lemma {:induction false} HistoryIsExact(c: Counters, a: seq<Item>, os: seq<Item>, b: Limits)
    requires Tracks(c, a) && Fits(a, b)
    ensures Tracks(After(c, os, b), a + Accepted(c, os, b)) && Fits(a + Accepted(c, os, b), b)
  {
    if os == [] {
      assert a + Accepted(c, os, b) == a;
    } else {
      var n := |os| - 1;
      HistoryIsExact(c, a, os[..n], b);
      var before := a + Accepted(c, os[..n], b);
      AcceptedIffFits(After(c, os[..n], b), before, b, os[n]);
      assert a + (Accepted(c, os[..n], b) + [os[n]]) == before + [os[n]];
    }
  }

  /** The counters account at least for the list; what was counted and lost since stays counted. */
  ghost predicate Covers(c: Counters, a: seq<Item>) {
    && |a| <= c.total && Keywords(a) <= c.keywords && Profiles(a) <= c.profiles
    && (forall k :: Videos(a, k) <= Get(c.videos, k))
    && (forall s :: Comments(a, s) <= Get(c.comments, s))
    && (forall u :: AuthorVideos(a, u) <= Get(c.authorVideos, u))
  }

  lemma SubsetSize<T>(a: set<T>, b: set<T>)
    requires a <= b
    ensures |a| <= |b|
  {
    assert b == a + (b - a);
  }

  lemma CoveredFits(c: Counters, a: seq<Item>, b: Limits)
    requires Covers(c, a) && Bounded(c, b)
    ensures Fits(a, b)
  {
    SubsetSize(Keywords(a), c.keywords);
    SubsetSize(Profiles(a), c.profiles);
    forall k ensures |Videos(a, k)| <= b.videos {
      SubsetSize(Videos(a, k), Get(c.videos, k));
    }
    forall s ensures |Comments(a, s)| <= b.comments {
      SubsetSize(Comments(a, s), Get(c.comments, s));
    }
    forall u ensures |AuthorVideos(a, u)| <= b.authorVideos {
      SubsetSize(AuthorVideos(a, u), Get(c.authorVideos, u));
    }
  }

  lemma VideosCovered(m: map<Id, set<Id>>, a: seq<Item>, o: Item)
    requires forall k :: Videos(a, k) <= Get(m, k)
    ensures var n := if o.video != "" then Put(m, o.keyword, o.video) else m;
            forall k :: Videos(a, k) <= Get(n, k) && Videos(a + [o], k) <= Get(n, k)
  {
    PutGrowsOne(m, o.keyword, o.video);
    forall k, x | x in Videos(a + [o], k)
      ensures x in Videos(a, k) || (o.video != "" && o.keyword == k && x == o.video)
    {
      var y :| y in a + [o] && x == y.video && x in Videos([y], k);
      assert y in a || y == o;
    }
  }

  lemma CommentsCovered(m: map<Id, set<Id>>, a: seq<Item>, o: Item)
    requires forall k :: Comments(a, k) <= Get(m, k)
    ensures var n := if o.comment != "" then Put(m, o.scope, o.comment) else m;
            forall k :: Comments(a, k) <= Get(n, k) && Comments(a + [o], k) <= Get(n, k)
  {
    PutGrowsOne(m, o.scope, o.comment);
    forall k, x | x in Comments(a + [o], k)
      ensures x in Comments(a, k) || (o.comment != "" && o.scope == k && x == o.comment)
    {
      var y :| y in a + [o] && x == y.comment && x in Comments([y], k);
      assert y in a || y == o;
    }
  }

  lemma AuthorVideosCovered(m: map<Id, set<Id>>, a: seq<Item>, o: Item)
    requires forall k :: AuthorVideos(a, k) <= Get(m, k)
    ensures var n := if o.OfAuthor() then Put(m, o.author, o.video) else m;
            forall k :: AuthorVideos(a, k) <= Get(n, k) && AuthorVideos(a + [o], k) <= Get(n, k)
  {
    PutGrowsOne(m, o.author, o.video);
    forall k, x | x in AuthorVideos(a + [o], k)
      ensures x in AuthorVideos(a, k) || (o.OfAuthor() && o.author == k && x == o.video)
    {
      var y :| y in a + [o] && x == y.video && x in AuthorVideos([y], k);
      assert y in a || y == o;
    }
  }

  lemma ConsumedCovers(c: Counters, a: seq<Item>, o: Item)
    requires Covers(c, a)
    ensures Covers(Consumed(c, o), a) && Covers(Consumed(c, o), a + [o])
  {
    SetsGrow(a, o);
    VideosCovered(c.videos, a, o);
    CommentsCovered(c.comments, a, o);
    AuthorVideosCovered(c.authorVideos, a, o);
  }

  /** Any further history keeps covering the list, and covers what it accepted too. */
  lemma {:induction false} HistoryCovers(c: Counters, a: seq<Item>, os: seq<Item>, b: Limits)
    requires Covers(c, a)
    ensures Covers(After(c, os, b), a) && Covers(After(c, os, b), a + Accepted(c, os, b))
  {
    if os == [] {
      assert a + Accepted(c, os, b) == a;
    } else {
      var n := |os| - 1;
      HistoryCovers(c, a, os[..n], b);
      var before := a + Accepted(c, os[..n], b);
      ConsumedCovers(After(c, os[..n], b), a, os[n]);
      ConsumedCovers(After(c, os[..n], b), before, os[n]);
      assert a + (Accepted(c, os[..n], b) + [os[n]]) == before + [os[n]];
    }
  }

  /** A fresh tracker is exact from the start. */
  lemma EmptyIsExact(os: seq<Item>, b: Limits)
    ensures Tracks(After(EMPTY, os, b), Accepted(EMPTY, os, b)) && Fits(Accepted(EMPTY, os, b), b)
  {
    assert Keywords([]) == {} && Profiles([]) == {};
    assert forall k :: Videos([], k) == {} && Comments([], k) == {} && AuthorVideos([], k) == {};
    HistoryIsExact(EMPTY, [], os, b);
    assert [] + Accepted(EMPTY, os, b) == Accepted(EMPTY, os, b);
  }

  // ----- the tracker object -----

  datatype Decision = Decision(
    accepted: bool, reason: Option<Reason>, stopAfter: bool, reached: seq<Reason>, affected: Id)

  class ExplorationBudgetTracker {
    const budget: Limits
    var keywords: set<Id>
    var videos: map<Id, set<Id>>
    var comments: map<Id, set<Id>>
    var profiles: set<Id>
    var authorVideos: map<Id, set<Id>>
    var totalObservations: nat
    var exhaustionReasons: seq<Reason>
    var lastAffectedUserId: Id

    function State(): Counters
      reads this
    {
      Counters(keywords, videos, comments, profiles, authorVideos, totalObservations)
    }

    ghost predicate Valid()
      reads this
    {
      Bounded(State(), budget)
    }

    constructor (budget: Limits)
      ensures this.budget == budget && State() == EMPTY && Valid()
    {
      this.budget := budget;
      keywords, videos, comments, profiles, authorVideos := {}, map[], map[], {}, map[];
      totalObservations, exhaustionReasons, lastAffectedUserId := 0, [], "";
    }

    predicate Exhausted()
      reads this
    {
      totalObservations >= budget.total
    }

    /** The read-only checks, in order. */
    method Check(o: Item) returns (r: Option<Reason>)
      ensures r == Refusal(State(), budget, o)
    {
      if totalObservations >= budget.total {
        return Some(MaxTotal);
      }
      if o.keyword != "" && o.keyword !in keywords && |keywords| >= budget.keywords {
        return Some(MaxKeywords);
      }
      var keywordVideos := Get(videos, o.keyword);
      if o.video != "" && o.video !in keywordVideos && |keywordVideos| >= budget.videos {
        return Some(MaxVideos);
      }
      var videoComments := Get(comments, o.scope);
      if o.comment != "" && o.comment !in videoComments && |videoComments| >= budget.comments {
        return Some(MaxComments);
      }
      if o.author != "" && o.author !in profiles && |profiles| >= budget.profiles {
        return Some(MaxProfiles);
      }
      var seenVideos := Get(authorVideos, o.author);
      if o.OfAuthor() && o.video !in seenVideos && |seenVideos| >= budget.authorVideos {
        return Some(MaxAuthorVideos);
      }
      r := None;
    }

    method Commit(o: Item)
      modifies `keywords, `videos, `comments, `profiles, `authorVideos, `totalObservations
      ensures State() == Consumed(old(State()), o)
    {
      if o.keyword != "" {
        keywords := keywords + {o.keyword};
      }
      if o.video != "" {
        videos := Put(videos, o.keyword, o.video);
      }
      if o.comment != "" {
        comments := Put(comments, o.scope, o.comment);
      }
      if o.author != "" {
        profiles := profiles + {o.author};
      }
      if o.OfAuthor() {
        authorVideos := Put(authorVideos, o.author, o.video);
      }
      totalObservations := totalObservations + 1;
    }

    /** The limits that this item, compared with the counters before it, has just reached. */
    method Reached(o: Item, before: Counters) returns (reached: seq<Reason>)
      ensures MaxKeywords in reached <==>
        o.keyword != "" && o.keyword !in before.keywords && |keywords| >= budget.keywords
      ensures MaxVideos in reached <==>
        o.video != "" && o.video !in Get(before.videos, o.keyword) && |Get(videos, o.keyword)| >= budget.videos
      ensures MaxComments in reached <==>
        o.comment != "" && o.comment !in Get(before.comments, o.scope) && |Get(comments, o.scope)| >= budget.comments
      ensures MaxProfiles in reached <==>
        o.author != "" && o.author !in before.profiles && |profiles| >= budget.profiles
      ensures MaxAuthorVideos in reached <==>
        && o.OfAuthor() && o.video !in Get(before.authorVideos, o.author)
        && |Get(authorVideos, o.author)| >= budget.authorVideos
      ensures MaxTotal in reached <==> Exhausted()
    {
      reached := [];
      if o.keyword != "" && o.keyword !in before.keywords && |keywords| >= budget.keywords {
        reached := reached + [MaxKeywords];
      }
      if o.video != "" && o.video !in Get(before.videos, o.keyword) && |Get(videos, o.keyword)| >= budget.videos {
        reached := reached + [MaxVideos];
      }
      if o.comment != "" && o.comment !in Get(before.comments, o.scope) && |Get(comments, o.scope)| >= budget.comments {
        reached := reached + [MaxComments];
      }
      if o.author != "" && o.author !in before.profiles && |profiles| >= budget.profiles {
        reached := reached + [MaxProfiles];
      }
      var ofAuthor := Get(authorVideos, o.author);
      if o.OfAuthor() && o.video !in Get(before.authorVideos, o.author) && |ofAuthor| >= budget.authorVideos {
        reached := reached + [MaxAuthorVideos];
      }
      if Exhausted() {
        reached := reached + [MaxTotal];
      }
    }

    /** An item that passed every check: commit it and note the limits it reached. */
    method Accept(o: Item) returns (reached: seq<Reason>)
      modifies `keywords, `videos, `comments, `profiles, `authorVideos, `totalObservations, `exhaustionReasons
      ensures State() == Consumed(old(State()), o)
      ensures exhaustionReasons == reached && (MaxTotal in reached <==> Exhausted())
      ensures MaxProfiles in reached <==> LastProfile(old(State()), budget, o)
    {
      var before := State();
      Commit(o);
      reached := Reached(o, before);
      exhaustionReasons := reached;
    }

    /** One item, all dimensions at once; a refused item leaves every count as it was. */
    method ConsumeObservation(o: Item) returns (d: Decision)
      requires Valid()
      modifies this
      ensures Valid()
      ensures d.accepted <==> Bounded(Consumed(old(State()), o), budget)
      ensures State() == if d.accepted then Consumed(old(State()), o) else old(State())
      ensures d.reason == Refusal(old(State()), budget, o) && (d.accepted <==> d.reason.None?)
      ensures d.stopAfter <==>
        if d.accepted then Exhausted() else !d.reason.value.MaxComments? && !d.reason.value.MaxAuthorVideos?
      ensures d.affected == o.author == lastAffectedUserId
      ensures Marks(old(State()), budget, o) ==
              if d.accepted then set r <- d.reached | JobWide(r) else {d.reason.value}
      ensures exhaustionReasons == if d.accepted then d.reached else [d.reason.value]
    {
      AcceptedIffBounded(State(), budget, o);
      lastAffectedUserId := o.author;
      var refusal := Check(o);
      if refusal.Some? {
        exhaustionReasons := [refusal.value];
        var stop := !refusal.value.MaxComments? && !refusal.value.MaxAuthorVideos?;
        return Decision(false, refusal, stop, [], o.author);
      }
      var reached := Accept(o);
      ReachedMarks(old(State()), budget, o, reached);
      d := Decision(true, None, MaxTotal in reached, reached, o.author);
    }

    method AllowKeyword(keyword: Id) returns (ok: bool)
      requires Valid()
      modifies `keywords, `exhaustionReasons
      ensures Valid()
      ensures ok <==> keyword in old(keywords) || |old(keywords)| < budget.keywords
      ensures keywords == if ok then old(keywords) + {keyword} else old(keywords)
    {
      if keyword in keywords {
        exhaustionReasons := [];
        assert keywords + {keyword} == keywords;
        return true;
      }
      if |keywords| >= budget.keywords {
        exhaustionReasons := [MaxKeywords];
        return false;
      }
      keywords := keywords + {keyword};
      exhaustionReasons := if |keywords| >= budget.keywords then [MaxKeywords] else [];
      ok := true;
    }

    /** Looking a missing keyword up leaves an empty entry behind, even when the video is refused. */
    method AllowVideo(keyword: Id, video: Id) returns (ok: bool)
      requires Valid()
      modifies `videos, `totalObservations, `exhaustionReasons
      ensures Valid()
      ensures var seen := Get(old(videos), keyword);
              && (ok <==> video in seen || (|seen| < budget.videos && old(totalObservations) < budget.total))
              && videos == old(videos)[keyword := if ok then seen + {video} else seen]
              && totalObservations == old(totalObservations) + if ok && video !in seen then 1 else 0
    {
      TouchWithin(videos, keyword, budget.videos);
      TouchThenPut(videos, keyword, video);
      videos := videos[keyword := Get(videos, keyword)];
      PutWithin(videos, keyword, video, budget.videos);
      if video in videos[keyword] {
        exhaustionReasons := [];
        return true;
      }
      if |videos[keyword]| >= budget.videos {
        exhaustionReasons := [MaxVideos];
        return false;
      }
      if Exhausted() {
        exhaustionReasons := [MaxTotal];
        return false;
      }
      totalObservations := totalObservations + 1;
      videos := Put(videos, keyword, video);
      exhaustionReasons := if |videos[keyword]| >= budget.videos then [MaxVideos] else [];
      if Exhausted() {
        exhaustionReasons := exhaustionReasons + [MaxTotal];
      }
      ok := true;
    }

    method AllowComment(scope: Id, comment: Id) returns (ok: bool)
      requires Valid()
      modifies `comments, `totalObservations, `exhaustionReasons
      ensures Valid()
      ensures var seen := Get(old(comments), scope);
              && (ok <==> comment in seen || (|seen| < budget.comments && old(totalObservations) < budget.total))
              && comments == old(comments)[scope := if ok then seen + {comment} else seen]
              && totalObservations == old(totalObservations) + if ok && comment !in seen then 1 else 0
    {
      TouchWithin(comments, scope, budget.comments);
      TouchThenPut(comments, scope, comment);
      comments := comments[scope := Get(comments, scope)];
      PutWithin(comments, scope, comment, budget.comments);
      if comment in comments[scope] {
        exhaustionReasons := [];
        return true;
      }
      if |comments[scope]| >= budget.comments {
        exhaustionReasons := [MaxComments];
        return false;
      }
      if Exhausted() {
        exhaustionReasons := [MaxTotal];
        return false;
      }
      totalObservations := totalObservations + 1;
      comments := Put(comments, scope, comment);
      exhaustionReasons := if |comments[scope]| >= budget.comments then [MaxComments] else [];
      if Exhausted() {
        exhaustionReasons := exhaustionReasons + [MaxTotal];
      }
      ok := true;
    }

    method AllowProfile(user: Id) returns (ok: bool)
      requires Valid()
      modifies `profiles, `totalObservations, `exhaustionReasons, `lastAffectedUserId
      ensures Valid() && lastAffectedUserId == user
      ensures ok <==>
        user in old(profiles) || (|old(profiles)| < budget.profiles && old(totalObservations) < budget.total)
      ensures profiles == if ok then old(profiles) + {user} else old(profiles)
      ensures totalObservations == old(totalObservations) + if ok && user !in old(profiles) then 1 else 0
    {
      lastAffectedUserId := user;
      if user in profiles {
        exhaustionReasons := [];
        assert profiles + {user} == profiles;
        return true;
      }
      if |profiles| >= budget.profiles {
        exhaustionReasons := [MaxProfiles];
        return false;
      }
      if Exhausted() {
        exhaustionReasons := [MaxTotal];
        return false;
      }
      totalObservations := totalObservations + 1;
      profiles := profiles + {user};
      exhaustionReasons := if |profiles| >= budget.profiles then [MaxProfiles] else [];
      if Exhausted() {
        exhaustionReasons := exhaustionReasons + [MaxTotal];
      }
      ok := true;
    }
  }
}
