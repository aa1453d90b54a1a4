/** The acquisition stage: every planned keyword browsed, grouped, merged, and the whole batch checked. */
module Collection {
  import opened Wrappers
  import opened Budget
  import opened Batch
  import BrowseLoop

  // ----- one keyword -----

  datatype Collected = Collected(
    candidates: seq<Candidate>, exhaustion: Option<Exhaustion>, pages: nat, llmCalls: nat)

  /** `collect_keyword`: one browse run under the tracker, its observations grouped into candidates. */
  method CollectKeyword(run: BrowseLoop.BrowseLimits, platform: BrowseLoop.Platform, start: BrowseLoop.Url,
                        tracker: ExplorationBudgetTracker, id: Option<int>, keyword: Id)
    returns (r: Result<Collected, ()>, ghost offered: seq<Observation>, ghost kept: seq<Observation>,
             ghost reasons: map<Id, set<Reason>>)
    requires run.steps >= 1 && run.pages >= 1 && run.llmCalls >= 1 && tracker.Valid()
    modifies tracker
    ensures tracker.Valid()
    ensures tracker.State() == After(old(tracker.State()), Items(offered, keyword), tracker.budget)
    ensures r.Success? ==>
      && r.value.pages <= run.pages && r.value.llmCalls <= run.llmCalls
      && Items(kept, keyword) == Accepted(old(tracker.State()), Items(offered, keyword), tracker.budget)
      && (forall o <- kept :: o in offered && o.author != "")
      && BrowseLoop.Truncated(old(tracker.State()), Items(offered, keyword), tracker.budget, reasons)
      && r.value.candidates == Candidates(kept, id, keyword, reasons)
  {
    kept, reasons := [], map[];
    var browsed;
    browsed, offered := BrowseLoop.Run(run, platform, start, false, Some(tracker), keyword);
    if browsed.Failure? {
      return Failure(()), offered, kept, reasons;
    }
    var p := browsed.value;
    kept, reasons := p.observations, p.truncation;
    var candidates := Group(p.observations, id, keyword, p.truncation);
    r := Success(Collected(candidates, p.exhaustion, p.pages, p.llmCalls));
  }

  // ----- all keywords -----

  /** `keyword_ids.get(text)`, the dictionary built from the plan. */
  function KeywordId(plan: seq<Planned>, text: Id): Option<int> {
    if plan == [] then None
    else
      var p := plan[|plan| - 1];
      if p.text == text && p.id.Some? then p.id else KeywordId(plan[..|plan| - 1], text)
  }

  lemma {:induction false} KeywordIdIsPlanned(plan: seq<Planned>, text: Id)
    ensures KeywordId(plan, text).Some? ==> Planned(KeywordId(plan, text), text) in plan
  {
    if plan != [] {
      KeywordIdIsPlanned(plan[..|plan| - 1], text);
    }
  }

  /** A keyword id names one stored keyword, and no keyword is empty. */
  ghost predicate PlanOk(plan: seq<Planned>) {
    && (forall p <- plan :: p.text != "")
    && (forall p <- plan, q <- plan | p.id.Some? && p.id == q.id :: p.text == q.text)
  }

  predicate Tagged(o: Observation, plan: seq<Planned>) {
    o.author != "" && o.keywordId == KeywordId(plan, o.keywordText) && exists p <- plan :: p.text == o.keywordText
  }

  /** Observations tagged from one plan are planned, and no id stands for two keywords. */
  lemma TaggedIsPlanned(os: seq<Observation>, plan: seq<Planned>)
    requires PlanOk(plan) && forall o <- os :: Tagged(o, plan)
    ensures OneKey(os) && forall o <- os :: IsPlanned(o, plan)
  {
    forall o <- os ensures o.keywordId.Some? ==> Planned(o.keywordId, o.keywordText) in plan {
      KeywordIdIsPlanned(plan, o.keywordText);
    }
  }

  /** What the collector carries from keyword to keyword. */
  datatype Ledger = Ledger(
    merged: seq<Candidate>, pages: nat, remainingPages: nat, llmCalls: nat, remainingCalls: nat, unproductive: nat)
  {
    function Spend(pages: nat, calls: nat): Ledger
      requires pages <= remainingPages && calls <= remainingCalls
    {
      this.(pages := this.pages + pages, remainingPages := remainingPages - pages,
            llmCalls := llmCalls + calls, remainingCalls := remainingCalls - calls)
    }
  }

  lemma ItemsJoin(a: seq<Observation>, b: seq<Observation>)
    ensures Items(a + b, "") == Items(a, "") + Items(b, "")
  {
  }

  /** What happened to the tracker: a keyword was admitted, or a part of a run made offers and was filed or lost. */
  datatype Part = Admitted(keyword: Id) | Offers(filed: bool, items: seq<Item>)

  function AfterPart(c: Counters, part: Part, b: Limits): Counters {
    match part
    case Admitted(keyword) => c.(keywords := c.keywords + {keyword})
    case Offers(_, items) => After(c, items, b)
  }

  /** The tracker after all parts. */
  function Later(parts: seq<Part>, b: Limits): Counters {
    if parts == [] then EMPTY else AfterPart(Later(parts[..|parts| - 1], b), parts[|parts| - 1], b)
  }

  /** What the tracker accepted in the parts that did not raise, in order. */
  function AcceptedIn(parts: seq<Part>, b: Limits): seq<Item> {
    if parts == [] then []
    else
      var front, part := parts[..|parts| - 1], parts[|parts| - 1];
      AcceptedIn(front, b) + if part.Offers? && part.filed then Accepted(Later(front, b), part.items, b) else []
  }

  /** The keywords admitted, in order. */
  function Admissions(parts: seq<Part>): seq<Id> {
    if parts == [] then []
    else
      var part := parts[|parts| - 1];
      Admissions(parts[..|parts| - 1]) + if part.Admitted? then [part.keyword] else []
  }

  lemma PartsGrow(parts: seq<Part>, part: Part, b: Limits)
    ensures Later(parts + [part], b) == AfterPart(Later(parts, b), part, b)
    ensures AcceptedIn(parts + [part], b) ==
            AcceptedIn(parts, b)
            + if part.Offers? && part.filed then Accepted(Later(parts, b), part.items, b) else []
    ensures Admissions(parts + [part]) == Admissions(parts) + if part.Admitted? then [part.keyword] else []
  {
    assert (parts + [part])[..|parts|] == parts;
  }

  /** The parts explain the tracker, and `kept` is exactly what they accepted and filed. */
  ghost predicate Explains(parts: seq<Part>, c: Counters, kept: seq<Observation>, b: Limits) {
    c == Later(parts, b) && Items(kept, "") == AcceptedIn(parts, b)
  }

  /** What is offered and accepted is kept, unless the part raised; then nothing of it is. */
  ghost predicate Keeps(ok: bool, before: Counters, b: Limits, offered: seq<Item>,
                        kept: seq<Observation>, kept2: seq<Observation>)
  {
    if ok then kept <= kept2 && Items(kept2[|kept|..], "") == Accepted(before, offered, b)
    else kept2 == kept
  }

  lemma ItemsSplit(kept: seq<Observation>, kept2: seq<Observation>)
    requires kept <= kept2
    ensures Items(kept2, "") == Items(kept, "") + Items(kept2[|kept|..], "")
  {
    assert kept2 == kept + kept2[|kept|..];
    ItemsJoin(kept, kept2[|kept|..]);
  }

  /** One part of a run keeps the explanation. */
  lemma PartExplains(parts: seq<Part>, c: Counters, kept: seq<Observation>, kept2: seq<Observation>,
                     b: Limits, ok: bool, items: seq<Item>)
    requires Explains(parts, c, kept, b) && Keeps(ok, c, b, items, kept, kept2)
    ensures Explains(parts + [Offers(ok, items)], After(c, items, b), kept2, b)
    ensures Admissions(parts + [Offers(ok, items)]) == Admissions(parts)
  {
    PartsGrow(parts, Offers(ok, items), b);
    if ok {
      ItemsSplit(kept, kept2);
    }
  }

  /** `kept` is filed in the merged batch and accounted for by the tracker; usage and remainder add up. */
  ghost predicate LedgerOk(l: Ledger, c: Counters, kept: seq<Observation>, plan: seq<Planned>,
                           run: BrowseLoop.BrowseLimits)
  {
    && DistinctAuthors(l.merged) && Files(l.merged, kept)
    && Covers(c, Items(kept, "")) && (forall o <- kept :: Tagged(o, plan))
    && l.pages + l.remainingPages == run.pages && l.llmCalls + l.remainingCalls == run.llmCalls
  }

  /** `_mark_candidate_truncated` for every candidate of a keyword. */
  function MarkAll(cs: seq<Candidate>, why: Exhaustion): seq<Candidate> {
    seq(|cs|, i requires 0 <= i < |cs| => cs[i].(truncationReasons := cs[i].truncationReasons + {why}))
  }

  lemma {:induction false} MarkingMovesNoEvidence(cs: seq<Candidate>, why: Exhaustion, u: Id)
    ensures EvidenceOf(MarkAll(cs, why), u) == EvidenceOf(cs, u)
  {
    if cs != [] {
      var n := |cs| - 1;
      assert MarkAll(cs, why)[..n] == MarkAll(cs[..n], why);
      MarkingMovesNoEvidence(cs[..n], why, u);
    }
  }

  lemma MarkedStaysFiled(cs: seq<Candidate>, why: Exhaustion, os: seq<Observation>)
    requires Files(cs, os)
    ensures Files(MarkAll(cs, why), os)
  {
    forall u {
      MarkingMovesNoEvidence(cs, why, u);
    }
    forall c <- MarkAll(cs, why) ensures c.evidence != [] {
      var i :| 0 <= i < |cs| && c == MarkAll(cs, why)[i];
      assert cs[i] in cs;
    }
  }

  /** Limits that are already attributed to single users. */
  predicate PerUser(why: Exhaustion) {
    why.OverBudget? && !why.reason.MaxKeywords?
  }

  lemma FilesOneMore(cs: seq<Candidate>, os: seq<Observation>, c: Candidate, o: Observation)
    requires Files(cs, os) && c.evidence == [o] && o.author == c.author
    ensures Files(cs + [c], os + [o])
  {
    assert (cs + [c])[..|cs|] == cs && (os + [o])[..|os|] == os;
  }

  /** Of the users offered the tracker accepted exactly `taken`, and those are filed. */
  ghost predicate Found(before: Counters, now: Counters, b: Limits, offered: seq<Observation>,
                        found: seq<Candidate>, taken: seq<Observation>, plan: seq<Planned>)
  {
    && now == After(before, Items(offered, ""), b) && Items(taken, "") == Accepted(before, Items(offered, ""), b)
    && Files(found, taken) && (forall o <- taken :: Tagged(o, plan))
  }

  /** One directly found user is one more observation for the tracker. */
  method OfferUser(tracker: ExplorationBudgetTracker, o: Observation, found: seq<Candidate>,
                   ghost before: Counters, ghost offered: seq<Observation>, ghost taken: seq<Observation>,
                   ghost plan: seq<Planned>)
    returns (found2: seq<Candidate>, ghost taken2: seq<Observation>)
    requires tracker.Valid() && Found(before, tracker.State(), tracker.budget, offered, found, taken, plan)
    requires Tagged(o, plan) && o.keywordText != ""
    modifies tracker
    ensures tracker.Valid()
    ensures Found(before, tracker.State(), tracker.budget, offered + [o], found2, taken2, plan)
  {
    found2, taken2 := found, taken;
    var item := ItemOf(o, o.keywordText);
    assert item == ItemOf(o, "") && Items([o], "") == [item];
    ItemsJoin(offered, [o]);
    ItemsJoin(taken, [o]);
    OfferOne(before, Items(offered, ""), item, tracker.budget);
    var d := tracker.ConsumeObservation(item);
    if d.accepted {
      var c := Candidate(o.author, o.username, [o], set reason <- d.reached :: OverBudget(reason));
      FilesOneMore(found, taken, c, o);
      found2, taken2 := found + [c], taken + [o];
    }
  }

  /** `_direct_user_candidates`; the page's users are arbitrary, and an unusable one raises. */
  method DirectUsers(tracker: ExplorationBudgetTracker, id: Option<int>, keyword: Id, ghost plan: seq<Planned>)
    returns (ok: bool, found: seq<Candidate>, ghost offered: seq<Observation>, ghost taken: seq<Observation>)
    requires tracker.Valid() && keyword != "" && id == KeywordId(plan, keyword) && exists p <- plan :: p.text == keyword
    modifies tracker
    ensures tracker.Valid()
    ensures Found(old(tracker.State()), tracker.State(), tracker.budget, offered, found, taken, plan)
  {
    var users: seq<(Id, Id)> := *;
    ok, found, offered, taken := true, [], [], [];
    assert Items([], "") == [];
    for n := 0 to |users|
      invariant tracker.Valid()
      invariant Found(old(tracker.State()), tracker.State(), tracker.budget, offered, found, taken, plan)
    {
      if * {
        ok := false;
        return;
      }
      var (user, username) := users[n];
      if user == "" {
        continue;
      }
      var o := Observation(id, keyword, "", "", "", user, if username != "" then username else user, false);
      found, taken := OfferUser(tracker, o, found, old(tracker.State()), offered, taken, plan);
      offered := offered + [o];
    }
  }

  // ----- one turn of the keyword loop -----

  /** Candidates of one more source are marked, if the run was cut short, and merged. */
  method MergeInto(l: Ledger, cs: seq<Candidate>, why: Option<Exhaustion>, ghost c: Counters,
                   ghost kept: seq<Observation>, ghost more: seq<Observation>, ghost plan: seq<Planned>,
                   ghost run: BrowseLoop.BrowseLimits)
    returns (l2: Ledger)
    requires LedgerOk(l, c, kept, plan, run) && Files(cs, more)
    requires Covers(c, Items(kept + more, "")) && forall o <- more :: Tagged(o, plan)
    ensures LedgerOk(l2, c, kept + more, plan, run) && l2 == l.(merged := l2.merged)
  {
    var marked := cs;
    if why.Some? {
      MarkedStaysFiled(cs, why.value, more);
      marked := MarkAll(cs, why.value);
    }
    var merged := MergeCandidates(l.merged, marked);
    MergingFilesBoth(merged, l.merged, marked, kept, more);
    l2 := l.(merged := merged);
  }

  /** The auxiliary search: one more page, and the users on it. */
  method Auxiliary(l: Ledger, tracker: ExplorationBudgetTracker, id: Option<int>, keyword: Id,
                   ghost kept: seq<Observation>, ghost plan: seq<Planned>, ghost run: BrowseLoop.BrowseLimits)
    returns (l2: Ledger, ok: bool, ghost kept2: seq<Observation>, ghost offered: seq<Item>)
    requires tracker.Valid() && LedgerOk(l, tracker.State(), kept, plan, run) && l.remainingPages > 0
    requires keyword != "" && id == KeywordId(plan, keyword) && exists p <- plan :: p.text == keyword
    modifies tracker
    ensures tracker.Valid() && LedgerOk(l2, tracker.State(), kept2, plan, run)
    ensures tracker.State() == After(old(tracker.State()), offered, tracker.budget)
    ensures Keeps(ok, old(tracker.State()), tracker.budget, offered, kept, kept2)
  {
    l2, ok, kept2, offered := l, true, kept, [];
    if * {
      ok := false;   // the search raised
      return;
    }
    l2 := l.Spend(1, 0);
    var found;
    ghost var before, users, taken := tracker.State(), [], [];
    ok, found, users, taken := DirectUsers(tracker, id, keyword, plan);
    offered := Items(users, "");
    HistoryCovers(before, Items(kept, ""), offered, tracker.budget);
    ItemsJoin(kept, taken);
    if !ok {
      return;
    }
    var late: bool := *;
    var why := if l2.remainingPages == 0 then Some(MaxPages) else if late then Some(MaxDurationMinutes) else None;
    l2 := MergeInto(l2, found, why, tracker.State(), kept, taken, plan, run);
    kept2 := kept + taken;
    assert kept2[|kept|..] == taken;
  }

  /** Why the rest of a keyword's budget is gone, when the agent itself gave no reason. */
  method Remainder(l: Ledger, exhaustion: Option<Exhaustion>) returns (why: Option<Exhaustion>)
    ensures exhaustion.Some? ==> why == exhaustion
    ensures why.None? ==> l.remainingPages > 0 && l.remainingCalls > 0
  {
    why := exhaustion;
    if why.None? {
      var late: bool := *;
      why := if l.remainingPages == 0 then Some(MaxPages)
      else if l.remainingCalls == 0 then Some(MaxLlmCalls)
      else if late then Some(MaxDurationMinutes)
      else None;
    }
  }

  /** The agent's run for one keyword: its candidates are merged, its usage deducted. */
  method Primary(l: Ledger, tracker: ExplorationBudgetTracker, platform: BrowseLoop.Platform, keyword: Id,
                 ghost kept: seq<Observation>, plan: seq<Planned>, run: BrowseLoop.BrowseLimits)
    returns (l2: Ledger, ok: bool, exhaustion: Option<Exhaustion>, ghost kept2: seq<Observation>,
             ghost offered: seq<Item>)
    requires tracker.Valid() && LedgerOk(l, tracker.State(), kept, plan, run)
    requires run.steps >= 1 && l.remainingPages > 0 && l.remainingCalls > 0
    requires keyword != "" && exists p <- plan :: p.text == keyword
    modifies tracker
    ensures tracker.Valid() && LedgerOk(l2, tracker.State(), kept2, plan, run)
    ensures tracker.State() == After(old(tracker.State()), offered, tracker.budget)
    ensures Keeps(ok, old(tracker.State()), tracker.budget, offered, kept, kept2)
  {
    l2, ok, exhaustion, kept2 := l, true, None, kept;
    ghost var before := tracker.State();
    var start: BrowseLoop.Url := *;
    var id := KeywordId(plan, keyword);
    var limits := BrowseLoop.BrowseLimits(run.steps, l.remainingPages, l.remainingCalls);
    ghost var seen, more, reasons;
    var collected;
    collected, seen, more, reasons := CollectKeyword(limits, platform, start, tracker, id, keyword);
    offered := Items(seen, keyword);
    HistoryCovers(before, Items(kept, ""), offered, tracker.budget);
    if collected.Failure? {
      ok := false;   // logged; what the tracker counted stays counted
      return;
    }
    GroupsAreFiled(more, id, keyword, reasons);
    NormalizedItems(more, id, keyword);
    ItemsJoin(kept, NormalizedAll(more, id, keyword));
    var c := collected.value;
    l2 := l.Spend(c.pages, c.llmCalls);
    var why := Remainder(l2, c.exhaustion);
    exhaustion := why;
    if why.Some? && PerUser(why.value) {
      why := None;
    }
    l2 := MergeInto(l2, c.candidates, why, tracker.State(), kept, NormalizedAll(more, id, keyword), plan, run);
    kept2 := kept + NormalizedAll(more, id, keyword);
    assert kept2[|kept|..] == NormalizedAll(more, id, keyword);
  }

  /** One keyword of `_collect_acquisition`; an exception is logged and the next keyword follows. */
  method KeywordTurn(l: Ledger, tracker: ExplorationBudgetTracker, platform: BrowseLoop.Platform, keyword: Id,
                     ghost kept: seq<Observation>, ghost parts: seq<Part>, plan: seq<Planned>,
                     run: BrowseLoop.BrowseLimits)
    returns (l2: Ledger, ghost kept2: seq<Observation>, ghost parts2: seq<Part>)
    requires tracker.Valid() && LedgerOk(l, tracker.State(), kept, plan, run)
    requires Explains(parts, tracker.State(), kept, tracker.budget)
    requires run.steps >= 1 && l.remainingPages > 0
    requires keyword != "" && exists p <- plan :: p.text == keyword
    modifies tracker
    ensures tracker.Valid() && LedgerOk(l2, tracker.State(), kept2, plan, run)
    ensures Explains(parts2, tracker.State(), kept2, tracker.budget)
    ensures parts <= parts2 && Admissions(parts2) == Admissions(parts)
  {
    l2, kept2, parts2 := l, kept, parts;
    var ok, exhaustion := true, Some(MaxLlmCalls);
    ghost var offered;
    if l.remainingCalls > 0 {
      l2, ok, exhaustion, kept2, offered := Primary(l, tracker, platform, keyword, kept, plan, run);
      PartExplains(parts, old(tracker.State()), kept, kept2, tracker.budget, ok, offered);
      parts2 := parts + [Offers(ok, offered)];
    }
    if !ok {
      return;
    }
    var goesOn := exhaustion.None? || exhaustion.value.MaxLlmCalls? || exhaustion.value.MaxSteps?;
    var intime: bool := *;
    if goesOn && !tracker.Exhausted() && l2.remainingPages > 0 && intime {
      ghost var before, c, was := kept2, tracker.State(), parts2;
      l2, ok, kept2, offered := Auxiliary(l2, tracker, KeywordId(plan, keyword), keyword, kept2, plan, run);
      PartExplains(was, c, before, kept2, tracker.budget, ok, offered);
      parts2 := was + [Offers(ok, offered)];
    }
    var unseen: bool := *;   // the metrics show neither a video nor a candidate
    if ok && exhaustion == Some(MaxSteps) && unseen {
      l2 := l2.(unproductive := l2.unproductive + 1);
    }
  }

  datatype AcquisitionError = SearchExhausted | Rejected(error: BatchError)

  lemma NothingIsCovered()
    ensures Covers(EMPTY, Items([], "")) && Files([], [])
  {
    assert Items([], "") == [];
    assert Keywords([]) == {} && Profiles([]) == {};
  }

  function Texts(plan: seq<Planned>): seq<Id> {
    seq(|plan|, i requires 0 <= i < |plan| => plan[i].text)
  }

  /** The tracker turns a new keyword away. */
  predicate TurnedAway(c: Counters, b: Limits, keyword: Id) {
    Full(keyword, c.keywords, b.keywords)
  }

  /** The next keyword is admitted, unless the tracker turns it away. */
  method Admit(l: Ledger, tracker: ExplorationBudgetTracker, n: nat, ghost kept: seq<Observation>,
               ghost parts: seq<Part>, plan: seq<Planned>, ghost run: BrowseLoop.BrowseLimits)
    returns (allowed: bool, ghost parts2: seq<Part>)
    requires tracker.Valid() && LedgerOk(l, tracker.State(), kept, plan, run) && n < |plan|
    requires Explains(parts, tracker.State(), kept, tracker.budget) && Admissions(parts) == Texts(plan)[..n]
    modifies tracker
    ensures tracker.Valid() && LedgerOk(l, tracker.State(), kept, plan, run)
    ensures Explains(parts2, tracker.State(), kept, tracker.budget)
    ensures Admissions(parts2) == Texts(plan)[..if allowed then n + 1 else n]
    ensures !allowed ==> TurnedAway(Later(parts2, tracker.budget), tracker.budget, plan[n].text)
  {
    parts2 := parts;
    allowed := tracker.AllowKeyword(plan[n].text);
    if allowed {
      PartsGrow(parts, Admitted(plan[n].text), tracker.budget);
      parts2 := parts + [Admitted(plan[n].text)];
      assert Texts(plan)[..n] + [plan[n].text] == Texts(plan)[..n + 1];
    }
  }

  /** `_collect_acquisition`: the keywords in order, one tracker for all of them. */
  method CollectAll(plan: seq<Planned>, budget: Limits, platform: BrowseLoop.Platform, run: BrowseLoop.BrowseLimits)
    returns (r: Result<seq<Candidate>, AcquisitionError>, l: Ledger, ghost kept: seq<Observation>,
             ghost parts: seq<Part>, ghost late: bool)
    requires PlanOk(plan) && run.steps >= 1
    ensures l.pages <= run.pages && l.llmCalls <= run.llmCalls
    ensures DistinctAuthors(l.merged) && Files(l.merged, kept)
    ensures Fits(Items(kept, ""), budget) && forall o <- kept :: Tagged(o, plan)
    ensures Items(kept, "") == AcceptedIn(parts, budget)
    ensures Admissions(parts) <= Texts(plan)
    ensures Admissions(parts) == Texts(plan) || l.remainingPages == 0 || late
            || TurnedAway(Later(parts, budget), budget, plan[|Admissions(parts)|].text)
    ensures r == if plan != [] && l.unproductive == |plan| && l.merged == [] then Failure(SearchExhausted)
                 else Success(l.merged)
  {
    var tracker := new ExplorationBudgetTracker(budget);
    l, kept, parts, late := Ledger([], 0, run.pages, 0, run.llmCalls, 0), [], [], false;
    NothingIsCovered();
    for n := 0 to |plan|
      invariant fresh(tracker) && tracker.budget == budget
      invariant tracker.Valid() && LedgerOk(l, tracker.State(), kept, plan, run)
      invariant Explains(parts, tracker.State(), kept, budget) && Admissions(parts) == Texts(plan)[..n]
    {
      var allowed;
      allowed, parts := Admit(l, tracker, n, kept, parts, plan, run);
      if !allowed {
        break;   // the keywords are used up
      }
      var outOfTime: bool := *;
      if l.remainingPages == 0 || outOfTime {
        late := outOfTime;
        break;   // the pages or the time are used up
      }
      l, kept, parts := KeywordTurn(l, tracker, platform, plan[n].text, kept, parts, plan, run);
    }
    CoveredFits(tracker.State(), Items(kept, ""), budget);
    if plan != [] && l.unproductive == |plan| && l.merged == [] {
      r := Failure(SearchExhausted);
      return;
    }
    r := Success(l.merged);
  }

  /**
   * The acquisition stage up to the collector metrics, for every plan, browser, model and set of found
   * users: the batch holds exactly what the tracker accepted from the parts that did not raise, every
   * keyword had its turn unless keywords, pages or time ran out, and the batch is rejected iff the comments
   * without a video id do not fit one video's limit.
   */
  method Acquire(plan: seq<Planned>, budget: Limits, platform: BrowseLoop.Platform, run: BrowseLoop.BrowseLimits)
    returns (r: Result<seq<Candidate>, AcquisitionError>, l: Ledger, ghost kept: seq<Observation>,
             ghost parts: seq<Part>, ghost late: bool)
    requires PlanOk(plan) && run.steps >= 1
    ensures Items(kept, "") == AcceptedIn(parts, budget)
    ensures Admissions(parts) <= Texts(plan)
    ensures Admissions(parts) == Texts(plan) || l.remainingPages == 0 || late
            || TurnedAway(Later(parts, budget), budget, plan[|Admissions(parts)|].text)
    ensures Fits(Items(kept, ""), budget) && forall o <- kept :: Tagged(o, plan)
    ensures r.Success? ==> DistinctAuthors(r.value) && Files(r.value, kept) && multiset(All(r.value)) == multiset(kept)
    ensures r.Success? ==> |LooseComments(kept)| <= budget.comments
    ensures r.Failure? && r.error.Rejected? ==>
      r.error == Rejected(TooManyComments) && |LooseComments(kept)| > budget.comments
    ensures r.Failure? && r.error.SearchExhausted? ==> kept == []
  {
    var collected;
    collected, l, kept, parts, late := CollectAll(plan, budget, platform, run);
    FilingIsARearrangement(l.merged, kept);
    if collected.Failure? {
      assert |multiset(kept)| == |multiset(All(l.merged))| == 0;
      r := Failure(SearchExhausted);
      return;
    }
    TaggedIsPlanned(kept, plan);
    AcceptedBatchesPass(collected.value, kept, budget, plan);
    var checked := ValidateBatch(collected.value, budget, plan);
    r := if checked.Success? then Success(collected.value) else Failure(Rejected(checked.error));
  }
}
