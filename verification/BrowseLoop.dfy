/** The browse loop: a bounded conversation between a language model and a browser, both arbitrary. */
module BrowseLoop {
  import opened Wrappers
  import opened Budget
  import Batch

  datatype Platform = Douyin | TikTok

  datatype Url = NoUrl | AboutBlank | Url(scheme: string, host: string, path: string)

  predicate EndsWith(s: string, suffix: string) {
    |suffix| <= |s| && s[|s| - |suffix|..] == suffix
  }

  predicate InDomain(host: string, root: string) {
    host == root || EndsWith(host, "." + root)
  }

  /** `_platform_url_is_safe`. */
  predicate IsSafe(platform: Platform, url: Url, allowEmpty: bool) {
    match url
    case NoUrl => allowEmpty
    case AboutBlank => allowEmpty
    case Url(scheme, host, _) =>
      && (scheme == "http" || scheme == "https")
      && match platform
         case Douyin => InDomain(host, "douyin.com") || InDomain(host, "iesdouyin.com")
         case TikTok => InDomain(host, "tiktok.com")
  }

  /** A safe host is a registered root or a name under one, never a name that merely ends alike. */
  lemma SafeHostsAreInTheDomain(host: string, root: string)
    ensures InDomain(host, root) <==> host == root || exists name :: host == name + "." + root
  {
    if EndsWith(host, "." + root) {
      var name := host[..|host| - |"." + root|];
      assert host == name + ("." + root);
      assert name + ("." + root) == name + "." + root;
    }
    if name :| host == name + "." + root {
      assert name + "." + root == name + ("." + root);
    }
  }

  /** An action proposed by the model; None is a payload that is not an integer. */
  datatype Action =
    | Navigate(url: Url)
    | Click(selector: string)
    | Scroll(px: Option<int>)
    | Wait(ms: Option<int>)
    | Extract
    | Done
    | Unsupported

  /** `_validate_action`. */
  predicate IsValid(action: Action, platform: Platform) {
    match action
    case Navigate(url) => IsSafe(platform, url, false)
    case Click(selector) => selector != ""
    case Scroll(px) => px.Some? && 1 <= px.value <= 3000
    case Wait(ms) => ms.Some? && 50 <= ms.value <= 10000
    case Extract => true
    case Done => true
    case Unsupported => false
  }

  datatype BrowseLimits = BrowseLimits(steps: nat, pages: nat, llmCalls: nat)
  datatype BrowseStatus = IsDone | IsTimeout | IsError

  /** The variables of the loop, and of its result. */
  datatype Progress = Progress(
    status: BrowseStatus, exhaustion: Option<Exhaustion>, steps: nat, llmCalls: nat, pages: nat,
    visited: seq<Url>, observations: seq<Batch.Observation>, truncation: map<Id, set<Reason>>)
  {
    function Stop(why: Exhaustion): Progress { this.(exhaustion := Some(why)) }
    function Unsafe(): Progress { this.(status := IsError, exhaustion := Some(UnsafeUrl)) }
    function Step(): Progress { this.(steps := steps + 1) }
    function Truncate(user: Id, reasons: set<Reason>): Progress {
      this.(truncation := truncation[user := Get(truncation, user) + reasons])
    }
    function Visit(platform: Platform, url: Url): Progress {
      if IsSafe(platform, url, false) && url !in visited then this.(visited := visited + [url]) else this
    }
  }

  const START := Progress(IsTimeout, None, 0, 0, 0, [], [], map[])

  ghost predicate VisitsOk(p: Progress, platform: Platform) {
    && (forall i, j :: 0 <= i < j < |p.visited| ==> p.visited[i] != p.visited[j])
    && (forall u <- p.visited :: IsSafe(platform, u, false))
  }

  lemma VisitKeepsOk(p: Progress, platform: Platform, url: Url)
    requires VisitsOk(p, platform)
    ensures VisitsOk(p.Visit(platform, url), platform)
    ensures p.Visit(platform, url) == p.(visited := p.Visit(platform, url).visited)
  {
  }

  ghost predicate Ok(p: Progress, b: BrowseLimits, platform: Platform) {
    && p.steps <= p.llmCalls <= b.llmCalls && p.pages <= b.pages && VisitsOk(p, platform)
    && (p.exhaustion.None? ==> !p.status.IsError?)
    && (p.status.IsDone? ==> p.exhaustion.None?)
  }

  /** How one turn ends: the next one, the end of the loop, the deadline, or an exception. */
  datatype Flow = Next | Break | Deadline | Raise

  /** Each author's truncation reasons are the marks the author's own offers left. */
  ghost predicate Truncated(before: Counters, offers: seq<Item>, b: Limits, truncation: map<Id, set<Reason>>) {
    forall u :: Get(truncation, u) == Marked(before, offers, b, u)
  }

  /** What the tracker made of the observations offered to it; without one, everything offered is kept. */
  ghost predicate Kept(tracker: Option<ExplorationBudgetTracker>, before: Counters, keyword: Id,
                       offered: seq<Batch.Observation>, p: Progress)
    reads if tracker.Some? then {tracker.value} else {}
  {
    && (forall o <- p.observations :: o in offered && o.author != "")
    && match tracker
       case None => p.observations == offered && p.truncation == map[]
       case Some(t) =>
         && t.Valid() && t.State() == After(before, Batch.Items(offered, keyword), t.budget)
         && Batch.Items(p.observations, keyword) == Accepted(before, Batch.Items(offered, keyword), t.budget)
         && Truncated(before, Batch.Items(offered, keyword), t.budget, p.truncation)
  }

  lemma TruncatedGrows(before: Counters, offers: seq<Item>, o: Item, b: Limits, p: Progress)
    requires Truncated(before, offers, b, p.truncation)
    ensures var marks := Marks(After(before, offers, b), b, o);
            && Truncated(before, offers + [o], b, p.Truncate(o.author, marks).truncation)
            && (marks == {} ==> Truncated(before, offers + [o], b, p.truncation))
  {
    var marks := Marks(After(before, offers, b), b, o);
    var n := p.Truncate(o.author, marks).truncation;
    forall u ensures Get(n, u) == Marked(before, offers + [o], b, u) {
      MarkOne(before, offers, o, b, u);
    }
    if marks == {} {
      forall u ensures Get(p.truncation, u) == Marked(before, offers + [o], b, u) {
        MarkOne(before, offers, o, b, u);
      }
    }
  }

  lemma ItemsAppend(os: seq<Batch.Observation>, o: Batch.Observation, keyword: Id)
    ensures Batch.Items(os + [o], keyword) == Batch.Items(os, keyword) + [Batch.ItemOf(o, keyword)]
  {
  }

  /** Offer one observation to the tracker, or keep it when there is none. */
  method Offer(p: Progress, o: Batch.Observation, tracker: Option<ExplorationBudgetTracker>, keyword: Id,
               ghost before: Counters, ghost offered: seq<Batch.Observation>)
    returns (q: Progress, accepted: bool, stopAfter: bool)
    requires Kept(tracker, before, keyword, offered, p) && o.author != ""
    modifies if tracker.Some? then {tracker.value} else {}
    ensures Kept(tracker, before, keyword, offered + [o], q)
    ensures q == p.(observations := q.observations, truncation := q.truncation, exhaustion := q.exhaustion)
    ensures q.exhaustion == if !accepted && stopAfter then q.exhaustion else p.exhaustion
    ensures !accepted && stopAfter ==> q.exhaustion.Some?
  {
    if tracker.None? {
      return p.(observations := p.observations + [o]), true, false;
    }
    var t := tracker.value;
    ItemsAppend(offered, o, keyword);
    ItemsAppend(p.observations, o, keyword);
    OfferOne(before, Batch.Items(offered, keyword), Batch.ItemOf(o, keyword), t.budget);
    ghost var offers := Batch.Items(offered, keyword);
    var item := Batch.ItemOf(o, keyword);
    TruncatedGrows(before, offers, item, t.budget, p);
    var d := t.ConsumeObservation(item);
    accepted, stopAfter := d.accepted, d.stopAfter;
    if !d.accepted {
      q := p.Truncate(o.author, {d.reason.value});
      if d.stopAfter {
        q := q.Stop(OverBudget(d.reason.value));
      }
      return;
    }
    q := p.(observations := p.observations + [o]);
    var reached := set r <- d.reached | JobWide(r);
    if reached != {} {
      q := q.Truncate(o.author, reached);
    }
  }

  /** Perform a valid action between two looks at the address. */
  method Execute(p: Progress, b: BrowseLimits, platform: Platform, action: Action) returns (q: Progress, flow: Flow)
    requires Ok(p, b, platform) && p.exhaustion.None? && p.status.IsTimeout?
    ensures Ok(q, b, platform) && q.llmCalls == p.llmCalls
    ensures q.observations == p.observations && q.truncation == p.truncation
    ensures flow.Next? ==> q.exhaustion.None? && q.status.IsTimeout?
    ensures flow.Break? ==> q.exhaustion.Some? || q.status.IsDone?
    ensures flow.Deadline? ==> !q.status.IsDone?
  {
    q := p;
    var url: Url := *;
    if !IsSafe(platform, url, q.pages == 0) {
      return q.Unsafe(), Break;
    }
    VisitKeepsOk(q, platform, url);
    q := q.Visit(platform, url);
    if (action.Navigate? || action.Click?) && q.pages >= b.pages {
      return q.Stop(MaxPages), Break;
    }
    if * {
      return q, Raise;      // the browser failed
    }
    if * {
      return q, Deadline;   // it timed out at the deadline
    }
    if * {
      return q, Next;       // it timed out before the deadline
    }
    var after: Url := *;
    if !IsSafe(platform, after, q.pages == 0) {
      return q.Unsafe(), Break;
    }
    VisitKeepsOk(q, platform, after);
    q := q.Visit(platform, after);
    if action.Navigate? || (action.Click? && after != url) {
      q := q.(pages := q.pages + 1);
    }
    if action.Done? {
      return q.(status := IsDone), Break;
    }
    flow := Next;
  }

  /** After the model has answered: validate, offer the evidence, act, and look at the page again. */
  method Act(p: Progress, b: BrowseLimits, platform: Platform, tracker: Option<ExplorationBudgetTracker>, keyword: Id,
             ghost before: Counters, ghost offered: seq<Batch.Observation>)
    returns (q: Progress, flow: Flow, ghost offered2: seq<Batch.Observation>)
    requires Ok(p, b, platform) && p.steps < p.llmCalls && p.exhaustion.None? && p.status.IsTimeout?
    requires Kept(tracker, before, keyword, offered, p)
    modifies if tracker.Some? then {tracker.value} else {}
    ensures Kept(tracker, before, keyword, offered2, q)
    ensures Ok(q, b, platform) && q.llmCalls == p.llmCalls
    ensures flow.Next? ==> q.exhaustion.None? && q.status.IsTimeout?
    ensures flow.Break? ==> q.exhaustion.Some? || q.status.IsDone?
    ensures flow.Deadline? ==> !q.status.IsDone?
  {
    q, offered2 := p, offered;
    var action: Action := *;
    var evidence: Option<Batch.Observation> := *;
    if !IsValid(action, platform) || (action.Extract? && !(evidence.Some? && evidence.value.author != "")) {
      return q.Step(), Next, offered2;
    }
    if action.Extract? {
      var accepted, stopAfter;
      var observation := evidence.value;
      q, accepted, stopAfter := Offer(q, observation, tracker, keyword, before, offered);
      offered2 := offered + [observation];
      q := q.Step();
      if !accepted {
        flow := if stopAfter then Break else Next;
        return;
      }
      if stopAfter {
        return q.Stop(OverBudget(MaxTotal)), Break, offered2;
      }
    } else {
      q := q.Step();
    }
    q, flow := Execute(q, b, platform, action);
  }

  /** One turn of the loop, up to the model's answer. */
  method Turn(p: Progress, b: BrowseLimits, platform: Platform, tracker: Option<ExplorationBudgetTracker>, keyword: Id,
              ghost before: Counters, ghost offered: seq<Batch.Observation>)
    returns (q: Progress, flow: Flow, ghost offered2: seq<Batch.Observation>)
    requires Ok(p, b, platform) && p.exhaustion.None? && p.status.IsTimeout?
    requires Kept(tracker, before, keyword, offered, p)
    modifies if tracker.Some? then {tracker.value} else {}
    ensures Kept(tracker, before, keyword, offered2, q)
    ensures Ok(q, b, platform) && q.llmCalls <= p.llmCalls + 1
    ensures flow.Next? ==> q.exhaustion.None? && q.status.IsTimeout?
    ensures flow.Break? ==> q.exhaustion.Some? || q.status.IsDone?
    ensures flow.Deadline? ==> !q.status.IsDone?
  {
    q, offered2 := p, offered;
    if * {
      return q.Stop(MaxDuration), Break, offered2;
    }
    if q.llmCalls >= b.llmCalls {
      return q.Stop(MaxLlmCalls), Break, offered2;
    }
    var url: Url := *;
    if !IsSafe(platform, url, q.pages == 0) {
      return q.Unsafe(), Break, offered2;
    }
    VisitKeepsOk(q, platform, url);
    q := q.Visit(platform, url);
    if * {
      return q, Deadline, offered2;   // the screenshot or the page text timed out
    }
    if * {
      return q, Raise, offered2;
    }
    q := q.(llmCalls := q.llmCalls + 1);
    if * {
      return q, Deadline, offered2;   // the model timed out
    }
    if * {
      return q, Raise, offered2;      // the route failed for good
    }
    if * {
      return q.Step(), Next, offered2; // no usable answer this time
    }
    q, flow, offered2 := Act(q, b, platform, tracker, keyword, before, offered);
  }

  /** Before the loop: the page the browser is on, the start page, and whether both are safe. */
  method Begin(b: BrowseLimits, platform: Platform, start: Url, manage: bool) returns (p: Progress, flow: Flow)
    requires b.pages >= 1
    ensures Ok(p, b, platform) && p.steps == p.llmCalls == 0 && p.observations == [] && p.truncation == map[]
    ensures flow.Next? ==> p.exhaustion.None? && p.status.IsTimeout?
    ensures flow.Break? ==> p.exhaustion == Some(UnsafeUrl) && p.status.IsError?
    ensures flow.Deadline? ==> !p.status.IsDone?
  {
    p := START;
    var initial: Url := *;
    if !IsSafe(platform, initial, true) {
      return p.Unsafe(), Break;
    }
    if manage {
      if * {
        return p, Deadline;
      }
      if * {
        return p, Raise;
      }
      var initialized: Url := *;
      if !IsSafe(platform, initialized, true) {
        return p.Unsafe(), Break;
      }
    }
    var current: Url := *;
    if !start.NoUrl? {
      if !IsSafe(platform, start, false) {
        return p.Unsafe(), Break;
      }
      if * {
        return p, Deadline;
      }
      if * {
        return p, Raise;
      }
    } else if !current.Url? {
      return p, Next;
    }
    if !IsSafe(platform, current, false) {
      return p.Unsafe(), Break;
    }
    p := p.(pages := 1).Visit(platform, current);
    flow := Next;
  }

  /** `_run`; a failure is an exception that leaves the loop. */
  method Run(b: BrowseLimits, platform: Platform, start: Url, manage: bool,
             tracker: Option<ExplorationBudgetTracker>, keyword: Id)
    returns (r: Result<Progress, ()>, ghost offered: seq<Batch.Observation>)
    requires b.steps >= 1 && b.pages >= 1 && b.llmCalls >= 1
    requires tracker.Some? ==> tracker.value.Valid()
    modifies if tracker.Some? then {tracker.value} else {}
    ensures r.Success? ==>
      && r.value.steps <= r.value.llmCalls <= b.llmCalls && r.value.llmCalls <= b.steps
      && r.value.pages <= b.pages && VisitsOk(r.value, platform)
      && (r.value.exhaustion.None? <==> r.value.status.IsDone?)
    ensures r.Success? ==> forall o <- r.value.observations :: o in offered && o.author != ""
    ensures r.Success? && tracker.None? ==> r.value.observations == offered
    ensures tracker.Some? ==>
      && tracker.value.Valid()
      && tracker.value.State() == After(old(tracker.value.State()), Batch.Items(offered, keyword), tracker.value.budget)
    ensures r.Success? && tracker.Some? ==>
      && Batch.Items(r.value.observations, keyword)
           == Accepted(old(tracker.value.State()), Batch.Items(offered, keyword), tracker.value.budget)
      && Truncated(old(tracker.value.State()), Batch.Items(offered, keyword), tracker.value.budget, r.value.truncation)
  {
    ghost var before := if tracker.Some? then tracker.value.State() else EMPTY;
    offered := [];
    if * {
      return Success(START.Stop(MaxDuration)), offered;   // the browser never came up in time
    }
    if * {
      return Failure(()), offered;
    }
    var p, flow := Begin(b, platform, start, manage);
    var n := 0;
    while flow.Next? && n < b.steps
      invariant Ok(p, b, platform) && p.llmCalls <= n <= b.steps
      invariant Kept(tracker, before, keyword, offered, p)
      invariant flow.Next? ==> p.exhaustion.None? && p.status.IsTimeout?
      invariant flow.Break? ==> p.exhaustion.Some? || p.status.IsDone?
      invariant flow.Deadline? ==> !p.status.IsDone?
      decreases b.steps - n
    {
      p, flow, offered := Turn(p, b, platform, tracker, keyword, before, offered);
      n := n + 1;
    }
    if flow.Raise? {
      return Failure(()), offered;
    }
    if flow.Deadline? {
      p := p.(status := IsTimeout).Stop(MaxDuration);
    } else if p.status.IsTimeout? && p.exhaustion.None? {
      p := p.Stop(MaxSteps);
    }
    r := Success(p);
  }
}
