/** Failover along a provider chain, with other tasks moving the same circuits at every await. */
module Router {
  import opened Wrappers
  import Circuit

  type ProviderId = string
  type Circuits = map<ProviderId, Circuit.CircuitState>

  const MAX_PROVIDER_ATTEMPTS := 3

  /** What one provider call does; the reply's text is not modelled, only whether it holds a JSON object. */
  datatype ChatOutcome =
    | Reply(validJson: bool)
    | Raises(retryable: bool, category: string)
    | Interrupted                                  // cancelled, or any other BaseException
    | RouterClosed                                 // the router was closed before the provider was found

  datatype CallError = RouteError(category: string) | Propagated

  datatype Attempt =
    | Blocked(at: real)
    | Tried(at: real, lease: Circuit.Lease, outcome: ChatOutcome, settledAt: real)

  /** One step of the shared circuits; `granted` is what a claim returned. */
  datatype Entry = Entry(provider: ProviderId, event: Circuit.Event, granted: Option<Circuit.Lease>, mine: bool)

  function Get(cs: Circuits, p: ProviderId): Circuit.CircuitState {
    if p in cs then cs[p] else Circuit.NEW
  }

  function ApplyTo(cs: Circuits, x: Entry): Circuits {
    cs[x.provider := Circuit.Apply(Get(cs, x.provider), x.event)]
  }

  function Replay(cs: Circuits, log: seq<Entry>): Circuits {
    if log == [] then cs else ApplyTo(Replay(cs, log[..|log| - 1]), log[|log| - 1])
  }

  lemma {:induction false} ReplayAppend(cs: Circuits, a: seq<Entry>, b: seq<Entry>)
    ensures Replay(cs, a + b) == Replay(Replay(cs, a), b)
  {
    if b == [] {
      assert a + b == a;
    } else {
      assert (a + b)[..|a + b| - 1] == a + b[..|b| - 1];
      ReplayAppend(cs, a, b[..|b| - 1]);
    }
  }

  /** Every claim in the log got what the circuits of that moment grant. */
  ghost predicate Truthful(cs: Circuits, log: seq<Entry>) {
    forall k | 0 <= k < |log| && log[k].mine && log[k].event.Claims? ::
      log[k].granted == Circuit.Claim(Get(Replay(cs, log[..k]), log[k].provider), log[k].event.at).1
  }

  /** The entries that satisfy f, in order. */
  function Select(log: seq<Entry>, f: Entry -> bool): (r: seq<Entry>)
    ensures |r| <= |log|
  {
    if log == [] then []
    else Select(log[..|log| - 1], f) + if f(log[|log| - 1]) then [log[|log| - 1]] else []
  }

  lemma {:induction false} SelectAppend(a: seq<Entry>, b: seq<Entry>, f: Entry -> bool)
    ensures Select(a + b, f) == Select(a, f) + Select(b, f)
  {
    if b == [] {
      assert a + b == a;
    } else {
      assert (a + b)[..|a + b| - 1] == a + b[..|b| - 1];
      SelectAppend(a, b[..|b| - 1], f);
    }
  }

  /** A selected entry stands where the selection of what precedes it ends. */
  lemma SelectAt(log: seq<Entry>, f: Entry -> bool, j: nat)
    requires j < |log|
    ensures var k := |Select(log[..j], f)|;
            && k <= |Select(log, f)| && Select(log, f)[..k] == Select(log[..j], f)
            && (f(log[j]) ==> k < |Select(log, f)| && Select(log, f)[k] == log[j])
  {
    assert log == log[..j] + log[j..] && log[j..] == [log[j]] + log[j + 1..];
    SelectAppend(log[..j], log[j..], f);
    SelectAppend([log[j]], log[j + 1..], f);
    assert [log[j]][..0] == [];
  }

  lemma SelectMonotone(log: seq<Entry>, f: Entry -> bool, i: nat, j: nat)
    requires i <= j <= |log|
    ensures |Select(log[..i], f)| <= |Select(log[..j], f)|
  {
    assert log[..j] == log[..i] + log[i..j];
    SelectAppend(log[..i], log[i..j], f);
  }

  lemma {:induction false} SelectFind(log: seq<Entry>, f: Entry -> bool, k: nat) returns (j: nat)
    requires k < |Select(log, f)|
    ensures j < |log| && f(log[j]) && |Select(log[..j], f)| == k && log[j] == Select(log, f)[k]
  {
    var n := |log| - 1;
    if k < |Select(log[..n], f)| {
      j := SelectFind(log[..n], f, k);
      assert log[..n][..j] == log[..j];
    } else {
      j := n;
    }
  }

  const MINE := (x: Entry) => x.mine

  function Own(log: seq<Entry>): seq<Entry> {
    Select(log, MINE)
  }

  /** How each exit settles its lease; only the router-closed exit leaves it unsettled. */
  function Settlement(outcome: ChatOutcome, parseJson: bool): Option<Circuit.Outcome> {
    match outcome
    case Reply(valid) => Some(if parseJson && !valid then Circuit.Failed(false) else Circuit.Succeeded)
    case Raises(retryable, _) => Some(Circuit.Failed(retryable))
    case Interrupted => Some(Circuit.Aborted)
    case RouterClosed => None
  }

  /** The circuit steps one attempt owes. */
  function Owed(p: ProviderId, a: Attempt, parseJson: bool): seq<Entry> {
    match a
    case Blocked(at) => [Entry(p, Circuit.Claims(at), None, true)]
    case Tried(at, lease, outcome, settledAt) =>
      [Entry(p, Circuit.Claims(at), Some(lease), true)] +
      match Settlement(outcome, parseJson)
      case None => []
      case Some(how) => [Entry(p, Circuit.Settles(lease, how, settledAt), None, true)]
  }

  function Journal(chain: seq<ProviderId>, attempts: seq<Attempt>, parseJson: bool): seq<Entry>
    requires |attempts| <= |chain|
  {
    if attempts == [] then []
    else
      var n := |attempts| - 1;
      Journal(chain, attempts[..n], parseJson) + Owed(chain[n], attempts[n], parseJson)
  }

  function TriedCount(attempts: seq<Attempt>): nat {
    if attempts == [] then 0
    else TriedCount(attempts[..|attempts| - 1]) + if attempts[|attempts| - 1].Tried? then 1 else 0
  }

  /** The call goes on to the next provider. */
  predicate Passed(a: Attempt) {
    a.Blocked? || (a.outcome.Raises? && a.outcome.retryable)
  }

  predicate Delivers(a: Attempt, parseJson: bool) {
    a.Tried? && a.outcome.Reply? && (parseJson ==> a.outcome.validJson)
  }

  function LastCategory(attempts: seq<Attempt>): string {
    if attempts == [] then "all_providers_failed"
    else
      var a := attempts[|attempts| - 1];
      if a.Tried? && a.outcome.Raises? then a.outcome.category else LastCategory(attempts[..|attempts| - 1])
  }

  lemma AttemptsGrow(chain: seq<ProviderId>, attempts: seq<Attempt>, a: Attempt, parseJson: bool)
    requires |attempts| < |chain|
    ensures Journal(chain, attempts + [a], parseJson) ==
            Journal(chain, attempts, parseJson) + Owed(chain[|attempts|], a, parseJson)
    ensures TriedCount(attempts + [a]) == TriedCount(attempts) + if a.Tried? then 1 else 0
    ensures LastCategory(attempts + [a]) ==
            if a.Tried? && a.outcome.Raises? then a.outcome.category else LastCategory(attempts)
  {
    assert (attempts + [a])[..|attempts|] == attempts;
  }

  function ErrorOf(outcome: ChatOutcome): CallError {
    match outcome
    case Reply(_) => RouteError("invalid_json")
    case Raises(_, category) => RouteError(category)
    case Interrupted => Propagated
    case RouterClosed => RouteError("router_closed")
  }

  /** What a finished call says about its attempts. */
  ghost predicate Verdict(chain: seq<ProviderId>, attempts: seq<Attempt>, parseJson: bool, r: Result<nat, CallError>) {
    && |attempts| <= |chain|
    && TriedCount(attempts) <= MAX_PROVIDER_ATTEMPTS
    && (forall i | 0 <= i < |attempts| - 1 :: Passed(attempts[i]))
    && match r
       case Success(i) => i == |attempts| - 1 && Delivers(attempts[i], parseJson)
       case Failure(e) =>
         if chain == [] then
           e == RouteError("configuration")
         else if attempts != [] && !Passed(attempts[|attempts| - 1]) then
           !Delivers(attempts[|attempts| - 1], parseJson) && e == ErrorOf(attempts[|attempts| - 1].outcome)
         else
           && (|attempts| == |chain| || TriedCount(attempts) == MAX_PROVIDER_ATTEMPTS)
           && e == RouteError(LastCategory(attempts))
  }

  /** The log explains the circuits, and `own` is this call's part of it. */
  ghost predicate LogOk(start: Circuits, now: Circuits, log: seq<Entry>, own: seq<Entry>) {
    now == Replay(start, log) && Truthful(start, log) && Own(log) == own
  }

  lemma {:induction false} OthersOwnNothing(steps: seq<Entry>)
    requires forall k | 0 <= k < |steps| :: !steps[k].mine
    ensures Own(steps) == []
  {
    if steps != [] {
      OthersOwnNothing(steps[..|steps| - 1]);
    }
  }

  lemma LogOthers(start: Circuits, cs: Circuits, log: seq<Entry>, own: seq<Entry>, steps: seq<Entry>)
    requires LogOk(start, cs, log, own) && forall k | 0 <= k < |steps| :: !steps[k].mine
    ensures LogOk(start, Replay(cs, steps), log + steps, own)
  {
    ReplayAppend(start, log, steps);
    SelectAppend(log, steps, MINE);
    OthersOwnNothing(steps);
    assert forall k | 0 <= k < |log| :: (log + steps)[..k] == log[..k];
  }

  lemma LogMine(start: Circuits, cs: Circuits, log: seq<Entry>, own: seq<Entry>, x: Entry)
    requires LogOk(start, cs, log, own) && x.mine
    requires x.event.Claims? ==> x.granted == Circuit.Claim(Get(cs, x.provider), x.event.at).1
    ensures LogOk(start, ApplyTo(cs, x), log + [x], own + [x])
  {
    assert (log + [x])[..|log|] == log;
    assert forall k | 0 <= k < |log| :: (log + [x])[..k] == log[..k];
  }

  /** Claims granted to one provider in a journal. */
  function Grants(own: seq<Entry>, p: ProviderId): nat {
    if own == [] then 0
    else
      var x := own[|own| - 1];
      Grants(own[..|own| - 1], p) + if x.provider == p && x.event.Claims? && x.granted.Some? then 1 else 0
  }

  function Settlements(own: seq<Entry>, p: ProviderId): nat {
    if own == [] then 0
    else
      var x := own[|own| - 1];
      Settlements(own[..|own| - 1], p) + if x.provider == p && x.event.Settles? then 1 else 0
  }

  lemma {:induction false} CountsAppend(a: seq<Entry>, b: seq<Entry>, p: ProviderId)
    ensures Grants(a + b, p) == Grants(a, p) + Grants(b, p)
    ensures Settlements(a + b, p) == Settlements(a, p) + Settlements(b, p)
  {
    if b == [] {
      assert a + b == a;
    } else {
      assert (a + b)[..|a + b| - 1] == a + b[..|b| - 1];
      CountsAppend(a, b[..|b| - 1], p);
    }
  }

  ghost predicate Distinct(chain: seq<ProviderId>) {
    forall i, j | 0 <= i < j < |chain| :: chain[i] != chain[j]
  }

  ghost predicate TriedAt(attempts: seq<Attempt>, chain: seq<ProviderId>, i: int, p: ProviderId) {
    0 <= i < |attempts| && i < |chain| && attempts[i].Tried? && chain[i] == p
  }

  lemma OwedCounts(q: ProviderId, a: Attempt, parseJson: bool, p: ProviderId)
    ensures var owed := Owed(q, a, parseJson);
            && Grants(owed, p) == (if a.Tried? && q == p then 1 else 0)
            && Settlements(owed, p) == if a.Tried? && q == p && !a.outcome.RouterClosed? then 1 else 0
  {
    var owed := Owed(q, a, parseJson);
    var claim := owed[..1];
    assert claim[..0] == [];
    assert Grants(claim, p) == (if a.Tried? && q == p then 1 else 0) && Settlements(claim, p) == 0;
    if |owed| == 2 {
      assert owed[..|owed| - 1] == claim;
    } else {
      assert owed == claim;
    }
  }

  lemma JournalGrows(chain: seq<ProviderId>, attempts: seq<Attempt>, parseJson: bool, p: ProviderId)
    requires attempts != [] && |attempts| <= |chain|
    ensures var n := |attempts| - 1;
            var (before, own) := (Journal(chain, attempts[..n], parseJson), Journal(chain, attempts, parseJson));
            && Grants(own, p) == Grants(before, p) + (if TriedAt(attempts, chain, n, p) then 1 else 0)
            && Settlements(own, p) == Settlements(before, p)
                 + if TriedAt(attempts, chain, n, p) && !attempts[n].outcome.RouterClosed? then 1 else 0
  {
    var n := |attempts| - 1;
    CountsAppend(Journal(chain, attempts[..n], parseJson), Owed(chain[n], attempts[n], parseJson), p);
    OwedCounts(chain[n], attempts[n], parseJson, p);
  }

  lemma {:induction false} UnusedCounts(chain: seq<ProviderId>, attempts: seq<Attempt>, parseJson: bool, p: ProviderId)
    requires |attempts| <= |chain| && forall i :: !TriedAt(attempts, chain, i, p)
    ensures var own := Journal(chain, attempts, parseJson); Grants(own, p) == Settlements(own, p) == 0
  {
    if attempts != [] {
      var n := |attempts| - 1;
      forall i ensures !TriedAt(attempts[..n], chain, i, p) {
        assert !TriedAt(attempts, chain, i, p);
      }
      UnusedCounts(chain, attempts[..n], parseJson, p);
      JournalGrows(chain, attempts, parseJson, p);
    }
  }

  /** Per provider: one grant for the attempt that used it, and one settlement unless the router was closed. */
  lemma {:induction false} JournalCounts(chain: seq<ProviderId>, attempts: seq<Attempt>, parseJson: bool,
                                         p: ProviderId, i: nat)
    requires |attempts| <= |chain| && Distinct(chain) && TriedAt(attempts, chain, i, p)
    ensures var own := Journal(chain, attempts, parseJson);
            Grants(own, p) == 1 && Settlements(own, p) == if attempts[i].outcome.RouterClosed? then 0 else 1
  {
    var n := |attempts| - 1;
    JournalGrows(chain, attempts, parseJson, p);
    if i == n {
      forall j ensures !TriedAt(attempts[..n], chain, j, p) {
        assert 0 <= j < n ==> chain[j] != chain[n];
      }
      UnusedCounts(chain, attempts[..n], parseJson, p);
    } else {
      assert chain[i] != chain[n] && TriedAt(attempts[..n], chain, i, p);
      JournalCounts(chain, attempts[..n], parseJson, p, i);
    }
  }

  /** One use at most, settled exactly once, except by the last attempt of a call that found the router closed. */
  ghost predicate SettledOnce(chain: seq<ProviderId>, attempts: seq<Attempt>, parseJson: bool,
                              r: Result<nat, CallError>, p: ProviderId)
    requires |attempts| <= |chain|
  {
    var own := Journal(chain, attempts, parseJson);
    && Grants(own, p) <= 1
    && (Settlements(own, p) != Grants(own, p) <==>
        r == Failure(RouteError("router_closed")) && attempts != []
        && attempts[|attempts| - 1].Tried? && attempts[|attempts| - 1].outcome.RouterClosed?
        && chain[|attempts| - 1] == p)
  }

  /** For every finished call over a chain of distinct providers. */
  lemma EveryLeaseIsSettledOnce(chain: seq<ProviderId>, attempts: seq<Attempt>, parseJson: bool,
                                r: Result<nat, CallError>, p: ProviderId)
    requires Distinct(chain) && Verdict(chain, attempts, parseJson, r)
    ensures SettledOnce(chain, attempts, parseJson, r, p)
  {
    if i :| TriedAt(attempts, chain, i, p) {
      JournalCounts(chain, attempts, parseJson, p, i);
      assert i < |attempts| - 1 ==> Passed(attempts[i]);
    } else {
      UnusedCounts(chain, attempts, parseJson, p);
      assert attempts != [] ==> !TriedAt(attempts, chain, |attempts| - 1, p);
    }
  }

  /** A call that finds the router closed inside its attempt leaves its granted lease unsettled. */
  lemma ClosedRouterLeavesALease() returns (chain: seq<ProviderId>, attempts: seq<Attempt>, r: Result<nat, CallError>)
    ensures Distinct(chain) && Verdict(chain, attempts, false, r) && |chain| == 1
    ensures Grants(Journal(chain, attempts, false), chain[0]) == 1
    ensures Settlements(Journal(chain, attempts, false), chain[0]) == 0
  {
    chain, attempts := ["a"], [Tried(0.0, Circuit.Lease(0, false), RouterClosed, 0.0)];
    r := Failure(RouteError("router_closed"));
    assert TriedAt(attempts, chain, 0, "a");
    JournalCounts(chain, attempts, false, "a", 0);
  }

  /** The provider ids of a stored chain, each kept at its first position. */
  function FirstUses(entries: seq<ProviderId>): seq<ProviderId> {
    if entries == [] then []
    else
      var n := |entries| - 1;
      var front := FirstUses(entries[..n]);
      if entries[n] in front then front else front + [entries[n]]
  }

  lemma {:induction false} FirstUsesAreDistinct(entries: seq<ProviderId>)
    ensures Distinct(FirstUses(entries))
    ensures forall p :: p in FirstUses(entries) <==> p in entries
  {
    if entries != [] {
      FirstUsesAreDistinct(entries[..|entries| - 1]);
      assert entries == entries[..|entries| - 1] + [entries[|entries| - 1]];
    }
  }

  method RouteSnapshot(entries: seq<ProviderId>) returns (attempts: seq<ProviderId>)
    ensures attempts == FirstUses(entries)
  {
    attempts := [];
    var seen := {};
    for k := 0 to |entries|
      invariant attempts == FirstUses(entries[..k])
      invariant forall p :: p in seen <==> p in attempts
    {
      assert entries[..k + 1][..k] == entries[..k];
      if entries[k] in seen {
        continue;
      }
      seen := seen + {entries[k]};
      attempts := attempts + [entries[k]];
    }
    assert entries[..|entries|] == entries;
  }

  function On(p: ProviderId): Entry -> bool {
    (x: Entry) => x.provider == p
  }

  /** One provider's events in the log. */
  function Project(log: seq<Entry>, p: ProviderId): seq<Circuit.Event> {
    var own := Select(log, On(p));
    seq(|own|, i requires 0 <= i < |own| => own[i].event)
  }

  /** The shared map is one independent breaker per provider, so each breaker's log theorems apply. */
  lemma {:induction false} EachProviderHasItsOwnBreaker(log: seq<Entry>, p: ProviderId)
    ensures Get(Replay(map[], log), p) == Circuit.After(Project(log, p))
  {
    if log != [] {
      var n := |log| - 1;
      EachProviderHasItsOwnBreaker(log[..n], p);
      if log[n].provider == p {
        Circuit.Extend(Project(log[..n], p), log[n].event);
        assert Project(log, p) == Project(log[..n], p) + [log[n].event];
      } else {
        assert Project(log, p) == Project(log[..n], p);
      }
    }
  }

  // ----- a provider's part of the log is a run of its breaker -----

  /** What the claim at position i of the log was granted. */
  function Granted(log: seq<Entry>, i: nat): Option<Circuit.Lease>
    requires i < |log|
  {
    if log[i].event.Claims? then
      Circuit.Claim(Get(Replay(map[], log[..i]), log[i].provider), log[i].event.at).1
    else None
  }

  /** The settlement at j gives back a lease that an earlier claim on the same provider was granted. */
  ghost predicate Earned(log: seq<Entry>, j: nat)
    requires j < |log| && log[j].event.Settles?
  {
    exists i :: 0 <= i < j && log[i].provider == log[j].provider && Granted(log, i) == Some(log[j].event.lease)
  }

  /** The clock never runs backwards, and other tasks settle only what they were granted. */
  ghost predicate OthersBehave(log: seq<Entry>) {
    && (forall i, j | 0 <= i < j < |log| :: log[i].event.at <= log[j].event.at)
    && (forall j | 0 <= j < |log| && !log[j].mine && log[j].event.Settles? :: Earned(log, j))
  }

  /** Position i of the log is position |Project(log[..i], p)| of its provider's events. */
  lemma ProjectAt(log: seq<Entry>, p: ProviderId, i: nat)
    requires i < |log| && log[i].provider == p
    ensures var k, es := |Project(log[..i], p)|, Project(log, p);
            k < |es| && es[k] == log[i].event && Circuit.Issued(es, k) == Granted(log, i)
  {
    SelectAt(log, On(p), i);
    EachProviderHasItsOwnBreaker(log[..i], p);
    assert Project(log, p)[..|Project(log[..i], p)|] == Project(log[..i], p);
  }

  /** In a journal every settlement directly follows the claim that was granted its lease. */
  lemma {:induction false} JournalSettlesItsClaims(chain: seq<ProviderId>, attempts: seq<Attempt>, parseJson: bool,
                                                   k: nat)
    requires |attempts| <= |chain|
    requires var own := Journal(chain, attempts, parseJson); k < |own| && own[k].event.Settles?
    ensures var own := Journal(chain, attempts, parseJson);
            && k > 0 && own[k - 1].event.Claims? && own[k - 1].provider == own[k].provider
            && own[k - 1].granted == Some(own[k].event.lease)
  {
    var n := |attempts| - 1;
    if k < |Journal(chain, attempts[..n], parseJson)| {
      JournalSettlesItsClaims(chain, attempts[..n], parseJson, k);
    }
  }

  /** This call's own settlements are earned: the router settles nothing it was not granted. */
  lemma OwnSettlementsAreEarned(now: Circuits, log: seq<Entry>, chain: seq<ProviderId>, attempts: seq<Attempt>,
                                parseJson: bool, j: nat)
    requires |attempts| <= |chain| && LogOk(map[], now, log, Journal(chain, attempts, parseJson))
    requires j < |log| && log[j].mine && log[j].event.Settles?
    ensures Earned(log, j)
  {
    SelectAt(log, MINE, j);
    var k := |Own(log[..j])|;
    JournalSettlesItsClaims(chain, attempts, parseJson, k);
    var i := SelectFind(log, MINE, k - 1);
    if i >= j {
      SelectMonotone(log, MINE, j, i);
      assert false;
    }
    assert log[i].mine && Granted(log, i) == Some(log[j].event.lease);
  }

  lemma EarlierPosition(log: seq<Entry>, p: ProviderId, i: nat, j: nat)
    requires i < j < |log| && log[i].provider == p && log[j].provider == p
    ensures var a, b, es := |Project(log[..i], p)|, |Project(log[..j], p)|, Project(log, p);
            a < b < |es| && Circuit.Issued(es, a) == Granted(log, i) && Circuit.Issued(es, b) == Granted(log, j)
            && es[a] == log[i].event && es[b] == log[j].event
  {
    ProjectAt(log, p, i);
    ProjectAt(log, p, j);
    SelectAt(log[..j], On(p), i);
    assert log[..j][..i] == log[..i];
  }

  /**
   * If the other tasks behave, every provider's part of the log is a run its breaker's theorems speak
   * of: the router itself never breaks the discipline.
   */
  lemma ProviderLogIsValid(now: Circuits, log: seq<Entry>, chain: seq<ProviderId>, attempts: seq<Attempt>,
                           parseJson: bool, p: ProviderId)
    requires |attempts| <= |chain| && LogOk(map[], now, log, Journal(chain, attempts, parseJson))
    requires OthersBehave(log)
    ensures Circuit.Valid(Project(log, p)) && Get(now, p) == Circuit.After(Project(log, p))
  {
    EachProviderHasItsOwnBreaker(log, p);
    var es := Project(log, p);
    forall a, b | 0 <= a < b < |es| ensures es[a].at <= es[b].at {
      var i := SelectFind(log, On(p), a);
      var j := SelectFind(log, On(p), b);
      if i >= j {
        SelectMonotone(log, On(p), j, i);
        assert false;
      }
    }
    forall b | 0 <= b < |es| && es[b].Settles?
      ensures exists a :: 0 <= a < b && Circuit.Issued(es, a) == Some(es[b].lease)
    {
      var j := SelectFind(log, On(p), b);
      if log[j].mine {
        OwnSettlementsAreEarned(now, log, chain, attempts, parseJson, j);
      }
      var i :| 0 <= i < j && log[i].provider == p && Granted(log, i) == Some(log[j].event.lease);
      EarlierPosition(log, p, i, j);
    }
  }

  /** Whatever runs in between, a provider is probed at most once a minute. */
  lemma ProbesOfAProviderAreAMinuteApart(now: Circuits, log: seq<Entry>, chain: seq<ProviderId>,
                                         attempts: seq<Attempt>, parseJson: bool, i: nat, j: nat)
    requires |attempts| <= |chain| && LogOk(map[], now, log, Journal(chain, attempts, parseJson))
    requires OthersBehave(log) && i < j < |log| && log[i].provider == log[j].provider
    requires Granted(log, i).Some? && Granted(log, i).value.halfOpen
    requires Granted(log, j).Some? && Granted(log, j).value.halfOpen
    ensures log[j].event.at - log[i].event.at >= Circuit.COOLDOWN_SECONDS
  {
    var p := log[i].provider;
    ProviderLogIsValid(now, log, chain, attempts, parseJson, p);
    EarlierPosition(log, p, i, j);
    Circuit.ProbesAreACooldownApart(Project(log, p), |Project(log[..i], p)|, |Project(log[..j], p)|);
  }

  lemma TruthfulLater(start: Circuits, mid: Circuits, steps: seq<Entry>, log: seq<Entry>)
    requires mid == Replay(start, steps) && Truthful(mid, log)
    requires forall k | 0 <= k < |steps| :: !steps[k].mine
    ensures Truthful(start, steps + log)
  {
    var all := steps + log;
    forall k | 0 <= k < |all| && all[k].mine && all[k].event.Claims?
      ensures all[k].granted == Circuit.Claim(Get(Replay(start, all[..k]), all[k].provider), all[k].event.at).1
    {
      var i := k - |steps|;
      assert all[k] == log[i];
      assert all[..k] == steps + log[..i];
      ReplayAppend(start, steps, log[..i]);
    }
  }

  /** Steps of other tasks before the call belong to its log. */
  lemma LogEarlier(start: Circuits, mid: Circuits, now: Circuits, steps: seq<Entry>, log: seq<Entry>, own: seq<Entry>)
    requires mid == Replay(start, steps) && forall k | 0 <= k < |steps| :: !steps[k].mine
    requires LogOk(mid, now, log, own)
    ensures LogOk(start, now, steps + log, own)
  {
    ReplayAppend(start, steps, log);
    SelectAppend(steps, log, MINE);
    OthersOwnNothing(steps);
    TruthfulLater(start, mid, steps, log);
  }

  /** The providers a call walks through. */
  function Chain(closed: bool, stored: Option<seq<ProviderId>>): seq<ProviderId> {
    if closed || stored.None? then [] else FirstUses(stored.value)
  }

  lemma SettledForAll(closed: bool, chain: seq<ProviderId>, attempts: seq<Attempt>, parseJson: bool,
                      r: Result<nat, CallError>)
    requires |attempts| <= |chain| && Distinct(chain)
    requires if closed then attempts == [] else Verdict(chain, attempts, parseJson, r)
    ensures forall p :: SettledOnce(chain, attempts, parseJson, r, p)
  {
    forall p ensures SettledOnce(chain, attempts, parseJson, r, p) {
      if !closed {
        EveryLeaseIsSettledOnce(chain, attempts, parseJson, r, p);
      }
    }
  }

  // ----- the router -----

  datatype World = World(chat: nat -> ChatOutcome, clock: nat -> real, others: nat -> seq<Entry>)

  /** The steps of other tasks, as they stand in the log. */
  function Foreign(others: seq<Entry>): (r: seq<Entry>)
    ensures |r| == |others| && forall k | 0 <= k < |r| :: !r[k].mine
  {
    seq(|others|, k requires 0 <= k < |others| => others[k].(mine := false))
  }

  /** Attempt i reports the reply and the clock readings of its own turn. */
  predicate Follows(a: Attempt, i: nat, world: World) {
    && a.at == world.clock(2 * i)
    && (a.Tried? ==> a.outcome == world.chat(i) && a.settledAt == world.clock(2 * i + 1))
  }

  /** Everything that happened to the circuits during attempt i. */
  function Turn(p: ProviderId, a: Attempt, i: nat, parseJson: bool, world: World): seq<Entry> {
    match a
    case Blocked(_) => Foreign(world.others(2 * i)) + Owed(p, a, parseJson)
    case Tried(_, _, _, _) =>
      var owed := Owed(p, a, parseJson);
      Foreign(world.others(2 * i)) + owed[..1] + Foreign(world.others(2 * i + 1)) + owed[1..]
  }

  function Chronicle(chain: seq<ProviderId>, attempts: seq<Attempt>, parseJson: bool, world: World): seq<Entry>
    requires |attempts| <= |chain|
  {
    if attempts == [] then []
    else
      var n := |attempts| - 1;
      Chronicle(chain, attempts[..n], parseJson, world) + Turn(chain[n], attempts[n], n, parseJson, world)
  }

  /** The attempts report the world they met, and the log holds everything that happened, in order. */
  ghost predicate Recorded(chain: seq<ProviderId>, attempts: seq<Attempt>, parseJson: bool, world: World,
                           log: seq<Entry>)
    requires |attempts| <= |chain|
  {
    && (forall i | 0 <= i < |attempts| :: Follows(attempts[i], i, world))
    && log == Chronicle(chain, attempts, parseJson, world)
  }

  lemma RecordGrows(chain: seq<ProviderId>, attempts: seq<Attempt>, a: Attempt, parseJson: bool, world: World,
                    log: seq<Entry>)
    requires |attempts| < |chain| && Recorded(chain, attempts, parseJson, world, log)
    requires Follows(a, |attempts|, world)
    ensures Recorded(chain, attempts + [a], parseJson, world,
                     log + Turn(chain[|attempts|], a, |attempts|, parseJson, world))
  {
    var more := attempts + [a];
    assert more[..|attempts|] == attempts;
    forall i | 0 <= i < |more| ensures Follows(more[i], i, world) {
      assert i < |attempts| ==> more[i] == attempts[i];
    }
  }

  class LLMRouter {
    var circuits: Circuits

    constructor ()
      ensures circuits == map[]
    {
      circuits := map[];
    }

    method ClaimCircuit(p: ProviderId, now: real) returns (lease: Option<Circuit.Lease>)
      modifies this
      ensures lease == Circuit.Claim(Get(old(circuits), p), now).1
      ensures circuits == ApplyTo(old(circuits), Entry(p, Circuit.Claims(now), lease, true))
    {
      var circuit := Get(circuits, p);
      circuits := circuits[p := circuit];
      if circuit.status == Circuit.Closed {
        return Some(Circuit.Lease(circuit.generation, false));
      }
      if circuit.status == Circuit.Open {
        if now - circuit.openedAt < Circuit.COOLDOWN_SECONDS {
          return None;
        }
        circuit := circuit.(status := Circuit.HalfOpen);
      }
      if circuit.probeInFlight {
        circuits := circuits[p := circuit];
        return None;
      }
      circuit := circuit.(probeInFlight := true);
      circuits := circuits[p := circuit];
      return Some(Circuit.Lease(circuit.generation, true));
    }

    method ProviderSucceeded(p: ProviderId, lease: Circuit.Lease, now: real)
      modifies this
      ensures circuits == ApplyTo(old(circuits), Entry(p, Circuit.Settles(lease, Circuit.Succeeded, now), None, true))
    {
      var circuit := Get(circuits, p);
      circuits := circuits[p := circuit];
      if lease.generation != circuit.generation {
        return;
      }
      if lease.halfOpen {
        if circuit.status != Circuit.HalfOpen || !circuit.probeInFlight {
          return;
        }
        circuit := circuit.(generation := circuit.generation + 1);
      }
      circuit := circuit.(status := Circuit.Closed, failures := 0, openedAt := 0.0, probeInFlight := false);
      circuits := circuits[p := circuit];
    }

    method ProviderFailed(p: ProviderId, lease: Circuit.Lease, retryable: bool, now: real)
      modifies this
      ensures circuits ==
              ApplyTo(old(circuits), Entry(p, Circuit.Settles(lease, Circuit.Failed(retryable), now), None, true))
    {
      var circuit := Get(circuits, p);
      circuits := circuits[p := circuit];
      if lease.generation != circuit.generation {
        return;
      }
      if lease.halfOpen {
        if circuit.status != Circuit.HalfOpen || !circuit.probeInFlight {
          return;
        }
        circuit := circuit.(generation := circuit.generation + 1, status := Circuit.Open,
                            failures := Circuit.FAILURE_THRESHOLD, openedAt := now, probeInFlight := false);
        circuits := circuits[p := circuit];
        return;
      }
      if !retryable {
        circuit := circuit.(status := Circuit.Closed, failures := 0, openedAt := 0.0, probeInFlight := false);
        circuits := circuits[p := circuit];
        return;
      }
      circuit := circuit.(failures := circuit.failures + 1);
      if circuit.failures >= Circuit.FAILURE_THRESHOLD {
        circuit := circuit.(generation := circuit.generation + 1, status := Circuit.Open, openedAt := now);
      }
      circuits := circuits[p := circuit.(probeInFlight := false)];
    }

    method ProviderAborted(p: ProviderId, lease: Circuit.Lease, now: real)
      modifies this
      ensures circuits == ApplyTo(old(circuits), Entry(p, Circuit.Settles(lease, Circuit.Aborted, now), None, true))
    {
      var circuit := Get(circuits, p);
      circuits := circuits[p := circuit];
      if lease.generation != circuit.generation {
        return;
      }
      if lease.halfOpen && circuit.status == Circuit.HalfOpen && circuit.probeInFlight {
        circuit := circuit.(generation := circuit.generation + 1, status := Circuit.Open,
                            failures := Circuit.FAILURE_THRESHOLD, openedAt := now, probeInFlight := false);
        circuits := circuits[p := circuit];
      }
    }

    /** A suspension point: other tasks run, and each of their circuit steps is applied in turn. */
    method Suspend(others: seq<Entry>) returns (steps: seq<Entry>)
      modifies this
      ensures circuits == Replay(old(circuits), steps)
      ensures steps == Foreign(others)
    {
      steps := [];
      for k := 0 to |others|
        invariant circuits == Replay(old(circuits), steps)
        invariant |steps| == k && forall i | 0 <= i < k :: steps[i] == others[i].(mine := false)
      {
        var x := others[k].(mine := false);
        circuits := ApplyTo(circuits, x);
        steps := steps + [x];
        assert steps[..k] + [x] == steps;
        assert steps[..|steps| - 1] == steps[..k];
      }
    }

    /** The settlement step of each exit of an attempt. */
    method Settle(p: ProviderId, lease: Circuit.Lease, outcome: ChatOutcome, parseJson: bool, at: real)
      returns (step: Option<Entry>)
      modifies this
      ensures match Settlement(outcome, parseJson)
              case None => step.None? && circuits == old(circuits)
              case Some(how) =>
                && step == Some(Entry(p, Circuit.Settles(lease, how, at), None, true))
                && circuits == ApplyTo(old(circuits), step.value)
    {
      match outcome {
        case Reply(valid) =>
          if parseJson && !valid {
            ProviderFailed(p, lease, false, at);
          } else {
            ProviderSucceeded(p, lease, at);
          }
        case Raises(retryable, _) => ProviderFailed(p, lease, retryable, at);
        case Interrupted => ProviderAborted(p, lease, at);
        case RouterClosed =>
      }
      var how := Settlement(outcome, parseJson);
      step := if how.None? then None else Some(Entry(p, Circuit.Settles(lease, how.value, at), None, true));
    }

    /** The first half of an attempt: others run, then the circuit is claimed. */
    method ClaimTurn(p: ProviderId, i: nat, world: World, ghost start: Circuits, log: seq<Entry>, ghost own: seq<Entry>)
      returns (lease: Option<Circuit.Lease>, grown: seq<Entry>)
      requires LogOk(start, circuits, log, own)
      modifies this
      ensures var claim := Entry(p, Circuit.Claims(world.clock(2 * i)), lease, true);
              && grown == log + Foreign(world.others(2 * i)) + [claim]
              && LogOk(start, circuits, grown, own + [claim])
    {
      ghost var cs := circuits;
      var steps := Suspend(world.others(2 * i));
      LogOthers(start, cs, log, own, steps);
      cs := circuits;
      var now := world.clock(2 * i);
      lease := ClaimCircuit(p, now);
      var claim := Entry(p, Circuit.Claims(now), lease, true);
      LogMine(start, cs, log + steps, own, claim);
      grown := log + steps + [claim];
    }

    /** The second half: others run while the provider is called, then the lease is settled, or not. */
    method SettleTurn(p: ProviderId, i: nat, lease: Circuit.Lease, parseJson: bool, world: World,
                      ghost start: Circuits, log: seq<Entry>, ghost own: seq<Entry>)
      returns (attempt: Attempt, grown: seq<Entry>)
      requires LogOk(start, circuits, log, own)
      modifies this
      ensures attempt == Tried(world.clock(2 * i), lease, world.chat(i), world.clock(2 * i + 1))
      ensures grown == log + Foreign(world.others(2 * i + 1)) + Owed(p, attempt, parseJson)[1..]
      ensures LogOk(start, circuits, grown, own + Owed(p, attempt, parseJson)[1..])
    {
      ghost var cs := circuits;
      var steps := Suspend(world.others(2 * i + 1));
      LogOthers(start, cs, log, own, steps);
      grown := log + steps;
      cs := circuits;
      var outcome, at := world.chat(i), world.clock(2 * i + 1);
      attempt := Tried(world.clock(2 * i), lease, outcome, at);
      var settled := Settle(p, lease, outcome, parseJson, at);
      if settled.Some? {
        LogMine(start, cs, grown, own, settled.value);
        grown := grown + [settled.value];
        assert Owed(p, attempt, parseJson)[1..] == [settled.value];
      } else {
        assert Owed(p, attempt, parseJson)[1..] == [];
        assert own + [] == own && grown + [] == grown;
      }
    }

    /** One provider: claim, call, settle. `log` grows by what this attempt owes and what others did. */
    method TryProvider(p: ProviderId, i: nat, parseJson: bool, world: World, ghost start: Circuits,
                       log: seq<Entry>, ghost own: seq<Entry>)
      returns (attempt: Attempt, grown: seq<Entry>)
      requires LogOk(start, circuits, log, own)
      modifies this
      ensures LogOk(start, circuits, grown, own + Owed(p, attempt, parseJson))
      ensures Follows(attempt, i, world)
      ensures grown == log + Turn(p, attempt, i, parseJson, world)
    {
      var lease;
      lease, grown := ClaimTurn(p, i, world, start, log, own);
      ghost var before, claim := grown, Entry(p, Circuit.Claims(world.clock(2 * i)), lease, true);
      if lease.None? {
        attempt := Blocked(world.clock(2 * i));
        assert grown == log + Turn(p, attempt, i, parseJson, world);
        return;
      }
      attempt, grown := SettleTurn(p, i, lease.value, parseJson, world, start, grown, own + [claim]);
      ghost var owed := Owed(p, attempt, parseJson);
      assert owed[..1] == [claim] && owed == owed[..1] + owed[1..];
      assert own + [claim] + owed[1..] == own + owed;
      assert grown == log + Turn(p, attempt, i, parseJson, world);
    }

    /** Whether an attempt ends the call, and with what. */
    method Conclude(attempt: Attempt, i: nat, parseJson: bool) returns (end: Option<Result<nat, CallError>>)
      requires attempt.Tried?
      ensures end.None? <==> Passed(attempt)
      ensures end.Some? ==>
        end.value == if Delivers(attempt, parseJson) then Success(i) else Failure(ErrorOf(attempt.outcome))
    {
      match attempt.outcome {
        case Reply(valid) =>
          if parseJson && !valid {
            return Some(Failure(RouteError("invalid_json")));
          }
          return Some(Success(i));
        case Interrupted =>
          return Some(Failure(Propagated));
        case RouterClosed =>
          return Some(Failure(RouteError("router_closed")));
        case Raises(retryable, category) =>
          if !retryable {
            return Some(Failure(RouteError(category)));
          }
          return None;
      }
    }

    /** `world` supplies the replies, the clock readings and what other tasks do at each await. */
    method Completion(chain: seq<ProviderId>, parseJson: bool, world: World)
      returns (r: Result<nat, CallError>, attempts: seq<Attempt>, log: seq<Entry>)
      modifies this
      ensures Verdict(chain, attempts, parseJson, r)
      ensures |attempts| <= |chain| && LogOk(old(circuits), circuits, log, Journal(chain, attempts, parseJson))
      ensures Recorded(chain, attempts, parseJson, world, log)
    {
      attempts, log := [], [];
      if chain == [] {
        return Failure(RouteError("configuration")), attempts, log;
      }
      var lastCategory := "all_providers_failed";
      var actual := 0;
      for i := 0 to |chain|
        invariant |attempts| == i && actual == TriedCount(attempts) <= MAX_PROVIDER_ATTEMPTS
        invariant forall k | 0 <= k < i :: Passed(attempts[k])
        invariant lastCategory == LastCategory(attempts)
        invariant LogOk(old(circuits), circuits, log, Journal(chain, attempts, parseJson))
        invariant Recorded(chain, attempts, parseJson, world, log)
      {
        if actual >= MAX_PROVIDER_ATTEMPTS {
          break;
        }
        ghost var own := Journal(chain, attempts, parseJson);
        ghost var before := log;
        var attempt;
        attempt, log := TryProvider(chain[i], i, parseJson, world, old(circuits), log, own);
        AttemptsGrow(chain, attempts, attempt, parseJson);
        RecordGrows(chain, attempts, attempt, parseJson, world, before);
        attempts := attempts + [attempt];
        if attempt.Blocked? {
          continue;
        }
        actual := actual + 1;
        var end := Conclude(attempt, i, parseJson);
        if end.Some? {
          return end.value, attempts, log;
        }
        lastCategory := attempt.outcome.category;
      }
      return Failure(RouteError(lastCategory)), attempts, log;
    }

    /**
     * A whole call. `closed` and `stored` are what the check for an open router and the route lookup
     * find (None: the lookup raised); `earlier` is what other tasks do while the call waits for them.
     */
    method Call(closed: bool, stored: Option<seq<ProviderId>>, earlier: seq<Entry>, parseJson: bool, world: World)
      returns (r: Result<nat, CallError>, attempts: seq<Attempt>, log: seq<Entry>)
      modifies this
      ensures closed ==> r == Failure(RouteError("router_closed")) && attempts == []
      ensures !closed ==> Verdict(Chain(closed, stored), attempts, parseJson, r)
      ensures |attempts| <= |Chain(closed, stored)|
      ensures LogOk(old(circuits), circuits, log, Journal(Chain(closed, stored), attempts, parseJson))
      ensures forall p :: SettledOnce(Chain(closed, stored), attempts, parseJson, r, p)
      ensures Foreign(earlier) <= log
      ensures Recorded(Chain(closed, stored), attempts, parseJson, world, log[|earlier|..])
    {
      ghost var chain := Chain(closed, stored);
      if stored.Some? {
        FirstUsesAreDistinct(stored.value);
      }
      var steps := Suspend(earlier);
      ghost var mid := circuits;
      var own;
      if closed {
        r, attempts, own := Failure(RouteError("router_closed")), [], [];
      } else if stored.None? {
        r, attempts, own := Failure(RouteError("configuration")), [], [];
      } else {
        var route := RouteSnapshot(stored.value);
        r, attempts, own := Completion(route, parseJson, world);
      }
      log := steps + own;
      assert log[|earlier|..] == own;
      LogEarlier(old(circuits), mid, circuits, steps, own, Journal(chain, attempts, parseJson));
      SettledForAll(closed, chain, attempts, parseJson, r);
    }
  }
}
