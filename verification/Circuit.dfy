/** One provider's circuit breaker: what each locked block does, and what its log means. */
module Circuit {
  import opened Wrappers

  const FAILURE_THRESHOLD := 3
  const COOLDOWN_SECONDS := 60.0

  datatype Status = Closed | Open | HalfOpen

  datatype CircuitState = CircuitState(
    status: Status, failures: nat, openedAt: real, probeInFlight: bool, generation: nat)

  datatype Lease = Lease(generation: nat, halfOpen: bool)

  const NEW := CircuitState(Closed, 0, 0.0, false, 0)

  datatype Outcome = Succeeded | Failed(retryable: bool) | Aborted

  function Reset(c: CircuitState): CircuitState {
    CircuitState(Closed, 0, 0.0, false, c.generation)
  }

  function Trip(c: CircuitState, failures: nat, now: real): CircuitState {
    CircuitState(Open, failures, now, false, c.generation + 1)
  }

  function Claim(c: CircuitState, now: real): (CircuitState, Option<Lease>) {
    if c.status == Closed then
      (c, Some(Lease(c.generation, false)))
    else if c.status == Open && now - c.openedAt < COOLDOWN_SECONDS then
      (c, None)
    else if c.probeInFlight then
      (c.(status := HalfOpen), None)
    else
      (c.(status := HalfOpen, probeInFlight := true), Some(Lease(c.generation, true)))
  }

  function Settle(c: CircuitState, lease: Lease, outcome: Outcome, now: real): CircuitState {
    if lease.generation != c.generation then
      c
    else if lease.halfOpen then
      if c.status != HalfOpen || !c.probeInFlight then c
      else if outcome == Succeeded then Reset(c).(generation := c.generation + 1)
      else Trip(c, FAILURE_THRESHOLD, now)
    else match outcome
      case Succeeded => Reset(c)
      case Failed(false) => Reset(c)
      case Failed(true) =>
        if c.failures + 1 >= FAILURE_THRESHOLD then Trip(c, c.failures + 1, now)
        else c.(failures := c.failures + 1, probeInFlight := false)
      case Aborted => c
  }

  /** A claim or a settlement, as it happens on one provider's circuit. */
  datatype Event = Claims(at: real) | Settles(lease: Lease, outcome: Outcome, at: real)

  function Apply(c: CircuitState, e: Event): CircuitState {
    match e
    case Claims(at) => Claim(c, at).0
    case Settles(lease, outcome, at) => Settle(c, lease, outcome, at)
  }

  function After(es: seq<Event>): CircuitState {
    if es == [] then NEW else Apply(After(es[..|es| - 1]), es[|es| - 1])
  }

  /** The lease handed out by the claim at position i. */
  function Issued(es: seq<Event>, i: nat): Option<Lease>
    requires i < |es|
  {
    if es[i].Claims? then Claim(After(es[..i]), es[i].at).1 else None
  }

  /** The clock never runs backwards and only leases handed out earlier are settled. */
  ghost predicate Valid(es: seq<Event>) {
    && (forall i, j | 0 <= i < j < |es| :: es[i].at <= es[j].at)
    && (forall j | 0 <= j < |es| && es[j].Settles? :: exists i :: 0 <= i < j && Issued(es, i) == Some(es[j].lease))
  }

  lemma ValidPrefix(es: seq<Event>, n: nat)
    requires Valid(es) && n <= |es|
    ensures Valid(es[..n])
    ensures forall i | 0 <= i < n :: Issued(es[..n], i) == Issued(es, i)
  {
    assert forall i | 0 <= i < n :: es[..n][..i] == es[..i];
    forall j | 0 <= j < n && es[j].Settles?
      ensures exists i :: 0 <= i < j && Issued(es[..n], i) == Some(es[..n][j].lease)
    {
      var i :| 0 <= i < j && Issued(es, i) == Some(es[j].lease);
      assert Issued(es[..n], i) == Some(es[..n][j].lease);
    }
  }

  ghost predicate Fresh(es: seq<Event>, i: nat)
    requires i < |es|
  {
    Issued(es, i).Some? && Issued(es, i).value.generation == After(es).generation
  }

  /** Which leases can still move the circuit, in each of its states. */
  ghost predicate Partitioned(es: seq<Event>) {
    var c := After(es);
    && (forall i | 0 <= i < |es| && Issued(es, i).Some? :: Issued(es, i).value.generation <= c.generation)
    && (forall i | 0 <= i < |es| && Fresh(es, i) ::
          if Issued(es, i).value.halfOpen then c.status == HalfOpen && c.probeInFlight else c.status == Closed)
    && (c.status == HalfOpen ==> c.probeInFlight && exists i :: 0 <= i < |es| && Fresh(es, i))
    && (c.status == HalfOpen ==> forall i, j | 0 <= i < |es| && 0 <= j < |es| && Fresh(es, i) && Fresh(es, j) :: i == j)
    && (c.status != HalfOpen ==> !c.probeInFlight)
  }

  /** Appending one event changes no earlier lease. */
  lemma Extend(es: seq<Event>, e: Event)
    ensures After(es + [e]) == Apply(After(es), e)
    ensures forall i | 0 <= i < |es| :: Issued(es + [e], i) == Issued(es, i)
    ensures Issued(es + [e], |es|) == if e.Claims? then Claim(After(es), e.at).1 else None
  {
    assert (es + [e])[..|es|] == es;
    assert forall i | 0 <= i < |es| :: (es + [e])[..i] == es[..i];
  }

  lemma ExtendPartition(es: seq<Event>, e: Event)
    requires Partitioned(es)
    requires e.Settles? ==> exists i :: 0 <= i < |es| && Issued(es, i) == Some(e.lease)
    ensures Partitioned(es + [e])
  {
    Extend(es, e);
    var fs := es + [e];
    var c, d := After(es), After(fs);
    if e.Claims? {
      assert forall i | 0 <= i < |es| :: Fresh(fs, i) == Fresh(es, i);
      assert d.generation == c.generation;
      if c.status == HalfOpen {
        var i :| 0 <= i < |es| && Fresh(es, i);
        assert Fresh(fs, i);
      } else if d.status == HalfOpen {
        assert Fresh(fs, |es|);
      }
    } else {
      var i :| 0 <= i < |es| && Issued(es, i) == Some(e.lease);
      if e.lease.generation == c.generation {
        assert Fresh(es, i);
      }
      if d.generation == c.generation {
        assert forall k | 0 <= k < |es| :: Fresh(fs, k) == Fresh(es, k);
        if c.status == HalfOpen {
          var k :| 0 <= k < |es| && Fresh(es, k);
          assert Fresh(fs, k);
        }
      }
    }
  }

  /** Generations partition time: the lease generation alone decides what a settlement may touch. */
  lemma {:induction false} GenerationsPartition(es: seq<Event>)
    requires Valid(es)
    ensures Partitioned(es)
  {
    if es != [] {
      var n := |es| - 1;
      ValidPrefix(es, n);
      GenerationsPartition(es[..n]);
      assert es == es[..n] + [es[n]];
      if es[n].Settles? {
        var i :| 0 <= i < n && Issued(es, i) == Some(es[n].lease);
        assert Issued(es[..n], i) == Some(es[n].lease);
      }
      ExtendPartition(es[..n], es[n]);
    }
  }

  /** A lease settles while its own generation is current, or has no effect whatever the outcome. */
  lemma StaleSettlementsDoNothing(es: seq<Event>, i: nat, outcome: Outcome, at: real)
    requires Valid(es) && i < |es| && Issued(es, i).Some?
    ensures var lease := Issued(es, i).value; var c := After(es);
            && (!Fresh(es, i) ==> Settle(c, lease, outcome, at) == c)
            && (Fresh(es, i) && lease.halfOpen ==> !Fresh(es + [Settles(lease, outcome, at)], i))
  {
    GenerationsPartition(es);
    Extend(es, Settles(Issued(es, i).value, outcome, at));
  }

  /** A settlement by a lease of the current generation. */
  ghost predicate Effective(es: seq<Event>, i: nat)
    requires i < |es|
  {
    es[i].Settles? && es[i].lease.generation == After(es[..i]).generation
  }

  ghost predicate Counts(es: seq<Event>, i: nat)
    requires i < |es|
  {
    Effective(es, i) && !es[i].lease.halfOpen && es[i].outcome == Failed(true)
  }

  /** Success, a non-retryable failure, or a probe's settlement. */
  ghost predicate Resets(es: seq<Event>, i: nat)
    requires i < |es|
  {
    Effective(es, i) && (es[i].lease.halfOpen || es[i].outcome == Succeeded || es[i].outcome == Failed(false))
  }

  /** Retryable failures of current leases since the last reset, read off the log. */
  ghost function Streak(es: seq<Event>): nat {
    if es == [] then 0
    else
      var n := |es| - 1;
      if Resets(es, n) then 0
      else Streak(es[..n]) + if Counts(es, n) then 1 else 0
  }

  predicate StreakOk(c: CircuitState, streak: nat) {
    && (c.status == Closed ==> c.failures == streak < FAILURE_THRESHOLD)
    && (c.status == Closed || streak == 0 || streak == FAILURE_THRESHOLD)
  }

  /** One event, given what a lease of the current generation says about the state. */
  lemma StreakStep(c: CircuitState, e: Event, streak: nat)
    requires StreakOk(c, streak)
    requires e.Settles? && e.lease.generation == c.generation ==>
      if e.lease.halfOpen then c.status == HalfOpen && c.probeInFlight else c.status == Closed
    ensures var current := e.Settles? && e.lease.generation == c.generation;
            StreakOk(Apply(c, e),
              if current && (e.lease.halfOpen || e.outcome == Succeeded || e.outcome == Failed(false)) then 0
              else streak + if current && !e.lease.halfOpen && e.outcome == Failed(true) then 1 else 0)
  {
  }

  lemma CurrentLeaseFitsTheState(es: seq<Event>, n: nat)
    requires Valid(es) && n < |es|
    ensures Effective(es, n) ==>
      var c := After(es[..n]);
      if es[n].lease.halfOpen then c.status == HalfOpen && c.probeInFlight else c.status == Closed
  {
    if Effective(es, n) {
      ValidPrefix(es, n);
      GenerationsPartition(es[..n]);
      var i :| 0 <= i < n && Issued(es, i) == Some(es[n].lease);
      assert Fresh(es[..n], i);
    }
  }

  /** While closed, the counter is the log's streak; the circuit trips exactly at the third. */
  lemma {:induction false} CounterIsStreak(es: seq<Event>)
    requires Valid(es)
    ensures StreakOk(After(es), Streak(es))
  {
    if es != [] {
      var n := |es| - 1;
      ValidPrefix(es, n);
      CounterIsStreak(es[..n]);
      CurrentLeaseFitsTheState(es, n);
      StreakStep(After(es[..n]), es[n], Streak(es[..n]));
    }
  }

  lemma TripsExactlyAtTheThird(es: seq<Event>, e: Event)
    requires Valid(es + [e]) && After(es).status == Closed
    ensures After(es + [e]).status == Open <==> Streak(es + [e]) == FAILURE_THRESHOLD
    ensures After(es + [e]).status == Open ==> Streak(es) == FAILURE_THRESHOLD - 1
  {
    var fs := es + [e];
    assert fs[..|es|] == es;
    ValidPrefix(fs, |es|);
    CounterIsStreak(es);
    CounterIsStreak(fs);
    GenerationsPartition(es);
    Extend(es, e);
    if e.Settles? {
      var i :| 0 <= i < |es| && Issued(fs, i) == Some(fs[|es|].lease);
      assert e.lease.generation == After(es).generation ==> Fresh(es, i);
    }
  }

  ghost predicate IsProbe(es: seq<Event>, i: nat)
    requires i < |es|
  {
    Issued(es, i).Some? && Issued(es, i).value.halfOpen
  }

  lemma OpeningStampsTheClock(c: CircuitState, e: Event)
    requires Apply(c, e).status == Open
    ensures c.status != Open ==> Apply(c, e).openedAt == e.at
    ensures c.status == Open ==> Apply(c, e) == c || (e.Settles? && e.lease.generation == c.generation)
  {
  }

  /** While open, every probe so far was claimed before the circuit opened. */
  lemma {:induction false} OpenedAfterEveryProbe(es: seq<Event>, i: nat)
    requires Valid(es) && i < |es| && IsProbe(es, i) && After(es).status == Open
    ensures es[i].at <= After(es).openedAt
  {
    var n := |es| - 1;
    var c := After(es[..n]);
    ValidPrefix(es, n);
    GenerationsPartition(es[..n]);
    OpeningStampsTheClock(c, es[n]);
    if c.status == Open {
      if es[n].Settles? {
        var k :| 0 <= k < n && Issued(es, k) == Some(es[n].lease);
        assert Issued(es[..n], k) == Some(es[n].lease);
        assert !Fresh(es[..n], k);
      }
      assert i < n;
      assert IsProbe(es[..n], i);
      OpenedAfterEveryProbe(es[..n], i);
    }
  }

  /** Any two probes of one provider are a full cooldown apart, over the whole run. */
  lemma ProbesAreACooldownApart(es: seq<Event>, i: nat, j: nat)
    requires Valid(es) && i < j < |es| && IsProbe(es, i) && IsProbe(es, j)
    ensures es[j].at - es[i].at >= COOLDOWN_SECONDS
  {
    ValidPrefix(es, j);
    GenerationsPartition(es[..j]);
    assert IsProbe(es[..j], i);
    OpenedAfterEveryProbe(es[..j], i);
  }
}
