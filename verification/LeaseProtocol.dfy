/** All interleavings of many leases over one manager, one atomic block per step. */
module LeaseProtocol {
  import opened PipelineConcurrency

  type LeaseId = nat

  datatype State = State(mgr: Manager, leases: map<LeaseId, Lease>)

  datatype Event =
    | Grant(l: LeaseId, account: Account)
    | CallRelease(l: LeaseId)
    | ManagerRelease(l: LeaseId)
    | ReleaseReturns(l: LeaseId)
    | CallQuarantine(l: LeaseId)
    | ManagerQuarantine(l: LeaseId)
    | QuarantineReturns(l: LeaseId)

  function Initial(limits: map<string, int>): State {
    State(Manager(limits, {}, {}), map[])
  }

  ghost predicate Enabled(s: State, e: Event) {
    if e.Grant? then
      e.l !in s.leases && s.mgr.CanAcquire(e.account)
    else
      && e.l in s.leases
      && s.leases[e.l].phase == (match e
                                 case ManagerRelease(_) => Releasing
                                 case ReleaseReturns(_) => Released
                                 case ManagerQuarantine(_) => Quarantining
                                 case QuarantineReturns(_) => Quarantined
                                 case _ => Idle)
  }

  function Next(s: State, e: Event): State
    requires !e.Grant? ==> e.l in s.leases
  {
    match e
    case Grant(l, a) => State(s.mgr.Grant(a), s.leases[l := Lease(a, Idle, false, false)])
    case CallRelease(l) => s.(leases := s.leases[l := s.leases[l].CallRelease()])
    case ManagerRelease(l) =>
      State(s.mgr.Release(s.leases[l].account), s.leases[l := s.leases[l].(phase := Released)])
    case ReleaseReturns(l) => s.(leases := s.leases[l := s.leases[l].ReleaseReturns()])
    case CallQuarantine(l) => s.(leases := s.leases[l := s.leases[l].CallQuarantine()])
    case ManagerQuarantine(l) =>
      State(s.mgr.Quarantine(s.leases[l].account), s.leases[l := s.leases[l].(phase := Quarantined)])
    case QuarantineReturns(l) => s.(leases := s.leases[l := s.leases[l].QuarantineReturns()])
  }

  predicate Live(s: State, l: LeaseId) {
    l in s.leases && s.leases[l].Live()
  }

  /** The live leases and the unavailable accounts are in bijection. */
  ghost predicate Bijection(s: State) {
    && (forall l <- s.leases | s.leases[l].Live() ::
          s.leases[l].account in if s.leases[l].Held() then s.mgr.quarantined else s.mgr.active)
    && (forall l, k | Live(s, l) && Live(s, k) && s.leases[l].account == s.leases[k].account :: l == k)
    && (forall a <- s.mgr.active + s.mgr.quarantined :: exists l :: Live(s, l) && s.leases[l].account == a)
  }

  /** Flags and phases agree. */
  ghost predicate PhasesAgree(s: State) {
    forall l <- s.leases :: var x := s.leases[l];
                            && (x.released ==> x.phase == Idle && !x.quarantined)
                            && (x.phase.Quarantining? || x.phase.Quarantined? ==> !x.quarantined)
  }

  ghost predicate Inv(s: State) {
    s.mgr.Sound() && Bijection(s) && PhasesAgree(s)
  }

  /** What one lease's own step does to the manager. */
  lemma StepTouchesOwnAccount(s: State, e: Event)
    requires Inv(s) && Enabled(s, e) && !e.Grant?
    ensures var t := Next(s, e); var a := s.leases[e.l].account;
            && t.mgr.active - {a} == s.mgr.active - {a}
            && t.mgr.quarantined - {a} == s.mgr.quarantined - {a}
            && (!Live(s, e.l) ==> t.mgr == s.mgr)
  {
  }

  /** A repeated or late call on one lease never frees the account of another. */
  lemma OtherHoldersUntouched(s: State, e: Event, other: LeaseId)
    requires Inv(s) && Enabled(s, e) && e.l != other && Live(s, other)
    ensures var t := Next(s, e); var a := s.leases[other].account;
            && Live(t, other)
            && (a in t.mgr.active <==> a in s.mgr.active)
            && (a in t.mgr.quarantined <==> a in s.mgr.quarantined)
  {
    if e.Grant? {
      assert s.leases[other].account in s.mgr.active + s.mgr.quarantined;
    } else {
      StepTouchesOwnAccount(s, e);
      if Live(s, e.l) {
        assert s.leases[e.l].account != s.leases[other].account;
      }
    }
  }

  lemma GrantKeepsBijection(s: State, l: LeaseId, a: Account)
    requires Inv(s) && Enabled(s, Grant(l, a))
    ensures Bijection(Next(s, Grant(l, a)))
  {
    var t := Next(s, Grant(l, a));
    assert forall k | k != l :: Live(t, k) <==> Live(s, k);
    assert forall k | Live(s, k) :: s.leases[k].account in s.mgr.active + s.mgr.quarantined;
    assert Live(t, l);
    forall b <- t.mgr.active + t.mgr.quarantined ensures exists k :: Live(t, k) && t.leases[k].account == b {
      if b != a {
        assert b in s.mgr.active + s.mgr.quarantined;
        var k :| Live(s, k) && s.leases[k].account == b;
        assert Live(t, k);
      }
    }
  }

  /** A call or a return changes no lease's liveness and no account's state. */
  lemma FlagStepKeepsBijection(s: State, e: Event)
    requires Inv(s) && Enabled(s, e) && !e.Grant? && !e.ManagerRelease? && !e.ManagerQuarantine?
    ensures Bijection(Next(s, e))
  {
    var t := Next(s, e);
    assert forall k :: Live(t, k) <==> Live(s, k);
    assert forall k | Live(s, k) ::
      t.leases[k].account == s.leases[k].account && t.leases[k].Held() == s.leases[k].Held();
    forall a <- t.mgr.active + t.mgr.quarantined ensures exists k :: Live(t, k) && t.leases[k].account == a {
      var k :| Live(s, k) && s.leases[k].account == a;
      assert Live(t, k);
    }
  }

  lemma ManagerStepKeepsBijection(s: State, e: Event)
    requires Inv(s) && Enabled(s, e) && (e.ManagerRelease? || e.ManagerQuarantine?)
    ensures Bijection(Next(s, e))
  {
    var t := Next(s, e);
    var mine := s.leases[e.l].account;
    assert Live(s, e.l);
    assert forall k | k != e.l :: Live(t, k) <==> Live(s, k);
    assert forall k | k != e.l && Live(s, k) :: s.leases[k].account != mine && t.leases[k] == s.leases[k];
    forall a <- t.mgr.active + t.mgr.quarantined ensures exists k :: Live(t, k) && t.leases[k].account == a {
      if a == mine {
        assert Live(t, e.l) && t.leases[e.l].account == a;
      } else {
        assert a in s.mgr.active + s.mgr.quarantined;
        var k :| Live(s, k) && s.leases[k].account == a;
        assert Live(t, k);
      }
    }
  }

  lemma StepKeepsBijection(s: State, e: Event)
    requires Inv(s) && Enabled(s, e)
    ensures Bijection(Next(s, e))
  {
    match e
    case Grant(l, a) => GrantKeepsBijection(s, l, a);
    case ManagerRelease(_) => ManagerStepKeepsBijection(s, e);
    case ManagerQuarantine(_) => ManagerStepKeepsBijection(s, e);
    case _ => FlagStepKeepsBijection(s, e);
  }

  lemma StepKeepsInv(s: State, e: Event)
    requires Inv(s) && Enabled(s, e)
    ensures Inv(Next(s, e))
  {
    StepKeepsBijection(s, e);
    ManagerStepsKeepSound(s.mgr, if e.Grant? then e.account else s.leases[e.l].account);
  }

  ghost predicate Step(s: State, e: Event, t: State) {
    Enabled(s, e) && t == Next(s, e)
  }

  ghost predicate Trace(ss: seq<State>, es: seq<Event>) {
    |ss| == |es| + 1 && forall i | 0 <= i < |es| :: Step(ss[i], es[i], ss[i + 1])
  }

  lemma {:induction false} TraceKeepsInv(ss: seq<State>, es: seq<Event>, n: nat)
    requires Trace(ss, es) && n < |ss| && Inv(ss[0])
    ensures Inv(ss[n])
  {
    if n > 0 {
      TraceKeepsInv(ss, es, n - 1);
      assert Step(ss[n - 1], es[n - 1], ss[n]);
      StepKeepsInv(ss[n - 1], es[n - 1]);
    }
  }

  /** In every state of every run, live leases and unavailable accounts are in bijection. */
  lemma EveryReachableStateIsExclusive(limits: map<string, int>, ss: seq<State>, es: seq<Event>, n: nat)
    requires Trace(ss, es) && ss[0] == Initial(limits) && n < |ss|
    ensures var t := ss[n];
            && t.mgr.active !! t.mgr.quarantined
            && (forall a <- t.mgr.active :: |t.mgr.On(a.platform)| <= t.mgr.Limit(a.platform))
            && (forall a: Account ::
                  a in t.mgr.active + t.mgr.quarantined <==> exists l :: Live(t, l) && t.leases[l].account == a)
            && (forall l, k :: Live(t, l) && Live(t, k) && t.leases[l].account == t.leases[k].account ==> l == k)
  {
    TraceKeepsInv(ss, es, n);
    var t := ss[n];
    forall a: Account
      ensures a in t.mgr.active + t.mgr.quarantined <==> exists l :: Live(t, l) && t.leases[l].account == a
    {
      if l :| Live(t, l) && t.leases[l].account == a {
        assert a in t.mgr.active + t.mgr.quarantined;
      }
    }
  }
}
