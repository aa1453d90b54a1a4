/** All login sessions of the service, the account leases they share with other users, and shutdown. */
module LoginService {
  import opened Wrappers
  import opened LoginSession
  import AccountLeases

  /** A session's token, never negative, is also the identity of its lease; other holders' identities are negative. */
  type Token = int

  datatype State = State(
    closing: bool,
    closed: bool,
    starting: set<Token>,
    leases: AccountLeases.Leases,
    sessions: map<Token, Managed>)

  const INITIAL := State(false, false, {}, map[], map[])

  datatype Event =
    | StartRegisters(t: Token)
    | StartAcquires(t: Token, key: AccountLeases.Key)
    | StartEnds(t: Token)
    | Moves(t: Token, v: Move)
    | OtherAcquires(key: AccountLeases.Key, id: AccountLeases.LeaseId)
    | OtherReleases(key: AccountLeases.Key, id: AccountLeases.LeaseId)
    | CloseBegins
    | CloseSettles(complete: bool)

  predicate Clean(m: Managed) {
    m.r.leaseReleased && !m.x.commit.Running? && !m.r.reaper.Reaping?
  }

  /** `_all_resources_cleaned`. */
  predicate AllClean(s: State) {
    && s.starting == {}
    && forall t <- s.sessions :: Clean(s.sessions[t])
  }

  predicate StartOver(m: Managed) {
    m.r.start.Raised? || m.r.start.Returned?
  }

  predicate Enabled(s: State, e: Event) {
    match e
    case StartRegisters(t) => t >= 0 && !s.closing && t !in s.starting && t !in s.sessions
    case StartAcquires(t, _) => t in s.starting && t !in s.sessions
    case StartEnds(t) => t in s.starting && (t in s.sessions ==> StartOver(s.sessions[t]))
    case Moves(t, v) => t in s.sessions && Can(s.sessions[t], s.closing, v)
    case OtherAcquires(_, id) => id < 0
    case OtherReleases(_, id) => id < 0
    case CloseBegins => true
    case CloseSettles(complete) => s.closing && (complete ==> AllClean(s))
  }

  function Next(s: State, e: Event): State
    requires Enabled(s, e)
  {
    match e
    case StartRegisters(t) => s.(starting := s.starting + {t})
    case StartAcquires(t, key) =>
      if key in s.leases then s
      else s.(leases := AccountLeases.Acquired(s.leases, key, t), sessions := s.sessions[t := New(key)])
    case StartEnds(t) => s.(starting := s.starting - {t})
    case Moves(t, v) =>
      var m := s.sessions[t];
      s.(sessions := s.sessions[t := Advance(m, s.closing, v)],
         leases := if v == Move.Clean(Frees(true)) then AccountLeases.Released(s.leases, m.key, t) else s.leases)
    case OtherAcquires(key, id) => s.(leases := AccountLeases.Acquired(s.leases, key, id))
    case OtherReleases(key, id) => s.(leases := AccountLeases.Released(s.leases, key, id))
    case CloseBegins => s.(closing := true)
    case CloseSettles(complete) => s.(closed := complete)
  }

  /** The session's lease has not been given back. */
  predicate Holds(m: Managed) {
    !m.r.leaseReleased && !m.r.cleanup.Freed?
  }

  ghost predicate SessionsOk(s: State) {
    && (forall t <- s.starting :: t >= 0)
    && forall t <- s.sessions ::
         t >= 0 && Good(s.sessions[t], s.closing) && (t in s.starting || StartOver(s.sessions[t]))
  }

  /** Unreleased login leases are exactly the login entries of the manager, one per key. */
  ghost predicate LeasesOk(leases: AccountLeases.Leases, sessions: map<Token, Managed>) {
    && (forall t <- sessions :: Holds(sessions[t]) ==>
          sessions[t].key in leases && leases[sessions[t].key] == t)
    && (forall k <- leases :: leases[k] >= 0 ==>
          leases[k] in sessions && sessions[leases[k]].key == k && Holds(sessions[leases[k]]))
  }

  ghost predicate Inv(s: State) {
    && SessionsOk(s)
    && LeasesOk(s.leases, s.sessions)
    && (s.closed ==> s.closing && AllClean(s))
  }

  lemma StartMoveKeepsCleanup(m: Managed, closing: bool, a: StartMove)
    requires CanStart(m.r, a)
    ensures ResourcesAfterStart(m, closing, a).cleanup == m.r.cleanup
    ensures ResourcesAfterStart(m, closing, a).leaseReleased == m.r.leaseReleased
  {
  }

  lemma StartMoveAfterStart(m: Managed, closing: bool, a: StartMove)
    requires CanStart(m.r, a) && StartOver(m)
    ensures ResourcesAfterStart(m, closing, a).start == m.r.start
  {
    assert a.OpenEnds? || a.ReaperTakes?;
  }

  /** How one session's step bears on its lease. */
  lemma MoveAndLease(m: Managed, closing: bool, v: Move)
    requires Good(m, closing) && Can(m, closing, v)
    ensures var n := Advance(m, closing, v);
            && n.key == m.key
            && (Holds(n) <==> Holds(m) && v != Move.Clean(Frees(true)))
            && (v == Move.Clean(Frees(true)) ==> Holds(m))
            && (m.r.leaseReleased ==> n.r.leaseReleased)
            && (StartOver(m) ==> StartOver(n))
  {
    if v.Start? {
      StartMoveKeepsCleanup(m, closing, v.a);
      if StartOver(m) {
        StartMoveAfterStart(m, closing, v.a);
      }
    }
  }

  lemma MoveStaysClean(m: Managed, closing: bool, v: Move)
    requires Good(m, closing) && Can(m, closing, v) && Clean(m) && StartOver(m)
    ensures Clean(Advance(m, closing, v))
  {
  }

  lemma MoveKeepsInv(s: State, t: Token, v: Move)
    requires Inv(s) && Enabled(s, Moves(t, v))
    ensures Inv(Next(s, Moves(t, v)))
  {
    var m, s' := s.sessions[t], Next(s, Moves(t, v));
    AdvanceKeepsGood(m, s.closing, v);
    MoveAndLease(m, s.closing, v);
    if s.closed {
      MoveStaysClean(m, s.closing, v);
    }
    assert LeasesOk(s'.leases, s'.sessions);
  }

  lemma ClosingKeepsGood(m: Managed)
    requires Good(m, false)
    ensures Good(m, true)
  {
  }

  lemma NewIsGood(key: AccountLeases.Key, closing: bool)
    ensures Good(New(key), closing) && Holds(New(key))
  {
  }

  lemma StepKeepsInv(s: State, e: Event)
    requires Inv(s) && Enabled(s, e)
    ensures Inv(Next(s, e))
  {
    match e {
      case Moves(t, v) => MoveKeepsInv(s, t, v);
      case StartAcquires(_, key) => NewIsGood(key, s.closing);
      case CloseBegins =>
        forall t <- s.sessions | !s.closing {
          ClosingKeepsGood(s.sessions[t]);
        }
      case _ =>
    }
  }

  ghost predicate Step(s: State, e: Event, t: State) {
    Enabled(s, e) && t == Next(s, e)
  }

  ghost predicate Trace(ss: seq<State>, es: seq<Event>) {
    |ss| == |es| + 1 && ss[0] == INITIAL && forall n | 0 <= n < |es| :: Step(ss[n], es[n], ss[n + 1])
  }

  lemma {:induction false} TraceKeepsInv(ss: seq<State>, es: seq<Event>, n: nat)
    requires Trace(ss, es) && n < |ss|
    ensures Inv(ss[n])
  {
    if n > 0 {
      TraceKeepsInv(ss, es, n - 1);
      assert Step(ss[n - 1], es[n - 1], ss[n]);
      StepKeepsInv(ss[n - 1], es[n - 1]);
    }
  }

  /** No two sessions hold unreleased leases on one key, and nobody else holds the key meanwhile. */
  lemma LeasesAreExclusive(ss: seq<State>, es: seq<Event>, n: nat, t: Token, u: Token)
    requires Trace(ss, es) && n < |ss| && t in ss[n].sessions && Holds(ss[n].sessions[t])
    ensures ss[n].sessions[t].key in ss[n].leases && ss[n].leases[ss[n].sessions[t].key] == t
    ensures u != t && u in ss[n].sessions && Holds(ss[n].sessions[u]) ==> ss[n].sessions[u].key != ss[n].sessions[t].key
  {
    TraceKeepsInv(ss, es, n);
  }

  /** Once `start` has returned, a released lease means the browser was closed. */
  lemma ReleasedAfterTheBrowserClosed(ss: seq<State>, es: seq<Event>, n: nat, t: Token)
    requires Trace(ss, es) && n < |ss| && t in ss[n].sessions
    ensures var m := ss[n].sessions[t];
            && (m.r.leaseReleased ==> m.r.browserDone)
            && (m.r.leaseReleased && m.r.start.Returned? ==> !m.r.live && m.r.closes > 0)
            && (m.r.leaseReleased ==> (m.r.live <==> m.r.early && m.r.open.Browser?))
    ensures var m := ss[n].sessions[t];
            m.x.session.status.Confirmed? ==> m.x.session.authenticated && m.x.session.persisted && m.x.commitWon
  {
    TraceKeepsInv(ss, es, n);
    assert Good(ss[n].sessions[t], ss[n].closing);
  }

  lemma StepKeepsTerminal(s: State, e: Event, t: Token)
    requires Inv(s) && Enabled(s, e) && t in s.sessions
    ensures t in Next(s, e).sessions && Next(s, e).sessions[t].key == s.sessions[t].key
    ensures s.sessions[t].x.Done() ==> Next(s, e).sessions[t].x.Done()
  {
    if e.Moves? && e.t == t && s.sessions[t].x.Done() {
      TerminalIsClosed(s.sessions[t], s.closing, e.v);
    }
  }

  /** Sessions are never forgotten, and the set of terminal statuses is closed over every run. */
  lemma {:induction false} TerminalForever(ss: seq<State>, es: seq<Event>, i: nat, n: nat, t: Token)
    requires Trace(ss, es) && i <= n < |ss| && t in ss[i].sessions
    ensures t in ss[n].sessions && ss[n].sessions[t].key == ss[i].sessions[t].key
    ensures ss[i].sessions[t].x.Done() ==> ss[n].sessions[t].x.Done()
    decreases n
  {
    if i < n {
      TerminalForever(ss, es, i, n - 1, t);
      TraceKeepsInv(ss, es, n - 1);
      assert Step(ss[n - 1], es[n - 1], ss[n]);
      StepKeepsTerminal(ss[n - 1], es[n - 1], t);
    }
  }

  // ----- the account commit and the first terminal status -----

  /** The guard that `status`, `_expire_when_due` and shutdown have and `verify` lacks. */
  predicate DueVerifyInCommit(s: State, e: Event, t: Token) {
    && e.Moves? && e.t == t && e.v.Call? && e.v.u.Verify? && e.v.u.due
    && t in s.sessions && !s.sessions[t].x.commit.NoCommit? && !s.sessions[t].x.Done()
  }

  predicate Overran(ss: seq<State>, es: seq<Event>, n: nat, t: Token)
    requires n <= |es| && n <= |ss|
  {
    exists i :: 0 <= i < n && DueVerifyInCommit(ss[i], es[i], t)
  }

  function FirstTerminal(ss: seq<State>, n: nat, t: Token): Option<Status>
    requires n < |ss|
  {
    var done := t in ss[n].sessions && ss[n].sessions[t].x.Done();
    var now := if done then Some(ss[n].sessions[t].x.session.status) else None;
    if n == 0 then now
    else
      var before := FirstTerminal(ss, n - 1, t);
      if before.Some? then before else now
  }

  lemma OpHistory(m: Managed, o: OpMove)
    requires CommitOk(m.x) && OutcomeOk(m.x) && LinkOk(m) && CanOp(m, o)
    ensures var y := AfterOp(m.x, o);
            && y.first == (if m.x.first.Some? then m.x.first else if y.Done() then Some(y.session.status) else None)
            && y.overrun == m.x.overrun
  {
  }

  lemma MoveHistory(m: Managed, closing: bool, v: Move)
    requires Good(m, closing) && Can(m, closing, v)
    ensures var n := Advance(m, closing, v);
            && n.x.first == (if m.x.first.Some? then m.x.first
                             else if n.x.Done() then Some(n.x.session.status)
                             else None)
            && (n.x.overrun <==>
                  m.x.overrun || (v.Call? && v.u.Verify? && v.u.due && !m.x.commit.NoCommit? && !m.x.Done()))
  {
    if v.Operation? {
      OpHistory(m, v.o);
    }
  }

  /** The history fields say what happened in the run. */
  lemma {:induction false} HistoryIsTheRun(ss: seq<State>, es: seq<Event>, n: nat, t: Token)
    requires Trace(ss, es) && n < |ss|
    ensures FirstTerminal(ss, n, t) == if t in ss[n].sessions then ss[n].sessions[t].x.first else None
    ensures Overran(ss, es, n, t) <==> t in ss[n].sessions && ss[n].sessions[t].x.overrun
  {
    if n > 0 {
      HistoryIsTheRun(ss, es, n - 1, t);
      TraceKeepsInv(ss, es, n - 1);
      assert Step(ss[n - 1], es[n - 1], ss[n]);
      assert Overran(ss, es, n, t) <==> Overran(ss, es, n - 1, t) || DueVerifyInCommit(ss[n - 1], es[n - 1], t);
      if es[n - 1].Moves? && es[n - 1].t == t {
        MoveHistory(ss[n - 1].sessions[t], ss[n - 1].closing, es[n - 1].v);
      }
    }
  }

  /**
   * The first terminal status is `confirmed` iff the updater returned, the operation saw it, and no due
   * `verify` intervened.
   */
  lemma ConfirmedIffAccepted(ss: seq<State>, es: seq<Event>, n: nat, t: Token)
    requires Trace(ss, es) && n < |ss| && t in ss[n].sessions
    ensures FirstTerminal(ss, n, t) == Some(Confirmed) <==>
      ss[n].sessions[t].x.commit.Accepted? && !ss[n].sessions[t].x.op.AwaitCommit? && !Overran(ss, es, n, t)
  {
    TraceKeepsInv(ss, es, n);
    HistoryIsTheRun(ss, es, n, t);
    assert Good(ss[n].sessions[t], ss[n].closing);
  }

  predicate Committing(s: State, t: Token) {
    && t in s.sessions
    && s.sessions[t].x.session.status.Verifying? && !s.sessions[t].x.commit.NoCommit?
  }

  predicate LeavesCommit(s: State, e: Event, t: Token) {
    e != Moves(t, Operation(Settles)) && !DueVerifyInCommit(s, e, t)
  }

  lemma StepHoldsCommit(s: State, e: Event, t: Token)
    requires Inv(s) && Enabled(s, e) && Committing(s, t)
    ensures Committing(Next(s, e), t) <==> LeavesCommit(s, e, t)
  {
    if e.Moves? && e.t == t {
      CommitPoint(s.sessions[t], s.closing, e.v);
      MoveHistory(s.sessions[t], s.closing, e.v);
    }
  }

  lemma {:induction false} HoldsAlong(ss: seq<State>, i: nat, n: nat, t: Token)
    requires i <= n < |ss| && Committing(ss[i], t)
    requires forall k | i <= k < n :: Committing(ss[k], t) ==> Committing(ss[k + 1], t)
    ensures Committing(ss[n], t)
    decreases n
  {
    if i < n {
      HoldsAlong(ss, i, n - 1, t);
      assert Committing(ss[n - 1], t) ==> Committing(ss[n - 1 + 1], t);
    }
  }

  /** From the commit task on, the status stays `verifying` until the operation settles it or a due `verify` lands. */
  lemma CommitHolds(ss: seq<State>, es: seq<Event>, i: nat, n: nat, t: Token)
    requires Trace(ss, es) && i <= n < |ss| && Committing(ss[i], t)
    requires forall k | i <= k < n :: LeavesCommit(ss[k], es[k], t)
    ensures Committing(ss[n], t)
  {
    forall k | i <= k < n && Committing(ss[k], t) ensures Committing(ss[k + 1], t) {
      TraceKeepsInv(ss, es, k);
      assert Step(ss[k], es[k], ss[k + 1]) && LeavesCommit(ss[k], es[k], t);
      StepHoldsCommit(ss[k], es[k], t);
    }
    HoldsAlong(ss, i, n, t);
  }

  // ----- shutdown -----

  lemma StepStaysClean(s: State, e: Event)
    requires Inv(s) && s.closing && AllClean(s) && Enabled(s, e)
    ensures Next(s, e).closing && AllClean(Next(s, e)) && Next(s, e).sessions.Keys == s.sessions.Keys
  {
    if e.Moves? {
      assert Clean(s.sessions[e.t]);
      MoveStaysClean(s.sessions[e.t], s.closing, e.v);
    }
  }

  /** A complete shutdown is final: every lease has been given back, and no session is ever added. */
  lemma {:induction false} CompleteShutdownIsFinal(ss: seq<State>, es: seq<Event>, i: nat, n: nat)
    requires Trace(ss, es) && i < n < |ss| && es[i] == CloseSettles(true)
    ensures ss[n].closing && AllClean(ss[n]) && ss[n].sessions.Keys == ss[i].sessions.Keys
    ensures forall k <- ss[n].leases :: ss[n].leases[k] < 0
    decreases n
  {
    TraceKeepsInv(ss, es, n);
    TraceKeepsInv(ss, es, n - 1);
    assert Step(ss[n - 1], es[n - 1], ss[n]);
    if i < n - 1 {
      CompleteShutdownIsFinal(ss, es, i, n - 1);
    }
    StepStaysClean(ss[n - 1], es[n - 1]);
    assert forall t <- ss[n].sessions :: Clean(ss[n].sessions[t]);
  }

  // ----- the interleavings that break the plain statements -----

  function Last(ss: seq<State>): State
    requires ss != []
  {
    ss[|ss| - 1]
  }

  lemma Play(ss: seq<State>, es: seq<Event>, e: Event) returns (ss': seq<State>, es': seq<Event>)
    requires Trace(ss, es) && Enabled(Last(ss), e)
    ensures Trace(ss', es') && Last(ss') == Next(Last(ss), e)
  {
    ss', es' := ss + [Next(Last(ss), e)], es + [e];
    forall n | 0 <= n < |es'| ensures Step(ss'[n], es'[n], ss'[n + 1]) {
      assert n < |es| ==> Step(ss[n], es[n], ss[n + 1]);
    }
  }

  lemma PlayMove(ss: seq<State>, es: seq<Event>, v: Move) returns (ss': seq<State>, es': seq<Event>)
    requires Trace(ss, es) && 0 in Last(ss).sessions && Can(Last(ss).sessions[0], Last(ss).closing, v)
    ensures Trace(ss', es') && Last(ss').closing == Last(ss).closing
    ensures 0 in Last(ss').sessions && Last(ss').sessions[0] == Advance(Last(ss).sessions[0], Last(ss).closing, v)
  {
    ss', es' := Play(ss, es, Moves(0, v));
  }

  lemma PlayOpening() returns (ss: seq<State>, es: seq<Event>)
    ensures Trace(ss, es) && !Last(ss).closing && 0 in Last(ss).sessions && Last(ss).sessions[0] == New((0, 0))
  {
    ss, es := [INITIAL], [];
    ss, es := Play(ss, es, StartRegisters(0));
    ss, es := Play(ss, es, StartAcquires(0, (0, 0)));
  }

  lemma PlayToReturn() returns (ss: seq<State>, es: seq<Event>)
    ensures Trace(ss, es) && !Last(ss).closing && 0 in Last(ss).sessions
    ensures Last(ss).sessions[0] == New((0, 0)).(
      x := New((0, 0)).x.(session := Session(WaitingUser, false, false)),
      r := New((0, 0)).r.(start := Returned, open := Browser, browser := true, live := true))
  {
    ss, es := PlayOpening();
    ss, es := PlayMove(ss, es, Start(OpenEnds(true)));
    ss, es := PlayMove(ss, es, Start(TakesOpen));
    ss, es := PlayMove(ss, es, Start(ChecksClosing));
    ss, es := PlayMove(ss, es, Start(Transitions(false)));
    ss, es := PlayMove(ss, es, Start(Returns));
  }

  lemma PlayToCommit() returns (ss: seq<State>, es: seq<Event>)
    ensures Trace(ss, es) && !Last(ss).closing && 0 in Last(ss).sessions
    ensures Last(ss).sessions[0] == New((0, 0)).(
      x := Attempt(Session(Verifying, true, false), AwaitCommit, Running, false, None, false),
      r := New((0, 0)).r.(start := Returned, open := Browser, browser := true, live := true))
  {
    ss, es := PlayToReturn();
    ss, es := PlayMove(ss, es, Call(Verify(false, false)));
    ss, es := PlayMove(ss, es, Operation(VerifyEnds(Authenticated, false, false)));
    ss, es := PlayMove(ss, es, Operation(PersistEnds(true, false)));
    ss, es := PlayMove(ss, es, Operation(CommitBegins));
  }

  lemma PlayToExpiredCommit() returns (ss: seq<State>, es: seq<Event>)
    ensures Trace(ss, es) && 0 in Last(ss).sessions
    ensures Last(ss).sessions[0] == New((0, 0)).(
      x := Attempt(Session(Expired, true, false), AwaitCommit, Running, false, Some(Expired), true),
      r := New((0, 0)).r.(start := Returned, open := Browser, browser := true, live := true, cleanup := Begun))
  {
    ss, es := PlayToCommit();
    ss, es := PlayMove(ss, es, Call(Verify(true, false)));
    ss, es := PlayMove(ss, es, Move.Clean(Begins(ByCall)));
  }

  lemma PlayToEarlyRelease() returns (ss: seq<State>, es: seq<Event>)
    ensures Trace(ss, es) && 0 in Last(ss).sessions
    ensures Last(ss).sessions[0].r.leaseReleased
    ensures Last(ss).sessions[0].x ==
            Attempt(Session(Expired, true, false), AwaitCommit, Running, false, Some(Expired), true)
  {
    ss, es := PlayToExpiredCommit();
    ss, es := PlayMove(ss, es, Move.Clean(StopsOp));
    ss, es := PlayMove(ss, es, Move.Clean(Looks));
    ss, es := PlayMove(ss, es, Move.Clean(BrowserCloses(true)));
    ss, es := PlayMove(ss, es, Move.Clean(Records));
    ss, es := PlayMove(ss, es, Move.Clean(Frees(true)));
    ss, es := PlayMove(ss, es, Move.Clean(Ends));
  }

  /** A due `verify` during the commit expires the session and frees its lease; the commit is never confirmed. */
  lemma DueVerifyLosesTheCommit() returns (ss: seq<State>, es: seq<Event>)
    ensures Trace(ss, es) && 0 in Last(ss).sessions
    ensures Last(ss).sessions[0].x.commit.Accepted? && Last(ss).sessions[0].x.op.Idle?
    ensures Last(ss).sessions[0].x.session.status.Expired? && Last(ss).sessions[0].x.commitWon
  {
    ss, es := PlayToEarlyRelease();
    ss, es := PlayMove(ss, es, Operation(CommitEnds(true)));
    ss, es := PlayMove(ss, es, Operation(Settles));
  }

  /** A failed browser close turns a confirmed session into a failed one. */
  lemma FailedCleanupReplacesConfirmed() returns (ss: seq<State>, es: seq<Event>)
    ensures Trace(ss, es) && 0 in Last(ss).sessions
    ensures Last(ss).sessions[0].x.session.status.Failed? && FirstTerminal(ss, |ss| - 1, 0) == Some(Confirmed)
  {
    ss, es := PlayToCommit();
    ss, es := PlayMove(ss, es, Operation(CommitEnds(true)));
    ss, es := PlayMove(ss, es, Operation(Settles));
    ss, es := PlayMove(ss, es, Move.Clean(Begins(ByCall)));
    ss, es := PlayMove(ss, es, Move.Clean(StopsOp));
    ss, es := PlayMove(ss, es, Move.Clean(Looks));
    ss, es := PlayMove(ss, es, Move.Clean(BrowserCloses(false)));
    HistoryIsTheRun(ss, es, |ss| - 1, 0);
  }

  lemma PlayToEarlyLook() returns (ss: seq<State>, es: seq<Event>)
    ensures Trace(ss, es) && 0 in Last(ss).sessions
    ensures Last(ss).sessions[0].r ==
            New((0, 0)).r.(start := Unwinding(Cancelled), cleanup := ClosedBrowser, swept := true, early := true)
  {
    ss, es := PlayOpening();
    ss, es := Play(ss, es, CloseBegins);
    ss, es := PlayMove(ss, es, Start(Interrupted(false)));
    ss, es := PlayMove(ss, es, Call(Sweep));
    ss, es := PlayMove(ss, es, Move.Clean(Begins(ByShutdown)));
    ss, es := PlayMove(ss, es, Move.Clean(StopsOp));
    ss, es := PlayMove(ss, es, Move.Clean(Looks));
  }

  /** Shutdown during an unfinished open can release the lease and leave a browser that nobody closes. */
  lemma ShutdownCanStrandABrowser() returns (ss: seq<State>, es: seq<Event>)
    ensures Trace(ss, es) && 0 in Last(ss).sessions
    ensures Last(ss).sessions[0].r.leaseReleased && Last(ss).sessions[0].r.live
  {
    ss, es := PlayToEarlyLook();
    ss, es := PlayMove(ss, es, Move.Clean(Records));
    ss, es := PlayMove(ss, es, Move.Clean(Frees(true)));
    ss, es := PlayMove(ss, es, Move.Clean(Ends));
    ss, es := PlayMove(ss, es, Start(GraceEnds));
    ss, es := PlayMove(ss, es, Start(OpenEnds(true)));
  }
}
