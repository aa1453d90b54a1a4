/** One interactive login session: its status, start, verify operation, account commit and cleanup. */
module LoginSession {
  import opened Wrappers
  import AccountLeases

  datatype Status = Launching | WaitingUser | Verifying | Persisted | Confirmed | Failed | Expired | Cancelled

  predicate Terminal(s: Status) {
    s.Confirmed? || s.Failed? || s.Expired? || s.Cancelled?
  }

  /** `ALLOWED_TRANSITIONS`. */
  predicate Allowed(s: Status, next: Status) {
    match s
    case Launching => next.WaitingUser? || next.Failed? || next.Cancelled?
    case WaitingUser => next.Verifying? || next.Failed? || next.Expired? || next.Cancelled?
    case Verifying => next.WaitingUser? || next.Persisted? || next.Failed? || next.Expired? || next.Cancelled?
    case Persisted => next.Confirmed? || next.Failed?
    case _ => false
  }

  datatype Session = Session(status: Status, authenticated: bool, persisted: bool) {
    /** The session after `transition`, and whether it returned; `due` is None when expiry is not enforced. */
    function Transitioned(next: Status, due: Option<bool>): (Session, bool) {
      if due == Some(true) && !Terminal(status) then (this.(status := Expired), false)
      else if !Allowed(status, next) then (this, false)
      else if next.Confirmed? && !(authenticated && persisted) then (this, false)
      else (this.(status := next, persisted := persisted || next.Persisted?), true)
    }
  }

  /** The verify operation, named by what it awaits. */
  datatype Op = Idle | AwaitVerify | AwaitPersist | AwaitLock | AwaitCommit | Winding
  datatype Commit = NoCommit | Running | Accepted | Refused

  /**
   * Status and verify operation. The last two fields are history that no step reads: the first
   * terminal status, and whether a due `verify` landed while the account commit was under way.
   */
  datatype Attempt = Attempt(
    session: Session, op: Op, commit: Commit, commitWon: bool,
    first: Option<Status>, overrun: bool)
  {
    predicate Done() { Terminal(session.status) }

    function With(x: Session): Attempt {
      this.(session := x, first := if first.None? && Terminal(x.status) then Some(x.status) else first)
    }

    function Set(status: Status): Attempt {
      With(session.(status := status))
    }

    /** `_mark_terminal_locked`: a terminal status is kept. */
    function Mark(status: Status): Attempt {
      if Done() then this else Set(status)
    }

    /** Shutdown and `cancel` leave a session alone while its commit is being decided. */
    predicate CommitPending() {
      !commit.NoCommit? && !op.Idle?
    }
  }

  /** Where `start` is: each value but the last two names the block it runs next. */
  datatype StartPc =
    | Opening
    | Unwinding(cause: Status)
    | Opened
    | Ready
    | Arming
    | Doomed(cause: Status)
    | Raised
    | Returned

  datatype OpenTask = Pending | Browser | NoBrowser
  datatype Reaper = NoReaper | Reaping | Reaped

  datatype Cleanup =
    | NoCleanup
    | Begun
    | AwaitOp
    | Looking
    | ClosingBrowser
    | ClosedBrowser
    | Releasing
    | Freed
    | Ended(ok: bool)

  /**
   * The browser, its owner and the lease. The last three fields are history: whether a browser is
   * alive, whether cleanup looked for it before it was recorded, and how many closes succeeded.
   */
  datatype Resources = Resources(
    start: StartPc, open: OpenTask, reaper: Reaper, browser: bool,
    cleanup: Cleanup, browserDone: bool, leaseReleased: bool, swept: bool,
    live: bool, early: bool, closes: nat)

  datatype Managed = Managed(key: AccountLeases.Key, x: Attempt, r: Resources)

  function New(key: AccountLeases.Key): Managed {
    Managed(key,
            Attempt(Session(Launching, false, false), Idle, NoCommit, false, None, false),
            Resources(Opening, Pending, NoReaper, false, NoCleanup, false, false, false, false, false, 0))
  }

  // ----- steps of start -----

  datatype StartMove =
    | OpenEnds(ok: bool)
    | TakesOpen
    | Interrupted(timeout: bool)
    | GraceEnds
    | ChecksClosing
    | Transitions(due: bool)
    | Returns
    | Dooms
    | ReaperTakes

  predicate CanStart(r: Resources, a: StartMove) {
    match a
    case OpenEnds(_) => r.open.Pending?
    case TakesOpen => (r.start.Opening? || r.start.Unwinding?) && !r.open.Pending?
    case Interrupted(_) => !r.start.Raised? && !r.start.Returned?
    case GraceEnds => r.start.Unwinding? && r.open.Pending?
    case ChecksClosing => r.start.Opened?
    case Transitions(_) => r.start.Ready?
    case Returns => r.start.Arming?
    case Dooms => r.start.Doomed?
    case ReaperTakes => r.reaper.Reaping? && !r.open.Pending?
  }

  /** Where an expired wait or a cancellation sends `start`. */
  function Interruption(start: StartPc, timeout: bool): StartPc {
    match start
    case Opening => Unwinding(if timeout then Expired else Cancelled)
    case Unwinding(_) => Doomed(Cancelled)
    case Opened => Doomed(Cancelled)
    case Ready => Doomed(Cancelled)
    case _ => Raised
  }

  function AttemptAfterStart(m: Managed, closing: bool, a: StartMove): Attempt {
    match a
    case ChecksClosing => if closing then m.x.Set(Cancelled) else m.x
    case Transitions(due) => m.x.With(m.x.session.Transitioned(WaitingUser, Some(due)).0)
    case Dooms => if m.r.start.Doomed? then m.x.Mark(m.r.start.cause) else m.x
    case _ => m.x
  }

  function ResourcesAfterStart(m: Managed, closing: bool, a: StartMove): Resources
    requires CanStart(m.r, a)
  {
    var r := m.r;
    match a
    case OpenEnds(ok) => r.(open := if ok then Browser else NoBrowser, live := ok)
    case TakesOpen =>
      r.(browser := r.browser || r.open.Browser?,
         start := if r.start.Unwinding? then Doomed(r.start.cause)
                  else if r.open.Browser? then Opened else Doomed(Failed))
    case Interrupted(timeout) => r.(start := Interruption(r.start, timeout))
    case GraceEnds => r.(reaper := Reaping, start := Doomed(r.start.cause))
    case ChecksClosing => r.(start := if closing then Raised else Ready)
    case Transitions(due) =>
      r.(start := if m.x.session.Transitioned(WaitingUser, Some(due)).1 then Arming else Doomed(Failed))
    case Returns => r.(start := if closing then Doomed(Cancelled) else Returned)
    case Dooms => r.(start := Raised)
    case ReaperTakes => r.(reaper := Reaped, browser := r.browser || r.open.Browser?)
  }

  // ----- calls with the token, the timer and shutdown -----

  datatype CallMove =
    | Verify(due: bool, late: bool)     // `late`: due by the time `transition` reads the clock
    | ReadStatus(due: bool)
    | Cancel
    | TimerFires
    | Sweep                             // the first loop of shutdown

  predicate CanCall(r: Resources, closing: bool, u: CallMove) {
    if u.Sweep? then closing else r.start.Returned?
  }

  function AfterVerify(x: Attempt, due: bool, late: bool): Attempt {
    if due && !x.Done() then x.Set(Expired).(overrun := x.overrun || !x.commit.NoCommit?)
    else if x.Done() || !x.op.Idle? || !x.session.status.WaitingUser? then x
    else
      var (y, ok) := x.session.Transitioned(Verifying, Some(late));
      x.With(y).(op := if ok then AwaitVerify else Idle)
  }

  function AfterCall(x: Attempt, u: CallMove): Attempt {
    match u
    case Verify(due, late) => AfterVerify(x, due, late)
    case ReadStatus(due) => if x.commit.NoCommit? && due then x.Mark(Expired) else x
    case Cancel => if x.CommitPending() then x else x.Mark(Cancelled)
    case TimerFires => if x.CommitPending() then x else x.Mark(Expired)
    case Sweep => if x.CommitPending() then x else x.Mark(Cancelled)
  }

  // ----- the verify operation -----

  datatype Verdict = Authenticated | NotAuthenticated | Raises

  datatype OpMove =
    | VerifyEnds(verdict: Verdict, due: bool, late: bool)
    | PersistEnds(ok: bool, due: bool)
    | CommitBegins
    | CommitEnds(ok: bool)
    | Settles
    | OpCancelled
    | OpWinds

  predicate CanOp(m: Managed, o: OpMove) {
    match o
    case VerifyEnds(_, _, _) => m.x.op.AwaitVerify?
    case PersistEnds(_, _) => m.x.op.AwaitPersist?
    case CommitBegins => m.x.op.AwaitLock?
    case CommitEnds(_) => m.x.commit.Running?
    case Settles => m.x.op.AwaitCommit? && !m.x.commit.Running?
    case OpCancelled => m.r.cleanup.AwaitOp? && !m.x.op.Idle?
    case OpWinds => m.x.op.Winding?
  }

  function AfterVerdict(x: Attempt, verdict: Verdict, due: bool, late: bool): Attempt {
    if verdict.Raises? then x.Mark(Failed).(op := Winding)
    else if x.Done() then x.(op := Idle)
    else if due then x.Mark(Expired).(op := Idle)
    else if verdict.NotAuthenticated? then
      x.With(x.session.(authenticated := false).Transitioned(WaitingUser, Some(late)).0).(op := Idle)
    else x.With(x.session.(authenticated := true)).(op := AwaitPersist)
  }

  function AfterSettling(x: Attempt): Attempt {
    if x.commit.Refused? then x.Mark(Failed).(op := Winding)
    else
      var (y, ok) := x.session.Transitioned(Persisted, None);
      var (z, done) := if ok then y.Transitioned(Confirmed, None) else (y, false);
      x.With(z).(commitWon := true, op := if done then Winding else Idle)
  }

  function AfterOp(x: Attempt, o: OpMove): Attempt {
    match o
    case VerifyEnds(verdict, due, late) => AfterVerdict(x, verdict, due, late)
    case PersistEnds(ok, due) =>
      if !ok then x.Mark(Failed).(op := Winding)
      else if x.Done() then x.(op := Idle)
      else if due then x.Mark(Expired).(op := Idle)
      else x.(op := AwaitLock)
    case CommitBegins => if x.Done() then x.(op := Idle) else x.(op := AwaitCommit, commit := Running)
    case CommitEnds(ok) => x.(commit := if ok then Accepted else Refused)
    case Settles => AfterSettling(x)
    case OpCancelled => x.(op := Idle)
    case OpWinds => x.(op := Idle)
  }

  // ----- cleanup -----

  datatype Caller = ByStart | ByReaper | ByCall | ByShutdown

  datatype CleanupMove =
    | Begins(who: Caller)
    | StopsOp
    | Looks
    | BrowserCloses(ok: bool)
    | Records
    | Frees(ok: bool)
    | Ends

  /** Each caller of `_ensure_cleanup` and what it has seen before calling. */
  predicate MayCleanUp(m: Managed, who: Caller) {
    match who
    case ByStart => m.r.start.Raised? && m.r.reaper.NoReaper? && m.x.Done()
    case ByReaper => m.r.reaper.Reaped?
    case ByCall => m.r.start.Returned? && m.x.Done()
    case ByShutdown => m.r.swept && !m.x.CommitPending() && !m.r.reaper.Reaping?
  }

  predicate CanClean(m: Managed, c: CleanupMove) {
    match c
    case Begins(who) =>
      MayCleanUp(m, who) && (m.r.cleanup.NoCleanup? || m.r.cleanup == Ended(false)) && !m.r.leaseReleased
    case StopsOp => m.r.cleanup.Begun?
    case Looks => m.r.cleanup.Looking? || (m.r.cleanup.AwaitOp? && m.x.op.Idle?)
    case BrowserCloses(_) => m.r.cleanup.ClosingBrowser?
    case Records => m.r.cleanup.ClosedBrowser?
    case Frees(_) => m.r.cleanup.Releasing?
    case Ends => m.r.cleanup.Freed?
  }

  /** Cleanup cancels an operation that has not reached the account commit. */
  predicate StopsOperation(x: Attempt) {
    !x.op.Idle? && x.commit.NoCommit? && (x.session.status.Cancelled? || x.session.status.Expired?)
  }

  function ResourcesAfterClean(m: Managed, c: CleanupMove): Resources {
    var r := m.r;
    match c
    case Begins(_) => r.(cleanup := Begun)
    case StopsOp => r.(cleanup := if StopsOperation(m.x) then AwaitOp else Looking)
    case Looks =>
      if r.browserDone then r.(cleanup := Releasing)
      else if r.browser then r.(cleanup := ClosingBrowser)
      else r.(cleanup := ClosedBrowser, early := !r.open.NoBrowser?)
    case BrowserCloses(ok) =>
      if ok then r.(cleanup := ClosedBrowser, live := false, closes := r.closes + 1) else r.(cleanup := Ended(false))
    case Records => r.(browserDone := true, browser := false, cleanup := Releasing)
    case Frees(ok) => r.(cleanup := if ok then Freed else Ended(false))
    case Ends => r.(leaseReleased := true, cleanup := Ended(true))
  }

  /** A failed browser close or lease release overwrites the status, whatever it was. */
  function AttemptAfterClean(x: Attempt, c: CleanupMove): Attempt {
    if c == BrowserCloses(false) || c == Frees(false) then x.Set(Failed) else x
  }

  // ----- all steps of one session -----

  datatype Move = Start(a: StartMove) | Call(u: CallMove) | Operation(o: OpMove) | Clean(c: CleanupMove)

  predicate Can(m: Managed, closing: bool, v: Move) {
    match v
    case Start(a) => CanStart(m.r, a)
    case Call(u) => CanCall(m.r, closing, u)
    case Operation(o) => CanOp(m, o)
    case Clean(c) => CanClean(m, c)
  }

  function Advance(m: Managed, closing: bool, v: Move): Managed
    requires Can(m, closing, v)
  {
    match v
    case Start(a) => m.(x := AttemptAfterStart(m, closing, a), r := ResourcesAfterStart(m, closing, a))
    case Call(u) => m.(x := AfterCall(m.x, u), r := m.r.(swept := m.r.swept || u.Sweep?))
    case Operation(o) => m.(x := AfterOp(m.x, o))
    case Clean(c) => m.(x := AttemptAfterClean(m.x, c), r := ResourcesAfterClean(m, c))
  }

  // ----- what every step keeps -----

  predicate BeforeCommit(op: Op) {
    op.AwaitVerify? || op.AwaitPersist? || op.AwaitLock?
  }

  /** Status, operation and commit agree. */
  predicate CommitOk(x: Attempt) {
    && !x.session.status.Persisted?
    && (x.session.status.Verifying? ==> BeforeCommit(x.op) || x.op.AwaitCommit?)
    && (BeforeCommit(x.op) ==> x.commit.NoCommit? && (x.session.status.Verifying? || x.Done()))
    && (x.op.AwaitPersist? || x.op.AwaitLock? || x.op.AwaitCommit? ==> x.session.authenticated)
    && (x.op.AwaitCommit? ==> !x.commit.NoCommit? && if x.overrun then x.Done() else x.session.status.Verifying?)
    && (!x.commit.NoCommit? && !x.op.AwaitCommit? ==> x.Done() && !x.commit.Running?)
  }

  /** What the first terminal status says about the account commit. */
  predicate OutcomeOk(x: Attempt) {
    && (x.overrun ==> !x.commit.NoCommit? && x.first == Some(Expired))
    && (x.first.Some? <==> x.Done())
    && (x.first == Some(Confirmed) <==> x.commit.Accepted? && !x.op.AwaitCommit? && !x.overrun)
    && (x.session.status.Confirmed? ==>
          x.session.authenticated && x.session.persisted && x.commitWon && x.first == Some(Confirmed))
  }

  /** Cleanup has decided about the browser. */
  predicate Past(r: Resources) {
    r.browserDone || r.cleanup.ClosedBrowser?
  }

  /** The browser is alive exactly until cleanup has decided, unless cleanup looked too early. */
  predicate BrowserOk(r: Resources) {
    && (r.leaseReleased <==> r.cleanup == Ended(true))
    && (r.cleanup.Releasing? || r.cleanup.Freed? || r.leaseReleased ==> r.browserDone)
    && (r.cleanup.ClosingBrowser? ==> r.browser && !r.browserDone)
    && (r.browser ==> r.open.Browser?)
    && (Past(r) ==> !r.cleanup.NoCleanup? && (r.early || !r.open.Pending?))
    && (r.live <==> r.open.Browser? && (Past(r) ==> r.early))
    && (r.early ==> Past(r))
    && (Past(r) && r.open.Browser? && !r.early ==> r.closes > 0)
  }

  predicate BeforeReturn(start: StartPc) {
    start.Opening? || start.Unwinding? || start.Opened? || start.Ready? || start.Arming?
  }

  predicate StartOk(r: Resources, closing: bool) {
    && (r.start.Doomed? || r.start.Unwinding? ==> Terminal(r.start.cause) && !r.start.cause.Confirmed?)
    && (r.start.Opened? || r.start.Ready? || r.start.Arming? || r.start.Returned? ==>
          r.open.Browser? && (r.browser || Past(r)))
    && (BeforeReturn(r.start) ==> r.reaper.NoReaper? && (!r.cleanup.NoCleanup? || r.swept ==> closing))
    && (r.swept ==> closing)
    && (r.start.Returned? ==> r.reaper.NoReaper? && !r.early)
  }

  /** Nothing is verified before `start` returns; nothing is cleaned up after it before a terminal status. */
  predicate LinkOk(m: Managed) {
    && (!m.r.start.Returned? ==>
          && m.x.op.Idle? && m.x.commit.NoCommit?
          && !m.x.session.status.Verifying? && !m.x.session.status.Confirmed?)
    && (m.r.start.Returned? && !m.r.cleanup.NoCleanup? ==> m.x.Done())
    && (m.r.swept ==> m.x.Done() || m.x.CommitPending())
    && (m.r.cleanup.AwaitOp? ==> m.x.commit.NoCommit? && m.x.Done())
  }

  predicate Good(m: Managed, closing: bool) {
    CommitOk(m.x) && OutcomeOk(m.x) && BrowserOk(m.r) && StartOk(m.r, closing) && LinkOk(m)
  }

  lemma StartKeepsGood(m: Managed, closing: bool, a: StartMove)
    requires Good(m, closing) && CanStart(m.r, a)
    ensures Good(Advance(m, closing, Start(a)), closing)
  {
  }

  lemma CallKeepsGood(m: Managed, closing: bool, u: CallMove)
    requires Good(m, closing) && CanCall(m.r, closing, u)
    ensures Good(Advance(m, closing, Call(u)), closing)
  {
  }

  lemma VerdictKeepsAttempt(x: Attempt, verdict: Verdict, due: bool, late: bool)
    requires CommitOk(x) && OutcomeOk(x) && x.op.AwaitVerify?
    ensures CommitOk(AfterVerdict(x, verdict, due, late)) && OutcomeOk(AfterVerdict(x, verdict, due, late))
  {
  }

  lemma OpKeepsAttempt(m: Managed, o: OpMove)
    requires CommitOk(m.x) && OutcomeOk(m.x) && LinkOk(m) && CanOp(m, o)
    ensures CommitOk(AfterOp(m.x, o)) && OutcomeOk(AfterOp(m.x, o))
  {
    if o.VerifyEnds? {
      VerdictKeepsAttempt(m.x, o.verdict, o.due, o.late);
    }
  }

  lemma OpKeepsLink(m: Managed, o: OpMove)
    requires CommitOk(m.x) && LinkOk(m) && CanOp(m, o)
    ensures LinkOk(m.(x := AfterOp(m.x, o)))
  {
  }

  lemma OpKeepsGood(m: Managed, closing: bool, o: OpMove)
    requires Good(m, closing) && CanOp(m, o)
    ensures Good(Advance(m, closing, Operation(o)), closing)
  {
    OpKeepsAttempt(m, o);
    OpKeepsLink(m, o);
  }

  lemma CleanKeepsGood(m: Managed, closing: bool, c: CleanupMove)
    requires Good(m, closing) && CanClean(m, c)
    ensures Good(Advance(m, closing, Clean(c)), closing)
  {
  }

  lemma AdvanceKeepsGood(m: Managed, closing: bool, v: Move)
    requires Good(m, closing) && Can(m, closing, v)
    ensures Good(Advance(m, closing, v), closing)
  {
    match v {
      case Start(a) => StartKeepsGood(m, closing, a);
      case Call(u) => CallKeepsGood(m, closing, u);
      case Operation(o) => OpKeepsGood(m, closing, o);
      case Clean(c) => CleanKeepsGood(m, closing, c);
    }
  }

  /** A terminal status may change value, but never back to a status that is not terminal. */
  lemma TerminalIsClosed(m: Managed, closing: bool, v: Move)
    requires Good(m, closing) && Can(m, closing, v) && m.x.Done()
    ensures Advance(m, closing, v).x.Done() && Advance(m, closing, v).x.first == m.x.first
  {
  }

  /** Between the creation of the commit task and its settlement, only a due `verify` moves the status. */
  lemma CommitPoint(m: Managed, closing: bool, v: Move)
    requires Good(m, closing) && Can(m, closing, v)
    requires m.x.session.status.Verifying? && !m.x.commit.NoCommit?
    ensures Advance(m, closing, v).x.session.status.Verifying? <==>
      v != Operation(Settles) && !(v.Call? && v.u.Verify? && v.u.due)
    ensures v == Operation(Settles) ==>
      Advance(m, closing, v).x.session.status == if m.x.commit.Accepted? then Confirmed else Failed
  {
  }

  /** A move the table allows, or one of the four shortcuts the code takes past it. */
  predicate Follows(p: Status, q: Status, aborting: bool) {
    || p == q
    || Allowed(p, q)
    || (p.Launching? && q.Expired?)
    || (p.Verifying? && q.Confirmed? && Allowed(p, Persisted) && Allowed(Persisted, q))
    || (Terminal(p) && (q.Failed? || (q.Cancelled? && aborting)))
  }

  lemma OpFollowsTheTable(m: Managed, o: OpMove)
    requires CommitOk(m.x) && CanOp(m, o)
    ensures Follows(m.x.session.status, AfterOp(m.x, o).session.status, false)
  {
  }

  /** Every status change is in the table, except expiry while launching and the overwriting of a terminal status. */
  lemma StatusFollowsTheTable(m: Managed, closing: bool, v: Move)
    requires Good(m, closing) && Can(m, closing, v)
    ensures Follows(m.x.session.status, Advance(m, closing, v).x.session.status, closing && !m.r.start.Returned?)
  {
    if v.Operation? {
      OpFollowsTheTable(m, v.o);
    } else if v.Call? {
      assert Follows(m.x.session.status, AfterCall(m.x, v.u).session.status, false);
    }
  }
}
