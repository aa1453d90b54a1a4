/**
 * Jobs, browsers, leases and quarantine recovery, interleaved at every await.
 *
 * A step is what one coroutine does between two suspension points. Leases move by
 * the steps of LeaseProtocol; a browser release is one step that may or may not
 * have closed the browser, and may raise either way.
 */
module JobProtocol {
  import opened Wrappers
  import opened PipelineConcurrency
  import LP = LeaseProtocol

  type LeaseId = LP.LeaseId
  type JobId = nat
  type SessionId = nat
  type RecoveryId = nat

  /** `under` records the lease held when the browser was opened; no step reads it. */
  datatype Session = Session(account: Account, under: LeaseId, released: bool)

  datatype Pc =
    | Ready                                        // task created, not yet run
    | Opening                                      // provider.acquire in flight
    | Working                                      // inside the stage loop
    | CleanBrowser(final: bool)                    // release_resources: browser part
    | CleanLease(final: bool, failed: bool)        // release_resources: before lease.release
    | AwaitRelease(final: bool, failed: bool)      // inside lease.release
    | CleanQuarantine(final: bool, failed: bool)   // release_resources: before lease.quarantine
    | AwaitQuarantine                              // inside lease.quarantine
    | Review                                       // waiting for a human, nothing held
    | Reacquire                                    // polling try_acquire
    | Reopen(target: Account, local: LeaseId)      // provider.acquire under a reacquired lease
    | GiveBack(local: LeaseId)                     // about to release an unowned lease
    | AwaitGiveBack(local: LeaseId)                // inside that release
    | Dead

  /** The nonlocals of run_job: account, owned_lease, browser_session. */
  datatype Job = Job(account: Account, lease: Option<LeaseId>, browser: Option<SessionId>, pc: Pc) {
    predicate Holds(l: LeaseId) {
      || lease == Some(l)
      || ((pc.Reopen? || pc.GiveBack? || pc.AwaitGiveBack?) && pc.local == l)
    }

    /** release_resources reaches its quarantine branch. */
    predicate MustQuarantine() {
      pc.CleanQuarantine? && pc.final && pc.failed && browser.Some? && lease.Some?
    }
  }

  datatype Resources = Resources(session: SessionId, lease: LeaseId)

  datatype RecoveryPc = Closing | Freeing | AwaitFree | Over

  datatype Recovery = Recovery(account: Account, entry: Resources, pc: RecoveryPc)

  datatype State = State(
    ls: LP.State,
    sessions: map<SessionId, Session>,
    jobs: map<JobId, Job>,
    table: map<Account, Resources>,
    recoveries: map<RecoveryId, Recovery>)

  /** What a job's coroutine does between two suspension points. */
  datatype Move =
    | NeverStarts                                   // task cancelled before its first step
    | Start
    | AcquireLease(l: LeaseId)                      // the blocking acquire gets its slot
    | Opens(b: SessionId)
    | Abort                                         // any exception: go to the finally block
    | ReleaseForReview
    | BrowserReleaseReturns(closed: bool, raised: bool)
    | NoBrowser
    | CallLeaseRelease
    | SkipLeaseRelease                              // nothing to release, or cancelled first
    | LeaseReleaseReturns
    | CallQuarantine
    | RecordQuarantine
    | EndCleanup(cancelled: bool)
    | ReviewDone
    | ReacquireLease(l: LeaseId, a: Account)
    | ReopenFails
    | Reopens(b: SessionId, cancelling: bool)
    | CallGiveBack
    | GiveBackEnds

  datatype RecoveryMove = Closes(closed: bool, raised: bool) | Frees | GivesUp | Forgets

  datatype Event =
    | Inner(step: LP.Event)                         // a manager block or its return
    | Dispatch(j: JobId, l: LeaseId, a: Account, claimed: bool)
    | Submit(j: JobId, a: Account)                  // run_job without a lease
    | JobStep(j: JobId, move: Move)
    | StartRecovery(r: RecoveryId, a: Account)
    | RecoveryStep(r: RecoveryId, action: RecoveryMove)

  function Initial(limits: map<string, int>): State {
    State(LP.Initial(limits), map[], map[], map[], map[])
  }

  predicate IsInner(e: LP.Event) {
    e.ManagerRelease? || e.ReleaseReturns? || e.ManagerQuarantine? || e.QuarantineReturns?
  }

  type Leases = map<LeaseId, Lease>

  predicate LockFree(leases: Leases, l: LeaseId) {
    l in leases && leases[l].phase == Idle
  }

  predicate MayPark(leases: Leases, job: Job) {
    || job.MustQuarantine()
    || (job.pc.AwaitQuarantine? && job.lease.Some? && job.browser.Some? && LockFree(leases, job.lease.value))
  }

  predicate LocalEnabled(leases: Leases, job: Job, m: Move) {
    match m
    case NeverStarts => job.pc.Ready?
    case Start => job.pc.Ready? && job.lease.Some?
    case Abort =>
      job.pc.Ready? || job.pc.Opening? || job.pc.Working? || job.pc.Review? || job.pc.Reacquire? || job.pc.Reopen?
    case ReleaseForReview => job.pc.Working?
    case NoBrowser => job.pc.CleanBrowser? && job.browser.None?
    case CallLeaseRelease =>
      job.pc.CleanLease? && job.browser.None? && job.lease.Some? && LockFree(leases, job.lease.value)
    case SkipLeaseRelease => job.pc.CleanLease?
    case LeaseReleaseReturns => job.pc.AwaitRelease? && job.lease.Some? && LockFree(leases, job.lease.value)
    case CallQuarantine => job.MustQuarantine() && LockFree(leases, job.lease.value)
    case RecordQuarantine => MayPark(leases, job)
    case EndCleanup(cancelled) =>
      job.pc.CleanQuarantine? && !job.MustQuarantine() && (job.browser.None? && job.lease.Some? ==> cancelled)
    case ReviewDone => job.pc.Review?
    case ReopenFails => job.pc.Reopen?
    case CallGiveBack => job.pc.GiveBack? && LockFree(leases, job.pc.local)
    case GiveBackEnds => job.pc.GiveBack? || (job.pc.AwaitGiveBack? && LockFree(leases, job.pc.local))
    case _ => false
  }

  ghost predicate JobEnabled(s: State, job: Job, m: Move) {
    match m
    case AcquireLease(l) => job.pc.Ready? && job.lease.None? && LP.Enabled(s.ls, LP.Grant(l, job.account))
    case ReacquireLease(l, a) => job.pc.Reacquire? && LP.Enabled(s.ls, LP.Grant(l, a))
    case Opens(b) => job.pc.Opening? && job.lease.Some? && b !in s.sessions
    case Reopens(b, _) => job.pc.Reopen? && b !in s.sessions
    case BrowserReleaseReturns(_, _) => job.pc.CleanBrowser? && job.browser.Some? && job.browser.value in s.sessions
    case _ => LocalEnabled(s.ls.leases, job, m)
  }

  ghost predicate RecoveryEnabled(s: State, x: Recovery, m: RecoveryMove) {
    match m
    case Closes(_, _) => x.pc.Closing? && x.entry.session in s.sessions
    case Frees => x.pc.Freeing? && LockFree(s.ls.leases, x.entry.lease)
    case GivesUp => x.pc.Freeing?
    case Forgets => x.pc.AwaitFree? && LockFree(s.ls.leases, x.entry.lease)
  }

  ghost predicate Enabled(s: State, e: Event) {
    match e
    case Inner(step) => IsInner(step) && LP.Enabled(s.ls, step)
    case Dispatch(j, l, a, _) => j !in s.jobs && LP.Enabled(s.ls, LP.Grant(l, a))
    case Submit(j, _) => j !in s.jobs
    case JobStep(j, m) => j in s.jobs && JobEnabled(s, s.jobs[j], m)
    case StartRecovery(r, a) => r !in s.recoveries && a in s.table
    case RecoveryStep(r, m) => r in s.recoveries && RecoveryEnabled(s, s.recoveries[r], m)
  }

  /** provider.release: the flag is only ever set, never cleared. */
  function CloseSession(x: Session, closed: bool): Session {
    x.(released := x.released || closed)
  }

  /** The job after a move that neither grants a lease nor opens or closes a browser. */
  function LocalNext(leases: Leases, job: Job, m: Move): Job
    requires LocalEnabled(leases, job, m)
  {
    match m
    case NeverStarts => Job(job.account, None, None, Dead)
    case Start => job.(pc := Opening)
    case Abort => job.(pc := CleanBrowser(true))
    case ReleaseForReview => job.(pc := CleanBrowser(false))
    case NoBrowser => job.(pc := CleanLease(job.pc.final, false))
    case CallLeaseRelease => job.(pc := AwaitRelease(job.pc.final, job.pc.failed))
    case SkipLeaseRelease => job.(pc := CleanQuarantine(job.pc.final, job.pc.failed))
    case LeaseReleaseReturns =>
      job.(lease := if leases[job.lease.value].released then None else job.lease,
           pc := CleanQuarantine(job.pc.final, job.pc.failed))
    case CallQuarantine => job.(pc := AwaitQuarantine)
    case RecordQuarantine => Job(job.account, None, None, Dead)
    case EndCleanup(cancelled) =>
      if job.pc.final then Job(job.account, None, None, Dead)
      else job.(pc := if job.pc.failed || cancelled then CleanBrowser(true) else Review)
    case ReviewDone => job.(pc := Reacquire)
    case ReopenFails => job.(pc := GiveBack(job.pc.local))
    case CallGiveBack => job.(pc := AwaitGiveBack(job.pc.local))
    case GiveBackEnds => job.(pc := CleanBrowser(true))
  }

  function SetJob(s: State, j: JobId, job: Job): State {
    s.(jobs := s.jobs[j := job])
  }

  function Lend(s: State, e: LP.Event): State
    requires !e.Grant? ==> e.l in s.ls.leases
  {
    s.(ls := LP.Next(s.ls, e))
  }

  function Local(s: State, j: JobId, job: Job, m: Move): State
    requires LocalEnabled(s.ls.leases, job, m)
  {
    SetJob(s, j, LocalNext(s.ls.leases, job, m))
  }

  /** The browser reference is dropped only once the session says it was released. */
  function AfterBrowserRelease(s: State, j: JobId, job: Job, closed: bool, raised: bool): State
    requires job.pc.CleanBrowser? && job.browser.Some? && job.browser.value in s.sessions
  {
    var x := CloseSession(s.sessions[job.browser.value], closed);
    SetJob(s.(sessions := s.sessions[job.browser.value := x]), j,
           job.(browser := if x.released then None else job.browser,
                pc := CleanLease(job.pc.final, raised || !x.released)))
  }

  function AfterParking(s: State, j: JobId, job: Job): State
    requires MayPark(s.ls.leases, job)
  {
    SetJob(s, j, Job(job.account, None, None, Dead))
      .(table := s.table[job.account := Resources(job.browser.value, job.lease.value)])
  }

  ghost function JobNext(s: State, j: JobId, job: Job, m: Move): State
    requires JobEnabled(s, job, m)
  {
    match m
    case AcquireLease(l) => SetJob(Lend(s, LP.Grant(l, job.account)), j, job.(lease := Some(l), pc := Opening))
    case ReacquireLease(l, a) => SetJob(Lend(s, LP.Grant(l, a)), j, job.(pc := Reopen(a, l)))
    case Opens(b) =>
      SetJob(s.(sessions := s.sessions[b := Session(job.account, job.lease.value, false)]), j,
             job.(browser := Some(b), pc := Working))
    case Reopens(b, cancelling) =>
      SetJob(s.(sessions := s.sessions[b := Session(job.pc.target, job.pc.local, false)]), j,
             Job(job.pc.target, Some(job.pc.local), Some(b), if cancelling then CleanBrowser(true) else Working))
    case BrowserReleaseReturns(closed, raised) => AfterBrowserRelease(s, j, job, closed, raised)
    case CallLeaseRelease => Lend(Local(s, j, job, m), LP.CallRelease(job.lease.value))
    case CallGiveBack => Lend(Local(s, j, job, m), LP.CallRelease(job.pc.local))
    case CallQuarantine => Lend(Local(s, j, job, m), LP.CallQuarantine(job.lease.value))
    case RecordQuarantine => AfterParking(s, j, job)
    case _ => Local(s, j, job, m)
  }

  ghost function RecoveryNext(s: State, r: RecoveryId, x: Recovery, m: RecoveryMove): State
    requires RecoveryEnabled(s, x, m)
  {
    match m
    case Closes(closed, raised) =>
      var b := CloseSession(s.sessions[x.entry.session], closed);
      s.(sessions := s.sessions[x.entry.session := b],
         recoveries := s.recoveries[r := x.(pc := if raised || !b.released then Over else Freeing)])
    case Frees =>
      Lend(s, LP.CallRelease(x.entry.lease)).(recoveries := s.recoveries[r := x.(pc := AwaitFree)])
    case GivesUp => s.(recoveries := s.recoveries[r := x.(pc := Over)])
    case Forgets =>
      s.(table := if x.account in s.table && s.table[x.account] == x.entry then s.table - {x.account} else s.table,
         recoveries := s.recoveries[r := x.(pc := Over)])
  }

  ghost function Next(s: State, e: Event): State
    requires Enabled(s, e)
  {
    match e
    case Inner(step) => Lend(s, step)
    case Dispatch(j, l, a, claimed) =>
      SetJob(Lend(s, LP.Grant(l, a)), j,
             if claimed then Job(a, Some(l), None, Ready) else Job(a, None, None, GiveBack(l)))
    case Submit(j, a) => SetJob(s, j, Job(a, None, None, Ready))
    case JobStep(j, m) => JobNext(s, j, s.jobs[j], m)
    case StartRecovery(r, a) => s.(recoveries := s.recoveries[r := Recovery(a, s.table[a], Closing)])
    case RecoveryStep(r, m) => RecoveryNext(s, r, s.recoveries[r], m)
  }

  type Sessions = map<SessionId, Session>

  /** Held by someone and not being released. */
  predicate Quiet(leases: Leases, l: LeaseId) {
    l in leases && leases[l].phase == Idle && !leases[l].released
  }

  predicate LeaseFor(leases: Leases, l: LeaseId, a: Account) {
    l in leases && leases[l].account == a
  }

  predicate SessionFor(sessions: Sessions, b: SessionId, l: LeaseId, a: Account) {
    b in sessions && sessions[b].under == l && sessions[b].account == a
  }

  predicate JobOk(leases: Leases, sessions: Sessions, job: Job) {
    && (job.lease.Some? ==> LeaseFor(leases, job.lease.value, job.account))
    && (job.browser.Some? ==> job.lease.Some? && SessionFor(sessions, job.browser.value, job.lease.value, job.account))
    && (job.pc.Ready? || job.pc.Opening? || job.pc.AwaitRelease? ==> job.browser.None?)
    && (job.pc.Opening? || job.pc.AwaitRelease? || job.pc.AwaitQuarantine? ==> job.lease.Some?)
    && (job.pc.Working? || job.pc.AwaitQuarantine? ==> job.browser.Some?)
    && (job.pc.CleanLease? || job.pc.CleanQuarantine? ==> job.browser.Some? ==> job.pc.failed)
    && (job.pc.Review? || job.pc.Reacquire? || job.pc.Reopen? || job.pc.GiveBack? || job.pc.AwaitGiveBack?
        || job.pc.Dead?
        ==> job.lease.None? && job.browser.None?)
    && (job.pc.Reopen? ==> LeaseFor(leases, job.pc.local, job.pc.target) && Quiet(leases, job.pc.local))
    && (job.pc.GiveBack? || job.pc.AwaitGiveBack? ==> job.pc.local in leases)
    && (job.lease.Some? && job.pc.AwaitQuarantine? ==>
          && !leases[job.lease.value].released
          && !leases[job.lease.value].phase.Releasing? && !leases[job.lease.value].phase.Released?)
    && (job.lease.Some? && !job.pc.AwaitQuarantine? && !job.pc.AwaitRelease? ==> Quiet(leases, job.lease.value))
  }

  /** A session and its lease parked together: the lease stays put until the browser is closed. */
  predicate EntryOk(leases: Leases, sessions: Sessions, a: Account, entry: Resources) {
    && LeaseFor(leases, entry.lease, a)
    && SessionFor(sessions, entry.session, entry.lease, a)
    && (sessions[entry.session].released || Quiet(leases, entry.lease))
  }

  predicate RecoveryOk(leases: Leases, sessions: Sessions, x: Recovery) {
    && EntryOk(leases, sessions, x.account, x.entry)
    && (x.pc.Freeing? || x.pc.AwaitFree? ==> sessions[x.entry.session].released)
  }

  predicate HeldByJob(s: State, j: JobId, b: SessionId) {
    j in s.jobs && s.jobs[j].browser == Some(b)
  }

  predicate Parked(s: State, b: SessionId) {
    b in s.sessions && s.sessions[b].account in s.table && s.table[s.sessions[b].account].session == b
  }

  predicate Open(s: State, b: SessionId) {
    b in s.sessions && !s.sessions[b].released
  }

  ghost predicate PartsOk(s: State) {
    && (forall j <- s.jobs :: JobOk(s.ls.leases, s.sessions, s.jobs[j]))
    && (forall a <- s.table :: EntryOk(s.ls.leases, s.sessions, a, s.table[a]))
    && (forall r <- s.recoveries :: RecoveryOk(s.ls.leases, s.sessions, s.recoveries[r]))
  }

  predicate Uses(s: State, j: JobId, l: LeaseId) {
    j in s.jobs && s.jobs[j].Holds(l)
  }

  /** Each lease is used by one job, or is parked, never both. */
  ghost predicate Custody(s: State) {
    && (forall i, j, l | Uses(s, i, l) && Uses(s, j, l) :: i == j)
    && (forall a <- s.table, j :: !Uses(s, j, s.table[a].lease))
    && (forall r <- s.recoveries, j :: !Uses(s, j, s.recoveries[r].entry.lease))
  }

  ghost predicate SessionsOk(s: State) {
    && (forall b | Open(s, b) :: Parked(s, b) || exists j :: HeldByJob(s, j, b))
    && (forall b, c | Open(s, b) && Open(s, c) && s.sessions[b].under == s.sessions[c].under :: b == c)
  }

  /** Copies of a parked entry agree. */
  ghost predicate EntriesAgree(s: State) {
    && (forall a <- s.table, r <- s.recoveries | s.table[a].lease == s.recoveries[r].entry.lease ::
          s.table[a] == s.recoveries[r].entry)
    && (forall q <- s.recoveries, r <- s.recoveries | s.recoveries[q].entry.lease == s.recoveries[r].entry.lease ::
          s.recoveries[q].entry == s.recoveries[r].entry)
  }

  ghost predicate Inv(s: State) {
    LP.Inv(s.ls) && PartsOk(s) && Custody(s) && EntriesAgree(s) && SessionsOk(s)
  }

  /** Sessions are only added or closed. */
  ghost predicate Grow(before: Sessions, after: Sessions) {
    forall b <- before :: b in after && after[b].under == before[b].under && after[b].account == before[b].account
                       && (before[b].released ==> after[b].released)
  }

  predicate SameExcept(before: Leases, after: Leases, l: LeaseId) {
    forall k <- before | k != l :: k in after && after[k] == before[k]
  }

  lemma JobFrame(s: State, leases: Leases, sessions: Sessions, l: LeaseId, job: Job)
    requires JobOk(s.ls.leases, s.sessions, job) && SameExcept(s.ls.leases, leases, l) && Grow(s.sessions, sessions)
    requires !job.Holds(l) || leases == s.ls.leases
    ensures JobOk(leases, sessions, job)
  {
  }

  lemma EntryFrame(s: State, leases: Leases, sessions: Sessions, l: LeaseId, a: Account, entry: Resources)
    requires EntryOk(s.ls.leases, s.sessions, a, entry)
    requires SameExcept(s.ls.leases, leases, l) && Grow(s.sessions, sessions)
    requires l != entry.lease || leases == s.ls.leases
    ensures EntryOk(leases, sessions, a, entry)
  {
  }

  /** One job moved, together with at most one lease: its own, or a new one. */
  ghost predicate JobMoves(s: State, t: State, j: JobId, l: LeaseId) {
    && t.table == s.table && t.recoveries == s.recoveries && Grow(s.sessions, t.sessions)
    && j in t.jobs && t.jobs == s.jobs[j := t.jobs[j]]
    && (forall k | Uses(t, j, k) :: Uses(s, j, k) || (k == l && l !in s.ls.leases))
    && SameExcept(s.ls.leases, t.ls.leases, l)
    && (l in s.ls.leases ==> t.ls.leases == s.ls.leases || Uses(s, j, l))
  }

  lemma UsedLeasesExist(s: State, j: JobId, l: LeaseId)
    requires PartsOk(s) && Uses(s, j, l)
    ensures l in s.ls.leases
  {
    assert JobOk(s.ls.leases, s.sessions, s.jobs[j]);
  }

  lemma JobMovesKeepsCustody(s: State, t: State, j: JobId, l: LeaseId)
    requires PartsOk(s) && Custody(s) && JobMoves(s, t, j, l)
    ensures Custody(t)
  {
    forall i, k | Uses(s, i, k) ensures k in s.ls.leases {
      UsedLeasesExist(s, i, k);
    }
    assert forall i, k | i != j :: Uses(t, i, k) <==> Uses(s, i, k);
    forall a <- t.table, i: JobId ensures !Uses(t, i, t.table[a].lease) {
      assert EntryOk(s.ls.leases, s.sessions, a, s.table[a]);
    }
    forall r <- t.recoveries, i: JobId ensures !Uses(t, i, t.recoveries[r].entry.lease) {
      assert RecoveryOk(s.ls.leases, s.sessions, s.recoveries[r]);
    }
  }

  lemma JobMovesKeepsParts(s: State, t: State, j: JobId, l: LeaseId)
    requires PartsOk(s) && Custody(s) && JobMoves(s, t, j, l)
    requires JobOk(t.ls.leases, t.sessions, t.jobs[j])
    ensures PartsOk(t)
  {
    forall i <- t.jobs ensures JobOk(t.ls.leases, t.sessions, t.jobs[i]) {
      if i != j {
        if s.jobs[i].Holds(l) {
          assert Uses(s, i, l);
          UsedLeasesExist(s, i, l);
        }
        JobFrame(s, t.ls.leases, t.sessions, l, s.jobs[i]);
      }
    }
    forall a <- t.table ensures EntryOk(t.ls.leases, t.sessions, a, t.table[a]) {
      EntryFrame(s, t.ls.leases, t.sessions, l, a, t.table[a]);
    }
    forall r <- t.recoveries ensures RecoveryOk(t.ls.leases, t.sessions, t.recoveries[r]) {
      EntryFrame(s, t.ls.leases, t.sessions, l, t.recoveries[r].account, t.recoveries[r].entry);
    }
  }

  /** Open sessions stay tracked when no session, browser reference or entry changes. */
  lemma SameTracking(s: State, t: State, j: JobId)
    requires SessionsOk(s) && t.sessions == s.sessions && t.table == s.table
    requires j in t.jobs && t.jobs == s.jobs[j := t.jobs[j]]
    requires t.jobs[j].browser == if j in s.jobs then s.jobs[j].browser else None
    ensures SessionsOk(t)
  {
    forall b | Open(t, b) ensures Parked(t, b) || exists i :: HeldByJob(t, i, b) {
      assert Open(s, b);
      if !Parked(s, b) {
        var i :| HeldByJob(s, i, b);
        assert HeldByJob(t, i, b);
      }
    }
    assert forall b :: Open(t, b) ==> Open(s, b);
  }

  lemma JobMovesKeepsInv(s: State, t: State, j: JobId, l: LeaseId)
    requires Inv(s) && JobMoves(s, t, j, l) && LP.Inv(t.ls) && t.sessions == s.sessions
    requires JobOk(t.ls.leases, t.sessions, t.jobs[j])
    requires t.jobs[j].browser == if j in s.jobs then s.jobs[j].browser else None
    ensures Inv(t)
  {
    JobMovesKeepsCustody(s, t, j, l);
    JobMovesKeepsParts(s, t, j, l);
    SameTracking(s, t, j);
  }

  /** A local move keeps its job consistent and lets it hold no more than before. */
  lemma LocalMove(leases: Leases, sessions: Sessions, job: Job, m: Move)
    requires JobOk(leases, sessions, job) && LocalEnabled(leases, job, m)
    requires !m.CallLeaseRelease? && !m.CallQuarantine? && !m.CallGiveBack?
    ensures var next := LocalNext(leases, job, m);
            && JobOk(leases, sessions, next)
            && (!m.RecordQuarantine? ==> next.browser == job.browser)
            && forall k: LeaseId :: next.Holds(k) ==> job.Holds(k)
  {
  }

  lemma LocalStepKeepsInv(s: State, j: JobId, m: Move)
    requires Inv(s) && j in s.jobs && LocalEnabled(s.ls.leases, s.jobs[j], m)
    requires !m.CallLeaseRelease? && !m.CallQuarantine? && !m.CallGiveBack? && !m.RecordQuarantine?
    ensures Inv(Local(s, j, s.jobs[j], m))
  {
    var t := Local(s, j, s.jobs[j], m);
    LocalMove(s.ls.leases, s.sessions, s.jobs[j], m);
    assert forall k | Uses(t, j, k) :: Uses(s, j, k);
    JobMovesKeepsInv(s, t, j, 0);
  }

  /** The lease a call move works on, and the lease after the call. */
  function CallTarget(job: Job, m: Move): LeaseId
    requires if m.CallGiveBack? then job.pc.GiveBack? else job.lease.Some?
  {
    if m.CallGiveBack? then job.pc.local else job.lease.value
  }

  lemma CallMove(leases: Leases, sessions: Sessions, job: Job, m: Move, x: Lease)
    requires JobOk(leases, sessions, job) && LocalEnabled(leases, job, m)
    requires m.CallLeaseRelease? || m.CallQuarantine? || m.CallGiveBack?
    requires x == if m.CallQuarantine? then leases[CallTarget(job, m)].CallQuarantine()
                  else leases[CallTarget(job, m)].CallRelease()
    ensures var next := LocalNext(leases, job, m); var l := CallTarget(job, m);
            && JobOk(leases[l := x], sessions, next)
            && next.browser == job.browser && job.Holds(l)
            && forall k: LeaseId :: next.Holds(k) ==> job.Holds(k)
  {
  }

  lemma CallChangesOneLease(ls: LP.State, e: LP.Event)
    requires LP.Inv(ls) && (e.CallRelease? || e.CallQuarantine?) && LP.Enabled(ls, e)
    ensures LP.Inv(LP.Next(ls, e)) && SameExcept(ls.leases, LP.Next(ls, e).leases, e.l)
  {
    LP.StepKeepsInv(ls, e);
  }

  /** A job whose lease is called keeps hold of no other. */
  lemma CallKeepsInv(s: State, t: State, j: JobId, l: LeaseId)
    requires Inv(s) && Uses(s, j, l) && LP.Inv(t.ls) && SameExcept(s.ls.leases, t.ls.leases, l)
    requires j in t.jobs && t == s.(ls := t.ls, jobs := s.jobs[j := t.jobs[j]])
    requires JobOk(t.ls.leases, t.sessions, t.jobs[j]) && t.jobs[j].browser == s.jobs[j].browser
    requires forall k: LeaseId :: t.jobs[j].Holds(k) ==> s.jobs[j].Holds(k)
    ensures Inv(t)
  {
    assert forall k | Uses(t, j, k) :: Uses(s, j, k);
    JobMovesKeepsInv(s, t, j, l);
  }

  lemma CallStepKeepsInv(s: State, t: State, j: JobId, m: Move, e: LP.Event)
    requires Inv(s) && j in s.jobs && LocalEnabled(s.ls.leases, s.jobs[j], m)
    requires m.CallLeaseRelease? || m.CallQuarantine? || m.CallGiveBack?
    requires var l := CallTarget(s.jobs[j], m);
             e == if m.CallQuarantine? then LP.CallQuarantine(l) else LP.CallRelease(l)
    requires t == Lend(Local(s, j, s.jobs[j], m), e)
    ensures Inv(t)
  {
    assert JobOk(s.ls.leases, s.sessions, s.jobs[j]);
    CallChangesOneLease(s.ls, e);
    CallMove(s.ls.leases, s.sessions, s.jobs[j], m, t.ls.leases[e.l]);
    assert Uses(s, j, e.l);
    CallKeepsInv(s, t, j, e.l);
  }

  lemma GrantStepKeepsInv(s: State, t: State, j: JobId, l: LeaseId, a: Account, job: Job)
    requires Inv(s) && LP.Enabled(s.ls, LP.Grant(l, a)) && t == SetJob(Lend(s, LP.Grant(l, a)), j, job)
    requires JobOk(t.ls.leases, t.sessions, job)
    requires j in s.jobs ==> job.browser == s.jobs[j].browser && s.jobs[j].lease.None? && !s.jobs[j].pc.GiveBack?
    requires j !in s.jobs ==> job.browser.None?
    requires forall k: LeaseId :: job.Holds(k) ==> k == l
    ensures Inv(t)
  {
    LP.StepKeepsInv(s.ls, LP.Grant(l, a));
    JobMovesKeepsInv(s, t, j, l);
  }

  lemma InnerKeepsJob(ls: LP.State, sessions: Sessions, job: Job, e: LP.Event)
    requires JobOk(ls.leases, sessions, job) && IsInner(e) && LP.Enabled(ls, e)
    ensures JobOk(LP.Next(ls, e).leases, sessions, job)
  {
  }

  lemma InnerKeepsEntry(ls: LP.State, sessions: Sessions, a: Account, entry: Resources, e: LP.Event)
    requires EntryOk(ls.leases, sessions, a, entry) && IsInner(e) && LP.Enabled(ls, e)
    ensures EntryOk(LP.Next(ls, e).leases, sessions, a, entry)
  {
  }

  lemma InnerKeepsParts(s: State, e: LP.Event)
    requires PartsOk(s) && IsInner(e) && LP.Enabled(s.ls, e)
    ensures PartsOk(Lend(s, e))
  {
    var t := Lend(s, e);
    forall j <- t.jobs ensures JobOk(t.ls.leases, t.sessions, t.jobs[j]) {
      InnerKeepsJob(s.ls, s.sessions, s.jobs[j], e);
    }
    forall a <- t.table ensures EntryOk(t.ls.leases, t.sessions, a, t.table[a]) {
      InnerKeepsEntry(s.ls, s.sessions, a, s.table[a], e);
    }
    forall r <- t.recoveries ensures RecoveryOk(t.ls.leases, t.sessions, t.recoveries[r]) {
      InnerKeepsEntry(s.ls, s.sessions, s.recoveries[r].account, s.recoveries[r].entry, e);
    }
  }

  /** Custody and session tracking do not read the leases. */
  lemma OnlyLeasesChange(s: State, t: State)
    requires Custody(s) && SessionsOk(s) && t == s.(ls := t.ls)
    ensures Custody(t) && SessionsOk(t)
  {
    assert forall j, l :: Uses(t, j, l) == Uses(s, j, l);
    assert forall j, b :: HeldByJob(t, j, b) == HeldByJob(s, j, b);
    assert forall b :: Open(t, b) == Open(s, b) && Parked(t, b) == Parked(s, b);
  }

  lemma InnerStepKeepsInv(s: State, e: LP.Event)
    requires Inv(s) && IsInner(e) && LP.Enabled(s.ls, e)
    ensures Inv(Lend(s, e))
  {
    LP.StepKeepsInv(s.ls, e);
    InnerKeepsParts(s, e);
    OnlyLeasesChange(s, Lend(s, e));
  }

  /** A lease some job is about to open a browser under carries no open session. */
  lemma NoOpenSessionUnder(s: State, j: JobId, l: LeaseId, b: SessionId)
    requires Inv(s) && Uses(s, j, l) && s.jobs[j].browser.None? && Open(s, b)
    ensures s.sessions[b].under != l
  {
    if Parked(s, b) {
      var a := s.sessions[b].account;
      assert EntryOk(s.ls.leases, s.sessions, a, s.table[a]);
    } else {
      var i :| HeldByJob(s, i, b);
      assert JobOk(s.ls.leases, s.sessions, s.jobs[i]);
      assert Uses(s, i, s.sessions[b].under);
    }
  }

  /** Opening the first browser and reopening one after a review. */
  lemma OpenStepKeepsInv(s: State, t: State, j: JobId, l: LeaseId, b: SessionId, job: Job)
    requires Inv(s) && Uses(s, j, l) && s.jobs[j].browser.None? && b !in s.sessions
    requires job.browser == Some(b) && job.lease == Some(l)
    requires t == SetJob(s.(sessions := s.sessions[b := Session(job.account, l, false)]), j, job)
    requires JobOk(t.ls.leases, t.sessions, job) && !job.pc.Reopen? && !job.pc.GiveBack? && !job.pc.AwaitGiveBack?
    ensures Inv(t)
  {
    assert forall k | Uses(t, j, k) :: Uses(s, j, k);
    JobMovesKeepsCustody(s, t, j, l);
    JobMovesKeepsParts(s, t, j, l);
    forall c | Open(t, c) ensures Parked(t, c) || exists i :: HeldByJob(t, i, c) {
      if c == b {
        assert HeldByJob(t, j, b);
      } else {
        assert Open(s, c);
        if !Parked(s, c) {
          var i :| HeldByJob(s, i, c);
          assert HeldByJob(t, i, c);
        }
      }
    }
    forall c | Open(s, c) ensures s.sessions[c].under != l {
      NoOpenSessionUnder(s, j, l, c);
    }
    forall c, d | Open(t, c) && Open(t, d) && t.sessions[c].under == t.sessions[d].under ensures c == d {
      assert c != b ==> Open(s, c);
      assert d != b ==> Open(s, d);
    }
  }

  /** Closing attempts on one session, by its job or by a recovery. */
  lemma CloseKeepsSessions(s: State, t: State, b: SessionId)
    requires SessionsOk(s) && b in s.sessions && b in t.sessions && t.table == s.table
    requires t.sessions == s.sessions[b := t.sessions[b]] && Grow(s.sessions, t.sessions)
    requires forall j, c | HeldByJob(s, j, c) && !(c == b && t.sessions[b].released) :: HeldByJob(t, j, c)
    ensures SessionsOk(t)
  {
    forall c | Open(t, c) ensures Parked(t, c) || exists i :: HeldByJob(t, i, c) {
      assert Open(s, c);
      if !Parked(s, c) {
        var i :| HeldByJob(s, i, c);
        assert HeldByJob(t, i, c);
      }
    }
    forall c, d | Open(t, c) && Open(t, d) && t.sessions[c].under == t.sessions[d].under ensures c == d {
      assert Open(s, c) && Open(s, d);
    }
  }

  lemma BrowserReleaseKeepsInv(s: State, j: JobId, closed: bool, raised: bool)
    requires Inv(s) && j in s.jobs
    requires s.jobs[j].pc.CleanBrowser? && s.jobs[j].browser.Some? && s.jobs[j].browser.value in s.sessions
    ensures Inv(AfterBrowserRelease(s, j, s.jobs[j], closed, raised))
  {
    var job := s.jobs[j];
    var t := AfterBrowserRelease(s, j, job, closed, raised);
    var b := job.browser.value;
    assert JobOk(s.ls.leases, s.sessions, job);
    assert forall k | Uses(t, j, k) :: Uses(s, j, k);
    JobMovesKeepsCustody(s, t, j, job.lease.value);
    JobMovesKeepsParts(s, t, j, job.lease.value);
    CloseKeepsSessions(s, t, b);
  }

  /** A parked entry is only ever replaced after its own browser was closed. */
  lemma ParkingOverwritesOnlyClosed(s: State, j: JobId)
    requires Inv(s) && j in s.jobs && MayPark(s.ls.leases, s.jobs[j])
    requires s.jobs[j].account in s.table
    ensures !Open(s, s.table[s.jobs[j].account].session)
  {
    var job := s.jobs[j];
    var a := job.account;
    assert JobOk(s.ls.leases, s.sessions, job) && EntryOk(s.ls.leases, s.sessions, a, s.table[a]);
    assert Uses(s, j, job.lease.value);
    assert LP.Live(s.ls, job.lease.value);
    assert !LP.Live(s.ls, s.table[a].lease);
  }

  lemma ParkingKeepsParts(s: State, t: State, j: JobId)
    requires PartsOk(s) && Custody(s) && EntriesAgree(s) && j in s.jobs && MayPark(s.ls.leases, s.jobs[j])
    requires t == AfterParking(s, j, s.jobs[j])
    ensures PartsOk(t) && Custody(t) && EntriesAgree(t)
  {
    var job := s.jobs[j];
    assert JobOk(s.ls.leases, s.sessions, job);
    assert Uses(s, j, job.lease.value);
    assert forall i, l | Uses(t, i, l) :: Uses(s, i, l) && i != j;
    assert EntryOk(t.ls.leases, t.sessions, job.account, t.table[job.account]);
  }

  /** Every open browser is still parked, or held by its job. */
  lemma ParkingKeepsTrack(s: State, t: State, j: JobId)
    requires Inv(s) && j in s.jobs && MayPark(s.ls.leases, s.jobs[j])
    requires t == AfterParking(s, j, s.jobs[j])
    ensures forall c | Open(t, c) :: Open(s, c) && (Parked(t, c) || exists i :: HeldByJob(t, i, c))
  {
    var job := s.jobs[j];
    var a := job.account;
    assert JobOk(s.ls.leases, s.sessions, job);
    if a in s.table {
      ParkingOverwritesOnlyClosed(s, j);
    }
    forall c | Open(t, c) ensures Parked(t, c) || exists i :: HeldByJob(t, i, c) {
      assert Open(s, c);
      if !Parked(s, c) {
        var i :| HeldByJob(s, i, c);
        assert i != j ==> HeldByJob(t, i, c);
        assert i == j ==> Parked(t, c);
      } else {
        assert s.sessions[c].account != a;
      }
    }
  }

  lemma ParkingKeepsInv(s: State, t: State, j: JobId)
    requires Inv(s) && j in s.jobs && MayPark(s.ls.leases, s.jobs[j])
    requires t == AfterParking(s, j, s.jobs[j])
    ensures Inv(t)
  {
    ParkingKeepsParts(s, t, j);
    ParkingKeepsTrack(s, t, j);
  }

  /** Recoveries move no job. */
  lemma JobsUnmoved(s: State, t: State, l: LeaseId)
    requires PartsOk(s) && t.jobs == s.jobs && SameExcept(s.ls.leases, t.ls.leases, l) && Grow(s.sessions, t.sessions)
    requires t.ls.leases == s.ls.leases || forall j :: !Uses(s, j, l)
    ensures forall j <- t.jobs :: JobOk(t.ls.leases, t.sessions, t.jobs[j])
    ensures forall j, k :: Uses(t, j, k) == Uses(s, j, k)
    ensures forall j, b :: HeldByJob(t, j, b) == HeldByJob(s, j, b)
  {
    forall j <- t.jobs ensures JobOk(t.ls.leases, t.sessions, t.jobs[j]) {
      assert s.jobs[j].Holds(l) ==> Uses(s, j, l);
      JobFrame(s, t.ls.leases, t.sessions, l, s.jobs[j]);
    }
  }

  /** A recovery's entry comes from its own record or from the table. */
  ghost predicate RecoveryMoves(s: State, t: State, r: RecoveryId) {
    && t.jobs == s.jobs
    && (forall a <- t.table :: a in s.table && t.table[a] == s.table[a])
    && r in t.recoveries && t.recoveries == s.recoveries[r := t.recoveries[r]]
    && (if r in s.recoveries then t.recoveries[r].entry == s.recoveries[r].entry
        else exists a <- s.table :: t.recoveries[r].entry == s.table[a])
  }

  lemma RecoveryMovesKeepsCustody(s: State, t: State, r: RecoveryId)
    requires PartsOk(s) && Custody(s) && EntriesAgree(s) && RecoveryMoves(s, t, r)
    ensures Custody(t) && EntriesAgree(t)
  {
    assert forall j, l :: Uses(t, j, l) == Uses(s, j, l);
    if r !in s.recoveries {
      var a :| a in s.table && t.recoveries[r].entry == s.table[a];
      forall b <- t.table | t.table[b].lease == s.table[a].lease ensures b == a {
        assert EntryOk(s.ls.leases, s.sessions, a, s.table[a]) && EntryOk(s.ls.leases, s.sessions, b, s.table[b]);
      }
    }
  }

  lemma RecoveryMovesKeepsParts(s: State, t: State, r: RecoveryId)
    requires PartsOk(s) && RecoveryMoves(s, t, r) && t.ls == s.ls && Grow(s.sessions, t.sessions)
    requires RecoveryOk(t.ls.leases, t.sessions, t.recoveries[r])
    ensures PartsOk(t)
  {
    JobsUnmoved(s, t, 0);
    forall a <- t.table ensures EntryOk(t.ls.leases, t.sessions, a, t.table[a]) {
      EntryFrame(s, t.ls.leases, t.sessions, 0, a, s.table[a]);
    }
    forall q <- t.recoveries ensures RecoveryOk(t.ls.leases, t.sessions, t.recoveries[q]) {
      if q != r {
        EntryFrame(s, t.ls.leases, t.sessions, 0, s.recoveries[q].account, s.recoveries[q].entry);
      }
    }
  }

  lemma RecoveryClosesKeepsInv(s: State, t: State, r: RecoveryId, closed: bool, raised: bool)
    requires Inv(s) && r in s.recoveries && RecoveryEnabled(s, s.recoveries[r], Closes(closed, raised))
    requires t == RecoveryNext(s, r, s.recoveries[r], Closes(closed, raised))
    ensures Inv(t)
  {
    var x := s.recoveries[r];
    assert RecoveryOk(s.ls.leases, s.sessions, x);
    EntryFrame(s, t.ls.leases, t.sessions, 0, x.account, x.entry);
    RecoveryMovesKeepsCustody(s, t, r);
    RecoveryMovesKeepsParts(s, t, r);
    assert forall j, b :: HeldByJob(t, j, b) == HeldByJob(s, j, b);
    CloseKeepsSessions(s, t, x.entry.session);
  }

  lemma RecoveryFreesKeepsParts(s: State, t: State, r: RecoveryId)
    requires PartsOk(s) && Custody(s) && EntriesAgree(s)
    requires r in s.recoveries && RecoveryEnabled(s, s.recoveries[r], Frees)
    requires t == RecoveryNext(s, r, s.recoveries[r], Frees)
    ensures PartsOk(t)
  {
    var x := s.recoveries[r];
    var l := x.entry.lease;
    assert RecoveryOk(s.ls.leases, s.sessions, x);
    JobsUnmoved(s, t, l);
    forall a <- t.table ensures EntryOk(t.ls.leases, t.sessions, a, t.table[a]) {
      assert EntryOk(s.ls.leases, s.sessions, a, s.table[a]);
    }
    forall q <- t.recoveries ensures RecoveryOk(t.ls.leases, t.sessions, t.recoveries[q]) {
      assert RecoveryOk(s.ls.leases, s.sessions, s.recoveries[q]);
    }
  }

  /** Tracking carries over when sessions and jobs stay and only closed sessions leave the table. */
  lemma SameResources(s: State, t: State)
    requires SessionsOk(s) && t.sessions == s.sessions && t.jobs == s.jobs
    requires forall b | Open(s, b) && Parked(s, b) :: Parked(t, b)
    ensures SessionsOk(t)
  {
    assert forall b :: Open(t, b) == Open(s, b);
    forall b | Open(t, b) ensures Parked(t, b) || exists i :: HeldByJob(t, i, b) {
      if !Parked(s, b) {
        var i :| HeldByJob(s, i, b);
        assert HeldByJob(t, i, b);
      }
    }
  }

  lemma RecoveryFreesKeepsInv(s: State, t: State, r: RecoveryId)
    requires Inv(s) && r in s.recoveries && RecoveryEnabled(s, s.recoveries[r], Frees)
    requires t == RecoveryNext(s, r, s.recoveries[r], Frees)
    ensures Inv(t)
  {
    LP.StepKeepsInv(s.ls, LP.CallRelease(s.recoveries[r].entry.lease));
    RecoveryFreesKeepsParts(s, t, r);
    RecoveryMovesKeepsCustody(s, t, r);
    SameResources(s, t);
  }

  /** Forgetting an entry drops no open browser; giving up or starting changes no resource. */
  lemma RecoveryBookkeepingKeepsInv(s: State, t: State, r: RecoveryId)
    requires Inv(s) && RecoveryMoves(s, t, r) && t.ls == s.ls && t.sessions == s.sessions
    requires RecoveryOk(t.ls.leases, t.sessions, t.recoveries[r])
    requires forall a <- s.table | a !in t.table :: !Open(s, s.table[a].session)
    ensures Inv(t)
  {
    RecoveryMovesKeepsCustody(s, t, r);
    RecoveryMovesKeepsParts(s, t, r);
    SameResources(s, t);
  }

  lemma RecoveryStepKeepsInv(s: State, r: RecoveryId, m: RecoveryMove)
    requires Inv(s) && r in s.recoveries && RecoveryEnabled(s, s.recoveries[r], m)
    ensures Inv(RecoveryNext(s, r, s.recoveries[r], m))
  {
    var t := RecoveryNext(s, r, s.recoveries[r], m);
    assert RecoveryOk(s.ls.leases, s.sessions, s.recoveries[r]);
    match m
    case Closes(closed, raised) => RecoveryClosesKeepsInv(s, t, r, closed, raised);
    case Frees => RecoveryFreesKeepsInv(s, t, r);
    case _ => RecoveryBookkeepingKeepsInv(s, t, r);
  }

  lemma AcquiringKeepsInv(s: State, j: JobId, m: Move)
    requires Inv(s) && j in s.jobs && JobEnabled(s, s.jobs[j], m)
    requires m.AcquireLease? || m.ReacquireLease? || m.Opens? || m.Reopens?
    ensures Inv(JobNext(s, j, s.jobs[j], m))
  {
    var job := s.jobs[j];
    var t := JobNext(s, j, job, m);
    assert JobOk(s.ls.leases, s.sessions, job);
    match m
    case AcquireLease(l) => GrantStepKeepsInv(s, t, j, l, job.account, t.jobs[j]);
    case ReacquireLease(l, a) => GrantStepKeepsInv(s, t, j, l, a, t.jobs[j]);
    case Opens(b) =>
      assert Uses(s, j, job.lease.value);
      OpenStepKeepsInv(s, t, j, job.lease.value, b, t.jobs[j]);
    case Reopens(b, _) =>
      assert Uses(s, j, job.pc.local);
      OpenStepKeepsInv(s, t, j, job.pc.local, b, t.jobs[j]);
  }

  lemma LeaseCallsKeepInv(s: State, j: JobId, m: Move)
    requires Inv(s) && j in s.jobs && LocalEnabled(s.ls.leases, s.jobs[j], m)
    requires m.CallLeaseRelease? || m.CallGiveBack? || m.CallQuarantine?
    requires JobEnabled(s, s.jobs[j], m)
    ensures Inv(JobNext(s, j, s.jobs[j], m))
  {
    var job := s.jobs[j];
    var t := JobNext(s, j, job, m);
    assert JobOk(s.ls.leases, s.sessions, job);
    match m
    case CallLeaseRelease => CallStepKeepsInv(s, t, j, m, LP.CallRelease(job.lease.value));
    case CallGiveBack => CallStepKeepsInv(s, t, j, m, LP.CallRelease(job.pc.local));
    case CallQuarantine => CallStepKeepsInv(s, t, j, m, LP.CallQuarantine(job.lease.value));
  }

  lemma JobStepKeepsInv(s: State, j: JobId, m: Move)
    requires Inv(s) && j in s.jobs && JobEnabled(s, s.jobs[j], m)
    ensures Inv(JobNext(s, j, s.jobs[j], m))
  {
    if m.AcquireLease? || m.ReacquireLease? || m.Opens? || m.Reopens? {
      AcquiringKeepsInv(s, j, m);
    } else if m.CallLeaseRelease? || m.CallGiveBack? || m.CallQuarantine? {
      LeaseCallsKeepInv(s, j, m);
    } else if m.BrowserReleaseReturns? {
      BrowserReleaseKeepsInv(s, j, m.closed, m.raised);
    } else if m.RecordQuarantine? {
      ParkingKeepsInv(s, AfterParking(s, j, s.jobs[j]), j);
    } else {
      LocalStepKeepsInv(s, j, m);
    }
  }

  lemma StepKeepsInv(s: State, e: Event)
    requires Inv(s) && Enabled(s, e)
    ensures Inv(Next(s, e))
  {
    var t := Next(s, e);
    match e
    case Inner(step) => InnerStepKeepsInv(s, step);
    case Dispatch(j, l, a, _) => GrantStepKeepsInv(s, t, j, l, a, t.jobs[j]);
    case Submit(j, _) => JobMovesKeepsInv(s, t, j, 0);
    case JobStep(j, m) => JobStepKeepsInv(s, j, m);
    case StartRecovery(r, a) =>
      assert EntryOk(s.ls.leases, s.sessions, a, s.table[a]);
      RecoveryBookkeepingKeepsInv(s, t, r);
    case RecoveryStep(r, m) => RecoveryStepKeepsInv(s, r, m);
  }

  ghost predicate Step(s: State, e: Event, t: State) {
    Enabled(s, e) && t == Next(s, e)
  }

  ghost predicate Trace(ss: seq<State>, es: seq<Event>) {
    |ss| == |es| + 1 && forall i | 0 <= i < |es| :: Step(ss[i], es[i], ss[i + 1])
  }

  lemma {:induction false} TraceKeepsInv(ss: seq<State>, es: seq<Event>, n: nat)
    requires Trace(ss, es) && n < |ss| && Inv(ss[0])
    ensures Inv(ss[n])
  {
    if n > 0 {
      TraceKeepsInv(ss, es, n - 1);
      assert Step(ss[n - 1], es[n - 1], ss[n]);
      StepKeepsInv(ss[n - 1], es[n - 1]);
    }
  }

  /** The job or table entry that answers for an open browser, with the lease it was opened under. */
  ghost predicate AnswersFor(s: State, b: SessionId, l: LeaseId) {
    || (exists j <- s.jobs :: s.jobs[j].pc != Dead && s.jobs[j].browser == Some(b) && s.jobs[j].lease == Some(l))
    || (exists a <- s.table :: s.table[a] == Resources(b, l))
  }

  lemma OpenSessionsAreAnswered(s: State, b: SessionId)
    requires Inv(s) && Open(s, b)
    ensures var x := s.sessions[b];
            && AnswersFor(s, b, x.under)
            && LP.Live(s.ls, x.under) && s.ls.leases[x.under].account == x.account
            && x.account in s.ls.mgr.active + s.ls.mgr.quarantined
  {
    var x := s.sessions[b];
    if Parked(s, b) {
      assert EntryOk(s.ls.leases, s.sessions, x.account, s.table[x.account]);
      assert s.table[x.account] == Resources(b, x.under);
    } else {
      var j :| HeldByJob(s, j, b);
      assert JobOk(s.ls.leases, s.sessions, s.jobs[j]);
    }
    assert LP.Live(s.ls, x.under);
  }

  ghost predicate ExclusiveAndAnswered(t: State) {
    && (forall b, c :: Open(t, b) && Open(t, c) && t.sessions[b].account == t.sessions[c].account ==> b == c)
    && (forall b :: Open(t, b) ==>
          var x := t.sessions[b];
          && AnswersFor(t, b, x.under)
          && LP.Live(t.ls, x.under) && t.ls.leases[x.under].account == x.account
          && x.account in t.ls.mgr.active + t.ls.mgr.quarantined)
    && (forall j <- t.jobs :: t.jobs[j].pc == Dead ==> t.jobs[j].browser == None)
  }

  /**
   * Over every run: one open browser per account at most, and each open browser's account is
   * unavailable to others, its lease live, and that lease's holder is the browser's holder.
   */
  lemma GlobalExclusivity(limits: map<string, int>, ss: seq<State>, es: seq<Event>, n: nat)
    requires Trace(ss, es) && ss[0] == Initial(limits) && n < |ss|
    ensures ExclusiveAndAnswered(ss[n])
  {
    TraceKeepsInv(ss, es, n);
    var t := ss[n];
    forall b | Open(t, b)
      ensures var x := t.sessions[b];
              && AnswersFor(t, b, x.under)
              && LP.Live(t.ls, x.under) && t.ls.leases[x.under].account == x.account
              && x.account in t.ls.mgr.active + t.ls.mgr.quarantined
    {
      OpenSessionsAreAnswered(t, b);
    }
    forall j <- t.jobs | t.jobs[j].pc == Dead ensures t.jobs[j].browser == None {
      assert JobOk(t.ls.leases, t.sessions, t.jobs[j]);
    }
  }

  /** The recovery of a parked browser whose close now succeeds. */
  function RecoveryRun(r: RecoveryId, a: Account, l: LeaseId): seq<Event> {
    [StartRecovery(r, a), RecoveryStep(r, Closes(true, false)), RecoveryStep(r, Frees),
     Inner(LP.ManagerRelease(l)), Inner(LP.ReleaseReturns(l)), RecoveryStep(r, Forgets)]
  }

  lemma CloseParked(s: State, r: RecoveryId, a: Account) returns (s1: State, s2: State)
    requires a in s.table && s.table[a].session in s.sessions && r !in s.recoveries
    ensures Step(s, StartRecovery(r, a), s1) && Step(s1, RecoveryStep(r, Closes(true, false)), s2)
    ensures s2.ls == s.ls && s2.jobs == s.jobs && s2.table == s.table && !Open(s2, s.table[a].session)
    ensures r in s2.recoveries && s2.recoveries[r] == Recovery(a, s.table[a], Freeing)
  {
    s1 := Next(s, StartRecovery(r, a));
    s2 := Next(s1, RecoveryStep(r, Closes(true, false)));
  }

  lemma ReleaseLease(s: State, l: LeaseId) returns (s1: State, s2: State)
    requires l in s.ls.leases && s.ls.leases[l].phase == Releasing
    ensures Step(s, Inner(LP.ManagerRelease(l)), s1) && Step(s1, Inner(LP.ReleaseReturns(l)), s2)
    ensures s2 == s.(ls := s2.ls) && s2.ls.mgr == s.ls.mgr.Release(s.ls.leases[l].account)
    ensures LockFree(s2.ls.leases, l)
  {
    s1 := Next(s, Inner(LP.ManagerRelease(l)));
    s2 := Next(s1, Inner(LP.ReleaseReturns(l)));
  }

  lemma ParkedRun(s: State, r: RecoveryId, a: Account) returns (ss: seq<State>)
    requires a in s.table && EntryOk(s.ls.leases, s.sessions, a, s.table[a])
    requires Open(s, s.table[a].session) && r !in s.recoveries
    ensures |ss| == 7 && ss[0] == s && Trace(ss, RecoveryRun(r, a, s.table[a].lease))
    ensures ss[6].table == s.table - {a} && !Open(ss[6], s.table[a].session)
    ensures ss[6].ls.mgr == s.ls.mgr.Release(a) && ss[6].jobs == s.jobs
  {
    var l := s.table[a].lease;
    var s1, s2 := CloseParked(s, r, a);
    var s3 := Next(s2, RecoveryStep(r, Frees));
    var s4, s5 := ReleaseLease(s3, l);
    var s6 := Next(s5, RecoveryStep(r, Forgets));
    ss := [s, s1, s2, s3, s4, s5, s6];
  }

  /** Quarantine is never a dead end: one successful close frees the account and the entry. */
  lemma QuarantineIsRecoverable(s: State, r: RecoveryId, a: Account) returns (ss: seq<State>)
    requires Inv(s) && a in s.table && Open(s, s.table[a].session) && r !in s.recoveries
    ensures |ss| == 7 && ss[0] == s && Trace(ss, RecoveryRun(r, a, s.table[a].lease))
    ensures var t := ss[6];
            && a !in t.table && a !in t.ls.mgr.active + t.ls.mgr.quarantined
            && !Open(t, s.table[a].session)
            && t.ls.mgr == s.ls.mgr.Release(a) && t.jobs == s.jobs
  {
    assert EntryOk(s.ls.leases, s.sessions, a, s.table[a]);
    ss := ParkedRun(s, r, a);
  }
}
