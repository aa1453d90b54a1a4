/** The durable rows of one pipeline job and the transactions that change them. */
module JobStore {

  datatype JobStatus =
    Queued | Running | WaitingDecision | Succeeded | PartialFailed | Failed | Cancelling | Cancelled | Interrupted

  datatype StageStatus =
    StagePending | StageRunning | StageWaiting | StageSucceeded | StageFailed | StageSkipped | StageCancelled

  predicate JobTerminal(s: JobStatus) {
    s.Succeeded? || s.PartialFailed? || s.Failed? || s.Cancelled? || s.Interrupted?
  }

  predicate StageTerminal(s: StageStatus) {
    s.StageSucceeded? || s.StageFailed? || s.StageSkipped? || s.StageCancelled?
  }

  /** `JOB_STATUS_TRANSITIONS`. */
  predicate JobAllowed(s: JobStatus, next: JobStatus) {
    match s
    case Queued => next.Running? || next.Cancelled?
    case Running =>
      || next.WaitingDecision? || next.Succeeded? || next.PartialFailed? || next.Failed? || next.Cancelling?
      || next.Interrupted?
    case WaitingDecision => next.Running? || next.Cancelled? || next.Interrupted?
    case Cancelling => next.Cancelled? || next.Interrupted?
    case _ => false
  }

  /** `STAGE_STATUS_TRANSITIONS`. */
  predicate StageAllowed(s: StageStatus, next: StageStatus) {
    match s
    case StagePending => next.StageRunning? || next.StageSkipped? || next.StageCancelled?
    case StageRunning => StageTerminal(next) || next.StageWaiting?
    case StageWaiting => next.StageRunning? || next.StageFailed? || next.StageCancelled?
    case StageFailed => next.StageRunning?
    case _ => false
  }

  type OptionKey = int

  datatype CheckpointStatus = Pending | Resolved | Expired | CheckpointCancelled
  datatype Source = Human | Timeout | System

  /** `deadline` is meaningful only with `auto`; `key`, `source` and `at` only once not pending. */
  datatype Checkpoint = Checkpoint(
    stage: nat, auto: bool, options: seq<OptionKey>, default: OptionKey, version: nat, deadline: int,
    status: CheckpointStatus, key: OptionKey, source: Source, at: int)

  type CheckpointId = nat

  datatype StageRow = StageRow(status: StageStatus, attempt: nat)

  /** `current` is the stage named by the job row; stages are listed in stage order. */
  datatype Db = Db(status: JobStatus, current: nat, stages: seq<StageRow>, checkpoints: map<CheckpointId, Checkpoint>) {
    predicate StageIs(k: nat, s: StageStatus) {
      k < |stages| && stages[k].status == s
    }

    function SetStage(k: nat, s: StageStatus): Db
      requires k < |stages|
    {
      this.(stages := stages[k := stages[k].(status := s)])
    }
  }

  // ----- transactions: the new rows, and the value returned; an exception inside keeps the old rows -----

  /** `set_job_status` with one expected status. */
  function SetJobStatus(db: Db, expected: JobStatus, target: JobStatus): (Db, bool) {
    if db.status == expected then (db.(status := target), true) else (db, false)
  }

  function StartStage(db: Db, k: nat): (Db, bool) {
    if db.status.Running? && (db.StageIs(k, StagePending) || db.StageIs(k, StageFailed)) then
      (db.(stages := db.stages[k := StageRow(StageRunning, db.stages[k].attempt + 1)], current := k), true)
    else (db, false)
  }

  function FinishStage(db: Db, k: nat, s: StageStatus): (Db, bool) {
    if db.StageIs(k, StageRunning) then (db.SetStage(k, s), true) else (db, false)
  }

  function MapStages(stages: seq<StageRow>, from: StageStatus, to: StageStatus): (r: seq<StageRow>)
    ensures |r| == |stages|
  {
    seq(|stages|, i requires 0 <= i < |stages| =>
      if stages[i].status == from then stages[i].(status := to) else stages[i])
  }

  /** `cancel_pending_stages` and `skip_pending_stages`. */
  function EndPending(db: Db, s: StageStatus): Db {
    db.(stages := MapStages(db.stages, StagePending, s))
  }

  /** The two-row compare-and-set behind pausing, resuming and interrupting a decision. */
  function MoveDecision(db: Db, k: nat, job: (JobStatus, JobStatus), stage: (StageStatus, StageStatus)): (Db, bool) {
    if db.status == job.0 && db.current == k && db.StageIs(k, stage.0)
    then (db.SetStage(k, stage.1).(status := job.1), true)
    else (db, false)
  }

  function PauseForDecision(db: Db, k: nat): (Db, bool) {
    MoveDecision(db, k, (Running, WaitingDecision), (StageRunning, StageWaiting))
  }

  function ResumeFromDecision(db: Db, k: nat): (Db, bool) {
    MoveDecision(db, k, (WaitingDecision, Running), (StageWaiting, StageRunning))
  }

  function InterruptWaitingDecision(db: Db, k: nat): (Db, bool) {
    MoveDecision(db, k, (WaitingDecision, Interrupted), (StageWaiting, StageFailed))
  }

  function CancelledAt(c: Checkpoint, now: int): Checkpoint {
    if c.status.Pending? then c.(status := CheckpointCancelled, source := System, at := now) else c
  }

  function CancelCheckpoint(db: Db, c: CheckpointId, now: int): Db {
    if c in db.checkpoints then db.(checkpoints := db.checkpoints[c := CancelledAt(db.checkpoints[c], now)]) else db
  }

  function CancelCheckpoints(cs: map<CheckpointId, Checkpoint>, now: int): map<CheckpointId, Checkpoint> {
    map c <- cs :: CancelledAt(cs[c], now)
  }

  function RequestCancel(db: Db, now: int): Db {
    match db.status
    case Queued => EndPending(db, StageCancelled).(status := Cancelled)
    case WaitingDecision =>
      db.(status := Cancelled,
          stages := MapStages(MapStages(db.stages, StageWaiting, StageCancelled), StagePending, StageCancelled),
          checkpoints := CancelCheckpoints(db.checkpoints, now))
    case Running => db.(status := Cancelling)
    case _ => db
  }

  /** One job's share of the recovery at service start. */
  function RecoverInterrupted(db: Db, now: int): Db {
    if db.status.Running? || db.status.Cancelling? || db.status.WaitingDecision? then
      db.(status := Interrupted,
          stages := MapStages(MapStages(db.stages, StageRunning, StageFailed), StageWaiting, StageFailed),
          checkpoints := CancelCheckpoints(db.checkpoints, now))
    else db
  }

  /** `_finish_cancellation`: rolled back when stages changed but the job did not. */
  function FinishCancellation(db: Db): Db {
    var ended := EndPending(db.(stages := MapStages(db.stages, StageRunning, StageCancelled)), StageCancelled);
    var (moved, ok) := SetJobStatus(ended, Cancelling, Cancelled);
    if !ok && ended != db then db else moved
  }

  /** `_finish_internal_error`. */
  function FinishInternalError(db: Db): Db {
    if JobTerminal(db.status) then db
    else
      var failed := db.(stages := MapStages(db.stages, StageRunning, StageFailed));
      var (moved, ok) :=
        if db.status.Cancelling? then SetJobStatus(EndPending(failed, StageCancelled), Cancelling, Cancelled)
        else SetJobStatus(failed, Running, JobStatus.Failed);
      if !ok && moved != db then db else moved
  }

  /** The stop_job decision: one transaction, rolled back unless the stage and the job both move. */
  function StopJob(db: Db, k: nat): (Db, bool) {
    var (failed, finished) := FinishStage(db, k, StageFailed);
    var (moved, stopped) := SetJobStatus(EndPending(failed, StageSkipped), Running, JobStatus.Failed);
    if finished && stopped then (moved, true) else (db, false)
  }

  /** The bounded retry: fail the attempt and start the next one in one transaction. */
  function RestartStage(db: Db, k: nat): (Db, bool) {
    var (failed, finished) := FinishStage(db, k, StageFailed);
    var (restarted, started) := StartStage(failed, k);
    (restarted, finished && started)
  }

  /** A pending checkpoint is unique per job, and opening one pauses the job in the same transaction. */
  function OpenCheckpoint(db: Db, c: CheckpointId, x: Checkpoint): (Db, bool) {
    if exists d <- db.checkpoints :: db.checkpoints[d].status.Pending? then (db, false)
    else
      var (paused, ok) := PauseForDecision(db, x.stage);
      if ok then (paused.(checkpoints := db.checkpoints[c := x.(status := Pending)]), true) else (db, false)
  }

  /** `resolve_checkpoint` with a registered option, then the resume; a conflict rolls both back. */
  function Settle(db: Db, c: CheckpointId, option: OptionKey, version: nat, source: Source, now: int): (Db, bool) {
    if c !in db.checkpoints then (db, false)
    else
      var x := db.checkpoints[c];
      if !x.status.Pending? || x.version != version then (db, false)
      else
        var settled := if source.Timeout? then Expired else Resolved;
        var y := x.(status := settled, key := option, source := source, at := now);
        var (resumed, ok) := ResumeFromDecision(db.(checkpoints := db.checkpoints[c := y]), x.stage);
        if ok then (resumed, true) else (db, false)
  }

  /** The waiter's first cleanup transaction, and whether it left the job out of waiting. */
  function CleanUp(db: Db, c: CheckpointId, k: nat, now: int): (Db, bool) {
    var (resumed, ok) := ResumeFromDecision(CancelCheckpoint(db, c, now), k);
    (resumed, ok || !resumed.status.WaitingDecision?)
  }

  /** The second cleanup transaction, used when the first fails. */
  function CleanUpAgain(db: Db, c: CheckpointId, k: nat, now: int): Db {
    InterruptWaitingDecision(CancelCheckpoint(db, c, now), k).0
  }

  /** The transactions of the runner, the dispatcher, cancellation requests and recovery. */
  datatype JobTx =
    | Claim
    | Start(k: nat)
    | Finish(k: nat, s: StageStatus)
    | Restart(k: nat)
    | Stop(k: nat)
    | SkipPending
    | Complete(partial: bool)
    | EndCancellation
    | EndWithError
    | Cancel
    | Recover

  function Apply(db: Db, tx: JobTx, now: int): Db {
    match tx
    case Claim => SetJobStatus(db, Queued, Running).0
    case Start(k) => StartStage(db, k).0
    case Finish(k, s) => if StageTerminal(s) then FinishStage(db, k, s).0 else db
    case Restart(k) => RestartStage(db, k).0
    case Stop(k) => StopJob(db, k).0
    case SkipPending => EndPending(db, StageSkipped)
    case Complete(partial) => SetJobStatus(db, Running, if partial then PartialFailed else Succeeded).0
    case EndCancellation => FinishCancellation(db)
    case EndWithError => FinishInternalError(db)
    case Cancel => RequestCancel(db, now)
    case Recover => RecoverInterrupted(db, now)
  }

  // ----- what one transaction may do -----

  /** Job and stage rows move only along the transition tables. */
  predicate Moved(a: Db, b: Db) {
    && |a.stages| == |b.stages|
    && (a.status == b.status || JobAllowed(a.status, b.status))
    && forall k | 0 <= k < |a.stages| ::
         a.stages[k].status == b.stages[k].status || StageAllowed(a.stages[k].status, b.stages[k].status)
  }

  predicate IsPending(db: Db, c: CheckpointId) {
    c in db.checkpoints && db.checkpoints[c].status.Pending?
  }

  /** The job waits exactly while one checkpoint of its current, waiting stage is pending. */
  predicate Coupled(db: Db) {
    && (forall c <- db.checkpoints :: IsPending(db, c) ==>
          db.status.WaitingDecision? && db.current == db.checkpoints[c].stage && db.StageIs(db.current, StageWaiting))
    && (forall c, d | c in db.checkpoints && d in db.checkpoints && IsPending(db, c) && IsPending(db, d) :: c == d)
    && (db.status.WaitingDecision? ==> exists c <- db.checkpoints :: IsPending(db, c))
    && (forall k | 0 <= k < |db.stages| :: db.stages[k].status.StageWaiting? ==>
          db.status.WaitingDecision? && k == db.current)
  }

  /** A pending row may be settled; a settled row is never written again. */
  predicate Evolves(x: Checkpoint, y: Checkpoint) {
    y == x || (x.status.Pending? && y == x.(status := y.status, key := y.key, source := y.source, at := y.at))
  }

  /** No row disappears. */
  predicate RowsKept(a: Db, b: Db) {
    forall c <- a.checkpoints :: c in b.checkpoints && Evolves(a.checkpoints[c], b.checkpoints[c])
  }

  /** The transactions outside the gate can only cancel a pending checkpoint. */
  predicate OnlyCancels(a: Db, b: Db, now: int) {
    && b.checkpoints.Keys == a.checkpoints.Keys
    && forall c <- a.checkpoints ::
         b.checkpoints[c] == a.checkpoints[c] || b.checkpoints[c] == CancelledAt(a.checkpoints[c], now)
  }

  lemma CancelKeepsCoupling(db: Db, now: int)
    requires Coupled(db)
    ensures Coupled(RequestCancel(db, now)) && Coupled(RecoverInterrupted(db, now))
  {
    if !db.status.WaitingDecision? {
      assert forall c <- db.checkpoints :: !IsPending(db, c);
    }
  }

  lemma JobTxKeepsCoupling(db: Db, tx: JobTx, now: int)
    requires Coupled(db)
    ensures Coupled(Apply(db, tx, now))
  {
    if tx.Cancel? || tx.Recover? {
      CancelKeepsCoupling(db, now);
    } else {
      var n := Apply(db, tx, now);
      assert n.checkpoints == db.checkpoints;
      if !db.status.WaitingDecision? {
        assert forall c <- db.checkpoints :: !IsPending(db, c) && !IsPending(n, c);
      }
    }
  }

  lemma JobTxFollowsTheTables(db: Db, tx: JobTx, now: int)
    requires Coupled(db)
    ensures Moved(db, Apply(db, tx, now)) && OnlyCancels(db, Apply(db, tx, now), now)
  {
  }

  lemma OpenKeeps(db: Db, c: CheckpointId, x: Checkpoint)
    requires Coupled(db) && c !in db.checkpoints
    ensures var (n, ok) := OpenCheckpoint(db, c, x);
            && Coupled(n) && Moved(db, n) && RowsKept(db, n)
            && (ok ==> IsPending(n, c)) && (!ok ==> n == db)
  {
    var (n, ok) := OpenCheckpoint(db, c, x);
    if ok {
      assert IsPending(n, c);
      assert forall d <- db.checkpoints :: !IsPending(db, d);
    }
  }

  lemma SettleKeeps(db: Db, c: CheckpointId, option: OptionKey, version: nat, source: Source, now: int)
    requires Coupled(db)
    ensures var (n, ok) := Settle(db, c, option, version, source, now);
            && Coupled(n) && Moved(db, n) && RowsKept(db, n) && (!ok ==> n == db)
            && (ok <==> IsPending(db, c) && db.checkpoints[c].version == version)
            && (ok ==> c in n.checkpoints && !IsPending(n, c) && n.status.Running?)
  {
  }

  /** Cleanup by the only live waiter; `forall d` says no other checkpoint is pending. */
  lemma CleanUpKeeps(db: Db, c: CheckpointId, k: nat, now: int)
    requires Coupled(db) && c in db.checkpoints && db.checkpoints[c].stage == k
    requires forall d <- db.checkpoints :: IsPending(db, d) ==> d == c
    ensures var (n, done) := CleanUp(db, c, k, now);
            Coupled(n) && Moved(db, n) && RowsKept(db, n) && done && !IsPending(n, c)
    ensures var n := CleanUpAgain(db, c, k, now);
            Coupled(n) && Moved(db, n) && RowsKept(db, n) && !IsPending(n, c)
  {
  }
}
