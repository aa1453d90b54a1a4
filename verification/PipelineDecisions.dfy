/** The gate and job operations as code over the stored rows, each proved to be one transaction of the model. */
module PipelineDecisions {
  import opened Wrappers
  import opened JobStore
  import opened DecisionGate

  datatype GateError = InvalidOption | Conflict(authoritative: Option<Resolution>)

  function CleanedUp(db: Db, c: CheckpointId, k: nat, now: int, firstFails: bool, secondFails: bool): (Db, bool) {
    var (first, done) := if firstFails then (db, false) else CleanUp(db, c, k, now);
    if done || secondFails then (first, done)
    else
      var second := CleanUpAgain(first, c, k, now);
      (second, !second.status.WaitingDecision?)
  }

  class Database {
    var db: Db

    constructor (stages: nat)
      ensures db.status.Queued? && db.checkpoints == map[]
      ensures |db.stages| == stages && forall k | 0 <= k < stages :: db.stages[k] == StageRow(StagePending, 0)
    {
      db := Db(Queued, 0, seq(stages, _ => StageRow(StagePending, 0)), map[]);
    }

    method CompareAndSet(expected: JobStatus, target: JobStatus) returns (ok: bool)
      modifies this
      ensures (db, ok) == SetJobStatus(old(db), expected, target)
    {
      ok := db.status == expected;
      if ok {
        db := db.(status := target);
      }
    }

    /** Every stage in `from` moves to `to`; returns how many did. */
    method MoveStages(from: StageStatus, to: StageStatus) returns (moved: nat)
      requires from != to
      modifies this
      ensures db == old(db).(stages := MapStages(old(db.stages), from, to))
      ensures moved == 0 <==> db == old(db)
    {
      var stages := db.stages;
      moved := 0;
      for k := 0 to |stages|
        invariant |stages| == |db.stages|
        invariant forall i | 0 <= i < k :: stages[i] == MapStages(db.stages, from, to)[i]
        invariant forall i | k <= i < |stages| :: stages[i] == db.stages[i]
        invariant moved == 0 <==> stages == db.stages
      {
        if stages[k].status == from {
          stages := stages[k := stages[k].(status := to)];
          moved := moved + 1;
          assert stages[k] != db.stages[k];
        }
      }
      db := db.(stages := stages);
    }

    method RequestCancelJob(now: int)
      modifies this
      ensures db == RequestCancel(old(db), now)
    {
      var cancelled := CompareAndSet(Queued, JobStatus.Cancelled);
      if cancelled {
        var _ := MoveStages(StagePending, StageCancelled);
        return;
      }
      cancelled := CompareAndSet(WaitingDecision, JobStatus.Cancelled);
      if cancelled {
        var _ := MoveStages(StageWaiting, StageCancelled);
        var _ := MoveStages(StagePending, StageCancelled);
        db := db.(checkpoints := CancelCheckpoints(db.checkpoints, now));
        return;
      }
      var _ := CompareAndSet(Running, Cancelling);
    }

    /** One transaction: when stages moved but the job did not, everything is rolled back. */
    method FinishCancellationOfJob() returns (transitioned: bool)
      modifies this
      ensures db == FinishCancellation(old(db))
      ensures transitioned <==> old(db).status.Cancelling?
      ensures !transitioned ==> db == old(db)
    {
      var before := db;
      var running := MoveStages(StageRunning, StageCancelled);
      var afterRunning := db;
      var pending := MoveStages(StagePending, StageCancelled);
      transitioned := CompareAndSet(Cancelling, JobStatus.Cancelled);
      if !transitioned && (running > 0 || pending > 0) {
        db := before;
      }
      assert pending == 0 ==> afterRunning == EndPending(afterRunning, StageCancelled);
    }

    method ResumeStage(k: nat) returns (ok: bool)
      modifies this
      ensures (db, ok) == ResumeFromDecision(old(db), k)
    {
      ok := db.status.WaitingDecision? && db.current == k && db.StageIs(k, StageWaiting);
      if ok {
        db := db.SetStage(k, StageRunning).(status := Running);
      }
    }

    /** `_resolve_once`: the row and the resume commit together or not at all. */
    method ResolveOnce(c: CheckpointId, option: OptionKey, version: nat, source: Source, now: int)
      returns (r: Result<Resolution, GateError>)
      modifies this
      ensures r == Failure(InvalidOption) <==> c in old(db).checkpoints && option !in old(db).checkpoints[c].options
      ensures r == Failure(InvalidOption) ==> db == old(db)
      ensures r != Failure(InvalidOption) ==> (db, r.Success?) == Settle(old(db), c, option, version, source, now)
      ensures r.Success? ==> RowOf(db, c) == Some(r.value)
      ensures r.Failure? && r.error.Conflict? ==> r.error.authoritative == RowOf(db, c)
    {
      var before := db;
      if c !in db.checkpoints {
        return Failure(Conflict(None));
      }
      var x := db.checkpoints[c];
      if option !in x.options {
        return Failure(InvalidOption);
      }
      if !x.status.Pending? || x.version != version {
        return Failure(Conflict(RowOf(db, c)));
      }
      var settled := if source.Timeout? then Expired else JobStore.Resolved;
      var y := x.(status := settled, key := option, source := source, at := now);
      db := db.(checkpoints := db.checkpoints[c := y]);
      var resumed := ResumeStage(x.stage);
      if !resumed {
        db := before;
        return Failure(Conflict(RowOf(db, c)));
      }
      r := Success(Resolution(y.status, y.key, y.source, y.at));
    }

    /** The first read of `resolve`; past the deadline the human's choice is replaced. */
    method ReadForResolve(c: CheckpointId, option: OptionKey, version: nat, now: int) returns (r: Resolver)
      ensures r == AfterRead(db, now, c, option, version)
      ensures r.Chose? && r.source.Human? ==>
        r.option == option && !(db.checkpoints[c].auto && now >= db.checkpoints[c].deadline)
    {
      if c !in db.checkpoints || !db.checkpoints[c].status.Pending? {
        return Answered(c, false, RowOf(db, c));
      }
      var x := db.checkpoints[c];
      if x.auto && now >= x.deadline {
        return Chose(c, x.default, x.version, Timeout);
      }
      r := Chose(c, option, version, Human);
    }

    /**
     * `_cleanup_waiting_checkpoint`: each transaction may raise; the second, tried when the first is not
     * enough, interrupts the job.
     */
    method CleanUpWaiting(c: CheckpointId, k: nat, now: int, firstFails: bool, secondFails: bool)
      returns (complete: bool)
      modifies this
      ensures (db, complete) == CleanedUp(old(db), c, k, now, firstFails, secondFails)
    {
      if !firstFails {
        db := CancelCheckpoint(db, c, now);
        var resumed := ResumeStage(k);
        if resumed || !db.status.WaitingDecision? {
          return true;
        }
      }
      if !secondFails {
        db := CancelCheckpoint(db, c, now);
        if db.status.WaitingDecision? && db.current == k && db.StageIs(k, StageWaiting) {
          db := db.SetStage(k, StageFailed).(status := Interrupted);
          return true;
        }
        return !db.status.WaitingDecision?;
      }
      complete := false;
    }
  }

  /** For the only live waiter, cleanup is complete as soon as one transaction commits. */
  lemma CleanUpCompletes(db: Db, c: CheckpointId, k: nat, now: int, firstFails: bool, secondFails: bool)
    requires Coupled(db) && c in db.checkpoints && db.checkpoints[c].stage == k
    requires forall d <- db.checkpoints :: IsPending(db, d) ==> d == c
    ensures var (n, complete) := CleanedUp(db, c, k, now, firstFails, secondFails);
            && Coupled(n) && Moved(db, n) && RowsKept(db, n)
            && (!firstFails || !secondFails ==> complete && !IsPending(n, c) && !n.status.WaitingDecision?)
  {
    CleanUpKeeps(db, c, k, now);
  }
}
