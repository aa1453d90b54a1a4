/** The runner's stage loop over the stored job, with cancellation requests and decisions arriving in between. */
module JobRunner {
  import opened JobStore
  import opened Wrappers
  import opened DecisionWait
  import DG = DecisionGate
  import DecisionPolicy

  /** A later stage has been started only if every earlier stage is terminal, and no stage is started a third time. */
  predicate Ordered(db: Db) {
    && (forall j, k | 0 <= j < k < |db.stages| :: db.stages[k].attempt > 0 ==> StageTerminal(db.stages[j].status))
    && (forall k | 0 <= k < |db.stages| :: db.stages[k].attempt <= 2)
  }

  lemma EndingKeepsOrder(a: Db, b: Db)
    requires Ordered(a) && OnlyEnds(a, b)
    ensures Ordered(b)
  {
    forall j, k | 0 <= j < k < |b.stages| && b.stages[k].attempt > 0 ensures StageTerminal(b.stages[j].status) {
      assert a.stages[k].attempt > 0;
    }
  }

  /** The choice of a retry, out of what the policy offers after a first retryable failure. */
  predicate RetryChosen(db: Db, k: nat) {
    var plan := DecisionPolicy.ForStageError(true, DecisionPolicy.Retryable, 0);
    Chosen(db, k, plan.value.options, DecisionPolicy.RETRY_ONCE)
  }

  /** No stage is started again unless the policy offered the retry and its checkpoint was settled with it. */
  predicate RetriesChosen(db: Db) {
    forall k | 0 <= k < |db.stages| :: db.stages[k].attempt > 1 ==> RetryChosen(db, k)
  }

  lemma ChoicesSurvive(a: Db, b: Db)
    requires RetriesChosen(a) && OnlyEnds(a, b) && RowsKept(a, b)
    ensures RetriesChosen(b)
  {
    var options := DecisionPolicy.ForStageError(true, DecisionPolicy.Retryable, 0).value.options;
    forall k | 0 <= k < |b.stages| && b.stages[k].attempt > 1 ensures RetryChosen(b, k) {
      assert a.stages[k].attempt > 1;
      ChoiceSurvives(a, b, k, options, DecisionPolicy.RETRY_ONCE);
    }
  }

  /** An internal error leaves a finished job as it is, and otherwise fails or cancels it, or leaves it waiting. */
  lemma InternalErrorEnds(db: Db)
    requires Coupled(db)
    ensures var n := FinishInternalError(db);
            if JobTerminal(db.status) || db.status.WaitingDecision? || db.status.Queued? then n == db
            else n.status == JobStatus.Failed || (n.status.Cancelled? && Ended(n))
  {
  }

  lemma StartingKeepsChoices(a: Db, b: Db, k: nat)
    requires RetriesChosen(a) && b.checkpoints == a.checkpoints && |b.stages| == |a.stages| && k < |a.stages|
    requires forall i | 0 <= i < |a.stages| && i != k :: b.stages[i] == a.stages[i]
    requires b.stages[k].attempt <= 1 || RetryChosen(a, k)
    ensures RetriesChosen(b)
  {
    forall i | 0 <= i < |b.stages| && b.stages[i].attempt > 1 ensures RetryChosen(b, i) {
      assert RetryChosen(a, i);
    }
  }

  lemma JobTxOnlyEnds(db: Db, tx: JobTx, now: int)
    requires !tx.Start? && !tx.Restart?
    ensures OnlyEnds(db, Apply(db, tx, now))
  {
  }

  /** `_finish_cancellation` changes nothing, or ends the job and every stage together. */
  lemma CancellationIsAllOrNothing(db: Db)
    requires Coupled(db)
    ensures FinishCancellation(db) != db <==> db.status.Cancelling?
    ensures FinishCancellation(db) != db ==>
      FinishCancellation(db).status.Cancelled? && Ended(FinishCancellation(db))
  {
    var ended := EndPending(db.(stages := MapStages(db.stages, StageRunning, StageCancelled)), StageCancelled);
    if !db.status.Cancelling? && ended == db {
      assert SetJobStatus(ended, Cancelling, Cancelled).0 == db;
    }
  }

  function Count(xs: seq<nat>, k: nat): nat {
    if xs == [] then 0 else Count(xs[..|xs| - 1], k) + if xs[|xs| - 1] == k then 1 else 0
  }

  lemma CountAppend(xs: seq<nat>, x: nat, k: nat)
    ensures Count(xs + [x], k) == Count(xs, k) + if x == k then 1 else 0
  {
    assert (xs + [x])[..|xs|] == xs;
  }

  const REVIEW :=
    DecisionPolicy.Plan(DG.Definition([0], 0, false), [0], 0)

  /** How a part of the stage loop ends: go on, leave the loop, or leave `run_job`. */
  datatype Flow = Go | SkipRest | NextStage | Finished | ToCancellation | ToError | Abandoned

  /** The stage failed, or was skipped although its last run had failed. */
  predicate Lost(row: StageRow, k: nat, results: map<nat, bool>) {
    row.status.StageFailed? || (row.status.StageSkipped? && k in results && !results[k])
  }

  /**
   * `failed` says, of the rows and the results of the last runs alone, whether some stage failed or was
   * skipped after failing; a stage succeeded only on an ok run, and failed only on one that was not.
   */
  predicate Tally(stages: seq<StageRow>, results: map<nat, bool>, failed: bool) {
    && (failed <==> exists k | 0 <= k < |stages| :: Lost(stages[k], k, results))
    && forall k | 0 <= k < |stages| ::
         && (stages[k].status.StageSucceeded? ==> k in results && results[k])
         && (stages[k].status.StageFailed? ==> k in results && !results[k])
  }

  /** One more stage ends: on the result of its last run, or skipped by decision before any run. */
  lemma TallyEnds(base: seq<StageRow>, results: map<nat, bool>, failed: bool, k: nat, row: StageRow)
    requires Tally(base, results, failed) && k < |base| && base[k].status.StagePending? && k !in results
    ensures row.status.StageSkipped? ==> Tally(base[k := row], results, failed)
    ensures row.status.StageSucceeded? ==> Tally(base[k := row], results[k := true], failed)
    ensures row.status.StageFailed? || row.status.StageSkipped? ==> Tally(base[k := row], results[k := false], true)
  {
    var more := base[k := row];
    assert more[k] == row;
    if failed {
      var i :| 0 <= i < |base| && Lost(base[i], i, results);
      assert i != k && more[i] == base[i];
    }
  }

  /** A finished stage joins the tally of the others with the result of its last run. */
  lemma TallyFinishes(stages: seq<StageRow>, base: seq<StageRow>, results: map<nat, bool>, failed: bool, k: nat,
                      status: StageStatus)
    requires k < |stages| && base == stages[k := StageRow(StagePending, 0)] && k !in results
    requires Tally(base, results, failed)
    requires status.StageSucceeded? || status.StageFailed? || status.StageSkipped?
    ensures Tally(stages[k := stages[k].(status := status)], results[k := status.StageSucceeded?],
                  failed || !status.StageSucceeded?)
  {
    var row := stages[k].(status := status);
    assert stages[k := row] == base[k := row];
    TallyEnds(base, results, failed, k, row);
  }

  /** Stages that never ran are skipped without a loss. */
  lemma TallySkips(stages: seq<StageRow>, results: map<nat, bool>, failed: bool, n: nat)
    requires Tally(stages, results, failed) && forall i <- results :: i < n
    requires forall i | 0 <= i < |stages| && i < n :: !stages[i].status.StagePending?
    ensures Tally(MapStages(stages, StagePending, StageSkipped), results, failed)
  {
    if failed {
      var i :| 0 <= i < |stages| && Lost(stages[i], i, results);
      assert MapStages(stages, StagePending, StageSkipped)[i] == stages[i];
    }
  }

  /** The states and events so far are a run of the gate that ends here, its stages in order throughout. */
  ghost predicate GateRun(history: seq<DG.State>, events: seq<DG.Event>, gate: DG.State) {
    && DG.Trace(history, events) && history[|events|] == gate
    && forall i | 0 <= i < |history| :: Ordered(history[i].db)
  }

  /** Where one event may take the rows of a run that is being worked on. */
  ghost predicate Admissible(a: Db, b: Db, closing: bool) {
    && Ordered(b) && RetriesChosen(b) && !b.status.Queued?
    && (b.status.Succeeded? || b.status.PartialFailed? ==> closing)
    && |b.stages| == |a.stages| && forall k | 0 <= k < |a.stages| :: b.stages[k].attempt >= a.stages[k].attempt
  }

  lemma RestartIsAdmissible(db: Db, k: nat, closing: bool)
    requires Ordered(db) && RetriesChosen(db) && k < |db.stages| && db.stages[k] == StageRow(StageRunning, 1)
    requires RetryChosen(db, k) && (db.status.Running? || db.status.Cancelling?)
    requires forall i | k < i < |db.stages| :: db.stages[i] == StageRow(StagePending, 0)
    ensures var (n, ok) := RestartStage(db, k);
            && Admissible(db, n, closing) && n.checkpoints == db.checkpoints && |n.stages| == |db.stages|
            && n.status == db.status
            && (ok ==> n == db.(stages := db.stages[k := StageRow(StageRunning, 2)], current := k))
  {
    StartingKeepsChoices(db, RestartStage(db, k).0, k);
  }

  lemma RunIsConsistent(history: seq<DG.State>, events: seq<DG.Event>, gate: DG.State)
    requires GateRun(history, events, gate)
    ensures DG.Inv(gate)
  {
    DG.TraceKeepsInv(history, events, |events|);
  }

  lemma RunGrows(history: seq<DG.State>, events: seq<DG.Event>, gate: DG.State, e: DG.Event)
    requires GateRun(history, events, gate) && DG.Enabled(gate, e) && Ordered(DG.Next(gate, e).db)
    ensures GateRun(history + [DG.Next(gate, e)], events + [e], DG.Next(gate, e))
  {
    assert DG.Step(gate, e, DG.Next(gate, e));
  }

  /** A job that was just claimed from the queue can be handed to a runner. */
  lemma ClaimedJobsCanRun(s: DG.State)
    requires DG.Initial(s)
    ensures var t := DG.Next(s, DG.JobStep(Claim));
            && DG.Inv(t) && Idle(t) && t.db.status.Running?
            && forall k | 0 <= k < |t.db.stages| :: t.db.stages[k] == StageRow(StagePending, 0)
  {
    DG.InitialIsConsistent(s);
    DG.StepKeepsInv(s, DG.JobStep(Claim));
  }

  /** How many failing steps end a wait for certain. */
  function Remaining(w: DG.Waiter): nat {
    match w
    case Cleaning => 2
    case CleaningAgain => 1
    case Returned(_) => 0
    case Raised => 0
    case _ => 3
  }

  class PipelineJobRunner {
    var db: Db
    var gate: DG.State                  // the same rows, with the clock and everyone who waits or resolves
    ghost var history: seq<DG.State>
    ghost var events: seq<DG.Event>
    ghost var runs: seq<nat>
    ghost var results: map<nat, bool>   // whether a stage's latest run came back ok
    ghost var closing: bool             // the final transaction has been reached

    /** Everything committed so far is a run of the gate, in every state of which the stages are in order. */
    ghost predicate Live()
      reads this
    {
      && gate.db == db && Coupled(db) && Ordered(db) && RetriesChosen(db) && !db.status.Queued?
      && (db.status.Succeeded? || db.status.PartialFailed? ==> closing)
      && GateRun(history, events, gate)
      && (forall k | 0 <= k < |db.stages| :: Count(runs, k) <= db.stages[k].attempt)
    }

    /** Between decisions nothing is awaited. */
    ghost predicate Valid()
      reads this
    {
      Live() && Idle(gate)
    }

    constructor (claimed: Db, start: DG.State)
      requires DG.Inv(start) && Idle(start) && start.db == claimed && claimed.status.Running?
      requires forall k | 0 <= k < |claimed.stages| :: claimed.stages[k] == StageRow(StagePending, 0)
      ensures Valid() && db == claimed && history == [start] && runs == [] && results == map[] && !closing
    {
      db, gate := claimed, start;
      history, events, runs, results, closing := [start], [], [], map[], false;
    }

    method Record(next: DG.State, ghost e: DG.Event)
      requires Live() && GateRun(history + [next], events + [e], next)
      requires Coupled(next.db) && Admissible(db, next.db, closing)
      modifies `db, `gate, `history, `events
      ensures Live() && gate == next && history == old(history) + [next]
    {
      gate, db := next, next.db;
      history, events := history + [next], events + [e];
    }

    /** One event of the gate, the runner's own or another task's. */
    method TakeStep(e: DG.Event)
      requires Live() && DG.Enabled(gate, e)
      requires Admissible(db, DG.Next(gate, e).db, closing)
      modifies `db, `gate, `history, `events
      ensures Live() && gate == DG.Next(old(gate), e) && history == old(history) + [gate]
    {
      RunIsConsistent(history, events, gate);
      DG.StepKeepsInv(gate, e);
      RunGrows(history, events, gate, e);
      Record(DG.Next(gate, e), e);
    }

    /** One event that leaves attempts and ended stages alone. */
    method StepAlong(e: DG.Event)
      requires Live() && DG.Enabled(gate, e)
      requires var n := DG.Next(gate, e).db;
               && OnlyEnds(db, n) && !n.status.Queued?
               && (n.status.Succeeded? || n.status.PartialFailed? ==> closing)
      modifies `db, `gate, `history, `events
      ensures Live() && gate == DG.Next(old(gate), e) && OnlyEnds(old(db), db) && RowsKept(old(db), db)
      ensures old(history) <= history
    {
      RunIsConsistent(history, events, gate);
      DG.StepMoves(gate, e);
      EndingKeepsOrder(db, DG.Next(gate, e).db);
      ChoicesSurvive(db, DG.Next(gate, e).db);
      TakeStep(e);
    }

    method CommitTx(tx: JobTx)
      requires Valid() && !tx.Start? && !tx.Restart? && (tx.Complete? ==> closing)
      modifies `db, `gate, `history, `events
      ensures Valid() && db == Apply(old(db), tx, old(gate).now) && OnlyEnds(old(db), db)
      ensures old(history) <= history
    {
      JobTxKeepsCoupling(db, tx, gate.now);
      JobTxOnlyEnds(db, tx, gate.now);
      StepAlong(DG.JobStep(tx));
    }

    /** While the runner works, other tasks do any number of things; only a cancellation request shows in the rows. */
    method Others()
      requires Valid() && (db.status.Running? || db.status.Cancelling?)
      modifies `db, `gate, `history, `events
      ensures Valid() && old(history) <= history
      ensures db == old(db) || (old(db).status.Running? && db == old(db).(status := Cancelling))
    {
      var rounds: nat := *;
      while rounds > 0
        invariant Valid() && old(history) <= history
        invariant db == old(db) || (old(db).status.Running? && db == old(db).(status := Cancelling))
        invariant db.status.Running? || db.status.Cancelling?
      {
        rounds := rounds - 1;
        var e: DG.Event := *;
        if Foreign(e) && DG.Enabled(gate, e) {
          RunIsConsistent(history, events, gate);
          ForeignAtRest(gate, e);
          StepAlong(e);
        }
      }
    }

    /** Stage k is the one being worked on: earlier stages are over, later ones untouched. */
    ghost predicate Working(k: nat)
      reads this
    {
      && Valid() && k < |db.stages| && db.current == k
      && (db.status.Running? || db.status.Cancelling?)
      && db.stages[k].status.StageRunning? && Count(runs, k) <= db.stages[k].attempt
      && (forall i | 0 <= i < k :: StageTerminal(db.stages[i].status))
      && (forall i | k < i < |db.stages| :: db.stages[i] == StageRow(StagePending, 0))
    }

    /** An event during the wait for checkpoint c. */
    method WaitStep(e: DG.Event, c: CheckpointId, k: nat, ghost stages: seq<StageRow>, ghost options: seq<OptionKey>)
      requires Live() && Awaiting(gate, c, k, stages, options) && !DG.Over(gate.waiters[c])
      requires DG.Enabled(gate, e) && (Foreign(e) || OfWaiter(e, c))
      modifies `db, `gate, `history, `events
      ensures Live() && old(history) <= history && gate == DG.Next(old(gate), e)
      ensures Awaiting(gate, c, k, stages, options)
    {
      RunIsConsistent(history, events, gate);
      EveryEventKeepsTheWait(gate, e, c, k, stages, options);
      StepAlong(e);
    }

    /**
     * The wait for checkpoint c: its waiter, resolvers, cancellation requests and the clock take any number
     * of steps in any order, until the waiter is over; at the latest it is cancelled and its cleanup fails.
     */
    method AwaitRow(k: nat, c: CheckpointId, ghost stages: seq<StageRow>, ghost options: seq<OptionKey>)
      requires Live() && Awaiting(gate, c, k, stages, options)
      modifies `db, `gate, `history, `events
      ensures Valid() && old(history) <= history && Awaiting(gate, c, k, stages, options)
      ensures DG.Over(gate.waiters[c])
    {
      var rounds: nat := *;
      while !DG.Over(gate.waiters[c])
        invariant Live() && old(history) <= history && Awaiting(gate, c, k, stages, options)
        decreases rounds, Remaining(gate.waiters[c])
      {
        var e: DG.Event := *;
        if rounds == 0 {
          e := if gate.waiters[c].Cleaning? || gate.waiters[c].CleaningAgain? then DG.Clean(c, true) else DG.Abort(c);
        } else {
          rounds := rounds - 1;
        }
        if DG.Enabled(gate, e) && (Foreign(e) || OfWaiter(e, c)) {
          WaitStep(e, c, k, stages, options);
        }
      }
    }

    /** How an awaited decision ends for the runner; `stages` are the stages before it was opened. */
    method AwaitOutcome(k: nat, c: CheckpointId, ghost stages: seq<StageRow>, ghost options: seq<OptionKey>)
      returns (flow: Flow, option: OptionKey)
      requires Live() && Awaiting(gate, c, k, stages, options)
      modifies `db, `gate, `history, `events
      ensures Valid() && old(history) <= history && |db.stages| == |stages|
      ensures flow.Go? || flow.ToCancellation? || flow.ToError? || flow.Abandoned?
      ensures flow.Go? ==> Resumed(db, k, stages) && db.status.Running?
      ensures flow.ToCancellation? ==> Resumed(db, k, stages) && db.status.Cancelling?
      ensures flow.Go? ==> option in options && Chosen(db, k, options, option)
      ensures db.status.Cancelled? ==> Ended(db)
    {
      AwaitRow(k, c, stages, options);
      option := 0;
      if !gate.waiters[c].Returned? {
        flow := *;
        if !flow.Abandoned? {
          flow := ToError;
        }
        return;
      }
      RunIsConsistent(history, events, gate);
      ReturnedMeansChosen(gate, c, k, stages, options);
      option := gate.waiters[c].r.key;
      if * {
        return Abandoned, option;   // the runner is cancelled right after the wait
      }
      if * {
        return ToError, option;     // or an exception follows it
      }
      Others();
      flow := if db.status.Cancelling? then ToCancellation else Go;
    }

    /** The checkpoint is opened and the job paused, or neither. */
    method OpenDecision(k: nat, plan: DecisionPolicy.Plan) returns (c: CheckpointId, isOpen: bool)
      requires Working(k)
      modifies `db, `gate, `history, `events
      ensures Live() && old(history) <= history
      ensures if isOpen then Awaiting(gate, c, k, old(db).stages, plan.options) else gate == old(gate)
    {
      c := *;
      var wait: nat := *;
      isOpen := false;
      if c in db.checkpoints || c in gate.waiters || !DG.Registered(plan.kind) {
        return;
      }
      var e := DG.Open(c, k, plan.kind, Some(plan.options), Some(plan.default), wait);
      RunIsConsistent(history, events, gate);
      OpeningWaits(gate, e);
      StepAlong(e);
      isOpen := c in gate.waiters;
    }

    method Decide(k: nat, plan: DecisionPolicy.Plan) returns (flow: Flow, option: OptionKey)
      requires Working(k)
      modifies `db, `gate, `history, `events
      ensures Valid() && old(history) <= history && |db.stages| == |old(db).stages|
      ensures db.status.Cancelled? ==> Ended(db)
      ensures flow.Go? || flow.ToCancellation? || flow.ToError? || flow.Abandoned?
      ensures flow.Go? ==> Resumed(db, k, old(db).stages) && db.status.Running?
      ensures flow.ToCancellation? ==> Resumed(db, k, old(db).stages) && db.status.Cancelling?
      ensures flow.Go? ==> option in plan.options && Chosen(db, k, plan.options, option)
    {
      option := plan.default;
      ghost var stages := db.stages;
      var c, isOpen := OpenDecision(k, plan);
      if !isOpen {
        flow := ToError;
        return;
      }
      flow, option := AwaitOutcome(k, c, stages, plan.options);
    }

    /** A planned decision is opened, then settled or cancelled by the gate; Go means one of its options was chosen. */
    method AwaitPlan(k: nat, plan: DecisionPolicy.Plan) returns (flow: Flow, option: OptionKey)
      requires Working(k)
      modifies `db, `gate, `history, `events
      ensures Valid() && old(history) <= history
      ensures db.status.Cancelled? ==> Ended(db)
      ensures flow.Go? || flow.ToCancellation? || flow.ToError? || flow.Abandoned?
      ensures flow.Go? ==> Working(k) && db.stages == old(db.stages) && db.status.Running?
      ensures flow.ToCancellation? ==> Working(k) && db.stages == old(db.stages) && db.status.Cancelling?
      ensures |db.stages| == |old(db).stages|
      ensures flow.Go? ==> option in plan.options && Chosen(db, k, plan.options, option)
    {
      Others();
      flow, option := Decide(k, plan);
    }

    /** The manual review: the browser is given up, the gate waits without a deadline, the browser is taken back. */
    method AwaitManualReview(k: nat) returns (flow: Flow)
      requires Working(k)
      modifies `db, `gate, `history, `events
      ensures Valid() && old(history) <= history && |db.stages| == |old(db).stages|
      ensures db.status.Cancelled? ==> Ended(db)
      ensures flow.Go? || flow.ToCancellation? || flow.ToError? || flow.Abandoned?
      ensures flow.Go? ==> Working(k) && db.stages == old(db.stages)
      ensures flow.ToCancellation? ==> Working(k) && db.stages == old(db.stages) && db.status.Cancelling?
    {
      if * {
        return ToError;          // the browser or the lease could not be released
      }
      if * {
        return Abandoned;        // the release was cancelled
      }
      var chosen: OptionKey;
      flow, chosen := AwaitPlan(k, REVIEW);
      if flow.Go? {
        if * {
          flow := ToError;       // the browser could not be taken back
        } else if * {
          flow := Abandoned;
        } else {
          Others();
          flow := if db.status.Cancelling? then ToCancellation else Go;
        }
      }
    }

    /** Stage k is cancelled, then everything else together with the job. */
    method CancelStage(k: nat)
      requires Working(k) && db.status.Cancelling?
      modifies `db, `gate, `history, `events
      ensures Valid() && old(history) <= history && |db.stages| == |old(db).stages|
      ensures db.status.Cancelled? && Ended(db)
    {
      CommitTx(Finish(k, StageCancelled));
      CancellationIsAllOrNothing(db);
      CommitTx(EndCancellation);
    }

    /** The cancel_job decision: the request, then this stage, then everything else with the job. */
    method CancelByDecision(k: nat) returns (flow: Flow)
      requires Working(k)
      modifies `db, `gate, `history, `events
      ensures Valid() && old(history) <= history && |db.stages| == |old(db).stages|
      ensures flow.Finished? && db.status.Cancelled? && Ended(db)
    {
      CommitTx(Cancel);
      CancelStage(k);
      flow := Finished;
    }

    /** The transaction that ends stage k; a cancellation request may come first. */
    method FinishRow(k: nat, status: StageStatus)
      requires Working(k) && StageTerminal(status)
      modifies `db, `gate, `history, `events
      ensures Valid() && old(history) <= history && (db.status.Running? || db.status.Cancelling?)
      ensures db.stages == old(db.stages)[k := old(db.stages)[k].(status := status)]
    {
      Others();
      CommitTx(Finish(k, status));
    }

    /** One decision before outreach; `again` asks for another round. */
    method OutreachRound(k: nat) returns (flow: Flow, again: bool)
      requires Working(k)
      modifies `db, `gate, `history, `events
      ensures Valid() && old(history) <= history && |db.stages| == |old(db).stages|
      ensures db.status.Cancelled? ==> Ended(db)
      ensures flow != SkipRest
      ensures flow.Go? ==> Working(k) && db.stages == old(db.stages)
      ensures flow.ToCancellation? ==> db.status.Cancelling?
      ensures flow.NextStage? ==>
        && db.stages == old(db.stages)[k := old(db.stages)[k].(status := StageSkipped)]
        && (db.status.Running? || db.status.Cancelling?)
      ensures flow.Finished? ==> db.status.Cancelled? && Ended(db)
    {
      again := false;
      if * {
        return Go, false;        // no decision is due
      }
      var plan: DecisionPolicy.Plan := *;
      var chosen: OptionKey;
      flow, chosen := AwaitPlan(k, plan);
      if !flow.Go? {
        return;
      }
      if * {
        flow := AwaitManualReview(k);
        again := true;
      } else if * {
        flow := CancelByDecision(k);
      } else if * {
        FinishRow(k, StageSkipped);
        flow := NextStage;
      } else if * {
        flow := ToError;         // an action the runner does not know
      }
    }

    /** The decisions before outreach. The number of reviews is arbitrary, drawn up front so that the loop ends. */
    method BeforeOutreach(k: nat) returns (flow: Flow)
      requires Working(k)
      modifies `db, `gate, `history, `events
      ensures Valid() && old(history) <= history && |db.stages| == |old(db).stages|
      ensures db.status.Cancelled? ==> Ended(db)
      ensures flow != SkipRest
      ensures flow.Go? ==> Working(k) && db.stages == old(db.stages)
      ensures flow.ToCancellation? ==> db.status.Cancelling?
      ensures flow.NextStage? ==>
        && db.stages == old(db.stages)[k := old(db.stages)[k].(status := StageSkipped)]
        && (db.status.Running? || db.status.Cancelling?)
      ensures flow.Finished? ==> db.status.Cancelled? && Ended(db)
    {
      var rounds: nat := *;
      var again := true;
      flow := Go;
      while again
        invariant Valid() && old(history) <= history && |db.stages| == |old(db).stages|
        invariant flow.Go? && Working(k) && db.stages == old(db.stages)
        decreases rounds, again
      {
        flow, again := OutreachRound(k);
        if !flow.Go? {
          return;
        }
        if rounds == 0 {
          again := false;
        } else {
          rounds := rounds - 1;
        }
      }
    }

    method RestartAt(k: nat) returns (flow: Flow)
      requires Working(k) && db.stages[k].attempt == 1 && RetryChosen(db, k)
      modifies `db, `gate, `history, `events
      ensures Valid() && old(history) <= history && |db.stages| == |old(db).stages|
      ensures db.status.Cancelled? ==> Ended(db)
      ensures flow.Go? || flow.ToError?
      ensures flow.Go? ==> Working(k) && db.stages == old(db.stages)[k := StageRow(StageRunning, 2)]
    {
      var (n, ok) := RestartStage(db, k);
      RestartIsAdmissible(db, k, closing);
      TakeStep(DG.JobStep(JobTx.Restart(k)));
      flow := if ok then Go else ToError;
    }

    method StopAt(k: nat) returns (flow: Flow)
      requires Working(k)
      modifies `db, `gate, `history, `events
      ensures Valid() && old(history) <= history && |db.stages| == |old(db).stages|
      ensures db.status.Cancelled? ==> Ended(db)
      ensures flow.Finished? || flow.ToError?
      ensures flow.Finished? ==> db.status == JobStatus.Failed && Ended(db)
    {
      var (_, ok) := StopJob(db, k);
      CommitTx(Stop(k));
      flow := if ok then Finished else ToError;
    }

    ghost method NoteRun(k: nat)
      requires Valid() && k < |db.stages| && Count(runs, k) < db.stages[k].attempt
      modifies `runs
      ensures Valid() && Count(runs, k) == Count(old(runs), k) + 1
    {
      var more := runs + [k];
      forall i | 0 <= i < |db.stages| ensures Count(more, i) <= db.stages[i].attempt {
        CountAppend(runs, k, i);
      }
      CountAppend(runs, k, k);
      runs := more;
    }

    /** One run of the stage's pipeline; Go means it produced a result. */
    method RunPipeline(k: nat) returns (flow: Flow, ok: bool)
      requires Working(k) && Count(runs, k) < db.stages[k].attempt
      modifies `db, `gate, `history, `events, `runs, `results
      ensures Valid() && old(history) <= history && |db.stages| == |old(db).stages|
      ensures db.status.Cancelled? ==> Ended(db)
      ensures flow.Go? || flow.ToCancellation? || flow.ToError? || flow.Abandoned?
      ensures flow.Go? ==> Working(k) && db.stages == old(db.stages) && Count(runs, k) == Count(old(runs), k) + 1
      ensures flow.Go? ==> results == old(results)[k := ok]
      ensures flow.ToCancellation? ==> db.status.Cancelling?
    {
      ok := false;
      Others();
      if db.status.Cancelling? {
        return ToCancellation, ok;
      }
      NoteRun(k);
      if * {
        return Abandoned, ok;
      }
      if * {
        return ToError, ok;
      }
      ok := *;
      results := results[k := ok];
      Others();
      flow := Go;
    }

    /** The decided action after a failed run; a retry restarts the stage in place. */
    method ActOnFailure(k: nat, retries: nat, option: OptionKey) returns (flow: Flow, retry: bool)
      requires Working(k) && db.stages[k].attempt == retries + 1
      requires option == DecisionPolicy.RETRY_ONCE ==> retries == 0 && RetryChosen(db, k)
      requires option == DecisionPolicy.RETRY_ONCE || option == DecisionPolicy.SKIP_STAGE
               || option == DecisionPolicy.STOP_JOB
      modifies `db, `gate, `history, `events
      ensures Valid() && old(history) <= history && |db.stages| == |old(db).stages|
      ensures db.status.Cancelled? ==> Ended(db)
      ensures flow.Go? || flow.Finished? || flow.ToError?
      ensures flow.Go? && retry ==> retries == 0 && db.stages == old(db.stages)[k := StageRow(StageRunning, 2)]
      ensures flow.Go? && !retry ==> db.stages == old(db.stages)
      ensures flow.Go? ==> Working(k)
      ensures flow.Finished? ==> db.status == JobStatus.Failed && Ended(db)
    {
      retry := false;
      Others();
      if option == DecisionPolicy.RETRY_ONCE && retries == 0 {
        retry := true;
        flow := RestartAt(k);
      } else if option == DecisionPolicy.SKIP_STAGE {
        flow := Go;
      } else {
        flow := StopAt(k);
      }
    }

    /**
     * The planned decision after a failed run: retry in place, skip the stage, or stop the job. The policy
     * offers nothing else, and the retry only once, so the runner's unknown-action branch is never taken.
     */
    method DecideFailure(k: nat, retries: nat, error: DecisionPolicy.ErrorClass, plan: DecisionPolicy.Plan)
      returns (flow: Flow, retry: bool)
      requires Working(k) && db.stages[k].attempt == retries + 1
      requires DecisionPolicy.ForStageError(true, error, retries) == Some(plan)
      modifies `db, `gate, `history, `events
      ensures Valid() && old(history) <= history && |db.stages| == |old(db).stages|
      ensures db.status.Cancelled? ==> Ended(db)
      ensures flow.Go? || flow.Finished? || flow.ToCancellation? || flow.ToError? || flow.Abandoned?
      ensures flow.Go? && retry ==> retries == 0 && db.stages == old(db.stages)[k := StageRow(StageRunning, 2)]
      ensures flow.Go? && !retry ==> db.stages == old(db.stages)
      ensures flow.Go? ==> Working(k)
      ensures flow.ToCancellation? ==> db.status.Cancelling?
      ensures flow.Finished? ==> db.status == JobStatus.Failed && Ended(db)
    {
      retry := false;
      DecisionPolicy.RetryIsOfferedOnce(true, error, retries);
      var option: OptionKey;
      flow, option := AwaitPlan(k, plan);
      if flow.Go? {
        flow, retry := ActOnFailure(k, retries, option);
      }
    }

    /** One attempt: a run, and the decision if it failed. */
    method Attempt(k: nat, retries: nat) returns (flow: Flow, status: StageStatus, retry: bool)
      requires Working(k) && db.stages[k].attempt == retries + 1 && Count(runs, k) == retries
      modifies `db, `gate, `history, `events, `runs, `results
      ensures Valid() && old(history) <= history && |db.stages| == |old(db).stages|
      ensures db.status.Cancelled? ==> Ended(db)
      ensures flow.Go? || flow.Finished? || flow.ToCancellation? || flow.ToError? || flow.Abandoned?
      ensures flow.Go? && retry ==> results == old(results)[k := false]
      ensures flow.Go? && retry ==>
        && retries == 0 && Working(k) && Count(runs, k) == 1
        && db.stages == old(db.stages)[k := StageRow(StageRunning, 2)]
      ensures flow.Go? && !retry ==>
        && Working(k) && db.stages == old(db.stages)
        && (status.StageSucceeded? || status.StageFailed? || status.StageSkipped?)
        && results == old(results)[k := status.StageSucceeded?]
      ensures flow.ToCancellation? ==> db.status.Cancelling?
      ensures flow.Finished? ==> db.status == JobStatus.Failed && Ended(db)
    {
      status, retry := StageSucceeded, false;
      var ok: bool;
      flow, ok := RunPipeline(k);
      if !flow.Go? {
        return;
      }
      if ok {
        return Go, StageSucceeded, false;
      }
      var campaign: bool := *;
      var error: DecisionPolicy.ErrorClass := *;
      var plan := DecisionPolicy.ForStageError(campaign, error, retries);
      if !plan.Some? {
        return Go, StageFailed, false;
      }
      flow, retry := DecideFailure(k, retries, error, plan.value);
      if flow.Go? && !retry {
        status := StageSkipped;
      }
    }

    /** Run the stage; a retryable failure may be retried once, in place. */
    method Attempts(k: nat) returns (flow: Flow, status: StageStatus)
      requires Working(k) && db.stages[k].attempt == 1 && Count(runs, k) == 0
      modifies `db, `gate, `history, `events, `runs, `results
      ensures Valid() && old(history) <= history && |db.stages| == |old(db).stages|
      ensures db.status.Cancelled? ==> Ended(db)
      ensures flow.Go? || flow.Finished? || flow.ToCancellation? || flow.ToError? || flow.Abandoned?
      ensures flow.Go? ==>
        && Working(k) && (forall i | 0 <= i < |db.stages| && i != k :: db.stages[i] == old(db.stages)[i])
        && (status.StageSucceeded? || status.StageFailed? || status.StageSkipped?)
        && results == old(results)[k := status.StageSucceeded?]
      ensures flow.ToCancellation? ==> db.status.Cancelling?
      ensures flow.Finished? ==> db.status == JobStatus.Failed && Ended(db)
    {
      var retries := 0;
      status := StageSucceeded;
      while true
        invariant 0 <= retries <= 1 && old(history) <= history
        invariant results == if retries == 0 then old(results) else old(results)[k := false]
        invariant Working(k) && db.stages[k].attempt == retries + 1 && Count(runs, k) == retries
        invariant |db.stages| == |old(db).stages|
        invariant forall i | 0 <= i < |db.stages| && i != k :: db.stages[i] == old(db.stages)[i]
        decreases 1 - retries
      {
        var retry: bool;
        flow, status, retry := Attempt(k, retries);
        if !flow.Go? || !retry {
          return;
        }
        retries := 1;
      }
    }

    /** The decision after a successful stage: go on, skip the rest, or cancel the job. */
    method AfterSuccess(k: nat) returns (flow: Flow)
      requires Working(k)
      modifies `db, `gate, `history, `events
      ensures Valid() && old(history) <= history && |db.stages| == |old(db).stages|
      ensures db.status.Cancelled? ==> Ended(db)
      ensures flow != NextStage
      ensures flow.Go? || flow.SkipRest? ==> Working(k) && db.stages == old(db.stages)
      ensures flow.ToCancellation? ==> db.status.Cancelling?
      ensures flow.Finished? ==> db.status.Cancelled? && Ended(db)
    {
      if * {
        return Go;
      }
      var plan: DecisionPolicy.Plan := *;
      var chosen: OptionKey;
      flow, chosen := AwaitPlan(k, plan);
      if !flow.Go? {
        return;
      }
      if * {
        flow := AwaitManualReview(k);
      } else if * {
        flow := SkipRest;
      } else if * {
        flow := CancelByDecision(k);
      } else if * {
        flow := ToError;
      }
    }

    /** Stages before k are over, the rest untouched; `failed`: one of them failed or was skipped after failing. */
    ghost predicate Between(k: nat, failed: bool)
      reads this
    {
      && Valid() && k <= |db.stages| && (db.status.Running? || db.status.Cancelling?)
      && (forall i | 0 <= i < k :: StageTerminal(db.stages[i].status))
      && (forall i | k <= i < |db.stages| :: db.stages[i] == StageRow(StagePending, 0))
      && (forall i <- results :: i < k)
      && Tally(db.stages, results, failed)
    }

    /** Stage k is being worked on, and the others stand as tallied before it started. */
    ghost predicate WorkingAfter(k: nat, failed: bool)
      reads this
    {
      && Working(k) && (forall i <- results :: i < k)
      && Tally(db.stages[k := StageRow(StagePending, 0)], results, failed)
    }

    method StartAt(k: nat, ghost failed: bool) returns (flow: Flow)
      requires Between(k, failed) && k < |db.stages|
      modifies `db, `gate, `history, `events
      ensures Valid() && old(history) <= history && |db.stages| == |old(db).stages|
      ensures flow.Go? || flow.ToError?
      ensures flow.Go? ==> WorkingAfter(k, failed) && db.stages[k].attempt == 1 && Count(runs, k) == 0
      ensures flow.ToError? ==> !db.status.Cancelled?
    {
      var (n, ok) := StartStage(db, k);
      if !ok {
        return ToError;
      }
      StartingKeepsChoices(db, n, k);
      TakeStep(DG.JobStep(JobTx.Start(k)));
      assert db.stages[k := StageRow(StagePending, 0)] == old(db).stages;
      flow := Go;
    }

    /** The check for a cancellation request, then the start. */
    method EnterStage(k: nat, ghost failed: bool) returns (flow: Flow)
      requires Between(k, failed) && k < |db.stages|
      modifies `db, `gate, `history, `events
      ensures Valid() && old(history) <= history && |db.stages| == |old(db).stages|
      ensures flow.Go? || flow.ToError? || flow.ToCancellation?
      ensures flow.Go? ==> WorkingAfter(k, failed) && db.stages[k].attempt == 1 && Count(runs, k) == 0
      ensures flow.ToError? ==> !db.status.Cancelled?
      ensures flow.ToCancellation? ==> db.status.Cancelling?
    {
      Others();
      if db.status.Cancelling? {
        return ToCancellation;
      }
      Others();
      flow := StartAt(k, failed);
    }

    /** The runs of stage k, and the decision after a good one. */
    method RunAndDecide(k: nat) returns (flow: Flow, status: StageStatus)
      requires Working(k) && db.stages[k].attempt == 1 && Count(runs, k) == 0
      modifies `db, `gate, `history, `events, `runs, `results
      ensures Valid() && old(history) <= history && |db.stages| == |old(db).stages|
      ensures db.status.Cancelled? ==> Ended(db)
      ensures flow.Go? || flow.SkipRest? ==>
        && Working(k) && (forall i | 0 <= i < |db.stages| && i != k :: db.stages[i] == old(db.stages)[i])
        && (status.StageSucceeded? || status.StageFailed? || status.StageSkipped?)
        && results == old(results)[k := status.StageSucceeded?]
      ensures flow.SkipRest? ==> status.StageSucceeded?
      ensures flow != NextStage
      ensures flow.ToCancellation? ==> db.status.Cancelling?
      ensures flow.Finished? ==> (db.status.Cancelled? || db.status == JobStatus.Failed) && Ended(db)
    {
      flow, status := Attempts(k);
      if flow.Go? && status.StageSucceeded? {
        flow := AfterSuccess(k);
      }
    }

    /** Everything between the start of stage k and the transaction that finishes it. */
    method WorkOn(k: nat) returns (flow: Flow, status: StageStatus)
      requires Working(k) && db.stages[k].attempt == 1 && Count(runs, k) == 0
      modifies `db, `gate, `history, `events, `runs, `results
      ensures Valid() && old(history) <= history && |db.stages| == |old(db).stages|
      ensures db.status.Cancelled? ==> Ended(db)
      ensures flow.Go? || flow.SkipRest? ==>
        && Working(k) && (forall i | 0 <= i < |db.stages| && i != k :: db.stages[i] == old(db.stages)[i])
        && (status.StageSucceeded? || status.StageFailed? || status.StageSkipped?)
        && results == old(results)[k := status.StageSucceeded?]
      ensures flow.SkipRest? ==> status.StageSucceeded?
      ensures flow.NextStage? ==>
        && db.stages == old(db.stages)[k := old(db.stages)[k].(status := StageSkipped)]
        && (db.status.Running? || db.status.Cancelling?)
      ensures flow.NextStage? ==> results == old(results)
      ensures flow.ToCancellation? ==> db.status.Cancelling?
      ensures flow.Finished? ==> (db.status.Cancelled? || db.status == JobStatus.Failed) && Ended(db)
    {
      status := StageSucceeded;
      var outreach: bool := *;
      if outreach {
        flow := BeforeOutreach(k);
        if !flow.Go? {
          return;
        }
      }
      flow, status := RunAndDecide(k);
    }

    /** The finishing transaction of stage k; `base` and `before` are the stages and results without k. */
    method FinishAt(k: nat, status: StageStatus, ghost base: seq<StageRow>, ghost before: map<nat, bool>,
                    ghost failed: bool)
      requires Working(k) && (forall i <- before :: i < k)
      requires base == db.stages[k := StageRow(StagePending, 0)] && Tally(base, before, failed)
      requires status.StageSucceeded? || status.StageFailed? || status.StageSkipped?
      requires results == before[k := status.StageSucceeded?]
      modifies `db, `gate, `history, `events
      ensures old(history) <= history && |db.stages| == |old(db).stages|
      ensures Between(k + 1, failed || !status.StageSucceeded?)
    {
      TallyFinishes(db.stages, base, before, failed, k, status);
      FinishRow(k, status);
    }

    /** After a finished stage: skip the rest if so decided, else stop here when the job is being cancelled. */
    method NextTurn(k: nat, decided: Flow, ghost failed: bool) returns (flow: Flow)
      requires Between(k + 1, failed) && k < |db.stages| && (decided.Go? || decided.SkipRest?)
      modifies `db, `gate, `history, `events
      ensures Valid() && old(history) <= history && |db.stages| == |old(db).stages|
      ensures flow.Go? || flow.SkipRest? || flow.ToCancellation?
      ensures flow.Go? ==> Between(k + 1, failed)
      ensures flow.SkipRest? ==> Between(|db.stages|, failed)
      ensures flow.ToCancellation? ==> db.status.Cancelling?
    {
      flow := decided;
      if decided.SkipRest? {
        CommitTx(SkipPending);
        TallySkips(old(db).stages, results, failed, k + 1);
        return;
      }
      Others();
      if db.status.Cancelling? {
        flow := ToCancellation;
      }
    }

    /** A started stage is worked on, finished, and left. */
    method CompleteStage(k: nat, failedBefore: bool) returns (flow: Flow, failed: bool)
      requires WorkingAfter(k, failedBefore) && db.stages[k].attempt == 1 && Count(runs, k) == 0
      modifies `db, `gate, `history, `events, `runs, `results
      ensures Valid() && old(history) <= history && |db.stages| == |old(db).stages|
      ensures flow.Go? ==> Between(k + 1, failed)
      ensures flow.SkipRest? ==> Between(|db.stages|, failed)
      ensures flow != NextStage
      ensures flow.ToCancellation? ==> db.status.Cancelling?
      ensures flow.Finished? ==> (db.status.Cancelled? || db.status == JobStatus.Failed) && Ended(db)
      ensures db.status.Cancelled? ==> Ended(db)
    {
      failed := failedBefore;
      ghost var base, before := db.stages[k := StageRow(StagePending, 0)], results;
      var status: StageStatus;
      flow, status := WorkOn(k);
      if !flow.Go? && !flow.SkipRest? && !flow.NextStage? {
        return;
      }
      assert base == db.stages[k := StageRow(StagePending, 0)];
      if flow.NextStage? {
        assert db.stages == base[k := db.stages[k]];
        TallyEnds(base, before, failed, k, db.stages[k]);
        return Go, failed;
      }
      failed := failed || !status.StageSucceeded?;
      FinishAt(k, status, base, before, failedBefore);
      flow := NextTurn(k, flow, failed);
    }

    /** One turn of the stage loop. */
    method RunStage(k: nat, failedBefore: bool) returns (flow: Flow, failed: bool)
      requires Between(k, failedBefore) && k < |db.stages|
      modifies `db, `gate, `history, `events, `runs, `results
      ensures Valid() && old(history) <= history && |db.stages| == |old(db).stages|
      ensures flow.Go? ==> Between(k + 1, failed)
      ensures flow.SkipRest? ==> Between(|db.stages|, failed)
      ensures flow != NextStage
      ensures flow.ToCancellation? ==> db.status.Cancelling?
      ensures flow.Finished? ==> (db.status.Cancelled? || db.status == JobStatus.Failed) && Ended(db)
      ensures db.status.Cancelled? ==> Ended(db)
    {
      failed := failedBefore;
      flow := EnterStage(k, failed);
      if flow.Go? {
        flow, failed := CompleteStage(k, failed);
      }
    }

    /** A committed success, partial failure or cancellation covers every stage, and tells losses apart. */
    ghost predicate Reported()
      reads this
    {
      && (db.status.Succeeded? || db.status.PartialFailed? || db.status.Cancelled? ==> Ended(db))
      && (db.status.Succeeded? || db.status.PartialFailed? ==> Tally(db.stages, results, db.status.PartialFailed?))
    }

    /** The stages in order, until one of them decides otherwise. */
    method RunStages() returns (flow: Flow, failed: bool)
      requires Between(0, false) && !closing
      modifies `db, `gate, `history, `events, `runs, `results
      ensures Valid() && old(history) <= history && Reported()
      ensures flow.Go? || flow.Finished? || flow.ToCancellation? || flow.ToError? || flow.Abandoned?
      ensures flow.Go? ==> Between(|db.stages|, failed)
      ensures flow != NextStage && flow != SkipRest
      ensures flow.ToCancellation? ==> db.status.Cancelling?
      ensures flow.Finished? ==> JobTerminal(db.status)
      ensures db.status.Cancelled? ==> Ended(db)
    {
      flow, failed := Go, false;
      for k := 0 to |db.stages|
        invariant flow.Go? && Between(k, failed) && |db.stages| == |old(db).stages| && old(history) <= history
      {
        flow, failed := RunStage(k, failed);
        if flow.SkipRest? {
          return Go, failed;
        }
        if !flow.Go? {
          return;
        }
      }
    }

    method Close(failed: bool)
      requires Between(|db.stages|, failed)
      modifies `db, `gate, `history, `events, `closing
      ensures Valid() && old(history) <= history && Ended(db) && Tally(db.stages, results, failed)
      ensures db.status ==
        if old(db).status.Cancelling? then Cancelling else if failed then PartialFailed else Succeeded
    {
      closing := true;
      CommitTx(JobTx.Complete(failed));
    }

    /** The final compare-and-set from running. */
    method FinishJob(failed: bool) returns (flow: Flow)
      requires Between(|db.stages|, failed)
      modifies `db, `gate, `history, `events, `closing
      ensures Valid() && old(history) <= history
      ensures flow.Finished? || flow.ToCancellation?
      ensures flow.ToCancellation? ==> db.status.Cancelling?
      ensures flow.Finished? ==> db.status == (if failed then PartialFailed else Succeeded)
      ensures Reported()
    {
      Others();
      Close(failed);
      flow := if db.status.Cancelling? then ToCancellation else Finished;
    }

    method EndCancelled()
      requires Valid() && db.status.Cancelling?
      modifies `db, `gate, `history, `events
      ensures Valid() && old(history) <= history && db.status.Cancelled? && Ended(db)
    {
      CancellationIsAllOrNothing(db);
      CommitTx(EndCancellation);
    }

    method EndFailed()
      requires Valid() && Reported()
      modifies `db, `gate, `history, `events
      ensures Valid() && old(history) <= history && Reported()
      ensures JobTerminal(db.status) || db.status.WaitingDecision?
    {
      InternalErrorEnds(db);
      CommitTx(EndWithError);
    }

    method EndJob(flow: Flow) returns (returned: bool)
      requires Valid() && Reported() && (flow.ToCancellation? ==> db.status.Cancelling?)
      requires flow.Finished? ==> JobTerminal(db.status)
      requires flow.Finished? || flow.ToCancellation? || flow.ToError? || flow.Abandoned?
      modifies `db, `gate, `history, `events
      ensures Valid() && old(history) <= history && Reported()
      ensures returned ==> JobTerminal(db.status) || db.status.WaitingDecision?
    {
      returned := !flow.Abandoned?;
      if db.status.Running? || db.status.Cancelling? {
        Others();
      }
      if flow.ToCancellation? {
        EndCancelled();
      } else if flow.ToError? {
        EndFailed();
      }
    }

    /** `run_job` for a claimed job; false means the coroutine itself was cancelled. */
    method RunJob() returns (returned: bool)
      requires Between(0, false) && db.status.Running? && !closing
      modifies this
      ensures Valid() && old(history) <= history && Reported()
      ensures DG.Trace(history, events) && history[|events|].db == db
      ensures forall k | 0 <= k < |db.stages| ::
        Count(runs, k) <= db.stages[k].attempt <= 2 && (db.stages[k].attempt == 2 ==> RetryChosen(db, k))
      ensures returned ==> JobTerminal(db.status) || db.status.WaitingDecision?
    {
      Others();
      var flow, failed := Go, false;
      if db.status.Cancelling? {
        flow := ToCancellation;
      } else if * {
        flow := ToError;           // no account, no lease or no browser
      } else if * {
        flow := Abandoned;
      } else {
        flow, failed := RunStages();
      }
      if flow.Go? {
        flow := FinishJob(failed);
      }
      returned := EndJob(flow);
    }
  }
}
