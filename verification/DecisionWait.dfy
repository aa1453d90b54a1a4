/** One awaited decision inside a run of the gate: every event that can fall into the wait, until it is over. */
module DecisionWait {
  import opened JobStore
  import opened Wrappers
  import DG = DecisionGate

  /** Attempts never change and terminal stages stay as they are. */
  predicate OnlyEnds(a: Db, b: Db) {
    && |a.stages| == |b.stages|
    && forall k | 0 <= k < |a.stages| ::
         && b.stages[k].attempt == a.stages[k].attempt
         && (StageTerminal(a.stages[k].status) ==> b.stages[k] == a.stages[k])
  }

  predicate Ended(db: Db) {
    forall k | 0 <= k < |db.stages| :: StageTerminal(db.stages[k].status)
  }

  /** What other tasks do to a job that a runner holds: the clock, resolvers, and cancellation requests. */
  predicate Foreign(e: DG.Event) {
    e.Tick? || e.Read? || e.Resolve? || e.ReadAnswer? || e == DG.JobStep(Cancel)
  }

  predicate OfWaiter(e: DG.Event, c: CheckpointId) {
    (e.Poll? || e.ResolveTimeout? || e.ReadWinner? || e.Abort? || e.Clean?) && e.c == c
  }

  /** No decision is being awaited. */
  predicate Idle(s: DG.State) {
    forall c <- s.waiters :: DG.Over(s.waiters[c])
  }

  /** Between decisions, whatever other tasks do, the rows change only by a cancellation request. */
  lemma ForeignAtRest(s: DG.State, e: DG.Event)
    requires DG.Inv(s) && Idle(s) && Foreign(e) && DG.Enabled(s, e)
    requires s.db.status.Running? || s.db.status.Cancelling?
    ensures Idle(DG.Next(s, e))
    ensures var n := DG.Next(s, e).db;
            n == s.db || (s.db.status.Running? && n == s.db.(status := Cancelling))
  {
    if e.Resolve? {
      var r := s.resolvers[e.p];
      SettleKeeps(s.db, r.c, r.option, r.version, r.source, s.now);
    }
  }

  // ----- the wait -----

  /** What the runner knows when it opens a decision for stage k. */
  predicate Before(stages: seq<StageRow>, k: nat) {
    && k < |stages| && stages[k].status.StageRunning?
    && forall i | 0 <= i < |stages| && i != k :: StageTerminal(stages[i].status) || stages[i].status.StagePending?
  }

  /** The job stands where it stood before the decision. */
  predicate Resumed(db: Db, k: nat, stages: seq<StageRow>) {
    db.current == k && db.stages == stages && (db.status.Running? || db.status.Cancelling?)
  }

  /** The rows during the wait for checkpoint c, and at each of its ends. */
  predicate RowsDuring(db: Db, c: CheckpointId, k: nat, stages: seq<StageRow>, over: bool)
    requires c in db.checkpoints && k < |stages|
  {
    match db.checkpoints[c].status
    case Pending =>
      db.status.WaitingDecision? && db.current == k && db.stages == stages[k := stages[k].(status := StageWaiting)]
    case CheckpointCancelled =>
      || (db.status.Cancelled? && Ended(db) && |db.stages| == |stages|)
      || (over && Resumed(db, k, stages))
      || (over && db.status.Interrupted? && db.stages == stages[k := stages[k].(status := StageFailed)])
    case _ => Resumed(db, k, stages)
  }

  /** The state while checkpoint c of stage k is awaited. */
  predicate Awaiting(s: DG.State, c: CheckpointId, k: nat, stages: seq<StageRow>, options: seq<OptionKey>) {
    && Before(stages, k) && c in s.waiters && c in s.db.checkpoints
    && (forall d <- s.waiters :: d != c ==> DG.Over(s.waiters[d]))
    && s.db.checkpoints[c].stage == k && s.db.checkpoints[c].options == options
    && RowsDuring(s.db, c, k, stages, DG.Over(s.waiters[c]))
  }

  /** The rows may move on from db to n: attempts and ended stages stay, and no success is reported. */
  predicate MayMove(db: Db, n: Db) {
    OnlyEnds(db, n) && !n.status.Succeeded? && !n.status.PartialFailed? && !n.status.Queued?
  }

  predicate Keeps(s: DG.State, t: DG.State, c: CheckpointId, k: nat, stages: seq<StageRow>, options: seq<OptionKey>) {
    Awaiting(t, c, k, stages, options) && MayMove(s.db, t.db)
  }

  predicate SameOffer(x: Checkpoint, y: Checkpoint) {
    y.stage == x.stage && y.options == x.options
  }

  lemma CancelledRows(db: Db, c: CheckpointId, k: nat, stages: seq<StageRow>, now: int)
    requires c in db.checkpoints && Before(stages, k) && RowsDuring(db, c, k, stages, false)
    ensures var n := RequestCancel(db, now);
            && c in n.checkpoints && RowsDuring(n, c, k, stages, false) && MayMove(db, n)
            && SameOffer(db.checkpoints[c], n.checkpoints[c])
  {
  }

  lemma CleanedRows(db: Db, c: CheckpointId, k: nat, stages: seq<StageRow>, now: int)
    requires c in db.checkpoints && Before(stages, k) && RowsDuring(db, c, k, stages, false)
    ensures var (n, done) := CleanUp(db, c, k, now);
            && done && c in n.checkpoints && RowsDuring(n, c, k, stages, true) && MayMove(db, n)
            && SameOffer(db.checkpoints[c], n.checkpoints[c])
  {
  }

  lemma CleanedRowsAgain(db: Db, c: CheckpointId, k: nat, stages: seq<StageRow>, now: int)
    requires c in db.checkpoints && Before(stages, k) && RowsDuring(db, c, k, stages, false)
    ensures var n := CleanUpAgain(db, c, k, now);
            && c in n.checkpoints && RowsDuring(n, c, k, stages, true) && MayMove(db, n)
            && SameOffer(db.checkpoints[c], n.checkpoints[c])
  {
  }

  lemma CancelKeepsWait(s: DG.State, c: CheckpointId, k: nat, stages: seq<StageRow>, options: seq<OptionKey>)
    requires DG.Inv(s) && Awaiting(s, c, k, stages, options) && !DG.Over(s.waiters[c])
    ensures Keeps(s, DG.Next(s, DG.JobStep(Cancel)), c, k, stages, options)
  {
    CancelledRows(s.db, c, k, stages, s.now);
  }

  lemma SettleKeepsWait(s: DG.State, c: CheckpointId, k: nat, stages: seq<StageRow>, options: seq<OptionKey>,
                        d: CheckpointId, option: OptionKey, version: nat, source: Source)
    requires DG.Inv(s) && Awaiting(s, c, k, stages, options) && !DG.Over(s.waiters[c])
    ensures var (db, ok) := Settle(s.db, d, option, version, source, s.now);
            && Keeps(s, s.(db := db), c, k, stages, options) && (ok ==> d == c)
  {
    SettleKeeps(s.db, d, option, version, source, s.now);
    if IsPending(s.db, d) {
      assert d == c;
    }
  }

  lemma ResolverKeepsWait(s: DG.State, e: DG.Event, c: CheckpointId, k: nat, stages: seq<StageRow>,
                          options: seq<OptionKey>)
    requires DG.Inv(s) && Awaiting(s, c, k, stages, options) && !DG.Over(s.waiters[c])
    requires DG.Enabled(s, e) && (e.Tick? || e.Read? || e.Resolve? || e.ReadAnswer?)
    ensures Keeps(s, DG.Next(s, e), c, k, stages, options)
  {
    if e.Resolve? {
      var r := s.resolvers[e.p];
      SettleKeepsWait(s, c, k, stages, options, r.c, r.option, r.version, r.source);
    }
  }

  lemma WaitMovesOn(s: DG.State, db: Db, w: DG.Waiter, c: CheckpointId, k: nat, stages: seq<StageRow>,
                    options: seq<OptionKey>)
    requires Awaiting(s, c, k, stages, options)
    requires c in db.checkpoints && RowsDuring(db, c, k, stages, DG.Over(w)) && MayMove(s.db, db)
    requires SameOffer(s.db.checkpoints[c], db.checkpoints[c])
    ensures Keeps(s, s.(db := db, waiters := s.waiters[c := w]), c, k, stages, options)
  {
  }

  lemma CleanKeepsWait(s: DG.State, c: CheckpointId, fails: bool, k: nat, stages: seq<StageRow>,
                       options: seq<OptionKey>)
    requires DG.Inv(s) && Awaiting(s, c, k, stages, options) && DG.Enabled(s, DG.Clean(c, fails))
    ensures Keeps(s, DG.Next(s, DG.Clean(c, fails)), c, k, stages, options)
  {
    if s.waiters[c].CleaningAgain? {
      if !fails {
        CleanedRowsAgain(s.db, c, k, stages, s.now);
      }
      WaitMovesOn(s, if fails then s.db else CleanUpAgain(s.db, c, k, s.now), DG.Raised, c, k, stages, options);
    } else if fails {
      WaitMovesOn(s, s.db, DG.CleaningAgain, c, k, stages, options);
    } else {
      CleanedRows(s.db, c, k, stages, s.now);
      WaitMovesOn(s, CleanUp(s.db, c, k, s.now).0, DG.Raised, c, k, stages, options);
    }
  }

  lemma WaiterKeepsWait(s: DG.State, e: DG.Event, c: CheckpointId, k: nat, stages: seq<StageRow>,
                        options: seq<OptionKey>)
    requires DG.Inv(s) && Awaiting(s, c, k, stages, options) && DG.Enabled(s, e) && OfWaiter(e, c)
    ensures Keeps(s, DG.Next(s, e), c, k, stages, options)
  {
    if e.Clean? {
      CleanKeepsWait(s, c, e.fails, k, stages, options);
    } else if e.ResolveTimeout? {
      var x := s.db.checkpoints[c];
      SettleKeepsWait(s, c, k, stages, options, c, x.default, x.version, Timeout);
    }
  }

  /** No event that can fall into the wait leads out of what the runner accounts for. */
  lemma EveryEventKeepsTheWait(s: DG.State, e: DG.Event, c: CheckpointId, k: nat, stages: seq<StageRow>,
                               options: seq<OptionKey>)
    requires DG.Inv(s) && Awaiting(s, c, k, stages, options) && !DG.Over(s.waiters[c])
    requires DG.Enabled(s, e) && (Foreign(e) || OfWaiter(e, c))
    ensures Keeps(s, DG.Next(s, e), c, k, stages, options)
  {
    if OfWaiter(e, c) {
      WaiterKeepsWait(s, e, c, k, stages, options);
    } else if e.JobStep? {
      CancelKeepsWait(s, c, k, stages, options);
    } else {
      ResolverKeepsWait(s, e, c, k, stages, options);
    }
  }

  predicate ChosenIn(x: Checkpoint, k: nat, options: seq<OptionKey>, option: OptionKey) {
    (x.status.Resolved? || x.status.Expired?) && x.stage == k && x.options == options && x.key == option
  }

  /** A decision of stage k was settled with this option, out of these. */
  predicate Chosen(db: Db, k: nat, options: seq<OptionKey>, option: OptionKey) {
    exists c <- db.checkpoints :: ChosenIn(db.checkpoints[c], k, options, option)
  }

  /** A waiter that returned saw its row settled with one of the options, and the job resumed. */
  lemma ReturnedMeansChosen(s: DG.State, c: CheckpointId, k: nat, stages: seq<StageRow>, options: seq<OptionKey>)
    requires DG.Inv(s) && Awaiting(s, c, k, stages, options) && s.waiters[c].Returned?
    ensures Resumed(s.db, k, stages) && s.waiters[c].r.key in options
    ensures Chosen(s.db, k, options, s.waiters[c].r.key)
  {
    assert DG.WaiterOk(s.db, s.now, c, s.waiters[c]) && DG.RowOk(s.db.checkpoints[c], s.now);
    assert ChosenIn(s.db.checkpoints[c], k, options, s.waiters[c].r.key);
  }

  lemma ChoiceSurvives(a: Db, b: Db, k: nat, options: seq<OptionKey>, option: OptionKey)
    requires RowsKept(a, b) && Chosen(a, k, options, option)
    ensures Chosen(b, k, options, option)
  {
    var c :| c in a.checkpoints && ChosenIn(a.checkpoints[c], k, options, option);
    assert ChosenIn(b.checkpoints[c], k, options, option);
  }

  /** Opening pauses the job at the stage, or changes nothing. */
  lemma OpeningWaits(s: DG.State, e: DG.Event)
    requires DG.Inv(s) && Idle(s) && e.Open? && DG.Enabled(s, e)
    requires s.db.current == e.k && (s.db.status.Running? || s.db.status.Cancelling?) && Before(s.db.stages, e.k)
    ensures var t := DG.Next(s, e);
            if e.c in t.waiters then
              && DG.OptionSubset(e.d, e.options, e.default).Some? && !DG.Over(t.waiters[e.c])
              && Keeps(s, t, e.c, e.k, s.db.stages, DG.OptionSubset(e.d, e.options, e.default).value.0)
            else t == s
  {
  }
}
