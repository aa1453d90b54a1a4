/** The decision gate: waiters, human resolvers, timeouts and cancellations race over one checkpoint row. */
module DecisionGate {
  import opened Wrappers
  import opened JobStore

  // ----- registered options -----

  datatype Definition = Definition(options: seq<OptionKey>, default: OptionKey, auto: bool)

  predicate Distinct(xs: seq<OptionKey>) {
    forall i, j :: 0 <= i < j < |xs| ==> xs[i] != xs[j]
  }

  /** `_option_subset`; None is the validation error. */
  function OptionSubset(d: Definition, options: Option<seq<OptionKey>>, default: Option<OptionKey>):
    Option<(seq<OptionKey>, OptionKey)>
  {
    var chosen := if options.None? then d.options else options.value;
    var fallback := if default.None? then d.default else default.value;
    if chosen == [] || !Distinct(chosen) || exists o <- chosen :: o !in d.options then None
    else if fallback !in chosen then None
    else Some((chosen, fallback))
  }

  /** A definition as registered: distinct options, the default among them. */
  predicate Registered(d: Definition) {
    d.options != [] && Distinct(d.options) && d.default in d.options
  }

  /** What is offered is a non-empty distinct subset holding the default; leaving both out offers everything. */
  lemma OfferedOptions(d: Definition, options: Option<seq<OptionKey>>, default: Option<OptionKey>)
    requires Registered(d)
    ensures var r := OptionSubset(d, options, default);
            && (r.Some? ==> r.value.0 != [] && Distinct(r.value.0) && r.value.1 in r.value.0
                            && forall o <- r.value.0 :: o in d.options)
            && (options.None? && default.None? ==> r == Some((d.options, d.default)))
            && (options.Some? && default.None? && d.default !in options.value ==> r == None)
  {
  }

  // ----- the racing parties -----

  datatype Resolution = Resolution(status: CheckpointStatus, key: OptionKey, source: Source, at: int)

  /** `_resolution`. */
  function Resolved(x: Checkpoint): Option<Resolution> {
    if x.status.Pending? then None else Some(Resolution(x.status, x.key, x.source, x.at))
  }

  function RowOf(db: Db, c: CheckpointId): Option<Resolution> {
    if c in db.checkpoints then Resolved(db.checkpoints[c]) else None
  }

  /** An `await_decision` call after its checkpoint is committed, named by what it does next. */
  datatype Waiter =
    | Polling
    | TimedOut
    | Beaten
    | Cleaning
    | CleaningAgain
    | Returned(r: Resolution)
    | Raised

  predicate Over(w: Waiter) {
    w.Returned? || w.Raised?
  }

  /** A `resolve` call after its first read. */
  datatype Resolver =
    | Chose(c: CheckpointId, option: OptionKey, version: nat, source: Source)
    | Lost(c: CheckpointId)
    | Answered(c: CheckpointId, won: bool, answer: Option<Resolution>)

  type ResolverId = nat

  datatype State = State(
    now: int, db: Db,
    waiters: map<CheckpointId, Waiter>,
    resolvers: map<ResolverId, Resolver>)

  datatype Event =
    | Tick(now: int)
    | JobStep(tx: JobTx)
    | Open(c: CheckpointId, k: nat, d: Definition, options: Option<seq<OptionKey>>, default: Option<OptionKey>,
           wait: nat)
    | Poll(c: CheckpointId)
    | ResolveTimeout(c: CheckpointId)
    | ReadWinner(c: CheckpointId)
    | Abort(c: CheckpointId)
    | Clean(c: CheckpointId, fails: bool)
    | Read(p: ResolverId, c: CheckpointId, option: OptionKey, version: nat)
    | Resolve(p: ResolverId)
    | ReadAnswer(p: ResolverId)

  /** Everything the code itself requires. */
  predicate Possible(s: State, e: Event) {
    match e
    case Tick(now) => now >= s.now
    case JobStep(_) => true
    case Open(c, _, d, _, _, _) => c !in s.db.checkpoints && c !in s.waiters && Registered(d)
    case Poll(c) => c in s.waiters && c in s.db.checkpoints && s.waiters[c].Polling?
    case ResolveTimeout(c) => c in s.waiters && c in s.db.checkpoints && s.waiters[c].TimedOut?
    case ReadWinner(c) => c in s.waiters && s.waiters[c].Beaten?
    case Abort(c) => c in s.waiters && (s.waiters[c].Polling? || s.waiters[c].TimedOut? || s.waiters[c].Beaten?)
    case Clean(c, _) =>
      c in s.waiters && c in s.db.checkpoints && (s.waiters[c].Cleaning? || s.waiters[c].CleaningAgain?)
    case Read(p, _, _, _) => p !in s.resolvers
    case Resolve(p) => p in s.resolvers && s.resolvers[p].Chose?
    case ReadAnswer(p) => p in s.resolvers && s.resolvers[p].Lost?
  }

  /** One job is awaited by one runner, which awaits one decision at a time. */
  predicate Enabled(s: State, e: Event) {
    Possible(s, e) && (e.Open? ==> forall c <- s.waiters :: Over(s.waiters[c]))
  }

  function NewCheckpoint(s: State, k: nat, d: Definition, offered: (seq<OptionKey>, OptionKey), wait: nat): Checkpoint {
    Checkpoint(k, d.auto, offered.0, offered.1, 1, s.now + wait, Pending, offered.1, System, 0)
  }

  /** The waiter after reading its row; a cancelled row raises inside the loop and goes through cleanup. */
  function Seen(row: Option<Resolution>, otherwise: Waiter): Waiter {
    if row.None? then otherwise
    else if row.value.status.CheckpointCancelled? then Cleaning
    else Returned(row.value)
  }

  function AfterOpen(s: State, e: Event): State
    requires e.Open?
  {
    var offered := OptionSubset(e.d, e.options, e.default);
    if offered.None? then s
    else
      var (db, ok) := OpenCheckpoint(s.db, e.c, NewCheckpoint(s, e.k, e.d, offered.value, e.wait));
      if ok then s.(db := db, waiters := s.waiters[e.c := Polling]) else s
  }

  function AfterPoll(s: State, c: CheckpointId): Waiter
    requires c in s.db.checkpoints
  {
    var x := s.db.checkpoints[c];
    Seen(Resolved(x), if x.auto && s.now >= x.deadline then TimedOut else Polling)
  }

  function AfterTimeout(s: State, c: CheckpointId): State
    requires c in s.db.checkpoints
  {
    var x := s.db.checkpoints[c];
    var (db, ok) := Settle(s.db, c, x.default, x.version, Timeout, s.now);
    if !ok then s.(waiters := s.waiters[c := Beaten])
    else s.(db := db, waiters := s.waiters[c := if RowOf(db, c).Some? then Returned(RowOf(db, c).value) else Cleaning])
  }

  function AfterClean(s: State, c: CheckpointId, fails: bool): State
    requires c in s.db.checkpoints && c in s.waiters
  {
    var k := s.db.checkpoints[c].stage;
    if s.waiters[c].CleaningAgain? then
      s.(db := if fails then s.db else CleanUpAgain(s.db, c, k, s.now), waiters := s.waiters[c := Raised])
    else if fails then s.(waiters := s.waiters[c := CleaningAgain])
    else
      var (db, done) := CleanUp(s.db, c, k, s.now);
      s.(db := db, waiters := s.waiters[c := if done then Raised else CleaningAgain])
  }

  /** After the deadline a human answer is replaced by the timeout default. */
  function AfterRead(db: Db, now: int, c: CheckpointId, option: OptionKey, version: nat): Resolver {
    if !IsPending(db, c) then Answered(c, false, RowOf(db, c))
    else
      var x := db.checkpoints[c];
      if x.auto && now >= x.deadline then Chose(c, x.default, x.version, Timeout)
      else Chose(c, option, version, Human)
  }

  function AfterResolve(s: State, p: ResolverId): State
    requires p in s.resolvers && s.resolvers[p].Chose?
  {
    var r := s.resolvers[p];
    if r.c in s.db.checkpoints && r.option !in s.db.checkpoints[r.c].options
    then s.(resolvers := s.resolvers[p := Answered(r.c, false, None)])
    else
      var (db, ok) := Settle(s.db, r.c, r.option, r.version, r.source, s.now);
      if ok then s.(db := db, resolvers := s.resolvers[p := Answered(r.c, r.source.Human?, RowOf(db, r.c))])
      else s.(resolvers := s.resolvers[p := Lost(r.c)])
  }

  function Next(s: State, e: Event): State
    requires Possible(s, e)
  {
    match e
    case Tick(now) => s.(now := now)
    case JobStep(tx) => s.(db := Apply(s.db, tx, s.now))
    case Open(_, _, _, _, _, _) => AfterOpen(s, e)
    case Poll(c) => s.(waiters := s.waiters[c := AfterPoll(s, c)])
    case ResolveTimeout(c) => AfterTimeout(s, c)
    case ReadWinner(c) => s.(waiters := s.waiters[c := Seen(RowOf(s.db, c), Polling)])
    case Abort(c) => s.(waiters := s.waiters[c := Cleaning])
    case Clean(c, fails) => AfterClean(s, c, fails)
    case Read(p, c, option, version) => s.(resolvers := s.resolvers[p := AfterRead(s.db, s.now, c, option, version)])
    case Resolve(p) => AfterResolve(s, p)
    case ReadAnswer(p) =>
      var c := s.resolvers[p].c;
      s.(resolvers := s.resolvers[p := Answered(c, false, RowOf(s.db, c))])
  }

  // ----- what every step keeps -----

  /** A row says who settled it, with what, and when. */
  predicate RowOk(x: Checkpoint, now: int) {
    && x.options != [] && x.default in x.options
    && (x.status.Expired? ==> x.auto && x.source.Timeout? && x.key == x.default && x.deadline <= x.at <= now)
    && (x.status.Resolved? ==> x.source.Human? && x.key in x.options && x.at <= now)
    && (x.status.CheckpointCancelled? ==> x.source.System? && x.at <= now)
  }

  ghost predicate RowsOk(cs: map<CheckpointId, Checkpoint>, now: int) {
    forall c <- cs :: RowOk(cs[c], now)
  }

  /** What each waiter knows about its row. */
  predicate WaiterOk(db: Db, now: int, c: CheckpointId, w: Waiter) {
    && c in db.checkpoints
    && (w.TimedOut? ==> db.checkpoints[c].auto && now >= db.checkpoints[c].deadline)
    && (w.Beaten? ==> !IsPending(db, c))
    && (w.Returned? ==> RowOf(db, c) == Some(w.r) && !w.r.status.CheckpointCancelled?)
  }

  predicate ResolverOk(db: Db, now: int, r: Resolver) {
    match r
    case Chose(c, option, version, source) =>
      && c in db.checkpoints
      && (source.Human? || source.Timeout?)
      && (source.Timeout? ==> db.checkpoints[c].auto && now >= db.checkpoints[c].deadline
                              && option == db.checkpoints[c].default && version == db.checkpoints[c].version)
    case Lost(c) => c in db.checkpoints
    case Answered(c, won, answer) => (won ==> answer.Some?) && (answer.Some? ==> RowOf(db, c) == answer)
  }

  ghost predicate PartiesOk(s: State) {
    && (forall c <- s.waiters :: WaiterOk(s.db, s.now, c, s.waiters[c]))
    && (forall p <- s.resolvers :: ResolverOk(s.db, s.now, s.resolvers[p]))
  }

  /** Only the live waiter's checkpoint, or one whose cleanup failed twice, is pending. */
  ghost predicate OneWaiter(s: State) {
    && (forall c, d | c in s.waiters && d in s.waiters && !Over(s.waiters[c]) && !Over(s.waiters[d]) :: c == d)
    && (forall c, d | c in s.waiters && !Over(s.waiters[c]) && IsPending(s.db, d) :: c == d)
  }

  ghost predicate Inv(s: State) {
    Coupled(s.db) && RowsOk(s.db.checkpoints, s.now) && PartiesOk(s) && OneWaiter(s)
  }

  /** A settled row answers the same for ever, so what a party saw stays true. */
  lemma PartiesSurvive(s: State, db: Db, now: int)
    requires PartiesOk(s) && RowsKept(s.db, db) && now >= s.now
    ensures PartiesOk(s.(db := db, now := now))
  {
    forall c <- s.waiters ensures WaiterOk(db, now, c, s.waiters[c]) {
      assert WaiterOk(s.db, s.now, c, s.waiters[c]);
    }
    forall p <- s.resolvers ensures ResolverOk(db, now, s.resolvers[p]) {
      assert ResolverOk(s.db, s.now, s.resolvers[p]);
    }
  }

  lemma DbChanges(s: State, db: Db)
    requires Inv(s) && Coupled(db) && RowsKept(s.db, db) && RowsOk(db.checkpoints, s.now)
    requires forall d <- db.checkpoints :: IsPending(db, d) ==> IsPending(s.db, d)
    ensures Inv(s.(db := db))
  {
    PartiesSurvive(s, db, s.now);
  }

  lemma WaiterChanges(s: State, c: CheckpointId, w: Waiter)
    requires Inv(s) && c in s.waiters && !Over(s.waiters[c]) && WaiterOk(s.db, s.now, c, w)
    ensures Inv(s.(waiters := s.waiters[c := w]))
  {
  }

  lemma ResolverChanges(s: State, p: ResolverId, r: Resolver)
    requires Inv(s) && ResolverOk(s.db, s.now, r)
    ensures Inv(s.(resolvers := s.resolvers[p := r]))
  {
  }

  lemma TickKeepsInv(s: State, now: int)
    requires Inv(s) && now >= s.now
    ensures Inv(Next(s, Tick(now)))
  {
    PartiesSurvive(s, s.db, now);
    assert forall c <- s.db.checkpoints :: RowOk(s.db.checkpoints[c], s.now);
  }

  lemma CancelsAreOk(a: Db, b: Db, now: int)
    requires OnlyCancels(a, b, now) && RowsOk(a.checkpoints, now)
    ensures RowsKept(a, b) && RowsOk(b.checkpoints, now)
    ensures forall d <- b.checkpoints :: IsPending(b, d) ==> IsPending(a, d)
  {
    assert forall c <- b.checkpoints :: RowOk(a.checkpoints[c], now);
  }

  lemma JobStepKeepsInv(s: State, tx: JobTx)
    requires Inv(s)
    ensures Inv(Next(s, JobStep(tx)))
  {
    JobTxKeepsCoupling(s.db, tx, s.now);
    JobTxFollowsTheTables(s.db, tx, s.now);
    CancelsAreOk(s.db, Apply(s.db, tx, s.now), s.now);
    DbChanges(s, Apply(s.db, tx, s.now));
  }

  lemma OpenKeepsParties(s: State, c: CheckpointId, x: Checkpoint, db: Db)
    requires Inv(s) && c !in s.db.checkpoints && c !in s.waiters && forall d <- s.waiters :: Over(s.waiters[d])
    requires x.options != [] && x.default in x.options && OpenCheckpoint(s.db, c, x) == (db, true)
    ensures Inv(s.(db := db, waiters := s.waiters[c := Polling]))
  {
    OpenKeeps(s.db, c, x);
    PartiesSurvive(s, db, s.now);
  }

  lemma OpenKeepsInv(s: State, e: Event)
    requires Inv(s) && e.Open? && Enabled(s, e)
    ensures Inv(Next(s, e))
  {
    OfferedOptions(e.d, e.options, e.default);
    var offered := OptionSubset(e.d, e.options, e.default);
    if offered.Some? {
      var x := NewCheckpoint(s, e.k, e.d, offered.value, e.wait);
      var (db, ok) := OpenCheckpoint(s.db, e.c, x);
      if ok {
        OpenKeepsParties(s, e.c, x, db);
      }
    }
  }

  /** The settled row is in order, and it is the only row that changes. */
  lemma SettledRowIsOk(db: Db, c: CheckpointId, option: OptionKey, source: Source, now: int)
    requires Coupled(db) && RowsOk(db.checkpoints, now) && c in db.checkpoints && option in db.checkpoints[c].options
    requires source.Human? || (source.Timeout? && db.checkpoints[c].auto && now >= db.checkpoints[c].deadline
                               && option == db.checkpoints[c].default)
    ensures var n := Settle(db, c, option, db.checkpoints[c].version, source, now).0;
            && RowsOk(n.checkpoints, now)
            && forall d <- n.checkpoints :: IsPending(n, d) ==> IsPending(db, d)
  {
    assert RowOk(db.checkpoints[c], now);
  }

  lemma SettlementKeepsInv(s: State, c: CheckpointId, option: OptionKey, version: nat, source: Source)
    requires Inv(s) && c in s.db.checkpoints && option in s.db.checkpoints[c].options
    requires source.Human? || (source.Timeout? && s.db.checkpoints[c].auto && s.now >= s.db.checkpoints[c].deadline
                               && option == s.db.checkpoints[c].default)
    ensures var (db, ok) := Settle(s.db, c, option, version, source, s.now);
            && Inv(s.(db := db))
            && var settled := if source.Timeout? then Expired else JobStore.Resolved;
            && (ok ==> RowOf(db, c) == Some(Resolution(settled, option, source, s.now)))
            && (!ok ==> db == s.db && (version == s.db.checkpoints[c].version ==> !IsPending(s.db, c)))
  {
    SettleKeeps(s.db, c, option, version, source, s.now);
    if version == s.db.checkpoints[c].version {
      SettledRowIsOk(s.db, c, option, source, s.now);
      DbChanges(s, Settle(s.db, c, option, version, source, s.now).0);
    }
  }

  lemma TimeoutKeepsInv(s: State, c: CheckpointId)
    requires Inv(s) && Possible(s, ResolveTimeout(c))
    ensures Inv(Next(s, ResolveTimeout(c)))
  {
    var x := s.db.checkpoints[c];
    assert WaiterOk(s.db, s.now, c, s.waiters[c]) && RowOk(x, s.now);
    SettlementKeepsInv(s, c, x.default, x.version, Timeout);
    var (db, ok) := Settle(s.db, c, x.default, x.version, Timeout, s.now);
    WaiterChanges(s.(db := db), c, if ok then Returned(RowOf(db, c).value) else Beaten);
  }

  lemma CleanedRowsAreOk(db: Db, c: CheckpointId, k: nat, now: int)
    requires RowsOk(db.checkpoints, now)
    ensures OnlyCancels(db, CleanUp(db, c, k, now).0, now) && OnlyCancels(db, CleanUpAgain(db, c, k, now), now)
  {
  }

  lemma CleanKeepsInv(s: State, c: CheckpointId, fails: bool)
    requires Inv(s) && Possible(s, Clean(c, fails))
    ensures Inv(Next(s, Clean(c, fails)))
  {
    var k := s.db.checkpoints[c].stage;
    var first, second := CleanUp(s.db, c, k, s.now).0, CleanUpAgain(s.db, c, k, s.now);
    CleanUpKeeps(s.db, c, k, s.now);
    CleanedRowsAreOk(s.db, c, k, s.now);
    CancelsAreOk(s.db, first, s.now);
    CancelsAreOk(s.db, second, s.now);
    DbChanges(s, first);
    DbChanges(s, second);
    if s.waiters[c].CleaningAgain? {
      WaiterChanges(if fails then s else s.(db := second), c, Raised);
    } else if fails {
      WaiterChanges(s, c, CleaningAgain);
    } else {
      WaiterChanges(s.(db := first), c, Raised);
    }
  }

  lemma WaiterStepKeepsInv(s: State, e: Event)
    requires Inv(s) && Possible(s, e) && (e.Poll? || e.ReadWinner? || e.Abort?)
    ensures Inv(Next(s, e))
  {
    assert WaiterOk(s.db, s.now, e.c, s.waiters[e.c]);
    WaiterChanges(s, e.c, Next(s, e).waiters[e.c]);
  }

  lemma ReadKeepsInv(s: State, e: Event)
    requires Inv(s) && Possible(s, e) && (e.Read? || e.ReadAnswer?)
    ensures Inv(Next(s, e))
  {
    assert e.ReadAnswer? ==> ResolverOk(s.db, s.now, s.resolvers[e.p]);
    ResolverChanges(s, e.p, Next(s, e).resolvers[e.p]);
  }

  lemma ResolveKeepsInv(s: State, p: ResolverId)
    requires Inv(s) && Possible(s, Resolve(p))
    ensures Inv(Next(s, Resolve(p)))
  {
    var r := s.resolvers[p];
    assert ResolverOk(s.db, s.now, r);
    if r.option !in s.db.checkpoints[r.c].options {
      ResolverChanges(s, p, Answered(r.c, false, None));
    } else {
      SettlementKeepsInv(s, r.c, r.option, r.version, r.source);
      var (db, ok) := Settle(s.db, r.c, r.option, r.version, r.source, s.now);
      ResolverChanges(s.(db := db), p, if ok then Answered(r.c, r.source.Human?, RowOf(db, r.c)) else Lost(r.c));
    }
  }

  lemma StepKeepsInv(s: State, e: Event)
    requires Inv(s) && Enabled(s, e)
    ensures Inv(Next(s, e))
  {
    match e {
      case Tick(now) => TickKeepsInv(s, now);
      case JobStep(tx) => JobStepKeepsInv(s, tx);
      case Open(_, _, _, _, _, _) => OpenKeepsInv(s, e);
      case Poll(_) => WaiterStepKeepsInv(s, e);
      case ResolveTimeout(c) => TimeoutKeepsInv(s, c);
      case ReadWinner(_) => WaiterStepKeepsInv(s, e);
      case Abort(_) => WaiterStepKeepsInv(s, e);
      case Clean(c, fails) => CleanKeepsInv(s, c, fails);
      case Read(_, _, _, _) => ReadKeepsInv(s, e);
      case Resolve(p) => ResolveKeepsInv(s, p);
      case ReadAnswer(_) => ReadKeepsInv(s, e);
    }
  }

  // ----- runs -----

  ghost predicate Initial(s: State) {
    && s.db.status.Queued? && s.db.checkpoints == map[] && s.waiters == map[] && s.resolvers == map[]
    && forall k | 0 <= k < |s.db.stages| :: s.db.stages[k] == StageRow(StagePending, 0)
  }

  ghost predicate Step(s: State, e: Event, t: State) {
    Enabled(s, e) && t == Next(s, e)
  }

  /** A new job starts consistent, and so may any later start of observation. */
  lemma InitialIsConsistent(s: State)
    requires Initial(s)
    ensures Inv(s)
  {
  }

  /** A run from any consistent state. */
  ghost predicate Trace(ss: seq<State>, es: seq<Event>) {
    |ss| == |es| + 1 && Inv(ss[0]) && forall n | 0 <= n < |es| :: Step(ss[n], es[n], ss[n + 1])
  }

  lemma {:induction false} TraceKeepsInv(ss: seq<State>, es: seq<Event>, n: nat)
    requires Trace(ss, es) && n < |ss|
    ensures Inv(ss[n])
  {
    if n > 0 {
      TraceKeepsInv(ss, es, n - 1);
      assert Step(ss[n - 1], es[n - 1], ss[n]);
      StepKeepsInv(ss[n - 1], es[n - 1]);
    }
  }

  /** In every committed state the job waits iff a checkpoint is pending, and then its current stage waits with it. */
  lemma WaitingMeansPending(ss: seq<State>, es: seq<Event>, n: nat)
    requires Trace(ss, es) && n < |ss|
    ensures var db := ss[n].db;
            && (db.status.WaitingDecision? <==> exists c <- db.checkpoints :: IsPending(db, c))
            && (forall c <- db.checkpoints :: IsPending(db, c) ==>
                  db.current == db.checkpoints[c].stage && db.StageIs(db.current, StageWaiting))
            && (forall c <- db.checkpoints, d <- db.checkpoints | IsPending(db, c) && IsPending(db, d) :: c == d)
  {
    TraceKeepsInv(ss, es, n);
  }

  /** What one step may do to the rows. */
  predicate Lawful(a: Db, b: Db) {
    Moved(a, b) && RowsKept(a, b)
  }

  lemma OpenMoves(s: State, e: Event)
    requires Inv(s) && e.Open? && Enabled(s, e)
    ensures Lawful(s.db, Next(s, e).db)
  {
    var offered := OptionSubset(e.d, e.options, e.default);
    if offered.Some? {
      OpenKeeps(s.db, e.c, NewCheckpoint(s, e.k, e.d, offered.value, e.wait));
    }
  }

  lemma WaiterMoves(s: State, e: Event)
    requires Inv(s) && Possible(s, e) && (e.ResolveTimeout? || e.Clean?)
    ensures Lawful(s.db, Next(s, e).db)
  {
    var x := s.db.checkpoints[e.c];
    if e.ResolveTimeout? {
      SettleKeeps(s.db, e.c, x.default, x.version, Timeout, s.now);
    } else {
      CleanUpKeeps(s.db, e.c, x.stage, s.now);
    }
  }

  lemma ResolveMoves(s: State, p: ResolverId)
    requires Inv(s) && Possible(s, Resolve(p))
    ensures Lawful(s.db, Next(s, Resolve(p)).db)
  {
    var r := s.resolvers[p];
    SettleKeeps(s.db, r.c, r.option, r.version, r.source, s.now);
  }

  lemma StepMoves(s: State, e: Event)
    requires Inv(s) && Enabled(s, e)
    ensures Lawful(s.db, Next(s, e).db)
  {
    match e {
      case JobStep(tx) => JobTxFollowsTheTables(s.db, tx, s.now);
      case Open(_, _, _, _, _, _) => OpenMoves(s, e);
      case ResolveTimeout(_) => WaiterMoves(s, e);
      case Clean(_, _) => WaiterMoves(s, e);
      case Resolve(p) => ResolveMoves(s, p);
      case _ =>
    }
  }

  /** Each committed step moves job and stages along the transition tables and keeps settled rows. */
  lemma RunsFollowTheTables(ss: seq<State>, es: seq<Event>, n: nat)
    requires Trace(ss, es) && n < |es|
    ensures Moved(ss[n].db, ss[n + 1].db) && RowsKept(ss[n].db, ss[n + 1].db)
  {
    TraceKeepsInv(ss, es, n);
    assert Step(ss[n], es[n], ss[n + 1]);
    StepMoves(ss[n], es[n]);
  }

  lemma {:induction false} KeptForEver(ss: seq<State>, i: nat, n: nat, c: CheckpointId)
    requires forall k | 0 <= k < |ss| - 1 :: RowsKept(ss[k].db, ss[k + 1].db)
    requires i <= n < |ss| && c in ss[i].db.checkpoints
    ensures c in ss[n].db.checkpoints && Evolves(ss[i].db.checkpoints[c], ss[n].db.checkpoints[c])
    decreases n
  {
    if i < n {
      KeptForEver(ss, i, n - 1, c);
      assert RowsKept(ss[n - 1].db, ss[n - 1 + 1].db);
    }
  }

  /** A checkpoint leaves pending once: a settled row is the same in every later state. */
  lemma SettledForEver(ss: seq<State>, es: seq<Event>, i: nat, n: nat, c: CheckpointId)
    requires Trace(ss, es) && i <= n < |ss| && c in ss[i].db.checkpoints
    ensures c in ss[n].db.checkpoints
    ensures !IsPending(ss[i].db, c) ==> ss[n].db.checkpoints[c] == ss[i].db.checkpoints[c]
  {
    forall k | 0 <= k < |ss| - 1 ensures RowsKept(ss[k].db, ss[k + 1].db) {
      RunsFollowTheTables(ss, es, k);
    }
    KeptForEver(ss, i, n, c);
  }

  /** Every waiter that returned and every resolver that was answered saw the one settled row. */
  lemma AnswersAgree(ss: seq<State>, es: seq<Event>, n: nat, c: CheckpointId)
    requires Trace(ss, es) && n < |ss|
    ensures c in ss[n].waiters && ss[n].waiters[c].Returned? ==> RowOf(ss[n].db, c) == Some(ss[n].waiters[c].r)
    ensures forall p <- ss[n].resolvers ::
      ss[n].resolvers[p].Answered? && ss[n].resolvers[p].c == c && ss[n].resolvers[p].answer.Some? ==>
        RowOf(ss[n].db, c) == ss[n].resolvers[p].answer
  {
    TraceKeepsInv(ss, es, n);
    if c in ss[n].waiters {
      assert WaiterOk(ss[n].db, ss[n].now, c, ss[n].waiters[c]);
    }
    assert forall p <- ss[n].resolvers :: ResolverOk(ss[n].db, ss[n].now, ss[n].resolvers[p]);
  }

  /** A timeout settles no earlier than the deadline and only to the offered default; manual review never times out. */
  lemma TimeoutsAreLateDefaults(ss: seq<State>, es: seq<Event>, n: nat, c: CheckpointId)
    requires Trace(ss, es) && n < |ss| && c in ss[n].db.checkpoints
    ensures var x := ss[n].db.checkpoints[c];
            && (x.status.Expired? ==> x.auto && x.at >= x.deadline && x.key == x.default && x.source.Timeout?)
            && x.default in x.options
            && (x.status.Resolved? ==> x.key in x.options && x.source.Human?)
  {
    TraceKeepsInv(ss, es, n);
    assert RowOk(ss[n].db.checkpoints[c], ss[n].now);
  }

  /** Two `resolve` calls never both win one checkpoint. */
  lemma OneWinner(ss: seq<State>, es: seq<Event>, i: nat, j: nat, p: ResolverId, q: ResolverId, c: CheckpointId)
    requires Trace(ss, es) && i < j < |es| && es[i] == Resolve(p) && es[j] == Resolve(q)
    requires p in ss[i].resolvers && ss[i].resolvers[p].Chose? && ss[i].resolvers[p].c == c
    requires q in ss[j].resolvers && ss[j].resolvers[q].Chose? && ss[j].resolvers[q].c == c
    requires ss[i + 1].resolvers[p].Answered? && ss[i + 1].resolvers[p].won
    ensures ss[j + 1].resolvers[q] == Lost(c) || ss[j + 1].resolvers[q] == Answered(c, false, None)
  {
    TraceKeepsInv(ss, es, i);
    TraceKeepsInv(ss, es, j);
    assert Step(ss[i], es[i], ss[i + 1]) && Step(ss[j], es[j], ss[j + 1]);
    var r := ss[i].resolvers[p];
    SettleKeeps(ss[i].db, c, r.option, r.version, r.source, ss[i].now);
    SettledForEver(ss, es, i + 1, j, c);
  }

  /** A resolver that reads after the row was settled, having lost or arriving late, is answered with that row. */
  lemma LosersSeeTheSettledRow(ss: seq<State>, es: seq<Event>, i: nat, n: nat, q: ResolverId, c: CheckpointId)
    requires Trace(ss, es) && i <= n < |es| && c in ss[i].db.checkpoints && !IsPending(ss[i].db, c)
    requires (es[n] == ReadAnswer(q) && q in ss[n].resolvers && ss[n].resolvers[q] == Lost(c))
          || (es[n].Read? && es[n].p == q && es[n].c == c)
    ensures q in ss[n + 1].resolvers && ss[n + 1].resolvers[q] == Answered(c, false, RowOf(ss[i].db, c))
    ensures RowOf(ss[i].db, c).Some?
  {
    assert Step(ss[n], es[n], ss[n + 1]);
    SettledForEver(ss, es, i, n, c);
  }

  /** A resolve call loses only to a settled row, or to its own outdated version. */
  lemma LosingMeansSettled(ss: seq<State>, es: seq<Event>, n: nat, q: ResolverId)
    requires Trace(ss, es) && n < |es| && es[n] == Resolve(q)
    requires q in ss[n + 1].resolvers && ss[n + 1].resolvers[q].Lost?
    ensures q in ss[n].resolvers && ss[n].resolvers[q].Chose?
    ensures var r := ss[n].resolvers[q];
            r.c in ss[n].db.checkpoints && (!IsPending(ss[n].db, r.c) || ss[n].db.checkpoints[r.c].version != r.version)
  {
    TraceKeepsInv(ss, es, n);
    assert Step(ss[n], es[n], ss[n + 1]);
    var r := ss[n].resolvers[q];
    assert ResolverOk(ss[n].db, ss[n].now, r);
    SettleKeeps(ss[n].db, r.c, r.option, r.version, r.source, ss[n].now);
  }

  /** After one resolve call has won, every other that reads its answer is given the winner's. */
  lemma LosersSeeTheWinner(ss: seq<State>, es: seq<Event>, i: nat, n: nat, p: ResolverId, q: ResolverId,
                           c: CheckpointId)
    requires Trace(ss, es) && i < n < |es| && es[i] == Resolve(p)
    requires p in ss[i].resolvers && ss[i].resolvers[p].Chose? && ss[i].resolvers[p].c == c
    requires ss[i + 1].resolvers[p].Answered? && ss[i + 1].resolvers[p].won
    requires (es[n] == ReadAnswer(q) && q in ss[n].resolvers && ss[n].resolvers[q] == Lost(c))
          || (es[n].Read? && es[n].p == q && es[n].c == c)
    ensures q in ss[n + 1].resolvers
    ensures ss[n + 1].resolvers[q] == Answered(c, false, ss[i + 1].resolvers[p].answer)
    ensures ss[i + 1].resolvers[p].answer.Some?
  {
    TraceKeepsInv(ss, es, i);
    assert Step(ss[i], es[i], ss[i + 1]);
    var r := ss[i].resolvers[p];
    assert ResolverOk(ss[i].db, ss[i].now, r);
    SettleKeeps(ss[i].db, c, r.option, r.version, r.source, ss[i].now);
    LosersSeeTheSettledRow(ss, es, i + 1, n, q, c);
  }

  /** A waiter whose timeout lost finds the winner at once: the branch that polls again is never taken. */
  lemma BeatenFindsTheWinner(ss: seq<State>, es: seq<Event>, n: nat, c: CheckpointId)
    requires Trace(ss, es) && n < |es| && es[n] == ReadWinner(c)
    ensures c in ss[n + 1].waiters && !ss[n + 1].waiters[c].Polling?
  {
    TraceKeepsInv(ss, es, n);
    assert Step(ss[n], es[n], ss[n + 1]);
    assert WaiterOk(ss[n].db, ss[n].now, c, ss[n].waiters[c]);
  }

  // ----- why one waiter at a time -----

  /** Cleanup keeps the coupling iff no other checkpoint of the same stage is pending. */
  lemma CleanUpNeedsOneWaiter(db: Db, c: CheckpointId, k: nat, now: int)
    requires Coupled(db) && c in db.checkpoints && db.checkpoints[c].stage == k
    ensures Coupled(CleanUp(db, c, k, now).0) <==>
      !exists d <- db.checkpoints :: d != c && IsPending(db, d) && db.checkpoints[d].stage == k
  {
    var n := CleanUp(db, c, k, now).0;
    if d :| d in db.checkpoints && d != c && IsPending(db, d) && db.checkpoints[d].stage == k {
      assert IsPending(n, d) && n.status.Running?;
    } else if d :| d in db.checkpoints && d != c && IsPending(db, d) {
      assert IsPending(n, d);
    } else {
      CleanUpKeeps(db, c, k, now);
    }
  }

  ghost predicate LooseTrace(ss: seq<State>, es: seq<Event>) {
    && |ss| == |es| + 1 && Initial(ss[0])
    && forall n | 0 <= n < |es| :: Possible(ss[n], es[n]) && ss[n + 1] == Next(ss[n], es[n])
  }

  lemma Play(ss: seq<State>, es: seq<Event>, e: Event) returns (ss': seq<State>, es': seq<Event>)
    requires LooseTrace(ss, es) && Possible(ss[|es|], e)
    ensures LooseTrace(ss', es') && ss'[|es'|] == Next(ss[|es|], e)
  {
    ss', es' := ss + [Next(ss[|es|], e)], es + [e];
  }

  const ROW0 := Checkpoint(0, true, [7], 7, 1, 10, Pending, 7, System, 0)

  lemma PlayToPending() returns (ss: seq<State>, es: seq<Event>)
    ensures LooseTrace(ss, es)
    ensures ss[|es|] ==
            State(0, Db(WaitingDecision, 0, [StageRow(StageWaiting, 1)], map[0 := ROW0]), map[0 := Polling], map[])
  {
    ss := [State(0, Db(Queued, 0, [StageRow(StagePending, 0)], map[]), map[], map[])];
    es := [];
    ss, es := Play(ss, es, JobStep(Claim));
    ss, es := Play(ss, es, JobStep(JobTx.Start(0)));
    assert ss[|es|].db == Db(Running, 0, [StageRow(StageRunning, 1)], map[]);
    ss, es := Play(ss, es, Open(0, 0, Definition([7], 7, true), None, None, 10));
  }

  lemma PlayToSettled() returns (ss: seq<State>, es: seq<Event>)
    ensures LooseTrace(ss, es)
    ensures ss[|es|].now == 0 && ss[|es|].waiters == map[0 := Polling]
    ensures ss[|es|].db == Db(Running, 0, [StageRow(StageRunning, 1)],
                              map[0 := ROW0.(status := JobStore.Resolved, source := Human)])
  {
    ss, es := PlayToPending();
    ss, es := Play(ss, es, Read(0, 0, 7, 1));
    ss, es := Play(ss, es, Resolve(0));
  }

  /** With two waiters on one job, the late cleanup of a settled one resumes the job under the other. */
  lemma OverlappingWaitersBreakTheCoupling() returns (ss: seq<State>, es: seq<Event>)
    ensures LooseTrace(ss, es)
    ensures IsPending(ss[|es|].db, 1) && ss[|es|].db.status.Running?
  {
    ss, es := PlayToSettled();
    ss, es := Play(ss, es, Open(1, 0, Definition([7], 7, true), None, None, 10));
    assert IsPending(ss[|es|].db, 1) && ss[|es|].db.StageIs(0, StageWaiting);
    ss, es := Play(ss, es, Abort(0));
    ss, es := Play(ss, es, Clean(0, false));
  }
}
