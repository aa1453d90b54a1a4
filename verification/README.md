# Verified model of the job runner's protocols

This project models, in Dafny, the concurrent protocols and the bounded algorithms of a job runner
for social-media pipelines, and proves what they promise for every interleaving, every environment
or every input. `dafny verify dfyconfig.toml` checks all of it.

A protocol is a step system: one step for each region between two awaits, or for each block under a
lock or inside one database transaction. States are values, `Trace` says that a sequence of states
follows a sequence of events, and the theorems speak of every index of every trace. Beside a step
system stands the class that the program has: each of its methods is proved to take the step of the
model. Loops are proved against a specification function or a property, and the properties of that
function are lemmas. Foreign calls (browser, language model, account updater, clock) are arbitrary:
they are event parameters, or `*` in the methods.

| Module | Subject |
|---|---|
| `PipelineConcurrency`, `LeaseProtocol` | account leases, their manager, and many of them interleaved |
| `JobProtocol` | jobs, browsers, manual review, quarantine and recovery around the leases |
| `AccountLeases`, `LoginSession`, `LoginService`, `InteractiveLogin` | interactive login and its commit point |
| `Circuit`, `Router` | the circuit breaker and the failover over a chain of providers |
| `ClientSlots` | reference-counted clients of one provider |
| `JobStore`, `DecisionGate`, `PipelineDecisions`, `DecisionPolicy` | stored job rows, the decision gate, the retry policy |
| `DecisionWait` | one awaited decision inside a run of the gate |
| `JobRunner` | the stage loop, every commit of which is a step of the gate |
| `Budget`, `Batch` | the online budget tracker, grouping and merging, and the offline batch check |
| `BrowseLoop`, `Collection` | the browse loop, and the acquisition stage over all keywords |
| `EvidenceSelection`, `ConfigValidation`, `Persist` | the bounded loops and worklists |

Where the plain statement is false of the code, a lemma gives the run that breaks it and another
states exactly when it holds:

- An accepted account commit is confirmed iff no `verify` call past the deadline lands while the
  commit is running (`LoginService.ConfirmedIffAccepted`, `LoginService.DueVerifyLosesTheCommit`).
  That call expires the session and gives its lease back during the commit.
- A login browser outlives its lease iff cleanup looked for it before the open was recorded, which
  needs a start that has not returned (`LoginService.ReleasedAfterTheBrowserClosed`,
  `LoginService.ShutdownCanStrandABrowser`).
- Only the set of terminal statuses is closed: a failed browser close turns `confirmed` into
  `failed` (`LoginService.FailedCleanupReplacesConfirmed`).
- Cleanup of a decision waiter keeps job and checkpoint coupled iff no other checkpoint of the stage
  is pending (`DecisionGate.CleanUpNeedsOneWaiter`, `DecisionGate.OverlappingWaitersBreakTheCoupling`).
  The theorems about runs assume one live waiter, and the runner keeps to it: whatever it commits is a
  run of enabled gate steps (`JobRunner.PipelineJobRunner.RunJob`).
- What the tracker accepts passes the batch check iff comments without a video id fit one video's
  limit: the tracker separates them by URL, the batch check does not (`Batch.AcceptedBatchesPass`,
  `Collection.Acquire`, `Batch.UrlsSeparateWhatTheBatchJoins`).
- Every claimed circuit lease is settled once, except on the router-closed exit
  (`Router.EveryLeaseIsSettledOnce`, `Router.ClosedRouterLeavesALease`).

What the proofs take for granted of the surroundings:

- A provider's `acquire` that fails leaves no browser; a successful close is reported by the session's
  released flag; a failed close leaves the browser alive.
- The account row of a job keeps its platform between dispatch and run.
- A job may end without giving its lease back (its coroutine is cancelled before it starts, or the database
  fails between the grant and the hand-over). The lease then stays live, and exclusivity still holds.
- A login token reaches its caller only when `start` returns; tokens and lease identities are fresh.
- One database transaction is atomic and isolated, and an exception inside it restores the old rows.
- The circuit's clock and the decision gate's clock never run backwards. Settling a circuit lease is
  one atomic step.
- The value objects' own checks hold: author ids and keyword texts are non-empty, and a keyword id names
  one stored keyword.

## Model

| member | source | states |
|---|---|---|
| `PipelineConcurrency.ManagerStepsKeepSound` | tiktok_bot_core/services/pipeline_concurrency.py:154-197 | granting, quarantining and releasing an account keep active and quarantined disjoint and every platform within its limit |
| `PipelineConcurrency.PipelineConcurrencyManager.constructor` | tiktok_bot_core/services/pipeline_concurrency.py:72-95 | a new manager holds no account, active or quarantined |
| `PipelineConcurrency.PipelineConcurrencyManager.CanAcquire` | tiktok_bot_core/services/pipeline_concurrency.py:154-165 | true exactly when the account is neither active nor quarantined and its platform, unlimited included, has room |
| `PipelineConcurrency.PipelineConcurrencyManager.Acquire` | tiktok_bot_core/services/pipeline_concurrency.py:97-117 | raises only for a platform without a positive limit; waits while the account is active or quarantined or the platform is full; otherwise exactly this account becomes active; the counters stay the cardinalities of the active sets |
| `PipelineConcurrency.PipelineConcurrencyManager.TryAcquire` | tiktok_bot_core/services/pipeline_concurrency.py:119-140 | a lease exactly when the account can be acquired; otherwise nothing changes |
| `PipelineConcurrency.PipelineConcurrencyManager.QuarantineAccount` | tiktok_bot_core/services/pipeline_concurrency.py:167-180 | afterwards the account is quarantined, inactive ones included, and not active; an active one frees its platform slot; no other account is touched |
| `PipelineConcurrency.PipelineConcurrencyManager.ReleaseAccount` | tiktok_bot_core/services/pipeline_concurrency.py:182-197 | afterwards the account is neither active nor quarantined and no other account is touched, however often it is called |
| `PipelineConcurrency.ConcurrencyLease.Release` | tiktok_bot_core/services/pipeline_concurrency.py:23-40 | the first call frees the lease's own account; a repeated or late call changes nothing at the manager |
| `PipelineConcurrency.ConcurrencyLease.Quarantine` | tiktok_bot_core/services/pipeline_concurrency.py:42-60 | the first call on an unreleased lease quarantines its account; afterwards calls change nothing |
| `LeaseProtocol.StepTouchesOwnAccount` | tiktok_bot_core/services/pipeline_concurrency.py:23-60 | every lease step changes the manager at most on that lease's own account |
| `LeaseProtocol.OtherHoldersUntouched` | tiktok_bot_core/services/pipeline_concurrency.py:167-197 | a step of one lease leaves an account held by another live lease exactly where it was |
| `LeaseProtocol.StepKeepsInv` | tiktok_bot_core/services/pipeline_concurrency.py:97-197 | every interleaved step of acquiring, releasing and quarantining keeps leases and held accounts in bijection |
| `LeaseProtocol.EveryReachableStateIsExclusive` | tiktok_bot_core/services/pipeline_concurrency.py:23-197 | over every run, live leases and active or quarantined accounts are in bijection, the two sets are disjoint, and every platform stays within its limit |
| `JobProtocol.LocalStepKeepsInv` | tiktok_bot_core/services/pipeline_jobs.py:519-592 | bookkeeping steps of a job keep every open browser tracked and every lease held once |
| `JobProtocol.GrantStepKeepsInv` | tiktok_bot_core/services/pipeline_jobs.py:643-654 | a newly granted lease has one holder, and no open browser was left on its account |
| `JobProtocol.OpenStepKeepsInv` | tiktok_bot_core/services/pipeline_jobs.py:655-663 | a browser opened under a held lease is the only open one on that account |
| `JobProtocol.BrowserReleaseKeepsInv` | tiktok_bot_core/services/pipeline_jobs.py:524-546 | a job forgets its browser only once the session says it was released |
| `JobProtocol.CallStepKeepsInv` | tiktok_bot_core/services/pipeline_jobs.py:551-575 | asking for release or quarantine keeps the lease with its job until the call is answered |
| `JobProtocol.ParkingOverwritesOnlyClosed` | tiktok_bot_core/services/pipeline_jobs.py:582-587 | a parked browser in the quarantine table is only ever overwritten after it was closed |
| `JobProtocol.ParkingKeepsInv` | tiktok_bot_core/services/pipeline_jobs.py:563-587 | a job that cannot close its browser hands browser and lease to the quarantine table, still tracked |
| `JobProtocol.RecoveryClosesKeepsInv` | tiktok_bot_core/services/pipeline_jobs.py:1173-1188 | a recovery's close attempt, failed or not, loses no open browser |
| `JobProtocol.RecoveryFreesKeepsInv` | tiktok_bot_core/services/pipeline_jobs.py:1189-1200 | a recovery frees only the lease recorded with the browser it closed |
| `JobProtocol.RecoveryBookkeepingKeepsInv` | tiktok_bot_core/services/pipeline_jobs.py:1201-1203 | forgetting a table entry drops no open browser |
| `JobProtocol.StepKeepsInv` | tiktok_bot_core/services/pipeline_jobs.py:507-1203 | each step of dispatch, run, review, cleanup and recovery keeps the whole invariant |
| `JobProtocol.GlobalExclusivity` | tiktok_bot_core/services/pipeline_jobs.py:519-674 | over every run at most one unreleased browser per account, its account active or quarantined, its lease live and held by the browser's own holder |
| `JobProtocol.QuarantineIsRecoverable` | tiktok_bot_core/services/pipeline_jobs.py:1164-1203 | from any reachable parked browser, one successful close frees lease, account and entry, and touches no job |
| `AccountLeases.ReleaseIsIdempotentAndOwn` | tiktok_bot_core/services/account_leases.py:118-122 | a release frees its own lease only; repeated or late, it never frees the key for a later holder |
| `AccountLeases.AccountLeaseManager.Acquire` | tiktok_bot_core/services/account_leases.py:79-116 | succeeds exactly on a free key; a busy key names its holder and stays as it was |
| `AccountLeases.AccountLeaseManager.Release` | tiktok_bot_core/services/account_leases.py:118-122 | removes the entry exactly when the identity matches |
| `LoginSession.AdvanceKeepsGood` | tiktok_bot_core/services/interactive_login.py:403-1431 | every block of start, verify, cancel, expiry, shutdown and cleanup keeps status, operation, commit, browser and lease consistent |
| `LoginSession.CommitPoint` | tiktok_bot_core/services/interactive_login.py:669-760 | while the account commit is undecided the status stays verifying under every step but its settlement and a due verify, which has no commit guard; settlement confirms iff the updater returned |
| `LoginSession.TerminalIsClosed` | tiktok_bot_core/services/interactive_login.py:1302-1313 | a terminal status may change value but never stops being terminal, and the first one is remembered |
| `LoginSession.StatusFollowsTheTable` | tiktok_bot_core/services/interactive_login.py:34-50 | every status change is in the transition table, except expiry while launching and the overwriting of a terminal status by a failed cleanup or an aborted start |
| `LoginService.StepKeepsInv` | tiktok_bot_core/services/interactive_login.py:351-1458 | every step of every session keeps unreleased login leases and the lease manager's login entries the same, one per key |
| `LoginService.LeasesAreExclusive` | tiktok_bot_core/services/account_leases.py:98-122 | over every run no two sessions hold unreleased leases on one key, and the key stays theirs |
| `LoginService.ReleasedAfterTheBrowserClosed` | tiktok_bot_core/services/interactive_login.py:1358-1431 | a released lease of a started session means its browser was closed; in general the browser outlives the lease iff cleanup looked before the open was recorded; confirmed means authenticated, persisted and won |
| `LoginService.TerminalForever` | tiktok_bot_core/services/interactive_login.py:34-52 | over every run sessions are never forgotten and terminal stays terminal |
| `LoginService.HistoryIsTheRun` | tiktok_bot_core/services/interactive_login.py:669-682 | the remembered first terminal status and commit overrun are what the run shows |
| `LoginService.ConfirmedIffAccepted` | tiktok_bot_core/services/interactive_login.py:1020-1076 | the first terminal status is confirmed iff the updater returned, the operation settled, and no due verify landed during the commit |
| `LoginService.CommitHolds` | tiktok_bot_core/services/interactive_login.py:642-760 | from the commit task on the status stays verifying until settlement or a due verify, over any run |
| `LoginService.CompleteShutdownIsFinal` | tiktok_bot_core/services/interactive_login.py:762-915 | after a complete shutdown every login lease has been given back, for good, and no session is ever added |
| `LoginService.DueVerifyLosesTheCommit` | tiktok_bot_core/services/interactive_login.py:669-682 | a run in which a due verify expires a committing session, whose accepted commit is then never confirmed |
| `LoginService.PlayToEarlyRelease` | tiktok_bot_core/services/interactive_login.py:708-711 | in that run the lease is given back while the account commit is still running |
| `LoginService.FailedCleanupReplacesConfirmed` | tiktok_bot_core/services/interactive_login.py:1396-1411 | a run in which a failed browser close turns confirmed into failed |
| `LoginService.ShutdownCanStrandABrowser` | tiktok_bot_core/services/interactive_login.py:826-883 | a run in which shutdown during an unfinished open releases the lease and leaves a live browser |
| `InteractiveLogin.LoginSessionRecord.Transition` | tiktok_bot_core/services/interactive_login.py:261-282 | expiry first, then the table, then the two flags that confirmed needs; only a legal target is ever written |
| `InteractiveLogin.ManagedLoginSession.MarkTerminalLocked` | tiktok_bot_core/services/interactive_login.py:1302-1313 | keeps a terminal status and otherwise sets it |
| `InteractiveLogin.ManagedLoginSession.StatusBlock` | tiktok_bot_core/services/interactive_login.py:645-656 | expires a due session only when no commit exists |
| `InteractiveLogin.ManagedLoginSession.VerifyBlock` | tiktok_bot_core/services/interactive_login.py:672-707 | takes the verify step of the model; an operation starts only from waiting_user with none running |
| `InteractiveLogin.ManagedLoginSession.CancelBlock` | tiktok_bot_core/services/interactive_login.py:733-752 | cancels, except while a commit is being decided, which it reports for waiting |
| `InteractiveLogin.ManagedLoginSession.ExpireBlock` | tiktok_bot_core/services/interactive_login.py:1258-1281 | expires, except while a commit is being decided; cleans up only a terminal session not yet released |
| `InteractiveLogin.ManagedLoginSession.SweepBlock` | tiktok_bot_core/services/interactive_login.py:799-818 | shutdown cancels a session unless its commit is pending |
| `InteractiveLogin.ManagedLoginSession.VerdictBlock` | tiktok_bot_core/services/interactive_login.py:924-973 | a verdict that arrives late or after the end changes nothing but the operation |
| `InteractiveLogin.ManagedLoginSession.PersistBlock` | tiktok_bot_core/services/interactive_login.py:982-1015 | the operation goes on to the commit only from an unexpired, open session |
| `InteractiveLogin.ManagedLoginSession.CommitBlock` | tiktok_bot_core/services/interactive_login.py:1017-1030 | the commit task is created only while the session is open |
| `InteractiveLogin.ManagedLoginSession.SettleBlock` | tiktok_bot_core/services/interactive_login.py:1032-1076 | persisted then confirmed after an accepted commit, failed after a refused one |
| `InteractiveLogin.ManagedLoginSession.StopBlock` | tiktok_bot_core/services/interactive_login.py:1362-1376 | cleanup cancels an operation only before its commit exists and after cancellation or expiry |
| `InteractiveLogin.ManagedLoginSession.BrowserBlock` | tiktok_bot_core/services/interactive_login.py:1389-1414 | a failed close keeps the browser and overwrites the status with failed |
| `Circuit.GenerationsPartition` | tiktok_bot_core/llm/router.py:312-415 | a current ordinary lease implies closed, a current half-open lease implies half_open with its probe in flight, and half_open has exactly one current probe |
| `Circuit.StaleSettlementsDoNothing` | tiktok_bot_core/llm/router.py:340-415 | settling a lease of an older generation changes nothing, and a probe's own settlement makes it stale |
| `Circuit.CounterIsStreak` | tiktok_bot_core/llm/router.py:340-396 | while closed the counter is the number of current retryable failures since the last reset, below three |
| `Circuit.TripsExactlyAtTheThird` | tiktok_bot_core/llm/router.py:360-396 | the closed circuit opens exactly on the third such failure |
| `Circuit.OpenedAfterEveryProbe` | tiktok_bot_core/llm/router.py:316-338 | while open, every probe so far was claimed no later than the opening |
| `Circuit.ProbesAreACooldownApart` | tiktok_bot_core/llm/router.py:316-338 | under a clock that never runs back, any two probes of a provider are at least sixty seconds apart |
| `Router.LLMRouter.ClaimCircuit` | tiktok_bot_core/llm/router.py:312-338 | one claim step of the breaker: the lease handed out and the new state are the model's |
| `Router.LLMRouter.ProviderSucceeded` | tiktok_bot_core/llm/router.py:340-358 | one success step; a stale lease changes nothing |
| `Router.LLMRouter.ProviderFailed` | tiktok_bot_core/llm/router.py:360-396 | one failure step, retryable or not; a stale lease changes nothing |
| `Router.LLMRouter.ProviderAborted` | tiktok_bot_core/llm/router.py:398-415 | one abort step: only a current probe reopens the circuit |
| `Router.LLMRouter.TryProvider` | tiktok_bot_core/llm/router.py:583-665 | one attempt claims once and settles as its outcome owes, with the reply, the clock readings and the other tasks' steps of its own turn and nothing else in the log |
| `Router.LLMRouter.Conclude` | tiktok_bot_core/llm/router.py:597-665 | an attempt lets the chain go on iff its failure was retryable, and otherwise fixes the result or the error |
| `Router.LLMRouter.Call` | tiktok_bot_core/llm/router.py:555-669 | a closed router or a failed route lookup ends the call with nothing used; otherwise the verdict holds for the first uses of the stored chain; in every case the attempts report the replies and clock readings met, the log is the other tasks' steps and the call's own in order and explains the circuits, and each provider's lease is settled once, the router-closed exit apart |
| `Router.LLMRouter.Completion` | tiktok_bot_core/llm/router.py:571-669 | for a route that was read: at most three chats, in chain order, each reporting the reply and clock readings of its own turn; the result comes from a provider whose predecessors were all blocked or failed retryably; the log holds every step in order and explains every circuit |
| `Router.OwnSettlementsAreEarned` | tiktok_bot_core/llm/router.py:583-665 | in the shared log every settlement of this call gives back a lease that an earlier claim of its own on the same provider was granted |
| `Router.ProviderLogIsValid` | tiktok_bot_core/llm/router.py:312-415 | if the clock never runs back and the other tasks settle only what they were granted, every provider's part of the shared log is a run of its breaker, so the breaker's theorems hold of it |
| `Router.ProbesOfAProviderAreAMinuteApart` | tiktok_bot_core/llm/router.py:316-338 | in the shared log any two probes of one provider are at least sixty seconds apart, whatever runs in between |
| `Router.LLMRouter.Settle` | tiktok_bot_core/llm/router.py:597-665 | each exit of an attempt settles the lease as it should, the router-closed exit not at all |
| `Router.JournalCounts` | tiktok_bot_core/llm/router.py:583-665 | a provider used by a call is granted one lease and settles it once, unless the router was closed |
| `Router.EveryLeaseIsSettledOnce` | tiktok_bot_core/llm/router.py:578-669 | for every finished call grants and settlements agree, and differ exactly on the router-closed exit |
| `Router.ClosedRouterLeavesALease` | tiktok_bot_core/llm/router.py:641-642 | a finished call that finds the router closed inside its attempt has one grant and no settlement |
| `Router.FirstUsesAreDistinct` | tiktok_bot_core/llm/router.py:176-213 | the route keeps each provider once and loses none |
| `Router.RouteSnapshot` | tiktok_bot_core/llm/router.py:176-213 | the loop with its seen set keeps the first use of each provider, in order |
| `Router.EachProviderHasItsOwnBreaker` | tiktok_bot_core/llm/router.py:312-338 | the shared table is one independent breaker per provider |
| `ClientSlots.StepKeepsInv` | tiktok_bot_core/llm/providers.py:186-295 | each step keeps every slot's count equal to its outstanding requests and its close task in step with its retirement |
| `ClientSlots.CloseOnlyWhenUnused` | tiktok_bot_core/llm/providers.py:202-221 | a client's close never begins while a request uses the slot, nor while another close runs |
| `ClientSlots.OneSlotInService` | tiktok_bot_core/llm/providers.py:231-273 | at most one slot is not retired, and counts are the outstanding requests |
| `ClientSlots.RetiredSlotsOnlyDrain` | tiktok_bot_core/llm/providers.py:186-221 | over every run a retired slot is never handed out again and only drains, and a closed one stays as it is |
| `ClientSlots.AcloseLeavesNothing` | tiktok_bot_core/llm/providers.py:284-295 | after a close call returns normally nothing is listed and no later request can add a slot |
| `ClientSlots.OpenAICompatibleProvider.ScheduleSlotCloseLocked` | tiktok_bot_core/llm/providers.py:186-200 | starts a close task or reuses the running one |
| `ClientSlots.OpenAICompatibleProvider.AcquireClient` | tiktok_bot_core/llm/providers.py:231-273 | fails exactly when closed or without a key; otherwise one acquire step, with the wanted configuration |
| `ClientSlots.OpenAICompatibleProvider.ReleaseClient` | tiktok_bot_core/llm/providers.py:275-282 | one release step: the count drops and an idle retired slot starts closing |
| `ClientSlots.OpenAICompatibleProvider.CloseSlotEnds` | tiktok_bot_core/llm/providers.py:211-221 | a slot is closed, and leaves service, only after its close succeeded |
| `ClientSlots.OpenAICompatibleProvider.AcloseScheduling` | tiktok_bot_core/llm/providers.py:284-293 | every listed slot is retired and gets a close task |
| `JobStore.JobTxKeepsCoupling` | tiktok_bot_core/storage/pipeline_job_store.py:201-1063 | every transaction of runner, dispatcher, cancellation and recovery keeps waiting jobs and pending checkpoints coupled |
| `JobStore.JobTxFollowsTheTables` | tiktok_bot_core/models/pipeline_states.py:220-276 | every such transaction moves job and stages along the tables and can only cancel a pending checkpoint |
| `JobStore.OpenKeeps` | tiktok_bot_core/storage/pipeline_live_store.py:826-926 | a checkpoint is created together with the pause or not at all, and never beside another pending one |
| `JobStore.SettleKeeps` | tiktok_bot_core/services/pipeline_decisions.py:392-443 | resolving and resuming commit together, and succeed iff the row is pending with that version: the resume never conflicts |
| `JobStore.CleanUpKeeps` | tiktok_bot_core/services/pipeline_decisions.py:561-634 | for the only waiter either cleanup transaction leaves its row settled and the job out of waiting |
| `DecisionGate.OfferedOptions` | tiktok_bot_core/services/pipeline_decisions.py:317-354 | what is offered is a non-empty distinct part of the registered options holding the default; leaving both out offers all |
| `DecisionGate.StepKeepsInv` | tiktok_bot_core/services/pipeline_decisions.py:392-776 | every interleaved step of waiter, timeout, resolvers, cancellation and recovery keeps the whole invariant |
| `DecisionGate.WaitingMeansPending` | tiktok_bot_core/services/pipeline_decisions.py:636-705 | in every committed state the job waits iff exactly one checkpoint is pending, and then its current stage waits with it |
| `DecisionGate.RunsFollowTheTables` | tiktok_bot_core/models/pipeline_states.py:220-276 | over every run job and stage statuses move only along the tables |
| `DecisionGate.SettledForEver` | tiktok_bot_core/storage/pipeline_live_store.py:1015-1059 | a checkpoint leaves pending once; its row is never written again |
| `DecisionGate.AnswersAgree` | tiktok_bot_core/services/pipeline_decisions.py:392-503 | every waiter that returned, and every resolver answered with a row, saw the one settled row; a winner always has one |
| `DecisionGate.LosersSeeTheSettledRow` | tiktok_bot_core/services/pipeline_decisions.py:392-503 | a resolver that reads after the settlement, having lost the write or arriving late, is answered with the settled row, never with nothing |
| `DecisionGate.LosingMeansSettled` | tiktok_bot_core/storage/pipeline_live_store.py:1015-1059 | a resolve call loses only to a settled row or to its own outdated version |
| `DecisionGate.LosersSeeTheWinner` | tiktok_bot_core/services/pipeline_decisions.py:392-503 | after one resolve call won, every other that reads its answer is given exactly the winner's answer |
| `DecisionGate.TimeoutsAreLateDefaults` | tiktok_bot_core/services/pipeline_decisions.py:455-503 | a timeout settles at or after the deadline, to the offered default; manual review never times out |
| `DecisionGate.OneWinner` | tiktok_bot_core/services/pipeline_decisions.py:392-443 | two resolve calls never both win one checkpoint |
| `DecisionGate.BeatenFindsTheWinner` | tiktok_bot_core/services/pipeline_decisions.py:741-752 | a timeout that loses its race finds the winner's row at once, so the polling branch after it is never taken |
| `DecisionGate.CleanUpNeedsOneWaiter` | tiktok_bot_core/services/pipeline_decisions.py:561-599 | cleanup keeps job and checkpoints coupled iff no other checkpoint of that stage is pending |
| `DecisionGate.OverlappingWaitersBreakTheCoupling` | tiktok_bot_core/services/pipeline_decisions.py:754-776 | a run with two waiters on one job in which a late cleanup resumes the job under a pending checkpoint |
| `PipelineDecisions.Database.CompareAndSet` | tiktok_bot_core/storage/pipeline_job_store.py:232-301 | changes the status exactly when it is the expected one |
| `PipelineDecisions.Database.MoveStages` | tiktok_bot_core/storage/pipeline_job_store.py:922-982 | the loop moves every stage of one status and no other, and reports whether any moved |
| `PipelineDecisions.Database.RequestCancelJob` | tiktok_bot_core/storage/pipeline_job_store.py:829-920 | the three compare-and-sets in order: a queued or waiting job is cancelled with its stages and checkpoint, a running one asked to stop |
| `PipelineDecisions.Database.FinishCancellationOfJob` | tiktok_bot_core/services/pipeline_jobs.py:1268-1310 | stages are cancelled only together with a cancelling job; otherwise everything is rolled back |
| `PipelineDecisions.Database.ResolveOnce` | tiktok_bot_core/services/pipeline_decisions.py:392-443 | an unregistered option is refused; a lost race reports the row as it stands; success returns the row it wrote |
| `PipelineDecisions.Database.ReadForResolve` | tiktok_bot_core/services/pipeline_decisions.py:455-484 | past the deadline the human's choice is replaced by the timeout default |
| `PipelineDecisions.Database.CleanUpWaiting` | tiktok_bot_core/services/pipeline_decisions.py:561-634 | the second transaction is tried exactly when the first raised or was not enough |
| `PipelineDecisions.CleanUpCompletes` | tiktok_bot_core/services/pipeline_decisions.py:561-634 | for the only live waiter cleanup is complete as soon as one of the two transactions commits |
| `DecisionPolicy.RetryIsOfferedOnce` | tiktok_bot_core/services/pipeline_decision_policy.py:189-240 | retry_once is offered exactly for a retryable error not yet retried, and the gate accepts every plan as it stands |
| `DecisionWait.ForeignAtRest` | tiktok_bot_core/storage/pipeline_job_store.py:829-920 | with no decision awaited, whatever other tasks do, the rows change only by a cancellation request |
| `DecisionWait.OpeningWaits` | tiktok_bot_core/storage/pipeline_live_store.py:826-926 | opening a decision pauses the job at its stage and starts the wait, or changes nothing |
| `DecisionWait.EveryEventKeepsTheWait` | tiktok_bot_core/services/pipeline_decisions.py:392-776 | every event that can fall into a wait leaves the rows pending, resumed, cancelled with the whole job, or cleaned up by the waiter, and never disturbs attempts or ended stages |
| `DecisionWait.ReturnedMeansChosen` | tiktok_bot_core/services/pipeline_decisions.py:707-776 | a waiter that returned saw its checkpoint settled with an offered option, and job and stage as before the decision |
| `JobRunner.ClaimedJobsCanRun` | tiktok_bot_core/services/pipeline_jobs.py:507-520 | a job just claimed from the queue meets what the runner starts from |
| `JobRunner.CancellationIsAllOrNothing` | tiktok_bot_core/services/pipeline_jobs.py:1268-1310 | finishing a cancellation changes nothing unless the job was cancelling, and then ends the job and every stage |
| `JobRunner.PipelineJobRunner.TakeStep` | tiktok_bot_core/services/pipeline_jobs.py:776-1141 | each committed state is one enabled step of the decision gate after its predecessor, with the stages in order |
| `JobRunner.PipelineJobRunner.Others` | tiktok_bot_core/services/pipeline_jobs.py:776-1141 | between the runner's own steps the clock, resolvers and cancellation requests act any number of times, and only a cancellation request shows in the rows |
| `JobRunner.PipelineJobRunner.AwaitRow` | tiktok_bot_core/services/pipeline_decisions.py:707-776 | the wait is any number of steps of its waiter, resolvers, cancellation requests and the clock in any order until the waiter is over |
| `JobRunner.PipelineJobRunner.AwaitOutcome` | tiktok_bot_core/services/pipeline_jobs.py:676-692 | a returned wait resumes job and stage with an offered option whose checkpoint is settled; a raised one leaves the rows cleaned up, cancelled or still waiting |
| `JobRunner.PipelineJobRunner.AwaitPlan` | tiktok_bot_core/services/pipeline_jobs.py:676-692 | a cancellation request may precede the opening; the plan passes the gate's own check; a chosen option is one of the plan's, its settled checkpoint is in the rows, and job and stage run as before; every other ending leaves the rows lawful |
| `JobRunner.PipelineJobRunner.AwaitManualReview` | tiktok_bot_core/services/pipeline_jobs.py:694-710 | after a review the stage goes on exactly where it was, or not at all |
| `JobRunner.PipelineJobRunner.CancelByDecision` | tiktok_bot_core/services/pipeline_jobs.py:815-842 | the cancel decision ends the stage, the other stages and the job |
| `JobRunner.PipelineJobRunner.DecideFailure` | tiktok_bot_core/services/pipeline_jobs.py:895-1030 | the options come from the policy for this error and retry count: a retry is possible only while none was used, and the choice then restarts, goes on, or ends the job |
| `JobRunner.PipelineJobRunner.ActOnFailure` | tiktok_bot_core/services/pipeline_jobs.py:917-1018 | the chosen action: restart in place, go on with the stage skipped, or stop the job |
| `JobRunner.PipelineJobRunner.BeforeOutreach` | tiktok_bot_core/services/pipeline_jobs.py:796-868 | any number of reviews leaves the stage as it was, skipped, or the job cancelled |
| `JobRunner.PipelineJobRunner.RestartAt` | tiktok_bot_core/services/pipeline_jobs.py:917-944 | the retry fails the attempt and starts the second one in one transaction, and needs a checkpoint of the stage settled with the policy's retry |
| `JobRunner.PipelineJobRunner.StopAt` | tiktok_bot_core/services/pipeline_jobs.py:967-1018 | stopping ends the failed stage, skips the rest and fails the job together |
| `JobRunner.PipelineJobRunner.RunPipeline` | tiktok_bot_core/services/pipeline_jobs.py:870-893 | one more run of this stage's pipeline, its result noted, and none once a cancellation was seen |
| `JobRunner.PipelineJobRunner.Attempts` | tiktok_bot_core/services/pipeline_jobs.py:870-1030 | a stage runs at most twice and ends succeeded, failed, or skipped after failing |
| `JobRunner.PipelineJobRunner.AfterSuccess` | tiktok_bot_core/services/pipeline_jobs.py:1032-1071 | the decision after a stage goes on, skips the rest or cancels everything |
| `JobRunner.PipelineJobRunner.EnterStage` | tiktok_bot_core/services/pipeline_jobs.py:776-786 | a stage is started only after a look for a cancellation request |
| `JobRunner.PipelineJobRunner.StartAt` | tiktok_bot_core/services/pipeline_jobs.py:780-793 | a stage starts only after all earlier ones are over |
| `JobRunner.PipelineJobRunner.RunStage` | tiktok_bot_core/services/pipeline_jobs.py:776-1115 | one turn ends its stage; the failed flag says, of the rows and results of the last runs, whether a stage failed or was skipped after failing |
| `JobRunner.PipelineJobRunner.RunStages` | tiktok_bot_core/services/pipeline_jobs.py:776-1115 | the loop takes the stages in order |
| `JobRunner.PipelineJobRunner.FinishJob` | tiktok_bot_core/services/pipeline_jobs.py:1117-1141 | the final status is partial_failed iff a stage failed, or was skipped after a failed last run; it needs every stage over |
| `JobRunner.PipelineJobRunner.RunJob` | tiktok_bot_core/services/pipeline_jobs.py:507-1162 | for every environment: stages in order, at most two runs each, every committed state one enabled step of the decision gate after the one before it; success, partial failure and cancellation cover every stage; a stage succeeded only on an ok last run; partial_failed iff, by the rows and the results of the last runs, a stage failed or was skipped after a failed run; a second attempt has a settled checkpoint of that stage in which the retry, offered by the policy, was chosen; a normal return never leaves the job running or cancelling |
| `Budget.AcceptedIffBounded` | tiktok_bot_core/services/acquisition_agents.py:860-940 | on any counters an observation is accepted iff every limit still holds with it |
| `Budget.AcceptedIffFits` | tiktok_bot_core/services/acquisition_agents.py:844-974 | the tracker is exact: accepted iff the accepted list with it respects all six limits, and its sets stay the projections of that list |
| `Budget.HistoryCovers` | tiktok_bot_core/services/acquisition_agents.py:844-974 | whatever is offered later, the counters go on accounting for everything accepted before, and for what is newly accepted |
| `Budget.MarkedIffCutShort` | tiktok_bot_core/services/acquisition_agents.py:860-966 | an author carries a truncation reason iff one of the author's own offers was refused, or took the last profile or the last observation |
| `Budget.HistoryIsExact` | tiktok_bot_core/services/acquisition_agents.py:844-974 | the same over any history, from any exact state |
| `Budget.EmptyIsExact` | tiktok_bot_core/services/acquisition_agents.py:737-747 | a fresh tracker is exact from the start |
| `Budget.ExplorationBudgetTracker.Check` | tiktok_bot_core/services/acquisition_agents.py:860-934 | the reported reason is the first limit in order that refuses |
| `Budget.ExplorationBudgetTracker.Reached` | tiktok_bot_core/services/acquisition_agents.py:949-966 | exactly the limits this observation has just reached |
| `Budget.ExplorationBudgetTracker.ConsumeObservation` | tiktok_bot_core/services/acquisition_agents.py:844-974 | accepted iff all limits hold with it; refused, every count stays; the run stops after any refusal but a comment or author-video one |
| `Budget.ExplorationBudgetTracker.AllowKeyword` | tiktok_bot_core/services/acquisition_agents.py:763-776 | true iff known or there is room; the bounds survive |
| `Budget.ExplorationBudgetTracker.AllowVideo` | tiktok_bot_core/services/acquisition_agents.py:784-802 | true iff known or both limits have room; a known video costs nothing; the bounds survive |
| `Budget.ExplorationBudgetTracker.AllowComment` | tiktok_bot_core/services/acquisition_agents.py:804-822 | the same for comments of one video |
| `Budget.ExplorationBudgetTracker.AllowProfile` | tiktok_bot_core/services/acquisition_agents.py:824-842 | the same for profiles |
| `Batch.Group` | tiktok_bot_core/services/acquisition_agents.py:1058-1085 | one candidate per author in first-seen order, with that author's observations in order, first username and truncation reasons |
| `Batch.GroupingIsARearrangement` | tiktok_bot_core/services/acquisition_agents.py:1058-1085 | grouping loses and duplicates nothing: the evidence is a rearrangement of the normalised observations |
| `Batch.GroupsAreFiled` | tiktok_bot_core/services/acquisition_agents.py:1058-1085 | grouping files every normalised observation under its own author, in order, one candidate per author |
| `Batch.MergeCandidates` | tiktok_bot_core/plugins/collectors/keyword_collector.py:476-495 | one candidate per author; each author's evidence is the earlier one's followed by the new, and every truncation reason is kept |
| `Batch.MergingFilesBoth` | tiktok_bot_core/plugins/collectors/keyword_collector.py:476-495 | merging two filed batches files exactly both lists of observations |
| `Batch.ValidateBatch` | tiktok_bot_core/services/pipeline.py:624-686 | fails with the first broken check, and passes iff profiles, total, keywords, videos, comments and author videos, these by candidate, all fit |
| `Batch.AcceptedBatchesPass` | tiktok_bot_core/services/pipeline.py:632-686 | any batch that files observations within the tracker's limits passes the batch check iff its comments without a video id fit one video's limit; no other check can fail |
| `Batch.UrlsSeparateWhatTheBatchJoins` | tiktok_bot_core/services/pipeline.py:659-663 | two comments without a video id, at two addresses, fit every limit of the tracker, and their batch fails with too many comments |
| `Batch.AcceptedRunsPassTheBatch` | tiktok_bot_core/services/pipeline.py:632-686 | what the tracker accepted in one keyword run passes the batch check iff its comments without a video id fit one video's limit; no other check can fail |
| `BrowseLoop.SafeHostsAreInTheDomain` | tiktok_bot_core/services/browse_agent.py:187-203 | a safe host is a registered domain or a name under one |
| `BrowseLoop.Offer` | tiktok_bot_core/services/browse_agent.py:644-688 | the observations kept are the ones the tracker accepted, and each author's truncation reasons the marks of the author's own offers |
| `BrowseLoop.Execute` | tiktok_bot_core/services/browse_agent.py:713-793 | pages grow only by an allowed navigation or click, and unsafe addresses end the run |
| `BrowseLoop.Turn` | tiktok_bot_core/services/browse_agent.py:535-642 | one turn asks the model at most once and counts a step only for an answer |
| `BrowseLoop.Run` | tiktok_bot_core/services/browse_agent.py:404-822 | for every browser and model: steps <= model calls <= both limits, pages within the limit, visited addresses distinct and safe, observations taken from the offered ones and exactly the accepted, truncation reasons exactly the marks they left, and no exhaustion reason iff done |
| `Collection.CollectKeyword` | tiktok_bot_core/services/acquisition_agents.py:1009-1085 | for every browser and model: usage within the limits, and the candidates are the grouping of exactly the accepted observations with exactly the marks of their offers |
| `Collection.TaggedIsPlanned` | tiktok_bot_core/services/pipeline.py:481-485 | observations tagged from the plan are planned, and no id stands for two keywords |
| `Collection.DirectUsers` | tiktok_bot_core/plugins/collectors/keyword_collector.py:497-548 | of the users found directly exactly those the tracker accepted are filed, whatever the page holds and wherever it raises |
| `Collection.Primary` | tiktok_bot_core/plugins/collectors/keyword_collector.py:150-281 | a finished agent run adds to the batch exactly what the tracker accepted from it, a failed one nothing, and its usage is deducted from the remainder |
| `Collection.Auxiliary` | tiktok_bot_core/plugins/collectors/keyword_collector.py:279-316 | the same for the direct search, which costs one page |
| `Collection.KeywordTurn` | tiktok_bot_core/plugins/collectors/keyword_collector.py:135-342 | whatever fails in one keyword, the trail of parts grows by its offers and explains the tracker, the kept observations are exactly what the finished parts had accepted, the merged batch files them, and usage plus remainder is the budget |
| `Collection.Admit` | tiktok_bot_core/plugins/collectors/keyword_collector.py:135-137 | a keyword is admitted or turned away by the tracker's keyword limit, and the trail says which |
| `Collection.CollectAll` | tiktok_bot_core/plugins/collectors/keyword_collector.py:85-387 | over all keywords and one tracker: the kept observations are exactly what the tracker accepted in the parts that did not raise, one candidate per author files them, they respect all six limits; the keywords had their turns in order, all of them unless keywords, pages or time ran out; usage stays within the budget |
| `Collection.Acquire` | tiktok_bot_core/services/pipeline.py:420-520 | for every plan, browser, model and page of users: the kept observations are exactly what the tracker accepted in the parts that did not raise; the batch is rejected iff their comments without a video id exceed one video's limit, and otherwise holds each of them exactly once |
| `EvidenceSelection.SelectAgentEvidence` | tiktok_bot_core/services/acquisition_agents.py:478-516 | the three passes with a cap of twenty select the first twenty of demands, new sources, rest |
| `EvidenceSelection.SelectionSize` | tiktok_bot_core/services/acquisition_agents.py:478-516 | distinct inputs, twenty of them or all there are |
| `EvidenceSelection.DemandsComeFirst` | tiktok_bot_core/services/acquisition_agents.py:507-509 | demand comments come first and none is dropped while twenty or fewer exist |
| `EvidenceSelection.DemandsAreInRankOrder` | tiktok_bot_core/services/acquisition_agents.py:483-494 | demand comments appear best rank first |
| `EvidenceSelection.SourcesAreCovered` | tiktok_bot_core/services/acquisition_agents.py:510-513 | every source is represented when demands and uncovered sources fit in twenty |
| `EvidenceSelection.LeftoverIsBestRanked` | tiktok_bot_core/services/acquisition_agents.py:514-515 | nothing left out ranks strictly before anything in a leftover slot |
| `ConfigValidation.ValidateConfigSnapshot` | tiktok_bot_core/services/acquisition_jobs.py:231-262 | a root that is no mapping is an error of its own; on any graph, cyclic or not, the walk ends, and fails iff a mapping reachable from the root has a non-string key or a rejected entry |
| `ConfigValidation.PathStaysIn` | tiktok_bot_core/services/acquisition_jobs.py:239-262 | what is closed under references and holds the root holds everything reachable |
| `ConfigValidation.ValidateStages` | tiktok_bot_core/services/acquisition_jobs.py:79-101 | accepts exactly the strictly increasing selections of pipeline stages that hold collect |
| `Persist.NewRowsAreExact` | tiktok_bot_core/services/acquisition_agents.py:1251-1292 | exactly one new row for each fingerprint of the batch not already stored |
| `Persist.RepeatingAddsNothing` | tiktok_bot_core/services/acquisition_agents.py:1097-1297 | storing the same batch again changes nothing |
| `Persist.TruncationWins` | tiktok_bot_core/services/acquisition_agents.py:1219-1246 | a user truncated anywhere in the batch ends as needs_more_evidence, the others as candidate, users outside it untouched |
| `Persist.OrderDoesNotMatter` | tiktok_bot_core/services/acquisition_agents.py:1219-1246 | the statuses do not depend on the order of the candidates |
| `Persist.Stage01CandidateAgent.GroupStatuses` | tiktok_bot_core/services/acquisition_agents.py:1219-1232 | the grouping loop separates truncated users from the rest |
| `Persist.Stage01CandidateAgent.CollectRows` | tiktok_bot_core/services/acquisition_agents.py:1248-1292 | the nested loops collect exactly the new rows |
| `Persist.Stage01CandidateAgent.PersistBatch` | tiktok_bot_core/services/acquisition_agents.py:1097-1297 | raises on a foreign keyword or a platform mismatch and then changes nothing; otherwise the store of the model, with its counts |

## Left out

- Web routes, serializers, command line, seed data and the front end: no state of their own.
- Playwright pages, cookies, avatars, files and their permissions: foreign calls, modelled only by how they end.
- Telemetry, event recording, event bus subscribers and logs: best effort, dropped on error.
- SQL itself: the stores are transactions on the rows of one job; row contents that no decision reads are dropped.
- Several jobs in one decision-gate state: every transaction names one job, and recovery at start treats jobs one by one.
- Waking of waiters by notification: a waiter may poll at any time, so only safety is stated, not how soon it wakes.
- Platform-name and account-key normalisation, case folding and stripping: keys and ids are compared as already normalised, so a client that mixes spellings of one id is not covered.
- Reply text, prompt text and JSON extraction: a reply is valid or it is not.
- Provider cache eviction and the router's own shutdown: only the router-closed error they cause is modelled.
- URL parsing: an address is already split into scheme, host and path.
- The credential predicates of the configuration check and the fingerprint hash: arbitrary functions.
- Ratios, scores and durations: the clock of the breaker is real-valued, every other quantity an integer.
- The collector-metrics half of the batch check (tiktok_bot_core/services/pipeline.py:687-802): single range checks on data of an unseen collector.
- Job creation, retry as a new job, account eligibility and the strategy approval inside the stage loop: they change none of the rows modelled here.
- The outreach queue and the business read model: what is hard in them lies in queries.
- `ClientSlots.OpenAICompatibleProvider.CloseSlotEnds`: the wait for the idle event and the start of the close are steps of `ClientSlots.Next` only.
- `InteractiveLogin.ManagedLoginSession.StopBlock`: the later blocks of cleanup, and all of `start`, are steps of `LoginSession.Advance` only.
- `JobProtocol.StepKeepsInv`: the runner's closures over browser, lease and account, and the dispatcher, are steps on values; their update in place is not modelled.
- `DecisionGate.StepKeepsInv`: `await_decision` is the waiter's steps, drawn in any order by the runner's wait; the waiter registry is not modelled.
- `JobRunner.PipelineJobRunner.AwaitRow`: the number of events is arbitrary but drawn up front, so a wait that never ends is not modelled.
- `JobRunner.PipelineJobRunner.BeforeOutreach`: the number of reviews is arbitrary but drawn up front, so a run that asks for reviews for ever is not modelled.
- `JobRunner.PipelineJobRunner.AfterSuccess`: which decision the policy plans after a stage is arbitrary, as it is before outreach.
- `Collection.KeywordTurn`: the page scan used when no agent is configured; the acquisition stage always passes one.
- `Collection.CollectAll`: the recorded keyword metrics, whose failure is one more logged exception.
- `EvidenceSelection.SelectAgentEvidence`: the sort key after the demand flag is one integer rank.
