/** The policy for a failed stage: which decision is asked for, and with which options. */
module DecisionPolicy {
  import opened Wrappers
  import opened DecisionGate

  /** How the policy reads an error code. */
  datatype ErrorClass = Retryable | AccountBlocked | OtherError

  const RETRY_ONCE := 1
  const SKIP_STAGE := 2
  const STOP_JOB := 3
  const OPEN_ACCOUNT_RECOVERY := 4

  const RETRYABLE_FAILURE := Definition([RETRY_ONCE, SKIP_STAGE, STOP_JOB], RETRY_ONCE, true)
  const ACCOUNT_BLOCKED := Definition([OPEN_ACCOUNT_RECOVERY, SKIP_STAGE, STOP_JOB], SKIP_STAGE, true)

  datatype Plan = Plan(kind: Definition, options: seq<int>, default: int)

  /** `for_stage_error`; None is no decision, and then the stage simply fails. */
  function ForStageError(campaign: bool, error: ErrorClass, retries: nat): Option<Plan> {
    if !campaign then None
    else match error
      case Retryable =>
        if retries == 0 then Some(Plan(RETRYABLE_FAILURE, [RETRY_ONCE, SKIP_STAGE, STOP_JOB], RETRY_ONCE))
        else Some(Plan(RETRYABLE_FAILURE, [SKIP_STAGE, STOP_JOB], SKIP_STAGE))
      case AccountBlocked => Some(Plan(ACCOUNT_BLOCKED, [SKIP_STAGE, STOP_JOB], SKIP_STAGE))
      case OtherError => None
  }

  /** The retry is offered before it is used and never after; the gate accepts every plan as it stands. */
  lemma RetryIsOfferedOnce(campaign: bool, error: ErrorClass, retries: nat)
    ensures var p := ForStageError(campaign, error, retries);
            p.Some? ==>
              && (RETRY_ONCE in p.value.options <==> error.Retryable? && retries == 0)
              && Registered(p.value.kind)
              && OptionSubset(p.value.kind, Some(p.value.options), Some(p.value.default))
                   == Some((p.value.options, p.value.default))
              && (forall o <- p.value.options :: o == RETRY_ONCE || o == SKIP_STAGE || o == STOP_JOB)
  {
    var p := ForStageError(campaign, error, retries);
    if p.Some? {
      assert p.value.kind.options[0] in p.value.kind.options && p.value.kind.options[1] in p.value.kind.options;
      assert p.value.options[0] in p.value.options && p.value.options[1] in p.value.options;
    }
  }
}
