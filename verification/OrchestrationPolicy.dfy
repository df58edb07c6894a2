/** The stop policy of the loop and the checks that pin a run to its configuration. */
module OrchestrationPolicy {
  import opened Common
  import opened Records

  const POLICY_VERSION: string := "orchestration.bounded.v1"
  const ROUTING_POLICY_VERSION: string := "runtime.routing.v1"

  // ----------------------------------------------------------------- bounds

  datatype LoopUsage = LoopUsage(cycles: nat, experiments: nat, modelCalls: nat, workerInvocations: nat, elapsedMs: nat, fallbacks: nat)

  /** The first bound that is used up, if any. */
  function CheckBounds(b: Bounds, u: LoopUsage): Option<StopReason> {
    if u.cycles >= b.maxCycles then Some(MaxCyclesReached)
    else if u.elapsedMs >= b.maxElapsedMs then Some(MaxDurationReached)
    else if u.experiments >= b.maxExperiments then Some(BudgetStop)
    else if u.modelCalls >= b.maxModelCalls then Some(BudgetStop)
    else if u.workerInvocations >= b.maxWorkerInvocations then Some(BudgetStop)
    else if u.fallbacks > b.maxRuntimeFallback then Some(NoCompatibleRuntime)
    else None
  }

  datatype Action = Stop(reason: StopReason) | BootstrapDiagnostic | UseSelected

  function NextAction(b: Bounds, u: LoopUsage, selected: nat, hypotheses: nat, unknownOpen: bool): Action {
    if unknownOpen then Stop(OperationalFailure)
    else if CheckBounds(b, u).Some? then Stop(CheckBounds(b, u).value)
    else if selected > 0 then
      if selected > b.maxSelectedOpportunities then Stop(BudgetStop) else UseSelected
    else if hypotheses == 0 || b.allowRepeatedControls then BootstrapDiagnostic
    else Stop(NoMoreOpportunities)
  }

  /** Zero is no allowance: one zero bound stops every cycle, whatever was used so far. */
  lemma ZeroBoundStopsEveryCycle(b: Bounds, u: LoopUsage, selected: nat, hypotheses: nat, unknownOpen: bool)
    requires 0 in {b.maxCycles, b.maxElapsedMs, b.maxExperiments, b.maxModelCalls, b.maxWorkerInvocations}
    ensures CheckBounds(b, u).Some?
    ensures NextAction(b, u, selected, hypotheses, unknownOpen).Stop?
  {
  }

  /** A cycle may go on exactly while every bound has room and there is something to work on. */
  lemma CycleGoesOnIff(b: Bounds, u: LoopUsage, selected: nat, hypotheses: nat, unknownOpen: bool)
    ensures !NextAction(b, u, selected, hypotheses, unknownOpen).Stop?
      <==> && !unknownOpen
           && u.cycles < b.maxCycles && u.elapsedMs < b.maxElapsedMs && u.experiments < b.maxExperiments
           && u.modelCalls < b.maxModelCalls && u.workerInvocations < b.maxWorkerInvocations
           && u.fallbacks <= b.maxRuntimeFallback && selected <= b.maxSelectedOpportunities
           && (selected > 0 || hypotheses == 0 || b.allowRepeatedControls)
  {
  }

  // ------------------------------------------------------------------ stops

  function OutcomeForStop(reason: StopReason): CycleOutcome {
    match reason
    case RequireHumanReview => HumanReview
    case OperatorPaused => Pause
    case CoreBlocked => BlockedCycle
    case NoCompatibleRuntime => BlockedCycle
    case ContentPolicyBlocked => BlockedCycle
    case OperationalFailure => BlockedCycle
    case AuthRequired => BlockedCycle
    case RateLimited => BlockedCycle
    case _ => Complete
  }

  function StateForStop(reason: StopReason): OrchestrationState {
    match reason
    case BudgetStop => BudgetExhaustedRun
    case RequireHumanReview => WaitingHuman
    case OperatorPaused => Paused
    case OperationalFailure => FailedOperational
    case CoreBlocked => BlockedRun
    case NoCompatibleRuntime => BlockedRun
    case ContentPolicyBlocked => BlockedRun
    case AuthRequired => BlockedRun
    case RateLimited => BlockedRun
    case _ => CompletedRun
  }

  /** The two states a step goes on from. */
  predicate Runnable(state: OrchestrationState) {
    state.ReadyRun? || state.RunningRun?
  }

  lemma EveryStopEndsTheRun(reason: StopReason)
    ensures !Runnable(StateForStop(reason)) && OutcomeForStop(reason) != Continue
  {
  }

  datatype RuntimeOutcome =
    | PolicyBlocked | Unavailable | AuthFailed | RateLimitedRuntime | CancelledRuntime
    | TimedOutRuntime | ProcessFailedRuntime | StructuredOutputInvalid | ProtocolErrorRuntime

  function StopForRuntime(outcome: RuntimeOutcome): StopReason {
    match outcome
    case PolicyBlocked => ContentPolicyBlocked
    case Unavailable => NoCompatibleRuntime
    case AuthFailed => AuthRequired
    case RateLimitedRuntime => RateLimited
    case CancelledRuntime => CancelledStop
    case _ => OperationalFailure
  }

  // ---------------------------------------------------------- configuration

  /** The command a run is started and stepped with; scope is its fingerprint, routes says a routing request came along. */
  datatype StartCommand = StartCommand(
    runId: string, budgetId: string, target: string, question: string, bounds: Bounds, scope: string, routes: bool)

  /** The configuration a start writes. */
  function ConfigFor(cmd: StartCommand): Config {
    Config(cmd.runId, cmd.budgetId, cmd.target, cmd.question, POLICY_VERSION,
           if cmd.routes then Some(ROUTING_POLICY_VERSION) else None, Some(cmd.scope), cmd.bounds)
  }

  /** What a caller may ask to have checked; None is not checked. */
  datatype Claim = Claim(
    bounds: Option<Bounds>, budgetId: Option<string>, target: Option<string>, question: Option<string>, scope: Option<string>)

  datatype Mismatch = BoundsMismatch | BudgetMismatch | TargetMismatch | QuestionMismatch | ScopeMismatch

  function FirstMismatch(config: Config, claim: Claim): Option<Mismatch> {
    if claim.bounds.Some? && claim.bounds.value != config.bounds then Some(BoundsMismatch)
    else if claim.budgetId.Some? && claim.budgetId.value != config.budgetId then Some(BudgetMismatch)
    else if claim.target.Some? && claim.target.value != config.target then Some(TargetMismatch)
    else if claim.question.Some? && claim.question.value != config.question then Some(QuestionMismatch)
    else if claim.scope.Some? && config.scopeFingerprint.Some? && claim.scope != config.scopeFingerprint
    then Some(ScopeMismatch)
    else None
  }

  /** Everything a step claims. */
  function ClaimOf(cmd: StartCommand): Claim {
    Claim(Some(cmd.bounds), Some(cmd.budgetId), Some(cmd.target), Some(cmd.question), Some(cmd.scope))
  }

  /** The configuration a record carries, unless its fingerprint does not recompute. */
  function ConfigurationFromRecord(fingerprint: Config -> string, row: Orchestration): Option<Config> {
    if fingerprint(row.config) != row.fingerprint then None else Some(row.config)
  }

  /** A step's command passes against the run another command started exactly when both would start the
      same configuration, the routing version excepted: nothing checks that one. */
  lemma CommandPassesIff(started: StartCommand, cmd: StartCommand)
    requires started.runId == cmd.runId
    ensures FirstMismatch(ConfigFor(started), ClaimOf(cmd)).None?
      <==> ConfigFor(cmd) == ConfigFor(started).(routingVersion := ConfigFor(cmd).routingVersion)
  {
  }
}
