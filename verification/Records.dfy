/** The durable tables shared by the execution protocol and the orchestration loop. */
module Records {
  import opened Common
  import opened BudgetLedger

  // -------------------------------------------------------------- execution

  datatype ExperimentState =
    | Planned | AuthorizationCheck | Ready | Running
    | ExecutionSucceeded | ExecutionFailed | Blocked | CancelledExperiment | BudgetExhausted

  datatype AttemptState =
    | Authorized | Dispatching | Completed | Failed | TimedOut | Cancelled | UnknownOutcome

  datatype Experiment = Experiment(runId: string, hypothesisId: string, budgetId: string, state: ExperimentState)

  /** A plan; bound when its capability version and definition fingerprint are both present. */
  datatype Plan = Plan(hypothesisId: string, budgetId: string, capability: string, bound: bool, body: string)

  datatype Attempt = Attempt(
    requestId: string, experimentId: string, runId: string, capability: string,
    budgetId: string, auditId: string, state: AttemptState)

  datatype DenyReason = Exhausted | OtherReason
  datatype Decision = Allow | Deny(reason: DenyReason) | Review

  datatype Audit =
    | ExecutionDecision(experimentId: string, requestId: string, decision: Decision)
    | RateLimitDenied(experimentId: string)

  // ---------------------------------------------------------- orchestration

  datatype OrchestrationState =
    | ReadyRun | RunningRun | Paused | WaitingHuman | BlockedRun | BudgetExhaustedRun | CompletedRun | FailedOperational

  datatype StopReason =
    | NoMoreOpportunities | BudgetStop | MaxCyclesReached | MaxDurationReached | RequireHumanReview
    | NoCompatibleRuntime | CoreBlocked | OperatorPaused | OperatorCancelled | OperationalFailure
    | ContentPolicyBlocked | AuthRequired | RateLimited | CancelledStop

  datatype Phase =
    | CycleReady | OpportunitySelected | HypothesisAdmitted | ExperimentPlanned | AuthorizationRequested
    | AttemptAuthorized | DispatchingPhase | WorkerResultRecorded | TransitionAComplete
    | AssessmentComplete | TransitionBComplete | CycleComplete

  datatype CycleOutcome = Continue | Pause | Complete | BlockedCycle | HumanReview

  datatype Bounds = Bounds(
    maxCycles: nat, maxExperiments: nat, maxModelCalls: nat, maxWorkerInvocations: nat, maxElapsedMs: nat,
    maxSelectedOpportunities: nat, maxRuntimeFallback: nat, sideEffectCeiling: nat, allowRepeatedControls: bool)

  /** The immutable part of an orchestration record: exactly what the fingerprint covers. */
  datatype Config = Config(
    runId: string, budgetId: string, target: string, question: string, policyVersion: string,
    routingVersion: Option<string>, scopeFingerprint: Option<string>, bounds: Bounds)

  datatype Orchestration = Orchestration(
    config: Config,
    fingerprint: string,
    state: OrchestrationState,
    cycleNumber: nat,
    phase: Phase,
    lastPhase: string,
    opportunityId: Option<string>,
    hypothesisId: Option<string>,
    experimentId: Option<string>,
    attemptId: Option<string>,
    activeCycleId: Option<string>,
    stopReason: Option<StopReason>,
    pauseReason: Option<StopReason>)

  datatype Cycle = Cycle(number: nat, phaseCompleted: string, outcome: CycleOutcome, stopReason: Option<StopReason>)

  // ------------------------------------------------------------------ store

  datatype Store = Store(
    env: Envelopes,
    runs: set<string>,
    hypotheses: map<string, string>,              // hypothesis id -> run id
    experiments: map<string, Experiment>,
    plans: map<string, Plan>,
    attempts: map<string, Attempt>,
    audits: map<string, Audit>,
    ledger: seq<Row>,
    reauthorized: set<string>,                    // experiments with an ingested REAUTHORIZATION_REQUIRED result
    orchestrations: map<string, Orchestration>,
    cycles: map<string, seq<Cycle>>)              // cycle rows of each run, in number order
}
