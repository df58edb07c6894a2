/** The orchestration rows and cycle rows under every interleaving: one controller per run, operators,
    crashes, and everything the execution protocol does. */
module OrchestrationProtocol {
  import opened Common
  import opened BudgetLedger
  import opened Records
  import opened OrchestrationPolicy
  import Execution = ExecutionProtocol

  /** The ids an orchestration row points at; None keeps what the row has. */
  datatype Refs = Refs(
    opportunity: Option<string>, hypothesis: Option<string>, experiment: Option<string>,
    attempt: Option<string>, activeCycle: Option<string>)

  const NO_REFS := Refs(None, None, None, None, None)

  /** How a cycle ends: a stop has a reason, otherwise the run continues. */
  datatype Ending = Ending(stop: Option<StopReason>, lastPhase: string, refs: Refs, increment: bool, phase: Option<Phase>)

  /** A run's committed tables, plus the row each running controller holds in memory. */
  datatype Desk = Desk(world: Execution.World, sessions: map<string, Orchestration>)

  datatype Act =
    | Exec(step: Execution.Step)
    | Start(config: Config)
    | Pause(r: string)
    | Resume(r: string)
    | Cancel(r: string)
    | Begin(r: string)                                   // a step loads the row
    | MarkRunning(r: string)
    | Reload(r: string)
    | Checkpoint(r: string, phase: Phase, refs: Refs)
    | Admit(r: string, hypothesisId: string, opportunity: Option<string>, cycleId: string)
    | Prepare(r: string, e: string, plan: Plan, hypothesis: Option<string>)
    | Authorize(r: string, c: nat, cmd: Execution.Command, ev: Execution.Evaluation,
                requestId: string, limitId: string, first: string)
    | Finish(r: string, ending: Ending)
    | Leave(r: string)                                   // a step ends without writing, or its process dies

  // ------------------------------------------------------------ row updates

  /** Python's `a or b`: an empty id counts as missing. */
  function Or(a: Option<string>, b: Option<string>): Option<string> {
    if a.Some? && a.value != "" then a else b
  }

  function PhaseName(phase: Phase): string {
    match phase
    case CycleReady => "CYCLE_READY"
    case OpportunitySelected => "OPPORTUNITY_SELECTED"
    case HypothesisAdmitted => "HYPOTHESIS_ADMITTED"
    case ExperimentPlanned => "EXPERIMENT_PLANNED"
    case AuthorizationRequested => "AUTHORIZATION_REQUESTED"
    case AttemptAuthorized => "ATTEMPT_AUTHORIZED"
    case DispatchingPhase => "DISPATCHING"
    case WorkerResultRecorded => "WORKER_RESULT_RECORDED"
    case TransitionAComplete => "TRANSITION_A_COMPLETE"
    case AssessmentComplete => "ASSESSMENT_COMPLETE"
    case TransitionBComplete => "TRANSITION_B_COMPLETE"
    case CycleComplete => "CYCLE_COMPLETE"
  }

  function Pointed(row: Orchestration, refs: Refs): Orchestration {
    row.(opportunityId := Or(refs.opportunity, row.opportunityId),
         hypothesisId := Or(refs.hypothesis, row.hypothesisId),
         experimentId := Or(refs.experiment, row.experimentId),
         attemptId := Or(refs.attempt, row.attemptId),
         activeCycleId := Or(refs.activeCycle, row.activeCycleId))
  }

  function AtPhase(row: Orchestration, phase: Phase): Orchestration {
    row.(phase := phase, lastPhase := PhaseName(phase))
  }

  function Checkpointed(row: Orchestration, phase: Phase, refs: Refs): Orchestration {
    AtPhase(Pointed(row, refs), phase).(state := RunningRun)
  }

  function Admitted(row: Orchestration, hypothesisId: string, opportunity: Option<string>, cycleId: string): Orchestration {
    AtPhase(row, HypothesisAdmitted).(
      state := RunningRun, opportunityId := Or(opportunity, row.opportunityId),
      hypothesisId := Some(hypothesisId), activeCycleId := Some(cycleId))
  }

  /** Planning leaves the run's state as the step loaded it. */
  function WithPlan(row: Orchestration, e: string, hypothesis: Option<string>): Orchestration {
    AtPhase(row, ExperimentPlanned).(experimentId := Some(e), hypothesisId := Or(hypothesis, row.hypothesisId))
  }

  /** The row the persist hook saves in the authorize transaction. */
  function Hooked(row: Orchestration, e: string, attemptId: string): Orchestration {
    AtPhase(row, AttemptAuthorized).(state := RunningRun, experimentId := Some(e), attemptId := Some(attemptId))
  }

  function OutcomeOf(ending: Ending): CycleOutcome {
    if ending.stop.Some? then OutcomeForStop(ending.stop.value) else Continue
  }

  predicate Inserts(ending: Ending) {
    ending.increment || OutcomeOf(ending) != Continue
  }

  function Ended(row: Orchestration, ending: Ending): Orchestration {
    Pointed(row, ending.refs).(
      state := if ending.stop.Some? then StateForStop(ending.stop.value) else ReadyRun,
      cycleNumber := row.cycleNumber + if Inserts(ending) then 1 else 0,
      lastPhase := ending.lastPhase,
      phase := if ending.phase.Some? then ending.phase.value else if Inserts(ending) then CycleComplete else row.phase,
      stopReason := if ending.stop.Some? then ending.stop else row.stopReason)
  }

  function OperatorRow(row: Orchestration, state: OrchestrationState, reason: StopReason): Orchestration {
    row.(state := state, stopReason := Some(reason),
         pauseReason := if state.Paused? then Some(reason) else row.pauseReason, lastPhase := "operator")
  }

  function StartRow(fingerprint: Config -> string, config: Config): Orchestration {
    var zero := config.bounds.maxCycles == 0;
    Orchestration(config, fingerprint(config), if zero then CompletedRun else ReadyRun, 0, CycleReady, "start",
                  None, None, None, None, None, if zero then Some(MaxCyclesReached) else None, None)
  }

  // ----------------------------------------------------------- transactions

  function RowsOf(s: Store, r: string): seq<Cycle> {
    if r in s.cycles then s.cycles[r] else []
  }

  function Save(s: Store, r: string, row: Orchestration): Store {
    s.(orchestrations := s.orchestrations[r := row])
  }

  /** The cycle insert; None when the run already has a row of that number. */
  function InsertCycle(s: Store, r: string, row: Cycle): Option<Store> {
    if exists i :: 0 <= i < |RowsOf(s, r)| && RowsOf(s, r)[i].number == row.number then None
    else Some(s.(cycles := s.cycles[r := RowsOf(s, r) + [row]]))
  }

  /** The last transaction of a step: save the row and, when the cycle counts, insert its cycle row. */
  function FinishTx(s: Store, r: string, current: Orchestration, ending: Ending): Option<Store> {
    var row := Ended(current, ending);
    if Inserts(ending)
    then InsertCycle(Save(s, r, row), r, Cycle(row.cycleNumber, ending.lastPhase, OutcomeOf(ending), ending.stop))
    else Some(Save(s, r, row))
  }

  /** Planning refuses an unbound plan, a foreign hypothesis or a foreign budget; it raises and rolls back. */
  predicate CanPrepare(s: Store, r: string, plan: Plan) {
    && plan.bound && r in s.runs
    && plan.hypothesisId in s.hypotheses && s.hypotheses[plan.hypothesisId] == r
    && plan.budgetId in s.env.budgets && s.env.budgets[plan.budgetId].runId == Some(r)
  }

  function PrepareTx(s: Store, r: string, e: string, plan: Plan): Store {
    if e in s.experiments then s
    else s.(experiments := s.experiments[e := Experiment(r, plan.hypothesisId, plan.budgetId, Planned)],
            plans := s.plans[e := plan])
  }

  predicate Open(d: Desk, r: string) {
    r in d.sessions
  }

  function WithStore(d: Desk, s: Store): Desk {
    d.(world := d.world.(store := s))
  }

  /** The session saves its row: the table and the copy in memory agree afterwards. */
  function Saving(d: Desk, r: string, row: Orchestration): Desk {
    Desk(d.world.(store := Save(d.world.store, r, row)), d.sessions[r := row])
  }

  function Operator(d: Desk, r: string, state: OrchestrationState, reason: StopReason): Desk {
    var s := d.world.store;
    if r !in s.orchestrations then d else WithStore(d, Save(s, r, OperatorRow(s.orchestrations[r], state, reason)))
  }

  /** The hook belongs to the controller's own authorizations; any other one runs without. */
  predicate Hookless(step: Execution.Step) {
    step.Authorize? ==> step.hook.None?
  }

  /** One transaction, Worker event or crash. A step that is not enabled, or rolls back, changes nothing. */
  function Next(fingerprint: Config -> string, d: Desk, act: Act): Desk {
    var s := d.world.store;
    match act
    case Exec(step) => if Hookless(step) then d.(world := Execution.Next(d.world, step)) else d
    case Start(config) =>
      if config.runId !in s.runs || config.runId in s.orchestrations then d
      else WithStore(d, Save(s, config.runId, StartRow(fingerprint, config)))
    case Pause(r) => Operator(d, r, Paused, OperatorPaused)
    case Cancel(r) => Operator(d, r, CompletedRun, OperatorCancelled)
    case Resume(r) =>
      if r !in s.orchestrations || s.orchestrations[r].state != Paused then d
      else WithStore(d, Save(s, r, s.orchestrations[r].(
        state := ReadyRun, pauseReason := None, stopReason := None, lastPhase := "resume")))
    case Begin(r) =>
      if Open(d, r) || r !in s.orchestrations then d else d.(sessions := d.sessions[r := s.orchestrations[r]])
    case MarkRunning(r) =>
      if !Open(d, r) then d else WithStore(d, Save(s, r, d.sessions[r].(state := RunningRun, lastPhase := "running")))
    case Reload(r) =>
      if !Open(d, r) || r !in s.orchestrations then d else d.(sessions := d.sessions[r := s.orchestrations[r]])
    case Checkpoint(r, phase, refs) =>
      if !Open(d, r) then d else Saving(d, r, Checkpointed(d.sessions[r], phase, refs))
    case Admit(r, hypothesisId, opportunity, cycleId) =>
      if !Open(d, r) || hypothesisId in s.hypotheses then d
      else
        Saving(WithStore(d, s.(hypotheses := s.hypotheses[hypothesisId := r])), r,
               Admitted(d.sessions[r], hypothesisId, opportunity, cycleId))
    case Prepare(r, e, plan, hypothesis) =>
      if !Open(d, r) || !CanPrepare(s, r, plan) then d
      else Saving(WithStore(d, PrepareTx(s, r, e, plan)), r, WithPlan(d.sessions[r], e, hypothesis))
    case Authorize(r, c, cmd, ev, requestId, limitId, first) =>
      if !Open(d, r) then d
      else
        var attemptId := Execution.AttemptId(requestId);
        var hooked := Hooked(d.sessions[r], cmd.experimentId, attemptId);
        var after := Execution.Next(d.world, Execution.Authorize(c, cmd, ev, requestId, limitId, first, Some(hooked)));
        Desk(after,
             if attemptId in after.store.attempts && attemptId !in s.attempts then d.sessions[r := hooked] else d.sessions)
    case Finish(r, ending) =>
      if !Open(d, r) then d
      else
        var after := FinishTx(s, r, d.sessions[r], ending);
        Desk(d.world.(store := if after.Some? then after.value else s), d.sessions - {r})
    case Leave(r) => d.(sessions := d.sessions - {r})
  }

  function Run(fingerprint: Config -> string, d: Desk, acts: seq<Act>): Desk {
    if acts == [] then d
    else Next(fingerprint, Run(fingerprint, d, acts[..|acts| - 1]), acts[|acts| - 1])
  }
}
