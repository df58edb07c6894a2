/** One planned experiment: authorize, dispatch, call the Worker, record the outcome.
    Each transaction is one function from committed store to committed store. */
module ExecutionProtocol {
  import opened Common
  import opened BudgetLedger
  import BudgetConsumption
  import opened Records

  const BROWSER_PAGE: string := "browser.page"
  const BROWSER_PAGE_MAX_NETWORK_REQUESTS: nat := 16

  datatype LoopStatus =
    | ObservationProduced | NoObservation | DispatchDenied | HumanReviewRequired | InvocationFailed
    | OutcomeUnknown | AuthorizedNotDispatched | AlreadyTerminal | InputRejected | ReauthorizationRequired

  /** An answer of the loop: its status and the experiment state it reports (None when the row is missing). */
  datatype Answer = Answer(status: LoopStatus, reported: Option<ExperimentState>)

  datatype InvocationStatus =
    | InvocationCompleted | StartFailed | InvocationTimedOut | InvocationCancelled
    | ProcessFailed | ProtocolError | ContractInvalid | Unrecognized

  datatype ResultStatus = Reauthorize | ResultExhausted | OtherResult

  datatype Invocation = Invocation(status: InvocationStatus, result: Option<ResultStatus>)

  datatype IngestVerdict = IngestRejected | IngestNoObservation | IngestObservations

  datatype Command = Command(experimentId: string, plan: Plan)

  /** What code outside this model answers during one authorization: capability binding, the HTTP
      pre-check, the rate limiter, Core, the session binder and the request validator. */
  datatype Evaluation = Evaluation(
    capabilityBinds: bool, httpInputRejected: bool, rateAllowed: bool,
    core: Decision, httpScoped: bool, httpAccepted: bool, httpReason: DenyReason,
    sessionInputRejected: bool, sessionAccepted: bool, sessionReason: DenyReason, requestValid: bool)

  /** In-process handle of an authorized attempt. */
  datatype Handle = Handle(experimentId: string, attemptId: string)

  predicate Terminal(state: ExperimentState) {
    state in {ExecutionSucceeded, ExecutionFailed, Blocked, CancelledExperiment, BudgetExhausted}
  }

  function AttemptId(requestId: string): string { "ea:" + requestId }

  function DecisionAuditId(requestId: string): string { "ae:exec:" + requestId }

  function AttemptsOf(s: Store, e: string): set<string> {
    set a | a in s.attempts && s.attempts[a].experimentId == e
  }

  /** The query for an experiment's attempts has no order: any of them may come first. */
  predicate MayBeFirst(s: Store, e: string, first: string) {
    AttemptsOf(s, e) != {} ==> first in AttemptsOf(s, e)
  }

  function SetExperiment(s: Store, e: string, state: ExperimentState): Store
    requires e in s.experiments
  {
    s.(experiments := s.experiments[e := s.experiments[e].(state := state)])
  }

  function SetAttempt(s: Store, a: string, state: AttemptState): Store
    requires a in s.attempts
  {
    s.(attempts := s.attempts[a := s.attempts[a].(state := state)])
  }

  // ------------------------------------------------- fail-closed first read

  function ExistingStatus(state: AttemptState): LoopStatus {
    match state
    case Authorized => AuthorizedNotDispatched
    case UnknownOutcome => OutcomeUnknown
    case _ => AlreadyTerminal
  }

  /** Execute's first transaction. None lets the call go on to authorize. */
  function CheckTx(s: Store, e: string, first: string): (Store, Option<Answer>)
    requires MayBeFirst(s, e, first)
  {
    if e !in s.experiments then (s, Some(Answer(InputRejected, None)))
    else
      var state := s.experiments[e].state;
      if AttemptsOf(s, e) == {} then (s, if Terminal(state) then Some(Answer(AlreadyTerminal, Some(state))) else None)
      else
        var attempt := s.attempts[first];
        if attempt.state == Dispatching
        then (SetAttempt(s, first, UnknownOutcome), Some(Answer(OutcomeUnknown, Some(state))))
        else if attempt.state == Completed && e in s.reauthorized
        then (s, Some(Answer(ReauthorizationRequired, Some(state))))
        else (s, Some(Answer(ExistingStatus(attempt.state), Some(state))))
  }

  // -------------------------------------------------------------- authorize

  datatype AuthorizeResult = Granted(handle: Handle) | Answered(answer: Answer) | AuthorizeRaised

  /** Why the context cannot be loaded, if it cannot. */
  function ContextProblem(s: Store, cmd: Command): Option<Answer> {
    var e := cmd.experimentId;
    if e !in s.experiments then Some(Answer(InputRejected, None))
    else
      var x := s.experiments[e];
      if Terminal(x.state) then Some(Answer(AlreadyTerminal, Some(x.state)))
      else if x.hypothesisId != cmd.plan.hypothesisId || x.budgetId != cmd.plan.budgetId
              || x.hypothesisId !in s.hypotheses || x.runId !in s.runs || x.budgetId !in s.env.budgets
      then Some(Answer(InputRejected, Some(x.state)))
      else if (if e in s.plans then s.plans[e] != cmd.plan else !cmd.plan.bound)
      then Some(Answer(InputRejected, Some(x.state)))
      else None
  }

  /** The command names a live experiment with everything it needs, and its plan is the stored one, or a bound first one. */
  predicate MayExecute(s: Store, cmd: Command) {
    var e := cmd.experimentId;
    && e in s.experiments && !Terminal(s.experiments[e].state)
    && s.experiments[e].hypothesisId == cmd.plan.hypothesisId && cmd.plan.hypothesisId in s.hypotheses
    && s.experiments[e].budgetId == cmd.plan.budgetId && cmd.plan.budgetId in s.env.budgets
    && s.experiments[e].runId in s.runs
    && (e in s.plans ==> s.plans[e] == cmd.plan) && (e !in s.plans ==> cmd.plan.bound)
  }

  /** Core's decision after the HTTP pre-check and the session binder had their say. */
  function FinalDecision(ev: Evaluation): Decision {
    var afterHttp := if ev.httpScoped && !ev.httpAccepted then Deny(ev.httpReason) else ev.core;
    if afterHttp.Allow? && !ev.sessionAccepted then Deny(ev.sessionReason) else afterHttp
  }

  function DenyState(reason: DenyReason): ExperimentState {
    if reason.Exhausted? then BudgetExhausted else Blocked
  }

  /** The tail of authorize, from the rate limiter on: block, decline, or grant an attempt. */
  function DecideTx(
    s: Store, cmd: Command, ev: Evaluation, requestId: string, limitId: string, hook: Option<Orchestration>)
    : (Store, AuthorizeResult)
    requires cmd.experimentId in s.experiments
  {
    var e := cmd.experimentId;
    var x := s.experiments[e];
    var planned := s.(plans := s.plans[e := cmd.plan]);
    if !ev.rateAllowed then
      (SetExperiment(planned, e, Blocked).(audits := s.audits[DecisionAuditId(limitId) := RateLimitDenied(e)]),
       Answered(Answer(DispatchDenied, Some(Blocked))))
    else if ev.sessionInputRejected then (s, Answered(Answer(InputRejected, Some(x.state))))
    else
      var decision := FinalDecision(ev);
      var auditId := DecisionAuditId(requestId);
      var audited := planned.(audits := s.audits[auditId := ExecutionDecision(e, requestId, decision)]);
      match decision
      case Deny(reason) =>
        (SetExperiment(audited, e, DenyState(reason)), Answered(Answer(DispatchDenied, Some(DenyState(reason)))))
      case Review =>
        (SetExperiment(audited, e, AuthorizationCheck), Answered(Answer(HumanReviewRequired, Some(AuthorizationCheck))))
      case Allow =>
        if !ev.requestValid then (s, AuthorizeRaised)
        else
          var attempt := Attempt(requestId, e, x.runId, cmd.plan.capability, x.budgetId, auditId, Authorized);
          var granted := SetExperiment(audited, e, Ready).(attempts := s.attempts[AttemptId(requestId) := attempt]);
          (if hook.Some?
           then granted.(orchestrations := s.orchestrations[hook.value.config.runId := hook.value])
           else granted,
           Granted(Handle(e, AttemptId(requestId))))
  }

  /** The authorize transaction. requestId and limitId are the fresh ids it draws;
      hook is the orchestration row its caller saves in the same transaction. */
  function AuthorizeTx(
    s: Store, cmd: Command, ev: Evaluation, requestId: string, limitId: string, first: string, hook: Option<Orchestration>)
    : (Store, AuthorizeResult)
    requires MayBeFirst(s, cmd.experimentId, first)
  {
    var e := cmd.experimentId;
    var problem := ContextProblem(s, cmd);
    if problem.Some? then (s, Answered(problem.value))
    else if AttemptsOf(s, e) != {}
    then (s, Answered(Answer(ExistingStatus(s.attempts[first].state), Some(s.experiments[e].state))))
    else if !ev.capabilityBinds then (s, Answered(Answer(DispatchDenied, Some(s.experiments[e].state))))
    else if ev.httpInputRejected then (s, Answered(Answer(InputRejected, Some(s.experiments[e].state))))
    else DecideTx(s, cmd, ev, requestId, limitId, hook)
  }

  // --------------------------------------------------------------- dispatch

  datatype DispatchResult = Go(cap: Option<nat>) | Refusal(answer: Answer) | DispatchRaised

  /** How many requests a dispatch reserves; None when the browser has no request left. */
  function RequestAmount(s: Store, attempt: Attempt): Option<nat>
    requires attempt.budgetId in s.env.budgets
  {
    if attempt.capability != BROWSER_PAGE then Some(1)
    else
      var remaining := s.env.budgets[attempt.budgetId].maxRequests - Used(s.ledger, attempt.budgetId, Request);
      if remaining < 1 then None else Some(Min(remaining, BROWSER_PAGE_MAX_NETWORK_REQUESTS))
  }

  function Charge(attempt: Attempt, resource: Resource, amount: nat): Row {
    Row(attempt.budgetId, Some(attempt.runId), resource, amount, Some(attempt.requestId), None)
  }

  /** Both reservations of a dispatch, invocation first, or what stopped them. */
  function Reserve(s: Store, attempt: Attempt): (InsertOutcome, seq<Row>, nat)
    requires attempt.budgetId in s.env.budgets
  {
    var amount := RequestAmount(s, attempt);
    if amount.None? then (Overspend, s.ledger, 0)
    else
      var (first, once) := InsertWithinAllowance(s.env, s.ledger, Charge(attempt, WorkerInvocation, 1));
      if first.Overspend? || first.Refused? then (first, s.ledger, 0)
      else
        var (second, twice) := InsertWithinAllowance(s.env, once, Charge(attempt, Request, amount.value));
        if second.Overspend? || second.Refused? then (second, s.ledger, 0)
        else (Inserted, twice, amount.value)
  }

  function DispatchTx(s: Store, h: Handle): (Store, DispatchResult) {
    if h.attemptId !in s.attempts || h.experimentId !in s.experiments
    then (s, Refusal(Answer(InputRejected,
                            if h.experimentId in s.experiments then Some(s.experiments[h.experimentId].state) else None)))
    else
      var attempt, state := s.attempts[h.attemptId], s.experiments[h.experimentId].state;
      if attempt.state == Dispatching
      then (SetAttempt(s, h.attemptId, UnknownOutcome), Refusal(Answer(OutcomeUnknown, Some(state))))
      else if attempt.state != Authorized then (s, Refusal(Answer(ExistingStatus(attempt.state), Some(state))))
      else if attempt.budgetId !in s.env.budgets then (s, Refusal(Answer(InputRejected, Some(state))))
      else
        var (outcome, ledger, amount) := Reserve(s, attempt);
        match outcome
        case Overspend => (s, Refusal(Answer(DispatchDenied, Some(BudgetExhausted))))
        case Refused => (s, DispatchRaised)
        case _ =>
          (SetExperiment(SetAttempt(s, h.attemptId, Dispatching), h.experimentId, Running).(ledger := ledger),
           Go(if attempt.capability == BROWSER_PAGE then Some(amount) else None))
  }

  // ---------------------------------------------------------------- outcome

  function Classify(inv: Invocation): (AttemptState, ExperimentState, LoopStatus) {
    match inv.status
    case InvocationCompleted =>
      (match inv.result
       case Some(Reauthorize) => (Completed, AuthorizationCheck, ReauthorizationRequired)
       case Some(ResultExhausted) => (Completed, BudgetExhausted, DispatchDenied)
       case _ => (Completed, ExecutionSucceeded, NoObservation))
    case InvocationTimedOut => (TimedOut, ExecutionFailed, InvocationFailed)
    case InvocationCancelled => (Cancelled, CancelledExperiment, InvocationFailed)
    case Unrecognized => (UnknownOutcome, Running, OutcomeUnknown)
    case _ => (Failed, ExecutionFailed, InvocationFailed)
  }

  /** The outcome write. It does not look at the state it replaces. */
  function RecordTx(s: Store, h: Handle, a: AttemptState, x: ExperimentState): Store
    requires h.attemptId in s.attempts && h.experimentId in s.experiments
  {
    SetExperiment(SetAttempt(s, h.attemptId, a), h.experimentId, x)
  }

  // ------------------------------------------------------ interleaved calls

  /** Where one in-process call stands between its transactions. */
  datatype Call =
    | Checked(experimentId: string)                 // passed the fail-closed read
    | Holding(handle: Handle)                       // has an authorized handle
    | Cleared(handle: Handle, cap: Option<nat>)     // DISPATCHING is committed; the Worker is not called yet
    | InFlight(handle: Handle)                      // the Worker was called
    | Returned(handle: Handle, inv: Invocation)     // the Worker answered
    | Recorded(handle: Handle, inv: Invocation)     // the outcome is committed; ingestion is next
    | Unusable(handle: Handle)                      // ingestion rejected the result
  {
    /** This call owns the dispatched attempt of its handle. */
    predicate Live() { !Checked? && !Holding? }
  }

  datatype WorkerCall = WorkerCall(experimentId: string, requestId: string, budgetId: string, cap: Option<nat>)

  datatype World = World(store: Store, calls: map<nat, Call>, workerCalls: seq<WorkerCall>)

  datatype Step =
    | Check(c: nat, e: string, first: string)
    | Authorize(c: nat, cmd: Command, ev: Evaluation, requestId: string, limitId: string, first: string, hook: Option<Orchestration>)
    | Rebuild(c: nat, attemptId: string)            // the controller's resume makes a handle from an AUTHORIZED row
    | Dispatch(c: nat)
    | Invoke(c: nat)
    | Return(c: nat, inv: Invocation)
    | Record(c: nat, persists: bool)
    | Ingest(c: nat, verdict: IngestVerdict)
    | MarkFailed(c: nat)
    | Crash(c: nat)                                 // the process of call c dies
    | Prepare(e: string, runId: string, plan: Plan)
    | ChargeElsewhere(record: BudgetConsumption.Command)

  /** The two ids drawn by an authorization are new to every table that will hold them. */
  predicate FreshIds(s: Store, requestId: string, limitId: string) {
    && requestId != limitId
    && AttemptId(requestId) !in s.attempts
    && DecisionAuditId(requestId) !in s.audits && DecisionAuditId(limitId) !in s.audits
    && forall i :: 0 <= i < |s.ledger| ==> s.ledger[i].requestId != Some(requestId)
  }

  function End(w: World, c: nat): World {
    w.(calls := w.calls - {c})
  }

  /** Nobody but its dispatch charges an attempt's request id for an invocation or a request. */
  predicate ChargesAttempt(s: Store, record: BudgetConsumption.Command) {
    record.resource in {WorkerInvocation, Request} && record.requestId.Some? && AttemptId(record.requestId.value) in s.attempts
  }

  /** One transaction, Worker event or crash. A step that is not enabled changes nothing. */
  function Next(w: World, step: Step): World {
    match step
    case Check(c, e, first) =>
      if c in w.calls || !MayBeFirst(w.store, e, first) then w
      else
        var (s, answer) := CheckTx(w.store, e, first);
        World(s, if answer.None? then w.calls[c := Checked(e)] else w.calls, w.workerCalls)
    case Authorize(c, cmd, ev, requestId, limitId, first, hook) =>
      if (c in w.calls && w.calls[c] != Checked(cmd.experimentId)) || !FreshIds(w.store, requestId, limitId)
         || !MayBeFirst(w.store, cmd.experimentId, first)
      then w
      else
        var (s, result) := AuthorizeTx(w.store, cmd, ev, requestId, limitId, first, hook);
        World(s, if result.Granted? then w.calls[c := Holding(result.handle)] else w.calls - {c}, w.workerCalls)
    case Rebuild(c, a) =>
      if c in w.calls || a !in w.store.attempts || w.store.attempts[a].state != Authorized then w
      else w.(calls := w.calls[c := Holding(Handle(w.store.attempts[a].experimentId, a))])
    case Dispatch(c) =>
      if c !in w.calls || !w.calls[c].Holding? then w
      else
        var h := w.calls[c].handle;
        var (s, result) := DispatchTx(w.store, h);
        World(s, if result.Go? then w.calls[c := Cleared(h, result.cap)] else w.calls - {c}, w.workerCalls)
    case Invoke(c) =>
      if c !in w.calls || !w.calls[c].Cleared? || w.calls[c].handle.attemptId !in w.store.attempts then w
      else
        var h := w.calls[c].handle;
        var attempt := w.store.attempts[h.attemptId];
        w.(calls := w.calls[c := InFlight(h)],
           workerCalls := w.workerCalls + [WorkerCall(h.experimentId, attempt.requestId, attempt.budgetId, w.calls[c].cap)])
    case Return(c, inv) =>
      if c !in w.calls || !w.calls[c].InFlight? then w
      else w.(calls := w.calls[c := Returned(w.calls[c].handle, inv)])
    case Record(c, persists) =>
      if c !in w.calls || !w.calls[c].Returned? then w
      else
        var (h, inv) := (w.calls[c].handle, w.calls[c].inv);
        if !persists || h.attemptId !in w.store.attempts || h.experimentId !in w.store.experiments then End(w, c)
        else
          var (a, x, _) := Classify(inv);
          World(RecordTx(w.store, h, a, x),
                if inv.status.InvocationCompleted? && inv.result.Some? then w.calls[c := Recorded(h, inv)] else w.calls - {c},
                w.workerCalls)
    case Ingest(c, verdict) =>
      if c !in w.calls || !w.calls[c].Recorded? then w
      else
        var (h, inv) := (w.calls[c].handle, w.calls[c].inv);
        if verdict.IngestRejected? then w.(calls := w.calls[c := Unusable(h)])
        else if inv.result == Some(Reauthorize)
        then End(w, c).(store := w.store.(reauthorized := w.store.reauthorized + {h.experimentId}))
        else End(w, c)
    case MarkFailed(c) =>
      if c !in w.calls || !w.calls[c].Unusable?
         || w.calls[c].handle.attemptId !in w.store.attempts || w.calls[c].handle.experimentId !in w.store.experiments
      then w
      else End(w, c).(store := RecordTx(w.store, w.calls[c].handle, Failed, ExecutionFailed))
    case Crash(c) => End(w, c)
    case Prepare(e, runId, plan) =>
      if e in w.store.experiments then w
      else
        w.(store := w.store.(
             experiments := w.store.experiments[e := Experiment(runId, plan.hypothesisId, plan.budgetId, Planned)],
             plans := w.store.plans[e := plan]))
    case ChargeElsewhere(record) =>
      if ChargesAttempt(w.store, record) then w
      else w.(store := w.store.(ledger := BudgetConsumption.Record(w.store.env, w.store.ledger, record).0))
  }

  function Run(w: World, steps: seq<Step>): World
    decreases |steps|
  {
    if steps == [] then w else Run(Next(w, steps[0]), steps[1..])
  }
}
