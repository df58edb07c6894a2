/** The controller object: start, step, pause, resume, cancel and the bounded loop over one run. */
module Controller {
  import opened Common
  import opened BudgetLedger
  import opened Records
  import opened OrchestrationPolicy
  import opened OrchestrationProtocol
  import opened OrchestrationSafety
  import opened Database
  import opened Executor
  import Execution = ExecutionProtocol
  import ExecutionSafety
  import ExecutionTheorems

  datatype Routing = RouteSelected | NoRuntime | RoutePolicyBlocked | OtherRoute

  datatype Proposal =
    | ModelBudgetRejected | ModelFailed(outcome: RuntimeOutcome) | NotAdmitted
    | PlanAdmitted(hypothesisId: string, plan: Plan, sideEffectLevel: nat) | ProposalRaised

  /** What code outside this model answers during one step. */
  datatype Tick = Tick(
    elapsedAtBounds: nat, elapsedAtAction: nat, routing: Routing, selected: seq<string>, newCycleId: string,
    proposal: Proposal, newExperimentId: string, diagnosticPlan: Plan, out: Outside, evaluates: bool, resumeBinds: bool)

  datatype TickResult = Ticked(row: Orchestration, outcome: CycleOutcome) | TickRaised

  function ResultOf(row: Orchestration, outcome: CycleOutcome): TickResult {
    Ticked(row, if row.state.Paused? then CycleOutcome.Pause else outcome)
  }

  predicate HasCycle(row: Orchestration) {
    row.activeCycleId.Some? && row.activeCycleId.value != ""
  }

  /** Within a step the configuration and the count stand still, and a cycle id once chosen is kept. */
  predicate Steady(a: Orchestration, b: Orchestration) {
    Agrees(a, b) && (HasCycle(a) ==> b.activeCycleId == a.activeCycleId)
  }

  /** How a step may leave the row it began with. A count past its bound happens exactly to a step that began at the bound. */
  predicate StepsTo(before: Orchestration, row: Orchestration, finished: bool) {
    && row.config == before.config && row.fingerprint == before.fingerprint
    && before.cycleNumber <= row.cycleNumber <= before.cycleNumber + 1
    && (HasCycle(before) ==> row.activeCycleId == before.activeCycleId)
    && (finished ==> (row.cycleNumber <= row.config.bounds.maxCycles <==> before.cycleNumber < before.config.bounds.maxCycles))
  }

  ghost predicate Done(before: Orchestration, d: Desk, r: string, result: TickResult) {
    && r !in d.sessions && r in d.world.store.orchestrations
    && StepsTo(before, d.world.store.orchestrations[r], result.Ticked?)
    && (result.Ticked? ==> result.row == d.world.store.orchestrations[r])
  }

  /** Our session holds current, and the tables agree with it on everything others leave alone. */
  ghost predicate Holds(d: Desk, c: nat, r: string, current: Orchestration) {
    && r in d.sessions && d.sessions[r] == current && c !in d.world.calls
    && r in d.world.store.orchestrations && SameCore(d.world.store.orchestrations[r], current)
  }

  function AttemptsOfRun(s: Store, r: string): set<string> {
    set a | a in s.attempts && s.attempts[a].runId == r
  }

  predicate Unresolved(state: AttemptState) {
    state == Dispatching || state == UnknownOutcome
  }

  predicate HasExperiment(row: Orchestration) {
    row.experimentId.Some? && row.experimentId.value != ""
  }

  /** The phases that resume by executing the planned experiment. */
  predicate AwaitsExecution(row: Orchestration) {
    HasExperiment(row) && (row.phase.ExperimentPlanned? || row.phase.AuthorizationRequested? || row.phase.AttemptAuthorized?)
  }

  /** The phases that resume after the Worker's result. */
  predicate AfterWorker(row: Orchestration) {
    HasExperiment(row) && (row.phase.WorkerResultRecorded? || row.phase.TransitionAComplete?
                           || row.phase.AssessmentComplete? || row.phase.TransitionBComplete?)
  }

  function StopEnding(reason: StopReason, lastPhase: string, refs: Refs, increment: bool, phase: Option<Phase>): Ending {
    Ending(Some(reason), lastPhase, refs, increment, phase)
  }

  /** An ending that counts: it stops, or it increments. */
  lemma CountingEnding(current: Orchestration, ending: Ending)
    requires ending.refs.activeCycle.None?
    requires ending.stop.Some? || ending.increment || current.cycleNumber < current.config.bounds.maxCycles
    ensures StepsTo(current, Ended(current, ending), true)
  {
    if ending.stop.Some? { EveryStopEndsTheRun(ending.stop.value); }
  }

  /** The step stopped the run for this reason, one cycle further. */
  predicate Stopped(before: Orchestration, reason: StopReason, result: TickResult) {
    && result.Ticked? && result.outcome == OutcomeForStop(reason)
    && result.row.state == StateForStop(reason) && result.row.stopReason == Some(reason)
    && result.row.cycleNumber == before.cycleNumber + 1
  }

  /** The cycle counted: the last one stops the run, any other leaves it ready. */
  predicate CycleEnded(before: Orchestration, lastPhase: string, result: TickResult) {
    && (if before.cycleNumber + 1 >= before.config.bounds.maxCycles then Stopped(before, MaxCyclesReached, result)
        else result.Ticked? && result.outcome == Continue && result.row.state == ReadyRun
             && result.row.cycleNumber == before.cycleNumber + 1)
    && result.row.phase == CycleComplete && result.row.lastPhase == lastPhase
  }

  /** What a fresh cycle makes of the loop's status. */
  predicate LoopSettled(before: Orchestration, status: Execution.LoopStatus, evaluates: bool, result: TickResult) {
    if status.DispatchDenied? then Stopped(before, CoreBlocked, result)
    else if status.HumanReviewRequired? then Stopped(before, RequireHumanReview, result)
    else if status.OutcomeUnknown? then Stopped(before, OperationalFailure, result) && result.row.phase == DispatchingPhase
    else if (status.ObservationProduced? || status.NoObservation? || status.InvocationFailed?) && !evaluates then result == TickRaised
    else CycleEnded(before, "execute", result)
  }

  /** What a resumed planned experiment makes of it. */
  predicate ResumedLoopSettled(before: Orchestration, status: Execution.LoopStatus, e: string, evaluates: bool, result: TickResult) {
    if status.OutcomeUnknown? then Stopped(before, OperationalFailure, result) && result.row.phase == DispatchingPhase
    else if status.DispatchDenied? then Stopped(before, CoreBlocked, result)
    else if status.HumanReviewRequired? then Stopped(before, RequireHumanReview, result)
    else if !status.ReauthorizationRequired? && e != "" && !evaluates then result == TickRaised
    else CycleEnded(before, "resume_planned", result)
  }

  lemma AttemptsPersist(s: Store, t: Store, e: string)
    requires ExecutionSafety.Follows(s, t)
    ensures Execution.AttemptsOf(s, e) <= Execution.AttemptsOf(t, e)
  {
  }

  /** An unresolved attempt of the run nobody owns: its process died between claim and outcome. */
  ghost predicate CrashedAttempt(w: Execution.World, r: string) {
    exists a :: ExecutionTheorems.Abandoned(w, a) && w.store.attempts[a].runId == r
  }

  predicate UnknownOpen(s: Store, r: string) {
    exists a :: a in AttemptsOfRun(s, r) && Unresolved(s.attempts[a].state)
  }

  predicate AuthorizedOpen(s: Store, r: string) {
    exists a :: a in AttemptsOfRun(s, r) && s.attempts[a].state == Authorized
  }

  /** Whatever others do meanwhile, a crashed attempt is still there when the step looks. */
  lemma CrashIsSeen(w: Execution.World, after: Execution.World, r: string)
    requires ExecutionSafety.Follows(w.store, after.store)
    requires forall a :: ExecutionTheorems.Abandoned(w, a) ==> ExecutionTheorems.Abandoned(after, a)
    ensures CrashedAttempt(w, r) ==> UnknownOpen(after.store, r)
  {
    if CrashedAttempt(w, r) {
      var a :| ExecutionTheorems.Abandoned(w, a) && w.store.attempts[a].runId == r;
      assert a in AttemptsOfRun(after.store, r);
    }
  }

  lemma ActKeepsCrash(fingerprint: Config -> string, d: Desk, act: Act, r: string)
    requires Sound(fingerprint, d)
    ensures CrashedAttempt(d.world, r) ==> CrashedAttempt(Next(fingerprint, d, act).world, r)
  {
    if a :| ExecutionTheorems.Abandoned(d.world, a) && d.world.store.attempts[a].runId == r {
      ActKeepsAbandoned(fingerprint, d, act, a);
      ActKeepsValid(fingerprint, d, act);
      assert ExecutionTheorems.Abandoned(Next(fingerprint, d, act).world, a);
    }
  }

  /** Once there, a crashed attempt is there for good, whoever acts. */
  lemma {:induction false} CrashPersists(fingerprint: Config -> string, origin: Desk, before: seq<Act>, after: seq<Act>, r: string)
    requires Sound(fingerprint, origin) && before <= after
    ensures CrashedAttempt(Run(fingerprint, origin, before).world, r) ==> CrashedAttempt(Run(fingerprint, origin, after).world, r)
  {
    if CrashedAttempt(Run(fingerprint, origin, before).world, r) {
      assert after[..|before|] == before;
      for k := |before| to |after|
        invariant CrashedAttempt(Run(fingerprint, origin, after[..k]).world, r)
      {
        CrashOutlivesAct(fingerprint, origin, after, k, r);
      }
      assert after[..|after|] == after;
    }
  }

  lemma CrashOutlivesAct(fingerprint: Config -> string, origin: Desk, acts: seq<Act>, k: nat, r: string)
    requires Sound(fingerprint, origin) && k < |acts| && CrashedAttempt(Run(fingerprint, origin, acts[..k]).world, r)
    ensures CrashedAttempt(Run(fingerprint, origin, acts[..k + 1]).world, r)
  {
    PrefixIsSound(fingerprint, origin, acts[..k]);
    PrefixStep(fingerprint, origin, acts, k);
    CrashAfter(fingerprint, Run(fingerprint, origin, acts[..k]), acts[k], Run(fingerprint, origin, acts[..k + 1]), r);
  }

  lemma PrefixIsSound(fingerprint: Config -> string, origin: Desk, acts: seq<Act>)
    requires Sound(fingerprint, origin)
    ensures Sound(fingerprint, Run(fingerprint, origin, acts))
  {
    RunKeepsSound(fingerprint, origin, acts);
  }

  lemma PrefixStep(fingerprint: Config -> string, origin: Desk, acts: seq<Act>, k: nat)
    requires k < |acts|
    ensures Run(fingerprint, origin, acts[..k + 1]) == Next(fingerprint, Run(fingerprint, origin, acts[..k]), acts[k])
  {
    RunAppend(fingerprint, origin, acts[..k], acts[k]);
    assert acts[..k] + [acts[k]] == acts[..k + 1];
  }

  lemma CrashAfter(fingerprint: Config -> string, d: Desk, act: Act, after: Desk, r: string)
    requires Sound(fingerprint, d) && after == Next(fingerprint, d, act) && CrashedAttempt(d.world, r)
    ensures CrashedAttempt(after.world, r)
  {
    ActKeepsCrash(fingerprint, d, act, r);
  }

  lemma RowsAgree(fingerprint: Config -> string, d: Desk, r: string)
    requires Sound(fingerprint, d)
    ensures r in d.world.store.orchestrations ==> |RowsOf(d.world.store, r)| == d.world.store.orchestrations[r].cycleNumber
  {
    assert RunOk(fingerprint, d.world.store, r);
  }

  class AutonomousResearchController {
    const db: Connection
    const execute: ExecutePlannedExperiment

    constructor (db: Connection)
      ensures this.db == db && execute.db == db
    {
      this.db := db;
      execute := new ExecutePlannedExperiment(db);
    }

    // -------------------------------------------------------- transactions

    method Load() returns (current: Orchestration)
      requires db.Ok() && db.r !in db.desk.sessions && db.r in db.desk.world.store.orchestrations && db.c !in db.desk.world.calls
      modifies db`desk, db`trace
      ensures db.Ok() && db.trace == old(db.trace) + [Begin(db.r)] && Invokes(db.trace, db.c) == Invokes(old(db.trace), db.c)
      ensures current == old(db.desk.world.store.orchestrations[db.r]) && Holds(db.desk, db.c, db.r, current)
      ensures db.desk == old(db.desk).(sessions := old(db.desk).sessions[db.r := current])
    {
      current := db.desk.world.store.orchestrations[db.r];
      db.Commit(db.desk.(sessions := db.desk.sessions[db.r := current]), Begin(db.r));
    }

    method Leave()
      requires db.Ok() && db.r in db.desk.sessions
      modifies db`desk, db`trace
      ensures db.Ok() && db.trace == old(db.trace) + [OrchestrationProtocol.Leave(db.r)]
      ensures Invokes(db.trace, db.c) == Invokes(old(db.trace), db.c)
      ensures db.desk == old(db.desk).(sessions := old(db.desk).sessions - {db.r})
    {
      db.Commit(db.desk.(sessions := db.desk.sessions - {db.r}), OrchestrationProtocol.Leave(db.r));
    }

    /** An exception ends the step: nothing more is written. */
    method Raise(current: Orchestration) returns (result: TickResult)
      requires db.Ok() && Holds(db.desk, db.c, db.r, current)
      modifies db`desk, db`trace
      ensures db.Ok() && old(db.trace) <= db.trace && Invokes(db.trace, db.c) == Invokes(old(db.trace), db.c)
      ensures db.c !in db.desk.world.calls && Done(current, db.desk, db.r, result) && result == TickRaised
    {
      Leave();
      result := TickRaised;
    }

    method Checkpoint(current: Orchestration, phase: Phase, refs: Refs) returns (updated: Orchestration)
      requires db.Ok() && Holds(db.desk, db.c, db.r, current)
      modifies db`desk, db`trace
      ensures db.Ok() && db.trace == old(db.trace) + [OrchestrationProtocol.Checkpoint(db.r, phase, refs)]
      ensures Invokes(db.trace, db.c) == Invokes(old(db.trace), db.c)
      ensures updated == Checkpointed(current, phase, refs) && Holds(db.desk, db.c, db.r, updated)
      ensures db.desk == Saving(old(db.desk), db.r, updated)
    {
      updated := current.(
        state := RunningRun, phase := phase, lastPhase := PhaseName(phase),
        opportunityId := Or(refs.opportunity, current.opportunityId),
        hypothesisId := Or(refs.hypothesis, current.hypothesisId),
        experimentId := Or(refs.experiment, current.experimentId),
        attemptId := Or(refs.attempt, current.attemptId),
        activeCycleId := Or(refs.activeCycle, current.activeCycleId));
      var uow := db.desk.world.store;
      uow := uow.(orchestrations := uow.orchestrations[db.r := updated]);
      db.Commit(Desk(db.desk.world.(store := uow), db.desk.sessions[db.r := updated]),
                OrchestrationProtocol.Checkpoint(db.r, phase, refs));
    }

    method MarkRunning(current: Orchestration)
      requires db.Ok() && Holds(db.desk, db.c, db.r, current)
      modifies db`desk, db`trace
      ensures db.Ok() && db.trace == old(db.trace) + [OrchestrationProtocol.MarkRunning(db.r)]
      ensures Invokes(db.trace, db.c) == Invokes(old(db.trace), db.c)
      ensures Holds(db.desk, db.c, db.r, current)
      ensures db.desk.world.store.orchestrations[db.r] == current.(state := RunningRun, lastPhase := "running")
    {
      var uow := db.desk.world.store;
      uow := uow.(orchestrations := uow.orchestrations[db.r := current.(state := RunningRun, lastPhase := "running")]);
      db.Commit(db.desk.(world := db.desk.world.(store := uow)), OrchestrationProtocol.MarkRunning(db.r));
    }

    method Reload(current: Orchestration) returns (updated: Orchestration)
      requires db.Ok() && Holds(db.desk, db.c, db.r, current)
      modifies db`desk, db`trace
      ensures db.Ok() && db.trace == old(db.trace) + [OrchestrationProtocol.Reload(db.r)]
      ensures Invokes(db.trace, db.c) == Invokes(old(db.trace), db.c)
      ensures updated == old(db.desk.world.store.orchestrations[db.r]) && Holds(db.desk, db.c, db.r, updated)
    {
      updated := db.desk.world.store.orchestrations[db.r];
      db.Commit(db.desk.(sessions := db.desk.sessions[db.r := updated]), OrchestrationProtocol.Reload(db.r));
    }

    /** The one writer that ends a cycle: the row and, when the cycle counts, its cycle row. */
    method CompleteCycle(current: Orchestration, ending: Ending) returns (result: TickResult)
      requires db.Ok() && Holds(db.desk, db.c, db.r, current)
      modifies db`desk, db`trace
      ensures db.Ok() && db.trace == old(db.trace) + [Finish(db.r, ending)]
      ensures Invokes(db.trace, db.c) == Invokes(old(db.trace), db.c)
      ensures db.r !in db.desk.sessions && db.c !in db.desk.world.calls
      ensures Some(db.desk.world.store) == FinishTx(old(db.desk.world.store), db.r, current, ending)
      ensures result == ResultOf(Ended(current, ending), OutcomeOf(ending))
      ensures db.r in db.desk.world.store.orchestrations && db.desk.world.store.orchestrations[db.r] == Ended(current, ending)
    {
      db.Invariant();
      FinishNeverConflicts(db.fingerprint, db.desk, db.r, ending);
      var outcome := if ending.stop.Some? then OutcomeForStop(ending.stop.value) else Continue;
      var inserting := ending.increment || outcome != Continue;
      var row := Pointed(current, ending.refs);
      row := row.(
        state := if ending.stop.Some? then StateForStop(ending.stop.value) else ReadyRun,
        cycleNumber := current.cycleNumber + if inserting then 1 else 0,
        lastPhase := ending.lastPhase,
        phase := if ending.phase.Some? then ending.phase.value else if inserting then CycleComplete else current.phase,
        stopReason := if ending.stop.Some? then ending.stop else current.stopReason);
      var uow := db.desk.world.store;
      uow := uow.(orchestrations := uow.orchestrations[db.r := row]);
      if inserting {
        var rows := RowsOf(uow, db.r);
        uow := uow.(cycles := uow.cycles[db.r := rows + [Cycle(row.cycleNumber, ending.lastPhase, outcome, ending.stop)]]);
      }
      db.Commit(Desk(db.desk.world.(store := uow), db.desk.sessions - {db.r}), Finish(db.r, ending));
      result := ResultOf(row, outcome);
    }

    method Admit(current: Orchestration, hypothesisId: string, opportunity: Option<string>, cycleId: string)
      returns (updated: Orchestration)
      requires db.Ok() && Holds(db.desk, db.c, db.r, current) && hypothesisId !in db.desk.world.store.hypotheses
      modifies db`desk, db`trace
      ensures db.Ok() && db.trace == old(db.trace) + [OrchestrationProtocol.Admit(db.r, hypothesisId, opportunity, cycleId)]
      ensures Invokes(db.trace, db.c) == Invokes(old(db.trace), db.c)
      ensures updated == Admitted(current, hypothesisId, opportunity, cycleId) && Holds(db.desk, db.c, db.r, updated)
      ensures db.desk.world.store.hypotheses == old(db.desk.world.store.hypotheses)[hypothesisId := db.r]
    {
      var uow := db.desk.world.store;
      uow := uow.(hypotheses := uow.hypotheses[hypothesisId := db.r]);
      updated := current.(
        state := RunningRun, phase := HypothesisAdmitted, lastPhase := PhaseName(HypothesisAdmitted),
        opportunityId := Or(opportunity, current.opportunityId), hypothesisId := Some(hypothesisId),
        activeCycleId := Some(cycleId));
      uow := uow.(orchestrations := uow.orchestrations[db.r := updated]);
      db.Commit(Desk(db.desk.world.(store := uow), db.desk.sessions[db.r := updated]),
                OrchestrationProtocol.Admit(db.r, hypothesisId, opportunity, cycleId));
    }

    method Prepare(current: Orchestration, e: string, plan: Plan, hypothesis: Option<string>) returns (updated: Orchestration)
      requires db.Ok() && Holds(db.desk, db.c, db.r, current) && CanPrepare(db.desk.world.store, db.r, plan)
      modifies db`desk, db`trace
      ensures db.Ok() && db.trace == old(db.trace) + [OrchestrationProtocol.Prepare(db.r, e, plan, hypothesis)]
      ensures Invokes(db.trace, db.c) == Invokes(old(db.trace), db.c)
      ensures updated == WithPlan(current, e, hypothesis) && Holds(db.desk, db.c, db.r, updated)
    {
      var uow := db.desk.world.store;
      if e !in uow.experiments {
        uow := uow.(experiments := uow.experiments[e := Experiment(db.r, plan.hypothesisId, plan.budgetId, Planned)],
                    plans := uow.plans[e := plan]);
      }
      updated := current.(
        phase := ExperimentPlanned, lastPhase := PhaseName(ExperimentPlanned), experimentId := Some(e),
        hypothesisId := Or(hypothesis, current.hypothesisId));
      uow := uow.(orchestrations := uow.orchestrations[db.r := updated]);
      db.Commit(Desk(db.desk.world.(store := uow), db.desk.sessions[db.r := updated]),
                OrchestrationProtocol.Prepare(db.r, e, plan, hypothesis));
    }

    // --------------------------------------------------------------- paths

    /** Others run between two of our transactions. */
    method Pass(current: Orchestration)
      requires db.Ok() && Holds(db.desk, db.c, db.r, current)
      modifies db
      ensures db.Ok() && old(db.trace) <= db.trace && Invokes(db.trace, db.c) == Invokes(old(db.trace), db.c)
      ensures Holds(db.desk, db.c, db.r, current)
      ensures ExecutionSafety.Follows(old(db.desk.world.store), db.desk.world.store)
      ensures forall a :: ExecutionTheorems.Abandoned(old(db.desk.world), a) ==> ExecutionTheorems.Abandoned(db.desk.world, a)
    {
      db.Others();
    }

    /** A checkpoint after others had their turn. */
    method SaveCheckpoint(current: Orchestration, phase: Phase, refs: Refs) returns (updated: Orchestration)
      requires db.Ok() && Holds(db.desk, db.c, db.r, current)
      modifies db
      ensures db.Ok() && old(db.trace) <= db.trace && Invokes(db.trace, db.c) == Invokes(old(db.trace), db.c)
      ensures updated == Checkpointed(current, phase, refs) && Holds(db.desk, db.c, db.r, updated)
    {
      Pass(current);
      updated := Checkpoint(current, phase, refs);
    }

    method End(current: Orchestration, ending: Ending) returns (result: TickResult)
      requires db.Ok() && Holds(db.desk, db.c, db.r, current) && ending.refs.activeCycle.None?
      requires ending.stop.Some? || ending.increment || current.cycleNumber < current.config.bounds.maxCycles
      modifies db
      ensures db.Ok() && old(db.trace) <= db.trace && Invokes(db.trace, db.c) == Invokes(old(db.trace), db.c)
      ensures db.c !in db.desk.world.calls && Done(current, db.desk, db.r, result)
      ensures result == ResultOf(Ended(current, ending), OutcomeOf(ending))
      ensures db.desk.world.store.orchestrations[db.r] == Ended(current, ending)
    {
      Pass(current);
      result := CompleteCycle(current, ending);
      CountingEnding(current, ending);
    }

    method Stop(current: Orchestration, reason: StopReason, lastPhase: string, refs: Refs, increment: bool, phase: Option<Phase>)
      returns (result: TickResult)
      requires db.Ok() && Holds(db.desk, db.c, db.r, current) && refs.activeCycle.None?
      modifies db
      ensures db.Ok() && old(db.trace) <= db.trace && Invokes(db.trace, db.c) == Invokes(old(db.trace), db.c)
      ensures db.c !in db.desk.world.calls && Done(current, db.desk, db.r, result)
      ensures Stopped(current, reason, result) && result.row.lastPhase == lastPhase
      ensures result.row.phase == if phase.Some? then phase.value else CycleComplete
    {
      EveryStopEndsTheRun(reason);
      result := End(current, StopEnding(reason, lastPhase, refs, increment, phase));
    }

    method Usage(current: Orchestration, elapsedMs: nat) returns (usage: LoopUsage)
      requires db.Ok()
      ensures usage.cycles == current.cycleNumber && usage.elapsedMs == elapsedMs
      ensures usage.modelCalls == Used(db.desk.world.store.ledger, current.config.budgetId, ModelCall)
      ensures usage.workerInvocations == Used(db.desk.world.store.ledger, current.config.budgetId, WorkerInvocation)
      ensures usage.experiments == |set e | e in db.desk.world.store.experiments && db.desk.world.store.experiments[e].runId == db.r|
    {
      db.Invariant();
      var s := db.desk.world.store;
      UsedNonNegative(s.ledger, current.config.budgetId, ModelCall);
      UsedNonNegative(s.ledger, current.config.budgetId, WorkerInvocation);
      var modelCalls, _, invocations, _, _ := LedgerTotals(s.ledger, current.config.budgetId);
      var experiments := set e | e in s.experiments && s.experiments[e].runId == db.r;
      usage := LoopUsage(current.cycleNumber, |experiments|, modelCalls, invocations, elapsedMs, 0);
    }

    /** The end of a cycle that ran its experiment: stop at the last cycle, otherwise go on. */
    method EndCycle(current: Orchestration, lastPhase: string, refs: Refs) returns (result: TickResult)
      requires db.Ok() && Holds(db.desk, db.c, db.r, current) && refs.activeCycle.None?
      modifies db
      ensures db.Ok() && old(db.trace) <= db.trace && Invokes(db.trace, db.c) == Invokes(old(db.trace), db.c)
      ensures db.c !in db.desk.world.calls && Done(current, db.desk, db.r, result)
      ensures CycleEnded(current, lastPhase, result)
    {
      if current.cycleNumber + 1 >= current.config.bounds.maxCycles {
        result := Stop(current, MaxCyclesReached, lastPhase, refs, true, Some(CycleComplete));
      } else {
        result := End(current, Ending(None, lastPhase, refs, true, Some(CycleComplete)));
      }
    }

    /** Runs one execute for the current experiment; its hook may move our row to ATTEMPT_AUTHORIZED. */
    method RunExecute(current: Orchestration, cmd: Execution.Command, out: Outside)
      returns (loop: LoopResult, updated: Orchestration)
      requires db.Ok() && Holds(db.desk, db.c, db.r, current) && execute.db == db
      modifies db
      ensures db.Ok() && old(db.trace) <= db.trace
      ensures Invokes(old(db.trace), db.c) <= Invokes(db.trace, db.c) <= Invokes(old(db.trace), db.c) + 1
      ensures Holds(db.desk, db.c, db.r, updated) && Steady(current, updated)
      ensures Invokes(db.trace, db.c) > Invokes(old(db.trace), db.c) ==> loop == Replied(OutcomeAnswer(out))
      ensures Execution.AttemptsOf(old(db.desk.world.store), cmd.experimentId) != {} ==>
                Invokes(db.trace, db.c) == Invokes(old(db.trace), db.c)
    {
      Pass(current);
      AttemptsPersist(old(db.desk.world.store), db.desk.world.store, cmd.experimentId);
      loop := execute.Execute(cmd, out, true);
      updated := db.desk.sessions[db.r];
    }

    /** After the loop of a fresh cycle: stop, or note the result, evaluate it and end the cycle. */
    method AfterLoop(current: Orchestration, status: Execution.LoopStatus, refs: Refs, evaluates: bool) returns (result: TickResult)
      requires db.Ok() && Holds(db.desk, db.c, db.r, current) && refs.activeCycle.None?
      modifies db
      ensures db.Ok() && old(db.trace) <= db.trace && Invokes(db.trace, db.c) == Invokes(old(db.trace), db.c)
      ensures db.c !in db.desk.world.calls && Done(current, db.desk, db.r, result)
      ensures LoopSettled(current, status, evaluates, result)
    {
      var own := refs.(opportunity := None);
      if status.DispatchDenied? {
        result := Stop(current, CoreBlocked, "core_deny", own, false, None);
      } else if status.HumanReviewRequired? {
        result := Stop(current, RequireHumanReview, "human_review", own, false, None);
      } else if status.OutcomeUnknown? {
        result := Stop(current, OperationalFailure, "unknown_outcome", own, false, Some(DispatchingPhase));
      } else if status.ObservationProduced? || status.NoObservation? || status.InvocationFailed? {
        result := AfterResult(current, refs, evaluates);
      } else {
        result := EndCycle(current, "execute", refs);
      }
    }

    method AfterResult(current: Orchestration, refs: Refs, evaluates: bool) returns (result: TickResult)
      requires db.Ok() && Holds(db.desk, db.c, db.r, current) && refs.activeCycle.None?
      modifies db
      ensures db.Ok() && old(db.trace) <= db.trace && Invokes(db.trace, db.c) == Invokes(old(db.trace), db.c)
      ensures db.c !in db.desk.world.calls && Done(current, db.desk, db.r, result)
      ensures if evaluates then CycleEnded(current, "execute", result) else result == TickRaised
    {
      var row := NoteResult(current, refs.(opportunity := None));
      if !evaluates {
        result := Raise(row);
        return;
      }
      row := SaveCheckpoint(row, AssessmentComplete, refs.(opportunity := None));
      result := EndCycle(row, "execute", refs);
    }

    method NoteResult(current: Orchestration, refs: Refs) returns (updated: Orchestration)
      requires db.Ok() && Holds(db.desk, db.c, db.r, current) && refs.activeCycle.None?
      modifies db
      ensures db.Ok() && old(db.trace) <= db.trace && Invokes(db.trace, db.c) == Invokes(old(db.trace), db.c)
      ensures Holds(db.desk, db.c, db.r, updated) && SameCore(current, updated)
    {
      updated := SaveCheckpoint(current, WorkerResultRecorded, refs);
      updated := SaveCheckpoint(updated, TransitionAComplete, refs);
    }

    /** Resume from a planned experiment: execute its stored plan again, fail-closed. */
    method ResumePlanned(current: Orchestration, tick: Tick) returns (result: TickResult)
      requires db.Ok() && Holds(db.desk, db.c, db.r, current) && execute.db == db
      modifies db
      ensures db.Ok() && old(db.trace) <= db.trace
      ensures Invokes(old(db.trace), db.c) <= Invokes(db.trace, db.c) <= Invokes(old(db.trace), db.c) + 1
      ensures db.c !in db.desk.world.calls && Done(current, db.desk, db.r, result)
      ensures current.experimentId.None? ==> Stopped(current, OperationalFailure, result)
      ensures current.experimentId.Some? && Execution.AttemptsOf(old(db.desk.world.store), current.experimentId.value) != {} ==>
                Invokes(db.trace, db.c) == Invokes(old(db.trace), db.c)
      ensures current.experimentId.Some? && Invokes(db.trace, db.c) > Invokes(old(db.trace), db.c) ==>
                ResumedLoopSettled(current, OutcomeAnswer(tick.out).status, current.experimentId.value, tick.evaluates, result)
    {
      if current.experimentId.None? {
        result := Stop(current, OperationalFailure, "missing_experiment", NO_REFS, false, None);
        return;
      }
      var e := current.experimentId.value;
      Pass(current);
      AttemptsPersist(old(db.desk.world.store), db.desk.world.store, e);
      var s := db.desk.world.store;
      if e !in s.plans {
        result := Stop(current, OperationalFailure, "missing_plan", NO_REFS, false, None);
        return;
      }
      result := ExecuteAgain(current, Execution.Command(e, s.plans[e]), tick);
    }

    method ExecuteAgain(current: Orchestration, cmd: Execution.Command, tick: Tick) returns (result: TickResult)
      requires db.Ok() && Holds(db.desk, db.c, db.r, current) && execute.db == db
      modifies db
      ensures db.Ok() && old(db.trace) <= db.trace
      ensures Invokes(old(db.trace), db.c) <= Invokes(db.trace, db.c) <= Invokes(old(db.trace), db.c) + 1
      ensures db.c !in db.desk.world.calls && Done(current, db.desk, db.r, result)
      ensures Execution.AttemptsOf(old(db.desk.world.store), cmd.experimentId) != {} ==>
                Invokes(db.trace, db.c) == Invokes(old(db.trace), db.c)
      ensures Invokes(db.trace, db.c) > Invokes(old(db.trace), db.c) ==>
                ResumedLoopSettled(current, OutcomeAnswer(tick.out).status, cmd.experimentId, tick.evaluates, result)
    {
      var loop, row := RunExecute(current, cmd, tick.out);
      if loop.LoopRaised? {
        result := Raise(row);
      } else {
        result := AfterResumedLoop(row, loop.answer.status, cmd.experimentId, tick.evaluates);
      }
    }

    method AfterResumedLoop(current: Orchestration, status: Execution.LoopStatus, e: string, evaluates: bool) returns (result: TickResult)
      requires db.Ok() && Holds(db.desk, db.c, db.r, current)
      modifies db
      ensures db.Ok() && old(db.trace) <= db.trace && Invokes(db.trace, db.c) == Invokes(old(db.trace), db.c)
      ensures db.c !in db.desk.world.calls && Done(current, db.desk, db.r, result)
      ensures ResumedLoopSettled(current, status, e, evaluates, result)
    {
      var refs := NO_REFS.(experiment := Some(e));
      if status.OutcomeUnknown? {
        result := Stop(current, OperationalFailure, "unknown_outcome", refs, false, Some(DispatchingPhase));
      } else if status.DispatchDenied? {
        result := Stop(current, CoreBlocked, "core_deny", refs, false, None);
      } else if status.HumanReviewRequired? {
        result := Stop(current, RequireHumanReview, "human_review", refs, false, None);
      } else if !status.ReauthorizationRequired? && e != "" && !evaluates {
        result := Raise(current);
      } else {
        result := EndCycle(current, "resume_planned", refs);
      }
    }

    /** Resume from an admitted hypothesis: reuse its experiment, or plan a diagnostic one. */
    method ResumeAdmitted(current: Orchestration, tick: Tick) returns (result: TickResult)
      requires db.Ok() && Holds(db.desk, db.c, db.r, current) && execute.db == db
      modifies db
      ensures db.Ok() && old(db.trace) <= db.trace
      ensures Invokes(old(db.trace), db.c) <= Invokes(db.trace, db.c) <= Invokes(old(db.trace), db.c) + 1
      ensures db.c !in db.desk.world.calls && Done(current, db.desk, db.r, result)
    {
      if current.hypothesisId.None? {
        result := Stop(current, OperationalFailure, "missing_hypothesis", NO_REFS, false, None);
        return;
      }
      var planned, row := PlanAgain(current, current.hypothesisId.value, tick);
      if planned {
        result := ResumePlanned(row, tick);
      } else {
        result := Raise(row);
      }
    }

    method PlanAgain(current: Orchestration, hypothesisId: string, tick: Tick) returns (planned: bool, row: Orchestration)
      requires db.Ok() && Holds(db.desk, db.c, db.r, current)
      modifies db
      ensures db.Ok() && old(db.trace) <= db.trace && Invokes(db.trace, db.c) == Invokes(old(db.trace), db.c)
      ensures Holds(db.desk, db.c, db.r, row) && SameCore(current, row)
      ensures planned ==> row.phase == ExperimentPlanned
      ensures current.experimentId.Some? && current.experimentId.value != "" ==> planned && row.experimentId == current.experimentId
    {
      Pass(current);
      var s := db.desk.world.store;
      var known := set e | e in s.experiments && s.experiments[e].runId == db.r && s.experiments[e].hypothesisId == hypothesisId;
      var experiment := if current.experimentId.Some? && current.experimentId.value != "" then current.experimentId else None;
      if experiment.None? && known != {} {
        var e :| e in known;
        experiment := Some(e);
      }
      planned, row := true, current;
      if experiment.Some? {
        if current.phase != ExperimentPlanned {
          row := SaveCheckpoint(current, ExperimentPlanned, NO_REFS.(experiment := experiment, hypothesis := Some(hypothesisId)));
        }
      } else {
        Pass(current);
        planned := CanPrepare(db.desk.world.store, db.r, tick.diagnosticPlan);
        if planned {
          row := Prepare(current, tick.newExperimentId, tick.diagnosticPlan, None);
        }
      }
    }

    method ResumeAfterWorker(current: Orchestration, tick: Tick) returns (result: TickResult)
      requires db.Ok() && Holds(db.desk, db.c, db.r, current)
      modifies db
      ensures db.Ok() && old(db.trace) <= db.trace && Invokes(db.trace, db.c) == Invokes(old(db.trace), db.c)
      ensures db.c !in db.desk.world.calls && Done(current, db.desk, db.r, result)
      ensures if current.experimentId.Some? && (current.phase.WorkerResultRecorded? || current.phase.TransitionAComplete?) && !tick.evaluates
              then result == TickRaised else CycleEnded(current, "resume_after_worker", result)
    {
      var row := current;
      if current.experimentId.Some? && (current.phase.WorkerResultRecorded? || current.phase.TransitionAComplete?) {
        if !tick.evaluates {
          result := Raise(row);
          return;
        }
        row := SaveCheckpoint(row, AssessmentComplete, NO_REFS.(experiment := row.experimentId));
      }
      result := EndCycle(row, "resume_after_worker", NO_REFS.(experiment := row.experimentId));
    }

    /** Any unresolved attempt of the run stops it; an AUTHORIZED one is dispatched; otherwise nothing is done. */
    method ResumeAuthorized(current: Orchestration, tick: Tick) returns (done: bool, result: TickResult)
      requires db.Ok() && Holds(db.desk, db.c, db.r, current) && execute.db == db
      modifies db
      ensures db.Ok() && old(db.trace) <= db.trace
      ensures Invokes(old(db.trace), db.c) <= Invokes(db.trace, db.c) <= Invokes(old(db.trace), db.c) + 1
      ensures var s := old(db.desk.world.store);
              done <==> UnknownOpen(s, db.r) || AuthorizedOpen(s, db.r)
      ensures UnknownOpen(old(db.desk.world.store), db.r) ==>
                Stopped(current, OperationalFailure, result) && Invokes(db.trace, db.c) == Invokes(old(db.trace), db.c)
      ensures if done then db.c !in db.desk.world.calls && Done(current, db.desk, db.r, result)
              else db.desk == old(db.desk) && db.trace == old(db.trace)
    {
      result := TickRaised;
      var s := db.desk.world.store;
      if UnknownOpen(s, db.r) {
        result := Stop(current, OperationalFailure, "unknown_dispatch", NO_REFS, false, None);
        return true, result;
      }
      if !AuthorizedOpen(s, db.r) {
        return false, result;
      }
      var a :| a in AttemptsOfRun(s, db.r) && s.attempts[a].state == Authorized;
      var attempt := s.attempts[a];
      if attempt.experimentId !in s.experiments || attempt.experimentId !in s.plans || attempt.budgetId !in s.env.budgets {
        result := Stop(current, OperationalFailure, "resume_missing", NO_REFS, false, None);
        return true, result;
      }
      if !tick.resumeBinds {
        result := Stop(current, CoreBlocked, "capability_binding", NO_REFS, false, None);
        return true, result;
      }
      result := DispatchAgain(current, a, tick.out);
      return true, result;
    }

    method DispatchAgain(current: Orchestration, a: string, out: Outside) returns (result: TickResult)
      requires db.Ok() && Holds(db.desk, db.c, db.r, current) && execute.db == db
      requires a in db.desk.world.store.attempts && db.desk.world.store.attempts[a].state == Authorized
      requires db.desk.world.store.attempts[a].experimentId in db.desk.world.store.experiments
      modifies db
      ensures db.Ok() && old(db.trace) <= db.trace
      ensures Invokes(old(db.trace), db.c) <= Invokes(db.trace, db.c) <= Invokes(old(db.trace), db.c) + 1
      ensures db.c !in db.desk.world.calls && Done(current, db.desk, db.r, result)
      ensures Invokes(db.trace, db.c) > Invokes(old(db.trace), db.c) ==>
                if OutcomeAnswer(out).status.OutcomeUnknown? then Stopped(current, OperationalFailure, result)
                else result.Ticked? && result.row.state == ReadyRun && result.row.cycleNumber == current.cycleNumber + 1
    {
      var attempt := db.desk.world.store.attempts[a];
      var x := db.desk.world.store.experiments[attempt.experimentId];
      var refs := NO_REFS.(hypothesis := Some(x.hypothesisId), experiment := Some(attempt.experimentId));
      execute.Rebuild(a);
      var loop, row := DispatchHeld(current, Execution.Handle(attempt.experimentId, a), out);
      result := AfterDispatch(row, loop, refs);
    }

    method AfterDispatch(current: Orchestration, loop: LoopResult, refs: Refs) returns (result: TickResult)
      requires db.Ok() && Holds(db.desk, db.c, db.r, current) && refs.activeCycle.None?
      modifies db
      ensures db.Ok() && old(db.trace) <= db.trace && Invokes(db.trace, db.c) == Invokes(old(db.trace), db.c)
      ensures db.c !in db.desk.world.calls && Done(current, db.desk, db.r, result)
      ensures if loop.LoopRaised? then result == TickRaised
              else if loop.answer.status.OutcomeUnknown? then Stopped(current, OperationalFailure, result)
              else result.Ticked? && result.row.state == ReadyRun && result.row.cycleNumber == current.cycleNumber + 1
    {
      if loop.LoopRaised? {
        result := Raise(current);
      } else if loop.answer.status.OutcomeUnknown? {
        result := Stop(current, OperationalFailure, "unknown_outcome", refs.(hypothesis := None), false, None);
      } else {
        result := End(current, Ending(None, "resume_authorized", refs, true, None));
      }
    }

    method DispatchHeld(current: Orchestration, h: Execution.Handle, out: Outside)
      returns (loop: LoopResult, row: Orchestration)
      requires db.Ok() && execute.db == db
      requires db.c in db.desk.world.calls && db.desk.world.calls[db.c] == Execution.Holding(h)
      requires db.r in db.desk.sessions && db.desk.sessions[db.r] == current
      requires db.r in db.desk.world.store.orchestrations && SameCore(db.desk.world.store.orchestrations[db.r], current)
      modifies db
      ensures db.Ok() && old(db.trace) <= db.trace && Holds(db.desk, db.c, db.r, row) && SameCore(current, row)
      ensures Invokes(old(db.trace), db.c) <= Invokes(db.trace, db.c) <= Invokes(old(db.trace), db.c) + 1
      ensures Invokes(db.trace, db.c) > Invokes(old(db.trace), db.c) ==> loop == Replied(OutcomeAnswer(out))
    {
      ghost var start := db.desk;
      KeptItself(start, db.r);
      execute.Yield(start);
      ghost var before := db.desk;
      loop := execute.Dispatch(h, out);
      KeptTransitive(start, before, db.desk, db.r);
      row := db.desk.sessions[db.r];
    }

    // --------------------------------------------------------- fresh cycles

    /** A cycle with nothing to resume: bounds, routing, selection, then a proposal. */
    method FreshCycle(current: Orchestration, cmd: StartCommand, tick: Tick) returns (result: TickResult)
      requires db.Ok() && Holds(db.desk, db.c, db.r, current) && execute.db == db
      modifies db
      ensures db.Ok() && old(db.trace) <= db.trace
      ensures Invokes(old(db.trace), db.c) <= Invokes(db.trace, db.c) <= Invokes(old(db.trace), db.c) + 1
      ensures db.c !in db.desk.world.calls && Done(current, db.desk, db.r, result)
      ensures var b := current.config.bounds;
              (current.cycleNumber >= b.maxCycles || tick.elapsedAtBounds >= b.maxElapsedMs
               || 0 in {b.maxExperiments, b.maxModelCalls, b.maxWorkerInvocations}) ==>
                Invokes(db.trace, db.c) == Invokes(old(db.trace), db.c) && result.Ticked? && !Runnable(result.row.state)
      ensures current.cycleNumber >= current.config.bounds.maxCycles ==> Stopped(current, MaxCyclesReached, result)
    {
      Pass(current);
      var usage := Usage(current, tick.elapsedAtBounds);
      var bound := CheckBounds(current.config.bounds, usage);
      if bound.Some? {
        EveryStopEndsTheRun(bound.value);
        result := Stop(current, bound.value, "bounds", NO_REFS, false, None);
      } else {
        result := RunCycle(current, cmd, tick);
      }
    }

    method RunCycle(current: Orchestration, cmd: StartCommand, tick: Tick) returns (result: TickResult)
      requires db.Ok() && Holds(db.desk, db.c, db.r, current) && execute.db == db
      requires current.cycleNumber < current.config.bounds.maxCycles
      modifies db
      ensures db.Ok() && old(db.trace) <= db.trace
      ensures Invokes(old(db.trace), db.c) <= Invokes(db.trace, db.c) <= Invokes(old(db.trace), db.c) + 1
      ensures db.c !in db.desk.world.calls && Done(current, db.desk, db.r, result)
    {
      var row := EnterRunning(current);
      if current.phase.OpportunitySelected? {
        result := Propose(row, row.opportunityId, Or(row.activeCycleId, Some(tick.newCycleId)).value, tick);
      } else {
        result := SelectAndPropose(row, cmd, tick);
      }
    }

    method EnterRunning(current: Orchestration) returns (row: Orchestration)
      requires db.Ok() && Holds(db.desk, db.c, db.r, current)
      modifies db
      ensures db.Ok() && old(db.trace) <= db.trace && Invokes(db.trace, db.c) == Invokes(old(db.trace), db.c)
      ensures Holds(db.desk, db.c, db.r, row) && SameCore(current, row)
    {
      Pass(current);
      MarkRunning(current);
      Pass(current);
      row := Reload(current);
    }

    method SelectAndPropose(current: Orchestration, cmd: StartCommand, tick: Tick) returns (result: TickResult)
      requires db.Ok() && Holds(db.desk, db.c, db.r, current) && execute.db == db
      requires current.cycleNumber < current.config.bounds.maxCycles
      modifies db
      ensures db.Ok() && old(db.trace) <= db.trace
      ensures Invokes(old(db.trace), db.c) <= Invokes(db.trace, db.c) <= Invokes(old(db.trace), db.c) + 1
      ensures db.c !in db.desk.world.calls && Done(current, db.desk, db.r, result)
      ensures cmd.routes && tick.routing != RouteSelected ==>
                && Invokes(db.trace, db.c) == Invokes(old(db.trace), db.c)
                && Stopped(current, if tick.routing.RoutePolicyBlocked? then ContentPolicyBlocked else NoCompatibleRuntime, result)
    {
      if cmd.routes && tick.routing != RouteSelected {
        var reason := if tick.routing.RoutePolicyBlocked? then ContentPolicyBlocked else NoCompatibleRuntime;
        result := Stop(current, reason, "routing", NO_REFS, false, None);
      } else {
        result := ProposeSelected(current, tick);
      }
    }

    method ProposeSelected(current: Orchestration, tick: Tick) returns (result: TickResult)
      requires db.Ok() && Holds(db.desk, db.c, db.r, current) && execute.db == db
      requires current.cycleNumber < current.config.bounds.maxCycles
      modifies db
      ensures db.Ok() && old(db.trace) <= db.trace
      ensures Invokes(old(db.trace), db.c) <= Invokes(db.trace, db.c) <= Invokes(old(db.trace), db.c) + 1
      ensures db.c !in db.desk.world.calls && Done(current, db.desk, db.r, result)
    {
      var action, opportunity := Choose(current, tick);
      if action.Stop? {
        result := Stop(current, action.reason, "no_more_opportunities", NO_REFS, false, None);
        return;
      }
      var row, cycleId := NoteSelected(current, opportunity, tick.newCycleId);
      result := Propose(row, opportunity, cycleId, tick);
    }

    /** The cycle id is the row's own where it has one. */
    method NoteSelected(current: Orchestration, opportunity: Option<string>, newCycleId: string)
      returns (row: Orchestration, cycleId: string)
      requires db.Ok() && Holds(db.desk, db.c, db.r, current)
      modifies db
      ensures db.Ok() && old(db.trace) <= db.trace && Invokes(db.trace, db.c) == Invokes(old(db.trace), db.c)
      ensures Holds(db.desk, db.c, db.r, row) && Steady(current, row)
      ensures Some(cycleId) == Or(current.activeCycleId, Some(newCycleId)) && (HasCycle(row) ==> row.activeCycleId == Some(cycleId))
    {
      cycleId := Or(current.activeCycleId, Some(newCycleId)).value;
      row := SaveCheckpoint(current, OpportunitySelected, NO_REFS.(opportunity := opportunity, activeCycle := Some(cycleId)));
    }

    method Choose(current: Orchestration, tick: Tick) returns (action: Action, opportunity: Option<string>)
      requires db.Ok() && Holds(db.desk, db.c, db.r, current)
      modifies db
      ensures db.Ok() && old(db.trace) <= db.trace && Invokes(db.trace, db.c) == Invokes(old(db.trace), db.c)
      ensures Holds(db.desk, db.c, db.r, current)
    {
      var bounds := current.config.bounds;
      var selected := if |tick.selected| > bounds.maxSelectedOpportunities
                      then tick.selected[..bounds.maxSelectedOpportunities] else tick.selected;
      opportunity := if selected == [] then None else Some(selected[0]);
      Pass(current);
      var usage := Usage(current, tick.elapsedAtAction);
      var hypotheses := set h | h in db.desk.world.store.hypotheses && db.desk.world.store.hypotheses[h] == db.r;
      action := NextAction(bounds, usage, |selected|, |hypotheses|, false);
    }

    /** The proposal, on the run's cycle id; an admitted plan is prepared and executed. */
    method Propose(current: Orchestration, opportunity: Option<string>, cycleId: string, tick: Tick) returns (result: TickResult)
      requires db.Ok() && Holds(db.desk, db.c, db.r, current) && execute.db == db
      requires current.cycleNumber < current.config.bounds.maxCycles
      requires HasCycle(current) ==> current.activeCycleId == Some(cycleId)
      modifies db
      ensures db.Ok() && old(db.trace) <= db.trace
      ensures Invokes(old(db.trace), db.c) <= Invokes(db.trace, db.c) <= Invokes(old(db.trace), db.c) + 1
      ensures db.c !in db.desk.world.calls && Done(current, db.desk, db.r, result)
      ensures !tick.proposal.PlanAdmitted? ==> Invokes(db.trace, db.c) == Invokes(old(db.trace), db.c)
      ensures match tick.proposal
              case ModelBudgetRejected => Stopped(current, BudgetStop, result)
              case ModelFailed(outcome) => Stopped(current, StopForRuntime(outcome), result)
              case NotAdmitted => result.Ticked? && result.row.state == ReadyRun && result.row.cycleNumber == current.cycleNumber
              case ProposalRaised => result == TickRaised
              case PlanAdmitted(_, _, level) =>
                && (level > current.config.bounds.sideEffectCeiling ==>
                      Invokes(db.trace, db.c) == Invokes(old(db.trace), db.c)
                      && (result.Ticked? ==> Stopped(current, CoreBlocked, result)))
                && (Invokes(db.trace, db.c) > Invokes(old(db.trace), db.c) ==>
                      LoopSettled(current, OutcomeAnswer(tick.out).status, tick.evaluates, result))
    {
      match tick.proposal {
        case ModelBudgetRejected => result := Stop(current, BudgetStop, "model_budget", NO_REFS, false, None);
        case ModelFailed(outcome) =>
          result := Stop(current, StopForRuntime(outcome), "model_runtime_outcome", NO_REFS, false, None);
        case NotAdmitted =>
          result := End(current, Ending(None, "hypothesis_not_admitted", NO_REFS.(opportunity := opportunity), false, Some(CycleComplete)));
        case ProposalRaised => result := Raise(current);
        case PlanAdmitted(h, plan, level) => result := AdmitAndExecute(current, h, plan, level, opportunity, cycleId, tick);
      }
    }

    method AdmitAndExecute(
      current: Orchestration, h: string, plan: Plan, level: nat, opportunity: Option<string>, cycleId: string, tick: Tick)
      returns (result: TickResult)
      requires db.Ok() && Holds(db.desk, db.c, db.r, current) && execute.db == db
      requires HasCycle(current) ==> current.activeCycleId == Some(cycleId)
      modifies db
      ensures db.Ok() && old(db.trace) <= db.trace
      ensures Invokes(old(db.trace), db.c) <= Invokes(db.trace, db.c) <= Invokes(old(db.trace), db.c) + 1
      ensures db.c !in db.desk.world.calls && Done(current, db.desk, db.r, result)
      ensures level > current.config.bounds.sideEffectCeiling ==>
                && Invokes(db.trace, db.c) == Invokes(old(db.trace), db.c)
                && (result.Ticked? ==> Stopped(current, CoreBlocked, result))
      ensures Invokes(db.trace, db.c) > Invokes(old(db.trace), db.c) ==>
                LoopSettled(current, OutcomeAnswer(tick.out).status, tick.evaluates, result)
    {
      var admitted, row := TryAdmit(current, h, opportunity, cycleId);
      if !admitted {
        result := Raise(row);
      } else if level > row.config.bounds.sideEffectCeiling {
        result := Stop(row, CoreBlocked, "side_effect_ceiling", NO_REFS, false, None);
      } else {
        result := PrepareAndExecute(row, h, plan, opportunity, tick);
      }
    }

    /** The hypothesis insert after others had their turn; a taken id raises. */
    method TryAdmit(current: Orchestration, h: string, opportunity: Option<string>, cycleId: string)
      returns (admitted: bool, row: Orchestration)
      requires db.Ok() && Holds(db.desk, db.c, db.r, current)
      requires HasCycle(current) ==> current.activeCycleId == Some(cycleId)
      modifies db
      ensures db.Ok() && old(db.trace) <= db.trace && Invokes(db.trace, db.c) == Invokes(old(db.trace), db.c)
      ensures Holds(db.desk, db.c, db.r, row) && Steady(current, row)
    {
      Pass(current);
      admitted, row := h !in db.desk.world.store.hypotheses, current;
      if admitted {
        row := Admit(current, h, opportunity, cycleId);
      }
    }

    method PrepareAndExecute(current: Orchestration, h: string, plan: Plan, opportunity: Option<string>, tick: Tick)
      returns (result: TickResult)
      requires db.Ok() && Holds(db.desk, db.c, db.r, current) && execute.db == db
      modifies db
      ensures db.Ok() && old(db.trace) <= db.trace
      ensures Invokes(old(db.trace), db.c) <= Invokes(db.trace, db.c) <= Invokes(old(db.trace), db.c) + 1
      ensures db.c !in db.desk.world.calls && Done(current, db.desk, db.r, result)
      ensures Invokes(db.trace, db.c) > Invokes(old(db.trace), db.c) ==>
                LoopSettled(current, OutcomeAnswer(tick.out).status, tick.evaluates, result)
    {
      var e := tick.newExperimentId;
      var planned, row := PlanNew(current, e, h, plan);
      if !planned {
        result := Raise(row);
        return;
      }
      var loop: LoopResult;
      loop, row := RunExecute(row, Execution.Command(e, plan), tick.out);
      if loop.LoopRaised? {
        result := Raise(row);
        return;
      }
      result := AfterLoop(row, loop.answer.status, Refs(opportunity, Some(h), Some(e), None, None), tick.evaluates);
    }

    method PlanNew(current: Orchestration, e: string, h: string, plan: Plan) returns (planned: bool, row: Orchestration)
      requires db.Ok() && Holds(db.desk, db.c, db.r, current)
      modifies db
      ensures db.Ok() && old(db.trace) <= db.trace && Invokes(db.trace, db.c) == Invokes(old(db.trace), db.c)
      ensures Holds(db.desk, db.c, db.r, row) && SameCore(current, row)
    {
      Pass(current);
      planned, row := CanPrepare(db.desk.world.store, db.r, plan), current;
      if planned {
        row := Prepare(current, e, plan, Some(h));
        row := SaveCheckpoint(row, AuthorizationRequested, NO_REFS.(experiment := Some(e), hypothesis := Some(h)));
      }
    }

    // ------------------------------------------------------------- commands

    /** The fail-closed look at the run: a step in DISPATCHING, or any unresolved attempt, stops it. */
    method StopIfUnknown(current: Orchestration) returns (stopped: bool, result: TickResult)
      requires db.Ok() && Holds(db.desk, db.c, db.r, current)
      modifies db
      ensures db.Ok() && old(db.trace) <= db.trace && Invokes(db.trace, db.c) == Invokes(old(db.trace), db.c)
      ensures stopped <==> current.phase.DispatchingPhase? || UnknownOpen(old(db.desk.world.store), db.r)
      ensures if stopped then db.c !in db.desk.world.calls && Done(current, db.desk, db.r, result) && Stopped(current, OperationalFailure, result)
              else db.desk == old(db.desk) && db.trace == old(db.trace)
    {
      stopped := current.phase.DispatchingPhase? || UnknownOpen(db.desk.world.store, db.r);
      result := TickRaised;
      if stopped {
        result := Stop(current, OperationalFailure, "unknown_outcome", NO_REFS, false, None);
      }
    }

    /** From a runnable row: fail closed, resume what was begun, or run a fresh cycle. */
    method StepOpen(current: Orchestration, cmd: StartCommand, tick: Tick) returns (result: TickResult)
      requires db.Ok() && Holds(db.desk, db.c, db.r, current) && execute.db == db
      modifies db
      ensures db.Ok() && old(db.trace) <= db.trace
      ensures Invokes(old(db.trace), db.c) <= Invokes(db.trace, db.c) <= Invokes(old(db.trace), db.c) + 1
      ensures db.c !in db.desk.world.calls && Done(current, db.desk, db.r, result)
      ensures current.phase.DispatchingPhase? || CrashedAttempt(old(db.desk.world), db.r) ==>
                && Invokes(db.trace, db.c) == Invokes(old(db.trace), db.c)
                && result.Ticked? && result.row.state == FailedOperational && result.row.stopReason == Some(OperationalFailure)
                && result.row.cycleNumber == current.cycleNumber + 1
    {
      Pass(current);
      CrashIsSeen(old(db.desk.world), db.desk.world, db.r);
      var stopped;
      stopped, result := StopIfUnknown(current);
      if !stopped {
        result := ResumeOrRun(current, cmd, tick);
      }
    }

    method ResumeOrRun(current: Orchestration, cmd: StartCommand, tick: Tick) returns (result: TickResult)
      requires db.Ok() && Holds(db.desk, db.c, db.r, current) && execute.db == db
      modifies db
      ensures db.Ok() && old(db.trace) <= db.trace
      ensures Invokes(old(db.trace), db.c) <= Invokes(db.trace, db.c) <= Invokes(old(db.trace), db.c) + 1
      ensures db.c !in db.desk.world.calls && Done(current, db.desk, db.r, result)
    {
      Pass(current);
      var done;
      done, result := ResumeAuthorized(current, tick);
      if !done {
        result := ResumePhase(current, cmd, tick);
      }
    }

    method ResumePhase(current: Orchestration, cmd: StartCommand, tick: Tick) returns (result: TickResult)
      requires db.Ok() && Holds(db.desk, db.c, db.r, current) && execute.db == db
      modifies db
      ensures db.Ok() && old(db.trace) <= db.trace
      ensures Invokes(old(db.trace), db.c) <= Invokes(db.trace, db.c) <= Invokes(old(db.trace), db.c) + 1
      ensures db.c !in db.desk.world.calls && Done(current, db.desk, db.r, result)
      ensures AfterWorker(current) ==> Invokes(db.trace, db.c) == Invokes(old(db.trace), db.c)
      ensures (current.phase.CycleReady? || current.phase.CycleComplete?) && current.cycleNumber >= current.config.bounds.maxCycles ==>
                Stopped(current, MaxCyclesReached, result)
      ensures AwaitsExecution(current) && Execution.AttemptsOf(old(db.desk.world.store), current.experimentId.value) != {} ==>
                Invokes(db.trace, db.c) == Invokes(old(db.trace), db.c)
    {
      if current.phase.HypothesisAdmitted? && current.hypothesisId.Some? && current.hypothesisId.value != "" {
        result := ResumeAdmitted(current, tick);
      } else if current.phase.OpportunitySelected? {
        result := ResumeSelected(current, cmd, tick);
      } else if AwaitsExecution(current) {
        result := ResumePlanned(current, tick);
      } else if AfterWorker(current) {
        result := ResumeAfterWorker(current, tick);
      } else {
        result := FreshCycle(current, cmd, tick);
      }
    }

    /** Resume from a selected opportunity: its hypothesis if the run has one, otherwise the rest of the cycle. */
    method ResumeSelected(current: Orchestration, cmd: StartCommand, tick: Tick) returns (result: TickResult)
      requires db.Ok() && Holds(db.desk, db.c, db.r, current) && execute.db == db
      modifies db
      ensures db.Ok() && old(db.trace) <= db.trace
      ensures Invokes(old(db.trace), db.c) <= Invokes(db.trace, db.c) <= Invokes(old(db.trace), db.c) + 1
      ensures db.c !in db.desk.world.calls && Done(current, db.desk, db.r, result)
    {
      var hypothesis := FindHypothesis(current);
      if hypothesis.Some? && hypothesis.value != "" {
        var row := SaveCheckpoint(current, HypothesisAdmitted, NO_REFS.(hypothesis := hypothesis));
        result := ResumeAdmitted(row, tick);
      } else {
        result := FreshCycle(current, cmd, tick);
      }
    }

    /** The row's hypothesis, or any hypothesis of the run: the query has no order. */
    method FindHypothesis(current: Orchestration) returns (hypothesis: Option<string>)
      requires db.Ok() && Holds(db.desk, db.c, db.r, current)
      modifies db
      ensures db.Ok() && old(db.trace) <= db.trace && Invokes(db.trace, db.c) == Invokes(old(db.trace), db.c)
      ensures Holds(db.desk, db.c, db.r, current)
      ensures var own := current.hypothesisId.Some? && current.hypothesisId.value != "";
              && (own ==> hypothesis == current.hypothesisId)
              && (!own && hypothesis.Some? ==> hypothesis.value in db.desk.world.store.hypotheses
                                                && db.desk.world.store.hypotheses[hypothesis.value] == db.r)
              && (!own && hypothesis.None? ==> forall h :: h in db.desk.world.store.hypotheses ==> db.desk.world.store.hypotheses[h] != db.r)
    {
      Pass(current);
      var s := db.desk.world.store;
      var known := set h | h in s.hypotheses && s.hypotheses[h] == db.r;
      hypothesis := if current.hypothesisId.Some? && current.hypothesisId.value != "" then current.hypothesisId else None;
      if hypothesis.None? && known != {} {
        var h :| h in known;
        hypothesis := Some(h);
      }
      assert forall h :: h in s.hypotheses && s.hypotheses[h] == db.r ==> h in known;
    }

    /** One tick. From a state that is not runnable it writes nothing at all; otherwise it makes at most one
        Worker call and one cycle row, and none of the former while an attempt of a dead process is open. */
    method Step(cmd: StartCommand, tick: Tick) returns (result: TickResult)
      requires db.Ok() && execute.db == db && cmd.runId == db.r
      requires db.r !in db.desk.sessions && db.c !in db.desk.world.calls
      modifies db
      ensures db.Ok() && old(db.trace) <= db.trace && db.r !in db.desk.sessions && db.c !in db.desk.world.calls
      ensures Invokes(old(db.trace), db.c) <= Invokes(db.trace, db.c) <= Invokes(old(db.trace), db.c) + 1
      ensures CrashedAttempt(old(db.desk.world), db.r) ==> Invokes(db.trace, db.c) == Invokes(old(db.trace), db.c)
      ensures db.r !in old(db.desk.world.store.orchestrations) ==> result == TickRaised && db.desk == old(db.desk)
      ensures db.r in old(db.desk.world.store.orchestrations) ==>
                var row := old(db.desk.world.store).orchestrations[db.r];
                var passes := FirstMismatch(row.config, ClaimOf(cmd)).None?;
                && (!passes ==> result == TickRaised && db.desk == old(db.desk))
                && (passes && !Runnable(row.state) ==> result == ResultOf(row, Continue) && db.desk == old(db.desk))
                && (passes && Runnable(row.state) ==> Done(row, db.desk, db.r, result))
                && (passes && Runnable(row.state) && (row.phase.DispatchingPhase? || CrashedAttempt(old(db.desk.world), db.r)) ==>
                      && Invokes(db.trace, db.c) == Invokes(old(db.trace), db.c)
                      && result.Ticked? && result.row.state == FailedOperational
                      && result.row.stopReason == Some(OperationalFailure)
                      && result.row.cycleNumber == row.cycleNumber + 1)
    {
      if db.r !in db.desk.world.store.orchestrations {
        return TickRaised;
      }
      var current := Load();
      assert db.desk.sessions - {db.r} == old(db.desk.sessions);
      result := StepLoaded(current, cmd, tick);
    }

    method StepLoaded(current: Orchestration, cmd: StartCommand, tick: Tick) returns (result: TickResult)
      requires db.Ok() && Holds(db.desk, db.c, db.r, current) && execute.db == db && cmd.runId == db.r
      requires db.desk.world.store.orchestrations[db.r] == current
      modifies db
      ensures db.Ok() && old(db.trace) <= db.trace && db.r !in db.desk.sessions && db.c !in db.desk.world.calls
      ensures Invokes(old(db.trace), db.c) <= Invokes(db.trace, db.c) <= Invokes(old(db.trace), db.c) + 1
      ensures CrashedAttempt(old(db.desk.world), db.r) ==> Invokes(db.trace, db.c) == Invokes(old(db.trace), db.c)
      ensures var closed := old(db.desk).(sessions := old(db.desk).sessions - {db.r});
              var passes := FirstMismatch(current.config, ClaimOf(cmd)).None?;
              && (!passes ==> result == TickRaised && db.desk == closed)
              && (passes && !Runnable(current.state) ==> result == ResultOf(current, Continue) && db.desk == closed)
              && (passes && Runnable(current.state) ==> Done(current, db.desk, db.r, result))
              && (passes && Runnable(current.state) && (current.phase.DispatchingPhase? || CrashedAttempt(old(db.desk.world), db.r)) ==>
                    && Invokes(db.trace, db.c) == Invokes(old(db.trace), db.c)
                    && result.Ticked? && result.row.state == FailedOperational
                    && result.row.stopReason == Some(OperationalFailure)
                    && result.row.cycleNumber == current.cycleNumber + 1)
    {
      if ConfigurationFromRecord(db.fingerprint, current).None? || FirstMismatch(current.config, ClaimOf(cmd)).Some? {
        db.Invariant();
        assert RunOk(db.fingerprint, db.desk.world.store, db.r);
        Leave();
        return TickRaised;
      }
      if !Runnable(current.state) {
        Leave();
        return ResultOf(current, Continue);
      }
      result := StepOpen(current, cmd, tick);
    }

    /** Others run while no step of ours is open. */
    method Wait()
      requires db.Ok() && db.r !in db.desk.sessions && db.c !in db.desk.world.calls
      modifies db
      ensures db.Ok() && old(db.trace) <= db.trace && Invokes(db.trace, db.c) == Invokes(old(db.trace), db.c)
      ensures db.r !in db.desk.sessions && db.c !in db.desk.world.calls
      ensures db.r in old(db.desk.world.store.orchestrations) <==> db.r in db.desk.world.store.orchestrations
      ensures db.r in db.desk.world.store.orchestrations ==>
                SameCore(old(db.desk.world.store).orchestrations[db.r], db.desk.world.store.orchestrations[db.r])
    {
      db.Others();
    }

    /** One round of the loop. Its Worker call needs that no crashed attempt was open when the trace stood at since. */
    method WaitAndStep(cmd: StartCommand, tick: Tick, ghost since: seq<Act>) returns (result: TickResult)
      requires db.Ok() && execute.db == db && cmd.runId == db.r && db.r in db.desk.world.store.orchestrations
      requires db.r !in db.desk.sessions && db.c !in db.desk.world.calls && since <= db.trace
      modifies db
      ensures db.Ok() && old(db.trace) <= db.trace && db.r !in db.desk.sessions && db.c !in db.desk.world.calls
      ensures Invokes(old(db.trace), db.c) <= Invokes(db.trace, db.c) <= Invokes(old(db.trace), db.c) + 1
      ensures CrashedAttempt(Run(db.fingerprint, db.origin, since).world, db.r) ==> Invokes(db.trace, db.c) == Invokes(old(db.trace), db.c)
      ensures db.r in db.desk.world.store.orchestrations
      ensures var (row, after) := (old(db.desk.world.store).orchestrations[db.r], db.desk.world.store.orchestrations[db.r]);
              && after.config == row.config && after.cycleNumber <= row.cycleNumber + 1
              && (HasCycle(row) ==> after.activeCycleId == row.activeCycleId)
    {
      Wait();
      CrashPersists(db.fingerprint, db.origin, since, db.trace, db.r);
      result := Step(cmd, tick);
    }

    /** Creates the run's row, or answers with the one there is. */
    method Start(cmd: StartCommand) returns (result: TickResult)
      requires db.Ok() && cmd.runId == db.r && db.r !in db.desk.sessions && db.c !in db.desk.world.calls
      modifies db`desk, db`trace
      ensures db.Ok() && db.trace == old(db.trace) + [OrchestrationProtocol.Start(ConfigFor(cmd))]
      ensures Invokes(db.trace, db.c) == Invokes(old(db.trace), db.c)
      ensures db.desk.sessions == old(db.desk.sessions) && db.desk.world.calls == old(db.desk.world.calls)
      ensures var s := old(db.desk.world.store);
              if db.r in s.runs && db.r !in s.orchestrations then
                && db.desk.world.store == Save(s, db.r, StartRow(db.fingerprint, ConfigFor(cmd)))
                && result == ResultOf(StartRow(db.fingerprint, ConfigFor(cmd)), if cmd.bounds.maxCycles == 0 then Complete else Continue)
              else
                && db.desk.world.store == s
                && result == if db.r in s.runs then ResultOf(s.orchestrations[db.r], Continue) else TickRaised
    {
      var uow := db.desk.world.store;
      var zero := cmd.bounds.maxCycles == 0;
      if cmd.runId !in uow.runs {
        result := TickRaised;
      } else if cmd.runId in uow.orchestrations {
        result := ResultOf(uow.orchestrations[cmd.runId], Continue);
      } else {
        var config := Config(cmd.runId, cmd.budgetId, cmd.target, cmd.question, POLICY_VERSION,
                             if cmd.routes then Some(ROUTING_POLICY_VERSION) else None, Some(cmd.scope), cmd.bounds);
        var row := Orchestration(
          config, db.fingerprint(config), if zero then CompletedRun else ReadyRun, 0, CycleReady, "start",
          None, None, None, None, None, if zero then Some(MaxCyclesReached) else None, None);
        uow := uow.(orchestrations := uow.orchestrations[cmd.runId := row]);
        result := ResultOf(row, if zero then Complete else Continue);
      }
      db.Commit(db.desk.(world := db.desk.world.(store := uow)), OrchestrationProtocol.Start(ConfigFor(cmd)));
    }

    /** The bounded loop: never more steps, cycles or Worker calls than the command's max_cycles. */
    method RunBounded(cmd: StartCommand, answers: nat -> Tick) returns (result: TickResult)
      requires db.Ok() && execute.db == db && cmd.runId == db.r
      requires db.r !in db.desk.sessions && db.c !in db.desk.world.calls
      modifies db
      ensures db.Ok() && old(db.trace) <= db.trace
      ensures Invokes(db.trace, db.c) <= Invokes(old(db.trace), db.c) + cmd.bounds.maxCycles
      ensures db.r !in old(db.desk.world.store.orchestrations) && db.r in db.desk.world.store.orchestrations ==>
                && db.desk.world.store.orchestrations[db.r].cycleNumber <= cmd.bounds.maxCycles
                && |RowsOf(db.desk.world.store, db.r)| <= cmd.bounds.maxCycles
                && db.desk.world.store.orchestrations[db.r].config == ConfigFor(cmd)
      ensures db.r in old(db.desk.world.store.orchestrations) ==>
                && db.r in db.desk.world.store.orchestrations
                && db.desk.world.store.orchestrations[db.r].config == old(db.desk.world.store).orchestrations[db.r].config
                && db.desk.world.store.orchestrations[db.r].cycleNumber
                   <= old(db.desk.world.store).orchestrations[db.r].cycleNumber + cmd.bounds.maxCycles
                && (HasCycle(old(db.desk.world.store).orchestrations[db.r]) ==>
                      db.desk.world.store.orchestrations[db.r].activeCycleId == old(db.desk.world.store).orchestrations[db.r].activeCycleId)
      ensures CrashedAttempt(old(db.desk.world), db.r) ==> Invokes(db.trace, db.c) == Invokes(old(db.trace), db.c)
    {
      result := Start(cmd);
      if result.Ticked? && result.row.state == ReadyRun {
        result := Ticks(cmd, answers, result);
      }
      db.Invariant();
      RowsAgree(db.fingerprint, db.desk, db.r);
    }

    /** The loop itself, from a row that is there. While an attempt of a dead process is open none of its steps calls a
        Worker, whatever operators and others do in between, and all its cycles run under the cycle id it found. */
    method Ticks(cmd: StartCommand, answers: nat -> Tick, started: TickResult) returns (last: TickResult)
      requires db.Ok() && execute.db == db && cmd.runId == db.r && db.r in db.desk.world.store.orchestrations
      requires db.r !in db.desk.sessions && db.c !in db.desk.world.calls
      modifies db
      ensures db.Ok() && old(db.trace) <= db.trace && db.r in db.desk.world.store.orchestrations
      ensures Invokes(db.trace, db.c) <= Invokes(old(db.trace), db.c) + cmd.bounds.maxCycles
      ensures var row := old(db.desk.world.store).orchestrations[db.r];
              && db.desk.world.store.orchestrations[db.r].config == row.config
              && db.desk.world.store.orchestrations[db.r].cycleNumber <= row.cycleNumber + cmd.bounds.maxCycles
              && (HasCycle(row) ==> db.desk.world.store.orchestrations[db.r].activeCycleId == row.activeCycleId)
      ensures CrashedAttempt(old(db.desk.world), db.r) ==> Invokes(db.trace, db.c) == Invokes(old(db.trace), db.c)
    {
      last := started;
      ghost var row := db.desk.world.store.orchestrations[db.r];
      for i := 0 to cmd.bounds.maxCycles
        invariant db.Ok() && old(db.trace) <= db.trace && db.r !in db.desk.sessions && db.c !in db.desk.world.calls
        invariant Invokes(db.trace, db.c) <= Invokes(old(db.trace), db.c) + i
        invariant db.r in db.desk.world.store.orchestrations && db.desk.world.store.orchestrations[db.r].config == row.config
        invariant db.desk.world.store.orchestrations[db.r].cycleNumber <= row.cycleNumber + i
        invariant HasCycle(row) ==> db.desk.world.store.orchestrations[db.r].activeCycleId == row.activeCycleId
        invariant CrashedAttempt(old(db.desk.world), db.r) ==> Invokes(db.trace, db.c) == Invokes(old(db.trace), db.c)
      {
        last := WaitAndStep(cmd, answers(i), old(db.trace));
        if last.TickRaised? || !Runnable(last.row.state) {
          return;
        }
      }
    }

    // ------------------------------------------------------------ operators

    /** Pause and cancel share one writer. It asks nothing about the state it replaces. */
    method OperatorState(q: string, state: OrchestrationState, reason: StopReason, outcome: CycleOutcome, ghost act: Act)
      returns (result: TickResult)
      requires db.Ok() && Next(db.fingerprint, db.desk, act) == Operator(db.desk, q, state, reason)
      requires act != Exec(Execution.Invoke(db.c))
      modifies db`desk, db`trace
      ensures db.Ok() && db.trace == old(db.trace) + [act] && Invokes(db.trace, db.c) == Invokes(old(db.trace), db.c)
      ensures var s := old(db.desk.world.store);
              if q !in s.orchestrations then result == TickRaised && db.desk == old(db.desk)
              else
                && db.desk == WithStore(old(db.desk), Save(s, q, OperatorRow(s.orchestrations[q], state, reason)))
                && result == ResultOf(OperatorRow(s.orchestrations[q], state, reason), outcome)
    {
      var uow := db.desk.world.store;
      if q !in uow.orchestrations {
        result := TickRaised;
      } else {
        var current := uow.orchestrations[q];
        var updated := current.(
          state := state, stopReason := Some(reason),
          pauseReason := if state.Paused? then Some(reason) else current.pauseReason, lastPhase := "operator");
        uow := uow.(orchestrations := uow.orchestrations[q := updated]);
        result := ResultOf(updated, outcome);
      }
      db.Commit(db.desk.(world := db.desk.world.(store := uow)), act);
    }

    method Pause(q: string) returns (result: TickResult)
      requires db.Ok()
      modifies db`desk, db`trace
      ensures db.Ok() && db.trace == old(db.trace) + [OrchestrationProtocol.Pause(q)]
      ensures db.desk == Operator(old(db.desk), q, Paused, OperatorPaused)
      ensures if q in old(db.desk.world.store.orchestrations) then result.Ticked? && result.row.state == Paused else result == TickRaised
    {
      result := OperatorState(q, Paused, OperatorPaused, CycleOutcome.Pause, OrchestrationProtocol.Pause(q));
    }

    method Cancel(q: string) returns (result: TickResult)
      requires db.Ok()
      modifies db`desk, db`trace
      ensures db.Ok() && db.trace == old(db.trace) + [OrchestrationProtocol.Cancel(q)]
      ensures db.desk == Operator(old(db.desk), q, CompletedRun, OperatorCancelled)
      ensures if q in old(db.desk.world.store.orchestrations) then result.Ticked? && result.row.state == CompletedRun else result == TickRaised
    {
      result := OperatorState(q, CompletedRun, OperatorCancelled, Complete, OrchestrationProtocol.Cancel(q));
    }

    /** Only a paused run is made ready again; any other row is left as it is. */
    method Resume(q: string) returns (result: TickResult)
      requires db.Ok()
      modifies db`desk, db`trace
      ensures db.Ok() && db.trace == old(db.trace) + [OrchestrationProtocol.Resume(q)]
      ensures var s := old(db.desk.world.store);
              if q !in s.orchestrations then result == TickRaised && db.desk == old(db.desk)
              else if s.orchestrations[q].state != Paused then result == ResultOf(s.orchestrations[q], Continue) && db.desk == old(db.desk)
              else
                && result.Ticked? && result.row.state == ReadyRun && result.row.stopReason == None
                && SameCore(result.row, s.orchestrations[q]) && db.desk == WithStore(old(db.desk), Save(s, q, result.row))
    {
      var uow := db.desk.world.store;
      if q !in uow.orchestrations {
        result := TickRaised;
      } else if uow.orchestrations[q].state != Paused {
        result := ResultOf(uow.orchestrations[q], Continue);
      } else {
        var updated := uow.orchestrations[q].(state := ReadyRun, pauseReason := None, stopReason := None, lastPhase := "resume");
        uow := uow.(orchestrations := uow.orchestrations[q := updated]);
        result := ResultOf(updated, Continue);
      }
      db.Commit(db.desk.(world := db.desk.world.(store := uow)), OrchestrationProtocol.Resume(q));
    }
  }
}
