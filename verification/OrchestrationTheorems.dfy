/** The loop's promises over every run of controllers, operators, executors and crashes. */
module OrchestrationTheorems {
  import opened Common
  import opened BudgetLedger
  import opened Records
  import opened OrchestrationPolicy
  import opened OrchestrationProtocol
  import opened OrchestrationSafety
  import opened OperatorTheorems
  import ExecutionSafety
  import ExecutionTheorems
  import ModelPort
  import ModelPorts = ModelPortTheorems

  /** Nothing attempted, no run started, nobody at work. */
  ghost predicate InitialDesk(d: Desk) {
    ExecutionSafety.Initial(d.world) && d.sessions == map[] && d.world.store.orchestrations == map[] && d.world.store.cycles == map[]
  }

  lemma InitialDeskIsSound(fingerprint: Config -> string, d: Desk)
    requires InitialDesk(d)
    ensures Sound(fingerprint, d)
  {
    ExecutionTheorems.InitialIsValid(d.world);
  }

  lemma {:induction false} ReachableIsSound(fingerprint: Config -> string, d: Desk, acts: seq<Act>)
    requires InitialDesk(d)
    ensures Sound(fingerprint, Run(fingerprint, d, acts))
  {
    InitialDeskIsSound(fingerprint, d);
    RunKeepsSound(fingerprint, d, acts);
  }

  /** In every reachable state the cycle rows of every run carry exactly the numbers 1..cycle_number, each
      once; a row continues exactly when it names no stop; a run without a record has no rows. */
  lemma {:induction false} HistoryAgreesWithCounter(fingerprint: Config -> string, d: Desk, acts: seq<Act>, r: string)
    requires InitialDesk(d)
    ensures var s := Run(fingerprint, d, acts).world.store;
            var n := if r in s.orchestrations then s.orchestrations[r].cycleNumber else 0;
            && |RowsOf(s, r)| == n
            && (forall i :: 0 <= i < n ==> RowsOf(s, r)[i].number == i + 1)
            && (forall i :: 0 <= i < n ==> (RowsOf(s, r)[i].outcome.Continue? <==> RowsOf(s, r)[i].stopReason.None?))
  {
    ReachableIsSound(fingerprint, d, acts);
    assert RunOk(fingerprint, Run(fingerprint, d, acts).world.store, r);
  }

  /** A started run keeps its configuration over every continuation, its record always recomputes to its
      stored fingerprint, and its history is only ever extended. */
  lemma {:induction false} ConfigurationNeverDrifts(fingerprint: Config -> string, d: Desk, acts: seq<Act>, more: seq<Act>, r: string)
    requires InitialDesk(d) && r in Run(fingerprint, d, acts).world.store.orchestrations
    ensures var before := Run(fingerprint, d, acts);
            var (s, t) := (before.world.store, Run(fingerprint, before, more).world.store);
            && r in t.orchestrations
            && ConfigurationFromRecord(fingerprint, t.orchestrations[r]) == Some(s.orchestrations[r].config)
            && t.orchestrations[r].config == s.orchestrations[r].config
            && s.orchestrations[r].cycleNumber <= t.orchestrations[r].cycleNumber
            && RowsOf(s, r) <= RowsOf(t, r)
  {
    ReachableIsSound(fingerprint, d, acts);
    var before := Run(fingerprint, d, acts);
    RunKeepsSound(fingerprint, before, more);
    assert RunFollows(before.world.store, Run(fingerprint, before, more).world.store, r);
    assert RunOk(fingerprint, Run(fingerprint, before, more).world.store, r);
  }

  /** Hence a command that passes the check of a run started by another command carries the bounds of that start. */
  lemma {:induction false} PassingCommandHasOriginalBounds(
    fingerprint: Config -> string, d: Desk, acts: seq<Act>, more: seq<Act>, started: StartCommand, cmd: StartCommand)
    requires InitialDesk(d) && started.runId == cmd.runId
    requires started.runId !in Run(fingerprint, d, acts).world.store.orchestrations
    requires started.runId in Run(fingerprint, d, acts).world.store.runs
    ensures var begun := Next(fingerprint, Run(fingerprint, d, acts), Start(ConfigFor(started)));
            var t := Run(fingerprint, begun, more).world.store;
            && started.runId in t.orchestrations && t.orchestrations[started.runId].config == ConfigFor(started)
            && (FirstMismatch(t.orchestrations[started.runId].config, ClaimOf(cmd)).None? ==>
                  cmd.bounds == started.bounds && cmd.budgetId == started.budgetId && cmd.target == started.target
                  && cmd.question == started.question && cmd.scope == started.scope)
  {
    var before := Run(fingerprint, d, acts);
    ReachableIsSound(fingerprint, d, acts);
    ActKeepsSound(fingerprint, before, Start(ConfigFor(started)));
    var begun := Next(fingerprint, before, Start(ConfigFor(started)));
    RunKeepsSound(fingerprint, begun, more);
    assert RunFollows(begun.world.store, Run(fingerprint, begun, more).world.store, started.runId);
    CommandPassesIff(started, cmd);
  }

  /** The execution promises hold in this larger system too: one Worker call per experiment, whoever made it. */
  lemma {:induction false} OneWorkerCallPerExperiment(fingerprint: Config -> string, d: Desk, acts: seq<Act>, i: nat, j: nat)
    requires InitialDesk(d)
    requires var log := Run(fingerprint, d, acts).world.workerCalls;
             i < |log| && j < |log| && log[i].experimentId == log[j].experimentId
    ensures i == j
  {
    ReachableIsSound(fingerprint, d, acts);
    ExecutionTheorems.CallsAreOnDistinctExperiments(Run(fingerprint, d, acts).world, i, j);
  }

  // ------------------------------------------------- what operators get wrong

  /** Pausing and resuming makes any run ready again, also a finished one, with its count as it was. */
  lemma PauseAndResumeRevive(fingerprint: Config -> string, d: Desk, r: string)
    requires r in d.world.store.orchestrations
    ensures var before := d.world.store.orchestrations[r];
            var after := Next(fingerprint, Next(fingerprint, d, Act.Pause(r)), Resume(r)).world.store.orchestrations[r];
            Runnable(after.state) && after.stopReason == None && after.cycleNumber == before.cycleNumber && after.config == before.config
  {
  }

  lemma RunAppend(fingerprint: Config -> string, d: Desk, acts: seq<Act>, act: Act)
    ensures Run(fingerprint, d, acts + [act]) == Next(fingerprint, Run(fingerprint, d, acts), act)
  {
    assert (acts + [act])[..|acts|] == acts;
  }

  /** Pause, resume, and the stop of the next step: one more cycle row for any run nobody works on, finished or not. */
  lemma RevivingAddsCycle(fingerprint: Config -> string, d: Desk, acts: seq<Act>, r: string, stop: Ending)
    requires var before := Run(fingerprint, d, acts);
             DeskOk(fingerprint, before) && r in before.world.store.orchestrations && r !in before.sessions && Inserts(stop)
    ensures var (before, after) := (Run(fingerprint, d, acts),
                                    Run(fingerprint, d, acts + [Act.Pause(r)] + [Resume(r)] + [Begin(r)] + [Finish(r, stop)]));
            && r in after.world.store.orchestrations && r !in after.sessions
            && after.world.store.orchestrations[r].config == before.world.store.orchestrations[r].config
            && after.world.store.orchestrations[r].cycleNumber == before.world.store.orchestrations[r].cycleNumber + 1
            && |RowsOf(after.world.store, r)| == |RowsOf(before.world.store, r)| + 1
  {
    RunAppend(fingerprint, d, acts, Act.Pause(r));
    RunAppend(fingerprint, d, acts + [Act.Pause(r)], Resume(r));
    RunAppend(fingerprint, d, acts + [Act.Pause(r)] + [Resume(r)], Begin(r));
    RunAppend(fingerprint, d, acts + [Act.Pause(r)] + [Resume(r)] + [Begin(r)], Finish(r, stop));
    RevivedFinish(fingerprint, Run(fingerprint, d, acts), r, stop);
  }

  lemma ActKeepsDesk(fingerprint: Config -> string, d: Desk, act: Act)
    requires DeskOk(fingerprint, d)
    ensures DeskOk(fingerprint, Next(fingerprint, d, act))
  {
    ActTouches(fingerprint, d, act);
    TouchKeepsDesk(fingerprint, d, Next(fingerprint, d, act), RunOf(act));
  }

  lemma ResumedIsSound(fingerprint: Config -> string, d: Desk, r: string)
    requires DeskOk(fingerprint, d)
    ensures DeskOk(fingerprint, Next(fingerprint, Next(fingerprint, d, Act.Pause(r)), Resume(r)))
  {
    ActKeepsDesk(fingerprint, d, Act.Pause(r));
    ActKeepsDesk(fingerprint, Next(fingerprint, d, Act.Pause(r)), Resume(r));
  }

  lemma ResumedRow(fingerprint: Config -> string, d: Desk, r: string)
    requires r in d.world.store.orchestrations && r !in d.sessions
    ensures var ready := Next(fingerprint, Next(fingerprint, d, Act.Pause(r)), Resume(r));
            && r in ready.world.store.orchestrations && r !in ready.sessions
            && Agrees(ready.world.store.orchestrations[r], d.world.store.orchestrations[r])
            && RowsOf(ready.world.store, r) == RowsOf(d.world.store, r)
  {
  }

  lemma RevivedSession(fingerprint: Config -> string, d: Desk, r: string)
    requires DeskOk(fingerprint, d) && r in d.world.store.orchestrations && r !in d.sessions
    ensures var begun := Next(fingerprint, Next(fingerprint, Next(fingerprint, d, Act.Pause(r)), Resume(r)), Begin(r));
            && DeskOk(fingerprint, begun) && r in begun.sessions && Agrees(begun.sessions[r], d.world.store.orchestrations[r])
            && RowsOf(begun.world.store, r) == RowsOf(d.world.store, r)
  {
    ResumedIsSound(fingerprint, d, r);
    ResumedRow(fingerprint, d, r);
    ActKeepsDesk(fingerprint, Next(fingerprint, Next(fingerprint, d, Act.Pause(r)), Resume(r)), Begin(r));
  }

  lemma RevivedFinish(fingerprint: Config -> string, d: Desk, r: string, stop: Ending)
    requires DeskOk(fingerprint, d) && r in d.world.store.orchestrations && r !in d.sessions && Inserts(stop)
    ensures var begun := Next(fingerprint, Next(fingerprint, Next(fingerprint, d, Act.Pause(r)), Resume(r)), Begin(r));
            var after := Next(fingerprint, begun, Finish(r, stop));
            && r in after.world.store.orchestrations && r !in after.sessions
            && after.world.store.orchestrations[r].config == d.world.store.orchestrations[r].config
            && after.world.store.orchestrations[r].cycleNumber == d.world.store.orchestrations[r].cycleNumber + 1
            && |RowsOf(after.world.store, r)| == |RowsOf(d.world.store, r)| + 1
  {
    RevivedSession(fingerprint, d, r);
    var begun := Next(fingerprint, Next(fingerprint, Next(fingerprint, d, Act.Pause(r)), Resume(r)), Begin(r));
    FinishAddsCycle(fingerprint, begun, r, stop);
  }

  lemma FinishAddsCycle(fingerprint: Config -> string, d: Desk, r: string, stop: Ending)
    requires DeskOk(fingerprint, d) && r in d.sessions && Inserts(stop)
    ensures var after := Next(fingerprint, d, Finish(r, stop));
            && r in after.world.store.orchestrations && r !in after.sessions
            && after.world.store.orchestrations[r].config == d.sessions[r].config
            && after.world.store.orchestrations[r].cycleNumber == d.sessions[r].cycleNumber + 1
            && |RowsOf(after.world.store, r)| == |RowsOf(d.world.store, r)| + 1
  {
    FinishNeverConflicts(fingerprint, d, r, stop);
  }

  /** A run allowed no cycle at all starts completed and is revived: its one step stops at the bound, and that stop is
      cycle number one of at most zero. */
  lemma ZeroCycleRunGetsACycle(fingerprint: Config -> string, d: Desk, config: Config)
    requires InitialDesk(d) && config.bounds.maxCycles == 0 && config.runId in d.world.store.runs
    ensures var r := config.runId;
            var stop := Ending(Some(MaxCyclesReached), "bounds", NO_REFS, false, None);
            var after := Run(fingerprint, d, [Start(config)] + [Act.Pause(r)] + [Resume(r)] + [Begin(r)] + [Finish(r, stop)]).world.store;
            && r in after.orchestrations && after.orchestrations[r].config == config
            && after.orchestrations[r].cycleNumber == 1 > config.bounds.maxCycles && |RowsOf(after, r)| == 1
  {
    InitialDeskIsSound(fingerprint, d);
    RunAppend(fingerprint, d, [], Start(config));
    assert [] + [Start(config)] == [Start(config)];
    ReachableIsSound(fingerprint, d, [Start(config)]);
    RevivingAddsCycle(fingerprint, d, [Start(config)], config.runId, Ending(Some(MaxCyclesReached), "bounds", NO_REFS, false, None));
  }

  // ------------------------------------------------------ the active cycle id

  /** The row and the copy in memory point at this cycle. */
  predicate InCycle(d: Desk, r: string, id: string) {
    && r in d.world.store.orchestrations && d.world.store.orchestrations[r].activeCycleId == Some(id)
    && (r in d.sessions ==> d.sessions[r].activeCycleId == Some(id))
  }

  /** What a controller's step does about the id: it checkpoints the id it has, admits under it, and ends without one. */
  predicate Reuses(act: Act, r: string, id: string) {
    match act
    case Checkpoint(q, _, refs) => q == r ==> refs.activeCycle.None? || refs.activeCycle == Some(id)
    case Admit(q, _, _, cycleId) => q == r ==> cycleId == id
    case Finish(q, ending) => q == r ==> ending.refs.activeCycle.None?
    case _ => true
  }

  lemma SavingKeepsCycle(d: Desk, r: string, row: Orchestration, id: string)
    requires row.activeCycleId == Some(id)
    ensures InCycle(Saving(d, r, row), r, id)
  {
  }

  lemma AuthorizeKeepsCycle(fingerprint: Config -> string, d: Desk, act: Act, r: string, id: string)
    requires DeskOk(fingerprint, d) && InCycle(d, r, id) && act.Authorize? && act.r == r
    ensures InCycle(Next(fingerprint, d, act), r, id)
  {
    StepIgnoresStored(fingerprint, d, act, r, d.world.store.orchestrations[r]);
    assert d.world.store.orchestrations[r := d.world.store.orchestrations[r]] == d.world.store.orchestrations;
    if r in d.sessions { AuthorizeActIs(fingerprint, d, r, act); }
  }

  lemma EndingKeepsCycle(fingerprint: Config -> string, d: Desk, r: string, ending: Ending, id: string)
    requires DeskOk(fingerprint, d) && InCycle(d, r, id) && ending.refs.activeCycle.None?
    ensures InCycle(Next(fingerprint, d, Finish(r, ending)), r, id)
  {
    if r in d.sessions { FinishNeverConflicts(fingerprint, d, r, ending); }
  }

  lemma StepKeepsCycle(fingerprint: Config -> string, d: Desk, act: Act, r: string, id: string)
    requires DeskOk(fingerprint, d) && InCycle(d, r, id) && id != "" && OfStep(act, r) && Reuses(act, r, id)
    ensures InCycle(Next(fingerprint, d, act), r, id)
  {
    match act
    case Checkpoint(_, phase, refs) => if r in d.sessions { SavingKeepsCycle(d, r, Checkpointed(d.sessions[r], phase, refs), id); }
    case Authorize(_, _, _, _, _, _, _) => AuthorizeKeepsCycle(fingerprint, d, act, r, id);
    case Finish(_, ending) => EndingKeepsCycle(fingerprint, d, r, ending, id);
    case _ =>
  }

  lemma ActKeepsCycle(fingerprint: Config -> string, d: Desk, act: Act, r: string, id: string)
    requires DeskOk(fingerprint, d) && InCycle(d, r, id) && id != "" && Reuses(act, r, id)
    ensures InCycle(Next(fingerprint, d, act), r, id)
  {
    if act.Exec? {
      if Hookless(act.step) { ExecutionIsBlind(d.world, act.step); }
    } else if RunOf(act) != r {
      ActTouches(fingerprint, d, act);
      assert SameRun(d, Next(fingerprint, d, act), r);
    } else if OfStep(act, r) {
      StepKeepsCycle(fingerprint, d, act, r, id);
    }
  }

  /** Nothing clears the id: whatever cycles end, steps begin, operators and crashes come between, it is the same. */
  lemma {:induction false} CycleIdStays(fingerprint: Config -> string, d: Desk, acts: seq<Act>, r: string, id: string)
    requires Sound(fingerprint, d) && InCycle(d, r, id) && id != ""
    requires forall i :: 0 <= i < |acts| ==> Reuses(acts[i], r, id)
    ensures InCycle(Run(fingerprint, d, acts), r, id)
    decreases |acts|
  {
    if acts != [] {
      var k := |acts| - 1;
      CycleIdStays(fingerprint, d, acts[..k], r, id);
      RunKeepsSound(fingerprint, d, acts[..k]);
      ActKeepsCycle(fingerprint, Run(fingerprint, d, acts[..k]), acts[k], r, id);
    }
  }

  /** So a call of a later cycle rebuilds the id of an earlier cycle's call with the same role and number. It is made
      whenever the gate is open, adds no MODEL_CALL row, and writes only token sides that the earlier call left out. */
  lemma NextCycleCallsModelWithoutCharge(
    fingerprint: Config -> string, d: Desk, acts: seq<Act>, r: string, env: Envelopes, site: ModelPort.Site,
    rows: seq<Row>, port: ModelPort.Port, input: ModelPort.CallInput,
    later: seq<Row>, newPort: ModelPort.Port, again: ModelPort.CallInput)
    requires Sound(fingerprint, d) && r in d.world.store.orchestrations
    requires var id := d.world.store.orchestrations[r].activeCycleId;
             && id.Some? && id.value != "" && InCycle(d, r, id.value) && (forall i :: 0 <= i < |acts| ==> Reuses(acts[i], r, id.value))
             && var first := ModelPort.Completion(env, site, id.value, rows, port, input);
                first.made != [] && first.rows <= later
    requires again.role == input.role && ModelPort.NextAttempt(newPort, input.role) == ModelPort.NextAttempt(port, input.role)
    ensures var t := Run(fingerprint, d, acts).world.store;
            && r in t.orchestrations && t.orchestrations[r].activeCycleId.Some?
            && var cycleId := t.orchestrations[r].activeCycleId.value;
               var (n, step) := (ModelPort.NextAttempt(newPort, again.role), ModelPort.Completion(env, site, cycleId, later, newPort, again));
               var id := ModelPort.InvocationId(cycleId, again.role, n);
               && step.made == (if ModelPorts.PassesGate(later, again) then [ModelPort.Made(cycleId, again.role, n, later)] else [])
               && (step.made == [] || again.answer.Raised? ==> step.rows == later)
               && (step.made != [] && again.answer.Answered? ==>
                     step.rows == later + ModelPorts.TokenRows(env, later, id, again, ModelTokensIn)
                                        + ModelPorts.TokenRows(env, later, id, again, ModelTokensOut))
  {
    var cycleId := d.world.store.orchestrations[r].activeCycleId.value;
    CycleIdStays(fingerprint, d, acts, r, cycleId);
    var id := ModelPort.InvocationId(cycleId, input.role, ModelPort.NextAttempt(port, input.role));
    ModelPorts.MadeCallIsCharged(env, site, cycleId, rows, port, input);
    LedgerOnlyGrows(env, site, cycleId, rows, port, input);
    ModelPorts.StaysCharged(ModelPort.Completion(env, site, cycleId, rows, port, input).made[0].ledger, later, id, site.budgetId, ModelCall);
    ModelPorts.ChargedIdCallsForFree(env, site, cycleId, later, newPort, again);
  }

  lemma LedgerOnlyGrows(env: Envelopes, site: ModelPort.Site, cycleId: string, rows: seq<Row>, port: ModelPort.Port, input: ModelPort.CallInput)
    requires ModelPort.Completion(env, site, cycleId, rows, port, input).made != []
    ensures var step := ModelPort.Completion(env, site, cycleId, rows, port, input); step.made[0].ledger <= step.rows
  {
    var (id, ledger) := (ModelPort.InvocationId(cycleId, input.role, ModelPort.NextAttempt(port, input.role)),
                         ModelPort.Completion(env, site, cycleId, rows, port, input).made[0].ledger);
    if input.answer.Answered? { ModelPorts.TokenRowsAre(env, ledger, id, input); }
  }
}
