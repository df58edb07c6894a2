/** What every interleaving keeps about a run's row, its cycle rows and its configuration. */
module OrchestrationSafety {
  import opened Common
  import opened BudgetLedger
  import opened Records
  import opened OrchestrationPolicy
  import opened OrchestrationProtocol
  import Execution = ExecutionProtocol
  import ExecutionSafety
  import ExecutionTheorems

  // -------------------------------------------------------------- invariant

  /** The rows carry the numbers 1..n, each once and in order, and stop exactly when they say why. */
  ghost predicate RowsOk(rows: seq<Cycle>, n: nat) {
    |rows| == n && forall i :: 0 <= i < n ==> rows[i].number == i + 1 && (rows[i].outcome.Continue? <==> rows[i].stopReason.None?)
  }

  ghost predicate RunOk(fingerprint: Config -> string, s: Store, r: string) {
    if r in s.orchestrations then
      var row := s.orchestrations[r];
      row.config.runId == r && row.fingerprint == fingerprint(row.config) && RowsOk(RowsOf(s, r), row.cycleNumber)
    else RowsOf(s, r) == []
  }

  /** Same configuration, same fingerprint, same count: what nobody but the session itself may change. */
  predicate Agrees(a: Orchestration, b: Orchestration) {
    a.config == b.config && a.fingerprint == b.fingerprint && a.cycleNumber == b.cycleNumber
  }

  ghost predicate SessionOk(d: Desk, r: string) {
    r in d.sessions ==> r in d.world.store.orchestrations && Agrees(d.sessions[r], d.world.store.orchestrations[r])
  }

  ghost predicate DeskOk(fingerprint: Config -> string, d: Desk) {
    forall r :: RunOk(fingerprint, d.world.store, r) && SessionOk(d, r)
  }

  ghost predicate Sound(fingerprint: Config -> string, d: Desk) {
    DeskOk(fingerprint, d) && ExecutionSafety.Valid(d.world)
  }

  /** A run keeps its configuration for ever; its count and its history only grow. */
  ghost predicate RunFollows(s: Store, t: Store, r: string) {
    && RowsOf(s, r) <= RowsOf(t, r)
    && (r in s.orchestrations ==>
          && r in t.orchestrations
          && t.orchestrations[r].config == s.orchestrations[r].config
          && t.orchestrations[r].fingerprint == s.orchestrations[r].fingerprint
          && s.orchestrations[r].cycleNumber <= t.orchestrations[r].cycleNumber)
  }

  /** Nothing of run q changes. */
  ghost predicate SameRun(d: Desk, after: Desk, q: string) {
    var (s, t) := (d.world.store, after.world.store);
    && (q in s.orchestrations <==> q in t.orchestrations)
    && (q in s.orchestrations ==> s.orchestrations[q] == t.orchestrations[q])
    && RowsOf(s, q) == RowsOf(t, q)
    && (q in d.sessions <==> q in after.sessions) && (q in d.sessions ==> d.sessions[q] == after.sessions[q])
  }

  /** One run changes soundly and the others not at all. */
  ghost predicate Touches(fingerprint: Config -> string, d: Desk, after: Desk, r: string) {
    && (forall q :: q != r ==> SameRun(d, after, q))
    && RunOk(fingerprint, after.world.store, r) && SessionOk(after, r) && RunFollows(d.world.store, after.world.store, r)
  }

  lemma TouchKeepsDesk(fingerprint: Config -> string, d: Desk, after: Desk, r: string)
    requires DeskOk(fingerprint, d) && Touches(fingerprint, d, after, r)
    ensures DeskOk(fingerprint, after)
    ensures forall q :: RunFollows(d.world.store, after.world.store, q)
  {
    forall q ensures RunOk(fingerprint, after.world.store, q) && SessionOk(after, q) && RunFollows(d.world.store, after.world.store, q) {
      if q != r {
        assert SameRun(d, after, q) && RunOk(fingerprint, d.world.store, q) && SessionOk(d, q);
      }
    }
  }

  // ---------------------------------------------- the execution side is blind

  ghost predicate Blind(w: Execution.World, after: Execution.World) {
    after.store.orchestrations == w.store.orchestrations && after.store.cycles == w.store.cycles
  }

  lemma CheckIsBlind(w: Execution.World, c: nat, e: string, first: string)
    ensures Blind(w, Execution.Next(w, Execution.Check(c, e, first)))
  {
  }

  lemma AuthorizeTouchesItsRun(
    w: Execution.World, c: nat, cmd: Execution.Command, ev: Execution.Evaluation, requestId: string, limitId: string,
    first: string, hook: Option<Orchestration>)
    ensures var after := Execution.Next(w, Execution.Authorize(c, cmd, ev, requestId, limitId, first, hook));
            var attemptId := Execution.AttemptId(requestId);
            && after.store.cycles == w.store.cycles
            && after.store.orchestrations ==
               (if hook.Some? && attemptId in after.store.attempts && attemptId !in w.store.attempts
                then w.store.orchestrations[hook.value.config.runId := hook.value] else w.store.orchestrations)
  {
    if Execution.FreshIds(w.store, requestId, limitId) && Execution.MayBeFirst(w.store, cmd.experimentId, first) {
      ExecutionSafety.AuthorizeGrantsOnceOrDeclines(w.store, cmd, ev, requestId, limitId, first, hook);
      AuthorizeTxTouchesItsRun(w.store, cmd, ev, requestId, limitId, first, hook);
    }
  }

  lemma AuthorizeTxTouchesItsRun(
    s: Store, cmd: Execution.Command, ev: Execution.Evaluation, requestId: string, limitId: string, first: string,
    hook: Option<Orchestration>)
    requires Execution.MayBeFirst(s, cmd.experimentId, first)
    ensures var (t, result) := Execution.AuthorizeTx(s, cmd, ev, requestId, limitId, first, hook);
            && t.cycles == s.cycles
            && t.orchestrations == (if result.Granted? && hook.Some?
                                    then s.orchestrations[hook.value.config.runId := hook.value] else s.orchestrations)
  {
  }

  lemma DispatchIsBlind(w: Execution.World, c: nat)
    ensures Blind(w, Execution.Next(w, Execution.Dispatch(c)))
  {
  }

  lemma RecordIsBlind(w: Execution.World, c: nat, persists: bool)
    ensures Blind(w, Execution.Next(w, Execution.Record(c, persists)))
  {
  }

  lemma IngestIsBlind(w: Execution.World, c: nat, verdict: Execution.IngestVerdict)
    ensures Blind(w, Execution.Next(w, Execution.Ingest(c, verdict)))
  {
  }

  lemma ExecutionIsBlind(w: Execution.World, step: Execution.Step)
    requires Hookless(step)
    ensures Blind(w, Execution.Next(w, step))
  {
    match step
    case Check(c, e, first) => CheckIsBlind(w, c, e, first);
    case Authorize(c, cmd, ev, requestId, limitId, first, hook) =>
      AuthorizeTouchesItsRun(w, c, cmd, ev, requestId, limitId, first, hook);
    case Rebuild(c, a) => assert Blind(w, Execution.Next(w, Execution.Rebuild(c, a)));
    case Dispatch(c) => DispatchIsBlind(w, c);
    case Invoke(c) => assert Blind(w, Execution.Next(w, Execution.Invoke(c)));
    case Return(c, inv) => assert Blind(w, Execution.Next(w, Execution.Return(c, inv)));
    case Record(c, persists) => RecordIsBlind(w, c, persists);
    case Ingest(c, verdict) => IngestIsBlind(w, c, verdict);
    case MarkFailed(c) => assert Blind(w, Execution.Next(w, Execution.MarkFailed(c)));
    case Crash(c) => assert Blind(w, Execution.Next(w, Execution.Crash(c)));
    case Prepare(e, runId, plan) => assert Blind(w, Execution.Next(w, Execution.Prepare(e, runId, plan)));
    case ChargeElsewhere(record) => assert Blind(w, Execution.Next(w, Execution.ChargeElsewhere(record)));
  }

  // ----------------------------------------------------------- act by act

  lemma SavingTouches(fingerprint: Config -> string, d: Desk, r: string, row: Orchestration)
    requires DeskOk(fingerprint, d) && r in d.sessions && Agrees(row, d.sessions[r])
    ensures Touches(fingerprint, d, Saving(d, r, row), r)
  {
    assert RunOk(fingerprint, d.world.store, r) && SessionOk(d, r);
  }

  /** The insert of the next cycle row can never hit an existing number. */
  lemma FinishNeverConflicts(fingerprint: Config -> string, d: Desk, r: string, ending: Ending)
    requires DeskOk(fingerprint, d) && r in d.sessions
    ensures FinishTx(d.world.store, r, d.sessions[r], ending).Some?
  {
    assert RunOk(fingerprint, d.world.store, r) && SessionOk(d, r);
  }

  lemma FinishTouches(fingerprint: Config -> string, d: Desk, r: string, ending: Ending)
    requires DeskOk(fingerprint, d) && r in d.sessions
    ensures Touches(fingerprint, d, Next(fingerprint, d, Finish(r, ending)), r)
  {
    FinishNeverConflicts(fingerprint, d, r, ending);
    assert RunOk(fingerprint, d.world.store, r) && SessionOk(d, r);
    var (s, row) := (d.world.store, Ended(d.sessions[r], ending));
    var t := FinishTx(s, r, d.sessions[r], ending).value;
    if Inserts(ending) {
      assert RowsOf(t, r) == RowsOf(s, r) + [Cycle(row.cycleNumber, ending.lastPhase, OutcomeOf(ending), ending.stop)];
      if ending.stop.Some? {
        EveryStopEndsTheRun(ending.stop.value);
      }
    }
  }

  lemma OperatorTouches(fingerprint: Config -> string, d: Desk, r: string, row: Orchestration)
    requires DeskOk(fingerprint, d) && r in d.world.store.orchestrations && Agrees(row, d.world.store.orchestrations[r])
    ensures Touches(fingerprint, d, WithStore(d, Save(d.world.store, r, row)), r)
  {
    assert RunOk(fingerprint, d.world.store, r) && SessionOk(d, r);
  }

  lemma LoadTouches(fingerprint: Config -> string, d: Desk, r: string)
    requires DeskOk(fingerprint, d) && r in d.world.store.orchestrations
    ensures Touches(fingerprint, d, d.(sessions := d.sessions[r := d.world.store.orchestrations[r]]), r)
  {
    assert RunOk(fingerprint, d.world.store, r);
  }

  lemma StartTouches(fingerprint: Config -> string, d: Desk, config: Config)
    requires DeskOk(fingerprint, d) && config.runId !in d.world.store.orchestrations
    ensures Touches(fingerprint, d, WithStore(d, Save(d.world.store, config.runId, StartRow(fingerprint, config))), config.runId)
  {
    assert RunOk(fingerprint, d.world.store, config.runId) && SessionOk(d, config.runId);
  }

  lemma LeaveTouches(fingerprint: Config -> string, d: Desk, r: string)
    requires DeskOk(fingerprint, d)
    ensures Touches(fingerprint, d, Next(fingerprint, d, Leave(r)), r)
  {
    assert RunOk(fingerprint, d.world.store, r);
  }

  lemma AuthorizeTouches(
    fingerprint: Config -> string, d: Desk, r: string, c: nat, cmd: Execution.Command, ev: Execution.Evaluation,
    requestId: string, limitId: string, first: string)
    requires DeskOk(fingerprint, d) && r in d.sessions
    ensures Touches(fingerprint, d, Next(fingerprint, d, Authorize(r, c, cmd, ev, requestId, limitId, first)), r)
  {
    assert RunOk(fingerprint, d.world.store, r) && SessionOk(d, r);
    var hooked := Hooked(d.sessions[r], cmd.experimentId, Execution.AttemptId(requestId));
    AuthorizeTouchesItsRun(d.world, c, cmd, ev, requestId, limitId, first, Some(hooked));
    var after := Next(fingerprint, d, Authorize(r, c, cmd, ev, requestId, limitId, first));
    var a := Execution.AttemptId(requestId);
    GrantedRowTouches(fingerprint, d, after, r, hooked, a in after.world.store.attempts && a !in d.world.store.attempts);
  }

  lemma GrantedRowTouches(fingerprint: Config -> string, d: Desk, after: Desk, r: string, row: Orchestration, granted: bool)
    requires DeskOk(fingerprint, d) && r in d.sessions && Agrees(row, d.sessions[r]) && after.world.store.cycles == d.world.store.cycles
    requires after.world.store.orchestrations
          == if granted then d.world.store.orchestrations[r := row] else d.world.store.orchestrations
    requires after.sessions == if granted then d.sessions[r := row] else d.sessions
    ensures Touches(fingerprint, d, after, r)
  {
    assert RunOk(fingerprint, d.world.store, r) && SessionOk(d, r);
  }

  lemma ExecTouches(fingerprint: Config -> string, d: Desk, step: Execution.Step, r: string)
    requires DeskOk(fingerprint, d)
    ensures Touches(fingerprint, d, Next(fingerprint, d, Exec(step)), r)
  {
    assert RunOk(fingerprint, d.world.store, r) && SessionOk(d, r);
    if Hookless(step) {
      ExecutionIsBlind(d.world, step);
    }
  }

  /** The run an act is about; any run for the acts of the execution side. */
  function RunOf(act: Act): string {
    match act
    case Exec(_) => ""
    case Start(config) => config.runId
    case _ => act.r
  }

  lemma IdleTouches(fingerprint: Config -> string, d: Desk, r: string)
    requires DeskOk(fingerprint, d)
    ensures Touches(fingerprint, d, d, r)
  {
    assert RunOk(fingerprint, d.world.store, r) && SessionOk(d, r);
  }

  lemma AdmitTouches(fingerprint: Config -> string, d: Desk, r: string, h: string, opportunity: Option<string>, cycleId: string)
    requires DeskOk(fingerprint, d) && r in d.sessions && h !in d.world.store.hypotheses
    ensures Touches(fingerprint, d, Next(fingerprint, d, Admit(r, h, opportunity, cycleId)), r)
  {
    var row := Admitted(d.sessions[r], h, opportunity, cycleId);
    SavingTouches(fingerprint, d, r, row);
    assert Touches(fingerprint, d, Saving(d, r, row), r);
  }

  lemma PrepareTouches(fingerprint: Config -> string, d: Desk, r: string, e: string, plan: Plan, hypothesis: Option<string>)
    requires DeskOk(fingerprint, d) && r in d.sessions && CanPrepare(d.world.store, r, plan)
    ensures Touches(fingerprint, d, Next(fingerprint, d, Prepare(r, e, plan, hypothesis)), r)
  {
    SavingTouches(fingerprint, d, r, WithPlan(d.sessions[r], e, hypothesis));
  }

  lemma ActTouches(fingerprint: Config -> string, d: Desk, act: Act)
    requires DeskOk(fingerprint, d)
    ensures Touches(fingerprint, d, Next(fingerprint, d, act), RunOf(act))
  {
    var s := d.world.store;
    IdleTouches(fingerprint, d, RunOf(act));
    match act
    case Exec(step) => ExecTouches(fingerprint, d, step, "");
    case Start(config) => if config.runId !in s.orchestrations { StartTouches(fingerprint, d, config); }
    case Pause(r) => if r in s.orchestrations { OperatorTouches(fingerprint, d, r, OperatorRow(s.orchestrations[r], Paused, OperatorPaused)); }
    case Cancel(r) => if r in s.orchestrations { OperatorTouches(fingerprint, d, r, OperatorRow(s.orchestrations[r], CompletedRun, OperatorCancelled)); }
    case Resume(r) =>
      if r in s.orchestrations {
        OperatorTouches(fingerprint, d, r, s.orchestrations[r].(
          state := ReadyRun, pauseReason := None, stopReason := None, lastPhase := "resume"));
      }
    case Begin(r) => if r in s.orchestrations { LoadTouches(fingerprint, d, r); }
    case MarkRunning(r) =>
      if r in d.sessions {
        assert SessionOk(d, r);
        OperatorTouches(fingerprint, d, r, d.sessions[r].(state := RunningRun, lastPhase := "running"));
      }
    case Reload(r) => if r in s.orchestrations { LoadTouches(fingerprint, d, r); }
    case Checkpoint(r, phase, refs) => if r in d.sessions { SavingTouches(fingerprint, d, r, Checkpointed(d.sessions[r], phase, refs)); }
    case Admit(r, h, opportunity, cycleId) =>
      if r in d.sessions && h !in s.hypotheses { AdmitTouches(fingerprint, d, r, h, opportunity, cycleId); }
    case Prepare(r, e, plan, hypothesis) =>
      if r in d.sessions && CanPrepare(s, r, plan) { PrepareTouches(fingerprint, d, r, e, plan, hypothesis); }
    case Authorize(r, c, cmd, ev, requestId, limitId, first) =>
      if r in d.sessions { AuthorizeTouches(fingerprint, d, r, c, cmd, ev, requestId, limitId, first); }
    case Finish(r, ending) => if r in d.sessions { FinishTouches(fingerprint, d, r, ending); }
    case Leave(r) => LeaveTouches(fingerprint, d, r);
  }

  // -------------------------------------------------- the execution invariant

  ghost predicate SameExecution(s: Store, t: Store) {
    t == s.(orchestrations := t.orchestrations, cycles := t.cycles, hypotheses := t.hypotheses)
  }

  lemma SameExecutionKeepsValid(w: Execution.World, t: Store)
    requires ExecutionSafety.Valid(w) && SameExecution(w.store, t)
    ensures ExecutionSafety.Valid(w.(store := t)) && ExecutionSafety.Follows(w.store, t)
  {
    ExecutionSafety.SameAttemptsOf(w.store, t);
    ExecutionSafety.FollowKeepsValid(w.store, t, w.calls, w.workerCalls);
  }

  lemma PreparesLikeExecution(fingerprint: Config -> string, d: Desk, r: string, e: string, plan: Plan, hypothesis: Option<string>)
    requires r in d.sessions && CanPrepare(d.world.store, r, plan)
    ensures var prepared := Execution.Next(d.world, Execution.Prepare(e, r, plan));
            KeepsExecution(prepared, Next(fingerprint, d, Prepare(r, e, plan, hypothesis)).world)
  {
  }

  lemma {:induction false} PrepareKeepsValid(fingerprint: Config -> string, d: Desk, r: string, e: string, plan: Plan, hypothesis: Option<string>)
    requires ExecutionSafety.Valid(d.world) && r in d.sessions && CanPrepare(d.world.store, r, plan)
    ensures var after := Next(fingerprint, d, Prepare(r, e, plan, hypothesis)).world;
            ExecutionSafety.Valid(after) && ExecutionSafety.Follows(d.world.store, after.store)
  {
    var after := Next(fingerprint, d, Prepare(r, e, plan, hypothesis)).world;
    var prepared := Execution.Next(d.world, Execution.Prepare(e, r, plan));
    ExecutionSafety.PrepareKeepsValid(d.world, e, r, plan);
    PreparesLikeExecution(fingerprint, d, r, e, plan, hypothesis);
    SameExecutionKeepsValid(prepared, after.store);
    ExecutionTheorems.FollowsTransitive(d.world.store, prepared.store, after.store);
  }

  /** All but three kinds of act leave the execution side of the store as it was. */
  predicate OnlyOrchestrates(act: Act) {
    !act.Exec? && !act.Authorize? && !act.Prepare?
  }

  ghost predicate KeepsExecution(w: Execution.World, after: Execution.World) {
    after == w.(store := after.store) && SameExecution(w.store, after.store)
  }

  lemma OperatorKeepsExecution(fingerprint: Config -> string, d: Desk, act: Act)
    requires act.Start? || act.Pause? || act.Resume? || act.Cancel?
    ensures KeepsExecution(d.world, Next(fingerprint, d, act).world)
  {
  }

  lemma StepKeepsExecution(fingerprint: Config -> string, d: Desk, act: Act)
    requires act.Begin? || act.MarkRunning? || act.Reload? || act.Checkpoint? || act.Admit? || act.Leave?
    ensures KeepsExecution(d.world, Next(fingerprint, d, act).world)
  {
  }

  lemma InsertTouchesCycles(s: Store, r: string, row: Cycle)
    ensures InsertCycle(s, r, row).Some? ==> InsertCycle(s, r, row).value == s.(cycles := InsertCycle(s, r, row).value.cycles)
  {
  }

  lemma FinishTxKeepsExecution(s: Store, r: string, current: Orchestration, ending: Ending)
    ensures FinishTx(s, r, current, ending).Some? ==> SameExecution(s, FinishTx(s, r, current, ending).value)
  {
    var row := Ended(current, ending);
    InsertTouchesCycles(Save(s, r, row), r, Cycle(row.cycleNumber, ending.lastPhase, OutcomeOf(ending), ending.stop));
  }

  lemma FinishKeepsExecution(fingerprint: Config -> string, d: Desk, r: string, ending: Ending)
    ensures KeepsExecution(d.world, Next(fingerprint, d, Finish(r, ending)).world)
  {
    if r in d.sessions { FinishTxKeepsExecution(d.world.store, r, d.sessions[r], ending); }
  }

  lemma {:induction false} OrchestratingKeepsExecution(fingerprint: Config -> string, d: Desk, act: Act)
    requires OnlyOrchestrates(act)
    ensures KeepsExecution(d.world, Next(fingerprint, d, act).world)
  {
    if act.Start? || act.Pause? || act.Resume? || act.Cancel? {
      OperatorKeepsExecution(fingerprint, d, act);
    } else if act.Finish? {
      FinishKeepsExecution(fingerprint, d, act.r, act.ending);
    } else {
      StepKeepsExecution(fingerprint, d, act);
    }
  }

  lemma {:induction false} AuthorizeKeepsValid(
    fingerprint: Config -> string, d: Desk, r: string, c: nat, cmd: Execution.Command, ev: Execution.Evaluation,
    requestId: string, limitId: string, first: string)
    requires ExecutionSafety.Valid(d.world) && r in d.sessions
    ensures var after := Next(fingerprint, d, Authorize(r, c, cmd, ev, requestId, limitId, first)).world;
            ExecutionSafety.Valid(after) && ExecutionSafety.Follows(d.world.store, after.store)
  {
    ExecutionTheorems.StepKeepsValid(d.world, Execution.Authorize(c, cmd, ev, requestId, limitId, first,
      Some(Hooked(d.sessions[r], cmd.experimentId, Execution.AttemptId(requestId)))));
  }

  lemma {:induction false} ActKeepsValid(fingerprint: Config -> string, d: Desk, act: Act)
    requires ExecutionSafety.Valid(d.world)
    ensures var after := Next(fingerprint, d, act).world;
            ExecutionSafety.Valid(after) && ExecutionSafety.Follows(d.world.store, after.store)
  {
    ExecutionSafety.StoreFollowsItself(d.world.store);
    if OnlyOrchestrates(act) {
      OrchestratingKeepsExecution(fingerprint, d, act);
      SameExecutionKeepsValid(d.world, Next(fingerprint, d, act).world.store);
    } else if act.Exec? {
      if Hookless(act.step) { ExecutionTheorems.StepKeepsValid(d.world, act.step); }
    } else if act.r in d.sessions {
      match act
      case Authorize(r, c, cmd, ev, requestId, limitId, first) =>
        AuthorizeKeepsValid(fingerprint, d, r, c, cmd, ev, requestId, limitId, first);
      case Prepare(r, e, plan, hypothesis) =>
        if CanPrepare(d.world.store, r, plan) { PrepareKeepsValid(fingerprint, d, r, e, plan, hypothesis); }
      case _ =>
    }
  }

  // -------------------------------------------------------------- every run

  lemma {:induction false} ActKeepsSound(fingerprint: Config -> string, d: Desk, act: Act)
    requires Sound(fingerprint, d)
    ensures Sound(fingerprint, Next(fingerprint, d, act))
    ensures forall r :: RunFollows(d.world.store, Next(fingerprint, d, act).world.store, r)
  {
    ActTouches(fingerprint, d, act);
    TouchKeepsDesk(fingerprint, d, Next(fingerprint, d, act), RunOf(act));
    ActKeepsValid(fingerprint, d, act);
  }

  lemma RunFollowsTransitive(s: Store, t: Store, u: Store, r: string)
    requires RunFollows(s, t, r) && RunFollows(t, u, r)
    ensures RunFollows(s, u, r)
  {
  }

  /** Over every interleaving: the invariant holds, configurations never drift, histories only grow. */
  lemma {:induction false} RunKeepsSound(fingerprint: Config -> string, d: Desk, acts: seq<Act>)
    requires Sound(fingerprint, d)
    ensures Sound(fingerprint, Run(fingerprint, d, acts))
    ensures forall r :: RunFollows(d.world.store, Run(fingerprint, d, acts).world.store, r)
  {
    if acts != [] {
      var (earlier, act) := (acts[..|acts| - 1], acts[|acts| - 1]);
      RunKeepsSound(fingerprint, d, earlier);
      var before := Run(fingerprint, d, earlier);
      ActKeepsSound(fingerprint, before, act);
      forall r ensures RunFollows(d.world.store, Run(fingerprint, d, acts).world.store, r) {
        RunFollowsTransitive(d.world.store, before.world.store, Run(fingerprint, d, acts).world.store, r);
      }
    }
  }
}
