/** Operators write over a row that a controller may hold in memory: which of their writes last, and which are lost. */
module OperatorTheorems {
  import opened Common
  import opened BudgetLedger
  import opened Records
  import opened OrchestrationPolicy
  import opened OrchestrationProtocol
  import opened OrchestrationSafety
  import Execution = ExecutionProtocol
  import ExecutionSafety

  // ------------------------------------------------ what a step's acts write

  /** The authorize transaction as the open step of r runs it, hook included. */
  function HookedStep(d: Desk, r: string, act: Act): Execution.Step
    requires act.Authorize? && r in d.sessions
  {
    Execution.Authorize(act.c, act.cmd, act.ev, act.requestId, act.limitId, act.first,
      Some(Hooked(d.sessions[r], act.cmd.experimentId, Execution.AttemptId(act.requestId))))
  }

  predicate InsertsAttempt(w: Execution.World, step: Execution.Step)
    requires step.Authorize?
  {
    var a := Execution.AttemptId(step.requestId);
    a in Execution.Next(w, step).store.attempts && a !in w.store.attempts
  }

  /** The row this act saves for run r out of the memory of its open step; None when it saves none. */
  function OwnRow(d: Desk, act: Act, r: string): Option<Orchestration> {
    if r !in d.sessions || RunOf(act) != r then None
    else
      var (s, row) := (d.world.store, d.sessions[r]);
      match act
      case MarkRunning(_) => Some(row.(state := RunningRun, lastPhase := "running"))
      case Checkpoint(_, phase, refs) => Some(Checkpointed(row, phase, refs))
      case Admit(_, h, opportunity, cycleId) => if h in s.hypotheses then None else Some(Admitted(row, h, opportunity, cycleId))
      case Prepare(_, e, plan, hypothesis) => if CanPrepare(s, r, plan) then Some(WithPlan(row, e, hypothesis)) else None
      case Authorize(_, _, cmd, _, requestId, _, _) =>
        if InsertsAttempt(d.world, HookedStep(d, r, act)) then Some(Hooked(row, cmd.experimentId, Execution.AttemptId(requestId))) else None
      case Finish(_, ending) => Some(Ended(row, ending))
      case _ => None
  }

  /** An act that belongs to the open step of r, as opposed to an operator's or another run's. */
  predicate OfStep(act: Act, r: string) {
    !act.Exec? && !act.Start? && !act.Pause? && !act.Resume? && !act.Cancel? && act.r == r
  }

  predicate ByOperator(act: Act, r: string) {
    (act.Pause? || act.Cancel?) && act.r == r
  }

  // ----------------------------------------- authorize never reads the row

  function WithRows(w: Execution.World, rows: map<string, Orchestration>): Execution.World {
    w.(store := w.store.(orchestrations := rows))
  }

  lemma DecideIgnoresRows(
    s: Store, rows: map<string, Orchestration>, cmd: Execution.Command, ev: Execution.Evaluation, requestId: string,
    limitId: string, hook: Orchestration)
    requires cmd.experimentId in s.experiments
    ensures var (t, result) := Execution.DecideTx(s, cmd, ev, requestId, limitId, Some(hook));
            Execution.DecideTx(s.(orchestrations := rows), cmd, ev, requestId, limitId, Some(hook))
            == (t.(orchestrations := if result.Granted? then rows[hook.config.runId := hook] else rows), result)
  {
  }

  lemma AuthorizeIgnoresRows(
    s: Store, rows: map<string, Orchestration>, cmd: Execution.Command, ev: Execution.Evaluation, requestId: string,
    limitId: string, first: string, hook: Orchestration)
    requires Execution.MayBeFirst(s, cmd.experimentId, first) && Execution.MayBeFirst(s.(orchestrations := rows), cmd.experimentId, first)
    ensures var (t, result) := Execution.AuthorizeTx(s, cmd, ev, requestId, limitId, first, Some(hook));
            Execution.AuthorizeTx(s.(orchestrations := rows), cmd, ev, requestId, limitId, first, Some(hook))
            == (t.(orchestrations := if result.Granted? then rows[hook.config.runId := hook] else rows), result)
  {
    ExecutionSafety.SameAttemptsOf(s, s.(orchestrations := rows));
    if Execution.ContextProblem(s, cmd).None? {
      DecideIgnoresRows(s, rows, cmd, ev, requestId, limitId, hook);
    }
  }

  predicate Enabled(w: Execution.World, step: Execution.Step)
    requires step.Authorize?
  {
    && (step.c in w.calls ==> w.calls[step.c] == Execution.Checked(step.cmd.experimentId))
    && Execution.FreshIds(w.store, step.requestId, step.limitId)
    && Execution.MayBeFirst(w.store, step.cmd.experimentId, step.first)
  }

  lemma EnablingIgnoresRows(w: Execution.World, rows: map<string, Orchestration>, step: Execution.Step)
    requires step.Authorize?
    ensures Enabled(WithRows(w, rows), step) == Enabled(w, step)
  {
    ExecutionSafety.SameAttemptsOf(w.store, WithRows(w, rows).store);
  }

  function Transaction(s: Store, step: Execution.Step): (Store, Execution.AuthorizeResult)
    requires step.Authorize? && Execution.MayBeFirst(s, step.cmd.experimentId, step.first)
  {
    Execution.AuthorizeTx(s, step.cmd, step.ev, step.requestId, step.limitId, step.first, step.hook)
  }

  function Committed(w: Execution.World, step: Execution.Step, t: Store, result: Execution.AuthorizeResult): Execution.World
    requires step.Authorize?
  {
    Execution.World(t, if result.Granted? then w.calls[step.c := Execution.Holding(result.handle)] else w.calls - {step.c}, w.workerCalls)
  }

  lemma AuthorizeStepIs(w: Execution.World, step: Execution.Step)
    requires step.Authorize?
    ensures !Enabled(w, step) ==> Execution.Next(w, step) == w
    ensures Enabled(w, step) ==>
              var (t, result) := Transaction(w.store, step);
              Execution.Next(w, step) == Committed(w, step, t, result) && InsertsAttempt(w, step) == result.Granted?
  {
    if Enabled(w, step) {
      ExecutionSafety.AuthorizeGrantsOnceOrDeclines(w.store, step.cmd, step.ev, step.requestId, step.limitId, step.first, step.hook);
    }
  }

  /** The transaction does the same on tables that differ only in orchestration rows. */
  lemma AuthorizeStepIgnoresRows(w: Execution.World, rows: map<string, Orchestration>, step: Execution.Step)
    requires step.Authorize? && step.hook.Some?
    ensures var (row, after) := (step.hook.value, Execution.Next(w, step));
            && InsertsAttempt(WithRows(w, rows), step) == InsertsAttempt(w, step)
            && Execution.Next(WithRows(w, rows), step)
               == WithRows(after, if InsertsAttempt(w, step) then rows[row.config.runId := row] else rows)
  {
    EnablingIgnoresRows(w, rows, step);
    AuthorizeStepIs(w, step);
    AuthorizeStepIs(WithRows(w, rows), step);
    if Enabled(w, step) {
      AuthorizeIgnoresRows(w.store, rows, step.cmd, step.ev, step.requestId, step.limitId, step.first, step.hook.value);
    }
  }

  // ------------------------------------------ a pause or cancel meets a step

  lemma SaveTwice(s: Store, r: string, x: Orchestration, y: Orchestration)
    ensures Save(Save(s, r, x), r, y) == Save(s, r, y)
  {
    assert s.orchestrations[r := x][r := y] == s.orchestrations[r := y];
  }

  /** The desk with another row stored for r; sessions keep what they loaded. */
  function Over(d: Desk, r: string, x: Orchestration): Desk {
    WithStore(d, Save(d.world.store, r, x))
  }

  /** What a step's act does must not depend on the stored row: it erases x if it writes, and leaves x if it does not. */
  ghost predicate IgnoresStored(fingerprint: Config -> string, d: Desk, act: Act, r: string, x: Orchestration) {
    && OwnRow(Over(d, r, x), act, r) == OwnRow(d, act, r)
    && var after := Next(fingerprint, Over(d, r, x), act);
       if OwnRow(d, act, r).Some?
       then after == Next(fingerprint, d, act) && r in after.world.store.orchestrations
            && after.world.store.orchestrations[r] == OwnRow(d, act, r).value
       else r in after.world.store.orchestrations && after.world.store.orchestrations[r] == x
  }

  lemma CheckpointIgnoresStored(fingerprint: Config -> string, d: Desk, r: string, phase: Phase, refs: Refs, x: Orchestration)
    ensures IgnoresStored(fingerprint, d, Checkpoint(r, phase, refs), r, x)
  {
    if r in d.sessions { SaveTwice(d.world.store, r, x, Checkpointed(d.sessions[r], phase, refs)); }
  }

  lemma MarkIgnoresStored(fingerprint: Config -> string, d: Desk, r: string, x: Orchestration)
    ensures IgnoresStored(fingerprint, d, MarkRunning(r), r, x)
  {
    if r in d.sessions { SaveTwice(d.world.store, r, x, d.sessions[r].(state := RunningRun, lastPhase := "running")); }
  }

  lemma AdmitIgnoresStored(
    fingerprint: Config -> string, d: Desk, r: string, h: string, opportunity: Option<string>, cycleId: string, x: Orchestration)
    ensures IgnoresStored(fingerprint, d, Admit(r, h, opportunity, cycleId), r, x)
  {
    if r in d.sessions && h !in d.world.store.hypotheses {
      SaveTwice(d.world.store.(hypotheses := d.world.store.hypotheses[h := r]), r, x, Admitted(d.sessions[r], h, opportunity, cycleId));
    }
  }

  lemma PrepareIgnoresStored(
    fingerprint: Config -> string, d: Desk, r: string, e: string, plan: Plan, hypothesis: Option<string>, x: Orchestration)
    ensures IgnoresStored(fingerprint, d, Prepare(r, e, plan, hypothesis), r, x)
  {
    if r in d.sessions && CanPrepare(d.world.store, r, plan) {
      SaveTwice(PrepareTx(d.world.store, r, e, plan), r, x, WithPlan(d.sessions[r], e, hypothesis));
      assert PrepareTx(Save(d.world.store, r, x), r, e, plan) == Save(PrepareTx(d.world.store, r, e, plan), r, x);
    }
  }

  lemma FinishIgnoresStored(fingerprint: Config -> string, d: Desk, r: string, ending: Ending, x: Orchestration)
    requires r in d.sessions ==> FinishTx(d.world.store, r, d.sessions[r], ending).Some?
    ensures IgnoresStored(fingerprint, d, Finish(r, ending), r, x)
  {
    if r in d.sessions { SaveTwice(d.world.store, r, x, Ended(d.sessions[r], ending)); }
  }

  lemma AuthorizeActIs(fingerprint: Config -> string, d: Desk, r: string, act: Act)
    requires act.Authorize? && act.r == r && r in d.sessions
    ensures var step := HookedStep(d, r, act);
            Next(fingerprint, d, act) == Desk(Execution.Next(d.world, step),
              if InsertsAttempt(d.world, step) then d.sessions[r := step.hook.value] else d.sessions)
  {
  }

  lemma AuthorizeOver(w: Execution.World, r: string, x: Orchestration, step: Execution.Step)
    requires step.Authorize? && step.hook.Some? && step.hook.value.config.runId == r
    ensures var rows := w.store.orchestrations;
            && InsertsAttempt(WithRows(w, rows[r := x]), step) == InsertsAttempt(w, step)
            && var after := Execution.Next(WithRows(w, rows[r := x]), step);
               if InsertsAttempt(w, step) then after == Execution.Next(w, step) && after.store.orchestrations == rows[r := step.hook.value]
               else after.store.orchestrations == rows[r := x]
  {
    var rows := w.store.orchestrations;
    AuthorizeStepIgnoresRows(w, rows[r := x], step);
    AuthorizeTouchesItsRun(w, step.c, step.cmd, step.ev, step.requestId, step.limitId, step.first, step.hook);
    WithOwnRows(Execution.Next(w, step), rows, r, x, step.hook.value);
  }

  lemma WithOwnRows(w: Execution.World, rows: map<string, Orchestration>, r: string, x: Orchestration, y: Orchestration)
    ensures rows[r := x][r := y] == rows[r := y]
    ensures w.store.orchestrations == rows[r := y] ==> WithRows(w, rows[r := y]) == w
  {
  }

  lemma AuthorizeIgnoresStored(
    fingerprint: Config -> string, d: Desk, r: string, act: Act, x: Orchestration)
    requires act.Authorize? && act.r == r && (r in d.sessions ==> d.sessions[r].config.runId == r)
    ensures IgnoresStored(fingerprint, d, act, r, x)
  {
    if r in d.sessions {
      var step := HookedStep(d, r, act);
      AuthorizeActIs(fingerprint, d, r, act);
      AuthorizeActIs(fingerprint, Over(d, r, x), r, act);
      AuthorizeOver(d.world, r, x, step);
      assert HookedStep(Over(d, r, x), r, act) == step;
      assert Over(d, r, x).world == WithRows(d.world, d.world.store.orchestrations[r := x]);
    }
  }

  lemma LoadingIgnoresStored(fingerprint: Config -> string, d: Desk, r: string, act: Act, x: Orchestration)
    requires (act.Begin? || act.Reload? || act.Leave?) && act.r == r
    ensures IgnoresStored(fingerprint, d, act, r, x)
  {
  }

  lemma StepIgnoresStored(fingerprint: Config -> string, d: Desk, act: Act, r: string, x: Orchestration)
    requires DeskOk(fingerprint, d) && OfStep(act, r)
    ensures IgnoresStored(fingerprint, d, act, r, x)
  {
    assert SessionOk(d, r) && RunOk(fingerprint, d.world.store, r);
    match act
    case MarkRunning(_) => MarkIgnoresStored(fingerprint, d, r, x);
    case Checkpoint(_, phase, refs) => CheckpointIgnoresStored(fingerprint, d, r, phase, refs, x);
    case Admit(_, h, opportunity, cycleId) => AdmitIgnoresStored(fingerprint, d, r, h, opportunity, cycleId, x);
    case Prepare(_, e, plan, hypothesis) => PrepareIgnoresStored(fingerprint, d, r, e, plan, hypothesis, x);
    case Authorize(_, _, _, _, _, _, _) => AuthorizeIgnoresStored(fingerprint, d, r, act, x);
    case Finish(_, ending) =>
      if r in d.sessions { FinishNeverConflicts(fingerprint, d, r, ending); }
      FinishIgnoresStored(fingerprint, d, r, ending, x);
    case _ => LoadingIgnoresStored(fingerprint, d, r, act, x);
  }

  /** The row an operator's pause or cancel stores. */
  function OperatorsRow(op: Act, before: Orchestration): Orchestration {
    if op.Pause? then OperatorRow(before, Paused, OperatorPaused) else OperatorRow(before, CompletedRun, OperatorCancelled)
  }

  function RowOf(d: Desk, r: string): Option<Orchestration> {
    if r in d.world.store.orchestrations then Some(d.world.store.orchestrations[r]) else None
  }

  /** An operator's pause or cancel and the next act of the run's step: if the act writes the row, the outcome is the
      same, in every table, as if the operator had never written; if it does not, the operator's row stands. */
  lemma OperatorWriteIsLostIff(fingerprint: Config -> string, d: Desk, op: Act, act: Act, r: string)
    requires DeskOk(fingerprint, d) && r in d.world.store.orchestrations && ByOperator(op, r) && OfStep(act, r)
    ensures RowOf(Next(fingerprint, d, op), r) == Some(OperatorsRow(op, d.world.store.orchestrations[r]))
    ensures var after := Next(fingerprint, Next(fingerprint, d, op), act);
            if OwnRow(d, act, r).Some?
            then after == Next(fingerprint, d, act) && RowOf(after, r) == OwnRow(d, act, r)
            else RowOf(after, r) == RowOf(Next(fingerprint, d, op), r)
  {
    StepIgnoresStored(fingerprint, d, act, r, OperatorsRow(op, d.world.store.orchestrations[r]));
  }

  // ------------------------------------------------------- a paused run

  /** The acts that may take run r out of PAUSED: an operator's resume or cancel, or a write of an open step. */
  predicate MayUnpause(d: Desk, act: Act, r: string) {
    act == Resume(r) || act == Cancel(r) || OwnRow(d, act, r).Some?
  }

  predicate IsPaused(d: Desk, r: string) {
    r in d.world.store.orchestrations && d.world.store.orchestrations[r].state == Paused
  }

  lemma OtherActKeepsPause(fingerprint: Config -> string, d: Desk, act: Act, r: string)
    requires DeskOk(fingerprint, d) && IsPaused(d, r) && (act.Exec? || RunOf(act) != r)
    ensures IsPaused(Next(fingerprint, d, act), r)
  {
    if act.Exec? {
      if Hookless(act.step) { ExecutionIsBlind(d.world, act.step); }
    } else {
      ActTouches(fingerprint, d, act);
      assert SameRun(d, Next(fingerprint, d, act), r);
    }
  }

  lemma ActKeepsPause(fingerprint: Config -> string, d: Desk, act: Act, r: string)
    requires DeskOk(fingerprint, d) && IsPaused(d, r) && !MayUnpause(d, act, r)
    ensures IsPaused(Next(fingerprint, d, act), r)
  {
    if act.Exec? || RunOf(act) != r {
      OtherActKeepsPause(fingerprint, d, act, r);
    } else if OfStep(act, r) {
      var x := d.world.store.orchestrations[r];
      StepIgnoresStored(fingerprint, d, act, r, x);
      assert d.world.store.orchestrations[r := x] == d.world.store.orchestrations;
      assert Over(d, r, x) == d;
    }
  }

  ghost predicate UnpausedAt(fingerprint: Config -> string, d: Desk, acts: seq<Act>, r: string, i: nat) {
    i < |acts| && MayUnpause(Run(fingerprint, d, acts[..i]), acts[i], r)
  }

  /** Over any run: a paused run stays paused until somebody resumes or cancels it or an open step writes its row. */
  lemma {:induction false} PauseLastsUntil(fingerprint: Config -> string, d: Desk, acts: seq<Act>, r: string)
    requires Sound(fingerprint, d) && IsPaused(d, r)
    ensures IsPaused(Run(fingerprint, d, acts), r) || exists i: nat :: UnpausedAt(fingerprint, d, acts, r, i)
    decreases |acts|
  {
    if acts != [] {
      var k := |acts| - 1;
      PauseLastsUntil(fingerprint, d, acts[..k], r);
      if i: nat :| UnpausedAt(fingerprint, d, acts[..k], r, i) {
        assert acts[..k][..i] == acts[..i];
        assert UnpausedAt(fingerprint, d, acts, r, i);
      } else if MayUnpause(Run(fingerprint, d, acts[..k]), acts[k], r) {
        assert UnpausedAt(fingerprint, d, acts, r, k);
      } else {
        RunKeepsSound(fingerprint, d, acts[..k]);
        ActKeepsPause(fingerprint, Run(fingerprint, d, acts[..k]), acts[k], r);
      }
    }
  }

  lemma NoSessionByItself(fingerprint: Config -> string, d: Desk, act: Act, r: string)
    requires r !in d.sessions && act != Begin(r)
    ensures r !in Next(fingerprint, d, act).sessions
  {
  }

  lemma {:induction false} NoSessionWithoutBegin(fingerprint: Config -> string, d: Desk, acts: seq<Act>, r: string)
    requires r !in d.sessions && Begin(r) !in acts
    ensures r !in Run(fingerprint, d, acts).sessions
    decreases |acts|
  {
    if acts != [] {
      var k := |acts| - 1;
      NoSessionWithoutBegin(fingerprint, d, acts[..k], r);
      assert acts[k] != Begin(r);
      NoSessionByItself(fingerprint, Run(fingerprint, d, acts[..k]), acts[k], r);
    }
  }

  /** With no step open and none begun, nothing but a resume or a cancel ends a pause, however others interleave. */
  lemma PauseLastsWithoutSteps(fingerprint: Config -> string, d: Desk, acts: seq<Act>, r: string)
    requires Sound(fingerprint, d) && IsPaused(d, r) && r !in d.sessions
    requires Begin(r) !in acts && Resume(r) !in acts && Cancel(r) !in acts
    ensures IsPaused(Run(fingerprint, d, acts), r)
  {
    PauseLastsUntil(fingerprint, d, acts, r);
    if i: nat :| UnpausedAt(fingerprint, d, acts, r, i) {
      NoSessionWithoutBegin(fingerprint, d, acts[..i], r);
      assert acts[i] in acts;
    }
  }
}
