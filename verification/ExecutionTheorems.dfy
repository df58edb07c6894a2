/** The protocol's promises over every run: one Worker call per experiment, agreeing states,
    budgets that hold, and crashes that stay closed. */
module ExecutionTheorems {
  import opened Common
  import opened BudgetLedger
  import BudgetConsumption
  import opened Records
  import opened ExecutionProtocol
  import opened ExecutionSafety

  // ------------------------------------------------------------ every run

  lemma StepKeepsValid(w: World, step: Step)
    requires Valid(w)
    ensures Valid(Next(w, step)) && Follows(w.store, Next(w, step).store)
  {
    StoreFollowsItself(w.store);
    match step
    case Check(c, e, first) => CheckKeepsValid(w, c, e, first);
    case Authorize(c, cmd, ev, requestId, limitId, first, hook) => AuthorizeKeepsValid(w, c, cmd, ev, requestId, limitId, first, hook);
    case Rebuild(c, a) => RebuildKeepsValid(w, c, a);
    case Dispatch(c) => DispatchKeepsValid(w, c);
    case Invoke(c) => InvokeKeepsValid(w, c);
    case Return(c, inv) => ReturnKeepsValid(w, c, inv);
    case Record(c, persists) => RecordKeepsValid(w, c, persists);
    case Ingest(c, verdict) => IngestKeepsValid(w, c, verdict);
    case MarkFailed(c) => MarkFailedKeepsValid(w, c);
    case Crash(c) => CrashKeepsValid(w, c);
    case Prepare(e, runId, plan) => PrepareKeepsValid(w, e, runId, plan);
    case ChargeElsewhere(record) => ChargeElsewhereKeepsValid(w, record);
  }

  lemma FollowsTransitive(s: Store, t: Store, u: Store)
    requires Follows(s, t) && Follows(t, u)
    ensures Follows(s, u)
  {
    forall a | a in s.attempts ensures a in u.attempts && Succeeds(s.attempts[a], u.attempts[a]) {
      assert Succeeds(s.attempts[a], t.attempts[a]);
    }
  }

  /** The invariant holds after every run; attempts, audits and ledger rows are never lost, and no attempt returns to AUTHORIZED. */
  lemma {:induction false} RunKeepsValid(w: World, steps: seq<Step>)
    requires Valid(w)
    ensures Valid(Run(w, steps)) && Follows(w.store, Run(w, steps).store)
    decreases |steps|
  {
    StoreFollowsItself(w.store);
    if steps != [] {
      var next := Next(w, steps[0]);
      StepKeepsValid(w, steps[0]);
      RunKeepsValid(next, steps[1..]);
      FollowsTransitive(w.store, next.store, Run(next, steps[1..]).store);
    }
  }

  lemma InitialIsValid(w: World)
    requires Initial(w)
    ensures Valid(w)
  {
  }

  // ------------------------------------------- at most one call, joint state

  /** Over every interleaving and every crash point, an experiment reaches the Worker at most once. */
  lemma {:induction false} AtMostOneWorkerCall(w: World, steps: seq<Step>, i: nat, j: nat)
    requires Initial(w)
    requires var log := Run(w, steps).workerCalls;
             i < |log| && j < |log| && log[i].experimentId == log[j].experimentId
    ensures i == j
  {
    InitialIsValid(w);
    RunKeepsValid(w, steps);
    CallsAreOnDistinctExperiments(Run(w, steps), i, j);
  }

  lemma CallsAreOnDistinctExperiments(w: World, i: nat, j: nat)
    requires Valid(w) && i < |w.workerCalls| && j < |w.workerCalls|
    requires w.workerCalls[i].experimentId == w.workerCalls[j].experimentId
    ensures i == j
  {
    assert WorkerCallOk(w.store, w.workerCalls[i]) && WorkerCallOk(w.store, w.workerCalls[j]);
    AttemptIdInjective(w.workerCalls[i].requestId, w.workerCalls[j].requestId);
  }

  /** In every reachable store: attempt and experiment state agree, attempts rest on an ALLOW audit,
      no experiment has two attempts, and each Worker call's attempt left AUTHORIZED for good. */
  lemma {:induction false} JointStateInvariant(w: World, steps: seq<Step>)
    requires Initial(w)
    ensures var s := Run(w, steps).store;
            && (forall a :: a in s.attempts ==>
                  && s.attempts[a].experimentId in s.experiments
                  && Paired(s.attempts[a].state, s.experiments[s.attempts[a].experimentId].state)
                  && s.attempts[a].auditId in s.audits
                  && s.audits[s.attempts[a].auditId] == ExecutionDecision(s.attempts[a].experimentId, s.attempts[a].requestId, Allow))
            && (forall a, b :: a in s.attempts && b in s.attempts && s.attempts[a].experimentId == s.attempts[b].experimentId ==> a == b)
            && (forall e :: e in s.experiments && AttemptsOf(s, e) == {} ==> Unattempted(s.experiments[e].state))
            && (forall i :: 0 <= i < |Run(w, steps).workerCalls| ==>
                  var call := Run(w, steps).workerCalls[i];
                  AttemptId(call.requestId) in s.attempts && s.attempts[AttemptId(call.requestId)].state != Authorized)
  {
    InitialIsValid(w);
    RunKeepsValid(w, steps);
    var after := Run(w, steps);
    forall i | 0 <= i < |after.workerCalls|
      ensures AttemptId(after.workerCalls[i].requestId) in after.store.attempts
      ensures after.store.attempts[AttemptId(after.workerCalls[i].requestId)].state != Authorized
    {
      assert WorkerCallOk(after.store, after.workerCalls[i]);
    }
  }

  // ----------------------------------------------------------------- budget

  function OnBudget(log: seq<WorkerCall>, b: string): seq<WorkerCall> {
    if log == [] then []
    else OnBudget(log[..|log| - 1], b) + if log[|log| - 1].budgetId == b then [log[|log| - 1]] else []
  }

  function Weight(call: WorkerCall): nat {
    if call.cap.Some? then call.cap.value else 1
  }

  /** Requests handed out: the cap of each browser call, one for every other call. */
  function HandedOut(calls: seq<WorkerCall>): seq<nat> {
    seq(|calls|, i requires 0 <= i < |calls| => Weight(calls[i]))
  }

  lemma LogPrefix(s: Store, log: seq<WorkerCall>)
    requires LogOk(s, log) && log != []
    ensures LogOk(s, log[..|log| - 1])
  {
    var shorter := log[..|log| - 1];
    forall i | 0 <= i < |shorter| ensures WorkerCallOk(s, shorter[i]) { assert shorter[i] == log[i]; }
  }

  lemma {:induction false} OnBudgetKeepsLog(s: Store, log: seq<WorkerCall>, b: string)
    requires LogOk(s, log)
    ensures LogOk(s, OnBudget(log, b))
    ensures forall i :: 0 <= i < |OnBudget(log, b)| ==> OnBudget(log, b)[i].budgetId == b && OnBudget(log, b)[i] in log
  {
    if log != [] {
      var shorter := log[..|log| - 1];
      LogPrefix(s, log);
      OnBudgetKeepsLog(s, shorter, b);
      assert WorkerCallOk(s, log[|log| - 1]);
      forall i | 0 <= i < |OnBudget(shorter, b)|
        ensures OnBudget(shorter, b)[i].requestId != log[|log| - 1].requestId
      {
        var j :| 0 <= j < |shorter| && shorter[j] == OnBudget(shorter, b)[i];
        assert log[j] == shorter[j];
      }
    }
  }

  lemma LogWithinLedger(s: Store, calls: seq<WorkerCall>, b: string)
    requires LedgerOk(s.env, s.ledger) && LogOk(s, calls)
    requires forall i :: 0 <= i < |calls| ==> calls[i].budgetId == b
    ensures |calls| <= Used(s.ledger, b, WorkerInvocation)
    ensures |calls| <= Used(s.ledger, b, Request)
    ensures Sum(HandedOut(calls)) <= Used(s.ledger, b, Request)
  {
    var ids := seq(|calls|, i requires 0 <= i < |calls| => calls[i].requestId);
    var ones: seq<nat> := seq(|calls|, i => 1);
    forall i | 0 <= i < |calls|
      ensures HoldsAtLeast(s.ledger, b, WorkerInvocation, ids[i], 1)
      ensures HoldsAtLeast(s.ledger, b, Request, ids[i], HandedOut(calls)[i]) && HoldsAtLeast(s.ledger, b, Request, ids[i], 1)
    {
      assert WorkerCallOk(s, calls[i]);
    }
    SumOfOnes(ones);
    DistinctChargesBoundedByUsed(s.ledger, b, WorkerInvocation, ids, ones);
    DistinctChargesBoundedByUsed(s.ledger, b, Request, ids, ones);
    DistinctChargesBoundedByUsed(s.ledger, b, Request, ids, HandedOut(calls));
  }

  /** Over every run and every budget: charges stay within the envelope, Worker calls never outnumber the
      committed invocation charges, and the request caps handed to Workers never sum past max_requests. */
  lemma {:induction false} BudgetSafety(w: World, steps: seq<Step>, b: string)
    requires Initial(w) && b in w.store.env.budgets
    ensures var (s, calls) := (Run(w, steps).store, OnBudget(Run(w, steps).workerCalls, b));
            var issued := w.store.env.budgets[b];
            && |calls| <= Used(s.ledger, b, WorkerInvocation) <= issued.maxToolCalls
            && |calls| <= Used(s.ledger, b, Request) <= issued.maxRequests
            && Sum(HandedOut(calls)) <= Used(s.ledger, b, Request)
  {
    InitialIsValid(w);
    RunKeepsValid(w, steps);
    var s := Run(w, steps).store;
    OnBudgetKeepsLog(s, Run(w, steps).workerCalls, b);
    LogWithinLedger(s, OnBudget(Run(w, steps).workerCalls, b), b);
    assert Allowance(s.env, b, WorkerInvocation).Some? && Allowance(s.env, b, Request).Some?;
  }

  /** Zero is no allowance: a budget without tool calls, or without requests, never reaches a Worker. */
  lemma {:induction false} ZeroBudgetNeverCalls(w: World, steps: seq<Step>, b: string)
    requires Initial(w) && b in w.store.env.budgets
    requires w.store.env.budgets[b].maxToolCalls == 0 || w.store.env.budgets[b].maxRequests == 0
    ensures OnBudget(Run(w, steps).workerCalls, b) == []
  {
    BudgetSafety(w, steps, b);
  }

  lemma InsertOverspendsIff(env: Envelopes, rows: seq<Row>, row: Row, requestId: string)
    requires row.requestId == Some(requestId) && Uncharged(rows, requestId, row.resource)
    requires row.budgetId in env.budgets && env.budgets[row.budgetId].runId == row.runId && row.amount > 0
    requires row.resource == WorkerInvocation || row.resource == Request
    ensures var allowed := Allowance(env, row.budgetId, row.resource).value;
            InsertWithinAllowance(env, rows, row).0
            == if Used(rows, row.budgetId, row.resource) + row.amount > allowed then Overspend else Inserted
  {
    assert !HasRow(rows, row.budgetId, row.requestId, row.resource);
  }

  lemma ReserveOverspendsIff(s: Store, attempt: Attempt)
    requires LedgerOk(s.env, s.ledger)
    requires attempt.budgetId in s.env.budgets && s.env.budgets[attempt.budgetId].runId == Some(attempt.runId)
    requires Uncharged(s.ledger, attempt.requestId, WorkerInvocation) && Uncharged(s.ledger, attempt.requestId, Request)
    ensures var issued := s.env.budgets[attempt.budgetId];
            Reserve(s, attempt).0
            == if Used(s.ledger, attempt.budgetId, WorkerInvocation) >= issued.maxToolCalls
                  || Used(s.ledger, attempt.budgetId, Request) >= issued.maxRequests
               then Overspend else Inserted
  {
    var first := Charge(attempt, WorkerInvocation, 1);
    var amount := RequestAmount(s, attempt);
    InsertOverspendsIff(s.env, s.ledger, first, attempt.requestId);
    UnchargedInsert(s.env, s.ledger, first, attempt.requestId);
    UsedAppend(s.ledger, first, attempt.budgetId, Request);
    if amount.Some? {
      InsertOverspendsIff(s.env, InsertWithinAllowance(s.env, s.ledger, first).1, Charge(attempt, Request, amount.value), attempt.requestId);
    }
  }

  /** Dispatch answers BUDGET_EXHAUSTED exactly when no tool call or no request is left. It then rolls
      everything back: the stored experiment is still READY and its attempt AUTHORIZED, whatever was reported. */
  lemma OverspendRollsBack(s: Store, h: Handle)
    requires StoreOk(s) && HandleOk(s, h) && StateOf(s, h) == Authorized
    requires var attempt := s.attempts[h.attemptId];
             attempt.budgetId in s.env.budgets && s.env.budgets[attempt.budgetId].runId == Some(attempt.runId)
    ensures var attempt := s.attempts[h.attemptId];
            var issued := s.env.budgets[attempt.budgetId];
            && DispatchTx(s, h).1 != DispatchRaised
            && (DispatchTx(s, h).1 == Refusal(Answer(DispatchDenied, Some(BudgetExhausted)))
                <==> Used(s.ledger, attempt.budgetId, WorkerInvocation) >= issued.maxToolCalls
                     || Used(s.ledger, attempt.budgetId, Request) >= issued.maxRequests)
            && (DispatchTx(s, h).1.Refusal? ==>
                  DispatchTx(s, h).0 == s && s.experiments[h.experimentId].state == Ready)
  {
    ReserveOverspendsIff(s, s.attempts[h.attemptId]);
  }

  // ------------------------------------------------------------ crash safety

  predicate Owns(call: Call, a: string) {
    call.Live() && call.handle.attemptId == a
  }

  /** No running call owns the attempt: whoever dispatched it is gone. */
  ghost predicate Orphaned(w: World, a: string) {
    forall c :: c in w.calls ==> !Owns(w.calls[c], a)
  }

  ghost predicate Abandoned(w: World, a: string) {
    a in w.store.attempts && w.store.attempts[a].state in {Dispatching, UnknownOutcome} && Orphaned(w, a)
  }

  /** What an unowned, dispatched attempt can see of one step: itself marked unknown, at most. */
  ghost predicate LeavesAlone(w: World, after: World, a: string) {
    && a in w.store.attempts && a in after.store.attempts && Orphaned(after, a)
    && var (s, t) := (w.store.attempts[a].state, after.store.attempts[a].state);
       t == s || (s == Dispatching && t == UnknownOutcome)
  }

  ghost predicate Unowned(w: World, a: string) {
    a in w.store.attempts && w.store.attempts[a].state != Authorized && Orphaned(w, a)
  }

  lemma CheckLeavesAlone(w: World, c: nat, e: string, first: string, a: string)
    requires Unowned(w, a)
    ensures LeavesAlone(w, Next(w, Check(c, e, first)), a)
  {
    if MayBeFirst(w.store, e, first) {
      CheckOnlyMarks(w.store, e, first);
    }
  }

  lemma AuthorizeLeavesAlone(
    w: World, c: nat, cmd: Command, ev: Evaluation, requestId: string, limitId: string, first: string, hook: Option<Orchestration>, a: string)
    requires Unowned(w, a)
    ensures LeavesAlone(w, Next(w, Authorize(c, cmd, ev, requestId, limitId, first, hook)), a)
  {
    if FreshIds(w.store, requestId, limitId) && MayBeFirst(w.store, cmd.experimentId, first) {
      AuthorizeGrantsOnceOrDeclines(w.store, cmd, ev, requestId, limitId, first, hook);
    }
  }

  lemma DispatchLeavesAlone(w: World, c: nat, a: string)
    requires Valid(w) && Unowned(w, a)
    ensures LeavesAlone(w, Next(w, Dispatch(c)), a)
  {
    if c in w.calls && w.calls[c].Holding? {
      assert CallOk(w.store, w.calls[c]);
      DispatchClaimsOrMarks(w.store, w.calls[c].handle);
    }
  }

  lemma RecordLeavesAlone(w: World, c: nat, persists: bool, a: string)
    requires Unowned(w, a)
    ensures LeavesAlone(w, Next(w, ExecutionProtocol.Record(c, persists)), a)
  {
    assert c in w.calls ==> !Owns(w.calls[c], a);
  }

  lemma MarkFailedLeavesAlone(w: World, c: nat, a: string)
    requires Unowned(w, a)
    ensures LeavesAlone(w, Next(w, MarkFailed(c)), a)
  {
    assert c in w.calls ==> !Owns(w.calls[c], a);
  }

  lemma OtherStepLeavesAlone(w: World, step: Step, a: string)
    requires Unowned(w, a) && (step.Rebuild? || step.Crash? || step.Prepare? || step.ChargeElsewhere?)
    ensures LeavesAlone(w, Next(w, step), a)
  {
  }

  lemma StepLeavesAlone(w: World, step: Step, a: string)
    requires Valid(w) && Unowned(w, a)
    ensures LeavesAlone(w, Next(w, step), a)
  {
    match step
    case Check(c, e, first) => CheckLeavesAlone(w, c, e, first, a);
    case Authorize(c, cmd, ev, requestId, limitId, first, hook) => AuthorizeLeavesAlone(w, c, cmd, ev, requestId, limitId, first, hook, a);
    case Rebuild(c, b) => OtherStepLeavesAlone(w, Rebuild(c, b), a);
    case Dispatch(c) => DispatchLeavesAlone(w, c, a);
    case Invoke(c) => InvokeLeavesAlone(w, c, a);
    case Return(c, inv) => ReturnLeavesAlone(w, c, inv, a);
    case Record(c, persists) => RecordLeavesAlone(w, c, persists, a);
    case Ingest(c, verdict) => IngestLeavesAlone(w, c, verdict, a);
    case MarkFailed(c) => MarkFailedLeavesAlone(w, c, a);
    case Crash(c) => OtherStepLeavesAlone(w, Crash(c), a);
    case Prepare(e, runId, plan) => OtherStepLeavesAlone(w, Prepare(e, runId, plan), a);
    case ChargeElsewhere(record) => OtherStepLeavesAlone(w, ChargeElsewhere(record), a);
  }

  lemma InvokeLeavesAlone(w: World, c: nat, a: string)
    requires Unowned(w, a)
    ensures LeavesAlone(w, Next(w, Invoke(c)), a)
  {
    assert c in w.calls ==> !Owns(w.calls[c], a);
  }

  lemma ReturnLeavesAlone(w: World, c: nat, inv: Invocation, a: string)
    requires Unowned(w, a)
    ensures LeavesAlone(w, Next(w, Return(c, inv)), a)
  {
    assert c in w.calls ==> !Owns(w.calls[c], a);
  }

  lemma IngestLeavesAlone(w: World, c: nat, verdict: IngestVerdict, a: string)
    requires Unowned(w, a)
    ensures LeavesAlone(w, Next(w, Ingest(c, verdict)), a)
  {
    assert c in w.calls ==> !Owns(w.calls[c], a);
  }

  predicate CallsWorkerFor(calls: seq<WorkerCall>, a: string) {
    exists i :: 0 <= i < |calls| && AttemptId(calls[i].requestId) == a
  }

  /** A step calls the Worker for an attempt only through the call that owns it. */
  lemma OnlyOwnersCallWorkers(w: World, step: Step, a: string)
    requires Valid(w) && Orphaned(w, a)
    ensures w.workerCalls <= Next(w, step).workerCalls
    ensures !CallsWorkerFor(Next(w, step).workerCalls[|w.workerCalls|..], a)
  {
    if step.Invoke? && step.c in w.calls && w.calls[step.c].Cleared? {
      assert CallOk(w.store, w.calls[step.c]) && !Owns(w.calls[step.c], a);
    }
  }

  lemma NoCallsInEitherPart(first: seq<WorkerCall>, second: seq<WorkerCall>, third: seq<WorkerCall>, a: string)
    requires first <= second <= third
    requires !CallsWorkerFor(second[|first|..], a) && !CallsWorkerFor(third[|second|..], a)
    ensures !CallsWorkerFor(third[|first|..], a)
  {
    assert third[|first|..] == second[|first|..] + third[|second|..];
  }

  lemma {:induction false} AbandonedStays(w: World, steps: seq<Step>, a: string)
    requires Valid(w) && Abandoned(w, a)
    ensures var after := Run(w, steps);
            && Abandoned(after, a)
            && (w.store.attempts[a].state == UnknownOutcome ==> after.store.attempts[a].state == UnknownOutcome)
            && w.workerCalls <= after.workerCalls && !CallsWorkerFor(after.workerCalls[|w.workerCalls|..], a)
    decreases |steps|
  {
    if steps != [] {
      var next := Next(w, steps[0]);
      StepKeepsValid(w, steps[0]);
      StepLeavesAlone(w, steps[0], a);
      OnlyOwnersCallWorkers(w, steps[0], a);
      AbandonedStays(next, steps[1..], a);
      NoCallsInEitherPart(w.workerCalls, next.workerCalls, Run(next, steps[1..]).workerCalls, a);
    }
  }

  /** After the owner of a dispatched attempt died, no run of any length calls the Worker for it again or
      moves it anywhere but UNKNOWN_OUTCOME, its experiment stays RUNNING, and UNKNOWN_OUTCOME is final. */
  lemma {:induction false} CrashStaysClosed(w: World, steps: seq<Step>, a: string)
    requires Valid(w) && Abandoned(w, a)
    ensures var after := Run(w, steps);
            && Abandoned(after, a)
            && (w.store.attempts[a].state == UnknownOutcome ==> after.store.attempts[a].state == UnknownOutcome)
            && after.store.attempts[a].experimentId in after.store.experiments
            && after.store.experiments[after.store.attempts[a].experimentId].state == Running
            && w.workerCalls <= after.workerCalls && !CallsWorkerFor(after.workerCalls[|w.workerCalls|..], a)
  {
    AbandonedStays(w, steps, a);
    RunKeepsValid(w, steps);
  }

  /** The first execute that finds a DISPATCHING attempt moves it to UNKNOWN_OUTCOME and goes no further. */
  lemma NextExecuteMarksUnknown(w: World, c: nat, a: string, first: string)
    requires Valid(w) && c !in w.calls
    requires a in w.store.attempts && w.store.attempts[a].state == Dispatching
    requires MayBeFirst(w.store, w.store.attempts[a].experimentId, first)
    ensures var e := w.store.attempts[a].experimentId;
            var after := Next(w, Check(c, e, first));
            && CheckTx(w.store, e, first).1 == Some(Answer(OutcomeUnknown, Some(Running)))
            && after.store == SetAttempt(w.store, a, UnknownOutcome)
            && after.calls == w.calls && after.workerCalls == w.workerCalls
  {
    OnlyAttempt(w.store, a);
  }

  ghost predicate StillUnknown(after: World, a: string) {
    a in after.store.attempts && after.store.attempts[a].state == UnknownOutcome
  }

  lemma CheckKeepsUnknown(w: World, c: nat, e: string, first: string, a: string)
    requires StillUnknown(w, a)
    ensures StillUnknown(Next(w, Check(c, e, first)), a)
  {
    if MayBeFirst(w.store, e, first) {
      CheckOnlyMarks(w.store, e, first);
    }
  }

  lemma AuthorizeKeepsUnknown(
    w: World, c: nat, cmd: Command, ev: Evaluation, requestId: string, limitId: string, first: string, hook: Option<Orchestration>, a: string)
    requires StillUnknown(w, a)
    ensures StillUnknown(Next(w, Authorize(c, cmd, ev, requestId, limitId, first, hook)), a)
  {
    if FreshIds(w.store, requestId, limitId) && MayBeFirst(w.store, cmd.experimentId, first) {
      AuthorizeGrantsOnceOrDeclines(w.store, cmd, ev, requestId, limitId, first, hook);
    }
  }

  lemma ClaimOrMarkKeepsUnknown(s: Store, t: Store, a: string, b: string, cap: Option<nat>, claimed: bool)
    requires a in s.attempts && s.attempts[a].state == UnknownOutcome
    requires if claimed then Claims(s, t, b, cap) else OnlyMarks(s, t, true)
    ensures a in t.attempts && t.attempts[a].state == UnknownOutcome
  {
  }

  lemma DispatchKeepsUnknown(w: World, c: nat, a: string)
    requires Valid(w) && StillUnknown(w, a)
    ensures StillUnknown(Next(w, Dispatch(c)), a)
  {
    if c in w.calls && w.calls[c].Holding? {
      var h := w.calls[c].handle;
      assert CallOk(w.store, w.calls[c]);
      DispatchClaimsOrMarks(w.store, h);
      var (t, result) := DispatchTx(w.store, h);
      ClaimOrMarkKeepsUnknown(w.store, t, a, h.attemptId, if result.Go? then result.cap else None, result.Go?);
    }
  }

  lemma MarkFailedKeepsUnknown(w: World, c: nat, a: string)
    requires PositionsOk(w.store, w.calls) && StillUnknown(w, a)
    ensures StillUnknown(Next(w, MarkFailed(c)), a)
  {
    assert c in w.calls ==> CallOk(w.store, w.calls[c]);
  }

  lemma IngestKeepsUnknown(w: World, c: nat, verdict: IngestVerdict, a: string)
    requires StillUnknown(w, a)
    ensures StillUnknown(Next(w, Ingest(c, verdict)), a)
  {
  }

  predicate WritesLateOutcome(w: World, step: Step, a: string) {
    && step.Record? && step.persists && step.c in w.calls && w.calls[step.c].Returned?
    && w.calls[step.c].handle.attemptId == a && Classify(w.calls[step.c].inv).0 != UnknownOutcome
  }

  lemma RecordLeavesUnknownIff(w: World, c: nat, persists: bool, a: string)
    requires PositionsOk(w.store, w.calls) && AttemptsOk(w.store) && StillUnknown(w, a)
    ensures StillUnknown(Next(w, ExecutionProtocol.Record(c, persists)), a)
      <==> !WritesLateOutcome(w, ExecutionProtocol.Record(c, persists), a)
  {
    assert c in w.calls ==> CallOk(w.store, w.calls[c]);
  }

  lemma OtherStepKeepsUnknown(w: World, step: Step, a: string)
    requires StillUnknown(w, a)
    requires step.Rebuild? || step.Invoke? || step.Return? || step.Crash? || step.Prepare? || step.ChargeElsewhere?
    ensures StillUnknown(Next(w, step), a)
  {
  }

  /** UNKNOWN_OUTCOME is left by exactly one kind of step: the late outcome write of a call that still owns the attempt. */
  lemma UnknownIsLeftIff(w: World, step: Step, a: string)
    requires Valid(w) && StillUnknown(w, a)
    ensures StillUnknown(Next(w, step), a) <==> !WritesLateOutcome(w, step, a)
  {
    match step
    case Check(c, e, first) => CheckKeepsUnknown(w, c, e, first, a);
    case Authorize(c, cmd, ev, requestId, limitId, first, hook) => AuthorizeKeepsUnknown(w, c, cmd, ev, requestId, limitId, first, hook, a);
    case Dispatch(c) => DispatchKeepsUnknown(w, c, a);
    case Record(c, persists) => RecordLeavesUnknownIff(w, c, persists, a);
    case MarkFailed(c) => MarkFailedKeepsUnknown(w, c, a);
    case Rebuild(c, b) => OtherStepKeepsUnknown(w, Rebuild(c, b), a);
    case Invoke(c) => OtherStepKeepsUnknown(w, Invoke(c), a);
    case Return(c, inv) => OtherStepKeepsUnknown(w, Return(c, inv), a);
    case Ingest(c, verdict) => IngestKeepsUnknown(w, c, verdict, a);
    case Crash(c) => OtherStepKeepsUnknown(w, Crash(c), a);
    case Prepare(e, runId, plan) => OtherStepKeepsUnknown(w, Prepare(e, runId, plan), a);
    case ChargeElsewhere(record) => OtherStepKeepsUnknown(w, ChargeElsewhere(record), a);
  }

  lemma CalledAndAnswered(w: World, c: nat, d: nat, inv: Invocation)
    requires Valid(w) && c in w.calls && w.calls[c].Cleared? && d !in w.calls && HandleOk(w.store, w.calls[c].handle)
    ensures var returned := Next(Next(w, Invoke(c)), Return(c, inv));
            && Valid(returned) && returned.store == w.store && d !in returned.calls
            && c in returned.calls && returned.calls[c] == Returned(w.calls[c].handle, inv)
  {
    InvokeKeepsValid(w, c);
    ReturnKeepsValid(Next(w, Invoke(c)), c, inv);
  }

  /** A slow Worker beats the fail-closed mark: the attempt is marked unknown while its call is in flight,
      and the call's outcome is then recorded over the mark. */
  lemma LateOutcomeOverwritesMark(w: World, c: nat, d: nat, inv: Invocation)
    requires Valid(w) && c in w.calls && w.calls[c].Cleared? && d !in w.calls
    requires HandleOk(w.store, w.calls[c].handle) && StateOf(w.store, w.calls[c].handle) == Dispatching
    requires Classify(inv).0 != UnknownOutcome
    ensures var h := w.calls[c].handle;
            var marked := Next(Next(Next(w, Invoke(c)), Return(c, inv)), Check(d, h.experimentId, h.attemptId));
            StillUnknown(marked, h.attemptId) && !StillUnknown(Next(marked, ExecutionProtocol.Record(c, true)), h.attemptId)
  {
    var h := w.calls[c].handle;
    var invoked := Next(w, Invoke(c));
    var returned := Next(invoked, Return(c, inv));
    var marked := Next(returned, Check(d, h.experimentId, h.attemptId));
    CalledAndAnswered(w, c, d, inv);
    NextExecuteMarksUnknown(returned, d, h.attemptId, h.attemptId);
    CheckKeepsValid(returned, d, h.experimentId, h.attemptId);
    RecordLeavesUnknownIff(marked, c, true, h.attemptId);
  }

  // ------------------------------------------------------------- the stored plan

  predicate PlanKept(s: Store, t: Store, e: string) {
    e in s.plans && e in s.experiments ==> e in t.plans && t.plans[e] == s.plans[e] && e in t.experiments
  }

  lemma DecideKeepsPlan(
    s: Store, cmd: Command, ev: Evaluation, requestId: string, limitId: string, hook: Option<Orchestration>, e: string)
    requires MayExecute(s, cmd)
    ensures PlanKept(s, DecideTx(s, cmd, ev, requestId, limitId, hook).0, e)
    ensures var (t, result) := DecideTx(s, cmd, ev, requestId, limitId, hook);
            result.Granted? ==> cmd.experimentId in t.plans && t.plans[cmd.experimentId] == cmd.plan
  {
  }

  lemma AuthorizeKeepsPlan(
    s: Store, cmd: Command, ev: Evaluation, requestId: string, limitId: string, first: string, hook: Option<Orchestration>, e: string)
    requires MayBeFirst(s, cmd.experimentId, first)
    ensures PlanKept(s, AuthorizeTx(s, cmd, ev, requestId, limitId, first, hook).0, e)
    ensures var (t, result) := AuthorizeTx(s, cmd, ev, requestId, limitId, first, hook);
            result.Granted? ==> cmd.experimentId in t.plans && t.plans[cmd.experimentId] == cmd.plan
  {
    if ContextProblem(s, cmd).None? {
      DecideKeepsPlan(s, cmd, ev, requestId, limitId, hook, e);
    }
  }

  lemma DispatchKeepsPlan(s: Store, h: Handle, e: string)
    ensures PlanKept(s, DispatchTx(s, h).0, e)
  {
  }

  lemma RecordKeepsPlan(w: World, c: nat, persists: bool, e: string)
    ensures PlanKept(w.store, Next(w, ExecutionProtocol.Record(c, persists)).store, e)
  {
  }

  lemma StepKeepsPlan(w: World, step: Step, e: string)
    ensures PlanKept(w.store, Next(w, step).store, e)
  {
    match step
    case Authorize(c, cmd, ev, requestId, limitId, first, hook) =>
      if MayBeFirst(w.store, cmd.experimentId, first) {
        AuthorizeKeepsPlan(w.store, cmd, ev, requestId, limitId, first, hook, e);
      }
    case Dispatch(c) =>
      if c in w.calls && w.calls[c].Holding? { DispatchKeepsPlan(w.store, w.calls[c].handle, e); }
    case Record(c, persists) => RecordKeepsPlan(w, c, persists, e);
    case _ =>
  }

  lemma {:induction false} RunKeepsPlan(w: World, steps: seq<Step>, e: string)
    ensures PlanKept(w.store, Run(w, steps).store, e)
    decreases |steps|
  {
    if steps != [] {
      StepKeepsPlan(w, steps[0], e);
      RunKeepsPlan(Next(w, steps[0]), steps[1..], e);
    }
  }

  /** The plan that authorize stores binds for good: over every continuation it is unchanged, and authorizing any
      other plan for the experiment is refused without a write, whatever everybody else answers. */
  lemma StoredPlanBinds(
    w: World, steps: seq<Step>, cmd: Command, ev: Evaluation, requestId: string, limitId: string, first: string,
    hook: Option<Orchestration>)
    requires var (e, s) := (cmd.experimentId, w.store);
             e in s.plans && e in s.experiments && s.plans[e] != cmd.plan
    requires MayBeFirst(Run(w, steps).store, cmd.experimentId, first)
    ensures var t := Run(w, steps).store;
            && cmd.experimentId in t.plans && t.plans[cmd.experimentId] == w.store.plans[cmd.experimentId]
            && var (after, result) := AuthorizeTx(t, cmd, ev, requestId, limitId, first, hook);
               after == t && result.Answered? && result.answer.status in {InputRejected, AlreadyTerminal}
  {
    RunKeepsPlan(w, steps, cmd.experimentId);
  }
}
