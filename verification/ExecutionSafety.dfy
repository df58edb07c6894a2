/** What every interleaving of calls, crashes and other writers keeps. */
module ExecutionSafety {
  import opened Common
  import opened BudgetLedger
  import BudgetConsumption
  import opened Records
  import opened ExecutionProtocol

  // -------------------------------------------------------------- invariant

  /** Attempt rows sit under their own id, name their experiment, and never share it. */
  ghost predicate AttemptsOk(s: Store) {
    && (forall a :: a in s.attempts ==> a == AttemptId(s.attempts[a].requestId) && s.attempts[a].experimentId in s.experiments)
    && (forall a, b :: a in s.attempts && b in s.attempts && s.attempts[a].experimentId == s.attempts[b].experimentId ==> a == b)
  }

  /** Every attempt names a committed audit row whose decision is ALLOW, for its own request. */
  ghost predicate AuditsOk(s: Store) {
    forall a :: a in s.attempts ==>
      && s.attempts[a].auditId in s.audits
      && s.audits[s.attempts[a].auditId] == ExecutionDecision(s.attempts[a].experimentId, s.attempts[a].requestId, Allow)
  }

  predicate Paired(a: AttemptState, x: ExperimentState) {
    match a
    case Authorized => x == Ready
    case Dispatching => x == Running
    case UnknownOutcome => x == Running
    case Completed => x in {ExecutionSucceeded, AuthorizationCheck, BudgetExhausted}
    case Failed => x == ExecutionFailed
    case TimedOut => x == ExecutionFailed
    case Cancelled => x == CancelledExperiment
  }

  predicate Unattempted(x: ExperimentState) {
    x in {Planned, AuthorizationCheck, Blocked, BudgetExhausted}
  }

  /** The attempt state and the experiment state always agree. */
  ghost predicate StatesOk(s: Store) {
    && (forall a :: a in s.attempts && s.attempts[a].experimentId in s.experiments ==>
          Paired(s.attempts[a].state, s.experiments[s.attempts[a].experimentId].state))
    && (forall e :: e in s.experiments ==> AttemptsOf(s, e) == {} ==> Unattempted(s.experiments[e].state))
  }

  predicate HandleOk(s: Store, h: Handle) {
    h.attemptId in s.attempts && s.attempts[h.attemptId].experimentId == h.experimentId
  }

  function StateOf(s: Store, h: Handle): AttemptState
    requires HandleOk(s, h)
  {
    s.attempts[h.attemptId].state
  }

  predicate CallOk(s: Store, call: Call) {
    match call
    case Checked(e) => true
    case Holding(h) => HandleOk(s, h)
    case Cleared(h, _) => HandleOk(s, h) && StateOf(s, h) in {Dispatching, UnknownOutcome}
    case InFlight(h) => HandleOk(s, h) && StateOf(s, h) in {Dispatching, UnknownOutcome}
    case Returned(h, _) => HandleOk(s, h) && StateOf(s, h) in {Dispatching, UnknownOutcome}
    case Recorded(h, _) => HandleOk(s, h) && StateOf(s, h) == Completed
    case Unusable(h) => HandleOk(s, h) && StateOf(s, h) == Completed
  }

  ghost predicate PositionsOk(s: Store, calls: map<nat, Call>) {
    forall c :: c in calls ==> CallOk(s, calls[c])
  }

  predicate SameOwner(a: Call, b: Call) {
    a.Live() && b.Live() && a.handle.attemptId == b.handle.attemptId
  }

  /** No two live calls own the same attempt. */
  ghost predicate OwnersOk(calls: map<nat, Call>) {
    forall c, d :: c in calls && d in calls && c != d ==> !SameOwner(calls[c], calls[d])
  }

  ghost predicate Reserved(s: Store, budgetId: string, requestId: string, cap: Option<nat>) {
    && HoldsAtLeast(s.ledger, budgetId, WorkerInvocation, requestId, 1)
    && HoldsAtLeast(s.ledger, budgetId, Request, requestId, if cap.Some? then cap.value else 1)
  }

  /** A Worker call used up its own dispatched attempt and its own reservations. */
  ghost predicate WorkerCallOk(s: Store, w: WorkerCall) {
    var a := AttemptId(w.requestId);
    && a in s.attempts && s.attempts[a].state != Authorized
    && s.attempts[a].experimentId == w.experimentId && s.attempts[a].budgetId == w.budgetId
    && Reserved(s, w.budgetId, w.requestId, w.cap)
  }

  ghost predicate LogOk(s: Store, log: seq<WorkerCall>) {
    && (forall i :: 0 <= i < |log| ==> WorkerCallOk(s, log[i]))
    && (forall i, j :: 0 <= i < j < |log| ==> log[i].requestId != log[j].requestId)
  }

  predicate InLog(log: seq<WorkerCall>, requestId: string) {
    exists i :: 0 <= i < |log| && log[i].requestId == requestId
  }

  /** A cleared call holds its reservations and has not reached the Worker yet. */
  ghost predicate ClearedCallOk(s: Store, call: Call, log: seq<WorkerCall>) {
    call.Cleared? && call.handle.attemptId in s.attempts ==>
      var attempt := s.attempts[call.handle.attemptId];
      Reserved(s, attempt.budgetId, attempt.requestId, call.cap) && !InLog(log, attempt.requestId)
  }

  ghost predicate ClearedOk(s: Store, calls: map<nat, Call>, log: seq<WorkerCall>) {
    forall c :: c in calls ==> ClearedCallOk(s, calls[c], log)
  }

  /** An attempt that was never dispatched has nothing on the ledger. */
  ghost predicate UndispatchedUncharged(s: Store) {
    forall a, i :: a in s.attempts && s.attempts[a].state == Authorized && 0 <= i < |s.ledger| ==>
      s.ledger[i].resource in {WorkerInvocation, Request} ==> s.ledger[i].requestId != Some(s.attempts[a].requestId)
  }

  ghost predicate StoreOk(s: Store) {
    AttemptsOk(s) && AuditsOk(s) && StatesOk(s) && LedgerOk(s.env, s.ledger) && UndispatchedUncharged(s)
  }

  ghost predicate Valid(w: World) {
    && StoreOk(w.store)
    && PositionsOk(w.store, w.calls) && OwnersOk(w.calls)
    && LogOk(w.store, w.workerCalls) && ClearedOk(w.store, w.calls, w.workerCalls)
  }

  /** No call is running, nothing was attempted yet, and the ledger is sound. */
  ghost predicate Initial(w: World) {
    && w.calls == map[] && w.workerCalls == [] && w.store.attempts == map[]
    && (forall e :: e in w.store.experiments ==> Unattempted(w.store.experiments[e].state))
    && LedgerOk(w.store.env, w.store.ledger)
  }

  // ------------------------------------------------------- small step facts

  lemma AttemptIdInjective(r: string, q: string)
    requires AttemptId(r) == AttemptId(q)
    ensures r == q
  {
    assert r == AttemptId(r)[3..] && q == AttemptId(q)[3..];
  }

  lemma OnlyAttempt(s: Store, a: string)
    requires AttemptsOk(s) && a in s.attempts
    ensures AttemptsOf(s, s.attempts[a].experimentId) == {a}
  {
    assert a in AttemptsOf(s, s.attempts[a].experimentId);
  }

  lemma LongerLedgerHolds(rows: seq<Row>, more: seq<Row>, budgetId: string, resource: Resource, request: string, weight: nat)
    requires rows <= more && HoldsAtLeast(rows, budgetId, resource, request, weight)
    ensures HoldsAtLeast(more, budgetId, resource, request, weight)
  {
    var i :| 0 <= i < |rows| && Charges(rows[i], budgetId, resource) && rows[i].requestId == Some(request) && weight <= rows[i].amount;
    assert more[i] == rows[i];
  }

  /** From one committed store to a later one: attempts keep their identity, none goes back to
      AUTHORIZED, audits stay, and the ledger only grows. */
  ghost predicate Follows(s: Store, t: Store) {
    && s.env == t.env && s.ledger <= t.ledger
    && (forall a :: a in s.attempts ==> a in t.attempts && Succeeds(s.attempts[a], t.attempts[a]))
    && (forall a :: a in s.audits ==> a in t.audits && t.audits[a] == s.audits[a])
  }

  predicate Succeeds(before: Attempt, after: Attempt) {
    after == before.(state := after.state) && (after.state == Authorized ==> before.state == Authorized)
  }

  lemma ReservedFollows(s: Store, t: Store, budgetId: string, requestId: string, cap: Option<nat>)
    requires s.ledger <= t.ledger && Reserved(s, budgetId, requestId, cap)
    ensures Reserved(t, budgetId, requestId, cap)
  {
    LongerLedgerHolds(s.ledger, t.ledger, budgetId, WorkerInvocation, requestId, 1);
    LongerLedgerHolds(s.ledger, t.ledger, budgetId, Request, requestId, if cap.Some? then cap.value else 1);
  }

  lemma LogFollows(s: Store, t: Store, log: seq<WorkerCall>)
    requires Follows(s, t) && LogOk(s, log)
    ensures LogOk(t, log)
  {
    forall i | 0 <= i < |log| ensures WorkerCallOk(t, log[i]) {
      ReservedFollows(s, t, log[i].budgetId, log[i].requestId, log[i].cap);
    }
  }

  lemma ClearedFollows(s: Store, t: Store, call: Call, log: seq<WorkerCall>)
    requires Follows(s, t) && ClearedCallOk(s, call, log) && CallOk(s, call)
    ensures ClearedCallOk(t, call, log)
  {
    if call.Cleared? {
      var attempt := s.attempts[call.handle.attemptId];
      ReservedFollows(s, t, attempt.budgetId, attempt.requestId, call.cap);
    }
  }

  function Rewritten(s: Store, a: string, state: AttemptState, x: ExperimentState): Store
    requires a in s.attempts && s.attempts[a].experimentId in s.experiments
  {
    RecordTx(s, Handle(s.attempts[a].experimentId, a), state, x)
  }

  lemma SameAttemptsOf(s: Store, t: Store)
    requires s.attempts.Keys == t.attempts.Keys
    requires forall a :: a in s.attempts ==> t.attempts[a].experimentId == s.attempts[a].experimentId
    ensures forall e :: AttemptsOf(t, e) == AttemptsOf(s, e)
  {
  }

  lemma RewriteKeepsStates(s: Store, a: string, state: AttemptState, x: ExperimentState)
    requires AttemptsOk(s) && StatesOk(s) && a in s.attempts && Paired(state, x)
    ensures StatesOk(Rewritten(s, a, state, x))
  {
    var t := Rewritten(s, a, state, x);
    SameAttemptsOf(s, t);
    OnlyAttempt(s, a);
    forall b | b in t.attempts && t.attempts[b].experimentId in t.experiments
      ensures Paired(t.attempts[b].state, t.experiments[t.attempts[b].experimentId].state)
    {
      assert b in s.attempts && (b != a ==> s.attempts[b].experimentId != s.attempts[a].experimentId);
    }
  }

  /** Writing a paired state over the one attempt of an experiment keeps the store consistent. */
  lemma RewriteKeepsStore(s: Store, a: string, state: AttemptState, x: ExperimentState)
    requires StoreOk(s) && a in s.attempts && state != Authorized && Paired(state, x)
    ensures StoreOk(Rewritten(s, a, state, x)) && Follows(s, Rewritten(s, a, state, x))
  {
    RewriteKeepsStates(s, a, state, x);
    RewriteKeepsOthers(s, a, state, x);
  }

  lemma RewriteKeepsOthers(s: Store, a: string, state: AttemptState, x: ExperimentState)
    requires AttemptsOk(s) && AuditsOk(s) && UndispatchedUncharged(s) && a in s.attempts && state != Authorized
    ensures var t := Rewritten(s, a, state, x);
            AttemptsOk(t) && AuditsOk(t) && UndispatchedUncharged(t) && Follows(s, t)
  {
  }

  /** What may happen to the calls when attempt a is rewritten: calls on other attempts stay, calls on a
      stay, advance or end, and those left agree with the new state. */
  ghost predicate Advance(s: Store, t: Store, a: string, before: map<nat, Call>, after: map<nat, Call>) {
    && after.Keys <= before.Keys
    && forall c :: c in after ==>
         if after[c] == before[c] then after[c].Live() && after[c].handle.attemptId == a ==> CallOk(t, after[c])
         else before[c].Live() && after[c].Live() && !after[c].Cleared? && after[c].handle == before[c].handle && CallOk(t, after[c])
  }

  lemma RewriteKeepsPositions(s: Store, a: string, state: AttemptState, x: ExperimentState, before: map<nat, Call>, after: map<nat, Call>)
    requires AttemptsOk(s) && a in s.attempts && PositionsOk(s, before) && OwnersOk(before)
    requires Advance(s, Rewritten(s, a, state, x), a, before, after)
    ensures PositionsOk(Rewritten(s, a, state, x), after) && OwnersOk(after)
  {
    forall c | c in after ensures CallOk(Rewritten(s, a, state, x), after[c]) {
      assert CallOk(s, before[c]);
    }
    forall c, d | c in after && d in after && c != d ensures !SameOwner(after[c], after[d]) {
      assert !SameOwner(before[c], before[d]);
    }
  }

  lemma RewriteKeepsValid(w: World, a: string, state: AttemptState, x: ExperimentState, after: map<nat, Call>)
    requires Valid(w) && a in w.store.attempts && state != Authorized && Paired(state, x)
    requires Advance(w.store, Rewritten(w.store, a, state, x), a, w.calls, after)
    ensures Valid(World(Rewritten(w.store, a, state, x), after, w.workerCalls))
    ensures Follows(w.store, Rewritten(w.store, a, state, x))
  {
    var t := Rewritten(w.store, a, state, x);
    RewriteKeepsStore(w.store, a, state, x);
    RewriteKeepsPositions(w.store, a, state, x, w.calls, after);
    LogFollows(w.store, t, w.workerCalls);
    forall c | c in after ensures ClearedCallOk(t, after[c], w.workerCalls) {
      if after[c].Cleared? {
        assert CallOk(w.store, w.calls[c]) && ClearedCallOk(w.store, w.calls[c], w.workerCalls);
        ClearedFollows(w.store, t, w.calls[c], w.workerCalls);
      }
    }
  }

  /** A call that changes position without a new claim: it ends, or it moves on after its Worker call. */
  lemma MoveKeepsCalls(w: World, after: map<nat, Call>)
    requires PositionsOk(w.store, w.calls) && OwnersOk(w.calls) && ClearedOk(w.store, w.calls, w.workerCalls)
    requires after.Keys <= w.calls.Keys
    requires forall c :: c in after && after[c] != w.calls[c] ==>
               w.calls[c].Live() && after[c].Live() && !after[c].Cleared? && after[c].handle == w.calls[c].handle && CallOk(w.store, after[c])
    ensures PositionsOk(w.store, after) && OwnersOk(after) && ClearedOk(w.store, after, w.workerCalls)
  {
    forall c | c in after ensures CallOk(w.store, after[c]) && ClearedCallOk(w.store, after[c], w.workerCalls) {
      assert CallOk(w.store, w.calls[c]) && ClearedCallOk(w.store, w.calls[c], w.workerCalls);
    }
    forall c, d | c in after && d in after && c != d ensures !SameOwner(after[c], after[d]) {
      assert !SameOwner(w.calls[c], w.calls[d]);
    }
  }

  // ---------------------------------------------------------- step by step

  lemma MarkUnknownKeepsValid(w: World, a: string)
    requires Valid(w) && a in w.store.attempts && w.store.attempts[a].state == Dispatching
    ensures Valid(World(SetAttempt(w.store, a, UnknownOutcome), w.calls, w.workerCalls))
    ensures Follows(w.store, SetAttempt(w.store, a, UnknownOutcome))
  {
    assert Rewritten(w.store, a, UnknownOutcome, Running) == SetAttempt(w.store, a, UnknownOutcome);
    forall c | c in w.calls && w.calls[c].Live() && w.calls[c].handle.attemptId == a
      ensures CallOk(SetAttempt(w.store, a, UnknownOutcome), w.calls[c])
    {
      assert CallOk(w.store, w.calls[c]);
    }
    RewriteKeepsValid(w, a, UnknownOutcome, Running, w.calls);
  }

  /** A new call that has claimed nothing yet. */
  lemma AddKeepsValid(w: World, c: nat, call: Call)
    requires Valid(w) && !call.Live() && CallOk(w.store, call)
    requires c in w.calls ==> !w.calls[c].Live()
    ensures Valid(World(w.store, w.calls[c := call], w.workerCalls))
  {
    var after := w.calls[c := call];
    forall d | d in after && d != c ensures CallOk(w.store, after[d]) && ClearedCallOk(w.store, after[d], w.workerCalls) {
      assert CallOk(w.store, w.calls[d]) && ClearedCallOk(w.store, w.calls[d], w.workerCalls);
    }
    forall d, d' | d in after && d' in after && d != d' ensures !SameOwner(after[d], after[d']) {
      assert d != c && d' != c ==> !SameOwner(w.calls[d], w.calls[d']);
    }
  }

  lemma StoreFollowsItself(s: Store)
    ensures Follows(s, s)
  {
  }

  /** All the fail-closed read ever writes: DISPATCHING becomes UNKNOWN_OUTCOME, with an answer. */
  ghost predicate OnlyMarks(s: Store, t: Store, marked: bool) {
    t == s || (marked && exists a :: a in s.attempts && s.attempts[a].state == Dispatching && t == SetAttempt(s, a, UnknownOutcome))
  }

  lemma CheckOnlyMarks(s: Store, e: string, first: string)
    requires MayBeFirst(s, e, first)
    ensures OnlyMarks(s, CheckTx(s, e, first).0, CheckTx(s, e, first).1.Some?)
  {
    if e in s.experiments && AttemptsOf(s, e) != {} {
      assert first in s.attempts;
    }
  }

  lemma MarkKeepsValid(w: World, t: Store)
    requires Valid(w) && OnlyMarks(w.store, t, true)
    ensures Valid(World(t, w.calls, w.workerCalls)) && Follows(w.store, t)
  {
    StoreFollowsItself(w.store);
    if t != w.store {
      var a :| a in w.store.attempts && w.store.attempts[a].state == Dispatching && t == SetAttempt(w.store, a, UnknownOutcome);
      MarkUnknownKeepsValid(w, a);
    }
  }

  lemma CheckKeepsValid(w: World, c: nat, e: string, first: string)
    requires Valid(w)
    ensures Valid(Next(w, Check(c, e, first))) && Follows(w.store, Next(w, Check(c, e, first)).store)
  {
    StoreFollowsItself(w.store);
    if MayBeFirst(w.store, e, first) {
      CheckOnlyMarks(w.store, e, first);
      MarkKeepsValid(w, CheckTx(w.store, e, first).0);
      if c !in w.calls {
        AddKeepsValid(w, c, Checked(e));
      }
    }
  }

  function CallFor(w: World, c: nat): WorkerCall
    requires c in w.calls && w.calls[c].Cleared? && w.calls[c].handle.attemptId in w.store.attempts
  {
    var h := w.calls[c].handle;
    var attempt := w.store.attempts[h.attemptId];
    WorkerCall(h.experimentId, attempt.requestId, attempt.budgetId, w.calls[c].cap)
  }

  lemma InvokeKeepsLog(w: World, c: nat)
    requires StoreOk(w.store) && LogOk(w.store, w.workerCalls) && c in w.calls && w.calls[c].Cleared?
    requires CallOk(w.store, w.calls[c]) && ClearedCallOk(w.store, w.calls[c], w.workerCalls)
    ensures LogOk(w.store, w.workerCalls + [CallFor(w, c)])
  {
    assert WorkerCallOk(w.store, CallFor(w, c));
  }

  lemma InvokeKeepsCleared(w: World, c: nat, after: map<nat, Call>)
    requires AttemptsOk(w.store) && PositionsOk(w.store, w.calls) && OwnersOk(w.calls) && c in w.calls && w.calls[c].Cleared?
    requires CallOk(w.store, w.calls[c])
    requires after == w.calls[c := InFlight(w.calls[c].handle)] && ClearedOk(w.store, after, w.workerCalls)
    ensures ClearedOk(w.store, after, w.workerCalls + [CallFor(w, c)])
  {
    forall d | d in after ensures ClearedCallOk(w.store, after[d], w.workerCalls + [CallFor(w, c)]) {
      assert ClearedCallOk(w.store, after[d], w.workerCalls);
      if d != c && after[d].Cleared? {
        assert CallOk(w.store, w.calls[d]) && !SameOwner(w.calls[d], w.calls[c]);
      }
    }
  }

  lemma InvokeKeepsValid(w: World, c: nat)
    requires Valid(w)
    ensures Valid(Next(w, Invoke(c)))
  {
    if c in w.calls && w.calls[c].Cleared? {
      assert CallOk(w.store, w.calls[c]) && ClearedCallOk(w.store, w.calls[c], w.workerCalls);
      var calls := w.calls[c := InFlight(w.calls[c].handle)];
      MoveKeepsCalls(w, calls);
      InvokeKeepsLog(w, c);
      InvokeKeepsCleared(w, c, calls);
      assert Next(w, Invoke(c)) == World(w.store, calls, w.workerCalls + [CallFor(w, c)]);
    }
  }

  lemma ReturnKeepsValid(w: World, c: nat, inv: Invocation)
    requires Valid(w)
    ensures Valid(Next(w, Return(c, inv)))
  {
    if c in w.calls && w.calls[c].InFlight? {
      assert CallOk(w.store, w.calls[c]);
      MoveKeepsCalls(w, Next(w, Return(c, inv)).calls);
    }
  }

  lemma CrashKeepsValid(w: World, c: nat)
    requires Valid(w)
    ensures Valid(Next(w, Crash(c)))
  {
    MoveKeepsCalls(w, w.calls - {c});
  }

  function AfterOutcome(calls: map<nat, Call>, c: nat): map<nat, Call>
    requires c in calls && calls[c].Returned?
  {
    if calls[c].inv.status.InvocationCompleted? && calls[c].inv.result.Some?
    then calls[c := Recorded(calls[c].handle, calls[c].inv)] else calls - {c}
  }

  lemma OutcomeAdvances(s: Store, calls: map<nat, Call>, c: nat)
    requires c in calls && calls[c].Returned? && CallOk(s, calls[c]) && OwnersOk(calls)
    requires calls[c].handle.experimentId in s.experiments
    ensures var (h, (a, x, _)) := (calls[c].handle, Classify(calls[c].inv));
            a != Authorized && Paired(a, x) && Advance(s, RecordTx(s, h, a, x), h.attemptId, calls, AfterOutcome(calls, c))
  {
    var (h, (a, x, _)) := (calls[c].handle, Classify(calls[c].inv));
    var after := AfterOutcome(calls, c);
    forall d | d in after && d != c ensures after[d] == calls[d] && !SameOwner(calls[d], calls[c]) {}
  }

  lemma OutcomeKeepsValid(w: World, c: nat)
    requires Valid(w) && c in w.calls && w.calls[c].Returned?
    ensures var (h, (a, x, _)) := (w.calls[c].handle, Classify(w.calls[c].inv));
            && h.attemptId in w.store.attempts && h.experimentId in w.store.experiments
            && Valid(World(RecordTx(w.store, h, a, x), AfterOutcome(w.calls, c), w.workerCalls))
            && Follows(w.store, RecordTx(w.store, h, a, x))
  {
    assert CallOk(w.store, w.calls[c]);
    OutcomeAdvances(w.store, w.calls, c);
    var (h, (a, x, _)) := (w.calls[c].handle, Classify(w.calls[c].inv));
    RewriteKeepsValid(w, h.attemptId, a, x, AfterOutcome(w.calls, c));
  }

  lemma RecordKeepsValid(w: World, c: nat, persists: bool)
    requires Valid(w)
    ensures Valid(Next(w, ExecutionProtocol.Record(c, persists)))
    ensures Follows(w.store, Next(w, ExecutionProtocol.Record(c, persists)).store)
  {
    StoreFollowsItself(w.store);
    CrashKeepsValid(w, c);
    if c in w.calls && w.calls[c].Returned? && persists {
      OutcomeKeepsValid(w, c);
    }
  }

  lemma MarkFailedAdvances(s: Store, calls: map<nat, Call>, c: nat)
    requires c in calls && calls[c].Unusable? && OwnersOk(calls)
    requires calls[c].handle.attemptId in s.attempts && calls[c].handle.experimentId in s.experiments
    ensures Advance(s, RecordTx(s, calls[c].handle, Failed, ExecutionFailed), calls[c].handle.attemptId, calls, calls - {c})
  {
    forall d | d in calls - {c} ensures !SameOwner(calls[d], calls[c]) {}
  }

  lemma MarkFailedKeepsValid(w: World, c: nat)
    requires Valid(w)
    ensures Valid(Next(w, MarkFailed(c)))
    ensures Follows(w.store, Next(w, MarkFailed(c)).store)
  {
    StoreFollowsItself(w.store);
    if c in w.calls && w.calls[c].Unusable? {
      assert CallOk(w.store, w.calls[c]);
      MarkFailedAdvances(w.store, w.calls, c);
      RewriteKeepsValid(w, w.calls[c].handle.attemptId, Failed, ExecutionFailed, w.calls - {c});
    }
  }

  lemma IngestKeepsValid(w: World, c: nat, verdict: IngestVerdict)
    requires Valid(w)
    ensures Valid(Next(w, Ingest(c, verdict))) && Follows(w.store, Next(w, Ingest(c, verdict)).store)
  {
    CrashKeepsValid(w, c);
    if c in w.calls && w.calls[c].Recorded? {
      assert CallOk(w.store, w.calls[c]);
      if verdict.IngestRejected? {
        MoveKeepsCalls(w, Next(w, Ingest(c, verdict)).calls);
      } else if w.calls[c].inv.result == Some(Reauthorize) {
        NoteReauthorization(End(w, c), w.calls[c].handle.experimentId);
      }
    }
  }

  lemma NoteReauthorization(w: World, e: string)
    requires Valid(w)
    ensures var t := w.store.(reauthorized := w.store.reauthorized + {e}); Valid(w.(store := t)) && Follows(w.store, t)
  {
    var t := w.store.(reauthorized := w.store.reauthorized + {e});
    SameAttemptsOf(w.store, t);
    FollowKeepsValid(w.store, t, w.calls, w.workerCalls);
  }

  /** A store step that rewrites no existing attempt disturbs no call. */
  lemma FollowKeepsValid(s: Store, t: Store, calls: map<nat, Call>, log: seq<WorkerCall>)
    requires Valid(World(s, calls, log)) && StoreOk(t) && Follows(s, t)
    requires forall a :: a in s.attempts ==> t.attempts[a] == s.attempts[a]
    ensures Valid(World(t, calls, log))
  {
    LogFollows(s, t, log);
    forall c | c in calls ensures CallOk(t, calls[c]) && ClearedCallOk(t, calls[c], log) {
      assert CallOk(s, calls[c]) && ClearedCallOk(s, calls[c], log);
      ClearedFollows(s, t, calls[c], log);
    }
  }

  lemma RebuildKeepsValid(w: World, c: nat, a: string)
    requires Valid(w)
    ensures Valid(Next(w, Rebuild(c, a)))
  {
    if c !in w.calls && a in w.store.attempts && w.store.attempts[a].state == Authorized {
      AddKeepsValid(w, c, Holding(Handle(w.store.attempts[a].experimentId, a)));
    }
  }

  lemma PrepareKeepsStore(s: Store, e: string, x: Experiment, plan: Plan)
    requires StoreOk(s) && e !in s.experiments && x.state == Planned
    ensures var t := s.(experiments := s.experiments[e := x], plans := s.plans[e := plan]);
            StoreOk(t) && Follows(s, t)
  {
    SameAttemptsOf(s, s.(experiments := s.experiments[e := x], plans := s.plans[e := plan]));
  }

  lemma PrepareKeepsValid(w: World, e: string, runId: string, plan: Plan)
    requires Valid(w)
    ensures Valid(Next(w, Prepare(e, runId, plan))) && Follows(w.store, Next(w, Prepare(e, runId, plan)).store)
  {
    StoreFollowsItself(w.store);
    if e !in w.store.experiments {
      PrepareKeepsStore(w.store, e, Experiment(runId, plan.hypothesisId, plan.budgetId, Planned), plan);
      FollowKeepsValid(w.store, Next(w, Prepare(e, runId, plan)).store, w.calls, w.workerCalls);
    }
  }

  lemma ChargeKeepsStore(s: Store, record: BudgetConsumption.Command)
    requires StoreOk(s) && !ChargesAttempt(s, record)
    ensures var t := s.(ledger := BudgetConsumption.Record(s.env, s.ledger, record).0);
            StoreOk(t) && Follows(s, t)
  {
    var t := s.(ledger := BudgetConsumption.Record(s.env, s.ledger, record).0);
    BudgetConsumption.RecordKeepsLedger(s.env, s.ledger, record);
    SameAttemptsOf(s, t);
    assert t.ledger == s.ledger || t.ledger == s.ledger + [record.ToRow()];
  }

  lemma ChargeElsewhereKeepsValid(w: World, record: BudgetConsumption.Command)
    requires Valid(w)
    ensures Valid(Next(w, ChargeElsewhere(record))) && Follows(w.store, Next(w, ChargeElsewhere(record)).store)
  {
    StoreFollowsItself(w.store);
    if !ChargesAttempt(w.store, record) {
      ChargeKeepsStore(w.store, record);
      FollowKeepsValid(w.store, Next(w, ChargeElsewhere(record)).store, w.calls, w.workerCalls);
    }
  }

  // -------------------------------------------------------------- authorize

  /** Exactly one new audited attempt for an experiment that had none. */
  ghost predicate Grants(s: Store, t: Store, cmd: Command, requestId: string) {
    var e := cmd.experimentId;
    && e in s.experiments && AttemptsOf(s, e) == {}
    && t.attempts.Keys == s.attempts.Keys + {AttemptId(requestId)}
    && t.attempts[AttemptId(requestId)].requestId == requestId
    && t.attempts[AttemptId(requestId)].experimentId == e
    && t.attempts[AttemptId(requestId)].auditId == DecisionAuditId(requestId)
    && t.attempts[AttemptId(requestId)].state == Authorized
    && t.audits == s.audits[DecisionAuditId(requestId) := ExecutionDecision(e, requestId, Allow)]
    && t.experiments == s.experiments[e := s.experiments[e].(state := Ready)]
    && (forall a :: a in s.attempts ==> t.attempts[a] == s.attempts[a])
    && t.ledger == s.ledger && t.env == s.env
  }

  /** No attempt; the experiment that had none moves within the unattempted states. */
  ghost predicate Declines(s: Store, t: Store, e: string) {
    && t.attempts == s.attempts && t.ledger == s.ledger && t.env == s.env
    && (forall a :: a in s.audits ==> a in t.audits && t.audits[a] == s.audits[a])
    && (t.experiments == s.experiments
        || (&& e in s.experiments && AttemptsOf(s, e) == {}
            && e in t.experiments && Unattempted(t.experiments[e].state)
            && t.experiments == s.experiments[e := s.experiments[e].(state := t.experiments[e].state)]))
  }

  lemma DecideGrantsOrDeclines(
    s: Store, cmd: Command, ev: Evaluation, requestId: string, limitId: string, hook: Option<Orchestration>)
    requires FreshIds(s, requestId, limitId) && cmd.experimentId in s.experiments && AttemptsOf(s, cmd.experimentId) == {}
    ensures var (t, result) := DecideTx(s, cmd, ev, requestId, limitId, hook);
            if result.Granted?
            then result.handle == Handle(cmd.experimentId, AttemptId(requestId)) && Grants(s, t, cmd, requestId)
                 && ev.rateAllowed && FinalDecision(ev) == Allow
            else Declines(s, t, cmd.experimentId)
  {
    if ev.rateAllowed && !ev.sessionInputRejected && FinalDecision(ev).Allow? && ev.requestValid {
      AllowedDecisionGrants(s, cmd, ev, requestId, limitId, hook);
    } else {
      OtherDecisionDeclines(s, cmd, ev, requestId, limitId, hook);
    }
  }

  lemma AllowedDecisionGrants(
    s: Store, cmd: Command, ev: Evaluation, requestId: string, limitId: string, hook: Option<Orchestration>)
    requires FreshIds(s, requestId, limitId) && cmd.experimentId in s.experiments && AttemptsOf(s, cmd.experimentId) == {}
    requires ev.rateAllowed && !ev.sessionInputRejected && FinalDecision(ev).Allow? && ev.requestValid
    ensures var (t, result) := DecideTx(s, cmd, ev, requestId, limitId, hook);
            result == Granted(Handle(cmd.experimentId, AttemptId(requestId))) && Grants(s, t, cmd, requestId)
  {
  }

  lemma OtherDecisionDeclines(
    s: Store, cmd: Command, ev: Evaluation, requestId: string, limitId: string, hook: Option<Orchestration>)
    requires FreshIds(s, requestId, limitId) && cmd.experimentId in s.experiments && AttemptsOf(s, cmd.experimentId) == {}
    requires !(ev.rateAllowed && !ev.sessionInputRejected && FinalDecision(ev).Allow? && ev.requestValid)
    ensures var (t, result) := DecideTx(s, cmd, ev, requestId, limitId, hook);
            !result.Granted? && Declines(s, t, cmd.experimentId)
  {
  }

  /** Authorize never adds a second attempt: it grants to an experiment without one, or declines. */
  lemma AuthorizeGrantsOnceOrDeclines(
    s: Store, cmd: Command, ev: Evaluation, requestId: string, limitId: string, first: string, hook: Option<Orchestration>)
    requires FreshIds(s, requestId, limitId) && MayBeFirst(s, cmd.experimentId, first)
    ensures var (t, result) := AuthorizeTx(s, cmd, ev, requestId, limitId, first, hook);
            if result.Granted?
            then result.handle == Handle(cmd.experimentId, AttemptId(requestId)) && Grants(s, t, cmd, requestId)
                 && ev.capabilityBinds && ev.rateAllowed && FinalDecision(ev) == Allow
            else Declines(s, t, cmd.experimentId)
  {
    if ContextProblem(s, cmd).None? && AttemptsOf(s, cmd.experimentId) == {} {
      DecideGrantsOrDeclines(s, cmd, ev, requestId, limitId, hook);
    }
  }

  lemma AttemptsAreListed(s: Store)
    ensures forall b :: b in s.attempts ==> b in AttemptsOf(s, s.attempts[b].experimentId)
  {
  }

  lemma DeclineKeepsStore(s: Store, t: Store, e: string)
    requires StoreOk(s) && Declines(s, t, e)
    ensures StoreOk(t) && Follows(s, t)
  {
    SameAttemptsOf(s, t);
    AttemptsAreListed(s);
  }

  lemma GrantKeepsAttempts(s: Store, t: Store, cmd: Command, requestId: string)
    requires AttemptsOk(s) && StatesOk(s) && Grants(s, t, cmd, requestId)
    ensures AttemptsOk(t) && StatesOk(t)
  {
    AttemptsAreListed(s);
    GrantKeepsAttemptRows(s, t, cmd, requestId);
    GrantKeepsUnattempted(s, t, cmd, requestId);
    GrantKeepsPairs(s, t, cmd, requestId);
  }

  lemma GrantKeepsAttemptRows(s: Store, t: Store, cmd: Command, requestId: string)
    requires AttemptsOk(s) && Grants(s, t, cmd, requestId)
    ensures AttemptsOk(t)
  {
    AttemptsAreListed(s);
  }

  lemma GrantKeepsUnattempted(s: Store, t: Store, cmd: Command, requestId: string)
    requires StatesOk(s) && Grants(s, t, cmd, requestId)
    ensures forall e :: e in t.experiments ==> AttemptsOf(t, e) == {} ==> Unattempted(t.experiments[e].state)
  {
    assert AttemptId(requestId) in AttemptsOf(t, cmd.experimentId);
    assert forall f :: AttemptsOf(s, f) <= AttemptsOf(t, f);
  }

  lemma GrantKeepsPairs(s: Store, t: Store, cmd: Command, requestId: string)
    requires AttemptsOk(s) && StatesOk(s) && Grants(s, t, cmd, requestId)
    ensures forall a :: a in t.attempts && t.attempts[a].experimentId in t.experiments ==>
              Paired(t.attempts[a].state, t.experiments[t.attempts[a].experimentId].state)
  {
    AttemptsAreListed(s);
  }

  lemma GrantKeepsStore(s: Store, t: Store, cmd: Command, requestId: string, limitId: string)
    requires StoreOk(s) && Grants(s, t, cmd, requestId) && FreshIds(s, requestId, limitId)
    ensures StoreOk(t) && Follows(s, t)
  {
    GrantKeepsAttempts(s, t, cmd, requestId);
    GrantKeepsAudits(s, t, cmd, requestId, limitId);
    assert UndispatchedUncharged(t) by {
      forall b, i | b in t.attempts && t.attempts[b].state == Authorized && 0 <= i < |t.ledger|
                    && t.ledger[i].resource in {WorkerInvocation, Request}
        ensures t.ledger[i].requestId != Some(t.attempts[b].requestId)
      {
        assert b == AttemptId(requestId) || b in s.attempts;
      }
    }
  }

  lemma GrantKeepsAudits(s: Store, t: Store, cmd: Command, requestId: string, limitId: string)
    requires AuditsOk(s) && Grants(s, t, cmd, requestId) && FreshIds(s, requestId, limitId)
    ensures AuditsOk(t) && Follows(s, t)
  {
  }

  lemma AuthorizeKeepsValid(
    w: World, c: nat, cmd: Command, ev: Evaluation, requestId: string, limitId: string, first: string, hook: Option<Orchestration>)
    requires Valid(w)
    ensures var step := Authorize(c, cmd, ev, requestId, limitId, first, hook);
            Valid(Next(w, step)) && Follows(w.store, Next(w, step).store)
  {
    StoreFollowsItself(w.store);
    if FreshIds(w.store, requestId, limitId) && MayBeFirst(w.store, cmd.experimentId, first)
       && (c in w.calls ==> w.calls[c] == Checked(cmd.experimentId)) {
      var (t, result) := AuthorizeTx(w.store, cmd, ev, requestId, limitId, first, hook);
      AuthorizeGrantsOnceOrDeclines(w.store, cmd, ev, requestId, limitId, first, hook);
      if result.Granted? {
        GrantKeepsStore(w.store, t, cmd, requestId, limitId);
        FollowKeepsValid(w.store, t, w.calls, w.workerCalls);
        AddKeepsValid(World(t, w.calls, w.workerCalls), c, Holding(result.handle));
      } else {
        DeclineKeepsStore(w.store, t, cmd.experimentId);
        FollowKeepsValid(w.store, t, w.calls, w.workerCalls);
        CrashKeepsValid(World(t, w.calls, w.workerCalls), c);
      }
    }
  }

  // --------------------------------------------------------------- dispatch

  /** A dispatch that goes ahead claims an AUTHORIZED attempt and commits both its reservations. */
  ghost predicate Claims(s: Store, t: Store, a: string, cap: Option<nat>) {
    && a in s.attempts && s.attempts[a].state == Authorized && s.attempts[a].experimentId in s.experiments
    && s.ledger <= t.ledger
    && t == Rewritten(s, a, Dispatching, Running).(ledger := t.ledger)
    && LedgerOk(t.env, t.ledger)
    && Reserved(t, s.attempts[a].budgetId, s.attempts[a].requestId, cap)
    && (forall i :: |s.ledger| <= i < |t.ledger| ==> t.ledger[i].requestId == Some(s.attempts[a].requestId))
  }

  predicate Uncharged(rows: seq<Row>, requestId: string, resource: Resource) {
    forall i :: 0 <= i < |rows| && rows[i].resource == resource ==> rows[i].requestId != Some(requestId)
  }

  /** Without an earlier row of the request the insert either appends or reports a refusal. */
  lemma UnchargedInsert(env: Envelopes, rows: seq<Row>, row: Row, requestId: string)
    requires LedgerOk(env, rows) && row.requestId == Some(requestId) && Uncharged(rows, requestId, row.resource)
    ensures !InsertWithinAllowance(env, rows, row).0.AlreadyPresent?
    ensures LedgerOk(env, InsertWithinAllowance(env, rows, row).1)
    ensures forall resource :: resource != row.resource && Uncharged(rows, requestId, resource) ==>
              Uncharged(InsertWithinAllowance(env, rows, row).1, requestId, resource)
  {
    InsertKeepsLedgerOk(env, rows, row);
  }

  /** Reserving for an attempt with nothing on the ledger appends exactly its two rows, or nothing. */
  lemma ReserveAppendsBoth(s: Store, attempt: Attempt)
    requires LedgerOk(s.env, s.ledger) && attempt.budgetId in s.env.budgets
    requires Uncharged(s.ledger, attempt.requestId, WorkerInvocation) && Uncharged(s.ledger, attempt.requestId, Request)
    ensures var (outcome, ledger, amount) := Reserve(s, attempt);
            LedgerOk(s.env, ledger) &&
            if outcome.Inserted?
            then 0 < amount && ledger == s.ledger + [Charge(attempt, WorkerInvocation, 1)] + [Charge(attempt, Request, amount)]
            else ledger == s.ledger && (outcome.Overspend? || outcome.Refused?)
  {
    var first := Charge(attempt, WorkerInvocation, 1);
    UnchargedInsert(s.env, s.ledger, first, attempt.requestId);
    var amount := RequestAmount(s, attempt);
    if amount.Some? {
      UnchargedInsert(s.env, InsertWithinAllowance(s.env, s.ledger, first).1, Charge(attempt, Request, amount.value), attempt.requestId);
    }
  }

  lemma TwoRowsReserve(s: Store, attempt: Attempt, amount: nat, cap: Option<nat>)
    requires 0 < amount && (cap.Some? ==> cap.value == amount)
    ensures var ledger := s.ledger + [Charge(attempt, WorkerInvocation, 1)] + [Charge(attempt, Request, amount)];
            Reserved(s.(ledger := ledger), attempt.budgetId, attempt.requestId, cap)
  {
    var ledger := s.ledger + [Charge(attempt, WorkerInvocation, 1)] + [Charge(attempt, Request, amount)];
    assert ledger[|s.ledger|] == Charge(attempt, WorkerInvocation, 1);
    assert ledger[|s.ledger| + 1] == Charge(attempt, Request, amount);
  }

  lemma ReservedDispatchClaims(s: Store, h: Handle)
    requires StoreOk(s) && HandleOk(s, h) && StateOf(s, h) == Authorized && s.attempts[h.attemptId].budgetId in s.env.budgets
    requires Reserve(s, s.attempts[h.attemptId]).0.Inserted?
    ensures DispatchTx(s, h).1.Go? && Claims(s, DispatchTx(s, h).0, h.attemptId, DispatchTx(s, h).1.cap)
  {
    var attempt := s.attempts[h.attemptId];
    ReserveAppendsBoth(s, attempt);
    var (outcome, ledger, amount) := Reserve(s, attempt);
    var cap := if attempt.capability == BROWSER_PAGE then Some(amount) else None;
    TwoRowsReserve(s, attempt, amount, cap);
    RewrittenClaims(s, h.attemptId, ledger, cap);
    DispatchOf(s, h, ledger, amount);
  }

  lemma RewrittenClaims(s: Store, a: string, ledger: seq<Row>, cap: Option<nat>)
    requires a in s.attempts && s.attempts[a].state == Authorized && s.attempts[a].experimentId in s.experiments
    requires s.ledger <= ledger && LedgerOk(s.env, ledger)
    requires Reserved(s.(ledger := ledger), s.attempts[a].budgetId, s.attempts[a].requestId, cap)
    requires forall i :: |s.ledger| <= i < |ledger| ==> ledger[i].requestId == Some(s.attempts[a].requestId)
    ensures Claims(s, Rewritten(s, a, Dispatching, Running).(ledger := ledger), a, cap)
  {
  }

  lemma DispatchOf(s: Store, h: Handle, ledger: seq<Row>, amount: nat)
    requires HandleOk(s, h) && h.experimentId in s.experiments
    requires StateOf(s, h) == Authorized && s.attempts[h.attemptId].budgetId in s.env.budgets
    requires Reserve(s, s.attempts[h.attemptId]) == (Inserted, ledger, amount)
    ensures DispatchTx(s, h) == (Rewritten(s, h.attemptId, Dispatching, Running).(ledger := ledger),
                                 Go(if s.attempts[h.attemptId].capability == BROWSER_PAGE then Some(amount) else None))
  {
  }

  lemma DispatchClaimsOrMarks(s: Store, h: Handle)
    requires StoreOk(s) && HandleOk(s, h)
    ensures var (t, result) := DispatchTx(s, h);
            if result.Go? then Claims(s, t, h.attemptId, result.cap) else OnlyMarks(s, t, true)
  {
    var attempt := s.attempts[h.attemptId];
    if attempt.state == Authorized && attempt.budgetId in s.env.budgets {
      ReserveAppendsBoth(s, attempt);
      if Reserve(s, attempt).0.Inserted? {
        ReservedDispatchClaims(s, h);
      }
    }
  }

  /** The ledger may grow by rows of an attempt that is already dispatched. */
  lemma LedgerGrowthKeepsStore(s: Store, t: Store, a: string)
    requires StoreOk(s) && a in s.attempts && s.attempts[a].state != Authorized
    requires t == s.(ledger := t.ledger) && s.ledger <= t.ledger && LedgerOk(t.env, t.ledger)
    requires forall i :: |s.ledger| <= i < |t.ledger| ==> t.ledger[i].requestId == Some(s.attempts[a].requestId)
    ensures StoreOk(t) && Follows(s, t)
  {
    SameAttemptsOf(s, t);
    forall b, i | b in t.attempts && t.attempts[b].state == Authorized && 0 <= i < |t.ledger|
                  && t.ledger[i].resource in {WorkerInvocation, Request}
      ensures t.ledger[i].requestId != Some(t.attempts[b].requestId)
    {
      assert b != a && s.attempts[b].requestId != s.attempts[a].requestId;
      assert i < |s.ledger| ==> t.ledger[i] == s.ledger[i];
    }
  }

  lemma ClaimKeepsStore(s: Store, t: Store, a: string, cap: Option<nat>)
    requires StoreOk(s) && Claims(s, t, a, cap)
    ensures StoreOk(t) && Follows(s, t)
  {
    var claimed := Rewritten(s, a, Dispatching, Running);
    RewriteKeepsStore(s, a, Dispatching, Running);
    LedgerGrowthKeepsStore(claimed, t, a);
  }

  lemma ClaimKeepsCalls(w: World, c: nat, t: Store, cap: Option<nat>)
    requires Valid(w) && c in w.calls && w.calls[c].Holding?
    requires Claims(w.store, t, w.calls[c].handle.attemptId, cap) && Follows(w.store, t)
    ensures var after := w.calls[c := Cleared(w.calls[c].handle, cap)];
            PositionsOk(t, after) && OwnersOk(after) && ClearedOk(t, after, w.workerCalls)
  {
    var h := w.calls[c].handle;
    var after := w.calls[c := Cleared(h, cap)];
    assert CallOk(w.store, w.calls[c]);
    forall d | d in after && d != c
      ensures CallOk(t, after[d]) && ClearedCallOk(t, after[d], w.workerCalls) && !SameOwner(after[d], after[c])
    {
      ClaimKeepsOtherCall(w, c, d, t, cap);
    }
    ClaimedIsNew(w, h.attemptId);
    forall d, d' | d in after && d' in after && d != d' ensures !SameOwner(after[d], after[d']) {
      assert d != c && d' != c ==> !SameOwner(w.calls[d], w.calls[d']);
    }
  }

  lemma ClaimKeepsOtherCall(w: World, c: nat, d: nat, t: Store, cap: Option<nat>)
    requires Valid(w) && c in w.calls && w.calls[c].Holding? && d in w.calls && d != c
    requires Claims(w.store, t, w.calls[c].handle.attemptId, cap) && Follows(w.store, t)
    ensures CallOk(t, w.calls[d]) && ClearedCallOk(t, w.calls[d], w.workerCalls)
    ensures !SameOwner(w.calls[d], Cleared(w.calls[c].handle, cap))
  {
    var a := w.calls[c].handle.attemptId;
    assert CallOk(w.store, w.calls[c]) && CallOk(w.store, w.calls[d]) && ClearedCallOk(w.store, w.calls[d], w.workerCalls);
    ClearedFollows(w.store, t, w.calls[d], w.workerCalls);
    LiveIsNotAuthorized(w.store, w.calls[d], a);
    OtherCallStays(w.store, t, w.calls[d], a);
  }

  lemma LiveIsNotAuthorized(s: Store, call: Call, a: string)
    requires CallOk(s, call) && a in s.attempts && s.attempts[a].state == Authorized
    ensures call.Live() ==> call.handle.attemptId != a
  {
  }

  lemma OtherCallStays(s: Store, t: Store, call: Call, a: string)
    requires CallOk(s, call) && (call.Live() ==> call.handle.attemptId != a)
    requires Follows(s, t) && forall b :: b in s.attempts && b != a ==> b in t.attempts && t.attempts[b] == s.attempts[b]
    ensures CallOk(t, call)
  {
  }

  lemma ClaimedIsNew(w: World, a: string)
    requires Valid(w) && a in w.store.attempts && w.store.attempts[a].state == Authorized
    ensures !InLog(w.workerCalls, w.store.attempts[a].requestId)
  {
    forall i | 0 <= i < |w.workerCalls| ensures w.workerCalls[i].requestId != w.store.attempts[a].requestId {
      assert WorkerCallOk(w.store, w.workerCalls[i]);
    }
  }

  lemma ClaimKeepsValid(w: World, c: nat, t: Store, cap: Option<nat>)
    requires Valid(w) && c in w.calls && w.calls[c].Holding? && Claims(w.store, t, w.calls[c].handle.attemptId, cap)
    ensures Valid(World(t, w.calls[c := Cleared(w.calls[c].handle, cap)], w.workerCalls)) && Follows(w.store, t)
  {
    ClaimKeepsStore(w.store, t, w.calls[c].handle.attemptId, cap);
    ClaimKeepsCalls(w, c, t, cap);
    LogFollows(w.store, t, w.workerCalls);
  }

  lemma RefusalKeepsValid(w: World, c: nat, t: Store)
    requires Valid(w) && OnlyMarks(w.store, t, true)
    ensures Valid(World(t, w.calls - {c}, w.workerCalls)) && Follows(w.store, t)
  {
    MarkKeepsValid(w, t);
    CrashKeepsValid(World(t, w.calls, w.workerCalls), c);
  }

  lemma DispatchKeepsValid(w: World, c: nat)
    requires Valid(w)
    ensures Valid(Next(w, Dispatch(c))) && Follows(w.store, Next(w, Dispatch(c)).store)
  {
    StoreFollowsItself(w.store);
    if c in w.calls && w.calls[c].Holding? {
      assert CallOk(w.store, w.calls[c]);
      var (t, result) := DispatchTx(w.store, w.calls[c].handle);
      DispatchClaimsOrMarks(w.store, w.calls[c].handle);
      if result.Go? {
        ClaimKeepsValid(w, c, t, result.cap);
      } else {
        RefusalKeepsValid(w, c, t);
      }
    }
  }
}
