/** The executor object: each transaction edits a unit of work and commits it, or drops it to roll back. */
module Executor {
  import opened Common
  import opened BudgetLedger
  import opened Records
  import opened ExecutionProtocol
  import opened OrchestrationSafety
  import opened Database
  import ExecutionSafety
  import ExecutionTheorems
  import Acts = OrchestrationProtocol

  /** What code outside this model answers during one execute: evaluations, fresh ids, the Worker, the tables, ingestion. */
  datatype Outside = Outside(
    ev: Evaluation, requestId: string, limitId: string, inv: Invocation, persists: bool, verdict: IngestVerdict)

  datatype LoopResult = Replied(answer: Answer) | LoopRaised

  /** The answer of a call whose Worker was called. */
  function OutcomeAnswer(out: Outside): Answer {
    var (_, x, status) := Classify(out.inv);
    if !out.persists then Answer(InvocationFailed, Some(Running))
    else if out.inv.status.InvocationCompleted? && out.inv.result.Some? then
      match out.verdict
      case IngestRejected => Answer(InvocationFailed, Some(ExecutionFailed))
      case IngestNoObservation => Answer(if status == ReauthorizationRequired then status else NoObservation, Some(x))
      case IngestObservations => Answer(ObservationProduced, Some(x))
    else Answer(status, Some(x))
  }

  /** The authorize act of this process: with the controller's hook, or without. */
  function AuthorizeAct(r: string, c: nat, cmd: Command, out: Outside, first: string, hooked: bool): Acts.Act {
    if hooked then Acts.Authorize(r, c, cmd, out.ev, out.requestId, out.limitId, first)
    else Acts.Exec(Authorize(c, cmd, out.ev, out.requestId, out.limitId, first, None))
  }

  function HookFor(d: Acts.Desk, r: string, cmd: Command, out: Outside, hooked: bool): Option<Orchestration> {
    if hooked && r in d.sessions
    then Some(Acts.Hooked(d.sessions[r], cmd.experimentId, AttemptId(out.requestId))) else None
  }

  /** What a whole execution leaves alone, on the way allowing our own session to move its row along. */
  ghost predicate Kept(d: Acts.Desk, after: Acts.Desk, r: string) {
    var (s, t) := (d.world.store, after.world.store);
    && (r in d.sessions <==> r in after.sessions) && (r in d.sessions ==> SameCore(d.sessions[r], after.sessions[r]))
    && (r in s.orchestrations <==> r in t.orchestrations)
    && (r in s.orchestrations ==> SameCore(s.orchestrations[r], t.orchestrations[r]))
    && Acts.RowsOf(s, r) == Acts.RowsOf(t, r)
    && ExecutionSafety.Follows(s, t)
  }

  lemma KeptTransitive(d: Acts.Desk, middle: Acts.Desk, after: Acts.Desk, r: string)
    requires Kept(d, middle, r) && Kept(middle, after, r)
    ensures Kept(d, after, r)
  {
    ExecutionTheorems.FollowsTransitive(d.world.store, middle.world.store, after.world.store);
  }

  lemma KeptItself(d: Acts.Desk, r: string)
    ensures Kept(d, d, r)
  {
    ExecutionSafety.StoreFollowsItself(d.world.store);
  }

  lemma ExecKeeps(fingerprint: Config -> string, d: Acts.Desk, step: Step, r: string)
    requires Sound(fingerprint, d) && Acts.Hookless(step)
    ensures Kept(d, Acts.Next(fingerprint, d, Acts.Exec(step)), r)
  {
    ExecutionIsBlind(d.world, step);
    ActKeepsValid(fingerprint, d, Acts.Exec(step));
  }

  /** Saving the hooked row, in both places or in neither, leaves the core of the run alone. */
  lemma HookedIsKept(d: Acts.Desk, after: Acts.Desk, r: string, hooked: Orchestration, granted: bool)
    requires r in d.sessions && InStep(d, r) && r in d.world.store.orchestrations && SameCore(d.sessions[r], hooked)
    requires ExecutionSafety.Follows(d.world.store, after.world.store) && after.world.store.cycles == d.world.store.cycles
    requires after.world.store.orchestrations
          == if granted then d.world.store.orchestrations[r := hooked] else d.world.store.orchestrations
    requires after.sessions == if granted then d.sessions[r := hooked] else d.sessions
    ensures Kept(d, after, r)
  {
  }

  lemma SessionNamesItsRun(fingerprint: Config -> string, d: Acts.Desk, r: string)
    requires DeskOk(fingerprint, d) && r in d.sessions
    ensures d.sessions[r].config.runId == r && r in d.world.store.orchestrations
  {
    assert RunOk(fingerprint, d.world.store, r) && SessionOk(d, r);
  }

  lemma HookedAuthorizeTables(
    fingerprint: Config -> string, d: Acts.Desk, r: string, c: nat, cmd: Command, out: Outside, first: string, hooked: Orchestration)
    requires r in d.sessions && d.sessions[r].config.runId == r
    requires hooked == Acts.Hooked(d.sessions[r], cmd.experimentId, AttemptId(out.requestId))
    ensures var after := Acts.Next(fingerprint, d, AuthorizeAct(r, c, cmd, out, first, true));
            var granted := AttemptId(out.requestId) in after.world.store.attempts && AttemptId(out.requestId) !in d.world.store.attempts;
            && after.world.store.cycles == d.world.store.cycles
            && after.world.store.orchestrations
               == (if granted then d.world.store.orchestrations[r := hooked] else d.world.store.orchestrations)
            && after.sessions == (if granted then d.sessions[r := hooked] else d.sessions)
  {
    AuthorizeTouchesItsRun(d.world, c, cmd, out.ev, out.requestId, out.limitId, first, Some(hooked));
  }

  lemma AuthorizeKeeps(fingerprint: Config -> string, d: Acts.Desk, r: string, c: nat, cmd: Command, out: Outside, first: string)
    requires Sound(fingerprint, d) && r in d.sessions && InStep(d, r)
    ensures Kept(d, Acts.Next(fingerprint, d, AuthorizeAct(r, c, cmd, out, first, true)), r)
  {
    var hooked := Acts.Hooked(d.sessions[r], cmd.experimentId, AttemptId(out.requestId));
    var after := Acts.Next(fingerprint, d, AuthorizeAct(r, c, cmd, out, first, true));
    var granted := AttemptId(out.requestId) in after.world.store.attempts && AttemptId(out.requestId) !in d.world.store.attempts;
    SessionNamesItsRun(fingerprint, d, r);
    HookedAuthorizeTables(fingerprint, d, r, c, cmd, out, first, hooked);
    AuthorizeFollows(fingerprint, d, AuthorizeAct(r, c, cmd, out, first, true));
    HookedIsKept(d, after, r, hooked, granted);
  }

  lemma AuthorizeFollows(fingerprint: Config -> string, d: Acts.Desk, act: Acts.Act)
    requires Sound(fingerprint, d)
    ensures ExecutionSafety.Follows(d.world.store, Acts.Next(fingerprint, d, act).world.store)
  {
    ActKeepsValid(fingerprint, d, act);
  }

  lemma AuthorizeActKeeps(
    fingerprint: Config -> string, d: Acts.Desk, r: string, c: nat, cmd: Command, out: Outside, first: string, hooked: bool)
    requires Sound(fingerprint, d) && InStep(d, r) && (hooked ==> r in d.sessions)
    ensures Kept(d, Acts.Next(fingerprint, d, AuthorizeAct(r, c, cmd, out, first, hooked)), r)
  {
    if hooked {
      AuthorizeKeeps(fingerprint, d, r, c, cmd, out, first);
    } else {
      ExecKeeps(fingerprint, d, ExecutionProtocol.Authorize(c, cmd, out.ev, out.requestId, out.limitId, first, None), r);
    }
  }

  lemma SetExperimentTwice(s: Store, e: string, x: ExperimentState, y: ExperimentState)
    requires e in s.experiments
    ensures SetExperiment(SetExperiment(s, e, x), e, y) == SetExperiment(s, e, y)
  {
    assert SetExperiment(SetExperiment(s, e, x), e, y).experiments == SetExperiment(s, e, y).experiments;
  }

  /** The tables after one transaction of call c: a new store, and where the call stands now. */
  function Moved(w: World, s: Store, c: nat, call: Option<Call>): World {
    World(s, if call.Some? then w.calls[c := call.value] else w.calls - {c}, w.workerCalls)
  }

  /** A controller's session still agrees with its row in the tables, active cycle id included. */
  ghost predicate InStep(d: Acts.Desk, r: string) {
    r in d.sessions ==> r in d.world.store.orchestrations && SameCore(d.sessions[r], d.world.store.orchestrations[r])
  }

  lemma KeptStaysInStep(d: Acts.Desk, after: Acts.Desk, r: string)
    requires InStep(d, r) && Kept(d, after, r)
    ensures InStep(after, r)
  {
  }

  lemma UntouchedIsKept(d: Acts.Desk, after: Acts.Desk, c: nat, r: string)
    requires Untouched(d, after, c, r)
    ensures Kept(d, after, r)
  {
  }

  lemma CheckMoves(w: World, c: nat, e: string, first: string)
    requires c !in w.calls && MayBeFirst(w.store, e, first)
    ensures var (s, answer) := CheckTx(w.store, e, first);
            Next(w, Check(c, e, first)) == Moved(w, s, c, if answer.None? then Some(Checked(e)) else None)
  {
    assert w.calls - {c} == w.calls;
  }

  lemma RecordMoves(w: World, c: nat, persists: bool)
    requires ExecutionSafety.Valid(w) && c in w.calls && w.calls[c].Returned?
    ensures var (h, inv) := (w.calls[c].handle, w.calls[c].inv);
            && h.attemptId in w.store.attempts && h.experimentId in w.store.experiments
            && Next(w, Record(c, persists))
               == Moved(w, if persists then RecordTx(w.store, h, Classify(inv).0, Classify(inv).1) else w.store, c,
                        if persists && inv.status.InvocationCompleted? && inv.result.Some? then Some(Recorded(h, inv)) else None)
  {
    assert ExecutionSafety.CallOk(w.store, w.calls[c]);
  }

  /** A grant is visible in the tables: the attempt of the fresh request is there. */
  lemma GrantShows(w: World, c: nat, cmd: Command, out: Outside, first: string, hook: Option<Orchestration>)
    requires FreshIds(w.store, out.requestId, out.limitId) && MayBeFirst(w.store, cmd.experimentId, first)
    requires c in w.calls ==> w.calls[c] == Checked(cmd.experimentId)
    ensures var after := Next(w, ExecutionProtocol.Authorize(c, cmd, out.ev, out.requestId, out.limitId, first, hook));
            var result := AuthorizeTx(w.store, cmd, out.ev, out.requestId, out.limitId, first, hook).1;
            (result.Granted? <==> AttemptId(out.requestId) in after.store.attempts && AttemptId(out.requestId) !in w.store.attempts)
  {
    ExecutionSafety.AuthorizeGrantsOnceOrDeclines(w.store, cmd, out.ev, out.requestId, out.limitId, first, hook);
  }

  /** Where the authorize act leaves the desk, told through the transaction's own result. */
  lemma AuthorizeNext(fingerprint: Config -> string, d: Acts.Desk, r: string, c: nat, cmd: Command, out: Outside, first: string, hooked: bool)
    requires FreshIds(d.world.store, out.requestId, out.limitId) && MayBeFirst(d.world.store, cmd.experimentId, first)
    requires c in d.world.calls ==> d.world.calls[c] == Checked(cmd.experimentId)
    requires hooked ==> r in d.sessions
    ensures var (uow, result) := AuthorizeTx(d.world.store, cmd, out.ev, out.requestId, out.limitId, first, HookFor(d, r, cmd, out, hooked));
            Acts.Next(fingerprint, d, AuthorizeAct(r, c, cmd, out, first, hooked))
            == Acts.Desk(Moved(d.world, uow, c, if result.Granted? then Some(Holding(result.handle)) else None),
                         if hooked && result.Granted?
                         then d.sessions[r := Acts.Hooked(d.sessions[r], cmd.experimentId, AttemptId(out.requestId))] else d.sessions)
  {
    GrantShows(d.world, c, cmd, out, first, HookFor(d, r, cmd, out, hooked));
  }

  class ExecutePlannedExperiment {
    const db: Connection

    constructor (db: Connection)
      ensures this.db == db
    {
      this.db := db;
    }

    /** Commit of one step of the execution protocol by this process. */
    method CommitStep(after: World, ghost step: Step)
      requires db.Ok() && Acts.Hookless(step) && after == Next(db.desk.world, step)
      modifies db`desk, db`trace
      ensures db.Ok() && db.trace == old(db.trace) + [Acts.Exec(step)]
      ensures db.desk == old(db.desk).(world := after) && Kept(old(db.desk), db.desk, db.r)
      ensures Invokes(db.trace, db.c) == Invokes(old(db.trace), db.c) + if step == Invoke(db.c) then 1 else 0
    {
      db.Invariant();
      ExecKeeps(db.fingerprint, db.desk, step, db.r);
      db.Commit(db.desk.(world := after), Acts.Exec(step));
    }

    method FailClosedExisting(e: string) returns (existing: Option<Answer>, ghost first: string)
      requires db.Ok() && db.c !in db.desk.world.calls
      modifies db`desk, db`trace
      ensures db.Ok() && MayBeFirst(old(db.desk.world.store), e, first)
      ensures db.trace == old(db.trace) + [Acts.Exec(Check(db.c, e, first))] && Kept(old(db.desk), db.desk, db.r)
      ensures if existing.None? then db.c in db.desk.world.calls && db.desk.world.calls[db.c] == Checked(e)
                                     && AttemptsOf(old(db.desk.world.store), e) == {}
              else db.c !in db.desk.world.calls
      ensures (db.desk.world.store, existing) == CheckTx(old(db.desk.world.store), e, first)
      ensures Invokes(db.trace, db.c) == Invokes(old(db.trace), db.c)
    {
      var w := db.desk.world;
      var uow: Store;
      db.Invariant();
      uow, existing, first := CheckIn(w.store, e);
      var after := Moved(w, uow, db.c, if existing.None? then Some(Checked(e)) else None);
      CheckMoves(w, db.c, e, first);
      CommitStep(after, Check(db.c, e, first));
    }

    /** The fail-closed read: whatever attempt comes first decides, and a DISPATCHING one is marked unknown. */
    method CheckIn(s: Store, e: string) returns (committed: Store, existing: Option<Answer>, ghost first: string)
      requires ExecutionSafety.AttemptsOk(s)
      ensures MayBeFirst(s, e, first) && (committed, existing) == CheckTx(s, e, first)
      ensures existing.None? ==> AttemptsOf(s, e) == {}
    {
      first := "";
      if e !in s.experiments {
        return s, Some(Answer(InputRejected, None)), first;
      }
      var state := s.experiments[e].state;
      var attempts := AttemptsOf(s, e);
      if attempts == {} {
        return s, if Terminal(state) then Some(Answer(AlreadyTerminal, Some(state))) else None, first;
      }
      var chosen :| chosen in attempts;
      first := chosen;
      var attempt := s.attempts[chosen];
      if attempt.state == Dispatching {
        return SetAttempt(s, chosen, UnknownOutcome), Some(Answer(OutcomeUnknown, Some(state))), first;
      }
      if attempt.state == Completed && e in s.reauthorized {
        return s, Some(Answer(ReauthorizationRequired, Some(state))), first;
      }
      return s, Some(Answer(ExistingStatus(attempt.state), Some(state))), first;
    }

    /** The authorize transaction; leaving it without commit drops the unit of work. A colliding id makes the insert raise. */
    method Authorize(cmd: Command, out: Outside, hooked: bool) returns (result: AuthorizeResult, ghost first: string)
      requires db.Ok() && InStep(db.desk, db.r) && (hooked ==> db.r in db.desk.sessions)
      requires db.c in db.desk.world.calls ==> db.desk.world.calls[db.c] == Checked(cmd.experimentId)
      modifies db`desk, db`trace
      ensures db.Ok() && Kept(old(db.desk), db.desk, db.r)
      ensures Invokes(db.trace, db.c) == Invokes(old(db.trace), db.c)
      ensures MayBeFirst(old(db.desk.world.store), cmd.experimentId, first)
      ensures var act := if FreshIds(old(db.desk.world.store), out.requestId, out.limitId)
                         then AuthorizeAct(db.r, db.c, cmd, out, first, hooked) else Acts.Exec(Crash(db.c));
              db.trace == old(db.trace) + [act]
      ensures if result.Granted? then db.c in db.desk.world.calls && db.desk.world.calls[db.c] == Holding(result.handle)
              else db.c !in db.desk.world.calls
      ensures var s := old(db.desk.world.store);
              if FreshIds(s, out.requestId, out.limitId)
              then (db.desk.world.store, result)
                   == AuthorizeTx(s, cmd, out.ev, out.requestId, out.limitId, first, HookFor(old(db.desk), db.r, cmd, out, hooked))
              else result == AuthorizeRaised && db.desk.world.store == s
    {
      var w := db.desk.world;
      first := "";
      if AttemptsOf(w.store, cmd.experimentId) != {} {
        first :| first in AttemptsOf(w.store, cmd.experimentId);
      }
      if FreshIds(w.store, out.requestId, out.limitId) {
        result := AuthorizeFresh(cmd, out, hooked, first);
      } else {
        result := AuthorizeRaised;
        CommitStep(End(w, db.c), Crash(db.c));
      }
    }

    method AuthorizeFresh(cmd: Command, out: Outside, hooked: bool, ghost first: string) returns (result: AuthorizeResult)
      requires db.Ok() && InStep(db.desk, db.r) && (hooked ==> db.r in db.desk.sessions)
      requires db.c in db.desk.world.calls ==> db.desk.world.calls[db.c] == Checked(cmd.experimentId)
      requires FreshIds(db.desk.world.store, out.requestId, out.limitId) && MayBeFirst(db.desk.world.store, cmd.experimentId, first)
      modifies db`desk, db`trace
      ensures db.Ok() && Kept(old(db.desk), db.desk, db.r)
      ensures Invokes(db.trace, db.c) == Invokes(old(db.trace), db.c)
      ensures db.trace == old(db.trace) + [AuthorizeAct(db.r, db.c, cmd, out, first, hooked)]
      ensures if result.Granted? then db.c in db.desk.world.calls && db.desk.world.calls[db.c] == Holding(result.handle)
              else db.c !in db.desk.world.calls
      ensures (db.desk.world.store, result)
           == AuthorizeTx(old(db.desk.world.store), cmd, out.ev, out.requestId, out.limitId, first,
                          HookFor(old(db.desk), db.r, cmd, out, hooked))
    {
      db.Invariant();
      var (w, sessions) := (db.desk.world, db.desk.sessions);
      var uow: Store;
      uow, result := AuthorizeIn(w.store, cmd, out, HookFor(db.desk, db.r, cmd, out, hooked), first);
      var call := if result.Granted? then Some(Holding(result.handle)) else None;
      if hooked && result.Granted? {
        sessions := sessions[db.r := Acts.Hooked(sessions[db.r], cmd.experimentId, AttemptId(out.requestId))];
      }
      AuthorizeNext(db.fingerprint, db.desk, db.r, db.c, cmd, out, first, hooked);
      AuthorizeActKeeps(db.fingerprint, db.desk, db.r, db.c, cmd, out, first, hooked);
      db.Commit(Acts.Desk(Moved(w, uow, db.c, call), sessions), AuthorizeAct(db.r, db.c, cmd, out, first, hooked));
    }

    /** The body of the authorize transaction on a unit of work that starts at s. */
    method AuthorizeIn(s: Store, cmd: Command, out: Outside, hook: Option<Orchestration>, ghost first: string)
      returns (committed: Store, result: AuthorizeResult)
      requires MayBeFirst(s, cmd.experimentId, first) && ExecutionSafety.AttemptsOk(s)
      ensures (committed, result) == AuthorizeTx(s, cmd, out.ev, out.requestId, out.limitId, first, hook)
    {
      var e := cmd.experimentId;
      var problem := LoadContext(s, cmd);
      if problem.Some? {
        return s, Answered(problem.value);
      }
      var x := s.experiments[e];
      var attempts := AttemptsOf(s, e);
      if attempts != {} {
        var chosen :| chosen in attempts;
        assert chosen == first;
        return s, Answered(Answer(ExistingStatus(s.attempts[chosen].state), Some(x.state)));
      }
      if !out.ev.capabilityBinds {
        return s, Answered(Answer(DispatchDenied, Some(x.state)));
      }
      if out.ev.httpInputRejected {
        return s, Answered(Answer(InputRejected, Some(x.state)));
      }
      committed, result := Decide(s, cmd, out, hook);
    }

    /** Loading the context and the plan: the first thing that does not fit. */
    method LoadContext(s: Store, cmd: Command) returns (problem: Option<Answer>)
      ensures problem == ContextProblem(s, cmd)
      ensures problem.None? <==> MayExecute(s, cmd)
      ensures problem.Some? ==>
        var e := cmd.experimentId;
        && problem.value.reported == (if e in s.experiments then Some(s.experiments[e].state) else None)
        && problem.value.status == if e in s.experiments && Terminal(s.experiments[e].state) then AlreadyTerminal else InputRejected
    {
      var e := cmd.experimentId;
      if e !in s.experiments {
        return Some(Answer(InputRejected, None));
      }
      var x := s.experiments[e];
      if Terminal(x.state) {
        return Some(Answer(AlreadyTerminal, Some(x.state)));
      }
      if x.hypothesisId != cmd.plan.hypothesisId || x.budgetId != cmd.plan.budgetId {
        return Some(Answer(InputRejected, Some(x.state)));
      }
      if x.hypothesisId !in s.hypotheses || x.runId !in s.runs || x.budgetId !in s.env.budgets {
        return Some(Answer(InputRejected, Some(x.state)));
      }
      if e in s.plans {
        if s.plans[e] != cmd.plan {
          return Some(Answer(InputRejected, Some(x.state)));
        }
      } else if !cmd.plan.bound {
        return Some(Answer(InputRejected, Some(x.state)));
      }
      return None;
    }

    /** From the plan row on: rate limit, Core, session, and the attempt of a granted request. */
    method Decide(s: Store, cmd: Command, out: Outside, hook: Option<Orchestration>)
      returns (committed: Store, result: AuthorizeResult)
      requires cmd.experimentId in s.experiments
      ensures (committed, result) == DecideTx(s, cmd, out.ev, out.requestId, out.limitId, hook)
    {
      var (e, ev) := (cmd.experimentId, out.ev);
      var x := s.experiments[e];
      var uow := s.(plans := s.plans[e := cmd.plan]);
      ghost var planned := uow;
      uow := SetExperiment(uow, e, AuthorizationCheck);
      if !ev.rateAllowed {
        SetExperimentTwice(planned, e, AuthorizationCheck, Blocked);
        uow := SetExperiment(uow, e, Blocked);
        return uow.(audits := uow.audits[DecisionAuditId(out.limitId) := RateLimitDenied(e)]),
               Answered(Answer(DispatchDenied, Some(Blocked)));
      }
      var decision := ev.core;
      if ev.httpScoped && !ev.httpAccepted {
        decision := Deny(ev.httpReason);
      }
      if ev.sessionInputRejected {
        return s, Answered(Answer(InputRejected, Some(x.state)));
      }
      if decision.Allow? && !ev.sessionAccepted {
        decision := Deny(ev.sessionReason);
      }
      committed, result := Apply(s, uow, cmd, out, hook, decision);
    }

    /** What the decision does: deny, wait for a human, or insert the attempt and run the hook. */
    method Apply(s: Store, checking: Store, cmd: Command, out: Outside, hook: Option<Orchestration>, decision: Decision)
      returns (committed: Store, result: AuthorizeResult)
      requires cmd.experimentId in s.experiments
      requires checking == SetExperiment(s.(plans := s.plans[cmd.experimentId := cmd.plan]), cmd.experimentId, AuthorizationCheck)
      requires out.ev.rateAllowed && !out.ev.sessionInputRejected && decision == FinalDecision(out.ev)
      ensures (committed, result) == DecideTx(s, cmd, out.ev, out.requestId, out.limitId, hook)
    {
      var e := cmd.experimentId;
      var auditId := DecisionAuditId(out.requestId);
      var uow := checking.(audits := checking.audits[auditId := ExecutionDecision(e, out.requestId, decision)]);
      ghost var planned := s.(plans := s.plans[e := cmd.plan]);
      if decision.Deny? {
        SetExperimentTwice(planned, e, AuthorizationCheck, DenyState(decision.reason));
        return SetExperiment(uow, e, DenyState(decision.reason)), Answered(Answer(DispatchDenied, Some(DenyState(decision.reason))));
      }
      if decision.Review? {
        return uow, Answered(Answer(HumanReviewRequired, Some(AuthorizationCheck)));
      }
      if !out.ev.requestValid {
        return s, AuthorizeRaised;
      }
      var (x, attemptId) := (s.experiments[e], AttemptId(out.requestId));
      uow := uow.(attempts := uow.attempts[attemptId :=
        Attempt(out.requestId, e, x.runId, cmd.plan.capability, x.budgetId, auditId, Authorized)]);
      SetExperimentTwice(planned, e, AuthorizationCheck, Ready);
      uow := SetExperiment(uow, e, Ready);
      if hook.Some? {
        uow := uow.(orchestrations := uow.orchestrations[hook.value.config.runId := hook.value]);
      }
      return uow, Granted(Handle(e, attemptId));
    }

    /** A handle made again from an AUTHORIZED row, after a restart. */
    method Rebuild(a: string)
      requires db.Ok() && db.c !in db.desk.world.calls
      requires a in db.desk.world.store.attempts && db.desk.world.store.attempts[a].state == Authorized
      modifies db`desk, db`trace
      ensures db.Ok() && Invokes(db.trace, db.c) == Invokes(old(db.trace), db.c)
      ensures db.trace == old(db.trace) + [Acts.Exec(ExecutionProtocol.Rebuild(db.c, a))]
      ensures db.c in db.desk.world.calls
      ensures db.desk.world.calls[db.c] == Holding(Handle(db.desk.world.store.attempts[a].experimentId, a))
      ensures db.desk.sessions == old(db.desk.sessions) && db.desk.world.store == old(db.desk.world.store)
    {
      var w := db.desk.world;
      var h := Handle(w.store.attempts[a].experimentId, a);
      CommitStep(Moved(w, w.store, db.c, Some(Holding(h))), ExecutionProtocol.Rebuild(db.c, a));
    }

    /** The claim transaction: DISPATCHING, RUNNING and both reservations together, or nothing. */
    method Claim(h: Handle) returns (result: DispatchResult)
      requires db.Ok() && db.c in db.desk.world.calls && db.desk.world.calls[db.c] == Holding(h)
      modifies db`desk, db`trace
      ensures db.Ok() && Invokes(db.trace, db.c) == Invokes(old(db.trace), db.c)
      ensures db.trace == old(db.trace) + [Acts.Exec(ExecutionProtocol.Dispatch(db.c))] && Kept(old(db.desk), db.desk, db.r)
      ensures if result.Go? then db.c in db.desk.world.calls && db.desk.world.calls[db.c] == Cleared(h, result.cap)
              else db.c !in db.desk.world.calls
      ensures (db.desk.world.store, result) == DispatchTx(old(db.desk.world.store), h)
    {
      var w := db.desk.world;
      var uow: Store;
      uow, result := ClaimIn(w.store, h);
      var call := if result.Go? then Some(Cleared(h, result.cap)) else None;
      CommitStep(Moved(w, uow, db.c, call), ExecutionProtocol.Dispatch(db.c));
    }

    method ClaimIn(s: Store, h: Handle) returns (committed: Store, result: DispatchResult)
      ensures (committed, result) == DispatchTx(s, h)
    {
      var uow := s;
      if h.attemptId !in uow.attempts || h.experimentId !in uow.experiments {
        var reported := if h.experimentId in uow.experiments then Some(uow.experiments[h.experimentId].state) else None;
        return s, Refusal(Answer(InputRejected, reported));
      }
      var attempt, state := uow.attempts[h.attemptId], uow.experiments[h.experimentId].state;
      if attempt.state != Authorized {
        if attempt.state == Dispatching {
          return SetAttempt(uow, h.attemptId, UnknownOutcome), Refusal(Answer(OutcomeUnknown, Some(state)));
        }
        return s, Refusal(Answer(ExistingStatus(attempt.state), Some(state)));
      }
      if attempt.budgetId !in uow.env.budgets {
        return s, Refusal(Answer(InputRejected, Some(state)));
      }
      uow := SetAttempt(uow, h.attemptId, Dispatching);
      uow := SetExperiment(uow, h.experimentId, Running);
      var amount := RequestAmount(uow, attempt);
      if amount.None? {
        return s, Refusal(Answer(DispatchDenied, Some(BudgetExhausted)));
      }
      var charges := [Charge(attempt, WorkerInvocation, 1), Charge(attempt, Request, amount.value)];
      for i := 0 to 2
        invariant i == 0 ==> uow.ledger == s.ledger
        invariant i == 1 ==> var (o, once) := InsertWithinAllowance(s.env, s.ledger, charges[0]);
                             !o.Overspend? && !o.Refused? && uow.ledger == once
        invariant i == 2 ==> Reserve(s, attempt) == (Inserted, uow.ledger, amount.value)
        invariant uow == SetExperiment(SetAttempt(s, h.attemptId, Dispatching), h.experimentId, Running).(ledger := uow.ledger)
      {
        var (outcome, ledger) := InsertWithinAllowance(uow.env, uow.ledger, charges[i]);
        if outcome.Overspend? {
          return s, Refusal(Answer(DispatchDenied, Some(BudgetExhausted)));
        }
        if outcome.Refused? {
          return s, DispatchRaised;
        }
        uow := uow.(ledger := ledger);
      }
      return uow, Go(if attempt.capability == BROWSER_PAGE then Some(amount.value) else None);
    }

    /** The Worker call; its answer comes back through Receive. */
    method Send()
      requires db.Ok() && db.c in db.desk.world.calls && db.desk.world.calls[db.c].Cleared?
      modifies db`desk, db`trace
      ensures db.Ok() && Invokes(db.trace, db.c) == Invokes(old(db.trace), db.c) + 1
      ensures db.trace == old(db.trace) + [Acts.Exec(Invoke(db.c))] && Kept(old(db.desk), db.desk, db.r)
      ensures db.c in db.desk.world.calls && db.desk.world.calls[db.c] == InFlight(old(db.desk.world.calls[db.c].handle))
    {
      var w := db.desk.world;
      var h := w.calls[db.c].handle;
      db.Invariant();
      assert ExecutionSafety.CallOk(w.store, w.calls[db.c]);
      var attempt := w.store.attempts[h.attemptId];
      var call := WorkerCall(h.experimentId, attempt.requestId, attempt.budgetId, w.calls[db.c].cap);
      CommitStep(World(w.store, w.calls[db.c := InFlight(h)], w.workerCalls + [call]), Invoke(db.c));
    }

    method Receive(inv: Invocation)
      requires db.Ok() && db.c in db.desk.world.calls && db.desk.world.calls[db.c].InFlight?
      modifies db`desk, db`trace
      ensures db.Ok() && Invokes(db.trace, db.c) == Invokes(old(db.trace), db.c)
      ensures db.trace == old(db.trace) + [Acts.Exec(Return(db.c, inv))] && Kept(old(db.desk), db.desk, db.r)
      ensures db.c in db.desk.world.calls && db.desk.world.calls[db.c] == Returned(old(db.desk.world.calls[db.c].handle), inv)
    {
      var w := db.desk.world;
      CommitStep(Moved(w, w.store, db.c, Some(Returned(w.calls[db.c].handle, inv))), Return(db.c, inv));
    }

    /** The outcome transaction. It is given up when the tables refuse the write. */
    method RecordOutcome(persists: bool)
      requires db.Ok() && db.c in db.desk.world.calls && db.desk.world.calls[db.c].Returned?
      modifies db`desk, db`trace
      ensures db.Ok() && Invokes(db.trace, db.c) == Invokes(old(db.trace), db.c)
      ensures db.trace == old(db.trace) + [Acts.Exec(Record(db.c, persists))] && Kept(old(db.desk), db.desk, db.r)
      ensures var (h, inv) := (old(db.desk.world.calls[db.c]).handle, old(db.desk.world.calls[db.c]).inv);
              && (db.c in db.desk.world.calls <==> persists && inv.status.InvocationCompleted? && inv.result.Some?)
              && (db.c in db.desk.world.calls ==> db.desk.world.calls[db.c] == Recorded(h, inv))
              && (persists ==> h.attemptId in db.desk.world.store.attempts && h.experimentId in db.desk.world.store.experiments
                               && db.desk.world.store.attempts[h.attemptId].state == Classify(inv).0
                               && db.desk.world.store.experiments[h.experimentId].state == Classify(inv).1)
    {
      var w := db.desk.world;
      var (h, inv) := (w.calls[db.c].handle, w.calls[db.c].inv);
      db.Invariant();
      RecordMoves(w, db.c, persists);
      var uow := w.store;
      var call: Option<Call> := None;
      if persists {
        var (a, x, _) := Classify(inv);
        uow := SetAttempt(uow, h.attemptId, a);
        uow := SetExperiment(uow, h.experimentId, x);
        if inv.status.InvocationCompleted? && inv.result.Some? {
          call := Some(Recorded(h, inv));
        }
      }
      CommitStep(Moved(w, uow, db.c, call), Record(db.c, persists));
    }

    method Ingest(verdict: IngestVerdict)
      requires db.Ok() && db.c in db.desk.world.calls && db.desk.world.calls[db.c].Recorded?
      modifies db`desk, db`trace
      ensures db.Ok() && Invokes(db.trace, db.c) == Invokes(old(db.trace), db.c)
      ensures db.trace == old(db.trace) + [Acts.Exec(ExecutionProtocol.Ingest(db.c, verdict))] && Kept(old(db.desk), db.desk, db.r)
      ensures db.c in db.desk.world.calls <==> verdict.IngestRejected?
      ensures db.c in db.desk.world.calls ==> db.desk.world.calls[db.c] == Unusable(old(db.desk.world.calls[db.c].handle))
    {
      var w := db.desk.world;
      var (h, inv) := (w.calls[db.c].handle, w.calls[db.c].inv);
      var uow := w.store;
      if !verdict.IngestRejected? && inv.result == Some(Reauthorize) {
        uow := uow.(reauthorized := uow.reauthorized + {h.experimentId});
      }
      var call := if verdict.IngestRejected? then Some(Unusable(h)) else None;
      CommitStep(Moved(w, uow, db.c, call), ExecutionProtocol.Ingest(db.c, verdict));
    }

    /** A rejected result turns the attempt into FAILED, in a transaction of its own. */
    method FailUnusable()
      requires db.Ok() && db.c in db.desk.world.calls && db.desk.world.calls[db.c].Unusable?
      modifies db`desk, db`trace
      ensures db.Ok() && Invokes(db.trace, db.c) == Invokes(old(db.trace), db.c)
      ensures db.trace == old(db.trace) + [Acts.Exec(MarkFailed(db.c))] && Kept(old(db.desk), db.desk, db.r)
      ensures db.c !in db.desk.world.calls
      ensures var h := old(db.desk.world.calls[db.c].handle);
              && h.attemptId in db.desk.world.store.attempts && h.experimentId in db.desk.world.store.experiments
              && db.desk.world.store.attempts[h.attemptId].state == Failed
              && db.desk.world.store.experiments[h.experimentId].state == ExecutionFailed
    {
      var w := db.desk.world;
      var h := w.calls[db.c].handle;
      db.Invariant();
      assert ExecutionSafety.CallOk(w.store, w.calls[db.c]);
      var uow := SetAttempt(w.store, h.attemptId, Failed);
      uow := SetExperiment(uow, h.experimentId, ExecutionFailed);
      CommitStep(Moved(w, uow, db.c, None), MarkFailed(db.c));
    }

    // ------------------------------------------------------- whole calls

    /** Others run between two of our transactions. */
    method Yield(ghost start: Acts.Desk)
      requires db.Ok() && Kept(start, db.desk, db.r)
      modifies db
      ensures db.Ok() && old(db.trace) <= db.trace && Invokes(db.trace, db.c) == Invokes(old(db.trace), db.c)
      ensures SameCall(old(db.desk.world), db.desk.world, db.c) && Kept(old(db.desk), db.desk, db.r) && Kept(start, db.desk, db.r)
    {
      db.Others();
      UntouchedIsKept(old(db.desk), db.desk, db.c, db.r);
      KeptTransitive(start, old(db.desk), db.desk, db.r);
    }

    /** Everything after a committed claim: call the Worker, record the outcome, ingest its result. */
    method Complete(out: Outside)
      requires db.Ok() && db.c in db.desk.world.calls && db.desk.world.calls[db.c].Cleared?
      modifies db
      ensures db.Ok() && old(db.trace) <= db.trace && db.c !in db.desk.world.calls && Kept(old(db.desk), db.desk, db.r)
      ensures Invokes(db.trace, db.c) == Invokes(old(db.trace), db.c) + 1
    {
      ghost var start := db.desk;
      CallWorker(out.inv);
      Yield(start);
      ghost var before := db.desk;
      RecordOutcome(out.persists);
      KeptTransitive(start, before, db.desk, db.r);
      if db.c in db.desk.world.calls {
        IngestResult(out.verdict, start);
      }
    }

    /** Others run while the Worker works. */
    method CallWorker(inv: Invocation)
      requires db.Ok() && db.c in db.desk.world.calls && db.desk.world.calls[db.c].Cleared?
      modifies db
      ensures db.Ok() && old(db.trace) <= db.trace && Kept(old(db.desk), db.desk, db.r)
      ensures db.c in db.desk.world.calls && db.desk.world.calls[db.c] == Returned(old(db.desk.world.calls[db.c].handle), inv)
      ensures Invokes(db.trace, db.c) == Invokes(old(db.trace), db.c) + 1
    {
      ghost var start := db.desk;
      Send();
      Yield(start);
      ghost var before := db.desk;
      Receive(inv);
      KeptTransitive(start, before, db.desk, db.r);
    }

    method IngestResult(verdict: IngestVerdict, ghost start: Acts.Desk)
      requires db.Ok() && db.c in db.desk.world.calls && db.desk.world.calls[db.c].Recorded? && Kept(start, db.desk, db.r)
      modifies db
      ensures db.Ok() && old(db.trace) <= db.trace && db.c !in db.desk.world.calls && Kept(start, db.desk, db.r)
      ensures Invokes(db.trace, db.c) == Invokes(old(db.trace), db.c)
    {
      Yield(start);
      ghost var before := db.desk;
      Ingest(verdict);
      KeptTransitive(start, before, db.desk, db.r);
      if db.c in db.desk.world.calls {
        Yield(start);
        before := db.desk;
        FailUnusable();
        KeptTransitive(start, before, db.desk, db.r);
      }
    }

    /** The Worker is called exactly when the claim goes through, and then once. */
    method Dispatch(h: Handle, out: Outside) returns (result: LoopResult)
      requires db.Ok() && db.c in db.desk.world.calls && db.desk.world.calls[db.c] == Holding(h)
      modifies db
      ensures db.Ok() && old(db.trace) <= db.trace && db.c !in db.desk.world.calls && Kept(old(db.desk), db.desk, db.r)
      ensures var claim := DispatchTx(old(db.desk.world.store), h).1;
              && Invokes(db.trace, db.c) == Invokes(old(db.trace), db.c) + (if claim.Go? then 1 else 0)
              && result == (match claim
                            case Go(_) => Replied(OutcomeAnswer(out))
                            case Refusal(answer) => Replied(answer)
                            case DispatchRaised => LoopRaised)
    {
      var claim := Claim(h);
      match claim {
        case Refusal(answer) => result := Replied(answer);
        case DispatchRaised => result := LoopRaised;
        case Go(_) =>
          ghost var claimed := db.desk;
          Complete(out);
          KeptTransitive(old(db.desk), claimed, db.desk, db.r);
          result := Replied(OutcomeAnswer(out));
      }
    }

    /** One execute: at most one Worker call, and none for an experiment that was ever attempted. */
    method Execute(cmd: Command, out: Outside, hooked: bool) returns (result: LoopResult)
      requires db.Ok() && db.c !in db.desk.world.calls && InStep(db.desk, db.r)
      requires hooked ==> db.r in db.desk.sessions
      modifies db
      ensures db.Ok() && old(db.trace) <= db.trace && db.c !in db.desk.world.calls
      ensures Kept(old(db.desk), db.desk, db.r)
      ensures Invokes(old(db.trace), db.c) <= Invokes(db.trace, db.c) <= Invokes(old(db.trace), db.c) + 1
      ensures AttemptsOf(old(db.desk.world.store), cmd.experimentId) != {} ==>
                Invokes(db.trace, db.c) == Invokes(old(db.trace), db.c)
      ensures Invokes(db.trace, db.c) > Invokes(old(db.trace), db.c) ==> result == Replied(OutcomeAnswer(out))
    {
      ghost var start := db.desk;
      ghost var first: string;
      var existing: Option<Answer>;
      existing, first := FailClosedExisting(cmd.experimentId);
      if existing.Some? {
        return Replied(existing.value);
      }
      Yield(start);
      KeptStaysInStep(start, db.desk, db.r);
      result := AuthorizeAndDispatch(cmd, out, hooked, start);
    }

    method AuthorizeAndDispatch(cmd: Command, out: Outside, hooked: bool, ghost start: Acts.Desk) returns (result: LoopResult)
      requires db.Ok() && Kept(start, db.desk, db.r) && InStep(db.desk, db.r)
      requires hooked ==> db.r in db.desk.sessions
      requires db.c in db.desk.world.calls && db.desk.world.calls[db.c] == Checked(cmd.experimentId)
      modifies db
      ensures db.Ok() && old(db.trace) <= db.trace && db.c !in db.desk.world.calls && Kept(start, db.desk, db.r)
      ensures Invokes(old(db.trace), db.c) <= Invokes(db.trace, db.c) <= Invokes(old(db.trace), db.c) + 1
      ensures Invokes(db.trace, db.c) > Invokes(old(db.trace), db.c) ==> result == Replied(OutcomeAnswer(out))
    {
      var authorized := TryAuthorize(cmd, out, hooked, start);
      match authorized {
        case Answered(answer) => return Replied(answer);
        case AuthorizeRaised => return LoopRaised;
        case Granted(h) =>
          Yield(start);
          ghost var before := db.desk;
          result := Dispatch(h, out);
          KeptTransitive(start, before, db.desk, db.r);
      }
    }

    method TryAuthorize(cmd: Command, out: Outside, hooked: bool, ghost start: Acts.Desk) returns (result: AuthorizeResult)
      requires db.Ok() && Kept(start, db.desk, db.r) && InStep(db.desk, db.r)
      requires hooked ==> db.r in db.desk.sessions
      requires db.c in db.desk.world.calls && db.desk.world.calls[db.c] == Checked(cmd.experimentId)
      modifies db`desk, db`trace
      ensures db.Ok() && old(db.trace) <= db.trace && Kept(start, db.desk, db.r)
      ensures Invokes(db.trace, db.c) == Invokes(old(db.trace), db.c)
      ensures if result.Granted? then db.c in db.desk.world.calls && db.desk.world.calls[db.c] == Holding(result.handle)
              else db.c !in db.desk.world.calls
    {
      ghost var first: string;
      result, first := Authorize(cmd, out, hooked);
      KeptTransitive(start, old(db.desk), db.desk, db.r);
    }
  }
}
