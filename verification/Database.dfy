/** One process's connection to the shared tables. Between any two of its transactions, everybody else
    may run any transactions of their own; the schedule says which. */
module Database {
  import opened Common
  import opened Records
  import opened OrchestrationProtocol
  import opened OrchestrationSafety
  import Execution = ExecutionProtocol
  import ExecutionSafety
  import ExecutionTheorems

  // ------------------------------------------------------------ other people

  /** The in-process call a step of the execution protocol belongs to. */
  function CallOf(step: Execution.Step): Option<nat> {
    match step
    case Prepare(_, _, _) => None
    case ChargeElsewhere(_) => None
    case _ => Some(step.c)
  }

  /** Acts of others: never on our call, and on our run only what an operator may do. */
  predicate Foreign(c: nat, r: string, act: Act) {
    match act
    case Exec(step) => CallOf(step) != Some(c)
    case Pause(_) => true
    case Resume(_) => true
    case Cancel(_) => true
    case Start(config) => config.runId != r
    case Authorize(q, call, _, _, _, _, _) => q != r && call != c
    case _ => act.r != r
  }

  /** Our Worker calls in a trace. */
  function Invokes(trace: seq<Act>, c: nat): nat {
    if trace == [] then 0
    else Invokes(trace[..|trace| - 1], c) + if trace[|trace| - 1] == Exec(Execution.Invoke(c)) then 1 else 0
  }

  lemma InvokesAppend(trace: seq<Act>, act: Act, c: nat)
    ensures Invokes(trace + [act], c) == Invokes(trace, c) + if act == Exec(Execution.Invoke(c)) then 1 else 0
  {
    assert (trace + [act])[..|trace|] == trace;
  }

  lemma RunAppend(fingerprint: Config -> string, d: Desk, trace: seq<Act>, act: Act)
    ensures Run(fingerprint, d, trace + [act]) == Next(fingerprint, Run(fingerprint, d, trace), act)
  {
    assert (trace + [act])[..|trace|] == trace;
  }

  ghost predicate SameCall(w: Execution.World, after: Execution.World, c: nat) {
    (c in w.calls <==> c in after.calls) && (c in w.calls ==> after.calls[c] == w.calls[c])
  }

  /** Configuration, count and active cycle id of a run's row. */
  predicate SameCore(a: Orchestration, b: Orchestration) {
    Agrees(a, b) && a.activeCycleId == b.activeCycleId
  }

  /** What others leave as it was: our call, our session, the core and the history of our run. */
  ghost predicate Untouched(d: Desk, after: Desk, c: nat, r: string) {
    var (s, t) := (d.world.store, after.world.store);
    && SameCall(d.world, after.world, c)
    && (r in d.sessions <==> r in after.sessions) && (r in d.sessions ==> after.sessions[r] == d.sessions[r])
    && (r in s.orchestrations <==> r in t.orchestrations)
    && (r in s.orchestrations ==> SameCore(s.orchestrations[r], t.orchestrations[r]))
    && RowsOf(s, r) == RowsOf(t, r)
    && ExecutionSafety.Follows(s, t)
    && (forall a :: ExecutionTheorems.Abandoned(d.world, a) ==> ExecutionTheorems.Abandoned(after.world, a))
  }

  lemma AuthorizeLeavesCall(
    w: Execution.World, d: nat, cmd: Execution.Command, ev: Execution.Evaluation, requestId: string, limitId: string,
    first: string, hook: Option<Orchestration>, c: nat)
    requires d != c
    ensures SameCall(w, Execution.Next(w, Execution.Authorize(d, cmd, ev, requestId, limitId, first, hook)), c)
  {
  }

  lemma ExecLeavesCall(w: Execution.World, step: Execution.Step, c: nat)
    requires CallOf(step) != Some(c)
    ensures SameCall(w, Execution.Next(w, step), c)
  {
    match step
    case Check(d, e, first) => assert SameCall(w, Execution.Next(w, Execution.Check(d, e, first)), c);
    case Authorize(d, cmd, ev, requestId, limitId, first, hook) =>
      AuthorizeLeavesCall(w, d, cmd, ev, requestId, limitId, first, hook, c);
    case Rebuild(d, a) => assert SameCall(w, Execution.Next(w, Execution.Rebuild(d, a)), c);
    case Dispatch(d) => assert SameCall(w, Execution.Next(w, Execution.Dispatch(d)), c);
    case Invoke(d) => assert SameCall(w, Execution.Next(w, Execution.Invoke(d)), c);
    case Return(d, inv) => assert SameCall(w, Execution.Next(w, Execution.Return(d, inv)), c);
    case Record(d, persists) => assert SameCall(w, Execution.Next(w, Execution.Record(d, persists)), c);
    case Ingest(d, verdict) => assert SameCall(w, Execution.Next(w, Execution.Ingest(d, verdict)), c);
    case MarkFailed(d) => assert SameCall(w, Execution.Next(w, Execution.MarkFailed(d)), c);
    case Crash(d) => assert SameCall(w, Execution.Next(w, Execution.Crash(d)), c);
    case Prepare(e, runId, plan) => assert SameCall(w, Execution.Next(w, Execution.Prepare(e, runId, plan)), c);
    case ChargeElsewhere(record) => assert SameCall(w, Execution.Next(w, Execution.ChargeElsewhere(record)), c);
  }

  lemma ForeignLeavesCall(fingerprint: Config -> string, d: Desk, act: Act, c: nat, r: string)
    requires Foreign(c, r, act)
    ensures SameCall(d.world, Next(fingerprint, d, act).world, c)
  {
    if OnlyOrchestrates(act) {
      OrchestratingKeepsExecution(fingerprint, d, act);
    } else {
      match act
      case Exec(step) => ExecLeavesCall(d.world, step, c);
      case Authorize(q, call, cmd, ev, requestId, limitId, first) =>
        if q in d.sessions {
          AuthorizeLeavesCall(d.world, call, cmd, ev, requestId, limitId, first,
            Some(Hooked(d.sessions[q], cmd.experimentId, Execution.AttemptId(requestId))), c);
        }
      case _ =>
    }
  }

  lemma OperatorKeepsCore(fingerprint: Config -> string, d: Desk, act: Act, r: string)
    requires act.Pause? || act.Resume? || act.Cancel?
    ensures var (s, after) := (d.world.store, Next(fingerprint, d, act));
            var t := after.world.store;
            && after.sessions == d.sessions && RowsOf(t, r) == RowsOf(s, r)
            && (r in s.orchestrations <==> r in t.orchestrations)
            && (r in s.orchestrations ==> SameCore(s.orchestrations[r], t.orchestrations[r]))
  {
  }

  lemma ForeignLeavesRun(fingerprint: Config -> string, d: Desk, act: Act, c: nat, r: string)
    requires Sound(fingerprint, d) && Foreign(c, r, act)
    ensures var (s, after) := (d.world.store, Next(fingerprint, d, act));
            var t := after.world.store;
            && (r in d.sessions <==> r in after.sessions) && (r in d.sessions ==> after.sessions[r] == d.sessions[r])
            && (r in s.orchestrations <==> r in t.orchestrations)
            && (r in s.orchestrations ==> SameCore(s.orchestrations[r], t.orchestrations[r]))
            && RowsOf(s, r) == RowsOf(t, r)
  {
    if act.Pause? || act.Resume? || act.Cancel? {
      OperatorKeepsCore(fingerprint, d, act, r);
    } else if act.Exec? {
      if Hookless(act.step) { ExecutionIsBlind(d.world, act.step); }
    } else {
      ActTouches(fingerprint, d, act);
      assert SameRun(d, Next(fingerprint, d, act), r);
    }
  }

  lemma ActKeepsAbandoned(fingerprint: Config -> string, d: Desk, act: Act, a: string)
    requires ExecutionSafety.Valid(d.world) && ExecutionTheorems.Abandoned(d.world, a)
    ensures ExecutionTheorems.Abandoned(Next(fingerprint, d, act).world, a)
  {
    if OnlyOrchestrates(act) {
      OrchestratingKeepsExecution(fingerprint, d, act);
      SameCallsKeepAbandoned(d.world, Next(fingerprint, d, act).world, a);
    } else {
      match act
      case Exec(step) =>
        if Hookless(step) { ExecutionTheorems.StepLeavesAlone(d.world, step, a); }
      case Authorize(q, call, cmd, ev, requestId, limitId, first) =>
        if q in d.sessions {
          ExecutionTheorems.AuthorizeLeavesAlone(d.world, call, cmd, ev, requestId, limitId, first,
            Some(Hooked(d.sessions[q], cmd.experimentId, Execution.AttemptId(requestId))), a);
        }
      case Prepare(q, e, plan, hypothesis) => PrepareKeepsAbandoned(fingerprint, d, q, e, plan, hypothesis, a);
    }
  }

  lemma SameCallsKeepAbandoned(w: Execution.World, after: Execution.World, a: string)
    requires ExecutionTheorems.Abandoned(w, a) && after.calls == w.calls && after.store.attempts == w.store.attempts
    requires forall e :: e in w.store.experiments ==> e in after.store.experiments && after.store.experiments[e] == w.store.experiments[e]
    ensures ExecutionTheorems.Abandoned(after, a)
  {
  }

  lemma PrepareKeepsAbandoned(
    fingerprint: Config -> string, d: Desk, q: string, e: string, plan: Plan, hypothesis: Option<string>, a: string)
    requires ExecutionTheorems.Abandoned(d.world, a)
    ensures ExecutionTheorems.Abandoned(Next(fingerprint, d, Prepare(q, e, plan, hypothesis)).world, a)
  {
    SameCallsKeepAbandoned(d.world, Next(fingerprint, d, Prepare(q, e, plan, hypothesis)).world, a);
  }

  lemma ForeignLeavesUntouched(fingerprint: Config -> string, d: Desk, act: Act, c: nat, r: string)
    requires Sound(fingerprint, d) && Foreign(c, r, act)
    ensures Untouched(d, Next(fingerprint, d, act), c, r)
  {
    ForeignLeavesCall(fingerprint, d, act, c, r);
    ForeignLeavesRun(fingerprint, d, act, c, r);
    ActKeepsValid(fingerprint, d, act);
    forall a | ExecutionTheorems.Abandoned(d.world, a) ensures ExecutionTheorems.Abandoned(Next(fingerprint, d, act).world, a) {
      ActKeepsAbandoned(fingerprint, d, act, a);
    }
  }

  lemma UntouchedTransitive(d: Desk, middle: Desk, after: Desk, c: nat, r: string)
    requires Untouched(d, middle, c, r) && Untouched(middle, after, c, r)
    ensures Untouched(d, after, c, r)
  {
    ExecutionTheorems.FollowsTransitive(d.world.store, middle.world.store, after.world.store);
  }

  lemma UntouchedItself(d: Desk, c: nat, r: string)
    ensures Untouched(d, d, c, r)
  {
  }

  // -------------------------------------------------------------- connection

  class Connection {
    const fingerprint: Config -> string
    const c: nat
    const r: string
    ghost const origin: Desk
    var desk: Desk
    var schedule: seq<seq<Act>>
    ghost var trace: seq<Act>

    constructor (fingerprint: Config -> string, c: nat, r: string, desk: Desk, schedule: seq<seq<Act>>)
      requires Sound(fingerprint, desk)
      ensures Ok() && this.fingerprint == fingerprint && this.c == c && this.r == r
      ensures this.desk == desk && origin == desk && trace == []
    {
      this.fingerprint, this.c, this.r, origin, this.desk, this.schedule, trace := fingerprint, c, r, desk, desk, schedule, [];
    }

    /** The tables are always those of a run of the protocol, ours and the others' acts interleaved. */
    ghost predicate Ok() reads this {
      Sound(fingerprint, origin) && desk == Run(fingerprint, origin, trace)
    }

    /** Hence every invariant of such runs holds now. */
    lemma Invariant()
      requires Ok()
      ensures Sound(fingerprint, desk)
    {
      RunKeepsSound(fingerprint, origin, trace);
    }

    /** Commit of one transaction of ours, or one Worker event: the tables become next. */
    method Commit(next: Desk, ghost act: Act)
      requires Ok() && next == Next(fingerprint, desk, act)
      modifies this`desk, this`trace
      ensures Ok() && desk == next && trace == old(trace) + [act]
      ensures Invokes(trace, c) == Invokes(old(trace), c) + if act == Exec(Execution.Invoke(c)) then 1 else 0
    {
      RunAppend(fingerprint, origin, trace, act);
      InvokesAppend(trace, act, c);
      desk := next;
      trace := trace + [act];
    }

    /** Everybody else's transactions since our last one. */
    method Others()
      requires Ok()
      modifies this
      ensures Ok() && Untouched(old(desk), desk, c, r)
      ensures old(trace) <= trace && Invokes(trace, c) == Invokes(old(trace), c)
    {
      UntouchedItself(desk, c, r);
      if schedule == [] {
        return;
      }
      var batch := schedule[0];
      schedule := schedule[1..];
      for i := 0 to |batch|
        invariant Ok() && Untouched(old(desk), desk, c, r)
        invariant old(trace) <= trace && Invokes(trace, c) == Invokes(old(trace), c)
      {
        if Foreign(c, r, batch[i]) {
          Invariant();
          ForeignLeavesUntouched(fingerprint, desk, batch[i], c, r);
          UntouchedTransitive(old(desk), desk, Next(fingerprint, desk, batch[i]), c, r);
          Commit(Next(fingerprint, desk, batch[i]), batch[i]);
        }
      }
    }
  }
}
