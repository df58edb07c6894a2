/** The budget-enforced model port: reserve a MODEL_CALL row, then call the model. */
module ModelPort {
  import opened Common
  import opened BudgetLedger
  import opened BudgetConsumption
  import opened DailyCost

  datatype Role = Generator | Falsifier

  // ------------------------------------------------------- invocation ids

  function RoleName(role: Role): string {
    match role
    case Generator => "generator"
    case Falsifier => "falsifier"
  }

  function InvocationId(cycleId: string, role: Role, attemptNo: nat): string {
    "cycle:" + cycleId + ":" + RoleName(role) + ":" + Decimal(attemptNo)
  }

  /** The id determines cycle, role and attempt, whatever characters the cycle id holds. */
  lemma InvocationIdInjective(c: string, r: Role, n: nat, c': string, r': Role, n': nat)
    ensures InvocationId(c, r, n) == InvocationId(c', r', n') <==> c == c' && r == r' && n == n'
  {
    if InvocationId(c, r, n) == InvocationId(c', r', n') {
      DecimalHasNoColon(n);
      DecimalHasNoColon(n');
      LastColonSplits("cycle:" + c + ":" + RoleName(r), Decimal(n), "cycle:" + c' + ":" + RoleName(r'), Decimal(n'));
      LastColonSplits("cycle:" + c, RoleName(r), "cycle:" + c', RoleName(r'));
      assert c == ("cycle:" + c)[6..] && c' == ("cycle:" + c')[6..];
      DecimalInjective(n, n');
    }
  }

  // -------------------------------------------------------- one completion

  /** Where a port charges: its budget and run. */
  datatype Site = Site(budgetId: string, runId: string)

  /** One inner model call: its id and the ledger at the moment of the call. */
  datatype Made = Made(cycleId: string, role: Role, attemptNo: nat, ledger: seq<Row>) {
    function Id(): string { InvocationId(cycleId, role, attemptNo) }
  }

  /** What the model answers, or that it raised. */
  datatype Answer = Raised | Answered(modelId: Option<string>, promptTokens: Option<int>, completionTokens: Option<int>)

  /** A program around one call. The gate reads policy and day before it; token rows read both again after it. */
  datatype Program = Program(policy: Policy, dailyBudgetId: string, envelope: bool, hasPolicy: bool, tokensBudgetId: string)

  datatype CallInput = CallInput(role: Role, program: Option<Program>, answer: Answer)

  datatype Verdict = ProgramDenied | BudgetRejected | ReservationFailed | ModelRaised | TokensFailed | Completed

  datatype Port = Port(attempts: map<Role, nat>, reserved: seq<string>)

  const NEW_PORT := Port(map[Generator := 0, Falsifier := 0], [])

  function ForBudget(rows: seq<Row>, budgetId: string): seq<Row> {
    if rows == [] then []
    else ForBudget(rows[..|rows| - 1], budgetId)
         + if rows[|rows| - 1].budgetId == budgetId then [rows[|rows| - 1]] else []
  }

  function NextAttempt(port: Port, role: Role): nat {
    (if role in port.attempts then port.attempts[role] else 0) + 1
  }

  function Reservation(site: Site, id: string): Command {
    Command(site.budgetId, Some(site.runId), ModelCall, 1, Some(id), None)
  }

  function TokenCommand(program: Program, id: string, modelId: Option<string>, side: Resource, amount: int): Command {
    Command(program.tokensBudgetId, None, side, amount, Some(id), modelId)
  }

  /** Token rows are written only for a program with a policy and an answer naming its model. */
  function RecordTokens(env: Envelopes, rows: seq<Row>, id: string, input: CallInput): (seq<Row>, bool)
    requires input.answer.Answered?
  {
    if input.program.None? || input.answer.modelId.None? || !input.program.value.hasPolicy then (rows, true)
    else
      var (program, model) := (input.program.value, input.answer.modelId);
      var (first, ok) :=
        if input.answer.promptTokens.None? then (rows, true)
        else
          var (after, result) := Record(env, rows, TokenCommand(program, id, model, ModelTokensIn, input.answer.promptTokens.value));
          (after, !result.Failed?);
      if !ok then (first, false)
      else if input.answer.completionTokens.None? then (first, true)
      else
        var (after, result) := Record(env, first, TokenCommand(program, id, model, ModelTokensOut, input.answer.completionTokens.value));
        (after, !result.Failed?)
  }

  datatype Step = Step(rows: seq<Row>, port: Port, made: seq<Made>, verdict: Verdict)

  /** One call of the port: ledger, port and model calls afterwards. */
  ghost function Completion(env: Envelopes, site: Site, cycleId: string, rows: seq<Row>, port: Port, input: CallInput): Step {
    var n := NextAttempt(port, input.role);
    var id := InvocationId(cycleId, input.role, n);
    var counted := port.(attempts := port.attempts[input.role := n]);
    if input.program.Some?
       && !DailyGateOpen(input.program.value.policy, input.program.value.envelope, ForBudget(rows, input.program.value.dailyBudgetId), 0)
    then Step(rows, counted, [], ProgramDenied)
    else
      var (reserved, result) := Record(env, rows, Reservation(site, id));
      if result.Rejected? then Step(rows, counted, [], BudgetRejected)
      else if result.Failed? then Step(rows, counted, [], ReservationFailed)
      else
        var holding := counted.(reserved := counted.reserved + [id]);
        var made := [Made(cycleId, input.role, n, reserved)];
        if input.answer.Raised? then Step(reserved, holding, made, ModelRaised)
        else
          var (after, ok) := RecordTokens(env, reserved, id, input);
          Step(after, holding, made, if ok then Completed else TokensFailed)
  }

  /** The decorator object: counters, the list of reserved ids, and a ghost log of inner calls. */
  class BudgetEnforcedModelPort {
    const db: LedgerStore
    const site: Site
    const cycleId: string
    var attempts: map<Role, nat>
    var reserved: seq<string>
    ghost var made: seq<Made>

    constructor (db: LedgerStore, site: Site, cycleId: string)
      ensures this.db == db && this.site == site && this.cycleId == cycleId
      ensures Port(attempts, reserved) == NEW_PORT && made == []
    {
      this.db, this.site, this.cycleId := db, site, cycleId;
      attempts := map[Generator := 0, Falsifier := 0];
      reserved := [];
      made := [];
    }

    method Complete(input: CallInput) returns (verdict: Verdict)
      requires LedgerOk(db.env, db.rows)
      modifies this, db
      ensures LedgerOk(db.env, db.rows)
      ensures var step := Completion(db.env, site, cycleId, old(db.rows), old(Port(attempts, reserved)), input);
              db.rows == step.rows && Port(attempts, reserved) == step.port
              && made == old(made) + step.made && verdict == step.verdict
    {
      var n := (if input.role in attempts then attempts[input.role] else 0) + 1;
      attempts := attempts[input.role := n];
      var id := InvocationId(cycleId, input.role, n);
      if input.program.Some? {
        var p := input.program.value;
        var check := CheckProgramDailyBudget(p.policy, p.envelope, ForBudget(db.rows, p.dailyBudgetId), 0);
        if !check.Allowed? {
          return ProgramDenied;
        }
      }
      var reservation := db.Execute(Reservation(site, id));
      if reservation.Rejected? {
        return BudgetRejected;
      }
      if reservation.Failed? {
        return ReservationFailed;
      }
      reserved := reserved + [id];
      made := made + [Made(cycleId, input.role, n, db.rows)];   // the model is called here
      if input.answer.Raised? {
        return ModelRaised;
      }
      var ok := WriteTokens(id, input);
      return if ok then Completed else TokensFailed;
    }

    /** Token rows of an answered call; each is a recording of its own. */
    method WriteTokens(id: string, input: CallInput) returns (ok: bool)
      requires LedgerOk(db.env, db.rows) && input.answer.Answered?
      modifies db
      ensures LedgerOk(db.env, db.rows)
      ensures (db.rows, ok) == RecordTokens(db.env, old(db.rows), id, input)
    {
      if input.program.None? || input.answer.modelId.None? || !input.program.value.hasPolicy {
        return true;
      }
      var p, model := input.program.value, input.answer.modelId;
      if input.answer.promptTokens.Some? {
        var r := db.Execute(TokenCommand(p, id, model, ModelTokensIn, input.answer.promptTokens.value));
        if r.Failed? {
          return false;
        }
      }
      if input.answer.completionTokens.Some? {
        var r := db.Execute(TokenCommand(p, id, model, ModelTokensOut, input.answer.completionTokens.value));
        if r.Failed? {
          return false;
        }
      }
      return true;
    }
  }

  // ---------------------------------------------- many ports on one budget

  /** All ports of one site over one ledger: opening a port, calling it, and anybody else's records. */
  datatype Event =
    | Open(cycleId: string)
    | Call(cycleId: string, input: CallInput)
    | Elsewhere(cmd: Command)

  datatype Office = Office(rows: seq<Row>, ports: map<string, Port>, made: seq<Made>)

  ghost function Next(env: Envelopes, site: Site, o: Office, e: Event): Office {
    match e
    case Open(cycleId) => o.(ports := o.ports[cycleId := NEW_PORT])
    case Call(cycleId, input) =>
      if cycleId !in o.ports then o
      else
        var step := Completion(env, site, cycleId, o.rows, o.ports[cycleId], input);
        Office(step.rows, o.ports[cycleId := step.port], o.made + step.made)
    case Elsewhere(cmd) => o.(rows := Record(env, o.rows, cmd).0)
  }

  ghost function Run(env: Envelopes, site: Site, o: Office, events: seq<Event>): Office {
    if events == [] then o
    else Next(env, site, Run(env, site, o, events[..|events| - 1]), events[|events| - 1])
  }

  ghost predicate HasReservation(site: Site, rows: seq<Row>, id: string) {
    HoldsAtLeast(rows, site.budgetId, ModelCall, id, 1)
  }

  /** Ids are never repeated, and the ledger of each call already holds its own and all earlier reservations. */
  ghost predicate ReservedBeforeCalled(site: Site, made: seq<Made>) {
    && (forall i, j :: 0 <= i < j < |made| ==> made[i].Id() != made[j].Id())
    && (forall i, j :: 0 <= i <= j < |made| ==> HasReservation(site, made[j].ledger, made[i].Id()))
  }

  ghost predicate OfficeOk(env: Envelopes, site: Site, o: Office) {
    && LedgerOk(env, o.rows)
    && ReservedBeforeCalled(site, o.made)
    && (forall i :: 0 <= i < |o.made| ==> o.made[i].ledger <= o.rows)
    && PortsAhead(o.ports, o.made)
  }

  /** Every Open names a cycle no earlier Open of the run named. */
  ghost predicate FreshCycles(events: seq<Event>) {
    forall i, j :: 0 <= i < j < |events| && events[i].Open? && events[j].Open? ==> events[i].cycleId != events[j].cycleId
  }

  lemma PrefixKeepsReservation(site: Site, rows: seq<Row>, more: seq<Row>, id: string)
    requires rows <= more && HasReservation(site, rows, id)
    ensures HasReservation(site, more, id)
  {
    var i :| 0 <= i < |rows| && Charges(rows[i], site.budgetId, ModelCall) && rows[i].requestId == Some(id) && 1 <= rows[i].amount;
    assert more[i] == rows[i];
  }

  lemma TokensKeepLedger(env: Envelopes, rows: seq<Row>, id: string, input: CallInput)
    requires LedgerOk(env, rows) && input.answer.Answered?
    ensures LedgerOk(env, RecordTokens(env, rows, id, input).0) && rows <= RecordTokens(env, rows, id, input).0
  {
    if input.program.Some? {
      var p, m := input.program.value, input.answer.modelId;
      var afterIn := rows;
      if input.answer.promptTokens.Some? {
        var tokens := TokenCommand(p, id, m, ModelTokensIn, input.answer.promptTokens.value);
        RecordKeepsLedger(env, rows, tokens);
        afterIn := Record(env, rows, tokens).0;
      }
      if input.answer.completionTokens.Some? {
        RecordKeepsLedger(env, afterIn, TokenCommand(p, id, m, ModelTokensOut, input.answer.completionTokens.value));
      }
    }
  }

  lemma ReservationIsHeld(env: Envelopes, site: Site, rows: seq<Row>, id: string)
    requires LedgerOk(env, rows) && Record(env, rows, Reservation(site, id)).1.Recorded?
    ensures HasReservation(site, Record(env, rows, Reservation(site, id)).0, id)
  {
    var reserved := Record(env, rows, Reservation(site, id)).0;
    if reserved != rows {
      assert reserved[|rows|] == Reservation(site, id).ToRow();
    }
  }

  /** What a step of the port guarantees: it reserves, then calls, then only appends. */
  ghost predicate Reserves(env: Envelopes, site: Site, cycleId: string, rows: seq<Row>, port: Port, role: Role, s: Step) {
    && LedgerOk(env, s.rows) && rows <= s.rows && |s.made| <= 1
    && (s.port.attempts == port.attempts[role := NextAttempt(port, role)])
    && (s.made == [] <==> s.verdict.ProgramDenied? || s.verdict.BudgetRejected? || s.verdict.ReservationFailed?)
    && (s.made == [] ==> s.rows == rows)
    && (s.made != [] ==>
          && s.made[0].cycleId == cycleId && s.made[0].role == role && s.made[0].attemptNo == NextAttempt(port, role)
          && rows <= s.made[0].ledger <= s.rows
          && HasReservation(site, s.made[0].ledger, s.made[0].Id()))
  }

  lemma RefusedCompletionKeepsLedger(env: Envelopes, site: Site, cycleId: string, rows: seq<Row>, port: Port, input: CallInput)
    requires Completion(env, site, cycleId, rows, port, input).made == []
    ensures var s := Completion(env, site, cycleId, rows, port, input);
            s.rows == rows && (s.verdict.ProgramDenied? || s.verdict.BudgetRejected? || s.verdict.ReservationFailed?)
  {
  }

  lemma {:induction false} MadeCompletionReserves(env: Envelopes, site: Site, cycleId: string, rows: seq<Row>, port: Port, input: CallInput)
    requires LedgerOk(env, rows) && Completion(env, site, cycleId, rows, port, input).made != []
    ensures var s := Completion(env, site, cycleId, rows, port, input);
            && LedgerOk(env, s.rows)
            && rows <= s.made[0].ledger <= s.rows && HasReservation(site, s.made[0].ledger, s.made[0].Id())
  {
    var id := InvocationId(cycleId, input.role, NextAttempt(port, input.role));
    RecordKeepsLedger(env, rows, Reservation(site, id));
    ReservationIsHeld(env, site, rows, id);
    var reserved := Record(env, rows, Reservation(site, id)).0;
    if input.answer.Answered? {
      TokensKeepLedger(env, reserved, id, input);
    }
  }

  /** A refused reservation never reaches the model; an accepted one is in the ledger before the model is called. */
  lemma {:induction false} CompletionReserves(env: Envelopes, site: Site, cycleId: string, rows: seq<Row>, port: Port, input: CallInput)
    requires LedgerOk(env, rows)
    ensures Reserves(env, site, cycleId, rows, port, input.role, Completion(env, site, cycleId, rows, port, input))
  {
    if Completion(env, site, cycleId, rows, port, input).made == [] {
      RefusedCompletionKeepsLedger(env, site, cycleId, rows, port, input);
    } else {
      MadeCompletionReserves(env, site, cycleId, rows, port, input);
    }
  }

  /** One more call keeps the discipline when its id is new and its ledger extends all earlier ones. */
  lemma OneMoreCallIsReserved(site: Site, made: seq<Made>, m: Made)
    requires ReservedBeforeCalled(site, made) && HasReservation(site, m.ledger, m.Id())
    requires forall i :: 0 <= i < |made| ==> made[i].Id() != m.Id() && made[i].ledger <= m.ledger
    ensures ReservedBeforeCalled(site, made + [m])
  {
    forall i | 0 <= i < |made| ensures HasReservation(site, m.ledger, made[i].Id()) {
      PrefixKeepsReservation(site, made[i].ledger, m.ledger, made[i].Id());
    }
  }

  /** Every call made so far has a smaller attempt number than its port will use next. */
  ghost predicate PortsAhead(ports: map<string, Port>, made: seq<Made>) {
    forall i :: 0 <= i < |made| ==> made[i].cycleId in ports && made[i].attemptNo < NextAttempt(ports[made[i].cycleId], made[i].role)
  }

  lemma StepKeepsPortsAhead(ports: map<string, Port>, made: seq<Made>, cycleId: string, role: Role, s: Step)
    requires PortsAhead(ports, made) && cycleId in ports && |s.made| <= 1
    requires s.port.attempts == ports[cycleId].attempts[role := NextAttempt(ports[cycleId], role)]
    requires s.made != [] ==> s.made[0].cycleId == cycleId && s.made[0].role == role && s.made[0].attemptNo == NextAttempt(ports[cycleId], role)
    ensures PortsAhead(ports[cycleId := s.port], made + s.made)
  {
  }

  lemma {:induction false} StepKeepsOffice(env: Envelopes, site: Site, o: Office, cycleId: string, role: Role, s: Step)
    requires OfficeOk(env, site, o) && cycleId in o.ports
    requires Reserves(env, site, cycleId, o.rows, o.ports[cycleId], role, s)
    ensures OfficeOk(env, site, Office(s.rows, o.ports[cycleId := s.port], o.made + s.made))
  {
    StepKeepsPortsAhead(o.ports, o.made, cycleId, role, s);
    if s.made != [] {
      var m := s.made[0];
      assert s.made == [m];
      forall i | 0 <= i < |o.made| ensures o.made[i].Id() != m.Id() {
        var p := o.made[i];
        InvocationIdInjective(p.cycleId, p.role, p.attemptNo, m.cycleId, m.role, m.attemptNo);
      }
      OneMoreCallIsReserved(site, o.made, m);
    } else {
      assert o.made + s.made == o.made;
    }
  }

  predicate Opened(events: seq<Event>, c: string) {
    exists i :: 0 <= i < |events| && events[i] == Open(c)
  }

  lemma {:induction false} PortsWereOpened(env: Envelopes, site: Site, o: Office, events: seq<Event>, c: string)
    requires o.ports == map[]
    ensures c in Run(env, site, o, events).ports ==> Opened(events, c)
    decreases |events|
  {
    if events != [] && c in Run(env, site, o, events).ports {
      var (earlier, e) := (events[..|events| - 1], events[|events| - 1]);
      if c in Run(env, site, o, earlier).ports {
        PortsWereOpened(env, site, o, earlier, c);
        var i :| 0 <= i < |earlier| && earlier[i] == Open(c);
        assert events[i] == Open(c);
      } else {
        assert e == Open(c);
      }
    }
  }

  lemma NotOpenedTwice(earlier: seq<Event>, c: string)
    ensures FreshCycles(earlier + [Open(c)]) ==> !Opened(earlier, c)
  {
    if Opened(earlier, c) {
      var i :| 0 <= i < |earlier| && earlier[i] == Open(c);
      assert (earlier + [Open(c)])[i] == Open(c) && (earlier + [Open(c)])[|earlier|] == Open(c);
    }
  }

  lemma OpenKeepsOffice(env: Envelopes, site: Site, o: Office, c: string)
    requires OfficeOk(env, site, o) && c !in o.ports
    ensures OfficeOk(env, site, Next(env, site, o, Open(c)))
  {
  }

  lemma {:induction false} CallKeepsOffice(env: Envelopes, site: Site, o: Office, c: string, input: CallInput)
    requires OfficeOk(env, site, o)
    ensures OfficeOk(env, site, Next(env, site, o, Call(c, input)))
  {
    if c in o.ports {
      CompletionReserves(env, site, c, o.rows, o.ports[c], input);
      StepKeepsOffice(env, site, o, c, input.role, Completion(env, site, c, o.rows, o.ports[c], input));
    }
  }

  lemma {:induction false} OfficeStaysOk(env: Envelopes, site: Site, rows: seq<Row>, events: seq<Event>)
    requires LedgerOk(env, rows) && FreshCycles(events)
    ensures OfficeOk(env, site, Run(env, site, Office(rows, map[], []), events))
    decreases |events|
  {
    if events != [] {
      var (earlier, e) := (events[..|events| - 1], events[|events| - 1]);
      OfficeStaysOk(env, site, rows, earlier);
      var o := Run(env, site, Office(rows, map[], []), earlier);
      match e
      case Open(c) =>
        PortsWereOpened(env, site, Office(rows, map[], []), earlier, c);
        NotOpenedTwice(earlier, c);
        assert events == earlier + [Open(c)];
        OpenKeepsOffice(env, site, o, c);
      case Call(c, input) => CallKeepsOffice(env, site, o, c, input);
      case Elsewhere(cmd) => RecordKeepsLedger(env, o.rows, cmd);
    }
  }

  /** While every port is opened on a fresh cycle id, however ports and other writers interleave: each
      inner model call happens after its own distinct MODEL_CALL row and those of all earlier calls,
      and the number of calls stays within the run's model-call allowance. */
  lemma ModelCallsAreReservedAndBounded(env: Envelopes, site: Site, rows: seq<Row>, events: seq<Event>)
    requires LedgerOk(env, rows) && FreshCycles(events)
    ensures var o := Run(env, site, Office(rows, map[], []), events);
            && ReservedBeforeCalled(site, o.made)
            && |o.made| <= Used(o.rows, site.budgetId, ModelCall)
            && (Allowance(env, site.budgetId, ModelCall).Some? ==> |o.made| <= Allowance(env, site.budgetId, ModelCall).value)
  {
    OfficeStaysOk(env, site, rows, events);
    var o := Run(env, site, Office(rows, map[], []), events);
    var ids := seq(|o.made|, i requires 0 <= i < |o.made| => o.made[i].Id());
    var ones: seq<nat> := seq(|o.made|, i => 1);
    forall i | 0 <= i < |ids| ensures HoldsAtLeast(o.rows, site.budgetId, ModelCall, ids[i], ones[i]) {
      PrefixKeepsReservation(site, o.made[i].ledger, o.rows, ids[i]);
    }
    DistinctChargesBoundedByUsed(o.rows, site.budgetId, ModelCall, ids, ones);
    SumOfOnes(ones);
  }
}
