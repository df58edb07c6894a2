/** What model ports charge when cycle ids repeat: an id is charged once, however often it is called. */
module ModelPortTheorems {
  import opened Common
  import opened BudgetLedger
  import opened BudgetConsumption
  import opened DailyCost
  import opened ModelPort

  // -------------------------------------------------- one call, row by row

  /** The daily gate lets this call through. */
  ghost predicate PassesGate(rows: seq<Row>, input: CallInput) {
    input.program.Some? ==>
      DailyGateOpen(input.program.value.policy, input.program.value.envelope, ForBudget(rows, input.program.value.dailyBudgetId), 0)
  }

  /** The site's budget is issued to its run, as an allowance-checked insert asks. */
  predicate SiteOk(env: Envelopes, site: Site) {
    site.budgetId in env.budgets && env.budgets[site.budgetId].runId == Some(site.runId)
  }

  predicate Charged(site: Site, rows: seq<Row>, id: string) {
    HasRow(rows, site.budgetId, Some(id), ModelCall)
  }

  function Amount(answer: Answer, side: Resource): Option<int>
    requires answer.Answered?
  {
    if side == ModelTokensIn then answer.promptTokens else answer.completionTokens
  }

  /** The token row of this side is written: a program with a policy and an issued daily budget, a named model, a
      positive amount, no earlier row of this id and side, and no refused input side in front of an output side. */
  predicate Writes(env: Envelopes, rows: seq<Row>, id: string, input: CallInput, side: Resource)
    requires input.answer.Answered?
  {
    && input.program.Some? && input.program.value.hasPolicy && input.answer.modelId.Some?
    && input.program.value.tokensBudgetId in env.budgets
    && Amount(input.answer, side).Some? && Amount(input.answer, side).value > 0
    && !HasRow(rows, input.program.value.tokensBudgetId, Some(id), side)
    && (side == ModelTokensOut ==> input.answer.promptTokens.Some? ==> input.answer.promptTokens.value > 0)
  }

  function TokenRows(env: Envelopes, rows: seq<Row>, id: string, input: CallInput, side: Resource): seq<Row>
    requires input.answer.Answered?
  {
    if Writes(env, rows, id, input, side)
    then [TokenCommand(input.program.value, id, input.answer.modelId, side, Amount(input.answer, side).value).ToRow()]
    else []
  }

  lemma OtherResourceSameRows(rows: seq<Row>, row: Row, budgetId: string, id: Option<string>, resource: Resource)
    requires row.resource != resource
    ensures HasRow(rows + [row], budgetId, id, resource) <==> HasRow(rows, budgetId, id, resource)
  {
    var longer := rows + [row];
    assert forall i :: 0 <= i < |rows| ==> longer[i] == rows[i];
    assert longer[|rows|] == row;
  }

  lemma TokenRecordIs(env: Envelopes, rows: seq<Row>, p: Program, id: string, model: Option<string>, side: Resource, amount: int)
    requires side in {ModelTokensIn, ModelTokensOut}
    ensures var (after, result) := Record(env, rows, TokenCommand(p, id, model, side, amount));
            && (result.Failed? <==> p.tokensBudgetId !in env.budgets || amount <= 0)
            && after == rows + if !result.Failed? && !HasRow(rows, p.tokensBudgetId, Some(id), side)
                               then [TokenCommand(p, id, model, side, amount).ToRow()] else []
  {
  }

  lemma InputSideIs(env: Envelopes, rows: seq<Row>, id: string, input: CallInput)
    requires input.answer.Answered? && input.answer.completionTokens.None?
    ensures RecordTokens(env, rows, id, input).0 == rows + TokenRows(env, rows, id, input, ModelTokensIn)
  {
    if input.program.Some? && input.answer.promptTokens.Some? {
      TokenRecordIs(env, rows, input.program.value, id, input.answer.modelId, ModelTokensIn, input.answer.promptTokens.value);
    }
  }

  lemma OutputSideIs(env: Envelopes, rows: seq<Row>, id: string, input: CallInput)
    requires input.answer.Answered? && input.answer.completionTokens.Some?
    ensures var first := rows + TokenRows(env, rows, id, input, ModelTokensIn);
            RecordTokens(env, rows, id, input).0 == first + TokenRows(env, first, id, input, ModelTokensOut)
  {
    assert forall more: seq<Row> :: more + [] == more;
    if input.program.Some? {
      var (p, model) := (input.program.value, input.answer.modelId);
      if input.answer.promptTokens.Some? {
        TokenRecordIs(env, rows, p, id, model, ModelTokensIn, input.answer.promptTokens.value);
      }
      var first := rows + TokenRows(env, rows, id, input, ModelTokensIn);
      TokenRecordIs(env, first, p, id, model, ModelTokensOut, input.answer.completionTokens.value);
    }
  }

  /** The token rows of one answer: exactly the sides that write, input first. */
  lemma TokenRowsAre(env: Envelopes, rows: seq<Row>, id: string, input: CallInput)
    requires input.answer.Answered?
    ensures RecordTokens(env, rows, id, input).0
         == rows + TokenRows(env, rows, id, input, ModelTokensIn) + TokenRows(env, rows, id, input, ModelTokensOut)
  {
    if input.answer.completionTokens.None? {
      InputSideIs(env, rows, id, input);
    } else {
      OutputSideIs(env, rows, id, input);
      if Writes(env, rows, id, input, ModelTokensIn) {
        OtherResourceSameRows(rows, TokenRows(env, rows, id, input, ModelTokensIn)[0],
          input.program.value.tokensBudgetId, Some(id), ModelTokensOut);
      }
    }
  }

  /** A call whose id is already charged: it is made whenever the gate is open, adds no MODEL_CALL row, and its tokens
      are written for exactly the sides of which the daily budget holds no row of the earlier call. */
  lemma ChargedIdCallsForFree(env: Envelopes, site: Site, cycleId: string, rows: seq<Row>, port: Port, input: CallInput)
    requires var id := InvocationId(cycleId, input.role, NextAttempt(port, input.role)); SiteOk(env, site) && Charged(site, rows, id)
    ensures var (id, step) := (InvocationId(cycleId, input.role, NextAttempt(port, input.role)),
                               Completion(env, site, cycleId, rows, port, input));
            && step.made == (if PassesGate(rows, input) then [Made(cycleId, input.role, NextAttempt(port, input.role), rows)] else [])
            && (step.made == [] || input.answer.Raised? ==> step.rows == rows)
            && (step.made != [] && input.answer.Answered? ==>
                  step.rows == rows + TokenRows(env, rows, id, input, ModelTokensIn) + TokenRows(env, rows, id, input, ModelTokensOut))
  {
    var id := InvocationId(cycleId, input.role, NextAttempt(port, input.role));
    assert Record(env, rows, Reservation(site, id)) == (rows, Recorded(true, UsageOf(rows, site.budgetId)));
    if input.answer.Answered? { TokenRowsAre(env, rows, id, input); }
  }

  /** A port calls the model without a new charge exactly when the invocation id it builds is already in the ledger. */
  lemma CallIsFreeIffIdWasUsed(env: Envelopes, site: Site, cycleId: string, rows: seq<Row>, port: Port, input: CallInput)
    requires Completion(env, site, cycleId, rows, port, input).made != []
    ensures var id := InvocationId(cycleId, input.role, NextAttempt(port, input.role));
            Completion(env, site, cycleId, rows, port, input).made[0].ledger
            == if Charged(site, rows, id) then rows else rows + [Reservation(site, id).ToRow()]
  {
  }

  // ------------------------------------------------------- a repeated call

  lemma StaysCharged(rows: seq<Row>, more: seq<Row>, id: string, budgetId: string, side: Resource)
    requires rows <= more && HasRow(rows, budgetId, Some(id), side)
    ensures HasRow(more, budgetId, Some(id), side)
  {
    var i :| 0 <= i < |rows| && Charges(rows[i], budgetId, side) && rows[i].requestId == Some(id);
    assert more[i] == rows[i];
  }

  lemma MadeCallIsCharged(env: Envelopes, site: Site, cycleId: string, rows: seq<Row>, port: Port, input: CallInput)
    requires Completion(env, site, cycleId, rows, port, input).made != []
    ensures var (id, ledger) := (InvocationId(cycleId, input.role, NextAttempt(port, input.role)),
                                 Completion(env, site, cycleId, rows, port, input).made[0].ledger);
            SiteOk(env, site) && Charged(site, ledger, id)
  {
    var id := InvocationId(cycleId, input.role, NextAttempt(port, input.role));
    CallIsFreeIffIdWasUsed(env, site, cycleId, rows, port, input);
    if !Charged(site, rows, id) {
      var ledger := rows + [Reservation(site, id).ToRow()];
      assert ledger[|rows|] == Reservation(site, id).ToRow();
    }
  }

  lemma CompletedCallRecordsSide(env: Envelopes, rows: seq<Row>, id: string, input: CallInput, side: Resource)
    requires input.answer.Answered? && RecordTokens(env, rows, id, input).1 && side in {ModelTokensIn, ModelTokensOut}
    requires input.program.Some? && input.program.value.hasPolicy && input.answer.modelId.Some?
    requires Amount(input.answer, side).Some?
    ensures HasRow(RecordTokens(env, rows, id, input).0, input.program.value.tokensBudgetId, Some(id), side)
  {
    TokenRowsAre(env, rows, id, input);
    var (p, model) := (input.program.value, input.answer.modelId);
    if input.answer.promptTokens.Some? {
      TokenRecordIs(env, rows, p, id, model, ModelTokensIn, input.answer.promptTokens.value);
    }
    if input.answer.completionTokens.Some? {
      var first := rows + TokenRows(env, rows, id, input, ModelTokensIn);
      TokenRecordIs(env, first, p, id, model, ModelTokensOut, input.answer.completionTokens.value);
      assert forall more: seq<Row> :: more + [] == more;
    }
    var after := RecordTokens(env, rows, id, input).0;
    if Writes(env, rows, id, input, side) {
      var row := TokenRows(env, rows, id, input, side)[0];
      assert row in after;
    } else {
      assert HasRow(rows, p.tokensBudgetId, Some(id), side);
      assert rows <= after;
      StaysCharged(rows, after, id, p.tokensBudgetId, side);
    }
  }

  /** A completed call of a program, answered with both token counts, is repeated later under the same id and day:
      the model is called whenever the gate is open, and nothing at all is written, whatever the second call used. */
  lemma RepeatedCallIsNotMetered(
    env: Envelopes, site: Site, cycleId: string, rows: seq<Row>, port: Port, input: CallInput,
    later: seq<Row>, newPort: Port, again: CallInput)
    requires var step := Completion(env, site, cycleId, rows, port, input); step.verdict.Completed? && step.rows <= later
    requires input.program.Some? && input.program.value.hasPolicy && input.answer.Answered? && input.answer.modelId.Some?
    requires input.answer.promptTokens.Some? && input.answer.completionTokens.Some?
    requires again.role == input.role && NextAttempt(newPort, input.role) == NextAttempt(port, input.role)
    requires again.program.Some? && again.program.value.tokensBudgetId == input.program.value.tokensBudgetId
    ensures var step := Completion(env, site, cycleId, later, newPort, again);
            && step.rows == later
            && step.made == if PassesGate(later, again) then [Made(cycleId, input.role, NextAttempt(port, input.role), later)] else []
  {
    var id := InvocationId(cycleId, input.role, NextAttempt(port, input.role));
    CompletedCallIsHeld(env, site, cycleId, rows, port, input);
    var first := Completion(env, site, cycleId, rows, port, input).rows;
    StaysCharged(first, later, id, site.budgetId, ModelCall);
    StaysCharged(first, later, id, input.program.value.tokensBudgetId, ModelTokensIn);
    StaysCharged(first, later, id, input.program.value.tokensBudgetId, ModelTokensOut);
    ChargedIdCallsForFree(env, site, cycleId, later, newPort, again);
  }

  lemma CompletedCallIsHeld(env: Envelopes, site: Site, cycleId: string, rows: seq<Row>, port: Port, input: CallInput)
    requires Completion(env, site, cycleId, rows, port, input).verdict.Completed?
    requires input.program.Some? && input.program.value.hasPolicy && input.answer.Answered? && input.answer.modelId.Some?
    requires input.answer.promptTokens.Some? && input.answer.completionTokens.Some?
    ensures var id := InvocationId(cycleId, input.role, NextAttempt(port, input.role));
            var (after, daily) := (Completion(env, site, cycleId, rows, port, input).rows, input.program.value.tokensBudgetId);
            && SiteOk(env, site) && Charged(site, after, id)
            && HasRow(after, daily, Some(id), ModelTokensIn) && HasRow(after, daily, Some(id), ModelTokensOut)
  {
    var id := InvocationId(cycleId, input.role, NextAttempt(port, input.role));
    var first := Completion(env, site, cycleId, rows, port, input);
    var ledger := first.made[0].ledger;
    MadeCallIsCharged(env, site, cycleId, rows, port, input);
    CompletedCallRecordsSide(env, ledger, id, input, ModelTokensIn);
    CompletedCallRecordsSide(env, ledger, id, input, ModelTokensOut);
    TokenRowsAre(env, ledger, id, input);
    StaysCharged(ledger, first.rows, id, site.budgetId, ModelCall);
  }

  /** Repeating the very same call leaves the ledger as the first one left it. */
  lemma SameCallAgainWritesNothing(env: Envelopes, site: Site, cycleId: string, rows: seq<Row>, port: Port, input: CallInput)
    requires Completion(env, site, cycleId, rows, port, input).made != []
    ensures var (after, n) := (Completion(env, site, cycleId, rows, port, input).rows, NextAttempt(port, input.role));
            var step := Completion(env, site, cycleId, after, port, input);
            step.rows == after && step.made == if PassesGate(after, input) then [Made(cycleId, input.role, n, after)] else []
  {
    var id := InvocationId(cycleId, input.role, NextAttempt(port, input.role));
    var first := Completion(env, site, cycleId, rows, port, input);
    var ledger := first.made[0].ledger;
    MadeCallIsCharged(env, site, cycleId, rows, port, input);
    if input.answer.Answered? {
      TokenRowsAre(env, ledger, id, input);
      WrittenOnce(env, ledger, id, input);
    }
    StaysCharged(ledger, first.rows, id, site.budgetId, ModelCall);
    ChargedIdCallsForFree(env, site, cycleId, first.rows, port, input);
  }

  lemma WrittenOnce(env: Envelopes, rows: seq<Row>, id: string, input: CallInput)
    requires input.answer.Answered?
    ensures var after := RecordTokens(env, rows, id, input).0;
            !Writes(env, after, id, input, ModelTokensIn) && !Writes(env, after, id, input, ModelTokensOut)
  {
    WrittenSideIsHeld(env, rows, id, input, ModelTokensIn);
    WrittenSideIsHeld(env, rows, id, input, ModelTokensOut);
  }

  lemma WrittenSideIsHeld(env: Envelopes, rows: seq<Row>, id: string, input: CallInput, side: Resource)
    requires input.answer.Answered? && side in {ModelTokensIn, ModelTokensOut}
    ensures !Writes(env, RecordTokens(env, rows, id, input).0, id, input, side)
  {
    TokenRowsAre(env, rows, id, input);
    var after := RecordTokens(env, rows, id, input).0;
    if Writes(env, rows, id, input, side) {
      var row := TokenRows(env, rows, id, input, side)[0];
      assert row in after && Charges(row, input.program.value.tokensBudgetId, side) && row.requestId == Some(id);
    } else if input.program.Some? && HasRow(rows, input.program.value.tokensBudgetId, Some(id), side) {
      StaysCharged(rows, after, id, input.program.value.tokensBudgetId, side);
    }
  }

  /** Opens a port on the cycle and makes the same call on it, n times over. */
  function Reopenings(cycleId: string, input: CallInput, n: nat): seq<Event> {
    if n == 0 then [] else Reopenings(cycleId, input, n - 1) + [Open(cycleId)] + [Call(cycleId, input)]
  }

  lemma RunOne(env: Envelopes, site: Site, o: Office, events: seq<Event>, e: Event)
    ensures Run(env, site, o, events + [e]) == Next(env, site, Run(env, site, o, events), e)
  {
    assert (events + [e])[..|events|] == events;
  }

  lemma OpenAndCall(env: Envelopes, site: Site, o: Office, events: seq<Event>, c: string, input: CallInput)
    ensures var before := Run(env, site, o, events);
            var step := Completion(env, site, c, before.rows, NEW_PORT, input);
            var after := Run(env, site, o, events + [Open(c)] + [Call(c, input)]);
            after.rows == step.rows && after.made == before.made + step.made
  {
    RunOne(env, site, o, events, Open(c));
    RunOne(env, site, o, events + [Open(c)], Call(c, input));
  }

  /** n reopenings of a cycle, the same call on each: n more model calls, and the ledger is that of the first. */
  ghost predicate Reopened(env: Envelopes, site: Site, o: Office, c: string, input: CallInput, n: nat) {
    var after := Run(env, site, o, Reopenings(c, input, n));
    |after.made| == |o.made| + n && after.rows == Completion(env, site, c, o.rows, NEW_PORT, input).rows
  }

  lemma OneMoreReopening(env: Envelopes, site: Site, o: Office, c: string, input: CallInput, n: nat)
    requires Completion(env, site, c, o.rows, NEW_PORT, input).made != [] && Reopened(env, site, o, c, input, n)
    requires PassesGate(Completion(env, site, c, o.rows, NEW_PORT, input).rows, input)
    ensures Reopened(env, site, o, c, input, n + 1)
  {
    OpenAndCall(env, site, o, Reopenings(c, input, n), c, input);
    SameCallAgainWritesNothing(env, site, c, o.rows, NEW_PORT, input);
  }

  lemma FirstOpening(env: Envelopes, site: Site, o: Office, c: string, input: CallInput)
    requires Completion(env, site, c, o.rows, NEW_PORT, input).made != []
    ensures Reopened(env, site, o, c, input, 1)
  {
    OpenAndCall(env, site, o, Reopenings(c, input, 0), c, input);
    OneCallAtMost(env, site, c, o.rows, NEW_PORT, input);
  }

  lemma OneCallAtMost(env: Envelopes, site: Site, cycleId: string, rows: seq<Row>, port: Port, input: CallInput)
    ensures |Completion(env, site, cycleId, rows, port, input).made| <= 1
  {
  }

  /** A call that is allowed once is made at every reopening, whatever the allowance. */
  lemma {:induction false} ReopenedCycleIsUnbounded(env: Envelopes, site: Site, o: Office, c: string, input: CallInput, n: nat)
    requires n >= 1 && Completion(env, site, c, o.rows, NEW_PORT, input).made != []
    requires PassesGate(Completion(env, site, c, o.rows, NEW_PORT, input).rows, input)
    ensures Reopened(env, site, o, c, input, n)
  {
    FirstOpening(env, site, o, c, input);
    for i := 1 to n
      invariant Reopened(env, site, o, c, input, i)
    {
      OneMoreReopening(env, site, o, c, input, i);
    }
  }

  /** So no allowance bounds the calls of a run: against an allowance of one, any number of calls can be made. */
  lemma ReopenedCycleOutrunsAllowance(c: string, n: nat)
    requires n >= 1
    ensures exists env: Envelopes, site: Site, events: seq<Event> ::
              && Allowance(env, site.budgetId, ModelCall) == Some(1)
              && |Run(env, site, Office([], map[], []), events).made| == n
  {
    var env := Envelopes(map["b" := Issued(Some("r"), 0, 0, 0)], map["r" := 1]);
    var site := Site("b", "r");
    var input := CallInput(Generator, None, Raised);
    var id := InvocationId(c, Generator, 1);
    FirstCallIsMade(env, site, c, input);
    ReopenedCycleIsUnbounded(env, site, Office([], map[], []), c, input, n);
    assert Allowance(env, site.budgetId, ModelCall) == Some(1);
    assert |Run(env, site, Office([], map[], []), Reopenings(c, input, n)).made| == n;
  }

  lemma FirstCallIsMade(env: Envelopes, site: Site, c: string, input: CallInput)
    requires SiteOk(env, site) && Allowance(env, site.budgetId, ModelCall) == Some(1) && input.program.None?
    ensures Completion(env, site, c, [], NEW_PORT, input).made != []
  {
    assert Used([], site.budgetId, ModelCall) == 0;
  }

  // ---------------------------------------- charges of a whole run of ports

  ghost function CalledIds(made: seq<Made>): set<string> {
    set i | 0 <= i < |made| :: made[i].Id()
  }

  /** The called ids that were not charged when the run began. */
  ghost function NewlyCalled(site: Site, rows: seq<Row>, made: seq<Made>): set<string> {
    set id | id in CalledIds(made) && !Charged(site, rows, id)
  }

  lemma CalledIdsGrow(made: seq<Made>, m: Made)
    ensures CalledIds(made + [m]) == CalledIds(made) + {m.Id()}
  {
    var longer := made + [m];
    assert longer[|made|] == m;
    forall id | id in CalledIds(made) ensures id in CalledIds(longer) {
      var i :| 0 <= i < |made| && made[i].Id() == id;
      assert longer[i] == made[i];
    }
  }

  /** Model calls charged to the site, as the run began and now: the ids, and the total. */
  ghost predicate ChargesAre(site: Site, before: seq<Row>, o: Office) {
    && (forall id :: Charged(site, o.rows, id) <==> Charged(site, before, id) || id in CalledIds(o.made))
    && Used(o.rows, site.budgetId, ModelCall) == Used(before, site.budgetId, ModelCall) + |NewlyCalled(site, before, o.made)|
  }

  /** Nobody else charges model calls to the site's budget. */
  predicate OnlyPorts(site: Site, e: Event) {
    e.Elsewhere? ==> !(e.cmd.budgetId == site.budgetId && e.cmd.resource == ModelCall)
  }

  lemma OtherRowSameCharges(site: Site, rows: seq<Row>, row: Row)
    requires !Charges(row, site.budgetId, ModelCall)
    ensures forall id :: Charged(site, rows + [row], id) <==> Charged(site, rows, id)
    ensures Used(rows + [row], site.budgetId, ModelCall) == Used(rows, site.budgetId, ModelCall)
  {
    var longer := rows + [row];
    UsedAppend(rows, row, site.budgetId, ModelCall);
    assert forall i :: 0 <= i < |rows| ==> longer[i] == rows[i];
    assert longer[|rows|] == row;
  }

  lemma TokensSameCharges(env: Envelopes, site: Site, rows: seq<Row>, id: string, input: CallInput)
    requires input.answer.Answered?
    ensures forall x :: Charged(site, RecordTokens(env, rows, id, input).0, x) <==> Charged(site, rows, x)
    ensures Used(RecordTokens(env, rows, id, input).0, site.budgetId, ModelCall) == Used(rows, site.budgetId, ModelCall)
  {
    TokenRowsAre(env, rows, id, input);
    var tokensIn := TokenRows(env, rows, id, input, ModelTokensIn);
    var tokensOut := TokenRows(env, rows, id, input, ModelTokensOut);
    var first := rows + tokensIn;
    if tokensIn != [] { OtherRowSameCharges(site, rows, tokensIn[0]); } else { assert first == rows; }
    if tokensOut != [] { OtherRowSameCharges(site, first, tokensOut[0]); } else { assert first + tokensOut == first; }
  }

  lemma ReservationCharges(site: Site, rows: seq<Row>, id: string)
    ensures var after := rows + [Reservation(site, id).ToRow()];
            && (forall x :: Charged(site, after, x) <==> Charged(site, rows, x) || x == id)
            && Used(after, site.budgetId, ModelCall) == Used(rows, site.budgetId, ModelCall) + 1
  {
    var row := Reservation(site, id).ToRow();
    var after := rows + [row];
    UsedAppend(rows, row, site.budgetId, ModelCall);
    assert forall i :: 0 <= i < |rows| ==> after[i] == rows[i];
    assert after[|rows|] == row;
  }

  /** A made call charges its id, by one if it was not charged, and nothing else. */
  lemma CallCharges(env: Envelopes, site: Site, cycleId: string, rows: seq<Row>, port: Port, input: CallInput)
    requires Completion(env, site, cycleId, rows, port, input).made != []
    ensures var step := Completion(env, site, cycleId, rows, port, input);
            && |step.made| == 1 && step.made[0].Id() == InvocationId(cycleId, input.role, NextAttempt(port, input.role))
            && (forall x :: Charged(site, step.rows, x) <==> Charged(site, rows, x) || x == step.made[0].Id())
            && Used(step.rows, site.budgetId, ModelCall)
               == Used(rows, site.budgetId, ModelCall) + if Charged(site, rows, step.made[0].Id()) then 0 else 1
  {
    var id := InvocationId(cycleId, input.role, NextAttempt(port, input.role));
    CallIsFreeIffIdWasUsed(env, site, cycleId, rows, port, input);
    ReservationCharges(site, rows, id);
    if input.answer.Answered? {
      TokensSameCharges(env, site, Completion(env, site, cycleId, rows, port, input).made[0].ledger, id, input);
    }
  }

  lemma NewIdCounts(site: Site, before: seq<Row>, made: seq<Made>, m: Made)
    ensures |NewlyCalled(site, before, made + [m])|
         == |NewlyCalled(site, before, made)| + if Charged(site, before, m.Id()) || m.Id() in CalledIds(made) then 0 else 1
  {
    CalledIdsGrow(made, m);
    var (old_, new_) := (NewlyCalled(site, before, made), NewlyCalled(site, before, made + [m]));
    if Charged(site, before, m.Id()) || m.Id() in CalledIds(made) {
      assert new_ == old_;
    } else {
      assert new_ == old_ + {m.Id()};
    }
  }

  lemma CallKeepsCharges(env: Envelopes, site: Site, before: seq<Row>, o: Office, c: string, input: CallInput)
    requires ChargesAre(site, before, o)
    ensures ChargesAre(site, before, Next(env, site, o, Call(c, input)))
  {
    if c in o.ports {
      var step := Completion(env, site, c, o.rows, o.ports[c], input);
      if step.made == [] {
        RefusedCompletionKeepsLedger(env, site, c, o.rows, o.ports[c], input);
        assert o.made + step.made == o.made;
      } else {
        CallCharges(env, site, c, o.rows, o.ports[c], input);
        var m := step.made[0];
        assert step.made == [m];
        CalledIdsGrow(o.made, m);
        NewIdCounts(site, before, o.made, m);
      }
    }
  }

  lemma ElsewhereKeepsCharges(env: Envelopes, site: Site, before: seq<Row>, o: Office, cmd: Command)
    requires ChargesAre(site, before, o) && OnlyPorts(site, Elsewhere(cmd))
    ensures ChargesAre(site, before, Next(env, site, o, Elsewhere(cmd)))
  {
    OtherRowSameCharges(site, o.rows, cmd.ToRow());
  }

  /** However often cycles are reopened and calls repeated: a run charges exactly one per id it calls that was not
      charged before, so the charges count distinct ids, not calls. */
  lemma {:induction false} ChargesCountNewIds(env: Envelopes, site: Site, rows: seq<Row>, events: seq<Event>)
    requires forall i :: 0 <= i < |events| ==> OnlyPorts(site, events[i])
    ensures ChargesAre(site, rows, Run(env, site, Office(rows, map[], []), events))
    decreases |events|
  {
    if events == [] {
      assert NewlyCalled(site, rows, []) == {};
    } else {
      var (earlier, e) := (events[..|events| - 1], events[|events| - 1]);
      ChargesCountNewIds(env, site, rows, earlier);
      var o := Run(env, site, Office(rows, map[], []), earlier);
      match e
      case Open(c) =>
      case Call(c, input) => CallKeepsCharges(env, site, rows, o, c, input);
      case Elsewhere(cmd) => ElsewhereKeepsCharges(env, site, rows, o, cmd);
    }
  }

  /** Every call's ledger holds its reservation, and the run's ledger extends it. */
  ghost predicate EachReserved(env: Envelopes, site: Site, o: Office) {
    && LedgerOk(env, o.rows)
    && (forall i :: 0 <= i < |o.made| ==> o.made[i].ledger <= o.rows && HasReservation(site, o.made[i].ledger, o.made[i].Id()))
  }

  lemma {:induction false} RunReservesEach(env: Envelopes, site: Site, rows: seq<Row>, events: seq<Event>)
    requires LedgerOk(env, rows)
    ensures EachReserved(env, site, Run(env, site, Office(rows, map[], []), events))
    decreases |events|
  {
    if events != [] {
      var (earlier, e) := (events[..|events| - 1], events[|events| - 1]);
      RunReservesEach(env, site, rows, earlier);
      var o := Run(env, site, Office(rows, map[], []), earlier);
      match e
      case Open(c) =>
      case Call(c, input) => CallReservesEach(env, site, o, c, input);
      case Elsewhere(cmd) => RecordKeepsLedger(env, o.rows, cmd);
    }
  }

  lemma CallReservesEach(env: Envelopes, site: Site, o: Office, c: string, input: CallInput)
    requires EachReserved(env, site, o)
    ensures EachReserved(env, site, Next(env, site, o, Call(c, input)))
  {
    if c in o.ports { CompletionReserves(env, site, c, o.rows, o.ports[c], input); }
  }

  lemma {:induction false} Listed(ids: set<string>) returns (s: seq<string>)
    ensures |s| == |ids| && (forall i :: 0 <= i < |s| ==> s[i] in ids)
    ensures forall i, j :: 0 <= i < j < |s| ==> s[i] != s[j]
    decreases |ids|
  {
    if ids == {} {
      s := [];
    } else {
      var id :| id in ids;
      var rest := Listed(ids - {id});
      s := rest + [id];
    }
  }

  /** With no assumption on cycle ids: every model call comes after a reservation of its id, and what the allowance
      bounds is the number of distinct ids called. */
  lemma DistinctIdsAreBounded(env: Envelopes, site: Site, rows: seq<Row>, events: seq<Event>)
    requires LedgerOk(env, rows)
    ensures var o := Run(env, site, Office(rows, map[], []), events);
            && (forall i :: 0 <= i < |o.made| ==> HasReservation(site, o.made[i].ledger, o.made[i].Id()))
            && |CalledIds(o.made)| <= Used(o.rows, site.budgetId, ModelCall)
            && (Allowance(env, site.budgetId, ModelCall).Some? ==> |CalledIds(o.made)| <= Allowance(env, site.budgetId, ModelCall).value)
  {
    RunReservesEach(env, site, rows, events);
    var o := Run(env, site, Office(rows, map[], []), events);
    var ids := Listed(CalledIds(o.made));
    var ones: seq<nat> := seq(|ids|, i => 1);
    forall i | 0 <= i < |ids| ensures HoldsAtLeast(o.rows, site.budgetId, ModelCall, ids[i], ones[i]) {
      var k :| 0 <= k < |o.made| && o.made[k].Id() == ids[i];
      PrefixKeepsReservation(site, o.made[k].ledger, o.rows, ids[i]);
    }
    DistinctChargesBoundedByUsed(o.rows, site.budgetId, ModelCall, ids, ones);
    SumOfOnes(ones);
  }
}
