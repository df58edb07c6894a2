/** Recording one consumption: one transaction over the ledger, idempotent per request id. */
module BudgetConsumption {
  import opened Common
  import opened BudgetLedger

  datatype Command = Command(
    budgetId: string,
    runId: Option<string>,
    resource: Resource,
    amount: int,
    requestId: Option<string>,
    modelId: Option<string>)
  {
    function ToRow(): Row {
      Row(budgetId, runId, resource, amount, requestId, modelId)
    }
  }

  datatype RecordResult =
    | Failed                                        // unknown budget, foreign run, malformed record
    | Rejected                                      // would exceed the issued allowance
    | Recorded(alreadyRecorded: bool, usage: Usage)

  /** Token and escalation rows were priced before the model call and carry no issued allowance. */
  predicate Unmetered(resource: Resource) {
    resource in {ModelTokensIn, ModelTokensOut, ModelEscalation}
  }

  /** The committed ledger after one command, and its answer. */
  function Record(env: Envelopes, rows: seq<Row>, cmd: Command): (seq<Row>, RecordResult) {
    if cmd.budgetId !in env.budgets then (rows, Failed)
    else if cmd.runId.Some? && env.budgets[cmd.budgetId].runId != cmd.runId then (rows, Failed)
    else if cmd.amount <= 0 || cmd.resource == Cost then (rows, Failed)
    else if HasRow(rows, cmd.budgetId, cmd.requestId, cmd.resource) then
      (rows, Recorded(true, UsageOf(rows, cmd.budgetId)))
    else if Unmetered(cmd.resource) then
      (rows + [cmd.ToRow()], Recorded(false, UsageOf(rows + [cmd.ToRow()], cmd.budgetId)))
    else
      var (outcome, after) := InsertWithinAllowance(env, rows, cmd.ToRow());
      match outcome
      case Inserted => (after, Recorded(false, UsageOf(after, cmd.budgetId)))
      case AlreadyPresent => (rows, Recorded(true, UsageOf(rows, cmd.budgetId)))
      case Overspend => (rows, Rejected)
      case Refused => (rows, Failed)
  }

  function RecordAll(env: Envelopes, rows: seq<Row>, cmds: seq<Command>): seq<Row>
    decreases |cmds|
  {
    if cmds == [] then rows
    else RecordAll(env, Record(env, rows, cmds[0]).0, cmds[1..])
  }

  // ------------------------------------------------------------- the class

  /** The consumption table. A unit of work edits a private copy; commit publishes it. */
  class LedgerStore {
    const env: Envelopes
    var rows: seq<Row>

    constructor (env: Envelopes)
      ensures this.env == env && rows == [] && LedgerOk(env, rows)
    {
      this.env := env;
      rows := [];
      EmptyLedgerOk(env);
    }

    method Execute(cmd: Command) returns (result: RecordResult)
      requires LedgerOk(env, rows)
      modifies this
      ensures (rows, result) == Record(env, old(rows), cmd)
      ensures LedgerOk(env, rows) && old(rows) <= rows
    {
      RecordKeepsLedger(env, rows, cmd);
      if cmd.budgetId !in env.budgets {
        return Failed;
      }
      var issued := env.budgets[cmd.budgetId];
      if cmd.runId.Some? && issued.runId != cmd.runId {
        return Failed;
      }
      if cmd.amount <= 0 || cmd.resource == Cost {
        return Failed;
      }
      var working := rows;
      var duplicate := HasRow(working, cmd.budgetId, cmd.requestId, cmd.resource);
      if !duplicate {
        if Unmetered(cmd.resource) {
          working := working + [cmd.ToRow()];
        } else {
          var (outcome, after) := InsertWithinAllowance(env, working, cmd.ToRow());
          if outcome.Overspend? {
            return Rejected;
          }
          if outcome.Refused? {
            return Failed;
          }
          working := after;
        }
        rows := working;
      }
      return Recorded(duplicate, UsageOf(working, cmd.budgetId));
    }
  }

  // ------------------------------------------------------------ properties

  lemma RecordKeepsLedger(env: Envelopes, rows: seq<Row>, cmd: Command)
    requires LedgerOk(env, rows)
    ensures rows <= Record(env, rows, cmd).0
    ensures LedgerOk(env, Record(env, rows, cmd).0)
  {
    var after := Record(env, rows, cmd).0;
    InsertKeepsLedgerOk(env, rows, cmd.ToRow());
    if after != rows && Unmetered(cmd.resource) {
      forall b, r | Allowance(env, b, r).Some?
        ensures Used(after, b, r) <= Allowance(env, b, r).value
      {
        UsedAppend(rows, cmd.ToRow(), b, r);
      }
    }
  }

  /** Over any history the ledger only grows, stays unique per charge, and never overruns an allowance. */
  lemma {:induction false} HistoryKeepsLedger(env: Envelopes, rows: seq<Row>, cmds: seq<Command>)
    requires LedgerOk(env, rows)
    ensures rows <= RecordAll(env, rows, cmds)
    ensures LedgerOk(env, RecordAll(env, rows, cmds))
    decreases |cmds|
  {
    if cmds != [] {
      RecordKeepsLedger(env, rows, cmds[0]);
      HistoryKeepsLedger(env, Record(env, rows, cmds[0]).0, cmds[1..]);
    }
  }

  /** Zero means nothing: no history charges a resource whose issued allowance is zero. */
  lemma ZeroAllowanceChargesNothing(env: Envelopes, cmds: seq<Command>, budgetId: string, resource: Resource)
    requires Allowance(env, budgetId, resource) == Some(0)
    ensures Used(RecordAll(env, [], cmds), budgetId, resource) == 0
  {
    EmptyLedgerOk(env);
    HistoryKeepsLedger(env, [], cmds);
    UsedNonNegative(RecordAll(env, [], cmds), budgetId, resource);
  }

  /** Replaying a recorded command is a no-op reporting the same usage exactly when it carried a request id. */
  lemma ReplayIsIdempotentIffIdentified(env: Envelopes, rows: seq<Row>, cmd: Command)
    requires Record(env, rows, cmd).1.Recorded?
    ensures var (once, first) := Record(env, rows, cmd);
            cmd.requestId.Some? <==> Record(env, once, cmd) == (once, Recorded(true, first.usage))
  {
    var (once, first) := Record(env, rows, cmd);
    if cmd.requestId.Some? && once != rows {
      assert once[|rows|] == cmd.ToRow();
    }
  }

  /** A replay stays a no-op however many other commands were recorded in between. */
  lemma LateReplayChangesNothing(env: Envelopes, rows: seq<Row>, cmd: Command, others: seq<Command>)
    requires LedgerOk(env, rows)
    requires Record(env, rows, cmd).1.Recorded? && cmd.requestId.Some?
    ensures var later := RecordAll(env, Record(env, rows, cmd).0, others);
            Record(env, later, cmd) == (later, Recorded(true, UsageOf(later, cmd.budgetId)))
  {
    var once := Record(env, rows, cmd).0;
    var later := RecordAll(env, once, others);
    RecordKeepsLedger(env, rows, cmd);
    HistoryKeepsLedger(env, once, others);
    if once != rows {
      assert once[|rows|] == cmd.ToRow();
      assert later[|rows|] == cmd.ToRow();
    } else {
      var i :| 0 <= i < |rows| && Charges(rows[i], cmd.budgetId, cmd.resource) && rows[i].requestId == cmd.requestId;
      assert later[i] == once[i];
    }
  }
}
