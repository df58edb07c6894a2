/** The append-only consumption ledger and the allowance rule that guards it. */
module BudgetLedger {
  import opened Common

  datatype Resource =
    | ModelCall
    | ModelTokensIn
    | ModelTokensOut
    | ModelEscalation
    | WorkerInvocation
    | Request
    | ExecutionTime
    | ArtifactBytes
    | Cost

  /** One ledger row. A request id is optional; a row without one is never deduplicated. */
  datatype Row = Row(
    budgetId: string,
    runId: Option<string>,
    resource: Resource,
    amount: int,
    requestId: Option<string>,
    modelId: Option<string>)

  /** The immutable envelope. Zero is no allowance, never unlimited. */
  datatype Issued = Issued(runId: Option<string>, maxRequests: nat, maxToolCalls: nat, maxRuntimeMs: nat)

  /** What allowance checks read besides the ledger: envelopes, and each run's max_model_calls. */
  datatype Envelopes = Envelopes(budgets: map<string, Issued>, modelCalls: map<string, nat>)

  datatype Usage = Usage(requests: int, toolCalls: int, runtimeMs: int)

  // ---------------------------------------------------------------- totals

  predicate Charges(row: Row, budgetId: string, resource: Resource) {
    row.budgetId == budgetId && row.resource == resource
  }

  /** Amount of one resource charged to one budget. */
  function Used(rows: seq<Row>, budgetId: string, resource: Resource): int {
    if rows == [] then 0
    else Used(rows[..|rows| - 1], budgetId, resource)
         + if Charges(rows[|rows| - 1], budgetId, resource) then rows[|rows| - 1].amount else 0
  }

  function UsageOf(rows: seq<Row>, budgetId: string): Usage {
    Usage(Used(rows, budgetId, Request), Used(rows, budgetId, WorkerInvocation), Used(rows, budgetId, ExecutionTime))
  }

  lemma UsedAppend(rows: seq<Row>, row: Row, budgetId: string, resource: Resource)
    ensures Used(rows + [row], budgetId, resource)
         == Used(rows, budgetId, resource) + if Charges(row, budgetId, resource) then row.amount else 0
  {
    assert (rows + [row])[..|rows|] == rows;
  }

  lemma {:induction false} UsedConcat(left: seq<Row>, right: seq<Row>, budgetId: string, resource: Resource)
    ensures Used(left + right, budgetId, resource)
         == Used(left, budgetId, resource) + Used(right, budgetId, resource)
  {
    if right == [] {
      assert left + right == left;
    } else {
      var shorter := right[..|right| - 1];
      UsedConcat(left, shorter, budgetId, resource);
      assert (left + right)[..|left + right| - 1] == left + shorter;
    }
  }

  lemma {:induction false} UsedNonNegative(rows: seq<Row>, budgetId: string, resource: Resource)
    requires AllPositive(rows)
    ensures 0 <= Used(rows, budgetId, resource)
  {
    if rows != [] {
      UsedNonNegative(rows[..|rows| - 1], budgetId, resource);
    }
  }

  /** The five running totals of the ledger scan, computed in one pass over one budget's rows. */
  method LedgerTotals(rows: seq<Row>, budgetId: string)
    returns (modelCalls: int, requests: int, invocations: int, timeMs: int, bytes: int)
    ensures modelCalls == Used(rows, budgetId, ModelCall)
    ensures requests == Used(rows, budgetId, Request)
    ensures invocations == Used(rows, budgetId, WorkerInvocation)
    ensures timeMs == Used(rows, budgetId, ExecutionTime)
    ensures bytes == Used(rows, budgetId, ArtifactBytes)
  {
    modelCalls, requests, invocations, timeMs, bytes := 0, 0, 0, 0, 0;
    for i := 0 to |rows|
      invariant modelCalls == Used(rows[..i], budgetId, ModelCall)
      invariant requests == Used(rows[..i], budgetId, Request)
      invariant invocations == Used(rows[..i], budgetId, WorkerInvocation)
      invariant timeMs == Used(rows[..i], budgetId, ExecutionTime)
      invariant bytes == Used(rows[..i], budgetId, ArtifactBytes)
    {
      assert rows[..i + 1][..i] == rows[..i];
      if rows[i].budgetId == budgetId {
        match rows[i].resource
        case ModelCall => modelCalls := modelCalls + rows[i].amount;
        case Request => requests := requests + rows[i].amount;
        case WorkerInvocation => invocations := invocations + rows[i].amount;
        case ExecutionTime => timeMs := timeMs + rows[i].amount;
        case ArtifactBytes => bytes := bytes + rows[i].amount;
        case _ =>
      }
    }
    assert rows[..|rows|] == rows;
  }

  // ------------------------------------------------------------- allowance

  predicate HasRow(rows: seq<Row>, budgetId: string, requestId: Option<string>, resource: Resource) {
    requestId.Some? &&
    exists i :: 0 <= i < |rows| && Charges(rows[i], budgetId, resource) && rows[i].requestId == requestId
  }

  /** The issued allowance of a resource, or None where no allowance is ever issued. */
  function Allowance(env: Envelopes, budgetId: string, resource: Resource): Option<nat> {
    if budgetId !in env.budgets then None
    else match resource
      case Request => Some(env.budgets[budgetId].maxRequests)
      case WorkerInvocation => Some(env.budgets[budgetId].maxToolCalls)
      case ExecutionTime => Some(env.budgets[budgetId].maxRuntimeMs)
      case ModelCall =>
        var runId := env.budgets[budgetId].runId;
        if runId.Some? && runId.value in env.modelCalls then Some(env.modelCalls[runId.value]) else None
      case _ => None
  }

  datatype InsertOutcome = Inserted | AlreadyPresent | Overspend | Refused

  /** The allowance-checked insert: refuse, skip a duplicate, overspend, or append. */
  function InsertWithinAllowance(env: Envelopes, rows: seq<Row>, row: Row): (r: (InsertOutcome, seq<Row>))
    ensures rows <= r.1
    ensures r.0.Inserted? <==> r.1 == rows + [row]
    ensures !r.0.Inserted? ==> r.1 == rows
  {
    if row.amount <= 0 || row.resource == Cost then (Refused, rows)
    else if row.budgetId !in env.budgets || env.budgets[row.budgetId].runId != row.runId then (Refused, rows)
    else if HasRow(rows, row.budgetId, row.requestId, row.resource) then (AlreadyPresent, rows)
    else
      var allowance := Allowance(env, row.budgetId, row.resource);
      if allowance.None? || Used(rows, row.budgetId, row.resource) + row.amount > allowance.value
      then (Overspend, rows)
      else (Inserted, rows + [row])
  }

  // ------------------------------------------------------ ledger invariants

  ghost predicate AllPositive(rows: seq<Row>) {
    forall i :: 0 <= i < |rows| ==> rows[i].amount > 0
  }

  predicate SameCharge(a: Row, b: Row) {
    a.budgetId == b.budgetId && a.resource == b.resource && a.requestId == b.requestId && a.requestId.Some?
  }

  /** At most one row per budget, non-null request id and resource. */
  ghost predicate UniqueCharges(rows: seq<Row>) {
    forall i, j :: 0 <= i < j < |rows| ==> !SameCharge(rows[i], rows[j])
  }

  /** Every issued allowance still covers what was charged. */
  ghost predicate WithinEnvelopes(env: Envelopes, rows: seq<Row>) {
    forall b, r :: Allowance(env, b, r).Some? ==> Used(rows, b, r) <= Allowance(env, b, r).value
  }

  ghost predicate LedgerOk(env: Envelopes, rows: seq<Row>) {
    AllPositive(rows) && UniqueCharges(rows) && WithinEnvelopes(env, rows)
  }

  lemma EmptyLedgerOk(env: Envelopes)
    ensures LedgerOk(env, [])
  {
  }

  lemma InsertKeepsLedgerOk(env: Envelopes, rows: seq<Row>, row: Row)
    requires LedgerOk(env, rows)
    ensures LedgerOk(env, InsertWithinAllowance(env, rows, row).1)
  {
    var after := InsertWithinAllowance(env, rows, row).1;
    if after != rows {
      forall b, r | Allowance(env, b, r).Some?
        ensures Used(after, b, r) <= Allowance(env, b, r).value
      {
        UsedAppend(rows, row, b, r);
      }
    }
  }

  /** Distinct requests, each holding its own row of at least its weight, never weigh more than the ledger total. */
  lemma {:induction false} DistinctChargesBoundedByUsed(
    rows: seq<Row>, budgetId: string, resource: Resource, requests: seq<string>, weights: seq<nat>)
    requires AllPositive(rows)
    requires |requests| == |weights|
    requires forall i, j :: 0 <= i < j < |requests| ==> requests[i] != requests[j]
    requires forall i :: 0 <= i < |requests| ==> HoldsAtLeast(rows, budgetId, resource, requests[i], weights[i])
    ensures Sum(weights) <= Used(rows, budgetId, resource)
  {
    if requests == [] {
      UsedNonNegative(rows, budgetId, resource);
    } else {
      var k := |requests| - 1;
      var at :| 0 <= at < |rows| && Charges(rows[at], budgetId, resource)
                && rows[at].requestId == Some(requests[k]) && weights[k] <= rows[at].amount;
      var rest := rows[..at] + rows[at + 1..];
      UsedWithout(rows[..at], rows[at], rows[at + 1..], budgetId, resource);
      assert rows == rows[..at] + [rows[at]] + rows[at + 1..];
      forall i | 0 <= i < k ensures HoldsAtLeast(rest, budgetId, resource, requests[i], weights[i]) {
        OthersStillHold(rows, at, budgetId, resource, requests[i], weights[i]);
      }
      DistinctChargesBoundedByUsed(rest, budgetId, resource, requests[..k], weights[..k]);
    }
  }

  lemma UsedWithout(before: seq<Row>, row: Row, after: seq<Row>, budgetId: string, resource: Resource)
    requires Charges(row, budgetId, resource)
    ensures Used(before + [row] + after, budgetId, resource) == Used(before + after, budgetId, resource) + row.amount
  {
    UsedConcat(before + [row], after, budgetId, resource);
    UsedAppend(before, row, budgetId, resource);
    UsedConcat(before, after, budgetId, resource);
  }

  lemma OthersStillHold(rows: seq<Row>, at: nat, budgetId: string, resource: Resource, request: string, weight: nat)
    requires at < |rows| && rows[at].requestId != Some(request) && HoldsAtLeast(rows, budgetId, resource, request, weight)
    ensures HoldsAtLeast(rows[..at] + rows[at + 1..], budgetId, resource, request, weight)
  {
    var p :| 0 <= p < |rows| && Charges(rows[p], budgetId, resource) && rows[p].requestId == Some(request) && weight <= rows[p].amount;
    assert (rows[..at] + rows[at + 1..])[if p < at then p else p - 1] == rows[p];
  }

  ghost predicate HoldsAtLeast(rows: seq<Row>, budgetId: string, resource: Resource, request: string, weight: nat) {
    exists i :: 0 <= i < |rows| && Charges(rows[i], budgetId, resource)
                && rows[i].requestId == Some(request) && weight <= rows[i].amount
  }

  function Sum(values: seq<nat>): nat {
    if values == [] then 0 else Sum(values[..|values| - 1]) + values[|values| - 1]
  }

  lemma {:induction false} SumOfOnes(values: seq<nat>)
    requires forall i :: 0 <= i < |values| ==> values[i] == 1
    ensures Sum(values) == |values|
  {
    if values != [] {
      SumOfOnes(values[..|values| - 1]);
    }
  }
}
