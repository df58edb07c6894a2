/** The program daily cost: paired token rows grouped by request, priced and summed. */
module DailyCost {
  import opened Common
  import opened BudgetLedger

  /** Charge of a request whose model has no price: the whole 63-bit range. */
  const UNPRICED: nat := 0x7FFF_FFFF_FFFF_FFFF

  /** Microdollars per million input and output tokens. */
  const PRICES: map<string, (nat, nat)> :=
    map["gpt-4o-mini" := (150000, 600000), "gpt-4o" := (2500000, 10000000),
        "claude-3-5-sonnet" := (3000000, 15000000), "local-fixture" := (0, 0)]

  datatype Bucket = Bucket(tokensIn: int, tokensOut: int, modelId: Option<string>)

  const EMPTY_BUCKET := Bucket(0, 0, None)

  function EstimateCost(modelId: Option<string>, tokensIn: int, tokensOut: int): Option<nat> {
    if modelId.None? || modelId.value !in PRICES || tokensIn < 0 || tokensOut < 0 then None
    else
      var (rateIn, rateOut) := PRICES[modelId.value];
      Some((tokensIn * rateIn + tokensOut * rateOut) / 1_000_000)
  }

  function BucketCost(bucket: Bucket): nat {
    var cost := EstimateCost(bucket.modelId, bucket.tokensIn, bucket.tokensOut);
    if cost.Some? then cost.value else UNPRICED
  }

  // ---------------------------------------------------- declarative meaning

  predicate IsToken(row: Row) {
    row.resource == ModelTokensIn || row.resource == ModelTokensOut
  }

  predicate TokenOf(row: Row, request: Option<string>) {
    IsToken(row) && row.requestId == request
  }

  function Tokens(rows: seq<Row>, request: Option<string>, side: Resource): int {
    if rows == [] then 0
    else Tokens(rows[..|rows| - 1], request, side)
         + if rows[|rows| - 1].resource == side && rows[|rows| - 1].requestId == request then rows[|rows| - 1].amount else 0
  }

  /** The model id of the earliest token row of the request that carries one. */
  function FirstModel(rows: seq<Row>, request: Option<string>): Option<string> {
    if rows == [] then None
    else
      var earlier := FirstModel(rows[..|rows| - 1], request);
      if earlier.Some? then earlier
      else if TokenOf(rows[|rows| - 1], request) then rows[|rows| - 1].modelId else None
  }

  function BucketOf(rows: seq<Row>, request: Option<string>): Bucket {
    Bucket(Tokens(rows, request, ModelTokensIn), Tokens(rows, request, ModelTokensOut), FirstModel(rows, request))
  }

  function Requests(rows: seq<Row>): set<Option<string>> {
    set i | 0 <= i < |rows| && IsToken(rows[i]) :: rows[i].requestId
  }

  ghost function CostOver(requests: set<Option<string>>, rows: seq<Row>): nat {
    if requests == {} then 0
    else var k :| k in requests; BucketCost(BucketOf(rows, k)) + CostOver(requests - {k}, rows)
  }

  /** Sum over the distinct request ids of the cost of their total input and output tokens. */
  ghost function DailyCost(rows: seq<Row>): nat {
    CostOver(Requests(rows), rows)
  }

  lemma {:induction false} CostOverRemove(requests: set<Option<string>>, rows: seq<Row>, k: Option<string>)
    requires k in requests
    ensures CostOver(requests, rows) == BucketCost(BucketOf(rows, k)) + CostOver(requests - {k}, rows)
  {
    var picked :| picked in requests
      && CostOver(requests, rows) == BucketCost(BucketOf(rows, picked)) + CostOver(requests - {picked}, rows);
    if picked != k {
      CostOverRemove(requests - {picked}, rows, k);
      CostOverRemove(requests - {k}, rows, picked);
      assert requests - {picked} - {k} == requests - {k} - {picked};
    }
  }

  lemma {:induction false} CostOverAgree(requests: set<Option<string>>, rows: seq<Row>, other: seq<Row>)
    requires forall k :: k in requests ==> BucketCost(BucketOf(rows, k)) == BucketCost(BucketOf(other, k))
    ensures CostOver(requests, rows) == CostOver(requests, other)
  {
    if requests != {} {
      var k :| k in requests;
      CostOverRemove(requests, rows, k);
      CostOverRemove(requests, other, k);
      CostOverAgree(requests - {k}, rows, other);
    }
  }

  // -------------------------------------------------------- the two loops

  ghost predicate Grouped(buckets: map<Option<string>, Bucket>, rows: seq<Row>) {
    && buckets.Keys == Requests(rows)
    && forall k :: k in buckets ==> buckets[k] == BucketOf(rows, k)
  }

  lemma UnseenRequest(rows: seq<Row>, k: Option<string>)
    requires k !in Requests(rows)
    ensures BucketOf(rows, k) == EMPTY_BUCKET
  {
    if rows != [] {
      var shorter := rows[..|rows| - 1];
      assert Requests(shorter) <= Requests(rows);
      assert IsToken(rows[|rows| - 1]) ==> rows[|rows| - 1].requestId in Requests(rows);
      UnseenRequest(shorter, k);
    }
  }

  lemma BucketAppend(rows: seq<Row>, row: Row, k: Option<string>)
    ensures Requests(rows + [row]) == Requests(rows) + if IsToken(row) then {row.requestId} else {}
    ensures !TokenOf(row, k) ==> BucketOf(rows + [row], k) == BucketOf(rows, k)
    ensures TokenOf(row, k) ==>
              BucketOf(rows + [row], k) ==
              Bucket(BucketOf(rows, k).tokensIn + (if row.resource == ModelTokensIn then row.amount else 0),
                     BucketOf(rows, k).tokensOut + (if row.resource == ModelTokensOut then row.amount else 0),
                     if BucketOf(rows, k).modelId.None? then row.modelId else BucketOf(rows, k).modelId)
  {
    var longer := rows + [row];
    assert longer[..|rows|] == rows;
    forall r | r in Requests(longer) ensures r in Requests(rows) + if IsToken(row) then {row.requestId} else {} {
      var i :| 0 <= i < |longer| && IsToken(longer[i]) && longer[i].requestId == r;
      assert i < |rows| ==> rows[i] == longer[i];
    }
    forall r | r in Requests(rows) + if IsToken(row) then {row.requestId} else {} ensures r in Requests(longer) {
      if r in Requests(rows) {
        var i :| 0 <= i < |rows| && IsToken(rows[i]) && rows[i].requestId == r;
        assert longer[i] == rows[i];
      } else {
        assert longer[|rows|] == row;
      }
    }
  }

  /** The mutable grouping pass followed by the pricing pass. */
  method SumEstimatedCost(rows: seq<Row>) returns (total: nat)
    ensures total == DailyCost(rows)
  {
    var buckets: map<Option<string>, Bucket> := map[];
    for i := 0 to |rows|
      invariant Grouped(buckets, rows[..i])
    {
      var row := rows[i];
      assert rows[..i + 1] == rows[..i] + [row];
      forall k ensures k !in Requests(rows[..i]) ==> BucketOf(rows[..i], k) == EMPTY_BUCKET {
        if k !in Requests(rows[..i]) { UnseenRequest(rows[..i], k); }
      }
      forall k {
        BucketAppend(rows[..i], row, k);
      }
      BucketAppend(rows[..i], row, row.requestId);
      if IsToken(row) {
        var bucket := if row.requestId in buckets then buckets[row.requestId] else EMPTY_BUCKET;
        if row.resource == ModelTokensIn {
          bucket := bucket.(tokensIn := bucket.tokensIn + row.amount);
        } else {
          bucket := bucket.(tokensOut := bucket.tokensOut + row.amount);
        }
        if bucket.modelId.None? {
          bucket := bucket.(modelId := row.modelId);
        }
        buckets := buckets[row.requestId := bucket];
      }
    }
    assert rows[..|rows|] == rows;
    total := 0;
    var pending := buckets.Keys;
    while pending != {}
      invariant pending <= buckets.Keys
      invariant total + CostOver(pending, rows) == DailyCost(rows)
      decreases pending
    {
      var k :| k in pending;
      CostOverRemove(pending, rows, k);
      total := total + BucketCost(buckets[k]);
      pending := pending - {k};
    }
  }

  // ------------------------------------------------------ order of the rows

  lemma {:induction false} BucketConcat(left: seq<Row>, right: seq<Row>, k: Option<string>)
    ensures Tokens(left + right, k, ModelTokensIn) == Tokens(left, k, ModelTokensIn) + Tokens(right, k, ModelTokensIn)
    ensures Tokens(left + right, k, ModelTokensOut) == Tokens(left, k, ModelTokensOut) + Tokens(right, k, ModelTokensOut)
    ensures FirstModel(left + right, k) == if FirstModel(left, k).Some? then FirstModel(left, k) else FirstModel(right, k)
  {
    if right == [] {
      assert left + right == left;
    } else {
      var shorter := right[..|right| - 1];
      BucketConcat(left, shorter, k);
      assert (left + right)[..|left + right| - 1] == left + shorter;
    }
  }

  lemma {:induction false} FirstModelIsCarried(rows: seq<Row>, k: Option<string>)
    ensures FirstModel(rows, k).Some? ==> Carries(rows, k, FirstModel(rows, k))
    ensures FirstModel(rows, k).None? ==> forall m: Option<string> :: m.Some? ==> !Carries(rows, k, m)
  {
    if rows != [] {
      var shorter := rows[..|rows| - 1];
      FirstModelIsCarried(shorter, k);
      if FirstModel(shorter, k).Some? {
        var i :| 0 <= i < |shorter| && TokenOf(shorter[i], k) && shorter[i].modelId == FirstModel(shorter, k);
        assert rows[i] == shorter[i];
      } else {
        forall m: Option<string> | m.Some? && Carries(rows, k, m) ensures FirstModel(rows, k).Some? {
          var i :| 0 <= i < |rows| && TokenOf(rows[i], k) && rows[i].modelId == m;
          assert i < |shorter| ==> shorter[i] == rows[i];
        }
      }
    }
  }

  /** Some token row of request k carries model id m. */
  ghost predicate Carries(rows: seq<Row>, k: Option<string>, m: Option<string>) {
    exists i :: 0 <= i < |rows| && TokenOf(rows[i], k) && rows[i].modelId == m
  }

  ghost predicate Permutation(a: seq<Row>, b: seq<Row>) {
    multiset(a) == multiset(b)
  }

  /** Taking one row out of the middle takes its tokens out of the totals. */
  lemma TokensRemoveAt(rows: seq<Row>, j: nat, k: Option<string>, side: Resource)
    requires j < |rows| && (side == ModelTokensIn || side == ModelTokensOut)
    ensures Tokens(rows, k, side) == Tokens(rows[..j] + rows[j + 1..], k, side)
              + if rows[j].resource == side && rows[j].requestId == k then rows[j].amount else 0
  {
    assert rows == rows[..j] + ([rows[j]] + rows[j + 1..]);
    BucketConcat(rows[..j], [rows[j]] + rows[j + 1..], k);
    BucketConcat([rows[j]], rows[j + 1..], k);
    BucketConcat(rows[..j], rows[j + 1..], k);
  }

  lemma SplitOne<T>(s: seq<T>, j: nat)
    requires j < |s|
    ensures multiset(s) == multiset(s[..j] + s[j + 1..]) + multiset{s[j]}
  {
    assert s == s[..j] + [s[j]] + s[j + 1..];
  }

  lemma RemoveMatching(a: seq<Row>, b: seq<Row>) returns (j: nat)
    requires Permutation(a, b) && a != []
    ensures j < |b| && b[j] == a[|a| - 1]
    ensures Permutation(a[..|a| - 1], b[..j] + b[j + 1..])
  {
    var n := |a| - 1;
    assert a[n] in multiset(b);
    j :| 0 <= j < |b| && b[j] == a[n];
    SplitOne(b, j);
    SplitOne(a, n);
    assert a[..n] + a[n + 1..] == a[..n];
    var one, left, right := multiset{a[n]}, multiset(a[..n]), multiset(b[..j] + b[j + 1..]);
    assert left == left + one - one == right + one - one == right;
  }

  lemma {:induction false} PermutationKeepsTokens(a: seq<Row>, b: seq<Row>, k: Option<string>, side: Resource)
    requires Permutation(a, b) && (side == ModelTokensIn || side == ModelTokensOut)
    ensures Tokens(a, k, side) == Tokens(b, k, side)
    decreases |a|
  {
    if a == [] {
      assert |multiset(b)| == 0;
    } else {
      var j := RemoveMatching(a, b);
      PermutationKeepsTokens(a[..|a| - 1], b[..j] + b[j + 1..], k, side);
      TokensRemoveAt(b, j, k, side);
    }
  }

  lemma PermutationKeepsMembers(a: seq<Row>, b: seq<Row>)
    requires Permutation(a, b)
    ensures Requests(a) == Requests(b)
    ensures forall k, m :: Carries(a, k, m) ==> Carries(b, k, m)
  {
    forall i | 0 <= i < |a| ensures exists j :: 0 <= j < |b| && b[j] == a[i] {
      assert a[i] in multiset(b);
    }
    forall j | 0 <= j < |b| ensures exists i :: 0 <= i < |a| && a[i] == b[j] {
      assert b[j] in multiset(a);
    }
  }

  function PricedWith(rows: seq<Row>, k: Option<string>, m: Option<string>): nat {
    BucketCost(Bucket(Tokens(rows, k, ModelTokensIn), Tokens(rows, k, ModelTokensOut), m))
  }

  /** Every model id carried by a request prices the request's totals alike. */
  ghost predicate PricesAgree(rows: seq<Row>) {
    forall k: Option<string>, m: Option<string>, n: Option<string> :: m.Some? && n.Some? && Carries(rows, k, m) && Carries(rows, k, n)
      ==> PricedWith(rows, k, m) == PricedWith(rows, k, n)
  }

  lemma PermutationKeepsCost(a: seq<Row>, b: seq<Row>)
    requires Permutation(a, b) && PricesAgree(a)
    ensures DailyCost(a) == DailyCost(b)
  {
    PermutationKeepsMembers(a, b);
    PermutationKeepsMembers(b, a);
    forall k ensures BucketCost(BucketOf(a, k)) == BucketCost(BucketOf(b, k)) {
      PermutationKeepsTokens(a, b, k, ModelTokensIn);
      PermutationKeepsTokens(a, b, k, ModelTokensOut);
      FirstModelIsCarried(a, k);
      FirstModelIsCarried(b, k);
      var m, n := FirstModel(a, k), FirstModel(b, k);
      assert BucketCost(BucketOf(a, k)) == PricedWith(a, k, m);
      assert BucketCost(BucketOf(b, k)) == PricedWith(a, k, n);
    }
    CostOverAgree(Requests(a), a, b);
  }

  /** Moving one row of request k to the front re-prices k with that row's model and nothing else. */
  lemma MoveToFront(rows: seq<Row>, k: Option<string>, j: nat) returns (moved: seq<Row>)
    requires j < |rows| && TokenOf(rows[j], k) && rows[j].modelId.Some?
    ensures Permutation(rows, moved)
    ensures DailyCost(moved) - DailyCost(rows) == PricedWith(rows, k, rows[j].modelId) - BucketCost(BucketOf(rows, k))
  {
    var rest := rows[..j] + rows[j + 1..];
    moved := [rows[j]] + rest;
    assert rows == rows[..j] + ([rows[j]] + rows[j + 1..]);
    PermutationKeepsMembers(rows, moved);
    PermutationKeepsTokens(rows, moved, k, ModelTokensIn);
    PermutationKeepsTokens(rows, moved, k, ModelTokensOut);
    assert [] + [rows[j]] == [rows[j]];
    BucketAppend([], rows[j], k);
    BucketConcat([rows[j]], rest, k);
    assert BucketOf(moved, k).modelId == rows[j].modelId;
    forall other | other in Requests(rows) - {k} ensures BucketOf(moved, other) == BucketOf(rows, other) {
      PermutationKeepsTokens(rows, moved, other, ModelTokensIn);
      PermutationKeepsTokens(rows, moved, other, ModelTokensOut);
      BucketAppend([], rows[j], other);
      BucketConcat([rows[j]], rest, other);
      BucketConcat(rows[..j], rows[j + 1..], other);
      BucketConcat([rows[j]], rows[j + 1..], other);
      BucketConcat(rows[..j], [rows[j]] + rows[j + 1..], other);
    }
    CostOverRemove(Requests(rows), rows, k);
    CostOverRemove(Requests(moved), moved, k);
    CostOverAgree(Requests(rows) - {k}, rows, moved);
  }

  /** The ledger returns its rows in no meaningful order. The cost is the same in every order
      exactly when, request by request, the carried model ids agree on the price. */
  lemma OrderIrrelevantIffPricesAgree(rows: seq<Row>)
    ensures PricesAgree(rows) <==> forall other :: Permutation(rows, other) ==> DailyCost(other) == DailyCost(rows)
  {
    if PricesAgree(rows) {
      forall other | Permutation(rows, other) ensures DailyCost(other) == DailyCost(rows) {
        PermutationKeepsCost(rows, other);
      }
    } else {
      var k: Option<string>, m: Option<string>, n: Option<string> :| m.Some? && n.Some? && Carries(rows, k, m) && Carries(rows, k, n)
                     && PricedWith(rows, k, m) != PricedWith(rows, k, n);
      var i :| 0 <= i < |rows| && TokenOf(rows[i], k) && rows[i].modelId == m;
      var j :| 0 <= j < |rows| && TokenOf(rows[j], k) && rows[j].modelId == n;
      var first := MoveToFront(rows, k, i);
      var second := MoveToFront(rows, k, j);
      assert DailyCost(first) != DailyCost(rows) || DailyCost(second) != DailyCost(rows);
    }
  }

  // ------------------------------------------------------- growth and gate

  lemma EstimateMonotone(modelId: Option<string>, a: nat, b: nat, moreIn: nat, moreOut: nat)
    ensures EstimateCost(modelId, a, b).Some? <==> EstimateCost(modelId, a + moreIn, b + moreOut).Some?
    ensures EstimateCost(modelId, a, b).Some? ==>
              EstimateCost(modelId, a, b).value <= EstimateCost(modelId, a + moreIn, b + moreOut).value
  {
    if EstimateCost(modelId, a, b).Some? {
      var (rateIn, rateOut) := PRICES[modelId.value];
      assert (a + moreIn) * rateIn == a * rateIn + moreIn * rateIn;
      assert (b + moreOut) * rateOut == b * rateOut + moreOut * rateOut;
    }
  }

  lemma {:induction false} TokensNonNegative(rows: seq<Row>, k: Option<string>)
    requires AllPositive(rows)
    ensures 0 <= Tokens(rows, k, ModelTokensIn) && 0 <= Tokens(rows, k, ModelTokensOut)
  {
    if rows != [] {
      TokensNonNegative(rows[..|rows| - 1], k);
    }
  }

  /** The appended row gives its request a first model id, and the price it brings is below the unpriced charge. */
  ghost predicate FirstPriceArrivesLate(rows: seq<Row>, row: Row) {
    && IsToken(row) && row.requestId in Requests(rows)
    && FirstModel(rows, row.requestId).None?
    && BucketCost(BucketOf(rows + [row], row.requestId)) < UNPRICED
  }

  /** An appended token row re-prices its own request and nothing else. */
  lemma AppendRepricesOneRequest(rows: seq<Row>, row: Row)
    requires IsToken(row)
    ensures var k := row.requestId;
            DailyCost(rows + [row]) - DailyCost(rows) ==
            BucketCost(BucketOf(rows + [row], k)) - if k in Requests(rows) then BucketCost(BucketOf(rows, k)) else 0
  {
    var after, k := rows + [row], row.requestId;
    forall other | other in Requests(rows) - {k} ensures BucketOf(after, other) == BucketOf(rows, other) {
      BucketAppend(rows, row, other);
    }
    BucketAppend(rows, row, k);
    CostOverAgree(Requests(rows) - {k}, rows, after);
    CostOverRemove(Requests(after), after, k);
    assert Requests(after) - {k} == Requests(rows) - {k};
    if k in Requests(rows) {
      CostOverRemove(Requests(rows), rows, k);
    } else {
      assert Requests(rows) - {k} == Requests(rows);
    }
  }

  /** Appending a row lowers the cost exactly when it is the late first price of an unpriced request. */
  lemma AppendLowersCostIff(rows: seq<Row>, row: Row)
    requires AllPositive(rows) && row.amount > 0
    ensures DailyCost(rows + [row]) < DailyCost(rows) <==> FirstPriceArrivesLate(rows, row)
  {
    var after, k := rows + [row], row.requestId;
    if IsToken(row) {
      AppendRepricesOneRequest(rows, row);
      BucketAppend(rows, row, k);
      TokensNonNegative(rows, k);
      var b := BucketOf(rows, k);
      EstimateMonotone(b.modelId, b.tokensIn, b.tokensOut,
        if row.resource == ModelTokensIn then row.amount else 0,
        if row.resource == ModelTokensOut then row.amount else 0);
    } else {
      forall other ensures BucketOf(after, other) == BucketOf(rows, other) {
        BucketAppend(rows, row, other);
      }
      BucketAppend(rows, row, k);
      CostOverAgree(Requests(rows), rows, after);
      assert Requests(after) == Requests(rows);
      assert DailyCost(after) == CostOver(Requests(rows), after);
    }
  }

  /** When every token row carries its request's model id, the cost never goes down. */
  lemma AppendNeverLowersLabelledCost(rows: seq<Row>, row: Row)
    requires AllPositive(rows) && row.amount > 0
    requires forall i :: 0 <= i < |rows| && IsToken(rows[i]) ==> rows[i].modelId.Some?
    ensures DailyCost(rows) <= DailyCost(rows + [row])
  {
    AppendLowersCostIff(rows, row);
    FirstModelIsCarried(rows, row.requestId);
  }

  /** A concrete ledger whose cost drops from the unpriced charge to nothing. */
  lemma LateLabelLowersCost()
    ensures exists rows, row: Row :: AllPositive(rows) && row.amount > 0 && DailyCost(rows + [row]) < DailyCost(rows)
  {
    var unlabelled := Row("daily", None, ModelTokensIn, 1, Some("r"), None);
    var labelled := unlabelled.(modelId := Some("local-fixture"));
    BucketAppend([], unlabelled, Some("r"));
    assert [] + [unlabelled] == [unlabelled];
    BucketAppend([unlabelled], labelled, Some("r"));
    AppendLowersCostIff([unlabelled], labelled);
  }

  lemma UnpricedRequestFillsTheRange(rows: seq<Row>, k: Option<string>)
    requires k in Requests(rows)
    requires FirstModel(rows, k).None? || FirstModel(rows, k).value !in PRICES
    ensures UNPRICED <= DailyCost(rows)
  {
    CostOverRemove(Requests(rows), rows, k);
  }

  /** A program's configured daily limit: no policy at all, a policy without a limit, or a limit. */
  datatype Policy = NoPolicy | NoLimit | Limit(microdollars: nat)

  datatype DailyCheck = Allowed | BudgetExhausted | InvalidBudget

  /** The gate in front of a model call, whose estimated cost may be given. A negative sum is no valid budget and raises. */
  method CheckProgramDailyBudget(policy: Policy, envelope: bool, rows: seq<Row>, estimated: int) returns (check: DailyCheck)
    ensures check.Allowed? <==> DailyGateOpen(policy, envelope, rows, estimated)
    ensures check.InvalidBudget? <==> policy.Limit? && envelope && DailyCost(rows) + estimated < 0
  {
    if policy.NoPolicy? {
      return Allowed;
    }
    if policy.NoLimit? || !envelope {
      return BudgetExhausted;
    }
    var total := SumEstimatedCost(rows);
    var spent := total + estimated;
    if spent < 0 {
      return InvalidBudget;
    }
    return if spent >= policy.microdollars then BudgetExhausted else Allowed;
  }

  /** No policy, or a limit and an allocated envelope that the day's cost and this call's estimate stay below. */
  ghost predicate DailyGateOpen(policy: Policy, envelope: bool, rows: seq<Row>, estimated: int) {
    policy.NoPolicy? || (policy.Limit? && envelope && 0 <= DailyCost(rows) + estimated < policy.microdollars)
  }

  /** One unpriced request closes the gate of every program with a limit in the 63-bit range; a zero limit is always closed. */
  lemma GateFailsClosed(policy: Policy, envelope: bool, rows: seq<Row>, k: Option<string>, estimated: int)
    requires policy.Limit?
    ensures policy.microdollars == 0 ==> !DailyGateOpen(policy, envelope, rows, estimated)
    ensures policy.microdollars <= UNPRICED && k in Requests(rows) && estimated >= 0
            && (FirstModel(rows, k).None? || FirstModel(rows, k).value !in PRICES)
            ==> !DailyGateOpen(policy, envelope, rows, estimated)
  {
    if k in Requests(rows) && (FirstModel(rows, k).None? || FirstModel(rows, k).value !in PRICES) {
      UnpricedRequestFillsTheRange(rows, k);
    }
  }
}
