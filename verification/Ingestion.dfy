/** Ingesting a completed Worker invocation: first writer wins, all rows or none. */
module Ingestion {
  import opened Common

  datatype Request = Request(requestId: string, experimentId: string, runId: string, budgetId: string)

  datatype Draft = Draft(kind: string, version: string, payload: string)

  /** What validation and normalization, outside this model, say of one invocation. */
  datatype Evidence = Evidence(
    completed: bool, hasResult: bool, contractsValid: bool, correlates: bool, trustedFields: bool, supported: bool,
    wellFormed: bool, drafts: seq<Draft>, status: string)

  datatype Reason =
    | NotCompleted | ResultMissing | ContractBroken | CorrelationMismatch | UntrustedRequest | UnsupportedNormalizer
    | MalformedPayload | NoExperiment | WrongRun | WrongBudget

  datatype Outcome =
    | Rejected(reason: Reason)
    | AlreadyIngested(resultId: string, found: set<string>)
    | Ingested(resultId: string, observations: seq<string>)      // NO_OBSERVATION when empty
    | Conflict                                                   // a unique key refuses a row: everything is rolled back

  datatype Result = Result(requestId: string, experimentId: string, status: string)
  datatype Observation = Observation(resultId: string, draft: Draft)
  datatype Home = Home(runId: string, budgetId: string)

  datatype Tables = Tables(
    experiments: map<string, Home>, results: map<string, Result>, observations: map<string, Observation>,
    audits: map<string, string>)   // audit id -> subject id

  // -------------------------------------------------------------------- ids

  function ResultId(requestId: string): string { "wr:" + requestId }

  function DraftId(requestId: string, draft: Draft): string {
    requestId + ":" + draft.kind + ":" + draft.version
  }

  function ObservationKey(x: string): string { "obs:" + x }
  function ObservationAuditKey(x: string): string { "ae:obs:" + x }
  function ResultAuditId(requestId: string): string { "ae:wr:" + requestId }

  function ObservationId(requestId: string, draft: Draft): string { ObservationKey(DraftId(requestId, draft)) }
  function ObservationAuditId(requestId: string, draft: Draft): string { ObservationAuditKey(DraftId(requestId, draft)) }

  // ----------------------------------------------------- inserting many rows

  /** Inserts rows one by one; None at the first key that is taken. */
  function PutAll<K(==), V>(table: map<K, V>, rows: seq<(K, V)>): Option<map<K, V>> {
    if rows == [] then Some(table)
    else
      var front := PutAll(table, rows[..|rows| - 1]);
      var (key, value) := rows[|rows| - 1];
      if front.None? || key in front.value then None else Some(front.value[key := value])
  }

  ghost predicate FreshKeys<K, V>(table: map<K, V>, rows: seq<(K, V)>) {
    && (forall i :: 0 <= i < |rows| ==> rows[i].0 !in table)
    && (forall i, j :: 0 <= i < j < |rows| ==> rows[i].0 != rows[j].0)
  }

  predicate HasKey<K(==), V>(rows: seq<(K, V)>, key: K) {
    exists i :: 0 <= i < |rows| && rows[i].0 == key
  }

  /** The rows went in: each under its key, one more entry per row, everything else as it was. */
  ghost predicate Added<K(!new), V(!new)>(table: map<K, V>, after: map<K, V>, rows: seq<(K, V)>) {
    && |after| == |table| + |rows|
    && (forall k :: k in after <==> k in table || HasKey(rows, k))
    && (forall k :: k in table ==> k in after && after[k] == table[k])
    && (forall i :: 0 <= i < |rows| ==> rows[i].0 in after && after[rows[i].0] == rows[i].1)
  }

  lemma HasKeySplits<K, V>(rows: seq<(K, V)>, key: K)
    requires rows != []
    ensures HasKey(rows, key) <==> HasKey(rows[..|rows| - 1], key) || rows[|rows| - 1].0 == key
  {
    var front := rows[..|rows| - 1];
    if HasKey(rows, key) {
      var i :| 0 <= i < |rows| && rows[i].0 == key;
      assert i < |front| ==> front[i].0 == key;
    }
    if HasKey(front, key) {
      var i :| 0 <= i < |front| && front[i].0 == key;
      assert rows[i].0 == key;
    }
  }

  lemma KeysOneMore<K(!new), V(!new)>(table: map<K, V>, front: map<K, V>, rows: seq<(K, V)>, last: (K, V))
    requires forall k :: k in front <==> k in table || HasKey(rows, k)
    ensures forall k :: k in front[last.0 := last.1] <==> k in table || HasKey(rows + [last], k)
  {
    var all := rows + [last];
    forall k ensures HasKey(all, k) <==> HasKey(rows, k) || k == last.0 {
      HasKeySplits(all, k);
      assert all[..|all| - 1] == rows;
    }
  }

  lemma RowsOneMore<K(!new), V(!new)>(front: map<K, V>, rows: seq<(K, V)>, last: (K, V))
    requires last.0 !in front && forall i :: 0 <= i < |rows| ==> rows[i].0 in front && front[rows[i].0] == rows[i].1
    ensures var (after, all) := (front[last.0 := last.1], rows + [last]);
            forall i :: 0 <= i < |all| ==> all[i].0 in after && after[all[i].0] == all[i].1
  {
  }

  lemma OthersOneMore<K(!new), V(!new)>(table: map<K, V>, front: map<K, V>, last: (K, V))
    requires last.0 !in front && forall k :: k in table ==> k in front && front[k] == table[k]
    ensures forall k :: k in table ==> k in front[last.0 := last.1] && front[last.0 := last.1][k] == table[k]
    ensures |front[last.0 := last.1]| == |front| + 1
  {
    assert front[last.0 := last.1].Keys == front.Keys + {last.0};
  }

  /** One row more, under a new key. */
  lemma AddedOneMore<K(!new), V(!new)>(table: map<K, V>, front: map<K, V>, rows: seq<(K, V)>, last: (K, V))
    requires Added(table, front, rows) && last.0 !in front
    ensures Added(table, front[last.0 := last.1], rows + [last])
  {
    KeysOneMore(table, front, rows, last);
    RowsOneMore(front, rows, last);
    OthersOneMore(table, front, last);
  }

  lemma {:induction false} PutAllAdds<K(!new), V(!new)>(table: map<K, V>, rows: seq<(K, V)>)
    requires PutAll(table, rows).Some?
    ensures Added(table, PutAll(table, rows).value, rows)
  {
    if rows != [] {
      var (front, last) := (rows[..|rows| - 1], rows[|rows| - 1]);
      PutAllAdds(table, front);
      AddedOneMore(table, PutAll(table, front).value, front, last);
      assert rows == front + [last];
    }
  }

  lemma FreshKeysSplits<K, V>(table: map<K, V>, rows: seq<(K, V)>)
    requires rows != []
    ensures var k := |rows| - 1;
            FreshKeys(table, rows)
            <==> FreshKeys(table, rows[..k]) && rows[k].0 !in table && !HasKey(rows[..k], rows[k].0)
  {
    var k := |rows| - 1;
    assert forall i :: 0 <= i < k ==> rows[..k][i] == rows[i];
    assert !HasKey(rows[..k], rows[k].0) ==> forall i :: 0 <= i < k ==> rows[..k][i].0 != rows[k].0;
  }

  /** All rows go in exactly when their keys are new and distinct. */
  lemma {:induction false} PutAllIff<K(!new), V(!new)>(table: map<K, V>, rows: seq<(K, V)>)
    ensures PutAll(table, rows).Some? <==> FreshKeys(table, rows)
  {
    if rows != [] {
      var k := |rows| - 1;
      FreshKeysSplits(table, rows);
      PutAllIff(table, rows[..k]);
      if PutAll(table, rows[..k]).Some? {
        PutAllAdds(table, rows[..k]);
      }
    }
  }

  function ObservationRows(requestId: string, drafts: seq<Draft>): (rows: seq<(string, Observation)>) {
    seq(|drafts|, i requires 0 <= i < |drafts| =>
      (ObservationId(requestId, drafts[i]), Observation(ResultId(requestId), drafts[i])))
  }

  function AuditRows(requestId: string, drafts: seq<Draft>): (rows: seq<(string, string)>) {
    [(ResultAuditId(requestId), ResultId(requestId))]
    + seq(|drafts|, i requires 0 <= i < |drafts| =>
        (ObservationAuditId(requestId, drafts[i]), ObservationId(requestId, drafts[i])))
  }

  function ObservationIds(requestId: string, drafts: seq<Draft>): seq<string> {
    seq(|drafts|, i requires 0 <= i < |drafts| => ObservationId(requestId, drafts[i]))
  }

  // ------------------------------------------------------------ transaction

  /** Why the invocation is refused before any table is read. */
  function Refusal(e: Evidence): Option<Reason> {
    if !e.completed then Some(NotCompleted)
    else if !e.hasResult then Some(ResultMissing)
    else if !e.contractsValid then Some(ContractBroken)
    else if !e.correlates then Some(CorrelationMismatch)
    else if !e.trustedFields then Some(UntrustedRequest)
    else if !e.supported then Some(UnsupportedNormalizer)
    else if !e.wellFormed then Some(MalformedPayload)
    else None
  }

  function Integrity(t: Tables, request: Request): Option<Reason> {
    if request.experimentId !in t.experiments then Some(NoExperiment)
    else if t.experiments[request.experimentId].runId != request.runId then Some(WrongRun)
    else if t.experiments[request.experimentId].budgetId != request.budgetId then Some(WrongBudget)
    else None
  }

  function ResultsFor(t: Tables, requestId: string): set<string> {
    set w | w in t.results && t.results[w].requestId == requestId
  }

  function ObservationsOf(t: Tables, resultId: string): set<string> {
    set o | o in t.observations && t.observations[o].resultId == resultId
  }

  /** The rows of one new result, or the conflict that rolls them all back. */
  function StoreTx(t: Tables, request: Request, e: Evidence): (Tables, Outcome) {
    var (r, w) := (request.requestId, ResultId(request.requestId));
    var observations := PutAll(t.observations, ObservationRows(r, e.drafts));
    var audits := PutAll(t.audits, AuditRows(r, e.drafts));
    if w in t.results || observations.None? || audits.None? then (t, Conflict)
    else
      (t.(results := t.results[w := Result(r, request.experimentId, e.status)],
          observations := observations.value, audits := audits.value),
       Ingested(w, ObservationIds(r, e.drafts)))
  }

  /** One ingestion. first is the row the unordered lookup by request id answers with. */
  function IngestTx(t: Tables, request: Request, e: Evidence, first: string): (Tables, Outcome)
    requires ResultsFor(t, request.requestId) != {} ==> first in ResultsFor(t, request.requestId)
  {
    if Refusal(e).Some? then (t, Rejected(Refusal(e).value))
    else if ResultsFor(t, request.requestId) != {} then (t, AlreadyIngested(first, ObservationsOf(t, first)))
    else if Integrity(t, request).Some? then (t, Rejected(Integrity(t, request).value))
    else StoreTx(t, request, e)
  }

  // --------------------------------------------------------- the use case

  class IngestCompletedWorkerInvocation {
    var tables: Tables

    constructor (tables: Tables)
      ensures this.tables == tables
    {
      this.tables := tables;
    }

    /** One call; a refused insert drops the unit of work. */
    method Execute(request: Request, e: Evidence) returns (outcome: Outcome, ghost first: string)
      modifies this
      ensures ResultsFor(old(tables), request.requestId) != {} ==> first in ResultsFor(old(tables), request.requestId)
      ensures (tables, outcome) == IngestTx(old(tables), request, e, first)
    {
      var existing := ResultsFor(tables, request.requestId);
      var chosen := "";
      if existing != {} {
        chosen :| chosen in existing;
      }
      first := chosen;
      var reason := Refusal(e);
      if reason.Some? {
        return Rejected(reason.value), first;
      }
      if existing != {} {
        return AlreadyIngested(chosen, ObservationsOf(tables, chosen)), first;
      }
      reason := Integrity(tables, request);
      if reason.Some? {
        return Rejected(reason.value), first;
      }
      var uow := tables;
      var w := ResultId(request.requestId);
      if w in uow.results {
        return Conflict, first;
      }
      uow := uow.(results := uow.results[w := Result(request.requestId, request.experimentId, e.status)]);
      var observations, ids := PersistObservations(uow.observations, request.requestId, e.drafts);
      var audits := PersistAuditEvents(uow.audits, request.requestId, e.drafts);
      if observations.None? || audits.None? {
        return Conflict, first;
      }
      tables := uow.(observations := observations.value, audits := audits.value);
      return Ingested(w, ids), first;
    }

    /** Inserts the observations in draft order, collecting their ids; stops at the first taken id. */
    method PersistObservations(table: map<string, Observation>, requestId: string, drafts: seq<Draft>)
      returns (after: Option<map<string, Observation>>, ids: seq<string>)
      ensures after == PutAll(table, ObservationRows(requestId, drafts))
      ensures after.Some? ==> ids == ObservationIds(requestId, drafts)
    {
      var rows := table;
      ids := [];
      for i := 0 to |drafts|
        invariant PutAll(table, ObservationRows(requestId, drafts[..i])) == Some(rows)
        invariant ids == ObservationIds(requestId, drafts[..i])
      {
        var id := ObservationId(requestId, drafts[i]);
        assert ObservationRows(requestId, drafts[..i + 1])
            == ObservationRows(requestId, drafts[..i]) + [(id, Observation(ResultId(requestId), drafts[i]))];
        if id in rows {
          assert ObservationRows(requestId, drafts)[..i + 1] == ObservationRows(requestId, drafts[..i + 1]);
          PutAllStops(table, ObservationRows(requestId, drafts), i + 1);
          return None, ids;
        }
        rows := rows[id := Observation(ResultId(requestId), drafts[i])];
        ids := ids + [id];
      }
      assert drafts[..|drafts|] == drafts;
      after := Some(rows);
    }

    method PersistAuditEvents(table: map<string, string>, requestId: string, drafts: seq<Draft>)
      returns (after: Option<map<string, string>>)
      ensures after == PutAll(table, AuditRows(requestId, drafts))
    {
      var all := AuditRows(requestId, drafts);
      var rows := table;
      for i := 0 to |all|
        invariant PutAll(table, all[..i]) == Some(rows)
      {
        assert all[..i + 1][..i] == all[..i];
        if all[i].0 in rows {
          PutAllStops(table, all, i + 1);
          return None;
        }
        rows := rows[all[i].0 := all[i].1];
      }
      assert all[..|all|] == all;
      after := Some(rows);
    }
  }

  lemma {:induction false} PutAllStops<K, V>(table: map<K, V>, rows: seq<(K, V)>, i: nat)
    requires i <= |rows| && PutAll(table, rows[..i]).None?
    ensures PutAll(table, rows).None?
    decreases |rows|
  {
    if i < |rows| {
      assert rows[..|rows| - 1][..i] == rows[..i];
      PutAllStops(table, rows[..|rows| - 1], i);
    } else {
      assert rows[..i] == rows;
    }
  }

  // -------------------------------------------------------------- invariant

  /** Ids say what they stand for, and every row has its audit row. */
  ghost predicate TablesOk(t: Tables) {
    && (forall w :: w in t.results ==> w == ResultId(t.results[w].requestId))
    && (forall o :: o in t.observations ==>
          && t.observations[o].resultId in t.results
          && o == ObservationId(t.results[t.observations[o].resultId].requestId, t.observations[o].draft))
    && (forall r :: ResultId(r) in t.results <==> ResultAuditId(r) in t.audits)
    && (forall x :: ObservationKey(x) in t.observations <==> ObservationAuditKey(x) in t.audits)
  }

  lemma ResultIdInjective(r: string, q: string)
    requires ResultId(r) == ResultId(q)
    ensures r == q
  {
    assert r == ResultId(r)[3..] && q == ResultId(q)[3..];
  }

  lemma OneResultPerRequest(t: Tables, requestId: string)
    requires TablesOk(t)
    ensures ResultsFor(t, requestId) == if ResultId(requestId) in t.results then {ResultId(requestId)} else {}
  {
    forall w | w in ResultsFor(t, requestId) ensures w == ResultId(requestId) {}
    if ResultId(requestId) in t.results {
      ResultIdInjective(requestId, t.results[ResultId(requestId)].requestId);
      assert ResultId(requestId) in ResultsFor(t, requestId);
    }
  }

  lemma KeysInjective(x: string, y: string)
    ensures ObservationKey(x) == ObservationKey(y) <==> x == y
    ensures ObservationAuditKey(x) == ObservationAuditKey(y) <==> x == y
    ensures ResultAuditId(x) == ResultAuditId(y) <==> x == y
    ensures ResultAuditId(x) != ObservationAuditKey(y)
  {
    assert x == ObservationKey(x)[4..] && y == ObservationKey(y)[4..];
    assert x == ObservationAuditKey(x)[7..] && y == ObservationAuditKey(y)[7..];
    assert x == ResultAuditId(x)[6..] && y == ResultAuditId(y)[6..];
    assert ResultAuditId(x)[3] == 'w' && ObservationAuditKey(y)[3] == 'o';
  }

  predicate DistinctDrafts(requestId: string, drafts: seq<Draft>) {
    forall i, j :: 0 <= i < j < |drafts| ==> DraftId(requestId, drafts[i]) != DraftId(requestId, drafts[j])
  }

  lemma ObservationRowsAreFreshIff(t: Tables, r: string, drafts: seq<Draft>)
    ensures FreshKeys(t.observations, ObservationRows(r, drafts))
      <==> DistinctDrafts(r, drafts) && forall i :: 0 <= i < |drafts| ==> ObservationId(r, drafts[i]) !in t.observations
  {
    var rows := ObservationRows(r, drafts);
    forall i, j | 0 <= i < j < |drafts| ensures rows[i].0 == rows[j].0 <==> DraftId(r, drafts[i]) == DraftId(r, drafts[j]) {
      KeysInjective(DraftId(r, drafts[i]), DraftId(r, drafts[j]));
    }
    forall i | 0 <= i < |drafts| ensures rows[i].0 == ObservationId(r, drafts[i]) {}
  }

  /** The audit ids of a new result are free whenever its own id and its observation ids are. */
  lemma AuditRowsAreFresh(t: Tables, r: string, drafts: seq<Draft>)
    requires TablesOk(t) && ResultId(r) !in t.results && FreshKeys(t.observations, ObservationRows(r, drafts))
    ensures FreshKeys(t.audits, AuditRows(r, drafts))
  {
    ObservationRowsAreFreshIff(t, r, drafts);
    var rows := AuditRows(r, drafts);
    forall i | 0 < i < |rows| ensures rows[i].0 == ObservationAuditKey(DraftId(r, drafts[i - 1])) && rows[i].0 !in t.audits {
      assert ObservationId(r, drafts[i - 1]) !in t.observations;
    }
    forall i, j | 0 <= i < j < |rows| ensures rows[i].0 != rows[j].0 {
      if i == 0 {
        KeysInjective(r, DraftId(r, drafts[j - 1]));
      } else {
        KeysInjective(DraftId(r, drafts[i - 1]), DraftId(r, drafts[j - 1]));
      }
    }
  }

  /** A first, acceptable ingestion stores its rows exactly when its observation ids are distinct and unused. */
  lemma StoresIff(t: Tables, request: Request, e: Evidence)
    requires TablesOk(t) && ResultId(request.requestId) !in t.results
    ensures StoreTx(t, request, e).1.Ingested?
      <==> DistinctDrafts(request.requestId, e.drafts)
           && forall i :: 0 <= i < |e.drafts| ==> ObservationId(request.requestId, e.drafts[i]) !in t.observations
  {
    var r := request.requestId;
    PutAllIff(t.observations, ObservationRows(r, e.drafts));
    PutAllIff(t.audits, AuditRows(r, e.drafts));
    ObservationRowsAreFreshIff(t, r, e.drafts);
    if FreshKeys(t.observations, ObservationRows(r, e.drafts)) {
      AuditRowsAreFresh(t, r, e.drafts);
    }
  }

  predicate NoColon(d: Draft) {
    ':' !in d.kind && ':' !in d.version
  }

  lemma DraftIdInjective(r: string, d: Draft, q: string, f: Draft)
    requires NoColon(d) && NoColon(f) && DraftId(r, d) == DraftId(q, f)
    ensures r == q && d.kind == f.kind && d.version == f.version
  {
    LastColonSplits(r + ":" + d.kind, d.version, q + ":" + f.kind, f.version);
    LastColonSplits(r, d.kind, q, f.kind);
  }

  /** Without colons in kinds and versions, distinct kind-version pairs are all it takes. */
  lemma ColonFreeStoresIff(t: Tables, request: Request, e: Evidence)
    requires TablesOk(t) && ResultId(request.requestId) !in t.results
    requires forall i :: 0 <= i < |e.drafts| ==> NoColon(e.drafts[i])
    requires forall o :: o in t.observations ==> NoColon(t.observations[o].draft)
    ensures StoreTx(t, request, e).1.Ingested?
      <==> forall i, j :: 0 <= i < j < |e.drafts| ==>
             e.drafts[i].kind != e.drafts[j].kind || e.drafts[i].version != e.drafts[j].version
  {
    var r := request.requestId;
    StoresIff(t, request, e);
    forall i | 0 <= i < |e.drafts| ensures ObservationId(r, e.drafts[i]) !in t.observations {
      var o := ObservationId(r, e.drafts[i]);
      if o in t.observations {
        var row := t.observations[o];
        KeysInjective(DraftId(r, e.drafts[i]), DraftId(t.results[row.resultId].requestId, row.draft));
        DraftIdInjective(r, e.drafts[i], t.results[row.resultId].requestId, row.draft);
      }
    }
    forall i, j | 0 <= i < j < |e.drafts|
      ensures DraftId(r, e.drafts[i]) == DraftId(r, e.drafts[j])
        <==> e.drafts[i].kind == e.drafts[j].kind && e.drafts[i].version == e.drafts[j].version
    {
      if DraftId(r, e.drafts[i]) == DraftId(r, e.drafts[j]) { DraftIdInjective(r, e.drafts[i], r, e.drafts[j]); }
    }
  }

  // --------------------------------------------------------------- one call

  /** Rows that are there stay, and observations of a stored result are never added to. */
  ghost predicate Extends(t: Tables, u: Tables) {
    && u.experiments == t.experiments
    && (forall w :: w in t.results ==> w in u.results && u.results[w] == t.results[w])
    && (forall o :: o in t.observations ==> o in u.observations && u.observations[o] == t.observations[o])
    && (forall a :: a in t.audits ==> a in u.audits && u.audits[a] == t.audits[a])
    && (forall o :: o in u.observations && u.observations[o].resultId in t.results ==> o in t.observations)
  }

  /** What a successful store leaves behind. */
  ghost predicate Stored(t: Tables, u: Tables, request: Request, e: Evidence) {
    var (r, w) := (request.requestId, ResultId(request.requestId));
    && w !in t.results && u.experiments == t.experiments
    && u.results == t.results[w := Result(r, request.experimentId, e.status)]
    && Added(t.observations, u.observations, ObservationRows(r, e.drafts))
    && Added(t.audits, u.audits, AuditRows(r, e.drafts))
  }

  /** A successful ingestion adds one result, exactly one observation per draft, and one audit row more. */
  lemma StoreAdds(t: Tables, request: Request, e: Evidence)
    requires StoreTx(t, request, e).1.Ingested?
    ensures var u := StoreTx(t, request, e).0;
            && Stored(t, u, request, e)
            && |u.results| == |t.results| + 1
            && |u.observations| == |t.observations| + |e.drafts|
            && |u.audits| == |t.audits| + |e.drafts| + 1
  {
    var (r, w, u) := (request.requestId, ResultId(request.requestId), StoreTx(t, request, e).0);
    PutAllAdds(t.observations, ObservationRows(r, e.drafts));
    PutAllAdds(t.audits, AuditRows(r, e.drafts));
    assert |t.results[w := Result(r, request.experimentId, e.status)]| == |t.results| + 1;
  }

  lemma StoredExtends(t: Tables, u: Tables, request: Request, e: Evidence)
    requires Stored(t, u, request, e)
    ensures Extends(t, u)
  {
    StoredObservations(t, u, request, e);
  }

  lemma StoredKeepsIds(t: Tables, u: Tables, request: Request, e: Evidence)
    requires TablesOk(t) && Stored(t, u, request, e)
    ensures forall w :: w in u.results ==> w == ResultId(u.results[w].requestId)
    ensures forall o :: o in u.observations ==>
              && u.observations[o].resultId in u.results
              && o == ObservationId(u.results[u.observations[o].resultId].requestId, u.observations[o].draft)
  {
    StoredObservations(t, u, request, e);
    forall o | o in u.observations
      ensures u.observations[o].resultId in u.results
      ensures o == ObservationId(u.results[u.observations[o].resultId].requestId, u.observations[o].draft)
    {
      if o in t.observations {
        assert u.observations[o] == t.observations[o] && t.observations[o].resultId in t.results;
      }
    }
  }

  lemma StoredKeepsTables(t: Tables, u: Tables, request: Request, e: Evidence)
    requires TablesOk(t) && Stored(t, u, request, e)
    ensures TablesOk(u) && Extends(t, u)
  {
    StoredExtends(t, u, request, e);
    StoredKeepsIds(t, u, request, e);
    forall q ensures ResultId(q) in u.results <==> ResultAuditId(q) in u.audits { StoredResult(t, u, request, e, q); }
    forall x ensures ObservationKey(x) in u.observations <==> ObservationAuditKey(x) in u.audits { StoredKeys(t, u, request, e, x); }
  }

  lemma StoredObservations(t: Tables, u: Tables, request: Request, e: Evidence)
    requires Stored(t, u, request, e)
    ensures forall o :: o in u.observations && o !in t.observations ==>
              u.observations[o].resultId == ResultId(request.requestId)
              && o == ObservationId(request.requestId, u.observations[o].draft)
  {
    var rows := ObservationRows(request.requestId, e.drafts);
    forall o | o in u.observations && o !in t.observations
      ensures u.observations[o].resultId == ResultId(request.requestId)
      ensures o == ObservationId(request.requestId, u.observations[o].draft)
    {
      assert HasKey(rows, o);
      var i :| 0 <= i < |rows| && rows[i].0 == o;
      assert u.observations[rows[i].0] == rows[i].1;
    }
  }

  lemma AuditRowsHoldResult(r: string, drafts: seq<Draft>, q: string)
    ensures HasKey(AuditRows(r, drafts), ResultAuditId(q)) <==> q == r
  {
    var rows := AuditRows(r, drafts);
    KeysInjective(q, r);
    assert rows[0].0 == ResultAuditId(r);
    if HasKey(rows, ResultAuditId(q)) {
      var i :| 0 <= i < |rows| && rows[i].0 == ResultAuditId(q);
      if i > 0 { KeysInjective(q, DraftId(r, drafts[i - 1])); }
    }
  }

  lemma StoredResult(t: Tables, u: Tables, request: Request, e: Evidence, q: string)
    requires TablesOk(t) && Stored(t, u, request, e)
    ensures ResultId(q) in u.results <==> ResultAuditId(q) in u.audits
  {
    AuditRowsHoldResult(request.requestId, e.drafts, q);
    if ResultId(q) == ResultId(request.requestId) { ResultIdInjective(q, request.requestId); }
  }

  lemma ObservationIsAudited(r: string, drafts: seq<Draft>, x: string)
    requires HasKey(ObservationRows(r, drafts), ObservationKey(x))
    ensures HasKey(AuditRows(r, drafts), ObservationAuditKey(x))
  {
    var i :| 0 <= i < |drafts| && ObservationRows(r, drafts)[i].0 == ObservationKey(x);
    KeysInjective(x, DraftId(r, drafts[i]));
    assert AuditRows(r, drafts)[i + 1].0 == ObservationAuditKey(x);
  }

  lemma AuditedIsObservation(r: string, drafts: seq<Draft>, x: string)
    requires HasKey(AuditRows(r, drafts), ObservationAuditKey(x))
    ensures HasKey(ObservationRows(r, drafts), ObservationKey(x))
  {
    KeysInjective(r, x);
    var i :| 0 <= i < |drafts| + 1 && AuditRows(r, drafts)[i].0 == ObservationAuditKey(x);
    assert AuditRows(r, drafts)[0].0 == ResultAuditId(r);
    KeysInjective(x, DraftId(r, drafts[i - 1]));
    assert ObservationRows(r, drafts)[i - 1].0 == ObservationKey(x);
  }

  lemma StoredKeys(t: Tables, u: Tables, request: Request, e: Evidence, x: string)
    requires TablesOk(t) && Stored(t, u, request, e)
    ensures ObservationKey(x) in u.observations <==> ObservationAuditKey(x) in u.audits
  {
    var (r, drafts) := (request.requestId, e.drafts);
    if HasKey(ObservationRows(r, drafts), ObservationKey(x)) { ObservationIsAudited(r, drafts, x); }
    if HasKey(AuditRows(r, drafts), ObservationAuditKey(x)) { AuditedIsObservation(r, drafts, x); }
  }

  lemma ExtendsItself(t: Tables)
    ensures Extends(t, t)
  {
  }

  lemma IngestKeepsTables(t: Tables, request: Request, e: Evidence, first: string)
    requires TablesOk(t) && (ResultsFor(t, request.requestId) != {} ==> first in ResultsFor(t, request.requestId))
    ensures TablesOk(IngestTx(t, request, e, first).0) && Extends(t, IngestTx(t, request, e, first).0)
    ensures !IngestTx(t, request, e, first).1.Ingested? ==> IngestTx(t, request, e, first).0 == t
  {
    ExtendsItself(t);
    OneResultPerRequest(t, request.requestId);
    if StoreTx(t, request, e).1.Ingested? {
      StoreAdds(t, request, e);
      StoredKeepsTables(t, StoreTx(t, request, e).0, request, e);
    }
  }

  // ------------------------------------------------------------ many calls

  datatype Call = Call(request: Request, evidence: Evidence)

  /** Any sequence of ingestions. The lookup by request id can only answer the request's own result. */
  function IngestAll(t: Tables, calls: seq<Call>): Tables {
    if calls == [] then t
    else
      var before := IngestAll(t, calls[..|calls| - 1]);
      var c := calls[|calls| - 1];
      var w := ResultId(c.request.requestId);
      if ResultsFor(before, c.request.requestId) == {} || w in ResultsFor(before, c.request.requestId)
      then IngestTx(before, c.request, c.evidence, w).0 else before
  }

  lemma ExtendsTransitive(t: Tables, u: Tables, v: Tables)
    requires Extends(t, u) && Extends(u, v)
    ensures Extends(t, v)
  {
  }

  lemma {:induction false} AllKeepTables(t: Tables, calls: seq<Call>)
    requires TablesOk(t)
    ensures TablesOk(IngestAll(t, calls)) && Extends(t, IngestAll(t, calls))
  {
    ExtendsItself(t);
    if calls != [] {
      var before := IngestAll(t, calls[..|calls| - 1]);
      var c := calls[|calls| - 1];
      AllKeepTables(t, calls[..|calls| - 1]);
      OneResultPerRequest(before, c.request.requestId);
      IngestKeepsTables(before, c.request, c.evidence, ResultId(c.request.requestId));
      ExtendsTransitive(t, before, IngestAll(t, calls));
    }
  }

  /** However many calls are made, a request has at most one result. */
  lemma AtMostOneResult(t: Tables, calls: seq<Call>, v: string, w: string)
    requires TablesOk(t)
    requires v in IngestAll(t, calls).results && w in IngestAll(t, calls).results
    requires IngestAll(t, calls).results[v].requestId == IngestAll(t, calls).results[w].requestId
    ensures v == w
  {
    AllKeepTables(t, calls);
  }

  /** The first writer wins: after a stored result, and whatever is ingested meanwhile, ingesting the request
      again answers with the first result and exactly its observations, and changes nothing. */
  lemma ReplayAnswersFirst(t: Tables, request: Request, e: Evidence, calls: seq<Call>, again: Evidence, first: string)
    requires TablesOk(t) && StoreTx(t, request, e).1.Ingested? && Refusal(again).None?
    requires var later := IngestAll(StoreTx(t, request, e).0, calls);
             ResultsFor(later, request.requestId) != {} ==> first in ResultsFor(later, request.requestId)
    ensures var stored := StoreTx(t, request, e).1;
            var later := IngestAll(StoreTx(t, request, e).0, calls);
            IngestTx(later, request, again, first)
            == (later, AlreadyIngested(stored.resultId, set o | o in stored.observations))
  {
    var u := StoreTx(t, request, e).0;
    StoreAdds(t, request, e);
    StoredKeepsTables(t, u, request, e);
    AllKeepTables(u, calls);
    OwnObservations(t, u, request, e);
    AnswersLater(u, IngestAll(u, calls), request, again, first);
  }

  lemma AnswersLater(u: Tables, later: Tables, request: Request, again: Evidence, first: string)
    requires TablesOk(later) && Extends(u, later) && ResultId(request.requestId) in u.results && Refusal(again).None?
    requires ResultsFor(later, request.requestId) != {} ==> first in ResultsFor(later, request.requestId)
    ensures IngestTx(later, request, again, first)
         == (later, AlreadyIngested(ResultId(request.requestId), ObservationsOf(u, ResultId(request.requestId))))
  {
    OneResultPerRequest(later, request.requestId);
    assert ObservationsOf(later, ResultId(request.requestId)) == ObservationsOf(u, ResultId(request.requestId));
  }

  lemma OwnObservations(t: Tables, u: Tables, request: Request, e: Evidence)
    requires TablesOk(t) && Stored(t, u, request, e)
    ensures ObservationsOf(u, ResultId(request.requestId)) == set o | o in ObservationIds(request.requestId, e.drafts)
  {
    var (r, w) := (request.requestId, ResultId(request.requestId));
    var (rows, ids) := (ObservationRows(r, e.drafts), ObservationIds(r, e.drafts));
    assert forall i :: 0 <= i < |ids| ==> ids[i] == rows[i].0;
    forall o | o in u.observations && u.observations[o].resultId == w ensures o in ids {
      assert o !in t.observations;
      assert HasKey(rows, o);
      var i :| 0 <= i < |rows| && rows[i].0 == o;
    }
    forall o | o in ids ensures o in u.observations && u.observations[o].resultId == w {
      var i :| 0 <= i < |ids| && ids[i] == o;
      assert u.observations[rows[i].0] == rows[i].1;
    }
  }

  // ------------------------------------------------------- colliding ids

  /** Some draft of one request and some draft of the other want the same observation id. */
  ghost predicate ShareId(r: string, drafts: seq<Draft>, q: string, others: seq<Draft>) {
    exists i, j :: 0 <= i < |drafts| && 0 <= j < |others| && DraftId(r, drafts[i]) == DraftId(q, others[j])
  }

  /** Two results that share an observation id: once the first is stored, and whatever is ingested meanwhile, every
      otherwise acceptable ingestion of the second answers with the conflict and leaves the tables as they are. */
  lemma SharedIdIsLost(t: Tables, request: Request, e: Evidence, calls: seq<Call>, other: Request, f: Evidence, first: string)
    requires TablesOk(t) && StoreTx(t, request, e).1.Ingested?
    requires ShareId(request.requestId, e.drafts, other.requestId, f.drafts) && Refusal(f).None?
    requires var later := IngestAll(StoreTx(t, request, e).0, calls);
             Integrity(later, other).None? && ResultsFor(later, other.requestId) == {}
    ensures var later := IngestAll(StoreTx(t, request, e).0, calls);
            IngestTx(later, other, f, first) == (later, Conflict)
  {
    var i, j :| 0 <= i < |e.drafts| && 0 <= j < |f.drafts| && DraftId(request.requestId, e.drafts[i]) == DraftId(other.requestId, f.drafts[j]);
    StoredDraftStays(t, request, e, calls, i);
    TakenIdConflicts(IngestAll(StoreTx(t, request, e).0, calls), other, f, first, j);
  }

  lemma TakenIdConflicts(t: Tables, request: Request, e: Evidence, first: string, j: nat)
    requires TablesOk(t) && Refusal(e).None? && Integrity(t, request).None? && ResultsFor(t, request.requestId) == {}
    requires j < |e.drafts| && ObservationId(request.requestId, e.drafts[j]) in t.observations
    ensures IngestTx(t, request, e, first) == (t, Conflict)
  {
    OneResultPerRequest(t, request.requestId);
    StoresIff(t, request, e);
  }

  lemma StoredDraftStays(t: Tables, request: Request, e: Evidence, calls: seq<Call>, i: nat)
    requires TablesOk(t) && StoreTx(t, request, e).1.Ingested? && i < |e.drafts|
    ensures var later := IngestAll(StoreTx(t, request, e).0, calls);
            TablesOk(later) && ObservationId(request.requestId, e.drafts[i]) in later.observations
  {
    var u := StoreTx(t, request, e).0;
    StoreAdds(t, request, e);
    StoredKeepsTables(t, u, request, e);
    AllKeepTables(u, calls);
    StoredDraft(t, u, request, e, i);
  }

  lemma StoredDraft(t: Tables, u: Tables, request: Request, e: Evidence, i: nat)
    requires Stored(t, u, request, e) && i < |e.drafts|
    ensures ObservationId(request.requestId, e.drafts[i]) in u.observations
  {
    assert ObservationRows(request.requestId, e.drafts)[i].0 in u.observations;
  }

  /** A colon in a kind is enough for that: request r with kind "x:k" and request "r:x" with kind "k", at any version. */
  lemma ColonsCollide(
    t: Tables, request: Request, e: Evidence, calls: seq<Call>, other: Request, f: Evidence, first: string,
    x: string, i: nat, j: nat)
    requires TablesOk(t) && StoreTx(t, request, e).1.Ingested? && i < |e.drafts| && j < |f.drafts|
    requires e.drafts[i].kind == x + ":" + f.drafts[j].kind && e.drafts[i].version == f.drafts[j].version
    requires other.requestId == request.requestId + ":" + x && Refusal(f).None?
    requires var later := IngestAll(StoreTx(t, request, e).0, calls);
             Integrity(later, other).None? && ResultsFor(later, other.requestId) == {}
    ensures var later := IngestAll(StoreTx(t, request, e).0, calls);
            IngestTx(later, other, f, first) == (later, Conflict)
  {
    assert DraftId(request.requestId, e.drafts[i]) == DraftId(other.requestId, f.drafts[j]);
    SharedIdIsLost(t, request, e, calls, other, f, first);
  }
}
