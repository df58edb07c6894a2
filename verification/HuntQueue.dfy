/** The V3 queue: what enters it, and how an item becomes APPROVED. */
module HuntQueue {
  import opened Common

  // ------------------------------------------------------------------ tables

  datatype Capability = AuthorizationDifferential | StateTransition | MutationMatrix | ProtocolParser

  datatype WorkAction = Probe | PlanOnly

  datatype Arguments = Arguments(claim: string, identity: string, approvalRequired: Option<string>, workerDispatch: Option<string>)

  datatype ItemState = Pending | Approved

  datatype Item = Item(
    runId: string, hypothesisId: string, familyId: string, nodeKey: string, identity: Option<string>,
    capability: Capability, action: WorkAction, arguments: Arguments, level: nat, state: ItemState)

  datatype Tier = V1 | V2 | V3
  datatype TierOutcome = Passed | RejectedTier | Queued

  datatype Audit =
    | TierAudit(runId: string, hypothesisId: string, familyId: string, nodeKey: string, tier: Tier, outcome: TierOutcome,
                queueId: Option<string>)
    | GateAudit(itemId: string, approved: bool, reason: GateReason, approvalId: Option<string>)

  datatype Actor = HumanOperator | OtherActor
  datatype ApprovalVote = Approve | Reject
  datatype Approval = Approval(approvalId: string, subject: string, vote: ApprovalVote, actor: Actor, recorded: bool)

  datatype Hypothesis = Hypothesis(runId: string, identity: Option<string>)

  datatype Hunt = Hunt(
    hypotheses: map<string, Hypothesis>, approvals: map<string, Approval>, queue: map<string, Item>, audits: seq<Audit>)

  // -------------------------------------------------------------- validation

  datatype Node = Node(nodeId: string, key: string, kind: string, inScope: bool, signals: set<string>)
  datatype Edge = Edge(kind: string, source: string, target: string)

  datatype Family = Family(
    name: string, id: string, tier: string, requiredKinds: seq<string>, requiredEdge: Option<string>)

  /** One validation; the static match, the claim text and the plan builders are answered from outside. */
  datatype Validation = Validation(
    runId: string, hypothesisId: string, family: Family, nodeId: string, nodes: seq<Node>, edges: seq<Edge>,
    staticMatch: bool, claim: string, planBuilds: bool, requiredSignals: set<string>, newQueueId: string)

  datatype ValidationResult = Raised | Decided(v1: bool, v2: bool, queueId: Option<string>)

  function FirstNode(nodes: seq<Node>, id: string): Option<Node> {
    if nodes == [] then None else if nodes[0].nodeId == id then Some(nodes[0]) else FirstNode(nodes[1..], id)
  }

  /** The passive evidence check. */
  predicate PassiveEvidence(node: Node, family: Family, edges: seq<Edge>) {
    && (family.requiredKinds != [] ==> node.kind in family.requiredKinds)
    && (family.requiredEdge.Some? ==>
          exists i :: 0 <= i < |edges| && edges[i].kind == family.requiredEdge.value
                      && (edges[i].source == node.nodeId || edges[i].target == node.nodeId))
  }

  function CapabilityFor(name: string): Option<Capability> {
    if name == "OBJECT_AUTHORIZATION" then Some(AuthorizationDifferential)
    else if name == "WORKFLOW_STATE_TRANSITION" then Some(StateTransition)
    else if name == "HTTP_REQUEST_SMUGGLING_DESYNC" || name == "HTTP_CACHE_POISONING_DECEPTION" then Some(ProtocolParser)
    else if name in ["SQL_INJECTION", "SERVER_SIDE_TEMPLATE_INJECTION", "FILE_INCLUDE_AND_PATH_TRAVERSAL", "MASS_ASSIGNMENT",
                     "JWT_CRYPTO_AND_CLAIM_CONFUSION", "CORS_CREDENTIAL_EXFILTRATION_CHAIN",
                     "GRAPHQL_AUTHORIZATION_AND_INJECTION", "DOM_TAINT_AND_CLIENT_SIDE_EXECUTION",
                     "AI_LLM_PROMPT_INJECTION_AND_TOOL_ABUSE"]
    then Some(MutationMatrix)
    else None
  }

  function ActionFor(capability: Capability): WorkAction {
    if capability.AuthorizationDifferential? || capability.StateTransition? then Probe else PlanOnly
  }

  function LevelFor(name: string): nat {
    if name == "HTTP_REQUEST_SMUGGLING_DESYNC" || name == "HTTP_CACHE_POISONING_DECEPTION" then 3
    else if name == "WORKFLOW_STATE_TRANSITION" then 1
    else 0
  }

  /** The arguments of the item, or None where a builder or the surface check raises. */
  function ArgumentsFor(v: Validation, node: Node, capability: Capability, identity: Option<string>): Option<Arguments> {
    var who := if identity.Some? && identity.value != "" then identity.value else "ANONYMOUS";
    match capability
    case MutationMatrix =>
      if !v.planBuilds then None
      else Some(Arguments(v.claim, who, None, Some("forbidden_until_operator_approval")))
    case ProtocolParser =>
      if !v.planBuilds || node.signals * v.requiredSignals == {} then None
      else Some(Arguments(v.claim, who, Some("SE3"), Some("forbidden_until_se3_approval")))
    case _ => Some(Arguments(v.claim, who, None, None))
  }

  /** The queue row a validation would insert, or None where enqueueing raises. */
  function ItemFor(v: Validation, node: Node, identity: Option<string>): Option<Item> {
    var capability := CapabilityFor(v.family.name);
    if !node.inScope || capability.None? then None
    else
      var arguments := ArgumentsFor(v, node, capability.value, identity);
      if arguments.None? then None
      else Some(Item(v.runId, v.hypothesisId, v.family.id, node.key, identity, capability.value,
                     ActionFor(capability.value), arguments.value, LevelFor(v.family.name), Pending))
  }

  function Decision(v: Validation, node: Node, tier: Tier, outcome: TierOutcome, queueId: Option<string>): Audit {
    TierAudit(v.runId, v.hypothesisId, v.family.id, node.key, tier, outcome, queueId)
  }

  function ValidateTx(h: Hunt, v: Validation): (Hunt, ValidationResult) {
    var node := FirstNode(v.nodes, v.nodeId);
    if v.hypothesisId !in h.hypotheses || h.hypotheses[v.hypothesisId].runId != v.runId || node.None? then (h, Raised)
    else if !v.staticMatch
    then (h.(audits := h.audits + [Decision(v, node.value, V1, RejectedTier, None)]), Decided(false, false, None))
    else
      var one := h.audits + [Decision(v, node.value, V1, Passed, None)];
      if !PassiveEvidence(node.value, v.family, v.edges)
      then (h.(audits := one + [Decision(v, node.value, V2, RejectedTier, None)]), Decided(true, false, None))
      else
        var two := one + [Decision(v, node.value, V2, Passed, None)];
        if v.family.tier != "V3" then (h.(audits := two), Decided(true, true, None))
        else
          var item := ItemFor(v, node.value, h.hypotheses[v.hypothesisId].identity);
          if item.None? || v.newQueueId in h.queue then (h, Raised)
          else
            (h.(queue := h.queue[v.newQueueId := item.value],
                audits := two + [Decision(v, node.value, V3, Queued, Some(v.newQueueId))]),
             Decided(true, true, Some(v.newQueueId)))
  }

  // ---------------------------------------------------------------- approval

  datatype GateReason =
    | Allowed | MarkerMissing | ApprovalRequired | ApprovalNotRecorded | ApprovalInvalidActor | ApprovalSubjectMismatch | ApprovalRejected

  datatype GateResult = GateRaised | Gate(approved: bool, reason: GateReason)

  function SubjectFor(queueId: string): string { "hunt-v3-queue:" + queueId }

  function Evaluate(approval: Option<Approval>, subject: string): GateReason {
    if approval.None? then ApprovalRequired
    else if !approval.value.recorded then ApprovalNotRecorded
    else if !approval.value.actor.HumanOperator? then ApprovalInvalidActor
    else if approval.value.subject != subject then ApprovalSubjectMismatch
    else if approval.value.vote.Reject? then ApprovalRejected
    else Allowed
  }

  function ApprovalFor(h: Hunt, subject: string): Option<Approval> {
    if subject in h.approvals then Some(h.approvals[subject]) else None
  }

  function ApproveTx(h: Hunt, runId: string, queueId: string): (Hunt, GateResult) {
    if queueId !in h.queue || h.queue[queueId].runId != runId || h.queue[queueId].state != Pending then (h, GateRaised)
    else
      var item := h.queue[queueId];
      var approval := ApprovalFor(h, SubjectFor(queueId));
      var reason := Evaluate(approval, SubjectFor(queueId));
      var id := if approval.Some? then Some(approval.value.approvalId) else None;
      if item.level == 3 && item.arguments.approvalRequired != Some("SE3")
      then (h.(audits := h.audits + [GateAudit(queueId, false, MarkerMissing, None)]), Gate(false, MarkerMissing))
      else if reason != Allowed
      then (h.(audits := h.audits + [GateAudit(queueId, false, reason, id)]), Gate(false, reason))
      else
        (h.(queue := h.queue[queueId := item.(state := Approved)],
            audits := h.audits + [GateAudit(queueId, true, Allowed, id)]),
         Gate(true, Allowed))
  }

  // --------------------------------------------------------- the object code

  class HuntStore {
    var hunt: Hunt

    constructor (hunt: Hunt)
      ensures this.hunt == hunt
    {
      this.hunt := hunt;
    }

    method Validate(v: Validation) returns (result: ValidationResult)
      modifies this
      ensures (hunt, result) == ValidateTx(old(hunt), v)
    {
      var uow := hunt;
      if v.hypothesisId !in uow.hypotheses || uow.hypotheses[v.hypothesisId].runId != v.runId {
        return Raised;
      }
      var found := FirstNode(v.nodes, v.nodeId);
      if found.None? {
        return Raised;
      }
      var node := found.value;
      uow := uow.(audits := uow.audits + [Decision(v, node, V1, if v.staticMatch then Passed else RejectedTier, None)]);
      if !v.staticMatch {
        hunt := uow;
        return Decided(false, false, None);
      }
      var evidence := PassiveEvidence(node, v.family, v.edges);
      uow := uow.(audits := uow.audits + [Decision(v, node, V2, if evidence then Passed else RejectedTier, None)]);
      if !evidence {
        hunt := uow;
        return Decided(true, false, None);
      }
      var queueId: Option<string> := None;
      if v.family.tier == "V3" {
        var item := ItemFor(v, node, uow.hypotheses[v.hypothesisId].identity);
        if item.None? || v.newQueueId in uow.queue {
          return Raised;   // the unit of work, with its two audit rows, is dropped
        }
        uow := uow.(queue := uow.queue[v.newQueueId := item.value]);
        queueId := Some(v.newQueueId);
        uow := uow.(audits := uow.audits + [Decision(v, node, V3, Queued, queueId)]);
      }
      hunt := uow;
      return Decided(true, true, queueId);
    }

    method ApproveItem(runId: string, queueId: string) returns (result: GateResult)
      modifies this
      ensures (hunt, result) == ApproveTx(old(hunt), runId, queueId)
    {
      var uow := hunt;
      if queueId !in uow.queue {
        return GateRaised;
      }
      var item := uow.queue[queueId];
      if item.runId != runId || item.state != Pending {
        return GateRaised;
      }
      var subject := SubjectFor(queueId);
      var approval := ApprovalFor(uow, subject);
      var reason := Evaluate(approval, subject);
      var id := if approval.Some? then Some(approval.value.approvalId) else None;
      if item.level == 3 && item.arguments.approvalRequired != Some("SE3") {
        hunt := uow.(audits := uow.audits + [GateAudit(queueId, false, MarkerMissing, None)]);
        return Gate(false, MarkerMissing);
      }
      if reason != Allowed {
        hunt := uow.(audits := uow.audits + [GateAudit(queueId, false, reason, id)]);
        return Gate(false, reason);
      }
      uow := uow.(queue := uow.queue[queueId := item.(state := Approved)]);
      uow := uow.(audits := uow.audits + [GateAudit(queueId, true, Allowed, id)]);
      hunt := uow;
      return Gate(true, Allowed);
    }
  }

  // ----------------------------------------------------------- every history

  datatype Event =
    | Validated(v: Validation)
    | ApprovalAsked(runId: string, queueId: string)
    | ApprovalRecorded(approval: Approval)          // an operator's decision; one per subject, never changed

  function Next(h: Hunt, e: Event): Hunt {
    match e
    case Validated(v) => ValidateTx(h, v).0
    case ApprovalAsked(runId, queueId) => ApproveTx(h, runId, queueId).0
    case ApprovalRecorded(a) => if a.subject in h.approvals then h else h.(approvals := h.approvals[a.subject := a])
  }

  function After(h: Hunt, events: seq<Event>): Hunt {
    if events == [] then h else Next(After(h, events[..|events| - 1]), events[|events| - 1])
  }

  predicate Authorizes(h: Hunt, queueId: string) {
    Evaluate(ApprovalFor(h, SubjectFor(queueId)), SubjectFor(queueId)) == Allowed
  }

  /** The three tier rows of an item, in order. */
  ghost predicate TiersPassed(audits: seq<Audit>, q: string, item: Item) {
    exists i: nat, j: nat, k: nat ::
      && i < j < k < |audits|
      && audits[i] == TierAudit(item.runId, item.hypothesisId, item.familyId, item.nodeKey, V1, Passed, None)
      && audits[j] == TierAudit(item.runId, item.hypothesisId, item.familyId, item.nodeKey, V2, Passed, None)
      && audits[k] == TierAudit(item.runId, item.hypothesisId, item.familyId, item.nodeKey, V3, Queued, Some(q))
  }

  /** An event that put this item into the queue, for a node in scope. */
  ghost predicate Origin(e: Event, q: string, item: Item) {
    && e.Validated? && e.v.newQueueId == q && e.v.family.tier == "V3"
    && FirstNode(e.v.nodes, e.v.nodeId).Some?
    && var node := FirstNode(e.v.nodes, e.v.nodeId).value;
       && node.inScope && e.v.staticMatch && PassiveEvidence(node, e.v.family, e.v.edges)
       && ItemFor(e.v, node, item.identity) == Some(item.(state := Pending))
  }

  ghost predicate ItemOk(h: Hunt, q: string, item: Item) {
    && TiersPassed(h.audits, q, item)
    && (item.level == 3 ==> item.capability.ProtocolParser? && item.arguments.approvalRequired == Some("SE3")
                            && item.arguments.workerDispatch == Some("forbidden_until_se3_approval"))
    && (item.state.Approved? ==> Authorizes(h, q) && exists id :: GateAudit(q, true, Allowed, id) in h.audits)
  }

  ghost predicate HuntOk(h: Hunt) {
    forall q :: q in h.queue ==> ItemOk(h, q, h.queue[q])
  }

  /** What one event may do to an existing item: nothing, or approve a pending one that is authorized. */
  ghost predicate Moves(h: Hunt, after: Hunt, e: Event, q: string) {
    q in h.queue && q in after.queue &&
    (after.queue[q] == h.queue[q]
     || (&& h.queue[q].state == Pending && after.queue[q] == h.queue[q].(state := Approved)
         && e == ApprovalAsked(h.queue[q].runId, q) && Authorizes(h, q)))
  }

  lemma MoreAuditsKeepTiers(audits: seq<Audit>, more: seq<Audit>, q: string, item: Item, state: ItemState)
    requires TiersPassed(audits, q, item) && audits <= more
    ensures TiersPassed(more, q, item.(state := state))
  {
    var i: nat, j: nat, k: nat :|
      && i < j < k < |audits|
      && audits[i] == TierAudit(item.runId, item.hypothesisId, item.familyId, item.nodeKey, V1, Passed, None)
      && audits[j] == TierAudit(item.runId, item.hypothesisId, item.familyId, item.nodeKey, V2, Passed, None)
      && audits[k] == TierAudit(item.runId, item.hypothesisId, item.familyId, item.nodeKey, V3, Queued, Some(q));
    assert more[i] == audits[i] && more[j] == audits[j] && more[k] == audits[k];
  }

  /** Later rows and approvals only add to what an untouched item rests on. */
  lemma ItemStaysOk(h: Hunt, after: Hunt, q: string)
    requires q in h.queue && ItemOk(h, q, h.queue[q]) && h.audits <= after.audits
    requires forall s :: s in h.approvals ==> s in after.approvals && after.approvals[s] == h.approvals[s]
    ensures ItemOk(after, q, h.queue[q])
  {
    MoreAuditsKeepTiers(h.audits, after.audits, q, h.queue[q], h.queue[q].state);
    if h.queue[q].state.Approved? {
      var id :| GateAudit(q, true, Allowed, id) in h.audits;
      assert GateAudit(q, true, Allowed, id) in after.audits;
    }
  }

  /** The two shapes a transaction of either kind can take, besides changing one item. */
  ghost predicate OnlyAudits(h: Hunt, after: Hunt) {
    h.audits <= after.audits && after == h.(audits := after.audits)
  }

  ghost predicate Enqueues(h: Hunt, after: Hunt, v: Validation) {
    && v.newQueueId !in h.queue && v.newQueueId in after.queue && h.audits <= after.audits
    && after == h.(queue := h.queue[v.newQueueId := after.queue[v.newQueueId]], audits := after.audits)
    && ItemOk(after, v.newQueueId, after.queue[v.newQueueId])
    && Origin(Validated(v), v.newQueueId, after.queue[v.newQueueId])
  }

  ghost predicate Approves(h: Hunt, after: Hunt, runId: string, q: string) {
    && q in h.queue && h.queue[q].state == Pending && h.queue[q].runId == runId && Authorizes(h, q)
    && h.audits <= after.audits
    && after == h.(queue := h.queue[q := h.queue[q].(state := Approved)], audits := after.audits)
    && exists id :: GateAudit(q, true, Allowed, id) in after.audits
  }

  lemma EnqueuedItemIsOk(h: Hunt, v: Validation)
    requires ValidateTx(h, v).1.Decided? && ValidateTx(h, v).1.queueId.Some?
    ensures Enqueues(h, ValidateTx(h, v).0, v)
  {
    var (after, q) := (ValidateTx(h, v).0, v.newQueueId);
    var n := |h.audits|;
    var item := after.queue[q];
    assert after.audits[n] == TierAudit(item.runId, item.hypothesisId, item.familyId, item.nodeKey, V1, Passed, None);
    assert after.audits[n + 1] == TierAudit(item.runId, item.hypothesisId, item.familyId, item.nodeKey, V2, Passed, None);
    assert after.audits[n + 2] == TierAudit(item.runId, item.hypothesisId, item.familyId, item.nodeKey, V3, Queued, Some(q));
  }

  lemma ValidationShape(h: Hunt, v: Validation)
    ensures OnlyAudits(h, ValidateTx(h, v).0) || Enqueues(h, ValidateTx(h, v).0, v)
  {
    var result := ValidateTx(h, v).1;
    if result.Decided? && result.queueId.Some? { EnqueuedItemIsOk(h, v); }
  }

  lemma ApprovalShape(h: Hunt, runId: string, q: string)
    ensures if ApproveTx(h, runId, q).1 == Gate(true, Allowed) then Approves(h, ApproveTx(h, runId, q).0, runId, q)
            else OnlyAudits(h, ApproveTx(h, runId, q).0)
  {
    var (after, result) := ApproveTx(h, runId, q);
    if result == Gate(true, Allowed) {
      assert after.audits[|h.audits|] in after.audits;
    }
  }

  /** One item is new or changed and in order; the others only see more audit rows. */
  lemma OneItemKeepsHunt(h: Hunt, after: Hunt, changed: string)
    requires HuntOk(h) && h.audits <= after.audits && after.approvals == h.approvals
    requires forall q :: q in after.queue && q != changed ==> q in h.queue && after.queue[q] == h.queue[q]
    requires changed in after.queue ==> ItemOk(after, changed, after.queue[changed])
    ensures HuntOk(after)
  {
    forall q | q in after.queue && q != changed ensures ItemOk(after, q, after.queue[q]) { ItemStaysOk(h, after, q); }
  }

  lemma OnlyAuditsKeepsHunt(h: Hunt, after: Hunt, e: Event)
    requires HuntOk(h) && OnlyAudits(h, after)
    ensures HuntOk(after) && forall q :: q in h.queue ==> Moves(h, after, e, q)
  {
    forall q | q in after.queue ensures ItemOk(after, q, after.queue[q]) { ItemStaysOk(h, after, q); }
  }

  lemma EnqueueKeepsHunt(h: Hunt, after: Hunt, v: Validation)
    requires HuntOk(h) && Enqueues(h, after, v)
    ensures HuntOk(after)
  {
    OneItemKeepsHunt(h, after, v.newQueueId);
  }

  lemma EnqueueMovesNothing(h: Hunt, after: Hunt, v: Validation, e: Event)
    requires Enqueues(h, after, v)
    ensures forall q :: q in h.queue ==> Moves(h, after, e, q)
  {
  }

  lemma ApprovedItemIsOk(h: Hunt, after: Hunt, runId: string, q: string)
    requires Approves(h, after, runId, q) && ItemOk(h, q, h.queue[q])
    ensures ItemOk(after, q, after.queue[q])
  {
    MoreAuditsKeepTiers(h.audits, after.audits, q, h.queue[q], Approved);
  }

  lemma ApproveMovesOne(h: Hunt, after: Hunt, runId: string, queueId: string)
    requires Approves(h, after, runId, queueId)
    ensures forall q :: q in h.queue ==> Moves(h, after, ApprovalAsked(runId, queueId), q)
  {
  }

  lemma ApproveChangesOne(h: Hunt, after: Hunt, runId: string, queueId: string)
    requires Approves(h, after, runId, queueId)
    ensures h.audits <= after.audits && after.approvals == h.approvals && queueId in after.queue
    ensures forall q :: q in after.queue && q != queueId ==> q in h.queue && after.queue[q] == h.queue[q]
  {
  }

  lemma ApproveKeepsHunt(h: Hunt, after: Hunt, runId: string, queueId: string)
    requires HuntOk(h) && Approves(h, after, runId, queueId)
    ensures HuntOk(after) && forall q :: q in h.queue ==> Moves(h, after, ApprovalAsked(runId, queueId), q)
  {
    assert HuntOk(after) by {
      ApproveChangesOne(h, after, runId, queueId);
      ApprovedItemIsOk(h, after, runId, queueId);
      OneItemKeepsHunt(h, after, queueId);
    }
    ApproveMovesOne(h, after, runId, queueId);
  }

  lemma EventKeepsHunt(h: Hunt, e: Event)
    requires HuntOk(h)
    ensures HuntOk(Next(h, e)) && forall q :: q in h.queue ==> Moves(h, Next(h, e), e, q)
  {
    match e
    case Validated(v) => ValidationKeepsHunt(h, v);
    case ApprovalAsked(runId, queueId) => AskingKeepsHunt(h, runId, queueId);
    case ApprovalRecorded(a) =>
      RecordingMovesNothing(h, a);
      ApprovalsKeepHunt(h, Next(h, ApprovalRecorded(a)));
  }

  lemma ValidationKeepsHunt(h: Hunt, v: Validation)
    requires HuntOk(h)
    ensures var after := ValidateTx(h, v).0; HuntOk(after) && forall q :: q in h.queue ==> Moves(h, after, Validated(v), q)
  {
    var after := ValidateTx(h, v).0;
    ValidationShape(h, v);
    if OnlyAudits(h, after) {
      OnlyAuditsKeepsHunt(h, after, Validated(v));
    } else {
      EnqueueKeepsHunt(h, after, v);
      EnqueueMovesNothing(h, after, v, Validated(v));
    }
  }

  lemma AskingKeepsHunt(h: Hunt, runId: string, queueId: string)
    requires HuntOk(h)
    ensures var after := ApproveTx(h, runId, queueId).0;
            HuntOk(after) && forall q :: q in h.queue ==> Moves(h, after, ApprovalAsked(runId, queueId), q)
  {
    var after := ApproveTx(h, runId, queueId).0;
    ApprovalShape(h, runId, queueId);
    if OnlyAudits(h, after) {
      OnlyAuditsKeepsHunt(h, after, ApprovalAsked(runId, queueId));
    } else {
      ApproveKeepsHunt(h, after, runId, queueId);
    }
  }

  lemma RecordingMovesNothing(h: Hunt, a: Approval)
    ensures var after := Next(h, ApprovalRecorded(a));
            && after.queue == h.queue && after.audits == h.audits
            && (forall s :: s in h.approvals ==> s in after.approvals && after.approvals[s] == h.approvals[s])
            && forall q :: q in h.queue ==> Moves(h, after, ApprovalRecorded(a), q)
  {
  }

  lemma ApprovalsKeepHunt(h: Hunt, after: Hunt)
    requires HuntOk(h) && after.queue == h.queue && after.audits == h.audits
    requires forall s :: s in h.approvals ==> s in after.approvals && after.approvals[s] == h.approvals[s]
    ensures HuntOk(after)
  {
    forall q | q in h.queue ensures ItemOk(after, q, h.queue[q]) { ItemStaysOk(h, after, q); }
  }

  lemma OnlyValidationsEnqueue(h: Hunt, e: Event, q: string)
    requires q !in h.queue && q in Next(h, e).queue
    ensures Origin(e, q, Next(h, e).queue[q])
  {
    match e
    case Validated(v) => ValidationShape(h, v);
    case ApprovalAsked(runId, queueId) => ApprovalShape(h, runId, queueId);
    case ApprovalRecorded(a) =>
  }

  lemma MovedItemKeepsOrigin(o: Event, h: Hunt, after: Hunt, e: Event, q: string)
    requires Moves(h, after, e, q) && Origin(o, q, h.queue[q])
    ensures Origin(o, q, after.queue[q])
  {
    assert after.queue[q].(state := Pending) == h.queue[q].(state := Pending);
  }

  /** Over every history from an empty queue: each row has its V1 PASSED, V2 PASSED and V3 QUEUED audit rows in
      order, came from a validation of an in-scope node, carries the SE3 marker if its level is 3, and is APPROVED
      only with an authorizing human approval for its own subject and an audited gate decision. */
  lemma {:induction false} QueueGate(h: Hunt, events: seq<Event>, q: string)
    requires h.queue == map[] && q in After(h, events).queue
    ensures var item := After(h, events).queue[q];
            && ItemOk(After(h, events), q, item)
            && exists i :: 0 <= i < |events| && Origin(events[i], q, item)
  {
    HistoryKeepsHunt(h, events);
    RowsHaveOrigin(h, events, q);
  }

  lemma {:induction false} HistoryKeepsHunt(h: Hunt, events: seq<Event>)
    requires HuntOk(h)
    ensures HuntOk(After(h, events))
  {
    if events != [] {
      HistoryKeepsHunt(h, events[..|events| - 1]);
      EventKeepsHunt(After(h, events[..|events| - 1]), events[|events| - 1]);
    }
  }

  ghost predicate HasOrigin(events: seq<Event>, q: string, item: Item) {
    exists i :: 0 <= i < |events| && Origin(events[i], q, item)
  }

  lemma OriginCarriesOver(events: seq<Event>, e: Event, h: Hunt, after: Hunt, q: string)
    requires Moves(h, after, e, q) && HasOrigin(events, q, h.queue[q])
    ensures HasOrigin(events + [e], q, after.queue[q])
  {
    var i :| 0 <= i < |events| && Origin(events[i], q, h.queue[q]);
    MovedItemKeepsOrigin(events[i], h, after, e, q);
    assert (events + [e])[i] == events[i];
  }

  lemma OriginStep(before: Hunt, earlier: seq<Event>, e: Event, q: string)
    requires q in Next(before, e).queue
    requires q in before.queue ==> Moves(before, Next(before, e), e, q) && HasOrigin(earlier, q, before.queue[q])
    ensures HasOrigin(earlier + [e], q, Next(before, e).queue[q])
  {
    if q in before.queue {
      OriginCarriesOver(earlier, e, before, Next(before, e), q);
    } else {
      OnlyValidationsEnqueue(before, e, q);
      assert (earlier + [e])[|earlier|] == e;
    }
  }

  lemma {:induction false} RowsHaveOrigin(h: Hunt, events: seq<Event>, q: string)
    requires h.queue == map[] && q in After(h, events).queue
    ensures HasOrigin(events, q, After(h, events).queue[q])
  {
    if events != [] {
      var (earlier, e) := (events[..|events| - 1], events[|events| - 1]);
      var before := After(h, earlier);
      if q in before.queue {
        RowsHaveOrigin(h, earlier, q);
        OnlyTheGateApproves(h, earlier, e, q);
      }
      OriginStep(before, earlier, e, q);
      assert events == earlier + [e];
    }
  }

  /** An item changes only by the gate: from PENDING to APPROVED, on an authorizing approval, and never back. */
  lemma OnlyTheGateApproves(h: Hunt, events: seq<Event>, e: Event, q: string)
    requires h.queue == map[] && q in After(h, events).queue
    ensures Moves(After(h, events), Next(After(h, events), e), e, q)
  {
    HistoryKeepsHunt(h, events);
    EventKeepsHunt(After(h, events), e);
  }

  /** The gate opens exactly for a pending item of the run with an authorizing approval; the missing-marker
      refusal never happens to an item of the queue. */
  lemma GateOpensIff(h: Hunt, events: seq<Event>, runId: string, q: string)
    requires h.queue == map[]
    ensures var now := After(h, events);
            var result := ApproveTx(now, runId, q).1;
            && (result == Gate(true, Allowed)
                <==> q in now.queue && now.queue[q].runId == runId && now.queue[q].state == Pending && Authorizes(now, q))
            && result != Gate(false, MarkerMissing)
  {
    HistoryKeepsHunt(h, events);
  }
}
