/**
 The AI gateway: policies looked up by workspace and then by tenant, the month's usage summed from the ledger, and the
 decision taken from both.
 */
module Governance {
  import opened Wrappers
  import opened Lists
  import opened Text
  import opened Contracts
  import opened Policy
  import opened Tables

  // Looking policies up.

  function RoutingRowKey(r: RoutingRow): string { r.policyKey }
  function BudgetRowKey(r: BudgetRow): string { r.policyKey }

  function RoutingRowId(r: RoutingRow): PolicyId {
    PolicyId(Scope(r.tenantSlug, r.workspaceSlug), r.featureKey, Some(r.taskType))
  }

  function BudgetRowId(r: BudgetRow): PolicyId { PolicyId(Scope(r.tenantSlug, r.workspaceSlug), r.featureKey, None) }

  function TenantWide(id: PolicyId): PolicyId { id.(scope := Scope(id.scope.tenantSlug, None)) }

  /** The workspace's own row if it has one, else the tenant's. */
  function FindScoped<R>(rows: seq<R>, id: R -> PolicyId, wanted: PolicyId): Option<R> {
    if wanted.scope.workspaceSlug.Some? && RowFor(rows, id, wanted).Some? then RowFor(rows, id, wanted)
    else RowFor(rows, id, TenantWide(wanted))
  }

  /** The last write for the workspace if there is one, else the last write for the tenant. */
  function LastScoped<R>(writes: seq<R>, id: R -> PolicyId, wanted: PolicyId): Option<R> {
    var own, shared := LastWrite(writes, id, wanted), LastWrite(writes, id, TenantWide(wanted));
    if own >= 0 then Some(writes[own]) else if shared >= 0 then Some(writes[shared]) else None
  }

  function DefaultRouting(id: PolicyId): Result<RoutingPolicy, PolicyError> {
    BuildRoutingPolicy(RoutingInput(Some(id.scope.tenantSlug), id.scope.workspaceSlug, Some(id.featureKey), id.taskType,
                                    None, None, None, None, None, None, None, None, None))
  }

  function DefaultBudget(id: PolicyId): Result<BudgetPolicy, PolicyError> {
    BuildBudgetPolicy(BudgetInput(Some(id.scope.tenantSlug), id.scope.workspaceSlug, Some(id.featureKey), Missing,
                                  Missing, Missing, None, Missing, None))
  }

  function EffectiveRouting(rows: seq<RoutingRow>, id: PolicyId): Result<RoutingPolicy, PolicyError> {
    match FindScoped(rows, RoutingRowId, id)
    case Some(row) => ReadRoutingRow(row)
    case None => DefaultRouting(id)
  }

  function EffectiveBudget(rows: seq<BudgetRow>, id: PolicyId): Result<BudgetPolicy, PolicyError> {
    match FindScoped(rows, BudgetRowId, id)
    case Some(row) => ReadBudgetRow(row)
    case None => DefaultBudget(id)
  }

  /** The policies of a scope, feature and task for which nothing is stored: cheap, unlimited and guarded. */
  lemma DefaultsAre(id: PolicyId)
    requires Slug(Some(id.scope.tenantSlug)) == id.scope.tenantSlug != ""
    requires id.scope.workspaceSlug.Some? ==> Slug(id.scope.workspaceSlug) == id.scope.workspaceSlug.value != ""
    requires NormalKey(Some(id.featureKey), "general") == id.featureKey
    requires id.taskType.Some? ==> NormalKey(id.taskType, "general") == id.taskType.value
    ensures FindScoped<RoutingRow>([], RoutingRowId, id) == None && FindScoped<BudgetRow>([], BudgetRowId, id) == None
    ensures id.taskType.Some? ==>
              EffectiveRouting([], id) ==
              Success(RoutingPolicy(id.scope, id.featureKey, id.taskType.value, CheapModel, BalancedModel, true, true,
                                    Managed, false, NearLimit, None, "aifut-policy"))
    ensures EffectiveBudget([], id) ==
            Success(BudgetPolicy(id.scope, id.featureKey, 0, 0, 0, true, 0.0, "aifut-budget"))
  {
    hide Slug;
    SlugOfNone();
  }

  lemma SlugOfNone()
    ensures Slug(None) == ""
  {
  }

  /** Rows that the builder wrote and the reader gives back. */
  ghost predicate RoutingWrite(r: RoutingRow) {
    exists p :: r == RoutingRowOf(p) && ReadRoutingRow(r) == Success(p)
  }

  ghost predicate BudgetWrite(r: BudgetRow) {
    exists p :: r == BudgetRowOf(p) && ReadBudgetRow(r) == Success(p)
  }

  lemma RoutingRowsAreKeyed(writes: seq<RoutingRow>)
    requires forall r :: r in writes ==> RoutingWrite(r)
    ensures forall r :: r in writes ==> r.policyKey == RoutingKey(RoutingRowId(r).scope, r.featureKey, r.taskType)
    ensures KeyedBy(writes, RoutingRowKey, RoutingRowId)
  {
    hide RoutingKey, ReadRoutingRow;
    forall r | r in writes
      ensures r.policyKey == RoutingKey(RoutingRowId(r).scope, r.featureKey, r.taskType)
    {
      var p :| r == RoutingRowOf(p);
    }
    forall i, j | 0 <= i < |writes| && 0 <= j < |writes| && RoutingRowId(writes[i]) == RoutingRowId(writes[j])
      ensures RoutingRowKey(writes[i]) == RoutingRowKey(writes[j])
    {
      assert writes[i] in writes && writes[j] in writes;
    }
  }

  lemma BudgetRowsAreKeyed(writes: seq<BudgetRow>)
    requires forall r :: r in writes ==> BudgetWrite(r)
    ensures forall r :: r in writes ==> r.policyKey == BudgetKey(BudgetRowId(r).scope, r.featureKey)
    ensures KeyedBy(writes, BudgetRowKey, BudgetRowId)
  {
    hide BudgetKey, ReadBudgetRow;
    forall r | r in writes ensures r.policyKey == BudgetKey(BudgetRowId(r).scope, r.featureKey) {
      var p :| r == BudgetRowOf(p);
    }
    forall i, j | 0 <= i < |writes| && 0 <= j < |writes| && BudgetRowId(writes[i]) == BudgetRowId(writes[j])
      ensures BudgetRowKey(writes[i]) == BudgetRowKey(writes[j])
    {
      assert writes[i] in writes && writes[j] in writes;
    }
  }

  lemma ColonFreeIsNotOverwritten(writes: seq<RoutingRow>, id: PolicyId)
    requires forall r :: r in writes ==> RoutingWrite(r)
    requires ColonFreeScope(id.scope) && Lacks(id.featureKey, ':')
    requires id.taskType.Some? && Lacks(id.taskType.value, ':')
    ensures !Overwritten(writes, RoutingRowKey, RoutingRowId, id)
  {
    hide RoutingKey, Lacks;
    RoutingRowsAreKeyed(writes);
    var n := LastWrite(writes, RoutingRowId, id);
    forall m | 0 <= n < m < |writes| ensures RoutingRowKey(writes[m]) != RoutingRowKey(writes[n]) {
      var r := writes[m];
      assert r in writes && writes[n] in writes;
      RoutingKeyIsInjective(id.scope, id.featureKey, id.taskType.value, RoutingRowId(r).scope, r.featureKey,
                            r.taskType);
    }
  }

  lemma ColonFreeBudgetIsNotOverwritten(writes: seq<BudgetRow>, id: PolicyId)
    requires forall r :: r in writes ==> BudgetWrite(r)
    requires ColonFreeScope(id.scope) && Lacks(id.featureKey, ':') && id.taskType.None?
    ensures !Overwritten(writes, BudgetRowKey, BudgetRowId, id)
  {
    hide BudgetKey, Lacks;
    BudgetRowsAreKeyed(writes);
    var n := LastWrite(writes, BudgetRowId, id);
    forall m | 0 <= n < m < |writes| ensures BudgetRowKey(writes[m]) != BudgetRowKey(writes[n]) {
      var r := writes[m];
      assert r in writes && writes[n] in writes;
      BudgetKeyIsInjective(id.scope, id.featureKey, BudgetRowId(r).scope, r.featureKey);
    }
  }

  /**
   After any history of writes, a request without ':' in its slugs and keys gets the last policy written for its
   workspace, else the last written for its tenant, whatever else was written; and reading it back never fails.
   */
  lemma RoutingLookupIsLastWrite(writes: seq<RoutingRow>, id: PolicyId)
    requires forall r :: r in writes ==> RoutingWrite(r)
    requires ColonFreeScope(id.scope) && Lacks(id.featureKey, ':')
    requires id.taskType.Some? && Lacks(id.taskType.value, ':')
    ensures FindScoped(Written(writes, RoutingRowKey), RoutingRowId, id) == LastScoped(writes, RoutingRowId, id)
  {
    hide Overwritten, Written, RowFor;
    RoutingRowsAreKeyed(writes);
    ColonFreeIsNotOverwritten(writes, id);
    ColonFreeIsNotOverwritten(writes, TenantWide(id));
    FoundUnlessOverwritten(writes, RoutingRowKey, RoutingRowId, id);
    FoundUnlessOverwritten(writes, RoutingRowKey, RoutingRowId, TenantWide(id));
  }

  lemma BudgetLookupIsLastWrite(writes: seq<BudgetRow>, id: PolicyId)
    requires forall r :: r in writes ==> BudgetWrite(r)
    requires ColonFreeScope(id.scope) && Lacks(id.featureKey, ':') && id.taskType.None?
    ensures FindScoped(Written(writes, BudgetRowKey), BudgetRowId, id) == LastScoped(writes, BudgetRowId, id)
  {
    hide Overwritten, Written, RowFor;
    BudgetRowsAreKeyed(writes);
    ColonFreeBudgetIsNotOverwritten(writes, id);
    ColonFreeBudgetIsNotOverwritten(writes, TenantWide(id));
    FoundUnlessOverwritten(writes, BudgetRowKey, BudgetRowId, id);
    FoundUnlessOverwritten(writes, BudgetRowKey, BudgetRowId, TenantWide(id));
  }

  // The month's usage and its pressure.

  datatype UsageEvent = UsageEvent(scope: Scope, actorKey: string, featureKey: string, taskType: string,
                                   totalTokens: nat, actualCost: real, successful: bool, occurredAt: int)

  /** The unique key of an event, with the text of its time at the end. */
  function EventKey(isoText: int -> string, e: UsageEvent): string {
    Colon(Colon(Colon(Colon(Colon("ai-usage", ScopeKey(e.scope)), e.featureKey), e.taskType), e.actorKey),
          isoText(e.occurredAt))
  }

  /** The time at the end of a key can be read off it. */
  ghost predicate Readable(isoText: int -> string) {
    forall x, a, y, b :: Colon(x, isoText(a)) == Colon(y, isoText(b)) ==> a == b
  }

  /** The store refuses an event whose key it has. */
  predicate Taken(isoText: int -> string, events: seq<UsageEvent>, e: UsageEvent) {
    exists i :: 0 <= i < |events| && EventKey(isoText, events[i]) == EventKey(isoText, e)
  }

  function EventParts(e: UsageEvent): seq<string> {
    ["ai-usage"] + ScopeParts(e.scope) + [e.featureKey] + [e.taskType] + [e.actorKey]
  }

  lemma EventKeyIsJoin(isoText: int -> string, e: UsageEvent)
    ensures EventKey(isoText, e) == Join(EventParts(e), ':') + [':'] + isoText(e.occurredAt)
  {
    hide Join, ScopeKey;
    var parts := ["ai-usage"] + ScopeParts(e.scope);
    ScopeKeyIsJoin(e.scope);
    assert parts[1..] == ScopeParts(e.scope);
    JoinFirst("ai-usage", ScopeParts(e.scope), ':');
    JoinPush(parts, e.featureKey, ':');
    JoinPush(parts + [e.featureKey], e.taskType, ':');
    JoinPush(parts + [e.featureKey] + [e.taskType], e.actorKey, ':');
  }

  predicate ColonFreeEvent(e: UsageEvent) {
    ColonFreeScope(e.scope) && Lacks(e.featureKey, ':') && Lacks(e.taskType, ':') && Lacks(e.actorKey, ':')
  }

  /**
   Without ':' in its texts an event shares its key with none at the same time but those of its own scope, feature, task
   and actor.
   */
  lemma EventKeyIsInjective(isoText: int -> string, e: UsageEvent, other: UsageEvent)
    requires ColonFreeEvent(e) && e.occurredAt == other.occurredAt
    ensures EventKey(isoText, e) == EventKey(isoText, other) <==>
            e.scope == other.scope && e.featureKey == other.featureKey && e.taskType == other.taskType
            && e.actorKey == other.actorKey
  {
    hide EventKey, Lacks, Split, Join;
    EventKeyIsJoin(isoText, e);
    EventKeyIsJoin(isoText, other);
    if EventKey(isoText, e) == EventKey(isoText, other) {
      var x, y := Join(EventParts(e), ':'), Join(EventParts(other), ':');
      SameSuffix(x, y, isoText(e.occurredAt));
      EventPartsLackColons(e);
      SplitJoin(EventParts(e), ':');
      PiecesOfJoin(EventParts(other), ':');
      SplitJoin(EventParts(other), ':');
      SameEventParts(e, other);
    }
  }

  lemma SameSuffix(x: string, y: string, end: string)
    requires x + [':'] + end == y + [':'] + end
    ensures x == y
  {
    assert |x| == |y|;
    assert x == (x + [':'] + end)[..|x|] && y == (y + [':'] + end)[..|y|];
  }

  lemma EventPartsLackColons(e: UsageEvent)
    requires ColonFreeEvent(e)
    ensures forall i :: 0 <= i < |EventParts(e)| ==> Lacks(EventParts(e)[i], ':')
  {
    hide Lacks;
    FixedPartsLackColons();
    assert Lacks("ai-usage", ':') by {
      LacksColon();
    }
  }

  lemma LacksColon()
    ensures Lacks("ai-usage", ':')
  {
  }

  lemma SameEventParts(e: UsageEvent, other: UsageEvent)
    requires EventParts(e) == EventParts(other)
    ensures e.scope == other.scope && e.featureKey == other.featureKey && e.taskType == other.taskType
            && e.actorKey == other.actorKey
  {
    var a, b := EventParts(e), EventParts(other);
    assert a[1] == b[1] && a[2] == b[2] && a[3] == b[3] && a[4] == b[4] && a[5] == b[5] && a[6] == b[6];
    FixedPartsLackColons();
  }

  /** A refused event happened at the very time of one that was stored. */
  lemma TakenAtTheSameTime(isoText: int -> string, events: seq<UsageEvent>, e: UsageEvent)
    requires Readable(isoText) && Taken(isoText, events, e)
    ensures exists i :: 0 <= i < |events| && events[i].occurredAt == e.occurredAt
  {
    var i :| 0 <= i < |events| && EventKey(isoText, events[i]) == EventKey(isoText, e);
  }

  ghost predicate DistinctEvents(isoText: int -> string, events: seq<UsageEvent>) {
    forall i, j :: 0 <= i < j < |events| ==> EventKey(isoText, events[i]) != EventKey(isoText, events[j])
  }

  /** The event counts towards the usage of the scope and feature since the given time. */
  predicate Counted(e: UsageEvent, scope: Scope, featureKey: string, since: int) {
    && e.scope.tenantSlug == scope.tenantSlug
    && (scope.workspaceSlug.Some? ==> e.scope.workspaceSlug == scope.workspaceSlug)
    && e.featureKey == featureKey && e.successful && e.occurredAt >= since
  }

  function UsedTokens(events: seq<UsageEvent>, scope: Scope, featureKey: string, since: int): nat {
    if events == [] then 0
    else
      var last := events[|events| - 1];
      UsedTokens(events[..|events| - 1], scope, featureKey, since)
      + if Counted(last, scope, featureKey, since) then last.totalTokens else 0
  }

  lemma UsedTokensPush(events: seq<UsageEvent>, e: UsageEvent, scope: Scope, featureKey: string, since: int)
    ensures UsedTokens(events + [e], scope, featureKey, since) ==
            UsedTokens(events, scope, featureKey, since)
            + if && e.successful && since <= e.occurredAt && e.featureKey == featureKey
                 && e.scope.tenantSlug == scope.tenantSlug
                 && (scope.workspaceSlug.None? || e.scope.workspaceSlug == scope.workspaceSlug)
              then e.totalTokens else 0
  {
    assert (events + [e])[..|events|] == events;
  }

  /** A later start counts no more. */
  lemma {:induction false} UsedTokensRollOver(events: seq<UsageEvent>, scope: Scope, featureKey: string, since: int,
                                              later: int)
    requires since <= later
    ensures UsedTokens(events, scope, featureKey, later) <= UsedTokens(events, scope, featureKey, since)
  {
    if events != [] {
      UsedTokensRollOver(events[..|events| - 1], scope, featureKey, since, later);
    }
  }

  function PressureOf(budget: BudgetPolicy, total: nat): Pressure {
    if budget.hardMonthlyTokenLimit > 0 && total >= budget.hardMonthlyTokenLimit then HardLimit
    else if budget.monthlyTokenBudget > 0 && total as real >= budget.monthlyTokenBudget as real * 0.85 then NearLimit
    else NormalPressure
  }

  datatype PressureReport = PressureReport(budget: BudgetPolicy, usedTokens: nat, projectedTokens: nat,
                                           projectedCost: real, pressure: Pressure, blocked: bool, costApproval: bool)

  function ReportFor(budget: BudgetPolicy, usedTokens: nat, projectedTokens: nat, projectedCost: real): PressureReport {
    var pressure := PressureOf(budget, usedTokens + projectedTokens);
    PressureReport(budget, usedTokens, projectedTokens, projectedCost, pressure,
                   pressure == HardLimit && budget.blockOnHardLimit,
                   budget.requireApprovalAtProjectedCost > 0.0
                   && projectedCost >= budget.requireApprovalAtProjectedCost)
  }

  // The decision.

  datatype GatewayRequest = GatewayRequest(tenantSlug: Option<string>, workspaceSlug: Option<string>,
                                           featureKey: Option<string>, taskType: Option<string>,
                                           requestedLane: Option<Lane>, preferredCredentialMode: Option<CredentialMode>,
                                           projectedTokens: Number, projectedCost: Number,
                                           deterministicEligible: bool, cacheHitAvailable: bool, occurredAt: int)

  datatype ApprovalReason = LaneAbove(lane: Lane, limit: Lane) | CostReached(at: real)
  datatype Downgrade = Downgrade(pressure: Pressure, from: Lane, to: Lane)
  datatype Outcome = Blocked | ApprovalRequired | Downgraded | Allowed

  datatype GatewayDecision = GatewayDecision(scope: Scope, featureKey: string, taskType: string, requestedLane: Lane,
                                             selectedLane: Option<Lane>, credentialMode: CredentialMode,
                                             pressure: Pressure, approval: Option<ApprovalReason>, blocked: bool,
                                             downgrade: Option<Downgrade>)
  {
    predicate CanDispatch() { !blocked }
    predicate CanAutoDispatch() { !blocked && approval.None? }

    function Outcome(): Outcome {
      if blocked then Blocked
      else if approval.Some? then ApprovalRequired
      else if downgrade.Some? then Downgraded
      else Allowed
    }
  }

  function RequestedLane(routing: RoutingPolicy, req: GatewayRequest): Lane {
    if req.requestedLane.Some? then req.requestedLane.value
    else if req.deterministicEligible then Deterministic
    else if req.cacheHitAvailable then ArtifactCache
    else routing.defaultLane
  }

  function CappedLane(routing: RoutingPolicy, req: GatewayRequest): Lane {
    var lane := RequestedLane(routing, req);
    if LaneRank(lane) > LaneRank(routing.maxLane) then routing.maxLane else lane
  }

  /** The free lanes a request may take instead of a model. */
  function Shortcut(routing: RoutingPolicy, req: GatewayRequest): Option<Lane> {
    if req.deterministicEligible && routing.deterministicFirst then Some(Deterministic)
    else if req.cacheHitAvailable && routing.cacheEnabled then Some(ArtifactCache)
    else None
  }

  function SelectedLane(routing: RoutingPolicy, report: PressureReport, req: GatewayRequest): Option<Lane> {
    if report.blocked then None
    else if Shortcut(routing, req).Some? then Shortcut(routing, req)
    else if report.pressure == routing.downgradeAt then Some(LowerLane(CappedLane(routing, req)))
    else Some(CappedLane(routing, req))
  }

  function CredentialModeFor(routing: RoutingPolicy, req: GatewayRequest): CredentialMode {
    var mode := req.preferredCredentialMode.GetOr(routing.preferredCredentialMode);
    if mode == Byo && !routing.allowByoKeys then Managed else mode
  }

  function ApprovalFor(routing: RoutingPolicy, report: PressureReport, selected: Option<Lane>): Option<ApprovalReason> {
    var limit := routing.requireApprovalAboveLane;
    if selected.Some? && limit.Some? && LaneRank(selected.value) > LaneRank(limit.value) then
      Some(LaneAbove(selected.value, limit.value))
    else if report.costApproval then Some(CostReached(report.budget.requireApprovalAtProjectedCost))
    else None
  }

  function Decide(routing: RoutingPolicy, report: PressureReport, req: GatewayRequest): GatewayDecision {
    var capped := CappedLane(routing, req);
    var selected := SelectedLane(routing, report, req);
    GatewayDecision(routing.scope, routing.featureKey, routing.taskType, RequestedLane(routing, req), selected,
                    CredentialModeFor(routing, req), report.pressure, ApprovalFor(routing, report, selected),
                    report.blocked,
                    if selected.Some? && selected.value != capped
                    then Some(Downgrade(report.pressure, capped, selected.value)) else None)
  }

  /** An unblocked decision selects a lane, and never one above the policy's maximum. */
  lemma SelectedLaneIsCapped(routing: RoutingPolicy, report: PressureReport, req: GatewayRequest)
    ensures var r := Decide(routing, report, req);
            && (r.selectedLane.None? <==> r.blocked)
            && (r.selectedLane.Some? ==> LaneRank(r.selectedLane.value) <= LaneRank(routing.maxLane))
            && (r.selectedLane.Some? ==> LaneRank(r.selectedLane.value) <= LaneRank(CappedLane(routing, req)))
            && (r.credentialMode == Byo ==> routing.allowByoKeys)
  {
  }

  /** What a request asks for, apart from whom it concerns. */
  datatype Wish = Wish(lane: Option<Lane>, mode: Option<CredentialMode>, deterministic: bool, cacheHit: bool)

  /** The lane a request wants: its own, else a free one it is eligible for, else the default of the policy. */
  predicate Wants(lane: Lane, wish: Wish, routing: RoutingPolicy) {
    && (wish.lane.Some? ==> lane == wish.lane.value)
    && (wish.lane.None? && wish.deterministic ==> lane == Deterministic)
    && (wish.lane.None? && !wish.deterministic && wish.cacheHit ==> lane == ArtifactCache)
    && (wish.lane.None? && !wish.deterministic && !wish.cacheHit ==> lane == routing.defaultLane)
  }

  /** The lane an unblocked decision selects, given the one wanted. */
  predicate Selects(lane: Lane, wanted: Lane, wish: Wish, routing: RoutingPolicy, pressure: Pressure) {
    var capped := if Dearer(wanted, routing.maxLane) then routing.maxLane else wanted;
    if wish.deterministic && routing.deterministicFirst then lane == Deterministic
    else if wish.cacheHit && routing.cacheEnabled then lane == ArtifactCache
    else if pressure == routing.downgradeAt && capped == PremiumModel then lane == BalancedModel
    else if pressure == routing.downgradeAt && capped == BalancedModel then lane == CheapModel
    else lane == capped
  }

  /** How a month stands after the projected tokens. */
  predicate Stands(pressure: Pressure, budget: BudgetPolicy, total: nat) {
    && (pressure == HardLimit <==> budget.hardMonthlyTokenLimit > 0 && total >= budget.hardMonthlyTokenLimit)
    && (pressure == NearLimit <==>
          && pressure != HardLimit && budget.monthlyTokenBudget > 0
          && 100 * total >= 85 * budget.monthlyTokenBudget)
  }

  /** Every field of a decision, from the policies, the month's usage, and what the request asks for and projects. */
  ghost predicate Follows(d: GatewayDecision, routing: RoutingPolicy, budget: BudgetPolicy, used: nat, tokens: nat,
                          cost: real, wish: Wish)
  {
    && d.scope == routing.scope && d.featureKey == routing.featureKey && d.taskType == routing.taskType
    && Stands(d.pressure, budget, used + tokens)
    && (d.blocked <==> d.pressure == HardLimit && budget.blockOnHardLimit)
    && Wants(d.requestedLane, wish, routing)
    && (d.selectedLane.Some? <==> !d.blocked)
    && (!d.blocked ==> Selects(d.selectedLane.value, d.requestedLane, wish, routing, d.pressure))
    && (d.credentialMode == Byo <==>
          && routing.allowByoKeys
          && (wish.mode == Some(Byo) || (wish.mode == None && routing.preferredCredentialMode == Byo)))
    && Approves(d, routing, budget, cost) && Reports(d, routing)
  }

  /** An approval is needed above the lane of the policy, and else from the cost of the budget on. */
  ghost predicate Approves(d: GatewayDecision, routing: RoutingPolicy, budget: BudgetPolicy, cost: real) {
    var limit := routing.requireApprovalAboveLane;
    if d.selectedLane.Some? && limit.Some? && Dearer(d.selectedLane.value, limit.value) then
      d.approval == Some(LaneAbove(d.selectedLane.value, limit.value))
    else if 0.0 < budget.requireApprovalAtProjectedCost <= cost then
      d.approval == Some(CostReached(budget.requireApprovalAtProjectedCost))
    else d.approval == None
  }

  /** A change from the capped lane is reported as due to pressure. */
  ghost predicate Reports(d: GatewayDecision, routing: RoutingPolicy) {
    var capped := if Dearer(d.requestedLane, routing.maxLane) then routing.maxLane else d.requestedLane;
    if d.selectedLane.Some? && d.selectedLane.value != capped then
      d.downgrade == Some(Downgrade(d.pressure, capped, d.selectedLane.value))
    else d.downgrade == None
  }

  lemma DecideFollows(routing: RoutingPolicy, budget: BudgetPolicy, used: nat, tokens: nat, cost: real,
                      req: GatewayRequest)
    ensures Follows(Decide(routing, ReportFor(budget, used, tokens, cost), req), routing, budget, used, tokens, cost,
                    Wish(req.requestedLane, req.preferredCredentialMode, req.deterministicEligible,
                         req.cacheHitAvailable))
  {
    hide LaneRank;
    PressureStands(budget, used + tokens);
    forall a, b ensures LaneRank(a) > LaneRank(b) <==> Dearer(a, b) {
      RankIsCost(a, b);
    }
  }

  lemma PressureStands(budget: BudgetPolicy, total: nat)
    ensures Stands(PressureOf(budget, total), budget, total)
  {
    RealOrder(85 * budget.monthlyTokenBudget, 100 * total);
  }

  /**
   The decision on a request, from the effective policies of its scope, feature and task, the usage of its month and
   what it projects.
   */
  lemma DecisionFollows(routingRows: seq<RoutingRow>, budgetRows: seq<BudgetRow>, events: seq<UsageEvent>,
                        startOfMonth: int -> int, req: GatewayRequest)
    requires DecisionFor(routingRows, budgetRows, events, startOfMonth, req).Success?
    ensures var d := DecisionFor(routingRows, budgetRows, events, startOfMonth, req).value;
            var feature, task := NormalKey(req.featureKey, "general"), NormalKey(req.taskType, "general");
            exists scope, routing, budget ::
              && ResolveScope(req.tenantSlug, req.workspaceSlug) == Success(scope)
              && EffectiveRouting(routingRows, PolicyId(scope, feature, Some(task))) == Success(routing)
              && EffectiveBudget(budgetRows, PolicyId(scope, feature, None)) == Success(budget)
              && Follows(d, routing, budget, UsedTokens(events, scope, feature, startOfMonth(req.occurredAt)),
                         NonNegativeInteger(req.projectedTokens), NonNegativeNumber(req.projectedCost),
                         Wish(req.requestedLane, req.preferredCredentialMode, req.deterministicEligible,
                              req.cacheHitAvailable))
  {
    hide NormalKey, EffectiveRouting, EffectiveBudget, ResolveScope, ReportFor, UsedTokens, Follows, Decide;
    var scope := ResolveScope(req.tenantSlug, req.workspaceSlug).value;
    var feature, task := NormalKey(req.featureKey, "general"), NormalKey(req.taskType, "general");
    var routing := EffectiveRouting(routingRows, PolicyId(scope, feature, Some(task))).value;
    var budget := EffectiveBudget(budgetRows, PolicyId(scope, feature, None)).value;
    DecideFollows(routing, budget, UsedTokens(events, scope, feature, startOfMonth(req.occurredAt)),
                  NonNegativeInteger(req.projectedTokens), NonNegativeNumber(req.projectedCost), req);
  }

  /** The outcome names the gravest thing about a decision. */
  lemma OutcomeIs(d: GatewayDecision)
    ensures d.Outcome() == Blocked <==> !d.CanDispatch()
    ensures d.Outcome() == ApprovalRequired <==> d.CanDispatch() && !d.CanAutoDispatch()
    ensures d.Outcome() == Downgraded <==> d.CanAutoDispatch() && d.downgrade.Some?
    ensures d.Outcome() == Allowed <==> d.CanAutoDispatch() && d.downgrade.None?
    ensures d.CanDispatch() <==> !d.blocked
    ensures d.CanAutoDispatch() <==> !d.blocked && d.approval.None?
  {
  }

  /** Automatic dispatch stays below the approval lane and the approval cost, and happens whenever both allow it. */
  lemma AutoDispatchIff(routing: RoutingPolicy, report: PressureReport, req: GatewayRequest)
    ensures var r := Decide(routing, report, req);
            r.CanAutoDispatch() <==>
              && r.CanDispatch() && !report.costApproval
              && (routing.requireApprovalAboveLane.Some? ==>
                    LaneRank(r.selectedLane.value) <= LaneRank(routing.requireApprovalAboveLane.value))
  {
    SelectedLaneIsCapped(routing, report, req);
  }

  /** A policy built without its own approval lane never sends anything to the premium lane by itself. */
  lemma PremiumNeedsApprovalByDefault(input: RoutingInput, report: PressureReport, req: GatewayRequest)
    requires BuildRoutingPolicy(input).Success? && input.requireApprovalAboveLane.None?
    ensures var r := Decide(BuildRoutingPolicy(input).value, report, req);
            r.CanAutoDispatch() ==> LaneRank(r.selectedLane.value) <= LaneRank(BalancedModel)
  {
    var routing := BuildRoutingPolicy(input).value;
    SelectedLaneIsCapped(routing, report, req);
    AutoDispatchIff(routing, report, req);
  }

  function PressureRank(p: Pressure): nat {
    match p
    case NormalPressure => 0
    case NearLimit => 1
    case HardLimit => 2
  }

  lemma RealOrder(a: int, b: int)
    ensures a <= b <==> a as real <= b as real
  {
  }

  /** Pressure and blocking never fall as used or projected tokens grow. */
  lemma PressureIsMonotone(budget: BudgetPolicy, used: nat, projected: nat, used': nat, projected': nat, cost: real,
                           cost': real)
    requires used <= used' && projected <= projected' && cost <= cost'
    ensures var r, r' := ReportFor(budget, used, projected, cost), ReportFor(budget, used', projected', cost');
            && PressureRank(r.pressure) <= PressureRank(r'.pressure)
            && (r.blocked ==> r'.blocked)
            && (r.costApproval ==> r'.costApproval)
  {
    RealOrder(used + projected, used' + projected');
  }

  /** More projected tokens in the request are more projected tokens after normalising. */
  lemma ProjectionIsMonotone(a: Number, b: Number)
    requires a.Finite? && b.Finite? && a.value <= b.value
    ensures NonNegativeInteger(a) <= NonNegativeInteger(b)
  {
  }

  /** A built budget never reaches its hard limit before its near-limit threshold. */
  lemma HardLimitImpliesNearLimit(input: BudgetInput, total: nat)
    requires BuildBudgetPolicy(input).Success?
    ensures var b := BuildBudgetPolicy(input).value;
            PressureOf(b, total) == HardLimit && b.monthlyTokenBudget > 0 ==>
            total as real >= b.monthlyTokenBudget as real * 0.85
  {
    var b := BuildBudgetPolicy(input).value;
    RealOrder(b.monthlyTokenBudget, total);
  }

  /** The near-limit stage exists exactly when some whole number of tokens lies between its threshold and the limit. */
  lemma NearLimitStageExistsIff(budget: BudgetPolicy)
    ensures (exists total: nat :: PressureOf(budget, total) == NearLimit) <==>
            budget.monthlyTokenBudget > 0
            && (budget.hardMonthlyTokenLimit > 0 ==>
                  (budget.hardMonthlyTokenLimit - 1) as real >= budget.monthlyTokenBudget as real * 0.85)
  {
    if total: nat :| PressureOf(budget, total) == NearLimit {
      if budget.hardMonthlyTokenLimit > 0 {
        RealOrder(total, budget.hardMonthlyTokenLimit - 1);
      }
    }
    if budget.monthlyTokenBudget > 0 {
      if budget.hardMonthlyTokenLimit == 0 {
        assert PressureOf(budget, budget.monthlyTokenBudget) == NearLimit;
      } else if (budget.hardMonthlyTokenLimit - 1) as real >= budget.monthlyTokenBudget as real * 0.85 {
        assert PressureOf(budget, budget.hardMonthlyTokenLimit - 1) == NearLimit;
      }
    }
  }

  /**
   When a downgrade is reported. Only the second case is due to quota pressure; the first is a free lane that the
   report nevertheless blames on pressure.
   */
  lemma DowngradeReportedIff(routing: RoutingPolicy, report: PressureReport, req: GatewayRequest)
    ensures var r := Decide(routing, report, req); var capped := CappedLane(routing, req);
            r.downgrade.Some? <==>
              && !report.blocked
              && if Shortcut(routing, req).Some? then Shortcut(routing, req).value != capped
                 else report.pressure == routing.downgradeAt && LaneRank(capped) >= 2
  {
  }

  // The service.

  lemma BuiltRowIsRoutingWrite(input: RoutingInput)
    requires BuildRoutingPolicy(input).Success?
    ensures RoutingWrite(RoutingRowOf(BuildRoutingPolicy(input).value))
  {
    hide BuildRoutingPolicy, RoutingRowOf, ReadRoutingRow;
    RoutingPolicyRoundTrip(input);
  }

  lemma BuiltRowIsBudgetWrite(input: BudgetInput)
    requires BuildBudgetPolicy(input).Success?
    ensures BudgetWrite(BudgetRowOf(BuildBudgetPolicy(input).value))
  {
    hide BuildBudgetPolicy, BudgetRowOf, ReadBudgetRow;
    BudgetPolicyRoundTrip(input);
  }

  datatype UsageInput = UsageInput(tenantSlug: Option<string>, workspaceSlug: Option<string>,
                                   actorKey: Option<string>, featureKey: Option<string>, taskType: Option<string>,
                                   inputTokens: Number, outputTokens: Number, actualCost: Number, successful: bool,
                                   occurredAt: int)

  function BuildUsageEvent(input: UsageInput): Result<UsageEvent, PolicyError> {
    var scope := ResolveScope(input.tenantSlug, input.workspaceSlug);
    if scope.Failure? then Failure(scope.error)
    else Success(UsageEvent(scope.value, NormalKey(input.actorKey, "system"), NormalKey(input.featureKey, "general"),
                            NormalKey(input.taskType, "general"),
                            NonNegativeInteger(input.inputTokens) + NonNegativeInteger(input.outputTokens),
                            NonNegativeNumber(input.actualCost), input.successful, input.occurredAt))
  }

  /** A usage event is refused for want of a tenant alone; its tokens are the sum of the two whole counts. */
  lemma BuiltUsageIs(input: UsageInput)
    ensures BuildUsageEvent(input) == Failure(MissingTenantSlug) <==> Slug(input.tenantSlug) == ""
    ensures Slug(input.tenantSlug) != "" ==>
              BuildUsageEvent(input).Success? &&
              var e := BuildUsageEvent(input).value;
              && e.scope.tenantSlug == Slug(input.tenantSlug)
              && (e.scope.workspaceSlug ==
                  if Slug(input.workspaceSlug) == "" then None else Some(Slug(input.workspaceSlug)))
              && e.actorKey == NormalKey(input.actorKey, "system")
              && e.featureKey == NormalKey(input.featureKey, "general")
              && e.taskType == NormalKey(input.taskType, "general")
              && e.totalTokens == NonNegativeInteger(input.inputTokens) + NonNegativeInteger(input.outputTokens)
              && e.actualCost >= 0.0 && e.successful == input.successful && e.occurredAt == input.occurredAt
              && (input.actualCost.Finite? && input.actualCost.value >= 0.0 ==> e.actualCost == input.actualCost.value)
              && (!input.actualCost.Finite? || input.actualCost.value < 0.0 ==> e.actualCost == 0.0)
  {
    hide Slug, NormalKey, NonNegativeInteger;
  }

  /** The decision on a request, given the tables, the ledger and the start of the month of a time. */
  function DecisionFor(routingRows: seq<RoutingRow>, budgetRows: seq<BudgetRow>, events: seq<UsageEvent>,
                       startOfMonth: int -> int, req: GatewayRequest): Result<GatewayDecision, PolicyError> {
    var scope := ResolveScope(req.tenantSlug, req.workspaceSlug);
    if scope.Failure? then Failure(scope.error)
    else
      var featureKey := NormalKey(req.featureKey, "general");
      var taskType := NormalKey(req.taskType, "general");
      var routing := EffectiveRouting(routingRows, PolicyId(scope.value, featureKey, Some(taskType)));
      var budget := EffectiveBudget(budgetRows, PolicyId(scope.value, featureKey, None));
      if routing.Failure? then Failure(routing.error)
      else if budget.Failure? then Failure(budget.error)
      else Success(Decide(routing.value,
                          ReportFor(budget.value,
                                    UsedTokens(events, scope.value, featureKey, startOfMonth(req.occurredAt)),
                                    NonNegativeInteger(req.projectedTokens), NonNegativeNumber(req.projectedCost)),
                          req))
  }

  /** The policy in force for a feature and task names that feature and task, whichever row decided. */
  lemma EffectiveRoutingNames(rows: seq<RoutingRow>, id: PolicyId, taskType: string)
    requires EffectiveRouting(rows, id).Success? && id.taskType == Some(taskType)
    requires NormalKey(Some(id.featureKey), "general") == id.featureKey
    requires NormalKey(Some(taskType), "general") == taskType
    ensures var p := EffectiveRouting(rows, id).value; p.featureKey == id.featureKey && p.taskType == taskType
  {
    hide NormalKey, RowFor, ResolveScope, LaneRank, ReadLane, ReadMode, ReadPressure;
    var row := FindScoped(rows, RoutingRowId, id);
    if row.Some? {
      assert RoutingRowId(row.value).featureKey == id.featureKey && row.value.taskType == taskType by {
        FoundRowMatches(rows, RoutingRowId, id);
      }
    }
  }

  lemma FoundRowMatches<R>(rows: seq<R>, id: R -> PolicyId, wanted: PolicyId)
    requires FindScoped(rows, id, wanted).Some?
    ensures var found := id(FindScoped(rows, id, wanted).value);
            found == wanted || found == TenantWide(wanted)
  {
  }

  /** The decision carries the normalised feature and task of its request. */
  lemma DecisionNamesTheRequest(routingRows: seq<RoutingRow>, budgetRows: seq<BudgetRow>, events: seq<UsageEvent>,
                                startOfMonth: int -> int, req: GatewayRequest)
    requires DecisionFor(routingRows, budgetRows, events, startOfMonth, req).Success?
    ensures var d := DecisionFor(routingRows, budgetRows, events, startOfMonth, req).value;
            && d.featureKey == NormalKey(req.featureKey, "general")
            && d.taskType == NormalKey(req.taskType, "general")
  {
    hide NormalKey, EffectiveRouting, EffectiveBudget, ResolveScope, ReportFor, UsedTokens;
    FallbacksAreFixed();
    KeyIsFixed(req.featureKey, "general");
    KeyIsFixed(req.taskType, "general");
    var scope := ResolveScope(req.tenantSlug, req.workspaceSlug).value;
    var featureKey, taskType := NormalKey(req.featureKey, "general"), NormalKey(req.taskType, "general");
    EffectiveRoutingNames(routingRows, PolicyId(scope, featureKey, Some(taskType)), taskType);
  }

  class AiGovernance {
    var routingRows: seq<RoutingRow>
    var budgetRows: seq<BudgetRow>
    var events: seq<UsageEvent>
    ghost var routingWrites: seq<RoutingRow>
    ghost var budgetWrites: seq<BudgetRow>
    const startOfMonth: int -> int
    const isoText: int -> string

    /** The tables are what the writes left, every write can be read back, and no two events share a key. */
    ghost predicate Valid()
      reads this
    {
      && routingRows == Written(routingWrites, RoutingRowKey)
      && budgetRows == Written(budgetWrites, BudgetRowKey)
      && (forall r :: r in routingWrites ==> RoutingWrite(r))
      && (forall r :: r in budgetWrites ==> BudgetWrite(r))
      && DistinctEvents(isoText, events)
    }

    constructor (startOfMonth: int -> int, isoText: int -> string)
      ensures Valid() && routingWrites == [] && budgetWrites == [] && events == []
      ensures this.startOfMonth == startOfMonth && this.isoText == isoText
    {
      this.startOfMonth, this.isoText := startOfMonth, isoText;
      routingRows, budgetRows, events, routingWrites, budgetWrites := [], [], [], [], [];
    }

    method PersistRoutingPolicy(input: RoutingInput) returns (r: Result<RoutingPolicy, PolicyError>)
      requires Valid()
      modifies this`routingRows, this`routingWrites
      ensures Valid() && r == BuildRoutingPolicy(input)
      ensures routingWrites == old(routingWrites) + if r.Success? then [RoutingRowOf(r.value)] else []
    {
      hide BuildRoutingPolicy, RoutingRowOf, RoutingWrite, Written, Filter;
      r := BuildRoutingPolicy(input);
      if r.Success? {
        var row := RoutingRowOf(r.value);
        BuiltRowIsRoutingWrite(input);
        WrittenPush(routingWrites, row, RoutingRowKey);
        routingRows := Upsert(routingRows, row, RoutingRowKey);
        routingWrites := routingWrites + [row];
      }
    }

    method PersistBudgetPolicy(input: BudgetInput) returns (r: Result<BudgetPolicy, PolicyError>)
      requires Valid()
      modifies this`budgetRows, this`budgetWrites
      ensures Valid() && r == BuildBudgetPolicy(input)
      ensures budgetWrites == old(budgetWrites) + if r.Success? then [BudgetRowOf(r.value)] else []
    {
      hide BuildBudgetPolicy, BudgetRowOf, BudgetWrite, Written, Filter;
      r := BuildBudgetPolicy(input);
      if r.Success? {
        var row := BudgetRowOf(r.value);
        BuiltRowIsBudgetWrite(input);
        WrittenPush(budgetWrites, row, BudgetRowKey);
        budgetRows := Upsert(budgetRows, row, BudgetRowKey);
        budgetWrites := budgetWrites + [row];
      }
    }

    /** Appends to the ledger, unless the record is refused, its key is taken or the write fails. */
    method PersistUsageEvent(input: UsageInput, writeSucceeds: bool) returns (recorded: Option<UsageEvent>)
      requires Valid()
      modifies this`events
      ensures Valid()
      ensures var built := BuildUsageEvent(input);
              recorded == if built.Success? && writeSucceeds && !Taken(isoText, old(events), built.value)
                          then Some(built.value) else None
      ensures events == old(events) + if recorded.Some? then [recorded.value] else []
    {
      hide BuildUsageEvent, EventKey, RoutingWrite, BudgetWrite, Written;
      var built := BuildUsageEvent(input);
      if built.Success? && writeSucceeds && !Taken(isoText, events, built.value) {
        events := events + [built.value];
        recorded := Some(built.value);
      } else {
        recorded := None;
      }
    }

    /** The decision fails only for want of a tenant slug: no stored policy can make it throw. */
    method BuildGatewayDecision(req: GatewayRequest) returns (r: Result<GatewayDecision, PolicyError>)
      requires Valid()
      ensures r == DecisionFor(routingRows, budgetRows, events, startOfMonth, req)
      ensures r.Failure? <==> Slug(req.tenantSlug) == ""
      ensures r.Failure? ==> r.error == MissingTenantSlug
    {
      var scope := ResolveScope(req.tenantSlug, req.workspaceSlug);
      if scope.Failure? {
        return Failure(scope.error);
      }
      var featureKey := NormalKey(req.featureKey, "general");
      var taskType := NormalKey(req.taskType, "general");
      var routing := EffectiveRouting(routingRows, PolicyId(scope.value, featureKey, Some(taskType)));
      var budget := EffectiveBudget(budgetRows, PolicyId(scope.value, featureKey, None));
      PoliciesAreReadable(req, scope.value);
      var used := UsedTokens(events, scope.value, featureKey, startOfMonth(req.occurredAt));
      var report := ReportFor(budget.value, used, NonNegativeInteger(req.projectedTokens),
                              NonNegativeNumber(req.projectedCost));
      r := Success(Decide(routing.value, report, req));
    }

    lemma PoliciesAreReadable(req: GatewayRequest, scope: Scope)
      requires Valid() && ResolveScope(req.tenantSlug, req.workspaceSlug) == Success(scope)
      ensures EffectiveRouting(routingRows, PolicyId(scope, NormalKey(req.featureKey, "general"),
                                                     Some(NormalKey(req.taskType, "general")))).Success?
      ensures EffectiveBudget(budgetRows, PolicyId(scope, NormalKey(req.featureKey, "general"), None)).Success?
    {
      hide Slug, ReadRoutingRow, ReadBudgetRow, Written;
      ScopeIsFixed(req.tenantSlug, req.workspaceSlug);
      WrittenKeysAreDistinct(routingWrites, RoutingRowKey);
      WrittenKeysAreDistinct(budgetWrites, BudgetRowKey);
    }
  }
}
