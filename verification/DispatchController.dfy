/**
 The dispatch endpoint: ask the gateway, stop if it blocks or holds, dispatch the run, then record the usage, each as
 its own effect. The four can end in five ways, and each leaves its own trace in the runtime and the ledger.
 */
module DispatchController {
  import opened Wrappers
  import opened Contracts
  import opened Policy
  import Topology
  import History
  import Runtime
  import Plans
  import Governance
  import Ledger

  datatype DispatchRequest = DispatchRequest(runKey: Topology.Key, tenantSlug: Option<string>,
                                             workspaceSlug: Option<string>, actorKey: Option<string>,
                                             featureKey: Option<string>, taskType: Option<string>,
                                             requestedLane: Option<Lane>,
                                             preferredCredentialMode: Option<CredentialMode>,
                                             projectedTokens: Number, projectedCost: Number,
                                             deterministicEligible: bool, cacheHitAvailable: bool,
                                             inputTokens: Number, outputTokens: Number, actualCost: Number,
                                             approved: bool)

  datatype OutcomeKind = OutcomeBlocked | OutcomeHeld | OutcomeAutoDispatched | OutcomeApprovedResumed

  datatype OutcomeEvent = OutcomeEvent(runKey: Topology.Key, kind: OutcomeKind, at: int)

  datatype Answer =
    | GovernanceFailed(error: PolicyError)
    | BlockedByGovernance(decision: Governance.GatewayDecision)
    | HeldForApproval(decision: Governance.GatewayDecision)
    | DispatchRefused(refusal: Runtime.Refusal)
    | DispatchedUnrecorded(snapshot: History.Snapshot)
    | DispatchRecorded(snapshot: History.Snapshot, usage: Governance.UsageEvent)
  {
    /** The request ended before the runtime was asked. */
    predicate Stopped() { GovernanceFailed? || BlockedByGovernance? || HeldForApproval? }
  }

  function GatewayRequestOf(req: DispatchRequest, now: int): Governance.GatewayRequest {
    Governance.GatewayRequest(req.tenantSlug, req.workspaceSlug,
                              Some(req.featureKey.GetOr("orchestration-runtime")),
                              Some(req.taskType.GetOr("dispatch-run")), req.requestedLane, req.preferredCredentialMode,
                              req.projectedTokens, req.projectedCost, req.deterministicEligible, req.cacheHitAvailable,
                              now)
  }

  /**
   The usage a dispatched request reports, under the feature and task of its decision: its own input tokens if it gives
   any, else the projected ones.
   */
  function UsageInputOf(req: DispatchRequest, decision: Governance.GatewayDecision, at: int): Governance.UsageInput {
    Governance.UsageInput(req.tenantSlug, req.workspaceSlug, req.actorKey, Some(decision.featureKey),
                          Some(decision.taskType),
                          if req.inputTokens.Missing? then req.projectedTokens else req.inputTokens,
                          req.outputTokens, req.actualCost, true, at)
  }

  /** The call that a request makes of the ledger. */
  function CallOf(req: DispatchRequest): Ledger.Call
    requires ResolveScope(req.tenantSlug, req.workspaceSlug).Success?
  {
    Ledger.Call(ResolveScope(req.tenantSlug, req.workspaceSlug).value, NormalKey(req.actorKey, "system"),
                NormalKey(Some(req.featureKey.GetOr("orchestration-runtime")), "general"),
                NormalKey(Some(req.taskType.GetOr("dispatch-run")), "general"), NonNegativeInteger(req.projectedTokens))
  }

  /** What the request does to the ledger, with its own call at the given place among the calls in flight. */
  function LedgerSteps(req: DispatchRequest, answer: Answer, now: int, recordedAt: int, i: nat): seq<Ledger.Step>
    requires ResolveScope(req.tenantSlug, req.workspaceSlug).Success?
  {
    var ask := Ledger.Ask(now, CallOf(req), NonNegativeNumber(req.projectedCost));
    match answer
    case GovernanceFailed(_) => []
    case BlockedByGovernance(_) => [ask]
    case DispatchRecorded(_, usage) => [ask, Ledger.Record(recordedAt, i, usage.totalTokens, usage.actualCost)]
    case _ => [ask, Ledger.Abandon(recordedAt, i)]
  }

  /** The rules of the ledger are those of the stored budgets. */
  ghost predicate RulesOf(rules: Ledger.Rules, budgetRows: seq<BudgetRow>, startOfMonth: int -> int,
                          isoText: int -> string)
  {
    && rules.startOfMonth == startOfMonth && rules.isoText == isoText
    && forall scope, featureKey ::
         Governance.EffectiveBudget(budgetRows, PolicyId(scope, featureKey, None)).Success? ==>
         rules.budget(scope, featureKey) ==
         Governance.EffectiveBudget(budgetRows, PolicyId(scope, featureKey, None)).value
  }

  /** A decision that needs an approval the request does not carry. */
  predicate Held(decision: Governance.GatewayDecision, req: DispatchRequest) {
    decision.approval.Some? && !req.approved
  }

  /** How the request ends before the runtime is asked: exactly when the decision fails, blocks or holds it. */
  predicate Ending(req: DispatchRequest, decided: Result<Governance.GatewayDecision, PolicyError>, answer: Answer) {
    && (answer.GovernanceFailed? <==> decided.Failure?)
    && (answer.BlockedByGovernance? <==> decided.Success? && decided.value.blocked)
    && (answer.HeldForApproval? <==>
          decided.Success? && !decided.value.blocked && decided.value.approval.Some? && !req.approved)
  }

  /** What a favourable decision leads to: a refused dispatch ends the request before any usage is recorded. */
  function AfterDecision(req: DispatchRequest, decided: Result<Governance.GatewayDecision, PolicyError>,
                         recordedAt: int, outcome: Result<History.Snapshot, Runtime.Refusal>, isoText: int -> string,
                         events: seq<Governance.UsageEvent>, usageWrite: bool): Answer
  {
    if decided.Failure? then GovernanceFailed(decided.error)
    else if outcome.Failure? then DispatchRefused(outcome.error)
    else
      var usage := Governance.BuildUsageEvent(UsageInputOf(req, decided.value, recordedAt));
      if usage.Success? && usageWrite && !Governance.Taken(isoText, events, usage.value) then
        DispatchRecorded(outcome.value, usage.value)
      else DispatchedUnrecorded(outcome.value)
  }

  lemma AnswerAfterDecision(req: DispatchRequest, decision: Governance.GatewayDecision, recordedAt: int,
                            outcome: Result<History.Snapshot, Runtime.Refusal>, isoText: int -> string,
                            events: seq<Governance.UsageEvent>, usageWrite: bool)
    ensures var answer := AfterDecision(req, Success(decision), recordedAt, outcome, isoText, events, usageWrite);
            && !answer.Stopped()
            && (answer.DispatchRecorded? ==>
                  && Governance.BuildUsageEvent(UsageInputOf(req, decision, recordedAt)) == Success(answer.usage)
                  && !Governance.Taken(isoText, events, answer.usage))
  {
    hide Governance.BuildUsageEvent, Governance.Taken, UsageInputOf;
  }

  lemma ScopeResolvesIff(req: DispatchRequest)
    ensures ResolveScope(req.tenantSlug, req.workspaceSlug).Success? <==> Slug(req.tenantSlug) != ""
  {
    hide Slug;
  }

  class Controller {
    const runtime: Runtime.OrchestrationRuntime
    const governance: Governance.AiGovernance
    var outcomes: seq<OutcomeEvent>

    constructor (runtime: Runtime.OrchestrationRuntime, governance: Governance.AiGovernance)
      ensures this.runtime == runtime && this.governance == governance && outcomes == []
    {
      this.runtime := runtime;
      this.governance := governance;
      this.outcomes := [];
    }

    ghost function Decision(req: DispatchRequest, now: int): Result<Governance.GatewayDecision, PolicyError>
      reads governance
    {
      Governance.DecisionFor(governance.routingRows, governance.budgetRows, governance.events,
                             governance.startOfMonth, GatewayRequestOf(req, now))
    }

    method RecordOutcome(runKey: Topology.Key, kind: OutcomeKind, now: int, writeSucceeds: bool)
      modifies this`outcomes
      ensures outcomes == old(outcomes) + if writeSucceeds then [OutcomeEvent(runKey, kind, now)] else []
    {
      if writeSucceeds {
        outcomes := outcomes + [OutcomeEvent(runKey, kind, now)];
      }
    }

    /**
     A block or a hold changes neither the runtime nor the ledger, and an approval in the request lifts a hold but
     never a block. Otherwise the runtime takes exactly one dispatch step, and the ledger gains exactly the usage of
     an accepted one, unless that write is refused. For the ledger the whole request is an ask followed by a record or
     an abandonment, whatever other calls are in flight.
     */
    method DispatchExecutionRuntimeRun(req: DispatchRequest, now: int, recordedAt: int, readsRun: bool,
                                       readsParts: bool, snapshotWrite: bool, usageWrite: bool, outcomeWrite: bool)
      returns (answer: Answer)
      requires runtime.Valid() && governance.Valid() && runtime.Later(now)
      modifies runtime, runtime.history, governance`events, this`outcomes
      ensures runtime.Valid() && governance.Valid()
      ensures Ending(req, old(Decision(req, now)), answer)
      ensures answer.Stopped() ==> runtime.trace == old(runtime.trace) && governance.events == old(governance.events)
      ensures !answer.Stopped() ==>
                var s := Runtime.Dispatch(now, req.runKey, readsRun, readsParts, snapshotWrite);
                var outcome := Runtime.Attempt(runtime.Submitted(), old(runtime.history.slots), s);
                && runtime.trace == old(runtime.trace) + [s]
                && answer == AfterDecision(req, old(Decision(req, now)), recordedAt, outcome, governance.isoText,
                                           old(governance.events), usageWrite)
      ensures governance.events == old(governance.events) + if answer.DispatchRecorded? then [answer.usage] else []
      ensures outcomes == old(outcomes) + OutcomeOf(answer, old(Decision(req, now)), req.runKey, now, outcomeWrite)
      ensures forall rules, others: seq<Ledger.Call> ::
                ResolveScope(req.tenantSlug, req.workspaceSlug).Success?
                && RulesOf(rules, governance.budgetRows, governance.startOfMonth, governance.isoText) ==>
                LedgerMovesTo(rules, old(governance.events), governance.events, others, req, answer, now, recordedAt)
    {
      hide Runtime.OrchestrationRuntime.Valid, Runtime.OrchestrationRuntime.Submitted,
           Runtime.OrchestrationRuntime.Later, Runtime.Attempt, Runtime.Exec, Governance.AiGovernance.Valid,
           Governance.DecisionFor, Plans.PlanOf, NormalForm, Slug, ResolveScope, AfterDecision, LedgerMovesTo, RulesOf;
      ghost var outcome := Runtime.Attempt(runtime.Submitted(), runtime.history.slots,
                                           Runtime.Dispatch(now, req.runKey, readsRun, readsParts, snapshotWrite));
      var decided := governance.BuildGatewayDecision(GatewayRequestOf(req, now));
      if decided.Failure? {
        answer := GovernanceFailed(decided.error);
      } else if decided.value.blocked {
        RecordOutcome(req.runKey, OutcomeBlocked, now, outcomeWrite);
        answer := BlockedByGovernance(decided.value);
      } else if Held(decided.value, req) {
        RecordOutcome(req.runKey, OutcomeHeld, now, outcomeWrite);
        answer := HeldForApproval(decided.value);
      } else {
        answer := DispatchAndRecord(req, decided.value, now, recordedAt, readsRun, readsParts, snapshotWrite,
                                    usageWrite);
        AnswerAfterDecision(req, decided.value, recordedAt, outcome, governance.isoText, old(governance.events),
                            usageWrite);
        if answer.DispatchRecorded? {
          RecordOutcome(req.runKey, if decided.value.approval.Some? then OutcomeApprovedResumed
                                    else OutcomeAutoDispatched, now, outcomeWrite);
        }
      }
      ScopeResolvesIff(req);
      if decided.Success? {
        RequestMovesLedger(governance.startOfMonth, governance.isoText, governance.routingRows, governance.budgetRows,
                           old(governance.events), governance.events, req, decided.value, answer, outcome,
                           usageWrite, now, recordedAt);
      }
    }

    /** The two writes after a favourable decision. */
    method DispatchAndRecord(req: DispatchRequest, decision: Governance.GatewayDecision, now: int, recordedAt: int,
                             readsRun: bool, readsParts: bool, snapshotWrite: bool, usageWrite: bool)
      returns (answer: Answer)
      requires runtime.Valid() && governance.Valid() && runtime.Later(now)
      modifies runtime, runtime.history, governance`events
      ensures runtime.Valid() && governance.Valid()
      ensures var s := Runtime.Dispatch(now, req.runKey, readsRun, readsParts, snapshotWrite);
              && runtime.trace == old(runtime.trace) + [s]
              && answer == AfterDecision(req, Success(decision), recordedAt,
                                         Runtime.Attempt(runtime.Submitted(), old(runtime.history.slots), s),
                                         governance.isoText, old(governance.events), usageWrite)
      ensures governance.events == old(governance.events) + if answer.DispatchRecorded? then [answer.usage] else []
    {
      hide Runtime.OrchestrationRuntime.Submitted, Runtime.Attempt, Runtime.Exec, Governance.AiGovernance.Valid,
           Governance.Taken, Governance.BuildUsageEvent, Plans.PlanOf, NormalForm, Slug, UsageInputOf;
      var dispatched := runtime.DispatchExecutionRun(now, req.runKey, readsRun, readsParts, snapshotWrite);
      if dispatched.Failure? {
        return DispatchRefused(dispatched.error);
      }
      var usage := governance.PersistUsageEvent(UsageInputOf(req, decision, recordedAt), usageWrite);
      answer := if usage.Some? then DispatchRecorded(dispatched.value, usage.value)
                else DispatchedUnrecorded(dispatched.value);
    }
  }

  /** The outcome event of each ending: none after an exception. */
  function OutcomeOf(answer: Answer, decision: Result<Governance.GatewayDecision, PolicyError>, runKey: Topology.Key,
                     now: int, writeSucceeds: bool): seq<OutcomeEvent> {
    if !writeSucceeds then []
    else
      match answer
      case BlockedByGovernance(_) => [OutcomeEvent(runKey, OutcomeBlocked, now)]
      case HeldForApproval(_) => [OutcomeEvent(runKey, OutcomeHeld, now)]
      case DispatchRecorded(_, _) =>
        [OutcomeEvent(runKey, if decision.Success? && decision.value.approval.Some? then OutcomeApprovedResumed
                              else OutcomeAutoDispatched, now)]
      case _ => []
  }

  // The endpoint as steps of the ledger.

  /** The steps of the request lead from the one ledger to the other, and leave the other calls in flight. */
  ghost predicate LedgerMovesTo(rules: Ledger.Rules, events: seq<Governance.UsageEvent>,
                                events': seq<Governance.UsageEvent>, others: seq<Ledger.Call>, req: DispatchRequest,
                                answer: Answer, now: int, recordedAt: int)
    requires ResolveScope(req.tenantSlug, req.workspaceSlug).Success?
  {
    var after := Ledger.After(rules, Ledger.State(events, others, now),
                              LedgerSteps(req, answer, now, recordedAt, |others|));
    after.events == events' && after.inFlight == others
  }

  /** The tokens that a request reports once it is dispatched. */
  function ReportedTokens(req: DispatchRequest): nat {
    NonNegativeInteger(if req.inputTokens.Missing? then req.projectedTokens else req.inputTokens)
    + NonNegativeInteger(req.outputTokens)
  }

  /** The decision carries the feature and task of the call. */
  predicate Names(decision: Governance.GatewayDecision, call: Ledger.Call) {
    decision.featureKey == call.featureKey && decision.taskType == call.taskType
  }

  lemma DecisionNamesTheCall(routingRows: seq<RoutingRow>, budgetRows: seq<BudgetRow>,
                             events: seq<Governance.UsageEvent>, startOfMonth: int -> int, req: DispatchRequest,
                             now: int)
    requires Governance.DecisionFor(routingRows, budgetRows, events, startOfMonth, GatewayRequestOf(req, now)).Success?
    ensures ResolveScope(req.tenantSlug, req.workspaceSlug).Success?
    ensures Names(Governance.DecisionFor(routingRows, budgetRows, events, startOfMonth,
                                         GatewayRequestOf(req, now)).value, CallOf(req))
  {
    hide NormalKey, ResolveScope, Governance.EffectiveBudget, Governance.EffectiveRouting;
    Governance.DecisionNamesTheRequest(routingRows, budgetRows, events, startOfMonth, GatewayRequestOf(req, now));
  }

  /** The usage of a request is the event that the ledger writes for the call it asked about. */
  lemma UsageIsOfTheCall(req: DispatchRequest, decision: Governance.GatewayDecision, at: int)
    requires ResolveScope(req.tenantSlug, req.workspaceSlug).Success? && Names(decision, CallOf(req))
    ensures var usage := Governance.BuildUsageEvent(UsageInputOf(req, decision, at));
            && usage.Success? && usage.value.totalTokens == ReportedTokens(req)
            && (usage.value.actualCost ==
                if req.actualCost.Finite? && req.actualCost.value >= 0.0 then req.actualCost.value else 0.0)
            && usage.value == Ledger.EventOf(CallOf(req), at, usage.value.totalTokens, usage.value.actualCost)
  {
    hide NormalKey, ResolveScope;
    FallbacksAreFixed();
    KeyIsFixed(GatewayRequestOf(req, at).featureKey, "general");
    KeyIsFixed(GatewayRequestOf(req, at).taskType, "general");
  }

  /**
   The decision on a dispatch request, from what the request itself says: its lane, its credential mode, whether it is
   deterministic or cached, and the tokens and cost it projects.
   */
  lemma EndpointDecisionFollows(routingRows: seq<RoutingRow>, budgetRows: seq<BudgetRow>,
                                events: seq<Governance.UsageEvent>, startOfMonth: int -> int, req: DispatchRequest,
                                now: int)
    requires Governance.DecisionFor(routingRows, budgetRows, events, startOfMonth, GatewayRequestOf(req, now)).Success?
    ensures var d := Governance.DecisionFor(routingRows, budgetRows, events, startOfMonth,
                                            GatewayRequestOf(req, now)).value;
            ResolveScope(req.tenantSlug, req.workspaceSlug).Success? &&
            var call := CallOf(req);
            exists routing, budget ::
              && Governance.EffectiveRouting(routingRows, PolicyId(call.scope, call.featureKey, Some(call.taskType))) ==
                 Success(routing)
              && Governance.EffectiveBudget(budgetRows, PolicyId(call.scope, call.featureKey, None)) == Success(budget)
              && Governance.Follows(d, routing, budget,
                                    Governance.UsedTokens(events, call.scope, call.featureKey, startOfMonth(now)),
                                    NonNegativeInteger(req.projectedTokens), NonNegativeNumber(req.projectedCost),
                                    Governance.Wish(req.requestedLane, req.preferredCredentialMode,
                                                    req.deterministicEligible, req.cacheHitAvailable))
  {
    hide NormalKey, ResolveScope, Governance.DecisionFor, Governance.EffectiveRouting, Governance.EffectiveBudget,
         Governance.Follows, NonNegativeInteger, NonNegativeNumber;
    DecisionNamesTheCall(routingRows, budgetRows, events, startOfMonth, req, now);
    Governance.DecisionFollows(routingRows, budgetRows, events, startOfMonth, GatewayRequestOf(req, now));
  }

  /** The endpoint's block is the gate of the ledger protocol. */
  lemma DecisionIsTheGate(rules: Ledger.Rules, s: Ledger.State, routingRows: seq<RoutingRow>,
                          budgetRows: seq<BudgetRow>, req: DispatchRequest, now: int)
    requires ResolveScope(req.tenantSlug, req.workspaceSlug).Success?
    requires RulesOf(rules, budgetRows, rules.startOfMonth, rules.isoText)
    requires Governance.DecisionFor(routingRows, budgetRows, s.events, rules.startOfMonth,
                                    GatewayRequestOf(req, now)).Success?
    ensures Governance.DecisionFor(routingRows, budgetRows, s.events, rules.startOfMonth,
                                   GatewayRequestOf(req, now)).value.blocked <==>
            Ledger.Gate(rules, s, now, CallOf(req), NonNegativeNumber(req.projectedCost)).blocked
  {
    hide NormalKey, ResolveScope, Governance.EffectiveBudget, Governance.EffectiveRouting, NonNegativeInteger;
  }

  /**
   What every request does to the ledger: nothing more than the ask if it is blocked, the record of the call it asked
   about if its usage is written, and the abandonment of that call in every other case.
   */
  lemma EndpointIsLedgerSteps(rules: Ledger.Rules, routingRows: seq<RoutingRow>, budgetRows: seq<BudgetRow>,
                              events: seq<Governance.UsageEvent>, others: seq<Ledger.Call>, req: DispatchRequest,
                              answer: Answer, now: int, recordedAt: int)
    requires ResolveScope(req.tenantSlug, req.workspaceSlug).Success?
    requires RulesOf(rules, budgetRows, rules.startOfMonth, rules.isoText)
    requires var d := Governance.DecisionFor(routingRows, budgetRows, events, rules.startOfMonth,
                                             GatewayRequestOf(req, now));
             && d.Success? && !answer.GovernanceFailed? && (answer.BlockedByGovernance? <==> d.value.blocked)
             && (answer.DispatchRecorded? ==>
                   && Governance.BuildUsageEvent(UsageInputOf(req, d.value, recordedAt)) == Success(answer.usage)
                   && !Governance.Taken(rules.isoText, events, answer.usage))
    ensures LedgerMovesTo(rules, events, events + if answer.DispatchRecorded? then [answer.usage] else [], others, req,
                          answer, now, recordedAt)
  {
    hide Governance.DecisionFor, ResolveScope, CallOf, UsageInputOf, RulesOf, Governance.BuildUsageEvent, Ledger.Gate,
         Governance.Taken, NonNegativeNumber;
    var start := Ledger.State(events, others, now);
    DecisionIsTheGate(rules, start, routingRows, budgetRows, req, now);
    DecisionNamesTheCall(routingRows, budgetRows, events, rules.startOfMonth, req, now);
    UsageIsOfTheCall(req, Governance.DecisionFor(routingRows, budgetRows, events, rules.startOfMonth,
                                                 GatewayRequestOf(req, now)).value, recordedAt);
    var steps := LedgerSteps(req, answer, now, recordedAt, |others|);
    var calls := others + [CallOf(req)];
    assert steps[..1][..0] == [] && steps[..1][0] == steps[0];
    assert Ledger.After(rules, start, []) == start;
    assert Ledger.After(rules, start, steps[..1]) == Ledger.Apply(rules, start, steps[0]);
    assert answer.BlockedByGovernance? ==> steps == steps[..1];
    assert Ledger.Remove(calls, |others|) == others;
  }

  lemma RequestMovesLedger(startOfMonth: int -> int, isoText: int -> string, routingRows: seq<RoutingRow>,
                           budgetRows: seq<BudgetRow>, events: seq<Governance.UsageEvent>,
                           events': seq<Governance.UsageEvent>, req: DispatchRequest,
                           decision: Governance.GatewayDecision, answer: Answer,
                           outcome: Result<History.Snapshot, Runtime.Refusal>, usageWrite: bool, now: int,
                           recordedAt: int)
    requires ResolveScope(req.tenantSlug, req.workspaceSlug).Success?
    requires Governance.DecisionFor(routingRows, budgetRows, events, startOfMonth, GatewayRequestOf(req, now)) ==
             Success(decision)
    requires !answer.GovernanceFailed? && (answer.BlockedByGovernance? <==> decision.blocked)
    requires !answer.Stopped() ==>
               answer == AfterDecision(req, Success(decision), recordedAt, outcome, isoText, events, usageWrite)
    requires events' == events + if answer.DispatchRecorded? then [answer.usage] else []
    ensures forall rules, others: seq<Ledger.Call> :: RulesOf(rules, budgetRows, startOfMonth, isoText) ==>
              LedgerMovesTo(rules, events, events', others, req, answer, now, recordedAt)
  {
    hide Governance.DecisionFor, ResolveScope, AfterDecision, UsageInputOf, Governance.BuildUsageEvent, LedgerMovesTo,
         Governance.Taken;
    AnswerAfterDecision(req, decision, recordedAt, outcome, isoText, events, usageWrite);
    forall rules, others: seq<Ledger.Call> | RulesOf(rules, budgetRows, startOfMonth, isoText)
      ensures LedgerMovesTo(rules, events, events', others, req, answer, now, recordedAt)
    {
      EndpointIsLedgerSteps(rules, routingRows, budgetRows, events, others, req, answer, now, recordedAt);
    }
  }

  /**
   One request at a time: with an enforced limit, a recorded request that reports no more than it projected leaves
   the month's usage of its workspace below the hard limit.
   */
  lemma RecordedRequestStaysBelowLimit(budget: BudgetPolicy, events: seq<Governance.UsageEvent>,
                                       usage: Governance.UsageEvent, projected: nat, cost: real, since: int)
    requires budget.hardMonthlyTokenLimit > 0 && budget.blockOnHardLimit
    requires !Governance.ReportFor(budget, Governance.UsedTokens(events, usage.scope, usage.featureKey, since),
                                   projected, cost).blocked
    requires usage.totalTokens <= projected
    ensures Governance.UsedTokens(events + [usage], usage.scope, usage.featureKey, since) < budget.hardMonthlyTokenLimit
  {
    Governance.UsedTokensPush(events, usage, usage.scope, usage.featureKey, since);
  }
}
