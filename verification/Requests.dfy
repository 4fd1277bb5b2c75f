/**
 Requests to the dispatch endpoint that overlap: each is decided on arrival and finished later, and between the two any
 others may arrive and finish. The overshoot bound of the ledger holds for all of them together.
 */
module Requests {
  import opened Wrappers
  import opened Contracts
  import opened Policy
  import opened DispatchController
  import History
  import Runtime
  import Governance
  import Ledger

  /** The stored policies, which do not change during a run, and the texts and months of times. */
  datatype Config = Config(routingRows: seq<RoutingRow>, budgetRows: seq<BudgetRow>, startOfMonth: int -> int,
                           isoText: int -> string)

  /** A request that was let through, its decision, and the call that the decision was about. */
  datatype Pending = Pending(req: DispatchRequest, decision: Governance.GatewayDecision, call: Ledger.Call)

  datatype Service = Service(events: seq<Governance.UsageEvent>, pending: seq<Pending>, now: int)

  datatype Move =
    | Arrive(at: int, req: DispatchRequest)
    | Finish(at: int, index: nat, outcome: Result<History.Snapshot, Runtime.Refusal>, usageWrite: bool)

  function DecisionAt(c: Config, events: seq<Governance.UsageEvent>, req: DispatchRequest, at: int)
    : Result<Governance.GatewayDecision, PolicyError> {
    Governance.DecisionFor(c.routingRows, c.budgetRows, events, c.startOfMonth, GatewayRequestOf(req, at))
  }

  /** The endpoint goes on to the runtime. */
  predicate Passes(decided: Result<Governance.GatewayDecision, PolicyError>, req: DispatchRequest) {
    decided.Success? && decided.value.CanDispatch() && !Held(decided.value, req)
  }

  /** A request passes exactly when the endpoint is not stopped by the decision. */
  lemma PassesIffNotStopped(req: DispatchRequest, decided: Result<Governance.GatewayDecision, PolicyError>,
                            answer: Answer)
    requires Ending(req, decided, answer)
    ensures Passes(decided, req) <==> !answer.Stopped()
    ensures Passes(decided, req) <==>
            decided.Success? && !decided.value.blocked && (decided.value.approval.None? || req.approved)
  {
  }

  function Ended(c: Config, s: Service, m: Move): Answer
    requires m.Finish? && m.index < |s.pending|
  {
    var q := s.pending[m.index];
    AfterDecision(q.req, Success(q.decision), m.at, m.outcome, c.isoText, s.events, m.usageWrite)
  }

  function Apply(c: Config, s: Service, m: Move): Service {
    match m
    case Arrive(at, req) =>
      var decided := DecisionAt(c, s.events, req, at);
      if !Passes(decided, req) then s.(now := at)
      else
        DecisionNamesTheCall(c.routingRows, c.budgetRows, s.events, c.startOfMonth, req, at);
        s.(pending := s.pending + [Pending(req, decided.value, CallOf(req))], now := at)
    case Finish(at, i, _, _) =>
      if i >= |s.pending| then s.(now := at)
      else
        var answer := Ended(c, s, m);
        Service(s.events + (if answer.DispatchRecorded? then [answer.usage] else []),
                s.pending[..i] + s.pending[i + 1..], at)
  }

  function After(c: Config, start: Service, moves: seq<Move>): Service {
    if moves == [] then start else Apply(c, After(c, start, moves[..|moves| - 1]), moves[|moves| - 1])
  }

  function Calls(pending: seq<Pending>): seq<Ledger.Call> {
    seq(|pending|, i requires 0 <= i < |pending| => pending[i].call)
  }

  function LedgerOf(s: Service): Ledger.State { Ledger.State(s.events, Calls(s.pending), s.now) }

  /** The call of a pending request is its own, and its decision names it. */
  ghost predicate Genuine(s: Service) {
    forall q :: q in s.pending ==>
      && ResolveScope(q.req.tenantSlug, q.req.workspaceSlug).Success?
      && q.call == CallOf(q.req) && Names(q.decision, q.call)
  }

  /** One move is one step of the ledger; a request that is not let through only lets time pass. */
  function LedgerStep(c: Config, s: Service, m: Move): Ledger.Step {
    match m
    case Arrive(at, req) =>
      if !Passes(DecisionAt(c, s.events, req, at), req) then Ledger.Abandon(at, |s.pending|)
      else
        DecisionNamesTheCall(c.routingRows, c.budgetRows, s.events, c.startOfMonth, req, at);
        Ledger.Ask(at, CallOf(req), NonNegativeNumber(req.projectedCost))
    case Finish(at, i, _, _) =>
      if i < |s.pending| && Ended(c, s, m).DispatchRecorded? then
        Ledger.Record(at, i, Ended(c, s, m).usage.totalTokens, Ended(c, s, m).usage.actualCost)
      else Ledger.Abandon(at, i)
  }

  lemma MoveIsLedgerStep(c: Config, rules: Ledger.Rules, s: Service, m: Move)
    requires Genuine(s) && RulesOf(rules, c.budgetRows, c.startOfMonth, c.isoText)
    ensures Genuine(Apply(c, s, m))
    ensures LedgerOf(Apply(c, s, m)) == Ledger.Apply(rules, LedgerOf(s), LedgerStep(c, s, m))
  {
    if m.Arrive? {
      ArrivalIsLedgerStep(c, rules, s, m);
    } else if m.index < |s.pending| {
      FinishIsLedgerStep(c, rules, s, m);
    }
  }

  lemma ArrivalIsLedgerStep(c: Config, rules: Ledger.Rules, s: Service, m: Move)
    requires m.Arrive? && Genuine(s) && RulesOf(rules, c.budgetRows, c.startOfMonth, c.isoText)
    ensures Genuine(Apply(c, s, m))
    ensures LedgerOf(Apply(c, s, m)) == Ledger.Apply(rules, LedgerOf(s), LedgerStep(c, s, m))
  {
    hide Governance.DecisionFor, ResolveScope, CallOf, Ledger.Gate, NonNegativeNumber, RulesOf;
    if Passes(DecisionAt(c, s.events, m.req, m.at), m.req) {
      DecisionNamesTheCall(c.routingRows, c.budgetRows, s.events, c.startOfMonth, m.req, m.at);
      RulesNameTimes(c, rules);
      DecisionIsTheGate(rules, LedgerOf(s), c.routingRows, c.budgetRows, m.req, m.at);
      var t := Apply(c, s, m);
      assert Calls(t.pending) == Calls(s.pending) + [CallOf(m.req)];
    }
  }

  lemma RulesNameTimes(c: Config, rules: Ledger.Rules)
    requires RulesOf(rules, c.budgetRows, c.startOfMonth, c.isoText)
    ensures rules.startOfMonth == c.startOfMonth && rules.isoText == c.isoText
    ensures RulesOf(rules, c.budgetRows, rules.startOfMonth, rules.isoText)
  {
  }

  lemma FinishIsLedgerStep(c: Config, rules: Ledger.Rules, s: Service, m: Move)
    requires m.Finish? && m.index < |s.pending| && Genuine(s)
    requires RulesOf(rules, c.budgetRows, c.startOfMonth, c.isoText)
    ensures Genuine(Apply(c, s, m))
    ensures LedgerOf(Apply(c, s, m)) == Ledger.Apply(rules, LedgerOf(s), LedgerStep(c, s, m))
  {
    hide ResolveScope, CallOf, Names, RulesOf, AfterDecision, Governance.BuildUsageEvent, UsageInputOf,
         Governance.Taken;
    var q := s.pending[m.index];
    assert q in s.pending;
    RulesNameTimes(c, rules);
    UsageIsOfTheCall(q.req, q.decision, m.at);
    AnswerAfterDecision(q.req, q.decision, m.at, m.outcome, c.isoText, s.events, m.usageWrite);
    var rest := s.pending[..m.index] + s.pending[m.index + 1..];
    assert Calls(rest) == Ledger.Remove(Calls(s.pending), m.index);
    assert forall r :: r in rest ==> r in s.pending;
    assert s.events + [] == s.events;
  }

  /** The assumptions on one move: time moves on, and the requests of one workspace and feature keep to their bounds. */
  ghost predicate Moderate(c: Config, s: Service, m: Move, scope: Scope, featureKey: string, k: nat, most: nat,
                           slack: nat)
  {
    && m.at >= s.now
    && Ledger.InFlight(Calls(Apply(c, s, m).pending), scope, featureKey) <= k
    && (m.Arrive? && ResolveScope(m.req.tenantSlug, m.req.workspaceSlug).Success?
        && Ledger.Of(CallOf(m.req), scope, featureKey) ==>
          && CallOf(m.req).projected <= most
          && ReportedTokens(m.req) <= CallOf(m.req).projected + slack)
  }

  ghost predicate ModerateThroughout(c: Config, start: Service, moves: seq<Move>, scope: Scope, featureKey: string,
                                     k: nat, most: nat, slack: nat)
  {
    forall n :: 0 <= n < |moves| ==>
      Moderate(c, After(c, start, moves[..n]), moves[n], scope, featureKey, k, most, slack)
  }

  /** Pending requests of the scope and feature report no more than the slack above their projection. */
  ghost predicate WithinSlack(s: Service, scope: Scope, featureKey: string, slack: nat) {
    forall q :: q in s.pending && Ledger.Of(q.call, scope, featureKey) ==>
      ReportedTokens(q.req) <= q.call.projected + slack
  }

  /** The step of a moderate move keeps to the bounds of the ledger. */
  lemma ModerateStepKeeps(c: Config, rules: Ledger.Rules, s: Service, m: Move, scope: Scope, featureKey: string,
                          k: nat, most: nat, slack: nat)
    requires Genuine(s) && RulesOf(rules, c.budgetRows, c.startOfMonth, c.isoText)
    requires WithinSlack(s, scope, featureKey, slack) && Moderate(c, s, m, scope, featureKey, k, most, slack)
    ensures Ledger.Keeps(rules, LedgerOf(s), LedgerStep(c, s, m), scope, featureKey, k, most, slack)
    ensures WithinSlack(Apply(c, s, m), scope, featureKey, slack)
  {
    hide ResolveScope, CallOf, Names, RulesOf, AfterDecision, Governance.BuildUsageEvent, UsageInputOf, ReportedTokens,
         Governance.Taken, DecisionAt, Ledger.Apply, Ledger.InFlight;
    MoveIsLedgerStep(c, rules, s, m);
    if m.Arrive? {
      if Passes(DecisionAt(c, s.events, m.req, m.at), m.req) {
        ArrivalNamesTheCall(c, s, m);
      }
    } else if m.index < |s.pending| {
      var q := s.pending[m.index];
      assert q in s.pending;
      UsageIsOfTheCall(q.req, q.decision, m.at);
      AnswerAfterDecision(q.req, q.decision, m.at, m.outcome, c.isoText, s.events, m.usageWrite);
    }
  }

  lemma ArrivalNamesTheCall(c: Config, s: Service, m: Move)
    requires m.Arrive? && DecisionAt(c, s.events, m.req, m.at).Success?
    ensures ResolveScope(m.req.tenantSlug, m.req.workspaceSlug).Success?
  {
    hide Names, CallOf;
    DecisionNamesTheCall(c.routingRows, c.budgetRows, s.events, c.startOfMonth, m.req, m.at);
  }

  lemma MoveKeepsBound(c: Config, rules: Ledger.Rules, s: Service, m: Move, scope: Scope, featureKey: string, k: nat,
                       most: nat, slack: nat, cap: int)
    requires Genuine(s) && RulesOf(rules, c.budgetRows, c.startOfMonth, c.isoText)
    requires Ledger.Calendar(rules) && Ledger.Enforced(rules.budget(scope, featureKey)) && scope.workspaceSlug.Some?
    requires Ledger.Bounded(rules, LedgerOf(s), scope, featureKey, k, most, slack, cap)
    requires WithinSlack(s, scope, featureKey, slack) && Moderate(c, s, m, scope, featureKey, k, most, slack)
    ensures Genuine(Apply(c, s, m)) && WithinSlack(Apply(c, s, m), scope, featureKey, slack)
    ensures Ledger.Bounded(rules, LedgerOf(Apply(c, s, m)), scope, featureKey, k, most, slack, cap)
  {
    hide Genuine, RulesOf, Ledger.Calendar, Ledger.Enforced, Ledger.Bounded, WithinSlack, Moderate, Ledger.Apply,
         Apply, LedgerOf, LedgerStep, Ledger.Keeps;
    MoveIsLedgerStep(c, rules, s, m);
    ModerateStepKeeps(c, rules, s, m, scope, featureKey, k, most, slack);
    var step := LedgerStep(c, s, m);
    if step.Ask? {
      Ledger.AskKeepsBound(rules, LedgerOf(s), step, scope, featureKey, k, most, slack, cap);
    } else {
      Ledger.RecordKeepsBound(rules, LedgerOf(s), step, scope, featureKey, k, most, slack, cap);
    }
  }

  /**
   The overshoot bound of the endpoint. However requests overlap, with at most k of a workspace and feature pending,
   each projecting at most `most` tokens and reporting at most `slack` more, used plus outstanding tokens never pass
   limit - 1 + (k - 1) most + k slack, or where they started if that was higher.
   */
  lemma {:induction false} OverlappingRequestsAreBounded(c: Config, rules: Ledger.Rules, start: Service,
                                                         moves: seq<Move>, scope: Scope, featureKey: string, k: nat,
                                                         most: nat, slack: nat)
    requires RulesOf(rules, c.budgetRows, c.startOfMonth, c.isoText)
    requires Ledger.Calendar(rules) && Ledger.Enforced(rules.budget(scope, featureKey)) && scope.workspaceSlug.Some?
    requires start.pending == []
    requires ModerateThroughout(c, start, moves, scope, featureKey, k, most, slack)
    ensures var s, limit := After(c, start, moves), rules.budget(scope, featureKey).hardMonthlyTokenLimit;
            && Genuine(s) && WithinSlack(s, scope, featureKey, slack)
            && Ledger.Bounded(rules, LedgerOf(s), scope, featureKey, k, most, slack,
                              Ledger.Max(Ledger.Ceiling(limit, k, most, slack),
                                         Ledger.Load(rules, LedgerOf(start), scope, featureKey, slack)))
  {
    hide RulesOf, Ledger.Calendar, Ledger.Enforced, Moderate, Apply, Ledger.Ceiling, Ledger.Load;
    if moves != [] {
      hide Genuine, WithinSlack, Ledger.Bounded, LedgerOf;
      var n := |moves| - 1;
      var cap := Ledger.Max(Ledger.Ceiling(rules.budget(scope, featureKey).hardMonthlyTokenLimit, k, most, slack),
                            Ledger.Load(rules, LedgerOf(start), scope, featureKey, slack));
      assert forall m :: 0 <= m < n ==> moves[..n][..m] == moves[..m];
      OverlappingRequestsAreBounded(c, rules, start, moves[..n], scope, featureKey, k, most, slack);
      MoveKeepsBound(c, rules, After(c, start, moves[..n]), moves[n], scope, featureKey, k, most, slack, cap);
    }
  }

  /** Requests that report no more than they project stay below the limit plus what the others project. */
  lemma OverlappingHonestRequests(c: Config, rules: Ledger.Rules, start: Service, moves: seq<Move>, scope: Scope,
                                  featureKey: string, k: nat, most: nat)
    requires RulesOf(rules, c.budgetRows, c.startOfMonth, c.isoText)
    requires Ledger.Calendar(rules) && Ledger.Enforced(rules.budget(scope, featureKey)) && scope.workspaceSlug.Some?
    requires start.pending == []
    requires ModerateThroughout(c, start, moves, scope, featureKey, k, most, 0)
    ensures var s := After(c, start, moves);
            var used := Governance.UsedTokens(s.events, scope, featureKey, c.startOfMonth(s.now));
            used < rules.budget(scope, featureKey).hardMonthlyTokenLimit + (k - 1) * most
            || used <= Governance.UsedTokens(start.events, scope, featureKey, c.startOfMonth(start.now))
  {
    hide Ledger.Calendar, Ledger.Enforced, ModerateThroughout, After, RulesOf;
    RulesNameTimes(c, rules);
    OverlappingRequestsAreBounded(c, rules, start, moves, scope, featureKey, k, most, 0);
    assert Calls(start.pending) == [];
  }
}
