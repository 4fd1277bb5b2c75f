/**
 Deciding and recording as separate steps. The controller asks the gateway first and writes the usage event only after
 the dispatch, so calls decided but not yet recorded are invisible to later decisions. The ledger can pass the hard
 limit by what those calls may still record, and by no more.
 */
module Ledger {
  import opened Wrappers
  import opened Policy
  import opened Governance

  /** A call that passed the gate. */
  datatype Call = Call(scope: Scope, actorKey: string, featureKey: string, taskType: string, projected: nat)

  datatype State = State(events: seq<UsageEvent>, inFlight: seq<Call>, now: int)

  datatype Step =
    | Ask(at: int, call: Call, cost: real)
    | Record(at: int, index: nat, tokens: nat, cost: real)
    | Abandon(at: int, index: nat)

  /** The budget in force for each scope and feature, the months, and the texts of times. */
  datatype Rules = Rules(budget: (Scope, string) -> BudgetPolicy, startOfMonth: int -> int, isoText: int -> string)

  /** The event that a call in flight records. */
  function EventOf(call: Call, at: int, tokens: nat, cost: real): UsageEvent {
    UsageEvent(call.scope, call.actorKey, call.featureKey, call.taskType, tokens, cost, true, at)
  }

  function Used(rules: Rules, s: State, scope: Scope, featureKey: string): nat {
    UsedTokens(s.events, scope, featureKey, rules.startOfMonth(s.now))
  }

  function Gate(rules: Rules, s: State, at: int, call: Call, cost: real): PressureReport {
    ReportFor(rules.budget(call.scope, call.featureKey),
              UsedTokens(s.events, call.scope, call.featureKey, rules.startOfMonth(at)), call.projected, cost)
  }

  function Remove(calls: seq<Call>, i: nat): seq<Call>
    requires i < |calls|
  {
    calls[..i] + calls[i + 1..]
  }

  /**
   A blocked call leaves no trace; a passed one is in flight until it is recorded or abandoned. A record whose key is
   taken is refused, and its call ends without an event.
   */
  function Apply(rules: Rules, s: State, step: Step): State {
    match step
    case Ask(at, call, cost) =>
      if Gate(rules, s, at, call, cost).blocked then s.(now := at)
      else s.(inFlight := s.inFlight + [call], now := at)
    case Record(at, i, tokens, cost) =>
      if i >= |s.inFlight| then s.(now := at)
      else
        var e := EventOf(s.inFlight[i], at, tokens, cost);
        State(s.events + if Taken(rules.isoText, s.events, e) then [] else [e], Remove(s.inFlight, i), at)
    case Abandon(at, i) =>
      if i >= |s.inFlight| then s.(now := at) else s.(inFlight := Remove(s.inFlight, i), now := at)
  }

  function After(rules: Rules, start: State, steps: seq<Step>): State {
    if steps == [] then start
    else Apply(rules, After(rules, start, steps[..|steps| - 1]), steps[|steps| - 1])
  }

  predicate Of(call: Call, scope: Scope, featureKey: string) { call.scope == scope && call.featureKey == featureKey }

  /** How many calls of one scope and feature are in flight. */
  function InFlight(calls: seq<Call>, scope: Scope, featureKey: string): nat {
    if calls == [] then 0
    else (if Of(calls[0], scope, featureKey) then 1 else 0) + InFlight(calls[1..], scope, featureKey)
  }

  /** What they may still record, each up to `slack` above its projection. */
  function Outstanding(calls: seq<Call>, scope: Scope, featureKey: string, slack: nat): nat {
    if calls == [] then 0
    else (if Of(calls[0], scope, featureKey) then calls[0].projected + slack else 0)
         + Outstanding(calls[1..], scope, featureKey, slack)
  }

  /** The assumptions on one step: time moves on, and one scope and feature keeps to its bounds. */
  ghost predicate Keeps(rules: Rules, s: State, step: Step, scope: Scope, featureKey: string, k: nat, most: nat,
                        slack: nat)
  {
    && step.at >= s.now
    && InFlight(Apply(rules, s, step).inFlight, scope, featureKey) <= k
    && (step.Ask? && Of(step.call, scope, featureKey) ==> step.call.projected <= most)
    && (step.Record? && step.index < |s.inFlight| && Of(s.inFlight[step.index], scope, featureKey) ==>
          step.tokens <= s.inFlight[step.index].projected + slack)
  }

  ghost predicate KeepsThroughout(rules: Rules, start: State, steps: seq<Step>, scope: Scope, featureKey: string,
                                  k: nat, most: nat, slack: nat)
  {
    forall n :: 0 <= n < |steps| ==>
      Keeps(rules, After(rules, start, steps[..n]), steps[n], scope, featureKey, k, most, slack)
  }

  ghost predicate Calendar(rules: Rules) {
    forall a, b :: a <= b ==> rules.startOfMonth(a) <= rules.startOfMonth(b)
  }

  ghost predicate Enforced(budget: BudgetPolicy) { budget.hardMonthlyTokenLimit > 0 && budget.blockOnHardLimit }

  /** The furthest that used and outstanding tokens can get. */
  function Ceiling(limit: nat, k: nat, most: nat, slack: nat): int {
    limit - 1 + (k - 1) * most + k * slack
  }

  lemma {:induction false} InFlightPush(calls: seq<Call>, call: Call, scope: Scope, featureKey: string, slack: nat)
    ensures InFlight(calls + [call], scope, featureKey) ==
            InFlight(calls, scope, featureKey) + if Of(call, scope, featureKey) then 1 else 0
    ensures Outstanding(calls + [call], scope, featureKey, slack) ==
            Outstanding(calls, scope, featureKey, slack)
            + if Of(call, scope, featureKey) then call.projected + slack else 0
  {
    if calls == [] {
      assert calls + [call] == [call] && [call][1..] == [];
    } else {
      assert (calls + [call])[1..] == calls[1..] + [call];
      InFlightPush(calls[1..], call, scope, featureKey, slack);
    }
  }

  lemma {:induction false} InFlightRemove(calls: seq<Call>, i: nat, scope: Scope, featureKey: string, slack: nat)
    requires i < |calls|
    ensures InFlight(calls, scope, featureKey) ==
            InFlight(Remove(calls, i), scope, featureKey) + if Of(calls[i], scope, featureKey) then 1 else 0
    ensures Outstanding(calls, scope, featureKey, slack) ==
            Outstanding(Remove(calls, i), scope, featureKey, slack)
            + if Of(calls[i], scope, featureKey) then calls[i].projected + slack else 0
  {
    if i == 0 {
      assert Remove(calls, 0) == calls[1..];
    } else {
      assert Remove(calls, i)[1..] == Remove(calls[1..], i - 1);
      InFlightRemove(calls[1..], i - 1, scope, featureKey, slack);
    }
  }

  ghost predicate Small(calls: seq<Call>, scope: Scope, featureKey: string, most: nat) {
    forall c :: c in calls && Of(c, scope, featureKey) ==> c.projected <= most
  }

  lemma {:induction false} OutstandingIsBounded(calls: seq<Call>, scope: Scope, featureKey: string, most: nat,
                                                slack: nat)
    requires Small(calls, scope, featureKey, most)
    ensures Outstanding(calls, scope, featureKey, slack) <= InFlight(calls, scope, featureKey) * (most + slack)
  {
    if calls != [] {
      OutstandingIsBounded(calls[1..], scope, featureKey, most, slack);
      if Of(calls[0], scope, featureKey) {
        assert calls[0].projected <= most;
        var m := InFlight(calls[1..], scope, featureKey);
        assert (m + 1) * (most + slack) == m * (most + slack) + (most + slack);
      }
    }
  }

  /** Used and outstanding tokens. */
  function Load(rules: Rules, s: State, scope: Scope, featureKey: string, slack: nat): nat {
    Used(rules, s, scope, featureKey) + Outstanding(s.inFlight, scope, featureKey, slack)
  }

  function Max(a: int, b: int): int { if a >= b then a else b }

  /** Small calls, and a load at or below a cap that is no lower than the ceiling. */
  ghost predicate Bounded(rules: Rules, s: State, scope: Scope, featureKey: string, k: nat, most: nat, slack: nat,
                          cap: int)
  {
    && Small(s.inFlight, scope, featureKey, most)
    && Ceiling(rules.budget(scope, featureKey).hardMonthlyTokenLimit, k, most, slack) <= cap
    && Load(rules, s, scope, featureKey, slack) <= cap
  }

  lemma AskKeepsBound(rules: Rules, s: State, step: Step, scope: Scope, featureKey: string, k: nat, most: nat,
                      slack: nat, cap: int)
    requires step.Ask? && Calendar(rules) && Enforced(rules.budget(scope, featureKey))
    requires Bounded(rules, s, scope, featureKey, k, most, slack, cap)
    requires Keeps(rules, s, step, scope, featureKey, k, most, slack)
    ensures Bounded(rules, Apply(rules, s, step), scope, featureKey, k, most, slack, cap)
  {
    UsedTokensRollOver(s.events, scope, featureKey, rules.startOfMonth(s.now), rules.startOfMonth(step.at));
    InFlightPush(s.inFlight, step.call, scope, featureKey, slack);
    var used := UsedTokens(s.events, scope, featureKey, rules.startOfMonth(step.at));
    var limit := rules.budget(scope, featureKey).hardMonthlyTokenLimit;
    if !Gate(rules, s, step.at, step.call, step.cost).blocked && Of(step.call, scope, featureKey) {
      GateStaysBelow(rules.budget(scope, featureKey), used, step.call.projected, step.cost);
      OutstandingIsBounded(s.inFlight, scope, featureKey, most, slack);
      CeilingHolds(InFlight(s.inFlight, scope, featureKey), k, most, slack);
    }
  }

  lemma GateStaysBelow(budget: BudgetPolicy, used: nat, projected: nat, cost: real)
    requires Enforced(budget)
    ensures !ReportFor(budget, used, projected, cost).blocked <==> used + projected < budget.hardMonthlyTokenLimit
  {
  }

  lemma CeilingHolds(others: nat, k: nat, most: nat, slack: nat)
    requires others + 1 <= k
    ensures others * (most + slack) + slack <= (k - 1) * most + k * slack
  {
    assert others * (most + slack) <= (k - 1) * (most + slack);
    assert (k - 1) * (most + slack) == (k - 1) * most + (k - 1) * slack;
  }

  /** As time goes on, usage rolls out of the month and nothing else changes. */
  lemma LaterKeepsBound(rules: Rules, s: State, at: int, scope: Scope, featureKey: string, k: nat, most: nat,
                        slack: nat, cap: int)
    requires Calendar(rules) && s.now <= at && Bounded(rules, s, scope, featureKey, k, most, slack, cap)
    ensures Bounded(rules, s.(now := at), scope, featureKey, k, most, slack, cap)
  {
    hide Ceiling, Outstanding, UsedTokens;
    UsedTokensRollOver(s.events, scope, featureKey, rules.startOfMonth(s.now), rules.startOfMonth(at));
  }

  /** A call that ends takes what it could still record out of the load. */
  lemma EndedCall(rules: Rules, s: State, i: nat, scope: Scope, featureKey: string, most: nat, slack: nat)
    requires i < |s.inFlight| && Small(s.inFlight, scope, featureKey, most)
    ensures var rest := s.(inFlight := Remove(s.inFlight, i));
            && Small(rest.inFlight, scope, featureKey, most)
            && Load(rules, s, scope, featureKey, slack) ==
               Load(rules, rest, scope, featureKey, slack)
               + if Of(s.inFlight[i], scope, featureKey) then s.inFlight[i].projected + slack else 0
  {
    hide Outstanding, InFlight, UsedTokens;
    InFlightRemove(s.inFlight, i, scope, featureKey, slack);
  }

  /** A recorded event adds its tokens to the load if it belongs to the scope and feature, and else nothing. */
  lemma RecordedLoad(rules: Rules, s: State, call: Call, tokens: nat, cost: real, scope: Scope, featureKey: string,
                     slack: nat)
    requires scope.workspaceSlug.Some?
    ensures Load(rules, s.(events := s.events + [EventOf(call, s.now, tokens, cost)]), scope, featureKey, slack) <=
            Load(rules, s, scope, featureKey, slack) + if Of(call, scope, featureKey) then tokens else 0
  {
    hide Outstanding, UsedTokens;
    UsedTokensPush(s.events, EventOf(call, s.now, tokens, cost), scope, featureKey, rules.startOfMonth(s.now));
  }

  lemma RecordKeepsBound(rules: Rules, s: State, step: Step, scope: Scope, featureKey: string, k: nat, most: nat,
                         slack: nat, cap: int)
    requires !step.Ask? && Calendar(rules) && scope.workspaceSlug.Some?
    requires Bounded(rules, s, scope, featureKey, k, most, slack, cap)
    requires Keeps(rules, s, step, scope, featureKey, k, most, slack)
    ensures Bounded(rules, Apply(rules, s, step), scope, featureKey, k, most, slack, cap)
  {
    hide Ceiling, Load, Small, InFlight, Taken, EventOf;
    var later := s.(now := step.at);
    LaterKeepsBound(rules, s, step.at, scope, featureKey, k, most, slack, cap);
    if step.index < |s.inFlight| {
      var rest := later.(inFlight := Remove(s.inFlight, step.index));
      EndedCall(rules, later, step.index, scope, featureKey, most, slack);
      if step.Record? {
        assert rest.(events := rest.events + []) == rest;
        RecordedLoad(rules, rest, s.inFlight[step.index], step.tokens, step.cost, scope, featureKey, slack);
      }
    }
  }

  /**
   The overshoot bound. With at most k calls of one workspace and feature in flight, each projecting at most `most`
   tokens and recording at most `slack` above its projection, used plus outstanding tokens never pass the ceiling, or
   where they started if that was higher: from any ledger, through any interleaving, any other traffic, any refused
   record and any change of month.
   */
  lemma {:induction false} OvershootIsBounded(rules: Rules, start: State, steps: seq<Step>, scope: Scope,
                                              featureKey: string, k: nat, most: nat, slack: nat)
    requires Calendar(rules) && Enforced(rules.budget(scope, featureKey)) && scope.workspaceSlug.Some?
    requires Small(start.inFlight, scope, featureKey, most)
    requires KeepsThroughout(rules, start, steps, scope, featureKey, k, most, slack)
    ensures Bounded(rules, After(rules, start, steps), scope, featureKey, k, most, slack,
                    Max(Ceiling(rules.budget(scope, featureKey).hardMonthlyTokenLimit, k, most, slack),
                        Load(rules, start, scope, featureKey, slack)))
  {
    hide Apply, Keeps, Ceiling, Load;
    if steps != [] {
      var n := |steps| - 1;
      var cap := Max(Ceiling(rules.budget(scope, featureKey).hardMonthlyTokenLimit, k, most, slack),
                     Load(rules, start, scope, featureKey, slack));
      assert forall m :: 0 <= m < n ==> steps[..n][..m] == steps[..m];
      OvershootIsBounded(rules, start, steps[..n], scope, featureKey, k, most, slack);
      if steps[n].Ask? {
        AskKeepsBound(rules, After(rules, start, steps[..n]), steps[n], scope, featureKey, k, most, slack, cap);
      } else {
        RecordKeepsBound(rules, After(rules, start, steps[..n]), steps[n], scope, featureKey, k, most, slack, cap);
      }
    }
  }

  /** Calls that record no more than they project: the limit is passed by less than the other calls in flight. */
  lemma HonestCallsOvershootByOthers(rules: Rules, start: State, steps: seq<Step>, scope: Scope, featureKey: string,
                                     k: nat, most: nat)
    requires Calendar(rules) && Enforced(rules.budget(scope, featureKey)) && scope.workspaceSlug.Some?
    requires Small(start.inFlight, scope, featureKey, most)
    requires KeepsThroughout(rules, start, steps, scope, featureKey, k, most, 0)
    ensures var load := Load(rules, After(rules, start, steps), scope, featureKey, 0);
            load < rules.budget(scope, featureKey).hardMonthlyTokenLimit + (k - 1) * most
            || load <= Load(rules, start, scope, featureKey, 0)
  {
    OvershootIsBounded(rules, start, steps, scope, featureKey, k, most, 0);
  }

  /** One call at a time never reaches the hard limit of a ledger that starts below it. */
  lemma OneAtATimeStaysBelowLimit(rules: Rules, start: State, steps: seq<Step>, scope: Scope, featureKey: string,
                                  most: nat)
    requires Calendar(rules) && Enforced(rules.budget(scope, featureKey)) && scope.workspaceSlug.Some?
    requires start.inFlight == []
    requires Used(rules, start, scope, featureKey) < rules.budget(scope, featureKey).hardMonthlyTokenLimit
    requires KeepsThroughout(rules, start, steps, scope, featureKey, 1, most, 0)
    ensures Used(rules, After(rules, start, steps), scope, featureKey)
            < rules.budget(scope, featureKey).hardMonthlyTokenLimit
  {
    hide KeepsThroughout, After, Used, Enforced;
    HonestCallsOvershootByOthers(rules, start, steps, scope, featureKey, 1, most);
    assert (1 - 1) * most == 0;
  }

  // The bound is reached.

  function Burst(n: nat, at: int, call: Call): seq<Step> { seq(n, _ => Ask(at, call, 0.0)) }

  /** Records at successive times after the given one. */
  function Settle(n: nat, at: int, tokens: nat): seq<Step> { seq(n, i => Record(at + 1 + i, 0, tokens, 0.0)) }

  lemma {:induction false} BurstPasses(rules: Rules, s: State, n: nat, call: Call)
    requires !Gate(rules, s, s.now, call, 0.0).blocked
    ensures After(rules, s, Burst(n, s.now, call)) == s.(inFlight := s.inFlight + seq(n, _ => call))
  {
    if n > 0 {
      BurstPasses(rules, s, n - 1, call);
      assert Burst(n, s.now, call)[..n - 1] == Burst(n - 1, s.now, call);
      assert s.inFlight + seq(n - 1, _ => call) + [call] == s.inFlight + seq(n, _ => call);
    } else {
      assert s.inFlight + seq(0, _ => call) == s.inFlight;
    }
  }

  /** No event lies in the future. */
  ghost predicate Past(s: State) {
    forall e :: e in s.events ==> e.occurredAt <= s.now
  }

  /** A later record has a key of its own. */
  lemma LaterKeyIsFree(rules: Rules, s: State, e: UsageEvent)
    requires Readable(rules.isoText) && Past(s) && e.occurredAt > s.now
    ensures !Taken(rules.isoText, s.events, e)
  {
    hide EventKey;
    if Taken(rules.isoText, s.events, e) {
      TakenAtTheSameTime(rules.isoText, s.events, e);
      assert false;
    }
  }

  lemma RecordOne(rules: Rules, s: State, m: nat, call: Call, tokens: nat)
    requires m > 0 && s.inFlight == seq(m, _ => call) && Readable(rules.isoText) && Past(s)
    requires rules.startOfMonth(s.now + 1) == rules.startOfMonth(s.now) <= s.now
    ensures var r := Apply(rules, s, Record(s.now + 1, 0, tokens, 0.0));
            && r.inFlight == seq(m - 1, _ => call) && r.now == s.now + 1 && Past(r)
            && Used(rules, r, call.scope, call.featureKey) ==
               Used(rules, s, call.scope, call.featureKey) + tokens
  {
    hide Taken;
    var e := EventOf(call, s.now + 1, tokens, 0.0);
    LaterKeyIsFree(rules, s, e);
    UsedTokensPush(s.events, e, call.scope, call.featureKey, rules.startOfMonth(s.now));
    assert Remove(s.inFlight, 0) == seq(m - 1, _ => call);
  }

  lemma {:induction false} SettleRecords(rules: Rules, s: State, n: nat, m: nat, call: Call, tokens: nat)
    requires n <= m && s.inFlight == seq(m, _ => call) && Readable(rules.isoText) && Past(s) && Calendar(rules)
    requires rules.startOfMonth(s.now + n) == rules.startOfMonth(s.now) <= s.now
    ensures var r := After(rules, s, Settle(n, s.now, tokens));
            && r.inFlight == seq(m - n, _ => call) && r.now == s.now + n && Past(r)
            && Used(rules, r, call.scope, call.featureKey) ==
               Used(rules, s, call.scope, call.featureKey) + n * tokens
  {
    hide Apply, Used, Readable, Past;
    if n > 0 {
      assert rules.startOfMonth(s.now) <= rules.startOfMonth(s.now + n - 1) <= rules.startOfMonth(s.now + n);
      SettleRecords(rules, s, n - 1, m, call, tokens);
      assert Settle(n, s.now, tokens)[..n - 1] == Settle(n - 1, s.now, tokens);
      RecordOne(rules, After(rules, s, Settle(n - 1, s.now, tokens)), m - n + 1, call, tokens);
      assert n * tokens == (n - 1) * tokens + tokens;
    }
  }

  /**
   From a ledger with room for one more call, k calls asked together are all let through, and all recorded one after
   another within the month, each under its own key and each at the full slack above its projection.
   */
  lemma OvershootIsReached(rules: Rules, s: State, k: nat, call: Call, slack: nat)
    requires s.inFlight == [] && Readable(rules.isoText) && Past(s) && Calendar(rules)
    requires rules.startOfMonth(s.now + k) == rules.startOfMonth(s.now) <= s.now
    requires Enforced(rules.budget(call.scope, call.featureKey))
    requires Used(rules, s, call.scope, call.featureKey) + call.projected ==
             rules.budget(call.scope, call.featureKey).hardMonthlyTokenLimit - 1
    ensures var asked := After(rules, s, Burst(k, s.now, call));
            var settled := After(rules, asked, Settle(k, s.now, call.projected + slack));
            Used(rules, settled, call.scope, call.featureKey) ==
            Ceiling(rules.budget(call.scope, call.featureKey).hardMonthlyTokenLimit, k, call.projected, slack)
  {
    hide After, Gate, Used, Ceiling, Enforced, Readable, Calendar, Past;
    GateOpens(rules, s, call);
    CallsSettle(rules, s, k, call, call.projected + slack);
    CeilingOfCalls(rules.budget(call.scope, call.featureKey).hardMonthlyTokenLimit, k, call.projected, slack);
  }

  lemma GateOpens(rules: Rules, s: State, call: Call)
    requires Enforced(rules.budget(call.scope, call.featureKey))
    ensures !Gate(rules, s, s.now, call, 0.0).blocked <==>
            Used(rules, s, call.scope, call.featureKey) + call.projected
            < rules.budget(call.scope, call.featureKey).hardMonthlyTokenLimit
  {
    GateStaysBelow(rules.budget(call.scope, call.featureKey), Used(rules, s, call.scope, call.featureKey),
                   call.projected, 0.0);
  }

  lemma CeilingOfCalls(limit: nat, k: nat, most: nat, slack: nat)
    ensures Ceiling(limit, k, most, slack) == limit - 1 - most + k * (most + slack)
  {
    assert k * most == (k - 1) * most + most;
    assert k * (most + slack) == k * most + k * slack;
  }

  lemma CallsSettle(rules: Rules, s: State, k: nat, call: Call, tokens: nat)
    requires s.inFlight == [] && Readable(rules.isoText) && Past(s) && Calendar(rules)
    requires rules.startOfMonth(s.now + k) == rules.startOfMonth(s.now) <= s.now
    requires !Gate(rules, s, s.now, call, 0.0).blocked
    ensures var asked := After(rules, s, Burst(k, s.now, call));
            var settled := After(rules, asked, Settle(k, s.now, tokens));
            Used(rules, settled, call.scope, call.featureKey) ==
            Used(rules, s, call.scope, call.featureKey) + k * tokens
  {
    hide After, Gate, Readable;
    BurstPasses(rules, s, k, call);
    var asked := After(rules, s, Burst(k, s.now, call));
    assert asked.inFlight == seq(k, _ => call);
    SettleRecords(rules, asked, k, k, call, tokens);
  }
}
