/**
 AI routing and budget policies: how a request becomes a policy record, how the record becomes a row of text and
 number columns, and how a row is read back.
 */
module Policy {
  import opened Wrappers
  import opened Text
  import opened Contracts

  datatype Lane = Deterministic | ArtifactCache | CheapModel | BalancedModel | PremiumModel | BackgroundBatch
  datatype Pressure = NormalPressure | NearLimit | HardLimit
  datatype CredentialMode = Managed | Byo

  datatype PolicyError =
    | MissingTenantSlug
    | MaxLaneBelowDefaultLane
    | ByoPreferredButDisabled
    | HardLimitBelowBudget

  datatype Scope = Scope(tenantSlug: string, workspaceSlug: Option<string>)

  /** The columns a policy is looked up by. Budget policies have no task type. */
  datatype PolicyId = PolicyId(scope: Scope, featureKey: string, taskType: Option<string>)

  datatype RoutingInput = RoutingInput(tenantSlug: Option<string>, workspaceSlug: Option<string>,
                                       featureKey: Option<string>, taskType: Option<string>,
                                       defaultLane: Option<Lane>, maxLane: Option<Lane>,
                                       preferredCredentialMode: Option<CredentialMode>, allowByoKeys: Option<bool>,
                                       requireApprovalAboveLane: Option<Lane>, downgradeAt: Option<Pressure>,
                                       cacheEnabled: Option<bool>, deterministicFirst: Option<bool>,
                                       source: Option<string>)

  datatype RoutingPolicy = RoutingPolicy(scope: Scope, featureKey: string, taskType: string,
                                         defaultLane: Lane, maxLane: Lane, deterministicFirst: bool,
                                         cacheEnabled: bool, preferredCredentialMode: CredentialMode,
                                         allowByoKeys: bool, downgradeAt: Pressure,
                                         requireApprovalAboveLane: Option<Lane>, source: string)

  datatype BudgetInput = BudgetInput(tenantSlug: Option<string>, workspaceSlug: Option<string>,
                                     featureKey: Option<string>, monthlyTokenBudget: Number,
                                     hardMonthlyTokenLimit: Number, premiumExecutionCap: Number,
                                     blockOnHardLimit: Option<bool>, requireApprovalAtProjectedCost: Number,
                                     source: Option<string>)

  datatype BudgetPolicy = BudgetPolicy(scope: Scope, featureKey: string, monthlyTokenBudget: nat,
                                       hardMonthlyTokenLimit: nat, premiumExecutionCap: nat, blockOnHardLimit: bool,
                                       requireApprovalAtProjectedCost: real, source: string)

  /** The columns of a stored routing policy. */
  datatype RoutingRow = RoutingRow(policyKey: string, scopeType: string, tenantSlug: string,
                                   workspaceSlug: Option<string>, featureKey: string, taskType: string,
                                   defaultLane: string, maxLane: string, preferredCredentialMode: string,
                                   allowByoKeys: bool, requireApprovalAboveLane: Option<string>,
                                   downgradeAt: string, cacheEnabled: bool, deterministicFirst: bool, source: string)

  datatype BudgetRow = BudgetRow(policyKey: string, scopeType: string, tenantSlug: string,
                                 workspaceSlug: Option<string>, featureKey: string, monthlyTokenBudget: real,
                                 hardMonthlyTokenLimit: real, premiumExecutionCap: real, blockOnHardLimit: bool,
                                 requireApprovalAtProjectedCost: real, source: string)

  function LaneRank(lane: Lane): nat {
    match lane
    case Deterministic => 0
    case ArtifactCache => 0
    case CheapModel => 1
    case BackgroundBatch => 1
    case BalancedModel => 2
    case PremiumModel => 3
  }

  /** The one lane costs more than the other. */
  predicate Dearer(a: Lane, b: Lane) {
    || (a == PremiumModel && b != PremiumModel)
    || (a == BalancedModel && b != PremiumModel && b != BalancedModel)
    || ((a == CheapModel || a == BackgroundBatch) && (b == Deterministic || b == ArtifactCache))
  }

  lemma RankIsCost(a: Lane, b: Lane)
    ensures LaneRank(a) > LaneRank(b) <==> Dearer(a, b)
  {
  }

  function LowerLane(lane: Lane): (r: Lane)
    ensures LaneRank(r) <= LaneRank(lane)
    ensures r == lane <==> LaneRank(lane) <= 1
  {
    match lane
    case PremiumModel => BalancedModel
    case BalancedModel => CheapModel
    case _ => lane
  }

  // Normalising single values.

  /** `value?.trim().toLowerCase()` with undefined as the empty text. */
  function Slug(value: Option<string>): string { Lower(TrimmedText(value)) }

  function NormalKey(value: Option<string>, fallback: string): string {
    if Slug(value) == "" then fallback else Slug(value)
  }

  function ResolveScope(tenantSlug: Option<string>, workspaceSlug: Option<string>): Result<Scope, PolicyError> {
    if Slug(tenantSlug) == "" then Failure(MissingTenantSlug)
    else Success(Scope(Slug(tenantSlug), if Slug(workspaceSlug) == "" then None else Some(Slug(workspaceSlug))))
  }

  function NonNegativeInteger(value: Number): (r: nat)
    ensures r > 0 ==> value.Finite? && r as real <= value.value < r as real + 1.0
  {
    if value.Finite? && value.value > 0.0 then value.value.Floor else 0
  }

  // The columns' texts.

  function LaneText(lane: Lane): string {
    match lane
    case Deterministic => "deterministic"
    case ArtifactCache => "artifact-cache"
    case CheapModel => "cheap-model"
    case BalancedModel => "balanced-model"
    case PremiumModel => "premium-model"
    case BackgroundBatch => "background-batch"
  }

  function ReadLane(text: string, fallback: Lane): Lane {
    if text == "deterministic" then Deterministic
    else if text == "artifact-cache" then ArtifactCache
    else if text == "cheap-model" then CheapModel
    else if text == "balanced-model" then BalancedModel
    else if text == "premium-model" then PremiumModel
    else if text == "background-batch" then BackgroundBatch
    else fallback
  }

  function PressureText(p: Pressure): string {
    match p
    case NormalPressure => "normal"
    case NearLimit => "near-limit"
    case HardLimit => "hard-limit"
  }

  function ReadPressure(text: string): Option<Pressure> {
    if text == "normal" then Some(NormalPressure)
    else if text == "near-limit" then Some(NearLimit)
    else if text == "hard-limit" then Some(HardLimit)
    else None
  }

  function ModeText(m: CredentialMode): string { if m == Byo then "byo" else "aifut-managed" }

  function ReadMode(text: string): Option<CredentialMode> {
    if text == "aifut-managed" then Some(Managed) else if text == "byo" then Some(Byo) else None
  }

  lemma ColumnTextsRoundTrip(lane: Lane, fallback: Lane, p: Pressure, m: CredentialMode)
    ensures ReadLane(LaneText(lane), fallback) == lane
    ensures ReadPressure(PressureText(p)) == Some(p)
    ensures ReadMode(ModeText(m)) == Some(m)
  {
    assert |LaneText(lane)| > 0 && |PressureText(p)| > 0;
  }

  // Building.

  function BuildRoutingPolicy(input: RoutingInput): Result<RoutingPolicy, PolicyError> {
    var scope := ResolveScope(input.tenantSlug, input.workspaceSlug);
    var defaultLane := input.defaultLane.GetOr(CheapModel);
    var maxLane := input.maxLane.GetOr(BalancedModel);
    if scope.Failure? then Failure(scope.error)
    else if LaneRank(maxLane) < LaneRank(defaultLane) then Failure(MaxLaneBelowDefaultLane)
    else if input.preferredCredentialMode == Some(Byo) && !input.allowByoKeys.GetOr(false) then
      Failure(ByoPreferredButDisabled)
    else
      Success(RoutingPolicy(
        scope.value, NormalKey(input.featureKey, "general"), NormalKey(input.taskType, "general"),
        defaultLane, maxLane, input.deterministicFirst.GetOr(true), input.cacheEnabled.GetOr(true),
        input.preferredCredentialMode.GetOr(Managed), input.allowByoKeys.GetOr(false),
        input.downgradeAt.GetOr(NearLimit),
        if input.requireApprovalAboveLane.Some? then input.requireApprovalAboveLane
        else if LaneRank(maxLane) >= LaneRank(PremiumModel) then Some(BalancedModel) else None,
        NormalKey(input.source, "aifut-policy")))
  }

  function BuildBudgetPolicy(input: BudgetInput): Result<BudgetPolicy, PolicyError> {
    var scope := ResolveScope(input.tenantSlug, input.workspaceSlug);
    var budget := NonNegativeInteger(input.monthlyTokenBudget);
    var hardLimit := NonNegativeInteger(input.hardMonthlyTokenLimit);
    if scope.Failure? then Failure(scope.error)
    else if hardLimit > 0 && hardLimit < budget then Failure(HardLimitBelowBudget)
    else
      Success(BudgetPolicy(scope.value, NormalKey(input.featureKey, "general"), budget, hardLimit,
                           NonNegativeInteger(input.premiumExecutionCap), input.blockOnHardLimit.GetOr(true),
                           NonNegativeNumber(input.requireApprovalAtProjectedCost),
                           NormalKey(input.source, "aifut-budget")))
  }

  // Storing and reading back.

  /** `${a}:${b}` */
  function Colon(a: string, b: string): string { a + [':'] + b }

  function ScopeKey(s: Scope): string {
    match s.workspaceSlug
    case Some(w) => Colon(Colon(s.tenantSlug, "workspace"), w)
    case None => Colon(Colon(s.tenantSlug, "tenant"), "default")
  }

  function FeatureKey(s: Scope, featureKey: string): string { Colon(Colon(ScopeKey(s), "feature"), featureKey) }

  function RoutingKey(s: Scope, featureKey: string, taskType: string): string {
    Colon(Colon(FeatureKey(s, featureKey), "task"), taskType)
  }

  function BudgetKey(s: Scope, featureKey: string): string { Colon(FeatureKey(s, featureKey), "budget") }

  function ScopeTypeText(s: Scope): string { if s.workspaceSlug.Some? then "workspace" else "tenant" }

  function RoutingRowOf(p: RoutingPolicy): RoutingRow {
    RoutingRow(RoutingKey(p.scope, p.featureKey, p.taskType), ScopeTypeText(p.scope), p.scope.tenantSlug,
               p.scope.workspaceSlug, p.featureKey, p.taskType, LaneText(p.defaultLane), LaneText(p.maxLane),
               ModeText(p.preferredCredentialMode), p.allowByoKeys,
               match p.requireApprovalAboveLane case None => None case Some(l) => Some(LaneText(l)),
               PressureText(p.downgradeAt), p.cacheEnabled, p.deterministicFirst, p.source)
  }

  function ReadRoutingRow(r: RoutingRow): Result<RoutingPolicy, PolicyError> {
    BuildRoutingPolicy(RoutingInput(
      Some(r.tenantSlug), r.workspaceSlug, Some(r.featureKey), Some(r.taskType),
      Some(ReadLane(r.defaultLane, CheapModel)), Some(ReadLane(r.maxLane, BalancedModel)),
      ReadMode(r.preferredCredentialMode), Some(r.allowByoKeys),
      match r.requireApprovalAboveLane case None => None case Some(text) => Some(ReadLane(text, BalancedModel)),
      ReadPressure(r.downgradeAt), Some(r.cacheEnabled), Some(r.deterministicFirst), Some(r.source)))
  }

  function BudgetRowOf(p: BudgetPolicy): BudgetRow {
    BudgetRow(BudgetKey(p.scope, p.featureKey), ScopeTypeText(p.scope), p.scope.tenantSlug, p.scope.workspaceSlug,
              p.featureKey, p.monthlyTokenBudget as real, p.hardMonthlyTokenLimit as real,
              p.premiumExecutionCap as real, p.blockOnHardLimit, p.requireApprovalAtProjectedCost, p.source)
  }

  function ReadBudgetRow(r: BudgetRow): Result<BudgetPolicy, PolicyError> {
    BuildBudgetPolicy(BudgetInput(
      Some(r.tenantSlug), r.workspaceSlug, Some(r.featureKey), Finite(r.monthlyTokenBudget),
      Finite(r.hardMonthlyTokenLimit), Finite(r.premiumExecutionCap), Some(r.blockOnHardLimit),
      Finite(r.requireApprovalAtProjectedCost), Some(r.source)))
  }

  lemma SlugIsFixed(value: Option<string>)
    ensures Slug(Some(Slug(value))) == Slug(value)
  {
    match value
    case None => LowerTrimIdempotent("");
    case Some(s) => LowerTrimIdempotent(s);
  }

  lemma KeyIsFixed(value: Option<string>, fallback: string)
    requires Slug(Some(fallback)) == fallback && fallback != ""
    ensures NormalKey(Some(NormalKey(value, fallback)), fallback) == NormalKey(value, fallback)
    ensures NormalKey(value, fallback) != "" && Slug(Some(NormalKey(value, fallback))) == NormalKey(value, fallback)
  {
    SlugIsFixed(value);
  }

  predicate Plain(c: char) { 'a' <= c <= 'z' || c == '-' }

  lemma PlainLaws(c: char)
    requires Plain(c)
    ensures !IsSpace(c) && LowerChar(c) == c
  {
  }

  lemma PlainIsTrimmed(s: string)
    requires forall i :: 0 <= i < |s| ==> Plain(s[i])
    ensures Trimmed(s)
  {
    if s != "" {
      PlainLaws(s[0]);
      PlainLaws(s[|s| - 1]);
    }
  }

  lemma PlainIsLower(s: string)
    requires forall i :: 0 <= i < |s| ==> Plain(s[i])
    ensures Lower(s) == s
  {
    hide Plain, LowerChar;
    forall i | 0 <= i < |s| ensures Lower(s)[i] == s[i] {
      PlainLaws(s[i]);
    }
  }

  lemma PlainIsFixed(s: string)
    requires forall i :: 0 <= i < |s| ==> Plain(s[i])
    ensures Slug(Some(s)) == s
  {
    hide Plain, Lower, Trim, Trimmed;
    PlainIsTrimmed(s);
    PlainIsLower(s);
    TrimLaws(s);
  }

  lemma FallbacksAreFixed()
    ensures Slug(Some("general")) == "general" && Slug(Some("aifut-policy")) == "aifut-policy"
    ensures Slug(Some("aifut-budget")) == "aifut-budget"
  {
    hide Slug;
    PlainIsFixed("general");
    PlainIsFixed("aifut-policy");
    PlainIsFixed("aifut-budget");
  }

  lemma ScopeIsFixed(tenantSlug: Option<string>, workspaceSlug: Option<string>)
    requires ResolveScope(tenantSlug, workspaceSlug).Success?
    ensures var s := ResolveScope(tenantSlug, workspaceSlug).value;
            ResolveScope(Some(s.tenantSlug), s.workspaceSlug) == Success(s)
  {
    SlugIsFixed(tenantSlug);
    SlugIsFixed(workspaceSlug);
  }

  /** Build, store and read back is the identity on routing policies: the reading never throws. */
  lemma RoutingPolicyRoundTrip(input: RoutingInput)
    requires BuildRoutingPolicy(input).Success?
    ensures var p := BuildRoutingPolicy(input).value; ReadRoutingRow(RoutingRowOf(p)) == Success(p)
  {
    hide Slug, LaneText, ReadLane, PressureText, ReadPressure, ModeText, ReadMode;
    var p := BuildRoutingPolicy(input).value;
    FallbacksAreFixed();
    ScopeIsFixed(input.tenantSlug, input.workspaceSlug);
    KeyIsFixed(input.featureKey, "general");
    KeyIsFixed(input.taskType, "general");
    KeyIsFixed(input.source, "aifut-policy");
    ColumnTextsRoundTrip(p.defaultLane, CheapModel, p.downgradeAt, p.preferredCredentialMode);
    ColumnTextsRoundTrip(p.maxLane, BalancedModel, p.downgradeAt, p.preferredCredentialMode);
    if p.requireApprovalAboveLane.Some? {
      ColumnTextsRoundTrip(p.requireApprovalAboveLane.value, BalancedModel, p.downgradeAt, p.preferredCredentialMode);
    }
  }

  /** Build, store and read back is the identity on budget policies. */
  lemma BudgetPolicyRoundTrip(input: BudgetInput)
    requires BuildBudgetPolicy(input).Success?
    ensures var p := BuildBudgetPolicy(input).value; ReadBudgetRow(BudgetRowOf(p)) == Success(p)
  {
    hide Slug;
    FallbacksAreFixed();
    ScopeIsFixed(input.tenantSlug, input.workspaceSlug);
    KeyIsFixed(input.featureKey, "general");
    KeyIsFixed(input.source, "aifut-budget");
  }

  /** What the builders guarantee of every policy they return. */
  lemma BuiltPoliciesAreSound(routing: RoutingInput, budget: BudgetInput)
    ensures BuildRoutingPolicy(routing).Success? ==>
              var p := BuildRoutingPolicy(routing).value;
              && LaneRank(p.defaultLane) <= LaneRank(p.maxLane)
              && (p.preferredCredentialMode == Byo ==> p.allowByoKeys)
              && (p.maxLane == PremiumModel ==> p.requireApprovalAboveLane.Some?)
    ensures BuildBudgetPolicy(budget).Success? ==>
              var p := BuildBudgetPolicy(budget).value;
              p.hardMonthlyTokenLimit == 0 || p.monthlyTokenBudget <= p.hardMonthlyTokenLimit
  {
  }

  /** When a routing policy is refused, and what every field of a built one is. */
  lemma BuiltRoutingIs(input: RoutingInput)
    ensures var built := BuildRoutingPolicy(input);
            var lane, most := input.defaultLane.GetOr(CheapModel), input.maxLane.GetOr(BalancedModel);
            && (built == Failure(MissingTenantSlug) <==> Slug(input.tenantSlug) == "")
            && (built == Failure(MaxLaneBelowDefaultLane) <==> Slug(input.tenantSlug) != "" && Dearer(lane, most))
            && (built == Failure(ByoPreferredButDisabled) <==>
                  && Slug(input.tenantSlug) != "" && !Dearer(lane, most)
                  && input.preferredCredentialMode == Some(Byo) && input.allowByoKeys != Some(true))
            && (built.Success? ==> RoutingTakes(built.value, input))
  {
    hide Slug, NormalKey;
    RankIsCost(input.defaultLane.GetOr(CheapModel), input.maxLane.GetOr(BalancedModel));
  }

  predicate RoutingTakes(p: RoutingPolicy, input: RoutingInput) {
    && p.scope.tenantSlug == Slug(input.tenantSlug)
    && (p.scope.workspaceSlug == if Slug(input.workspaceSlug) == "" then None else Some(Slug(input.workspaceSlug)))
    && p.featureKey == NormalKey(input.featureKey, "general") && p.taskType == NormalKey(input.taskType, "general")
    && p.source == NormalKey(input.source, "aifut-policy")
    && (if input.defaultLane.Some? then Some(p.defaultLane) == input.defaultLane else p.defaultLane == CheapModel)
    && (if input.maxLane.Some? then Some(p.maxLane) == input.maxLane else p.maxLane == BalancedModel)
    && (p.deterministicFirst <==> input.deterministicFirst != Some(false))
    && (p.cacheEnabled <==> input.cacheEnabled != Some(false))
    && (p.allowByoKeys <==> input.allowByoKeys == Some(true))
    && (p.preferredCredentialMode == Byo <==> input.preferredCredentialMode == Some(Byo))
    && (if input.downgradeAt.Some? then Some(p.downgradeAt) == input.downgradeAt else p.downgradeAt == NearLimit)
    && (if input.requireApprovalAboveLane.Some? then p.requireApprovalAboveLane == input.requireApprovalAboveLane
        else p.requireApprovalAboveLane == if p.maxLane == PremiumModel then Some(BalancedModel) else None)
  }

  /** When a budget policy is refused, and what every field of a built one is. */
  lemma BuiltBudgetIs(input: BudgetInput)
    ensures var built := BuildBudgetPolicy(input);
            var soft, hard := NonNegativeInteger(input.monthlyTokenBudget),
                              NonNegativeInteger(input.hardMonthlyTokenLimit);
            && (built == Failure(MissingTenantSlug) <==> Slug(input.tenantSlug) == "")
            && (built == Failure(HardLimitBelowBudget) <==> Slug(input.tenantSlug) != "" && 0 < hard < soft)
            && (built.Success? ==> BudgetTakes(built.value, input) && built.value.monthlyTokenBudget == soft
                                   && built.value.hardMonthlyTokenLimit == hard)
  {
    hide Slug, NormalKey, NonNegativeInteger;
  }

  predicate BudgetTakes(p: BudgetPolicy, input: BudgetInput) {
    && p.scope.tenantSlug == Slug(input.tenantSlug)
    && (p.scope.workspaceSlug == if Slug(input.workspaceSlug) == "" then None else Some(Slug(input.workspaceSlug)))
    && p.featureKey == NormalKey(input.featureKey, "general") && p.source == NormalKey(input.source, "aifut-budget")
    && p.premiumExecutionCap == NonNegativeInteger(input.premiumExecutionCap)
    && (p.blockOnHardLimit <==> input.blockOnHardLimit != Some(false))
    && (p.requireApprovalAtProjectedCost == 0.0
        || Finite(p.requireApprovalAtProjectedCost) == input.requireApprovalAtProjectedCost)
    && (input.requireApprovalAtProjectedCost.Finite? && input.requireApprovalAtProjectedCost.value > 0.0 ==>
          p.requireApprovalAtProjectedCost == input.requireApprovalAtProjectedCost.value)
  }

  /** A count is the whole part of a positive number, and zero for anything else. */
  lemma CountIs(value: Number)
    ensures var n := NonNegativeInteger(value);
            if value.Finite? && value.value > 0.0 then n as real <= value.value < n as real + 1.0 else n == 0
  {
  }

  /** A slug is the trimmed text in lower case; a key falls back to its default when that is empty. */
  lemma SlugIs(value: Option<string>, fallback: string)
    ensures var text := TrimmedText(value);
            && |Slug(value)| == |text| && (forall i :: 0 <= i < |text| ==> Slug(value)[i] == LowerChar(text[i]))
            && NormalKey(value, fallback) == if text == "" then fallback else Slug(value)
  {
  }

  // Keys.

  function ScopeParts(s: Scope): seq<string> {
    match s.workspaceSlug
    case Some(w) => [s.tenantSlug, "workspace", w]
    case None => [s.tenantSlug, "tenant", "default"]
  }

  predicate ColonFreeScope(s: Scope) {
    Lacks(s.tenantSlug, ':') && (s.workspaceSlug.Some? ==> Lacks(s.workspaceSlug.value, ':'))
  }

  function FeatureParts(s: Scope, featureKey: string): seq<string> { ScopeParts(s) + ["feature"] + [featureKey] }

  function RoutingParts(s: Scope, featureKey: string, taskType: string): seq<string> {
    FeatureParts(s, featureKey) + ["task"] + [taskType]
  }

  function BudgetParts(s: Scope, featureKey: string): seq<string> { FeatureParts(s, featureKey) + ["budget"] }

  lemma ScopeKeyIsJoin(s: Scope)
    ensures ScopeKey(s) == Join(ScopeParts(s), ':')
  {
    var p := ScopeParts(s);
    JoinPush([p[0]], p[1], ':');
    JoinPush([p[0], p[1]], p[2], ':');
    assert [p[0]] + [p[1]] == [p[0], p[1]] && [p[0], p[1]] + [p[2]] == p;
  }

  lemma FeatureKeyIsJoin(s: Scope, featureKey: string)
    ensures FeatureKey(s, featureKey) == Join(FeatureParts(s, featureKey), ':')
  {
    hide Join, ScopeKey;
    ScopeKeyIsJoin(s);
    JoinPush(ScopeParts(s), "feature", ':');
    JoinPush(ScopeParts(s) + ["feature"], featureKey, ':');
  }

  lemma RoutingKeyIsJoin(s: Scope, featureKey: string, taskType: string)
    ensures RoutingKey(s, featureKey, taskType) == Join(RoutingParts(s, featureKey, taskType), ':')
  {
    hide Join, FeatureKey;
    FeatureKeyIsJoin(s, featureKey);
    JoinPush(FeatureParts(s, featureKey), "task", ':');
    JoinPush(FeatureParts(s, featureKey) + ["task"], taskType, ':');
  }

  lemma BudgetKeyIsJoin(s: Scope, featureKey: string)
    ensures BudgetKey(s, featureKey) == Join(BudgetParts(s, featureKey), ':')
  {
    hide Join, FeatureKey;
    FeatureKeyIsJoin(s, featureKey);
    JoinPush(FeatureParts(s, featureKey), "budget", ':');
  }

  lemma FixedPartsLackColons()
    ensures Lacks("workspace", ':') && Lacks("tenant", ':') && Lacks("default", ':')
    ensures Lacks("feature", ':') && Lacks("task", ':') && Lacks("budget", ':')
    ensures "workspace" != "tenant"
  {
    assert |"workspace"| != |"tenant"|;
  }

  lemma FeaturePartsLackColons(s: Scope, featureKey: string)
    requires ColonFreeScope(s) && Lacks(featureKey, ':')
    ensures forall i :: 0 <= i < |FeatureParts(s, featureKey)| ==> Lacks(FeatureParts(s, featureKey)[i], ':')
  {
    hide Lacks;
    FixedPartsLackColons();
  }

  /** A key without ':' in its slugs can be taken apart again. */
  lemma RoutingKeySplits(s: Scope, f: string, t: string)
    requires ColonFreeScope(s) && Lacks(f, ':') && Lacks(t, ':')
    ensures Split(RoutingKey(s, f, t), ':') == RoutingParts(s, f, t)
  {
    hide Lacks, RoutingKey;
    RoutingKeyIsJoin(s, f, t);
    FeaturePartsLackColons(s, f);
    FixedPartsLackColons();
    SplitJoin(RoutingParts(s, f, t), ':');
  }

  lemma BudgetKeySplits(s: Scope, f: string)
    requires ColonFreeScope(s) && Lacks(f, ':')
    ensures Split(BudgetKey(s, f), ':') == BudgetParts(s, f)
  {
    hide Lacks, BudgetKey;
    BudgetKeyIsJoin(s, f);
    FeaturePartsLackColons(s, f);
    FixedPartsLackColons();
    SplitJoin(BudgetParts(s, f), ':');
  }

  /** Without ':' in its slugs and keys, a policy key belongs to no other scope, feature and task whatever. */
  lemma RoutingKeyIsInjective(s: Scope, f: string, t: string, s': Scope, f': string, t': string)
    requires ColonFreeScope(s) && Lacks(f, ':') && Lacks(t, ':')
    ensures RoutingKey(s, f, t) == RoutingKey(s', f', t') <==> s == s' && f == f' && t == t'
  {
    hide RoutingKey, Lacks, Split, Join;
    if RoutingKey(s, f, t) == RoutingKey(s', f', t') {
      RoutingKeySplits(s, f, t);
      RoutingKeyIsJoin(s', f', t');
      PiecesOfJoin(RoutingParts(s', f', t'), ':');
      SplitJoin(RoutingParts(s', f', t'), ':');
      SameRoutingParts(s, f, t, s', f', t');
    }
  }

  lemma SameRoutingParts(s: Scope, f: string, t: string, s': Scope, f': string, t': string)
    requires RoutingParts(s, f, t) == RoutingParts(s', f', t')
    ensures s == s' && f == f' && t == t'
  {
    var a, b := RoutingParts(s, f, t), RoutingParts(s', f', t');
    assert a[0] == b[0] && a[1] == b[1] && a[2] == b[2] && a[4] == b[4] && a[6] == b[6];
    FixedPartsLackColons();
  }

  lemma SameBudgetParts(s: Scope, f: string, s': Scope, f': string)
    requires BudgetParts(s, f) == BudgetParts(s', f')
    ensures s == s' && f == f'
  {
    var a, b := BudgetParts(s, f), BudgetParts(s', f');
    assert a[0] == b[0] && a[1] == b[1] && a[2] == b[2] && a[4] == b[4];
    FixedPartsLackColons();
  }

  lemma BudgetKeyIsInjective(s: Scope, f: string, s': Scope, f': string)
    requires ColonFreeScope(s) && Lacks(f, ':')
    ensures BudgetKey(s, f) == BudgetKey(s', f') <==> s == s' && f == f'
  {
    hide BudgetKey, Lacks, Split, Join;
    if BudgetKey(s, f) == BudgetKey(s', f') {
      BudgetKeySplits(s, f);
      BudgetKeyIsJoin(s', f');
      PiecesOfJoin(BudgetParts(s', f'), ':');
      SplitJoin(BudgetParts(s', f'), ':');
      SameBudgetParts(s, f, s', f');
    }
  }

  // When a policy key stands for more than one policy.

  function KeyOf(id: PolicyId): string {
    match id.taskType
    case Some(t) => RoutingKey(id.scope, id.featureKey, t)
    case None => BudgetKey(id.scope, id.featureKey)
  }

  /** The parts of a key between its fixed words; nothing follows the `:budget` of a budget key. */
  function KeyFields(id: PolicyId): seq<string> {
    (match id.scope.workspaceSlug
     case Some(w) => [id.scope.tenantSlug, w]
     case None => [id.scope.tenantSlug])
    + [id.featureKey, id.taskType.GetOr("")]
  }

  function Between(word: string): string { [':'] + word + [':'] }

  /** The fixed words of a key, by the kind of its scope and of its policy. */
  function KeySeparators(scoped: bool, routing: bool): seq<string> {
    (if scoped then [Between("workspace"), Between("feature")]
     else [Between("tenant") + "default" + Between("feature")])
    + [if routing then Between("task") else [':'] + "budget"]
  }

  /** The policy that a list of fields names. */
  function IdOf(scoped: bool, routing: bool, fields: seq<string>): PolicyId
    requires |fields| == if scoped then 4 else 3
  {
    var scope := Scope(fields[0], if scoped then Some(fields[1]) else None);
    PolicyId(scope, fields[|fields| - 2], if routing then Some(fields[|fields| - 1]) else None)
  }

  lemma KeyIsWoven(id: PolicyId)
    ensures KeyOf(id) == Weave(KeyFields(id), KeySeparators(id.scope.workspaceSlug.Some?, id.taskType.Some?))
    ensures IdOf(id.scope.workspaceSlug.Some?, id.taskType.Some?, KeyFields(id)) == id
  {
    hide Weave, Lengths, ScopeKey, RoutingKey, BudgetKey, Between;
    var head, f, t := id.scope.tenantSlug, id.featureKey, id.taskType.GetOr("");
    var feature, last := Between("feature"), if id.taskType.Some? then Between("task") else [':'] + "budget";
    WeaveTwo(f, t, last);
    LastPartText(id);
    ScopeText(id.scope);
    match id.scope.workspaceSlug
    case Some(w) =>
      var seps := KeySeparators(true, id.taskType.Some?);
      WeaveFirst(w, [f, t], [feature, last]);
      WeaveFirst(head, [w, f, t], seps);
      assert KeyFields(id) == [head] + [w, f, t] && [w, f, t] == [w] + [f, t];
      assert seps[1..] == [feature, last] && [feature, last][1..] == [last];
      Regroup(head + Between("workspace"), w, feature, f + last + t);
    case None =>
      var seps := KeySeparators(false, id.taskType.Some?);
      WeaveFirst(head, [f, t], seps);
      assert KeyFields(id) == [head] + [f, t] && seps[1..] == [last];
      Regroup(head, Between("tenant") + "default", feature, f + last + t);
  }

  lemma Regroup(a: string, b: string, c: string, d: string)
    ensures a + b + c + d == a + (b + c + d) == a + (b + c) + d
  {
  }

  lemma ColonTwice(a: string, word: string, b: string)
    ensures Colon(Colon(a, word), b) == a + Between(word) + b
    ensures a + Between(word) + b == a + (Between(word) + b)
  {
  }

  lemma ScopeText(s: Scope)
    ensures ScopeKey(s) == match s.workspaceSlug
                           case Some(w) => s.tenantSlug + Between("workspace") + w
                           case None => s.tenantSlug + (Between("tenant") + "default")
  {
    hide Between, Colon;
    match s.workspaceSlug
    case Some(w) => ColonTwice(s.tenantSlug, "workspace", w);
    case None => ColonTwice(s.tenantSlug, "tenant", "default");
  }

  lemma LastPartText(id: PolicyId)
    ensures var last := if id.taskType.Some? then Between("task") else [':'] + "budget";
            KeyOf(id) == ScopeKey(id.scope) + Between("feature") + (id.featureKey + last + id.taskType.GetOr(""))
  {
    hide ScopeKey, Between;
    var s, f, feature := id.scope, id.featureKey, Between("feature");
    ColonTwice(ScopeKey(s), "feature", f);
    match id.taskType
    case Some(t) =>
      ColonTwice(FeatureKey(s, f), "task", t);
      Regroup(ScopeKey(s) + feature, f, Between("task"), t);
    case None =>
      assert BudgetKey(s, f) == FeatureKey(s, f) + ([':'] + "budget") + "";
      Regroup(ScopeKey(s) + feature, f, [':'] + "budget", "");
  }

  /** Slugs and keys as the builder writes them. */
  predicate Canonical(id: PolicyId) {
    && ResolveScope(Some(id.scope.tenantSlug), id.scope.workspaceSlug) == Success(id.scope)
    && NormalKey(Some(id.featureKey), "general") == id.featureKey
    && (id.taskType.Some? ==> NormalKey(id.taskType, "general") == id.taskType.value)
  }

  /**
   A reading of a key of the given kind: a cut for one of the two kinds of scope into slugs and keys as the builder
   writes them.
   */
  predicate IsReading(key: string, scoped: bool, routing: bool, at: seq<nat>) {
    var seps := KeySeparators(scoped, routing);
    && IsCut(key, seps, at)
    && Canonical(IdOf(scoped, routing, Pieces(key, seps, at)))
    && (routing || Pieces(key, seps, at)[|seps|] == "")
  }

  /** Two policies of one kind share a key exactly when the text of the key has a second reading. */
  lemma KeyIsAmbiguousIff(id: PolicyId)
    ensures var routing := id.taskType.Some?;
            (exists other :: Canonical(other) && other != id && other.taskType.Some? == routing
                             && KeyOf(other) == KeyOf(id)) <==>
            (exists scoped, at :: IsReading(KeyOf(id), scoped, routing, at)
                                  && !(scoped == id.scope.workspaceSlug.Some? && at == Lengths(KeyFields(id))))
  {
    hide KeyOf, IsReading, Canonical, Lengths;
    var key, own, routing := KeyOf(id), id.scope.workspaceSlug.Some?, id.taskType.Some?;
    if other :| Canonical(other) && other != id && other.taskType.Some? == routing && KeyOf(other) == key {
      OtherIsReading(id, other);
    }
    if scoped, at :| IsReading(key, scoped, routing, at) && !(scoped == own && at == Lengths(KeyFields(id))) {
      var other := ReadingIsOther(id, scoped, at);
    }
  }

  lemma OtherIsReading(id: PolicyId, other: PolicyId)
    requires Canonical(other) && other != id && other.taskType.Some? == id.taskType.Some? && KeyOf(other) == KeyOf(id)
    ensures var scoped, at := other.scope.workspaceSlug.Some?, Lengths(KeyFields(other));
            && IsReading(KeyOf(id), scoped, id.taskType.Some?, at)
            && !(scoped == id.scope.workspaceSlug.Some? && at == Lengths(KeyFields(id)))
  {
    hide Weave, IsCut, Pieces, Lengths, Canonical, KeyOf, Between;
    var scoped, routing := other.scope.workspaceSlug.Some?, id.taskType.Some?;
    KeyIsWoven(id);
    KeyIsWoven(other);
    ReadingIsCut(KeyFields(id), KeySeparators(id.scope.workspaceSlug.Some?, routing));
    ReadingIsCut(KeyFields(other), KeySeparators(scoped, routing));
  }

  lemma ReadingIsOther(id: PolicyId, scoped: bool, at: seq<nat>) returns (other: PolicyId)
    requires IsReading(KeyOf(id), scoped, id.taskType.Some?, at)
    requires !(scoped == id.scope.workspaceSlug.Some? && at == Lengths(KeyFields(id)))
    ensures Canonical(other) && other != id && other.taskType.Some? == id.taskType.Some? && KeyOf(other) == KeyOf(id)
  {
    hide Weave, IsCut, Pieces, Lengths, Canonical, KeyOf, Between;
    var routing := id.taskType.Some?;
    var seps := KeySeparators(scoped, routing);
    var fields := Pieces(KeyOf(id), seps, at);
    other := IdOf(scoped, routing, fields);
    CutIsReading(KeyOf(id), seps, at);
    KeyIsWoven(other);
    assert KeyFields(other) == fields;
  }

  /** With ':' allowed, two different policies can share a key. */
  lemma RoutingKeysCanCollide(s: Scope)
    ensures RoutingKey(s, "x:task:y", "z") == RoutingKey(s, "x", "y:task:z")
  {
    var head := Colon(ScopeKey(s), "feature") + [':'];
    assert RoutingKey(s, "x:task:y", "z") == head + "x:task:y:task:z";
    assert RoutingKey(s, "x", "y:task:z") == head + "x:task:y:task:z";
  }
}
