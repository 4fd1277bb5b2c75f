/**
 The token governance service's policies and its usage estimate: what a package's included tokens cover, what is left
 to charge, and how both add up over a month of usages.
 */
module TokenQuota {
  import opened Wrappers
  import opened Lists
  import opened Text
  import opened Contracts
  import opened Policy
  import Normalisation

  datatype ModelInput = ModelInput(providerKey: Option<string>, modelKey: Option<string>, inputTokenCost: Number,
                                   outputTokenCost: Number, markupPercent: Number, allowedModes: Option<seq<string>>)
  datatype PackageInput = PackageInput(packageKey: Option<string>, includedMonthlyTokens: Number, allowByoKeys: bool,
                                       platformFeePercentForByo: Number, hardMonthlyTokenLimit: Number,
                                       allowedModelKeys: Option<seq<string>>)

  datatype Model = Model(providerKey: string, modelKey: string, inputTokenCost: real, outputTokenCost: real,
                         markupPercent: real, allowedModes: seq<CredentialMode>)
  datatype Package = Package(packageKey: string, included: nat, hardLimit: nat, allowByoKeys: bool, byoFeePercent: real,
                             allowedModelKeys: seq<string>)

  datatype QuotaError =
    | PackageRequired
    | ModelRequired
    | MissingPackageKey
    | HardLimitBelowIncluded
    | MissingProviderKey
    | MissingModelKey
    | ModeNotAllowed(mode: CredentialMode)
    | ByoNotAllowed
    | ModelNotAllowed(modelKey: string)
    | LimitExceeded(limit: nat)
    | NoModelFor(mode: CredentialMode)

  predicate Named(v: string) { v != "" }

  function Itself(v: string): string { v }

  /** Trimmed, without empty or repeated entries. */
  function NormalList(values: Option<seq<string>>): seq<string> {
    match values
    case None => []
    case Some(list) => FirstOfEachKey(Filter(Map(list, Trim), Named), Itself)
  }

  predicate KnownMode(text: string) { ReadMode(text).Some? }

  function ModeNamed(text: string): CredentialMode { if ReadMode(text) == Some(Byo) then Byo else Managed }

  /** No list, or an empty one, means managed credentials; unknown modes are dropped, possibly all of them. */
  function NormalModes(values: Option<seq<string>>): seq<CredentialMode> {
    var modes := NormalList(values);
    if modes == [] then [Managed]
    else Map(Filter(modes, KnownMode), ModeNamed)
  }

  function BuildModel(input: ModelInput): Result<Model, QuotaError> {
    if TrimmedText(input.providerKey) == "" then Failure(MissingProviderKey)
    else if TrimmedText(input.modelKey) == "" then Failure(MissingModelKey)
    else Success(Model(TrimmedText(input.providerKey), TrimmedText(input.modelKey),
                       NonNegativeNumber(input.inputTokenCost), NonNegativeNumber(input.outputTokenCost),
                       NonNegativeNumber(input.markupPercent), NormalModes(input.allowedModes)))
  }

  function BuildPackage(input: PackageInput): Result<Package, QuotaError> {
    var included := NonNegativeInteger(input.includedMonthlyTokens);
    var hardLimit := NonNegativeInteger(input.hardMonthlyTokenLimit);
    if TrimmedText(input.packageKey) == "" then Failure(MissingPackageKey)
    else if hardLimit > 0 && hardLimit < included then Failure(HardLimitBelowIncluded)
    else Success(Package(TrimmedText(input.packageKey), included, hardLimit, input.allowByoKeys,
                         NonNegativeNumber(input.platformFeePercentForByo), NormalList(input.allowedModelKeys)))
  }

  function Max(a: int, b: int): int { if a >= b then a else b }
  function Min(a: int, b: int): int { if a <= b then a else b }

  datatype Estimate = Estimate(totalTokens: nat, projectedMonthlyTokens: nat, remainingBefore: nat, covered: nat,
                               overage: nat, remaining: nat, rawProviderCost: real, chargeableProviderCost: real,
                               markupAmount: real, estimatedCharge: real)

  /** The tokens of one usage. */
  datatype Usage = Usage(inputTokens: nat, outputTokens: nat) {
    function Total(): nat { inputTokens + outputTokens }
  }

  function RawCost(m: Model, u: Usage): real {
    u.inputTokens as real * m.inputTokenCost + u.outputTokens as real * m.outputTokenCost
  }

  function Share(part: nat, total: nat): real { if total > 0 then part as real / total as real else 0.0 }

  function Part(amount: real, share: real): real { amount * share }

  function Percent(percent: real, amount: real): real { amount * (percent / 100.0) }

  /** The arithmetic of an estimate, once the policies allow the usage. */
  function EstimateFor(p: Package, m: Model, mode: CredentialMode, u: Usage, used: nat): Estimate {
    var total := u.Total();
    var remainingBefore := Max(p.included - used, 0);
    var covered := if mode == Managed then Min(total, remainingBefore) else 0;
    var overage := Max(total - covered, 0);
    var chargeable := Part(if mode == Managed then RawCost(m, u) else 0.0, Share(overage, total));
    var markup := if mode == Managed then Percent(m.markupPercent, chargeable)
                  else Percent(p.byoFeePercent, RawCost(m, u));
    Estimate(total, used + total, remainingBefore, covered, overage, Max(p.included - (used + total), 0),
             RawCost(m, u), chargeable, markup, chargeable + markup)
  }

  /** Whether the policies allow the usage, in the order of the checks. */
  function CheckUsage(p: Package, m: Model, mode: CredentialMode, u: Usage, used: nat): Option<QuotaError> {
    if mode !in m.allowedModes then Some(ModeNotAllowed(mode))
    else if mode == Byo && !p.allowByoKeys then Some(ByoNotAllowed)
    else if p.allowedModelKeys != [] && m.modelKey !in p.allowedModelKeys then Some(ModelNotAllowed(m.modelKey))
    else if p.hardLimit > 0 && used + u.Total() > p.hardLimit then Some(LimitExceeded(p.hardLimit))
    else None
  }

  datatype UsageInput = UsageInput(package: Option<PackageInput>, model: Option<ModelInput>,
                                   mode: Option<CredentialMode>, inputTokens: Number, outputTokens: Number,
                                   alreadyUsed: Number)

  function EstimateUsage(input: UsageInput): Result<Estimate, QuotaError> {
    if input.package.None? then Failure(PackageRequired)
    else if input.model.None? then Failure(ModelRequired)
    else
      var p := BuildPackage(input.package.value);
      if p.Failure? then Failure(p.error)
      else
        var m := BuildModel(input.model.value);
        if m.Failure? then Failure(m.error)
        else
          var mode := input.mode.GetOr(Managed);
          var u := Usage(NonNegativeInteger(input.inputTokens), NonNegativeInteger(input.outputTokens));
          var used := NonNegativeInteger(input.alreadyUsed);
          match CheckUsage(p.value, m.value, mode, u, used)
          case Some(e) => Failure(e)
          case None => Success(EstimateFor(p.value, m.value, mode, u, used))
  }

  /** An accepted estimate never projects past the package's hard limit. */
  lemma AcceptedStaysWithinLimit(input: UsageInput)
    requires EstimateUsage(input).Success?
    ensures var p := BuildPackage(input.package.value).value; var e := EstimateUsage(input).value;
            && (p.hardLimit > 0 ==> e.projectedMonthlyTokens <= p.hardLimit)
            && e.projectedMonthlyTokens == NonNegativeInteger(input.alreadyUsed) + e.totalTokens
            && (p.hardLimit > 0 ==> p.included <= p.hardLimit)
  {
    hide NormalList, TrimmedText, NonNegativeInteger, BuildModel, EstimateFor;
    var p := BuildPackage(input.package.value).value;
    var u := Usage(NonNegativeInteger(input.inputTokens), NonNegativeInteger(input.outputTokens));
    EstimateTotals(p, BuildModel(input.model.value).value, input.mode.GetOr(Managed), u,
                   NonNegativeInteger(input.alreadyUsed));
  }

  lemma EstimateTotals(p: Package, m: Model, mode: CredentialMode, u: Usage, used: nat)
    ensures EstimateFor(p, m, mode, u, used).totalTokens == u.Total()
    ensures EstimateFor(p, m, mode, u, used).projectedMonthlyTokens == used + u.Total()
    ensures CheckUsage(p, m, mode, u, used).None? && p.hardLimit > 0 ==> used + u.Total() <= p.hardLimit
  {
  }

  /** Tokens beyond the included ones, at a level of usage. */
  function Beyond(included: nat, used: nat): nat { Max(used - included, 0) }

  /** Covered and charged tokens make up the usage; the charge is the step of the tokens beyond the included ones. */
  lemma EstimateSplitsTokens(p: Package, m: Model, u: Usage, used: nat)
    ensures var e := EstimateFor(p, m, Managed, u, used);
            && e.covered + e.overage == e.totalTokens == u.Total()
            && e.overage == Beyond(p.included, used + u.Total()) - Beyond(p.included, used)
            && e.covered == e.remainingBefore - e.remaining
  {
  }

  /** The counts of an estimate: with own keys nothing is covered, else as much as is left of the included tokens. */
  lemma CountsAre(p: Package, m: Model, mode: CredentialMode, u: Usage, used: nat)
    ensures var e := EstimateFor(p, m, mode, u, used); var total := u.inputTokens + u.outputTokens;
            && e.totalTokens == total && e.projectedMonthlyTokens == used + total
            && (e.remainingBefore == if used <= p.included then p.included - used else 0)
            && (e.remaining == if used + total <= p.included then p.included - (used + total) else 0)
            && e.covered + e.overage == total && (mode == Byo ==> e.covered == 0)
            && (mode == Managed ==> e.covered == if total <= e.remainingBefore then total else e.remainingBefore)
  {
    hide RawCost, Share;
  }

  /** With own keys only the platform fee on the whole provider cost is charged. */
  lemma OwnKeyChargeIs(p: Package, m: Model, u: Usage, used: nat)
    ensures var e := EstimateFor(p, m, Byo, u, used);
            && e.rawProviderCost == RawCost(m, u) && e.chargeableProviderCost == 0.0
            && e.estimatedCharge == e.markupAmount == RawCost(m, u) * (p.byoFeePercent / 100.0)
  {
    hide RawCost, Share, Max, Min, Part, Percent;
    var e := EstimateFor(p, m, Byo, u, used);
    PartIs(0.0, e.overage, u.Total());
    PercentIs(p.byoFeePercent, RawCost(m, u));
  }

  /** With managed credentials the provider cost of the tokens beyond the included ones is charged. */
  lemma ManagedChargeIs(p: Package, m: Model, u: Usage, used: nat)
    ensures var e := EstimateFor(p, m, Managed, u, used);
            && e.rawProviderCost == RawCost(m, u)
            && e.chargeableProviderCost ==
               if u.Total() > 0 then RawCost(m, u) * (e.overage as real / u.Total() as real) else 0.0
  {
    hide RawCost, Share, Max, Min, Part, Percent;
    PartIs(RawCost(m, u), EstimateFor(p, m, Managed, u, used).overage, u.Total());
  }

  /** That charge is marked up. */
  lemma ManagedMarkupIs(p: Package, m: Model, u: Usage, used: nat)
    ensures var e := EstimateFor(p, m, Managed, u, used);
            && e.markupAmount == e.chargeableProviderCost * (m.markupPercent / 100.0)
            && e.estimatedCharge == e.chargeableProviderCost + e.markupAmount
  {
    hide RawCost, Share, Max, Min, Part, Percent;
    PercentIs(m.markupPercent, EstimateFor(p, m, Managed, u, used).chargeableProviderCost);
  }

  lemma PartIs(amount: real, part: nat, total: nat)
    ensures Part(amount, Share(part, total)) == if total > 0 then amount * (part as real / total as real) else 0.0
    ensures amount == 0.0 ==> Part(amount, Share(part, total)) == 0.0
  {
  }

  lemma PercentIs(percent: real, amount: real)
    ensures Percent(percent, amount) == amount * (percent / 100.0)
  {
  }

  lemma RawCostIs(m: Model, u: Usage)
    ensures RawCost(m, u) == u.inputTokens as real * m.inputTokenCost + u.outputTokens as real * m.outputTokenCost
  {
  }

  /** When the policies refuse a usage, by the first of four reasons. */
  lemma UsageIsRefusedIff(p: Package, m: Model, mode: CredentialMode, u: Usage, used: nat)
    ensures var r := CheckUsage(p, m, mode, u, used);
            var listed := p.allowedModelKeys == [] || m.modelKey in p.allowedModelKeys;
            var over := 0 < p.hardLimit < used + u.inputTokens + u.outputTokens;
            && (r == Some(ModeNotAllowed(mode)) <==> mode !in m.allowedModes)
            && (r == Some(ByoNotAllowed) <==> mode in m.allowedModes && mode == Byo && !p.allowByoKeys)
            && (r == Some(ModelNotAllowed(m.modelKey)) <==>
                  mode in m.allowedModes && (mode == Byo ==> p.allowByoKeys) && !listed)
            && (r == Some(LimitExceeded(p.hardLimit)) <==>
                  mode in m.allowedModes && (mode == Byo ==> p.allowByoKeys) && listed && over)
            && (r == None <==> mode in m.allowedModes && (mode == Byo ==> p.allowByoKeys) && listed && !over)
  {
  }

  /** A list keeps the first of equal texts, trimmed and in order, and no blank one. */
  lemma ListIs(list: seq<string>)
    ensures Normalisation.Normalised(list, NormalList(Some(list)),
                                     (raw: string, text: string) => Normalisation.IsTrimOf(text, Some(raw)),
                                     (raw: string) => !Normalisation.Blank(Some(raw)), Trim)
  {
    hide Normalisation.IsTrimOf, Normalisation.Blank, Trim;
    forall v: string
      ensures Normalisation.IsTrimOf(Trim(v), Some(v)) && (Named(Trim(v)) <==> !Normalisation.Blank(Some(v)))
    {
      Normalisation.TrimmedTextIs(Some(v));
    }
    var at := Normalisation.PipelineNormalises(list, Trim, Named, Itself,
                                               (raw: string, text: string) => Normalisation.IsTrimOf(text, Some(raw)),
                                               (raw: string) => !Normalisation.Blank(Some(raw)), Trim);
  }

  /** The credential modes of a model: managed when none are listed, else the known ones that are. */
  lemma ModesAre(values: Option<seq<string>>, mode: CredentialMode)
    ensures mode in NormalModes(values) <==>
            if NormalList(values) == [] then mode == Managed
            else (if mode == Byo then "byo" else "aifut-managed") in NormalList(values)
  {
    hide NormalList, KnownMode, ModeNamed;
    var text := if mode == Byo then "byo" else "aifut-managed";
    ModeTextIs(mode, text);
    KnownModes(NormalList(values), mode, text);
  }

  lemma ModeTextIs(mode: CredentialMode, text: string)
    requires text == if mode == Byo then "byo" else "aifut-managed"
    ensures forall t :: KnownMode(t) && ModeNamed(t) == mode <==> t == text
  {
    assert |"byo"| != |"aifut-managed"|;
  }

  lemma KnownModes(texts: seq<string>, mode: CredentialMode, text: string)
    requires forall t :: KnownMode(t) && ModeNamed(t) == mode <==> t == text
    ensures mode in Map(Filter(texts, KnownMode), ModeNamed) <==> text in texts
  {
    hide KnownMode, ModeNamed;
    var known := Filter(texts, KnownMode);
    if text in texts {
      assert text in known;
      var i :| 0 <= i < |known| && known[i] == text;
      assert Map(known, ModeNamed)[i] == mode;
    }
    if mode in Map(known, ModeNamed) {
      var i :| 0 <= i < |known| && Map(known, ModeNamed)[i] == mode;
      assert known[i] in known;
    }
  }

  /** When a package or a model is refused, and what becomes of their fields. */
  lemma BuiltPackageIs(input: PackageInput)
    ensures var r := BuildPackage(input);
            var included, limit := NonNegativeInteger(input.includedMonthlyTokens),
                                   NonNegativeInteger(input.hardMonthlyTokenLimit);
            && (r == Failure(MissingPackageKey) <==> TrimmedText(input.packageKey) == "")
            && (r == Failure(HardLimitBelowIncluded) <==>
                  TrimmedText(input.packageKey) != "" && 0 < limit < included)
            && (r.Success? ==>
                  && r.value.packageKey == TrimmedText(input.packageKey) && r.value.included == included
                  && r.value.hardLimit == limit && r.value.allowByoKeys == input.allowByoKeys
                  && AmountTaken(r.value.byoFeePercent, input.platformFeePercentForByo)
                  && r.value.allowedModelKeys == NormalList(input.allowedModelKeys))
  {
    hide NonNegativeInteger, NormalList, TrimmedText;
  }

  lemma BuiltModelIs(input: ModelInput)
    ensures var r := BuildModel(input);
            && (r == Failure(MissingProviderKey) <==> TrimmedText(input.providerKey) == "")
            && (r == Failure(MissingModelKey) <==>
                  TrimmedText(input.providerKey) != "" && TrimmedText(input.modelKey) == "")
            && (r.Success? ==>
                  && r.value.providerKey == TrimmedText(input.providerKey)
                  && r.value.modelKey == TrimmedText(input.modelKey)
                  && AmountTaken(r.value.inputTokenCost, input.inputTokenCost)
                  && AmountTaken(r.value.outputTokenCost, input.outputTokenCost)
                  && AmountTaken(r.value.markupPercent, input.markupPercent)
                  && r.value.allowedModes == NormalModes(input.allowedModes))
  {
    hide NormalModes, TrimmedText;
  }

  /** An amount is taken as given if it is a number from zero on, and is zero otherwise. */
  predicate AmountTaken(amount: real, given: Number) {
    if given.Finite? && given.value >= 0.0 then amount == given.value else amount == 0.0
  }

  /** An estimate takes managed credentials by default and whole counts of tokens. */
  lemma UsageIsEstimated(input: UsageInput)
    ensures input.package.None? ==> EstimateUsage(input) == Failure(PackageRequired)
    ensures input.package.Some? && input.model.None? ==> EstimateUsage(input) == Failure(ModelRequired)
    ensures input.package.Some? && input.model.Some? ==>
              var p, m := BuildPackage(input.package.value), BuildModel(input.model.value);
              && (p.Failure? ==> EstimateUsage(input) == Failure(p.error))
              && (p.Success? && m.Failure? ==> EstimateUsage(input) == Failure(m.error))
              && (p.Success? && m.Success? ==> Estimated(input, p.value, m.value, EstimateUsage(input)))
  {
    hide NonNegativeInteger, EstimateFor, CheckUsage, BuildPackage, BuildModel;
    assert input.mode.GetOr(Managed) == if input.mode == Some(Byo) then Byo else Managed;
  }

  /** The answer once package and model are accepted: the refusal of the usage, or its estimate. */
  predicate Estimated(input: UsageInput, p: Package, m: Model, answer: Result<Estimate, QuotaError>) {
    var mode := if input.mode == Some(Byo) then Byo else Managed;
    var u := Usage(NonNegativeInteger(input.inputTokens), NonNegativeInteger(input.outputTokens));
    var used := NonNegativeInteger(input.alreadyUsed);
    var refusal := CheckUsage(p, m, mode, u, used);
    && (answer.Failure? <==> refusal.Some?)
    && (answer.Failure? ==> refusal == Some(answer.error))
    && (answer.Success? ==> answer.value == EstimateFor(p, m, mode, u, used))
  }

  // A month of usages, each starting where the last one ended.

  function UsedAfter(used: nat, usages: seq<Usage>): nat
    decreases usages
  {
    if usages == [] then used else UsedAfter(used + usages[0].Total(), usages[1..])
  }

  predicate AllAccepted(p: Package, m: Model, used: nat, usages: seq<Usage>)
    decreases usages
  {
    usages == []
    || (CheckUsage(p, m, Managed, usages[0], used).None? && AllAccepted(p, m, used + usages[0].Total(), usages[1..]))
  }

  function TotalOverage(p: Package, m: Model, used: nat, usages: seq<Usage>): nat
    decreases usages
  {
    if usages == [] then 0
    else EstimateFor(p, m, Managed, usages[0], used).overage
         + TotalOverage(p, m, used + usages[0].Total(), usages[1..])
  }

  function TotalCovered(p: Package, m: Model, used: nat, usages: seq<Usage>): nat
    decreases usages
  {
    if usages == [] then 0
    else EstimateFor(p, m, Managed, usages[0], used).covered
         + TotalCovered(p, m, used + usages[0].Total(), usages[1..])
  }

  /** Overages telescope: over any month of usages they depend only on where it starts and ends. */
  lemma {:induction false} OveragesTelescope(p: Package, m: Model, used: nat, usages: seq<Usage>)
    ensures TotalOverage(p, m, used, usages) ==
            Beyond(p.included, UsedAfter(used, usages)) - Beyond(p.included, used)
    ensures TotalCovered(p, m, used, usages) + TotalOverage(p, m, used, usages) == UsedAfter(used, usages) - used
    decreases usages
  {
    hide EstimateFor, Beyond;
    if usages != [] {
      EstimateSplitsTokens(p, m, usages[0], used);
      OveragesTelescope(p, m, used + usages[0].Total(), usages[1..]);
    }
  }

  /** However the same tokens are split into usages, the same tokens are charged. */
  lemma SplittingDoesNotChangeOverage(p: Package, m: Model, used: nat, a: seq<Usage>, b: seq<Usage>)
    requires UsedAfter(used, a) == UsedAfter(used, b)
    ensures TotalOverage(p, m, used, a) == TotalOverage(p, m, used, b)
    ensures TotalCovered(p, m, used, a) == TotalCovered(p, m, used, b)
  {
    OveragesTelescope(p, m, used, a);
    OveragesTelescope(p, m, used, b);
  }

  /** A month of accepted usages never passes the hard limit, at no point of it. */
  lemma {:induction false} MonthStaysWithinLimit(p: Package, m: Model, used: nat, usages: seq<Usage>, n: nat)
    requires AllAccepted(p, m, used, usages) && p.hardLimit > 0 && used <= p.hardLimit && n <= |usages|
    ensures used <= UsedAfter(used, usages[..n]) <= p.hardLimit
    decreases usages
  {
    if n > 0 {
      MonthStaysWithinLimit(p, m, used + usages[0].Total(), usages[1..], n - 1);
      assert usages[..n][1..] == usages[1..][..n - 1];
    }
  }

  // Costs telescope exactly when both kinds of token cost the same.

  function TotalChargeable(p: Package, m: Model, used: nat, usages: seq<Usage>): real
    decreases usages
  {
    if usages == [] then 0.0
    else EstimateFor(p, m, Managed, usages[0], used).chargeableProviderCost
         + TotalChargeable(p, m, used + usages[0].Total(), usages[1..])
  }

  lemma ShareOfUniformCost(cost: real, overage: nat, total: nat)
    requires overage <= total
    ensures (total as real * cost) * Share(overage, total) == overage as real * cost
  {
    if total > 0 {
      Regroup(total as real, cost, Share(overage, total));
      assert total as real * Share(overage, total) == overage as real;
    }
  }

  lemma Regroup(a: real, b: real, c: real)
    ensures (a * b) * c == (a * c) * b
  {
  }

  lemma ChargeableIsShare(p: Package, m: Model, u: Usage, used: nat)
    ensures var e := EstimateFor(p, m, Managed, u, used);
            e.chargeableProviderCost == RawCost(m, u) * Share(e.overage, u.Total()) && e.overage <= u.Total()
  {
    hide RawCost, Share;
  }

  lemma UniformChargeIsPerToken(p: Package, m: Model, u: Usage, used: nat)
    requires m.inputTokenCost == m.outputTokenCost
    ensures EstimateFor(p, m, Managed, u, used).chargeableProviderCost ==
            EstimateFor(p, m, Managed, u, used).overage as real * m.inputTokenCost
  {
    hide EstimateFor, RawCost, Share;
    ChargeableIsShare(p, m, u, used);
    RawCostIsPerToken(m, u);
    ShareOfUniformCost(m.inputTokenCost, EstimateFor(p, m, Managed, u, used).overage, u.Total());
  }

  lemma RawCostIsPerToken(m: Model, u: Usage)
    requires m.inputTokenCost == m.outputTokenCost
    ensures RawCost(m, u) == u.Total() as real * m.inputTokenCost
  {
  }

  lemma {:induction false} UniformCostsTelescope(p: Package, m: Model, used: nat, usages: seq<Usage>)
    requires m.inputTokenCost == m.outputTokenCost
    ensures TotalChargeable(p, m, used, usages) == TotalOverage(p, m, used, usages) as real * m.inputTokenCost
    decreases usages
  {
    hide EstimateFor;
    if usages != [] {
      UniformChargeIsPerToken(p, m, usages[0], used);
      UniformCostsTelescope(p, m, used + usages[0].Total(), usages[1..]);
      var a := EstimateFor(p, m, Managed, usages[0], used).overage;
      var b := TotalOverage(p, m, used + usages[0].Total(), usages[1..]);
      assert (a + b) as real * m.inputTokenCost == a as real * m.inputTokenCost + b as real * m.inputTokenCost;
    }
  }

  /** The package and usages for which the order of two usages shows in the charge. */
  function OneIncluded(p: Package): Package { p.(included := 1, hardLimit := 0) }

  lemma UnitCharge(p: Package, m: Model, u: Usage, used: nat)
    requires p.included == 1 && u.Total() == 1
    ensures EstimateFor(p, m, Managed, u, used).chargeableProviderCost == if used == 0 then 0.0 else RawCost(m, u)
  {
    hide RawCost;
    ChargeableIsShare(p, m, u, used);
    assert Share(0, 1) == 0.0 && Share(1, 1) == 1.0;
  }

  lemma TwoUsagesCharge(p: Package, m: Model, first: Usage, second: Usage)
    requires p.included == 1 && first.Total() == 1 && second.Total() == 1
    ensures TotalChargeable(p, m, 0, [first, second]) == RawCost(m, second)
  {
    hide RawCost, EstimateFor;
    assert [first, second][1..] == [second] && [second][1..] == [];
    UnitCharge(p, m, first, 0);
    UnitCharge(p, m, second, 1);
    assert TotalChargeable(p, m, 2, []) == 0.0;
    assert TotalChargeable(p, m, 1, [second]) == RawCost(m, second);
  }

  lemma TwoUsagesUse(first: Usage, second: Usage)
    ensures UsedAfter(0, [first, second]) == first.Total() + second.Total()
  {
    assert [first, second][1..] == [second] && [second][1..] == [];
    assert UsedAfter(first.Total() + second.Total(), []) == first.Total() + second.Total();
    assert UsedAfter(first.Total(), [second]) == first.Total() + second.Total();
  }

  /** The provider charge of every month depends only on its tokens exactly when both kinds of token cost the same. */
  lemma ChargesTelescopeIff(m: Model, p: Package)
    ensures m.inputTokenCost == m.outputTokenCost <==>
            forall q: Package, a: seq<Usage>, b: seq<Usage> ::
              UsedAfter(0, a) == UsedAfter(0, b) ==> TotalChargeable(q, m, 0, a) == TotalChargeable(q, m, 0, b)
  {
    hide TotalChargeable, UsedAfter;
    if m.inputTokenCost == m.outputTokenCost {
      forall q: Package, a: seq<Usage>, b: seq<Usage> | UsedAfter(0, a) == UsedAfter(0, b)
        ensures TotalChargeable(q, m, 0, a) == TotalChargeable(q, m, 0, b)
      {
        UniformMonthsAgree(q, m, a, b);
      }
    } else {
      OrderShowsInCharge(m, p);
    }
  }

  lemma UniformMonthsAgree(q: Package, m: Model, a: seq<Usage>, b: seq<Usage>)
    requires m.inputTokenCost == m.outputTokenCost && UsedAfter(0, a) == UsedAfter(0, b)
    ensures TotalChargeable(q, m, 0, a) == TotalChargeable(q, m, 0, b)
  {
    hide TotalChargeable, UsedAfter, TotalOverage;
    UniformCostsTelescope(q, m, 0, a);
    UniformCostsTelescope(q, m, 0, b);
    SplittingDoesNotChangeOverage(q, m, 0, a, b);
  }

  lemma OrderShowsInCharge(m: Model, p: Package)
    requires m.inputTokenCost != m.outputTokenCost
    ensures var asked, answered := Usage(1, 0), Usage(0, 1);
            && UsedAfter(0, [asked, answered]) == UsedAfter(0, [answered, asked])
            && TotalChargeable(OneIncluded(p), m, 0, [asked, answered]) !=
               TotalChargeable(OneIncluded(p), m, 0, [answered, asked])
  {
    hide TotalChargeable, UsedAfter;
    var asked, answered := Usage(1, 0), Usage(0, 1);
    TwoUsagesCharge(OneIncluded(p), m, asked, answered);
    TwoUsagesCharge(OneIncluded(p), m, answered, asked);
    TwoUsagesUse(asked, answered);
    TwoUsagesUse(answered, asked);
    assert RawCost(m, answered) == m.outputTokenCost && RawCost(m, asked) == m.inputTokenCost;
  }
}
