/**
 Model routing: candidates filtered by package and credential mode, narrowed by a tier budget, sorted by tier, cost and
 key, and the first one selected. The tier budget turns out not to matter for the selection, only for the fallback.
 */
module ModelRouting {
  import opened Wrappers
  import opened Lists
  import opened Text
  import opened Policy
  import opened Sorting
  import opened TokenQuota

  datatype Risk = LowRisk | MediumRisk | HighRisk
  datatype Quality = Economy | BalancedQuality | Premium
  datatype Latency = Interactive | Background
  datatype CostClass = StrictEconomy | BalancedCost | PremiumControlled

  /** The signals a request may give, with the service's defaults already applied. */
  datatype Signals = Signals(risk: Risk, quality: Quality, latency: Latency, costClass: CostClass, pressure: Pressure)

  datatype Candidate = Candidate(model: Model, tier: nat)

  datatype RoutingDecision =
    | DeterministicLane
    | ArtifactCacheLane
    | ModelLane(selected: Candidate, fallback: Option<Candidate>, mode: CredentialMode, batch: bool)

  // Classification.

  predicate Contains(s: string, part: string) {
    part <= s || (s != "" && Contains(s[1..], part))
  }

  function CombinedCost(m: Model): real { m.inputTokenCost + m.outputTokenCost }

  function ClassifyTier(m: Model): (tier: nat)
    ensures 1 <= tier <= 3
  {
    var key := Lower(m.modelKey);
    if Contains(key, "reason") || Contains(key, "sonnet") || Contains(key, "opus") || Contains(key, "gpt-5")
       || CombinedCost(m) >= 0.00002 then 3
    else if Contains(key, "mini") || Contains(key, "lean") || Contains(key, "flash") || Contains(key, "small")
            || CombinedCost(m) <= 0.000004 then 1
    else 2
  }

  function BaseTier(s: Signals): (tier: nat)
    ensures 1 <= tier <= 3
  {
    if s.risk == HighRisk || s.quality == Premium then 3
    else if s.latency == Background then 1
    else if s.risk == MediumRisk || s.quality == BalancedQuality || s.costClass == BalancedCost then 2
    else 1
  }

  function TierBudget(baseTier: nat, pressure: Pressure): nat {
    match pressure
    case HardLimit => 1
    case NearLimit => if baseTier >= 2 then baseTier - 1 else 1
    case NormalPressure => baseTier
  }

  predicate SomeModelAllows(models: seq<Model>, mode: CredentialMode) {
    Find(models, (m: Model) => mode in m.allowedModes).Some?
  }

  function PreferredMode(preferred: Option<CredentialMode>, p: Package, models: seq<Model>): CredentialMode {
    if preferred == Some(Byo) && p.allowByoKeys && SomeModelAllows(models, Byo) then Byo
    else if SomeModelAllows(models, Managed) then Managed
    else if p.allowByoKeys && SomeModelAllows(models, Byo) then Byo
    else Managed
  }

  /** Own keys are used only where the package allows them. */
  lemma ByoOnlyIfAllowed(preferred: Option<CredentialMode>, p: Package, models: seq<Model>)
    ensures PreferredMode(preferred, p, models) == Byo <==>
              && p.allowByoKeys && (exists m :: m in models && Byo in m.allowedModes)
              && (preferred == Some(Byo) || forall m :: m in models ==> Managed !in m.allowedModes)
  {
  }

  // The pipeline.

  predicate Permitted(p: Package, m: Model) { p.allowedModelKeys == [] || m.modelKey in p.allowedModelKeys }

  function Candidates(p: Package, models: seq<Model>, mode: CredentialMode): seq<Candidate> {
    Map(Filter(Filter(models, (m: Model) => Permitted(p, m)), (m: Model) => mode in m.allowedModes),
        (m: Model) => Candidate(m, ClassifyTier(m)))
  }

  /** Tier first, then combined cost, then the key in the collation of the locale. */
  function Compare(collate: (string, string) -> real): (Candidate, Candidate) -> real {
    (a: Candidate, b: Candidate) =>
      if a.tier != b.tier then a.tier as real - b.tier as real
      else if CombinedCost(a.model) != CombinedCost(b.model) then CombinedCost(a.model) - CombinedCost(b.model)
      else collate(a.model.modelKey, b.model.modelKey)
  }

  function WithinBudget(budget: nat): Candidate -> bool { (c: Candidate) => c.tier <= budget }

  function NotNamed(key: string): Candidate -> bool { (c: Candidate) => c.model.modelKey != key }

  /** The candidates within the tier budget, or all of them if there are none. */
  function SelectionPool(candidates: seq<Candidate>, budget: nat): seq<Candidate> {
    var within := Filter(candidates, WithinBudget(budget));
    if within != [] then within else candidates
  }

  function PreviewRouting(p: Package, models: seq<Model>, preferred: Option<CredentialMode>,
                          deterministicEligible: bool, cacheHitAvailable: bool, s: Signals,
                          collate: (string, string) -> real): Result<RoutingDecision, QuotaError> {
    if models == [] then Failure(ModelRequired)
    else if deterministicEligible then Success(DeterministicLane)
    else if cacheHitAvailable then Success(ArtifactCacheLane)
    else
      var mode := PreferredMode(preferred, p, models);
      var pool := SelectionPool(Candidates(p, models, mode), TierBudget(BaseTier(s), s.pressure));
      if pool == [] then Failure(NoModelFor(mode))
      else
        var sorted := Sort(pool, Compare(collate));
        var selected := sorted[0];
        Success(ModelLane(selected, Find(sorted, NotNamed(selected.model.modelKey)), mode,
                          s.latency == Background && selected.tier <= 2))
  }

  lemma CompareIsComparator(collate: (string, string) -> real)
    requires Comparator(collate)
    ensures Comparator(Compare(collate))
  {
    var cmp := Compare(collate);
    forall a, b ensures (cmp(a, b) <= 0.0 || cmp(b, a) <= 0.0) && (cmp(a, b) < 0.0 <==> cmp(b, a) > 0.0) {
      var x, y := a.model.modelKey, b.model.modelKey;
      assert (collate(x, y) <= 0.0 || collate(y, x) <= 0.0) && (collate(x, y) < 0.0 <==> collate(y, x) > 0.0);
    }
    forall a, b, c | cmp(a, b) <= 0.0 && cmp(b, c) <= 0.0 ensures cmp(a, c) <= 0.0 {
      var x, y, z := a.model.modelKey, b.model.modelKey, c.model.modelKey;
      assert collate(x, y) <= 0.0 && collate(y, z) <= 0.0 ==> collate(x, z) <= 0.0;
    }
  }

  /** The best of the candidates with another key than the selected one, whatever the tier budget. */
  function Runner(candidates: seq<Candidate>, key: string, cmp: (Candidate, Candidate) -> real): Option<Candidate> {
    var others := Filter(candidates, NotNamed(key));
    if others == [] then None else Some(Least(others, cmp))
  }

  lemma PoolKeepsLeast(candidates: seq<Candidate>, budget: nat, collate: (string, string) -> real)
    requires Comparator(collate) && candidates != []
    ensures SelectionPool(candidates, budget) != []
    ensures Least(SelectionPool(candidates, budget), Compare(collate)) == Least(candidates, Compare(collate))
  {
    CompareIsComparator(collate);
    if Filter(candidates, WithinBudget(budget)) != [] {
      LeastOfLowFilter(candidates, Compare(collate), WithinBudget(budget));
    }
  }

  /**
   The selected model is the first least candidate by tier, cost and key over all permitted candidates: the tier
   budget, and with it risk, quality, latency, cost class and quota pressure, cannot change it.
   */
  lemma SelectionIgnoresTierBudget(candidates: seq<Candidate>, budget: nat, collate: (string, string) -> real)
    returns (i: nat)
    requires Comparator(collate) && candidates != []
    ensures i < |candidates| && Sort(SelectionPool(candidates, budget), Compare(collate))[0] == candidates[i]
    ensures forall j :: 0 <= j < |candidates| ==> Compare(collate)(candidates[i], candidates[j]) <= 0.0
    ensures forall j :: 0 <= j < i ==> Compare(collate)(candidates[j], candidates[i]) > 0.0
  {
    CompareIsComparator(collate);
    PoolKeepsLeast(candidates, budget, collate);
    HeadOfSort(SelectionPool(candidates, budget), Compare(collate));
    i := LeastIsFirstSmallest(candidates, Compare(collate));
  }

  /** The fallback is the best other model, unless the tier budget left some model and that best other exceeds it. */
  lemma FallbackLosesOnlyToBudget(candidates: seq<Candidate>, budget: nat, key: string,
                                  collate: (string, string) -> real)
    requires Comparator(collate) && candidates != []
    ensures var best := Runner(candidates, key, Compare(collate));
            Find(Sort(SelectionPool(candidates, budget), Compare(collate)), NotNamed(key)) ==
            if best.Some? && Filter(candidates, WithinBudget(budget)) != [] && best.value.tier > budget then None
            else best
  {
    hide Least, Sort, Filter, Compare;
    var cmp := Compare(collate);
    CompareIsComparator(collate);
    FindInSort(SelectionPool(candidates, budget), cmp, NotNamed(key));
    if Filter(candidates, WithinBudget(budget)) != [] {
      FiltersCommute(candidates, WithinBudget(budget), NotNamed(key));
      BestWithinBudget(Filter(candidates, NotNamed(key)), budget, collate);
    }
  }

  /**
   The tier budget drops the fallback exactly when it lies between the selected model and the best other one. A tighter
   budget that excludes every model therefore brings the fallback back.
   */
  lemma FallbackDroppedIff(candidates: seq<Candidate>, budget: nat, key: string, collate: (string, string) -> real)
    requires Comparator(collate) && candidates != []
    ensures var best := Runner(candidates, key, Compare(collate));
            var found := Find(Sort(SelectionPool(candidates, budget), Compare(collate)), NotNamed(key));
            best.Some? ==>
              (found.None? <==> Least(candidates, Compare(collate)).tier <= budget < best.value.tier)
              && (found.Some? ==> found == best)
  {
    hide Sort, Filter, Compare, Least;
    FallbackLosesOnlyToBudget(candidates, budget, key, collate);
    BestWithinBudget(candidates, budget, collate);
  }

  lemma BestWithinBudget(others: seq<Candidate>, budget: nat, collate: (string, string) -> real)
    requires Comparator(collate)
    ensures others == [] ==> Filter(others, WithinBudget(budget)) == []
    ensures others != [] && Least(others, Compare(collate)).tier > budget ==> Filter(others, WithinBudget(budget)) == []
    ensures others != [] && Least(others, Compare(collate)).tier <= budget ==>
              Filter(others, WithinBudget(budget)) != []
              && Least(Filter(others, WithinBudget(budget)), Compare(collate)) == Least(others, Compare(collate))
  {
    CompareIsComparator(collate);
    if others != [] {
      var least := Least(others, Compare(collate));
      if least.tier <= budget {
        assert least in Filter(others, WithinBudget(budget));
        LeastOfLowFilter(others, Compare(collate), WithinBudget(budget));
      } else {
        NothingWithinBudget(others, budget, collate);
      }
    }
  }

  lemma NothingWithinBudget(others: seq<Candidate>, budget: nat, collate: (string, string) -> real)
    requires Comparator(collate) && others != [] && Least(others, Compare(collate)).tier > budget
    ensures Filter(others, WithinBudget(budget)) == []
  {
    hide Filter, Least;
    CompareIsComparator(collate);
    var i := LeastIsFirstSmallest(others, Compare(collate));
    forall j | 0 <= j < |others| ensures !WithinBudget(budget)(others[j]) {
      assert Compare(collate)(others[i], others[j]) <= 0.0;
    }
    FilterNone(others, WithinBudget(budget));
  }

  /** Two requests that differ in their signals only are routed to the same model, in the same credential mode. */
  lemma SignalsDoNotChangeSelection(p: Package, models: seq<Model>, preferred: Option<CredentialMode>,
                                    deterministicEligible: bool, cacheHitAvailable: bool, s: Signals, t: Signals,
                                    collate: (string, string) -> real)
    requires Comparator(collate)
    ensures var a := PreviewRouting(p, models, preferred, deterministicEligible, cacheHitAvailable, s, collate);
            var b := PreviewRouting(p, models, preferred, deterministicEligible, cacheHitAvailable, t, collate);
            && (a.Failure? || b.Failure? ==> a == b)
            && (a.Success? && a.value.ModelLane? ==>
                  b.Success? && b.value.ModelLane? && a.value.selected == b.value.selected
                  && a.value.mode == b.value.mode)
  {
    hide Least, Sort, Candidates, PreferredMode, TierBudget, BaseTier, Filter, Compare;
    var candidates := Candidates(p, models, PreferredMode(preferred, p, models));
    if candidates == [] {
      assert Filter(candidates, WithinBudget(TierBudget(BaseTier(s), s.pressure))) == [];
      assert Filter(candidates, WithinBudget(TierBudget(BaseTier(t), t.pressure))) == [];
    } else {
      PoolKeepsLeast(candidates, TierBudget(BaseTier(s), s.pressure), collate);
      PoolKeepsLeast(candidates, TierBudget(BaseTier(t), t.pressure), collate);
      HeadOfSort(SelectionPool(candidates, TierBudget(BaseTier(s), s.pressure)), Compare(collate));
      HeadOfSort(SelectionPool(candidates, TierBudget(BaseTier(t), t.pressure)), Compare(collate));
    }
  }

  /** Every selected model, and every fallback, is one the package and the credential mode permit. */
  lemma RoutedModelsArePermitted(p: Package, models: seq<Model>, preferred: Option<CredentialMode>, s: Signals,
                                 collate: (string, string) -> real)
    requires Comparator(collate)
    ensures var r := PreviewRouting(p, models, preferred, false, false, s, collate);
            && (r.Success? ==> forall c :: c == r.value.selected || r.value.fallback == Some(c) ==>
                                 c.model in models && Permitted(p, c.model) && r.value.mode in c.model.allowedModes)
            && (r.Success? && r.value.fallback.Some? ==>
                  r.value.fallback.value.model.modelKey != r.value.selected.model.modelKey)
  {
    hide Least, Sort, PreferredMode, TierBudget, BaseTier, Filter, Compare, Permitted, ClassifyTier;
    var mode := PreferredMode(preferred, p, models);
    var candidates := Candidates(p, models, mode);
    var pool := SelectionPool(candidates, TierBudget(BaseTier(s), s.pressure));
    if models != [] && pool != [] {
      CompareIsComparator(collate);
      SortIsSortedPermutation(pool, Compare(collate));
      var sorted := Sort(pool, Compare(collate));
      forall c | c in sorted ensures c in candidates {
        assert c in multiset(sorted) && c in multiset(pool);
      }
      CandidatesArePermitted(p, models, mode);
    }
  }

  lemma CandidatesArePermitted(p: Package, models: seq<Model>, mode: CredentialMode)
    ensures forall c :: c in Candidates(p, models, mode) ==>
              c.model in models && Permitted(p, c.model) && mode in c.model.allowedModes
  {
    hide Permitted, ClassifyTier;
  }

  /**
   Routing fails exactly when no permitted model allows the chosen mode. The mode is chosen before the package's
   model list is applied, so it can fail although another mode would have found a model.
   */
  lemma RoutingFailsIff(p: Package, models: seq<Model>, preferred: Option<CredentialMode>, s: Signals,
                        collate: (string, string) -> real)
    requires models != []
    ensures PreviewRouting(p, models, preferred, false, false, s, collate).Failure? <==>
            forall m :: m in models && Permitted(p, m) ==> PreferredMode(preferred, p, models) !in m.allowedModes
    ensures PreviewRouting(p, models, preferred, false, false, s, collate).Failure? ==>
              PreviewRouting(p, models, preferred, false, false, s, collate) ==
              Failure(NoModelFor(PreferredMode(preferred, p, models)))
  {
    hide PreferredMode, Permitted, ClassifyTier, Sort;
    var mode := PreferredMode(preferred, p, models);
    var kept := Filter(Filter(models, (m: Model) => Permitted(p, m)), (m: Model) => mode in m.allowedModes);
    var candidates := Candidates(p, models, mode);
    assert |candidates| == |kept|;
    if candidates != [] {
      assert kept[0] in kept;
    }
  }

  lemma ModeCanMissTheOnlyPermittedModel(managed: Model, own: Model, p: Package, s: Signals,
                                         collate: (string, string) -> real)
    requires managed.allowedModes == [Managed] && own.allowedModes == [Byo] && managed.modelKey != own.modelKey
    requires p.allowByoKeys && p.allowedModelKeys == [own.modelKey]
    ensures PreviewRouting(p, [managed, own], None, false, false, s, collate) == Failure(NoModelFor(Managed))
    ensures PreviewRouting(p, [managed, own], Some(Byo), false, false, s, collate).Success?
  {
    hide ClassifyTier, Sort;
    RoutingFailsIff(p, [managed, own], None, s, collate);
    RoutingFailsIff(p, [managed, own], Some(Byo), s, collate);
    assert managed in [managed, own] && own in [managed, own];
    ByoOnlyIfAllowed(None, p, [managed, own]);
    ByoOnlyIfAllowed(Some(Byo), p, [managed, own]);
  }

  // The preview in terms of the models: which one is selected, which one is the fallback, and in which lane.

  /** The word occurs in the text. */
  ghost predicate Mentions(text: string, word: string) { exists i :: OccursAt(text, word, i) }

  ghost predicate OccursAt(text: string, word: string, i: int) {
    0 <= i <= |text| - |word| && text[i..i + |word|] == word
  }

  lemma {:induction false} ContainsIff(text: string, word: string)
    ensures Contains(text, word) <==> Mentions(text, word)
  {
    assert word <= text <==> OccursAt(text, word, 0);
    if text != "" {
      ContainsIff(text[1..], word);
      forall i | i > 0 ensures OccursAt(text, word, i) <==> OccursAt(text[1..], word, i - 1) {
        if i <= |text| - |word| {
          assert text[1..][i - 1..i - 1 + |word|] == text[i..i + |word|];
        }
      }
      if i :| OccursAt(text[1..], word, i) {
        assert OccursAt(text, word, i + 1);
      }
    }
  }

  ghost predicate HeavyModel(m: Model) {
    var key := Lower(m.modelKey);
    || Mentions(key, "reason") || Mentions(key, "sonnet") || Mentions(key, "opus") || Mentions(key, "gpt-5")
    || m.inputTokenCost + m.outputTokenCost >= 0.00002
  }

  ghost predicate LightModel(m: Model) {
    var key := Lower(m.modelKey);
    && !HeavyModel(m)
    && (|| Mentions(key, "mini") || Mentions(key, "lean") || Mentions(key, "flash") || Mentions(key, "small")
        || m.inputTokenCost + m.outputTokenCost <= 0.000004)
  }

  /** The tier of a model: 3 for heavy ones, 1 for light ones, 2 for the others. */
  lemma TierIs(m: Model)
    ensures ClassifyTier(m) == 3 <==> HeavyModel(m)
    ensures ClassifyTier(m) == 1 <==> LightModel(m)
  {
    hide Mentions, Contains, Lower;
    var key := Lower(m.modelKey);
    ContainsIff(key, "reason");
    ContainsIff(key, "sonnet");
    ContainsIff(key, "opus");
    ContainsIff(key, "gpt-5");
    ContainsIff(key, "mini");
    ContainsIff(key, "lean");
    ContainsIff(key, "flash");
    ContainsIff(key, "small");
  }

  ghost predicate Lighter(a: Model, b: Model) { (LightModel(a) && !LightModel(b)) || (!HeavyModel(a) && HeavyModel(b)) }

  /** The one model is taken before the other: it is lighter, or else cheaper, or else its key collates first. */
  ghost predicate Before(collate: (string, string) -> real, a: Model, b: Model) {
    var x, y := a.inputTokenCost + a.outputTokenCost, b.inputTokenCost + b.outputTokenCost;
    Lighter(a, b)
    || (!Lighter(b, a) && (x < y || (x == y && collate(a.modelKey, b.modelKey) < 0.0)))
  }

  /** The model at position i is acceptable, none acceptable comes before it, and it comes before all earlier ones. */
  ghost predicate BestAt(collate: (string, string) -> real, models: seq<Model>, ok: Model -> bool, i: nat) {
    && i < |models| && ok(models[i])
    && (forall j :: 0 <= j < |models| && ok(models[j]) ==> !Before(collate, models[j], models[i]))
    && (forall j :: 0 <= j < i && ok(models[j]) ==> Before(collate, models[i], models[j]))
  }

  function Tiered(): Model -> Candidate { (m: Model) => Candidate(m, ClassifyTier(m)) }

  function Offer(models: seq<Model>, ok: Model -> bool): seq<Candidate> { Map(Filter(models, ok), Tiered()) }

  lemma FilterOffer(models: seq<Model>, ok: Model -> bool, q: Candidate -> bool, both: Model -> bool)
    requires forall m :: both(m) <==> ok(m) && q(Tiered()(m))
    ensures Filter(Offer(models, ok), q) == Offer(models, both)
  {
    hide ClassifyTier;
    var inner := (m: Model) => q(Tiered()(m));
    FilterMap(Filter(models, ok), Tiered(), q, inner);
    FilterTwice(models, ok, inner, both);
  }

  lemma LighterIff(a: Model, b: Model)
    ensures Lighter(a, b) <==> ClassifyTier(a) < ClassifyTier(b)
  {
    hide HeavyModel, LightModel, ClassifyTier;
    TierIs(a);
    TierIs(b);
  }

  lemma CompareIsBefore(collate: (string, string) -> real, a: Model, b: Model)
    ensures Compare(collate)(Tiered()(a), Tiered()(b)) < 0.0 <==> Before(collate, a, b)
  {
    hide Lighter, ClassifyTier;
    LighterIff(a, b);
    LighterIff(b, a);
    var x, y := CombinedCost(a), CombinedCost(b);
    var c := Compare(collate)(Tiered()(a), Tiered()(b));
    if ClassifyTier(a) != ClassifyTier(b) {
      assert c == ClassifyTier(a) as real - ClassifyTier(b) as real;
    } else if x != y {
      assert c == x - y;
    } else {
      assert c == collate(a.modelKey, b.modelKey);
    }
  }

  lemma OfferAt(models: seq<Model>, ok: Model -> bool)
    ensures var at := PositionsOf(models, ok);
            && |at| == |Offer(models, ok)|
            && forall n :: 0 <= n < |at| ==> Offer(models, ok)[n] == Tiered()(models[at[n]])
  {
    hide Tiered;
    FilterPositions(models, ok);
  }

  /** The least candidate of an offer is its best model. */
  lemma LeastIsBest(collate: (string, string) -> real, models: seq<Model>, ok: Model -> bool) returns (i: nat)
    requires Comparator(collate) && Offer(models, ok) != []
    ensures i < |models| && BestAt(collate, models, ok, i)
    ensures Least(Offer(models, ok), Compare(collate)) == Tiered()(models[i])
  {
    hide Filter, Compare, Tiered, Least, Before, Comparator, Offer, PositionsOf;
    var offer := Offer(models, ok);
    CompareIsComparator(collate);
    var n := LeastIsFirstSmallest(offer, Compare(collate));
    var at := PositionsOf(models, ok);
    OfferAt(models, ok);
    i := at[n];
    forall j: nat | j < |models| && ok(models[j])
      ensures !Before(collate, models[j], models[i]) && (j < i ==> Before(collate, models[i], models[j]))
    {
      var k :| 0 <= k < |at| && at[k] == j;
      assert n < k ==> at[n] < at[k];
      LeastComesFirst(collate, offer, n, k, models[i], models[j]);
    }
  }

  lemma LeastComesFirst(collate: (string, string) -> real, offer: seq<Candidate>, n: nat, k: nat, a: Model, b: Model)
    requires Comparator(Compare(collate)) && n < |offer| && k < |offer|
    requires offer[n] == Tiered()(a) && offer[k] == Tiered()(b)
    requires Compare(collate)(offer[n], offer[k]) <= 0.0
    requires k < n ==> Compare(collate)(offer[k], offer[n]) > 0.0
    ensures !Before(collate, b, a) && (k < n ==> Before(collate, a, b))
  {
    hide Compare, Tiered, Before;
    CompareIsBefore(collate, a, b);
    CompareIsBefore(collate, b, a);
    ComparatorSigns(Compare(collate), offer[n], offer[k]);
    ComparatorSigns(Compare(collate), offer[k], offer[n]);
  }

  lemma ComparatorSigns<T(!new)>(cmp: (T, T) -> real, a: T, b: T)
    requires Comparator(cmp)
    ensures cmp(a, b) < 0.0 <==> cmp(b, a) > 0.0
  {
  }

  ghost predicate Demanding(s: Signals) { s.risk == HighRisk || s.quality == Premium }

  ghost predicate Modest(s: Signals) {
    !Demanding(s)
    && (s.latency == Background || (s.risk == LowRisk && s.quality == Economy && s.costClass != BalancedCost))
  }

  /** The tier budget that the signals leave covers the model. */
  ghost predicate Affords(s: Signals, m: Model) {
    if s.pressure == HardLimit || Modest(s) || (s.pressure == NearLimit && !Demanding(s)) then LightModel(m)
    else if s.pressure == NormalPressure && Demanding(s) then true
    else !HeavyModel(m)
  }

  lemma AffordsIff(s: Signals, m: Model)
    ensures ClassifyTier(m) <= TierBudget(BaseTier(s), s.pressure) <==> Affords(s, m)
  {
    hide HeavyModel, LightModel, ClassifyTier;
    TierIs(m);
  }

  /** The package and the credential mode permit the model. */
  predicate Offered(p: Package, mode: CredentialMode, m: Model) {
    (p.allowedModelKeys == [] || m.modelKey in p.allowedModelKeys) && mode in m.allowedModes
  }

  /** The model is in the pool: affordable, unless no offered model is. */
  ghost predicate InPool(p: Package, models: seq<Model>, mode: CredentialMode, s: Signals, m: Model) {
    Offered(p, mode, m) && (Affords(s, m) || forall x :: x in models && Offered(p, mode, x) ==> !Affords(s, x))
  }

  ghost function PoolOf(p: Package, models: seq<Model>, mode: CredentialMode, s: Signals): Model -> bool {
    m => InPool(p, models, mode, s, m)
  }

  lemma PoolIs(p: Package, models: seq<Model>, mode: CredentialMode, s: Signals)
    ensures SelectionPool(Candidates(p, models, mode), TierBudget(BaseTier(s), s.pressure)) ==
            Offer(models, PoolOf(p, models, mode, s))
  {
    hide ClassifyTier, Affords, TierBudget, BaseTier, Filter;
    var budget := TierBudget(BaseTier(s), s.pressure);
    var offered := (m: Model) => Offered(p, mode, m);
    var affordable := (m: Model) => offered(m) && ClassifyTier(m) <= budget;
    FilterTwice(models, (m: Model) => Permitted(p, m), (m: Model) => mode in m.allowedModes, offered);
    assert Candidates(p, models, mode) == Offer(models, offered);
    FilterOffer(models, offered, WithinBudget(budget), affordable);
    forall m ensures ClassifyTier(m) <= budget <==> Affords(s, m) {
      AffordsIff(s, m);
    }
    var pool := PoolOf(p, models, mode, s);
    if Filter(models, affordable) == [] {
      FilterSame(models, offered, pool);
    } else {
      var x := Filter(models, affordable)[0];
      assert x in Filter(models, affordable);
      FilterSame(models, affordable, pool);
    }
  }

  /**
   The model selected is the best one offered, by weight, cost and key, whatever the signals; the fallback is the best
   one of another key in the pool that the signals leave; and only a model that is not heavy goes to the batch lane.
   */
  lemma PreviewIs(p: Package, models: seq<Model>, preferred: Option<CredentialMode>, s: Signals,
                  collate: (string, string) -> real)
    requires Comparator(collate)
    requires PreviewRouting(p, models, preferred, false, false, s, collate).Success?
    ensures var r := PreviewRouting(p, models, preferred, false, false, s, collate).value;
            && r.ModelLane? && r.mode == PreferredMode(preferred, p, models)
            && (exists i: nat :: i < |models| && BestAt(collate, models, m => Offered(p, r.mode, m), i)
                              && r.selected.model == models[i])
            && FallbackIs(p, models, s, collate, r)
            && (r.batch <==> s.latency == Background && !HeavyModel(r.selected.model))
            && (r.selected.tier == 3 <==> HeavyModel(r.selected.model))
            && (r.selected.tier == 1 <==> LightModel(r.selected.model))
  {
    hide ClassifyTier, TierBudget, BaseTier, Sort, Least, Compare, BestAt, PreferredMode, InPool;
    var mode := PreferredMode(preferred, p, models);
    var budget := TierBudget(BaseTier(s), s.pressure);
    var pool := SelectionPool(Candidates(p, models, mode), budget);
    var r := PreviewRouting(p, models, preferred, false, false, s, collate).value;
    PoolIs(p, models, mode, s);
    HeadOfSort(pool, Compare(collate));
    SelectedIsBest(p, models, mode, budget, collate);
    FallbackFollows(models, PoolOf(p, models, mode, s), r.selected.model.modelKey, collate);
    TierIs(r.selected.model);
  }

  /** The fallback is the best model of another key in the pool, if there is one. */
  ghost predicate FallbackIs(p: Package, models: seq<Model>, s: Signals, collate: (string, string) -> real,
                             r: RoutingDecision)
    requires r.ModelLane?
  {
    FallbackAmong(models, PoolOf(p, models, r.mode, s), r.selected.model.modelKey, collate, r.fallback)
  }

  ghost predicate FallbackAmong(models: seq<Model>, pool: Model -> bool, key: string,
                                collate: (string, string) -> real, fallback: Option<Candidate>)
  {
    var other := (m: Model) => pool(m) && m.modelKey != key;
    && (fallback.None? <==> forall m :: m in models ==> !other(m))
    && (fallback.Some? ==>
          exists i: nat :: i < |models| && BestAt(collate, models, other, i) && fallback.value.model == models[i])
  }

  lemma SelectedIsBest(p: Package, models: seq<Model>, mode: CredentialMode, budget: nat,
                       collate: (string, string) -> real)
    requires Comparator(collate) && SelectionPool(Candidates(p, models, mode), budget) != []
    ensures var least := Least(SelectionPool(Candidates(p, models, mode), budget), Compare(collate));
            && least.tier == ClassifyTier(least.model)
            && exists i: nat :: i < |models| && BestAt(collate, models, m => Offered(p, mode, m), i)
                                && least.model == models[i]
  {
    hide ClassifyTier, Compare, BestAt, Filter, Least;
    var offered := (m: Model) => Offered(p, mode, m);
    FilterTwice(models, (m: Model) => Permitted(p, m), (m: Model) => mode in m.allowedModes, offered);
    assert Candidates(p, models, mode) == Offer(models, offered);
    PoolKeepsLeast(Candidates(p, models, mode), budget, collate);
    var i := LeastIsBest(collate, models, offered);
  }

  lemma FallbackFollows(models: seq<Model>, pool: Model -> bool, key: string, collate: (string, string) -> real)
    requires Comparator(collate)
    ensures FallbackAmong(models, pool, key, collate,
                          Find(Sort(Offer(models, pool), Compare(collate)), NotNamed(key)))
  {
    hide ClassifyTier, Compare, BestAt, Least, Sort;
    var other := (m: Model) => pool(m) && m.modelKey != key;
    CompareIsComparator(collate);
    FindInSort(Offer(models, pool), Compare(collate), NotNamed(key));
    FilterOffer(models, pool, NotNamed(key), other);
    if Offer(models, other) == [] {
      assert Filter(models, other) == [];
    } else {
      assert Filter(models, other)[0] in Filter(models, other);
      var i := LeastIsBest(collate, models, other);
    }
  }

  /** A light model is selected whenever one is offered. */
  lemma LightModelIsSelected(p: Package, models: seq<Model>, preferred: Option<CredentialMode>, s: Signals,
                             collate: (string, string) -> real, light: Model)
    requires Comparator(collate) && light in models && LightModel(light)
    requires Offered(p, PreferredMode(preferred, p, models), light)
    ensures var r := PreviewRouting(p, models, preferred, false, false, s, collate);
            r.Success? && r.value.ModelLane? && LightModel(r.value.selected.model)
  {
    hide PreviewRouting, PreferredMode, FallbackIs, LightModel, HeavyModel, BestAt;
    RoutingFailsIff(p, models, preferred, s, collate);
    PreviewIs(p, models, preferred, s, collate);
    var mode := PreferredMode(preferred, p, models);
    var r := PreviewRouting(p, models, preferred, false, false, s, collate);
    assert light in models && Permitted(p, light) && mode in light.allowedModes;
    var i: nat :| i < |models| && BestAt(collate, models, m => Offered(p, mode, m), i)
                  && r.value.selected.model == models[i];
    BestIsLight(collate, models, m => Offered(p, mode, m), i, light);
  }

  lemma BestIsLight(collate: (string, string) -> real, models: seq<Model>, ok: Model -> bool, i: nat, light: Model)
    requires BestAt(collate, models, ok, i) && light in models && ok(light) && LightModel(light)
    ensures LightModel(models[i])
  {
    hide LightModel, HeavyModel;
    var j :| 0 <= j < |models| && models[j] == light;
    NotBeforeLight(collate, models[j], models[i]);
  }

  lemma NotBeforeLight(collate: (string, string) -> real, light: Model, m: Model)
    requires LightModel(light) && !Before(collate, light, m)
    ensures LightModel(m)
  {
    hide LightModel, HeavyModel;
  }

  /** Requests that need no model, and a service without models. */
  lemma NoModelNeeded(p: Package, models: seq<Model>, preferred: Option<CredentialMode>, deterministic: bool,
                      cacheHit: bool, s: Signals, collate: (string, string) -> real)
    ensures var r := PreviewRouting(p, models, preferred, deterministic, cacheHit, s, collate);
            && (r == Failure(ModelRequired) <==> models == [])
            && (r == Success(DeterministicLane) <==> models != [] && deterministic)
            && (r == Success(ArtifactCacheLane) <==> models != [] && !deterministic && cacheHit)
  {
  }
}
