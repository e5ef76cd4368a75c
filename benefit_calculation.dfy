/**
 * The benefit evaluator: for each asset of a payment combination, which of
 * its product's active rules apply to this purchase now, and how much each
 * one saves after the minimum-spend gate, the per-transaction cap and the
 * user's remaining periodic limit.
 *
 * The clock is a parameter (`Clock`, read in UTC as the service does), and
 * the two repositories are values: the rule catalogue in the order the
 * database returns it, and the usage counters keyed by user, rule and period.
 */
module BenefitCalculation {
  import opened Common
  import opened Assets

  // ---------------------------------------------------------------------------
  // Data
  // ---------------------------------------------------------------------------

  /** A condition of a rule; the type is one of DAY_OF_WEEK, TIME, CATEGORY, BRAND, MERCHANT. */
  datatype Scope = Scope(
    scopeType: string,
    brandId: Option<int>,
    merchantId: Option<int>,
    categoryId: Option<int>,
    dayOfWeek: Option<string>,
    startMinute: Option<int>,
    endMinute: Option<int>)

  /** A periodic spending limit; the type is MONTHLY, DAILY or PER_TX. */
  datatype Limit = Limit(limitType: string, limitAmount: Option<int>)

  /** A benefit rule. `valueRate` is the `BigDecimal` the column holds, with its scale. */
  datatype BenefitRule = BenefitRule(
    ruleId: int,
    benefitType: Option<string>,
    valueType: Option<string>,
    valueRate: Option<Decimal>,
    valueAmount: Option<int>,
    minAmount: Option<int>,
    maxBenefitAmount: Option<int>,
    description: Option<string>,
    priority: int,
    isActive: bool,
    sourceRefId: Option<int>,
    scopes: seq<Scope>,
    limits: seq<Limit>)
  {
    /** The `Integer` columns hold Java `int` values. */
    predicate Valid()
    {
      && (valueAmount.Some? ==> IsInt32(valueAmount.value))
      && (minAmount.Some? ==> IsInt32(minAmount.value))
      && (maxBenefitAmount.Some? ==> IsInt32(maxBenefitAmount.value))
      && (forall l :: l in limits && l.limitAmount.Some? ==> IsInt32(l.limitAmount.value))
    }

    /** The rate as a number; the Java reads it with `doubleValue()`. */
    function Rate(): real
      requires valueRate.Some?
    {
      valueRate.value.Value()
    }

    /** The per-transaction cap is in force only when it is set and positive. */
    predicate HasCap()
    {
      maxBenefitAmount.Some? && maxBenefitAmount.value > 0
    }
  }

  /** The purchase being evaluated. */
  datatype Purchase = Purchase(
    amount: int,
    userId: int,
    merchantId: int,
    categoryId: Option<int>,
    brandId: Option<int>)

  /** The moment of evaluation in UTC. */
  datatype Clock = Clock(day: DayOfWeek, minuteOfDay: int, today: Date)

  datatype CounterKey = CounterKey(userId: int, ruleId: int, periodKey: string)

  /** Usage counters: `amountUsed`, which may be null, per user, rule and period. */
  type Counters = map<CounterKey, Option<int>>

  /** One rule's saving on one asset. */
  datatype RuleSaving = RuleSaving(description: Option<string>, appliedValue: int, ruleId: int)

  // ---------------------------------------------------------------------------
  // Which rules exist for a product
  // ---------------------------------------------------------------------------

  /** `findActiveByProductId`: the active rules whose source is the product, in catalogue order. */
  function ActiveRules(catalog: seq<BenefitRule>, productId: int): (rules: seq<BenefitRule>)
    ensures forall r :: r in rules <==> r in catalog && r.isActive && r.sourceRefId == Some(productId)
    ensures |rules| <= |catalog|
  {
    if catalog == [] then []
    else
      var last := catalog[|catalog| - 1];
      var init := ActiveRules(catalog[..|catalog| - 1], productId);
      assert catalog == catalog[..|catalog| - 1] + [last];
      if last.isActive && last.sourceRefId == Some(productId) then init + [last] else init
  }

  // ---------------------------------------------------------------------------
  // Scopes
  // ---------------------------------------------------------------------------

  /**
   * One scope's test. The type is compared exactly; an unknown type never
   * matches. The id comparisons are `Objects.equals`, so an absent id on
   * the scope matches an absent id on the purchase.
   */
  predicate ScopeMatches(s: Scope, p: Purchase, clock: Clock)
  {
    if s.scopeType == "DAY_OF_WEEK" then
      s.dayOfWeek.Some? && ContainsSubstring(s.dayOfWeek.value, clock.day.Abbrev())
    else if s.scopeType == "TIME" then
      s.startMinute.Some? && s.endMinute.Some?
      && s.startMinute.value <= clock.minuteOfDay <= s.endMinute.value
    else if s.scopeType == "CATEGORY" then p.categoryId == s.categoryId
    else if s.scopeType == "BRAND" then p.brandId == s.brandId
    else if s.scopeType == "MERCHANT" then Some(p.merchantId) == s.merchantId
    else false
  }

  /** A rule without scopes always applies; otherwise one matching scope suffices. */
  predicate Applicable(rule: BenefitRule, p: Purchase, clock: Clock)
  {
    rule.scopes == [] || exists k :: 0 <= k < |rule.scopes| && ScopeMatches(rule.scopes[k], p, clock)
  }

  /** `isRuleApplicable`: scans the scopes and stops at the first that matches. */
  method IsRuleApplicable(rule: BenefitRule, p: Purchase, clock: Clock) returns (ok: bool)
    ensures ok <==> Applicable(rule, p, clock)
  {
    if |rule.scopes| == 0 {
      return true;
    }
    for i := 0 to |rule.scopes|
      invariant forall k :: 0 <= k < i ==> !ScopeMatches(rule.scopes[k], p, clock)
    {
      if ScopeMatches(rule.scopes[i], p, clock) {
        return true;
      }
    }
    return false;
  }

  /** Scopes are alternatives: adding one to a scoped rule never withdraws it. */
  lemma MoreScopesStillApply(rule: BenefitRule, extra: Scope, p: Purchase, clock: Clock)
    requires rule.scopes != [] && Applicable(rule, p, clock)
    ensures Applicable(rule.(scopes := rule.scopes + [extra]), p, clock)
  {
    var k :| 0 <= k < |rule.scopes| && ScopeMatches(rule.scopes[k], p, clock);
    assert (rule.scopes + [extra])[k] == rule.scopes[k];
  }

  /** A rule whose only scopes have unknown types (e.g. lower case) never applies. */
  lemma UnknownScopeTypesNeverApply(rule: BenefitRule, p: Purchase, clock: Clock)
    requires rule.scopes != []
    requires forall s :: s in rule.scopes ==> s.scopeType !in {"DAY_OF_WEEK", "TIME", "CATEGORY", "BRAND", "MERCHANT"}
    ensures !Applicable(rule, p, clock)
  {
    forall k | 0 <= k < |rule.scopes| ensures !ScopeMatches(rule.scopes[k], p, clock) {
      assert rule.scopes[k] in rule.scopes;
    }
  }

  // ---------------------------------------------------------------------------
  // The base benefit
  // ---------------------------------------------------------------------------

  /** `Math.min(benefit, cap)` when the cap is set and positive. */
  function Capped(benefit: int, rule: BenefitRule): (r: int)
    ensures r <= benefit
    ensures rule.HasCap() ==> r <= rule.maxBenefitAmount.value
    ensures !rule.HasCap() ==> r == benefit
  {
    if rule.HasCap() then Min(benefit, rule.maxBenefitAmount.value) else benefit
  }

  /** The value before the cap: a percentage, a per-1000 step or a fixed amount, in Java `int`. */
  function RawBenefit(rule: BenefitRule, amount: int): (r: int)
    requires rule.Valid()
    ensures IsInt32(r)
  {
    if rule.valueType == Some("RATE") && rule.valueRate.Some? then
      var rate := rule.Rate();
      if rate < 1.0 then
        SaturateToInt32((amount as real * rate).Floor)
      else
        Wrap32(JavaDiv(amount, 1000) * SaturateToInt32(rate.Floor))
    else if rule.valueType == Some("AMOUNT") && rule.valueAmount.Some? then
      rule.valueAmount.value
    else
      0
  }

  /**
   * `calcBaseBenefit`: nothing below the minimum spend; otherwise the raw
   * value, capped, and never negative.
   */
  function BaseBenefit(rule: BenefitRule, amount: int): (b: int)
    requires rule.Valid()
    ensures 0 <= b <= INT_MAX
    ensures rule.minAmount.Some? && amount < rule.minAmount.value ==> b == 0
    ensures rule.HasCap() ==> b <= rule.maxBenefitAmount.value
  {
    if rule.minAmount.Some? && amount < rule.minAmount.value then 0
    else Max(Capped(RawBenefit(rule, amount), rule), 0)
  }

  /** A fraction of a whole amount, rounded down, stays between 0 and the amount. */
  lemma FractionBounds(a: int, r: real)
    requires 0 <= a && 0.0 <= r < 1.0
    ensures 0 <= (a as real * r).Floor <= a
  {
    var ar := a as real;
    ScaleDown(ar, r);
    var x := ar * r;
    assert x.Floor as real <= x;
  }

  lemma ScaleDown(a: real, r: real)
    requires 0.0 <= a && 0.0 <= r < 1.0
    ensures 0.0 <= a * r <= a
  {
  }

  /** A rate below 1 is a percentage of the amount, rounded down. */
  lemma PercentBenefit(rule: BenefitRule, amount: int)
    requires rule.Valid() && !rule.HasCap() && rule.minAmount.None?
    requires rule.valueType == Some("RATE") && rule.valueRate.Some?
    requires 0.0 <= rule.Rate() < 1.0 && 0 <= amount <= INT_MAX
    ensures BaseBenefit(rule, amount) == (amount as real * rule.Rate()).Floor
    ensures BaseBenefit(rule, amount) <= amount
  {
    var rate := rule.Rate();
    var x := amount as real * rate;
    FractionBounds(amount, rate);
    assert RawBenefit(rule, amount) == x.Floor;
  }

  /** A rate of 1 or more is a reward per whole 1,000 of the amount. */
  lemma StepBenefit(rule: BenefitRule, amount: int)
    requires rule.Valid() && !rule.HasCap() && rule.minAmount.None?
    requires rule.valueType == Some("RATE") && rule.valueRate.Some?
    requires 1.0 <= rule.Rate() <= INT_MAX as real && 0 <= amount
    requires (amount / 1000) * rule.Rate().Floor <= INT_MAX
    ensures BaseBenefit(rule, amount) == (amount / 1000) * rule.Rate().Floor
  {
    var steps, per := amount / 1000, rule.Rate().Floor;
    assert per >= 1 && steps >= 0;
    assert 0 <= steps * per;
  }

  /** With a fixed amount the benefit is that amount, capped, or nothing if negative. */
  lemma AmountBenefit(rule: BenefitRule, amount: int)
    requires rule.Valid() && rule.valueType == Some("AMOUNT") && rule.valueAmount.Some?
    requires rule.minAmount.None? || amount >= rule.minAmount.value
    ensures BaseBenefit(rule, amount) == Max(Capped(rule.valueAmount.value, rule), 0)
  {
  }

  // ---------------------------------------------------------------------------
  // Period keys and remaining limits
  // ---------------------------------------------------------------------------

  /** `makePeriodKey`: the UTC month for MONTHLY, the UTC date for anything else. */
  function PeriodKey(limitType: string, today: Date): (key: string)
    requires today.Valid()
    ensures limitType == "MONTHLY" ==> |key| == 7
    ensures limitType != "MONTHLY" ==> |key| == 10
  {
    if limitType == "MONTHLY" then FormatYearMonth(YearMonth(today.year, today.month))
    else FormatDate(today)
  }

  /** Two days share a counter period exactly when they fall in the same period. */
  lemma PeriodKeyIdentifiesPeriod(limitType: string, d1: Date, d2: Date)
    requires d1.Valid() && d2.Valid()
    ensures PeriodKey(limitType, d1) == PeriodKey(limitType, d2)
        <==> if limitType == "MONTHLY" then d1.year == d2.year && d1.month == d2.month else d1 == d2
  {
    FormatYearMonthInjective(YearMonth(d1.year, d1.month), YearMonth(d2.year, d2.month));
    FormatDateInjective(d1, d2);
  }

  /** The amount already used under one limit's current period; a missing counter or value is 0. */
  function UsedAmount(rule: BenefitRule, l: Limit, userId: int, counters: Counters, today: Date): int
    requires today.Valid()
  {
    var key := CounterKey(userId, rule.ruleId, PeriodKey(l.limitType, today));
    if key in counters && counters[key].Some? then counters[key].value else 0
  }

  /**
   * One limit's headroom, `limit - used` in Java `int`: the counter is looked
   * up by user, rule and the limit's current period key; an unset limit
   * amount is `Integer.MAX_VALUE`.
   */
  function LimitHeadroom(rule: BenefitRule, l: Limit, userId: int, counters: Counters, today: Date): int
    requires today.Valid()
  {
    var limit := if l.limitAmount.Some? then l.limitAmount.value else INT_MAX;
    Wrap32(limit - Wrap32(UsedAmount(rule, l, userId, counters, today)))
  }

  /** The smallest headroom over the given limits, starting from `Integer.MAX_VALUE`. */
  function MinHeadroom(rule: BenefitRule, limits: seq<Limit>, userId: int, counters: Counters, today: Date): int
    requires today.Valid()
  {
    if limits == [] then INT_MAX
    else Min(MinHeadroom(rule, limits[..|limits| - 1], userId, counters, today),
             LimitHeadroom(rule, limits[|limits| - 1], userId, counters, today))
  }

  /** What the rule may still grant the user: the smallest headroom, never below 0. */
  function RemainingLimit(rule: BenefitRule, userId: int, counters: Counters, today: Date): int
    requires today.Valid()
  {
    if rule.limits == [] then INT_MAX
    else Max(MinHeadroom(rule, rule.limits, userId, counters, today), 0)
  }

  lemma {:induction false} MinHeadroomBelowEach(rule: BenefitRule, limits: seq<Limit>, userId: int, counters: Counters, today: Date)
    requires today.Valid()
    ensures MinHeadroom(rule, limits, userId, counters, today) <= INT_MAX
    ensures forall k :: 0 <= k < |limits| ==>
      MinHeadroom(rule, limits, userId, counters, today) <= LimitHeadroom(rule, limits[k], userId, counters, today)
  {
    if limits != [] {
      var init := limits[..|limits| - 1];
      MinHeadroomBelowEach(rule, init, userId, counters, today);
      forall k | 0 <= k < |limits| - 1 ensures limits[k] == init[k] { }
    }
  }

  /**
   * The remaining limit is never negative, never above `Integer.MAX_VALUE`,
   * and never above what any single limit still allows.
   */
  lemma RemainingWithinEveryLimit(rule: BenefitRule, userId: int, counters: Counters, today: Date)
    requires today.Valid()
    ensures 0 <= RemainingLimit(rule, userId, counters, today) <= INT_MAX
    ensures forall l :: l in rule.limits ==>
      RemainingLimit(rule, userId, counters, today) <= Max(LimitHeadroom(rule, l, userId, counters, today), 0)
  {
    MinHeadroomBelowEach(rule, rule.limits, userId, counters, today);
  }

  lemma MinHeadroomStep(rule: BenefitRule, limits: seq<Limit>, i: nat, userId: int, counters: Counters, today: Date)
    requires today.Valid() && i < |limits|
    ensures MinHeadroom(rule, limits[..i + 1], userId, counters, today)
         == Min(MinHeadroom(rule, limits[..i], userId, counters, today), LimitHeadroom(rule, limits[i], userId, counters, today))
  {
    assert limits[..i + 1][..i] == limits[..i];
  }

  /** `getRemainingLimit`: folds `Math.min` over the limits, then floors at 0. */
  method GetRemainingLimit(rule: BenefitRule, userId: int, counters: Counters, today: Date) returns (remaining: int)
    requires today.Valid()
    ensures remaining == RemainingLimit(rule, userId, counters, today)
  {
    if |rule.limits| == 0 {
      return INT_MAX;
    }
    remaining := INT_MAX;
    for i := 0 to |rule.limits|
      invariant remaining == MinHeadroom(rule, rule.limits[..i], userId, counters, today)
    {
      var l := rule.limits[i];
      MinHeadroomStep(rule, rule.limits, i, userId, counters, today);
      remaining := Min(remaining, LimitHeadroom(rule, l, userId, counters, today));
    }
    assert rule.limits[..|rule.limits|] == rule.limits;
    remaining := Max(remaining, 0);
  }

  // ---------------------------------------------------------------------------
  // One rule, one asset, one combination
  // ---------------------------------------------------------------------------

  /**
   * What one rule contributes: nothing if it does not apply, if its limit
   * is exhausted or if the capped benefit is 0; otherwise the capped benefit
   * cut down to the remaining limit.
   */
  function SavingOf(rule: BenefitRule, p: Purchase, clock: Clock, counters: Counters): (r: Option<RuleSaving>)
    requires rule.Valid() && clock.today.Valid()
    ensures r.Some? ==> r.value.ruleId == rule.ruleId && r.value.description == rule.description
    ensures r.Some? ==> 0 < r.value.appliedValue <= RemainingLimit(rule, p.userId, counters, clock.today)
    ensures r.Some? ==> r.value.appliedValue <= BaseBenefit(rule, p.amount)
    ensures r.Some? ==> rule.HasCap() ==> r.value.appliedValue <= rule.maxBenefitAmount.value
    ensures r.None? <==> !Applicable(rule, p, clock) || RemainingLimit(rule, p.userId, counters, clock.today) == 0
                         || BaseBenefit(rule, p.amount) == 0
  {
    if !Applicable(rule, p, clock) then None
    else
      var benefit := Capped(BaseBenefit(rule, p.amount), rule);
      var remaining := RemainingLimit(rule, p.userId, counters, clock.today);
      if remaining <= 0 then None
      else
        var v := if benefit > remaining then remaining else benefit;
        if v > 0 then Some(RuleSaving(rule.description, v, rule.ruleId)) else None
  }

  predicate AllValid(rules: seq<BenefitRule>)
  {
    forall r :: r in rules ==> r.Valid()
  }

  /** The savings of a list of rules, in rule order, skipping rules that give nothing. */
  function SavingsOf(rules: seq<BenefitRule>, p: Purchase, clock: Clock, counters: Counters): (r: seq<RuleSaving>)
    requires AllValid(rules) && clock.today.Valid()
    ensures |r| <= |rules|
  {
    if rules == [] then []
    else
      var last := rules[|rules| - 1];
      var init := SavingsOf(rules[..|rules| - 1], p, clock, counters);
      match SavingOf(last, p, clock, counters)
      case None => init
      case Some(s) => init + [s]
  }

  /** Every saving listed comes from one of the rules and is positive and within that rule's limit. */
  lemma {:induction false} SavingsComeFromRules(rules: seq<BenefitRule>, p: Purchase, clock: Clock, counters: Counters)
    requires AllValid(rules) && clock.today.Valid()
    ensures forall s :: s in SavingsOf(rules, p, clock, counters) ==>
      s.appliedValue > 0 && exists k :: 0 <= k < |rules| && SavingOf(rules[k], p, clock, counters) == Some(s)
  {
    if rules != [] {
      var init := rules[..|rules| - 1];
      SavingsComeFromRules(init, p, clock, counters);
      forall s | s in SavingsOf(rules, p, clock, counters)
        ensures exists k :: 0 <= k < |rules| && SavingOf(rules[k], p, clock, counters) == Some(s)
      {
        if s in SavingsOf(init, p, clock, counters) {
          var k :| 0 <= k < |init| && SavingOf(init[k], p, clock, counters) == Some(s);
          assert rules[k] == init[k];
        } else {
          assert SavingOf(rules[|rules| - 1], p, clock, counters) == Some(s);
        }
      }
    }
  }

  /** A rule that does not apply to the purchase contributes nothing. */
  lemma {:induction false} InapplicableRulesContributeNothing(rules: seq<BenefitRule>, p: Purchase, clock: Clock, counters: Counters)
    requires AllValid(rules) && clock.today.Valid()
    requires forall r :: r in rules ==> !Applicable(r, p, clock)
    ensures SavingsOf(rules, p, clock, counters) == []
  {
    if rules != [] {
      assert rules[|rules| - 1] in rules;
      InapplicableRulesContributeNothing(rules[..|rules| - 1], p, clock, counters);
    }
  }

  /** The savings an asset earns: those of its product's active rules. */
  function AssetSavings(catalog: seq<BenefitRule>, a: UserAsset, p: Purchase, clock: Clock, counters: Counters): seq<RuleSaving>
    requires AllValid(catalog) && clock.today.Valid()
  {
    SavingsOf(ActiveRules(catalog, a.product.id), p, clock, counters)
  }

  /** The body of that loop for one rule: the applicability check, the capped benefit and the limit cut. */
  method EvaluateRule(rule: BenefitRule, p: Purchase, clock: Clock, counters: Counters) returns (saving: Option<RuleSaving>)
    requires rule.Valid() && clock.today.Valid()
    ensures saving == SavingOf(rule, p, clock, counters)
  {
    var applicable := IsRuleApplicable(rule, p, clock);
    if !applicable {
      return None;
    }
    var benefit := BaseBenefit(rule, p.amount);
    if rule.maxBenefitAmount.Some? && rule.maxBenefitAmount.value > 0 {
      benefit := Min(benefit, rule.maxBenefitAmount.value);
    }
    var remaining := GetRemainingLimit(rule, p.userId, counters, clock.today);
    if remaining <= 0 {
      return None;
    }
    if benefit > remaining {
      benefit := remaining;
    }
    if benefit > 0 {
      return Some(RuleSaving(rule.description, benefit, rule.ruleId));
    }
    return None;
  }

  /** The inner loop of `calculatePerAssetRuleSave`: one asset's rules, in order. */
  method RuleSavingsOf(rules: seq<BenefitRule>, p: Purchase, clock: Clock, counters: Counters)
    returns (ruleSavings: seq<RuleSaving>)
    requires AllValid(rules) && clock.today.Valid()
    ensures ruleSavings == SavingsOf(rules, p, clock, counters)
  {
    ruleSavings := [];
    for j := 0 to |rules|
      invariant ruleSavings == SavingsOf(rules[..j], p, clock, counters)
    {
      var rule := rules[j];
      assert rules[..j + 1][..j] == rules[..j];
      assert rule in rules;
      var saving := EvaluateRule(rule, p, clock, counters);
      if saving.Some? {
        ruleSavings := ruleSavings + [saving.value];
      }
    }
    assert rules[..|rules|] == rules;
  }

  /**
   * `calculatePerAssetRuleSave`: one entry per asset of the combination,
   * keyed by the asset, holding its savings in rule order.
   */
  method CalculatePerAssetRuleSave(
    combo: seq<UserAsset>, p: Purchase, clock: Clock, catalog: seq<BenefitRule>, counters: Counters)
    returns (saveMap: map<int, seq<RuleSaving>>)
    requires AllValid(catalog) && clock.today.Valid() && UniqueIds(combo)
    ensures saveMap.Keys == set a | a in combo :: a.id
    ensures forall a :: a in combo ==> saveMap[a.id] == AssetSavings(catalog, a, p, clock, counters)
  {
    saveMap := map[];
    for i := 0 to |combo|
      invariant saveMap.Keys == set a | a in combo[..i] :: a.id
      invariant forall a :: a in combo[..i] ==> saveMap[a.id] == AssetSavings(catalog, a, p, clock, counters)
    {
      var ua := combo[i];
      var rules := ActiveRules(catalog, ua.product.id);
      var ruleSavings := RuleSavingsOf(rules, p, clock, counters);
      assert combo[..i + 1] == combo[..i] + [ua];
      UniqueBefore(combo, i);
      saveMap := saveMap[ua.id := ruleSavings];
    }
    assert combo[..|combo|] == combo;
  }

  function SumApplied(savings: seq<RuleSaving>): int
  {
    if savings == [] then 0 else SumApplied(savings[..|savings| - 1]) + savings[|savings| - 1].appliedValue
  }

  lemma {:induction false} SumAppliedPositive(savings: seq<RuleSaving>)
    requires forall s :: s in savings ==> s.appliedValue > 0
    ensures SumApplied(savings) >= 0
    ensures savings != [] ==> SumApplied(savings) > 0
  {
    if savings != [] {
      assert savings[|savings| - 1] in savings;
      SumAppliedPositive(savings[..|savings| - 1]);
    }
  }

  function IdsOf(assets: seq<UserAsset>): set<int>
  {
    set a | a in assets :: a.id
  }

  /** The sum of every saving of the map, visiting each asset of the combination once. */
  function TotalOver(assets: seq<UserAsset>, saveMap: map<int, seq<RuleSaving>>): int
    requires IdsOf(assets) <= saveMap.Keys
  {
    if assets == [] then 0
    else
      var last, init := assets[|assets| - 1], assets[..|assets| - 1];
      assert last in assets;
      assert IdsOf(init) <= IdsOf(assets);
      TotalOver(init, saveMap) + (if last.id in IdsOf(init) then 0 else SumApplied(saveMap[last.id]))
  }

  /** The total a combination saves: every saving of every distinct asset. */
  function ComboSavings(assets: seq<UserAsset>, p: Purchase, clock: Clock, catalog: seq<BenefitRule>, counters: Counters): int
    requires AllValid(catalog) && clock.today.Valid()
  {
    if assets == [] then 0
    else
      var last, init := assets[|assets| - 1], assets[..|assets| - 1];
      ComboSavings(init, p, clock, catalog, counters)
        + (if last.id in IdsOf(init) then 0 else SumApplied(AssetSavings(catalog, last, p, clock, counters)))
  }

  lemma {:induction false} TotalOverIsComboSavings(
    assets: seq<UserAsset>, saveMap: map<int, seq<RuleSaving>>,
    p: Purchase, clock: Clock, catalog: seq<BenefitRule>, counters: Counters)
    requires AllValid(catalog) && clock.today.Valid()
    requires IdsOf(assets) <= saveMap.Keys
    requires forall a :: a in assets ==> saveMap[a.id] == AssetSavings(catalog, a, p, clock, counters)
    ensures TotalOver(assets, saveMap) == ComboSavings(assets, p, clock, catalog, counters)
  {
    if assets != [] {
      var last, init := assets[|assets| - 1], assets[..|assets| - 1];
      assert last in assets;
      assert IdsOf(init) <= IdsOf(assets);
      TotalOverIsComboSavings(init, saveMap, p, clock, catalog, counters);
    }
  }

  /** Every asset saves a non-negative amount, so the exact total is never negative. */
  lemma {:induction false} ComboSavingsNonNegative(
    assets: seq<UserAsset>, p: Purchase, clock: Clock, catalog: seq<BenefitRule>, counters: Counters)
    requires AllValid(catalog) && clock.today.Valid()
    ensures ComboSavings(assets, p, clock, catalog, counters) >= 0
  {
    if assets != [] {
      var last := assets[|assets| - 1];
      var rules := ActiveRules(catalog, last.product.id);
      SavingsComeFromRules(rules, p, clock, counters);
      SumAppliedPositive(AssetSavings(catalog, last, p, clock, counters));
      ComboSavingsNonNegative(assets[..|assets| - 1], p, clock, catalog, counters);
    }
  }

  /**
   * `calculateTotalSave`: the `IntStream.sum` (so in Java `int`) of every
   * saving in the per-asset map.
   */
  method CalculateTotalSave(
    combo: seq<UserAsset>, p: Purchase, clock: Clock, catalog: seq<BenefitRule>, counters: Counters)
    returns (total: int)
    requires AllValid(catalog) && clock.today.Valid() && UniqueIds(combo)
    ensures total == Wrap32(ComboSavings(combo, p, clock, catalog, counters))
  {
    var saveMap := CalculatePerAssetRuleSave(combo, p, clock, catalog, counters);
    TotalOverIsComboSavings(combo, saveMap, p, clock, catalog, counters);
    total := Wrap32(TotalOver(combo, saveMap));
  }
}
