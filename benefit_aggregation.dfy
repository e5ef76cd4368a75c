/**
 * `BenefitAggregationService`: the card-benefit screen. A card's active
 * rules become display items (brand, title, subtitle), grouped by the name
 * of their first resolvable CATEGORY scope into an insertion-ordered map,
 * and each group is sorted by title.
 */
module BenefitAggregation {
  import opened Common
  import opened Assets
  import opened Sorting
  import BC = BenefitCalculation

  datatype BenefitItem = BenefitItem(brand: Option<string>, title: string, subtitle: string)

  /** One entry of the `LinkedHashMap<String, List<BenefitItem>>`. */
  datatype BenefitGroup = BenefitGroup(category: string, items: seq<BenefitItem>)

  const OTHER_CATEGORY: string := "기타"

  // ---------------------------------------------------------------------------
  // Which category and brand a rule is shown under
  // ---------------------------------------------------------------------------

  /** A scope of the given type whose referenced id has a name. */
  predicate Resolves(s: BC.Scope, scopeType: string, names: map<int, string>)
  {
    var ref := if scopeType == "BRAND" then s.brandId else s.categoryId;
    EqualsIgnoreCase(scopeType, s.scopeType) && ref.Some? && ref.value in names
  }

  function NameOf(s: BC.Scope, scopeType: string, names: map<int, string>): string
    requires Resolves(s, scopeType, names)
  {
    names[if scopeType == "BRAND" then s.brandId.value else s.categoryId.value]
  }

  /** Where the first scope that resolves sits, or `|scopes|` when none does. */
  function FirstResolving(scopes: seq<BC.Scope>, scopeType: string, names: map<int, string>): (i: nat)
    ensures i <= |scopes|
    ensures i < |scopes| ==> Resolves(scopes[i], scopeType, names)
    ensures forall j :: 0 <= j < i ==> !Resolves(scopes[j], scopeType, names)
  {
    if scopes == [] then 0
    else if Resolves(scopes[0], scopeType, names) then 0
    else 1 + FirstResolving(scopes[1..], scopeType, names)
  }

  /** `scopes.stream().filter(type and id).map(names::get).filter(nonNull).findFirst()`. */
  function FirstName(scopes: seq<BC.Scope>, scopeType: string, names: map<int, string>): Option<string>
  {
    var i := FirstResolving(scopes, scopeType, names);
    if i < |scopes| then Some(NameOf(scopes[i], scopeType, names)) else None
  }

  /** The group key: the first resolvable category's name, or "기타". */
  function CategoryNameOf(rule: BC.BenefitRule, categories: map<int, string>): string
  {
    FirstName(rule.scopes, "CATEGORY", categories).GetOr(OTHER_CATEGORY)
  }

  /** The item's brand: the first resolvable BRAND scope, else the product's brand, else its issuer (possibly null). */
  function BrandNameOf(rule: BC.BenefitRule, brands: map<int, string>, product: Product): Option<string>
  {
    var scoped := FirstName(rule.scopes, "BRAND", brands);
    if scoped.Some? then scoped
    else if product.brandName.Some? then product.brandName
    else product.issuer
  }

  // ---------------------------------------------------------------------------
  // BigDecimal text of a rate
  // ---------------------------------------------------------------------------

  function Zeros(k: nat): (r: string)
    ensures |r| == k && forall i :: 0 <= i < k ==> r[i] == '0'
  {
    seq(k, _ => '0')
  }

  /** `stripTrailingZeros`: the same number with no trailing zero in its unscaled value; zero becomes 0 with scale 0. */
  function StripTrailingZeros(d: Decimal): (r: Decimal)
    ensures r.Value() == d.Value()
    ensures d.unscaled == 0 ==> r == Decimal(0, 0)
    ensures d.unscaled != 0 ==> r.unscaled % 10 != 0
    decreases Abs(d.unscaled)
  {
    if d.unscaled == 0 then
      ScaledValueZero(d.scale);
      Decimal(0, 0)
    else if d.unscaled % 10 == 0 then
      var v := d.unscaled / 10;
      assert 10 * v == d.unscaled;
      assert Abs(v) < Abs(d.unscaled);
      ScaledValueShift(v, d.scale);
      StripTrailingZeros(Decimal(v, d.scale - 1))
    else d
  }

  /**
   * `toPlainString`: no exponent. A sign exactly for negatives, a digit at
   * the end, and for a positive scale exactly `scale` digits after the point.
   */
  function PlainString(d: Decimal): (r: string)
    ensures r != [] && IsDigit(r[|r| - 1])
    ensures r[0] == '-' <==> d.unscaled < 0
    ensures d.scale > 0 ==> |r| > d.scale + 1 && r[|r| - 1 - d.scale] == '.' && AllDigits(r[|r| - d.scale..])
    ensures d.scale <= 0 ==> '.' !in r
  {
    if d.scale <= 0 then
      if d.unscaled == 0 then "0" else IntToString(d.unscaled) + Zeros(-d.scale)
    else
      var digits := PadDigits(NatToString(Abs(d.unscaled)), d.scale + 1);
      var cut := |digits| - d.scale;
      var r := (if d.unscaled < 0 then "-" else "") + digits[..cut] + "." + digits[cut..];
      assert r[|r| - d.scale..] == digits[cut..];
      r
  }

  /**
   * The number `percent` prints: the rate times 100, exactly (trailing zeros
   * stripped) below scale 3, otherwise rounded half up to one decimal place.
   */
  function PercentNumber(rate: Decimal): (r: Decimal)
    ensures rate.scale < 3 ==> r.Value() == 100.0 * rate.Value()
    ensures rate.scale >= 3 ==> r.scale == 1 && WithinHalf(Abs(100 * rate.unscaled), Pow10(rate.scale - 1), Abs(r.unscaled))
  {
    var hundredfold := Decimal(rate.unscaled * 100, rate.scale);
    if rate.scale < 3 then
      ScaledValueTimes(rate.unscaled, 100, rate.scale);
      assert 100 * rate.unscaled == rate.unscaled * 100;
      StripTrailingZeros(hundredfold)
    else
      SetScaleOneHalfUp(hundredfold)
  }

  /** `percent(rate)`: "" for null, else the percentage's plain text and '%'. */
  function Percent(rate: Option<Decimal>): (r: string)
    ensures rate.None? ==> r == ""
    ensures rate.Some? ==> r != [] && r[|r| - 1] == '%' && r[..|r| - 1] == PlainString(PercentNumber(rate.value))
  {
    if rate.None? then "" else PlainString(PercentNumber(rate.value)) + "%"
  }

  /** 0.1 becomes 10.0, stripped to 1E+1, and prints as "10%". */
  lemma PercentOfTenth()
    ensures Percent(Some(Decimal(1, 1))) == "10%"
  {
    assert StripTrailingZeros(Decimal(10, 0)) == Decimal(1, -1);
    assert StripTrailingZeros(Decimal(100, 1)) == Decimal(1, -1);
    assert NatToString(1) == "1";
    assert PlainString(Decimal(1, -1)) == "10";
  }

  /** 0.1234 has scale 4, so it becomes 12.3400 rounded to "12.3%". */
  lemma PercentRounded()
    ensures Percent(Some(Decimal(1234, 4))) == "12.3%"
  {
    assert SetScaleOneHalfUp(Decimal(123400, 4)) == Decimal(123, 1);
    assert NatToString(123) == "123";
    assert PlainString(Decimal(123, 1)) == "12.3";
  }

  /** `amount(won)`: "%,d원", or "" for null. */
  function Amount(won: Option<int>): (r: string)
    ensures won.None? ==> r == ""
    ensures won.Some? ==> r == FormatGrouped(won.value) + "원"
  {
    if won.None? then "" else FormatGrouped(won.value) + "원"
  }

  // ---------------------------------------------------------------------------
  // Title and subtitle
  // ---------------------------------------------------------------------------

  /** The benefit type's label: DISCOUNT, CASHBACK and POINT in any case, anything else "혜택". */
  function TypeLabel(benefitType: Option<string>): string
  {
    var t := Upper(benefitType.GetOr(""));
    if t == "DISCOUNT" then "할인"
    else if t == "CASHBACK" then "캐시백"
    else if t == "POINT" then "적립"
    else "혜택"
  }

  /** The value text: the percentage of a RATE rule, the amount of an AMOUNT rule, "" otherwise. */
  function ValueText(rule: BC.BenefitRule): string
  {
    var v := Upper(rule.valueType.GetOr(""));
    if v == "RATE" then Percent(rule.valueRate)
    else if v == "AMOUNT" then Amount(rule.valueAmount)
    else ""
  }

  /** `buildTitle`: the type label, preceded by the value text and a space when that text is not blank. */
  function BuildTitle(rule: BC.BenefitRule): string
  {
    var value := ValueText(rule);
    if IsBlank(value) then TypeLabel(rule.benefitType) else value + " " + TypeLabel(rule.benefitType)
  }

  /**
   * The value text is either empty or not blank, so a title carries a value
   * exactly when the rule is a RATE rule with a rate or an AMOUNT rule with
   * an amount, and it always ends with the type label.
   */
  lemma TitleShape(rule: BC.BenefitRule)
    ensures var v := Upper(rule.valueType.GetOr(""));
      ValueText(rule) == "" <==> !(v == "RATE" && rule.valueRate.Some?) && !(v == "AMOUNT" && rule.valueAmount.Some?)
    ensures ValueText(rule) == "" ==> BuildTitle(rule) == TypeLabel(rule.benefitType)
    ensures ValueText(rule) != "" ==> BuildTitle(rule) == ValueText(rule) + " " + TypeLabel(rule.benefitType)
  {
    var value := ValueText(rule);
    if value != "" {
      assert value[|value| - 1] == '%' || value[|value| - 1] == '원';
      assert !IsWhitespace(value[|value| - 1]);
    }
  }

  /** The parts of the subtitle, in order: the cap, the minimum spend, the description. */
  function SubtitleParts(rule: BC.BenefitRule): (parts: seq<string>)
    ensures forall k :: 0 <= k < |parts| ==> parts[k] != []
  {
    (if rule.maxBenefitAmount.Some? && rule.maxBenefitAmount.value > 0
     then ["1회 최대 " + Amount(rule.maxBenefitAmount)] else [])
    + (if rule.minAmount.Some? && rule.minAmount.value > 0
       then ["최소 " + Amount(rule.minAmount) + " 결제"] else [])
    + (if rule.description.Some? && !IsBlank(rule.description.value)
       then [rule.description.value] else [])
  }

  /** `buildSubtitle`: the parts joined with " / ". */
  function BuildSubtitle(rule: BC.BenefitRule): string
  {
    JoinWith(SubtitleParts(rule), " / ")
  }

  lemma {:induction false} JoinNonEmpty(parts: seq<string>, sep: string)
    requires parts != [] && parts[0] != []
    ensures JoinWith(parts, sep) != []
  {
  }

  /** The subtitle is empty exactly when the rule has no positive cap, no positive minimum and no non-blank description. */
  lemma SubtitleEmpty(rule: BC.BenefitRule)
    ensures BuildSubtitle(rule) == "" <==>
      !(rule.maxBenefitAmount.Some? && rule.maxBenefitAmount.value > 0)
      && !(rule.minAmount.Some? && rule.minAmount.value > 0)
      && !(rule.description.Some? && !IsBlank(rule.description.value))
  {
    var parts := SubtitleParts(rule);
    if parts != [] {
      JoinNonEmpty(parts, " / ");
    }
  }

  // ---------------------------------------------------------------------------
  // Grouping
  // ---------------------------------------------------------------------------

  /** An item together with its group key. */
  datatype Keyed = Keyed(category: string, item: BenefitItem)

  function KeyedRule(rule: BC.BenefitRule, product: Product, categories: map<int, string>, brands: map<int, string>): Keyed
  {
    Keyed(CategoryNameOf(rule, categories), BenefitItem(BrandNameOf(rule, brands, product), BuildTitle(rule), BuildSubtitle(rule)))
  }

  /** One keyed item per rule, in rule order. */
  function KeyedOf(rules: seq<BC.BenefitRule>, product: Product, categories: map<int, string>, brands: map<int, string>)
    : (r: seq<Keyed>)
    ensures |r| == |rules|
  {
    if rules == [] then []
    else KeyedOf(rules[..|rules| - 1], product, categories, brands) + [KeyedRule(rules[|rules| - 1], product, categories, brands)]
  }

  /** Where `key` sits among the groups, or `|groups|` when it is absent. */
  function KeyIndex(groups: seq<BenefitGroup>, key: string): (i: nat)
    ensures i <= |groups|
    ensures i < |groups| ==> groups[i].category == key
    ensures forall j :: 0 <= j < i ==> groups[j].category != key
  {
    if groups == [] then 0
    else if groups[0].category == key then 0
    else 1 + KeyIndex(groups[1..], key)
  }

  /** `grouped.computeIfAbsent(key, k -> new ArrayList<>()).add(item)`. */
  function AddToGroup(groups: seq<BenefitGroup>, key: string, item: BenefitItem): seq<BenefitGroup>
  {
    var i := KeyIndex(groups, key);
    if i < |groups| then groups[i := BenefitGroup(key, groups[i].items + [item])]
    else groups + [BenefitGroup(key, [item])]
  }

  function GroupAll(keyed: seq<Keyed>): seq<BenefitGroup>
  {
    if keyed == [] then []
    else
      var last := keyed[|keyed| - 1];
      AddToGroup(GroupAll(keyed[..|keyed| - 1]), last.category, last.item)
  }

  /** The items with a given key, in input order. */
  function ItemsWithKey(keyed: seq<Keyed>, key: string): seq<BenefitItem>
  {
    if keyed == [] then []
    else
      var last := keyed[|keyed| - 1];
      ItemsWithKey(keyed[..|keyed| - 1], key) + (if last.category == key then [last.item] else [])
  }

  function KeysOf(keyed: seq<Keyed>): (r: seq<string>)
    ensures |r| == |keyed| && forall k :: 0 <= k < |r| ==> r[k] == keyed[k].category
  {
    seq(|keyed|, k requires 0 <= k < |keyed| => keyed[k].category)
  }

  function Categories(groups: seq<BenefitGroup>): (r: seq<string>)
    ensures |r| == |groups| && forall k :: 0 <= k < |r| ==> r[k] == groups[k].category
  {
    seq(|groups|, k requires 0 <= k < |groups| => groups[k].category)
  }

  function TotalItems(groups: seq<BenefitGroup>): nat
  {
    if groups == [] then 0 else TotalItems(groups[..|groups| - 1]) + |groups[|groups| - 1].items|
  }

  lemma {:induction false} TotalItemsUpdate(groups: seq<BenefitGroup>, i: nat, g: BenefitGroup)
    requires i < |groups|
    ensures TotalItems(groups[i := g]) == TotalItems(groups) - |groups[i].items| + |g.items|
  {
    var n := |groups|;
    var updated := groups[i := g];
    if i == n - 1 {
      assert updated[..n - 1] == groups[..n - 1];
    } else {
      TotalItemsUpdate(groups[..n - 1], i, g);
      assert updated[..n - 1] == groups[..n - 1][i := g];
    }
  }

  lemma TotalItemsAppend(groups: seq<BenefitGroup>, g: BenefitGroup)
    ensures TotalItems(groups + [g]) == TotalItems(groups) + |g.items|
  {
    assert (groups + [g])[..|groups|] == groups;
  }

  predicate DistinctCategories(groups: seq<BenefitGroup>)
  {
    forall i, j :: 0 <= i < j < |groups| ==> groups[i].category != groups[j].category
  }

  /** One `computeIfAbsent(..).add(item)`: the key is appended when new, the item lands in its key's group only. */
  lemma AddToGroupStep(groups: seq<BenefitGroup>, key: string, item: BenefitItem)
    requires DistinctCategories(groups)
    ensures var r := AddToGroup(groups, key, item);
      && DistinctCategories(r)
      && Categories(r) == (if key in Categories(groups) then Categories(groups) else Categories(groups) + [key])
      && TotalItems(r) == TotalItems(groups) + 1
      && |r| >= |groups|
      && (forall j :: 0 <= j < |groups| ==> r[j].category == groups[j].category)
      && forall j :: 0 <= j < |r| ==>
           r[j].items == (if j < |groups| then groups[j].items else []) + (if r[j].category == key then [item] else [])
  {
    var i := KeyIndex(groups, key);
    var r := AddToGroup(groups, key, item);
    if i < |groups| {
      assert key in Categories(groups);
      TotalItemsUpdate(groups, i, BenefitGroup(key, groups[i].items + [item]));
      assert Categories(r) == Categories(groups);
    } else {
      assert key !in Categories(groups);
      TotalItemsAppend(groups, BenefitGroup(key, [item]));
      assert Categories(r) == Categories(groups) + [key];
    }
  }

  /** The keys of all but the last item are the first keys. */
  lemma KeysOfInit(keyed: seq<Keyed>)
    requires keyed != []
    ensures KeysOf(keyed[..|keyed| - 1]) == KeysOf(keyed)[..|keyed| - 1]
  {
  }

  /** Grouping: the keys appear in the order in which a rule first produced them. */
  lemma {:induction false} GroupAllKeys(keyed: seq<Keyed>)
    ensures Categories(GroupAll(keyed)) == FirstSeen(KeysOf(keyed))
  {
    if keyed != [] {
      var init, last := keyed[..|keyed| - 1], keyed[|keyed| - 1];
      GroupAllKeys(init);
      GroupAllTotal(init);
      AddToGroupStep(GroupAll(init), last.category, last.item);
      KeysOfInit(keyed);
      FirstSeenStep(KeysOf(keyed));
      FirstSeenMembers(KeysOf(init));
    }
  }

  /** Grouping: the groups together hold every item once. */
  lemma {:induction false} GroupAllTotal(keyed: seq<Keyed>)
    ensures DistinctCategories(GroupAll(keyed))
    ensures TotalItems(GroupAll(keyed)) == |keyed|
  {
    if keyed != [] {
      var init, last := keyed[..|keyed| - 1], keyed[|keyed| - 1];
      GroupAllTotal(init);
      AddToGroupStep(GroupAll(init), last.category, last.item);
    }
  }

  lemma ItemsWithKeyStep(keyed: seq<Keyed>, key: string)
    requires keyed != []
    ensures var last := keyed[|keyed| - 1];
      ItemsWithKey(keyed, key) == ItemsWithKey(keyed[..|keyed| - 1], key) + (if last.category == key then [last.item] else [])
  {
  }

  /** Grouping: every group holds exactly the items with its key, in rule order. */
  lemma {:induction false} GroupAllItems(keyed: seq<Keyed>)
    ensures var groups := GroupAll(keyed);
      forall i :: 0 <= i < |groups| ==> groups[i].items == ItemsWithKey(keyed, groups[i].category)
  {
    if keyed != [] {
      var init, last := keyed[..|keyed| - 1], keyed[|keyed| - 1];
      GroupAllItems(init);
      GroupAllKeys(init);
      GroupAllTotal(init);
      var before := GroupAll(init);
      var groups := GroupAll(keyed);
      AddToGroupStep(before, last.category, last.item);
      forall j | 0 <= j < |groups|
        ensures groups[j].items == ItemsWithKey(keyed, groups[j].category)
      {
        var c := groups[j].category;
        ItemsWithKeyStep(keyed, c);
        if j >= |before| {
          assert Categories(groups)[j] == c;
          assert c !in Categories(before) && c == last.category;
          FirstSeenMembers(KeysOf(init));
          KeysOfInit(keyed);
          ItemsWithKeyAbsent(init, c);
        }
      }
    }
  }

  /** A key that never occurs has no items. */
  lemma {:induction false} ItemsWithKeyAbsent(keyed: seq<Keyed>, key: string)
    requires key !in KeysOf(keyed)
    ensures ItemsWithKey(keyed, key) == []
  {
    if keyed != [] {
      var init := keyed[..|keyed| - 1];
      assert KeysOf(keyed)[..|keyed| - 1] == KeysOf(init);
      assert keyed[|keyed| - 1].category == KeysOf(keyed)[|keyed| - 1];
      ItemsWithKeyAbsent(init, key);
    }
  }

  // ---------------------------------------------------------------------------
  // Sorting each group by title
  // ---------------------------------------------------------------------------

  /** `Comparator.comparing(BenefitItem::getTitle)`. */
  predicate ByTitle(a: BenefitItem, b: BenefitItem)
  {
    StringLe(a.title, b.title)
  }

  lemma ByTitleIsTotalPreorder()
    ensures IsTotalPreorder(ByTitle)
  {
    forall a: BenefitItem, b: BenefitItem ensures ByTitle(a, b) || ByTitle(b, a) {
      StringLeTotal(a.title, b.title);
    }
    forall a: BenefitItem, b: BenefitItem, c: BenefitItem | ByTitle(a, b) && ByTitle(b, c) ensures ByTitle(a, c) {
      StringLeTransitive(a.title, b.title, c.title);
    }
  }

  function SortGroup(g: BenefitGroup): BenefitGroup
  {
    BenefitGroup(g.category, Sort(g.items, ByTitle))
  }

  function SortGroups(groups: seq<BenefitGroup>): (r: seq<BenefitGroup>)
    ensures |r| == |groups| && forall k :: 0 <= k < |r| ==> r[k] == SortGroup(groups[k])
  {
    seq(|groups|, k requires 0 <= k < |groups| => SortGroup(groups[k]))
  }

  /** What `loadBenefitItemsGroupedByCategory` returns for the rules of a card. */
  function Grouped(rules: seq<BC.BenefitRule>, product: Product, categories: map<int, string>, brands: map<int, string>)
    : seq<BenefitGroup>
  {
    SortGroups(GroupAll(KeyedOf(rules, product, categories, brands)))
  }

  /**
   * The screen's groups: none when the card has no active rule; otherwise
   * distinct categories in order of first appearance, each holding its
   * rules' items sorted by title (a stable permutation of them), one item
   * per rule in all.
   */
  lemma GroupedShape(rules: seq<BC.BenefitRule>, product: Product, categories: map<int, string>, brands: map<int, string>)
    ensures var keyed, groups := KeyedOf(rules, product, categories, brands), Grouped(rules, product, categories, brands);
      && (rules == [] ==> groups == [])
      && Categories(groups) == FirstSeen(KeysOf(keyed))
      && (forall i, j :: 0 <= i < j < |groups| ==> groups[i].category != groups[j].category)
      && TotalItems(groups) == |rules|
      && forall i :: 0 <= i < |groups| ==>
           && Sorted(groups[i].items, ByTitle)
           && multiset(groups[i].items) == multiset(ItemsWithKey(keyed, groups[i].category))
           && forall x :: SameClass(groups[i].items, x, ByTitle) == SameClass(ItemsWithKey(keyed, groups[i].category), x, ByTitle)
  {
    var keyed := KeyedOf(rules, product, categories, brands);
    var unsorted := GroupAll(keyed);
    var groups := SortGroups(unsorted);
    GroupAllKeys(keyed);
    GroupAllTotal(keyed);
    GroupAllItems(keyed);
    ByTitleIsTotalPreorder();
    assert Categories(groups) == Categories(unsorted);
    SortKeepsTotal(unsorted);
    forall i | 0 <= i < |groups|
      ensures Sorted(groups[i].items, ByTitle)
      ensures forall x :: SameClass(groups[i].items, x, ByTitle) == SameClass(ItemsWithKey(keyed, groups[i].category), x, ByTitle)
    {
      SortSorted(unsorted[i].items, ByTitle);
      forall x ensures SameClass(groups[i].items, x, ByTitle) == SameClass(unsorted[i].items, x, ByTitle) {
        SortStable(unsorted[i].items, x, ByTitle);
      }
    }
  }

  lemma {:induction false} SortKeepsTotal(groups: seq<BenefitGroup>)
    ensures TotalItems(SortGroups(groups)) == TotalItems(groups)
  {
    if groups != [] {
      var init := groups[..|groups| - 1];
      SortKeepsTotal(init);
      assert SortGroups(groups)[..|groups| - 1] == SortGroups(init);
    }
  }

  /** `loadBenefitItemsGroupedByCategory` over the card's active rules, as the repository orders them. */
  method LoadBenefitItemsGroupedByCategory(
    card: UserAsset, rules: seq<BC.BenefitRule>, categories: map<int, string>, brands: map<int, string>)
    returns (grouped: seq<BenefitGroup>)
    ensures grouped == Grouped(rules, card.product, categories, brands)
  {
    if rules == [] {
      return [];
    }
    grouped := [];
    for j := 0 to |rules|
      invariant grouped == GroupAll(KeyedOf(rules[..j], card.product, categories, brands))
    {
      var r := rules[j];
      var categoryName := CategoryNameOf(r, categories);
      var brandName := BrandNameOf(r, brands, card.product);
      var title := BuildTitle(r);
      var subtitle := BuildSubtitle(r);
      GroupOneMore(rules, j, card.product, categories, brands);
      grouped := AddToGroup(grouped, categoryName, BenefitItem(brandName, title, subtitle));
    }
    assert rules[..|rules|] == rules;
    grouped := SortEachGroup(grouped);
  }

  /** `grouped.values().forEach(list -> list.sort(comparing(title)))`. */
  method SortEachGroup(groups: seq<BenefitGroup>) returns (sorted: seq<BenefitGroup>)
    ensures sorted == SortGroups(groups)
  {
    sorted := groups;
    for i := 0 to |sorted|
      invariant |sorted| == |groups|
      invariant forall k :: 0 <= k < i ==> sorted[k] == SortGroup(groups[k])
      invariant forall k :: i <= k < |sorted| ==> sorted[k] == groups[k]
    {
      sorted := sorted[i := BenefitGroup(sorted[i].category, Sort(sorted[i].items, ByTitle))];
    }
  }

  lemma GroupOneMore(rules: seq<BC.BenefitRule>, j: nat, product: Product, categories: map<int, string>, brands: map<int, string>)
    requires j < |rules|
    ensures var k := KeyedRule(rules[j], product, categories, brands);
      GroupAll(KeyedOf(rules[..j + 1], product, categories, brands))
      == AddToGroup(GroupAll(KeyedOf(rules[..j], product, categories, brands)), k.category, k.item)
  {
    assert rules[..j + 1][..j] == rules[..j];
    var keyed := KeyedOf(rules[..j + 1], product, categories, brands);
    assert keyed[..j] == KeyedOf(rules[..j], product, categories, brands);
  }
}
