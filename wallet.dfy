/**
 * `WalletService`: gifticon redemption, the gifticon list's paging, sort
 * and expiry-window parameters, and the card-benefit screen's split into
 * the user's preferred categories and the rest.
 */
module Wallet {
  import opened Common
  import opened Assets
  import BC = BenefitCalculation
  import BA = BenefitAggregation

  // ---------------------------------------------------------------------------
  // Gifticon redemption
  // ---------------------------------------------------------------------------

  /** A `gifticon_redemptions` row; the instant is handed in by the clock. */
  datatype Redemption = Redemption(assetId: int, usedAmount: int, redeemedAt: int)

  /** BAD_REQUEST "usedAmount must be > 0", NOT_FOUND "Gifticon not found", BAD_REQUEST "Insufficient balance". */
  datatype RedeemError = InvalidAmount | GifticonNotFound | InsufficientBalance

  /** `findWithLockByIdAndUserIdAndAssetType(id, userId, GIFTICON)`. */
  predicate OwnsGifticon(assets: map<int, UserAsset>, userId: int, gifticonId: int)
  {
    gifticonId in assets && assets[gifticonId].userId == userId && assets[gifticonId].assetType == GIFTICON
  }

  /** The gifticon after a redemption of `used`: the balance drops by it, and an emptied gifticon is USED. */
  function Redeemed(a: UserAsset, used: int): (r: UserAsset)
    requires a.balance.Some?
  {
    var balance := a.balance.value - used;
    a.(balance := Some(balance), gifticonStatus := if balance == 0 then Some(USED) else a.gifticonStatus)
  }

  /**
   * `redeemGifticon`: the amount is checked before the lookup, the balance
   * after it; on success the gifticon as it is saved.
   */
  function Redeem(assets: map<int, UserAsset>, userId: int, gifticonId: int, usedAmount: Option<int>)
    : (r: Result<UserAsset, RedeemError>)
    ensures (usedAmount.None? || usedAmount.value <= 0) ==> r == Err(InvalidAmount)
    ensures (usedAmount.Some? && usedAmount.value > 0 && !OwnsGifticon(assets, userId, gifticonId))
            ==> r == Err(GifticonNotFound)
    ensures r.Ok? <==> (usedAmount.Some? && usedAmount.value > 0 && OwnsGifticon(assets, userId, gifticonId)
                        && assets[gifticonId].balance.Some? && assets[gifticonId].balance.value >= usedAmount.value)
    ensures r.Ok? ==> (var old_ := assets[gifticonId];
                       && r.value.balance == Some(old_.balance.value - usedAmount.value)
                       && r.value.balance.value >= 0
                       && (r.value.gifticonStatus == Some(USED) <==> r.value.balance.value == 0 || old_.gifticonStatus == Some(USED))
                       && (r.value.balance.value != 0 ==> r.value.gifticonStatus == old_.gifticonStatus)
                       && r.value.(balance := old_.balance, gifticonStatus := old_.gifticonStatus) == old_)
  {
    if usedAmount.None? || usedAmount.value <= 0 then Err(InvalidAmount)
    else if !OwnsGifticon(assets, userId, gifticonId) then Err(GifticonNotFound)
    else
      var a := assets[gifticonId];
      if a.balance.None? || a.balance.value < usedAmount.value then Err(InsufficientBalance)
      else Ok(Redeemed(a, usedAmount.value))
  }

  /** The amounts redeemed from one gifticon. */
  function RedeemedTotal(redemptions: seq<Redemption>, assetId: int): int
  {
    if redemptions == [] then 0
    else
      var last := redemptions[|redemptions| - 1];
      RedeemedTotal(redemptions[..|redemptions| - 1], assetId) + (if last.assetId == assetId then last.usedAmount else 0)
  }

  class WalletStore {
    /** `user_assets` by primary key. */
    var assets: map<int, UserAsset>
    /** `gifticon_redemptions`, in insertion order. */
    var redemptions: seq<Redemption>

    predicate Valid()
      reads this
    {
      forall id :: id in assets ==> assets[id].id == id
    }

    constructor (assets: map<int, UserAsset>)
      requires forall id :: id in assets ==> assets[id].id == id
      ensures Valid() && this.assets == assets && redemptions == []
    {
      this.assets := assets;
      redemptions := [];
    }

    /**
     * `redeemGifticon`: a rejected call changes nothing; an accepted one
     * saves the gifticon as `Redeem` describes and exactly one redemption of
     * `usedAmount`, so the balance plus what was redeemed stays the same.
     */
    method RedeemGifticon(userId: int, gifticonId: int, usedAmount: Option<int>, now: int)
      returns (r: Result<(), RedeemError>)
      requires Valid()
      modifies this
      ensures Valid()
      ensures var outcome := Redeem(old(assets), userId, gifticonId, usedAmount);
        && (r.Err? <==> outcome.Err?)
        && (r.Err? ==> r.error == outcome.error && assets == old(assets) && redemptions == old(redemptions))
        && (r.Ok? ==> assets == old(assets)[gifticonId := outcome.value]
                      && redemptions == old(redemptions) + [Redemption(gifticonId, usedAmount.value, now)])
      ensures r.Ok? ==> assets[gifticonId].balance.value + RedeemedTotal(redemptions, gifticonId)
                        == old(assets)[gifticonId].balance.value + RedeemedTotal(old(redemptions), gifticonId)
    {
      if usedAmount.None? || usedAmount.value <= 0 {
        return Err(InvalidAmount);
      }
      if !(gifticonId in assets && assets[gifticonId].userId == userId && assets[gifticonId].assetType == GIFTICON) {
        return Err(GifticonNotFound);
      }
      var ua := assets[gifticonId];
      if ua.balance.None? || ua.balance.value < usedAmount.value {
        return Err(InsufficientBalance);
      }
      ua := ua.(balance := Some(ua.balance.value - usedAmount.value));
      if ua.balance.value == 0 {
        ua := ua.(gifticonStatus := Some(USED));
      }
      assets := assets[gifticonId := ua];
      redemptions := redemptions + [Redemption(gifticonId, usedAmount.value, now)];
      assert redemptions[..|redemptions| - 1] == old(redemptions);
      return Ok(());
    }
  }

  /** Several redemptions of one gifticon, in order; the first rejection stops the run. */
  function RedeemAll(assets: map<int, UserAsset>, userId: int, gifticonId: int, uses: seq<int>)
    : Result<map<int, UserAsset>, RedeemError>
  {
    if uses == [] then Ok(assets)
    else
      match RedeemAll(assets, userId, gifticonId, uses[..|uses| - 1])
      case Err(e) => Err(e)
      case Ok(m) =>
        match Redeem(m, userId, gifticonId, Some(uses[|uses| - 1]))
        case Err(e) => Err(e)
        case Ok(a) => Ok(m[gifticonId := a])
  }

  function Sum(xs: seq<int>): int
  {
    if xs == [] then 0 else Sum(xs[..|xs| - 1]) + xs[|xs| - 1]
  }

  /**
   * A run of accepted redemptions takes exactly their total off the
   * balance, which therefore never exceeded it; nothing else about the
   * gifticon, and no other asset, changes.
   */
  lemma {:induction false} RedeemAllTotal(assets: map<int, UserAsset>, userId: int, gifticonId: int, uses: seq<int>)
    requires RedeemAll(assets, userId, gifticonId, uses).Ok?
    requires uses != []
    ensures var m := RedeemAll(assets, userId, gifticonId, uses).value;
      && OwnsGifticon(assets, userId, gifticonId) && assets[gifticonId].balance.Some?
      && m.Keys == assets.Keys
      && (forall id :: id in assets && id != gifticonId ==> m[id] == assets[id])
      && m[gifticonId].balance == Some(assets[gifticonId].balance.value - Sum(uses))
      && Sum(uses) <= assets[gifticonId].balance.value
      && m[gifticonId].(balance := None, gifticonStatus := None) == assets[gifticonId].(balance := None, gifticonStatus := None)
  {
    var init := uses[..|uses| - 1];
    if init != [] {
      RedeemAllTotal(assets, userId, gifticonId, init);
    }
  }

  /** Once a redemption empties a gifticon it is USED, and any further redemption is refused. */
  lemma EmptiedGifticonRefused(assets: map<int, UserAsset>, userId: int, gifticonId: int, used: int, more: int)
    requires Redeem(assets, userId, gifticonId, Some(used)).Ok?
    requires Redeem(assets, userId, gifticonId, Some(used)).value.balance == Some(0)
    ensures Redeem(assets, userId, gifticonId, Some(used)).value.gifticonStatus == Some(USED)
    ensures var after := assets[gifticonId := Redeem(assets, userId, gifticonId, Some(used)).value];
      Redeem(after, userId, gifticonId, Some(more)).Err?
  {
  }

  // ---------------------------------------------------------------------------
  // Gifticon list parameters
  // ---------------------------------------------------------------------------

  datatype Direction = ASC | DESC

  /** A Spring Data `Sort.Order`. */
  datatype SortOrder = SortOrder(direction: Direction, property: string)

  /**
   * Why no order came out: indexing the empty array that `split` returns
   * for a string of commas, or the `Sort.Order` constructor refusing a
   * property without text.
   */
  datatype SortError = NoPieces | BlankProperty

  const DEFAULT_SORT: SortOrder := SortOrder(ASC, "expiresAt")

  /** `parseSort` as written. */
  function ParseSort(sort: Option<string>): (r: Result<SortOrder, SortError>)
    ensures (sort.None? || IsBlank(sort.value)) ==> r == Ok(DEFAULT_SORT)
    ensures r.Ok? && sort.Some? && !IsBlank(sort.value) ==>
      var p := JavaSplit(sort.value, ',');
      && p != []
      && r.value.property == Trim(p[0]) && !IsBlank(r.value.property)
      && (r.value.direction == DESC <==> |p| > 1 && EqualsIgnoreCase("desc", Trim(p[1])))
  {
    if sort.None? || IsBlank(sort.value) then Ok(DEFAULT_SORT)
    else
      var p := JavaSplit(sort.value, ',');
      if p == [] then Err(NoPieces)
      else
        var property := Trim(p[0]);
        var desc := |p| > 1 && EqualsIgnoreCase("desc", Trim(p[1]));
        if IsBlank(property) then Err(BlankProperty)
        else Ok(SortOrder(if desc then DESC else ASC, property))
  }

  /** A sort parameter of nothing but a comma makes `split` return no pieces, and `p[0]` throws. */
  lemma ParseSortComma()
    ensures ParseSort(Some(",")) == Err(NoPieces)
  {
    assert Pieces(",", ',') == [[], []] by {
      assert FirstIndex(",", ',') == 0;
      assert ","[1..] == [];
    }
    assert DropTrailingEmpty([[], []]) == [];
  }

  /**
   * `parseSort` with the blank-input default extended to a parameter that
   * names no property: the direction is still read, and the result is
   * always an order Spring accepts.
   */
  function ParseSortOrDefault(sort: Option<string>): (r: SortOrder)
    ensures !IsBlank(r.property)
    ensures ParseSort(sort).Ok? ==> r == ParseSort(sort).value
    ensures ParseSort(sort).Err? ==> r.property == DEFAULT_SORT.property
  {
    assert !IsWhitespace(DEFAULT_SORT.property[0]);
    if sort.None? || IsBlank(sort.value) then DEFAULT_SORT
    else
      var p := JavaSplit(sort.value, ',');
      var desc := |p| > 1 && EqualsIgnoreCase("desc", Trim(p[1]));
      var property := if p == [] || IsBlank(Trim(p[0])) then DEFAULT_SORT.property else Trim(p[0]);
      SortOrder(if desc then DESC else ASC, property)
  }

  /** The query `getGifticonList` issues. Dates are epoch days. */
  datatype GifticonQuery = GifticonQuery(
    userId: int,
    status: Option<GifticonStatus>,
    window: Option<(int, int)>,
    page: int,
    size: int,
    order: SortOrder)

  /** A negative page becomes 0, a size of 0 or less becomes 50. */
  function NormalizePage(page: int, size: int): (r: (int, int))
    ensures r.0 == Max(page, 0)
    ensures r.1 == if size <= 0 then 50 else size
    ensures r.0 >= 0 && r.1 > 0
  {
    (if page < 0 then 0 else page, if size <= 0 then 50 else size)
  }

  /** A positive `soonDays` gives the window from today to today plus that many days; otherwise there is none. */
  function SoonWindow(soonDays: Option<int>, today: int): (w: Option<(int, int)>)
    ensures w.Some? <==> soonDays.Some? && soonDays.value > 0
    ensures w.Some? ==> w.value.0 == today && w.value.1 - w.value.0 == soonDays.value
  {
    if soonDays.Some? && soonDays.value > 0 then Some((today, today + soonDays.value)) else None
  }

  /**
   * The query `getGifticonList` issues, with the sort parsed by the
   * corrected parser: wherever the parser as written succeeds it is that
   * order, and a malformed sort falls back to the default property.
   */
  function GifticonListQuery(
    userId: int, status: Option<GifticonStatus>, soonDays: Option<int>, page: int, size: int, sort: Option<string>, today: int)
    : (r: GifticonQuery)
    ensures r.userId == userId && r.status == status
    ensures r.page >= 0 && r.size > 0 && !IsBlank(r.order.property)
    ensures ParseSort(sort).Ok? ==> r.order == ParseSort(sort).value
    ensures r.window == SoonWindow(soonDays, today)
  {
    var (p, s) := NormalizePage(page, size);
    GifticonQuery(userId, status, SoonWindow(soonDays, today), p, s, ParseSortOrDefault(sort))
  }

  /** The `searchGifticons` filter: the user's gifticons, of the status if one is given, expiring in the window if there is one. */
  predicate Matches(q: GifticonQuery, a: UserAsset)
  {
    && a.userId == q.userId
    && a.assetType == GIFTICON
    && (q.status.None? || a.gifticonStatus == q.status)
    && (q.window.None? || (a.expiresAt.Some? && q.window.value.0 <= a.expiresAt.value <= q.window.value.1))
  }

  /** Without a window, every gifticon of the status is listed, expiry date or not; with one, only those expiring within it. */
  lemma WindowOnlyNarrows(q: GifticonQuery, a: UserAsset)
    requires q.window.Some?
    ensures Matches(q, a) ==> Matches(q.(window := None), a)
    ensures Matches(q, a) ==> a.expiresAt.Some? && a.expiresAt.value >= q.window.value.0
  {
  }

  // ---------------------------------------------------------------------------
  // Card benefits: personalized groups first, then the rest
  // ---------------------------------------------------------------------------

  datatype CardBenefitsResponse = CardBenefitsResponse(personalized: seq<BA.BenefitGroup>, others: seq<BA.BenefitGroup>)

  datatype CardError = CardNotFound

  /** The group for `category`, when there is one with items. */
  function NonEmptyGroup(category: string, groups: seq<BA.BenefitGroup>): (r: Option<BA.BenefitGroup>)
    ensures r.Some? ==> r.value in groups && r.value.category == category && r.value.items != []
    ensures r.None? && BA.DistinctCategories(groups) ==> forall g :: g in groups && g.category == category ==> g.items == []
  {
    var i := BA.KeyIndex(groups, category);
    if i < |groups| && groups[i].items != [] then Some(groups[i]) else None
  }

  /** For each category in the given order, its group if it has items. */
  function Personalized(categories: seq<string>, groups: seq<BA.BenefitGroup>): (r: seq<BA.BenefitGroup>)
    ensures |r| <= |categories|
    ensures forall g :: g in r ==> g in groups && g.category in categories && g.items != []
  {
    if categories == [] then []
    else
      var init := Personalized(categories[..|categories| - 1], groups);
      match NonEmptyGroup(categories[|categories| - 1], groups)
      case None => init
      case Some(g) => init + [g]
  }

  /** The groups whose category is not preferred, in map order. */
  function Others(preferred: seq<string>, groups: seq<BA.BenefitGroup>): (r: seq<BA.BenefitGroup>)
    ensures |r| <= |groups|
    ensures forall g :: g in r <==> g in groups && g.category !in preferred
  {
    if groups == [] then []
    else
      var init := Others(preferred, groups[..|groups| - 1]);
      var last := groups[|groups| - 1];
      assert groups == groups[..|groups| - 1] + [last];
      if last.category !in preferred then init + [last] else init
  }

  /** The screen for a card whose groups are `byCategory`. */
  function SplitByPreference(preferred: seq<string>, byCategory: seq<BA.BenefitGroup>): CardBenefitsResponse
  {
    CardBenefitsResponse(Personalized(FirstSeen(preferred), byCategory), Others(preferred, byCategory))
  }

  /**
   * The split is a partition of the groups that have items: each lands in
   * `personalized` exactly when its category is preferred, otherwise in
   * `others`; `others` also keeps a preferred-less empty group, and no group
   * appears twice.
   */
  lemma SplitPartitions(preferred: seq<string>, byCategory: seq<BA.BenefitGroup>)
    requires BA.DistinctCategories(byCategory)
    ensures var r := SplitByPreference(preferred, byCategory);
      && (forall g :: g in r.personalized <==> g in byCategory && g.category in preferred && g.items != [])
      && (forall g :: g in r.others <==> g in byCategory && g.category !in preferred)
  {
    var cats := FirstSeen(preferred);
    FirstSeenMembers(preferred);
    forall g | g in byCategory && g.category in preferred && g.items != []
      ensures g in Personalized(cats, byCategory)
    {
      PersonalizedHas(cats, byCategory, g);
    }
  }

  lemma {:induction false} PersonalizedHas(categories: seq<string>, groups: seq<BA.BenefitGroup>, g: BA.BenefitGroup)
    requires BA.DistinctCategories(groups)
    requires g in groups && g.category in categories && g.items != []
    ensures g in Personalized(categories, groups)
  {
    var init, last := categories[..|categories| - 1], categories[|categories| - 1];
    if g.category == last {
      var k :| 0 <= k < |groups| && groups[k] == g;
      var i := BA.KeyIndex(groups, last);
      assert i == k;
    } else {
      assert categories == init + [last];
      PersonalizedHas(init, groups, g);
    }
  }

  /** The groups' categories all occur in `keys`, in the order of their first occurrences there. */
  predicate OrderedBy(r: seq<BA.BenefitGroup>, keys: seq<string>)
  {
    forall i, j :: 0 <= i < j < |r| ==> InOrder(keys, r[i].category, r[j].category)
  }

  /** `a` and `b` both occur in `keys`, `a` first. */
  predicate InOrder(keys: seq<string>, a: string, b: string)
  {
    a in keys && b in keys && FirstPos(keys, a) < FirstPos(keys, b)
  }

  /** Over duplicate-free categories, the personalized groups keep the order of the categories. */
  lemma {:induction false} PersonalizedOrdered(categories: seq<string>, groups: seq<BA.BenefitGroup>)
    requires Distinct(categories)
    ensures OrderedBy(Personalized(categories, groups), categories)
  {
    if categories != [] {
      var init, last := categories[..|categories| - 1], categories[|categories| - 1];
      PersonalizedOrdered(init, groups);
      var before, r := Personalized(init, groups), Personalized(categories, groups);
      assert categories == init + [last];
      assert last !in init;
      assert FirstPos(categories, last) == |init|;
      forall i | 0 <= i < |before| ensures before[i].category in init
        && FirstPos(categories, before[i].category) == FirstPos(init, before[i].category)
      {
        assert before[i] in before;
        FirstPosAppend(init, last, before[i].category);
      }
      forall i, j | 0 <= i < j < |r| ensures InOrder(categories, r[i].category, r[j].category) {
        assert r[i] == before[i];
        assert FirstPos(categories, r[i].category) == FirstPos(init, r[i].category);
        if j < |before| {
          assert r[j] == before[j];
          assert FirstPos(categories, r[j].category) == FirstPos(init, r[j].category);
          assert InOrder(init, before[i].category, before[j].category);
        } else {
          assert r[j].category == last;
          assert FirstPos(init, before[i].category) < |init|;
        }
      }
    } else {
      assert Personalized(categories, groups) == [];
    }
  }

  lemma FirstSeenPair(keys: seq<string>, a: nat, b: nat)
    requires a < b < |FirstSeen(keys)|
    ensures FirstSeen(keys)[a] in keys && FirstSeen(keys)[b] in keys
    ensures FirstPos(keys, FirstSeen(keys)[a]) < FirstPos(keys, FirstSeen(keys)[b])
  {
    FirstSeenOrdered(keys);
  }

  /** The personalized groups come in the order in which the preferences first name their categories. */
  lemma SplitOrdered(preferred: seq<string>, byCategory: seq<BA.BenefitGroup>)
    ensures OrderedBy(SplitByPreference(preferred, byCategory).personalized, preferred)
  {
    var cats := FirstSeen(preferred);
    FirstSeenDistinct(preferred);
    PersonalizedOrdered(cats, byCategory);
    OrderedByFirstSeen(Personalized(cats, byCategory), preferred);
  }

  /** An order by first positions in the first-seen list is an order by first positions in the list itself. */
  lemma OrderedByFirstSeen(r: seq<BA.BenefitGroup>, keys: seq<string>)
    requires OrderedBy(r, FirstSeen(keys))
    ensures OrderedBy(r, keys)
  {
    forall i, j | 0 <= i < j < |r| ensures InOrder(keys, r[i].category, r[j].category) {
      assert InOrder(FirstSeen(keys), r[i].category, r[j].category);
      OrderedThroughFirstSeen(keys, r[i].category, r[j].category);
    }
  }

  lemma OrderedThroughFirstSeen(keys: seq<string>, x: string, y: string)
    requires InOrder(FirstSeen(keys), x, y)
    ensures InOrder(keys, x, y)
  {
    FirstSeenOrdered(keys);
    var fs := FirstSeen(keys);
    var a, b := FirstPos(fs, x), FirstPos(fs, y);
    assert fs[a] == x && fs[b] == y;
  }

  /** The `for` loops of `getCardBenefits` over the preferred set and then over the grouped map. */
  method SplitGroups(preferred: seq<string>, byCategory: seq<BA.BenefitGroup>)
    returns (personalized: seq<BA.BenefitGroup>, others: seq<BA.BenefitGroup>)
    ensures CardBenefitsResponse(personalized, others) == SplitByPreference(preferred, byCategory)
  {
    var preferredSet := FirstSeen(preferred);
    FirstSeenMembers(preferred);
    personalized := [];
    for k := 0 to |preferredSet|
      invariant personalized == Personalized(preferredSet[..k], byCategory)
    {
      var cat := preferredSet[k];
      var i := BA.KeyIndex(byCategory, cat);
      if i < |byCategory| && byCategory[i].items != [] {
        personalized := personalized + [BA.BenefitGroup(cat, byCategory[i].items)];
      }
      assert preferredSet[..k + 1][..k] == preferredSet[..k];
    }
    assert preferredSet[..|preferredSet|] == preferredSet;
    others := [];
    for k := 0 to |byCategory|
      invariant others == Others(preferred, byCategory[..k])
    {
      var entry := byCategory[k];
      if entry.category !in preferredSet {
        others := others + [entry];
      }
      assert byCategory[..k + 1][..k] == byCategory[..k];
    }
    assert byCategory[..|byCategory|] == byCategory;
  }

  /**
   * `getCardBenefits`: the user's card (NOT_FOUND otherwise), its grouped
   * benefits, split by the preferred categories from the settings service
   * (`None` when the response or its list is null, which counts as none).
   * `activeRules` is `findActiveWithScopesByProductId` by product id.
   */
  method GetCardBenefits(
    assets: map<int, UserAsset>, userId: int, cardId: int, preferredCategories: Option<seq<string>>,
    activeRules: map<int, seq<BC.BenefitRule>>, categories: map<int, string>, brands: map<int, string>)
    returns (r: Result<CardBenefitsResponse, CardError>)
    ensures r.Err? <==> !(cardId in assets && assets[cardId].userId == userId && assets[cardId].assetType == CARD)
    ensures r.Ok? ==> (var card := assets[cardId];
                       var rules := if card.product.id in activeRules then activeRules[card.product.id] else [];
                       r.value == SplitByPreference(preferredCategories.GetOr([]),
                                                    BA.Grouped(rules, card.product, categories, brands)))
  {
    if !(cardId in assets && assets[cardId].userId == userId && assets[cardId].assetType == CARD) {
      return Err(CardNotFound);
    }
    var card := assets[cardId];
    var preferred := preferredCategories.GetOr([]);
    var rules := if card.product.id in activeRules then activeRules[card.product.id] else [];
    var byCategory := BA.LoadBenefitItemsGroupedByCategory(card, rules, categories, brands);
    var personalized, others := SplitGroups(preferred, byCategory);
    return Ok(CardBenefitsResponse(personalized, others));
  }
}
