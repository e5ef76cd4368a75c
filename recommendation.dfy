/**
 * The recommendation engine: it builds every payment combination of the
 * user's assets (each card alone, and each card with each membership),
 * prices each one with the benefit evaluator, ranks the options by
 * expected saving, and keeps them in a session the user may later pick
 * an option from.
 *
 * The three repositories (sessions, options and their items) are maps
 * held by `RecommendationStore`; identity columns are counters.
 */
module Recommendation {
  import opened Common
  import opened Assets
  import opened Sorting
  import BC = BenefitCalculation

  // ---------------------------------------------------------------------------
  // Data
  // ---------------------------------------------------------------------------

  /** The merchant row: the ids of its brand and category, each possibly absent. */
  datatype Merchant = Merchant(id: int, brandId: Option<int>, categoryId: Option<int>)

  /** The request body; a field the client leaves out is absent (every field is a boxed Java type). */
  datatype RecommendationRequest = RecommendationRequest(merchantId: Option<int>, amount: Option<Int32>, useGifticon: Option<bool>)

  /** One asset's best rule inside an option. */
  datatype OptionItem = OptionItem(
    componentType: string,
    componentRefId: int,
    ruleId: Option<int>,
    title: string,
    subtitle: string,
    appliedValue: int,
    sortOrder: int)

  datatype RecOption = RecOption(
    optionId: int,
    sessionId: int,
    expectedPay: int,
    expectedSave: int,
    rankOrder: int,
    items: seq<OptionItem>)

  /** A session; `optionIds` lists its options in rank order. */
  datatype Session = Session(
    sessionId: int,
    userId: int,
    inputAmount: int,
    useGifticon: bool,
    createdAt: int,
    optionIds: seq<int>,
    chosenOptionId: Option<int>)

  datatype RecommendationResponse = RecommendationResponse(
    sessionId: int,
    inputAmount: int,
    useGifticon: bool,
    options: seq<RecOption>)

  /** The exceptions the service raises. */
  datatype RecError =
    | MissingMerchantId    // `findById(null)` refuses a null id
    | InvalidMerchant      // IllegalArgumentException
    | SessionRowRefused    // the session insert meets a null in a NOT NULL column
    | InvalidSession       // IllegalArgumentException
    | InvalidOption        // IllegalArgumentException
    | OptionNotInSession   // IllegalArgumentException
    | SessionNotOwned      // IllegalStateException
    | ChoiceNotOwned       // AccessDeniedException
    | RankIndexOverflow    // the `short` rank counter wraps and `List.get` fails

  const SHORT_MAX: int := 0x7fff

  /** What the benefit evaluator says an asset saves; the recommender needs nothing else of it. */
  type Savings = UserAsset -> seq<BC.RuleSaving>

  /** Everything the benefit evaluator needs besides the combination. */
  datatype Evaluation = Evaluation(
    purchase: BC.Purchase,
    clock: BC.Clock,
    catalog: seq<BC.BenefitRule>,
    counters: BC.Counters)
  {
    predicate Valid() { BC.AllValid(catalog) && clock.today.Valid() }

    /** The evaluator for this purchase: each asset's savings, as `calculatePerAssetRuleSave` computes them. */
    function Evaluator(): Savings
      requires Valid()
    {
      a => BC.AssetSavings(catalog, a, purchase, clock, counters)
    }

    /** `sv` gives every asset the savings `calculatePerAssetRuleSave` computes for this purchase. */
    ghost predicate Evaluates(sv: Savings)
    {
      Valid() && forall a {:trigger BC.AssetSavings(catalog, a, purchase, clock, counters)} ::
        sv(a) == BC.AssetSavings(catalog, a, purchase, clock, counters)
    }
  }

  // ---------------------------------------------------------------------------
  // Combinations
  // ---------------------------------------------------------------------------

  function OfType(assets: seq<UserAsset>, t: AssetType): (r: seq<UserAsset>)
    ensures forall a :: a in r <==> a in assets && a.assetType == t
  {
    if assets == [] then []
    else
      var last := assets[|assets| - 1];
      assert assets == assets[..|assets| - 1] + [last];
      OfType(assets[..|assets| - 1], t) + (if last.assetType == t then [last] else [])
  }

  /** The card alone, then the card with each membership in turn. */
  function CardGroup(card: UserAsset, memberships: seq<UserAsset>): (r: seq<seq<UserAsset>>)
    ensures |r| == |memberships| + 1
    ensures r[0] == [card]
    ensures forall j :: 0 <= j < |memberships| ==> r[j + 1] == [card, memberships[j]]
  {
    if memberships == [] then [[card]]
    else CardGroup(card, memberships[..|memberships| - 1]) + [[card, memberships[|memberships| - 1]]]
  }

  function CombosOf(cards: seq<UserAsset>, memberships: seq<UserAsset>): seq<seq<UserAsset>>
  {
    if cards == [] then []
    else CombosOf(cards[..|cards| - 1], memberships) + CardGroup(cards[|cards| - 1], memberships)
  }

  /** The combinations `generateCombos` produces for the user's assets. */
  function Combos(assets: seq<UserAsset>): seq<seq<UserAsset>>
  {
    CombosOf(OfType(assets, CARD), OfType(assets, MEMBERSHIP))
  }

  /** `generateCombos`: for each card, the card alone and then each card-membership pair. */
  method GenerateCombos(assets: seq<UserAsset>) returns (combos: seq<seq<UserAsset>>)
    ensures combos == Combos(assets)
  {
    var cards := OfType(assets, CARD);
    var memberships := OfType(assets, MEMBERSHIP);
    combos := [];
    for i := 0 to |cards|
      invariant combos == CombosOf(cards[..i], memberships)
    {
      var card := cards[i];
      ghost var done := combos;
      combos := combos + [[card]];
      for j := 0 to |memberships|
        invariant combos == done + CardGroup(card, memberships[..j])
      {
        ghost var group := CardGroup(card, memberships[..j]);
        assert memberships[..j + 1][..j] == memberships[..j];
        assert CardGroup(card, memberships[..j + 1]) == group + [[card, memberships[j]]];
        assert (done + group) + [[card, memberships[j]]] == done + (group + [[card, memberships[j]]]);
        combos := combos + [[card, memberships[j]]];
      }
      assert memberships[..|memberships|] == memberships;
      assert cards[..i + 1][..i] == cards[..i];
      assert CombosOf(cards[..i + 1], memberships) == done + CardGroup(card, memberships);
    }
    assert cards[..|cards|] == cards;
  }

  /** There are (memberships + 1) combinations per card. */
  lemma {:induction false} CombosCount(cards: seq<UserAsset>, memberships: seq<UserAsset>)
    ensures |CombosOf(cards, memberships)| == |cards| * (|memberships| + 1)
  {
    if cards != [] {
      CombosCount(cards[..|cards| - 1], memberships);
      calc {
        |CombosOf(cards, memberships)|;
        (|cards| - 1) * (|memberships| + 1) + (|memberships| + 1);
        |cards| * (|memberships| + 1);
      }
    }
  }

  /**
   * The combinations are exactly each card alone and each card with each
   * membership: nothing else, in particular never a gifticon.
   */
  lemma {:induction false} CombosAreCardsAndPairs(cards: seq<UserAsset>, memberships: seq<UserAsset>)
    ensures forall c :: c in CombosOf(cards, memberships) <==>
      (|c| == 1 && c[0] in cards) || (|c| == 2 && c[0] in cards && c[1] in memberships)
  {
    if cards != [] {
      var init, card := cards[..|cards| - 1], cards[|cards| - 1];
      CombosAreCardsAndPairs(init, memberships);
      assert cards == init + [card];
      var g := CardGroup(card, memberships);
      forall c ensures c in g <==> c == [card] || (|c| == 2 && c[0] == card && c[1] in memberships) {
        if |c| == 2 && c[0] == card && c[1] in memberships {
          var j :| 0 <= j < |memberships| && memberships[j] == c[1];
          assert g[j + 1] == c;
        }
        if c in g && c != [card] {
          var k :| 0 <= k < |g| && g[k] == c;
          assert k != 0;
          assert c == [card, memberships[k - 1]];
        }
      }
    }
  }

  /** No combination ever contains a gifticon, and each contains exactly one card. */
  lemma NoGifticonInCombos(assets: seq<UserAsset>)
    ensures forall c: seq<UserAsset>, a :: c in Combos(assets) && a in c ==> a.assetType != GIFTICON && a in assets
    ensures forall c: seq<UserAsset> :: c in Combos(assets) ==> c != [] && c[0].assetType == CARD
  {
    var cards, memberships := OfType(assets, CARD), OfType(assets, MEMBERSHIP);
    CombosAreCardsAndPairs(cards, memberships);
    forall c: seq<UserAsset> | c in Combos(assets) ensures c != [] && c[0] in cards {
    }
    forall c, a | c in Combos(assets) && a in c ensures a.assetType != GIFTICON && a in assets {
      var k :| 0 <= k < |c| && c[k] == a;
      if k == 0 {
        assert a in cards;
      } else {
        assert a in memberships;
      }
    }
  }

  // ---------------------------------------------------------------------------
  // One option
  // ---------------------------------------------------------------------------

  /**
   * `Stream.max(comparingInt(appliedValue))`: the position of the FIRST
   * largest saving (the reduction keeps the earlier of two equal ones).
   */
  function BestIndex(savings: seq<BC.RuleSaving>): (i: nat)
    requires savings != []
    ensures i < |savings|
    ensures forall j :: 0 <= j < |savings| ==> savings[j].appliedValue <= savings[i].appliedValue
    ensures forall j :: 0 <= j < i ==> savings[j].appliedValue < savings[i].appliedValue
  {
    if |savings| == 1 then 0
    else
      var init := savings[..|savings| - 1];
      var b := BestIndex(init);
      assert forall j :: 0 <= j < |init| ==> init[j] == savings[j];
      if savings[b].appliedValue >= savings[|savings| - 1].appliedValue then b else |savings| - 1
  }

  function Best(savings: seq<BC.RuleSaving>): BC.RuleSaving
    requires savings != []
  {
    savings[BestIndex(savings)]
  }

  /** The best rule's saving, or 0 for an asset with no saving. */
  function BestValue(savings: seq<BC.RuleSaving>): int
  {
    if savings == [] then 0 else Best(savings).appliedValue
  }

  /** `description + " (절감 " + value + "원)"`; a null description prints as "null". */
  function ItemSubtitle(best: BC.RuleSaving): string
  {
    (if best.description.Some? then best.description.value else "null")
      + " (절감 " + IntToString(best.appliedValue) + "원)"
  }

  function ItemFor(ua: UserAsset, best: BC.RuleSaving, order: int): OptionItem
  {
    OptionItem(ua.assetType.Name(), ua.id, Some(best.ruleId), ua.product.name, ItemSubtitle(best), best.appliedValue, order)
  }

  /** The items of a combination: one per asset that saves something, numbered from 1. */
  function ItemsOf(sv: Savings, combo: seq<UserAsset>): (items: seq<OptionItem>)
    ensures |items| <= |combo|
  {
    if combo == [] then []
    else
      var init := ItemsOf(sv, combo[..|combo| - 1]);
      var ua := combo[|combo| - 1];
      var savings := sv(ua);
      if savings == [] then init
      else init + [ItemFor(ua, Best(savings), |init| + 1)]
  }

  /** The exact sum of each asset's best saving. */
  function SumBest(sv: Savings, combo: seq<UserAsset>): int
  {
    if combo == [] then 0
    else SumBest(sv, combo[..|combo| - 1]) + BestValue(sv(combo[|combo| - 1]))
  }

  function SumItems(items: seq<OptionItem>): int
  {
    if items == [] then 0 else SumItems(items[..|items| - 1]) + items[|items| - 1].appliedValue
  }

  /** The option row for a combination, before ranking. Sums are Java `int` arithmetic. */
  function OptionOf(sv: Savings, amount: int, combo: seq<UserAsset>, optionId: int, sessionId: int): (o: RecOption)
    ensures o.optionId == optionId && o.sessionId == sessionId && o.rankOrder == 0
  {
    var save := Wrap32(SumBest(sv, combo));
    RecOption(optionId, sessionId, Wrap32(amount - save), save, 0, ItemsOf(sv, combo))
  }

  /** Item k is numbered k + 1 and carries the first best rule of an asset of the combination. */
  lemma {:induction false} ItemsComeFromBestRules(sv: Savings, combo: seq<UserAsset>)
    ensures forall k :: 0 <= k < |ItemsOf(sv, combo)| ==>
      exists a :: a in combo && sv(a) != [] && ItemsOf(sv, combo)[k] == ItemFor(a, Best(sv(a)), k + 1)
  {
    if combo == [] {
      assert ItemsOf(sv, combo) == [];
    } else {
      var init, ua := combo[..|combo| - 1], combo[|combo| - 1];
      ItemsComeFromBestRules(sv, init);
      var ii, items := ItemsOf(sv, init), ItemsOf(sv, combo);
      forall k | 0 <= k < |items|
        ensures exists a :: a in combo && sv(a) != [] && items[k] == ItemFor(a, Best(sv(a)), k + 1)
      {
        if k < |ii| {
          assert items[k] == ii[k];
          var a :| a in init && sv(a) != [] && ii[k] == ItemFor(a, Best(sv(a)), k + 1);
          assert a in combo;
        } else {
          assert items[k] == ItemFor(ua, Best(sv(ua)), k + 1);
        }
      }
    }
  }

  /** Some item carries `a`'s first best rule. */
  predicate HasItemFor(sv: Savings, items: seq<OptionItem>, a: UserAsset)
    requires sv(a) != []
  {
    exists k :: 0 <= k < |items| && items[k] == ItemFor(a, Best(sv(a)), k + 1)
  }

  /** Every asset of the combination that saves something has its item. */
  lemma {:induction false} EverySavingAssetHasItem(sv: Savings, combo: seq<UserAsset>)
    ensures forall a :: a in combo && sv(a) != [] ==> HasItemFor(sv, ItemsOf(sv, combo), a)
  {
    if combo != [] {
      var init, ua := combo[..|combo| - 1], combo[|combo| - 1];
      EverySavingAssetHasItem(sv, init);
      var ii, items := ItemsOf(sv, init), ItemsOf(sv, combo);
      assert |ii| <= |items| && forall k :: 0 <= k < |ii| ==> items[k] == ii[k];
      forall a | a in combo && sv(a) != []
        ensures HasItemFor(sv, items, a)
      {
        var i :| 0 <= i < |combo| && combo[i] == a;
        if i == |combo| - 1 {
          assert items[|ii|] == ItemFor(a, Best(sv(a)), |ii| + 1);
        } else {
          assert init[i] == a;
          assert HasItemFor(sv, ii, a);
          var k :| 0 <= k < |ii| && ii[k] == ItemFor(a, Best(sv(a)), k + 1);
          assert items[k] == ii[k];
        }
      }
    }
  }

  /** The items' savings add up to the option's expected saving. */
  lemma {:induction false} ItemsAddUpToSaving(sv: Savings, combo: seq<UserAsset>)
    ensures SumItems(ItemsOf(sv, combo)) == SumBest(sv, combo)
  {
    if combo != [] {
      var init := combo[..|combo| - 1];
      ItemsAddUpToSaving(sv, init);
      var items := ItemsOf(sv, combo);
      if sv(combo[|combo| - 1]) != [] {
        assert items[..|items| - 1] == ItemsOf(sv, init);
      }
    }
  }

  /** Hence the stored saving is the `int` sum of the items, and the payment is what is left. */
  lemma OptionTotals(sv: Savings, amount: int, combo: seq<UserAsset>, optionId: int, sessionId: int)
    ensures OptionOf(sv, amount, combo, optionId, sessionId).expectedSave == Wrap32(SumItems(OptionOf(sv, amount, combo, optionId, sessionId).items))
    ensures IsInt32(amount - OptionOf(sv, amount, combo, optionId, sessionId).expectedSave) ==>
      OptionOf(sv, amount, combo, optionId, sessionId).expectedPay + OptionOf(sv, amount, combo, optionId, sessionId).expectedSave == amount
  {
    ItemsAddUpToSaving(sv, combo);
  }

  /** The inner loop of `createSession`: one item per asset with a best rule, `order` counting from 1. */
  method BuildItems(ghost sv: Savings, combo: seq<UserAsset>, saveMap: map<int, seq<BC.RuleSaving>>)
    returns (items: seq<OptionItem>)
    requires forall a :: a in combo ==> a.id in saveMap && saveMap[a.id] == sv(a)
    ensures items == ItemsOf(sv, combo)
  {
    items := [];
    var order := 1;
    for i := 0 to |combo|
      invariant items == ItemsOf(sv, combo[..i])
      invariant order == |items| + 1
    {
      var ua := combo[i];
      assert combo[..i + 1][..i] == combo[..i];
      var ruleSaves := saveMap[ua.id];
      if ruleSaves != [] {
        var bestRule := Best(ruleSaves);
        items := items + [ItemFor(ua, bestRule, order)];
        order := order + 1;
      }
    }
    assert combo[..|combo|] == combo;
  }

  // ---------------------------------------------------------------------------
  // All options, ranked
  // ---------------------------------------------------------------------------

  /** The options of the combinations, in combination order, with consecutive ids. */
  function OptionsOf(sv: Savings, amount: int, combos: seq<seq<UserAsset>>, firstId: int, sessionId: int): (opts: seq<RecOption>)
    ensures |opts| == |combos|
    ensures forall k :: 0 <= k < |opts| ==> opts[k].optionId == firstId + k && opts[k].sessionId == sessionId
  {
    seq(|combos|, k requires 0 <= k < |combos| => OptionOf(sv, amount, combos[k], firstId + k, sessionId))
  }

  /** `comparingInt(getExpectedSave).reversed()`: larger savings first. */
  function BySaveDesc(a: RecOption, b: RecOption): bool
  {
    a.expectedSave >= b.expectedSave
  }

  lemma BySaveDescIsTotalPreorder()
    ensures IsTotalPreorder(BySaveDesc)
  {
  }

  /** `setRankOrder(i + 1)` down the sorted list. */
  function AssignRanks(s: seq<RecOption>): (r: seq<RecOption>)
    ensures |r| == |s|
    ensures forall i :: 0 <= i < |s| ==> r[i] == s[i].(rankOrder := i + 1)
  {
    seq(|s|, i requires 0 <= i < |s| => s[i].(rankOrder := i + 1))
  }

  function Ranked(opts: seq<RecOption>): seq<RecOption>
  {
    AssignRanks(Sort(opts, BySaveDesc))
  }

  /**
   * Ranking: ranks are 1, 2, ..., savings never increase down the list, the
   * options are those given (ranks aside), and options with equal savings
   * keep their combination order.
   */
  lemma RankedOrder(opts: seq<RecOption>)
    ensures |Ranked(opts)| == |opts|
    ensures forall i :: 0 <= i < |opts| ==> Ranked(opts)[i].rankOrder == i + 1
    ensures forall i, j :: 0 <= i < j < |opts| ==> Ranked(opts)[i].expectedSave >= Ranked(opts)[j].expectedSave
    ensures forall i :: 0 <= i < |opts| ==> Ranked(opts)[i] == Sort(opts, BySaveDesc)[i].(rankOrder := i + 1)
    ensures multiset(Sort(opts, BySaveDesc)) == multiset(opts)
    ensures forall x :: SameClass(Sort(opts, BySaveDesc), x, BySaveDesc) == SameClass(opts, x, BySaveDesc)
  {
    BySaveDescIsTotalPreorder();
    SortSorted(opts, BySaveDesc);
    forall x ensures SameClass(Sort(opts, BySaveDesc), x, BySaveDesc) == SameClass(opts, x, BySaveDesc) {
      SortStable(opts, x, BySaveDesc);
    }
  }

  predicate DistinctIds(s: seq<RecOption>)
  {
    forall i, j :: 0 <= i < j < |s| ==> s[i].optionId != s[j].optionId
  }

  lemma CountAtLeastTwo<T>(t: seq<T>, i: int, j: int)
    requires 0 <= i < j < |t| && t[i] == t[j]
    ensures multiset(t)[t[i]] >= 2
  {
    assert t == t[..i] + [t[i]] + t[i + 1..j] + [t[j]] + t[j + 1..];
  }

  lemma CountOne<T>(s: seq<T>, a: int)
    requires 0 <= a < |s|
    requires forall c :: 0 <= c < |s| && c != a ==> s[c] != s[a]
    ensures multiset(s)[s[a]] == 1
  {
    assert s == s[..a] + [s[a]] + s[a + 1..];
    forall x | x in s[..a] ensures x != s[a] {
      var c :| 0 <= c < a && s[..a][c] == x;
      assert s[c] == x;
    }
    var tail := s[a + 1..];
    forall x | x in tail ensures x != s[a] {
      var c :| 0 <= c < |tail| && tail[c] == x;
      assert s[a + 1 + c] == x;
    }
  }

  lemma SameIdSameIndex(a: seq<RecOption>, p: int, q: int)
    requires DistinctIds(a) && 0 <= p < |a| && 0 <= q < |a| && a[p].optionId == a[q].optionId
    ensures p == q
  {
  }

  /** Reordering a list of options with distinct ids keeps the ids, each once. */
  lemma PermutationKeepsIds(a: seq<RecOption>, b: seq<RecOption>)
    requires multiset(a) == multiset(b) && DistinctIds(a)
    ensures DistinctIds(b)
  {
    forall i, j | 0 <= i < j < |b| ensures b[i].optionId != b[j].optionId {
      if b[i].optionId == b[j].optionId {
        assert b[i] in multiset(a) && b[j] in multiset(a);
        var p :| 0 <= p < |a| && a[p] == b[i];
        var q :| 0 <= q < |a| && a[q] == b[j];
        SameIdSameIndex(a, p, q);
        CountAtLeastTwo(b, i, j);
        forall c | 0 <= c < |a| && c != p ensures a[c] != a[p] {
          if c < p { assert a[c].optionId != a[p].optionId; }
          if p < c { assert a[p].optionId != a[c].optionId; }
        }
        CountOne(a, p);
        assert false;
      }
    }
  }

  /** The options a session lists, looked up by id. */
  function OptionsById(ids: seq<int>, options: map<int, RecOption>): (r: seq<RecOption>)
    requires forall k :: 0 <= k < |ids| ==> ids[k] in options
    ensures |r| == |ids| && forall k :: 0 <= k < |ids| ==> r[k] == options[ids[k]]
  {
    seq(|ids|, k requires 0 <= k < |ids| => options[ids[k]])
  }

  function IdList(s: seq<RecOption>): (ids: seq<int>)
    ensures |ids| == |s| && forall k :: 0 <= k < |s| ==> ids[k] == s[k].optionId
  {
    seq(|s|, k requires 0 <= k < |s| => s[k].optionId)
  }

  // ---------------------------------------------------------------------------
  // The service
  // ---------------------------------------------------------------------------

  class RecommendationStore {
    var sessions: map<int, Session>
    var options: map<int, RecOption>
    var nextSessionId: int
    var nextOptionId: int

    ghost predicate Valid()
      reads this
    {
      ValidTables(sessions, options, nextSessionId, nextOptionId)
    }

    constructor ()
      ensures Valid() && sessions == map[] && options == map[]
    {
      sessions, options := map[], map[];
      nextSessionId, nextOptionId := 1, 1;
    }

    /**
     * The option loop of `createSession`: prices each combination, then
     * saves its option under the next id.
     */
    method SaveOptions(ev: Evaluation, ghost sv: Savings, combos: seq<seq<UserAsset>>, sid: int)
      returns (opts: seq<RecOption>)
      requires ev.Evaluates(sv) && forall id :: id in options ==> id < nextOptionId
      requires forall c :: c in combos ==> UniqueIds(c)
      modifies this
      ensures opts == OptionsOf(sv, ev.purchase.amount, combos, old(nextOptionId), sid)
      ensures sessions == old(sessions) && nextSessionId == old(nextSessionId)
      ensures nextOptionId == old(nextOptionId) + |combos|
      ensures forall id :: id in options <==> id in old(options) || old(nextOptionId) <= id < nextOptionId
      ensures forall id :: id in old(options) ==> options[id] == old(options)[id]
      ensures forall k :: 0 <= k < |opts| ==> options[old(nextOptionId) + k] == opts[k]
    {
      var firstId := nextOptionId;
      ghost var spec := OptionsOf(sv, ev.purchase.amount, combos, firstId, sid);
      opts := [];
      for i := 0 to |combos|
        invariant nextOptionId == firstId + i
        invariant sessions == old(sessions) && nextSessionId == old(nextSessionId)
        invariant opts == spec[..i]
        invariant forall id :: id in options <==> id in old(options) || firstId <= id < nextOptionId
        invariant forall id :: id in old(options) ==> options[id] == old(options)[id]
        invariant forall k :: 0 <= k < i ==> options[firstId + k] == opts[k]
      {
        var combo := combos[i];
        assert combos[..i + 1][..i] == combos[..i];
        assert combo in combos;
        var option := PriceCombo(ev, sv, combo, nextOptionId, sid);
        assert option == spec[i];
        SaveOption(option);
        opts := opts + [option];
        assert opts == spec[..i + 1];
      }
      assert opts == spec;
    }

    /** `optionRepository.save`: stores the option under the next id. */
    method SaveOption(option: RecOption)
      requires option.optionId == nextOptionId
      modifies this
      ensures options == old(options)[option.optionId := option] && nextOptionId == old(nextOptionId) + 1
      ensures sessions == old(sessions) && nextSessionId == old(nextSessionId)
    {
      options := options[option.optionId := option];
      nextOptionId := nextOptionId + 1;
    }

    /**
     * The rank step of `createSession`: sorts the options by saving, then
     * numbers and saves them.
     */
    method RankOptions(opts: seq<RecOption>, firstId: int) returns (ranked: seq<RecOption>)
      requires forall k :: 0 <= k < |opts| ==> opts[k].optionId == firstId + k
      requires forall k :: 0 <= k < |opts| ==> opts[k].optionId in options && options[opts[k].optionId] == opts[k]
      modifies this
      ensures ranked == Ranked(opts)
      ensures sessions == old(sessions) && nextSessionId == old(nextSessionId) && nextOptionId == old(nextOptionId)
      ensures options.Keys == old(options).Keys
      ensures forall id :: id in options && !(firstId <= id < firstId + |opts|) ==> options[id] == old(options)[id]
      ensures forall id :: id in options ==> options[id].optionId == old(options)[id].optionId
      ensures forall k :: 0 <= k < |ranked| ==> ranked[k].optionId in options && options[ranked[k].optionId] == ranked[k]
    {
      var sorted := Sort(opts, BySaveDesc);
      SortedStillStored(opts, sorted, firstId, options);
      ranked := StoreRanks(sorted, firstId, firstId + |opts|);
    }

    /** The loop `for (short i = 0; ...) { option.setRankOrder(i + 1); save(option); }`. */
    method StoreRanks(sorted: seq<RecOption>, lo: int, hi: int) returns (ranked: seq<RecOption>)
      requires DistinctIds(sorted)
      requires forall k :: 0 <= k < |sorted| ==> lo <= sorted[k].optionId < hi
      requires forall k :: 0 <= k < |sorted| ==> sorted[k].optionId in options && options[sorted[k].optionId] == sorted[k]
      modifies this
      ensures ranked == AssignRanks(sorted)
      ensures sessions == old(sessions) && nextSessionId == old(nextSessionId) && nextOptionId == old(nextOptionId)
      ensures options.Keys == old(options).Keys
      ensures forall id :: id in options && !(lo <= id < hi) ==> options[id] == old(options)[id]
      ensures forall id :: id in options ==> options[id].optionId == old(options)[id].optionId
      ensures forall k :: 0 <= k < |ranked| ==> ranked[k].optionId in options && options[ranked[k].optionId] == ranked[k]
    {
      ranked := sorted;
      for i := 0 to |ranked|
        invariant |ranked| == |sorted|
        invariant sessions == old(sessions) && nextSessionId == old(nextSessionId) && nextOptionId == old(nextOptionId)
        invariant forall k :: 0 <= k < i ==> ranked[k] == sorted[k].(rankOrder := k + 1)
        invariant forall k :: i <= k < |ranked| ==> ranked[k] == sorted[k]
        invariant options.Keys == old(options).Keys
        invariant forall id :: id in options && !(lo <= id < hi) ==> options[id] == old(options)[id]
        invariant forall id :: id in options ==> options[id].optionId == old(options)[id].optionId
        invariant forall k :: 0 <= k < i ==> options[sorted[k].optionId] == ranked[k]
        invariant forall k :: i <= k < |sorted| ==> options[sorted[k].optionId] == sorted[k]
      {
        ranked := ranked[i := ranked[i].(rankOrder := i + 1)];
        options := options[ranked[i].optionId := ranked[i]];
      }
    }

    /**
     * `createSession`: a missing or unknown merchant fails before anything
     * is stored, and a missing amount or gifticon flag makes the session
     * insert fail on its NOT NULL columns (the builder does not apply the
     * field's `false` initializer), so the call fails with nothing stored;
     * otherwise the session and one option per combination are stored and
     * returned, ranked. The merchant's brand and category, not the request,
     * decide which scopes match. (The rank loop counts in a `short`, so a
     * list of more than 32,767 options makes it fail and everything is
     * rolled back.)
     */
    method CreateSession(
      req: RecommendationRequest, userId: int, now: int, merchants: map<int, Merchant>,
      userAssets: seq<UserAsset>, catalog: seq<BC.BenefitRule>, counters: BC.Counters, clock: BC.Clock)
      returns (r: Result<RecommendationResponse, RecError>)
      requires Valid() && UniqueIds(userAssets) && BC.AllValid(catalog) && clock.today.Valid()
      modifies this
      ensures Valid()
      ensures req.merchantId.None? ==> r == Err(MissingMerchantId)
      ensures req.merchantId.Some? && req.merchantId.value !in merchants ==> r == Err(InvalidMerchant)
      ensures (req.merchantId.Some? && req.merchantId.value in merchants
               && (req.amount.None? || req.useGifticon.None?)) ==> r == Err(SessionRowRefused)
      ensures r.Err? ==> sessions == old(sessions) && options == old(options)
      ensures req.merchantId.Some? && req.merchantId.value in merchants && req.amount.Some? && req.useGifticon.Some? ==>
        var m := merchants[req.merchantId.value];
        var amount := req.amount.value;
        var ev := Evaluation(BC.Purchase(amount, userId, req.merchantId.value, m.categoryId, m.brandId), clock, catalog, counters);
        var sid := old(nextSessionId);
        var opts := OptionsOf(ev.Evaluator(), amount, Combos(userAssets), old(nextOptionId), sid);
        && (|opts| > SHORT_MAX ==> r == Err(RankIndexOverflow))
        && (|opts| <= SHORT_MAX ==>
             && r == Ok(RecommendationResponse(sid, amount, req.useGifticon.value, Ranked(opts)))
             && sid !in old(sessions)
             && sessions == old(sessions)[sid := Session(sid, userId, amount, req.useGifticon.value, now, IdList(Ranked(opts)), None)]
             && OptionsStored(old(options), old(nextOptionId), opts, options))
    {
      if req.merchantId.None? {
        return Err(MissingMerchantId);
      }
      var merchantId := req.merchantId.value;
      if merchantId !in merchants {
        return Err(InvalidMerchant);
      }
      var merchant := merchants[merchantId];
      var brandId := merchant.brandId;
      var categoryId := merchant.categoryId;
      if req.amount.None? || req.useGifticon.None? {
        return Err(SessionRowRefused);
      }
      var amount := req.amount.value;
      var useGifticon := req.useGifticon.value;
      var purchase := BC.Purchase(amount, userId, merchantId, categoryId, brandId);
      var ev := Evaluation(purchase, clock, catalog, counters);

      var combos := GenerateCombos(userAssets);
      if |combos| > SHORT_MAX {
        return Err(RankIndexOverflow);
      }
      assert forall c :: c in combos ==> UniqueIds(c) by {
        NoGifticonInCombos(userAssets);
        forall c | c in combos ensures UniqueIds(c) {
          UniqueIdsOfPart(c, userAssets);
        }
      }
      ghost var sv := ev.Evaluator();
      assert ev.Evaluates(sv);
      var sid := nextSessionId;
      var ranked := StoreSession(ev, sv, combos, userId, useGifticon, now);
      return Ok(RecommendationResponse(sid, amount, useGifticon, ranked));
    }

    /**
     * The writes of `createSession` once the combinations are known: the
     * session under the next session id, the options under fresh option
     * ids, their ranks, and the ranked ids in the session.
     */
    method StoreSession(ev: Evaluation, ghost sv: Savings, combos: seq<seq<UserAsset>>, userId: int, useGifticon: bool, now: int)
      returns (ranked: seq<RecOption>)
      requires Valid() && ev.Evaluates(sv) && forall c :: c in combos ==> UniqueIds(c)
      modifies this
      ensures Valid()
      ensures
        var sid := old(nextSessionId);
        var opts := OptionsOf(sv, ev.purchase.amount, combos, old(nextOptionId), sid);
        && ranked == Ranked(opts)
        && sid !in old(sessions)
        && sessions == old(sessions)[sid := Session(sid, userId, ev.purchase.amount, useGifticon, now, IdList(ranked), None)]
        && OptionsStored(old(options), old(nextOptionId), opts, options)
    {
      var sid := nextSessionId;
      ghost var sessions0, options0, firstId := sessions, options, nextOptionId;
      var opts;
      opts, ranked := SaveAndRank(ev, sv, combos, sid);
      var optionIds := IdList(ranked);
      var session := Session(sid, userId, ev.purchase.amount, useGifticon, now, optionIds, None);
      SessionAddedValid(sessions0, options0, sid, firstId, opts, options, session);
      sessions := sessions[sid := session];
      nextSessionId := sid + 1;
    }

    /** The option and rank loops of `createSession`, with their combined effect on the option table. */
    method SaveAndRank(ev: Evaluation, ghost sv: Savings, combos: seq<seq<UserAsset>>, sid: int)
      returns (opts: seq<RecOption>, ranked: seq<RecOption>)
      requires ev.Evaluates(sv) && forall c :: c in combos ==> UniqueIds(c)
      requires forall id :: id in options ==> options[id].optionId == id && id < nextOptionId
      modifies this
      ensures opts == OptionsOf(sv, ev.purchase.amount, combos, old(nextOptionId), sid)
      ensures ranked == Ranked(opts)
      ensures sessions == old(sessions) && nextSessionId == old(nextSessionId)
      ensures nextOptionId == old(nextOptionId) + |opts|
      ensures forall id :: id in options ==> options[id].optionId == id
      ensures OptionsStored(old(options), old(nextOptionId), opts, options)
    {
      var firstId := nextOptionId;
      ghost var before := options;
      opts := SaveOptions(ev, sv, combos, sid);
      ghost var saved := options;
      ranked := RankOptions(opts, firstId);
      RankedTableStored(before, firstId, opts, saved, options);
    }

    /** `getSessionDetail`: read-only; an unknown session and another user's session are errors. */
    method GetSessionDetail(sessionId: int, userId: int) returns (r: Result<RecommendationResponse, RecError>)
      requires Valid()
      ensures sessionId !in sessions ==> r == Err(InvalidSession)
      ensures sessionId in sessions && sessions[sessionId].userId != userId ==> r == Err(SessionNotOwned)
      ensures sessionId in sessions && sessions[sessionId].userId == userId ==>
        var s := sessions[sessionId];
        r == Ok(RecommendationResponse(sessionId, s.inputAmount, s.useGifticon, OptionsById(s.optionIds, options)))
    {
      if sessionId !in sessions {
        return Err(InvalidSession);
      }
      var session := sessions[sessionId];
      if session.userId != userId {
        return Err(SessionNotOwned);
      }
      return Ok(RecommendationResponse(sessionId, session.inputAmount, session.useGifticon, OptionsById(session.optionIds, options)));
    }

    /**
     * `chooseOption`: checks, in order, that the session exists, that the
     * option exists, that it belongs to the session and that the session
     * is the caller's; then records the choice, replacing any earlier one.
     */
    method ChooseOption(sessionId: int, optionId: int, userId: int) returns (r: Result<RecommendationResponse, RecError>)
      requires Valid()
      modifies this
      ensures Valid() && options == old(options)
      ensures sessionId !in old(sessions) ==> r == Err(InvalidSession)
      ensures sessionId in old(sessions) && optionId !in options ==> r == Err(InvalidOption)
      ensures sessionId in old(sessions) && optionId in options && options[optionId].sessionId != sessionId
        ==> r == Err(OptionNotInSession)
      ensures (sessionId in old(sessions) && optionId in options && options[optionId].sessionId == sessionId
               && old(sessions)[sessionId].userId != userId) ==> r == Err(ChoiceNotOwned)
      ensures r.Err? ==> sessions == old(sessions)
      ensures r.Ok? ==>
        && sessionId in old(sessions) && optionId in options && options[optionId].sessionId == sessionId
        && old(sessions)[sessionId].userId == userId
        && sessions == old(sessions)[sessionId := old(sessions)[sessionId].(chosenOptionId := Some(optionId))]
    {
      if sessionId !in sessions {
        return Err(InvalidSession);
      }
      var session := sessions[sessionId];
      if optionId !in options {
        return Err(InvalidOption);
      }
      var option := options[optionId];
      if option.sessionId != sessionId {
        return Err(OptionNotInSession);
      }
      if session.userId != userId {
        return Err(ChoiceNotOwned);
      }
      session := session.(chosenOptionId := Some(optionId));
      sessions := sessions[sessionId := session];
      return Ok(RecommendationResponse(sessionId, session.inputAmount, session.useGifticon, OptionsById(session.optionIds, options)));
    }
  }

  /** Rows are stored under their own ids, ids still to be handed out are unused, sessions list stored options. */
  ghost predicate ValidTables(sessions: map<int, Session>, options: map<int, RecOption>, nextSessionId: int, nextOptionId: int)
  {
    && (forall id :: id in sessions ==> sessions[id].sessionId == id && id < nextSessionId)
    && (forall id :: id in options ==> options[id].optionId == id && id < nextOptionId)
    && (forall id, k :: id in sessions && 0 <= k < |sessions[id].optionIds| ==> sessions[id].optionIds[k] in options)
  }

  /**
   * After `createSession` stored `opts` from `firstId` on: the old options
   * are untouched, the new ids are exactly `firstId ..`, and each holds its
   * option as ranked.
   */
  ghost predicate OptionsStored(before: map<int, RecOption>, firstId: int, opts: seq<RecOption>, after: map<int, RecOption>)
  {
    && (forall id :: id in after <==> id in before || firstId <= id < firstId + |opts|)
    && (forall id :: id in before ==> after[id] == before[id])
    && (forall k :: 0 <= k < |opts| ==> Ranked(opts)[k].optionId in after && after[Ranked(opts)[k].optionId] == Ranked(opts)[k])
  }

  /** Saving `opts` from `firstId` on and then ranking them leaves the option table as `OptionsStored` says. */
  lemma RankedTableStored(
    before: map<int, RecOption>, firstId: int, opts: seq<RecOption>, saved: map<int, RecOption>, after: map<int, RecOption>)
    requires forall id :: id in before ==> before[id].optionId == id && id < firstId
    requires forall k :: 0 <= k < |opts| ==> opts[k].optionId == firstId + k
    requires forall id :: id in saved <==> id in before || firstId <= id < firstId + |opts|
    requires forall id :: id in before ==> saved[id] == before[id]
    requires forall k :: 0 <= k < |opts| ==> saved[firstId + k] == opts[k]
    requires after.Keys == saved.Keys
    requires forall id :: id in after && !(firstId <= id < firstId + |opts|) ==> after[id] == saved[id]
    requires forall id :: id in after ==> after[id].optionId == saved[id].optionId
    requires forall k :: 0 <= k < |opts| ==> Ranked(opts)[k].optionId in after && after[Ranked(opts)[k].optionId] == Ranked(opts)[k]
    ensures forall id :: id in after ==> after[id].optionId == id
    ensures OptionsStored(before, firstId, opts, after)
  {
    forall id | id in after ensures after[id].optionId == id {
      if id in before {
        assert saved[id] == before[id];
      } else {
        var k := id - firstId;
        assert saved[firstId + k] == opts[k];
      }
    }
    forall id ensures id in after <==> id in before || firstId <= id < firstId + |opts| {
      assert id in saved <==> id in before || firstId <= id < firstId + |opts|;
    }
  }

  /** Adding the new session to tables whose new options are stored keeps the tables valid. */
  lemma SessionAddedValid(
    sessions: map<int, Session>, before: map<int, RecOption>, sid: int, firstId: int, opts: seq<RecOption>,
    after: map<int, RecOption>, session: Session)
    requires ValidTables(sessions, before, sid, firstId)
    requires forall id :: id in after ==> after[id].optionId == id
    requires OptionsStored(before, firstId, opts, after)
    requires session.sessionId == sid && session.optionIds == IdList(Ranked(opts))
    ensures ValidTables(sessions[sid := session], after, sid + 1, firstId + |opts|)
  {
    forall id | id in after ensures id < firstId + |opts| {
      assert id in before || firstId <= id < firstId + |opts|;
    }
    var sessions' := sessions[sid := session];
    forall id, k | id in sessions' && 0 <= k < |sessions'[id].optionIds| ensures sessions'[id].optionIds[k] in after {
      if id == sid {
        assert session.optionIds[k] == Ranked(opts)[k].optionId;
      } else {
        var x := sessions[id].optionIds[k];
        assert x in before;
      }
    }
  }

  /** `saveMap` holds, under each asset's id, exactly the savings `sv` gives that asset. */
  ghost predicate SavesMatch(sv: Savings, combo: seq<UserAsset>, saveMap: map<int, seq<BC.RuleSaving>>)
  {
    forall a :: a in combo ==> a.id in saveMap && saveMap[a.id] == sv(a)
  }

  /** The body of the option loop: evaluates every asset's rules, then builds the option and its items. */
  method PriceCombo(ev: Evaluation, ghost sv: Savings, combo: seq<UserAsset>, optionId: int, sid: int)
    returns (option: RecOption)
    requires ev.Evaluates(sv) && UniqueIds(combo)
    ensures option == OptionOf(sv, ev.purchase.amount, combo, optionId, sid)
  {
    var saveMap := EvaluateCombo(ev, sv, combo);
    option := BuildOption(sv, ev.purchase.amount, combo, saveMap, optionId, sid);
  }

  /** `calculatePerAssetRuleSave` for the combination, read as the evaluator of this purchase. */
  method EvaluateCombo(ev: Evaluation, ghost sv: Savings, combo: seq<UserAsset>) returns (saveMap: map<int, seq<BC.RuleSaving>>)
    requires ev.Evaluates(sv) && UniqueIds(combo)
    ensures SavesMatch(sv, combo, saveMap)
  {
    saveMap := BC.CalculatePerAssetRuleSave(combo, ev.purchase, ev.clock, ev.catalog, ev.counters);
  }

  /** The option of one combination: expected saving and payment in Java `int`, and its items. */
  method BuildOption(ghost sv: Savings, amount: int, combo: seq<UserAsset>, saveMap: map<int, seq<BC.RuleSaving>>,
    optionId: int, sid: int) returns (option: RecOption)
    requires SavesMatch(sv, combo, saveMap)
    ensures option == OptionOf(sv, amount, combo, optionId, sid)
  {
    var expectedSave := Wrap32(SumBestOf(combo, saveMap));
    SumBestOfIsSumBest(sv, combo, saveMap);
    var expectedPay := Wrap32(amount - expectedSave);
    var items := BuildItems(sv, combo, saveMap);
    option := RecOption(optionId, sid, expectedPay, expectedSave, 0, items);
  }

  /** `combo.stream().mapToInt(best saving or 0).sum()` before the `int` wrap, read from the map. */
  function SumBestOf(combo: seq<UserAsset>, saveMap: map<int, seq<BC.RuleSaving>>): int
    requires forall a :: a in combo ==> a.id in saveMap
  {
    if combo == [] then 0
    else SumBestOf(combo[..|combo| - 1], saveMap) + BestValue(saveMap[combo[|combo| - 1].id])
  }

  lemma {:induction false} SumBestOfIsSumBest(sv: Savings, combo: seq<UserAsset>, saveMap: map<int, seq<BC.RuleSaving>>)
    requires forall a :: a in combo ==> a.id in saveMap && saveMap[a.id] == sv(a)
    ensures SumBestOf(combo, saveMap) == SumBest(sv, combo)
  {
    if combo != [] {
      SumBestOfIsSumBest(sv, combo[..|combo| - 1], saveMap);
    }
  }

  /** Sorting the stored options keeps their ids distinct, in range and stored. */
  lemma SortedStillStored(opts: seq<RecOption>, sorted: seq<RecOption>, firstId: int, options: map<int, RecOption>)
    requires sorted == Sort(opts, BySaveDesc)
    requires forall k :: 0 <= k < |opts| ==> opts[k].optionId == firstId + k
    requires forall k :: 0 <= k < |opts| ==> opts[k].optionId in options && options[opts[k].optionId] == opts[k]
    ensures DistinctIds(sorted)
    ensures forall k :: 0 <= k < |sorted| ==> firstId <= sorted[k].optionId < firstId + |opts|
    ensures forall k :: 0 <= k < |sorted| ==> sorted[k].optionId in options && options[sorted[k].optionId] == sorted[k]
  {
    PermutationKeepsIds(opts, sorted);
    forall k | 0 <= k < |sorted|
      ensures firstId <= sorted[k].optionId < firstId + |opts|
      ensures sorted[k].optionId in options && options[sorted[k].optionId] == sorted[k]
    {
      assert sorted[k] in multiset(opts);
    }
  }
}
