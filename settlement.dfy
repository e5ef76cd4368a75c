/**
 * `TransactionService`: settling a payment against a recommendation option.
 * `createTransaction` stores the transaction, freezes every option item that
 * names a rule into an applied-benefit row, and folds the payment into the
 * user's monthly category summary. It reads the session and option tables
 * and writes nothing else: no per-period usage counter is touched.
 *
 * The list view (`getUserTransactions`) is modelled per transaction: its
 * total saved amount and its name fallbacks.
 */
module Settlement {
  import opened Common
  import opened Transactions
  import opened Assets
  import Rec = Recommendation
  import CS = CategorySummary
  import TM = TransactionMapper

  // ---------------------------------------------------------------------------
  // Requests, responses, errors
  // ---------------------------------------------------------------------------

  /** The settlement request; a field the client leaves out is absent (every field is a boxed Java type). */
  datatype TransactionRequest = TransactionRequest(
    sessionId: Option<int>,
    optionId: Option<int>,
    merchantId: Option<int>,
    paidAmount: Option<Int32>,
    categoryId: Option<int>)

  datatype AppliedBenefitDto = AppliedBenefitDto(ruleId: int, sourceType: string, sourceRef: Option<int>, savedAmount: int)

  datatype TransactionResponse = TransactionResponse(
    txId: int,
    userId: int,
    merchantId: Option<int>,
    paidAmount: int,
    txTime: int,
    appliedBenefits: seq<AppliedBenefitDto>)

  /** The failures of `createTransaction`. */
  datatype TxError =
    | MissingSessionId     // `findById(null)` refuses a null id
    | InvalidSession       // IllegalArgumentException
    | MissingOptionId      // `findById(null)` refuses a null id
    | InvalidOption        // IllegalArgumentException
    | OptionNotInSession   // IllegalArgumentException
    | TransactionRowRefused  // the insert meets a null in the NOT NULL `paid_amount` column

  // ---------------------------------------------------------------------------
  // Freezing an option into applied benefits
  // ---------------------------------------------------------------------------

  /** The items that name a rule, in item order (`filter(i -> i.getRuleId() != null)`). */
  function WithRule(items: seq<Rec.OptionItem>): (r: seq<Rec.OptionItem>)
    ensures |r| <= |items|
    ensures forall it :: it in r <==> it in items && it.ruleId.Some?
  {
    if items == [] then []
    else
      var init := WithRule(items[..|items| - 1]);
      var last := items[|items| - 1];
      if last.ruleId.Some? then init + [last] else init
  }

  /** An item as a stored applied benefit of transaction `txId`, under row id `id`. */
  function Freeze(txId: int, id: int, item: Rec.OptionItem): AppliedBenefitRow
    requires item.ruleId.Some?
  {
    AppliedBenefitRow(id, txId, item.ruleId.value, item.componentType, Some(item.componentRefId), item.appliedValue)
  }

  /** One row per item, in order, numbered from `firstId` as the identity column hands them out. */
  function FrozenRows(txId: int, firstId: int, items: seq<Rec.OptionItem>): (r: seq<AppliedBenefitRow>)
    requires forall it :: it in items ==> it.ruleId.Some?
    ensures |r| == |items|
    ensures forall k :: 0 <= k < |r| ==> r[k] == Freeze(txId, firstId + k, items[k])
  {
    seq(|items|, k requires 0 <= k < |items| => Freeze(txId, firstId + k, items[k]))
  }

  /** The applied benefits `createTransaction` saves for an option's items. */
  function AppliedBenefitsOf(txId: int, firstId: int, items: seq<Rec.OptionItem>): (r: seq<AppliedBenefitRow>)
    ensures forall b :: b in r ==> b.txId == txId && firstId <= b.id < firstId + |r|
  {
    FrozenRows(txId, firstId, WithRule(items))
  }

  /** Every item that names a rule becomes exactly one row, copying rule, source and amount, in item order. */
  lemma AppliedBenefitsCopyItems(txId: int, firstId: int, items: seq<Rec.OptionItem>)
    ensures |AppliedBenefitsOf(txId, firstId, items)| == |WithRule(items)|
    ensures forall k :: 0 <= k < |WithRule(items)| ==>
      var b, it := AppliedBenefitsOf(txId, firstId, items)[k], WithRule(items)[k];
      Some(b.ruleId) == it.ruleId && b.sourceType == it.componentType
      && b.sourceRef == Some(it.componentRefId) && b.savedAmount == it.appliedValue
  {
  }

  function DtoOf(b: AppliedBenefitRow): AppliedBenefitDto
  {
    AppliedBenefitDto(b.ruleId, b.sourceType, b.sourceRef, b.savedAmount)
  }

  /** The response lists the saved rows one-to-one. */
  function DtosOf(benefits: seq<AppliedBenefitRow>): (r: seq<AppliedBenefitDto>)
    ensures |r| == |benefits|
    ensures forall k :: 0 <= k < |r| ==> r[k] == DtoOf(benefits[k])
  {
    seq(|benefits|, k requires 0 <= k < |benefits| => DtoOf(benefits[k]))
  }

  /** The response's k-th benefit carries the k-th rule-bearing item of the option. */
  lemma ResponseMirrorsItems(txId: int, firstId: int, items: seq<Rec.OptionItem>, k: int)
    requires 0 <= k < |WithRule(items)|
    ensures |DtosOf(AppliedBenefitsOf(txId, firstId, items))| == |WithRule(items)|
    ensures DtosOf(AppliedBenefitsOf(txId, firstId, items))[k]
      == AppliedBenefitDto(WithRule(items)[k].ruleId.value, WithRule(items)[k].componentType,
                           Some(WithRule(items)[k].componentRefId), WithRule(items)[k].appliedValue)
  {
  }

  /** The sum of the frozen rows is the sum of the rule-bearing items. */
  lemma {:induction false} FrozenSum(txId: int, firstId: int, items: seq<Rec.OptionItem>)
    requires forall it :: it in items ==> it.ruleId.Some?
    ensures SumSaved(FrozenRows(txId, firstId, items)) == Rec.SumItems(items)
  {
    if items != [] {
      var init := items[..|items| - 1];
      FrozenSum(txId, firstId, init);
      var rows := FrozenRows(txId, firstId, items);
      assert rows[..|rows| - 1] == FrozenRows(txId, firstId, init);
    }
  }

  /** Items without a rule save nothing, so when every item names a rule nothing is dropped. */
  lemma {:induction false} WithRuleKeepsAll(items: seq<Rec.OptionItem>)
    requires forall it :: it in items ==> it.ruleId.Some?
    ensures WithRule(items) == items
  {
    if items != [] {
      WithRuleKeepsAll(items[..|items| - 1]);
      assert items == items[..|items| - 1] + [items[|items| - 1]];
    }
  }

  /**
   * The saving frozen for an option priced by the recommendation engine is
   * its exact saving: every item it builds names its rule, and the items add
   * up to the sum of the best savings, which is `expectedSave` whenever that
   * sum fits in an `int`.
   */
  lemma SettledSavingIsOptionSaving(sv: Rec.Savings, amount: int, combo: seq<UserAsset>, optionId: int, sessionId: int, txId: int, firstId: int)
    ensures SumSaved(AppliedBenefitsOf(txId, firstId, Rec.OptionOf(sv, amount, combo, optionId, sessionId).items)) == Rec.SumBest(sv, combo)
    ensures IsInt32(Rec.SumBest(sv, combo)) ==>
      SumSaved(AppliedBenefitsOf(txId, firstId, Rec.OptionOf(sv, amount, combo, optionId, sessionId).items))
        == Rec.OptionOf(sv, amount, combo, optionId, sessionId).expectedSave
  {
    var items := Rec.ItemsOf(sv, combo);
    Rec.ItemsComeFromBestRules(sv, combo);
    assert forall it :: it in items ==> it.ruleId.Some? by {
      forall it | it in items
        ensures it.ruleId.Some?
      {
        var k :| 0 <= k < |items| && items[k] == it;
        var a :| a in combo && sv(a) != [] && items[k] == Rec.ItemFor(a, Rec.Best(sv(a)), k + 1);
      }
    }
    WithRuleKeepsAll(items);
    FrozenSum(txId, firstId, items);
    Rec.ItemsAddUpToSaving(sv, combo);
  }

  // ---------------------------------------------------------------------------
  // The monthly category summary
  // ---------------------------------------------------------------------------

  /** The summary table after `updateMonthlyCategorySummary(tx, benefits)` in month `yearMonth`. */
  function SummariesAfter(summaries: map<CS.SummaryKey, CS.SummaryRow>, tx: TransactionRow, benefits: seq<AppliedBenefitRow>, yearMonth: string)
    : map<CS.SummaryKey, CS.SummaryRow>
  {
    if tx.categoryId.None? then summaries
    else
      var key := CS.SummaryKey(tx.userId, yearMonth, tx.categoryId.value);
      var row := if key in summaries then summaries[key] else CS.Fresh(key);
      summaries[key := CS.Added(row, tx.paidAmount, SumSaved(benefits))]
  }

  /**
   * A payment without a category changes no summary. Otherwise only the
   * (user, month, category) summary changes: it is created with zeros if
   * absent, its spending grows by the amount paid, its saving by the sum of
   * the applied benefits, and its count by one.
   */
  lemma SummaryUpdateEffect(summaries: map<CS.SummaryKey, CS.SummaryRow>, tx: TransactionRow, benefits: seq<AppliedBenefitRow>, yearMonth: string)
    requires forall k :: k in summaries ==> summaries[k].key == k
    ensures tx.categoryId.None? ==> SummariesAfter(summaries, tx, benefits, yearMonth) == summaries
    ensures tx.categoryId.Some? ==>
      var key, after := CS.SummaryKey(tx.userId, yearMonth, tx.categoryId.value), SummariesAfter(summaries, tx, benefits, yearMonth);
      && after.Keys == summaries.Keys + {key}
      && (forall k :: k in summaries && k != key ==> after[k] == summaries[k])
      && after[key].key == key
      && after[key].amountSpent == (if key in summaries then summaries[key].amountSpent else 0) + tx.paidAmount
      && after[key].amountSaved == (if key in summaries then summaries[key].amountSaved else 0) + SumSaved(benefits)
      && after[key].txCount == (if key in summaries then summaries[key].txCount else 0) + 1
    ensures forall k :: k in SummariesAfter(summaries, tx, benefits, yearMonth) ==> SummariesAfter(summaries, tx, benefits, yearMonth)[k].key == k
  {
  }

  /** A payment and its applied benefits, as the summary sees them. */
  datatype Settled = Settled(tx: TransactionRow, benefits: seq<AppliedBenefitRow>)

  function SettleAll(summaries: map<CS.SummaryKey, CS.SummaryRow>, settled: seq<Settled>, yearMonth: string)
    : map<CS.SummaryKey, CS.SummaryRow>
  {
    if settled == [] then summaries
    else
      var last := settled[|settled| - 1];
      SummariesAfter(SettleAll(summaries, settled[..|settled| - 1], yearMonth), last.tx, last.benefits, yearMonth)
  }

  function EntriesOf(settled: seq<Settled>): (r: seq<CS.Entry>)
    ensures |r| == |settled|
    ensures forall k :: 0 <= k < |r| ==> r[k] == CS.Entry(settled[k].tx.paidAmount, SumSaved(settled[k].benefits))
  {
    seq(|settled|, k requires 0 <= k < |settled| => CS.Entry(settled[k].tx.paidAmount, SumSaved(settled[k].benefits)))
  }

  /**
   * The payments a user makes in one category during one month leave one
   * summary that holds their total spending, their total saving and their
   * number, when no summary existed before.
   */
  lemma {:induction false} MonthTotals(summaries: map<CS.SummaryKey, CS.SummaryRow>, settled: seq<Settled>, key: CS.SummaryKey)
    requires key !in summaries
    requires forall s :: s in settled ==> s.tx.userId == key.userId && s.tx.categoryId == Some(key.categoryId)
    ensures settled != [] ==> key in SettleAll(summaries, settled, key.yearMonth)
    ensures settled != [] ==> (SettleAll(summaries, settled, key.yearMonth)[key]
                               == CS.SummaryRow(key, CS.SumSpent(EntriesOf(settled)), CS.SumSaved(EntriesOf(settled)), |settled|))
  {
    MonthRow(summaries, settled, key);
    CS.AddAllTotals(key, EntriesOf(settled));
  }

  lemma {:induction false} MonthRow(summaries: map<CS.SummaryKey, CS.SummaryRow>, settled: seq<Settled>, key: CS.SummaryKey)
    requires key !in summaries
    requires forall s :: s in settled ==> s.tx.userId == key.userId && s.tx.categoryId == Some(key.categoryId)
    ensures settled == [] ==> key !in SettleAll(summaries, settled, key.yearMonth)
    ensures settled != [] ==> (key in SettleAll(summaries, settled, key.yearMonth)
                               && SettleAll(summaries, settled, key.yearMonth)[key] == CS.AddAll(CS.Fresh(key), EntriesOf(settled)))
  {
    if settled != [] {
      var init := settled[..|settled| - 1];
      MonthRow(summaries, init, key);
      assert EntriesOf(settled)[..|settled| - 1] == EntriesOf(init);
      assert settled[|settled| - 1] in settled;
    }
  }

  /** Payments in other categories or months, or by other users, leave a summary as it was. */
  lemma {:induction false} OtherSummariesUntouched(summaries: map<CS.SummaryKey, CS.SummaryRow>, settled: seq<Settled>, yearMonth: string, key: CS.SummaryKey)
    requires key in summaries
    requires forall s :: s in settled ==> s.tx.categoryId.None? || CS.SummaryKey(s.tx.userId, yearMonth, s.tx.categoryId.value) != key
    ensures key in SettleAll(summaries, settled, yearMonth) && SettleAll(summaries, settled, yearMonth)[key] == summaries[key]
  {
    if settled != [] {
      OtherSummariesUntouched(summaries, settled[..|settled| - 1], yearMonth, key);
      assert settled[|settled| - 1] in settled;
    }
  }

  // ---------------------------------------------------------------------------
  // Name fallbacks of the list view
  // ---------------------------------------------------------------------------

  /** A merchant row as the name lookup sees it. */
  datatype MerchantInfo = MerchantInfo(name: string, brandName: Option<string>)

  /** `getMerchantName`: "brand name" for a branded merchant, its name otherwise, a fixed text when unknown. */
  function MerchantName(merchants: map<int, MerchantInfo>, merchantId: Option<int>): (r: string)
    ensures merchantId.None? || merchantId.value !in merchants ==> r == TM.UNKNOWN_MERCHANT
    ensures merchantId.Some? && merchantId.value in merchants && merchants[merchantId.value].brandName.None?
      ==> r == merchants[merchantId.value].name
    ensures merchantId.Some? && merchantId.value in merchants && merchants[merchantId.value].brandName.Some?
      ==> r == merchants[merchantId.value].brandName.value + " " + merchants[merchantId.value].name
  {
    if merchantId.None? || merchantId.value !in merchants then TM.UNKNOWN_MERCHANT
    else
      var m := merchants[merchantId.value];
      if m.brandName.Some? then m.brandName.value + " " + m.name else m.name
  }

  /** `getCategoryName`: the category's name, or "기타" for none or an unknown id. */
  function CategoryName(categories: map<int, string>, categoryId: Option<int>): (r: string)
    ensures categoryId.Some? && categoryId.value in categories ==> r == categories[categoryId.value]
    ensures categoryId.None? || categoryId.value !in categories ==> r == TM.OTHER_CATEGORY
  {
    if categoryId.Some? && categoryId.value in categories then categories[categoryId.value] else TM.OTHER_CATEGORY
  }

  /** What the name lookups know of a user asset: the name of its product, if it has one. */
  type AssetProducts = map<int, Option<string>>

  /** `getPaymentCardName`: "현금" when no asset is given or it is unknown, its product's name, or a fixed text for an asset without a product. */
  function PaymentCardName(assets: AssetProducts, assetId: Option<int>): (r: string)
    ensures assetId.None? || assetId.value !in assets ==> r == TM.CASH
    ensures assetId.Some? && assetId.value in assets && assets[assetId.value].Some? ==> r == assets[assetId.value].value
    ensures assetId.Some? && assetId.value in assets && assets[assetId.value].None? ==> r == UNKNOWN_CARD
  {
    if assetId.None? || assetId.value !in assets then TM.CASH
    else if assets[assetId.value].Some? then assets[assetId.value].value
    else UNKNOWN_CARD
  }

  const UNKNOWN_CARD: string := "알 수 없는 카드"

  /** `getSourceName`: the source asset's product name, falling back to the Korean label of the source type. */
  function SourceName(assets: AssetProducts, sourceRef: Option<int>, sourceType: string): (r: string)
    ensures sourceRef.Some? && sourceRef.value in assets && assets[sourceRef.value].Some? ==> r == assets[sourceRef.value].value
    ensures !(sourceRef.Some? && sourceRef.value in assets && assets[sourceRef.value].Some?) ==> r == TM.KoreanSourceType(Some(sourceType))
  {
    var fallback := TM.KoreanSourceType(Some(sourceType));
    if sourceRef.None? || sourceRef.value !in assets then fallback
    else assets[sourceRef.value].GetOr(fallback)
  }

  /** `convertToBenefitResponse`: the mapper's response with the looked-up name and the formatted description. */
  function BenefitResponse(assets: AssetProducts, b: AppliedBenefitRow): TM.AppliedBenefitResponse
  {
    TM.BenefitResponseOf(b, Some(SourceName(assets, b.sourceRef, b.sourceType)), Some(TM.BenefitDescription(b.savedAmount)))
  }

  function BenefitResponses(assets: AssetProducts, benefits: seq<AppliedBenefitRow>): (r: seq<TM.AppliedBenefitResponse>)
    ensures |r| == |benefits|
    ensures forall k :: 0 <= k < |r| ==> r[k] == BenefitResponse(assets, benefits[k])
  {
    seq(|benefits|, k requires 0 <= k < |benefits| => BenefitResponse(assets, benefits[k]))
  }

  /** The list view's entry for one transaction: `mapToInt(...).sum()` is an `int` sum. */
  function DetailOf(
    tx: TransactionRow, applied: seq<AppliedBenefitRow>,
    merchants: map<int, MerchantInfo>, categories: map<int, string>, assets: AssetProducts): TM.TransactionDetailResponse
  {
    var benefits := BenefitsOfTx(applied, tx.txId);
    TM.ToDetailResponse(
      Some(tx),
      Some(MerchantName(merchants, tx.merchantId)),
      Some(CategoryName(categories, tx.categoryId)),
      Some(PaymentCardName(assets, tx.paymentAssetId)),
      Some(BenefitResponses(assets, benefits)),
      Some(Wrap32(SumSaved(benefits)))).value
  }

  /**
   * The list's total for a transaction is the sum of its own saved amounts
   * (0 when it has none), it lists one response per applied benefit, and
   * the service's fallback names are the mapper's own defaults.
   */
  lemma DetailTotals(tx: TransactionRow, applied: seq<AppliedBenefitRow>,
                     merchants: map<int, MerchantInfo>, categories: map<int, string>, assets: AssetProducts)
    ensures IsInt32(SumSaved(BenefitsOfTx(applied, tx.txId))) ==>
      DetailOf(tx, applied, merchants, categories, assets).totalSavedAmount == SumSaved(BenefitsOfTx(applied, tx.txId))
    ensures (forall b :: b in applied ==> b.txId != tx.txId) ==> DetailOf(tx, applied, merchants, categories, assets).totalSavedAmount == 0
    ensures |DetailOf(tx, applied, merchants, categories, assets).appliedBenefits| == |BenefitsOfTx(applied, tx.txId)|
    ensures tx.merchantId.None? ==> (DetailOf(tx, applied, merchants, categories, assets).merchantName
                                     == TM.ToDetailResponse(Some(tx), None, None, None, None, None).value.merchantName)
    ensures tx.categoryId.None? ==> (DetailOf(tx, applied, merchants, categories, assets).categoryName
                                     == TM.ToDetailResponse(Some(tx), None, None, None, None, None).value.categoryName)
    ensures tx.paymentAssetId.None? ==> (DetailOf(tx, applied, merchants, categories, assets).paymentCardName
                                         == TM.ToDetailResponse(Some(tx), None, None, None, None, None).value.paymentCardName)
  {
    if forall b :: b in applied ==> b.txId != tx.txId {
      BenefitsOfTxNone(applied, tx.txId);
    }
  }

  // ---------------------------------------------------------------------------
  // The tables and `createTransaction`
  // ---------------------------------------------------------------------------

  class SettlementStore {
    var transactions: map<int, TransactionRow>
    var applied: seq<AppliedBenefitRow>
    var summaries: map<CS.SummaryKey, CS.SummaryRow>
    var nextTxId: int
    var nextBenefitId: int

    /** Rows sit under their own ids, ids still to be handed out are unused, every applied benefit belongs to a stored transaction. */
    ghost predicate Valid()
      reads this
    {
      && (forall id :: id in transactions ==> transactions[id].txId == id && id < nextTxId)
      && (forall b :: b in applied ==> b.txId in transactions && b.id < nextBenefitId)
      && (forall k :: k in summaries ==> summaries[k].key == k)
    }

    constructor ()
      ensures Valid() && transactions == map[] && applied == [] && summaries == map[]
    {
      transactions, applied, summaries := map[], [], map[];
      nextTxId, nextBenefitId := 1, 1;
    }

    /**
     * `createTransaction`. The session and option are looked up, in that
     * order, and the option must belong to the session; the caller's
     * ownership of the session is not checked. A missing id fails at its
     * lookup, and a missing paid amount makes the transaction insert fail on
     * its NOT NULL column; the rollback leaves every table as it was. On
     * success the transaction,
     * its applied benefits and the monthly summary are the only writes.
     * `now` is the current instant, `kstMonth` its calendar month in Seoul.
     */
    method CreateTransaction(
      sessions: map<int, Rec.Session>, options: map<int, Rec.RecOption>,
      req: TransactionRequest, userId: int, now: int, kstMonth: YearMonth)
      returns (r: Result<TransactionResponse, TxError>)
      requires Valid() && kstMonth.Valid()
      modifies this
      ensures Valid()
      ensures req.sessionId.None? ==> r == Err(MissingSessionId)
      ensures req.sessionId.Some? && req.sessionId.value !in sessions ==> r == Err(InvalidSession)
      ensures (req.sessionId.Some? && req.sessionId.value in sessions && req.optionId.None?) ==> r == Err(MissingOptionId)
      ensures (req.sessionId.Some? && req.sessionId.value in sessions
               && req.optionId.Some? && req.optionId.value !in options) ==> r == Err(InvalidOption)
      ensures (req.sessionId.Some? && req.sessionId.value in sessions && req.optionId.Some? && req.optionId.value in options
               && options[req.optionId.value].sessionId != sessions[req.sessionId.value].sessionId) ==> r == Err(OptionNotInSession)
      ensures (req.sessionId.Some? && req.sessionId.value in sessions && req.optionId.Some? && req.optionId.value in options
               && options[req.optionId.value].sessionId == sessions[req.sessionId.value].sessionId
               && req.paidAmount.None?) ==> r == Err(TransactionRowRefused)
      ensures r.Ok? <==> (req.sessionId.Some? && req.sessionId.value in sessions && req.optionId.Some? && req.optionId.value in options
                          && options[req.optionId.value].sessionId == sessions[req.sessionId.value].sessionId
                          && req.paidAmount.Some?)
      ensures r.Err? ==> unchanged(this)
      ensures r.Ok? ==>
        var option := options[req.optionId.value];
        var tx := TransactionRow(
          old(nextTxId), userId, req.merchantId, req.categoryId, DEFAULT_CURRENCY, None, None, req.paidAmount.value, now,
          Some(option.optionId), Some(sessions[req.sessionId.value].sessionId));
        var benefits := AppliedBenefitsOf(tx.txId, old(nextBenefitId), option.items);
        && tx.txId !in old(transactions)
        && transactions == old(transactions)[tx.txId := tx]
        && applied == old(applied) + benefits
        && summaries == SummariesAfter(old(summaries), tx, benefits, FormatYearMonth(kstMonth))
        && r.value == TransactionResponse(tx.txId, userId, req.merchantId, req.paidAmount.value, now, DtosOf(benefits))
    {
      if req.sessionId.None? {
        return Err(MissingSessionId);
      }
      if req.sessionId.value !in sessions {
        return Err(InvalidSession);
      }
      var session := sessions[req.sessionId.value];
      if req.optionId.None? {
        return Err(MissingOptionId);
      }
      if req.optionId.value !in options {
        return Err(InvalidOption);
      }
      var option := options[req.optionId.value];
      if option.sessionId != session.sessionId {
        return Err(OptionNotInSession);
      }
      if req.paidAmount.None? {
        return Err(TransactionRowRefused);
      }
      var paidAmount := req.paidAmount.value;

      var tx := TransactionRow(
        nextTxId, userId, req.merchantId, req.categoryId, DEFAULT_CURRENCY, None, None, paidAmount, now,
        Some(option.optionId), Some(session.sessionId));
      transactions := transactions[tx.txId := tx];
      nextTxId := nextTxId + 1;

      var benefits := AppliedBenefitsOf(tx.txId, nextBenefitId, option.items);
      applied := applied + benefits;
      nextBenefitId := nextBenefitId + |benefits|;

      UpdateMonthlyCategorySummary(tx, benefits, FormatYearMonth(kstMonth));

      r := Ok(TransactionResponse(tx.txId, userId, req.merchantId, paidAmount, now, DtosOf(benefits)));
    }

    /** `updateMonthlyCategorySummary`: find or build the summary, add the payment to it, save it. */
    method UpdateMonthlyCategorySummary(tx: TransactionRow, benefits: seq<AppliedBenefitRow>, yearMonth: string)
      requires forall k :: k in summaries ==> summaries[k].key == k
      modifies this
      ensures summaries == SummariesAfter(old(summaries), tx, benefits, yearMonth)
      ensures transactions == old(transactions) && applied == old(applied)
      ensures nextTxId == old(nextTxId) && nextBenefitId == old(nextBenefitId)
    {
      if tx.categoryId.None? {
        return;
      }
      var key := CS.SummaryKey(tx.userId, yearMonth, tx.categoryId.value);
      var totalSaved := SumSaved(benefits);
      var summary: CS.MonthlyCategorySummary;
      if key in summaries {
        summary := new CS.MonthlyCategorySummary.Load(summaries[key]);
      } else {
        summary := new CS.MonthlyCategorySummary.Build(tx.userId, yearMonth, tx.categoryId.value);
      }
      summary.AddTransaction(tx.paidAmount, totalSaved);
      summaries := summaries[key := summary.Row()];
    }
  }

  /**
   * Right after settlement the list view shows the new transaction as
   * coming from a recommendation, with exactly its frozen benefits and
   * their total.
   */
  lemma NewTransactionListed(
    before: seq<AppliedBenefitRow>, transactions: map<int, TransactionRow>, tx: TransactionRow, firstId: int,
    items: seq<Rec.OptionItem>, merchants: map<int, MerchantInfo>, categories: map<int, string>, assets: AssetProducts)
    requires forall b :: b in before ==> b.txId in transactions
    requires tx.txId !in transactions && tx.sessionId.Some?
    ensures BenefitsOfTx(before + AppliedBenefitsOf(tx.txId, firstId, items), tx.txId) == AppliedBenefitsOf(tx.txId, firstId, items)
    ensures DetailOf(tx, before + AppliedBenefitsOf(tx.txId, firstId, items), merchants, categories, assets).isFromRecommendation
    ensures DetailOf(tx, before + AppliedBenefitsOf(tx.txId, firstId, items), merchants, categories, assets).totalSavedAmount
      == Wrap32(SumSaved(AppliedBenefitsOf(tx.txId, firstId, items)))
  {
    var added := AppliedBenefitsOf(tx.txId, firstId, items);
    BenefitsOfTxAppend(before, added, tx.txId);
    BenefitsOfTxNone(before, tx.txId);
    BenefitsOfTxAll(added, tx.txId);
  }
}
