/**
 * `BudgetReportMapper`: the report DTO builders. Each substitutes a fixed
 * default for a null argument and passes every other argument through.
 * Java `null` is `None`; `Double` ratios are `real`.
 */
module BudgetReportMapper {
  import opened Common

  const OTHER_CATEGORY: string := "기타"
  const DEFAULT_CHART_COLOR: string := "#6366F1"

  datatype CategorySpendingResponse = CategorySpendingResponse(
    categoryId: Option<int>,
    categoryName: string,
    amountSpent: int,
    transactionCount: int,
    spendingRatio: real,
    categorySavingRate: real,
    chartColor: string)

  datatype RecommendationUsageResponse = RecommendationUsageResponse(
    totalTransactions: int,
    recommendationUsedTransactions: int,
    usageRate: Decimal,
    totalSavedFromRecommendation: int,
    averageSavingPerRecommendation: int)

  /** The fields the builder leaves unset (`savingRate` and the month-over-month changes) stay null. */
  datatype MonthlyReportDetailResponse = MonthlyReportDetailResponse(
    yearMonth: Option<string>,
    totalSpent: int,
    totalSaved: int,
    totalTransactionCount: int,
    categorySpending: seq<CategorySpendingResponse>,
    recommendationUsage: Option<RecommendationUsageResponse>,
    aiSummary: Option<string>,
    savingRate: Option<real>)

  /** `toMonthlyReportDetailResponse`: null totals and count become 0, a null list the empty list; the saving rate is dropped. */
  function ToMonthlyReportDetailResponse(
    yearMonth: Option<string>,
    totalSpent: Option<int>,
    totalSaved: Option<int>,
    totalTransactionCount: Option<int>,
    categorySpending: Option<seq<CategorySpendingResponse>>,
    recommendationUsage: Option<RecommendationUsageResponse>,
    aiSummary: Option<string>,
    savingRate: Option<real>): (r: MonthlyReportDetailResponse)
    ensures r.yearMonth == yearMonth && r.recommendationUsage == recommendationUsage && r.aiSummary == aiSummary
    ensures r.totalSpent == totalSpent.GetOr(0) && r.totalSaved == totalSaved.GetOr(0)
    ensures r.totalTransactionCount == totalTransactionCount.GetOr(0)
    ensures r.categorySpending == categorySpending.GetOr([])
    ensures r.savingRate.None?
  {
    MonthlyReportDetailResponse(
      yearMonth, totalSpent.GetOr(0), totalSaved.GetOr(0), totalTransactionCount.GetOr(0),
      categorySpending.GetOr([]), recommendationUsage, aiSummary, None)
  }

  /** `toCategorySpendingResponse`: "기타", 0, 0, 0.0, 0.0 and "#6366F1" stand in for null arguments. */
  function ToCategorySpendingResponse(
    categoryId: Option<int>,
    categoryName: Option<string>,
    amountSpent: Option<int>,
    transactionCount: Option<int>,
    spendingRatio: Option<real>,
    savingRate: Option<real>,
    chartColor: Option<string>): (r: CategorySpendingResponse)
    ensures r.categoryId == categoryId
    ensures r.categoryName == categoryName.GetOr(OTHER_CATEGORY)
    ensures r.amountSpent == amountSpent.GetOr(0) && r.transactionCount == transactionCount.GetOr(0)
    ensures r.spendingRatio == spendingRatio.GetOr(0.0) && r.categorySavingRate == savingRate.GetOr(0.0)
    ensures r.chartColor == chartColor.GetOr(DEFAULT_CHART_COLOR)
  {
    CategorySpendingResponse(
      categoryId, categoryName.GetOr(OTHER_CATEGORY), amountSpent.GetOr(0), transactionCount.GetOr(0),
      spendingRatio.GetOr(0.0), savingRate.GetOr(0.0), chartColor.GetOr(DEFAULT_CHART_COLOR))
  }

  /** `toRecommendationUsageResponse`: 0 and `BigDecimal.ZERO` stand in for null arguments. */
  function ToRecommendationUsageResponse(
    totalTransactions: Option<int>,
    recommendationUsedTransactions: Option<int>,
    usageRate: Option<Decimal>,
    totalSavedFromRecommendation: Option<int>,
    averageSaving: Option<int>): (r: RecommendationUsageResponse)
    ensures r.totalTransactions == totalTransactions.GetOr(0)
    ensures r.recommendationUsedTransactions == recommendationUsedTransactions.GetOr(0)
    ensures r.usageRate == usageRate.GetOr(Decimal(0, 0))
    ensures r.totalSavedFromRecommendation == totalSavedFromRecommendation.GetOr(0)
    ensures r.averageSavingPerRecommendation == averageSaving.GetOr(0)
  {
    RecommendationUsageResponse(
      totalTransactions.GetOr(0), recommendationUsedTransactions.GetOr(0), usageRate.GetOr(Decimal(0, 0)),
      totalSavedFromRecommendation.GetOr(0), averageSaving.GetOr(0))
  }

  /**
   * Rebuilding a response from its own fields gives it back, and an
   * all-null call gives the all-default response: the builders only
   * default, they never alter a value they are given.
   */
  lemma CategoryResponseRoundTrip(r: CategorySpendingResponse)
    ensures ToCategorySpendingResponse(r.categoryId, Some(r.categoryName), Some(r.amountSpent), Some(r.transactionCount),
                                       Some(r.spendingRatio), Some(r.categorySavingRate), Some(r.chartColor)) == r
    ensures ToCategorySpendingResponse(None, None, None, None, None, None, None)
            == CategorySpendingResponse(None, OTHER_CATEGORY, 0, 0, 0.0, 0.0, DEFAULT_CHART_COLOR)
  {
  }

  lemma UsageResponseRoundTrip(r: RecommendationUsageResponse)
    ensures ToRecommendationUsageResponse(Some(r.totalTransactions), Some(r.recommendationUsedTransactions), Some(r.usageRate),
                                          Some(r.totalSavedFromRecommendation), Some(r.averageSavingPerRecommendation)) == r
    ensures ToRecommendationUsageResponse(None, None, None, None, None) == RecommendationUsageResponse(0, 0, Decimal(0, 0), 0, 0)
  {
  }

  /** Whatever saving rate is passed, the detail response carries none: two calls differing only in it agree. */
  lemma SavingRateNotCarried(
    yearMonth: Option<string>, totalSpent: Option<int>, totalSaved: Option<int>, count: Option<int>,
    categorySpending: Option<seq<CategorySpendingResponse>>, usage: Option<RecommendationUsageResponse>,
    aiSummary: Option<string>, rate1: Option<real>, rate2: Option<real>)
    ensures ToMonthlyReportDetailResponse(yearMonth, totalSpent, totalSaved, count, categorySpending, usage, aiSummary, rate1)
         == ToMonthlyReportDetailResponse(yearMonth, totalSpent, totalSaved, count, categorySpending, usage, aiSummary, rate2)
  {
  }
}
