/**
 * `ReportService`: the monthly report (totals over the month's category
 * summaries, the per-category list, the recommendation-usage figures) and
 * the AI summary that is generated once per month and then served from
 * `analysis_reports`.
 *
 * What the repositories answer for the month's KST window (the
 * transaction counts, the saving credited to recommendations) and the
 * OpenAI answer (`None` for a failure or a null reply) are parameters.
 */
module Report {
  import opened Common
  import opened CategorySummary
  import opened BudgetReportMapper

  // ---------------------------------------------------------------------------
  // Totals
  // ---------------------------------------------------------------------------

  /** The sum of one column over the summaries (`mapToLong(..).sum()`). */
  function SumOf(rows: seq<SummaryRow>, column: SummaryRow -> int): int
  {
    if rows == [] then 0 else SumOf(rows[..|rows| - 1], column) + column(rows[|rows| - 1])
  }

  function Spent(row: SummaryRow): int { row.amountSpent }
  function Saved(row: SummaryRow): int { row.amountSaved }
  function Count(row: SummaryRow): int { row.txCount }

  function TotalSpent(rows: seq<SummaryRow>): int { SumOf(rows, Spent) }
  function TotalSaved(rows: seq<SummaryRow>): int { SumOf(rows, Saved) }

  /** `mapToInt(getTxCount).sum()` is an `int` sum, which wraps. */
  function TotalCount(rows: seq<SummaryRow>): (r: int)
    ensures IsInt32(r)
  {
    Wrap32(SumOf(rows, Count))
  }

  lemma {:induction false} SumOfAppend(a: seq<SummaryRow>, b: seq<SummaryRow>, column: SummaryRow -> int)
    ensures SumOf(a + b, column) == SumOf(a, column) + SumOf(b, column)
    decreases |b|
  {
    if b == [] {
      assert a + b == a;
    } else {
      assert (a + b)[..|a + b| - 1] == a + b[..|b| - 1];
      SumOfAppend(a, b[..|b| - 1], column);
    }
  }

  /**
   * The totals do not depend on the order in which the repository returns
   * the summaries (it sorts them by amount spent): any rearrangement of the
   * same rows gives the same sums.
   */
  lemma {:induction false} SumOfPermutation(a: seq<SummaryRow>, b: seq<SummaryRow>, column: SummaryRow -> int)
    requires multiset(a) == multiset(b)
    ensures SumOf(a, column) == SumOf(b, column)
    decreases |a|
  {
    if a == [] {
      assert |b| == |multiset(b)| == 0;
    } else {
      var x := a[|a| - 1];
      assert a == a[..|a| - 1] + [x];
      assert x in multiset(b);
      var i :| 0 <= i < |b| && b[i] == x;
      var rest := b[..i] + b[i + 1..];
      RemovedMultiset(b, i);
      assert a == a[..|a| - 1] + [x];
      assert multiset(a[..|a| - 1]) == multiset(rest);
      SumOfPermutation(a[..|a| - 1], rest, column);
      SumRemoved(b, i, column);
      SumOfAppend(a[..|a| - 1], [x], column);
      SumOfSingle(x, column);
    }
  }

  lemma RemovedMultiset(b: seq<SummaryRow>, i: nat)
    requires i < |b|
    ensures multiset(b[..i] + b[i + 1..]) == multiset(b) - multiset{b[i]}
  {
    assert b == b[..i] + [b[i]] + b[i + 1..];
  }

  lemma SumOfSingle(x: SummaryRow, column: SummaryRow -> int)
    ensures SumOf([x], column) == column(x)
  {
    assert [x][..0] == [];
  }

  /** Taking one row out of a list takes its value out of the sum. */
  lemma SumRemoved(b: seq<SummaryRow>, i: nat, column: SummaryRow -> int)
    requires i < |b|
    ensures SumOf(b, column) == SumOf(b[..i] + b[i + 1..], column) + column(b[i])
  {
    var x, before, after := b[i], b[..i], b[i + 1..];
    assert b == before + ([x] + after);
    SumOfAppend(before, [x] + after, column);
    SumOfAppend([x], after, column);
    SumOfAppend(before, after, column);
    SumOfSingle(x, column);
  }

  /** Hence the spent and saved totals and the count are the same for every order of the month's rows. */
  lemma TotalsOrderFree(a: seq<SummaryRow>, b: seq<SummaryRow>)
    requires multiset(a) == multiset(b)
    ensures TotalSpent(a) == TotalSpent(b) && TotalSaved(a) == TotalSaved(b) && TotalCount(a) == TotalCount(b)
  {
    SumOfPermutation(a, b, Spent);
    SumOfPermutation(a, b, Saved);
    SumOfPermutation(a, b, Count);
  }

  // ---------------------------------------------------------------------------
  // Recommendation usage
  // ---------------------------------------------------------------------------

  /** `calculateAverageSaving`: `totalSaved / count` with Java's truncating division, 0 for a null or zero count. */
  function AverageSaving(totalSaved: int, count: Option<int>): (r: int)
    ensures (count.None? || count.value == 0) ==> r == 0
  {
    if count.None? || count.value == 0 then 0 else JavaDiv(totalSaved, count.value)
  }

  /** For non-negative figures the average is the whole part of the saving per transaction, never above the total. */
  lemma AverageSavingBounds(totalSaved: int, count: int)
    requires totalSaved >= 0 && count > 0
    ensures var avg := AverageSaving(totalSaved, Some(count));
      0 <= avg <= totalSaved && avg * count <= totalSaved < (avg + 1) * count
  {
    var q := totalSaved / count;
    assert AverageSaving(totalSaved, Some(count)) == q;
    DivBounds(totalSaved, count);
    MulAtLeastSelf(q, count);
  }

  lemma DivBounds(a: int, c: int)
    requires a >= 0 && c > 0
    ensures a / c >= 0 && (a / c) * c <= a < (a / c) * c + c
  {
  }

  lemma MulAtLeastSelf(q: int, c: int)
    requires q >= 0 && c >= 1
    ensures q <= q * c
  {
    assert q * c == q + q * (c - 1);
  }

  /**
   * `BigDecimal.valueOf(a).divide(BigDecimal.valueOf(b), scale, HALF_UP)`:
   * the quotient to `scale` decimal places, halves rounded away from zero.
   */
  function DivideHalfUp(a: int, b: int, scale: nat): (r: Decimal)
    requires b != 0
    ensures r.scale == scale
    ensures WithinHalf(Abs(a) * Pow10(scale), Abs(b), Abs(r.unscaled))
    ensures (a >= 0) == (b > 0) ==> r.unscaled >= 0
  {
    var q: int := RoundHalfUp(Abs(a) * Pow10(scale), Abs(b));
    Decimal(if (a < 0) != (b < 0) then -q else q, scale)
  }

  /**
   * `calculateUsageRate`: 0 without transactions; otherwise the share to
   * four places (HALF_UP), times 100, then to one place (HALF_UP).
   */
  function UsageRate(used: int, total: Option<int>): (r: Decimal)
    ensures (total.None? || total.value == 0) ==> r == Decimal(0, 0)
    ensures total.Some? && total.value != 0 ==> r.scale == 1
  {
    if total.None? || total.value == 0 then Decimal(0, 0)
    else
      var share := DivideHalfUp(used, total.value, 4);
      SetScaleOneHalfUp(Decimal(share.unscaled * 100, share.scale))
  }

  /** A quotient rounded to the nearest whole number stays at or below any whole bound on the exact quotient. */
  lemma RoundedAtMost(m: int, d: int, q: int, bound: int)
    requires d > 0 && WithinHalf(m, d, q) && m <= bound * d
    ensures q <= bound
  {
    assert (2 * q - 1) * d <= (2 * bound) * d;
    MulLeCancel(2 * q - 1, 2 * bound, d);
  }

  /** ... and at or above any whole bound below it. */
  lemma RoundedAtLeast(m: int, d: int, q: int, bound: int)
    requires d > 0 && WithinHalf(m, d, q) && bound * d <= m
    ensures bound <= q
  {
    assert (2 * bound) * d < (2 * q + 1) * d;
    MulLtCancel(2 * bound, 2 * q + 1, d);
  }

  lemma MulLeCancel(a: int, b: int, c: int)
    requires c > 0 && a * c <= b * c
    ensures a <= b
  {
    assert (b - a) * c == b * c - a * c;
  }

  lemma MulLtCancel(a: int, b: int, c: int)
    requires c > 0 && a * c < b * c
    ensures a < b
  {
    assert (b - a) * c == b * c - a * c;
  }

  lemma Pow10Small()
    ensures Pow10(3) == 1000 && Pow10(4) == 10000
  {
    assert Pow10(1) == 10 && Pow10(2) == 100;
  }

  /**
   * Whenever at most all transactions used a recommendation, the rate is a
   * percentage between 0.0 and 100.0; none gives 0.0 and all give 100.0.
   */
  lemma UsageRateBounds(used: int, total: int)
    requires 0 <= used <= total && total > 0
    ensures UsageRate(used, Some(total)).scale == 1
    ensures 0 <= UsageRate(used, Some(total)).unscaled <= 1000
    ensures used == 0 ==> UsageRate(used, Some(total)).unscaled == 0
    ensures used == total ==> UsageRate(used, Some(total)).unscaled == 1000
  {
    Pow10Small();
    var share := DivideHalfUp(used, total, 4);
    var q := share.unscaled;
    assert WithinHalf(used * 10000, total, q) && q >= 0;
    RoundedAtMost(used * 10000, total, q, 10000);
    var r := UsageRate(used, Some(total));
    assert r == SetScaleOneHalfUp(Decimal(q * 100, 4));
    assert WithinHalf(q * 100, 1000, r.unscaled) && r.unscaled >= 0;
    RoundedAtMost(q * 100, 1000, r.unscaled, 1000);
    if used == 0 {
      RoundedAtMost(0, total, q, 0);
      RoundedAtMost(0, 1000, r.unscaled, 0);
    }
    if used == total {
      RoundedAtLeast(used * 10000, total, q, 10000);
      RoundedAtLeast(q * 100, 1000, r.unscaled, 1000);
    }
  }

  // ---------------------------------------------------------------------------
  // The AI summary
  // ---------------------------------------------------------------------------

  datatype ReportType = AI

  /** An `analysis_reports` row. */
  datatype AnalysisReport = AnalysisReport(userId: int, yearMonth: string, reportType: ReportType, content: string)

  const AI_UNAVAILABLE: string := "AI 분석을 생성할 수 없습니다."

  /** `String.format("%s에는 거래 내역이 없습니다.", yearMonth)`. */
  function NoTransactionsText(yearMonth: string): string
  {
    yearMonth + "에는 거래 내역이 없습니다."
  }

  /** `getAiSummary`: the content of the first AI report stored for the user's month, if any. */
  function StoredSummary(reports: seq<AnalysisReport>, userId: int, yearMonth: string): (r: Option<string>)
    ensures r.Some? <==> exists k :: 0 <= k < |reports| && reports[k] == AnalysisReport(userId, yearMonth, AI, reports[k].content)
    ensures r.Some? ==> AnalysisReport(userId, yearMonth, AI, r.value) in reports
  {
    if reports == [] then None
    else if reports[0].userId == userId && reports[0].yearMonth == yearMonth && reports[0].reportType == AI then Some(reports[0].content)
    else
      var r := StoredSummary(reports[1..], userId, yearMonth);
      assert forall k :: 1 <= k < |reports| ==> reports[k] == reports[1..][k - 1];
      r
  }

  /** A report appended after the first stored one does not change which is served. */
  lemma StoredSummaryAppend(reports: seq<AnalysisReport>, userId: int, yearMonth: string, added: AnalysisReport)
    ensures StoredSummary(reports, userId, yearMonth).Some? ==>
      StoredSummary(reports + [added], userId, yearMonth) == StoredSummary(reports, userId, yearMonth)
    ensures StoredSummary(reports, userId, yearMonth).None? && added == AnalysisReport(userId, yearMonth, AI, added.content) ==>
      StoredSummary(reports + [added], userId, yearMonth) == Some(added.content)
  {
    if reports != [] {
      assert (reports + [added])[1..] == reports[1..] + [added];
      StoredSummaryAppend(reports[1..], userId, yearMonth, added);
    }
  }

  /** `generateAiSummaryContent`: the fixed text for a month without summaries, else the OpenAI answer. */
  function GeneratedContent(yearMonth: string, summaries: seq<SummaryRow>, aiAnswer: Option<string>): (r: Option<string>)
    ensures summaries == [] ==> r == Some(NoTransactionsText(yearMonth))
    ensures summaries != [] ==> r == aiAnswer
  {
    if summaries == [] then Some(NoTransactionsText(yearMonth)) else aiAnswer
  }

  /** What `generateOrGetAiSummary` returns, and the report it saves, if any. */
  datatype AiOutcome = AiOutcome(content: string, saved: Option<AnalysisReport>)

  function AiSummary(reports: seq<AnalysisReport>, userId: int, yearMonth: string, summaries: seq<SummaryRow>, aiAnswer: Option<string>)
    : (r: AiOutcome)
    ensures StoredSummary(reports, userId, yearMonth).Some? ==>
      r == AiOutcome(StoredSummary(reports, userId, yearMonth).value, None)
    ensures StoredSummary(reports, userId, yearMonth).None? && GeneratedContent(yearMonth, summaries, aiAnswer).None? ==>
      r == AiOutcome(AI_UNAVAILABLE, None)
    ensures StoredSummary(reports, userId, yearMonth).None? && GeneratedContent(yearMonth, summaries, aiAnswer).Some? ==>
      var c := GeneratedContent(yearMonth, summaries, aiAnswer).value;
      r == AiOutcome(c, Some(AnalysisReport(userId, yearMonth, AI, c)))
  {
    match StoredSummary(reports, userId, yearMonth)
    case Some(existing) => AiOutcome(existing, None)
    case None =>
      match GeneratedContent(yearMonth, summaries, aiAnswer)
      case None => AiOutcome(AI_UNAVAILABLE, None)
      case Some(c) => AiOutcome(c, Some(AnalysisReport(userId, yearMonth, AI, c)))
  }

  function SavedRows(o: AiOutcome): seq<AnalysisReport>
  {
    if o.saved.Some? then [o.saved.value] else []
  }

  /**
   * Once a month has a summary (found or just saved), asking again returns
   * the same text and saves nothing, whatever the summaries or OpenAI say
   * by then.
   */
  lemma AiSummaryCached(
    reports: seq<AnalysisReport>, userId: int, yearMonth: string,
    summaries: seq<SummaryRow>, aiAnswer: Option<string>, summaries2: seq<SummaryRow>, aiAnswer2: Option<string>)
    requires var o := AiSummary(reports, userId, yearMonth, summaries, aiAnswer);
      StoredSummary(reports, userId, yearMonth).Some? || o.saved.Some?
    ensures var o := AiSummary(reports, userId, yearMonth, summaries, aiAnswer);
      AiSummary(reports + SavedRows(o), userId, yearMonth, summaries2, aiAnswer2) == AiOutcome(o.content, None)
  {
    var o := AiSummary(reports, userId, yearMonth, summaries, aiAnswer);
    if o.saved.Some? {
      StoredSummaryAppend(reports, userId, yearMonth, o.saved.value);
    } else {
      assert reports + SavedRows(o) == reports;
    }
  }

  /** A month without summaries never consults OpenAI: the text is fixed and is saved when nothing is stored. */
  lemma EmptyMonthOffline(reports: seq<AnalysisReport>, userId: int, yearMonth: string, a1: Option<string>, a2: Option<string>)
    ensures AiSummary(reports, userId, yearMonth, [], a1) == AiSummary(reports, userId, yearMonth, [], a2)
    ensures StoredSummary(reports, userId, yearMonth).None? ==>
      AiSummary(reports, userId, yearMonth, [], a1).saved == Some(AnalysisReport(userId, yearMonth, AI, NoTransactionsText(yearMonth)))
  {
  }

  class ReportStore {
    /** `analysis_reports`, in insertion order. */
    var reports: seq<AnalysisReport>

    constructor (reports: seq<AnalysisReport>)
      ensures this.reports == reports
    {
      this.reports := reports;
    }

    /** `generateOrGetAiSummary`: a stored summary is returned as is; a new one is saved only when there is content. */
    method GenerateOrGetAiSummary(userId: int, yearMonth: string, summaries: seq<SummaryRow>, aiAnswer: Option<string>)
      returns (content: string)
      modifies this
      ensures var o := AiSummary(old(reports), userId, yearMonth, summaries, aiAnswer);
        content == o.content && reports == old(reports) + SavedRows(o)
    {
      var existing := StoredSummary(reports, userId, yearMonth);
      if existing.Some? {
        return existing.value;
      }
      var aiContent := GeneratedContent(yearMonth, summaries, aiAnswer);
      if aiContent.None? {
        return AI_UNAVAILABLE;
      }
      reports := reports + [AnalysisReport(userId, yearMonth, AI, aiContent.value)];
      return aiContent.value;
    }
  }

  // ---------------------------------------------------------------------------
  // The monthly report
  // ---------------------------------------------------------------------------

  /** `calculateSpendingRatio` / `calculateSavingRate`: the percentage `part` is of `whole`, 0 when `whole` is 0. */
  function Percentage(part: int, whole: int): (r: real)
    ensures whole == 0 ==> r == 0.0
    ensures 0 <= part <= whole && whole != 0 ==> 0.0 <= r <= 100.0
  {
    if whole == 0 then 0.0 else (part as real / whole as real) * 100.0
  }

  /** `getCategoryName`: the category's name, "기타" for an unknown one. */
  function CategoryName(categoryNames: map<int, string>, categoryId: int): string
  {
    if categoryId in categoryNames then categoryNames[categoryId] else OTHER_CATEGORY
  }

  /** One entry of `createCategorySpendingResponses`; the call passes no colour, so the default is used. */
  function CategoryEntry(row: SummaryRow, totalSpent: int, categoryNames: map<int, string>): CategorySpendingResponse
  {
    ToCategorySpendingResponse(
      Some(row.key.categoryId), Some(CategoryName(categoryNames, row.key.categoryId)), Some(row.amountSpent),
      Some(row.txCount), Some(Percentage(row.amountSpent, totalSpent)), Some(Percentage(row.amountSaved, row.amountSpent)), None)
  }

  /** `createCategorySpendingResponses`: one entry per summary, in the repository's order. */
  function CategoryEntries(rows: seq<SummaryRow>, totalSpent: int, categoryNames: map<int, string>): (r: seq<CategorySpendingResponse>)
    ensures |r| == |rows|
    ensures forall k :: 0 <= k < |r| ==> r[k] == CategoryEntry(rows[k], totalSpent, categoryNames)
  {
    seq(|rows|, k requires 0 <= k < |rows| => CategoryEntry(rows[k], totalSpent, categoryNames))
  }

  function RatioSum(entries: seq<CategorySpendingResponse>): real
  {
    if entries == [] then 0.0 else RatioSum(entries[..|entries| - 1]) + entries[|entries| - 1].spendingRatio
  }

  /** The spending ratios of a month with any spending add up to 100 percent. */
  lemma RatiosAddUp(rows: seq<SummaryRow>, categoryNames: map<int, string>)
    requires TotalSpent(rows) != 0
    ensures RatioSum(CategoryEntries(rows, TotalSpent(rows), categoryNames)) == 100.0
  {
    var t := TotalSpent(rows);
    var e := CategoryEntries(rows, t, categoryNames);
    RatioPrefix(rows, |rows|, t, categoryNames);
    assert rows[..|rows|] == rows;
    assert e[..|rows|] == e;
    WholeShare(t);
  }

  lemma WholeShare(t: int)
    requires t != 0
    ensures (t as real / t as real) * 100.0 == 100.0
  {
  }

  lemma ShareAdd(a: int, b: int, t: int)
    requires t != 0
    ensures (a as real / t as real) * 100.0 + (b as real / t as real) * 100.0 == ((a + b) as real / t as real) * 100.0
  {
  }

  lemma {:induction false} RatioPrefix(rows: seq<SummaryRow>, n: nat, total: int, categoryNames: map<int, string>)
    requires n <= |rows| && total != 0
    ensures RatioSum(CategoryEntries(rows, total, categoryNames)[..n]) == (TotalSpent(rows[..n]) as real / total as real) * 100.0
  {
    var entries := CategoryEntries(rows, total, categoryNames);
    if n == 0 {
      assert entries[..0] == [] && rows[..0] == [];
    } else {
      RatioPrefix(rows, n - 1, total, categoryNames);
      assert entries[..n][..n - 1] == entries[..n - 1];
      assert rows[..n][..n - 1] == rows[..n - 1];
      var spent := rows[n - 1].amountSpent;
      assert entries[n - 1].spendingRatio == Percentage(spent, total);
      assert TotalSpent(rows[..n]) == TotalSpent(rows[..n - 1]) + spent;
      ShareAdd(TotalSpent(rows[..n - 1]), spent, total);
    }
  }

  /** What the month's KST window holds, as the transaction repositories count and sum it. */
  datatype MonthActivity = MonthActivity(totalTransactions: int, recommendationUsedTransactions: int, savedFromRecommendation: int)

  datatype ReportError = MalformedYearMonth

  /**
   * `getMonthlyReportDetail`: the totals over the month's summaries, one
   * entry per category, the usage figures and the stored or generated AI
   * summary (not saved here). `YearMonth.parse` of the month fails for
   * anything but its four-digit form, and then nothing is returned.
   */
  function MonthlyReportDetail(
    userId: int, yearMonth: string, summaries: seq<SummaryRow>, categoryNames: map<int, string>,
    activity: MonthActivity, reports: seq<AnalysisReport>, aiAnswer: Option<string>)
    : (r: Result<MonthlyReportDetailResponse, ReportError>)
    ensures r.Err? <==> ParseYearMonth(yearMonth).None?
    ensures r.Ok? ==> (
      && r.value.yearMonth == Some(yearMonth)
      && r.value.totalSpent == TotalSpent(summaries) && r.value.totalSaved == TotalSaved(summaries)
      && r.value.totalTransactionCount == TotalCount(summaries)
      && r.value.categorySpending == CategoryEntries(summaries, TotalSpent(summaries), categoryNames)
      && r.value.recommendationUsage.Some?
      && r.value.recommendationUsage.value.totalTransactions == activity.totalTransactions
      && r.value.recommendationUsage.value.recommendationUsedTransactions == activity.recommendationUsedTransactions
      && r.value.recommendationUsage.value.totalSavedFromRecommendation == activity.savedFromRecommendation
      && r.value.recommendationUsage.value.usageRate
         == UsageRate(activity.recommendationUsedTransactions, Some(activity.totalTransactions))
      && r.value.recommendationUsage.value.averageSavingPerRecommendation
         == AverageSaving(activity.savedFromRecommendation, Some(activity.recommendationUsedTransactions))
      && (StoredSummary(reports, userId, yearMonth).Some? ==> r.value.aiSummary == StoredSummary(reports, userId, yearMonth))
      && (StoredSummary(reports, userId, yearMonth).None? ==> r.value.aiSummary == GeneratedContent(yearMonth, summaries, aiAnswer))
      && r.value.savingRate.None?)
  {
    if ParseYearMonth(yearMonth).None? then Err(MalformedYearMonth)
    else
      var totalSpent, totalSaved := TotalSpent(summaries), TotalSaved(summaries);
      var usage := ToRecommendationUsageResponse(
        Some(activity.totalTransactions), Some(activity.recommendationUsedTransactions),
        Some(UsageRate(activity.recommendationUsedTransactions, Some(activity.totalTransactions))),
        Some(activity.savedFromRecommendation),
        Some(AverageSaving(activity.savedFromRecommendation, Some(activity.recommendationUsedTransactions))));
      var stored := StoredSummary(reports, userId, yearMonth);
      var aiSummary := if stored.Some? then stored else GeneratedContent(yearMonth, summaries, aiAnswer);
      Ok(ToMonthlyReportDetailResponse(
        Some(yearMonth), Some(totalSpent), Some(totalSaved), Some(TotalCount(summaries)),
        Some(CategoryEntries(summaries, totalSpent, categoryNames)), Some(usage), aiSummary,
        Some(Percentage(totalSaved, totalSpent))))
  }
}
