/**
 * `BudgetService`: the month's budget next to what was spent, and the
 * update-or-create of a month's target.
 *
 * The spending total is the transaction repository's sum over the month's
 * KST window, handed in as `sum` (`None` when the month has no
 * transactions); the current KST month and the clock are parameters.
 */
module Budget {
  import opened Common
  import opened MonthlyBudgetEntity

  /** The unique key of `monthly_budgets`. */
  datatype BudgetKey = BudgetKey(userId: int, yearMonth: string)

  datatype MonthlyBudgetResponse = MonthlyBudgetResponse(
    yearMonth: string,
    amountTarget: int,
    amountSpent: int,
    amountRemaining: int,
    exceeded: bool,
    updatedAt: int)

  /** ApiException "no budget set for the month", and the `DateTimeParseException` of a malformed month. */
  datatype BudgetError = BudgetNotSet | MalformedYearMonth

  /** `sum == null ? 0 : sum.intValue()`: a missing sum is 0, a `long` beyond `int` wraps. */
  function SpentOf(sum: Option<int>): (spent: int)
    ensures IsInt32(spent)
    ensures sum.None? ==> spent == 0
    ensures sum.Some? && IsInt32(sum.value) ==> spent == sum.value
  {
    if sum.None? then 0 else Wrap32(sum.value)
  }

  /** `Math.max(0, target - spent)` with Java's `int` subtraction. */
  function Remaining(target: int, spent: int): (r: int)
  {
    Max(0, Wrap32(target - spent))
  }

  /**
   * Over a stored target (never negative) the remaining amount is never
   * negative: an exceeded month shows 0 left, and a month with non-negative
   * spending within its target shows exactly the difference.
   */
  lemma RemainingBounds(target: int, spent: int)
    requires 0 <= target <= INT_MAX && IsInt32(spent)
    ensures 0 <= Remaining(target, spent) <= INT_MAX
    ensures spent > target ==> Remaining(target, spent) == 0
    ensures 0 <= spent <= target ==> Remaining(target, spent) == target - spent
    ensures 0 <= spent ==> Remaining(target, spent) <= target
  {
  }

  /** A month spent exactly to its target has nothing left, although it is not exceeded. */
  lemma RemainingAtTarget(target: int)
    requires 0 <= target <= INT_MAX
    ensures Remaining(target, target) == 0
  {
  }

  /** The month a request names: the current KST month for a null or blank one, else the trimmed text parsed. */
  function MonthOf(yearMonthOrNull: Option<string>, currentKst: YearMonth): (r: Option<YearMonth>)
    requires currentKst.Valid()
    ensures (yearMonthOrNull.None? || IsBlank(yearMonthOrNull.value)) ==> r == Some(currentKst)
    ensures yearMonthOrNull.Some? && !IsBlank(yearMonthOrNull.value) ==> r == ParseYearMonth(Trim(yearMonthOrNull.value))
    ensures r.Some? ==> r.value.Valid()
  {
    if yearMonthOrNull.None? || IsBlank(yearMonthOrNull.value) then Some(currentKst)
    else ParseYearMonth(Trim(yearMonthOrNull.value))
  }

  /** `getMonthlyBudgetSummary`. */
  function Summary(
    budgets: map<BudgetKey, BudgetRow>, userId: int, yearMonthOrNull: Option<string>, currentKst: YearMonth, sum: Option<int>)
    : (r: Result<MonthlyBudgetResponse, BudgetError>)
    requires currentKst.Valid()
    ensures MonthOf(yearMonthOrNull, currentKst).None? <==> r == Err(MalformedYearMonth)
    ensures r.Ok? <==> (MonthOf(yearMonthOrNull, currentKst).Some?
                        && BudgetKey(userId, FormatYearMonth(MonthOf(yearMonthOrNull, currentKst).value)) in budgets)
    ensures r.Ok? ==> (var key := BudgetKey(userId, FormatYearMonth(MonthOf(yearMonthOrNull, currentKst).value));
                       && r.value.yearMonth == key.yearMonth
                       && r.value.amountTarget == budgets[key].amountTarget
                       && r.value.updatedAt == budgets[key].updatedAt
                       && r.value.amountSpent == SpentOf(sum)
                       && (r.value.exceeded <==> r.value.amountSpent > r.value.amountTarget)
                       && r.value.amountRemaining == Remaining(r.value.amountTarget, r.value.amountSpent))
  {
    match MonthOf(yearMonthOrNull, currentKst)
    case None => Err(MalformedYearMonth)
    case Some(ym) =>
      var key := BudgetKey(userId, FormatYearMonth(ym));
      if key !in budgets then Err(BudgetNotSet)
      else
        var mb := budgets[key];
        var spent := SpentOf(sum);
        Ok(MonthlyBudgetResponse(key.yearMonth, mb.amountTarget, spent, Remaining(mb.amountTarget, spent),
                                 spent > mb.amountTarget, mb.updatedAt))
  }

  /** Every stored row sits under its own key with a target the entity clamped. */
  predicate WellKeyed(budgets: map<BudgetKey, BudgetRow>)
  {
    forall k :: k in budgets ==>
      budgets[k].userId == k.userId && budgets[k].yearMonth == k.yearMonth && 0 <= budgets[k].amountTarget <= INT_MAX
  }

  /**
   * For a stored budget whose month has a non-negative spending total, the
   * summary shows the target split into spent and remaining, or nothing
   * remaining when the target is exceeded.
   */
  lemma SummaryBalances(
    budgets: map<BudgetKey, BudgetRow>, userId: int, yearMonthOrNull: Option<string>, currentKst: YearMonth, sum: Option<int>)
    requires currentKst.Valid() && WellKeyed(budgets)
    requires Summary(budgets, userId, yearMonthOrNull, currentKst, sum).Ok?
    requires sum.None? || 0 <= sum.value <= INT_MAX
    ensures var r := Summary(budgets, userId, yearMonthOrNull, currentKst, sum).value;
      && r.amountRemaining >= 0
      && (r.exceeded ==> r.amountRemaining == 0)
      && (!r.exceeded ==> r.amountSpent + r.amountRemaining == r.amountTarget)
  {
    var r := Summary(budgets, userId, yearMonthOrNull, currentKst, sum).value;
    RemainingBounds(r.amountTarget, r.amountSpent);
  }

  class BudgetStore {
    /** `monthly_budgets`, by its unique key. */
    var budgets: map<BudgetKey, BudgetRow>

    predicate Valid()
      reads this
    {
      WellKeyed(budgets)
    }

    constructor ()
      ensures Valid() && budgets == map[]
    {
      budgets := map[];
    }

    /**
     * `upsertMonthlyBudget`: the month's row is updated when it exists and
     * created otherwise, and the response is that month's summary.
     */
    method Upsert(userId: int, yearMonth: string, amountTarget: int, now: int, currentKst: YearMonth, sum: Option<int>)
      returns (r: Result<MonthlyBudgetResponse, BudgetError>)
      requires Valid() && currentKst.Valid() && IsInt32(amountTarget)
      modifies this
      ensures Valid()
      ensures ParseYearMonth(yearMonth).None? ==> r == Err(MalformedYearMonth) && budgets == old(budgets)
      ensures ParseYearMonth(yearMonth).Some? ==>
        (var key := BudgetKey(userId, FormatYearMonth(ParseYearMonth(yearMonth).value));
         && budgets == old(budgets)[key := Upserted(old(budgets), key, amountTarget, now)]
         && r == Summary(budgets, userId, Some(key.yearMonth), currentKst, sum))
    {
      var parsed := ParseYearMonth(yearMonth);
      if parsed.None? {
        return Err(MalformedYearMonth);
      }
      var key := BudgetKey(userId, FormatYearMonth(parsed.value));
      var mb: MonthlyBudget;
      if key in budgets {
        var loaded := new MonthlyBudget.Load(budgets[key]);
        mb := loaded.UpdateTarget(amountTarget, now);
      } else {
        mb := new MonthlyBudget.Create(userId, key.yearMonth, amountTarget, now);
      }
      budgets := budgets[key := mb.Row()];
      r := Summary(budgets, userId, Some(key.yearMonth), currentKst, sum);
    }
  }

  /** The row `upsertMonthlyBudget` saves under `key`: the old one with a new target, or a new one. */
  function Upserted(budgets: map<BudgetKey, BudgetRow>, key: BudgetKey, target: int, now: int): (row: BudgetRow)
    ensures row.userId == key.userId && row.yearMonth == key.yearMonth
    ensures row.amountTarget == ClampTarget(target) && row.updatedAt == now
    ensures row.createdAt == if key in budgets then budgets[key].createdAt else now
  {
    if key in budgets then budgets[key].(userId := key.userId, yearMonth := key.yearMonth, amountTarget := ClampTarget(target), updatedAt := now)
    else BudgetRow(key.userId, key.yearMonth, ClampTarget(target), now, now)
  }

  /**
   * After an upsert the summary of that month always succeeds and shows the
   * clamped target: the month never lacks a budget, and never holds two
   * because the key is unique.
   */
  lemma UpsertThenSummary(
    budgets: map<BudgetKey, BudgetRow>, userId: int, ym: YearMonth, target: int, now: int, currentKst: YearMonth, sum: Option<int>)
    requires ym.Valid() && currentKst.Valid()
    ensures var key := BudgetKey(userId, FormatYearMonth(ym));
      var after := budgets[key := Upserted(budgets, key, target, now)];
      && Summary(after, userId, Some(key.yearMonth), currentKst, sum).Ok?
      && Summary(after, userId, Some(key.yearMonth), currentKst, sum).value.amountTarget == ClampTarget(target)
      && Summary(after, userId, Some(key.yearMonth), currentKst, sum).value.yearMonth == key.yearMonth
      && after.Keys == budgets.Keys + {key}
  {
    var key := BudgetKey(userId, FormatYearMonth(ym));
    ParseFormatYearMonth(ym);
    TrimCanonical(key.yearMonth);
  }

  /** A formatted month has no blank and no surrounding space, so the summary reads it unchanged. */
  lemma TrimCanonical(s: string)
    requires |s| == 7 && AllDigits(s[..4]) && AllDigits(s[5..])
    ensures !IsBlank(s)
    ensures Trim(s) == s
  {
    assert IsDigit(s[..4][0]) && IsDigit(s[5..][1]);
    assert !IsWhitespace(s[0]);
    assert TrimStartIndex(s) == 0;
    assert TrimEndIndex(s, 0) == |s|;
  }
}
