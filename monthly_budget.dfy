/**
 * `MonthlyBudget`: one user's spending target for one "yyyy-MM" month.
 * `(userId, yearMonth)` is unique in `monthly_budgets`. Instants are
 * handed in by the clock.
 */
module MonthlyBudgetEntity {
  import opened Common

  /** A stored budget. */
  datatype BudgetRow = BudgetRow(userId: int, yearMonth: string, amountTarget: int, createdAt: int, updatedAt: int)

  /** `Math.max(0, target)`: a negative target is stored as 0. */
  function ClampTarget(target: int): (r: int)
    ensures r >= 0
    ensures target >= 0 ==> r == target
    ensures target < 0 ==> r == 0
  {
    Max(0, target)
  }

  class MonthlyBudget {
    var userId: int
    var yearMonth: string
    var amountTarget: int
    var createdAt: int
    var updatedAt: int

    function Row(): BudgetRow
      reads this
    {
      BudgetRow(userId, yearMonth, amountTarget, createdAt, updatedAt)
    }

    /** `create`: the clamped target, created and updated at the same instant. */
    constructor Create(userId: int, ym: string, target: int, now: int)
      ensures this.userId == userId && yearMonth == ym
      ensures amountTarget == ClampTarget(target) && amountTarget >= 0
      ensures createdAt == now && updatedAt == now
    {
      this.userId, yearMonth := userId, ym;
      amountTarget := Max(0, target);
      createdAt, updatedAt := now, now;
    }

    /** The entity the repository hands out for a stored row. */
    constructor Load(row: BudgetRow)
      ensures Row() == row
    {
      userId, yearMonth, amountTarget := row.userId, row.yearMonth, row.amountTarget;
      createdAt, updatedAt := row.createdAt, row.updatedAt;
    }

    /** `updateTarget`: the clamped target and a new update instant; it returns itself. */
    method UpdateTarget(target: int, now: int) returns (self: MonthlyBudget)
      modifies this
      ensures self == this
      ensures amountTarget == ClampTarget(target) && updatedAt == now
      ensures userId == old(userId) && yearMonth == old(yearMonth) && createdAt == old(createdAt)
    {
      amountTarget := Max(0, target);
      updatedAt := now;
      return this;
    }
  }

  /** Setting a target twice keeps only the second; the clamp makes a repeated update change nothing. */
  lemma ClampIdempotent(target: int)
    ensures ClampTarget(ClampTarget(target)) == ClampTarget(target)
    ensures ClampTarget(target) == target <==> target >= 0
  {
  }
}
