/**
 * `MonthlyCategorySummary`: one user's spending, saving and number of
 * transactions in one category for one "yyyy-MM" month. The service loads
 * the row, mutates the entity with `addTransaction` and saves it back.
 */
module CategorySummary {

  /** The repository looks a summary up by (user, month, category). */
  datatype SummaryKey = SummaryKey(userId: int, yearMonth: string, categoryId: int)

  /** A stored summary. */
  datatype SummaryRow = SummaryRow(key: SummaryKey, amountSpent: int, amountSaved: int, txCount: int)

  /** The row a builder produces when only the key is set: the counters default to 0. */
  function Fresh(key: SummaryKey): (row: SummaryRow)
    ensures row.key == key && row.amountSpent == 0 && row.amountSaved == 0 && row.txCount == 0
  {
    SummaryRow(key, 0, 0, 0)
  }

  /** The row after one `addTransaction(spent, saved)`. */
  function Added(row: SummaryRow, spent: int, saved: int): SummaryRow
  {
    SummaryRow(row.key, row.amountSpent + spent, row.amountSaved + saved, row.txCount + 1)
  }

  class MonthlyCategorySummary {
    var userId: int
    var yearMonth: string
    var categoryId: int
    var amountSpent: int
    var amountSaved: int
    var txCount: int

    function Row(): SummaryRow
      reads this
    {
      SummaryRow(SummaryKey(userId, yearMonth, categoryId), amountSpent, amountSaved, txCount)
    }

    /** `MonthlyCategorySummary.builder().userId(..).yearMonth(..).categoryId(..).build()`. */
    constructor Build(userId: int, yearMonth: string, categoryId: int)
      ensures Row() == Fresh(SummaryKey(userId, yearMonth, categoryId))
    {
      this.userId, this.yearMonth, this.categoryId := userId, yearMonth, categoryId;
      amountSpent, amountSaved, txCount := 0, 0, 0;
    }

    /** The entity the repository hands out for a stored row. */
    constructor Load(row: SummaryRow)
      ensures Row() == row
    {
      userId, yearMonth, categoryId := row.key.userId, row.key.yearMonth, row.key.categoryId;
      amountSpent, amountSaved, txCount := row.amountSpent, row.amountSaved, row.txCount;
    }

    /** `addTransaction`: both amounts grow by the transaction's, the count by one; the key stays. */
    method AddTransaction(spentAmount: int, savedAmount: int)
      modifies this
      ensures amountSpent == old(amountSpent) + spentAmount
      ensures amountSaved == old(amountSaved) + savedAmount
      ensures txCount == old(txCount) + 1
      ensures userId == old(userId) && yearMonth == old(yearMonth) && categoryId == old(categoryId)
      ensures Row() == Added(old(Row()), spentAmount, savedAmount)
    {
      amountSpent := amountSpent + spentAmount;
      amountSaved := amountSaved + savedAmount;
      txCount := txCount + 1;
    }
  }

  // ---------------------------------------------------------------------------
  // What a month of transactions adds up to
  // ---------------------------------------------------------------------------

  /** One settled transaction as the summary sees it: what was paid and what was saved. */
  datatype Entry = Entry(spent: int, saved: int)

  function SumSpent(entries: seq<Entry>): int
  {
    if entries == [] then 0 else SumSpent(entries[..|entries| - 1]) + entries[|entries| - 1].spent
  }

  function SumSaved(entries: seq<Entry>): int
  {
    if entries == [] then 0 else SumSaved(entries[..|entries| - 1]) + entries[|entries| - 1].saved
  }

  /** The row after adding the entries one by one, in order. */
  function AddAll(row: SummaryRow, entries: seq<Entry>): SummaryRow
  {
    if entries == [] then row
    else
      var last := entries[|entries| - 1];
      Added(AddAll(row, entries[..|entries| - 1]), last.spent, last.saved)
  }

  /**
   * A summary that starts from the builder's zeros and receives every
   * transaction of the month holds their total spending, their total saving
   * and their number, under the key it was created with.
   */
  lemma {:induction false} AddAllTotals(key: SummaryKey, entries: seq<Entry>)
    ensures AddAll(Fresh(key), entries) == SummaryRow(key, SumSpent(entries), SumSaved(entries), |entries|)
  {
    if entries != [] {
      AddAllTotals(key, entries[..|entries| - 1]);
    }
  }
}
