/**
 * The settled-payment tables: a `transactions` row per payment and an
 * `applied_benefits` row per rule that was frozen into it.
 */
module Transactions {
  import opened Common

  /** A `transactions` row. Instants are epoch values handed in by the clock. */
  datatype TransactionRow = TransactionRow(
    txId: int,
    userId: int,
    merchantId: Option<int>,
    categoryId: Option<int>,
    currency: string,
    paymentMethod: Option<string>,
    paymentAssetId: Option<int>,
    paidAmount: int,
    txTime: int,
    optionId: Option<int>,
    sessionId: Option<int>)

  /** An `applied_benefits` row; `sourceType` is CARD, MEMBERSHIP or GIFTICON, `sourceRef` a user asset id. */
  datatype AppliedBenefitRow = AppliedBenefitRow(
    id: int,
    txId: int,
    ruleId: int,
    sourceType: string,
    sourceRef: Option<int>,
    savedAmount: int)

  /** The currency a transaction gets when the builder does not set one. */
  const DEFAULT_CURRENCY: string := "KRW"

  /** The sum of the saved amounts, as an unbounded integer. */
  function SumSaved(benefits: seq<AppliedBenefitRow>): int
  {
    if benefits == [] then 0 else SumSaved(benefits[..|benefits| - 1]) + benefits[|benefits| - 1].savedAmount
  }

  lemma {:induction false} SumSavedAppend(a: seq<AppliedBenefitRow>, b: seq<AppliedBenefitRow>)
    ensures SumSaved(a + b) == SumSaved(a) + SumSaved(b)
    decreases |b|
  {
    if b != [] {
      var b' := b[..|b| - 1];
      assert (a + b)[..|a + b| - 1] == a + b';
      assert (a + b)[|a + b| - 1] == b[|b| - 1];
      SumSavedAppend(a, b');
    } else {
      assert a + b == a;
    }
  }

  /** The rows of one transaction, in table order (`groupingBy(tx.txId)` keeps encounter order). */
  function BenefitsOfTx(applied: seq<AppliedBenefitRow>, txId: int): (r: seq<AppliedBenefitRow>)
    ensures |r| <= |applied|
    ensures forall b :: b in r <==> b in applied && b.txId == txId
  {
    if applied == [] then []
    else
      var init := BenefitsOfTx(applied[..|applied| - 1], txId);
      var last := applied[|applied| - 1];
      if last.txId == txId then init + [last] else init
  }

  /** Rows of other transactions appended to the table do not change what one transaction sees, and its own rows are appended in order. */
  lemma {:induction false} BenefitsOfTxAppend(applied: seq<AppliedBenefitRow>, added: seq<AppliedBenefitRow>, txId: int)
    ensures BenefitsOfTx(applied + added, txId) == BenefitsOfTx(applied, txId) + BenefitsOfTx(added, txId)
    decreases |added|
  {
    if added != [] {
      var added' := added[..|added| - 1];
      assert (applied + added)[..|applied + added| - 1] == applied + added';
      assert (applied + added)[|applied + added| - 1] == added[|added| - 1];
      BenefitsOfTxAppend(applied, added', txId);
    } else {
      assert applied + added == applied;
    }
  }

  /** A transaction whose rows are all of one id sees exactly them. */
  lemma {:induction false} BenefitsOfTxAll(rows: seq<AppliedBenefitRow>, txId: int)
    requires forall b :: b in rows ==> b.txId == txId
    ensures BenefitsOfTx(rows, txId) == rows
  {
    if rows != [] {
      var init := rows[..|rows| - 1];
      assert forall b :: b in init ==> b in rows;
      BenefitsOfTxAll(init, txId);
      assert rows[|rows| - 1] in rows;
      assert rows == init + [rows[|rows| - 1]];
    }
  }

  /** A transaction with no rows sees none. */
  lemma BenefitsOfTxNone(rows: seq<AppliedBenefitRow>, txId: int)
    requires forall b :: b in rows ==> b.txId != txId
    ensures BenefitsOfTx(rows, txId) == []
  {
    if BenefitsOfTx(rows, txId) != [] {
      assert BenefitsOfTx(rows, txId)[0] in BenefitsOfTx(rows, txId);
    }
  }
}
