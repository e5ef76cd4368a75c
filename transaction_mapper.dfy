/**
 * `TransactionMapper`: turns stored transactions and applied benefits into
 * the list view's DTOs, substituting a fixed default for every missing
 * argument. Java `null` is `None`.
 */
module TransactionMapper {
  import opened Common
  import opened Transactions

  const UNKNOWN_MERCHANT: string := "알 수 없는 가맹점"
  const OTHER_CATEGORY: string := "기타"
  const CASH: string := "현금"
  const SAVED_SUFFIX: string := "원 절약"

  datatype AppliedBenefitResponse = AppliedBenefitResponse(
    id: int,
    sourceType: string,
    sourceName: string,
    savedAmount: int,
    benefitDescription: string,
    sourceTypeKorean: string)

  datatype TransactionDetailResponse = TransactionDetailResponse(
    txId: int,
    merchantName: string,
    categoryName: string,
    paymentCardName: string,
    paidAmount: int,
    txTime: int,
    appliedBenefits: seq<AppliedBenefitResponse>,
    totalSavedAmount: int,
    isFromRecommendation: bool,
    paymentMethod: Option<string>)

  /** The Korean label of a benefit source; the service carries an identical copy. */
  function KoreanSourceType(sourceType: Option<string>): (r: string)
    ensures sourceType == Some("CARD") ==> r == "카드"
    ensures sourceType == Some("MEMBERSHIP") ==> r == "멤버십"
    ensures sourceType == Some("GIFTICON") ==> r == "기프티콘"
    ensures sourceType !in {Some("CARD"), Some("MEMBERSHIP"), Some("GIFTICON")} ==> r == OTHER_CATEGORY
  {
    match sourceType
    case None => OTHER_CATEGORY
    case Some(t) =>
      if t == "CARD" then "카드"
      else if t == "MEMBERSHIP" then "멤버십"
      else if t == "GIFTICON" then "기프티콘"
      else OTHER_CATEGORY
  }

  /** The three known sources get three different labels, none of them the fallback. */
  lemma KnownSourcesDistinguished(a: string, b: string)
    requires a in {"CARD", "MEMBERSHIP", "GIFTICON"} && b in {"CARD", "MEMBERSHIP", "GIFTICON"}
    ensures KoreanSourceType(Some(a)) != OTHER_CATEGORY
    ensures KoreanSourceType(Some(a)) == KoreanSourceType(Some(b)) <==> a == b
  {
    assert "카드" != "멤버십" && "카드" != "기프티콘" && "멤버십" != "기프티콘" by {
      assert "카드"[0] != "멤버십"[0] && "카드"[0] != "기프티콘"[0] && "멤버십"[0] != "기프티콘"[0];
    }
    assert "카드" != OTHER_CATEGORY && "멤버십" != OTHER_CATEGORY && "기프티콘" != OTHER_CATEGORY by {
      assert "카드"[0] != OTHER_CATEGORY[0] && "멤버십"[0] != OTHER_CATEGORY[0] && "기프티콘"[1] != OTHER_CATEGORY[1];
    }
    assert "CARD" != "MEMBERSHIP" && "CARD" != "GIFTICON" && "MEMBERSHIP" != "GIFTICON" by {
      assert "CARD"[0] != "MEMBERSHIP"[0] && "CARD"[0] != "GIFTICON"[0] && "MEMBERSHIP"[0] != "GIFTICON"[0];
    }
  }

  /** `String.format("%,d원 절약", saved)`. */
  function BenefitDescription(saved: int): (r: string)
  {
    FormatGrouped(saved) + SAVED_SUFFIX
  }

  /** Removing the grouping commas from a description gives back the amount's decimal digits. */
  lemma BenefitDescriptionReadsBack(saved: int)
    ensures WithoutCommas(BenefitDescription(saved)) == IntToString(saved) + SAVED_SUFFIX
  {
    FormatGroupedUngroups(saved);
    WithoutCommasAppend(FormatGrouped(saved), SAVED_SUFFIX);
    WithoutCommasKeeps(SAVED_SUFFIX);
  }

  /** `toBenefitResponse` on a non-null row: a missing source name or description gets its default. */
  function BenefitResponseOf(b: AppliedBenefitRow, sourceName: Option<string>, description: Option<string>): (r: AppliedBenefitResponse)
    ensures r.id == b.id && r.sourceType == b.sourceType && r.savedAmount == b.savedAmount
    ensures r.sourceTypeKorean == KoreanSourceType(Some(b.sourceType))
    ensures r.sourceName == sourceName.GetOr(r.sourceTypeKorean)
    ensures r.benefitDescription == description.GetOr(BenefitDescription(b.savedAmount))
  {
    var korean := KoreanSourceType(Some(b.sourceType));
    AppliedBenefitResponse(
      b.id, b.sourceType, sourceName.GetOr(korean), b.savedAmount,
      description.GetOr(BenefitDescription(b.savedAmount)), korean)
  }

  /** `toBenefitResponse`: a null row maps to null. */
  function ToBenefitResponse(b: Option<AppliedBenefitRow>, sourceName: Option<string>, description: Option<string>)
    : (r: Option<AppliedBenefitResponse>)
    ensures r.None? <==> b.None?
    ensures b.Some? ==> r.value.id == b.value.id && r.value.savedAmount == b.value.savedAmount
    ensures b.Some? ==> r.value.sourceType == b.value.sourceType
    ensures b.Some? ==> r.value.sourceTypeKorean == KoreanSourceType(Some(b.value.sourceType))
    ensures b.Some? ==> r.value.sourceName == sourceName.GetOr(KoreanSourceType(Some(b.value.sourceType)))
    ensures b.Some? ==> r.value.benefitDescription == description.GetOr(BenefitDescription(b.value.savedAmount))
  {
    if b.None? then None else Some(BenefitResponseOf(b.value, sourceName, description))
  }

  /** `toBenefitResponseList`: one response per row, in order, both defaults applied; null gives the empty list. */
  function ToBenefitResponseList(benefits: Option<seq<AppliedBenefitRow>>): (r: seq<AppliedBenefitResponse>)
    ensures benefits.None? ==> r == []
    ensures benefits.Some? ==> |r| == |benefits.value|
    ensures benefits.Some? ==> forall k :: 0 <= k < |r| ==> r[k] == BenefitResponseOf(benefits.value[k], None, None)
  {
    if benefits.None? then [] else ResponsesOf(benefits.value)
  }

  function ResponsesOf(benefits: seq<AppliedBenefitRow>): (r: seq<AppliedBenefitResponse>)
    ensures |r| == |benefits|
    ensures forall k :: 0 <= k < |r| ==> r[k] == BenefitResponseOf(benefits[k], None, None)
  {
    seq(|benefits|, k requires 0 <= k < |benefits| => BenefitResponseOf(benefits[k], None, None))
  }

  /**
   * In a list built without names, every response is labelled by its
   * source type and described by its own amount.
   */
  lemma DefaultedListLabels(benefits: seq<AppliedBenefitRow>, k: int)
    requires 0 <= k < |benefits|
    ensures ToBenefitResponseList(Some(benefits))[k].sourceName == KoreanSourceType(Some(benefits[k].sourceType))
    ensures WithoutCommas(ToBenefitResponseList(Some(benefits))[k].benefitDescription) == IntToString(benefits[k].savedAmount) + SAVED_SUFFIX
  {
    BenefitDescriptionReadsBack(benefits[k].savedAmount);
  }

  /** `toDetailResponse`: a null transaction maps to null; each null argument gets its default. */
  function ToDetailResponse(
    tx: Option<TransactionRow>,
    merchantName: Option<string>,
    categoryName: Option<string>,
    paymentCardName: Option<string>,
    appliedBenefits: Option<seq<AppliedBenefitResponse>>,
    totalSavedAmount: Option<int>): (r: Option<TransactionDetailResponse>)
    ensures r.None? <==> tx.None?
    ensures r.Some? ==> (r.value.txId == tx.value.txId && r.value.paidAmount == tx.value.paidAmount
                         && r.value.txTime == tx.value.txTime && r.value.paymentMethod == tx.value.paymentMethod)
    ensures r.Some? ==> (r.value.merchantName == merchantName.GetOr(UNKNOWN_MERCHANT)
                         && r.value.categoryName == categoryName.GetOr(OTHER_CATEGORY)
                         && r.value.paymentCardName == paymentCardName.GetOr(CASH))
    ensures r.Some? ==> (r.value.appliedBenefits == appliedBenefits.GetOr([])
                         && r.value.totalSavedAmount == totalSavedAmount.GetOr(0))
    ensures r.Some? ==> (r.value.isFromRecommendation <==> tx.value.sessionId.Some?)
  {
    if tx.None? then None
    else
      var t := tx.value;
      Some(TransactionDetailResponse(
        t.txId,
        merchantName.GetOr(UNKNOWN_MERCHANT),
        categoryName.GetOr(OTHER_CATEGORY),
        paymentCardName.GetOr(CASH),
        t.paidAmount,
        t.txTime,
        appliedBenefits.GetOr([]),
        totalSavedAmount.GetOr(0),
        t.sessionId.Some?,
        t.paymentMethod))
  }
}
