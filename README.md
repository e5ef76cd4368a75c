# berryselect-backend, modelled in Dafny

This project models the core of the BerrySelect backend, a Spring service
that recommends which of a user's cards and memberships to pay with. It
also settles the payment, keeps monthly budgets and reports, manages the
wallet of cards, memberships and gifticons, sends notifications, and runs
the Kakao-based sign-up and account settings. Each core source file is one
Dafny module, written in the same form as the Java:

- `benefit_calculation.dfy` covers the benefit evaluator. It decides which
  rules apply to a purchase, computes their base benefit, caps it, and
  applies the remaining periodic limit and the period key.
- `recommendation.dfy` covers the recommendation engine. It builds the
  payment combinations, prices them, ranks them densely by expected saving,
  and stores the session with its options and items. Choosing an option is
  also here.
- `settlement.dfy`, `transactions.dfy` and `category_summary.dfy` cover
  settling a payment. This writes the transaction, the applied benefits,
  and the monthly category summary with its `addTransaction`.
- `transaction_mapper.dfy` and `budget_report_mapper.dfy` cover the
  null-defaulting DTO mappers.
- `budget.dfy` and `monthly_budget.dfy` cover the monthly budget: the
  summary with its remaining and exceeded amounts, and the upsert.
- `report.dfy` and `report_controller.dfy` cover the monthly report: its
  totals, its usage rate and average saving, the AI summary cache, and the
  endpoints' guards.
- `notification.dfy` and `notification_service.dfy` cover the notification
  entity and its code tables, creating and sending a notification, and
  retrying failed sends.
- `auth.dfy` and `onboarding.dfy` cover login, refresh-token rotation and
  logout, and the single-use store of onboarding tokens.
- `registration.dfy`, `accounts.dfy`, `user_profile.dfy` and
  `user_settings.dfy` cover sign-up with its validation cascade, birth-date
  parsing and consents. They also cover the two services that read and
  update the notification flags and preferred categories.
- `wallet.dfy` and `benefit_aggregation.dfy` cover gifticon redemption, the
  gifticon list's parameters, and the card-benefit screen: grouping, titles,
  subtitles and the personalized split.
- `merchant_search.dfy` covers the keyset-paginated merchant search.
- `common.dfy`, `sorting.dfy` and `assets.dfy` hold the shared vocabulary.
  This is Java's nullable values, 32-bit `int`, truncating division,
  `BigDecimal`, the `String` operations the services use, and a stable
  `List.sort`.

How the environment is modelled:

- Repositories are maps or sequences of row datatypes held by store
  classes. Entities whose methods change their own fields are classes with
  those fields.
- A `@Transactional` method that fails leaves its store unchanged.
- The following are parameters: the clock, the time zone's reading of it,
  Kakao's answers, the JWTs, the OpenAI answer, and the repository
  aggregates computed in SQL.

Where the system's written specification and its code disagree, the model
follows the code:

- A settlement never touches the usage counters.
- A combination without any saving still becomes an option.
- Choosing an option a second time overwrites the first choice.

## Model

| member | source | states |
|---|---|---|
| BenefitCalculation.ActiveRules | src/main/java/com/berryselect/backend/benefits/service/BenefitCalculationService.java:37 | a rule is listed exactly when it is in the catalogue, active and attached to the asset's product; catalogue order |
| BenefitCalculation.IsRuleApplicable | src/main/java/com/berryselect/backend/benefits/service/BenefitCalculationService.java:109-139 | true exactly when the rule has no scopes or at least one scope matches: DAY_OF_WEEK by the UTC day name as substring, TIME inclusive on both ends, CATEGORY/BRAND/MERCHANT by null-aware equality |
| BenefitCalculation.MoreScopesStillApply | src/main/java/com/berryselect/backend/benefits/service/BenefitCalculationService.java:117-138 | scopes are OR-combined: adding a scope to a scoped rule that applies keeps it applicable |
| BenefitCalculation.UnknownScopeTypesNeverApply | src/main/java/com/berryselect/backend/benefits/service/BenefitCalculationService.java:118-138 | a scoped rule whose scopes all have an unknown type never applies |
| BenefitCalculation.Capped | src/main/java/com/berryselect/backend/benefits/service/BenefitCalculationService.java:44-46 | never above the benefit; at most the cap when the cap is set and positive; unchanged otherwise |
| BenefitCalculation.RawBenefit | src/main/java/com/berryselect/backend/benefits/service/BenefitCalculationService.java:79-98 | the uncapped value always fits a Java `int` (the step product wraps as Java does) |
| BenefitCalculation.BaseBenefit | src/main/java/com/berryselect/backend/benefits/service/BenefitCalculationService.java:73-106 | between 0 and `Integer.MAX_VALUE`; 0 below the minimum amount; at most the cap when the cap is in force |
| BenefitCalculation.PercentBenefit | src/main/java/com/berryselect/backend/benefits/service/BenefitCalculationService.java:81-87 | a RATE below 1 gives `floor(amount * rate)`, which never exceeds the amount |
| BenefitCalculation.StepBenefit | src/main/java/com/berryselect/backend/benefits/service/BenefitCalculationService.java:88-93 | a RATE of 1 or more gives `(amount / 1000) * (int) rate` |
| BenefitCalculation.AmountBenefit | src/main/java/com/berryselect/backend/benefits/service/BenefitCalculationService.java:95-105 | an AMOUNT rule gives its value, capped, floored at 0 |
| BenefitCalculation.PeriodKey | src/main/java/com/berryselect/backend/benefits/service/BenefitCalculationService.java:159-166 | "yyyy-MM" (7 characters) for MONTHLY, the ISO date (10 characters) for DAILY and every other type |
| BenefitCalculation.PeriodKeyIdentifiesPeriod | src/main/java/com/berryselect/backend/benefits/service/BenefitCalculationService.java:159-166 | two days get the same key exactly when they are in the same month (MONTHLY) or are the same day (otherwise) |
| BenefitCalculation.MinHeadroomBelowEach | src/main/java/com/berryselect/backend/benefits/service/BenefitCalculationService.java:147-155 | the running `Math.min` is at most `Integer.MAX_VALUE` and at most every limit's `limit - used` |
| BenefitCalculation.RemainingWithinEveryLimit | src/main/java/com/berryselect/backend/benefits/service/BenefitCalculationService.java:142-157 | the remaining limit is between 0 and `Integer.MAX_VALUE` and never above what any single limit still allows |
| BenefitCalculation.MinHeadroomStep | src/main/java/com/berryselect/backend/benefits/service/BenefitCalculationService.java:154 | one loop step takes the minimum with the next limit's headroom |
| BenefitCalculation.GetRemainingLimit | src/main/java/com/berryselect/backend/benefits/service/BenefitCalculationService.java:142-157 | the loop computes the specified remaining limit: MAX without limits, a missing counter counting 0, an unset limit MAX, floored at 0 |
| BenefitCalculation.SavingOf | src/main/java/com/berryselect/backend/benefits/service/BenefitCalculationService.java:39-55 | a saving carries the rule's id and description, is positive, at most the remaining limit, the base benefit and the cap; none exactly when the rule does not apply or its limit is used up |
| BenefitCalculation.SavingsComeFromRules | src/main/java/com/berryselect/backend/benefits/service/BenefitCalculationService.java:38-56 | every listed saving is positive and is the saving of one of the asset's rules |
| BenefitCalculation.InapplicableRulesContributeNothing | src/main/java/com/berryselect/backend/benefits/service/BenefitCalculationService.java:39 | rules none of which applies give no savings |
| BenefitCalculation.EvaluateRule | src/main/java/com/berryselect/backend/benefits/service/BenefitCalculationService.java:39-55 | the loop body yields exactly the specified saving of one rule |
| BenefitCalculation.RuleSavingsOf | src/main/java/com/berryselect/backend/benefits/service/BenefitCalculationService.java:35-56 | the inner loop yields the savings of the asset's rules in rule order |
| BenefitCalculation.CalculatePerAssetRuleSave | src/main/java/com/berryselect/backend/benefits/service/BenefitCalculationService.java:29-60 | one entry per asset of the combination, and each holds exactly that asset's savings (possibly none) |
| BenefitCalculation.SumAppliedPositive | src/main/java/com/berryselect/backend/benefits/service/BenefitCalculationService.java:66-69 | a sum of positive savings is non-negative, and positive when there is one |
| BenefitCalculation.TotalOverIsComboSavings | src/main/java/com/berryselect/backend/benefits/service/BenefitCalculationService.java:63-70 | summing the map over the combination is the sum of every saving of every asset, not a per-asset maximum |
| BenefitCalculation.ComboSavingsNonNegative | src/main/java/com/berryselect/backend/benefits/service/BenefitCalculationService.java:63-70 | the exact total saving is never negative |
| BenefitCalculation.CalculateTotalSave | src/main/java/com/berryselect/backend/benefits/service/BenefitCalculationService.java:63-70 | the result is the `int` sum (wrapped as `IntStream.sum` wraps) of all savings of the combination |
| Recommendation.OfType | src/main/java/com/berryselect/backend/recommendation/service/RecommendationService.java:126-131 | an asset is kept exactly when it is in the list and has the given type (CARD, MEMBERSHIP) |
| Recommendation.CardGroup | src/main/java/com/berryselect/backend/recommendation/service/RecommendationService.java:135-138 | for one card: the card alone first, then the card paired with each membership in order |
| Recommendation.GenerateCombos | src/main/java/com/berryselect/backend/recommendation/service/RecommendationService.java:125-141 | the nested loops produce exactly the specified list of combinations |
| Recommendation.CombosCount | src/main/java/com/berryselect/backend/recommendation/service/RecommendationService.java:125-141 | there are C + C·M combinations for C cards and M memberships |
| Recommendation.CombosAreCardsAndPairs | src/main/java/com/berryselect/backend/recommendation/service/RecommendationService.java:134-139 | a list is a combination exactly when it is one card alone or one card followed by one membership |
| Recommendation.NoGifticonInCombos | src/main/java/com/berryselect/backend/recommendation/service/RecommendationService.java:125-141 | no combination holds a gifticon or a foreign asset; each starts with a card |
| Recommendation.BestIndex | src/main/java/com/berryselect/backend/recommendation/service/RecommendationService.java:92-94 | `Stream.max` by saving: a largest saving, and the first among equal largest ones |
| Recommendation.ItemsOf | src/main/java/com/berryselect/backend/recommendation/service/RecommendationService.java:87-110 | at most one item per asset of the combination |
| Recommendation.OptionOf | src/main/java/com/berryselect/backend/recommendation/service/RecommendationService.java:71-85 | the option carries its id and session and rank 0 before ranking |
| Recommendation.ItemsComeFromBestRules | src/main/java/com/berryselect/backend/recommendation/service/RecommendationService.java:87-106 | item k has `sortOrder` k + 1 and carries the first best rule of an asset of the combination that saves something |
| Recommendation.EverySavingAssetHasItem | src/main/java/com/berryselect/backend/recommendation/service/RecommendationService.java:96-109 | every asset of the combination with at least one saving gets its item |
| Recommendation.ItemsAddUpToSaving | src/main/java/com/berryselect/backend/recommendation/service/RecommendationService.java:71-109 | the items' applied values add up to the sum of the assets' best savings |
| Recommendation.OptionTotals | src/main/java/com/berryselect/backend/recommendation/service/RecommendationService.java:71-77 | `expectedSave` is the `int` sum of the items' values and `expectedPay = amount - expectedSave`, unclamped |
| Recommendation.BuildItems | src/main/java/com/berryselect/backend/recommendation/service/RecommendationService.java:87-110 | the item loop builds exactly the specified items, numbering them from 1 |
| Recommendation.OptionsOf | src/main/java/com/berryselect/backend/recommendation/service/RecommendationService.java:59-112 | one option per combination, even one without items, with consecutive ids in the session |
| Recommendation.BySaveDescIsTotalPreorder | src/main/java/com/berryselect/backend/recommendation/service/RecommendationService.java:115 | the reversed `comparingInt(getExpectedSave)` is a total preorder |
| Recommendation.AssignRanks | src/main/java/com/berryselect/backend/recommendation/service/RecommendationService.java:116-118 | the i-th option gets rank i + 1 and nothing else changes |
| Recommendation.RankedOrder | src/main/java/com/berryselect/backend/recommendation/service/RecommendationService.java:115-118 | ranks run 1..N, savings never increase down the list, the options are a permutation of those given, and equal savings keep combination order |
| Recommendation.PermutationKeepsIds | src/main/java/com/berryselect/backend/recommendation/service/RecommendationService.java:115 | sorting options with distinct ids keeps the ids distinct |
| Recommendation.OptionsById | src/main/java/com/berryselect/backend/recommendation/service/RecommendationService.java:120 | the session's options, looked up by id, in its order |
| Recommendation.IdList | src/main/java/com/berryselect/backend/recommendation/service/RecommendationService.java:120 | the ids of the options, in their order |
| Recommendation.RecommendationStore.SaveOptions | src/main/java/com/berryselect/backend/recommendation/service/RecommendationService.java:59-112 | the option loop stores one option per combination under fresh consecutive ids and touches no stored option |
| Recommendation.RecommendationStore.SaveOption | src/main/java/com/berryselect/backend/recommendation/service/RecommendationService.java:85 | `optionRepository.save` stores the option under the next id |
| Recommendation.RecommendationStore.RankOptions | src/main/java/com/berryselect/backend/recommendation/service/RecommendationService.java:115-118 | sorts and numbers the new options and stores each with its rank; other options unchanged |
| Recommendation.RecommendationStore.StoreRanks | src/main/java/com/berryselect/backend/recommendation/service/RecommendationService.java:116-118 | the rank loop writes rank i + 1 to the i-th sorted option and changes nothing else |
| Recommendation.RecommendationStore.CreateSession | src/main/java/com/berryselect/backend/recommendation/service/RecommendationService.java:39-123 | a missing merchant id fails at `findById`, an unknown merchant fails, and a missing amount or gifticon flag makes the session insert fail on its NOT NULL columns, each storing nothing; otherwise a new session with one ranked option per combination, priced with the merchant's brand and category |
| Recommendation.RecommendationStore.StoreSession | src/main/java/com/berryselect/backend/recommendation/service/RecommendationService.java:48-120 | stores the session under the next id, with its ranked option ids, and the options |
| Recommendation.RecommendationStore.SaveAndRank | src/main/java/com/berryselect/backend/recommendation/service/RecommendationService.java:59-118 | the option and rank loops together: the new options are stored ranked under fresh ids, older ones untouched |
| Recommendation.RecommendationStore.GetSessionDetail | src/main/java/com/berryselect/backend/recommendation/service/RecommendationService.java:143-154 | read-only: unknown session is IllegalArgument, another user's session IllegalState, otherwise the session with its options |
| Recommendation.RecommendationStore.ChooseOption | src/main/java/com/berryselect/backend/recommendation/service/RecommendationService.java:156-177 | checks session, option, option-in-session, then ownership, in that order; on success only `chosenOptionId` changes and a second choice overwrites the first |
| Recommendation.RankedTableStored | src/main/java/com/berryselect/backend/recommendation/service/RecommendationService.java:85-118 | after saving and ranking, old options are untouched and each new id holds its ranked option |
| Recommendation.SessionAddedValid | src/main/java/com/berryselect/backend/recommendation/service/RecommendationService.java:54-120 | adding the session whose options are stored keeps the tables consistent |
| Recommendation.PriceCombo | src/main/java/com/berryselect/backend/recommendation/service/RecommendationService.java:60-111 | the loop body yields exactly the specified option of one combination |
| Recommendation.EvaluateCombo | src/main/java/com/berryselect/backend/recommendation/service/RecommendationService.java:61-69 | the evaluator's map gives each asset of the combination its savings |
| Recommendation.BuildOption | src/main/java/com/berryselect/backend/recommendation/service/RecommendationService.java:71-110 | builds the specified option from the map: sums, payment and items |
| Recommendation.SumBestOfIsSumBest | src/main/java/com/berryselect/backend/recommendation/service/RecommendationService.java:71-76 | the stream sum over the map equals the sum of each asset's best saving (`getOrDefault` empty gives 0) |
| Recommendation.SortedStillStored | src/main/java/com/berryselect/backend/recommendation/service/RecommendationService.java:115-118 | the sorted options keep distinct ids, all among the new ones and stored |
| Settlement.WithRule | src/main/java/com/berryselect/backend/transaction/service/TransactionService.java:80-81 | keeps exactly the option items that name a rule, never more items than given |
| Settlement.FrozenRows | src/main/java/com/berryselect/backend/transaction/service/TransactionService.java:82-89 | one applied-benefit row per item, in item order, under consecutive identity ids, each copying the item's rule, component type, component reference and applied value |
| Settlement.AppliedBenefitsOf | src/main/java/com/berryselect/backend/transaction/service/TransactionService.java:80-90 | every saved row belongs to the new transaction and has a fresh id from the identity range |
| Settlement.AppliedBenefitsCopyItems | src/main/java/com/berryselect/backend/transaction/service/TransactionService.java:80-89 | each rule-bearing item becomes exactly one row with the same rule, source type, source reference and saved amount, in item order |
| Settlement.DtosOf | src/main/java/com/berryselect/backend/transaction/service/TransactionService.java:102-111 | the response lists the saved rows one-to-one and in order |
| Settlement.ResponseMirrorsItems | src/main/java/com/berryselect/backend/transaction/service/TransactionService.java:80-111 | the response's k-th benefit carries the k-th rule-bearing item of the chosen option |
| Settlement.FrozenSum | src/main/java/com/berryselect/backend/transaction/service/TransactionService.java:80-89 | the saved amounts of the frozen rows add up to the items' applied values |
| Settlement.WithRuleKeepsAll | src/main/java/com/berryselect/backend/transaction/service/TransactionService.java:81 | when every item names a rule the filter drops nothing |
| Settlement.SettledSavingIsOptionSaving | src/main/java/com/berryselect/backend/transaction/service/TransactionService.java:80-90 | settling an option priced by the recommendation engine freezes exactly its saving: the sum of the best per-asset savings, equal to `expectedSave` whenever that fits in an `int` |
| Settlement.SummaryUpdateEffect | src/main/java/com/berryselect/backend/transaction/service/TransactionService.java:306-347 | a payment without category changes no summary; otherwise only the (user, KST month, category) summary changes, created at zero if absent, growing by the amount paid, the benefits' total saving and one transaction |
| Settlement.EntriesOf | src/main/java/com/berryselect/backend/transaction/service/TransactionService.java:318-320 | each settled payment contributes its paid amount and the long sum of its saved amounts |
| Settlement.MonthTotals | src/main/java/com/berryselect/backend/transaction/service/TransactionService.java:306-347 | a user's payments in one category and month leave one summary holding their total spending, total saving and count |
| Settlement.MonthRow | src/main/java/com/berryselect/backend/transaction/service/TransactionService.java:327-343 | the summary after a run of payments is the builder's zero row with each payment added in order; no payment leaves no row |
| Settlement.OtherSummariesUntouched | src/main/java/com/berryselect/backend/transaction/service/TransactionService.java:327-343 | payments by other users, in other categories or months, or without category leave a summary as it was |
| Settlement.MerchantName | src/main/java/com/berryselect/backend/transaction/service/TransactionService.java:224-237 | "brand name" for a branded merchant, its own name otherwise, the unknown-merchant text for a null or missing id |
| Settlement.CategoryName | src/main/java/com/berryselect/backend/transaction/service/TransactionService.java:242-250 | the category's name, or "기타" for a null or unknown id |
| Settlement.PaymentCardName | src/main/java/com/berryselect/backend/transaction/service/TransactionService.java:255-268 | "현금" for a null or unknown asset, the product's name, or the unknown-card text for an asset without product |
| Settlement.SourceName | src/main/java/com/berryselect/backend/transaction/service/TransactionService.java:273-287 | the source asset's product name when there is one, the Korean label of the source type otherwise |
| Settlement.BenefitResponses | src/main/java/com/berryselect/backend/transaction/service/TransactionService.java:140-142 | one response per applied benefit, in order, each with its source name and "%,d원 절약" description |
| Settlement.DetailTotals | src/main/java/com/berryselect/backend/transaction/service/TransactionService.java:133-151 | the list's total is the sum of the transaction's own saved amounts (0 without benefits), one response per benefit, and the name fallbacks agree with the mapper's defaults |
| Settlement.SettlementStore.CreateTransaction | src/main/java/com/berryselect/backend/transaction/service/TransactionService.java:55-113 | a missing or invalid session id, then a missing or invalid option id, then an option of another session, then a missing paid amount (the NOT NULL `paid_amount` insert fails) are refused with nothing written; otherwise the transaction (currency KRW, time now), its frozen benefits and the monthly summary are the only writes, and the response mirrors them |
| Settlement.SettlementStore.UpdateMonthlyCategorySummary | src/main/java/com/berryselect/backend/transaction/service/TransactionService.java:306-347 | finds or builds the summary, adds the payment to it and saves it; the other tables stay |
| Settlement.NewTransactionListed | src/main/java/com/berryselect/backend/transaction/service/TransactionService.java:118-152 | right after settlement the list shows the transaction as recommended, with exactly its frozen benefits and their `int` total |
| Transactions.SumSavedAppend | src/main/java/com/berryselect/backend/transaction/service/TransactionService.java:144-146 | the saved total of two lists of benefits is the sum of their totals |
| Transactions.BenefitsOfTx | src/main/java/com/berryselect/backend/transaction/service/TransactionService.java:203-212 | a transaction's group holds exactly the fetched benefits of that transaction |
| Transactions.BenefitsOfTxAppend | src/main/java/com/berryselect/backend/transaction/service/TransactionService.java:203-212 | grouping keeps encounter order: appending rows appends each transaction's own rows |
| Transactions.BenefitsOfTxAll | src/main/java/com/berryselect/backend/transaction/service/TransactionService.java:203-212 | rows all of one transaction form exactly its group |
| Transactions.BenefitsOfTxNone | src/main/java/com/berryselect/backend/transaction/service/TransactionService.java:134 | a transaction without rows gets the empty default group |
| CategorySummary.Fresh | src/main/java/com/berryselect/backend/budget/domain/MonthlyCategorySummary.java:31-41 | a built summary has its key and zero spending, saving and count |
| CategorySummary.MonthlyCategorySummary.Build | src/main/java/com/berryselect/backend/transaction/service/TransactionService.java:332-339 | the builder's entity is the zero row under the given key |
| CategorySummary.MonthlyCategorySummary.Load | src/main/java/com/berryselect/backend/budget/domain/MonthlyCategorySummary.java:16-45 | the entity loaded for a stored row holds that row |
| CategorySummary.MonthlyCategorySummary.AddTransaction | src/main/java/com/berryselect/backend/budget/domain/MonthlyCategorySummary.java:48-53 | spending and saving grow by the given amounts, the count by one, the key stays |
| CategorySummary.AddAllTotals | src/main/java/com/berryselect/backend/budget/domain/MonthlyCategorySummary.java:48-53 | a summary built at zero that receives a month's transactions holds their total spending, total saving and number |
| TransactionMapper.KoreanSourceType | src/main/java/com/berryselect/backend/transaction/mapper/TransactionMapper.java:100-108 | CARD, MEMBERSHIP and GIFTICON get their Korean labels; null and any other type get "기타" |
| TransactionMapper.KnownSourcesDistinguished | src/main/java/com/berryselect/backend/transaction/mapper/TransactionMapper.java:100-108 | the three known source types get three different labels, none of them the fallback |
| TransactionMapper.BenefitDescriptionReadsBack | src/main/java/com/berryselect/backend/transaction/mapper/TransactionMapper.java:79-80 | the "%,d원 절약" description, with its grouping commas removed, reads back as the amount's decimal digits followed by the suffix |
| TransactionMapper.BenefitResponseOf | src/main/java/com/berryselect/backend/transaction/mapper/TransactionMapper.java:71-82 | id, source type and amount are copied; the Korean label is the source type's; a null source name falls back to that label and a null description to the formatted amount |
| TransactionMapper.ToBenefitResponse | src/main/java/com/berryselect/backend/transaction/mapper/TransactionMapper.java:62-83 | null maps to null and only null; otherwise id, source type and saved amount are the row's, the Korean label is the source type's, and the source name and description are the ones given or else the Korean label and the formatted saving |
| TransactionMapper.ToBenefitResponseList | src/main/java/com/berryselect/backend/transaction/mapper/TransactionMapper.java:90-98 | null gives the empty list; otherwise one defaulted response per row, in order |
| TransactionMapper.ResponsesOf | src/main/java/com/berryselect/backend/transaction/mapper/TransactionMapper.java:95-97 | one response per row, in order, built with both defaults |
| TransactionMapper.DefaultedListLabels | src/main/java/com/berryselect/backend/transaction/mapper/TransactionMapper.java:90-98 | in a list built without names each response is named by its source type's label and described by its own amount |
| TransactionMapper.ToDetailResponse | src/main/java/com/berryselect/backend/transaction/mapper/TransactionMapper.java:29-53 | null transaction maps to null and only it; identity, amount, time and payment method are the transaction's; each null name, list or total gets its fixed default; recommended exactly when the transaction has a session |
| BudgetReportMapper.ToMonthlyReportDetailResponse | src/main/java/com/berryselect/backend/budget/mapper/BudgetReportMapper.java:31-50 | null totals and count become 0, a null list the empty list, month, usage and summary pass through, and the saving rate is never carried |
| BudgetReportMapper.ToCategorySpendingResponse | src/main/java/com/berryselect/backend/budget/mapper/BudgetReportMapper.java:63-81 | each null argument gets its default ("기타", 0, 0, 0.0, 0.0, "#6366F1"); the category id and every given value pass through |
| BudgetReportMapper.ToRecommendationUsageResponse | src/main/java/com/berryselect/backend/budget/mapper/BudgetReportMapper.java:92-106 | each null argument becomes 0 or `BigDecimal.ZERO`; every given value passes through |
| BudgetReportMapper.CategoryResponseRoundTrip | src/main/java/com/berryselect/backend/budget/mapper/BudgetReportMapper.java:63-81 | rebuilding a category response from its own fields gives it back, and an all-null call gives the all-default response |
| BudgetReportMapper.UsageResponseRoundTrip | src/main/java/com/berryselect/backend/budget/mapper/BudgetReportMapper.java:92-106 | rebuilding a usage response from its own fields gives it back, and an all-null call gives the all-zero response |
| BudgetReportMapper.SavingRateNotCarried | src/main/java/com/berryselect/backend/budget/mapper/BudgetReportMapper.java:39-49 | two calls that differ only in the saving rate give the same response |
| Budget.SpentOf | src/main/java/com/berryselect/backend/budget/service/BudgetService.java:47-48 | a missing sum is 0; a sum that fits an `int` is kept; anything else wraps into `int` range |
| Budget.RemainingBounds | src/main/java/com/berryselect/backend/budget/service/BudgetService.java:51-52 | over a non-negative target, the remaining amount is between 0 and the target: 0 when exceeded, exactly the difference when the spending is within the target |
| Budget.RemainingAtTarget | src/main/java/com/berryselect/backend/budget/service/BudgetService.java:51-52 | spending exactly the target leaves 0 remaining without counting as exceeded |
| Budget.MonthOf | src/main/java/com/berryselect/backend/budget/service/BudgetService.java:33-35 | a null or blank month is the current KST month; otherwise the trimmed text parsed as "yyyy-MM", always a valid month when it parses |
| Budget.Summary | src/main/java/com/berryselect/backend/budget/service/BudgetService.java:29-62 | a malformed month fails, a month without a budget fails with "no budget"; otherwise the answer carries the month, the stored target and update time, the `int` spending, exceeded exactly when spending is above the target, and the clamped remainder |
| Budget.SummaryBalances | src/main/java/com/berryselect/backend/budget/service/BudgetService.java:48-59 | with a non-negative spending total, the remainder is never negative, is 0 when exceeded, and spent plus remaining is the target when not exceeded |
| Budget.BudgetStore.Upsert | src/main/java/com/berryselect/backend/budget/service/BudgetService.java:64-79 | a malformed month changes nothing; otherwise the month's row is updated or created and the answer is that month's summary |
| Budget.Upserted | src/main/java/com/berryselect/backend/budget/service/BudgetService.java:71-74 | the saved row keeps the key, holds the clamped target and the new update time, and keeps its creation time when it existed |
| Budget.UpsertThenSummary | src/main/java/com/berryselect/backend/budget/service/BudgetService.java:64-79 | after an upsert the month's summary always succeeds and shows the clamped target; only that key is added |
| Budget.TrimCanonical | src/main/java/com/berryselect/backend/budget/service/BudgetService.java:33-35 | a formatted "yyyy-MM" month is not blank and trims to itself |
| MonthlyBudgetEntity.ClampTarget | src/main/java/com/berryselect/backend/budget/domain/MonthlyBudget.java:47 | the stored target is never negative; a non-negative target is kept, a negative one becomes 0 |
| MonthlyBudgetEntity.MonthlyBudget.Create | src/main/java/com/berryselect/backend/budget/domain/MonthlyBudget.java:42-51 | the clamped target, created and updated at the same instant |
| MonthlyBudgetEntity.MonthlyBudget.Load | src/main/java/com/berryselect/backend/budget/domain/MonthlyBudget.java:20-39 | the entity loaded for a stored row holds that row |
| MonthlyBudgetEntity.MonthlyBudget.UpdateTarget | src/main/java/com/berryselect/backend/budget/domain/MonthlyBudget.java:54-58 | the clamped target and a new update time; owner, month and creation time stay; returns the same entity |
| MonthlyBudgetEntity.ClampIdempotent | src/main/java/com/berryselect/backend/budget/domain/MonthlyBudget.java:55 | clamping twice is clamping once; the clamp keeps a target exactly when it is non-negative |
| Report.TotalCount | src/main/java/com/berryselect/backend/budget/service/ReportService.java:63-65 | the transaction count is an `int` sum and always lies in `int` range |
| Report.SumOfAppend | src/main/java/com/berryselect/backend/budget/service/ReportService.java:57-65 | a column's sum over two lists of summaries is the sum of the two sums |
| Report.SumOfPermutation | src/main/java/com/berryselect/backend/budget/service/ReportService.java:53-65 | a column's sum is the same for every order of the same summaries |
| Report.RemovedMultiset | src/main/java/com/berryselect/backend/budget/service/ReportService.java:53-65 | taking one summary out of a list removes exactly one copy of it |
| Report.SumOfSingle | src/main/java/com/berryselect/backend/budget/service/ReportService.java:57-59 | a single summary's sum is its own value |
| Report.SumRemoved | src/main/java/com/berryselect/backend/budget/service/ReportService.java:57-65 | taking one summary out of a list takes its value out of the sum |
| Report.TotalsOrderFree | src/main/java/com/berryselect/backend/budget/service/ReportService.java:53-65 | the spent and saved totals and the count do not depend on the order the repository returns the summaries in |
| Report.AverageSaving | src/main/java/com/berryselect/backend/budget/service/ReportService.java:250-255 | 0 for a null or zero count |
| Report.AverageSavingBounds | src/main/java/com/berryselect/backend/budget/service/ReportService.java:250-255 | for non-negative figures the average is the whole part of the saving per transaction, between 0 and the total |
| Report.DivBounds | src/main/java/com/berryselect/backend/budget/service/ReportService.java:254 | the quotient of non-negative by positive is non-negative and the remainder lies below the divisor |
| Report.MulAtLeastSelf | src/main/java/com/berryselect/backend/budget/service/ReportService.java:254 | a non-negative quotient times a positive count is at least the quotient |
| Report.DivideHalfUp | src/main/java/com/berryselect/backend/budget/service/ReportService.java:244-245 | the quotient has the requested scale, lies within half a unit of the exact quotient, and is non-negative when the signs agree |
| Report.UsageRate | src/main/java/com/berryselect/backend/budget/service/ReportService.java:240-248 | zero (`BigDecimal.ZERO`) for a null or zero total; one decimal place otherwise |
| Report.RoundedAtMost | src/main/java/com/berryselect/backend/budget/service/ReportService.java:244-247 | a half-up rounded quotient stays at or below any whole bound of the exact quotient |
| Report.RoundedAtLeast | src/main/java/com/berryselect/backend/budget/service/ReportService.java:244-247 | a half-up rounded quotient stays at or above any whole bound under the exact quotient |
| Report.MulLeCancel | src/main/java/com/berryselect/backend/budget/service/ReportService.java:244-247 | cancelling a positive factor keeps a non-strict order |
| Report.MulLtCancel | src/main/java/com/berryselect/backend/budget/service/ReportService.java:244-247 | cancelling a positive factor keeps a strict order |
| Report.Pow10Small | src/main/java/com/berryselect/backend/budget/service/ReportService.java:245-247 | the scales used are powers of ten (1000, 10000) |
| Report.UsageRateBounds | src/main/java/com/berryselect/backend/budget/service/ReportService.java:240-248 | when at most every transaction used a recommendation the rate is a percentage from 0.0 to 100.0; none gives 0.0 and all give 100.0 |
| Report.StoredSummary | src/main/java/com/berryselect/backend/budget/service/ReportService.java:183-190 | found exactly when an AI report of the user's month is stored, and then its content is one of theirs |
| Report.StoredSummaryAppend | src/main/java/com/berryselect/backend/budget/service/ReportService.java:183-190 | a report added after the first stored one does not change which is served; the first one added is served |
| Report.GeneratedContent | src/main/java/com/berryselect/backend/budget/service/ReportService.java:195-207 | a month without summaries gets the fixed "no transactions" text; otherwise the OpenAI answer, null on failure |
| Report.AiSummary | src/main/java/com/berryselect/backend/budget/service/ReportService.java:86-129 | a stored summary is returned and nothing is saved; a failed generation returns the fixed unavailable text and saves nothing; otherwise the new content is returned and saved as an AI report |
| Report.AiSummaryCached | src/main/java/com/berryselect/backend/budget/service/ReportService.java:86-129 | once a month has a summary, asking again returns the same text and saves nothing, whatever the summaries or OpenAI say by then |
| Report.EmptyMonthOffline | src/main/java/com/berryselect/backend/budget/service/ReportService.java:195-198 | a month without summaries does not depend on OpenAI, and its fixed text is what gets saved |
| Report.ReportStore.GenerateOrGetAiSummary | src/main/java/com/berryselect/backend/budget/service/ReportService.java:85-129 | returns the outcome's content and appends exactly the report it saves, if any |
| Report.Percentage | src/main/java/com/berryselect/backend/budget/service/ReportService.java:226-238 | 0.0 when the whole is 0; between 0.0 and 100.0 for a part within the whole |
| Report.CategoryEntries | src/main/java/com/berryselect/backend/budget/service/ReportService.java:133-151 | one entry per summary in the repository's order, each with its category name, its share of the month's spending and its own saving rate |
| Report.RatiosAddUp | src/main/java/com/berryselect/backend/budget/service/ReportService.java:133-151 | the spending ratios of a month with spending add up to 100 percent |
| Report.WholeShare | src/main/java/com/berryselect/backend/budget/service/ReportService.java:237 | the whole as a share of itself is 100 percent |
| Report.ShareAdd | src/main/java/com/berryselect/backend/budget/service/ReportService.java:237 | shares of the same whole add as their parts do |
| Report.RatioPrefix | src/main/java/com/berryselect/backend/budget/service/ReportService.java:138-148 | the ratios of the first n entries add up to the first n summaries' share of the total |
| Report.MonthlyReportDetail | src/main/java/com/berryselect/backend/budget/service/ReportService.java:49-80 | a malformed month fails; otherwise the totals over the summaries, one entry per category, the usage figures (transaction count, recommended-transaction count and saving from recommendations as counted, with the usage rate and average saving derived from them), the stored or freshly generated (unsaved) AI summary, and no saving rate |
| ReportController.SplitTrailingDash | src/main/java/com/berryselect/backend/budget/controller/BudgetReportController.java:110 | `"2024-1-".split("-")` drops the trailing empty piece and gives two pieces |
| ReportController.TrailingDashSlipsThrough | src/main/java/com/berryselect/backend/budget/controller/BudgetReportController.java:104-123 | "2024-1-" passes the check as written although the service cannot parse it as a month |
| ReportController.SplitCanonical | src/main/java/com/berryselect/backend/budget/controller/BudgetReportController.java:110-113 | a "yyyy-MM" text splits into its year and month digits |
| ReportController.StrictIsNarrower | src/main/java/com/berryselect/backend/budget/controller/BudgetReportController.java:104-123 | every month the strict check accepts, the check as written accepts too |
| ReportController.GetMonthlyReport | src/main/java/com/berryselect/backend/budget/controller/BudgetReportController.java:25-62 | 401 exactly without a principal, 400 exactly for a month the check refuses, 500 exactly when the check passes a month the service cannot parse, otherwise 200 with the service's report |
| ReportController.GetMonthlyReportCorrected | src/main/java/com/berryselect/backend/budget/controller/BudgetReportController.java:25-62 | with the strict check: 401 without a principal, 400 exactly for a refused month, and never 500 |
| ReportController.CorrectedOnlyFixesServerErrors | src/main/java/com/berryselect/backend/budget/controller/BudgetReportController.java:25-62 | the corrected endpoint answers as the written one, except that a 500 becomes a 400 |
| ReportController.RegenerateAiSummary | src/main/java/com/berryselect/backend/budget/controller/BudgetReportController.java:64-101 | 401 and 400 leave the stored reports alone; otherwise the summary is fetched or generated and saved, and a text carrying the failure mark is sent as a 500 with that body, any other as 200 |
| ReportController.AiFailureIsServerError | src/main/java/com/berryselect/backend/budget/controller/BudgetReportController.java:85-90 | when OpenAI fails on a month with summaries and nothing is stored, the answer carries the failure mark, so it is sent as a 500 |
| Notifications.FindByCode | src/main/java/com/berryselect/backend/notification/domain/NotificationStatus.java:32-39 | the first value in declaration order whose code matches, and nothing exactly when no value has that code |
| Notifications.StatusFromCode | src/main/java/com/berryselect/backend/notification/domain/NotificationStatus.java:32-39 | a status is found only for its own code |
| Notifications.StatusCodes | src/main/java/com/berryselect/backend/notification/domain/NotificationStatus.java:7-13 | every status is found by its own code, and exactly "PENDING", "SENT" and "FAILED" are accepted |
| Notifications.TypeFromCode | src/main/java/com/berryselect/backend/notification/domain/NotificationType.java:32-39 | a type is found only for its own code |
| Notifications.TypeCodes | src/main/java/com/berryselect/backend/notification/domain/NotificationType.java:7-13 | every type is found by its code and no two share one; the gifticon alert's code is "GIFICON_EXPIRE", so its constant name "GIFTICON_EXPIRE" is refused |
| Notifications.BuiltAsWritten | src/main/java/com/berryselect/backend/notification/domain/Notification.java:17-63 | the builder as written gives 0 retries and unread, but leaves the status null, which the non-null column refuses |
| Notifications.Built | src/main/java/com/berryselect/backend/notification/domain/Notification.java:42-47 | the evidently intended new notification: pending, never tried, unread, never sent, with the given owner, type, title and body |
| Notifications.BuilderDropsPendingDefault | src/main/java/com/berryselect/backend/notification/domain/Notification.java:41-47 | the two builders differ in the status alone |
| Notifications.Read | src/main/java/com/berryselect/backend/notification/domain/Notification.java:79-81 | the notification is read and nothing else changes |
| Notifications.Sent | src/main/java/com/berryselect/backend/notification/domain/Notification.java:84-87 | the status is SENT and the send time is now; nothing else changes, retries included |
| Notifications.Failed | src/main/java/com/berryselect/backend/notification/domain/Notification.java:90-94 | the status is FAILED, the message is kept and the retries go up by one; nothing else changes |
| Notifications.WithKakaoResult | src/main/java/com/berryselect/backend/notification/domain/Notification.java:97-99 | the result code is set and nothing else changes |
| Notifications.ReadIdempotent | src/main/java/com/berryselect/backend/notification/domain/Notification.java:79-81 | reading twice is reading once, and reading changes the row exactly when it was unread |
| Notifications.FailuresExhaustRetries | src/main/java/com/berryselect/backend/notification/domain/Notification.java:90-104 | from a fresh row two failures still allow a retry and the third exhausts them |
| Notifications.SentIsNotRetried | src/main/java/com/berryselect/backend/notification/domain/Notification.java:84-104 | a sent row is never retried, and sending does not change whether it was read |
| Notifications.Notification.Load | src/main/java/com/berryselect/backend/notification/domain/Notification.java:18-63 | the entity loaded for a stored row holds that row |
| Notifications.Notification.MarkAsRead | src/main/java/com/berryselect/backend/notification/domain/Notification.java:79-81 | the entity's row becomes its read row |
| Notifications.Notification.MarkAsSent | src/main/java/com/berryselect/backend/notification/domain/Notification.java:84-87 | the entity's row becomes its sent row |
| Notifications.Notification.MarkAsFailed | src/main/java/com/berryselect/backend/notification/domain/Notification.java:90-94 | the entity's row becomes its failed row |
| Notifications.Notification.SetKakaoResult | src/main/java/com/berryselect/backend/notification/domain/Notification.java:97-99 | the entity's row records the result code |
| NotificationService.Attempted | src/main/java/com/berryselect/backend/notification/service/NotificationService.java:112-133 | after a send attempt the row is SENT with the result code and time, retries kept, or FAILED with the message and one more retry; owner, type, title, body and read flag stay |
| NotificationService.SendKakao | src/main/java/com/berryselect/backend/notification/service/NotificationService.java:112-133 | the entity's row becomes the attempted row |
| NotificationService.RetryableIsCanRetry | src/main/java/com/berryselect/backend/notification/repository/NotificationRepository.java:30-31 | the repository's retry query selects exactly the rows the entity allows to retry |
| NotificationService.Retried | src/main/java/com/berryselect/backend/notification/service/NotificationService.java:145-154 | a retry pass keeps the set of notifications |
| NotificationService.RetriedRows | src/main/java/com/berryselect/backend/notification/service/NotificationService.java:145-154 | a retry pass touches only retryable rows, leaves none pending and at most three failures, and a row stays retryable only if this attempt failed and it had fewer than two failures before |
| NotificationService.GifticonExpireBodyReadsBack | src/main/java/com/berryselect/backend/notification/service/NotificationService.java:107 | the gifticon body reads back as the name, the fixed middle, the number of days and the fixed tail |
| NotificationService.BudgetAlertBody | src/main/java/com/berryselect/backend/notification/service/NotificationService.java:99 | the budget body is the fixed lead followed by the detail, "null" when there is none |
| NotificationService.RetryAll | src/main/java/com/berryselect/backend/notification/service/NotificationService.java:149-153 | visiting the retryable rows one by one gives the table after one retry pass |
| NotificationService.NotificationStore.MarkNotificationAsRead | src/main/java/com/berryselect/backend/notification/service/NotificationService.java:34-52 | an unknown notification and another user's are refused with nothing changed; otherwise the notification is read and nothing else changes |
| NotificationService.NotificationStore.CreateAndSendNotification | src/main/java/com/berryselect/backend/notification/service/NotificationService.java:60-82 | an unknown user is refused with nothing saved; otherwise a new notification is saved under the next id, then sent, and the saved row is the attempted one; the row starts PENDING as the corrected builder `Notifications.Built` makes it, where the builder as written leaves the status null and the insert fails (see Findings) |
| NotificationService.NotificationStore.SendTestNotification | src/main/java/com/berryselect/backend/notification/service/NotificationService.java:85-93 | a benefit-event notification with the fixed test title and text, under the same rules |
| NotificationService.NotificationStore.SendBudgetAlert | src/main/java/com/berryselect/backend/notification/service/NotificationService.java:96-101 | a budget alert with its fixed title and the formatted body, under the same rules |
| NotificationService.NotificationStore.SendGifticonExpireAlert | src/main/java/com/berryselect/backend/notification/service/NotificationService.java:104-109 | a gifticon alert with its fixed title and the formatted body, under the same rules |
| NotificationService.NotificationStore.RetryFailedNotifications | src/main/java/com/berryselect/backend/notification/service/NotificationService.java:144-154 | the table after one retry pass; no notification is added |
| Auth.Issued | src/main/java/com/berryselect/backend/auth/service/AuthService.java:85-94 | the stored row belongs to the user, holds the token, is created now and expires the configured lifetime later, neither used nor revoked |
| Auth.RotationRefusal | src/main/java/com/berryselect/backend/auth/service/AuthService.java:99-105 | a token is accepted exactly when it is on file, not revoked, not used and not past its expiry; unknown, then revoked, then used, then expired is the order of refusal |
| Auth.RotationIsOneShot | src/main/java/com/berryselect/backend/auth/service/AuthService.java:97-119 | a rotated token is refused as revoked at any later instant; the new token belongs to the same user and is accepted exactly up to its expiry; every other token stays |
| Auth.ExpiryIsInclusive | src/main/java/com/berryselect/backend/auth/service/AuthService.java:105 | a token is accepted at its expiry instant and refused one millisecond later |
| Auth.AuthStore.StoreRefreshToken | src/main/java/com/berryselect/backend/auth/service/AuthService.java:85-94 | a token already on file is refused with nothing stored; otherwise exactly the issued row is added under the next id |
| Auth.AuthStore.RotateTokens | src/main/java/com/berryselect/backend/auth/service/AuthService.java:96-119 | a refused token changes nothing; an accepted one is used and revoked now and a fresh token for the same user is stored, answered as "Bearer"; a fresh token already on file rolls everything back |
| Auth.AuthStore.LogoutByRefreshToken | src/main/java/com/berryselect/backend/auth/service/AuthService.java:121-129 | a known token is revoked and used now; an unknown one changes nothing |
| Auth.AuthStore.LogoutAllDevices | src/main/java/com/berryselect/backend/auth/service/AuthService.java:131-135 | exactly the user's tokens are deleted |
| Auth.AuthStore.Login | src/main/java/com/berryselect/backend/auth/service/AuthService.java:39-83 | an unknown Kakao id parks the Kakao access token for ten minutes and gets a guest token, no refresh token and the new-user flag, with no refresh token stored; a known user gets an access and a refresh token, the refresh token stored |
| Auth.LogoutRevokes | src/main/java/com/berryselect/backend/auth/service/AuthService.java:121-129 | after a logout the token is refused as revoked whenever it is presented |
| Auth.LogoutAllForgets | src/main/java/com/berryselect/backend/auth/service/AuthService.java:131-135 | after logging out of every device none of the user's tokens is known |
| Onboarding.Consumed | src/main/java/com/berryselect/backend/auth/service/OnboardingTokenStore.java:38-42 | tokens are handed back exactly when the key is present and not expired, and then they are the stored ones, not yet past their expiry |
| Onboarding.OnboardingTokenStore.Put | src/main/java/com/berryselect/backend/auth/service/OnboardingTokenStore.java:33-35 | the key's entry is replaced by one expiring the given time from now |
| Onboarding.OnboardingTokenStore.Consume | src/main/java/com/berryselect/backend/auth/service/OnboardingTokenStore.java:38-42 | the key's entry is removed, expired or not, and the answer is what was stored if it had not expired |
| Onboarding.PutThenConsume | src/main/java/com/berryselect/backend/auth/service/OnboardingTokenStore.java:25-42 | put tokens are consumed once, up to and including their expiry instant; after that the key finds nothing |
| Onboarding.ConsumeIsolated | src/main/java/com/berryselect/backend/auth/service/OnboardingTokenStore.java:38-42 | consuming one key leaves every other key's answer as it was |
| Registration.GuestKakaoId | src/main/java/com/berryselect/backend/auth/controller/RegistrationController.java:57-64 | an id exactly when the header is "Bearer " plus a token whose subject starts with "guest:", and then the id is the rest of that subject |
| Registration.GuestTokenReadsBack | src/main/java/com/berryselect/backend/auth/controller/RegistrationController.java:57-64 | a guest token issued for a Kakao id and presented as a bearer token yields that id |
| Registration.Admission | src/main/java/com/berryselect/backend/auth/controller/RegistrationController.java:57-78 | 401 exactly without a guest token, 409 exactly for a Kakao id already signed up, otherwise 400 without the four required consents or with more than three categories; admitted requests carry the Kakao id |
| Registration.DaysInMonth | src/main/java/com/berryselect/backend/auth/controller/RegistrationController.java:95 | every month has 28 to 31 days |
| Registration.DateOf | src/main/java/com/berryselect/backend/auth/controller/RegistrationController.java:95 | a date exists only for a month from 1 to 12 and a day that month has, and is then that date |
| Registration.LeapDay | src/main/java/com/berryselect/backend/auth/controller/RegistrationController.java:95 | the 29th of February exists exactly in leap years: 2000 and 2024 have one, 1900 and 2023 do not |
| Registration.BirthOf | src/main/java/com/berryselect/backend/auth/controller/RegistrationController.java:87-97 | no birth date exactly when there is no Kakao account or either part is not four characters long; a `NumberFormatException` exactly when the year or a half of the birthday does not parse as an `int`; a `DateTimeException` only when all three parse but name no date; a parsed date is the numbers the parts spell, and exists in the calendar |
| Registration.BirthReadsBack | src/main/java/com/berryselect/backend/auth/controller/RegistrationController.java:90-97 | a real date of the years 1000 to 9999, sent as "yyyy" and "MMdd", is read back as that date |
| Registration.BirthFailures | src/main/java/com/berryselect/backend/auth/controller/RegistrationController.java:90-97 | "19a0" and "ab12" are not numbers; "12-5" (month 12, day -5) and "0230" parse but name no date; a three-character birthday is ignored |
| Registration.RollbackStatus | src/main/java/com/berryselect/backend/common/exception/GlobalExceptionHandler.java:92-122 | after the guards, a birth part that is not a number is answered 400 (an `IllegalArgumentException`); otherwise a date that does not exist, a category named twice or a clashing refresh token is answered 500; nothing else is refused |
| Registration.TwoDigits | src/main/java/com/berryselect/backend/auth/controller/RegistrationController.java:95 | two decimal digits parse as their value |
| Registration.ParsesYear | src/main/java/com/berryselect/backend/auth/controller/RegistrationController.java:95 | "1990" parses as 1990 |
| Registration.SettingsOf | src/main/java/com/berryselect/backend/auth/controller/RegistrationController.java:111-119 | the settings row copies the request's Kakao, marketing and notification choices |
| Registration.Consents | src/main/java/com/berryselect/backend/auth/controller/RegistrationController.java:121-129 | five consent rows in the order TOS, PRIVACY, KAKAO_ALERT, MYDATA, MARKETING, each with version v1.0, the request's answer, the instant and the remote address |
| Registration.ConsentsCoverTypes | src/main/java/com/berryselect/backend/auth/controller/RegistrationController.java:121-129 | every consent type is recorded exactly once with the request's answer; after the guards only marketing may be refused |
| Registration.Register | src/main/java/com/berryselect/backend/auth/controller/RegistrationController.java:50-158 | a failed guard answers its status with nothing changed; otherwise the Kakao entry is consumed, a missing or expired one answers 401, a birth part that is not a number answers 400, a birth date that does not exist, a category named twice or a clashing refresh token answers 500, each with every row rolled back; success inserts the user, settings, five consents, the found categories and the refresh token and answers with the new tokens |
| Registration.NoRowsOfNewUser | src/main/java/com/berryselect/backend/auth/controller/RegistrationController.java:131-141 | a user just inserted has no preference rows |
| Registration.WithoutAbsent | src/main/java/com/berryselect/backend/auth/controller/RegistrationController.java:131-141 | deleting the rows of a user who has none changes nothing |
| Registration.SecondRegistrationConflicts | src/main/java/com/berryselect/backend/auth/controller/RegistrationController.java:67-70 | once a Kakao id has signed up, every later registration past the token check is refused with 409 |
| Accounts.CategoryByName | src/main/java/com/berryselect/backend/merchant/repository/CategoryRepository.java:12 | a found category is in the catalogue and has the requested name; nothing is found exactly when no category has it |
| Accounts.CategoryById | src/main/java/com/berryselect/backend/merchant/repository/CategoryRepository.java:11 | a found category is in the catalogue and has the requested id; nothing is found exactly when no category has it |
| Accounts.CatalogueLookups | src/main/java/com/berryselect/backend/auth/domain/Category.java:12-17 | with unique ids and unique names, every category of the table is found both by its own id and by its own name |
| Accounts.KnownNames | src/main/java/com/berryselect/backend/auth/controller/RegistrationController.java:132-140 | the names the catalogue has are kept, never more than were requested |
| Accounts.FoundIds | src/main/java/com/berryselect/backend/auth/controller/RegistrationController.java:132-140 | the lookup-and-skip loop yields at most one id per requested name, and only ids of categories that exist |
| Accounts.FoundIdsNames | src/main/java/com/berryselect/backend/auth/controller/RegistrationController.java:132-140 | the ids the loop stores name exactly the requested names the catalogue has, in request order, duplicates kept |
| Accounts.IdsByNames | src/main/java/com/berryselect/backend/merchant/repository/CategoryRepository.java:14-16 | the `in :names` query selects at most one id per catalogue row |
| Accounts.IdsByNamesMatch | src/main/java/com/berryselect/backend/merchant/repository/CategoryRepository.java:14-16 | the selected ids are distinct and known, and their names are exactly the requested names the catalogue has (both directions) |
| Accounts.SelectedDistinct | src/main/java/com/berryselect/backend/merchant/repository/CategoryRepository.java:14-16 | every selected id names a category whose name was requested, and no id is selected twice |
| Accounts.NamesOf | src/main/java/com/berryselect/backend/auth/repository/UserPreferredCategoryRepository.java:17-24 | the names of a user's preferences, by preference id, never more than there are rows |
| Accounts.WithoutUser | src/main/java/com/berryselect/backend/auth/repository/UserPreferredCategoryRepository.java:12-14 | the delete keeps exactly the rows of other users |
| Accounts.NewPreferences | src/main/java/com/berryselect/backend/auth/service/UserProfileService.java:91-110 | a save loop inserts one row per category, the k-th with the k-th category and the k-th next id, for that user |
| Accounts.NamesOfIds | src/main/java/com/berryselect/backend/auth/service/UserProfileService.java:98-109 | the names collected in the save loop, one per id, in order |
| Accounts.NamesOfWithout | src/main/java/com/berryselect/backend/auth/repository/UserPreferredCategoryRepository.java:12-24 | after the delete a user has no names left and every other user's names are untouched |
| Accounts.NamesOfNew | src/main/java/com/berryselect/backend/auth/repository/UserPreferredCategoryRepository.java:17-24 | the inserted rows show as the new categories' names for their user and as nothing for any other user |
| Accounts.PreferencesReplaced | src/main/java/com/berryselect/backend/auth/service/UserProfileService.java:86-110 | delete-then-insert replaces the user's list by the new categories' names in request order and leaves every other user's list as it was |
| Accounts.InsertFault | src/main/java/com/berryselect/backend/auth/domain/UserPreferredCategory.java:10-27 | inserting the ids for one user fails exactly when an id has no category (the foreign key) or repeats (the unique key on user and category); an unknown-id fault names an unknown requested id |
| Accounts.NamesFault | src/main/java/com/berryselect/backend/auth/service/UserProfileService.java:91-99 | the by-name loop fails exactly when a name is not in the catalogue or a category is met twice; an unknown-name fault names a requested name the catalogue lacks |
| Accounts.AllNamesKnown | src/main/java/com/berryselect/backend/auth/service/UserProfileService.java:91-99 | when every requested name exists, the names stored are the request itself |
| Accounts.AccountStore.constructor | src/main/java/com/berryselect/backend/auth/domain/UserPreferredCategory.java:10-11 | an empty store over a catalogue with unique ids and names satisfies the tables' keys |
| Accounts.AccountStore.InsertUser | src/main/java/com/berryselect/backend/auth/controller/RegistrationController.java:101-109 | the user is stored under the next id, which was free; nothing else changes |
| Accounts.AccountStore.SaveSettings | src/main/java/com/berryselect/backend/auth/controller/RegistrationController.java:111-119 | the user's settings row is inserted or overwritten; nothing else changes and the keys still hold |
| Accounts.AccountStore.AddConsents | src/main/java/com/berryselect/backend/auth/controller/RegistrationController.java:121-129 | the consent rows are appended; nothing else changes |
| Accounts.AccountStore.ReplacePreferences | src/main/java/com/berryselect/backend/auth/service/UserProfileService.java:86-110 | the user's rows are deleted and one row per known, distinct category inserted with fresh ids; the table stays ordered and unique per user and category |
| Accounts.InsertRows | src/main/java/com/berryselect/backend/auth/service/UserProfileService.java:102-110 | the save loop appends exactly the new rows and keeps the table in id order, unique per user and category, every row attached to a user and a category |
| Accounts.KeptOrdered | src/main/java/com/berryselect/backend/auth/repository/UserPreferredCategoryRepository.java:12-14 | the delete keeps the remaining rows in id order and unique per user and category |
| ProfileService.ResponseOf | src/main/java/com/berryselect/backend/auth/service/UserProfileService.java:117-124 | the answer carries the names and the stored flags unchanged, null included |
| ProfileService.GetSettings | src/main/java/com/berryselect/backend/auth/service/UserProfileService.java:32-53 | 404 "user not found" exactly for an unknown user; otherwise the user's names by preference id and the five stored flags as stored, nulls included; every flag null when the user has no settings row |
| ProfileService.Merged | src/main/java/com/berryselect/backend/auth/service/UserProfileService.java:62-73 | a non-null flag overwrites the stored one, a null flag keeps it, field by field |
| ProfileService.MergeLaws | src/main/java/com/berryselect/backend/auth/service/UserProfileService.java:62-73 | the merge is idempotent, a request without flags changes nothing, and a request with every flag fixes the row whatever was stored |
| ProfileService.ListFault | src/main/java/com/berryselect/backend/auth/service/UserProfileService.java:76-111 | more than three categories is refused (counted on the names when given, else the ids); no list never fails; an accepted name list names only existing, distinct categories; an accepted id list has only known, distinct ids |
| ProfileService.UpdateSettings | src/main/java/com/berryselect/backend/auth/service/UserProfileService.java:55-125 | unknown user is 404 and a failing list rolls everything back; otherwise the flags are merged into the (possibly new) row, a given list replaces the preferences with names taking precedence, no list keeps them, and the answer equals what getSettings reads afterwards |
| ProfileService.UpdatedNames | src/main/java/com/berryselect/backend/auth/service/UserProfileService.java:86-111 | an accepted name list is stored as exactly the requested names; an id list as the ids' names in request order; other users keep theirs |
| ProfileService.UnknownCategoryRefused | src/main/java/com/berryselect/backend/auth/service/UserProfileService.java:92-93 | an unknown name or id is refused with 400 and the message naming it |
| SettingsService.Bool | src/main/java/com/berryselect/backend/auth/service/UserSettingsService.java:109-111 | null reads as false; a value reads as itself |
| SettingsService.GetSettings | src/main/java/com/berryselect/backend/auth/service/UserSettingsService.java:29-43 | no user check; the names by preference id; every flag a boolean, all false without a settings row, otherwise each of the five stored flags with null as false |
| SettingsService.Overwritten | src/main/java/com/berryselect/backend/auth/service/UserSettingsService.java:57-61 | every flag of the row becomes the request's, null included |
| SettingsService.UpdateFailure | src/main/java/com/berryselect/backend/auth/service/UserSettingsService.java:47-93 | a missing user fails the settings row's key; otherwise the update fails exactly when the saved ids have an unknown or repeated id |
| SettingsService.UpdateSettings | src/main/java/com/berryselect/backend/auth/service/UserSettingsService.java:46-107 | a failure rolls everything back; otherwise the row is the request's flags, the user's preferences are exactly the ids given, else those the names select, else none, and the answer is what getSettings now reads |
| SettingsService.SavedNames | src/main/java/com/berryselect/backend/auth/service/UserSettingsService.java:64-97 | after an update the names are the ids' names in request order; else each requested name the catalogue has, once, in both directions; else none; other users keep theirs |
| SettingsService.NamesOfDistinctIds | src/main/java/com/berryselect/backend/auth/domain/Category.java:16-17 | with unique category names, distinct ids show as distinct names |
| SettingsService.BlankUpdateClears | src/main/java/com/berryselect/backend/auth/service/UserSettingsService.java:57-61 | a request without flags makes every flag read back false |
| Wallet.Redeem | src/main/java/com/berryselect/backend/wallet/service/WalletService.java:236-252 | a null or non-positive amount is refused before the lookup; a gifticon the user does not own is not found; otherwise the call succeeds exactly when the balance is non-null and covers the amount, the new balance is the old minus the amount and never negative, the status becomes USED when the balance reaches 0 and is untouched otherwise, and nothing else about the gifticon changes |
| Wallet.WalletStore.RedeemGifticon | src/main/java/com/berryselect/backend/wallet/service/WalletService.java:235-260 | a refused call changes nothing; an accepted one saves the redeemed gifticon and exactly one redemption of the amount at the given instant, so balance plus total redeemed is conserved |
| Wallet.RedeemAllTotal | src/main/java/com/berryselect/backend/wallet/service/WalletService.java:236-259 | a run of accepted redemptions takes exactly their sum off the balance, which therefore covered it; no other asset and nothing else about the gifticon changes |
| Wallet.EmptiedGifticonRefused | src/main/java/com/berryselect/backend/wallet/service/WalletService.java:245-252 | a redemption that empties a gifticon marks it USED, and every further redemption is refused |
| Wallet.ParseSort | src/main/java/com/berryselect/backend/wallet/service/WalletService.java:181-189 | null or blank gives ASC "expiresAt"; otherwise a result has the trimmed first comma piece as its (non-blank) property and is DESC exactly when a second piece trims to "desc" in any case |
| Wallet.ParseSortComma | src/main/java/com/berryselect/backend/wallet/service/WalletService.java:185-186 | the parameter "," splits into no pieces, so reading the first piece fails |
| Wallet.ParseSortOrDefault | src/main/java/com/berryselect/backend/wallet/service/WalletService.java:181-189 | the corrected parser always yields a non-blank property, agrees with the parser as written wherever that succeeds, and falls back to "expiresAt" where it fails |
| Wallet.NormalizePage | src/main/java/com/berryselect/backend/wallet/service/WalletService.java:159-160 | a negative page becomes 0 and a size of 0 or less becomes 50; both are then usable |
| Wallet.SoonWindow | src/main/java/com/berryselect/backend/wallet/service/WalletService.java:165-170 | an expiry window exists exactly for a positive soonDays; it starts today and spans that many days |
| Wallet.GifticonListQuery | src/main/java/com/berryselect/backend/wallet/service/WalletService.java:153-172 | the query keeps the user and status, has a usable page, size and property, the window of soonDays, and the parsed order wherever the parser as written succeeds |
| Wallet.WindowOnlyNarrows | src/main/java/com/berryselect/backend/wallet/service/WalletService.java:165-172 | a window only removes gifticons from the list, and what it keeps expires no earlier than today |
| Wallet.NonEmptyGroup | src/main/java/com/berryselect/backend/wallet/service/WalletService.java:85-86 | a found group is the category's and has items; none found means the category's group is missing or empty |
| Wallet.Personalized | src/main/java/com/berryselect/backend/wallet/service/WalletService.java:83-89 | at most one group per preferred category, each a group with items whose category is preferred |
| Wallet.Others | src/main/java/com/berryselect/backend/wallet/service/WalletService.java:90-95 | exactly the groups whose category is not preferred, empty ones included |
| Wallet.SplitPartitions | src/main/java/com/berryselect/backend/wallet/service/WalletService.java:83-95 | the split partitions the groups: a group with items is personalized exactly when its category is preferred, every other group is in others exactly when its category is not preferred |
| Wallet.PersonalizedHas | src/main/java/com/berryselect/backend/wallet/service/WalletService.java:84-88 | every group with items whose category is preferred is in the personalized list |
| Wallet.PersonalizedOrdered | src/main/java/com/berryselect/backend/wallet/service/WalletService.java:84-88 | over distinct categories the personalized groups keep the categories' order |
| Wallet.SplitOrdered | src/main/java/com/berryselect/backend/wallet/service/WalletService.java:82-89 | the personalized groups come in the order in which the preferences first name their categories, duplicates collapsed |
| Wallet.SplitGroups | src/main/java/com/berryselect/backend/wallet/service/WalletService.java:79-97 | the two loops build exactly the split by preference |
| Wallet.GetCardBenefits | src/main/java/com/berryselect/backend/wallet/service/WalletService.java:63-98 | NOT_FOUND exactly when the card is not the user's card; otherwise the card's grouped benefits split by the preferred categories, a null settings answer counting as none |
| BenefitAggregation.FirstResolving | src/main/java/com/berryselect/backend/wallet/service/BenefitAggregationService.java:63-67 | the first scope of the type whose id has a name, with no earlier scope resolving |
| BenefitAggregation.StripTrailingZeros | src/main/java/com/berryselect/backend/wallet/service/BenefitAggregationService.java:131 | the same number, zero as 0 with scale 0, otherwise an unscaled value not divisible by 10 |
| BenefitAggregation.PlainString | src/main/java/com/berryselect/backend/wallet/service/BenefitAggregationService.java:131-132 | plain text without exponent: a minus exactly for negatives, a digit last, exactly scale digits after the point for a positive scale and no point otherwise |
| BenefitAggregation.PercentNumber | src/main/java/com/berryselect/backend/wallet/service/BenefitAggregationService.java:131-132 | below scale 3 exactly the rate times 100; from scale 3 the rate times 100 rounded half up to one decimal place |
| BenefitAggregation.Percent | src/main/java/com/berryselect/backend/wallet/service/BenefitAggregationService.java:128-133 | "" for null; otherwise the percentage's plain text followed by '%' |
| BenefitAggregation.PercentOfTenth | src/main/java/com/berryselect/backend/wallet/service/BenefitAggregationService.java:130-131 | the rate 0.1 prints as "10%" |
| BenefitAggregation.PercentRounded | src/main/java/com/berryselect/backend/wallet/service/BenefitAggregationService.java:132 | the rate 0.1234 prints as "12.3%" |
| BenefitAggregation.Amount | src/main/java/com/berryselect/backend/wallet/service/BenefitAggregationService.java:135-138 | "" for null, otherwise the amount with thousands separators and "원" |
| BenefitAggregation.TitleShape | src/main/java/com/berryselect/backend/wallet/service/BenefitAggregationService.java:97-110 | the title carries a value exactly for a RATE rule with a rate or an AMOUNT rule with an amount, and is otherwise the type label alone |
| BenefitAggregation.SubtitleParts | src/main/java/com/berryselect/backend/wallet/service/BenefitAggregationService.java:112-122 | every subtitle part is non-empty |
| BenefitAggregation.SubtitleEmpty | src/main/java/com/berryselect/backend/wallet/service/BenefitAggregationService.java:112-124 | the subtitle is empty exactly when the rule has no positive cap, no positive minimum and no non-blank description |
| BenefitAggregation.KeyedOf | src/main/java/com/berryselect/backend/wallet/service/BenefitAggregationService.java:61-84 | one item per rule |
| BenefitAggregation.KeyIndex | src/main/java/com/berryselect/backend/wallet/service/BenefitAggregationService.java:86 | the position of the key's group, no earlier group having that key, or the end when there is none |
| BenefitAggregation.AddToGroupStep | src/main/java/com/berryselect/backend/wallet/service/BenefitAggregationService.java:86 | one computeIfAbsent-add keeps the keys distinct, appends a new key at the end, puts the item at the end of its key's group only and adds one item in all |
| BenefitAggregation.GroupAllKeys | src/main/java/com/berryselect/backend/wallet/service/BenefitAggregationService.java:59-87 | the group keys are the rules' keys in order of first appearance |
| BenefitAggregation.GroupAllTotal | src/main/java/com/berryselect/backend/wallet/service/BenefitAggregationService.java:59-87 | the keys are distinct and the groups hold one item per rule |
| BenefitAggregation.GroupAllItems | src/main/java/com/berryselect/backend/wallet/service/BenefitAggregationService.java:59-87 | every group holds exactly its key's items, in rule order |
| BenefitAggregation.ItemsWithKeyAbsent | src/main/java/com/berryselect/backend/wallet/service/BenefitAggregationService.java:86 | a key no rule produces has no items |
| BenefitAggregation.ByTitleIsTotalPreorder | src/main/java/com/berryselect/backend/wallet/service/BenefitAggregationService.java:91 | comparing titles is total and transitive, as a list sort needs |
| BenefitAggregation.SortGroups | src/main/java/com/berryselect/backend/wallet/service/BenefitAggregationService.java:90-92 | every group is sorted on its own; the keys stay in place |
| BenefitAggregation.GroupedShape | src/main/java/com/berryselect/backend/wallet/service/BenefitAggregationService.java:32-94 | no rules give no groups; otherwise distinct keys in first-appearance order, one item per rule in all, each group sorted by title and a stable permutation of its key's items |
| BenefitAggregation.SortKeepsTotal | src/main/java/com/berryselect/backend/wallet/service/BenefitAggregationService.java:90-92 | sorting keeps the number of items |
| BenefitAggregation.LoadBenefitItemsGroupedByCategory | src/main/java/com/berryselect/backend/wallet/service/BenefitAggregationService.java:32-95 | the loops build exactly the grouped and sorted screen described by GroupedShape |
| BenefitAggregation.SortEachGroup | src/main/java/com/berryselect/backend/wallet/service/BenefitAggregationService.java:90-92 | the loop sorts every group by title and nothing else |
| MerchantSearch.SanitizeKeyword | src/main/java/com/berryselect/backend/merchant/service/MerchantService.java:102-106 | null exactly for a null or whitespace-only keyword; otherwise the trimmed keyword, which has no blank at either end |
| MerchantSearch.SanitizeIdempotent | src/main/java/com/berryselect/backend/merchant/service/MerchantService.java:102-106 | sanitizing a sanitized keyword changes nothing |
| MerchantSearch.TrimFixed | src/main/java/com/berryselect/backend/merchant/service/MerchantService.java:104 | text without blanks at its ends is its own trim |
| MerchantSearch.EffectiveLastId | src/main/java/com/berryselect/backend/merchant/service/MerchantService.java:29 | a cursor is used exactly when it is present and positive, and then unchanged |
| MerchantSearch.EffectiveLimit | src/main/java/com/berryselect/backend/merchant/service/MerchantService.java:30 | the limit is always positive: the request's when positive, 20 otherwise |
| MerchantSearch.Matching | src/main/java/com/berryselect/backend/merchant/repository/MerchantRepository.java:17-28 | the query's matches, never more than the table's rows |
| MerchantSearch.FindMerchants | src/main/java/com/berryselect/backend/merchant/repository/MerchantRepository.java:17-34 | a page request of size n yields the first n matches in id order, or all of them when fewer |
| MerchantSearch.MatchingSound | src/main/java/com/berryselect/backend/merchant/repository/MerchantRepository.java:22-26 | every match is a row of the table that passes the keyword, category and cursor conditions |
| MerchantSearch.MatchingComplete | src/main/java/com/berryselect/backend/merchant/repository/MerchantRepository.java:22-26 | every row of the table that passes the conditions is a match |
| MerchantSearch.MatchingOrdered | src/main/java/com/berryselect/backend/merchant/repository/MerchantRepository.java:27 | the matches keep the table's ascending id order |
| MerchantSearch.Info | src/main/java/com/berryselect/backend/merchant/service/MerchantService.java:43-67 | a row keeps the merchant's id and name; a distance and its text are present exactly when both the user and the merchant have coordinates |
| MerchantSearch.Infos | src/main/java/com/berryselect/backend/merchant/service/MerchantService.java:43-68 | one answer row per fetched merchant, in order |
| MerchantSearch.OrdersArePreorders | src/main/java/com/berryselect/backend/merchant/service/MerchantService.java:73-83 | the id, name (nulls last, case ignored) and distance (nulls last) orders are total and transitive, as a list sort needs |
| MerchantSearch.OrderOf | src/main/java/com/berryselect/backend/merchant/service/MerchantService.java:70-84 | the distance order exactly for "distance" in any case with the user's position; the id order exactly when the parameter, "id" by default, is neither "distance" nor "name"; otherwise the name order |
| MerchantSearch.WithinRadius | src/main/java/com/berryselect/backend/merchant/service/MerchantService.java:86-91 | exactly the rows with a known distance within the radius are kept |
| MerchantSearch.PageSize | src/main/java/com/berryselect/backend/merchant/service/MerchantService.java:29-32 | the page size is limit+1 in `int` arithmetic; `PageRequest.of` refuses it, and the service throws, exactly when the limit is 2147483647, where the sum wraps below one |
| MerchantSearch.Fetch | src/main/java/com/berryselect/backend/merchant/service/MerchantService.java:32-39 | for a request that got a page size, limit+1 rows are asked for; more follow exactly when more than limit rows match; the page keeps the first limit matches, or all when fewer |
| MerchantSearch.LastIdOf | src/main/java/com/berryselect/backend/merchant/service/MerchantService.java:93 | null exactly for an empty answer; otherwise the id of the last merchant answered |
| MerchantSearch.SearchAsWritten | src/main/java/com/berryselect/backend/merchant/service/MerchantService.java:23-100 | the service throws exactly when the page size is refused; otherwise the page is the fetched rows sorted and filtered, hasMore is decided before the filter, and the cursor is the last answered merchant's id |
| MerchantSearch.NextCursor | src/main/java/com/berryselect/backend/merchant/service/MerchantService.java:93 | the corrected cursor: null exactly for an empty page, otherwise the id of the last row fetched for the page, the largest one |
| MerchantSearch.Search | src/main/java/com/berryselect/backend/merchant/service/MerchantService.java:23-100 | the corrected search: the service throws exactly when the page size is refused; otherwise the same page and hasMore, with the cursor taken from the last fetched row |
| MerchantSearch.LargestLimitRefused | src/main/java/com/berryselect/backend/merchant/service/MerchantService.java:29-32 | a limit of 2147483647 makes both searches throw the page-size refusal; any other request gets a page of at most its effective limit |
| MerchantSearch.ShownShape | src/main/java/com/berryselect/backend/merchant/service/MerchantService.java:43-91 | the answer holds only fetched merchants and never more; without a radius it is a permutation of them sorted as asked; with a radius and a known position every answered merchant lies within it |
| MerchantSearch.PageShape | src/main/java/com/berryselect/backend/merchant/service/MerchantService.java:32-91 | every merchant answered matches the query, and at most limit are answered |
| MerchantSearch.KeptMatch | src/main/java/com/berryselect/backend/merchant/service/MerchantService.java:34-39 | every fetched row is a row of the table that matches the query |
| MerchantSearch.PagesTile | src/main/java/com/berryselect/backend/merchant/service/MerchantService.java:29-39 | with the corrected cursor, this page's rows followed by the next page's candidates are exactly all the matches: nothing repeats and nothing is skipped |
| MerchantSearch.LastKept | src/main/java/com/berryselect/backend/merchant/service/MerchantService.java:34-39 | the last row fetched lies above the request's cursor and is itself a usable cursor |
| MerchantSearch.MatchingAbove | src/main/java/com/berryselect/backend/merchant/repository/MerchantRepository.java:26-27 | moving the cursor up keeps exactly the matches above it |
| MerchantSearch.TileAt | src/main/java/com/berryselect/backend/merchant/repository/MerchantRepository.java:27 | in id order, a prefix followed by the rows above its last id is the whole list |
| MerchantSearch.MatchingUnfiltered | src/main/java/com/berryselect/backend/merchant/repository/MerchantRepository.java:22-26 | with no keyword and no category the matches are the rows above the cursor |
| MerchantSearch.SampleFirstPage | src/main/java/com/berryselect/backend/merchant/service/MerchantService.java:32-39 | on rows 1 "b", 2 "a", 3 "c" with a limit of 2 the first page fetches rows 1 and 2 and reports more |
| MerchantSearch.SampleShown | src/main/java/com/berryselect/backend/merchant/service/MerchantService.java:79-81 | sorted by name, that page answers merchant 2 before merchant 1 |
| MerchantSearch.NameOrderCursorRepeats | src/main/java/com/berryselect/backend/merchant/service/MerchantService.java:79-93 | as written, the name-sorted page answers 2 then 1 with the cursor 1, so the next page fetches merchant 2 again; the corrected cursor 2 makes the next page start at 3 |
| Common.Wrap32 | src/main/java/com/berryselect/backend/benefits/service/BenefitCalculationService.java:91-92 | int arithmetic wraps into the 32-bit range and leaves in-range values alone |
| Common.SaturateToInt32 | src/main/java/com/berryselect/backend/benefits/service/BenefitCalculationService.java:87 | the (int) cast of an integral double lands in the 32-bit range, in-range values unchanged, too large ones at the maximum and too small ones at the minimum |
| Common.JavaDiv | src/main/java/com/berryselect/backend/benefits/service/BenefitCalculationService.java:91 | integer division truncates toward zero, also for a negative dividend, and never overshoots |
| Common.Trim | src/main/java/com/berryselect/backend/merchant/service/MerchantService.java:104 | trim removes a leading and a trailing run of characters up to U+0020 and nothing in between; what is left starts and ends above U+0020 |
| Common.Upper | src/main/java/com/berryselect/backend/wallet/service/BenefitAggregationService.java:126 | upper-casing keeps the length and folds each ASCII letter |
| Common.Lower | src/main/java/com/berryselect/backend/merchant/repository/MerchantRepository.java:23-24 | lower-casing keeps the length and folds each ASCII letter |
| Common.StringLeTotal | src/main/java/com/berryselect/backend/wallet/service/BenefitAggregationService.java:91 | any two titles compare one way or the other |
| Common.StringLeTransitive | src/main/java/com/berryselect/backend/wallet/service/BenefitAggregationService.java:91 | title comparison is transitive |
| Common.FirstSeenMembers | src/main/java/com/berryselect/backend/wallet/service/WalletService.java:83 | the insertion-ordered set holds every preferred category and nothing else |
| Common.FirstSeenOrdered | src/main/java/com/berryselect/backend/wallet/service/WalletService.java:83 | the set lists categories in the order of their first occurrence |
| Common.FirstSeenDistinct | src/main/java/com/berryselect/backend/wallet/service/WalletService.java:83 | the set lists no category twice |
| Common.JavaSplit | src/main/java/com/berryselect/backend/wallet/service/WalletService.java:185 | without the separator the text is its only piece |
| Common.JavaSplitNoSeparator | src/main/java/com/berryselect/backend/wallet/service/WalletService.java:185 | no piece of a split holds the separator |
| Common.PiecesJoin | src/main/java/com/berryselect/backend/wallet/service/WalletService.java:185 | the pieces, trailing empty ones included, glue back with the separator into the original text |
| Common.IntToString | src/main/java/com/berryselect/backend/auth/service/UserProfileService.java:104 | a non-negative value prints as its digits without a leading zero, a negative one with a minus first |
| Common.ParseInt | src/main/java/com/berryselect/backend/auth/controller/RegistrationController.java:95 | parsing yields only 32-bit values, and a run of digits within range parses to its value |
| Common.ParseIntToString | src/main/java/com/berryselect/backend/auth/controller/RegistrationController.java:95 | every 32-bit value printed and parsed back is itself |
| Common.FormatGroupedUngroups | src/main/java/com/berryselect/backend/transaction/mapper/TransactionMapper.java:80 | the "%,d" text with its separators removed is the plain decimal text of the value |
| Common.RoundHalfUp | src/main/java/com/berryselect/backend/budget/service/ReportService.java:245 | the rounded quotient lies within half a step of the exact one |
| Common.SetScaleOneHalfUp | src/main/java/com/berryselect/backend/wallet/service/BenefitAggregationService.java:132 | setScale(1, HALF_UP) gives scale 1, a value within half a step of the exact one, and keeps the sign |
| Common.Abbrev | src/main/java/com/berryselect/backend/benefits/service/BenefitCalculationService.java:114 | the day name's first three letters |
| Common.FormatYearMonth | src/main/java/com/berryselect/backend/benefits/service/BenefitCalculationService.java:162 | "yyyy-MM": seven characters, a dash at index 4, the year's digits before it and the month's after |
| Common.FormatYearMonthInjective | src/main/java/com/berryselect/backend/benefits/service/BenefitCalculationService.java:159-166 | two months share a monthly period key exactly when they are the same month |
| Common.ParseYearMonth | src/main/java/com/berryselect/backend/budget/service/BudgetService.java:35 | a parsed month is a valid month of seven characters of text |
| Common.ParseFormatYearMonth | src/main/java/com/berryselect/backend/budget/service/BudgetService.java:26-35 | every valid month parses back from its own "yyyy-MM" text |
| Common.FormatDate | src/main/java/com/berryselect/backend/benefits/service/BenefitCalculationService.java:163-164 | "yyyy-MM-dd": ten characters, the month key first and the day's digits last |
| Common.FormatDateInjective | src/main/java/com/berryselect/backend/benefits/service/BenefitCalculationService.java:163-164 | two days share a daily period key exactly when they are the same day |
| Sorting.Sort | src/main/java/com/berryselect/backend/wallet/service/BenefitAggregationService.java:91 | the sort keeps the length and the elements, with their multiplicities |
| Sorting.SortSorted | src/main/java/com/berryselect/backend/wallet/service/BenefitAggregationService.java:91 | under a total preorder the sorted list is ordered |
| Sorting.SortStable | src/main/java/com/berryselect/backend/wallet/service/BenefitAggregationService.java:91 | the sort is stable: the elements equal under the comparator keep their relative order |
| Sorting.StableSortUnique | src/main/java/com/berryselect/backend/wallet/service/BenefitAggregationService.java:91 | two ordered permutations that keep every class of equal elements in the same order are equal, so the stable sort is fully determined |
| Sorting.Insert | src/main/java/com/berryselect/backend/wallet/service/BenefitAggregationService.java:91 | inserting adds the element once and keeps the others |
| Sorting.InsertSorted | src/main/java/com/berryselect/backend/wallet/service/BenefitAggregationService.java:91 | inserting into an ordered list keeps it ordered |
| BenefitCalculation.SavingsOf | src/main/java/com/berryselect/backend/benefits/service/BenefitCalculationService.java:40-56 | at most one saving per rule of the asset |

## Left out

- External I/O is not modelled: the Kakao OAuth client, the Kakao message adapter, the settings HTTP client and the OpenAI client. Their answers are parameters: a profile, a result code or an exception message, a settings response that may be null, and a summary or a failure.
- JWT signing and parsing, password encoding and the security filter chain are not modelled. Tokens are opaque strings, and the subject a JWT carries is a parameter. The exceptions `getSubject` can throw on a malformed token are represented only by an absent subject.
- Every `Instant.now()`, `LocalDate.now()` and `LocalDateTime.now()` inside one request is one `now` parameter. The KST/UTC window arithmetic (`getStartEndUtc`) is not modelled.
- `@PrePersist`/`@PreUpdate` timestamps are set to the same `now` the operation is given. `updatedAt` is not tracked separately where the source relies on the JPA callback alone.
- Concurrency is not modelled: the `ConcurrentHashMap` of the onboarding store and the pessimistic lock taken for redemption. Everything runs sequentially. The Kakao send (`sendKakaoNotificationAsync`) is synchronous despite its name and runs inside the caller's transaction, as modelled.
- Identity columns are counters, and `getReferenceById` is treated as a foreign-key check when the row is inserted. Lazy loading is not modelled.
- The JPQL keyword match `LIKE '%kw%'` treats `%` and `_` inside the keyword as ordinary characters. `LOWER(m.brand)` is taken as the brand's name. Case folding is ASCII only, here and for `equalsIgnoreCase`, `toUpperCase`, `toLowerCase` and `compareToIgnoreCase`.
- Floating point is not modelled. The haversine distance and its text form are parameters, and `double` comparisons and the radius cut use `real` arithmetic.
- MerchantSearch.PagesTile assumes the merchants table is in ascending id order with positive ids, as the query's `ORDER BY m.id` and the identity column give.
- `NotificationService.getUnreadCount` and `getUserNotifications` are not modelled. The repository query behind the first has no `FROM` clause, and the repository's `Pageable` import is `java.awt.print.Pageable`, so neither can run as written.
- `isKakaoNotificationEnabled` always answers true, so every notification is sent to the adapter. The branch for a disabled user is unreachable and not modelled.
- NotificationService.NotificationStore.RetryFailedNotifications: the `retries` counter is unbounded. The 32-bit overflow of `Integer retries` after two billion failures is not modelled.
- `AuthService.login` calls the four-argument `OnboardingTokenStore.put` with three arguments (AuthService.java line 56). It is modelled as that `put` with no refresh token.
- `RegistrationController.register` assigns the `Tokens` record returned by `consume` to a `String` (line 81). It is modelled as consuming the entry and using its access token, with the Kakao profile as a parameter. The in-memory consumption is not rolled back when a later step fails.
- `ReportService` calls the seven-argument `createCategorySpendingResponse` with six arguments (lines 143-145). It is modelled as leaving the chart colour at its default.
- Report.MonthlyReportDetail: `calculateSavedFromRecommendations` (`double` rate times total, then `Math.round`) is a parameter, not computed.
- `TransactionService.getRecommendationUsageRate` and `getTotalSavedAmount` are repository aggregates in SQL and are not modelled. `getUserTransactions` is modelled per transaction: its name fallbacks and its saved-amount sum. The filtered page query is not modelled.
- `TransactionService.createTransaction` reads `req.getCategoryId()`, which `TransactionRequest` does not declare. `categoryId` is an optional input.
- The saving and spending ratios of the report (`double` division times 100) are passed through the mapper as reals and not computed.
- Recommendation.RecommendationStore.GetSessionDetail: the answer lists the session's options in rank order. The source reloads them through an `@OneToMany` without `@OrderBy`, so their order is whatever the database returns; only the set of options is promised there.
- Recommendation.RecommendationStore.ChooseOption: the answer lists the session's options in rank order, where the source gives the database's order, as for `GetSessionDetail`.
- SettingsService.UpdateSettings: when categories are given by name, the saved preferences follow catalogue order. `findIdsByNames` is an `IN` query without `ORDER BY`, so the source fixes no order for those rows, and the names `getSettings` then lists may come in another order. SettingsService.SavedNames states that branch only as a set.
- Accounts.IdsByNames: the ids come in catalogue order, where the source's `IN` query promises no order.
- Common.ParseInt: accepts ASCII digits only. `Integer.parseInt` also accepts every other Unicode decimal digit (`Character.digit`), so ReportController.GetMonthlyReport and Registration.BirthOf treat such input as not a number. String lengths count Unicode scalar values, where Java counts UTF-16 units.
- Common.ParseYearMonth: accepts only the seven-character `yyyy-MM`. ISO `YearMonth.parse` also accepts signed and five-digit years such as "+10000-01" and "-0001-01"; those are refused here.
- NotificationService.NotificationStore.CreateAndSendNotification: saves the row the corrected builder makes, starting PENDING. As written, the builder leaves the status null and the NOT NULL column refuses the insert, which is recorded under Findings.
- Common.StringLeTotal: strings are ordered by Unicode scalar value, where `String.compareTo` orders UTF-16 code units. The two differ only when a character above U+FFFF meets one in U+E000 to U+FFFF. This affects the title sort of the card-benefit screen.
- Common.FormatGroupedUngroups: the `%,d` grouping separator is ',', where Java uses the default locale's separator. This affects the amounts of the transaction mapper, the settlement responses and the card-benefit titles.
- `MerchantController.searchMerchants` is not part of this model. It catches every exception from the search, including the page-size refusal, and answers HTTP 200 with `success=false` and a fixed message.
- Entities and DTOs without behaviour appear only as datatypes. Cards, memberships and gifticons are created, listed and deleted by repository calls without logic, and those calls are not modelled.

## Findings

| source | as written | input that shows it | evidently intended | confidence | as-written member | corrected member |
|---|---|---|---|---|---|---|
| src/main/java/com/berryselect/backend/wallet/service/WalletService.java:181-189 | the sort parameter is split on "," and its first piece is taken as the property without a check | `sort=","` splits to no pieces, so `p[0]` throws (500); `" ,desc"` gives a blank property, which `Sort.Order` refuses | an unusable sort falls back to the property `expiresAt`, keeping the direction the parameter names (ascending when it names none) | not executed | Wallet.ParseSortComma | Wallet.ParseSortOrDefault |
| src/main/java/com/berryselect/backend/budget/controller/BudgetReportController.java:104-123 | `isValidYearMonth` checks the length, splits on "-" and range-checks both numbers | `"2024-1-"` has length 7, `split("-")` drops the trailing empty piece, year 2024 and month 1 pass, then `YearMonth.parse` throws (500 instead of 400) | only a strict `yyyy-MM` passes the guard | not executed | ReportController.TrailingDashSlipsThrough | ReportController.GetMonthlyReportCorrected |
| src/main/java/com/berryselect/backend/notification/domain/Notification.java:41-47 | `status = PENDING` is an initializer without `@Builder.Default` | a notification built without a status has a null status, which the NOT NULL column refuses | every new notification starts PENDING | not executed | Notifications.BuilderDropsPendingDefault | Notifications.Built |
| src/main/java/com/berryselect/backend/merchant/service/MerchantService.java:93 | the next cursor is the id of the last merchant after the name or distance sort and the radius filter | merchants 1 "b", 2 "a", 3 "c", limit 2, sort by name: the cursor is 1 and the next page shows merchant 2 again; with a radius the page can be empty with `hasMore` true and a null cursor | the cursor is the largest id fetched, so pages tile the table | not executed | MerchantSearch.NameOrderCursorRepeats | MerchantSearch.PagesTile |
