# Tax filing service core, in Dafny

This project models the core of a tax-filing back end. Users keep tax filings:
income items, deductions and credit claims for one tax year and jurisdiction.
Administrators keep versioned tax rules: progressive brackets, credit rules and
deduction caps. The services do the following:

- **Filings.** Create, amend, edit, delete and move filings between DRAFT and
  READY. All of this is in `TaxFilingService`.
- **Rule versions.** Create rule versions, edit them while they are DRAFT, and
  activate or deprecate them, with at most one ACTIVE version per
  jurisdiction and year. All of this is in `TaxRuleService`.
- **Calculation.** Compute the tax on a filing under the active rule version
  (`CalculationService`):
  1. total income;
  2. capped deductions;
  3. taxable income, clamped at zero;
  4. progressive tax over the brackets in `bracketOrder`;
  5. credits, where non-refundable credits are limited by the gross tax;
  6. tax withheld;
  7. net tax owing.

  Each calculation is saved as a calculation run, together with an input snapshot.
- **Submission.** Submit a filing (`SubmissionService`): reuse the latest run,
  or calculate one; check that the filing is complete; issue a confirmation
  number `CODE-yyyyMMdd-YEAR-SUFFIX`; record the submission; mark the filing
  SUBMITTED.

How the model is built:

- **Amounts.** Money is an integer number of cents. Rates are integers in
  ten-thousandths, so 20.5% is 2050. `BigDecimal`'s `HALF_UP` rounding is
  written out as `Money.RoundHalfUpDiv`.
- **Objects and values.** The entities the services change in place are
  classes with `modifies` frames: `Filings.TaxFiling`,
  `TaxRules.TaxRuleVersion` and one class per repository table. Items,
  brackets, rules, runs and submission records are datatypes.
- **Loops.** The loops of the calculation are methods. Each is proved equal
  to a specification function (`Walk`, `DeductionTotal`, `CreditEntries`,
  `TotalCredits`), and the properties of the calculation are lemmas about
  those functions.
- **Errors.** Every `ApiException` is a `Failure` carrying its code
  (`Errors.ErrorCode`). Each service states which check comes first.
- **Failures change nothing.** On failure, nothing changes. This is the
  transactional rollback.
- **Confirmation number.** `SubmitFiling` computes the confirmation number
  as soon as the filing is found, and hands it to the steps that write the
  record. The number depends only on the filing, the date and the UUID, so
  computing it before the run is fetched cannot be observed.

Source paths below are relative to the repository root.

## Model

| member | source | states |
|---|---|---|
| TaxCalculation.TotalIncomeIgnoresOrder | src/main/java/com/taxfiling/service/CalculationService.java:151-164 | Step 1: `TotalIncome` is the sum of the item amounts, and any reordering of the items gives the same total. |
| TaxCalculation.FindDeductionRule | src/main/java/com/taxfiling/service/CalculationService.java:173-175 | Finds the first deduction rule whose type equals the item type's name, ignoring case. There is no result exactly when no rule matches. |
| TaxCalculation.AllowedDeduction | src/main/java/com/taxfiling/service/CalculationService.java:170-186 | An item contributes its amount. When the matching rule has a maximum, it contributes the smaller of the amount and that maximum. |
| TaxCalculation.CalculateTotalDeductions | src/main/java/com/taxfiling/service/CalculationService.java:166-198 | The loop's total is the item-by-item deduction total. |
| TaxCalculation.DeductionTotalIsSum | src/main/java/com/taxfiling/service/CalculationService.java:166-198 | The deduction total is the sum of the allowed amounts of the items. |
| TaxCalculation.DeductionTotalIgnoresOrder | src/main/java/com/taxfiling/service/CalculationService.java:166-198 | Reordering the deduction items does not change their total. |
| TaxCalculation.DeductionTotalAtMostClaimed | src/main/java/com/taxfiling/service/CalculationService.java:179-181 | Caps only lower the claimed total. With no rules, the total equals the claimed sum. |
| TaxCalculation.TaxableIncome | src/main/java/com/taxfiling/service/CalculationService.java:65-68 | Step 3: taxable income is never negative. It is income less deductions, or zero when the deductions are larger. |
| Money.RoundHalfUpDivBounds | src/main/java/com/taxfiling/service/CalculationService.java:235 | `HALF_UP` rounding: the result is within half a unit of the exact quotient, and halves round away from zero. |
| TaxCalculation.BracketTaxFormula | src/main/java/com/taxfiling/service/CalculationService.java:235 | `income × rate`, rounded `HALF_UP` to cents, is `(cents·rate + 5000) div 10000` for non-negative operands. |
| TaxCalculation.CalculateProgressiveTax | src/main/java/com/taxfiling/service/CalculationService.java:200-258 | Step 4: the gross tax and the breakdown are those of the bracket walk over the brackets sorted by `bracketOrder`. |
| TaxCalculation.WalkBrackets | src/main/java/com/taxfiling/service/CalculationService.java:212-253 | The bracket loop, with its early `break`, computes the gross tax and breakdown of `Walk`. |
| TaxCalculation.WalkTotals | src/main/java/com/taxfiling/service/CalculationService.java:235-237 | The gross tax is the sum of the per-bracket taxes. The income left over is the taxable income less what the breakdown placed. |
| TaxCalculation.WalkRemainingNonNegative | src/main/java/com/taxfiling/service/CalculationService.java:223-237 | Starting from a non-negative income, the income left is never negative. |
| TaxCalculation.WalkStops | src/main/java/com/taxfiling/service/CalculationService.java:212-215 | The breakdown never has more entries than there are brackets. The loop ends early only when no income is left to tax. |
| TaxCalculation.WalkEntries | src/main/java/com/taxfiling/service/CalculationService.java:217-252 | Breakdown entry `k` is bracket `k` applied to the income left after the first `k` entries, and that income was positive. |
| TaxCalculation.WalkPlacesAllIncome | src/main/java/com/taxfiling/service/CalculationService.java:223-226 | With an unbounded top bracket, all taxable income is placed: the breakdown's taxable amounts add up to the taxable income. |
| TaxCalculation.WalkEntriesPositive | src/main/java/com/taxfiling/service/CalculationService.java:213-236 | Over well-formed brackets, every entry taxes a positive amount and a non-negative tax. The gross tax is non-negative. The breakdown is empty only when there is nothing to tax. |
| TaxCalculation.BreakdownInBracketOrder | src/main/java/com/taxfiling/service/CalculationService.java:208-210 | The breakdown lists brackets in ascending `bracketOrder`. |
| TaxCalculation.ProgressiveTaxIgnoresStorageOrder | src/main/java/com/taxfiling/service/CalculationService.java:208-210 | Bracket orders are unique (the `uk_brackets_rule_version_order` key). So the tax and the breakdown do not depend on the order in which the brackets are stored. |
| Sorting.SortBy | src/main/java/com/taxfiling/service/CalculationService.java:208-210 | Sorting by a key gives a sorted permutation of its input. |
| Sorting.SortByIgnoresInputOrder | src/main/java/com/taxfiling/service/CalculationService.java:208-210 | With unique keys, sorting any reordering of the input gives the same sequence. |
| Sorting.SortByStable | src/main/java/com/taxfiling/service/CalculationService.java:208-210 | The sort is stable: the elements of one key come out in their input order. |
| Sorting.InsertByStable | src/main/java/com/taxfiling/service/CalculationService.java:208-210 | Inserting an element puts it in front of the elements of its key and keeps their order. |
| TaxCalculation.FindCreditRule | src/main/java/com/taxfiling/service/CalculationService.java:268-270 | Finds the first credit rule whose type equals the claim's type, ignoring case. There is no result exactly when none matches. |
| Text.EqualsIgnoreCaseFacts | src/main/java/com/taxfiling/service/CalculationService.java:174 | `EqualsIgnoreCase` is reflexive and symmetric, holds only between strings of one length, and folds only letters. |
| TaxCalculation.AllowCredit | src/main/java/com/taxfiling/service/CalculationService.java:272-286 | Without a rule, a claim is allowed in full as non-refundable. With a rule, refundability is the rule's flag (null means false) and its maximum caps the allowed amount. The reason is "capped" exactly when the cap applied. |
| TaxCalculation.CreditEntriesPointwise | src/main/java/com/taxfiling/service/CalculationService.java:267-305 | Credit breakdown entry `k` is the decision on claim `k`. |
| TaxCalculation.TotalCredits | src/main/java/com/taxfiling/service/CalculationService.java:307-314 | Usable credits are the non-refundable pool limited by the gross tax, plus every refundable credit. |
| TaxCalculation.CalculateCredits | src/main/java/com/taxfiling/service/CalculationService.java:260-319 | Step 5: the loop produces the credit breakdown and the total of usable credits. |
| TaxCalculation.NonRefundableCreditsCannotRefund | src/main/java/com/taxfiling/service/CalculationService.java:307-308 | Non-refundable credits alone never take the tax below zero. When they fit under the gross tax, they count in full. |
| TaxCalculation.CreditPoolsPartition | src/main/java/com/taxfiling/service/CalculationService.java:288-292 | The refundable and non-refundable pools add up to the allowed amounts. |
| TaxCalculation.TotalCreditsAtMostClaimed | src/main/java/com/taxfiling/service/CalculationService.java:260-319 | The credits applied never exceed the amounts claimed. |
| TaxCalculation.TaxWithheldFacts | src/main/java/com/taxfiling/service/CalculationService.java:321-329 | Step 6: `TaxWithheld`, with a null value counting as zero, does not depend on item order. It is non-negative when every item's withholding is. |
| TaxCalculation.Assess | src/main/java/com/taxfiling/service/CalculationService.java:58-85 | Step 7: net tax owing is gross tax less credits less withholding. Taxable income is non-negative. There is one credit entry per claim. |
| TaxCalculation.CalculateTotals | src/main/java/com/taxfiling/service/CalculationService.java:58-85 | Steps 1 to 7, as calls of the loop methods, compute `Assess`. |
| TaxCalculation.AssessIgnoresItemOrder | src/main/java/com/taxfiling/service/CalculationService.java:58-85 | Reordering a filing's items changes none of the totals. |
| CalculationService.SnapshotOf | src/main/java/com/taxfiling/service/CalculationService.java:331-353 | The input snapshot has the filing's id, year and jurisdiction, and entry `k` of each list is the snapshot of item `k` (a missing withholding is recorded as zero; see Findings). |
| CalculationService.SnapshotAgreesWithTotals | src/main/java/com/taxfiling/service/CalculationService.java:331-353 | The snapshot's amounts add up to the run's total income, and its withholdings to the run's tax withheld. |
| CalculationService.IncomeSnapshotsAsWritten | src/main/java/com/taxfiling/service/CalculationService.java:336-341 | As written, the income snapshot fails with INTERNAL_ERROR exactly when some item has no withholding. |
| CalculationService.MissingWithholdingAbortsCalculation | src/main/java/com/taxfiling/service/CalculationService.java:340 | An item whose withholding is absent makes the snapshot as written fail, although step 6 counts that withholding as zero. |
| CalculationService.RunFor | src/main/java/com/taxfiling/service/CalculationService.java:93-107 | The saved run references the filing and the rule version. It holds the non-negative taxable income, the net `gross − credits − withheld`, one credit entry per claim, and the input snapshot. |
| CalculationService.BuildRun | src/main/java/com/taxfiling/service/CalculationService.java:58-107 | Steps 1 to 7 and the run builder produce `RunFor`. |
| CalculationService.CalculationOutcome | src/main/java/com/taxfiling/service/CalculationService.java:37-52 | The checks, in order: FILING_NOT_FOUND, then ACCESS_DENIED, then NO_ACTIVE_RULES. Otherwise the result is the run under the active version (with the corrected snapshot; see Left out). |
| CalculationService.CalculateTax | src/main/java/com/taxfiling/service/CalculationService.java:37-119 | On success, the run is appended at the head of the filing's history, becomes its latest, and is what the response shows. On failure, nothing is saved. |
| CalculationService.EffectiveRate | src/main/java/com/taxfiling/service/CalculationService.java:379-385 | The effective rate is `gross × 10000 / income` rounded half-up, in hundredths of a percent, or zero without a positive income. It is at most 100% when the tax does not exceed the income. |
| CalculationService.MarginalRateIsHighestBracketReached | src/main/java/com/taxfiling/service/CalculationService.java:387-395 | For a positive income and well-formed brackets, `MarginalRate` is the rate of the highest bracket (in `bracketOrder`) that the income reaches. |
| CalculationService.SortingKeepsBracketsProper | src/main/java/com/taxfiling/service/CalculationService.java:208-210 | Sorting keeps the number of brackets and keeps each one well-formed. |
| CalculationService.ToCalculationResponse | src/main/java/com/taxfiling/service/CalculationService.java:377-475 | The response carries every figure of the run (ids, version, the seven totals) and both breakdowns. `isRefund` holds exactly when the net is negative; the amount is non-negative, and sign and amount give back the net. It includes the effective and marginal rates. |
| CalculationService.GetLatestCalculation | src/main/java/com/taxfiling/service/CalculationService.java:122-136 | The owned-filing errors come first, then NO_CALCULATION when there is no run. Otherwise the result is the latest run's response. |
| CalculationService.GetCalculationHistory | src/main/java/com/taxfiling/service/CalculationService.java:139-149 | The owned-filing errors, or else entry `k` is the response for run `k` of the filing's history (newest first, see `FindHistory`). |
| CalculationService.LatestIsHeadOfHistory | src/main/java/com/taxfiling/service/CalculationService.java:122-149 | A latest calculation exists exactly when the history is not empty, and it is the first entry of the history. |
| CalculationRuns.CalculationRun.AbsoluteAmount | src/main/java/com/taxfiling/model/CalculationRun.java:90-99 | The absolute amount is non-negative. Together with `IsRefund` (a strictly negative net, not zero), it gives back the signed net. |
| Collections.MapSeq | src/main/java/com/taxfiling/service/CalculationService.java:146-148 | `stream().map(f).toList()` has the same length and maps element by element. |
| Repositories.LatestHeadsHistory | src/main/java/com/taxfiling/repository/CalculationRunRepository.java:21-31 | The latest run of a filing is the head of its history, newest first. |
| Repositories.CalculationRunRepository.FindLatest | src/main/java/com/taxfiling/repository/CalculationRunRepository.java:31 | The latest run is one of the filing's runs. There is none exactly when the filing has no run. |
| Repositories.CalculationRunRepository.FindHistory | src/main/java/com/taxfiling/repository/CalculationRunRepository.java:21 | The history holds only runs of the filing, and each of its runs exactly as often as the table does. |
| Repositories.RunHistoryAppend | src/main/java/com/taxfiling/repository/CalculationRunRepository.java:21 | Newest first: appending a run of the filing puts it at the head of the history; a run of another filing leaves it as it was. |
| Repositories.RunHistoryCount | src/main/java/com/taxfiling/repository/CalculationRunRepository.java:21 | Each run of the filing occurs in the history as often as in the table, and no other run occurs. |
| Repositories.CalculationRunRepository.Add | src/main/java/com/taxfiling/service/CalculationService.java:109 | `save` appends a run with a fresh id, keeps ids unique, makes it the filing's latest, and puts it at the head of that filing's history; other histories are unchanged. |
| Repositories.CalculationRunRepository.RollBackTo | src/main/java/com/taxfiling/service/SubmissionService.java:59-60 | A rolled-back transaction discards the runs it saved. |
| Repositories.CalculationRunRepository.RemoveForFiling | src/main/java/com/taxfiling/model/TaxFiling.java:69-72 | The cascade removes exactly the filing's runs and keeps the others, in order. |
| Filings.TaxFiling.constructor | src/main/java/com/taxfiling/model/TaxFiling.java:44-67 | The builder: the filing type defaults to ORIGINAL, and the three item lists start empty. |
| Filings.TaxFiling.AddIncomeItem | src/main/java/com/taxfiling/model/TaxFiling.java:77-80 | Appends the item. |
| Filings.TaxFiling.RemoveIncomeItem | src/main/java/com/taxfiling/model/TaxFiling.java:82-85 | `List.remove(Object)`: drops the first equal item. |
| Filings.TaxFiling.AddDeductionItem | src/main/java/com/taxfiling/model/TaxFiling.java:87-90 | Appends the item. |
| Filings.TaxFiling.RemoveDeductionItem | src/main/java/com/taxfiling/model/TaxFiling.java:92-95 | Drops the first equal item. |
| Filings.TaxFiling.AddCreditClaim | src/main/java/com/taxfiling/model/TaxFiling.java:97-100 | Appends the claim. |
| Filings.TaxFiling.RemoveCreditClaim | src/main/java/com/taxfiling/model/TaxFiling.java:102-105 | Drops the first equal claim. |
| Filings.TaxFiling.IsEditable | src/main/java/com/taxfiling/model/TaxFiling.java:107-113 | A filing can be edited exactly when `IsSubmitted` (status SUBMITTED) is false. |
| Collections.RemoveFirstMultiset | src/main/java/com/taxfiling/model/TaxFiling.java:82-85 | `remove` takes out exactly one occurrence, when there is one, and nothing else. |
| TaxRules.TaxRuleVersion.constructor | src/main/java/com/taxfiling/model/TaxRuleVersion.java:39-67 | The builder: the version defaults to 1, and the rule lists start empty. |
| TaxRules.TaxRuleVersion.AddBracket | src/main/java/com/taxfiling/model/TaxRuleVersion.java:69-72 | Appends the bracket. |
| TaxRules.TaxRuleVersion.AddCreditRule | src/main/java/com/taxfiling/model/TaxRuleVersion.java:74-77 | Appends the credit rule. |
| TaxRules.TaxRuleVersion.AddDeductionRule | src/main/java/com/taxfiling/model/TaxRuleVersion.java:79-82 | Appends the deduction rule. |
| FilingMapping.ToIncomeItemEntity | src/main/java/com/taxfiling/mapper/TaxFilingMapper.java:90-98 | The type, source and amount are copied. An absent withholding becomes zero. |
| FilingMapping.ToDeductionItemEntity | src/main/java/com/taxfiling/mapper/TaxFilingMapper.java:119-126 | Every field is copied. The id is the one assigned. |
| FilingMapping.ToCreditClaimEntity | src/main/java/com/taxfiling/mapper/TaxFilingMapper.java:146-152 | Every field is copied. The id is the one assigned. |
| FilingMapping.IncomeItemRoundTrips | src/main/java/com/taxfiling/mapper/TaxFilingMapper.java:79-98 | `ToIncomeItemDto` then `ToIncomeItemEntity` is the identity, except that an absent withholding comes back as zero; the other way round keeps the DTO, with the assigned id and a settled withholding. |
| FilingMapping.DeductionItemRoundTrips | src/main/java/com/taxfiling/mapper/TaxFilingMapper.java:109-126 | `ToDeductionItemDto` and `ToDeductionItemEntity` undo each other: the entity comes back unchanged, the DTO with the assigned id. |
| FilingMapping.CreditClaimRoundTrips | src/main/java/com/taxfiling/mapper/TaxFilingMapper.java:137-152 | `ToCreditClaimDto` and `ToCreditClaimEntity` undo each other: the entity comes back unchanged, the DTO with the assigned id. |
| FilingMapping.ToIncomeItemDtoList | src/main/java/com/taxfiling/mapper/TaxFilingMapper.java:70-77 | A null list gives an empty list. Otherwise there is one DTO per item, in order. |
| FilingMapping.ToDeductionItemDtoList | src/main/java/com/taxfiling/mapper/TaxFilingMapper.java:100-107 | A null list gives an empty list. Otherwise there is one DTO per item, in order. |
| FilingMapping.ToCreditClaimDtoList | src/main/java/com/taxfiling/mapper/TaxFilingMapper.java:128-135 | A null list gives an empty list. Otherwise there is one DTO per claim, in order. |
| FilingMapping.ToResponse | src/main/java/com/taxfiling/mapper/TaxFilingMapper.java:14-34 | The response has every field of the filing (id, owner, year, jurisdiction, status, type, original), and entry `k` of each list is the DTO of item `k`. |
| FilingMapping.ResponseItemsReadBack | src/main/java/com/taxfiling/mapper/TaxFilingMapper.java:14-34 | Each DTO of the response carries its item's id and converts back to the item (a missing withholding settled as zero). |
| FilingMapping.ToSummaryResponse | src/main/java/com/taxfiling/mapper/TaxFilingMapper.java:36-68 | A null filing gives null. Otherwise the summary has the filing's id, year, jurisdiction, status and type and the item counts. Its totals are the step-1 total income, the deduction total with no rule, and the non-refundable credit pool with no rule, i.e. the uncapped claimed sums. |
| FilingMapping.SummaryBoundsCalculation | src/main/java/com/taxfiling/mapper/TaxFilingMapper.java:41-51 | The summary's (uncapped) totals have the same income as the calculation, and bound the calculated deductions and credits from above. The deductions are equal when no rule caps them. |
| FilingMapping.SummaryIgnoresItemOrder | src/main/java/com/taxfiling/mapper/TaxFilingMapper.java:41-51 | The summary totals do not depend on item order. |
| TaxRuleMapping.ToBracketEntity | src/main/java/com/taxfiling/mapper/TaxRuleMapper.java:55-62 | Every field but the id is copied. |
| TaxRuleMapping.ToCreditRuleEntity | src/main/java/com/taxfiling/mapper/TaxRuleMapper.java:87-98 | Every modelled field is copied (the phase-out and eligibility fields are not modelled). An absent refundable flag becomes false. |
| TaxRuleMapping.ToDeductionRuleEntity | src/main/java/com/taxfiling/mapper/TaxRuleMapper.java:120-128 | Every modelled field but the id is copied (`maxPercentage` and the eligibility rules are not modelled). |
| TaxRuleMapping.RuleEntityRoundTrips | src/main/java/com/taxfiling/mapper/TaxRuleMapper.java:45-62 | Entity to DTO and back is the identity on brackets and deduction rules. |
| TaxRuleMapping.CreditRuleRoundTrip | src/main/java/com/taxfiling/mapper/TaxRuleMapper.java:73-98 | A credit rule comes back with its refundable flag settled. |
| Repositories.TaxFilingRepository.FindById | src/main/java/com/taxfiling/repository/TaxFilingRepository.java:75 | The filing with that id. There is none exactly when no stored filing has the id. |
| Repositories.TaxFilingRepository.FindByUserIdOrderByTaxYearDesc | src/main/java/com/taxfiling/repository/TaxFilingRepository.java:28 | The user's filings, each as often as the table has it, sorted by tax year descending; filings of one year keep their table order. |
| Repositories.FilingsOfUserCounts | src/main/java/com/taxfiling/repository/TaxFilingRepository.java:28 | Narrowing to one user keeps no filing more often than the table has it. |
| Repositories.CoexistingFilingsOccurOnce | src/main/java/com/taxfiling/repository/TaxFilingRepository.java:28 | Under the table's invariant, no filing occurs twice in the table. |
| Repositories.UserQueryIdsDistinct | src/main/java/com/taxfiling/repository/TaxFilingRepository.java:28 | Under the table's invariant, the filings the user query returns have pairwise distinct ids. |
| Repositories.TaxFilingRepository.Add | src/main/java/com/taxfiling/service/TaxFilingService.java:61 | `save` appends the filing and keeps the invariant: unique ids, and one ORIGINAL filing per user, year and jurisdiction. |
| Repositories.TaxFilingRepository.Remove | src/main/java/com/taxfiling/service/TaxFilingService.java:370 | `delete` removes the row with that id and keeps the others, in order. |
| Repositories.MaxVersion | src/main/java/com/taxfiling/repository/TaxRuleVersionRepository.java:50-54 | `MAX(version)` over the versions of a jurisdiction and year, or none when there are none. |
| Repositories.TaxRuleVersionRepository.NextVersionNumber | src/main/java/com/taxfiling/repository/TaxRuleVersionRepository.java:50-54 | `COALESCE(MAX(version), 0) + 1`: above every version of the key, and 1 when there is none. |
| Repositories.TaxRuleVersionRepository.FindActiveRule | src/main/java/com/taxfiling/repository/TaxRuleVersionRepository.java:59-61 | An ACTIVE version of the jurisdiction and year. There is none exactly when the key has none. |
| Repositories.ActiveRuleUnique | src/main/java/com/taxfiling/repository/TaxRuleVersionRepository.java:59-61 | Under the table's invariant, `findActiveRule` returns the one ACTIVE version of the key. |
| Repositories.TaxRuleVersionRepository.Add | src/main/java/com/taxfiling/service/TaxRuleService.java:77 | `save` appends a version that is not ACTIVE, keeping ids and version numbers unique. |
| Repositories.SubmissionRecordRepository.FindByConfirmationNumber | src/main/java/com/taxfiling/repository/SubmissionRecordRepository.java:20 | The record with that confirmation number. There is none exactly when no record has it. |
| Repositories.SubmissionRecordRepository.ForFiling | src/main/java/com/taxfiling/model/TaxFiling.java:74-75 | The filing's one-to-one submission record, if there is one. |
| Repositories.SubmissionRecordRepository.Add | src/main/java/com/taxfiling/service/SubmissionService.java:79 | `save` appends a record with a fresh id, keeping one record per filing. |
| Repositories.SubmissionRecordRepository.RemoveForFiling | src/main/java/com/taxfiling/model/TaxFiling.java:74-75 | The cascade removes exactly the filing's record. |
| Collections.RemoveWhereKey | src/main/java/com/taxfiling/service/TaxRuleService.java:250 | `removeIf` keeps only elements with another key, and all of them when none has the key. It removes something exactly when some element has the key. Order: see `RemoveWhereKeyConcat`. |
| Collections.RemoveWhereKeyKeepsOthers | src/main/java/com/taxfiling/service/TaxRuleService.java:250 | `removeIf` keeps every element of another key, with its multiplicity. |
| Collections.RemoveWhereKeyConcat | src/main/java/com/taxfiling/service/TaxRuleService.java:250 | `removeIf` keeps the order: on a concatenation it is the concatenation of the results, and one element stays exactly when its key differs. |
| TaxRuleService.FindRuleVersionById | src/main/java/com/taxfiling/service/TaxRuleService.java:291-298 | The version, or RULE_VERSION_NOT_FOUND exactly when no version has the id. |
| TaxRuleService.FindDraftRuleVersion | src/main/java/com/taxfiling/service/TaxRuleService.java:300-310 | RULE_VERSION_NOT_FOUND, then RULE_NOT_EDITABLE unless the version is DRAFT. |
| TaxRuleService.GetActiveRuleVersion | src/main/java/com/taxfiling/service/TaxRuleService.java:97-106 | The ACTIVE version of the key, or RULE_NOT_FOUND exactly when there is none. |
| TaxRuleService.ActiveRuleVersionIsTheActiveOne | src/main/java/com/taxfiling/service/TaxRuleService.java:97-106 | Under the invariant, any ACTIVE version is the one the lookup returns for its key. |
| TaxRuleService.BracketEntities | src/main/java/com/taxfiling/service/TaxRuleService.java:54-59 | One bracket per DTO, in request order, with consecutive new ids. |
| TaxRuleService.CreditRuleEntities | src/main/java/com/taxfiling/service/TaxRuleService.java:62-67 | One credit rule per DTO, in request order, with consecutive new ids. |
| TaxRuleService.DeductionRuleEntities | src/main/java/com/taxfiling/service/TaxRuleService.java:70-75 | One deduction rule per DTO, in request order, with consecutive new ids. |
| TaxRuleService.OrEmpty | src/main/java/com/taxfiling/service/TaxRuleService.java:54 | A null list in the request adds nothing. |
| TaxRuleService.AddBrackets | src/main/java/com/taxfiling/service/TaxRuleService.java:54-59 | The `forEach` appends the request's brackets in order. |
| TaxRuleService.AddCreditRules | src/main/java/com/taxfiling/service/TaxRuleService.java:62-67 | The `forEach` appends the request's credit rules in order. |
| TaxRuleService.AddDeductionRules | src/main/java/com/taxfiling/service/TaxRuleService.java:70-75 | The `forEach` appends the request's deduction rules in order. |
| TaxRuleService.BuildRuleVersion | src/main/java/com/taxfiling/service/TaxRuleService.java:42-75 | Builds a DRAFT version with the request's fields and all its rules, in request order. |
| TaxRuleService.CreateTaxRuleVersion | src/main/java/com/taxfiling/service/TaxRuleService.java:36-88 | Saves a new DRAFT version numbered one past the key's highest version, holding the request's rules. The table's invariant is kept. |
| TaxRuleService.CreatedIdsDistinct | src/main/java/com/taxfiling/service/TaxRuleService.java:54-59 | The brackets created from one request get distinct ids, so each can be deleted on its own. |
| TaxRuleService.ActivationKeepsOneActive | src/main/java/com/taxfiling/service/TaxRuleService.java:150-162 | Activation keeps at most one ACTIVE version per key. Afterwards, the activated version is the only ACTIVE one of its key. |
| TaxRuleService.Activate | src/main/java/com/taxfiling/service/TaxRuleService.java:150-163 | Deprecates the key's ACTIVE version, if any, and activates this one. No other status changes. |
| TaxRuleService.DeprecateAndActivate | src/main/java/com/taxfiling/service/TaxRuleService.java:151-162 | With an ACTIVE version of the key present, that version becomes DEPRECATED and this one ACTIVE. |
| TaxRuleService.ActivateAlone | src/main/java/com/taxfiling/service/TaxRuleService.java:161-162 | With no ACTIVE version of the key, this version becomes ACTIVE and nothing else changes. |
| TaxRuleService.UniqueActiveOfKey | src/main/java/com/taxfiling/service/TaxRuleService.java:151-159 | Under the invariant, an ACTIVE version of a key is the only ACTIVE one of that key. |
| TaxRuleService.ActivateRuleVersion | src/main/java/com/taxfiling/service/TaxRuleService.java:130-173 | The checks, in order: RULE_VERSION_NOT_FOUND, INVALID_STATUS, MISSING_BRACKETS. Otherwise the activation step happens. On failure, nothing changes. |
| TaxRuleService.DeprecateRuleVersion | src/main/java/com/taxfiling/service/TaxRuleService.java:176-199 | The checks, in order: RULE_VERSION_NOT_FOUND, ALREADY_DEPRECATED. Otherwise only this version's status changes, to DEPRECATED. |
| TaxRuleService.AddBracket | src/main/java/com/taxfiling/service/TaxRuleService.java:202-214 | Fails with the draft lookup's error. Otherwise the bracket, with a new id, is appended to the DRAFT version. |
| TaxRuleService.AddCreditRule | src/main/java/com/taxfiling/service/TaxRuleService.java:217-229 | Fails with the draft lookup's error. Otherwise the credit rule, with a new id, is appended. |
| TaxRuleService.AddDeductionRule | src/main/java/com/taxfiling/service/TaxRuleService.java:232-244 | Fails with the draft lookup's error. Otherwise the deduction rule, with a new id, is appended. |
| TaxRuleService.DeleteBracket | src/main/java/com/taxfiling/service/TaxRuleService.java:247-259 | `removeIf` by id on a DRAFT version. BRACKET_NOT_FOUND, with nothing changed, when no bracket has the id. |
| TaxRuleService.DeleteCreditRule | src/main/java/com/taxfiling/service/TaxRuleService.java:262-274 | `removeIf` by id. CREDIT_RULE_NOT_FOUND, with nothing changed, when no credit rule has the id. |
| TaxRuleService.DeleteDeductionRule | src/main/java/com/taxfiling/service/TaxRuleService.java:277-289 | `removeIf` by id. DEDUCTION_RULE_NOT_FOUND, with nothing changed, when no deduction rule has the id. |
| TaxFilingService.FindFilingById | src/main/java/com/taxfiling/service/TaxFilingService.java:456-459 | The filing, or FILING_NOT_FOUND exactly when no filing has the id. |
| TaxFilingService.FindOwnedFiling | src/main/java/com/taxfiling/service/TaxFilingService.java:477-485 | FILING_NOT_FOUND, then ACCESS_DENIED. Otherwise the result is the user's filing. |
| TaxFilingService.FindEditableFiling | src/main/java/com/taxfiling/service/TaxFilingService.java:461-475 | The owned-filing errors, then FILING_NOT_EDITABLE once the filing is SUBMITTED. |
| TaxFilingService.GetFiling | src/main/java/com/taxfiling/service/TaxFilingService.java:143-148 | The owned-filing errors, or else exactly the `toResponse` of the stored filing with that id. |
| TaxFilingService.OneOriginalPerYear | src/main/java/com/taxfiling/service/TaxFilingService.java:42-50 | Under the table's invariant, a user has at most one ORIGINAL filing per year and jurisdiction. |
| TaxFilingService.CreateFiling | src/main/java/com/taxfiling/service/TaxFilingService.java:36-71 | USER_NOT_FOUND, then FILING_EXISTS. Otherwise a new empty DRAFT ORIGINAL filing is appended and afterwards exists. On failure, nothing changes. |
| TaxFilingService.IncomeCopies | src/main/java/com/taxfiling/service/TaxFilingService.java:99-108 | A copy of each income item, in order, with new ids. |
| TaxFilingService.DeductionCopies | src/main/java/com/taxfiling/service/TaxFilingService.java:110-118 | A copy of each deduction item, in order, with new ids. |
| TaxFilingService.ClaimCopies | src/main/java/com/taxfiling/service/TaxFilingService.java:120-127 | A copy of each credit claim, in order, with new ids. |
| TaxFilingService.CopyIncomeItems | src/main/java/com/taxfiling/service/TaxFilingService.java:99-108 | The `forEach` appends the copies. |
| TaxFilingService.CopyDeductionItems | src/main/java/com/taxfiling/service/TaxFilingService.java:110-118 | The `forEach` appends the copies. |
| TaxFilingService.CopyCreditClaims | src/main/java/com/taxfiling/service/TaxFilingService.java:120-127 | The `forEach` appends the copies. |
| TaxFilingService.BuildAmendment | src/main/java/com/taxfiling/service/TaxFilingService.java:88-127 | Builds a DRAFT AMENDMENT of the original, with the same owner, year and jurisdiction, and copies of all its items. |
| TaxFilingService.CreateAmendment | src/main/java/com/taxfiling/service/TaxFilingService.java:74-140 | The owned-filing errors, then ORIGINAL_NOT_SUBMITTED. Otherwise the amendment is appended. On failure, nothing changes. |
| TaxFilingService.AmendmentKeepsTotals | src/main/java/com/taxfiling/service/TaxFilingService.java:98-127 | The amendment starts with the original's totals and item counts. |
| TaxFilingService.AddIncomeItem | src/main/java/com/taxfiling/service/TaxFilingService.java:179-191 | The editable-filing errors. Otherwise the mapped item, with a new id, is appended. |
| TaxFilingService.UpdatedIncomeItem | src/main/java/com/taxfiling/service/TaxFilingService.java:204-207 | The setters: every field comes from the request and the id is kept. |
| TaxFilingService.UpdateIncomeItem | src/main/java/com/taxfiling/service/TaxFilingService.java:194-216 | The first item with the id is updated in place. ITEM_NOT_FOUND, with nothing changed, when there is none. |
| TaxFilingService.RemoveIncomeItem | src/main/java/com/taxfiling/service/TaxFilingService.java:219-236 | Exactly the slot of the first item with the id is removed. Otherwise ITEM_NOT_FOUND. |
| TaxFilingService.AddDeductionItem | src/main/java/com/taxfiling/service/TaxFilingService.java:240-252 | The editable-filing errors. Otherwise the mapped item, with a new id, is appended. |
| TaxFilingService.UpdatedDeductionItem | src/main/java/com/taxfiling/service/TaxFilingService.java:255-276 | The setters: every field comes from the request and the id is kept. |
| TaxFilingService.UpdateDeductionItem | src/main/java/com/taxfiling/service/TaxFilingService.java:255-276 | In place on the first item with the id, or ITEM_NOT_FOUND. |
| TaxFilingService.RemoveDeductionItem | src/main/java/com/taxfiling/service/TaxFilingService.java:279-296 | Removes the first item with the id, or ITEM_NOT_FOUND. |
| TaxFilingService.AddCreditClaim | src/main/java/com/taxfiling/service/TaxFilingService.java:300-312 | The editable-filing errors. Otherwise the mapped claim, with a new id, is appended. |
| TaxFilingService.UpdatedCreditClaim | src/main/java/com/taxfiling/service/TaxFilingService.java:315-335 | The setters: every field comes from the request and the id is kept. |
| TaxFilingService.UpdateCreditClaim | src/main/java/com/taxfiling/service/TaxFilingService.java:315-335 | In place on the first claim with the id, or CLAIM_NOT_FOUND. |
| TaxFilingService.RemoveCreditClaim | src/main/java/com/taxfiling/service/TaxFilingService.java:338-355 | Removes the first claim with the id, or CLAIM_NOT_FOUND. |
| TaxFilingService.UpdatedIncomeItemReadsBack | src/main/java/com/taxfiling/service/TaxFilingService.java:194-216 | After an update, the lookup by id finds the updated item, and it reads back as the request with the item's id. |
| TaxFilingService.UpdatedDeductionItemReadsBack | src/main/java/com/taxfiling/service/TaxFilingService.java:255-276 | The same read-back for deduction items. |
| TaxFilingService.UpdatedCreditClaimReadsBack | src/main/java/com/taxfiling/service/TaxFilingService.java:315-335 | The same read-back for credit claims. |
| TaxFilingService.RemoveUndoesAdd | src/main/java/com/taxfiling/service/TaxFilingService.java:179-236 | Removing by id the item just added gives back the list as it was. |
| TaxFilingService.DeleteFiling | src/main/java/com/taxfiling/service/TaxFilingService.java:358-379 | The owned-filing errors, then CANNOT_DELETE_SUBMITTED. Otherwise the filing goes, and by cascade its runs and its record go too. On failure, nothing changes. |
| TaxFilingService.ReadyStatus | src/main/java/com/taxfiling/service/TaxFilingService.java:393-404 | Only a DRAFT with an income item becomes READY. Otherwise INVALID_STATUS, then INCOMPLETE_FILING. |
| TaxFilingService.DraftStatus | src/main/java/com/taxfiling/service/TaxFilingService.java:426-434 | Only READY goes back to DRAFT. Otherwise INVALID_STATUS. |
| TaxFilingService.ReadyMovesAreInverse | src/main/java/com/taxfiling/service/TaxFilingService.java:386-444 | The two moves undo each other, and neither leads to or from SUBMITTED. |
| TaxFilingService.MarkAsReady | src/main/java/com/taxfiling/service/TaxFilingService.java:386-414 | The owned-filing errors, then `ReadyStatus`'s decision. The status changes only on success. |
| TaxFilingService.UnmarkAsReady | src/main/java/com/taxfiling/service/TaxFilingService.java:420-444 | The owned-filing errors, then INVALID_STATUS unless READY. Otherwise the filing goes back to DRAFT. |
| SubmissionService.NoRecordBeforeSubmission | src/main/java/com/taxfiling/service/SubmissionService.java:79-82 | Under the record invariant, a filing that is not submitted has no submission record. |
| SubmissionService.SubmissionKeepsRecordInvariant | src/main/java/com/taxfiling/service/SubmissionService.java:79-82 | Saving the record and marking its filing SUBMITTED keeps "records only for submitted filings". |
| SubmissionService.UnsubmittedMoveKeepsRecordInvariant | src/main/java/com/taxfiling/service/TaxFilingService.java:386-444 | Moves between DRAFT and READY keep the record invariant. |
| SubmissionService.NewFilingKeepsRecordInvariant | src/main/java/com/taxfiling/service/TaxFilingService.java:52-61 | A filing saved under the table's next id (by `createFiling` or `createAmendment`) has no record, whatever its status, and the record invariant still holds with the advanced id counter. |
| SubmissionService.DeletedFilingKeepsRecordInvariant | src/main/java/com/taxfiling/service/TaxFilingService.java:358-379 | Deleting a filing row, with the cascade removing its records, keeps the record invariant. |
| TaxCalculation.CreditsWithoutRules | src/main/java/com/taxfiling/service/CalculationService.java:267-292 | With no credit rule every claim counts in full as non-refundable: the non-refundable pool is the claimed total, and the refundable pool is empty. |
| SubmissionService.JurisdictionCode | src/main/java/com/taxfiling/service/SubmissionService.java:172 | The first two characters of the jurisdiction (fewer if it is shorter), upper-cased. |
| Text.ToUpper | src/main/java/com/taxfiling/service/SubmissionService.java:172-173 | `toUpperCase` maps character by character. |
| Text.ToUpperNormalises | src/main/java/com/taxfiling/service/SubmissionService.java:172-173 | No lower-case letter is left, and upper-casing twice changes nothing. |
| Calendar.BasicIsoDateRoundTrip | src/main/java/com/taxfiling/service/SubmissionService.java:171 | `yyyyMMdd` reads back as the year, month and day. |
| Text.NatToDecimalRoundTrip | src/main/java/com/taxfiling/service/SubmissionService.java:175 | `%d` of a year reads back as the year, with no leading zero. |
| SubmissionService.ConfirmationNumberReadsBack | src/main/java/com/taxfiling/service/SubmissionService.java:170-176 | `ConfirmationNumber` reads back into its jurisdiction code, date, tax year and suffix, at fixed places between three dashes. |
| SubmissionService.ConfirmationNumberIsUpperCase | src/main/java/com/taxfiling/service/SubmissionService.java:170-176 | A confirmation number has no lower-case letter. |
| SubmissionService.SubmissionOutcome | src/main/java/com/taxfiling/service/SubmissionService.java:38-60 | The checks, in order: FILING_NOT_FOUND, ACCESS_DENIED, ALREADY_SUBMITTED, then the calculation's errors, then INCOMPLETE_FILING. Otherwise the result is the filing's latest run, or a new one. |
| SubmissionService.NewRecord | src/main/java/com/taxfiling/service/SubmissionService.java:69-77 | The record holds the filing, the run, the confirmation number and the submitter, plus the request's IP address and user agent (absent without a request). |
| SubmissionService.SubmitFiling | src/main/java/com/taxfiling/service/SubmissionService.java:38-94 | On success, the record is appended, the filing becomes SUBMITTED, and a run is saved only when the filing had none. On failure, nothing changes, and a run saved on the way is rolled back. The record invariant is kept. |
| SubmissionService.SubmitOwnedFiling | src/main/java/com/taxfiling/service/SubmissionService.java:46-94 | The same, once the filing is found, owned and not submitted. |
| SubmissionService.CompleteSubmission | src/main/java/com/taxfiling/service/SubmissionService.java:59-83 | INCOMPLETE_FILING rolls back the runs saved earlier in the transaction. Otherwise the record is written and the filing is SUBMITTED. |
| SubmissionService.GetOrCalculate | src/main/java/com/taxfiling/service/SubmissionService.java:46-57 | `RunToSubmit`: the latest run, or else the run `calculateTax` saves, or else its error. |
| SubmissionService.RecordSubmission | src/main/java/com/taxfiling/service/SubmissionService.java:66-83 | The record, carrying the confirmation number it is given, is saved under a new id, and then the filing is SUBMITTED. The record invariant is kept. |
| SubmissionService.SaveRecord | src/main/java/com/taxfiling/service/SubmissionService.java:79 | `save` appends the new record under a fresh id. |
| SubmissionService.ToSubmissionResponse | src/main/java/com/taxfiling/service/SubmissionService.java:240-259 | The response shows the record (id, filing, confirmation number, submitter), its filing's year and jurisdiction, and all seven figures of its run. It is a refund exactly when the net is negative; the amount is non-negative and, with the flag, gives back the net. |
| SubmissionService.GetSubmission | src/main/java/com/taxfiling/service/SubmissionService.java:97-111 | The owned-filing errors, then NOT_SUBMITTED without a record. Otherwise the record's response. |
| SubmissionService.GetSubmissionByConfirmation | src/main/java/com/taxfiling/service/SubmissionService.java:114-126 | SUBMISSION_NOT_FOUND, then ACCESS_DENIED unless the record's filing is the user's. |
| SubmissionService.ResponseFor | src/main/java/com/taxfiling/service/SubmissionService.java:137-138 | The response for the filing's record. There is none exactly when the filing has no record. |
| SubmissionService.ResponseForFirstRecord | src/main/java/com/taxfiling/service/SubmissionService.java:137-138 | A response is built from the first record that belongs to the filing. |
| SubmissionService.SubmittedResponsesSound | src/main/java/com/taxfiling/service/SubmissionService.java:130-139 | Entry `k` of the list is the response for the record of the SUBMITTED filing at position `SubmittedResponseSource(k)`. |
| SubmissionService.SubmittedResponsesComplete | src/main/java/com/taxfiling/service/SubmissionService.java:130-139 | Every SUBMITTED filing with a record has its response in the list. |
| SubmissionService.GetUserSubmissions | src/main/java/com/taxfiling/service/SubmissionService.java:129-140 | Lists no more entries than the user has filings; what it lists, and in which order, is stated by the three lemmas below. |
| SubmissionService.UserSubmissionsAreTheSubmittedFilings | src/main/java/com/taxfiling/service/SubmissionService.java:129-140 | Every listed submission is that of a SUBMITTED filing of the user with a record, and every such filing has its submission listed. |
| SubmissionService.SubmittedResponsesConcat | src/main/java/com/taxfiling/service/SubmissionService.java:129-140 | The list is built filing by filing in query order: on a concatenation it is the concatenation, and one filing contributes its response exactly when it is SUBMITTED with a record. |
| SubmissionService.SubmittedResponseSourcesIncrease | src/main/java/com/taxfiling/service/SubmissionService.java:129-140 | A later entry comes from a later filing position, so no filing is listed twice and the query order is kept. |
| SubmissionService.UserSubmissionsInYearOrder | src/main/java/com/taxfiling/service/SubmissionService.java:129-140 | Of two listed submissions, the earlier belongs to a filing of the same or a later tax year, and the two filings differ. |
| SubmissionService.UserFilingsAreStored | src/main/java/com/taxfiling/repository/TaxFilingRepository.java:28 | The query returns exactly the stored filings of the user. |
| Scenarios.ScheduleIsSorted | src/main/java/com/taxfiling/service/CalculationService.java:208-210 | The example schedule is stored in bracket order, so sorting keeps it. |
| Scenarios.SixtyThousandOwesNineThousandFiveHundredFifty | src/test/java/com/taxfiling/service/CalculationServiceTest.java:165-177 | $60,000 taxable on the 15% / 20.5% / 26% schedule owes $9,550.00 over two brackets, with a marginal rate of 20.5%. |
| Scenarios.TwoHundredThousandReachesTopBracket | src/test/java/com/taxfiling/service/CalculationServiceTest.java:304-310 | $200,000 owes $43,750.00, with a marginal rate of 26%. |
| Scenarios.DeductionsAboveIncomeOweNothing | src/test/java/com/taxfiling/service/CalculationServiceTest.java:346-349 | Deductions above the income clamp the taxable income to zero, and no tax is due. |
| Scenarios.EffectiveRateOnSixtyThousand | src/main/java/com/taxfiling/service/CalculationService.java:379-385 | $9,550 on $60,000 is an effective rate of 15.92%. |

## Left out

- Audit records, trace messages, logging, metrics, timestamps and the JSON
  `metadata` maps are left out. They are written alongside the state but
  never read by the core.
- The submission's `filingSnapshot` (`createFilingSnapshot`) is left out:
  it is an unread JSON copy. It has the same null-withholding fault as the
  calculation's snapshot (see Findings).
- Paginated and per-status queries are left out: `getUserFilings*`,
  `getAmendments`, `getRuleVersionsByStatus`, `getRuleVersionsByJurisdiction`
  and `getRuleVersionsForJurisdictionYear`. They are repository queries
  mapped to responses.
- `getTaxRuleVersion` is `FindRuleVersionById` followed by
  `TaxRuleMapper.toResponse`. That response mapper, and the DTO-list
  mappers of `TaxRuleMapper`, are not modelled.
- `toResponse(null)` is not modelled: every caller passes a loaded filing.
- Users are ids. The user table is a set of known ids, and authentication
  and roles are not part of this model.
- The clock and `UUID.randomUUID()` become parameters: the date, and the
  UUID text that `generateConfirmationNumber` uses. Database UUIDs become
  per-table counters.
- The confirmation number's uniqueness (a database constraint) is not
  proved, because the random suffix is an input.
- `toUpperCase` and `equalsIgnoreCase` are modelled for ASCII letters only.
- BigDecimal scale is not modelled. Amounts are cents and rates are
  ten-thousandths, as the column scales say.
- No bracket validation: the source never checks `maxIncome > minIncome`
  or a non-negative rate, so none is assumed. The lemmas that need this
  state it as a requirement.
- CALCULATION_FAILED cannot happen: `calculateTax` either fails or saves a
  run that becomes the latest.
- SubmissionService.SubmitFiling: also, a latest run is submitted however old it
  is, as in the source. A rollback discards saved runs but not the id
  counters.
- SubmissionService.GetUserSubmissions: its own ensures gives only a bound.
  Its content is stated by `UserSubmissionsAreTheSubmittedFilings`, and its
  order (latest tax year first, each filing once) by
  `UserSubmissionsInYearOrder`.
- CalculationService.CalculationOutcome: uses the corrected snapshot, so a
  filing with an income item whose `taxWithheld` is null calculates
  successfully. The source instead fails with INTERNAL_ERROR at
  CalculationService.java:340 (see Findings); `IncomeSnapshotsAsWritten`
  models that failure but the outcome does not.
- CalculationService.CalculateTax: the same. Where the source saves no run
  and answers INTERNAL_ERROR for such a filing, the model saves a run.
- SubmissionService.SubmissionOutcome: the same corrected snapshot. In the
  source, a filing with a null `taxWithheld` also fails submission with
  INTERNAL_ERROR even when a run already exists, because
  `createFilingSnapshot` (SubmissionService.java:66) calls `toString()` on
  it (SubmissionService.java:199). The model lets such a submission succeed.
- SubmissionService.SubmitFiling: the same. Where the source rolls back and
  answers INTERNAL_ERROR, the model writes the record.
- Rule fields that the calculation never reads are not modelled:
  `TaxCreditRule.phaseOutStart`, `phaseOutRate` and `eligibilityRules`, and
  `DeductionRule.maxPercentage` and `eligibilityRules`. The rule mappers
  therefore copy only the modelled fields.
- CalculationService.MarginalRate has no ensures of its own. Its meaning is
  stated by `MarginalRateIsHighestBracketReached`.
- SubmissionService.RecordsOnlyForSubmitted (every record belongs to a
  filing id the table has issued, and a stored filing with a record is
  SUBMITTED) is proved to be kept by submission, by the DRAFT/READY moves,
  by saving a new filing and by deleting one. These are lemmas on the
  table contents: the filing-service methods do not take the record table,
  so their own contracts do not mention the invariant. The remaining
  operations change neither records nor filing statuses.
- Concurrency and transaction isolation are not modelled.

## Findings

| source | as written | input that shows it | evidently intended | confidence | as-written member | corrected member |
|---|---|---|---|---|---|---|
| src/main/java/com/taxfiling/service/CalculationService.java:340 | the input snapshot calls `toString()` on each income item's `taxWithheld`; a null value throws and the calculation fails with INTERNAL_ERROR | an income item whose `taxWithheld` is null, which `updateIncomeItem` stores when the request carries an explicit JSON `"taxWithheld": null`, which `@DecimalMin` lets through (TaxFilingService.java:207): `[IncomeItem(1, Employment, None, 6000000, None)]` | record a missing withholding as zero, as step 6 (CalculationService.java:323) already counts it | not executed | CalculationService.IncomeSnapshotsAsWritten, CalculationService.MissingWithholdingAbortsCalculation | CalculationService.SnapshotOf, CalculationService.SnapshotAgreesWithTotals |
