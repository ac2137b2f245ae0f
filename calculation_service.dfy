// The calculation service: runs the seven-step calculation for a filing
// under the active rule version of its jurisdiction and year, saves the run
// with a snapshot of its inputs, and answers with the totals and the
// effective and marginal rates; it also reads back the latest run and the
// history of runs of a filing.
module CalculationService {
  import opened Wrappers
  import opened Errors
  import opened Money
  import opened Collections
  import opened Sorting
  import opened Filings
  import opened TaxRules
  import opened CalculationRuns
  import opened TaxCalculation
  import opened Repositories
  import opened TaxFilingService

  /** What the calculation reads of a filing. */
  function InputsOf(f: TaxFiling): FilingInputs
    reads f
  {
    FilingInputs(f.incomeItems, f.deductionItems, f.creditClaims)
  }

  /** What the calculation reads of a rule version. */
  function RulesOf(v: TaxRuleVersion): RuleInputs
    reads v
  {
    RuleInputs(v.brackets, v.creditRules, v.deductionRules)
  }

  // ---------------------------------------------------------------------
  // The input snapshot
  // ---------------------------------------------------------------------

  /** One income slip in the snapshot; a missing withholding counts as zero, as in step 6. */
  function IncomeSnapshotOf(i: IncomeItem): IncomeSnapshot
  {
    IncomeSnapshot(i.incomeType, i.amount, WithheldOrZero(i))
  }

  function DeductionSnapshotOf(d: DeductionItem): DeductionSnapshot
  {
    DeductionSnapshot(d.deductionType, d.amount)
  }

  function ClaimSnapshotOf(c: CreditClaim): ClaimSnapshot
  {
    ClaimSnapshot(c.creditType, c.claimedAmount)
  }

  function SnapshotAmount(s: IncomeSnapshot): int { s.amount }
  function SnapshotWithheld(s: IncomeSnapshot): int { s.taxWithheld }

  /**
   * `createInputSnapshot` with the missing withholding read as zero: the
   * filing's key fields and one entry per item, in item order.
   */
  function SnapshotOf(f: TaxFiling): (s: InputSnapshot)
    reads f
    ensures s.filingId == f.id && s.taxYear == f.taxYear && s.jurisdiction == f.jurisdiction
    ensures |s.incomeItems| == |f.incomeItems| && |s.deductionItems| == |f.deductionItems|
    ensures |s.creditClaims| == |f.creditClaims|
    ensures forall k :: 0 <= k < |f.incomeItems| ==> s.incomeItems[k] == IncomeSnapshotOf(f.incomeItems[k])
    ensures forall k :: 0 <= k < |f.deductionItems| ==> s.deductionItems[k] == DeductionSnapshotOf(f.deductionItems[k])
    ensures forall k :: 0 <= k < |f.creditClaims| ==> s.creditClaims[k] == ClaimSnapshotOf(f.creditClaims[k])
  {
    InputSnapshot(f.id, f.taxYear, f.jurisdiction,
                  MapSeq(f.incomeItems, IncomeSnapshotOf),
                  MapSeq(f.deductionItems, DeductionSnapshotOf),
                  MapSeq(f.creditClaims, ClaimSnapshotOf))
  }

  /**
   * The snapshot records the figures the run was computed from: its
   * amounts add up to the run's total income and its withholdings to the
   * run's tax withheld.
   */
  lemma SnapshotAgreesWithTotals(f: TaxFiling, rules: RuleInputs)
    ensures Sum(SnapshotOf(f).incomeItems, SnapshotAmount) == Assess(InputsOf(f), rules).totalIncome
    ensures Sum(SnapshotOf(f).incomeItems, SnapshotWithheld) == Assess(InputsOf(f), rules).taxWithheld
  {
    var s := SnapshotOf(f).incomeItems;
    SumCongruent(f.incomeItems, IncomeAmount, s, SnapshotAmount);
    SumCongruent(f.incomeItems, WithheldOrZero, s, SnapshotWithheld);
  }

  /**
   * The income part of `createInputSnapshot` as written: it calls
   * `toString()` on every withholding, so one missing withholding throws
   * a `NullPointerException`, which aborts the calculation.
   */
  function IncomeSnapshotsAsWritten(items: seq<IncomeItem>): (r: Result<seq<IncomeSnapshot>, ErrorCode>)
    ensures r.Failure? <==> exists k :: 0 <= k < |items| && items[k].taxWithheld.None?
    ensures r.Failure? ==> r.error == InternalError
    ensures r.Success? ==> r.value == MapSeq(items, IncomeSnapshotOf)
  {
    if |items| == 0 then Success([])
    else if items[0].taxWithheld.None? then Failure(InternalError)
    else
      var rest := IncomeSnapshotsAsWritten(items[1..]);
      assert forall k :: 1 <= k < |items| ==> items[k] == items[1..][k - 1];
      if rest.Failure? then
        assert exists k :: 0 <= k < |items[1..]| && items[1..][k].taxWithheld.None?;
        Failure(rest.error)
      else Success([IncomeSnapshotOf(items[0])] + rest.value)
  }

  /**
   * An income slip stored without a withholding (which updating an item
   * with a null withholding does) makes the calculation as written fail,
   * although step 6 has already counted that withholding as zero.
   */
  lemma MissingWithholdingAbortsCalculation()
    ensures var items := [IncomeItem(1, Employment, None, 6000000, None)];
      IncomeSnapshotsAsWritten(items) == Failure(InternalError) && TaxWithheld(items) == 0
  {
    var items := [IncomeItem(1, Employment, None, 6000000, None)];
    assert items[0].taxWithheld.None?;
    assert TaxWithheld(items) == TaxWithheld([]) + WithheldOrZero(items[0]);
  }

  // ---------------------------------------------------------------------
  // calculateTax
  // ---------------------------------------------------------------------

  /** The run saved for filing `f` under rule version `v`, with id `id`. */
  function RunFor(id: nat, f: TaxFiling, v: TaxRuleVersion): (run: CalculationRun)
    reads f, v
    ensures run.id == id && run.filingId == f.id && run.ruleVersionId == v.id && run.ruleVersion == v.version
    ensures run.taxableIncome >= 0
    ensures run.netTaxOwing == run.grossTax - run.totalCredits - run.taxWithheld
    ensures |run.creditsBreakdown| == |f.creditClaims|
    ensures run.inputSnapshot == SnapshotOf(f)
  {
    var t := Assess(InputsOf(f), RulesOf(v));
    CalculationRun(id, f.id, v.id, v.version, t.totalIncome, t.totalDeductions, t.taxableIncome,
                   t.grossTax, t.totalCredits, t.taxWithheld, t.netTaxOwing,
                   t.bracketBreakdown, t.creditsBreakdown, SnapshotOf(f))
  }

  /** Steps 1 to 7 and the run builder of `calculateTax`. */
  method BuildRun(id: nat, f: TaxFiling, v: TaxRuleVersion) returns (run: CalculationRun)
    ensures run == RunFor(id, f, v)
  {
    var t := CalculateTotals(InputsOf(f), RulesOf(v));
    run := CalculationRun(id, f.id, v.id, v.version, t.totalIncome, t.totalDeductions, t.taxableIncome,
                          t.grossTax, t.totalCredits, t.taxWithheld, t.netTaxOwing,
                          t.bracketBreakdown, t.creditsBreakdown, SnapshotOf(f));
  }

  /**
   * What `calculateTax` decides: FILING_NOT_FOUND, then ACCESS_DENIED, then
   * NO_ACTIVE_RULES when the filing's jurisdiction and year have no active
   * version; otherwise the run computed under the active version.
   */
  function CalculationOutcome(filings: TaxFilingRepository, rules: TaxRuleVersionRepository,
                              filingId: nat, userId: nat, runId: nat): (r: Result<CalculationRun, ErrorCode>)
    reads filings, filings.filings, rules, rules.versions
    ensures FindOwnedFiling(filings, filingId, userId).Failure? ==> r == Failure(FindOwnedFiling(filings, filingId, userId).error)
    ensures FindOwnedFiling(filings, filingId, userId).Success? ==>
      var f := FindOwnedFiling(filings, filingId, userId).value;
      var active := rules.FindActiveRule(f.jurisdiction, f.taxYear);
      (active.None? ==> r == Failure(NoActiveRules))
      && (active.Some? ==> r == Success(RunFor(runId, f, active.value)))
    ensures r.Success? ==> r.value.id == runId && r.value.filingId == filingId
  {
    match FindOwnedFiling(filings, filingId, userId)
    case Failure(e) => Failure(e)
    case Success(f) =>
      match rules.FindActiveRule(f.jurisdiction, f.taxYear)
      case None => Failure(NoActiveRules)
      case Some(v) => Success(RunFor(runId, f, v))
  }

  /**
   * `calculateTax`: on success the new run is appended to the runs, becomes
   * the filing's latest, and is what the response describes; on failure
   * nothing is saved.
   */
  method CalculateTax(filings: TaxFilingRepository, rules: TaxRuleVersionRepository,
                      runs: CalculationRunRepository, filingId: nat, userId: nat)
    returns (r: Result<CalculationResponse, ErrorCode>)
    requires runs.Valid()
    modifies runs
    ensures runs.Valid()
    ensures var outcome := old(CalculationOutcome(filings, rules, filingId, userId, runs.nextId));
      (outcome.Failure? ==> r == Failure(outcome.error) && unchanged(runs))
      && (outcome.Success? ==> runs.runs == old(runs.runs) + [outcome.value]
                               && r == Success(ToCalculationResponse(outcome.value))
                               && runs.FindLatest(filingId) == Some(outcome.value)
                               && runs.FindHistory(filingId) == [outcome.value] + old(runs.FindHistory(filingId)))
  {
    var found := FindOwnedFiling(filings, filingId, userId);
    if found.Failure? {
      return Failure(found.error);
    }
    var f := found.value;
    var active := rules.FindActiveRule(f.jurisdiction, f.taxYear);
    if active.None? {
      return Failure(NoActiveRules);
    }
    var v := active.value;
    var id := runs.NewId();
    var run := BuildRun(id, f, v);
    runs.Add(run);
    r := Success(ToCalculationResponse(run));
  }

  // ---------------------------------------------------------------------
  // The response and its rates
  // ---------------------------------------------------------------------

  datatype CalculationResponse = CalculationResponse(
    id: nat,
    filingId: nat,
    ruleVersionId: nat,
    ruleVersion: int,
    totalIncome: Cents,
    totalDeductions: Cents,
    taxableIncome: Cents,
    grossTax: Cents,
    totalCredits: Cents,
    taxWithheld: Cents,
    netTaxOwing: Cents,
    isRefund: bool,
    refundOrOwingAmount: Cents,
    bracketBreakdown: seq<BracketBreakdown>,
    creditsBreakdown: seq<CreditBreakdown>,
    /** In hundredths of a percent. */
    effectiveTaxRate: int,
    /** In hundredths of a percent. */
    marginalTaxRate: int)

  /**
   * The effective rate, `grossTax / totalIncome` to four decimals (HALF_UP)
   * times 100, kept with two decimals: in hundredths of a percent it is the
   * nearest whole number to `grossTax * 10000 / totalIncome`. Zero without a
   * positive income.
   */
  function EffectiveRate(grossTax: Cents, totalIncome: Cents): (r: int)
    ensures totalIncome <= 0 ==> r == 0
    ensures totalIncome > 0 && grossTax >= 0 ==>
      r >= 0 && totalIncome * (2 * r - 1) <= 2 * grossTax * RateScale < totalIncome * (2 * r + 1)
    ensures totalIncome > 0 && grossTax < 0 ==>
      r <= 0 && totalIncome * (2 * r - 1) < 2 * grossTax * RateScale <= totalIncome * (2 * r + 1)
    ensures totalIncome > 0 && 0 <= grossTax <= totalIncome ==> r <= 10000
  {
    if totalIncome > 0 then
      RoundHalfUpDivBounds(grossTax * RateScale, totalIncome);
      var q := RoundHalfUpDiv(grossTax * RateScale, totalIncome);
      if grossTax >= 0 && grossTax <= totalIncome then
        assert totalIncome * (2 * q - 1) <= 2 * totalIncome * RateScale;
        assert totalIncome * (2 * q - 1 - 2 * RateScale) <= 0;
        TimesPositive(totalIncome, 2 * q - 1 - 2 * RateScale);
        q
      else q
    else 0
  }

  /**
   * The marginal rate: the rate of the last breakdown entry when income was
   * taxed in it, times 100 with two decimals, which in hundredths of a
   * percent is the rate in ten-thousandths.
   */
  function MarginalRate(breakdown: seq<BracketBreakdown>): Rate
  {
    if |breakdown| > 0 && breakdown[|breakdown| - 1].taxableInBracket > 0 then breakdown[|breakdown| - 1].rate
    else 0
  }

  /**
   * Over well-formed brackets and a positive taxable income, the marginal
   * rate is the rate of the highest bracket (in `bracketOrder`) that the
   * income reaches: the breakdown stops at that bracket, and every bracket
   * after it is either absent or received nothing.
   */
  lemma MarginalRateIsHighestBracketReached(taxableIncome: Cents, brackets: seq<TaxBracket>)
    requires taxableIncome > 0 && |brackets| > 0
    requires forall k :: 0 <= k < |brackets| ==> ProperBracket(brackets[k])
    ensures var walk := ProgressiveTax(taxableIncome, brackets);
      var n := |walk.breakdown|;
      0 < n <= |brackets|
      && MarginalRate(walk.breakdown) == SortedBrackets(brackets)[n - 1].rate
      && (n == |brackets| || walk.remaining <= 0)
  {
    var sorted := SortedBrackets(brackets);
    SortingKeepsBracketsProper(brackets);
    var walk := Walk(taxableIncome, sorted);
    WalkEntriesPositive(taxableIncome, sorted);
    WalkStops(taxableIncome, sorted);
    var n := |walk.breakdown|;
    WalkEntries(taxableIncome, sorted, n - 1);
  }

  /** Sorting the brackets keeps their number, and keeps every one well-formed. */
  lemma SortingKeepsBracketsProper(brackets: seq<TaxBracket>)
    requires forall k :: 0 <= k < |brackets| ==> ProperBracket(brackets[k])
    ensures |SortedBrackets(brackets)| == |brackets|
    ensures forall k :: 0 <= k < |SortedBrackets(brackets)| ==> ProperBracket(SortedBrackets(brackets)[k])
  {
    var sorted := SortedBrackets(brackets);
    forall k | 0 <= k < |sorted| ensures ProperBracket(sorted[k]) {
      assert sorted[k] in multiset(sorted);
      assert sorted[k] in multiset(brackets);
    }
  }

  /** `buildResponse` and `buildResponseFromRun`: the run's figures, the refund flag, and the two rates. */
  function ToCalculationResponse(run: CalculationRun): (r: CalculationResponse)
    ensures r.id == run.id && r.filingId == run.filingId
    ensures r.ruleVersionId == run.ruleVersionId && r.ruleVersion == run.ruleVersion
    ensures r.totalIncome == run.totalIncome && r.totalDeductions == run.totalDeductions
    ensures r.taxableIncome == run.taxableIncome && r.grossTax == run.grossTax
    ensures r.totalCredits == run.totalCredits && r.taxWithheld == run.taxWithheld && r.netTaxOwing == run.netTaxOwing
    ensures r.bracketBreakdown == run.bracketBreakdown && r.creditsBreakdown == run.creditsBreakdown
    ensures r.isRefund <==> run.netTaxOwing < 0
    ensures r.refundOrOwingAmount >= 0
    ensures run.netTaxOwing == (if r.isRefund then -r.refundOrOwingAmount else r.refundOrOwingAmount)
    ensures r.effectiveTaxRate == EffectiveRate(run.grossTax, run.totalIncome)
    ensures r.marginalTaxRate == MarginalRate(run.bracketBreakdown)
  {
    CalculationResponse(run.id, run.filingId, run.ruleVersionId, run.ruleVersion,
                        run.totalIncome, run.totalDeductions, run.taxableIncome, run.grossTax,
                        run.totalCredits, run.taxWithheld, run.netTaxOwing,
                        run.IsRefund(), run.AbsoluteAmount(),
                        run.bracketBreakdown, run.creditsBreakdown,
                        EffectiveRate(run.grossTax, run.totalIncome),
                        MarginalRate(run.bracketBreakdown))
  }

  // ---------------------------------------------------------------------
  // Reading runs back
  // ---------------------------------------------------------------------

  /** `getLatestCalculation`: the owned-filing errors, then NO_CALCULATION when the filing has no run. */
  function GetLatestCalculation(filings: TaxFilingRepository, runs: CalculationRunRepository,
                                filingId: nat, userId: nat): (r: Result<CalculationResponse, ErrorCode>)
    reads filings, runs
    ensures FindOwnedFiling(filings, filingId, userId).Failure? ==> r == Failure(FindOwnedFiling(filings, filingId, userId).error)
    ensures FindOwnedFiling(filings, filingId, userId).Success? && runs.FindLatest(filingId).None? ==> r == Failure(NoCalculation)
    ensures r.Success? <==> FindOwnedFiling(filings, filingId, userId).Success? && runs.FindLatest(filingId).Some?
    ensures r.Success? ==> r.value == ToCalculationResponse(runs.FindLatest(filingId).value) && r.value.filingId == filingId
  {
    match FindOwnedFiling(filings, filingId, userId)
    case Failure(e) => Failure(e)
    case Success(_) =>
      match runs.FindLatest(filingId)
      case None => Failure(NoCalculation)
      case Some(run) => Success(ToCalculationResponse(run))
  }

  /** `getCalculationHistory`: the owned-filing errors, else one response per run of the filing, newest first. */
  function GetCalculationHistory(filings: TaxFilingRepository, runs: CalculationRunRepository,
                                 filingId: nat, userId: nat): (r: Result<seq<CalculationResponse>, ErrorCode>)
    reads filings, runs
    ensures FindOwnedFiling(filings, filingId, userId).Failure? ==> r == Failure(FindOwnedFiling(filings, filingId, userId).error)
    ensures r.Success? <==> FindOwnedFiling(filings, filingId, userId).Success?
    ensures r.Success? ==> |r.value| == |runs.FindHistory(filingId)|
    ensures r.Success? ==> forall k :: 0 <= k < |r.value| ==>
      r.value[k] == ToCalculationResponse(runs.FindHistory(filingId)[k]) && r.value[k].filingId == filingId
  {
    match FindOwnedFiling(filings, filingId, userId)
    case Failure(e) => Failure(e)
    case Success(_) => Success(MapSeq(runs.FindHistory(filingId), ToCalculationResponse))
  }

  /**
   * The latest calculation is the head of the history: one exists exactly
   * when the history is not empty, and then it is the history's first entry.
   */
  lemma LatestIsHeadOfHistory(filings: TaxFilingRepository, runs: CalculationRunRepository, filingId: nat, userId: nat)
    requires FindOwnedFiling(filings, filingId, userId).Success?
    ensures GetLatestCalculation(filings, runs, filingId, userId).Success?
            <==> |GetCalculationHistory(filings, runs, filingId, userId).value| > 0
    ensures GetLatestCalculation(filings, runs, filingId, userId).Success? ==>
      GetLatestCalculation(filings, runs, filingId, userId).value == GetCalculationHistory(filings, runs, filingId, userId).value[0]
  {
    LatestHeadsHistory(runs.runs, filingId);
  }
}
