// The persisted result of one tax calculation, with its per-bracket and
// per-credit breakdowns.
module CalculationRuns {
  import opened Wrappers
  import opened Money
  import opened Filings

  /** What one bracket contributed: the bracket's own fields, the income taxed in it and that tax. */
  datatype BracketBreakdown = BracketBreakdown(
    bracketOrder: int,
    minIncome: Cents,
    maxIncome: Option<Cents>,
    rate: Rate,
    taxableInBracket: Cents,
    taxFromBracket: Cents)

  /** "Allowed", or "Capped to max X". */
  datatype CreditReason = Allowed | CappedToMax(max: Cents)

  datatype CreditBreakdown = CreditBreakdown(
    creditType: string,
    claimedAmount: Cents,
    allowedAmount: Cents,
    isRefundable: bool,
    reason: CreditReason)

  /** One income slip as the input snapshot records it. */
  datatype IncomeSnapshot = IncomeSnapshot(incomeType: IncomeType, amount: Cents, taxWithheld: Cents)

  datatype DeductionSnapshot = DeductionSnapshot(deductionType: DeductionType, amount: Cents)

  datatype ClaimSnapshot = ClaimSnapshot(creditType: string, amount: Cents)

  /** The filing data a run was computed from, kept with the run. */
  datatype InputSnapshot = InputSnapshot(
    filingId: nat,
    taxYear: int,
    jurisdiction: string,
    incomeItems: seq<IncomeSnapshot>,
    deductionItems: seq<DeductionSnapshot>,
    creditClaims: seq<ClaimSnapshot>)

  datatype CalculationRun = CalculationRun(
    id: nat,
    filingId: nat,
    ruleVersionId: nat,
    ruleVersion: int,
    totalIncome: Cents,
    totalDeductions: Cents,
    taxableIncome: Cents,
    grossTax: Cents,
    totalCredits: Cents,
    taxWithheld: Cents,
    /** Positive means tax is owed, negative means a refund. */
    netTaxOwing: Cents,
    bracketBreakdown: seq<BracketBreakdown>,
    creditsBreakdown: seq<CreditBreakdown>,
    inputSnapshot: InputSnapshot)
  {
    /** A refund is a strictly negative net; a net of zero is not a refund. */
    predicate IsRefund()
    {
      netTaxOwing < 0
    }

    /**
     * The amount to pay or to be refunded, never negative. With `IsRefund`
     * it gives back the signed net.
     */
    function AbsoluteAmount(): (a: Cents)
      ensures a >= 0
      ensures a == netTaxOwing || a == -netTaxOwing
      ensures netTaxOwing == (if IsRefund() then -a else a)
    {
      Abs(netTaxOwing)
    }
  }
}
