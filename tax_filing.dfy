// A user's tax return for one jurisdiction and year: its income items,
// deduction items and credit claims, its status and whether it is an
// original filing or an amendment of one.
module Filings {
  import opened Wrappers
  import opened Money
  import opened Collections

  datatype FilingStatus = Draft | Ready | Submitted

  datatype FilingType = Original | Amendment

  datatype IncomeType =
    | Employment | SelfEmployment | Investment | Rental | CapitalGains | Pension | EiBenefits | OtherIncome

  datatype DeductionType =
    | Rrsp | UnionDues | Childcare | Moving | Charitable | Medical | StudentLoanInterest | HomeOffice | OtherDeduction
  {
    /** The enum constant's `name()`, which deduction rules are matched against. */
    function Name(): string
    {
      match this
      case Rrsp => "RRSP"
      case UnionDues => "UNION_DUES"
      case Childcare => "CHILDCARE"
      case Moving => "MOVING"
      case Charitable => "CHARITABLE"
      case Medical => "MEDICAL"
      case StudentLoanInterest => "STUDENT_LOAN_INTEREST"
      case HomeOffice => "HOME_OFFICE"
      case OtherDeduction => "OTHER"
    }
  }

  /** An income slip; `taxWithheld` is a nullable column that defaults to zero. */
  datatype IncomeItem = IncomeItem(
    id: nat,
    incomeType: IncomeType,
    source: Option<string>,
    amount: Cents,
    taxWithheld: Option<Cents>)

  datatype DeductionItem = DeductionItem(
    id: nat,
    deductionType: DeductionType,
    description: Option<string>,
    amount: Cents)

  datatype CreditClaim = CreditClaim(
    id: nat,
    creditType: string,
    claimedAmount: Cents)

  function IncomeItemId(i: IncomeItem): nat { i.id }
  function DeductionItemId(d: DeductionItem): nat { d.id }
  function CreditClaimId(c: CreditClaim): nat { c.id }

  class TaxFiling {
    const id: nat
    const userId: nat
    const taxYear: int
    const jurisdiction: string
    const filingType: FilingType
    const originalFilingId: Option<nat>
    var status: FilingStatus
    var incomeItems: seq<IncomeItem>
    var deductionItems: seq<DeductionItem>
    var creditClaims: seq<CreditClaim>

    /** The builder: the filing type defaults to ORIGINAL and every item list starts empty. */
    constructor(id: nat, userId: nat, taxYear: int, jurisdiction: string, status: FilingStatus,
                filingType: Option<FilingType>, originalFilingId: Option<nat>)
      ensures this.id == id && this.userId == userId && this.taxYear == taxYear
      ensures this.jurisdiction == jurisdiction && this.status == status
      ensures this.filingType == (if filingType.Some? then filingType.value else Original)
      ensures this.originalFilingId == originalFilingId
      ensures incomeItems == [] && deductionItems == [] && creditClaims == []
    {
      this.id := id;
      this.userId := userId;
      this.taxYear := taxYear;
      this.jurisdiction := jurisdiction;
      this.status := status;
      this.filingType := filingType.GetOr(Original);
      this.originalFilingId := originalFilingId;
      incomeItems := [];
      deductionItems := [];
      creditClaims := [];
    }

    method AddIncomeItem(item: IncomeItem)
      modifies this`incomeItems
      ensures incomeItems == old(incomeItems) + [item]
    {
      incomeItems := incomeItems + [item];
    }

    /** `List.remove(Object)`: drops the first equal item, if there is one. */
    method RemoveIncomeItem(item: IncomeItem)
      modifies this`incomeItems
      ensures incomeItems == RemoveFirst(old(incomeItems), item)
    {
      incomeItems := RemoveFirst(incomeItems, item);
    }

    method AddDeductionItem(item: DeductionItem)
      modifies this`deductionItems
      ensures deductionItems == old(deductionItems) + [item]
    {
      deductionItems := deductionItems + [item];
    }

    method RemoveDeductionItem(item: DeductionItem)
      modifies this`deductionItems
      ensures deductionItems == RemoveFirst(old(deductionItems), item)
    {
      deductionItems := RemoveFirst(deductionItems, item);
    }

    method AddCreditClaim(claim: CreditClaim)
      modifies this`creditClaims
      ensures creditClaims == old(creditClaims) + [claim]
    {
      creditClaims := creditClaims + [claim];
    }

    method RemoveCreditClaim(claim: CreditClaim)
      modifies this`creditClaims
      ensures creditClaims == RemoveFirst(old(creditClaims), claim)
    {
      creditClaims := RemoveFirst(creditClaims, claim);
    }

    /** A filing is submitted exactly when its status is SUBMITTED. */
    predicate IsSubmitted()
      reads this
    {
      status == Submitted
    }

    /** A filing can be edited exactly when it is not submitted. */
    predicate IsEditable()
      reads this
      ensures IsEditable() <==> !IsSubmitted()
    {
      status != Submitted
    }
  }
}
