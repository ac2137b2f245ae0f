// A versioned set of tax rules for one jurisdiction and tax year: the
// progressive brackets, the credit rules and the deduction rules, and the
// version's lifecycle status.
module TaxRules {
  import opened Wrappers
  import opened Money
  import opened Calendar

  datatype RuleStatus = Draft | Active | Deprecated

  /** One progressive bracket; `maxIncome == None` is the unlimited top bracket. */
  datatype TaxBracket = TaxBracket(
    id: nat,
    minIncome: Cents,
    maxIncome: Option<Cents>,
    rate: Rate,
    bracketOrder: int)

  /** A credit the version recognises; `isRefundable` is a nullable column. */
  datatype TaxCreditRule = TaxCreditRule(
    id: nat,
    creditType: string,
    name: string,
    amount: Cents,
    isRefundable: Option<bool>,
    maxAmount: Option<Cents>)

  /** A cap on one deduction type, named by the type's enum constant. */
  datatype DeductionRule = DeductionRule(
    id: nat,
    deductionType: string,
    name: string,
    maxAmount: Option<Cents>)

  function BracketId(b: TaxBracket): nat { b.id }
  function CreditRuleId(c: TaxCreditRule): nat { c.id }
  function DeductionRuleId(d: DeductionRule): nat { d.id }
  function BracketOrder(b: TaxBracket): int { b.bracketOrder }

  class TaxRuleVersion {
    const id: nat
    const name: string
    const jurisdiction: string
    const taxYear: int
    const version: int
    const effectiveFrom: Date
    const effectiveTo: Option<Date>
    const createdBy: Option<nat>
    var status: RuleStatus
    var brackets: seq<TaxBracket>
    var creditRules: seq<TaxCreditRule>
    var deductionRules: seq<DeductionRule>

    /** The builder: `version` defaults to 1 and the three rule lists start empty. */
    constructor(id: nat, name: string, jurisdiction: string, taxYear: int, version: Option<int>,
                status: RuleStatus, effectiveFrom: Date, effectiveTo: Option<Date>, createdBy: Option<nat>)
      ensures this.id == id && this.name == name && this.jurisdiction == jurisdiction
      ensures this.taxYear == taxYear && this.status == status
      ensures this.version == (if version.Some? then version.value else 1)
      ensures this.effectiveFrom == effectiveFrom && this.effectiveTo == effectiveTo
      ensures this.createdBy == createdBy
      ensures brackets == [] && creditRules == [] && deductionRules == []
    {
      this.id := id;
      this.name := name;
      this.jurisdiction := jurisdiction;
      this.taxYear := taxYear;
      this.version := version.GetOr(1);
      this.status := status;
      this.effectiveFrom := effectiveFrom;
      this.effectiveTo := effectiveTo;
      this.createdBy := createdBy;
      brackets := [];
      creditRules := [];
      deductionRules := [];
    }

    method AddBracket(bracket: TaxBracket)
      modifies this`brackets
      ensures brackets == old(brackets) + [bracket]
    {
      brackets := brackets + [bracket];
    }

    method AddCreditRule(creditRule: TaxCreditRule)
      modifies this`creditRules
      ensures creditRules == old(creditRules) + [creditRule]
    {
      creditRules := creditRules + [creditRule];
    }

    method AddDeductionRule(deductionRule: DeductionRule)
      modifies this`deductionRules
      ensures deductionRules == old(deductionRules) + [deductionRule]
    {
      deductionRules := deductionRules + [deductionRule];
    }
  }
}
