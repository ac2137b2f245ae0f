// The request-side shapes of brackets, credit rules and deduction rules, and
// their conversion to and from the entities. An entity gets its id when it is
// saved, so the conversion to an entity takes that id as a parameter.
module TaxRuleMapping {
  import opened Wrappers
  import opened Money
  import opened TaxRules

  datatype TaxBracketDto = TaxBracketDto(
    id: Option<nat>,
    minIncome: Cents,
    maxIncome: Option<Cents>,
    rate: Rate,
    bracketOrder: int)

  datatype TaxCreditRuleDto = TaxCreditRuleDto(
    id: Option<nat>,
    creditType: string,
    name: string,
    amount: Cents,
    isRefundable: Option<bool>,
    maxAmount: Option<Cents>)

  datatype DeductionRuleDto = DeductionRuleDto(
    id: Option<nat>,
    deductionType: string,
    name: string,
    maxAmount: Option<Cents>)

  /** `toBracketEntity`: every field but the id is copied; a client-sent id is ignored. */
  function ToBracketEntity(dto: TaxBracketDto, id: nat): (b: TaxBracket)
    ensures b.id == id
    ensures b.minIncome == dto.minIncome && b.maxIncome == dto.maxIncome
    ensures b.rate == dto.rate && b.bracketOrder == dto.bracketOrder
  {
    TaxBracket(id, dto.minIncome, dto.maxIncome, dto.rate, dto.bracketOrder)
  }

  function ToBracketDto(b: TaxBracket): TaxBracketDto
  {
    TaxBracketDto(Some(b.id), b.minIncome, b.maxIncome, b.rate, b.bracketOrder)
  }

  /** `toCreditRuleEntity`: an absent refundable flag becomes `false`. */
  function ToCreditRuleEntity(dto: TaxCreditRuleDto, id: nat): (c: TaxCreditRule)
    ensures c.id == id && c.creditType == dto.creditType && c.name == dto.name
    ensures c.amount == dto.amount && c.maxAmount == dto.maxAmount
    ensures c.isRefundable.Some?
    ensures c.isRefundable.value <==> dto.isRefundable == Some(true)
  {
    TaxCreditRule(id, dto.creditType, dto.name, dto.amount, Some(dto.isRefundable.GetOr(false)), dto.maxAmount)
  }

  function ToCreditRuleDto(c: TaxCreditRule): TaxCreditRuleDto
  {
    TaxCreditRuleDto(Some(c.id), c.creditType, c.name, c.amount, c.isRefundable, c.maxAmount)
  }

  function ToDeductionRuleEntity(dto: DeductionRuleDto, id: nat): (d: DeductionRule)
    ensures d.id == id && d.deductionType == dto.deductionType
    ensures d.name == dto.name && d.maxAmount == dto.maxAmount
  {
    DeductionRule(id, dto.deductionType, dto.name, dto.maxAmount)
  }

  function ToDeductionRuleDto(d: DeductionRule): DeductionRuleDto
  {
    DeductionRuleDto(Some(d.id), d.deductionType, d.name, d.maxAmount)
  }

  /** Entity to request shape and back is the identity on brackets and deduction rules. */
  lemma RuleEntityRoundTrips(b: TaxBracket, d: DeductionRule)
    ensures ToBracketEntity(ToBracketDto(b), b.id) == b
    ensures ToDeductionRuleEntity(ToDeductionRuleDto(d), d.id) == d
  {
  }

  /** A credit rule comes back with its refundable flag settled: an absent flag reads as `false`. */
  lemma CreditRuleRoundTrip(c: TaxCreditRule)
    ensures ToCreditRuleEntity(ToCreditRuleDto(c), c.id) == c.(isRefundable := Some(c.isRefundable.GetOr(false)))
    ensures c.isRefundable.Some? ==> ToCreditRuleEntity(ToCreditRuleDto(c), c.id) == c
  {
  }
}
