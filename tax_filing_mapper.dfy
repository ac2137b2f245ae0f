// `TaxFilingMapper`: the item request shapes and their conversion to and
// from the entities, the full filing response and the summary with its raw
// totals and item counts.
module FilingMapping {
  import opened Wrappers
  import opened Money
  import opened Collections
  import opened Filings
  import opened TaxCalculation

  datatype IncomeItemDto = IncomeItemDto(
    id: Option<nat>,
    incomeType: IncomeType,
    source: Option<string>,
    amount: Cents,
    taxWithheld: Option<Cents>)

  datatype DeductionItemDto = DeductionItemDto(
    id: Option<nat>,
    deductionType: DeductionType,
    description: Option<string>,
    amount: Cents)

  datatype CreditClaimDto = CreditClaimDto(
    id: Option<nat>,
    creditType: string,
    claimedAmount: Cents)

  function ToIncomeItemDto(item: IncomeItem): IncomeItemDto
  {
    IncomeItemDto(Some(item.id), item.incomeType, item.source, item.amount, item.taxWithheld)
  }

  /** `toIncomeItemEntity`: an absent withholding becomes zero; type, source and amount are copied. */
  function ToIncomeItemEntity(dto: IncomeItemDto, id: nat): (item: IncomeItem)
    ensures item.id == id && item.incomeType == dto.incomeType
    ensures item.source == dto.source && item.amount == dto.amount
    ensures item.taxWithheld.Some?
    ensures dto.taxWithheld.None? ==> item.taxWithheld == Some(0)
    ensures dto.taxWithheld.Some? ==> item.taxWithheld == dto.taxWithheld
  {
    IncomeItem(id, dto.incomeType, dto.source, dto.amount, Some(dto.taxWithheld.GetOr(0)))
  }

  function ToDeductionItemDto(item: DeductionItem): DeductionItemDto
  {
    DeductionItemDto(Some(item.id), item.deductionType, item.description, item.amount)
  }

  function ToDeductionItemEntity(dto: DeductionItemDto, id: nat): (item: DeductionItem)
    ensures item.id == id && item.deductionType == dto.deductionType
    ensures item.description == dto.description && item.amount == dto.amount
  {
    DeductionItem(id, dto.deductionType, dto.description, dto.amount)
  }

  function ToCreditClaimDto(claim: CreditClaim): CreditClaimDto
  {
    CreditClaimDto(Some(claim.id), claim.creditType, claim.claimedAmount)
  }

  function ToCreditClaimEntity(dto: CreditClaimDto, id: nat): (claim: CreditClaim)
    ensures claim.id == id && claim.creditType == dto.creditType && claim.claimedAmount == dto.claimedAmount
  {
    CreditClaim(id, dto.creditType, dto.claimedAmount)
  }

  /**
   * `toIncomeItemDto` and `toIncomeItemEntity` undo each other: entity to
   * shape and back is the identity, except that an absent withholding
   * comes back as zero; shape to entity and back keeps the shape, with the
   * id assigned and the withholding settled.
   */
  lemma IncomeItemRoundTrips(i: IncomeItem, dto: IncomeItemDto, id: nat)
    ensures ToIncomeItemEntity(ToIncomeItemDto(i), i.id) == i.(taxWithheld := Some(i.taxWithheld.GetOr(0)))
    ensures i.taxWithheld.Some? ==> ToIncomeItemEntity(ToIncomeItemDto(i), i.id) == i
    ensures ToIncomeItemDto(ToIncomeItemEntity(dto, id)) == dto.(id := Some(id), taxWithheld := Some(dto.taxWithheld.GetOr(0)))
  {
  }

  /** `toDeductionItemDto` and `toDeductionItemEntity` undo each other, up to the assigned id. */
  lemma DeductionItemRoundTrips(d: DeductionItem, dto: DeductionItemDto, id: nat)
    ensures ToDeductionItemEntity(ToDeductionItemDto(d), d.id) == d
    ensures ToDeductionItemDto(ToDeductionItemEntity(dto, id)) == dto.(id := Some(id))
  {
  }

  /** `toCreditClaimDto` and `toCreditClaimEntity` undo each other, up to the assigned id. */
  lemma CreditClaimRoundTrips(c: CreditClaim, dto: CreditClaimDto, id: nat)
    ensures ToCreditClaimEntity(ToCreditClaimDto(c), c.id) == c
    ensures ToCreditClaimDto(ToCreditClaimEntity(dto, id)) == dto.(id := Some(id))
  {
  }

  /** `toIncomeItemDtoList`: empty for a null list, otherwise one shape per item in order. */
  function ToIncomeItemDtoList(items: Option<seq<IncomeItem>>): (r: seq<IncomeItemDto>)
    ensures items.None? ==> r == []
    ensures items.Some? ==> |r| == |items.value|
    ensures items.Some? ==> forall k :: 0 <= k < |r| ==> r[k] == ToIncomeItemDto(items.value[k])
  {
    match items
    case None => []
    case Some(s) => MapSeq(s, ToIncomeItemDto)
  }

  function ToDeductionItemDtoList(items: Option<seq<DeductionItem>>): (r: seq<DeductionItemDto>)
    ensures items.None? ==> r == []
    ensures items.Some? ==> |r| == |items.value|
    ensures items.Some? ==> forall k :: 0 <= k < |r| ==> r[k] == ToDeductionItemDto(items.value[k])
  {
    match items
    case None => []
    case Some(s) => MapSeq(s, ToDeductionItemDto)
  }

  function ToCreditClaimDtoList(claims: Option<seq<CreditClaim>>): (r: seq<CreditClaimDto>)
    ensures claims.None? ==> r == []
    ensures claims.Some? ==> |r| == |claims.value|
    ensures claims.Some? ==> forall k :: 0 <= k < |r| ==> r[k] == ToCreditClaimDto(claims.value[k])
  {
    match claims
    case None => []
    case Some(s) => MapSeq(s, ToCreditClaimDto)
  }

  datatype FilingResponse = FilingResponse(
    id: nat,
    userId: nat,
    taxYear: int,
    jurisdiction: string,
    status: FilingStatus,
    filingType: FilingType,
    originalFilingId: Option<nat>,
    incomeItems: seq<IncomeItemDto>,
    deductionItems: seq<DeductionItemDto>,
    creditClaims: seq<CreditClaimDto>)

  /** `toResponse`: the filing's own fields and its three item lists as shapes, item by item in order. */
  function ToResponse(f: TaxFiling): (r: FilingResponse)
    reads f
    ensures r.id == f.id && r.userId == f.userId && r.status == f.status && r.filingType == f.filingType
    ensures r.taxYear == f.taxYear && r.jurisdiction == f.jurisdiction && r.originalFilingId == f.originalFilingId
    ensures |r.incomeItems| == |f.incomeItems| && |r.deductionItems| == |f.deductionItems|
    ensures |r.creditClaims| == |f.creditClaims|
    ensures forall k :: 0 <= k < |f.incomeItems| ==> r.incomeItems[k] == ToIncomeItemDto(f.incomeItems[k])
    ensures forall k :: 0 <= k < |f.deductionItems| ==> r.deductionItems[k] == ToDeductionItemDto(f.deductionItems[k])
    ensures forall k :: 0 <= k < |f.creditClaims| ==> r.creditClaims[k] == ToCreditClaimDto(f.creditClaims[k])
  {
    FilingResponse(f.id, f.userId, f.taxYear, f.jurisdiction, f.status, f.filingType, f.originalFilingId,
                   ToIncomeItemDtoList(Some(f.incomeItems)),
                   ToDeductionItemDtoList(Some(f.deductionItems)),
                   ToCreditClaimDtoList(Some(f.creditClaims)))
  }

  /**
   * The response loses nothing of the items: each shape it lists carries
   * its item's id, and converting it back under that id gives the item
   * (with a missing withholding settled as zero).
   */
  lemma {:induction false} ResponseItemsReadBack(f: TaxFiling)
    ensures var r := ToResponse(f);
      (forall k :: 0 <= k < |r.incomeItems| ==>
         r.incomeItems[k].id == Some(f.incomeItems[k].id)
         && ToIncomeItemEntity(r.incomeItems[k], f.incomeItems[k].id)
            == f.incomeItems[k].(taxWithheld := Some(f.incomeItems[k].taxWithheld.GetOr(0))))
      && (forall k :: 0 <= k < |r.deductionItems| ==>
            r.deductionItems[k].id == Some(f.deductionItems[k].id)
            && ToDeductionItemEntity(r.deductionItems[k], f.deductionItems[k].id) == f.deductionItems[k])
      && (forall k :: 0 <= k < |r.creditClaims| ==>
            r.creditClaims[k].id == Some(f.creditClaims[k].id)
            && ToCreditClaimEntity(r.creditClaims[k], f.creditClaims[k].id) == f.creditClaims[k])
  {
    var r := ToResponse(f);
    forall k | 0 <= k < |r.incomeItems|
      ensures ToIncomeItemEntity(r.incomeItems[k], f.incomeItems[k].id)
              == f.incomeItems[k].(taxWithheld := Some(f.incomeItems[k].taxWithheld.GetOr(0)))
    {
      IncomeItemRoundTrips(f.incomeItems[k], r.incomeItems[k], f.incomeItems[k].id);
    }
    forall k | 0 <= k < |r.deductionItems|
      ensures ToDeductionItemEntity(r.deductionItems[k], f.deductionItems[k].id) == f.deductionItems[k]
    {
      DeductionItemRoundTrips(f.deductionItems[k], r.deductionItems[k], f.deductionItems[k].id);
    }
    forall k | 0 <= k < |r.creditClaims|
      ensures ToCreditClaimEntity(r.creditClaims[k], f.creditClaims[k].id) == f.creditClaims[k]
    {
      CreditClaimRoundTrips(f.creditClaims[k], r.creditClaims[k], f.creditClaims[k].id);
    }
  }

  datatype FilingSummaryResponse = FilingSummaryResponse(
    id: nat,
    taxYear: int,
    jurisdiction: string,
    status: FilingStatus,
    filingType: FilingType,
    totalIncome: Cents,
    totalDeductions: Cents,
    totalCredits: Cents,
    incomeItemCount: nat,
    deductionItemCount: nat,
    creditClaimCount: nat)

  /**
   * `toSummaryResponse`: null for a null filing; otherwise the filing's key
   * fields, the three list lengths, and the plain, uncapped sums of the
   * item amounts: the totals a calculation would reach with no deduction
   * or credit rule at all.
   */
  function ToSummaryResponse(filing: Option<TaxFiling>): (r: Option<FilingSummaryResponse>)
    reads if filing.Some? then {filing.value} else {}
    ensures r.None? <==> filing.None?
    ensures r.Some? ==> r.value.id == filing.value.id && r.value.status == filing.value.status
    ensures r.Some? ==> (r.value.taxYear == filing.value.taxYear && r.value.jurisdiction == filing.value.jurisdiction
                         && r.value.filingType == filing.value.filingType)
    ensures r.Some? ==> (r.value.incomeItemCount == |filing.value.incomeItems|
                         && r.value.deductionItemCount == |filing.value.deductionItems|
                         && r.value.creditClaimCount == |filing.value.creditClaims|)
    ensures r.Some? ==> r.value.totalIncome == TotalIncome(filing.value.incomeItems)
    ensures r.Some? ==> r.value.totalDeductions == DeductionTotal(filing.value.deductionItems, [])
    ensures r.Some? ==> r.value.totalCredits == NonRefundableSum(CreditEntries(filing.value.creditClaims, []))
  {
    match filing
    case None => None
    case Some(f) =>
      DeductionTotalAtMostClaimed(f.deductionItems, []);
      CreditsWithoutRules(f.creditClaims);
      Some(FilingSummaryResponse(
        f.id, f.taxYear, f.jurisdiction, f.status, f.filingType,
        Sum(f.incomeItems, IncomeAmount),
        Sum(f.deductionItems, DeductionAmount),
        Sum(f.creditClaims, ClaimedAmount),
        |f.incomeItems|, |f.deductionItems|, |f.creditClaims|))
  }

  /**
   * The summary shows what was claimed, the calculation what is allowed:
   * the same total income, and deduction and credit totals that bound the
   * calculated ones from above, whatever the rules (equal for deductions
   * when no rule caps them).
   */
  lemma SummaryBoundsCalculation(f: TaxFiling, rules: RuleInputs, grossTax: Cents)
    ensures ToSummaryResponse(Some(f)).value.totalIncome == TotalIncome(f.incomeItems)
    ensures DeductionTotal(f.deductionItems, rules.deductionRules) <= ToSummaryResponse(Some(f)).value.totalDeductions
    ensures rules.deductionRules == [] ==>
      DeductionTotal(f.deductionItems, rules.deductionRules) == ToSummaryResponse(Some(f)).value.totalDeductions
    ensures TotalCredits(CreditEntries(f.creditClaims, rules.creditRules), grossTax)
      <= ToSummaryResponse(Some(f)).value.totalCredits
  {
    DeductionTotalAtMostClaimed(f.deductionItems, rules.deductionRules);
    TotalCreditsAtMostClaimed(f.creditClaims, rules.creditRules, grossTax);
  }

  /** The summary totals do not depend on the order of the items. */
  lemma SummaryIgnoresItemOrder(f: TaxFiling, g: TaxFiling)
    requires multiset(f.incomeItems) == multiset(g.incomeItems)
    requires multiset(f.deductionItems) == multiset(g.deductionItems)
    requires multiset(f.creditClaims) == multiset(g.creditClaims)
    ensures ToSummaryResponse(Some(f)).value.totalIncome == ToSummaryResponse(Some(g)).value.totalIncome
    ensures ToSummaryResponse(Some(f)).value.totalDeductions == ToSummaryResponse(Some(g)).value.totalDeductions
    ensures ToSummaryResponse(Some(f)).value.totalCredits == ToSummaryResponse(Some(g)).value.totalCredits
  {
    SumPermutation(f.incomeItems, g.incomeItems, IncomeAmount);
    SumPermutation(f.deductionItems, g.deductionItems, DeductionAmount);
    SumPermutation(f.creditClaims, g.creditClaims, ClaimedAmount);
  }
}
