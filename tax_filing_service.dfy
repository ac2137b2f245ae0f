// The filing service: creating original filings and amendments, editing
// the items of a filing that is not yet submitted, deleting a filing, and
// the DRAFT <-> READY moves. Every failure is an `ApiException` that rolls
// the transaction back, so a failing call leaves the tables as they were.
module TaxFilingService {
  import opened Wrappers
  import opened Errors
  import opened Collections
  import opened Filings
  import opened FilingMapping
  import opened TaxCalculation
  import opened Repositories

  datatype CreateFilingRequest = CreateFilingRequest(taxYear: int, jurisdiction: string)

  // ---------------------------------------------------------------------
  // Lookups
  // ---------------------------------------------------------------------

  /** `findFilingById`: the filing, or FILING_NOT_FOUND. */
  function FindFilingById(repo: TaxFilingRepository, filingId: nat): (r: Result<TaxFiling, ErrorCode>)
    reads repo
    ensures r.Failure? <==> forall k :: 0 <= k < |repo.filings| ==> repo.filings[k].id != filingId
    ensures r.Failure? ==> r.error == FilingNotFound
    ensures r.Success? ==> r.value in repo.filings && r.value.id == filingId
  {
    match repo.FindById(filingId)
    case None => Failure(FilingNotFound)
    case Some(f) => Success(f)
  }

  /** `findFilingById` followed by `validateFilingOwnership`: FILING_NOT_FOUND, then ACCESS_DENIED. */
  function FindOwnedFiling(repo: TaxFilingRepository, filingId: nat, userId: nat): (r: Result<TaxFiling, ErrorCode>)
    reads repo
    ensures repo.FindById(filingId).None? ==> r == Failure(FilingNotFound)
    ensures repo.FindById(filingId).Some? && repo.FindById(filingId).value.userId != userId ==> r == Failure(AccessDenied)
    ensures r.Success? <==> repo.FindById(filingId).Some? && repo.FindById(filingId).value.userId == userId
    ensures r.Success? ==> r.value == repo.FindById(filingId).value && r.value.id == filingId && r.value.userId == userId
  {
    match FindFilingById(repo, filingId)
    case Failure(e) => Failure(e)
    case Success(f) => if f.userId != userId then Failure(AccessDenied) else Success(f)
  }

  /** `findEditableFiling`: an owned filing, and FILING_NOT_EDITABLE once it is submitted. */
  function FindEditableFiling(repo: TaxFilingRepository, filingId: nat, userId: nat): (r: Result<TaxFiling, ErrorCode>)
    reads repo, repo.filings
    ensures FindOwnedFiling(repo, filingId, userId).Failure? ==> r == FindOwnedFiling(repo, filingId, userId)
    ensures (FindOwnedFiling(repo, filingId, userId).Success? && FindOwnedFiling(repo, filingId, userId).value.IsSubmitted()
             ==> r == Failure(FilingNotEditable))
    ensures r.Success? <==> (FindOwnedFiling(repo, filingId, userId).Success?
                             && FindOwnedFiling(repo, filingId, userId).value.status != Submitted)
    ensures r.Success? ==> r.value == FindOwnedFiling(repo, filingId, userId).value
  {
    match FindOwnedFiling(repo, filingId, userId)
    case Failure(e) => Failure(e)
    case Success(f) => if !f.IsEditable() then Failure(FilingNotEditable) else Success(f)
  }

  /** The filing an owned-filing operation may change: none when the lookup fails. */
  function OwnedTarget(repo: TaxFilingRepository, filingId: nat, userId: nat): (r: set<TaxFiling>)
    reads repo
    ensures FindOwnedFiling(repo, filingId, userId).Failure? ==> r == {}
    ensures FindOwnedFiling(repo, filingId, userId).Success? ==> r == {FindOwnedFiling(repo, filingId, userId).value}
  {
    match FindOwnedFiling(repo, filingId, userId)
    case Failure(_) => {}
    case Success(f) => {f}
  }

  /** The filing an item operation may change: none when it is missing, not owned or submitted. */
  function EditTarget(repo: TaxFilingRepository, filingId: nat, userId: nat): (r: set<TaxFiling>)
    reads repo, repo.filings
    ensures FindEditableFiling(repo, filingId, userId).Failure? ==> r == {}
    ensures FindEditableFiling(repo, filingId, userId).Success? ==> r == {FindEditableFiling(repo, filingId, userId).value}
  {
    match FindEditableFiling(repo, filingId, userId)
    case Failure(_) => {}
    case Success(f) => {f}
  }

  /** `getFiling`: the response of an owned filing. */
  function GetFiling(repo: TaxFilingRepository, filingId: nat, userId: nat): (r: Result<FilingResponse, ErrorCode>)
    reads repo, repo.filings
    ensures r.Failure? <==> FindOwnedFiling(repo, filingId, userId).Failure?
    ensures r.Failure? ==> r.error == FindOwnedFiling(repo, filingId, userId).error
    ensures r.Success? ==> r.value.id == filingId && r.value.userId == userId
    ensures r.Success? ==> r.value == ToResponse(repo.FindById(filingId).value)
  {
    match FindOwnedFiling(repo, filingId, userId)
    case Failure(e) => Failure(e)
    case Success(f) => Success(ToResponse(f))
  }

  /** With the table's invariant, a user has at most one ORIGINAL filing per year and jurisdiction. */
  lemma OneOriginalPerYear(repo: TaxFilingRepository, i: nat, j: nat)
    requires repo.Valid() && i < |repo.filings| && j < |repo.filings|
    requires repo.filings[i].filingType == Original
    requires IsOriginalOf(repo.filings[j], repo.filings[i].userId, repo.filings[i].taxYear, repo.filings[i].jurisdiction)
    ensures i == j
  {
    if i != j {
      PairwiseAt(repo.filings, FilingsCoexist, i, j);
    }
  }

  // ---------------------------------------------------------------------
  // Creation
  // ---------------------------------------------------------------------

  /** A freshly built filing: the given identity and kind, status DRAFT. */
  ghost predicate BuiltAs(f: TaxFiling, id: nat, userId: nat, taxYear: int, jurisdiction: string,
                          filingType: FilingType, originalFilingId: Option<nat>)
    reads f
  {
    f.id == id && f.userId == userId && f.taxYear == taxYear && f.jurisdiction == jurisdiction
    && f.status == Draft && f.filingType == filingType && f.originalFilingId == originalFilingId
  }

  /**
   * `createFiling`: USER_NOT_FOUND for an unknown user, FILING_EXISTS when
   * the user already has an ORIGINAL filing for that year and jurisdiction,
   * otherwise a new empty DRAFT ORIGINAL filing is saved.
   */
  method CreateFiling(repo: TaxFilingRepository, users: set<nat>, request: CreateFilingRequest, userId: nat)
    returns (r: Result<FilingResponse, ErrorCode>)
    requires repo.Valid()
    modifies repo
    ensures repo.Valid()
    ensures r.Failure? ==> unchanged(repo)
    ensures userId !in users ==> r == Failure(UserNotFound)
    ensures (userId in users && old(repo.OriginalFilingExists(userId, request.taxYear, request.jurisdiction))
             ==> r == Failure(FilingExists))
    ensures r.Success? <==> userId in users && !old(repo.OriginalFilingExists(userId, request.taxYear, request.jurisdiction))
    ensures r.Success? ==> |repo.filings| == |old(repo.filings)| + 1 && repo.filings[..|old(repo.filings)|] == old(repo.filings)
    ensures r.Success? ==>
      var f := repo.filings[|repo.filings| - 1];
      fresh(f) && BuiltAs(f, old(repo.nextId), userId, request.taxYear, request.jurisdiction, Original, None)
      && f.incomeItems == [] && f.deductionItems == [] && f.creditClaims == []
      && r.value == ToResponse(f)
    ensures r.Success? ==> repo.OriginalFilingExists(userId, request.taxYear, request.jurisdiction)
  {
    if userId !in users {
      return Failure(UserNotFound);
    }
    if repo.OriginalFilingExists(userId, request.taxYear, request.jurisdiction) {
      return Failure(FilingExists);
    }
    var id := repo.NewId();
    var f := new TaxFiling(id, userId, request.taxYear, request.jurisdiction, Draft, Some(Original), None);
    forall k | 0 <= k < |repo.filings| ensures FilingsCoexist(repo.filings[k], f) {
      assert !IsOriginalOf(repo.filings[k], userId, request.taxYear, request.jurisdiction);
    }
    repo.Add(f);
    assert repo.filings[..|old(repo.filings)|] == old(repo.filings);
    assert IsOriginalOf(repo.filings[|repo.filings| - 1], userId, request.taxYear, request.jurisdiction);
    r := Success(ToResponse(f));
  }

  /** The income items of an amendment: the original's, in order, the `k`-th with id `firstId + k`. */
  function IncomeCopies(items: seq<IncomeItem>, firstId: nat): (r: seq<IncomeItem>)
    ensures |r| == |items|
    ensures forall k :: 0 <= k < |items| ==> r[k] == items[k].(id := firstId + k)
  {
    seq(|items|, k requires 0 <= k < |items| => items[k].(id := firstId + k))
  }

  function DeductionCopies(items: seq<DeductionItem>, firstId: nat): (r: seq<DeductionItem>)
    ensures |r| == |items|
    ensures forall k :: 0 <= k < |items| ==> r[k] == items[k].(id := firstId + k)
  {
    seq(|items|, k requires 0 <= k < |items| => items[k].(id := firstId + k))
  }

  function ClaimCopies(claims: seq<CreditClaim>, firstId: nat): (r: seq<CreditClaim>)
    ensures |r| == |claims|
    ensures forall k :: 0 <= k < |claims| ==> r[k] == claims[k].(id := firstId + k)
  {
    seq(|claims|, k requires 0 <= k < |claims| => claims[k].(id := firstId + k))
  }

  /** `originalFiling.getIncomeItems().forEach(... amendment.addIncomeItem(copy))`. */
  method CopyIncomeItems(target: TaxFiling, items: seq<IncomeItem>, firstId: nat)
    modifies target`incomeItems
    ensures target.incomeItems == old(target.incomeItems) + IncomeCopies(items, firstId)
  {
    var i := 0;
    while i < |items|
      invariant 0 <= i <= |items|
      invariant target.incomeItems == old(target.incomeItems) + IncomeCopies(items[..i], firstId)
    {
      target.AddIncomeItem(items[i].(id := firstId + i));
      assert IncomeCopies(items[..i + 1], firstId) == IncomeCopies(items[..i], firstId) + [items[i].(id := firstId + i)];
      i := i + 1;
    }
    assert items[..i] == items;
  }

  method CopyDeductionItems(target: TaxFiling, items: seq<DeductionItem>, firstId: nat)
    modifies target`deductionItems
    ensures target.deductionItems == old(target.deductionItems) + DeductionCopies(items, firstId)
  {
    var i := 0;
    while i < |items|
      invariant 0 <= i <= |items|
      invariant target.deductionItems == old(target.deductionItems) + DeductionCopies(items[..i], firstId)
    {
      target.AddDeductionItem(items[i].(id := firstId + i));
      assert DeductionCopies(items[..i + 1], firstId) == DeductionCopies(items[..i], firstId) + [items[i].(id := firstId + i)];
      i := i + 1;
    }
    assert items[..i] == items;
  }

  method CopyCreditClaims(target: TaxFiling, claims: seq<CreditClaim>, firstId: nat)
    modifies target`creditClaims
    ensures target.creditClaims == old(target.creditClaims) + ClaimCopies(claims, firstId)
  {
    var i := 0;
    while i < |claims|
      invariant 0 <= i <= |claims|
      invariant target.creditClaims == old(target.creditClaims) + ClaimCopies(claims[..i], firstId)
    {
      target.AddCreditClaim(claims[i].(id := firstId + i));
      assert ClaimCopies(claims[..i + 1], firstId) == ClaimCopies(claims[..i], firstId) + [claims[i].(id := firstId + i)];
      i := i + 1;
    }
    assert claims[..i] == claims;
  }

  /** An amendment of `o`: same owner, year and jurisdiction, DRAFT, and copies of all of `o`'s items numbered from `id + 1`. */
  ghost predicate AmendmentOf(a: TaxFiling, o: TaxFiling, id: nat)
    reads a, o
  {
    BuiltAs(a, id, o.userId, o.taxYear, o.jurisdiction, Amendment, Some(o.id))
    && a.incomeItems == IncomeCopies(o.incomeItems, id + 1)
    && a.deductionItems == DeductionCopies(o.deductionItems, id + 1 + |o.incomeItems|)
    && a.creditClaims == ClaimCopies(o.creditClaims, id + 1 + |o.incomeItems| + |o.deductionItems|)
  }

  /** Builds the amendment and its copied items, taking its ids from `first` on. */
  method BuildAmendment(o: TaxFiling, first: nat) returns (a: TaxFiling)
    ensures fresh(a) && AmendmentOf(a, o, first)
  {
    a := new TaxFiling(first, o.userId, o.taxYear, o.jurisdiction, Draft, Some(Amendment), Some(o.id));
    CopyIncomeItems(a, o.incomeItems, first + 1);
    CopyDeductionItems(a, o.deductionItems, first + 1 + |o.incomeItems|);
    CopyCreditClaims(a, o.creditClaims, first + 1 + |o.incomeItems| + |o.deductionItems|);
  }

  /**
   * `createAmendment`: FILING_NOT_FOUND, ACCESS_DENIED, then
   * ORIGINAL_NOT_SUBMITTED unless the filing is SUBMITTED; otherwise a new
   * DRAFT AMENDMENT pointing at it, with copies of all its items, is saved.
   */
  method CreateAmendment(repo: TaxFilingRepository, originalFilingId: nat, userId: nat)
    returns (r: Result<FilingResponse, ErrorCode>)
    requires repo.Valid()
    modifies repo
    ensures repo.Valid()
    ensures r.Failure? ==> unchanged(repo)
    ensures old(FindOwnedFiling(repo, originalFilingId, userId)).Failure? ==> r == Failure(old(FindOwnedFiling(repo, originalFilingId, userId)).error)
    ensures (old(FindOwnedFiling(repo, originalFilingId, userId)).Success?
             && old(FindOwnedFiling(repo, originalFilingId, userId).value.status) != Submitted
             ==> r == Failure(OriginalNotSubmitted))
    ensures r.Success? <==> (old(FindOwnedFiling(repo, originalFilingId, userId)).Success?
                             && old(FindOwnedFiling(repo, originalFilingId, userId).value.status) == Submitted)
    ensures r.Success? ==> |repo.filings| == |old(repo.filings)| + 1 && repo.filings[..|old(repo.filings)|] == old(repo.filings)
    ensures r.Success? ==>
      var a := repo.filings[|repo.filings| - 1];
      var o := old(FindOwnedFiling(repo, originalFilingId, userId)).value;
      fresh(a) && AmendmentOf(a, o, old(repo.nextId)) && r.value == ToResponse(a)
  {
    var found := FindOwnedFiling(repo, originalFilingId, userId);
    if found.Failure? {
      return Failure(found.error);
    }
    var o := found.value;
    if o.status != Submitted {
      return Failure(OriginalNotSubmitted);
    }
    var first := repo.ReserveIds(1 + |o.incomeItems| + |o.deductionItems| + |o.creditClaims|);
    var a := BuildAmendment(o, first);
    repo.Add(a);
    assert AmendmentOf(a, o, first);
    assert repo.filings[..|old(repo.filings)|] == old(repo.filings);
    r := Success(ToResponse(a));
  }

  /** The amendment starts with the original's totals: the same income, deductions and claims. */
  lemma AmendmentKeepsTotals(a: TaxFiling, o: TaxFiling, id: nat)
    requires AmendmentOf(a, o, id)
    ensures ToSummaryResponse(Some(a)).value.totalIncome == ToSummaryResponse(Some(o)).value.totalIncome
    ensures ToSummaryResponse(Some(a)).value.totalDeductions == ToSummaryResponse(Some(o)).value.totalDeductions
    ensures ToSummaryResponse(Some(a)).value.totalCredits == ToSummaryResponse(Some(o)).value.totalCredits
    ensures (ToSummaryResponse(Some(a)).value.incomeItemCount == ToSummaryResponse(Some(o)).value.incomeItemCount
             && ToSummaryResponse(Some(a)).value.deductionItemCount == ToSummaryResponse(Some(o)).value.deductionItemCount
             && ToSummaryResponse(Some(a)).value.creditClaimCount == ToSummaryResponse(Some(o)).value.creditClaimCount)
  {
    SumCongruent(a.incomeItems, IncomeAmount, o.incomeItems, IncomeAmount);
    SumCongruent(a.deductionItems, DeductionAmount, o.deductionItems, DeductionAmount);
    SumCongruent(a.creditClaims, ClaimedAmount, o.creditClaims, ClaimedAmount);
  }

  // ---------------------------------------------------------------------
  // Income items
  // ---------------------------------------------------------------------

  /** `addIncomeItem`: the item, with a new id, goes to the end of an editable filing's income items. */
  method AddIncomeItem(repo: TaxFilingRepository, filingId: nat, dto: IncomeItemDto, userId: nat)
    returns (r: Result<FilingResponse, ErrorCode>)
    requires repo.Valid()
    modifies repo`nextId, EditTarget(repo, filingId, userId)`incomeItems
    ensures repo.Valid() && repo.filings == old(repo.filings)
    ensures old(FindEditableFiling(repo, filingId, userId)).Failure? ==>
      r == Failure(old(FindEditableFiling(repo, filingId, userId)).error) && repo.nextId == old(repo.nextId)
    ensures old(FindEditableFiling(repo, filingId, userId)).Success? ==>
      var f := old(FindEditableFiling(repo, filingId, userId)).value;
      f.incomeItems == old(f.incomeItems) + [ToIncomeItemEntity(dto, old(repo.nextId))] && r == Success(ToResponse(f))
  {
    var found := FindEditableFiling(repo, filingId, userId);
    if found.Failure? {
      return Failure(found.error);
    }
    var f := found.value;
    var id := repo.NewId();
    f.AddIncomeItem(ToIncomeItemEntity(dto, id));
    r := Success(ToResponse(f));
  }

  /** The setters of `updateIncomeItem`: every field from the request, the id kept, the withholding as sent. */
  function UpdatedIncomeItem(item: IncomeItem, dto: IncomeItemDto): (r: IncomeItem)
    ensures r.id == item.id && r.incomeType == dto.incomeType && r.source == dto.source
    ensures r.amount == dto.amount && r.taxWithheld == dto.taxWithheld
  {
    item.(incomeType := dto.incomeType, source := dto.source, amount := dto.amount, taxWithheld := dto.taxWithheld)
  }

  /**
   * `updateIncomeItem`: the first income item with the id takes the
   * request's fields in place; ITEM_NOT_FOUND, and nothing changes, when
   * there is none.
   */
  method UpdateIncomeItem(repo: TaxFilingRepository, filingId: nat, itemId: nat, dto: IncomeItemDto, userId: nat)
    returns (r: Result<FilingResponse, ErrorCode>)
    requires repo.Valid()
    modifies EditTarget(repo, filingId, userId)`incomeItems
    ensures repo.Valid()
    ensures old(FindEditableFiling(repo, filingId, userId)).Failure? ==> r == Failure(old(FindEditableFiling(repo, filingId, userId)).error)
    ensures old(FindEditableFiling(repo, filingId, userId)).Success? ==>
      var f := old(FindEditableFiling(repo, filingId, userId)).value;
      var i := IndexOfKey(old(f.incomeItems), IncomeItemId, itemId);
      if i.None? then r == Failure(ItemNotFound) && f.incomeItems == old(f.incomeItems)
      else f.incomeItems == old(f.incomeItems)[i.value := UpdatedIncomeItem(old(f.incomeItems)[i.value], dto)]
           && r == Success(ToResponse(f))
  {
    var found := FindEditableFiling(repo, filingId, userId);
    if found.Failure? {
      return Failure(found.error);
    }
    var f := found.value;
    var i := IndexOfKey(f.incomeItems, IncomeItemId, itemId);
    if i.None? {
      return Failure(ItemNotFound);
    }
    f.incomeItems := f.incomeItems[i.value := UpdatedIncomeItem(f.incomeItems[i.value], dto)];
    r := Success(ToResponse(f));
  }

  /**
   * `removeIncomeItem`: `List.remove` of the first income item with the id,
   * which takes out exactly that slot; ITEM_NOT_FOUND when there is none.
   */
  method RemoveIncomeItem(repo: TaxFilingRepository, filingId: nat, itemId: nat, userId: nat)
    returns (r: Result<FilingResponse, ErrorCode>)
    requires repo.Valid()
    modifies EditTarget(repo, filingId, userId)`incomeItems
    ensures repo.Valid()
    ensures old(FindEditableFiling(repo, filingId, userId)).Failure? ==> r == Failure(old(FindEditableFiling(repo, filingId, userId)).error)
    ensures old(FindEditableFiling(repo, filingId, userId)).Success? ==>
      var f := old(FindEditableFiling(repo, filingId, userId)).value;
      var i := IndexOfKey(old(f.incomeItems), IncomeItemId, itemId);
      if i.None? then r == Failure(ItemNotFound) && f.incomeItems == old(f.incomeItems)
      else f.incomeItems == old(f.incomeItems)[..i.value] + old(f.incomeItems)[i.value + 1..]
           && r == Success(ToResponse(f))
  {
    var found := FindEditableFiling(repo, filingId, userId);
    if found.Failure? {
      return Failure(found.error);
    }
    var f := found.value;
    var i := IndexOfKey(f.incomeItems, IncomeItemId, itemId);
    if i.None? {
      return Failure(ItemNotFound);
    }
    RemoveFirstAtKey(f.incomeItems, IncomeItemId, itemId);
    f.RemoveIncomeItem(f.incomeItems[i.value]);
    r := Success(ToResponse(f));
  }

  // ---------------------------------------------------------------------
  // Deduction items
  // ---------------------------------------------------------------------

  /** `addDeductionItem`: the item, with a new id, goes to the end of an editable filing's deduction items. */
  method AddDeductionItem(repo: TaxFilingRepository, filingId: nat, dto: DeductionItemDto, userId: nat)
    returns (r: Result<FilingResponse, ErrorCode>)
    requires repo.Valid()
    modifies repo`nextId, EditTarget(repo, filingId, userId)`deductionItems
    ensures repo.Valid() && repo.filings == old(repo.filings)
    ensures old(FindEditableFiling(repo, filingId, userId)).Failure? ==>
      r == Failure(old(FindEditableFiling(repo, filingId, userId)).error) && repo.nextId == old(repo.nextId)
    ensures old(FindEditableFiling(repo, filingId, userId)).Success? ==>
      var f := old(FindEditableFiling(repo, filingId, userId)).value;
      f.deductionItems == old(f.deductionItems) + [ToDeductionItemEntity(dto, old(repo.nextId))] && r == Success(ToResponse(f))
  {
    var found := FindEditableFiling(repo, filingId, userId);
    if found.Failure? {
      return Failure(found.error);
    }
    var f := found.value;
    var id := repo.NewId();
    f.AddDeductionItem(ToDeductionItemEntity(dto, id));
    r := Success(ToResponse(f));
  }

  /** The setters of `updateDeductionItem`. */
  function UpdatedDeductionItem(item: DeductionItem, dto: DeductionItemDto): (r: DeductionItem)
    ensures r.id == item.id && r.deductionType == dto.deductionType
    ensures r.description == dto.description && r.amount == dto.amount
  {
    item.(deductionType := dto.deductionType, description := dto.description, amount := dto.amount)
  }

  /** `updateDeductionItem`: in place on the first deduction item with the id, or ITEM_NOT_FOUND. */
  method UpdateDeductionItem(repo: TaxFilingRepository, filingId: nat, itemId: nat, dto: DeductionItemDto, userId: nat)
    returns (r: Result<FilingResponse, ErrorCode>)
    requires repo.Valid()
    modifies EditTarget(repo, filingId, userId)`deductionItems
    ensures repo.Valid()
    ensures old(FindEditableFiling(repo, filingId, userId)).Failure? ==> r == Failure(old(FindEditableFiling(repo, filingId, userId)).error)
    ensures old(FindEditableFiling(repo, filingId, userId)).Success? ==>
      var f := old(FindEditableFiling(repo, filingId, userId)).value;
      var i := IndexOfKey(old(f.deductionItems), DeductionItemId, itemId);
      if i.None? then r == Failure(ItemNotFound) && f.deductionItems == old(f.deductionItems)
      else f.deductionItems == old(f.deductionItems)[i.value := UpdatedDeductionItem(old(f.deductionItems)[i.value], dto)]
           && r == Success(ToResponse(f))
  {
    var found := FindEditableFiling(repo, filingId, userId);
    if found.Failure? {
      return Failure(found.error);
    }
    var f := found.value;
    var i := IndexOfKey(f.deductionItems, DeductionItemId, itemId);
    if i.None? {
      return Failure(ItemNotFound);
    }
    f.deductionItems := f.deductionItems[i.value := UpdatedDeductionItem(f.deductionItems[i.value], dto)];
    r := Success(ToResponse(f));
  }

  /** `removeDeductionItem`: takes out the first deduction item with the id, or ITEM_NOT_FOUND. */
  method RemoveDeductionItem(repo: TaxFilingRepository, filingId: nat, itemId: nat, userId: nat)
    returns (r: Result<FilingResponse, ErrorCode>)
    requires repo.Valid()
    modifies EditTarget(repo, filingId, userId)`deductionItems
    ensures repo.Valid()
    ensures old(FindEditableFiling(repo, filingId, userId)).Failure? ==> r == Failure(old(FindEditableFiling(repo, filingId, userId)).error)
    ensures old(FindEditableFiling(repo, filingId, userId)).Success? ==>
      var f := old(FindEditableFiling(repo, filingId, userId)).value;
      var i := IndexOfKey(old(f.deductionItems), DeductionItemId, itemId);
      if i.None? then r == Failure(ItemNotFound) && f.deductionItems == old(f.deductionItems)
      else f.deductionItems == old(f.deductionItems)[..i.value] + old(f.deductionItems)[i.value + 1..]
           && r == Success(ToResponse(f))
  {
    var found := FindEditableFiling(repo, filingId, userId);
    if found.Failure? {
      return Failure(found.error);
    }
    var f := found.value;
    var i := IndexOfKey(f.deductionItems, DeductionItemId, itemId);
    if i.None? {
      return Failure(ItemNotFound);
    }
    RemoveFirstAtKey(f.deductionItems, DeductionItemId, itemId);
    f.RemoveDeductionItem(f.deductionItems[i.value]);
    r := Success(ToResponse(f));
  }

  // ---------------------------------------------------------------------
  // Credit claims
  // ---------------------------------------------------------------------

  /** `addCreditClaim`: the claim, with a new id, goes to the end of an editable filing's credit claims. */
  method AddCreditClaim(repo: TaxFilingRepository, filingId: nat, dto: CreditClaimDto, userId: nat)
    returns (r: Result<FilingResponse, ErrorCode>)
    requires repo.Valid()
    modifies repo`nextId, EditTarget(repo, filingId, userId)`creditClaims
    ensures repo.Valid() && repo.filings == old(repo.filings)
    ensures old(FindEditableFiling(repo, filingId, userId)).Failure? ==>
      r == Failure(old(FindEditableFiling(repo, filingId, userId)).error) && repo.nextId == old(repo.nextId)
    ensures old(FindEditableFiling(repo, filingId, userId)).Success? ==>
      var f := old(FindEditableFiling(repo, filingId, userId)).value;
      f.creditClaims == old(f.creditClaims) + [ToCreditClaimEntity(dto, old(repo.nextId))] && r == Success(ToResponse(f))
  {
    var found := FindEditableFiling(repo, filingId, userId);
    if found.Failure? {
      return Failure(found.error);
    }
    var f := found.value;
    var id := repo.NewId();
    f.AddCreditClaim(ToCreditClaimEntity(dto, id));
    r := Success(ToResponse(f));
  }

  /** The setters of `updateCreditClaim`. */
  function UpdatedCreditClaim(claim: CreditClaim, dto: CreditClaimDto): (r: CreditClaim)
    ensures r.id == claim.id && r.creditType == dto.creditType && r.claimedAmount == dto.claimedAmount
  {
    claim.(creditType := dto.creditType, claimedAmount := dto.claimedAmount)
  }

  /** `updateCreditClaim`: in place on the first claim with the id, or CLAIM_NOT_FOUND. */
  method UpdateCreditClaim(repo: TaxFilingRepository, filingId: nat, claimId: nat, dto: CreditClaimDto, userId: nat)
    returns (r: Result<FilingResponse, ErrorCode>)
    requires repo.Valid()
    modifies EditTarget(repo, filingId, userId)`creditClaims
    ensures repo.Valid()
    ensures old(FindEditableFiling(repo, filingId, userId)).Failure? ==> r == Failure(old(FindEditableFiling(repo, filingId, userId)).error)
    ensures old(FindEditableFiling(repo, filingId, userId)).Success? ==>
      var f := old(FindEditableFiling(repo, filingId, userId)).value;
      var i := IndexOfKey(old(f.creditClaims), CreditClaimId, claimId);
      if i.None? then r == Failure(ClaimNotFound) && f.creditClaims == old(f.creditClaims)
      else f.creditClaims == old(f.creditClaims)[i.value := UpdatedCreditClaim(old(f.creditClaims)[i.value], dto)]
           && r == Success(ToResponse(f))
  {
    var found := FindEditableFiling(repo, filingId, userId);
    if found.Failure? {
      return Failure(found.error);
    }
    var f := found.value;
    var i := IndexOfKey(f.creditClaims, CreditClaimId, claimId);
    if i.None? {
      return Failure(ClaimNotFound);
    }
    f.creditClaims := f.creditClaims[i.value := UpdatedCreditClaim(f.creditClaims[i.value], dto)];
    r := Success(ToResponse(f));
  }

  /** `removeCreditClaim`: takes out the first claim with the id, or CLAIM_NOT_FOUND. */
  method RemoveCreditClaim(repo: TaxFilingRepository, filingId: nat, claimId: nat, userId: nat)
    returns (r: Result<FilingResponse, ErrorCode>)
    requires repo.Valid()
    modifies EditTarget(repo, filingId, userId)`creditClaims
    ensures repo.Valid()
    ensures old(FindEditableFiling(repo, filingId, userId)).Failure? ==> r == Failure(old(FindEditableFiling(repo, filingId, userId)).error)
    ensures old(FindEditableFiling(repo, filingId, userId)).Success? ==>
      var f := old(FindEditableFiling(repo, filingId, userId)).value;
      var i := IndexOfKey(old(f.creditClaims), CreditClaimId, claimId);
      if i.None? then r == Failure(ClaimNotFound) && f.creditClaims == old(f.creditClaims)
      else f.creditClaims == old(f.creditClaims)[..i.value] + old(f.creditClaims)[i.value + 1..]
           && r == Success(ToResponse(f))
  {
    var found := FindEditableFiling(repo, filingId, userId);
    if found.Failure? {
      return Failure(found.error);
    }
    var f := found.value;
    var i := IndexOfKey(f.creditClaims, CreditClaimId, claimId);
    if i.None? {
      return Failure(ClaimNotFound);
    }
    RemoveFirstAtKey(f.creditClaims, CreditClaimId, claimId);
    f.RemoveCreditClaim(f.creditClaims[i.value]);
    r := Success(ToResponse(f));
  }

  // ---------------------------------------------------------------------
  // What the item operations promise together
  // ---------------------------------------------------------------------

  /**
   * After an update, looking the item up by its id finds the updated item,
   * and reading it back gives exactly the request with the item's id
   * (the withholding included, absent or not).
   */
  lemma UpdatedIncomeItemReadsBack(items: seq<IncomeItem>, itemId: nat, dto: IncomeItemDto)
    requires IndexOfKey(items, IncomeItemId, itemId).Some?
    ensures var i := IndexOfKey(items, IncomeItemId, itemId).value;
      var updated := items[i := UpdatedIncomeItem(items[i], dto)];
      FindByKey(updated, IncomeItemId, itemId) == Some(updated[i])
      && ToIncomeItemDto(updated[i]) == dto.(id := Some(itemId))
  {
    var i := IndexOfKey(items, IncomeItemId, itemId).value;
    IndexOfKeyAfterUpdate(items, IncomeItemId, itemId, UpdatedIncomeItem(items[i], dto));
  }

  lemma UpdatedDeductionItemReadsBack(items: seq<DeductionItem>, itemId: nat, dto: DeductionItemDto)
    requires IndexOfKey(items, DeductionItemId, itemId).Some?
    ensures var i := IndexOfKey(items, DeductionItemId, itemId).value;
      var updated := items[i := UpdatedDeductionItem(items[i], dto)];
      FindByKey(updated, DeductionItemId, itemId) == Some(updated[i])
      && ToDeductionItemDto(updated[i]) == dto.(id := Some(itemId))
  {
    var i := IndexOfKey(items, DeductionItemId, itemId).value;
    IndexOfKeyAfterUpdate(items, DeductionItemId, itemId, UpdatedDeductionItem(items[i], dto));
  }

  lemma UpdatedCreditClaimReadsBack(claims: seq<CreditClaim>, claimId: nat, dto: CreditClaimDto)
    requires IndexOfKey(claims, CreditClaimId, claimId).Some?
    ensures var i := IndexOfKey(claims, CreditClaimId, claimId).value;
      var updated := claims[i := UpdatedCreditClaim(claims[i], dto)];
      FindByKey(updated, CreditClaimId, claimId) == Some(updated[i])
      && ToCreditClaimDto(updated[i]) == dto.(id := Some(claimId))
  {
    var i := IndexOfKey(claims, CreditClaimId, claimId).value;
    IndexOfKeyAfterUpdate(claims, CreditClaimId, claimId, UpdatedCreditClaim(claims[i], dto));
  }

  /** Removing by id the item just added under a fresh id gives back the list as it was. */
  lemma RemoveUndoesAdd(items: seq<IncomeItem>, dto: IncomeItemDto, id: nat)
    requires forall k :: 0 <= k < |items| ==> items[k].id != id
    ensures var added := items + [ToIncomeItemEntity(dto, id)];
      var i := IndexOfKey(added, IncomeItemId, id);
      i == Some(|items|) && added[..i.value] + added[i.value + 1..] == items
  {
    var added := items + [ToIncomeItemEntity(dto, id)];
    IndexOfKeyAfterAppend(items, IncomeItemId, ToIncomeItemEntity(dto, id));
    assert added[..|items|] == items;
  }

  // ---------------------------------------------------------------------
  // Deletion and the DRAFT <-> READY moves
  // ---------------------------------------------------------------------

  /**
   * `deleteFiling`: FILING_NOT_FOUND, ACCESS_DENIED, CANNOT_DELETE_SUBMITTED;
   * otherwise the filing goes, and with it (by cascade) its calculation
   * runs and its submission record.
   */
  method DeleteFiling(repo: TaxFilingRepository, runs: CalculationRunRepository, records: SubmissionRecordRepository,
                      filingId: nat, userId: nat)
    returns (r: Result<(), ErrorCode>)
    requires repo.Valid() && runs.Valid() && records.Valid()
    modifies repo`filings, runs`runs, records`records
    ensures repo.Valid() && runs.Valid() && records.Valid()
    ensures r.Failure? ==> repo.filings == old(repo.filings) && runs.runs == old(runs.runs) && records.records == old(records.records)
    ensures old(FindOwnedFiling(repo, filingId, userId)).Failure? ==> r == Failure(old(FindOwnedFiling(repo, filingId, userId)).error)
    ensures (old(FindOwnedFiling(repo, filingId, userId)).Success? && old(FindOwnedFiling(repo, filingId, userId).value.status) == Submitted
             ==> r == Failure(CannotDeleteSubmitted))
    ensures r.Success? <==> (old(FindOwnedFiling(repo, filingId, userId)).Success?
                             && old(FindOwnedFiling(repo, filingId, userId).value.status) != Submitted)
    ensures r.Success? ==>
      var i := IndexOfKey(old(repo.filings), FilingId, filingId);
      i.Some? && repo.filings == old(repo.filings)[..i.value] + old(repo.filings)[i.value + 1..]
    ensures r.Success? ==> repo.FindById(filingId).None?
    ensures r.Success? ==> runs.runs == RemoveWhereKey(old(runs.runs), RunFilingId, filingId)
    ensures r.Success? ==> records.records == RemoveWhereKey(old(records.records), RecordFilingId, filingId)
  {
    var found := FindOwnedFiling(repo, filingId, userId);
    if found.Failure? {
      return Failure(found.error);
    }
    if found.value.status == Submitted {
      return Failure(CannotDeleteSubmitted);
    }
    repo.Remove(filingId);
    runs.RemoveForFiling(filingId);
    records.RemoveForFiling(filingId);
    r := Success(());
  }

  /** The status `markAsReady` moves to, or why it refuses: only a DRAFT with an income item becomes READY. */
  function ReadyStatus(status: FilingStatus, incomeItemCount: nat): (r: Result<FilingStatus, ErrorCode>)
    ensures status != Draft ==> r == Failure(InvalidStatus)
    ensures status == Draft && incomeItemCount == 0 ==> r == Failure(IncompleteFiling)
    ensures r.Success? <==> status == Draft && incomeItemCount > 0
    ensures r.Success? ==> r.value == Ready
  {
    if status != Draft then Failure(InvalidStatus)
    else if incomeItemCount == 0 then Failure(IncompleteFiling)
    else Success(Ready)
  }

  /** The status `unmarkAsReady` moves to, or why it refuses: only READY goes back to DRAFT. */
  function DraftStatus(status: FilingStatus): (r: Result<FilingStatus, ErrorCode>)
    ensures r.Success? <==> status == Ready
    ensures r.Failure? ==> r.error == InvalidStatus
    ensures r.Success? ==> r.value == Draft
  {
    if status != Ready then Failure(InvalidStatus) else Success(Draft)
  }

  /**
   * The two moves undo each other, and neither leads to or away from
   * SUBMITTED: only submission reaches that status, and nothing leaves it.
   */
  lemma ReadyMovesAreInverse(status: FilingStatus, incomeItemCount: nat)
    ensures ReadyStatus(status, incomeItemCount).Success? ==>
      DraftStatus(ReadyStatus(status, incomeItemCount).value) == Success(status)
    ensures DraftStatus(status).Success? && incomeItemCount > 0 ==>
      ReadyStatus(DraftStatus(status).value, incomeItemCount) == Success(status)
    ensures ReadyStatus(status, incomeItemCount).Success? ==> status != Submitted && ReadyStatus(status, incomeItemCount).value != Submitted
    ensures DraftStatus(status).Success? ==> status != Submitted && DraftStatus(status).value != Submitted
  {
  }

  /** `markAsReady`: an owned DRAFT filing with at least one income item becomes READY. */
  method MarkAsReady(repo: TaxFilingRepository, filingId: nat, userId: nat)
    returns (r: Result<FilingResponse, ErrorCode>)
    requires repo.Valid()
    modifies OwnedTarget(repo, filingId, userId)`status
    ensures repo.Valid()
    ensures old(FindOwnedFiling(repo, filingId, userId)).Failure? ==> r == Failure(old(FindOwnedFiling(repo, filingId, userId)).error)
    ensures old(FindOwnedFiling(repo, filingId, userId)).Success? ==>
      var f := old(FindOwnedFiling(repo, filingId, userId)).value;
      var next := old(ReadyStatus(f.status, |f.incomeItems|));
      if next.Failure? then r == Failure(next.error) && f.status == old(f.status)
      else f.status == Ready && r == Success(ToResponse(f))
  {
    var found := FindOwnedFiling(repo, filingId, userId);
    if found.Failure? {
      return Failure(found.error);
    }
    var f := found.value;
    var next := ReadyStatus(f.status, |f.incomeItems|);
    if next.Failure? {
      return Failure(next.error);
    }
    f.status := next.value;
    r := Success(ToResponse(f));
  }

  /** `unmarkAsReady`: an owned READY filing goes back to DRAFT. */
  method UnmarkAsReady(repo: TaxFilingRepository, filingId: nat, userId: nat)
    returns (r: Result<FilingResponse, ErrorCode>)
    requires repo.Valid()
    modifies OwnedTarget(repo, filingId, userId)`status
    ensures repo.Valid()
    ensures old(FindOwnedFiling(repo, filingId, userId)).Failure? ==> r == Failure(old(FindOwnedFiling(repo, filingId, userId)).error)
    ensures old(FindOwnedFiling(repo, filingId, userId)).Success? ==>
      var f := old(FindOwnedFiling(repo, filingId, userId)).value;
      if old(f.status) != Ready then r == Failure(InvalidStatus) && f.status == old(f.status)
      else f.status == Draft && r == Success(ToResponse(f))
  {
    var found := FindOwnedFiling(repo, filingId, userId);
    if found.Failure? {
      return Failure(found.error);
    }
    var f := found.value;
    var next := DraftStatus(f.status);
    if next.Failure? {
      return Failure(next.error);
    }
    f.status := next.value;
    r := Success(ToResponse(f));
  }
}
