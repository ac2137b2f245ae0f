// The tax-rule service: creating rule versions, their DRAFT -> ACTIVE ->
// DEPRECATED lifecycle, and editing the brackets and rules of a DRAFT
// version. Every failure is an `ApiException` that rolls the transaction
// back, so a failing call leaves the repository as it was.
module TaxRuleService {
  import opened Wrappers
  import opened Errors
  import opened Calendar
  import opened Collections
  import opened TaxRules
  import opened TaxRuleMapping
  import opened Repositories

  datatype CreateTaxRuleVersionRequest = CreateTaxRuleVersionRequest(
    name: string,
    jurisdiction: string,
    taxYear: int,
    effectiveFrom: Date,
    effectiveTo: Option<Date>,
    brackets: Option<seq<TaxBracketDto>>,
    creditRules: Option<seq<TaxCreditRuleDto>>,
    deductionRules: Option<seq<DeductionRuleDto>>)

  // ---------------------------------------------------------------------
  // Lookups
  // ---------------------------------------------------------------------

  /** `findRuleVersionById`: the version, or RULE_VERSION_NOT_FOUND. */
  function FindRuleVersionById(repo: TaxRuleVersionRepository, id: nat): (r: Result<TaxRuleVersion, ErrorCode>)
    reads repo
    ensures r.Failure? <==> forall k :: 0 <= k < |repo.versions| ==> repo.versions[k].id != id
    ensures r.Failure? ==> r.error == RuleVersionNotFound
    ensures r.Success? ==> r.value in repo.versions && r.value.id == id
  {
    match repo.FindById(id)
    case None => Failure(RuleVersionNotFound)
    case Some(v) => Success(v)
  }

  /** `findDraftRuleVersion`: like the lookup by id, and RULE_NOT_EDITABLE unless the version is DRAFT. */
  function FindDraftRuleVersion(repo: TaxRuleVersionRepository, id: nat): (r: Result<TaxRuleVersion, ErrorCode>)
    reads repo, repo.versions
    ensures repo.FindById(id).None? ==> r == Failure(RuleVersionNotFound)
    ensures repo.FindById(id).Some? && repo.FindById(id).value.status != Draft ==> r == Failure(RuleNotEditable)
    ensures r.Success? <==> repo.FindById(id).Some? && repo.FindById(id).value.status == Draft
    ensures r.Success? ==> r.value == repo.FindById(id).value && r.value in repo.versions
  {
    match FindRuleVersionById(repo, id)
    case Failure(e) => Failure(e)
    case Success(v) => if v.status != Draft then Failure(RuleNotEditable) else Success(v)
  }

  /** `getActiveRuleVersion`: the ACTIVE version of a key, or RULE_NOT_FOUND. */
  function GetActiveRuleVersion(repo: TaxRuleVersionRepository, jurisdiction: string, taxYear: int)
    : (r: Result<TaxRuleVersion, ErrorCode>)
    reads repo, repo.versions
    ensures r.Failure? <==> forall k :: 0 <= k < |repo.versions| ==> !IsActiveFor(repo.versions[k], jurisdiction, taxYear)
    ensures r.Failure? ==> r.error == RuleNotFound
    ensures r.Success? ==> r.value in repo.versions && IsActiveFor(r.value, jurisdiction, taxYear)
  {
    match repo.FindActiveRule(jurisdiction, taxYear)
    case None => Failure(RuleNotFound)
    case Some(v) => Success(v)
  }

  /** With a valid table, the ACTIVE version of a key is the one `getActiveRuleVersion` returns. */
  lemma ActiveRuleVersionIsTheActiveOne(repo: TaxRuleVersionRepository, k: nat)
    requires repo.Valid() && k < |repo.versions| && repo.versions[k].status == Active
    ensures GetActiveRuleVersion(repo, repo.versions[k].jurisdiction, repo.versions[k].taxYear) == Success(repo.versions[k])
  {
    ActiveRuleUnique(repo, repo.versions[k].jurisdiction, repo.versions[k].taxYear, k);
  }

  // ---------------------------------------------------------------------
  // Creation
  // ---------------------------------------------------------------------

  /** The entities built from a list of DTOs, the `k`-th one with id `firstId + k`. */
  function BracketEntities(dtos: seq<TaxBracketDto>, firstId: nat): (r: seq<TaxBracket>)
    ensures |r| == |dtos|
    ensures forall k :: 0 <= k < |dtos| ==> r[k] == ToBracketEntity(dtos[k], firstId + k)
  {
    seq(|dtos|, k requires 0 <= k < |dtos| => ToBracketEntity(dtos[k], firstId + k))
  }

  function CreditRuleEntities(dtos: seq<TaxCreditRuleDto>, firstId: nat): (r: seq<TaxCreditRule>)
    ensures |r| == |dtos|
    ensures forall k :: 0 <= k < |dtos| ==> r[k] == ToCreditRuleEntity(dtos[k], firstId + k)
  {
    seq(|dtos|, k requires 0 <= k < |dtos| => ToCreditRuleEntity(dtos[k], firstId + k))
  }

  function DeductionRuleEntities(dtos: seq<DeductionRuleDto>, firstId: nat): (r: seq<DeductionRule>)
    ensures |r| == |dtos|
    ensures forall k :: 0 <= k < |dtos| ==> r[k] == ToDeductionRuleEntity(dtos[k], firstId + k)
  {
    seq(|dtos|, k requires 0 <= k < |dtos| => ToDeductionRuleEntity(dtos[k], firstId + k))
  }

  /** A null list in the request adds nothing. */
  function OrEmpty<T>(s: Option<seq<T>>): (r: seq<T>)
    ensures s.None? ==> r == []
    ensures s.Some? ==> r == s.value
  {
    s.GetOr([])
  }

  /**
   * `request.getBrackets().forEach(dto -> ruleVersion.addBracket(toBracketEntity(dto)))`,
   * the new brackets numbered from `firstId`.
   */
  method AddBrackets(v: TaxRuleVersion, dtos: seq<TaxBracketDto>, firstId: nat)
    modifies v`brackets
    ensures v.brackets == old(v.brackets) + BracketEntities(dtos, firstId)
  {
    var i := 0;
    while i < |dtos|
      invariant 0 <= i <= |dtos|
      invariant v.brackets == old(v.brackets) + BracketEntities(dtos[..i], firstId)
    {
      v.AddBracket(ToBracketEntity(dtos[i], firstId + i));
      assert BracketEntities(dtos[..i + 1], firstId) == BracketEntities(dtos[..i], firstId) + [ToBracketEntity(dtos[i], firstId + i)];
      i := i + 1;
    }
    assert dtos[..i] == dtos;
  }

  method AddCreditRules(v: TaxRuleVersion, dtos: seq<TaxCreditRuleDto>, firstId: nat)
    modifies v`creditRules
    ensures v.creditRules == old(v.creditRules) + CreditRuleEntities(dtos, firstId)
  {
    var i := 0;
    while i < |dtos|
      invariant 0 <= i <= |dtos|
      invariant v.creditRules == old(v.creditRules) + CreditRuleEntities(dtos[..i], firstId)
    {
      v.AddCreditRule(ToCreditRuleEntity(dtos[i], firstId + i));
      assert CreditRuleEntities(dtos[..i + 1], firstId) == CreditRuleEntities(dtos[..i], firstId) + [ToCreditRuleEntity(dtos[i], firstId + i)];
      i := i + 1;
    }
    assert dtos[..i] == dtos;
  }

  method AddDeductionRules(v: TaxRuleVersion, dtos: seq<DeductionRuleDto>, firstId: nat)
    modifies v`deductionRules
    ensures v.deductionRules == old(v.deductionRules) + DeductionRuleEntities(dtos, firstId)
  {
    var i := 0;
    while i < |dtos|
      invariant 0 <= i <= |dtos|
      invariant v.deductionRules == old(v.deductionRules) + DeductionRuleEntities(dtos[..i], firstId)
    {
      v.AddDeductionRule(ToDeductionRuleEntity(dtos[i], firstId + i));
      assert DeductionRuleEntities(dtos[..i + 1], firstId) == DeductionRuleEntities(dtos[..i], firstId) + [ToDeductionRuleEntity(dtos[i], firstId + i)];
      i := i + 1;
    }
    assert dtos[..i] == dtos;
  }

  /**
   * `v` is the DRAFT version the request describes, with id `id` and number
   * `version`; its brackets, credit rules and deduction rules are the
   * request's, in request order, numbered on from `id + 1`.
   */
  ghost predicate BuiltFrom(v: TaxRuleVersion, request: CreateTaxRuleVersionRequest, id: nat, version: int, createdBy: nat)
    reads v
  {
    var b := |OrEmpty(request.brackets)|;
    var c := |OrEmpty(request.creditRules)|;
    && v.id == id && v.status == Draft && v.version == version
    && v.name == request.name && v.jurisdiction == request.jurisdiction && v.taxYear == request.taxYear
    && v.effectiveFrom == request.effectiveFrom && v.effectiveTo == request.effectiveTo
    && v.createdBy == Some(createdBy)
    && v.brackets == BracketEntities(OrEmpty(request.brackets), id + 1)
    && v.creditRules == CreditRuleEntities(OrEmpty(request.creditRules), id + 1 + b)
    && v.deductionRules == DeductionRuleEntities(OrEmpty(request.deductionRules), id + 1 + b + c)
  }

  /**
   * The builder and the three `forEach` loops of `createTaxRuleVersion`:
   * a DRAFT version with id `id`, its brackets, credit rules and deduction
   * rules numbered on from `id + 1` in request order.
   */
  method BuildRuleVersion(request: CreateTaxRuleVersionRequest, id: nat, nextVersion: int, createdBy: nat)
    returns (v: TaxRuleVersion)
    ensures fresh(v) && BuiltFrom(v, request, id, nextVersion, createdBy)
  {
    var b, c, d := OrEmpty(request.brackets), OrEmpty(request.creditRules), OrEmpty(request.deductionRules);
    v := new TaxRuleVersion(id, request.name, request.jurisdiction, request.taxYear, Some(nextVersion),
                            Draft, request.effectiveFrom, request.effectiveTo, Some(createdBy));
    if request.brackets.Some? {
      AddBrackets(v, b, id + 1);
      assert [] + BracketEntities(b, id + 1) == BracketEntities(b, id + 1);
    }
    assert v.brackets == BracketEntities(b, id + 1);
    if request.creditRules.Some? {
      AddCreditRules(v, c, id + 1 + |b|);
      assert [] + CreditRuleEntities(c, id + 1 + |b|) == CreditRuleEntities(c, id + 1 + |b|);
    }
    assert v.creditRules == CreditRuleEntities(c, id + 1 + |b|);
    if request.deductionRules.Some? {
      AddDeductionRules(v, d, id + 1 + |b| + |c|);
      assert [] + DeductionRuleEntities(d, id + 1 + |b| + |c|) == DeductionRuleEntities(d, id + 1 + |b| + |c|);
    }
    assert v.deductionRules == DeductionRuleEntities(d, id + 1 + |b| + |c|);
  }

  /**
   * `createTaxRuleVersion`: a new DRAFT version numbered one past the
   * highest version of its jurisdiction and year, holding the request's
   * brackets, credit rules and deduction rules in request order, saved
   * with fresh ids.
   */
  method CreateTaxRuleVersion(repo: TaxRuleVersionRepository, request: CreateTaxRuleVersionRequest, createdBy: nat)
    returns (v: TaxRuleVersion)
    requires repo.Valid()
    modifies repo
    ensures fresh(v) && repo.Valid()
    ensures repo.versions == old(repo.versions) + [v]
    ensures BuiltFrom(v, request, old(repo.nextId), old(repo.NextVersionNumber(request.jurisdiction, request.taxYear)), createdBy)
  {
    var nextVersion := repo.NextVersionNumber(request.jurisdiction, request.taxYear);
    var ids := 1 + |OrEmpty(request.brackets)| + |OrEmpty(request.creditRules)| + |OrEmpty(request.deductionRules)|;
    var id := repo.ReserveIds(ids);
    v := BuildRuleVersion(request, id, nextVersion, createdBy);
    ghost var vs := repo.versions;
    assert forall k :: 0 <= k < |vs| ==> VersionsCoexist(vs[k], v) by {
      forall k | 0 <= k < |vs| ensures VersionsCoexist(vs[k], v) {
        assert vs[k].id < id;
        assert HasKey(vs[k], request.jurisdiction, request.taxYear) ==> vs[k].version < nextVersion;
      }
    }
    repo.Add(v);
  }

  /** The entities built from one list carry distinct ids, so each can be deleted on its own. */
  lemma {:induction false} CreatedIdsDistinct(dtos: seq<TaxBracketDto>, firstId: nat, i: nat, j: nat)
    requires i < j < |dtos|
    ensures BracketEntities(dtos, firstId)[i].id < BracketEntities(dtos, firstId)[j].id
  {
    assert BracketEntities(dtos, firstId)[i].id == firstId + i;
    assert BracketEntities(dtos, firstId)[j].id == firstId + j;
  }

  // ---------------------------------------------------------------------
  // Lifecycle
  // ---------------------------------------------------------------------

  /**
   * `after` are the statuses after activating the version at `t`: it is
   * ACTIVE, an ACTIVE version of the same jurisdiction and year is
   * DEPRECATED, every other status is as `before`.
   */
  predicate ActivationStep(vs: seq<TaxRuleVersion>, before: seq<RuleStatus>, after: seq<RuleStatus>, t: nat)
  {
    |before| == |vs| && |after| == |vs| && t < |vs|
    && forall k :: 0 <= k < |vs| ==>
      after[k] == (if k == t then Active
                   else if before[k] == Active && SameRuleKey(vs[k], vs[t]) then Deprecated
                   else before[k])
  }

  /**
   * Activation keeps at most one ACTIVE version per jurisdiction and year,
   * and afterwards the activated version is the one ACTIVE version of its key.
   */
  lemma {:induction false} ActivationKeepsOneActive(vs: seq<TaxRuleVersion>, before: seq<RuleStatus>,
                                                    after: seq<RuleStatus>, t: nat)
    requires OneActivePerKey(vs, before) && ActivationStep(vs, before, after, t)
    ensures OneActivePerKey(vs, after)
    ensures forall k :: 0 <= k < |vs| && SameRuleKey(vs[k], vs[t]) ==> (after[k] == Active <==> k == t)
  {
    forall i, j | 0 <= i < j < |vs| && after[i] == Active && after[j] == Active
      ensures !SameRuleKey(vs[i], vs[j])
    {
      if i == t {
        assert before[j] == Active && !SameRuleKey(vs[j], vs[t]);
      } else if j == t {
        assert before[i] == Active && !SameRuleKey(vs[i], vs[t]);
      } else {
        assert before[i] == Active && before[j] == Active;
      }
    }
  }

  /** The status changes of a successful activation of `v`, the version at `t`. */
  method Activate(repo: TaxRuleVersionRepository, v: TaxRuleVersion, ghost t: nat)
    requires repo.Valid() && t < |repo.versions| && repo.versions[t] == v && v.status == Draft
    modifies repo.versions`status
    ensures repo.Valid()
    ensures ActivationStep(repo.versions, old(Statuses(repo.versions)), Statuses(repo.versions), t)
  {
    var existing := repo.FindActiveRule(v.jurisdiction, v.taxYear);
    if existing.Some? {
      ghost var e :| 0 <= e < |repo.versions| && repo.versions[e] == existing.value;
      DeprecateAndActivate(repo, v, existing.value, t, e);
    } else {
      ActivateAlone(repo, v, t);
    }
  }

  /** The version at `e` is the ACTIVE one of the key of the version at `t`: it is DEPRECATED, `t` ACTIVE. */
  method DeprecateAndActivate(repo: TaxRuleVersionRepository, v: TaxRuleVersion, existing: TaxRuleVersion,
                              ghost t: nat, ghost e: nat)
    requires repo.Valid() && t < |repo.versions| && e < |repo.versions| && repo.versions[t].status == Draft
    requires repo.versions[t] == v && repo.versions[e] == existing
    requires IsActiveFor(repo.versions[e], repo.versions[t].jurisdiction, repo.versions[t].taxYear)
    modifies repo.versions`status
    ensures repo.Valid()
    ensures ActivationStep(repo.versions, old(Statuses(repo.versions)), Statuses(repo.versions), t)
  {
    ghost var vs := repo.versions;
    ghost var before := Statuses(vs);
    VersionsAllDistinct(repo);
    UniqueActiveOfKey(vs, before, t, e);
    existing.status := Deprecated;
    v.status := Active;
    ghost var after := Statuses(vs);
    forall k | 0 <= k < |vs| && k != t && k != e ensures after[k] == before[k] {
      assert vs[k] != vs[t] && vs[k] != vs[e];
    }
    assert ActivationStep(vs, before, after, t);
    ActivationKeepsOneActive(vs, before, after, t);
    ValidWithNewStatuses(repo);
  }

  /** No version of the key of the version at `t` is ACTIVE: `t` becomes ACTIVE. */
  method ActivateAlone(repo: TaxRuleVersionRepository, v: TaxRuleVersion, ghost t: nat)
    requires repo.Valid() && t < |repo.versions| && repo.versions[t] == v && v.status == Draft
    requires forall k :: 0 <= k < |repo.versions| ==>
      !IsActiveFor(repo.versions[k], repo.versions[t].jurisdiction, repo.versions[t].taxYear)
    modifies repo.versions`status
    ensures repo.Valid()
    ensures ActivationStep(repo.versions, old(Statuses(repo.versions)), Statuses(repo.versions), t)
  {
    ghost var vs := repo.versions;
    ghost var before := Statuses(vs);
    VersionsAllDistinct(repo);
    assert forall k :: 0 <= k < |vs| ==> !(before[k] == Active && SameRuleKey(vs[k], vs[t]));
    v.status := Active;
    ghost var after := Statuses(vs);
    forall k | 0 <= k < |vs| && k != t ensures after[k] == before[k] {
      assert vs[k] != vs[t];
    }
    assert ActivationStep(vs, before, after, t);
    ActivationKeepsOneActive(vs, before, after, t);
    ValidWithNewStatuses(repo);
  }

  /** Under the invariant, an ACTIVE version of a key is the only ACTIVE one of that key. */
  lemma UniqueActiveOfKey(vs: seq<TaxRuleVersion>, st: seq<RuleStatus>, t: nat, e: nat)
    requires OneActivePerKey(vs, st) && t < |vs| && e < |vs|
    requires st[e] == Active && SameRuleKey(vs[e], vs[t])
    ensures forall k :: 0 <= k < |vs| && st[k] == Active && SameRuleKey(vs[k], vs[t]) ==> k == e
  {
    forall k | 0 <= k < |vs| && st[k] == Active && SameRuleKey(vs[k], vs[t]) ensures k == e {
      assert SameRuleKey(vs[k], vs[e]) && SameRuleKey(vs[e], vs[k]);
    }
  }

  /**
   * `activateRuleVersion`: RULE_VERSION_NOT_FOUND, then INVALID_STATUS
   * unless DRAFT, then MISSING_BRACKETS when it has none; otherwise the
   * ACTIVE version of the same key is DEPRECATED and this one is ACTIVE.
   */
  method ActivateRuleVersion(repo: TaxRuleVersionRepository, id: nat) returns (r: Result<TaxRuleVersion, ErrorCode>)
    requires repo.Valid()
    modifies repo.versions`status
    ensures repo.Valid()
    ensures repo.FindById(id).None? ==> r == Failure(RuleVersionNotFound)
    ensures repo.FindById(id).Some? && old(repo.FindById(id).value.status) != Draft ==> r == Failure(InvalidStatus)
    ensures (repo.FindById(id).Some? && old(repo.FindById(id).value.status) == Draft
             && |repo.FindById(id).value.brackets| == 0) ==> r == Failure(MissingBrackets)
    ensures r.Failure? ==> unchanged(repo.versions)
    ensures r.Success? ==> (repo.FindById(id) == Some(r.value) && old(r.value.status) == Draft
                            && |r.value.brackets| > 0 && r.value.status == Active
                            && ActivationStep(repo.versions, old(Statuses(repo.versions)), Statuses(repo.versions),
                                              IndexOfKey(repo.versions, RuleVersionId, id).value))
  {
    var found := FindRuleVersionById(repo, id);
    if found.Failure? {
      return Failure(found.error);
    }
    var v := found.value;
    if v.status != Draft {
      return Failure(InvalidStatus);
    }
    if |v.brackets| == 0 {
      return Failure(MissingBrackets);
    }
    ghost var t := IndexOfKey(repo.versions, RuleVersionId, id).value;
    Activate(repo, v, t);
    r := Success(v);
  }

  /**
   * `deprecateRuleVersion`: RULE_VERSION_NOT_FOUND, then ALREADY_DEPRECATED;
   * otherwise only this version's status changes, to DEPRECATED.
   */
  method DeprecateRuleVersion(repo: TaxRuleVersionRepository, id: nat) returns (r: Result<TaxRuleVersion, ErrorCode>)
    requires repo.Valid()
    modifies repo.versions`status
    ensures repo.Valid()
    ensures repo.FindById(id).None? ==> r == Failure(RuleVersionNotFound)
    ensures repo.FindById(id).Some? && old(repo.FindById(id).value.status) == Deprecated ==> r == Failure(AlreadyDeprecated)
    ensures r.Failure? ==> unchanged(repo.versions)
    ensures r.Success? ==> (repo.FindById(id) == Some(r.value) && old(r.value.status) != Deprecated
                            && Statuses(repo.versions)
                               == old(Statuses(repo.versions))[IndexOfKey(repo.versions, RuleVersionId, id).value := Deprecated])
  {
    var found := FindRuleVersionById(repo, id);
    if found.Failure? {
      return Failure(found.error);
    }
    var v := found.value;
    if v.status == Deprecated {
      return Failure(AlreadyDeprecated);
    }
    ghost var vs := repo.versions;
    ghost var before := Statuses(vs);
    ghost var t := IndexOfKey(vs, RuleVersionId, id).value;
    assert vs[t] == v;
    VersionsAllDistinct(repo);
    v.status := Deprecated;
    ghost var after := Statuses(vs);
    forall k | 0 <= k < |vs| ensures after[k] == before[t := Deprecated][k] {
      if k != t {
        assert vs[k] != vs[t];
      }
    }
    assert after == before[t := Deprecated];
    DeprecationKeepsOneActive(vs, before, t);
    ValidWithNewStatuses(repo);
    r := Success(v);
  }

  /** Taking one version out of ACTIVE cannot make two versions of a key ACTIVE. */
  lemma DeprecationKeepsOneActive(vs: seq<TaxRuleVersion>, st: seq<RuleStatus>, t: nat)
    requires OneActivePerKey(vs, st) && t < |vs|
    ensures OneActivePerKey(vs, st[t := Deprecated])
  {
  }

  // ---------------------------------------------------------------------
  // Editing a DRAFT version
  // ---------------------------------------------------------------------

  /** What editing a version may touch: the version, when it is a DRAFT. */
  function DraftTarget(repo: TaxRuleVersionRepository, id: nat): (r: set<TaxRuleVersion>)
    reads repo, repo.versions
    ensures FindDraftRuleVersion(repo, id).Failure? ==> r == {}
    ensures FindDraftRuleVersion(repo, id).Success? ==> r == {FindDraftRuleVersion(repo, id).value}
  {
    match FindDraftRuleVersion(repo, id)
    case Failure(_) => {}
    case Success(v) => {v}
  }

  /** `addBracket`: appends the bracket, with a new id, to a DRAFT version. */
  method AddBracket(repo: TaxRuleVersionRepository, ruleVersionId: nat, dto: TaxBracketDto)
    returns (r: Result<TaxRuleVersion, ErrorCode>)
    requires repo.Valid()
    modifies repo`nextId, DraftTarget(repo, ruleVersionId)`brackets
    ensures repo.Valid() && repo.versions == old(repo.versions)
    ensures r == old(FindDraftRuleVersion(repo, ruleVersionId))
    ensures r.Failure? ==> repo.nextId == old(repo.nextId)
    ensures r.Success? ==> r.value.brackets == old(r.value.brackets) + [ToBracketEntity(dto, old(repo.nextId))]
  {
    r := FindDraftRuleVersion(repo, ruleVersionId);
    if r.Failure? {
      return;
    }
    var id := repo.NewId();
    r.value.AddBracket(ToBracketEntity(dto, id));
    ValidWhenStatusesKept(repo);
  }

  /** `addCreditRule`: appends the credit rule, with a new id, to a DRAFT version. */
  method AddCreditRule(repo: TaxRuleVersionRepository, ruleVersionId: nat, dto: TaxCreditRuleDto)
    returns (r: Result<TaxRuleVersion, ErrorCode>)
    requires repo.Valid()
    modifies repo`nextId, DraftTarget(repo, ruleVersionId)`creditRules
    ensures repo.Valid() && repo.versions == old(repo.versions)
    ensures r == old(FindDraftRuleVersion(repo, ruleVersionId))
    ensures r.Failure? ==> repo.nextId == old(repo.nextId)
    ensures r.Success? ==> r.value.creditRules == old(r.value.creditRules) + [ToCreditRuleEntity(dto, old(repo.nextId))]
  {
    r := FindDraftRuleVersion(repo, ruleVersionId);
    if r.Failure? {
      return;
    }
    var id := repo.NewId();
    r.value.AddCreditRule(ToCreditRuleEntity(dto, id));
    ValidWhenStatusesKept(repo);
  }

  /** `addDeductionRule`: appends the deduction rule, with a new id, to a DRAFT version. */
  method AddDeductionRule(repo: TaxRuleVersionRepository, ruleVersionId: nat, dto: DeductionRuleDto)
    returns (r: Result<TaxRuleVersion, ErrorCode>)
    requires repo.Valid()
    modifies repo`nextId, DraftTarget(repo, ruleVersionId)`deductionRules
    ensures repo.Valid() && repo.versions == old(repo.versions)
    ensures r == old(FindDraftRuleVersion(repo, ruleVersionId))
    ensures r.Failure? ==> repo.nextId == old(repo.nextId)
    ensures r.Success? ==> r.value.deductionRules == old(r.value.deductionRules) + [ToDeductionRuleEntity(dto, old(repo.nextId))]
  {
    r := FindDraftRuleVersion(repo, ruleVersionId);
    if r.Failure? {
      return;
    }
    var id := repo.NewId();
    r.value.AddDeductionRule(ToDeductionRuleEntity(dto, id));
    ValidWhenStatusesKept(repo);
  }

  /**
   * `deleteBracket`: `removeIf` on the brackets of a DRAFT version;
   * BRACKET_NOT_FOUND, and nothing changes, when none has the id.
   */
  method DeleteBracket(repo: TaxRuleVersionRepository, ruleVersionId: nat, bracketId: nat)
    returns (r: Result<TaxRuleVersion, ErrorCode>)
    requires repo.Valid()
    modifies DraftTarget(repo, ruleVersionId)`brackets
    ensures repo.Valid()
    ensures old(FindDraftRuleVersion(repo, ruleVersionId)).Failure? ==> r == old(FindDraftRuleVersion(repo, ruleVersionId))
    ensures old(FindDraftRuleVersion(repo, ruleVersionId)).Success? ==>
      var v := old(FindDraftRuleVersion(repo, ruleVersionId)).value;
      if forall k :: 0 <= k < |old(v.brackets)| ==> old(v.brackets)[k].id != bracketId
      then r == Failure(BracketNotFound) && v.brackets == old(v.brackets)
      else r == Success(v) && v.brackets == RemoveWhereKey(old(v.brackets), BracketId, bracketId)
           && |v.brackets| < |old(v.brackets)|
  {
    r := FindDraftRuleVersion(repo, ruleVersionId);
    if r.Failure? {
      return;
    }
    var v := r.value;
    var remaining := RemoveWhereKey(v.brackets, BracketId, bracketId);
    if |remaining| == |v.brackets| {
      return Failure(BracketNotFound);
    }
    v.brackets := remaining;
    ValidWhenStatusesKept(repo);
  }

  /**
   * `deleteCreditRule`: `removeIf` on the credit rules of a DRAFT version;
   * CREDIT_RULE_NOT_FOUND, and nothing changes, when none has the id.
   */
  method DeleteCreditRule(repo: TaxRuleVersionRepository, ruleVersionId: nat, creditRuleId: nat)
    returns (r: Result<TaxRuleVersion, ErrorCode>)
    requires repo.Valid()
    modifies DraftTarget(repo, ruleVersionId)`creditRules
    ensures repo.Valid()
    ensures old(FindDraftRuleVersion(repo, ruleVersionId)).Failure? ==> r == old(FindDraftRuleVersion(repo, ruleVersionId))
    ensures old(FindDraftRuleVersion(repo, ruleVersionId)).Success? ==>
      var v := old(FindDraftRuleVersion(repo, ruleVersionId)).value;
      if forall k :: 0 <= k < |old(v.creditRules)| ==> old(v.creditRules)[k].id != creditRuleId
      then r == Failure(CreditRuleNotFound) && v.creditRules == old(v.creditRules)
      else r == Success(v) && v.creditRules == RemoveWhereKey(old(v.creditRules), CreditRuleId, creditRuleId)
           && |v.creditRules| < |old(v.creditRules)|
  {
    r := FindDraftRuleVersion(repo, ruleVersionId);
    if r.Failure? {
      return;
    }
    var v := r.value;
    var remaining := RemoveWhereKey(v.creditRules, CreditRuleId, creditRuleId);
    if |remaining| == |v.creditRules| {
      return Failure(CreditRuleNotFound);
    }
    v.creditRules := remaining;
    ValidWhenStatusesKept(repo);
  }

  /**
   * `deleteDeductionRule`: `removeIf` on the deduction rules of a DRAFT version;
   * DEDUCTION_RULE_NOT_FOUND, and nothing changes, when none has the id.
   */
  method DeleteDeductionRule(repo: TaxRuleVersionRepository, ruleVersionId: nat, deductionRuleId: nat)
    returns (r: Result<TaxRuleVersion, ErrorCode>)
    requires repo.Valid()
    modifies DraftTarget(repo, ruleVersionId)`deductionRules
    ensures repo.Valid()
    ensures old(FindDraftRuleVersion(repo, ruleVersionId)).Failure? ==> r == old(FindDraftRuleVersion(repo, ruleVersionId))
    ensures old(FindDraftRuleVersion(repo, ruleVersionId)).Success? ==>
      var v := old(FindDraftRuleVersion(repo, ruleVersionId)).value;
      if forall k :: 0 <= k < |old(v.deductionRules)| ==> old(v.deductionRules)[k].id != deductionRuleId
      then r == Failure(DeductionRuleNotFound) && v.deductionRules == old(v.deductionRules)
      else r == Success(v) && v.deductionRules == RemoveWhereKey(old(v.deductionRules), DeductionRuleId, deductionRuleId)
           && |v.deductionRules| < |old(v.deductionRules)|
  {
    r := FindDraftRuleVersion(repo, ruleVersionId);
    if r.Failure? {
      return;
    }
    var v := r.value;
    var remaining := RemoveWhereKey(v.deductionRules, DeductionRuleId, deductionRuleId);
    if |remaining| == |v.deductionRules| {
      return Failure(DeductionRuleNotFound);
    }
    v.deductionRules := remaining;
    ValidWhenStatusesKept(repo);
  }
}
