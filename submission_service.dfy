// The submission service: submits a filing (reusing its latest calculation
// or calculating it first), writes the submission record under a
// confirmation number, marks the filing SUBMITTED, and reads submissions
// back by filing, by confirmation number and by user.
module SubmissionService {
  import opened Wrappers
  import opened Errors
  import opened Money
  import opened Text
  import opened Calendar
  import opened Collections
  import opened Filings
  import opened TaxRules
  import opened CalculationRuns
  import opened SubmissionRecords
  import opened Repositories
  import opened TaxFilingService
  import opened CalculationService

  datatype SubmitFilingRequest = SubmitFilingRequest(ipAddress: Option<string>, userAgent: Option<string>)

  datatype SubmissionResponse = SubmissionResponse(
    id: nat,
    filingId: nat,
    confirmationNumber: string,
    submittedBy: nat,
    taxYear: int,
    jurisdiction: string,
    totalIncome: Cents,
    totalDeductions: Cents,
    taxableIncome: Cents,
    grossTax: Cents,
    totalCredits: Cents,
    taxWithheld: Cents,
    netTaxOwing: Cents,
    isRefund: bool,
    refundOrOwingAmount: Cents)

  // ---------------------------------------------------------------------
  // The record invariant
  // ---------------------------------------------------------------------

  /** The status of each stored filing, in table order. */
  function FilingStatuses(fs: seq<TaxFiling>): (st: seq<FilingStatus>)
    reads fs
    ensures |st| == |fs|
    ensures forall j :: 0 <= j < |fs| ==> st[j] == fs[j].status
  {
    if |fs| == 0 then [] else [fs[0].status] + FilingStatuses(fs[1..])
  }

  /**
   * With these statuses, every record belongs to a filing the table has
   * given an id (one below `nextId`), and that filing, while it is stored,
   * is submitted.
   */
  predicate RecordsOnlyForSubmittedIn(fs: seq<TaxFiling>, st: seq<FilingStatus>, rs: seq<SubmissionRecord>, nextId: nat)
  {
    |st| == |fs|
    && (forall k :: 0 <= k < |rs| ==> rs[k].filing.id < nextId)
    && forall k, j :: (0 <= k < |rs| && 0 <= j < |fs| && fs[j].id == rs[k].filing.id) ==> st[j] == Submitted
  }

  /**
   * A submission record only belongs to a submitted filing. No operation
   * takes a filing out of SUBMITTED, so a filing that is not submitted has
   * no record yet, and `submitFiling` can add the one record the
   * one-to-one association allows.
   */
  ghost predicate RecordsOnlyForSubmitted(filings: TaxFilingRepository, records: SubmissionRecordRepository)
    reads filings, filings.filings, records
  {
    RecordsOnlyForSubmittedIn(filings.filings, FilingStatuses(filings.filings), records.records, filings.nextId)
  }

  /** Under the invariant, a filing that is not submitted has no record. */
  lemma NoRecordBeforeSubmission(fs: seq<TaxFiling>, st: seq<FilingStatus>, rs: seq<SubmissionRecord>, nextId: nat, i: nat)
    requires RecordsOnlyForSubmittedIn(fs, st, rs, nextId)
    requires i < |fs| && st[i] != Submitted
    ensures forall k :: 0 <= k < |rs| ==> rs[k].filing.id != fs[i].id
  {
  }

  /** Submitting row `i` and recording it keeps the invariant, the filing ids being unique. */
  lemma SubmissionKeepsRecordInvariant(fs: seq<TaxFiling>, st: seq<FilingStatus>, rs: seq<SubmissionRecord>,
                                       nextId: nat, i: nat, rec: SubmissionRecord)
    requires RecordsOnlyForSubmittedIn(fs, st, rs, nextId)
    requires Pairwise(fs, FilingsCoexist)
    requires i < |fs| && rec.filing.id == fs[i].id && fs[i].id < nextId
    ensures RecordsOnlyForSubmittedIn(fs, st[i := Submitted], rs + [rec], nextId)
  {
    var st' := st[i := Submitted];
    var rs' := rs + [rec];
    forall k, j | 0 <= k < |rs'| && 0 <= j < |fs| && fs[j].id == rs'[k].filing.id
      ensures st'[j] == Submitted
    {
      if k == |rs| {
        FilingIdsIdentify(fs, i, j);
      } else {
        assert rs'[k] == rs[k];
      }
    }
  }

  /** Two rows of the filing table with the same id are the same row. */
  lemma FilingIdsIdentify(fs: seq<TaxFiling>, i: nat, j: nat)
    requires Pairwise(fs, FilingsCoexist) && i < |fs| && j < |fs|
    ensures fs[i].id == fs[j].id ==> i == j
  {
    if i < j {
      assert FilingsCoexist(fs[i], fs[j]);
    } else if j < i {
      assert FilingsCoexist(fs[j], fs[i]);
    }
  }

  /** No other row of the filing table is the same object as row `i`. */
  lemma RowsAreDistinct(fs: seq<TaxFiling>, i: nat)
    requires Pairwise(fs, FilingsCoexist) && i < |fs|
    ensures forall j :: 0 <= j < |fs| && j != i ==> fs[j] != fs[i]
  {
    forall j | 0 <= j < |fs| && j != i ensures fs[j] != fs[i] {
      FilingIdsIdentify(fs, i, j);
    }
  }

  /**
   * Moving a filing between DRAFT and READY (`markAsReady`,
   * `unmarkAsReady`) keeps the invariant.
   */
  lemma UnsubmittedMoveKeepsRecordInvariant(fs: seq<TaxFiling>, st: seq<FilingStatus>, rs: seq<SubmissionRecord>,
                                            nextId: nat, i: nat, status: FilingStatus)
    requires RecordsOnlyForSubmittedIn(fs, st, rs, nextId)
    requires i < |fs| && st[i] != Submitted && status != Submitted
    ensures RecordsOnlyForSubmittedIn(fs, st[i := status], rs, nextId)
  {
    var st' := st[i := status];
    forall k, j | 0 <= k < |rs| && 0 <= j < |fs| && fs[j].id == rs[k].filing.id
      ensures st'[j] == Submitted
    {
      assert j != i;
    }
  }

  /**
   * `createFiling` and `createAmendment` store a new filing under the
   * table's next id and move the counter past it: no record can belong to
   * that filing, whatever its status, so the invariant is kept.
   */
  lemma NewFilingKeepsRecordInvariant(fs: seq<TaxFiling>, rs: seq<SubmissionRecord>, nextId: nat,
                                      g: TaxFiling, nextId': nat)
    requires RecordsOnlyForSubmittedIn(fs, FilingStatuses(fs), rs, nextId)
    requires nextId <= g.id < nextId'
    ensures forall k :: 0 <= k < |rs| ==> rs[k].filing.id != g.id
    ensures RecordsOnlyForSubmittedIn(fs + [g], FilingStatuses(fs + [g]), rs, nextId')
  {
    var fs' := fs + [g];
    var st' := FilingStatuses(fs');
    forall k, j | 0 <= k < |rs| && 0 <= j < |fs'| && fs'[j].id == rs[k].filing.id
      ensures st'[j] == Submitted
    {
      assert j < |fs| && fs'[j] == fs[j];
    }
  }

  /**
   * `deleteFiling` removes row `i` and, by cascade, the records of its
   * filing: the records left still belong to submitted stored filings or
   * to none, so the invariant is kept.
   */
  lemma DeletedFilingKeepsRecordInvariant(fs: seq<TaxFiling>, rs: seq<SubmissionRecord>, nextId: nat, i: nat)
    requires RecordsOnlyForSubmittedIn(fs, FilingStatuses(fs), rs, nextId)
    requires i < |fs|
    ensures var fs' := fs[..i] + fs[i + 1..];
      RecordsOnlyForSubmittedIn(fs', FilingStatuses(fs'), RemoveWhereKey(rs, RecordFilingId, fs[i].id), nextId)
  {
    var fs' := fs[..i] + fs[i + 1..];
    var st' := FilingStatuses(fs');
    var rs' := RemoveWhereKey(rs, RecordFilingId, fs[i].id);
    forall k | 0 <= k < |rs'| ensures rs'[k].filing.id < nextId {
      assert rs'[k] in rs;
    }
    forall k, j | 0 <= k < |rs'| && 0 <= j < |fs'| && fs'[j].id == rs'[k].filing.id
      ensures st'[j] == Submitted
    {
      var j' := if j < i then j else j + 1;
      assert fs'[j] == fs[j'];
      assert rs'[k] in rs;
    }
  }

  // ---------------------------------------------------------------------
  // The confirmation number
  // ---------------------------------------------------------------------

  /** The first two characters of the jurisdiction (fewer if it is shorter), upper-cased. */
  function JurisdictionCode(jurisdiction: string): (c: string)
    ensures |c| == Min(2, |jurisdiction|)
    ensures forall i :: 0 <= i < |c| ==> c[i] == ToUpperChar(jurisdiction[i])
  {
    ToUpper(jurisdiction[..Min(2, |jurisdiction|)])
  }

  /**
   * `generateConfirmationNumber`: `CODE-yyyyMMdd-YEAR-SUFFIX`, the suffix
   * being the first eight characters of a random UUID, upper-cased. The
   * date and the UUID are parameters.
   */
  function ConfirmationNumber(jurisdiction: string, today: Date, taxYear: int, uuid: string): string
    requires today.Valid() && |uuid| >= 8
  {
    JurisdictionCode(jurisdiction) + "-" + BasicIsoDate(today) + "-" + IntToDecimal(taxYear) + "-" + ToUpper(uuid[..8])
  }

  /** No lower-case ASCII letter in `s`. */
  predicate NoLowerCase(s: string)
  {
    forall i :: 0 <= i < |s| ==> !IsAsciiLower(s[i])
  }

  /** Where the parts of `a-b-c-d` sit. */
  lemma DashedLayout(a: string, b: string, c: string, d: string)
    ensures var s := a + "-" + b + "-" + c + "-" + d;
      |s| == |a| + |b| + |c| + |d| + 3
      && s[..|a|] == a && s[|a|] == '-'
      && s[|a| + 1..|a| + 1 + |b|] == b && s[|a| + 1 + |b|] == '-'
      && s[|a| + 2 + |b|..|a| + 2 + |b| + |c|] == c && s[|a| + 2 + |b| + |c|] == '-'
      && s[|a| + 3 + |b| + |c|..] == d
  {
    var s := a + "-" + b + "-" + c + "-" + d;
    assert s == a + ("-" + (b + ("-" + (c + ("-" + d)))));
  }

  /** `a-b-c-d` has no lower-case letter when its parts have none. */
  lemma DashedNoLowerCase(a: string, b: string, c: string, d: string)
    requires NoLowerCase(a) && NoLowerCase(b) && NoLowerCase(c) && NoLowerCase(d)
    ensures NoLowerCase(a + "-" + b + "-" + c + "-" + d)
  {
    NoLowerCaseConcat(a, "-");
    NoLowerCaseConcat(a + "-", b);
    NoLowerCaseConcat(a + "-" + b, "-");
    NoLowerCaseConcat(a + "-" + b + "-", c);
    NoLowerCaseConcat(a + "-" + b + "-" + c, "-");
    NoLowerCaseConcat(a + "-" + b + "-" + c + "-", d);
  }

  lemma NoLowerCaseConcat(a: string, b: string)
    requires NoLowerCase(a) && NoLowerCase(b)
    ensures NoLowerCase(a + b)
  {
    forall i | 0 <= i < |a + b| ensures !IsAsciiLower((a + b)[i]) {
      if i >= |a| {
        assert (a + b)[i] == b[i - |a|];
      }
    }
  }

  /**
   * A confirmation number reads back into its parts: the jurisdiction code,
   * the date, the tax year and the suffix sit at fixed places between the
   * three dashes.
   */
  lemma ConfirmationNumberReadsBack(jurisdiction: string, today: Date, taxYear: nat, uuid: string)
    requires today.Valid() && |uuid| >= 8
    ensures var c := ConfirmationNumber(jurisdiction, today, taxYear, uuid);
      var n := |JurisdictionCode(jurisdiction)|;
      var y := |NatToDecimal(taxYear)|;
      |c| == n + y + 19
      && c[..n] == JurisdictionCode(jurisdiction)
      && c[n] == '-' && c[n + 9] == '-' && c[n + 10 + y] == '-'
      && c[n + 1..n + 9] == BasicIsoDate(today)
      && ParseDecimal(c[n + 1..n + 9][..4]) == today.year
      && ParseDecimal(c[n + 1..n + 9][4..6]) == today.month
      && ParseDecimal(c[n + 1..n + 9][6..]) == today.day
      && c[n + 10..n + 10 + y] == NatToDecimal(taxYear) && ParseDecimal(c[n + 10..n + 10 + y]) == taxYear
      && c[n + 11 + y..] == ToUpper(uuid[..8])
  {
    var code := JurisdictionCode(jurisdiction);
    var date := BasicIsoDate(today);
    var year := NatToDecimal(taxYear);
    var suffix := ToUpper(uuid[..8]);
    assert ConfirmationNumber(jurisdiction, today, taxYear, uuid) == code + "-" + date + "-" + year + "-" + suffix;
    DashedLayout(code, date, year, suffix);
    BasicIsoDateRoundTrip(today);
    NatToDecimalRoundTrip(taxYear);
  }

  /** A confirmation number is all upper case: the letters of the code and of the suffix are folded. */
  lemma ConfirmationNumberIsUpperCase(jurisdiction: string, today: Date, taxYear: int, uuid: string)
    requires today.Valid() && |uuid| >= 8
    ensures NoLowerCase(ConfirmationNumber(jurisdiction, today, taxYear, uuid))
  {
    var n := Min(2, |jurisdiction|);
    ToUpperNormalises(jurisdiction[..n]);
    ToUpperNormalises(uuid[..8]);
    var date := BasicIsoDate(today);
    assert NoLowerCase(date) by {
      forall i | 0 <= i < |date| ensures !IsAsciiLower(date[i]) {
        assert IsDigit(date[i]);
      }
    }
    var year := IntToDecimal(taxYear);
    var digits := NatToDecimal(if taxYear < 0 then -taxYear else taxYear);
    assert NoLowerCase(digits) by {
      forall i | 0 <= i < |digits| ensures !IsAsciiLower(digits[i]) {
        assert IsDigit(digits[i]);
      }
    }
    if taxYear < 0 {
      NoLowerCaseConcat("-", digits);
    }
    DashedNoLowerCase(JurisdictionCode(jurisdiction), date, year, ToUpper(uuid[..8]));
  }

  // ---------------------------------------------------------------------
  // submitFiling
  // ---------------------------------------------------------------------

  function RequestIpAddress(request: Option<SubmitFilingRequest>): Option<string>
  {
    if request.Some? then request.value.ipAddress else None
  }

  function RequestUserAgent(request: Option<SubmitFilingRequest>): Option<string>
  {
    if request.Some? then request.value.userAgent else None
  }

  /**
   * The run a submission is made on: the filing's latest run, or else the
   * outcome of calculating it now.
   */
  function RunToSubmit(filings: TaxFilingRepository, rules: TaxRuleVersionRepository,
                       runs: CalculationRunRepository, filingId: nat, userId: nat): Result<CalculationRun, ErrorCode>
    reads filings, filings.filings, rules, rules.versions, runs
  {
    match runs.FindLatest(filingId)
    case Some(latest) => Success(latest)
    case None => CalculationOutcome(filings, rules, filingId, userId, runs.nextId)
  }

  /**
   * What `submitFiling` decides before it writes anything: the run the
   * submission is made on, or the error. The checks come in the source's
   * order: FILING_NOT_FOUND, ACCESS_DENIED, ALREADY_SUBMITTED; then, when
   * the filing has no run yet, the errors of the calculation; then
   * INCOMPLETE_FILING. An existing latest run is used as it is, however
   * old.
   */
  function SubmissionOutcome(filings: TaxFilingRepository, rules: TaxRuleVersionRepository,
                             runs: CalculationRunRepository, filingId: nat, userId: nat): (r: Result<CalculationRun, ErrorCode>)
    reads filings, filings.filings, rules, rules.versions, runs
    ensures FindOwnedFiling(filings, filingId, userId).Failure? ==> r == Failure(FindOwnedFiling(filings, filingId, userId).error)
    ensures (FindOwnedFiling(filings, filingId, userId).Success? && FindOwnedFiling(filings, filingId, userId).value.status == Submitted
             ==> r == Failure(AlreadySubmitted))
    ensures (FindOwnedFiling(filings, filingId, userId).Success? && FindOwnedFiling(filings, filingId, userId).value.status != Submitted
             && RunToSubmit(filings, rules, runs, filingId, userId).Failure?
             ==> r == RunToSubmit(filings, rules, runs, filingId, userId))
    ensures (FindOwnedFiling(filings, filingId, userId).Success? && FindOwnedFiling(filings, filingId, userId).value.status != Submitted
             && RunToSubmit(filings, rules, runs, filingId, userId).Success?
             && |FindOwnedFiling(filings, filingId, userId).value.incomeItems| == 0
             ==> r == Failure(IncompleteFiling))
    ensures r.Success? <==> (FindOwnedFiling(filings, filingId, userId).Success?
                             && FindOwnedFiling(filings, filingId, userId).value.status != Submitted
                             && RunToSubmit(filings, rules, runs, filingId, userId).Success?
                             && |FindOwnedFiling(filings, filingId, userId).value.incomeItems| > 0)
    ensures r.Success? ==> r == RunToSubmit(filings, rules, runs, filingId, userId) && r.value.filingId == filingId
  {
    match FindOwnedFiling(filings, filingId, userId)
    case Failure(e) => Failure(e)
    case Success(f) =>
      if f.status == Submitted then Failure(AlreadySubmitted)
      else
        var run := RunToSubmit(filings, rules, runs, filingId, userId);
        if run.Failure? then run
        else if |f.incomeItems| == 0 then Failure(IncompleteFiling)
        else run
  }

  /** The record `submitFiling` writes for filing `f` on run `run` under confirmation number `number`. */
  function NewRecord(id: nat, f: TaxFiling, run: CalculationRun, number: string, userId: nat,
                     request: Option<SubmitFilingRequest>): (rec: SubmissionRecord)
    ensures rec.id == id && rec.filing == f && rec.calculationRun == run && rec.submittedBy == userId
    ensures rec.confirmationNumber == number
    ensures rec.ipAddress == RequestIpAddress(request) && rec.userAgent == RequestUserAgent(request)
  {
    SubmissionRecord(id, f, run, number, userId, RequestIpAddress(request), RequestUserAgent(request))
  }

  /**
   * `submitFiling`. On success the run decided by `SubmissionOutcome` (the
   * latest one, or a new one saved now) is recorded under a fresh
   * confirmation number and the filing becomes SUBMITTED. On failure the
   * transaction is rolled back: a run the method saved is discarded and
   * nothing else has changed.
   */
  method SubmitFiling(filings: TaxFilingRepository, rules: TaxRuleVersionRepository,
                      runs: CalculationRunRepository, records: SubmissionRecordRepository,
                      filingId: nat, userId: nat, request: Option<SubmitFilingRequest>, today: Date, uuid: string)
    returns (r: Result<SubmissionResponse, ErrorCode>)
    requires today.Valid() && |uuid| >= 8
    requires filings.Valid() && runs.Valid() && records.Valid()
    requires RecordsOnlyForSubmitted(filings, records)
    modifies OwnedTarget(filings, filingId, userId)`status, runs, records
    ensures runs.Valid() && records.Valid() && RecordsOnlyForSubmitted(filings, records)
    ensures var outcome := old(SubmissionOutcome(filings, rules, runs, filingId, userId));
      outcome.Failure? ==>
        r == Failure(outcome.error) && runs.runs == old(runs.runs)
        && unchanged(records) && unchanged(OwnedTarget(filings, filingId, userId))
    ensures var outcome := old(SubmissionOutcome(filings, rules, runs, filingId, userId));
      outcome.Success? ==>
        var f := old(FindOwnedFiling(filings, filingId, userId)).value;
        var number := ConfirmationNumber(f.jurisdiction, today, f.taxYear, uuid);
        var rec := NewRecord(old(records.nextId), f, outcome.value, number, userId, request);
        f.status == Submitted
        && records.records == old(records.records) + [rec]
        && runs.runs == (if old(runs.FindLatest(filingId)).Some? then old(runs.runs) else old(runs.runs) + [outcome.value])
        && r == Success(ToSubmissionResponse(rec))
  {
    var found := FindOwnedFiling(filings, filingId, userId);
    if found.Failure? {
      return Failure(found.error);
    }
    var f := found.value;
    if f.status == Submitted {
      return Failure(AlreadySubmitted);
    }
    // The number depends only on the filing and the inputs, so computing it
    // before the run is fetched changes nothing.
    var number := ConfirmationNumber(f.jurisdiction, today, f.taxYear, uuid);
    r := SubmitOwnedFiling(filings, rules, runs, records, f, filingId, userId, request, number);
  }

  /**
   * `submitFiling` once the filing `f` is found, owned and not yet
   * submitted: get or calculate the run, then complete the submission.
   */
  method SubmitOwnedFiling(filings: TaxFilingRepository, rules: TaxRuleVersionRepository,
                           runs: CalculationRunRepository, records: SubmissionRecordRepository, f: TaxFiling,
                           filingId: nat, userId: nat, request: Option<SubmitFilingRequest>, number: string)
    returns (r: Result<SubmissionResponse, ErrorCode>)
    requires filings.Valid() && runs.Valid() && records.Valid()
    requires RecordsOnlyForSubmitted(filings, records)
    requires f in filings.filings && f.status != Submitted
    modifies f`status, runs, records
    ensures runs.Valid() && records.Valid() && RecordsOnlyForSubmitted(filings, records)
    ensures var run := old(RunToSubmit(filings, rules, runs, filingId, userId));
      (run.Failure? || |f.incomeItems| == 0) ==>
        r == (if run.Failure? then Failure(run.error) else Failure(IncompleteFiling))
        && runs.runs == old(runs.runs) && unchanged(records) && f.status == old(f.status)
    ensures var run := old(RunToSubmit(filings, rules, runs, filingId, userId));
      (run.Success? && |f.incomeItems| > 0) ==>
        var rec := NewRecord(old(records.nextId), f, run.value, number, userId, request);
        f.status == Submitted
        && records.records == old(records.records) + [rec]
        && runs.runs == (if old(runs.FindLatest(filingId)).Some? then old(runs.runs) else old(runs.runs) + [run.value])
        && r == Success(ToSubmissionResponse(rec))
  {
    ghost var run := RunToSubmit(filings, rules, runs, filingId, userId);
    ghost var hadLatest := runs.FindLatest(filingId).Some?;
    ghost var runs0 := runs.runs;
    var kept := |runs.runs|;
    var calculation := GetOrCalculate(filings, rules, runs, filingId, userId);
    assert calculation == run;
    if calculation.Failure? {
      assert runs.runs == runs0;
      r := Failure(calculation.error);
    } else {
      ghost var runs1 := runs.runs;
      assert runs1 == (if hadLatest then runs0 else runs0 + [calculation.value]);
      assert runs1[..kept] == runs0;
      r := CompleteSubmission(filings, runs, records, f, calculation.value, kept, userId, request, number);
    }
  }

  /**
   * The rest of `submitFiling` once the run is known: the completeness
   * check, whose failure rolls back the runs saved after the first `kept`,
   * then the submission record.
   */
  method CompleteSubmission(filings: TaxFilingRepository, runs: CalculationRunRepository,
                            records: SubmissionRecordRepository, f: TaxFiling, run: CalculationRun, kept: nat,
                            userId: nat, request: Option<SubmitFilingRequest>, number: string)
    returns (r: Result<SubmissionResponse, ErrorCode>)
    requires filings.Valid() && runs.Valid() && records.Valid()
    requires RecordsOnlyForSubmitted(filings, records)
    requires f in filings.filings && f.status != Submitted && kept <= |runs.runs|
    modifies f`status, runs`runs, records
    ensures runs.Valid() && records.Valid() && RecordsOnlyForSubmitted(filings, records)
    ensures |f.incomeItems| == 0 ==>
      r == Failure(IncompleteFiling) && runs.runs == old(runs.runs[..kept])
      && unchanged(records) && f.status == old(f.status)
    ensures |f.incomeItems| > 0 ==>
      var rec := NewRecord(old(records.nextId), f, run, number, userId, request);
      f.status == Submitted && records.records == old(records.records) + [rec]
      && runs.runs == old(runs.runs) && r == Success(ToSubmissionResponse(rec))
  {
    if |f.incomeItems| == 0 {
      // The exception rolls the transaction back, with the run just saved.
      runs.RollBackTo(kept);
      return Failure(IncompleteFiling);
    }
    var rec := RecordSubmission(filings, records, f, run, number, userId, request);
    r := Success(ToSubmissionResponse(rec));
  }

  /**
   * The get-or-calculate step of `submitFiling`: the latest run, or else
   * the run `calculateTax` saves. CALCULATION_FAILED, for a calculation
   * that leaves no latest run, cannot happen.
   */
  method GetOrCalculate(filings: TaxFilingRepository, rules: TaxRuleVersionRepository,
                        runs: CalculationRunRepository, filingId: nat, userId: nat)
    returns (r: Result<CalculationRun, ErrorCode>)
    requires runs.Valid()
    modifies runs
    ensures runs.Valid()
    ensures r == old(RunToSubmit(filings, rules, runs, filingId, userId))
    ensures r.Failure? ==> unchanged(runs)
    ensures r.Success? ==>
      runs.runs == (if old(runs.FindLatest(filingId)).Some? then old(runs.runs) else old(runs.runs) + [r.value])
  {
    var latest := runs.FindLatest(filingId);
    if latest.Some? {
      return Success(latest.value);
    }
    var calculated := CalculateTax(filings, rules, runs, filingId, userId);
    if calculated.Failure? {
      return Failure(calculated.error);
    }
    var again := runs.FindLatest(filingId);
    if again.None? {
      assert false;
    }
    r := Success(again.value);
  }

  /**
   * The writes of a successful `submitFiling`: the record under a new id
   * and confirmation number, then the SUBMITTED status.
   */
  method RecordSubmission(filings: TaxFilingRepository, records: SubmissionRecordRepository, f: TaxFiling,
                          run: CalculationRun, number: string, userId: nat, request: Option<SubmitFilingRequest>)
    returns (rec: SubmissionRecord)
    requires filings.Valid() && records.Valid() && RecordsOnlyForSubmitted(filings, records)
    requires f in filings.filings && f.status != Submitted
    modifies records, f`status
    ensures records.Valid() && RecordsOnlyForSubmitted(filings, records)
    ensures rec == NewRecord(old(records.nextId), f, run, number, userId, request)
    ensures records.records == old(records.records) + [rec] && f.status == Submitted
  {
    var fs := filings.filings;
    var i :| 0 <= i < |fs| && fs[i] == f;
    ghost var st := FilingStatuses(fs);
    ghost var rs := records.records;
    NoRecordBeforeSubmission(fs, st, rs, filings.nextId, i);
    rec := SaveRecord(records, f, run, number, userId, request);
    MarkSubmitted(fs, i, f);
    RecordedFilingKeepsInvariant(filings, records, fs, st, rs, i, rec);
  }

  /**
   * The invariant held for rows `fs`, statuses `st` and records `rs`; once
   * the record of row `i` is added and the row is SUBMITTED, it holds again.
   */
  lemma RecordedFilingKeepsInvariant(filings: TaxFilingRepository, records: SubmissionRecordRepository,
                                     fs: seq<TaxFiling>, st: seq<FilingStatus>, rs: seq<SubmissionRecord>,
                                     i: nat, rec: SubmissionRecord)
    requires RecordsOnlyForSubmittedIn(fs, st, rs, filings.nextId) && Pairwise(fs, FilingsCoexist)
    requires filings.filings == fs && i < |fs| && rec.filing.id == fs[i].id && fs[i].id < filings.nextId
    requires records.records == rs + [rec]
    requires FilingStatuses(fs) == st[i := Submitted]
    ensures RecordsOnlyForSubmitted(filings, records)
  {
    SubmissionKeepsRecordInvariant(fs, st, rs, filings.nextId, i, rec);
  }

  /** `filing.setStatus(SUBMITTED)` on row `i`: only that row's status changes. */
  method MarkSubmitted(fs: seq<TaxFiling>, i: nat, f: TaxFiling)
    requires Pairwise(fs, FilingsCoexist) && i < |fs| && fs[i] == f
    modifies f`status
    ensures f.status == Submitted
    ensures FilingStatuses(fs) == old(FilingStatuses(fs))[i := Submitted]
  {
    ghost var before := FilingStatuses(fs);
    RowsAreDistinct(fs, i);
    f.status := Submitted;
    ghost var after := FilingStatuses(fs);
    forall j | 0 <= j < |fs| ensures after[j] == before[i := Submitted][j] {
      if j != i {
        assert fs[j] != fs[i];
      }
    }
  }

  /** `submissionRecordRepository.save` of the new record, under a fresh id. */
  method SaveRecord(records: SubmissionRecordRepository, f: TaxFiling, run: CalculationRun, number: string,
                    userId: nat, request: Option<SubmitFilingRequest>)
    returns (rec: SubmissionRecord)
    requires records.Valid()
    requires forall k :: 0 <= k < |records.records| ==> records.records[k].filing.id != f.id
    modifies records
    ensures records.Valid()
    ensures rec == NewRecord(old(records.nextId), f, run, number, userId, request)
    ensures records.records == old(records.records) + [rec]
  {
    var id := records.NewId();
    rec := NewRecord(id, f, run, number, userId, request);
    records.Add(rec);
  }

  // ---------------------------------------------------------------------
  // Reading submissions back
  // ---------------------------------------------------------------------

  /** `buildResponse`: the record, its filing's year and jurisdiction, and its run's figures. */
  function ToSubmissionResponse(s: SubmissionRecord): (r: SubmissionResponse)
    ensures r.id == s.id && r.filingId == s.filing.id && r.confirmationNumber == s.confirmationNumber
    ensures r.submittedBy == s.submittedBy && r.taxYear == s.filing.taxYear && r.jurisdiction == s.filing.jurisdiction
    ensures r.totalIncome == s.calculationRun.totalIncome && r.totalDeductions == s.calculationRun.totalDeductions
    ensures r.taxableIncome == s.calculationRun.taxableIncome && r.grossTax == s.calculationRun.grossTax
    ensures r.totalCredits == s.calculationRun.totalCredits && r.taxWithheld == s.calculationRun.taxWithheld
    ensures r.netTaxOwing == s.calculationRun.netTaxOwing
    ensures r.isRefund <==> s.calculationRun.netTaxOwing < 0
    ensures r.refundOrOwingAmount >= 0
    ensures s.calculationRun.netTaxOwing == (if r.isRefund then -r.refundOrOwingAmount else r.refundOrOwingAmount)
  {
    var run := s.calculationRun;
    SubmissionResponse(s.id, s.filing.id, s.confirmationNumber, s.submittedBy, s.filing.taxYear, s.filing.jurisdiction,
                       run.totalIncome, run.totalDeductions, run.taxableIncome, run.grossTax, run.totalCredits,
                       run.taxWithheld, run.netTaxOwing, run.IsRefund(), run.AbsoluteAmount())
  }

  /** `getSubmission`: the owned-filing errors, then NOT_SUBMITTED when the filing has no record. */
  function GetSubmission(filings: TaxFilingRepository, records: SubmissionRecordRepository,
                         filingId: nat, userId: nat): (r: Result<SubmissionResponse, ErrorCode>)
    reads filings, records
    ensures FindOwnedFiling(filings, filingId, userId).Failure? ==> r == Failure(FindOwnedFiling(filings, filingId, userId).error)
    ensures FindOwnedFiling(filings, filingId, userId).Success? && records.ForFiling(filingId).None? ==> r == Failure(NotSubmitted)
    ensures r.Success? <==> FindOwnedFiling(filings, filingId, userId).Success? && records.ForFiling(filingId).Some?
    ensures r.Success? ==> r.value == ToSubmissionResponse(records.ForFiling(filingId).value) && r.value.filingId == filingId
  {
    match FindOwnedFiling(filings, filingId, userId)
    case Failure(e) => Failure(e)
    case Success(_) =>
      match records.ForFiling(filingId)
      case None => Failure(NotSubmitted)
      case Some(s) => Success(ToSubmissionResponse(s))
  }

  /** `getSubmissionByConfirmation`: SUBMISSION_NOT_FOUND, then ACCESS_DENIED unless the record's filing is the user's. */
  function GetSubmissionByConfirmation(records: SubmissionRecordRepository, confirmationNumber: string,
                                       userId: nat): (r: Result<SubmissionResponse, ErrorCode>)
    reads records
    ensures records.FindByConfirmationNumber(confirmationNumber).None? ==> r == Failure(SubmissionNotFound)
    ensures (records.FindByConfirmationNumber(confirmationNumber).Some?
             && records.FindByConfirmationNumber(confirmationNumber).value.filing.userId != userId
             ==> r == Failure(AccessDenied))
    ensures r.Success? <==> (records.FindByConfirmationNumber(confirmationNumber).Some?
                             && records.FindByConfirmationNumber(confirmationNumber).value.filing.userId == userId)
    ensures r.Success? ==> r.value == ToSubmissionResponse(records.FindByConfirmationNumber(confirmationNumber).value)
                           && r.value.confirmationNumber == confirmationNumber
  {
    match records.FindByConfirmationNumber(confirmationNumber)
    case None => Failure(SubmissionNotFound)
    case Some(s) =>
      if s.filing.userId != userId then Failure(AccessDenied) else Success(ToSubmissionResponse(s))
  }

  /** The response for the record of filing `filingId` among `rs`, if it has one. */
  function ResponseFor(rs: seq<SubmissionRecord>, filingId: nat): (r: Option<SubmissionResponse>)
    ensures r.None? <==> forall k :: 0 <= k < |rs| ==> rs[k].filing.id != filingId
    ensures r.Some? ==> r.value.filingId == filingId
  {
    match FindByKey(rs, RecordFilingId, filingId)
    case None => None
    case Some(s) => Some(ToSubmissionResponse(s))
  }

  /** A response, when there is one, is built from the first record of the filing. */
  lemma ResponseForFirstRecord(rs: seq<SubmissionRecord>, filingId: nat)
    ensures ResponseFor(rs, filingId).Some? ==>
      exists k :: 0 <= k < |rs| && rs[k].filing.id == filingId
        && (forall j :: 0 <= j < k ==> rs[j].filing.id != filingId)
        && ResponseFor(rs, filingId).value == ToSubmissionResponse(rs[k])
  {
    var i := IndexOfKey(rs, RecordFilingId, filingId);
    if i.Some? {
      var k := i.value;
      assert RecordFilingId(rs[k]) == filingId;
      forall j | 0 <= j < k ensures rs[j].filing.id != filingId {
        assert RecordFilingId(rs[j]) != filingId;
      }
    }
  }

  /**
   * The responses for the filings among `fs` whose status in `st` is
   * SUBMITTED and that have a record among `rs`, in the order of `fs`.
   */
  function SubmittedResponses(fs: seq<TaxFiling>, st: seq<FilingStatus>, rs: seq<SubmissionRecord>): (r: seq<SubmissionResponse>)
    requires |st| == |fs|
    ensures |r| <= |fs|
  {
    if |fs| == 0 then []
    else
      var rest := SubmittedResponses(fs[1..], st[1..], rs);
      if st[0] == Submitted && ResponseFor(rs, fs[0].id).Some? then [ResponseFor(rs, fs[0].id).value] + rest
      else rest
  }

  /** The position in `fs` of the filing entry `k` of the list belongs to. */
  ghost function SubmittedResponseSource(fs: seq<TaxFiling>, st: seq<FilingStatus>, rs: seq<SubmissionRecord>, k: nat): (i: nat)
    requires |st| == |fs| && k < |SubmittedResponses(fs, st, rs)|
    ensures i < |fs|
    decreases |fs|
  {
    var rest := SubmittedResponses(fs[1..], st[1..], rs);
    if st[0] == Submitted && ResponseFor(rs, fs[0].id).Some? then
      assert |SubmittedResponses(fs, st, rs)| == |rest| + 1;
      if k == 0 then 0 else SubmittedResponseSource(fs[1..], st[1..], rs, k - 1) + 1
    else
      assert SubmittedResponses(fs, st, rs) == rest;
      SubmittedResponseSource(fs[1..], st[1..], rs, k) + 1
  }

  /** Entry `k` of the list is the response of a SUBMITTED filing with a record: the one at its source. */
  lemma {:induction false} SubmittedResponsesSound(fs: seq<TaxFiling>, st: seq<FilingStatus>, rs: seq<SubmissionRecord>, k: nat)
    requires |st| == |fs| && k < |SubmittedResponses(fs, st, rs)|
    ensures var i := SubmittedResponseSource(fs, st, rs, k);
      st[i] == Submitted && ResponseFor(rs, fs[i].id) == Some(SubmittedResponses(fs, st, rs)[k])
    decreases |fs|
  {
    var all := SubmittedResponses(fs, st, rs);
    var rest := SubmittedResponses(fs[1..], st[1..], rs);
    var head := ResponseFor(rs, fs[0].id);
    var i := SubmittedResponseSource(fs, st, rs, k);
    if st[0] == Submitted && head.Some? {
      assert all == [head.value] + rest;
      if k > 0 {
        SubmittedResponsesSound(fs[1..], st[1..], rs, k - 1);
        ConsIndex(head.value, rest, k);
        TailIndex(fs, st, i - 1);
      }
    } else {
      assert all == rest;
      SubmittedResponsesSound(fs[1..], st[1..], rs, k);
      TailIndex(fs, st, i - 1);
    }
  }

  lemma TailIndex(fs: seq<TaxFiling>, st: seq<FilingStatus>, j: nat)
    requires |st| == |fs| && j + 1 < |fs|
    ensures fs[j + 1] == fs[1..][j] && st[j + 1] == st[1..][j]
  {
  }

  /**
   * The list keeps the order of `fs` and lists no filing position twice:
   * a later entry comes from a later position.
   */
  lemma {:induction false} SubmittedResponseSourcesIncrease(fs: seq<TaxFiling>, st: seq<FilingStatus>,
                                                            rs: seq<SubmissionRecord>, k1: nat, k2: nat)
    requires |st| == |fs| && k1 < k2 < |SubmittedResponses(fs, st, rs)|
    ensures SubmittedResponseSource(fs, st, rs, k1) < SubmittedResponseSource(fs, st, rs, k2)
    decreases |fs|
  {
    var rest := SubmittedResponses(fs[1..], st[1..], rs);
    var head := ResponseFor(rs, fs[0].id);
    if st[0] == Submitted && head.Some? {
      assert SubmittedResponses(fs, st, rs) == [head.value] + rest;
      assert SubmittedResponseSource(fs, st, rs, k2) == SubmittedResponseSource(fs[1..], st[1..], rs, k2 - 1) + 1;
      if k1 > 0 {
        SubmittedResponseSourcesIncrease(fs[1..], st[1..], rs, k1 - 1, k2 - 1);
        assert SubmittedResponseSource(fs, st, rs, k1) == SubmittedResponseSource(fs[1..], st[1..], rs, k1 - 1) + 1;
      } else {
        assert SubmittedResponseSource(fs, st, rs, k1) == 0;
      }
    } else {
      assert SubmittedResponses(fs, st, rs) == rest;
      SubmittedResponseSourcesIncrease(fs[1..], st[1..], rs, k1, k2);
      assert SubmittedResponseSource(fs, st, rs, k1) == SubmittedResponseSource(fs[1..], st[1..], rs, k1) + 1;
      assert SubmittedResponseSource(fs, st, rs, k2) == SubmittedResponseSource(fs[1..], st[1..], rs, k2) + 1;
    }
  }

  /** Every SUBMITTED filing of `fs` with a record has its response in the list. */
  lemma {:induction false} SubmittedResponsesComplete(fs: seq<TaxFiling>, st: seq<FilingStatus>, rs: seq<SubmissionRecord>, i: nat)
    requires |st| == |fs| && i < |fs| && st[i] == Submitted && ResponseFor(rs, fs[i].id).Some?
    ensures ResponseFor(rs, fs[i].id).value in SubmittedResponses(fs, st, rs)
    decreases |fs|
  {
    if i > 0 {
      SubmittedResponsesComplete(fs[1..], st[1..], rs, i - 1);
    }
  }

  /**
   * The list is built filing by filing in the order of `fs`: on a
   * concatenation it is the concatenation of the lists, and one filing
   * contributes its response exactly when it is SUBMITTED and has a record.
   */
  lemma {:induction false} SubmittedResponsesConcat(fs1: seq<TaxFiling>, st1: seq<FilingStatus>,
                                                    fs2: seq<TaxFiling>, st2: seq<FilingStatus>, rs: seq<SubmissionRecord>)
    requires |st1| == |fs1| && |st2| == |fs2|
    ensures SubmittedResponses(fs1 + fs2, st1 + st2, rs) == SubmittedResponses(fs1, st1, rs) + SubmittedResponses(fs2, st2, rs)
    ensures |fs1| == 1 ==>
      SubmittedResponses(fs1, st1, rs)
      == if st1[0] == Submitted && ResponseFor(rs, fs1[0].id).Some? then [ResponseFor(rs, fs1[0].id).value] else []
    decreases |fs1|
  {
    if |fs1| > 0 {
      assert (fs1 + fs2)[1..] == fs1[1..] + fs2 && (st1 + st2)[1..] == st1[1..] + st2;
      assert (fs1 + fs2)[0] == fs1[0] && (st1 + st2)[0] == st1[0];
      SubmittedResponsesConcat(fs1[1..], st1[1..], fs2, st2, rs);
    } else {
      assert fs1 + fs2 == fs2 && st1 + st2 == st2;
    }
  }

  /** `getUserSubmissions`: the user's filings, latest tax year first, narrowed to the submitted ones with a record. */
  function GetUserSubmissions(filings: TaxFilingRepository, records: SubmissionRecordRepository, userId: nat): (r: seq<SubmissionResponse>)
    reads filings, filings.filings, records
    ensures |r| <= |filings.FindByUserIdOrderByTaxYearDesc(userId)|
  {
    var mine := filings.FindByUserIdOrderByTaxYearDesc(userId);
    UserFilingsAreStored(filings, userId);
    assert forall k :: 0 <= k < |mine| ==> mine[k] in mine;
    SubmittedResponses(mine, FilingStatuses(mine), records.records)
  }

  /** `g` is a SUBMITTED filing of the user, stored in `filings`, and `response` is the response for its record. */
  ghost predicate SubmissionOfFiling(filings: TaxFilingRepository, records: SubmissionRecordRepository, userId: nat,
                                     g: TaxFiling, response: SubmissionResponse)
    reads filings, g, records
  {
    g in filings.filings && g.userId == userId && g.status == Submitted
    && ResponseFor(records.records, g.id) == Some(response)
  }

  /** `response` is the response for the record of some SUBMITTED filing of the user. */
  ghost predicate IsSubmissionOf(filings: TaxFilingRepository, records: SubmissionRecordRepository, userId: nat,
                                 response: SubmissionResponse)
    reads filings, filings.filings, records
  {
    exists g :: g in filings.filings && SubmissionOfFiling(filings, records, userId, g, response)
  }

  /**
   * The submissions `getUserSubmissions` lists are exactly those of the
   * user's SUBMITTED filings that have a record.
   */
  lemma UserSubmissionsAreTheSubmittedFilings(filings: TaxFilingRepository, records: SubmissionRecordRepository, userId: nat)
    ensures forall k :: 0 <= k < |GetUserSubmissions(filings, records, userId)| ==>
      IsSubmissionOf(filings, records, userId, GetUserSubmissions(filings, records, userId)[k])
    ensures forall g :: (g in filings.filings && g.userId == userId && g.status == Submitted
                         && ResponseFor(records.records, g.id).Some?) ==>
      ResponseFor(records.records, g.id).value in GetUserSubmissions(filings, records, userId)
  {
    var mine := filings.FindByUserIdOrderByTaxYearDesc(userId);
    UserFilingsAreStored(filings, userId);
    var st := FilingStatuses(mine);
    var r := GetUserSubmissions(filings, records, userId);
    assert r == SubmittedResponses(mine, st, records.records);
    forall k | 0 <= k < |r| ensures IsSubmissionOf(filings, records, userId, r[k]) {
      var i := SubmittedResponseSource(mine, st, records.records, k);
      SubmittedResponsesSound(mine, st, records.records, k);
      var g := mine[i];
      assert g in mine;
      assert g.status == st[i] == Submitted;
      assert SubmissionOfFiling(filings, records, userId, g, r[k]);
    }
    forall g | g in filings.filings && g.userId == userId && g.status == Submitted && ResponseFor(records.records, g.id).Some?
      ensures ResponseFor(records.records, g.id).value in r
    {
      assert g in mine;
      var i :| 0 <= i < |mine| && mine[i] == g;
      assert st[i] == Submitted;
      SubmittedResponsesComplete(mine, st, records.records, i);
    }
  }

  /**
   * `getUserSubmissions` lists the submissions latest tax year first, one
   * per filing: of two entries, the earlier belongs to a filing of the
   * same or a later year, and the two filings differ.
   */
  lemma UserSubmissionsInYearOrder(filings: TaxFilingRepository, records: SubmissionRecordRepository, userId: nat,
                                   k1: nat, k2: nat)
    returns (g1: TaxFiling, g2: TaxFiling)
    requires filings.Valid()
    requires k1 < k2 < |GetUserSubmissions(filings, records, userId)|
    ensures SubmissionOfFiling(filings, records, userId, g1, GetUserSubmissions(filings, records, userId)[k1])
    ensures SubmissionOfFiling(filings, records, userId, g2, GetUserSubmissions(filings, records, userId)[k2])
    ensures g1.taxYear >= g2.taxYear && g1.id != g2.id
  {
    var mine := filings.FindByUserIdOrderByTaxYearDesc(userId);
    UserFilingsAreStored(filings, userId);
    UserQueryIdsDistinct(filings, userId);
    var st := FilingStatuses(mine);
    var r := GetUserSubmissions(filings, records, userId);
    assert r == SubmittedResponses(mine, st, records.records);
    var i1 := SubmittedResponseSource(mine, st, records.records, k1);
    var i2 := SubmittedResponseSource(mine, st, records.records, k2);
    SubmittedResponsesSound(mine, st, records.records, k1);
    SubmittedResponsesSound(mine, st, records.records, k2);
    SubmittedResponseSourcesIncrease(mine, st, records.records, k1, k2);
    g1, g2 := mine[i1], mine[i2];
    assert g1 in mine && g2 in mine;
    assert NegatedTaxYear(g1) <= NegatedTaxYear(g2);
  }

  /** The user's filings as the query returns them are exactly the stored filings of the user. */
  lemma UserFilingsAreStored(filings: TaxFilingRepository, userId: nat)
    ensures forall g :: g in filings.FindByUserIdOrderByTaxYearDesc(userId) <==> g in filings.filings && g.userId == userId
  {
    var mine := filings.FindByUserIdOrderByTaxYearDesc(userId);
    var own := FilingsOfUser(filings.filings, userId);
    forall g ensures g in mine <==> g in own {
      assert g in mine <==> g in multiset(mine);
      assert g in own <==> g in multiset(own);
    }
  }
}
